/**
 * `app/web_view.py`: the Flask web view of the content hub. Modelled here are
 * the metadata and status helpers, the image-type check of the upload form,
 * the filters of the search page and the progress records that the
 * regeneration pages keep in `generation_progress_store`.
 *
 * Supabase reads and the generator's result are inputs, the clock gives the
 * start time as a parameter, and the background threads run as separate
 * method calls, one after the other.
 */
module AppWebView {
  import opened Wrappers
  import opened StrUtil
  import Json

  /* ---------------------------------------------------------------- helpers */

  /**
   * `parse_metadata`: a falsy value gives `{}`, a dict is returned as it is,
   * a string is decoded (`{}` when it does not decode) and any other value
   * makes `json.loads` raise, which also gives `{}`.
   */
  function ParseMetadata(metadata: Json.Json, decode: Json.Parser): (r: Json.Json)
    ensures !Json.Truthy(metadata) ==> r == Json.JObj([])
    ensures Json.Truthy(metadata) && metadata.JObj? ==> r == metadata
    ensures Json.Truthy(metadata) && metadata.JStr? && decode(metadata.s).None? ==> r == Json.JObj([])
    ensures Json.Truthy(metadata) && metadata.JStr? && decode(metadata.s).Some? ==> r == decode(metadata.s).value
    ensures !metadata.JObj? && !metadata.JStr? ==> r == Json.JObj([])
  {
    if !Json.Truthy(metadata) then Json.JObj([])
    else if metadata.JObj? then metadata
    else if metadata.JStr? then decode(metadata.s).GetOr(Json.JObj([]))
    else Json.JObj([])
  }

  /** Parsing metadata that is already a dict changes nothing. */
  lemma ParsedDictIsFixpoint(metadata: Json.Json, decode: Json.Parser)
    requires ParseMetadata(metadata, decode).JObj?
    ensures ParseMetadata(ParseMetadata(metadata, decode), decode) == ParseMetadata(metadata, decode)
  {
  }

  /** The Bootstrap colour class of each known status. */
  const StatusColors: map<string, string> := map[
    "Not Started" := "secondary", "In Progress" := "warning", "Regenerating" := "info", "Edited" := "info",
    "Review Requested" := "primary", "In Review" := "primary", "Revision Needed" := "warning",
    "Approved" := "success", "Completed" := "success", "Published" := "success",
    "Archived" := "secondary", "Failed" := "danger"]

  /** `status_color`: the colour of a known status, "secondary" for anything else. */
  function StatusColor(status: Json.Json): (r: string)
    ensures r in {"secondary", "warning", "info", "primary", "success", "danger"}
    ensures r == "danger" <==> status == Json.JStr("Failed")
    ensures r == "success" <==> status in {Json.JStr("Approved"), Json.JStr("Completed"), Json.JStr("Published")}
    ensures r == "warning" <==> status in {Json.JStr("In Progress"), Json.JStr("Revision Needed")}
    ensures !status.JStr? || status.s !in StatusColors ==> r == "secondary"
  {
    if status.JStr? && status.s in StatusColors then StatusColors[status.s] else "secondary"
  }

  /* ----------------------------------------------------------- image upload */

  /** What the upload form of `attach_image` does with a posted file. */
  datatype Upload = NoFilePart | NoSelectedFile | InvalidType | Accepted

  const AllowedExtensions: set<string> := {"png", "jpg", "jpeg", "gif"}

  /** `filename.rsplit('.', 1)[1]`: the text after the last dot. */
  function Extension(filename: string): (r: string)
    requires '.' in filename
    ensures '.' !in r
    ensures |r| < |filename| && filename == filename[..|filename| - |r| - 1] + "." + r
  {
    var dot := RFindChar(filename, '.');
    assert filename == filename[..dot] + "." + filename[dot + 1..];
    filename[dot + 1..]
  }

  /**
   * The checks of `attach_image` in order: a missing `image` part, an empty
   * filename, then a filename without a dot or whose lower-cased last
   * extension is not an allowed image type.
   */
  function CheckUpload(hasImagePart: bool, filename: string): (r: Upload)
    ensures r == Accepted <==> hasImagePart && filename != "" && '.' in filename && Lower(Extension(filename)) in AllowedExtensions
    ensures !hasImagePart <==> r == NoFilePart
    ensures r == NoSelectedFile <==> hasImagePart && filename == ""
  {
    if !hasImagePart then NoFilePart
    else if filename == "" then NoSelectedFile
    else if '.' !in filename || Lower(Extension(filename)) !in AllowedExtensions then InvalidType
    else Accepted
  }

  /** Any name followed by a dot and an allowed extension, in any case, is accepted. */
  lemma AllowedNameAccepted(stem: string, ext: string)
    requires '.' !in ext && Lower(ext) in AllowedExtensions
    ensures CheckUpload(true, stem + "." + ext) == Accepted
  {
    var name := stem + "." + ext;
    assert name[|stem|] == '.';
    var dot := RFindChar(name, '.');
    forall i | |stem| < i < |name|
      ensures name[i] != '.'
    {
      assert name[i] == ext[i - |stem| - 1];
    }
    assert dot == |stem|;
    assert name[dot + 1..] == ext;
  }

  /* ----------------------------------------------------------------- search */

  /** A content inventory row as the Supabase client returns it. */
  type Row = seq<(string, Json.Json)>

  const SearchFields: seq<string> := ["content_id", "title", "section", "subsection", "audience_role", "primary_mission_pillar_1"]

  /** `item.get(key, '') or ''`. */
  function FieldValue(row: Row, key: string): (r: Json.Json)
    ensures Json.Get(row, key).None? ==> r == Json.JStr("")
    ensures Json.Get(row, key).Some? && Json.Truthy(Json.Get(row, key).value) ==> r == Json.Get(row, key).value
    ensures Json.Truthy(r) || r == Json.JStr("")
  {
    var v := Json.Get(row, key).GetOr(Json.JStr(""));
    if Json.Truthy(v) then v else Json.JStr("")
  }

  /**
   * The `or` chain of `query in field.lower()` over the searched fields
   * from position `k` on; `None` when `.lower()` is reached on a value that
   * is not a string, which raises.
   */
  function MatchFrom(query: string, row: Row, k: nat): (r: Option<bool>)
    requires k <= |SearchFields|
    decreases |SearchFields| - k
  {
    if k == |SearchFields| then Some(false)
    else
      var v := FieldValue(row, SearchFields[k]);
      if !v.JStr? then None
      else if Contains(Lower(v.s), query) then Some(true)
      else MatchFrom(query, row, k + 1)
  }

  /**
   * A row matches exactly when some field is a string containing the query
   * and every field before it is a string without it; it fails to exactly
   * when every field is a string without it.
   */
  lemma MatchFromMeans(query: string, row: Row, k: nat)
    requires k <= |SearchFields|
    ensures MatchFrom(query, row, k) == Some(true) <==>
              exists j :: k <= j < |SearchFields| && FirstHit(query, row, k, j)
    ensures MatchFrom(query, row, k) == Some(false) <==>
              forall j :: k <= j < |SearchFields| ==>
                            FieldValue(row, SearchFields[j]).JStr? && !Contains(Lower(FieldValue(row, SearchFields[j]).s), query)
  {
    MatchFromHit(query, row, k);
    MatchFromMiss(query, row, k);
  }

  /** A string field without the query. */
  predicate Misses(query: string, row: Row, j: nat)
    requires j < |SearchFields|
  {
    FieldValue(row, SearchFields[j]).JStr? && !Contains(Lower(FieldValue(row, SearchFields[j]).s), query)
  }

  /** Field `j` is the first from `k` on that holds the query: a string containing it, after strings without it. */
  predicate FirstHit(query: string, row: Row, k: nat, j: nat)
    requires k <= j < |SearchFields|
  {
    && FieldValue(row, SearchFields[j]).JStr? && Contains(Lower(FieldValue(row, SearchFields[j]).s), query)
    && forall i :: k <= i < j ==> Misses(query, row, i)
  }

  /** A match is found exactly at a first field that is a string containing the query. */
  lemma {:induction false} MatchFromHit(query: string, row: Row, k: nat)
    requires k <= |SearchFields|
    ensures MatchFrom(query, row, k) == Some(true) <==>
              exists j :: k <= j < |SearchFields| && FirstHit(query, row, k, j)
    decreases |SearchFields| - k
  {
    if k < |SearchFields| {
      MatchFromHit(query, row, k + 1);
      if MatchFrom(query, row, k) == Some(true) && !Misses(query, row, k) {
        assert FirstHit(query, row, k, k);
      }
      if MatchFrom(query, row, k + 1) == Some(true) && Misses(query, row, k) {
        var j :| k + 1 <= j < |SearchFields| && FirstHit(query, row, k + 1, j);
        assert FirstHit(query, row, k, j);
      }
      if exists j :: k <= j < |SearchFields| && FirstHit(query, row, k, j) {
        var j :| k <= j < |SearchFields| && FirstHit(query, row, k, j);
        if j > k {
          assert Misses(query, row, k);
          assert FirstHit(query, row, k + 1, j);
        }
      }
    }
  }

  /** No match is reported exactly when every field is a string without the query. */
  lemma {:induction false} MatchFromMiss(query: string, row: Row, k: nat)
    requires k <= |SearchFields|
    ensures MatchFrom(query, row, k) == Some(false) <==>
              forall j :: k <= j < |SearchFields| ==>
                            FieldValue(row, SearchFields[j]).JStr? && !Contains(Lower(FieldValue(row, SearchFields[j]).s), query)
    decreases |SearchFields| - k
  {
    if k < |SearchFields| {
      MatchFromMiss(query, row, k + 1);
    }
  }

  /** The query loop of `search_content`; `None` when some row raises. */
  function QueryMatches(query: string, rows: seq<Row>): (r: Option<seq<Row>>)
    decreases |rows|
  {
    if rows == [] then Some([])
    else
      var front := QueryMatches(query, rows[..|rows| - 1]);
      var last := rows[|rows| - 1];
      match MatchFrom(query, last, 0)
      case None => None
      case Some(hit) => if front.None? then None else Some(if hit then front.value + [last] else front.value)
  }

  /** The loop keeps exactly the matching rows, and raises exactly when some row raises. */
  lemma QueryMatchesMeans(query: string, rows: seq<Row>)
    ensures QueryMatches(query, rows).Some? ==>
              forall row :: row in QueryMatches(query, rows).value <==> row in rows && MatchFrom(query, row, 0) == Some(true)
    ensures QueryMatches(query, rows).None? <==> exists i :: 0 <= i < |rows| && MatchFrom(query, rows[i], 0).None?
  {
    QueryMatchesKeeps(query, rows);
    QueryMatchesRaises(query, rows);
  }

  /** When the loop finishes, it has kept exactly the matching rows. */
  lemma {:induction false} QueryMatchesKeeps(query: string, rows: seq<Row>)
    ensures QueryMatches(query, rows).Some? ==>
              forall row :: row in QueryMatches(query, rows).value <==> row in rows && MatchFrom(query, row, 0) == Some(true)
    decreases |rows|
  {
    if rows != [] {
      var front := rows[..|rows| - 1];
      QueryMatchesKeeps(query, front);
      assert rows == front + [rows[|rows| - 1]];
    }
  }

  /** The loop raises exactly when some row raises. */
  lemma {:induction false} QueryMatchesRaises(query: string, rows: seq<Row>)
    ensures QueryMatches(query, rows).None? <==> exists i :: 0 <= i < |rows| && MatchFrom(query, rows[i], 0).None?
    decreases |rows|
  {
    if rows != [] {
      var front := rows[..|rows| - 1];
      var last := rows[|rows| - 1];
      QueryMatchesRaises(query, front);
      if MatchFrom(query, last, 0).None? {
        assert MatchFrom(query, rows[|rows| - 1], 0).None?;
      } else {
        assert QueryMatches(query, rows).None? <==> QueryMatches(query, front).None?;
        RaisingRowOfFront(query, rows, front);
      }
    }
  }

  /** When the last row does not raise, some row raises exactly when some row before it does. */
  lemma RaisingRowOfFront(query: string, rows: seq<Row>, front: seq<Row>)
    requires rows != [] && front == rows[..|rows| - 1] && MatchFrom(query, rows[|rows| - 1], 0).Some?
    ensures (exists i :: 0 <= i < |rows| && MatchFrom(query, rows[i], 0).None?) <==>
            (exists i :: 0 <= i < |front| && MatchFrom(query, front[i], 0).None?)
  {
    if exists i :: 0 <= i < |rows| && MatchFrom(query, rows[i], 0).None? {
      var i :| 0 <= i < |rows| && MatchFrom(query, rows[i], 0).None?;
      assert front[i] == rows[i];
    }
    if exists i :: 0 <= i < |rows| - 1 && MatchFrom(query, front[i], 0).None? {
      var i :| 0 <= i < |rows| - 1 && MatchFrom(query, front[i], 0).None?;
      assert rows[i] == front[i];
    }
  }

  /** A raising row stops the loop whatever follows it. */
  lemma {:induction false} RaisePersists(query: string, rows: seq<Row>, j: nat)
    requires j <= |rows| && QueryMatches(query, rows[..j]).None?
    ensures QueryMatches(query, rows).None?
    decreases |rows| - j
  {
    if j < |rows| {
      assert rows[..j + 1][..j] == rows[..j];
      RaisePersists(query, rows, j + 1);
    } else {
      assert rows[..j] == rows;
    }
  }

  /** `[item for item in rows if item.get(key) == value]`. */
  function Keep(rows: seq<Row>, key: string, value: Json.Json): (r: seq<Row>)
    decreases |rows|
  {
    if rows == [] then []
    else (if Json.Get(rows[0], key) == Some(value) then [rows[0]] else []) + Keep(rows[1..], key, value)
  }

  /** The comprehension keeps exactly the rows whose `key` equals `value`. */
  lemma {:induction false} KeepMeans(rows: seq<Row>, key: string, value: Json.Json)
    ensures forall row :: row in Keep(rows, key, value) <==> row in rows && Json.Get(row, key) == Some(value)
    decreases |rows|
  {
    if rows != [] {
      KeepMeans(rows[1..], key, value);
      assert rows == [rows[0]] + rows[1..];
    }
  }

  /** What the search page renders: the rows, the lower-cased query and the selected filters. */
  datatype SearchReply = Found(items: seq<Row>, query: string, selectedStatus: string, selectedSection: Json.Json) | Raised

  /** The status filter, then the section filter, of `search_content`. */
  function Narrow(items: seq<Row>, status: string, section: Json.Json): seq<Row>
  {
    var byStatus := if status != "" then Keep(items, "status", Json.JStr(status)) else items;
    if Json.Truthy(section) then Keep(byStatus, "section", section) else byStatus
  }

  /**
   * The section the filter uses: the loop variable `section` of the query
   * loop overwrites the request's parameter, so after a non-empty query over
   * some rows it is the last row's section.
   */
  function SectionFilter(query: string, section: string, rows: seq<Row>): Json.Json
  {
    if query != "" && rows != [] then FieldValue(rows[|rows| - 1], "section") else Json.JStr(section)
  }

  /** `search_content` as written, over the inventory rows and the request's `q`, `status` and `section`. */
  function SearchResults(query: string, status: string, section: string, rows: seq<Row>): SearchReply
  {
    var matched := if query != "" then QueryMatches(Lower(query), rows) else Some(rows);
    if matched.None? then Raised
    else
      var selected := SectionFilter(query, section, rows);
      Found(Narrow(matched.value, status, selected), if query != "" then Lower(query) else query, status, selected)
  }

  /** `search_content` as evidently intended: the request's section is the one filtered on. */
  function IntendedResults(query: string, status: string, section: string, rows: seq<Row>): SearchReply
  {
    var matched := if query != "" then QueryMatches(Lower(query), rows) else Some(rows);
    if matched.None? then Raised
    else Found(Narrow(matched.value, status, Json.JStr(section)), if query != "" then Lower(query) else query, status, Json.JStr(section))
  }

  /** The narrowing keeps exactly the rows passing the status and section filters. */
  lemma NarrowMeans(items: seq<Row>, status: string, section: Json.Json)
    ensures forall row :: row in Narrow(items, status, section) <==>
              && row in items
              && (status != "" ==> Json.Get(row, "status") == Some(Json.JStr(status)))
              && (Json.Truthy(section) ==> Json.Get(row, "section") == Some(section))
  {
    KeepMeans(items, "status", Json.JStr(status));
    var byStatus := if status != "" then Keep(items, "status", Json.JStr(status)) else items;
    KeepMeans(byStatus, "section", section);
  }

  /**
   * A search that does not raise returns exactly the rows matching the
   * lower-cased query case-insensitively (when there is one), whose status
   * is the requested one (when given) and whose section is the section
   * filter (when truthy); it raises exactly when the query loop reaches a
   * field that is not a string.
   */
  lemma SearchExact(query: string, status: string, section: string, rows: seq<Row>)
    ensures query == "" ==> SearchResults(query, status, section, rows).Found?
    ensures query != "" ==> (SearchResults(query, status, section, rows).Raised? <==>
              exists i :: 0 <= i < |rows| && MatchFrom(Lower(query), rows[i], 0).None?)
    ensures var r := SearchResults(query, status, section, rows);
            r.Found? ==> forall row :: row in r.items <==>
              && row in rows
              && (query != "" ==> MatchFrom(Lower(query), row, 0) == Some(true))
              && (status != "" ==> Json.Get(row, "status") == Some(Json.JStr(status)))
              && (Json.Truthy(r.selectedSection) ==> Json.Get(row, "section") == Some(r.selectedSection))
  {
    QueryMatchesMeans(Lower(query), rows);
    var matched := if query != "" then QueryMatches(Lower(query), rows) else Some(rows);
    if matched.Some? {
      NarrowMeans(matched.value, status, SectionFilter(query, section, rows));
    }
  }

  /** The intended search filters on the request's section, when one is given. */
  lemma IntendedExact(query: string, status: string, section: string, rows: seq<Row>)
    ensures var r := IntendedResults(query, status, section, rows);
            r.Found? ==> r.selectedSection == Json.JStr(section) && forall row :: row in r.items <==>
              && row in rows
              && (query != "" ==> MatchFrom(Lower(query), row, 0) == Some(true))
              && (status != "" ==> Json.Get(row, "status") == Some(Json.JStr(status)))
              && (section != "" ==> Json.Get(row, "section") == Some(Json.JStr(section)))
  {
    QueryMatchesMeans(Lower(query), rows);
    var matched := if query != "" then QueryMatches(Lower(query), rows) else Some(rows);
    if matched.Some? {
      NarrowMeans(matched.value, status, Json.JStr(section));
    }
  }

  /** A row without a content id whose title contains the query is a hit. */
  lemma TitleHit(query: string, row: Row, title: string)
    requires query != [] && Json.Get(row, "content_id").None? && Json.Get(row, "title") == Some(Json.JStr(title))
    requires Contains(Lower(title), query)
    ensures MatchFrom(query, row, 0) == Some(true)
  {
    assert FieldValue(row, "content_id") == Json.JStr("");
    assert Lower("") == "";
    assert !Contains("", query) by {
      assert forall i :: !OccursAt("", query, i);
    }
    assert FieldValue(row, "title") == Json.JStr(title);
  }

  /** When every row is a hit, the query loop keeps them all. */
  lemma {:induction false} AllHitsKept(query: string, rows: seq<Row>)
    requires forall i :: 0 <= i < |rows| ==> MatchFrom(query, rows[i], 0) == Some(true)
    ensures QueryMatches(query, rows) == Some(rows)
    decreases |rows|
  {
    if rows != [] {
      var front := rows[..|rows| - 1];
      assert forall i :: 0 <= i < |front| ==> front[i] == rows[i];
      AllHitsKept(query, front);
      assert front + [rows[|rows| - 1]] == rows;
    }
  }

  /** A search row with a title and a section. */
  function TitledRow(title: string, section: string): Row
  {
    [("title", Json.JStr(title)), ("section", Json.JStr(section))]
  }

  /** Both rows of the search example match the query "q". */
  lemma ExampleRowsHit()
    ensures QueryMatches(Lower("q"), [TitledRow("q", "S1"), TitledRow("q", "S2")]) == Some([TitledRow("q", "S1"), TitledRow("q", "S2")])
  {
    var a := TitledRow("q", "S1");
    var b := TitledRow("q", "S2");
    assert Lower("q") == "q";
    assert Contains("q", "q") by {
      assert OccursAt("q", "q", 0);
    }
    TitleHit("q", a, "q");
    TitleHit("q", b, "q");
    AllHitsKept("q", [a, b]);
  }

  /**
   * Searching "q" in section "S1" over two matching rows, in sections S1
   * and S2, returns the S2 row: the overwritten section filter discards the
   * row the user asked for.
   */
  lemma SectionFilterOverwritten()
    ensures SearchResults("q", "", "S1", [TitledRow("q", "S1"), TitledRow("q", "S2")]) == Found([TitledRow("q", "S2")], "q", "", Json.JStr("S2"))
  {
    var a := TitledRow("q", "S1");
    var b := TitledRow("q", "S2");
    ExampleRowsHit();
    assert Lower("q") == "q";
    assert SectionFilter("q", "S1", [a, b]) == Json.JStr("S2") by {
      assert FieldValue(b, "section") == Json.JStr("S2");
    }
    assert [a, b][1..] == [b] && [b][1..] == [];
    assert Json.Get(a, "section") == Some(Json.JStr("S1"));
    assert Keep([b], "section", Json.JStr("S2")) == [b];
    assert Narrow([a, b], "", Json.JStr("S2")) == [b];
  }

  /** The intended search over the same rows returns the S1 row the user asked for. */
  lemma IntendedSectionKept()
    ensures IntendedResults("q", "", "S1", [TitledRow("q", "S1"), TitledRow("q", "S2")]) == Found([TitledRow("q", "S1")], "q", "", Json.JStr("S1"))
  {
    var a := TitledRow("q", "S1");
    var b := TitledRow("q", "S2");
    ExampleRowsHit();
    assert Lower("q") == "q";
    assert [a, b][1..] == [b] && [b][1..] == [];
    assert Json.Get(b, "section") == Some(Json.JStr("S2"));
    assert Keep([b], "section", Json.JStr("S1")) == [];
    assert Narrow([a, b], "", Json.JStr("S1")) == [a];
  }

  /**
   * The query loop of `search_content`: the matching rows, or `None` when a
   * row raises, and the value the loop leaves in `section`.
   */
  method MatchRows(query: string, section: string, rows: seq<Row>) returns (matched: Option<seq<Row>>, selected: Json.Json)
    ensures matched == QueryMatches(query, rows)
    ensures matched.Some? ==> selected == if rows == [] then Json.JStr(section) else FieldValue(rows[|rows| - 1], "section")
  {
    selected := Json.JStr(section);
    var filtered: seq<Row> := [];
    var i := 0;
    while i < |rows|
      invariant 0 <= i <= |rows|
      invariant QueryMatches(query, rows[..i]) == Some(filtered)
      invariant selected == if i == 0 then Json.JStr(section) else FieldValue(rows[i - 1], "section")
    {
      selected := FieldValue(rows[i], "section");
      var next := MatchRow(query, rows, i, filtered);
      if next.None? {
        RaisePersists(query, rows, i + 1);
        return None, selected;
      }
      filtered := next.value;
      i := i + 1;
    }
    assert rows[..i] == rows;
    matched := Some(filtered);
  }

  /** One turn of the query loop: row `i` kept when it matches, or `None` when it raises. */
  method MatchRow(query: string, rows: seq<Row>, i: nat, filtered: seq<Row>) returns (next: Option<seq<Row>>)
    requires i < |rows| && QueryMatches(query, rows[..i]) == Some(filtered)
    ensures next == QueryMatches(query, rows[..i + 1])
  {
    var hit := MatchFrom(query, rows[i], 0);
    assert rows[..i + 1][..i] == rows[..i];
    if hit.None? {
      return None;
    }
    next := Some(if hit.value then filtered + [rows[i]] else filtered);
  }

  /** `search_content`: the query loop, then the status and section filters. */
  method Search(query: string, status: string, section: string, rows: seq<Row>) returns (r: SearchReply)
    ensures r == SearchResults(query, status, section, rows)
  {
    var q := query;
    var selected := Json.JStr(section);
    var items := rows;
    if query != "" {
      q := Lower(query);
      var matched;
      matched, selected := MatchRows(q, section, rows);
      if matched.None? {
        return Raised;
      }
      items := matched.value;
    }
    if status != "" {
      items := Keep(items, "status", Json.JStr(status));
    }
    if Json.Truthy(selected) {
      items := Keep(items, "section", selected);
    }
    r := Found(items, q, status, selected);
  }

  /* -------------------------------------------------------- progress store */

  /** One step of a generation progress record. */
  datatype Step = Step(name: string, description: string, status: string, error: Option<string>)

  const Pending := "pending"
  const InProgress := "in-progress"
  const Complete := "complete"
  const Error := "error"
  const GenerationFailed := "Generation failed"
  const DefaultModel := "gemini-1.5-flash"
  const DefaultTemperature := "0.7"
  const ItemNotFound := "Content item not found"

  const StepNames: seq<string> := ["Preparing", "Generating Content", "Collecting Sources", "Formatting", "Saving"]
  const StepDescriptions: seq<string> := ["Setting up generation parameters", "Creating content with AI model",
    "Finding and evaluating sources", "Formatting content with sources", "Saving content to database"]

  /** A record of `generation_progress_store`; `generationStarted` is false where the key is absent. */
  datatype Progress = Progress(
    contentId: string, steps: seq<Step>, currentStep: int, startTime: string, model: Json.Json,
    temperature: Json.Json, force: Json.Json, includeReferences: Json.Json, generationStarted: bool)

  /** What `generate_content_for_item` did in the background thread. */
  datatype Outcome = Succeeded | Failed | Threw(message: string)

  /** The error text written into the failing step. */
  function ErrorText(o: Outcome): string
    requires !o.Succeeded?
  {
    if o.Failed? then GenerationFailed else o.message
  }

  /** The five named steps with the given statuses and no error. */
  function StepsWith(statuses: seq<string>): (r: seq<Step>)
    requires |statuses| == 5
    ensures |r| == 5
    ensures forall k :: 0 <= k < 5 ==> r[k] == Step(StepNames[k], StepDescriptions[k], statuses[k], None)
  {
    seq(5, k requires 0 <= k < 5 => Step(StepNames[k], StepDescriptions[k], statuses[k], None))
  }

  /** The statuses of a list of steps. */
  function Statuses(steps: seq<Step>): (r: seq<string>)
    ensures |r| == |steps| && forall k :: 0 <= k < |steps| ==> r[k] == steps[k].status
  {
    seq(|steps|, k requires 0 <= k < |steps| => steps[k].status)
  }

  /** A record has the five named steps. */
  predicate Shaped(p: Progress)
  {
    |p.steps| == 5 && forall k :: 0 <= k < 5 ==> p.steps[k].name == StepNames[k] && p.steps[k].description == StepDescriptions[k]
  }

  /** The record `regenerate_content` stores: five steps, the first in progress, at step 0, not yet started. */
  function RegeneratedRecord(id: string, startTime: string, model: Json.Json, temperature: Json.Json, force: bool, includeReferences: bool): (r: Progress)
    ensures Shaped(r) && r.contentId == id && r.startTime == startTime
    ensures Statuses(r.steps) == [InProgress, Pending, Pending, Pending, Pending]
    ensures forall k :: 0 <= k < 5 ==> r.steps[k].error.None?
    ensures r.currentStep == 0 && !r.generationStarted
    ensures r.model == model && r.temperature == temperature && r.force == Json.JBool(force) && r.includeReferences == Json.JBool(includeReferences)
  {
    Progress(id, StepsWith([InProgress, Pending, Pending, Pending, Pending]), 0, startTime, model, temperature,
             Json.JBool(force), Json.JBool(includeReferences), false)
  }

  /** The record `start_generation` stores: the first step complete, the second in progress, at step 1, already started. */
  function StartedRecord(id: string, startTime: string, model: Json.Json, temperature: Json.Json, force: Json.Json, includeReferences: Json.Json): (r: Progress)
    ensures Shaped(r) && r.contentId == id && r.startTime == startTime
    ensures Statuses(r.steps) == [Complete, InProgress, Pending, Pending, Pending]
    ensures forall k :: 0 <= k < 5 ==> r.steps[k].error.None?
    ensures r.currentStep == 1 && r.generationStarted
    ensures r.model == model && r.temperature == temperature && r.force == force && r.includeReferences == includeReferences
  {
    Progress(id, StepsWith([Complete, InProgress, Pending, Pending, Pending]), 1, startTime, model, temperature,
             force, includeReferences, true)
  }

  /** Whether a poll of `generation_progress` starts the generation of the record. */
  predicate StartsOnPoll(p: Progress)
    requires |p.steps| > 0
  {
    p.currentStep == 0 && p.steps[0].status == InProgress && !p.generationStarted
  }

  /** The record after a poll: marked as started exactly when the poll starts it, otherwise unchanged. */
  function Polled(p: Progress): (r: Progress)
    requires |p.steps| > 0
    ensures StartsOnPoll(p) ==> r == p.(generationStarted := true)
    ensures !StartsOnPoll(p) ==> r == p
  {
    if StartsOnPoll(p) then p.(generationStarted := true) else p
  }

  /** Every step marked complete. */
  function AllComplete(steps: seq<Step>): (r: seq<Step>)
    ensures |r| == |steps| && forall k :: 0 <= k < |steps| ==> r[k] == steps[k].(status := Complete)
  {
    seq(|steps|, k requires 0 <= k < |steps| => steps[k].(status := Complete))
  }

  /** Step `k` marked as failed with an error text, when `k` is a step of the record. */
  function MarkError(steps: seq<Step>, k: int, text: string): (r: seq<Step>)
    ensures |r| == |steps|
    ensures 0 <= k < |steps| ==> r == steps[k := steps[k].(status := Error, error := Some(text))]
    ensures !(0 <= k < |steps|) ==> r == steps
  {
    if 0 <= k < |steps| then steps[k := steps[k].(status := Error, error := Some(text))] else steps
  }

  /**
   * The background thread of `generation_progress`: with at least two steps
   * it completes the first and starts the second at step 1, then on success
   * completes every step and moves past the last; on failure or an
   * exception it marks the current step as failed when it is a step of the
   * record.
   */
  function Generated(p: Progress, o: Outcome): (r: Progress)
    ensures r.generationStarted == p.generationStarted && |r.steps| == |p.steps|
    ensures forall k :: 0 <= k < |p.steps| ==> r.steps[k].name == p.steps[k].name && r.steps[k].description == p.steps[k].description
    ensures |p.steps| < 2 ==> r == p
    ensures |p.steps| >= 2 && o.Succeeded? ==>
              r.currentStep == |p.steps| && forall k :: 0 <= k < |p.steps| ==> r.steps[k].status == Complete
    ensures |p.steps| >= 2 && !o.Succeeded? ==>
              && r.currentStep == 1 && r.steps[0].status == Complete
              && r.steps[1].status == Error && r.steps[1].error == Some(ErrorText(o))
              && r.steps[2..] == p.steps[2..]
  {
    if |p.steps| < 2 then p
    else
      var running := p.(steps := p.steps[0 := p.steps[0].(status := Complete)][1 := p.steps[1].(status := InProgress)], currentStep := 1);
      if o.Succeeded? then running.(steps := AllComplete(running.steps), currentStep := |running.steps|)
      else running.(steps := MarkError(running.steps, running.currentStep, ErrorText(o)))
  }

  /**
   * The background thread of `start_generation`: on success every step is
   * complete and the current step moves past the last; on failure or an
   * exception the second step is marked as failed, when there is one.
   */
  function StartedGenerated(p: Progress, o: Outcome): (r: Progress)
    ensures r.generationStarted == p.generationStarted && |r.steps| == |p.steps|
    ensures forall k :: 0 <= k < |p.steps| ==> r.steps[k].name == p.steps[k].name && r.steps[k].description == p.steps[k].description
    ensures o.Succeeded? ==> r.currentStep == |p.steps| && forall k :: 0 <= k < |p.steps| ==> r.steps[k].status == Complete
    ensures !o.Succeeded? && |p.steps| > 1 ==>
              && r.currentStep == p.currentStep && r.steps[1].status == Error && r.steps[1].error == Some(ErrorText(o))
              && r.steps[0] == p.steps[0] && r.steps[2..] == p.steps[2..]
    ensures !o.Succeeded? && |p.steps| <= 1 ==> r == p
  {
    if o.Succeeded? then p.(steps := AllComplete(p.steps), currentStep := |p.steps|)
    else if |p.steps| > 1 then p.(steps := MarkError(p.steps, 1, ErrorText(o)))
    else p
  }

  /** A shaped record stays shaped through every update. */
  lemma UpdatesKeepShape(p: Progress, o: Outcome)
    requires Shaped(p)
    ensures Shaped(Polled(p)) && Shaped(Generated(p, o)) && Shaped(StartedGenerated(p, o))
  {
  }

  /**
   * The generation of a record starts at most once: after a poll, after its
   * thread has run, and for a record made by `start_generation`, no later
   * poll starts it again.
   */
  lemma StartsAtMostOnce(p: Progress, o: Outcome)
    requires |p.steps| > 0
    ensures !StartsOnPoll(Polled(p))
    ensures !StartsOnPoll(Polled(Generated(Polled(p), o)))
  {
  }

  /** A record made by `start_generation` is never started by a poll, whatever its thread did. */
  lemma StartedRecordNeverPolled(id: string, startTime: string, model: Json.Json, temperature: Json.Json, force: Json.Json, includeReferences: Json.Json, o: Outcome)
    ensures var p := StartedRecord(id, startTime, model, temperature, force, includeReferences);
            !StartsOnPoll(p) && !StartsOnPoll(StartedGenerated(p, o))
  {
  }

  /** A freshly regenerated record is started by its first poll. */
  lemma RegeneratedStartsOnPoll(id: string, startTime: string, model: Json.Json, temperature: Json.Json, force: bool, includeReferences: bool)
    ensures StartsOnPoll(RegeneratedRecord(id, startTime, model, temperature, force, includeReferences))
  {
  }

  /** The JSON reply of `start_generation`, or an exception the route does not catch. */
  datatype StartReply = Started | NotFound(error: string) | Crashed

  /** Python's `float(x)`: the text of the float, `None` when the conversion raises. */
  type FloatCast = Json.Json -> Option<string>

  /** The loop `for step in progress['steps']: step['status'] = 'complete'`. */
  method CompleteSteps(steps: seq<Step>) returns (r: seq<Step>)
    ensures r == AllComplete(steps)
  {
    r := steps;
    var i := 0;
    while i < |r|
      invariant 0 <= i <= |r| == |steps|
      invariant forall k :: 0 <= k < i ==> r[k] == steps[k].(status := Complete)
      invariant forall k :: i <= k < |r| ==> r[k] == steps[k]
    {
      r := r[i := r[i].(status := Complete)];
      i := i + 1;
    }
    assert forall k :: 0 <= k < |r| ==> r[k] == AllComplete(steps)[k];
  }

  /** `generation_progress_store`: the progress records by content id. */
  class ProgressStore {
    var records: map<string, Progress>

    /** Every record is shaped and stored under its own content id. */
    ghost predicate Valid()
      reads this
    {
      forall id :: id in records ==> Shaped(records[id]) && records[id].contentId == id
    }

    constructor()
      ensures records == map[] && Valid()
    {
      records := map[];
    }

    /** `regenerate_content` after a successful form post: a fresh record replaces any earlier one. */
    method Regenerate(id: string, startTime: string, model: Json.Json, temperature: Json.Json, force: bool, includeReferences: bool)
      requires Valid()
      modifies this
      ensures Valid()
      ensures records == old(records)[id := RegeneratedRecord(id, startTime, model, temperature, force, includeReferences)]
    {
      var p := Progress(id, StepsWith([Pending, Pending, Pending, Pending, Pending]), 0, startTime, model, temperature,
                        Json.JBool(force), Json.JBool(includeReferences), false);
      p := p.(steps := p.steps[0 := p.steps[0].(status := InProgress)]);
      assert p.steps == StepsWith([InProgress, Pending, Pending, Pending, Pending]);
      records := records[id := p];
    }

    /**
     * `generation_progress`: `None` (the empty reply) for an unknown id;
     * otherwise the record after the poll, and whether the poll started the
     * generation thread.
     */
    method Poll(id: string) returns (reply: Option<Progress>, started: bool)
      requires Valid()
      modifies this
      ensures Valid()
      ensures id !in old(records) ==> reply.None? && !started && records == old(records)
      ensures id in old(records) ==> && started == StartsOnPoll(old(records)[id])
                                     && records == old(records)[id := Polled(old(records)[id])]
                                     && reply == Some(records[id])
    {
      if id !in records {
        return None, false;
      }
      var p := records[id];
      started := p.currentStep == 0 && p.steps[0].status == InProgress && !p.generationStarted;
      if started {
        p := p.(generationStarted := true);
        records := records[id := p];
      }
      reply := Some(p);
    }

    /** The thread `generation_progress` starts, once the generator has returned or raised. */
    method RunPolledGeneration(id: string, o: Outcome)
      requires Valid()
      modifies this
      ensures Valid()
      ensures id in old(records) ==> records == old(records)[id := Generated(old(records)[id], o)]
      ensures id !in old(records) ==> records == old(records)
    {
      if id !in records {
        return;
      }
      var p := records[id];
      UpdatesKeepShape(p, o);
      p := p.(steps := p.steps[0 := p.steps[0].(status := Complete)][1 := p.steps[1].(status := InProgress)], currentStep := 1);
      if o.Succeeded? {
        var steps := CompleteSteps(p.steps);
        p := p.(steps := steps, currentStep := |p.steps|);
      } else if 0 <= p.currentStep < |p.steps| {
        p := p.(steps := p.steps[p.currentStep := p.steps[p.currentStep].(status := Error, error := Some(ErrorText(o)))]);
      }
      records := records[id := p];
    }

    /**
     * `start_generation`: the request body must be a JSON object; the model,
     * temperature, force flag and reference flag default as in the route,
     * and an unknown item leaves the store as it is.
     */
    method StartGeneration(id: string, data: Json.Json, toFloat: FloatCast, itemFound: bool, startTime: string)
      returns (reply: StartReply)
      requires Valid()
      modifies this
      ensures Valid()
      ensures !data.JObj? ==> reply == Crashed && records == old(records)
      ensures data.JObj? && toFloat(Json.DictGet(data, "temperature", Json.JFloat(DefaultTemperature)).value).None? ==>
                reply == Crashed && records == old(records)
      ensures reply.NotFound? ==> reply.error == ItemNotFound && !itemFound && records == old(records)
      ensures reply == Started <==> data.JObj? && toFloat(Json.DictGet(data, "temperature", Json.JFloat(DefaultTemperature)).value).Some? && itemFound
      ensures reply == Started ==>
                records == old(records)[id := StartedRecord(id, startTime,
                  Json.DictGet(data, "model", Json.JStr(DefaultModel)).value,
                  Json.JFloat(toFloat(Json.DictGet(data, "temperature", Json.JFloat(DefaultTemperature)).value).value),
                  Json.DictGet(data, "force", Json.JBool(false)).value,
                  Json.DictGet(data, "include_references", Json.JBool(true)).value)]
      ensures reply != Started ==> records == old(records)
    {
      if !data.JObj? {
        return Crashed;
      }
      var model := Json.DictGet(data, "model", Json.JStr(DefaultModel)).value;
      var temperature := toFloat(Json.DictGet(data, "temperature", Json.JFloat(DefaultTemperature)).value);
      if temperature.None? {
        return Crashed;
      }
      var force := Json.DictGet(data, "force", Json.JBool(false)).value;
      var includeReferences := Json.DictGet(data, "include_references", Json.JBool(true)).value;
      if !itemFound {
        return NotFound(ItemNotFound);
      }
      var p := Progress(id, StepsWith([Complete, InProgress, Pending, Pending, Pending]), 1, startTime, model,
                        Json.JFloat(temperature.value), force, includeReferences, true);
      records := records[id := p];
      reply := Started;
    }

    /** The thread `start_generation` starts, once the generator has returned or raised. */
    method RunStartedGeneration(id: string, o: Outcome)
      requires Valid()
      modifies this
      ensures Valid()
      ensures id in old(records) ==> records == old(records)[id := StartedGenerated(old(records)[id], o)]
      ensures id !in old(records) ==> records == old(records)
    {
      if id !in records {
        return;
      }
      var p := records[id];
      UpdatesKeepShape(p, o);
      if o.Succeeded? {
        var steps := CompleteSteps(p.steps);
        p := p.(steps := steps, currentStep := |p.steps|);
      } else if |p.steps| > 1 {
        p := p.(steps := p.steps[1 := p.steps[1].(status := Error, error := Some(ErrorText(o)))]);
      }
      records := records[id := p];
    }
  }
}
