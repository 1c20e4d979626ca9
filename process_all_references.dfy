/**
 * `batch/process_all_references.py`: sends every stored reference through
 * the AI reference processor and writes the result back.
 *
 * `process_reference` builds a citation text when the reference has no
 * content, asks the AI to process it, and stores the processed fields with
 * metadata marking the reference as AI-processed. `process_all_references`
 * walks the table in batches, skips references already marked, and counts
 * each visited reference as processed, failed or skipped.
 *
 * The database, the AI processor, the ISO date parser, `json.loads`, the
 * clock and `update_reference` are parameters (`Services`, `Fetch`).
 */
module ProcessAllReferences {
  import opened Wrappers
  import opened StrUtil
  import Json

  /** `datetime.fromisoformat(s).year`, or `None` when that raises. */
  type IsoYear = string -> Option<nat>

  /** The record handed to `update_reference`. */
  datatype UpdatedReference = UpdatedReference(
    id: Json.Json, title: Json.Json, authors: Json.Json, publicationDate: Json.Json, publicationName: Json.Json,
    url: Json.Json, doi: Json.Json, referenceType: Json.Json, content: Json.Json, summary: Json.Json,
    keywords: Json.Json, isActive: Json.Json, createdBy: Json.Json, metadata: Json.Json)

  /**
   * What the script calls into: the date parser, `process_reference_with_ai`
   * (`None` when it raises), `json.loads`, `update_reference` and the time
   * of processing as an ISO string.
   */
  datatype Services = Services(isoYear: IsoYear, ai: (Json.Json, string) -> Option<Json.Json>, decode: Json.Parser,
                               update: UpdatedReference -> bool, now: string)

  type Props = seq<(string, Json.Json)>

  /** `d.get(key, default)` on a dict. */
  function Field(props: Props, key: string, default: Json.Json): Json.Json
  {
    Json.Get(props, key).GetOr(default)
  }

  /* ------------------------------------------------------ reference text */

  /**
   * The year of a publication date: the ISO year when the date parses,
   * else its first four characters when it has that many, else empty; empty
   * too when the date is no non-empty string.
   */
  function YearOf(date: Json.Json, isoYear: IsoYear): (r: string)
    ensures r != "" ==> date.JStr? && date.s != ""
    ensures date.JStr? && date.s != "" && isoYear(date.s).Some? ==> r == NatToString(isoYear(date.s).value)
    ensures date.JStr? && isoYear(date.s).None? ==> (|date.s| >= 4 <==> r != "") && (r != "" ==> r == date.s[..4])
  {
    if Json.Truthy(date) && date.JStr? then
      if isoYear(date.s).Some? then NatToString(isoYear(date.s).value)
      else if |date.s| >= 4 then date.s[..4] else ""
    else ""
  }

  /** How a field appears in the text: its `str()` when it is truthy, and not at all otherwise. */
  function Shown(j: Json.Json): (r: Option<string>)
    ensures r.Some? <==> Json.Truthy(j)
  {
    if Json.Truthy(j) then Some(Json.PyStr(j)) else None
  }

  function YearPart(year: string): string
  {
    if year != "" then " (" + year + ")." else "."
  }

  function PublicationPart(publication: Option<string>): string
  {
    if publication.Some? then " " + publication.value + "." else ""
  }

  /** The link: the DOI when there is one, else the URL when there is one. */
  function LinkPart(doi: Option<string>, url: Option<string>): string
  {
    if doi.Some? then " doi:" + doi.value
    else if url.Some? then " " + url.value
    else ""
  }

  function TitlePart(title: string): string
  {
    " " + title + "."
  }

  /** What follows the year: the title, then the publication name and the link when there are. */
  function Tail(title: string, publication: Option<string>, doi: Option<string>, url: Option<string>): string
  {
    TitlePart(title) + PublicationPart(publication) + LinkPart(doi, url)
  }

  /** The citation text built from the authors, year, title, publication name, DOI and URL as they are shown. */
  function CitationText(authors: string, year: string, title: string, publication: Option<string>, doi: Option<string>, url: Option<string>): string
  {
    authors + YearPart(year) + Tail(title, publication, doi, url)
  }

  /** The citation text of a reference without content, from its fields. */
  function ReferenceText(props: Props, isoYear: IsoYear): (r: string)
    ensures r != "" && StartsWith(r, Json.PyStr(Field(props, "authors", Json.JStr(""))))
    ensures var doi := Shown(Field(props, "doi", Json.JStr("")));
            doi.Some? ==> EndsWith(r, " doi:" + doi.value)
    ensures var doi, url := Shown(Field(props, "doi", Json.JStr(""))), Shown(Field(props, "url", Json.JStr("")));
            doi.None? && url.Some? ==> EndsWith(r, " " + url.value)
  {
    CitationTextShape(Json.PyStr(Field(props, "authors", Json.JStr(""))), YearOf(Field(props, "publication_date", Json.JStr("")), isoYear),
                      Json.PyStr(Field(props, "title", Json.JStr(""))), Shown(Field(props, "publication_name", Json.JStr(""))),
                      Shown(Field(props, "doi", Json.JStr(""))), Shown(Field(props, "url", Json.JStr(""))));
    CitationText(Json.PyStr(Field(props, "authors", Json.JStr(""))), YearOf(Field(props, "publication_date", Json.JStr("")), isoYear),
                 Json.PyStr(Field(props, "title", Json.JStr(""))), Shown(Field(props, "publication_name", Json.JStr(""))),
                 Shown(Field(props, "doi", Json.JStr(""))), Shown(Field(props, "url", Json.JStr(""))))
  }

  /**
   * The built text starts with the authors, carries the year right after
   * them when there is one, and ends with the DOI when there is one, else
   * with the URL when there is one, else with a full stop; it is never empty.
   */
  lemma CitationTextShape(authors: string, year: string, title: string, publication: Option<string>, doi: Option<string>, url: Option<string>)
    ensures var r := CitationText(authors, year, title, publication, doi, url);
            && r != ""
            && StartsWith(r, authors)
            && (year != "" ==> OccursAt(r, " (" + year + ").", |authors|))
            && (doi.Some? ==> EndsWith(r, " doi:" + doi.value))
            && (doi.None? && url.Some? ==> EndsWith(r, " " + url.value))
            && (doi.None? && url.None? ==> EndsWith(r, "."))
  {
    var y := YearPart(year);
    var tail := Tail(title, publication, doi, url);
    Around(authors, y, tail);
    TailEnds(title, publication, doi, url);
    Suffix(authors + y, tail, LinkPart(doi, url));
    if LinkPart(doi, url) == "" {
      Suffix(authors + y, tail, ".");
    }
  }

  /** The tail ends with the link, and with a full stop when there is no link. */
  lemma TailEnds(title: string, publication: Option<string>, doi: Option<string>, url: Option<string>)
    ensures var t := Tail(title, publication, doi, url);
            && t != ""
            && EndsWith(t, LinkPart(doi, url))
            && (LinkPart(doi, url) == "" ==> EndsWith(t, "."))
  {
    var front := TitlePart(title) + PublicationPart(publication);
    var link := LinkPart(doi, url);
    var pub := PublicationPart(publication);
    Around(front, link, []);
    assert front + link + [] == front + link;
    if pub == "" {
      assert front == TitlePart(title) + [];
    } else {
      Around(TitlePart(title), pub, []);
      assert TitlePart(title) + pub + [] == front;
    }
    if link == "" {
      assert Tail(title, publication, doi, url) == front + [];
    }
  }

  /** `b` sits between `a` and `c` in `a + b + c`. */
  lemma Around(a: string, b: string, c: string)
    ensures StartsWith(a + b + c, a) && OccursAt(a + b + c, b, |a|)
    ensures c == [] ==> EndsWith(a + b, b) && (b != [] ==> (a + b)[|a + b| - 1] == b[|b| - 1])
  {
    assert (a + b + c)[..|a|] == a;
    assert (a + b + c)[|a|..|a| + |b|] == b;
  }

  /** A suffix of the right part is a suffix of the whole. */
  lemma Suffix(a: string, b: string, p: string)
    requires EndsWith(b, p)
    ensures EndsWith(a + b, p)
  {
    assert (a + b)[|a + b| - |p|..] == b[|b| - |p|..];
  }

  /** Appends the parts of the citation text one by one, as the script does. */
  method BuildCitationText(authors: string, year: string, title: string, publication: Option<string>, doi: Option<string>, url: Option<string>)
    returns (text: string)
    ensures text == CitationText(authors, year, title, publication, doi, url)
  {
    text := authors;
    if year != "" {
      text := text + (" (" + year + ").");
    } else {
      text := text + ".";
    }
    ghost var head := text;
    assert head == authors + YearPart(year);
    text := text + (" " + title + ".");
    ghost var titled := text;
    if publication.Some? {
      text := text + (" " + publication.value + ".");
    } else {
      assert text == titled + PublicationPart(publication);
    }
    ghost var published := text;
    assert published == head + TitlePart(title) + PublicationPart(publication);
    if doi.Some? {
      text := text + (" doi:" + doi.value);
    } else if url.Some? {
      text := text + (" " + url.value);
    } else {
      assert text == published + LinkPart(doi, url);
    }
    assert text == published + LinkPart(doi, url);
    Regroup(head, TitlePart(title), PublicationPart(publication), LinkPart(doi, url));
  }

  lemma Regroup(x: string, t: string, p: string, l: string)
    ensures x + t + p + l == x + (t + p + l)
  {
  }

  /* ------------------------------------------------------------ metadata */

  /** `metadata.update(extra)`: the bindings of `extra` in order, a later one winning. */
  function Merged(props: Props, extra: Props): Props
    decreases |extra|
  {
    if extra == [] then props
    else Json.Put(Merged(props, extra[..|extra| - 1]), extra[|extra| - 1].0, extra[|extra| - 1].1)
  }

  /** After the update a key has its value from `extra` when `extra` binds it, and its old value otherwise. */
  lemma {:induction false} MergedGet(props: Props, extra: Props, k: string)
    ensures Json.Get(Merged(props, extra), k) == if Json.Get(extra, k).Some? then Json.Get(extra, k) else Json.Get(props, k)
    decreases |extra|
  {
    if extra != [] {
      MergedGet(props, extra[..|extra| - 1], k);
    }
  }

  /** A metadata value as the script reads it: a string is decoded, falling back to an empty dict. */
  function ReadMetadata(meta: Json.Json, decode: Json.Parser): Json.Json
  {
    if meta.JStr? then decode(meta.s).GetOr(Json.JObj([])) else meta
  }

  /** The AI-processing bindings added to a reference's metadata. */
  function AiMetadata(processed: Props, model: string, now: string): Props
  {
    [("ai_processed", Json.JBool(true)), ("processing_date", Json.JStr(now)), ("model_used", Json.JStr(model)),
     ("confidence_score", Field(processed, "confidence_score", Json.JInt(0))),
     ("verification", Field(processed, "verification", Json.JObj([])))]
  }

  /** The AI bindings mark the reference as processed. */
  lemma AiMetadataProcessed(processed: Props, model: string, now: string)
    ensures Json.Get(AiMetadata(processed, model, now), "ai_processed") == Some(Json.JBool(true))
  {
    Json.GetAt(AiMetadata(processed, model, now), "ai_processed", 0);
  }

  /** The metadata stored after processing: the old dict updated with the AI bindings, or those alone. */
  function StoredMetadata(props: Props, ai: Props, decode: Json.Parser): Json.Json
  {
    var m := ReadMetadata(Field(props, "metadata", Json.JObj([])), decode);
    if m.JObj? then Json.JObj(Merged(m.props, ai)) else Json.JObj(ai)
  }

  /** The skip rule of the batch loop: the metadata, once read, is a dict whose `ai_processed` is truthy. */
  predicate AlreadyProcessed(meta: Json.Json, decode: Json.Parser)
  {
    var m := ReadMetadata(meta, decode);
    m.JObj? && Json.Truthy(Field(m.props, "ai_processed", Json.JBool(false)))
  }

  /** A reference stored with the metadata of its processing is skipped by the next run. */
  lemma StoredIsSkipped(props: Props, processed: Props, model: string, now: string, decode: Json.Parser)
    ensures AlreadyProcessed(StoredMetadata(props, AiMetadata(processed, model, now), decode), decode)
  {
    var ai := AiMetadata(processed, model, now);
    AiMetadataProcessed(processed, model, now);
    var m := ReadMetadata(Field(props, "metadata", Json.JObj([])), decode);
    if m.JObj? {
      MergedGet(m.props, ai, "ai_processed");
    }
  }

  /* --------------------------------------------------- process_reference */

  /** The text sent to the AI: the content when it is truthy, else the built citation. */
  function TextFor(props: Props, isoYear: IsoYear): (r: Json.Json)
  {
    var content := Field(props, "content", Json.JStr(""));
    if Json.Truthy(content) then content else Json.JStr(ReferenceText(props, isoYear))
  }

  /** The record written back: the processed fields, falling back to the stored ones. */
  function UpdatedFor(props: Props, processed: Props, text: Json.Json, model: string, sv: Services): UpdatedReference
  {
    UpdatedReference(
      Field(props, "id", Json.JNull),
      Field(processed, "title", Field(props, "title", Json.JStr(""))),
      Field(processed, "authors", Field(props, "authors", Json.JStr(""))),
      Field(processed, "publication_date", Field(props, "publication_date", Json.JNull)),
      Field(processed, "publication_name", Field(props, "publication_name", Json.JStr(""))),
      Field(processed, "url", Field(props, "url", Json.JStr(""))),
      Field(processed, "doi", Field(props, "doi", Json.JStr(""))),
      Field(processed, "reference_type", Field(props, "reference_type", Json.JStr("Other"))),
      Field(processed, "apa_citation", text),
      Field(props, "abstract", Json.JStr("")),
      Field(props, "keywords", Json.JArr([])),
      Field(props, "is_active", Json.JBool(true)),
      Field(props, "created_by", Json.JStr("system")),
      StoredMetadata(props, AiMetadata(processed, model, sv.now), sv.decode))
  }

  /**
   * Whether `process_reference` succeeds: the reference needs an id, the AI
   * must answer with a dict deeming it a valid reference, and the update
   * must succeed. An exception anywhere counts as failure.
   */
  function Processes(props: Props, model: string, sv: Services): bool
  {
    if !Json.Truthy(Field(props, "id", Json.JNull)) then false
    else
      var text := TextFor(props, sv.isoYear);
      if !Json.Truthy(text) then false
      else
        var processed := sv.ai(text, model);
        if processed.None? || !processed.value.JObj? then false
        else if !Json.Truthy(Field(processed.value.props, "is_valid_reference", Json.JBool(false))) then false
        else sv.update(UpdatedFor(props, processed.value.props, text, model, sv))
  }

  /** The text sent to the AI is never empty, so a reference with an id always reaches the AI. */
  lemma TextForTruthy(props: Props, isoYear: IsoYear)
    ensures Json.Truthy(TextFor(props, isoYear))
  {
    if !Json.Truthy(Field(props, "content", Json.JStr(""))) {
      CitationTextShape(Json.PyStr(Field(props, "authors", Json.JStr(""))), YearOf(Field(props, "publication_date", Json.JStr("")), isoYear),
                        Json.PyStr(Field(props, "title", Json.JStr(""))), Shown(Field(props, "publication_name", Json.JStr(""))),
                        Shown(Field(props, "doi", Json.JStr(""))), Shown(Field(props, "url", Json.JStr(""))));
    }
  }

  /**
   * `process_reference` succeeds exactly when the reference has an id, the
   * AI answers with a dict deeming it a valid reference, and the update of
   * the record built from that answer succeeds.
   */
  lemma ProcessesExactly(props: Props, model: string, sv: Services)
    ensures var text := TextFor(props, sv.isoYear);
            var answer := sv.ai(text, model);
            Processes(props, model, sv) <==> && Json.Truthy(Field(props, "id", Json.JNull))
                                             && answer.Some? && answer.value.JObj?
                                             && Json.Truthy(Field(answer.value.props, "is_valid_reference", Json.JBool(false)))
                                             && sv.update(UpdatedFor(props, answer.value.props, text, model, sv))
  {
    TextForTruthy(props, sv.isoYear);
  }

  method ProcessReference(props: Props, model: string, sv: Services) returns (ok: bool)
    ensures ok == Processes(props, model, sv)
  {
    var id := Field(props, "id", Json.JNull);
    if !Json.Truthy(id) {
      return false;
    }
    var text := Field(props, "content", Json.JStr(""));
    if !Json.Truthy(text) {
      var built := BuildCitationText(Json.PyStr(Field(props, "authors", Json.JStr(""))), YearOf(Field(props, "publication_date", Json.JStr("")), sv.isoYear),
                                     Json.PyStr(Field(props, "title", Json.JStr(""))), Shown(Field(props, "publication_name", Json.JStr(""))),
                                     Shown(Field(props, "doi", Json.JStr(""))), Shown(Field(props, "url", Json.JStr(""))));
      text := Json.JStr(built);
    }
    if !Json.Truthy(text) {
      return false;
    }
    var processed := sv.ai(text, model);
    if processed.None? || !processed.value.JObj? {
      return false;
    }
    if !Json.Truthy(Field(processed.value.props, "is_valid_reference", Json.JBool(false))) {
      return false;
    }
    ok := sv.update(UpdatedFor(props, processed.value.props, text, model, sv));
  }

  /* ---------------------------------------------- process_all_references */

  /** `get_all_references(limit, offset)`. */
  type Fetch = (int, int) -> seq<Json.Json>

  /** The rows a query `select('*')` with the optional limit and offset returns from a table. */
  function TableSlice(table: seq<Json.Json>, limit: int, offset: int): (r: seq<Json.Json>)
    ensures limit > 0 ==> |r| <= limit
    ensures 0 <= offset <= |table| ==> |r| <= |table| - offset && r == table[offset..offset + |r|]
    ensures 0 <= offset <= |table| && limit > 0 ==> |r| == if offset + limit <= |table| then limit else |table| - offset
    ensures limit <= 0 && 0 <= offset <= |table| ==> r == table[offset..]
  {
    var start := if offset <= 0 then 0 else if offset > |table| then |table| else offset;
    if limit > 0 then table[start..if start + limit > |table| then |table| else start + limit] else table[start..]
  }

  /** `get_all_references`: nothing when the client is not connected or the query fails. */
  function GetAllReferences(connected: bool, table: seq<Json.Json>, limit: int, offset: int): (r: seq<Json.Json>)
    ensures !connected ==> r == []
    ensures connected ==> r == TableSlice(table, limit, offset)
  {
    if connected then TableSlice(table, limit, offset) else []
  }

  /** How many references the run covers: all of them, or `max_references` when that is positive and smaller. */
  function Limit(total: nat, maxReferences: int): (r: nat)
    ensures r <= total
    ensures maxReferences > 0 ==> r <= maxReferences
    ensures r == total || r == maxReferences
  {
    if maxReferences > 0 && maxReferences < total then maxReferences else total
  }

  /** The batch sizes asked for: `min(batch_size, total_references - offset)`. */
  function BatchSize(batchSize: int, limit: int, offset: int): int
  {
    if batchSize < limit - offset then batchSize else limit - offset
  }

  /** The references the batch loop visits, in order, from `offset` on. */
  function Visited(fetch: Fetch, batchSize: int, limit: int, offset: int): seq<Json.Json>
    decreases limit - offset
  {
    if offset >= limit then []
    else
      var refs := fetch(BatchSize(batchSize, limit, offset), offset);
      if refs == [] then [] else refs + Visited(fetch, batchSize, limit, offset + |refs|)
  }

  /** One batch of the walk: the fetched references, then the walk from past them. */
  lemma VisitedStep(fetch: Fetch, batchSize: int, limit: int, offset: int)
    requires offset < limit && fetch(BatchSize(batchSize, limit, offset), offset) != []
    ensures var refs := fetch(BatchSize(batchSize, limit, offset), offset);
            Visited(fetch, batchSize, limit, offset) == refs + Visited(fetch, batchSize, limit, offset + |refs|)
  {
  }

  lemma Associative(a: seq<Json.Json>, b: seq<Json.Json>, c: seq<Json.Json>)
    ensures a + (b + c) == (a + b) + c
  {
  }

  /** What happens to one visited reference. */
  datatype Kind = Done | Failed | Skipped

  /** `None` when the reference is no dict, so the loop raises. */
  function Outcome(ref: Json.Json, model: string, sv: Services): Option<Kind>
  {
    if !ref.JObj? then None
    else if AlreadyProcessed(Field(ref.props, "metadata", Json.JObj([])), sv.decode) then Some(Skipped)
    else if Processes(ref.props, model, sv) then Some(Done)
    else Some(Failed)
  }

  datatype Counts = Counts(processed: nat, failed: nat, skipped: nat)

  function Count(c: Counts, k: Kind): Counts
  {
    match k
    case Done => c.(processed := c.processed + 1)
    case Failed => c.(failed := c.failed + 1)
    case Skipped => c.(skipped := c.skipped + 1)
  }

  /** The batch loop's outcome for one reference, as a function value. */
  function Visit(model: string, sv: Services): Json.Json -> Option<Kind>
  {
    ref => Outcome(ref, model, sv)
  }

  /** `visit` gives the batch loop's outcome for every reference. */
  ghost predicate IsVisit(visit: Json.Json -> Option<Kind>, model: string, sv: Services)
  {
    forall ref {:trigger Outcome(ref, model, sv)} :: visit(ref) == Outcome(ref, model, sv)
  }

  lemma VisitIsVisit(model: string, sv: Services)
    ensures IsVisit(Visit(model, sv), model, sv)
  {
    forall ref
      ensures Visit(model, sv)(ref) == Outcome(ref, model, sv)
    {
    }
  }

  /** The counters after visiting `refs` with outcomes `visit`; `None` when one of them raises. */
  function Tally(refs: seq<Json.Json>, visit: Json.Json -> Option<Kind>): (r: Option<Counts>)
    ensures r.Some? ==> r.value.processed + r.value.failed + r.value.skipped == |refs|
    decreases |refs|
  {
    if refs == [] then Some(Counts(0, 0, 0))
    else
      var front := Tally(refs[..|refs| - 1], visit);
      var k := visit(refs[|refs| - 1]);
      if front.None? || k.None? then None else Some(Count(front.value, k.value))
  }

  /** Any two functions that give the batch loop's outcomes give the same tally. */
  lemma {:induction false} TallyAgrees(refs: seq<Json.Json>, visit: Json.Json -> Option<Kind>, model: string, sv: Services)
    requires IsVisit(visit, model, sv)
    ensures Tally(refs, visit) == Tally(refs, Visit(model, sv))
    decreases |refs|
  {
    if refs != [] {
      TallyAgrees(refs[..|refs| - 1], visit, model, sv);
      assert Visit(model, sv)(refs[|refs| - 1]) == Outcome(refs[|refs| - 1], model, sv);
    }
  }

  /** The visit raises exactly when some visited reference is no dict. */
  lemma {:induction false} TallyRaises(refs: seq<Json.Json>, model: string, sv: Services)
    ensures Tally(refs, Visit(model, sv)).None? <==> exists i :: 0 <= i < |refs| && !refs[i].JObj?
    decreases |refs|
  {
    if refs != [] {
      var front := refs[..|refs| - 1];
      TallyRaises(front, model, sv);
      assert forall i :: 0 <= i < |front| ==> front[i] == refs[i];
      assert Visit(model, sv)(refs[|refs| - 1]) == Outcome(refs[|refs| - 1], model, sv);
      if Tally(front, Visit(model, sv)).None? {
        var i :| 0 <= i < |front| && !front[i].JObj?;
        assert !refs[i].JObj?;
      }
    }
  }

  /** The statistics `process_all_references` returns. */
  datatype Stats = Stats(total: nat, processed: nat, failed: nat, skipped: nat)

  /** The body of the inner loop for one reference: `None` when it is no dict, so `.get` raises. */
  method VisitReference(ref: Json.Json, model: string, sv: Services) returns (k: Option<Kind>)
    ensures k == Outcome(ref, model, sv)
  {
    if !ref.JObj? {
      return None;
    }
    if AlreadyProcessed(Field(ref.props, "metadata", Json.JObj([])), sv.decode) {
      return Some(Skipped);
    }
    var ok := ProcessReference(ref.props, model, sv);
    k := if ok then Some(Done) else Some(Failed);
  }

  /** One reference visited and counted on from `counts`, the tally of the references `seen` before it. */
  method CountReference(ref: Json.Json, model: string, sv: Services, counts: Counts,
                        ghost seen: seq<Json.Json>, ghost visit: Json.Json -> Option<Kind>)
    returns (next: Option<Counts>)
    requires IsVisit(visit, model, sv)
    requires Tally(seen, visit) == Some(counts)
    ensures next == Tally(seen + [ref], visit)
  {
    var k := VisitReference(ref, model, sv);
    assert (seen + [ref])[..|seen|] == seen;
    next := if k.None? then None else Some(Count(counts, k.value));
  }

  /** The inner loop: one batch, counting on from `before`, the tally of what was visited before it. */
  method ProcessBatch(refs: seq<Json.Json>, model: string, sv: Services, before: Counts,
                      ghost done: seq<Json.Json>, ghost visit: Json.Json -> Option<Kind>)
    returns (after: Option<Counts>)
    requires IsVisit(visit, model, sv)
    requires Tally(done, visit) == Some(before)
    ensures after == Tally(done + refs, visit)
  {
    var counts := before;
    var j := 0;
    PrefixSplit(done, refs, 0);
    while j < |refs|
      invariant 0 <= j <= |refs|
      invariant Tally(done + refs[..j], visit) == Some(counts)
    {
      var next := CountReference(refs[j], model, sv, counts, done + refs[..j], visit);
      PrefixSnoc(done, refs, j);
      if next.None? {
        RaisedBatch(done, refs, j, visit);
        return None;
      }
      counts := next.value;
      j := j + 1;
    }
    PrefixSplit(done, refs, j);
    after := Some(counts);
  }

  /** A batch in which the reference at `j` raised raises as a whole. */
  lemma RaisedBatch(done: seq<Json.Json>, refs: seq<Json.Json>, j: nat, visit: Json.Json -> Option<Kind>)
    requires j < |refs|
    requires Tally(done + refs[..j + 1], visit).None?
    ensures Tally(done + refs, visit).None?
  {
    PrefixSplit(done, refs, j + 1);
    NoneStays(done + refs[..j + 1], refs[j + 1..], visit);
  }

  /** The prefix taken one element further: its last element and what comes before it. */
  lemma PrefixSnoc(a: seq<Json.Json>, b: seq<Json.Json>, j: nat)
    requires j < |b|
    ensures a + b[..j] + [b[j]] == a + b[..j + 1]
  {
    assert b[..j] + [b[j]] == b[..j + 1];
  }

  /** Splitting the second part of a concatenation at `j`. */
  lemma PrefixSplit(a: seq<Json.Json>, b: seq<Json.Json>, j: nat)
    requires j <= |b|
    ensures a + b[..j] + b[j..] == a + b
    ensures j == 0 ==> a + b[..j] == a
    ensures j == |b| ==> a + b[..j] == a + b
  {
    assert b[..j] + b[j..] == b;
  }

  /** Once a visit has raised, visiting more does not undo it. */
  lemma {:induction false} NoneStays(a: seq<Json.Json>, b: seq<Json.Json>, visit: Json.Json -> Option<Kind>)
    requires Tally(a, visit).None?
    ensures Tally(a + b, visit).None?
    decreases |b|
  {
    if b == [] {
      assert a + b == a;
    } else {
      NoneStays(a, b[..|b| - 1], visit);
      assert (a + b)[..|a + b| - 1] == a + b[..|b| - 1];
    }
  }

  /**
   * `process_all_references`: the total is the size of an unlimited fetch,
   * and the counters are the tally of the visited references; `None` when
   * a visited reference is no dict.
   */
  method ProcessAllReferencesRun(model: string, batchSize: int, maxReferences: int, fetch: Fetch, sv: Services)
    returns (stats: Option<Stats>)
    ensures var total := |fetch(0, 0)|;
            var tally := Tally(Visited(fetch, batchSize, Limit(total, maxReferences), 0), Visit(model, sv));
            && (stats.None? <==> tally.None?)
            && (stats.Some? ==> stats.value == Stats(total, tally.value.processed, tally.value.failed, tally.value.skipped))
  {
    VisitIsVisit(model, sv);
    ghost var visit :| IsVisit(visit, model, sv);
    stats := CountAllReferences(model, batchSize, maxReferences, fetch, sv, visit);
    TallyAgrees(Visited(fetch, batchSize, Limit(|fetch(0, 0)|, maxReferences), 0), visit, model, sv);
  }

  /** The loop of `process_all_references` over the batches, with outcomes `visit`. */
  method CountAllReferences(model: string, batchSize: int, maxReferences: int, fetch: Fetch, sv: Services,
                            ghost visit: Json.Json -> Option<Kind>)
    returns (stats: Option<Stats>)
    requires IsVisit(visit, model, sv)
    ensures var total := |fetch(0, 0)|;
            var tally := Tally(Visited(fetch, batchSize, Limit(total, maxReferences), 0), visit);
            && (stats.None? <==> tally.None?)
            && (stats.Some? ==> stats.value == Stats(total, tally.value.processed, tally.value.failed, tally.value.skipped))
  {
    var total := |fetch(0, 0)|;
    var limit := Limit(total, maxReferences);
    var counts := Counts(0, 0, 0);
    ghost var done: seq<Json.Json> := [];
    var offset := 0;
    while offset < limit
      invariant Visited(fetch, batchSize, limit, 0) == done + Visited(fetch, batchSize, limit, offset)
      invariant Tally(done, visit) == Some(counts)
      decreases limit - offset
    {
      var references := fetch(BatchSize(batchSize, limit, offset), offset);
      if references == [] {
        break;
      }
      var after := ProcessBatch(references, model, sv, counts, done, visit);
      ghost var rest := Visited(fetch, batchSize, limit, offset + |references|);
      assert Visited(fetch, batchSize, limit, 0) == (done + references) + rest by {
        VisitedStep(fetch, batchSize, limit, offset);
        Associative(done, references, rest);
      }
      if after.None? {
        assert Tally(Visited(fetch, batchSize, limit, 0), visit).None? by {
          NoneStays(done + references, rest, visit);
        }
        return None;
      }
      done := done + references;
      counts := after.value;
      offset := offset + |references|;
    }
    assert Visited(fetch, batchSize, limit, 0) == done;
    stats := Some(Stats(total, counts.processed, counts.failed, counts.skipped));
  }

  /**
   * Over a connected table with a positive batch size, the loop visits
   * exactly the first `min(total, max_references)` references (all of them
   * when the limit is not positive), each once and in order.
   */
  lemma VisitsPrefix(table: seq<Json.Json>, fetch: Fetch, batchSize: int, maxReferences: int)
    requires forall l, o :: fetch(l, o) == GetAllReferences(true, table, l, o)
    requires batchSize > 0
    ensures |fetch(0, 0)| == |table|
    ensures Visited(fetch, batchSize, Limit(|table|, maxReferences), 0) == table[..Limit(|table|, maxReferences)]
  {
    assert fetch(0, 0) == table[0..];
    VisitsFrom(table, fetch, batchSize, Limit(|table|, maxReferences), 0);
  }

  lemma {:induction false} VisitsFrom(table: seq<Json.Json>, fetch: Fetch, batchSize: int, limit: nat, offset: nat)
    requires forall l, o :: fetch(l, o) == GetAllReferences(true, table, l, o)
    requires batchSize > 0 && offset <= limit <= |table|
    ensures Visited(fetch, batchSize, limit, offset) == table[offset..limit]
    decreases limit - offset
  {
    if offset < limit {
      var size := BatchSize(batchSize, limit, offset);
      var refs := fetch(size, offset);
      assert refs == TableSlice(table, size, offset);
      assert |refs| == size;
      VisitsFrom(table, fetch, batchSize, limit, offset + |refs|);
      assert table[offset..limit] == refs + table[offset + |refs|..limit];
    }
  }

  /** When the client is not connected nothing is visited and every counter stays zero. */
  lemma DisconnectedDoesNothing(table: seq<Json.Json>, fetch: Fetch, batchSize: int, maxReferences: int, model: string, sv: Services)
    requires forall l, o :: fetch(l, o) == GetAllReferences(false, table, l, o)
    ensures |fetch(0, 0)| == 0
    ensures Tally(Visited(fetch, batchSize, Limit(|fetch(0, 0)|, maxReferences), 0), Visit(model, sv)) == Some(Counts(0, 0, 0))
  {
    assert fetch(0, 0) == [];
  }
}
