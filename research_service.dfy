/**
 * `cloud_run/research_service/app.py`: the research service's HTTP handlers.
 * `identify-source-needs` stores the statements of a content item that need a
 * citation; `research-sources`, `evaluate-source`, `generate-citation` and
 * `integrate-source` each pick one need (and one of its potential sources) by
 * index, ask the text model, and write the answer into that need or source.
 *
 * The Firestore collection `content-items` is the field of `ResearchStore`;
 * only the `sources` map of a document is modelled. The text model and the
 * JSON decoder are parameters. An exception the handler does not catch is
 * the reply `Crash` (Flask's own 500 page).
 */
module ResearchService {
  import opened Wrappers
  import opened StrUtil
  import Json

  const NoData := "No request data provided"
  const MissingParameters := "Missing required parameters"
  const NeedsNotFound := "Source needs not found for this content"
  const NeedIndexOutOfRange := "Source need index out of range"
  const SourceIndexOutOfRange := "Source index out of range"
  const NoCitation := "Citation not generated for this source yet"
  const NoJson := "Could not extract JSON from response"
  const DefaultStyle := "APA"
  const DefaultIntegration := "paraphrase"
  const NotProvided := "Not provided"

  /** The text model: prompt, temperature and token limit to the answer; `None` when the call raises. */
  type Model = (string, string, int) -> Option<string>

  /** `json.loads`: the value, or the text of the `JSONDecodeError`. */
  type Decoder = string -> Result<Json.Json, string>

  /** A reply: its status code and JSON body, or an uncaught exception. */
  datatype Reply = Reply(code: nat, body: Json.Json) | Crash

  function ErrorReply(code: nat, message: string): Reply
  {
    Reply(code, Json.JObj([("error", Json.JStr(message))]))
  }

  function Success(props: seq<(string, Json.Json)>): Reply
  {
    Reply(200, Json.JObj([("status", Json.JStr("success"))] + props))
  }

  /** The 500 reply when the answer cannot be decoded, carrying the raw answer. */
  function ParseFailure(what: string, e: string, raw: string): Reply
  {
    Reply(500, Json.JObj([("error", Json.JStr("Failed to parse " + what + ": " + e)), ("raw_response", Json.JStr(raw))]))
  }

  /** The `sources` map of a content document. */
  datatype Sources = Sources(needs: Option<Json.Json>, references: Option<seq<Json.Json>>)

  /** A content document, as far as this service reads and writes it. */
  datatype ContentDoc = ContentDoc(sources: Option<Sources>)

  /** A handler's reply and the document it writes back, if any. */
  datatype Outcome = Outcome(reply: Reply, write: Option<(string, ContentDoc)>)

  // ---------------------------------------------------------------- Python

  /** `v is None` for a `.get` result: absent or JSON null. */
  predicate IsNone(v: Option<Json.Json>)
  {
    v.None? || v.value == Json.JNull
  }

  /** A `.get` result that is present and truthy. */
  predicate Present(v: Option<Json.Json>)
  {
    v.Some? && Json.Truthy(v.value)
  }

  /** An index as Python compares and subscripts with it: an int, or a bool as 0 or 1. */
  function IntOf(j: Json.Json): Option<int>
  {
    match j
    case JInt(i) => Some(i)
    case JBool(b) => Some(if b then 1 else 0)
    case _ => None
  }

  /** `key in j`: a key of an object, an item of a list, a substring of a text; `None` where `in` raises. */
  function PyIn(key: string, j: Json.Json): (r: Option<bool>)
    ensures j.JObj? ==> r == Some(Json.Get(j.props, key).Some?)
    ensures j.JArr? ==> r == Some(Json.JStr(key) in j.items)
    ensures j.JStr? ==> r == Some(Contains(j.s, key))
    ensures r.None? <==> !j.JObj? && !j.JArr? && !j.JStr?
  {
    match j
    case JObj(props) => Some(Json.Get(props, key).Some?)
    case JArr(items) => Some(Json.JStr(key) in items)
    case JStr(s) => Some(Contains(s, key))
    case _ => None
  }

  /** The position `xs[i]` reads in a list of `n` items; `None` on an `IndexError`. */
  function PyIndex(i: int, n: nat): (r: Option<nat>)
    ensures r.Some? <==> -(n as int) <= i < n
    ensures r.Some? ==> r.value < n && r.value as int == (if i < 0 then n as int + i else i)
  {
    if i < -(n as int) || i >= n then None
    else if i < 0 then Some((n as int + i) as nat)
    else Some(i as nat)
  }

  /** `j[k1][k2]...`: each step needs an object binding the key; `None` where Python raises. */
  function At(j: Json.Json, path: seq<string>): (r: Option<Json.Json>)
    ensures path == [] ==> r == Some(j)
    ensures path != [] && !(j.JObj? && Json.Get(j.props, path[0]).Some?) ==> r.None?
    decreases |path|
  {
    if path == [] then Some(j)
    else if j.JObj? && Json.Get(j.props, path[0]).Some? then At(Json.Get(j.props, path[0]).value, path[1..])
    else None
  }

  /** The f-string fields, each shown by `str`; `None` when a subscript raises. */
  function Rendered(fields: seq<Option<Json.Json>>): (r: Option<seq<string>>)
    ensures r.Some? <==> forall k :: 0 <= k < |fields| ==> fields[k].Some?
    ensures r.Some? ==> |r.value| == |fields| && forall k :: 0 <= k < |fields| ==> r.value[k] == Json.PyStr(fields[k].value)
    decreases |fields|
  {
    if fields == [] then Some([])
    else if fields[0].None? then None
    else match Rendered(fields[1..])
      case None => None
      case Some(rest) => Some([Json.PyStr(fields[0].value)] + rest)
  }

  /** The prompt: the fixed pieces of the template with the fields between them. */
  function Interleave(frame: seq<string>, fields: seq<string>): string
    requires |frame| == |fields| + 1
    decreases |fields|
  {
    if fields == [] then frame[0] else frame[0] + fields[0] + Interleave(frame[1..], fields[1..])
  }

  // ---------------------------------------------------------------- answers

  /** `text[text.find(open):text.rfind(close) + 1]` when that slice is not empty. */
  function Candidate(text: string, open: char, close: char): (r: Option<string>)
    ensures r.Some? <==> 0 <= Find(text, [open]) < RFind(text, [close]) + 1
    ensures r.Some? ==> r.value == text[Find(text, [open])..RFind(text, [close]) + 1]
  {
    var start := Find(text, [open]);
    var end := RFind(text, [close]) + 1;
    if start >= 0 && end > start then Some(text[start..end]) else None
  }

  /**
   * The slice runs from the first opening bracket to the last closing one;
   * there is none when no opening bracket occurs or no closing bracket
   * comes at or after the first opening one.
   */
  lemma CandidateSpan(text: string, open: char, close: char)
    ensures Candidate(text, open, close).Some? ==>
              var c := Candidate(text, open, close).value;
              var a := Find(text, [open]);
              var b := RFind(text, [close]);
              && |c| > 0 && c[0] == open && c[|c| - 1] == close
              && (forall i :: 0 <= i < a ==> text[i] != open)
              && (forall j :: b < j < |text| ==> text[j] != close)
    ensures Candidate(text, open, close).None? <==>
              (forall i :: 0 <= i < |text| ==> text[i] != open) ||
              (forall j :: 0 <= j < |text| && Find(text, [open]) <= j ==> text[j] != close)
  {
    FindCharFacts(text, open);
    RFindCharFacts(text, close);
    var a := Find(text, [open]);
    var b := RFind(text, [close]);
    if a >= 0 && b < a {
      assert forall j :: 0 <= j < |text| && a <= j ==> text[j] != close;
    }
    if a >= 0 && b >= a {
      assert !(text[b] != close);
    }
  }

  /**
   * `json.loads(text)`, then, on a decode error, `json.loads` of the
   * bracketed slice; no slice is the `ValueError` "Could not extract JSON".
   */
  function DecodeWithFallback(text: string, decode: Decoder, open: char, close: char): (r: Result<Json.Json, string>)
    ensures decode(text).Ok? ==> r == decode(text)
    ensures decode(text).Err? && Candidate(text, open, close).None? ==> r == Err(NoJson)
    ensures decode(text).Err? && Candidate(text, open, close).Some? ==> r == decode(Candidate(text, open, close).value)
  {
    match decode(text)
    case Ok(v) => Ok(v)
    case Err(_) =>
      match Candidate(text, open, close)
      case None => Err(NoJson)
      case Some(c) => decode(c)
  }

  /**
   * Prose around a bracketed value is dropped: when the whole answer does
   * not decode, the part from its only opening bracket to its only closing
   * bracket is decoded instead.
   */
  lemma SurroundedValue(before: string, value: string, after: string, decode: Decoder, open: char, close: char)
    requires |value| >= 2 && value[0] == open && value[|value| - 1] == close
    requires forall i :: 0 <= i < |before| ==> before[i] != open
    requires forall j :: 0 <= j < |after| ==> after[j] != close
    requires decode(before + value + after).Err?
    ensures DecodeWithFallback(before + value + after, decode, open, close) == decode(value)
  {
    var text := before + value + after;
    FindCharFacts(text, open);
    RFindCharFacts(text, close);
    var a := Find(text, [open]);
    var b := RFind(text, [close]);
    assert text[|before|] == open;
    assert a == |before|;
    assert text[|before| + |value| - 1] == close;
    assert b == |before| + |value| - 1;
    assert text[a..b + 1] == value;
  }

  // --------------------------------------------------------------- requests

  /** `request.get_json()`: a falsy body is a 400; a body that is no object has no `.get`. */
  function Fields(body: Json.Json): (r: Result<seq<(string, Json.Json)>, Reply>)
    ensures !Json.Truthy(body) ==> r == Err(ErrorReply(400, NoData))
    ensures r.Ok? <==> Json.Truthy(body) && body.JObj?
    ensures r.Ok? ==> body == Json.JObj(r.value)
    ensures Json.Truthy(body) && !body.JObj? ==> r == Err(Crash)
  {
    if !Json.Truthy(body) then Err(ErrorReply(400, NoData))
    else if body.JObj? then Ok(body.props)
    else Err(Crash)
  }

  /** `not content_id or source_need_index is None` (`or source_index is None`). */
  predicate MissingIn(props: seq<(string, Json.Json)>, withSource: bool)
  {
    || !Present(Json.Get(props, "content_id"))
    || IsNone(Json.Get(props, "source_need_index"))
    || (withSource && IsNone(Json.Get(props, "source_index")))
  }

  /** The document has no stored needs. */
  predicate NoNeeds(docs: map<string, ContentDoc>, id: string)
  {
    id !in docs || docs[id].sources.None? || docs[id].sources.value.needs.None?
  }

  /** The request names a stored list of needs and an integer need index. */
  predicate StoredIndex(docs: map<string, ContentDoc>, props: seq<(string, Json.Json)>, withSource: bool)
  {
    && !MissingIn(props, withSource)
    && Json.Get(props, "content_id").value.JStr?
    && !NoNeeds(docs, Json.Get(props, "content_id").value.s)
    && docs[Json.Get(props, "content_id").value.s].sources.value.needs.value.JArr?
    && IntOf(Json.Get(props, "source_need_index").value).Some?
  }

  /**
   * The request names stored needs that have a length, and a float need
   * index: Python compares it with the length, then cannot subscript with it.
   */
  predicate FloatIndex(docs: map<string, ContentDoc>, props: seq<(string, Json.Json)>, withSource: bool)
  {
    && !MissingIn(props, withSource)
    && Json.Get(props, "content_id").value.JStr?
    && !NoNeeds(docs, Json.Get(props, "content_id").value.s)
    && Json.Len(docs[Json.Get(props, "content_id").value.s].sources.value.needs.value).Some?
    && Json.Get(props, "source_need_index").value.JFloat?
  }

  /**
   * The request names stored needs that are a text, and an integer need
   * index within its length: Python reads one character as the need.
   */
  predicate TextNeedIndex(docs: map<string, ContentDoc>, props: seq<(string, Json.Json)>, withSource: bool)
  {
    && !MissingIn(props, withSource)
    && Json.Get(props, "content_id").value.JStr?
    && !NoNeeds(docs, Json.Get(props, "content_id").value.s)
    && docs[Json.Get(props, "content_id").value.s].sources.value.needs.value.JStr?
    && IntOf(Json.Get(props, "source_need_index").value).Some?
    && PyIndex(IntOf(Json.Get(props, "source_need_index").value).value,
               |docs[Json.Get(props, "content_id").value.s].sources.value.needs.value.s|).Some?
  }

  /** The need a request selects: the document, its needs, the position read and the raw indices. */
  datatype NeedAt = NeedAt(id: string, sources: Sources, needs: seq<Json.Json>, pos: nat, needIndex: Json.Json, sourceIndex: Json.Json)

  /**
   * The checks every handler but `identify-source-needs` makes before it
   * reads a need: missing parameters are a 400, a document without needs a
   * 404, an index at or past the number of needs a 400 (a float one too,
   * as Python compares it before it fails to subscript); a negative index
   * passes and counts from the end.
   */
  function NeedLookup(docs: map<string, ContentDoc>, props: seq<(string, Json.Json)>, withSource: bool): (r: Result<NeedAt, Reply>)
    ensures MissingIn(props, withSource) ==> r == Err(ErrorReply(400, MissingParameters))
    ensures !MissingIn(props, withSource) && Json.Get(props, "content_id").value.JStr? && NoNeeds(docs, Json.Get(props, "content_id").value.s)
            ==> r == Err(ErrorReply(404, NeedsNotFound))
    ensures r.Ok? ==> && !MissingIn(props, withSource)
                      && Json.Get(props, "content_id") == Some(Json.JStr(r.value.id)) && !NoNeeds(docs, r.value.id)
                      && docs[r.value.id].sources == Some(r.value.sources)
                      && r.value.sources.needs == Some(Json.JArr(r.value.needs))
                      && Json.Get(props, "source_need_index") == Some(r.value.needIndex)
                      && (withSource ==> Json.Get(props, "source_index") == Some(r.value.sourceIndex))
                      && IntOf(r.value.needIndex).Some?
                      && PyIndex(IntOf(r.value.needIndex).value, |r.value.needs|) == Some(r.value.pos)
    ensures r.Ok? ==> r.value.pos < |r.value.needs|
    ensures r.Err? ==> r.error.Crash? || r.error.code in {400, 404}
    ensures StoredIndex(docs, props, withSource) ==>
              var id := Json.Get(props, "content_id").value.s;
              var items := docs[id].sources.value.needs.value.items;
              var i := IntOf(Json.Get(props, "source_need_index").value).value;
              && (i >= |items| ==> r == Err(ErrorReply(400, NeedIndexOutOfRange)))
              && (-(|items| as int) <= i < |items| ==> r.Ok? && r.value.pos == PyIndex(i, |items|).value)
    ensures FloatIndex(docs, props, withSource) ==>
              var needs := docs[Json.Get(props, "content_id").value.s].sources.value.needs.value;
              var t := Json.Get(props, "source_need_index").value.text;
              && r.Err?
              && (r == Err(ErrorReply(400, NeedIndexOutOfRange)) <==> Json.FloatAtLeast(t, Json.Len(needs).value))
    ensures TextNeedIndex(docs, props, withSource) ==>
              r == (if withSource then Err(ErrorReply(400, SourceIndexOutOfRange)) else Err(Crash))
  {
    if MissingIn(props, withSource) then Err(ErrorReply(400, MissingParameters))
    else
      var id := Json.Get(props, "content_id").value;
      var ni := Json.Get(props, "source_need_index").value;
      var si := if withSource then Json.Get(props, "source_index").value else Json.JNull;
      if !id.JStr? then Err(Crash)
      else if NoNeeds(docs, id.s) then Err(ErrorReply(404, NeedsNotFound))
      else
        var sources := docs[id.s].sources.value;
        var needs := sources.needs.value;
        match (Json.Len(needs), IntOf(ni))
        case (Some(n), Some(i)) =>
          if i >= n then Err(ErrorReply(400, NeedIndexOutOfRange))
          else if needs.JStr? && withSource && PyIndex(i, n).Some? then
            // the need read is one character, which the source check finds without potential sources
            Err(ErrorReply(400, SourceIndexOutOfRange))
          else if !needs.JArr? then Err(Crash)
          else (match PyIndex(i, n)
            case None => Err(Crash)
            case Some(pos) => Ok(NeedAt(id.s, sources, needs.items, pos, ni, si)))
        case (Some(n), None) =>
          if ni.JFloat? && Json.FloatAtLeast(ni.text, n) then Err(ErrorReply(400, NeedIndexOutOfRange)) else Err(Crash)
        case _ => Err(Crash)
  }

  /** The selected source of a need: the need's fields, its potential sources and the position read. */
  datatype SourceAt = SourceAt(need: seq<(string, Json.Json)>, candidates: seq<Json.Json>, pos: nat)

  /**
   * The source checks: a need without `potential_sources`, or an index at
   * or past their number (an integer or a float), is a 400; a negative
   * index passes.
   */
  function SourceLookup(need: Json.Json, sourceIndex: Json.Json): (r: Result<SourceAt, Reply>)
    ensures need.JObj? && Json.Get(need.props, "potential_sources").None? ==> r == Err(ErrorReply(400, SourceIndexOutOfRange))
    ensures r.Ok? ==> && need == Json.JObj(r.value.need)
                      && Json.Get(r.value.need, "potential_sources") == Some(Json.JArr(r.value.candidates))
                      && IntOf(sourceIndex).Some?
                      && PyIndex(IntOf(sourceIndex).value, |r.value.candidates|) == Some(r.value.pos)
    ensures r.Ok? ==> r.value.pos < |r.value.candidates|
    ensures r.Err? ==> r.error.Crash? || r.error.code == 400
    ensures StoredCandidates(need, sourceIndex) ==>
              var c := Json.Get(need.props, "potential_sources").value.items;
              var j := IntOf(sourceIndex).value;
              && (j >= |c| ==> r == Err(ErrorReply(400, SourceIndexOutOfRange)))
              && (-(|c| as int) <= j < |c| ==> r.Ok? && r.value.pos == PyIndex(j, |c|).value)
    ensures && need.JObj? && Json.Get(need.props, "potential_sources").Some?
            && Json.Len(Json.Get(need.props, "potential_sources").value).Some? && sourceIndex.JFloat? ==>
              && r.Err?
              && (r == Err(ErrorReply(400, SourceIndexOutOfRange)) <==>
                    Json.FloatAtLeast(sourceIndex.text, Json.Len(Json.Get(need.props, "potential_sources").value).value))
  {
    match PyIn("potential_sources", need)
    case None => Err(Crash)
    case Some(present) =>
      if !present then Err(ErrorReply(400, SourceIndexOutOfRange))
      else if !need.JObj? then Err(Crash)
      else
        var candidates := Json.Get(need.props, "potential_sources").value;
        match (Json.Len(candidates), IntOf(sourceIndex))
        case (Some(n), Some(j)) =>
          if j >= n then Err(ErrorReply(400, SourceIndexOutOfRange))
          else if !candidates.JArr? then Err(Crash)
          else (match PyIndex(j, n)
            case None => Err(Crash)
            case Some(pos) => Ok(SourceAt(need.props, candidates.items, pos)))
        case (Some(n), None) =>
          if sourceIndex.JFloat? && Json.FloatAtLeast(sourceIndex.text, n) then Err(ErrorReply(400, SourceIndexOutOfRange)) else Err(Crash)
        case _ => Err(Crash)
  }

  /**
   * A one-character need, which `NeedLookup` reads from stored needs that are
   * a text, has no `potential_sources`: the source check answers 400.
   */
  lemma CharacterNeedHasNoSources(c: char, sourceIndex: Json.Json)
    ensures SourceLookup(Json.JStr([c]), sourceIndex) == Err(ErrorReply(400, SourceIndexOutOfRange))
  {
    assert !Contains([c], "potential_sources") by {
      assert |"potential_sources"| > |[c]|;
    }
  }

  /** The need holds a list of potential sources and the source index is an integer. */
  predicate StoredCandidates(need: Json.Json, sourceIndex: Json.Json)
  {
    && need.JObj?
    && Json.Get(need.props, "potential_sources").Some?
    && Json.Get(need.props, "potential_sources").value.JArr?
    && IntOf(sourceIndex).Some?
  }

  /** The selected need and source of a request that passed every check. */
  datatype Selection = Selection(at: NeedAt, src: SourceAt, source: Json.Json)

  /** The selection is consistent: its source is the one at its positions. */
  predicate Selected(sel: Selection)
  {
    && sel.at.pos < |sel.at.needs| && sel.src.pos < |sel.src.candidates|
    && sel.at.needs[sel.at.pos] == Json.JObj(sel.src.need)
    && Json.Get(sel.src.need, "potential_sources") == Some(Json.JArr(sel.src.candidates))
    && sel.source == sel.src.candidates[sel.src.pos]
  }

  /** `NeedLookup`, then `SourceLookup` on the need it selects. */
  function SelectSource(docs: map<string, ContentDoc>, props: seq<(string, Json.Json)>): (r: Result<Selection, Reply>)
    ensures NeedLookup(docs, props, true).Err? ==> r == Err(NeedLookup(docs, props, true).error)
    ensures NeedLookup(docs, props, true).Ok? ==>
              var at := NeedLookup(docs, props, true).value;
              && (SourceLookup(at.needs[at.pos], at.sourceIndex).Err? ==> r == Err(SourceLookup(at.needs[at.pos], at.sourceIndex).error))
              && (SourceLookup(at.needs[at.pos], at.sourceIndex).Ok? ==>
                    var src := SourceLookup(at.needs[at.pos], at.sourceIndex).value;
                    r.Ok? && r.value.at == at && r.value.src == src)
    ensures r.Ok? ==> Selected(r.value)
    ensures r.Err? ==> r.error.Crash? || r.error.code in {400, 404}
  {
    match NeedLookup(docs, props, true)
    case Err(e) => Err(e)
    case Ok(at) =>
      match SourceLookup(at.needs[at.pos], at.sourceIndex)
      case Err(e) => Err(e)
      case Ok(src) => Ok(Selection(at, src, src.candidates[src.pos]))
  }

  // ----------------------------------------------------------------- writes

  /** The list of needs a document stores, or none. */
  function StoredNeeds(doc: ContentDoc): seq<Json.Json>
  {
    if doc.sources.Some? && doc.sources.value.needs.Some? && doc.sources.value.needs.value.JArr?
    then doc.sources.value.needs.value.items else []
  }

  /** `doc` stores as many needs as `at` read, all but the selected one unchanged. */
  predicate NeedsWritten(at: NeedAt, doc: ContentDoc)
  {
    && doc.sources.Some? && doc.sources.value.needs.Some? && doc.sources.value.needs.value.JArr?
    && at.pos < |at.needs| && |StoredNeeds(doc)| == |at.needs|
    && forall k :: 0 <= k < |at.needs| && k != at.pos ==> StoredNeeds(doc)[k] == at.needs[k]
  }

  /** The update `{'sources.needs': needs}`: the other `sources` fields are kept. */
  function WithNeeds(at: NeedAt, needs: seq<Json.Json>): (r: ContentDoc)
    ensures r.sources == Some(at.sources.(needs := Some(Json.JArr(needs))))
    ensures StoredNeeds(r) == needs
  {
    ContentDoc(Some(at.sources.(needs := Some(Json.JArr(needs)))))
  }

  /** `after` is the object `before` with `key` set to `v` and every other key as it was. */
  ghost predicate FieldSet(before: Json.Json, after: Json.Json, key: string, v: Json.Json)
  {
    && before.JObj? && after.JObj?
    && Json.Get(after.props, key) == Some(v)
    && forall k :: k != key ==> Json.Get(after.props, k) == Json.Get(before.props, k)
  }

  /**
   * `source_needs[i]['potential_sources'][j][key] = v`: the needs after the
   * selected source gains the field; nothing else changes.
   */
  function WithSourceField(sel: Selection, source: seq<(string, Json.Json)>, key: string, v: Json.Json): (r: seq<Json.Json>)
    requires Selected(sel) && sel.source == Json.JObj(source)
    ensures |r| == |sel.at.needs| && forall k :: 0 <= k < |r| && k != sel.at.pos ==> r[k] == sel.at.needs[k]
    ensures r[sel.at.pos].JObj?
    ensures forall k :: k != "potential_sources" ==> Json.Get(r[sel.at.pos].props, k) == Json.Get(sel.src.need, k)
    ensures Json.Get(r[sel.at.pos].props, "potential_sources") ==
              Some(Json.JArr(sel.src.candidates[sel.src.pos := Json.JObj(Json.Put(source, key, v))]))
  {
    var candidates := sel.src.candidates[sel.src.pos := Json.JObj(Json.Put(source, key, v))];
    sel.at.needs[sel.at.pos := Json.JObj(Json.Put(sel.src.need, "potential_sources", Json.JArr(candidates)))]
  }

  /** The source stored at the selected positions of `doc`, or null when there is none. */
  function StoredSource(sel: Selection, doc: ContentDoc): Json.Json
  {
    var needs := StoredNeeds(doc);
    if sel.at.pos < |needs| && needs[sel.at.pos].JObj?
       && Json.Get(needs[sel.at.pos].props, "potential_sources").Some?
       && Json.Get(needs[sel.at.pos].props, "potential_sources").value.JArr?
       && sel.src.pos < |Json.Get(needs[sel.at.pos].props, "potential_sources").value.items|
    then Json.Get(needs[sel.at.pos].props, "potential_sources").value.items[sel.src.pos]
    else Json.JNull
  }

  /**
   * `doc` is the document after the selected source gained `key`: the other
   * needs, the need's other keys and its other sources are as they were.
   */
  ghost predicate SourceWritten(sel: Selection, doc: ContentDoc, key: string, v: Json.Json)
  {
    && NeedsWritten(sel.at, doc)
    && var need := StoredNeeds(doc)[sel.at.pos];
    && need.JObj?
    && (forall k :: k != "potential_sources" ==> Json.Get(need.props, k) == Json.Get(sel.src.need, k))
    && Json.Get(need.props, "potential_sources").Some? && Json.Get(need.props, "potential_sources").value.JArr?
    && var c := Json.Get(need.props, "potential_sources").value.items;
    && |c| == |sel.src.candidates|
    && (forall m :: 0 <= m < |c| && m != sel.src.pos ==> c[m] == sel.src.candidates[m])
    && sel.src.pos < |c| && StoredSource(sel, doc) == c[sel.src.pos]
    && FieldSet(sel.source, c[sel.src.pos], key, v)
  }

  /** A successful reply reports `v` under `key`. */
  predicate Reports(reply: Reply, key: string, v: Json.Json)
  {
    reply.Reply? ==> reply.code == 200 && reply.body.JObj? && Json.Get(reply.body.props, key) == Some(v)
  }

  /** The reply carrying a count, which `len` must be able to take. */
  function Counted(key: string, v: Json.Json): (r: Reply)
    requires key != "count"
    ensures Reports(r, key, v)
    ensures r.Reply? <==> Json.Len(v).Some?
  {
    match Json.Len(v)
    case None => Crash
    case Some(n) => Success([(key, v), ("count", Json.JInt(n))])
  }

  /** The document `identify-source-needs` writes: its needs replaced, its references kept. */
  function WithAllNeeds(doc: ContentDoc, needs: Json.Json): (r: ContentDoc)
    ensures r.sources.Some? && r.sources.value.needs == Some(needs)
    ensures r.sources.value.references == (if doc.sources.Some? then doc.sources.value.references else None)
  {
    ContentDoc(Some(doc.sources.GetOr(Sources(None, None)).(needs := Some(needs))))
  }

  // ---------------------------------------------------------------- prompts

  /** The `research-sources` prompt, which carries the need's statement; `None` when a subscript of the need raises. */
  function ResearchPrompt(frame: seq<string>, need: Json.Json): (r: Option<string>)
    requires |frame| == 6
    ensures r.Some? ==> need.JObj? && Json.Get(need.props, "statement").Some?
    ensures r.Some? ==> Contains(r.value, Json.PyStr(Json.Get(need.props, "statement").value))
  {
    var fs := [At(need, ["statement"]), At(need, ["type"]), At(need, ["requirements", "recency"]),
               At(need, ["requirements", "authority"]), At(need, ["requirements", "specific_needs"])];
    match Rendered(fs)
    case None => None
    case Some(fields) =>
      assert fs[0].Some?;
      assert At(need, ["statement"]) == At(Json.Get(need.props, "statement").value, []);
      InterleaveHolds(frame, fields, 0);
      Some(Interleave(frame, fields))
  }

  /** `source.get('url', 'Not provided')`; only an object has `.get`. */
  function UrlOf(source: Json.Json): (r: Option<Json.Json>)
    ensures r.Some? <==> source.JObj?
    ensures source.JObj? && Json.Get(source.props, "url").None? ==> r == Some(Json.JStr(NotProvided))
  {
    if source.JObj? then Some(Json.Get(source.props, "url").GetOr(Json.JStr(NotProvided))) else None
  }

  /** The `evaluate-source` prompt; `None` when a subscript of the source or the need raises. */
  function EvaluatePrompt(frame: seq<string>, need: Json.Json, source: Json.Json): (r: Option<string>)
    requires |frame| == 7
    ensures r.Some? ==> need.JObj? && source.JObj? && Json.Get(source.props, "title").Some?
    ensures r.Some? ==> StartsWith(r.value, frame[0] + Json.PyStr(Json.Get(source.props, "title").value))
  {
    var fs := [At(source, ["title"]), At(source, ["authors"]), At(source, ["publication"]), At(source, ["year"]),
               UrlOf(source), At(need, ["statement"])];
    match Rendered(fs)
    case None => None
    case Some(fields) =>
      assert fs[0].Some? && fs[4].Some? && fs[5].Some?;
      assert At(source, ["title"]) == At(Json.Get(source.props, "title").value, []);
      InterleaveHolds(frame, fields, 0);
      Some(Interleave(frame, fields))
  }

  /** The `generate-citation` prompt, which opens with the requested style. */
  function CitationPrompt(frame: seq<string>, style: Json.Json, source: Json.Json): (r: Option<string>)
    requires |frame| == 7
    ensures r.Some? ==> source.JObj? && StartsWith(r.value, frame[0] + Json.PyStr(style))
  {
    var fs := [Some(style), At(source, ["title"]), At(source, ["authors"]), At(source, ["publication"]),
               At(source, ["year"]), UrlOf(source)];
    match Rendered(fs)
    case None => None
    case Some(fields) =>
      assert fs[0].Some? && fs[5].Some?;
      InterleaveHolds(frame, fields, 0);
      Some(Interleave(frame, fields))
  }

  /** The `integrate-source` prompt, which carries the integration type; `None` when a subscript raises. */
  function IntegratePrompt(frame: seq<string>, need: Json.Json, source: Json.Json, integration: Json.Json): (r: Option<string>)
    requires |frame| == 9
    ensures r.Some? ==> need.JObj? && source.JObj? && Contains(r.value, Json.PyStr(integration))
  {
    var fs := [At(need, ["statement"]), At(source, ["title"]), At(source, ["authors"]), At(source, ["publication"]),
               At(source, ["year"]), At(source, ["citation", "reference"]), At(source, ["citation", "in_text_citation"]),
               Some(integration)];
    match Rendered(fs)
    case None => None
    case Some(fields) =>
      assert fs[0].Some? && fs[1].Some? && fs[7].Some?;
      InterleaveHolds(frame, fields, 7);
      Some(Interleave(frame, fields))
  }

  /** Every field lands in the prompt, and the prompt opens with the first piece of the frame. */
  lemma {:induction false} InterleaveHolds(frame: seq<string>, fields: seq<string>, k: nat)
    requires |frame| == |fields| + 1 && k < |fields|
    ensures StartsWith(Interleave(frame, fields), frame[0] + fields[0])
    ensures Contains(Interleave(frame, fields), fields[k])
  {
    var p := Interleave(frame, fields);
    var rest := Interleave(frame[1..], fields[1..]);
    assert p == frame[0] + fields[0] + rest;
    assert p[..|frame[0] + fields[0]|] == frame[0] + fields[0];
    if k == 0 {
      assert OccursAt(p, fields[0], |frame[0]|) by {
        assert p[|frame[0]|..|frame[0]| + |fields[0]|] == fields[0];
      }
      ContainsAt(p, fields[0], |frame[0]|);
    } else {
      InterleaveHolds(frame[1..], fields[1..], k - 1);
      var off := |frame[0] + fields[0]|;
      assert p[off..|p|] == rest;
      ContainsInSlice(p, off, |p|, fields[k]);
    }
  }

  // --------------------------------------------------------------- handlers

  /** `GET /health`. */
  function Health(): (r: Reply)
    ensures r.Reply? && r.code == 200 && Reports(r, "status", Json.JStr("healthy"))
  {
    Reply(200, Json.JObj([("status", Json.JStr("healthy"))]))
  }

  /** What a handler never does: write on an error reply, or answer with another code. */
  predicate Disciplined(r: Outcome)
  {
    && (r.reply.Reply? ==> r.reply.code in {200, 400, 404, 500})
    && (r.reply.Reply? && r.reply.code != 200 ==> r.write.None?)
  }

  /** The references a stored document keeps. */
  function ReferencesOf(docs: map<string, ContentDoc>, id: string): Option<seq<Json.Json>>
  {
    if id in docs && docs[id].sources.Some? then docs[id].sources.value.references else None
  }

  /**
   * `POST /identify-source-needs`: the needs the model lists for the
   * content text are stored as `sources.needs`. A falsy `content_id` or
   * `content_text` is a 400; an answer with no decodable array a 500 with
   * the raw answer; an unknown document makes the update raise.
   */
  function IdentifySourceNeeds(frame: seq<string>, docs: map<string, ContentDoc>, body: Json.Json, model: Model, decode: Decoder): (r: Outcome)
    requires |frame| == 2
    ensures Disciplined(r)
    ensures Fields(body).Err? ==> r == Outcome(Fields(body).error, None)
    ensures Fields(body).Ok? && (!Present(Json.Get(body.props, "content_id")) || !Present(Json.Get(body.props, "content_text")))
            ==> r == Outcome(ErrorReply(400, MissingParameters), None)
    ensures Fields(body).Ok? && Present(Json.Get(body.props, "content_id")) && Present(Json.Get(body.props, "content_text")) ==>
              var answer := model(Interleave(frame, [Json.PyStr(Json.Get(body.props, "content_text").value)]), "0.2", 2048);
              answer.Some? && DecodeWithFallback(answer.value, decode, '[', ']').Err? ==>
                r == Outcome(ParseFailure("source needs", DecodeWithFallback(answer.value, decode, '[', ']').error, answer.value), None)
    ensures r.write.Some? ==>
              && Fields(body).Ok?
              && Json.Get(body.props, "content_id") == Some(Json.JStr(r.write.value.0)) && r.write.value.0 in docs
              && Json.Get(body.props, "content_text").Some?
              && var answer := model(Interleave(frame, [Json.PyStr(Json.Get(body.props, "content_text").value)]), "0.2", 2048);
              && answer.Some? && DecodeWithFallback(answer.value, decode, '[', ']').Ok?
              && var needs := DecodeWithFallback(answer.value, decode, '[', ']').value;
              && r.write.value.1.sources.Some? && r.write.value.1.sources.value.needs == Some(needs)
              && r.write.value.1.sources.value.references == ReferencesOf(docs, r.write.value.0)
              && Reports(r.reply, "source_needs", needs)
    ensures Fields(body).Ok? && Present(Json.Get(body.props, "content_id")) && Present(Json.Get(body.props, "content_text")) ==>
              var id := Json.Get(body.props, "content_id").value;
              var answer := model(Interleave(frame, [Json.PyStr(Json.Get(body.props, "content_text").value)]), "0.2", 2048);
              && (answer.None? ==> r == Outcome(Crash, None))
              && (answer.Some? && DecodeWithFallback(answer.value, decode, '[', ']').Ok? && id.JStr? && id.s in docs ==>
                    r.write == Some((id.s, WithAllNeeds(docs[id.s], DecodeWithFallback(answer.value, decode, '[', ']').value))))
  {
    match Fields(body)
    case Err(reply) => Outcome(reply, None)
    case Ok(props) =>
      var id := Json.Get(props, "content_id");
      var text := Json.Get(props, "content_text");
      if !Present(id) || !Present(text) then Outcome(ErrorReply(400, MissingParameters), None)
      else match model(Interleave(frame, [Json.PyStr(text.value)]), "0.2", 2048)
        case None => Outcome(Crash, None)
        case Some(answer) =>
          match DecodeWithFallback(answer, decode, '[', ']')
          case Err(e) => Outcome(ParseFailure("source needs", e, answer), None)
          case Ok(needs) =>
            if !id.value.JStr? || id.value.s !in docs then Outcome(Crash, None)
            else Outcome(Counted("source_needs", needs), Some((id.value.s, WithAllNeeds(docs[id.value.s], needs))))
  }

  /**
   * `research-sources` once the need is found: the model's list of
   * potential sources is stored in that need as `potential_sources`.
   */
  function ResearchNeed(frame: seq<string>, at: NeedAt, model: Model, decode: Decoder): (r: Outcome)
    requires |frame| == 6 && at.pos < |at.needs|
    ensures Disciplined(r)
    ensures r.write.Some? ==>
              && r.write.value.0 == at.id
              && ResearchPrompt(frame, at.needs[at.pos]).Some?
              && var answer := model(ResearchPrompt(frame, at.needs[at.pos]).value, "0.2", 2048);
              && answer.Some? && DecodeWithFallback(answer.value, decode, '[', ']').Ok?
              && var found := DecodeWithFallback(answer.value, decode, '[', ']').value;
              && NeedsWritten(at, r.write.value.1)
              && FieldSet(at.needs[at.pos], StoredNeeds(r.write.value.1)[at.pos], "potential_sources", found)
              && r.write.value.1.sources.value.references == at.sources.references
              && Reports(r.reply, "potential_sources", found)
    ensures ResearchPrompt(frame, at.needs[at.pos]).None? ==> r == Outcome(Crash, None)
    ensures ResearchPrompt(frame, at.needs[at.pos]).Some? ==>
              var answer := model(ResearchPrompt(frame, at.needs[at.pos]).value, "0.2", 2048);
              && (answer.None? ==> r == Outcome(Crash, None))
              && (answer.Some? && DecodeWithFallback(answer.value, decode, '[', ']').Err? ==>
                    r == Outcome(ParseFailure("potential sources", DecodeWithFallback(answer.value, decode, '[', ']').error, answer.value), None))
              && (answer.Some? && DecodeWithFallback(answer.value, decode, '[', ']').Ok? ==>
                    r.write.Some? && r.reply == Counted("potential_sources", DecodeWithFallback(answer.value, decode, '[', ']').value))
  {
    var need := at.needs[at.pos];
    if !need.JObj? then Outcome(Crash, None)
    else match ResearchPrompt(frame, need)
      case None => Outcome(Crash, None)
      case Some(prompt) =>
        match model(prompt, "0.2", 2048)
        case None => Outcome(Crash, None)
        case Some(answer) =>
          match DecodeWithFallback(answer, decode, '[', ']')
          case Err(e) => Outcome(ParseFailure("potential sources", e, answer), None)
          case Ok(found) =>
            var needs := at.needs[at.pos := Json.JObj(Json.Put(need.props, "potential_sources", found))];
            Outcome(Counted("potential_sources", found), Some((at.id, WithNeeds(at, needs))))
  }

  /** `POST /research-sources`: the request checks, then `ResearchNeed`. */
  function ResearchSources(frame: seq<string>, docs: map<string, ContentDoc>, body: Json.Json, model: Model, decode: Decoder): (r: Outcome)
    requires |frame| == 6
    ensures Disciplined(r)
    ensures Fields(body).Err? ==> r == Outcome(Fields(body).error, None)
    ensures Fields(body).Ok? && NeedLookup(docs, body.props, false).Err? ==> r == Outcome(NeedLookup(docs, body.props, false).error, None)
    ensures Fields(body).Ok? && NeedLookup(docs, body.props, false).Ok? ==>
              r == ResearchNeed(frame, NeedLookup(docs, body.props, false).value, model, decode)
  {
    match Fields(body)
    case Err(reply) => Outcome(reply, None)
    case Ok(props) =>
      match NeedLookup(docs, props, false)
      case Err(reply) => Outcome(reply, None)
      case Ok(at) => ResearchNeed(frame, at, model, decode)
  }

  /**
   * `evaluate-source` once the source is selected: the model's CRAAP
   * evaluation of it is stored in it as `evaluation`.
   */
  function EvaluateSelected(frame: seq<string>, sel: Selection, model: Model, decode: Decoder): (r: Outcome)
    requires |frame| == 7 && Selected(sel)
    ensures Disciplined(r)
    ensures r.write.Some? ==>
              && r.write.value.0 == sel.at.id
              && EvaluatePrompt(frame, sel.at.needs[sel.at.pos], sel.source).Some?
              && var answer := model(EvaluatePrompt(frame, sel.at.needs[sel.at.pos], sel.source).value, "0.2", 2048);
              && answer.Some? && DecodeWithFallback(answer.value, decode, '{', '}').Ok?
              && var evaluation := DecodeWithFallback(answer.value, decode, '{', '}').value;
              && SourceWritten(sel, r.write.value.1, "evaluation", evaluation)
              && r.write.value.1.sources.value.references == sel.at.sources.references
              && r.reply == Success([("evaluation", evaluation)])
    ensures EvaluatePrompt(frame, sel.at.needs[sel.at.pos], sel.source).None? ==> r == Outcome(Crash, None)
    ensures EvaluatePrompt(frame, sel.at.needs[sel.at.pos], sel.source).Some? ==>
              var answer := model(EvaluatePrompt(frame, sel.at.needs[sel.at.pos], sel.source).value, "0.2", 2048);
              && (answer.None? ==> r == Outcome(Crash, None))
              && (answer.Some? && DecodeWithFallback(answer.value, decode, '{', '}').Err? ==>
                    r == Outcome(ParseFailure("evaluation", DecodeWithFallback(answer.value, decode, '{', '}').error, answer.value), None))
              && (answer.Some? && DecodeWithFallback(answer.value, decode, '{', '}').Ok? ==> r.write.Some?)
  {
    match EvaluatePrompt(frame, sel.at.needs[sel.at.pos], sel.source)
    case None => Outcome(Crash, None)
    case Some(prompt) =>
      match model(prompt, "0.2", 2048)
      case None => Outcome(Crash, None)
      case Some(answer) =>
        match DecodeWithFallback(answer, decode, '{', '}')
        case Err(e) => Outcome(ParseFailure("evaluation", e, answer), None)
        case Ok(evaluation) =>
          match sel.source
          case JObj(source) =>
            Outcome(Success([("evaluation", evaluation)]),
                    Some((sel.at.id, WithNeeds(sel.at, WithSourceField(sel, source, "evaluation", evaluation)))))
          case _ => Outcome(Crash, None)
  }

  /** `POST /evaluate-source`: the request checks, then `EvaluateSelected`. */
  function EvaluateSource(frame: seq<string>, docs: map<string, ContentDoc>, body: Json.Json, model: Model, decode: Decoder): (r: Outcome)
    requires |frame| == 7
    ensures Disciplined(r)
    ensures Fields(body).Err? ==> r == Outcome(Fields(body).error, None)
    ensures Fields(body).Ok? && SelectSource(docs, body.props).Err? ==> r == Outcome(SelectSource(docs, body.props).error, None)
    ensures Fields(body).Ok? && SelectSource(docs, body.props).Ok? ==>
              r == EvaluateSelected(frame, SelectSource(docs, body.props).value, model, decode)
  {
    match Fields(body)
    case Err(reply) => Outcome(reply, None)
    case Ok(props) =>
      match SelectSource(docs, props)
      case Err(reply) => Outcome(reply, None)
      case Ok(sel) => EvaluateSelected(frame, sel, model, decode)
  }

  /** `ArrayUnion([entry])` on the stored references. */
  function Union(refs: seq<Json.Json>, entry: Json.Json): (r: seq<Json.Json>)
    ensures entry in r && forall x :: x in r <==> x in refs || x == entry
    ensures |refs| <= |r| <= |refs| + 1 && r[..|refs|] == refs
  {
    if entry in refs then refs else refs + [entry]
  }

  /** The reference entry `generate-citation` adds for a stored source. */
  function ReferenceEntry(source: Json.Json, citation: Json.Json, needIndex: Json.Json, style: Json.Json): Json.Json
  {
    Json.JObj([("source", source), ("citation", citation), ("source_need_index", needIndex), ("citation_style", style)])
  }

  /** `citation_style`, "APA" when the request has none. */
  function StyleOf(props: seq<(string, Json.Json)>): (r: Json.Json)
    ensures Json.Get(props, "citation_style").None? ==> r == Json.JStr(DefaultStyle)
    ensures Json.Get(props, "citation_style").Some? ==> r == Json.Get(props, "citation_style").value
  {
    Json.Get(props, "citation_style").GetOr(Json.JStr(DefaultStyle))
  }

  /**
   * `generate-citation` once the source is selected: the model's citation
   * for it is stored in it as `citation`, and a reference entry joins
   * `sources.references` unless an equal one is there. The entry's source
   * is the stored source object, which by then holds the citation too.
   */
  function CiteSelected(frame: seq<string>, sel: Selection, style: Json.Json, model: Model, decode: Decoder): (r: Outcome)
    requires |frame| == 7 && Selected(sel)
    ensures Disciplined(r)
    ensures r.write.Some? ==>
              && r.write.value.0 == sel.at.id
              && CitationPrompt(frame, style, sel.source).Some?
              && var answer := model(CitationPrompt(frame, style, sel.source).value, "0.2", 1024);
              && answer.Some? && DecodeWithFallback(answer.value, decode, '{', '}').Ok?
              && var citation := DecodeWithFallback(answer.value, decode, '{', '}').value;
              && SourceWritten(sel, r.write.value.1, "citation", citation)
              && var entry := ReferenceEntry(StoredSource(sel, r.write.value.1), citation, sel.at.needIndex, style);
              && r.write.value.1.sources.value.references == Some(Union(sel.at.sources.references.GetOr([]), entry))
              && r.reply == Success([("citation", citation)])
    ensures CitationPrompt(frame, style, sel.source).None? ==> r == Outcome(Crash, None)
    ensures CitationPrompt(frame, style, sel.source).Some? ==>
              var answer := model(CitationPrompt(frame, style, sel.source).value, "0.2", 1024);
              && (answer.None? ==> r == Outcome(Crash, None))
              && (answer.Some? && DecodeWithFallback(answer.value, decode, '{', '}').Err? ==>
                    r == Outcome(ParseFailure("citation", DecodeWithFallback(answer.value, decode, '{', '}').error, answer.value), None))
              && (answer.Some? && DecodeWithFallback(answer.value, decode, '{', '}').Ok? ==> r.write.Some?)
  {
    match CitationPrompt(frame, style, sel.source)
    case None => Outcome(Crash, None)
    case Some(prompt) =>
      match model(prompt, "0.2", 1024)
      case None => Outcome(Crash, None)
      case Some(answer) =>
        match DecodeWithFallback(answer, decode, '{', '}')
        case Err(e) => Outcome(ParseFailure("citation", e, answer), None)
        case Ok(citation) =>
          match sel.source
          case JObj(source) =>
            var needs := WithSourceField(sel, source, "citation", citation);
            var entry := ReferenceEntry(Json.JObj(Json.Put(source, "citation", citation)), citation, sel.at.needIndex, style);
            var refs := Union(sel.at.sources.references.GetOr([]), entry);
            Outcome(Success([("citation", citation)]), Some((sel.at.id, ContentDoc(Some(Sources(Some(Json.JArr(needs)), Some(refs)))))))
          case _ => Outcome(Crash, None)
  }

  /** `POST /generate-citation`: the request checks, then `CiteSelected` with the requested style. */
  function GenerateCitation(frame: seq<string>, docs: map<string, ContentDoc>, body: Json.Json, model: Model, decode: Decoder): (r: Outcome)
    requires |frame| == 7
    ensures Disciplined(r)
    ensures Fields(body).Err? ==> r == Outcome(Fields(body).error, None)
    ensures Fields(body).Ok? && SelectSource(docs, body.props).Err? ==> r == Outcome(SelectSource(docs, body.props).error, None)
    ensures Fields(body).Ok? && SelectSource(docs, body.props).Ok? ==>
              r == CiteSelected(frame, SelectSource(docs, body.props).value, StyleOf(body.props), model, decode)
  {
    match Fields(body)
    case Err(reply) => Outcome(reply, None)
    case Ok(props) =>
      match SelectSource(docs, props)
      case Err(reply) => Outcome(reply, None)
      case Ok(sel) => CiteSelected(frame, sel, StyleOf(props), model, decode)
  }

  /** `integration_type`, "paraphrase" when the request has none. */
  function IntegrationOf(props: seq<(string, Json.Json)>): (r: Json.Json)
    ensures Json.Get(props, "integration_type").None? ==> r == Json.JStr(DefaultIntegration)
    ensures Json.Get(props, "integration_type").Some? ==> r == Json.Get(props, "integration_type").value
  {
    Json.Get(props, "integration_type").GetOr(Json.JStr(DefaultIntegration))
  }

  /** The keys `integrate-source` sets on the selected need. */
  const IntegrationKeys: set<string> := {"integrated_text", "integration_type", "selected_source_index"}

  /** `after` is the need `before` with the integration recorded and every other key as it was. */
  ghost predicate Integrated(before: Json.Json, after: Json.Json, text: string, integration: Json.Json, sourceIndex: Json.Json)
  {
    && before.JObj? && after.JObj?
    && Json.Get(after.props, "integrated_text") == Some(Json.JStr(text))
    && Json.Get(after.props, "integration_type") == Some(integration)
    && Json.Get(after.props, "selected_source_index") == Some(sourceIndex)
    && forall k :: k !in IntegrationKeys ==> Json.Get(after.props, k) == Json.Get(before.props, k)
  }

  /** The need after the three integration keys are set. */
  function WithIntegration(need: seq<(string, Json.Json)>, text: string, integration: Json.Json, sourceIndex: Json.Json): (r: Json.Json)
    ensures Integrated(Json.JObj(need), r, text, integration, sourceIndex)
  {
    Json.JObj(Json.Put(Json.Put(Json.Put(need, "integrated_text", Json.JStr(text)), "integration_type", integration),
                       "selected_source_index", sourceIndex))
  }

  /**
   * `integrate-source` once the source is selected: a source without a
   * citation is a 400; otherwise the model's text integrating it is stored
   * in the selected need with the integration type and the source index.
   */
  function IntegrateSelected(frame: seq<string>, sel: Selection, integration: Json.Json, model: Model): (r: Outcome)
    requires |frame| == 9 && Selected(sel)
    ensures Disciplined(r)
    ensures sel.source.JObj? && Json.Get(sel.source.props, "citation").None? ==> r == Outcome(ErrorReply(400, NoCitation), None)
    ensures PyIn("citation", sel.source) == Some(true) ==> r.reply.Crash? || r.reply.code == 200
    ensures r.write.Some? ==>
              && r.write.value.0 == sel.at.id
              && PyIn("citation", sel.source) == Some(true)
              && IntegratePrompt(frame, sel.at.needs[sel.at.pos], sel.source, integration).Some?
              && var text := model(IntegratePrompt(frame, sel.at.needs[sel.at.pos], sel.source, integration).value, "0.3", 1024);
              && text.Some?
              && NeedsWritten(sel.at, r.write.value.1)
              && Integrated(sel.at.needs[sel.at.pos], StoredNeeds(r.write.value.1)[sel.at.pos], text.value, integration, sel.at.sourceIndex)
              && r.write.value.1.sources.value.references == sel.at.sources.references
              && r.reply == Success([("integrated_text", Json.JStr(text.value)), ("integration_type", integration)])
    ensures PyIn("citation", sel.source).None? ==> r == Outcome(Crash, None)
    ensures PyIn("citation", sel.source) == Some(true) ==>
              && (IntegratePrompt(frame, sel.at.needs[sel.at.pos], sel.source, integration).None? ==> r == Outcome(Crash, None))
              && (IntegratePrompt(frame, sel.at.needs[sel.at.pos], sel.source, integration).Some? ==>
                    var text := model(IntegratePrompt(frame, sel.at.needs[sel.at.pos], sel.source, integration).value, "0.3", 1024);
                    && (text.None? ==> r == Outcome(Crash, None))
                    && (text.Some? ==> r.write.Some?))
  {
    match PyIn("citation", sel.source)
    case None => Outcome(Crash, None)
    case Some(cited) =>
      if !cited then Outcome(ErrorReply(400, NoCitation), None)
      else match IntegratePrompt(frame, sel.at.needs[sel.at.pos], sel.source, integration)
        case None => Outcome(Crash, None)
        case Some(prompt) =>
          match model(prompt, "0.3", 1024)
          case None => Outcome(Crash, None)
          case Some(text) => IntegrationStored(sel, text, integration)
  }

  /** The reply and the write of a successful integration of `text`. */
  function IntegrationStored(sel: Selection, text: string, integration: Json.Json): (r: Outcome)
    requires Selected(sel)
    ensures Disciplined(r)
    ensures r.write.Some? && r.write.value.0 == sel.at.id
    ensures NeedsWritten(sel.at, r.write.value.1)
    ensures Integrated(sel.at.needs[sel.at.pos], StoredNeeds(r.write.value.1)[sel.at.pos], text, integration, sel.at.sourceIndex)
    ensures r.write.value.1.sources.value.references == sel.at.sources.references
    ensures r.reply == Success([("integrated_text", Json.JStr(text)), ("integration_type", integration)])
  {
    var need := WithIntegration(sel.src.need, text, integration, sel.at.sourceIndex);
    Outcome(Success([("integrated_text", Json.JStr(text)), ("integration_type", integration)]),
            Some((sel.at.id, WithNeeds(sel.at, sel.at.needs[sel.at.pos := need]))))
  }

  /** `POST /integrate-source`: the request checks, then `IntegrateSelected` with the requested type. */
  function IntegrateSource(frame: seq<string>, docs: map<string, ContentDoc>, body: Json.Json, model: Model): (r: Outcome)
    requires |frame| == 9
    ensures Disciplined(r)
    ensures Fields(body).Err? ==> r == Outcome(Fields(body).error, None)
    ensures Fields(body).Ok? && SelectSource(docs, body.props).Err? ==> r == Outcome(SelectSource(docs, body.props).error, None)
    ensures Fields(body).Ok? && SelectSource(docs, body.props).Ok? ==>
              r == IntegrateSelected(frame, SelectSource(docs, body.props).value, IntegrationOf(body.props), model)
  {
    match Fields(body)
    case Err(reply) => Outcome(reply, None)
    case Ok(props) =>
      match SelectSource(docs, props)
      case Err(reply) => Outcome(reply, None)
      case Ok(sel) => IntegrateSelected(frame, sel, IntegrationOf(props), model)
  }

  /** A write that keeps the needs' number keeps the need a request selects. */
  lemma NeedKept(docs: map<string, ContentDoc>, props: seq<(string, Json.Json)>, withSource: bool, at: NeedAt, doc: ContentDoc)
    requires NeedLookup(docs, props, withSource) == Ok(at) && NeedsWritten(at, doc)
    ensures var r := NeedLookup(docs[at.id := doc], props, withSource);
            && r.Ok? && r.value.id == at.id && r.value.pos == at.pos
            && r.value.needs == StoredNeeds(doc) && r.value.sourceIndex == at.sourceIndex
  {
    var after := docs[at.id := doc];
    var needs := StoredNeeds(doc);
    var i := IntOf(at.needIndex).value;
    assert after[at.id] == doc;
    assert StoredIndex(after, props, withSource);
    assert after[at.id].sources.value.needs.value.items == needs;
    assert -(|needs| as int) <= i < |needs| by {
      assert PyIndex(i, |at.needs|) == Some(at.pos);
    }
  }

  /** A need whose potential sources keep their number keeps the source an index selects. */
  lemma SourceKept(need: Json.Json, sourceIndex: Json.Json, src: SourceAt, need2: Json.Json, candidates: seq<Json.Json>)
    requires SourceLookup(need, sourceIndex) == Ok(src)
    requires need2.JObj? && Json.Get(need2.props, "potential_sources") == Some(Json.JArr(candidates))
    requires |candidates| == |src.candidates|
    ensures var r := SourceLookup(need2, sourceIndex);
            r.Ok? && r.value.candidates == candidates && r.value.pos == src.pos
  {
    var j := IntOf(sourceIndex).value;
    assert StoredCandidates(need2, sourceIndex);
    assert -(|candidates| as int) <= j < |candidates| by {
      assert PyIndex(j, |src.candidates|) == Some(src.pos);
    }
  }

  /**
   * After `evaluate-source` or `generate-citation` writes a source, the
   * same request selects the same need and source, now as stored.
   */
  lemma SelectionKept(docs: map<string, ContentDoc>, props: seq<(string, Json.Json)>, sel: Selection, doc: ContentDoc, key: string, v: Json.Json)
    requires SelectSource(docs, props) == Ok(sel) && SourceWritten(sel, doc, key, v)
    ensures var r := SelectSource(docs[sel.at.id := doc], props);
            && r.Ok? && r.value.at.pos == sel.at.pos && r.value.src.pos == sel.src.pos
            && r.value.source == StoredSource(sel, doc)
  {
    assert NeedLookup(docs, props, true) == Ok(sel.at);
    assert SourceLookup(sel.at.needs[sel.at.pos], sel.at.sourceIndex) == Ok(sel.src);
    NeedKept(docs, props, true, sel.at, doc);
    var at2 := NeedLookup(docs[sel.at.id := doc], props, true).value;
    var need := StoredNeeds(doc)[sel.at.pos];
    var candidates := Json.Get(need.props, "potential_sources").value.items;
    SourceKept(sel.at.needs[sel.at.pos], sel.at.sourceIndex, sel.src, need, candidates);
    assert at2.needs[at2.pos] == need;
  }

  /**
   * A citation stored by `generate-citation` is found by `integrate-source`
   * under the same request: the same need and source are selected, the
   * source holds the citation, and the "Citation not generated" reply no
   * longer comes.
   */
  lemma CitationEnablesIntegration(citeFrame: seq<string>, integrateFrame: seq<string>, docs: map<string, ContentDoc>,
                                   body: Json.Json, model: Model, decode: Decoder, writer: Model)
    requires |citeFrame| == 7 && |integrateFrame| == 9
    requires GenerateCitation(citeFrame, docs, body, model, decode).write.Some?
    ensures var w := GenerateCitation(citeFrame, docs, body, model, decode).write.value;
            var after := docs[w.0 := w.1];
            && SelectSource(after, body.props).Ok?
            && SelectSource(after, body.props).value.at.pos == SelectSource(docs, body.props).value.at.pos
            && SelectSource(after, body.props).value.src.pos == SelectSource(docs, body.props).value.src.pos
            && PyIn("citation", SelectSource(after, body.props).value.source) == Some(true)
            && var r := IntegrateSource(integrateFrame, after, body, writer);
            r.reply.Crash? || r.reply.code == 200
  {
    var o := GenerateCitation(citeFrame, docs, body, model, decode);
    assert Fields(body).Ok? && SelectSource(docs, body.props).Ok?;
    var sel := SelectSource(docs, body.props).value;
    var style := StyleOf(body.props);
    assert o == CiteSelected(citeFrame, sel, style, model, decode);
    var w := o.write.value;
    var answer := model(CitationPrompt(citeFrame, style, sel.source).value, "0.2", 1024);
    var citation := DecodeWithFallback(answer.value, decode, '{', '}').value;
    assert SourceWritten(sel, w.1, "citation", citation);
    SelectionKept(docs, body.props, sel, w.1, "citation", citation);
    var sel2 := SelectSource(docs[w.0 := w.1], body.props).value;
    assert Json.Get(sel2.source.props, "citation") == Some(citation);
  }

  /** The fixed text of the `identify-source-needs` prompt, around the content text. */
  const IdentifyFrame: seq<string> := [IdentifyText0, IdentifyText1]
  const IdentifyText0: string := "\n    You are an expert research assistant for the AI Community & Sustainability Hub.\n    \n    Analyze the following content and identify statements that require citations.\n    For each statement requiring a citation, extract the statement and categorize it by type\n    (statistical, conceptual, methodological, case example, etc.).\n    \n    Content:\n    "
  const IdentifyText1: string := "\n    \n    Format your response as a JSON array of objects with the following structure:\n    [\n      {\n        \"statement\": \"The exact statement that needs citation\",\n        \"type\": \"statistical|conceptual|methodological|case_example|other\",\n        \"context\": \"Brief description of where this appears in the content\",\n        \"requirements\": {\n          \"recency\": \"How recent the source should be (e.g., 'Last 2 years')\",\n          \"authority\": \"Type of authority needed (e.g., 'Academic', 'Industry report')\",\n          \"specific_needs\": \"Any specific requirements for this source\"\n        }\n      }\n    ]\n    "

  /** The fixed text of the `research-sources` prompt, around the need's statement, type, recency, authority and specific needs. */
  const ResearchFrame: seq<string> := [ResearchText0, ResearchText1, ResearchText2, ResearchText3, ResearchText4, ResearchText5]
  const ResearchText0: string := "\n    You are an expert research assistant for the AI Community & Sustainability Hub.\n    \n    Research potential sources for the following statement that needs citation:\n    \n    Statement: \""
  const ResearchText1: string := "\"\n    Type: "
  const ResearchText2: string := "\n    Requirements:\n    - Recency: "
  const ResearchText3: string := "\n    - Authority: "
  const ResearchText4: string := "\n    - Specific needs: "
  const ResearchText5: string := "\n    \n    Generate a list of 5 potential sources that would be appropriate for citing this statement.\n    For each source, provide:\n    1. Title\n    2. Authors\n    3. Publication/Publisher\n    4. Year\n    5. URL or DOI (if available)\n    6. Brief description of why this source is appropriate\n    \n    Format your response as a JSON array of objects.\n    "

  /** The fixed text of the `evaluate-source` prompt, around the source's title, authors, publication, year and URL and the need's statement. */
  const EvaluateFrame: seq<string> := [EvaluateText0, EvaluateText1, EvaluateText2, EvaluateText3, EvaluateText4, EvaluateText5, EvaluateText6]
  const EvaluateText0: string := "\n    You are an expert source evaluator for the AI Community & Sustainability Hub.\n    \n    Evaluate the following source using the CRAAP test criteria:\n    \n    Source:\n    - Title: "
  const EvaluateText1: string := "\n    - Authors: "
  const EvaluateText2: string := "\n    - Publication/Publisher: "
  const EvaluateText3: string := "\n    - Year: "
  const EvaluateText4: string := "\n    - URL/DOI: "
  const EvaluateText5: string := "\n    \n    Statement to be cited: \""
  const EvaluateText6: string := "\"\n    \n    Apply the CRAAP test criteria:\n    1. Currency: How recent is the information? Is it up-to-date for the topic?\n    2. Relevance: How well does it address the specific information need?\n    3. Authority: How credible is the author/publisher? Are they experts in the field?\n    4. Accuracy: Is the information supported by evidence? Can it be verified?\n    5. Purpose: Is the source objective or does it have a bias or agenda?\n    \n    For each criterion, provide a score from 1-5 (5 being the highest) and a brief justification.\n    Also provide an overall score and recommendation.\n    \n    Format your response as a JSON object.\n    "

  /** The fixed text of the `generate-citation` prompt, around the style and the source's title, authors, publication, year and URL. */
  const CitationFrame: seq<string> := [CitationText0, CitationText1, CitationText2, CitationText3, CitationText4, CitationText5, CitationText6]
  const CitationText0: string := "\n    You are an expert citation generator for the AI Community & Sustainability Hub.\n    \n    Generate a citation for the following source in "
  const CitationText1: string := " format:\n    \n    Source:\n    - Title: "
  const CitationText2: string := "\n    - Authors: "
  const CitationText3: string := "\n    - Publication/Publisher: "
  const CitationText4: string := "\n    - Year: "
  const CitationText5: string := "\n    - URL/DOI: "
  const CitationText6: string := "\n    \n    Also generate an in-text citation example for this source.\n    \n    Format your response as a JSON object with the following structure:\n    {\n      \"reference\": \"The full reference for the reference list\",\n      \"in_text_citation\": \"Example of in-text citation\",\n      \"parenthetical_citation\": \"Example of parenthetical citation (if applicable)\"\n    }\n    "

  /** The fixed text of the `integrate-source` prompt, around the need's statement, the source's title, authors, publication and year, its reference and in-text citation, and the integration type. */
  const IntegrateFrame: seq<string> := [IntegrateText0, IntegrateText1, IntegrateText2, IntegrateText3, IntegrateText4, IntegrateText5, IntegrateText6, IntegrateText7, IntegrateText8]
  const IntegrateText0: string := "\n    You are an expert content writer for the AI Community & Sustainability Hub.\n    \n    Generate text that integrates the following source into content about AI:\n    \n    Statement needing citation: \""
  const IntegrateText1: string := "\"\n    \n    Source:\n    - Title: "
  const IntegrateText2: string := "\n    - Authors: "
  const IntegrateText3: string := "\n    - Publication/Publisher: "
  const IntegrateText4: string := "\n    - Year: "
  const IntegrateText5: string := "\n    \n    Citation:\n    - Reference: "
  const IntegrateText6: string := "\n    - In-text citation: "
  const IntegrateText7: string := "\n    \n    Integration type: "
  const IntegrateText8: string := "\n    \n    Guidelines:\n    - For \"quote\": Use a direct quote from the source with proper quotation marks and citation\n    - For \"paraphrase\": Restate the information in your own words with proper citation\n    - For \"summary\": Condense larger sections of information with proper citation\n    \n    Generate text that could be inserted directly into the content, with proper citation included.\n    "


  /** The `content-items` collection as this service sees it. */
  class ResearchStore {
    var docs: map<string, ContentDoc>

    constructor(docs: map<string, ContentDoc>)
      ensures this.docs == docs
    {
      this.docs := docs;
    }

    /** Applies the handler's write, if any, and returns its reply. */
    method Commit(o: Outcome) returns (reply: Reply)
      modifies this
      ensures reply == o.reply
      ensures docs == Committed(old(docs), o)
    {
      reply := o.reply;
      if o.write.Some? {
        docs := docs[o.write.value.0 := o.write.value.1];
      }
    }

    method IdentifySourceNeedsHandler(body: Json.Json, model: Model, decode: Decoder) returns (reply: Reply)
      modifies this
      ensures var o := IdentifySourceNeeds(IdentifyFrame, old(docs), body, model, decode);
              reply == o.reply && docs == Committed(old(docs), o)
    {
      reply := Commit(IdentifySourceNeeds(IdentifyFrame, docs, body, model, decode));
    }

    method ResearchSourcesHandler(body: Json.Json, model: Model, decode: Decoder) returns (reply: Reply)
      modifies this
      ensures var o := ResearchSources(ResearchFrame, old(docs), body, model, decode);
              reply == o.reply && docs == Committed(old(docs), o)
    {
      reply := Commit(ResearchSources(ResearchFrame, docs, body, model, decode));
    }

    method EvaluateSourceHandler(body: Json.Json, model: Model, decode: Decoder) returns (reply: Reply)
      modifies this
      ensures var o := EvaluateSource(EvaluateFrame, old(docs), body, model, decode);
              reply == o.reply && docs == Committed(old(docs), o)
    {
      reply := Commit(EvaluateSource(EvaluateFrame, docs, body, model, decode));
    }

    method GenerateCitationHandler(body: Json.Json, model: Model, decode: Decoder) returns (reply: Reply)
      modifies this
      ensures var o := GenerateCitation(CitationFrame, old(docs), body, model, decode);
              reply == o.reply && docs == Committed(old(docs), o)
    {
      reply := Commit(GenerateCitation(CitationFrame, docs, body, model, decode));
    }

    method IntegrateSourceHandler(body: Json.Json, model: Model) returns (reply: Reply)
      modifies this
      ensures var o := IntegrateSource(IntegrateFrame, old(docs), body, model);
              reply == o.reply && docs == Committed(old(docs), o)
    {
      reply := Commit(IntegrateSource(IntegrateFrame, docs, body, model));
    }
  }

  /**
   * The collection after a handler: only the document it names changes,
   * and nothing changes without a write.
   */
  function Committed(docs: map<string, ContentDoc>, o: Outcome): (r: map<string, ContentDoc>)
    ensures o.write.None? ==> r == docs
    ensures o.write.Some? ==> o.write.value.0 in r && r[o.write.value.0] == o.write.value.1
    ensures o.write.Some? ==> r.Keys == docs.Keys + {o.write.value.0}
    ensures forall id :: id in docs && (o.write.None? || id != o.write.value.0) ==> r[id] == docs[id]
  {
    if o.write.Some? then docs[o.write.value.0 := o.write.value.1] else docs
  }

  /** A reply other than success leaves the collection as it was. */
  lemma ErrorKeepsStore(docs: map<string, ContentDoc>, o: Outcome)
    requires Disciplined(o) && o.reply.Reply? && o.reply.code != 200
    ensures Committed(docs, o) == docs
  {
  }
}
