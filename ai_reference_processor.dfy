/**
 * `reference_management/ai_reference_processor.py`: references structured by
 * the model, their fallback when the model call fails, their storage, and
 * their Markdown rendering. Processed references are decoded JSON values; the
 * model call is an oracle that yields a value or an error message.
 */
module AiReferenceProcessor {
  import opened Wrappers
  import opened StrUtil
  import opened Json
  import ReferenceImport

  /** A successful `generate_json` answer, or the message of the exception it raised. */
  type Model = string -> Result<Json, string>

  // ---------------------------------------------------------------- processing

  /** The fallback title: the text, or its first 100 characters and "..." when longer. */
  function FallbackTitle(text: string): (t: string)
    ensures |text| <= 100 ==> t == text
    ensures |text| > 100 ==> |t| == 103 && t[..100] == text[..100] && EndsWith(t, "...")
  {
    if |text| > 100 then text[..100] + "..." else text
  }

  /** The dict returned when the model call raises. */
  function Fallback(text: string, error: string): Json
  {
    JObj([
      ("title", JStr(FallbackTitle(text))),
      ("authors", JStr("Unknown")),
      ("publication_date", JNull),
      ("publication_name", JStr("Unknown")),
      ("url", JNull),
      ("doi", JNull),
      ("reference_type", JStr("Other")),
      ("is_valid_reference", JBool(false)),
      ("confidence_score", JFloat("0.0")),
      ("verification", JObj([
        ("source_exists", JBool(false)),
        ("verification_method", JStr("None")),
        ("verification_notes", JStr("Error processing reference: " + error))])),
      ("apa_citation", JStr(text))])
  }

  /** The fallback keeps the text as its citation, titles it by the text's head, and scores it invalid with confidence 0.0. */
  lemma FallbackFields(text: string, error: string)
    ensures var r := Fallback(text, error);
      && r.JObj?
      && Get(r.props, "title") == Some(JStr(FallbackTitle(text)))
      && Get(r.props, "is_valid_reference") == Some(JBool(false))
      && Get(r.props, "confidence_score") == Some(JFloat("0.0"))
      && Get(r.props, "apa_citation") == Some(JStr(text))
  {
    var r := Fallback(text, error);
    GetAt(r.props, "title", 0);
    GetAt(r.props, "is_valid_reference", 7);
    GetAt(r.props, "confidence_score", 8);
    GetAt(r.props, "apa_citation", 10);
  }

  /** The fallback is marked invalid, so storage skips it. */
  lemma FallbackInvalid(text: string, error: string)
    ensures Fallback(text, error).JObj? && !IsValid(Fallback(text, error))
  {
    FallbackFields(text, error);
  }

  /** `process_reference_with_ai`: the model's answer, or the fallback. It never raises. */
  function ProcessReference(text: string, ai: Model): (r: Json)
    ensures ai(text).Ok? ==> r == ai(text).value
    ensures ai(text).Err? ==> r == Fallback(text, ai(text).error)
  {
    match ai(text)
    case Ok(j) => j
    case Err(e) => Fallback(text, e)
  }

  /**
   * `process_references_batch`: one entry per text, in order. Its own
   * `except` branch cannot be reached, since the per-reference call catches
   * every exception itself.
   */
  method ProcessReferencesBatch(texts: seq<string>, ai: Model) returns (out: seq<Json>)
    ensures |out| == |texts|
    ensures forall k :: 0 <= k < |texts| ==> out[k] == ProcessReference(texts[k], ai)
  {
    out := [];
    for i := 0 to |texts|
      invariant |out| == i
      invariant forall k :: 0 <= k < i ==> out[k] == ProcessReference(texts[k], ai)
    {
      out := out + [ProcessReference(texts[i], ai)];
    }
  }

  // ---------------------------------------------------------------- storage

  /** `ref_data.get("is_valid_reference", False)` is truthy. */
  predicate IsValid(j: Json)
    requires j.JObj?
  {
    var v := Get(j.props, "is_valid_reference");
    v.Some? && Truthy(v.value)
  }

  /** `ref_data.get("verification", {}).get(...)` does not raise: the value is absent or an object. */
  predicate VerificationReadable(j: Json)
    requires j.JObj?
  {
    var v := Get(j.props, "verification");
    v.None? || v.value.JObj?
  }

  /** `create_reference` for the entry at a position (an id, or a failure) and `link_reference_to_content`. */
  datatype StoreDb = StoreDb(create: (nat, Json) -> Option<string>, link: (string, string, string) -> bool)

  /** Whether entry `i` ends up created and linked with key "REF<i+1>". */
  predicate Linked(contentId: string, refs: seq<Json>, i: nat, db: StoreDb)
    requires i < |refs|
  {
    db.create(i, refs[i]).Some? && db.link(contentId, db.create(i, refs[i]).value, ReferenceImport.CitationKey(i))
  }

  /**
   * The loop of `store_processed_references` after `n` entries: the ids of
   * the valid entries both created and linked; a non-object entry, or a valid
   * one whose verification is not an object, raises `AttributeError`.
   */
  function StoreLoop(contentId: string, refs: seq<Json>, n: nat, db: StoreDb): Result<seq<string>, string>
    requires n <= |refs|
  {
    if n == 0 then Ok([])
    else
      var p := StoreLoop(contentId, refs, n - 1, db);
      var j := refs[n - 1];
      if p.Err? then p
      else if !j.JObj? then Err("AttributeError")
      else if !IsValid(j) then p
      else if !VerificationReadable(j) then Err("AttributeError")
      else if Linked(contentId, refs, n - 1, db) then Ok(p.value + [db.create(n - 1, j).value])
      else p
  }

  /** Once the loop has raised, the later entries change nothing. */
  lemma {:induction false} StoreErrorSticks(contentId: string, refs: seq<Json>, n: nat, m: nat, db: StoreDb)
    requires n <= m <= |refs| && StoreLoop(contentId, refs, n, db).Err?
    ensures StoreLoop(contentId, refs, m, db) == StoreLoop(contentId, refs, n, db)
    decreases m - n
  {
    if n < m {
      StoreErrorSticks(contentId, refs, n, m - 1, db);
    }
  }

  method StoreProcessedReferences(contentId: string, refs: seq<Json>, db: StoreDb) returns (r: Result<seq<string>, string>)
    ensures r == StoreLoop(contentId, refs, |refs|, db)
  {
    var ids := [];
    for i := 0 to |refs|
      invariant StoreLoop(contentId, refs, i, db) == Ok(ids)
    {
      var j := refs[i];
      if !j.JObj? || (IsValid(j) && !VerificationReadable(j)) {
        StoreErrorSticks(contentId, refs, i + 1, |refs|, db);
        return Err("AttributeError");
      }
      if IsValid(j) {
        var id := db.create(i, j);
        if id.Some? && db.link(contentId, id.value, ReferenceImport.CitationKey(i)) {
          ids := ids + [id.value];
        }
      }
    }
    r := Ok(ids);
  }

  /** The positions whose entries produced the ids, in order. */
  function StoredPositions(contentId: string, refs: seq<Json>, n: nat, db: StoreDb): (ps: seq<nat>)
    requires n <= |refs|
    ensures forall k :: 0 <= k < |ps| ==> ps[k] < n
  {
    if n == 0 then []
    else
      var p := StoredPositions(contentId, refs, n - 1, db);
      var j := refs[n - 1];
      if j.JObj? && IsValid(j) && Linked(contentId, refs, n - 1, db) then p + [n - 1] else p
  }

  /**
   * Every returned id belongs to a valid entry that was created and linked
   * with the key of its position, and the positions increase.
   */
  lemma {:induction false} StoredIdsExplained(contentId: string, refs: seq<Json>, n: nat, db: StoreDb)
    requires n <= |refs|
    requires StoreLoop(contentId, refs, n, db).Ok?
    ensures var ids := StoreLoop(contentId, refs, n, db).value;
      var ps := StoredPositions(contentId, refs, n, db);
      && |ps| == |ids|
      && (forall k :: 0 <= k < |ps| ==>
            refs[ps[k]].JObj? && IsValid(refs[ps[k]]) && Linked(contentId, refs, ps[k], db)
            && ids[k] == db.create(ps[k], refs[ps[k]]).value)
      && (forall k, l :: 0 <= k < l < |ps| ==> ps[k] < ps[l])
  {
    if n > 0 {
      StoredIdsExplained(contentId, refs, n - 1, db);
    }
  }

  /** Entries that are all objects marked invalid, such as fallbacks, store nothing. */
  lemma {:induction false} InvalidNotStored(contentId: string, refs: seq<Json>, n: nat, db: StoreDb)
    requires n <= |refs|
    requires forall k :: 0 <= k < |refs| ==> refs[k].JObj? && !IsValid(refs[k])
    ensures StoreLoop(contentId, refs, n, db) == Ok([])
  {
    if n > 0 {
      InvalidNotStored(contentId, refs, n - 1, db);
    }
  }

  // ---------------------------------------------------------------- generation

  const AiVerification := JObj([
    ("source_exists", JBool(true)),
    ("verification_method", JStr("AI verification")),
    ("verification_notes", JStr("Generated by AI with verification"))])

  /** The three keys a generated reference is marked with are distinct (they differ in their first letter). */
  lemma MarkedKeysDiffer()
    ensures "is_valid_reference" != "confidence_score" && "is_valid_reference" != "verification"
    ensures "confidence_score" != "verification"
  {
    assert "is_valid_reference"[0] == 'i' && "confidence_score"[0] == 'c' && "verification"[0] == 'v';
  }

  /** The three keys set on each generated reference. */
  function MarkGenerated(props: seq<(string, Json)>): Json
  {
    JObj(Put(Put(Put(props, "is_valid_reference", JBool(true)), "confidence_score", JFloat("0.9")), "verification", AiVerification))
  }

  /** A generated reference is valid, its verification readable, and its confidence 0.9. */
  lemma MarkedFields(props: seq<(string, Json)>)
    ensures var r := MarkGenerated(props);
      r.JObj? && IsValid(r) && VerificationReadable(r) && Get(r.props, "confidence_score") == Some(JFloat("0.9"))
  {
    var p1 := Put(props, "is_valid_reference", JBool(true));
    var p2 := Put(p1, "confidence_score", JFloat("0.9"));
    var p3 := Put(p2, "verification", AiVerification);
    MarkedKeysDiffer();
    assert Get(p3, "is_valid_reference") == Get(p2, "is_valid_reference") == Get(p1, "is_valid_reference");
    assert Get(p3, "confidence_score") == Get(p2, "confidence_score");
  }

  function MarkAll(items: seq<Json>): (r: seq<Json>)
    requires forall k :: 0 <= k < |items| ==> items[k].JObj?
    ensures |r| == |items|
    ensures forall k :: 0 <= k < |r| ==> r[k] == MarkGenerated(items[k].props)
  {
    seq(|items|, k requires 0 <= k < |items| => MarkGenerated(items[k].props))
  }

  /**
   * `generate_references_for_content` on the model's answer. A list of
   * objects comes back with every entry marked valid with confidence 0.9;
   * an empty object or empty string is iterated without error and returned
   * as it is; anything else (an error, a non-object entry, a value that cannot
   * be iterated, or whose items are strings) gives [].
   */
  function GenerateReferences(answer: Result<Json, string>): (r: Json)
    ensures answer.Err? ==> r == JArr([])
    ensures answer.Ok? && answer.value.JArr? && (forall k :: 0 <= k < |answer.value.items| ==> answer.value.items[k].JObj?) ==>
              && r.JArr? && |r.items| == |answer.value.items|
              && forall k :: 0 <= k < |r.items| ==> r.items[k] == MarkGenerated(answer.value.items[k].props)
    ensures answer.Ok? && answer.value.JArr? && (exists k :: 0 <= k < |answer.value.items| && !answer.value.items[k].JObj?) ==>
              r == JArr([])
    ensures answer.Ok? && !answer.value.JArr? ==> r == JArr([]) || (r == answer.value && (r == JObj([]) || r == JStr("")))
  {
    match answer
    case Err(_) => JArr([])
    case Ok(j) =>
      if j.JArr? then
        if forall k :: 0 <= k < |j.items| ==> j.items[k].JObj? then JArr(MarkAll(j.items)) else JArr([])
      else if j == JObj([]) || j == JStr("") then j
      else JArr([])
  }

  /** Generated references pass the validity filter of the storage loop and carry confidence 0.9. */
  lemma GeneratedAreValid(answer: Result<Json, string>, k: nat)
    requires GenerateReferences(answer).JArr? && k < |GenerateReferences(answer).items|
    ensures var j := GenerateReferences(answer).items[k];
      j.JObj? && IsValid(j) && VerificationReadable(j) && Get(j.props, "confidence_score") == Some(JFloat("0.9"))
  {
    var j := answer.value;
    MarkedFields(j.items[k].props);
  }

  // ---------------------------------------------------------------- Markdown

  /** `ref.get(key, default)`, rendered. */
  function FieldText(props: seq<(string, Json)>, key: string, default: string): string
  {
    var v := Get(props, key);
    if v.Some? then PyStr(v.value) else default
  }

  predicate FieldTruthy(props: seq<(string, Json)>, key: string)
  {
    var v := Get(props, key);
    v.Some? && Truthy(v.value)
  }

  /**
   * The year of the fallback citation: "n.d." without a date; the year of an
   * ISO date (the date parser is the `isoYear` oracle); otherwise the date's
   * first four characters. A truthy list is no date either: its first four
   * items are taken and the f-string shows them as a list; any other truthy
   * date raises `TypeError` when sliced.
   */
  function CitationYear(props: seq<(string, Json)>, isoYear: string -> Option<string>): (r: Result<string, string>)
    ensures !FieldTruthy(props, "publication_date") ==> r == Ok("n.d.")
    ensures FieldTruthy(props, "publication_date") && Get(props, "publication_date").value.JStr? ==>
      var d := Get(props, "publication_date").value.s;
      r.Ok? && (isoYear(d).Some? ==> r.value == isoYear(d).value) && (isoYear(d).None? ==> r.value == Prefix(d, 4) && |r.value| <= 4)
    ensures FieldTruthy(props, "publication_date") && Get(props, "publication_date").value.JArr? ==>
      var items := Get(props, "publication_date").value.items;
      r.Ok? && r.value == Repr(JArr(items[..if |items| < 4 then |items| else 4])) && r.value[0] == '['
    ensures r.Err? <==> FieldTruthy(props, "publication_date") && !Get(props, "publication_date").value.JStr? && !Get(props, "publication_date").value.JArr?
  {
    if !FieldTruthy(props, "publication_date") then Ok("n.d.")
    else
      var d := Get(props, "publication_date").value;
      if d.JArr? then Ok(PyStr(JArr(d.items[..if |d.items| < 4 then |d.items| else 4])))
      else if !d.JStr? then Err("TypeError")
      else if isoYear(d.s).Some? then Ok(isoYear(d.s).value)
      else Ok(Prefix(d.s, 4))
  }

  /** The citation of one entry: its APA citation when truthy, else one built from its fields. */
  function Citation(j: Json, isoYear: string -> Option<string>): (r: Result<string, string>)
    ensures j.JObj? && FieldTruthy(j.props, "apa_citation") ==> r == Ok(PyStr(Get(j.props, "apa_citation").value))
    ensures !j.JObj? ==> r.Err?
  {
    if !j.JObj? then Err("AttributeError")
    else if FieldTruthy(j.props, "apa_citation") then Ok(PyStr(Get(j.props, "apa_citation").value))
    else
      var year := CitationYear(j.props, isoYear);
      if year.Err? then Err(year.error)
      else
        var base := FieldText(j.props, "authors", "") + " (" + year.value + "). " + FieldText(j.props, "title", "") + ".";
        var withPub := if FieldTruthy(j.props, "publication_name") then base + " " + FieldText(j.props, "publication_name", "") + "." else base;
        Ok(if FieldTruthy(j.props, "doi") then withPub + " https://doi.org/" + FieldText(j.props, "doi", "")
           else if FieldTruthy(j.props, "url") then withPub + " " + FieldText(j.props, "url", "")
           else withPub)
  }

  /** Without a citation, a DOI is linked through doi.org in preference to the URL. */
  lemma DoiPreferred(j: Json, isoYear: string -> Option<string>)
    requires j.JObj? && !FieldTruthy(j.props, "apa_citation") && FieldTruthy(j.props, "doi")
    requires Citation(j, isoYear).Ok?
    ensures EndsWith(Citation(j, isoYear).value, " https://doi.org/" + FieldText(j.props, "doi", ""))
  {
  }

  /** A bare entry with only authors and title cites "<authors> (n.d.). <title>.". */
  lemma NoDateCitation(authors: string, title: string, isoYear: string -> Option<string>)
    ensures Citation(JObj([("authors", JStr(authors)), ("title", JStr(title))]), isoYear)
         == Ok(authors + " (n.d.). " + title + ".")
  {
    var props := [("authors", JStr(authors)), ("title", JStr(title))];
    GetAt(props, "authors", 0);
    GetAt(props, "title", 1);
    assert !FieldTruthy(props, "apa_citation") && !FieldTruthy(props, "publication_date");
    assert !FieldTruthy(props, "publication_name") && !FieldTruthy(props, "doi") && !FieldTruthy(props, "url");
    assert CitationYear(props, isoYear) == Ok("n.d.");
    assert FieldText(props, "authors", "") == authors && FieldText(props, "title", "") == title;
    assert authors + " (" + "n.d." + "). " + title + "." == authors + " (n.d.). " + title + ".";
  }

  const ReferencesHeader := "\n\n## References\n\n"

  function Entry(i: nat, citation: string): string
  {
    "[" + NatToString(i + 1) + "] " + citation + "\n\n"
  }

  /** The citation function of the entries, for a given year parser. */
  function Cite(isoYear: string -> Option<string>): Json -> Result<string, string>
  {
    j => Citation(j, isoYear)
  }

  /** `cite` agrees with `Citation` under `isoYear`. */
  ghost predicate IsCite(cite: Json -> Result<string, string>, isoYear: string -> Option<string>)
  {
    forall j {:trigger Citation(j, isoYear)} :: cite(j) == Citation(j, isoYear)
  }

  lemma CiteIsCite(isoYear: string -> Option<string>)
    ensures IsCite(Cite(isoYear), isoYear)
  {
  }

  /** The entries of the first `n` references, each cited by `cite`, or the first error. */
  function Entries(refs: seq<Json>, n: nat, cite: Json -> Result<string, string>): Result<string, string>
    requires n <= |refs|
  {
    if n == 0 then Ok("")
    else
      var p := Entries(refs, n - 1, cite);
      var c := cite(refs[n - 1]);
      if p.Err? then p
      else if c.Err? then Err(c.error)
      else Ok(p.value + Entry(n - 1, c.value))
  }

  /** `format_references_as_markdown`: "" for no references; else the header and one "[k] citation" entry per reference. */
  function Markdown(refs: seq<Json>, isoYear: string -> Option<string>): (r: Result<string, string>)
    ensures refs == [] ==> r == Ok("")
    ensures refs != [] && r.Ok? ==> StartsWith(r.value, ReferencesHeader)
  {
    if refs == [] then Ok("")
    else
      var e := Entries(refs, |refs|, Cite(isoYear));
      if e.Err? then e else Ok(ReferencesHeader + e.value)
  }

  /** Entries appear in input order: the first `n` entries are a prefix of the first `m`. */
  lemma {:induction false} EntriesInOrder(refs: seq<Json>, n: nat, m: nat, cite: Json -> Result<string, string>)
    requires n <= m <= |refs| && Entries(refs, m, cite).Ok?
    ensures Entries(refs, n, cite).Ok?
    ensures StartsWith(Entries(refs, m, cite).value, Entries(refs, n, cite).value)
    decreases m - n
  {
    if n < m {
      EntriesInOrder(refs, n, m - 1, cite);
      var a := Entries(refs, n, cite).value;
      var b := Entries(refs, m - 1, cite).value;
      var c := Entries(refs, m, cite).value;
      assert c[..|b|] == b;
      assert c[..|a|] == b[..|a|];
    }
  }

  lemma {:induction false} EntriesErrorSticks(refs: seq<Json>, n: nat, m: nat, cite: Json -> Result<string, string>)
    requires n <= m <= |refs| && Entries(refs, n, cite).Err?
    ensures Entries(refs, m, cite) == Entries(refs, n, cite)
    decreases m - n
  {
    if n < m {
      EntriesErrorSticks(refs, n, m - 1, cite);
    }
  }

  lemma EntriesStep(refs: seq<Json>, i: nat, cite: Json -> Result<string, string>)
    requires i < |refs| && Entries(refs, i, cite).Ok?
    ensures var c := cite(refs[i]);
      Entries(refs, i + 1, cite) == if c.Err? then Err(c.error) else Ok(Entries(refs, i, cite).value + Entry(i, c.value))
  {
  }

  lemma ConcatAssoc(a: string, b: string, c: string)
    ensures a + (b + c) == (a + b) + c
  {
  }

  method FormatReferencesAsMarkdown(refs: seq<Json>, isoYear: string -> Option<string>) returns (r: Result<string, string>)
    ensures r == Markdown(refs, isoYear)
  {
    if refs == [] {
      return Ok("");
    }
    CiteIsCite(isoYear);
    r := FormatEntries(refs, isoYear, Cite(isoYear), ReferencesHeader);
  }

  /** The formatting loop after `head`: the entries of all references, or the first citation error. */
  method FormatEntries(refs: seq<Json>, isoYear: string -> Option<string>, ghost cite: Json -> Result<string, string>, head: string)
    returns (r: Result<string, string>)
    requires IsCite(cite, isoYear)
    ensures var e := Entries(refs, |refs|, cite); r == if e.Err? then e else Ok(head + e.value)
  {
    var markdown := head;
    for i := 0 to |refs|
      invariant Entries(refs, i, cite).Ok?
      invariant markdown == head + Entries(refs, i, cite).value
    {
      var next := AppendEntry(refs, i, isoYear, cite, head, markdown);
      if next.Err? {
        EntriesErrorSticks(refs, i + 1, |refs|, cite);
        return next;
      }
      markdown := next.value;
    }
    r := Ok(markdown);
  }

  /** One turn of the formatting loop: the entry of reference `i` appended, or its citation's error. */
  method AppendEntry(refs: seq<Json>, i: nat, isoYear: string -> Option<string>, ghost cite: Json -> Result<string, string>,
                     head: string, markdown: string)
    returns (next: Result<string, string>)
    requires IsCite(cite, isoYear)
    requires i < |refs| && Entries(refs, i, cite).Ok?
    requires markdown == head + Entries(refs, i, cite).value
    ensures next.Err? ==> Entries(refs, i + 1, cite) == next
    ensures next.Ok? ==> Entries(refs, i + 1, cite).Ok? && next.value == head + Entries(refs, i + 1, cite).value
  {
    var c := Citation(refs[i], isoYear);
    EntriesStep(refs, i, cite);
    if c.Err? {
      return Err(c.error);
    }
    var entry := Entry(i, c.value);
    ConcatAssoc(head, Entries(refs, i, cite).value, entry);
    next := Ok(markdown + entry);
  }
}
