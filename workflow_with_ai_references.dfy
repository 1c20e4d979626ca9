/**
 * `workflows/content_workflow_with_ai_references.py`: the prompt that asks
 * the model for a "REFERENCES_JSON" section, the extraction of that section
 * from the answer, and the batched processing of the references already in
 * the latest generation output. `json.loads` is a parameter (`Parser`); the
 * model, the database and the remaining fetches come from
 * AiReferenceProcessor and from the caller.
 */
module WorkflowWithAiReferences {
  import opened Wrappers
  import opened StrUtil
  import opened Items
  import Json
  import CWS = ContentWorkflowSupabase
  import CitationText
  import ARP = AiReferenceProcessor

  // ---------------------------------------------------------------- prompt

  /** The section title the prompt asks for and the extraction splits on. */
  const Marker := "REFERENCES_JSON"

  /** The fixed reference instructions, before and after the marker. */
  const InstructionsHead := "\n    IMPORTANT: At the end of your response, include a section titled \""
  const InstructionsTail := "\" that contains\n    all references used in a JSON array format. Each reference should have the following structure:\n\n    {\n        \"title\": \"The full title of the work\",\n        \"authors\": \"Author names in the format 'Last, First M.; Last, First M.'\",\n        \"publication_date\": \"YYYY-MM-DD\",\n        \"publication_name\": \"Name of journal/book/website\",\n        \"url\": \"Full URL if available\",\n        \"doi\": \"DOI if available (just the DOI, not the URL)\",\n        \"reference_type\": \"One of: Journal Article, Book, Book Chapter, Conference Paper, Report, Thesis, Website, Encyclopedia, Other\",\n        \"citation_context\": \"Brief description of how this reference was used in the content\",\n        \"apa_citation\": \"The reference formatted in APA 7th edition style\"\n    }\n\n    Make sure all references are real, verifiable sources. Do not make up references.\n    Ensure each reference is properly formatted according to APA 7th edition style.\n    "

  /**
   * The prompt's layout for any base prompt and any instruction text around
   * the marker: the base prompt, a blank line, then the instructions, which
   * name the marker.
   */
  function ReferencesPromptWith(base: string, head: string, tail: string): (r: string)
    ensures StartsWith(r, base + "\n\n")
    ensures OccursAt(r, Marker, |base| + 2 + |head|) && Contains(r, Marker)
    ensures EndsWith(r, tail)
  {
    var r := base + "\n\n" + head + Marker + tail;
    assert r[|base| + 2 + |head|..|base| + 2 + |head| + |Marker|] == Marker;
    ContainsAt(r, Marker, |base| + 2 + |head|);
    assert r[|r| - |tail|..] == tail;
    r
  }

  /** `create_content_with_references_prompt`: the base `create_prompt` text followed by the instructions. */
  function CreateContentWithReferencesPrompt(item: Item): (r: string)
    ensures StartsWith(r, CWS.CreatePrompt(item) + "\n\n") && Contains(r, Marker) && EndsWith(r, InstructionsTail)
  {
    ReferencesPromptWith(CWS.CreatePrompt(item), InstructionsHead, InstructionsTail)
  }

  // ---------------------------------------------------------------- extraction

  /** `json.loads`: the value, or None where it raises `JSONDecodeError`/`ValueError`. */
  type Parser = string -> Option<Json.Json>

  /** The cleaned text and the references (normally a list), as `extract_references_json` returns them. */
  datatype Extraction = Extraction(content: string, references: Json.Json)

  /** A one-character pattern occurs at `i` exactly when that character is there. */
  lemma OccursAtChar(t: string, c: char, i: int)
    ensures OccursAt(t, [c], i) <==> 0 <= i < |t| && t[i] == c
  {
    if 0 <= i < |t| {
      assert t[i..i + 1] == [t[i]];
    }
  }

  /** No "]" strictly between positions `i` and `j`. */
  lemma NoCloseBetween(t: string, i: int, j: int)
    requires 0 <= i < j <= |t| && forall m :: i + 1 <= m < j ==> !OccursAt(t, "]", m)
    ensures forall m :: i < m < j ==> t[m] != ']'
  {
    forall m | i < m < j ensures t[m] != ']' {
      OccursAtChar(t, ']', m);
    }
  }

  /**
   * The first match of `\[(.*?)\]` with DOTALL: from the first "[" to the
   * first "]" after it, both included.
   */
  function BracketSpan(t: string): (r: Option<string>)
    ensures r.Some? ==> |r.value| >= 2 && r.value[0] == '[' && r.value[|r.value| - 1] == ']' && Contains(t, r.value)
    ensures r.Some? ==> forall k :: 0 < k < |r.value| - 1 ==> r.value[k] != ']'
  {
    var i := Find(t, "[");
    if i < 0 then None
    else
      var j := FindFrom(t, "]", i + 1);
      if j < 0 then None
      else
        SpanShape(t, i, j);
        Some(t[i..j + 1])
  }

  /** The span from the first "[" to the first "]" after it is bracketed, lies in `t` and holds no other "]". */
  lemma SpanShape(t: string, i: int, j: int)
    requires i == Find(t, "[") && i >= 0
    requires j == FindFrom(t, "]", i + 1) && j >= 0
    ensures var r := t[i..j + 1];
      |r| >= 2 && r[0] == '[' && r[|r| - 1] == ']' && Contains(t, r) && forall k :: 0 < k < |r| - 1 ==> r[k] != ']'
  {
    var r := t[i..j + 1];
    OccursAtChar(t, '[', i);
    OccursAtChar(t, ']', j);
    assert OccursAt(t, r, i);
    ContainsAt(t, r, i);
    NoCloseBetween(t, i, j);
    forall k | 0 < k < |r| - 1
      ensures r[k] != ']'
    {
      assert r[k] == t[i + k];
    }
  }

  /** There is no bracketed span exactly when no "]" follows any "[". */
  lemma NoSpanIff(t: string)
    ensures BracketSpan(t).None? <==> forall i, j :: 0 <= i < j < |t| && t[i] == '[' ==> t[j] != ']'
  {
    var i := Find(t, "[");
    if i >= 0 {
      OccursAtChar(t, '[', i);
      var j := FindFrom(t, "]", i + 1);
      if j >= 0 {
        OccursAtChar(t, ']', j);
      } else {
        forall a | 0 <= a < i ensures t[a] != '[' {
          OccursAtChar(t, '[', a);
        }
        forall b | i < b < |t| ensures t[b] != ']' {
          OccursAtChar(t, ']', b);
        }
      }
    } else {
      forall a | 0 <= a < |t| ensures t[a] != '[' {
        OccursAtChar(t, '[', a);
      }
    }
  }

  /** The text between the first and the second marker, or to the end when there is no second one. */
  function Between(content: string): (r: string)
    requires Contains(content, Marker)
    ensures !Contains(r, Marker)
  {
    var rest := content[Find(content, Marker) + |Marker|..];
    BeforeFirst(rest, Marker);
    var j := Find(rest, Marker);
    if j < 0 then rest else rest[..j]
  }

  /** The `try` block of `extract_references_json` on the stripped section text. */
  function ParsedReferences(text: string, parse: Parser): Json.Json
  {
    match BracketSpan(text)
    case Some(span) => (match parse(span) case Some(v) => v case None => Json.JArr([]))
    case None =>
      match parse(text)
      case None => Json.JArr([])
      case Some(v) => if v.JArr? then v else Json.JArr([v])
  }

  /**
   * `extract_references_json`, stated by the first marker's position: the
   * text before it, stripped and free of the marker, and the references read
   * from the stripped text up to the next marker.
   */
  function ExtractReferencesJson(content: string, parse: Parser): (r: Extraction)
    ensures !Contains(content, Marker) ==> r == Extraction(content, Json.JArr([]))
    ensures Contains(content, Marker) ==>
      && r == Extraction(Strip(content[..Find(content, Marker)]), ParsedReferences(Strip(Between(content)), parse))
      && !Contains(r.content, Marker)
  {
    var parts := Split(content, Marker);
    SplitParts(content, Marker);
    if |parts| < 2 then Extraction(content, Json.JArr([]))
    else
      BeforeFirst(content, Marker);
      StripContains(parts[0], Marker);
      Extraction(Strip(parts[0]), ParsedReferences(Strip(parts[1]), parse))
  }

  /**
   * What the section yields: the parsed bracketed span if there is one and
   * it parses; otherwise the whole section parsed, wrapped in a list unless
   * it is one; a parse failure gives the empty list.
   */
  lemma SectionReferences(content: string, parse: Parser)
    requires Contains(content, Marker)
    ensures var text := Strip(Between(content)); var refs := ExtractReferencesJson(content, parse).references;
      && (BracketSpan(text).Some? ==>
            refs == (if parse(BracketSpan(text).value).Some? then parse(BracketSpan(text).value).value else Json.JArr([])))
      && (BracketSpan(text).None? ==>
            && refs.JArr?
            && (parse(text).None? ==> refs == Json.JArr([]))
            && (parse(text).Some? && parse(text).value.JArr? ==> refs == parse(text).value)
            && (parse(text).Some? && !parse(text).value.JArr? ==> refs == Json.JArr([parse(text).value])))
  {
  }

  /**
   * Only the text between the first and the second marker is read for
   * references: whatever follows a second marker changes neither result.
   */
  lemma LaterSectionsIgnored(body: string, section: string, later: string, parse: Parser)
    requires !Contains(body, Marker) && !Contains(section, Marker)
    ensures ExtractReferencesJson(body + Marker + section + Marker + later, parse)
         == Extraction(Strip(body), ParsedReferences(Strip(section), parse))
  {
    var tail := section + Marker + later;
    var answer := body + Marker + tail;
    assert body + Marker + section + Marker + later == answer;
    FirstOccurrence(body, tail);
    assert answer[..|body|] == body;
    assert answer[|body| + |Marker|..] == tail;
    FirstOccurrence(section, later);
    assert tail[..|section|] == section;
  }

  /** An answer with one marker: the text before it, stripped, and the references read from the rest. */
  lemma OneSection(body: string, section: string, parse: Parser)
    requires !Contains(body, Marker) && !Contains(section, Marker)
    ensures ExtractReferencesJson(body + Marker + section, parse)
         == Extraction(Strip(body), ParsedReferences(Strip(section), parse))
  {
    var answer := body + Marker + section;
    FirstOccurrence(body, section);
    assert answer[|body| + |Marker|..] == section;
    assert answer[..|body|] == body;
  }

  /** No proper suffix of the marker is also a prefix of it. */
  lemma MarkerUnbordered()
    ensures Unbordered(Marker)
  {
    forall d | 0 < d < |Marker| ensures Marker[d..] != Marker[..|Marker| - d] {
      if d == 4 {
        assert Marker[d..][2] != Marker[..|Marker| - d][2];
      } else {
        assert Marker[d..][0] != Marker[..|Marker| - d][0];
      }
    }
  }

  /** In `a + Marker + b` with no marker in `a`, the first marker is right after `a`. */
  lemma FirstOccurrence(a: string, b: string)
    requires !Contains(a, Marker)
    ensures Find(a + Marker + b, Marker) == |a|
  {
    MarkerUnbordered();
    FirstOccurrenceOf(a, Marker, b);
  }

  // ---------------------------------------------------------------- batches

  /** `reference_items[i:i+batch_size]` for each `i` in `range(0, len(reference_items), batch_size)`. */
  function Batches(items: seq<string>, size: nat): (r: seq<seq<string>>)
    requires size > 0
    ensures forall k :: 0 <= k < |r| ==> 0 < |r[k]| <= size
    ensures forall k :: 0 <= k < |r| - 1 ==> |r[k]| == size
    decreases |items|
  {
    if items == [] then []
    else if |items| <= size then [items]
    else [items[..size]] + Batches(items[size..], size)
  }

  function Concat<T>(bs: seq<seq<T>>): seq<T>
  {
    if bs == [] then [] else bs[0] + Concat(bs[1..])
  }

  /** The batches are consecutive slices that together give back the items, in order. */
  lemma {:induction false} BatchesCover(items: seq<string>, size: nat)
    requires size > 0
    ensures Concat(Batches(items, size)) == items
    decreases |items|
  {
    if |items| > size {
      BatchesCover(items[size..], size);
      var bs := Batches(items, size);
      assert bs == [items[..size]] + Batches(items[size..], size);
      assert bs[0] == items[..size];
      assert bs[1..] == Batches(items[size..], size);
      assert Concat(bs) == items[..size] + items[size..];
      assert items == items[..size] + items[size..];
    } else if items != [] {
      assert Batches(items, size)[1..] == [];
    }
  }

  /** `process_references_batch` on the texts: one processed entry per text, in order. */
  function Processed(texts: seq<string>, ai: ARP.Model): (r: seq<Json.Json>)
    ensures |r| == |texts|
    ensures forall k :: 0 <= k < |r| ==> r[k] == ARP.ProcessReference(texts[k], ai)
  {
    if texts == [] then [] else [ARP.ProcessReference(texts[0], ai)] + Processed(texts[1..], ai)
  }

  /** Each batch processed, the results extended one after another. */
  function ProcessedBatches(bs: seq<seq<string>>, ai: ARP.Model): seq<Json.Json>
  {
    if bs == [] then [] else Processed(bs[0], ai) + ProcessedBatches(bs[1..], ai)
  }

  lemma ProcessedAppend(a: seq<string>, b: seq<string>, ai: ARP.Model)
    ensures Processed(a + b, ai) == Processed(a, ai) + Processed(b, ai)
  {
    var l := Processed(a + b, ai);
    var r := Processed(a, ai) + Processed(b, ai);
    assert |l| == |r|;
    forall k | 0 <= k < |l| ensures l[k] == r[k] {
      if k < |a| {
        assert (a + b)[k] == a[k];
      } else {
        assert (a + b)[k] == b[k - |a|];
      }
    }
  }

  /** Processing batch by batch is processing the concatenation. */
  lemma {:induction false} ProcessedBatchesConcat(bs: seq<seq<string>>, ai: ARP.Model)
    ensures ProcessedBatches(bs, ai) == Processed(Concat(bs), ai)
  {
    if bs != [] {
      ProcessedBatchesConcat(bs[1..], ai);
      ProcessedAppend(bs[0], Concat(bs[1..]), ai);
    }
  }

  /** Batching changes neither which texts are processed nor their order. */
  lemma BatchingKeepsOrder(items: seq<string>, size: nat, ai: ARP.Model)
    requires size > 0
    ensures ProcessedBatches(Batches(items, size), ai) == Processed(items, ai)
  {
    ProcessedBatchesConcat(Batches(items, size), ai);
    BatchesCover(items, size);
  }

  /**
   * The batching loop of `process_existing_references`: `range` raises
   * `ValueError` for a zero step and is empty for a negative one; with a
   * positive size every item is processed once, in order.
   */
  method ProcessInBatches(items: seq<string>, batchSize: int, ai: ARP.Model) returns (r: Result<seq<Json.Json>, string>)
    ensures batchSize == 0 ==> r == Err("ValueError")
    ensures batchSize < 0 ==> r == Ok([])
    ensures batchSize > 0 ==> r == Ok(Processed(items, ai))
  {
    if batchSize == 0 {
      return Err("ValueError");
    }
    var all: seq<Json.Json> := [];
    if batchSize > 0 {
      var i := 0;
      while i < |items|
        invariant i <= |items| ==> all == Processed(items[..i], ai)
        invariant i > |items| ==> all == Processed(items, ai)
        decreases |items| - i
      {
        var end := if i + batchSize < |items| then i + batchSize else |items|;
        var batch := items[i..end];
        var processed := ARP.ProcessReferencesBatch(batch, ai);
        AppendBatch(items, i, end, processed, ai);
        all := all + processed;
        i := i + batchSize;
      }
      assert items[..|items|] == items;
    }
    r := Ok(all);
  }

  /** Extending the results for the items before `i` by those of the batch `items[i..end]`. */
  lemma AppendBatch(items: seq<string>, i: nat, end: nat, processed: seq<Json.Json>, ai: ARP.Model)
    requires i <= end <= |items|
    requires |processed| == end - i
    requires forall k :: 0 <= k < end - i ==> processed[k] == ARP.ProcessReference(items[i..end][k], ai)
    ensures Processed(items[..i], ai) + processed == Processed(items[..end], ai)
    ensures end == |items| ==> Processed(items[..i], ai) + processed == Processed(items, ai)
  {
    assert processed == Processed(items[i..end], ai);
    assert items[..end] == items[..i] + items[i..end];
    ProcessedAppend(items[..i], items[i..end], ai);
    assert end == |items| ==> items[..end] == items;
  }

  // ---------------------------------------------------------------- existing references

  /**
   * The reference items of the latest output's `output_text`: the same
   * section pattern as the first importer, split also at `*` bullets.
   */
  function ExistingItems(latest: Item): seq<string>
  {
    CitationText.ReferenceItems(FieldOr(latest, "output_text", ""), CitationText.HeadersWithoutCitations, true)
  }

  /**
   * `process_existing_references`: `connected` is `is_connected()`, `found`
   * whether the inventory has the item, `outputs` the fetched generation
   * outputs (the latest first). Any exception, including the one `range`
   * raises for a zero batch size and the one storing raises, ends it with
   * False.
   */
  method ProcessExistingReferences(contentId: string, connected: bool, found: bool, outputs: seq<Item>, batchSize: int,
                                   ai: ARP.Model, db: ARP.StoreDb) returns (ok: bool)
    ensures !connected || !found || outputs == [] ==> !ok
    ensures outputs != [] && ExistingItems(outputs[0]) == [] ==> !ok
    ensures batchSize == 0 ==> !ok
    ensures connected && found && outputs != [] && ExistingItems(outputs[0]) != [] ==>
      && (batchSize < 0 ==> ok)
      && (batchSize > 0 ==>
            (ok <==> ARP.StoreLoop(contentId, Processed(ExistingItems(outputs[0]), ai),
                                   |ExistingItems(outputs[0])|, db).Ok?))
  {
    if !connected || !found || outputs == [] {
      return false;
    }
    var latest := outputs[0];
    var text := FieldOr(latest, "output_text", "");
    if text == "" {
      assert ExistingItems(latest) == [] by {
        CitationText.NoHeaderNoItems(text, CitationText.HeadersWithoutCitations, true);
      }
      return false;
    }
    var items := CitationText.ReferenceItems(text, CitationText.HeadersWithoutCitations, true);
    if items == [] {
      return false;
    }
    var batched := ProcessInBatches(items, batchSize, ai);
    if batched.Err? {
      return false;
    }
    var stored := ARP.StoreProcessedReferences(contentId, batched.value, db);
    ok := stored.Ok?;
  }
}
