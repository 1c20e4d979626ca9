/**
 * `content_workflow_supabase.py`: prompt construction, cleaning of the
 * generated text, the sources section, the dependency check and the guard
 * and failure paths of generating one content item. The same prompt,
 * cleaning and dependency code is repeated in
 * `workflows/content_workflow_supabase.py`, whose module (WorkflowSupabase)
 * uses these definitions. Inventory rows are `Item`s; a column that is NULL
 * is absent from the row and renders as "None" in an f-string.
 */
module ContentWorkflowSupabase {
  import opened Wrappers
  import opened StrUtil
  import opened Items
  import Json

  // ---------------------------------------------------------------- prompts

  /** A column rendered by an f-string. */
  function Col(item: Item, key: string): string
  {
    FieldOr(item, key, "None")
  }

  /** The secondary pillars: the comma-separated parts, each stripped. */
  function StripAll(parts: seq<string>): (r: seq<string>)
    ensures |r| == |parts|
    ensures forall k :: 0 <= k < |r| ==> r[k] == Strip(parts[k])
  {
    if parts == [] then [] else [Strip(parts[0])] + StripAll(parts[1..])
  }

  /** The truthy values among the two primary pillars, in order. */
  function Primaries(item: Item): (r: seq<string>)
    ensures |r| <= 2
    ensures forall k :: 0 <= k < |r| ==> r[k] != ""
  {
    var p1 := Field(item, "primary_mission_pillar_1");
    var p2 := Field(item, "primary_mission_pillar_2");
    (if Truthy(p1) then [p1.value] else []) + (if Truthy(p2) then [p2.value] else [])
  }

  /** `mission_pillars`: the truthy primary pillars, then the stripped comma-separated secondary ones. */
  function MissionPillars(item: Item): (r: seq<string>)
    ensures |r| >= |Primaries(item)| && r[..|Primaries(item)|] == Primaries(item)
    ensures var s := Field(item, "secondary_mission_pillars");
      if Truthy(s) then r[|Primaries(item)|..] == StripAll(Split(s.value, ",")) else r == Primaries(item)
  {
    var s := Field(item, "secondary_mission_pillars");
    Primaries(item) + (if Truthy(s) then StripAll(Split(s.value, ",")) else [])
  }

  /** No secondary pillars: exactly the truthy primaries. */
  lemma PillarsWithoutSecondaries(item: Item)
    requires !Truthy(Field(item, "secondary_mission_pillars"))
    ensures MissionPillars(item) == Primaries(item)
  {
  }

  /** A secondary string holds at least one pillar, so the list is never shorter than the truthy primaries plus one. */
  lemma SecondariesCounted(item: Item)
    requires Truthy(Field(item, "secondary_mission_pillars"))
    ensures |MissionPillars(item)| >= |Primaries(item)| + 1
  {
  }

  const PromptGuidance := "\n\n    The content should include:\n    1. An introduction that explains the topic and its importance\n    2. Main content sections that cover key concepts, how it works, applications, and limitations\n    3. For each mission pillar, include a dedicated section that discusses how the topic relates to that pillar\n    4. A conclusion that summarizes key points and provides next steps\n\n    Format the content in Markdown with clear headings, bullet points, and numbered lists where appropriate.\n\n    The content should be educational, informative, and engaging for the specified audience.\n\n    IMPORTANT: Start directly with the content. Do not include any introductory phrases like \"Here is...\" or \"I've created...\" or \"Okay, here is...\". The content should begin immediately with the title or first section.\n    "

  /** The prompt's opening: the item's content type and title. */
  function Intro(item: Item): string
  {
    "\n    Create a comprehensive " + Col(item, "content_type") + " on \"" + Col(item, "title") + "\" for a "
  }

  /**
   * The prompt's layout for any closing text: the item's columns and its
   * pillars joined by ", ", with `guidance` last.
   */
  function PromptWith(item: Item, guidance: string): (r: string)
    ensures StartsWith(r, Intro(item))
    ensures Contains(r, Join(MissionPillars(item), ", "))
    ensures EndsWith(r, guidance)
  {
    var level := Col(item, "audience_technical_level");
    var rest := level + " audience.\n\n    Content ID: " + Col(item, "content_id")
      + "\n\n    Target Audience:\n    - Technical Level: " + level
      + "\n    - Role/Context: " + Col(item, "audience_role")
      + "\n    - Resource Constraints: " + Col(item, "audience_constraints")
      + "\n\n    The content should integrate the following mission pillars:\n    ";
    var pillars := Join(MissionPillars(item), ", ");
    var post := "\n\n    SMART Objectives:\n    " + Col(item, "smart_objectives")
      + "\n\n    Practical Components to include:\n    " + Col(item, "practical_components") + guidance;
    var body := rest + pillars + post;
    assert body[|rest|..|rest| + |pillars|] == pillars;
    Around(Intro(item), body, pillars, |rest|);
    EndsWithConcat("\n\n    SMART Objectives:\n    " + Col(item, "smart_objectives")
      + "\n\n    Practical Components to include:\n    " + Col(item, "practical_components"), guidance);
    EndsWithTail(rest + pillars, post, guidance);
    EndsWithTail(Intro(item), body, guidance);
    Intro(item) + body
  }

  /** A text put after `pre` starts the result, and what occurs in it at `i` occurs at `|pre| + i`. */
  lemma Around(pre: string, body: string, mid: string, i: int)
    requires OccursAt(body, mid, i)
    ensures StartsWith(pre + body, pre)
    ensures OccursAt(pre + body, mid, |pre| + i) && Contains(pre + body, mid)
  {
    assert (pre + body)[..|pre|] == pre;
    assert (pre + body)[|pre| + i..|pre| + i + |mid|] == body[i..i + |mid|];
    ContainsAt(pre + body, mid, |pre| + i);
  }

  /** A text ending in `e` still ends in it after a prefix is added. */
  lemma EndsWithTail(a: string, b: string, e: string)
    requires EndsWith(b, e)
    ensures EndsWith(a + b, e)
  {
    assert (a + b)[|a + b| - |e|..] == b[|b| - |e|..];
  }

  lemma EndsWithConcat(a: string, b: string)
    ensures EndsWith(a + b, b)
  {
    assert (a + b)[|a|..] == b;
  }

  /** `create_prompt`. */
  function CreatePrompt(item: Item): (r: string)
    ensures StartsWith(r, Intro(item)) && Contains(r, Join(MissionPillars(item), ", ")) && EndsWith(r, PromptGuidance)
  {
    PromptWith(item, PromptGuidance)
  }

  const SourcesHead := "\n    Based on the following content, recommend 5 high-quality academic sources that would be relevant for citation.\n\n    Content:\n    "
  const SourcesTail := "\n\n    For each source, provide:\n    1. A unique ID (e.g., \"author2023title\")\n    2. The full title\n    3. The authors (full names)\n    4. The publication year\n    5. The venue (journal, conference, etc.)\n    6. A URL if available\n    7. The full citation in APA format\n\n    Make sure the sources are:\n    - Recent (within the last 5 years when possible)\n    - Relevant to the content\n    - From reputable venues\n    - Properly formatted\n    - Diverse (from different authors/institutions)\n\n    IMPORTANT: Provide the sources directly in JSON format. Do not include any introductory phrases like \"Here are the sources...\" or \"I've found these sources...\". Just return the JSON array of sources.\n    "

  /** The sources prompt's layout for any fixed head and tail: the content's first 2000 characters between them. */
  function SourcesPromptWith(head: string, tail: string, content: string): (r: string)
    ensures |r| == |head| + |Prefix(content, 2000)| + |tail|
    ensures r[|head|..|head| + |Prefix(content, 2000)|] == Prefix(content, 2000)
    ensures StartsWith(r, head + Prefix(content, 2000)) && EndsWith(r, tail)
  {
    var e := Prefix(content, 2000);
    assert (head + e + tail)[|head|..|head| + |e|] == e;
    assert (head + e + tail)[..|head| + |e|] == head + e;
    assert (head + e + tail)[|head| + |e|..] == tail;
    head + e + tail
  }

  /** `create_sources_prompt`. */
  function CreateSourcesPrompt(content: string): (r: string)
    ensures EndsWith(r, SourcesTail)
    ensures StartsWith(r, SourcesHead + Prefix(content, 2000)) && |r| == |SourcesHead| + |Prefix(content, 2000)| + |SourcesTail|
  {
    SourcesPromptWith(SourcesHead, SourcesTail, content)
  }

  /** Only the first 2000 characters reach the prompt: contents that agree on them give the same prompt. */
  lemma SourcesPromptSeesPrefix(head: string, tail: string, a: string, b: string)
    requires Prefix(a, 2000) == Prefix(b, 2000)
    ensures SourcesPromptWith(head, tail, a) == SourcesPromptWith(head, tail, b)
  {
  }

  // ---------------------------------------------------------------- cleaning

  /** The literal heads of `^Okay, here is a comprehensive .+?\n\n` and the five other patterns, in order. */
  const Preambles: seq<string> :=
    ["Okay, here is a comprehensive ", "Here is the ", "I've created a ", "Below is a ", "As requested, here is ", "This is a "]

  /**
   * `re.sub(head + ".+?\n\n", "", t, flags=re.DOTALL)` anchored at the start:
   * when `t` begins with `head` and a blank line follows at least one
   * character after it, everything up to and including the first such blank line goes.
   */
  function DropPreamble(t: string, head: string): (r: string)
    ensures EndsWith(t, r)
    ensures !StartsWith(t, head) ==> r == t
  {
    if StartsWith(t, head) then
      var j := FindFrom(t, "\n\n", |head| + 1);
      if j >= 0 then
        assert t[|t| - |t[j + 2..]|..] == t[j + 2..];
        t[j + 2..]
      else t
    else t
  }

  /** The text after the first `n` patterns. */
  function CleanWith(t: string, n: nat): (r: string)
    requires n <= |Preambles|
    ensures EndsWith(t, r)
  {
    if n == 0 then t
    else
      var p := CleanWith(t, n - 1);
      var r := DropPreamble(p, Preambles[n - 1]);
      EndsWithTrans(t, p, r);
      r
  }

  lemma EndsWithTrans(a: string, b: string, c: string)
    requires EndsWith(a, b) && EndsWith(b, c)
    ensures EndsWith(a, c)
  {
    assert a[|a| - |c|..] == b[|b| - |c|..];
  }

  /** `clean_generated_content`: the patterns applied in turn to the current text. */
  method CleanGeneratedContent(content: string) returns (r: string)
    ensures r == CleanWith(content, |Preambles|)
    ensures EndsWith(content, r)
  {
    r := content;
    for i := 0 to |Preambles|
      invariant r == CleanWith(content, i)
    {
      r := DropPreamble(r, Preambles[i]);
    }
  }

  /** Text that begins with none of the preamble heads is returned unchanged. */
  lemma {:induction false} NoPreambleUnchanged(t: string, n: nat)
    requires n <= |Preambles|
    requires forall k :: 0 <= k < |Preambles| ==> !StartsWith(t, Preambles[k])
    ensures CleanWith(t, n) == t
  {
    if n > 0 {
      NoPreambleUnchanged(t, n - 1);
    }
  }

  // ---------------------------------------------------------------- sources section

  const SourcesHeader := "\n\n## Sources\n\n"

  const MetadataHead := "\n## Source Collection Metadata\n\nThis content includes sources collected through the Source Collection and Documentation Module of the Agentic AI Content Creation System.\n\n**Collection Date**: "
  const MetadataTail := "\n\n**Source Types**:\n- Academic papers\n- Industry reports\n- Technical documentation\n\n**Source Evaluation Criteria**:\n- Relevance to the topic\n- Authority of the source\n- Recency of the information\n- Accuracy and reliability\n"

  /** The fixed metadata block, with the clock's date. */
  function CollectionMetadata(date: string): string
  {
    MetadataHead + date + MetadataTail
  }

  /** A source object with both keys the entry reads. */
  predicate Citable(source: Json.Json)
  {
    source.JObj? && Json.Get(source.props, "id").Some? && Json.Get(source.props, "citation").Some?
  }

  /** `f"[{source['id']}] {source['citation']}\n\n"`, or the error `source['id']` or `source['citation']` raises. */
  function SourceEntry(source: Json.Json): (r: Result<string, string>)
    ensures r.Ok? <==> Citable(source)
  {
    if !source.JObj? then Err("TypeError")
    else
      var id := Json.Get(source.props, "id");
      var citation := Json.Get(source.props, "citation");
      if id.None? || citation.None? then Err("KeyError")
      else Ok("[" + Json.PyStr(id.value) + "] " + Json.PyStr(citation.value) + "\n\n")
  }

  /** The entries of the first `n` sources, or the first error. */
  function SourceEntries(sources: seq<Json.Json>, n: nat): Result<string, string>
    requires n <= |sources|
  {
    if n == 0 then Ok("")
    else
      var p := SourceEntries(sources, n - 1);
      var e := SourceEntry(sources[n - 1]);
      if p.Err? then p else if e.Err? then Err(e.error) else Ok(p.value + e.value)
  }

  /** The entries succeed exactly when every source has an id and a citation. */
  lemma {:induction false} SourceEntriesOk(sources: seq<Json.Json>, n: nat)
    requires n <= |sources|
    ensures SourceEntries(sources, n).Ok? <==> forall k :: 0 <= k < n ==> Citable(sources[k])
  {
    if n > 0 {
      SourceEntriesOk(sources, n - 1);
      assert SourceEntries(sources, n).Ok? <==> SourceEntries(sources, n - 1).Ok? && SourceEntry(sources[n - 1]).Ok?;
      assert (forall k :: 0 <= k < n ==> Citable(sources[k])) <==>
             (forall k :: 0 <= k < n - 1 ==> Citable(sources[k])) && Citable(sources[n - 1]);
    }
  }

  /** `add_sources_to_content`: the content, the header, one entry per source in order, and the metadata block. */
  function AddSources(content: string, sources: seq<Json.Json>, date: string): Result<string, string>
  {
    var e := SourceEntries(sources, |sources|);
    if e.Err? then Err(e.error) else Ok(content + SourcesHeader + e.value + CollectionMetadata(date))
  }

  /** The result starts with the content and the header and ends with the metadata block; no sources, no entries. */
  lemma AddSourcesShape(content: string, sources: seq<Json.Json>, date: string)
    ensures var r := AddSources(content, sources, date);
      && (r.Ok? ==> StartsWith(r.value, content + SourcesHeader) && EndsWith(r.value, CollectionMetadata(date)))
      && (sources == [] ==> r == Ok(content + SourcesHeader + CollectionMetadata(date)))
  {
    var e := SourceEntries(sources, |sources|);
    if e.Ok? {
      var v := content + SourcesHeader + e.value + CollectionMetadata(date);
      assert v[..|content + SourcesHeader|] == content + SourcesHeader;
      assert v[|v| - |CollectionMetadata(date)|..] == CollectionMetadata(date);
    }
    if sources == [] {
      assert content + SourcesHeader + "" == content + SourcesHeader;
    }
  }

  lemma ConcatAssoc(a: string, b: string, c: string)
    ensures a + (b + c) == (a + b) + c
  {
  }

  method AddSourcesToContent(content: string, sources: seq<Json.Json>, date: string) returns (r: Result<string, string>)
    ensures r == AddSources(content, sources, date)
  {
    SourceEntryIsSourceEntry();
    ghost var entry :| IsSourceEntry(entry);
    var withSources := AppendSources(content + SourcesHeader, sources, entry);
    EntriesAgree(sources, |sources|, entry);
    if withSources.Err? {
      return Err(withSources.error);
    }
    r := Ok(withSources.value + CollectionMetadata(date));
  }

  /** The entries of the first `n` sources, each written by `entry`, or the first error. */
  function EntriesWith(sources: seq<Json.Json>, n: nat, entry: Json.Json -> Result<string, string>): Result<string, string>
    requires n <= |sources|
  {
    if n == 0 then Ok("")
    else
      var p := EntriesWith(sources, n - 1, entry);
      var e := entry(sources[n - 1]);
      if p.Err? then p else if e.Err? then Err(e.error) else Ok(p.value + e.value)
  }

  /** `entry` writes every source as `SourceEntry` does. */
  ghost predicate IsSourceEntry(entry: Json.Json -> Result<string, string>)
  {
    forall source {:trigger SourceEntry(source)} :: entry(source) == SourceEntry(source)
  }

  lemma SourceEntryIsSourceEntry()
    ensures IsSourceEntry(SourceEntry)
  {
  }

  lemma {:induction false} EntriesAgree(sources: seq<Json.Json>, n: nat, entry: Json.Json -> Result<string, string>)
    requires n <= |sources| && IsSourceEntry(entry)
    ensures EntriesWith(sources, n, entry) == SourceEntries(sources, n)
  {
    if n > 0 {
      EntriesAgree(sources, n - 1, entry);
    }
  }

  /** The loop over the sources: each entry appended to `start` in order, or the first error. */
  method AppendSources(start: string, sources: seq<Json.Json>, ghost entry: Json.Json -> Result<string, string>)
    returns (r: Result<string, string>)
    requires IsSourceEntry(entry)
    ensures var e := EntriesWith(sources, |sources|, entry); r == if e.Err? then Err(e.error) else Ok(start + e.value)
  {
    var withSources := start;
    for i := 0 to |sources|
      invariant EntriesWith(sources, i, entry).Ok?
      invariant withSources == start + EntriesWith(sources, i, entry).value
    {
      var next := AppendSource(withSources, sources, i, start, entry);
      if next.Err? {
        ErrorSticks(sources, i + 1, |sources|, entry);
        return Err(next.error);
      }
      withSources := next.value;
    }
    r := Ok(withSources);
  }

  /** One pass of the loop: the entry of source `i` appended, or the error it raises. */
  method AppendSource(withSources: string, sources: seq<Json.Json>, i: nat, ghost head: string,
                      ghost entry: Json.Json -> Result<string, string>)
    returns (next: Result<string, string>)
    requires IsSourceEntry(entry)
    requires i < |sources| && EntriesWith(sources, i, entry).Ok?
    requires withSources == head + EntriesWith(sources, i, entry).value
    ensures EntriesWith(sources, i + 1, entry).Err? ==> next == EntriesWith(sources, i + 1, entry)
    ensures EntriesWith(sources, i + 1, entry).Ok? ==> next == Ok(head + EntriesWith(sources, i + 1, entry).value)
  {
    var e := SourceEntry(sources[i]);
    if e.Err? {
      return Err(e.error);
    }
    ConcatAssoc(head, EntriesWith(sources, i, entry).value, e.value);
    next := Ok(withSources + e.value);
  }

  lemma {:induction false} ErrorSticks(sources: seq<Json.Json>, n: nat, m: nat, entry: Json.Json -> Result<string, string>)
    requires n <= m <= |sources| && EntriesWith(sources, n, entry).Err?
    ensures EntriesWith(sources, m, entry) == EntriesWith(sources, n, entry)
    decreases m - n
  {
    if n < m {
      ErrorSticks(sources, n, m - 1, entry);
    }
  }

  /**
   * The entries of a source list are the concatenation of their own entries:
   * the first `n` entries are followed by the entry of source `n`.
   */
  lemma SourceEntriesInOrder(sources: seq<Json.Json>, n: nat)
    requires n < |sources| && SourceEntries(sources, n + 1).Ok?
    ensures SourceEntries(sources, n).Ok? && SourceEntry(sources[n]).Ok?
    ensures SourceEntries(sources, n + 1).value == SourceEntries(sources, n).value + SourceEntry(sources[n]).value
  {
  }

  /** `for source in sources` over a decoded value: what a list, an empty dict or an empty string yields; anything else raises. */
  function Iterated(j: Json.Json): (r: Result<seq<Json.Json>, string>)
    ensures j.JArr? ==> r == Ok(j.items)
  {
    if j.JArr? then Ok(j.items)
    else if j == Json.JObj([]) || j == Json.JStr("") then Ok([])
    else Err("TypeError")
  }

  // ---------------------------------------------------------------- dependencies

  /** `get_content_inventory(content_id=...)[0]`, or None when no row has that id. */
  type Inventory = string -> Option<Item>

  /** `dependencies_str.split(',')`, each part stripped. */
  function DependencyIds(deps: string): (r: seq<string>)
    ensures |r| >= 1
  {
    StripAll(Split(deps, ","))
  }

  /** Whether the dependency string means "no dependencies". */
  predicate NoDependencies(deps: string)
  {
    deps == "" || Lower(deps) == "none"
  }

  /** The description of an unmet dependency, or None when it exists and is Completed. */
  function Unmet(dep: string, inventory: Inventory): (r: Option<string>)
    ensures r.None? <==> inventory(dep).Some? && Col(inventory(dep).value, "status") == "Completed"
  {
    var row := inventory(dep);
    if row.None? then Some(dep + " (Not Found)")
    else if Col(row.value, "status") != "Completed" then Some(dep + " (" + Col(row.value, "status") + ")")
    else None
  }

  /** `incomplete_deps` after the first `n` dependencies. */
  function Incomplete(deps: seq<string>, n: nat, inventory: Inventory): (r: seq<string>)
    requires n <= |deps|
    ensures |r| <= n
  {
    if n == 0 then []
    else
      var p := Incomplete(deps, n - 1, inventory);
      var u := Unmet(deps[n - 1], inventory);
      if u.Some? then p + [u.value] else p
  }

  /** No unmet dependency is reported exactly when every one exists and is Completed. */
  lemma {:induction false} IncompleteEmpty(deps: seq<string>, n: nat, inventory: Inventory)
    requires n <= |deps|
    ensures Incomplete(deps, n, inventory) == [] <==> forall k :: 0 <= k < n ==> Unmet(deps[k], inventory).None?
  {
    if n > 0 {
      IncompleteEmpty(deps, n - 1, inventory);
    }
  }

  /** `check_dependencies(content_id)`: whether the item may proceed, and the unmet dependencies. */
  function Dependencies(contentId: string, inventory: Inventory): (r: (bool, seq<string>))
    ensures inventory(contentId).None? ==> r == (false, [])
    ensures r.0 ==> r.1 == []
  {
    var row := inventory(contentId);
    if row.None? then (false, [])
    else
      var deps := FieldOr(row.value, "dependencies", "");
      if NoDependencies(deps) then (true, [])
      else
        var ids := DependencyIds(deps);
        var inc := Incomplete(ids, |ids|, inventory);
        if inc != [] then (false, inc) else (true, [])
  }

  /** A known item may proceed exactly when it has no dependencies or each one exists and is Completed. */
  lemma DependenciesMet(contentId: string, inventory: Inventory)
    requires inventory(contentId).Some?
    ensures var deps := FieldOr(inventory(contentId).value, "dependencies", "");
      Dependencies(contentId, inventory).0 <==>
        (NoDependencies(deps) || forall k :: 0 <= k < |DependencyIds(deps)| ==>
           inventory(DependencyIds(deps)[k]).Some? && Col(inventory(DependencyIds(deps)[k]).value, "status") == "Completed")
  {
    var deps := FieldOr(inventory(contentId).value, "dependencies", "");
    var ids := DependencyIds(deps);
    IncompleteEmpty(ids, |ids|, inventory);
  }

  method CheckDependencies(contentId: string, inventory: Inventory) returns (met: bool, incomplete: seq<string>)
    ensures (met, incomplete) == Dependencies(contentId, inventory)
  {
    var row := inventory(contentId);
    if row.None? {
      return false, [];
    }
    var deps := FieldOr(row.value, "dependencies", "");
    if NoDependencies(deps) {
      return true, [];
    }
    var ids := DependencyIds(deps);
    incomplete := [];
    for i := 0 to |ids|
      invariant incomplete == Incomplete(ids, i, inventory)
    {
      var dep := inventory(ids[i]);
      if dep.None? {
        incomplete := incomplete + [ids[i] + " (Not Found)"];
      } else if Col(dep.value, "status") != "Completed" {
        incomplete := incomplete + [ids[i] + " (" + Col(dep.value, "status") + ")"];
      }
    }
    if incomplete != [] {
      return false, incomplete;
    }
    met := true;
  }

  // ---------------------------------------------------------------- one item

  /**
   * The answers of the outside calls of one run: the connection, whether the
   * prompt and the output were logged, the generated text (or the error
   * raised), the decoded sources (or the error), and the day's date.
   */
  datatype Calls = Calls(connected: bool, promptLogged: bool, generated: Result<string, string>, outputLogged: bool,
                         sources: Result<Json.Json, string>, date: string)

  /** The result and the status updates made, in order. */
  datatype Run = Run(success: bool, statuses: seq<string>, saved: Option<string>)

  /** The checks before any status update; true when generation may start. */
  predicate MayStart(contentId: string, inventory: Inventory, force: bool, connected: bool)
  {
    connected && inventory(contentId).Some?
    && (force || (Col(inventory(contentId).value, "status") != "Completed" && Dependencies(contentId, inventory).0))
  }

  /** `generate_content_for_item`: the guards, then "In Progress" and one final "Completed" or "Failed". */
  function GenerateContentForItem(contentId: string, inventory: Inventory, force: bool, calls: Calls): (r: Run)
    ensures !MayStart(contentId, inventory, force, calls.connected) ==> r == Run(false, [], None)
    ensures MayStart(contentId, inventory, force, calls.connected) ==>
      |r.statuses| == 2 && r.statuses[0] == "In Progress"
      && (r.success <==> r.statuses[1] == "Completed")
      && (!r.success ==> r.statuses[1] == "Failed" && r.saved.None?)
    ensures r.success ==> r.saved.Some?
  {
    if !MayStart(contentId, inventory, force, calls.connected) then Run(false, [], None)
    else if !calls.promptLogged || calls.generated.Err? || !calls.outputLogged || calls.sources.Err? then
      Run(false, ["In Progress", "Failed"], None)
    else
      var content := CleanWith(calls.generated.value, |Preambles|);
      var sources := Iterated(calls.sources.value);
      if sources.Err? then Run(false, ["In Progress", "Failed"], None)
      else
        var withSources := AddSources(content, sources.value, calls.date);
        if withSources.Err? then Run(false, ["In Progress", "Failed"], None)
        else Run(true, ["In Progress", "Completed"], Some(withSources.value))
  }

  /** Completed content is not regenerated without force, and nothing is updated. */
  lemma CompletedNotRegenerated(contentId: string, inventory: Inventory, calls: Calls)
    requires inventory(contentId).Some? && Col(inventory(contentId).value, "status") == "Completed"
    ensures GenerateContentForItem(contentId, inventory, false, calls) == Run(false, [], None)
  {
  }

  /** The saved file is the cleaned text followed by its sources section. */
  lemma SavedHasSources(contentId: string, inventory: Inventory, force: bool, calls: Calls)
    requires GenerateContentForItem(contentId, inventory, force, calls).success
    ensures calls.generated.Ok?
    ensures StartsWith(GenerateContentForItem(contentId, inventory, force, calls).saved.value,
                       CleanWith(calls.generated.value, |Preambles|) + SourcesHeader)
  {
    var content := CleanWith(calls.generated.value, |Preambles|);
    AddSourcesShape(content, Iterated(calls.sources.value).value, calls.date);
  }
}
