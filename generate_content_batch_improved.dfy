/**
 * `generate_content_batch_improved.py`: batch generation over the content
 * inventory with ';'-separated dependency lists, conjunctive filters, a
 * status selection, an optional `max_items` cut, a dependency gate on the
 * full graph, and a status reset. The graph's generation order comes from a
 * library topological sort and is a parameter here, as is the per-item
 * generator.
 */
module GenerateContentBatchImproved {
  import opened Wrappers
  import opened StrUtil
  import opened Items
  import opened Lists
  import CitationText
  import GCB = GenerateContentBatch

  const Separator := ";"
  const NotStarted := "Not Started"
  const FailedStatus := "Failed"
  const CompletedStatus := "Completed"

  // ---------------------------------------------------------------------
  // parse_dependencies
  // ---------------------------------------------------------------------

  /** `parse_dependencies`: nothing for a missing or blank text, otherwise the stripped, non-empty ';'-separated parts. */
  function ParseDependencies(s: Option<string>): (r: seq<string>)
    ensures forall k :: 0 <= k < |r| ==> r[k] != "" && Strip(r[k]) == r[k]
  {
    if s.None? || s.value == "" || Strip(s.value) == "" then []
    else CitationText.NonBlankStripped(Split(s.value, Separator))
  }

  /** A missing or whitespace-only dependency text declares no dependency. */
  lemma BlankDeclaresNothing(s: Option<string>)
    requires s.None? || Blank(s.value)
    ensures ParseDependencies(s) == []
  {
    if s.Some? {
      BlankIffStripsEmpty(s.value);
    }
  }

  /** Each kept entry is the strip of one of the parts. */
  lemma {:induction false} NonBlankStrippedFrom(items: seq<string>, k: int) returns (j: nat)
    requires 0 <= k < |CitationText.NonBlankStripped(items)|
    ensures j < |items| && CitationText.NonBlankStripped(items)[k] == Strip(items[j])
  {
    var init := items[..|items| - 1];
    if k < |CitationText.NonBlankStripped(init)| {
      j := NonBlankStrippedFrom(init, k);
    } else {
      j := |items| - 1;
    }
  }

  /** Parts that are already stripped and non-empty are kept as they are. */
  lemma {:induction false} NonBlankStrippedKeeps(items: seq<string>)
    requires forall k :: 0 <= k < |items| ==> items[k] != "" && Strip(items[k]) == items[k]
    ensures CitationText.NonBlankStripped(items) == items
  {
    if items != [] {
      NonBlankStrippedKeeps(items[..|items| - 1]);
    }
  }

  /** A part of a split never holds the separator. */
  lemma {:induction false} SplitPartsLackSeparator(s: string, k: int)
    requires 0 <= k < |Split(s, Separator)|
    ensures !Contains(Split(s, Separator)[k], Separator)
    decreases |s|
  {
    var i := Find(s, Separator);
    if i >= 0 {
      if k == 0 {
        BeforeFirst(s, Separator);
      } else {
        SplitPartsLackSeparator(s[i + 1..], k - 1);
      }
    }
  }

  /** No entry of a parsed list holds a ';'. */
  lemma EntriesLackSeparator(s: Option<string>, k: int)
    requires 0 <= k < |ParseDependencies(s)|
    ensures !Contains(ParseDependencies(s)[k], Separator)
  {
    var parts := Split(s.value, Separator);
    var j := NonBlankStrippedFrom(parts, k);
    SplitPartsLackSeparator(s.value, j);
    StripContains(parts[j], Separator);
  }

  /** A text without ';' is one dependency, its strip, commas included. */
  lemma SingleDependency(s: string)
    requires !Blank(s) && !Contains(s, Separator)
    ensures ParseDependencies(Some(s)) == [Strip(s)]
  {
    BlankIffStripsEmpty(s);
    assert Split(s, Separator) == [s];
    assert [s][..0] == [];
  }

  /** In `a + ";" + b` with no ';' in `a`, the first ';' is right after `a`. */
  lemma FirstSeparator(a: string, b: string)
    requires !Contains(a, Separator)
    ensures Find(a + Separator + b, Separator) == |a|
  {
    FirstOccurrenceOf(a, Separator, b);
  }

  /** Splitting a ';'-join of parts without ';' gives the parts back. */
  lemma {:induction false} SplitJoin(ds: seq<string>)
    requires ds != []
    requires forall k :: 0 <= k < |ds| ==> !Contains(ds[k], Separator)
    ensures Split(Join(ds, Separator), Separator) == ds
  {
    if |ds| > 1 {
      var tail := ds[1..];
      var rest := Join(tail, Separator);
      JoinCons(ds[0], tail, Separator);
      assert [ds[0]] + tail == ds;
      FirstSeparator(ds[0], rest);
      var s := ds[0] + Separator + rest;
      assert s[..|ds[0]|] == ds[0];
      assert s[|ds[0]| + 1..] == rest;
      SplitJoin(tail);
    } else {
      assert Join(ds, Separator) == ds[0];
    }
  }

  /** The ';'-join of stripped, non-empty entries without ';' parses back to the entries. */
  lemma ParseJoin(ds: seq<string>)
    requires forall k :: 0 <= k < |ds| ==> ds[k] != "" && Strip(ds[k]) == ds[k] && !Contains(ds[k], Separator)
    ensures ParseDependencies(Some(Join(ds, Separator))) == ds
  {
    if ds != [] {
      var j := Join(ds, Separator);
      assert Strip(j) != "" by {
        JoinStartsWithFirst(ds);
        BlankAllSpace(j);
        BlankIffStripsEmpty(j);
      }
      assert Split(j, Separator) == ds by {
        SplitJoin(ds);
      }
      assert CitationText.NonBlankStripped(ds) == ds by {
        NonBlankStrippedKeeps(ds);
      }
      assert ParseDependencies(Some(j)) == ds;
    } else {
      assert Join(ds, Separator) == "";
    }
  }

  /** The join starts with the first entry's first character, which is no whitespace. */
  lemma JoinStartsWithFirst(ds: seq<string>)
    requires ds != [] && ds[0] != "" && Strip(ds[0]) == ds[0]
    ensures Join(ds, Separator) != [] && !IsSpace(Join(ds, Separator)[0])
  {
    var j := Join(ds, Separator);
    assert j[0] == ds[0][0] by {
      if |ds| > 1 {
        JoinCons(ds[0], ds[1..], Separator);
        assert [ds[0]] + ds[1..] == ds;
      }
    }
    assert Strip(ds[0]) == ds[0];
  }

  // ---------------------------------------------------------------------
  // filter_content_items
  // ---------------------------------------------------------------------

  /** Python truthiness of an optional list: present and non-empty. */
  predicate ListTruthy(ids: Option<seq<string>>)
  {
    ids.Some? && ids.value != []
  }

  function HasStatus(status: string): Item -> bool
  {
    (item: Item) => Field(item, "status") == Some(status)
  }

  function IdIn(ids: seq<string>): Item -> bool
  {
    (item: Item) => "content_id" in item && item["content_id"] in ids
  }

  function InSection(section: string): Item -> bool
  {
    (item: Item) => Field(item, "section") == Some(section)
  }

  function ByStatus(items: seq<Item>, status: Option<string>): seq<Item>
  {
    if Truthy(status) then Filter(items, HasStatus(status.value)) else items
  }

  function ByIds(items: seq<Item>, ids: Option<seq<string>>): seq<Item>
  {
    if ListTruthy(ids) then Filter(items, IdIn(ids.value)) else items
  }

  function BySection(items: seq<Item>, section: Option<string>): seq<Item>
  {
    if Truthy(section) then Filter(items, InSection(section.value)) else items
  }

  /** The test a row must pass: every criterion that is given (truthy) holds. */
  predicate Matches(item: Item, status: Option<string>, ids: Option<seq<string>>, section: Option<string>)
  {
    (Truthy(status) ==> Field(item, "status") == status)
    && (ListTruthy(ids) ==> "content_id" in item && item["content_id"] in ids.value)
    && (Truthy(section) ==> Field(item, "section") == section)
  }

  /** `filter_content_items`: status, then ids, then section, each only when given. */
  function FilterContentItems(items: seq<Item>, status: Option<string>, ids: Option<seq<string>>, section: Option<string>): (r: seq<Item>)
    ensures |r| <= |items|
    ensures forall x :: x in r <==> x in items && Matches(x, status, ids, section)
  {
    BySection(ByIds(ByStatus(items, status), ids), section)
  }

  /** The one-pass reading of the filters: the matching rows, in inventory order. */
  function Matching(items: seq<Item>, status: Option<string>, ids: Option<seq<string>>, section: Option<string>): seq<Item>
  {
    if items == [] then []
    else
      var last := items[|items| - 1];
      Matching(items[..|items| - 1], status, ids, section) + if Matches(last, status, ids, section) then [last] else []
  }

  /** The staged filters distribute over concatenation. */
  lemma FilterContentItemsConcat(s: seq<Item>, t: seq<Item>, status: Option<string>, ids: Option<seq<string>>, section: Option<string>)
    ensures FilterContentItems(s + t, status, ids, section)
         == FilterContentItems(s, status, ids, section) + FilterContentItems(t, status, ids, section)
  {
    if Truthy(status) {
      FilterConcat(s, t, HasStatus(status.value));
    }
    var a, b := ByStatus(s, status), ByStatus(t, status);
    if ListTruthy(ids) {
      FilterConcat(a, b, IdIn(ids.value));
    }
    if Truthy(section) {
      FilterConcat(ByIds(a, ids), ByIds(b, ids), InSection(section.value));
    }
  }

  lemma FilterContentItemsSingle(x: Item, status: Option<string>, ids: Option<seq<string>>, section: Option<string>)
    ensures FilterContentItems([x], status, ids, section) == if Matches(x, status, ids, section) then [x] else []
  {
    StagesSingle(x, status, ids, section);
    StagesEmpty(ids, section);
  }

  /** Each stage keeps a one-row list exactly when the row passes that stage's test. */
  lemma StagesSingle(x: Item, status: Option<string>, ids: Option<seq<string>>, section: Option<string>)
    ensures ByStatus([x], status) == if Truthy(status) ==> Field(x, "status") == status then [x] else []
    ensures ByIds([x], ids) == if ListTruthy(ids) ==> "content_id" in x && x["content_id"] in ids.value then [x] else []
    ensures BySection([x], section) == if Truthy(section) ==> Field(x, "section") == section then [x] else []
  {
    if Truthy(status) {
      FilterSingle(x, HasStatus(status.value));
    }
    if ListTruthy(ids) {
      FilterSingle(x, IdIn(ids.value));
    }
    if Truthy(section) {
      FilterSingle(x, InSection(section.value));
    }
  }

  /** The later stages keep an empty list empty. */
  lemma StagesEmpty(ids: Option<seq<string>>, section: Option<string>)
    ensures ByIds([], ids) == [] && BySection([], section) == []
  {
  }

  /** The staged filters are the one-pass conjunctive filter: a sub-list keeping inventory order. */
  lemma {:induction false} FilterIsOnePass(items: seq<Item>, status: Option<string>, ids: Option<seq<string>>, section: Option<string>)
    ensures FilterContentItems(items, status, ids, section) == Matching(items, status, ids, section)
  {
    if items != [] {
      var init, last := items[..|items| - 1], items[|items| - 1];
      assert items == init + [last];
      FilterIsOnePass(init, status, ids, section);
      FilterContentItemsConcat(init, [last], status, ids, section);
      FilterContentItemsSingle(last, status, ids, section);
    }
  }

  // ---------------------------------------------------------------------
  // Status selection and the rows it collects
  // ---------------------------------------------------------------------

  /** `statuses`: "Not Started", with "Failed" when retrying; an explicit status replaces both. */
  function SelectedStatuses(status: Option<string>, retryFailed: bool): (r: seq<string>)
    ensures r != [] && forall k :: 0 <= k < |r| ==> r[k] != ""
    ensures forall s :: s in r <==> if Truthy(status) then s == status.value else s == NotStarted || (retryFailed && s == FailedStatus)
    ensures forall i, j :: 0 <= i < j < |r| ==> r[i] != r[j]
  {
    var statuses := if retryFailed then [NotStarted, FailedStatus] else [NotStarted];
    if Truthy(status) then [status.value] else statuses
  }

  /** `filtered_items` after the loop: for each status in turn, the rows the filters keep for it. */
  function Selected(items: seq<Item>, statuses: seq<string>, ids: Option<seq<string>>, section: Option<string>): (r: seq<Item>)
    ensures forall x :: x in r ==> x in items
  {
    if statuses == [] then []
    else
      var init := statuses[..|statuses| - 1];
      Selected(items, init, ids, section) + FilterContentItems(items, Some(statuses[|statuses| - 1]), ids, section)
  }

  /** A row is collected exactly when its status is one of the (non-empty) statuses and the other criteria hold. */
  lemma {:induction false} SelectedMembers(items: seq<Item>, statuses: seq<string>, ids: Option<seq<string>>, section: Option<string>, x: Item)
    requires forall k :: 0 <= k < |statuses| ==> statuses[k] != ""
    ensures x in Selected(items, statuses, ids, section) <==>
      x in items && "status" in x && x["status"] in statuses && Matches(x, None, ids, section)
  {
    if statuses != [] {
      var init := statuses[..|statuses| - 1];
      SelectedMembers(items, init, ids, section, x);
      assert forall s :: s in statuses <==> s in init || s == statuses[|statuses| - 1];
    }
  }

  /** The loop that extends `filtered_items` once per status. */
  method CollectFiltered(items: seq<Item>, statuses: seq<string>, ids: Option<seq<string>>, section: Option<string>) returns (filtered: seq<Item>)
    ensures filtered == Selected(items, statuses, ids, section)
  {
    filtered := [];
    for i := 0 to |statuses|
      invariant filtered == Selected(items, statuses[..i], ids, section)
    {
      assert statuses[..i + 1][..i] == statuses[..i];
      filtered := filtered + FilterContentItems(items, Some(statuses[i]), ids, section);
    }
    assert statuses[..|statuses|] == statuses;
  }

  /** Rows drawn from an inventory whose rows all have ids have ids. */
  lemma HasIdsSub(sub: seq<Item>, items: seq<Item>)
    requires GCB.HasIds(items) && forall x :: x in sub ==> x in items
    ensures GCB.HasIds(sub)
  {
    forall k | 0 <= k < |sub| ensures "content_id" in sub[k] {
      assert sub[k] in items;
    }
  }

  /** `[item['content_id'] for item in items]`. */
  function IdsOf(items: seq<Item>): (r: seq<string>)
    requires GCB.HasIds(items)
    ensures |r| == |items| && forall k :: 0 <= k < |items| ==> r[k] == items[k]["content_id"]
  {
    seq(|items|, k requires 0 <= k < |items| => items[k]["content_id"])
  }

  // ---------------------------------------------------------------------
  // max_items
  // ---------------------------------------------------------------------

  /**
   * `if max_items and len(order) > max_items: order = order[:max_items]`.
   * A negative `max_items` is truthy and smaller than every length, so the
   * Python slice drops that many ids from the end.
   */
  function Truncated(order: seq<string>, maxItems: Option<int>): (r: seq<string>)
    ensures |r| <= |order| && r == order[..|r|]
    ensures maxItems.None? || maxItems.value == 0 ==> r == order
    ensures maxItems.Some? && maxItems.value > 0 ==> |r| == if |order| <= maxItems.value then |order| else maxItems.value
    ensures maxItems.Some? && maxItems.value < 0 ==> |r| == if |order| + maxItems.value <= 0 then 0 else |order| + maxItems.value
  {
    if maxItems.Some? && maxItems.value != 0 && |order| > maxItems.value then PyTake(order, maxItems.value) else order
  }

  // ---------------------------------------------------------------------
  // The dependency graph: nodes, their data and their predecessors
  // ---------------------------------------------------------------------

  /** The graph's nodes: the ids of the inventory rows. */
  function NodeIds(items: seq<Item>): (r: set<string>)
    requires GCB.HasIds(items)
    ensures forall k :: 0 <= k < |items| ==> items[k]["content_id"] in r
  {
    if items == [] then {}
    else NodeIds(items[..|items| - 1]) + {items[|items| - 1]["content_id"]}
  }

  /** `G.nodes[id]['data']`: the last row with that id, since adding a node again replaces its data. */
  function NodeData(items: seq<Item>, id: string): (r: Option<Item>)
    requires GCB.HasIds(items)
    ensures r.Some? <==> id in NodeIds(items)
    ensures r.Some? ==> r.value in items && r.value["content_id"] == id
  {
    if items == [] then None
    else if items[|items| - 1]["content_id"] == id then Some(items[|items| - 1])
    else NodeData(items[..|items| - 1], id)
  }

  /** A row later in the inventory decides the node's data. */
  lemma {:induction false} LaterRowWins(s: seq<Item>, t: seq<Item>, id: string)
    requires GCB.HasIds(s + t) && GCB.HasIds(t) && id in NodeIds(t)
    ensures NodeData(s + t, id) == NodeData(t, id)
  {
    var init := t[..|t| - 1];
    assert (s + t)[..|s + t| - 1] == s + init;
    if t[|t| - 1]["content_id"] != id {
      assert GCB.HasIds(s + init);
      LaterRowWins(s, init, id);
    }
  }

  /** The in-graph dependencies one row declares: the edges `dep -> id` it adds. */
  function RowEdges(row: Item, nodes: set<string>): seq<string>
  {
    Filter(ParseDependencies(Field(row, "dependencies")), (d: string) => d in nodes)
  }

  /** The edges into `id` that the rows add, in row order. */
  function PredsIn(rows: seq<Item>, nodes: set<string>, id: string): (r: seq<string>)
    requires GCB.HasIds(rows)
    ensures forall p :: p in r ==> p in nodes
  {
    if rows == [] then []
    else
      var last := rows[|rows| - 1];
      PredsIn(rows[..|rows| - 1], nodes, id) + if last["content_id"] == id then RowEdges(last, nodes) else []
  }

  /** `G.predecessors(id)`, with repeats. */
  function Predecessors(items: seq<Item>, id: string): seq<string>
    requires GCB.HasIds(items)
  {
    PredsIn(items, NodeIds(items), id)
  }

  /** A row for `id` that names a node as a dependency makes it a predecessor. */
  lemma {:induction false} EdgeIsPredecessor(rows: seq<Item>, nodes: set<string>, id: string, k: int, p: string)
    requires GCB.HasIds(rows) && 0 <= k < |rows| && rows[k]["content_id"] == id
    requires p in ParseDependencies(Field(rows[k], "dependencies")) && p in nodes
    ensures p in PredsIn(rows, nodes, id)
  {
    var init := rows[..|rows| - 1];
    if k < |rows| - 1 {
      assert init[k] == rows[k];
      EdgeIsPredecessor(init, nodes, id, k, p);
    } else {
      assert p in RowEdges(rows[k], nodes);
    }
  }

  /** Every predecessor comes from a row for `id` that names it. */
  lemma {:induction false} PredecessorHasEdge(rows: seq<Item>, nodes: set<string>, id: string, p: string) returns (k: nat)
    requires GCB.HasIds(rows) && p in PredsIn(rows, nodes, id)
    ensures k < |rows| && rows[k]["content_id"] == id && p in ParseDependencies(Field(rows[k], "dependencies"))
  {
    var init := rows[..|rows| - 1];
    var last := rows[|rows| - 1];
    if p in PredsIn(init, nodes, id) {
      k := PredecessorHasEdge(init, nodes, id, p);
      assert init[k] == rows[k];
    } else {
      k := |rows| - 1;
      assert p in RowEdges(last, nodes);
    }
  }

  /** `pred_data.get('status') == 'Completed'`. */
  predicate IsCompleted(items: seq<Item>, p: string)
    requires GCB.HasIds(items)
  {
    NodeData(items, p).Some? && Field(NodeData(items, p).value, "status") == Some(CompletedStatus)
  }

  /** Every predecessor's data has status "Completed". */
  predicate DependenciesMet(items: seq<Item>, id: string)
    requires GCB.HasIds(items)
  {
    forall k :: 0 <= k < |Predecessors(items, id)| ==> IsCompleted(items, Predecessors(items, id)[k])
  }

  /** The loop over `G.predecessors(content_id)`; it does not stop at the first unmet one. */
  method CheckDependencies(items: seq<Item>, id: string) returns (met: bool)
    requires GCB.HasIds(items)
    ensures met <==> DependenciesMet(items, id)
  {
    var preds := Predecessors(items, id);
    met := true;
    for k := 0 to |preds|
      invariant met <==> forall j :: 0 <= j < k ==> IsCompleted(items, preds[j])
    {
      if !IsCompleted(items, preds[k]) {
        met := false;
      }
    }
  }

  /** A row for `id` naming an inventory item that is not completed blocks `id`. */
  lemma UnfinishedDependencyBlocks(items: seq<Item>, id: string, k: int, p: string)
    requires GCB.HasIds(items) && 0 <= k < |items| && items[k]["content_id"] == id
    requires p in ParseDependencies(Field(items[k], "dependencies")) && p in NodeIds(items)
    requires !IsCompleted(items, p)
    ensures !DependenciesMet(items, id)
  {
    EdgeIsPredecessor(items, NodeIds(items), id, k, p);
    var j :| 0 <= j < |Predecessors(items, id)| && Predecessors(items, id)[j] == p;
  }

  /** When every dependency any row for `id` names is missing or completed, `id` may be generated. */
  lemma CompletedDependenciesAdmit(items: seq<Item>, id: string)
    requires GCB.HasIds(items)
    requires forall k, p ::
      (0 <= k < |items| && items[k]["content_id"] == id && p in ParseDependencies(Field(items[k], "dependencies")) && p in NodeIds(items))
      ==> IsCompleted(items, p)
    ensures DependenciesMet(items, id)
  {
    var preds := Predecessors(items, id);
    forall j | 0 <= j < |preds| ensures IsCompleted(items, preds[j]) {
      var k := PredecessorHasEdge(items, NodeIds(items), id, preds[j]);
    }
  }

  // ---------------------------------------------------------------------
  // generate_content_batch
  // ---------------------------------------------------------------------

  /** The rows a batch selects. */
  function Batch(items: seq<Item>, status: Option<string>, ids: Option<seq<string>>, section: Option<string>, retryFailed: bool): seq<Item>
  {
    Selected(items, SelectedStatuses(status, retryFailed), ids, section)
  }

  /** The ids a batch visits: the oracle's order of the selected ids, cut to `max_items`. */
  function Order(items: seq<Item>, status: Option<string>, ids: Option<seq<string>>, section: Option<string>, retryFailed: bool,
                 maxItems: Option<int>, topo: seq<string> -> seq<string>): seq<string>
    requires GCB.HasIds(items)
  {
    var batch := Batch(items, status, ids, section, retryFailed);
    HasIdsSub(batch, items);
    Truncated(topo(IdsOf(batch)), maxItems)
  }

  /** The ids the generator is called on: those the gate lets through, forced or with every predecessor completed. */
  function Admitted(items: seq<Item>, order: seq<string>, force: bool): (r: seq<string>)
    requires GCB.HasIds(items)
    ensures |r| <= |order|
    ensures forall id :: id in r <==> id in order && (force || DependenciesMet(items, id))
  {
    if order == [] then []
    else
      var id := order[|order| - 1];
      Admitted(items, order[..|order| - 1], force) + if force || DependenciesMet(items, id) then [id] else []
  }

  /** Forcing lets every id of the order through, in order. */
  lemma {:induction false} ForceAdmitsAll(items: seq<Item>, order: seq<string>)
    requires GCB.HasIds(items)
    ensures Admitted(items, order, true) == order
  {
    if order != [] {
      ForceAdmitsAll(items, order[..|order| - 1]);
    }
  }

  /** Without force, an id with a row naming an unfinished inventory item is never handed to the generator. */
  lemma BlockedNotGenerated(items: seq<Item>, order: seq<string>, id: string, k: int, p: string)
    requires GCB.HasIds(items) && 0 <= k < |items| && items[k]["content_id"] == id
    requires p in ParseDependencies(Field(items[k], "dependencies")) && p in NodeIds(items)
    requires !IsCompleted(items, p)
    ensures id !in Admitted(items, order, false)
  {
    UnfinishedDependencyBlocks(items, id, k, p);
  }

  /** The number of calls that return a truthy result. */
  function Successes(ids: seq<string>, generate: string -> bool): (n: nat)
    ensures n <= |ids|
  {
    if ids == [] then 0
    else Successes(ids[..|ids| - 1], generate) + if generate(ids[|ids| - 1]) then 1 else 0
  }

  /** Admitting one more id of the order extends the admitted prefix by that id or by nothing. */
  lemma AdmittedStep(items: seq<Item>, order: seq<string>, i: nat, force: bool)
    requires GCB.HasIds(items) && i < |order|
    ensures Admitted(items, order[..i + 1], force)
         == Admitted(items, order[..i], force) + if force || DependenciesMet(items, order[i]) then [order[i]] else []
  {
    assert order[..i + 1][..i] == order[..i];
  }

  /** Attempting one more id counts one more success exactly when the generator reports one. */
  lemma SuccessesStep(ids: seq<string>, id: string, generate: string -> bool)
    ensures Successes(ids + [id], generate) == Successes(ids, generate) + if generate(id) then 1 else 0
  {
    assert (ids + [id])[..|ids|] == ids;
  }

  /** One turn of the generation loop: the id at `i` is gated, then generated if admitted. */
  method GenerateOne(items: seq<Item>, order: seq<string>, i: nat, force: bool, generate: string -> bool,
                     success: nat, failure: nat, attempted: seq<string>)
    returns (success': nat, failure': nat, attempted': seq<string>)
    requires GCB.HasIds(items) && i < |order|
    requires attempted == Admitted(items, order[..i], force)
    requires success == Successes(attempted, generate)
    requires success + failure == i
    ensures attempted' == Admitted(items, order[..i + 1], force)
    ensures success' == Successes(attempted', generate)
    ensures success' + failure' == i + 1
  {
    var id := order[i];
    AdmittedStep(items, order, i, force);
    var met := true;
    if !force {
      met := CheckDependencies(items, id);
    }
    success', failure', attempted' := success, failure, attempted;
    if !met {
      failure' := failure + 1;
    } else {
      var ok := generate(id);
      SuccessesStep(attempted, id, generate);
      attempted' := attempted + [id];
      if ok {
        success' := success + 1;
      } else {
        failure' := failure + 1;
      }
    }
  }

  /** The generation loop over the order: the gate, then the generator, counting each id once. */
  method GenerateInOrder(items: seq<Item>, order: seq<string>, force: bool, generate: string -> bool)
    returns (success: nat, failure: nat, attempted: seq<string>)
    requires GCB.HasIds(items)
    ensures attempted == Admitted(items, order, force)
    ensures success == Successes(attempted, generate)
    ensures success + failure == |order|
  {
    success, failure, attempted := 0, 0, [];
    for i := 0 to |order|
      invariant attempted == Admitted(items, order[..i], force)
      invariant success == Successes(attempted, generate)
      invariant success + failure == i
    {
      success, failure, attempted := GenerateOne(items, order, i, force, generate, success, failure, attempted);
    }
    assert order[..|order|] == order;
  }

  /**
   * `generate_content_batch`: the success and failure counts and the ids the
   * generator was called on, in order. `topo` stands for the topological sort
   * of the selected ids' subgraph, and `generate` for `generate_content_for_id`
   * (an exception counts as false).
   */
  method GenerateContentBatch(connected: bool, items: seq<Item>, status: Option<string>, ids: Option<seq<string>>,
                              section: Option<string>, maxItems: Option<int>, force: bool, retryFailed: bool,
                              topo: seq<string> -> seq<string>, generate: string -> bool)
    returns (success: nat, failure: nat, attempted: seq<string>)
    requires GCB.HasIds(items)
    ensures (!connected || items == [] || Batch(items, status, ids, section, retryFailed) == []) ==>
      success == 0 && failure == 0 && attempted == []
    ensures connected && items != [] && Batch(items, status, ids, section, retryFailed) != [] ==>
      var order := Order(items, status, ids, section, retryFailed, maxItems, topo);
      && attempted == Admitted(items, order, force)
      && success == Successes(attempted, generate)
      && success + failure == |order|
  {
    if !connected || items == [] {
      return 0, 0, [];
    }
    var statuses := SelectedStatuses(status, retryFailed);
    var filtered := CollectFiltered(items, statuses, ids, section);
    if filtered == [] {
      return 0, 0, [];
    }
    var order := Order(items, status, ids, section, retryFailed, maxItems, topo);
    success, failure, attempted := GenerateInOrder(items, order, force, generate);
  }

  // ---------------------------------------------------------------------
  // reset_content_status
  // ---------------------------------------------------------------------

  /** The rows a reset touches: the id filter, then the section filter. */
  function ResetTargets(items: seq<Item>, ids: Option<seq<string>>, section: Option<string>): (r: seq<Item>)
    requires GCB.HasIds(items)
    ensures GCB.HasIds(r)
  {
    HasIdsSub(FilterContentItems(items, None, ids, section), items);
    FilterContentItems(items, None, ids, section)
  }

  /**
   * `reset_content_status`: the count and the ids set back to "Not Started",
   * in order. Without ids, section or the all flag nothing is reset.
   */
  method ResetContentStatus(connected: bool, items: seq<Item>, ids: Option<seq<string>>, section: Option<string>, allItems: bool)
    returns (count: nat, reset: seq<string>)
    requires GCB.HasIds(items)
    ensures (!connected || items == [] || (!allItems && !ListTruthy(ids) && !Truthy(section))) ==> count == 0 && reset == []
    ensures connected && items != [] && (allItems || ListTruthy(ids) || Truthy(section)) ==>
      reset == IdsOf(ResetTargets(items, ids, section)) && count == |ResetTargets(items, ids, section)|
  {
    if !connected || items == [] {
      return 0, [];
    }
    var filtered := ResetTargets(items, ids, section);
    if !allItems && !ListTruthy(ids) && !Truthy(section) {
      return 0, [];
    }
    count, reset := 0, [];
    for i := 0 to |filtered|
      invariant count == i && reset == IdsOf(filtered[..i])
    {
      reset := reset + [filtered[i]["content_id"]];
      count := count + 1;
    }
    assert filtered[..|filtered|] == filtered;
  }

  /** With the all flag and no other filter every row is reset. */
  lemma ResetAllTouchesEverything(items: seq<Item>)
    requires GCB.HasIds(items)
    ensures ResetTargets(items, None, None) == items
  {
  }
}
