/**
 * Dependency ordering and batch generation (batch/generate_content_batch.py).
 *
 * The graph keeps Python's dictionary order as `keys`, next to the map from
 * each key to its dependency list. The depth-first search is a class whose
 * fields are the `visited` and `temp_visited` sets and the `order` list the
 * nested `visit` function updates; a ghost `stack` records the nodes of
 * `temp_visited` in the order they were entered.
 */
module GenerateContentBatch {
  import opened Wrappers
  import opened StrUtil
  import opened Items

  datatype Graph = Graph(keys: seq<string>, deps: map<string, seq<string>>)

  predicate Distinct<T(==)>(s: seq<T>)
  {
    forall i, j :: 0 <= i < j < |s| ==> s[i] != s[j]
  }

  /** The keys are listed once each, in dictionary order. */
  predicate WellFormed(g: Graph)
  {
    Distinct(g.keys) && (forall k :: k in g.deps ==> k in g.keys) && forall i :: 0 <= i < |g.keys| ==> g.keys[i] in g.deps
  }

  /** `dependencies`: empty or "none" in any case gives none, otherwise the ','-separated parts, stripped. */
  function ParseDependencies(s: Option<string>): (r: seq<string>)
    ensures s.None? || s.value == "" || Lower(s.value) == "none" ==> r == []
    ensures !(s.None? || s.value == "" || Lower(s.value) == "none") ==>
      |r| == |Split(s.value, ",")| && forall i :: 0 <= i < |r| ==> r[i] == Strip(Split(s.value, ",")[i])
  {
    if s.None? || s.value == "" || Lower(s.value) == "none" then []
    else
      var parts := Split(s.value, ",");
      seq(|parts|, i requires 0 <= i < |parts| => Strip(parts[i]))
  }

  predicate HasIds(items: seq<Item>)
  {
    forall i :: 0 <= i < |items| ==> "content_id" in items[i]
  }

  function Ids(items: seq<Item>): set<string>
    requires HasIds(items)
  {
    set i | 0 <= i < |items| :: items[i]["content_id"]
  }

  /** `build_dependency_graph`: one key per item id; a repeated id keeps its place and takes the later list. */
  function BuildGraph(items: seq<Item>): (g: Graph)
    requires HasIds(items)
    ensures WellFormed(g)
    ensures g.deps.Keys == Ids(items)
    ensures items != [] ==>
      g.deps[items[|items| - 1]["content_id"]] == ParseDependencies(Field(items[|items| - 1], "dependencies"))
  {
    if items == [] then Graph([], map[])
    else
      var init := items[..|items| - 1];
      assert HasIds(init);
      var id := items[|items| - 1]["content_id"];
      IdsSnoc(items);
      AddKey(BuildGraph(init), id, ParseDependencies(Field(items[|items| - 1], "dependencies")))
  }

  lemma IdsSnoc(items: seq<Item>)
    requires HasIds(items) && items != []
    ensures HasIds(items[..|items| - 1])
    ensures Ids(items) == Ids(items[..|items| - 1]) + {items[|items| - 1]["content_id"]}
  {
    var init := items[..|items| - 1];
    assert forall i :: 0 <= i < |init| ==> init[i] == items[i];
  }

  /** `graph[id] = deps`: a new key goes last, an existing one keeps its place. */
  function AddKey(g: Graph, id: string, d: seq<string>): (r: Graph)
    requires WellFormed(g)
    ensures WellFormed(r) && r.deps == g.deps[id := d]
    ensures id in g.deps ==> r.keys == g.keys
    ensures id !in g.deps ==> r.keys == g.keys + [id]
  {
    if id in g.deps then Graph(g.keys, g.deps[id := d])
    else Graph(g.keys + [id], g.deps[id := d])
  }

  /** `b` is an in-graph dependency of `a`. */
  predicate Edge(g: Graph, a: string, b: string)
  {
    a in g.deps && b in g.deps && b in g.deps[a]
  }

  ghost predicate IsCycle(g: Graph, p: seq<string>)
  {
    |p| >= 2 && p[0] == p[|p| - 1] && forall i :: 0 <= i < |p| - 1 ==> Edge(g, p[i], p[i + 1])
  }

  ghost predicate HasCycle(g: Graph)
  {
    exists p :: IsCycle(g, p)
  }

  /** Every in-graph dependency of a node comes earlier in `s`. */
  ghost predicate DepsFirst(g: Graph, s: seq<string>)
  {
    forall i, d :: 0 <= i < |s| && Edge(g, s[i], d) ==> d in s[..i]
  }

  /** Every in-graph dependency of a node comes later in `s`. */
  ghost predicate DependentsFirst(g: Graph, s: seq<string>)
  {
    forall i, d :: 0 <= i < |s| && Edge(g, s[i], d) ==> d in s[i + 1..]
  }

  /** Each key exactly once. */
  ghost predicate Permutes(g: Graph, s: seq<string>)
  {
    Distinct(s) && forall v :: v in s <==> v in g.deps
  }

  function IndexOf(s: seq<string>, x: string): (i: nat)
    requires x in s
    ensures i < |s| && s[i] == x && x !in s[..i]
  {
    if s[0] == x then 0 else 1 + IndexOf(s[1..], x)
  }

  lemma IndexOfDistinct(s: seq<string>, i: nat)
    requires Distinct(s) && i < |s|
    ensures IndexOf(s, s[i]) == i
  {
    var j := IndexOf(s, s[i]);
    assert s[j] == s[i];
  }

  /** Along a path, indices in a dependencies-first order strictly decrease. */
  lemma {:induction false} PathDescends(g: Graph, s: seq<string>, p: seq<string>, m: nat)
    requires DepsFirst(g, s) && Permutes(g, s)
    requires |p| >= 2 && forall i :: 0 <= i < |p| - 1 ==> Edge(g, p[i], p[i + 1])
    requires 1 <= m < |p|
    ensures p[0] in s && p[m] in s && IndexOf(s, p[m]) < IndexOf(s, p[0])
  {
    assert Edge(g, p[m - 1], p[m]);
    var a := IndexOf(s, p[m - 1]);
    assert Edge(g, s[a], p[m]);
    var k :| 0 <= k < a && s[..a][k] == p[m];
    IndexOfDistinct(s, k);
    if m > 1 {
      PathDescends(g, s, p, m - 1);
    }
  }

  /** A graph whose keys have a dependencies-first order has no cycle. */
  lemma DepsFirstAcyclic(g: Graph, s: seq<string>)
    requires DepsFirst(g, s) && Permutes(g, s)
    ensures !HasCycle(g)
  {
    if HasCycle(g) {
      var p :| IsCycle(g, p);
      PathDescends(g, s, p, |p| - 1);
    }
  }

  /** Reversing a dependencies-first order puts each node before its dependencies. */
  lemma ReversedDependentsFirst(g: Graph, s: seq<string>)
    requires DepsFirst(g, s)
    ensures DependentsFirst(g, Reversed(s))
  {
    var r := Reversed(s);
    forall i, d | 0 <= i < |r| && Edge(g, r[i], d)
      ensures d in r[i + 1..]
    {
      var j := |s| - 1 - i;
      assert r[i] == s[j];
      var k :| 0 <= k < j && s[..j][k] == d;
      assert r[|s| - 1 - k] == d;
      assert r[i + 1..][|s| - 1 - k - (i + 1)] == d;
    }
  }

  /** `visited` and `order` hold the same keys, each once, dependencies first. */
  ghost predicate Done(g: Graph, visited: set<string>, order: seq<string>)
  {
    (forall v :: v in visited ==> v in g.deps)
    && Distinct(order) && (forall v :: v in order <==> v in visited)
    && DepsFirst(g, order)
  }

  /** `stack` lists the keys of `temp` once each, in the order they were entered, each depending on the one before. */
  ghost predicate Active(g: Graph, temp: set<string>, stack: seq<string>)
  {
    Distinct(stack) && (forall v :: v in stack <==> v in temp)
    && (forall v :: v in temp ==> v in g.deps)
    && (forall i :: 0 <= i < |stack| - 1 ==> Edge(g, stack[i], stack[i + 1]))
  }

  /** The state of the search between steps. */
  ghost predicate SortState(g: Graph, visited: set<string>, temp: set<string>, order: seq<string>, stack: seq<string>)
  {
    visited !! temp && Done(g, visited, order) && Active(g, temp, stack)
  }

  /** Reaching a node that is on the stack closes a cycle. */
  lemma StackCycle(g: Graph, stack: seq<string>, node: string)
    requires forall i :: 0 <= i < |stack| - 1 ==> Edge(g, stack[i], stack[i + 1])
    requires node in stack && Edge(g, stack[|stack| - 1], node)
    ensures HasCycle(g)
  {
    var j :| 0 <= j < |stack| && stack[j] == node;
    var cycle := stack[j..] + [node];
    forall i | 0 <= i < |cycle| - 1
      ensures Edge(g, cycle[i], cycle[i + 1])
    {
      if i < |cycle| - 2 {
        assert cycle[i] == stack[j + i] && cycle[i + 1] == stack[j + i + 1];
      }
    }
    assert IsCycle(g, cycle);
  }

  /** Pushing a fresh dependency of the top node keeps the stack well formed. */
  lemma Push(g: Graph, temp: set<string>, stack: seq<string>, node: string)
    requires Active(g, temp, stack)
    requires node in g.deps && node !in temp
    requires stack != [] ==> Edge(g, stack[|stack| - 1], node)
    ensures Active(g, temp + {node}, stack + [node])
  {
    var s := stack + [node];
    forall i | 0 <= i < |s| - 1
      ensures Edge(g, s[i], s[i + 1])
    {
      if i < |s| - 2 {
        assert s[i] == stack[i] && s[i + 1] == stack[i + 1];
      }
    }
  }

  /** Popping the top node keeps the stack well formed. */
  lemma Pop(g: Graph, temp: set<string>, stack: seq<string>, node: string)
    requires Active(g, temp + {node}, stack + [node]) && node !in temp
    ensures Active(g, temp, stack)
  {
    var s := stack + [node];
    forall i | 0 <= i < |stack| - 1
      ensures Edge(g, stack[i], stack[i + 1])
    {
      assert s[i] == stack[i] && s[i + 1] == stack[i + 1];
    }
    forall v | v in stack
      ensures v in temp
    {
      var k :| 0 <= k < |stack| && stack[k] == v;
      assert s[k] == v && s[|stack|] == node;
    }
    assert Distinct(stack) by {
      forall i, j | 0 <= i < j < |stack|
        ensures stack[i] != stack[j]
      {
        assert s[i] == stack[i] && s[j] == stack[j];
      }
    }
  }

  /** Appending a key whose dependencies are all visited keeps the order dependencies first. */
  lemma Append(g: Graph, visited: set<string>, order: seq<string>, node: string)
    requires Done(g, visited, order) && node in g.deps && node !in visited
    requires forall k :: 0 <= k < |g.deps[node]| && g.deps[node][k] in g.deps ==> g.deps[node][k] in visited
    ensures Done(g, visited + {node}, order + [node])
  {
    var o := order + [node];
    forall i, d | 0 <= i < |o| && Edge(g, o[i], d)
      ensures d in o[..i]
    {
      if i < |order| {
        assert o[..i] == order[..i];
      } else {
        assert o[..i] == order;
        var k :| 0 <= k < |g.deps[node]| && g.deps[node][k] == d;
      }
    }
    assert node !in order;
    assert Distinct(o) by {
      forall i, j | 0 <= i < j < |o|
        ensures o[i] != o[j]
      {
        if j == |order| {
          assert o[i] == order[i];
        }
      }
    }
  }

  /** The state of one `topological_sort` call. */
  class Sorter {
    const g: Graph
    var visited: set<string>
    var tempVisited: set<string>
    var order: seq<string>
    ghost var stack: seq<string>

    ghost predicate Inv()
      reads this
    {
      SortState(g, visited, tempVisited, order, stack)
    }

    constructor (g: Graph)
      requires WellFormed(g)
      ensures this.g == g && visited == {} && tempVisited == {} && order == [] && stack == []
      ensures Inv()
    {
      this.g := g;
      visited, tempVisited, order := {}, {}, [];
      stack := [];
    }

    /** `visit(node)`: false on reaching a node still being visited. */
    method Visit(node: string) returns (ok: bool)
      requires Inv() && node in g.deps
      requires stack != [] ==> Edge(g, stack[|stack| - 1], node)
      modifies this
      ensures ok ==> Inv() && node in visited
      ensures ok ==> stack == old(stack) && tempVisited == old(tempVisited)
      ensures ok ==> old(visited) <= visited && old(order) <= order
      ensures !ok ==> HasCycle(g)
      decreases |g.deps.Keys - tempVisited|, 0
    {
      if node in tempVisited {
        StackCycle(g, stack, node);
        return false;
      }
      if node in visited {
        return true;
      }
      ghost var before := tempVisited;
      ghost var oldStack := stack;
      Start(node);
      ok := VisitDependencies(node);
      if ok {
        Finish(node, before, oldStack);
      }
    }

    /** The node enters `temp_visited`. */
    method Start(node: string)
      requires Inv() && node in g.deps && node !in tempVisited && node !in visited
      requires stack != [] ==> Edge(g, stack[|stack| - 1], node)
      modifies this
      ensures Inv() && tempVisited == old(tempVisited) + {node} && stack == old(stack) + [node]
      ensures visited == old(visited) && order == old(order)
      ensures |g.deps.Keys - tempVisited| < |g.deps.Keys - old(tempVisited)|
    {
      Push(g, tempVisited, stack, node);
      assert g.deps.Keys - tempVisited == (g.deps.Keys - (tempVisited + {node})) + {node};
      tempVisited := tempVisited + {node};
      stack := stack + [node];
    }

    /** The end of `visit`: the node leaves `temp_visited` and joins `visited` and `order`. */
    method Finish(node: string, ghost before: set<string>, ghost oldStack: seq<string>)
      requires Inv() && node in g.deps && node !in before && node !in visited
      requires tempVisited == before + {node} && stack == oldStack + [node]
      requires forall k :: 0 <= k < |g.deps[node]| && g.deps[node][k] in g.deps ==> g.deps[node][k] in visited
      modifies this
      ensures Inv() && tempVisited == before && stack == oldStack
      ensures visited == old(visited) + {node} && order == old(order) + [node]
    {
      Pop(g, before, oldStack, node);
      Append(g, visited, order, node);
      tempVisited := tempVisited - {node};
      stack := oldStack;
      visited := visited + {node};
      order := order + [node];
    }

    /** The loop of `visit` over the node's dependencies, skipping those not in the graph. */
    method VisitDependencies(node: string) returns (ok: bool)
      requires Inv() && node in g.deps && stack != [] && stack[|stack| - 1] == node
      modifies this
      ensures ok ==> Inv() && stack == old(stack) && tempVisited == old(tempVisited)
      ensures ok ==> old(visited) <= visited && old(order) <= order
      ensures ok ==> forall k :: 0 <= k < |g.deps[node]| && g.deps[node][k] in g.deps ==> g.deps[node][k] in visited
      ensures !ok ==> HasCycle(g)
      decreases |g.deps.Keys - tempVisited|, 1
    {
      var ds := g.deps[node];
      var i := 0;
      while i < |ds|
        invariant 0 <= i <= |ds|
        invariant Inv()
        invariant tempVisited == old(tempVisited) && stack == old(stack)
        invariant old(visited) <= visited && old(order) <= order
        invariant forall k :: 0 <= k < i && ds[k] in g.deps ==> ds[k] in visited
      {
        var d := ds[i];
        if d in g.deps {
          ok := Visit(d);
          if !ok {
            return false;
          }
        }
        i := i + 1;
      }
      return true;
    }
  }

  /** The post-order the search appends to, when there is no cycle: dependencies first, each key once. */
  method DependencyOrder(g: Graph) returns (r: Option<seq<string>>)
    requires WellFormed(g)
    ensures r.None? <==> HasCycle(g)
    ensures r.Some? ==> Permutes(g, r.value) && DepsFirst(g, r.value)
  {
    var sorter := new Sorter(g);
    var i := 0;
    while i < |g.keys|
      invariant 0 <= i <= |g.keys|
      invariant sorter.Inv() && sorter.g == g && sorter.tempVisited == {} && sorter.stack == []
      invariant forall k :: 0 <= k < i ==> g.keys[k] in sorter.visited
      modifies sorter
    {
      if g.keys[i] !in sorter.visited {
        var ok := sorter.Visit(g.keys[i]);
        if !ok {
          return None;
        }
      }
      i := i + 1;
    }
    assert forall v :: v in sorter.order <==> v in g.deps by {
      forall v | v in g.deps
        ensures v in sorter.visited
      {
        var k :| 0 <= k < |g.keys| && g.keys[k] == v;
      }
    }
    DepsFirstAcyclic(g, sorter.order);
    r := Some(sorter.order);
  }

  /**
   * `topological_sort` as written: the post-order reversed, which lists
   * each item before the items it depends on.
   */
  method TopologicalSort(g: Graph) returns (r: Option<seq<string>>)
    requires WellFormed(g)
    ensures r.None? <==> HasCycle(g)
    ensures r.Some? ==> Permutes(g, r.value) && DependentsFirst(g, r.value)
  {
    var post := DependencyOrder(g);
    if post.None? {
      return None;
    }
    ReversedDependentsFirst(g, post.value);
    ReversedPermutes(g, post.value);
    r := Some(Reversed(post.value));
  }

  lemma ReversedPermutes(g: Graph, s: seq<string>)
    requires Permutes(g, s)
    ensures Permutes(g, Reversed(s))
  {
    var r := Reversed(s);
    forall v | v in s
      ensures v in r
    {
      var k :| 0 <= k < |s| && s[k] == v;
      assert r[|s| - 1 - k] == v;
    }
  }

  /** `a` depends on `b`. */
  const TwoItems := Graph(["a", "b"], map["a" := ["b"], "b" := []])

  /** Every element of a list of the keys of `TwoItems` is "a" or "b". */
  lemma TwoItemsElement(r: seq<string>, k: nat)
    ensures Permutes(TwoItems, r) && k < |r| ==> r[k] == "a" || r[k] == "b"
  {
    if Permutes(TwoItems, r) && k < |r| {
      assert r[k] in r;
    }
  }

  /** A list of distinct keys of `TwoItems` has at most two elements. */
  lemma TwoItemsAtMostTwo(r: seq<string>)
    requires Permutes(TwoItems, r)
    ensures |r| == 2 && (r == ["a", "b"] || r == ["b", "a"])
  {
    assert "a" in r && "b" in r;
    assert r[0] in r;
    if |r| >= 3 {
      TwoItemsElement(r, 0);
      TwoItemsElement(r, 1);
      TwoItemsElement(r, 2);
      assert false;
    }
    assert r[1] in r;
  }

  /** On `TwoItems` the only order the as-written sort can return is [a, b]: the dependent first. */
  lemma TwoItemsDependentFirst(r: seq<string>)
    requires Permutes(TwoItems, r) && DependentsFirst(TwoItems, r)
    ensures r == ["a", "b"]
  {
    TwoItemsAtMostTwo(r);
    if r == ["b", "a"] {
      assert Edge(TwoItems, r[1], "b");
    }
  }

  /** On `TwoItems` the corrected order is [b, a]: the dependency first. */
  lemma TwoItemsDependencyFirst(r: seq<string>)
    requires Permutes(TwoItems, r) && DepsFirst(TwoItems, r)
    ensures r == ["b", "a"]
  {
    TwoItemsAtMostTwo(r);
    if r == ["a", "b"] {
      assert Edge(TwoItems, r[0], "b");
    }
  }

  /**
   * A content row: it has its `content_id`, the table's key, which is never
   * NULL. The batch reads no other cell with `[]` except to log it, and a
   * NULL `status` is a missing one.
   */
  predicate Row(item: Item)
  {
    "content_id" in item
  }

  predicate AllRows(items: seq<Item>)
  {
    forall i :: 0 <= i < |items| ==> Row(items[i])
  }

  /** `[id.strip() for id in content_id.split(',')]`. */
  function RequestedIds(contentId: string): (r: seq<string>)
    ensures |r| == |Split(contentId, ",")|
    ensures forall i :: 0 <= i < |r| ==> r[i] == Strip(Split(contentId, ",")[i])
  {
    var parts := Split(contentId, ",");
    seq(|parts|, i requires 0 <= i < |parts| => Strip(parts[i]))
  }

  /** The rows found for the requested ids, in request order; ids not found are skipped. */
  function Fetched(ids: seq<string>, fetch: string -> Option<Item>): (r: seq<Item>)
    ensures |r| <= |ids|
  {
    if ids == [] then []
    else
      var init := Fetched(ids[..|ids| - 1], fetch);
      match fetch(ids[|ids| - 1])
      case Some(item) => init + [item]
      case None => init
  }

  /** Rows returned by `fetch` are content rows. */
  lemma {:induction false} FetchedRows(ids: seq<string>, fetch: string -> Option<Item>)
    requires forall id :: fetch(id).Some? ==> Row(fetch(id).value)
    ensures AllRows(Fetched(ids, fetch))
  {
    if ids != [] {
      FetchedRows(ids[..|ids| - 1], fetch);
    }
  }

  /** A row found for an id is fetched, and every fetched row was found for some id. */
  lemma {:induction false} FetchedExactly(ids: seq<string>, fetch: string -> Option<Item>)
    ensures forall i :: 0 <= i < |ids| && fetch(ids[i]).Some? ==> fetch(ids[i]).value in Fetched(ids, fetch)
    ensures forall it :: it in Fetched(ids, fetch) ==> exists i :: 0 <= i < |ids| && fetch(ids[i]) == Some(it)
  {
    if ids != [] {
      var init := ids[..|ids| - 1];
      FetchedExactly(init, fetch);
      assert forall i :: 0 <= i < |init| ==> init[i] == ids[i];
    }
  }

  /** `{item['content_id']: item for item in content_items}`: the last row with an id wins. */
  function ContentMap(items: seq<Item>): (m: map<string, Item>)
    requires HasIds(items)
    ensures m.Keys == Ids(items)
    ensures forall id :: id in m ==> m[id] in items && "content_id" in m[id] && m[id]["content_id"] == id
    ensures items != [] ==> m[items[|items| - 1]["content_id"]] == items[|items| - 1]
  {
    if items == [] then map[]
    else
      IdsSnoc(items);
      ContentMap(items[..|items| - 1])[items[|items| - 1]["content_id"] := items[|items| - 1]]
  }

  /** `[x for x in ids if x in m]`. */
  function KeepKnown(ids: seq<string>, m: map<string, Item>): (r: seq<string>)
    ensures forall x :: x in r <==> x in ids && x in m
  {
    if ids == [] then []
    else if ids[0] in m then [ids[0]] + KeepKnown(ids[1..], m)
    else KeepKnown(ids[1..], m)
  }

  /** Every key of the graph is a key of the map, so the filter keeps the whole order. */
  lemma {:induction false} KeepKnownAll(ids: seq<string>, m: map<string, Item>)
    requires forall k :: 0 <= k < |ids| ==> ids[k] in m
    ensures KeepKnown(ids, m) == ids
  {
    if ids != [] {
      assert forall k :: 0 <= k < |ids| - 1 ==> ids[1..][k] == ids[k + 1];
      KeepKnownAll(ids[1..], m);
    }
  }

  /** Two duplicate-free lists of the same keys have the same length. */
  lemma PermutationLength(g: Graph, s: seq<string>)
    requires WellFormed(g) && Permutes(g, s)
    ensures |s| == |g.keys|
  {
    DistinctCard(s);
    DistinctCard(g.keys);
    assert (set x | x in s) == (set x | x in g.keys);
  }

  lemma {:induction false} DistinctCard(s: seq<string>)
    requires Distinct(s)
    ensures |set x | x in s| == |s|
  {
    if s != [] {
      var init := s[..|s| - 1];
      assert Distinct(init);
      DistinctCard(init);
      assert (set x | x in s) == (set x | x in init) + {s[|s| - 1]};
      assert s[|s| - 1] !in init;
    }
  }

  /** A prefix of a dependencies-first order is dependencies first. */
  lemma DepsFirstPrefix(g: Graph, s: seq<string>, n: nat)
    requires DepsFirst(g, s) && n <= |s|
    ensures DepsFirst(g, s[..n])
  {
    forall i, d | 0 <= i < n && Edge(g, s[..n][i], d)
      ensures d in s[..n][..i]
    {
      assert s[..n][..i] == s[..i];
    }
  }

  lemma DistinctPrefix(s: seq<string>, n: nat)
    requires Distinct(s) && n <= |s|
    ensures Distinct(s[..n])
  {
  }

  /** `max_items and len(ids) > max_items`. */
  predicate Limited(maxItems: Option<int>, n: nat)
  {
    maxItems.Some? && maxItems.value != 0 && n > maxItems.value
  }

  /** The rows the loop skips: completed ones, unless forced. */
  predicate Skips(item: Item, force: bool)
  {
    Field(item, "status") == Some("Completed") && !force
  }

  predicate MapRows(m: map<string, Item>)
  {
    forall id :: id in m ==> Row(m[id])
  }

  /** Every id of the list is a key of the map. */
  predicate AllIn(ids: seq<string>, m: map<string, Item>)
  {
    forall k :: 0 <= k < |ids| ==> ids[k] in m
  }

  /** The number of ids the loop skips. */
  function CountSkipped(ids: seq<string>, m: map<string, Item>, force: bool): (n: nat)
    requires MapRows(m) && AllIn(ids, m)
    ensures n <= |ids|
    ensures force ==> n == 0
  {
    if ids == [] then 0
    else
      var init := ids[..|ids| - 1];
      CountSkipped(init, m, force) + if Skips(m[ids[|ids| - 1]], force) then 1 else 0
  }

  /** The number of ids the loop generates successfully. */
  function CountSucceeded(ids: seq<string>, m: map<string, Item>, force: bool, generate: string -> bool): (n: nat)
    requires MapRows(m) && AllIn(ids, m)
    ensures n + CountSkipped(ids, m, force) <= |ids|
  {
    if ids == [] then 0
    else
      var init := ids[..|ids| - 1];
      var x := ids[|ids| - 1];
      CountSucceeded(init, m, force, generate) + if !Skips(m[x], force) && generate(x) then 1 else 0
  }

  /** `reset_content_status`: the ids whose status is set back to "Not Started". */
  method ResetContentStatus(connected: bool, contentIds: Option<seq<string>>, inventory: seq<Item>) returns (ok: bool, reset: seq<string>)
    requires AllRows(inventory)
    ensures ok == connected
    ensures !ok ==> reset == []
    ensures ok && contentIds.Some? && contentIds.value != [] ==> reset == contentIds.value
    ensures ok && (contentIds.None? || contentIds.value == []) ==>
      |reset| == |inventory| && forall i :: 0 <= i < |inventory| ==> reset[i] == inventory[i]["content_id"]
  {
    if !connected {
      return false, [];
    }
    if contentIds.Some? && contentIds.value != [] {
      return true, contentIds.value;
    }
    reset := [];
    var i := 0;
    while i < |inventory|
      invariant 0 <= i <= |inventory|
      invariant |reset| == i && forall k :: 0 <= k < i ==> reset[k] == inventory[k]["content_id"]
    {
      reset := reset + [inventory[i]["content_id"]];
      i := i + 1;
    }
    ok := true;
  }

  /** The rows a batch works on: the requested ids when given, otherwise the inventory query's rows. */
  method ContentItems(contentId: Option<string>, fetch: string -> Option<Item>, inventory: seq<Item>) returns (items: seq<Item>)
    ensures items == if contentId.Some? && contentId.value != "" then Fetched(RequestedIds(contentId.value), fetch) else inventory
  {
    if contentId.Some? && contentId.value != "" {
      items := FetchAll(RequestedIds(contentId.value), fetch);
    } else {
      items := inventory;
    }
  }

  /** Fetches the ids one by one, keeping the rows found. */
  method FetchAll(ids: seq<string>, fetch: string -> Option<Item>) returns (items: seq<Item>)
    ensures items == Fetched(ids, fetch)
  {
    items := [];
    var i := 0;
    while i < |ids|
      invariant 0 <= i <= |ids|
      invariant items == Fetched(ids[..i], fetch)
    {
      assert ids[..i + 1][..i] == ids[..i] && ids[..i + 1][i] == ids[i];
      var item := fetch(ids[i]);
      if item.Some? {
        items := items + [item.value];
      }
      i := i + 1;
    }
    assert ids[..i] == ids;
  }

  /** No node of `s` is preceded, or matched, by one of its in-graph dependencies. */
  ghost predicate BeforeItsDependencies(g: Graph, s: seq<string>)
  {
    forall i, d :: 0 <= i < |s| && Edge(g, s[i], d) ==> d !in s[..i + 1]
  }

  /**
   * The ids of a batch in generation order, as written: `topological_sort`'s
   * order (each item before its dependencies), filtered to the known ids and
   * cut to `max_items` when that is set and exceeded; None on a cycle.
   */
  method Schedule(items: seq<Item>, maxItems: Option<int>) returns (ids: Option<seq<string>>)
    requires AllRows(items)
    ensures ids.None? <==> HasCycle(BuildGraph(items))
    ensures ids.Some? ==>
      && Distinct(ids.value) && BeforeItsDependencies(BuildGraph(items), ids.value)
      && AllIn(ids.value, ContentMap(items))
      && (!Limited(maxItems, |BuildGraph(items).keys|) ==>
            DependentsFirst(BuildGraph(items), ids.value) && forall id :: id in ContentMap(items) ==> id in ids.value)
    ensures ids.Some? ==> exists full :: Cut(BuildGraph(items), full, maxItems, ids.value) && DependentsFirst(BuildGraph(items), full)
  {
    assert HasIds(items);
    var g := BuildGraph(items);
    var sorted := TopologicalSort(g);
    if sorted.None? {
      return None;
    }
    var cmap := ContentMap(items);
    KeepKnownAll(sorted.value, cmap);
    var r := KeepKnown(sorted.value, cmap);
    PermutationLength(g, sorted.value);
    if Limited(maxItems, |r|) {
      r := PyTake(r, maxItems.value);
    }
    SchedulePrefix(g, sorted.value, |r|, cmap);
    assert Cut(g, sorted.value, maxItems, r);
    ids := Some(r);
  }

  /**
   * `sorted_ids[:max_items]` when `max_items` is set and exceeded, otherwise
   * the whole of `full`, a complete order of the graph's ids.
   */
  ghost predicate Cut(g: Graph, full: seq<string>, maxItems: Option<int>, ids: seq<string>)
  {
    Permutes(g, full) && ids == (if Limited(maxItems, |full|) then PyTake(full, maxItems.value) else full)
  }

  /**
   * The corrected schedule: the post-order itself, so that every item is
   * generated after the dependencies the workflow's dependency check waits for.
   */
  method IntendedSchedule(items: seq<Item>, maxItems: Option<int>) returns (ids: Option<seq<string>>)
    requires AllRows(items)
    ensures ids.None? <==> HasCycle(BuildGraph(items))
    ensures ids.Some? ==>
      && Distinct(ids.value) && DepsFirst(BuildGraph(items), ids.value)
      && AllIn(ids.value, ContentMap(items))
      && (!Limited(maxItems, |BuildGraph(items).keys|) ==> forall id :: id in ContentMap(items) ==> id in ids.value)
    ensures ids.Some? ==> exists full :: Cut(BuildGraph(items), full, maxItems, ids.value) && DepsFirst(BuildGraph(items), full)
  {
    assert HasIds(items);
    var g := BuildGraph(items);
    var sorted := DependencyOrder(g);
    if sorted.None? {
      return None;
    }
    var cmap := ContentMap(items);
    KeepKnownAll(sorted.value, cmap);
    var r := KeepKnown(sorted.value, cmap);
    PermutationLength(g, sorted.value);
    if Limited(maxItems, |r|) {
      r := PyTake(r, maxItems.value);
    }
    SchedulePrefix(g, sorted.value, |r|, cmap);
    DepsFirstPrefix(g, sorted.value, |r|);
    assert Cut(g, sorted.value, maxItems, r);
    ids := Some(r);
  }

  /** What a prefix of a sorted order keeps of it, with the rows' map alongside. */
  lemma SchedulePrefix(g: Graph, s: seq<string>, n: nat, m: map<string, Item>)
    requires Permutes(g, s) && n <= |s| && m.Keys == g.deps.Keys
    ensures Distinct(s[..n]) && AllIn(s[..n], m)
    ensures DependentsFirst(g, s) ==> BeforeItsDependencies(g, s[..n])
    ensures n == |s| ==> s[..n] == s && forall id :: id in m ==> id in s[..n]
  {
    assert forall k :: 0 <= k < n ==> s[..n][k] == s[k];
    if DependentsFirst(g, s) {
      DependentsFirstPrefix(g, s, n);
    }
    if n == |s| {
      assert s[..n] == s;
    }
  }

  /** Truncating an order that puts each node before its dependencies keeps no dependency in front of its node. */
  lemma DependentsFirstPrefix(g: Graph, s: seq<string>, n: nat)
    requires Distinct(s) && DependentsFirst(g, s) && n <= |s|
    ensures BeforeItsDependencies(g, s[..n])
  {
    forall i, d | 0 <= i < n && Edge(g, s[..n][i], d)
      ensures d !in s[..n][..i + 1]
    {
      assert s[..n][i] == s[i];
      var j :| 0 <= j < |s| - (i + 1) && s[i + 1..][j] == d;
      assert s[i + 1 + j] == d;
      var front := s[..n][..i + 1];
      forall k | 0 <= k < |front|
        ensures front[k] != d
      {
        assert front[k] == s[k];
      }
    }
  }

  /** The generation loop: completed rows are skipped unless forced, the rest generated one by one. */
  method RunBatch(ids: seq<string>, cmap: map<string, Item>, force: bool, generate: string -> bool)
    returns (successful: nat, failed: nat, skipped: nat)
    requires MapRows(cmap) && AllIn(ids, cmap)
    ensures skipped == CountSkipped(ids, cmap, force)
    ensures successful == CountSucceeded(ids, cmap, force, generate)
    ensures successful + failed + skipped == |ids|
  {
    successful, failed, skipped := 0, 0, 0;
    var i := 0;
    while i < |ids|
      invariant 0 <= i <= |ids|
      invariant AllIn(ids[..i], cmap)
      invariant skipped == CountSkipped(ids[..i], cmap, force)
      invariant successful == CountSucceeded(ids[..i], cmap, force, generate)
      invariant successful + failed + skipped == i
    {
      assert ids[..i + 1][..i] == ids[..i];
      var id := ids[i];
      var item := cmap[id];
      if Skips(item, force) {
        skipped := skipped + 1;
      } else {
        var success := generate(id);
        if success {
          successful := successful + 1;
        } else {
          failed := failed + 1;
        }
      }
      i := i + 1;
    }
    assert ids[..i] == ids;
  }

  /** The part of `generate_content_batch` after the rows are known. */
  method GenerateForItems(items: seq<Item>, force: bool, maxItems: Option<int>, generate: string -> bool)
    returns (ok: bool, processed: seq<string>, successful: nat, failed: nat, skipped: nat)
    requires AllRows(items)
    ensures items == [] ==> !ok && processed == []
    ensures items != [] && HasCycle(BuildGraph(items)) ==> !ok && processed == []
    ensures items != [] && !HasCycle(BuildGraph(items)) ==>
      && Distinct(processed) && BeforeItsDependencies(BuildGraph(items), processed)
      && AllIn(processed, ContentMap(items))
      && (!Limited(maxItems, |BuildGraph(items).keys|) ==>
            DependentsFirst(BuildGraph(items), processed) && forall id :: id in ContentMap(items) ==> id in processed)
      && skipped == CountSkipped(processed, ContentMap(items), force)
      && successful == CountSucceeded(processed, ContentMap(items), force, generate)
      && successful + failed + skipped == |processed|
      && ok == (failed == 0)
    ensures items != [] && !HasCycle(BuildGraph(items)) ==>
      exists full :: Cut(BuildGraph(items), full, maxItems, processed) && DependentsFirst(BuildGraph(items), full)
  {
    processed, successful, failed, skipped := [], 0, 0, 0;
    if items == [] {
      return false, processed, successful, failed, skipped;
    }
    var ids := Schedule(items, maxItems);
    if ids.None? {
      return false, processed, successful, failed, skipped;
    }
    processed := ids.value;
    successful, failed, skipped := RunBatch(processed, ContentMap(items), force, generate);
    ok := failed == 0;
  }

  /** The batch gets past the connection check and, when asked, the status reset. */
  predicate Proceeds(connected: bool, resetAll: bool, connectedAtReset: bool)
  {
    connected && (!resetAll || connectedAtReset)
  }

  /**
   * `generate_content_batch`, generating in `topological_sort` order. Generation
   * of one item is the `generate` oracle; `allRows` is the unfiltered
   * inventory the reset reads, `inventory` the result of the section and
   * status query.
   */
  method GenerateContentBatch(connected: bool, resetAll: bool, connectedAtReset: bool, contentId: Option<string>,
                              fetch: string -> Option<Item>, allRows: seq<Item>, inventory: seq<Item>,
                              force: bool, maxItems: Option<int>, generate: string -> bool)
    returns (ok: bool, items: seq<Item>, processed: seq<string>, successful: nat, failed: nat, skipped: nat)
    requires AllRows(allRows) && AllRows(inventory) && forall id :: fetch(id).Some? ==> Row(fetch(id).value)
    ensures !connected || (resetAll && !connectedAtReset) ==> !ok && processed == []
    ensures Proceeds(connected, resetAll, connectedAtReset) ==> items == if contentId.Some? && contentId.value != "" then Fetched(RequestedIds(contentId.value), fetch) else inventory
    ensures AllRows(items)
    ensures Proceeds(connected, resetAll, connectedAtReset) && items == [] ==> !ok && processed == []
    ensures Proceeds(connected, resetAll, connectedAtReset) && items != [] && HasCycle(BuildGraph(items)) ==> !ok && processed == []
    ensures Proceeds(connected, resetAll, connectedAtReset) && items != [] && !HasCycle(BuildGraph(items)) ==>
      && Distinct(processed) && BeforeItsDependencies(BuildGraph(items), processed)
      && AllIn(processed, ContentMap(items))
      && (!Limited(maxItems, |BuildGraph(items).keys|) ==>
            DependentsFirst(BuildGraph(items), processed) && forall id :: id in ContentMap(items) ==> id in processed)
      && skipped == CountSkipped(processed, ContentMap(items), force)
      && successful == CountSucceeded(processed, ContentMap(items), force, generate)
      && successful + failed + skipped == |processed|
      && ok == (failed == 0)
    ensures Proceeds(connected, resetAll, connectedAtReset) && items != [] && !HasCycle(BuildGraph(items)) ==>
      exists full :: Cut(BuildGraph(items), full, maxItems, processed) && DependentsFirst(BuildGraph(items), full)
  {
    items := [];
    if !connected {
      return false, items, [], 0, 0, 0;
    }
    if resetAll {
      var resetOk, _ := ResetContentStatus(connectedAtReset, None, allRows);
      if !resetOk {
        return false, items, [], 0, 0, 0;
      }
    }
    items := ContentItems(contentId, fetch, inventory);
    if contentId.Some? && contentId.value != "" {
      FetchedRows(RequestedIds(contentId.value), fetch);
    }
    ok, processed, successful, failed, skipped := GenerateForItems(items, force, maxItems, generate);
  }
}
