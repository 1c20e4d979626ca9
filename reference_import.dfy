/**
 * The import loop of `reference_management/reference_importer.py` and
 * `reference_management/reference_importer_improved.py`: for every stored
 * generation output, cut its text into citations, extract a title from each,
 * and create and link a reference for every title not seen before.
 *
 * The database is an oracle: `Db` answers, by output position and item
 * position, what `get_full_content`, `create_reference` and
 * `link_reference_to_content` return. The links made during the run are kept,
 * so that `get_content_references` sees them.
 */
module ReferenceImport {
  import opened Wrappers
  import opened StrUtil
  import opened Items

  datatype Link = Link(contentId: string, referenceId: string, citationKey: string)

  /** The answers of the database during one run. */
  datatype Db = Db(
    fullContent: nat -> Option<string>,  // get_full_content(outputs[o]['id'])
    create: (nat, nat) -> Option<string>, // create_reference for item i of output o
    link: (nat, nat) -> bool)             // whether link_reference_to_content returned an id

  /** The two importers differ in how they cut and read citations and in the repeat check. */
  datatype Importer = Importer(extract: string -> seq<string>, titleOf: string -> string, skipRepeats: bool)

  /** What the loop has built: `existing_titles`, `imported_count` and the links created. */
  datatype State = State(titles: seq<string>, imported: nat, links: seq<Link>)

  /** `f"REF{i+1}"`. */
  function CitationKey(i: nat): (k: string)
    ensures StartsWith(k, "REF")
  {
    "REF" + NatToString(i + 1)
  }

  /** Items at different positions get different keys. */
  lemma CitationKeysDistinct(i: nat, j: nat)
    requires i != j
    ensures CitationKey(i) != CitationKey(j)
  {
    NatToStringInjective(i + 1, j + 1);
    assert CitationKey(i)[3..] == NatToString(i + 1);
    assert CitationKey(j)[3..] == NatToString(j + 1);
  }

  /** The item position a citation key was made from, or -1. */
  function KeyPosition(key: string): int
  {
    if |key| > 3 && key[..3] == "REF" && AllDigits(key[3..]) then DigitsValue(key[3..]) - 1 else -1
  }

  /** Reading the position back from a key gives the position. */
  lemma KeyPositionOf(i: nat)
    ensures KeyPosition(CitationKey(i)) == i
  {
    var k := CitationKey(i);
    assert k[3..] == NatToString(i + 1);
    DigitsValueOfNatToString(i + 1);
  }

  /** `any(items[i].strip() == item.strip() for item in items[:i])`. */
  predicate RepeatsEarlier(items: seq<string>, i: nat)
    requires i < |items|
  {
    exists j :: 0 <= j < i && Strip(items[j]) == Strip(items[i])
  }

  /** `get_content_references(content_id)` is non-empty. */
  predicate HasReferences(contentId: string, linkedBefore: set<string>, links: seq<Link>)
  {
    contentId in linkedBefore || exists l :: l in links && l.contentId == contentId
  }

  /** One pass of the item loop, for item `i` of output `o` whose content is `c`. */
  function ItemStep(st: State, o: nat, c: string, items: seq<string>, i: nat, imp: Importer, db: Db): State
    requires i < |items|
  {
    if imp.skipRepeats && RepeatsEarlier(items, i) then st
    else
      var title := Lower(imp.titleOf(items[i]));
      if title in st.titles then st
      else
        match db.create(o, i)
        case None => st
        case Some(id) =>
          if db.link(o, i) then State(st.titles + [title], st.imported + 1, st.links + [Link(c, id, CitationKey(i))])
          else st
  }

  /** The item loop after its first `n` passes. */
  function ItemsLoop(st: State, o: nat, c: string, items: seq<string>, n: nat, imp: Importer, db: Db): State
    requires n <= |items|
  {
    if n == 0 then st else ItemStep(ItemsLoop(st, o, c, items, n - 1, imp, db), o, c, items, n - 1, imp, db)
  }

  /** One pass of the output loop for output `o`. */
  function OutputStep(st: State, outputs: seq<Item>, o: nat, linkedBefore: set<string>, imp: Importer, db: Db): State
    requires o < |outputs|
  {
    var cid := Field(outputs[o], "content_id");
    if !Truthy(cid) || HasReferences(cid.value, linkedBefore, st.links) then st
    else
      match db.fullContent(o)
      case None => st
      case Some(text) =>
        if text == "" then st
        else
          var items := imp.extract(text);
          ItemsLoop(st, o, cid.value, items, |items|, imp, db)
  }

  /** The output loop after its first `n` passes. */
  function OutputsLoop(st: State, outputs: seq<Item>, n: nat, linkedBefore: set<string>, imp: Importer, db: Db): State
    requires n <= |outputs|
  {
    if n == 0 then st else OutputStep(OutputsLoop(st, outputs, n - 1, linkedBefore, imp, db), outputs, n - 1, linkedBefore, imp, db)
  }

  /** Where the run starts: the lowered titles of the existing references, nothing imported. */
  function Start(existingTitles: seq<string>): State
  {
    State(existingTitles, 0, [])
  }

  /** The import run over all outputs. */
  function Import(outputs: seq<Item>, existingTitles: seq<string>, linkedBefore: set<string>, imp: Importer, db: Db): State
  {
    OutputsLoop(Start(existingTitles), outputs, |outputs|, linkedBefore, imp, db)
  }

  /** The loops of `import_references_from_database`, with the database answers as `db`. */
  method ImportReferences(outputs: seq<Item>, existingTitles: seq<string>, linkedBefore: set<string>,
                          imp: Importer, db: Db) returns (r: State)
    ensures r == Import(outputs, existingTitles, linkedBefore, imp, db)
  {
    var titles, count, links := existingTitles, 0, [];
    var o := 0;
    while o < |outputs|
      invariant o <= |outputs|
      invariant State(titles, count, links) == OutputsLoop(Start(existingTitles), outputs, o, linkedBefore, imp, db)
    {
      ghost var before := State(titles, count, links);
      var cid := Field(outputs[o], "content_id");
      if Truthy(cid) && !HasReferences(cid.value, linkedBefore, links) {
        var text := db.fullContent(o);
        if text.Some? && text.value != "" {
          var items := imp.extract(text.value);
          var i := 0;
          while i < |items|
            invariant i <= |items|
            invariant State(titles, count, links) == ItemsLoop(before, o, cid.value, items, i, imp, db)
          {
            var repeated := false;
            if imp.skipRepeats {
              repeated := Repeats(items, i);
            }
            if !repeated {
              var title := Lower(imp.titleOf(items[i]));
              if title !in titles {
                var id := db.create(o, i);
                if id.Some? && db.link(o, i) {
                  links := links + [Link(cid.value, id.value, CitationKey(i))];
                  count := count + 1;
                  titles := titles + [title];
                }
              }
            }
            i := i + 1;
          }
        }
      }
      o := o + 1;
    }
    r := State(titles, count, links);
  }

  /** The inner `any(...)` scan. */
  method Repeats(items: seq<string>, i: nat) returns (b: bool)
    requires i < |items|
    ensures b == RepeatsEarlier(items, i)
  {
    var j := 0;
    b := false;
    while j < i
      invariant j <= i
      invariant b == exists k :: 0 <= k < j && Strip(items[k]) == Strip(items[i])
    {
      if Strip(items[j]) == Strip(items[i]) {
        b := true;
      }
      j := j + 1;
    }
  }

  /** The count of imported references is the number of links made. */
  predicate Counted(st: State)
  {
    st.imported == |st.links|
  }

  /** Titles from position `base` on are new: none repeats an earlier title. */
  predicate FreshFrom(titles: seq<string>, base: nat)
  {
    forall k, j :: base <= k < |titles| && 0 <= j < k ==> titles[j] != titles[k]
  }

  /** Appending a title not yet seen keeps the titles from `base` on distinct. */
  lemma FreshAppend(titles: seq<string>, base: nat, t: string)
    requires FreshFrom(titles, base) && t !in titles
    ensures FreshFrom(titles + [t], base)
  {
  }

  lemma {:induction false} ItemsLoopKeeps(st: State, o: nat, c: string, items: seq<string>, n: nat, imp: Importer, db: Db,
                                          base: nat)
    requires n <= |items|
    requires Counted(st) && FreshFrom(st.titles, base) && base <= |st.titles|
    ensures var r := ItemsLoop(st, o, c, items, n, imp, db);
      Counted(r) && FreshFrom(r.titles, base) && |st.titles| <= |r.titles| && r.titles[..|st.titles|] == st.titles
  {
    if n > 0 {
      ItemsLoopKeeps(st, o, c, items, n - 1, imp, db, base);
      var p := ItemsLoop(st, o, c, items, n - 1, imp, db);
      var r := ItemStep(p, o, c, items, n - 1, imp, db);
      if r != p {
        assert r.titles == p.titles + [r.titles[|p.titles|]];
        assert r.titles[..|p.titles|] == p.titles;
        assert r.titles[..|st.titles|] == p.titles[..|st.titles|];
      }
    }
  }

  lemma {:induction false} OutputsLoopKeeps(st: State, outputs: seq<Item>, n: nat, linkedBefore: set<string>,
                                            imp: Importer, db: Db, base: nat)
    requires n <= |outputs|
    requires Counted(st) && FreshFrom(st.titles, base) && base <= |st.titles|
    ensures var r := OutputsLoop(st, outputs, n, linkedBefore, imp, db);
      Counted(r) && FreshFrom(r.titles, base) && |st.titles| <= |r.titles| && r.titles[..|st.titles|] == st.titles
  {
    if n > 0 {
      OutputsLoopKeeps(st, outputs, n - 1, linkedBefore, imp, db, base);
      var p := OutputsLoop(st, outputs, n - 1, linkedBefore, imp, db);
      var cid := Field(outputs[n - 1], "content_id");
      if Truthy(cid) && !HasReferences(cid.value, linkedBefore, p.links) && db.fullContent(n - 1).Some? {
        var items := imp.extract(db.fullContent(n - 1).value);
        ItemsLoopKeeps(p, n - 1, cid.value, items, |items|, imp, db, base);
        var r := ItemsLoop(p, n - 1, cid.value, items, |items|, imp, db);
        assert r.titles[..|st.titles|] == r.titles[..|p.titles|][..|st.titles|];
      }
    }
  }

  /**
   * After the run the count is the number of links made, the existing titles
   * are still at the front, and no title was imported twice or imported when
   * an existing reference already had it (compared in lower case).
   */
  lemma ImportInvariants(outputs: seq<Item>, existingTitles: seq<string>, linkedBefore: set<string>,
                         imp: Importer, db: Db)
    ensures var r := Import(outputs, existingTitles, linkedBefore, imp, db);
      r.imported == |r.links| && |existingTitles| <= |r.titles| && r.titles[..|existingTitles|] == existingTitles
      && FreshFrom(r.titles, |existingTitles|)
  {
    OutputsLoopKeeps(Start(existingTitles), outputs, |outputs|, linkedBefore, imp, db, |existingTitles|);
  }

  /** The link made for an item carries its content, its new reference and the key of its position. */
  predicate MadeFor(l: Link, o: nat, c: string, i: nat, db: Db)
  {
    db.create(o, i).Some? && db.link(o, i) && l == Link(c, db.create(o, i).value, CitationKey(i))
  }

  /** Every link from position `from` on was made for one of the first `n` items. */
  predicate MadeByItems(links: seq<Link>, from: nat, o: nat, c: string, n: nat, db: Db)
  {
    forall k :: from <= k < |links| ==>
      0 <= KeyPosition(links[k].citationKey) < n && MadeFor(links[k], o, c, KeyPosition(links[k].citationKey), db)
  }

  /**
   * Every link the item loop makes for one output belongs to some item `i`,
   * whose reference was created and linked, with key "REF{i+1}": skipped
   * items still take up their position.
   */
  lemma {:induction false} LinksByPosition(st: State, o: nat, c: string, items: seq<string>, n: nat, imp: Importer, db: Db)
    requires n <= |items|
    ensures var r := ItemsLoop(st, o, c, items, n, imp, db);
      |st.links| <= |r.links| && r.links[..|st.links|] == st.links
      && MadeByItems(r.links, |st.links|, o, c, n, db)
  {
    if n > 0 {
      LinksByPosition(st, o, c, items, n - 1, imp, db);
      var p := ItemsLoop(st, o, c, items, n - 1, imp, db);
      var r := ItemStep(p, o, c, items, n - 1, imp, db);
      if r != p {
        var l := Link(c, db.create(o, n - 1).value, CitationKey(n - 1));
        assert r.links == p.links + [l];
        KeyPositionOf(n - 1);
        assert r.links[..|st.links|] == p.links[..|st.links|];
      }
    }
  }

  /** A title already known in lower case is skipped: the pass changes nothing. */
  lemma KnownTitleSkipped(st: State, o: nat, c: string, items: seq<string>, i: nat, imp: Importer, db: Db)
    requires i < |items| && Lower(imp.titleOf(items[i])) in st.titles
    ensures ItemStep(st, o, c, items, i, imp, db) == st
  {
  }

  /** An output whose content already has references adds nothing. */
  lemma LinkedContentSkipped(st: State, outputs: seq<Item>, o: nat, linkedBefore: set<string>, imp: Importer, db: Db)
    requires o < |outputs|
    requires var cid := Field(outputs[o], "content_id");
      cid.Some? && HasReferences(cid.value, linkedBefore, st.links)
    ensures OutputStep(st, outputs, o, linkedBefore, imp, db) == st
  {
  }
}
