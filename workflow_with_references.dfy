/**
 * `workflows/content_workflow_with_references.py`: content generation followed
 * by reference extraction and storage. Extraction is the first importer's
 * (ReferenceImporter) plus a DOI and the fixed storage fields; storage links a
 * reference whose title is already known, or creates one with fixed quality
 * scores and links it. The database calls are the oracles of `StoreDb`.
 */
module WorkflowWithReferences {
  import opened Wrappers
  import opened StrUtil
  import opened Items
  import opened CitationText
  import RM = ReferenceManagement
  import RI = ReferenceImporter
  import RII = ReferenceImporterImproved
  import ReferenceImport

  // ---------------------------------------------------------------- DOI

  /** `doi:([^\s]+)` (ignoring case) matching at `i`: group 1. */
  function DoiAt(t: string, lt: string, i: nat): (r: Option<string>)
    requires |lt| == |t|
    ensures r.Some? ==> r.value != [] && OccursAt(t, r.value, i + 4)
  {
    if OccursAt(lt, "doi:", i) && UrlRun(t, i + 4, false) > 0 then Some(t[i + 4..i + 4 + UrlRun(t, i + 4, false)])
    else None
  }

  /**
   * `https?://doi.org/([^\s]+)` (ignoring case) matching at `i`: group 1. The
   * unescaped '.' of the pattern matches any character but a newline.
   */
  function DoiOrgAt(t: string, lt: string, i: nat): (r: Option<string>)
    requires |lt| == |t|
    ensures r.Some? ==> r.value != [] && exists j :: OccursAt(t, r.value, j)
  {
    var s := if OccursAt(lt, "https", i) then 5 else 4;
    var g := i + s + 11;
    if OccursAt(lt, "http", i) && OccursAt(lt, "://doi", i + s) && i + s + 6 < |lt| && lt[i + s + 6] != '\n'
       && OccursAt(lt, "org/", i + s + 7) && UrlRun(t, g, false) > 0
    then
      assert OccursAt(t, t[g..g + UrlRun(t, g, false)], g);
      Some(t[g..g + UrlRun(t, g, false)])
    else None
  }

  /** The leftmost match at or after `i` of the `doi:` pattern (`org` false) or of the doi.org pattern. */
  function DoiFrom(t: string, lt: string, i: nat, org: bool): (r: Option<string>)
    requires |lt| == |t|
    ensures r.Some? ==> r.value != [] && Contains(t, r.value) && forall k :: 0 <= k < |r.value| ==> !IsSpace(r.value[k])
    decreases |t| - i
  {
    if i >= |t| then None
    else
      var m := if org then DoiOrgAt(t, lt, i) else DoiAt(t, lt, i);
      if m.Some? then
        var j :| OccursAt(t, m.value, j);
        ContainsAt(t, m.value, j);
        m
      else DoiFrom(t, lt, i + 1, org)
  }

  /**
   * `re.search(r'doi:([^\s]+)', ...) or re.search(r'https?://doi.org/([^\s]+)', ...)`:
   * a non-empty run of non-space characters of the text, the `doi:` form taking precedence.
   */
  function Doi(t: string): (r: Option<string>)
    ensures r.Some? ==> r.value != [] && Contains(t, r.value) && forall k :: 0 <= k < |r.value| ==> !IsSpace(r.value[k])
  {
    var lt := Lower(t);
    var d := DoiFrom(t, lt, 0, false);
    if d.Some? then d else DoiFrom(t, lt, 0, true)
  }

  /** Once the `doi:` pattern matches at some position, the search from any earlier position finds a match. */
  lemma {:induction false} DoiFromFinds(t: string, lt: string, j: nat, i: nat, org: bool)
    requires |lt| == |t| && j <= i < |t|
    requires (if org then DoiOrgAt(t, lt, i) else DoiAt(t, lt, i)).Some?
    ensures DoiFrom(t, lt, j, org).Some?
    decreases i - j
  {
    if j < i && (if org then DoiOrgAt(t, lt, j) else DoiAt(t, lt, j)).None? {
      DoiFromFinds(t, lt, j + 1, i, org);
    }
  }

  /** The `doi:` form takes precedence: when it matches anywhere, the doi.org form is not consulted. */
  lemma DoiSchemeFirst(t: string, i: nat)
    requires i < |t| && DoiAt(t, Lower(t), i).Some?
    ensures Doi(t) == DoiFrom(t, Lower(t), 0, false) && Doi(t).Some?
  {
    DoiFromFinds(t, Lower(t), 0, i, false);
  }

  // ---------------------------------------------------------------- extraction

  const Abstract := "Automatically extracted from generated content"

  datatype WorkflowReference = WorkflowReference(base: RI.PlainReference, doi: Option<string>, content: string,
                                                 summary: string, isActive: bool)

  /** `extract_reference_from_text`: the first importer's fields plus the DOI, the text itself and the fixed flags. */
  function ExtractReference(text: string): (r: WorkflowReference)
    ensures r.base.referenceType == "Article" && r.content == text && r.isActive
    ensures r.base.publicationDate.Some? ==> |r.base.publicationDate.value| == 10
    ensures r.doi.Some? ==> Contains(text, r.doi.value)
  {
    RI.DateIffParenthesisedYear(text);
    WorkflowReference(RI.ExtractReference(text), Doi(text), text, Abstract, true)
  }

  /** `extract_references_from_content`, the same pattern and split as the first importer. */
  function ExtractReferences(content: string): (r: seq<string>)
    ensures forall k :: 0 <= k < |r| ==> r[k] != "" && Strip(r[k]) == r[k]
  {
    RI.ExtractReferences(content)
  }

  lemma NoHeaderNothing(content: string)
    requires forall h :: h in HeadersWithoutCitations ==> !Contains(Lower(content), h)
    ensures ExtractReferences(content) == []
  {
    RI.NoHeaderNothing(content);
  }

  // ---------------------------------------------------------------- storage

  /** The fixed `ReferenceQuality` of a new reference: currency 4, relevance 5, authority 4, accuracy 4, purpose 4. */
  const DefaultQuality := RM.Assessment("", None, Some(4), Some(5), Some(4), Some(4), Some(4), None)

  /** Stored with those scores, a new reference's overall score is round(21/5) = 4. */
  lemma DefaultQualityOverall()
    ensures RM.WithOverall(DefaultQuality).overall == Some(4)
  {
  }

  datatype NewReference = NewReference(ref: WorkflowReference, quality: RM.Assessment)

  /**
   * `create_reference` for the item at a position with the reference built
   * from it (an id or a failure), and `link_reference_to_content(content,
   * reference, key)` (whether a link id came back).
   */
  datatype StoreDb = StoreDb(create: (nat, NewReference) -> Option<string>, link: (string, string, string) -> bool)

  /** `reference_ids` and `existing_titles` during the loop. */
  datatype Stored = Stored(ids: seq<string>, titles: seq<string>)

  /** `ref.get('title') and ref.get('title').lower() == title`. */
  predicate Titled(ref: Item, lt: string)
  {
    Truthy(Field(ref, "title")) && Lower(Field(ref, "title").value) == lt
  }

  /** The position of the first existing reference with that lowered title, or -1. */
  function FirstTitled(refs: seq<Item>, lt: string): (k: int)
    ensures -1 <= k < |refs|
    ensures k >= 0 ==> Titled(refs[k], lt)
    ensures forall j :: 0 <= j < |refs| && (k == -1 || j < k) ==> !Titled(refs[j], lt)
  {
    if refs == [] then -1
    else if Titled(refs[0], lt) then 0
    else
      var k := FirstTitled(refs[1..], lt);
      assert forall j :: 1 <= j < |refs| ==> refs[j] == refs[1..][j - 1];
      if k == -1 then -1 else k + 1
  }

  /** The reference extracted from each item text, in order. */
  function Extracted(items: seq<string>): (r: seq<WorkflowReference>)
    ensures |r| == |items|
  {
    if items == [] then []
    else [ExtractReference(items[0])] + Extracted(items[1..])
  }

  /** The `k`-th extracted reference is the one read from item `k`. */
  lemma {:induction false} ExtractedAt(items: seq<string>, k: nat)
    requires k < |items|
    ensures Extracted(items)[k] == ExtractReference(items[k])
  {
    if k > 0 {
      ExtractedAt(items[1..], k - 1);
    }
  }

  /** One pass of the loop for item `i`, whose extracted reference is `rd`. */
  function StoreStep(st: Stored, refs: seq<Item>, contentId: string, rd: WorkflowReference, i: nat, db: StoreDb): Stored
  {
    var lt := Lower(rd.base.title);
    var key := ReferenceImport.CitationKey(i);
    if lt in st.titles then
      var k := FirstTitled(refs, lt);
      if k >= 0 && db.link(contentId, FieldOr(refs[k], "id", ""), key) then st.(ids := st.ids + [FieldOr(refs[k], "id", "")])
      else st
    else
      var id := db.create(i, NewReference(rd, DefaultQuality));
      if id.Some? && db.link(contentId, id.value, key) then Stored(st.ids + [id.value], st.titles + [lt])
      else st
  }

  /** The loop after its first `n` items. */
  function StoreLoop(st: Stored, refs: seq<Item>, contentId: string, rds: seq<WorkflowReference>, n: nat, db: StoreDb): Stored
    requires n <= |rds|
  {
    if n == 0 then st
    else StoreStep(StoreLoop(st, refs, contentId, rds, n - 1, db), refs, contentId, rds[n - 1], n - 1, db)
  }

  function Store(refs: seq<Item>, contentId: string, items: seq<string>,
                 db: StoreDb): Stored
  {
    StoreLoop(Stored([], RII.ExistingTitles(refs)), refs, contentId, Extracted(items), |items|, db)
  }

  /** The inner `for ref in existing_references ... break` search. */
  method FindExisting(refs: seq<Item>, lt: string) returns (k: int)
    ensures k == FirstTitled(refs, lt)
  {
    k := 0;
    while k < |refs|
      invariant 0 <= k <= |refs|
      invariant forall j :: 0 <= j < k ==> !Titled(refs[j], lt)
    {
      if Titled(refs[k], lt) {
        return;
      }
      k := k + 1;
    }
    k := -1;
  }

  /** `store_references_in_database`: the ids of the references linked to the content, in item order. */
  method StoreReferencesInDatabase(contentId: string, items: seq<string>, refs: seq<Item>,
                                   db: StoreDb) returns (ids: seq<string>)
    ensures ids == Store(refs, contentId, items, db).ids
  {
    var st := Stored([], RII.ExistingTitles(refs));
    ghost var rds := Extracted(items);
    var i := 0;
    while i < |items|
      invariant i <= |items|
      invariant st == StoreLoop(Stored([], RII.ExistingTitles(refs)), refs, contentId, rds, i, db)
    {
      var rd := ExtractAt(items, i);
      st := StoreItem(st, refs, contentId, rd, i, db);
      i := i + 1;
    }
    ids := st.ids;
  }

  /** The reference extracted from item `i`. */
  method ExtractAt(items: seq<string>, i: nat) returns (rd: WorkflowReference)
    requires i < |items|
    ensures rd == Extracted(items)[i]
  {
    rd := ExtractReference(items[i]);
    ExtractedAt(items, i);
  }

  /** The body of the loop for item `i`: link an existing reference with that title, or create and link a new one. */
  method StoreItem(st: Stored, refs: seq<Item>, contentId: string, rd: WorkflowReference, i: nat, db: StoreDb)
    returns (next: Stored)
    ensures next == StoreStep(st, refs, contentId, rd, i, db)
  {
    next := st;
    var lt := Lower(rd.base.title);
    var key := ReferenceImport.CitationKey(i);
    if lt in st.titles {
      var k := FindExisting(refs, lt);
      if k >= 0 {
        var id := FieldOr(refs[k], "id", "");
        if db.link(contentId, id, key) {
          next := next.(ids := st.ids + [id]);
        }
      }
    } else {
      var id := db.create(i, NewReference(rd, DefaultQuality));
      if id.Some? {
        if db.link(contentId, id.value, key) {
          next := Stored(st.ids + [id.value], st.titles + [lt]);
        }
      }
    }
  }

  /**
   * A known title is never created again: the pass does not depend on the
   * create oracle, keeps the titles, and links at most the first existing
   * reference with that title.
   */
  lemma KnownTitleLinksExisting(st: Stored, refs: seq<Item>, contentId: string, rd: WorkflowReference, i: nat, db: StoreDb,
                                other: (nat, NewReference) -> Option<string>)
    requires Lower(rd.base.title) in st.titles
    ensures var r := StoreStep(st, refs, contentId, rd, i, db);
      && r == StoreStep(st, refs, contentId, rd, i, db.(create := other))
      && r.titles == st.titles
      && (r == st || exists k :: 0 <= k < |refs| && r.ids == st.ids + [FieldOr(refs[k], "id", "")]
                                && Titled(refs[k], Lower(rd.base.title)))
  {
    var k := FirstTitled(refs, Lower(rd.base.title));
    if k >= 0 {
      assert 0 <= k < |refs| && Titled(refs[k], Lower(rd.base.title));
    }
  }

  /**
   * A new title gets a reference created with the fixed quality scores; the
   * id and the title are recorded exactly when both the create and the link
   * with key "REF<i+1>" succeed.
   */
  lemma NewTitleCreated(st: Stored, refs: seq<Item>, contentId: string, rd: WorkflowReference, i: nat, db: StoreDb)
    requires Lower(rd.base.title) !in st.titles
    ensures var id := db.create(i, NewReference(rd, DefaultQuality));
      var r := StoreStep(st, refs, contentId, rd, i, db);
      if id.Some? && db.link(contentId, id.value, "REF" + NatToString(i + 1))
      then r == Stored(st.ids + [id.value], st.titles + [Lower(rd.base.title)])
      else r == st
  {
  }

  /**
   * A title created earlier in the same run is in `existing_titles` but not
   * among the fetched references, so a later item with that title is neither
   * created nor linked.
   */
  lemma RepeatOfNewTitleDropped(st: Stored, refs: seq<Item>, contentId: string, rd: WorkflowReference, i: nat, db: StoreDb)
    requires Lower(rd.base.title) in st.titles && forall k :: 0 <= k < |refs| ==> !Titled(refs[k], Lower(rd.base.title))
    ensures StoreStep(st, refs, contentId, rd, i, db) == st
  {
  }

  /** A pass either leaves the titles alone and adds at most one id, or adds one new title together with one id. */
  lemma StepShape(st: Stored, refs: seq<Item>, contentId: string, rd: WorkflowReference, i: nat, db: StoreDb)
    ensures var r := StoreStep(st, refs, contentId, rd, i, db);
      && |st.ids| <= |r.ids| <= |st.ids| + 1
      && (r.titles == st.titles || (|r.titles| == |st.titles| + 1 && r.titles == st.titles + [r.titles[|st.titles|]] && r.titles[|st.titles|] !in st.titles
                                    && |r.ids| == |st.ids| + 1))
  {
  }

  /** The loop facts about `st` and `p`, plus one step's shape from `p` to `r`, give them for `r`. */
  predicate Keeps(st: Stored, r: Stored, base: nat, n: nat)
  {
    && |st.titles| <= |r.titles| && r.titles[..|st.titles|] == st.titles
    && ReferenceImport.FreshFrom(r.titles, base)
    && |st.ids| <= |r.ids| <= |st.ids| + n
    && |r.titles| - |st.titles| <= |r.ids| - |st.ids|
  }

  lemma KeepsStep(st: Stored, p: Stored, r: Stored, base: nat, n: nat)
    requires Keeps(st, p, base, n) && base <= |st.titles|
    requires |p.ids| <= |r.ids| <= |p.ids| + 1
    requires r.titles == p.titles || (|r.titles| == |p.titles| + 1 && r.titles == p.titles + [r.titles[|p.titles|]] && r.titles[|p.titles|] !in p.titles
                                      && |r.ids| == |p.ids| + 1)
    ensures Keeps(st, r, base, n + 1)
  {
    if r.titles != p.titles {
      ReferenceImport.FreshAppend(p.titles, base, r.titles[|p.titles|]);
      assert r.titles[..|p.titles|] == p.titles;
    }
    assert r.titles[..|st.titles|] == p.titles[..|st.titles|];
  }

  /** The loop keeps the titles it started with, adds only new ones, and records a title only together with an id. */
  lemma {:induction false} StoreLoopKeeps(st: Stored, refs: seq<Item>, contentId: string, rds: seq<WorkflowReference>,
                                          n: nat, db: StoreDb, base: nat)
    requires n <= |rds|
    requires base <= |st.titles| && ReferenceImport.FreshFrom(st.titles, base)
    ensures Keeps(st, StoreLoop(st, refs, contentId, rds, n, db), base, n)
  {
    if n == 0 {
      assert st.titles[..|st.titles|] == st.titles;
    } else {
      StoreLoopKeeps(st, refs, contentId, rds, n - 1, db, base);
      var p := StoreLoop(st, refs, contentId, rds, n - 1, db);
      StepShape(p, refs, contentId, rds[n - 1], n - 1, db);
      KeepsStep(st, p, StoreStep(p, refs, contentId, rds[n - 1], n - 1, db), base, n - 1);
    }
  }

  /** At most one id per item, and at least one id per title the run adds. */
  lemma StoreInvariants(refs: seq<Item>, contentId: string, items: seq<string>,
                        db: StoreDb)
    ensures var r := Store(refs, contentId, items, db);
      var e := RII.ExistingTitles(refs);
      && |r.ids| <= |items| && |e| <= |r.titles| && r.titles[..|e|] == e
      && |r.titles| - |e| <= |r.ids| && ReferenceImport.FreshFrom(r.titles, |e|)
  {
    var e := RII.ExistingTitles(refs);
    var st := Stored([], e);
    assert ReferenceImport.FreshFrom(st.titles, |e|);
    StoreLoopKeeps(st, refs, contentId, Extracted(items), |items|, db, |e|);
    var r := StoreLoop(st, refs, contentId, Extracted(items), |items|, db);
    assert Store(refs, contentId, items, db) == r;
  }

  // ---------------------------------------------------------------- generation

  /** `(success, content_text)`, and the ids stored along the way. */
  datatype Outcome = Outcome(success: bool, text: Option<string>, referenceIds: seq<string>)

  /**
   * `generate_content_for_item` after the wrapped generation: `generated` is
   * its success (from either signature), `file` the output file's text if the
   * file exists. The text the wrapped call returns is never used.
   */
  function GenerateContentForItem(generated: bool, includeReferences: bool, file: Option<string>, contentId: string,
                                  refs: seq<Item>, db: StoreDb): (r: Outcome)
    ensures r.success <==> generated
    ensures !generated ==> r == Outcome(false, None, [])
    ensures generated && (!includeReferences || file.None?) ==> r == Outcome(true, None, [])
    ensures generated && includeReferences && file.Some? ==> r.text == file
    ensures r.referenceIds != [] ==> generated && includeReferences && file.Some? && ExtractReferences(file.value) != []
  {
    if !generated then Outcome(false, None, [])
    else if !includeReferences || file.None? then Outcome(true, None, [])
    else
      var items := ExtractReferences(file.value);
      if items == [] then Outcome(true, file, [])
      else Outcome(true, file, Store(refs, contentId, items, db).ids)
  }
}
