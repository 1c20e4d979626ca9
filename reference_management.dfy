/**
 * References, their quality assessments and their links to content
 * (reference_management/reference_management.py).
 *
 * The tables `reference_sources`, `reference_quality`, `reference_to_category`
 * and `content_references` are fields of a `ReferenceStore`. The listings
 * post-process the rows their queries return; those rows are arguments, and
 * the filters the database applies itself (type, active flag, `ilike`
 * search, `limit`) are not modelled.
 */
module ReferenceManagement {
  import opened Wrappers
  import opened StrUtil
  import opened Items
  import opened Lists
  import PyMath

  // ---------------------------------------------------------------------------
  // Records
  // ---------------------------------------------------------------------------

  /** A `metadata` column: a dict, or the JSON text `to_dict` wrote. */
  datatype Metadata = MetaDict(fields: map<string, string>) | MetaText(text: string)

  /** `from_dict`'s metadata: a dict is kept, text is decoded, undecodable text or none gives {}. */
  function DecodeMetadata(m: Option<Metadata>, parse: string -> Option<map<string, string>>): (r: map<string, string>)
    ensures m.None? ==> r == map[]
    ensures m.Some? && m.value.MetaDict? ==> r == m.value.fields
    ensures m.Some? && m.value.MetaText? && parse(m.value.text).None? ==> r == map[]
  {
    match m
    case None => map[]
    case Some(MetaDict(f)) => f
    case Some(MetaText(t)) => parse(t).GetOr(map[])
  }

  /** Metadata written by `to_dict` and read back by `from_dict` is unchanged when the JSON codec round-trips. */
  lemma MetadataRoundTrip(m: map<string, string>, dump: map<string, string> -> string,
                          parse: string -> Option<map<string, string>>)
    requires parse(dump(m)) == Some(m)
    ensures DecodeMetadata(Some(MetaText(dump(m))), parse) == m
  {
  }

  /** A `reference_quality` row. */
  datatype Assessment = Assessment(
    id: string, referenceId: Option<string>, currency: Option<int>, relevance: Option<int>,
    authority: Option<int>, accuracy: Option<int>, purpose: Option<int>, overall: Option<int>)

  predicate AllScored(a: Assessment)
  {
    a.currency.Some? && a.relevance.Some? && a.authority.Some? && a.accuracy.Some? && a.purpose.Some?
  }

  function ScoreSum(a: Assessment): int
    requires AllScored(a)
  {
    a.currency.value + a.relevance.value + a.authority.value + a.accuracy.value + a.purpose.value
  }

  /**
   * The overall score filled in before an assessment is stored: round(sum/5)
   * when it is missing and all five scores are present, otherwise unchanged.
   */
  function WithOverall(a: Assessment): (r: Assessment)
    ensures r == a.(overall := r.overall)
    ensures a.overall.Some? || !AllScored(a) ==> r == a
    ensures a.overall.None? && AllScored(a) ==>
      r.overall.Some? && 2 * PyMath.Abs(ScoreSum(a) - 5 * r.overall.value) <= 5
  {
    if a.overall.None? && AllScored(a) then a.(overall := Some(PyMath.RoundDiv(ScoreSum(a), 5))) else a
  }

  predicate InRange(s: Option<int>)
  {
    s.Some? && 1 <= s.value <= 5
  }

  /** Five scores in 1..5 give an overall score in 1..5. */
  lemma OverallInRange(a: Assessment)
    requires a.overall.None?
    requires InRange(a.currency) && InRange(a.relevance) && InRange(a.authority)
    requires InRange(a.accuracy) && InRange(a.purpose)
    ensures InRange(WithOverall(a).overall)
  {
    PyMath.RoundDivMonotone(5, ScoreSum(a), 5);
    PyMath.RoundDivMonotone(ScoreSum(a), 25, 5);
    PyMath.RoundDivExact(1, 5);
    PyMath.RoundDivExact(5, 5);
  }

  /** Five equal scores give that score. */
  lemma OverallOfEqualScores(a: Assessment, k: int)
    requires a.overall.None?
    requires a.currency == a.relevance == a.authority == a.accuracy == a.purpose == Some(k)
    ensures WithOverall(a).overall == Some(k)
  {
    PyMath.RoundDivExact(k, 5);
  }

  /** A `content_references` row. */
  datatype LinkRow = LinkRow(
    id: string, contentId: string, referenceId: string, citationKey: string, citationContext: string,
    relevance: Option<int>)

  /** The columns of a `reference_sources` row the listings use. */
  datatype SourceRow = SourceRow(id: string, title: string, authors: string, referenceType: string,
                                 isActive: bool, updatedAt: string)

  /** A reference object. */
  class Reference {
    var referenceId: string
    var title: string
    var authors: string
    var publicationDate: Option<string>
    var url: string
    var doi: string
    var referenceType: string
    var createdAt: string
    var updatedAt: string
    var createdBy: string
    var isActive: bool
    var categories: seq<string>
    var quality: Option<Assessment>

    /** `Reference(...)`: missing or empty arguments take their defaults. */
    constructor (referenceId: Option<string>, title: Option<string>, authors: Option<string>,
                 publicationDate: Option<string>, url: Option<string>, doi: Option<string>,
                 referenceType: Option<string>, isActive: bool, createdBy: Option<string>,
                 categories: seq<string>, quality: Option<Assessment>, freshId: string, now: string)
      ensures this.referenceId == OrDefault(referenceId, freshId)
      ensures this.title == OrDefault(title, "") && this.authors == OrDefault(authors, "")
      ensures this.url == OrDefault(url, "") && this.doi == OrDefault(doi, "")
      ensures this.referenceType == OrDefault(referenceType, "Website")
      ensures this.createdBy == OrDefault(createdBy, "system")
      ensures this.publicationDate == publicationDate && this.isActive == isActive
      ensures this.categories == categories && this.quality == quality
      ensures createdAt == now && updatedAt == now
    {
      this.referenceId := OrDefault(referenceId, freshId);
      this.title := OrDefault(title, "");
      this.authors := OrDefault(authors, "");
      this.publicationDate := publicationDate;
      this.url := OrDefault(url, "");
      this.doi := OrDefault(doi, "");
      this.referenceType := OrDefault(referenceType, "Website");
      this.createdBy := OrDefault(createdBy, "system");
      this.isActive := isActive;
      this.categories := categories;
      this.quality := quality;
      createdAt := now;
      updatedAt := now;
    }

    function Row(): SourceRow
      reads this
    {
      SourceRow(referenceId, title, authors, referenceType, isActive, updatedAt)
    }
  }

  // ---------------------------------------------------------------------------
  // Stored operations
  // ---------------------------------------------------------------------------

  /** The category rows after `update_reference`: the reference's old rows go, its new ones follow. */
  function ReplaceCategories(rows: seq<(string, string)>, refId: string, cats: seq<string>): (r: seq<(string, string)>)
  {
    Filter(rows, OtherReference(refId)) + RowsFor(refId, cats)
  }

  /** Keeps the category rows of references other than `refId`. */
  function OtherReference(refId: string): ((string, string)) -> bool
  {
    (p: (string, string)) => p.0 != refId
  }

  /** The rows `(refId, c)` for each category id `c`, in order. */
  function RowsFor(refId: string, cats: seq<string>): (r: seq<(string, string)>)
    ensures |r| == |cats|
  {
    seq(|cats|, k requires 0 <= k < |cats| => (refId, cats[k]))
  }

  /** The category ids of one reference, in row order. */
  function CategoryIdsOf(rows: seq<(string, string)>, refId: string): (r: seq<string>)
    ensures forall c :: c in r <==> (refId, c) in rows
  {
    if rows == [] then []
    else
      CategoryIdsOf(rows[..|rows| - 1], refId)
      + (if rows[|rows| - 1].0 == refId then [rows[|rows| - 1].1] else [])
  }

  lemma {:induction false} CategoryIdsAppend(a: seq<(string, string)>, b: seq<(string, string)>, refId: string)
    ensures CategoryIdsOf(a + b, refId) == CategoryIdsOf(a, refId) + CategoryIdsOf(b, refId)
    decreases |b|
  {
    if b != [] {
      var init := b[..|b| - 1];
      CategoryIdsAppend(a, init, refId);
      assert (a + b)[..|a + b| - 1] == a + init;
      assert (a + b)[|a + b| - 1] == b[|b| - 1];
      assert CategoryIdsOf(a + b, refId) == CategoryIdsOf(a + init, refId) +
        (if b[|b| - 1].0 == refId then [b[|b| - 1].1] else []);
      assert CategoryIdsOf(b, refId) == CategoryIdsOf(init, refId) +
        (if b[|b| - 1].0 == refId then [b[|b| - 1].1] else []);
    } else {
      assert a + b == a;
    }
  }

  lemma {:induction false} CategoryIdsOfOthers(rows: seq<(string, string)>, refId: string, other: string)
    requires other != refId
    ensures CategoryIdsOf(Filter(rows, OtherReference(refId)), other) == CategoryIdsOf(rows, other)
  {
    if rows != [] {
      var init, last := rows[..|rows| - 1], rows[|rows| - 1];
      CategoryIdsOfOthers(init, refId, other);
      var tail := if OtherReference(refId)(last) then [last] else [];
      CategoryIdsAppend(Filter(init, OtherReference(refId)), tail, other);
      assert rows == init + [last];
      CategoryIdsAppend(init, [last], other);
    }
  }

  lemma {:induction false} CategoryIdsOfFresh(cats: seq<string>, refId: string, other: string)
    ensures CategoryIdsOf(RowsFor(refId, cats), other) ==
      if other == refId then cats else []
  {
    if cats != [] {
      var init := cats[..|cats| - 1];
      CategoryIdsOfFresh(init, refId, other);
      assert RowsFor(refId, cats)[..|cats| - 1] == RowsFor(refId, init);
    }
  }

  lemma {:induction false} CategoryIdsOfRemoved(rows: seq<(string, string)>, refId: string)
    ensures CategoryIdsOf(Filter(rows, OtherReference(refId)), refId) == []
  {
    if rows != [] {
      var init, last := rows[..|rows| - 1], rows[|rows| - 1];
      CategoryIdsOfRemoved(init, refId);
      var tail := if OtherReference(refId)(last) then [last] else [];
      CategoryIdsAppend(Filter(init, OtherReference(refId)), tail, refId);
    }
  }

  /**
   * Replacing the categories leaves exactly the new list, in order, for the
   * updated reference and every other reference's list unchanged.
   */
  lemma ReplaceCategoriesExact(rows: seq<(string, string)>, refId: string, cats: seq<string>, other: string)
    ensures CategoryIdsOf(ReplaceCategories(rows, refId, cats), refId) == cats
    ensures other != refId ==> CategoryIdsOf(ReplaceCategories(rows, refId, cats), other) == CategoryIdsOf(rows, other)
  {
    var kept := Filter(rows, OtherReference(refId));
    var added := RowsFor(refId, cats);
    CategoryIdsAppend(kept, added, refId);
    CategoryIdsOfRemoved(rows, refId);
    CategoryIdsOfFresh(cats, refId, refId);
    if other != refId {
      CategoryIdsAppend(kept, added, other);
      CategoryIdsOfOthers(rows, refId, other);
      CategoryIdsOfFresh(cats, refId, other);
    }
  }

  /** The first link of a (content, reference) pair, as `existing.data[0]`. */
  function FirstLink(links: seq<LinkRow>, contentId: string, refId: string): (r: Option<LinkRow>)
    ensures r.Some? ==> r.value in links && r.value.contentId == contentId && r.value.referenceId == refId
    ensures r.None? ==> forall l :: l in links ==> !(l.contentId == contentId && l.referenceId == refId)
  {
    if links == [] then None
    else if links[0].contentId == contentId && links[0].referenceId == refId then Some(links[0])
    else FirstLink(links[1..], contentId, refId)
  }

  /**
   * `link_reference_to_content` on a connected store: an existing link's id,
   * or a new link under `freshId` (an id already in use makes the insert fail).
   */
  function Linked(links: seq<LinkRow>, contentId: string, refId: string, key: Option<string>,
                  context: Option<string>, relevance: Option<int>, freshId: string): (r: (Option<string>, seq<LinkRow>))
  {
    var e := FirstLink(links, contentId, refId);
    if e.Some? then (Some(e.value.id), links)
    else if exists l :: l in links && l.id == freshId then (None, links)
    else (Some(freshId), links + [LinkRow(freshId, contentId, refId, OrDefault(key, ""), OrDefault(context, ""), relevance)])
  }

  /** Linking twice changes nothing the second time and returns the same id. */
  lemma LinkIdempotent(links: seq<LinkRow>, contentId: string, refId: string, key: Option<string>,
                       context: Option<string>, relevance: Option<int>, freshId: string,
                       key2: Option<string>, context2: Option<string>, relevance2: Option<int>, freshId2: string)
    requires Linked(links, contentId, refId, key, context, relevance, freshId).0.Some?
    ensures var first := Linked(links, contentId, refId, key, context, relevance, freshId);
      Linked(first.1, contentId, refId, key2, context2, relevance2, freshId2) == first
  {
    var first := Linked(links, contentId, refId, key, context, relevance, freshId);
    if FirstLink(links, contentId, refId).None? {
      FirstLinkAppend(links, contentId, refId, first.1[|links|]);
    }
  }

  lemma {:induction false} FirstLinkAppend(links: seq<LinkRow>, contentId: string, refId: string, l: LinkRow)
    requires FirstLink(links, contentId, refId).None?
    requires l.contentId == contentId && l.referenceId == refId
    ensures FirstLink(links + [l], contentId, refId) == Some(l)
  {
    if links != [] {
      assert (links + [l])[1..] == links[1..] + [l];
      FirstLinkAppend(links[1..], contentId, refId, l);
    }
  }

  /** Every row whose id is `a.id` replaced by `a`. */
  function ReplaceById(rows: seq<Assessment>, a: Assessment): (r: seq<Assessment>)
    ensures |r| == |rows|
    ensures forall i :: 0 <= i < |rows| ==> r[i] == if rows[i].id == a.id then a else rows[i]
  {
    seq(|rows|, i requires 0 <= i < |rows| => if rows[i].id == a.id then a else rows[i])
  }

  /** The first assessment stored for a reference. */
  function AssessmentOf(rows: seq<Assessment>, refId: string): (r: Option<Assessment>)
    ensures r.Some? ==> r.value in rows && r.value.referenceId == Some(refId)
  {
    if rows == [] then None
    else if rows[0].referenceId == Some(refId) then Some(rows[0])
    else AssessmentOf(rows[1..], refId)
  }

  /**
   * The assessments after `update_reference` stores `a` for `refId`: the
   * first stored assessment of the reference is updated under its own id,
   * or, when there is none, `a` is created.
   */
  function AssessedQuality(rows: seq<Assessment>, refId: string, a: Assessment): seq<Assessment>
  {
    var b := a.(referenceId := Some(refId));
    match AssessmentOf(rows, refId)
    case Some(s) => if s.id != "" then ReplaceById(rows, WithOverall(b.(id := s.id))) else rows
    case None => if refId != "" && forall q :: q in rows ==> q.id != b.id then rows + [WithOverall(b)] else rows
  }

  /** The first assessment found for a reference skips every row of another reference. */
  lemma {:induction false} AssessmentOfIndex(rows: seq<Assessment>, refId: string)
    ensures AssessmentOf(rows, refId).None? <==> forall i :: 0 <= i < |rows| ==> rows[i].referenceId != Some(refId)
    ensures AssessmentOf(rows, refId).Some? ==>
      exists i :: 0 <= i < |rows| && rows[i] == AssessmentOf(rows, refId).value &&
                  forall j :: 0 <= j < i ==> rows[j].referenceId != Some(refId)
  {
    if rows != [] {
      AssessmentOfIndex(rows[1..], refId);
      if rows[0].referenceId != Some(refId) && AssessmentOf(rows, refId).Some? {
        var i :| 0 <= i < |rows[1..]| && rows[1..][i] == AssessmentOf(rows, refId).value &&
                 forall j :: 0 <= j < i ==> rows[1..][j].referenceId != Some(refId);
        assert rows[i + 1] == AssessmentOf(rows, refId).value;
      }
      if rows[0].referenceId == Some(refId) {
        assert rows[0] == AssessmentOf(rows, refId).value;
      }
    }
  }

  /**
   * After an update the reference's assessment is `a` with its overall score,
   * under the stored id or its own, unless the stored id is empty or `a`'s
   * id is already taken.
   */
  lemma AssessedQualityFound(rows: seq<Assessment>, refId: string, a: Assessment)
    requires refId != ""
    requires AssessmentOf(rows, refId).Some? ==> AssessmentOf(rows, refId).value.id != ""
    requires AssessmentOf(rows, refId).None? ==> forall q :: q in rows ==> q.id != a.id
    ensures var id := if AssessmentOf(rows, refId).Some? then AssessmentOf(rows, refId).value.id else a.id;
            AssessmentOf(AssessedQuality(rows, refId, a), refId) == Some(WithOverall(a.(referenceId := Some(refId), id := id)))
  {
    var b := a.(referenceId := Some(refId));
    AssessmentOfIndex(rows, refId);
    var r := AssessedQuality(rows, refId, a);
    AssessmentOfIndex(r, refId);
    if AssessmentOf(rows, refId).Some? {
      var s := AssessmentOf(rows, refId).value;
      var n := WithOverall(b.(id := s.id));
      var i :| 0 <= i < |rows| && rows[i] == s && forall j :: 0 <= j < i ==> rows[j].referenceId != Some(refId);
      assert r[i] == n;
      var k :| 0 <= k < |r| && r[k] == AssessmentOf(r, refId).value && forall j :: 0 <= j < k ==> r[j].referenceId != Some(refId);
      assert k <= i;
      assert r[k] == n;
    } else {
      assert r == rows + [WithOverall(b)];
      assert r[|rows|] == WithOverall(b);
      var k :| 0 <= k < |r| && r[k] == AssessmentOf(r, refId).value && forall j :: 0 <= j < k ==> r[j].referenceId != Some(refId);
      assert k == |rows|;
    }
  }

  /** The reference tables. */
  class ReferenceStore {
    var sources: map<string, SourceRow>
    var quality: seq<Assessment>
    var categoryLinks: seq<(string, string)>
    var links: seq<LinkRow>

    constructor ()
      ensures sources == map[] && quality == [] && categoryLinks == [] && links == []
    {
      sources := map[];
      quality := [];
      categoryLinks := [];
      links := [];
    }

    /**
     * `create_quality_assessment`: needs a connection and a reference id; the
     * stored row has its overall score filled in.
     */
    method CreateQualityAssessment(a: Assessment, connected: bool) returns (id: Option<string>)
      modifies this
      ensures id.Some? <==>
        connected && a.referenceId.Some? && a.referenceId.value != "" &&
        forall q :: q in old(quality) ==> q.id != a.id
      ensures id.Some? ==> id.value == a.id && quality == old(quality) + [WithOverall(a)]
      ensures id.None? ==> quality == old(quality)
      ensures sources == old(sources) && categoryLinks == old(categoryLinks) && links == old(links)
    {
      if !connected || a.referenceId.None? || a.referenceId.value == "" {
        return None;
      }
      if exists q :: q in quality && q.id == a.id {
        return None;
      }
      quality := quality + [WithOverall(a)];
      id := Some(a.id);
    }

    /** `update_quality_assessment`: needs a connection, an id and a stored row with that id. */
    method UpdateQualityAssessment(a: Assessment, connected: bool) returns (ok: bool)
      modifies this
      ensures ok <==> connected && a.id != "" && exists q :: q in old(quality) && q.id == a.id
      ensures ok ==> quality == ReplaceById(old(quality), WithOverall(a))
      ensures !ok ==> quality == old(quality)
      ensures sources == old(sources) && categoryLinks == old(categoryLinks) && links == old(links)
    {
      if !connected || a.id == "" {
        return false;
      }
      if !exists q :: q in quality && q.id == a.id {
        return false;
      }
      quality := ReplaceById(quality, WithOverall(a));
      ok := true;
    }

    /**
     * `update_reference`: refuses when disconnected, without an id or for an
     * unknown reference; otherwise stores the row, replaces its categories and
     * updates its first assessment or creates one.
     */
    method UpdateReference(r: Reference, connected: bool, now: string) returns (ok: bool)
      modifies this, r
      ensures ok <==> connected && old(r.referenceId) != "" && old(r.referenceId) in old(sources)
      ensures !ok ==> unchanged(this) && unchanged(r)
      ensures ok ==> r.updatedAt == now && sources == old(sources)[r.referenceId := r.Row()]
      ensures ok ==> categoryLinks == ReplaceCategories(old(categoryLinks), r.referenceId, r.categories)
      ensures ok && r.quality.None? ==> quality == old(quality)
      ensures ok && r.quality.Some? ==> quality == AssessedQuality(old(quality), r.referenceId, r.quality.value)
      ensures links == old(links)
    {
      if !connected || r.referenceId == "" || r.referenceId !in sources {
        return false;
      }
      r.updatedAt := now;
      sources := sources[r.referenceId := r.Row()];
      categoryLinks := ReplaceCategories(categoryLinks, r.referenceId, r.categories);
      if r.quality.Some? {
        var a := r.quality.value.(referenceId := Some(r.referenceId));
        var stored := AssessmentOf(quality, r.referenceId);
        if stored.Some? {
          var _ := UpdateQualityAssessment(a.(id := stored.value.id), true);
        } else {
          var _ := CreateQualityAssessment(a, true);
        }
      }
      ok := true;
    }

    /** `link_reference_to_content`: an existing link is returned without an insert. */
    method LinkReferenceToContent(contentId: string, refId: string, key: Option<string>, context: Option<string>,
                                  relevance: Option<int>, connected: bool, freshId: string) returns (id: Option<string>)
      modifies this
      ensures !connected ==> id.None? && links == old(links)
      ensures connected ==> (id, links) == Linked(old(links), contentId, refId, key, context, relevance, freshId)
      ensures sources == old(sources) && quality == old(quality) && categoryLinks == old(categoryLinks)
    {
      if !connected {
        return None;
      }
      var e := FirstLink(links, contentId, refId);
      if e.Some? {
        return Some(e.value.id);
      }
      if exists l :: l in links && l.id == freshId {
        return None;
      }
      links := links + [LinkRow(freshId, contentId, refId, OrDefault(key, ""), OrDefault(context, ""), relevance)];
      id := Some(freshId);
    }
  }

  // ---------------------------------------------------------------------------
  // get_references
  // ---------------------------------------------------------------------------

  /** A listed reference: its row, its quality score and its category names. */
  datatype Listed = Listed(row: SourceRow, quality: int, categories: seq<string>)

  /** `quality_scores.get(ref_id, 0)`. */
  function QualityOf(scores: map<string, int>, id: string): (q: int)
    ensures id !in scores ==> q == 0
    ensures id in scores ==> q == scores[id]
  {
    if id in scores then scores[id] else 0
  }

  /** `[category_names.get(c, '') for c in ids if c in category_names]`. */
  function KnownNames(ids: seq<string>, names: map<string, string>): (r: seq<string>)
    ensures |r| <= |ids|
    ensures forall n :: n in r <==> exists c :: c in ids && c in names && names[c] == n
  {
    if ids == [] then []
    else
      var init := ids[..|ids| - 1];
      var c := ids[|ids| - 1];
      assert forall x :: x in ids <==> x in init || x == c;
      KnownNames(init, names) + (if c in names then [names[c]] else [])
  }

  function Annotate(row: SourceRow, scores: map<string, int>, catRows: seq<(string, string)>,
                    names: map<string, string>): Listed
  {
    Listed(row, QualityOf(scores, row.id), KnownNames(CategoryIdsOf(catRows, row.id), names))
  }

  /** The loop adding `quality_score` and `categories` to every row. */
  function Annotated(refs: seq<SourceRow>, scores: map<string, int>, catRows: seq<(string, string)>,
                     names: map<string, string>): (r: seq<Listed>)
    ensures |r| == |refs|
    ensures forall i :: 0 <= i < |refs| ==> r[i] == Annotate(refs[i], scores, catRows, names)
  {
    seq(|refs|, i requires 0 <= i < |refs| => Annotate(refs[i], scores, catRows, names))
  }

  /** The rows' order by title. */
  function TitleLe(a: Listed, b: Listed): bool
  {
    StrLe(a.row.title, b.row.title)
  }

  lemma TitleOrder()
    ensures TotalPreorder(TitleLe)
  {
    forall a: Listed, b: Listed
      ensures TitleLe(a, b) || TitleLe(b, a)
    {
      StrLeTotal(a.row.title, b.row.title);
    }
    forall a: Listed, b: Listed, c: Listed | TitleLe(a, b) && TitleLe(b, c)
      ensures TitleLe(a, c)
    {
      StrLeTrans(a.row.title, b.row.title, c.row.title);
    }
  }

  predicate InCategory(catRows: seq<(string, string)>, category: Option<string>, x: Listed)
  {
    category.None? || category.value == "" || (x.row.id, category.value) in catRows
  }

  predicate MeetsQuality(minQuality: Option<int>, x: Listed)
  {
    minQuality.None? || minQuality.value <= 0 || x.quality >= minQuality.value
  }

  /** The post-processing of `get_references` on the rows its query returned. */
  function ListReferences(refs: seq<SourceRow>, qualityRows: seq<(string, int)>, catRows: seq<(string, string)>,
                          names: map<string, string>, category: Option<string>, minQuality: Option<int>): (r: seq<Listed>)
    ensures |r| <= |refs|
    ensures refs == [] ==> r == []
  {
    if refs == [] then []
    else
      var all := Annotated(refs, ToMap(qualityRows), catRows, names);
      var byCategory := Filter(all, CategoryFilter(catRows, category));
      SortBy(Filter(byCategory, QualityFilter(minQuality)), TitleLe)
  }

  function CategoryFilter(catRows: seq<(string, string)>, category: Option<string>): Listed -> bool
  {
    (x: Listed) => InCategory(catRows, category, x)
  }

  function QualityFilter(minQuality: Option<int>): Listed -> bool
  {
    (x: Listed) => MeetsQuality(minQuality, x)
  }

  /**
   * A listed row is exactly an annotated row that is in the requested
   * category (when one is given) and meets the minimum quality (when it is
   * positive).
   */
  lemma ListingMembers(refs: seq<SourceRow>, qualityRows: seq<(string, int)>, catRows: seq<(string, string)>,
                       names: map<string, string>, category: Option<string>, minQuality: Option<int>, x: Listed)
    requires refs != []
    ensures x in ListReferences(refs, qualityRows, catRows, names, category, minQuality) <==>
      x in Annotated(refs, ToMap(qualityRows), catRows, names) &&
      InCategory(catRows, category, x) && MeetsQuality(minQuality, x)
  {
    var all := Annotated(refs, ToMap(qualityRows), catRows, names);
    var byCategory := Filter(all, CategoryFilter(catRows, category));
    var byQuality := Filter(byCategory, QualityFilter(minQuality));
    assert ListReferences(refs, qualityRows, catRows, names, category, minQuality) == SortBy(byQuality, TitleLe);
    SortByMembers(byQuality, TitleLe, x);
    assert x in byCategory <==> x in all && InCategory(catRows, category, x) by {
      assert CategoryFilter(catRows, category)(x) == InCategory(catRows, category, x);
    }
    assert x in byQuality <==> x in byCategory && MeetsQuality(minQuality, x) by {
      assert QualityFilter(minQuality)(x) == MeetsQuality(minQuality, x);
    }
  }

  /** The listing is ordered by title. */
  lemma ListingSorted(refs: seq<SourceRow>, qualityRows: seq<(string, int)>, catRows: seq<(string, string)>,
                      names: map<string, string>, category: Option<string>, minQuality: Option<int>)
    ensures SortedBy(ListReferences(refs, qualityRows, catRows, names, category, minQuality), TitleLe)
  {
    if refs != [] {
      var all := Annotated(refs, ToMap(qualityRows), catRows, names);
      TitleOrder();
      SortBySorted(Filter(Filter(all, CategoryFilter(catRows, category)), QualityFilter(minQuality)), TitleLe);
    }
  }

  /** The annotating loop, as `Annotated` specifies it. */
  method AnnotateReferences(refs: seq<SourceRow>, scores: map<string, int>, catRows: seq<(string, string)>,
                            names: map<string, string>) returns (r: seq<Listed>)
    ensures r == Annotated(refs, scores, catRows, names)
  {
    r := [];
    var i := 0;
    while i < |refs|
      invariant 0 <= i <= |refs|
      invariant r == Annotated(refs[..i], scores, catRows, names)
    {
      r := r + [Annotate(refs[i], scores, catRows, names)];
      i := i + 1;
    }
    assert refs[..|refs|] == refs;
  }

  // ---------------------------------------------------------------------------
  // get_content_references
  // ---------------------------------------------------------------------------

  /** A reference as linked to one content item. */
  datatype Cited = Cited(row: SourceRow, citationKey: string, citationContext: string, relevance: Option<int>,
                         quality: int, categories: seq<string>)

  /** `x.get('relevance_score') or 0`. */
  function RelevanceOf(c: Cited): int
  {
    if c.relevance.Some? then c.relevance.value else 0
  }

  /** The key `(-relevance, title)`, ascending. */
  function CitedLe(a: Cited, b: Cited): bool
  {
    RelevanceOf(a) > RelevanceOf(b) || (RelevanceOf(a) == RelevanceOf(b) && StrLe(a.row.title, b.row.title))
  }

  lemma CitedOrder()
    ensures TotalPreorder(CitedLe)
  {
    forall a: Cited, b: Cited
      ensures CitedLe(a, b) || CitedLe(b, a)
    {
      StrLeTotal(a.row.title, b.row.title);
    }
    forall a: Cited, b: Cited, c: Cited | CitedLe(a, b) && CitedLe(b, c)
      ensures CitedLe(a, c)
    {
      if RelevanceOf(a) == RelevanceOf(b) == RelevanceOf(c) {
        StrLeTrans(a.row.title, b.row.title, c.row.title);
      }
    }
  }

  function CitedOf(row: SourceRow, citation: map<string, LinkRow>, scores: map<string, int>,
                   catRows: seq<(string, string)>, names: map<string, string>): Cited
  {
    var l := if row.id in citation then Some(citation[row.id]) else None;
    Cited(row,
          if l.Some? then l.value.citationKey else "",
          if l.Some? then l.value.citationContext else "",
          if l.Some? then l.value.relevance else None,
          QualityOf(scores, row.id),
          KnownNames(CategoryIdsOf(catRows, row.id), names))
  }

  /**
   * `get_content_references` on the link table and the reference rows its
   * `in_` query returned: no link or no row gives [].
   */
  function ContentReferences(contentId: string, links: seq<LinkRow>, refs: seq<SourceRow>,
                             qualityRows: seq<(string, int)>, catRows: seq<(string, string)>,
                             names: map<string, string>): (r: seq<Cited>)
    ensures |r| <= |refs|
    ensures Filter(links, OfContent(contentId)) == [] || refs == [] ==> r == []
    ensures Filter(links, OfContent(contentId)) != [] && refs != [] ==>
      multiset(r) == multiset(CitedAll(refs, Citations(Filter(links, OfContent(contentId))), ToMap(qualityRows), catRows, names))
  {
    var mine := Filter(links, OfContent(contentId));
    if mine == [] || refs == [] then []
    else SortBy(CitedAll(refs, Citations(mine), ToMap(qualityRows), catRows, names), CitedLe)
  }

  function OfContent(contentId: string): LinkRow -> bool
  {
    (l: LinkRow) => l.contentId == contentId
  }

  /** `{ref['reference_id']: ref for ref in content_refs}`. */
  function Citations(links: seq<LinkRow>): map<string, LinkRow>
  {
    ToMap(seq(|links|, i requires 0 <= i < |links| => (links[i].referenceId, links[i])))
  }

  function CitedAll(refs: seq<SourceRow>, citation: map<string, LinkRow>, scores: map<string, int>,
                    catRows: seq<(string, string)>, names: map<string, string>): (r: seq<Cited>)
    ensures |r| == |refs|
  {
    seq(|refs|, i requires 0 <= i < |refs| => CitedOf(refs[i], citation, scores, catRows, names))
  }

  /**
   * Each content reference is a returned row, annotated with its quality
   * score, its category names and the fields of the content's link to it.
   */
  lemma ContentReferencesStored(contentId: string, links: seq<LinkRow>, refs: seq<SourceRow>,
                                qualityRows: seq<(string, int)>, catRows: seq<(string, string)>,
                                names: map<string, string>, c: Cited)
    requires c in ContentReferences(contentId, links, refs, qualityRows, catRows, names)
    ensures c.row in refs
    ensures c == CitedOf(c.row, Citations(Filter(links, OfContent(contentId))), ToMap(qualityRows), catRows, names)
    ensures c.quality == QualityOf(ToMap(qualityRows), c.row.id)
    ensures c.categories == KnownNames(CategoryIdsOf(catRows, c.row.id), names)
  {
    var all := CitedAll(refs, Citations(Filter(links, OfContent(contentId))), ToMap(qualityRows), catRows, names);
    var r := ContentReferences(contentId, links, refs, qualityRows, catRows, names);
    assert c in multiset(r);
    assert c in all;
    var i :| 0 <= i < |all| && all[i] == c;
  }

  /** Content references come by descending relevance (none counts as 0), then by title. */
  lemma ContentReferencesOrdered(contentId: string, links: seq<LinkRow>, refs: seq<SourceRow>,
                                 qualityRows: seq<(string, int)>, catRows: seq<(string, string)>,
                                 names: map<string, string>, i: int, j: int)
    requires var r := ContentReferences(contentId, links, refs, qualityRows, catRows, names); 0 <= i < j < |r|
    ensures var r := ContentReferences(contentId, links, refs, qualityRows, catRows, names);
      RelevanceOf(r[i]) >= RelevanceOf(r[j]) &&
      (RelevanceOf(r[i]) == RelevanceOf(r[j]) ==> StrLe(r[i].row.title, r[j].row.title))
  {
    var mine := Filter(links, OfContent(contentId));
    CitedOrder();
    SortBySorted(CitedAll(refs, Citations(mine), ToMap(qualityRows), catRows, names), CitedLe);
  }

  // ---------------------------------------------------------------------------
  // search_references
  // ---------------------------------------------------------------------------

  /** `rank_reference`'s title score. */
  function TitleScore(title: string, query: string): (s: int)
    ensures s == 100 <==> Lower(title) == Lower(query)
    ensures s == 75 <==> Lower(title) != Lower(query) && StartsWith(Lower(title), Lower(query))
    ensures s == 50 <==> !StartsWith(Lower(title), Lower(query)) && Contains(Lower(title), Lower(query))
    ensures s == 25 <==> !Contains(Lower(title), Lower(query))
  {
    var t, q := Lower(title), Lower(query);
    if t == q then assert OccursAt(t, q, 0); 100
    else if StartsWith(t, q) then assert OccursAt(t, q, 0); 75
    else if Contains(t, q) then 50
    else 25
  }

  /** A search hit with its quality score. */
  datatype Hit = Hit(row: SourceRow, quality: int)

  /** The key `(title_score, quality)`, descending. */
  function RankLe(query: string): (Hit, Hit) -> bool
  {
    (a: Hit, b: Hit) =>
      TitleScore(a.row.title, query) > TitleScore(b.row.title, query) ||
      (TitleScore(a.row.title, query) == TitleScore(b.row.title, query) && a.quality >= b.quality)
  }

  lemma RankOrder(query: string)
    ensures TotalPreorder(RankLe(query))
  {
  }

  /** The post-processing of `search_references` on the rows its query returned. */
  function SearchReferences(query: string, refs: seq<SourceRow>, qualityRows: seq<(string, int)>): (r: seq<Hit>)
    ensures |r| == |refs|
  {
    SortBy(Hits(refs, ToMap(qualityRows)), RankLe(query))
  }

  function Hits(refs: seq<SourceRow>, scores: map<string, int>): (r: seq<Hit>)
    ensures |r| == |refs|
    ensures forall i :: 0 <= i < |refs| ==> r[i].row == refs[i]
  {
    seq(|refs|, i requires 0 <= i < |refs| => Hit(refs[i], QualityOf(scores, refs[i].id)))
  }

  /** Hits come by descending title score, ties by descending quality. */
  lemma SearchOrdered(query: string, refs: seq<SourceRow>, qualityRows: seq<(string, int)>, i: int, j: int)
    requires 0 <= i < j < |refs|
    ensures var r := SearchReferences(query, refs, qualityRows);
      TitleScore(r[i].row.title, query) >= TitleScore(r[j].row.title, query) &&
      (TitleScore(r[i].row.title, query) == TitleScore(r[j].row.title, query) ==> r[i].quality >= r[j].quality)
  {
    RankOrder(query);
    SortBySorted(Hits(refs, ToMap(qualityRows)), RankLe(query));
  }

  /** Every hit is one of the rows, each row once. */
  lemma SearchKeepsRows(query: string, refs: seq<SourceRow>, qualityRows: seq<(string, int)>)
    ensures forall h :: h in SearchReferences(query, refs, qualityRows) ==> h.row in refs
  {
    var hits := Hits(refs, ToMap(qualityRows));
    forall h | h in SearchReferences(query, refs, qualityRows)
      ensures h.row in refs
    {
      SortByMembers(hits, RankLe(query), h);
      var k :| 0 <= k < |hits| && hits[k] == h;
    }
  }

  // ---------------------------------------------------------------------------
  // get_reference_statistics
  // ---------------------------------------------------------------------------

  datatype Stats = Stats(total: nat, uniqueTypes: nat, avgQuality: real, linkedContent: nat,
                         typeBreakdown: seq<(string, nat)>, categoryBreakdown: seq<(string, nat)>)

  const ZeroStats := Stats(0, 0, 0.0, 0, [], [])

  /** The breakdown order: count descending. */
  function CountLe(a: (string, nat), b: (string, nat)): bool
  {
    a.1 >= b.1
  }

  /** `[ref.get('reference_type') for ref in references if ref.get('reference_type')]`. */
  function TypesOf(types: seq<Option<string>>): (r: seq<string>)
    ensures |r| <= |types|
  {
    if types == [] then []
    else
      var t := types[|types| - 1];
      TypesOf(types[..|types| - 1]) + (if t.Some? && t.value != "" then [t.value] else [])
  }

  /** The scores that are not None. */
  function Present(scores: seq<Option<int>>): (r: seq<int>)
    ensures |r| <= |scores|
  {
    if scores == [] then []
    else
      var s := scores[|scores| - 1];
      Present(scores[..|scores| - 1]) + (if s.Some? then [s.value] else [])
  }

  function Sum(xs: seq<int>): int
  {
    if xs == [] then 0 else Sum(xs[..|xs| - 1]) + xs[|xs| - 1]
  }

  /** The names of the category rows whose id has a known name. */
  function NamedCategories(catIds: seq<string>, catNames: map<string, string>): seq<string>
  {
    KnownNames(catIds, catNames)
  }

  /**
   * `get_reference_statistics` on the active references, their quality
   * scores, the content ids of all links and the category ids of their rows.
   */
  function Statistics(types: seq<Option<string>>, overall: seq<Option<int>>, linkedContentIds: seq<string>,
                      catIds: seq<string>, catNames: map<string, string>): (s: Stats)
    ensures types == [] ==> s == ZeroStats
    ensures types != [] ==> s.total == |types| && s.uniqueTypes <= |TypesOf(types)|
  {
    if types == [] then ZeroStats
    else
      var ts := TypesOf(types);
      var scores := Present(overall);
      var avg := if scores == [] then 0.0 else (Sum(scores) as real) / (|scores| as real);
      CardinalityAtMostLength(ts);
      Stats(|types|, |set t | t in ts|, avg, |set c | c in linkedContentIds|,
            SortBy(Counts(ts), CountLe), SortBy(Counts(NamedCategories(catIds, catNames)), CountLe))
  }

  lemma {:induction false} CardinalityAtMostLength(xs: seq<string>)
    ensures |set x | x in xs| <= |xs|
  {
    if xs != [] {
      var init := xs[..|xs| - 1];
      CardinalityAtMostLength(init);
      assert (set x | x in xs) == (set x | x in init) + {xs[|xs| - 1]};
    }
  }

  /**
   * The type breakdown's counts add up to the number of typed references, it
   * is ordered by count, descending, and so is the category breakdown.
   */
  lemma BreakdownsAddUp(types: seq<Option<string>>, overall: seq<Option<int>>, linkedContentIds: seq<string>,
                        catIds: seq<string>, catNames: map<string, string>)
    requires types != []
    ensures var s := Statistics(types, overall, linkedContentIds, catIds, catNames);
      Total(s.typeBreakdown) == |TypesOf(types)| &&
      Total(s.categoryBreakdown) == |NamedCategories(catIds, catNames)| &&
      SortedBy(s.typeBreakdown, CountLe) && SortedBy(s.categoryBreakdown, CountLe)
  {
    var ts := TypesOf(types);
    var ns := NamedCategories(catIds, catNames);
    CountsTotal(ts);
    SortByTotal(Counts(ts), CountLe);
    CountsTotal(ns);
    SortByTotal(Counts(ns), CountLe);
    SortBySorted(Counts(ts), CountLe);
    SortBySorted(Counts(ns), CountLe);
  }

  /** The `type_breakdown` loop, as `Counts` specifies it. */
  method TypeBreakdown(types: seq<string>) returns (r: seq<(string, nat)>)
    ensures r == Counts(types)
    ensures Total(r) == |types|
  {
    r := [];
    var i := 0;
    while i < |types|
      invariant 0 <= i <= |types|
      invariant r == Counts(types[..i])
    {
      assert types[..i + 1][..i] == types[..i];
      r := Bump(r, types[i]);
      i := i + 1;
    }
    assert types[..|types|] == types;
    CountsTotal(types);
  }
}
