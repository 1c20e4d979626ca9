/**
 * `reference_management/reference_importer.py`: the first import script, with
 * its own simpler extraction. Its author, title and publication patterns
 * (`^([^\.]+)\.`, `\(\d{4}\)\.\s+([^\.]+)\.`, `^[^\.]+\.\s+([^\.]+)\.` and
 * `\.\s+([^\.]+)\.\s+(?:https?|doi|Retrieved)`) are written out as scanners;
 * `[^\.]` is any character but a dot, newlines included.
 */
module ReferenceImporter {
  import opened Wrappers
  import opened StrUtil
  import opened Items
  import opened CitationText
  import opened ReferenceImport

  /** Group 1 of each of the four patterns, when it matches. */
  datatype PlainCaptures = PlainCaptures(
    author: Option<string>,      // ^([^\.]+)\.
    title: Option<string>,       // \(\d{4}\)\.\s+([^\.]+)\.
    altTitle: Option<string>,    // ^[^\.]+\.\s+([^\.]+)\.
    publication: Option<string>) // \.\s+([^\.]+)\.\s+(?:https?|doi|Retrieved)

  datatype PlainReference = PlainReference(authors: string, publicationDate: Option<string>, title: string,
                                           publicationName: string, url: Option<string>, referenceType: string)

  const Unknown := "Unknown"

  /** The first dot at or after `j`. */
  function DotFrom(s: string, j: nat): (d: Option<nat>)
    ensures d.Some? ==> j <= d.value < |s| && s[d.value] == '.'
    ensures forall k :: j <= k < (if d.Some? then d.value else |s|) ==> s[k] != '.'
    decreases |s| - j
  {
    if j >= |s| then None else if s[j] == '.' then Some(j) else DotFrom(s, j + 1)
  }

  /** `^([^\.]+)\.`: everything before the first dot, if that is not empty. */
  function AuthorGroup(s: string): (r: Option<string>)
    ensures r.Some? ==> 1 <= |r.value| < |s| && s[..|r.value|] == r.value && s[|r.value|] == '.'
    ensures r.Some? ==> forall k :: 0 <= k < |r.value| ==> r.value[k] != '.'
    ensures r.None? <==> s == [] || s[0] == '.' || forall k :: 0 <= k < |s| ==> s[k] != '.'
  {
    match DotFrom(s, 0)
    case Some(d) => if d >= 1 then Some(s[..d]) else None
    case None => None
  }

  /**
   * `\s+([^\.]+)\.` at `j`: the group's start and its closing dot. The greedy
   * `\s+` takes the whole blank run, and the group then runs to the next
   * dot; when a dot comes right after the blanks, `\s+` gives back one blank,
   * which becomes the group.
   */
  function SpacedGroup(s: string, j: nat): (r: Option<(nat, nat)>)
    ensures r.Some? ==> j < r.value.0 < r.value.1 < |s| && s[r.value.1] == '.'
    ensures r.Some? ==> forall k :: r.value.0 <= k < r.value.1 ==> s[k] != '.'
    ensures r.Some? ==> forall k :: j <= k < r.value.0 ==> IsSpace(s[k])
  {
    if j < |s| && IsSpace(s[j]) then
      var e := SpaceRunEnd(s, j);
      if e < |s| && s[e] != '.' then
        match DotFrom(s, e)
        case Some(d) => Some((e, d))
        case None => None
      else if e < |s| && e >= j + 2 then Some((e - 1, e))
      else None
    else None
  }

  /** The group text of a `SpacedGroup` match. */
  function GroupText(s: string, g: Option<(nat, nat)>): (r: Option<string>)
    requires g.Some? ==> g.value.0 <= g.value.1 <= |s|
    ensures r.Some? <==> g.Some?
  {
    if g.Some? then Some(s[g.value.0..g.value.1]) else None
  }

  /** The title pattern matches at `i`: `\(\d{4}\)\.` and then the spaced group. */
  predicate TitleMatchAt(s: string, i: nat)
  {
    i + 7 <= |s| && s[i] == '(' && AllDigits(s[i + 1..i + 5]) && s[i + 5] == ')' && s[i + 6] == '.'
    && SpacedGroup(s, i + 7).Some?
  }

  /** The leftmost title match at or after `i`. */
  function TitleFrom(s: string, i: nat): (r: Option<string>)
    decreases |s| - i
  {
    if i + 7 > |s| then None
    else if TitleMatchAt(s, i) then GroupText(s, SpacedGroup(s, i + 7))
    else TitleFrom(s, i + 1)
  }

  /** Positions where the title pattern fails are skipped. */
  lemma {:induction false} TitleFromSkips(s: string, i: nat, p: nat)
    requires i <= p && forall q :: i <= q < p ==> !TitleMatchAt(s, q)
    requires TitleMatchAt(s, p)
    ensures TitleFrom(s, i) == TitleFrom(s, p)
    decreases p - i
  {
    if i < p {
      TitleFromSkips(s, i + 1, p);
    }
  }

  /** `^[^\.]+\.\s+([^\.]+)\.`: the spaced group after the first sentence. */
  function AltTitleGroup(s: string): (r: Option<string>)
    ensures r.Some? ==> AuthorGroup(s).Some?
  {
    match DotFrom(s, 0)
    case Some(d) => if d >= 1 then GroupText(s, SpacedGroup(s, d + 1)) else None
    case None => None
  }

  /** `(?:https?|doi|Retrieved)` at `e` in the lower-cased text `lt`. */
  predicate LinkWordAt(lt: string, e: nat)
  {
    e <= |lt| && (StartsWith(lt[e..], "http") || StartsWith(lt[e..], "doi") || StartsWith(lt[e..], "retrieved"))
  }

  /** The publication pattern at `p`: a dot, the spaced group, a dot, blanks and a link word. */
  function PublicationAt(s: string, lt: string, p: nat): (r: Option<string>)
    requires |lt| == |s|
    ensures r.Some? ==> p < |s| && s[p] == '.'
  {
    if p < |s| && s[p] == '.' then
      match SpacedGroup(s, p + 1)
      case Some((a, d)) =>
        if d + 1 < |s| && IsSpace(s[d + 1]) && LinkWordAt(lt, SpaceRunEnd(s, d + 1)) then Some(s[a..d]) else None
      case None => None
    else None
  }

  /** The leftmost publication match at or after `i`. */
  function PublicationFrom(s: string, lt: string, i: nat): (r: Option<string>)
    requires |lt| == |s|
    decreases |s| - i
  {
    if i >= |s| then None
    else if PublicationAt(s, lt, i).Some? then PublicationAt(s, lt, i)
    else PublicationFrom(s, lt, i + 1)
  }

  /** Group 1 of each pattern in `text`; the publication pattern ignores case. */
  function PlainCapturesOf(text: string): (c: PlainCaptures)
    ensures c.author.Some? ==> '.' !in c.author.value && StartsWith(text, c.author.value + ".")
    ensures c.altTitle.Some? ==> c.author.Some?
  {
    var author := AuthorGroup(text);
    assert author.Some? ==> text[..|author.value| + 1] == author.value + ".";
    PlainCaptures(author, TitleFrom(text, 0), AltTitleGroup(text), PublicationFrom(text, Lower(text), 0))
  }

  /** `group(1).strip() if match else default`. */
  function StrippedOr(g: Option<string>, default: string): string
  {
    if g.Some? then Strip(g.value) else default
  }

  /** `extract_reference_from_text`; the text is used as given, not stripped. */
  function ExtractReference(text: string): (r: PlainReference)
    ensures r.referenceType == "Article"
    ensures AuthorGroup(text).Some? ==> r.authors == Strip(AuthorGroup(text).value)
    ensures AuthorGroup(text).None? ==> r.authors == Unknown
  {
    var c := PlainCapturesOf(text);
    var year := Year(text, false);
    PlainReference(
      StrippedOr(c.author, Unknown),
      if year.Some? then Some(year.value + "-01-01") else None,
      if c.title.Some? then Strip(c.title.value) else StrippedOr(c.altTitle, Prefix(text, 100)),
      StrippedOr(c.publication, Unknown),
      Url(text, false),
      "Article")
  }

  /**
   * The date is "YYYY-01-01" exactly when a four-digit year occurs in
   * parentheses: a text with such a year always has a date, and a date's year
   * is one the text holds.
   */
  lemma DateIffParenthesisedYear(text: string)
    ensures var d := ExtractReference(text).publicationDate;
      && (d.Some? ==> |d.value| == 10 && d.value[4..] == "-01-01" && Contains(text, "(" + d.value[..4] + ")"))
      && (forall i :: 0 <= i && i + 6 <= |text| && text[i] == '(' && AllDigits(text[i + 1..i + 5]) && text[i + 5] == ')'
            ==> d.Some?)
  {
    var d := ExtractReference(text).publicationDate;
    var y := Year(text, false);
    if y.Some? {
      assert |y.value| == 4;
      assert d.value[..4] == y.value;
    }
    forall i | 0 <= i && i + 6 <= |text| && text[i] == '(' && AllDigits(text[i + 1..i + 5]) && text[i + 5] == ')'
      ensures d.Some?
    {
      YearFound(text, i, false);
    }
  }

  /** Without a dot from `i` on, neither the title nor the publication pattern matches there. */
  lemma {:induction false} NoDotNoMatch(s: string, i: nat)
    requires forall k :: i <= k < |s| ==> s[k] != '.'
    ensures TitleFrom(s, i).None? && PublicationFrom(s, Lower(s), i).None?
    decreases |s| - i
  {
    if i < |s| {
      NoDotNoMatch(s, i + 1);
    }
  }

  /** Without a dot no pattern but the year's matches: the author and publication are unknown and the title is the first 100 characters. */
  lemma TitleFallback(text: string)
    requires '.' !in text
    ensures var r := ExtractReference(text);
      && r.authors == Unknown && r.publicationName == Unknown
      && |r.title| == (if |text| < 100 then |text| else 100) && StartsWith(text, r.title)
  {
    NoDotNoMatch(text, 0);
  }

  /**
   * In the documented layout `Author. (Year). Title. ...` the title is the
   * text between "(Year). " and the next dot, stripped.
   */
  lemma TitleAfterYear(text: string, p: nat, d: nat)
    requires p + 8 < d < |text| && text[p] == '(' && AllDigits(text[p + 1..p + 5]) && text[p + 5] == ')'
    requires text[p + 6] == '.' && text[p + 7] == ' ' && !IsSpace(text[p + 8]) && text[d] == '.'
    requires forall k :: p + 8 <= k < d ==> text[k] != '.'
    requires forall q :: 0 <= q < p ==> !TitleMatchAt(text, q)
    ensures ExtractReference(text).title == Strip(text[p + 8..d])
  {
    assert SpaceRunEnd(text, p + 8) == p + 8;
    assert text[p + 8] != '.';
    var dot := DotFrom(text, p + 8);
    assert dot == Some(d) by { DotFromFirst(text, p + 8, d); }
    assert SpacedGroup(text, p + 7) == Some((p + 8, d));
    TitleFromSkips(text, 0, p);
  }

  /** The first dot from `j` is the one at `d` when none comes before it. */
  lemma {:induction false} DotFromFirst(s: string, j: nat, d: nat)
    requires j <= d < |s| && s[d] == '.' && forall k :: j <= k < d ==> s[k] != '.'
    ensures DotFrom(s, j) == Some(d)
    decreases d - j
  {
    if j < d {
      DotFromFirst(s, j + 1, d);
    }
  }

  /** `extract_references_from_content`: no "Citations" header and no `*` bullets in this version. */
  function ExtractReferences(content: string): (r: seq<string>)
    ensures forall k :: 0 <= k < |r| ==> r[k] != "" && Strip(r[k]) == r[k]
  {
    ReferenceItems(content, HeadersWithoutCitations, false)
  }

  lemma NoHeaderNothing(content: string)
    requires forall h :: h in HeadersWithoutCitations ==> !Contains(Lower(content), h)
    ensures ExtractReferences(content) == []
  {
    NoHeaderNoItems(content, HeadersWithoutCitations, false);
  }

  /** The title the loop compares for one reference text. */
  function PlainTitle(t: string): string
  {
    ExtractReference(t).title
  }

  function TitleOf(): string -> string
  {
    t => PlainTitle(t)
  }

  function Extract(): string -> seq<string>
  {
    t => ExtractReferences(t)
  }

  function Plain(): Importer
  {
    Importer(Extract(), TitleOf(), false)
  }

  /**
   * `import_references_from_database`. The existing references are dicts, and
   * `ref.title` on a dict raises `AttributeError`, so the run fails before the
   * loop whenever any reference exists; with none, it imports.
   */
  method ImportReferencesFromDatabase(outputs: seq<Item>, existing: seq<Item>, linkedBefore: set<string>,
                                      db: Db) returns (r: Result<nat, string>)
    ensures existing != [] <==> r.Err?
    ensures r.Ok? ==> r.value == Import(outputs, [], linkedBefore, Plain(), db).imported
    ensures r.Ok? ==> r.value == |Import(outputs, [], linkedBefore, Plain(), db).links|
  {
    if existing != [] {
      return Err("AttributeError: 'dict' object has no attribute 'title'");
    }
    var plain := Plain();
    var st := ImportReferences(outputs, [], linkedBefore, plain, db);
    ImportInvariants(outputs, [], linkedBefore, plain, db);
    r := Ok(st.imported);
  }
}
