/**
 * `reference_management/improved_reference_extractor.py`: turning one
 * citation string into reference fields, and cutting a generated article's
 * references section into citation strings.
 *
 * The year, URL, header and separator patterns are scanned by CitationText.
 * The author, title, sentence, name and publication patterns are lazy or
 * nested and are not scanned here: what they capture in a text is a
 * `Captures` value supplied with it, and the model states the decisions the
 * function takes around those captures.
 */
module ImprovedReferenceExtractor {
  import opened Wrappers
  import opened StrUtil
  import opened CitationText

  /** A match object of a pattern not scanned here: groups 1.. and `lastindex`. */
  datatype Match = Match(groups: seq<Option<string>>, lastIndex: int)

  /** `m.group(k)`, with an out-of-range group number read as no text (the code catches the `IndexError`). */
  function Group(m: Match, k: int): (r: Option<string>)
    ensures r.Some? ==> 1 <= k <= |m.groups| && m.groups[k - 1] == r
  {
    if 1 <= k <= |m.groups| then m.groups[k - 1] else None
  }

  /** What the patterns not scanned here capture in one citation. */
  datatype Captures = Captures(
    author: Option<string>,      // group 1 of ^([^\(\.]+?(et al\.)?)[,\.]
    apaTitle: Option<string>,    // group 1 of \(\d{4}[a-z]?\)\.?\s+([^\.]+(\.[^\.]*)?)\.
    otherTitle: Option<string>,  // group 2 of ^[^\.]+?(et al\.)?\.\s+([^\.]+(\.[^\.]*)?)\.
    pubAfterYear: Option<Match>, // the publication pattern after the year and title
    pubBeforeUrl: Option<Match>, // the publication pattern before a URL or DOI
    sentence: Option<string>,    // group 1 of ^([^\.]+(\.[^\.]*)?)[\s\.]
    name: Option<string>)        // group 1 of ^([A-Z][a-z]+(\s[A-Z][a-z]+)+)

  /** The returned dict; `content` is the key that short texts do not get. */
  datatype Extracted = Extracted(authors: string, publicationDate: Option<string>, title: string,
                                 publicationName: string, url: Option<string>, referenceType: string,
                                 content: Option<string>)

  const ShortLength := 50
  const MaxTitle := 255
  const Unknown := "Unknown"

  /** `re.search(r'\((\d{4})\)|doi:|https?://|Retrieved from', text, re.IGNORECASE)`. */
  predicate Structured(text: string)
  {
    var lt := Lower(text);
    Year(text, false).Some? || Contains(lt, "doi:") || Contains(lt, "http://") || Contains(lt, "https://")
    || Contains(lt, "retrieved from")
  }

  /** A parenthesised four-digit year makes a text structured. */
  lemma YearMakesStructured(text: string, i: nat)
    requires i + 6 <= |text| && text[i] == '(' && AllDigits(text[i + 1..i + 5]) && text[i + 5] == ')'
    ensures Structured(text)
  {
    YearFound(text, i, false);
  }

  /** `f"{year}-01-01" if year and len(year) == 4 else None`. */
  function PublicationDate(year: Option<string>): (r: Option<string>)
    ensures r.Some? <==> year.Some? && |year.value| == 4
    ensures r.Some? ==> r.value == year.value + "-01-01"
  {
    if year.Some? && |year.value| == 4 then Some(year.value + "-01-01") else None
  }

  /** `text[:100].split('. ')[1] if '. ' in text[:100] else text[:100]`. */
  function FallbackTitle(text: string): (r: string)
    ensures |r| <= 100
  {
    var head := Prefix(text, 100);
    var i := Find(head, ". ");
    if i >= 0 then
      var parts := Split(head, ". ");
      assert parts == [head[..i]] + Split(head[i + 2..], ". ");
      assert |Split(head[i + 2..], ". ")[0]| <= |head[i + 2..]| by {
        PieceShorter(head[i + 2..], ". ");
      }
      parts[1]
    else head
  }

  /** The first piece of a split is no longer than the text. */
  lemma PieceShorter(s: string, sep: string)
    requires |sep| > 0
    ensures |Split(s, sep)[0]| <= |s|
  {
  }

  /**
   * The publication name: the after-year pattern is tried only when a year
   * matched, the before-URL pattern otherwise or when that fails; then
   * `group(lastindex - 1)` is taken when `lastindex > 1`, and a missing group
   * (the `AttributeError` of `None.strip()`) leaves "Unknown".
   */
  function Publication(year: Option<string>, c: Captures): string
  {
    var first := if year.Some? then c.pubAfterYear else None;
    var m := if first.Some? then first else c.pubBeforeUrl;
    if m.Some? && m.value.lastIndex > 1 then
      match Group(m.value, m.value.lastIndex - 1)
      case Some(g) => Strip(g)
      case None => Unknown
    else Unknown
  }

  /**
   * A publication name needs a match whose `lastindex` exceeds 1: without a
   * year only the before-URL match counts, and when its last closed group is
   * group 1 the name stays "Unknown".
   */
  lemma PublicationNeedsLastIndex(year: Option<string>, c: Captures)
    requires year.None? || c.pubAfterYear.None?
    requires c.pubBeforeUrl.Some? ==> c.pubBeforeUrl.value.lastIndex <= 1
    ensures Publication(year, c) == Unknown
  {
  }

  /** The reference-type cues on the lowered text, in the order the code tries them. */
  const TypeCues: seq<(seq<string>, string)> := [
    (["journal", "proceedings"], "Journal Article"),
    (["book", "chapter"], "Book"),
    (["conference"], "Conference Paper"),
    (["thesis", "dissertation"], "Thesis"),
    (["report", "technical"], "Report")]

  /** The reference type of a structured citation: the code's if-chain, word for word. */
  function ReferenceType(text: string, url: Option<string>): string
  {
    var lt := Lower(text);
    if Contains(lt, "journal") || Contains(lt, "proceedings") then "Journal Article"
    else if Contains(lt, "book") || Contains(lt, "chapter") then "Book"
    else if Contains(lt, "conference") then "Conference Paper"
    else if Contains(lt, "thesis") || Contains(lt, "dissertation") then "Thesis"
    else if Contains(lt, "report") || Contains(lt, "technical") then "Report"
    else if url.Some? && (Contains(Lower(url.value), "wikipedia") || Contains(Lower(url.value), "wiki")) then "Encyclopedia"
    else if url.Some? then "Website"
    else "Article"
  }

  predicate AnyIn(lt: string, words: seq<string>)
  {
    words != [] && (Contains(lt, words[0]) || AnyIn(lt, words[1..]))
  }

  /** The type of the first cue row with a word in the text. */
  function FirstCue(lt: string, cues: seq<(seq<string>, string)>): Option<string>
  {
    if cues == [] then None
    else if AnyIn(lt, cues[0].0) then Some(cues[0].1)
    else FirstCue(lt, cues[1..])
  }

  lemma AnyInPair(lt: string, a: string, b: string)
    ensures AnyIn(lt, [a, b]) == (Contains(lt, a) || Contains(lt, b))
  {
    var w := [a, b];
    assert w[0] == a && w[1..] == [b];
    assert [b][0] == b && [b][1..] == [];
    assert AnyIn(lt, [b]) == (Contains(lt, b) || AnyIn(lt, []));
    assert AnyIn(lt, w) == (Contains(lt, a) || AnyIn(lt, [b]));
  }

  /** A text that holds "wikipedia" holds "wiki". */
  lemma WikipediaHasWiki(s: string)
    requires Contains(s, "wikipedia")
    ensures Contains(s, "wiki")
  {
    var i := Find(s, "wikipedia");
    assert s[i..i + 4] == s[i..i + 9][..4];
    ContainsAt(s, "wiki", i);
  }

  /**
   * The type is the one of the first cue row whose word occurs, and only
   * without any cue does the URL decide: a wiki URL is an encyclopedia, any
   * other URL a website, and no URL an article.
   */
  lemma ReferenceTypeByCues(text: string, url: Option<string>)
    ensures ReferenceType(text, url) ==
      match FirstCue(Lower(text), TypeCues)
      case Some(kind) => kind
      case None =>
        if url.Some? && Contains(Lower(url.value), "wiki") then "Encyclopedia"
        else if url.Some? then "Website"
        else "Article"
  {
    var lt := Lower(text);
    var c := TypeCues;
    assert c[1..][1..][1..][1..][1..] == [];
    assert c[1..][0] == c[1] && c[1..][1..][0] == c[2] && c[1..][1..][1..][0] == c[3];
    assert c[1..][1..][1..][1..][0] == c[4];
    AnyInPair(lt, "journal", "proceedings");
    AnyInPair(lt, "book", "chapter");
    assert AnyIn(lt, c[2].0) == Contains(lt, "conference") by {
      assert c[2].0[1..] == [];
    }
    AnyInPair(lt, "thesis", "dissertation");
    AnyInPair(lt, "report", "technical");
    var f := FirstCue(lt, c);
    assert f == if AnyIn(lt, c[0].0) then Some(c[0].1) else FirstCue(lt, c[1..]);
    assert FirstCue(lt, c[1..]) == if AnyIn(lt, c[1].0) then Some(c[1].1) else FirstCue(lt, c[1..][1..]);
    assert FirstCue(lt, c[1..][1..]) ==
      if AnyIn(lt, c[2].0) then Some(c[2].1) else FirstCue(lt, c[1..][1..][1..]);
    assert FirstCue(lt, c[1..][1..][1..]) ==
      if AnyIn(lt, c[3].0) then Some(c[3].1) else FirstCue(lt, c[1..][1..][1..][1..]);
    assert FirstCue(lt, c[1..][1..][1..][1..]) ==
      if AnyIn(lt, c[4].0) then Some(c[4].1) else FirstCue(lt, c[1..][1..][1..][1..][1..]);
    if url.Some? && Contains(Lower(url.value), "wikipedia") {
      WikipediaHasWiki(Lower(url.value));
    }
  }

  predicate Quote(c: char)
  {
    c == '"' || c == '\''
  }

  predicate NoNewline(s: string)
  {
    forall k :: 0 <= k < |s| ==> s[k] != '\n'
  }

  /**
   * `re.sub(r'^["\'](.+)["\']$', r'\1', title)`: `.` stops at a line break and
   * `$` also matches before a final line break, which then stays.
   */
  function Unquote(t: string): (r: string)
    ensures |r| <= |t|
  {
    if |t| >= 3 && Quote(t[0]) && Quote(t[|t| - 1]) && NoNewline(t[1..|t| - 1]) then t[1..|t| - 1]
    else if |t| >= 4 && t[|t| - 1] == '\n' && Quote(t[0]) && Quote(t[|t| - 2]) && NoNewline(t[1..|t| - 2]) then
      t[1..|t| - 2] + "\n"
    else t
  }

  /** A one-line text wrapped in quotes loses exactly the quotes. */
  lemma UnquoteWrapped(q1: char, m: string, q2: char)
    requires Quote(q1) && Quote(q2) && m != [] && NoNewline(m)
    ensures Unquote([q1] + m + [q2]) == m
  {
    var t := [q1] + m + [q2];
    assert t[1..|t| - 1] == m;
  }

  /** A text that does not start with a quote is kept. */
  lemma UnquoteUnquoted(t: string)
    requires t == [] || !Quote(t[0])
    ensures Unquote(t) == t
  {
  }

  /** `title[:252] + '...' if len(title) > 255 else title`. */
  function Truncate(t: string): (r: string)
    ensures |r| <= MaxTitle
    ensures |t| <= MaxTitle ==> r == t
    ensures |t| > MaxTitle ==> |r| == MaxTitle && r[..252] == t[..252] && EndsWith(r, "...")
  {
    if |t| > MaxTitle then t[..252] + "..." else t
  }

  /** The title of a structured citation before quote removal and truncation. */
  function StructuredTitle(text: string, c: Captures): string
  {
    if c.apaTitle.Some? then Strip(c.apaTitle.value)
    else if c.otherTitle.Some? then Strip(c.otherTitle.value)
    else FallbackTitle(text)
  }

  /** `extract_reference_from_text`. */
  function ExtractReference(raw: string, c: Captures): (r: Extracted)
    ensures |r.title| <= MaxTitle
  {
    var text := Strip(raw);
    if |text| < ShortLength then
      Extracted(Unknown, None, text, Unknown, None, "Article", None)
    else if Structured(text) then
      var year := Year(text, true);
      var url := Url(text, true);
      Extracted(if c.author.Some? then Strip(c.author.value) else Unknown,
                PublicationDate(year), Truncate(Unquote(StructuredTitle(text, c))),
                Publication(year, c), url, ReferenceType(text, url), Some(text))
    else
      var title := if c.sentence.Some? then Strip(c.sentence.value) else Prefix(text, 100);
      Extracted(c.name.GetOr(Unknown), None, Truncate(Unquote(title)), Unknown, None, "Article", Some(text))
  }

  /**
   * A text shorter than 50 characters once stripped is its own title, with
   * unknown authors and publication, type "Article" and no `content` key;
   * every longer text keeps its stripped self as content.
   */
  lemma ShortTextIsTitle(raw: string, c: Captures)
    ensures var r := ExtractReference(raw, c);
      && (r.content.None? <==> |Strip(raw)| < ShortLength)
      && (r.content.Some? ==> r.content.value == Strip(raw))
      && (r.content.None? ==>
            r.title == Strip(raw) && r.authors == Unknown && r.publicationName == Unknown && r.url.None?
            && r.publicationDate.None? && r.referenceType == "Article")
  {
  }

  /**
   * A publication date is "YYYY-01-01" for a four-digit year that occurs in
   * parentheses in the text; a year with a letter suffix gives none.
   */
  lemma DateFromFourDigitYear(raw: string, c: Captures)
    ensures var d := ExtractReference(raw, c).publicationDate;
      d.Some? ==>
        |d.value| == 10 && AllDigits(d.value[..4]) && d.value[4..] == "-01-01"
        && Contains(Strip(raw), "(" + d.value[..4] + ")")
  {
    var text := Strip(raw);
    var d := ExtractReference(raw, c).publicationDate;
    assert d.Some? ==> d == PublicationDate(Year(text, true));
    YearDate(text);
  }

  lemma YearDate(text: string)
    ensures var d := PublicationDate(Year(text, true));
      d.Some? ==>
        |d.value| == 10 && AllDigits(d.value[..4]) && d.value[4..] == "-01-01"
        && Contains(text, "(" + d.value[..4] + ")")
  {
    var d := PublicationDate(Year(text, true));
    if d.Some? {
      var y := Year(text, true).value;
      assert d.value[..4] == y;
    }
  }

  /** Unstructured text gives an article with no URL, date or publication. */
  lemma UnstructuredIsPlainArticle(raw: string, c: Captures)
    requires !Structured(Strip(raw))
    ensures var r := ExtractReference(raw, c);
      r.referenceType == "Article" && r.url.None? && r.publicationName == Unknown && r.publicationDate.None?
  {
  }

  /** A URL is reported only if it occurs in the text and starts with a scheme. */
  lemma UrlFromText(raw: string, c: Captures)
    ensures var u := ExtractReference(raw, c).url;
      u.Some? ==>
        Contains(Strip(raw), u.value)
        && (StartsWith(Lower(u.value), "https://") || StartsWith(Lower(u.value), "http://")
            || StartsWith(Lower(u.value), "doi:"))
  {
  }

  /** Long titles are cut to 252 characters and "...", exactly 255. */
  lemma LongTitleCut(raw: string, c: Captures)
    requires |Strip(raw)| >= ShortLength && Structured(Strip(raw))
    requires |Unquote(StructuredTitle(Strip(raw), c))| > MaxTitle
    ensures var r := ExtractReference(raw, c);
      |r.title| == MaxTitle && EndsWith(r.title, "...")
      && r.title[..252] == Unquote(StructuredTitle(Strip(raw), c))[..252]
  {
  }

  /** `extract_references_from_content`. */
  function ExtractReferences(content: string): (r: seq<string>)
    ensures forall k :: 0 <= k < |r| ==> r[k] != "" && Strip(r[k]) == r[k]
  {
    ReferenceItems(content, AllHeaders, true)
  }

  /** Without a References/Sources/Bibliography/Works Cited/Citations header, nothing is extracted. */
  lemma NoHeaderNothing(content: string)
    requires forall h :: h in AllHeaders ==> !Contains(Lower(content), h)
    ensures ExtractReferences(content) == []
  {
    NoHeaderNoItems(content, AllHeaders, true);
  }
}
