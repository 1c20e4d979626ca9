/**
 * The regular expressions the reference extractors share, written out as
 * scanning functions: the parenthesised year `\((\d{4})\)` (and
 * `\((\d{4}[a-z]?)\)`), the URL/DOI pattern, the references-section header
 * pattern and the item separator that `re.split` cuts the section at.
 * Each follows the leftmost-match, greedy-with-backtracking behaviour of
 * Python's `re.search` for that one pattern. Character classes are ASCII:
 * `\s` is `IsSpace`, `\d` is '0'..'9', `\w` is letters, digits and '_'.
 */
module CitationText {
  import opened Wrappers
  import opened StrUtil

  /** `\((\d{4})\)` at index `i`, or with `letter` `\((\d{4}[a-z]?)\)`: the captured year. */
  function YearAt(t: string, i: nat, letter: bool): (r: Option<string>)
    ensures r.Some? ==> |r.value| >= 4 && AllDigits(r.value[..4])
    ensures r.Some? ==> |r.value| == 4 || (letter && |r.value| == 5)
    ensures r.Some? ==> OccursAt(t, "(" + r.value + ")", i)
  {
    if i + 6 <= |t| && t[i] == '(' && AllDigits(t[i + 1..i + 5]) then
      if t[i + 5] == ')' then
        assert t[i..i + 6] == "(" + t[i + 1..i + 5] + ")";
        Some(t[i + 1..i + 5])
      else if letter && i + 7 <= |t| && 'a' <= t[i + 5] <= 'z' && t[i + 6] == ')' then
        assert t[i..i + 7] == "(" + t[i + 1..i + 6] + ")";
        assert t[i + 1..i + 6][..4] == t[i + 1..i + 5];
        Some(t[i + 1..i + 6])
      else None
    else None
  }

  /** The leftmost year match at or after `i`. */
  function YearFrom(t: string, i: nat, letter: bool): (r: Option<string>)
    ensures r.Some? ==> |r.value| >= 4 && AllDigits(r.value[..4])
    ensures r.Some? ==> |r.value| == 4 || (letter && |r.value| == 5)
    ensures r.Some? ==> Contains(t, "(" + r.value + ")")
    ensures r.None? ==> forall j :: i <= j ==> YearAt(t, j, letter).None?
    decreases |t| - i
  {
    if i >= |t| then
      assert forall j :: i <= j ==> YearAt(t, j, letter).None?;
      None
    else if YearAt(t, i, letter).Some? then
      ContainsAt(t, "(" + YearAt(t, i, letter).value + ")", i);
      YearAt(t, i, letter)
    else YearFrom(t, i + 1, letter)
  }

  /** `re.search(r'\((\d{4})\)', t)`, or the variant with an optional letter: group 1. */
  function Year(t: string, letter: bool): (r: Option<string>)
    ensures r.Some? ==> |r.value| >= 4 && Contains(t, "(" + r.value + ")") && AllDigits(r.value[..4])
  {
    YearFrom(t, 0, letter)
  }

  /** A year written out as four digits in parentheses is found. */
  lemma YearFound(t: string, i: nat, letter: bool)
    requires i + 6 <= |t| && t[i] == '(' && AllDigits(t[i + 1..i + 5]) && t[i + 5] == ')'
    ensures Year(t, letter).Some?
  {
    assert YearAt(t, i, letter).Some?;
  }

  /** The length of the scheme `https?://` or `doi:` that starts at `i` of the lowered text, or 0. */
  function SchemeAt(lt: string, i: nat): (n: nat)
    ensures n == 0 || n == 4 || n == 7 || n == 8
    ensures n > 0 ==> i + n <= |lt|
  {
    if OccursAt(lt, "https://", i) then 8
    else if OccursAt(lt, "http://", i) then 7
    else if OccursAt(lt, "doi:", i) then 4
    else 0
  }

  /** A character of `[^\s\)]` (with `stopParen`) or of `[^\s]`. */
  predicate UrlChar(c: char, stopParen: bool)
  {
    !IsSpace(c) && !(stopParen && c == ')')
  }

  /** The length of the greedy run of URL characters at `j`. */
  function UrlRun(t: string, j: nat, stopParen: bool): (n: nat)
    requires j <= |t|
    ensures j + n <= |t|
    ensures forall k :: j <= k < j + n ==> UrlChar(t[k], stopParen)
    decreases |t| - j
  {
    if j < |t| && UrlChar(t[j], stopParen) then 1 + UrlRun(t, j + 1, stopParen) else 0
  }

  /** The URL match starting at `i`: a scheme followed by at least one URL character. */
  function UrlAt(t: string, lt: string, i: nat, stopParen: bool): (r: Option<string>)
    requires |lt| == |t|
    ensures r.Some? ==> OccursAt(t, r.value, i) && 0 < SchemeAt(lt, i) < |r.value|
  {
    var s := SchemeAt(lt, i);
    if s > 0 && UrlRun(t, i + s, stopParen) > 0 then
      Some(t[i..i + s + UrlRun(t, i + s, stopParen)])
    else None
  }

  /** The leftmost position at or after `i` where a URL match starts, or -1. */
  function UrlPos(t: string, lt: string, i: nat, stopParen: bool): (p: int)
    requires |lt| == |t|
    ensures p == -1 || (i <= p && UrlAt(t, lt, p, stopParen).Some?)
    decreases |t| - i
  {
    if i >= |t| then -1
    else if UrlAt(t, lt, i, stopParen).Some? then i
    else UrlPos(t, lt, i + 1, stopParen)
  }

  /** A URL match at `j` starts, ignoring case, with its scheme. */
  lemma SchemePrefix(t: string, j: nat, u: string)
    requires OccursAt(t, u, j) && 0 < SchemeAt(Lower(t), j) < |u|
    ensures StartsWith(Lower(u), "https://") || StartsWith(Lower(u), "http://") || StartsWith(Lower(u), "doi:")
  {
    var lt := Lower(t);
    LowerSlice(t, j, j + |u|);
    var n := SchemeAt(lt, j);
    assert Lower(u)[..n] == lt[j..j + n];
  }

  /**
   * `re.search(r'(https?://[^\s\)]+|doi:[^\s\)]+)', t, re.IGNORECASE)` (with
   * `stopParen`) or the same without `\)`: group 1. The match begins, ignoring
   * case, with one of the schemes and is a substring of the text.
   */
  function Url(t: string, stopParen: bool): (r: Option<string>)
    ensures r.Some? ==> Contains(t, r.value)
    ensures r.Some? ==>
      StartsWith(Lower(r.value), "https://") || StartsWith(Lower(r.value), "http://") || StartsWith(Lower(r.value), "doi:")
  {
    var lt := Lower(t);
    var p := UrlPos(t, lt, 0, stopParen);
    if p >= 0 then
      var r := UrlAt(t, lt, p, stopParen);
      ContainsAt(t, r.value, p);
      SchemePrefix(t, p, r.value);
      r
    else None
  }

  /** The section headers of the references pattern, lowered for the case-insensitive match. */
  const AllHeaders: seq<string> := ["references", "sources", "bibliography", "works cited", "citations"]
  const HeadersWithoutCitations: seq<string> := ["references", "sources", "bibliography", "works cited"]

  /**
   * The length of the first header that matches at `i` of the lowered text and
   * has at least one character after it (the `([\s\S]+)$` group needs one), or -1.
   */
  function HeaderAt(lt: string, i: nat, headers: seq<string>): (n: int)
    ensures n == -1 || (n > 0 && i + n < |lt|)
    ensures n > 0 ==> exists h :: h in headers && OccursAt(lt, h, i)
  {
    if headers == [] then -1
    else if |headers[0]| > 0 && OccursAt(lt, headers[0], i) && i + |headers[0]| < |lt| then |headers[0]|
    else HeaderAt(lt, i, headers[1..])
  }

  /**
   * Group 1 of `[\s\n]*:?([\s\S]+)$` applied to the text after a header: the
   * greedy whitespace and colon are skipped unless nothing would be left for
   * the group, in which case the matcher backs off to keep one character.
   */
  function SectionBody(rest: string): (r: string)
    requires rest != []
    ensures r != []
    ensures Blank(rest) ==> Blank(r)
  {
    var after := StripLeft(rest);
    StripLeftDropsSpace(rest);
    BlankAllSpace(rest);
    if |after| > 1 && after[0] == ':' then after[1..]
    else if after != [] then after
    else
      BlankAllSpace(rest);
      BlankAllSpace(rest[|rest| - 1..]);
      rest[|rest| - 1..]
  }

  /** Group 1 of the leftmost header match at or after `i`. */
  function SectionFrom(t: string, lt: string, i: nat, headers: seq<string>): (r: Option<string>)
    requires |lt| == |t|
    ensures r.None? ==> forall j :: i <= j ==> HeaderAt(lt, j, headers) == -1
    decreases |t| - i
  {
    if i >= |t| then
      assert forall j :: i <= j ==> HeaderAt(lt, j, headers) == -1;
      None
    else
      var n := HeaderAt(lt, i, headers);
      if n > 0 then Some(SectionBody(t[i + n..]))
      else SectionFrom(t, lt, i + 1, headers)
  }

  /**
   * `re.search(r'(?:References|Sources|...)[\s\n]*:?([\s\S]+)$', t, re.IGNORECASE)
   * .group(1).strip()`, or None when there is no match.
   */
  function ReferencesText(t: string, headers: seq<string>): (r: Option<string>)
  {
    match SectionFrom(t, Lower(t), 0, headers)
    case None => None
    case Some(g) => Some(Strip(g))
  }

  /** Without any header word in the text (ignoring case) there is no references section. */
  lemma NoHeaderNoSection(t: string, headers: seq<string>)
    requires forall h :: h in headers ==> !Contains(Lower(t), h)
    ensures ReferencesText(t, headers).None?
  {
    var lt := Lower(t);
    if SectionFrom(t, lt, 0, headers).Some? {
      var i := FirstHeader(t, lt, 0, headers);
    }
  }

  /** Where a section is found, some header matches. */
  lemma FirstHeader(t: string, lt: string, i: nat, headers: seq<string>) returns (j: nat)
    requires |lt| == |t|
    requires SectionFrom(t, lt, i, headers).Some?
    ensures HeaderAt(lt, j, headers) > 0
    decreases |t| - i
  {
    if HeaderAt(lt, i, headers) > 0 {
      j := i;
    } else {
      j := FirstHeader(t, lt, i + 1, headers);
    }
  }

  /** The length of the greedy run at `j` of characters satisfying `p`. */
  function Run(t: string, j: nat, p: char -> bool): (n: nat)
    requires j <= |t|
    ensures j + n <= |t|
    decreases |t| - j
  {
    if j < |t| && p(t[j]) then 1 + Run(t, j + 1, p) else 0
  }

  function IsSpaceChar(): char -> bool { c => IsSpace(c) }
  function IsWordChar(): char -> bool { c => WordChar(c) }
  function IsDigitChar(): char -> bool { c => IsDigit(c) }

  /**
   * The end of the item marker `\[\w+\]`, `\d+\.` or (with `bullets`) `\*`
   * that starts at `j`, or -1.
   */
  function MarkerEnd(t: string, j: nat, bullets: bool): (e: int)
    requires j <= |t|
    ensures e == -1 || j < e <= |t|
  {
    if j < |t| && t[j] == '[' then
      var k := j + 1 + Run(t, j + 1, IsWordChar());
      if k > j + 1 && k < |t| && t[k] == ']' then k + 1 else -1
    else if j < |t| && IsDigit(t[j]) then
      var k := j + Run(t, j, IsDigitChar());
      if k < |t| && t[k] == '.' then k + 1 else -1
    else if bullets && j < |t| && t[j] == '*' then j + 1
    else -1
  }

  /**
   * The end of a separator `\n\s*(?:marker)\s+` that starts at `i`, or -1. The
   * greedy whitespace cannot give anything back, since a marker never starts
   * with whitespace.
   */
  function SeparatorEnd(t: string, i: nat, bullets: bool): (e: int)
    requires i <= |t|
    ensures e == -1 || i < e <= |t|
  {
    if i < |t| && t[i] == '\n' then
      var j := i + 1 + Run(t, i + 1, IsSpaceChar());
      var m := MarkerEnd(t, j, bullets);
      if m >= 0 && Run(t, m, IsSpaceChar()) > 0 then m + Run(t, m, IsSpaceChar()) else -1
    else -1
  }

  /** `re.split` of `t[start..]` at the separators found scanning from `i`. */
  function Pieces(t: string, start: nat, i: nat, bullets: bool): (r: seq<string>)
    requires start <= i <= |t|
    ensures |r| >= 1
    decreases |t| - i
  {
    if i == |t| then [t[start..]]
    else
      var e := SeparatorEnd(t, i, bullets);
      if e > 0 then [t[start..i]] + Pieces(t, e, e, bullets)
      else Pieces(t, start, i + 1, bullets)
  }

  /** `re.split(r'\n\s*(?:\[\w+\]|\d+\.|\*)\s+', t)`, or without the bullet alternative. */
  function SplitItems(t: string, bullets: bool): (r: seq<string>)
    ensures |r| >= 1
  {
    Pieces(t, 0, 0, bullets)
  }

  /** A text without a line break is one piece. */
  lemma {:induction false} OneLineOnePiece(t: string, start: nat, i: nat, bullets: bool)
    requires start <= i <= |t|
    requires forall k :: i <= k < |t| ==> t[k] != '\n'
    ensures Pieces(t, start, i, bullets) == [t[start..]]
    decreases |t| - i
  {
    if i < |t| {
      OneLineOnePiece(t, start, i + 1, bullets);
    }
  }

  /** A run of `n` characters satisfying `p`, followed by the end or by one that does not, has length `n`. */
  lemma {:induction false} RunIs(t: string, j: nat, n: nat, p: char -> bool)
    requires j + n <= |t|
    requires forall k :: j <= k < j + n ==> p(t[k])
    requires j + n == |t| || !p(t[j + n])
    ensures Run(t, j, p) == n
    decreases n
  {
    if n > 0 {
      RunIs(t, j + 1, n - 1, p);
    }
  }

  /** Positions without a line break start no separator, so the scan moves past them. */
  lemma {:induction false} SkipNoBreak(t: string, start: nat, i: nat, j: nat, bullets: bool)
    requires start <= i <= j <= |t|
    requires forall k :: i <= k < j ==> t[k] != '\n'
    ensures Pieces(t, start, i, bullets) == Pieces(t, start, j, bullets)
    decreases j - i
  {
    if i < j {
      SkipNoBreak(t, start, i + 1, j, bullets);
    }
  }

  /** A one-line tail is the last piece. */
  lemma LastPiece(t: string, e: nat, b: string, bullets: bool)
    requires e <= |t| && t[e..] == b && forall k :: 0 <= k < |b| ==> b[k] != '\n'
    ensures Pieces(t, e, e, bullets) == [b]
  {
    forall k | e <= k < |t|
      ensures t[k] != '\n'
    {
      assert t[k] == b[k - e];
    }
    OneLineOnePiece(t, e, e, bullets);
  }

  /** A line break, no indentation, a marker ending at `m` and `n` spaces make a separator ending at `m + n`. */
  lemma SeparatorOf(t: string, i: nat, m: nat, n: nat, bullets: bool)
    requires i < |t| && t[i] == '\n' && Run(t, i + 1, IsSpaceChar()) == 0
    requires m <= |t| && MarkerEnd(t, i + 1, bullets) == m && Run(t, m, IsSpaceChar()) == n && n > 0
    ensures SeparatorEnd(t, i, bullets) == m + n
  {
  }

  /** `[`, a word of `n` characters and `]` at `j` make a marker ending after the `]`. */
  lemma BracketMarker(t: string, j: nat, n: nat, bullets: bool)
    requires j < |t| && t[j] == '[' && Run(t, j + 1, IsWordChar()) == n && n > 0
    requires j + 1 + n < |t| && t[j + 1 + n] == ']'
    ensures MarkerEnd(t, j, bullets) == j + n + 2
  {
  }

  /** A bracketed marker `[w]` at the start of a line, then a space, separates the two lines' items. */
  lemma SplitAtBracketMarker(a: string, w: string, b: string, bullets: bool)
    requires forall k :: 0 <= k < |a| ==> a[k] != '\n'
    requires w != [] && forall k :: 0 <= k < |w| ==> WordChar(w[k])
    requires b != [] && !IsSpace(b[0]) && forall k :: 0 <= k < |b| ==> b[k] != '\n'
    ensures SplitItems(a + "\n[" + w + "] " + b, bullets) == [a, b]
  {
    var t := a + "\n[" + w + "] " + b;
    var n := |a|;
    assert t[..n] == a && t[n + |w| + 4..] == b;
    assert t[n] == '\n' && t[n + 1] == '[' && t[n + |w| + 2] == ']' && t[n + |w| + 3] == ' ';
    forall k | n + 2 <= k < n + 2 + |w|
      ensures WordChar(t[k])
    {
      assert t[k] == w[k - n - 2];
    }
    BracketLinePieces(t, n, |w|, b, bullets);
  }

  /** The scan of a text laid out as `a`, "\n[", a word of `m` characters, "] " and `b`. */
  lemma BracketLinePieces(t: string, n: nat, m: nat, b: string, bullets: bool)
    requires n + m + 4 <= |t| && m > 0
    requires forall k :: 0 <= k < n ==> t[k] != '\n'
    requires t[n] == '\n' && t[n + 1] == '[' && t[n + m + 2] == ']' && t[n + m + 3] == ' '
    requires forall k :: n + 2 <= k < n + 2 + m ==> WordChar(t[k])
    requires t[n + m + 4..] == b && b != [] && !IsSpace(b[0]) && forall k :: 0 <= k < |b| ==> b[k] != '\n'
    ensures Pieces(t, 0, 0, bullets) == [t[..n], b]
  {
    var e := n + m + 4;
    assert t[e] == b[0];
    SkipNoBreak(t, 0, 0, n, bullets);
    assert Run(t, n + 1, IsSpaceChar()) == 0;
    RunIs(t, n + 2, m, IsWordChar());
    BracketMarker(t, n + 1, m, bullets);
    RunIs(t, n + m + 3, 1, IsSpaceChar());
    SeparatorOf(t, n, n + m + 3, 1, bullets);
    LastPiece(t, e, b, bullets);
    assert t[0..n] == t[..n];
  }

  /** A `*` bullet at the start of a line separates items only in the pattern that lists it. */
  lemma BulletSeparatesOnlyWithBullets(a: string, b: string)
    requires forall k :: 0 <= k < |a| ==> a[k] != '\n'
    requires b != [] && !IsSpace(b[0]) && forall k :: 0 <= k < |b| ==> b[k] != '\n'
    ensures SplitItems(a + "\n* " + b, true) == [a, b]
    ensures SplitItems(a + "\n* " + b, false) == [a + "\n* " + b]
  {
    var t := a + "\n* " + b;
    var n := |a|;
    var e := n + 3;
    assert t[..n] == a && t[e..] == b;
    assert t[n] == '\n' && t[n + 1] == '*' && t[n + 2] == ' ' && t[e] == b[0];
    SkipNoBreak(t, 0, 0, n, true);
    SkipNoBreak(t, 0, 0, n, false);
    assert Run(t, n + 1, IsSpaceChar()) == 0;
    RunIs(t, n + 2, 1, IsSpaceChar());
    assert MarkerEnd(t, n + 1, true) == n + 2;
    SeparatorOf(t, n, n + 2, 1, true);
    LastPiece(t, e, b, true);
    assert t[0..n] == a;
    assert MarkerEnd(t, n + 1, false) == -1;
    forall k | n + 1 <= k < |t|
      ensures t[k] != '\n'
    {
      if k >= e {
        assert t[k] == b[k - e];
      }
    }
    OneLineOnePiece(t, 0, n + 1, false);
    assert t[0..] == t;
  }

  /** `[item.strip() for item in items if item.strip()]`. */
  function NonBlankStripped(items: seq<string>): (r: seq<string>)
    ensures |r| <= |items|
    ensures forall k :: 0 <= k < |r| ==> r[k] != "" && Strip(r[k]) == r[k]
  {
    if items == [] then []
    else
      var init := NonBlankStripped(items[..|items| - 1]);
      var s := Strip(items[|items| - 1]);
      StripIdempotent(items[|items| - 1]);
      if s != "" then init + [s] else init
  }

  /** `extract_references_from_content`: the stripped, non-empty items of the references section. */
  function ReferenceItems(content: string, headers: seq<string>, bullets: bool): (r: seq<string>)
    ensures forall k :: 0 <= k < |r| ==> r[k] != "" && Strip(r[k]) == r[k]
  {
    match ReferencesText(content, headers)
    case None => []
    case Some(section) => NonBlankStripped(SplitItems(section, bullets))
  }

  /** No header word, no items. */
  lemma NoHeaderNoItems(content: string, headers: seq<string>, bullets: bool)
    requires forall h :: h in headers ==> !Contains(Lower(content), h)
    ensures ReferenceItems(content, headers, bullets) == []
  {
    NoHeaderNoSection(content, headers);
  }
}
