/**
 * The Python string operations the pipeline relies on, over `seq<char>`.
 * Whitespace and case are ASCII only: `IsSpace` is the ASCII part of
 * `str.isspace()` and `Lower` folds only 'A'..'Z'.
 */
module StrUtil {
  import opened Wrappers

  /** ASCII whitespace as `str.isspace()` sees it: tab..carriage return, the separators 0x1c-0x1f, space. */
  predicate IsSpace(c: char)
  {
    (9 <= c as int <= 13) || (28 <= c as int <= 31) || c == ' '
  }

  predicate IsDigit(c: char)
  {
    '0' <= c <= '9'
  }

  predicate AllDigits(s: string)
  {
    forall i :: 0 <= i < |s| ==> IsDigit(s[i])
  }

  /** `\w` on ASCII: a letter, a digit or '_'. */
  predicate WordChar(c: char)
  {
    ('a' <= c <= 'z') || ('A' <= c <= 'Z') || IsDigit(c) || c == '_'
  }

  /** The end of the whitespace run starting at `j`: where a greedy `\s*` stops. */
  function SpaceRunEnd(s: string, j: nat): (e: nat)
    requires j <= |s|
    ensures j <= e <= |s| && (e == |s| || !IsSpace(s[e]))
    ensures forall k :: j <= k < e ==> IsSpace(s[k])
    decreases |s| - j
  {
    if j == |s| || !IsSpace(s[j]) then j else SpaceRunEnd(s, j + 1)
  }

  /** `s.lstrip()`: drops the leading whitespace. */
  function StripLeft(s: string): (r: string)
    ensures |r| <= |s|
    ensures r == [] || !IsSpace(r[0])
  {
    if |s| > 0 && IsSpace(s[0]) then StripLeft(s[1..]) else s
  }

  /** `s.rstrip()`: drops the trailing whitespace. */
  function StripRight(s: string): (r: string)
    ensures |r| <= |s|
    ensures r == [] || !IsSpace(r[|r| - 1])
  {
    if |s| > 0 && IsSpace(s[|s| - 1]) then StripRight(s[..|s| - 1]) else s
  }

  /** Only leading whitespace is dropped on the left. */
  lemma {:induction false} StripLeftDropsSpace(s: string)
    ensures StripLeft(s) == s[|s| - |StripLeft(s)|..]
    ensures forall i :: 0 <= i < |s| - |StripLeft(s)| ==> IsSpace(s[i])
  {
    if |s| > 0 && IsSpace(s[0]) {
      StripLeftDropsSpace(s[1..]);
      assert forall i :: 1 <= i < |s| ==> s[i] == s[1..][i - 1];
    }
  }

  /** Only trailing whitespace is dropped on the right. */
  lemma {:induction false} StripRightDropsSpace(s: string)
    ensures StripRight(s) == s[..|StripRight(s)|]
    ensures forall i :: |StripRight(s)| <= i < |s| ==> IsSpace(s[i])
  {
    if |s| > 0 && IsSpace(s[|s| - 1]) {
      StripRightDropsSpace(s[..|s| - 1]);
    }
  }

  /** `s.strip()` with no argument. */
  function Strip(s: string): (r: string)
    ensures |r| <= |s|
    ensures r == [] || (!IsSpace(r[0]) && !IsSpace(r[|r| - 1]))
  {
    var l := StripLeft(s);
    StripRightDropsSpace(l);
    StripRight(l)
  }

  /** A string whose ends are not blank is its own strip. */
  lemma StripKeeps(s: string)
    requires s == [] || (!IsSpace(s[0]) && !IsSpace(s[|s| - 1]))
    ensures Strip(s) == s
  {
  }

  lemma StripIdempotent(s: string)
    ensures Strip(Strip(s)) == Strip(s)
  {
    StripKeeps(Strip(s));
  }

  /** Only whitespace, so that `s.strip()` is falsy. */
  predicate Blank(s: string)
  {
    s == [] || (IsSpace(s[|s| - 1]) && Blank(s[..|s| - 1]))
  }

  lemma {:induction false} BlankAllSpace(s: string)
    ensures Blank(s) <==> forall i :: 0 <= i < |s| ==> IsSpace(s[i])
  {
    if s != [] {
      BlankAllSpace(s[..|s| - 1]);
      assert forall i :: 0 <= i < |s| - 1 ==> s[..|s| - 1][i] == s[i];
    }
  }

  /** A text is blank exactly when it strips to nothing. */
  lemma BlankIffStripsEmpty(s: string)
    ensures Blank(s) <==> Strip(s) == ""
  {
    BlankAllSpace(s);
    var l := StripLeft(s);
    StripLeftDropsSpace(s);
    StripRightDropsSpace(l);
  }

  function LowerChar(c: char): char
  {
    if 'A' <= c <= 'Z' then (c as int + 32) as char else c
  }

  /** `s.lower()` on ASCII letters. */
  function Lower(s: string): (r: string)
    ensures |r| == |s|
    ensures forall i :: 0 <= i < |s| ==> r[i] == LowerChar(s[i])
  {
    seq(|s|, i requires 0 <= i < |s| => LowerChar(s[i]))
  }

  /** Lowering commutes with slicing. */
  lemma LowerSlice(s: string, i: int, j: int)
    requires 0 <= i <= j <= |s|
    ensures Lower(s[i..j]) == Lower(s)[i..j]
  {
  }

  predicate StartsWith(s: string, p: string)
  {
    |p| <= |s| && s[..|p|] == p
  }

  predicate EndsWith(s: string, p: string)
  {
    |p| <= |s| && s[|s| - |p|..] == p
  }

  /** `p` occurs in `s` starting at index `i`. */
  predicate OccursAt(s: string, p: string, i: int)
  {
    0 <= i && i + |p| <= |s| && s[i..i + |p|] == p
  }

  /** `s.find(p, start)`: the first occurrence at or after `start`, or -1. */
  function FindFrom(s: string, p: string, start: nat): (r: int)
    ensures r == -1 || (start <= r && OccursAt(s, p, r))
    ensures r == -1 ==> forall i :: start <= i ==> !OccursAt(s, p, i)
    ensures forall i :: start <= i < r ==> !OccursAt(s, p, i)
    decreases |s| - start
  {
    if start + |p| > |s| then -1
    else if s[start..start + |p|] == p then start
    else FindFrom(s, p, start + 1)
  }

  /** `s.find(p)`. */
  function Find(s: string, p: string): (r: int)
    ensures r == -1 || OccursAt(s, p, r)
    ensures r == -1 ==> forall i :: !OccursAt(s, p, i)
    ensures forall i :: 0 <= i < r ==> !OccursAt(s, p, i)
  {
    FindFrom(s, p, 0)
  }

  /** `p in s`. */
  predicate Contains(s: string, p: string)
  {
    Find(s, p) >= 0
  }

  lemma ContainsAt(s: string, p: string, i: int)
    requires OccursAt(s, p, i)
    ensures Contains(s, p)
  {
  }

  /** An occurrence in a slice is an occurrence in the whole text. */
  lemma ContainsInSlice(s: string, a: int, b: int, p: string)
    requires 0 <= a <= b <= |s|
    ensures Contains(s[a..b], p) ==> Contains(s, p)
  {
    var k := Find(s[a..b], p);
    if k >= 0 {
      var w := s[a + k..a + k + |p|];
      forall i | 0 <= i < |p|
        ensures w[i] == p[i]
      {
        assert w[i] == s[a..b][k + i];
      }
      assert w == p;
      assert OccursAt(s, p, a + k);
      ContainsAt(s, p, a + k);
    }
  }

  /** Stripping only removes characters at the ends, so it cannot create an occurrence. */
  lemma StripContains(s: string, p: string)
    ensures Contains(Strip(s), p) ==> Contains(s, p)
  {
    var l := StripLeft(s);
    StripLeftDropsSpace(s);
    StripRightDropsSpace(l);
    var a := |s| - |l|;
    assert Strip(s) == s[a..a + |Strip(s)|];
    ContainsInSlice(s, a, a + |Strip(s)|, p);
  }

  /** No occurrence lies in the text before the first one. */
  lemma BeforeFirst(s: string, p: string)
    requires |p| > 0
    ensures Find(s, p) >= 0 ==> !Contains(s[..Find(s, p)], p)
  {
    var i := Find(s, p);
    if i >= 0 {
      forall k | 0 <= k ensures !OccursAt(s[..i], p, k) {
        if k + |p| <= i {
          assert s[..i][k..k + |p|] == s[k..k + |p|];
          assert !OccursAt(s, p, k);
        }
      }
    }
  }

  /** `s.split(sep)` has a second part exactly when `sep` occurs; the first two parts when it does. */
  lemma SplitParts(s: string, sep: string)
    requires |sep| > 0
    ensures |Split(s, sep)| >= 2 <==> Contains(s, sep)
    ensures Contains(s, sep) ==>
      var parts := Split(s, sep); var rest := s[Find(s, sep) + |sep|..];
      && parts[0] == s[..Find(s, sep)]
      && parts[1] == (if Find(rest, sep) < 0 then rest else rest[..Find(rest, sep)])
  {
  }

  /** A character that does not occur gives no one-character occurrence. */
  lemma AbsentChar(s: string, c: char)
    requires c !in s
    ensures !Contains(s, [c])
  {
    forall k | 0 <= k ensures !OccursAt(s, [c], k) {
      if k + 1 <= |s| {
        assert s[k..k + 1][0] == s[k];
      }
    }
  }

  /** No proper suffix of `p` is also a prefix of it. */
  predicate Unbordered(p: string)
  {
    forall d :: 0 < d < |p| ==> p[d..] != p[..|p| - d]
  }

  /**
   * In `a + p + b` with no `p` in `a`, the first `p` is right after `a`. For a
   * bordered pattern an occurrence could start inside `a` and run into the
   * copy after it ("aa" in "a" + "aa"); an unbordered one cannot.
   */
  lemma FirstOccurrenceOf(a: string, p: string, b: string)
    requires Unbordered(p) && !Contains(a, p)
    ensures Find(a + p + b, p) == |a|
  {
    var s := a + p + b;
    assert s[|a|..|a| + |p|] == p;
    assert OccursAt(s, p, |a|);
    forall k | 0 <= k < |a| ensures !OccursAt(s, p, k) {
      if k + |p| <= |a| {
        assert s[k..k + |p|] == a[k..k + |p|];
        assert !OccursAt(a, p, k);
      } else {
        var d := |a| - k;
        assert s[k..k + |p|][d..] == s[|a|..k + |p|] == p[..|p| - d];
        assert p[d..] != p[..|p| - d];
      }
    }
  }

  /** The last occurrence at or before index `i`, or -1. */
  function RFindBefore(s: string, p: string, i: int): (r: int)
    ensures r == -1 || (r <= i && OccursAt(s, p, r))
    ensures forall j :: r < j <= i ==> !OccursAt(s, p, j)
    decreases if i < 0 then 0 else i + 1
  {
    if i < 0 then -1
    else if OccursAt(s, p, i) then i
    else RFindBefore(s, p, i - 1)
  }

  /** `s.rfind(p)`. */
  function RFind(s: string, p: string): (r: int)
    ensures r == -1 || OccursAt(s, p, r)
    ensures r == -1 ==> forall j :: !OccursAt(s, p, j)
    ensures forall j :: r < j ==> !OccursAt(s, p, j)
  {
    RFindBefore(s, p, |s| - |p|)
  }

  /** A one-character pattern occurs exactly where that character is. */
  lemma OccursAtChar(s: string, c: char, i: int)
    ensures OccursAt(s, [c], i) <==> 0 <= i < |s| && s[i] == c
  {
    if 0 <= i < |s| {
      assert s[i..i + 1] == [s[i]];
    }
  }

  /** `s.find(c)` is the first position holding `c`, or -1 when none does. */
  lemma FindCharFacts(s: string, c: char)
    ensures var a := Find(s, [c]);
            && -1 <= a < |s| && (a >= 0 ==> s[a] == c)
            && forall i :: 0 <= i < |s| && (a == -1 || i < a) ==> s[i] != c
  {
    var a := Find(s, [c]);
    OccursAtChar(s, c, a);
    forall i | 0 <= i < |s| && (a == -1 || i < a)
      ensures s[i] != c
    {
      OccursAtChar(s, c, i);
    }
  }

  /** `s.rfind(c)` is the last position holding `c`, or -1 when none does. */
  lemma RFindCharFacts(s: string, c: char)
    ensures var b := RFind(s, [c]);
            && -1 <= b < |s| && (b >= 0 ==> s[b] == c)
            && forall j :: b < j < |s| ==> s[j] != c
  {
    var b := RFind(s, [c]);
    OccursAtChar(s, c, b);
    forall j | b < j < |s|
      ensures s[j] != c
    {
      OccursAtChar(s, c, j);
    }
  }

  /** `s.startswith(c)` for a one-character prefix. */
  predicate StartsWithChar(s: string, c: char)
  {
    |s| > 0 && s[0] == c
  }

  /** `s.endswith(c)` for a one-character suffix. */
  predicate EndsWithChar(s: string, c: char)
  {
    |s| > 0 && s[|s| - 1] == c
  }

  /** `s.rfind(c)` for one character; `c in s` exactly when it is not -1. */
  function RFindChar(s: string, c: char): (r: int)
    ensures -1 <= r < |s|
    ensures 0 <= r ==> s[r] == c
    ensures forall i :: r < i < |s| ==> s[i] != c
  {
    if s == [] then -1
    else if s[|s| - 1] == c then |s| - 1
    else RFindChar(s[..|s| - 1], c)
  }

  /** The one-character search agrees with the general one. */
  lemma RFindCharAgrees(s: string, c: char)
    ensures RFindChar(s, c) == RFind(s, [c])
    ensures RFindChar(s, c) >= 0 <==> Contains(s, [c])
  {
    var r := RFindChar(s, c);
    var q := RFind(s, [c]);
    if r >= 0 {
      assert OccursAt(s, [c], r);
    }
    if q >= 0 {
      assert s[q..q + 1] == [c];
      assert s[q] == c;
    }
    var f := Find(s, [c]);
    if f >= 0 {
      assert s[f..f + 1] == [c];
      assert s[f] == c;
    }
  }

  /** `sep.join(parts)`. */
  function Join(parts: seq<string>, sep: string): string
  {
    if |parts| == 0 then ""
    else if |parts| == 1 then parts[0]
    else parts[0] + sep + Join(parts[1..], sep)
  }

  /** Appending a part appends a separator and the part. */
  lemma {:induction false} JoinSnoc(parts: seq<string>, x: string, sep: string)
    ensures Join(parts + [x], sep) == if parts == [] then x else Join(parts, sep) + sep + x
  {
    if |parts| > 1 {
      assert (parts + [x])[1..] == parts[1..] + [x];
      JoinSnoc(parts[1..], x, sep);
    } else if |parts| == 1 {
      assert (parts + [x])[1..] == [x];
    }
  }

  /** The joined text ends with the last part. */
  lemma JoinEndsWithLast(parts: seq<string>, x: string, sep: string)
    ensures EndsWith(Join(parts + [x], sep), x)
  {
    JoinSnoc(parts, x, sep);
    var j := Join(parts + [x], sep);
    assert j[|j| - |x|..] == x;
  }

  /** `s.split(sep)` for a non-empty separator. */
  function Split(s: string, sep: string): (r: seq<string>)
    requires |sep| > 0
    ensures |r| >= 1
    decreases |s|
  {
    var i := Find(s, sep);
    if i < 0 then [s] else [s[..i]] + Split(s[i + |sep|..], sep)
  }

  lemma JoinCons(x: string, tail: seq<string>, sep: string)
    requires tail != []
    ensures Join([x] + tail, sep) == x + sep + Join(tail, sep)
  {
    assert ([x] + tail)[1..] == tail;
  }

  /** Joining the pieces of a split with the same separator gives back the string. */
  lemma {:induction false} JoinSplit(s: string, sep: string)
    requires |sep| > 0
    ensures Join(Split(s, sep), sep) == s
    decreases |s|
  {
    var i := Find(s, sep);
    if i >= 0 {
      var rest := s[i + |sep|..];
      JoinSplit(rest, sep);
      JoinCons(s[..i], Split(rest, sep), sep);
      Decompose(s, sep, i);
    }
  }

  /** A string is the text before an occurrence, the occurrence and the text after it. */
  lemma Decompose(s: string, p: string, i: int)
    requires OccursAt(s, p, i)
    ensures s == s[..i] + p + s[i + |p|..]
  {
    assert s == s[..i] + s[i..i + |p|] + s[i + |p|..];
  }

  /** `s.replace(pat, rep)`: every non-overlapping occurrence, left to right. */
  function ReplaceAll(s: string, pat: string, rep: string): (r: string)
    requires |pat| > 0
    decreases |s|
  {
    var i := Find(s, pat);
    if i < 0 then s else s[..i] + rep + ReplaceAll(s[i + |pat|..], pat, rep)
  }

  /** `s.replace(pat, rep, 1)`. */
  function ReplaceFirst(s: string, pat: string, rep: string): string
  {
    var i := Find(s, pat);
    if i < 0 then s else s[..i] + rep + s[i + |pat|..]
  }

  /** `s[:n]` for a non-negative bound. */
  function Prefix(s: string, n: nat): (r: string)
    ensures |r| == if n <= |s| then n else |s|
    ensures r == s[..|r|]
  {
    if n <= |s| then s[..n] else s
  }

  /** Python's `s[:n]` on any sequence; a negative `n` counts from the end. */
  function PyTake<T>(s: seq<T>, n: int): (r: seq<T>)
    ensures |r| <= |s| && r == s[..|r|]
    ensures 0 <= n ==> |r| == if n <= |s| then n else |s|
    ensures n < 0 ==> |r| == if -n <= |s| then |s| + n else 0
  {
    if 0 <= n then (if n <= |s| then s[..n] else s)
    else if -n <= |s| then s[..|s| + n]
    else []
  }

  /** The sequence in reverse order. */
  function Reversed<T>(s: seq<T>): (r: seq<T>)
    ensures |r| == |s|
    ensures forall i :: 0 <= i < |s| ==> r[i] == s[|s| - 1 - i]
  {
    if s == [] then [] else Reversed(s[1..]) + [s[0]]
  }

  function DigitChar(d: nat): char
    requires d < 10
  {
    ('0' as int + d) as char
  }

  /** `str(n)` for a natural number. */
  function NatToString(n: nat): (r: string)
    ensures |r| >= 1 && AllDigits(r)
    decreases n
  {
    if n < 10 then [DigitChar(n)] else NatToString(n / 10) + [DigitChar(n % 10)]
  }

  /** `int(s)` for a string of decimal digits. */
  function DigitsValue(s: string): (n: nat)
    requires AllDigits(s)
    decreases |s|
  {
    if |s| == 0 then 0 else DigitsValue(s[..|s| - 1]) * 10 + (s[|s| - 1] as int - '0' as int)
  }

  /** Printing a number and reading it back gives the number. */
  lemma {:induction false} DigitsValueOfNatToString(n: nat)
    ensures DigitsValue(NatToString(n)) == n
    decreases n
  {
    if n >= 10 {
      var s := NatToString(n);
      DigitsValueOfNatToString(n / 10);
      assert s[..|s| - 1] == NatToString(n / 10);
    }
  }

  /** Distinct numbers print differently. */
  lemma NatToStringInjective(m: nat, n: nat)
    requires m != n
    ensures NatToString(m) != NatToString(n)
  {
    DigitsValueOfNatToString(m);
    DigitsValueOfNatToString(n);
  }

  /** `str(i)` for any integer. */
  function IntToString(i: int): string
  {
    if i < 0 then "-" + NatToString(-i) else NatToString(i)
  }

  /** Python's `a <= b` on strings: lexicographic by code point. */
  predicate StrLe(a: string, b: string)
    decreases |a|
  {
    a == [] || (b != [] && (a[0] < b[0] || (a[0] == b[0] && StrLe(a[1..], b[1..]))))
  }

  /** Any two strings compare. */
  lemma {:induction false} StrLeTotal(a: string, b: string)
    ensures StrLe(a, b) || StrLe(b, a)
    decreases |a|
  {
    if a != [] && b != [] && a[0] == b[0] {
      StrLeTotal(a[1..], b[1..]);
    }
  }

  /** String comparison chains. */
  lemma {:induction false} StrLeTrans(a: string, b: string, c: string)
    requires StrLe(a, b) && StrLe(b, c)
    ensures StrLe(a, c)
    decreases |a|
  {
    if a != [] && b != [] && c != [] && a[0] == b[0] && b[0] == c[0] {
      StrLeTrans(a[1..], b[1..], c[1..]);
    }
  }
}
