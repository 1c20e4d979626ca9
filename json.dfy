/**
 * JSON values as the pipeline's Python code holds them after `json.loads`:
 * objects keep their keys in insertion order, floats keep their literal text.
 */
module Json {
  import opened Wrappers
  import StrUtil

  datatype Json =
    | JNull
    | JBool(b: bool)
    | JInt(i: int)
    | JFloat(text: string)
    | JStr(s: string)
    | JArr(items: seq<Json>)
    | JObj(props: seq<(string, Json)>)

  /** The JSON decoder, which lies outside the model: `None` stands for a decode error. */
  type Parser = string -> Option<Json>

  /**
   * Python truthiness of a decoded value: a float is false exactly when its
   * value is zero (`NaN` and `Infinity` are true).
   */
  predicate Truthy(j: Json)
  {
    match j
    case JNull => false
    case JBool(b) => b
    case JInt(i) => i != 0
    case JFloat(t) => FloatValue(t) != Some(0.0)
    case JStr(s) => s != []
    case JArr(a) => a != []
    case JObj(p) => p != []
  }

  /** The distinct keys of an object. */
  function KeySet(props: seq<(string, Json)>): (r: set<string>)
    ensures forall key :: key in r <==> Get(props, key).Some?
  {
    set k | 0 <= k < |props| :: props[k].0
  }

  /** `len(j)`: `None` where `len` raises. */
  function Len(j: Json): (r: Option<nat>)
    ensures r.Some? <==> j.JArr? || j.JObj? || j.JStr?
    ensures j.JArr? ==> r == Some(|j.items|)
    ensures j.JStr? ==> r == Some(|j.s|)
  {
    match j
    case JArr(items) => Some(|items|)
    case JObj(props) => Some(|KeySet(props)|)
    case JStr(s) => Some(|s|)
    case _ => None
  }

  /** An exponent `[+-]?\d+`, or `None`. */
  function ExponentValue(s: string): Option<int>
  {
    var digits := if |s| > 0 && (s[0] == '-' || s[0] == '+') then s[1..] else s;
    if |digits| == 0 || !StrUtil.AllDigits(digits) then None
    else if s[0] == '-' then Some(0 - StrUtil.DigitsValue(digits) as int)
    else Some(StrUtil.DigitsValue(digits))
  }

  /** `m * 10^e`, which keeps the sign of `m`. */
  function Scaled(m: real, e: int): (r: real)
    ensures m >= 0.0 ==> r >= 0.0
    ensures e == 0 ==> r == m
    decreases if e < 0 then -e else e
  {
    if e == 0 then m else if e > 0 then Scaled(m * 10.0, e - 1) else Scaled(m / 10.0, e + 1)
  }

  /** `whole.frac` as a non-negative real. */
  function Mantissa(whole: string, frac: string): (r: real)
    requires StrUtil.AllDigits(whole) && StrUtil.AllDigits(frac)
    ensures r >= StrUtil.DigitsValue(whole) as real
    ensures frac == [] ==> r == StrUtil.DigitsValue(whole) as real
  {
    StrUtil.DigitsValue(whole) as real + Scaled(StrUtil.DigitsValue(frac) as real, -|frac|)
  }

  /**
   * The exact value of a finite float literal `-?\d+(\.\d+)?([eE][+-]?\d+)?`;
   * `None` for any other text (`Infinity`, `NaN`).
   */
  function FloatValue(t: string): (r: Option<real>)
    ensures r.Some? && r.value < 0.0 ==> |t| > 0 && t[0] == '-'
  {
    var neg := |t| > 0 && t[0] == '-';
    var u := StrUtil.Lower(if neg then t[1..] else t);
    var k := StrUtil.Find(u, "e");
    var mant := if k < 0 then u else u[..k];
    var exp := if k < 0 then Some(0) else ExponentValue(u[k + 1..]);
    var d := StrUtil.Find(mant, ".");
    var whole := if d < 0 then mant else mant[..d];
    var frac := if d < 0 then "" else mant[d + 1..];
    if |whole| == 0 || !StrUtil.AllDigits(whole) || (d >= 0 && (|frac| == 0 || !StrUtil.AllDigits(frac))) || exp.None? then None
    else
      var m := Scaled(Mantissa(whole, frac), exp.value);
      Some(if neg then -m else m)
  }

  /** Digits are their own lower case. */
  lemma LowerDigits(s: string)
    requires StrUtil.AllDigits(s)
    ensures StrUtil.Lower(s) == s
  {
  }

  /** A literal of digits alone has the value of the integer it spells. */
  lemma FloatValueOfDigits(t: string)
    requires |t| > 0 && StrUtil.AllDigits(t)
    ensures FloatValue(t) == Some(StrUtil.DigitsValue(t) as real)
  {
    LowerDigits(t);
    StrUtil.FindCharFacts(t, 'e');
    StrUtil.FindCharFacts(t, '.');
    assert "e" == ['e'] && "." == ['.'];
  }

  /** A literal `whole.frac` of digits has the value of its mantissa. */
  lemma FloatValueOfDecimal(s: string, whole: string, frac: string)
    requires |whole| > 0 && |frac| > 0 && StrUtil.AllDigits(whole) && StrUtil.AllDigits(frac)
    requires s == whole + "." + frac
    ensures FloatValue(s) == Some(Mantissa(whole, frac))
  {
    assert forall i :: 0 <= i < |s| ==> s[i] == '.' || StrUtil.IsDigit(s[i]);
    assert StrUtil.Lower(s) == s;
    assert "e" == ['e'] && "." == ['.'];
    assert StrUtil.Find(s, "e") == -1 by {
      StrUtil.FindCharFacts(s, 'e');
    }
    assert StrUtil.Find(s, ".") == |whole| by {
      StrUtil.FindCharFacts(s, '.');
      assert s[|whole|] == '.';
    }
    assert s[..|whole|] == whole && s[|whole| + 1..] == frac;
  }

  /** A zero fraction adds nothing to the mantissa. */
  lemma MantissaPointZero(t: string)
    requires StrUtil.AllDigits(t)
    ensures Mantissa(t, "0") == StrUtil.DigitsValue(t) as real
  {
    assert StrUtil.DigitsValue("0") == 0 by { assert "0"[..0] == ""; }
    assert Scaled(0.0, -1) == 0.0;
  }

  /** A literal with a zero fraction, `n.0`, has the value `n`. */
  lemma FloatValueOfPointZero(t: string)
    requires |t| > 0 && StrUtil.AllDigits(t)
    ensures FloatValue(t + ".0") == Some(StrUtil.DigitsValue(t) as real)
  {
    var s := t + ".0";
    assert s == t + "." + "0";
    FloatValueOfDecimal(s, t, "0");
    MantissaPointZero(t);
  }

  /** Scaling zero gives zero. */
  lemma {:induction false} ScaledZero(e: int)
    ensures Scaled(0.0, e) == 0.0
    decreases if e < 0 then -e else e
  {
    if e > 0 {
      ScaledZero(e - 1);
    } else if e < 0 {
      ScaledZero(e + 1);
    }
  }

  /** `0e<n>` is zero for every exponent digits `n`. */
  lemma FloatValueOfZeroExponent(t: string, n: string)
    requires |n| > 0 && StrUtil.AllDigits(n) && t == "0e" + n
    ensures FloatValue(t) == Some(0.0)
  {
    LowerDigits(n);
    assert StrUtil.Lower(t) == t;
    assert "e" == ['e'] && "." == ['.'];
    assert StrUtil.Find(t, "e") == 1 by {
      StrUtil.FindCharFacts(t, 'e');
      assert t[1] == 'e' && t[0] != 'e';
    }
    assert t[..1] == "0" && t[2..] == n;
    assert StrUtil.Find("0", ".") == -1 by {
      StrUtil.FindCharFacts("0", '.');
    }
    assert StrUtil.DigitsValue("0") == 0 by { assert "0"[..0] == ""; }
    assert Mantissa("0", "") == 0.0;
    ScaledZero(StrUtil.DigitsValue(n));
  }

  /** A text that starts with neither a sign nor a digit is not a float literal. */
  lemma FloatValueOfNonNumber(t: string)
    requires |t| > 0 && t[0] != '-' && !StrUtil.IsDigit(StrUtil.LowerChar(t[0]))
    ensures FloatValue(t).None?
  {
    var u := StrUtil.Lower(t);
    var k := StrUtil.Find(u, "e");
    var mant := if k < 0 then u else u[..k];
    var d := StrUtil.Find(mant, ".");
    var whole := if d < 0 then mant else mant[..d];
    assert |whole| > 0 ==> whole[0] == u[0];
  }

  /** A zero float is false whatever its spelling: `0.0` and `0` with an exponent. */
  lemma ZeroFloatsFalsy()
    ensures !Truthy(JFloat("0.0")) && !Truthy(JFloat("0e5"))
  {
    FloatValueOfPointZero("0");
    assert "0" + ".0" == "0.0";
    assert StrUtil.DigitsValue("0") == 0 by { assert "0"[..0] == ""; }
    FloatValueOfZeroExponent("0e5", "5");
  }

  /** A float of non-zero value is true, and so are `NaN` and `Infinity`. */
  lemma NonZeroFloatsTruthy()
    ensures Truthy(JFloat("1.0")) && Truthy(JFloat("NaN")) && Truthy(JFloat("Infinity"))
  {
    FloatValueOfPointZero("1");
    assert "1" + ".0" == "1.0";
    assert StrUtil.DigitsValue("1") == 1 by { assert "1"[..0] == ""; }
    FloatValueOfNonNumber("NaN");
    FloatValueOfNonNumber("Infinity");
  }

  /**
   * `float(t) >= n` for a decoded float: infinity is past every integer, a
   * NaN or minus infinity is past none.
   */
  predicate FloatAtLeast(t: string, n: int)
  {
    t == "Infinity" || (FloatValue(t).Some? && FloatValue(t).value >= n as real)
  }

  /** `float("k.0") >= n` exactly when `k >= n`: 5.0 is past the end of three items. */
  lemma FloatAtLeastPointZero(t: string, n: int)
    requires |t| > 0 && StrUtil.AllDigits(t)
    ensures FloatAtLeast(t + ".0", n) <==> StrUtil.DigitsValue(t) >= n
  {
    FloatValueOfPointZero(t);
    assert t + ".0" != "Infinity" by { assert (t + ".0")[|t|] == '.'; }
  }

  /** `d.get(key)` on a decoded object: the last binding of the key wins, as in `json.loads`. */
  function Get(props: seq<(string, Json)>, key: string): (r: Option<Json>)
    ensures r.None? <==> forall k :: 0 <= k < |props| ==> props[k].0 != key
  {
    if |props| == 0 then None
    else if props[|props| - 1].0 == key then Some(props[|props| - 1].1)
    else Get(props[..|props| - 1], key)
  }

  /** `d[key] = value` on a dict: an existing key keeps its position, a new one goes last. */
  function Put(props: seq<(string, Json)>, key: string, value: Json): (r: seq<(string, Json)>)
    ensures Get(r, key) == Some(value)
    ensures forall k :: k != key ==> Get(r, k) == Get(props, k)
    ensures Get(props, key).None? ==> r == props + [(key, value)]
    ensures Get(props, key).Some? ==> |r| == |props| && forall i :: 0 <= i < |props| ==> r[i].0 == props[i].0
  {
    if |props| == 0 then [(key, value)]
    else if props[|props| - 1].0 == key then props[..|props| - 1] + [(key, value)]
    else if Get(props[..|props| - 1], key).None? then props + [(key, value)]
    else Put(props[..|props| - 1], key, value) + [props[|props| - 1]]
  }

  /** Member lookup on any value: only objects have members. */
  function Member(j: Json, key: string): Option<Json>
  {
    if j.JObj? then Get(j.props, key) else None
  }

  /** `d.get(key, default)`: `None` when `d` is no dict, so the call raises. */
  function DictGet(d: Json, key: string, default: Json): (r: Option<Json>)
    ensures r.Some? <==> d.JObj?
    ensures d.JObj? && Get(d.props, key).None? ==> r == Some(default)
    ensures d.JObj? && Get(d.props, key).Some? ==> r == Get(d.props, key)
  {
    if d.JObj? then Some(Get(d.props, key).GetOr(default)) else None
  }

  /** The binding at position `i` is the one `Get` finds when no later binding has the key. */
  lemma {:induction false} GetAt(props: seq<(string, Json)>, key: string, i: nat)
    requires i < |props| && props[i].0 == key
    requires forall j :: i < j < |props| ==> props[j].0 != key
    ensures Get(props, key) == Some(props[i].1)
  {
    if i < |props| - 1 {
      GetAt(props[..|props| - 1], key, i);
    }
  }

  /** A lower-case hexadecimal digit. */
  function HexDigit(d: nat): char
    requires d < 16
  {
    if d < 10 then ('0' as int + d) as char else ('a' as int + d - 10) as char
  }

  /** How `repr` writes one character inside quotes `q`. */
  function EscapeChar(c: char, q: char): (r: string)
    ensures |r| >= 1
    ensures ' ' <= c && c != '\\' && c != q && c as int != 127 ==> r == [c]
  {
    if c == '\\' then "\\\\"
    else if c == q then ['\\', q]
    else if c == '\t' then "\\t"
    else if c == '\n' then "\\n"
    else if c == '\r' then "\\r"
    else if c < ' ' || c as int == 127 then ['\\', 'x', HexDigit(c as int / 16), HexDigit(c as int % 16)]
    else [c]
  }

  function Escaped(s: string, q: char): (r: string)
    ensures |r| >= |s|
  {
    if s == [] then [] else EscapeChar(s[0], q) + Escaped(s[1..], q)
  }

  /** Text that `repr` copies unchanged between single quotes. */
  predicate PlainText(s: string)
  {
    forall k :: 0 <= k < |s| ==> ' ' <= s[k] && s[k] != '\\' && s[k] != '\'' && s[k] as int != 127
  }

  lemma {:induction false} EscapedPlain(s: string)
    requires PlainText(s)
    ensures Escaped(s, '\'') == s
  {
    if s != [] {
      EscapedPlain(s[1..]);
    }
  }

  /**
   * `repr(s)`: single quotes, unless the text holds a single quote and no
   * double quote; backslashes, the quote and control characters escaped.
   */
  function ReprStr(s: string): (r: string)
    ensures |r| >= 2 && (r[0] == '\'' || r[0] == '"') && r[|r| - 1] == r[0]
  {
    var q := if '\'' in s && '"' !in s then '"' else '\'';
    [q] + Escaped(s, q) + [q]
  }

  /** A plain text is shown between single quotes, unchanged. */
  lemma ReprStrPlain(s: string)
    requires PlainText(s)
    ensures ReprStr(s) == "'" + s + "'"
  {
    EscapedPlain(s);
  }

  /**
   * `repr()` of a decoded value, as it appears inside a container's `str()`.
   * A dict shows each key once, where it first appeared, with its last value.
   */
  function Repr(j: Json): (r: string)
    ensures j.JArr? ==> |r| >= 2 && r[0] == '[' && r[|r| - 1] == ']'
    ensures j.JObj? ==> |r| >= 2 && r[0] == '{' && r[|r| - 1] == '}'
    decreases j, 1, 0
  {
    match j
    case JStr(s) => ReprStr(s)
    case JArr(items) => "[" + ReprItems(items) + "]"
    case JObj(props) => "{" + ReprProps(j, 0, true) + "}"
    case _ => ScalarStr(j)
  }

  /** The items' reprs joined by ", ". */
  function ReprItems(items: seq<Json>): string
    decreases items, 0, 0
  {
    if items == [] then ""
    else if |items| == 1 then Repr(items[0])
    else Repr(items[0]) + ", " + ReprItems(items[1..])
  }

  /** The position of the last binding of `key`, or -1. */
  function LastIndex(props: seq<(string, Json)>, key: string): (l: int)
    ensures -1 <= l < |props|
    ensures l >= 0 ==> props[l].0 == key
    ensures forall k :: l < k < |props| ==> props[k].0 != key
  {
    if props == [] then -1
    else if props[|props| - 1].0 == key then |props| - 1
    else LastIndex(props[..|props| - 1], key)
  }

  /** The last binding of a key holds the value `d.get(key)` gives, so a dict's repr shows `Get`'s value. */
  lemma LastIndexIsGet(props: seq<(string, Json)>, key: string)
    ensures LastIndex(props, key) >= 0 ==> Get(props, key) == Some(props[LastIndex(props, key)].1)
    ensures LastIndex(props, key) < 0 <==> Get(props, key).None?
  {
    var l := LastIndex(props, key);
    if l >= 0 {
      GetAt(props, key, l);
    }
  }

  /** No binding before position `i` has the key of position `i`. */
  predicate FirstBinding(props: seq<(string, Json)>, i: nat)
    requires i < |props|
  {
    forall k :: 0 <= k < i ==> props[k].0 != props[i].0
  }

  /** The keys bound at `i` or later for the first time: iterating a dict from `json.loads`. */
  function KeysFrom(props: seq<(string, Json)>, i: nat): (r: seq<string>)
    ensures i <= |props| ==> |r| <= |props| - i
    ensures forall m :: 0 <= m < |r| ==> Get(props, r[m]).Some?
    decreases |props| - i
  {
    if i >= |props| then []
    else if FirstBinding(props, i) then
      assert Get(props, props[i].0).Some?;
      [props[i].0] + KeysFrom(props, i + 1)
    else KeysFrom(props, i + 1)
  }

  /** The keys of a decoded object, each once, in the order of their first binding. */
  function DictKeys(props: seq<(string, Json)>): (r: seq<string>)
    ensures forall m :: 0 <= m < |r| ==> Get(props, r[m]).Some?
  {
    KeysFrom(props, 0)
  }

  /** A first binding at or after `i` is among the keys listed from `i`. */
  lemma {:induction false} KeysFromHas(props: seq<(string, Json)>, i: nat, f: nat)
    requires i <= f < |props| && FirstBinding(props, f)
    ensures props[f].0 in KeysFrom(props, i)
    decreases f - i
  {
    if i < f {
      KeysFromHas(props, i + 1, f);
    }
  }

  /** The first position at or after `i` binding `key`, given one at `p`. */
  lemma {:induction false} FirstBindingOf(props: seq<(string, Json)>, p: nat) returns (f: nat)
    requires p < |props|
    ensures f <= p && props[f].0 == props[p].0 && FirstBinding(props, f)
    decreases p
  {
    if FirstBinding(props, p) {
      f := p;
    } else {
      var k :| 0 <= k < p && props[k].0 == props[p].0;
      f := FirstBindingOf(props, k);
    }
  }

  /** Every bound key is listed: `DictKeys` gives exactly the keys `Get` finds. */
  lemma DictKeysComplete(props: seq<(string, Json)>, key: string)
    ensures key in DictKeys(props) <==> Get(props, key).Some?
  {
    if Get(props, key).Some? {
      var p :| 0 <= p < |props| && props[p].0 == key;
      var f := FirstBindingOf(props, p);
      KeysFromHas(props, 0, f);
    }
  }

  /** `key: value` for the keys of the object `d` first bound at `i` or later, each with its last value. */
  function ReprProps(d: Json, i: nat, first: bool): string
    requires d.JObj?
    decreases d, 0, |d.props| - i
  {
    var props := d.props;
    if i >= |props| then ""
    else if FirstBinding(props, i) then
      var l := LastIndex(props, props[i].0);
      assert props[l] in props;
      (if first then "" else ", ") + ReprStr(props[i].0) + ": " + Repr(props[l].1) + ReprProps(d, i + 1, false)
    else ReprProps(d, i + 1, first)
  }

  /** A list of plain texts prints as Python shows it: `['a', 'b']`. */
  lemma {:induction false} ReprPlainTexts(items: seq<Json>, texts: seq<string>)
    requires |items| == |texts| >= 1
    requires forall k :: 0 <= k < |items| ==> items[k] == JStr(texts[k]) && PlainText(texts[k])
    ensures ReprItems(items) == "'" + StrUtil.Join(texts, "', '") + "'"
    decreases |items|
  {
    ReprStrPlain(texts[0]);
    if |items| > 1 {
      ReprPlainTexts(items[1..], texts[1..]);
    }
  }

  /** `str()` of a decoded value, as an f-string renders it: a text as itself, a container as its `repr`. */
  function PyStr(j: Json): (r: string)
    ensures j.JStr? ==> r == j.s
    ensures !j.JStr? ==> r == Repr(j)
  {
    if j.JStr? then j.s else Repr(j)
  }

  /** `str()` and `repr()` of a scalar other than a text. */
  function ScalarStr(j: Json): string
  {
    match j
    case JNull => "None"
    case JBool(b) => if b then "True" else "False"
    case JInt(i) => StrUtil.IntToString(i)
    case JFloat(t) => t
    case _ => ""
  }
}
