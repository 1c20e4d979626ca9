/**
 * `fix_json` and `manual_json_parse`: decode a model's JSON answer, repairing
 * it when the decoder refuses it, and as a last resort split arrays and
 * objects by hand with a brace/bracket/string/escape scanner.
 *
 * The decoder and the regular-expression repairs lie outside the model and
 * are parameters. Python's `int()` and `float()` conversions of a value are
 * written out as predicates on ASCII text, which is all the scanner ever sees
 * once `fix_json` has dropped the non-ASCII characters.
 */
module JsonFixer {
  import opened Wrappers
  import opened StrUtil
  import opened Json

  // ------------------------------------------------------------ fix_json

  /** `''.join(c for c in s if ord(c) < 128)`. */
  function AsciiOnly(s: string): (r: string)
    ensures |r| <= |s|
    ensures forall i :: 0 <= i < |r| ==> r[i] as int < 128
  {
    if s == [] then []
    else AsciiOnly(s[..|s| - 1]) + (if s[|s| - 1] as int < 128 then [s[|s| - 1]] else [])
  }

  /** Text that is already ASCII is kept as it is. */
  lemma {:induction false} AsciiOnlyKeeps(s: string)
    requires forall i :: 0 <= i < |s| ==> s[i] as int < 128
    ensures AsciiOnly(s) == s
  {
    if s != [] {
      AsciiOnlyKeeps(s[..|s| - 1]);
    }
  }

  /**
   * `fix_json`: the decoder on the stripped ASCII text, then on the repaired
   * text, and only when both refuse, the manual parse of the ASCII text.
   */
  function FixJson(s: string, parse: Parser, repair: string -> string): (r: Json)
    ensures parse(Strip(AsciiOnly(s))).Some? ==> r == parse(Strip(AsciiOnly(s))).value
    ensures parse(Strip(AsciiOnly(s))).None? && parse(Strip(repair(AsciiOnly(s)))).Some? ==>
      r == parse(Strip(repair(AsciiOnly(s)))).value
    ensures parse(Strip(AsciiOnly(s))).None? && parse(Strip(repair(AsciiOnly(s)))).None? ==>
      r == ManualJson(AsciiOnly(s))
  {
    var ascii := AsciiOnly(s);
    match parse(Strip(ascii))
    case Some(j) => j
    case None =>
      match parse(Strip(repair(ascii)))
      case Some(j) => j
      case None => ManualJson(ascii)
  }

  /** Non-ASCII characters are dropped before any attempt, so they never change the result. */
  lemma FixJsonIgnoresNonAscii(s: string, parse: Parser, repair: string -> string)
    ensures FixJson(s, parse, repair) == FixJson(AsciiOnly(s), parse, repair)
  {
    AsciiOnlyKeeps(AsciiOnly(s));
  }

  // --------------------------------------------------------- text helpers

  /** Python's `t[i:j]` for `0 <= i`: an end past the text is clipped, an end before `i` gives "". */
  function Slice(t: string, i: nat, j: int): (r: string)
    ensures |r| <= |t|
    ensures i <= j && j <= |t| ==> r == t[i..j]
  {
    if j <= i || i >= |t| then "" else t[i..if j <= |t| then j else |t|]
  }

  /** Python's `t[1:-1]`. */
  function Inner(t: string): (r: string)
    ensures |t| >= 2 ==> r == t[1..|t| - 1]
    ensures |r| <= |t|
  {
    if |t| >= 2 then t[1..|t| - 1] else ""
  }

  predicate Quoted(t: string)
  {
    StartsWithChar(t, '"') && EndsWithChar(t, '"')
  }

  /** The key clean-up: stripped, and one pair of surrounding quotes removed. */
  function CleanKey(k: string): string
  {
    var t := Strip(k);
    if Quoted(t) then Inner(t) else t
  }

  lemma CleanKeyUnquotes(k: string)
    ensures CleanKey("\"" + k + "\"") == k
  {
    var q := "\"" + k + "\"";
    assert q[0] == '"' && q[|q| - 1] == '"';
    StripKeeps(q);
    assert Quoted(q);
    assert Inner(q) == k;
  }

  // ------------------------------------------------------- int() / float()

  /** Digits with single underscores between them, as `int()` and `float()` accept. */
  predicate DigitPart(s: string)
  {
    |s| > 0 && IsDigit(s[0]) && IsDigit(s[|s| - 1])
    && (forall i :: 0 <= i < |s| ==> IsDigit(s[i]) || s[i] == '_')
    && (forall i :: 0 <= i < |s| - 1 ==> s[i] == '_' ==> s[i + 1] != '_')
  }

  predicate Sign(c: char)
  {
    c == '+' || c == '-'
  }

  /** The text `int()` accepts once stripped: an optional sign, then a digit part. */
  predicate IntLiteral(v: string)
  {
    DigitPart(v) || (|v| > 0 && Sign(v[0]) && DigitPart(v[1..]))
  }

  function Undigits(s: string): (r: string)
    ensures AllDigits(r)
  {
    if s == [] then []
    else Undigits(s[..|s| - 1]) + (if IsDigit(s[|s| - 1]) then [s[|s| - 1]] else [])
  }

  /** The value `int()` gives on an accepted literal. */
  function IntValue(v: string): int
  {
    if |v| > 0 && v[0] == '-' then 0 - DigitsValue(Undigits(v[1..]))
    else if |v| > 0 && v[0] == '+' then DigitsValue(Undigits(v[1..]))
    else DigitsValue(Undigits(v))
  }

  /** The first index of an exponent letter, or `|s|` when there is none. */
  function ExponentAt(s: string): (i: nat)
    ensures i <= |s|
    ensures i < |s| ==> s[i] == 'e' || s[i] == 'E'
  {
    if s == [] then 0
    else if s[0] == 'e' || s[0] == 'E' then 0
    else ExponentAt(s[1..]) + 1
  }

  /** A decimal mantissa: digits with an optional fraction, or a fraction alone. */
  predicate Mantissa(s: string)
  {
    var i := Find(s, ".");
    if i < 0 then DigitPart(s)
    else s != "." && (i == 0 || DigitPart(s[..i])) && (i + 1 == |s| || DigitPart(s[i + 1..]))
  }

  /** A mantissa with an optional exponent. */
  predicate Decimal(s: string)
  {
    var e := ExponentAt(s);
    Mantissa(s[..e]) && (e == |s| || IntLiteral(s[e + 1..]))
  }

  /** The text `float()` accepts once stripped: a signed decimal, infinity or nan in any case. */
  predicate FloatLiteral(v: string)
  {
    var body := if |v| > 0 && Sign(v[0]) then v[1..] else v;
    var low := Lower(body);
    Decimal(body) || low == "inf" || low == "infinity" || low == "nan"
  }

  /** `^-?\d+\.\d+$`: the float shape the scalar branch recognises. */
  predicate SimpleFloat(t: string)
  {
    var body := if |t| > 0 && t[0] == '-' then t[1..] else t;
    var i := Find(body, ".");
    0 < i < |body| - 1 && AllDigits(body[..i]) && AllDigits(body[i + 1..])
  }

  // ---------------------------------------------------------- array scan

  /** The locals of the array loop; `pieces` are the item texts handed to the recursive parse. */
  datatype ArrayScan = ArrayScan(pieces: seq<string>, current: string, braces: int, brackets: int,
                                 inString: bool, escapeNext: bool)

  const ArrayStart := ArrayScan([], "", 0, 0, false, false)

  /** One character of the array loop. */
  function ArrayStep(st: ArrayScan, c: char): ArrayScan
  {
    if st.escapeNext then st.(current := st.current + [c], escapeNext := false)
    else if c == '\\' then st.(current := st.current + [c], escapeNext := true)
    else if c == '"' then st.(inString := !st.inString, current := st.current + [c])
    else if st.inString then st.(current := st.current + [c])
    else if c == '{' then st.(braces := st.braces + 1, current := st.current + [c])
    else if c == '}' then
      var closed := st.(braces := st.braces - 1, current := st.current + [c]);
      if closed.braces == 0 && closed.brackets == 0 && !Blank(closed.current) then
        closed.(pieces := closed.pieces + [closed.current], current := "")
      else closed
    else if c == '[' then st.(brackets := st.brackets + 1, current := st.current + [c])
    else if c == ']' then st.(brackets := st.brackets - 1, current := st.current + [c])
    else if c == ',' && st.braces == 0 && st.brackets == 0 then
      st.(pieces := if !Blank(st.current) then st.pieces + [st.current] else st.pieces, current := "")
    else st.(current := st.current + [c])
  }

  /** A step grows the current item by at most one character and closes at most the item it grew. */
  lemma ArrayStepBounds(st: ArrayScan, c: char)
    ensures var r := ArrayStep(st, c);
      |r.current| <= |st.current| + 1
      && (r.pieces == st.pieces || r.pieces == st.pieces + [st.current] || r.pieces == st.pieces + [st.current + [c]])
  {
  }

  /** The array loop run over `content`. */
  function ArrayScanOf(content: string): (st: ArrayScan)
    ensures |st.current| <= |content|
    ensures forall k :: 0 <= k < |st.pieces| ==> |st.pieces[k]| <= |content|
  {
    if content == [] then ArrayStart
    else
      var prev := ArrayScanOf(content[..|content| - 1]);
      ArrayStepBounds(prev, content[|content| - 1]);
      ArrayStep(prev, content[|content| - 1])
  }

  /** The item texts of an array: the ones the loop closed, and the non-blank rest. */
  function ArrayPieces(content: string): (ps: seq<string>)
    ensures forall k :: 0 <= k < |ps| ==> |ps[k]| <= |content|
  {
    var st := ArrayScanOf(content);
    st.pieces + (if !Blank(st.current) then [st.current] else [])
  }

  /** A ',' closes the current item exactly when it is read at depth 0, outside a string and not escaped. */
  lemma CommaSplitsOnlyAtTop(st: ArrayScan)
    ensures ArrayStep(st, ',').current == "" <==>
      !st.escapeNext && !st.inString && st.braces == 0 && st.brackets == 0
  {
  }

  /** A backslash and the character after it are copied as they are; a quote after a backslash does not open or close a string. */
  lemma ArrayEscapeVerbatim(st: ArrayScan, c: char)
    requires !st.escapeNext
    ensures var r := ArrayStep(ArrayStep(st, '\\'), c);
      r.current == st.current + ['\\', c] && r.inString == st.inString && !r.escapeNext
      && r.pieces == st.pieces && r.braces == st.braces && r.brackets == st.brackets
  {
  }

  /** A character with no role in the scan. */
  predicate PlainChar(c: char)
  {
    c != '\\' && c != '"' && c != '{' && c != '}' && c != '[' && c != ']' && c != ','
  }

  predicate PlainText(x: string)
  {
    forall i :: 0 <= i < |x| ==> PlainChar(x[i])
  }

  /** An item text made of plain characters, and not blank. */
  predicate PlainItem(x: string)
  {
    PlainText(x) && !Blank(x)
  }

  /** Every item is plain. */
  predicate AllPlain(items: seq<string>)
  {
    items == [] || (AllPlain(items[..|items| - 1]) && PlainItem(items[|items| - 1]))
  }

  /** At depth 0, outside a string, with no escape pending. */
  predicate AtTop(st: ArrayScan)
  {
    st.braces == 0 && st.brackets == 0 && !st.inString && !st.escapeNext
  }

  lemma PlainStep(st: ArrayScan, c: char)
    requires AtTop(st) && PlainChar(c)
    ensures ArrayStep(st, c) == st.(current := st.current + [c])
  {
  }

  lemma CommaStep(st: ArrayScan)
    requires AtTop(st) && !Blank(st.current)
    ensures ArrayStep(st, ',') == st.(pieces := st.pieces + [st.current], current := "")
  {
  }

  /** Plain characters read at the top level only grow the current item. */
  lemma {:induction false} ScanPlainText(prefix: string, x: string)
    requires AtTop(ArrayScanOf(prefix)) && PlainText(x)
    ensures ArrayScanOf(prefix + x) == ArrayScanOf(prefix).(current := ArrayScanOf(prefix).current + x)
    decreases |x|
  {
    if x != [] {
      var init := x[..|x| - 1];
      ScanPlainText(prefix, init);
      assert (prefix + x)[..|prefix + x| - 1] == prefix + init;
      var st := ArrayScanOf(prefix + init);
      assert ArrayScanOf(prefix + x) == ArrayStep(st, x[|x| - 1]);
      PlainStep(st, x[|x| - 1]);
      assert st.current + [x[|x| - 1]] == ArrayScanOf(prefix).current + x;
    } else {
      assert prefix + x == prefix;
    }
  }

  /** A top-level comma after a non-blank item, then plain text: one more piece, and the text as the current item. */
  lemma CommaThenPlain(j: string, last: string)
    requires AtTop(ArrayScanOf(j)) && !Blank(ArrayScanOf(j).current) && PlainText(last)
    ensures var st := ArrayScanOf(j);
      ArrayScanOf(j + "," + last) == st.(pieces := st.pieces + [st.current], current := last)
  {
    var st := ArrayScanOf(j);
    var after := st.(pieces := st.pieces + [st.current], current := "");
    assert ArrayScanOf(j + ",") == after by {
      assert (j + ",")[..|j + ","| - 1] == j;
      CommaStep(st);
    }
    ScanPlainText(j + ",", last);
    assert after.current + last == last;
  }

  /** Scanning plain items joined by commas leaves all but the last as pieces and the last as the current item. */
  lemma {:induction false} ScanJoined(items: seq<string>)
    requires items != [] && AllPlain(items)
    ensures ArrayScanOf(Join(items, ",")) == ArrayScan(items[..|items| - 1], items[|items| - 1], 0, 0, false, false)
    decreases |items|
  {
    var last := items[|items| - 1];
    var init := items[..|items| - 1];
    assert Join(items, ",") == if init == [] then last else Join(init, ",") + "," + last by {
      assert items == init + [last];
      JoinSnoc(init, last, ",");
    }
    if init == [] {
      ScanPlainText("", last);
      assert "" + last == last;
    } else {
      assert ArrayScanOf(Join(init, ",")) == ArrayScan(items[..|items| - 2], init[|init| - 1], 0, 0, false, false) by {
        ScanJoined(init);
      }
      assert items[..|items| - 2] + [init[|init| - 1]] == init;
      CommaThenPlain(Join(init, ","), last);
    }
  }

  lemma PiecesAtEnd(c: string, st: ArrayScan)
    requires ArrayScanOf(c) == st && !Blank(st.current)
    ensures ArrayPieces(c) == st.pieces + [st.current]
  {
  }

  /** Plain items joined by commas split back into the same items. */
  lemma SplitsJoinedItems(items: seq<string>)
    requires items != [] && AllPlain(items)
    ensures ArrayPieces(Join(items, ",")) == items
  {
    var last := items[|items| - 1];
    var st := ArrayScan(items[..|items| - 1], last, 0, 0, false, false);
    ScanJoined(items);
    assert PlainItem(last);
    PiecesAtEnd(Join(items, ","), st);
    assert items[..|items| - 1] + [last] == items;
  }

  // --------------------------------------------------------- object scan

  /** The locals of the object loop; `pairs` are the cleaned keys with their stripped value texts. */
  datatype ObjectScan = ObjectScan(pairs: seq<(string, string)>, key: string, value: string,
                                   braces: int, brackets: int, inString: bool, escapeNext: bool, inKey: bool)

  const ObjectStart := ObjectScan([], "", "", 0, 0, false, false, true)

  /** A character goes to the key while the key is being read, to the value afterwards. */
  function Add(st: ObjectScan, c: char): ObjectScan
  {
    if st.inKey then st.(key := st.key + [c]) else st.(value := st.value + [c])
  }

  /** The pairs after the property being read is closed; a blank key closes nothing. */
  function Close(st: ObjectScan): seq<(string, string)>
  {
    if !Blank(st.key) then st.pairs + [(CleanKey(st.key), Strip(st.value))] else st.pairs
  }

  /** One character of the object loop. */
  function ObjectStep(st: ObjectScan, c: char): ObjectScan
  {
    if st.escapeNext then Add(st, c).(escapeNext := false)
    else if c == '\\' then Add(st, c).(escapeNext := true)
    else if c == '"' then Add(st.(inString := !st.inString), c)
    else if st.inString then Add(st, c)
    else if c == ':' && st.inKey && st.braces == 0 && st.brackets == 0 then st.(inKey := false)
    else if c == '{' then st.(braces := st.braces + 1, value := st.value + [c])
    else if c == '}' then st.(braces := st.braces - 1, value := st.value + [c])
    else if c == '[' then st.(brackets := st.brackets + 1, value := st.value + [c])
    else if c == ']' then st.(brackets := st.brackets - 1, value := st.value + [c])
    else if c == ',' && st.braces == 0 && st.brackets == 0 then
      ObjectScan(Close(st), "", "", st.braces, st.brackets, st.inString, st.escapeNext, true)
    else Add(st, c)
  }

  /** A step grows the key or the value by at most one character and closes at most the current property. */
  lemma ObjectStepBounds(st: ObjectScan, c: char)
    ensures var r := ObjectStep(st, c);
      |r.key| <= |st.key| + 1 && |r.value| <= |st.value| + 1 && (r.pairs == st.pairs || r.pairs == Close(st))
  {
    ObjectCommaCloses(st, c);
    ObjectStepLengths(st, c);
  }

  lemma ObjectStepLengths(st: ObjectScan, c: char)
    ensures var r := ObjectStep(st, c); |r.key| <= |st.key| + 1 && |r.value| <= |st.value| + 1
  {
  }

  /** The object loop run over `content`. */
  function ObjectScanOf(content: string): (st: ObjectScan)
    ensures |st.key| <= |content| && |st.value| <= |content|
    ensures forall k :: 0 <= k < |st.pairs| ==> |st.pairs[k].1| <= |content|
  {
    if content == [] then ObjectStart
    else
      var prev := ObjectScanOf(content[..|content| - 1]);
      ObjectStepBounds(prev, content[|content| - 1]);
      ObjectStep(prev, content[|content| - 1])
  }

  lemma ObjectScanSnoc(content: string, i: nat)
    requires i < |content|
    ensures ObjectScanOf(content[..i + 1]) == ObjectStep(ObjectScanOf(content[..i]), content[i])
  {
    assert content[..i + 1][..i] == content[..i];
  }

  /** The key and value texts of an object, the last property included. */
  function ObjectPairs(content: string): (ps: seq<(string, string)>)
    ensures forall k :: 0 <= k < |ps| ==> |ps[k].1| <= |content|
  {
    Close(ObjectScanOf(content))
  }

  /** A property is closed exactly by a ',' read at depth 0, outside a string and not escaped. */
  lemma ObjectCommaCloses(st: ObjectScan, c: char)
    ensures ObjectStep(st, c).pairs ==
      if c == ',' && !st.escapeNext && !st.inString && st.braces == 0 && st.brackets == 0 then Close(st) else st.pairs
  {
  }

  /** The first ':' at depth 0 outside a string ends the key and is itself dropped. */
  lemma ColonEndsKey(st: ObjectScan)
    requires st.inKey && !st.escapeNext && !st.inString && st.braces == 0 && st.brackets == 0
    ensures ObjectStep(st, ':') == st.(inKey := false)
  {
  }

  /** Once the key is read, a further ':' belongs to the value. */
  lemma LaterColonInValue(st: ObjectScan)
    requires !st.inKey && !st.escapeNext && !st.inString
    ensures ObjectStep(st, ':') == st.(value := st.value + [':'])
  {
  }

  lemma ObjectEscapeVerbatim(st: ObjectScan, c: char)
    requires !st.escapeNext
    ensures var r := ObjectStep(ObjectStep(st, '\\'), c);
      r.inString == st.inString && !r.escapeNext && r.inKey == st.inKey && r.pairs == st.pairs
      && (st.inKey ==> r.key == st.key + ['\\', c]) && (!st.inKey ==> r.value == st.value + ['\\', c])
  {
  }

  // -------------------------------------------------------- manual parse

  /**
   * `manual_json_parse`. Arrays and objects are sliced from the stripped text
   * up to an index found in the unstripped text, as the code does.
   */
  function ManualJson(s: string): (r: Json)
    ensures StartsWithChar(Strip(s), '[') && RFindChar(s, ']') >= 0 ==> r.JArr?
    ensures StartsWithChar(Strip(s), '{') && RFindChar(s, '}') >= 0 ==> r.JObj?
    ensures r.JArr? || r.JObj? ==> StartsWithChar(Strip(s), '[') || StartsWithChar(Strip(s), '{')
    decreases |s|, 2, 0
  {
    var t := Strip(s);
    if StartsWithChar(t, '[') && RFindChar(s, ']') >= 0 then
      JArr(ArrayValues(Slice(t, 1, RFindChar(s, ']'))))
    else if StartsWithChar(t, '{') && RFindChar(s, '}') >= 0 then
      var content := Slice(t, 1, RFindChar(s, '}'));
      JObj(Properties(ObjectPairs(content), content))
    else ScalarJson(t)
  }

  /** The scalar branches, tried in order on the stripped text. */
  function ScalarJson(t: string): Json
  {
    var low := Lower(t);
    if Quoted(t) then JStr(Inner(t))
    else if t != "" && AllDigits(t) then JInt(DigitsValue(t))
    else if SimpleFloat(t) then JFloat(t)
    else if low == "true" then JBool(true)
    else if low == "false" then JBool(false)
    else if low == "null" then JNull
    else JStr(t)
  }

  /** Each item text of an array, parsed. */
  function ArrayValues(content: string): (r: seq<Json>)
    decreases |content|, 3, 0
  {
    var ps := ArrayPieces(content);
    seq(|ps|, k requires 0 <= k < |ps| => ManualJson(ps[k]))
  }

  /** The properties dict: each pair's converted value stored under its key, later keys overwriting. */
  function Properties(pairs: seq<(string, string)>, content: string): seq<(string, Json)>
    requires forall k :: 0 <= k < |pairs| ==> |pairs[k].1| <= |content|
    decreases |content|, 5, |pairs|
  {
    if pairs == [] then []
    else
      var last := pairs[|pairs| - 1];
      Put(Properties(pairs[..|pairs| - 1], content), last.0, ConvertValue(last.1))
  }

  /** A property value: containers recurse, then true/false/null, a quoted string, `int`, `float`, and the raw text. */
  function ConvertValue(v: string): Json
    decreases |v|, 4, 0
  {
    if StartsWithChar(v, '{') || StartsWithChar(v, '[') then ManualJson(v) else ScalarValue(v)
  }

  /** The non-container branches of the value conversion, in their order. */
  function ScalarValue(v: string): Json
  {
    var low := Lower(v);
    if low == "true" then JBool(true)
    else if low == "false" then JBool(false)
    else if low == "null" then JNull
    else if Quoted(v) then JStr(Inner(v))
    else if IntLiteral(v) then JInt(IntValue(v))
    else if FloatLiteral(v) then JFloat(v)
    else JStr(v)
  }

  /** Text that starts with neither a letter nor a bracket is no keyword. */
  lemma NotKeyword(v: string)
    requires |v| > 0 && !('a' <= v[0] <= 'z') && !('A' <= v[0] <= 'Z')
    ensures var low := Lower(v); low != "true" && low != "false" && low != "null"
  {
    var low := Lower(v);
    assert low[0] == v[0];
    assert "true"[0] == 't' && "false"[0] == 'f' && "null"[0] == 'n';
  }

  /** A quoted number stays a string: quotes are tried before `int()`. */
  lemma QuotedNumberIsString(v: string)
    ensures ConvertValue("\"" + v + "\"") == JStr(v)
  {
    var q := "\"" + v + "\"";
    assert q[0] == '"' && q[|q| - 1] == '"';
    NotKeyword(q);
    assert !StartsWithChar(q, '{') && !StartsWithChar(q, '[');
    assert Quoted(q);
    assert Inner(q) == v;
  }

  /** An integer literal converts to its value; no earlier branch takes it. */
  lemma IntLiteralConverts(v: string)
    requires IntLiteral(v)
    ensures ConvertValue(v) == JInt(IntValue(v))
  {
    assert v[0] != '"' && v[0] != '{' && v[0] != '[' by {
      assert IsDigit(v[0]) || Sign(v[0]);
    }
    NotKeyword(v);
    assert !Quoted(v) && !StartsWithChar(v, '{') && !StartsWithChar(v, '[');
    assert ScalarValue(v) == JInt(IntValue(v));
  }

  /** A stripped text that opens no container takes the scalar branches. */
  lemma ScalarBranch(s: string)
    requires var t := Strip(s); !StartsWithChar(t, '[') && !StartsWithChar(t, '{')
    ensures ManualJson(s) == ScalarJson(Strip(s))
  {
  }

  /** Decimal digits alone parse as that integer. */
  lemma DigitsParseAsInt(s: string)
    requires Strip(s) != "" && AllDigits(Strip(s))
    ensures ManualJson(s) == JInt(DigitsValue(Strip(s)))
  {
    var t := Strip(s);
    assert IsDigit(t[0]);
    assert !StartsWithChar(t, '[') && !StartsWithChar(t, '{') && !Quoted(t);
    ScalarBranch(s);
  }

  /** A quoted text parses as the text between the quotes. */
  lemma QuotedParsesAsString(s: string)
    requires Quoted(Strip(s))
    ensures ManualJson(s) == JStr(Inner(Strip(s)))
  {
    var t := Strip(s);
    assert t[0] == '"';
    assert !StartsWithChar(t, '[') && !StartsWithChar(t, '{');
    ScalarBranch(s);
  }

  /** A stripped text opening with '[' takes the array branch when the text holds a ']'. */
  lemma ArrayBranch(s: string)
    requires StartsWithChar(Strip(s), '[') && RFindChar(s, ']') >= 0
    ensures ManualJson(s) == JArr(ParsedAll(ArrayPieces(Slice(Strip(s), 1, RFindChar(s, ']')))))
  {
  }

  /** A bracketed text is the array of its content's item texts, each parsed. */
  lemma BracketedArray(j: string)
    ensures ManualJson("[" + j + "]") == JArr(ParsedAll(ArrayPieces(j)))
  {
    BracketFacts(j);
    ArrayBranch("[" + j + "]");
  }

  lemma BracketFacts(j: string)
    ensures var s := "[" + j + "]";
      Strip(s) == s && RFindChar(s, ']') == |s| - 1 && Slice(s, 1, |s| - 1) == j && StartsWithChar(s, '[')
  {
    var s := "[" + j + "]";
    assert |s| == |j| + 2 && s[0] == '[' && s[|s| - 1] == ']';
    assert s[1..|s| - 1] == j;
    StripKeeps(s);
  }

  /** A bracketed comma list of plain items is an array of the items, each parsed. */
  lemma ParsesBracketedList(items: seq<string>)
    requires items != [] && AllPlain(items)
    ensures ManualJson("[" + Join(items, ",") + "]") == JArr(ParsedAll(items))
  {
    BracketedArray(Join(items, ","));
    SplitsJoinedItems(items);
  }

  /**
   * The array content is cut from the stripped text at an index found in the
   * unstripped one, so leading blanks keep the closing bracket in the content.
   */
  lemma LeadingBlanksKeepBracket()
    ensures ManualJson("  [1]") == JArr([JStr("1]")])
  {
    LeadingBlanksContent();
    ArrayBranch("  [1]");
    BracketItemPieces();
    BracketItemScalar();
  }

  lemma LeadingBlanksContent()
    ensures Strip("  [1]") == "[1]" && RFindChar("  [1]", ']') == 4 && Slice("[1]", 1, 4) == "1]"
  {
    var s := "  [1]";
    assert s[1..] == " [1]" && s[1..][1..] == "[1]";
    assert "[1]"[1..3] == "1]";
    assert StripLeft(s) == "[1]";
  }

  lemma BracketItemPieces()
    ensures ArrayPieces("1]") == ["1]"]
  {
    assert !Blank("1]") by {
      assert !IsSpace(']');
      assert "1]"[1] == ']';
    }
    assert "1]"[..1] == "1" && "1"[..0] == "";
    assert ArrayScanOf("1") == ArrayScan([], "1", 0, 0, false, false);
    assert ArrayScanOf("1]") == ArrayScan([], "1]", 0, -1, false, false);
  }

  lemma BracketItemScalar()
    ensures ManualJson("1]") == JStr("1]")
  {
    var t := "1]";
    assert t[0] == '1' && t[1] == ']' && |t| == 2;
    assert !AllDigits(t) && !Quoted(t);
    assert Strip(t) == t by {
      StripKeeps(t);
    }
    assert Find(t, ".") == -1;
    assert !SimpleFloat(t);
    assert Lower(t) == t;
    ScalarBranch(t);
  }

  // ------------------------------------------------------------- methods

  /** The items of `ps`, each parsed. */
  function ParsedAll(ps: seq<string>): (r: seq<Json>)
    ensures |r| == |ps| && forall k :: 0 <= k < |ps| ==> r[k] == ManualJson(ps[k])
  {
    seq(|ps|, k requires 0 <= k < |ps| => ManualJson(ps[k]))
  }

  lemma ParsedAllSnoc(ps: seq<string>, x: string)
    ensures ParsedAll(ps + [x]) == ParsedAll(ps) + [ManualJson(x)]
  {
    assert forall k :: 0 <= k < |ps| ==> (ps + [x])[k] == ps[k];
  }

  /** `manual_json_parse`, with its two character loops. */
  method ManualParse(s: string) returns (j: Json)
    ensures j == ManualJson(s)
    decreases |s|, 2, 0
  {
    var t := Strip(s);
    if StartsWithChar(t, '[') && RFindChar(s, ']') >= 0 {
      var items := ParseArray(Slice(t, 1, RFindChar(s, ']')));
      j := JArr(items);
    } else if StartsWithChar(t, '{') && RFindChar(s, '}') >= 0 {
      var content := Slice(t, 1, RFindChar(s, '}'));
      var props := ParseObject(content);
      j := JObj(props);
    } else {
      j := ScalarJson(t);
    }
  }

  /** The array loop: items split at top-level commas and closing braces, each parsed recursively. */
  method ParseArray(content: string) returns (items: seq<Json>)
    ensures items == ArrayValues(content)
    decreases |content|, 3, 0
  {
    items := [];
    var current := "";
    var braces, brackets := 0, 0;
    var inString, escapeNext := false, false;
    var i := 0;
    while i < |content|
      invariant 0 <= i <= |content|
      invariant ArrayScanOf(content[..i]) == ArrayScan(ArrayScanOf(content[..i]).pieces, current, braces, brackets, inString, escapeNext)
      invariant items == ParsedAll(ArrayScanOf(content[..i]).pieces)
    {
      ghost var before := ArrayScanOf(content[..i]);
      assert content[..i + 1][..i] == content[..i];
      var c := content[i];
      ghost var after := ArrayStep(before, c);
      assert ArrayScanOf(content[..i + 1]) == after;
      if escapeNext {
        current, escapeNext := current + [c], false;
      } else if c == '\\' {
        current, escapeNext := current + [c], true;
      } else if c == '"' {
        inString, current := !inString, current + [c];
      } else if inString {
        current := current + [c];
      } else if c == '{' {
        braces, current := braces + 1, current + [c];
      } else if c == '}' {
        braces, current := braces - 1, current + [c];
        if braces == 0 && brackets == 0 && !Blank(current) {
          var v := ManualParse(current);
          ParsedAllSnoc(before.pieces, current);
          items, current := items + [v], "";
        }
      } else if c == '[' {
        brackets, current := brackets + 1, current + [c];
      } else if c == ']' {
        brackets, current := brackets - 1, current + [c];
      } else if c == ',' && braces == 0 && brackets == 0 {
        if !Blank(current) {
          var v := ManualParse(current);
          ParsedAllSnoc(before.pieces, current);
          items := items + [v];
        }
        current := "";
      } else {
        current := current + [c];
      }
      i := i + 1;
    }
    assert content[..i] == content;
    if !Blank(current) {
      var v := ManualParse(current);
      ParsedAllSnoc(ArrayScanOf(content).pieces, current);
      items := items + [v];
    }
  }

  /** The object loop: keys end at the first top-level ':', properties at top-level commas. */
  method ParseObject(content: string) returns (props: seq<(string, Json)>)
    ensures props == Properties(ObjectPairs(content), content)
    decreases |content|, 5, 0
  {
    props := [];
    var key, value := "", "";
    var braces, brackets := 0, 0;
    var inString, escapeNext, inKey := false, false, true;
    var i := 0;
    ghost var st := ObjectStart;
    while i < |content|
      invariant 0 <= i <= |content|
      invariant st == ObjectScanOf(content[..i])
      invariant st == ObjectScan(st.pairs, key, value, braces, brackets, inString, escapeNext, inKey)
      invariant props == Properties(st.pairs, content)
    {
      ObjectScanSnoc(content, i);
      props, key, value, braces, brackets, inString, escapeNext, inKey :=
        ObjectChar(props, key, value, braces, brackets, inString, escapeNext, inKey, content[i], st, content);
      st := ObjectStep(st, content[i]);
      i := i + 1;
    }
    assert content[..i] == content;
    props := StoreProperty(props, key, value, st, content);
  }

  /** One character of the object loop on its locals; a top-level ',' stores the property it ends. */
  method ObjectChar(props: seq<(string, Json)>, key: string, value: string, braces: int, brackets: int,
                    inString: bool, escapeNext: bool, inKey: bool, c: char, ghost st: ObjectScan, ghost content: string)
    returns (props': seq<(string, Json)>, key': string, value': string, braces': int, brackets': int,
             inString': bool, escapeNext': bool, inKey': bool)
    requires st == ObjectScan(st.pairs, key, value, braces, brackets, inString, escapeNext, inKey)
    requires |st.value| <= |content|
    requires forall k :: 0 <= k < |st.pairs| ==> |st.pairs[k].1| <= |content|
    requires props == Properties(st.pairs, content)
    ensures ObjectStep(st, c) == ObjectScan(ObjectStep(st, c).pairs, key', value', braces', brackets', inString', escapeNext', inKey')
    ensures props' == Properties(ObjectStep(st, c).pairs, content)
    decreases |content|, 4, 2
  {
    props', key', value', braces', brackets', inString', escapeNext', inKey' :=
      props, key, value, braces, brackets, inString, escapeNext, inKey;
    ObjectCommaCloses(st, c);
    if escapeNext {
      if inKey { key' := key + [c]; } else { value' := value + [c]; }
      escapeNext' := false;
    } else if c == '\\' {
      if inKey { key' := key + [c]; } else { value' := value + [c]; }
      escapeNext' := true;
    } else if c == '"' {
      inString' := !inString;
      if inKey { key' := key + [c]; } else { value' := value + [c]; }
    } else if inString {
      if inKey { key' := key + [c]; } else { value' := value + [c]; }
    } else if c == ':' && inKey && braces == 0 && brackets == 0 {
      inKey' := false;
    } else if c == '{' {
      braces', value' := braces + 1, value + [c];
    } else if c == '}' {
      braces', value' := braces - 1, value + [c];
    } else if c == '[' {
      brackets', value' := brackets + 1, value + [c];
    } else if c == ']' {
      brackets', value' := brackets - 1, value + [c];
    } else if c == ',' && braces == 0 && brackets == 0 {
      props' := StoreProperty(props, key, value, st, content);
      key', value', inKey' := "", "", true;
    } else {
      if inKey { key' := key + [c]; } else { value' := value + [c]; }
    }
  }

  /** Stores the property being read, when its key is not blank. */
  method StoreProperty(props: seq<(string, Json)>, key: string, value: string, ghost st: ObjectScan, ghost content: string)
    returns (r: seq<(string, Json)>)
    requires st.key == key && st.value == value
    requires |st.value| <= |content|
    requires forall k :: 0 <= k < |st.pairs| ==> |st.pairs[k].1| <= |content|
    requires props == Properties(st.pairs, content)
    ensures r == Properties(Close(st), content)
    decreases |content|, 4, 1
  {
    r := props;
    if !Blank(key) {
      var v := Convert(Strip(value));
      assert Close(st)[..|Close(st)| - 1] == st.pairs;
      r := Put(props, CleanKey(key), v);
    }
  }

  /** The value conversion, recursing into containers. */
  method Convert(v: string) returns (j: Json)
    ensures j == ConvertValue(v)
    decreases |v|, 4, 0
  {
    if StartsWithChar(v, '{') || StartsWithChar(v, '[') {
      j := ManualParse(v);
    } else {
      j := ScalarValue(v);
    }
  }
}
