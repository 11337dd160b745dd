/** `json.loads` on a `str`, as Python's C scanner reads it: RFC 8259 JSON plus
    Python's `NaN`, `Infinity` and `-Infinity`; whitespace is space, tab, newline and
    carriage return; a later duplicate key replaces the value of an earlier one; a
    leading byte-order mark is refused. */
module JsonText {
  import opened Json

  /** Something after which parsing goes on: a value and the text that follows it. */
  type Parsed<T> = Option<(T, string)>

  predicate IsWs(c: char) {
    c == ' ' || c == '\t' || c == '\n' || c == '\r'
  }

  predicate IsDigit(c: char) {
    '0' <= c <= '9'
  }

  /** The text after any leading whitespace. */
  function SkipWs(s: string): (r: string)
    ensures |r| <= |s| && r == s[|s| - |r|..]
    ensures r == [] || !IsWs(r[0])
  {
    if s != [] && IsWs(s[0]) then SkipWs(s[1..]) else s
  }

  predicate StartsWith(s: string, p: string) {
    |p| <= |s| && s[..|p|] == p
  }

  /** The number of leading decimal digits. */
  function DigitRun(s: string): (n: nat)
    ensures n <= |s|
    ensures forall i :: 0 <= i < n ==> IsDigit(s[i])
    ensures n < |s| ==> !IsDigit(s[n])
  {
    if s != [] && IsDigit(s[0]) then 1 + DigitRun(s[1..]) else 0
  }

  /** The value of a string of decimal digits. */
  function DigitsValue(ds: string): (v: nat)
    requires forall i :: 0 <= i < |ds| ==> IsDigit(ds[i])
  {
    if ds == [] then 0
    else
      assert IsDigit(ds[|ds| - 1]);
      DigitsValue(ds[..|ds| - 1]) * 10 + (ds[|ds| - 1] as int - '0' as int)
  }

  /** A number: `-?(0|[1-9][0-9]*)(\.[0-9]+)?([eE][-+]?[0-9]+)?`, an integer when it has
      neither fraction nor exponent. A `.` or an exponent marker not followed by what
      it needs is left unread. */
  function ParseNumber(s: string): (r: Parsed<JSON>)
    ensures r.Some? ==> |r.value.1| < |s|
  {
    var sign := if s != [] && s[0] == '-' then 1 else 0;
    var t := s[sign..];
    if t == [] || !IsDigit(t[0]) then None
    else
      var n := if t[0] == '0' then 1 else DigitRun(t);
      var f := if n + 1 < |t| && t[n] == '.' && IsDigit(t[n + 1]) then 1 + DigitRun(t[n + 1..]) else 0;
      var p := n + f;
      var e :=
        if p + 1 < |t| && (t[p] == 'e' || t[p] == 'E') then
          var q := if p + 2 < |t| && (t[p + 1] == '-' || t[p + 1] == '+') then p + 2 else p + 1;
          var d := DigitRun(t[q..]);
          if d > 0 then q + d - p else 0
        else 0;
      var len := sign + p + e;
      var magnitude: int := DigitsValue(t[..n]);
      var v := if f == 0 && e == 0 then JInt(if sign == 1 then -magnitude else magnitude)
               else JFloat(s[..len]);
      Some((v, s[len..]))
  }

  /** The value of four hexadecimal digits, in either case. */
  function HexValue(c: char): Option<int> {
    if '0' <= c <= '9' then Some(c as int - '0' as int)
    else if 'a' <= c <= 'f' then Some(c as int - 'a' as int + 10)
    else if 'A' <= c <= 'F' then Some(c as int - 'A' as int + 10)
    else None
  }

  function Hex4(s: string): (r: Option<int>)
    requires |s| >= 4
    ensures r.Some? ==> 0 <= r.value < 0x10000
  {
    var a :- HexValue(s[0]);
    var b :- HexValue(s[1]);
    var c :- HexValue(s[2]);
    var d :- HexValue(s[3]);
    if 0 <= a < 16 && 0 <= b < 16 && 0 <= c < 16 && 0 <= d < 16 then
      Some(((a * 16 + b) * 16 + c) * 16 + d)
    else None
  }

  predicate IsHighSurrogate(c: int) { 0xD800 <= c < 0xDC00 }
  predicate IsLowSurrogate(c: int) { 0xDC00 <= c < 0xE000 }

  /** The character a `\u` escape stands for, on its own; a lone surrogate, which a
      `char` cannot hold, is read as U+FFFD. */
  function CodeChar(c: int): char
    requires 0 <= c < 0x10000
  {
    if IsHighSurrogate(c) || IsLowSurrogate(c) then '\U{FFFD}' else c as char
  }

  /** The body of a string, after its opening quote, with the characters read so far:
      the escapes of RFC 8259 section 7, a surrogate pair joined into one character, a
      raw control character refused. */
  function ParseChars(s: string, acc: string): (r: Parsed<string>)
    ensures r.Some? ==> |r.value.1| < |s|
    decreases |s|
  {
    if s == [] then None
    else if s[0] == '"' then Some((acc, s[1..]))
    else if s[0] == '\\' then
      if |s| < 2 then None
      else if s[1] == '"' then ParseChars(s[2..], acc + ['"'])
      else if s[1] == '\\' then ParseChars(s[2..], acc + ['\\'])
      else if s[1] == '/' then ParseChars(s[2..], acc + ['/'])
      else if s[1] == 'b' then ParseChars(s[2..], acc + ['\U{8}'])
      else if s[1] == 'f' then ParseChars(s[2..], acc + ['\U{C}'])
      else if s[1] == 'n' then ParseChars(s[2..], acc + ['\n'])
      else if s[1] == 'r' then ParseChars(s[2..], acc + ['\r'])
      else if s[1] == 't' then ParseChars(s[2..], acc + ['\t'])
      else if s[1] == 'u' then
        if |s| < 6 then None
        else
          var c :- Hex4(s[2..6]);
          if IsHighSurrogate(c) && |s| >= 12 && s[6] == '\\' && s[7] == 'u' then
            var c2 :- Hex4(s[8..12]);
            if IsLowSurrogate(c2) then
              ParseChars(s[12..], acc + [(0x10000 + (c - 0xD800) * 0x400 + (c2 - 0xDC00)) as char])
            else ParseChars(s[6..], acc + [CodeChar(c)])
          else ParseChars(s[6..], acc + [CodeChar(c)])
      else None
    else if s[0] < ' ' then None
    else ParseChars(s[1..], acc + [s[0]])
  }

  /** One JSON value at the very start of `s` (no leading whitespace). */
  function ParseValue(s: string): (r: Parsed<JSON>)
    ensures r.Some? ==> |r.value.1| < |s|
    decreases |s|, 0
  {
    if s == [] then None
    else if s[0] == '"' then
      var (str, rest) :- ParseChars(s[1..], []);
      Some((JStr(str), rest))
    else if s[0] == '{' then ParseObject(SkipWs(s[1..]))
    else if s[0] == '[' then ParseArray(SkipWs(s[1..]))
    else if StartsWith(s, "null") then Some((JNull, s[4..]))
    else if StartsWith(s, "true") then Some((JBool(true), s[4..]))
    else if StartsWith(s, "false") then Some((JBool(false), s[5..]))
    else if StartsWith(s, "NaN") then Some((JFloat("NaN"), s[3..]))
    else if StartsWith(s, "Infinity") then Some((JFloat("Infinity"), s[8..]))
    else if StartsWith(s, "-Infinity") then Some((JFloat("-Infinity"), s[9..]))
    else ParseNumber(s)
  }

  /** An object's body after `{` and whitespace. */
  function ParseObject(s: string): (r: Parsed<JSON>)
    ensures r.Some? ==> |r.value.1| < |s|
    ensures r.Some? ==> r.value.0.JObj?
    decreases |s|, 2
  {
    if s != [] && s[0] == '}' then Some((EmptyObj, s[1..]))
    else ParseMembers(s, [])
  }

  /** Members from a key on, with the entries read so far. */
  function ParseMembers(s: string, acc: Entries): (r: Parsed<JSON>)
    ensures r.Some? ==> |r.value.1| < |s|
    ensures r.Some? ==> r.value.0.JObj?
    decreases |s|, 1
  {
    if s == [] || s[0] != '"' then None
    else
      var (key, afterKey) :- ParseChars(s[1..], []);
      var colon := SkipWs(afterKey);
      if colon == [] || colon[0] != ':' then None
      else
        var (v, afterValue) :- ParseValue(SkipWs(colon[1..]));
        var next := SkipWs(afterValue);
        var entries := Put(acc, key, v);
        if next != [] && next[0] == '}' then Some((JObj(entries), next[1..]))
        else if next != [] && next[0] == ',' then ParseMembers(SkipWs(next[1..]), entries)
        else None
  }

  /** An array's body after `[` and whitespace. */
  function ParseArray(s: string): (r: Parsed<JSON>)
    ensures r.Some? ==> |r.value.1| < |s|
    ensures r.Some? ==> r.value.0.JList?
    decreases |s|, 2
  {
    if s != [] && s[0] == ']' then Some((EmptyList, s[1..]))
    else ParseItems(s, [])
  }

  /** Elements from a value on, with the elements read so far. */
  function ParseItems(s: string, acc: seq<JSON>): (r: Parsed<JSON>)
    ensures r.Some? ==> |r.value.1| < |s|
    ensures r.Some? ==> r.value.0.JList?
    decreases |s|, 1
  {
    var (v, afterValue) :- ParseValue(s);
    var next := SkipWs(afterValue);
    if next != [] && next[0] == ']' then Some((JList(acc + [v]), next[1..]))
    else if next != [] && next[0] == ',' then ParseItems(SkipWs(next[1..]), acc + [v])
    else None
  }

  /** A text made only of digits is read whole as one run of digits. */
  lemma {:induction false} DigitRunAll(s: string)
    requires forall i :: 0 <= i < |s| ==> IsDigit(s[i])
    ensures DigitRun(s) == |s|
    decreases |s|
  {
    if s != [] {
      DigitRunAll(s[1..]);
    }
  }

  /** `json.loads(s)`: one value, with only whitespace around it. */
  function Loads(s: string): (r: Option<JSON>)
    ensures s == [] ==> r.None?
  {
    if s != [] && s[0] == '\U{FEFF}' then None
    else
      var (v, rest) :- ParseValue(SkipWs(s));
      if SkipWs(rest) == [] then Some(v) else None
  }

  /** The document is JSON as `json.loads` reads it. */
  predicate Valid(s: string) {
    Loads(s).Some?
  }

  /** A document that starts with `{` is, if it is JSON at all, an object. */
  lemma BraceGivesObject(s: string)
    requires s != [] && s[0] == '{'
    ensures Loads(s).Some? ==> Loads(s).value.JObj?
  {
  }

  /** Only whitespace is not JSON. */
  lemma {:induction false} BlankIsInvalid(s: string)
    requires forall i :: 0 <= i < |s| ==> IsWs(s[i])
    ensures !Valid(s)
    decreases |s|
  {
    if s != [] {
      BlankIsInvalid(s[1..]);
      assert SkipWs(s) == SkipWs(s[1..]);
    }
  }

  /** The number scanner on a text of digits: a leading zero is a number on its own. */
  lemma NumberOfDigits(s: string)
    requires s != [] && forall i :: 0 <= i < |s| ==> IsDigit(s[i])
    ensures ParseNumber(s) ==
      if s[0] == '0' then Some((JInt(0), s[1..])) else Some((JInt(DigitsValue(s)), []))
  {
    if s[0] == '0' {
      assert s[..1] == "0";
      assert DigitsValue(s[..1]) == 0;
    } else {
      DigitRunAll(s);
      assert s[..|s|] == s;
    }
  }

  /** A value starting with a digit is a number. */
  lemma DigitStartsNumber(s: string)
    requires s != [] && IsDigit(s[0])
    ensures ParseValue(s) == ParseNumber(s)
  {
    assert !StartsWith(s, "null") by { assert "null"[0] == 'n'; }
    assert !StartsWith(s, "true") by { assert "true"[0] == 't'; }
    assert !StartsWith(s, "false") by { assert "false"[0] == 'f'; }
    assert !StartsWith(s, "NaN") by { assert "NaN"[0] == 'N'; }
    assert !StartsWith(s, "Infinity") by { assert "Infinity"[0] == 'I'; }
    assert !StartsWith(s, "-Infinity") by { assert "-Infinity"[0] == '-'; }
  }

  /** `json.loads` of a text that starts with a value's first character: that value, if
      only whitespace follows it. */
  lemma LoadsValue(s: string)
    requires s != [] && !IsWs(s[0]) && s[0] != '\U{FEFF}'
    ensures Loads(s) ==
      match ParseValue(s)
      case None => None
      case Some((v, rest)) => if SkipWs(rest) == [] then Some(v) else None
  {
    assert SkipWs(s) == s;
  }

  /** A number that runs to the end of the text is what `json.loads` reads from it. */
  lemma LoadsWholeNumber(s: string, n: int)
    requires s != [] && IsDigit(s[0]) && ParseNumber(s) == Some((JInt(n), []))
    ensures Loads(s) == Some(JInt(n))
  {
    LoadsValue(s);
    DigitStartsNumber(s);
    var empty: string := [];
    assert SkipWs(empty) == empty;
  }

  /** A zero followed by another digit is refused. */
  lemma LoadsLeadingZero(s: string)
    requires |s| > 1 && s[0] == '0' && IsDigit(s[1]) && ParseNumber(s) == Some((JInt(0), s[1..]))
    ensures Loads(s) == None
  {
    assert ParseValue(s) == Some((JInt(0), s[1..])) by { DigitStartsNumber(s); }
    assert SkipWs(s[1..]) != [] by { assert !IsWs(s[1]); }
    LoadsValue(s);
  }

  /** A text of decimal digits is read as the integer it spells, except that a leading
      zero followed by more digits is refused, as `json.loads("01")` raises. */
  lemma DigitsLoad(s: string)
    requires s != [] && forall i :: 0 <= i < |s| ==> IsDigit(s[i])
    ensures Loads(s) == if s[0] == '0' && |s| > 1 then None else Some(JInt(DigitsValue(s)))
  {
    NumberOfDigits(s);
    if s[0] == '0' && |s| > 1 {
      LoadsLeadingZero(s);
    } else if s[0] == '0' {
      assert s == "0" && DigitsValue("0") == 0;
      LoadsWholeNumber(s, 0);
    } else {
      LoadsWholeNumber(s, DigitsValue(s));
    }
  }
}
