/** Byte strings and the few text operations the protocols share.
    A byte string is modelled as a `string` that holds one character per byte. */
module Text {

  type Bytes = string

  datatype Option<+T> = None | Some(value: T)

  const CRLF: Bytes := "\r\n"

  /** Concatenation of a list of byte strings. */
  function Concat(parts: seq<Bytes>): Bytes {
    if parts == [] then "" else Concat(parts[..|parts| - 1]) + parts[|parts| - 1]
  }

  lemma ConcatNone()
    ensures Concat([]) == ""
  {
  }

  lemma Assoc(a: Bytes, b: Bytes, c: Bytes)
    ensures (a + b) + c == a + (b + c)
    ensures a + "" == a && "" + a == a
  {
  }

  lemma ConcatOne(parts: seq<Bytes>, b: Bytes)
    ensures Concat(parts + [b]) == Concat(parts) + b
  {
    assert (parts + [b])[..|parts|] == parts;
  }

  // ---------- numerals ----------

  predicate IsDigit(c: char) { '0' <= c <= '9' }

  predicate AllDigits(s: Bytes) { forall i :: 0 <= i < |s| ==> IsDigit(s[i]) }

  function DecimalValue(s: Bytes): nat
    requires AllDigits(s)
  {
    if s == "" then 0 else DecimalValue(s[..|s| - 1]) * 10 + (s[|s| - 1] as int - '0' as int)
  }

  function Decimal(n: nat): (s: Bytes)
    ensures |s| > 0 && AllDigits(s) && DecimalValue(s) == n
  {
    var last := ['0' + (n % 10) as char];
    if n < 10 then
      assert last[..0] == "";
      last
    else
      var front := Decimal(n / 10);
      assert (front + last)[..|front|] == front;
      front + last
  }

  predicate IsHexDigit(c: char) { '0' <= c <= '9' || 'a' <= c <= 'f' || 'A' <= c <= 'F' }

  predicate AllHexDigits(s: Bytes) { forall i :: 0 <= i < |s| ==> IsHexDigit(s[i]) }

  function HexDigitValue(c: char): nat
    requires IsHexDigit(c)
  {
    if c <= '9' then c as int - '0' as int
    else if c <= 'F' then c as int - 'A' as int + 10
    else c as int - 'a' as int + 10
  }

  function HexValue(s: Bytes): nat
    requires AllHexDigits(s)
  {
    if s == "" then 0 else HexValue(s[..|s| - 1]) * 16 + HexDigitValue(s[|s| - 1])
  }

  /** `b"%x" % n`. */
  function Hex(n: nat): (s: Bytes)
    ensures |s| > 0 && AllHexDigits(s) && HexValue(s) == n
  {
    var d := n % 16;
    var last := [if d < 10 then '0' + d as char else 'a' + (d - 10) as char];
    if n < 16 then
      assert last[..0] == "";
      last
    else
      var front := Hex(n / 16);
      assert (front + last)[..|front|] == front;
      front + last
  }

  // ---------- case, white space, splitting ----------

  function LowerChar(c: char): char {
    if 'A' <= c <= 'Z' then c - 'A' + 'a' else c
  }

  function Lower(s: Bytes): (r: Bytes)
    ensures |r| == |s|
  {
    seq(|s|, i requires 0 <= i < |s| => LowerChar(s[i]))
  }

  lemma LowerOfLower(s: Bytes)
    ensures Lower(Lower(s)) == Lower(s)
  {
  }

  /** The white space that `bytes.strip` removes. */
  predicate IsSpace(c: char) {
    c == ' ' || '\t' <= c <= '\r'
  }

  /** The white space of ASCII text, which `int` allows around a number. */
  predicate IsTextSpace(c: char) {
    IsSpace(c) || '\U{1c}' <= c <= '\U{1f}'
  }

  function StripLeft(s: Bytes, space: char -> bool): Bytes {
    if s != "" && space(s[0]) then StripLeft(s[1..], space) else s
  }

  function StripRight(s: Bytes, space: char -> bool): Bytes {
    if s != "" && space(s[|s| - 1]) then StripRight(s[..|s| - 1], space) else s
  }

  function Strip(s: Bytes, space: char -> bool): Bytes {
    StripRight(StripLeft(s, space), space)
  }

  /** `s.split(sep)` for a one-character separator. */
  function Split(s: Bytes, sep: char): (parts: seq<Bytes>)
    ensures |parts| > 0
  {
    if s == "" then [""]
    else
      var rest := Split(s[1..], sep);
      if s[0] == sep then [""] + rest else [[s[0]] + rest[0]] + rest[1..]
  }

  // ---------- Python's int() on ASCII text ----------

  /** Digits with single underscores between them. */
  predicate IsNumeral(s: Bytes) {
    && s != "" && IsDigit(s[0]) && IsDigit(s[|s| - 1])
    && (forall i :: 0 <= i < |s| ==> IsDigit(s[i]) || s[i] == '_')
    && (forall i :: 0 < i < |s| && s[i] == '_' ==> s[i - 1] != '_')
  }

  function DropUnderscores(s: Bytes): (r: Bytes)
    requires forall i :: 0 <= i < |s| ==> IsDigit(s[i]) || s[i] == '_'
    ensures AllDigits(r)
  {
    if s == "" then ""
    else if s[0] == '_' then DropUnderscores(s[1..])
    else [s[0]] + DropUnderscores(s[1..])
  }

  /** `int(s)` for ASCII text; None stands for the ValueError. */
  function PyInt(s: Bytes): Option<int> {
    var t := Strip(s, IsTextSpace);
    var sign := t != "" && (t[0] == '-' || t[0] == '+');
    var digits := if sign then t[1..] else t;
    if !IsNumeral(digits) then None
    else
      var n: int := DecimalValue(DropUnderscores(digits));
      Some(if sign && t[0] == '-' then -n else n)
  }

  lemma StripsNothing(s: Bytes, space: char -> bool)
    requires s == "" || (!space(s[0]) && !space(s[|s| - 1]))
    ensures Strip(s, space) == s
  {
  }

  lemma DropsNoUnderscore(s: Bytes)
    requires AllDigits(s)
    ensures DropUnderscores(s) == s
  {
    if s != "" {
      DropsNoUnderscore(s[1..]);
      assert s == [s[0]] + s[1..];
    }
  }

  /** On a plain decimal numeral `int` reads the number that RFC 9110 section 8.6 means. */
  lemma PyIntOfDigits(s: Bytes)
    requires s != "" && AllDigits(s)
    ensures PyInt(s) == Some(DecimalValue(s))
  {
    StripsNothing(s, IsTextSpace);
    DropsNoUnderscore(s);
  }
}
