/**
 * The JavaScript string operations the front end relies on: the whitespace class of `\s` and of
 * `parseInt`, `String.prototype.includes`, `String.prototype.replace` with a string pattern, the
 * UTF-16 `length`, and the global `parseInt`.
 *
 * A Dafny `char` is a Unicode scalar value; a JavaScript string is a sequence of UTF-16 code
 * units, so a character above U+FFFF counts twice towards `length`.
 */
module JsText {
  import opened Common

  /** The characters `\s` matches, which are also the ones `parseInt` skips: WhiteSpace and LineTerminator. */
  predicate IsJsWhitespace(c: char)
  {
    var n := c as int;
    n == 0x09 || n == 0x0A || n == 0x0B || n == 0x0C || n == 0x0D || n == 0x20 || n == 0xA0 ||
    n == 0x1680 || (0x2000 <= n <= 0x200A) || n == 0x2028 || n == 0x2029 || n == 0x202F ||
    n == 0x205F || n == 0x3000 || n == 0xFEFF
  }

  /** `s.length`: the number of UTF-16 code units. */
  function Utf16Length(s: string): (n: nat)
    ensures |s| <= n <= 2 * |s|
    ensures (forall i :: 0 <= i < |s| ==> s[i] as int <= 0xFFFF) ==> n == |s|
    decreases s
  {
    if s == [] then 0 else (if s[0] as int > 0xFFFF then 2 else 1) + Utf16Length(s[1..])
  }

  /** `sub` occurs in `s` at position `i`. */
  predicate OccursAt(s: string, sub: string, i: int)
  {
    0 <= i && i + |sub| <= |s| && s[i..i + |sub|] == sub
  }

  /** The first position at or after `k` where `sub` occurs in `s`. */
  function IndexFrom(s: string, sub: string, k: nat): (r: Option<nat>)
    ensures r.Some? ==> k <= r.value && OccursAt(s, sub, r.value)
    ensures r.Some? ==> forall j :: k <= j < r.value ==> !OccursAt(s, sub, j)
    ensures r.None? ==> forall j :: k <= j ==> !OccursAt(s, sub, j)
    decreases |s| - k
  {
    if k + |sub| > |s| then None
    else if s[k..k + |sub|] == sub then Some(k)
    else IndexFrom(s, sub, k + 1)
  }

  /** `s.indexOf(sub)`, with -1 as `None`. */
  function IndexOf(s: string, sub: string): Option<nat>
  {
    IndexFrom(s, sub, 0)
  }

  /** `s.includes(sub)`. */
  predicate Includes(s: string, sub: string)
  {
    IndexOf(s, sub).Some?
  }

  /** `s.replace(pat, rep)` with a string pattern: only the first occurrence is replaced. */
  function ReplaceFirst(s: string, pat: string, rep: string): (r: string)
    ensures !Includes(s, pat) ==> r == s
    ensures Includes(s, pat) ==>
      var i := IndexOf(s, pat).value;
      r == s[..i] + rep + s[i + |pat|..] && forall j :: 0 <= j < i ==> !OccursAt(s, pat, j)
  {
    match IndexOf(s, pat)
    case None => s
    case Some(i) => s[..i] + rep + s[i + |pat|..]
  }

  /** `s` with its leading whitespace removed: the `TrimString(s, start)` step of `parseInt`. */
  function TrimStart(s: string): (t: string)
    ensures |t| <= |s| && t == s[|s| - |t|..]
    ensures forall i :: 0 <= i < |s| - |t| ==> IsJsWhitespace(s[i])
    ensures t != [] ==> !IsJsWhitespace(t[0])
    decreases s
  {
    if s != [] && IsJsWhitespace(s[0]) then TrimStart(s[1..]) else s
  }

  /** The value of `c` as a digit of base `radix` (10 or 16), if it is one. */
  function DigitOf(c: char, radix: int): (d: Option<int>)
    ensures d.Some? ==> 0 <= d.value < radix
  {
    if '0' <= c <= '9' && (c as int - '0' as int) < radix then Some(c as int - '0' as int)
    else if radix == 16 && 'a' <= c <= 'f' then Some(c as int - 'a' as int + 10)
    else if radix == 16 && 'A' <= c <= 'F' then Some(c as int - 'A' as int + 10)
    else None
  }

  /** The longest prefix of `s` made of digits of base `radix`. */
  function DigitPrefix(s: string, radix: int): (p: string)
    ensures |p| <= |s| && p == s[..|p|]
    ensures forall i :: 0 <= i < |p| ==> DigitOf(p[i], radix).Some?
    ensures |p| < |s| ==> DigitOf(s[|p|], radix).None?
    decreases s
  {
    if s != [] && DigitOf(s[0], radix).Some? then [s[0]] + DigitPrefix(s[1..], radix) else []
  }

  /** The number the digits of `p` spell in base `radix`, most significant first. */
  function DigitsValue(p: string, radix: int): (v: int)
    requires forall i :: 0 <= i < |p| ==> DigitOf(p[i], radix).Some?
    ensures v >= 0
    decreases |p|
  {
    if p == [] then 0
    else DigitsValue(p[..|p| - 1], radix) * radix + DigitOf(p[|p| - 1], radix).value
  }

  /**
   * The unsigned part of `parseInt`: base 16 after a `0x`/`0X` prefix, base 10 otherwise, and
   * the longest run of digits of that base; `None` when the run is empty.
   */
  function ParseUnsigned(u: string): (r: Option<nat>)
    ensures u != [] && '1' <= u[0] <= '9' ==> r.Some?
    ensures u == [] ==> r.None?
  {
    var hex := |u| >= 2 && u[0] == '0' && (u[1] == 'x' || u[1] == 'X');
    var radix := if hex then 16 else 10;
    var digits := DigitPrefix(if hex then u[2..] else u, radix);
    if digits == [] then None else Some(DigitsValue(digits, radix))
  }

  /**
   * `parseInt(s)` with no radix: skip leading whitespace, read an optional sign, then the
   * unsigned part; `None` is `NaN`, the result when there is no digit at all.
   */
  function ParseInt(s: string): (r: Option<int>)
    ensures TrimStart(s) == [] ==> r.None?
    ensures TrimStart(s) != [] && '1' <= TrimStart(s)[0] <= '9' ==> r.Some?
    ensures r.Some? && TrimStart(s)[0] != '-' ==> r.value >= 0
  {
    var t := TrimStart(s);
    var negative := t != [] && t[0] == '-';
    var u := if t != [] && (t[0] == '-' || t[0] == '+') then t[1..] else t;
    match ParseUnsigned(u)
    case None => None
    case Some(v) => Some(if negative then -(v as int) else v as int)
  }

  /** A decimal rendering is all decimal digits, and starts with `0` only when it is `"0"`. */
  lemma {:induction false} DecimalDigits(n: nat)
    ensures |NatToDecimal(n)| >= 1
    ensures forall i :: 0 <= i < |NatToDecimal(n)| ==> '0' <= NatToDecimal(n)[i] <= '9'
    ensures NatToDecimal(n)[0] == '0' ==> n == 0
    decreases n
  {
    if n >= 10 {
      DecimalDigits(n / 10);
    }
  }

  /** Decimal digits read back in base 10 give the number they were written from. */
  lemma {:induction false} DecimalValue(n: nat)
    requires forall i :: 0 <= i < |NatToDecimal(n)| ==> DigitOf(NatToDecimal(n)[i], 10).Some?
    ensures DigitsValue(NatToDecimal(n), 10) == n
    decreases n
  {
    var s := NatToDecimal(n);
    if n >= 10 {
      assert s[..|s| - 1] == NatToDecimal(n / 10);
      DecimalDigits(n / 10);
      DecimalValue(n / 10);
    }
  }

  /** The unsigned part reads a decimal rendering back as the number it was written from. */
  lemma ParseUnsignedOfDecimal(m: nat)
    ensures ParseUnsigned(NatToDecimal(m)) == Some(m)
  {
    var d := NatToDecimal(m);
    DecimalDigits(m);
    assert forall i :: 0 <= i < |d| ==> DigitOf(d[i], 10).Some?;
    DigitPrefixAll(d, 10);
    DecimalValue(m);
    assert !(|d| >= 2 && d[0] == '0');
  }

  /** Text that starts with neither whitespace nor a sign is read by `parseInt` through its unsigned part. */
  lemma ParseIntUnsigned(u: string)
    requires u != [] && !IsJsWhitespace(u[0]) && u[0] != '-' && u[0] != '+'
    ensures ParseInt(u) == if ParseUnsigned(u).Some? then Some(ParseUnsigned(u).value as int) else None
  {
    assert TrimStart(u) == u;
  }

  /** A `-` before such text negates what `parseInt` reads. */
  lemma ParseIntNegated(u: string)
    requires u != [] && !IsJsWhitespace(u[0]) && u[0] != '-' && u[0] != '+'
    ensures ParseInt("-" + u) == if ParseUnsigned(u).Some? then Some(-(ParseUnsigned(u).value as int)) else None
  {
    var s := "-" + u;
    assert !IsJsWhitespace(s[0]);
    assert TrimStart(s) == s;
    assert s[1..] == u;
  }

  /** `parseInt(String(n))` is `n` for every integer `n`: the form's id fields round-trip. */
  lemma ParseIntOfDecimal(n: int)
    ensures ParseInt(IntToDecimal(n)) == Some(n)
  {
    var m: nat := if n < 0 then -n else n;
    DecimalDigits(m);
    ParseUnsignedOfDecimal(m);
    ParseIntUnsigned(NatToDecimal(m));
    ParseIntNegated(NatToDecimal(m));
  }

  /** A string made only of digits is its own longest digit prefix. */
  lemma {:induction false} DigitPrefixAll(s: string, radix: int)
    requires forall i :: 0 <= i < |s| ==> DigitOf(s[i], radix).Some?
    ensures DigitPrefix(s, radix) == s
    decreases s
  {
    if s != [] {
      DigitPrefixAll(s[1..], radix);
    }
  }
}
