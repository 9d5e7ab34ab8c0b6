/**
 * `java.time.LocalDate` as the session entity uses it: a calendar date built by
 * `LocalDate.parse` from the `yyyy-MM-dd` text the front end sends (`ISO_LOCAL_DATE`), and rendered back to text by
 * `toString()` when a session is projected into a JSON response.
 */
module Dates {
  import opened Common

  datatype Date = Date(year: int, month: int, day: int)

  /** `Year.MAX_VALUE`; the smallest year a date can have is its negation. */
  const MaxYear: int := 999_999_999

  predicate IsLeapYear(y: int)
  {
    y % 4 == 0 && (y % 100 != 0 || y % 400 == 0)
  }

  function DaysInMonth(y: int, m: int): int
  {
    if m == 2 then (if IsLeapYear(y) then 29 else 28)
    else if m == 4 || m == 6 || m == 9 || m == 11 then 30
    else 31
  }

  /** A date of the proleptic ISO calendar within the years `LocalDate` supports. */
  predicate ValidDate(d: Date)
  {
    -MaxYear <= d.year <= MaxYear && 1 <= d.month <= 12 && 1 <= d.day <= DaysInMonth(d.year, d.month)
  }

  /** A `LocalDate` value always denotes a date of the calendar. */
  type LocalDate = d: Date | ValidDate(d) witness Date(2000, 1, 1)

  predicate IsDigit(c: char)
  {
    '0' <= c <= '9'
  }

  function DigitValue(c: char): int
    requires IsDigit(c)
  {
    c as int - '0' as int
  }

  function DigitChar(n: int): (c: char)
    requires 0 <= n < 10
    ensures IsDigit(c) && DigitValue(c) == n
  {
    (('0' as int) + n) as char
  }

  function Pad2(n: int): (s: string)
    requires 0 <= n < 100
    ensures |s| == 2 && IsDigit(s[0]) && IsDigit(s[1])
  {
    [DigitChar(n / 10), DigitChar(n % 10)]
  }

  function Pad4(n: int): (s: string)
    requires 0 <= n < 10000
    ensures |s| == 4 && forall i :: 0 <= i < 4 ==> IsDigit(s[i])
  {
    Pad2(n / 100) + Pad2(n % 100)
  }

  /** Value of a two-digit field. */
  function Read2(s: string): int
    requires |s| == 2 && IsDigit(s[0]) && IsDigit(s[1])
  {
    DigitValue(s[0]) * 10 + DigitValue(s[1])
  }

  predicate AllDigits(s: string)
  {
    forall i :: 0 <= i < |s| ==> IsDigit(s[i])
  }

  /** Value of a run of decimal digits, most significant first. */
  function ReadDigits(s: string): nat
    requires AllDigits(s)
    decreases |s|
  {
    if s == [] then 0 else ReadDigits(s[..|s| - 1]) * 10 + DigitValue(s[|s| - 1])
  }

  function Pow10(k: nat): nat
  {
    if k == 0 then 1 else 10 * Pow10(k - 1)
  }

  /**
   * `LocalDate.toString()`: a year of at most four digits is zero-padded to four (with a leading
   * `-` when negative), a longer year is written in full with a `+` when above 9999.
   */
  function YearText(y: int): string
  {
    if 0 <= y <= 9999 then Pad4(y)
    else if y > 9999 then "+" + NatToDecimal(y)
    else if y >= -999 then "-" + Pad4(-y)
    else "-" + NatToDecimal(-y)
  }

  function ToIso(d: LocalDate): string
  {
    YearText(d.year) + "-" + Pad2(d.month) + "-" + Pad2(d.day)
  }

  /** The year field: everything before the trailing `-MM-dd`. */
  function YearPart(s: string): string
    requires |s| >= 6
  {
    s[..|s| - 6]
  }

  predicate Signed(t: string)
  {
    t != [] && (t[0] == '+' || t[0] == '-')
  }

  /** The digits of a year field, after its sign when it has one. */
  function YearDigits(t: string): string
  {
    if Signed(t) then t[1..] else t
  }

  /**
   * The year field as `ISO_LOCAL_DATE` reads it in strict mode (four to ten digits, sign style
   * `EXCEEDS_PAD`): four digits and no sign; more than four digits only after `+`; four or more
   * after `-`, but never a negative zero. `None` is a parse failure.
   */
  function ParseYear(t: string): (r: Option<int>)
    ensures r.Some? ==> 4 <= |YearDigits(t)| <= 10 && AllDigits(YearDigits(t))
    ensures r.Some? && !Signed(t) ==> |t| == 4 && 0 <= r.value <= 9999
    ensures r.Some? && Signed(t) && t[0] == '+' ==> |YearDigits(t)| > 4
    ensures r.Some? && Signed(t) && t[0] == '-' ==> r.value < 0
  {
    var digits := YearDigits(t);
    if !(4 <= |digits| <= 10 && AllDigits(digits)) then None
    else if !Signed(t) then
      if |digits| == 4 then Pad4OfRead(digits); Some(ReadDigits(digits)) else None
    else if t[0] == '+' then
      if |digits| > 4 then Some(ReadDigits(digits)) else None
    else
      var n: int := ReadDigits(digits);
      if n != 0 then Some(-n) else None
  }

  /** `-MM-dd` closes the text: two dashes and four digits. */
  predicate MonthDayShape(s: string)
  {
    |s| >= 10 && s[|s| - 6] == '-' && s[|s| - 3] == '-' &&
    IsDigit(s[|s| - 5]) && IsDigit(s[|s| - 4]) && IsDigit(s[|s| - 2]) && IsDigit(s[|s| - 1])
  }

  /**
   * `LocalDate.parse(text)`: the year field, `-`, a two-digit month, `-`, a two-digit day, and
   * nothing else, naming a day of the calendar; `None` stands for the `DateTimeParseException`
   * it throws otherwise.
   */
  function ParseIso(s: string): (r: Option<LocalDate>)
    ensures r.Some? ==> MonthDayShape(s) && ParseYear(YearPart(s)) == Some(r.value.year)
    ensures r.Some? && |s| == 10 ==> 0 <= r.value.year <= 9999
  {
    if !MonthDayShape(s) then None
    else
      match ParseYear(YearPart(s))
      case None => None
      case Some(y) =>
        var d := Date(y, Read2(s[|s| - 5..|s| - 3]), Read2(s[|s| - 2..]));
        if ValidDate(d) then Some(d) else None
  }

  /**
   * A year field in the form `toString()` prints: its digits are exactly four or do not start
   * with `0`.
   */
  predicate CanonicalYear(t: string)
  {
    ParseYear(t).Some? && (|YearDigits(t)| == 4 || YearDigits(t)[0] != '0')
  }

  /** Two and four digit fields read back as the number they were padded from, and vice versa. */
  lemma Pad2RoundTrip(n: int)
    requires 0 <= n < 100
    ensures Read2(Pad2(n)) == n
  {
  }

  /** A four-digit run is worth its two two-digit halves. */
  lemma {:induction false} ReadFour(s: string)
    requires |s| == 4 && AllDigits(s)
    ensures ReadDigits(s) == Read2(s[..2]) * 100 + Read2(s[2..])
  {
    assert s[..3][..2] == s[..2] && s[..2][..1] == s[..1] && s[..1][..0] == [];
    assert ReadDigits(s[..1]) == DigitValue(s[0]);
    assert ReadDigits(s[..2]) == DigitValue(s[0]) * 10 + DigitValue(s[1]);
  }

  lemma Pad4RoundTrip(n: int)
    requires 0 <= n < 10000
    ensures AllDigits(Pad4(n)) && ReadDigits(Pad4(n)) == n
  {
    var s := Pad4(n);
    assert s[..2] == Pad2(n / 100) && s[2..] == Pad2(n % 100);
    ReadFour(s);
    Pad2RoundTrip(n / 100);
    Pad2RoundTrip(n % 100);
  }

  lemma Pad2OfRead(s: string)
    requires |s| == 2 && IsDigit(s[0]) && IsDigit(s[1])
    ensures 0 <= Read2(s) < 100 && Pad2(Read2(s)) == s
  {
  }

  lemma Pad4OfRead(s: string)
    requires |s| == 4 && AllDigits(s)
    ensures 0 <= ReadDigits(s) < 10000 && Pad4(ReadDigits(s)) == s
  {
    var hi, lo := Read2(s[..2]), Read2(s[2..]);
    ReadFour(s);
    Pad2OfRead(s[..2]);
    Pad2OfRead(s[2..]);
    assert ReadDigits(s) / 100 == hi && ReadDigits(s) % 100 == lo;
    assert s == s[..2] + s[2..];
  }

  /** A run of `k` digits is worth less than `10^k`, and at least `10^(k-1)` when it does not start with `0`. */
  lemma {:induction false} ReadBounds(s: string)
    requires AllDigits(s)
    ensures ReadDigits(s) < Pow10(|s|)
    ensures s != [] && s[0] != '0' ==> ReadDigits(s) >= Pow10(|s| - 1)
  {
    if s != [] {
      var u := s[..|s| - 1];
      ReadBounds(u);
      if u != [] {
        assert u[0] == s[0];
      }
    }
  }

  /** The decimal text of `n` is a run of digits worth `n`, starting with `0` only for zero itself. */
  lemma {:induction false} ReadOfDecimal(n: nat)
    ensures NatToDecimal(n) != [] && AllDigits(NatToDecimal(n))
    ensures ReadDigits(NatToDecimal(n)) == n
    ensures NatToDecimal(n)[0] == '0' <==> n == 0
    decreases n
  {
    var t := NatToDecimal(n);
    if n >= 10 {
      ReadOfDecimal(n / 10);
      assert t[..|t| - 1] == NatToDecimal(n / 10);
      assert t[0] == NatToDecimal(n / 10)[0];
    }
  }

  /** `n` takes at most `k` digits exactly when it is below `10^k`. */
  lemma {:induction false} DecimalLength(n: nat, k: nat)
    requires k >= 1
    ensures |NatToDecimal(n)| <= k <==> n < Pow10(k)
    decreases n
  {
    if n >= 10 {
      if k == 1 {
        assert |NatToDecimal(n)| == |NatToDecimal(n / 10)| + 1;
      } else {
        DecimalLength(n / 10, k - 1);
      }
    } else {
      assert Pow10(k) >= 10 by { PowerAtLeastTen(k); }
    }
  }

  lemma {:induction false} PowerAtLeastTen(k: nat)
    requires k >= 1
    ensures Pow10(k) >= 10
  {
    if k > 1 {
      PowerAtLeastTen(k - 1);
    }
  }

  /** A run of digits without a leading `0` (or the single digit `0`) is the decimal text of its value. */
  lemma {:induction false} DecimalOfRead(s: string)
    requires AllDigits(s) && s != [] && (s[0] != '0' || |s| == 1)
    ensures NatToDecimal(ReadDigits(s)) == s
    decreases |s|
  {
    if |s| > 1 {
      var u := s[..|s| - 1];
      assert u[0] == s[0];
      DecimalOfRead(u);
      ReadBounds(u);
      assert Pow10(|u| - 1) >= 1 by { PowerPositive(|u| - 1); }
      var n := ReadDigits(s);
      assert n / 10 == ReadDigits(u) && n % 10 == DigitValue(s[|s| - 1]);
      assert s == u + [s[|s| - 1]];
    }
  }

  lemma {:induction false} PowerPositive(k: nat)
    ensures Pow10(k) >= 1
  {
    if k > 0 {
      PowerPositive(k - 1);
    }
  }

  /** Every year a date can have prints as a year field that reads back as that year, in canonical form. */
  lemma YearTextParses(y: int)
    requires -MaxYear <= y <= MaxYear
    ensures ParseYear(YearText(y)) == Some(y)
    ensures CanonicalYear(YearText(y))
  {
    if 0 <= y <= 9999 {
      Pad4RoundTrip(y);
      assert !Signed(Pad4(y));
    } else if -999 <= y < 0 {
      Pad4RoundTrip(-y);
      assert Signed(YearText(y)) && YearDigits(YearText(y)) == Pad4(-y);
    } else {
      LongYearParses(y);
    }
  }

  /** A year of five digits or more, or below -999, prints with its sign and all its digits. */
  lemma LongYearParses(y: int)
    requires -MaxYear <= y < -999 || 9999 < y <= MaxYear
    ensures ParseYear(YearText(y)) == Some(y)
    ensures CanonicalYear(YearText(y))
  {
    var t := YearText(y);
    var n := if y > 9999 then y else -y;
    assert t == [t[0]] + NatToDecimal(n) && Signed(t) && YearDigits(t) == NatToDecimal(n);
    ReadOfDecimal(n);
    assert Pow10(10) == 10_000_000_000 && Pow10(3) == 1000;
    DecimalLength(n, 10);
    DecimalLength(n, 3);
    if y > 9999 {
      assert Pow10(4) == 10000;
      DecimalLength(n, 4);
    }
  }

  /** Formatting any date and parsing the text gives the date back. */
  lemma ParseOfToIso(d: LocalDate)
    ensures ParseIso(ToIso(d)) == Some(d)
  {
    var s := ToIso(d);
    var t := YearText(d.year);
    assert |s| == |t| + 6;
    assert YearPart(s) == t;
    assert s[|s| - 5..|s| - 3] == Pad2(d.month);
    assert s[|s| - 2..] == Pad2(d.day);
    YearTextParses(d.year);
    Pad2RoundTrip(d.month);
    Pad2RoundTrip(d.day);
  }

  /** A canonical year field is exactly the text its year prints as. */
  lemma CanonicalYearPrinted(t: string)
    requires CanonicalYear(t)
    ensures YearText(ParseYear(t).value) == t
  {
    var digits := YearDigits(t);
    var n: int := ReadDigits(digits);
    if |digits| == 4 {
      FourDigitsPrinted(digits);
    } else {
      LongDigitsPrinted(digits);
    }
    if !Signed(t) {
      assert ParseYear(t) == Some(n) && t == digits;
    } else if t[0] == '+' {
      assert ParseYear(t) == Some(n) && t == "+" + digits;
    } else {
      assert ParseYear(t) == Some(-n) && t == "-" + digits;
    }
  }

  /** More than four digits without a leading `0` are worth more than 9999 and print back in full. */
  lemma LongDigitsPrinted(digits: string)
    requires 4 < |digits| && AllDigits(digits) && digits[0] != '0'
    ensures ReadDigits(digits) > 9999 && NatToDecimal(ReadDigits(digits)) == digits
  {
    ReadBounds(digits);
    assert Pow10(4) == 10000;
    PowerMonotone(4, |digits| - 1);
    DecimalOfRead(digits);
  }

  /** Four digits print back as themselves, padded or in full, whatever their value. */
  lemma FourDigitsPrinted(digits: string)
    requires |digits| == 4 && AllDigits(digits)
    ensures ReadDigits(digits) < 10000 && Pad4(ReadDigits(digits)) == digits
    ensures ReadDigits(digits) >= 1000 ==> NatToDecimal(ReadDigits(digits)) == digits
  {
    var n := ReadDigits(digits);
    Pad4OfRead(digits);
    if n >= 1000 {
      assert Pow10(3) == 1000 && Pow10(4) == 10000;
      ReadOfDecimal(n);
      DecimalLength(n, 4);
      DecimalLength(n, 3);
      Pad4OfRead(NatToDecimal(n));
    }
  }

  lemma {:induction false} PowerMonotone(j: nat, k: nat)
    requires j <= k
    ensures Pow10(j) <= Pow10(k)
    decreases k
  {
    if j < k {
      PowerMonotone(j, k - 1);
    }
  }

  /**
   * Text that parses prints back as itself exactly when its year field is canonical: a year
   * written with extra leading zeros parses but prints differently.
   */
  lemma ToIsoOfParse(s: string)
    requires ParseIso(s).Some?
    ensures ToIso(ParseIso(s).value) == s <==> CanonicalYear(YearPart(s))
  {
    var d := ParseIso(s).value;
    var t := YearPart(s);
    if CanonicalYear(t) {
      CanonicalYearPrinted(t);
      PrintedFieldsOfParse(s);
    } else {
      ToIsoYearPart(d);
      YearTextParses(d.year);
    }
  }

  /** The month and day of a parsed text print back as the text wrote them. */
  lemma PrintedFieldsOfParse(s: string)
    requires ParseIso(s).Some?
    ensures ToIso(ParseIso(s).value) == YearText(ParseIso(s).value.year) + s[|s| - 6..]
  {
    var d := ParseIso(s).value;
    Pad2OfRead(s[|s| - 5..|s| - 3]);
    Pad2OfRead(s[|s| - 2..]);
    assert s[|s| - 6..] == "-" + s[|s| - 5..|s| - 3] + "-" + s[|s| - 2..];
  }

  /** The year field of a printed date is the printed year. */
  lemma ToIsoYearPart(d: LocalDate)
    ensures |ToIso(d)| >= 6 && YearPart(ToIso(d)) == YearText(d.year)
  {
  }

  /** `-00001-01-01` is accepted as year -1, which prints as `-0001-01-01`. */
  lemma PaddedYearNotEchoed()
    ensures ParseIso("-00001-01-01") == Some(Date(-1, 1, 1))
    ensures ToIso(Date(-1, 1, 1)) == "-0001-01-01"
  {
    var s := "-00001-01-01";
    assert MonthDayShape(s) && YearPart(s) == "-00001";
    PaddedYearReads();
    assert s[|s| - 5..|s| - 3] == "01" && s[|s| - 2..] == "01";
    PaddedYearPrints();
  }

  lemma PaddedYearPrints()
    ensures ToIso(Date(-1, 1, 1)) == "-0001-01-01"
  {
    assert DigitChar(0) == '0' && DigitChar(1) == '1';
    assert Pad2(1) == "01" && Pad4(1) == "0001";
    assert YearText(-1) == "-0001";
  }

  lemma PaddedYearReads()
    ensures ParseYear("-00001") == Some(-1)
  {
    var digits := "00001";
    assert YearDigits("-00001") == digits;
    assert digits[..4] == "0000";
    ReadFour("0000");
    assert "0000"[..2] == "00" && "0000"[2..] == "00";
  }
}
