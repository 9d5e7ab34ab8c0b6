/**
 * The form validators of the front end's shared types: email, CIN (national identity card
 * number), RIB (bank account identifier) and password.
 */
module Validators {
  import opened JsText

  /** A character `[0-9]` matches: an ASCII decimal digit. */
  predicate IsAsciiDigit(c: char)
  {
    '0' <= c <= '9'
  }

  /** A character `[^\s@]` matches. */
  predicate IsPlain(c: char)
  {
    !IsJsWhitespace(c) && c != '@'
  }

  /** `[^\s@]+` matches all of `s`. */
  predicate AllPlain(s: string)
  {
    s != [] && forall i :: 0 <= i < |s| ==> IsPlain(s[i])
  }

  /**
   * `/^[^\s@]+@[^\s@]+\.[^\s@]+$/.test(email)`: the text splits at an `@` at `i` and a `.` at `j`
   * into three non-empty runs of characters other than whitespace and `@`.
   */
  predicate EmailPattern(email: string)
  {
    exists i, j :: 0 < i < j - 1 && j < |email| - 1 && email[i] == '@' && email[j] == '.' &&
      AllPlain(email[..i]) && AllPlain(email[i + 1..j]) && AllPlain(email[j + 1..])
  }

  /** The rule the email pattern stands for, stated on the text as a whole. */
  predicate EmailRule(email: string)
  {
    (forall k :: 0 <= k < |email| ==> !IsJsWhitespace(email[k])) &&
    exists i :: 0 < i < |email| && email[i] == '@' &&
      (forall k :: 0 <= k < |email| && k != i ==> email[k] != '@') &&
      exists j :: i + 1 < j < |email| - 1 && email[j] == '.'
  }

  /**
   * `validateEmail`: true iff the text has no whitespace, exactly one `@` with something before
   * it, and after it a `.` with at least one character on each side.
   */
  function ValidateEmail(email: string): (ok: bool)
    ensures ok <==> EmailRule(email)
  {
    EmailPatternIsRule(email);
    EmailPattern(email)
  }

  lemma EmailPatternIsRule(email: string)
    ensures EmailPattern(email) <==> EmailRule(email)
  {
    if EmailPattern(email) {
      var i, j :| 0 < i < j - 1 && j < |email| - 1 && email[i] == '@' && email[j] == '.' &&
        AllPlain(email[..i]) && AllPlain(email[i + 1..j]) && AllPlain(email[j + 1..]);
      forall k | 0 <= k < |email| && k != i ensures IsPlain(email[k]) {
        PlainAt(email, i, j, k);
      }
      assert !IsJsWhitespace(email[i]);
    }
    if EmailRule(email) {
      var i :| 0 < i < |email| && email[i] == '@' &&
        (forall k :: 0 <= k < |email| && k != i ==> email[k] != '@') &&
        exists j :: i + 1 < j < |email| - 1 && email[j] == '.';
      var j :| i + 1 < j < |email| - 1 && email[j] == '.';
      assert AllPlain(email[..i]);
      assert AllPlain(email[i + 1..j]);
      assert AllPlain(email[j + 1..]);
    }
  }

  /** Every position of a matched email other than the `@` lies in one of the three plain runs. */
  lemma PlainAt(email: string, i: int, j: int, k: int)
    requires 0 < i < j - 1 && j < |email| - 1 && email[j] == '.'
    requires AllPlain(email[..i]) && AllPlain(email[i + 1..j]) && AllPlain(email[j + 1..])
    requires 0 <= k < |email| && k != i
    ensures IsPlain(email[k])
  {
    if k < i {
      assert email[..i][k] == email[k];
    } else if k < j {
      assert email[i + 1..j][k - i - 1] == email[k];
    } else if k > j {
      assert email[j + 1..][k - j - 1] == email[k];
    }
  }

  /** The rule the two bank-detail patterns state: exactly `n` characters, each an ASCII digit. */
  predicate DigitsOfLength(s: string, n: nat)
  {
    |s| == n && forall i :: 0 <= i < |s| ==> IsAsciiDigit(s[i])
  }

  /**
   * `/^[0-9]{n}$/.test(s)`, read as the pattern is matched: one digit at a time from the start,
   * with the count of digits still expected, and the end of input only when none is.
   */
  function MatchDigits(s: string, n: nat): (ok: bool)
    ensures ok <==> DigitsOfLength(s, n)
    decreases s
  {
    if s == [] then n == 0
    else
      assert forall i :: 1 <= i < |s| ==> s[i] == s[1..][i - 1];
      n > 0 && IsAsciiDigit(s[0]) && MatchDigits(s[1..], n - 1)
  }

  /** `/^[0-9]{8}$/.test(cin)`: exactly eight ASCII digits. */
  function ValidateCIN(cin: string): (ok: bool)
    ensures ok <==> DigitsOfLength(cin, 8)
    ensures ok ==> |cin| == 8
  {
    MatchDigits(cin, 8)
  }

  /** `/^[0-9]{20}$/.test(rib)`: exactly twenty ASCII digits. */
  function ValidateRIB(rib: string): (ok: bool)
    ensures ok <==> DigitsOfLength(rib, 20)
    ensures ok ==> |rib| == 20
  {
    MatchDigits(rib, 20)
  }

  /**
   * `password.length >= 6`, counted in UTF-16 code units: six characters always pass, fewer than
   * three never do, and on text within the Basic Multilingual Plane it is "at least six".
   */
  function ValidatePassword(password: string): (ok: bool)
    ensures |password| >= 6 ==> ok
    ensures |password| < 3 ==> !ok
    ensures (forall i :: 0 <= i < |password| ==> password[i] as int <= 0xFFFF) ==> (ok <==> |password| >= 6)
  {
    Utf16Length(password) >= 6
  }

  /** The empty string passes none of the four validators. */
  lemma EmptyFailsAll()
    ensures !ValidateEmail("") && !ValidateCIN("") && !ValidateRIB("") && !ValidatePassword("")
  {
  }

  /** No text is both a valid CIN and a valid RIB: their lengths differ. */
  lemma CinIsNeverRib(s: string)
    ensures !(ValidateCIN(s) && ValidateRIB(s))
  {
  }
}
