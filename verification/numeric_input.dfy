/**
 * The numeric text field: the keystroke filter of `handleChange` and the
 * min/max clamp of `handleBlur`. Each decides the text handed to
 * `onChange`, or that `onChange` is not called (None).
 */
module NumericInput {
  import opened Js

  predicate IsDigit(c: char) { '0' <= c <= '9' }

  /** `\d*` */
  predicate Digits(s: string) {
    forall i :: 0 <= i < |s| ==> IsDigit(s[i])
  }

  /** `\d*`, or `\d*\.?\d*` in decimal mode. */
  predicate Unsigned(s: string, decimal: bool) {
    Digits(s) ||
    (decimal && exists i :: 0 <= i < |s| && s[i] == '.' && Digits(s[..i]) && Digits(s[i+1..]))
  }

  /** What the anchored regex `^-?\d*$` (decimal mode: `^-?\d*\.?\d*$`) matches. */
  predicate MatchesPattern(s: string, decimal: bool) {
    Unsigned(s, decimal) || (|s| > 0 && s[0] == '-' && Unsigned(s[1..], decimal))
  }

  // ---------------------------------------------------------------------
  // The same language, read one character at a time
  // ---------------------------------------------------------------------

  /** Where the scan is: nothing read yet, in the whole part, or past the point. */
  datatype Phase = Start | Whole | Fraction

  function Step(p: Phase, c: char, decimal: bool): Option<Phase> {
    if IsDigit(c) then Some(if p == Fraction then Fraction else Whole)
    else if c == '-' && p == Start then Some(Whole)
    else if c == '.' && decimal && p != Fraction then Some(Fraction)
    else None
  }

  /** Every character has a step from the phase the previous ones left. */
  predicate Scan(s: string, p: Phase, decimal: bool)
    decreases |s|
  {
    |s| == 0 ||
    match Step(p, s[0], decimal)
    case None => false
    case Some(q) => Scan(s[1..], q, decimal)
  }

  lemma {:induction false} ScanFraction(s: string, decimal: bool)
    ensures Scan(s, Fraction, decimal) == Digits(s)
    decreases |s|
  {
    if |s| > 0 {
      ScanFraction(s[1..], decimal);
      assert Digits(s) == (IsDigit(s[0]) && Digits(s[1..])) by {
        if IsDigit(s[0]) && Digits(s[1..]) {
          forall i | 0 <= i < |s| ensures IsDigit(s[i]) {
            if i > 0 { assert s[i] == s[1..][i-1]; }
          }
        }
      }
    }
  }

  /** How `Unsigned` reads its first character. */
  lemma UnsignedCons(s: string, decimal: bool)
    requires |s| > 0
    ensures Unsigned(s, decimal) ==
      (if IsDigit(s[0]) then Unsigned(s[1..], decimal)
       else s[0] == '.' && decimal && Digits(s[1..]))
  {
    var c, t := s[0], s[1..];
    assert Digits(s) == (IsDigit(c) && Digits(t)) by {
      if IsDigit(c) && Digits(t) {
        forall i | 0 <= i < |s| ensures IsDigit(s[i]) {
          if i > 0 { assert s[i] == t[i-1]; }
        }
      }
    }
    if IsDigit(c) {
      if decimal {
        if j :| 0 <= j < |t| && t[j] == '.' && Digits(t[..j]) && Digits(t[j+1..]) {
          assert s[j+1] == '.';
          assert s[j+2..] == t[j+1..];
          forall k | 0 <= k < j + 1 ensures IsDigit(s[k]) {
            if k > 0 { assert s[k] == t[..j][k-1]; }
          }
          assert Digits(s[..j+1]);
        }
        if i :| 0 <= i < |s| && s[i] == '.' && Digits(s[..i]) && Digits(s[i+1..]) {
          assert i > 0;
          assert t[i-1] == '.';
          assert t[i..] == s[i+1..];
          forall k | 0 <= k < i - 1 ensures IsDigit(t[k]) {
            assert t[k] == s[..i][k+1];
          }
          assert Digits(t[..i-1]);
        }
      }
    } else if c == '.' && decimal {
      assert s[..0] == [];
      if i :| 0 <= i < |s| && s[i] == '.' && Digits(s[..i]) && Digits(s[i+1..]) {
        if i > 0 { assert s[..i][0] == c; }
      }
    } else {
      if i :| 0 <= i < |s| && s[i] == '.' && Digits(s[..i]) && Digits(s[i+1..]) {
        if i > 0 { assert s[..i][0] == c; }
      }
    }
  }

  lemma {:induction false} ScanWhole(s: string, decimal: bool)
    ensures Scan(s, Whole, decimal) == Unsigned(s, decimal)
    decreases |s|
  {
    if |s| > 0 {
      UnsignedCons(s, decimal);
      ScanWhole(s[1..], decimal);
      ScanFraction(s[1..], decimal);
    }
  }

  /** The character-level scan accepts exactly the texts the regex matches. */
  lemma {:induction false} ScanMatchesPattern(s: string, decimal: bool)
    ensures Scan(s, Start, decimal) == MatchesPattern(s, decimal)
  {
    if |s| > 0 {
      UnsignedCons(s, decimal);
      ScanWhole(s[1..], decimal);
      ScanFraction(s[1..], decimal);
    }
  }

  // ---------------------------------------------------------------------
  // handleChange
  // ---------------------------------------------------------------------

  /**
   * `handleChange`: the empty text, or a text the regex matches, goes to
   * `onChange`; any other keystroke is dropped and the value stays.
   */
  function HandleChange(text: string, decimal: bool): (r: Option<string>)
    ensures r == None || r == Some(text)
    ensures text == "" ==> r == Some(text)
  {
    if text == "" || Scan(text, Start, decimal) then Some(text) else None
  }

  /** The value the field shows after a keystroke. */
  function AfterKeystroke(value: string, text: string, decimal: bool): (r: string)
    ensures r == text || r == value
  {
    match HandleChange(text, decimal)
    case Some(t) => t
    case None => value
  }

  /** The characters of an unsigned text: digits and, in decimal mode only, one '.'. */
  lemma UnsignedShape(s: string, decimal: bool)
    requires Unsigned(s, decimal)
    ensures forall i :: 0 <= i < |s| ==> IsDigit(s[i]) || s[i] == '.'
    ensures forall i, j :: 0 <= i < j < |s| && s[i] == '.' ==> s[j] != '.'
    ensures !decimal ==> forall i :: 0 <= i < |s| ==> s[i] != '.'
  {
    if !Digits(s) {
      var k :| 0 <= k < |s| && s[k] == '.' && Digits(s[..k]) && Digits(s[k+1..]);
      assert forall i :: 0 <= i < k ==> s[..k][i] == s[i];
      assert forall i :: k < i < |s| ==> s[k+1..][i-k-1] == s[i];
    }
  }

  /**
   * The texts let through, character by character: digits, one leading
   * '-', and in decimal mode at most one '.'; integer mode lets no '.'
   * through; and every text the regex matches is let through.
   */
  lemma AcceptedShape(text: string, decimal: bool)
    ensures HandleChange(text, decimal).Some? <==> MatchesPattern(text, decimal)
    ensures HandleChange(text, decimal).Some? ==>
      (forall i :: 0 < i < |text| ==> text[i] != '-') &&
      (forall i :: 0 <= i < |text| ==> IsDigit(text[i]) || text[i] == '-' || text[i] == '.') &&
      (forall i, j :: 0 <= i < j < |text| && text[i] == '.' ==> text[j] != '.') &&
      (!decimal ==> forall i :: 0 <= i < |text| ==> text[i] != '.')
  {
    ScanMatchesPattern(text, decimal);
    if MatchesPattern(text, decimal) {
      if Unsigned(text, decimal) {
        UnsignedShape(text, decimal);
      } else {
        var rest := text[1..];
        UnsignedShape(rest, decimal);
        assert forall i :: 1 <= i < |text| ==> text[i] == rest[i - 1];
      }
    }
  }

  // ---------------------------------------------------------------------
  // Integer texts
  // ---------------------------------------------------------------------

  function DigitChar(d: nat): (c: char)
    requires d < 10
    ensures IsDigit(c)
  {
    ('0' as int + d) as char
  }

  function DigitValue(c: char): (d: nat)
    requires IsDigit(c)
    ensures d < 10 && DigitChar(d) == c
  {
    c as int - '0' as int
  }

  /** The value of a run of decimal digits. */
  function DigitsValue(s: string): nat
    requires Digits(s)
    decreases |s|
  {
    if s == [] then 0 else 10 * DigitsValue(s[..|s|-1]) + DigitValue(s[|s|-1])
  }

  /** The decimal digits of a natural number, without leading zeros. */
  function NatToString(n: nat): (r: string)
    ensures Digits(r) && r != []
  {
    if n < 10 then [DigitChar(n)] else NatToString(n / 10) + [DigitChar(n % 10)]
  }

  /** `Number.prototype.toString` on an integer. */
  function IntToString(n: int): (r: string)
    ensures MatchesPattern(r, false)
  {
    if n < 0 then "-" + NatToString(-n) else NatToString(n)
  }

  /**
   * `parseFloat` on a text of the integer pattern; None stands for NaN,
   * which the empty text and a lone '-' give.
   */
  function ParseInteger(s: string): (r: Option<int>)
    requires MatchesPattern(s, false)
    ensures r.None? <==> s == "" || s == "-"
  {
    if |s| > 0 && s[0] == '-' then
      if |s| == 1 then None else Some(0 - DigitsValue(s[1..]))
    else if s == [] then None
    else Some(DigitsValue(s))
  }

  lemma {:induction false} NatToStringRoundTrip(n: nat)
    ensures DigitsValue(NatToString(n)) == n
  {
    if n >= 10 {
      NatToStringRoundTrip(n / 10);
      var s := NatToString(n);
      assert s[..|s|-1] == NatToString(n / 10);
      assert s[|s|-1] == DigitChar(n % 10);
    }
  }

  /** The text `toString` writes parses back to the same number and passes the keystroke filter. */
  lemma IntToStringRoundTrip(n: int)
    ensures ParseInteger(IntToString(n)) == Some(n)
    ensures HandleChange(IntToString(n), false) == Some(IntToString(n))
  {
    var m: nat := if n < 0 then -n else n;
    NatToStringRoundTrip(m);
    ScanMatchesPattern(IntToString(n), false);
    if n < 0 {
      assert IntToString(n)[1..] == NatToString(m);
    } else {
      assert IntToString(n)[0] != '-';
    }
  }

  // ---------------------------------------------------------------------
  // handleBlur
  // ---------------------------------------------------------------------

  /**
   * `handleBlur` on an integer text: nothing for the empty text or NaN;
   * below `min` becomes `min`; otherwise above `max` becomes `max`.
   */
  function HandleBlur(value: string, min: Option<int>, max: Option<int>): (r: Option<string>)
    requires MatchesPattern(value, false)
    ensures value == "" ==> r == None
    ensures r.Some? ==> (min.Some? && r.value == IntToString(min.value)) || (max.Some? && r.value == IntToString(max.value))
  {
    if value == "" then None
    else match ParseInteger(value)
      case None => None
      case Some(v) =>
        if min.Some? && v < min.value then Some(IntToString(min.value))
        else if max.Some? && v > max.value then Some(IntToString(max.value))
        else None
  }

  /** The value the field holds after losing focus. */
  function AfterBlur(value: string, min: Option<int>, max: Option<int>): (r: string)
    requires MatchesPattern(value, false)
    ensures MatchesPattern(r, false)
  {
    match HandleBlur(value, min, max)
    case Some(t) => t
    case None => value
  }

  /**
   * The clamp: a number below `min` reads back as `min`; else one above
   * `max` reads back as `max`; anything else keeps its text. With
   * `min <= max` the result lies between them, and a second blur changes
   * nothing.
   */
  lemma BlurClamps(value: string, min: Option<int>, max: Option<int>)
    requires MatchesPattern(value, false) && ParseInteger(value).Some?
    ensures var v := ParseInteger(value).value;
            var w := ParseInteger(AfterBlur(value, min, max));
            (if min.Some? && v < min.value then w == Some(min.value)
             else if max.Some? && v > max.value then w == Some(max.value)
             else AfterBlur(value, min, max) == value)
    ensures min.Some? && max.Some? && min.value <= max.value ==>
            var w := ParseInteger(AfterBlur(value, min, max)).value;
            min.value <= w <= max.value
    ensures min.None? || max.None? || min.value <= max.value ==>
            AfterBlur(AfterBlur(value, min, max), min, max) == AfterBlur(value, min, max)
  {
    if min.Some? { IntToStringRoundTrip(min.value); }
    if max.Some? { IntToStringRoundTrip(max.value); }
  }
}
