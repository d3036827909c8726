/**
 Amounts as text: the smallest unit an asset is stored in, and the asset's own
 units a person reads.
 */
module Money {
  import opened Basics

  /** The most digits an amount is read from. */
  const MAX_DIGITS: nat := 78

  /** The most places an asset may divide into. */
  const MAX_DECIMALS: nat := 36

  function Pow10(e: nat): (r: nat)
    ensures r >= 1
  {
    if e == 0 then 1 else 10 * Pow10(e - 1)
  }

  predicate IsDigit(c: char) { '0' <= c <= '9' }

  predicate AllDigits(s: string) { forall c :: c in s ==> IsDigit(c) }

  /** One or more ASCII digits. */
  predicate IsDigits(s: string) { s != "" && AllDigits(s) }

  function DigitValue(c: char): (d: nat)
    requires IsDigit(c)
    ensures d < 10
  {
    c as int - '0' as int
  }

  function DigitChar(d: nat): (c: char)
    requires d < 10
    ensures IsDigit(c) && DigitValue(c) == d
  {
    ('0' as int + d) as char
  }

  /** The number a string of digits writes in base ten. */
  function Value(s: string): (n: nat)
    requires AllDigits(s)
    ensures n < Pow10(|s|)
  {
    if s == "" then 0 else 10 * Value(s[..|s| - 1]) + DigitValue(s[|s| - 1])
  }

  /** A number in base ten with no zero in front, which is how a big integer prints. */
  function Show(n: nat): (s: string)
    ensures IsDigits(s) && Value(s) == n
    ensures n > 0 ==> s[0] != '0'
  {
    if n < 10 then
      var s := [DigitChar(n)];
      assert s[..|s| - 1] == "";
      s
    else
      var front := Show(n / 10);
      var s := front + [DigitChar(n % 10)];
      assert s[..|s| - 1] == front;
      s
  }

  function Zeros(n: nat): (s: string)
    ensures |s| == n && forall c :: c in s ==> c == '0'
  {
    seq(n, _ => '0')
  }

  /** An amount in the smallest unit: a whole number, at most MAX_DIGITS characters, not below zero. */
  function ParseMoney(amount: string): Option<nat> {
    if |amount| > MAX_DIGITS then None
    else
      var signed := amount != "" && (amount[0] == '+' || amount[0] == '-');
      var digits := if signed then amount[1..] else amount;
      if !IsDigits(digits) then None
      else if signed && amount[0] == '-' && Value(digits) > 0 then None
      else Some(Value(digits))
  }

  /** Where the first point of a string is, or its length. */
  function PointAt(s: string): (i: nat)
    ensures i <= |s|
    ensures i < |s| ==> s[i] == '.'
    ensures forall j :: 0 <= j < i ==> s[j] != '.'
  {
    if s == "" || s[0] == '.' then 0
    else
      var i := 1 + PointAt(s[1..]);
      assert forall j :: 0 < j < i ==> s[j] == s[1..][j - 1];
      i
  }

  datatype Parts = Parts(whole: string, fraction: string)

  /** An amount cut at its point: digits, and after a point more digits. */
  function SplitUnits(amount: string): Option<Parts> {
    if |amount| > MAX_DIGITS + 1 then None
    else
      var at := PointAt(amount);
      var hasPoint := at < |amount|;
      var whole := amount[..at];
      var fraction := if hasPoint then amount[at + 1..] else "";
      if !IsDigits(whole) || (hasPoint && !IsDigits(fraction)) then None
      else Some(Parts(whole, fraction))
  }

  /** An amount in the asset's own units, as a count of the smallest unit. */
  function ParseUnits(amount: string, places: nat): Option<nat> {
    match SplitUnits(amount)
    case None => None
    case Some(parts) =>
      if |parts.fraction| > places then None
      else
        var digits := parts.whole + parts.fraction + Zeros(places - |parts.fraction|);
        if |digits| > MAX_DIGITS then None
        else
          Some(Value(digits))
  }

  function TrimRight(s: string): (t: string)
    ensures |t| <= |s|
  {
    if s == "" || s[|s| - 1] != '0' then s
    else
      TrimRight(s[..|s| - 1])
  }

  /** The digits of an amount, filled out so that at least one stands before the point. */
  function Padded(n: nat, places: nat): (d: string)
    ensures |d| > places && AllDigits(d)
  {
    var digits := Show(n);
    if |digits| <= places then Zeros(places - |digits| + 1) + digits else digits
  }

  /** A whole part and a fraction written as one amount, with no point where there is nothing after it. */
  function Joined(parts: Parts): string {
    if parts.fraction == "" then parts.whole else parts.whole + "." + parts.fraction
  }

  /** Digits cut before the places, with the zeros that end the fraction dropped. */
  function Cut(digits: string, places: nat): Parts
    requires |digits| > places
  {
    Parts(digits[..|digits| - places], TrimRight(digits[|digits| - places..]))
  }

  /** An amount in the asset's own units: the point put back, and no zeros after the last place that has one. */
  function Units(n: nat, places: nat): string {
    if places == 0 then Show(n)
    else
      Joined(Cut(Padded(n, places), places))
  }

  /** Leading zeros dropped while more than one character is left. */
  function KeepOne(s: string): (t: string)
    requires s != ""
    ensures t != "" && |t| <= |s|
    ensures t[0] != '0' || |t| == 1
  {
    if |s| == 1 || s[0] != '0' then s
    else
      KeepOne(s[1..])
  }

  /** One amount has one spelling: this is the one its zeros at either end reduce it to. */
  function Canonical(parts: Parts): string
    requires parts.whole != ""
  {
    Joined(Parts(KeepOne(parts.whole), TrimRight(parts.fraction)))
  }

  lemma {:induction false} TrimmedZeros(s: string)
    ensures s == TrimRight(s) + Zeros(|s| - |TrimRight(s)|)
  {
    if s == "" || s[|s| - 1] != '0' {
      assert Zeros(0) == "";
    } else {
      var rest := s[..|s| - 1];
      TrimmedZeros(rest);
      var k := |rest| - |TrimRight(rest)|;
      assert Zeros(k + 1) == Zeros(k) + "0";
      assert s == rest + "0";
    }
  }

  lemma {:induction false} KeptZeros(s: string)
    requires s != ""
    ensures s == Zeros(|s| - |KeepOne(s)|) + KeepOne(s)
  {
    if |s| == 1 || s[0] != '0' {
      assert Zeros(0) == "";
    } else {
      KeptZeros(s[1..]);
      var k := |s[1..]| - |KeepOne(s[1..])|;
      assert Zeros(k + 1) == "0" + Zeros(k);
      assert s == "0" + s[1..];
    }
  }

  lemma {:induction false} ValueOfAppended(a: string, b: string)
    requires AllDigits(a) && AllDigits(b)
    ensures AllDigits(a + b) && Value(a + b) == Value(a) * Pow10(|b|) + Value(b)
  {
    if b == "" {
      assert a + b == a;
    } else {
      var rest, last := b[..|b| - 1], b[|b| - 1];
      assert (a + b)[..|a + b| - 1] == a + rest;
      assert (a + b)[|a + b| - 1] == last;
      ValueOfAppended(a, rest);
      TenTimes(Value(a), Pow10(|rest|));
      assert Value(b) == 10 * Value(rest) + DigitValue(last);
    }
  }

  lemma TenTimes(a: nat, b: nat)
    ensures 10 * (a * b) == a * (10 * b)
  {
  }

  lemma {:induction false} ValueOfZeros(n: nat)
    ensures AllDigits(Zeros(n)) && Value(Zeros(n)) == 0
  {
    if n > 0 {
      assert Zeros(n)[..n - 1] == Zeros(n - 1);
      ValueOfZeros(n - 1);
    }
  }

  lemma ZerosInFront(k: nat, s: string)
    requires AllDigits(s)
    ensures AllDigits(Zeros(k) + s) && Value(Zeros(k) + s) == Value(s)
  {
    ValueOfZeros(k);
    ValueOfAppended(Zeros(k), s);
  }

  /** Two strings of digits of one length that write one number are one string. */
  lemma {:induction false} SameLengthSameValue(a: string, b: string)
    requires AllDigits(a) && AllDigits(b) && |a| == |b| && Value(a) == Value(b)
    ensures a == b
  {
    if a != "" {
      var p, q := a[..|a| - 1], b[..|b| - 1];
      var x, y := DigitValue(a[|a| - 1]), DigitValue(b[|b| - 1]);
      assert 10 * Value(p) + x == 10 * Value(q) + y;
      assert Value(p) == Value(q) && x == y;
      SameLengthSameValue(p, q);
      assert a == p + [a[|a| - 1]] && b == q + [b[|b| - 1]];
    }
  }

  /** A string of digits with no zero in front is at least the power of ten its length says. */
  lemma LeadingDigit(s: string)
    requires IsDigits(s) && s[0] != '0'
    ensures Value(s) >= Pow10(|s| - 1)
  {
    var first, rest := s[..1], s[1..];
    assert s == first + rest;
    ValueOfAppended(first, rest);
    assert first[..0] == "";
    assert Value(first) == DigitValue(s[0]) >= 1;
    assert Value(first) * Pow10(|rest|) >= Pow10(|rest|) by {
      MulAtLeast(Value(first), Pow10(|rest|));
    }
  }

  lemma MulAtLeast(a: nat, b: nat)
    requires a >= 1
    ensures a * b >= b
  {
    assert a * b == (a - 1) * b + b;
  }

  lemma {:induction false} Pow10Monotone(a: nat, b: nat)
    requires a <= b
    ensures Pow10(a) <= Pow10(b)
    decreases b
  {
    if a < b {
      Pow10Monotone(a, b - 1);
    }
  }

  /** How many digits a number prints as is the power of ten it is below. */
  lemma ShowLength(n: nat, e: nat)
    requires e >= 1
    ensures |Show(n)| <= e <==> n < Pow10(e)
  {
    var s := Show(n);
    if |s| <= e {
      Pow10Monotone(|s|, e);
    } else if n > 0 {
      LeadingDigit(s);
      Pow10Monotone(e, |s| - 1);
    }
  }

  lemma PaddedLength(n: nat, places: nat)
    ensures Value(Padded(n, places)) == n
    ensures |Padded(n, places)| == if |Show(n)| <= places then places + 1 else |Show(n)|
  {
    var digits := Show(n);
    if |digits| <= places {
      ZerosInFront(places - |digits| + 1, digits);
    }
  }

  /** What the point of a printed amount cuts it into. */
  lemma SplitJoined(parts: Parts)
    requires IsDigits(parts.whole) && AllDigits(parts.fraction)
    ensures SplitUnits(Joined(parts)) ==
            if |Joined(parts)| > MAX_DIGITS + 1 then None else Some(parts)
  {
    var text, whole, fraction := Joined(parts), parts.whole, parts.fraction;
    forall j | 0 <= j < |whole|
      ensures text[j] != '.'
    {
      assert text[j] == whole[j] && whole[j] in whole;
    }
    assert fraction != "" ==> text[|whole|] == '.';
    assert PointAt(text) == |whole|;
    assert text[..|whole|] == whole;
    if fraction != "" {
      assert text[|whole| + 1..] == fraction;
    }
  }

  /** What reading makes of an amount whose whole part and filled-out fraction are given. */
  lemma ReadJoined(parts: Parts, filled: string)
    requires IsDigits(parts.whole) && AllDigits(parts.fraction)
    requires |parts.fraction| <= |filled| && filled == parts.fraction + Zeros(|filled| - |parts.fraction|)
    ensures AllDigits(parts.whole + filled)
    ensures ParseUnits(Joined(parts), |filled|) ==
            if |parts.whole + filled| > MAX_DIGITS then None else Some(Value(parts.whole + filled))
  {
    SplitJoined(parts);
    var zeros := Zeros(|filled| - |parts.fraction|);
    assert parts.whole + parts.fraction + zeros == parts.whole + filled;
  }

  lemma CutDigits(digits: string, places: nat)
    requires AllDigits(digits) && |digits| > places
    ensures IsDigits(Cut(digits, places).whole) && AllDigits(Cut(digits, places).fraction)
    ensures var filled := digits[|digits| - places..];
            && |Cut(digits, places).fraction| <= |filled|
            && filled == Cut(digits, places).fraction + Zeros(|filled| - |Cut(digits, places).fraction|)
            && digits == Cut(digits, places).whole + filled
  {
    var whole, filled := digits[..|digits| - places], digits[|digits| - places..];
    var fraction := TrimRight(filled);
    TrimmedZeros(filled);
    assert digits == whole + filled;
    assert forall c :: c in whole ==> c in digits;
    assert forall c :: c in filled ==> c in digits;
    assert forall c :: c in fraction ==> c in filled;
  }

  /** An amount's own units are its padded digits, cut and joined. */
  lemma UnitsOfPadded(n: nat, places: nat)
    ensures Units(n, places) == Joined(Cut(Padded(n, places), places))
  {
    if places == 0 {
      var digits := Show(n);
      assert Padded(n, places) == digits;
      assert digits[..|digits|] == digits && digits[|digits|..] == "";
    }
  }

  /**
   Printing an amount and reading it back gives the amount, whatever the asset
   divides into, exactly when the amount has no more digits than are read.
   [ShowLength] says which amounts those are: the ones below ten to that power.
   */
  lemma PrintedReadsBack(n: nat, places: nat)
    requires places <= MAX_DECIMALS
    ensures ParseUnits(Units(n, places), places) == if |Show(n)| <= MAX_DIGITS then Some(n) else None
  {
    var digits := Padded(n, places);
    PaddedLength(n, places);
    UnitsOfPadded(n, places);
    CutDigits(digits, places);
    ReadJoined(Cut(digits, places), digits[|digits| - places..]);
  }

  /**
   Reading an amount and printing it gives what was written with the zeros at
   its ends dropped.
   */
  lemma ReadPrintsBack(amount: string, places: nat)
    requires ParseUnits(amount, places).Some?
    ensures Units(ParseUnits(amount, places).value, places) == Canonical(SplitUnits(amount).value)
  {
    var parts := SplitUnits(amount).value;
    var filled := parts.fraction + Zeros(places - |parts.fraction|);
    ReadValue(amount, places, filled);
    ReadKept(parts, filled);
    PrintFilled(KeepOne(parts.whole), filled);
    TrimFilled(parts.fraction, places - |parts.fraction|);
  }

  lemma ReadValue(amount: string, places: nat, filled: string)
    requires ParseUnits(amount, places).Some?
    requires filled == SplitUnits(amount).value.fraction + Zeros(places - |SplitUnits(amount).value.fraction|)
    ensures IsDigits(SplitUnits(amount).value.whole) && AllDigits(filled) && |filled| == places
    ensures AllDigits(SplitUnits(amount).value.whole + filled)
    ensures ParseUnits(amount, places) == Some(Value(SplitUnits(amount).value.whole + filled))
  {
    var parts := SplitUnits(amount).value;
    assert parts.whole + parts.fraction + Zeros(places - |parts.fraction|) == parts.whole + filled;
  }

  /** What prints for a whole part with no zero to spare and a filled-out fraction. */
  lemma PrintFilled(whole: string, filled: string)
    requires IsDigits(whole) && AllDigits(filled) && (whole[0] != '0' || |whole| == 1)
    ensures AllDigits(whole + filled)
    ensures Units(Value(whole + filled), |filled|) == Joined(Parts(whole, TrimRight(filled)))
  {
    var digits, places := whole + filled, |filled|;
    var n := Value(digits);
    UnitsOfPadded(n, places);
    PaddedLength(n, places);
    FilledLength(whole, filled);
    SameLengthSameValue(digits, Padded(n, places));
    CutFilled(whole, filled);
  }

  /** The zeros a whole part is written with in front change nothing. */
  lemma ReadKept(parts: Parts, filled: string)
    requires IsDigits(parts.whole) && AllDigits(filled)
    ensures IsDigits(KeepOne(parts.whole))
    ensures AllDigits(KeepOne(parts.whole) + filled) && AllDigits(parts.whole + filled)
    ensures Value(KeepOne(parts.whole) + filled) == Value(parts.whole + filled)
  {
    var whole := KeepOne(parts.whole);
    KeptZeros(parts.whole);
    assert forall c :: c in whole ==> c in parts.whole;
    var front := Zeros(|parts.whole| - |whole|);
    assert parts.whole + filled == front + (whole + filled);
    ZerosInFront(|front|, whole + filled);
  }

  lemma CutFilled(whole: string, filled: string)
    requires whole != ""
    ensures Cut(whole + filled, |filled|) == Parts(whole, TrimRight(filled))
  {
    var digits := whole + filled;
    assert digits[..|digits| - |filled|] == whole && digits[|digits| - |filled|..] == filled;
  }

  lemma FilledLength(whole: string, filled: string)
    requires IsDigits(whole) && AllDigits(filled) && (whole[0] != '0' || |whole| == 1)
    requires AllDigits(whole + filled)
    ensures |Padded(Value(whole + filled), |filled|)| == |whole| + |filled|
  {
    PaddedLength(Value(whole + filled), |filled|);
    if whole[0] != '0' {
      FullLength(whole + filled);
    } else {
      ZeroLed(whole, filled);
    }
  }

  /** A string of digits with no zero in front prints at its own length. */
  lemma FullLength(digits: string)
    requires IsDigits(digits) && digits[0] != '0'
    ensures |Show(Value(digits))| == |digits|
  {
    LeadingDigit(digits);
    ShowLength(Value(digits), |digits|);
    if |digits| > 1 {
      ShowLength(Value(digits), |digits| - 1);
    }
  }

  /** An amount below one unit prints within its places. */
  lemma ZeroLed(whole: string, filled: string)
    requires |whole| == 1 && whole[0] == '0' && AllDigits(filled) && AllDigits(whole + filled)
    ensures |Show(Value(whole + filled))| <= if filled == "" then 1 else |filled|
  {
    assert whole == Zeros(1);
    ZerosInFront(1, filled);
    if filled != "" {
      ShowLength(Value(filled), |filled|);
    }
  }

  lemma {:induction false} TrimFilled(s: string, k: nat)
    ensures TrimRight(s + Zeros(k)) == TrimRight(s)
    decreases k
  {
    if k == 0 {
      assert s + Zeros(0) == s;
    } else {
      var filled := s + Zeros(k);
      assert filled[|filled| - 1] == '0';
      assert filled[..|filled| - 1] == s + Zeros(k - 1);
      TrimFilled(s, k - 1);
    }
  }

  /** Two spellings read as one amount exactly when they differ in the zeros at their ends alone. */
  lemma OneSpelling(a: string, b: string, places: nat)
    requires places <= MAX_DECIMALS
    requires ParseUnits(a, places).Some? && ParseUnits(b, places).Some?
    ensures ParseUnits(a, places) == ParseUnits(b, places)
            <==> Canonical(SplitUnits(a).value) == Canonical(SplitUnits(b).value)
  {
    ReadPrintsBack(a, places);
    ReadPrintsBack(b, places);
    ReadInBounds(a, places);
    ReadInBounds(b, places);
    PrintedReadsBack(ParseUnits(a, places).value, places);
    PrintedReadsBack(ParseUnits(b, places).value, places);
  }

  lemma ReadInBounds(amount: string, places: nat)
    requires ParseUnits(amount, places).Some?
    ensures |Show(ParseUnits(amount, places).value)| <= MAX_DIGITS
  {
    var parts := SplitUnits(amount).value;
    var filled := parts.fraction + Zeros(places - |parts.fraction|);
    ReadValue(amount, places, filled);
    var digits := parts.whole + filled;
    assert digits == parts.whole + parts.fraction + Zeros(places - |parts.fraction|);
    ShowLength(Value(digits), |digits|);
  }

  /** An amount stored as digits is read back as the amount, which is what a row's columns rest on. */
  lemma StoredReadsBack(n: nat)
    ensures ParseMoney(Show(n)) == if |Show(n)| <= MAX_DIGITS then Some(n) else None
  {
    assert IsDigit(Show(n)[0]);
  }
}
