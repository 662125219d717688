/** The card-number check digit (the Luhn formula, Annex B of ISO/IEC 7812-1)
    as the detector's validator runs it, and the errors it is there to catch. */
module Luhn {
  import opened Wrappers

  type Digits = ds: seq<int> | forall i :: 0 <= i < |ds| ==> 0 <= ds[i] <= 9

  type Digit = d: int | 0 <= d <= 9

  /** Which characters are decimal digits, of any script, and what they count. */
  type DigitClass = char -> Option<Digit>

  predicate IsDigits(cs: string, value: DigitClass) {
    forall i :: 0 <= i < |cs| ==> value(cs[i]).Some?
  }

  /** The digit characters of the matched text, other characters dropped. */
  function DigitsOf(text: string, value: DigitClass): (cs: string)
    ensures |cs| <= |text| && IsDigits(cs, value)
  {
    if text == "" then ""
    else if value(text[0]).Some? then [text[0]] + DigitsOf(text[1..], value)
    else DigitsOf(text[1..], value)
  }

  /** Digits are kept. */
  lemma {:induction false} DigitsKept(cs: string, value: DigitClass)
    requires IsDigits(cs, value)
    ensures DigitsOf(cs, value) == cs
  {
    if cs != "" {
      DigitsKept(cs[1..], value);
      assert cs == [cs[0]] + cs[1..];
    }
  }

  /** Anything else is passed over, wherever it stands. */
  lemma {:induction false} SeparatorsDropped(before: string, c: char, after: string, value: DigitClass)
    requires value(c).None?
    ensures DigitsOf(before + [c] + after, value) == DigitsOf(before + after, value)
  {
    var text := before + [c] + after;
    if before == "" {
      assert text[1..] == after && before + after == after;
    } else {
      SeparatorsDropped(before[1..], c, after, value);
      assert text[1..] == before[1..] + [c] + after && (before + after)[1..] == before[1..] + after;
    }
  }

  function Values(cs: string, value: DigitClass): (ds: Digits)
    requires IsDigits(cs, value)
    ensures |ds| == |cs| && forall i :: 0 <= i < |cs| ==> ds[i] == value(cs[i]).value
  {
    seq(|cs|, i requires 0 <= i < |cs| && value(cs[i]).Some? => value(cs[i]).value)
  }

  /** A doubled digit, with the digits of the product added. */
  function Doubled(d: int): int {
    if 2 * d > 9 then 2 * d - 9 else 2 * d
  }

  function Weighted(d: int, fromRight: nat): int {
    if fromRight % 2 == 1 then Doubled(d) else d
  }

  /** The weighted sum of the last `n` digits. */
  function TailTotal(ds: Digits, n: nat): int
    requires n <= |ds|
  {
    if n == 0 then 0 else TailTotal(ds, n - 1) + Weighted(ds[|ds| - n], n - 1)
  }

  function Total(ds: Digits): int {
    TailTotal(ds, |ds|)
  }

  predicate AllSame(ds: Digits) {
    forall i :: 0 <= i < |ds| ==> ds[i] == ds[0]
  }

  predicate Accepted(ds: Digits) {
    13 <= |ds| <= 19 && !AllSame(ds) && Total(ds) % 10 == 0
  }

  /** The validator's test on the digit characters: it compares characters, not
      values, when it rejects a repeated digit. */
  predicate AcceptedText(cs: string, value: DigitClass)
    requires IsDigits(cs, value)
  {
    13 <= |cs| <= 19 && !(forall i :: 0 <= i < |cs| ==> cs[i] == cs[0]) && Total(Values(cs, value)) % 10 == 0
  }

  /** The shape of an accepted number. */
  lemma AcceptedShape(ds: Digits)
    ensures Accepted(ds) <==>
              |ds| in {13, 14, 15, 16, 17, 18, 19} && (exists i :: 0 < i < |ds| && ds[i] != ds[0]) && Total(ds) % 10 == 0
  {
  }

  /** The number every card form is tried with: a four and fifteen ones. */
  lemma TrialNumberAccepted()
    ensures Accepted([4, 1, 1, 1, 1, 1, 1, 1, 1, 1, 1, 1, 1, 1, 1, 1])
  {
    var ds := [4, 1, 1, 1, 1, 1, 1, 1, 1, 1, 1, 1, 1, 1, 1, 1];
    assert TailTotal(ds, 2) == 3;
    assert TailTotal(ds, 4) == 6;
    assert TailTotal(ds, 6) == 9;
    assert TailTotal(ds, 8) == 12;
    assert TailTotal(ds, 10) == 15;
    assert TailTotal(ds, 12) == 18;
    assert TailTotal(ds, 14) == 21;
    assert TailTotal(ds, 16) == 30;
    assert ds[1] != ds[0];
  }

  /** Where equal digits are equal characters, as they are within one script, the
      test depends on the digits' values alone. */
  lemma OneScriptAccepted(cs: string, value: DigitClass)
    requires IsDigits(cs, value)
    requires forall i, j :: 0 <= i < |cs| && 0 <= j < |cs| && value(cs[i]) == value(cs[j]) ==> cs[i] == cs[j]
    ensures AcceptedText(cs, value) <==> Accepted(Values(cs, value))
  {
    var ds := Values(cs, value);
    if AllSame(ds) {
      forall i | 0 <= i < |cs| ensures cs[i] == cs[0] {
        assert ds[i] == ds[0];
      }
    }
  }

  method LuhnOk(text: string, value: DigitClass) returns (ok: bool)
    ensures ok == AcceptedText(DigitsOf(text, value), value)
  {
    var characters := DigitsOf(text, value);
    if !(13 <= |characters| <= 19) {
      return false;
    }
    var same := true;
    for k := 0 to |characters|
      invariant same <==> forall i :: 0 <= i < k ==> characters[i] == characters[0]
    {
      same := same && characters[k] == characters[0];
    }
    if same {
      return false;
    }
    var digits := Values(characters, value);
    var total := 0;
    for i := 0 to |digits|
      invariant total == TailTotal(digits, i)
    {
      var d := digits[|digits| - 1 - i];
      if i % 2 == 1 {
        d := d * 2;
        if d > 9 {
          d := d - 9;
        }
      }
      total := total + d;
    }
    return total % 10 == 0;
  }

  // -- replacing digits ----------------------------------------------------------------

  /** Changing one digit changes the total by the change in its weight. */
  lemma {:induction false} TotalUpdate(ds: Digits, k: nat, d: int, n: nat)
    requires k < |ds| && 0 <= d <= 9 && n <= |ds|
    ensures var at := |ds| - 1 - k;
            TailTotal(ds[at := d], n) == TailTotal(ds, n) + if k < n then Weighted(d, k) - Weighted(ds[at], k) else 0
  {
    if n > 0 {
      TotalUpdate(ds, k, d, n - 1);
    }
  }

  lemma WeightedInjective(d: int, e: int, fromRight: nat)
    requires 0 <= d <= 9 && 0 <= e <= 9 && (Weighted(d, fromRight) - Weighted(e, fromRight)) % 10 == 0
    ensures d == e
  {
  }

  lemma SumModulo(x: int, change: int)
    requires x % 10 == 0 && (x + change) % 10 == 0
    ensures change % 10 == 0
  {
  }

  /** Two digit strings that differ in exactly one digit are never both
      accepted. */
  lemma SingleErrorDetected(ds: Digits, at: nat, d: int)
    requires at < |ds| && 0 <= d <= 9 && d != ds[at]
    requires Accepted(ds)
    ensures !Accepted(ds[at := d])
  {
    var k := |ds| - 1 - at;
    TotalUpdate(ds, k, d, |ds|);
    var change := Weighted(d, k) - Weighted(ds[at], k);
    if Total(ds[at := d]) % 10 == 0 {
      SumModulo(Total(ds), change);
      WeightedInjective(d, ds[at], k);
    }
  }

  function Transposed(ds: Digits, at: nat): Digits
    requires at + 1 < |ds|
  {
    ds[at := ds[at + 1]][at + 1 := ds[at]]
  }

  predicate NineAndZero(d: int, e: int) {
    (d == 0 && e == 9) || (d == 9 && e == 0)
  }

  /** What swapping neighbours does to the total: the difference of their doubled
      and plain weights trades places. */
  lemma TransposedTotal(ds: Digits, at: nat)
    requires at + 1 < |ds|
    ensures var d, e := ds[at], ds[at + 1];
            var change := (Doubled(e) - e) - (Doubled(d) - d);
            Total(Transposed(ds, at)) == Total(ds) + if (|ds| - 1 - at) % 2 == 1 then change else -change
  {
    var once: Digits := ds[at := ds[at + 1]];
    TotalUpdate(ds, |ds| - 1 - at, ds[at + 1], |ds|);
    TotalUpdate(once, |ds| - 2 - at, ds[at], |ds|);
  }

  /** The totals before and after an adjacent transposition agree modulo ten
      exactly when the digits are equal or are 0 and 9. */
  lemma TranspositionKeepsTotalIff(ds: Digits, at: nat)
    requires at + 1 < |ds|
    ensures (Total(Transposed(ds, at)) - Total(ds)) % 10 == 0
       <==> ds[at] == ds[at + 1] || NineAndZero(ds[at], ds[at + 1])
  {
    TransposedTotal(ds, at);
    SwapIff(ds[at], ds[at + 1]);
  }

  lemma SwapIff(d: int, e: int)
    requires 0 <= d <= 9 && 0 <= e <= 9
    ensures var change := (Doubled(e) - e) - (Doubled(d) - d);
            && (change % 10 == 0 <==> d == e || NineAndZero(d, e))
            && (-change % 10 == 0 <==> change % 10 == 0)
  {
  }

  lemma {:induction false} TransposedSame(ds: Digits, at: nat)
    requires at + 1 < |ds| && AllSame(Transposed(ds, at))
    ensures AllSame(ds)
  {
    var ts := Transposed(ds, at);
    assert ts[at] == ts[0] && ts[at + 1] == ts[0];
    forall i | 0 <= i < |ds| ensures ds[i] == ds[0] {
      assert ts[i] == ts[0];
    }
  }

  /** A single adjacent transposition of an accepted number is accepted exactly
      when it swaps equal digits or a 0 with a 9: the formula misses the latter. */
  lemma TranspositionAcceptedIff(ds: Digits, at: nat)
    requires at + 1 < |ds| && Accepted(ds)
    ensures Accepted(Transposed(ds, at)) <==> ds[at] == ds[at + 1] || NineAndZero(ds[at], ds[at + 1])
  {
    TranspositionKeepsTotalIff(ds, at);
    if AllSame(Transposed(ds, at)) {
      TransposedSame(ds, at);
    }
    Congruent(Total(ds), Total(Transposed(ds, at)));
  }

  lemma Congruent(x: int, y: int)
    requires x % 10 == 0
    ensures y % 10 == 0 <==> (y - x) % 10 == 0
  {
  }

  // -- check digits -----------------------------------------------------------------------

  function CheckDigit(payload: Digits): int {
    (10 - Total(payload + [0]) % 10) % 10
  }

  /** Every payload has exactly one check digit. */
  lemma CheckDigitUnique(payload: Digits, c: int)
    requires 0 <= c <= 9
    ensures 0 <= CheckDigit(payload) <= 9
    ensures Total(payload + [c]) % 10 == 0 <==> c == CheckDigit(payload)
  {
    var zero: Digits := payload + [0];
    assert payload + [c] == zero[|payload| := c];
    TotalUpdate(zero, 0, c, |zero|);
    assert Weighted(c, 0) == c;
    UniqueComplement(Total(zero), c);
  }

  lemma UniqueComplement(x: int, c: int)
    requires 0 <= c <= 9
    ensures (x + c) % 10 == 0 <==> c == (10 - x % 10) % 10
  {
  }
}
