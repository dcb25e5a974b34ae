/** The check-digit loop of card numbers: `luhnValid` of shared/lib/rules.js. */
module Luhn {
  predicate Digits(s: string) {
    forall i | 0 <= i < |s| :: '0' <= s[i] <= '9'
  }

  /** What a character adds to the sum: doubled, with the digits of the product added, when an odd number of
      characters follow it. */
  function Contribution(c: char, followers: nat): int {
    var d := c as int - 48;
    if followers % 2 == 0 then d else if 2 * d > 9 then 2 * d - 9 else 2 * d
  }

  function Change(was: char, now: char, followers: nat): int {
    Contribution(now, followers) - Contribution(was, followers)
  }

  /** The sum over the positions from `from` on: each position's weight depends only on how many follow it. */
  function SumFrom(s: string, from: nat): int
    requires from <= |s|
    decreases |s| - from
  {
    if from == |s| then 0 else Contribution(s[from], |s| - 1 - from) + SumFrom(s, from + 1)
  }

  predicate Valid(s: string) {
    SumFrom(s, 0) % 10 == 0
  }

  /** The right-to-left loop with its toggle. */
  method LuhnValid(digits: string) returns (valid: bool)
    ensures valid == Valid(digits)
  {
    var sum, double := 0, false;
    for i := |digits| downto 0
      invariant sum == SumFrom(digits, i)
      invariant double == ((|digits| - i) % 2 == 1)
    {
      var d := digits[i] as int - 48;
      if double {
        d := d * 2;
        if d > 9 { d := d - 9; }
      }
      sum := sum + d;
      double := !double;
    }
    return sum % 10 == 0;
  }

  /** Replacing one character moves the sum by the difference of what the two add there. */
  lemma {:induction false} SumAfterReplacing(s: string, i: nat, c: char, from: nat)
    requires i < |s| && from <= |s|
    ensures SumFrom(s[i := c], from) == SumFrom(s, from) + if from <= i then Change(s[i], c, |s| - 1 - i) else 0
    decreases |s| - from
  {
    if from < |s| { SumAfterReplacing(s, i, c, from + 1); }
  }

  /** Among digits the two contributions are each one-to-one modulo ten. */
  lemma ContributionsDiffer(was: char, now: char, followers: nat)
    requires '0' <= was <= '9' && '0' <= now <= '9' && was != now
    ensures Change(was, now, followers) % 10 != 0
  {
  }

  lemma MovedSum(sum: int, change: int)
    requires sum % 10 == 0
    ensures (sum + change) % 10 == 0 <==> change % 10 == 0
  {
  }

  /** Every error in a single digit of a valid number is found. */
  lemma SingleDigitErrorFound(s: string, i: nat, c: char)
    requires Digits(s) && i < |s| && '0' <= c <= '9' && c != s[i]
    ensures Valid(s) ==> !Valid(s[i := c])
  {
    var sum, change := SumFrom(s, 0), Change(s[i], c, |s| - 1 - i);
    assert SumFrom(s[i := c], 0) == sum + change by { SumAfterReplacing(s, i, c, 0); }
    assert change % 10 != 0 by { ContributionsDiffer(s[i], c, |s| - 1 - i); }
    if sum % 10 == 0 { MovedSum(sum, change); }
  }

  /** The string with the characters at `i` and `j` exchanged. */
  function Swapped(s: string, i: nat, j: nat): string
    requires i < j < |s|
  {
    s[i := s[j]][j := s[i]]
  }

  lemma SumAfterSwapping(s: string, i: nat, j: nat, from: nat)
    requires from <= i < j < |s|
    ensures SumFrom(Swapped(s, i, j), from) == SumFrom(s, from) + Change(s[i], s[j], |s| - 1 - i) + Change(s[j], s[i], |s| - 1 - j)
  {
    var half := s[i := s[j]];
    SumAfterReplacing(s, i, s[j], from);
    SumAfterReplacing(half, j, s[i], from);
  }

  /** Of a valid number, an exchange of neighbouring digits goes unnoticed exactly when they are equal or are 0 and 9. */
  lemma NeighbourSwapFound(s: string, i: nat)
    requires Digits(s) && i + 1 < |s| && Valid(s)
    ensures Valid(Swapped(s, i, i + 1)) <==> s[i] == s[i + 1] || {s[i], s[i + 1]} == {'0', '9'}
  {
    var a, b := s[i], s[i + 1];
    var n := |s| - 2 - i;
    var sum, change := SumFrom(s, 0), Change(a, b, n + 1) + Change(b, a, n);
    assert SumFrom(Swapped(s, i, i + 1), 0) == sum + change by { SumAfterSwapping(s, i, i + 1, 0); }
    MovedSum(sum, change);
    SwapChange(a, b, n);
  }

  lemma SwapChange(a: char, b: char, n: nat)
    requires '0' <= a <= '9' && '0' <= b <= '9'
    ensures (Change(a, b, n + 1) + Change(b, a, n)) % 10 == 0 <==> a == b || {a, b} == {'0', '9'}
  {
    var apart := Gain(b) - Gain(a);
    assert Change(a, b, n + 1) + Change(b, a, n) == if n % 2 == 0 then apart else -apart;
    assert -8 <= apart <= 8;
    SameGain(a, b);
  }

  /** What doubling adds to a digit. */
  function Gain(c: char): (gain: int)
    ensures '0' <= c <= '9' ==> -4 <= gain <= 4
  {
    Contribution(c, 1) - Contribution(c, 0)
  }

  lemma SameGain(a: char, b: char)
    requires '0' <= a <= '9' && '0' <= b <= '9'
    ensures Gain(a) == Gain(b) <==> a == b || {a, b} == {'0', '9'}
  {
    ZeroOrNine(a, b);
    assert Gain(a) == if a < '5' then a as int - 48 else a as int - 57;
    assert Gain(b) == if b < '5' then b as int - 48 else b as int - 57;
  }

  lemma ZeroOrNine(a: char, b: char)
    ensures a != b ==> ({a, b} == {'0', '9'} <==> (a == '0' && b == '9') || (a == '9' && b == '0'))
  {
    if {a, b} == {'0', '9'} {
      assert a in {'0', '9'} && b in {'0', '9'};
    }
  }

  /** An exchange across an even distance never changes validity. */
  lemma EvenSwapUnnoticed(s: string, i: nat, j: nat)
    requires i < j < |s| && (j - i) % 2 == 0
    ensures Valid(Swapped(s, i, j)) <==> Valid(s)
  {
    SumAfterSwapping(s, i, j, 0);
  }

  /** Every digit string has exactly one check digit. */
  lemma OneCheckDigit(s: string) returns (check: char)
    requires Digits(s)
    ensures '0' <= check <= '9' && Valid(s + [check])
    ensures forall c | '0' <= c <= '9' :: Valid(s + [c]) ==> c == check
  {
    var zero := s + ['0'];
    check := FillingDigit(SumFrom(zero, 0));
    Appended(s, '0', check);
    forall c | '0' <= c <= '9' && Valid(s + [c]) ensures c == check {
      if c != check {
        assert (s + [check])[|s| := c] == s + [c];
        SingleDigitErrorFound(s + [check], |s|, c);
      }
    }
  }

  lemma FillingDigit(sum: int) returns (check: char)
    ensures '0' <= check <= '9' && (sum + Change('0', check, 0)) % 10 == 0
  {
    check := ((10 - sum % 10) % 10 + 48) as char;
  }

  lemma Appended(s: string, was: char, now: char)
    ensures SumFrom(s + [now], 0) == SumFrom(s + [was], 0) + Change(was, now, 0)
  {
    assert (s + [was])[|s| := now] == s + [now];
    SumAfterReplacing(s + [was], |s|, now, 0);
  }
}
