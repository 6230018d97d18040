/**
 The scores of a rubric item's sub items: rounding to the cent, and splitting a score evenly over sub items
 that have none of their own. Scores are exact numbers; a sub item's id "k-j" is the pair (k, j).
 */
module RubricShares {
  import opened Wrappers

  datatype SubItem = SubItem(
    id: (nat, nat), requirement: string, score: real, fullScoreStandard: string, deductionItems: string,
    dangerousOperation: Option<string>)

  // ---- Rounding

  /** To the nearest integer, halves away from zero. */
  function Round(x: real): (r: int)
    ensures -0.5 <= r as real - x <= 0.5
  {
    if x >= 0.0 then (x + 0.5).Floor else -(0.5 - x).Floor
  }

  function RoundToTwo(x: real): real { Round(x * 100.0) as real / 100.0 }

  predicate WholeCents(x: real) { x * 100.0 == (x * 100.0).Floor as real }

  predicate HalfCent(x: real) { x * 100.0 == (x * 100.0).Floor as real + 0.5 }

  // ---- Even splitting

  predicate HasExplicit(subs: seq<SubItem>) { exists i :: 0 <= i < |subs| && subs[i].score > 0.0 }

  function Average(primary: real, n: nat): real
    requires n > 0
  {
    RoundToTwo(primary / n as real)
  }

  /** What the rows before the last leave for it. */
  function Remainder(primary: real, n: nat): real
    requires n > 0
  {
    primary - (n - 1) as real * Average(primary, n)
  }

  function Share(primary: real, n: nat, i: nat): real
    requires n > 0
  {
    if i == n - 1 then RoundToTwo(Remainder(primary, n)) else Average(primary, n)
  }

  function WithShares(primary: real, subs: seq<SubItem>): (r: seq<SubItem>)
    ensures |r| == |subs|
  {
    if HasExplicit(subs) then subs
    else (
      var n := |subs|;
      seq(n, i requires 0 <= i < n => subs[i].(score := Share(primary, n, i)))
    )
  }

  method AnyExplicit(subs: array<SubItem>) returns (found: bool)
    ensures found == HasExplicit(subs[..])
  {
    for n := 0 to subs.Length
      invariant forall i :: 0 <= i < n ==> subs[i].score <= 0.0
    {
      if subs[n].score > 0.0 {
        assert subs[..][n].score > 0.0;
        return true;
      }
    }
    found := false;
  }

  method AssignAverageSubScores(primary: real, subs: array<SubItem>)
    modifies subs
    ensures subs[..] == WithShares(primary, old(subs[..]))
  {
    if subs.Length == 0 {
      return;
    }
    var hasExplicit := AnyExplicit(subs);
    if hasExplicit {
      return;
    }
    var n := subs.Length;
    var avg, accumulated := RoundToTwo(primary / n as real), 0.0;
    assert avg == Average(primary, n);
    hide Average, RoundToTwo;
    for i := 0 to n
      invariant i < n ==> accumulated == i as real * avg
      invariant forall j :: 0 <= j < i ==> subs[j] == old(subs[j]).(score := Share(primary, n, j))
      invariant forall j :: i <= j < n ==> subs[j] == old(subs[j])
    {
      if i == n - 1 {
        assert primary - accumulated == Remainder(primary, n);
        subs[i] := subs[i].(score := RoundToTwo(primary - accumulated));
      } else {
        subs[i] := subs[i].(score := avg);
        OneMore(i, avg);
        accumulated := accumulated + avg;
      }
    }
  }

  lemma OneMore(i: nat, avg: real)
    ensures (i + 1) as real * avg == i as real * avg + avg
  {
  }

  function Sum(subs: seq<SubItem>): real {
    if subs == [] then 0.0 else Sum(subs[..|subs| - 1]) + subs[|subs| - 1].score
  }

  lemma {:induction false} SumOfEqual(subs: seq<SubItem>, avg: real)
    requires forall i :: 0 <= i < |subs| ==> subs[i].score == avg
    ensures Sum(subs) == |subs| as real * avg
    decreases |subs|
  {
    if subs != [] {
      SumOfEqual(subs[..|subs| - 1], avg);
      assert (|subs| - 1) as real * avg + avg == |subs| as real * avg;
    }
  }

  lemma SumOfShares(primary: real, subs: seq<SubItem>)
    requires subs != [] && !HasExplicit(subs)
    ensures Sum(WithShares(primary, subs)) ==
              (|subs| - 1) as real * Average(primary, |subs|) + RoundToTwo(Remainder(primary, |subs|))
  {
    hide Average, Remainder, RoundToTwo;
    var n, shares := |subs|, WithShares(primary, subs);
    SumOfEqual(shares[..n - 1], Average(primary, n));
  }

  lemma FloorShift(x: real, m: int)
    ensures (x + m as real).Floor == x.Floor + m
  {
  }

  lemma FloorIs(x: real, k: int)
    requires k as real <= x < k as real + 1.0
    ensures x.Floor == k
  {
  }

  lemma HalvesDiffer(x: real)
    ensures -(0.5 - x).Floor == (x + 0.5).Floor <==> x != x.Floor as real + 0.5
  {
    var f := x.Floor;
    FloorIs(x + 0.5, if x < f as real + 0.5 then f else f + 1);
    FloorIs(0.5 - x, if x <= f as real + 0.5 then -f else -f - 1);
  }

  /** Rounding commutes with taking away an integer, unless a half changes sign. */
  lemma RoundShift(x: real, m: int)
    requires x >= 0.0
    ensures Round(x - m as real) == Round(x) - m <==> !(x == x.Floor as real + 0.5 && x - m as real < 0.0)
  {
    FloorShift(x + 0.5, -m);
    FloorShift(0.5 - x, m);
    HalvesDiffer(x);
  }

  lemma SharesInCents(primary: real, n: nat) returns (m: int)
    requires n > 0
    ensures (n - 1) as real * Average(primary, n) * 100.0 == m as real
    ensures Remainder(primary, n) * 100.0 == primary * 100.0 - m as real
  {
    var a := Round(primary / n as real * 100.0);
    assert Average(primary, n) * 100.0 == a as real;
    hide Average;
    m := (n - 1) * a;
    TimesCents(n - 1, Average(primary, n), a);
  }

  lemma TimesCents(k: int, x: real, c: int)
    requires x * 100.0 == c as real
    ensures k as real * x * 100.0 == (k * c) as real
  {
    assert (k * c) as real == k as real * c as real;
    assert k as real * x * 100.0 == k as real * (x * 100.0);
  }

  lemma Cancel(x: real, y: real, k: real)
    requires k > 0.0 && x * k == y * k
    ensures x == y
  {
  }

  lemma Quotient(a: real, k: real)
    requires k > 0.0
    ensures a / k * k == a
  {
  }

  /** The shares add up to the item's rounded score, except when half a cent meets a negative share. */
  lemma SharesAddUpIff(primary: real, subs: seq<SubItem>)
    requires primary > 0.0 && subs != [] && !HasExplicit(subs)
    ensures Sum(WithShares(primary, subs)) == RoundToTwo(primary) <==>
              !(HalfCent(primary) && Remainder(primary, |subs|) < 0.0)
  {
    hide WithShares, HasExplicit, Average, Remainder, Round;
    var n := |subs|;
    var m := SharesInCents(primary, n);
    SumOfShares(primary, subs);
    RoundShift(primary * 100.0, m);
    var kept := (n - 1) as real * Average(primary, n);
    var last := Round(Remainder(primary, n) * 100.0);
    assert last == Round(primary * 100.0 - m as real);
    assert kept == m as real / 100.0;
    assert RoundToTwo(Remainder(primary, n)) == last as real / 100.0;
    assert kept + last as real / 100.0 == (m + last) as real / 100.0;
    SameHundredths(Sum(WithShares(primary, subs)), RoundToTwo(primary), m + last, Round(primary * 100.0));
  }

  /** Half a cent over a hundred sub items: 0.505 is rounded to 0.51, and its shares add up to 0.50. */
  lemma SharesMissByACent(subs: seq<SubItem>)
    requires |subs| == 100 && !HasExplicit(subs)
    ensures Sum(WithShares(0.505, subs)) == 0.50 && RoundToTwo(0.505) == 0.51
  {
    SumOfShares(0.505, subs);
    FloorIs(0.505 / 100.0 * 100.0 + 0.5, 1);
    assert Average(0.505, 100) == 0.01;
    assert Remainder(0.505, 100) == -0.485;
    FloorIs(0.5 + 48.5, 49);
    FloorIs(50.5 + 0.5, 51);
  }

  lemma SameHundredths(x: real, y: real, a: int, b: int)
    requires x == a as real / 100.0 && y == b as real / 100.0
    ensures x == y <==> a == b
  {
  }

  lemma RoundWhole(primary: real)
    requires WholeCents(primary)
    ensures RoundToTwo(primary) == primary && !HalfCent(primary)
  {
    assert Round(primary * 100.0) == (primary * 100.0).Floor;
  }

  /** A score in whole cents is split to the cent. */
  lemma WholeCentsAddUp(primary: real, subs: seq<SubItem>)
    requires primary > 0.0 && WholeCents(primary) && subs != [] && !HasExplicit(subs)
    ensures Sum(WithShares(primary, subs)) == primary
  {
    hide *;
    SharesAddUpIff(primary, subs);
    RoundWhole(primary);
  }

  /** The rounded quotient in cents. */
  function RoundDiv(cents: nat, n: nat): nat
    requires n > 0
  {
    if 2 * (cents % n) < n then cents / n else cents / n + 1
  }

  lemma QuotientAsReal(cents: nat, n: nat)
    requires n > 0
    ensures cents as real / n as real == (cents / n) as real + (cents % n) as real / n as real
  {
    var q, r := cents / n, cents % n;
    assert cents == q * n + r;
    assert (q * n) as real == q as real * n as real;
    SumOverOne(q as real, r as real, n as real, cents as real);
  }

  lemma SumOverOne(q: real, r: real, n: real, c: real)
    requires n > 0.0 && c == q * n + r
    ensures c / n == q + r / n
  {
    Quotient(c, n);
    Quotient(r, n);
    assert (q + r / n) * n == q * n + r / n * n;
    Cancel(c / n, q + r / n, n);
  }

  lemma Below(x: real, bound: real, k: real, y: real)
    requires k > 0.0 && x * k == y
    ensures x < bound <==> y < bound * k
  {
    if x < bound {
      assert (bound - x) * k > 0.0;
    } else {
      assert (x - bound) * k >= 0.0;
    }
  }

  lemma HalfOf(r: nat, n: nat)
    requires n > 0 && r < n
    ensures 0.0 <= r as real / n as real < 1.0
    ensures r as real / n as real < 0.5 <==> 2 * r < n
  {
    var x := r as real / n as real;
    Quotient(r as real, n as real);
    Below(x, 0.0, n as real, r as real);
    Below(x, 0.5, n as real, r as real);
    Below(x, 1.0, n as real, r as real);
  }

  lemma RoundQuotient(cents: nat, n: nat)
    requires n > 0
    ensures Round(cents as real / n as real) == RoundDiv(cents, n)
  {
    QuotientAsReal(cents, n);
    HalfOf(cents % n, n);
    FloorIs(cents as real / n as real + 0.5, RoundDiv(cents, n));
  }

  function Cents(c: int): real { c as real / 100.0 }

  lemma HundredTimes(c: real, n: real)
    requires n > 0.0
    ensures c / 100.0 / n * 100.0 == c / n
  {
    var x := c / 100.0 / n;
    Quotient(c / 100.0, n);
    Quotient(c, n);
    assert x * 100.0 * n == x * n * 100.0;
    Cancel(x * 100.0, c / n, n);
  }

  lemma AverageInCents(cents: nat, n: nat)
    requires n > 0
    ensures Average(Cents(cents), n) == Cents(RoundDiv(cents, n))
  {
    HundredTimes(cents as real, n as real);
    RoundQuotient(cents, n);
  }

  lemma ScaleCents(k: int, c: int)
    ensures k as real * Cents(c) == Cents(k * c)
  {
    TimesCents(k, Cents(c), c);
  }

  lemma RoundInt(c: int)
    ensures Round(c as real) == c
  {
    FloorIs(c as real + 0.5, c);
    FloorIs(0.5 - c as real, -c);
  }

  lemma WholeCentsStay(c: int)
    ensures RoundToTwo(Cents(c)) == Cents(c)
  {
    hide Round;
    RoundInt(c);
    assert Cents(c) * 100.0 == c as real;
  }

  lemma LastInCents(cents: nat, n: nat)
    requires n > 0
    ensures RoundToTwo(Remainder(Cents(cents), n)) == Cents(cents - (n - 1) * RoundDiv(cents, n))
  {
    hide Average, RoundDiv, RoundToTwo;
    AverageInCents(cents, n);
    ScaleCents(n - 1, RoundDiv(cents, n));
    WholeCentsStay(cents - (n - 1) * RoundDiv(cents, n));
  }

  lemma LastAsQuotient(cents: nat, n: nat)
    requires n > 0
    ensures cents - (n - 1) * RoundDiv(cents, n) ==
              cents / n + cents % n + if 2 * (cents % n) < n then 0 else 1 - n
  {
    var q, r := cents / n, cents % n;
    assert cents == q * n + r;
    assert (n - 1) * q == n * q - q;
    assert (n - 1) * (q + 1) == n * q - q + n - 1;
  }

  /** How even the split of whole cents is: all shares but the last are equal, and the last is within n / 2
      cents of them. */
  lemma SplitIsEven(cents: nat, subs: seq<SubItem>)
    requires subs != [] && !HasExplicit(subs)
    ensures forall i :: 0 <= i < |subs| - 1 ==>
              WithShares(Cents(cents), subs)[i].score == Cents(RoundDiv(cents, |subs|))
    ensures -Cents(|subs|) <= 2.0 * (WithShares(Cents(cents), subs)[|subs| - 1].score - Cents(RoundDiv(cents, |subs|)))
              <= Cents(|subs|)
  {
    AverageInCents(cents, |subs|);
    LastInCents(cents, |subs|);
    LastAsQuotient(cents, |subs|);
  }

  /** Exactly when the last share is negative: the others were rounded up and owe more than is there. */
  lemma LastIsNegativeIff(cents: nat, subs: seq<SubItem>)
    requires subs != [] && !HasExplicit(subs)
    ensures WithShares(Cents(cents), subs)[|subs| - 1].score < 0.0 <==>
              2 * (cents % |subs|) >= |subs| && cents / |subs| + cents % |subs| + 1 < |subs|
  {
    LastInCents(cents, |subs|);
    LastAsQuotient(cents, |subs|);
  }

  lemma QuotientAndRest(c: nat, n: nat) returns (q: nat, r: nat)
    requires n > 0
    ensures q == c / n && r == c % n && r < n && c == q * n + r
  {
    q, r := c / n, c % n;
  }

  lemma ShortOfHalf(cents: nat, q: nat, r: nat, n: nat)
    requires cents == q * n + r && r < n && 2 * r >= n && q + r + 1 < n
    ensures 2 * cents < n * (n - 1)
  {
    OneFactor(q, n - 2 - r, n);
    OneFactor(n, 2 * r, n - 1);
    assert (n - 2 - r) * n == n * (n - 1) - n - r * n;
    assert 2 * r * (n - 1) == 2 * (r * n) - 2 * r;
  }

  /** It cannot be when there is half a cent for each ordered pair of sub items. */
  lemma EnoughCents(cents: nat, subs: seq<SubItem>)
    requires subs != [] && !HasExplicit(subs) && 2 * cents >= |subs| * (|subs| - 1)
    ensures WithShares(Cents(cents), subs)[|subs| - 1].score >= 0.0
  {
    hide *;
    LastIsNegativeIff(cents, subs);
    var q, r := QuotientAndRest(cents, |subs|);
    if 2 * r >= |subs| && q + r + 1 < |subs| {
      ShortOfHalf(cents, q, r, |subs|);
    }
  }

  lemma OneFactor(a: int, b: int, k: int)
    requires a <= b && 0 <= k
    ensures a * k <= b * k
  {
  }

  /** Half a point over a hundred sub items leaves the last one with minus 0.49. */
  lemma LastMayBeNegative(subs: seq<SubItem>)
    requires |subs| == 100 && !HasExplicit(subs)
    ensures WithShares(0.5, subs)[99].score == -0.49
  {
    LastInCents(50, 100);
    assert Cents(50) == 0.5;
  }
}
