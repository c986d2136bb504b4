// Choosing a bounded number of evaluation cases per expected behaviour, spread over each group. The
// quotients are taken exactly, as rational numbers; rounding them in binary floating point first makes
// no difference.
module Sampling {
  import opened Jobs
  import opened Retrieval

  // ---- positions -----------------------------------------------------------------------------

  // round(n / d), half to even
  function Rounded(n: nat, d: nat): nat
    requires d > 0
  {
    var q, r := n / d, n % d;
    if 2 * r < d then q
    else if 2 * r > d then q + 1
    else if q % 2 == 0 then q else q + 1
  }

  // The position of sample i of `limit` in a group of n
  function Position(i: nat, n: nat, limit: nat): nat
    requires limit >= 2 && n >= 1
  {
    Rounded(i * (n - 1), limit - 1)
  }

  // Rounding moves by at most a half.
  lemma RoundedIsNear(n: nat, d: nat)
    requires d > 0
    ensures 2 * (Rounded(n, d) * d) <= 2 * n + d
    ensures 2 * n <= 2 * (Rounded(n, d) * d) + d
  {
    var q, r := n / d, n % d;
    assert n == q * d + r;
    assert (q + 1) * d == q * d + d;
  }

  lemma Multiples(e: int, d: nat)
    ensures e == 0 ==> e * d == 0
    ensures e == 1 ==> e * d == d
    ensures e >= 2 ==> e * d >= 2 * d
    ensures e <= -1 ==> e * d + d <= 0
  {
    if e >= 2 {
      assert e * d == (e - 2) * d + 2 * d;
    } else if e <= -1 {
      assert e * d + d == (e + 1) * d;
    }
  }

  // Within half of d, or a half away and even
  predicate IsNearest(off: int, d: nat, k: nat) {
    0 < off + d < 2 * d || ((off == d || off + d == 0) && k % 2 == 0)
  }

  // `steps` is (k - q) * d.
  lemma NearestIs(q: nat, r: nat, d: nat, k: nat, steps: int)
    requires r < d
    requires k == q ==> steps == 0
    requires k == q + 1 ==> steps == d
    requires k >= q + 2 ==> steps >= 2 * d
    requires k <= q - 1 ==> steps + d <= 0
    ensures IsNearest(2 * steps - 2 * r, d, k) <==>
              k == if 2 * r < d then q else if 2 * r > d then q + 1 else if q % 2 == 0 then q else q + 1
  {
  }

  // Rounding goes to the nearest integer, and at a half to the even one.
  lemma RoundedIff(n: nat, d: nat, k: nat)
    requires d > 0
    ensures k == Rounded(n, d) <==> IsNearest(2 * (k * d) - 2 * n, d, k)
  {
    var q, r := n / d, n % d;
    var steps := (k - q) * d;
    assert n == q * d + r;
    assert k * d == q * d + steps;
    Multiples(k - q, d);
    NearestIs(q, r, d, k, steps);
  }

  lemma Smaller(a: nat, b: nat, d: nat)
    requires d > 0 && a * d < b * d
    ensures a < b
  {
    Products(b, a, d);
  }

  lemma Products(b: nat, a: nat, d: nat)
    ensures b <= a ==> b * d <= a * d
  {
    assert (a - b) * d == a * d - b * d;
  }

  // Steps longer than one are never rounded together.
  lemma RoundedRises(n: nat, m: nat, d: nat)
    requires d > 0 && n + d < m
    ensures Rounded(n, d) < Rounded(m, d)
  {
    RoundedIsNear(n, d);
    RoundedIsNear(m, d);
    Smaller(Rounded(n, d), Rounded(m, d), d);
  }

  lemma PositionRises(i: nat, n: nat, limit: nat)
    requires 2 <= limit < n
    ensures Position(i, n, limit) < Position(i + 1, n, limit)
  {
    assert (i + 1) * (n - 1) == i * (n - 1) + (n - 1);
    RoundedRises(i * (n - 1), (i + 1) * (n - 1), limit - 1);
  }

  lemma {:induction false} PositionsRise(i: nat, j: nat, n: nat, limit: nat)
    requires 2 <= limit < n && i < j
    ensures Position(i, n, limit) < Position(j, n, limit)
  {
    PositionRises(j - 1, n, limit);
    if i < j - 1 {
      PositionsRise(i, j - 1, n, limit);
    }
  }

  lemma Ends(n: nat, limit: nat)
    requires 2 <= limit < n
    ensures Position(0, n, limit) == 0
    ensures Position(limit - 1, n, limit) == n - 1
  {
    ExactQuotient(n - 1, limit - 1);
  }

  lemma ExactQuotient(a: nat, d: nat)
    requires d > 0
    ensures Rounded(d * a, d) == a
  {
    RoundedIsNear(d * a, d);
    var k := Rounded(d * a, d);
    assert (a + 1) * d == d * a + d && (k + 1) * d == k * d + d;
    Smaller(k, a + 1, d);
    Smaller(a, k + 1, d);
  }

  // The place of sample i of `limit` in a group of n, at most half a case from an even spread
  predicate InPlace(at: nat, i: nat, n: nat, limit: nat)
    requires limit >= 2 && n >= 1
  {
    -(limit - 1) <= 2 * (at * (limit - 1)) - 2 * (i * (n - 1)) <= limit - 1
  }

  lemma PositionInPlace(i: nat, n: nat, limit: nat)
    requires limit >= 2 && n >= 1
    ensures InPlace(Position(i, n, limit), i, n, limit)
  {
    RoundedIsNear(i * (n - 1), limit - 1);
  }

  // For every group larger than the limit the positions rise from 0 to n - 1, each within half a
  // case of its exact place.
  lemma PositionsSpreadOut(n: nat, limit: nat)
    requires 2 <= limit < n
    ensures Position(0, n, limit) == 0 && Position(limit - 1, n, limit) == n - 1
    ensures forall i, j | 0 <= i < j < limit :: Position(i, n, limit) < Position(j, n, limit)
    ensures forall i | 0 <= i < limit :: Position(i, n, limit) < n
    ensures forall i | 0 <= i < limit :: InPlace(Position(i, n, limit), i, n, limit)
  {
    Ends(n, limit);
    forall i, j | 0 <= i < j < limit ensures Position(i, n, limit) < Position(j, n, limit) {
      PositionsRise(i, j, n, limit);
    }
    forall i | 0 <= i < limit ensures Position(i, n, limit) < n {
      if i < limit - 1 {
        PositionsRise(i, limit - 1, n, limit);
      }
    }
    forall i | 0 <= i < limit ensures InPlace(Position(i, n, limit), i, n, limit) {
      PositionInPlace(i, n, limit);
    }
  }

  // ---- floating point ------------------------------------------------------------------------

  const TWO_TO_THE_52: nat := 0x10_0000_0000_0000

  // round() of a float
  function RoundedFloat(f: real): int {
    var q := f.Floor;
    var rest := f - q as real;
    if rest < 0.5 then q
    else if rest > 0.5 then q + 1
    else if q % 2 == 0 then q else q + 1
  }

  // What the correctly rounded value of a quotient satisfies in binary floating point with 53 bits: its
  // relative error is at most 2 ** -53, and halves of integers, which it represents, come out exactly.
  ghost predicate CorrectlyRounded(f: real, exact: real) {
    && -exact <= (f - exact) * (2 * TWO_TO_THE_52) as real <= exact
    && forall h: nat :: exact == HalfOf(h) ==> f == exact
  }

  function HalfOf(h: nat): real {
    h as real / 2.0
  }

  function Quotient(n: nat, d: nat): real
    requires d > 0
  {
    n as real / d as real
  }

  lemma QuotientAdds(a: nat, b: nat, d: nat)
    requires d > 0
    ensures Quotient(a + b, d) == Quotient(a, d) + Quotient(b, d)
  {
  }

  lemma QuotientOfMultiple(q: nat, d: nat)
    requires d > 0
    ensures Quotient(q * d, d) == q as real
  {
    assert (q * d) as real == q as real * d as real;
  }

  lemma QuotientRises(a: nat, b: nat, d: nat)
    requires d > 0
    ensures a <= b ==> Quotient(a, d) <= Quotient(b, d)
    ensures a < b ==> Quotient(a, d) < Quotient(b, d)
  {
  }

  // q + r / d, and the place of r / d among 0, 1/2 and 1, in units of 1 / d
  lemma QuotientSplits(n: nat, d: nat, q: nat, r: nat)
    requires d > 0 && n == q * d + r && r < d
    ensures Quotient(n, d) == q as real + Quotient(r, d) && Quotient(r, d) + Quotient(1, d) <= 1.0
    ensures Quotient(1, d) > 0.0 && if r == 0 then Quotient(r, d) == 0.0 else Quotient(r, d) >= Quotient(1, d)
    ensures 2 * r < d ==> 2.0 * Quotient(r, d) + Quotient(1, d) <= 1.0
    ensures 2 * r > d ==> 2.0 * Quotient(r, d) >= 1.0 + Quotient(1, d)
    ensures 2 * r == d ==> Quotient(r, d) == 0.5
  {
    QuotientAdds(q * d, r, d);
    QuotientOfMultiple(q, d);
    QuotientOfMultiple(1, d);
    QuotientOfMultiple(0, d);
    QuotientAdds(r, 1, d);
    QuotientRises(r + 1, d, d);
    QuotientRises(1, r, d);
    QuotientRises(0, 1, d);
    QuotientAdds(r, r, d);
    QuotientAdds(r + r, 1, d);
    QuotientRises(r + r + 1, d, d);
    QuotientAdds(d, 1, d);
    QuotientRises(d + 1, r + r, d);
  }

  lemma {:induction false} ManyQuotients(k: nat, d: nat)
    requires d > 0
    ensures Quotient(k, d) == k as real * Quotient(1, d)
  {
  }

  lemma SmallQuotient(n: nat, d: nat)
    requires d > 0 && n < TWO_TO_THE_52
    ensures Quotient(n, d) < TWO_TO_THE_52 as real * Quotient(1, d)
  {
    QuotientRises(n, TWO_TO_THE_52, d);
    ManyQuotients(TWO_TO_THE_52, d);
  }

  lemma FloorIs(f: real, q: int)
    requires q as real <= f < q as real + 1.0
    ensures f.Floor == q
  {
  }

  // Rounding the float gives what rounding the exact quotient gives.
  lemma FloatRoundsTheSame(f: real, n: nat, d: nat)
    requires d > 0 && n < TWO_TO_THE_52 && CorrectlyRounded(f, Quotient(n, d))
    ensures RoundedFloat(f) == Rounded(n, d)
  {
    var q, r := n / d, n % d;
    QuotientSplits(n, d, q, r);
    SmallQuotient(n, d);
    if r == 0 {
      assert Quotient(n, d) == HalfOf(2 * q);
    } else if 2 * r == d {
      assert Quotient(n, d) == HalfOf(2 * q + 1);
    }
    FloorIs(f, q);
  }

  // So the position of a sample may be computed in floating point.
  lemma FloatPositionIsExact(f: real, i: nat, n: nat, limit: nat)
    requires limit >= 2 && n >= 1 && i * (n - 1) < TWO_TO_THE_52
    requires CorrectlyRounded(f, Quotient(i * (n - 1), limit - 1))
    ensures RoundedFloat(f) == Position(i, n, limit)
  {
    FloatRoundsTheSame(f, i * (n - 1), limit - 1);
  }

  // ---- stratified_cases ----------------------------------------------------------------------

  datatype GoldCase = GoldCase(id: nat, behavior: Behavior)

  function Group(cases: seq<GoldCase>, b: Behavior): seq<GoldCase> {
    if cases == [] then []
    else
      var last := cases[|cases| - 1];
      Group(cases[..|cases| - 1], b) + (if last.behavior == b then [last] else [])
  }

  // `picked` are the cases at the places `at`, in their order.
  ghost predicate Picks(at: seq<nat>, cases: seq<GoldCase>, picked: seq<GoldCase>) {
    && |at| == |picked| && (forall i, j | 0 <= i < j < |at| :: at[i] < at[j])
    && forall i | 0 <= i < |at| :: at[i] < |cases| && picked[i] == cases[at[i]]
  }

  lemma OnePickMore(at: seq<nat>, cases: seq<GoldCase>, picked: seq<GoldCase>, c: GoldCase)
    requires Picks(at, cases, picked)
    ensures Picks(at, cases + [c], picked) && Picks(at + [|cases|], cases + [c], picked + [c])
  {
  }

  // The group of a behaviour is exactly its cases, in their order.
  lemma {:induction false} GroupIs(cases: seq<GoldCase>, b: Behavior) returns (at: seq<nat>)
    ensures Picks(at, cases, Group(cases, b))
    ensures forall k | 0 <= k < |cases| :: k in at <==> cases[k].behavior == b
  {
    if cases == [] {
      at := [];
    } else {
      var n := |cases| - 1;
      var before := GroupIs(cases[..n], b);
      assert cases == cases[..n] + [cases[n]];
      OnePickMore(before, cases[..n], Group(cases[..n], b), cases[n]);
      at := if cases[n].behavior == b then before + [n] else before;
      assert forall i | 0 <= i < |before| :: before[i] < n;
      forall k | 0 <= k < |cases| ensures k in at <==> cases[k].behavior == b {
        assert k < n ==> cases[k] == cases[..n][k];
      }
    }
  }

  // What is taken of one group
  function Sampled(group: seq<GoldCase>, limit: nat): seq<GoldCase>
    requires limit > 0
  {
    if |group| <= limit then group
    else if limit == 1 then [group[|group| / 2]]
    else
      PositionsSpreadOut(|group|, limit);
      seq(limit, i requires 0 <= i < limit => group[Position(i, |group|, limit)])
  }

  // Exactly as many cases as the limit allows, in the order of the group, none twice; and where there are
  // two or more out of a larger group, each in its place, the first and the last among them.
  lemma SampledIsSpread(group: seq<GoldCase>, limit: nat) returns (at: seq<nat>)
    requires limit > 0
    ensures |at| == (if |group| <= limit then |group| else limit) && Picks(at, group, Sampled(group, limit))
    ensures limit >= 2 && group != [] ==> at[0] == 0 && at[|at| - 1] == |group| - 1
    ensures 2 <= limit < |group| ==> forall i | 0 <= i < limit :: InPlace(at[i], i, |group|, limit)
  {
    if |group| <= limit {
      at := seq(|group|, i => i);
    } else if limit == 1 {
      at := [|group| / 2];
    } else {
      at := SpreadPicks(group, limit);
    }
  }

  lemma SpreadPicks(group: seq<GoldCase>, limit: nat) returns (at: seq<nat>)
    requires 2 <= limit < |group|
    ensures |at| == limit && Picks(at, group, Sampled(group, limit))
    ensures at[0] == 0 && at[limit - 1] == |group| - 1
    ensures forall i | 0 <= i < limit :: InPlace(at[i], i, |group|, limit)
  {
    PositionsSpreadOut(|group|, limit);
    at := seq(limit, i requires 0 <= i < limit => Position(i, |group|, limit));
  }

  // A single one is taken from the middle: as many cases before it as after it, or one more.
  lemma OneIsTheMiddle(group: seq<GoldCase>) returns (before: seq<GoldCase>, after: seq<GoldCase>)
    requires group != []
    ensures group == before + Sampled(group, 1) + after && |after| <= |before| <= |after| + 1
  {
    before, after := group[..|group| / 2], group[|group| / 2 + 1..];
  }

  // stratified_cases, None where it raises
  method StratifiedCases(cases: seq<GoldCase>, limit: int) returns (selected: Option<seq<GoldCase>>)
    ensures selected.None? <==> limit <= 0
    ensures selected.Some? ==> selected.value == Sampled(Group(cases, RetrieveEvidence), limit)
                                 + Sampled(Group(cases, PartialEvidence), limit)
                                 + Sampled(Group(cases, InsufficientEvidence), limit)
  {
    if limit <= 0 {
      return None;
    }
    var all: seq<GoldCase> := [];
    var behaviors := [RetrieveEvidence, PartialEvidence, InsufficientEvidence];
    for b := 0 to |behaviors|
      invariant b == 0 ==> all == []
      invariant b == 1 ==> all == Sampled(Group(cases, RetrieveEvidence), limit)
      invariant b == 2 ==> all == Sampled(Group(cases, RetrieveEvidence), limit)
                                    + Sampled(Group(cases, PartialEvidence), limit)
      invariant b == 3 ==> all == Sampled(Group(cases, RetrieveEvidence), limit)
                                    + Sampled(Group(cases, PartialEvidence), limit)
                                    + Sampled(Group(cases, InsufficientEvidence), limit)
    {
      var group := Group(cases, behaviors[b]);
      var sample := TakeSample(group, limit);
      all := all + sample;
    }
    return Some(all);
  }

  method TakeSample(group: seq<GoldCase>, limit: nat) returns (sample: seq<GoldCase>)
    requires limit > 0
    ensures sample == Sampled(group, limit)
  {
    if |group| <= limit {
      return group;
    }
    if limit == 1 {
      return [group[|group| / 2]];
    }
    PositionsSpreadOut(|group|, limit);
    sample := [];
    for i := 0 to limit
      invariant |sample| == i
      invariant forall k | 0 <= k < i :: sample[k] == group[Position(k, |group|, limit)]
    {
      sample := sample + [group[Position(i, |group|, limit)]];
    }
  }
}
