/** Ranking of offers (cloud_offload/preflight.py, `_rank_candidates`): scores rounded to nine
    places, a stable sort, and the choice of the first fully priced candidate.  Rounding hides
    nothing from the cheapest and the fastest choice.  It can hide a better candidate from the
    balanced one, exactly when a dominating pair shares the least score. */
module CandidateRanking {
  import opened Prelude

  datatype Policy = Cheapest | Fastest | Balanced | Manual

  /** An offer with its estimates, as ranges: costs in millionths of a dollar and lifetimes in
      thousandths of a second, the places that estimates are rounded to.  `tie` is the place of
      the remaining sort keys (coverage, rate, provider, offer, region) in their order. */
  datatype Candidate = Candidate(id: string, cost: Option<(int, int)>, lifetime: (int, int), fullyPriced: bool, tie: int)

  datatype Ranked = Ranked(candidate: Candidate, score: real, rank: nat)

  /** The middle of a range of costs, in dollars. */
  function Midpoint(range: (int, int)): real {
    (range.0 + range.1) as real / 2000000.0
  }

  datatype Bounds = Bounds(costLow: real, costHigh: real, timeLow: real, timeHigh: real, unknown: real)

  function CostOf(c: Candidate, unknown: real): real {
    if c.cost.Some? then Midpoint(c.cost.value) else unknown
  }

  function TimeOf(c: Candidate): real {
    (c.lifetime.0 + c.lifetime.1) as real / 2000.0
  }

  function Scaled(x: real, low: real, high: real): real {
    if high == low then 0.0 else (x - low) / (high - low)
  }

  function Score(c: Candidate, policy: Policy, b: Bounds): real {
    match policy
    case Cheapest => CostOf(c, b.unknown)
    case Fastest => TimeOf(c)
    case _ => 0.65 * Scaled(TimeOf(c), b.timeLow, b.timeHigh) + 0.35 * Scaled(CostOf(c, b.unknown), b.costLow, b.costHigh)
  }

  const PLACES := 1000000000.0

  function Rounded(x: real): real {
    Nearest(x * PLACES) as real / PLACES
  }

  /** Rounding keeps the order of scores, though not every difference. */
  lemma RoundedGrows(x: real, y: real)
    requires x <= y
    ensures Rounded(x) <= Rounded(y)
  {
    NearestGrows(x * PLACES, y * PLACES);
  }

  lemma RoundedIsNear(x: real)
    ensures -0.5 <= (Rounded(x) - x) * PLACES <= 0.5
  {
    assert Rounded(x) * PLACES == Nearest(x * PLACES) as real;
  }

  /** Midpoints have no more than nine places. */
  lemma MidpointsAreExact(c: Candidate)
    ensures c.cost.Some? ==> Rounded(Midpoint(c.cost.value)) == Midpoint(c.cost.value)
    ensures Rounded(TimeOf(c)) == TimeOf(c)
  {
    if c.cost.Some? {
      var k := c.cost.value.0 + c.cost.value.1;
      assert Midpoint(c.cost.value) * PLACES == (500 * k) as real;
    }
    var n := c.lifetime.0 + c.lifetime.1;
    assert TimeOf(c) * PLACES == (500000 * n) as real;
  }

  /** The bounds enclose every candidate. */
  predicate Encloses(b: Bounds, candidates: seq<Candidate>) {
    forall c <- candidates ::
      b.costLow <= CostOf(c, b.unknown) <= b.costHigh && b.timeLow <= TimeOf(c) <= b.timeHigh
  }

  predicate Before(a: Ranked, b: Ranked) {
    a.score < b.score || (a.score == b.score && a.candidate.tie <= b.candidate.tie)
  }

  predicate IsOrdered(s: seq<Ranked>) {
    forall i, j | 0 <= i < j < |s| :: Before(s[i], s[j])
  }

  /** The smallest and the largest of some numbers. */
  method MinMax(values: seq<real>) returns (low: real, high: real)
    requires values != []
    ensures forall v <- values :: low <= v <= high
    ensures low in values && high in values
  {
    low, high := values[0], values[0];
    for i := 1 to |values|
      invariant forall k | 0 <= k < i :: low <= values[k] <= high
      invariant low in values && high in values
    {
      if values[i] < low {
        low := values[i];
      }
      if values[i] > high {
        high := values[i];
      }
    }
  }

  /** What an unpriced candidate is taken to cost: a million more than the dearest priced one. */
  ghost predicate IsUnknownCost(unknown: real, candidates: seq<Candidate>) {
    && (forall c <- candidates | c.cost.Some? :: Midpoint(c.cost.value) + 1000000.0 <= unknown)
    && ((exists c <- candidates :: c.cost.Some? && Midpoint(c.cost.value) + 1000000.0 == unknown)
        || (unknown == 1000000.0 && forall c <- candidates :: c.cost.None?))
  }

  method UnknownCost(candidates: seq<Candidate>) returns (unknown: real)
    ensures IsUnknownCost(unknown, candidates)
  {
    var most: Option<real> := None;
    for i := 0 to |candidates|
      invariant forall k | 0 <= k < i && candidates[k].cost.Some? :: most.Some? && Midpoint(candidates[k].cost.value) <= most.value
      invariant most.Some? ==> exists c <- candidates :: c.cost.Some? && Midpoint(c.cost.value) == most.value
    {
      var c := candidates[i];
      if c.cost.Some? && (most.None? || Midpoint(c.cost.value) > most.value) {
        most := Some(Midpoint(c.cost.value));
      }
    }
    unknown := (if most.Some? then most.value else 0.0) + 1000000.0;
  }

  /** The bounds are reached. */
  ghost predicate AreTight(b: Bounds, candidates: seq<Candidate>) {
    && (exists c <- candidates :: CostOf(c, b.unknown) == b.costLow) && (exists c <- candidates :: CostOf(c, b.unknown) == b.costHigh)
    && (exists c <- candidates :: TimeOf(c) == b.timeLow) && (exists c <- candidates :: TimeOf(c) == b.timeHigh)
  }

  /** The bounds that the scores are scaled by. */
  ghost predicate AreBounds(b: Bounds, candidates: seq<Candidate>) {
    IsUnknownCost(b.unknown, candidates) && Encloses(b, candidates) && AreTight(b, candidates)
  }

  lemma BoundsAreUnique(a: Bounds, b: Bounds, candidates: seq<Candidate>)
    requires AreBounds(a, candidates) && AreBounds(b, candidates)
    ensures a == b
  {
  }

  method BoundsOf(candidates: seq<Candidate>) returns (b: Bounds)
    requires candidates != []
    ensures AreBounds(b, candidates)
  {
    var unknown := UnknownCost(candidates);
    var costs := seq(|candidates|, i requires 0 <= i < |candidates| => CostOf(candidates[i], unknown));
    var times := seq(|candidates|, i requires 0 <= i < |candidates| => TimeOf(candidates[i]));
    hide IsUnknownCost, CostOf, TimeOf;
    var costLow, costHigh := MinMax(costs);
    var timeLow, timeHigh := MinMax(times);
    b := Bounds(costLow, costHigh, timeLow, timeHigh, unknown);
    forall c <- candidates
      ensures b.costLow <= CostOf(c, b.unknown) <= b.costHigh && b.timeLow <= TimeOf(c) <= b.timeHigh
    {
      var i :| 0 <= i < |candidates| && candidates[i] == c;
      assert costs[i] in costs && times[i] in times;
    }
    assert AreTight(b, candidates) by {
      var i :| 0 <= i < |costs| && costs[i] == costLow;
      var j :| 0 <= j < |costs| && costs[j] == costHigh;
      var k :| 0 <= k < |times| && times[k] == timeLow;
      var l :| 0 <= l < |times| && times[l] == timeHigh;
      assert candidates[i] in candidates && candidates[j] in candidates && candidates[k] in candidates && candidates[l] in candidates;
    }
  }

  function Candidates(s: seq<Ranked>): seq<Candidate> {
    seq(|s|, i requires 0 <= i < |s| => s[i].candidate)
  }

  /** Where a stable sort puts an element: after all that are not behind it. */
  method InsertSorted(s: seq<Ranked>, x: Ranked) returns (t: seq<Ranked>)
    requires IsOrdered(s)
    ensures IsOrdered(t) && multiset(Candidates(t)) == multiset(Candidates(s)) + multiset{x.candidate}
    ensures forall r <- t :: r == x || r in s
  {
    var k := |s|;
    while k > 0 && !Before(s[k - 1], x)
      invariant 0 <= k <= |s|
      invariant forall i | k <= i < |s| :: Before(x, s[i])
    {
      k := k - 1;
    }
    t := s[..k] + [x] + s[k..];
    InsertedCandidates(s, k, x);
    if k > 0 {
      forall i | 0 <= i < k ensures Before(s[i], x) {
        assert Before(s[k - 1], x) && (i < k - 1 ==> Before(s[i], s[k - 1]));
      }
    }
  }

  method SortRanked(s: seq<Ranked>) returns (t: seq<Ranked>)
    ensures IsOrdered(t) && multiset(Candidates(t)) == multiset(Candidates(s)) && forall r <- t :: r in s
  {
    t := [];
    for i := 0 to |s|
      invariant IsOrdered(t) && multiset(Candidates(t)) == multiset(Candidates(s[..i])) && forall r <- t :: r in s
    {
      assert Candidates(s[..i + 1]) == Candidates(s[..i]) + [s[i].candidate];
      t := InsertSorted(t, s[i]);
    }
    assert s[..|s|] == s;
  }

  lemma InsertedCandidates(s: seq<Ranked>, k: nat, x: Ranked)
    requires k <= |s|
    ensures multiset(Candidates(s[..k] + [x] + s[k..])) == multiset(Candidates(s)) + multiset{x.candidate}
  {
    var c := Candidates(s);
    assert Candidates(s[..k] + [x] + s[k..]) == c[..k] + [x.candidate] + c[k..];
    assert c == c[..k] + c[k..];
  }

  /** The candidate is at least as good on both estimates, and better on one. */
  predicate Dominates(a: Candidate, b: Candidate)
    requires a.cost.Some? && b.cost.Some?
  {
    && Midpoint(a.cost.value) <= Midpoint(b.cost.value) && TimeOf(a) <= TimeOf(b)
    && (Midpoint(a.cost.value) < Midpoint(b.cost.value) || TimeOf(a) < TimeOf(b))
  }

  lemma ScaledGrows(x: real, y: real, low: real, high: real)
    requires low <= x <= y <= high
    ensures Scaled(x, low, high) <= Scaled(y, low, high)
    ensures x < y ==> Scaled(x, low, high) < Scaled(y, low, high)
  {
    if low < high {
      var w := high - low;
      assert Scaled(y, low, high) - Scaled(x, low, high) == (y - x) / w;
      assert (y - x) / w >= 0.0;
      if x < y {
        assert (y - x) / w > 0.0;
      }
    }
  }

  /** A dominating candidate has the lower balanced score. */
  lemma DominatingScoresLower(a: Candidate, b: Candidate, bounds: Bounds, candidates: seq<Candidate>)
    requires a in candidates && b in candidates && Encloses(bounds, candidates)
    requires a.cost.Some? && b.cost.Some? && Dominates(a, b)
    ensures Score(a, Balanced, bounds) < Score(b, Balanced, bounds)
  {
    ScaledGrows(TimeOf(a), TimeOf(b), bounds.timeLow, bounds.timeHigh);
    ScaledGrows(CostOf(a, bounds.unknown), CostOf(b, bounds.unknown), bounds.costLow, bounds.costHigh);
  }

  /** What the sort puts first among the fully priced candidates. */
  ghost predicate IsChoice(chosen: Candidate, policy: Policy, b: Bounds, candidates: seq<Candidate>) {
    && chosen in candidates && chosen.fullyPriced
    && forall c <- candidates | c.fullyPriced ::
         || Rounded(Score(chosen, policy, b)) < Rounded(Score(c, policy, b))
         || (Rounded(Score(chosen, policy, b)) == Rounded(Score(c, policy, b)) && chosen.tie <= c.tie)
  }

  /** Every fully priced candidate has a cost. */
  predicate ArePriced(candidates: seq<Candidate>) {
    forall c <- candidates | c.fullyPriced :: c.cost.Some?
  }

  /** The candidate is better than another under the policy. */
  predicate Outdoes(c: Candidate, other: Candidate, policy: Policy)
    requires c.cost.Some? && other.cost.Some?
  {
    match policy
    case Cheapest => Midpoint(c.cost.value) < Midpoint(other.cost.value)
    case Fastest => TimeOf(c) < TimeOf(other)
    case _ => Dominates(c, other)
  }

  /** The choice is a best fully priced candidate under the policy. */
  ghost predicate IsBest(chosen: Candidate, policy: Policy, candidates: seq<Candidate>)
    requires chosen.cost.Some? && ArePriced(candidates)
  {
    forall c <- candidates | c.fullyPriced :: !Outdoes(c, chosen, policy)
  }

  /** A dominating pair of fully priced candidates rounds apart, or is behind another. */
  ghost predicate TellsApart(b: Bounds, candidates: seq<Candidate>)
    requires ArePriced(candidates)
  {
    forall c <- candidates, d <- candidates | c.fullyPriced && d.fullyPriced && Dominates(c, d) ::
      || Rounded(Score(c, Balanced, b)) != Rounded(Score(d, Balanced, b))
      || exists e <- candidates :: e.fullyPriced && Rounded(Score(e, Balanced, b)) < Rounded(Score(d, Balanced, b))
  }

  /** By cost or by time alone, the choice is a best one. */
  lemma CheapestAndFastestAreBest(chosen: Candidate, policy: Policy, b: Bounds, candidates: seq<Candidate>)
    requires IsChoice(chosen, policy, b, candidates) && ArePriced(candidates) && policy in {Cheapest, Fastest}
    ensures IsBest(chosen, policy, candidates)
  {
    hide Rounded, Midpoint, TimeOf;
    forall c <- candidates | c.fullyPriced ensures !Outdoes(c, chosen, policy) {
      MidpointsAreExact(c);
      MidpointsAreExact(chosen);
    }
  }

  lemma BalancedIsBest(chosen: Candidate, b: Bounds, candidates: seq<Candidate>)
    requires IsChoice(chosen, Balanced, b, candidates) && ArePriced(candidates)
    requires Encloses(b, candidates) && TellsApart(b, candidates)
    ensures IsBest(chosen, Balanced, candidates)
  {
    hide Score, Rounded, Encloses, Dominates;
    forall c <- candidates | c.fullyPriced ensures !Dominates(c, chosen) {
      if Dominates(c, chosen) {
        DominatingScoresLower(c, chosen, b, candidates);
        RoundedGrows(Score(c, Balanced, b), Score(chosen, Balanced, b));
      }
    }
  }

  /** The same offers with other remaining keys. */
  function Retied(candidates: seq<Candidate>, ties: seq<int>): (s: seq<Candidate>)
    requires |ties| == |candidates|
    ensures |s| == |candidates|
  {
    seq(|candidates|, i requires 0 <= i < |candidates| => candidates[i].(tie := ties[i]))
  }

  /** Whatever the sort puts first is a best candidate. */
  ghost predicate AllChoicesAreBest(b: Bounds, candidates: seq<Candidate>)
    requires ArePriced(candidates)
  {
    forall c | IsChoice(c, Balanced, b, candidates) :: IsBest(c, Balanced, candidates)
  }

  /** The remaining keys count for neither score nor dominance. */
  lemma TiesDoNotCount(c: Candidate, t: int, d: Candidate, u: int, b: Bounds)
    ensures Score(c.(tie := t), Balanced, b) == Score(c, Balanced, b)
    ensures c.cost.Some? && d.cost.Some? ==> (Dominates(c.(tie := t), d.(tie := u)) <==> Dominates(c, d))
    ensures CostOf(c.(tie := t), b.unknown) == CostOf(c, b.unknown) && TimeOf(c.(tie := t)) == TimeOf(c)
  {
  }

  lemma OriginOf(candidates: seq<Candidate>, ties: seq<int>, c: Candidate) returns (i: nat)
    requires |ties| == |candidates| && c in Retied(candidates, ties)
    ensures i < |candidates| && c == Retied(candidates, ties)[i] == candidates[i].(tie := ties[i])
    ensures candidates[i] in candidates
  {
    i :| 0 <= i < |candidates| && c == Retied(candidates, ties)[i];
  }

  lemma RetiedIsPriced(candidates: seq<Candidate>, ties: seq<int>, b: Bounds)
    requires |ties| == |candidates| && ArePriced(candidates)
    ensures ArePriced(Retied(candidates, ties))
    ensures Encloses(b, candidates) ==> Encloses(b, Retied(candidates, ties))
  {
    forall c <- Retied(candidates, ties)
      ensures c.fullyPriced ==> c.cost.Some?
      ensures Encloses(b, candidates) ==>
                b.costLow <= CostOf(c, b.unknown) <= b.costHigh && b.timeLow <= TimeOf(c) <= b.timeHigh
    {
      var i := OriginOf(candidates, ties, c);
      TiesDoNotCount(candidates[i], ties[i], candidates[i], ties[i], b);
    }
  }

  lemma RetiedTellsApart(candidates: seq<Candidate>, ties: seq<int>, b: Bounds)
    requires |ties| == |candidates| && ArePriced(candidates) && ArePriced(Retied(candidates, ties))
    requires TellsApart(b, candidates)
    ensures TellsApart(b, Retied(candidates, ties))
  {
    var s := Retied(candidates, ties);
    hide Rounded, Score, Dominates;
    forall c <- s, d <- s | c.fullyPriced && d.fullyPriced && Dominates(c, d)
      ensures || Rounded(Score(c, Balanced, b)) != Rounded(Score(d, Balanced, b))
              || exists e <- s :: e.fullyPriced && Rounded(Score(e, Balanced, b)) < Rounded(Score(d, Balanced, b))
    {
      var i := OriginOf(candidates, ties, c);
      var j := OriginOf(candidates, ties, d);
      TiesDoNotCount(candidates[i], ties[i], candidates[j], ties[j], b);
      TiesDoNotCount(candidates[j], ties[j], candidates[i], ties[i], b);
      if Rounded(Score(c, Balanced, b)) == Rounded(Score(d, Balanced, b)) {
        var e :| e in candidates && e.fullyPriced && Rounded(Score(e, Balanced, b)) < Rounded(Score(candidates[j], Balanced, b));
        var k :| 0 <= k < |s| && e == candidates[k];
        TiesDoNotCount(e, ties[k], e, ties[k], b);
        assert s[k] in s && s[k] == e.(tie := ties[k]);
      }
    }
  }

  /** If a dominating pair shares the least rounded score, other keys may put the dominated one
      first. */
  lemma DominatedCanWin(candidates: seq<Candidate>, b: Bounds, i: nat, j: nat) returns (ties: seq<int>)
    requires i < |candidates| && j < |candidates| && ArePriced(candidates)
    requires candidates[i].fullyPriced && candidates[j].fullyPriced && Dominates(candidates[i], candidates[j])
    requires forall e <- candidates | e.fullyPriced ::
               Rounded(Score(candidates[j], Balanced, b)) <= Rounded(Score(e, Balanced, b))
    ensures |ties| == |candidates| && ArePriced(Retied(candidates, ties))
    ensures !AllChoicesAreBest(b, Retied(candidates, ties))
  {
    hide Rounded, Score, Dominates;
    ties := seq(|candidates|, k => if k == j then 0 else 1);
    RetiedIsPriced(candidates, ties, b);
    var s := Retied(candidates, ties);
    TiesDoNotCount(candidates[j], ties[j], candidates[i], ties[i], b);
    TiesDoNotCount(candidates[i], ties[i], candidates[j], ties[j], b);
    forall c <- s | c.fullyPriced
      ensures || Rounded(Score(s[j], Balanced, b)) < Rounded(Score(c, Balanced, b))
              || (Rounded(Score(s[j], Balanced, b)) == Rounded(Score(c, Balanced, b)) && s[j].tie <= c.tie)
    {
      var k := OriginOf(candidates, ties, c);
      TiesDoNotCount(candidates[k], ties[k], candidates[k], ties[k], b);
    }
    assert IsChoice(s[j], Balanced, b, s);
    assert s[i] in s && Dominates(s[i], s[j]);
  }

  /** The balanced choice is undominated however the remaining keys fall, exactly when no
      dominating pair shares the least rounded score. */
  lemma BalancedIsBestExactly(b: Bounds, candidates: seq<Candidate>)
    requires AreBounds(b, candidates) && ArePriced(candidates)
    ensures TellsApart(b, candidates) <==>
            forall ties | |ties| == |candidates| ::
              ArePriced(Retied(candidates, ties)) && AllChoicesAreBest(b, Retied(candidates, ties))
  {
    hide Score, Rounded, Encloses, AreTight, Dominates, Retied, IsBest, IsUnknownCost;
    if TellsApart(b, candidates) {
      forall ties | |ties| == |candidates|
        ensures ArePriced(Retied(candidates, ties)) && AllChoicesAreBest(b, Retied(candidates, ties))
      {
        RetiedIsPriced(candidates, ties, b);
        RetiedTellsApart(candidates, ties, b);
        forall c | IsChoice(c, Balanced, b, Retied(candidates, ties)) ensures IsBest(c, Balanced, Retied(candidates, ties)) {
          BalancedIsBest(c, b, Retied(candidates, ties));
        }
      }
    } else {
      var c, d :| c in candidates && d in candidates && c.fullyPriced && d.fullyPriced && Dominates(c, d)
        && Rounded(Score(c, Balanced, b)) == Rounded(Score(d, Balanced, b))
        && forall e <- candidates | e.fullyPriced :: Rounded(Score(d, Balanced, b)) <= Rounded(Score(e, Balanced, b));
      var i :| 0 <= i < |candidates| && candidates[i] == c;
      var j :| 0 <= j < |candidates| && candidates[j] == d;
      var ties := DominatedCanWin(candidates, b, i, j);
    }
  }

  /** Costs that spread over less than 175 dollars, and lifetimes over less than 325,000
      seconds, are never merged by rounding. */
  lemma NarrowRangesTellApart(b: Bounds, candidates: seq<Candidate>)
    requires Encloses(b, candidates) && ArePriced(candidates)
    requires b.costHigh - b.costLow < 175.0 && b.timeHigh - b.timeLow < 325000.0
    ensures TellsApart(b, candidates)
  {
    hide Score, Rounded, Dominates, Encloses;
    forall c <- candidates, d <- candidates | c.fullyPriced && d.fullyPriced && Dominates(c, d)
      ensures Rounded(Score(c, Balanced, b)) != Rounded(Score(d, Balanced, b))
    {
      DominatingScoresApart(c, d, b, candidates);
      RoundedIsNear(Score(c, Balanced, b));
      RoundedIsNear(Score(d, Balanced, b));
    }
  }

  lemma DominatingScoresApart(c: Candidate, d: Candidate, b: Bounds, candidates: seq<Candidate>)
    requires c in candidates && d in candidates && Encloses(b, candidates)
    requires c.cost.Some? && d.cost.Some? && Dominates(c, d)
    requires b.costHigh - b.costLow < 175.0 && b.timeHigh - b.timeLow < 325000.0
    ensures (Score(d, Balanced, b) - Score(c, Balanced, b)) * PLACES > 1.0
  {
    hide Scaled;
    var (t, u) := (TimeOf(c), TimeOf(d));
    var (x, y) := (CostOf(c, b.unknown), CostOf(d, b.unknown));
    ScaledGrows(t, u, b.timeLow, b.timeHigh);
    ScaledGrows(x, y, b.costLow, b.costHigh);
    DifferencesAreWhole(c, d, b.unknown);
    hide TimeOf, CostOf, Midpoint;
    if t < u {
      ScaledApart(t, u, b.timeLow, b.timeHigh, 325000.0, 0.0005);
    } else {
      ScaledApart(x, y, b.costLow, b.costHigh, 175.0, 0.0000005);
    }
  }

  /** Different midpoints are half a place apart. */
  lemma DifferencesAreWhole(c: Candidate, d: Candidate, unknown: real)
    requires c.cost.Some? && d.cost.Some?
    ensures TimeOf(c) < TimeOf(d) ==> TimeOf(c) + 0.0005 <= TimeOf(d)
    ensures CostOf(c, unknown) < CostOf(d, unknown) ==> CostOf(c, unknown) + 0.0000005 <= CostOf(d, unknown)
  {
    assert c.lifetime.0 + c.lifetime.1 < d.lifetime.0 + d.lifetime.1 ==>
        c.lifetime.0 + c.lifetime.1 + 1 <= d.lifetime.0 + d.lifetime.1;
    assert c.cost.value.0 + c.cost.value.1 < d.cost.value.0 + d.cost.value.1 ==>
        c.cost.value.0 + c.cost.value.1 + 1 <= d.cost.value.0 + d.cost.value.1;
  }

  lemma ScaledApart(x: real, y: real, low: real, high: real, width: real, least: real)
    requires low <= x && x + least <= y <= high && 0.0 < least && high - low < width
    ensures (Scaled(y, low, high) - Scaled(x, low, high)) * width > least
  {
    var w := high - low;
    var s := Scaled(y, low, high) - Scaled(x, low, high);
    assert s == (y - x) / w;
    assert s * w == y - x && s > 0.0;
    assert s * (width - w) > 0.0;
  }

  /** An unpriced offer beside a priced one spreads the costs over a million dollars. */
  lemma UnpricedStretches(b: Bounds, candidates: seq<Candidate>, c: Candidate, d: Candidate)
    requires AreBounds(b, candidates) && c in candidates && d in candidates && c.cost.Some? && d.cost.None?
    ensures b.costHigh - b.costLow >= 1000000.0
  {
    assert CostOf(c, b.unknown) + 1000000.0 <= CostOf(d, b.unknown);
  }

  /** Ranks a permutation of the candidates from 1 to n by rounded score, and chooses none in
      manual mode or when none is fully priced, and otherwise the first that is. */
  method RankCandidates(candidates: seq<Candidate>, policy: Policy)
    returns (ranked: seq<Ranked>, chosen: Option<Ranked>, ghost b: Bounds)
    requires ArePriced(candidates)
    ensures multiset(Candidates(ranked)) == multiset(candidates)
    ensures forall i | 0 <= i < |ranked| :: ranked[i].rank == i + 1
    ensures IsOrdered(ranked)
    ensures candidates != [] ==> AreBounds(b, candidates)
    ensures forall i | 0 <= i < |ranked| :: ranked[i].score == Rounded(Score(ranked[i].candidate, policy, b))
    ensures chosen.None? <==> policy == Manual || forall c <- candidates :: !c.fullyPriced
    ensures chosen.Some? ==> exists i :: 0 <= i < |ranked| && ranked[i] == chosen.value
                                         && forall k | 0 <= k < i :: !ranked[k].candidate.fullyPriced
    ensures chosen.Some? ==> IsChoice(chosen.value.candidate, policy, b, candidates)
    ensures chosen.Some? && (policy == Balanced ==> TellsApart(b, candidates)) ==>
              IsBest(chosen.value.candidate, policy, candidates)
  {
    if candidates == [] {
      return [], None, Bounds(0.0, 0.0, 0.0, 0.0, 0.0);
    }
    hide Score, Rounded, AreBounds, Candidates, IsOrdered, IsBest, TellsApart, IsChoice, Midpoint;
    var bounds := BoundsOf(candidates);
    b := bounds;
    ranked := ScoreAndSort(candidates, policy, bounds);
    chosen := Choose(ranked, policy, bounds, candidates);
  }

  method Choose(ranked: seq<Ranked>, policy: Policy, b: Bounds, candidates: seq<Candidate>)
    returns (chosen: Option<Ranked>)
    requires ArePriced(candidates)
    requires IsOrdered(ranked) && AreBounds(b, candidates)
    requires forall i | 0 <= i < |ranked| :: ranked[i].score == Rounded(Score(ranked[i].candidate, policy, b))
    requires forall i | 0 <= i < |ranked| :: ranked[i].candidate in candidates
    requires forall c <- candidates :: exists i :: 0 <= i < |ranked| && ranked[i].candidate == c
    ensures chosen.None? <==> policy == Manual || forall c <- candidates :: !c.fullyPriced
    ensures chosen.Some? ==> exists i :: 0 <= i < |ranked| && ranked[i] == chosen.value
                                         && forall k | 0 <= k < i :: !ranked[k].candidate.fullyPriced
    ensures chosen.Some? ==> IsChoice(chosen.value.candidate, policy, b, candidates)
    ensures chosen.Some? && (policy == Balanced ==> TellsApart(b, candidates)) ==>
              IsBest(chosen.value.candidate, policy, candidates)
  {
    hide Score, Rounded, Encloses, IsOrdered, IsBest, TellsApart;
    if policy == Manual {
      return None;
    }
    var k := FirstPriced(ranked);
    if k < |ranked| {
      FirstIsChoice(ranked, k, policy, b, candidates);
      if policy != Balanced {
        CheapestAndFastestAreBest(ranked[k].candidate, policy, b, candidates);
      } else if TellsApart(b, candidates) {
        BalancedIsBest(ranked[k].candidate, b, candidates);
      }
      chosen := Some(ranked[k]);
    } else {
      chosen := None;
    }
  }

  /** The place of the first fully priced candidate, if there is one. */
  method FirstPriced(ranked: seq<Ranked>) returns (k: nat)
    ensures k <= |ranked| && forall i | 0 <= i < k :: !ranked[i].candidate.fullyPriced
    ensures k < |ranked| ==> ranked[k].candidate.fullyPriced
  {
    k := 0;
    while k < |ranked| && !ranked[k].candidate.fullyPriced
      invariant k <= |ranked| && forall i | 0 <= i < k :: !ranked[i].candidate.fullyPriced
    {
      k := k + 1;
    }
  }

  method ScoreAndSort(candidates: seq<Candidate>, policy: Policy, bounds: Bounds) returns (ranked: seq<Ranked>)
    ensures multiset(Candidates(ranked)) == multiset(candidates) && IsOrdered(ranked)
    ensures forall i | 0 <= i < |ranked| ::
                ranked[i].rank == i + 1 && ranked[i].score == Rounded(Score(ranked[i].candidate, policy, bounds))
    ensures forall i | 0 <= i < |ranked| :: ranked[i].candidate in candidates
    ensures forall c <- candidates :: exists i :: 0 <= i < |ranked| && ranked[i].candidate == c
  {
    hide Score, Rounded, Candidates;
    var scored := seq(|candidates|, i requires 0 <= i < |candidates| =>
      Ranked(candidates[i], Rounded(Score(candidates[i], policy, bounds)), 0));
    CandidatesOf(scored, candidates);
    var sorted := SortRanked(scored);
    ScoresKept(sorted, scored, policy, bounds);
    ranked := seq(|sorted|, i requires 0 <= i < |sorted| => sorted[i].(rank := i + 1));
    LengthOf(sorted);
    CandidatesOf(ranked, Candidates(sorted));
    RankedAreCandidates(ranked, candidates);
  }

  lemma CandidatesOf(s: seq<Ranked>, candidates: seq<Candidate>)
    requires |s| == |candidates| && forall i | 0 <= i < |s| :: s[i].candidate == candidates[i]
    ensures Candidates(s) == candidates
  {
  }

  lemma LengthOf(s: seq<Ranked>)
    ensures |Candidates(s)| == |s| && forall i | 0 <= i < |s| :: Candidates(s)[i] == s[i].candidate
  {
  }

  lemma ScoresKept(sorted: seq<Ranked>, scored: seq<Ranked>, policy: Policy, bounds: Bounds)
    requires forall r <- sorted :: r in scored
    requires forall i | 0 <= i < |scored| :: scored[i].score == Rounded(Score(scored[i].candidate, policy, bounds))
    ensures forall i | 0 <= i < |sorted| :: sorted[i].score == Rounded(Score(sorted[i].candidate, policy, bounds))
  {
    hide Score, Rounded;
    forall i | 0 <= i < |sorted| ensures sorted[i].score == Rounded(Score(sorted[i].candidate, policy, bounds)) {
      assert sorted[i] in scored;
    }
  }

  lemma RankedAreCandidates(ranked: seq<Ranked>, candidates: seq<Candidate>)
    requires multiset(Candidates(ranked)) == multiset(candidates)
    ensures forall i | 0 <= i < |ranked| :: ranked[i].candidate in candidates
    ensures forall c <- candidates :: exists i :: 0 <= i < |ranked| && ranked[i].candidate == c
  {
    forall i | 0 <= i < |ranked| ensures ranked[i].candidate in candidates {
      assert Candidates(ranked)[i] in multiset(candidates);
    }
    forall c <- candidates ensures exists i :: 0 <= i < |ranked| && ranked[i].candidate == c {
      assert c in multiset(Candidates(ranked));
      var i :| 0 <= i < |ranked| && Candidates(ranked)[i] == c;
      assert ranked[i].candidate == c;
    }
  }

  lemma FirstIsChoice(ranked: seq<Ranked>, k: nat, policy: Policy, bounds: Bounds, candidates: seq<Candidate>)
    requires k < |ranked| && ranked[k].candidate.fullyPriced && forall i | 0 <= i < k :: !ranked[i].candidate.fullyPriced
    requires IsOrdered(ranked)
    requires forall i | 0 <= i < |ranked| :: ranked[i].score == Rounded(Score(ranked[i].candidate, policy, bounds))
    requires forall i | 0 <= i < |ranked| :: ranked[i].candidate in candidates
    requires forall c <- candidates :: exists i :: 0 <= i < |ranked| && ranked[i].candidate == c
    ensures IsChoice(ranked[k].candidate, policy, bounds, candidates)
  {
    hide Score, Rounded;
    var chosen := ranked[k].candidate;
    forall c <- candidates | c.fullyPriced
      ensures || Rounded(Score(chosen, policy, bounds)) < Rounded(Score(c, policy, bounds))
              || (Rounded(Score(chosen, policy, bounds)) == Rounded(Score(c, policy, bounds)) && chosen.tie <= c.tie)
    {
      var i :| 0 <= i < |ranked| && ranked[i].candidate == c;
      if i > k {
        assert Before(ranked[k], ranked[i]);
      }
    }
  }

  const CHEAP := Candidate("cheap", Some((10000, 10000)), (900000, 900000), true, 1)
  const DEAR := Candidate("dear", Some((11000, 11000)), (900000, 900000), true, 0)
  const UNPRICED := Candidate("unpriced", None, (900000, 900000), false, 2)

  /** Such a choice: beside an unpriced offer, one cent and one and a tenth round alike, and the
      dearer of two offers that take equally long wins by its place in the other keys. */
  method UnpricedOfferHidesTheCheaper() returns (chosen: Option<Ranked>)
    ensures chosen.Some? && chosen.value.candidate == DEAR && Dominates(CHEAP, DEAR)
  {
    var candidates := [CHEAP, DEAR, UNPRICED];
    assert CHEAP in candidates && DEAR in candidates && UNPRICED in candidates by {
      assert candidates[0] == CHEAP && candidates[1] == DEAR && candidates[2] == UNPRICED;
    }
    ghost var b: Bounds;
    var ranked: seq<Ranked>;
    ranked, chosen, b := RankCandidates(candidates, Balanced);
    CentsRoundAlike(b, candidates);
  }

  lemma CentsRoundAlike(b: Bounds, candidates: seq<Candidate>)
    requires candidates == [CHEAP, DEAR, UNPRICED] && AreBounds(b, candidates)
    ensures Rounded(Score(CHEAP, Balanced, b)) == 0.0 == Rounded(Score(DEAR, Balanced, b))
  {
    var bounds := Bounds(0.01, 1000000.011, 900.0, 900.0, 1000000.011);
    assert CHEAP in candidates && DEAR in candidates && UNPRICED in candidates by {
      assert candidates[0] == CHEAP && candidates[1] == DEAR && candidates[2] == UNPRICED;
    }
    assert b.unknown == 1000000.011;
    assert b == bounds;
    assert Nearest(0.0) == 0 && Nearest(Score(DEAR, Balanced, b) * PLACES) == 0;
  }
}
