/** The decisions of the regional replication report (cloud_offload/regional_replication.py,
    `build_shadow_report`): reason codes for every candidate, then a second pass that admits
    recommendations under the monthly budget. */
module ShadowAdmission {
  import opened Prelude

  datatype Code =
    | ReplicationOff | RegionNotApproved | SourceMissing | NothingToCopy | DemandBelowMinimum | BenefitBelowMinimum
    | BudgetUnknown | BudgetExceeded | TargetMissing | TransferCostUnknown

  datatype Mode = Off | Shadow | Automatic

  datatype Policy = Policy(
    mode: Mode, approved: set<string>, minHits: nat, minSaved: real, budget: Option<real>, transferRate: Option<real>)

  /** What was measured for one profile, provider and region. */
  datatype Evidence = Evidence(
    provider: string, region: string, hasSource: bool, bytes: int, hits: nat, saved: real, target: Option<string>, newVolumeCost: real)

  datatype Status = Recommended | Observe | Covered

  datatype Candidate = Candidate(
    provider: string, region: string, target: Option<string>, incremental: real, status: Status,
    codes: seq<Code>, blockers: seq<Code>, eligible: bool)

  /******* The first pass *******/

  function StorageCost(e: Evidence): real {
    if e.target.Some? then 0.0 else e.newVolumeCost
  }

  /** When a code applies. */
  predicate Applies(code: Code, e: Evidence, p: Policy) {
    match code
    case ReplicationOff => p.mode == Off
    case RegionNotApproved => p.approved != {} && e.region !in p.approved
    case SourceMissing => !e.hasSource
    case NothingToCopy => e.bytes <= 0
    case DemandBelowMinimum => e.hits < p.minHits
    case BenefitBelowMinimum => e.saved < p.minSaved
    case BudgetUnknown => p.budget.None?
    case BudgetExceeded => p.budget.Some? && StorageCost(e) > p.budget.value
    case TargetMissing => e.target.None?
    case TransferCostUnknown => p.transferRate.None?
  }

  /** Codes that keep a candidate from being recommended; the others only keep it from being
      copied automatically. */
  predicate Disqualifies(code: Code) {
    code !in {BudgetUnknown, TargetMissing, TransferCostUnknown}
  }

  /** A candidate is recommended exactly when no disqualifying code applies, and may be copied
      automatically exactly in automatic mode when no code applies at all. */
  method Judge(e: Evidence, p: Policy) returns (c: Candidate)
    ensures c.provider == e.provider && c.region == e.region && c.target == e.target && c.incremental == StorageCost(e)
    ensures forall code :: code in c.codes <==> Applies(code, e, p)
    ensures c.blockers == c.codes
    ensures c.status == Recommended <==> forall code | Disqualifies(code) :: !Applies(code, e, p)
    ensures c.eligible <==> p.mode == Automatic && forall code :: !Applies(code, e, p)
    ensures c.eligible ==> c.status == Recommended
    ensures c.status == Recommended && p.budget.Some? ==> c.incremental <= p.budget.value
  {
    var codes := CodesOf(e, p);
    var fit := ReplicationOff !in codes && RegionNotApproved !in codes && SourceMissing !in codes && NothingToCopy !in codes
               && DemandBelowMinimum !in codes && BenefitBelowMinimum !in codes && BudgetExceeded !in codes;
    FitMeansNone(codes, e, p);
    c := Candidate(e.provider, e.region, e.target, StorageCost(e), if fit then Recommended else Observe,
                   codes, codes, p.mode == Automatic && codes == []);
  }

  /** The codes that apply, in the order of the report. */
  method CodesOf(e: Evidence, p: Policy) returns (codes: seq<Code>)
    ensures forall code :: code in codes <==> Applies(code, e, p)
  {
    var blocking := BlockingCodes(e, p);
    codes := AppendIf(blocking, BudgetUnknown, p.budget.None?);
    codes := AppendIf(codes, BudgetExceeded, p.budget.Some? && StorageCost(e) > p.budget.value);
    codes := AppendIf(codes, TargetMissing, e.target.None?);
    codes := AppendIf(codes, TransferCostUnknown, p.transferRate.None?);
  }

  method BlockingCodes(e: Evidence, p: Policy) returns (codes: seq<Code>)
    ensures forall code :: code in codes <==>
              Applies(code, e, p) && code !in {BudgetUnknown, BudgetExceeded, TargetMissing, TransferCostUnknown}
  {
    codes := AppendIf([], ReplicationOff, p.mode == Off);
    codes := AppendIf(codes, RegionNotApproved, p.approved != {} && e.region !in p.approved);
    codes := AppendIf(codes, SourceMissing, !e.hasSource);
    codes := AppendIf(codes, NothingToCopy, e.bytes <= 0);
    codes := AppendIf(codes, DemandBelowMinimum, e.hits < p.minHits);
    codes := AppendIf(codes, BenefitBelowMinimum, e.saved < p.minSaved);
  }

  method AppendIf(codes: seq<Code>, code: Code, applies: bool) returns (more: seq<Code>)
    ensures forall c :: c in more <==> c in codes || (applies && c == code)
  {
    more := codes;
    if applies {
      more := more + [code];
    }
  }

  lemma FitMeansNone(codes: seq<Code>, e: Evidence, p: Policy)
    requires forall code :: code in codes <==> Applies(code, e, p)
    ensures (forall code | Disqualifies(code) :: !Applies(code, e, p)) <==>
            && ReplicationOff !in codes && RegionNotApproved !in codes && SourceMissing !in codes && NothingToCopy !in codes
            && DemandBelowMinimum !in codes && BenefitBelowMinimum !in codes && BudgetExceeded !in codes
    ensures codes == [] <==> forall code :: !Applies(code, e, p)
  {
    if codes != [] {
      assert Applies(codes[0], e, p);
    }
    if forall code | Disqualifies(code) :: !Applies(code, e, p) {
      assert Disqualifies(ReplicationOff) && Disqualifies(RegionNotApproved) && Disqualifies(SourceMissing)
          && Disqualifies(NothingToCopy) && Disqualifies(DemandBelowMinimum) && Disqualifies(BenefitBelowMinimum)
          && Disqualifies(BudgetExceeded);
    }
  }

  /******* The second pass *******/

  type Place = (string, string)

  function PlaceOf(c: Candidate): Place {
    (c.provider, c.region)
  }

  predicate NeedsVolume(c: Candidate) {
    c.status == Recommended && c.target.None?
  }

  function With(codes: seq<Code>, code: Code): seq<Code> {
    if code in codes then codes else codes + [code]
  }

  /** A new volume is paid for once per place. */
  function Charged(c: Candidate, planned: set<Place>): Candidate {
    if c.status == Recommended && c.target.None? && PlaceOf(c) in planned then c.(incremental := 0.0) else c
  }

  function Demoted(c: Candidate): Candidate {
    c.(status := Observe, codes := With(c.codes, BudgetExceeded), blockers := With(c.blockers, BudgetExceeded), eligible := false)
  }

  predicate OverBudget(projected: real, c: Candidate, budget: Option<real>) {
    budget.Some? && projected + c.incremental > budget.value
  }

  datatype Tally = Tally(items: seq<Candidate>, projected: real, planned: set<Place>)

  /** What the second pass leaves of the candidates, and what it has added up. */
  function Admit(candidates: seq<Candidate>, budget: Option<real>): (t: Tally)
    ensures |t.items| == |candidates|
  {
    if candidates == [] then Tally([], 0.0, {})
    else
      AdmitNext(Admit(candidates[..|candidates| - 1], budget), candidates[|candidates| - 1], budget)
  }

  function AdmitNext(t: Tally, candidate: Candidate, budget: Option<real>): (next: Tally)
    ensures |next.items| == |t.items| + 1 && t.items <= next.items
  {
    var c := Charged(candidate, t.planned);
    if c.status != Recommended then t.(items := t.items + [c])
    else if OverBudget(t.projected, c, budget) then t.(items := t.items + [Demoted(c)])
    else Tally(t.items + [c], t.projected + c.incremental, if c.target.None? then t.planned + {PlaceOf(c)} else t.planned)
  }

  method AdmitRecommendations(candidates: array<Candidate>, budget: Option<real>) returns (projected: real)
    modifies candidates
    ensures candidates[..] == Admit(old(candidates[..]), budget).items && projected == Admit(old(candidates[..]), budget).projected
  {
    hide AdmitNext;
    projected := 0.0;
    var planned: set<Place> := {};
    for i := 0 to candidates.Length
      invariant Tally(candidates[..i], projected, planned) == Admit(old(candidates[..i]), budget)
      invariant candidates[i..] == old(candidates[i..])
    {
      ghost var t := Admit(old(candidates[..i]), budget);
      assert old(candidates[..i + 1])[..i] == old(candidates[..i]);
      assert candidates[i] == candidates[i..][0] == old(candidates[i..])[0];
      projected, planned := AdmitOne(candidates, i, budget, projected, planned);
    }
    assert candidates[..] == candidates[..candidates.Length];
    assert old(candidates[..]) == old(candidates[..candidates.Length]);
  }

  method AdmitOne(candidates: array<Candidate>, i: nat, budget: Option<real>, cost: real, places: set<Place>)
    returns (projected: real, planned: set<Place>)
    requires i < candidates.Length
    modifies candidates
    ensures Tally(candidates[..i + 1], projected, planned) ==
            AdmitNext(Tally(old(candidates[..i]), cost, places), old(candidates[i]), budget)
    ensures candidates[i + 1..] == old(candidates[i + 1..])
  {
    projected, planned := cost, places;
    var c := candidates[i];
    if c.status == Recommended {
      if c.target.None? && PlaceOf(c) in planned {
        c := c.(incremental := 0.0);
      }
      if budget.Some? && projected + c.incremental > budget.value {
        c := Demoted(c);
      } else {
        projected := projected + c.incremental;
        if c.target.None? {
          planned := planned + {PlaceOf(c)};
        }
      }
      candidates[i] := c;
    }
    assert candidates[..i + 1] == old(candidates[..i]) + [c];
  }

  /** The cost of the recommended candidates. */
  function Cost(items: seq<Candidate>): real {
    if items == [] then 0.0
    else
      var c := items[|items| - 1];
      Cost(items[..|items| - 1]) + if c.status == Recommended then c.incremental else 0.0
  }

  /** The projected cost is exactly what the recommended candidates cost, and stays within any
      budget that is not negative. */
  lemma {:induction false} BudgetIsConserved(candidates: seq<Candidate>, budget: Option<real>)
    ensures var t := Admit(candidates, budget);
            && t.projected == Cost(t.items)
            && (budget.Some? && budget.value >= 0.0 ==> t.projected <= budget.value)
  {
    if candidates != [] {
      var front, t := candidates[..|candidates| - 1], Admit(candidates, budget);
      BudgetIsConserved(front, budget);
      assert t.items[..|front|] == Admit(front, budget).items;
    }
  }

  /** In each place without a volume at most one recommended candidate is charged. */
  lemma {:induction false} OneChargePerPlace(candidates: seq<Candidate>, budget: Option<real>, i: nat, j: nat)
    requires i < j < |candidates|
    requires var items := Admit(candidates, budget).items;
             NeedsVolume(items[i]) && NeedsVolume(items[j]) && PlaceOf(items[i]) == PlaceOf(items[j])
    ensures Admit(candidates, budget).items[j].incremental == 0.0
  {
    var front := candidates[..|candidates| - 1];
    if j == |front| {
      PlannedPlaces(front, budget, i);
    } else {
      OneChargePerPlace(front, budget, i, j);
    }
  }

  lemma {:induction false} PlannedPlaces(candidates: seq<Candidate>, budget: Option<real>, i: nat)
    requires i < |candidates| && NeedsVolume(Admit(candidates, budget).items[i])
    ensures PlaceOf(Admit(candidates, budget).items[i]) in Admit(candidates, budget).planned
  {
    if i < |candidates| - 1 {
      PlannedPlaces(candidates[..|candidates| - 1], budget, i);
    }
  }

  /** What the second pass does to one candidate: whatever it was, it is recommended afterwards
      exactly if it was before and fits the budget after those admitted earlier; and one that
      may be copied automatically is still recommended. */
  lemma {:induction false} AdmissionIsGreedy(candidates: seq<Candidate>, budget: Option<real>, i: nat)
    requires i < |candidates|
    ensures var before, after := candidates[i], Admit(candidates, budget).items[i];
            var t := Admit(candidates[..i], budget);
            var c := Charged(before, t.planned);
            && (after.status == Recommended <==> before.status == Recommended && !OverBudget(t.projected, c, budget))
            && (before.status == Recommended && after.status != Recommended ==>
                  BudgetExceeded in after.codes && BudgetExceeded in after.blockers && !after.eligible)
            && ((before.eligible ==> before.status == Recommended) ==> (after.eligible ==> after.status == Recommended))
            && (before.status != Recommended ==> after == before)
  {
    var front := candidates[..|candidates| - 1];
    if i < |front| {
      AdmissionIsGreedy(front, budget, i);
      assert front[..i] == candidates[..i];
    }
  }

  /** The places whose new volume is planned are those of the recommended candidates without one. */
  lemma {:induction false} PlannedExactly(candidates: seq<Candidate>, budget: Option<real>, place: Place)
    ensures var t := Admit(candidates, budget);
            place in t.planned <==>
              exists k :: 0 <= k < |t.items| && t.items[k].status == Recommended && t.items[k].target.None?
                          && (t.items[k].provider, t.items[k].region) == place
  {
    var t := Admit(candidates, budget);
    if candidates != [] {
      var front := Admit(candidates[..|candidates| - 1], budget);
      PlannedExactly(candidates[..|candidates| - 1], budget, place);
      assert t.items[..|front.items|] == front.items;
      assert forall k | 0 <= k < |front.items| :: t.items[k] == front.items[k];
      if place in t.planned && place !in front.planned {
        assert t.items[|front.items|].status == Recommended;
      }
    }
  }

  lemma {:induction false} EarlierItems(candidates: seq<Candidate>, budget: Option<real>, i: nat)
    requires i <= |candidates|
    ensures Admit(candidates, budget).items[..i] == Admit(candidates[..i], budget).items
  {
    if i < |candidates| {
      var front := candidates[..|candidates| - 1];
      EarlierItems(front, budget, i);
      assert front[..i] == candidates[..i];
      assert Admit(candidates, budget).items[..|front|] == Admit(front, budget).items;
      assert Admit(candidates, budget).items[..i] == Admit(candidates, budget).items[..|front|][..i];
    } else {
      assert candidates[..i] == candidates;
    }
  }

  /** Someone before place `i` is recommended for the candidate's place without a volume, too. */
  predicate IsPaidBefore(items: seq<Candidate>, i: nat, c: Candidate)
    requires i <= |items|
  {
    && c.target.None?
    && exists k :: 0 <= k < i && items[k].status == Recommended && items[k].target.None?
                   && items[k].provider == c.provider && items[k].region == c.region
  }

  /** A recommended candidate at a price that fits, or does not. */
  function Priced(c: Candidate, price: real, fits: bool): Candidate {
    if fits then c.(incremental := price)
    else c.(
      incremental := price, status := Observe, eligible := false,
      codes := c.codes + (if BudgetExceeded in c.codes then [] else [BudgetExceeded]),
      blockers := c.blockers + (if BudgetExceeded in c.blockers then [] else [BudgetExceeded]))
  }

  lemma AdmitsNextExactly(t: Tally, c: Candidate, budget: Option<real>)
    ensures var price := if c.target.None? && PlaceOf(c) in t.planned then 0.0 else c.incremental;
            AdmitNext(t, c, budget).items[|t.items|] ==
            if c.status == Recommended then Priced(c, price, budget.None? || t.projected + price <= budget.value) else c
  {
    assert c.codes + [] == c.codes && c.blockers + [] == c.blockers;
  }

  /** Everything the second pass does to a candidate, in terms of those before it: without a
      volume it keeps its charge unless one of them is recommended for the same place without a
      volume, too, and it stays recommended exactly if it then fits the budget with them. */
  lemma AdmittedExactly(candidates: seq<Candidate>, budget: Option<real>, i: nat)
    requires i < |candidates|
    ensures var items := Admit(candidates, budget).items;
            var price := if IsPaidBefore(items, i, candidates[i]) then 0.0 else candidates[i].incremental;
            var fits := budget.None? || Cost(items[..i]) + price <= budget.value;
            items[i] == if candidates[i].status == Recommended then Priced(candidates[i], price, fits) else candidates[i]
  {
    hide Priced, AdmitNext, Cost, IsPaidBefore;
    var items := Admit(candidates, budget).items;
    var t := Admit(candidates[..i], budget);
    EarlierItems(candidates, budget, i);
    EarlierItems(candidates, budget, i + 1);
    assert candidates[..i + 1][..i] == candidates[..i];
    assert items[i] == items[..i + 1][i];
    BudgetIsConserved(candidates[..i], budget);
    PaidExactly(candidates, budget, i);
    AdmitsNextExactly(t, candidates[i], budget);
  }

  lemma PaidExactly(candidates: seq<Candidate>, budget: Option<real>, i: nat)
    requires i < |candidates|
    ensures IsPaidBefore(Admit(candidates, budget).items, i, candidates[i]) <==>
              candidates[i].target.None? && PlaceOf(candidates[i]) in Admit(candidates[..i], budget).planned
  {
    var items := Admit(candidates, budget).items;
    EarlierItems(candidates, budget, i);
    PlannedExactly(candidates[..i], budget, PlaceOf(candidates[i]));
    hide Admit;
    assert forall k | 0 <= k < i :: items[k] == items[..i][k];
  }
}
