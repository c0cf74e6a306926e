/** Reservations for regional replicas (cloud_offload/cache_registry.py, the replica actions):
    single flight, a limit on copies in flight, and a monthly budget, kept while copies are
    claimed, completed, failed, recovered, expired and lost, and while time passes. */
module ReplicaLedger {
  import opened Prelude

  type ActionId = nat
  datatype State = Copying | Completed | Failed | Expired | Lost

  datatype Action = Action(recommendation: string, target: string, state: State, cost: real, expires: int, created: int)

  /** What a caller asks to reserve; a copy cost may be unknown. */
  datatype Request = Request(
    recommendation: string, source: string, target: string, manifest: string,
    expires: Option<int>, cost: real, copyCost: Option<real>)

  datatype Refusal = Invalid | Busy | OverBudget | Unknown

  datatype Claim = Claim(action: ActionId, duplicate: bool)

  predicate IsActive(a: Action) {
    a.state in {Copying, Completed}
  }

  /** The action's cost counts against the budget at this time. */
  predicate IsReserved(a: Action, now: int) {
    IsActive(a) && a.expires > now
  }

  ghost function Reserved(actions: map<ActionId, Action>, now: int): real {
    if actions == map[] then 0.0
    else
      var id :| id in actions;
      (if IsReserved(actions[id], now) then actions[id].cost else 0.0) + Reserved(actions - {id}, now)
  }

  function CopyingIn(actions: map<ActionId, Action>): set<ActionId> {
    set id | id in actions && actions[id].state == Copying
  }

  function Most(maxInflight: int): int {
    if maxInflight > 1 then maxInflight else 1
  }

  ghost predicate SingleFlight(actions: map<ActionId, Action>) {
    forall i, j | i in actions && j in actions && IsActive(actions[i]) && IsActive(actions[j])
                  && actions[i].recommendation == actions[j].recommendation :: i == j
  }

  ghost predicate CostsAreNat(actions: map<ActionId, Action>) {
    forall id <- actions :: actions[id].cost >= 0.0
  }

  ghost predicate WithinLimits(actions: map<ActionId, Action>, now: int, budget: real, maxInflight: int) {
    && SingleFlight(actions) && CostsAreNat(actions)
    && |CopyingIn(actions)| <= Most(maxInflight)
    && Reserved(actions, now) <= budget
  }

  lemma {:induction false} ReservedWithout(actions: map<ActionId, Action>, now: int, id: ActionId)
    requires id in actions
    ensures Reserved(actions, now) ==
            (if IsReserved(actions[id], now) then actions[id].cost else 0.0) + Reserved(actions - {id}, now)
    decreases actions.Keys
  {
    var k :| k in actions && Reserved(actions, now) ==
                             (if IsReserved(actions[k], now) then actions[k].cost else 0.0) + Reserved(actions - {k}, now);
    if k != id {
      ReservedWithout(actions - {k}, now, id);
      assert actions - {k} - {id} == actions - {id} - {k};
      ReservedWithout(actions - {id}, now, k);
    }
  }

  /** Fewer reserved actions at the same cost, or a later time, reserve no more. */
  lemma {:induction false} ReservesNoMore(actions: map<ActionId, Action>, now: int, actions': map<ActionId, Action>,
                        later: int)
    requires CostsAreNat(actions) && actions'.Keys == actions.Keys
    requires forall id <- actions ::
               actions'[id].cost == actions[id].cost && (IsReserved(actions'[id], later) ==> IsReserved(actions[id], now))
    ensures Reserved(actions', later) <= Reserved(actions, now)
    decreases actions.Keys
  {
    if id :| id in actions {
      ReservedWithout(actions, now, id);
      ReservedWithout(actions', later, id);
      assert (actions' - {id}).Keys == (actions - {id}).Keys;
      ReservesNoMore(actions - {id}, now, actions' - {id}, later);
    } else {
      assert actions == map[] && actions' == map[];
    }
  }

  /** The action was only ended, or completed. */
  predicate Winds(a: Action, a': Action) {
    || a' == a
    || (IsActive(a) && a' == a.(state := a'.state) && !IsActive(a'))
    || (a.state == Copying && a' == a.(state := Completed))
  }

  /** Completing, failing, expiring, recovering or losing actions, and the passing of time,
      keep every limit. */
  lemma {:induction false} WindingKeepsLimits(actions: map<ActionId, Action>, now: int, actions': map<ActionId, Action>,
                        later: int,
                                             budget: real, maxInflight: int)
    requires WithinLimits(actions, now, budget, maxInflight) && now <= later && actions'.Keys == actions.Keys
    requires forall id <- actions :: Winds(actions[id], actions'[id])
    ensures WithinLimits(actions', later, budget, maxInflight)
  {
    ReservesNoMore(actions, now, actions', later);
    assert CopyingIn(actions') <= CopyingIn(actions);
    Smaller(CopyingIn(actions'), CopyingIn(actions));
  }

  lemma Smaller(a: set<ActionId>, b: set<ActionId>)
    requires a <= b
    ensures |a| <= |b|
  {
    assert b == a + (b - a);
  }

  /** A claim that passed the three checks keeps every limit. */
  lemma {:induction false} ClaimKeepsLimits(actions: map<ActionId, Action>, now: int, budget: real, maxInflight: int,
                        id: ActionId, a: Action)
    requires WithinLimits(actions, now, budget, maxInflight) && id !in actions
    requires a.state == Copying && a.cost >= 0.0 && a.expires > now
    requires forall k <- actions :: !(IsActive(actions[k]) && actions[k].recommendation == a.recommendation)
    requires |CopyingIn(actions)| < Most(maxInflight) && Reserved(actions, now) + a.cost <= budget
    ensures WithinLimits(actions[id := a], now, budget, maxInflight)
  {
    hide SingleFlight, Reserved, CopyingIn;
    ReservedWithout(actions[id := a], now, id);
    assert actions[id := a] - {id} == actions;
    OneMoreCopying(actions, id, a);
    OneMoreFlight(actions, id, a);
  }

  lemma OneMoreCopying(actions: map<ActionId, Action>, id: ActionId, a: Action)
    requires id !in actions && a.state == Copying
    ensures |CopyingIn(actions[id := a])| == |CopyingIn(actions)| + 1
  {
    assert CopyingIn(actions[id := a]) == CopyingIn(actions) + {id};
  }

  lemma OneMoreFlight(actions: map<ActionId, Action>, id: ActionId, a: Action)
    requires SingleFlight(actions) && id !in actions
    requires forall k <- actions :: !(IsActive(actions[k]) && actions[k].recommendation == a.recommendation)
    ensures SingleFlight(actions[id := a])
  {
  }

  /******* What a claim holds, and what releases it *******/

  /** A completed copy goes on holding its claim and its share of the budget. */
  lemma CompletingKeepsClaim(actions: map<ActionId, Action>, id: ActionId, now: int)
    requires id in actions && actions[id].state == Copying
    ensures var after := actions[id := actions[id].(state := Completed)];
            && Reserved(after, now) == Reserved(actions, now) && CopyingIn(after) == CopyingIn(actions) - {id}
            && forall r :: IsClaimed(after, r) <==> IsClaimed(actions, r)
  {
    var after := actions[id := actions[id].(state := Completed)];
    ReservedWithout(actions, now, id);
    ReservedWithout(after, now, id);
    assert after - {id} == actions - {id};
    hide Reserved;
    forall r | IsClaimed(actions, r) ensures IsClaimed(after, r) {
      var k :| k in actions && IsActive(actions[k]) && actions[k].recommendation == r;
      assert k in after && IsActive(after[k]);
    }
    forall r | IsClaimed(after, r) ensures IsClaimed(actions, r) {
      var k :| k in after && IsActive(after[k]) && after[k].recommendation == r;
      assert k in actions && IsActive(actions[k]);
    }
  }

  /** An action that was ended, along with any others, no longer holds its claim. */
  lemma EndingReleasesClaim(actions: map<ActionId, Action>, after: map<ActionId, Action>, id: ActionId)
    requires SingleFlight(actions) && after.Keys == actions.Keys && forall k <- actions :: Winds(actions[k], after[k])
    requires id in actions && actions[id].state in {Copying, Completed} && after[id].state in {Failed, Expired, Lost}
    ensures !IsClaimed(after, actions[id].recommendation)
  {
    forall k <- after | IsActive(after[k]) ensures after[k].recommendation != actions[id].recommendation {
      assert Winds(actions[k], after[k]);
    }
  }

  /** Nor does it count against the budget. */
  lemma EndingReleasesCost(actions: map<ActionId, Action>, id: ActionId, end: State, now: int)
    requires id in actions && actions[id].state in {Copying, Completed} && end in {Failed, Expired, Lost}
    ensures Reserved(actions[id := actions[id].(state := end)], now) ==
            Reserved(actions, now) - if actions[id].expires > now then actions[id].cost else 0.0
  {
    var after := actions[id := actions[id].(state := end)];
    ReservedWithout(actions, now, id);
    ReservedWithout(after, now, id);
    assert after - {id} == actions - {id};
  }

  /******* Runs *******/

  /** Why a request is refused before the table is read. */
  predicate IsMalformed(q: Request, now: int) {
    || q.recommendation == "" || q.source == "" || q.target == "" || q.manifest == "" || q.expires.None?
    || q.copyCost.None? || q.cost < 0.0 || q.copyCost.value < 0.0 || q.expires.value <= now
  }

  predicate IsClaimed(actions: map<ActionId, Action>, recommendation: string) {
    exists k <- actions :: IsActive(actions[k]) && actions[k].recommendation == recommendation
  }

  ghost predicate IsAccepted(actions: map<ActionId, Action>, q: Request, now: int, budget: real, maxInflight: int) {
    && !IsMalformed(q, now) && !IsClaimed(actions, q.recommendation)
    && |CopyingIn(actions)| < Most(maxInflight) && Reserved(actions, now) + q.cost <= budget
  }

  datatype Op =
    | Claiming(request: Request, id: ActionId)
    | Completing(id: ActionId)
    | Failing(id: ActionId)
    | Expiring(id: ActionId)
    | Recovering(staleBefore: int)
    | Losing(volume: string)

  function Changed(actions: map<ActionId, Action>, id: ActionId, from: State, to: State): map<ActionId, Action> {
    if id in actions && actions[id].state == from then actions[id := actions[id].(state := to)] else actions
  }

  /** What an operation makes of the table at a time. */
  ghost function Do(actions: map<ActionId, Action>, op: Op, now: int, budget: real, maxInflight: int): map<ActionId,
                    Action> {
    match op
    case Claiming(q, id) =>
      if id !in actions && IsAccepted(actions, q, now, budget, maxInflight) then
        actions[id := Action(q.recommendation, q.target, Copying, q.cost, q.expires.value, now)]
      else actions
    case Completing(id) => Changed(actions, id, Copying, Completed)
    case Failing(id) => Changed(actions, id, Copying, Failed)
    case Expiring(id) => Changed(actions, id, Completed, Expired)
    case Recovering(staleBefore) =>
      map id | id in actions ::
        if actions[id].state == Copying && actions[id].created <= staleBefore then actions[id].(state := Failed) else actions[id]
    case Losing(volume) =>
      map id | id in actions ::
        if actions[id].target == volume && IsActive(actions[id]) then actions[id].(state := Lost) else actions[id]
  }

  /** Every operation, at the same time or a later one, keeps every limit. */
  lemma {:induction false} OpKeepsLimits(actions: map<ActionId, Action>, op: Op, now: int, later: int, budget: real,
                        maxInflight: int)
    requires WithinLimits(actions, now, budget, maxInflight) && now <= later
    ensures WithinLimits(Do(actions, op, later, budget, maxInflight), later, budget, maxInflight)
  {
    hide WithinLimits, Reserved, CopyingIn;
    if op.Claiming? {
      WindingKeepsLimits(actions, now, actions, later, budget, maxInflight);
      if op.id !in actions && IsAccepted(actions, op.request, later, budget, maxInflight) {
        var q := op.request;
        ClaimKeepsLimits(actions, later, budget, maxInflight, op.id,
                         Action(q.recommendation, q.target, Copying, q.cost, q.expires.value, later));
      }
    } else {
      WindingKeepsLimits(actions, now, Do(actions, op, later, budget, maxInflight), later, budget, maxInflight);
    }
  }

  /** The operations of a run with the times at which they happen. */
  ghost function Run(ops: seq<(Op, int)>, budget: real, maxInflight: int): map<ActionId, Action> {
    if ops == [] then map[]
    else
      var last := ops[|ops| - 1];
      Do(Run(ops[..|ops| - 1], budget, maxInflight), last.0, last.1, budget, maxInflight)
  }

  predicate TimePasses(ops: seq<(Op, int)>, start: int, end: int) {
    && (forall i, j | 0 <= i < j < |ops| :: ops[i].1 <= ops[j].1)
    && (forall i | 0 <= i < |ops| :: start <= ops[i].1 <= end)
  }

  /** The operation ends an action that holds this claim. */
  ghost predicate Releases(actions: map<ActionId, Action>, op: Op, recommendation: string) {
    exists id <- actions ::
      && actions[id].recommendation == recommendation
      && match op
         case Failing(k) => k == id && actions[id].state == Copying
         case Expiring(k) => k == id && actions[id].state == Completed
         case Recovering(staleBefore) => actions[id].state == Copying && actions[id].created <= staleBefore
         case Losing(volume) => actions[id].state in {Copying, Completed} && actions[id].target == volume
         case _ => false
  }

  /** A claim stands until such an operation; completing, and other claims, do not end it. */
  lemma OnlyEndingReleases(actions: map<ActionId, Action>, op: Op, now: int, budget: real, maxInflight: int,
                           recommendation: string)
    requires IsClaimed(actions, recommendation)
    requires !IsClaimed(Do(actions, op, now, budget, maxInflight), recommendation)
    ensures Releases(actions, op, recommendation)
  {
    hide IsAccepted;
    var id :| id in actions && IsActive(actions[id]) && actions[id].recommendation == recommendation;
    var after := Do(actions, op, now, budget, maxInflight);
    assert id in after && !IsActive(after[id]);
  }

  lemma {:induction false} ClaimStandsOverRuns(ops: seq<(Op, int)>, n: nat, budget: real, maxInflight: int,
                                               recommendation: string)
    requires n <= |ops| && IsClaimed(Run(ops[..n], budget, maxInflight), recommendation)
    requires !IsClaimed(Run(ops, budget, maxInflight), recommendation)
    ensures exists k :: n <= k < |ops| && Releases(Run(ops[..k], budget, maxInflight), ops[k].0, recommendation)
    decreases |ops|
  {
    hide Do, IsClaimed, Releases;
    assert ops[..|ops|] == ops;
    var front, last := ops[..|ops| - 1], ops[|ops| - 1];
    if IsClaimed(Run(front, budget, maxInflight), recommendation) {
      OnlyEndingReleases(Run(front, budget, maxInflight), last.0, last.1, budget, maxInflight, recommendation);
      assert Releases(Run(ops[..|front|], budget, maxInflight), ops[|front|].0, recommendation);
    } else {
      assert front[..n] == ops[..n];
      ClaimStandsOverRuns(front, n, budget, maxInflight, recommendation);
      var k :| n <= k < |front| && Releases(Run(front[..k], budget, maxInflight), front[k].0, recommendation);
      assert front[..k] == ops[..k];
      assert Releases(Run(ops[..k], budget, maxInflight), ops[k].0, recommendation);
    }
  }

  /** Over every run with fixed limits and a clock that does not run back, no recommendation has
      two active actions, no more copies are in flight than allowed, and the unexpired
      reservations stay within the budget at every later time. */
  lemma {:induction false} LimitsOverRuns(ops: seq<(Op, int)>, start: int, end: int, budget: real, maxInflight: int)
    requires TimePasses(ops, start, end) && start <= end && budget >= 0.0
    ensures WithinLimits(Run(ops, budget, maxInflight), end, budget, maxInflight)
    decreases |ops|
  {
    if ops == [] {
      assert CopyingIn(map[]) == {};
    } else {
      var front, last := ops[..|ops| - 1], ops[|ops| - 1];
      LimitsOverRuns(front, start, last.1, budget, maxInflight);
      hide WithinLimits, Do;
      var before := Run(front, budget, maxInflight);
      OpKeepsLimits(before, last.0, last.1, last.1, budget, maxInflight);
      var after := Do(before, last.0, last.1, budget, maxInflight);
      WindingKeepsLimits(after, last.1, after, end, budget, maxInflight);
    }
  }

  class ReplicaActions {
    var actions: map<ActionId, Action>
    /** The limits, and the latest time that was read. */
    const budget: real
    const maxInflight: int
    ghost var clock: int

    ghost predicate Valid()
      reads this
    {
      WithinLimits(actions, clock, budget, maxInflight)
    }

    constructor (budget: real, maxInflight: int)
      requires budget >= 0.0
      ensures Valid() && actions == map[] && this.budget == budget && this.maxInflight == maxInflight
    {
      this.budget, this.maxInflight := budget, maxInflight;
      actions, clock := map[], 0;
      new;
      assert CopyingIn(actions) == {};
    }

    method ClaimReplicaAction(q: Request, id: ActionId, now: int) returns (r: Result<Claim, Refusal>)
      requires Valid() && clock <= now && id !in actions && budget >= 0.0
      modifies this
      ensures Valid() && clock == now
      ensures actions == Do(old(actions), Claiming(q, id), now, budget, maxInflight)
      ensures r.Ok? && !r.value.duplicate <==> IsAccepted(old(actions), q, now, budget, maxInflight)
      ensures actions == if r.Ok? && !r.value.duplicate
                         then old(actions)[id := Action(q.recommendation, q.target, Copying, q.cost, q.expires.value, now)]
                         else old(actions)
      ensures r == Err(Invalid) <==>
                || "" in {q.recommendation, q.source, q.target, q.manifest} || q.expires.None? || q.copyCost.None?
                || q.cost < 0.0 || q.copyCost.value < 0.0 || q.expires.value <= now
      ensures r.Ok? && r.value.duplicate <==>
                && !IsMalformed(q, now)
                && exists k <- old(actions) :: old(actions)[k].state in {Copying, Completed}
                                               && old(actions)[k].recommendation == q.recommendation
      ensures r.Ok? && r.value.duplicate ==>
                && r.value.action in actions && actions[r.value.action].state in {Copying, Completed}
                && actions[r.value.action].recommendation == q.recommendation
      ensures r.Ok? && !r.value.duplicate ==> r.value.action == id
      ensures r == Err(Busy) <==>
                && !IsMalformed(q, now) && !IsClaimed(old(actions), q.recommendation)
                && |CopyingIn(old(actions))| == Most(maxInflight)
      ensures r == Err(OverBudget) <==>
                && !IsMalformed(q, now) && !IsClaimed(old(actions), q.recommendation)
                && |CopyingIn(old(actions))| < Most(maxInflight) && Reserved(old(actions), now) + q.cost > budget
    {
      clock := now;
      WindingKeepsLimits(actions, old(clock), actions, now, budget, maxInflight);
      if IsMalformed(q, now) {
        return Err(Invalid);
      }
      if k :| k in actions && IsActive(actions[k]) && actions[k].recommendation == q.recommendation {
        return Ok(Claim(k, true));
      }
      var inflight := |CopyingIn(actions)|;
      if inflight >= Most(maxInflight) {
        return Err(Busy);
      }
      var reserved := SumReserved(now);
      if reserved + q.cost > budget {
        return Err(OverBudget);
      }
      var a := Action(q.recommendation, q.target, Copying, q.cost, q.expires.value, now);
      ClaimKeepsLimits(actions, now, budget, maxInflight, id, a);
      actions := actions[id := a];
      r := Ok(Claim(id, false));
    }

    /** The sum over the reserved rows. */
    method SumReserved(now: int) returns (sum: real)
      ensures sum == Reserved(actions, now)
    {
      sum := 0.0;
      var todo := actions;
      while todo != map[]
        invariant sum + Reserved(todo, now) == Reserved(actions, now)
        decreases todo.Keys
      {
        var id :| id in todo;
        ReservedWithout(todo, now, id);
        if IsReserved(todo[id], now) {
          sum := sum + todo[id].cost;
        }
        todo := todo - {id};
      }
    }

    method CompleteReplicaAction(id: ActionId) returns (r: Result<(), Refusal>)
      requires Valid()
      modifies this`actions
      ensures Valid()
      ensures r.Ok? <==> id in old(actions) && old(actions)[id].state == Copying
      ensures actions == Do(old(actions), Completing(id), clock, budget, maxInflight)
      ensures r.Ok? ==> actions == old(actions)[id := old(actions)[id].(state := Completed)]
      ensures r.Err? ==> r.error == Unknown && actions == old(actions)
    {
      if id !in actions || actions[id].state != Copying {
        return Err(Unknown);
      }
      actions := actions[id := actions[id].(state := Completed)];
      WindingKeepsLimits(old(actions), clock, actions, clock, budget, maxInflight);
      r := Ok(());
    }

    method FailReplicaAction(id: ActionId) returns (r: Result<(), Refusal>)
      requires Valid()
      modifies this`actions
      ensures Valid()
      ensures r.Ok? <==> id in old(actions) && old(actions)[id].state == Copying
      ensures actions == Do(old(actions), Failing(id), clock, budget, maxInflight)
      ensures r.Ok? ==> actions == old(actions)[id := old(actions)[id].(state := Failed)]
      ensures r.Err? ==> r.error == Unknown && actions == old(actions)
    {
      if id !in actions || actions[id].state != Copying {
        return Err(Unknown);
      }
      actions := actions[id := actions[id].(state := Failed)];
      WindingKeepsLimits(old(actions), clock, actions, clock, budget, maxInflight);
      r := Ok(());
    }

    method ExpireReplicaAction(id: ActionId) returns (r: Result<(), Refusal>)
      requires Valid()
      modifies this`actions
      ensures Valid()
      ensures r.Ok? <==> id in old(actions) && old(actions)[id].state == Completed
      ensures actions == Do(old(actions), Expiring(id), clock, budget, maxInflight)
      ensures r.Ok? ==> actions == old(actions)[id := old(actions)[id].(state := Expired)]
      ensures r.Err? ==> r.error == Unknown && actions == old(actions)
    {
      if id !in actions || actions[id].state != Completed {
        return Err(Unknown);
      }
      actions := actions[id := actions[id].(state := Expired)];
      WindingKeepsLimits(old(actions), clock, actions, clock, budget, maxInflight);
      r := Ok(());
    }

    method RecoverStaleReplicaActions(staleBefore: int) returns (count: nat)
      requires Valid()
      modifies this`actions
      ensures Valid() && actions == Do(old(actions), Recovering(staleBefore), clock, budget, maxInflight)
      ensures actions.Keys == old(actions).Keys
      ensures forall k <- actions :: actions[k] ==
                if old(actions)[k].state == Copying && old(actions)[k].created <= staleBefore
                then old(actions)[k].(state := Failed) else old(actions)[k]
      ensures count == |set k | k in old(actions) && old(actions)[k].state == Copying && old(actions)[k].created <= staleBefore|
    {
      OpKeepsLimits(actions, Recovering(staleBefore), clock, clock, budget, maxInflight);
      hide WithinLimits;
      var stale := set k | k in actions && actions[k].state == Copying && actions[k].created <= staleBefore;
      actions := map id | id in actions ::
        if actions[id].state == Copying && actions[id].created <= staleBefore then actions[id].(state := Failed) else actions[id];
      count := |stale|;
    }

    method LoseReplicaActionsForTarget(volume: string) returns (count: nat)
      requires Valid()
      modifies this`actions
      ensures Valid() && actions == Do(old(actions), Losing(volume), clock, budget, maxInflight)
      ensures actions.Keys == old(actions).Keys
      ensures forall k <- actions :: actions[k] ==
                if old(actions)[k].target == volume && old(actions)[k].state in {Copying, Completed}
                then old(actions)[k].(state := Lost) else old(actions)[k]
      ensures count == |set k | k in old(actions) && old(actions)[k].target == volume && old(actions)[k].state in {Copying, Completed}|
    {
      OpKeepsLimits(actions, Losing(volume), clock, clock, budget, maxInflight);
      hide WithinLimits;
      var held := set k | k in actions && actions[k].target == volume && actions[k].state in {Copying, Completed};
      actions := map id | id in actions ::
        if actions[id].target == volume && IsActive(actions[id]) then actions[id].(state := Lost) else actions[id];
      count := |held|;
    }

    /** Time passes. */
    ghost method Wait(now: int)
      requires Valid() && clock <= now
      modifies this`clock
      ensures Valid() && clock == now
    {
      WindingKeepsLimits(actions, clock, actions, now, budget, maxInflight);
      clock := now;
    }
  }
}
