/** What the connectors make of a provider that tells the truth or fails to reply
    (cloud_offload/providers): the bundled ones, and exactly which can be relied on. */
module Connectors {
  import opened LeaseProtocol

  /** `getDegrades` when a failed inspection is returned as the absence of the machine,
      `listDegrades` when a failed listing is returned as an empty one; `named` when listed
      machines carry the names they were launched under; `listed` are the states that a listing
      shows; `late` when a launch may take effect after its call has returned or raised. */
  datatype Connector =
    Connector(getDegrades: bool, listDegrades: bool, named: bool, listed: set<PodStatus>, late: bool)

  /** `RunPodConnector` */
  function RunPod(late: bool): Connector {
    Connector(false, false, true, {Pending, Running}, late)
  }

  /** `specs/vast.json` */
  function Vast(late: bool): Connector {
    Connector(true, true, false, {Pending, Running}, late)
  }

  type Connectors = string -> Connector

  /** The answer can be given in this state of the world. */
  ghost predicate CanAnswer(connectors: Connectors, w: World, s: Step) {
    match s
    case Inspected(p, status) =>
      p in w.pods ==>
        status == w.pods[p].status || (status == Absent && connectors(w.pods[p].provider).getDegrades)
    case Miss(l) =>
      l in w.leases ==>
        var c := connectors(w.leases[l].provider);
        c.listDegrades || !c.named || forall p | IsFor(w.pods, p, l) :: w.pods[p].status !in c.listed
    case LaunchLate(l, _, _) => l in w.leases ==> connectors(w.leases[l].provider).late
    case _ => true
  }

  ghost predicate AnsweredAt(connectors: Connectors, origin: World, steps: seq<Step>, n: nat)
    requires n < |steps|
  {
    Legal(origin, steps[..n]) && CanAnswer(connectors, After(origin, steps[..n]), steps[n])
  }

  /** All answers on the run come from these connectors. */
  ghost predicate Answered(connectors: Connectors, origin: World, steps: seq<Step>) {
    forall n: nat | n < |steps| :: AnsweredAt(connectors, origin, steps, n)
  }

  /** No failure is swallowed, listings show all live machines with their names, and launches
      take effect in time. */
  predicate IsReliable(c: Connector) {
    !c.getDegrades && !c.listDegrades && c.named && {Pending, Running, Stopped, Unknown} <= c.listed && !c.late
  }

  /** A reliable connector never misleads. */
  lemma ReliableIsHonest(connectors: Connectors, w: World, s: Step)
    requires Core(w) && Enabled(w, s) && CanAnswer(connectors, w, s)
    requires forall provider :: IsReliable(connectors(provider))
    ensures !Deceives(w, s)
  {
    hide Core, Enabled;
    if s.Miss? && s.lease in w.leases {
      assert IsReliable(connectors(w.leases[s.lease].provider));
    } else if s.Inspected? && s.pod in w.pods {
      assert IsReliable(connectors(w.pods[s.pod].provider));
    }
  }

  /** If it rents in time, what the RunPod connector overlooks is a machine that is stopped or in
      an unknown state; it denies none. */
  lemma RunPodOverlooksOnlyHidden(connectors: Connectors, w: World, s: Step)
    requires forall provider :: connectors(provider) == RunPod(false)
    requires CanAnswer(connectors, w, s) && Deceives(w, s)
    ensures s.Miss? && exists p :: IsFor(w.pods, p, s.lease) && w.pods[p].status in {Stopped, Unknown}
  {
    if s.Miss? {
      var c := connectors(w.leases[s.lease].provider);
      assert c == RunPod(false);
      var p :| IsFor(w.pods, p, s.lease) && IsLive(w.pods[p].status);
      assert w.pods[p].status in {Stopped, Unknown};
    }
  }

  lemma ReliableRunIsHonest(connectors: Connectors, origin: World, steps: seq<Step>)
    requires Core(origin) && Legal(origin, steps) && Answered(connectors, origin, steps)
    requires forall provider :: IsReliable(connectors(provider))
    ensures Honest(origin, steps)
  {
    hide Core, Enabled, Apply, Play, Deceives, CanAnswer, IsReliable;
    forall n: nat | n < |steps| ensures HonestAt(origin, steps, n) {
      assert AnsweredAt(connectors, origin, steps, n);
      PrefixIsLegal(origin, steps, n);
      RunKeepsCore(origin, steps[..n]);
      ReliableIsHonest(connectors, After(origin, steps[..n]), steps[n]);
    }
  }

  /** A run whose only answer is at place `k`. */
  lemma OneAnswer(connectors: Connectors, origin: World, steps: seq<Step>, k: nat)
    requires Legal(origin, steps) && k < |steps| && AnsweredAt(connectors, origin, steps, k)
    requires forall n: nat | n < |steps| && n != k :: !steps[n].Inspected? && !steps[n].Miss? && !steps[n].LaunchLate?
    ensures Answered(connectors, origin, steps)
  {
    hide Enabled, Apply, Play;
    forall n: nat | n < |steps| ensures AnsweredAt(connectors, origin, steps, n) {
      PrefixIsLegal(origin, steps, n);
    }
  }

  /** A failed inspection returned as absence ends in a paid orphan, although the lease was
      bound. */
  lemma SwallowedInspectionOrphans(connectors: Connectors, provider: string) returns (steps: seq<Step>)
    requires connectors(provider).getDegrades
    ensures Legal(EMPTY, steps) && Answered(connectors, EMPTY, steps) && !NoOrphan(After(EMPTY, steps))
  {
    var front := Launching(provider, Running) + [Bind(0, 7)];
    steps := front + [Inspected(7, Absent)] + [Confirm(0, 7)];
    DeniedMachineIsOrphaned(provider);
    BindingIsReachable(provider);
    hide Play;
    assert steps[..3] == front && steps[3] == Inspected(7, Absent);
    OneAnswer(connectors, EMPTY, steps, 3);
  }

  /** A launch that raises after the machine was rented ends in a paid orphan when the listing
      does not show it: it failed and came back empty, lacks names, or leaves the state out. */
  lemma MissingNameOrphans(connectors: Connectors, provider: string, status: PodStatus) returns (steps: seq<Step>)
    requires var c := connectors(provider); c.listDegrades || !c.named || (IsLive(status) && status !in c.listed)
    requires IsLive(status)
    ensures Legal(EMPTY, steps) && Answered(connectors, EMPTY, steps) && !NoOrphan(After(EMPTY, steps))
  {
    var front := Launching(provider, status);
    steps := front + [Miss(0)] + [CloseUnbound(0)];
    MissedMachineIsOrphaned(provider, status);
    LaunchIsReachable(provider, status);
    hide Play;
    assert steps[..2] == front && steps[2] == Miss(0);
    OneAnswer(connectors, EMPTY, steps, 2);
  }

  /** A launch that takes effect late ends in a paid orphan, too. */
  lemma LateLaunchOrphans(connectors: Connectors, provider: string) returns (steps: seq<Step>)
    requires connectors(provider).late
    ensures Legal(EMPTY, steps) && Answered(connectors, EMPTY, steps) && !NoOrphan(After(EMPTY, steps))
  {
    var create := Create(0, provider, "f", 5);
    steps := [create] + [Miss(0)] + [CloseUnbound(0)] + [LaunchLate(0, 7, Running)];
    LateLaunchIsOrphaned(provider);
    var last := steps[..3];
    assert last == [create] + [Miss(0)] + [CloseUnbound(0)];
    assert Legal(EMPTY, []) && After(EMPTY, []) == EMPTY;
    hide Play;
    PlayOne(EMPTY, [], create);
    assert [] + [create] == [create] == steps[..1];
    PlayOne(EMPTY, [create], Miss(0));
    assert steps[..2] == [create] + [Miss(0)];
    PlayOne(EMPTY, [create] + [Miss(0)], CloseUnbound(0));
    forall n: nat | n < |steps| ensures AnsweredAt(connectors, EMPTY, steps, n) {
      PrefixIsLegal(EMPTY, steps, n);
    }
  }

  lemma EmptyIsSound()
    ensures Core(EMPTY) && NoOrphan(EMPTY) && AnswersAreTrue(EMPTY)
  {
  }

  /** Every run from the start is free of paid orphans exactly when all connectors are
      reliable. */
  lemma SafeExactlyWhenReliable(connectors: Connectors)
    ensures (forall provider :: IsReliable(connectors(provider)))
       <==> (forall steps | Legal(EMPTY, steps) && Answered(connectors, EMPTY, steps) :: NoOrphan(After(EMPTY, steps)))
  {
    hide Core, NoOrphan, AnswersAreTrue, Answered, Play;
    EmptyIsSound();
    if forall provider :: IsReliable(connectors(provider)) {
      forall steps | Legal(EMPTY, steps) && Answered(connectors, EMPTY, steps) ensures NoOrphan(After(EMPTY, steps)) {
        ReliableRunIsHonest(connectors, EMPTY, steps);
        NoPaidOrphan(EMPTY, steps, |steps|);
        assert steps[..|steps|] == steps;
      }
    } else {
      var provider :| !IsReliable(connectors(provider));
      var c := connectors(provider);
      var steps: seq<Step>;
      if c.getDegrades {
        steps := SwallowedInspectionOrphans(connectors, provider);
      } else if c.late {
        steps := LateLaunchOrphans(connectors, provider);
      } else {
        var status := if Pending !in c.listed then Pending else if Stopped !in c.listed then Stopped
                      else if Unknown !in c.listed then Unknown else Running;
        steps := MissingNameOrphans(connectors, provider, status);
      }
    }
  }

  /** Neither bundled connector is reliable. */
  lemma BundledAreUnreliable(late: bool)
    ensures !IsReliable(RunPod(late)) && !IsReliable(Vast(late))
  {
    assert Stopped !in RunPod(late).listed;
  }
}
