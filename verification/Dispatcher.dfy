/** The dispatcher (cloud_offload/dispatcher.py), as an object updated in place.

    Every method keeps a ghost record of the protocol steps it took, and is proved to take
    only steps that `LeaseProtocol` allows; what is proved there about all runs therefore
    holds of the dispatcher, wherever it is interrupted. */
module Dispatching {
  import opened Flows
  import opened Prelude
  import opened LeaseProtocol
  import opened LeaseQueue
  import opened LeaseRelations
  import opened LeaseRuns

  class Dispatcher {
    const queue: JobQueue
    const cloud: Cloud
    const connectors: set<string>

    var activeInstances: map<PodId, PodStatus>
    var instanceProviders: map<PodId, string>
    var instanceProfiles: map<PodId, string>
    var instanceLeases: map<PodId, LeaseId>
    var lastActivity: map<PodId, int>
    var launchedAt: map<PodId, int>
    var readyInstances: set<PodId>

    /** What becomes of the calls, in the order in which they are made. */
    const script: nat -> Reply
    var made: nat

    ghost const origin: World
    ghost var history: seq<Step>
    ghost var unseen: set<LeaseId>
    ghost var reported: set<PodId>
    /** The machines whose termination was asked for, whether or not the call failed. */
    ghost var asked: set<PodId>

    ghost function Tables(): Memory
      reads this
    {
      Memory(activeInstances, instanceProviders, instanceProfiles, instanceLeases, lastActivity, launchedAt)
    }

    ghost function Snapshot(): World
      reads this, queue, cloud
    {
      World(queue.leases, cloud.pods, Tables(), unseen, reported)
    }

    /** The present state is where the recorded steps lead. */
    ghost predicate Valid()
      reads this, queue, cloud
    {
      && Core(origin) && Legal(origin, history)
      && After(origin, history) == Snapshot()
      && Core(Snapshot())
      && (forall p <- instanceProviders :: instanceProviders[p] in connectors)
    }

    /** A dispatcher starts, or starts again after a crash, with empty tables. */
    constructor (queue: JobQueue, cloud: Cloud, connectors: set<string>, script: nat -> Reply,
                 ghost origin: World, ghost past: seq<Step>)
      requires Core(origin) && Legal(origin, past)
      requires var w := After(origin, past); w.leases == queue.leases && w.pods == cloud.pods
      ensures Valid() && this.queue == queue && this.cloud == cloud && this.connectors == connectors
      ensures this.script == script && made == 0
      ensures this.origin == origin && history == past + [Crash] && Tables() == NO_MEMORY
    {
      hide Core, Enabled, Apply;
      this.queue, this.cloud, this.connectors, this.script, made := queue, cloud, connectors, script, 0;
      activeInstances, instanceProviders, instanceProfiles := map[], map[], map[];
      instanceLeases, lastActivity, launchedAt, readyInstances := map[], map[], map[], {};
      this.origin := origin;
      history := past + [Crash];
      unseen, reported := After(origin, past).unseen, After(origin, past).reported;
      new;
      Restarted(origin, past);
      RunKeepsCore(origin, history);
    }

    /** Appends a step to the record. */
    ghost method Record(before: World, s: Step)
      requires Core(origin) && Legal(origin, history)
      requires After(origin, history) == before && Core(before)
      requires Enabled(before, s) && Snapshot() == Apply(before, s)
      requires forall p <- instanceProviders :: instanceProviders[p] in connectors
      modifies this`history
      ensures Valid() && history == old(history) + [s]
      ensures forall n: nat, victims: set<PodId> | n <= |old(history)| && Spares(old(history), n, victims) && (s.Terminate? ==> s.pod in victims)
                                            && !s.Crash? && !s.LaunchLate? ::
                Spares(history, n, victims)
    {
      hide Core, Enabled, Apply, Play;
      PlayOne(origin, history, s);
      StepKeepsCore(before, s);
      history := history + [s];
    }

    /** Records that the provider could not be asked about the machine of the lease. */
    ghost method NoteFailure(l: LeaseId)
      requires Valid() && l in queue.leases
      modifies this`history
      ensures Valid() && history == old(history) + [AskFailed(l)]
      ensures forall n: nat | n <= |old(history)| :: Unasked(history, n, l)
      ensures forall n: nat, victims: set<PodId> | n <= |old(history)| && Spares(old(history), n, victims) ::
                Spares(history, n, victims)
    {
      hide Core, Play;
      Record(Snapshot(), AskFailed(l));
      assert history[|old(history)|] == AskFailed(l);
    }

    /** Records what the provider answered about a machine. */
    ghost method NoteAnswer(p: PodId, status: PodStatus)
      requires Valid() && p in cloud.pods
      modifies this`history, this`reported
      ensures Valid() && history == old(history) + [Inspected(p, status)]
      ensures reported == if IsLive(status) then old(reported) else old(reported) + {p}
      ensures forall n: nat | n <= |old(history)| :: Shown(history, n, p, status)
      ensures forall n: nat, victims: set<PodId> | n <= |old(history)| && Spares(old(history), n, victims) ::
                Spares(history, n, victims)
    {
      hide Core, Play, KeyIsFree, Tracked, Forgotten;
      var before := Snapshot();
      if !IsLive(status) {
        reported := reported + {p};
      }
      Record(before, Inspected(p, status));
      assert history[|old(history)|] == Inspected(p, status);
    }

    /** What becomes of the next call. */
    method Ask() returns (reply: Reply)
      requires Valid()
      modifies this`made
      ensures Valid() && reply == script(old(made)) && made == old(made) + 1
    {
      reply := script(made);
      made := made + 1;
    }

    /** Between any two calls the coordinator may revoke leases, machines change state, and
        others rent machines. */
    method Interfere()
      requires Valid()
      modifies this`history, queue, cloud
      ensures Valid() && old(history) <= history && Spares(history, |old(history)|, {})
      ensures Weather(old(Snapshot()), Snapshot())
    {
      hide Core, Legal, Play, Later;
      var n: nat := *;
      while n > 0
        invariant Valid() && old(history) <= history && Spares(history, |old(history)|, {})
        invariant Weather(old(Snapshot()), Snapshot())
      {
        DisturbOnce();
        n := n - 1;
      }
    }

    method DisturbOnce()
      requires Valid()
      modifies this`history, queue, cloud
      ensures Valid() && old(history) <= history && Spares(history, |old(history)|, {})
      ensures Weather(old(Snapshot()), Snapshot())
    {
      hide Core, Legal, Play, Later, Enabled, Apply;
      var kind: nat, l: LeaseId, p: PodId := *, *, *;
      var status: PodStatus := *;
      if kind == 0 && l in queue.leases {
        CoordinatorRevokes(l);
      } else if kind == 1 && p in cloud.pods && CanBecome(cloud.pods[p].status, status) {
        MachineDrifts(p, status);
      } else if kind == 2 && p !in cloud.pods {
        var provider: string, text: string := *, *;
        OthersRent(p, provider, text, status);
      }
    }

    method CoordinatorRevokes(l: LeaseId)
      requires Valid() && l in queue.leases
      modifies this`history, queue
      ensures Valid() && old(history) <= history && Spares(history, |old(history)|, {})
      ensures Weather(old(Snapshot()), Snapshot())
      ensures queue.leases[l] == if old(queue.leases)[l].status in {Provisioning, Active}
                                 then old(queue.leases)[l].(status := RevocationRequested) else old(queue.leases)[l]
    {
      hide Core, Legal, Play, KeyIsFree, IsFor, Tracked, Forgotten;
      var revoked := queue.RequestLeaseRevocation(l);
      if old(queue.leases)[l].status in {Provisioning, Active} {
        Record(old(Snapshot()), Revoke(l));
      } else {
        assert queue.leases == old(queue.leases);
      }
    }

    method MachineDrifts(p: PodId, status: PodStatus)
      requires Valid() && p in cloud.pods && CanBecome(cloud.pods[p].status, status)
      modifies this`history, cloud
      ensures Valid() && old(history) <= history && Spares(history, |old(history)|, {})
      ensures Weather(old(Snapshot()), Snapshot())
    {
      hide Core, Legal, Play, KeyIsFree, IsFor, Tracked, Forgotten;
      cloud.pods := cloud.pods[p := cloud.pods[p].(status := status)];
      Record(old(Snapshot()), Drift(p, status));
    }

    method OthersRent(p: PodId, provider: string, text: string, status: PodStatus)
      requires Valid() && p !in cloud.pods
      modifies this`history, cloud
      ensures Valid() && old(history) <= history && Spares(history, |old(history)|, {})
      ensures Weather(old(Snapshot()), Snapshot())
    {
      hide Core, Legal, Play, KeyIsFree, IsFor, Tracked, Forgotten;
      cloud.pods := cloud.pods[p := Pod(provider, OtherName(text), status)];
      Record(old(Snapshot()), Appear(p, provider, text, status));
    }

    /******* Single calls *******/

    /** The call of `create_lease`. */
    method CreateLease(provider: string, profile: string, now: int) returns (r: Flow<LeaseId>)
      requires Valid() && KeyIsFree(queue.leases, provider, profile)
      modifies this`made, this`history, queue, cloud
      ensures Valid() && old(history) <= history && Spares(history, |old(history)|, {})
      ensures made == old(made) + 1 && (r.Raised? <==> script(old(made)).raises)
      ensures r.Raised? ==> Failed(script, old(made), made)
      ensures Tables() == old(Tables()) && old(unseen) <= unseen
      ensures r.Raised? ==> queue.leases.Keys == old(queue.leases.Keys)
      ensures r.Returned? ==>
                && queue.leases.Keys == old(queue.leases.Keys) + {r.value} && r.value !in old(queue.leases)
                && CanLaunch(r.value) && queue.leases[r.value].provider == provider && queue.leases[r.value].profile == profile
                && queue.leases[r.value].created == now
      ensures LeasesLater(old(queue.leases), queue.leases) && PodsLater(old(cloud.pods), cloud.pods)
    {
      hide Spares, Core, Legal, Play, Tracked, Forgotten;
      Interfere();
      ghost var before := Snapshot();
      FreeInAnyWeather(old(queue.leases), queue.leases, provider, profile);
      var reply := Ask();
      if reply.raises {
        return Raised;
      }
      // identifiers are drawn at random and do not repeat
      var l: LeaseId := *;
      if l in queue.leases {
        l := Unused(queue.leases.Keys);
      }
      InsertLease(l, provider, profile, now);
      r := Returned(l);
      LaterThen(old(queue.leases), before.leases, queue.leases);
    }

    method InsertLease(l: LeaseId, provider: string, profile: string, now: int)
      requires Valid() && KeyIsFree(queue.leases, provider, profile) && l !in queue.leases
      modifies this`history, queue
      ensures Valid() && history == old(history) + [Create(l, provider, profile, now)]
      ensures forall n: nat, victims: set<PodId> | n <= |old(history)| && Spares(old(history), n, victims) ::
                Spares(history, n, victims)
      ensures queue.leases == old(queue.leases)[l := Lease(provider, profile, now, None, Provisioning, false, false)]
      ensures CanLaunch(l) && LeasesLater(old(queue.leases), queue.leases)
    {
      hide Core, Legal, Play, Tracked, Forgotten, KeyIsFree;
      var _ := queue.CreateLease(l, provider, profile, now);
      UnknownLease(old(Snapshot()), l);
      Record(old(Snapshot()), Create(l, provider, profile, now));
    }

    /** The lease awaits its machine. */
    ghost predicate CanLaunch(l: LeaseId)
      reads this, queue, cloud
    {
      && l in queue.leases && IsOpen(queue.leases[l]) && queue.leases[l].pod.None? && l !in unseen
      && forall p <- cloud.pods :: !IsFor(cloud.pods, p, l)
    }

    /** The call of a connector's `launch`: the machine may be rented although the call raises. */
    method Launch(l: LeaseId) returns (r: Flow<PodId>)
      requires Valid() && CanLaunch(l)
      modifies this`made, this`history, queue, cloud
      ensures Valid() && old(history) <= history && Spares(history, |old(history)|, {})
      ensures made == old(made) + 1 && (r.Raised? <==> script(old(made)).raises)
      ensures r.Raised? ==> Failed(script, old(made), made)
      ensures Tables() == old(Tables()) && Handled(old(Snapshot()), Snapshot(), l)
      ensures HasOpen(queue.leases, l) && queue.leases[l].provider == old(queue.leases[l].provider)
      ensures r.Returned? ==> IsFor(cloud.pods, r.value, l)
    {
      hide Spares, Core, Legal, Play, Tracked, Forgotten, KeyIsFree;
      Interfere();
      ghost var before := Snapshot();
      WeatherIsHandled(old(Snapshot()), before, l);
      assert CanLaunch(l);
      var reply := Ask();
      var rented: bool, p: PodId := *, *;
      var status: PodStatus := *;
      if reply.raises && !rented {
        return Raised;
      }
      if p in cloud.pods {
        p := Unused(cloud.pods.Keys);
      }
      Rent(l, p, status);
      HandledThen(old(Snapshot()), before, Snapshot(), l);
      r := if reply.raises then Raised else Returned(p);
    }

    /** The provider rents a machine under the lease's name. */
    method Rent(l: LeaseId, p: PodId, status: PodStatus)
      requires Valid() && CanLaunch(l) && p !in cloud.pods
      modifies this`history, cloud
      ensures Valid() && history == old(history) + [LeaseProtocol.Step.Launch(l, p, status)]
      ensures forall n: nat, victims: set<PodId> | n <= |old(history)| && Spares(old(history), n, victims) ::
                Spares(history, n, victims)
      ensures Tables() == old(Tables()) && unseen == old(unseen) && reported == old(reported)
      ensures cloud.pods == old(cloud.pods)[p := Pod(queue.leases[l].provider, LeaseName(l), status)]
      ensures Handled(old(Snapshot()), Snapshot(), l)
    {
      hide Core, Legal, Play, Tracked, Forgotten, KeyIsFree;
      cloud.pods := cloud.pods[p := Pod(queue.leases[l].provider, LeaseName(l), status)];
      Record(old(Snapshot()), LeaseProtocol.Step.Launch(l, p, status));
    }

    /** The call of `list_instances`, searched for the lease's name.  The answer may leave the
        machine out, or show it in a state it is not in. */
    method FindByName(l: LeaseId) returns (r: Flow<Option<(PodId, PodStatus)>>)
      requires Valid() && l in queue.leases
      modifies this`made, this`history, this`unseen, this`reported, queue, cloud
      ensures Valid() && old(history) <= history && Spares(history, |old(history)|, {})
      ensures made == old(made) + 1 && (r.Raised? <==> script(old(made)).raises)
      ensures r.Raised? ==> Failed(script, old(made), made)
      ensures Tables() == old(Tables()) && Handled(old(Snapshot()), Snapshot(), l)
      ensures Weathered(old(queue.leases)[l], queue.leases[l])
      ensures r.Returned? && r.value.Some? ==>
                var (p, status) := r.value.value;
                && IsFor(cloud.pods, p, l) && Shown(history, |old(history)|, p, status) && Told(script, old(made), made, status)
                && (!IsLive(status) ==> p in reported)
      ensures r.Returned? && r.value.None? ==> l in unseen
      ensures r.Raised? ==> Unasked(history, |old(history)|, l)
    {
      hide Spares, Unasked, Shown, Core, Legal, Play, Tracked, Forgotten, KeyIsFree;
      Interfere();
      ghost var before := Snapshot();
      WeatherIsHandled(old(Snapshot()), before, l);
      var reply := Ask();
      if reply.raises {
        NoteFailure(l);
        return Raised;
      }
      var shows: bool, p: PodId := *, *;
      if shows && p in cloud.pods && cloud.pods[p].name == LeaseName(l) {
        NoteAnswer(p, reply.status);
        AnswerIsHandled(old(Snapshot()), before, p, l);
        return Returned(Some((p, reply.status)));
      }
      hide Weathered, IsFor;
      unseen := unseen + {l};
      Record(before, Miss(l));
      MissIsHandled(old(Snapshot()), before, l);
      r := Returned(None);
    }

    /** The call of `get_instance`.  The answer may show the machine in a state it is not in. */
    method Inspect(p: PodId, ghost l: LeaseId) returns (r: Flow<PodStatus>)
      requires Valid() && l in queue.leases && IsFor(cloud.pods, p, l)
      modifies this`made, this`history, this`reported, queue, cloud
      ensures Valid() && old(history) <= history && Spares(history, |old(history)|, {})
      ensures made == old(made) + 1 && (r.Raised? <==> script(old(made)).raises)
      ensures r.Raised? ==> Failed(script, old(made), made)
      ensures Weather(old(Snapshot()), Snapshot())
      ensures r.Returned? ==> Shown(history, |old(history)|, p, r.value) && Told(script, old(made), made, r.value)
      ensures r.Returned? && !IsLive(r.value) ==> p in reported
      ensures r.Raised? ==> Unasked(history, |old(history)|, l)
    {
      hide Spares, Unasked, Shown, Core, Legal, Play, KeyIsFree, Tracked, Forgotten;
      Interfere();
      var reply := Ask();
      if reply.raises {
        NoteFailure(l);
        return Raised;
      }
      NoteAnswer(p, reply.status);
      r := Returned(reply.status);
    }

    /** The call of a connector's `terminate`: it may take effect although it raises. */
    method Terminate(p: PodId) returns (r: Flow<Unit>)
      requires Valid() && p in cloud.pods && cloud.pods[p].name.LeaseName? && cloud.pods[p].name.lease in queue.leases
      requires var lease := queue.leases[cloud.pods[p].name.lease]; lease.pod == Some(p) && lease.status in {Terminating, Closed}
      modifies this`made, this`history, this`asked, queue, cloud
      ensures Valid() && old(history) <= history && Spares(history, |old(history)|, {p})
      ensures made == old(made) + 1 && (r.Raised? <==> script(old(made)).raises)
      ensures r.Raised? ==> Failed(script, old(made), made)
      ensures Weather(old(Snapshot()), Snapshot()) && p in asked
    {
      hide Core, Legal, Play, Enabled, Apply, Weather, CanBecome;
      Interfere();
      EndingInAnyWeather(old(Snapshot()), Snapshot(), p);
      asked := asked + {p};
      ghost var before := Snapshot();
      NoWeather(before);
      var reply := Ask();
      var sent: bool := *;
      var status: PodStatus := *;
      if sent && CanBecome(cloud.pods[p].status, status) {
        TakeDown(p, status);
      }
      WeatherThen(old(Snapshot()), before, Snapshot());
      r := if reply.raises then Raised else Returned(Unit);
    }

    /** The provider acts on the request. */
    method TakeDown(p: PodId, status: PodStatus)
      requires Valid() && p in cloud.pods && cloud.pods[p].name.LeaseName? && cloud.pods[p].name.lease in queue.leases
      requires var lease := queue.leases[cloud.pods[p].name.lease]; lease.pod == Some(p) && lease.status in {Terminating, Closed}
      requires CanBecome(cloud.pods[p].status, status)
      modifies this`history, cloud
      ensures Valid() && history == old(history) + [LeaseProtocol.Step.Terminate(p, status)]
      ensures Weather(old(Snapshot()), Snapshot())
    {
      hide Core, Legal, Play, Tracked, Forgotten, KeyIsFree, IsFor;
      cloud.pods := cloud.pods[p := cloud.pods[p].(status := status)];
      Record(old(Snapshot()), LeaseProtocol.Step.Terminate(p, status));
    }

    /** The call of `bind_lease`. */
    method BindLease(l: LeaseId, p: PodId) returns (r: Flow<Lease>)
      requires Valid() && l in queue.leases && IsFor(cloud.pods, p, l)
      modifies this`made, this`history, queue, cloud
      ensures Valid() && old(history) <= history && Spares(history, |old(history)|, {})
      ensures made == old(made) + 1 && (r.Raised? <==> script(old(made)).raises)
      ensures r.Raised? ==> Failed(script, old(made), made)
      ensures Tables() == old(Tables()) && Handled(old(Snapshot()), Snapshot(), l)
      ensures IsOpen(old(queue.leases)[l]) ==> IsOpen(queue.leases[l])
      ensures r.Returned? ==> r.value == queue.leases[l]
                              && (r.value.status in {Provisioning, Active} ==> r.value.pod == Some(p) && r.value.status.Active?)
    {
      hide Spares, Core, Legal, Play, Tracked, Forgotten, KeyIsFree, Enabled, Apply;
      Interfere();
      ghost var before := Snapshot();
      WeatherIsHandled(old(Snapshot()), before, l);
      var reply := Ask();
      if reply.raises {
        return Raised;
      }
      r := WriteBinding(l, p);
      HandledThen(old(Snapshot()), before, Snapshot(), l);
    }

    /** The table never refuses the dispatcher's bindings. */
    method WriteBinding(l: LeaseId, p: PodId) returns (r: Flow<Lease>)
      requires Valid() && l in queue.leases && IsFor(cloud.pods, p, l)
      modifies this`history, queue
      ensures Valid() && old(history) <= history && r.Returned?
      ensures forall n: nat, victims: set<PodId> | n <= |old(history)| && Spares(old(history), n, victims) ::
                Spares(history, n, victims)
      ensures Handled(old(Snapshot()), Snapshot(), l)
      ensures IsOpen(old(queue.leases)[l]) ==> IsOpen(queue.leases[l])
      ensures r.value == queue.leases[l]
              && (r.value.status in {Provisioning, Active} ==> r.value.pod == Some(p) && r.value.status.Active?)
    {
      hide Spares, Core, Legal, Play, Tracked, Forgotten, KeyIsFree;
      ghost var before := Snapshot();
      OwnPodOnly(before, l, p);
      r := queue.BindLease(l, p);
      RowIsHandled(before, Snapshot(), l);
      if before.leases[l].status in {Provisioning, Active} {
        RecordBinding(before, l, p);
      } else {
        assert queue.leases == before.leases;
      }
    }

    ghost method RecordBinding(before: World, l: LeaseId, p: PodId)
      requires Core(origin) && Legal(origin, history)
      requires After(origin, history) == before && Core(before)
      requires l in before.leases && IsFor(before.pods, p, l) && before.leases[l].pod in {None, Some(p)}
      requires before.leases[l].status in {Provisioning, Active}
      requires Snapshot() == before.(leases := before.leases[l := before.leases[l].(pod := Some(p), status := Active)])
      requires forall q <- instanceProviders :: instanceProviders[q] in connectors
      modifies this`history
      ensures Valid() && history == old(history) + [Bind(l, p)]
      ensures forall n: nat, victims: set<PodId> | n <= |old(history)| && Spares(old(history), n, victims) ::
                Spares(history, n, victims)
    {
      hide Core, Legal, Play, Tracked, Forgotten, KeyIsFree;
      Record(before, Bind(l, p));
    }

    /** The call of `request_lease_revocation`. */
    method RevokeLease(l: LeaseId) returns (r: Flow<Lease>)
      requires Valid() && l in queue.leases
      modifies this`made, this`history, queue, cloud
      ensures Valid() && old(history) <= history && Spares(history, |old(history)|, {})
      ensures made == old(made) + 1 && (r.Raised? <==> script(old(made)).raises)
      ensures r.Raised? ==> Failed(script, old(made), made)
      ensures Weather(old(Snapshot()), Snapshot())
      ensures r.Returned? ==> r.value == queue.leases[l] && r.value.status !in {Provisioning, Active}
    {
      hide Core, Legal, Play, Enabled, Apply;
      Interfere();
      ghost var before := Snapshot();
      var reply := Ask();
      if reply.raises {
        return Raised;
      }
      CoordinatorRevokes(l);
      r := Returned(queue.leases[l]);
    }

    /** The call of `record_termination_attempt`. */
    method AttemptTermination(l: LeaseId) returns (r: Flow<Lease>)
      requires Valid() && l in queue.leases && queue.leases[l].pod.Some?
      modifies this`made, this`history, queue, cloud
      ensures Valid() && old(history) <= history && Spares(history, |old(history)|, {})
      ensures made == old(made) + 1 && (r.Raised? <==> script(old(made)).raises)
      ensures r.Raised? ==> Failed(script, old(made), made)
      ensures Tables() == old(Tables()) && Handled(old(Snapshot()), Snapshot(), l)
      ensures HasOpen(old(queue.leases), l) ==> HasOpen(queue.leases, l)
      ensures l in queue.leases && queue.leases[l].pod == old(queue.leases[l].pod)
      ensures r.Returned? ==> r.value == queue.leases[l] && r.value.status in {Terminating, Closed}
    {
      hide Spares, Core, Legal, Play, Tracked, Forgotten, KeyIsFree, IsFor;
      Interfere();
      ghost var before := Snapshot();
      WeatherIsHandled(old(Snapshot()), before, l);
      var reply := Ask();
      if reply.raises {
        return Raised;
      }
      r := queue.RecordTerminationAttempt(l);
      RowIsHandled(before, Snapshot(), l);
      HandledThen(old(Snapshot()), before, Snapshot(), l);
      if IsOpen(before.leases[l]) {
        Record(before, Attempt(l));
      } else {
        assert queue.leases == before.leases;
      }
    }

    /** The call of `confirm_lease_termination`, on an answer that showed the machine dead. */
    method ConfirmTermination(l: LeaseId, p: PodId) returns (r: Flow<Lease>)
      requires Valid() && l in queue.leases && IsFor(cloud.pods, p, l) && p in reported
      modifies this`made, this`history, queue, cloud
      ensures Valid() && old(history) <= history && Spares(history, |old(history)|, {})
      ensures made == old(made) + 1 && (r.Raised? <==> script(old(made)).raises)
      ensures r.Raised? ==> Failed(script, old(made), made)
      ensures Tables() == old(Tables()) && Handled(old(Snapshot()), Snapshot(), l)
      ensures r.Returned? ==> r.value == queue.leases[l] && r.value.status.Closed? && r.value.confirmed
      ensures r.Raised? && IsOpen(old(queue.leases)[l]) ==> IsOpen(queue.leases[l])
    {
      hide Spares, Core, Legal, Play, Tracked, Forgotten, KeyIsFree;
      Interfere();
      ghost var before := Snapshot();
      WeatherIsHandled(old(Snapshot()), before, l);
      var reply := Ask();
      if reply.raises {
        return Raised;
      }
      r := queue.ConfirmLeaseTermination(l);
      RowIsHandled(before, Snapshot(), l);
      HandledThen(old(Snapshot()), before, Snapshot(), l);
      Record(before, Confirm(l, p));
    }

    /** The call of `close_unbound_lease`, after a listing without the lease's name. */
    method CloseUnbound(l: LeaseId) returns (r: Flow<Lease>)
      requires Valid() && l in queue.leases && l in unseen
      modifies this`made, this`history, queue, cloud
      ensures Valid() && old(history) <= history && Spares(history, |old(history)|, {})
      ensures made == old(made) + 1
      ensures r.Raised? <==> script(old(made)).raises || queue.leases[l].pod.Some?
      ensures r.Raised? ==> Failed(script, old(made), made) || old(queue.leases)[l].pod.Some?
      ensures Tables() == old(Tables()) && Handled(old(Snapshot()), Snapshot(), l)
      ensures r.Returned? ==> !IsOpen(queue.leases[l])
      ensures r.Raised? && IsOpen(old(queue.leases)[l]) ==> IsOpen(queue.leases[l])
    {
      hide Spares, Core, Legal, Play, Tracked, Forgotten, KeyIsFree;
      Interfere();
      ghost var before := Snapshot();
      WeatherIsHandled(old(Snapshot()), before, l);
      var reply := Ask();
      if reply.raises {
        return Raised;
      }
      r := queue.CloseUnboundLease(l);
      if r.Returned? {
        RowIsHandled(before, Snapshot(), l);
        HandledThen(old(Snapshot()), before, Snapshot(), l);
        Record(before, LeaseProtocol.CloseUnbound(l));
      }
    }

    /** Publishing an event or updating jobs: nothing that the protocol depends on. */
    method Publish() returns (r: Flow<Unit>)
      requires Valid()
      modifies this`made
      ensures Valid() && made == old(made) + 1 && (r.Raised? <==> script(old(made)).raises)
      ensures r.Raised? ==> Failed(script, old(made), made)
    {
      var reply := Ask();
      r := if reply.raises then Raised else Returned(Unit);
    }

    /******* The dispatcher's tables *******/

    ghost method RecordTracking(before: World, l: LeaseId, p: PodId, status: PodStatus, activity: int)
      requires Core(origin) && Legal(origin, history)
      requires After(origin, history) == before && Core(before)
      requires l in before.leases && IsOpen(before.leases[l]) && IsFor(before.pods, p, l)
      requires Snapshot() == before.(memory := Tracked(before.memory, p, l, before.leases[l], status, activity))
      requires forall q <- instanceProviders :: instanceProviders[q] in connectors
      modifies this`history
      ensures Valid() && history == old(history) + [Track(p, l, status, activity)]
      ensures forall n: nat, victims: set<PodId> | n <= |old(history)| && Spares(old(history), n, victims) ::
                Spares(history, n, victims)
    {
      hide Core, Legal, Play, Tracked, Forgotten, KeyIsFree, IsFor;
      Record(before, Track(p, l, status, activity));
    }

    ghost method RecordForgetting(before: World, p: PodId)
      requires Core(origin) && Legal(origin, history)
      requires After(origin, history) == before && Core(before)
      requires p in before.memory.leases ==>
                 before.memory.leases[p] in before.leases && !IsOpen(before.leases[before.memory.leases[p]])
      requires Snapshot() == before.(memory := Forgotten(before.memory, p))
      requires forall q <- instanceProviders :: instanceProviders[q] in connectors
      modifies this`history
      ensures Valid() && history == old(history) + [Forget(p)]
      ensures forall n: nat, victims: set<PodId> | n <= |old(history)| && Spares(old(history), n, victims) ::
                Spares(history, n, victims)
    {
      hide Core, Legal, Play, Tracked, Forgotten, KeyIsFree, IsFor;
      Record(before, Forget(p));
    }

    method ForgetInstance(p: PodId)
      requires Valid()
      requires p in instanceLeases ==> instanceLeases[p] in queue.leases && !IsOpen(queue.leases[instanceLeases[p]])
      modifies this
      ensures Valid() && old(history) <= history && Spares(history, |old(history)|, {})
      ensures Tables() == Forgotten(old(Tables()), p) && unseen == old(unseen) && reported == old(reported) && p !in activeInstances
      ensures readyInstances == old(readyInstances) - {p} && asked == old(asked) && made == old(made)
    {
      hide Spares, Core, Legal, Play, Enabled, Apply, IsOpen, Forgotten;
      SparesAll(history, {});
      DropEntries(p);
      RecordForgetting(old(Snapshot()), p);
    }

    method DropEntries(p: PodId)
      modifies this`activeInstances, this`instanceProviders, this`instanceProfiles, this`instanceLeases
      modifies this`lastActivity, this`launchedAt, this`readyInstances
      ensures Tables() == Forgotten(old(Tables()), p) && p !in activeInstances
      ensures readyInstances == old(readyInstances) - {p}
      ensures forall q <- instanceProviders :: q in old(instanceProviders) && instanceProviders[q] == old(instanceProviders)[q]
    {
      activeInstances := activeInstances - {p};
      instanceProviders := instanceProviders - {p};
      instanceProfiles := instanceProfiles - {p};
      instanceLeases := instanceLeases - {p};
      lastActivity := lastActivity - {p};
      launchedAt := launchedAt - {p};
      readyInstances := readyInstances - {p};
    }

    /** Takes up the machine of an open lease, keeping the times it already knows. */
    method RestoreLeaseInstance(l: LeaseId, lease: Lease, p: PodId, status: PodStatus)
      requires Valid() && l in queue.leases && IsOpen(queue.leases[l]) && IsFor(cloud.pods, p, l)
      requires Succeeds(lease, queue.leases[l]) && lease.provider in connectors
      modifies this
      ensures Valid() && old(history) <= history && Spares(history, |old(history)|, {})
      ensures unseen == old(unseen) && reported == old(reported) && made == old(made)
      ensures Tables() == Tracked(old(Tables()), p, l, lease, status,
                                  if p in old(lastActivity) then old(lastActivity)[p] else lease.created)
    {
      hide Spares, Core, Legal, Play, Enabled, Apply, IsOpen, IsFor;
      SparesAll(history, {});
      KnownTimes(Snapshot(), l, p);
      hide Tracked;
      ReenterEntries(l, lease, p, status);
      RecordTracking(old(Snapshot()), l, p, status, lastActivity[p]);
    }

    method ReenterEntries(l: LeaseId, lease: Lease, p: PodId, status: PodStatus)
      requires p in launchedAt ==> launchedAt[p] == lease.created
      modifies this`activeInstances, this`instanceProviders, this`instanceProfiles, this`instanceLeases
      modifies this`lastActivity, this`launchedAt
      ensures p in lastActivity
      ensures lastActivity[p] == if p in old(lastActivity) then old(lastActivity)[p] else lease.created
      ensures Tables() == Tracked(old(Tables()), p, l, lease, status, lastActivity[p])
      ensures instanceProviders == old(instanceProviders)[p := lease.provider]
    {
      activeInstances := activeInstances[p := status];
      instanceProviders := instanceProviders[p := lease.provider];
      instanceProfiles := instanceProfiles[p := lease.profile];
      instanceLeases := instanceLeases[p := l];
      if p !in launchedAt {
        launchedAt := launchedAt[p := lease.created];
      }
      if p !in lastActivity {
        lastActivity := lastActivity[p := lease.created];
      }
      assert launchedAt == old(launchedAt)[p := lease.created];
    }

    /** Binds the lease to the machine that was launched for it and takes the machine up; the
        time of launch is that of the lease. */
    method RememberLaunchedInstance(l: LeaseId, p: PodId, status: PodStatus, now: int) returns (r: Flow<PodId>)
      requires Valid() && l in queue.leases && IsOpen(queue.leases[l]) && IsFor(cloud.pods, p, l)
      requires queue.leases[l].provider in connectors
      modifies this, queue, cloud
      ensures Valid() && old(history) <= history && Spares(history, |old(history)|, {})
      ensures old(made) <= made && (r.Raised? <==> Failed(script, old(made), made))
      ensures Handled(old(Snapshot()), Snapshot(), l) && HasOpen(queue.leases, l)
      ensures r.Returned? ==>
                && r.value == p && Tables() == Tracked(old(Tables()), p, l, queue.leases[l], status, now)
                && (queue.leases[l].status in {Provisioning, Active} ==> queue.leases[l].pod == Some(p))
      ensures r.Raised? ==> Tables() == old(Tables()) || Tables() == Tracked(old(Tables()), p, l, queue.leases[l], status, now)
    {
      hide Core, Legal, Play, Enabled, Apply, Spares, Weather;
      var bound :- BindLease(l, p);
      assert IsFor(cloud.pods, p, l) && bound.provider in connectors;
      hide Handled, IsFor, IsOpen, CanBecome, Tracked;
      ghost var before, past := Snapshot(), history;
      HandledIgnoresMemory(old(Snapshot()), before, Tracked(before.memory, p, l, bound, status, now), l);
      Enter(l, bound, p, status, now);
      OnwardThen(past, history, |old(history)|, {}, {});
      past := history;
      var published := Publish();
      OnwardThen(past, history, |old(history)|, {}, {});
      r := if published.Raised? then Raised else Returned(p);
    }

    /** Enters a machine into the tables. */
    method Enter(l: LeaseId, lease: Lease, p: PodId, status: PodStatus, now: int)
      requires Valid() && l in queue.leases && IsOpen(queue.leases[l]) && IsFor(cloud.pods, p, l)
      requires lease == queue.leases[l] && lease.provider in connectors
      modifies this
      ensures Valid() && old(history) <= history && Spares(history, |old(history)|, {})
      ensures unseen == old(unseen) && reported == old(reported) && made == old(made)
      ensures Tables() == Tracked(old(Tables()), p, l, lease, status, now)
    {
      hide Core, Legal, Play, Enabled, Apply, Spares, IsFor, IsOpen;
      SparesAll(history, {});
      instanceLeases := instanceLeases[p := l];
      activeInstances := activeInstances[p := status];
      instanceProviders := instanceProviders[p := lease.provider];
      instanceProfiles := instanceProfiles[p := lease.profile];
      lastActivity := lastActivity[p := now];
      launchedAt := launchedAt[p := lease.created];
      RecordTracking(old(Snapshot()), l, p, status, now);
    }

    /******* Leases *******/

    /** Resolves an uncertain launch by the lease's name: the machine found, if any, and
        whether the provider could be asked. */
    method RecoverProvisioningLease(l: LeaseId, lease: Lease) returns (r: Flow<(Option<(PodId, PodStatus)>, bool)>)
      requires Valid() && l in queue.leases && Succeeds(lease, queue.leases[l])
      modifies this`made, this`history, this`unseen, this`reported, queue, cloud
      ensures Valid() && old(history) <= history && Spares(history, |old(history)|, {})
      ensures old(made) <= made && (r.Raised? ==> Failed(script, old(made), made) || old(queue.leases)[l].pod.Some?)
      ensures Tables() == old(Tables()) && Handled(old(Snapshot()), Snapshot(), l)
      ensures r == Returned((None, true)) ==> !IsOpen(queue.leases[l]) && lease.provider in connectors
      ensures r != Returned((None, true)) && IsOpen(old(queue.leases)[l]) ==> IsOpen(queue.leases[l])
      ensures r.Returned? && !r.value.1 ==>
                lease.provider !in connectors || (Unasked(history, |old(history)|, l) && Failed(script, old(made), made))
      ensures r.Returned? && r.value.0.Some? ==>
                var (p, status) := r.value.0.value;
                && r.value.1 && IsFor(cloud.pods, p, l) && lease.provider in connectors
                && Shown(history, |old(history)|, p, status) && (!IsLive(status) ==> p in reported)
    {
      hide Core, Legal, Play, Enabled, Apply;
      if lease.provider !in connectors {
        WeatherIsHandled(Snapshot(), Snapshot(), l);
        return Returned((None, false));
      }
      var found := FindByName(l);
      if found.Raised? {
        return Returned((None, false));
      }
      if found.value.Some? {
        return Returned((found.value, true));
      }
      ghost var asked := Snapshot();
      var closed := CloseUnbound(l);
      HandledThen(old(Snapshot()), asked, Snapshot(), l);
      r := if closed.Raised? then Raised else Returned((None, true));
    }

    /** Asks the provider to terminate the machine of a bound lease, and closes the lease on
        the evidence that it is gone. */
    method TerminateLease(l: LeaseId, lease: Lease, ghost p: PodId) returns (r: Flow<Unit>)
      requires Valid() && l in queue.leases && Succeeds(lease, queue.leases[l]) && IsFor(cloud.pods, p, l)
      modifies this, queue, cloud
      ensures Valid() && old(history) <= history && Handled(old(Snapshot()), Snapshot(), l)
      ensures old(made) <= made && (r.Raised? ==> Failed(script, old(made), made))
      ensures Spares(history, |old(history)|, {p})
      ensures lease.pod.None? ==> Snapshot() == old(Snapshot()) && history == old(history)
      ensures lease.pod.Some? && lease.provider in connectors && r.Returned? ==>
                IsEnding(queue.leases, l) && p in asked
      ensures lease.pod.Some? && lease.provider in connectors && r.Returned? ==>
                !HasOpen(queue.leases, l) || Unasked(history, |old(history)|, l) || ShownAlive(history, |old(history)|, p)
      ensures Dropped(old(Tables()), Snapshot(), l, p)
      ensures readyInstances - {p} == old(readyInstances) - {p}
      ensures p in activeInstances ==> readyInstances == old(readyInstances)
    {
      hide Core, Legal, Play, Enabled, Apply;
      AlreadyHandled(Snapshot(), Tables(), l);
      OwnPodOnly(Snapshot(), l, p);
      KnownTimes(Snapshot(), l, p);
      if lease.pod.None? {
        return Returned(Unit);
      }
      if lease.provider !in connectors {
        return Returned(Unit);
      }
      var pod := lease.pod.value;
      assert pod == p;
      SparesAll(history, {p});
      hide Weather, IsFor, IsLive, CanBecome, Forgotten, Succeeds, Spares, Unasked;
      var observed := AskTermination(l, pod);
      ghost var past := history;
      if observed.Raised? {
        return Raised;
      }
      if observed.value.Some? && observed.value.value in {Absent, Terminated} {
        r := CloseTerminated(l, pod, true, old(Snapshot()));
        OnwardThen(past, history, |old(history)|, {}, {p});
      } else {
        r := Returned(Unit);
      }
    }

    /** Records an attempt, asks for termination, and looks at the machine: its status, unless
        the provider could not be asked. */
    method AskTermination(l: LeaseId, p: PodId) returns (r: Flow<Option<PodStatus>>)
      requires Valid() && l in queue.leases && queue.leases[l].pod == Some(p)
      modifies this`made, this`history, this`reported, this`asked, queue, cloud
      ensures Valid() && old(history) <= history && Handled(old(Snapshot()), Snapshot(), l)
      ensures old(made) <= made && (r.Raised? ==> Failed(script, old(made), made))
      ensures Spares(history, |old(history)|, {p})
      ensures Tables() == old(Tables()) && l in queue.leases && IsFor(cloud.pods, p, l)
      ensures HasOpen(old(queue.leases), l) ==> HasOpen(queue.leases, l)
      ensures r.Returned? ==> queue.leases[l].status in {Terminating, Closed} && p in asked
      ensures r.Returned? && r.value.Some? && r.value.value in {Absent, Terminated} ==> p in reported
      ensures r.Returned? && r.value.None? ==> Unasked(history, |old(history)|, l)
      ensures r.Returned? && r.value.Some? && r.value.value !in {Absent, Terminated} ==>
                ShownAlive(history, |old(history)|, p)
    {
      hide Core, Legal, Play, Enabled, Apply, Weather, Handled, CanBecome, Spares, Unasked, Shown;
      SparesAll(history, {p});
      var attempted := AttemptTermination(l);
      OnwardThen(old(history), history, |old(history)|, {}, {p});
      BoundPod(Snapshot(), l);
      if attempted.Raised? {
        return Raised;
      }
      ghost var tried, past := Snapshot(), history;
      var sent := Terminate(p);
      OnwardThen(past, history, |old(history)|, {p}, {p});
      InAnyWeather(tried, Snapshot(), l, p);
      HandledThen(old(Snapshot()), tried, Snapshot(), l);
      ghost var asked := Snapshot();
      past := history;
      var observed := Inspect(p, l);
      OnwardThen(past, history, |old(history)|, {}, {p});
      InAnyWeather(asked, Snapshot(), l, p);
      HandledThen(old(Snapshot()), asked, Snapshot(), l);
      if observed.Raised? {
        return Returned(None);
      }
      if observed.value !in {Absent, Terminated} {
        RecordGrows(history, history, |past|, |old(history)|);
        LiveIsShown(history, |old(history)|, p, observed.value);
      }
      r := Returned(Some(observed.value));
    }

    /** Closes the lease of a machine shown dead, and forgets the machine if it `forgets`. */
    method CloseTerminated(l: LeaseId, p: PodId, forgets: bool, ghost start: World) returns (r: Flow<Unit>)
      requires Valid() && l in queue.leases && IsFor(cloud.pods, p, l) && p in reported
      requires Handled(start, Snapshot(), l) && Tables() == start.memory
      requires p in instanceLeases ==> instanceLeases[p] == l
      modifies this, queue, cloud
      ensures Valid() && old(history) <= history && Handled(start, Snapshot(), l)
      ensures old(made) <= made && (r.Raised? <==> Failed(script, old(made), made))
      ensures Spares(history, |old(history)|, {})
      ensures p in reported && readyInstances - {p} == old(readyInstances) - {p} && asked == old(asked)
      ensures p in activeInstances ==> readyInstances == old(readyInstances)
      ensures r.Raised? ==> Tables() == old(Tables()) && (HasOpen(old(queue.leases), l) ==> HasOpen(queue.leases, l))
      ensures r.Returned? ==> Tables() == (if forgets then Forgotten(old(Tables()), p) else old(Tables()))
      ensures r.Returned? ==> l in queue.leases && !HasOpen(queue.leases, l)
    {
      hide Core, Legal, Play, Enabled, Apply, Forgotten, Spares;
      SparesAll(history, {});
      OneCall(script, made);
      hide Failed;
      ghost var before := Snapshot();
      var confirmed := ConfirmTermination(l, p);
      HandledThen(start, before, Snapshot(), l);
      if confirmed.Raised? {
        return Raised;
      }
      if forgets {
        HandledIgnoresMemory(start, Snapshot(), Forgotten(Tables(), p), l);
        hide Handled;
        ghost var past := history;
        ForgetInstance(p);
        OnwardThen(past, history, |old(history)|, {}, {});
      }
      r := Returned(Unit);
    }

    /** Looks for the machine of an open lease, and binds it if it was found by name. */
    method Locate(l: LeaseId, lease: Lease) returns (r: Flow<Sighting>)
      requires Valid() && HasOpen(queue.leases, l) && queue.leases[l] == lease && lease.provider in connectors
      modifies this`made, this`history, this`unseen, this`reported, queue, cloud
      ensures Valid() && old(history) <= history && Spares(history, |old(history)|, {})
      ensures old(made) <= made && (r.Raised? ==> Failed(script, old(made), made))
      ensures Tables() == old(Tables()) && Handled(old(Snapshot()), Snapshot(), l)
      ensures r == Returned(Gone) <==> !HasOpen(queue.leases, l)
      ensures r == Returned(Gone) ==> lease.pod.None?
      ensures l in queue.leases
      ensures r == Returned(NotAsked) ==> Unasked(history, |old(history)|, l) && Failed(script, old(made), made)
      ensures r.Returned? && r.value.Seen? ==>
                && IsFor(cloud.pods, r.value.pod, l) && l in queue.leases && Succeeds(r.value.lease, queue.leases[l])
                && (lease.pod.Some? ==> r.value.lease == lease)
                && r.value.lease.provider in connectors
                && (r.value.status in {Absent, Terminated} ==> r.value.pod in reported)
    {
      hide Core, Legal, Play, Enabled, Apply, CanBecome, Spares, Unasked, Shown;
      if lease.pod.Some? {
        BoundPod(Snapshot(), l);
        var observed := Inspect(lease.pod.value, l);
        WeatherIsHandled(old(Snapshot()), Snapshot(), l);
        r := Returned(if observed.Raised? then NotAsked else Seen(lease, lease.pod.value, observed.value));
      } else {
        r := LocateByName(l, lease);
      }
    }

    method LocateByName(l: LeaseId, lease: Lease) returns (r: Flow<Sighting>)
      requires Valid() && HasOpen(queue.leases, l) && queue.leases[l] == lease && lease.provider in connectors
      requires lease.pod.None?
      modifies this`made, this`history, this`unseen, this`reported, queue, cloud
      ensures l in queue.leases
      ensures Valid() && old(history) <= history && Spares(history, |old(history)|, {})
      ensures old(made) <= made && (r.Raised? ==> Failed(script, old(made), made))
      ensures Tables() == old(Tables()) && Handled(old(Snapshot()), Snapshot(), l)
      ensures r == Returned(Gone) <==> !HasOpen(queue.leases, l)
      ensures r == Returned(NotAsked) ==> Unasked(history, |old(history)|, l) && Failed(script, old(made), made)
      ensures r.Returned? && r.value.Seen? ==>
                && IsFor(cloud.pods, r.value.pod, l) && l in queue.leases && Succeeds(r.value.lease, queue.leases[l])
                && r.value.lease.provider in connectors
                && (r.value.status in {Absent, Terminated} ==> r.value.pod in reported)
    {
      hide Core, Legal, Play, Enabled, Apply, CanBecome, Spares, Unasked, Weather;
      var recovered :- RecoverProvisioningLease(l, lease);
      if !recovered.1 {
        return Returned(NotAsked);
      }
      if recovered.0.None? {
        return Returned(Gone);
      }
      var (p, status) := recovered.0.value;
      ghost var before, past := Snapshot(), history;
      var bound := BindLease(l, p);
      OnwardThen(past, history, |old(history)|, {}, {});
      HandledThen(old(Snapshot()), before, Snapshot(), l);
      r := if bound.Raised? then Raised else Returned(Seen(bound.value, p, status));
    }

    /** Takes the machine of an open lease up again, and asks for its termination when the
        lease was revoked, the machine stopped, or a deadline has passed. */
    method TakeUp(l: LeaseId, lease: Lease, p: PodId, status: PodStatus, due: bool) returns (r: Flow<Unit>)
      requires Valid() && HasOpen(queue.leases, l) && IsFor(cloud.pods, p, l)
      requires Succeeds(lease, queue.leases[l]) && lease.provider in connectors
      modifies this, queue, cloud
      ensures Valid() && old(history) <= history && Handled(old(Snapshot()), Snapshot(), l)
      ensures old(made) <= made && (r.Raised? ==> Failed(script, old(made), made))
      ensures KeepsOthers(old(instanceLeases), instanceLeases, l)
      ensures HasOpen(queue.leases, l) ==> Holds(instanceLeases, l)
      ensures r.Returned? && lease.status in {RevocationRequested, Terminating} && lease.pod.Some? ==>
                IsEnding(queue.leases, l)
      ensures r.Returned? && (status.Stopped? || due) ==> HasRevoked(queue.leases, l)
    {
      hide Core, Legal, Play, Enabled, Apply, CanBecome, Weather, Handled, IsFor, Spares;
      KnownTimes(Snapshot(), l, p);
      RestoreLeaseInstance(l, lease, p, status);
      hide Tracked, Dropped, KeepsOthers, Holds, HasOpen;
      AlreadyHandled(old(Snapshot()), Tables(), l);
      ghost var activity := if p in old(lastActivity) then old(lastActivity)[p] else lease.created;
      ghost var restored := Snapshot();
      if lease.status in {RevocationRequested, Terminating} {
        r := TerminateLease(l, lease, p);
      } else if status.Stopped? || due {
        r := RevokeAndTerminate(l, p);
      } else {
        StillDropped(restored, l, p);
        r := Returned(Unit);
      }
      hide Succeeds;
      HandledThen(old(Snapshot()), restored, Snapshot(), l);
      EntriesTakenUp(old(Tables()), restored.memory, Snapshot(), l, p, lease, status, activity);
    }

    /** The provider of a known machine's lease has a connector. */
    lemma OwnProvider(p: PodId)
      requires Valid() && p in activeInstances
      ensures p in instanceLeases && instanceLeases[p] in queue.leases
      ensures queue.leases[instanceLeases[p]].provider in connectors
    {
      KeyOfEntry(Snapshot(), p);
      hide Core, Legal, Play;
    }

    /** Revokes a lease, fails or requeues its jobs, and has its machine terminated. */
    method RevokeAndTerminate(l: LeaseId, p: PodId) returns (r: Flow<Unit>)
      requires Valid() && l in queue.leases && IsFor(cloud.pods, p, l) && queue.leases[l].provider in connectors
      modifies this, queue, cloud
      ensures Valid() && old(history) <= history && Handled(old(Snapshot()), Snapshot(), l)
      ensures old(made) <= made && (r.Raised? ==> Failed(script, old(made), made))
      ensures Spares(history, |old(history)|, {p})
      ensures Dropped(old(Tables()), Snapshot(), l, p)
      ensures readyInstances - {p} == old(readyInstances) - {p}
      ensures p in activeInstances ==> readyInstances == old(readyInstances)
      ensures r.Returned? ==> HasRevoked(queue.leases, l) && (old(queue.leases)[l].pod.Some? ==> p in asked)
    {
      hide Core, Legal, Play, Enabled, Apply, CanBecome, Handled;
      var lease := RevokeLease(l);
      WeatherIsHandled(old(Snapshot()), Snapshot(), l);
      if lease.Raised? {
        return Raised;
      }
      var published := Publish();
      if published.Raised? {
        return Raised;
      }
      assert IsFor(cloud.pods, p, l);
      hide Weather, IsFor, Succeeds;
      ghost var revoked := Snapshot();
      r := TerminateLease(l, lease.value, p);
      HandledThen(old(Snapshot()), revoked, Snapshot(), l);
    }

    /** Acts on the machine seen for a lease: closes the lease of a dead machine, takes a live
        one up. */
    method Resolve(l: LeaseId, lease: Lease, p: PodId, status: PodStatus, due: bool) returns (r: Flow<Unit>)
      requires Valid() && HasOpen(queue.leases, l) && IsFor(cloud.pods, p, l)
      requires Succeeds(lease, queue.leases[l]) && lease.provider in connectors
      requires status in {Absent, Terminated} ==> p in reported
      modifies this, queue, cloud
      ensures Valid() && old(history) <= history && Handled(old(Snapshot()), Snapshot(), l)
      ensures old(made) <= made && (r.Raised? ==> Failed(script, old(made), made))
      ensures KeepsOthers(old(instanceLeases), instanceLeases, l)
      ensures r.Returned? && HasOpen(queue.leases, l) ==> Holds(instanceLeases, l)
      ensures r.Returned? && lease.status in {RevocationRequested, Terminating} && lease.pod.Some? ==>
                IsEnding(queue.leases, l)
      ensures r.Returned? && (status.Stopped? || due) ==> HasRevoked(queue.leases, l)
    {
      hide Core, Legal, Play, Enabled, Apply, CanBecome, Weather, Handled, IsFor, Succeeds, Holds;
      KnownTimes(Snapshot(), l, p);
      AlreadyHandled(Snapshot(), Tables(), l);
      if status in {Absent, Terminated} {
        var _ :- Publish();
        r := CloseTerminated(l, p, lease.pod.Some?, old(Snapshot()));
      } else {
        r := TakeUp(l, lease, p, status, due);
      }
    }

    /** One pass over an open lease, whose deadline has passed if it is `due`: takes its machine up
        again, or closes the lease on evidence, or asks for termination.  The result says whether the provider could be
        asked. */
    method ReconcileLease(l: LeaseId, due: bool) returns (r: Flow<bool>)
      requires Valid() && HasOpen(queue.leases, l)
      modifies this, queue, cloud
      ensures Valid() && old(history) <= history && Handled(old(Snapshot()), Snapshot(), l)
      ensures old(made) <= made && (r.Raised? ==> Failed(script, old(made), made))
      ensures KeepsOthers(old(instanceLeases), instanceLeases, l)
      ensures r == Returned(false) ==>
                || old(queue.leases)[l].provider !in connectors
                || (Unasked(history, |old(history)|, l) && Failed(script, old(made), made))
      ensures r == Returned(true) && HasOpen(queue.leases, l) ==> Holds(instanceLeases, l)
      ensures r == Returned(true) && IsRevokedBound(old(queue.leases), l) ==> IsEnding(queue.leases, l)
      ensures r == Returned(true) && due ==> HasRevoked(queue.leases, l)
    {
      hide Core, Legal, Play, Enabled, Apply, CanBecome, Weather, Handled, IsFor, Succeeds, Holds, Dropped;
      AlreadyHandled(Snapshot(), Tables(), l);
      var lease := queue.leases[l];
      if lease.provider !in connectors {
        return Returned(false);
      }
      var sighting :- Locate(l, lease);
      if sighting.NotAsked? {
        return Returned(false);
      }
      if sighting.Gone? {
        return Returned(true);
      }
      ghost var located := Snapshot();
      var resolved := Resolve(l, sighting.lease, sighting.pod, sighting.status, due);
      HandledThen(old(Snapshot()), located, Snapshot(), l);
      r := if resolved.Raised? then Raised else Returned(true);
    }

    /** Rebuilds the dispatcher's tables from the durable leases: when the pass completes,
        every lease that is still open has its machine in the tables, except those whose
        provider could not be asked. */
    method ReconcileLeases(due: set<LeaseId>) returns (r: Flow<Unit>, ghost missed: set<LeaseId>)
      requires Valid()
      modifies this, queue, cloud
      ensures Valid() && old(history) <= history
      ensures old(made) <= made && (r.Raised? ==> Failed(script, old(made), made))
      ensures queue.leases.Keys == old(queue.leases.Keys) && LeasesLater(old(queue.leases), queue.leases)
      ensures Excused(missed, old(queue.leases), connectors, history, |old(history)|, script, old(made), made)
      ensures r.Returned? ==> forall l | HasOpen(queue.leases, l) && l !in missed :: Holds(instanceLeases, l)
      ensures r.Returned? ==> forall l | IsRevokedBound(old(queue.leases), l) && l !in missed :: IsEnding(queue.leases, l)
      ensures r.Returned? ==> forall l <- old(queue.leases) | l in due && l !in missed :: HasRevoked(queue.leases, l)
    {
      hide Core, Legal, Play, Enabled, Apply, CanBecome, Weather, Handled, IsFor, Succeeds;
      missed := {};
      NoneExcused(queue.leases, connectors, history, script, made);
      hide Excused, Unasked, KeepsOthers;
      var todo := set l | l in queue.leases && IsOpen(queue.leases[l]);
      NoneReconciled(queue.leases, instanceLeases, todo, due);
      hide Reconciled, HasRevoked;
      while todo != {}
        invariant Valid() && old(history) <= history
        invariant Reconciled(old(queue.leases), queue.leases, instanceLeases, todo, missed, due)
        invariant old(made) <= made
        invariant Excused(missed, old(queue.leases), connectors, history, |old(history)|, script, old(made), made)
        decreases todo
      {
        var l :| l in todo;
        ghost var before, past, calls := Snapshot(), history, made;
        SoFarReconciled(old(queue.leases), queue.leases, instanceLeases, todo, missed, due, l);
        var asked := ReconcileLease(l, l in due);
        OneMoreExcused(missed, l, asked == Returned(false), old(queue.leases), before.leases, connectors, past, history,
                       |old(history)|, script, old(made), calls, made);
        if asked.Raised? {
          OthersStayOpen(before, Snapshot(), l);
          LaterThen(old(queue.leases), before.leases, queue.leases);
          return Raised, missed;
        }
        OneMoreReconciled(old(queue.leases), before, Snapshot(), todo, missed, due, l, asked.value);
        if !asked.value {
          missed := missed + {l};
        }
        todo := todo - {l};
      }
      AllReconciled(old(queue.leases), queue.leases, instanceLeases, missed, due);
      r := Returned(Unit);
    }

    /******* Launching *******/

    /** Rents a machine for the lease and takes it up; any call on the way may raise. */
    method TryLaunch(l: LeaseId, now: int) returns (r: Flow<PodId>)
      requires Valid() && CanLaunch(l) && queue.leases[l].provider in connectors
      modifies this, queue, cloud
      ensures Valid() && old(history) <= history && Spares(history, |old(history)|, {})
      ensures old(made) <= made && (r.Raised? ==> Failed(script, old(made), made))
      ensures Handled(old(Snapshot()), Snapshot(), l) && HasOpen(queue.leases, l)
      ensures KeepsOthers(old(instanceLeases), instanceLeases, l)
      ensures r.Returned? ==> r.value in instanceLeases && instanceLeases[r.value] == l
    {
      hide Core, Legal, Play, Enabled, Apply, CanBecome, Weather, Handled, Succeeds, IsFor, Spares;
      AlreadyHandled(Snapshot(), Tables(), l);
      SparesAll(history, {});
      SameEntries(instanceLeases, l);
      hide KeepsOthers;
      var _ :- Publish();
      ghost var past := history;
      var launched := Launch(l);
      OnwardThen(past, history, |old(history)|, {}, {});
      if launched.Raised? {
        return Raised;
      }
      past := history;
      var status: PodStatus := *;
      var published := Publish();
      OnwardThen(past, history, |old(history)|, {}, {});
      if published.Raised? {
        return Raised;
      }
      past := history;
      r := Remember(l, launched.value, status, now, old(Snapshot()));
      OnwardThen(past, history, |old(history)|, {}, {});
    }

    method Remember(l: LeaseId, p: PodId, status: PodStatus, now: int, ghost start: World) returns (r: Flow<PodId>)
      requires Valid() && HasOpen(queue.leases, l) && IsFor(cloud.pods, p, l)
      requires queue.leases[l].provider in connectors
      requires Handled(start, Snapshot(), l) && KeepsOthers(start.memory.leases, instanceLeases, l)
      modifies this, queue, cloud
      ensures Valid() && old(history) <= history && Spares(history, |old(history)|, {})
      ensures old(made) <= made && (r.Raised? ==> Failed(script, old(made), made))
      ensures Handled(start, Snapshot(), l) && HasOpen(queue.leases, l)
      ensures KeepsOthers(start.memory.leases, instanceLeases, l)
      ensures r.Returned? ==> r.value in instanceLeases && instanceLeases[r.value] == l
    {
      hide Core, Legal, Play, Enabled, Apply, CanBecome, Weather, Handled, IsFor;
      ghost var before := Snapshot();
      KnownTimes(before, l, p);
      r := RememberLaunchedInstance(l, p, status, now);
      HandledThen(start, before, Snapshot(), l);
    }

    /** Launches on a fresh lease; after an error, looks for the machine by the lease's name,
        and closes the lease if there is none. */
    method LaunchOn(l: LeaseId, now: int) returns (r: Flow<LaunchOutcome>)
      requires Valid() && CanLaunch(l) && queue.leases[l].provider in connectors
      modifies this, queue, cloud
      ensures Valid() && old(history) <= history && Spares(history, |old(history)|, {})
      ensures old(made) <= made && (r.Raised? ==> Failed(script, old(made), made))
      ensures Handled(old(Snapshot()), Snapshot(), l)
      ensures r == Returned(NoResource) <==> !HasOpen(queue.leases, l)
      ensures r.Returned? && !r.value.Launched? ==> Failed(script, old(made), made)
      ensures r.Returned? && r.value.Launched? ==> r.value.pod in instanceLeases && instanceLeases[r.value.pod] == l
    {
      hide Core, Legal, Play, Enabled, Apply, CanBecome, Weather, Handled, IsFor, KeepsOthers, Spares, Unasked;
      var lease := queue.leases[l];
      AlreadyHandled(Snapshot(), Tables(), l);
      var tried := TryLaunch(l, now);
      if tried.Returned? {
        return Returned(Launched(tried.value));
      }
      StillSucceeds(old(Snapshot()), Snapshot(), l);
      hide CanLaunch, Succeeds;
      ghost var past := history;
      var published := Publish();
      OnwardThen(past, history, |old(history)|, {}, {});
      if published.Raised? {
        return Raised;
      }
      ghost var before := Snapshot();
      past := history;
      var recovered := RecoverProvisioningLease(l, lease);
      OnwardThen(past, history, |old(history)|, {}, {});
      StillSucceeds(before, Snapshot(), l);
      HandledThen(old(Snapshot()), before, Snapshot(), l);
      if recovered.Raised? {
        return Raised;
      }
      if recovered.value.0.Some? {
        past := history;
        r := TakeRecovered(l, recovered.value.0.value, now, old(Snapshot()));
        OnwardThen(past, history, |old(history)|, {}, {});
      } else {
        r := Returned(if recovered.value.1 then NoResource else Uncertain);
      }
    }

    method TakeRecovered(l: LeaseId, found: (PodId, PodStatus), now: int, ghost start: World)
      returns (r: Flow<LaunchOutcome>)
      requires Valid() && HasOpen(queue.leases, l) && IsFor(cloud.pods, found.0, l)
      requires queue.leases[l].provider in connectors && Handled(start, Snapshot(), l)
      modifies this, queue, cloud
      ensures Valid() && old(history) <= history && Spares(history, |old(history)|, {})
      ensures old(made) <= made && (r.Raised? ==> Failed(script, old(made), made))
      ensures Handled(start, Snapshot(), l) && HasOpen(queue.leases, l)
      ensures r.Returned? ==> r.value.Launched? && r.value.pod in instanceLeases && instanceLeases[r.value.pod] == l
    {
      hide Core, Legal, Play, Enabled, Apply, CanBecome, Weather, Handled, IsFor;
      ghost var before := Snapshot();
      var _ :- Publish();
      var p := RememberLaunchedInstance(l, found.0, found.1, now);
      HandledThen(start, before, Snapshot(), l);
      r := if p.Raised? then Raised else Returned(Launched(p.value));
    }

    /** Opens a lease and launches a machine on it; when the provider shows that nothing was
        rented, may try once more on a second lease without the cache.  The key must have no
        open lease, and has at most one afterwards.  With an offer, a lease is created, and a
        machine rented for it unless a call fails. */
    method LaunchWorker(wish: Wish, now: int) returns (r: Flow<Option<PodId>>)
      requires Valid() && KeyIsFree(queue.leases, wish.provider, wish.profile)
      modifies this, queue, cloud
      ensures Valid() && old(history) <= history && Spares(history, |old(history)|, {})
      ensures old(made) <= made && (r.Raised? ==> wish.provider !in connectors || Failed(script, old(made), made))
      ensures old(queue.leases.Keys) <= queue.leases.Keys && LeasesLater(old(queue.leases), queue.leases)
      ensures forall l <- queue.leases | l !in old(queue.leases) ::
                wish.hasOffer && queue.leases[l].provider == wish.provider && queue.leases[l].profile == wish.profile
      ensures r.Returned? && wish.hasOffer ==> exists l <- queue.leases :: l !in old(queue.leases)
      ensures r.Returned? ==>
                AllRented(old(queue.leases), queue.leases, history, |old(history)|, script, old(made), made)
      ensures r.Returned? && r.value.Some? ==>
                r.value.value in instanceLeases && instanceLeases[r.value.value] !in old(queue.leases)
    {
      hide Core, Legal, Play, Enabled, Apply, CanBecome, Weather, Handled, IsFor, KeyIsFree, Succeeds, AllRented;
      LaterAlready(queue.leases);
      NoneRented(queue.leases, queue.leases, history, |history|, script, made, made);
      if wish.provider !in connectors {
        return Raised;
      }
      if !wish.hasOffer {
        return Returned(None);
      }
      var first, l := CreateAndLaunch(wish.provider, wish.profile, now);
      if first.Raised? {
        return Raised;
      }
      if first.value.Launched? {
        return Returned(Some(first.value.pod));
      }
      if first.value.Uncertain? || !wish.mayFallBack || !wish.hasColdOffer {
        return Returned(None);
      }
      FreeAgain(old(queue.leases), queue.leases, wish.provider, wish.profile, l);
      ghost var before, past, calls := queue.leases, history, made;
      var second, cold := CreateAndLaunch(wish.provider, wish.profile, now);
      LaterThen(old(queue.leases), before, queue.leases);
      StillKeyed(before, queue.leases, wish.provider, wish.profile);
      OnwardThen(past, history, |old(history)|, {}, {});
      FailedOnward(script, old(made), calls, made);
      if second.Raised? {
        return Raised;
      }
      AllRentedThen(old(queue.leases), before, queue.leases, past, history, |old(history)|, script, old(made), calls, made);
      r := Returned(if second.value.Launched? then Some(second.value.pod) else None);
    }

    method CreateAndLaunch(provider: string, profile: string, now: int) returns (r: Flow<LaunchOutcome>, l: LeaseId)
      requires Valid() && KeyIsFree(queue.leases, provider, profile) && provider in connectors
      modifies this, queue, cloud
      ensures Valid() && old(history) <= history && Spares(history, |old(history)|, {})
      ensures old(made) <= made && (r.Raised? ==> Failed(script, old(made), made))
      ensures old(queue.leases.Keys) <= queue.leases.Keys <= old(queue.leases.Keys) + {l}
      ensures LeasesLater(old(queue.leases), queue.leases)
      ensures r.Returned? ==> l in queue.leases && l !in old(queue.leases)
      ensures l in queue.leases && l !in old(queue.leases) ==>
                queue.leases[l].provider == provider && queue.leases[l].profile == profile
      ensures r == Returned(NoResource) ==> !HasOpen(queue.leases, l)
      ensures r.Returned? ==>
                AllRented(old(queue.leases), queue.leases, history, |old(history)|, script, old(made), made)
      ensures r.Returned? && r.value.Launched? ==> r.value.pod in instanceLeases && instanceLeases[r.value.pod] == l
    {
      hide Core, Legal, Play, Enabled, Apply, CanBecome, Weather, Handled, IsFor, KeyIsFree;
      l := 0;
      var created :- CreateLease(provider, profile, now);
      l := created;
      ghost var before, past, calls := Snapshot(), history, made;
      hide LeasesLater, CanLaunch;
      r := LaunchOn(l, now);
      OthersStayOpen(before, Snapshot(), l);
      StillSucceeds(before, Snapshot(), l);
      LaterThen(old(queue.leases), before.leases, queue.leases);
      OnwardThen(past, history, |old(history)|, {}, {});
      FailedOnward(script, old(made), calls, made);
      hide Handled, Weather, KeyIsFree, Succeeds, HasOpen, Failed, Rented, AllRented, Spares;
      if r.Returned? {
        assert history[..|old(history)|] == old(history);
        if r.value.Launched? {
          RentedNow(r.value.pod, l, |old(history)|);
        }
        OneRented(old(queue.leases), queue.leases, l, history, |old(history)|, script, old(made), made);
      }
    }

    /** A known machine of a lease that was not in the table at some point was rented since. */
    lemma RentedNow(p: PodId, l: LeaseId, m: nat)
      requires Valid() && p in instanceLeases && instanceLeases[p] == l
      requires m <= |history| && Spares(history, m, {})
      requires Legal(origin, history[..m]) && l !in After(origin, history[..m]).leases
      ensures Rented(history, m, l)
    {
      hide Core, Play, Rented, Spares;
      SparesIsSteady(history, m, {});
      NewMachineIsRented(origin, history, m, p, l);
    }

    /******* Workers *******/

    /** Looks at one known machine: forgets it when it is dead, ends its lease when it
        stopped, and notes its status otherwise. */
    method UpdateWorker(p: PodId) returns (r: Flow<PodStatus>)
      requires Valid() && p in activeInstances
      modifies this, queue, cloud
      ensures Valid() && old(history) <= history && Spares(history, |old(history)|, {p})
      ensures old(made) <= made && (r.Raised? ==> Failed(script, old(made), made))
      ensures LooksAt(old(Snapshot()), Snapshot(), p)
      ensures r.Returned? ==> IsSettled(r.value, p, activeInstances, queue.leases, old(instanceLeases[p]))
      ensures r.Returned? ==> Shown(history, |old(history)|, p, r.value) && Told(script, old(made), made, r.value)
    {
      hide Core, Legal, Play, Enabled, Apply, CanBecome, Handled, Weather, IsFor, Later, IsSettled, LooksAt;
      TrackedPod(Snapshot(), p);
      var l := instanceLeases[p];
      assert instanceProviders[p] in connectors;
      var observed := Inspect(p, l);
      WeatherOnTracked(old(Snapshot()), Snapshot(), l, p);
      HandledIsLater(old(Snapshot()), Snapshot(), l);
      if observed.Raised? {
        NothingLooked(old(Snapshot()), Snapshot(), p);
        return Raised;
      }
      hide Shown;
      ghost var past := history;
      var settled := Settle(l, p, observed.value, old(Snapshot()));
      RecordGrows(past, history, |old(history)|, |old(history)|);
      RecordGrows(history, history, |past|, |old(history)|);
      r := if settled.Raised? then Raised else observed;
    }

    /** Acts on the status of a known machine. */
    method Settle(l: LeaseId, p: PodId, status: PodStatus, ghost start: World) returns (r: Flow<Unit>)
      requires Valid() && p in activeInstances && p in instanceLeases && instanceLeases[p] == l
      requires l in queue.leases && IsFor(cloud.pods, p, l) && (!IsLive(status) ==> p in reported)
      requires Handled(start, Snapshot(), l) && Tables() == start.memory
      modifies this, queue, cloud
      ensures Valid() && old(history) <= history && Spares(history, |old(history)|, {p})
      ensures old(made) <= made && (r.Raised? ==> Failed(script, old(made), made))
      ensures LooksAt(start, Snapshot(), p)
      ensures r.Returned? ==> IsSettled(status, p, activeInstances, queue.leases, l)
    {
      hide Core, Legal, Play, Enabled, Apply, CanBecome, Handled, Weather, Later, Spares, LooksAt;
      ghost var seen := Snapshot();
      SparesAll(history, {p});
      hide IsFor;
      if status in {Absent, Terminated} {
        r := SettleDead(l, p, start);
      } else if status.Stopped? {
        OwnProvider(p);
        r := RevokeAndTerminate(l, p);
        HandledThen(start, seen, Snapshot(), l);
        DroppedLooks(start, Snapshot(), l, p);
      } else {
        activeInstances := activeInstances[p := status];
        RecordRefresh(seen, p, status);
        HandledIgnoresMemory(start, seen, Tables(), l);
        RefreshedLooks(start, Snapshot(), l, p, status);
        r := Returned(Unit);
      }
    }

    /** Requeues the jobs of a machine seen dead, closes its lease and forgets it. */
    method SettleDead(l: LeaseId, p: PodId, ghost start: World) returns (r: Flow<Unit>)
      requires Valid() && p in activeInstances && p in instanceLeases && instanceLeases[p] == l
      requires l in queue.leases && IsFor(cloud.pods, p, l) && p in reported
      requires Handled(start, Snapshot(), l) && Tables() == start.memory
      modifies this, queue, cloud
      ensures Valid() && old(history) <= history && Spares(history, |old(history)|, {p})
      ensures old(made) <= made && (r.Raised? ==> Failed(script, old(made), made))
      ensures LooksAt(start, Snapshot(), p)
      ensures r.Returned? ==> p !in activeInstances && l in queue.leases && !HasOpen(queue.leases, l)
    {
      hide Core, Legal, Play, Enabled, Apply, CanBecome, Handled, Weather, Later, Spares, LooksAt, IsFor;
      SparesAll(history, {p});
      var published := Publish();
      ghost var past := history;
      OnwardThen(old(history), history, |old(history)|, {}, {p});
      if published.Raised? {
        DroppedLooks(start, Snapshot(), l, p);
        return Raised;
      }
      r := CloseTerminated(l, p, true, start);
      OnwardThen(past, history, |old(history)|, {}, {p});
      DroppedLooks(start, Snapshot(), l, p);
    }

    ghost method RecordRefresh(before: World, p: PodId, status: PodStatus)
      requires Core(origin) && Legal(origin, history)
      requires After(origin, history) == before && Core(before)
      requires p in before.memory.active
      requires Snapshot() == before.(memory := before.memory.(active := before.memory.active[p := status]))
      requires forall q <- instanceProviders :: instanceProviders[q] in connectors
      modifies this`history
      ensures Valid() && history == old(history) + [Refresh(p, status)]
      ensures forall n: nat, victims: set<PodId> | n <= |old(history)| && Spares(old(history), n, victims) ::
                Spares(history, n, victims)
    {
      hide Core, Legal, Play, Tracked, Forgotten, KeyIsFree, IsFor;
      Record(before, Refresh(p, status));
    }

    /** Looks at every known machine; only machines that the provider showed dead are
        forgotten, and only known ones are terminated. */
    method UpdateWorkers() returns (r: Flow<Unit>, ghost seen: map<PodId, PodStatus>)
      requires Valid()
      modifies this, queue, cloud
      ensures Valid() && old(history) <= history && Spares(history, |old(history)|, old(activeInstances.Keys))
      ensures old(made) <= made && (r.Raised? ==> Failed(script, old(made), made))
      ensures queue.leases.Keys == old(queue.leases.Keys) && Later(old(Snapshot()), Snapshot())
      ensures activeInstances.Keys <= old(activeInstances.Keys) == old(instanceLeases.Keys)
      ensures forall p <- old(activeInstances) | p !in activeInstances :: p in reported
      ensures r.Returned? ==> seen.Keys == old(activeInstances.Keys)
      ensures r.Returned? ==>
                forall p <- activeInstances ::
                  p in old(instanceLeases) && WasLookedAt(history, |old(history)|, p, queue.leases, old(instanceLeases)[p])
      ensures WereSeen(seen, history, |old(history)|, script, old(made), made)
      ensures forall p <- seen ::
                  p in old(instanceLeases) && IsSettled(seen[p], p, activeInstances, queue.leases, old(instanceLeases)[p])
    {
      hide Core, Legal, Play, Enabled, Apply, CanBecome, Later, IsSettled, Spares, WereSeen, Failed;
      SameTables(Snapshot());
      r, seen := SurveyWorkers();
      if r.Returned? {
        KnownAreAlive(seen, history, |old(history)|, script, old(made), made, old(instanceLeases), activeInstances, queue.leases);
      }
    }

    /** The loop over the known machines. */
    method SurveyWorkers() returns (r: Flow<Unit>, ghost seen: map<PodId, PodStatus>)
      requires Valid()
      modifies this, queue, cloud
      ensures Valid() && old(history) <= history && Spares(history, |old(history)|, old(activeInstances.Keys))
      ensures old(made) <= made && (r.Raised? ==> Failed(script, old(made), made))
      ensures Survived(old(Snapshot()), Snapshot()) && AllSettled(old(Snapshot()), Snapshot(), seen)
      ensures WereSeen(seen, history, |old(history)|, script, old(made), made)
      ensures r.Returned? ==> seen.Keys == old(activeInstances.Keys)
    {
      hide Core, Legal, Play, Enabled, Apply, CanBecome, Later, IsSettled;
      seen := map[];
      var todo := activeInstances.Keys;
      SameTables(Snapshot());
      NoneSurveyed(Snapshot(), history, script, made);
      hide Surveyed, WereSeen, Spares, Shown, Told, LooksAt, EntriesOf, Failed, Survived, AllSettled;
      while todo != {}
        invariant Valid() && old(history) <= history && Spares(history, |old(history)|, old(activeInstances.Keys))
        invariant todo <= old(activeInstances.Keys) && todo <= activeInstances.Keys
        invariant Surveyed(old(Snapshot()), Snapshot(), todo, seen)
        invariant old(made) <= made && WereSeen(seen, history, |old(history)|, script, old(made), made)
        decreases todo
      {
        var p :| p in todo;
        ghost var before, past, calls := Snapshot(), history, made;
        var updated := UpdateWorker(p);
        OnwardThen(past, history, |old(history)|, {p}, old(activeInstances.Keys));
        if updated.Raised? {
          RecordGrows(history, history, |past|, |old(history)|);
          SeenGrows(seen, past, history, |old(history)|, script, old(made), calls, made);
          FailedLater(script, calls, made, old(made));
          SurveyEnds(old(Snapshot()), before, Snapshot(), todo, seen, p);
          return Raised, seen;
        }
        OneMoreSeen(seen, p, updated.value, past, history, |old(history)|, script, old(made), calls, made);
        OneMoreSurveyed(old(Snapshot()), before, Snapshot(), todo, seen, p, updated.value);
        seen := seen[p := updated.value];
        todo := todo - {p};
      }
      SurveyDone(old(Snapshot()), Snapshot(), seen);
      r := Returned(Unit);
    }

    /** Revokes the lease of a known machine and has the machine terminated; a known machine
        always has a lease. */
    method TerminateWorker(p: PodId) returns (r: Flow<Unit>)
      requires Valid() && p in activeInstances
      modifies this, queue, cloud
      ensures Valid() && old(history) <= history && Spares(history, |old(history)|, {p})
      ensures old(made) <= made && (r.Raised? ==> Failed(script, old(made), made))
      ensures queue.leases.Keys == old(queue.leases.Keys) && Later(old(Snapshot()), Snapshot())
      ensures Tables() == old(Tables()) || Tables() == Forgotten(old(Tables()), p)
      ensures readyInstances - {p} == old(readyInstances) - {p}
      ensures p in activeInstances ==> readyInstances == old(readyInstances)
      ensures p in old(instanceLeases)
      ensures r.Returned? ==> HasRevoked(queue.leases, old(instanceLeases)[p])
    {
      hide Core, Legal, Play, Enabled, Apply, CanBecome, Handled, Weather, IsFor, Later;
      TrackedPod(Snapshot(), p);
      var l := instanceLeases[p];
      OwnProvider(p);
      r := RevokeAndTerminate(l, p);
      HandledIsLater(old(Snapshot()), Snapshot(), l);
    }

    method CheckUnregisteredWorker(p: PodId, launched: int, now: int, registered: set<PodId>, notStarted: set<PodId>)
      returns (r: Flow<Unit>)
      requires Valid() && p in activeInstances
      modifies this, queue, cloud
      ensures Valid() && old(history) <= history
      ensures old(made) <= made && (r.Raised? ==> Failed(script, old(made), made))
      ensures Spares(history, |old(history)|, if IsOverdue(p, launched, now, registered, notStarted) then {p} else {})
      ensures LeavesOthers(old(Snapshot()), Snapshot(), p)
      ensures r.Returned? && IsOverdue(p, launched, now, registered, notStarted) ==>
                p in old(instanceLeases) && HasRevoked(queue.leases, old(instanceLeases)[p])
    {
      hide Core, Legal, Play, Enabled, Apply, Later, Forgotten, Spares, HasRevoked;
      ghost var victims := if IsOverdue(p, launched, now, registered, notStarted) then {p} else {};
      AlreadyLater(Snapshot());
      SparesAll(history, victims);
      if p in registered {
        return Returned(Unit);
      }
      var published := Publish();
      OnwardThen(old(history), history, |old(history)|, {}, victims);
      if published.Raised? {
        return Raised;
      }
      if (p in notStarted && now - launched > RUNNER_CONTAINER_START_TIMEOUT_SECONDS)
         || now - launched > RUNNER_REGISTRATION_TIMEOUT_SECONDS {
        ghost var before, past := Snapshot(), history;
        r := TerminateWorker(p);
        OnwardThen(past, history, |old(history)|, {p}, victims);
        OtherEntriesStay(before.memory, Tables(), p);
        LeasesOnlyDrop(before.memory, Tables(), p);
      } else {
        r := Returned(Unit);
      }
    }

    /** Ends the leases of machines whose runner never called home: those whose container
        did not start within ten minutes, and those not registered within an hour. */
    method CheckUnregisteredWorkers(now: int, registered: set<PodId>, notStarted: set<PodId>) returns (r: Flow<Unit>)
      requires Valid()
      modifies this, queue, cloud
      ensures Valid() && old(history) <= history
      ensures old(made) <= made && (r.Raised? ==> Failed(script, old(made), made))
      ensures Spares(history, |old(history)|, Overdue(old(launchedAt), now, registered, notStarted))
      ensures queue.leases.Keys == old(queue.leases.Keys) && Later(old(Snapshot()), Snapshot())
      ensures OnlyDrops(old(instanceLeases), instanceLeases)
      ensures r.Returned? ==>
                AllRevoked(Overdue(old(launchedAt), now, registered, notStarted), old(instanceLeases), queue.leases)
    {
      hide Core, Legal, Play, Enabled, Apply, Later, HasRevoked, Spares;
      var started := launchedAt;
      ghost var overdue := Overdue(started, now, registered, notStarted);
      SparesAll(history, overdue);
      SameTables(Snapshot());
      NoneInspected(Snapshot(), overdue);
      hide LeavesOthers, Watched, AllRevoked, EntriesOf, IsOverdue, OnlyDrops;
      var todo := started.Keys;
      while todo != {}
        invariant Valid() && old(history) <= history && Spares(history, |old(history)|, overdue)
        invariant todo <= started.Keys && todo <= activeInstances.Keys
        invariant Watched(old(Snapshot()), Snapshot(), todo, overdue) && old(made) <= made
        decreases todo
      {
        var p :| p in todo;
        ghost var before, past := Snapshot(), history;
        var checked := CheckUnregisteredWorker(p, started[p], now, registered, notStarted);
        OnwardThen(past, history, |old(history)|, if p in overdue then {p} else {}, overdue);
        if checked.Raised? {
          WatchLater(old(Snapshot()), before, Snapshot(), todo, overdue, p);
          return Raised;
        }
        OneMoreWatched(old(Snapshot()), before, Snapshot(), todo, overdue, p);
        todo := todo - {p};
      }
      WatchDone(old(Snapshot()), Snapshot(), overdue);
      r := Returned(Unit);
    }

    method CheckIdleWorker(p: PodId, last: int, now: int, clock: Clock) returns (r: Flow<Unit>)
      requires Valid() && p in activeInstances && p in lastActivity && last == lastActivity[p]
      modifies this, queue, cloud
      ensures Valid() && old(history) <= history
      ensures old(made) <= made && (r.Raised? ==> Failed(script, old(made), made))
      ensures Spares(history, |old(history)|, if IsIdle(p, last, now, clock, old(readyInstances)) then {p} else {})
      ensures ChecksOne(old(Snapshot()), Snapshot(), p, now, clock, old(readyInstances), readyInstances)
      ensures r.Returned? && IsIdle(p, last, now, clock, old(readyInstances)) ==>
                HasRevoked(queue.leases, old(instanceLeases[p]))
    {
      hide Core, Legal, Play, Enabled, Apply, Later, Forgotten;
      AlreadyLater(Snapshot());
      TrackedPod(Snapshot(), p);
      if p in clock.ready {
        readyInstances := readyInstances + {p};
      }
      var isStarting := p in clock.starting && p !in readyInstances;
      if isStarting || p in clock.working {
        Touch(p, now);
        r := Returned(Unit);
      } else if now - last > clock.threshold {
        ghost var before, wasReady := Snapshot(), readyInstances;
        r := TerminateWorker(p);
        OtherEntriesStay(before.memory, Tables(), p);
        SameBut(wasReady, readyInstances, p);
        OtherTimesStay(before.memory, Tables(), p);
        LeasesOnlyDrop(before.memory, Tables(), p);
      } else {
        r := Returned(Unit);
      }
    }

    /** Ends the leases of machines that were idle for too long, and no others.  A machine is
        busy while jobs need its profile, or while its runner starts for the first time. */
    method CheckIdleWorkers(now: int, clock: Clock) returns (r: Flow<Unit>)
      requires Valid()
      modifies this, queue, cloud
      ensures Valid() && old(history) <= history
      ensures old(made) <= made && (r.Raised? ==> Failed(script, old(made), made))
      ensures clock.keepWarm ==> history == old(history) && Snapshot() == old(Snapshot())
      ensures Spares(history, |old(history)|, old(IdlePods(now, clock)))
      ensures queue.leases.Keys == old(queue.leases.Keys) && Later(old(Snapshot()), Snapshot())
      ensures r.Returned? && !clock.keepWarm ==>
                && AllRevoked(old(IdlePods(now, clock)), old(instanceLeases), queue.leases)
                && AllChecked(old(lastActivity.Keys), now, clock, old(lastActivity), old(readyInstances), lastActivity, readyInstances)
      ensures OnlyDrops(old(instanceLeases), instanceLeases)
    {
      hide Core, Legal, Play, Enabled, Apply, Later, HasRevoked, WasChecked, IsBusy, IsIdle, AllRevoked, AllChecked;
      hide Spares;
      ghost var idle := IdlePods(now, clock);
      SparesAll(history, idle);
      AlreadyLater(Snapshot());
      SameTables(Snapshot());
      NonePatrolled(Snapshot(), idle, now, clock, readyInstances);
      hide Patrolled, ChecksOne, OnlyDrops;
      if clock.keepWarm {
        PatrolIsLater(Snapshot(), Snapshot(), lastActivity.Keys, idle, now, clock, readyInstances, readyInstances);
        return Returned(Unit);
      }
      var published := Publish();
      OnwardThen(old(history), history, |old(history)|, {}, idle);
      if published.Raised? {
        PatrolIsLater(Snapshot(), Snapshot(), lastActivity.Keys, idle, now, clock, readyInstances, readyInstances);
        return Raised;
      }
      var last := lastActivity;
      var todo := last.Keys;
      while todo != {}
        invariant Valid() && old(history) <= history && Spares(history, |old(history)|, idle)
        invariant todo <= last.Keys && todo <= activeInstances.Keys
        invariant Patrolled(old(Snapshot()), Snapshot(), todo, idle, now, clock, old(readyInstances), readyInstances)
        invariant old(made) <= made
        decreases todo
      {
        var p :| p in todo;
        ghost var before, wasReady, past := Snapshot(), readyInstances, history;
        PatrolAgrees(old(Snapshot()), before, todo, idle, now, clock, old(readyInstances), readyInstances, p);
        var checked := CheckIdleWorker(p, last[p], now, clock);
        OnwardThen(past, history, |old(history)|, if p in idle then {p} else {}, idle);
        RecordGrows(history, history, |past|, |old(history)|);
        if checked.Raised? {
          PatrolEnds(old(Snapshot()), before, Snapshot(), todo, idle, now, clock, old(readyInstances), wasReady, readyInstances, p);
          return Raised;
        }
        OneMorePatrolled(old(Snapshot()), before, Snapshot(), todo, idle, now, clock, old(readyInstances), wasReady,
                         readyInstances, p);
        todo := todo - {p};
      }
      PatrolIsLater(old(Snapshot()), Snapshot(), {}, idle, now, clock, old(readyInstances), readyInstances);
      r := Returned(Unit);
    }

    ghost function IdlePods(now: int, clock: Clock): set<PodId>
      reads this
    {
      IdleAmong(lastActivity, now, clock, readyInstances)
    }

    method Touch(p: PodId, now: int)
      requires Valid() && p in activeInstances
      modifies this`lastActivity, this`history
      ensures Valid() && old(history) <= history && Spares(history, |old(history)|, {})
      ensures lastActivity == old(lastActivity)[p := now]
      ensures Later(old(Snapshot()), Snapshot())
    {
      hide Core, Legal, Play, Tracked, Forgotten, KeyIsFree, IsFor;
      TrackedPod(Snapshot(), p);
      lastActivity := lastActivity[p := now];
      Record(old(Snapshot()), LeaseProtocol.Touch(p, now));
      StepIsLater(old(Snapshot()), LeaseProtocol.Touch(p, now));
    }

    /** One iteration: takes up what is durable, launches for queued work whose key has no
        machine, worker or open lease, and checks the known machines.  After a complete one,
        the machine of every lease that was open and still is is known, the leases that were
        revoked or whose deadline has passed are being ended, except for those whose provider
        nobody knows or about which a call failed.  For every wish with an offer someone worked
        on its key, or a lease was created, and a machine rented for it unless a call failed.
        Every known machine was shown alive, and those that stopped, never called home or were
        idle for too long are being ended. */
    method Tick(due: set<LeaseId>, wanted: seq<Wish>, workers: set<(string, string)>, now: int, clock: Clock)
      returns (r: Flow<Unit>, ghost missed: set<LeaseId>)
      requires Valid()
      modifies this, queue, cloud
      ensures Valid() && old(history) <= history
      ensures old(made) <= made && (r.Raised? ==> Failed(script, old(made), made))
      ensures old(queue.leases.Keys) <= queue.leases.Keys && LeasesLater(old(queue.leases), queue.leases)
      ensures OnlyWanted(old(queue.leases), queue.leases, wanted)
      ensures Excused(missed, old(queue.leases), connectors, history, |old(history)|, script, old(made), made)
      ensures r.Returned? ==> TakenUp(old(queue.leases), Snapshot(), missed, due)
      ensures r.Returned? ==>
                && AllServed(wanted, |wanted|, connectors, workers, old(Snapshot()), history, |old(history)|)
                && AllRented(old(queue.leases), queue.leases, history, |old(history)|, script, old(made), made)
      ensures r.Returned? ==>
                forall p <- activeInstances :: IsLookedAfter(Snapshot(), p, now, clock, history, |old(history)|)
    {
      hide Core, Legal, Play, Enabled, Apply, Later, Handled, LeasesLater, HasRevoked, KeyIsFree, Excused, Failed;
      hide AllServed, AllRented, IsLookedAfter, HasOpen, Holds, IsRevokedBound, IsEnding, OnlyWanted;
      var reconciled: Flow<Unit>;
      reconciled, missed := ReconcileLeases(due);
      NothingNew(old(queue.leases), queue.leases, wanted);
      if reconciled.Raised? {
        return Raised, missed;
      }
      assert TakenUp(old(queue.leases), Snapshot(), missed, due);
      hide TakenUp, IsSteady, Spares;
      NoneRented(old(queue.leases), queue.leases, history, |old(history)|, script, old(made), made);
      assert history[..|old(history)|] == old(history);
      ghost var taken, calls := history, made;
      var launched := LaunchWanted(wanted, workers, now, old(Snapshot()), |old(history)|, old(made));
      ExcusedStays(missed, old(queue.leases), connectors, taken, history, |old(history)|, script, old(made), calls, made);
      FailedOnward(script, old(made), calls, made);
      WantedGrows(old(queue.leases), queue.leases, wanted);
      if launched.Raised? {
        return Raised, missed;
      }
      SparesIsSteady(history, |taken|, {});
      ghost var launches, rented, again := history, queue.leases, made;
      r := CheckWorkers(now, clock, wanted, old(queue.leases));
      WantedGrows(old(queue.leases), queue.leases, wanted);
      ExcusedStays(missed, old(queue.leases), connectors, launches, history, |old(history)|, script, old(made), again, made);
      FailedOnward(script, old(made), again, made);
      SteadyThen(launches, history, |taken|);
      assert history[..|taken|] == taken;
      TakenUpStays(old(queue.leases), origin, history, |taken|, missed, due);
      AllServedStays(wanted, |wanted|, connectors, workers, old(Snapshot()), launches, history, |old(history)|);
      NoneRented(rented, queue.leases, history, |launches|, script, again, made);
      AllRentedThen(old(queue.leases), rented, queue.leases, launches, history, |old(history)|, script, old(made), again, made);
      if r.Returned? {
        forall p <- activeInstances ensures IsLookedAfter(Snapshot(), p, now, clock, history, |old(history)|) {
          LookedAfterSince(Snapshot(), p, now, clock, history, |launches|, |old(history)|);
        }
      }
    }

    /** Launches for every wish whose key has no machine, worker or open lease. */
    method LaunchWanted(wanted: seq<Wish>, workers: set<(string, string)>, now: int, ghost start: World,
                        ghost from: nat,
                        ghost calls: nat)
      returns (r: Flow<Unit>)
      requires Valid() && OnlyWanted(start.leases, queue.leases, wanted) && LeasesLater(start.leases, queue.leases)
      requires from <= |history| && Legal(origin, history[..from]) && After(origin, history[..from]) == start
      requires calls <= made && AllRented(start.leases, queue.leases, history, from, script, calls, made)
      modifies this, queue, cloud
      ensures Valid() && old(history) <= history && Spares(history, |old(history)|, {})
      ensures old(made) <= made && (r.Raised? ==> Failed(script, old(made), made))
      ensures OnlyWanted(start.leases, queue.leases, wanted) && LeasesLater(start.leases, queue.leases)
      ensures r.Returned? ==> AllServed(wanted, |wanted|, connectors, workers, start, history, from)
      ensures r.Returned? ==> AllRented(start.leases, queue.leases, history, from, script, calls, made)
    {
      hide Core, Legal, Play, Enabled, Apply, Later, Handled, OnlyWanted, LeasesLater, AllServed, AllRented, Spares, Failed;
      hide Started, KeyIsFree;
      SparesAll(history, {});
      NoneServed(wanted, connectors, workers, start, history, from);
      for i := 0 to |wanted|
        invariant Valid() && old(history) <= history && old(made) <= made && Spares(history, |old(history)|, {})
        invariant OnlyWanted(start.leases, queue.leases, wanted) && LeasesLater(start.leases, queue.leases)
        invariant AllServed(wanted, i, connectors, workers, start, history, from)
        invariant AllRented(start.leases, queue.leases, history, from, script, calls, made)
      {
        assert history[..from] == old(history)[..from];
        var running :=
          || (exists p <- activeInstances ::
                p in instanceProviders && instanceProviders[p] == wanted[i].provider
                && p in instanceProfiles && instanceProfiles[p] == wanted[i].profile)
          || (wanted[i].provider, wanted[i].profile) in workers
          || !KeyIsFree(queue.leases, wanted[i].provider, wanted[i].profile);
        assert running <==> IsServed(Tables(), queue.leases, workers, wanted[i].provider, wanted[i].profile);
        hide IsServed;
        if wanted[i].provider in connectors && !running {
          ghost var before, past, made0 := queue.leases, history, made;
          var launched := LaunchOne(wanted, i, now, start.leases);
          OnwardThen(past, history, |old(history)|, {}, {});
          FailedOnward(script, old(made), made0, made);
          if launched.Raised? {
            return Raised;
          }
          AllRentedThen(start.leases, before, queue.leases, past, history, from, script, calls, made0, made);
          OneMoreServed(wanted, i, connectors, workers, start, past, history, from);
        } else {
          if running {
            StillServed(from, workers, wanted[i].provider, wanted[i].profile);
          }
          OneMoreServed(wanted, i, connectors, workers, start, history, history, from);
        }
      }
      r := Returned(Unit);
    }

    /** A key that is served now was served then, or a lease was created for it since. */
    lemma StillServed(from: nat, workers: set<(string, string)>, provider: string, profile: string)
      requires Valid() && from <= |history| && Legal(origin, history[..from])
      requires IsServed(Tables(), queue.leases, workers, provider, profile)
      ensures var start := After(origin, history[..from]);
              || IsServed(start.memory, start.leases, workers, provider, profile)
              || Started(history, from, provider, profile)
    {
      hide Core, Play, Started, IsServed;
      ServedOrStarted(origin, history, from, workers, provider, profile);
    }

    /** Launches for one wish; with an offer, a lease is created for its key. */
    method LaunchOne(wanted: seq<Wish>, i: nat, now: int, ghost start: map<LeaseId, Lease>)
      returns (r: Flow<Option<PodId>>)
      requires Valid() && i < |wanted| && OnlyWanted(start, queue.leases, wanted) && LeasesLater(start, queue.leases)
      requires wanted[i].provider in connectors && KeyIsFree(queue.leases, wanted[i].provider, wanted[i].profile)
      modifies this, queue, cloud
      ensures Valid() && old(history) <= history && Spares(history, |old(history)|, {})
      ensures old(made) <= made && (r.Raised? ==> Failed(script, old(made), made))
      ensures OnlyWanted(start, queue.leases, wanted) && LeasesLater(start, queue.leases)
      ensures r.Returned? ==>
                AllRented(old(queue.leases), queue.leases, history, |old(history)|, script, old(made), made)
      ensures r.Returned? && wanted[i].hasOffer ==>
                forall from: nat | from <= |old(history)| :: Started(history, from, wanted[i].provider, wanted[i].profile)
    {
      hide Core, Legal, Play, Enabled, Apply, Later, Handled, OnlyWanted, LeasesLater, AllRented, Spares, Failed, Started;
      hide KeyIsFree;
      ghost var before := queue.leases;
      r := LaunchWorker(wanted[i], now);
      LaterThen(start, before, queue.leases);
      StillWanted(start, before, queue.leases, wanted, i);
      if r.Returned? && wanted[i].hasOffer {
        ghost var l :| l in queue.leases && l !in old(queue.leases);
        assert history[..|old(history)|] == old(history);
        forall from: nat | from <= |old(history)| ensures Started(history, from, wanted[i].provider, wanted[i].profile) {
          NewLeaseIsStarted(origin, history, |old(history)|, from, l);
        }
      }
    }

    /** Looks at the known machines, and ends the leases of those that never called home or
        were idle for too long. */
    method CheckWorkers(now: int, clock: Clock, wanted: seq<Wish>, ghost start: map<LeaseId, Lease>)
      returns (r: Flow<Unit>)
      requires Valid() && OnlyWanted(start, queue.leases, wanted) && LeasesLater(start, queue.leases)
      modifies this, queue, cloud
      ensures Valid() && old(history) <= history && IsSteady(history, |old(history)|)
      ensures old(made) <= made && (r.Raised? ==> Failed(script, old(made), made))
      ensures queue.leases.Keys == old(queue.leases.Keys)
      ensures OnlyWanted(start, queue.leases, wanted) && LeasesLater(start, queue.leases)
      ensures r.Returned? ==>
                forall p <- activeInstances :: IsLookedAfter(Snapshot(), p, now, clock, history, |old(history)|)
    {
      hide Core, Legal, Play, Enabled, Apply, Handled, OnlyWanted, LeasesLater, PodsLater, HasRevoked, IsSteady, Spares;
      hide WasLookedAt, AllRevoked, AllChecked, OnlyDrops, IsLookedAfter, IsSettled, WereSeen, Failed;
      var updated, seen := UpdateWorkers();
      SameLeases(start, old(queue.leases), queue.leases, wanted);
      SparesIsSteady(history, |old(history)|, old(activeInstances.Keys));
      if updated.Raised? {
        return Raised;
      }
      ghost var a, looked, made0 := Snapshot(), history, made;
      var checked := CheckUnregisteredWorkers(now, clock.registered, clock.notStarted);
      SameLeases(start, a.leases, queue.leases, wanted);
      SparesIsSteady(history, |looked|, Overdue(a.memory.launchedAt, now, clock.registered, clock.notStarted));
      SteadyThen(looked, history, |old(history)|);
      FailedOnward(script, old(made), made0, made);
      if checked.Raised? {
        return Raised;
      }
      ghost var b, watched, made1 := Snapshot(), history, made;
      ghost var ready, idle := readyInstances, IdlePods(now, clock);
      r := CheckIdleWorkers(now, clock);
      SameLeases(start, b.leases, queue.leases, wanted);
      SparesIsSteady(history, |watched|, idle);
      SteadyThen(watched, history, |old(history)|);
      FailedOnward(script, old(made), made1, made);
      if r.Returned? {
        forall p <- activeInstances ensures IsLookedAfter(Snapshot(), p, now, clock, history, |old(history)|) {
          AfterTheChecks(old(Snapshot()), a, b, p, now, clock, ready, looked, |old(history)|);
        }
      }
    }

    /** A machine that is known after the three checks. */
    lemma AfterTheChecks(start: World, a: World, b: World, p: PodId, now: int, clock: Clock, ready: set<PodId>,
                         looked: seq<Step>, from: nat)
      requires Valid() && Core(start) && Core(a) && Core(b) && p in activeInstances && looked <= history
      requires Later(start, a) && Later(a, b) && Later(b, Snapshot())
      requires OnlyDrops(a.memory.leases, b.memory.leases) && OnlyDrops(b.memory.leases, instanceLeases)
      requires p in a.memory.active ==>
                 p in start.memory.leases && WasLookedAt(looked, from, p, a.leases, start.memory.leases[p])
      requires AllRevoked(Overdue(a.memory.launchedAt, now, clock.registered, clock.notStarted), a.memory.leases, b.leases)
      requires !clock.keepWarm ==>
                 && AllRevoked(IdleAmong(b.memory.lastActivity, now, clock, ready), b.memory.leases, queue.leases)
                 && AllChecked(b.memory.lastActivity.Keys, now, clock, b.memory.lastActivity, ready, lastActivity, readyInstances)
      ensures IsLookedAfter(Snapshot(), p, now, clock, history, from)
    {
      hide Core, Play, Later, WasLookedAt, HasRevoked, IsLookedAfter, IsOverdue;
      KeyOfEntry(Snapshot(), p);
      SameTables(b);
      SameTables(Snapshot());
      if !clock.keepWarm && clock.threshold >= 0 {
        ActiveOrRevoked(p, now, clock, b.memory.lastActivity[p], ready, lastActivity, readyInstances);
      }
      LookedAfter(start, a, b, Snapshot(), p, now, clock, looked, history, from);
    }

    /** Wherever the dispatcher is interrupted, no paid machine is orphaned, if the provider has
        not misled it so far. */
    lemma InterruptedAnywhere(n: nat)
      requires Valid() && Honest(origin, history) && NoOrphan(origin) && AnswersAreTrue(origin)
      requires n <= |history|
      ensures var run := history[..n] + [Crash];
              Legal(origin, run) && Core(After(origin, run)) && NoOrphan(After(origin, run))
    {
      hide Core, Enabled, Apply, Play, Honest;
      NoPaidOrphan(origin, history, n);
      Restarted(origin, history[..n]);
      RunKeepsCore(origin, history[..n] + [Crash]);
    }
  }
}
