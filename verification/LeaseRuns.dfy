/** What a stretch of a run does to the dispatcher's tables and to the leases: what it keeps
    known, and where what is new comes from. */
module LeaseRuns {
  import opened Prelude
  import opened LeaseProtocol
  import opened LeaseRelations

  /** Someone works on the key: a known machine, a registered worker, or an open lease. */
  ghost predicate IsServed(m: Memory, leases: map<LeaseId, Lease>, workers: set<(string, string)>, provider: string,
                           profile: string) {
    HasMachine(m, provider, profile) || (provider, profile) in workers || !KeyIsFree(leases, provider, profile)
  }

  predicate HasMachine(m: Memory, provider: string, profile: string) {
    exists p <- m.active :: p in m.providers && m.providers[p] == provider && p in m.profiles && m.profiles[p] == profile
  }

  /** From step `from` on, a lease was created for the key. */
  ghost predicate Started(steps: seq<Step>, from: nat, provider: string, profile: string) {
    exists n :: from <= n < |steps| && steps[n].Create? && steps[n].provider == provider && steps[n].profile == profile
  }

  /** From step `from` on, a machine was rented for the lease. */
  ghost predicate Rented(steps: seq<Step>, from: nat, l: LeaseId) {
    exists n :: from <= n < |steps| && steps[n].Launch? && steps[n].lease == l
  }

  lemma StartedStays(steps: seq<Step>, steps': seq<Step>, from: nat, provider: string, profile: string)
    requires steps <= steps' && Started(steps, from, provider, profile)
    ensures Started(steps', from, provider, profile)
  {
    var n :| from <= n < |steps| && steps[n].Create? && steps[n].provider == provider && steps[n].profile == profile;
    assert steps'[n] == steps[n];
  }

  lemma RentedStays(steps: seq<Step>, steps': seq<Step>, from: nat, l: LeaseId)
    requires steps <= steps' && Rented(steps, from, l)
    ensures Rented(steps', from, l)
  {
    var n :| from <= n < |steps| && steps[n].Launch? && steps[n].lease == l;
    assert steps'[n] == steps[n];
  }

  /******* What stays *******/

  lemma StepKeepsOpenEntries(w: World, s: Step)
    requires Core(w) && Enabled(w, s) && !s.Crash?
    ensures forall p <- w.memory.leases | HasOpen(Apply(w, s).leases, w.memory.leases[p]) ::
              p in Apply(w, s).memory.leases && Apply(w, s).memory.leases[p] == w.memory.leases[p]
  {
    hide KeyIsFree, NamesAreLeases, OneLaunchEach, BoundToOwn, SingleFlight, KnownUnseen;
  }

  /** While a lease is open, its machine is not forgotten. */
  lemma {:induction false} KnownWhileOpen(origin: World, steps: seq<Step>, m: nat)
    requires Core(origin) && Legal(origin, steps) && m <= |steps| && IsSteady(steps, m)
    ensures Legal(origin, steps[..m])
    ensures var w, w' := After(origin, steps[..m]), After(origin, steps);
            forall p <- w.memory.leases | HasOpen(w'.leases, w.memory.leases[p]) ::
              p in w'.memory.leases && w'.memory.leases[p] == w.memory.leases[p]
    decreases |steps|
  {
    hide Core, Enabled, Apply;
    PrefixIsLegal(origin, steps, m);
    if m < |steps| {
      var front := steps[..|steps| - 1];
      assert front[..m] == steps[..m];
      KnownWhileOpen(origin, front, m);
      RunKeepsCore(origin, front);
      var w := After(origin, front);
      StepKeepsOpenEntries(w, steps[|steps| - 1]);
      StepIsLater(w, steps[|steps| - 1]);
      OpenBefore(w.leases, After(origin, steps).leases);
      hide HasOpen, Later;
      EntriesAreLeases(origin, front, m);
    } else {
      assert steps[..m] == steps;
    }
  }

  lemma OpenBefore(leases: map<LeaseId, Lease>, leases': map<LeaseId, Lease>)
    requires LeasesLater(leases, leases')
    ensures forall l <- leases | HasOpen(leases', l) :: HasOpen(leases, l)
  {
  }

  /** Leases that are known stay in the table. */
  lemma EntriesAreLeases(origin: World, steps: seq<Step>, m: nat)
    requires Core(origin) && Legal(origin, steps) && m <= |steps|
    ensures Legal(origin, steps[..m])
    ensures forall p <- After(origin, steps[..m]).memory.leases ::
              After(origin, steps[..m]).memory.leases[p] in After(origin, steps).leases
  {
    PrefixIsLegal(origin, steps, m);
    RunKeepsCore(origin, steps[..m]);
    RunIsLater(origin, steps, m);
    hide Play;
  }

  lemma {:induction false} RunIsLater(origin: World, steps: seq<Step>, m: nat)
    requires Core(origin) && Legal(origin, steps) && m <= |steps|
    ensures Legal(origin, steps[..m]) && Later(After(origin, steps[..m]), After(origin, steps))
    decreases |steps|
  {
    hide Core, Enabled, Apply, Later;
    PrefixIsLegal(origin, steps, m);
    if m < |steps| {
      var front := steps[..|steps| - 1];
      assert front[..m] == steps[..m];
      RunIsLater(origin, front, m);
      RunKeepsCore(origin, front);
      StepIsLater(After(origin, front), steps[|steps| - 1]);
      WorldLaterThen(After(origin, front[..m]), After(origin, front), After(origin, steps));
    } else {
      assert steps[..m] == steps;
      AlreadyLater(After(origin, steps));
    }
  }

  /******* Where new entries, leases and machines come from *******/

  /** A machine that has come to be known belongs to a lease that was open, or is new. */
  lemma {:induction false} NewEntriesWereOpen(origin: World, steps: seq<Step>, m: nat, p: PodId)
    requires Core(origin) && Legal(origin, steps) && m <= |steps|
    requires p in After(origin, steps).memory.leases
    ensures Legal(origin, steps[..m])
    ensures var w, w' := After(origin, steps[..m]), After(origin, steps);
            var l := w'.memory.leases[p];
            p in w.memory.leases || (l in w.leases ==> IsOpen(w.leases[l]))
    decreases |steps|
  {
    hide Core, Enabled, Apply;
    PrefixIsLegal(origin, steps, m);
    if m < |steps| {
      var front := steps[..|steps| - 1];
      assert front[..m] == steps[..m];
      RunKeepsCore(origin, front);
      var w, s := After(origin, front), steps[|steps| - 1];
      EntryIsTracked(w, s, p);
      if p in w.memory.leases {
        NewEntriesWereOpen(origin, front, m, p);
      } else {
        RunIsLater(origin, front, m);
      }
    } else {
      assert steps[..m] == steps;
    }
  }

  lemma EntryIsTracked(w: World, s: Step, p: PodId)
    requires Core(w) && Enabled(w, s) && p in Apply(w, s).memory.leases
    ensures p in w.memory.leases ==> Apply(w, s).memory.leases[p] == w.memory.leases[p]
    ensures p !in w.memory.leases ==> HasOpen(w.leases, Apply(w, s).memory.leases[p])
  {
    if p in w.memory.leases {
      OwnName(w, p);
    }
    hide *;
    if s.Track? {
      TrackedEntries(w, s, p);
    } else if s.Forget? || s.Crash? {
      EntriesLeft(w, s);
    } else {
      OtherEntriesStand(w, s);
    }
  }

  lemma TrackedEntries(w: World, s: Step, p: PodId)
    requires s.Track? && Enabled(w, s)
    ensures s.pod in Apply(w, s).memory.leases && Apply(w, s).memory.leases[s.pod] == s.lease
    ensures HasOpen(w.leases, s.lease) && IsFor(w.pods, s.pod, s.lease)
    ensures p != s.pod ==>
              && (p in Apply(w, s).memory.leases <==> p in w.memory.leases)
              && (p in w.memory.leases ==> Apply(w, s).memory.leases[p] == w.memory.leases[p])
  {
    hide KeyIsFree;
  }

  lemma EntriesLeft(w: World, s: Step)
    requires Enabled(w, s) && (s.Forget? || s.Crash?)
    ensures forall p <- Apply(w, s).memory.leases ::
              p in w.memory.leases && Apply(w, s).memory.leases[p] == w.memory.leases[p]
  {
    hide KeyIsFree, IsFor;
  }

  lemma OtherEntriesStand(w: World, s: Step)
    requires Enabled(w, s) && !s.Track? && !s.Forget? && !s.Crash?
    ensures Apply(w, s).memory.leases == w.memory.leases
  {
    hide KeyIsFree, IsFor, CanBecome, Tracked, Forgotten;
  }

  lemma OwnName(w: World, p: PodId)
    requires Core(w) && p in w.memory.leases
    ensures IsFor(w.pods, p, w.memory.leases[p])
  {
  }

  /** A lease that is new was created for its key. */
  lemma {:induction false} CreatedSince(origin: World, steps: seq<Step>, m: nat, l: LeaseId)
    requires Core(origin) && Legal(origin, steps) && m <= |steps|
    requires l in After(origin, steps).leases
    ensures Legal(origin, steps[..m])
    ensures l in After(origin, steps[..m]).leases
            || Started(steps, m, After(origin, steps).leases[l].provider, After(origin, steps).leases[l].profile)
    decreases |steps|
  {
    hide Core, Enabled, Apply, Started;
    PrefixIsLegal(origin, steps, m);
    if m < |steps| {
      var front := steps[..|steps| - 1];
      assert front[..m] == steps[..m];
      RunKeepsCore(origin, front);
      var w, s := After(origin, front), steps[|steps| - 1];
      LeaseIsCreated(w, s, l);
      if l in w.leases {
        CreatedSince(origin, front, m, l);
        if l !in After(origin, steps[..m]).leases {
          StartedStays(front, steps, m, w.leases[l].provider, w.leases[l].profile);
        }
      } else {
        StartsNow(steps, m, |steps| - 1);
      }
    } else {
      assert steps[..m] == steps;
    }
  }

  lemma StartsNow(steps: seq<Step>, m: nat, n: nat)
    requires m <= n < |steps| && steps[n].Create?
    ensures Started(steps, m, steps[n].provider, steps[n].profile)
  {
  }

  lemma LeaseIsCreated(w: World, s: Step, l: LeaseId)
    requires Core(w) && Enabled(w, s) && l in Apply(w, s).leases
    ensures l in w.leases ==>
              && Apply(w, s).leases[l].provider == w.leases[l].provider
              && Apply(w, s).leases[l].profile == w.leases[l].profile
    ensures l !in w.leases ==>
              && s.Create? && s.provider == Apply(w, s).leases[l].provider && s.profile == Apply(w, s).leases[l].profile
  {
    hide Core, KeyIsFree, Tracked, Forgotten;
  }

  /** A machine of a lease that is new was rented for it. */
  lemma {:induction false} RentedSince(origin: World, steps: seq<Step>, m: nat, p: PodId, l: LeaseId)
    requires Core(origin) && Legal(origin, steps) && m <= |steps| && IsSteady(steps, m)
    requires IsFor(After(origin, steps).pods, p, l)
    ensures Legal(origin, steps[..m])
    ensures IsFor(After(origin, steps[..m]).pods, p, l) || Rented(steps, m, l)
    decreases |steps|
  {
    hide Core, Enabled, Apply, Rented;
    PrefixIsLegal(origin, steps, m);
    if m < |steps| {
      var front := steps[..|steps| - 1];
      assert front[..m] == steps[..m];
      var w, s := After(origin, front), steps[|steps| - 1];
      MachineIsRented(w, s, p, l);
      if IsFor(w.pods, p, l) {
        RentedSince(origin, front, m, p, l);
        if !IsFor(After(origin, steps[..m]).pods, p, l) {
          RentedStays(front, steps, m, l);
        }
      } else {
        RentsNow(steps, m, |steps| - 1);
      }
    } else {
      assert steps[..m] == steps;
    }
  }

  lemma RentsNow(steps: seq<Step>, m: nat, n: nat)
    requires m <= n < |steps| && steps[n].Launch?
    ensures Rented(steps, m, steps[n].lease)
  {
  }

  lemma MachineIsRented(w: World, s: Step, p: PodId, l: LeaseId)
    requires Enabled(w, s) && !s.LaunchLate? && IsFor(Apply(w, s).pods, p, l)
    ensures IsFor(w.pods, p, l) || (s.Launch? && s.lease == l)
  {
    hide KeyIsFree, Tracked, Forgotten;
  }

  /** A key that someone works on was worked on before, or a lease was created for it since. */
  lemma ServedOrStarted(origin: World, steps: seq<Step>, m: nat, workers: set<(string, string)>, provider: string,
                        profile: string)
    requires Core(origin) && Legal(origin, steps) && m <= |steps|
    requires IsServed(After(origin, steps).memory, After(origin, steps).leases, workers, provider, profile)
    ensures Legal(origin, steps[..m])
    ensures || IsServed(After(origin, steps[..m]).memory, After(origin, steps[..m]).leases, workers, provider, profile)
            || Started(steps, m, provider, profile)
  {
    PrefixIsLegal(origin, steps, m);
    RunKeepsCore(origin, steps[..m]);
    RunKeepsCore(origin, steps);
    RunIsLater(origin, steps, m);
    var w, w' := After(origin, steps[..m]), After(origin, steps);
    hide Play, Core, Enabled, Apply, Started;
    if !KeyIsFree(w'.leases, provider, profile) {
      var l :| l in w'.leases && IsOpen(w'.leases[l]) && w'.leases[l].provider == provider && w'.leases[l].profile == profile;
      CreatedSince(origin, steps, m, l);
    } else if HasMachine(w'.memory, provider, profile) {
      var p :| p in w'.memory.active && p in w'.memory.providers && w'.memory.providers[p] == provider
               && p in w'.memory.profiles && w'.memory.profiles[p] == profile;
      MachineOrStarted(origin, steps, m, p);
    }
  }

  lemma MachineOrStarted(origin: World, steps: seq<Step>, m: nat, p: PodId)
    requires Core(origin) && Legal(origin, steps) && m <= |steps|
    requires var w' := After(origin, steps); p in w'.memory.active && p in w'.memory.providers && p in w'.memory.profiles
    ensures Legal(origin, steps[..m])
    ensures var w, w' := After(origin, steps[..m]), After(origin, steps);
            var provider, profile := w'.memory.providers[p], w'.memory.profiles[p];
            HasMachine(w.memory, provider, profile) || !KeyIsFree(w.leases, provider, profile) || Started(steps, m, provider, profile)
  {
    PrefixIsLegal(origin, steps, m);
    RunKeepsCore(origin, steps[..m]);
    RunKeepsCore(origin, steps);
    RunIsLater(origin, steps, m);
    var w, w' := After(origin, steps[..m]), After(origin, steps);
    KeyOfEntry(w', p);
    var l := w'.memory.leases[p];
    CreatedSince(origin, steps, m, l);
    NewEntriesWereOpen(origin, steps, m, p);
    hide Play, Started;
    if l in w.leases && p in w.memory.leases {
      KeyOfEntry(w, p);
      SameEntryLater(w, w', p);
      assert p in w.memory.active;
    }
  }

  lemma KeyOfEntry(w: World, p: PodId)
    requires Core(w) && (p in w.memory.active || p in w.memory.leases)
    ensures p in w.memory.active && p in w.memory.leases && p in w.memory.providers && p in w.memory.profiles
    ensures w.memory.leases[p] in w.leases && IsFor(w.pods, p, w.memory.leases[p])
    ensures w.memory.providers[p] == w.leases[w.memory.leases[p]].provider
    ensures w.memory.profiles[p] == w.leases[w.memory.leases[p]].profile
  {
  }

  lemma SameEntryLater(w: World, w': World, p: PodId)
    requires Core(w) && Core(w') && Later(w, w') && p in w.memory.leases && p in w'.memory.leases
    ensures w'.memory.leases[p] == w.memory.leases[p]
  {
    KeyOfEntry(w, p);
    KeyOfEntry(w', p);
  }

  /******* An iteration *******/

  /** Every machine that is launched for a new lease is new. */
  lemma NewMachineIsRented(origin: World, steps: seq<Step>, m: nat, p: PodId, l: LeaseId)
    requires Core(origin) && Legal(origin, steps) && m <= |steps| && IsSteady(steps, m)
    requires var w := After(origin, steps); p in w.memory.leases && w.memory.leases[p] == l
    requires Legal(origin, steps[..m]) && l !in After(origin, steps[..m]).leases
    ensures Rented(steps, m, l)
  {
    RunKeepsCore(origin, steps);
    RunKeepsCore(origin, steps[..m]);
    KeyOfEntry(After(origin, steps), p);
    UnknownLease(After(origin, steps[..m]), l);
    hide Play, Core, Rented;
    RentedSince(origin, steps, m, p, l);
  }

  /** A machine was rented for every new lease, or a call failed. */
  ghost predicate AllRented(leases: map<LeaseId, Lease>, leases': map<LeaseId, Lease>, steps: seq<Step>, from: nat,
                            script: nat -> Reply, a: nat, b: nat) {
    forall l <- leases' | l !in leases :: Rented(steps, from, l) || Failed(script, a, b)
  }

  lemma AllRentedThen(a: map<LeaseId, Lease>, b: map<LeaseId, Lease>, c: map<LeaseId, Lease>, steps: seq<Step>,
                      steps': seq<Step>, from: nat, script: nat -> Reply, i: nat, j: nat, k: nat)
    requires AllRented(a, b, steps, from, script, i, j) && AllRented(b, c, steps', |steps|, script, j, k)
    requires steps <= steps' && from <= |steps| && i <= j <= k
    ensures AllRented(a, c, steps', from, script, i, k)
  {
    forall l <- c | l !in a ensures Rented(steps', from, l) || Failed(script, i, k) {
      if l !in b {
        RentedEarlier(steps', |steps|, from, l);
      } else if Rented(steps, from, l) {
        RentedStays(steps, steps', from, l);
      }
    }
  }

  lemma RentedEarlier(steps: seq<Step>, from: nat, from': nat, l: LeaseId)
    requires from' <= from
    ensures Rented(steps, from, l) ==> Rented(steps, from', l)
  {
  }

  lemma OneRented(a: map<LeaseId, Lease>, b: map<LeaseId, Lease>, l: LeaseId, steps: seq<Step>, from: nat,
                  script: nat -> Reply, i: nat, j: nat)
    requires b.Keys <= a.Keys + {l} && (Rented(steps, from, l) || Failed(script, i, j))
    ensures AllRented(a, b, steps, from, script, i, j)
  {
    hide Rented, Failed;
  }

  lemma NoneRented(a: map<LeaseId, Lease>, b: map<LeaseId, Lease>, steps: seq<Step>, from: nat, script: nat -> Reply,
                   i: nat, j: nat)
    requires b.Keys <= a.Keys
    ensures AllRented(a, b, steps, from, script, i, j)
  {
  }

  /** For each of the first `n` wishes that can be launched, someone worked on its key at the
      start, or a lease was created for it since. */
  ghost predicate AllServed(wanted: seq<Wish>, n: nat, connectors: set<string>, workers: set<(string, string)>,
                            start: World, steps: seq<Step>, from: nat)
    requires n <= |wanted|
  {
    forall i | 0 <= i < n && wanted[i].hasOffer && wanted[i].provider in connectors ::
      || IsServed(start.memory, start.leases, workers, wanted[i].provider, wanted[i].profile)
      || Started(steps, from, wanted[i].provider, wanted[i].profile)
  }

  lemma AllServedStays(wanted: seq<Wish>, n: nat, connectors: set<string>, workers: set<(string, string)>, start: World,
                       steps: seq<Step>, steps': seq<Step>, from: nat)
    requires n <= |wanted| && AllServed(wanted, n, connectors, workers, start, steps, from) && steps <= steps'
    ensures AllServed(wanted, n, connectors, workers, start, steps', from)
  {
    forall i | 0 <= i < n && wanted[i].hasOffer && wanted[i].provider in connectors
      ensures || IsServed(start.memory, start.leases, workers, wanted[i].provider, wanted[i].profile)
              || Started(steps', from, wanted[i].provider, wanted[i].profile)
    {
      if Started(steps, from, wanted[i].provider, wanted[i].profile) {
        StartedStays(steps, steps', from, wanted[i].provider, wanted[i].profile);
      }
    }
  }

  lemma OneMoreServed(wanted: seq<Wish>, n: nat, connectors: set<string>, workers: set<(string, string)>, start: World,
                      steps: seq<Step>, steps': seq<Step>, from: nat)
    requires n < |wanted| && AllServed(wanted, n, connectors, workers, start, steps, from) && steps <= steps'
    requires wanted[n].hasOffer && wanted[n].provider in connectors ==>
               || IsServed(start.memory, start.leases, workers, wanted[n].provider, wanted[n].profile)
               || Started(steps', from, wanted[n].provider, wanted[n].profile)
    ensures AllServed(wanted, n + 1, connectors, workers, start, steps', from)
  {
    AllServedStays(wanted, n, connectors, workers, start, steps, steps', from);
    hide IsServed, Started;
  }

  /** A lease that is new since step `m` was created for its key since an earlier one. */
  lemma NewLeaseIsStarted(origin: World, steps: seq<Step>, m: nat, from: nat, l: LeaseId)
    requires Core(origin) && Legal(origin, steps) && from <= m <= |steps| && l in After(origin, steps).leases
    requires Legal(origin, steps[..m]) && l !in After(origin, steps[..m]).leases
    ensures Started(steps, from, After(origin, steps).leases[l].provider, After(origin, steps).leases[l].profile)
  {
    CreatedSince(origin, steps, m, l);
    hide Play;
  }

  /** What a pass over the open leases of `start` has achieved, and what only a missed one lacks:
      machines of open leases are known, revoked ones are being ended, and leases whose deadline
      has passed are revoked. */
  ghost predicate TakenUp(start: map<LeaseId, Lease>, w: World, missed: set<LeaseId>, due: set<LeaseId>) {
    && (forall l <- start | HasOpen(w.leases, l) && l !in missed :: Holds(w.memory.leases, l))
    && (forall l | IsRevokedBound(start, l) && l !in missed :: IsEnding(w.leases, l))
    && (forall l <- start | l in due && l !in missed :: HasRevoked(w.leases, l))
  }

  /** It lasts, as long as the dispatcher does. */
  lemma TakenUpStays(start: map<LeaseId, Lease>, origin: World, steps: seq<Step>, m: nat, missed: set<LeaseId>,
                     due: set<LeaseId>)
    requires Core(origin) && Legal(origin, steps) && m <= |steps| && IsSteady(steps, m) && Legal(origin, steps[..m])
    requires TakenUp(start, After(origin, steps[..m]), missed, due)
    requires start.Keys <= After(origin, steps[..m]).leases.Keys
    ensures TakenUp(start, After(origin, steps), missed, due)
  {
    KnownWhileOpen(origin, steps, m);
    RunIsLater(origin, steps, m);
    var w, w' := After(origin, steps[..m]), After(origin, steps);
    hide Play, Core, IsSteady;
    OpenBefore(w.leases, w'.leases);
    forall l <- start | HasOpen(w'.leases, l) && l !in missed ensures Holds(w'.memory.leases, l) {
      assert HasOpen(w.leases, l) && Holds(w.memory.leases, l);
      var p :| p in w.memory.leases && w.memory.leases[p] == l;
    }
    forall l | IsRevokedBound(start, l) && l !in missed ensures IsEnding(w'.leases, l) {
      assert IsEnding(w.leases, l) && Succeeds(w.leases[l], w'.leases[l]);
    }
    RevokedLater(w, w');
  }

  lemma SparesIsSteady(steps: seq<Step>, from: nat, victims: set<PodId>)
    requires Spares(steps, from, victims)
    ensures IsSteady(steps, from)
  {
  }

  lemma SteadyThen(steps: seq<Step>, steps': seq<Step>, from: nat)
    requires steps <= steps' && from <= |steps| && IsSteady(steps, from) && IsSteady(steps', |steps|)
    ensures IsSteady(steps', from)
  {
  }

  lemma ExcusedStays(missed: set<LeaseId>, leases: map<LeaseId, Lease>, connectors: set<string>, steps: seq<Step>,
                     steps': seq<Step>, from: nat, script: nat -> Reply, a: nat, b: nat, c: nat)
    requires Excused(missed, leases, connectors, steps, from, script, a, b) && steps <= steps' && b <= c
    ensures Excused(missed, leases, connectors, steps', from, script, a, c)
  {
    RecordGrows(steps, steps', from, from);
    hide Unasked;
  }

  /** How a known machine stands at the end of an iteration: it was shown alive, and its lease is
      revoked if it was shown stopped, if its runner is overdue, or if it is idle. */
  ghost predicate IsLookedAfter(w: World, p: PodId, now: int, clock: Clock, steps: seq<Step>, from: nat) {
    && p in w.memory.leases && p in w.memory.launchedAt && p in w.memory.lastActivity
    && WasLookedAt(steps, from, p, w.leases, w.memory.leases[p])
    && (IsOverdue(p, w.memory.launchedAt[p], now, clock.registered, clock.notStarted) ==> HasRevoked(w.leases, w.memory.leases[p]))
    && (!clock.keepWarm && clock.threshold >= 0 ==>
          now - w.memory.lastActivity[p] <= clock.threshold || HasRevoked(w.leases, w.memory.leases[p]))
  }

  /** The machine was looked at before `a`, its runner checked between `a` and `b`, and its
      activity between `b` and `c`. */
  lemma LookedAfter(start: World, a: World, b: World, c: World, p: PodId, now: int, clock: Clock, steps: seq<Step>,
                    steps': seq<Step>, from: nat)
    requires Core(start) && Core(a) && Core(b) && Core(c) && Later(start, a) && Later(a, b) && Later(b, c)
    requires OnlyDrops(a.memory.leases, b.memory.leases) && OnlyDrops(b.memory.leases, c.memory.leases)
    requires p in c.memory.active && steps <= steps'
    requires p in a.memory.active ==>
               p in start.memory.leases && WasLookedAt(steps, from, p, a.leases, start.memory.leases[p])
    requires AllRevoked(Overdue(a.memory.launchedAt, now, clock.registered, clock.notStarted), a.memory.leases, b.leases)
    requires !clock.keepWarm && clock.threshold >= 0 ==>
               p in c.memory.lastActivity && p in c.memory.leases
               && (now - c.memory.lastActivity[p] <= clock.threshold || HasRevoked(c.leases, c.memory.leases[p]))
    ensures IsLookedAfter(c, p, now, clock, steps', from)
  {
    hide Core, Later, WasLookedAt, HasRevoked, IsOverdue;
    KeyOfEntry(c, p);
    assert p in b.memory.leases && p in a.memory.leases;
    KeyOfEntry(a, p);
    WorldLaterThen(a, b, c);
    SameMachine(a, c, p);
    SameMachine(start, a, p);
    LookedAtOn(steps, steps', from, p, a, c, c.memory.leases[p]);
    RevokedLater(b, c);
    hide OnlyDrops, WasLookedAt;
    if IsOverdue(p, c.memory.launchedAt[p], now, clock.registered, clock.notStarted) {
      assert p in Overdue(a.memory.launchedAt, now, clock.registered, clock.notStarted);
    }
  }

  lemma LookedAtOn(steps: seq<Step>, steps': seq<Step>, from: nat, p: PodId, w: World, w': World, l: LeaseId)
    requires WasLookedAt(steps, from, p, w.leases, l) && steps <= steps' && Later(w, w')
    ensures WasLookedAt(steps', from, p, w'.leases, l)
  {
    LookedAtStays(steps, steps', from, p, w.leases, w'.leases, l);
  }

  lemma SameMachine(w: World, w': World, p: PodId)
    requires Core(w) && Core(w') && Later(w, w') && p in w.memory.leases && p in w'.memory.leases
    ensures w'.memory.leases[p] == w.memory.leases[p]
    ensures p in w.memory.launchedAt && p in w'.memory.launchedAt && w'.memory.launchedAt[p] == w.memory.launchedAt[p]
    ensures p in w'.memory.lastActivity
  {
    SameEntryLater(w, w', p);
    TimeOfEntry(w, p);
    TimeOfEntry(w', p);
    CreatedOnce(w, w', w.memory.leases[p]);
    hide Core, Later;
  }

  lemma TimeOfEntry(w: World, p: PodId)
    requires Core(w) && p in w.memory.leases
    ensures p in w.memory.launchedAt && p in w.memory.lastActivity
    ensures w.memory.leases[p] in w.leases && w.memory.launchedAt[p] == w.leases[w.memory.leases[p]].created
  {
  }

  lemma CreatedOnce(w: World, w': World, l: LeaseId)
    requires Later(w, w') && l in w.leases
    ensures l in w'.leases && w'.leases[l].created == w.leases[l].created
  {
  }

  lemma LookedAfterSince(w: World, p: PodId, now: int, clock: Clock, steps: seq<Step>, from: nat, from': nat)
    requires IsLookedAfter(w, p, now, clock, steps, from) && from' <= from
    ensures IsLookedAfter(w, p, now, clock, steps, from')
  {
    hide HasRevoked, IsOverdue;
    var l := w.memory.leases[p];
    var status :| Shown(steps, from, p, status) && IsLive(status) && (status.Stopped? ==> HasRevoked(w.leases, l));
    RecordGrows(steps, steps, from, from');
  }

  lemma NoneServed(wanted: seq<Wish>, connectors: set<string>, workers: set<(string, string)>, start: World,
                   steps: seq<Step>, from: nat)
    ensures AllServed(wanted, 0, connectors, workers, start, steps, from)
  {
  }
}
