/** What the dispatcher can rely on between its calls, while the coordinator and the providers
    go on acting. */
module LeaseRelations {
  import opened Prelude
  import opened LeaseProtocol

  /** The row is as it was, or was revoked by the coordinator. */
  predicate Weathered(lease: Lease, lease': Lease) {
    || lease' == lease
    || (lease.status in {Provisioning, Active} && lease' == lease.(status := RevocationRequested))
  }

  predicate HasOpen(leases: map<LeaseId, Lease>, l: LeaseId) {
    l in leases && IsOpen(leases[l])
  }

  /** Only the environment acted, and answers came in. */
  ghost predicate Weather(w: World, w': World) {
    && w'.memory == w.memory && w'.unseen == w.unseen && w.reported <= w'.reported && w'.leases.Keys == w.leases.Keys
    && (forall l <- w.leases :: Weathered(w.leases[l], w'.leases[l]))
    && PodsLater(w.pods, w'.pods)
    && (forall p <- w'.pods | p !in w.pods :: w'.pods[p].name.OtherName?)
  }

  /** Besides the environment, the dispatcher acted on lease `l` only. */
  ghost predicate Handled(w: World, w': World, l: LeaseId) {
    && w.unseen <= w'.unseen && w.reported <= w'.reported && w'.leases.Keys == w.leases.Keys
    && (forall k <- w.leases | k != l :: Weathered(w.leases[k], w'.leases[k]))
    && LeasesLater(w.leases, w'.leases) && PodsLater(w.pods, w'.pods)
  }

  /** From step `from` on, the dispatcher did not restart and no launch took effect late. */
  ghost predicate IsSteady(history: seq<Step>, from: nat) {
    forall n | from <= n < |history| :: !history[n].Crash? && !history[n].LaunchLate?
  }

  /** From step `from` on, the dispatcher asked for no machine's termination but these; nor did
      it restart. */
  ghost predicate Spares(history: seq<Step>, from: nat, victims: set<PodId>) {
    && IsSteady(history, from)
    && forall n | from <= n < |history| && history[n].Terminate? :: history[n].pod in victims
  }

  /** What the nth call comes to: it raises, or answers, with a status if it shows a machine. */
  datatype Reply = Reply(raises: bool, status: PodStatus)

  /** One of these calls raised. */
  ghost predicate Failed(script: nat -> Reply, from: nat, to: nat) {
    exists n: nat :: from <= n < to && script(n).raises
  }

  lemma FailedOnward(script: nat -> Reply, a: nat, b: nat, c: nat)
    requires a <= b <= c
    ensures Failed(script, a, b) || Failed(script, b, c) ==> Failed(script, a, c)
  {
  }

  lemma OneCall(script: nat -> Reply, n: nat)
    ensures Failed(script, n, n + 1) <==> script(n).raises
  {
  }

  lemma FailedLater(script: nat -> Reply, from: nat, to: nat, from': nat)
    requires from' <= from && Failed(script, from, to)
    ensures Failed(script, from', to)
  {
  }

  /** One of these calls answered with this status. */
  ghost predicate Told(script: nat -> Reply, from: nat, to: nat, status: PodStatus) {
    exists n: nat :: from <= n < to && !script(n).raises && script(n).status == status
  }

  /** From step `from` on, the provider could not be asked about the machine of the lease. */
  ghost predicate Unasked(history: seq<Step>, from: nat, l: LeaseId) {
    exists n :: from <= n < |history| && history[n] == AskFailed(l)
  }

  /** From step `from` on, the provider showed the machine with this status. */
  ghost predicate Shown(history: seq<Step>, from: nat, p: PodId, status: PodStatus) {
    exists n :: from <= n < |history| && history[n] == Inspected(p, status)
  }

  /** From step `from` on, the provider showed the machine alive. */
  ghost predicate ShownAlive(history: seq<Step>, from: nat, p: PodId) {
    exists n :: from <= n < |history| && history[n].Inspected? && history[n].pod == p && IsLive(history[n].status)
  }

  lemma LiveIsShown(history: seq<Step>, from: nat, p: PodId, status: PodStatus)
    requires Shown(history, from, p, status) && IsLive(status)
    ensures ShownAlive(history, from, p)
  {
  }

  lemma SparesAll(history: seq<Step>, victims: set<PodId>)
    ensures Spares(history, |history|, victims)
  {
  }

  /** The record since step `from`, when a call has added to it. */
  lemma OnwardThen(history: seq<Step>, history': seq<Step>, from: nat, victims: set<PodId>, all: set<PodId>)
    requires history <= history' && from <= |history| && victims <= all
    requires Spares(history, from, all) && Spares(history', |history|, victims)
    ensures Spares(history', from, all)
    ensures forall l | Unasked(history', |history|, l) :: Unasked(history', from, l)
  {
  }

  lemma RecordGrows(history: seq<Step>, history': seq<Step>, from: nat, from': nat)
    requires history <= history' && from' <= from
    ensures forall l | Unasked(history, from, l) :: Unasked(history', from', l)
    ensures forall p, status | Shown(history, from, p, status) :: Shown(history', from', p, status)
    ensures forall p | ShownAlive(history, from, p) :: ShownAlive(history', from', p)
  {
  }

  /** These leases were missed for a reason: nobody knows their provider, or it could not be
      asked, because a call raised. */
  ghost predicate Excused(missed: set<LeaseId>, leases: map<LeaseId, Lease>, connectors: set<string>,
                          history: seq<Step>, from: nat, script: nat -> Reply, a: nat, b: nat) {
    forall l <- missed ::
      l in leases && (leases[l].provider !in connectors || (Unasked(history, from, l) && Failed(script, a, b)))
  }

  lemma NoneExcused(leases: map<LeaseId, Lease>, connectors: set<string>, history: seq<Step>, script: nat -> Reply,
                    a: nat)
    ensures Excused({}, leases, connectors, history, |history|, script, a, a)
  {
  }

  lemma OneMoreExcused(missed: set<LeaseId>, l: LeaseId, also: bool, leases: map<LeaseId, Lease>,
                       leases': map<LeaseId, Lease>, connectors: set<string>, history: seq<Step>, history': seq<Step>,
                       from: nat, script: nat -> Reply, a: nat, b: nat, c: nat)
    requires Excused(missed, leases, connectors, history, from, script, a, b)
    requires history <= history' && from <= |history| && a <= b <= c
    requires l in leases && LeasesLater(leases, leases')
    requires also ==> leases'[l].provider !in connectors || (Unasked(history', |history|, l) && Failed(script, b, c))
    ensures leases'[l].provider == leases[l].provider
    ensures Excused(if also then missed + {l} else missed, leases, connectors, history', from, script, a, c)
  {
    RecordGrows(history, history', from, from);
    RecordGrows(history', history', |history|, from);
    assert Failed(script, a, b) || Failed(script, b, c) ==> Failed(script, a, c);
    hide Unasked, Failed;
    assert Succeeds(leases[l], leases'[l]);
  }

  /** What was noted about the machines is what the provider answered. */
  ghost predicate WereSeen(seen: map<PodId, PodStatus>, history: seq<Step>, from: nat, script: nat -> Reply, a: nat,
                        b: nat) {
    forall p <- seen :: Shown(history, from, p, seen[p]) && Told(script, a, b, seen[p])
  }

  lemma SeenGrows(seen: map<PodId, PodStatus>, history: seq<Step>, history': seq<Step>, from: nat,
                  script: nat -> Reply, a: nat, b: nat, c: nat)
    requires WereSeen(seen, history, from, script, a, b) && history <= history' && b <= c
    ensures WereSeen(seen, history', from, script, a, c)
  {
    RecordGrows(history, history', from, from);
    hide Shown;
  }

  lemma OneMoreSeen(seen: map<PodId, PodStatus>, p: PodId, status: PodStatus, history: seq<Step>, history': seq<Step>,
                    from: nat, script: nat -> Reply, a: nat, b: nat, c: nat)
    requires WereSeen(seen, history, from, script, a, b) && history <= history' && from <= |history| && a <= b <= c
    requires Shown(history', |history|, p, status) && Told(script, b, c, status)
    ensures WereSeen(seen[p := status], history', from, script, a, c)
  {
    SeenGrows(seen, history, history', from, script, a, b, c);
    RecordGrows(history', history', |history|, from);
    hide Shown;
  }

  /** The machine was shown alive, and its lease is revoked if it was shown stopped. */
  ghost predicate WasLookedAt(history: seq<Step>, from: nat, p: PodId, leases: map<LeaseId, Lease>, l: LeaseId) {
    exists status :: Shown(history, from, p, status) && IsLive(status) && (status.Stopped? ==> HasRevoked(leases, l))
  }

  /** Whoever is still known was shown alive. */
  lemma KnownAreAlive(seen: map<PodId, PodStatus>, history: seq<Step>, from: nat, script: nat -> Reply, a: nat, b: nat,
                      leases: map<PodId, LeaseId>, active': map<PodId, PodStatus>, leases': map<LeaseId, Lease>)
    requires WereSeen(seen, history, from, script, a, b) && active'.Keys <= seen.Keys
    requires forall p <- seen :: p in leases && IsSettled(seen[p], p, active', leases', leases[p])
    ensures forall p <- active' :: p in leases && WasLookedAt(history, from, p, leases', leases[p])
  {
    forall p <- active' ensures WasLookedAt(history, from, p, leases', leases[p]) {
      assert IsSettled(seen[p], p, active', leases', leases[p]);
      assert Shown(history, from, p, seen[p]);
    }
  }

  lemma LookedAtStays(history: seq<Step>, history': seq<Step>, from: nat, p: PodId, leases: map<LeaseId, Lease>,
                      leases': map<LeaseId, Lease>, l: LeaseId)
    requires WasLookedAt(history, from, p, leases, l) && history <= history' && LeasesLater(leases, leases')
    ensures WasLookedAt(history', from, p, leases', l)
  {
    var status :| Shown(history, from, p, status) && IsLive(status) && (status.Stopped? ==> HasRevoked(leases, l));
    RecordGrows(history, history', from, from);
  }

  lemma WeatherThen(a: World, b: World, c: World)
    requires Weather(a, b) && Weather(b, c)
    ensures Weather(a, c)
  {
    forall l <- a.leases ensures Weathered(a.leases[l], c.leases[l]) {
      assert Weathered(b.leases[l], c.leases[l]);
    }
    forall p <- a.pods ensures CanBecome(a.pods[p].status, c.pods[p].status) {
      assert CanBecome(b.pods[p].status, c.pods[p].status);
    }
    forall p <- c.pods | p !in a.pods ensures c.pods[p].name.OtherName? {
      if p in b.pods {
        assert c.pods[p].name == b.pods[p].name;
      }
    }
  }

  lemma EndingInAnyWeather(w: World, w': World, p: PodId)
    requires Weather(w, w') && p in w.pods && w.pods[p].name.LeaseName? && w.pods[p].name.lease in w.leases
    requires w.leases[w.pods[p].name.lease].status in {Terminating, Closed}
    ensures p in w'.pods && w'.pods[p].name == w.pods[p].name
    ensures w'.pods[p].name.lease in w'.leases && w'.leases[w'.pods[p].name.lease] == w.leases[w.pods[p].name.lease]
  {
  }

  lemma NoWeather(w: World)
    ensures Weather(w, w)
  {
  }

  lemma HandledThen(a: World, b: World, c: World, l: LeaseId)
    requires Handled(a, b, l) && Handled(b, c, l)
    ensures Handled(a, c, l)
  {
    forall k <- a.leases | k != l ensures Weathered(a.leases[k], c.leases[k]) {
      assert Weathered(b.leases[k], c.leases[k]);
    }
    forall p <- a.pods ensures CanBecome(a.pods[p].status, c.pods[p].status) {
      assert CanBecome(b.pods[p].status, c.pods[p].status);
    }
  }

  lemma InAnyWeather(w: World, w': World, l: LeaseId, p: PodId)
    requires Weather(w, w') && l in w.leases && w.leases[l].status in {Terminating, Closed} && IsFor(w.pods, p, l)
    ensures Handled(w, w', l) && w'.memory == w.memory
    ensures l in w'.leases && w'.leases[l] == w.leases[l] && IsFor(w'.pods, p, l)
  {
  }

  lemma StillSucceeds(w: World, w': World, l: LeaseId)
    requires Handled(w, w', l) && l in w.leases
    ensures l in w'.leases && Succeeds(w.leases[l], w'.leases[l])
    ensures w'.leases[l].provider == w.leases[l].provider && w'.leases[l].profile == w.leases[l].profile
  {
  }

  lemma HandledIsLater(w: World, w': World, l: LeaseId)
    requires Handled(w, w', l)
    ensures w'.leases.Keys == w.leases.Keys && Later(w, w')
  {
  }

  lemma AlreadyLater(w: World)
    ensures Later(w, w)
  {
  }

  lemma WorldLaterThen(a: World, b: World, c: World)
    requires Later(a, b) && Later(b, c)
    ensures Later(a, c)
  {
    LaterThen(a.leases, b.leases, c.leases);
    forall p <- a.pods ensures CanBecome(a.pods[p].status, c.pods[p].status) {
      assert CanBecome(b.pods[p].status, c.pods[p].status);
    }
  }

  /** The lease was revoked and, if it is bound, is being terminated. */
  predicate HasRevoked(leases: map<LeaseId, Lease>, l: LeaseId) {
    && l in leases && leases[l].status !in {Provisioning, Active}
    && (leases[l].pod.Some? ==> leases[l].status in {Terminating, Closed})
  }

  /** The termination of the lease's machine was asked for, or it is gone. */
  predicate IsEnding(leases: map<LeaseId, Lease>, l: LeaseId) {
    l in leases && leases[l].status in {Terminating, Closed}
  }

  /** The lease was revoked, and is bound to a machine. */
  predicate IsRevokedBound(leases: map<LeaseId, Lease>, l: LeaseId) {
    l in leases && leases[l].status in {RevocationRequested, Terminating} && leases[l].pod.Some?
  }

  lemma EndingForGood(w: World, w': World, l: LeaseId)
    requires Handled(w, w', l)
    ensures forall k | IsEnding(w.leases, k) :: IsEnding(w'.leases, k)
    ensures forall k | k != l && IsRevokedBound(w.leases, k) :: IsRevokedBound(w'.leases, k)
  {
  }

  /** The open leases of `start` have been gone over, except `todo`; those `missed` were skipped. */
  ghost predicate Reconciled(start: map<LeaseId, Lease>, leases: map<LeaseId, Lease>, entries: map<PodId, LeaseId>,
                             todo: set<LeaseId>, missed: set<LeaseId>, due: set<LeaseId>) {
    && leases.Keys == start.Keys && LeasesLater(start, leases)
    && (forall l <- todo :: HasOpen(leases, l))
    && (forall l | HasOpen(leases, l) && l !in todo && l !in missed :: Holds(entries, l))
    && (forall l <- todo | IsRevokedBound(start, l) :: IsRevokedBound(leases, l))
    && (forall l | IsRevokedBound(start, l) && l !in todo && l !in missed :: IsEnding(leases, l))
    && (forall l <- start | l in due && l !in todo && l !in missed :: HasRevoked(leases, l))
  }

  lemma NoneReconciled(leases: map<LeaseId, Lease>, entries: map<PodId, LeaseId>, todo: set<LeaseId>, due: set<LeaseId>)
    requires todo == set l | l in leases && IsOpen(leases[l])
    ensures Reconciled(leases, leases, entries, todo, {}, due)
  {
    LaterAlready(leases);
    hide LeasesLater;
  }

  lemma SoFarReconciled(start: map<LeaseId, Lease>, leases: map<LeaseId, Lease>, entries: map<PodId, LeaseId>,
                        todo: set<LeaseId>, missed: set<LeaseId>, due: set<LeaseId>, l: LeaseId)
    requires Reconciled(start, leases, entries, todo, missed, due) && l in todo
    ensures leases.Keys == start.Keys && LeasesLater(start, leases) && HasOpen(leases, l)
  {
  }

  lemma OneMoreReconciled(start: map<LeaseId, Lease>, w: World, w': World, todo: set<LeaseId>, missed: set<LeaseId>,
                          due: set<LeaseId>, l: LeaseId, asked: bool)
    requires Reconciled(start, w.leases, w.memory.leases, todo, missed, due) && l in todo
    requires asked && l in due ==> HasRevoked(w'.leases, l)
    requires Handled(w, w', l) && KeepsOthers(w.memory.leases, w'.memory.leases, l)
    requires asked && HasOpen(w'.leases, l) ==> Holds(w'.memory.leases, l)
    requires asked && IsRevokedBound(w.leases, l) ==> IsEnding(w'.leases, l)
    ensures Reconciled(start, w'.leases, w'.memory.leases, todo - {l}, if asked then missed else missed + {l}, due)
  {
    hide HasOpen, Holds, IsRevokedBound, IsEnding, LeasesLater, Later, HasRevoked, Handled, KeepsOthers;
    OthersStayOpen(w, w', l);
    OthersStayHeld(w.memory.leases, w'.memory.leases, l);
    EndingForGood(w, w', l);
    HandledIsLater(w, w', l);
    RevokedLater(w, w');
    LaterThen(start, w.leases, w'.leases);
  }

  lemma AllReconciled(start: map<LeaseId, Lease>, leases: map<LeaseId, Lease>, entries: map<PodId, LeaseId>,
                      missed: set<LeaseId>, due: set<LeaseId>)
    requires Reconciled(start, leases, entries, {}, missed, due)
    ensures leases.Keys == start.Keys && LeasesLater(start, leases)
    ensures forall l | HasOpen(leases, l) && l !in missed :: Holds(entries, l)
    ensures forall l | IsRevokedBound(start, l) && l !in missed :: IsEnding(leases, l)
    ensures forall l <- start | l in due && l !in missed :: HasRevoked(leases, l)
  {
    hide HasOpen, Holds, IsRevokedBound, IsEnding, LeasesLater, HasRevoked;
  }

  lemma WeatherOnTracked(w: World, w': World, l: LeaseId, p: PodId)
    requires Weather(w, w') && l in w.leases && IsFor(w.pods, p, l)
    ensures Handled(w, w', l) && w'.memory == w.memory
    ensures l in w'.leases && IsFor(w'.pods, p, l)
  {
  }

  lemma AlreadyHandled(w: World, memory: Memory, l: LeaseId)
    ensures Handled(w, w.(memory := memory), l)
  {
  }

  lemma OthersStayOpen(w: World, w': World, l: LeaseId)
    requires Handled(w, w', l)
    ensures w'.leases.Keys == w.leases.Keys && LeasesLater(w.leases, w'.leases)
    ensures forall k | k != l :: HasOpen(w.leases, k) <==> HasOpen(w'.leases, k)
  {
  }

  lemma LaterThen(a: map<LeaseId, Lease>, b: map<LeaseId, Lease>, c: map<LeaseId, Lease>)
    requires LeasesLater(a, b) && LeasesLater(b, c)
    ensures LeasesLater(a, c)
  {
    forall l <- a ensures Succeeds(a[l], c[l]) {
      assert Succeeds(b[l], c[l]);
    }
  }

  lemma LaterAlready(leases: map<LeaseId, Lease>)
    ensures LeasesLater(leases, leases)
  {
  }

  /** A row keeps the key it was created with. */
  lemma StillKeyed(leases: map<LeaseId, Lease>, leases': map<LeaseId, Lease>, provider: string, profile: string)
    requires LeasesLater(leases, leases')
    ensures forall l <- leases :: l in leases' && leases'[l].provider == leases[l].provider
                                  && leases'[l].profile == leases[l].profile
  {
  }

  /** The machine is known under its lease. */
  predicate Holds(leases: map<PodId, LeaseId>, l: LeaseId) {
    exists p <- leases :: leases[p] == l
  }

  /** The entries of other leases are untouched. */
  predicate KeepsOthers(leases: map<PodId, LeaseId>, leases': map<PodId, LeaseId>, l: LeaseId) {
    forall p <- leases | leases[p] != l :: p in leases' && leases'[p] == leases[p]
  }

  lemma SameEntries(leases: map<PodId, LeaseId>, l: LeaseId)
    ensures KeepsOthers(leases, leases, l)
  {
  }

  lemma OthersStayHeld(leases: map<PodId, LeaseId>, leases': map<PodId, LeaseId>, l: LeaseId)
    requires KeepsOthers(leases, leases', l)
    ensures forall k | k != l && Holds(leases, k) :: Holds(leases', k)
  {
    forall k | k != l && Holds(leases, k) ensures Holds(leases', k) {
      var p :| p in leases && leases[p] == k;
      assert p in leases' && leases'[p] == k;
    }
  }

  /** The tables are unchanged, or have forgotten a machine shown dead whose lease is closed. */
  ghost predicate Dropped(m: Memory, w: World, l: LeaseId, p: PodId) {
    || w.memory == m
    || (w.memory == Forgotten(m, p) && l in w.leases && !HasOpen(w.leases, l) && p in w.reported)
  }

  lemma StillDropped(w: World, l: LeaseId, p: PodId)
    ensures Dropped(w.memory, w, l, p) && Handled(w, w, l)
  {
  }

  lemma EntriesTakenUp(m: Memory, restored: Memory, w: World, l: LeaseId, p: PodId, lease: Lease, status: PodStatus,
                       activity: int)
    requires restored == Tracked(m, p, l, lease, status, activity) && Dropped(restored, w, l, p)
    requires p in m.leases ==> m.leases[p] == l
    ensures KeepsOthers(m.leases, w.memory.leases, l)
    ensures HasOpen(w.leases, l) ==> Holds(w.memory.leases, l)
  {
    assert p in restored.leases && restored.leases[p] == l;
    hide HasOpen;
  }

  const RUNNER_CONTAINER_START_TIMEOUT_SECONDS := 600
  const RUNNER_REGISTRATION_TIMEOUT_SECONDS := 3600

  /** What one tick reads from the queue, the providers and the configuration about the known
      machines. */
  datatype Clock = Clock(registered: set<PodId>, notStarted: set<PodId>, working: set<PodId>, ready: set<PodId>,
                         starting: set<PodId>, threshold: int, keepWarm: bool)

  /** The machine's runner never called home, and its time is over. */
  predicate IsOverdue(p: PodId, launched: int, now: int, registered: set<PodId>, notStarted: set<PodId>) {
    && p !in registered
    && (|| (p in notStarted && now - launched > RUNNER_CONTAINER_START_TIMEOUT_SECONDS)
        || now - launched > RUNNER_REGISTRATION_TIMEOUT_SECONDS)
  }

  function Overdue(launchedAt: map<PodId, int>, now: int, registered: set<PodId>, notStarted: set<PodId>): set<PodId> {
    set p | p in launchedAt && IsOverdue(p, launchedAt[p], now, registered, notStarted)
  }

  /** These machines are still known, under the same leases. */
  predicate EntriesOf(pods: set<PodId>, leases: map<PodId, LeaseId>, leases': map<PodId, LeaseId>,
                      active': map<PodId, PodStatus>) {
    forall p <- pods :: p in leases && p in leases' && leases'[p] == leases[p] && p in active'
  }

  lemma OtherEntriesStay(m: Memory, m': Memory, p: PodId)
    requires m' == m || m' == Forgotten(m, p)
    ensures forall q | q != p :: (q in m.leases ==> q in m'.leases && m'.leases[q] == m.leases[q])
                                 && (q in m.active ==> q in m'.active)
  {
  }

  /** Jobs need the machine, or its runner starts for the first time. */
  predicate IsBusy(p: PodId, clock: Clock, ready: set<PodId>) {
    p in clock.working || (p in clock.starting && p !in clock.ready && p !in ready)
  }

  /** Whether the machine is idle, given when it was last active. */
  function IdleAmong(times: map<PodId, int>, now: int, clock: Clock, ready: set<PodId>): set<PodId> {
    set p | p in times && IsIdle(p, times[p], now, clock, ready)
  }

  predicate IsIdle(p: PodId, last: int, now: int, clock: Clock, ready: set<PodId>) {
    !IsBusy(p, clock, ready) && now - last > clock.threshold
  }

  /** A busy machine's clock starts again, that of any other that is still known goes on, and
      who was seen ready is noted. */
  predicate WasChecked(p: PodId, now: int, clock: Clock, last: int, wasBusy: bool, wasReady: bool,
                       lastActivity': map<PodId, int>, ready': set<PodId>)
  {
    && (wasBusy ==> p in lastActivity')
    && (p in lastActivity' ==>
          && lastActivity'[p] == (if wasBusy then now else last)
          && (p in ready' <==> wasReady || p in clock.ready))
  }

  predicate AllChecked(done: set<PodId>, now: int, clock: Clock, last: map<PodId, int>, ready: set<PodId>,
                       times': map<PodId, int>, ready': set<PodId>)
  {
    forall p <- done :: p in last && WasChecked(p, now, clock, last[p], IsBusy(p, clock, ready), p in ready, times', ready')
  }

  predicate AllRevoked(pods: set<PodId>, entries: map<PodId, LeaseId>, leases: map<LeaseId, Lease>) {
    forall p <- pods :: p in entries && HasRevoked(leases, entries[p])
  }

  /** What ending the lease of machine `p` may change. */
  ghost predicate LeavesOthers(w: World, w': World, p: PodId) {
    && w'.leases.Keys == w.leases.Keys && Later(w, w')
    && OnlyDrops(w.memory.leases, w'.memory.leases)
    && (forall q | q != p :: (q in w.memory.leases ==> q in w'.memory.leases && w'.memory.leases[q] == w.memory.leases[q])
                             && (q in w.memory.active ==> q in w'.memory.active))
  }

  /** The known machines of `start` have been watched for overdue runners, except `todo`. */
  ghost predicate Watched(start: World, w: World, todo: set<PodId>, overdue: set<PodId>) {
    && w.leases.Keys == start.leases.Keys && Later(start, w) && OnlyDrops(start.memory.leases, w.memory.leases)
    && EntriesOf(todo, start.memory.leases, w.memory.leases, w.memory.active)
    && AllRevoked(overdue - todo, start.memory.leases, w.leases)
  }

  lemma NoneInspected(w: World, overdue: set<PodId>)
    requires w.memory.active.Keys == w.memory.leases.Keys == w.memory.launchedAt.Keys && overdue <= w.memory.launchedAt.Keys
    ensures Watched(w, w, w.memory.launchedAt.Keys, overdue)
  {
    AlreadyLater(w);
    hide Later;
    assert overdue - w.memory.launchedAt.Keys == {};
  }

  lemma WatchLater(start: World, w: World, w': World, todo: set<PodId>, overdue: set<PodId>, p: PodId)
    requires Watched(start, w, todo, overdue) && LeavesOthers(w, w', p)
    ensures w'.leases.Keys == start.leases.Keys && Later(start, w') && OnlyDrops(start.memory.leases, w'.memory.leases)
  {
    WorldLaterThen(start, w, w');
    hide Later, AllRevoked, EntriesOf;
  }

  lemma OneMoreWatched(start: World, w: World, w': World, todo: set<PodId>, overdue: set<PodId>, p: PodId)
    requires Watched(start, w, todo, overdue) && LeavesOthers(w, w', p) && p in todo
    requires p in overdue ==> p in w.memory.leases && HasRevoked(w'.leases, w.memory.leases[p])
    ensures Watched(start, w', todo - {p}, overdue) && todo - {p} <= w'.memory.active.Keys
  {
    WatchLater(start, w, w', todo, overdue, p);
    OneMoreRevoked(overdue - todo, p, p in overdue, start.memory.leases, w, w');
    hide Later, HasRevoked, AllRevoked;
    assert overdue - (todo - {p}) == overdue - todo + if p in overdue then {p} else {};
  }

  lemma WatchDone(start: World, w: World, overdue: set<PodId>)
    requires Watched(start, w, {}, overdue)
    ensures w.leases.Keys == start.leases.Keys && Later(start, w) && OnlyDrops(start.memory.leases, w.memory.leases)
    ensures AllRevoked(overdue, start.memory.leases, w.leases)
  {
    assert overdue - {} == overdue;
  }

  lemma OneMoreChecked(done: set<PodId>, p: PodId, now: int, clock: Clock, last: map<PodId, int>, ready: set<PodId>,
                       times: map<PodId, int>, ready': set<PodId>, times': map<PodId, int>, ready'': set<PodId>)
    requires AllChecked(done, now, clock, last, ready, times, ready') && p !in done && p in last
    requires forall q | q != p :: (q in times <==> q in times') && (q in times ==> times'[q] == times[q])
    requires forall q | q != p :: q in ready'' <==> q in ready'
    requires WasChecked(p, now, clock, last[p], IsBusy(p, clock, ready), p in ready, times', ready'')
    ensures AllChecked(done + {p}, now, clock, last, ready, times', ready'')
  {
    hide IsBusy;
  }

  lemma OneMoreRevoked(done: set<PodId>, p: PodId, also: bool, entries: map<PodId, LeaseId>, w: World, w': World)
    requires AllRevoked(done, entries, w.leases) && Later(w, w')
    requires also ==> p in entries && HasRevoked(w'.leases, entries[p])
    ensures AllRevoked(done + if also then {p} else {}, entries, w'.leases)
  {
    RevokedLater(w, w');
    hide Later, HasRevoked;
  }

  /** The known machines of `start` have been checked for idleness, except `todo`. */
  ghost predicate Patrolled(start: World, w: World, todo: set<PodId>, idle: set<PodId>, now: int, clock: Clock,
                            ready: set<PodId>, ready': set<PodId>) {
    var last := start.memory.lastActivity;
    && w.leases.Keys == start.leases.Keys && Later(start, w) && OnlyDrops(start.memory.leases, w.memory.leases)
    && EntriesOf(todo, start.memory.leases, w.memory.leases, w.memory.active)
    && (forall p <- todo :: p in ready' <==> p in ready)
    && (forall p <- todo :: SameEntry(last, w.memory.lastActivity, p))
    && AllChecked(last.Keys - todo, now, clock, last, ready, w.memory.lastActivity, ready')
    && AllRevoked(idle - todo, start.memory.leases, w.leases)
  }

  /** What checking machine `p` for idleness may change. */
  ghost predicate ChecksOne(w: World, w': World, p: PodId, now: int, clock: Clock, ready: set<PodId>,
                        ready': set<PodId>) {
    && w'.leases.Keys == w.leases.Keys && Later(w, w') && OnlyDrops(w.memory.leases, w'.memory.leases)
    && p in w.memory.leases && p in w.memory.lastActivity
    && (forall q | q != p :: q in ready' <==> q in ready)
    && (forall q | q != p :: (q in w.memory.leases ==> q in w'.memory.leases && w'.memory.leases[q] == w.memory.leases[q])
                             && (q in w.memory.active ==> q in w'.memory.active))
    && (forall q | q != p :: SameEntry(w.memory.lastActivity, w'.memory.lastActivity, q))
    && WasChecked(p, now, clock, w.memory.lastActivity[p], IsBusy(p, clock, ready), p in ready, w'.memory.lastActivity, ready')
  }

  lemma NonePatrolled(w: World, idle: set<PodId>, now: int, clock: Clock, ready: set<PodId>)
    requires w.memory.active.Keys == w.memory.leases.Keys == w.memory.lastActivity.Keys && idle <= w.memory.active.Keys
    ensures Patrolled(w, w, w.memory.lastActivity.Keys, idle, now, clock, ready, ready)
  {
    AlreadyLater(w);
    hide Later;
    assert w.memory.lastActivity.Keys - w.memory.lastActivity.Keys == {};
    assert idle - w.memory.lastActivity.Keys == {};
  }

  lemma PatrolIsLater(start: World, w: World, todo: set<PodId>, idle: set<PodId>, now: int, clock: Clock,
                      ready: set<PodId>, ready': set<PodId>)
    requires Patrolled(start, w, todo, idle, now, clock, ready, ready')
    ensures w.leases.Keys == start.leases.Keys && Later(start, w) && OnlyDrops(start.memory.leases, w.memory.leases)
    ensures todo == {} ==> AllRevoked(idle, start.memory.leases, w.leases)
    ensures todo == {} ==> AllChecked(start.memory.lastActivity.Keys, now, clock, start.memory.lastActivity, ready,
                                      w.memory.lastActivity, ready')
  {
    if todo == {} {
      assert start.memory.lastActivity.Keys - todo == start.memory.lastActivity.Keys && idle - todo == idle;
    }
  }

  /** Nothing that the check of `p` goes by has changed since the beginning. */
  lemma PatrolAgrees(start: World, w: World, todo: set<PodId>, idle: set<PodId>, now: int, clock: Clock,
                     ready: set<PodId>, ready': set<PodId>, p: PodId)
    requires Patrolled(start, w, todo, idle, now, clock, ready, ready') && p in todo && p in start.memory.lastActivity
    ensures p in w.memory.lastActivity && w.memory.lastActivity[p] == start.memory.lastActivity[p]
    ensures p in ready <==> p in ready'
    ensures IsBusy(p, clock, ready) == IsBusy(p, clock, ready')
    ensures IsIdle(p, w.memory.lastActivity[p], now, clock, ready) == IsIdle(p, w.memory.lastActivity[p], now, clock, ready')
    ensures p in start.memory.leases && p in w.memory.leases && w.memory.leases[p] == start.memory.leases[p]
  {
    hide Later, AllChecked, AllRevoked;
    assert SameEntry(start.memory.lastActivity, w.memory.lastActivity, p);
  }

  lemma PatrolEnds(start: World, w: World, w': World, todo: set<PodId>, idle: set<PodId>, now: int, clock: Clock,
                   ready: set<PodId>, ready': set<PodId>, ready'': set<PodId>, p: PodId)
    requires Patrolled(start, w, todo, idle, now, clock, ready, ready') && ChecksOne(w, w', p, now, clock, ready', ready'')
    ensures w'.leases.Keys == start.leases.Keys && Later(start, w') && OnlyDrops(start.memory.leases, w'.memory.leases)
  {
    WorldLaterThen(start, w, w');
    hide Later, AllChecked, AllRevoked, WasChecked, SameEntry, EntriesOf;
  }

  lemma OneMorePatrolled(start: World, w: World, w': World, todo: set<PodId>, idle: set<PodId>, now: int, clock: Clock,
                         ready: set<PodId>, ready': set<PodId>, ready'': set<PodId>, p: PodId)
    requires Patrolled(start, w, todo, idle, now, clock, ready, ready') && ChecksOne(w, w', p, now, clock, ready', ready'')
    requires p in todo && p in start.memory.lastActivity && (p in idle ==> HasRevoked(w'.leases, w.memory.leases[p]))
    ensures Patrolled(start, w', todo - {p}, idle, now, clock, ready, ready'') && todo - {p} <= w'.memory.active.Keys
  {
    var last := start.memory.lastActivity;
    PatrolEnds(start, w, w', todo, idle, now, clock, ready, ready', ready'', p);
    PatrolAgrees(start, w, todo, idle, now, clock, ready, ready', p);
    OtherTimesAreSame(w.memory.lastActivity, w'.memory.lastActivity, p);
    OneMoreRevoked(idle - todo, p, p in idle, start.memory.leases, w, w');
    OneMoreChecked(last.Keys - todo, p, now, clock, last, ready, w.memory.lastActivity, ready', w'.memory.lastActivity, ready'');
    hide Later, AllChecked, AllRevoked, WasChecked, HasRevoked, IsBusy, IsIdle, OnlyDrops;
    assert last.Keys - (todo - {p}) == last.Keys - todo + {p};
    assert idle - (todo - {p}) == idle - todo + if p in idle then {p} else {};
    forall q <- todo - {p} ensures SameEntry(last, w'.memory.lastActivity, q) {
      assert SameEntry(last, w.memory.lastActivity, q) && SameEntry(w.memory.lastActivity, w'.memory.lastActivity, q);
    }
  }

  lemma ActiveOrRevoked(p: PodId, now: int, clock: Clock, last: int, ready: set<PodId>, times': map<PodId, int>,
                        ready': set<PodId>)
    requires p in times' && clock.threshold >= 0
    requires WasChecked(p, now, clock, last, IsBusy(p, clock, ready), p in ready, times', ready')
    ensures now - times'[p] <= clock.threshold || IsIdle(p, last, now, clock, ready)
  {
  }

  /** Entries were only dropped. */
  predicate OnlyDrops(m: map<PodId, LeaseId>, m': map<PodId, LeaseId>) {
    forall p <- m' :: p in m && m'[p] == m[p]
  }

  lemma LeasesOnlyDrop(m: Memory, m': Memory, p: PodId)
    requires m' == m || m' == Forgotten(m, p)
    ensures OnlyDrops(m.leases, m'.leases)
  {
  }

  /** Queued work for a key: whether there is an offer to launch on, and whether and with what
      the launch may be tried once more without the cache. */
  datatype Wish = Wish(provider: string, profile: string, hasOffer: bool, mayFallBack: bool, hasColdOffer: bool)

  /** Every new lease is of a wanted provider and profile, for which there was an offer. */
  predicate OnlyWanted(leases: map<LeaseId, Lease>, leases': map<LeaseId, Lease>, wanted: seq<Wish>) {
    && leases.Keys <= leases'.Keys
    && forall l <- leases' | l !in leases ::
         exists i :: 0 <= i < |wanted| && wanted[i].hasOffer && wanted[i].provider == leases'[l].provider && wanted[i].profile == leases'[l].profile
  }

  lemma WantedGrows(leases: map<LeaseId, Lease>, leases': map<LeaseId, Lease>, wanted: seq<Wish>)
    requires OnlyWanted(leases, leases', wanted)
    ensures leases.Keys <= leases'.Keys
  {
  }

  lemma NothingNew(leases: map<LeaseId, Lease>, leases': map<LeaseId, Lease>, wanted: seq<Wish>)
    requires leases'.Keys == leases.Keys
    ensures OnlyWanted(leases, leases', wanted)
  {
  }

  lemma StillWanted(a: map<LeaseId, Lease>, b: map<LeaseId, Lease>, c: map<LeaseId, Lease>,
                    wanted: seq<Wish>, i: nat)
    requires OnlyWanted(a, b, wanted) && b.Keys <= c.Keys && LeasesLater(b, c) && i < |wanted|
    requires forall l <- c | l !in b :: wanted[i].hasOffer && c[l].provider == wanted[i].provider && c[l].profile == wanted[i].profile
    ensures OnlyWanted(a, c, wanted)
  {
    forall l <- c | l !in a
      ensures exists k :: 0 <= k < |wanted| && wanted[k].hasOffer && wanted[k].provider == c[l].provider && wanted[k].profile == c[l].profile
    {
      if l in b {
        var k :| 0 <= k < |wanted| && wanted[k].hasOffer && wanted[k].provider == b[l].provider && wanted[k].profile == b[l].profile;
        assert Succeeds(b[l], c[l]);
      } else {
        assert wanted[i].provider == c[l].provider && wanted[i].profile == c[l].profile;
      }
    }
  }

  lemma SameLeases(a: map<LeaseId, Lease>, b: map<LeaseId, Lease>, c: map<LeaseId, Lease>,
                   wanted: seq<Wish>)
    requires OnlyWanted(a, b, wanted) && LeasesLater(a, b) && c.Keys == b.Keys && LeasesLater(b, c)
    ensures OnlyWanted(a, c, wanted) && LeasesLater(a, c)
  {
    LaterThen(a, b, c);
    forall l <- c | l !in a
      ensures exists k :: 0 <= k < |wanted| && wanted[k].hasOffer && wanted[k].provider == c[l].provider && wanted[k].profile == c[l].profile
    {
      var k :| 0 <= k < |wanted| && wanted[k].hasOffer && wanted[k].provider == b[l].provider && wanted[k].profile == b[l].profile;
      assert Succeeds(b[l], c[l]);
    }
  }

  lemma OtherTimesStay(m: Memory, m': Memory, p: PodId)
    requires m' == m || m' == Forgotten(m, p)
    ensures forall q | q != p :: SameEntry(m.lastActivity, m'.lastActivity, q)
    ensures p in m'.lastActivity ==> m' == m
  {
  }

  lemma OtherTimesAreSame(m: map<PodId, int>, m': map<PodId, int>, p: PodId)
    requires forall q | q != p :: SameEntry(m, m', q)
    ensures forall q | q != p :: (q in m <==> q in m') && (q in m ==> m'[q] == m[q])
  {
    forall q | q != p ensures (q in m <==> q in m') && (q in m ==> m'[q] == m[q]) {
      assert SameEntry(m, m', q);
    }
  }

  lemma SameBut(a: set<PodId>, b: set<PodId>, p: PodId)
    requires a - {p} == b - {p}
    ensures forall q | q != p :: q in a <==> q in b
  {
    forall q | q != p ensures q in a <==> q in b {
      assert q in a - {p} <==> q in b - {p};
    }
  }

  predicate SameEntry<V(==)>(m: map<PodId, V>, m': map<PodId, V>, p: PodId) {
    (p in m <==> p in m') && (p in m ==> m'[p] == m[p])
  }

  lemma OthersAreKept<V>(m: map<PodId, V>, m': map<PodId, V>, p: PodId)
    requires p in m && forall q | q != p :: SameEntry(m, m', q)
    ensures m'.Keys <= m.Keys
    ensures forall q <- m | q != p :: q in m' && m'[q] == m[q]
  {
    forall q <- m' ensures q in m {
      if q != p {
        assert SameEntry(m, m', q);
      }
    }
    forall q <- m | q != p ensures q in m' && m'[q] == m[q] {
      assert SameEntry(m, m', q);
    }
  }

  /** What becomes of a known machine after its status was seen: a dead one is forgotten and its
      lease closed, the lease of a stopped one is revoked, and the status of any other is
      noted. */
  predicate IsSettled(status: PodStatus, p: PodId, active': map<PodId, PodStatus>, leases': map<LeaseId, Lease>,
                      l: LeaseId) {
    if status in {Absent, Terminated} then p !in active' && l in leases' && !HasOpen(leases', l)
    else if status.Stopped? then HasRevoked(leases', l)
    else p in active' && active'[p] == status
  }

  /** The known machines of `start` have been looked at, except `todo`. */
  ghost predicate Surveyed(start: World, w: World, todo: set<PodId>, seen: map<PodId, PodStatus>) {
    && Survived(start, w) && seen.Keys == start.memory.active.Keys - todo
    && EntriesOf(todo, start.memory.leases, w.memory.leases, w.memory.active) && AllSettled(start, w, seen)
  }

  ghost predicate AllSettled(start: World, w: World, seen: map<PodId, PodStatus>) {
    forall p <- seen ::
      p in start.memory.leases && IsSettled(seen[p], p, w.memory.active, w.leases, start.memory.leases[p])
  }

  /** Only machines shown dead were forgotten. */
  ghost predicate Survived(start: World, w: World) {
    && w.leases.Keys == start.leases.Keys && Later(start, w) && w.memory.active.Keys <= start.memory.active.Keys
    && (forall p <- start.memory.active | p !in w.memory.active :: p in w.reported)
  }

  /** What looking at machine `p` may change. */
  ghost predicate LooksAt(w: World, w': World, p: PodId) {
    && w'.leases.Keys == w.leases.Keys && Later(w, w') && p in w.memory.leases && p in w.memory.active
    && (forall q | q != p :: SameEntry(w.memory.active, w'.memory.active, q))
    && (forall q | q != p :: SameEntry(w.memory.leases, w'.memory.leases, q))
    && w.reported <= w'.reported && (p !in w'.memory.active ==> p in w'.reported)
  }

  lemma NothingLooked(w: World, w': World, p: PodId)
    requires w'.leases.Keys == w.leases.Keys && Later(w, w') && w'.memory == w.memory && w.reported <= w'.reported
    requires p in w.memory.leases && p in w.memory.active
    ensures LooksAt(w, w', p)
  {
    hide Later;
  }

  lemma DroppedLooks(w: World, w': World, l: LeaseId, p: PodId)
    requires Handled(w, w', l) && p in w.memory.leases && p in w.memory.active
    requires w'.memory == w.memory || (w'.memory == Forgotten(w.memory, p) && p in w'.reported)
    ensures LooksAt(w, w', p)
  {
    HandledIsLater(w, w', l);
    hide Later, Handled;
  }

  lemma RefreshedLooks(w: World, w': World, l: LeaseId, p: PodId, status: PodStatus)
    requires Handled(w, w', l) && p in w.memory.leases && p in w.memory.active
    requires w'.memory == w.memory.(active := w.memory.active[p := status])
    ensures LooksAt(w, w', p)
  {
    HandledIsLater(w, w', l);
    hide Later, Handled;
  }

  lemma NoneSurveyed(w: World, history: seq<Step>, script: nat -> Reply, made: nat)
    requires w.memory.active.Keys == w.memory.leases.Keys
    ensures Surveyed(w, w, w.memory.active.Keys, map[])
    ensures Spares(history, |history|, w.memory.active.Keys)
    ensures WereSeen(map[], history, |history|, script, made, made)
  {
  }

  lemma SurvivesThen(start: World, w: World, w': World, p: PodId)
    requires Survived(start, w) && LooksAt(w, w', p)
    ensures Survived(start, w')
  {
    WorldLaterThen(start, w, w');
    OthersAreKept(w.memory.active, w'.memory.active, p);
  }

  lemma SurveyEnds(start: World, w: World, w': World, todo: set<PodId>, seen: map<PodId, PodStatus>, p: PodId)
    requires Surveyed(start, w, todo, seen) && LooksAt(w, w', p) && p in todo
    ensures Survived(start, w') && AllSettled(start, w', seen)
  {
    SurvivesThen(start, w, w', p);
    RevokedLater(w, w');
    forall q <- seen ensures IsSettled(seen[q], q, w'.memory.active, w'.leases, start.memory.leases[q]) {
      assert SameEntry(w.memory.active, w'.memory.active, q);
    }
  }

  lemma OneMoreSurveyed(start: World, w: World, w': World, todo: set<PodId>, seen: map<PodId, PodStatus>, p: PodId,
                        status: PodStatus)
    requires Surveyed(start, w, todo, seen) && LooksAt(w, w', p) && p in todo && todo <= start.memory.active.Keys
    requires IsSettled(status, p, w'.memory.active, w'.leases, w.memory.leases[p])
    ensures Surveyed(start, w', todo - {p}, seen[p := status]) && todo - {p} <= w'.memory.active.Keys
  {
    SurveyEnds(start, w, w', todo, seen, p);
    EntriesStay(w, w', todo, start.memory.leases, p);
    assert start.memory.leases[p] == w.memory.leases[p];
    hide IsSettled, Later, Survived, EntriesOf, LooksAt;
    assert seen[p := status].Keys == start.memory.active.Keys - (todo - {p});
  }

  lemma EntriesStay(w: World, w': World, todo: set<PodId>, leases: map<PodId, LeaseId>, p: PodId)
    requires EntriesOf(todo, leases, w.memory.leases, w.memory.active) && LooksAt(w, w', p)
    ensures EntriesOf(todo - {p}, leases, w'.memory.leases, w'.memory.active) && todo - {p} <= w'.memory.active.Keys
  {
    OthersAreKept(w.memory.active, w'.memory.active, p);
    OthersAreKept(w.memory.leases, w'.memory.leases, p);
    hide SameEntry, Later;
  }

  lemma SurveyDone(start: World, w: World, seen: map<PodId, PodStatus>)
    requires Surveyed(start, w, {}, seen)
    ensures Survived(start, w) && AllSettled(start, w, seen) && seen.Keys == start.memory.active.Keys
  {
  }

  lemma SameTables(w: World)
    requires Core(w)
    ensures w.memory.active.Keys == w.memory.leases.Keys == w.memory.lastActivity.Keys == w.memory.launchedAt.Keys
  {
  }

  lemma RevokedLater(w: World, w': World)
    requires Later(w, w')
    ensures forall l | HasRevoked(w.leases, l) :: HasRevoked(w'.leases, l)
  {
  }

  /** How a launch ended. */
  datatype LaunchOutcome = Launched(pod: PodId) | Uncertain | NoResource

  /** What looking for a lease's machine can show. */
  datatype Sighting = NotAsked | Gone | Seen(lease: Lease, pod: PodId, status: PodStatus)

  lemma HandledIgnoresMemory(w: World, w': World, memory: Memory, l: LeaseId)
    requires Handled(w, w', l)
    ensures Handled(w, w'.(memory := memory), l)
  {
  }

  lemma RowIsHandled(w: World, w': World, l: LeaseId)
    requires l in w.leases && l in w'.leases && Succeeds(w.leases[l], w'.leases[l])
    requires w' == w.(leases := w.leases[l := w'.leases[l]])
    ensures Handled(w, w', l)
  {
  }

  lemma WeatherIsHandled(w: World, w': World, l: LeaseId)
    requires Weather(w, w')
    ensures Handled(w, w', l)
  {
  }

  /** A key stays free until a lease is created. */
  lemma FreeInAnyWeather(leases: map<LeaseId, Lease>, leases': map<LeaseId, Lease>, provider: string, profile: string)
    requires KeyIsFree(leases, provider, profile) && leases'.Keys == leases.Keys && LeasesLater(leases, leases')
    ensures KeyIsFree(leases', provider, profile)
  {
  }

  /** The key is free again once the only lease created for it is closed. */
  lemma FreeAgain(leases: map<LeaseId, Lease>, leases': map<LeaseId, Lease>, provider: string, profile: string,
                  l: LeaseId)
    requires KeyIsFree(leases, provider, profile) && LeasesLater(leases, leases')
    requires leases'.Keys <= leases.Keys + {l} && !HasOpen(leases', l)
    ensures KeyIsFree(leases', provider, profile)
  {
    forall k <- leases' | IsOpen(leases'[k]) ensures leases'[k].provider != provider || leases'[k].profile != profile {
      assert Succeeds(leases[k], leases'[k]);
    }
  }

  lemma UnknownLease(w: World, l: LeaseId)
    requires Core(w) && l !in w.leases
    ensures l !in w.unseen && forall p <- w.pods :: !IsFor(w.pods, p, l)
  {
  }

  lemma AnswerIsHandled(start: World, w: World, p: PodId, l: LeaseId)
    requires Handled(start, w, l)
    ensures Handled(start, w.(reported := w.reported + {p}), l)
  {
  }

  lemma MissIsHandled(start: World, w: World, l: LeaseId)
    requires Handled(start, w, l)
    ensures Handled(start, w.(unseen := w.unseen + {l}), l)
  {
  }

  /** A known machine is in every table, under its own lease. */
  lemma TrackedPod(w: World, p: PodId)
    requires Core(w) && p in w.memory.active
    ensures p in w.memory.providers && p in w.memory.profiles && p in w.memory.leases
    ensures p in w.memory.lastActivity && p in w.memory.launchedAt
    ensures w.memory.leases[p] in w.leases && IsFor(w.pods, p, w.memory.leases[p]) && p in w.pods
  {
  }

  /** A bound lease's machine carries its name, and is known under it. */
  lemma BoundPod(w: World, l: LeaseId)
    requires Core(w) && l in w.leases && w.leases[l].pod.Some?
    ensures IsFor(w.pods, w.leases[l].pod.value, l)
    ensures w.leases[l].pod.value in w.memory.leases ==> w.memory.leases[w.leases[l].pod.value] == l
  {
  }

  /** A machine that is already known was launched when its lease was created. */
  lemma KnownTimes(w: World, l: LeaseId, p: PodId)
    requires Core(w) && l in w.leases && IsFor(w.pods, p, l)
    ensures p in w.memory.launchedAt <==> p in w.memory.lastActivity
    ensures p in w.memory.launchedAt <==> p in w.memory.leases
    ensures p in w.memory.launchedAt ==> w.memory.launchedAt[p] == w.leases[l].created
    ensures p in w.memory.leases ==> w.memory.leases[p] == l
  {
  }

  /** A lease is bound to no other machine than the one that carries its name, and no other
      lease is bound to that machine. */
  lemma OwnPodOnly(w: World, l: LeaseId, p: PodId)
    requires Core(w) && l in w.leases && IsFor(w.pods, p, l)
    ensures w.leases[l].pod in {None, Some(p)}
    ensures forall k <- w.leases | k != l :: w.leases[k].pod != Some(p)
  {
    if w.leases[l].pod.Some? {
      var q := w.leases[l].pod.value;
      assert IsFor(w.pods, q, l) && w.pods[q].name == w.pods[p].name;
      assert w.leases[l].pod == Some(p);
    }
  }

  lemma Restarted(origin: World, past: seq<Step>)
    requires Legal(origin, past)
    ensures Legal(origin, past + [Crash])
    ensures After(origin, past + [Crash]) == After(origin, past).(memory := NO_MEMORY)
  {
    PlayOne(origin, past, Crash);
  }
}
