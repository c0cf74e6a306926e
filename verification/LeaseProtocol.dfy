/** The lease protocol between the dispatcher, the durable job queue and the cloud
    providers (cloud_offload/dispatcher.py and the lease operations of
    cloud_offload/queue.py), as a transition system.

    A dispatcher opens a durable lease before it rents a paid machine and launches the
    machine under a name derived from the lease.  Every atomic action of the three parties
    is a `Step`; a crash can fall between any two of them.  */
module LeaseProtocol {
  import opened Prelude

  type LeaseId = nat
  type PodId = nat

  /** The name a machine is launched under.  Lease names are unique, and nobody else uses
      one. */
  datatype ResourceName = LeaseName(lease: LeaseId) | OtherName(text: string)

  /** `Absent` is a machine the provider no longer knows, `Unknown` one in a state without a
      name. */
  datatype PodStatus = Pending | Running | Stopped | Unknown | Terminated | Absent

  datatype Pod = Pod(provider: string, name: ResourceName, status: PodStatus)

  datatype LeaseStatus = Provisioning | Active | RevocationRequested | Terminating | Closed

  /** One row of `job_leases`: `pod` is its `instance_id`. */
  datatype Lease = Lease(
    provider: string, profile: string, created: int, pod: Option<PodId>, status: LeaseStatus,
    terminationRequested: bool, confirmed: bool)

  /** The dispatcher's own tables, lost in a crash. */
  datatype Memory = Memory(
    active: map<PodId, PodStatus>, providers: map<PodId, string>, profiles: map<PodId, string>,
    leases: map<PodId, LeaseId>, lastActivity: map<PodId, int>, launchedAt: map<PodId, int>)

  const NO_MEMORY := Memory(map[], map[], map[], map[], map[], map[])

  /** `unseen` are the leases whose name was missing from a completed listing of the
      provider's machines, `reported` the machines that some answer showed dead. */
  datatype World = World(
    leases: map<LeaseId, Lease>, pods: map<PodId, Pod>, memory: Memory, unseen: set<LeaseId>, reported: set<PodId>)

  predicate IsLive(s: PodStatus) {
    s.Pending? || s.Running? || s.Stopped? || s.Unknown?
  }

  /** A machine that is terminated or absent stays so. */
  predicate CanBecome(s: PodStatus, s': PodStatus) {
    IsLive(s) || s == s' || (s.Terminated? && s'.Absent?)
  }

  predicate IsOpen(lease: Lease) {
    lease.status != Closed
  }

  predicate KeyIsFree(leases: map<LeaseId, Lease>, provider: string, profile: string) {
    forall l <- leases :: !(IsOpen(leases[l]) && leases[l].provider == provider && leases[l].profile == profile)
  }

  /** The machine was launched for the lease. */
  predicate IsFor(pods: map<PodId, Pod>, p: PodId, l: LeaseId) {
    p in pods && pods[p].name == LeaseName(l)
  }

  /******* Steps *******/

  datatype Step =
    // the durable queue
    | Create(lease: LeaseId, provider: string, profile: string, created: int)
    | Bind(lease: LeaseId, pod: PodId)
    | Revoke(lease: LeaseId)
    | Attempt(lease: LeaseId)
    | Confirm(lease: LeaseId, pod: PodId)
    | CloseUnbound(lease: LeaseId)
    // the provider; a launch may take effect late, when its call has long returned or raised
    | Launch(lease: LeaseId, pod: PodId, status: PodStatus)
    | LaunchLate(lease: LeaseId, pod: PodId, status: PodStatus)
    | Miss(lease: LeaseId)
    | Terminate(pod: PodId, status: PodStatus)
    // the dispatcher's memory
    | Track(pod: PodId, lease: LeaseId, status: PodStatus, activity: int)
    | Refresh(pod: PodId, status: PodStatus)
    | Touch(pod: PodId, activity: int)
    | Forget(pod: PodId)
    | Crash
    // the environment
    | Drift(pod: PodId, status: PodStatus)
    | Appear(pod: PodId, provider: string, text: string, status: PodStatus)
    // what the provider answered, true or not, and where it did not answer
    | Inspected(pod: PodId, status: PodStatus)
    | AskFailed(lease: LeaseId)

  /** When a step may be taken: what the code must have established before it. */
  predicate Enabled(w: World, s: Step) {
    match s
    case Create(l, provider, profile, _) => l !in w.leases && KeyIsFree(w.leases, provider, profile)
    case Bind(l, p) =>
      && l in w.leases && IsFor(w.pods, p, l) && w.leases[l].pod in {None, Some(p)}
      && w.leases[l].status in {Provisioning, Active}
    case Revoke(l) => l in w.leases && w.leases[l].status in {Provisioning, Active}
    case Attempt(l) => l in w.leases && w.leases[l].pod.Some? && IsOpen(w.leases[l])
    case Confirm(l, p) => l in w.leases && IsFor(w.pods, p, l) && p in w.reported
    case CloseUnbound(l) => l in w.leases && w.leases[l].pod.None? && l in w.unseen
    case Launch(l, p, _) =>
      && l in w.leases && IsOpen(w.leases[l]) && w.leases[l].pod.None? && l !in w.unseen
      && p !in w.pods && forall q <- w.pods :: !IsFor(w.pods, q, l)
    case LaunchLate(l, p, _) =>
      l in w.leases && w.leases[l].pod.None? && p !in w.pods && forall q <- w.pods :: !IsFor(w.pods, q, l)
    case Miss(l) => l in w.leases
    case Terminate(p, status) =>
      && p in w.pods && w.pods[p].name.LeaseName? && w.pods[p].name.lease in w.leases
      && w.leases[w.pods[p].name.lease].pod == Some(p) && w.leases[w.pods[p].name.lease].status in {Terminating, Closed}
      && CanBecome(w.pods[p].status, status)
    case Track(p, l, _, _) => l in w.leases && IsFor(w.pods, p, l) && IsOpen(w.leases[l])
    case Refresh(p, _) => p in w.memory.active
    case Touch(p, _) => p in w.memory.lastActivity
    case Forget(p) => p in w.memory.leases ==> w.memory.leases[p] in w.leases && !IsOpen(w.leases[w.memory.leases[p]])
    case Crash => true
    case Drift(p, status) => p in w.pods && CanBecome(w.pods[p].status, status)
    case Appear(p, _, _, _) => p !in w.pods
    case Inspected(p, _) => p in w.pods
    case AskFailed(l) => l in w.leases
  }

  function Tracked(m: Memory, p: PodId, l: LeaseId, lease: Lease, status: PodStatus, activity: int): Memory {
    Memory(m.active[p := status], m.providers[p := lease.provider], m.profiles[p := lease.profile], m.leases[p := l],
           m.lastActivity[p := activity], m.launchedAt[p := lease.created])
  }

  function Forgotten(m: Memory, p: PodId): Memory {
    Memory(m.active - {p}, m.providers - {p}, m.profiles - {p}, m.leases - {p}, m.lastActivity - {p}, m.launchedAt - {p})
  }

  /** What a step changes. */
  function Apply(w: World, s: Step): World
    requires Enabled(w, s)
  {
    match s
    case Create(l, provider, profile, created) =>
      w.(leases := w.leases[l := Lease(provider, profile, created, None, Provisioning, false, false)])
    case Bind(l, p) => w.(leases := w.leases[l := w.leases[l].(pod := Some(p), status := Active)])
    case Revoke(l) => w.(leases := w.leases[l := w.leases[l].(status := RevocationRequested)])
    case Attempt(l) => w.(leases := w.leases[l := w.leases[l].(status := Terminating, terminationRequested := true)])
    case Confirm(l, p) => w.(leases := w.leases[l := w.leases[l].(status := Closed, confirmed := true)])
    case CloseUnbound(l) => w.(leases := w.leases[l := w.leases[l].(status := Closed)])
    case Launch(l, p, status) => w.(pods := w.pods[p := Pod(w.leases[l].provider, LeaseName(l), status)])
    case LaunchLate(l, p, status) => w.(pods := w.pods[p := Pod(w.leases[l].provider, LeaseName(l), status)])
    case Miss(l) => w.(unseen := w.unseen + {l})
    case Terminate(p, status) => w.(pods := w.pods[p := w.pods[p].(status := status)])
    case Track(p, l, status, activity) =>
      w.(memory := Tracked(w.memory, p, l, w.leases[l], status, activity))
    case Refresh(p, status) => w.(memory := w.memory.(active := w.memory.active[p := status]))
    case Touch(p, activity) => w.(memory := w.memory.(lastActivity := w.memory.lastActivity[p := activity]))
    case Forget(p) => w.(memory := Forgotten(w.memory, p))
    case Crash => w.(memory := NO_MEMORY)
    case Drift(p, status) => w.(pods := w.pods[p := w.pods[p].(status := status)])
    case Appear(p, provider, text, status) => w.(pods := w.pods[p := Pod(provider, OtherName(text), status)])
    case Inspected(p, status) => if IsLive(status) then w else w.(reported := w.reported + {p})
    case AskFailed(_) => w
  }

  /******* Invariants *******/

  /** A machine with a lease's name belongs to that lease and its provider. */
  ghost predicate NamesAreLeases(w: World) {
    forall p <- w.pods | w.pods[p].name.LeaseName? ::
      w.pods[p].name.lease in w.leases && w.pods[p].provider == w.leases[w.pods[p].name.lease].provider
  }

  /** A lease is never launched twice. */
  ghost predicate OneLaunchEach(w: World) {
    forall p, q | p in w.pods && q in w.pods && w.pods[p].name.LeaseName? && w.pods[p].name == w.pods[q].name :: p == q
  }

  ghost predicate BoundToOwn(w: World) {
    forall l <- w.leases | w.leases[l].pod.Some? :: IsFor(w.pods, w.leases[l].pod.value, l)
  }

  ghost predicate SingleFlight(w: World) {
    forall l, k | l in w.leases && k in w.leases && IsOpen(w.leases[l]) && IsOpen(w.leases[k])
                  && w.leases[l].provider == w.leases[k].provider && w.leases[l].profile == w.leases[k].profile :: l == k
  }

  /** The dispatcher's tables have the same keys, and each entry names its own lease. */
  ghost predicate Coherent(w: World) {
    SameKeys(w.memory) && OwnEntries(w.memory, w.leases, w.pods)
  }

  ghost predicate SameKeys(m: Memory) {
    m.active.Keys == m.providers.Keys == m.profiles.Keys == m.leases.Keys == m.lastActivity.Keys == m.launchedAt.Keys
  }

  ghost predicate OwnEntries(m: Memory, leases: map<LeaseId, Lease>, pods: map<PodId, Pod>)
    requires SameKeys(m)
  {
    forall p <- m.leases ::
      && m.leases[p] in leases && IsFor(pods, p, m.leases[p])
      && m.providers[p] == leases[m.leases[p]].provider && m.profiles[p] == leases[m.leases[p]].profile
      && m.launchedAt[p] == leases[m.leases[p]].created
  }

  ghost predicate KnownUnseen(w: World) {
    w.unseen <= w.leases.Keys && w.reported <= w.pods.Keys
  }

  ghost predicate Core(w: World) {
    NamesAreLeases(w) && OneLaunchEach(w) && BoundToOwn(w) && SingleFlight(w) && Coherent(w) && KnownUnseen(w)
  }

  /** No paid orphan: every live machine the dispatcher launched belongs to an open lease,
      which is bound to it or unbound with its name. */
  ghost predicate NoOrphan(w: World) {
    forall p <- w.pods | w.pods[p].name.LeaseName? && IsLive(w.pods[p].status) ::
      && w.pods[p].name.lease in w.leases && IsOpen(w.leases[w.pods[p].name.lease])
      && w.leases[w.pods[p].name.lease].pod in {None, Some(p)}
  }

  /** An unbound lease whose name was missing from a listing has no live machine. */
  ghost predicate UnseenIsGone(w: World) {
    forall p <- w.pods | w.pods[p].name.LeaseName? && IsLive(w.pods[p].status) ::
      var l := w.pods[p].name.lease; l in w.unseen && l in w.leases ==> w.leases[l].pod.Some?
  }

  /** A machine of a lease that was shown dead is dead. */
  ghost predicate ReportedIsDead(w: World) {
    forall p <- w.pods | w.pods[p].name.LeaseName? && IsLive(w.pods[p].status) :: p !in w.reported
  }

  /** What the answers said that leases can be closed on is true. */
  ghost predicate AnswersAreTrue(w: World) {
    UnseenIsGone(w) && ReportedIsDead(w)
  }

  /** What no step undoes: leases and machines are never removed and keep what they were
      created with, a binding is final, a revoked lease stays revoked, a closed one closed,
      and a dead machine dead. */
  ghost predicate Later(w: World, w': World) {
    LeasesLater(w.leases, w'.leases) && PodsLater(w.pods, w'.pods)
  }

  ghost predicate LeasesLater(leases: map<LeaseId, Lease>, leases': map<LeaseId, Lease>) {
    forall l <- leases :: l in leases' && Succeeds(leases[l], leases'[l])
  }

  ghost predicate PodsLater(pods: map<PodId, Pod>, pods': map<PodId, Pod>) {
    forall p <- pods ::
      && p in pods' && pods'[p].name == pods[p].name && pods'[p].provider == pods[p].provider
      && CanBecome(pods[p].status, pods'[p].status)
  }

  predicate Succeeds(lease: Lease, lease': Lease) {
    && lease'.provider == lease.provider && lease'.profile == lease.profile && lease'.created == lease.created
    && (lease.pod.Some? || lease.status !in {Provisioning, Active} ==> lease'.pod == lease.pod)
    && (IsOpen(lease') ==> IsOpen(lease))
    && (lease'.status in {Provisioning, Active} ==> lease.status in {Provisioning, Active})
    && (lease.status in {Terminating, Closed} ==> lease'.status in {Terminating, Closed})
  }

  lemma StepIsLater(w: World, s: Step)
    requires Core(w) && Enabled(w, s)
    ensures Later(w, Apply(w, s))
  {
    LeasesAreLater(w, s);
    hide Core, Enabled, Apply, LeasesLater, CanBecome;
    PodsAreLater(w, s);
  }

  lemma LeasesAreLater(w: World, s: Step)
    requires Core(w) && Enabled(w, s)
    ensures LeasesLater(w.leases, Apply(w, s).leases)
  {
    hide Coherent, SingleFlight, KeyIsFree, Tracked, Forgotten, OneLaunchEach, NamesAreLeases, CanBecome;
    hide KnownUnseen, IsFor;
  }

  lemma PodsAreLater(w: World, s: Step)
    requires Core(w) && Enabled(w, s)
    ensures PodsLater(w.pods, Apply(w, s).pods)
  {
    hide Core, KeyIsFree, Tracked, Forgotten;
  }

  lemma StepKeepsNames(w: World, s: Step)
    requires Core(w) && Enabled(w, s)
    ensures NamesAreLeases(Apply(w, s)) && KnownUnseen(Apply(w, s))
  {
    hide Coherent, OneLaunchEach, BoundToOwn, SingleFlight;
  }

  lemma StepKeepsOneLaunch(w: World, s: Step)
    requires Core(w) && Enabled(w, s)
    ensures OneLaunchEach(Apply(w, s))
  {
    hide Coherent, NamesAreLeases, BoundToOwn, SingleFlight, KnownUnseen, KeyIsFree;
  }

  lemma StepKeepsBinding(w: World, s: Step)
    requires Core(w) && Enabled(w, s)
    ensures BoundToOwn(Apply(w, s))
  {
    hide Coherent, NamesAreLeases, OneLaunchEach, SingleFlight, KnownUnseen, KeyIsFree;
  }

  lemma StepKeepsSingleFlight(w: World, s: Step)
    requires Core(w) && Enabled(w, s)
    ensures SingleFlight(Apply(w, s))
  {
    hide Coherent, NamesAreLeases, OneLaunchEach, BoundToOwn, KnownUnseen;
  }

  lemma EntriesSurvive(m: Memory, w: World, w': World)
    requires SameKeys(m) && OwnEntries(m, w.leases, w.pods) && Later(w, w')
    ensures OwnEntries(m, w'.leases, w'.pods)
  {
  }

  lemma StepKeepsCoherence(w: World, s: Step)
    requires Core(w) && Enabled(w, s)
    ensures Coherent(Apply(w, s))
  {
    hide NamesAreLeases, OneLaunchEach, BoundToOwn, SingleFlight, KnownUnseen, KeyIsFree, Later;
    if s.Track? {
      TrackingKeepsCoherence(w, s);
    } else if s.Forget? || s.Refresh? || s.Touch? || s.Crash? {
      MemoryStepKeepsCoherence(w, s);
    } else {
      StepIsLater(w, s);
      EntriesSurvive(w.memory, w, Apply(w, s));
      assert Apply(w, s).memory == w.memory;
    }
  }

  lemma TrackingKeepsCoherence(w: World, s: Step)
    requires Coherent(w) && Enabled(w, s) && s.Track?
    ensures Coherent(Apply(w, s))
  {
  }

  lemma MemoryStepKeepsCoherence(w: World, s: Step)
    requires Coherent(w) && Enabled(w, s) && (s.Forget? || s.Refresh? || s.Touch? || s.Crash?)
    ensures Coherent(Apply(w, s))
  {
  }

  lemma StepKeepsCore(w: World, s: Step)
    requires Core(w) && Enabled(w, s)
    ensures Core(Apply(w, s))
  {
    StepKeepsNames(w, s);
    StepKeepsOneLaunch(w, s);
    StepKeepsBinding(w, s);
    StepKeepsSingleFlight(w, s);
    StepKeepsCoherence(w, s);
    hide NamesAreLeases, OneLaunchEach, BoundToOwn, SingleFlight, Coherent, KnownUnseen, Enabled, Apply;
  }

  /** A lease is closed although its machine lives. */
  ghost predicate ClosesOver(w: World, s: Step) {
    || (s.CloseUnbound? && exists p :: IsFor(w.pods, p, s.lease) && IsLive(w.pods[p].status))
    || (s.Confirm? && IsFor(w.pods, s.pod, s.lease) && IsLive(w.pods[s.pod].status))
  }

  /** A launch takes effect only after the lease was closed. */
  predicate LaunchesClosed(w: World, s: Step) {
    s.LaunchLate? && IsLive(s.status) && s.lease in w.leases && !IsOpen(w.leases[s.lease])
  }

  /** A step makes a paid orphan exactly when it closes a lease whose machine is alive, or
      launches one for a lease that is closed. */
  lemma StepOrphansExactlyByClosingOver(w: World, s: Step)
    requires Core(w) && NoOrphan(w) && Enabled(w, s)
    ensures NoOrphan(Apply(w, s)) <==> !ClosesOver(w, s) && !LaunchesClosed(w, s)
  {
    hide Coherent, SingleFlight, KnownUnseen, KeyIsFree, Tracked, Forgotten;
    if ClosesOver(w, s) {
      ClosingOrphans(w, s);
    } else if LaunchesClosed(w, s) {
      assert s.pod in Apply(w, s).pods;
    } else {
      OtherStepsAreSafe(w, s);
    }
  }

  lemma OtherStepsAreSafe(w: World, s: Step)
    requires Core(w) && NoOrphan(w) && Enabled(w, s) && !ClosesOver(w, s) && !LaunchesClosed(w, s)
    ensures NoOrphan(Apply(w, s))
  {
    hide Coherent, SingleFlight, KnownUnseen, KeyIsFree, Tracked, Forgotten;
  }

  lemma ClosingOrphans(w: World, s: Step)
    requires NamesAreLeases(w) && Enabled(w, s) && ClosesOver(w, s)
    ensures !NoOrphan(Apply(w, s))
  {
    hide KeyIsFree, Tracked, Forgotten;
    if s.Confirm? {
      assert s.pod in Apply(w, s).pods;
    } else {
      var p :| IsFor(w.pods, p, s.lease) && IsLive(w.pods[p].status);
      assert p in Apply(w, s).pods;
    }
  }

  /** A listing without the name of an unbound lease, although its machine lives. */
  ghost predicate Overlooks(w: World, s: Step) {
    && s.Miss? && s.lease in w.leases && w.leases[s.lease].pod.None?
    && exists p :: IsFor(w.pods, p, s.lease) && IsLive(w.pods[p].status)
  }

  /** An inspection that shows a live machine of a lease as dead. */
  ghost predicate Denies(w: World, s: Step) {
    && s.Inspected? && !IsLive(s.status)
    && s.pod in w.pods && w.pods[s.pod].name.LeaseName? && IsLive(w.pods[s.pod].status)
  }

  /** A launch takes effect only after its name was missed, or its lease closed. */
  predicate Belies(w: World, s: Step) {
    && s.LaunchLate? && IsLive(s.status) && s.lease in w.leases
    && (s.lease in w.unseen || !IsOpen(w.leases[s.lease]))
  }

  /** The provider misleads: an answer overlooks or denies a live machine, or a launch makes an
      answer untrue afterwards. */
  ghost predicate Deceives(w: World, s: Step) {
    Overlooks(w, s) || Denies(w, s) || Belies(w, s)
  }

  /** No machine is orphaned, and what answers said stays true, exactly unless the provider
      misleads or a lease is closed over its machine. */
  lemma StepKeepsTruthExactly(w: World, s: Step)
    requires Core(w) && NoOrphan(w) && AnswersAreTrue(w) && Enabled(w, s)
    ensures NoOrphan(Apply(w, s)) && AnswersAreTrue(Apply(w, s)) <==> !Deceives(w, s)
  {
    StepKeepsUnseenExactly(w, s);
    StepKeepsReportedExactly(w, s);
    ClosesOnlyAnswered(w, s);
    StepOrphansExactlyByClosingOver(w, s);
    hide Core, Enabled, Apply, UnseenIsGone, ReportedIsDead, Overlooks, Denies, NoOrphan;
  }

  lemma StepKeepsUnseenExactly(w: World, s: Step)
    requires Core(w) && UnseenIsGone(w) && Enabled(w, s)
    ensures UnseenIsGone(Apply(w, s)) <==>
              !Overlooks(w, s) && !(s.LaunchLate? && IsLive(s.status) && s.lease in w.unseen)
  {
    hide Coherent, SingleFlight, OneLaunchEach, BoundToOwn, KeyIsFree, Tracked, Forgotten;
    if Overlooks(w, s) {
      var p :| IsFor(w.pods, p, s.lease) && IsLive(w.pods[p].status);
      assert p in Apply(w, s).pods;
    } else if s.LaunchLate? && IsLive(s.status) && s.lease in w.unseen {
      assert s.pod in Apply(w, s).pods;
    }
  }

  lemma StepKeepsReportedExactly(w: World, s: Step)
    requires Core(w) && ReportedIsDead(w) && Enabled(w, s)
    ensures ReportedIsDead(Apply(w, s)) <==> !Denies(w, s)
  {
    hide Coherent, SingleFlight, OneLaunchEach, BoundToOwn, NamesAreLeases, KeyIsFree, Tracked, Forgotten;
    if Denies(w, s) {
      assert s.pod in Apply(w, s).pods;
    }
  }

  /** No machine is orphaned, and no step that can follow orphans one, unless a launch takes
      effect late. */
  ghost predicate Secure(w: World) {
    NoOrphan(w) && forall s | Enabled(w, s) && !s.LaunchLate? :: NoOrphan(Apply(w, s))
  }

  /** What the provider has answered is all that closing a lease goes by. */
  lemma SecureExactly(w: World)
    requires Core(w) && NoOrphan(w)
    ensures Secure(w) <==> AnswersAreTrue(w)
  {
    hide Coherent, SingleFlight, OneLaunchEach, BoundToOwn, KeyIsFree, NoOrphan, Enabled, Apply;
    if AnswersAreTrue(w) {
      forall s | Enabled(w, s) && !s.LaunchLate? ensures NoOrphan(Apply(w, s)) {
        ClosesOnlyAnswered(w, s);
        StepOrphansExactlyByClosingOver(w, s);
      }
    } else if !UnseenIsGone(w) {
      var p :| && p in w.pods && w.pods[p].name.LeaseName? && IsLive(w.pods[p].status) && w.pods[p].name.lease in w.unseen
               && w.pods[p].name.lease in w.leases && w.leases[w.pods[p].name.lease].pod.None?;
      UnseenCanBeOrphaned(w, p);
    } else {
      var p :| p in w.pods && w.pods[p].name.LeaseName? && IsLive(w.pods[p].status) && p in w.reported;
      ReportedCanBeOrphaned(w, p);
    }
  }

  lemma ClosesOnlyAnswered(w: World, s: Step)
    requires AnswersAreTrue(w) && Enabled(w, s)
    ensures !ClosesOver(w, s)
  {
    hide KeyIsFree;
  }

  lemma UnseenCanBeOrphaned(w: World, p: PodId)
    requires Core(w) && NoOrphan(w) && p in w.pods && w.pods[p].name.LeaseName? && IsLive(w.pods[p].status)
    requires var l := w.pods[p].name.lease; l in w.unseen && l in w.leases && w.leases[l].pod.None?
    ensures !Secure(w)
  {
    var s := CloseUnbound(w.pods[p].name.lease);
    assert Enabled(w, s) && ClosesOver(w, s);
    StepOrphansExactlyByClosingOver(w, s);
  }

  lemma ReportedCanBeOrphaned(w: World, p: PodId)
    requires Core(w) && NoOrphan(w) && p in w.pods && w.pods[p].name.LeaseName? && IsLive(w.pods[p].status)
    requires p in w.reported
    ensures !Secure(w)
  {
    var s := Confirm(w.pods[p].name.lease, p);
    assert Enabled(w, s) && ClosesOver(w, s);
    StepOrphansExactlyByClosingOver(w, s);
  }

  /******* Runs *******/

  /** The world after a run, if each of its steps could be taken. */
  ghost function Play(origin: World, steps: seq<Step>): Option<World> {
    if steps == [] then Some(origin)
    else
      match Play(origin, steps[..|steps| - 1])
      case None => None
      case Some(w) =>
        var s := steps[|steps| - 1];
        if Enabled(w, s) then Some(Apply(w, s)) else None
  }

  ghost predicate Legal(origin: World, steps: seq<Step>) {
    Play(origin, steps).Some?
  }

  ghost function After(origin: World, steps: seq<Step>): World
    requires Legal(origin, steps)
  {
    Play(origin, steps).value
  }

  /** Every beginning of a run is a run: a crash may fall after any step. */
  lemma {:induction false} PrefixIsLegal(origin: World, steps: seq<Step>, n: nat)
    requires Legal(origin, steps) && n <= |steps|
    ensures Legal(origin, steps[..n])
    ensures n < |steps| ==> Enabled(After(origin, steps[..n]), steps[n])
    ensures n < |steps| ==> Legal(origin, steps[..n + 1])
    ensures n < |steps| ==> After(origin, steps[..n + 1]) == Apply(After(origin, steps[..n]), steps[n])
    decreases |steps|
  {
    hide Enabled, Apply;
    var front := steps[..|steps| - if steps == [] then 0 else 1];
    if n < |steps| - 1 {
      PrefixIsLegal(origin, front, n);
      assert front[..n] == steps[..n] && front[..n + 1] == steps[..n + 1];
    } else if n == |steps| {
      assert steps[..n] == steps;
    } else {
      assert steps[..n + 1] == steps && steps[..n] == front;
    }
  }

  lemma {:induction false} RunKeepsCore(origin: World, steps: seq<Step>)
    requires Core(origin) && Legal(origin, steps)
    ensures Core(After(origin, steps))
  {
    hide Core, Enabled, Apply;
    if steps != [] {
      var front := steps[..|steps| - 1];
      RunKeepsCore(origin, front);
      StepKeepsCore(After(origin, front), steps[|steps| - 1]);
    }
  }

  /** The provider does not mislead in step `n` of the run. */
  ghost predicate HonestAt(origin: World, steps: seq<Step>, n: nat)
    requires n < |steps|
  {
    Legal(origin, steps[..n]) && !Deceives(After(origin, steps[..n]), steps[n])
  }

  ghost predicate Honest(origin: World, steps: seq<Step>) {
    forall n: nat | n < |steps| :: HonestAt(origin, steps, n)
  }

  ghost predicate SecureAt(origin: World, steps: seq<Step>, n: nat)
    requires n <= |steps|
  {
    Legal(origin, steps[..n]) && Secure(After(origin, steps[..n]))
  }

  /** No paid orphan in any reachable state, wherever a crash or an uncertain launch falls, as
      long as no listing overlooked a live machine, no inspection denied one, and no launch took
      effect after its name was missed or its lease closed. */
  lemma {:induction false} NoPaidOrphan(origin: World, steps: seq<Step>, n: nat)
    requires Core(origin) && NoOrphan(origin) && AnswersAreTrue(origin)
    requires Legal(origin, steps) && Honest(origin, steps) && n <= |steps|
    ensures Legal(origin, steps[..n])
    ensures var w := After(origin, steps[..n]);
            Core(w) && NoOrphan(w) && AnswersAreTrue(w)
  {
    if n == 0 {
      assert steps[..0] == [];
    } else {
      hide Core, NoOrphan, AnswersAreTrue, Enabled, Apply, Deceives, Play;
      assert HonestAt(origin, steps, n - 1);
      hide Honest;
      NoPaidOrphan(origin, steps, n - 1);
      PrefixIsLegal(origin, steps, n - 1);
      SafelyOn(After(origin, steps[..n - 1]), steps[n - 1]);
    }
  }

  lemma SafelyOn(w: World, s: Step)
    requires Core(w) && NoOrphan(w) && AnswersAreTrue(w) && Enabled(w, s) && !Deceives(w, s)
    ensures Core(Apply(w, s)) && NoOrphan(Apply(w, s)) && AnswersAreTrue(Apply(w, s))
  {
    hide Core, NoOrphan, AnswersAreTrue, Enabled, Apply, Deceives;
    StepKeepsCore(w, s);
    StepKeepsTruthExactly(w, s);
  }

  lemma SecureRunIsHonest(origin: World, steps: seq<Step>)
    requires Core(origin) && NoOrphan(origin) && AnswersAreTrue(origin) && Legal(origin, steps)
    requires forall k: nat | k <= |steps| :: SecureAt(origin, steps, k)
    ensures Honest(origin, steps)
  {
    hide Core, NoOrphan, AnswersAreTrue, Enabled, Apply, Deceives, Play, Secure;
    forall k: nat | k < |steps| ensures HonestAt(origin, steps, k) {
      PrefixIsLegal(origin, steps, k);
      RunKeepsCore(origin, steps[..k]);
      RunKeepsCore(origin, steps[..k + 1]);
      assert SecureAt(origin, steps, k) && SecureAt(origin, steps, k + 1);
      var w := After(origin, steps[..k]);
      SecureHasNoOrphan(w);
      SecureHasNoOrphan(Apply(w, steps[k]));
      SecureExactly(w);
      SecureExactly(Apply(w, steps[k]));
      StepKeepsTruthExactly(w, steps[k]);
    }
  }

  lemma SecureHasNoOrphan(w: World)
    requires Secure(w)
    ensures NoOrphan(w)
  {
  }

  /** A run is clear of paid orphans, and one step away from none, all along, exactly when no
      listing on it overlooked a live machine, no inspection denied one, and no launch took effect
      after its name was missed or its lease closed. */
  lemma NoPaidOrphanExactly(origin: World, steps: seq<Step>)
    requires Core(origin) && NoOrphan(origin) && AnswersAreTrue(origin) && Legal(origin, steps)
    ensures (forall n: nat | n <= |steps| :: SecureAt(origin, steps, n)) <==> Honest(origin, steps)
  {
    hide Core, NoOrphan, AnswersAreTrue, Secure, HonestAt, Play;
    if forall n: nat | n <= |steps| :: SecureAt(origin, steps, n) {
      SecureRunIsHonest(origin, steps);
    }
    if Honest(origin, steps) {
      forall n: nat | n <= |steps| ensures SecureAt(origin, steps, n) {
        NoPaidOrphan(origin, steps, n);
        SecureExactly(After(origin, steps[..n]));
      }
    }
  }

  /** A closed lease is never opened again. */
  lemma {:induction false} ClosedForGood(origin: World, steps: seq<Step>, l: LeaseId)
    requires Legal(origin, steps) && l in origin.leases && !IsOpen(origin.leases[l])
    ensures var w := After(origin, steps); l in w.leases && !IsOpen(w.leases[l])
  {
    if steps != [] {
      ClosedForGood(origin, steps[..|steps| - 1], l);
      hide KeyIsFree, Tracked, Forgotten;
    }
  }

  /** The step closes the lease, on the word of its provider: the machine was shown dead, or its
      name was missing from a listing. */
  ghost predicate ClosesOnEvidence(w: World, s: Step, l: LeaseId) {
    || (s.Confirm? && s.lease == l && IsFor(w.pods, s.pod, l) && s.pod in w.reported)
    || (s == CloseUnbound(l) && l in w.unseen && l in w.leases && w.leases[l].pod.None?)
  }

  ghost predicate EvidenceAt(origin: World, steps: seq<Step>, l: LeaseId, n: nat)
    requires n < |steps|
  {
    Legal(origin, steps[..n]) && ClosesOnEvidence(After(origin, steps[..n]), steps[n], l)
  }

  lemma OnlyEvidenceCloses(w: World, s: Step, l: LeaseId)
    requires Enabled(w, s) && (l in w.leases ==> IsOpen(w.leases[l]))
    requires l in Apply(w, s).leases && !IsOpen(Apply(w, s).leases[l])
    ensures ClosesOnEvidence(w, s, l)
  {
    hide KeyIsFree, Tracked, Forgotten;
  }

  /** Whatever the run, a lease that has come to be closed was closed on such a word. */
  lemma {:induction false} ClosedOnEvidence(origin: World, steps: seq<Step>, l: LeaseId)
    requires Legal(origin, steps) && (l in origin.leases ==> IsOpen(origin.leases[l]))
    requires var w := After(origin, steps); l in w.leases && !IsOpen(w.leases[l])
    ensures exists n :: 0 <= n < |steps| && EvidenceAt(origin, steps, l, n)
  {
    hide Enabled, Apply, ClosesOnEvidence;
    var k := |steps| - 1;
    var front := steps[..k];
    var w := After(origin, front);
    if l in w.leases && !IsOpen(w.leases[l]) {
      ClosedOnEvidence(origin, front, l);
      var n :| 0 <= n < |front| && EvidenceAt(origin, front, l, n);
      assert front[..n] == steps[..n];
      assert EvidenceAt(origin, steps, l, n);
    } else {
      OnlyEvidenceCloses(w, steps[k], l);
      assert EvidenceAt(origin, steps, l, k);
    }
  }

  /** That word was given during the run. */
  lemma {:induction false} EvidenceWasGiven(origin: World, steps: seq<Step>)
    requires Legal(origin, steps)
    ensures forall l <- After(origin, steps).unseen | l !in origin.unseen :: Miss(l) in steps
    ensures forall p <- After(origin, steps).reported | p !in origin.reported ::
              exists s <- steps :: s.Inspected? && s.pod == p && !IsLive(s.status)
  {
    if steps != [] {
      var front, last := steps[..|steps| - 1], steps[|steps| - 1];
      EvidenceWasGiven(origin, front);
      assert steps == front + [last];
      GivesEvidence(After(origin, front), last);
      hide Enabled, Apply, IsLive;
      forall p <- After(origin, steps).reported | p !in origin.reported
        ensures exists s <- steps :: s.Inspected? && s.pod == p && !IsLive(s.status)
      {
        if p in After(origin, front).reported {
          var s :| s in front && s.Inspected? && s.pod == p && !IsLive(s.status);
          assert s in steps;
        } else {
          assert last in steps;
        }
      }
    }
  }

  lemma GivesEvidence(w: World, s: Step)
    requires Enabled(w, s)
    ensures forall l <- Apply(w, s).unseen | l !in w.unseen :: s == Miss(l)
    ensures forall p <- Apply(w, s).reported | p !in w.reported :: s.Inspected? && s.pod == p && !IsLive(s.status)
  {
    hide KeyIsFree, Tracked, Forgotten;
  }

  /******* Where the code falls short of closing every revoked resource *******/

  /** The lease was revoked, or closed, before it was bound to a machine. */
  ghost predicate RevokedUnbound(w: World, l: LeaseId) {
    l in w.leases && w.leases[l].pod.None? && w.leases[l].status in {RevocationRequested, Closed}
  }

  lemma RevokedUnboundStays(w: World, s: Step, l: LeaseId)
    requires RevokedUnbound(w, l) && Enabled(w, s)
    ensures RevokedUnbound(Apply(w, s), l)
    ensures s.Terminate? ==> !IsFor(w.pods, s.pod, l)
  {
    hide KeyIsFree, Tracked, Forgotten;
  }

  /** A lease revoked while unbound is never bound, and its machine is never terminated by the
      dispatcher, however the run continues. */
  lemma {:induction false} RevokedUnboundIsNeverTerminated(origin: World, steps: seq<Step>, l: LeaseId,
                        n: nat)
    requires Legal(origin, steps) && RevokedUnbound(origin, l) && n < |steps|
    ensures Legal(origin, steps[..n])
    ensures RevokedUnbound(After(origin, steps[..n]), l)
    ensures steps[n].Terminate? ==> !IsFor(After(origin, steps[..n]).pods, steps[n].pod, l)
  {
    hide Enabled, Apply, IsFor, RevokedUnbound;
    PrefixIsLegal(origin, steps, n);
    if n == 0 {
      assert steps[..0] == [];
    } else {
      RevokedUnboundIsNeverTerminated(origin, steps, l, n - 1);
      PrefixIsLegal(origin, steps, n - 1);
      RevokedUnboundStays(After(origin, steps[..n - 1]), steps[n - 1], l);
    }
    RevokedUnboundStays(After(origin, steps[..n]), steps[n], l);
  }

  lemma {:induction false} PlayOne(origin: World, steps: seq<Step>, s: Step)
    requires Legal(origin, steps) && Enabled(After(origin, steps), s)
    ensures Legal(origin, steps + [s])
    ensures After(origin, steps + [s]) == Apply(After(origin, steps), s)
  {
    assert (steps + [s])[..|steps|] == steps;
  }

  const EMPTY := World(map[], map[], NO_MEMORY, {}, {})

  /** A lease was created and a machine launched for it. */
  function NewLease(provider: string): Lease {
    Lease(provider, "f", 5, None, Provisioning, false, false)
  }

  function Launched(provider: string, status: PodStatus): World {
    World(map[0 := NewLease(provider)], map[7 := Pod(provider, LeaseName(0), status)], NO_MEMORY, {}, {})
  }

  function Launching(provider: string, status: PodStatus): seq<Step> {
    [Create(0, provider, "f", 5), Launch(0, 7, status)]
  }

  lemma LaunchIsReachable(provider: string, status: PodStatus)
    ensures Legal(EMPTY, Launching(provider, status)) && After(EMPTY, Launching(provider, status)) == Launched(provider, status)
  {
    var a, b := Create(0, provider, "f", 5), Launch(0, 7, status);
    assert Legal(EMPTY, []) && After(EMPTY, []) == EMPTY;
    hide Play;
    PlayOne(EMPTY, [], a);
    assert [] + [a] == [a];
    PlayOne(EMPTY, [a], b);
    assert [a] + [b] == Launching(provider, status);
  }

  /** Such a machine is reachable: the job is cancelled while the launch is under way. */
  lemma CancelledLaunchIsReachable()
    ensures var steps := Launching("p", Running) + [Revoke(0)];
            && Legal(EMPTY, steps) && RevokedUnbound(After(EMPTY, steps), 0)
            && IsFor(After(EMPTY, steps).pods, 7, 0) && IsLive(After(EMPTY, steps).pods[7].status)
  {
    LaunchIsReachable("p", Running);
    hide Play, Launching;
    PlayOne(EMPTY, Launching("p", Running), Revoke(0));
  }

  /** A machine that is rented only after its name was missed and its lease closed is a paid
      orphan, although every answer was true when it was given. */
  lemma LateLaunchIsOrphaned(provider: string)
    ensures var steps := [Create(0, provider, "f", 5)] + [Miss(0)] + [CloseUnbound(0)] + [LaunchLate(0, 7, Running)];
            Legal(EMPTY, steps) && !NoOrphan(After(EMPTY, steps))
  {
    var create := Create(0, provider, "f", 5);
    assert Legal(EMPTY, []) && After(EMPTY, []) == EMPTY;
    hide Play;
    PlayOne(EMPTY, [], create);
    assert [] + [create] == [create];
    PlayOne(EMPTY, [create], Miss(0));
    PlayOne(EMPTY, [create] + [Miss(0)], CloseUnbound(0));
    PlayOne(EMPTY, [create] + [Miss(0)] + [CloseUnbound(0)], LaunchLate(0, 7, Running));
    assert 7 in After(EMPTY, [create] + [Miss(0)] + [CloseUnbound(0)] + [LaunchLate(0, 7, Running)]).pods;
  }

  lemma BindingIsReachable(provider: string)
    ensures var steps, w := Launching(provider, Running) + [Bind(0, 7)], Launched(provider, Running);
            && Legal(EMPTY, steps)
            && After(EMPTY, steps) == w.(leases := map[0 := NewLease(provider).(pod := Some(7), status := Active)])
  {
    LaunchIsReachable(provider, Running);
    hide Play, Launching;
    PlayOne(EMPTY, Launching(provider, Running), Bind(0, 7));
  }

  /** An ordinary rental is reachable, too: the machine ends up running, bound and known. */
  lemma RentalIsReachable()
    ensures var steps := Launching("p", Running) + [Bind(0, 7)] + [Track(7, 0, Running, 9)];
            && Legal(EMPTY, steps) && 7 in After(EMPTY, steps).memory.active
            && 0 in After(EMPTY, steps).leases && After(EMPTY, steps).leases[0].pod == Some(7)
            && 7 in After(EMPTY, steps).memory.launchedAt && After(EMPTY, steps).memory.launchedAt[7] == 5
  {
    BindingIsReachable("p");
    hide Play, Launching;
    PlayOne(EMPTY, Launching("p", Running) + [Bind(0, 7)], Track(7, 0, Running, 9));
  }

  /** A machine whose name a listing misses before its lease is bound becomes a paid orphan,
      whatever its state. */
  lemma MissedMachineIsOrphaned(provider: string, status: PodStatus)
    requires IsLive(status)
    ensures var steps := Launching(provider, status) + [Miss(0)] + [CloseUnbound(0)];
            Legal(EMPTY, steps) && !NoOrphan(After(EMPTY, steps))
  {
    LaunchIsReachable(provider, status);
    hide Play, Launching;
    PlayOne(EMPTY, Launching(provider, status), Miss(0));
    PlayOne(EMPTY, Launching(provider, status) + [Miss(0)], CloseUnbound(0));
    assert 7 in Launched(provider, status).pods;
  }

  /** A running machine whose lease is bound becomes a paid orphan when an inspection shows it
      absent. */
  lemma DeniedMachineIsOrphaned(provider: string)
    ensures var steps := Launching(provider, Running) + [Bind(0, 7)] + [Inspected(7, Absent)] + [Confirm(0, 7)];
            Legal(EMPTY, steps) && !NoOrphan(After(EMPTY, steps))
  {
    BindingIsReachable(provider);
    hide Play, Launching;
    PlayOne(EMPTY, Launching(provider, Running) + [Bind(0, 7)], Inspected(7, Absent));
    PlayOne(EMPTY, Launching(provider, Running) + [Bind(0, 7)] + [Inspected(7, Absent)], Confirm(0, 7));
    assert 7 in Launched(provider, Running).pods;
  }
}
