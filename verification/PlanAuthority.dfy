/** The life of a plan's authority (cloud_offload/plan_protocol.py, `PlanProtocolStore`, with
    the plan transitions of cloud_offload/queue.py): quoted, reserved by an idempotent
    submission, followed, aborted or closed. */
module PlanAuthority {
  import opened Prelude

  type Digest = string

  datatype State = Preflighted | Submitting | Submitted | Running | Cancelling | Completed | Cancelled | Failed | Terminal

  /** The stored public quote. */
  datatype Report = Report(id: string, candidate: string, expires: int)

  datatype Receipt = Receipt(id: string, status: string, absent: bool)

  /** A row of `cloud_plans`. */
  datatype Row = Row(
    report: Report, job: Option<string>, key: Option<string>, state: State, closure: Option<Receipt>,
    request: Option<string>, quoted: Option<string>)

  /** A row of `cloud_plan_authority`: the private side of a submission. */
  datatype Vault = Vault(request: Option<string>, job: Option<string>)

  datatype Store = Store(rows: map<Digest, Row>, vaults: map<Digest, Vault>)

  datatype PlanError =
    | QuoteExpired | QuoteConflict | KeyConflict | NotQuoted | AlreadySubmitted | NotPreflighted | WrongBinding
    | UnknownStatus | BadReceipt | NotFound | CannotClose | Stale

  predicate IsTerminal(state: State) {
    state in {Completed, Cancelled, Failed, Terminal}
  }

  /******* Operations *******/

  function PutRow(s: Store, d: Digest, row: Row): Store {
    s.(rows := s.rows[d := row])
  }

  function Quote(report: Report, request: Option<string>): Row {
    Row(report, None, None, Preflighted, None, request, request)
  }

  /** The request replays the stored one, or names none. */
  predicate Replays(row: Row, request: Option<string>) {
    request.None? || (request.value != "" && row.request == request)
  }

  function Preflight(s: Store, d: Digest, report: Report, request: Option<string>, now: int): (Store,
                     Result<Report, PlanError>) {
    if report.expires <= now then (s, Err(QuoteExpired))
    else if d !in s.rows then
      (Store(s.rows[d := Quote(report, request)], s.vaults[d := Vault(None, None)]), Ok(report))
    else
      var prior := s.rows[d];
      if prior.state != Preflighted || prior.job.Some? || prior.report.expires > now then
        (s, if Replays(prior, request) then Ok(prior.report) else Err(QuoteConflict))
      else
        (PutRow(s, d, prior.(report := report, job := None, key := None, request := request, quoted := request)), Ok(report))
  }

  /** The submission: the accepted quote, the caller's key, request and job. */
  datatype Submission = Submission(plan: Digest, quote: string, candidate: string, key: string, request: string, job: string)

  /** The answer: a job, and the stored quote when the job was there before. */
  datatype Acceptance = Acceptance(job: string, replay: Option<Report>)

  ghost function HolderOf(s: Store, key: string): Option<Digest> {
    if d :| d in s.rows && s.rows[d].key == Some(key) then Some(d) else None
  }

  ghost function Submit(s: Store, q: Submission, now: int): (Store, Result<Acceptance, PlanError>) {
    var holder := HolderOf(s, q.key);
    if holder.Some? && (holder.value != q.plan || s.rows[holder.value].request != Some(q.request)) then (s, Err(KeyConflict))
    else if holder.Some? && s.rows[holder.value].job.Some? && s.rows[holder.value].job.value != "" then
      (s, Ok(Acceptance(s.rows[holder.value].job.value, Some(s.rows[holder.value].report))))
    else SubmitQuoted(s, q, now)
  }

  function SubmitQuoted(s: Store, q: Submission, now: int): (Store, Result<Acceptance, PlanError>) {
    if q.plan !in s.rows then (s, Err(NotQuoted))
    else
      var row := s.rows[q.plan];
      if row.job.Some? then
        if row.request == Some(q.request) && !IsTerminal(row.state) then (s, Ok(Acceptance(row.job.value, Some(row.report))))
        else (s, Err(AlreadySubmitted))
      else if row.state != Preflighted then (s, Err(NotPreflighted))
      else if row.report.id != q.quote || row.report.candidate != q.candidate then (s, Err(WrongBinding))
      else if row.report.expires <= now then (s, Err(QuoteExpired))
      else
        (Store(s.rows[q.plan := row.(job := Some(q.job), key := Some(q.key), request := Some(q.request), state := Submitting)],
               if q.plan in s.vaults then s.vaults[q.plan := Vault(Some(q.request), Some(q.job))] else s.vaults),
         Ok(Acceptance(q.job, None)))
  }

  function Cancel(s: Store, d: Digest): Store {
    if d in s.rows && s.rows[d].state in {Submitting, Submitted, Running} then
      PutRow(s, d, s.rows[d].(state := Cancelling))
    else s
  }

  /** The states a job report may move a plan to. */
  function Onward(state: State): set<State> {
    match state
    case Submitting => {Submitted, Running, Cancelling}
    case Submitted => {Running, Cancelling}
    case Running => {Cancelling}
    case _ => {}
  }

  function SyncStatus(s: Store, d: Digest, job: string, status: State): Store {
    if status in {Preflighted, Submitting} || d !in s.rows || s.rows[d].job != Some(job) || IsTerminal(s.rows[d].state) then s
    else if status !in Onward(s.rows[d].state) && status != s.rows[d].state then s
    else PutRow(s, d, s.rows[d].(state := status))
  }

  function ReconcileUnknownSubmit(s: Store, d: Digest, job: Option<string>): Store {
    if d in s.rows && s.rows[d].state == Submitting then
      var row := s.rows[d];
      PutRow(s, d, row.(state := Submitted, job := if row.job.Some? then row.job else job))
    else s
  }

  /** Clears the private side of any row with this job, but the public one only while it is
      still submitting. */
  function AbortSubmit(s: Store, d: Digest, job: string): Store {
    var s1 := if d in s.rows && s.rows[d].job == Some(job) && s.rows[d].state == Submitting
              then PutRow(s, d, s.rows[d].(job := None, key := None, request := None, state := Preflighted)) else s;
    if d in s1.vaults && s1.vaults[d].job == Some(job) then s1.(vaults := s1.vaults[d := Vault(None, None)]) else s1
  }

  function ClosureState(status: string): State {
    if status == "completed" then Completed else if status == "cancelled" then Cancelled
    else if status == "failed" then Failed else Terminal
  }

  predicate IsReceipt(r: Receipt) {
    r.id != "" && r.absent && r.status in {"completed", "cancelled", "failed", "terminal"}
  }

  function Close(s: Store, d: Digest, r: Receipt): (Store, Result<(), PlanError>) {
    if !IsReceipt(r) then (s, Err(BadReceipt))
    else if d !in s.rows then (s, Err(NotFound))
    else if IsTerminal(s.rows[d].state) then (s, Ok(()))
    else if s.rows[d].state == Preflighted then (s, Err(CannotClose))
    else (PutRow(s, d, s.rows[d].(state := ClosureState(r.status), closure := Some(r))), Ok(()))
  }

  /******* The queue's transactions *******/

  /** The state of the plan's job in the queue. */
  datatype JobState = Open | Done | Dead

  /** The queue's acceptance of a plan (`submit_plan_atomic`): it creates the job, whose name may
      be `taken`, and needs the private row. */
  ghost function Accept(s: Store, q: Submission, now: int, taken: bool): (Store, Result<Acceptance, PlanError>) {
    var holder := HolderOf(s, q.key);
    if holder.Some? && (holder.value != q.plan || s.rows[holder.value].request != Some(q.request)) then (s, Err(KeyConflict))
    else if holder.Some? && s.rows[holder.value].job.Some? && s.rows[holder.value].job.value != "" then
      (s, Ok(Acceptance(s.rows[holder.value].job.value, Some(s.rows[holder.value].report))))
    else AcceptQuoted(s, q, now, taken)
  }

  function AcceptQuoted(s: Store, q: Submission, now: int, taken: bool): (Store, Result<Acceptance, PlanError>) {
    if q.plan !in s.rows then (s, Err(NotQuoted))
    else
      var row := s.rows[q.plan];
      if row.job.Some? then
        if row.key == Some(q.key) && row.request == Some(q.request) then (s, Ok(Acceptance(row.job.value, Some(row.report))))
        else (s, Err(AlreadySubmitted))
      else if row.state != Preflighted then (s, Err(NotPreflighted))
      else if row.report.id != q.quote || row.report.candidate != q.candidate then (s, Err(WrongBinding))
      else if row.report.expires <= now then (s, Err(QuoteExpired))
      else if taken || q.plan !in s.vaults then (s, Err(Stale))
      else
        (Store(s.rows[q.plan := row.(job := Some(q.job), key := Some(q.key), request := Some(q.request), state := Submitting)],
               s.vaults[q.plan := Vault(Some(q.request), Some(q.job))]),
         Ok(Acceptance(q.job, None)))
  }

  /** The queue's cancellation of a job (`cancel_plan_atomic`): any valid receipt will do. */
  function CancelPlan(s: Store, d: Digest, job: string, work: JobState, r: Receipt): (Store, Result<(), PlanError>) {
    if !IsReceipt(r) then (s, Err(BadReceipt))
    else if work != Open then (s, Ok(()))
    else if d !in s.rows || s.rows[d].job != Some(job) || IsTerminal(s.rows[d].state) then (s, Err(Stale))
    else (PutRow(s, d, s.rows[d].(state := Cancelled, closure := Some(r))), Ok(()))
  }

  /** The queue's transaction for a finished job (`complete_plan_atomic`). */
  function CompletePlan(s: Store, d: Digest, job: string, work: JobState, r: Receipt): (Store, Result<(), PlanError>) {
    if !IsReceipt(r) || r.status != "completed" then (s, Err(BadReceipt))
    else if d !in s.rows || s.rows[d].job != Some(job) then (s, Err(Stale))
    else
      var closed := PutRow(s, d, s.rows[d].(state := Completed, closure := Some(r)));
      match work
      case Dead => (s, Ok(()))
      case Done => (if IsTerminal(s.rows[d].state) then s else closed, Ok(()))
      case Open => if s.rows[d].state in {Cancelled, Failed, Terminal} then (s, Err(Stale)) else (closed, Ok(()))
  }

  /** The queue's transaction for a failed attempt (`fail_plan_atomic`). */
  function FailPlan(s: Store, d: Digest, job: string, work: JobState, retries: bool, r: Option<Receipt>): (Store,
                    Result<(), PlanError>) {
    if r.Some? && (!IsReceipt(r.value) || r.value.status != "failed") then (s, Err(BadReceipt))
    else if d !in s.rows || s.rows[d].job != Some(job) then (s, Err(Stale))
    else
      match work
      case Done => (s, Ok(()))
      case Dead =>
        (if r.Some? && !IsTerminal(s.rows[d].state) then PutRow(s, d, s.rows[d].(state := Failed, closure := r)) else s, Ok(()))
      case Open =>
        if retries then
          if IsTerminal(s.rows[d].state) then (s, Err(Stale)) else (PutRow(s, d, s.rows[d].(state := Submitted)), Ok(()))
        else if r.None? then (s, Err(BadReceipt))
        else if s.rows[d].state in {Cancelled, Completed, Terminal} then (s, Err(Stale))
        else (PutRow(s, d, s.rows[d].(state := Failed, closure := r)), Ok(()))
  }

  /** The operations of the plan store, and those of the queue with what they read about the
      job. */
  datatype Op =
    | DoPreflight(plan: Digest, report: Report, wanted: Option<string>, now: int)
    | DoSubmit(q: Submission, now: int)
    | DoCancel(plan: Digest)
    | DoSync(plan: Digest, job: string, status: State)
    | DoReconcile(plan: Digest, known: Option<string>)
    | DoAbort(plan: Digest, job: string)
    | DoClose(plan: Digest, receipt: Receipt)
    | DoAccept(q: Submission, now: int, taken: bool)
    | DoCancelJob(plan: Digest, job: string, work: JobState, receipt: Receipt)
    | DoComplete(plan: Digest, job: string, work: JobState, receipt: Receipt)
    | DoFail(plan: Digest, job: string, work: JobState, retries: bool, failure: Option<Receipt>)

  ghost function Do(s: Store, op: Op): Store {
    match op
    case DoPreflight(d, report, request, now) => Preflight(s, d, report, request, now).0
    case DoSubmit(q, now) => Submit(s, q, now).0
    case DoCancel(d) => Cancel(s, d)
    case DoSync(d, job, status) => SyncStatus(s, d, job, status)
    case DoReconcile(d, job) => ReconcileUnknownSubmit(s, d, job)
    case DoAbort(d, job) => AbortSubmit(s, d, job)
    case DoClose(d, receipt) => Close(s, d, receipt).0
    case DoAccept(q, now, taken) => Accept(s, q, now, taken).0
    case DoCancelJob(d, job, work, receipt) => CancelPlan(s, d, job, work, receipt).0
    case DoComplete(d, job, work, receipt) => CompletePlan(s, d, job, work, receipt).0
    case DoFail(d, job, work, retries, failure) => FailPlan(s, d, job, work, retries, failure).0
  }

  /******* Lifecycle *******/

  /** Quoted means neither a job nor a key; terminal means closed with a receipt. */
  ghost predicate RowIsSound(row: Row) {
    && (row.state == Preflighted <==> row.job.None?)
    && (row.job.None? <==> row.key.None?)
    && (IsTerminal(row.state) <==> row.closure.Some?)
    && (row.job.Some? ==> row.request.Some? && row.job.value != "")
  }

  ghost predicate KeysAreUnique(rows: map<Digest, Row>) {
    forall d, e | d in rows && e in rows && rows[d].key.Some? && rows[d].key == rows[e].key :: d == e
  }

  ghost predicate Sound(s: Store) {
    (forall d <- s.rows :: RowIsSound(s.rows[d])) && KeysAreUnique(s.rows) && s.vaults.Keys == s.rows.Keys
  }

  function Rank(state: State): nat {
    match state
    case Preflighted => 0
    case Submitting => 1
    case Submitted => 2
    case Running => 3
    case Cancelling => 4
    case _ => 5
  }

  predicate Aborts(op: Op, d: Digest, row: Row) {
    op.DoAbort? && op.plan == d && row.job == Some(op.job) && row.state == Submitting
  }

  /** The queue retries the job of a plan that runs or is being cancelled. */
  predicate StepsBack(op: Op, d: Digest, row: Row) {
    && op.DoFail? && op.plan == d && row.job == Some(op.job) && op.work == Open && op.retries
    && (op.failure.None? || (IsReceipt(op.failure.value) && op.failure.value.status == "failed"))
    && row.state in {Running, Cancelling}
  }

  /** The queue completes or fails an open job whose plan was closed so before, by another
      receipt. */
  predicate Rewrites(op: Op, d: Digest, row: Row) {
    || (&& op.DoComplete? && op.plan == d && row.job == Some(op.job) && op.work == Open && row.state == Completed
        && IsReceipt(op.receipt) && op.receipt.status == "completed" && row.closure != Some(op.receipt))
    || (&& op.DoFail? && op.plan == d && row.job == Some(op.job) && op.work == Open && !op.retries && row.state == Failed
        && op.failure.Some? && IsReceipt(op.failure.value) && op.failure.value.status == "failed" && row.closure != op.failure)
  }

  /** What an operation does to a row: a terminal row changes exactly when its receipt is
      rewritten, the only ways back are an abort of a submission and a retry, and the job
      stands except for an abort. */
  ghost predicate Advances(row: Row, row': Row, op: Op, d: Digest) {
    && (IsTerminal(row.state) ==> row' == row.(closure := row'.closure) && (row' == row <==> !Rewrites(op, d, row)))
    && (Rank(row'.state) < Rank(row.state) <==> Aborts(op, d, row) || StepsBack(op, d, row))
    && (row.job.Some? && !Aborts(op, d, row) ==>
          row'.job == row.job && row'.key == row.key && row'.request == row.request && row'.report == row.report)
  }

  /** Callers name jobs. */
  predicate IsFit(op: Op) {
    op.DoSubmit? || op.DoAccept? ==> op.q.job != ""
  }

  /** A fresh acceptance, by either route, gives one quoted row a job and an unused key. */
  ghost predicate IsFresh(s: Store, q: Submission, s': Store) {
    && q.job != "" && HolderOf(s, q.key).None? && q.plan in s.rows && s.rows[q.plan].job.None?
    && s'.vaults.Keys == s.vaults.Keys
    && s'.rows == s.rows[q.plan := s.rows[q.plan].(job := Some(q.job), key := Some(q.key), request := Some(q.request),
                                                   state := Submitting)]
  }

  lemma FreshIsSound(s: Store, q: Submission, s': Store)
    requires Sound(s) && IsFresh(s, q, s')
    ensures Sound(s')
  {
    assert forall d <- s.rows :: s.rows[d].key != Some(q.key);
    SoundRow(s, q.plan);
  }

  lemma FreshKeeps(s: Store, op: Op, s': Store)
    requires Sound(s) && (op.DoSubmit? || op.DoAccept?) && IsFresh(s, op.q, s')
    ensures Keeps(s, op, s')
  {
    FreshIsSound(s, op.q, s');
    SoundRow(s, op.q.plan);
    assert s.rows[op.q.plan].state == Preflighted;
    hide Sound, HolderOf, RowIsSound, IsFresh;
    forall d <- s.rows ensures d in s'.rows && Advances(s.rows[d], s'.rows[d], op, d) {
      FreshRow(s, op.q, s', d);
    }
  }

  lemma FreshRow(s: Store, q: Submission, s': Store, d: Digest)
    requires IsFresh(s, q, s') && d in s.rows
    ensures d in s'.rows && (d != q.plan ==> s'.rows[d] == s.rows[d])
    ensures d == q.plan ==> s.rows[d].job.None? && s'.rows[d].state == Submitting
  {
    hide HolderOf;
  }

  lemma SubmitKeeps(s: Store, op: Op)
    requires Sound(s) && op.DoSubmit? && op.q.job != ""
    ensures Keeps(s, op, Do(s, op))
  {
    NothingKeeps(s, op);
    if Do(s, op) != s {
      FreshKeeps(s, op, Do(s, op));
    }
  }

  lemma AcceptKeeps(s: Store, op: Op)
    requires Sound(s) && op.DoAccept? && op.q.job != ""
    ensures Keeps(s, op, Do(s, op))
  {
    NothingKeeps(s, op);
    if Do(s, op) != s {
      FreshKeeps(s, op, Do(s, op));
    }
  }

  lemma PutKeepsSound(s: Store, d: Digest, row: Row)
    requires Sound(s) && d in s.rows && RowIsSound(row) && (row.key == s.rows[d].key || row.key.None?)
    ensures Sound(PutRow(s, d, row))
  {
  }

  /** The operation keeps the lifecycle of every row. */
  ghost predicate Keeps(s: Store, op: Op, s': Store) {
    && Sound(s')
    && forall d <- s.rows :: d in s'.rows && Advances(s.rows[d], s'.rows[d], op, d)
  }

  lemma RewriteKeeps(s: Store, op: Op, d: Digest, row: Row)
    requires Sound(s) && d in s.rows && RowIsSound(row) && (row.key == s.rows[d].key || row.key.None?)
    requires Advances(s.rows[d], row, op, d) && Concerns(op) == d
    ensures Keeps(s, op, PutRow(s, d, row))
  {
    PutKeepsSound(s, d, row);
    hide Sound;
  }

  /** The plan that the operation is about. */
  function Concerns(op: Op): Digest {
    if op.DoSubmit? || op.DoAccept? then op.q.plan else op.plan
  }

  /** An operation that changes nothing rewrites nothing either. */
  lemma NothingKeeps(s: Store, op: Op)
    requires Sound(s)
    ensures (forall d <- s.rows :: !Aborts(op, d, s.rows[d]) && !StepsBack(op, d, s.rows[d]) && !Rewrites(op, d, s.rows[d]))
            ==> Keeps(s, op, s)
  {
  }

  lemma SoundRow(s: Store, d: Digest)
    requires Sound(s) && d in s.rows
    ensures RowIsSound(s.rows[d])
  {
  }

  /** All other operations rewrite one row, or none. */
  lemma CancelKeeps(s: Store, op: Op)
    requires Sound(s) && op.DoCancel?
    ensures Keeps(s, op, Do(s, op))
  {
    NothingKeeps(s, op);
    if Do(s, op) != s {
      SoundRow(s, op.plan);
      hide Sound, Keeps;
      RewriteKeeps(s, op, op.plan, Do(s, op).rows[op.plan]);
    }
  }

  lemma SyncKeeps(s: Store, op: Op)
    requires Sound(s) && op.DoSync?
    ensures Keeps(s, op, Do(s, op))
  {
    NothingKeeps(s, op);
    if Do(s, op) != s {
      SoundRow(s, op.plan);
      hide Sound, Keeps;
      RewriteKeeps(s, op, op.plan, Do(s, op).rows[op.plan]);
    }
  }

  lemma ReconcileKeeps(s: Store, op: Op)
    requires Sound(s) && op.DoReconcile?
    ensures Keeps(s, op, Do(s, op))
  {
    NothingKeeps(s, op);
    if Do(s, op) != s {
      SoundRow(s, op.plan);
      hide Sound, Keeps;
      RewriteKeeps(s, op, op.plan, Do(s, op).rows[op.plan]);
    }
  }

  lemma CloseKeeps(s: Store, op: Op)
    requires Sound(s) && op.DoClose?
    ensures Keeps(s, op, Do(s, op))
  {
    NothingKeeps(s, op);
    if Do(s, op) != s {
      SoundRow(s, op.plan);
      hide Sound, Keeps;
      RewriteKeeps(s, op, op.plan, Do(s, op).rows[op.plan]);
    }
  }

  lemma CancelJobKeeps(s: Store, op: Op)
    requires Sound(s) && op.DoCancelJob?
    ensures Keeps(s, op, Do(s, op))
  {
    NothingKeeps(s, op);
    if Do(s, op) != s {
      SoundRow(s, op.plan);
      hide Sound, Keeps;
      RewriteKeeps(s, op, op.plan, Do(s, op).rows[op.plan]);
    }
  }

  lemma QuoteKeeps(s: Store, op: Op)
    requires Sound(s) && op.DoPreflight?
    ensures Keeps(s, op, Do(s, op))
  {
    NothingKeeps(s, op);
    if op.plan in s.rows && Do(s, op) != s {
      SoundRow(s, op.plan);
      hide Sound, KeysAreUnique, Keeps;
      RewriteKeeps(s, op, op.plan, Do(s, op).rows[op.plan]);
    }
  }

  lemma AbortKeeps(s: Store, op: Op)
    requires Sound(s) && op.DoAbort?
    ensures Keeps(s, op, Do(s, op))
  {
    NothingKeeps(s, op);
    if op.plan in s.rows && s.rows[op.plan].job == Some(op.job) && s.rows[op.plan].state == Submitting {
      SoundRow(s, op.plan);
      RewriteKeeps(s, op, op.plan, s.rows[op.plan].(job := None, key := None, request := None, state := Preflighted));
    }
  }

  lemma CompleteEndedKeeps(s: Store, op: Op)
    requires Sound(s) && op.DoComplete? && op.work != Open
    ensures Keeps(s, op, Do(s, op))
  {
    NothingKeeps(s, op);
    if Do(s, op) != s {
      SoundRow(s, op.plan);
      hide Sound, Keeps;
      RewriteKeeps(s, op, op.plan, Do(s, op).rows[op.plan]);
    }
  }

  lemma CompleteKeeps(s: Store, op: Op)
    requires Sound(s) && op.DoComplete? && op.work == Open
    ensures Keeps(s, op, Do(s, op))
  {
    NothingKeeps(s, op);
    if op.plan in s.rows && s.rows[op.plan].job == Some(op.job) {
      SoundRow(s, op.plan);
      assert s.rows[op.plan := s.rows[op.plan]] == s.rows;
      hide Sound, Keeps;
      RewriteKeeps(s, op, op.plan, Do(s, op).rows[op.plan]);
    }
  }

  lemma FailEndedKeeps(s: Store, op: Op)
    requires Sound(s) && op.DoFail? && op.work != Open
    ensures Keeps(s, op, Do(s, op))
  {
    NothingKeeps(s, op);
    if Do(s, op) != s {
      SoundRow(s, op.plan);
      hide Sound, Keeps;
      RewriteKeeps(s, op, op.plan, Do(s, op).rows[op.plan]);
    }
  }

  lemma RetryKeeps(s: Store, op: Op)
    requires Sound(s) && op.DoFail? && op.work == Open && op.retries
    ensures Keeps(s, op, Do(s, op))
  {
    NothingKeeps(s, op);
    if Do(s, op) != s {
      SoundRow(s, op.plan);
      hide Sound, Keeps;
      RewriteKeeps(s, op, op.plan, Do(s, op).rows[op.plan]);
    }
  }

  lemma FailKeeps(s: Store, op: Op)
    requires Sound(s) && op.DoFail? && op.work == Open && !op.retries
    ensures Keeps(s, op, Do(s, op))
  {
    NothingKeeps(s, op);
    if op.plan in s.rows && s.rows[op.plan].job == Some(op.job) {
      SoundRow(s, op.plan);
      assert s.rows[op.plan := s.rows[op.plan]] == s.rows;
      hide Sound, Keeps;
      RewriteKeeps(s, op, op.plan, Do(s, op).rows[op.plan]);
    }
  }

  /** Every operation keeps the lifecycle. */
  lemma OpKeepsSound(s: Store, op: Op)
    requires Sound(s) && IsFit(op)
    ensures Keeps(s, op, Do(s, op))
  {
    hide Sound, Keeps, Do;
    match op
    case DoPreflight(_, _, _, _) => QuoteKeeps(s, op);
    case DoSubmit(_, _) => SubmitKeeps(s, op);
    case DoCancel(_) => CancelKeeps(s, op);
    case DoSync(_, _, _) => SyncKeeps(s, op);
    case DoReconcile(_, _) => ReconcileKeeps(s, op);
    case DoAbort(_, _) => AbortKeeps(s, op);
    case DoClose(_, _) => CloseKeeps(s, op);
    case DoAccept(_, _, _) => AcceptKeeps(s, op);
    case DoCancelJob(_, _, _, _) => CancelJobKeeps(s, op);
    case DoComplete(_, _, work, _) => if work == Open { CompleteKeeps(s, op); } else { CompleteEndedKeeps(s, op); }
    case DoFail(_, _, work, retries, _) =>
      if work != Open {
        FailEndedKeeps(s, op);
      } else if retries {
        RetryKeeps(s, op);
      } else {
        FailKeeps(s, op);
      }
  }

  ghost function Run(s: Store, ops: seq<Op>): Store {
    if ops == [] then s else Do(Run(s, ops[..|ops| - 1]), ops[|ops| - 1])
  }

  const NO_PLANS := Store(map[], map[])

  /** In every reachable store a plan is quoted exactly when it has no job and no key, and
      terminal exactly when a receipt is recorded, and no key serves two plans. */
  lemma {:induction false} ReachableIsSound(ops: seq<Op>)
    requires forall op <- ops :: IsFit(op)
    ensures Sound(Run(NO_PLANS, ops))
  {
    if ops != [] {
      hide Do, Sound;
      ReachableIsSound(ops[..|ops| - 1]);
      OpKeepsSound(Run(NO_PLANS, ops[..|ops| - 1]), ops[|ops| - 1]);
    } else {
      assert Sound(NO_PLANS);
    }
  }

  /** The row of a plan after some of the operations. */
  ghost function RowAfter(s: Store, ops: seq<Op>, d: Digest, n: nat): Option<Row>
    requires n <= |ops|
  {
    var r := Run(s, ops[..n]);
    if d in r.rows then Some(r.rows[d]) else None
  }

  /** Operation `n` rewrites the receipt of the plan. */
  ghost predicate RewritesAt(s: Store, ops: seq<Op>, d: Digest, n: nat)
    requires n < |ops|
  {
    RowAfter(s, ops, d, n).Some? && Rewrites(ops[n], d, RowAfter(s, ops, d, n).value)
  }

  lemma RunNext(s: Store, ops: seq<Op>, n: nat)
    requires n < |ops|
    ensures Run(s, ops[..n + 1]) == Do(Run(s, ops[..n]), ops[n])
  {
    assert ops[..n + 1][..n] == ops[..n];
  }

  /** A closed plan keeps its state, job and quote over every run, and is closed by some
      receipt. */
  lemma {:induction false} TerminalForGood(s: Store, ops: seq<Op>, d: Digest, n: nat)
    requires Sound(s) && (forall op <- ops :: IsFit(op)) && d in s.rows && IsTerminal(s.rows[d].state) && n <= |ops|
    ensures Sound(Run(s, ops[..n]))
    ensures var row := RowAfter(s, ops, d, n);
            row.Some? && row.value == s.rows[d].(closure := row.value.closure) && row.value.closure.Some?
  {
    hide Do, Sound;
    if n == 0 {
      SoundRow(s, d);
    } else {
      TerminalForGood(s, ops, d, n - 1);
      RunNext(s, ops, n - 1);
      OpKeepsSound(Run(s, ops[..n - 1]), ops[n - 1]);
      SoundRow(Run(s, ops[..n]), d);
    }
  }

  lemma TerminalStep(s: Store, ops: seq<Op>, d: Digest, n: nat)
    requires Sound(s) && (forall op <- ops :: IsFit(op)) && d in s.rows && IsTerminal(s.rows[d].state) && n < |ops|
    ensures RowAfter(s, ops, d, n + 1) == RowAfter(s, ops, d, n) <==> !RewritesAt(s, ops, d, n)
  {
    hide Do, Sound, Rewrites;
    TerminalForGood(s, ops, d, n);
    RunNext(s, ops, n);
    OpKeepsSound(Run(s, ops[..n]), ops[n]);
  }

  lemma {:induction false} UnchangedUpTo(s: Store, ops: seq<Op>, d: Digest, n: nat)
    requires Sound(s) && (forall op <- ops :: IsFit(op)) && d in s.rows && IsTerminal(s.rows[d].state) && n <= |ops|
    requires forall k: nat | k < n :: !RewritesAt(s, ops, d, k)
    ensures RowAfter(s, ops, d, n) == Some(s.rows[d])
  {
    if n != 0 {
      UnchangedUpTo(s, ops, d, n - 1);
      hide RowAfter, RewritesAt, Sound;
      TerminalStep(s, ops, d, n - 1);
    }
  }

  /** A closed plan's row never changes, over a run, exactly unless the queue rewrites the
      receipt of a plan that was closed before its job. */
  lemma TerminalForGoodExactly(s: Store, ops: seq<Op>, d: Digest)
    requires Sound(s) && (forall op <- ops :: IsFit(op)) && d in s.rows && IsTerminal(s.rows[d].state)
    ensures (forall n: nat | n <= |ops| :: RowAfter(s, ops, d, n) == Some(s.rows[d]))
       <==> (forall n: nat | n < |ops| :: !RewritesAt(s, ops, d, n))
  {
    hide RowAfter, RewritesAt, Sound;
    if forall n: nat | n < |ops| :: !RewritesAt(s, ops, d, n) {
      forall n: nat | n <= |ops| ensures RowAfter(s, ops, d, n) == Some(s.rows[d]) {
        UnchangedUpTo(s, ops, d, n);
      }
    }
    if forall n: nat | n <= |ops| :: RowAfter(s, ops, d, n) == Some(s.rows[d]) {
      forall n: nat | n < |ops| ensures !RewritesAt(s, ops, d, n) {
        assert RowAfter(s, ops, d, n) == Some(s.rows[d]) && RowAfter(s, ops, d, n + 1) == Some(s.rows[d]);
        TerminalStep(s, ops, d, n);
      }
    }
  }

  /** The run aborts this submission at some point. */
  ghost predicate AbortsDuring(ops: seq<Op>, d: Digest, job: string) {
    exists op <- ops :: op.DoAbort? && op.plan == d && op.job == job
  }

  lemma {:induction false} SubmissionStands(s: Store, ops: seq<Op>, d: Digest)
    requires Sound(s) && (forall op <- ops :: IsFit(op)) && d in s.rows && s.rows[d].job.Some?
    requires !AbortsDuring(ops, d, s.rows[d].job.value)
    ensures var r := Run(s, ops);
            && Sound(r) && d in r.rows && r.rows[d].job == s.rows[d].job && r.rows[d].key == s.rows[d].key
            && r.rows[d].request == s.rows[d].request && r.rows[d].report == s.rows[d].report
  {
    if ops != [] {
      hide Do, Sound;
      SubmissionStands(s, ops[..|ops| - 1], d);
      OpKeepsSound(Run(s, ops[..|ops| - 1]), ops[|ops| - 1]);
    }
  }

  /** Submitting again with an accepted key, plan and request returns the same job and changes
      nothing, by either route and whatever happened in between, unless the submission was
      aborted. */
  lemma {:induction false} ReplayReturnsTheJob(s: Store, first: Op, ops: seq<Op>, again: Submission, later: int,
                                               taken: bool)
    requires Sound(s) && IsFit(first) && (forall op <- ops :: IsFit(op))
    requires || (first.DoSubmit? && Submit(s, first.q, first.now).1 == Ok(Acceptance(first.q.job, None)))
             || (first.DoAccept? && Accept(s, first.q, first.now, first.taken).1 == Ok(Acceptance(first.q.job, None)))
    requires !AbortsDuring(ops, first.q.plan, first.q.job)
    requires again.plan == first.q.plan && again.key == first.q.key && again.request == first.q.request
    ensures var r := Run(Do(s, first), ops);
            && Submit(r, again, later).0 == Accept(r, again, later, taken).0 == r
            && Submit(r, again, later).1 == Accept(r, again, later, taken).1
            && Accept(r, again, later, taken).1.Ok? && Accept(r, again, later, taken).1.value.job == first.q.job
  {
    hide Run, Do, Sound, HolderOf, Submit, Accept, IsFit;
    OpKeepsSound(s, first);
    AcceptedIsOnRecord(s, first);
    SubmissionStands(Do(s, first), ops, first.q.plan);
    Replayed(Run(Do(s, first), ops), again, later, taken);
  }

  lemma AcceptedIsOnRecord(s: Store, first: Op)
    requires || (first.DoSubmit? && Submit(s, first.q, first.now).1 == Ok(Acceptance(first.q.job, None)))
             || (first.DoAccept? && Accept(s, first.q, first.now, first.taken).1 == Ok(Acceptance(first.q.job, None)))
    ensures var q, s1 := first.q, Do(s, first);
            && q.plan in s1.rows && s1.rows[q.plan].job == Some(q.job) && s1.rows[q.plan].key == Some(q.key)
            && s1.rows[q.plan].request == Some(q.request)
  {
    hide HolderOf;
  }

  /** A submission that is on record is answered with its job, by either route. */
  lemma Replayed(s: Store, q: Submission, now: int, taken: bool)
    requires Sound(s) && q.plan in s.rows && s.rows[q.plan].key == Some(q.key) && s.rows[q.plan].request == Some(q.request)
    ensures s.rows[q.plan].job.Some? && var answer := (s, Ok(Acceptance(s.rows[q.plan].job.value, Some(s.rows[q.plan].report))));
            Submit(s, q, now) == answer && Accept(s, q, now, taken) == answer
  {
    SoundRow(s, q.plan);
    HolderIs(s, q.plan, q.key);
    hide Sound, HolderOf;
  }

  lemma HolderIs(s: Store, d: Digest, key: string)
    requires Sound(s) && d in s.rows && s.rows[d].key == Some(key)
    ensures HolderOf(s, key) == Some(d)
  {
  }

  /** A key accepted for one plan or request is refused for any other. */
  lemma {:induction false} KeyIsRefusedForOthers(s: Store, q: Submission, now: int, d: Digest)
    requires Sound(s) && d in s.rows && s.rows[d].key == Some(q.key)
    requires q.plan != d || s.rows[d].request != Some(q.request)
    ensures Submit(s, q, now) == (s, Err(KeyConflict)) && forall taken :: Accept(s, q, now, taken) == (s, Err(KeyConflict))
  {
    assert HolderOf(s, q.key) == Some(d);
  }

  /******* Where the private side and the queue fall out of step *******/

  /** The private row names the job of the public one. */
  ghost predicate VaultAgrees(s: Store, d: Digest) {
    d in s.rows && d in s.vaults && s.vaults[d].job == s.rows[d].job
  }

  lemma AbortKeepsVault(s: Store, op: Op, d: Digest)
    requires Sound(s) && op.DoAbort? && VaultAgrees(s, d)
    ensures VaultAgrees(Do(s, op), d) <==>
              !(op.plan == d && s.rows[d].job == Some(op.job) && s.rows[d].state != Submitting)
  {
    SoundRow(s, d);
    hide Sound;
  }

  lemma SubmissionKeepsVault(s: Store, op: Op, d: Digest)
    requires Sound(s) && (op.DoSubmit? || op.DoAccept?) && VaultAgrees(s, d)
    ensures VaultAgrees(Do(s, op), d)
  {
    assert op.q.plan in s.rows ==> op.q.plan in s.vaults;
    hide Sound, HolderOf;
  }

  /** An operation keeps the private row in step, except an abort that comes when the
      submission has already moved on: it clears the private row alone. */
  lemma VaultAgreesExactly(s: Store, op: Op, d: Digest)
    requires Sound(s) && IsFit(op) && VaultAgrees(s, d)
    ensures VaultAgrees(Do(s, op), d) <==>
            !(op.DoAbort? && op.plan == d && s.rows[d].job == Some(op.job) && s.rows[d].state != Submitting)
  {
    SoundRow(s, d);
    hide Sound;
    if op.DoAbort? {
      AbortKeepsVault(s, op, d);
    } else if op.DoSubmit? || op.DoAccept? {
      SubmissionKeepsVault(s, op, d);
    }
  }

  /** A completion leaves a terminal row alone exactly unless the row was completed before its
      job, by another receipt. */
  lemma {:induction false} CompletionRewritesExactly(s: Store, d: Digest, job: string, work: JobState, r: Receipt)
    requires Sound(s) && d in s.rows && IsTerminal(s.rows[d].state)
    ensures CompletePlan(s, d, job, work, r).0 == s
       <==> !(&& IsReceipt(r) && r.status == "completed" && s.rows[d].job == Some(job)
              && work == Open && s.rows[d].state == Completed && s.rows[d].closure != Some(r))
  {
    var s' := CompletePlan(s, d, job, work, r).0;
    if s.rows[d].state == Completed && s.rows[d].closure == Some(r) {
      assert s.rows[d] == s.rows[d].(state := Completed, closure := Some(r));
      assert s.rows == s.rows[d := s.rows[d]];
    }
    if s' == s {
      assert s'.rows[d] == s.rows[d];
    }
  }

  lemma {:induction false} FailureRewritesExactly(s: Store, d: Digest, job: string, work: JobState, retries: bool,
                        r: Option<Receipt>)
    requires Sound(s) && d in s.rows && IsTerminal(s.rows[d].state)
    ensures FailPlan(s, d, job, work, retries, r).0 == s
       <==> !(&& r.Some? && IsReceipt(r.value) && r.value.status == "failed" && s.rows[d].job == Some(job)
              && work == Open && !retries && s.rows[d].state == Failed && s.rows[d].closure != r)
  {
    var s' := FailPlan(s, d, job, work, retries, r).0;
    if s.rows[d].state == Failed && s.rows[d].closure == r {
      assert s.rows[d] == s.rows[d].(state := Failed, closure := r);
      assert s.rows == s.rows[d := s.rows[d]];
    }
    if s' == s {
      assert s'.rows[d] == s.rows[d];
    }
  }

  /** A retry of an open job steps back exactly from a plan that runs or is being cancelled. */
  lemma {:induction false} RetryStepsBackExactly(s: Store, d: Digest, job: string, r: Option<Receipt>)
    requires Sound(s) && d in s.rows && s.rows[d].job == Some(job) && FailPlan(s, d, job, Open, true, r).1.Ok?
    ensures d in FailPlan(s, d, job, Open, true, r).0.rows
    ensures Rank(FailPlan(s, d, job, Open, true, r).0.rows[d].state) < Rank(s.rows[d].state)
       <==> s.rows[d].state in {Running, Cancelling}
  {
  }

  /******* Such runs *******/

  const PLAN: Digest := "plan"
  const SUBMISSION := Submission(PLAN, "quote", "candidate", "key", "request", "job")
  const QUOTE := Report("quote", "candidate", 10)

  lemma RunMore(s: Store, ops: seq<Op>, op: Op)
    ensures Run(s, ops + [op]) == Do(Run(s, ops), op)
  {
    assert (ops + [op])[..|ops|] == ops;
  }

  /** Quoted, accepted by the queue, and moved on to a state. */
  function Opening(status: State): seq<Op> {
    [DoPreflight(PLAN, QUOTE, None, 0), DoAccept(SUBMISSION, 1, false), DoSync(PLAN, "job", status)]
  }

  function Opened(status: State, closure: Option<Receipt>): Store {
    Store(map[PLAN := Row(QUOTE, Some("job"), Some("key"), status, closure, Some("request"), None)],
          map[PLAN := Vault(Some("request"), Some("job"))])
  }

  lemma QuoteLeads()
    ensures Run(NO_PLANS, [DoPreflight(PLAN, QUOTE, None, 0)]) ==
            Store(map[PLAN := Quote(QUOTE, None)], map[PLAN := Vault(None, None)])
  {
    var a := DoPreflight(PLAN, QUOTE, None, 0);
    assert Run(NO_PLANS, []) == NO_PLANS;
    RunMore(NO_PLANS, [], a);
    assert [] + [a] == [a];
  }

  lemma AcceptLeads()
    ensures Accept(Store(map[PLAN := Quote(QUOTE, None)], map[PLAN := Vault(None, None)]), SUBMISSION, 1, false).0 ==
            Opened(Submitting, None)
  {
    assert HolderOf(Store(map[PLAN := Quote(QUOTE, None)], map[PLAN := Vault(None, None)]), "key") == None;
  }

  lemma OpeningLeads(status: State)
    requires status in {Submitted, Running}
    ensures Run(NO_PLANS, Opening(status)) == Opened(status, None)
  {
    var a, b, c := DoPreflight(PLAN, QUOTE, None, 0), DoAccept(SUBMISSION, 1, false), DoSync(PLAN, "job", status);
    QuoteLeads();
    AcceptLeads();
    RunMore(NO_PLANS, [a], b);
    assert [a] + [b] == [a, b];
    RunMore(NO_PLANS, [a, b], c);
    assert [a, b] + [c] == Opening(status);
    hide Run, Accept;
  }

  /** Quoted, submitted, reported as submitted, then aborted: the private row has lost the job. */
  lemma LateAbortIsReachable()
    ensures var r := Run(NO_PLANS, Opening(Submitted) + [DoAbort(PLAN, "job")]);
            PLAN in r.rows && r.rows[PLAN].job == Some("job") && !VaultAgrees(r, PLAN)
  {
    OpeningLeads(Submitted);
    RunMore(NO_PLANS, Opening(Submitted), DoAbort(PLAN, "job"));
    hide Run, Opening;
  }

  lemma ClosingLeads(r: Receipt)
    requires IsReceipt(r)
    ensures Run(NO_PLANS, Opening(Running) + [DoClose(PLAN, r)]) == Opened(ClosureState(r.status), Some(r))
  {
    OpeningLeads(Running);
    RunMore(NO_PLANS, Opening(Running), DoClose(PLAN, r));
    hide Run, Opening;
  }

  /** Closed as completed before its job, then completed: the receipt is replaced. */
  lemma CompletionRewriteIsReachable()
    ensures var closing := DoClose(PLAN, Receipt("first", "completed", true));
            var completing := DoComplete(PLAN, "job", Open, Receipt("second", "completed", true));
            var before := Run(NO_PLANS, Opening(Running) + [closing]);
            var after := Run(NO_PLANS, Opening(Running) + [closing] + [completing]);
            && PLAN in before.rows && before.rows[PLAN].closure == Some(closing.receipt)
            && PLAN in after.rows && after.rows[PLAN].closure == Some(completing.receipt)
  {
    var closing := DoClose(PLAN, Receipt("first", "completed", true));
    ClosingLeads(closing.receipt);
    RunMore(NO_PLANS, Opening(Running) + [closing], DoComplete(PLAN, "job", Open, Receipt("second", "completed", true)));
    hide Run, Opening;
  }

  /** Likewise for a failure. */
  lemma FailureRewriteIsReachable()
    ensures var closing := DoClose(PLAN, Receipt("first", "failed", true));
            var failing := DoFail(PLAN, "job", Open, false, Some(Receipt("second", "failed", true)));
            var before := Run(NO_PLANS, Opening(Running) + [closing]);
            var after := Run(NO_PLANS, Opening(Running) + [closing] + [failing]);
            && PLAN in before.rows && before.rows[PLAN].closure == Some(closing.receipt)
            && PLAN in after.rows && after.rows[PLAN].closure == failing.failure
  {
    var closing := DoClose(PLAN, Receipt("first", "failed", true));
    ClosingLeads(closing.receipt);
    RunMore(NO_PLANS, Opening(Running) + [closing], DoFail(PLAN, "job", Open, false, Some(Receipt("second", "failed", true))));
    hide Run, Opening;
  }

  /** A plan that runs is only submitted again after a retry, even when it is being cancelled. */
  lemma RetryStepBackIsReachable()
    ensures var retry := DoFail(PLAN, "job", Open, true, None);
            var cancelling := Run(NO_PLANS, Opening(Running) + [DoCancel(PLAN)]);
            var after := Run(NO_PLANS, Opening(Running) + [DoCancel(PLAN)] + [retry]);
            && PLAN in cancelling.rows && cancelling.rows[PLAN].state == Cancelling
            && PLAN in after.rows && after.rows[PLAN].state == Submitted
  {
    OpeningLeads(Running);
    RunMore(NO_PLANS, Opening(Running), DoCancel(PLAN));
    RunMore(NO_PLANS, Opening(Running) + [DoCancel(PLAN)], DoFail(PLAN, "job", Open, true, None));
    hide Run;
  }
}
