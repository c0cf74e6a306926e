/** When each operation on a plan's authority does what, over the rows: which submissions are
    freshly accepted, which quotes are replaced, and which transitions a row can make. */
module PlanLaws {
  import opened Prelude
  import opened PlanAuthority

  /** The plan is quoted, and nobody has submitted it. */
  predicate IsQuoted(s: Store, d: Digest) {
    d in s.rows && s.rows[d].state == Preflighted && s.rows[d].job.None?
  }

  predicate HoldsKey(s: Store, d: Digest, key: string) {
    d in s.rows && s.rows[d].key == Some(key)
  }

  predicate IsKeyUsed(s: Store, key: string) {
    exists d <- s.rows :: HoldsKey(s, d, key)
  }

  /** The submission names the accepted quote of a plan nobody has submitted, in time, under a
      key that nobody has used. */
  predicate IsTimely(s: Store, q: Submission, now: int) {
    && !IsKeyUsed(s, q.key) && IsQuoted(s, q.plan)
    && s.rows[q.plan].report.id == q.quote && s.rows[q.plan].report.candidate == q.candidate
    && now < s.rows[q.plan].report.expires
  }

  lemma HolderIsFound(s: Store, key: string)
    requires KeysAreUnique(s.rows)
    ensures HolderOf(s, key).Some? <==> IsKeyUsed(s, key)
    ensures HolderOf(s, key).Some? ==> HoldsKey(s, HolderOf(s, key).value, key)
    ensures forall d | HoldsKey(s, d, key) :: HolderOf(s, key) == Some(d)
  {
    if d :| HoldsKey(s, d, key) {
      assert d in s.rows && s.rows[d].key == Some(key);
    }
  }

  /** The rows and vaults that a fresh acceptance leaves. */
  predicate IsReserved(s: Store, s': Store, q: Submission)
    requires q.plan in s.rows
  {
    && s'.rows == s.rows[q.plan := s.rows[q.plan].(job := Some(q.job), key := Some(q.key), request := Some(q.request),
                                                   state := Submitting)]
    && s'.vaults == s.vaults[q.plan := Vault(Some(q.request), Some(q.job))]
  }

  /** A submission is freshly accepted exactly when it is timely; then its plan is reserved for its
      job, and otherwise nothing changes.  What it is refused for. */
  lemma SubmissionIsFreshExactly(s: Store, q: Submission, now: int)
    requires Sound(s)
    ensures var (s', r) := Submit(s, q, now);
            && (r.Ok? && r.value.replay.None? <==> IsTimely(s, q, now))
            && (IsTimely(s, q, now) ==> r == Ok(Acceptance(q.job, None)) && IsReserved(s, s', q))
            && (!IsTimely(s, q, now) ==> s' == s)
            && (r == Err(KeyConflict) <==>
                  exists d <- s.rows :: HoldsKey(s, d, q.key) && (d != q.plan || s.rows[d].request != Some(q.request)))
            && (r.Ok? && r.value.replay.Some? <==>
                  && q.plan in s.rows && s.rows[q.plan].job.Some? && s.rows[q.plan].request == Some(q.request)
                  && (HoldsKey(s, q.plan, q.key)
                      || (!IsKeyUsed(s, q.key) && s.rows[q.plan].state in {Submitting, Submitted, Running, Cancelling})))
            && (r.Ok? && r.value.replay.Some? ==>
                  r.value == Acceptance(s.rows[q.plan].job.value, Some(s.rows[q.plan].report)))
            && (r == Err(NotQuoted) <==> !IsKeyUsed(s, q.key) && q.plan !in s.rows)
            && (r == Err(AlreadySubmitted) <==>
                  && !IsKeyUsed(s, q.key) && q.plan in s.rows && s.rows[q.plan].job.Some?
                  && (s.rows[q.plan].request != Some(q.request)
                      || s.rows[q.plan].state in {Completed, Cancelled, Failed, Terminal}))
            && (r == Err(WrongBinding) <==>
                  && !IsKeyUsed(s, q.key) && IsQuoted(s, q.plan)
                  && (s.rows[q.plan].report.id != q.quote || s.rows[q.plan].report.candidate != q.candidate))
            && (r == Err(QuoteExpired) <==>
                  && !IsKeyUsed(s, q.key) && IsQuoted(s, q.plan)
                  && s.rows[q.plan].report.id == q.quote && s.rows[q.plan].report.candidate == q.candidate
                  && s.rows[q.plan].report.expires <= now)
  {
    HolderIsFound(s, q.key);
    hide HolderOf, KeysAreUnique;
    if d :| HoldsKey(s, d, q.key) {
      assert RowIsSound(s.rows[d]);
    } else if q.plan in s.rows {
      assert RowIsSound(s.rows[q.plan]);
    }
  }

  /** The same through the queue, which creates the job and so needs its name to be free. */
  lemma AcceptanceIsFreshExactly(s: Store, q: Submission, now: int, taken: bool)
    requires Sound(s)
    ensures var (s', r) := Accept(s, q, now, taken);
            && (r.Ok? && r.value.replay.None? <==> IsTimely(s, q, now) && !taken)
            && (IsTimely(s, q, now) && !taken ==> r == Ok(Acceptance(q.job, None)) && IsReserved(s, s', q))
            && (!IsTimely(s, q, now) || taken ==> s' == s)
            && (r == Err(Stale) <==> IsTimely(s, q, now) && taken)
            && (r == Err(KeyConflict) <==>
                  exists d <- s.rows :: HoldsKey(s, d, q.key) && (d != q.plan || s.rows[d].request != Some(q.request)))
            && (r.Ok? && r.value.replay.Some? <==> HoldsKey(s, q.plan, q.key) && s.rows[q.plan].request == Some(q.request))
            && (r.Ok? && r.value.replay.Some? ==>
                  s.rows[q.plan].job.Some? && r.value == Acceptance(s.rows[q.plan].job.value, Some(s.rows[q.plan].report)))
            && (r == Err(NotQuoted) <==> !IsKeyUsed(s, q.key) && q.plan !in s.rows)
            && (r == Err(AlreadySubmitted) <==> !IsKeyUsed(s, q.key) && q.plan in s.rows && s.rows[q.plan].job.Some?)
            && (r == Err(WrongBinding) <==>
                  && !IsKeyUsed(s, q.key) && IsQuoted(s, q.plan)
                  && (s.rows[q.plan].report.id != q.quote || s.rows[q.plan].report.candidate != q.candidate))
            && (r == Err(QuoteExpired) <==>
                  && !IsKeyUsed(s, q.key) && IsQuoted(s, q.plan)
                  && s.rows[q.plan].report.id == q.quote && s.rows[q.plan].report.candidate == q.candidate
                  && s.rows[q.plan].report.expires <= now)
  {
    HolderIsFound(s, q.key);
    hide HolderOf, KeysAreUnique;
    if d :| HoldsKey(s, d, q.key) {
      assert RowIsSound(s.rows[d]);
    } else if q.plan in s.rows {
      assert RowIsSound(s.rows[q.plan]);
    }
  }

  /** A quote is stored for a plan that has none, or whose unused one has expired; any other stays,
      and is the answer to a request that is the stored one, or that names none. */
  lemma QuoteIsStoredExactly(s: Store, d: Digest, report: Report, request: Option<string>, now: int)
    requires Sound(s)
    ensures var (s', r) := Preflight(s, d, report, request, now);
            var stores := report.expires > now && (d in s.rows ==> IsQuoted(s, d) && s.rows[d].report.expires <= now);
            && (stores ==>
                  && r == Ok(report) && s'.vaults == (if d in s.rows then s.vaults else s.vaults[d := Vault(None, None)])
                  && s'.rows == s.rows[d := Row(report, None, None, Preflighted, None, request, request)])
            && (!stores ==> s' == s)
            && (r == Err(QuoteExpired) <==> report.expires <= now)
            && (!stores && report.expires > now ==>
                  r == if request.None? || (request.value != "" && s.rows[d].request == request) then Ok(s.rows[d].report)
                       else Err(QuoteConflict))
  {
    assert d in s.rows ==> RowIsSound(s.rows[d]);
  }

  /** A job report moves a plan onward, by these steps only, and only under its own job. */
  lemma StatusMovesExactly(s: Store, d: Digest, job: string, status: State)
    requires Sound(s)
    ensures var s' := SyncStatus(s, d, job, status);
            var moves :=
              && d in s.rows && s.rows[d].job == Some(job)
              && (s.rows[d].state, status) in {(Submitting, Submitted), (Submitting, Running), (Submitting, Cancelling),
                                               (Submitted, Running), (Submitted, Cancelling), (Running, Cancelling)};
            s' == if moves then s.(rows := s.rows[d := s.rows[d].(state := status)]) else s
  {
    if d in s.rows {
      assert RowIsSound(s.rows[d]);
      assert s.rows[d := s.rows[d].(state := s.rows[d].state)] == s.rows;
    }
  }

  /** A cancellation marks a submitted plan, an unknown submission becomes a submitted one, and an
      abort takes a reservation back; none of them touches another plan. */
  lemma RequestsMoveExactly(s: Store, d: Digest, job: string, known: Option<string>)
    requires Sound(s)
    ensures Cancel(s, d) ==
            if d in s.rows && s.rows[d].state in {Submitting, Submitted, Running}
            then s.(rows := s.rows[d := s.rows[d].(state := Cancelling)]) else s
    ensures ReconcileUnknownSubmit(s, d, known) ==
            if d in s.rows && s.rows[d].state == Submitting
            then s.(rows := s.rows[d := s.rows[d].(state := Submitted)]) else s
    ensures AbortSubmit(s, d, job).rows ==
            if d in s.rows && s.rows[d].job == Some(job) && s.rows[d].state == Submitting
            then s.rows[d := s.rows[d].(job := None, key := None, request := None, state := Preflighted)] else s.rows
    ensures AbortSubmit(s, d, job).vaults ==
            if d in s.vaults && s.vaults[d].job == Some(job) then s.vaults[d := Vault(None, None)] else s.vaults
  {
    assert d in s.rows ==> RowIsSound(s.rows[d]);
  }

  /** An aborted reservation is as it was quoted, and its key is free again. */
  lemma AbortUndoesSubmission(s: Store, q: Submission, now: int)
    requires Sound(s) && IsTimely(s, q, now) && q.job != ""
    ensures var t := AbortSubmit(Submit(s, q, now).0, q.plan, q.job);
            && t.rows == s.rows[q.plan := s.rows[q.plan].(request := None)] && !IsKeyUsed(t, q.key)
            && IsTimely(t, q, now)
  {
    SubmissionIsFreshExactly(s, q, now);
    var t := AbortSubmit(Submit(s, q, now).0, q.plan, q.job);
    hide Submit, Sound;
    assert s.rows[q.plan].key.None? by {
      assert !HoldsKey(s, q.plan, q.key);
      SoundRow(s, q.plan);
    }
    forall d <- t.rows ensures !HoldsKey(t, d, q.key) {
      assert !HoldsKey(s, d, q.key);
    }
  }

  lemma SoundRow(s: Store, d: Digest)
    requires Sound(s) && d in s.rows
    ensures RowIsSound(s.rows[d])
  {
  }

  /** The state that a receipt closes a plan in. */
  predicate Closes(status: string, state: State) {
    (status, state) in {("completed", Completed), ("cancelled", Cancelled), ("failed", Failed),
                        ("terminal", Terminal)}
  }

  predicate IsProof(r: Receipt) {
    r.id != "" && r.absent && r.status in {"completed", "cancelled", "failed", "terminal"}
  }

  /** A plan is closed exactly once, by a receipt that proves the absence of its resources; what
      is closed stays, and what was never submitted cannot be closed. */
  lemma ClosesExactly(s: Store, d: Digest, receipt: Receipt)
    requires Sound(s)
    ensures var (s', r) := Close(s, d, receipt);
            var open := d in s.rows && s.rows[d].state in {Submitting, Submitted, Running, Cancelling};
            && (r == Err(BadReceipt) <==> !IsProof(receipt))
            && (r == Err(NotFound) <==> IsProof(receipt) && d !in s.rows)
            && (r == Err(CannotClose) <==> IsProof(receipt) && d in s.rows && s.rows[d].state == Preflighted)
            && (r.Ok? <==> IsProof(receipt) && d in s.rows && s.rows[d].state != Preflighted)
            && (!(r.Ok? && open) ==> s' == s)
            && (r.Ok? && open ==>
                  && s'.vaults == s.vaults && s'.rows.Keys == s.rows.Keys
                  && s'.rows[d] == s.rows[d].(state := s'.rows[d].state, closure := Some(receipt))
                  && Closes(receipt.status, s'.rows[d].state)
                  && forall e <- s.rows | e != d :: s'.rows[e] == s.rows[e])
  {
  }

  /** What a queue transaction did to the plan of a job: nothing, or this. */
  predicate Wrote(s: Store, s': Store, d: Digest, writes: bool, state: State, closure: Option<Receipt>)
    requires writes ==> d in s.rows
  {
    s' == if writes then s.(rows := s.rows[d := s.rows[d].(state := state, closure := closure)]) else s
  }

  /** The queue cancels a plan exactly when its job is open, the plan has that job and is not
      closed. */
  lemma CancelsExactly(s: Store, d: Digest, job: string, work: JobState, receipt: Receipt)
    requires Sound(s)
    ensures var (s', r) := CancelPlan(s, d, job, work, receipt);
            var own := d in s.rows && s.rows[d].job == Some(job);
            var writes := IsProof(receipt) && work == Open && own
                          && s.rows[d].state in {Submitting, Submitted, Running, Cancelling};
            && Wrote(s, s', d, writes, Cancelled, Some(receipt))
            && (r == Err(BadReceipt) <==> !IsProof(receipt))
            && (r.Ok? <==> writes || (IsProof(receipt) && work != Open))
            && (r == Err(Stale) <==> IsProof(receipt) && work == Open && !writes)
  {
    assert d in s.rows ==> RowIsSound(s.rows[d]);
  }

  /** The queue completes a plan, with a receipt that says so, when its job is open or done and
      the plan is not closed otherwise. */
  lemma CompletesExactly(s: Store, d: Digest, job: string, work: JobState, receipt: Receipt)
    requires Sound(s)
    ensures var (s', r) := CompletePlan(s, d, job, work, receipt);
            var proven := IsProof(receipt) && receipt.status == "completed";
            var own := d in s.rows && s.rows[d].job == Some(job);
            var live := own && s.rows[d].state in {Submitting, Submitted, Running, Cancelling};
            var writes := proven && own && ((work == Done && live) || (work == Open && (live || s.rows[d].state == Completed)));
            && Wrote(s, s', d, writes, Completed, Some(receipt))
            && (r == Err(BadReceipt) <==> !proven)
            && (r == Err(Stale) <==> proven && (!own || (work == Open && !writes)))
            && r in {Ok(()), Err(BadReceipt), Err(Stale)}
  {
    assert d in s.rows ==> RowIsSound(s.rows[d]);
  }

  /** The queue fails a plan, with a receipt that says so, when the job has no attempt left; a
      retry submits it again. */
  lemma FailsExactly(s: Store, d: Digest, job: string, work: JobState, retries: bool, receipt: Option<Receipt>)
    requires Sound(s)
    ensures var (s', r) := FailPlan(s, d, job, work, retries, receipt);
            var sane := receipt.Some? ==> IsProof(receipt.value) && receipt.value.status == "failed";
            var own := d in s.rows && s.rows[d].job == Some(job);
            var live := own && s.rows[d].state in {Submitting, Submitted, Running, Cancelling};
            var again := sane && work == Open && retries && live;
            var fails :=
              && sane && own && receipt.Some?
              && (|| (work == Dead && live)
                  || (work == Open && !retries && (live || s.rows[d].state == Failed)));
            && (again ==> s' == s.(rows := s.rows[d := s.rows[d].(state := Submitted)]))
            && (!again ==> Wrote(s, s', d, fails, Failed, receipt))
            && (r == Err(BadReceipt) <==> !sane || (own && work == Open && !retries && receipt.None?))
            && (r == Err(Stale) <==>
                  sane && (!own || (work == Open && !again && !fails && (retries || receipt.Some?))))
            && r in {Ok(()), Err(BadReceipt), Err(Stale)}
  {
    assert d in s.rows ==> RowIsSound(s.rows[d]);
  }
}
