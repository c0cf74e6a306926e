/** The plan store (cloud_offload/plan_protocol.py, `PlanProtocolStore`) as an object that
    updates its two tables in place; each method is proved to be the operation of
    `PlanAuthority` whose laws are proved there and in `PlanLaws`. */
module PlanStore {
  import opened Prelude
  import opened PlanAuthority
  import opened PlanLaws

  class PlanProtocolStore {
    var rows: map<Digest, Row>
    var vaults: map<Digest, Vault>

    function Tables(): Store
      reads this
    {
      Store(rows, vaults)
    }

    constructor ()
      ensures Tables() == NO_PLANS && Sound(Tables())
    {
      rows, vaults := map[], map[];
    }

    method PreflightPlan(d: Digest, report: Report, request: Option<string>, now: int)
      returns (r: Result<Report, PlanError>)
      requires Sound(Tables())
      modifies this
      ensures Tables() == Do(old(Tables()), DoPreflight(d, report, request, now)) && Sound(Tables())
      ensures r == Preflight(old(Tables()), d, report, request, now).1
    {
      OpKeepsSound(Tables(), DoPreflight(d, report, request, now));
      if report.expires <= now {
        return Err(QuoteExpired);
      }
      if d in rows {
        var prior := rows[d];
        var replays := request.None? || (request.value != "" && prior.request == request);
        if prior.state != Preflighted || prior.job.Some? {
          return if replays then Ok(prior.report) else Err(QuoteConflict);
        }
        if prior.report.expires > now {
          return if replays then Ok(prior.report) else Err(QuoteConflict);
        }
        rows := rows[d := prior.(report := report, job := None, key := None, request := request, quoted := request)];
        return Ok(report);
      }
      rows := rows[d := Row(report, None, None, Preflighted, None, request, request)];
      vaults := vaults[d := Vault(None, None)];
      r := Ok(report);
    }

    method SubmitPlan(q: Submission, now: int) returns (r: Result<Acceptance, PlanError>)
      requires Sound(Tables()) && q.job != ""
      modifies this
      ensures Tables() == Do(old(Tables()), DoSubmit(q, now)) && Sound(Tables())
      ensures r == Submit(old(Tables()), q, now).1
      ensures r.Ok? && r.value.replay.None? <==> IsTimely(old(Tables()), q, now)
      ensures if r.Ok? && r.value.replay.None? then IsReserved(old(Tables()), Tables(), q) && r.value.job == q.job
              else Tables() == old(Tables())
      ensures r == Err(WrongBinding) <==>
                && !IsKeyUsed(old(Tables()), q.key) && IsQuoted(old(Tables()), q.plan)
                && (old(rows)[q.plan].report.id != q.quote || old(rows)[q.plan].report.candidate != q.candidate)
      ensures r == Err(QuoteExpired) <==>
                && !IsKeyUsed(old(Tables()), q.key) && IsQuoted(old(Tables()), q.plan)
                && old(rows)[q.plan].report.id == q.quote && old(rows)[q.plan].report.candidate == q.candidate
                && old(rows)[q.plan].report.expires <= now
    {
      OpKeepsSound(Tables(), DoSubmit(q, now));
      SubmissionIsFreshExactly(Tables(), q, now);
      hide IsTimely, IsKeyUsed, IsReserved;
      if holder :| holder in rows && rows[holder].key == Some(q.key) {
        assert HolderOf(Tables(), q.key) == Some(holder);
        var prior := rows[holder];
        if holder != q.plan || prior.request != Some(q.request) {
          return Err(KeyConflict);
        }
        if prior.job.Some? && prior.job.value != "" {
          return Ok(Acceptance(prior.job.value, Some(prior.report)));
        }
      }
      if q.plan !in rows {
        return Err(NotQuoted);
      }
      var row := rows[q.plan];
      if row.job.Some? {
        if row.request == Some(q.request) && !IsTerminal(row.state) {
          return Ok(Acceptance(row.job.value, Some(row.report)));
        }
        return Err(AlreadySubmitted);
      }
      if row.state != Preflighted {
        return Err(NotPreflighted);
      }
      if row.report.id != q.quote || q.candidate != row.report.candidate {
        return Err(WrongBinding);
      }
      if row.report.expires <= now {
        return Err(QuoteExpired);
      }
      rows := rows[q.plan := row.(job := Some(q.job), key := Some(q.key), request := Some(q.request), state := Submitting)];
      if q.plan in vaults {
        vaults := vaults[q.plan := Vault(Some(q.request), Some(q.job))];
      }
      r := Ok(Acceptance(q.job, None));
    }

    method CancelPlan(d: Digest) returns (found: bool)
      requires Sound(Tables())
      modifies this`rows
      ensures Tables() == Do(old(Tables()), DoCancel(d)) && Sound(Tables())
      ensures found <==> d in old(rows)
    {
      OpKeepsSound(Tables(), DoCancel(d));
      if d !in rows {
        return false;
      }
      if rows[d].state in {Submitting, Submitted, Running} {
        rows := rows[d := rows[d].(state := Cancelling)];
      }
      found := true;
    }

    method SyncPlanStatus(d: Digest, job: string, status: State) returns (r: Result<Option<State>, PlanError>)
      requires Sound(Tables())
      modifies this`rows
      ensures Tables() == Do(old(Tables()), DoSync(d, job, status)) && Sound(Tables())
      ensures r == if status in {Preflighted, Submitting} then Err(UnknownStatus)
                   else if d !in rows || rows[d].job != Some(job) then Ok(None) else Ok(Some(rows[d].state))
    {
      OpKeepsSound(Tables(), DoSync(d, job, status));
      if status in {Preflighted, Submitting} {
        return Err(UnknownStatus);
      }
      if d !in rows || rows[d].job != Some(job) {
        return Ok(None);
      }
      var current := rows[d].state;
      if IsTerminal(current) {
        return Ok(Some(current));
      }
      if status !in Onward(current) && status != current {
        return Ok(Some(current));
      }
      rows := rows[d := rows[d].(state := status)];
      r := Ok(Some(status));
    }

    method ReconcileSubmission(d: Digest, job: Option<string>)
      requires Sound(Tables())
      modifies this`rows
      ensures Tables() == Do(old(Tables()), DoReconcile(d, job)) && Sound(Tables())
    {
      OpKeepsSound(Tables(), DoReconcile(d, job));
      if d in rows && rows[d].state == Submitting {
        var known := if rows[d].job.Some? then rows[d].job else job;
        rows := rows[d := rows[d].(state := Submitted, job := known)];
      }
    }

    method AbortSubmission(d: Digest, job: string)
      requires Sound(Tables())
      modifies this
      ensures Tables() == Do(old(Tables()), DoAbort(d, job)) && Sound(Tables())
    {
      OpKeepsSound(Tables(), DoAbort(d, job));
      if d in rows && rows[d].job == Some(job) && rows[d].state == Submitting {
        rows := rows[d := rows[d].(job := None, key := None, request := None, state := Preflighted)];
      }
      if d in vaults && vaults[d].job == Some(job) {
        vaults := vaults[d := Vault(None, None)];
      }
    }

    method ClosePlan(d: Digest, receipt: Receipt) returns (r: Result<(), PlanError>)
      requires Sound(Tables())
      modifies this`rows
      ensures Tables() == Do(old(Tables()), DoClose(d, receipt)) && Sound(Tables())
      ensures r == Close(old(Tables()), d, receipt).1
    {
      OpKeepsSound(Tables(), DoClose(d, receipt));
      if !IsReceipt(receipt) {
        return Err(BadReceipt);
      }
      if d !in rows {
        return Err(NotFound);
      }
      if IsTerminal(rows[d].state) {
        return Ok(());
      }
      if rows[d].state !in {Submitting, Submitted, Running, Cancelling} {
        return Err(CannotClose);
      }
      rows := rows[d := rows[d].(state := ClosureState(receipt.status), closure := Some(receipt))];
      r := Ok(());
    }
  }
}
