/** The orchestrator in the form of its source: methods that overwrite a local `current` and
    store it between remote calls. Each is proved equal to the handler of `SagaMachine` that
    the theorems are about, for every number of statements that succeed before one fails. */
module Orchestrator {
  import opened Domain
  import opened Bank
  import opened SagaMachine
  import opened SagaSteps
  import opened Reaper
  import opened Recovery
  import opened SagaIdentity
  import V = Verification

  class Orchestrator {
    var sagas: map<PaymentId, Saga>
    var bank: Bank
    var verifications: V.Rows
    var outbox: seq<OutboxRow>
    var audit: map<AuditKey, AuditRecord>
    var now: int
    var budget: nat // statements and calls that still succeed

    constructor (w: World, budget: nat)
      ensures View() == w && this.budget == budget
    {
      sagas, bank, verifications, outbox, audit, now := w.sagas, w.bank, w.verifications, w.outbox, w.audit, w.now;
      this.budget := budget;
    }

    function View(): World
      reads this
    {
      World(sagas, bank, verifications, outbox, audit, now)
    }

    /** `current` carries the identity columns of a stored row. */
    predicate Holds(current: Saga)
      reads this
    {
      current.start.pid in sagas && sagas[current.start.pid].start == current.start
    }

    /** Rows are stored under their own payment id. */
    ghost predicate Keyed()
      reads this
    {
      OwnKeys(sagas)
    }

    // ----- Statements of the store -----

    method Update(current: Saga) returns (ok: bool)
      requires Holds(current)
      modifies `sagas, `budget
      ensures ok <==> old(budget) > 0
      ensures !ok ==> View() == old(View()) && budget == 0
      ensures ok ==> View() == Save(old(View()), current) && Holds(current) && budget == old(budget) - 1
    {
      if budget == 0 { return false; }
      budget := budget - 1;
      sagas := sagas[current.start.pid := current];
      return true;
    }

    method Enqueue(topic: Topic, body: Saga) returns (ok: bool)
      modifies `outbox, `budget
      ensures ok <==> old(budget) > 0
      ensures !ok ==> View() == old(View()) && budget == 0
      ensures ok ==> View() == Enqueued(old(View()), topic, body) && budget == old(budget) - 1
    {
      if budget == 0 { return false; }
      budget := budget - 1;
      outbox := outbox + [OutboxRow(topic, body)];
      return true;
    }

    /** The audit insert of a transaction. */
    method InsertAudit(record: AuditRecord)
      modifies `audit
      ensures View() == Audited(old(View()), record)
    {
      if record.key != EventKey("") && record.key !in audit { audit := audit[record.key := record]; }
    }

    method UpdateWithAudit(current: Saga, record: AuditRecord) returns (ok: bool)
      requires Holds(current)
      modifies `sagas, `audit, `budget
      ensures ok <==> old(budget) > 0
      ensures !ok ==> View() == old(View()) && budget == 0
      ensures ok ==> View() == Audited(Save(old(View()), current), record) && Holds(current) && budget == old(budget) - 1
    {
      ok := Update(current);
      if ok { InsertAudit(record); }
    }

    method RecordFraudAudit(record: AuditRecord) returns (r: Reply)
      modifies `audit, `budget
      ensures Runs(old(View()), RecordAudit(record), old(budget), View(), budget, r)
    {
      hide RunFor, Left;
      if budget == 0 { Stopped(View(), RecordAudit(record), 0); return Interrupted; }
      Entered(View(), RecordAudit(record), budget);
      budget := budget - 1;
      InsertAudit(record);
      Stopped(View(), Done(Finished), budget);
      return Replied(Finished);
    }

    // ----- The forward path -----

    method FailUnverified(current0: Saga) returns (r: Reply)
      requires Holds(current0)
      modifies this
      ensures Runs(old(View()), PersistUnverified(To(old(View()), current0, Failed).(lastError := "user is not verified")), old(budget), View(), budget, r)
    {
      hide RunFor, Left;
      var current := current0.(state := Failed, lastError := "user is not verified", updatedAt := now);
      if budget == 0 { Stopped(View(), PersistUnverified(current), 0); } else { UnverifiedPersisted(View(), current, budget); }
      var ok := Update(current);
      return if ok then Replied(Unverified) else Interrupted;
    }

    /** The first block of `advance`: a copy to go on with, or the end. */
    method Verify(current0: Saga) returns (current: Saga, ended: Option<Reply>)
      requires Holds(current0) && current0.state.Started?
      modifies this
      ensures ended.None? ==> Holds(current) && current.state.VerificationChecked?
      ensures ended.None? ==> Leads(old(View()), Advance(current0), old(budget), View(), Advance(current), budget)
      ensures ended.Some? ==> Runs(old(View()), Advance(current0), old(budget), View(), budget, ended.value)
    {
      hide RunFor, Left;
      current := current0;
      if budget == 0 { Stopped(View(), Advance(current0), 0); return current, Some(Interrupted); }
      Checked(View(), current, budget);
      budget := budget - 1;
      if current.start.user !in verifications || !verifications[current.start.user].status.Verified? {
        var r := FailUnverified(current);
        return current, Some(r);
      }
      current := current.(state := VerificationChecked, updatedAt := now);
      if budget == 0 { Stopped(View(), Persist(current), 0); } else { Persisted(View(), current, budget); }
      var ok := Update(current);
      return current, if ok then None else Some(Interrupted);
    }

    /** The second block. */
    method Debit(current0: Saga) returns (current: Saga, ended: Option<Reply>)
      requires Holds(current0) && current0.state.VerificationChecked?
      modifies this
      ensures ended.None? ==> Holds(current) && current.state.WalletDebited?
      ensures ended.None? ==> Leads(old(View()), Advance(current0), old(budget), View(), Advance(current), budget)
      ensures ended.Some? ==> Runs(old(View()), Advance(current0), old(budget), View(), budget, ended.value)
    {
      hide RunFor, Left, CallDebit;
      current := current0;
      if budget == 0 { Stopped(View(), Advance(current0), 0); return current, Some(Interrupted); }
      DebitAnswers(View(), current, budget);
      budget := budget - 1;
      var (b, r) := CallDebit(bank, current.start);
      bank := b;
      if r.Err? { Stopped(View(), Done(Errored), budget); return current, Some(Replied(Errored)); }
      current := current.(state := WalletDebited, debitId := r.value.id, updatedAt := now);
      if budget == 0 { Stopped(View(), Persist(current), 0); } else { Persisted(View(), current, budget); }
      var ok := Update(current);
      return current, if ok then None else Some(Interrupted);
    }

    /** The third block. */
    method Reserve(current0: Saga) returns (current: Saga, ended: Option<Reply>)
      requires Holds(current0) && current0.state.WalletDebited?
      modifies this
      ensures ended.None? ==> Holds(current) && current.state.LedgerReserved?
      ensures ended.None? ==> Leads(old(View()), Advance(current0), old(budget), View(), Advance(current), budget)
      ensures ended.Some? ==> Runs(old(View()), Advance(current0), old(budget), View(), budget, ended.value)
    {
      hide RunFor, Left;
      current := current0;
      if budget == 0 { Stopped(View(), Advance(current0), 0); return current, Some(Interrupted); }
      ReserveAnswers(View(), current, budget);
      budget := budget - 1;
      var (b, r) := CallReserve(bank, current.start);
      bank := b;
      if r.Err? { Stopped(View(), Done(Errored), budget); return current, Some(Replied(Errored)); }
      current := current.(state := LedgerReserved, reservationId := r.value.id, updatedAt := now);
      if budget == 0 { Stopped(View(), Persist(current), 0); } else { Persisted(View(), current, budget); }
      var ok := Update(current);
      return current, if ok then None else Some(Interrupted);
    }

    /** The last block: one transaction stores the state and both outbox rows. */
    method LaunchPayment(current0: Saga) returns (r: Reply)
      requires Holds(current0) && current0.state.LedgerReserved?
      modifies this
      ensures Runs(old(View()), Advance(current0), old(budget), View(), budget, r)
    {
      hide RunFor, Left;
      if budget == 0 { Stopped(View(), Advance(current0), 0); return Interrupted; }
      Launched(View(), current0, budget);
      var current := current0.(state := PaymentProcessing, updatedAt := now);
      var _ := Update(current);
      outbox := outbox + [OutboxRow(PaymentExecute, current0)];
      outbox := outbox + [OutboxRow(FraudScoreRequested, current0)];
      return Replied(Finished);
    }

    method AdvanceFrom(current0: Saga) returns (r: Reply)
      requires Holds(current0)
      modifies this
      ensures Runs(old(View()), Advance(current0), old(budget), View(), budget, r)
    {
      hide RunFor, Left;
      var current, ended := current0, None;
      if current.state.Started? {
        current, ended := Verify(current);
        if ended.Some? { return ended.value; }
      }
      if current.state.VerificationChecked? {
        current, ended := Debit(current);
        if ended.Some? { return ended.value; }
      }
      if current.state.WalletDebited? {
        current, ended := Reserve(current);
        if ended.Some? { return ended.value; }
      }
      if current.state.LedgerReserved? {
        r := LaunchPayment(current);
        return;
      }
      Stopped(View(), Done(Finished), budget);
      return Replied(Finished);
    }

    /** The insert of a saga row, or the row an earlier request of the same payload left. */
    method Create(req: StartRequest) returns (row: Option<Saga>)
      requires Keyed()
      modifies `sagas
      ensures row.None? ==> Enter(old(View()), Start(req)) == (View(), Done(Errored))
      ensures row.Some? ==> Holds(row.value)
      ensures row.Some? ==> Enter(old(View()), Start(req)) == (View(), if row.value.state.Started? then Advance(row.value) else Done(Finished))
    {
      if req.amount <= 0 { return None; }
      if req.pid in sagas { return if sagas[req.pid].start == req then Some(sagas[req.pid]) else None; }
      if SameKey(sagas, req) { return None; }
      sagas := sagas[req.pid := NewSaga(req, now)];
      return Some(NewSaga(req, now));
    }

    method StartPaymentSaga(req: StartRequest) returns (r: Reply)
      requires Keyed()
      modifies this
      ensures Runs(old(View()), Start(req), old(budget), View(), budget, r)
    {
      hide RunFor, Left;
      if budget == 0 { Stopped(View(), Start(req), 0); return Interrupted; }
      Entered(View(), Start(req), budget);
      budget := budget - 1;
      var created := Create(req);
      if created.None? { Stopped(View(), Done(Errored), budget); return Replied(Errored); }
      if !created.value.state.Started? { Stopped(View(), Done(Finished), budget); return Replied(Finished); }
      r := AdvanceFrom(created.value);
    }

    // ----- Rail results -----

    /** Announce the settled payment, then store COMPLETED. */
    method PublishAndComplete(current0: Saga) returns (r: Reply)
      requires Holds(current0)
      modifies this
      ensures Runs(old(View()), PublishCompleted(current0), old(budget), View(), budget, r)
    {
      hide RunFor, Left;
      if budget == 0 { Stopped(View(), PublishCompleted(current0), 0); return Interrupted; }
      CompletionPublished(View(), current0, budget);
      var _ := Enqueue(TxCompleted, current0);
      var current := current0.(state := Completed, updatedAt := now);
      if budget == 0 { Stopped(View(), Persist(current), 0); } else { Persisted(View(), current, budget); }
      var ok := Update(current);
      Stopped(View(), AfterPersist(current), budget);
      return if ok then Replied(Finished) else Interrupted;
    }

    method Settle(current0: Saga) returns (r: Reply)
      requires Holds(current0)
      modifies this
      ensures Runs(old(View()), Confirm(current0), old(budget), View(), budget, r)
    {
      hide RunFor, Left;
      if budget == 0 { Stopped(View(), Confirm(current0), 0); return Interrupted; }
      ConfirmAnswers(View(), current0, budget);
      budget := budget - 1;
      var (b, transfer) := CallConfirm(bank, current0);
      bank := b;
      if transfer.Err? { Stopped(View(), Done(Errored), budget); return Replied(Errored); }
      var current := current0.(state := LedgerConfirmed, transferId := transfer.value, updatedAt := now);
      if budget == 0 { Stopped(View(), Persist(current), 0); } else { Persisted(View(), current, budget); }
      var ok := Update(current);
      if !ok { return Interrupted; }
      r := PublishAndComplete(current);
    }

    /** A rail result during a review: the first is stored, a repeat or a conflict audited. */
    method DeferTerminalPaymentResult(current0: Saga, event: RailEvent) returns (r: Reply)
      requires Holds(current0)
      modifies this
      ensures Runs(old(View()), Defer(old(View()), current0, event), old(budget), View(), budget, r)
    {
      hide RunFor, Left;
      if current0.deferred.Some? {
        var kind := if current0.deferred.value.eventId == event.eventId then Duplicate else InvariantViolation;
        r := RecordFraudAudit(RailAudit(event, kind, current0.state));
        return;
      }
      var current := current0.(deferred := Some(event), updatedAt := now);
      var record := RailAudit(event, DeferredTerminal, current.state);
      if budget == 0 { Stopped(View(), PersistAudited(current, record), 0); } else { AuditedPersisted(View(), current, record, budget); }
      var ok := UpdateWithAudit(current, record);
      return if ok then Replied(Finished) else Interrupted;
    }

    method HandlePaymentCompleted(event: RailEvent) returns (r: Reply)
      requires Keyed()
      modifies this
      ensures Runs(old(View()), OnCompleted(event), old(budget), View(), budget, r)
    {
      hide RunFor, Left;
      if budget == 0 { Stopped(View(), OnCompleted(event), 0); return Interrupted; }
      Entered(View(), OnCompleted(event), budget);
      budget := budget - 1;
      if event.pid !in sagas { Stopped(View(), Done(Errored), budget); return Replied(Errored); }
      var current := sagas[event.pid];
      if current.state.Completed? {
        r := RecordFraudAudit(RailAudit(event, Duplicate, current.state));
      } else if current.state.Failed? {
        r := RecordFraudAudit(RailAudit(event, InvariantViolation, current.state));
      } else if current.state.FraudReview? {
        r := DeferTerminalPaymentResult(current, event);
      } else {
        r := Settle(current);
      }
    }

    // ----- Compensation -----

    /** Give the debit back, store FAILED, announce it. */
    method Refund(current0: Saga) returns (r: Reply)
      requires Holds(current0)
      modifies this
      ensures Runs(old(View()), Compensate(current0), old(budget), View(), budget, r)
    {
      hide RunFor, Left, CallCompensate;
      if budget == 0 { Stopped(View(), Compensate(current0), 0); return Interrupted; }
      CompensateAnswers(View(), current0, budget);
      budget := budget - 1;
      var (b, compensation) := CallCompensate(bank, current0);
      bank := b;
      if compensation.Err? { Stopped(View(), Done(Errored), budget); return Replied(Errored); }
      var current := current0.(state := Failed, updatedAt := now);
      if budget == 0 { Stopped(View(), Persist(current), 0); } else { Persisted(View(), current, budget); }
      var ok := Update(current);
      if !ok { return Interrupted; }
      if budget == 0 { Stopped(View(), PublishFailed(current), 0); } else { FailurePublished(View(), current, budget); }
      ok := Enqueue(TxFailed, current);
      return if ok then Replied(Finished) else Interrupted;
    }

    method ResumeCompensation(current0: Saga, cancelLedger: bool) returns (r: Reply)
      requires Holds(current0)
      modifies this
      ensures Runs(old(View()), if cancelLedger then CancelLedger(current0) else Compensate(current0), old(budget), View(), budget, r)
    {
      hide RunFor, Left;
      var current := current0;
      if cancelLedger {
        if budget == 0 { Stopped(View(), CancelLedger(current), 0); return Interrupted; }
        CancelAnswers(View(), current, budget);
        budget := budget - 1;
        var (b, canceled) := CallCancel(bank, current);
        bank := b;
        if canceled.Err? { Stopped(View(), Done(Errored), budget); return Replied(Errored); }
        current := current.(state := CompensatingWallet, updatedAt := now);
        if budget == 0 { Stopped(View(), Persist(current), 0); } else { Persisted(View(), current, budget); }
        var ok := Update(current);
        if !ok { return Interrupted; }
      }
      r := Refund(current);
    }

    method HandlePaymentFailed(event: RailEvent) returns (r: Reply)
      requires Keyed() && event.PaymentFailed?
      modifies this
      ensures Runs(old(View()), OnFailed(event), old(budget), View(), budget, r)
    {
      hide RunFor, Left;
      if budget == 0 { Stopped(View(), OnFailed(event), 0); return Interrupted; }
      Entered(View(), OnFailed(event), budget);
      budget := budget - 1;
      if event.pid !in sagas { Stopped(View(), Done(Errored), budget); return Replied(Errored); }
      var current := sagas[event.pid];
      if current.state.Failed? {
        r := RecordFraudAudit(RailAudit(event, Duplicate, current.state));
      } else if current.state.Completed? {
        r := RecordFraudAudit(RailAudit(event, InvariantViolation, current.state));
      } else if current.state.FraudReview? {
        r := DeferTerminalPaymentResult(current, event);
      } else {
        current := current.(state := CompensatingLedger, failureCode := event.code, lastError := event.message, updatedAt := now);
        if budget == 0 { Stopped(View(), Persist(current), 0); } else { Persisted(View(), current, budget); }
        var ok := Update(current);
        if !ok { return Interrupted; }
        r := ResumeCompensation(current, true);
      }
    }

    // ----- Fraud flags and review decisions -----

    method HandleFraudFlagged(flagged: FraudFlagged) returns (r: Reply)
      requires Keyed()
      modifies this
      ensures Runs(old(View()), OnFlagged(flagged), old(budget), View(), budget, r)
    {
      hide RunFor, Left;
      if budget == 0 { Stopped(View(), OnFlagged(flagged), 0); return Interrupted; }
      Entered(View(), OnFlagged(flagged), budget);
      budget := budget - 1;
      if !flagged.Valid() { Stopped(View(), Done(Errored), budget); return Replied(Errored); }
      if flagged.pid !in sagas {
        r := RecordFraudAudit(AuditRecord(EventKey(flagged.eventId), flagged.pid, Orphan, None, ""));
        return;
      }
      var current := sagas[flagged.pid].(flag := Some(flagged), updatedAt := now);
      var record := AuditRecord(EventKey(flagged.eventId), flagged.pid, FlagKind(current.state), Some(current.state), "");
      if current.state.PaymentProcessing? {
        r := Pause(current.(state := FraudReview), record);
        return;
      }
      if budget == 0 { Stopped(View(), PersistAudited(current, record), 0); } else { AuditedPersisted(View(), current, record, budget); }
      var ok := UpdateWithAudit(current, record);
      return if ok then Replied(Finished) else Interrupted;
    }

    /** One transaction: the held row, its tx.paused event and its audit row. */
    method Pause(current: Saga, record: AuditRecord) returns (r: Reply)
      requires Holds(current)
      modifies this
      ensures Runs(old(View()), PersistPaused(current, record), old(budget), View(), budget, r)
    {
      hide RunFor, Left;
      if budget == 0 { Stopped(View(), PersistPaused(current, record), 0); return Interrupted; }
      PausedPersisted(View(), current, record, budget);
      var _ := Update(current);
      outbox := outbox + [OutboxRow(TxPaused, current)];
      InsertAudit(record);
      return Replied(Finished);
    }

    method ApplyDeferredResult(event: RailEvent) returns (r: Reply)
      requires Keyed()
      modifies this
      ensures Runs(old(View()), Replay(event), old(budget), View(), budget, r)
    {
      hide RunFor, Left;
      if COMPLETED_PREFIX <= event.eventId {
        r := HandlePaymentCompleted(PaymentCompleted(event.eventId, event.pid));
      } else if FAILED_PREFIX <= event.eventId {
        r := HandlePaymentFailed(if event.PaymentFailed? then event else PaymentFailed(event.eventId, event.pid, "", ""));
      } else {
        Stopped(View(), Done(Errored), budget);
        return Replied(Errored);
      }
    }

    /** The read that answers an operator; a failure is all it can add. */
    method Reread(replied: Reply) returns (r: Reply)
      modifies `budget
      ensures View() == old(View())
      ensures r == if replied == Replied(Finished) && old(budget) == 0 then Interrupted else replied
    {
      if replied != Replied(Finished) { return replied; }
      if budget == 0 { return Interrupted; }
      budget := budget - 1;
      return replied;
    }

    method ResumeFraudReview(decision: ReviewDecision) returns (r: Reply)
      requires Keyed()
      modifies this
      ensures RunsCall(old(View()), OnResume(decision), old(budget), View(), r)
    {
      hide RunFor, Left, RunCall;
      if budget == 0 { CallStopped(View(), OnResume(decision), false, 0); return Interrupted; }
      CallEntered(View(), OnResume(decision), budget);
      budget := budget - 1;
      if decision.pid !in sagas { CallStopped(View(), Done(Errored), false, budget); return Replied(Errored); }
      var current := sagas[decision.pid];
      if !current.state.FraudReview? { CallStopped(View(), Done(NotUnderReview), false, budget); return Replied(NotUnderReview); }
      var deferred := current.deferred;
      current := current.(state := PaymentProcessing, deferred := None, updatedAt := now);
      var record := ReviewAudit(ReviewResumed, decision, now);
      if budget == 0 { CallStopped(View(), PersistResumed(current, record, deferred), false, 0); }
      else { CallResumed(View(), current, record, deferred, budget); }
      var ok := UpdateWithAudit(current, record);
      if !ok { return Interrupted; }
      if deferred.None? { CallStopped(View(), Done(Finished), false, budget); return Replied(Finished); }
      RereadAnswers(View(), Replay(deferred.value), budget);
      CallWorld(View(), Replay(deferred.value), true, budget);
      var replied := ApplyDeferredResult(deferred.value);
      r := Reread(replied);
    }

    method RejectFraudReview(decision: ReviewDecision) returns (r: Reply)
      requires Keyed()
      modifies this
      ensures RunsCall(old(View()), OnReject(decision), old(budget), View(), r)
    {
      hide RunFor, Left, RunCall;
      if budget == 0 { CallStopped(View(), OnReject(decision), false, 0); return Interrupted; }
      CallEntered(View(), OnReject(decision), budget);
      budget := budget - 1;
      if decision.pid !in sagas { CallStopped(View(), Done(Errored), false, budget); return Replied(Errored); }
      var current := sagas[decision.pid];
      if !current.state.FraudReview? { CallStopped(View(), Done(NotUnderReview), false, budget); return Replied(NotUnderReview); }
      current := current.(state := CompensatingLedger, failureCode := "fraud_rejected",
                          lastError := RejectReason(decision.reason), updatedAt := now);
      var record := ReviewAudit(ReviewRejected, decision, now);
      if budget == 0 { CallStopped(View(), PersistRejected(current, record), false, 0); }
      else { CallRejected(View(), current, record, budget); }
      var ok := UpdateWithAudit(current, record);
      if !ok { return Interrupted; }
      RereadAnswers(View(), CancelLedger(current), budget);
      CallWorld(View(), CancelLedger(current), true, budget);
      var replied := ResumeCompensation(current, true);
      r := Reread(replied);
    }

    // ----- Recovery -----

    method ResumeOne(current: Saga) returns (r: Reply)
      requires Holds(current)
      modifies this
      ensures Runs(old(View()), Resumption(current), old(budget), View(), budget, r)
    {
      hide RunFor, Left;
      if current.state.LedgerConfirmed? {
        r := PublishAndComplete(current);
      } else if current.state.CompensatingLedger? {
        r := ResumeCompensation(current, true);
      } else if current.state.CompensatingWallet? {
        r := ResumeCompensation(current, false);
      } else {
        r := AdvanceFrom(current);
      }
    }

    /** `rows` is what the query for open payments returned. */
    method ResumeNonTerminal(rows: seq<Saga>, fate: PaymentId -> nat) returns (ok: bool)
      requires Keyed() && forall i | 0 <= i < |rows| :: Holds(rows[i])
      modifies this
      ensures (View(), ok) == ResumeAll(old(View()), rows, fate)
    {
      hide RunFor, Left, OwnKeys;
      for i := 0 to |rows|
        invariant Keyed() && forall j | 0 <= j < |rows| :: Holds(rows[j])
        invariant ResumeAll(old(View()), rows, fate) == ResumeAll(View(), rows[i..], fate)
      {
        ghost var w := View();
        RunOwnKeys(w, Resumption(rows[i]), fate(rows[i].start.pid));
        assert rows[i..][0] == rows[i] && rows[i..][1..] == rows[i + 1..];
        budget := fate(rows[i].start.pid);
        var r := ResumeOne(rows[i]);
        if r != Replied(Finished) { return false; }
      }
      return true;
    }

    /** The sweep; `reason` is the text it gives, which names `ttl`. */
    method ExpireFraudReviews(ttl: int, rows: seq<Saga>, reason: string, fate: PaymentId -> nat) returns (count: Option<nat>, failures: nat)
      requires Keyed() && forall i | 0 <= i < |rows| :: Holds(rows[i])
      modifies this
      ensures ttl <= 0 ==> count == None && failures == 0 && View() == old(View())
      ensures ttl > 0 ==> count.Some? && (View(), count.value, failures) == Sweep(old(View()), rows, old(now) - ttl, reason, fate)
    {
      hide RunFor, Left, RunCall, OwnKeys;
      if ttl <= 0 { return None, 0; }
      var deadline := now - ttl;
      var expired := 0;
      failures := 0;
      for i := 0 to |rows|
        invariant Keyed()
        invariant var (w0, x0, f0) := Sweep(old(View()), rows, deadline, reason, fate);
          var (w1, x1, f1) := Sweep(View(), rows[i..], deadline, reason, fate);
          w0 == w1 && x0 == expired + x1 && f0 == failures + f1
      {
        assert rows[i..][0] == rows[i] && rows[i..][1..] == rows[i + 1..];
        if !Overdue(rows[i], deadline) { continue; }
        RunOwnKeys(View(), Expiry(rows[i], reason), fate(rows[i].start.pid));
        CallWorld(View(), Expiry(rows[i], reason), false, fate(rows[i].start.pid));
        budget := fate(rows[i].start.pid);
        var r := RejectFraudReview(ReviewDecision(rows[i].start.pid, REAPER_ACTOR, reason));
        if r == Replied(NotUnderReview) { continue; }
        if r != Replied(Finished) {
          failures := failures + 1;
          continue;
        }
        expired := expired + 1;
      }
      return Some(expired), failures;
    }
  }
}
