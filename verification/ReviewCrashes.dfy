/** Flags and resumes left alone, and where crashes and repeated flags break what a review is
    expected to promise, with exactly when. */
module ReviewCrashes {
  import opened Domain
  import opened Bank
  import opened BankLaws
  import opened SagaMachine
  import opened SagaSteps
  import opened SagaInterleaved
  import opened SagaSerialised
  import opened Compensation
  import opened Completion
  import opened ForwardPath

  // ----- Flags -----

  /** The row a flag stores: it holds a payment under processing, and only notes itself on others. */
  function FlaggedRow(row: Saga, f: FraudFlagged, now: int): Saga {
    var noted := row.(flag := Some(f), updatedAt := now);
    if row.state.PaymentProcessing? then noted.(state := FraudReview) else noted
  }

  lemma FlagStores(w: World, f: FraudFlagged, n: nat)
    requires f.pid in w.sagas && w.sagas[f.pid].start.pid == f.pid
    ensures var w' := RunFor(w, OnFlagged(f), n).0;
      w'.bank == w.bank && w'.sagas == if n >= 2 && f.Valid() then w.sagas[f.pid := FlaggedRow(w.sagas[f.pid], f, w.now)] else w.sagas
  {
    hide RunFor, Left;
    if n == 0 {
      Stopped(w, OnFlagged(f), 0);
    } else {
      Entered(w, OnFlagged(f), n);
      var h := Enter(w, OnFlagged(f)).1;
      if n == 1 || !f.Valid() {
        Stopped(w, h, n - 1);
      } else if w.sagas[f.pid].state.PaymentProcessing? {
        PausedPersisted(w, h.cur, h.record, n - 1);
      } else {
        AuditedPersisted(w, h.cur, h.record, n - 1);
      }
    }
  }

  /** A flag that says to hold or to block, with all it must name and a score between 0 and 1. */
  ghost predicate Complete(f: FraudFlagged) {
    && f.eventId != "" && f.pid != "" && f.session != "" && f.reason != "" && f.occurredAt != 0
    && (f.action == "flag" || f.action == "block") && 0.0 <= f.risk && f.risk <= 1.0
  }

  /** A flag, first or repeated, puts a payment in review exactly when it is complete, the stored
      state is PAYMENT_PROCESSING and the flag's two statements succeed. */
  lemma FlagHoldsIff(w: World, f: FraudFlagged, n: nat)
    requires f.pid in w.sagas && w.sagas[f.pid].start.pid == f.pid
    ensures UnderReview(RunFor(w, OnFlagged(f), n).0, f.pid)
      <==> UnderReview(w, f.pid) || (Processing(w, f.pid) && Complete(f) && n >= 2)
  {
    hide RunFor;
    FlagStores(w, f, n);
  }

  /** The row a resume stores. */
  function ResumedRow(row: Saga, now: int): Saga {
    row.(state := PaymentProcessing, deferred := None, updatedAt := now)
  }

  function AfterResume(w: World, d: ReviewDecision): World
    requires d.pid in w.sagas && w.sagas[d.pid].start.pid == d.pid
  {
    Audited(Save(w, ResumedRow(w.sagas[d.pid], w.now)), ReviewAudit(ReviewResumed, d, w.now))
  }

  lemma ResumeStores(w: World, d: ReviewDecision, n: nat)
    requires UnderReview(w, d.pid) && w.sagas[d.pid].start.pid == d.pid
    ensures var deferred := w.sagas[d.pid].deferred;
      if n < 2 then RunFor(w, OnResume(d), n).0 == w
      else RunFor(w, OnResume(d), n) == RunFor(AfterResume(w, d), if deferred.Some? then Replay(deferred.value) else Done(Finished), n - 2)
  {
    hide RunFor, Left;
    if n == 0 {
      Stopped(w, OnResume(d), 0);
    } else {
      Entered(w, OnResume(d), n);
      var h := Enter(w, OnResume(d)).1;
      if n == 1 { Stopped(w, h, 0); } else { ResumedPersisted(w, h.cur, h.record, h.replay, n - 1); }
    }
  }

  /** So a resume is not final: the flag that caused the review, delivered again to a resumed
      payment whose rail result is not there yet, holds it again. */
  lemma ResumedPaymentIsHeldAgain(w: World, d: ReviewDecision, f: FraudFlagged, n: nat, m: nat)
    requires UnderReview(w, d.pid) && w.sagas[d.pid].start.pid == d.pid && w.sagas[d.pid].deferred.None?
    requires w.sagas[d.pid].flag == Some(f) && f.pid == d.pid && f.Valid() && n >= 2 && m >= 2
    ensures var w1 := RunFor(w, OnResume(d), n).0; Processing(w1, d.pid) && UnderReview(RunFor(w1, OnFlagged(f), m).0, d.pid)
  {
    hide RunFor;
    ResumeStores(w, d, n);
    Stopped(AfterResume(w, d), Done(Finished), n - 2);
    FlagHoldsIff(AfterResume(w, d), f, m);
  }

  // ----- A deferred result in a crash -----

  /** A handler on its way to FAILED, with a row that is no longer under processing. */
  ghost predicate Backward(w: World, h: Handler, p: PaymentId) {
    && p in w.sagas && w.sagas[p].start.pid == p && !w.sagas[p].state.PaymentProcessing?
    && match h
       case CancelLedger(c) => c.start.pid == p
       case Compensate(c) => c.start.pid == p
       case PublishFailed(c) => c.start.pid == p
       case Persist(c) => c.start.pid == p && (c.state.CompensatingWallet? || c.state.Failed?)
       case Done(_) => true
       case _ => false
  }

  lemma BackwardStep(w: World, h: Handler, p: PaymentId)
    requires Backward(w, h, p)
    ensures Backward(Exec(w, h).0, Exec(w, h).1, p)
  {
    hide CallCancel, CallCompensate;
  }

  lemma {:induction false} BackwardRun(w: World, h: Handler, p: PaymentId, n: nat)
    requires Backward(w, h, p)
    ensures var (w', h') := RunFor(w, h, n); Backward(w', h', p)
    decreases n
  {
    hide Exec, Backward;
    if n > 0 && !h.Done? {
      BackwardStep(w, h, p);
      BackwardRun(Exec(w, h).0, Exec(w, h).1, p, n - 1);
    }
  }

  /** A rail failure takes a processing payment out of processing with its second statement, for good. */
  lemma FailureLeavesProcessing(w: World, event: RailEvent, n: nat)
    requires Processing(w, event.pid) && w.sagas[event.pid].start.pid == event.pid && event.PaymentFailed?
    ensures Processing(RunFor(w, OnFailed(event), n).0, event.pid) <==> n < 2
  {
    hide RunFor, Left;
    if n < 2 {
      FailureWaits(w, event, n);
    } else {
      FailureStores(w, event, n);
      var c := FailedRow(w.sagas[event.pid], event, w.now);
      BackwardRun(Save(w, c), CancelLedger(c), event.pid, n - 2);
    }
  }

  lemma ResumeConsistent(w: World, d: ReviewDecision)
    requires Consistent(w) && UnderReview(w, d.pid)
    ensures w.sagas[d.pid].start.pid == d.pid && DeferredHere(w.sagas[d.pid])
    ensures Consistent(AfterResume(w, d))
  {
    hide RunFor, Left, Total, Elsewhere, BankOk;
    assert PaymentOk(w, d.pid) && Tells(w, d.pid);
    var deferred := w.sagas[d.pid].deferred;
    var h := if deferred.Some? then Replay(deferred.value) else Done(Finished);
    ResumeStores(w, d, 2);
    Stopped(AfterResume(w, d), h, 0);
    ResumeRunConsistent(w, d, 2);
  }

  lemma ResumeRunConsistent(w: World, d: ReviewDecision, n: nat)
    requires Consistent(w)
    ensures Consistent(RunFor(w, OnResume(d), n).0)
  {
    hide RunFor, Left, Consistent, Total, Elsewhere;
    RunConsistent(w, OnResume(d), n);
  }

  /** Back under processing, and the result that had come during the review is nowhere. */
  ghost predicate ResultLost(w: World, p: PaymentId) {
    Processing(w, p) && w.sagas[p].deferred.None?
  }

  lemma LostIsProcessing(w: World, p: PaymentId)
    requires Consistent(w)
    ensures ResultLost(w, p) <==> Processing(w, p)
  {
    assert Tells(w, p);
  }

  /** A resume clears the deferred result in the statement that ends the review and applies it only
      afterwards, so a crash in between loses it. Exactly which: a completion is lost between the
      second statement and the fifth, which stores LEDGER_CONFIRMED, and a failure between the second
      and the fourth; a result whose event id names no handler is lost from the second on. */
  lemma DeferredResultLostIff(w: World, d: ReviewDecision, n: nat)
    requires Consistent(w) && UnderReview(w, d.pid) && w.sagas[d.pid].deferred.Some?
    ensures var applied := match Replay(w.sagas[d.pid].deferred.value)
        case OnCompleted(_) => n >= 5
        case OnFailed(_) => n >= 4
        case _ => false;
      ResultLost(RunFor(w, OnResume(d), n).0, d.pid) <==> n >= 2 && !applied
  {
    hide RunFor, Left, Consistent, CallConfirm, CompletedInFull;
    var p := d.pid;
    ResumeRunConsistent(w, d, n);
    LostIsProcessing(RunFor(w, OnResume(d), n).0, p);
    ResumeConsistent(w, d);
    ResumeStores(w, d, n);
    if n >= 2 {
      var w1 := AfterResume(w, d);
      var h := Replay(w.sagas[p].deferred.value);
      if h.OnCompleted? {
        CompletionOutcome(w1, h.event, n - 2);
      } else if h.OnFailed? {
        FailureLeavesProcessing(w1, h.event, n - 2);
      } else {
        Stopped(w1, h, n - 2);
      }
    }
  }

  // ----- A resume left alone -----

  /** A handler that succeeds from `k` statements and calls on, in a call that reads the row at the
      end, is answered with one more. */
  lemma AnsweredOneLater(w: World, h: Handler, n: nat, k: nat)
    requires k > 0 && (RunFor(w, h, n).1 == Done(Finished) <==> n >= k)
    requires n > 0 ==> (RunFor(w, h, n - 1).1 == Done(Finished) <==> n - 1 >= k)
    ensures CallReply(RunCall(w, Call(h, true), n).1) == Replied(Finished) <==> n >= k + 1
  {
    hide RunFor, Left, RunCall;
    RereadAnswers(w, h, n);
    if RunFor(w, h, n).1 == Done(Finished) {
      SparesOne(w, h, n);
      if RunFor(w, h, n - 1).1.Done? { FinishedStays(w, h, n - 1, n); }
    }
  }

  lemma ResumeCall(w: World, d: ReviewDecision, n: nat)
    requires UnderReview(w, d.pid) && w.sagas[d.pid].start.pid == d.pid
    ensures var deferred := w.sagas[d.pid].deferred; var end := RunCall(w, Call(OnResume(d), false), n);
      if n < 2 then CallReply(end.1) == Interrupted
      else end == RunCall(AfterResume(w, d), Call(if deferred.Some? then Replay(deferred.value) else Done(Finished), deferred.Some?), n - 2)
  {
    hide RunCall;
    if n == 0 {
      CallStopped(w, OnResume(d), false, 0);
    } else {
      CallEntered(w, OnResume(d), n);
      var h := Enter(w, OnResume(d)).1;
      if n == 1 { CallStopped(w, h, false, 0); } else { CallResumed(w, h.cur, h.record, h.replay, n - 1); }
    }
  }

  /** A resume with nothing deferred: back under processing, the row otherwise as it was, and the
      operator answered, exactly when its two statements succeed. */
  lemma ResumeOutcome(w: World, d: ReviewDecision, n: nat)
    requires Consistent(w) && UnderReview(w, d.pid) && w.sagas[d.pid].deferred.None?
    ensures var (w', c') := RunCall(w, Call(OnResume(d), false), n);
      && (CallReply(c') == Replied(Finished) <==> n >= 2)
      && w'.bank == w.bank && w'.outbox == w.outbox
      && w'.sagas == if n >= 2 then w.sagas[d.pid := w.sagas[d.pid].(state := PaymentProcessing, updatedAt := w.now)] else w.sagas
  {
    hide RunFor, RunCall, Left, Consistent;
    ResumeConsistent(w, d);
    ResumeCall(w, d, n);
    CallWorld(w, OnResume(d), false, n);
    ResumeStores(w, d, n);
    if n >= 2 { CallStopped(AfterResume(w, d), Done(Finished), false, n - 2); }
  }

  /** A resume with a deferred completion: the payment is completed in full exactly when seven
      statements and calls succeed, and the operator answered exactly when eight do. */
  lemma ResumeCompletes(w: World, d: ReviewDecision, n: nat)
    requires Consistent(w) && UnderReview(w, d.pid)
    requires var deferred := w.sagas[d.pid].deferred; deferred.Some? && COMPLETED_PREFIX <= deferred.value.eventId
    ensures w.sagas[d.pid].start.pid == d.pid
    ensures var (w', c') := RunCall(w, Call(OnResume(d), false), n);
      && (CallReply(c') == Replied(Finished) <==> n >= 8)
      && (CompletedInFull(AfterResume(w, d), w', d.pid) <==> n >= 7)
  {
    hide RunFor, RunCall, Left, Consistent, SettledInFull, AfterResume;
    ResumeConsistent(w, d);
    ResumeCall(w, d, n);
    CallWorld(w, OnResume(d), false, n);
    ResumeStores(w, d, n);
    ResumedIsProcessing(w, d);
    var w1 := AfterResume(w, d);
    if n >= 2 {
      var h := Replay(w.sagas[d.pid].deferred.value);
      CompletionOutcome(w1, h.event, n - 2);
      if n > 2 { CompletionOutcome(w1, h.event, n - 3); }
      AnsweredOneLater(w1, h, n - 2, 5);
    }
  }

  lemma ResumedIsProcessing(w: World, d: ReviewDecision)
    requires UnderReview(w, d.pid) && w.sagas[d.pid].start.pid == d.pid
    ensures Processing(AfterResume(w, d), d.pid) && AfterResume(w, d).bank == w.bank && AfterResume(w, d).outbox == w.outbox
  {
  }

  /** A resume with a deferred failure: the payment is FAILED with the rail's code and message and
      refunded in full exactly when eight statements and calls succeed and it was not settled, and
      the operator answered exactly when ten do. */
  lemma ResumeFails(w: World, d: ReviewDecision, n: nat)
    requires Consistent(w) && UnderReview(w, d.pid) && Total(w.bank) <= MAX_INT64
    requires var deferred := w.sagas[d.pid].deferred;
      deferred.Some? && deferred.value.PaymentFailed? && FAILED_PREFIX <= deferred.value.eventId && !(COMPLETED_PREFIX <= deferred.value.eventId)
    ensures var (w', c') := RunCall(w, Call(OnResume(d), false), n); var event := w.sagas[d.pid].deferred.value;
      var open := ReservationIs(w.bank, d.pid, Reserved);
      && (CallReply(c') == Replied(Finished) <==> n >= 10 && open)
      && (FailedInFull(w', d.pid, event.code, event.message) <==> n >= 8 && open)
  {
    hide RunFor, RunCall, Left, Consistent, Total, Refunds, AfterResume;
    ResumeConsistent(w, d);
    ReviewMoney(w, d.pid);
    ResumeCall(w, d, n);
    CallWorld(w, OnResume(d), false, n);
    ResumeStores(w, d, n);
    ResumedIsProcessing(w, d);
    var w1 := AfterResume(w, d);
    if n >= 2 {
      var event := w.sagas[d.pid].deferred.value;
      FailureOutcome(w1, event, n - 2);
      if n > 2 { FailureOutcome(w1, event, n - 3); }
      if ReservationIs(w.bank, d.pid, Reserved) { AnsweredOneLater(w1, OnFailed(event), n - 2, 7); }
      else { RereadAnswers(w1, OnFailed(event), n - 2); }
    }
  }

  /** A decision on a payment that is not under review, or is not known, is refused and changes nothing. */
  lemma DecisionRefused(w: World, d: ReviewDecision, n: nat)
    requires !UnderReview(w, d.pid) && n >= 1
    ensures var refused := Done(if d.pid in w.sagas then NotUnderReview else Errored);
      && RunCall(w, Call(OnResume(d), false), n) == (w, Call(refused, false))
      && RunCall(w, Call(OnReject(d), false), n) == (w, Call(refused, false))
  {
    hide RunCall;
    var refused := Done(if d.pid in w.sagas then NotUnderReview else Errored);
    CallEntered(w, OnResume(d), n);
    CallEntered(w, OnReject(d), n);
    CallStopped(w, refused, false, n - 1);
  }

  // ----- A confirmation before a review -----

  lemma ConfirmedUnstored(w: World, event: RailEvent)
    requires Processing(w, event.pid) && w.sagas[event.pid].start.pid == event.pid
    requires CallConfirm(w.bank, w.sagas[event.pid]).1.Ok?
    ensures RunFor(w, OnCompleted(event), 2).0 == w.(bank := CallConfirm(w.bank, w.sagas[event.pid]).0)
  {
    hide RunFor, Left, CallConfirm;
    var row := w.sagas[event.pid];
    Entered(w, OnCompleted(event), 2);
    ConfirmAnswers(w, row, 1);
    Stopped(w.(bank := CallConfirm(w.bank, row).0), Persist(SettledRow(w, row)), 0);
  }

  lemma TwoRunsConsistent(w: World, h1: Handler, n1: nat, h2: Handler, n2: nat)
    requires Consistent(w) && h1.Entry() && h2.Entry()
    ensures var w1 := RunFor(w, h1, n1).0; var w2 := RunFor(w1, h2, n2).0; Consistent(w2) && Total(w2.bank) == Total(w.bank)
  {
    hide RunFor, Left, Consistent, Total, Elsewhere;
    RunConsistent(w, h1, n1);
    RunConsistent(RunFor(w, h1, n1).0, h2, n2);
  }

  /** A payment confirmed just before a crash, and flagged before the confirmation is stored, can
      never be rejected: however many statements and calls succeed, its reservation stays
      CONFIRMED, nothing is refunded, and the operator sees no success. */
  lemma SettledThenFlagged(w: World, event: RailEvent, f: FraudFlagged, m: nat, d: ReviewDecision, n: nat)
    requires Consistent(w) && Total(w.bank) <= MAX_INT64 && Processing(w, event.pid) && event.PaymentCompleted?
    requires f.Valid() && f.pid == event.pid && d.pid == event.pid && m >= 2
    ensures var w1 := RunFor(w, OnCompleted(event), 2).0; var w2 := RunFor(w1, OnFlagged(f), m).0;
      var (w3, c3) := RunCall(w2, Call(OnReject(d), false), n);
      && UnderReview(w2, d.pid) && ReservationIs(w2.bank, d.pid, Confirmed)
      && CallReply(c3) != Replied(Finished) && !RejectedInFull(w3, d.pid, d.reason)
  {
    hide RunFor, RunCall, Left, Consistent, Total, CallConfirm, FailedInFull;
    var p := event.pid;
    ProcessingMoney(w, p);
    ConfirmationAccepted(w, p);
    var w1 := RunFor(w, OnCompleted(event), 2).0;
    ConfirmedUnstored(w, event);
    ConfirmSettles(w.bank, w.sagas[p]);
    FlagStores(w1, f, m);
    TwoRunsConsistent(w, OnCompleted(event), 2, OnFlagged(f), m);
    RejectionOutcome(RunFor(w1, OnFlagged(f), m).0, d, n);
  }
}
