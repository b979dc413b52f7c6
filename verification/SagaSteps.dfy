/** One statement or call of each kind of handler: what is left of its run afterwards. */
module SagaSteps {
  import opened Domain
  import opened Bank
  import opened SagaMachine

  /** What the caller of a handler sees: its outcome, or that a statement or call failed. */
  datatype Reply = Replied(outcome: Outcome) | Interrupted

  function ReplyOf(h: Handler): Reply {
    if h.Done? then Replied(h.outcome) else Interrupted
  }

  /** Handler `h`, run in `w` for `n` statements and calls, leaves `w'` and `n'` of them, and answers `r`. */
  ghost predicate Runs(w: World, h: Handler, n: nat, w': World, n': nat, r: Reply) {
    var (w1, h1) := RunFor(w, h, n);
    w' == w1 && r == ReplyOf(h1) && n' == Left(w, h, n)
  }

  /** A run from the one point is a run from the other. */
  ghost predicate Leads(w: World, h: Handler, n: nat, w': World, h': Handler, n': nat) {
    RunFor(w, h, n) == RunFor(w', h', n') && Left(w, h, n) == Left(w', h', n')
  }

  // ----- The machine, one statement or call at a time -----

  lemma Stopped(w: World, h: Handler, n: nat)
    requires n == 0 || h.Done?
    ensures RunFor(w, h, n) == (w, h) && Left(w, h, n) == n
  {
  }

  lemma Entered(w: World, h: Handler, n: nat)
    requires n > 0 && !h.HasCopy() && !h.Done?
    ensures Leads(w, h, n, Enter(w, h).0, Enter(w, h).1, n - 1)
  {
    OneStep(w, h, n);
  }

  lemma Checked(w: World, c: Saga, n: nat)
    requires n > 0 && c.start.pid in w.sagas
    ensures Leads(w, CheckVerification(c), n, w,
      if c.start.user in w.verifications && w.verifications[c.start.user].status.Verified? then Persist(To(w, c, VerificationChecked))
      else PersistUnverified(To(w, c, Failed).(lastError := "user is not verified")), n - 1)
  {
    OneStep(w, CheckVerification(c), n);
  }

  lemma DebitAnswers(w: World, c: Saga, n: nat)
    requires n > 0 && c.start.pid in w.sagas
    ensures var (b, r) := CallDebit(w.bank, c.start);
      Leads(w, DebitWallet(c), n, w.(bank := b), if r.Ok? then Persist(To(w, c, WalletDebited).(debitId := r.value.id)) else Done(Errored), n - 1)
  {
    OneStep(w, DebitWallet(c), n);
  }

  lemma ReserveAnswers(w: World, c: Saga, n: nat)
    requires n > 0 && c.start.pid in w.sagas
    ensures var (b, r) := CallReserve(w.bank, c.start);
      Leads(w, ReserveLedger(c), n, w.(bank := b), if r.Ok? then Persist(To(w, c, LedgerReserved).(reservationId := r.value.id)) else Done(Errored), n - 1)
  {
    OneStep(w, ReserveLedger(c), n);
  }

  lemma ConfirmAnswers(w: World, c: Saga, n: nat)
    requires n > 0 && c.start.pid in w.sagas
    ensures var (b, r) := CallConfirm(w.bank, c);
      Leads(w, Confirm(c), n, w.(bank := b), if r.Ok? then Persist(To(w, c, LedgerConfirmed).(transferId := r.value)) else Done(Errored), n - 1)
  {
    OneStep(w, Confirm(c), n);
  }

  lemma CancelAnswers(w: World, c: Saga, n: nat)
    requires n > 0 && c.start.pid in w.sagas
    ensures var (b, r) := CallCancel(w.bank, c);
      Leads(w, CancelLedger(c), n, w.(bank := b), if r.Ok? then Persist(To(w, c, CompensatingWallet)) else Done(Errored), n - 1)
  {
    OneStep(w, CancelLedger(c), n);
  }

  lemma CompensateAnswers(w: World, c: Saga, n: nat)
    requires n > 0 && c.start.pid in w.sagas
    ensures var (b, r) := CallCompensate(w.bank, c);
      Leads(w, Compensate(c), n, w.(bank := b), if r.Ok? then Persist(To(w, c, Failed)) else Done(Errored), n - 1)
  {
    OneStep(w, Compensate(c), n);
  }

  lemma Launched(w: World, c: Saga, n: nat)
    requires n > 0 && c.start.pid in w.sagas
    ensures RunFor(w, Launch(c), n) == (Enqueued(Enqueued(Save(w, To(w, c, PaymentProcessing)), PaymentExecute, c), FraudScoreRequested, c), Done(Finished)) && Left(w, Launch(c), n) == n - 1
  {
    OneStep(w, Launch(c), n);
  }

  lemma CompletionPublished(w: World, c: Saga, n: nat)
    requires n > 0 && c.start.pid in w.sagas
    ensures Leads(w, PublishCompleted(c), n, Enqueued(w, TxCompleted, c), Persist(To(w, c, Completed)), n - 1)
  {
    OneStep(w, PublishCompleted(c), n);
  }

  lemma FailurePublished(w: World, c: Saga, n: nat)
    requires n > 0 && c.start.pid in w.sagas
    ensures RunFor(w, PublishFailed(c), n) == (Enqueued(w, TxFailed, c), Done(Finished)) && Left(w, PublishFailed(c), n) == n - 1
  {
    OneStep(w, PublishFailed(c), n);
  }

  lemma Persisted(w: World, c: Saga, n: nat)
    requires n > 0 && c.start.pid in w.sagas && w.sagas[c.start.pid].start == c.start
    ensures Leads(w, Persist(c), n, Save(w, c), AfterPersist(c), n - 1)
  {
    OneStep(w, Persist(c), n);
  }

  lemma UnverifiedPersisted(w: World, c: Saga, n: nat)
    requires n > 0 && c.start.pid in w.sagas
    ensures RunFor(w, PersistUnverified(c), n) == (Save(w, c), Done(Unverified)) && Left(w, PersistUnverified(c), n) == n - 1
  {
    OneStep(w, PersistUnverified(c), n);
  }

  lemma PausedPersisted(w: World, c: Saga, a: AuditRecord, n: nat)
    requires n > 0 && c.start.pid in w.sagas
    ensures RunFor(w, PersistPaused(c, a), n) == (Audited(Enqueued(Save(w, c), TxPaused, c), a), Done(Finished)) && Left(w, PersistPaused(c, a), n) == n - 1
  {
    OneStep(w, PersistPaused(c, a), n);
  }

  lemma AuditedPersisted(w: World, c: Saga, a: AuditRecord, n: nat)
    requires n > 0 && c.start.pid in w.sagas
    ensures RunFor(w, PersistAudited(c, a), n) == (Audited(Save(w, c), a), Done(Finished)) && Left(w, PersistAudited(c, a), n) == n - 1
  {
    OneStep(w, PersistAudited(c, a), n);
  }

  lemma ResumedPersisted(w: World, c: Saga, a: AuditRecord, replay: Option<RailEvent>, n: nat)
    requires n > 0 && c.start.pid in w.sagas
    ensures Leads(w, PersistResumed(c, a, replay), n, Audited(Save(w, c), a), if replay.Some? then Replay(replay.value) else Done(Finished), n - 1)
  {
    OneStep(w, PersistResumed(c, a, replay), n);
  }

  lemma RejectedPersisted(w: World, c: Saga, a: AuditRecord, n: nat)
    requires n > 0 && c.start.pid in w.sagas && w.sagas[c.start.pid].start == c.start
    ensures Leads(w, PersistRejected(c, a), n, Audited(Save(w, c), a), CancelLedger(c), n - 1)
  {
    OneStep(w, PersistRejected(c, a), n);
  }

  // ----- Calls that answer with the row -----

  /** A call of the orchestrator: where its handler is, and whether it reads the row once more to
      answer with it. That read changes nothing, but when it fails the caller sees an error. */
  datatype Call = Call(at: Handler, rereads: bool)

  /** An operator's decision answers with the row as it is at the end: a rejection always, a resume
      only after it replayed a result. */
  predicate Answers(h: Handler) {
    h.PersistRejected? || (h.PersistResumed? && h.replay.Some?)
  }

  predicate Returned(c: Call) {
    c.at.Done? && !(c.rereads && c.at.outcome.Finished?)
  }

  function ExecCall(w: World, c: Call): (World, Call) {
    if c.at.Done? then (w, Call(c.at, false))
    else
      var (w', h') := Exec(w, c.at);
      (w', Call(h', c.rereads || Answers(c.at)))
  }

  /** A call that survives `budget` statements and calls. */
  function RunCall(w: World, c: Call, budget: nat): (World, Call)
    decreases budget
  {
    if budget == 0 || Returned(c) then (w, c)
    else
      var (w', c') := ExecCall(w, c);
      RunCall(w', c', budget - 1)
  }

  function CallReply(c: Call): Reply {
    if Returned(c) then Replied(c.at.outcome) else Interrupted
  }

  ghost predicate RunsCall(w: World, h: Handler, n: nat, w': World, r: Reply) {
    var (w1, c1) := RunCall(w, Call(h, false), n);
    w' == w1 && r == CallReply(c1)
  }

  lemma CallStep(w: World, h: Handler, rereads: bool, n: nat)
    requires n > 0 && !h.Done?
    ensures RunCall(w, Call(h, rereads), n) == RunCall(Exec(w, h).0, Call(Exec(w, h).1, rereads || Answers(h)), n - 1)
  {
  }

  /** A call changes what its handler changes. */
  lemma {:induction false} CallWorld(w: World, h: Handler, rereads: bool, n: nat)
    ensures RunCall(w, Call(h, rereads), n).0 == RunFor(w, h, n).0
    decreases n
  {
    hide Exec;
    if n > 0 {
      if h.Done? {
        if !Returned(Call(h, rereads)) { assert Returned(Call(h, false)); }
      } else {
        CallWorld(Exec(w, h).0, Exec(w, h).1, rereads || Answers(h), n - 1);
      }
    }
  }

  /** A call that answers with the row succeeds when its handler does with one statement to spare. */
  lemma {:induction false} RereadAnswers(w: World, h: Handler, n: nat)
    ensures var r := CallReply(RunCall(w, Call(h, true), n).1); var (w', h') := RunFor(w, h, n);
      r == if h' == Done(Finished) && Left(w, h, n) == 0 then Interrupted else ReplyOf(h')
    decreases n
  {
    hide Exec;
    if n > 0 {
      if h.Done? {
        assert Returned(Call(h, false));
      } else {
        RereadAnswers(Exec(w, h).0, Exec(w, h).1, n - 1);
      }
    }
  }

  lemma {:induction false} SparesOne(w: World, h: Handler, n: nat)
    requires RunFor(w, h, n).1.Done?
    ensures Left(w, h, n) > 0 <==> n > 0 && RunFor(w, h, n - 1).1.Done?
    decreases n
  {
    hide Exec;
    if n > 0 && !h.Done? {
      SparesOne(Exec(w, h).0, Exec(w, h).1, n - 1);
      if n > 1 { OneStep(w, h, n - 1); }
    }
  }

  // ----- Calls, one statement at a time -----

  lemma CallStopped(w: World, h: Handler, rereads: bool, n: nat)
    requires n == 0 || Returned(Call(h, rereads))
    ensures RunCall(w, Call(h, rereads), n) == (w, Call(h, rereads))
  {
  }

  lemma CallEntered(w: World, h: Handler, n: nat)
    requires n > 0 && !h.HasCopy() && !h.Done?
    ensures RunCall(w, Call(h, false), n) == RunCall(Enter(w, h).0, Call(Enter(w, h).1, false), n - 1)
  {
    CallStep(w, h, false, n);
  }

  lemma CallResumed(w: World, c: Saga, a: AuditRecord, replay: Option<RailEvent>, n: nat)
    requires n > 0 && c.start.pid in w.sagas
    ensures RunCall(w, Call(PersistResumed(c, a, replay), false), n)
         == RunCall(Audited(Save(w, c), a), Call(if replay.Some? then Replay(replay.value) else Done(Finished), replay.Some?), n - 1)
  {
    hide RunCall;
    CallStep(w, PersistResumed(c, a, replay), false, n);
  }

  lemma CallRejected(w: World, c: Saga, a: AuditRecord, n: nat)
    requires n > 0 && c.start.pid in w.sagas && w.sagas[c.start.pid].start == c.start
    ensures RunCall(w, Call(PersistRejected(c, a), false), n) == RunCall(Audited(Save(w, c), a), Call(CancelLedger(c), true), n - 1)
  {
    hide RunCall;
    CallStep(w, PersistRejected(c, a), false, n);
  }
}
