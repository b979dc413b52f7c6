/** A review only delays: holding a rail result and replaying it on resume ends where the
    result would have ended without the review. Fraud metadata and times never influence
    what a rail handler does to the saga's state, the wallet or the ledger. */
module ReviewCommutes {
  import opened Domain
  import opened Bank
  import opened SagaMachine
  import opened SagaSteps
  import opened ForwardPath
  import C = Compensation
  import R = Completion

  /** Equal but for the fraud metadata and the update time. */
  ghost predicate SameSaga(c: Saga, c': Saga) {
    c' == c.(flag := c'.flag, updatedAt := c'.updatedAt)
  }

  ghost predicate SameWorld(w: World, w': World, p: PaymentId) {
    && w'.bank == w.bank && p in w.sagas && p in w'.sagas && w.sagas[p].start.pid == p && SameSaga(w.sagas[p], w'.sagas[p])
  }

  /** The states a rail handler stores. */
  predicate RailState(s: State) {
    s.LedgerConfirmed? || s.Completed? || s.CompensatingLedger? || s.CompensatingWallet? || s.Failed?
  }

  /** Handlers at the same point, holding copies that differ in metadata only; audit records
      aside. These are the points a rail event's handler passes. */
  ghost predicate SamePoint(h: Handler, h': Handler, p: PaymentId) {
    match h
    case OnCompleted(e) => h' == h && e.pid == p
    case OnFailed(e) => h' == h && e.pid == p
    case Confirm(c) => h'.Confirm? && SameSaga(c, h'.cur) && c.start.pid == p
    case PublishCompleted(c) => h'.PublishCompleted? && SameSaga(c, h'.cur) && c.start.pid == p
    case CancelLedger(c) => h'.CancelLedger? && SameSaga(c, h'.cur) && c.start.pid == p
    case Compensate(c) => h'.Compensate? && SameSaga(c, h'.cur) && c.start.pid == p
    case PublishFailed(c) => h'.PublishFailed? && SameSaga(c, h'.cur) && c.start.pid == p
    case Persist(c) => h'.Persist? && SameSaga(c, h'.cur) && c.start.pid == p && RailState(c.state)
    case PersistAudited(c, _) => h'.PersistAudited? && SameSaga(c, h'.cur) && c.start.pid == p
    case RecordAudit(_) => h'.RecordAudit?
    case Done(_) => h'.Done?
    case _ => false
  }

  ghost predicate SameStep(x: (World, Handler), y: (World, Handler), p: PaymentId) {
    SameWorld(x.0, y.0, p) && SamePoint(x.1, y.1, p)
  }

  lemma ReadSame(w: World, w': World, h: Handler, p: PaymentId)
    requires SameWorld(w, w', p) && SamePoint(h, h, p) && (h.OnCompleted? || h.OnFailed?)
    ensures SameStep(Exec(w, h), Exec(w', h), p)
  {
  }

  lemma ConfirmSame(w: World, w': World, c: Saga, c': Saga, p: PaymentId)
    requires SameWorld(w, w', p) && SamePoint(Confirm(c), Confirm(c'), p)
    ensures SameStep(Exec(w, Confirm(c)), Exec(w', Confirm(c')), p)
  {
  }

  lemma CancelSame(w: World, w': World, c: Saga, c': Saga, p: PaymentId)
    requires SameWorld(w, w', p) && SamePoint(CancelLedger(c), CancelLedger(c'), p)
    ensures SameStep(Exec(w, CancelLedger(c)), Exec(w', CancelLedger(c')), p)
  {
  }

  lemma CompensateSame(w: World, w': World, c: Saga, c': Saga, p: PaymentId)
    requires SameWorld(w, w', p) && SamePoint(Compensate(c), Compensate(c'), p)
    ensures SameStep(Exec(w, Compensate(c)), Exec(w', Compensate(c')), p)
  {
  }

  lemma PublishSame(w: World, w': World, h: Handler, h': Handler, p: PaymentId)
    requires SameWorld(w, w', p) && SamePoint(h, h', p) && (h.PublishCompleted? || h.PublishFailed? || h.RecordAudit?)
    ensures SameStep(Exec(w, h), Exec(w', h'), p)
  {
  }

  lemma PersistSame(w: World, w': World, c: Saga, c': Saga, p: PaymentId)
    requires SameWorld(w, w', p) && SamePoint(Persist(c), Persist(c'), p)
    ensures SameStep(Exec(w, Persist(c)), Exec(w', Persist(c')), p)
  {
  }

  lemma AuditedSame(w: World, w': World, h: Handler, h': Handler, p: PaymentId)
    requires SameWorld(w, w', p) && SamePoint(h, h', p) && h.PersistAudited?
    ensures SameStep(Exec(w, h), Exec(w', h'), p)
  {
  }

  lemma StepSame(w: World, w': World, h: Handler, h': Handler, p: PaymentId)
    requires SameWorld(w, w', p) && SamePoint(h, h', p)
    ensures SameStep(Exec(w, h), Exec(w', h'), p)
  {
    match h
    case OnCompleted(_) => ReadSame(w, w', h, p);
    case OnFailed(_) => ReadSame(w, w', h, p);
    case Confirm(c) => ConfirmSame(w, w', c, h'.cur, p);
    case CancelLedger(c) => CancelSame(w, w', c, h'.cur, p);
    case Compensate(c) => CompensateSame(w, w', c, h'.cur, p);
    case PublishCompleted(_) => PublishSame(w, w', h, h', p);
    case PublishFailed(_) => PublishSame(w, w', h, h', p);
    case RecordAudit(_) => PublishSame(w, w', h, h', p);
    case Persist(c) => PersistSame(w, w', c, h'.cur, p);
    case PersistAudited(_, _) => AuditedSame(w, w', h, h', p);
    case Done(_) =>
  }

  /** Metadata never matters to a rail handler: same money, same ledger, same saga. */
  lemma {:induction false} RunSame(w: World, w': World, h: Handler, h': Handler, p: PaymentId, n: nat)
    requires SameWorld(w, w', p) && SamePoint(h, h', p)
    ensures SameWorld(RunFor(w, h, n).0, RunFor(w', h', n).0, p)
    decreases n
  {
    if n > 0 && !h.Done? {
      StepSame(w, w', h, h', p);
      var (w1, h1) := Exec(w, h);
      var (w1', h1') := Exec(w', h');
      RunSame(w1, w1', h1, h1', p, n - 1);
    }
  }

  // ----- Handlers that are not killed finish -----

  /** A bound on the statements and calls left. */
  function Rank(h: Handler): nat {
    match h
    case Done(_) => 0
    case Launch(_) => 1
    case PublishFailed(_) => 1
    case RecordAudit(_) => 1
    case PersistUnverified(_) => 1
    case PersistPaused(_, _) => 1
    case PersistAudited(_, _) => 1
    case OnFlagged(_) => 2
    case PublishCompleted(_) => 2
    case ReserveLedger(_) => 3
    case Compensate(_) => 3
    case Confirm(_) => 4
    case DebitWallet(_) => 5
    case CancelLedger(_) => 5
    case OnCompleted(_) => 5
    case PersistRejected(_, _) => 6
    case CheckVerification(_) => 7
    case OnFailed(_) => 7
    case OnReject(_) => 7
    case Start(_) => 8
    case Recover(_) => 8
    case PersistResumed(_, _, _) => 8
    case OnResume(_) => 9
    case Persist(c) =>
      match c.state
      case Started => 8
      case VerificationChecked => 6
      case WalletDebited => 4
      case LedgerReserved => 2
      case LedgerConfirmed => 3
      case CompensatingLedger => 6
      case CompensatingWallet => 4
      case Failed => 2
      case _ => 1
  }

  const LIMIT: nat := 9

  lemma EnterFalls(w: World, h: Handler)
    requires !h.HasCopy() && !h.Done?
    ensures Rank(Enter(w, h).1) < Rank(h)
  {
  }

  lemma ContinueFalls(w: World, h: Handler)
    requires h.HasCopy() && h.cur.start.pid in w.sagas
    ensures Rank(Continue(w, h).1) < Rank(h)
  {
    hide CallDebit, CallReserve, CallConfirm, CallCancel, CallCompensate;
  }

  /** A handler makes at most as many statements and calls as its rank. */
  lemma {:induction false} HandlersFinish(w: World, h: Handler, n: nat)
    requires Rank(h) <= n
    ensures RunFor(w, h, n).1.Done?
    decreases n
  {
    if !h.Done? {
      if h.HasCopy() { if h.cur.start.pid in w.sagas { ContinueFalls(w, h); } } else { EnterFalls(w, h); }
      var (w1, h1) := Exec(w, h);
      HandlersFinish(w1, h1, n - 1);
    }
  }

  lemma {:induction false} CallEnds(w: World, c: Call, n: nat)
    requires Rank(c.at) < n
    ensures Returned(RunCall(w, c, n).1)
    decreases n
  {
    if c.at.Done? {
      if !Returned(c) { CallStopped(w, c.at, false, n - 1); }
    } else {
      if c.at.HasCopy() { if c.at.cur.start.pid in w.sagas { ContinueFalls(w, c.at); } } else { EnterFalls(w, c.at); }
      hide Exec, Enter, Continue;
      var (w1, c1) := ExecCall(w, c);
      CallEnds(w1, c1, n - 1);
    }
  }

  /** Every call of the orchestrator returns within ten statements and calls, its last read included. */
  lemma CallsFinish(w: World, h: Handler, n: nat)
    requires n > LIMIT
    ensures Returned(RunCall(w, Call(h, false), n).1)
  {
    assert Rank(h) <= LIMIT;
    CallEnds(w, Call(h, false), n);
  }

  /** A handler run to its end, starting at clock reading `t`. */
  function Finish(w: World, h: Handler, t: int): World {
    RunFor(w.(now := t), h, LIMIT).0
  }

  // ----- The three orders -----

  function HandlerOf(event: RailEvent): Handler {
    if event.PaymentCompleted? then OnCompleted(event) else OnFailed(event)
  }

  lemma TwoSteps(w: World, h: Handler, n: nat)
    requires n >= 2 && !h.Done?
    ensures var (w1, h1) := Exec(w, h); var (w2, h2) := Exec(w1, h1);
      (!h1.Done? ==> RunFor(w, h, n) == RunFor(w2, h2, n - 2)) && (h1.Done? ==> RunFor(w, h, n).0 == w1)
  {
    var (w1, h1) := Exec(w, h);
    assert RunFor(w, h, n) == RunFor(w1, h1, n - 1);
  }

  /** Flagging a payment under processing puts it in review, and changes nothing else of it. */
  lemma FlagHolds(w: World, f: FraudFlagged, t: int, p: PaymentId)
    requires p in w.sagas && w.sagas[p].start.pid == p && w.sagas[p].state.PaymentProcessing? && f.Valid() && f.pid == p
    ensures var w' := Finish(w, OnFlagged(f), t);
      && w'.bank == w.bank && p in w'.sagas && w'.sagas[p].state.FraudReview?
      && SameSaga(w.sagas[p], w'.sagas[p].(state := PaymentProcessing))
  {
    TwoSteps(w.(now := t), OnFlagged(f), LIMIT);
  }

  /** A rail result during a review with nothing deferred is stored and changes nothing else. */
  lemma ResultIsDeferred(w: World, event: RailEvent, t: int, p: PaymentId)
    requires p in w.sagas && w.sagas[p].start.pid == p && w.sagas[p].state.FraudReview? && w.sagas[p].deferred.None? && event.pid == p
    ensures var w' := Finish(w, HandlerOf(event), t);
      && w'.bank == w.bank && p in w'.sagas && w'.sagas[p].deferred == Some(event)
      && SameSaga(w.sagas[p], w'.sagas[p].(deferred := None))
  {
    TwoSteps(w.(now := t), HandlerOf(event), LIMIT);
  }

  /** The two statements of a resume: the read and the audited update. */
  function Resumed(w: World, d: ReviewDecision, t: int): (World, Handler) {
    var (w1, h1) := Exec(w.(now := t), OnResume(d));
    Exec(w1, h1)
  }

  /** A resume is the return to processing, followed by the replay of the deferred result. */
  lemma ResumeReplays(w: World, d: ReviewDecision, t: int, p: PaymentId)
    requires p in w.sagas && w.sagas[p].start.pid == p && w.sagas[p].state.FraudReview? && d.pid == p
    ensures var (w1, h1) := Resumed(w, d, t);
      && w1.bank == w.bank && p in w1.sagas
      && SameSaga(w.sagas[p].(state := PaymentProcessing, deferred := None), w1.sagas[p])
      && h1 == if w.sagas[p].deferred.Some? then Replay(w.sagas[p].deferred.value) else Done(Finished)
  {
  }

  lemma FinishResume(w: World, d: ReviewDecision, t: int)
    requires d.pid in w.sagas && w.sagas[d.pid].state.FraudReview?
    ensures var (w1, h1) := Resumed(w, d, t); Finish(w, OnResume(d), t) == RunFor(w1, h1, LIMIT - 2).0
  {
    TwoSteps(w.(now := t), OnResume(d), LIMIT);
  }

  /** The bound that a replayed handler has left is enough for it. */
  lemma FinishEither(w: World, h: Handler)
    requires Rank(h) <= LIMIT - 2
    ensures RunFor(w, h, LIMIT).0 == RunFor(w, h, LIMIT - 2).0
  {
    HandlersFinish(w, h, LIMIT - 2);
    FinishedStays(w, h, LIMIT - 2, LIMIT);
  }

  /** A payment under processing: resumed at `t` after a flag at `s`, with nothing deferred. */
  lemma FlagThenResume(w: World, f: FraudFlagged, d: ReviewDecision, s: int, t: int, p: PaymentId)
    requires p in w.sagas && w.sagas[p].start.pid == p && w.sagas[p].state.PaymentProcessing? && w.sagas[p].deferred.None?
    requires f.Valid() && f.pid == p && d.pid == p
    ensures SameWorld(w, Finish(Finish(w, OnFlagged(f), s), OnResume(d), t), p)
  {
    FlagHolds(w, f, s, p);
    var w1 := Finish(w, OnFlagged(f), s);
    ResumeReplays(w1, d, t, p);
    FinishResume(w1, d, t);
  }

  /** A payment under processing: flagged, its rail result held, then resumed, up to the replay. */
  lemma FlagDeferResume(w: World, event: RailEvent, f: FraudFlagged, d: ReviewDecision, r: int, s: int, t: int, p: PaymentId)
    requires p in w.sagas && w.sagas[p].start.pid == p && w.sagas[p].state.PaymentProcessing? && w.sagas[p].deferred.None?
    requires f.Valid() && f.pid == p && d.pid == p && event.pid == p
    ensures var w2 := Finish(Finish(w, OnFlagged(f), r), HandlerOf(event), s); var (w3, h3) := Resumed(w2, d, t);
      && SameWorld(w, w3, p) && h3 == Replay(event) && Finish(w2, OnResume(d), t) == RunFor(w3, h3, LIMIT - 2).0
  {
    FlagHolds(w, f, r, p);
    var w1 := Finish(w, OnFlagged(f), r);
    ResultIsDeferred(w1, event, s, p);
    var w2 := Finish(w1, HandlerOf(event), s);
    ResumeReplays(w2, d, t, p);
    FinishResume(w2, d, t);
  }

  /** Crash-free handlers, any clock readings. For a payment under processing and a rail
      result whose event id names its own kind, flag then result then resume, flag then resume
      then result, and the result alone all end with the same saga state and failure, the
      same wallets and the same ledger. */
  lemma ReviewOnlyDelays(w: World, event: RailEvent, f: FraudFlagged, d: ReviewDecision, t0: int, t1: int, t2: int, p: PaymentId)
    requires p in w.sagas && w.sagas[p].start.pid == p && w.sagas[p].state.PaymentProcessing? && w.sagas[p].deferred.None?
    requires f.Valid() && f.pid == p && d.pid == p && event.pid == p && Replay(event) == HandlerOf(event)
    ensures var direct := Finish(w, HandlerOf(event), t0);
      && SameWorld(direct, Finish(Finish(Finish(w, OnFlagged(f), t0), HandlerOf(event), t1), OnResume(d), t2), p)
      && SameWorld(direct, Finish(Finish(Finish(w, OnFlagged(f), t0), OnResume(d), t1), HandlerOf(event), t2), p)
  {
    var h := HandlerOf(event);
    FlagDeferResume(w, event, f, d, t0, t1, t2, p);
    var w2 := Finish(Finish(w, OnFlagged(f), t0), h, t1);
    var w3 := Resumed(w2, d, t2).0;
    RunSame(w.(now := t0), w3, h, h, p, LIMIT);
    FinishEither(w3, h);
    FlagThenResume(w, f, d, t0, t1, p);
    var wr := Finish(Finish(w, OnFlagged(f), t0), OnResume(d), t1);
    RunSame(w.(now := t0), wr.(now := t2), h, h, p, LIMIT);
  }

  /** Results published by the payment processor name their own kind. */
  lemma ProcessorIdsReplay(pid: PaymentId, code: string, message: string)
    ensures var done := PaymentCompleted(COMPLETED_PREFIX + pid, pid); Replay(done) == HandlerOf(done)
    ensures var failed := PaymentFailed(FAILED_PREFIX + pid, pid, code, message); Replay(failed) == HandlerOf(failed)
  {
    var id := FAILED_PREFIX + pid;
    assert id[8] == 'f' && COMPLETED_PREFIX[8] == 'c';
  }

  // ----- When a held completion is applied -----

  /** From the stored LEDGER_CONFIRMED row, three statements end in COMPLETED. */
  lemma PublishLands(w: World, c: Saga, p: PaymentId, n: nat)
    requires n >= 3 && p in w.sagas && w.sagas[p].start.pid == p && c.start == w.sagas[p].start && c.state.LedgerConfirmed?
    ensures var w' := RunFor(w, Persist(c), n).0; p in w'.sagas && w'.sagas[p].state.Completed?
  {
    var (w1, h1) := Exec(w, Persist(c));
    OneStep(w, Persist(c), n);
    assert h1 == PublishCompleted(c);
    var (w2, h2) := Exec(w1, h1);
    OneStep(w1, h1, n - 1);
    assert h2 == Persist(To(w1, c, Completed)) && w2.sagas == w1.sagas;
    var (w3, h3) := Exec(w2, h2);
    OneStep(w2, h2, n - 2);
    assert h3.Done?;
  }

  lemma CompletionLands(w: World, event: RailEvent, p: PaymentId, n: nat)
    requires n >= 5 && p in w.sagas && w.sagas[p].start.pid == p && w.sagas[p].state.PaymentProcessing? && event.pid == p
    requires CallConfirm(w.bank, w.sagas[p]).1.Ok?
    ensures var w' := RunFor(w, OnCompleted(event), n).0; p in w'.sagas && w'.sagas[p].state.Completed?
  {
    var row := w.sagas[p];
    OneStep(w, OnCompleted(event), n);
    assert Exec(w, OnCompleted(event)) == (w, Confirm(row));
    OneStep(w, Confirm(row), n - 1);
    var (w2, h2) := Exec(w, Confirm(row));
    assert h2.Persist? && w2.sagas == w.sagas;
    PublishLands(w2, h2.cur, p, n - 2);
  }

  /** The points of a rail failure's handler. */
  predicate Failing(h: Handler, p: PaymentId) {
    || h.Done? || (h.OnFailed? && h.event.pid == p) || h.RecordAudit?
    || ((h.CancelLedger? || h.Compensate? || h.PublishFailed?) && h.cur.start.pid == p)
    || (h.Persist? && h.cur.start.pid == p && (h.cur.state.CompensatingLedger? || h.cur.state.CompensatingWallet? || h.cur.state.Failed?))
  }

  lemma FailingStep(w: World, h: Handler, p: PaymentId)
    requires Failing(h, p) && p in w.sagas && w.sagas[p].start.pid == p && !w.sagas[p].state.Completed? && !w.sagas[p].state.FraudReview?
    ensures var (w', h') := Exec(w, h);
      && Failing(h', p) && p in w'.sagas && w'.sagas[p].start.pid == p && !w'.sagas[p].state.Completed? && !w'.sagas[p].state.FraudReview?
  {
  }

  lemma {:induction false} FailureNeverCompletes(w: World, h: Handler, p: PaymentId, n: nat)
    requires Failing(h, p) && p in w.sagas && w.sagas[p].start.pid == p && !w.sagas[p].state.Completed? && !w.sagas[p].state.FraudReview?
    ensures var w' := RunFor(w, h, n).0; p in w'.sagas && !w'.sagas[p].state.Completed?
    decreases n
  {
    if n > 0 && !h.Done? {
      FailingStep(w, h, p);
      var (w1, h1) := Exec(w, h);
      FailureNeverCompletes(w1, h1, p, n - 1);
    }
  }

  lemma HoldStart(w: World, p: PaymentId)
    requires C.Consistent(w) && C.Processing(w, p)
    ensures w.sagas[p].start.pid == p && w.sagas[p].deferred.None? && CallConfirm(w.bank, w.sagas[p]).1.Ok?
  {
    hide C.Consistent;
    C.ProcessingMoney(w, p);
    C.ProcessingHoldsNothing(w, p);
    R.ConfirmationAccepted(w, p);
  }

  /** Crash-free handlers. A completion held during a review is applied on resume exactly when
      its event id carries the completion prefix: any other id is either replayed as a failure
      or dropped. */
  lemma HeldCompletionApplies(w: World, event: RailEvent, f: FraudFlagged, d: ReviewDecision, t0: int, t1: int, t2: int, p: PaymentId)
    requires C.Consistent(w) && C.Processing(w, p)
    requires f.Valid() && f.pid == p && d.pid == p && event.pid == p && event.PaymentCompleted?
    ensures var held := Finish(Finish(Finish(w, OnFlagged(f), t0), HandlerOf(event), t1), OnResume(d), t2);
      p in held.sagas && (held.sagas[p].state.Completed? <==> COMPLETED_PREFIX <= event.eventId)
  {
    HoldStart(w, p);
    FlagDeferResume(w, event, f, d, t0, t1, t2, p);
    var w2 := Finish(Finish(w, OnFlagged(f), t0), HandlerOf(event), t1);
    var (w3, h3) := Resumed(w2, d, t2);
    if COMPLETED_PREFIX <= event.eventId {
      CompletionLands(w3, event, p, LIMIT - 2);
    } else {
      FailureNeverCompletes(w3, h3, p, LIMIT - 2);
    }
  }

  // ----- What the audit trail tells -----

  /** A first delivery of a flag leaves one audit row that tells what the flag did: moved the
      payment to review and announced it, only noted it, or named no known payment. */
  lemma FlagIsAudited(w: World, f: FraudFlagged, t: int)
    requires f.Valid() && EventKey(f.eventId) !in w.audit && (f.pid in w.sagas ==> w.sagas[f.pid].start.pid == f.pid)
    ensures var w' := Finish(w, OnFlagged(f), t); var k := EventKey(f.eventId);
      && k in w'.audit && w'.audit[k].pid == f.pid && w'.bank == w.bank
      && (w'.audit[k].kind == Orphan <==> f.pid !in w.sagas)
      && (f.pid !in w.sagas ==> w'.sagas == w.sagas && w'.outbox == w.outbox)
      && (f.pid in w.sagas ==>
            var row := w.sagas[f.pid];
            && w'.sagas == w.sagas[f.pid := w'.sagas[f.pid]] && w'.sagas[f.pid].flag == Some(f) && w'.audit[k].state == Some(row.state)
            && (w'.audit[k].kind == Transition <==> row.state.PaymentProcessing?)
            && (w'.audit[k].kind == Duplicate <==> row.state.FraudReview? || Terminal(row.state))
            && w'.sagas[f.pid].state == (if row.state.PaymentProcessing? then FraudReview else row.state)
            && w'.outbox == if row.state.PaymentProcessing? then w.outbox + [OutboxRow(TxPaused, w'.sagas[f.pid])] else w.outbox)
  {
    TwoSteps(w.(now := t), OnFlagged(f), LIMIT);
  }

  /** The verdict on a rail result that comes too late, or during a review. */
  function LateKind(row: Saga, event: RailEvent): AuditKind {
    if row.state.FraudReview? then
      if row.deferred.None? then DeferredTerminal
      else if row.deferred.value.eventId == event.eventId then Duplicate else InvariantViolation
    else if row.state.Completed? == event.PaymentCompleted? then Duplicate
    else InvariantViolation
  }

  /** What a late result leaves behind. */
  ghost predicate AuditedLate(w: World, w': World, event: RailEvent)
    requires event.pid in w.sagas
  {
    var k := EventKey(event.eventId);
    var row := w.sagas[event.pid];
    && k in w'.audit && w'.audit[k].kind == LateKind(row, event) && w'.bank == w.bank && w'.outbox == w.outbox
    && event.pid in w'.sagas && w'.sagas[event.pid].state == row.state
    && w'.sagas[event.pid].deferred == (if LateKind(row, event) == DeferredTerminal then Some(event) else row.deferred)
  }

  ghost predicate ComesLate(w: World, event: RailEvent) {
    && event.eventId != "" && EventKey(event.eventId) !in w.audit
    && event.pid in w.sagas && w.sagas[event.pid].start.pid == event.pid
    && (Terminal(w.sagas[event.pid].state) || w.sagas[event.pid].state.FraudReview?)
  }

  lemma LateCompletion(w: World, event: RailEvent, t: int)
    requires ComesLate(w, event) && event.PaymentCompleted?
    ensures AuditedLate(w, RunFor(w.(now := t), OnCompleted(event), LIMIT).0, event)
  {
    TwoSteps(w.(now := t), OnCompleted(event), LIMIT);
  }

  lemma LateFailure(w: World, event: RailEvent, t: int)
    requires ComesLate(w, event) && event.PaymentFailed?
    ensures AuditedLate(w, RunFor(w.(now := t), OnFailed(event), LIMIT).0, event)
  {
    TwoSteps(w.(now := t), OnFailed(event), LIMIT);
  }

  /** A first delivery of a result for a payment that has ended or is in review moves no money
      and no state: it is audited as the repeat, the contradiction or the deferral it is, and
      stored if it is the first one of a review. */
  lemma LateResultIsAudited(w: World, event: RailEvent, t: int)
    requires ComesLate(w, event)
    ensures AuditedLate(w, Finish(w, HandlerOf(event), t), event)
  {
    if event.PaymentCompleted? { LateCompletion(w, event, t); } else { LateFailure(w, event, t); }
  }
}
