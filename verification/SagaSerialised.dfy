/** The saga when the handlers of one payment run one at a time: a handler may die after any
    statement or call, and the next one (a redelivered event, a retried request, an operator,
    a restart) starts from whatever is stored. Handlers of different payments still
    interleave. Rail events and fraud flags may arrive at any time, in any order, in
    conflict and more than once. */
module SagaSerialised {
  import opened Domain
  import opened Bank
  import opened BankLaws
  import opened BankFrames
  import opened SagaMachine
  import opened SagaInterleaved
  import V = Verification

  // ----- Outbox rows of one payment -----

  ghost predicate Counts(r: OutboxRow, p: PaymentId, t: Topic) {
    r.topic == t && r.body.start.pid == p
  }

  ghost function Count(o: seq<OutboxRow>, p: PaymentId, t: Topic): nat {
    if o == [] then 0
    else Count(o[..|o| - 1], p, t) + if Counts(o[|o| - 1], p, t) then 1 else 0
  }

  lemma CountAppend(o: seq<OutboxRow>, r: OutboxRow, p: PaymentId, t: Topic)
    ensures Count(o + [r], p, t) == Count(o, p, t) + if Counts(r, p, t) then 1 else 0
  {
    assert (o + [r])[..|o|] == o;
  }

  ghost predicate Unlaunched(w: World, p: PaymentId) {
    Count(w.outbox, p, PaymentExecute) == 0 && Count(w.outbox, p, FraudScoreRequested) == 0
  }

  ghost predicate LaunchedOnce(w: World, p: PaymentId) {
    Count(w.outbox, p, PaymentExecute) == 1 && Count(w.outbox, p, FraudScoreRequested) == 1
  }

  // ----- What the stored state tells -----

  ghost predicate Open(b: Bank, p: PaymentId) {
    p in b.reservations && !b.reservations[p].status.Canceled?
  }

  ghost predicate Refunded(b: Bank, p: PaymentId) {
    ReservationIs(b, p, Canceled) && p in b.comps
  }

  /** The forward path has announced nothing and stored no rail result. */
  ghost predicate Fresh(w: World, p: PaymentId, row: Saga) {
    Unlaunched(w, p) && row.deferred.None?
  }

  /** The row names its debit and its reservation. */
  ghost predicate Named(row: Saga) {
    row.debitId != NIL && row.reservationId != NIL
  }

  ghost predicate StateTells(w: World, p: PaymentId, row: Saga) {
    match row.state
    case Started => Fresh(w, p, row) && p !in w.bank.debits && p !in w.bank.reservations && row.debitId == NIL && row.reservationId == NIL
    case VerificationChecked => Fresh(w, p, row) && p !in w.bank.reservations && row.debitId == NIL && row.reservationId == NIL
    case WalletDebited => Fresh(w, p, row) && row.reservationId == NIL && (p in w.bank.reservations ==> ReservationIs(w.bank, p, Reserved))
    case LedgerReserved => Fresh(w, p, row) && Open(w.bank, p) && Named(row)
    case PaymentProcessing => Open(w.bank, p) && LaunchedOnce(w, p) && Named(row) && row.deferred.None?
    case FraudReview => Open(w.bank, p) && LaunchedOnce(w, p) && Named(row)
    case LedgerConfirmed => ReservationIs(w.bank, p, Confirmed) && Named(row)
    case Completed => ReservationIs(w.bank, p, Confirmed) && Count(w.outbox, p, TxCompleted) >= 1
    case CompensatingLedger => true
    case CompensatingWallet => ReservationIs(w.bank, p, Canceled)
    case Failed => p !in w.bank.debits || Refunded(w.bank, p)
  }

  ghost predicate DeferredHere(c: Saga) {
    c.deferred.Some? ==> c.deferred.value.pid == c.start.pid
  }

  ghost predicate AtMostOneLaunch(w: World, p: PaymentId) {
    Count(w.outbox, p, PaymentExecute) <= 1 && Count(w.outbox, p, FraudScoreRequested) <= 1
  }

  /** Everything the stored row of payment `p` tells, if there is one. */
  ghost predicate Tells(w: World, p: PaymentId) {
    && AtMostOneLaunch(w, p)
    && (p !in w.sagas ==> p !in w.bank.debits && p !in w.bank.reservations && Unlaunched(w, p))
    && (p in w.sagas ==> DeferredHere(w.sagas[p]) && StateTells(w, p, w.sagas[p]))
  }

  // ----- Where the one live handler of a payment can be -----

  ghost predicate Movable(s: State) { !Terminal(s) && !s.FraudReview? }

  /** The updates a handler may be about to make to `row`. */
  ghost predicate Moves(w: World, row: Saga, c: Saga) {
    var p := c.start.pid;
    && c.deferred == row.deferred
    && match c.state
       case VerificationChecked => row.state.Started? && c.debitId == NIL && c.reservationId == NIL
       case WalletDebited => row.state.VerificationChecked? && c.reservationId == NIL
       case LedgerReserved => row.state.WalletDebited? && ReservationIs(w.bank, p, Reserved) && Named(c)
       case LedgerConfirmed => Movable(row.state) && ReservationIs(w.bank, p, Confirmed) && Named(c)
       case Completed => row.state.LedgerConfirmed? && ReservationIs(w.bank, p, Confirmed) && Count(w.outbox, p, TxCompleted) >= 1
       case CompensatingLedger => Movable(row.state)
       case CompensatingWallet => row.state.CompensatingLedger? && ReservationIs(w.bank, p, Canceled)
       case Failed => row.state.CompensatingWallet? && Refunded(w.bank, p)
       case _ => false
  }

  ghost predicate SameIds(row: Saga, c: Saga) {
    c.debitId == row.debitId && c.reservationId == row.reservationId
  }

  ghost predicate Serial(w: World, h: Handler) {
    h.HasCopy() ==>
      && h.cur.start.pid in w.sagas
      && var row := w.sagas[h.cur.start.pid];
         match h
         case CheckVerification(c) => row == c && c.state.Started?
         case DebitWallet(c) => row == c && c.state.VerificationChecked?
         case ReserveLedger(c) => row == c && c.state.WalletDebited?
         case Launch(c) => row == c && c.state.LedgerReserved?
         case Confirm(c) => row == c && Movable(c.state)
         case PublishCompleted(c) => row == c && c.state.LedgerConfirmed?
         case CancelLedger(c) => row == c && c.state.CompensatingLedger?
         case Compensate(c) => row == c && c.state.CompensatingWallet?
         case PublishFailed(c) => row == c && c.state.Failed?
         case Persist(c) => Moves(w, row, c)
         case PersistUnverified(c) => row.state.Started? && c.state.Failed? && c.deferred == row.deferred
         case PersistPaused(c, _) =>
           row.state.PaymentProcessing? && c.state.FraudReview? && c.deferred == row.deferred && SameIds(row, c)
         case PersistAudited(c, _) => SameExceptNotes(row, c)
         case PersistResumed(c, r, replay) =>
           row.state.FraudReview? && c.state.PaymentProcessing? && c.deferred.None? && replay == row.deferred
           && SameIds(row, c) && Decides(r, ReviewResumed, c)
         case PersistRejected(c, r) =>
           row.state.FraudReview? && c.state.CompensatingLedger? && c.deferred == row.deferred && Decides(r, ReviewRejected, c)
  }

  /** The audit record of an operator decision on the payment of copy `c`. */
  ghost predicate Decides(r: AuditRecord, kind: AuditKind, c: Saga) {
    r.kind == kind && r.pid == c.start.pid && r.key == ReviewKey(kind, c.start.pid, c.updatedAt)
  }

  /** Only the flag, the update time and, while in review, a first deferred result differ. */
  ghost predicate SameExceptNotes(row: Saga, c: Saga) {
    && c == row.(flag := c.flag, updatedAt := c.updatedAt, deferred := c.deferred)
    && (c.deferred == row.deferred || (row.state.FraudReview? && row.deferred.None? && c.deferred.Some? && c.deferred.value.pid == c.start.pid))
  }

  /** Nothing of any other payment moves. */
  ghost predicate Elsewhere(w: World, w': World, p: PaymentId) {
    && w'.sagas - {p} == w.sagas - {p} && OnlyTouches(w.bank, w'.bank, p)
    && forall q, t | q != p :: Count(w'.outbox, q, t) == Count(w.outbox, q, t)
  }

  /** One statement or call of the live handler of `p`: the stored state still tells the
      truth, a terminal state stays, and no other payment is touched. */
  ghost predicate SerialStep(w: World, w': World, h': Handler, p: PaymentId) {
    && Tells(w', p) && Serial(w', h') && (h'.Done? || h'.Pid() == p) && Elsewhere(w, w', p)
    && (p in w.sagas && Terminal(w.sagas[p].state) ==> p in w'.sagas && w'.sagas[p].state == w.sagas[p].state)
  }

  // ----- Reading -----

  lemma ReadTells(w: World, h': Handler, p: PaymentId)
    requires Tells(w, p) && Serial(w, h') && (h'.Done? || h'.Pid() == p)
    ensures SerialStep(w, w, h', p)
  {
  }

  lemma StartTells(w: World, req: StartRequest)
    requires PaymentOk(w, req.pid) && Tells(w, req.pid)
    ensures var (w', h') := Enter(w, Start(req)); SerialStep(w, w', h', req.pid)
  {
    var (w', h') := Enter(w, Start(req));
    if w' == w {
      ReadTells(w, h', req.pid);
    } else {
      assert w'.sagas - {req.pid} == w.sagas - {req.pid};
    }
  }

  lemma CompletedTells(w: World, event: RailEvent)
    requires PaymentOk(w, event.pid) && Tells(w, event.pid)
    ensures var (w', h') := Enter(w, OnCompleted(event)); SerialStep(w, w', h', event.pid)
  {
    ReadTells(w, Enter(w, OnCompleted(event)).1, event.pid);
  }

  lemma FailedTells(w: World, event: RailEvent)
    requires PaymentOk(w, event.pid) && Tells(w, event.pid)
    ensures var (w', h') := Enter(w, OnFailed(event)); SerialStep(w, w', h', event.pid)
  {
    ReadTells(w, Enter(w, OnFailed(event)).1, event.pid);
  }

  lemma FlaggedTells(w: World, f: FraudFlagged)
    requires PaymentOk(w, f.pid) && Tells(w, f.pid)
    ensures var (w', h') := Enter(w, OnFlagged(f)); SerialStep(w, w', h', f.pid)
  {
    ReadTells(w, Enter(w, OnFlagged(f)).1, f.pid);
  }

  lemma ResumeTells(w: World, d: ReviewDecision)
    requires PaymentOk(w, d.pid) && Tells(w, d.pid)
    ensures var (w', h') := Enter(w, OnResume(d)); SerialStep(w, w', h', d.pid)
  {
    ReadTells(w, Enter(w, OnResume(d)).1, d.pid);
  }

  lemma RejectTells(w: World, d: ReviewDecision)
    requires PaymentOk(w, d.pid) && Tells(w, d.pid)
    ensures var (w', h') := Enter(w, OnReject(d)); SerialStep(w, w', h', d.pid)
  {
    ReadTells(w, Enter(w, OnReject(d)).1, d.pid);
  }

  lemma RecoverTells(w: World, p: PaymentId)
    requires PaymentOk(w, p) && Tells(w, p)
    ensures var (w', h') := Enter(w, Recover(p)); SerialStep(w, w', h', p)
  {
    ReadTells(w, Enter(w, Recover(p)).1, p);
  }

  lemma RecordTells(w: World, r: AuditRecord)
    requires Tells(w, r.pid)
    ensures var (w', h') := Enter(w, RecordAudit(r)); SerialStep(w, w', h', r.pid)
  {
  }

  // ----- Remote calls -----

  /** The rows of `p` after a bank command for `p`, with the saga row as it was. */
  lemma BankTells(w: World, b': Bank, h': Handler, p: PaymentId)
    requires Tells(w, p) && OnlyTouches(w.bank, b', p)
    requires var w' := w.(bank := b'); p in w.sagas && StateTells(w', p, w.sagas[p]) && Serial(w', h') && (h'.Done? || h'.Pid() == p)
    ensures SerialStep(w, w.(bank := b'), h', p)
  {
  }

  lemma DebitTells(w: World, c: Saga)
    requires PaymentOk(w, c.start.pid) && Tells(w, c.start.pid) && Serial(w, DebitWallet(c))
    ensures var (w', h') := Continue(w, DebitWallet(c)); SerialStep(w, w', h', c.start.pid)
  {
    var (w', h') := Continue(w, DebitWallet(c));
    CallDebitShape(w.bank, c.start);
    BankTells(w, w'.bank, h', c.start.pid);
  }

  lemma CallDebitShape(b: Bank, s: StartRequest)
    ensures var (b', r) := CallDebit(b, s);
      && OnlyTouches(b, b', s.pid) && b'.comps == b.comps && b'.reservations == b.reservations
      && (r.Ok? ==> s.pid in b'.debits && b'.debits[s.pid] == r.value)
      && (r.Err? ==> b' == b)
  {
    if s.currency != "" && NormalizeCurrency(s.currency).Ok? {
      DebitShape(b, DebitCommand(s.pid, s.from, s.amount, NormalizeCurrency(s.currency).value, StepKey(s.pid, "debit-wallet")));
    }
  }

  lemma CallReserveShape(b: Bank, s: StartRequest)
    ensures var (b', r) := CallReserve(b, s);
      && OnlyTouches(b, b', s.pid) && b'.comps == b.comps && b'.debits == b.debits
      && (r.Ok? ==> s.pid in b'.reservations && b'.reservations[s.pid] == r.value)
      && (r.Ok? && s.pid !in b.reservations ==> r.value.status.Reserved? && r.value.id == b.nextId)
      && (s.pid in b.reservations ==> s.pid in b'.reservations && b'.reservations[s.pid] == b.reservations[s.pid])
      && (r.Err? ==> b' == b)
  {
    if s.currency != "" {
      ReserveShape(b, ReserveCommand(s.pid, StepKey(s.pid, "reserve-ledger"), s.from, s.to, s.amount, s.currency));
    }
  }

  ghost predicate IdsOk(b: Bank, p: PaymentId) {
    b.nextId != NIL && (p in b.reservations ==> b.reservations[p].id != NIL)
  }

  lemma ReserveTells(w: World, c: Saga)
    requires PaymentOk(w, c.start.pid) && Tells(w, c.start.pid) && Serial(w, ReserveLedger(c)) && IdsOk(w.bank, c.start.pid)
    ensures var (w', h') := Continue(w, ReserveLedger(c)); SerialStep(w, w', h', c.start.pid)
  {
    var (w', h') := Continue(w, ReserveLedger(c));
    CallReserveShape(w.bank, c.start);
    BankTells(w, w'.bank, h', c.start.pid);
  }

  lemma ConfirmTells(w: World, c: Saga)
    requires PaymentOk(w, c.start.pid) && Tells(w, c.start.pid) && Serial(w, Confirm(c))
    ensures var (w', h') := Continue(w, Confirm(c)); SerialStep(w, w', h', c.start.pid)
  {
    var (w', h') := Continue(w, Confirm(c));
    var p := c.start.pid;
    ConfirmShape(w.bank, ConfirmCommand(p, StepKey(p, "confirm-ledger"), c.reservationId, c.debitId));
    BankTells(w, w'.bank, h', p);
  }

  lemma CancelTells(w: World, c: Saga)
    requires PaymentOk(w, c.start.pid) && Tells(w, c.start.pid) && Serial(w, CancelLedger(c))
    ensures var (w', h') := Continue(w, CancelLedger(c)); SerialStep(w, w', h', c.start.pid)
  {
    var (w', h') := Continue(w, CancelLedger(c));
    var p := c.start.pid;
    CancelShape(w.bank, CancelCommand(p, StepKey(p, "cancel-ledger"), c.reservationId));
    BankTells(w, w'.bank, h', p);
  }

  lemma CallCompensateShape(b: Bank, c: Saga)
    ensures var (b', r) := CallCompensate(b, c);
      && OnlyTouches(b, b', c.start.pid) && b'.debits == b.debits && b'.reservations == b.reservations
      && (r.Ok? ==> c.start.pid in b'.comps)
      && (r.Err? ==> b' == b)
  {
    var s := c.start;
    var currency := if s.currency == "" then Ok("") else NormalizeCurrency(s.currency);
    if currency.Ok? {
      CompensationShape(b, CompensateCommand(s.pid, s.from, c.debitId, s.amount, currency.value, StepKey(s.pid, "compensate-wallet")));
    }
  }

  lemma CompensateTells(w: World, c: Saga)
    requires PaymentOk(w, c.start.pid) && Tells(w, c.start.pid) && Serial(w, Compensate(c))
    ensures var (w', h') := Continue(w, Compensate(c)); SerialStep(w, w', h', c.start.pid)
  {
    var (w', h') := Continue(w, Compensate(c));
    CallCompensateShape(w.bank, c);
    BankTells(w, w'.bank, h', c.start.pid);
  }

  // ----- Statements -----

  lemma EnqueueCounts(w: World, t: Topic, c: Saga)
    ensures forall q, u :: Count(Enqueued(w, t, c).outbox, q, u)
                        == Count(w.outbox, q, u) + if q == c.start.pid && u == t then 1 else 0
  {
    forall q, u ensures Count(Enqueued(w, t, c).outbox, q, u) == Count(w.outbox, q, u) + if q == c.start.pid && u == t then 1 else 0 {
      CountAppend(w.outbox, OutboxRow(t, c), q, u);
    }
  }

  lemma CheckTells(w: World, c: Saga)
    requires PaymentOk(w, c.start.pid) && Tells(w, c.start.pid) && Serial(w, CheckVerification(c))
    ensures var (w', h') := Continue(w, CheckVerification(c)); SerialStep(w, w', h', c.start.pid)
  {
    var (w', h') := Continue(w, CheckVerification(c));
    ReadTells(w, h', c.start.pid);
  }

  /** Announcing an end leaves every other count and every row alone. */
  lemma AnnouncedTells(w: World, c: Saga, t: Topic, h': Handler)
    requires Tells(w, c.start.pid) && (t.TxCompleted? || t.TxFailed?)
    requires Serial(Enqueued(w, t, c), h') && (h'.Done? || h'.Pid() == c.start.pid)
    ensures SerialStep(w, Enqueued(w, t, c), h', c.start.pid)
  {
    hide Serial;
    EnqueueCounts(w, t, c);
  }

  lemma CompletionReady(w: World, c: Saga)
    requires Tells(w, c.start.pid) && Serial(w, PublishCompleted(c))
    ensures Serial(Enqueued(w, TxCompleted, c), Persist(To(w, c, Completed)))
  {
    CountAppend(w.outbox, OutboxRow(TxCompleted, c), c.start.pid, TxCompleted);
  }

  lemma PublishCompletedTells(w: World, c: Saga)
    requires PaymentOk(w, c.start.pid) && Tells(w, c.start.pid) && Serial(w, PublishCompleted(c))
    ensures var (w', h') := Continue(w, PublishCompleted(c)); SerialStep(w, w', h', c.start.pid)
  {
    hide SerialStep, Serial, Tells, PaymentOk, CallDebit, CallReserve, CallConfirm, CallCancel, CallCompensate;
    CompletionReady(w, c);
    AnnouncedTells(w, c, TxCompleted, Persist(To(w, c, Completed)));
  }

  lemma PublishFailedTells(w: World, c: Saga)
    requires PaymentOk(w, c.start.pid) && Tells(w, c.start.pid) && Serial(w, PublishFailed(c))
    ensures var (w', h') := Continue(w, PublishFailed(c)); SerialStep(w, w', h', c.start.pid)
  {
    hide SerialStep, Tells, PaymentOk, CallDebit, CallReserve, CallConfirm, CallCancel, CallCompensate;
    AnnouncedTells(w, c, TxFailed, Done(Finished));
  }

  /** A transaction storing copy `c`: the new row tells the truth and nothing else moved. */
  lemma CommitTells(w: World, c: Saga, w': World)
    requires RowOk(w, c.start.pid) && Tells(w, c.start.pid) && c.start.pid in w.sagas && c.start == w.sagas[c.start.pid].start
    requires DeferredHere(c) && StateTells(w, c.start.pid, c)
    requires Terminal(w.sagas[c.start.pid].state) ==> c.state == w.sagas[c.start.pid].state
    requires w'.sagas == Save(w, c).sagas && w'.bank == w.bank && w'.outbox == w.outbox
    ensures Tells(w', c.start.pid) && Elsewhere(w, w', c.start.pid) && c.start.pid in w'.sagas && w'.sagas[c.start.pid] == c
  {
    assert w'.sagas - {c.start.pid} == w.sagas - {c.start.pid};
  }

  lemma PersistTells(w: World, c: Saga)
    requires PaymentOk(w, c.start.pid) && Tells(w, c.start.pid) && Serial(w, Persist(c)) && CopyOk(w, c)
    ensures var (w', h') := Continue(w, Persist(c)); SerialStep(w, w', h', c.start.pid)
  {
    var (w', h') := Continue(w, Persist(c));
    MovesTell(w, c);
    CommitTells(w, c, w');
  }

  lemma MovesTell(w: World, c: Saga)
    requires PaymentOk(w, c.start.pid) && Tells(w, c.start.pid) && Serial(w, Persist(c)) && CopyOk(w, c)
    ensures StateTells(w, c.start.pid, c) && !Terminal(w.sagas[c.start.pid].state)
  {
  }

  lemma UnverifiedTells(w: World, c: Saga)
    requires PaymentOk(w, c.start.pid) && Tells(w, c.start.pid) && Serial(w, PersistUnverified(c)) && CopyOk(w, c)
    ensures var (w', h') := Continue(w, PersistUnverified(c)); SerialStep(w, w', h', c.start.pid)
  {
    var (w', h') := Continue(w, PersistUnverified(c));
    CommitTells(w, c, w');
  }

  lemma AuditedTells(w: World, c: Saga, r: AuditRecord)
    requires PaymentOk(w, c.start.pid) && Tells(w, c.start.pid) && Serial(w, PersistAudited(c, r)) && CopyOk(w, c)
    ensures var (w', h') := Continue(w, PersistAudited(c, r)); SerialStep(w, w', h', c.start.pid)
  {
    var (w', h') := Continue(w, PersistAudited(c, r));
    CommitTells(w, c, w');
  }

  lemma ResumedTells(w: World, c: Saga, r: AuditRecord, replay: Option<RailEvent>)
    requires PaymentOk(w, c.start.pid) && Tells(w, c.start.pid) && Serial(w, PersistResumed(c, r, replay)) && CopyOk(w, c)
    ensures var (w', h') := Continue(w, PersistResumed(c, r, replay)); SerialStep(w, w', h', c.start.pid)
  {
    var (w', h') := Continue(w, PersistResumed(c, r, replay));
    CommitTells(w, c, w');
  }

  lemma RejectedTells(w: World, c: Saga, r: AuditRecord)
    requires PaymentOk(w, c.start.pid) && Tells(w, c.start.pid) && Serial(w, PersistRejected(c, r)) && CopyOk(w, c)
    ensures var (w', h') := Continue(w, PersistRejected(c, r)); SerialStep(w, w', h', c.start.pid)
  {
    var (w', h') := Continue(w, PersistRejected(c, r));
    CommitTells(w, c, w');
  }

  lemma PausedTells(w: World, c: Saga, r: AuditRecord)
    requires PaymentOk(w, c.start.pid) && Tells(w, c.start.pid) && Serial(w, PersistPaused(c, r)) && CopyOk(w, c)
    ensures var (w', h') := Continue(w, PersistPaused(c, r)); SerialStep(w, w', h', c.start.pid)
  {
    var (w', h') := Continue(w, PersistPaused(c, r));
    CommitTells(w, c, Save(w, c));
    EnqueueCounts(Save(w, c), TxPaused, c);
  }

  lemma LaunchCounts(w: World, c: Saga)
    ensures var o' := Enqueued(Enqueued(w, PaymentExecute, c), FraudScoreRequested, c).outbox;
      forall q, u :: Count(o', q, u) == Count(w.outbox, q, u)
                   + if q == c.start.pid && (u == PaymentExecute || u == FraudScoreRequested) then 1 else 0
  {
    EnqueueCounts(w, PaymentExecute, c);
    EnqueueCounts(Enqueued(w, PaymentExecute, c), FraudScoreRequested, c);
  }

  lemma LaunchedTells(w: World, c: Saga, w': World)
    requires PaymentOk(w, c.start.pid) && Tells(w, c.start.pid) && Serial(w, Launch(c)) && CopyOk(w, c)
    requires w'.sagas == Save(w, To(w, c, PaymentProcessing)).sagas && w'.bank == w.bank
    requires forall q, u :: Count(w'.outbox, q, u) == Count(w.outbox, q, u)
                          + if q == c.start.pid && (u == PaymentExecute || u == FraudScoreRequested) then 1 else 0
    ensures SerialStep(w, w', Done(Finished), c.start.pid)
  {
    assert w'.sagas - {c.start.pid} == w.sagas - {c.start.pid};
  }

  lemma LaunchTells(w: World, c: Saga)
    requires PaymentOk(w, c.start.pid) && Tells(w, c.start.pid) && Serial(w, Launch(c)) && CopyOk(w, c)
    ensures var (w', h') := Continue(w, Launch(c)); SerialStep(w, w', h', c.start.pid)
  {
    LaunchCounts(Save(w, To(w, c, PaymentProcessing)), c);
    LaunchedTells(w, c, Continue(w, Launch(c)).0);
  }

  // ----- One step of the payment's live handler -----

  lemma EnterTells(w: World, h: Handler)
    requires !h.HasCopy() && PaymentOk(w, h.Pid()) && Tells(w, h.Pid())
    ensures var (w', h') := Enter(w, h); SerialStep(w, w', h', h.Pid())
  {
    match h
    case Start(req) => StartTells(w, req);
    case OnCompleted(event) => CompletedTells(w, event);
    case OnFailed(event) => FailedTells(w, event);
    case OnFlagged(f) => FlaggedTells(w, f);
    case RecordAudit(r) => RecordTells(w, r);
    case OnResume(d) => ResumeTells(w, d);
    case OnReject(d) => RejectTells(w, d);
    case Recover(p) => RecoverTells(w, p);
    case Done(_) => ReadTells(w, h, h.Pid());
  }

  lemma CallTells(w: World, h: Handler)
    requires h.DebitWallet? || h.ReserveLedger? || h.Confirm? || h.CancelLedger? || h.Compensate?
    requires PaymentOk(w, h.cur.start.pid) && Tells(w, h.cur.start.pid) && Serial(w, h) && IdsOk(w.bank, h.cur.start.pid)
    ensures var (w', h') := Continue(w, h); SerialStep(w, w', h', h.cur.start.pid)
  {
    match h
    case DebitWallet(c) => DebitTells(w, c);
    case ReserveLedger(c) => ReserveTells(w, c);
    case Confirm(c) => ConfirmTells(w, c);
    case CancelLedger(c) => CancelTells(w, c);
    case Compensate(c) => CompensateTells(w, c);
  }

  lemma StatementTells(w: World, h: Handler)
    requires h.HasCopy() && !(h.DebitWallet? || h.ReserveLedger? || h.Confirm? || h.CancelLedger? || h.Compensate?)
    requires PaymentOk(w, h.cur.start.pid) && Tells(w, h.cur.start.pid) && Serial(w, h) && HandlerOk(w, h)
    ensures var (w', h') := Continue(w, h); SerialStep(w, w', h', h.cur.start.pid)
  {
    match h
    case CheckVerification(c) => CheckTells(w, c);
    case Launch(c) => LaunchTells(w, c);
    case PublishCompleted(c) => PublishCompletedTells(w, c);
    case PublishFailed(c) => PublishFailedTells(w, c);
    case Persist(c) => PersistTells(w, c);
    case PersistUnverified(c) => UnverifiedTells(w, c);
    case PersistPaused(c, r) => PausedTells(w, c, r);
    case PersistAudited(c, r) => AuditedTells(w, c, r);
    case PersistResumed(c, r, replay) => ResumedTells(w, c, r, replay);
    case PersistRejected(c, r) => RejectedTells(w, c, r);
  }

  lemma ExecTells(w: World, h: Handler)
    requires PaymentOk(w, h.Pid()) && Tells(w, h.Pid()) && Serial(w, h) && HandlerOk(w, h) && IdsOk(w.bank, h.Pid())
    ensures var (w', h') := Exec(w, h); SerialStep(w, w', h', h.Pid())
  {
    if !h.HasCopy() { EnterTells(w, h); }
    else if h.DebitWallet? || h.ReserveLedger? || h.Confirm? || h.CancelLedger? || h.Compensate? { CallTells(w, h); }
    else { StatementTells(w, h); }
  }

  // ----- Other payments -----

  lemma SameAt<T>(m: map<PaymentId, T>, m': map<PaymentId, T>, p: PaymentId, q: PaymentId)
    requires m' - {p} == m - {p} && q != p
    ensures (q in m' <==> q in m) && (q in m ==> m'[q] == m[q])
  {
    assert q in m' <==> q in m' - {p};
    assert q in m <==> q in m - {p};
  }

  lemma ElsewhereSame(w: World, w': World, p: PaymentId, q: PaymentId)
    requires Elsewhere(w, w', p) && q != p
    ensures (q in w'.sagas <==> q in w.sagas) && (q in w.sagas ==> w'.sagas[q] == w.sagas[q])
    ensures (q in w'.bank.debits <==> q in w.bank.debits) && (q in w'.bank.comps <==> q in w.bank.comps)
    ensures (q in w'.bank.reservations <==> q in w.bank.reservations)
    ensures q in w.bank.reservations ==> w'.bank.reservations[q] == w.bank.reservations[q]
  {
    SameAt(w.sagas, w'.sagas, p, q);
    SameAt(w.bank.debits, w'.bank.debits, p, q);
    SameAt(w.bank.comps, w'.bank.comps, p, q);
    SameAt(w.bank.reservations, w'.bank.reservations, p, q);
  }

  lemma TellsElsewhere(w: World, w': World, p: PaymentId, q: PaymentId)
    requires Elsewhere(w, w', p) && q != p && Tells(w, q)
    ensures Tells(w', q)
  {
    ElsewhereSame(w, w', p, q);
  }

  lemma SerialElsewhere(w: World, w': World, p: PaymentId, h: Handler)
    requires Elsewhere(w, w', p) && Serial(w, h) && h.Pid() != p
    ensures Serial(w', h)
  {
    ElsewhereSame(w, w', p, h.Pid());
  }

  // ----- Systems -----

  ghost predicate OneHandlerPerPayment(s: System) {
    forall i, j | i in s.live && j in s.live && i != j && !s.live[i].Done? && !s.live[j].Done? :: s.live[i].Pid() != s.live[j].Pid()
  }

  ghost predicate SerialOk(s: System) {
    && SystemOk(s) && OneHandlerPerPayment(s)
    && (forall p :: Tells(s.w, p))
    && (forall id | id in s.live :: Serial(s.w, s.live[id]))
  }

  /** The serialised setting: a handler starts only when no other handler of its payment is live. */
  ghost predicate Allowed(s: System, l: Label) {
    l.Spawn? ==> forall id | id in s.live && !s.live[id].Done? :: s.live[id].Pid() != l.entry.Pid()
  }

  ghost predicate SerialRun(s: System, ls: seq<Label>)
    decreases ls
  {
    ls != [] ==> Allowed(s, ls[0]) && SerialRun(Take(s, ls[0]), ls[1..])
  }

  /** What other services do leaves every payment's rows alone. */
  ghost predicate SamePayments(w: World, w': World) {
    && w'.sagas == w.sagas && w'.outbox == w.outbox && w'.bank.debits == w.bank.debits
    && w'.bank.comps == w.bank.comps && w'.bank.reservations == w.bank.reservations
  }

  lemma SamePaymentsTell(w: World, w': World)
    requires SamePayments(w, w')
    ensures forall p :: Tells(w, p) ==> Tells(w', p)
    ensures forall h :: Serial(w, h) ==> Serial(w', h)
  {
    forall p | Tells(w, p) ensures Tells(w', p) { }
    forall h | Serial(w, h) ensures Serial(w', h) { }
  }

  lemma OthersSame(s: System, l: Label)
    requires !l.Step?
    ensures SamePayments(s.w, Take(s, l).w)
  {
    if l.OtherBankCommand? && OutsideSaga(l.command) { OutsideFrame(s.w.bank, l.command); }
  }

  lemma QuietTells(s: System, l: Label)
    requires SerialOk(s) && Allowed(s, l) && !l.Step?
    ensures SerialOk(Take(s, l))
  {
    TakeKeeps(s, l);
    OthersSame(s, l);
    SamePaymentsTell(s.w, Take(s, l).w);
  }

  lemma StepTellsAll(s: System, id: nat)
    requires SerialOk(s) && id in s.live
    ensures var (w', h') := Exec(s.w, s.live[id]);
      && SerialStep(s.w, w', h', s.live[id].Pid()) && forall q :: Tells(w', q)
  {
    var h := s.live[id];
    var (w', h') := Exec(s.w, h);
    assert PaymentOk(s.w, h.Pid()) && Tells(s.w, h.Pid());
    ExecTells(s.w, h);
    forall q ensures Tells(w', q) {
      assert Tells(s.w, q);
      if q != h.Pid() { TellsElsewhere(s.w, w', h.Pid(), q); }
    }
  }

  lemma StepTells(s: System, id: nat)
    requires SerialOk(s) && id in s.live
    ensures SerialOk(Take(s, Step(id)))
  {
    hide SystemOk, Tells, Elsewhere;
    var h := s.live[id];
    var s' := Take(s, Step(id));
    TakeKeeps(s, Step(id));
    StepTellsAll(s, id);
    forall j | j in s'.live ensures Serial(s'.w, s'.live[j]) {
      if j != id && !h.Done? && !s.live[j].Done? { SerialElsewhere(s.w, s'.w, h.Pid(), s.live[j]); }
    }
  }

  lemma TakeTells(s: System, l: Label)
    requires SerialOk(s) && Allowed(s, l)
    ensures SerialOk(Take(s, l))
  {
    if !l.Step? { QuietTells(s, l); } else if l.id in s.live { StepTells(s, l.id); }
  }

  lemma {:induction false} RunTells(s: System, ls: seq<Label>)
    requires SerialOk(s) && SerialRun(s, ls)
    ensures SerialOk(TakeAll(s, ls))
    decreases ls
  {
    if ls != [] {
      TakeTells(s, ls[0]);
      RunTells(Take(s, ls[0]), ls[1..]);
    }
  }

  lemma InitialTells(s: System)
    requires Initial(s)
    ensures SerialOk(s)
  {
    InitialOk(s);
  }

  // ----- Main results -----

  /** Serialised setting. After any run, with deaths and restarts anywhere and rail events in
      any order: COMPLETED means debited, not refunded, settled and announced; FAILED means
      never debited, or cancelled and refunded in full; COMPENSATING_WALLET means cancelled;
      a payment under processing or review is debited and not cancelled. */
  lemma StoredStateIsTrue(s: System, ls: seq<Label>, p: PaymentId)
    requires Initial(s) && SerialRun(s, ls) && p in TakeAll(s, ls).w.sagas
    ensures var w := TakeAll(s, ls).w; var b := w.bank;
      match w.sagas[p].state
      case Completed => p in b.debits && p !in b.comps && ReservationIs(b, p, Confirmed) && Count(w.outbox, p, TxCompleted) >= 1
      case LedgerConfirmed => p in b.debits && p !in b.comps && ReservationIs(b, p, Confirmed)
      case Failed => p !in b.debits || (ReservationIs(b, p, Canceled) && p in b.comps && Refunds(b.comps[p], b.debits[p]))
      case CompensatingWallet => ReservationIs(b, p, Canceled)
      case CompensatingLedger => p in b.comps ==> ReservationIs(b, p, Canceled)
      case Started => p !in b.debits && p !in b.reservations
      case VerificationChecked => p !in b.comps && p !in b.reservations
      case _ => p in b.debits && p !in b.comps && !ReservationIs(b, p, Canceled)
  {
    InitialTells(s);
    RunTells(s, ls);
    var w := TakeAll(s, ls).w;
    assert PaymentOk(w, p) && Tells(w, p);
  }

  /** Serialised setting. However often the forward path died and was restarted, at most one
      payment.execute and one fraud.score.requested row were ever enqueued; and a payment that
      reached processing or review has exactly one of each, one debit and one reservation,
      for exactly the payload it was started with. */
  lemma ForwardPathHappensOnce(s: System, ls: seq<Label>, p: PaymentId)
    requires Initial(s) && SerialRun(s, ls)
    ensures var w := TakeAll(s, ls).w;
      && Count(w.outbox, p, PaymentExecute) <= 1 && Count(w.outbox, p, FraudScoreRequested) <= 1
      && (p in w.sagas && (w.sagas[p].state.PaymentProcessing? || w.sagas[p].state.FraudReview?) ==>
            var start := w.sagas[p].start;
            && Count(w.outbox, p, PaymentExecute) == 1 && Count(w.outbox, p, FraudScoreRequested) == 1
            && p in w.bank.debits && w.bank.debits[p].amount == start.amount && w.bank.debits[p].wallet == start.from
            && p in w.bank.reservations && w.bank.reservations[p].amount == start.amount
            && w.bank.reservations[p].from == start.from && w.bank.reservations[p].to == start.to)
  {
    InitialTells(s);
    RunTells(s, ls);
    var w := TakeAll(s, ls).w;
    assert PaymentOk(w, p) && Tells(w, p);
  }

  lemma TakeAbsorbs(s: System, l: Label, p: PaymentId)
    requires SerialOk(s) && Allowed(s, l) && p in s.w.sagas && Terminal(s.w.sagas[p].state)
    ensures var w' := Take(s, l).w; p in w'.sagas && w'.sagas[p].state == s.w.sagas[p].state
  {
    if l.Step? && l.id in s.live {
      StepTellsAll(s, l.id);
      var h := s.live[l.id];
      if h.Pid() != p { ElsewhereSame(s.w, Take(s, l).w, h.Pid(), p); }
    } else if !l.Step? {
      OthersSame(s, l);
    }
  }

  /** Serialised setting. COMPLETED and FAILED are absorbing. */
  lemma {:induction false} TerminalStatesAbsorb(s: System, ls: seq<Label>, p: PaymentId)
    requires SerialOk(s) && SerialRun(s, ls) && p in s.w.sagas && Terminal(s.w.sagas[p].state)
    ensures var w' := TakeAll(s, ls).w; p in w'.sagas && w'.sagas[p].state == s.w.sagas[p].state
    decreases ls
  {
    hide SerialOk, Take, Allowed;
    if ls != [] {
      TakeAbsorbs(s, ls[0], p);
      TakeTells(s, ls[0]);
      TerminalStatesAbsorb(Take(s, ls[0]), ls[1..], p);
    }
  }
}
