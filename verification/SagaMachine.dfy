/** The payment saga as a machine. A handler is one call of the orchestrator, cut at every
    store statement and every remote call: `Exec` runs it to its next cut. A handler holds
    the copy of the saga row it last read, which may be stale by the time it writes it back.

    A remote call or statement that fails, or whose reply is lost, ends its handler, and no
    handler writes anything after an error; so a failure is a handler that dies before or
    after the effect. */
module SagaMachine {
  import opened Domain
  import opened Bank
  import V = Verification

  datatype State =
    | Started
    | VerificationChecked
    | WalletDebited
    | LedgerReserved
    | PaymentProcessing
    | FraudReview
    | LedgerConfirmed
    | Completed
    | CompensatingLedger
    | CompensatingWallet
    | Failed

  predicate Terminal(s: State) { s.Completed? || s.Failed? }

  /** The columns of a saga row that no update ever writes. */
  datatype StartRequest = StartRequest(
    pid: PaymentId, key: string, user: string, from: Id, to: Id, amount: int64, currency: string)

  /** A terminal result from the payment rail. */
  datatype RailEvent =
    | PaymentCompleted(eventId: string, pid: PaymentId)
    | PaymentFailed(eventId: string, pid: PaymentId, code: string, message: string)

  datatype FraudFlagged = FraudFlagged(
    eventId: string, pid: PaymentId, session: string, action: string, risk: real, reason: string, occurredAt: int)
  {
    predicate Valid() {
      eventId != "" && pid != "" && session != "" && action in {"flag", "block"} && 0.0 <= risk <= 1.0
      && reason != "" && occurredAt != ZERO_TIME
    }
  }

  const ZERO_TIME := 0

  datatype Saga = Saga(
    start: StartRequest,
    state: State,
    lastError: string,
    failureCode: string,
    debitId: Id,        // NIL when the column is empty
    reservationId: Id,
    transferId: Id,
    flag: Option<FraudFlagged>,
    deferred: Option<RailEvent>,
    updatedAt: int)

  datatype ReviewDecision = ReviewDecision(pid: PaymentId, actor: string, reason: string)

  datatype AuditKind =
    Orphan | Ignored | Transition | DeferredTerminal | InvariantViolation | Duplicate | ReviewResumed | ReviewRejected

  /** The audit table is unique on the event id; an operator decision's id names its action,
      its payment and the instant it was made. */
  datatype AuditKey = EventKey(eventId: string) | ReviewKey(kind: AuditKind, pid: PaymentId, at: int)

  datatype AuditRecord = AuditRecord(key: AuditKey, pid: PaymentId, kind: AuditKind, state: Option<State>, actor: string)

  datatype Topic = PaymentExecute | FraudScoreRequested | TxPaused | TxCompleted | TxFailed

  /** An outbox row; its payload is built from the copy of the saga in `body`. */
  datatype OutboxRow = OutboxRow(topic: Topic, body: Saga)

  datatype World = World(
    sagas: map<PaymentId, Saga>,
    bank: Bank,
    verifications: V.Rows,
    outbox: seq<OutboxRow>,
    audit: map<AuditKey, AuditRecord>,
    now: int)

  datatype Outcome = Finished | Unverified | NotUnderReview | Errored

  /** Where a handler is: the constructor names the statement or call it makes next, and
      `cur` is its local copy of the saga, with the fields it is about to store. */
  datatype Handler =
    | Start(req: StartRequest)
    | CheckVerification(cur: Saga)
    | DebitWallet(cur: Saga)
    | ReserveLedger(cur: Saga)
    | Launch(cur: Saga)
    | OnCompleted(event: RailEvent)
    | Confirm(cur: Saga)
    | PublishCompleted(cur: Saga)
    | OnFailed(event: RailEvent)
    | CancelLedger(cur: Saga)
    | Compensate(cur: Saga)
    | PublishFailed(cur: Saga)
    | Persist(cur: Saga)        // Update, then on to what the stored state calls for
    | PersistUnverified(cur: Saga)
    | OnFlagged(flagged: FraudFlagged)
    | PersistPaused(cur: Saga, record: AuditRecord)
    | PersistAudited(cur: Saga, record: AuditRecord)
    | RecordAudit(record: AuditRecord)
    | OnResume(decision: ReviewDecision)
    | PersistResumed(cur: Saga, record: AuditRecord, replay: Option<RailEvent>)
    | OnReject(decision: ReviewDecision)
    | PersistRejected(cur: Saga, record: AuditRecord)
    | Recover(payment: PaymentId)
    | Done(outcome: Outcome)
  {
    predicate HasCopy() {
      !(Start? || OnCompleted? || OnFailed? || OnFlagged? || RecordAudit? || OnResume? || OnReject? || Recover? || Done?)
    }

    /** The entry points: what an API call, a consumed event, an operator or a restart starts. */
    predicate Entry() {
      Start? || (OnCompleted? && event.PaymentCompleted?) || (OnFailed? && event.PaymentFailed?)
      || OnFlagged? || OnResume? || OnReject? || Recover?
    }

    function Pid(): PaymentId {
      match this
      case Start(req) => req.pid
      case OnCompleted(event) => event.pid
      case OnFailed(event) => event.pid
      case OnFlagged(flagged) => flagged.pid
      case RecordAudit(record) => record.pid
      case OnResume(decision) => decision.pid
      case OnReject(decision) => decision.pid
      case Recover(payment) => payment
      case Done(_) => ""
      case _ => cur.start.pid
    }
  }

  // ----- Store statements -----

  function NewSaga(req: StartRequest, now: int): Saga {
    Saga(req, Started, "", "", NIL, NIL, NIL, None, None, now)
  }

  /** UPDATE sagas ... WHERE payment_id: every mutable column, no version check. */
  function Save(w: World, cur: Saga): World
    requires cur.start.pid in w.sagas
  {
    w.(sagas := w.sagas[cur.start.pid := cur.(start := w.sagas[cur.start.pid].start)])
  }

  /** INSERT ... ON CONFLICT (event_id) DO NOTHING, skipped for an empty event id. */
  function Audited(w: World, r: AuditRecord): World {
    if r.key == EventKey("") || r.key in w.audit then w else w.(audit := w.audit[r.key := r])
  }

  function Enqueued(w: World, topic: Topic, body: Saga): World {
    w.(outbox := w.outbox + [OutboxRow(topic, body)])
  }

  function StepKey(pid: PaymentId, step: string): string {
    pid + ":" + step
  }

  // ----- Remote calls, with the checks of the receiving service -----

  function CallDebit(b: Bank, s: StartRequest): (Bank, Result<WalletOp>) {
    var currency := NormalizeCurrency(s.currency);
    if s.currency == "" || currency.Err? then (b, Err(UnsupportedCurrency))
    else DebitForSaga(b, DebitCommand(s.pid, s.from, s.amount, currency.value, StepKey(s.pid, "debit-wallet")))
  }

  function CallReserve(b: Bank, s: StartRequest): (Bank, Result<Reservation>) {
    if s.currency == "" then (b, Err(UnsupportedCurrency))
    else ReserveTransfer(b, ReserveCommand(s.pid, StepKey(s.pid, "reserve-ledger"), s.from, s.to, s.amount, s.currency))
  }

  function CallConfirm(b: Bank, c: Saga): (Bank, Result<Id>) {
    ConfirmTransfer(b, ConfirmCommand(c.start.pid, StepKey(c.start.pid, "confirm-ledger"), c.reservationId, c.debitId))
  }

  function CallCancel(b: Bank, c: Saga): (Bank, Result<Reservation>) {
    CancelReservation(b, CancelCommand(c.start.pid, StepKey(c.start.pid, "cancel-ledger"), c.reservationId))
  }

  function CallCompensate(b: Bank, c: Saga): (Bank, Result<WalletOp>) {
    var currency := if c.start.currency == "" then Ok("") else NormalizeCurrency(c.start.currency);
    if currency.Err? then (b, Err(UnsupportedCurrency))
    else CompensateDebit(b, CompensateCommand(
      c.start.pid, c.start.from, c.debitId, c.start.amount, currency.value, StepKey(c.start.pid, "compensate-wallet")))
  }

  // ----- Handlers -----

  predicate SameKey(sagas: map<PaymentId, Saga>, req: StartRequest) {
    exists q | q in sagas :: sagas[q].start.user == req.user && sagas[q].start.key == req.key
  }

  /** Where `advance` continues from the state of its copy. */
  function Advance(cur: Saga): Handler {
    match cur.state
    case Started => CheckVerification(cur)
    case VerificationChecked => DebitWallet(cur)
    case WalletDebited => ReserveLedger(cur)
    case LedgerReserved => Launch(cur)
    case _ => Done(Finished)
  }

  /** Where startup recovery takes a listed row up. */
  function Resumption(cur: Saga): Handler {
    match cur.state
    case LedgerConfirmed => PublishCompleted(cur)
    case CompensatingLedger => CancelLedger(cur)
    case CompensatingWallet => Compensate(cur)
    case _ => Advance(cur)
  }

  function FlagKind(s: State): AuditKind {
    match s
    case PaymentProcessing => Transition
    case FraudReview => Duplicate
    case Completed => Duplicate
    case Failed => Duplicate
    case _ => Ignored
  }

  function RailAudit(event: RailEvent, kind: AuditKind, state: State): AuditRecord {
    AuditRecord(EventKey(event.eventId), event.pid, kind, Some(state), "")
  }

  /** A rail result while the saga is held in review: the first one is stored. */
  function Defer(w: World, cur: Saga, event: RailEvent): Handler {
    match cur.deferred
    case Some(first) =>
      RecordAudit(RailAudit(event, if first.eventId == event.eventId then Duplicate else InvariantViolation, cur.state))
    case None =>
      PersistAudited(cur.(deferred := Some(event), updatedAt := w.now), RailAudit(event, DeferredTerminal, cur.state))
  }

  const COMPLETED_PREFIX := "payment.completed:"
  const FAILED_PREFIX := "payment.failed:"

  /** A stored result is replayed through the handler its event id names. */
  function Replay(event: RailEvent): Handler {
    if COMPLETED_PREFIX <= event.eventId then OnCompleted(PaymentCompleted(event.eventId, event.pid))
    else if FAILED_PREFIX <= event.eventId then
      OnFailed(if event.PaymentFailed? then event else PaymentFailed(event.eventId, event.pid, "", ""))
    else Done(Errored)
  }

  const DEFAULT_REJECT_REASON := "rejected in fraud review"

  function RejectReason(reason: string): string {
    var trimmed := TrimRight(TrimLeft(reason));
    if trimmed == "" then DEFAULT_REJECT_REASON else trimmed
  }

  function ReviewAudit(kind: AuditKind, d: ReviewDecision, now: int): AuditRecord {
    AuditRecord(ReviewKey(kind, d.pid, now), d.pid, kind, Some(FraudReview), d.actor)
  }

  /** A handler's first statement, which reads the saga row (or inserts it). */
  function Enter(w: World, h: Handler): (World, Handler)
    requires !h.HasCopy()
  {
    match h
    case Start(req) =>
      if req.amount <= 0 then (w, Done(Errored))
      else if req.pid in w.sagas then
        if w.sagas[req.pid].start != req then (w, Done(Errored))
        else if w.sagas[req.pid].state.Started? then (w, Advance(w.sagas[req.pid]))
        else (w, Done(Finished))
      else if SameKey(w.sagas, req) then (w, Done(Errored))
      else (w.(sagas := w.sagas[req.pid := NewSaga(req, w.now)]), Advance(NewSaga(req, w.now)))
    case OnCompleted(event) =>
      if event.pid !in w.sagas then (w, Done(Errored))
      else
        var cur := w.sagas[event.pid];
        (w, match cur.state
            case Completed => RecordAudit(RailAudit(event, Duplicate, cur.state))
            case Failed => RecordAudit(RailAudit(event, InvariantViolation, cur.state))
            case FraudReview => Defer(w, cur, event)
            case _ => Confirm(cur))
    case OnFailed(event) =>
      if event.pid !in w.sagas || !event.PaymentFailed? then (w, Done(Errored))
      else
        var cur := w.sagas[event.pid];
        (w, match cur.state
            case Failed => RecordAudit(RailAudit(event, Duplicate, cur.state))
            case Completed => RecordAudit(RailAudit(event, InvariantViolation, cur.state))
            case FraudReview => Defer(w, cur, event)
            case _ => Persist(cur.(state := CompensatingLedger, failureCode := event.code, lastError := event.message, updatedAt := w.now)))
    case OnFlagged(flagged) =>
      if !flagged.Valid() then (w, Done(Errored))
      else if flagged.pid !in w.sagas then
        (w, RecordAudit(AuditRecord(EventKey(flagged.eventId), flagged.pid, Orphan, None, "")))
      else
        var row := w.sagas[flagged.pid];
        var cur := row.(flag := Some(flagged), updatedAt := w.now);
        var record := AuditRecord(EventKey(flagged.eventId), flagged.pid, FlagKind(row.state), Some(row.state), "");
        (w, if row.state.PaymentProcessing? then PersistPaused(cur.(state := FraudReview), record) else PersistAudited(cur, record))
    case RecordAudit(record) => (Audited(w, record), Done(Finished))
    case OnResume(d) =>
      if d.pid !in w.sagas then (w, Done(Errored))
      else if !w.sagas[d.pid].state.FraudReview? then (w, Done(NotUnderReview))
      else
        var cur := w.sagas[d.pid];
        (w, PersistResumed(cur.(state := PaymentProcessing, deferred := None, updatedAt := w.now),
                        ReviewAudit(ReviewResumed, d, w.now), cur.deferred))
    case OnReject(d) =>
      if d.pid !in w.sagas then (w, Done(Errored))
      else if !w.sagas[d.pid].state.FraudReview? then (w, Done(NotUnderReview))
      else
        var cur := w.sagas[d.pid];
        (w, PersistRejected(cur.(state := CompensatingLedger, failureCode := "fraud_rejected",
                              lastError := RejectReason(d.reason), updatedAt := w.now),
                         ReviewAudit(ReviewRejected, d, w.now)))
    case Recover(pid) =>
      if pid !in w.sagas then (w, Done(Finished)) else (w, Resumption(w.sagas[pid]))
    case Done(_) => (w, h)
  }

  /** What follows a plain Update, by the state just stored. */
  function AfterPersist(row: Saga): Handler {
    match row.state
    case LedgerConfirmed => PublishCompleted(row)
    case CompensatingLedger => CancelLedger(row)
    case CompensatingWallet => Compensate(row)
    case Failed => PublishFailed(row)
    case _ => Advance(row)
  }

  /** A copy about to be stored in state `s`. */
  function To(w: World, cur: Saga, s: State): Saga {
    cur.(state := s, updatedAt := w.now)
  }

  /** Every later statement or call of a handler. */
  function Continue(w: World, h: Handler): (World, Handler)
    requires h.HasCopy() && h.cur.start.pid in w.sagas
  {
    match h
    case CheckVerification(cur) =>
      var user := cur.start.user;
      if user in w.verifications && w.verifications[user].status.Verified? then (w, Persist(To(w, cur, VerificationChecked)))
      else (w, PersistUnverified(To(w, cur, Failed).(lastError := "user is not verified")))
    case DebitWallet(cur) =>
      var (bank, r) := CallDebit(w.bank, cur.start);
      (w.(bank := bank), if r.Ok? then Persist(To(w, cur, WalletDebited).(debitId := r.value.id)) else Done(Errored))
    case ReserveLedger(cur) =>
      var (bank, r) := CallReserve(w.bank, cur.start);
      (w.(bank := bank), if r.Ok? then Persist(To(w, cur, LedgerReserved).(reservationId := r.value.id)) else Done(Errored))
    case Launch(cur) => // one transaction
      (Enqueued(Enqueued(Save(w, To(w, cur, PaymentProcessing)), PaymentExecute, cur), FraudScoreRequested, cur), Done(Finished))
    case Confirm(cur) =>
      var (bank, r) := CallConfirm(w.bank, cur);
      (w.(bank := bank), if r.Ok? then Persist(To(w, cur, LedgerConfirmed).(transferId := r.value)) else Done(Errored))
    case PublishCompleted(cur) => (Enqueued(w, TxCompleted, cur), Persist(To(w, cur, Completed)))
    case CancelLedger(cur) =>
      var (bank, r) := CallCancel(w.bank, cur);
      (w.(bank := bank), if r.Ok? then Persist(To(w, cur, CompensatingWallet)) else Done(Errored))
    case Compensate(cur) =>
      var (bank, r) := CallCompensate(w.bank, cur);
      (w.(bank := bank), if r.Ok? then Persist(To(w, cur, Failed)) else Done(Errored))
    case PublishFailed(cur) => (Enqueued(w, TxFailed, cur), Done(Finished))
    case Persist(cur) => var w' := Save(w, cur); (w', AfterPersist(w'.sagas[cur.start.pid]))
    case PersistUnverified(cur) => (Save(w, cur), Done(Unverified))
    case PersistPaused(cur, record) => // one transaction
      (Audited(Enqueued(Save(w, cur), TxPaused, cur), record), Done(Finished))
    case PersistAudited(cur, record) => (Audited(Save(w, cur), record), Done(Finished)) // one transaction
    case PersistResumed(cur, record, replay) => // one transaction
      (Audited(Save(w, cur), record), if replay.Some? then Replay(replay.value) else Done(Finished))
    case PersistRejected(cur, record) => // one transaction
      var w' := Audited(Save(w, cur), record);
      (w', CancelLedger(w'.sagas[cur.start.pid]))
  }

  /** One statement or remote call of handler `h`. */
  function Exec(w: World, h: Handler): (World, Handler) {
    if !h.HasCopy() then Enter(w, h)
    else if h.cur.start.pid !in w.sagas then (w, Done(Errored))
    else Continue(w, h)
  }

  /** A handler that survives `budget` statements and calls, then dies (or finishes). */
  function RunFor(w: World, h: Handler, budget: nat): (World, Handler)
    decreases budget
  {
    if budget == 0 || h.Done? then (w, h)
    else
      var (w', h') := Exec(w, h);
      RunFor(w', h', budget - 1)
  }

  /** How much of the budget a handler that ends has left. */
  function Left(w: World, h: Handler, budget: nat): nat
    decreases budget
  {
    if budget == 0 || h.Done? then budget
    else
      var (w', h') := Exec(w, h);
      Left(w', h', budget - 1)
  }

  lemma OneStep(w: World, h: Handler, n: nat)
    requires n >= 1 && !h.Done?
    ensures RunFor(w, h, n) == RunFor(Exec(w, h).0, Exec(w, h).1, n - 1)
    ensures Left(w, h, n) == Left(Exec(w, h).0, Exec(w, h).1, n - 1)
  {
  }

  // ----- Systems of concurrent handlers -----

  datatype System = System(w: World, live: map<nat, Handler>)

  datatype Label =
    | Spawn(id: nat, entry: Handler)
    | Step(id: nat)
    | Die(id: nat)
    | OtherBankCommand(command: Command)      // wallet API and ledger consumer
    | VerificationCall(call: V.Call)
    | Tick(elapsed: nat)

  /** Commands issued outside the saga: wallet creation, direct transfers and their postings. */
  predicate OutsideSaga(c: Command) { c.DoCreateWallet? || c.DoCreateTransfer? || c.DoAppend? }

  function Take(s: System, l: Label): System {
    match l
    case Spawn(id, entry) => if id !in s.live && entry.Entry() then s.(live := s.live[id := entry]) else s
    case Step(id) =>
      if id in s.live then
        var (w', h') := Exec(s.w, s.live[id]);
        System(w', s.live[id := h'])
      else s
    case Die(id) => s.(live := s.live - {id})
    case OtherBankCommand(c) => if OutsideSaga(c) then s.(w := s.w.(bank := Apply(s.w.bank, c))) else s
    case VerificationCall(c) => s.(w := s.w.(verifications := V.Serve(s.w.verifications, [], c.req, c.now, c.published).0))
    case Tick(elapsed) => s.(w := s.w.(now := s.w.now + elapsed))
  }

  function TakeAll(s: System, ls: seq<Label>): System
    decreases ls
  {
    if ls == [] then s else TakeAll(Take(s, ls[0]), ls[1..])
  }
}
