/** Safety of the saga when handlers interleave at every statement and call, hold stale
    copies, overwrite each other's rows, and die anywhere. What carries it is not the saga
    row but the reservation, which once confirmed or cancelled never moves, and the wallet
    operations, which happen at most once. */
module SagaInterleaved {
  import opened Domain
  import opened Bank
  import opened BankLaws
  import opened BankFrames
  import opened SagaMachine
  import V = Verification

  // ----- The invariant -----

  ghost predicate IsVerified(w: World, user: string) {
    user in w.verifications && w.verifications[user].status.Verified?
  }

  ghost predicate ReservationIs(b: Bank, p: PaymentId, s: Status) {
    p in b.reservations && b.reservations[p].status == s
  }

  /** What any copy of a saga row, stored or held by a handler, guarantees about the other
      services, however stale it is. */
  ghost predicate CopyOk(w: World, c: Saga) {
    var p := c.start.pid;
    && p in w.sagas && w.sagas[p].start == c.start
    && (c.state.VerificationChecked? ==> IsVerified(w, c.start.user))
    && (c.state.WalletDebited? ==> c.debitId != NIL)
    && (c.debitId != NIL ==> p in w.bank.debits && w.bank.debits[p].id == c.debitId)
    && (c.reservationId != NIL ==> p in w.bank.reservations && w.bank.reservations[p].id == c.reservationId)
    && (c.state.LedgerConfirmed? || c.state.Completed? ==> ReservationIs(w.bank, p, Confirmed))
    && (c.state.CompensatingWallet? ==> ReservationIs(w.bank, p, Canceled))
  }

  /** A request whose debit the wallet service accepts for processing. */
  ghost predicate Chargeable(s: StartRequest) {
    s.pid != "" && s.from != NIL && s.currency != "" && NormalizeCurrency(s.currency).Ok?
  }

  ghost predicate DebitOk(w: World, p: PaymentId) {
    p in w.bank.debits ==>
      && p in w.sagas && IsVerified(w, w.sagas[p].start.user) && Chargeable(w.sagas[p].start)
      && w.bank.debits[p].amount == w.sagas[p].start.amount && w.bank.debits[p].wallet == w.sagas[p].start.from
      && w.bank.debits[p].currency == DEFAULT_CURRENCY && w.bank.debits[p].key == StepKey(p, "debit-wallet")
  }

  ghost predicate ReservationOk(w: World, p: PaymentId) {
    p in w.bank.reservations ==>
      && p in w.bank.debits && p in w.sagas
      && w.bank.reservations[p].amount == w.sagas[p].start.amount
      && w.bank.reservations[p].from == w.sagas[p].start.from && w.bank.reservations[p].to == w.sagas[p].start.to
      && w.bank.reservations[p].currency == DEFAULT_CURRENCY && w.bank.reservations[p].key == StepKey(p, "reserve-ledger")
  }

  ghost predicate RefundOk(w: World, p: PaymentId) {
    p in w.bank.comps ==> ReservationIs(w.bank, p, Canceled) && w.bank.comps[p].key == StepKey(p, "compensate-wallet")
  }

  ghost predicate RowOk(w: World, p: PaymentId) {
    p in w.sagas ==> w.sagas[p].start.pid == p && CopyOk(w, w.sagas[p])
  }

  ghost predicate PaymentOk(w: World, p: PaymentId) {
    DebitOk(w, p) && ReservationOk(w, p) && RefundOk(w, p) && RowOk(w, p)
  }

  ghost predicate WorldOk(w: World) {
    BankOk(w.bank) && forall p :: PaymentOk(w, p)
  }

  ghost predicate HandlerOk(w: World, h: Handler) {
    && (h.HasCopy() ==> CopyOk(w, h.cur))
    && (h.DebitWallet? ==> h.cur.state.VerificationChecked?)
    && (h.ReserveLedger? ==> h.cur.state.WalletDebited?)
    && (h.PublishCompleted? ==> h.cur.state.LedgerConfirmed?)
    && (h.Compensate? ==> h.cur.state.CompensatingWallet?)
  }

  ghost predicate SystemOk(s: System) {
    WorldOk(s.w) && forall id | id in s.live :: HandlerOk(s.w, s.live[id])
  }

  // ----- Nothing a handler relies on is ever taken back -----

  ghost predicate Grows(w: World, w': World) {
    && (forall p | p in w.sagas :: p in w'.sagas && w'.sagas[p].start == w.sagas[p].start)
    && (forall u | IsVerified(w, u) :: IsVerified(w', u))
    && Extends(w.bank, w'.bank)
  }

  lemma CopyStaysOk(w: World, w': World, c: Saga)
    requires CopyOk(w, c) && Grows(w, w')
    ensures CopyOk(w', c)
  {
  }

  lemma HandlerStaysOk(w: World, w': World, h: Handler)
    requires HandlerOk(w, h) && Grows(w, w')
    ensures HandlerOk(w', h)
  {
    if h.HasCopy() { CopyStaysOk(w, w', h.cur); }
  }

  lemma GrowsTransitive(w: World, w': World, w'': World)
    requires Grows(w, w') && Grows(w', w'')
    ensures Grows(w, w'')
  {
    ExtendsTransitive(w.bank, w'.bank, w''.bank);
  }

  // ----- Statements on the saga row -----

  /** The bank is as it was and the payment's identity columns too. */
  lemma SameBank(w: World, w': World, p: PaymentId)
    requires PaymentOk(w, p) && w'.bank == w.bank && w'.verifications == w.verifications
    requires p in w.sagas ==> p in w'.sagas && w'.sagas[p].start == w.sagas[p].start
    requires RowOk(w', p)
    ensures PaymentOk(w', p)
  {
  }

  lemma SaveKeeps(w: World, c: Saga)
    requires WorldOk(w) && CopyOk(w, c)
    ensures WorldOk(Save(w, c)) && Grows(w, Save(w, c)) && Save(w, c).sagas[c.start.pid] == c
  {
    var w' := Save(w, c);
    assert Grows(w, w');
    CopyStaysOk(w, w', c);
    forall p ensures PaymentOk(w', p) {
      assert PaymentOk(w, p);
      if p in w.sagas { CopyStaysOk(w, w', w.sagas[p]); }
      SameBank(w, w', p);
    }
  }

  lemma InsertKeeps(w: World, req: StartRequest)
    requires WorldOk(w) && req.pid !in w.sagas
    ensures var w' := w.(sagas := w.sagas[req.pid := NewSaga(req, w.now)]);
      WorldOk(w') && Grows(w, w') && CopyOk(w', NewSaga(req, w.now))
  {
    var w' := w.(sagas := w.sagas[req.pid := NewSaga(req, w.now)]);
    assert Grows(w, w');
    forall p ensures PaymentOk(w', p) {
      assert PaymentOk(w, p);
      if p in w.sagas { CopyStaysOk(w, w', w.sagas[p]); }
      SameBank(w, w', p);
    }
  }

  // ----- Remote calls -----

  lemma OthersUntouched(w: World, b': Bank, p: PaymentId, q: PaymentId)
    requires PaymentOk(w, q) && OnlyTouches(w.bank, b', p) && q != p
    ensures PaymentOk(w.(bank := b'), q)
  {
    assert q in b'.debits <==> q in b'.debits - {p};
    assert q in w.bank.debits <==> q in w.bank.debits - {p};
    assert q in b'.comps <==> q in b'.comps - {p};
    assert q in w.bank.comps <==> q in w.bank.comps - {p};
    assert q in b'.reservations <==> q in b'.reservations - {p};
    assert q in w.bank.reservations <==> q in w.bank.reservations - {p};
  }

  /** A bank command for payment `p` keeps the world if it keeps `p`'s own facts. */
  lemma BankStepKeeps(w: World, b': Bank, p: PaymentId)
    requires WorldOk(w) && BankOk(b') && Extends(w.bank, b') && OnlyTouches(w.bank, b', p)
    requires var w' := w.(bank := b'); DebitOk(w', p) && ReservationOk(w', p) && RefundOk(w', p)
    ensures WorldOk(w.(bank := b')) && Grows(w, w.(bank := b'))
  {
    var w' := w.(bank := b');
    forall q ensures PaymentOk(w', q) {
      assert PaymentOk(w, q);
      if q == p {
        if p in w.sagas { CopyStaysOk(w, w', w.sagas[p]); }
      } else {
        OthersUntouched(w, b', p, q);
      }
    }
  }

  lemma DebitStep(w: World, c: Saga)
    requires WorldOk(w) && CopyOk(w, c) && IsVerified(w, c.start.user)
    ensures var (b', r) := CallDebit(w.bank, c.start); var w' := w.(bank := b');
      && WorldOk(w') && Grows(w, w')
      && (r.Ok? ==> c.start.pid in b'.debits && b'.debits[c.start.pid].id == r.value.id != NIL)
  {
    var (b', r) := CallDebit(w.bank, c.start);
    var p := c.start.pid;
    assert PaymentOk(w, p);
    if NormalizeCurrency(c.start.currency).Ok? && c.start.currency != "" {
      var cmd := DebitCommand(p, c.start.from, c.start.amount, NormalizeCurrency(c.start.currency).value, StepKey(p, "debit-wallet"));
      assert (b', r) == DebitForSaga(w.bank, cmd);
      DebitShape(w.bank, cmd);
      DebitKeeps(w.bank, cmd);
      DebitExtends(w.bank, cmd);
      BankStepKeeps(w, b', p);
    }
  }

  lemma ReserveStep(w: World, c: Saga)
    requires WorldOk(w) && CopyOk(w, c) && c.debitId != NIL
    ensures var (b', r) := CallReserve(w.bank, c.start); var w' := w.(bank := b');
      && WorldOk(w') && Grows(w, w')
      && (r.Ok? ==> c.start.pid in b'.reservations && b'.reservations[c.start.pid].id == r.value.id != NIL)
  {
    hide MoneyOk, Balanced, OwnsTransfer;
    var (b', r) := CallReserve(w.bank, c.start);
    var s := c.start;
    assert PaymentOk(w, s.pid);
    if s.currency != "" {
      var cmd := ReserveCommand(s.pid, StepKey(s.pid, "reserve-ledger"), s.from, s.to, s.amount, s.currency);
      assert (b', r) == ReserveTransfer(w.bank, cmd);
      ReserveShape(w.bank, cmd);
      ReserveKeeps(w.bank, cmd);
      ReserveExtends(w.bank, cmd);
      BankStepKeeps(w, b', s.pid);
    }
  }

  lemma ConfirmStep(w: World, c: Saga)
    requires WorldOk(w) && CopyOk(w, c)
    ensures var (b', r) := CallConfirm(w.bank, c); var w' := w.(bank := b');
      && WorldOk(w') && Grows(w, w') && (r.Ok? ==> ReservationIs(b', c.start.pid, Confirmed))
  {
    var (b', r) := CallConfirm(w.bank, c);
    var p := c.start.pid;
    assert PaymentOk(w, p);
    var cmd := ConfirmCommand(p, StepKey(p, "confirm-ledger"), c.reservationId, c.debitId);
    ConfirmShape(w.bank, cmd);
    ConfirmKeeps(w.bank, cmd);
    ConfirmExtends(w.bank, cmd);
    BankStepKeeps(w, b', p);
  }

  lemma CancelStep(w: World, c: Saga)
    requires WorldOk(w) && CopyOk(w, c)
    ensures var (b', r) := CallCancel(w.bank, c); var w' := w.(bank := b');
      && WorldOk(w') && Grows(w, w') && (r.Ok? ==> ReservationIs(b', c.start.pid, Canceled))
  {
    var (b', r) := CallCancel(w.bank, c);
    var p := c.start.pid;
    assert PaymentOk(w, p);
    var cmd := CancelCommand(p, StepKey(p, "cancel-ledger"), c.reservationId);
    CancelShape(w.bank, cmd);
    CancelKeeps(w.bank, cmd);
    CancelExtends(w.bank, cmd);
    BankStepKeeps(w, b', p);
  }

  lemma CompensateStep(w: World, c: Saga)
    requires WorldOk(w) && CopyOk(w, c) && ReservationIs(w.bank, c.start.pid, Canceled)
    ensures var (b', r) := CallCompensate(w.bank, c); var w' := w.(bank := b'); WorldOk(w') && Grows(w, w')
  {
    var (b', r) := CallCompensate(w.bank, c);
    var s := c.start;
    assert PaymentOk(w, s.pid);
    var currency := if s.currency == "" then Ok("") else NormalizeCurrency(s.currency);
    if currency.Ok? {
      var cmd := CompensateCommand(s.pid, s.from, c.debitId, s.amount, currency.value, StepKey(s.pid, "compensate-wallet"));
      assert (b', r) == CompensateDebit(w.bank, cmd);
      CompensationShape(w.bank, cmd);
      CompensationKeeps(w.bank, cmd);
      CompensationExtends(w.bank, cmd);
      BankStepKeeps(w, b', s.pid);
    }
  }

  // ----- One statement or call of a handler -----

  ghost predicate StepOk(w: World, w': World, h': Handler) {
    WorldOk(w') && Grows(w, w') && HandlerOk(w', h')
  }

  lemma SameTablesKeep(w: World, w': World)
    requires WorldOk(w) && w'.sagas == w.sagas && w'.bank == w.bank && w'.verifications == w.verifications
    ensures WorldOk(w') && Grows(w, w')
  {
    forall p ensures PaymentOk(w', p) { assert PaymentOk(w, p); }
  }

  lemma ReadKeeps(w: World, h': Handler)
    requires WorldOk(w) && HandlerOk(w, h')
    ensures StepOk(w, w, h')
  {
  }

  /** A copy re-labelled with a state that promises nothing, or with its own state, and
      with any error text, flag or deferred result, is still a good copy. */
  lemma Retouched(w: World, c: Saga, c': Saga)
    requires CopyOk(w, c) && c'.start == c.start && c'.debitId == c.debitId && c'.reservationId == c.reservationId
    requires c'.state == c.state || c'.state in {PaymentProcessing, FraudReview, CompensatingLedger, Failed, LedgerReserved}
    ensures CopyOk(w, c')
  {
  }

  lemma AuditKeeps(w: World, r: AuditRecord)
    requires WorldOk(w)
    ensures WorldOk(Audited(w, r)) && Grows(w, Audited(w, r))
  {
    SameTablesKeep(w, Audited(w, r));
  }

  lemma EnqueueKeeps(w: World, t: Topic, c: Saga)
    requires WorldOk(w)
    ensures WorldOk(Enqueued(w, t, c)) && Grows(w, Enqueued(w, t, c))
  {
    SameTablesKeep(w, Enqueued(w, t, c));
  }

  lemma AdvanceOk(w: World, c: Saga)
    requires CopyOk(w, c)
    ensures HandlerOk(w, Advance(c))
  {
  }

  lemma StartKeeps(w: World, req: StartRequest)
    requires WorldOk(w)
    ensures var (w', h') := Enter(w, Start(req)); StepOk(w, w', h')
  {
    assert PaymentOk(w, req.pid);
    if req.amount > 0 && req.pid !in w.sagas && !SameKey(w.sagas, req) {
      InsertKeeps(w, req);
      AdvanceOk(Enter(w, Start(req)).0, NewSaga(req, w.now));
    } else {
      if req.pid in w.sagas { AdvanceOk(w, w.sagas[req.pid]); }
      ReadKeeps(w, Enter(w, Start(req)).1);
    }
  }

  lemma DeferOk(w: World, c: Saga, event: RailEvent)
    requires CopyOk(w, c)
    ensures HandlerOk(w, Defer(w, c, event))
  {
    Retouched(w, c, c.(deferred := Some(event), updatedAt := w.now));
  }

  lemma CompletedKeeps(w: World, event: RailEvent)
    requires WorldOk(w)
    ensures var (w', h') := Enter(w, OnCompleted(event)); StepOk(w, w', h')
  {
    assert PaymentOk(w, event.pid);
    if event.pid in w.sagas { DeferOk(w, w.sagas[event.pid], event); }
    ReadKeeps(w, Enter(w, OnCompleted(event)).1);
  }

  lemma FailedKeeps(w: World, event: RailEvent)
    requires WorldOk(w)
    ensures var (w', h') := Enter(w, OnFailed(event)); StepOk(w, w', h')
  {
    assert PaymentOk(w, event.pid);
    if event.pid in w.sagas && event.PaymentFailed? {
      var row := w.sagas[event.pid];
      DeferOk(w, row, event);
      Retouched(w, row, row.(state := CompensatingLedger, failureCode := event.code, lastError := event.message, updatedAt := w.now));
    }
    ReadKeeps(w, Enter(w, OnFailed(event)).1);
  }

  lemma FlaggedKeeps(w: World, f: FraudFlagged)
    requires WorldOk(w)
    ensures var (w', h') := Enter(w, OnFlagged(f)); StepOk(w, w', h')
  {
    assert PaymentOk(w, f.pid);
    if f.pid in w.sagas {
      var cur := w.sagas[f.pid].(flag := Some(f), updatedAt := w.now);
      Retouched(w, w.sagas[f.pid], cur);
      Retouched(w, w.sagas[f.pid], cur.(state := FraudReview));
    }
    ReadKeeps(w, Enter(w, OnFlagged(f)).1);
  }

  lemma DecisionKeeps(w: World, h: Handler)
    requires WorldOk(w) && (h.OnResume? || h.OnReject?)
    ensures var (w', h') := Enter(w, h); StepOk(w, w', h')
  {
    var d := h.decision;
    assert PaymentOk(w, d.pid);
    var h' := Enter(w, h).1;
    if h'.HasCopy() { Retouched(w, w.sagas[d.pid], h'.cur); }
    ReadKeeps(w, h');
  }

  lemma RecoverKeeps(w: World, p: PaymentId)
    requires WorldOk(w)
    ensures var (w', h') := Enter(w, Recover(p)); StepOk(w, w', h')
  {
    assert PaymentOk(w, p);
    if p in w.sagas { AdvanceOk(w, w.sagas[p]); }
    ReadKeeps(w, Enter(w, Recover(p)).1);
  }

  lemma EnterKeeps(w: World, h: Handler)
    requires WorldOk(w) && !h.HasCopy()
    ensures var (w', h') := Enter(w, h); StepOk(w, w', h')
  {
    match h
    case Start(req) => StartKeeps(w, req);
    case OnCompleted(event) => CompletedKeeps(w, event);
    case OnFailed(event) => FailedKeeps(w, event);
    case OnFlagged(f) => FlaggedKeeps(w, f);
    case RecordAudit(r) => AuditKeeps(w, r);
    case OnResume(d) => DecisionKeeps(w, h);
    case OnReject(d) => DecisionKeeps(w, h);
    case Recover(p) => RecoverKeeps(w, p);
    case Done(_) =>
  }

  // The remote calls, and the copies their replies produce.

  lemma DebitCallKeeps(w: World, c: Saga)
    requires WorldOk(w) && CopyOk(w, c) && c.state.VerificationChecked?
    ensures var (w', h') := Continue(w, DebitWallet(c)); StepOk(w, w', h')
  {
    DebitStep(w, c);
    CopyStaysOk(w, Continue(w, DebitWallet(c)).0, c);
  }

  lemma ReserveCallKeeps(w: World, c: Saga)
    requires WorldOk(w) && CopyOk(w, c) && c.state.WalletDebited?
    ensures var (w', h') := Continue(w, ReserveLedger(c)); StepOk(w, w', h')
  {
    ReserveStep(w, c);
    CopyStaysOk(w, Continue(w, ReserveLedger(c)).0, c);
  }

  lemma ConfirmCallKeeps(w: World, c: Saga)
    requires WorldOk(w) && CopyOk(w, c)
    ensures var (w', h') := Continue(w, Confirm(c)); StepOk(w, w', h')
  {
    ConfirmStep(w, c);
    CopyStaysOk(w, Continue(w, Confirm(c)).0, c);
  }

  lemma CancelCallKeeps(w: World, c: Saga)
    requires WorldOk(w) && CopyOk(w, c)
    ensures var (w', h') := Continue(w, CancelLedger(c)); StepOk(w, w', h')
  {
    CancelStep(w, c);
    CopyStaysOk(w, Continue(w, CancelLedger(c)).0, c);
  }

  lemma CompensateCallKeeps(w: World, c: Saga)
    requires WorldOk(w) && CopyOk(w, c) && c.state.CompensatingWallet?
    ensures var (w', h') := Continue(w, Compensate(c)); StepOk(w, w', h')
  {
    CompensateStep(w, c);
    CopyStaysOk(w, Continue(w, Compensate(c)).0, c);
  }

  // The statements.

  lemma CheckKeeps(w: World, c: Saga)
    requires WorldOk(w) && CopyOk(w, c)
    ensures var (w', h') := Continue(w, CheckVerification(c)); StepOk(w, w', h')
  {
    ReadKeeps(w, Continue(w, CheckVerification(c)).1);
  }

  lemma PublishCompletedKeeps(w: World, c: Saga)
    requires WorldOk(w) && CopyOk(w, c) && c.state.LedgerConfirmed?
    ensures var (w', h') := Continue(w, PublishCompleted(c)); StepOk(w, w', h')
  {
    EnqueueKeeps(w, TxCompleted, c);
    CopyStaysOk(w, Continue(w, PublishCompleted(c)).0, c);
  }

  lemma PublishFailedKeeps(w: World, c: Saga)
    requires WorldOk(w) && CopyOk(w, c)
    ensures var (w', h') := Continue(w, PublishFailed(c)); StepOk(w, w', h')
  {
    EnqueueKeeps(w, TxFailed, c);
  }

  lemma PersistKeeps(w: World, c: Saga)
    requires WorldOk(w) && CopyOk(w, c)
    ensures var (w', h') := Continue(w, Persist(c)); StepOk(w, w', h')
  {
    SaveKeeps(w, c);
    CopyStaysOk(w, Save(w, c), c);
  }

  /** A transaction that stores copy `c` and appends to the outbox or the audit table. */
  lemma CommitKeeps(w: World, c: Saga, w': World)
    requires WorldOk(w) && CopyOk(w, c)
    requires w'.sagas == Save(w, c).sagas && w'.bank == w.bank && w'.verifications == w.verifications
    ensures WorldOk(w') && Grows(w, w') && CopyOk(w', c) && w'.sagas[c.start.pid] == c
  {
    var w1 := Save(w, c);
    SaveKeeps(w, c);
    SameTablesKeep(w1, w');
    GrowsTransitive(w, w1, w');
    CopyStaysOk(w, w', c);
  }

  lemma UnverifiedKeeps(w: World, c: Saga)
    requires WorldOk(w) && CopyOk(w, c)
    ensures var (w', h') := Continue(w, PersistUnverified(c)); StepOk(w, w', h')
  {
    CommitKeeps(w, c, Continue(w, PersistUnverified(c)).0);
  }

  lemma PausedKeeps(w: World, c: Saga, r: AuditRecord)
    requires WorldOk(w) && CopyOk(w, c)
    ensures var (w', h') := Continue(w, PersistPaused(c, r)); StepOk(w, w', h')
  {
    CommitKeeps(w, c, Continue(w, PersistPaused(c, r)).0);
  }

  lemma AuditedKeeps(w: World, c: Saga, r: AuditRecord)
    requires WorldOk(w) && CopyOk(w, c)
    ensures var (w', h') := Continue(w, PersistAudited(c, r)); StepOk(w, w', h')
  {
    CommitKeeps(w, c, Continue(w, PersistAudited(c, r)).0);
  }

  lemma ResumedKeeps(w: World, c: Saga, r: AuditRecord, replay: Option<RailEvent>)
    requires WorldOk(w) && CopyOk(w, c)
    ensures var (w', h') := Continue(w, PersistResumed(c, r, replay)); StepOk(w, w', h')
  {
    CommitKeeps(w, c, Continue(w, PersistResumed(c, r, replay)).0);
  }

  lemma RejectedKeeps(w: World, c: Saga, r: AuditRecord)
    requires WorldOk(w) && CopyOk(w, c)
    ensures var (w', h') := Continue(w, PersistRejected(c, r)); StepOk(w, w', h')
  {
    CommitKeeps(w, c, Continue(w, PersistRejected(c, r)).0);
  }

  lemma LaunchKeeps(w: World, c: Saga)
    requires WorldOk(w) && CopyOk(w, c)
    ensures var (w', h') := Continue(w, Launch(c)); StepOk(w, w', h')
  {
    CommitKeeps(w, To(w, c, PaymentProcessing), Continue(w, Launch(c)).0);
  }

  /** Any statement or call by any handler keeps every payment safe and takes back nothing
      that another handler relies on. */
  lemma ExecKeeps(w: World, h: Handler)
    requires WorldOk(w) && HandlerOk(w, h)
    ensures var (w', h') := Exec(w, h); StepOk(w, w', h')
  {
    if !h.HasCopy() {
      EnterKeeps(w, h);
    } else {
      match h
      case CheckVerification(c) => CheckKeeps(w, c);
      case DebitWallet(c) => DebitCallKeeps(w, c);
      case ReserveLedger(c) => ReserveCallKeeps(w, c);
      case Launch(c) => LaunchKeeps(w, c);
      case Confirm(c) => ConfirmCallKeeps(w, c);
      case PublishCompleted(c) => PublishCompletedKeeps(w, c);
      case CancelLedger(c) => CancelCallKeeps(w, c);
      case Compensate(c) => CompensateCallKeeps(w, c);
      case PublishFailed(c) => PublishFailedKeeps(w, c);
      case Persist(c) => PersistKeeps(w, c);
      case PersistUnverified(c) => UnverifiedKeeps(w, c);
      case PersistPaused(c, r) => PausedKeeps(w, c, r);
      case PersistAudited(c, r) => AuditedKeeps(w, c, r);
      case PersistResumed(c, r, replay) => ResumedKeeps(w, c, r, replay);
      case PersistRejected(c, r) => RejectedKeeps(w, c, r);
    }
  }

  // ----- Every run -----

  /** No payment yet, and any consistent set of wallets and verifications. */
  ghost predicate Initial(s: System) {
    && BankOk(s.w.bank) && s.w.bank.debits == map[] && s.w.bank.comps == map[] && s.w.bank.reservations == map[]
    && s.w.sagas == map[] && s.w.outbox == [] && s.w.audit == map[] && s.live == map[]
  }

  lemma OutsideKeeps(w: World, c: Command)
    requires WorldOk(w) && OutsideSaga(c)
    ensures var w' := w.(bank := Apply(w.bank, c)); WorldOk(w') && Grows(w, w')
  {
    var b' := Apply(w.bank, c);
    CommandKeeps(w.bank, c);
    CommandExtends(w.bank, c);
    OutsideFrame(w.bank, c);
    BankStepKeeps(w, b', "") by { assert PaymentOk(w, ""); }
  }

  lemma OutsideFrame(b: Bank, c: Command)
    requires OutsideSaga(c)
    ensures var b' := Apply(b, c); b'.debits == b.debits && b'.comps == b.comps && b'.reservations == b.reservations
  {
  }

  lemma VerificationKeeps(w: World, c: V.Call)
    requires WorldOk(w)
    ensures var w' := w.(verifications := V.Serve(w.verifications, [], c.req, c.now, c.published).0);
      WorldOk(w') && Grows(w, w')
  {
    var w' := w.(verifications := V.Serve(w.verifications, [], c.req, c.now, c.published).0);
    V.ServeKeeps(w.verifications, [], c.req, c.now, c.published);
    assert Grows(w, w');
    forall p ensures PaymentOk(w', p) {
      assert PaymentOk(w, p);
      if p in w.sagas { CopyStaysOk(w, w', w.sagas[p]); }
    }
  }

  /** One label keeps every payment, and the handler it ran. */
  lemma TakeKeepsWorld(s: System, l: Label)
    requires SystemOk(s)
    ensures var s' := Take(s, l);
      WorldOk(s'.w) && Grows(s.w, s'.w) && (l.Step? && l.id in s.live ==> HandlerOk(s'.w, s'.live[l.id]))
  {
    match l
    case Step(id) => if id in s.live { ExecKeeps(s.w, s.live[id]); } else { SameTablesKeep(s.w, s.w); }
    case OtherBankCommand(c) => if OutsideSaga(c) { OutsideKeeps(s.w, c); } else { SameTablesKeep(s.w, s.w); }
    case VerificationCall(c) => VerificationKeeps(s.w, c);
    case _ => SameTablesKeep(s.w, Take(s, l).w);
  }

  lemma TakeKeeps(s: System, l: Label)
    requires SystemOk(s)
    ensures SystemOk(Take(s, l)) && Grows(s.w, Take(s, l).w)
  {
    var s' := Take(s, l);
    TakeKeepsWorld(s, l);
    forall id | id in s'.live ensures HandlerOk(s'.w, s'.live[id]) {
      if id in s.live && !(l.Step? && l.id == id) { HandlerStaysOk(s.w, s'.w, s.live[id]); }
    }
  }

  lemma {:induction false} RunKeeps(s: System, ls: seq<Label>)
    requires SystemOk(s)
    ensures SystemOk(TakeAll(s, ls)) && Grows(s.w, TakeAll(s, ls).w)
    decreases ls
  {
    if ls == [] {
      SameTablesKeep(s.w, s.w);
    } else {
      TakeKeeps(s, ls[0]);
      RunKeeps(Take(s, ls[0]), ls[1..]);
      GrowsTransitive(s.w, Take(s, ls[0]).w, TakeAll(s, ls).w);
    }
  }

  lemma InitialOk(s: System)
    requires Initial(s)
    ensures SystemOk(s)
  {
    forall p ensures PaymentOk(s.w, p) { }
  }

  /** Interleaved setting. In every reachable state, whatever handlers ran, raced, died or
      wrote stale rows, a payment that was refunded has a cancelled reservation, owns no
      transfer and so no ledger entry, got back exactly what was debited, and is not settled. */
  lemma NeverSettledAndRefunded(s: System, ls: seq<Label>, p: PaymentId)
    requires Initial(s) && p in TakeAll(s, ls).w.bank.comps
    ensures var b := TakeAll(s, ls).w.bank;
      && ReservationIs(b, p, Canceled) && b.reservations[p].transfer !in b.transfers
      && (forall t, side | (t, side) in b.entries :: t != b.reservations[p].transfer)
      && p in b.debits && Refunds(b.comps[p], b.debits[p])
  {
    InitialOk(s);
    RunKeeps(s, ls);
    assert PaymentOk(TakeAll(s, ls).w, p);
  }

  /** Interleaved setting. Once a payment is debited its user is verified, then and in every
      later state, and the debit, the reservation, the ledger entries and the refund all
      carry the amount the saga was started with, which never changes. */
  lemma CrossServiceAgreement(s: System, ls: seq<Label>, later: seq<Label>, p: PaymentId)
    requires Initial(s) && p in TakeAll(s, ls).w.bank.debits
    ensures var w := TakeAll(s, ls).w; var w' := TakeAll(TakeAll(s, ls), later).w;
      && p in w.sagas && p in w'.sagas && w'.sagas[p].start == w.sagas[p].start
      && IsVerified(w', w.sagas[p].start.user)
      && p in w'.bank.debits && w'.bank.debits[p] == w.bank.debits[p] && w'.bank.debits[p].amount == w.sagas[p].start.amount
      && (p in w'.bank.reservations ==> w'.bank.reservations[p].amount == w.sagas[p].start.amount)
      && (p in w'.bank.comps ==> w'.bank.comps[p].amount == w.sagas[p].start.amount)
      && (ReservationIs(w'.bank, p, Confirmed) ==>
            var t := w'.bank.reservations[p].transfer;
            && (t, DebitSide) in w'.bank.entries && w'.bank.entries[(t, DebitSide)].amount == w.sagas[p].start.amount
            && (t, CreditSide) in w'.bank.entries && w'.bank.entries[(t, CreditSide)].amount == w.sagas[p].start.amount)
  {
    InitialOk(s);
    RunKeeps(s, ls);
    RunKeeps(TakeAll(s, ls), later);
    assert PaymentOk(TakeAll(s, ls).w, p);
    assert PaymentOk(TakeAll(TakeAll(s, ls), later).w, p);
  }
}
