/** The forward path left alone, from a new request or from wherever an earlier attempt stopped:
    exactly when it launches the payment, and what it leaves behind then. */
module Launching {
  import opened Domain
  import opened Bank
  import opened BankLaws
  import opened BankFrames
  import opened Acceptance
  import opened SagaMachine
  import opened SagaSteps
  import opened SagaInterleaved
  import opened SagaSerialised
  import opened Compensation

  // ----- When wallet and ledger accept -----

  predicate HoldsDollars(b: Bank, v: Id) {
    v in b.wallets && b.wallets[v].currency == "USD"
  }

  /** Debited already, or there is that much money. */
  predicate Funded(b: Bank, s: StartRequest) {
    s.pid in b.debits || (HoldsDollars(b, s.from) && s.amount <= b.wallets[s.from].balance)
  }

  /** Reserved already, or between two different dollar wallets. */
  predicate Reservable(b: Bank, s: StartRequest) {
    s.pid in b.reservations || (s.to != NIL && s.from != s.to && HoldsDollars(b, s.from) && HoldsDollars(b, s.to))
  }

  lemma StepKeyIsSome(p: PaymentId, step: string)
    ensures StepKey(p, step) != ""
  {
    assert |StepKey(p, step)| == |p| + 1 + |step|;
  }

  lemma DebitKeyFree(w: World, p: PaymentId)
    requires WorldOk(w) && p !in w.bank.debits
    ensures !KeyTaken(w.bank.debits, StepKey(p, "debit-wallet"))
  {
    forall q | q in w.bank.debits ensures w.bank.debits[q].key != StepKey(p, "debit-wallet") {
      assert PaymentOk(w, q);
      if w.bank.debits[q].key == StepKey(p, "debit-wallet") { StepKeyInjective(p, q, "debit-wallet"); }
    }
  }

  lemma DebitCallIff(w: World, s: StartRequest)
    requires WorldOk(w)
    ensures CallDebit(w.bank, s).1.Ok? <==> Chargeable(s) && s.amount > 0 && Funded(w.bank, s)
    ensures s.pid in w.bank.debits ==> CallDebit(w.bank, s).0 == w.bank
  {
    hide WorldOk, NormalizeCurrency, KeyTaken, DebitForSaga;
    if s.currency != "" && NormalizeCurrency(s.currency).Ok? {
      StepKeyIsSome(s.pid, "debit-wallet");
      DollarsAreNormal();
      if s.pid !in w.bank.debits { DebitKeyFree(w, s.pid); }
      DebitAcceptedIff(w.bank, DebitCommand(s.pid, s.from, s.amount, "USD", StepKey(s.pid, "debit-wallet")));
    }
  }

  /** What a saga's reservation row says is what its request says. */
  lemma ReservedAsAsked(w: World, p: PaymentId)
    requires WorldOk(w) && p in w.bank.reservations
    ensures p in w.sagas && w.sagas[p].start.pid == p
    ensures var r := w.bank.reservations[p]; var s := w.sagas[p].start;
      && r.key == StepKey(p, "reserve-ledger") && r.from == s.from && r.to == s.to && r.amount == s.amount && r.currency == "USD"
      && s.to != NIL && s.from != s.to
  {
    hide MoneyOk, LedgerOk;
    assert PaymentOk(w, p) && ReservationBacked(w.bank, w.bank.reservations[p]);
  }

  lemma DebitedIsChargeable(w: World, p: PaymentId)
    requires WorldOk(w) && p in w.bank.debits
    ensures p in w.sagas && w.sagas[p].start.pid == p && Chargeable(w.sagas[p].start) && w.sagas[p].start.amount > 0
  {
    hide LedgerOk, BackedOk;
    assert PaymentOk(w, p);
  }

  lemma ReserveCallIff(w: World, p: PaymentId)
    requires WorldOk(w) && p in w.bank.debits && p in w.sagas
    ensures CallReserve(w.bank, w.sagas[p].start).1.Ok? <==> Reservable(w.bank, w.sagas[p].start)
    ensures p in w.bank.reservations ==> CallReserve(w.bank, w.sagas[p].start).0 == w.bank
  {
    hide WorldOk, NormalizeCurrency, ReserveTransfer;
    DebitedIsChargeable(w, p);
    var s := w.sagas[p].start;
    StepKeyIsSome(p, "reserve-ledger");
    if p in w.bank.reservations { ReservedAsAsked(w, p); }
    ReserveAcceptedIff(w.bank, ReserveCommand(p, StepKey(p, "reserve-ledger"), s.from, s.to, s.amount, s.currency));
  }

  // ----- One stage at a time -----

  ghost predicate Stored(w: World, c: Saga) {
    c.start.pid in w.sagas && w.sagas[c.start.pid] == c
  }

  /** A run that got stuck: the payment is not launched, and whoever asked is not told it is. */
  ghost predicate Stuck(end: (World, Handler), p: PaymentId) {
    p in end.0.sagas && !end.0.sagas[p].state.PaymentProcessing? && end.1 != Done(Finished)
  }

  lemma CheckStage(w: World, c: Saga, n: nat)
    requires Stored(w, c) && c.state.Started?
    ensures var c1 := To(w, c, VerificationChecked);
      if n >= 2 && IsVerified(w, c.start.user) then RunFor(w, CheckVerification(c), n) == RunFor(Save(w, c1), DebitWallet(c1), n - 2)
      else Stuck(RunFor(w, CheckVerification(c), n), c.start.pid)
  {
    hide RunFor, Left;
    if n == 0 {
      Stopped(w, CheckVerification(c), 0);
    } else {
      Checked(w, c, n);
      var c1 := To(w, c, VerificationChecked);
      var failed := To(w, c, Failed).(lastError := "user is not verified");
      if n == 1 {
        if IsVerified(w, c.start.user) { Stopped(w, Persist(c1), 0); } else { Stopped(w, PersistUnverified(failed), 0); }
      } else if IsVerified(w, c.start.user) {
        Persisted(w, c1, n - 1);
      } else {
        UnverifiedPersisted(w, failed, n - 1);
      }
    }
  }

  lemma DebitStage(w: World, c: Saga, n: nat)
    requires Stored(w, c) && c.state.VerificationChecked?
    ensures var (b, r) := CallDebit(w.bank, c.start);
      if n >= 2 && r.Ok? then
        var c1 := To(w, c, WalletDebited).(debitId := r.value.id);
        RunFor(w, DebitWallet(c), n) == RunFor(Save(w.(bank := b), c1), ReserveLedger(c1), n - 2)
      else Stuck(RunFor(w, DebitWallet(c), n), c.start.pid)
  {
    hide RunFor, Left, CallDebit;
    if n == 0 {
      Stopped(w, DebitWallet(c), 0);
    } else {
      var (b, r) := CallDebit(w.bank, c.start);
      DebitAnswers(w, c, n);
      if r.Err? {
        Stopped(w.(bank := b), Done(Errored), n - 1);
      } else {
        var c1 := To(w, c, WalletDebited).(debitId := r.value.id);
        if n == 1 { Stopped(w.(bank := b), Persist(c1), 0); } else { Persisted(w.(bank := b), c1, n - 1); }
      }
    }
  }

  lemma ReserveStage(w: World, c: Saga, n: nat)
    requires Stored(w, c) && c.state.WalletDebited?
    ensures var (b, r) := CallReserve(w.bank, c.start);
      if n >= 2 && r.Ok? then
        var c1 := To(w, c, LedgerReserved).(reservationId := r.value.id);
        RunFor(w, ReserveLedger(c), n) == RunFor(Save(w.(bank := b), c1), Launch(c1), n - 2)
      else Stuck(RunFor(w, ReserveLedger(c), n), c.start.pid)
  {
    hide RunFor, Left, CallReserve;
    if n == 0 {
      Stopped(w, ReserveLedger(c), 0);
    } else {
      var (b, r) := CallReserve(w.bank, c.start);
      ReserveAnswers(w, c, n);
      if r.Err? {
        Stopped(w.(bank := b), Done(Errored), n - 1);
      } else {
        var c1 := To(w, c, LedgerReserved).(reservationId := r.value.id);
        if n == 1 { Stopped(w.(bank := b), Persist(c1), 0); } else { Persisted(w.(bank := b), c1, n - 1); }
      }
    }
  }

  // ----- The forward path from any stored state -----

  predicate Forward(s: State) {
    s.Started? || s.VerificationChecked? || s.WalletDebited? || s.LedgerReserved?
  }

  /** Statements and calls that are left to the launch. */
  function StepsLeft(s: State): nat
    requires Forward(s)
  {
    match s
    case Started => 7
    case VerificationChecked => 5
    case WalletDebited => 3
    case LedgerReserved => 1
  }

  /** What the rest of the path still depends on. */
  ghost predicate Ready(w: World, c: Saga)
    requires Forward(c.state)
  {
    match c.state
    case Started => IsVerified(w, c.start.user) && Chargeable(c.start) && c.start.amount > 0 && Funded(w.bank, c.start) && Reservable(w.bank, c.start)
    case VerificationChecked => Chargeable(c.start) && c.start.amount > 0 && Funded(w.bank, c.start) && Reservable(w.bank, c.start)
    case WalletDebited => Reservable(w.bank, c.start)
    case LedgerReserved => true
  }

  /** Debited and reserved, by what was there or by the calls. */
  function Paid(b: Bank, s: StartRequest): Bank {
    CallReserve(CallDebit(b, s).0, s).0
  }

  /** Launched: debited and reserved, in PAYMENT_PROCESSING, and the execution and the scoring
      requested with the row as it was reserved; nothing else has moved. */
  ghost predicate LaunchedFrom(w: World, w': World, s: StartRequest) {
    && s.pid in w.sagas && s.pid in w'.sagas && w'.sagas[s.pid].state.PaymentProcessing? && w'.sagas[s.pid].start == s
    && var row := w'.sagas[s.pid];
    && row == w.sagas[s.pid].(state := row.state, debitId := row.debitId, reservationId := row.reservationId, updatedAt := row.updatedAt)
    && w'.sagas == w.sagas[s.pid := w'.sagas[s.pid]] && w'.bank == Paid(w.bank, s) && w'.audit == w.audit
    && |w'.outbox| == |w.outbox| + 2
    && var body := w'.outbox[|w.outbox|].body;
       && w'.outbox == w.outbox + [OutboxRow(PaymentExecute, body), OutboxRow(FraudScoreRequested, body)]
       && body == w'.sagas[s.pid].(state := LedgerReserved, updatedAt := body.updatedAt)
  }

  lemma LaunchStage(w: World, c: Saga, n: nat)
    requires Stored(w, c) && c.state.LedgerReserved? && Paid(w.bank, c.start) == w.bank
    ensures var (w', h') := RunFor(w, Launch(c), n);
      if n >= 1 then h' == Done(Finished) && LaunchedFrom(w, w', c.start) else Stuck((w', h'), c.start.pid)
  {
    hide RunFor, Left, Paid;
    if n == 0 { Stopped(w, Launch(c), 0); } else { Launched(w, c, n); }
  }

  /** A debited and reserved payment is paid. */
  lemma PaidStays(w: World, p: PaymentId)
    requires WorldOk(w) && p in w.bank.debits && p in w.sagas
    ensures var s := w.sagas[p].start; Paid(w.bank, s) == CallReserve(w.bank, s).0
    ensures p in w.bank.reservations ==> Paid(w.bank, w.sagas[p].start) == w.bank
  {
    hide WorldOk, CallDebit, CallReserve;
    DebitedIsChargeable(w, p);
    DebitCallIff(w, w.sagas[p].start);
    ReserveCallIff(w, p);
  }

  lemma DebitKeepsReservable(b: Bank, s: StartRequest)
    ensures Reservable(CallDebit(b, s).0, s) == Reservable(b, s)
    ensures CallDebit(b, s).1.Ok? ==> s.pid in CallDebit(b, s).0.debits
  {
    hide NormalizeCurrency, KeyTaken, DebitForSaga;
    if s.currency != "" && NormalizeCurrency(s.currency).Ok? {
      var cmd := DebitCommand(s.pid, s.from, s.amount, "USD", StepKey(s.pid, "debit-wallet"));
      DebitAcceptedIff(b, cmd);
      if DebitForSaga(b, cmd).1.Ok? && s.pid !in b.debits { DebitWrites(b, cmd); }
    }
  }

  lemma ReserveCallWrites(b: Bank, s: StartRequest)
    ensures var (b', r) := CallReserve(b, s); b'.debits == b.debits && (r.Ok? ==> s.pid in b'.reservations)
  {
    hide NormalizeCurrency;
  }

  /** A stored row of the forward path, and what its state tells. */
  lemma ForwardRow(w: World, c: Saga)
    requires Consistent(w) && Stored(w, c) && Forward(c.state)
    ensures WorldOk(w) && w.sagas[c.start.pid].start == c.start && CopyOk(w, c) && Serial(w, Advance(c)) && HandlerOk(w, Advance(c))
    ensures c.state.WalletDebited? || c.state.LedgerReserved? ==> c.start.pid in w.bank.debits
    ensures c.state.LedgerReserved? ==> c.start.pid in w.bank.reservations
  {
    hide BankOk;
    assert PaymentOk(w, c.start.pid) && Tells(w, c.start.pid);
  }

  /** After a stage the world is consistent again. */
  lemma StageConsistent(w: World, h: Handler, w1: World, h1: Handler)
    requires Consistent(w) && Serial(w, h) && HandlerOk(w, h) && RunFor(w, h, 2) == RunFor(w1, h1, 0)
    ensures Consistent(w1)
  {
    hide RunFor, Left, Consistent, Total, Elsewhere, Serial, HandlerOk;
    RunConsistent(w, h, 2);
    Stopped(w1, h1, 0);
  }

  /** The run ends as the forward path should. */
  ghost predicate Ends(w: World, c: Saga, n: nat, end: (World, Handler))
    requires Forward(c.state)
  {
    if n >= StepsLeft(c.state) && Ready(w, c) then end.1 == Done(Finished) && LaunchedFrom(w, end.0, c.start)
    else Stuck(end, c.start.pid)
  }

  lemma ReserveEnds(w: World, c: Saga, n: nat)
    requires Consistent(w) && Stored(w, c) && c.state.WalletDebited?
    ensures Ends(w, c, n, RunFor(w, ReserveLedger(c), n))
  {
    hide RunFor, Left, Consistent, CallReserve, CallDebit, WorldOk, Serial, HandlerOk, CopyOk, Reservable;
    ForwardRow(w, c);
    ReserveCallIff(w, c.start.pid);
    PaidStays(w, c.start.pid);
    ReserveStage(w, c, n);
    var (b, r) := CallReserve(w.bank, c.start);
    if n >= 2 && r.Ok? {
      var c1 := To(w, c, LedgerReserved).(reservationId := r.value.id);
      var w1 := Save(w.(bank := b), c1);
      ReserveStage(w, c, 2);
      StageConsistent(w, ReserveLedger(c), w1, Launch(c1));
      ForwardRow(w1, c1);
      PaidStays(w1, c.start.pid);
      LaunchStage(w1, c1, n - 2);
    }
  }

  lemma DebitEnds(w: World, c: Saga, n: nat)
    requires Consistent(w) && Stored(w, c) && c.state.VerificationChecked?
    ensures Ends(w, c, n, RunFor(w, DebitWallet(c), n))
  {
    hide RunFor, Left, Consistent, CallReserve, CallDebit, WorldOk, Serial, HandlerOk, CopyOk, Reservable, Funded, Chargeable;
    ForwardRow(w, c);
    DebitCallIff(w, c.start);
    DebitKeepsReservable(w.bank, c.start);
    DebitStage(w, c, n);
    var (b, r) := CallDebit(w.bank, c.start);
    if n >= 2 && r.Ok? {
      var c1 := To(w, c, WalletDebited).(debitId := r.value.id);
      var w1 := Save(w.(bank := b), c1);
      DebitStage(w, c, 2);
      StageConsistent(w, DebitWallet(c), w1, ReserveLedger(c1));
      ForwardRow(w1, c1);
      PaidStays(w1, c.start.pid);
      ReserveEnds(w1, c1, n - 2);
    }
  }

  lemma CheckEnds(w: World, c: Saga, n: nat)
    requires Consistent(w) && Stored(w, c) && c.state.Started?
    ensures Ends(w, c, n, RunFor(w, CheckVerification(c), n))
  {
    hide RunFor, Left, Consistent, Paid, WorldOk, Serial, HandlerOk, CopyOk, Reservable, Funded, Chargeable;
    ForwardRow(w, c);
    CheckStage(w, c, n);
    if n >= 2 && IsVerified(w, c.start.user) {
      var c1 := To(w, c, VerificationChecked);
      var w1 := Save(w, c1);
      CheckStage(w, c, 2);
      StageConsistent(w, CheckVerification(c), w1, DebitWallet(c1));
      DebitEnds(w1, c1, n - 2);
    }
  }

  lemma LaunchEnds(w: World, c: Saga, n: nat)
    requires Consistent(w) && Stored(w, c) && c.state.LedgerReserved?
    ensures Ends(w, c, n, RunFor(w, Launch(c), n))
  {
    hide RunFor, Left, Consistent, Paid, WorldOk, Serial, HandlerOk, CopyOk;
    ForwardRow(w, c);
    PaidStays(w, c.start.pid);
    LaunchStage(w, c, n);
  }

  /** The forward path from any stored state of it, left alone: it launches the payment exactly when
      its remaining statements and calls succeed and the rest of its conditions hold. */
  lemma AdvanceOutcome(w: World, c: Saga, n: nat)
    requires Consistent(w) && Stored(w, c) && Forward(c.state)
    ensures Ends(w, c, n, RunFor(w, Advance(c), n))
  {
    hide RunFor, Consistent, Ends;
    match c.state
    case Started => CheckEnds(w, c, n);
    case VerificationChecked => DebitEnds(w, c, n);
    case WalletDebited => ReserveEnds(w, c, n);
    case LedgerReserved => LaunchEnds(w, c, n);
  }

  // ----- A new request -----

  /** The request can be paid: a free idempotency key, a verified user, a positive amount within the
      balance, and two different dollar wallets. */
  ghost predicate Startable(w: World, req: StartRequest) {
    && req.pid != "" && req.amount > 0 && req.currency != "" && NormalizeCurrency(req.currency).Ok?
    && (forall q | q in w.sagas :: !(w.sagas[q].start.user == req.user && w.sagas[q].start.key == req.key))
    && req.user in w.verifications && w.verifications[req.user].status.Verified?
    && req.from != NIL && req.to != NIL && req.from != req.to && req.from in w.bank.wallets && req.to in w.bank.wallets
    && w.bank.wallets[req.from].currency == "USD" && w.bank.wallets[req.to].currency == "USD"
    && req.amount <= w.bank.wallets[req.from].balance
  }

  /** The new payment is launched: PAYMENT_PROCESSING, the amount taken from its wallet and from no
      other, debited, RESERVED, and both requests in the outbox with the row as it was reserved. */
  ghost predicate LaunchedInFull(w: World, w': World, req: StartRequest) {
    var p := req.pid;
    && p in w'.sagas && w'.sagas == w.sagas[p := w'.sagas[p]]
    && var row := w'.sagas[p];
    && row == Saga(req, PaymentProcessing, "", "", row.debitId, row.reservationId, NIL, None, None, row.updatedAt)
    && req.from in w.bank.wallets && 0 < req.amount <= w.bank.wallets[req.from].balance
    && var left := w.bank.wallets[req.from].balance - req.amount;
    && w'.bank.wallets == w.bank.wallets[req.from := Wallet(w.bank.wallets[req.from].user, left, w.bank.wallets[req.from].currency)]
    && p in w'.bank.debits && p in w'.bank.reservations
    && w'.bank.debits == w.bank.debits[p := WalletOp(w'.sagas[p].debitId, StepKey(p, "debit-wallet"), req.from, req.amount, "USD", left)]
    && w'.bank.reservations == w.bank.reservations[p :=
         Reservation(w'.sagas[p].reservationId, StepKey(p, "reserve-ledger"), req.from, req.to, req.amount, "USD", Reserved, NIL, NIL)]
    && w'.bank.comps == w.bank.comps && w'.bank.transfers == w.bank.transfers && w'.bank.entries == w.bank.entries
    && |w'.outbox| == |w.outbox| + 2
    && var body := w'.sagas[p].(state := LedgerReserved, updatedAt := w'.outbox[|w.outbox|].body.updatedAt);
       w'.outbox == w.outbox + [OutboxRow(PaymentExecute, body), OutboxRow(FraudScoreRequested, body)]
  }

  lemma PaidWrites(b: Bank, s: StartRequest)
    requires s.pid !in b.debits && s.pid !in b.reservations && CallDebit(b, s).1.Ok? && CallReserve(CallDebit(b, s).0, s).1.Ok?
    ensures var b' := Paid(b, s); var p := s.pid;
      && s.from in b.wallets && 0 < s.amount <= b.wallets[s.from].balance && p in b'.debits && p in b'.reservations
      && var left := b.wallets[s.from].balance - s.amount;
      && b'.wallets == b.wallets[s.from := Wallet(b.wallets[s.from].user, left, b.wallets[s.from].currency)]
      && b'.debits == b.debits[p := WalletOp(b'.debits[p].id, StepKey(p, "debit-wallet"), s.from, s.amount, "USD", left)]
      && b'.reservations == b.reservations[p :=
           Reservation(b'.reservations[p].id, StepKey(p, "reserve-ledger"), s.from, s.to, s.amount, "USD", Reserved, NIL, NIL)]
      && b'.comps == b.comps && b'.transfers == b.transfers && b'.entries == b.entries
  {
    hide NormalizeCurrency, KeyTaken, DebitForSaga, ReserveTransfer;
    DebitAcceptedIff(b, DebitCommand(s.pid, s.from, s.amount, "USD", StepKey(s.pid, "debit-wallet")));
    DebitWrites(b, DebitCommand(s.pid, s.from, s.amount, "USD", StepKey(s.pid, "debit-wallet")));
    ReserveAcceptedIff(CallDebit(b, s).0, ReserveCommand(s.pid, StepKey(s.pid, "reserve-ledger"), s.from, s.to, s.amount, s.currency));
  }

  /** The world a new request is inserted into. */
  function Inserted(w: World, req: StartRequest): World {
    w.(sagas := w.sagas[req.pid := NewSaga(req, w.now)])
  }

  lemma StartEnters(w: World, req: StartRequest, n: nat)
    requires req.pid !in w.sagas
    ensures if n >= 1 && req.amount > 0 && !SameKey(w.sagas, req) then
              RunFor(w, Start(req), n) == RunFor(Inserted(w, req), CheckVerification(NewSaga(req, w.now)), n - 1)
            else RunFor(w, Start(req), n).0 == w && RunFor(w, Start(req), n).1 != Done(Finished)
  {
    hide RunFor, Left, SameKey;
    if n == 0 {
      Stopped(w, Start(req), 0);
    } else {
      Entered(w, Start(req), n);
      if req.amount <= 0 || SameKey(w.sagas, req) { Stopped(w, Done(Errored), n - 1); }
    }
  }

  lemma StartRunConsistent(w: World, req: StartRequest, n: nat)
    requires Consistent(w)
    ensures Consistent(RunFor(w, Start(req), n).0)
  {
    hide RunFor, Left, Consistent, Total, Elsewhere;
    RunConsistent(w, Start(req), n);
  }

  lemma InsertedConsistent(w: World, req: StartRequest)
    requires Consistent(w) && req.pid !in w.sagas && req.amount > 0 && !SameKey(w.sagas, req)
    ensures Consistent(Inserted(w, req))
  {
    hide RunFor, Left, Consistent, SameKey;
    StartEnters(w, req, 1);
    Stopped(Inserted(w, req), CheckVerification(NewSaga(req, w.now)), 0);
    StartRunConsistent(w, req, 1);
  }

  lemma NewPaymentHasNoMoney(w: World, p: PaymentId)
    requires Consistent(w) && p !in w.sagas
    ensures p !in w.bank.debits && p !in w.bank.reservations
  {
    assert Tells(w, p);
  }

  /** A request can be paid exactly when its row can be inserted and the path from it is ready. */
  lemma StartableIsReady(w: World, req: StartRequest)
    requires req.pid !in w.bank.debits && req.pid !in w.bank.reservations
    ensures Startable(w, req) <==> req.amount > 0 && !SameKey(w.sagas, req) && Ready(Inserted(w, req), NewSaga(req, w.now))
  {
    hide NormalizeCurrency;
  }

  /** A launched row names its debit and its reservation. */
  lemma LaunchedNames(w: World, p: PaymentId)
    requires Consistent(w) && Processing(w, p)
    ensures p in w.bank.debits && w.sagas[p].debitId == w.bank.debits[p].id
    ensures p in w.bank.reservations && w.sagas[p].reservationId == w.bank.reservations[p].id
  {
    hide BankOk;
    assert PaymentOk(w, p) && Tells(w, p);
  }

  lemma LaunchIsFull(w: World, w': World, req: StartRequest)
    requires WorldOk(Inserted(w, req)) && Consistent(w') && req.pid !in w.bank.debits && req.pid !in w.bank.reservations
    requires Ready(Inserted(w, req), NewSaga(req, w.now)) && LaunchedFrom(Inserted(w, req), w', req)
    ensures LaunchedInFull(w, w', req)
  {
    hide WorldOk, Consistent, CallDebit, CallReserve, Paid, NormalizeCurrency;
    DebitCallIff(Inserted(w, req), req);
    LaunchedNames(w', req.pid);
    ReservedAfterDebit(w, req);
    PaidWrites(w.bank, req);
  }

  lemma ReservedAfterDebit(w: World, req: StartRequest)
    requires WorldOk(Inserted(w, req)) && CallDebit(w.bank, req).1.Ok? && Reservable(w.bank, req)
    requires req.pid !in w.bank.reservations
    ensures CallReserve(CallDebit(w.bank, req).0, req).1.Ok?
  {
    hide WorldOk, NormalizeCurrency, KeyTaken, DebitForSaga, ReserveTransfer;
    DebitCallIff(Inserted(w, req), req);
    DebitKeepsReservable(w.bank, req);
    DebitKeepsReservations(w.bank, req);
    StepKeyIsSome(req.pid, "reserve-ledger");
    ReserveAcceptedIff(CallDebit(w.bank, req).0, ReserveCommand(req.pid, StepKey(req.pid, "reserve-ledger"), req.from, req.to, req.amount, req.currency));
  }

  lemma DebitKeepsReservations(b: Bank, s: StartRequest)
    ensures CallDebit(b, s).0.reservations == b.reservations
  {
    hide NormalizeCurrency, KeyTaken;
  }

  /** A new request, left alone: it succeeds, and launches the payment in full, exactly when the
      request can be paid and its eight statements and calls succeed. */
  lemma StartOutcome(w: World, req: StartRequest, n: nat)
    requires Consistent(w) && req.pid !in w.sagas
    ensures var (w', h') := RunFor(w, Start(req), n);
      && (h' == Done(Finished) <==> n >= 8 && Startable(w, req))
      && (LaunchedInFull(w, w', req) <==> n >= 8 && Startable(w, req))
      && (Processing(w', req.pid) <==> n >= 8 && Startable(w, req))
  {
    hide RunFor, Left, Consistent, Startable, Ready, LaunchedFrom, SameKey, WorldOk;
    NewPaymentHasNoMoney(w, req.pid);
    StartEnters(w, req, n);
    StartableIsReady(w, req);
    if n >= 1 && req.amount > 0 && !SameKey(w.sagas, req) {
      var c := NewSaga(req, w.now);
      InsertedConsistent(w, req);
      ConsistentWorld(Inserted(w, req));
      CheckEnds(Inserted(w, req), c, n - 1);
      StartRunConsistent(w, req, n);
      if n >= 8 && Ready(Inserted(w, req), c) { LaunchIsFull(w, RunFor(w, Start(req), n).0, req); }
    }
  }

  /** An unverified user's new request is refused for good, before any money moves. */
  lemma UnverifiedOutcome(w: World, req: StartRequest, n: nat)
    requires req.pid !in w.sagas && req.amount > 0 && !SameKey(w.sagas, req) && !IsVerified(w, req.user) && n >= 3
    ensures var (w', h') := RunFor(w, Start(req), n);
      && h' == Done(Unverified) && w'.bank == w.bank && w'.outbox == w.outbox && req.pid in w'.sagas
      && w'.sagas[req.pid].state.Failed? && w'.sagas[req.pid].start == req && w'.sagas[req.pid].lastError == "user is not verified"
  {
    hide RunFor, Left, SameKey;
    var c := NewSaga(req, w.now);
    StartEnters(w, req, n);
    Checked(Inserted(w, req), c, n - 1);
    UnverifiedPersisted(Inserted(w, req), To(w, c, Failed).(lastError := "user is not verified"), n - 2);
  }

  /** A request for a payment that exists: the same one again is answered as done once it is under
      way, a different one under the same payment id, or a new payment under a key the user already
      used, is refused; none of them changes anything. */
  lemma RepeatedStart(w: World, req: StartRequest, n: nat)
    requires n >= 1
    requires if req.pid in w.sagas then w.sagas[req.pid].start != req || !w.sagas[req.pid].state.Started? else SameKey(w.sagas, req)
    ensures var (w', h') := RunFor(w, Start(req), n);
      w' == w && h' == Done(if req.pid in w.sagas && w.sagas[req.pid].start == req && req.amount > 0 then Finished else Errored)
  {
    hide RunFor, Left, SameKey;
    Entered(w, Start(req), n);
    Stopped(w, Enter(w, Start(req)).1, n - 1);
  }

  /** The same request again while the payment is only STARTED goes on with it. */
  lemma StartContinues(w: World, req: StartRequest, n: nat)
    requires Consistent(w) && req.pid in w.sagas && w.sagas[req.pid].start == req && w.sagas[req.pid].state.Started? && req.amount > 0 && n >= 1
    ensures var (w', h') := RunFor(w, Start(req), n);
      if n >= 8 && Ready(w, w.sagas[req.pid]) then h' == Done(Finished) && LaunchedFrom(w, w', req)
      else h' != Done(Finished) && !Processing(w', req.pid)
  {
    hide RunFor, Left, Consistent, Ready, LaunchedFrom;
    Entered(w, Start(req), n);
    CheckEnds(w, w.sagas[req.pid], n - 1);
  }
}
