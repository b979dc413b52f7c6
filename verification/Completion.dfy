/** A rail completion left alone: for every number of statements and calls that succeed, what it
    leaves behind. */
module Completion {
  import opened Domain
  import opened Bank
  import opened BankLaws
  import opened BankFrames
  import opened Acceptance
  import opened SagaMachine
  import opened SagaSteps
  import opened SagaInterleaved
  import opened SagaSerialised
  import opened Compensation

  /** A launched payment whose completion is not announced yet. */
  ghost predicate Completable(w: World, p: PaymentId) {
    p in w.sagas && (w.sagas[p].state.PaymentProcessing? || w.sagas[p].state.LedgerConfirmed?)
  }

  // ----- The ledger accepts -----

  lemma LaunchedMoney(w: World, p: PaymentId)
    requires Consistent(w) && (Completable(w, p) || UnderReview(w, p))
    ensures p != "" && p in w.bank.debits && p !in w.bank.comps && w.sagas[p].start.pid == p && Named(w.sagas[p])
    ensures p in w.bank.reservations && w.bank.reservations[p].id == w.sagas[p].reservationId && !w.bank.reservations[p].status.Canceled?
  {
    hide BankOk;
    assert PaymentOk(w, p) && Tells(w, p);
  }

  /** The ledger accepts the confirmation of every launched payment. */
  lemma ConfirmationAccepted(w: World, p: PaymentId)
    requires Consistent(w) && (Completable(w, p) || UnderReview(w, p))
    ensures CallConfirm(w.bank, w.sagas[p]).1.Ok?
  {
    hide BankOk, Tells, ConfirmTransfer;
    LaunchedMoney(w, p);
    var row := w.sagas[p];
    ConfirmAcceptedIff(w.bank, ConfirmCommand(p, StepKey(p, "confirm-ledger"), row.reservationId, row.debitId));
  }

  // ----- One rail completion -----

  function SettledRow(w: World, c: Saga): Saga
    requires CallConfirm(w.bank, c).1.Ok?
  {
    To(w, c, LedgerConfirmed).(transferId := CallConfirm(w.bank, c).1.value)
  }

  lemma ConfirmationStores(w: World, event: RailEvent, n: nat)
    requires Completable(w, event.pid) && w.sagas[event.pid].start.pid == event.pid && n >= 3
    requires CallConfirm(w.bank, w.sagas[event.pid]).1.Ok?
    ensures var row := w.sagas[event.pid]; var c := SettledRow(w, row);
      RunFor(w, OnCompleted(event), n) == RunFor(Save(w.(bank := CallConfirm(w.bank, row).0), c), PublishCompleted(c), n - 3)
  {
    hide RunFor, Left, CallConfirm;
    var row := w.sagas[event.pid];
    Entered(w, OnCompleted(event), n);
    ConfirmAnswers(w, row, n - 1);
    Persisted(w.(bank := CallConfirm(w.bank, row).0), SettledRow(w, row), n - 2);
  }

  lemma CompletionStores(w: World, c: Saga, n: nat)
    requires n >= 2 && c.start.pid in w.sagas && w.sagas[c.start.pid].start == c.start
    ensures RunFor(w, PublishCompleted(c), n) == (Save(Enqueued(w, TxCompleted, c), To(w, c, Completed)), Done(Finished))
  {
    hide RunFor, Left;
    var w1 := Enqueued(w, TxCompleted, c);
    CompletionPublished(w, c, n);
    Persisted(w1, To(w, c, Completed), n - 1);
    Stopped(Save(w1, To(w, c, Completed)), Done(Finished), n - 2);
  }

  lemma ConfirmSettles(b: Bank, c: Saga)
    requires CallConfirm(b, c).1.Ok?
    ensures var (b', r) := CallConfirm(b, c); var p := c.start.pid;
      && ReservationIs(b', p, Confirmed) && b'.reservations[p].transfer == r.value && b'.debits == b.debits && b'.comps == b.comps
  {
    var p := c.start.pid;
    ConfirmShape(b, ConfirmCommand(p, StepKey(p, "confirm-ledger"), c.reservationId, c.debitId));
  }

  /** The statements and calls of a completion before the row is COMPLETED. */
  lemma CompletionUnderWay(w: World, event: RailEvent, n: nat)
    requires Completable(w, event.pid) && w.sagas[event.pid].start.pid == event.pid && CallConfirm(w.bank, w.sagas[event.pid]).1.Ok? && n < 5
    ensures var (w', h') := RunFor(w, OnCompleted(event), n);
      && h' != Done(Finished) && event.pid in w'.sagas && w'.audit == w.audit
      && w'.sagas[event.pid].state == if n >= 3 then LedgerConfirmed else w.sagas[event.pid].state
  {
    hide RunFor, Left, CallConfirm;
    var row := w.sagas[event.pid];
    var (b, r) := CallConfirm(w.bank, row);
    if n == 0 {
      Stopped(w, OnCompleted(event), 0);
    } else if n == 1 {
      Entered(w, OnCompleted(event), 1);
      Stopped(w, Confirm(row), 0);
    } else if n == 2 {
      Entered(w, OnCompleted(event), n);
      ConfirmAnswers(w, row, n - 1);
      Stopped(w.(bank := b), Persist(SettledRow(w, row)), n - 2);
    } else {
      ConfirmationStores(w, event, n);
      AnnouncementWaits(Save(w.(bank := b), SettledRow(w, row)), SettledRow(w, row), n - 3);
    }
  }

  lemma AnnouncementWaits(w: World, c: Saga, n: nat)
    requires n < 2 && c.start.pid in w.sagas
    ensures var (w', h') := RunFor(w, PublishCompleted(c), n); h' != Done(Finished) && w'.sagas == w.sagas && w'.audit == w.audit
  {
    hide RunFor, Left;
    if n == 0 {
      Stopped(w, PublishCompleted(c), 0);
    } else {
      CompletionPublished(w, c, 1);
      Stopped(Enqueued(w, TxCompleted, c), Persist(To(w, c, Completed)), 0);
    }
  }

  /** Settled as it was started: its reservation is confirmed, and the transfer the row names and its
      two ledger entries carry the start amount from the one wallet to the other. */
  ghost predicate SettledInFull(w: World, p: PaymentId) {
    && p in w.sagas && p in w.bank.debits && p !in w.bank.comps && ReservationIs(w.bank, p, Confirmed)
    && var t := w.sagas[p].transferId; var start := w.sagas[p].start;
       && w.bank.reservations[p].transfer == t && t in w.bank.transfers && t !in w.bank.initiated
       && w.bank.transfers[t] == Transfer(start.from, start.to, start.amount, "USD")
       && (t, DebitSide) in w.bank.entries && w.bank.entries[(t, DebitSide)].wallet == start.from
       && (t, CreditSide) in w.bank.entries && w.bank.entries[(t, CreditSide)].wallet == start.to
       && w.bank.entries[(t, DebitSide)].amount == w.bank.entries[(t, CreditSide)].amount == start.amount
  }

  /** COMPLETED, settled in full, and announced once with that row. */
  ghost predicate CompletedInFull(w: World, w': World, p: PaymentId) {
    && p in w'.sagas && w'.sagas[p].state.Completed? && SettledInFull(w', p)
    && |w'.outbox| == |w.outbox| + 1 && w'.outbox[..|w.outbox|] == w.outbox && w'.audit == w.audit
    && var sent := w'.outbox[|w.outbox|]; sent.topic.TxCompleted? && sent.body == w'.sagas[p].(state := LedgerConfirmed)
  }

  lemma ConfirmedIsSettled(w: World, p: PaymentId)
    requires WorldOk(w) && p in w.sagas && ReservationIs(w.bank, p, Confirmed) && w.sagas[p].transferId == w.bank.reservations[p].transfer
    ensures SettledInFull(w, p)
  {
    hide MoneyOk, BackedOk;
    assert PaymentOk(w, p) && OwnsTransfer(w.bank, w.bank.reservations[p]);
  }

  lemma CompletionRunConsistent(w: World, event: RailEvent, n: nat)
    requires Consistent(w)
    ensures Consistent(RunFor(w, OnCompleted(event), n).0)
  {
    hide RunFor, Left, Consistent, Total, Elsewhere;
    RunConsistent(w, OnCompleted(event), n);
  }

  lemma CompletionLands(w: World, event: RailEvent, n: nat)
    requires Consistent(w) && Completable(w, event.pid) && CallConfirm(w.bank, w.sagas[event.pid]).1.Ok? && n >= 5
    ensures var (w', h') := RunFor(w, OnCompleted(event), n); h' == Done(Finished) && CompletedInFull(w, w', event.pid)
  {
    hide RunFor, Left, CallConfirm, Consistent, WorldOk, SettledInFull;
    var p := event.pid;
    LaunchedMoney(w, p);
    var row := w.sagas[p];
    ConfirmSettles(w.bank, row);
    ConfirmationStores(w, event, n);
    CompletionStores(Save(w.(bank := CallConfirm(w.bank, row).0), SettledRow(w, row)), SettledRow(w, row), n - 3);
    var w' := RunFor(w, OnCompleted(event), n).0;
    CompletionRunConsistent(w, event, n);
    ConsistentWorld(w');
    ConfirmedIsSettled(w', p);
  }

  /** A rail completion of a launched payment, delivered or redelivered: it succeeds, and completes
      the payment in full, exactly when its five statements and calls succeed; the ledger never
      refuses it. From the third on the row is LEDGER_CONFIRMED. */
  lemma CompletionOutcome(w: World, event: RailEvent, n: nat)
    requires Consistent(w) && Completable(w, event.pid)
    ensures var (w', h') := RunFor(w, OnCompleted(event), n);
      && (h' == Done(Finished) <==> n >= 5)
      && (CompletedInFull(w, w', event.pid) <==> n >= 5)
      && event.pid in w'.sagas
      && w'.sagas[event.pid].state == if n >= 5 then Completed else if n >= 3 then LedgerConfirmed else w.sagas[event.pid].state
  {
    hide RunFor, Left, CallConfirm, Consistent, SettledInFull;
    LaunchedMoney(w, event.pid);
    ConfirmationAccepted(w, event.pid);
    if n >= 5 { CompletionLands(w, event, n); } else { CompletionUnderWay(w, event, n); }
  }

  /** A rail result of an unknown payment is refused and changes nothing. */
  lemma UnknownPaymentRefused(w: World, event: RailEvent, n: nat)
    requires event.pid !in w.sagas && n >= 1
    ensures RunFor(w, OnCompleted(event), n) == (w, Done(Errored)) && RunFor(w, OnFailed(event), n) == (w, Done(Errored))
  {
    hide RunFor, Left;
    Entered(w, OnCompleted(event), n);
    Entered(w, OnFailed(event), n);
    Stopped(w, Done(Errored), n - 1);
  }
}
