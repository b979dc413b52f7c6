/** Startup recovery: a loop over every open payment that stops at the first error. */
module Recovery {
  import opened Domain
  import opened Bank
  import opened BankLaws
  import opened SagaMachine
  import opened SagaSteps
  import opened SagaInterleaved
  import opened SagaSerialised
  import opened Compensation
  import opened Reaper
  import opened Completion
  import L = Launching

  /** The recovery loop: the world it leaves, and whether it got through the list. */
  function ResumeAll(w: World, rows: seq<Saga>, fate: PaymentId -> nat): (World, bool)
    decreases rows
  {
    if rows == [] then (w, true)
    else
      var (w1, h1) := RunFor(w, Resumption(rows[0]), fate(rows[0].start.pid));
      if h1 == Done(Finished) then ResumeAll(w1, rows[1..], fate) else (w1, false)
  }

  /** Nothing is left for recovery to do. */
  predicate Quiet(s: State) {
    s.PaymentProcessing? || s.FraudReview? || Terminal(s)
  }

  ghost predicate Recovering(h: Handler) {
    h.CheckVerification? || h.DebitWallet? || h.ReserveLedger? || h.Launch? || h.PublishCompleted? || h.CancelLedger?
    || h.Compensate? || h.PublishFailed? || h.Persist? || h.PersistUnverified?
  }

  /** A recovery handler of `p` that still runs, or ended, and then only with nothing left to do. */
  ghost predicate Settling(w: World, h: Handler, p: PaymentId) {
    if h.Done? then (h == Done(Finished) ==> p in w.sagas && Quiet(w.sagas[p].state)) else Recovering(h) && h.Pid() == p
  }

  lemma CallSettles(w: World, h: Handler)
    requires h.DebitWallet? || h.ReserveLedger? || h.CancelLedger? || h.Compensate? || h.CheckVerification? || h.PublishCompleted?
    requires h.cur.start.pid in w.sagas
    ensures var (w', h') := Exec(w, h); Settling(w', h', h.cur.start.pid)
  {
    hide CallDebit, CallReserve, CallCancel, CallCompensate;
  }

  lemma StoreSettles(w: World, h: Handler)
    requires h.Launch? || h.PublishFailed? || h.Persist? || h.PersistUnverified?
    requires Serial(w, h) && w.sagas[h.cur.start.pid].start == h.cur.start
    ensures var (w', h') := Exec(w, h); Settling(w', h', h.cur.start.pid)
  {
  }

  lemma {:induction false} RunSettles(w: World, h: Handler, n: nat, p: PaymentId)
    requires Consistent(w) && Serial(w, h) && HandlerOk(w, h) && Settling(w, h, p)
    ensures var (w', h') := RunFor(w, h, n); Settling(w', h', p)
    decreases n
  {
    hide Exec, Consistent, Elsewhere;
    if n > 0 && !h.Done? {
      if h.Launch? || h.PublishFailed? || h.Persist? || h.PersistUnverified? { StoreSettles(w, h); } else { CallSettles(w, h); }
      ExecConsistent(w, h);
      var (w1, h1) := Exec(w, h);
      RunSettles(w1, h1, n - 1, p);
    }
  }

  lemma ResumptionStarts(w: World, row: Saga)
    requires Consistent(w) && row.start.pid in w.sagas && w.sagas[row.start.pid] == row
    ensures var h := Resumption(row); Serial(w, h) && HandlerOk(w, h) && Settling(w, h, row.start.pid) && (h.Done? || h.Pid() == row.start.pid)
  {
    hide BankOk, Tells;
    assert PaymentOk(w, row.start.pid);
  }

  /** One payment of the loop. */
  lemma ResumeStep(w: World, row: Saga, n: nat)
    requires Consistent(w) && row.start.pid in w.sagas && w.sagas[row.start.pid] == row
    ensures var (w1, h1) := RunFor(w, Resumption(row), n);
      && Consistent(w1) && Elsewhere(w, w1, row.start.pid) && Total(w1.bank) == Total(w.bank)
      && (h1 == Done(Finished) ==> row.start.pid in w1.sagas && Quiet(w1.sagas[row.start.pid].state))
  {
    hide RunFor, Left, Consistent, Elsewhere, Total, Serial, HandlerOk;
    var h := Resumption(row);
    ResumptionStarts(w, row);
    RunSettles(w, h, n, row.start.pid);
    if h.Done? { Stopped(w, h, n); ElsewhereReflexive(w, row.start.pid); } else { RunConsistent(w, h, n); }
  }

  /** After recovery got through its list, payment `p` is quiet if it was listed, and has not
      been touched if it was not; and the world is consistent however recovery ended. */
  lemma {:induction false} ResumeAllAt(w: World, rows: seq<Saga>, fate: PaymentId -> nat, p: PaymentId)
    requires Consistent(w) && Listed(w, rows)
    ensures var (w', ok) := ResumeAll(w, rows, fate);
      && Consistent(w') && Total(w'.bank) == Total(w.bank)
      && ((forall i | 0 <= i < |rows| :: rows[i].start.pid != p) ==> SameFor(w, w', p))
      && (ok ==> forall i | 0 <= i < |rows| && rows[i].start.pid == p :: p in w'.sagas && Quiet(w'.sagas[p].state))
    decreases rows
  {
    hide RunFor, Left, Consistent, Total, Elsewhere, Quiet;
    if rows != [] {
      var q := rows[0].start.pid;
      ResumeStep(w, rows[0], fate(q));
      var w1 := RunFor(w, Resumption(rows[0]), fate(q)).0;
      StillListed(w, w1, rows);
      ResumeAllAt(w1, rows[1..], fate, p);
      if q != p { ElsewhereSameFor(w, w1, q, p); }
    }
  }

  /** Serialised setting, no interference. A recovery that reports no error leaves every
      payment under processing, in review, completed or failed; and it leaves payments that
      had already ended as they were, error or not. */
  lemma RecoverySettlesEverything(w: World, rows: seq<Saga>, fate: PaymentId -> nat)
    requires Consistent(w) && ListsOpen(w, rows)
    ensures var (w', ok) := ResumeAll(w, rows, fate);
      && Consistent(w')
      && (ok ==> forall p | p in w'.sagas :: Quiet(w'.sagas[p].state))
      && (forall p | p in w.sagas && w.sagas[p] !in rows :: SameFor(w, w', p))
  {
    hide RunFor, Left, ResumeAll, Total, Elsewhere, SameFor;
    var (w', ok) := ResumeAll(w, rows, fate);
    ResumeAllAt(w, rows, fate, "");
    forall p
      ensures (ok && p in w'.sagas ==> Quiet(w'.sagas[p].state))
      ensures p in w.sagas && w.sagas[p] !in rows ==> SameFor(w, w', p)
    {
      assert PaymentOk(w, p);
      ResumeAllAt(w, rows, fate, p);
      if i :| 0 <= i < |rows| && rows[i].start.pid == p {
        assert rows[i] == w.sagas[p];
      } else {
        SameRow(w, w', p);
      }
    }
  }

  lemma SameRow(w: World, w': World, p: PaymentId)
    requires SameFor(w, w', p)
    ensures (p in w'.sagas <==> p in w.sagas) && (p in w.sagas ==> w'.sagas[p] == w.sagas[p])
  {
  }

  // ----- One payment, left alone -----

  lemma RecoverReads(w: World, p: PaymentId, n: nat)
    requires p in w.sagas
    ensures if n == 0 then RunFor(w, Recover(p), n) == (w, Recover(p)) else RunFor(w, Recover(p), n) == RunFor(w, Resumption(w.sagas[p]), n - 1)
  {
    hide RunFor, Left;
    if n == 0 { Stopped(w, Recover(p), 0); } else { Entered(w, Recover(p), n); }
  }

  lemma RowsNameThemselves(w: World, p: PaymentId)
    requires Consistent(w) && p in w.sagas
    ensures w.sagas[p].start.pid == p
  {
    hide BankOk, Tells;
    assert PaymentOk(w, p);
  }

  /** A payment on its forward path is launched by a recovery exactly when the statements and calls
      that are left succeed and what the rest of the path depends on holds. */
  lemma RecoveryLaunches(w: World, p: PaymentId, n: nat)
    requires Consistent(w) && p in w.sagas && L.Forward(w.sagas[p].state)
    ensures var (w', h') := RunFor(w, Recover(p), n); var row := w.sagas[p];
      if n >= 1 + L.StepsLeft(row.state) && L.Ready(w, row) then h' == Done(Finished) && L.LaunchedFrom(w, w', row.start)
      else h' != Done(Finished) && !Processing(w', p)
  {
    hide RunFor, Consistent, L.Ready, L.LaunchedFrom;
    RowsNameThemselves(w, p);
    RecoverReads(w, p, n);
    if n > 0 { L.AdvanceOutcome(w, w.sagas[p], n - 1); }
  }

  /** A payment confirmed and stored so before a crash is completed by a recovery exactly when its
      three statements succeed. */
  lemma RecoveryCompletes(w: World, p: PaymentId, n: nat)
    requires Consistent(w) && p in w.sagas && w.sagas[p].state.LedgerConfirmed?
    ensures var (w', h') := RunFor(w, Recover(p), n);
      && (h' == Done(Finished) <==> n >= 3) && p in w'.sagas && (w'.sagas[p].state.Completed? <==> n >= 3)
      && (n >= 3 ==> w'.sagas == w.sagas[p := To(w, w.sagas[p], Completed)] && w'.bank == w.bank
                     && w'.outbox == w.outbox + [OutboxRow(TxCompleted, w.sagas[p])])
  {
    hide RunFor, Left, Consistent;
    RowsNameThemselves(w, p);
    RecoverReads(w, p, n);
    var c := w.sagas[p];
    if n >= 3 { CompletionStores(w, c, n - 1); } else if n >= 1 { AnnouncementWaits(w, c, n - 1); }
  }

  /** A compensation interrupted by a crash is finished by a recovery: FAILED, refunded in full, with
      the code and message it was begun with, exactly when what is left of it succeeds and, before
      the cancellation, the payment was not settled. */
  lemma RecoveryCompensates(w: World, p: PaymentId, n: nat)
    requires Consistent(w) && Total(w.bank) <= MAX_INT64 && p in w.sagas && w.sagas[p].reservationId != NIL && p in w.bank.debits
    requires w.sagas[p].state.CompensatingLedger? || w.sagas[p].state.CompensatingWallet?
    ensures var (w', h') := RunFor(w, Recover(p), n); var row := w.sagas[p];
      var needed := if row.state.CompensatingLedger? then 5 else 3;
      && (FailedInFull(w', p, row.failureCode, row.lastError) <==> n >= needed && !ReservationIs(w.bank, p, Confirmed))
      && (h' == Done(Finished) <==> n >= needed + 1 && !ReservationIs(w.bank, p, Confirmed))
  {
    hide RunFor, Left, Consistent, Total, AnnouncedOnly, Refunds, Compensating, WorldOk, Serial, CopyOk;
    RowsNameThemselves(w, p);
    RecoverReads(w, p, n);
    var c := w.sagas[p];
    if c.state.CompensatingWallet? { RefundStart(w, c); }
    if n > 0 {
      if c.state.CompensatingLedger? {
        StoredIsCompensating(w, c);
        CompensationOutcome(w, c, n - 1);
      } else {
        RefundOutcome(w, c, n - 1);
      }
    }
  }
}
