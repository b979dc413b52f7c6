/** What one handler leaves behind when it is left alone: the outcome of a rail failure and of a
    rejected review, for every number of statements and calls that succeed. */
module Compensation {
  import opened Domain
  import opened Bank
  import opened BankLaws
  import opened BankFrames
  import opened Acceptance
  import opened SagaMachine
  import opened SagaSteps
  import opened SagaInterleaved
  import opened SagaSerialised
  import opened SagaMoney
  import opened ForwardPath

  // ----- Consistent worlds -----

  ghost predicate Consistent(w: World) {
    WorldOk(w) && forall p :: Tells(w, p)
  }

  /** Every state that the serialised setting reaches is consistent, with the money it began with. */
  lemma SerialRunsAreConsistent(s: System, ls: seq<Label>)
    requires Initial(s) && SerialRun(s, ls)
    ensures Consistent(TakeAll(s, ls).w) && Total(TakeAll(s, ls).w.bank) == Total(s.w.bank)
  {
    hide Total;
    InitialTells(s);
    RunTells(s, ls);
    MoneyIsConserved(s, ls);
  }

  /** Payment `p` has the same rows in both. */
  ghost predicate SameFor(w: World, w': World, p: PaymentId) {
    && (p in w'.sagas <==> p in w.sagas) && (p in w.sagas ==> w'.sagas[p] == w.sagas[p])
    && (p in w'.bank.debits <==> p in w.bank.debits) && (p in w.bank.debits ==> w'.bank.debits[p] == w.bank.debits[p])
    && (p in w'.bank.comps <==> p in w.bank.comps) && (p in w.bank.comps ==> w'.bank.comps[p] == w.bank.comps[p])
    && (p in w'.bank.reservations <==> p in w.bank.reservations)
    && (p in w.bank.reservations ==> w'.bank.reservations[p] == w.bank.reservations[p])
  }

  lemma ElsewhereSameFor(w: World, w': World, p: PaymentId, q: PaymentId)
    requires Elsewhere(w, w', p) && q != p
    ensures SameFor(w, w', q)
  {
    SameAt(w.sagas, w'.sagas, p, q);
    SameAt(w.bank.debits, w'.bank.debits, p, q);
    SameAt(w.bank.comps, w'.bank.comps, p, q);
    SameAt(w.bank.reservations, w'.bank.reservations, p, q);
  }

  lemma ElsewhereReflexive(w: World, p: PaymentId)
    ensures Elsewhere(w, w, p)
  {
  }

  lemma ElsewhereTransitive(w: World, w': World, w'': World, p: PaymentId)
    requires Elsewhere(w, w', p) && Elsewhere(w', w'', p)
    ensures Elsewhere(w, w'', p)
  {
  }

  lemma ExecConsistent(w: World, h: Handler)
    requires Consistent(w) && Serial(w, h) && HandlerOk(w, h)
    ensures var (w', h') := Exec(w, h);
      && Consistent(w') && Serial(w', h') && HandlerOk(w', h') && Elsewhere(w, w', h.Pid()) && (h'.Done? || h'.Pid() == h.Pid())
  {
    assert PaymentOk(w, h.Pid()) && Tells(w, h.Pid());
    ExecKeeps(w, h);
    ExecTells(w, h);
    var w' := Exec(w, h).0;
    forall q ensures Tells(w', q) {
      if q != h.Pid() { TellsElsewhere(w, w', h.Pid(), q); }
    }
  }

  lemma ExecTotal(w: World, h: Handler)
    requires Consistent(w) && Serial(w, h)
    ensures Total(Exec(w, h).0.bank) == Total(w.bank)
  {
    if !h.HasCopy() {
      EntryIssuesNothing(w, h);
    } else {
      StepIssues(w, h);
      if CommandOf(h).Some? { CommandConserves(w.bank, CommandOf(h).value); }
    }
  }

  /** However long one handler runs, it leaves a consistent world, and every other payment alone. */
  lemma {:induction false} RunConsistent(w: World, h: Handler, n: nat)
    requires Consistent(w) && Serial(w, h) && HandlerOk(w, h)
    ensures var w' := RunFor(w, h, n).0; Consistent(w') && Elsewhere(w, w', h.Pid()) && Total(w'.bank) == Total(w.bank)
    decreases n
  {
    hide Exec, Consistent, Elsewhere, Serial, HandlerOk, Total;
    ElsewhereReflexive(w, h.Pid());
    if n > 0 && !h.Done? {
      var (w1, h1) := Exec(w, h);
      ExecConsistent(w, h);
      ExecTotal(w, h);
      RunConsistent(w1, h1, n - 1);
      var w' := RunFor(w1, h1, n - 1).0;
      if h1.Done? { Stopped(w1, h1, n - 1); } else { ElsewhereTransitive(w, w1, w', h.Pid()); }
    }
  }

  // ----- One rejection -----

  lemma StepKeyInjective(p: PaymentId, q: PaymentId, step: string)
    requires StepKey(p, step) == StepKey(q, step)
    ensures p == q
  {
    assert StepKey(p, step)[..|p|] == p;
    assert StepKey(q, step)[..|q|] == q;
  }

  lemma RefundKeyFree(w: World, p: PaymentId)
    requires WorldOk(w) && p !in w.bank.comps
    ensures !KeyTaken(w.bank.comps, StepKey(p, "compensate-wallet"))
  {
    forall q | q in w.bank.comps ensures w.bank.comps[q].key != StepKey(p, "compensate-wallet") {
      assert PaymentOk(w, q);
      if w.bank.comps[q].key == StepKey(p, "compensate-wallet") { StepKeyInjective(p, q, "compensate-wallet"); }
    }
  }

  lemma RoomToRefund(b: Bank, p: PaymentId)
    requires BankOk(b) && Total(b) <= MAX_INT64 && p in b.debits && p !in b.comps
    ensures var d := b.debits[p]; d.amount > 0 && d.wallet in b.wallets && 0 <= b.wallets[d.wallet].balance
    ensures b.wallets[b.debits[p].wallet].balance + b.debits[p].amount <= MAX_INT64
  {
    CreditsNeverOverflow(b, []);
    assert Run(b, []) == b;
    assert p in Run(b, []).debits && p !in Run(b, []).comps;
  }

  lemma CompensationKeyIsSome(p: PaymentId)
    ensures StepKey(p, "compensate-wallet") != ""
  {
    assert |StepKey(p, "compensate-wallet")| > |p|;
  }

  /** A debited payment can be refunded, again too, while the money fits the wallets. */
  lemma RefundSucceeds(w: World, c: Saga)
    requires WorldOk(w) && Total(w.bank) <= MAX_INT64 && CopyOk(w, c) && c.start.pid in w.bank.debits
    ensures CallCompensate(w.bank, c).1.Ok?
  {
    hide NormalizeCurrency, CompensateDebit, KeyTaken, Total;
    var p := c.start.pid;
    assert PaymentOk(w, p);
    NormalizeIsIdempotent(c.start.currency);
    CompensationKeyIsSome(p);
    if p !in w.bank.comps {
      RefundKeyFree(w, p);
      RoomToRefund(w.bank, p);
    }
    CompensationAcceptedIff(w.bank, CompensateCommand(
      p, c.start.from, c.debitId, c.start.amount, NormalizeCurrency(c.start.currency).value, StepKey(p, "compensate-wallet")));
  }

  lemma CancelSucceeds(w: World, c: Saga)
    requires WorldOk(w) && CopyOk(w, c) && c.reservationId != NIL
    ensures CallCancel(w.bank, c).1.Ok? <==> !ReservationIs(w.bank, c.start.pid, Confirmed)
  {
    assert PaymentOk(w, c.start.pid);
  }

  /** The row a rejection stores first. */
  function Rejecting(row: Saga, d: ReviewDecision, now: int): Saga {
    row.(state := CompensatingLedger, failureCode := "fraud_rejected", lastError := RejectReason(d.reason), updatedAt := now)
  }

  function AfterReject(w: World, d: ReviewDecision): World
    requires d.pid in w.sagas && w.sagas[d.pid].start.pid == d.pid
  {
    Audited(Save(w, Rejecting(w.sagas[d.pid], d, w.now)), ReviewAudit(ReviewRejected, d, w.now))
  }

  lemma RejectStores(w: World, d: ReviewDecision, n: nat)
    requires d.pid in w.sagas && w.sagas[d.pid].start.pid == d.pid && w.sagas[d.pid].state.FraudReview? && n >= 2
    ensures RunFor(w, OnReject(d), n) == RunFor(AfterReject(w, d), CancelLedger(Rejecting(w.sagas[d.pid], d, w.now)), n - 2)
  {
    hide RunFor, Left;
    var c := Rejecting(w.sagas[d.pid], d, w.now);
    Entered(w, OnReject(d), n);
    RejectedPersisted(w, c, ReviewAudit(ReviewRejected, d, w.now), n - 1);
  }

  function AfterCancel(w: World, c: Saga): World
    requires c.start.pid in w.sagas
  {
    Save(w.(bank := CallCancel(w.bank, c).0), To(w, c, CompensatingWallet))
  }

  lemma CancelStores(w: World, c: Saga, n: nat)
    requires c.start.pid in w.sagas && w.sagas[c.start.pid].start == c.start && CallCancel(w.bank, c).1.Ok? && n >= 2
    ensures RunFor(w, CancelLedger(c), n) == RunFor(AfterCancel(w, c), Compensate(To(w, c, CompensatingWallet)), n - 2)
  {
    hide RunFor, Left, CallCancel;
    CancelAnswers(w, c, n);
    Persisted(w.(bank := CallCancel(w.bank, c).0), To(w, c, CompensatingWallet), n - 1);
  }

  function AfterRefund(w: World, c: Saga): World
    requires c.start.pid in w.sagas
  {
    Save(w.(bank := CallCompensate(w.bank, c).0), To(w, c, Failed))
  }

  lemma RefundStores(w: World, c: Saga, n: nat)
    requires c.start.pid in w.sagas && w.sagas[c.start.pid].start == c.start && CallCompensate(w.bank, c).1.Ok? && n >= 2
    ensures RunFor(w, Compensate(c), n) == RunFor(AfterRefund(w, c), PublishFailed(To(w, c, Failed)), n - 2)
  {
    hide RunFor, Left, CallCompensate;
    CompensateAnswers(w, c, n);
    Persisted(w.(bank := CallCompensate(w.bank, c).0), To(w, c, Failed), n - 1);
  }

  ghost predicate UnderReview(w: World, p: PaymentId) {
    p in w.sagas && w.sagas[p].state.FraudReview?
  }

  lemma RejectRunConsistent(w: World, d: ReviewDecision, n: nat)
    requires Consistent(w)
    ensures var w' := RunFor(w, OnReject(d), n).0; Consistent(w') && Elsewhere(w, w', d.pid) && Total(w'.bank) == Total(w.bank)
  {
    hide RunFor, Left, Consistent, Total, Elsewhere;
    RunConsistent(w, OnReject(d), n);
  }

  lemma AfterRejectConsistent(w: World, d: ReviewDecision)
    requires Consistent(w) && UnderReview(w, d.pid) && w.sagas[d.pid].start.pid == d.pid
    ensures Consistent(AfterReject(w, d))
  {
    hide RunFor, Left, Total, Consistent, Elsewhere, AfterReject;
    RejectStores(w, d, 2);
    Stopped(AfterReject(w, d), CancelLedger(Rejecting(w.sagas[d.pid], d, w.now)), 0);
    RejectRunConsistent(w, d, 2);
  }

  /** After the decision is stored the reservation can be cancelled unless it is confirmed. */
  lemma DecisionStored(w: World, d: ReviewDecision)
    requires Consistent(w) && UnderReview(w, d.pid)
    ensures w.sagas[d.pid].start.pid == d.pid
    ensures var w1 := AfterReject(w, d); var c1 := Rejecting(w.sagas[d.pid], d, w.now);
      && Consistent(w1) && w1.bank == w.bank && CopyOk(w1, c1) && Serial(w1, CancelLedger(c1)) && c1.start.pid == d.pid
      && (CallCancel(w1.bank, c1).1.Ok? <==> ReservationIs(w.bank, d.pid, Reserved))
  {
    hide CallCancel, Tells, BankOk;
    assert PaymentOk(w, d.pid);
    ReviewMoney(w, d.pid);
    AfterRejectConsistent(w, d);
    var c1 := Rejecting(w.sagas[d.pid], d, w.now);
    ReviewHasReservation(w, d.pid);
    CancelSucceeds(AfterReject(w, d), c1);
  }

  /** What the review of `p` tells about its money. */
  lemma ReviewMoney(w: World, p: PaymentId)
    requires Consistent(w) && UnderReview(w, p)
    ensures p in w.bank.debits && p !in w.bank.comps && (ReservationIs(w.bank, p, Reserved) || ReservationIs(w.bank, p, Confirmed))
  {
    assert PaymentOk(w, p) && Tells(w, p);
  }

  lemma ReviewHasReservation(w: World, p: PaymentId)
    requires Consistent(w) && UnderReview(w, p)
    ensures w.sagas[p].reservationId != NIL
  {
    assert Tells(w, p);
  }

  lemma CancelOpens(w: World, c: Saga)
    requires Consistent(w) && Serial(w, CancelLedger(c)) && CopyOk(w, c) && CallCancel(w.bank, c).1.Ok?
    ensures var w2 := AfterCancel(w, c); var c2 := To(w, c, CompensatingWallet);
      && Consistent(w2) && Serial(w2, Compensate(c2)) && CopyOk(w2, c2) && Total(w2.bank) == Total(w.bank)
      && w2.bank.debits == w.bank.debits && w2.bank.comps == w.bank.comps && ReservationIs(w2.bank, c.start.pid, Canceled)
  {
    hide RunFor, Left, Total, CancelReservation;
    CancelShape(w.bank, CancelCommand(c.start.pid, StepKey(c.start.pid, "cancel-ledger"), c.reservationId));
    var w2 := AfterCancel(w, c);
    var c2 := To(w, c, CompensatingWallet);
    CancelStores(w, c, 2);
    Stopped(w2, Compensate(c2), 0);
    RunConsistent(w, CancelLedger(c), 2);
    assert PaymentOk(w2, c.start.pid) && Tells(w2, c.start.pid);
  }

  lemma RefundLands(w: World, c: Saga)
    requires Consistent(w) && Serial(w, Compensate(c)) && CopyOk(w, c) && CallCompensate(w.bank, c).1.Ok?
    ensures var w3 := AfterRefund(w, c);
      && c.start.pid in w3.sagas && w3.sagas[c.start.pid] == To(w, c, Failed) && c.start.pid in w3.bank.comps
      && w3.bank.reservations == w.bank.reservations && w3.bank.debits == w.bank.debits
  {
    CallCompensateShape(w.bank, c);
  }

  /** Failed with this code and message, and given back in full. */
  ghost predicate FailedInFull(w: World, p: PaymentId, code: string, message: string) {
    && p in w.sagas && w.sagas[p].state.Failed? && w.sagas[p].failureCode == code && w.sagas[p].lastError == message
    && ReservationIs(w.bank, p, Canceled) && p in w.bank.debits && p in w.bank.comps && Refunds(w.bank.comps[p], w.bank.debits[p])
  }

  /** The message a rejection stores: the reason without the blanks around it, and a default for a
      blank one. */
  ghost predicate SaysReason(reason: string, message: string) {
    if Blank(reason) then message == "rejected in fraud review"
    else exists i, j | 0 <= i < j <= |reason| ::
      && Blank(reason[..i]) && Blank(reason[j..]) && !IsBlank(reason[i]) && !IsBlank(reason[j - 1]) && message == reason[i..j]
  }

  lemma RejectionSaysReason(reason: string)
    ensures SaysReason(reason, RejectReason(reason))
  {
    TrimOfBlank(reason);
    if !Blank(reason) {
      var i := TrimLeftSplits(reason);
      var k := TrimRightSplits(reason[i..]);
      assert reason[i..][..k] == reason[i..i + k] && reason[i..][k..] == reason[i + k..];
      assert k > 0 ==> reason[i..][k - 1] == reason[i + k - 1];
    }
  }

  ghost predicate RejectedInFull(w: World, p: PaymentId, reason: string) {
    p in w.sagas && SaysReason(reason, w.sagas[p].lastError) && FailedInFull(w, p, "fraud_rejected", w.sagas[p].lastError)
  }

  /** Its failure is announced, and that is all the outbox and the audit trail gained. */
  ghost predicate AnnouncedOnly(w: World, w': World, p: PaymentId) {
    p in w'.sagas && w'.outbox == w.outbox + [OutboxRow(TxFailed, w'.sagas[p])] && w'.audit == w.audit
  }

  /** From the stored COMPENSATING_LEDGER to the stored FAILED. */
  lemma CompensationLands(w: World, c: Saga, n: nat)
    requires Consistent(w) && Serial(w, CancelLedger(c)) && CopyOk(w, c) && CallCancel(w.bank, c).1.Ok? && n >= 4
    requires Total(w.bank) <= MAX_INT64 && c.start.pid in w.bank.debits
    ensures var w2 := AfterCancel(w, c); var c2 := To(w, c, CompensatingWallet); c2.start.pid in w2.sagas
    ensures var w2 := AfterCancel(w, c); var c2 := To(w, c, CompensatingWallet); var w3 := AfterRefund(w2, c2);
      && RunFor(w, CancelLedger(c), n) == RunFor(w3, PublishFailed(To(w2, c2, Failed)), n - 4)
      && c.start.pid in w3.sagas && w3.sagas[c.start.pid] == To(w2, c2, Failed) && w3.outbox == w.outbox && w3.audit == w.audit
      && ReservationIs(w3.bank, c.start.pid, Canceled) && c.start.pid in w3.bank.comps
  {
    hide RunFor, Left, Total, CallCancel, CallCompensate, Consistent;
    var w2 := AfterCancel(w, c);
    var c2 := To(w, c, CompensatingWallet);
    CancelOpens(w, c);
    ConsistentWorld(w2);
    RefundSucceeds(w2, c2);
    CancelStores(w, c, n);
    RefundStores(w2, c2, n - 2);
    RefundLands(w2, c2);
  }

  lemma ConsistentWorld(w: World)
    requires Consistent(w)
    ensures WorldOk(w)
  {
  }

  /** A stored COMPENSATING_LEDGER of a debited payment with a reservation. */
  ghost predicate Compensating(w: World, c: Saga) {
    && c.start.pid in w.sagas && Consistent(w) && Serial(w, CancelLedger(c)) && CopyOk(w, c) && c.reservationId != NIL
    && c.start.pid in w.bank.debits
  }

  lemma StoredIsCompensating(w: World, c: Saga)
    requires Consistent(w) && c.start.pid in w.sagas && w.sagas[c.start.pid] == c && c.state.CompensatingLedger?
    requires c.reservationId != NIL && c.start.pid in w.bank.debits
    ensures Compensating(w, c)
  {
    hide BankOk, Tells;
    assert PaymentOk(w, c.start.pid);
  }

  lemma RunEndsConsistent(w: World, c: Saga, n: nat)
    requires Compensating(w, c)
    ensures Consistent(RunFor(w, CancelLedger(c), n).0)
  {
    hide RunFor, Left, Consistent, Total, Elsewhere;
    RunConsistent(w, CancelLedger(c), n);
  }

  lemma RefundIsFull(w: World, p: PaymentId)
    requires Consistent(w) && p in w.bank.comps
    ensures p in w.bank.debits && Refunds(w.bank.comps[p], w.bank.debits[p])
  {
    assert MoneyOk(w.bank);
  }

  lemma CancelIff(w: World, c: Saga)
    requires Compensating(w, c)
    ensures CallCancel(w.bank, c).1.Ok? <==> !ReservationIs(w.bank, c.start.pid, Confirmed)
  {
    CancelSucceeds(w, c);
  }

  /** An unsettled payment: four statements and calls refund it in full, the fifth announces it. */
  lemma CompensationRefunds(w: World, c: Saga, n: nat)
    requires Compensating(w, c) && Total(w.bank) <= MAX_INT64 && !ReservationIs(w.bank, c.start.pid, Confirmed) && n >= 4
    ensures var (w', h') := RunFor(w, CancelLedger(c), n);
      && FailedInFull(w', c.start.pid, c.failureCode, c.lastError)
      && (if n == 4 then !h'.Done? && w'.outbox == w.outbox && w'.audit == w.audit else h' == Done(Finished) && AnnouncedOnly(w, w', c.start.pid))
  {
    hide RunFor, Left, Total, Consistent, CallCancel, CallCompensate, CopyOk, Serial, AfterCancel, AfterRefund;
    CancelIff(w, c);
    CompensationLands(w, c, n);
    var w2 := AfterCancel(w, c);
    var c2 := To(w, c, CompensatingWallet);
    var w3 := AfterRefund(w2, c2);
    var c3 := To(w2, c2, Failed);
    if n == 4 { Stopped(w3, PublishFailed(c3), 0); } else { FailurePublished(w3, c3, n - 4); }
    RunEndsConsistent(w, c, n);
    RefundIsFull(RunFor(w, CancelLedger(c), n).0, c.start.pid);
  }

  /** A settled payment cannot be cancelled: the handler ends with an error. */
  lemma CompensationRefused(w: World, c: Saga, n: nat)
    requires Compensating(w, c) && ReservationIs(w.bank, c.start.pid, Confirmed) && n >= 1
    ensures RunFor(w, CancelLedger(c), n).1 == Done(Errored)
  {
    hide RunFor, Left, CallCancel, Consistent, CopyOk;
    CancelIff(w, c);
    CancelAnswers(w, c, n);
    Stopped(w.(bank := CallCancel(w.bank, c).0), Done(Errored), n - 1);
  }

  predicate Unwinding(s: State) { s.CompensatingLedger? || s.CompensatingWallet? }

  /** Before the fourth statement or call, and whenever the cancel is refused, nothing is FAILED. */
  lemma NotYetFailed(w: World, c: Saga, n: nat)
    requires Compensating(w, c) && (n < 4 || ReservationIs(w.bank, c.start.pid, Confirmed))
    ensures var w' := RunFor(w, CancelLedger(c), n).0;
      c.start.pid in w'.sagas && Unwinding(w'.sagas[c.start.pid].state) && w'.outbox == w.outbox && w'.audit == w.audit
  {
    hide RunFor, Left, CallCancel, CallCompensate, Consistent;
    CancelIff(w, c);
    if n == 0 {
      Stopped(w, CancelLedger(c), 0);
    } else {
      var (b1, r) := CallCancel(w.bank, c);
      CancelAnswers(w, c, n);
      if r.Err? {
        Stopped(w.(bank := b1), Done(Errored), n - 1);
      } else if n == 1 {
        Stopped(w.(bank := b1), Persist(To(w, c, CompensatingWallet)), 0);
      } else {
        CancelStores(w, c, n);
        var w2 := AfterCancel(w, c);
        var c2 := To(w, c, CompensatingWallet);
        if n == 2 { Stopped(w2, Compensate(c2), 0); } else { NotYetRefunded(w2, c2); }
      }
    }
  }

  lemma NotYetRefunded(w: World, c: Saga)
    requires c.start.pid in w.sagas
    ensures var w' := RunFor(w, Compensate(c), 1).0; w'.sagas == w.sagas && w'.outbox == w.outbox && w'.audit == w.audit
  {
    hide RunFor, Left, CallCompensate, To;
    var (b, r) := CallCompensate(w.bank, c);
    CompensateAnswers(w, c, 1);
    if r.Ok? { Stopped(w.(bank := b), Persist(To(w, c, Failed)), 0); } else { Stopped(w.(bank := b), Done(Errored), 0); }
  }

  /** When a compensation succeeds, and what it leaves behind: the refund is stored by the fourth
      statement or call, and the fifth announces it. */
  lemma CompensationOutcome(w: World, c: Saga, n: nat)
    requires Compensating(w, c) && Total(w.bank) <= MAX_INT64
    ensures var (w', h') := RunFor(w, CancelLedger(c), n); var open := !ReservationIs(w.bank, c.start.pid, Confirmed);
      && (h' == Done(Finished) <==> n >= 5 && open) && h' != Done(NotUnderReview)
      && (FailedInFull(w', c.start.pid, c.failureCode, c.lastError) <==> n >= 4 && open)
      && c.start.pid in w'.sagas && (if n >= 4 && open then w'.sagas[c.start.pid].state.Failed? else Unwinding(w'.sagas[c.start.pid].state))
      && (if n >= 5 && open then AnnouncedOnly(w, w', c.start.pid) else w'.outbox == w.outbox && w'.audit == w.audit)
  {
    hide RunFor, Left, Compensating, Total, Refunds, AnnouncedOnly, ReservationIs;
    var h := CancelLedger(c);
    if n >= 4 && !ReservationIs(w.bank, c.start.pid, Confirmed) {
      CompensationRefunds(w, c, n);
    } else {
      NotYetFailed(w, c, n);
      NotYetFinished(w, c, n);
    }
  }

  lemma NotYetFinished(w: World, c: Saga, n: nat)
    requires Compensating(w, c) && Total(w.bank) <= MAX_INT64 && (n < 4 || ReservationIs(w.bank, c.start.pid, Confirmed))
    ensures var h' := RunFor(w, CancelLedger(c), n).1; h' != Done(Finished) && h' != Done(NotUnderReview)
  {
    hide RunFor, Left, Compensating, Total, ReservationIs;
    var h := CancelLedger(c);
    if ReservationIs(w.bank, c.start.pid, Confirmed) {
      if n >= 1 { CompensationRefused(w, c, n); } else { Stopped(w, h, 0); }
    } else if RunFor(w, h, n).1.Done? {
      FinishedStays(w, h, n, 4);
      CompensationRefunds(w, c, 4);
    }
  }

  /** The decision's audit row, with its actor unless one of the same instant was there. */
  ghost predicate DecisionAudited(w: World, w': World, d: ReviewDecision) {
    var k := ReviewKey(ReviewRejected, d.pid, w.now);
    k in w'.audit && (k !in w.audit ==> w'.audit[k].actor == d.actor && w'.audit[k].kind == ReviewRejected)
  }

  lemma RejectionCompensates(w: World, d: ReviewDecision)
    requires Consistent(w) && UnderReview(w, d.pid) && Total(w.bank) <= MAX_INT64
    ensures w.sagas[d.pid].start.pid == d.pid
    ensures var w1 := AfterReject(w, d);
      && Compensating(w1, Rejecting(w.sagas[d.pid], d, w.now)) && w1.bank == w.bank && w1.outbox == w.outbox
      && DecisionAudited(w, w1, d)
  {
    hide Total, CallCancel, Consistent;
    DecisionStored(w, d);
    ReviewMoney(w, d.pid);
    ReviewHasReservation(w, d.pid);
  }

  /** A rejection's call, once the decision is stored. */
  lemma RejectCall(w: World, d: ReviewDecision, n: nat)
    requires UnderReview(w, d.pid) && w.sagas[d.pid].start.pid == d.pid
    ensures var (w', c') := RunCall(w, Call(OnReject(d), false), n);
      if n < 2 then !c'.at.Done? && w'.sagas == w.sagas && w'.outbox == w.outbox
      else (w', c') == RunCall(AfterReject(w, d), Call(CancelLedger(Rejecting(w.sagas[d.pid], d, w.now)), true), n - 2)
  {
    hide RunCall;
    var c := Rejecting(w.sagas[d.pid], d, w.now);
    var record := ReviewAudit(ReviewRejected, d, w.now);
    if n == 0 {
      CallStopped(w, OnReject(d), false, 0);
    } else {
      CallEntered(w, OnReject(d), n);
      if n == 1 { CallStopped(w, PersistRejected(c, record), false, 0); } else { CallRejected(w, c, record, n - 1); }
    }
  }

  /** A compensation whose row is read back at the end. */
  lemma CompensationAnswers(w: World, c: Saga, n: nat)
    requires Compensating(w, c) && Total(w.bank) <= MAX_INT64
    ensures var r := CallReply(RunCall(w, Call(CancelLedger(c), true), n).1);
      && (r == Replied(Finished) <==> n >= 6 && !ReservationIs(w.bank, c.start.pid, Confirmed)) && r != Replied(NotUnderReview)
  {
    hide RunFor, Left, RunCall, Compensating, Total, ReservationIs, FailedInFull, AnnouncedOnly;
    var h := CancelLedger(c);
    RereadAnswers(w, h, n);
    CompensationOutcome(w, c, n);
    if RunFor(w, h, n).1 == Done(Finished) {
      SparesOne(w, h, n);
      CompensationOutcome(w, c, n - 1);
      if RunFor(w, h, n - 1).1.Done? { FinishedStays(w, h, n - 1, n); }
    }
  }

  /** When a rejection of a review succeeds, and what it leaves behind. The refund is stored by the
      sixth statement or call, the seventh announces it, and the eighth reads the row for the
      answer: the caller sees a success exactly when all eight succeed and the payment was not
      already settled. */
  lemma RejectionOutcome(w: World, d: ReviewDecision, n: nat)
    requires Consistent(w) && UnderReview(w, d.pid) && Total(w.bank) <= MAX_INT64
    ensures var (w', c') := RunCall(w, Call(OnReject(d), false), n); var open := ReservationIs(w.bank, d.pid, Reserved);
      && (CallReply(c') == Replied(Finished) <==> n >= 8 && open) && CallReply(c') != Replied(NotUnderReview)
      && (RejectedInFull(w', d.pid, d.reason) <==> n >= 6 && open)
      && (n >= 2 ==> DecisionAudited(w, w', d))
      && d.pid in w'.sagas && w'.outbox == if n >= 7 && open then w.outbox + [OutboxRow(TxFailed, w'.sagas[d.pid])] else w.outbox
  {
    hide RunFor, Left, RunCall, Consistent, Total, Refunds, Compensating, AfterReject, RejectReason, SaysReason;
    RejectionCompensates(w, d);
    RejectionSaysReason(d.reason);
    ReviewMoney(w, d.pid);
    RejectCall(w, d, n);
    if n >= 2 {
      var w1 := AfterReject(w, d);
      var c1 := Rejecting(w.sagas[d.pid], d, w.now);
      CallWorld(w1, CancelLedger(c1), true, n - 2);
      CompensationOutcome(w1, c1, n - 2);
      CompensationAnswers(w1, c1, n - 2);
    }
  }

  // ----- One rail failure -----

  ghost predicate Processing(w: World, p: PaymentId) {
    p in w.sagas && w.sagas[p].state.PaymentProcessing?
  }

  function FailedRow(row: Saga, event: RailEvent, now: int): Saga
    requires event.PaymentFailed?
  {
    row.(state := CompensatingLedger, failureCode := event.code, lastError := event.message, updatedAt := now)
  }

  /** A launched payment that is not completed: under processing, or a compensation has begun. */
  ghost predicate Failable(w: World, p: PaymentId) {
    && p in w.sagas
    && (Processing(w, p) || (Unwinding(w.sagas[p].state) && w.sagas[p].reservationId != NIL && p in w.bank.debits))
  }

  lemma FailureStores(w: World, event: RailEvent, n: nat)
    requires Failable(w, event.pid) && w.sagas[event.pid].start.pid == event.pid && event.PaymentFailed? && n >= 2
    ensures var c := FailedRow(w.sagas[event.pid], event, w.now);
      RunFor(w, OnFailed(event), n) == RunFor(Save(w, c), CancelLedger(c), n - 2)
  {
    hide RunFor, Left;
    Entered(w, OnFailed(event), n);
    Persisted(w, FailedRow(w.sagas[event.pid], event, w.now), n - 1);
  }

  lemma ProcessingMoney(w: World, p: PaymentId)
    requires Consistent(w) && Processing(w, p)
    ensures p in w.bank.debits && p !in w.bank.comps && (ReservationIs(w.bank, p, Reserved) || ReservationIs(w.bank, p, Confirmed))
    ensures w.sagas[p].start.pid == p && w.sagas[p].reservationId != NIL
  {
    hide BankOk;
    assert PaymentOk(w, p) && Tells(w, p);
  }

  lemma ProcessingHoldsNothing(w: World, p: PaymentId)
    requires Consistent(w) && Processing(w, p)
    ensures w.sagas[p].deferred.None?
  {
    hide BankOk;
    assert Tells(w, p);
  }

  lemma FailableMoney(w: World, p: PaymentId)
    requires Consistent(w) && Failable(w, p)
    ensures p in w.bank.debits && w.sagas[p].start.pid == p && w.sagas[p].reservationId != NIL && CopyOk(w, w.sagas[p])
  {
    hide BankOk;
    assert PaymentOk(w, p) && Tells(w, p);
  }

  lemma FailureCompensates(w: World, event: RailEvent)
    requires Consistent(w) && Failable(w, event.pid) && w.sagas[event.pid].start.pid == event.pid && event.PaymentFailed?
    ensures var c := FailedRow(w.sagas[event.pid], event, w.now); Compensating(Save(w, c), c) && Save(w, c).bank == w.bank
  {
    var c := FailedRow(w.sagas[event.pid], event, w.now);
    hide RunFor, Left, Consistent, Compensating, CopyOk;
    FailableMoney(w, event.pid);
    FailureStores(w, event, 2);
    Stopped(Save(w, c), CancelLedger(c), 0);
    FailureRunConsistent(w, event);
    StoredIsCompensating(Save(w, c), c);
  }

  lemma FailureRunConsistent(w: World, event: RailEvent)
    requires Consistent(w)
    ensures Consistent(RunFor(w, OnFailed(event), 2).0)
  {
    hide RunFor, Left, Consistent, Total, Elsewhere;
    RunConsistent(w, OnFailed(event), 2);
  }

  /** A rail failure of a launched payment, delivered or redelivered: it ends FAILED with the rail's
      own code and message and refunded in full by the sixth statement or call, is announced by the
      seventh, and all exactly when the payment was not settled. From the second on it is out of
      processing. */
  lemma FailureOutcome(w: World, event: RailEvent, n: nat)
    requires Consistent(w) && Failable(w, event.pid) && event.PaymentFailed? && Total(w.bank) <= MAX_INT64
    ensures var (w', h') := RunFor(w, OnFailed(event), n); var open := !ReservationIs(w.bank, event.pid, Confirmed);
      && (h' == Done(Finished) <==> n >= 7 && open)
      && (FailedInFull(w', event.pid, event.code, event.message) <==> n >= 6 && open)
      && (if n >= 7 && open then AnnouncedOnly(w, w', event.pid) else w'.outbox == w.outbox && w'.audit == w.audit)
      && (n < 2 ==> w' == w) && (n >= 2 ==> !Processing(w', event.pid))
  {
    hide RunFor, Left, Consistent, Total, Refunds, Compensating;
    FailableMoney(w, event.pid);
    if n >= 2 {
      FailureCompensates(w, event);
      var c := FailedRow(w.sagas[event.pid], event, w.now);
      FailureStores(w, event, n);
      CompensationOutcome(Save(w, c), c, n - 2);
    } else {
      FailureWaits(w, event, n);
    }
  }

  lemma FailureWaits(w: World, event: RailEvent, n: nat)
    requires Failable(w, event.pid) && event.PaymentFailed? && n < 2
    ensures RunFor(w, OnFailed(event), n).0 == w && !RunFor(w, OnFailed(event), n).1.Done?
  {
    hide RunFor, Left;
    if n == 0 {
      Stopped(w, OnFailed(event), 0);
    } else {
      Entered(w, OnFailed(event), 1);
      Stopped(w, Persist(FailedRow(w.sagas[event.pid], event, w.now)), 0);
    }
  }

  // ----- A compensation taken up at the refund -----

  /** From a stored COMPENSATING_WALLET, refunded already or not: FAILED and refunded in full exactly
      when two statements and calls succeed, announced by the third. */
  lemma RefundOutcome(w: World, c: Saga, n: nat)
    requires Consistent(w) && Total(w.bank) <= MAX_INT64 && c.start.pid in w.sagas && w.sagas[c.start.pid] == c && c.state.CompensatingWallet?
    ensures var (w', h') := RunFor(w, Compensate(c), n);
      && (h' == Done(Finished) <==> n >= 3)
      && (FailedInFull(w', c.start.pid, c.failureCode, c.lastError) <==> n >= 2)
      && (if n >= 3 then AnnouncedOnly(w, w', c.start.pid) else w'.outbox == w.outbox && w'.audit == w.audit)
  {
    hide RunFor, Left, Consistent, Total, Refunds, CallCompensate, WorldOk, Serial, CopyOk;
    var h := Compensate(c);
    RefundStart(w, c);
    RefundSucceeds(w, c);
    if n < 2 {
      RefundWaits(w, c, n);
    } else {
      RefundStores(w, c, n);
      RefundLands(w, c);
      var w3 := AfterRefund(w, c);
      var c3 := To(w, c, Failed);
      if n == 2 { Stopped(w3, PublishFailed(c3), 0); } else { FailurePublished(w3, c3, n - 2); }
      RefundRunConsistent(w, c, n);
      RefundIsFull(RunFor(w, h, n).0, c.start.pid);
    }
  }

  lemma RefundStart(w: World, c: Saga)
    requires Consistent(w) && c.start.pid in w.sagas && w.sagas[c.start.pid] == c && c.state.CompensatingWallet?
    ensures WorldOk(w) && CopyOk(w, c) && Serial(w, Compensate(c)) && ReservationIs(w.bank, c.start.pid, Canceled) && c.start.pid in w.bank.debits
  {
    hide BankOk;
    assert PaymentOk(w, c.start.pid) && Tells(w, c.start.pid);
  }

  lemma RefundRunConsistent(w: World, c: Saga, n: nat)
    requires Consistent(w) && CopyOk(w, c) && c.state.CompensatingWallet? && Serial(w, Compensate(c))
    ensures Consistent(RunFor(w, Compensate(c), n).0)
  {
    hide RunFor, Left, Consistent, Total, Elsewhere, Serial, CopyOk;
    RunConsistent(w, Compensate(c), n);
  }

  lemma RefundWaits(w: World, c: Saga, n: nat)
    requires c.start.pid in w.sagas && w.sagas[c.start.pid] == c && c.state.CompensatingWallet? && CallCompensate(w.bank, c).1.Ok? && n < 2
    ensures var (w', h') := RunFor(w, Compensate(c), n); w'.sagas == w.sagas && w'.outbox == w.outbox && w'.audit == w.audit && !h'.Done?
  {
    hide RunFor, Left, CallCompensate, To;
    if n == 0 {
      Stopped(w, Compensate(c), 0);
    } else {
      CompensateAnswers(w, c, 1);
      Stopped(w.(bank := CallCompensate(w.bank, c).0), Persist(To(w, c, Failed)), 0);
    }
  }
}
