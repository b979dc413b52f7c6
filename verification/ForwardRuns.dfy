/** Dying and restarting on the forward path is invisible at any clock: whatever attempts are made,
    at whatever readings, the stores always hold what the undisturbed run would, but for the times
    written on the way. */
module ForwardRuns {
  import opened Domain
  import opened Bank
  import opened SagaMachine
  import opened ForwardPath

  // ----- Stores without their times -----

  function Untimed(s: Saga): Saga { s.(updatedAt := 0) }

  ghost function UntimedRows(sagas: map<PaymentId, Saga>): map<PaymentId, Saga> {
    map p | p in sagas :: Untimed(sagas[p])
  }

  function UntimedOutbox(o: seq<OutboxRow>): seq<OutboxRow> {
    seq(|o|, i requires 0 <= i < |o| => OutboxRow(o[i].topic, Untimed(o[i].body)))
  }

  /** Everything stored, the clock and the update times aside. */
  ghost function UntimedWorld(w: World): World {
    w.(sagas := UntimedRows(w.sagas), outbox := UntimedOutbox(w.outbox), now := 0)
  }

  function UntimedHandler(h: Handler): Handler {
    if h.HasCopy() then h.(cur := Untimed(h.cur)) else h
  }

  /** The handlers that start requests and restarts lead to. */
  predicate Forward(h: Handler) {
    || h.Start? || h.Recover? || h.CheckVerification? || h.DebitWallet? || h.ReserveLedger? || h.Launch? || h.PublishCompleted?
    || h.CancelLedger? || h.Compensate? || h.PublishFailed? || h.Persist? || h.PersistUnverified? || h.Done?
  }

  /** A step at any clock reading is the step without times. */
  ghost predicate StepUntimed(w: World, h: Handler, w': World, h': Handler) {
    Exec(UntimedWorld(w), UntimedHandler(h)) == (UntimedWorld(w'), UntimedHandler(h')) && Forward(h')
  }

  lemma UntimedUpdate(sagas: map<PaymentId, Saga>, p: PaymentId, s: Saga)
    ensures UntimedRows(sagas[p := s]) == UntimedRows(sagas)[p := Untimed(s)]
  {
  }

  lemma UntimedAppend(o: seq<OutboxRow>, r: OutboxRow)
    ensures UntimedOutbox(o + [r]) == UntimedOutbox(o) + [OutboxRow(r.topic, Untimed(r.body))]
  {
  }

  lemma SaveUntimed(w: World, c: Saga)
    requires c.start.pid in w.sagas
    ensures UntimedWorld(Save(w, c)) == Save(UntimedWorld(w), Untimed(c))
  {
    UntimedUpdate(w.sagas, c.start.pid, c.(start := w.sagas[c.start.pid].start));
  }

  lemma EnqueuedUntimed(w: World, t: Topic, c: Saga)
    ensures UntimedWorld(Enqueued(w, t, c)) == Enqueued(UntimedWorld(w), t, Untimed(c))
  {
    UntimedAppend(w.outbox, OutboxRow(t, c));
  }

  // ----- One step -----

  lemma StartUntimed(w: World, req: StartRequest, t: int)
    ensures var (w', h') := Exec(w.(now := t), Start(req)); StepUntimed(w, Start(req), w', h')
  {
    var sagas := w.sagas;
    assert SameKey(UntimedRows(sagas), req) == SameKey(sagas, req) by {
      if q :| q in sagas && sagas[q].start.user == req.user && sagas[q].start.key == req.key {
        assert UntimedRows(sagas)[q].start == sagas[q].start;
      }
    }
    UntimedUpdate(sagas, req.pid, NewSaga(req, t));
  }

  lemma RecoverUntimed(w: World, p: PaymentId, t: int)
    ensures var (w', h') := Exec(w.(now := t), Recover(p)); StepUntimed(w, Recover(p), w', h')
  {
  }

  lemma CallUntimed(w: World, h: Handler, t: int)
    requires h.CheckVerification? || h.DebitWallet? || h.ReserveLedger? || h.CancelLedger? || h.Compensate?
    ensures var (w', h') := Exec(w.(now := t), h); StepUntimed(w, h, w', h')
  {
    hide CallDebit, CallReserve, CallConfirm, CallCancel, CallCompensate, UntimedOutbox;
    SameCalls(w.bank, h.cur);
  }

  /** No call's arguments depend on the time of the copy. */
  lemma SameCalls(b: Bank, c: Saga)
    ensures CallCancel(b, Untimed(c)) == CallCancel(b, c) && CallCompensate(b, Untimed(c)) == CallCompensate(b, c)
  {
    hide CancelReservation, CompensateDebit, NormalizeCurrency;
  }

  lemma StoreUntimed(w: World, h: Handler, t: int)
    requires h.Persist? || h.PersistUnverified?
    ensures var (w', h') := Exec(w.(now := t), h); StepUntimed(w, h, w', h')
  {
    if h.cur.start.pid in w.sagas { SaveUntimed(w.(now := t), h.cur); }
  }

  lemma PublishUntimed(w: World, h: Handler, t: int)
    requires h.PublishCompleted? || h.PublishFailed?
    ensures var (w', h') := Exec(w.(now := t), h); StepUntimed(w, h, w', h')
  {
    hide UntimedOutbox;
    EnqueuedUntimed(w.(now := t), if h.PublishCompleted? then TxCompleted else TxFailed, h.cur);
  }

  lemma LaunchUntimed(w: World, c: Saga, t: int)
    ensures var (w', h') := Exec(w.(now := t), Launch(c)); StepUntimed(w, Launch(c), w', h')
  {
    hide UntimedOutbox;
    if c.start.pid in w.sagas {
      var w1 := Save(w.(now := t), To(w.(now := t), c, PaymentProcessing));
      SaveUntimed(w.(now := t), To(w.(now := t), c, PaymentProcessing));
      EnqueuedUntimed(w1, PaymentExecute, c);
      EnqueuedUntimed(Enqueued(w1, PaymentExecute, c), FraudScoreRequested, c);
    }
  }

  lemma ExecUntimed(w: World, h: Handler, t: int)
    requires Forward(h) && !h.Done?
    ensures var (w', h') := Exec(w.(now := t), h); StepUntimed(w, h, w', h')
  {
    hide Exec, StepUntimed;
    match h
    case Start(req) => StartUntimed(w, req, t);
    case Recover(p) => RecoverUntimed(w, p, t);
    case Persist(_) => StoreUntimed(w, h, t);
    case PersistUnverified(_) => StoreUntimed(w, h, t);
    case PublishCompleted(_) => PublishUntimed(w, h, t);
    case PublishFailed(_) => PublishUntimed(w, h, t);
    case Launch(c) => LaunchUntimed(w, c, t);
    case _ => CallUntimed(w, h, t);
  }

  // ----- Runs and attempts at any clock -----

  /** A handler whose i-th statement or call happens at `times[i]`; it dies when they run out. */
  function RunTimed(w: World, h: Handler, times: seq<int>): (World, Handler)
    decreases times
  {
    if times == [] || h.Done? then (w, h)
    else
      var (w', h') := Exec(w.(now := times[0]), h);
      RunTimed(w', h', times[1..])
  }

  lemma {:induction false} RunUntimed(w: World, h: Handler, times: seq<int>)
    requires Forward(h)
    ensures var (w', h') := RunTimed(w, h, times);
      RunFor(UntimedWorld(w), UntimedHandler(h), |times|) == (UntimedWorld(w'), UntimedHandler(h'))
    decreases times
  {
    hide Exec, UntimedWorld;
    if times != [] && !h.Done? {
      ExecUntimed(w, h, times[0]);
      var (w1, h1) := Exec(w.(now := times[0]), h);
      RunUntimed(w1, h1, times[1..]);
    }
  }

  /** A retried start request or a restart of the orchestrator, and the clock at each of its steps. */
  datatype TimedAttempt = TimedAttempt(restart: bool, times: seq<int>)
  {
    function Entry(req: StartRequest): Handler { if restart then Recover(req.pid) else Start(req) }

    function AtOneInstant(): Attempt { if restart then Restart(|times|) else Retry(|times|) }
  }

  function AfterTimed(w: World, req: StartRequest, attempts: seq<TimedAttempt>): World
    decreases attempts
  {
    if attempts == [] then w
    else AfterTimed(RunTimed(w, attempts[0].Entry(req), attempts[0].times).0, req, attempts[1..])
  }

  function AtOneInstant(attempts: seq<TimedAttempt>): seq<Attempt> {
    seq(|attempts|, i requires 0 <= i < |attempts| => attempts[i].AtOneInstant())
  }

  lemma {:induction false} AttemptsUntimed(w: World, req: StartRequest, attempts: seq<TimedAttempt>)
    ensures UntimedWorld(AfterTimed(w, req, attempts)) == AfterAttempts(UntimedWorld(w), req, AtOneInstant(attempts))
    decreases attempts
  {
    hide RunFor, RunTimed, UntimedWorld;
    if attempts != [] {
      var a := attempts[0];
      RunUntimed(w, a.Entry(req), a.times);
      AttemptsUntimed(RunTimed(w, a.Entry(req), a.times).0, req, attempts[1..]);
      assert AtOneInstant(attempts)[0] == a.AtOneInstant() && AtOneInstant(attempts)[1..] == AtOneInstant(attempts[1..]);
    }
  }

  /** Serialised setting, other payments standing still. However the forward path of a new payment
      is retried, restarted and killed, and whatever the clock reads at each step, the stores hold,
      update times aside, what the undisturbed run of the start request holds after some number of
      steps at any clock readings; and once the payment is processing, what that run ends with. */
  lemma CrashesAreInvisible(w: World, req: StartRequest, attempts: seq<TimedAttempt>) returns (k: nat)
    requires req.pid !in w.sagas
    ensures var e := AfterTimed(w, req, attempts);
      && (forall times: seq<int> | |times| == k :: UntimedWorld(RunTimed(w, Start(req), times).0) == UntimedWorld(e))
      && (req.pid in e.sagas && e.sagas[req.pid].state.PaymentProcessing? ==>
            forall times: seq<int> | |times| >= k :: UntimedWorld(RunTimed(w, Start(req), times).0) == UntimedWorld(e))
  {
    hide RunFor, RunTimed, AfterAttempts, AfterTimed;
    var e := AfterTimed(w, req, attempts);
    AttemptsUntimed(w, req, attempts);
    k := CrashesAtOneInstant(UntimedWorld(w), req, AtOneInstant(attempts));
    forall times: seq<int>
      ensures |times| == k ==> UntimedWorld(RunTimed(w, Start(req), times).0) == UntimedWorld(e)
      ensures req.pid in e.sagas && e.sagas[req.pid].state.PaymentProcessing? && |times| >= k ==>
                UntimedWorld(RunTimed(w, Start(req), times).0) == UntimedWorld(e)
    {
      RunUntimed(w, Start(req), times);
    }
  }
}
