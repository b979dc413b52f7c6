/** Dying and restarting on the forward path is invisible: whatever attempts are made, the
    stores always hold some prefix of the run that never dies. */
module ForwardPath {
  import opened Domain
  import opened Bank
  import opened SagaMachine

  /** The client's retry of the start request, or the orchestrator's restart. */
  datatype Attempt = Retry(budget: nat) | Restart(budget: nat)

  function EntryOf(a: Attempt, req: StartRequest): Handler {
    if a.Retry? then Start(req) else Recover(req.pid)
  }

  /** Attempts in order; each dies after its budget of statements and calls. */
  function AfterAttempts(w: World, req: StartRequest, attempts: seq<Attempt>): World
    decreases attempts
  {
    if attempts == [] then w
    else AfterAttempts(RunFor(w, EntryOf(attempts[0], req), attempts[0].budget).0, req, attempts[1..])
  }

  // ----- Calls repeated after a lost reply -----

  lemma DebitAgain(b: Bank, s: StartRequest)
    requires CallDebit(b, s).1.Ok?
    ensures CallDebit(CallDebit(b, s).0, s) == CallDebit(b, s)
  {
  }

  lemma ReserveAgain(b: Bank, s: StartRequest)
    requires CallReserve(b, s).1.Ok?
    ensures CallReserve(CallReserve(b, s).0, s) == CallReserve(b, s)
  {
  }

  // ----- The path -----

  /** A point of the forward path of request `req` from which re-reading the row leads back to
      the same point: a handler about to call holds the stored row, and a handler about to
      store is what repeating the last call would produce. */
  ghost predicate Rejoins(w: World, h: Handler, req: StartRequest) {
    && req.amount > 0 && req.pid in w.sagas && w.sagas[req.pid].start == req
    && var row := w.sagas[req.pid]; var again := Advance(row);
       && (row.state.Started? || row.state.VerificationChecked? || row.state.WalletDebited? || row.state.LedgerReserved?
           || row.state.PaymentProcessing? || row.state.Failed?)
       && (h == again || (h.Done? && again.Done?) || (again.HasCopy() && Exec(w, again) == (w, h)))
  }

  ghost predicate OnPath(h: Handler, req: StartRequest) {
    || h.Done? || h.CheckVerification? || h.DebitWallet? || h.ReserveLedger? || h.Launch?
    || (h.PersistUnverified? && h.cur.start == req && h.cur.state.Failed?)
    || (h.Persist? && h.cur.start == req
        && (h.cur.state.VerificationChecked? || h.cur.state.WalletDebited? || h.cur.state.LedgerReserved?))
  }

  ghost predicate PathPoint(w: World, h: Handler, req: StartRequest) {
    Rejoins(w, h, req) && OnPath(h, req)
  }

  lemma StoreRejoins(w: World, c: Saga, req: StartRequest)
    requires PathPoint(w, Persist(c), req) || PathPoint(w, PersistUnverified(c), req)
    ensures PathPoint(w, Persist(c), req) ==> var (w', h') := Exec(w, Persist(c)); PathPoint(w', h', req)
    ensures PathPoint(w, PersistUnverified(c), req) ==> var (w', h') := Exec(w, PersistUnverified(c)); PathPoint(w', h', req)
  {
    hide CallDebit, CallReserve, CallConfirm, CallCancel, CallCompensate;
  }

  lemma CheckRejoins(w: World, c: Saga, req: StartRequest)
    requires PathPoint(w, CheckVerification(c), req)
    ensures var (w', h') := Exec(w, CheckVerification(c)); PathPoint(w', h', req)
  {
    hide CallDebit, CallReserve, CallConfirm, CallCancel, CallCompensate;
  }

  lemma DebitRejoins(w: World, c: Saga, req: StartRequest)
    requires PathPoint(w, DebitWallet(c), req)
    ensures var (w', h') := Exec(w, DebitWallet(c)); PathPoint(w', h', req)
  {
    hide CallDebit, CallReserve, CallConfirm, CallCancel, CallCompensate;
    var (w', h') := Exec(w, DebitWallet(c));
    DebitErrs(w.bank, req);
    if CallDebit(w.bank, req).1.Ok? { DebitAgain(w.bank, req); }
  }

  lemma DebitErrs(b: Bank, s: StartRequest)
    ensures CallDebit(b, s).1.Err? ==> CallDebit(b, s).0 == b
    ensures CallReserve(b, s).1.Err? ==> CallReserve(b, s).0 == b
  {
  }

  lemma ReserveRejoins(w: World, c: Saga, req: StartRequest)
    requires PathPoint(w, ReserveLedger(c), req)
    ensures var (w', h') := Exec(w, ReserveLedger(c)); PathPoint(w', h', req)
  {
    hide CallDebit, CallReserve, CallConfirm, CallCancel, CallCompensate;
    DebitErrs(w.bank, req);
    if CallReserve(w.bank, req).1.Ok? { ReserveAgain(w.bank, req); }
  }

  lemma LaunchRejoins(w: World, c: Saga, req: StartRequest)
    requires PathPoint(w, Launch(c), req)
    ensures var (w', h') := Exec(w, Launch(c)); PathPoint(w', h', req)
  {
    hide CallDebit, CallReserve, CallConfirm, CallCancel, CallCompensate;
  }

  lemma StepRejoins(w: World, h: Handler, req: StartRequest)
    requires PathPoint(w, h, req) && !h.Done?
    ensures var (w', h') := Exec(w, h); PathPoint(w', h', req)
  {
    hide CallDebit, CallReserve, CallConfirm, CallCancel, CallCompensate;
    match h
    case CheckVerification(c) => CheckRejoins(w, c, req);
    case DebitWallet(c) => DebitRejoins(w, c, req);
    case ReserveLedger(c) => ReserveRejoins(w, c, req);
    case Launch(c) => LaunchRejoins(w, c, req);
    case Persist(c) => StoreRejoins(w, c, req);
    case PersistUnverified(c) => StoreRejoins(w, c, req);
  }

  // ----- Whole attempts -----

  lemma {:induction false} RunForSplits(w: World, h: Handler, m: nat, n: nat)
    ensures var (w', h') := RunFor(w, h, m); RunFor(w, h, m + n) == RunFor(w', h', n)
    decreases m
  {
    hide Exec;
    if m > 0 && !h.Done? {
      var (w1, h1) := Exec(w, h);
      RunForSplits(w1, h1, m - 1, n);
    }
  }

  lemma {:induction false} RunStaysOnPath(w: World, h: Handler, req: StartRequest, n: nat)
    requires PathPoint(w, h, req)
    ensures var (w', h') := RunFor(w, h, n); PathPoint(w', h', req)
    decreases n
  {
    hide Exec, PathPoint;
    if n > 0 && !h.Done? {
      StepRejoins(w, h, req);
      var (w1, h1) := Exec(w, h);
      RunStaysOnPath(w1, h1, req, n - 1);
    }
  }

  /** Reading the row again, by a retry or a restart. */
  lemma Reread(w: World, h: Handler, req: StartRequest, a: Attempt)
    requires PathPoint(w, h, req)
    ensures var (w', h') := Enter(w, EntryOf(a, req)); w' == w && (h'.Done? || h' == Advance(w.sagas[req.pid]))
  {
  }

  /** From a point of the path, another attempt ends at that point or further along. */
  lemma AttemptFollows(w: World, h: Handler, req: StartRequest, a: Attempt) returns (k: nat)
    requires PathPoint(w, h, req)
    ensures RunFor(w, EntryOf(a, req), a.budget).0 == RunFor(w, h, k).0
  {
    var e := EntryOf(a, req);
    if a.budget == 0 {
      k := 0;
      return;
    }
    Reread(w, h, req, a);
    var again := Enter(w, e).1;
    assert Exec(w, e) == (w, again) && !e.Done?;
    assert RunFor(w, e, a.budget) == RunFor(w, again, a.budget - 1);
    if again.Done? || a.budget == 1 {
      k := 0;
    } else if h == again {
      k := a.budget - 1;
    } else {
      assert Exec(w, again) == (w, h);
      assert RunFor(w, again, a.budget - 1) == RunFor(w, h, a.budget - 2);
      k := a.budget - 2;
    }
  }

  lemma {:induction false} AttemptsFollow(w: World, h: Handler, req: StartRequest, attempts: seq<Attempt>) returns (k: nat)
    requires PathPoint(w, h, req)
    ensures AfterAttempts(w, req, attempts) == RunFor(w, h, k).0
    decreases attempts
  {
    hide Exec, PathPoint, EntryOf;
    if attempts == [] {
      k := 0;
    } else {
      var k1 := AttemptFollows(w, h, req, attempts[0]);
      RunStaysOnPath(w, h, req, k1);
      var (w1, h1) := RunFor(w, h, k1);
      var k2 := AttemptsFollow(w1, h1, req, attempts[1..]);
      RunForSplits(w, h, k1, k2);
      k := k1 + k2;
    }
  }

  /** A first attempt that stored nothing. */
  lemma NothingStored(w: World, req: StartRequest, a: Attempt)
    requires req.pid !in w.sagas && (a.Restart? || a.budget == 0 || Exec(w, Start(req)).0 == w)
    ensures RunFor(w, EntryOf(a, req), a.budget).0 == w
  {
    if a.budget > 0 {
      var (w1, h1) := Exec(w, EntryOf(a, req));
      assert w1 == w && h1.Done?;
    }
  }

  lemma FirstAttempt(w: World, req: StartRequest, budget: nat)
    requires req.pid !in w.sagas && budget > 0 && Exec(w, Start(req)).0 != w
    ensures var (w', h') := RunFor(w, Start(req), budget); PathPoint(w', h', req)
  {
    var (w1, h1) := Exec(w, Start(req));
    assert PathPoint(w1, h1, req);
    RunStaysOnPath(w1, h1, req, budget - 1);
  }

  lemma {:induction false} AttemptsFollowStart(w: World, req: StartRequest, attempts: seq<Attempt>) returns (k: nat)
    requires req.pid !in w.sagas
    ensures AfterAttempts(w, req, attempts) == RunFor(w, Start(req), k).0
    ensures req.pid in AfterAttempts(w, req, attempts).sagas ==> PathPoint(RunFor(w, Start(req), k).0, RunFor(w, Start(req), k).1, req)
    decreases attempts
  {
    hide Exec, PathPoint;
    if attempts == [] {
      k := 0;
      return;
    }
    var a := attempts[0];
    if a.Restart? || a.budget == 0 || Exec(w, Start(req)).0 == w {
      NothingStored(w, req, a);
      k := AttemptsFollowStart(w, req, attempts[1..]);
    } else {
      FirstAttempt(w, req, a.budget);
      var (w2, h2) := RunFor(w, Start(req), a.budget);
      var k2 := AttemptsFollow(w2, h2, req, attempts[1..]);
      RunForSplits(w, Start(req), a.budget, k2);
      RunStaysOnPath(w2, h2, req, k2);
      k := a.budget + k2;
    }
  }

  lemma FinishedStays(w: World, h: Handler, k: nat, n: nat)
    requires k <= n && RunFor(w, h, k).1.Done?
    ensures RunFor(w, h, n) == RunFor(w, h, k)
  {
    RunForSplits(w, h, k, n - k);
  }

  /** With one clock reading for all attempts, and other payments held fixed: however the forward
      path of a new payment is retried, restarted and killed, the stores hold exactly what
      the undisturbed run of the start request holds after some number of steps; and once
      the payment is processing they hold what the undisturbed run ends with. */
  lemma CrashesAtOneInstant(w: World, req: StartRequest, attempts: seq<Attempt>) returns (k: nat)
    requires req.pid !in w.sagas
    ensures var e := AfterAttempts(w, req, attempts);
      && e == RunFor(w, Start(req), k).0
      && (req.pid in e.sagas && e.sagas[req.pid].state.PaymentProcessing? ==> forall n: nat | n >= k :: RunFor(w, Start(req), n).0 == e)
  {
    var e := AfterAttempts(w, req, attempts);
    k := AttemptsFollowStart(w, req, attempts);
    if req.pid in e.sagas && e.sagas[req.pid].state.PaymentProcessing? {
      forall n: nat | n >= k ensures RunFor(w, Start(req), n).0 == e {
        FinishedStays(w, Start(req), k, n);
      }
    }
  }
}
