/** The identity of saga rows: the columns no update writes, and the client's idempotency key. */
module SagaIdentity {
  import opened Domain
  import opened Bank
  import opened SagaMachine

  ghost predicate OwnKeys(sagas: map<PaymentId, Saga>) {
    forall p | p in sagas :: sagas[p].start.pid == p
  }

  /** Rows keep their identity columns, and new rows are stored under their own id. */
  ghost predicate SameIdentities(sagas: map<PaymentId, Saga>, sagas': map<PaymentId, Saga>) {
    OwnKeys(sagas') && forall p | p in sagas :: p in sagas' && sagas'[p].start == sagas[p].start
  }

  lemma EnterOwnKeys(w: World, h: Handler)
    requires OwnKeys(w.sagas) && !h.HasCopy()
    ensures SameIdentities(w.sagas, Enter(w, h).0.sagas)
  {
    if h.Start? { assert OwnKeys(Enter(w, h).0.sagas); } else { assert Enter(w, h).0.sagas == w.sagas; }
  }

  lemma ContinueSaves(w: World, h: Handler)
    requires h.HasCopy() && h.cur.start.pid in w.sagas
    ensures var sagas' := Continue(w, h).0.sagas;
      sagas' == w.sagas || exists c: Saga :: c.start.pid == h.cur.start.pid && sagas' == Save(w, c).sagas
  {
    hide CallDebit, CallReserve, CallConfirm, CallCancel, CallCompensate;
    if h.Launch? { assert Continue(w, h).0.sagas == Save(w, To(w, h.cur, PaymentProcessing)).sagas; }
    else if !(h.CheckVerification? || h.DebitWallet? || h.ReserveLedger? || h.Confirm? || h.PublishCompleted?
              || h.CancelLedger? || h.Compensate? || h.PublishFailed?) {
      assert Continue(w, h).0.sagas == Save(w, h.cur).sagas;
    }
  }

  lemma ExecOwnKeys(w: World, h: Handler)
    requires OwnKeys(w.sagas)
    ensures SameIdentities(w.sagas, Exec(w, h).0.sagas)
  {
    hide Enter, Continue;
    if !h.HasCopy() { EnterOwnKeys(w, h); }
    else if h.cur.start.pid in w.sagas { ContinueSaves(w, h); }
  }

  lemma {:induction false} RunOwnKeys(w: World, h: Handler, n: nat)
    requires OwnKeys(w.sagas)
    ensures SameIdentities(w.sagas, RunFor(w, h, n).0.sagas)
    decreases n
  {
    hide Exec;
    if n > 0 && !h.Done? {
      ExecOwnKeys(w, h);
      RunOwnKeys(Exec(w, h).0, Exec(w, h).1, n - 1);
    }
  }

  // ----- One saga per idempotency key -----

  ghost predicate OneRowPerKey(sagas: map<PaymentId, Saga>) {
    forall p, q | p in sagas && q in sagas && p != q ::
      !(sagas[p].start.user == sagas[q].start.user && sagas[p].start.key == sagas[q].start.key)
  }

  lemma SameStarts(sagas: map<PaymentId, Saga>, sagas': map<PaymentId, Saga>)
    requires OneRowPerKey(sagas) && sagas'.Keys == sagas.Keys && SameIdentities(sagas, sagas')
    ensures OneRowPerKey(sagas')
  {
  }

  lemma EnterOneRow(w: World, h: Handler)
    requires OwnKeys(w.sagas) && OneRowPerKey(w.sagas) && !h.HasCopy()
    ensures OneRowPerKey(Enter(w, h).0.sagas)
  {
    var sagas' := Enter(w, h).0.sagas;
    if h.Start? && sagas' != w.sagas {
      assert !SameKey(w.sagas, h.req) && sagas' == w.sagas[h.req.pid := NewSaga(h.req, w.now)];
    } else {
      assert sagas' == w.sagas;
    }
  }

  lemma ExecOneRow(w: World, h: Handler)
    requires OwnKeys(w.sagas) && OneRowPerKey(w.sagas)
    ensures OneRowPerKey(Exec(w, h).0.sagas)
  {
    hide Enter, Continue;
    if !h.HasCopy() {
      EnterOneRow(w, h);
    } else if h.cur.start.pid in w.sagas {
      ContinueSaves(w, h);
      ExecOwnKeys(w, h);
      var sagas' := Continue(w, h).0.sagas;
      assert sagas'.Keys == w.sagas.Keys;
      SameStarts(w.sagas, sagas');
    }
  }

  /** Interleaved setting. However start requests race, retry and die, no two payments of a user
      have the same idempotency key, and no row ever changes whom it is for, what it moves, or
      the key it was started with. */
  lemma {:induction false} OneSagaPerKey(s: System, ls: seq<Label>)
    requires OwnKeys(s.w.sagas) && OneRowPerKey(s.w.sagas)
    ensures var sagas' := TakeAll(s, ls).w.sagas; OneRowPerKey(sagas') && SameIdentities(s.w.sagas, sagas')
    decreases ls
  {
    hide Exec, OneRowPerKey;
    if ls != [] {
      var s1 := Take(s, ls[0]);
      if ls[0].Step? && ls[0].id in s.live {
        ExecOwnKeys(s.w, s.live[ls[0].id]);
        ExecOneRow(s.w, s.live[ls[0].id]);
      } else {
        assert s1.w.sagas == s.w.sagas;
      }
      OneSagaPerKey(s1, ls[1..]);
    }
  }
}
