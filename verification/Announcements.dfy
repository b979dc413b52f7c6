/** What the outbox tells the rest of the platform, in the interleaved setting: every event
    carries what the saga was started with, completion is announced only for settled payments and
    failure only for refunded ones, so no payment is ever announced as both. */
module Announcements {
  import opened Domain
  import opened Bank
  import opened BankLaws
  import opened SagaMachine
  import opened SagaInterleaved
  import opened SagaSerialised

  /** A handler about to store FAILED after a refund, or to announce it, has refunded. */
  ghost predicate Promised(w: World, h: Handler) {
    (h.Persist? && h.cur.state.Failed?) || h.PublishFailed? ==> h.cur.start.pid in w.bank.comps
  }

  ghost predicate EventOk(w: World, r: OutboxRow) {
    && CopyOk(w, r.body)
    && (r.topic.TxCompleted? ==> ReservationIs(w.bank, r.body.start.pid, Confirmed))
    && (r.topic.TxFailed? ==> r.body.start.pid in w.bank.comps)
  }

  ghost predicate OutboxOk(w: World) {
    forall i | 0 <= i < |w.outbox| :: EventOk(w, w.outbox[i])
  }

  lemma EventStaysOk(w: World, w': World, r: OutboxRow)
    requires EventOk(w, r) && Grows(w, w')
    ensures EventOk(w', r)
  {
    CopyStaysOk(w, w', r.body);
  }

  lemma PromiseStays(w: World, w': World, h: Handler)
    requires Promised(w, h) && Grows(w, w')
    ensures Promised(w', h)
  {
  }

  /** A step that enqueues `more`. */
  lemma OutboxStaysOk(w: World, w': World, more: seq<OutboxRow>)
    requires OutboxOk(w) && Grows(w, w') && w'.outbox == w.outbox + more
    requires forall i | 0 <= i < |more| :: EventOk(w, more[i])
    ensures OutboxOk(w')
  {
    hide Grows, EventOk;
    forall i | 0 <= i < |w'.outbox| ensures EventOk(w', w'.outbox[i]) {
      EventStaysOk(w, w', if i < |w.outbox| then w.outbox[i] else more[i - |w.outbox|]);
    }
  }

  lemma EnterPromises(w: World, h: Handler)
    requires !h.HasCopy()
    ensures var (w', h') := Enter(w, h); w'.outbox == w.outbox && Promised(w', h')
  {
  }

  /** The rows a step of `h` enqueues. */
  ghost function Enqueues(h: Handler): seq<OutboxRow>
    requires h.HasCopy()
  {
    match h
    case Launch(c) => [OutboxRow(PaymentExecute, c), OutboxRow(FraudScoreRequested, c)]
    case PublishCompleted(c) => [OutboxRow(TxCompleted, c)]
    case PublishFailed(c) => [OutboxRow(TxFailed, c)]
    case PersistPaused(c, _) => [OutboxRow(TxPaused, c)]
    case _ => []
  }

  lemma StepEnqueues(w: World, h: Handler)
    requires h.HasCopy() && h.cur.start.pid in w.sagas
    ensures Continue(w, h).0.outbox == w.outbox + Enqueues(h)
  {
    hide CallDebit, CallReserve, CallConfirm, CallCancel, CallCompensate;
  }

  lemma EnqueuesOk(w: World, h: Handler)
    requires HandlerOk(w, h) && Promised(w, h) && h.HasCopy()
    ensures forall i | 0 <= i < |Enqueues(h)| :: EventOk(w, Enqueues(h)[i])
  {
  }

  lemma StepPromises(w: World, h: Handler)
    requires HandlerOk(w, h) && Promised(w, h) && h.HasCopy() && h.cur.start.pid in w.sagas
    ensures var (w', h') := Continue(w, h); Promised(w', h')
  {
    hide CallDebit, CallReserve, CallConfirm, CallCancel, CallCompensate;
    if h.Compensate? { CallCompensateShape(w.bank, h.cur); }
  }

  lemma ExecAnnounces(w: World, h: Handler)
    requires WorldOk(w) && HandlerOk(w, h) && Promised(w, h) && OutboxOk(w)
    ensures var (w', h') := Exec(w, h); Promised(w', h') && OutboxOk(w')
  {
    hide Enter, Continue, Grows, HandlerOk, Promised, EventOk, WorldOk;
    ExecKeeps(w, h);
    var (w', h') := Exec(w, h);
    if !h.HasCopy() {
      EnterPromises(w, h);
      OutboxStaysOk(w, w', []);
    } else if h.cur.start.pid in w.sagas {
      StepPromises(w, h);
      StepEnqueues(w, h);
      EnqueuesOk(w, h);
      OutboxStaysOk(w, w', Enqueues(h));
    } else {
      NothingPromised(w);
    }
  }

  lemma NothingPromised(w: World)
    ensures Promised(w, Done(Errored))
  {
  }

  // ----- Systems -----

  ghost predicate AnnouncementsOk(s: System) {
    SystemOk(s) && OutboxOk(s.w) && forall id | id in s.live :: Promised(s.w, s.live[id])
  }

  lemma TakeAnnounces(s: System, l: Label)
    requires AnnouncementsOk(s)
    ensures AnnouncementsOk(Take(s, l))
  {
    hide Exec, Grows, EventOk, SystemOk, Promised;
    var s' := Take(s, l);
    TakeKeeps(s, l);
    if l.Step? && l.id in s.live {
      LiveOk(s, l.id);
      ExecAnnounces(s.w, s.live[l.id]);
    } else {
      assert s'.w.outbox == s.w.outbox + [];
      OutboxStaysOk(s.w, s'.w, []);
    }
    forall id | id in s'.live ensures Promised(s'.w, s'.live[id]) {
      if id in s.live && !(l.Step? && l.id == id) { PromiseStays(s.w, s'.w, s.live[id]); }
      else if l.Spawn? { EntryPromises(s'.w, l.entry); }
    }
  }

  lemma LiveOk(s: System, id: nat)
    requires SystemOk(s) && id in s.live
    ensures WorldOk(s.w) && HandlerOk(s.w, s.live[id])
  {
  }

  lemma EntryPromises(w: World, h: Handler)
    requires h.Entry()
    ensures Promised(w, h)
  {
  }

  lemma {:induction false} RunAnnounces(s: System, ls: seq<Label>)
    requires AnnouncementsOk(s)
    ensures AnnouncementsOk(TakeAll(s, ls))
    decreases ls
  {
    hide AnnouncementsOk, Take;
    if ls != [] {
      TakeAnnounces(s, ls[0]);
      RunAnnounces(Take(s, ls[0]), ls[1..]);
    }
  }

  /** Interleaved setting. In every reachable state, every event in the outbox carries the payload
      its payment was started with; tx.completed stands only for payments settled and never
      refunded, tx.failed only for payments cancelled and refunded in full; and so no payment is
      announced both completed and failed. */
  lemma AnnouncementsAreTrue(s: System, ls: seq<Label>, i: nat, j: nat)
    requires Initial(s) && i < |TakeAll(s, ls).w.outbox| && j < |TakeAll(s, ls).w.outbox|
    ensures var w := TakeAll(s, ls).w; var r := w.outbox[i]; var p := r.body.start.pid;
      && p in w.sagas && r.body.start == w.sagas[p].start
      && (r.topic.TxCompleted? ==> ReservationIs(w.bank, p, Confirmed) && p !in w.bank.comps)
      && (r.topic.TxFailed? ==> ReservationIs(w.bank, p, Canceled) && p in w.bank.comps && p in w.bank.debits && Refunds(w.bank.comps[p], w.bank.debits[p]))
      && !(r.topic.TxCompleted? && w.outbox[j].topic.TxFailed? && w.outbox[j].body.start.pid == p)
  {
    InitialOk(s);
    assert AnnouncementsOk(s);
    RunAnnounces(s, ls);
    var w := TakeAll(s, ls).w;
    assert EventOk(w, w.outbox[i]) && EventOk(w, w.outbox[j]) && PaymentOk(w, w.outbox[i].body.start.pid);
  }
}
