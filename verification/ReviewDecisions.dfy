/** A payment held for fraud review, in the serialised setting: only an operator's decision ends
    the hold, and the audit trail names the operator who gave it. */
module ReviewDecisions {
  import opened Domain
  import opened Bank
  import opened SagaMachine
  import opened SagaInterleaved
  import opened SagaSerialised

  // ----- Where a decision comes from -----

  predicate IsDecision(kind: AuditKind) { kind.ReviewResumed? || kind.ReviewRejected? }

  /** The call by which an operator gives decision `d`. */
  function Given(kind: AuditKind, d: ReviewDecision): Handler {
    if kind.ReviewResumed? then OnResume(d) else OnReject(d)
  }

  predicate Names(r: AuditRecord, d: ReviewDecision) { r.actor == d.actor && r.pid == d.pid }

  /** Label `k` of the run from `s` started handler `id` with `entry`. */
  ghost predicate StartedAt(s: System, ls: seq<Label>, k: int, id: nat, entry: Handler) {
    0 <= k < |ls| && ls[k] == Spawn(id, entry) && id !in TakeAll(s, ls[..k]).live
  }

  /** And that handler has not died since. */
  ghost predicate LiveSince(s: System, ls: seq<Label>, k: int, id: nat, entry: Handler) {
    StartedAt(s, ls, k, id, entry) && Die(id) !in ls[k + 1..]
  }

  /** Handler `id` was started by the operator, and for the payment, that `r` names. */
  ghost predicate DecidedBy(s: System, ls: seq<Label>, id: nat, r: AuditRecord) {
    exists k, d :: LiveSince(s, ls, k, id, Given(r.kind, d)) && Names(r, d)
  }

  /** Some handler was. */
  ghost predicate WasDecided(s: System, ls: seq<Label>, r: AuditRecord) {
    exists k, id, d :: StartedAt(s, ls, k, id, Given(r.kind, d)) && Names(r, d)
  }

  /** What a live handler that may write a decision's audit row goes back to. */
  ghost predicate Origin(s: System, ls: seq<Label>, id: nat, h: Handler) {
    match h
    case OnResume(_) => exists k :: LiveSince(s, ls, k, id, h)
    case OnReject(_) => exists k :: LiveSince(s, ls, k, id, h)
    case PersistResumed(_, r, _) => r.kind.ReviewResumed? && DecidedBy(s, ls, id, r)
    case PersistRejected(_, r) => r.kind.ReviewRejected? && DecidedBy(s, ls, id, r)
    case PersistPaused(_, r) => !IsDecision(r.kind)
    case PersistAudited(_, r) => !IsDecision(r.kind)
    case RecordAudit(r) => !IsDecision(r.kind)
    case _ => true
  }

  lemma {:induction false} TakeAllAppend(s: System, ls: seq<Label>, l: Label)
    ensures TakeAll(s, ls + [l]) == Take(TakeAll(s, ls), l)
    decreases ls
  {
    hide Take;
    if ls == [] {
      assert ls + [l] == [l];
      assert [l][1..] == [];
    } else {
      assert (ls + [l])[0] == ls[0] && (ls + [l])[1..] == ls[1..] + [l];
      TakeAllAppend(Take(s, ls[0]), ls[1..], l);
    }
  }

  lemma StartStays(s: System, ls: seq<Label>, l: Label, k: int, id: nat, entry: Handler)
    requires StartedAt(s, ls, k, id, entry)
    ensures StartedAt(s, ls + [l], k, id, entry)
    ensures LiveSince(s, ls, k, id, entry) && l != Die(id) ==> LiveSince(s, ls + [l], k, id, entry)
  {
    hide TakeAll;
    assert (ls + [l])[..k] == ls[..k] && (ls + [l])[k + 1..] == ls[k + 1..] + [l];
  }

  lemma DecidedStays(s: System, ls: seq<Label>, l: Label, id: nat, r: AuditRecord)
    requires DecidedBy(s, ls, id, r) && l != Die(id)
    ensures DecidedBy(s, ls + [l], id, r)
  {
    hide LiveSince;
    var k, d :| LiveSince(s, ls, k, id, Given(r.kind, d)) && Names(r, d);
    assert StartedAt(s, ls, k, id, Given(r.kind, d)) by { LiveWasStarted(s, ls, k, id, Given(r.kind, d)); }
    StartStays(s, ls, l, k, id, Given(r.kind, d));
  }

  lemma LiveWasStarted(s: System, ls: seq<Label>, k: int, id: nat, entry: Handler)
    requires LiveSince(s, ls, k, id, entry)
    ensures StartedAt(s, ls, k, id, entry)
  {
  }

  lemma WasDecidedStays(s: System, ls: seq<Label>, l: Label, r: AuditRecord)
    requires WasDecided(s, ls, r)
    ensures WasDecided(s, ls + [l], r)
  {
    hide StartedAt;
    var k, id, d :| StartedAt(s, ls, k, id, Given(r.kind, d)) && Names(r, d);
    StartStays(s, ls, l, k, id, Given(r.kind, d));
  }

  lemma OriginStays(s: System, ls: seq<Label>, l: Label, id: nat, h: Handler)
    requires Origin(s, ls, id, h) && l != Die(id)
    ensures Origin(s, ls + [l], id, h)
  {
    hide LiveSince, DecidedBy;
    if h.OnResume? || h.OnReject? {
      var k :| LiveSince(s, ls, k, id, h);
      LiveWasStarted(s, ls, k, id, h);
      StartStays(s, ls, l, k, id, h);
    } else if h.PersistResumed? || h.PersistRejected? {
      DecidedStays(s, ls, l, id, h.record);
    }
  }

  /** A decision's record is made of the decision the handler was started with. */
  lemma EnterOrigin(s: System, ls: seq<Label>, id: nat, w: World, h: Handler)
    requires Origin(s, ls, id, h) && !h.HasCopy()
    ensures Origin(s, ls, id, Enter(w, h).1)
  {
    hide LiveSince;
    if h.OnResume? {
      var k :| LiveSince(s, ls, k, id, Given(ReviewResumed, h.decision));
    } else if h.OnReject? {
      var k :| LiveSince(s, ls, k, id, Given(ReviewRejected, h.decision));
    }
  }

  lemma ContinueOrigin(s: System, ls: seq<Label>, id: nat, w: World, h: Handler)
    requires h.HasCopy() && h.cur.start.pid in w.sagas
    ensures Origin(s, ls, id, Continue(w, h).1)
  {
    hide CallDebit, CallReserve, CallConfirm, CallCancel, CallCompensate, DecidedBy, LiveSince;
  }

  /** The only audit row a step adds is its handler's record. */
  lemma ExecAudits(w: World, h: Handler)
    ensures var w' := Exec(w, h).0;
      w'.audit == w.audit || ((h.RecordAudit? || h.PersistPaused? || h.PersistAudited? || h.PersistResumed? || h.PersistRejected?)
                              && w'.audit == w.audit[h.record.key := h.record])
  {
    hide CallDebit, CallReserve, CallConfirm, CallCancel, CallCompensate;
  }

  ghost predicate Traced(s: System, ls: seq<Label>, now: System) {
    && (forall id | id in now.live :: Origin(s, ls, id, now.live[id]))
    && (forall key | key in now.w.audit && IsDecision(now.w.audit[key].kind) :: WasDecided(s, ls, now.w.audit[key]))
  }

  lemma AppendTraced(s: System, ls: seq<Label>, l: Label, now: System)
    requires Traced(s, ls, now)
    ensures forall id | id in now.live && l != Die(id) :: Origin(s, ls + [l], id, now.live[id])
    ensures forall key | key in now.w.audit && IsDecision(now.w.audit[key].kind) :: WasDecided(s, ls + [l], now.w.audit[key])
  {
    hide Origin, WasDecided;
    forall id | id in now.live && l != Die(id) ensures Origin(s, ls + [l], id, now.live[id]) {
      OriginStays(s, ls, l, id, now.live[id]);
    }
    forall key | key in now.w.audit && IsDecision(now.w.audit[key].kind) ensures WasDecided(s, ls + [l], now.w.audit[key]) {
      WasDecidedStays(s, ls, l, now.w.audit[key]);
    }
  }

  lemma RecordWasDecided(s: System, ls: seq<Label>, id: nat, h: Handler)
    requires Origin(s, ls, id, h)
    requires h.RecordAudit? || h.PersistPaused? || h.PersistAudited? || h.PersistResumed? || h.PersistRejected?
    ensures IsDecision(h.record.kind) ==> WasDecided(s, ls, h.record)
  {
    hide StartedAt;
  }

  lemma StepTraced(s: System, ls: seq<Label>, now: System, id: nat)
    requires Traced(s, ls, now)
    ensures Traced(s, ls + [Step(id)], Take(now, Step(id)))
  {
    hide Origin, WasDecided, Exec;
    AppendTraced(s, ls, Step(id), now);
    if id in now.live {
      var ls' := ls + [Step(id)];
      var h := now.live[id];
      ExecOrigin(s, ls', id, now.w, h);
      ExecAudits(now.w, h);
      if h.RecordAudit? || h.PersistPaused? || h.PersistAudited? || h.PersistResumed? || h.PersistRejected? {
        RecordWasDecided(s, ls', id, h);
      }
    }
  }

  lemma ExecOrigin(s: System, ls: seq<Label>, id: nat, w: World, h: Handler)
    requires Origin(s, ls, id, h)
    ensures Origin(s, ls, id, Exec(w, h).1)
  {
    hide Enter, Continue, DecidedBy, LiveSince;
    if !h.HasCopy() {
      EnterOrigin(s, ls, id, w, h);
    } else if h.cur.start.pid in w.sagas {
      ContinueOrigin(s, ls, id, w, h);
    }
  }

  lemma SpawnTraced(s: System, ls: seq<Label>, id: nat, entry: Handler)
    requires entry.Entry() && id !in TakeAll(s, ls).live
    ensures Origin(s, ls + [Spawn(id, entry)], id, entry)
  {
    hide TakeAll;
    var ls' := ls + [Spawn(id, entry)];
    assert ls'[..|ls|] == ls && ls'[|ls| + 1..] == [];
    assert LiveSince(s, ls', |ls|, id, entry);
  }

  lemma TakeTraced(s: System, ls: seq<Label>, l: Label)
    requires Traced(s, ls, TakeAll(s, ls))
    ensures Traced(s, ls + [l], Take(TakeAll(s, ls), l))
  {
    hide Origin, WasDecided, Exec, TakeAll;
    var now := TakeAll(s, ls);
    if l.Step? {
      StepTraced(s, ls, now, l.id);
    } else {
      AppendTraced(s, ls, l, now);
      if l.Spawn? && l.id !in now.live && l.entry.Entry() { SpawnTraced(s, ls, l.id, l.entry); }
    }
  }

  lemma {:induction false} RunTraced(s: System, ls: seq<Label>)
    requires s.live == map[] && s.w.audit == map[]
    ensures Traced(s, ls, TakeAll(s, ls))
    decreases |ls|
  {
    hide Origin, WasDecided, Take;
    if ls != [] {
      var before := ls[..|ls| - 1];
      var l := ls[|ls| - 1];
      assert ls == before + [l];
      RunTraced(s, before);
      TakeTraced(s, before, l);
      TakeAllAppend(s, before, l);
    }
  }

  /** Interleaved setting. In every reachable state each decision in the audit trail was given, on
      that payment, by the operator it names; and so was each decision about to be stored, in the
      very call that is about to store it. */
  lemma DecisionsNameTheirOperator(s: System, ls: seq<Label>)
    requires Initial(s)
    ensures var now := TakeAll(s, ls);
      && (forall key | key in now.w.audit && IsDecision(now.w.audit[key].kind) :: WasDecided(s, ls, now.w.audit[key]))
      && (forall id | id in now.live && now.live[id].PersistResumed? ::
            now.live[id].record.kind.ReviewResumed? && DecidedBy(s, ls, id, now.live[id].record))
      && (forall id | id in now.live && now.live[id].PersistRejected? ::
            now.live[id].record.kind.ReviewRejected? && DecidedBy(s, ls, id, now.live[id].record))
  {
    hide TakeAll, WasDecided, DecidedBy;
    RunTraced(s, ls);
  }

  // ----- The review hold -----

  ghost predicate SameMoney(b: Bank, b': Bank, p: PaymentId) {
    && (p in b'.debits <==> p in b.debits) && (p in b'.comps <==> p in b.comps)
    && (p in b'.reservations <==> p in b.reservations)
    && (p in b.reservations ==> b'.reservations[p] == b.reservations[p])
  }

  /** Which handlers can be live while their payment is in review: those that have not
      read the row yet, those that will only add a note, and the two decisions. */
  lemma LiveInReview(w: World, h: Handler)
    requires Serial(w, h) && h.HasCopy() && w.sagas[h.Pid()].state.FraudReview?
    ensures h.PersistAudited? || h.PersistResumed? || h.PersistRejected?
  {
  }

  lemma NoteHolds(w: World, c: Saga, r: AuditRecord)
    requires Serial(w, PersistAudited(c, r)) && w.sagas[c.start.pid].start == c.start
    ensures var w' := Exec(w, PersistAudited(c, r)).0;
      c.start.pid in w'.sagas && SameExceptNotes(w.sagas[c.start.pid], w'.sagas[c.start.pid]) && w'.bank == w.bank
  {
  }

  lemma EntryHolds(w: World, h: Handler)
    requires !h.HasCopy() && h.Pid() in w.sagas
    ensures var w' := Exec(w, h).0; w'.sagas == w.sagas && w'.bank == w.bank
  {
  }

  lemma DecisionRecorded(w: World, h: Handler)
    requires Serial(w, h) && (h.PersistResumed? || h.PersistRejected?)
    ensures var w' := Exec(w, h).0;
      && w'.bank == w.bank && h.record.key in w'.audit && w'.sagas == Save(w, h.cur).sagas
      && (h.record.key !in w.audit ==> w'.audit[h.record.key] == h.record)
  {
  }

  /** Step `l` commits an operator's decision on `p`: its audit row is there, in the same transaction
      and with the operator who gave the decision, unless the same kind of decision on the payment
      was already recorded at that very instant. */
  ghost predicate CommitsDecision(now: System, l: Label, p: PaymentId) {
    && l.Step? && l.id in now.live && (now.live[l.id].PersistResumed? || now.live[l.id].PersistRejected?)
    && var r := now.live[l.id].record; var w' := Take(now, l).w;
       && r.pid == p && r.key in w'.audit && (r.key !in now.w.audit ==> w'.audit[r.key] == r)
       && r.kind == (if now.live[l.id].PersistResumed? then ReviewResumed else ReviewRejected)
  }

  lemma HoldStep(s: System, l: Label, p: PaymentId)
    requires SerialOk(s) && Allowed(s, l) && p in s.w.sagas && s.w.sagas[p].state.FraudReview?
    ensures var w' := Take(s, l).w;
      && p in w'.sagas && SameMoney(s.w.bank, w'.bank, p)
      && (SameExceptNotes(s.w.sagas[p], w'.sagas[p]) || CommitsDecision(s, l, p))
  {
    if l.Step? && l.id in s.live {
      var h := s.live[l.id];
      assert Serial(s.w, h) && HandlerOk(s.w, h) && PaymentOk(s.w, p);
      if h.Pid() != p {
        StepTellsAll(s, l.id);
        ElsewhereSame(s.w, Take(s, l).w, h.Pid(), p);
      } else if !h.HasCopy() {
        EntryHolds(s.w, h);
      } else {
        LiveInReview(s.w, h);
        if h.PersistAudited? { NoteHolds(s.w, h.cur, h.record); } else { DecisionRecorded(s.w, h); }
      }
    } else if !l.Step? {
      OthersSame(s, l);
    }
  }

  /** Serialised setting, after any run. While a payment is held in review, every step of every
      handler and every other service leaves its state, its debit, its refund and its reservation
      alone and keeps a deferred result once stored, except the commit of an operator's decision;
      and that decision was given by the operator its audit record names. */
  lemma ReviewHold(s: System, ls: seq<Label>, l: Label, p: PaymentId)
    requires Initial(s) && SerialRun(s, ls) && Allowed(TakeAll(s, ls), l)
    requires var w := TakeAll(s, ls).w; p in w.sagas && w.sagas[p].state.FraudReview?
    ensures var now := TakeAll(s, ls); var w' := Take(now, l).w;
      && p in w'.sagas && SameMoney(now.w.bank, w'.bank, p)
      && (SameExceptNotes(now.w.sagas[p], w'.sagas[p])
          || (CommitsDecision(now, l, p) && DecidedBy(s, ls, l.id, now.live[l.id].record)))
  {
    hide TakeAll, Take, SerialOk, SameMoney, SameExceptNotes, DecidedBy, Allowed, WasDecided;
    InitialTells(s);
    RunTells(s, ls);
    HoldStep(TakeAll(s, ls), l, p);
    DecisionsNameTheirOperator(s, ls);
  }

  /** No operator decision on `p` is committed during the run. */
  ghost predicate Undecided(s: System, ls: seq<Label>, p: PaymentId)
    decreases ls
  {
    ls != [] ==>
      && !(ls[0].Step? && ls[0].id in s.live && s.live[ls[0].id].Pid() == p
           && (s.live[ls[0].id].PersistResumed? || s.live[ls[0].id].PersistRejected?))
      && Undecided(Take(s, ls[0]), ls[1..], p)
  }

  /** Serialised setting. Over every run without an operator decision on the payment, no event
      handler and no restart moves it out of review, touches its money, or replaces the first
      deferred result. */
  lemma {:induction false} OnlyDecisionsEndTheHold(s: System, ls: seq<Label>, p: PaymentId)
    requires SerialOk(s) && SerialRun(s, ls) && Undecided(s, ls, p) && p in s.w.sagas && s.w.sagas[p].state.FraudReview?
    ensures var w' := TakeAll(s, ls).w;
      && p in w'.sagas && w'.sagas[p].state.FraudReview? && SameMoney(s.w.bank, w'.bank, p)
      && (s.w.sagas[p].deferred.Some? ==> w'.sagas[p].deferred == s.w.sagas[p].deferred)
    decreases ls
  {
    hide Take, Allowed, SystemOk, Tells, OneHandlerPerPayment;
    if ls != [] {
      HoldStep(s, ls[0], p);
      TakeTells(s, ls[0]);
      OnlyDecisionsEndTheHold(Take(s, ls[0]), ls[1..], p);
    }
  }
}
