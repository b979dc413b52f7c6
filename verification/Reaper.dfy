/** The sweep that rejects overdue reviews, and startup recovery: what a loop over every
    open payment leaves behind, when nothing else runs meanwhile. `fate(p)` is how many
    statements and calls succeed on payment `p` before one fails. */
module Reaper {
  import opened Domain
  import opened Bank
  import opened BankLaws
  import opened BankFrames
  import opened SagaMachine
  import opened SagaSteps
  import opened SagaInterleaved
  import opened SagaSerialised
  import opened Compensation

  // ----- The loops -----

  const REAPER_ACTOR := "system:fraud-review-reaper"

  /** The flag's own time, or the last update of a row without one. */
  function ReviewStartedAt(row: Saga): int {
    if row.flag.Some? && row.flag.value.occurredAt != ZERO_TIME then row.flag.value.occurredAt else row.updatedAt
  }

  predicate Overdue(row: Saga, deadline: int) {
    row.state.FraudReview? && ReviewStartedAt(row) <= deadline
  }

  function Expiry(row: Saga, reason: string): Handler {
    OnReject(ReviewDecision(row.start.pid, REAPER_ACTOR, reason))
  }

  /** The sweep: the world it leaves, how many reviews it rejected, how many attempts failed. */
  function Sweep(w: World, rows: seq<Saga>, deadline: int, reason: string, fate: PaymentId -> nat): (World, nat, nat)
    decreases rows
  {
    if rows == [] then (w, 0, 0)
    else if !Overdue(rows[0], deadline) then Sweep(w, rows[1..], deadline, reason, fate)
    else
      var (w1, c1) := RunCall(w, Call(Expiry(rows[0], reason), false), fate(rows[0].start.pid));
      var (w2, expired, failures) := Sweep(w1, rows[1..], deadline, reason, fate);
      match CallReply(c1)
      case Replied(Finished) => (w2, expired + 1, failures)
      case Replied(NotUnderReview) => (w2, expired, failures)
      case _ => (w2, expired, failures + 1)
  }

  // ----- The sweep -----

  /** Stored rows of different payments. */
  ghost predicate Listed(w: World, rows: seq<Saga>) {
    && (forall i | 0 <= i < |rows| :: rows[i].start.pid in w.sagas && w.sagas[rows[i].start.pid] == rows[i])
    && (forall i, j | 0 <= i < j < |rows| :: rows[i].start.pid != rows[j].start.pid)
  }

  /** What the store's query for open payments returns, in some order. */
  ghost predicate ListsOpen(w: World, rows: seq<Saga>) {
    Listed(w, rows) && forall p | p in w.sagas && !Terminal(w.sagas[p].state) :: w.sagas[p] in rows
  }

  lemma StillListed(w: World, w1: World, rows: seq<Saga>)
    requires Listed(w, rows) && rows != [] && Elsewhere(w, w1, rows[0].start.pid)
    ensures Listed(w1, rows[1..])
    ensures forall i | 0 < i < |rows| :: SameFor(w, w1, rows[i].start.pid)
  {
    forall i | 0 < i < |rows| ensures SameFor(w, w1, rows[i].start.pid) {
      ElsewhereSameFor(w, w1, rows[0].start.pid, rows[i].start.pid);
    }
  }

  /** An overdue review that was not settled, on which `least` statements and calls succeed. */
  ghost predicate Rejectable(w: World, row: Saga, deadline: int, fate: PaymentId -> nat, least: nat) {
    Overdue(row, deadline) && ReservationIs(w.bank, row.start.pid, Reserved) && fate(row.start.pid) >= least
  }

  ghost function RejectableCount(w: World, rows: seq<Saga>, deadline: int, fate: PaymentId -> nat, least: nat): nat
    decreases rows
  {
    if rows == [] then 0
    else RejectableCount(w, rows[1..], deadline, fate, least) + if Rejectable(w, rows[0], deadline, fate, least) then 1 else 0
  }

  /** The overdue reviews among `rows` that `w` holds as rejected and refunded. */
  ghost function RejectedCount(w: World, rows: seq<Saga>, deadline: int, reason: string): nat
    decreases rows
  {
    if rows == [] then 0
    else RejectedCount(w, rows[1..], deadline, reason)
         + if Overdue(rows[0], deadline) && RejectedInFull(w, rows[0].start.pid, reason) then 1 else 0
  }

  /** A rejection needs six statements and calls to take effect and eight to be answered. */
  const STORED := 6
  const ANSWERED := 8

  function OverdueCount(rows: seq<Saga>, deadline: int): nat {
    if rows == [] then 0 else OverdueCount(rows[1..], deadline) + if Overdue(rows[0], deadline) then 1 else 0
  }

  lemma {:induction false} RejectableSame(w: World, w1: World, rows: seq<Saga>, deadline: int, fate: PaymentId -> nat, least: nat)
    requires forall i | 0 <= i < |rows| :: SameFor(w, w1, rows[i].start.pid)
    ensures RejectableCount(w1, rows, deadline, fate, least) == RejectableCount(w, rows, deadline, fate, least)
    decreases rows
  {
    if rows != [] {
      assert SameFor(w, w1, rows[0].start.pid);
      RejectableSame(w, w1, rows[1..], deadline, fate, least);
    }
  }

  /** One iteration on an overdue review. */
  lemma ExpiryStep(w: World, rows: seq<Saga>, deadline: int, reason: string, fate: PaymentId -> nat)
    requires Consistent(w) && Total(w.bank) <= MAX_INT64 && Listed(w, rows) && rows != [] && Overdue(rows[0], deadline)
    ensures var p := rows[0].start.pid; var (w1, c1) := RunCall(w, Call(Expiry(rows[0], reason), false), fate(p));
      && Consistent(w1) && Elsewhere(w, w1, p) && Total(w1.bank) == Total(w.bank)
      && (CallReply(c1) == Replied(Finished) <==> Rejectable(w, rows[0], deadline, fate, ANSWERED))
      && CallReply(c1) != Replied(NotUnderReview)
      && (RejectedInFull(w1, p, reason) <==> Rejectable(w, rows[0], deadline, fate, STORED))
  {
    hide RunFor, RunCall, Left, Consistent, Total, Elsewhere, RejectedInFull;
    assert w.sagas[rows[0].start.pid] == rows[0];
    var d := ReviewDecision(rows[0].start.pid, REAPER_ACTOR, reason);
    RejectionOutcome(w, d, fate(d.pid));
    RejectRunConsistent(w, d, fate(d.pid));
    CallWorld(w, OnReject(d), false, fate(d.pid));
  }

  /** The sweep leaves a consistent world with the same money and counts as it should. */
  lemma {:induction false} SweepCounts(w: World, rows: seq<Saga>, deadline: int, reason: string, fate: PaymentId -> nat)
    requires Consistent(w) && Total(w.bank) <= MAX_INT64 && Listed(w, rows)
    ensures var (w', expired, failures) := Sweep(w, rows, deadline, reason, fate);
      && Consistent(w') && Total(w'.bank) == Total(w.bank)
      && expired == RejectableCount(w, rows, deadline, fate, ANSWERED) && expired + failures == OverdueCount(rows, deadline)
    decreases rows
  {
    hide RunFor, RunCall, Left, Consistent, Total, Elsewhere, RejectedInFull;
    if rows != [] {
      if Overdue(rows[0], deadline) {
        ExpiryStep(w, rows, deadline, reason, fate);
        var w1 := RunCall(w, Call(Expiry(rows[0], reason), false), fate(rows[0].start.pid)).0;
        StillListed(w, w1, rows);
        SweepCounts(w1, rows[1..], deadline, reason, fate);
        RejectableSame(w, w1, rows[1..], deadline, fate, ANSWERED);
      } else {
        SweepCounts(w, rows[1..], deadline, reason, fate);
      }
    }
  }

  lemma SameForReflexive(w: World, p: PaymentId)
    ensures SameFor(w, w, p)
  {
  }

  lemma SameForTransitive(w: World, w1: World, w2: World, p: PaymentId)
    requires SameFor(w, w1, p)
    ensures SameFor(w1, w2, p) ==> SameFor(w, w2, p)
    ensures ReservationIs(w1.bank, p, Reserved) == ReservationIs(w.bank, p, Reserved)
  {
  }

  lemma RejectedStays(w: World, w': World, p: PaymentId, reason: string)
    requires SameFor(w, w', p)
    ensures RejectedInFull(w', p, reason) == RejectedInFull(w, p, reason)
  {
  }

  /** What the sweep does to one payment, whatever happens to the others. */
  lemma {:induction false} SweepAt(w: World, rows: seq<Saga>, deadline: int, reason: string, fate: PaymentId -> nat, p: PaymentId)
    requires Consistent(w) && Total(w.bank) <= MAX_INT64 && Listed(w, rows)
    ensures var w' := Sweep(w, rows, deadline, reason, fate).0;
      && ((forall i | 0 <= i < |rows| :: rows[i].start.pid == p ==> !Overdue(rows[i], deadline)) ==> SameFor(w, w', p))
      && (forall i | 0 <= i < |rows| && rows[i].start.pid == p && Overdue(rows[i], deadline) ::
            RejectedInFull(w', p, reason) <==> Rejectable(w, rows[i], deadline, fate, STORED))
    decreases rows
  {
    hide RunFor, RunCall, Left, Consistent, Total, Elsewhere, SameFor, RejectedInFull, ReservationIs;
    if rows == [] {
      SameForReflexive(w, p);
    } else {
      if Overdue(rows[0], deadline) {
        ExpiryStep(w, rows, deadline, reason, fate);
        var w1 := RunCall(w, Call(Expiry(rows[0], reason), false), fate(rows[0].start.pid)).0;
        StillListed(w, w1, rows);
        SweepAt(w1, rows[1..], deadline, reason, fate, p);
        var w' := Sweep(w1, rows[1..], deadline, reason, fate).0;
        if rows[0].start.pid != p {
          ElsewhereSameFor(w, w1, rows[0].start.pid, p);
          SameForTransitive(w, w1, w', p);
        } else {
          RejectedStays(w1, w', p, reason);
        }
      } else {
        SweepAt(w, rows[1..], deadline, reason, fate, p);
      }
    }
  }

  /** Counting the rejected reviews afterwards is counting the rejectable ones before. */
  lemma {:induction false} RejectedAreRejectable(
    w: World, w': World, rows: seq<Saga>, deadline: int, reason: string, fate: PaymentId -> nat)
    requires forall i | 0 <= i < |rows| && Overdue(rows[i], deadline) ::
      RejectedInFull(w', rows[i].start.pid, reason) <==> Rejectable(w, rows[i], deadline, fate, STORED)
    ensures RejectedCount(w', rows, deadline, reason) == RejectableCount(w, rows, deadline, fate, STORED)
    decreases rows
  {
    hide RejectedInFull;
    if rows != [] { RejectedAreRejectable(w, w', rows[1..], deadline, reason, fate); }
  }

  /** An overdue review that is rejected and refunded but not counted: a later statement failed. */
  ghost predicate Uncounted(w: World, row: Saga, deadline: int, fate: PaymentId -> nat) {
    Rejectable(w, row, deadline, fate, STORED) && !Rejectable(w, row, deadline, fate, ANSWERED)
  }

  lemma {:induction false} CountGap(w: World, rows: seq<Saga>, deadline: int, fate: PaymentId -> nat)
    ensures var answered := RejectableCount(w, rows, deadline, fate, ANSWERED);
      var stored := RejectableCount(w, rows, deadline, fate, STORED);
      answered <= stored && (answered == stored <==> forall i | 0 <= i < |rows| :: !Uncounted(w, rows[i], deadline, fate))
    decreases rows
  {
    if rows != [] {
      var rest := rows[1..];
      CountGap(w, rest, deadline, fate);
      assert (forall i | 0 <= i < |rows| :: !Uncounted(w, rows[i], deadline, fate))
        <==> !Uncounted(w, rows[0], deadline, fate) && forall i | 0 <= i < |rest| :: !Uncounted(w, rest[i], deadline, fate) by {
        assert rows == [rows[0]] + rest;
      }
    }
  }

  /** No interference. An overdue review ends FAILED with fraud_rejected and refunded in full exactly
      when its payment was not already settled and six statements and calls on it succeed; every
      payment that is not an overdue review keeps all its rows; neither depends on what happened to
      the other payments. Every overdue review is counted once, as expired or as a failure, and the
      expired ones are all rejected; the two numbers agree exactly when no overdue review met its
      failure between the refund and the answer. */
  lemma SweepRejectsOverdueReviews(w: World, rows: seq<Saga>, deadline: int, reason: string, fate: PaymentId -> nat)
    requires Consistent(w) && Total(w.bank) <= MAX_INT64 && ListsOpen(w, rows)
    ensures var (w', expired, failures) := Sweep(w, rows, deadline, reason, fate);
      && Consistent(w') && expired + failures == OverdueCount(rows, deadline)
      && expired <= RejectedCount(w', rows, deadline, reason)
      && (expired == RejectedCount(w', rows, deadline, reason) <==> forall i | 0 <= i < |rows| :: !Uncounted(w, rows[i], deadline, fate))
      && (forall p | p in w.sagas && Overdue(w.sagas[p], deadline) ::
            RejectedInFull(w', p, reason) <==> Rejectable(w, w.sagas[p], deadline, fate, STORED))
      && (forall p | !(p in w.sagas && Overdue(w.sagas[p], deadline)) :: SameFor(w, w', p))
  {
    hide RunFor, RunCall, Left, Sweep, Total, Elsewhere, RejectedInFull, SameFor, RejectableCount, RejectedCount, Rejectable, Uncounted;
    SweepCounts(w, rows, deadline, reason, fate);
    var w' := Sweep(w, rows, deadline, reason, fate).0;
    forall p
      ensures p in w.sagas && Overdue(w.sagas[p], deadline) ==>
        (RejectedInFull(w', p, reason) <==> Rejectable(w, w.sagas[p], deadline, fate, STORED))
      ensures !(p in w.sagas && Overdue(w.sagas[p], deadline)) ==> SameFor(w, w', p)
    {
      SweepAt(w, rows, deadline, reason, fate, p);
      if p in w.sagas && Overdue(w.sagas[p], deadline) {
        assert PaymentOk(w, p);
        var i :| 0 <= i < |rows| && rows[i] == w.sagas[p];
      }
    }
    RejectedAreRejectable(w, w', rows, deadline, reason, fate);
    CountGap(w, rows, deadline, fate);
  }

  /** Rejected and refunded if its reservation is open and six statements and calls succeed. */
  ghost predicate Expires(w: World, w': World, p: PaymentId, reason: string, fate: PaymentId -> nat) {
    RejectedInFull(w', p, reason) <==> ReservationIs(w.bank, p, Reserved) && fate(p) >= 6
  }

  /** The same by the clock. A review whose flag is from `now - ttl` or before is rejected, one with a
      later flag keeps all its rows; a review without a flag, or with one that has no time, goes by
      its last update. */
  lemma SweepGoesByTheClock(w: World, rows: seq<Saga>, now: int, ttl: int, reason: string, fate: PaymentId -> nat, p: PaymentId)
    requires Consistent(w) && Total(w.bank) <= MAX_INT64 && ListsOpen(w, rows)
    ensures var w' := Sweep(w, rows, now - ttl, reason, fate).0;
      if p !in w.sagas || !w.sagas[p].state.FraudReview? then SameFor(w, w', p)
      else match w.sagas[p].flag
        case Some(f) =>
          if f.occurredAt == 0 then (if w.sagas[p].updatedAt <= now - ttl then Expires(w, w', p, reason, fate) else SameFor(w, w', p))
          else if f.occurredAt <= now - ttl then Expires(w, w', p, reason, fate)
          else SameFor(w, w', p)
        case None => if w.sagas[p].updatedAt <= now - ttl then Expires(w, w', p, reason, fate) else SameFor(w, w', p)
  {
    hide RunFor, RunCall, Left, Sweep, Consistent, Total, RejectedInFull, SameFor;
    SweepRejectsOverdueReviews(w, rows, now - ttl, reason, fate);
    if p in w.sagas && Overdue(w.sagas[p], now - ttl) { NamesItself(w, p); }
  }

  lemma NamesItself(w: World, p: PaymentId)
    requires Consistent(w) && p in w.sagas
    ensures w.sagas[p].start.pid == p
  {
    hide BankOk, Tells;
    assert PaymentOk(w, p);
  }

  /** The numbers do differ: a single overdue review whose refund was stored but whose announcement
      or answer failed is rejected and refunded, yet reported as a failure. */
  lemma RejectedYetReportedAsFailure(w: World, row: Saga, deadline: int, reason: string, fate: PaymentId -> nat)
    requires Consistent(w) && Total(w.bank) <= MAX_INT64 && ListsOpen(w, [row])
    requires Overdue(row, deadline) && ReservationIs(w.bank, row.start.pid, Reserved) && STORED <= fate(row.start.pid) < ANSWERED
    ensures var (w', expired, failures) := Sweep(w, [row], deadline, reason, fate);
      expired == 0 && failures == 1 && RejectedInFull(w', row.start.pid, reason)
  {
    hide Sweep, Consistent, Total, RejectedInFull, SameFor;
    SweepCounts(w, [row], deadline, reason, fate);
    SweepAt(w, [row], deadline, reason, fate, row.start.pid);
    assert [row][0] == row && [row][1..] == [];
  }
}
