/** Fraud sessions: several workers share one row per source event, under a lease that
    expires by the clock. A worker handles one request at a time and has a name of its own;
    clock readings are arbitrary. */
module FraudLease {
  import opened Domain

  datatype Action = Allow | Flag | Block

  datatype Verdict = Verdict(risk: real, action: Action, reason: string, modelAction: Action, normalized: bool)

  datatype Outcome = Outcome(action: Option<Action>, verdict: Option<Verdict>, reasonCode: Option<string>)

  // ----- The outcome columns of a row -----

  datatype Stored = Stored(verdict: Option<Verdict>, finalOutcome: string, failureReason: string, outputType: string)

  const REASON_LIMIT := 100

  function ActionName(a: Action): string {
    match a
    case Allow => "allow"
    case Flag => "flag"
    case Block => "block"
  }

  /** A stored word back to an action; anything else is dropped. */
  function ParseAction(s: string): Option<Action> {
    if s == "allow" then Some(Allow) else if s == "flag" then Some(Flag) else if s == "block" then Some(Block) else None
  }

  function Truncated(s: string): string {
    if |s| <= REASON_LIMIT then s else s[..REASON_LIMIT]
  }

  function OutputType(o: Outcome): string {
    if o.action == Some(Flag) || o.action == Some(Block) then "fraud.flagged"
    else if o.reasonCode.Some? && o.reasonCode.value != "" then "fraud.error"
    else ""
  }

  function ToRow(o: Outcome): Stored {
    Stored(o.verdict,
           if o.action.Some? then ActionName(o.action.value) else "fail_open",
           Truncated(if o.reasonCode.Some? then o.reasonCode.value else ""),
           OutputType(o))
  }

  function FromRow(r: Stored): Outcome {
    Outcome(ParseAction(r.finalOutcome), r.verdict, if r.failureReason == "" then None else Some(r.failureReason))
  }

  /** Reading back loses nothing of the action and the verdict, and writing what was read
      changes nothing. */
  lemma RowKeepsOutcome(o: Outcome)
    ensures FromRow(ToRow(o)).action == o.action && FromRow(ToRow(o)).verdict == o.verdict
    ensures ToRow(FromRow(ToRow(o))) == ToRow(o)
  {
    assert |"fail_open"| == 9;
    assert ParseAction("fail_open") == None;
  }

  /** The whole outcome survives exactly when its reason code is not empty and fits the column. */
  lemma RowRoundTripIff(o: Outcome)
    ensures FromRow(ToRow(o)) == o <==> (o.reasonCode.Some? ==> 0 < |o.reasonCode.value| <= REASON_LIMIT)
  {
    RowKeepsOutcome(o);
  }

  // ----- The lease -----

  datatype Row = Row(owner: string, expires: Option<int>, completed: Option<Stored>, published: bool, events: nat)

  const NEW_ROW := Row("", None, None, false, 0)

  const LEASE_SECONDS := 60

  predicate Leased(r: Row, x: string, now: int) {
    r.owner == x && r.expires.Some? && r.expires.value > now
  }

  function Claim(row: Option<Row>, x: string, now: int): (Option<Row>, bool) {
    var r := if row.Some? then row.value else NEW_ROW;
    if r.completed.Some? || r.owner == x || r.expires.None? || r.expires.value <= now
    then (Some(r.(owner := x, expires := Some(now + LEASE_SECONDS))), true)
    else (Some(r), false)
  }

  function Append(r: Row, x: string, now: int): (Row, bool) {
    if Leased(r, x, now) then (r.(events := r.events + 1), true) else (r, false)
  }

  function Complete(r: Row, x: string, now: int, o: Outcome): (Row, bool) {
    if Leased(r, x, now) then (r.(completed := Some(ToRow(o))), true) else (r, false)
  }

  function MarkPublished(r: Row, x: string, now: int): (Row, bool) {
    if Leased(r, x, now) then (r.(published := true), true) else (r, false)
  }

  function Renew(r: Row, x: string, now: int): (Row, bool) {
    if r.owner == x && r.completed.None? then (r.(expires := Some(now + LEASE_SECONDS)), true) else (r, false)
  }

  function Release(r: Row, x: string): Row {
    if r.owner == x then r.(owner := "", expires := None) else r
  }

  // ----- Workers -----

  /** A published fraud.flagged event: what it says of the payment. */
  datatype Flagged = Flagged(action: Action, verdict: Option<Verdict>)

  /** What is reported of a delivery: done with, or to be delivered again. */
  datatype Decision = Commit | Retry

  /** The session row, the events published, and what was decided on each delivery so far. */
  datatype Shared = Shared(row: Option<Row>, flagged: seq<Flagged>, decisions: seq<Decision>)

  /** Where a worker is with this session; the payload is the outcome it holds in memory. */
  datatype Worker =
    | Idle
    | GraphClaiming                 // claimed, not completed: the scoring graph claims again
    | AuditClaim(found: Outcome)    // the graph found a completed session
    | Scoring
    | GraphCompleting(o: Outcome)
    | Completing(o: Outcome)        // the graph returned this outcome
    | Publishing(o: Outcome)
    | Marking
    | Releasing(decision: Decision)

  /** What the world decides for a worker's next step: the clock, whether scoring is done and
      with what outcome, and whether a publication went through. */
  datatype Choice = Choice(now: int, scored: Option<Outcome>, delivered: bool)

  predicate Flags(o: Outcome) {
    o.action == Some(Flag) || o.action == Some(Block)
  }

  /** The outcome in hand decides what is published. */
  function AfterCompletion(o: Outcome, published: bool): Worker {
    if published then Releasing(Commit)
    else if Flags(o) || o.reasonCode.Some? then Publishing(o)
    else Releasing(Commit)
  }

  function Decided(s: Shared, d: Decision): Shared { s.(decisions := s.decisions + [d]) }

  /** One statement or call of worker `x`. */
  function Act(s: Shared, w: Worker, x: string, c: Choice): (Shared, Worker) {
    if w.Idle? then
      var (row, ok) := Claim(s.row, x, c.now);
      var s' := s.(row := row);
      if !ok then (Decided(s', Retry), Idle)
      else if row.value.completed.Some? then (s', AfterCompletion(FromRow(row.value.completed.value), row.value.published))
      else (s', GraphClaiming)
    else if s.row.None? then (s, Idle)
    else
      var r := s.row.value;
      match w
      case GraphClaiming =>
        var (row, ok) := Claim(s.row, x, c.now);
        if !ok then (s, Releasing(Retry))
        else if row.value.completed.Some? then (s.(row := row), AuditClaim(FromRow(row.value.completed.value)))
        else (s.(row := row), Scoring)
      case AuditClaim(found) =>
        var (r', ok) := Append(r, x, c.now);
        (s.(row := Some(r')), if ok then Returned(found) else Releasing(Retry))
      case Scoring =>
        if c.scored.Some? then (s, GraphCompleting(c.scored.value))
        else
          var (r', ok) := Append(r, x, c.now);
          (s.(row := Some(r')), if ok then Scoring else Releasing(Retry))
      case GraphCompleting(o) =>
        var (r', ok) := Complete(r, x, c.now, o);
        (s.(row := Some(r')), if ok then Returned(o) else Releasing(Retry))
      case Completing(o) =>
        var (r', ok) := Complete(r, x, c.now, o);
        (s.(row := Some(r')), if ok then AfterCompletion(o, r'.published) else Releasing(Retry))
      case Publishing(o) =>
        if Flags(o) then
          if c.delivered then (s.(flagged := s.flagged + [Flagged(o.action.value, o.verdict)]), Marking) else (s, Releasing(Retry))
        else (s, Marking) // fraud.error, delivered or not
      case Marking =>
        var (r', ok) := MarkPublished(r, x, c.now);
        (s.(row := Some(r')), Releasing(if ok then Commit else Retry))
      case Releasing(decision) => (Decided(s.(row := Some(Release(r, x))), decision), Idle)
  }

  const AUDIT_FAILED := "audit_failed"

  /** An outcome that says the audit trail failed is retried, not completed. */
  function Returned(o: Outcome): Worker {
    if o.reasonCode == Some(AUDIT_FAILED) then Releasing(Retry) else Completing(o)
  }

  datatype System = System(shared: Shared, workers: map<string, Worker>)

  datatype Label =
    | Step(x: string, choice: Choice)
    | Heartbeat(x: string, now: int)
    | Die(x: string)

  /** The worker named `x`; a name never seen is idle. */
  function WorkerAt(s: System, x: string): Worker {
    if x in s.workers then s.workers[x] else Idle
  }

  function Take(s: System, l: Label): System {
    match l
    case Step(x, c) =>
      if x == "" then s
      else
        var (shared, w) := Act(s.shared, WorkerAt(s, x), x, c);
        System(shared, s.workers[x := w])
    case Heartbeat(x, now) =>
      if s.shared.row.None? then s else s.(shared := s.shared.(row := Some(Renew(s.shared.row.value, x, now).0)))
    case Die(x) => s.(workers := s.workers[x := Idle])
  }

  function TakeAll(s: System, ls: seq<Label>): System
    decreases ls
  {
    if ls == [] then s else TakeAll(Take(s, ls[0]), ls[1..])
  }

  // ----- The invariant -----

  /** A worker still scoring lost the lease if the session was completed meanwhile; a worker
      that holds a returned outcome holds the stored one. */
  ghost predicate WorkerOk(row: Option<Row>, x: string, w: Worker) {
    match w
    case Scoring => row.Some? && (row.value.completed.Some? ==> row.value.owner != x)
    case GraphCompleting(_) => row.Some? && (row.value.completed.Some? ==> row.value.owner != x)
    case AuditClaim(found) => row.Some? && row.value.completed == Some(ToRow(found))
    case Completing(o) => row.Some? && row.value.completed == Some(ToRow(o))
    case Publishing(o) => row.Some? && row.value.completed == Some(ToRow(o))
    case _ => true
  }

  /** The event says what the stored outcome says. */
  ghost predicate Carries(e: Flagged, stored: Stored) {
    var o := FromRow(stored);
    Flags(o) && e == Flagged(o.action.value, o.verdict)
  }

  ghost predicate EventsOk(s: Shared) {
    && (s.flagged != [] ==> s.row.Some? && s.row.value.completed.Some?)
    && forall i | 0 <= i < |s.flagged| :: Carries(s.flagged[i], s.row.value.completed.value)
  }

  /** The stored outcome is one that was written. */
  ghost predicate WrittenOk(row: Option<Row>) {
    row.Some? && row.value.completed.Some? ==> exists o :: row.value.completed.value == ToRow(o)
  }

  ghost predicate SystemOk(s: System) {
    EventsOk(s.shared) && WrittenOk(s.shared.row) && forall x :: x != "" ==> WorkerOk(s.shared.row, x, WorkerAt(s, x))
  }

  /** A completed row keeps its outcome; and only `x` gains the lease. */
  ghost predicate RowStep(row: Option<Row>, row': Option<Row>, x: string) {
    && (row.Some? ==> row'.Some?)
    && (row.Some? && row.value.completed.Some? ==> row'.value.completed == row.value.completed)
    && (row.Some? && row'.value.owner != row.value.owner ==> row'.value.owner == x || row'.value.owner == "")
    && (row.Some? && row.value.completed.None? && row'.value.completed.Some? ==> row'.value.owner == x)
  }

  lemma ReadBack(row: Option<Row>)
    requires WrittenOk(row) && row.Some? && row.value.completed.Some?
    ensures ToRow(FromRow(row.value.completed.value)) == row.value.completed.value
  {
    var o :| row.value.completed.value == ToRow(o);
    RowKeepsOutcome(o);
  }

  lemma OthersStayOk(row: Option<Row>, row': Option<Row>, x: string, y: string, w: Worker)
    requires RowStep(row, row', x) && y != x && y != "" && WorkerOk(row, y, w)
    ensures WorkerOk(row', y, w)
  {
  }

  lemma ActOk(s: Shared, w: Worker, x: string, c: Choice)
    requires x != "" && EventsOk(s) && WrittenOk(s.row) && WorkerOk(s.row, x, w)
    ensures var (s', w') := Act(s, w, x, c);
      EventsOk(s') && WrittenOk(s'.row) && WorkerOk(s'.row, x, w') && RowStep(s.row, s'.row, x) && s.flagged <= s'.flagged
  {
    hide ToRow, FromRow;
    if s.row.Some? && s.row.value.completed.Some? { ReadBack(s.row); }
    match w
    case Publishing(o) => RowKeepsOutcome(o);
    case _ =>
  }

  lemma TakeOk(s: System, l: Label)
    requires SystemOk(s)
    ensures SystemOk(Take(s, l)) && RowStep(s.shared.row, Take(s, l).shared.row, l.x) && s.shared.flagged <= Take(s, l).shared.flagged
  {
    hide ToRow, FromRow, Act;
    var s' := Take(s, l);
    if l.Step? && l.x != "" {
      assert WorkerOk(s.shared.row, l.x, WorkerAt(s, l.x));
      ActOk(s.shared, WorkerAt(s, l.x), l.x, l.choice);
      forall y | y != "" ensures WorkerOk(s'.shared.row, y, WorkerAt(s', y)) {
        if y != l.x { OthersStayOk(s.shared.row, s'.shared.row, l.x, y, WorkerAt(s, y)); }
      }
    } else if !l.Step? {
      forall y | y != "" ensures WorkerOk(s'.shared.row, y, WorkerAt(s', y)) {
        assert WorkerOk(s.shared.row, y, WorkerAt(s, y));
      }
    }
  }

  /** Over every run of any number of workers, with leases expiring, heartbeats, deaths and
      redeliveries anywhere: once a session is completed its stored outcome never changes. */
  lemma {:induction false} OutcomeIsFinal(s: System, ls: seq<Label>)
    requires SystemOk(s)
    ensures var s' := TakeAll(s, ls);
      && SystemOk(s')
      && (s.shared.row.Some? && s.shared.row.value.completed.Some? ==>
            s'.shared.row.Some? && s'.shared.row.value.completed == s.shared.row.value.completed)
    decreases ls
  {
    hide SystemOk, Take;
    if ls != [] {
      TakeOk(s, ls[0]);
      OutcomeIsFinal(Take(s, ls[0]), ls[1..]);
    }
  }

  /** Every fraud.flagged event ever published for the source event carries the action and the
      verdict of the one stored outcome, whichever worker published it. */
  lemma WorkersAgree(ls: seq<Label>)
    ensures var s := TakeAll(System(Shared(None, [], []), map[]), ls).shared;
      s.flagged != [] ==>
        && s.row.Some? && s.row.value.completed.Some?
        && forall i | 0 <= i < |s.flagged| :: Carries(s.flagged[i], s.row.value.completed.value)
  {
    OutcomeIsFinal(System(Shared(None, [], []), map[]), ls);
  }

  // ----- No flag is lost -----

  ghost predicate CallsForFlag(stored: Stored) {
    stored.finalOutcome == "flag" || stored.finalOutcome == "block"
  }

  /** The session is completed, and a flag or a block has been published. */
  ghost predicate Told(s: Shared) {
    s.row.Some? && s.row.value.completed.Some? && (CallsForFlag(s.row.value.completed.value) ==> s.flagged != [])
  }

  /** Marked and committed deliveries have been told. */
  ghost predicate DecisionsOk(s: Shared) {
    (s.row.Some? && s.row.value.published ==> Told(s)) && (Commit in s.decisions ==> Told(s))
  }

  ghost predicate AboutToCommit(w: Worker) {
    w.Marking? || w == Releasing(Commit)
  }

  lemma CallsIffFlags(o: Outcome, stored: Stored)
    ensures CallsForFlag(ToRow(o)) <==> Flags(o)
    ensures CallsForFlag(stored) <==> Flags(FromRow(stored))
  {
    assert |"fail_open"| == 9;
  }

  lemma ActTells(s: Shared, w: Worker, x: string, c: Choice)
    requires x != "" && EventsOk(s) && WorkerOk(s.row, x, w) && DecisionsOk(s) && (AboutToCommit(w) ==> Told(s))
    ensures var (s', w') := Act(s, w, x, c); DecisionsOk(s') && (AboutToCommit(w') ==> Told(s'))
  {
    hide ToRow, FromRow;
    if s.row.Some? && s.row.value.completed.Some? { CallsIffFlags(Outcome(None, None, None), s.row.value.completed.value); }
    match w
    case AuditClaim(o) => CallsIffFlags(o, ToRow(o));
    case GraphCompleting(o) => CallsIffFlags(o, ToRow(o));
    case Completing(o) => CallsIffFlags(o, ToRow(o));
    case Publishing(o) => CallsIffFlags(o, ToRow(o));
    case _ =>
  }

  ghost predicate SystemTells(s: System) {
    DecisionsOk(s.shared) && forall x :: x != "" && AboutToCommit(WorkerAt(s, x)) ==> Told(s.shared)
  }

  lemma ToldStays(s: Shared, s': Shared, x: string)
    requires Told(s) && RowStep(s.row, s'.row, x) && s.flagged <= s'.flagged
    ensures Told(s')
  {
  }

  lemma TakeTells(s: System, l: Label)
    requires SystemOk(s) && SystemTells(s)
    ensures SystemTells(Take(s, l))
  {
    hide ToRow, FromRow, Act;
    var s' := Take(s, l);
    TakeOk(s, l);
    if l.Step? && l.x != "" {
      assert WorkerOk(s.shared.row, l.x, WorkerAt(s, l.x));
      ActTells(s.shared, WorkerAt(s, l.x), l.x, l.choice);
    }
    forall y | y != "" && AboutToCommit(WorkerAt(s', y)) ensures Told(s'.shared) {
      if y != l.x || l.Heartbeat? {
        assert AboutToCommit(WorkerAt(s, y));
        ToldStays(s.shared, s'.shared, l.x);
      }
    }
  }

  lemma {:induction false} RunTells(s: System, ls: seq<Label>)
    requires SystemOk(s) && SystemTells(s)
    ensures SystemTells(TakeAll(s, ls))
    decreases ls
  {
    hide SystemOk, SystemTells, Take;
    if ls != [] {
      TakeOk(s, ls[0]);
      TakeTells(s, ls[0]);
      RunTells(Take(s, ls[0]), ls[1..]);
    }
  }

  /** Over every run of any number of workers: a delivery is reported as done with only once the
      session is completed and, if its outcome is a flag or a block, a fraud.flagged event has been
      published; until then it will be delivered again. */
  lemma NoFlagIsLost(ls: seq<Label>)
    ensures var s := TakeAll(System(Shared(None, [], []), map[]), ls).shared;
      Commit in s.decisions ==>
        && s.row.Some? && s.row.value.completed.Some?
        && (s.row.value.completed.value.finalOutcome == "flag" || s.row.value.completed.value.finalOutcome == "block" ==> s.flagged != [])
  {
    RunTells(System(Shared(None, [], []), map[]), ls);
  }

  // ----- One worker in the form of the source -----

  /** The steps of worker `x` from `w` on, one per choice, until it is idle again. */
  function RunWorker(s: Shared, w: Worker, x: string, cs: seq<Choice>): (Shared, Worker)
    decreases cs
  {
    if cs == [] then (s, w)
    else
      var (s', w') := Act(s, w, x, cs[0]);
      if w'.Idle? then (s', Idle) else RunWorker(s', w', x, cs[1..])
  }

  lemma OneAct(s: Shared, w: Worker, x: string, cs: seq<Choice>)
    requires cs != []
    ensures var (s', w') := Act(s, w, x, cs[0]);
      RunWorker(s, w, x, cs) == if w'.Idle? then (s', Idle) else RunWorker(s', w', x, cs[1..])
  {
  }

  // ----- A request that nothing disturbs -----

  /** The events an outcome calls for: one, for a flag and for a block. */
  function FlaggedBy(o: Outcome): seq<Flagged> {
    match o.action
    case Some(Flag) => [Flagged(Flag, o.verdict)]
    case Some(Block) => [Flagged(Block, o.verdict)]
    case _ => []
  }

  function OutcomeColumn(o: Outcome): string {
    match o.action
    case Some(Allow) => "allow"
    case Some(Flag) => "flag"
    case Some(Block) => "block"
    case None => "fail_open"
  }

  /** The session is released, its outcome as stored, and marked or not. */
  ghost predicate Closed(r: Row, stored: Stored, published: bool) {
    r.owner == "" && r.expires.None? && r.completed == Some(stored) && r.published == published
  }

  /** From choice `i` on the lease has not run out and publications go through. */
  ghost predicate Smooth(cs: seq<Choice>, i: nat, expires: int) {
    forall j | i <= j < |cs| :: cs[j].now < expires && cs[j].delivered
  }

  lemma SmoothTail(cs: seq<Choice>, i: nat, expires: int)
    requires 0 < i && cs != [] && Smooth(cs, i, expires)
    ensures Smooth(cs[1..], i - 1, expires)
  {
    forall j | i - 1 <= j < |cs[1..]| ensures cs[1..][j].now < expires && cs[1..][j].delivered {
      assert cs[1..][j] == cs[j + 1];
    }
  }

  lemma ReleaseEnds(s: Shared, d: Decision, x: string, cs: seq<Choice>)
    requires s.row.Some? && cs != []
    ensures RunWorker(s, Releasing(d), x, cs) == (Decided(s.(row := Some(Release(s.row.value, x))), d), Idle)
  {
  }

  /** A worker that holds the lease until `expires`. */
  ghost predicate HoldsLease(s: Shared, x: string, expires: int) {
    x != "" && s.row.Some? && s.row.value.owner == x && s.row.value.expires == Some(expires)
  }

  /** Publish what the outcome calls for, mark, release. */
  lemma PublishingEnds(s: Shared, o: Outcome, x: string, cs: seq<Choice>, expires: int)
    requires HoldsLease(s, x, expires) && s.row.value.completed.Some? && |cs| >= 3 && Smooth(cs, 0, expires)
    ensures var (s', w') := RunWorker(s, Publishing(o), x, cs);
      && w' == Idle && s'.row.Some? && Closed(s'.row.value, s.row.value.completed.value, true)
      && s'.row.value.events == s.row.value.events && s'.flagged == s.flagged + FlaggedBy(o) && s'.decisions == s.decisions + [Commit]
  {
    hide RunWorker;
    OneAct(s, Publishing(o), x, cs);
    var s1 := s.(flagged := s.flagged + FlaggedBy(o));
    assert s.flagged + [] == s.flagged;
    assert Act(s, Publishing(o), x, cs[0]) == (s1, Marking);
    OneAct(s1, Marking, x, cs[1..]);
    assert cs[1..][0] == cs[1] && cs[1..][1..] == cs[2..];
    var s2 := s1.(row := Some(s.row.value.(published := true)));
    ReleaseEnds(s2, Commit, x, cs[2..]);
  }

  /** Something is to be said about the outcome: an action against the payment, or a failure. */
  predicate Speaks(o: Outcome) {
    o.action == Some(Flag) || o.action == Some(Block) || o.reasonCode.Some?
  }

  lemma AfterCompletionEnds(s: Shared, o: Outcome, x: string, cs: seq<Choice>, expires: int)
    requires HoldsLease(s, x, expires) && s.row.value.completed.Some? && |cs| >= 3 && Smooth(cs, 0, expires)
    ensures var (s', w') := RunWorker(s, AfterCompletion(o, s.row.value.published), x, cs); var published := s.row.value.published;
      && w' == Idle && s'.row.Some? && Closed(s'.row.value, s.row.value.completed.value, published || Speaks(o))
      && s'.row.value.events == s.row.value.events && s'.decisions == s.decisions + [Commit]
      && s'.flagged == if published then s.flagged else s.flagged + FlaggedBy(o)
  {
    if !s.row.value.published && Speaks(o) { PublishingEnds(s, o, x, cs, expires); } else { ReleaseEnds(s, Commit, x, cs); }
  }

  /** The outcome columns, in the words the table uses. */
  lemma StoredColumns(o: Outcome)
    ensures var r := ToRow(o);
      && r.verdict == o.verdict && r.finalOutcome == OutcomeColumn(o)
      && (r.outputType == "fraud.flagged" <==> o.action == Some(Flag) || o.action == Some(Block))
      && (r.outputType == "fraud.error" <==>
            !(o.action == Some(Flag) || o.action == Some(Block)) && o.reasonCode.Some? && o.reasonCode.value != "")
  {
  }

  lemma CompletingEnds(s: Shared, o: Outcome, x: string, cs: seq<Choice>, expires: int)
    requires HoldsLease(s, x, expires) && |cs| >= 4 && Smooth(cs, 0, expires)
    ensures var (s', w') := RunWorker(s, Completing(o), x, cs); var published := s.row.value.published;
      && w' == Idle && s'.row.Some? && Closed(s'.row.value, ToRow(o), published || Speaks(o))
      && s'.row.value.events == s.row.value.events && s'.decisions == s.decisions + [Commit]
      && s'.flagged == if published then s.flagged else s.flagged + FlaggedBy(o)
  {
    hide RunWorker, ToRow;
    OneAct(s, Completing(o), x, cs);
    var s1 := s.(row := Some(s.row.value.(completed := Some(ToRow(o)))));
    assert Act(s, Completing(o), x, cs[0]) == (s1, AfterCompletion(o, s.row.value.published));
    assert Smooth(cs, 1, expires);
    SmoothTail(cs, 1, expires);
    AfterCompletionEnds(s1, o, x, cs[1..], expires);
  }

  lemma GraphCompletingEnds(s: Shared, o: Outcome, x: string, cs: seq<Choice>, expires: int)
    requires HoldsLease(s, x, expires) && |cs| >= 5 && Smooth(cs, 0, expires) && !s.row.value.published
    ensures var (s', w') := RunWorker(s, GraphCompleting(o), x, cs); var audited := o.reasonCode != Some("audit_failed");
      && w' == Idle && s'.row.Some? && Closed(s'.row.value, ToRow(o), audited && Speaks(o))
      && s'.row.value.events == s.row.value.events && s'.flagged == (if audited then s.flagged + FlaggedBy(o) else s.flagged)
      && s'.decisions == s.decisions + [if audited then Commit else Retry]
  {
    hide RunWorker, ToRow;
    OneAct(s, GraphCompleting(o), x, cs);
    var s1 := s.(row := Some(s.row.value.(completed := Some(ToRow(o)))));
    assert Act(s, GraphCompleting(o), x, cs[0]) == (s1, Returned(o));
    assert Smooth(cs, 1, expires);
    SmoothTail(cs, 1, expires);
    if o.reasonCode == Some("audit_failed") { ReleaseEnds(s1, Retry, x, cs[1..]); } else { CompletingEnds(s1, o, x, cs[1..], expires); }
  }

  /** The graph audits `k` nodes and then has the outcome. */
  ghost predicate ScoresAfter(cs: seq<Choice>, k: nat, o: Outcome) {
    k < |cs| && (forall i | 0 <= i < k :: cs[i].scored.None?) && cs[k].scored == Some(o)
  }

  lemma {:induction false} ScoringEnds(s: Shared, x: string, cs: seq<Choice>, k: nat, o: Outcome, expires: int)
    requires HoldsLease(s, x, expires) && ScoresAfter(cs, k, o) && |cs| >= k + 6 && Smooth(cs, 0, expires) && !s.row.value.published
    ensures var (s', w') := RunWorker(s, Scoring, x, cs); var audited := o.reasonCode != Some("audit_failed");
      && w' == Idle && s'.row.Some? && Closed(s'.row.value, ToRow(o), audited && Speaks(o))
      && s'.row.value.events == s.row.value.events + k && s'.flagged == (if audited then s.flagged + FlaggedBy(o) else s.flagged)
      && s'.decisions == s.decisions + [if audited then Commit else Retry]
    decreases k
  {
    hide RunWorker, ToRow;
    OneAct(s, Scoring, x, cs);
    assert Smooth(cs, 1, expires);
    SmoothTail(cs, 1, expires);
    if k == 0 {
      GraphCompletingEnds(s, o, x, cs[1..], expires);
    } else {
      var s1 := s.(row := Some(s.row.value.(events := s.row.value.events + 1)));
      assert Act(s, Scoring, x, cs[0]) == (s1, Scoring);
      ScoringEnds(s1, x, cs[1..], k - 1, o, expires);
    }
  }

  /** A claim is refused exactly while another worker holds an unexpired lease on an open session. */
  lemma ClaimRefusedIff(row: Option<Row>, x: string, now: int)
    ensures var (row', ok) := Claim(row, x, now);
      && (!ok <==> row.Some? && row.value.completed.None? && row.value.owner != x && row.value.expires.Some? && row.value.expires.value > now)
      && row'.Some? && (ok ==> row'.value.owner == x && row'.value.expires == Some(now + 60))
      && (row.Some? ==> row'.value.completed == row.value.completed && row'.value.published == row.value.published && row'.value.events == row.value.events)
      && (row.None? ==> row'.value.completed.None? && !row'.value.published && row'.value.events == 0)
      && (!ok ==> row' == row)
  {
  }

  /** The statements under a lease succeed exactly for its owner and before it runs out; a renewal
      exactly for the owner of an open session, run out or not. */
  lemma LeaseGuards(r: Row, x: string, now: int, o: Outcome)
    ensures var held := r.owner == x && r.expires.Some? && now < r.expires.value;
      && (Append(r, x, now).1 <==> held) && (Complete(r, x, now, o).1 <==> held) && (MarkPublished(r, x, now).1 <==> held)
      && (!held ==> Append(r, x, now).0 == r && Complete(r, x, now, o).0 == r && MarkPublished(r, x, now).0 == r)
    ensures Renew(r, x, now) == if r.owner == x && r.completed.None? then (r.(expires := Some(now + 60)), true) else (r, false)
    ensures Release(r, x) == if r.owner == x then r.(owner := "", expires := None) else r
  {
  }

  /** A session nobody else holds, not completed. */
  ghost predicate FreeFor(row: Option<Row>, x: string, now: int) {
    row.Some? ==>
      && row.value.completed.None? && !row.value.published
      && (row.value.owner == x || row.value.expires.None? || row.value.expires.value <= now)
  }

  /** One request on a free session, within its lease and with publications going through: the worker
      claims it, scores it, and ends idle with the session completed and released. A flag or a block
      was published exactly once, with the verdict, and marked; an allowed payment was not flagged;
      a failure is marked as reported; and the delivery is done with. A failed audit is left for the
      next delivery, which is asked for. */
  lemma RequestOutcome(s: Shared, x: string, cs: seq<Choice>, k: nat, o: Outcome)
    requires x != "" && |cs| >= k + 8 && FreeFor(s.row, x, cs[0].now)
    requires ScoresAfter(cs[2..], k, o) && Smooth(cs, 2, cs[1].now + 60)
    ensures var (s', w') := RunWorker(s, Idle, x, cs); var audited := o.reasonCode != Some("audit_failed");
      && w' == Idle && s'.row.Some? && Closed(s'.row.value, ToRow(o), audited && Speaks(o))
      && s'.row.value.events == k + (if s.row.Some? then s.row.value.events else 0)
      && s'.row.value.completed.value.verdict == o.verdict && s'.row.value.completed.value.finalOutcome == OutcomeColumn(o)
      && s'.decisions == s.decisions + [if audited then Commit else Retry]
      && s'.flagged == s.flagged + (if !audited then []
                                    else if o.action == Some(Block) then [Flagged(Block, o.verdict)]
                                    else if o.action == Some(Flag) then [Flagged(Flag, o.verdict)] else [])
  {
    hide RunWorker, ToRow, Smooth;
    StoredColumns(o);
    ClaimRefusedIff(s.row, x, cs[0].now);
    OneAct(s, Idle, x, cs);
    var s1 := s.(row := Claim(s.row, x, cs[0].now).0);
    assert Act(s, Idle, x, cs[0]) == (s1, GraphClaiming);
    ClaimRefusedIff(s1.row, x, cs[1].now);
    OneAct(s1, GraphClaiming, x, cs[1..]);
    assert cs[1..][0] == cs[1] && cs[1..][1..] == cs[2..];
    var s2 := s1.(row := Claim(s1.row, x, cs[1].now).0);
    SmoothTail(cs, 2, cs[1].now + 60);
    SmoothTail(cs[1..], 1, cs[1].now + 60);
    ScoringEnds(s2, x, cs[2..], k, o, cs[1].now + 60);
  }

  /** A redelivery of a completed session: what its outcome calls for is published and marked, unless
      it was before; the outcome stays and the session is released. */
  lemma RedeliveryOutcome(s: Shared, x: string, cs: seq<Choice>)
    requires x != "" && |cs| >= 4 && s.row.Some? && s.row.value.completed.Some? && Smooth(cs, 1, cs[0].now + 60)
    ensures var (s', w') := RunWorker(s, Idle, x, cs); var r := s.row.value; var stored := r.completed.value;
      var acts := stored.finalOutcome == "flag" || stored.finalOutcome == "block";
      && w' == Idle && s'.row.Some? && Closed(s'.row.value, stored, r.published || acts || stored.failureReason != "")
      && s'.decisions == s.decisions + [Commit]
      && s'.flagged == s.flagged + (if r.published then []
                                    else if stored.finalOutcome == "block" then [Flagged(Block, stored.verdict)]
                                    else if stored.finalOutcome == "flag" then [Flagged(Flag, stored.verdict)] else [])
  {
    hide RunWorker, Smooth;
    OneAct(s, Idle, x, cs);
    var s1 := s.(row := Some(s.row.value.(owner := x, expires := Some(cs[0].now + 60))));
    var o := FromRow(s.row.value.completed.value);
    assert Act(s, Idle, x, cs[0]) == (s1, AfterCompletion(o, s.row.value.published));
    SmoothTail(cs, 1, cs[0].now + 60);
    AfterCompletionEnds(s1, o, x, cs[1..], cs[0].now + 60);
  }

  /** A publication that fails leaves the session completed, released and unmarked, and asks for the
      next delivery, which publishes it. */
  lemma FailedPublicationIsLeft(s: Shared, o: Outcome, x: string, cs: seq<Choice>)
    requires s.row.Some? && s.row.value.owner == x && Flags(o) && |cs| >= 2 && !cs[0].delivered
    ensures RunWorker(s, Publishing(o), x, cs)
      == (s.(row := Some(s.row.value.(owner := "", expires := None)), decisions := s.decisions + [Retry]), Idle)
  {
    hide RunWorker;
    OneAct(s, Publishing(o), x, cs);
    ReleaseEnds(s, Retry, x, cs[1..]);
  }

  // ----- The worker as a class -----

  class FraudWorker {
    var row: Option<Row>
    var flagged: seq<Flagged>
    var decisions: seq<Decision>
    var choices: seq<Choice> // what the world will decide; it dies when they run out
    const name: string

    constructor (s: Shared, name: string, choices: seq<Choice>)
      ensures View() == s && this.name == name && this.choices == choices
    {
      row, flagged, decisions := s.row, s.flagged, s.decisions;
      this.name, this.choices := name, choices;
    }

    function View(): Shared
      reads this
    {
      Shared(row, flagged, decisions)
    }

    // ----- Statements of the session store -----

    method ClaimSession(now: int) returns (ok: bool)
      modifies `row
      ensures (row, ok) == Claim(old(row), name, now) && row.Some?
    {
      if row.None? { row := Some(NEW_ROW); }
      var r := row.value;
      ok := r.completed.Some? || r.owner == name || r.expires.None? || r.expires.value <= now;
      if ok { row := Some(r.(owner := name, expires := Some(now + LEASE_SECONDS))); }
    }

    method AppendEvent(now: int) returns (ok: bool)
      requires row.Some?
      modifies `row
      ensures row.Some? && (row.value, ok) == Append(old(row).value, name, now)
    {
      ok := Leased(row.value, name, now);
      if ok { row := Some(row.value.(events := row.value.events + 1)); }
    }

    method CompleteSession(now: int, o: Outcome) returns (ok: bool)
      requires row.Some?
      modifies `row
      ensures row.Some? && (row.value, ok) == Complete(old(row).value, name, now, o)
    {
      ok := Leased(row.value, name, now);
      if ok { row := Some(row.value.(completed := Some(ToRow(o)))); }
    }

    method MarkAsPublished(now: int) returns (ok: bool)
      requires row.Some?
      modifies `row
      ensures row.Some? && (row.value, ok) == MarkPublished(old(row).value, name, now)
    {
      ok := Leased(row.value, name, now);
      if ok { row := Some(row.value.(published := true)); }
    }

    /** The heartbeat, which extends even an expired lease that nobody took. */
    method RenewLease(now: int) returns (ok: bool)
      requires row.Some?
      modifies `row
      ensures row.Some? && (row.value, ok) == Renew(old(row).value, name, now)
    {
      ok := row.value.owner == name && row.value.completed.None?;
      if ok { row := Some(row.value.(expires := Some(now + LEASE_SECONDS))); }
    }

    method ReleaseLease()
      requires row.Some?
      modifies `row
      ensures row == Some(Release(old(row).value, name))
    {
      if row.value.owner == name { row := Some(row.value.(owner := "", expires := None)); }
    }

    // ----- Handling one request -----

    /** The scoring graph: claim again, audit every node, complete; then the outcome it returns. */
    method Score() returns (w: Worker)
      requires row.Some?
      modifies this
      ensures row.Some? && !w.Idle?
      ensures RunWorker(old(View()), GraphClaiming, name, old(choices)) == RunWorker(View(), w, name, choices)
      ensures choices == [] || w.Completing? || w.Releasing?
    {
      hide RunWorker;
      if choices == [] { return GraphClaiming; }
      OneAct(View(), GraphClaiming, name, choices);
      var c := choices[0];
      choices := choices[1..];
      var ok := ClaimSession(c.now);
      if !ok { return Releasing(Retry); }
      if row.value.completed.Some? {
        w := ReturnFound(FromRow(row.value.completed.value));
      } else {
        w := RunGraph();
      }
    }

    method ReturnFound(found: Outcome) returns (w: Worker)
      requires row.Some?
      modifies this
      ensures row.Some? && !w.Idle?
      ensures RunWorker(old(View()), AuditClaim(found), name, old(choices)) == RunWorker(View(), w, name, choices)
      ensures choices == [] || w.Completing? || w.Releasing?
    {
      hide RunWorker;
      if choices == [] { return AuditClaim(found); }
      OneAct(View(), AuditClaim(found), name, choices);
      var c := choices[0];
      choices := choices[1..];
      var ok := AppendEvent(c.now);
      return if ok then Returned(found) else Releasing(Retry);
    }

    /** Nodes are audited until one of them decides the outcome. */
    method RunGraph() returns (w: Worker)
      requires row.Some?
      modifies this
      ensures row.Some? && !w.Idle?
      ensures RunWorker(old(View()), Scoring, name, old(choices)) == RunWorker(View(), w, name, choices)
      ensures choices == [] || w.Completing? || w.Releasing?
    {
      hide RunWorker;
      while choices != [] && choices[0].scored.None?
        invariant row.Some?
        invariant RunWorker(old(View()), Scoring, name, old(choices)) == RunWorker(View(), Scoring, name, choices)
        decreases |choices|
      {
        OneAct(View(), Scoring, name, choices);
        var now := choices[0].now;
        choices := choices[1..];
        var ok := AppendEvent(now);
        if !ok { return Releasing(Retry); }
      }
      if choices == [] { return Scoring; }
      OneAct(View(), Scoring, name, choices);
      var outcome := choices[0].scored.value;
      choices := choices[1..];
      if choices == [] { return GraphCompleting(outcome); }
      OneAct(View(), GraphCompleting(outcome), name, choices);
      var now := choices[0].now;
      choices := choices[1..];
      var ok := CompleteSession(now, outcome);
      return if ok then Returned(outcome) else Releasing(Retry);
    }

    /** Publish what the outcome calls for, mark it, and go on to the release. */
    method PublishOutcome(outcome: Outcome) returns (w: Worker)
      requires row.Some?
      modifies this
      ensures row.Some? && !w.Idle?
      ensures RunWorker(old(View()), Publishing(outcome), name, old(choices)) == RunWorker(View(), w, name, choices)
      ensures choices == [] || w.Releasing?
    {
      hide RunWorker;
      if choices == [] { return Publishing(outcome); }
      OneAct(View(), Publishing(outcome), name, choices);
      var delivered := choices[0].delivered;
      choices := choices[1..];
      if Flags(outcome) {
        if !delivered { return Releasing(Retry); }
        flagged := flagged + [Flagged(outcome.action.value, outcome.verdict)];
      }
      if choices == [] { return Marking; }
      OneAct(View(), Marking, name, choices);
      var now := choices[0].now;
      choices := choices[1..];
      var ok := MarkAsPublished(now);
      return Releasing(if ok then Commit else Retry);
    }

    /** Store the returned outcome again, as the worker does. */
    method CompleteReturned(outcome: Outcome) returns (w: Worker)
      requires row.Some?
      modifies this
      ensures row.Some? && !w.Idle?
      ensures RunWorker(old(View()), Completing(outcome), name, old(choices)) == RunWorker(View(), w, name, choices)
      ensures choices == [] || w.Publishing? || w.Releasing?
    {
      hide RunWorker;
      if choices == [] { return Completing(outcome); }
      OneAct(View(), Completing(outcome), name, choices);
      var now := choices[0].now;
      choices := choices[1..];
      var ok := CompleteSession(now, outcome);
      return if ok then AfterCompletion(outcome, row.value.published) else Releasing(Retry);
    }

    /** One delivery: where the worker was when it died, or idle. */
    method HandleRequest() returns (w: Worker)
      modifies this
      ensures (View(), w) == RunWorker(old(View()), Idle, name, old(choices))
    {
      if choices == [] { return Idle; }
      hide RunWorker;
      OneAct(View(), Idle, name, choices);
      var now := choices[0].now;
      choices := choices[1..];
      var ok := ClaimSession(now);
      if !ok {
        decisions := decisions + [Retry];
        return Idle;
      }
      if row.value.completed.Some? {
        w := AfterCompletion(FromRow(row.value.completed.value), row.value.published);
      } else {
        w := Score();
        if w.Completing? { w := CompleteReturned(w.o); }
      }
      if w.Publishing? { w := PublishOutcome(w.o); }
      if choices == [] {
        Died(View(), w);
        return;
      }
      OneAct(View(), w, name, choices);
      choices := choices[1..];
      ReleaseLease();
      decisions := decisions + [w.decision];
      return Idle;
    }

    lemma Died(s: Shared, w: Worker)
      ensures RunWorker(s, w, name, []) == (s, w)
    {
    }
  }
}
