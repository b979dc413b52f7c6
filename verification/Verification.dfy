/** The verification service: one row per user, decided at most once. */
module Verification {
  import opened Domain

  datatype Status = Pending | Verified | Rejected

  datatype Row = Row(key: string, status: Status, reason: string, decidedAt: Option<int>)

  type Rows = map<string, Row>

  datatype Decision = Decision(status: Status, reason: string)

  /** What a store call reports back: the row, and whether its status just changed. */
  datatype Reply = Reply(row: Row, transitioned: bool)

  predicate Decided(s: Status) { s.Verified? || s.Rejected? }

  predicate KeyOwnedByOther(rows: Rows, user: string, key: string) {
    exists u | u in rows :: u != user && rows[u].key == key
  }

  function Submit(rows: Rows, user: string, key: string, decision: Decision, now: int): (Rows, Result<Reply>) {
    if KeyOwnedByOther(rows, user, key) then (rows, Err(AlreadyExists))
    else if user in rows then
      var row0 := rows[user];
      if row0.key == key || Decided(row0.status) then (rows, Ok(Reply(row0, false)))
      else
        var decidedAt := if Decided(decision.status) then Some(now) else row0.decidedAt;
        var row := Row(key, decision.status, decision.reason, decidedAt);
        (rows[user := row], Ok(Reply(row, row0.status != row.status)))
    else
      var row := Row(key, decision.status, decision.reason, if Decided(decision.status) then Some(now) else None);
      (rows[user := row], Ok(Reply(row, true)))
  }

  function Decide(rows: Rows, user: string, decision: Decision, now: int): (Rows, Result<Reply>) {
    if user !in rows then (rows, Err(NotFound))
    else
      var row0 := rows[user];
      if Decided(row0.status) then (rows, Ok(Reply(row0, false)))
      else
        var row := Row(row0.key, decision.status, decision.reason, Some(now));
        (rows[user := row], Ok(Reply(row, row0.status != row.status)))
  }

  datatype Request =
    | DoSubmit(user: string, key: string, decision: Decision)
    | DoDecide(user: string, decision: Decision)

  /** One service call: the store transaction, then the user.verified or user.rejected
      event when a terminal status was just reached; `published` is false when the call dies
      in between. */
  function Serve(rows: Rows, events: seq<(string, Status)>, req: Request, now: int, published: bool)
    : (Rows, seq<(string, Status)>)
  {
    var (rows', r) := match req
      case DoSubmit(user, key, decision) => Submit(rows, user, key, decision, now)
      case DoDecide(user, decision) => Decide(rows, user, decision, now);
    if r.Ok? && r.value.transitioned && Decided(r.value.row.status) && published
    then (rows', events + [(req.user, r.value.row.status)])
    else (rows', events)
  }

  datatype Call = Call(req: Request, now: int, published: bool)

  function ServeAll(rows: Rows, events: seq<(string, Status)>, calls: seq<Call>): (Rows, seq<(string, Status)>)
    decreases calls
  {
    if calls == [] then (rows, events)
    else
      var (rows', events') := Serve(rows, events, calls[0].req, calls[0].now, calls[0].published);
      ServeAll(rows', events', calls[1..])
  }

  ghost predicate Keeps(rows: Rows, rows': Rows) {
    forall u | u in rows && Decided(rows[u].status) :: u in rows' && rows'[u] == rows[u]
  }

  /** At most one event per user, and it tells the decision that is stored. */
  ghost predicate EventsOk(rows: Rows, events: seq<(string, Status)>) {
    && (forall i | 0 <= i < |events| :: events[i].0 in rows && rows[events[i].0].status == events[i].1 && Decided(events[i].1))
    && (forall i, j | 0 <= i < j < |events| :: events[i].0 != events[j].0)
  }

  lemma ServeKeeps(rows: Rows, events: seq<(string, Status)>, req: Request, now: int, published: bool)
    requires EventsOk(rows, events)
    ensures var (rows', events') := Serve(rows, events, req, now, published); Keeps(rows, rows') && EventsOk(rows', events')
  {
  }

  /** Over every sequence of calls, with any call dying before its event is enqueued: a
      decided verification never changes again, and each user gets at most one terminal
      event, which agrees with the stored decision. */
  lemma {:induction false} DecisionsAreFinal(rows: Rows, events: seq<(string, Status)>, calls: seq<Call>)
    requires EventsOk(rows, events)
    ensures var (rows', events') := ServeAll(rows, events, calls); Keeps(rows, rows') && EventsOk(rows', events')
    decreases calls
  {
    if calls != [] {
      ServeKeeps(rows, events, calls[0].req, calls[0].now, calls[0].published);
      var (rows', events') := Serve(rows, events, calls[0].req, calls[0].now, calls[0].published);
      DecisionsAreFinal(rows', events', calls[1..]);
    }
  }

  ghost predicate AllAnnounced(rows: Rows, events: seq<(string, Status)>) {
    forall u | u in rows && Decided(rows[u].status) :: (u, rows[u].status) in events
  }

  /** When no call dies before its event, every decided user has exactly one terminal event. */
  lemma {:induction false} EveryDecisionIsAnnounced(rows: Rows, events: seq<(string, Status)>, calls: seq<Call>)
    requires EventsOk(rows, events) && AllAnnounced(rows, events) && forall i | 0 <= i < |calls| :: calls[i].published
    ensures var (rows', events') := ServeAll(rows, events, calls); EventsOk(rows', events') && AllAnnounced(rows', events')
    decreases calls
  {
    if calls != [] {
      ServeKeeps(rows, events, calls[0].req, calls[0].now, true);
      ServeAnnounces(rows, events, calls[0].req, calls[0].now);
      var (rows', events') := Serve(rows, events, calls[0].req, calls[0].now, true);
      EveryDecisionIsAnnounced(rows', events', calls[1..]);
    }
  }

  lemma ServeAnnounces(rows: Rows, events: seq<(string, Status)>, req: Request, now: int)
    requires AllAnnounced(rows, events)
    ensures var (rows', events') := Serve(rows, events, req, now, true); AllAnnounced(rows', events')
  {
  }

  // ----- What a call does -----

  /** A decision on a user without one is stored as it is, at its time, and published unless the call
      dies before; on a decided user it changes nothing; on an unknown one it is refused. */
  lemma DecisionIsStored(rows: Rows, events: seq<(string, Status)>, user: string, decision: Decision, now: int, published: bool)
    requires Decided(decision.status)
    ensures var (rows', r) := Decide(rows, user, decision, now);
      var (served, events') := Serve(rows, events, DoDecide(user, decision), now, published);
      && served == rows'
      && (if user !in rows then r == Err(NotFound) && rows' == rows && events' == events
          else if rows[user].status.Pending? then
            && r.Ok? && rows'.Keys == rows.Keys && (forall u | u in rows && u != user :: rows'[u] == rows[u])
            && rows'[user].status == decision.status && rows'[user].reason == decision.reason && rows'[user].decidedAt == Some(now)
            && rows'[user].key == rows[user].key && r.value.row == rows'[user]
            && events' == if published then events + [(user, decision.status)] else events
          else r.Ok? && r.value.row == rows[user] && rows' == rows && events' == events)
  {
  }

  /** A submission of a new user, or of an undecided one under a new key, is stored as it is decided,
      with the time if the decision is final; under the key of another user it is refused, and any
      other submission changes nothing. */
  lemma SubmissionIsStored(rows: Rows, events: seq<(string, Status)>, user: string, key: string, decision: Decision, now: int, published: bool)
    ensures var (rows', r) := Submit(rows, user, key, decision, now);
      var (served, events') := Serve(rows, events, DoSubmit(user, key, decision), now, published);
      && served == rows'
      && (if exists u :: u in rows && u != user && rows[u].key == key then r == Err(AlreadyExists) && rows' == rows && events' == events
          else if user !in rows || (rows[user].status.Pending? && rows[user].key != key) then
            && r.Ok? && rows'.Keys == rows.Keys + {user} && (forall u | u in rows && u != user :: rows'[u] == rows[u])
            && rows'[user].key == key && rows'[user].status == decision.status && rows'[user].reason == decision.reason
            && rows'[user].decidedAt == (if !decision.status.Pending? then Some(now) else if user in rows then rows[user].decidedAt else None)
            && r.value.row == rows'[user]
            && events' == if published && !decision.status.Pending? then events + [(user, decision.status)] else events
          else r.Ok? && r.value.row == rows[user] && rows' == rows && events' == events)
  {
  }

  /** The Postgres store, statement by statement; the row lock on the user makes each call
      one transaction. */
  class Store {
    var rows: Rows

    constructor ()
      ensures rows == map[]
    {
      rows := map[];
    }

    method SubmitRow(user: string, key: string, decision: Decision, now: int) returns (r: Result<Reply>)
      modifies this
      ensures (rows, r) == Submit(old(rows), user, key, decision, now)
      ensures Keeps(old(rows), rows)
    {
      if KeyOwnedByOther(rows, user, key) {
        return Err(AlreadyExists);
      }
      if user in rows {
        var existing := rows[user];
        if existing.key == key || Decided(existing.status) {
          return Ok(Reply(existing, false));
        }
        var decidedAt := existing.decidedAt;
        if !Decided(existing.status) && Decided(decision.status) {
          decidedAt := Some(now);
        }
        rows := rows[user := Row(key, decision.status, decision.reason, decidedAt)];
        return Ok(Reply(rows[user], existing.status != rows[user].status));
      }
      var decidedAt := None;
      if Decided(decision.status) {
        decidedAt := Some(now);
      }
      rows := rows[user := Row(key, decision.status, decision.reason, decidedAt)];
      r := Ok(Reply(rows[user], true));
    }

    method DecideRow(user: string, decision: Decision, now: int) returns (r: Result<Reply>)
      modifies this
      ensures (rows, r) == Decide(old(rows), user, decision, now)
      ensures Keeps(old(rows), rows)
    {
      if user !in rows {
        return Err(NotFound);
      }
      var existing := rows[user];
      if existing.status == Verified || existing.status == Rejected {
        return Ok(Reply(existing, false));
      }
      rows := rows[user := existing.(status := decision.status, reason := decision.reason, decidedAt := Some(now))];
      r := Ok(Reply(rows[user], existing.status != rows[user].status));
    }
  }
}
