/** The payment processor: one attempt row per payment, a retry loop whose counter survives
    crashes, and a result event that is published again on every redelivery. Deliveries of a
    payment are handled one at a time; each may die after any statement or call. */
module Processor {
  import opened Domain
  import opened SagaMachine

  datatype Execute = Execute(pid: PaymentId, key: string, amount: int64, currency: string)
  {
    predicate Valid() { pid != "" && key != "" && amount > 0 && currency != "" }
  }

  datatype Status = Pending | Charged(processorId: string) | Refused(code: string, message: string)

  datatype Attempt = Attempt(command: Execute, status: Status, count: nat)

  /** What the rail says to one charge; a failure that is not the rail's own is retryable. */
  datatype RailAnswer = Paid(processorId: string) | Failure(code: string, message: string, retryable: bool)

  datatype Store = Store(attempts: map<PaymentId, Attempt>, outbox: seq<RailEvent>)

  datatype Outcome = Published | Invalid | Interrupted | FellThrough

  /** One delivery of a command: the rail's answer to each attempt, and how many statements
      and calls succeed before one fails. */
  datatype Delivery = Delivery(command: Execute, rail: nat -> RailAnswer, budget: nat)

  // ----- Statements -----

  function CreatePending(s: Store, c: Execute): (r: Store)
    ensures c.pid in r.attempts
  {
    if c.pid in s.attempts then s else s.(attempts := s.attempts[c.pid := Attempt(c, Pending, 0)])
  }

  function Counted(s: Store, p: PaymentId, k: nat): Store
    requires p in s.attempts
  {
    s.(attempts := s.attempts[p := s.attempts[p].(count := k)])
  }

  function Marked(s: Store, p: PaymentId, status: Status): Store
    requires p in s.attempts
  {
    s.(attempts := s.attempts[p := s.attempts[p].(status := status)])
  }

  function EventOf(p: PaymentId, status: Status): RailEvent
    requires !status.Pending?
  {
    match status
    case Charged(_) => PaymentCompleted(COMPLETED_PREFIX + p, p)
    case Refused(code, message) => PaymentFailed(FAILED_PREFIX + p, p, code, message)
  }

  // ----- One delivery -----

  function Publish(s: Store, p: PaymentId, n: nat): (Store, Outcome)
    requires p in s.attempts && !s.attempts[p].status.Pending?
  {
    if n == 0 then (s, Interrupted) else (s.(outbox := s.outbox + [EventOf(p, s.attempts[p].status)]), Published)
  }

  /** Store the final status, then publish it. */
  function Conclude(s: Store, p: PaymentId, status: Status, n: nat): (Store, Outcome)
    requires p in s.attempts && !status.Pending?
  {
    if n == 0 then (s, Interrupted) else Publish(Marked(s, p, status), p, n - 1)
  }

  function OrDefault(s: string, fallback: string): string { if s == "" then fallback else s }

  /** The status an answer to the last attempt leads to. */
  function LastStatus(answer: RailAnswer): Status {
    match answer
    case Paid(id) => Charged(id)
    case Failure(code, message, retryable) =>
      if retryable then Refused(OrDefault(code, "rail_retry_exhausted"), OrDefault(message, "retryable rail failure exhausted"))
      else Refused(code, message)
  }

  /** The retry loop from attempt `k` on, of at most `max`. */
  function Retry(s: Store, p: PaymentId, k: nat, max: nat, rail: nat -> RailAnswer, n: nat): (Store, Outcome)
    requires p in s.attempts
    decreases max + 1 - k
  {
    if k > max then (s, FellThrough)
    else if n == 0 then (s, Interrupted)
    else if n == 1 then (Counted(s, p, k), Interrupted)
    else if (rail(k).Failure? && rail(k).retryable && k < max) then
      if n == 2 then (Counted(s, p, k), Interrupted) else Retry(Counted(s, p, k), p, k + 1, max, rail, n - 3)
    else Conclude(Counted(s, p, k), p, LastStatus(rail(k)), n - 2)
  }

  function Min(a: nat, b: nat): nat { if a < b then a else b }

  function Handle(s: Store, d: Delivery, backoffs: seq<nat>): (Store, Outcome) {
    var p := d.command.pid;
    if !d.command.Valid() then (s, Invalid)
    else if d.budget == 0 then (s, Interrupted)
    else
      var s1 := CreatePending(s, d.command);
      if !s1.attempts[p].status.Pending? then Publish(s1, p, d.budget - 1)
      else
        var max := |backoffs| + 1;
        Retry(s1, p, Min(s1.attempts[p].count + 1, max), max, d.rail, d.budget - 1)
  }

  function HandleAll(s: Store, ds: seq<Delivery>, backoffs: seq<nat>): Store
    decreases ds
  {
    if ds == [] then s else HandleAll(Handle(s, ds[0], backoffs).0, ds[1..], backoffs)
  }

  // ----- What every delivery keeps -----

  /** Every published event is the one its payment's stored, final status stands for. */
  ghost predicate EventsOk(s: Store) {
    forall i | 0 <= i < |s.outbox| ::
      var p := s.outbox[i].pid; p in s.attempts && !s.attempts[p].status.Pending? && s.outbox[i] == EventOf(p, s.attempts[p].status)
  }

  ghost predicate StoreOk(s: Store, max: nat) {
    EventsOk(s) && forall p | p in s.attempts :: s.attempts[p].count <= max
  }

  /** Rows are never deleted, a final status never changes, no attempt counter goes down. */
  ghost predicate Forward(s: Store, s': Store) {
    && s.outbox <= s'.outbox
    && forall p | p in s.attempts ::
         && p in s'.attempts && s'.attempts[p].command == s.attempts[p].command && s.attempts[p].count <= s'.attempts[p].count
         && (!s.attempts[p].status.Pending? ==> s'.attempts[p].status == s.attempts[p].status)
  }

  lemma PublishKeeps(s: Store, p: PaymentId, n: nat, max: nat)
    requires StoreOk(s, max) && p in s.attempts && !s.attempts[p].status.Pending?
    ensures var s' := Publish(s, p, n).0; StoreOk(s', max) && Forward(s, s')
  {
  }

  lemma ConcludeKeeps(s: Store, p: PaymentId, status: Status, n: nat, max: nat)
    requires StoreOk(s, max) && p in s.attempts && s.attempts[p].status.Pending? && !status.Pending?
    ensures var s' := Conclude(s, p, status, n).0; StoreOk(s', max) && Forward(s, s')
  {
    if n > 0 {
      var s1 := Marked(s, p, status);
      assert EventsOk(s1);
      PublishKeeps(s1, p, n - 1, max);
    }
  }

  lemma CountedKeeps(s: Store, p: PaymentId, k: nat, max: nat)
    requires StoreOk(s, max) && p in s.attempts && s.attempts[p].count <= k <= max
    ensures StoreOk(Counted(s, p, k), max) && Forward(s, Counted(s, p, k))
  {
    assert EventsOk(Counted(s, p, k));
  }

  lemma ForwardTransitive(s: Store, s': Store, s'': Store)
    requires Forward(s, s') && Forward(s', s'')
    ensures Forward(s, s'')
  {
  }

  lemma {:induction false} RetryKeeps(s: Store, p: PaymentId, k: nat, max: nat, rail: nat -> RailAnswer, n: nat)
    requires StoreOk(s, max) && p in s.attempts && s.attempts[p].status.Pending? && s.attempts[p].count <= k <= max
    ensures var (s', r) := Retry(s, p, k, max, rail, n); StoreOk(s', max) && Forward(s, s') && r != FellThrough
    decreases max - k
  {
    hide StoreOk;
    if n > 0 {
      var s1 := Counted(s, p, k);
      CountedKeeps(s, p, k, max);
      if n > 1 {
        if rail(k).Failure? && rail(k).retryable && k < max {
          if n > 2 {
            RetryKeeps(s1, p, k + 1, max, rail, n - 3);
            ForwardTransitive(s, s1, Retry(s1, p, k + 1, max, rail, n - 3).0);
          }
        } else {
          ConcludeKeeps(s1, p, LastStatus(rail(k)), n - 2, max);
          ForwardTransitive(s, s1, Conclude(s1, p, LastStatus(rail(k)), n - 2).0);
        }
      }
    }
  }

  lemma HandleKeeps(s: Store, d: Delivery, backoffs: seq<nat>)
    requires StoreOk(s, |backoffs| + 1)
    ensures var (s', r) := Handle(s, d, backoffs);
      StoreOk(s', |backoffs| + 1) && Forward(s, s') && r != FellThrough
  {
    if d.command.Valid() && d.budget > 0 {
      var s1 := CreatePending(s, d.command);
      var p := d.command.pid;
      var max := |backoffs| + 1;
      assert EventsOk(s1);
      if s1.attempts[p].status.Pending? {
        RetryKeeps(s1, p, Min(s1.attempts[p].count + 1, max), max, d.rail, d.budget - 1);
      } else {
        PublishKeeps(s1, p, d.budget - 1, max);
      }
    }
  }

  lemma {:induction false} HandleAllKeeps(s: Store, ds: seq<Delivery>, backoffs: seq<nat>)
    requires StoreOk(s, |backoffs| + 1)
    ensures var s' := HandleAll(s, ds, backoffs); StoreOk(s', |backoffs| + 1) && Forward(s, s')
    decreases ds
  {
    hide Handle, StoreOk;
    if ds != [] {
      HandleKeeps(s, ds[0], backoffs);
      HandleAllKeeps(Handle(s, ds[0], backoffs).0, ds[1..], backoffs);
    }
  }

  /** Over every sequence of deliveries and redeliveries, whatever the rail answers and wherever
      they die: the counter never goes down and never passes the number of backoffs plus one,
      a final status is stored at most once, and all results published for a payment are one
      and the same event. */
  lemma OneResultPerPayment(ds: seq<Delivery>, more: seq<Delivery>, backoffs: seq<nat>, p: PaymentId)
    ensures var s := HandleAll(Store(map[], []), ds, backoffs); var s' := HandleAll(s, more, backoffs);
      && (p in s.attempts ==>
            && p in s'.attempts && s.attempts[p].count <= s'.attempts[p].count <= |backoffs| + 1
            && (!s.attempts[p].status.Pending? ==> s'.attempts[p].status == s.attempts[p].status))
      && (forall i, j | 0 <= i < |s'.outbox| && 0 <= j < |s'.outbox| && s'.outbox[i].pid == s'.outbox[j].pid == p ::
            s'.outbox[i] == s'.outbox[j])
  {
    HandleAllKeeps(Store(map[], []), ds, backoffs);
    HandleAllKeeps(HandleAll(Store(map[], []), ds, backoffs), more, backoffs);
  }

  /** The backoff table may differ between deliveries. The counter of a pending payment goes
      down exactly when a later, shorter table allows fewer attempts than were already made. */
  lemma CounterGoesDownIff(s: Store, d: Delivery, backoffs: seq<nat>)
    requires EventsOk(s) && d.command.Valid() && d.budget > 1
    requires d.command.pid in s.attempts && s.attempts[d.command.pid].status.Pending?
    ensures var s' := Handle(s, d, backoffs).0; d.command.pid in s'.attempts
    ensures Handle(s, d, backoffs).0.attempts[d.command.pid].count < s.attempts[d.command.pid].count
            <==> s.attempts[d.command.pid].count > |backoffs| + 1
  {
    var p := d.command.pid;
    var max := |backoffs| + 1;
    RetryCount(s, p, Min(s.attempts[p].count + 1, max), max, d.rail, d.budget - 1);
  }

  /** The loop leaves the counter between its first attempt and its last. */
  lemma {:induction false} RetryCount(s: Store, p: PaymentId, k: nat, max: nat, rail: nat -> RailAnswer, n: nat)
    requires p in s.attempts && k <= max && n > 0
    ensures var s' := Retry(s, p, k, max, rail, n).0; p in s'.attempts && k <= s'.attempts[p].count <= max
    decreases max - k
  {
    if n > 3 && rail(k).Failure? && rail(k).retryable && k < max { RetryCount(Counted(s, p, k), p, k + 1, max, rail, n - 3); }
  }

  // ----- What an undisturbed delivery does -----

  ghost predicate Retryable(a: RailAnswer) { a.Failure? && a.retryable }

  /** The attempt whose answer decides: every earlier one may be retried, and it may not, or is the last. */
  ghost predicate Decides(rail: nat -> RailAnswer, k: nat, j: nat, max: nat) {
    k <= j <= max && (forall i | k <= i < j :: Retryable(rail(i))) && (j < max ==> !Retryable(rail(j)))
  }

  /** What the rail's deciding answer means for the payment: a charge, its refusal as it is, or, when
      the last failure could have been retried, its code and message or what stands in for them. */
  ghost predicate Means(a: RailAnswer, status: Status) {
    match a
    case Paid(id) => status == Charged(id)
    case Failure(code, message, retryable) =>
      && status.Refused?
      && status.code == (if retryable && code == "" then "rail_retry_exhausted" else code)
      && status.message == (if retryable && message == "" then "retryable rail failure exhausted" else message)
  }

  lemma {:induction false} RetryConcludes(s: Store, p: PaymentId, k: nat, max: nat, rail: nat -> RailAnswer, n: nat) returns (j: nat)
    requires p in s.attempts && k <= max && n >= 3 * (max - k) + 4
    ensures Decides(rail, k, j, max)
    ensures var (s', r) := Retry(s, p, k, max, rail, n);
      && r == Published && p in s'.attempts && s'.attempts[p].count == j && Means(rail(j), s'.attempts[p].status)
      && !s'.attempts[p].status.Pending? && s'.outbox == s.outbox + [EventOf(p, s'.attempts[p].status)]
    decreases max - k
  {
    if Retryable(rail(k)) && k < max {
      j := RetryConcludes(Counted(s, p, k), p, k + 1, max, rail, n - 3);
    } else {
      j := k;
    }
  }

  /** The attempt a delivery begins with: the next one, but never beyond the last. */
  function FirstAttempt(s: Store, p: PaymentId, backoffs: seq<nat>): nat {
    if p in s.attempts then Min(s.attempts[p].count + 1, |backoffs| + 1) else 1
  }

  /** A delivery of a payment that is not concluded, the first one or one after a crash, that nothing
      interrupts: it goes on with the next attempt, and publishes one result, which is what the
      rail's deciding answer says: the first that may not be retried, or the last one allowed. */
  lemma DeliveryConcludes(s: Store, d: Delivery, backoffs: seq<nat>) returns (j: nat)
    requires d.command.Valid() && d.budget >= 3 * |backoffs| + 5
    requires d.command.pid in s.attempts ==> s.attempts[d.command.pid].status.Pending?
    ensures Decides(d.rail, FirstAttempt(s, d.command.pid, backoffs), j, |backoffs| + 1)
    ensures var (s', r) := Handle(s, d, backoffs); var p := d.command.pid;
      && r == Published && p in s'.attempts && s'.attempts[p].count == j
      && s'.attempts[p].command == (if p in s.attempts then s.attempts[p].command else d.command)
      && Means(d.rail(j), s'.attempts[p].status) && !s'.attempts[p].status.Pending?
      && s'.outbox == s.outbox + [EventOf(p, s'.attempts[p].status)]
  {
    hide Retry, Means, Decides;
    var p := d.command.pid;
    var s1 := CreatePending(s, d.command);
    var first := FirstAttempt(s, p, backoffs);
    j := RetryConcludes(s1, p, first, |backoffs| + 1, d.rail, d.budget - 1);
    RetryForward(s1, p, first, |backoffs| + 1, d.rail, d.budget - 1);
  }

  /** A redelivery of a concluded payment asks the rail nothing and publishes its result again. */
  lemma RedeliveryPublishes(s: Store, d: Delivery, backoffs: seq<nat>)
    requires d.command.Valid() && d.command.pid in s.attempts && !s.attempts[d.command.pid].status.Pending? && d.budget >= 2
    ensures var (s', r) := Handle(s, d, backoffs); var p := d.command.pid;
      && r == Published && s'.attempts == s.attempts
      && match s.attempts[p].status
         case Charged(_) => s'.outbox == s.outbox + [PaymentCompleted("payment.completed:" + p, p)]
         case Refused(code, message) => s'.outbox == s.outbox + [PaymentFailed("payment.failed:" + p, p, code, message)]
  {
  }

  lemma {:induction false} RetryPublishesOrNot(s: Store, p: PaymentId, k: nat, max: nat, rail: nat -> RailAnswer, n: nat)
    requires p in s.attempts && k <= max
    ensures var (s', r) := Retry(s, p, k, max, rail, n); r == Interrupted ==> s'.outbox == s.outbox
    decreases max - k
  {
    if n > 2 && Retryable(rail(k)) && k < max { RetryPublishesOrNot(Counted(s, p, k), p, k + 1, max, rail, n - 3); }
  }

  /** So a crash between the stored result and its publication is repaired by the next delivery: the
      interrupted one published nothing, and the next publishes the result that was stored. */
  lemma CrashIsRepaired(s: Store, d: Delivery, again: Delivery, backoffs: seq<nat>)
    requires Handle(s, d, backoffs).1 == Interrupted && again.command.Valid() && again.command.pid == d.command.pid && again.budget >= 2
    requires var s1 := Handle(s, d, backoffs).0; d.command.pid in s1.attempts && !s1.attempts[d.command.pid].status.Pending?
    ensures var s1 := Handle(s, d, backoffs).0; var (s2, r) := Handle(s1, again, backoffs); var p := d.command.pid;
      s1.outbox == s.outbox && r == Published && s2.outbox == s.outbox + [EventOf(p, s1.attempts[p].status)]
  {
    var p := d.command.pid;
    if d.command.Valid() && d.budget > 0 {
      var s1 := CreatePending(s, d.command);
      if s1.attempts[p].status.Pending? {
        RetryPublishesOrNot(s1, p, Min(s1.attempts[p].count + 1, |backoffs| + 1), |backoffs| + 1, d.rail, d.budget - 1);
      }
    }
    RedeliveryPublishes(Handle(s, d, backoffs).0, again, backoffs);
  }

  /** A command is refused exactly when one of its fields is missing or its amount is not positive. */
  lemma RefusedIff(s: Store, d: Delivery, backoffs: seq<nat>)
    ensures var (s', r) := Handle(s, d, backoffs); var c := d.command;
      && (r == Invalid <==> c.pid == "" || c.key == "" || c.amount <= 0 || c.currency == "") && (r == Invalid ==> s' == s)
  {
    if d.command.Valid() && d.budget > 0 {
      var s1 := CreatePending(s, d.command);
      RetryIsValid(s1, d.command.pid, Min(s1.attempts[d.command.pid].count + 1, |backoffs| + 1), |backoffs| + 1, d.rail, d.budget - 1);
    }
  }

  lemma {:induction false} RetryIsValid(s: Store, p: PaymentId, k: nat, max: nat, rail: nat -> RailAnswer, n: nat)
    requires p in s.attempts && k <= max
    ensures Retry(s, p, k, max, rail, n).1 != Invalid
    decreases max - k
  {
    if n > 2 && Retryable(rail(k)) && k < max { RetryIsValid(Counted(s, p, k), p, k + 1, max, rail, n - 3); }
  }

  lemma {:induction false} RetryForward(s: Store, p: PaymentId, k: nat, max: nat, rail: nat -> RailAnswer, n: nat)
    requires p in s.attempts && k <= max
    ensures var s' := Retry(s, p, k, max, rail, n).0; p in s'.attempts && s'.attempts[p].command == s.attempts[p].command
    decreases max - k
  {
    if n > 2 && Retryable(rail(k)) && k < max { RetryForward(Counted(s, p, k), p, k + 1, max, rail, n - 3); }
  }

  // ----- Why deliveries of a payment must not overlap -----

  /** The updates of the final status are not guarded. A delivery waits for the rail's refusal;
      another one of the same payment is paid, stored and published; then the first one stores
      and publishes the refusal over it. */
  lemma OverlapPublishesBoth(s: Store, p: PaymentId, id: string, code: string, message: string)
    requires p in s.attempts && s.attempts[p].status.Pending?
    ensures var paid := Conclude(s, p, Charged(id), 2).0; p in paid.attempts
    ensures var (s', r) := Conclude(Conclude(s, p, Charged(id), 2).0, p, Refused(code, message), 2);
      && r == Published && p in s'.attempts && s'.attempts[p].status == Refused(code, message)
      && s'.outbox == s.outbox + [PaymentCompleted(COMPLETED_PREFIX + p, p), PaymentFailed(FAILED_PREFIX + p, p, code, message)]
  {
    var paid := Conclude(s, p, Charged(id), 2).0;
    assert paid.outbox == s.outbox + [PaymentCompleted(COMPLETED_PREFIX + p, p)];
  }

  // ----- The same in the form of the source -----

  class Processor {
    var attempts: map<PaymentId, Attempt>
    var outbox: seq<RailEvent>
    var budget: nat
    const backoffs: seq<nat>

    constructor (s: Store, backoffs: seq<nat>)
      ensures View() == s && this.backoffs == backoffs
    {
      attempts, outbox, budget := s.attempts, s.outbox, 0;
      this.backoffs := backoffs;
    }

    function View(): Store
      reads this
    {
      Store(attempts, outbox)
    }

    method PublishResult(p: PaymentId) returns (r: Outcome)
      requires p in attempts && !attempts[p].status.Pending?
      modifies this
      ensures (View(), r) == Publish(old(View()), p, old(budget))
    {
      if budget == 0 { return Interrupted; }
      outbox := outbox + [EventOf(p, attempts[p].status)];
      return Published;
    }

    method MarkAndPublish(p: PaymentId, status: Status) returns (r: Outcome)
      requires p in attempts && !status.Pending?
      modifies this
      ensures (View(), r) == Conclude(old(View()), p, status, old(budget))
    {
      if budget == 0 { return Interrupted; }
      budget := budget - 1;
      attempts := attempts[p := attempts[p].(status := status)];
      r := PublishResult(p);
    }

    method MarkAttemptStarted(p: PaymentId, k: nat) returns (ok: bool)
      requires p in attempts
      modifies this
      ensures ok <==> old(budget) > 0
      ensures View() == if ok then Counted(old(View()), p, k) else old(View())
      ensures budget == if ok then old(budget) - 1 else 0
    {
      if budget == 0 { return false; }
      budget := budget - 1;
      attempts := attempts[p := attempts[p].(count := k)];
      return true;
    }

    /** A remote call or a sleep: it changes no store, and it may be the last thing done. */
    method Survives() returns (ok: bool)
      modifies `budget
      ensures ok <==> old(budget) > 0
      ensures budget == if ok then old(budget) - 1 else 0
    {
      if budget == 0 { return false; }
      budget := budget - 1;
      return true;
    }

    method ProcessPending(p: PaymentId, rail: nat -> RailAnswer) returns (r: Outcome)
      requires p in attempts
      modifies this
      ensures (View(), r) == Retry(old(View()), p, Min(old(attempts)[p].count + 1, |backoffs| + 1), |backoffs| + 1, rail, old(budget))
      ensures r != FellThrough
    {
      var maxAttempts := |backoffs| + 1;
      var firstAttempt := attempts[p].count + 1;
      if firstAttempt > maxAttempts { firstAttempt := maxAttempts; }
      var nextAttempt := firstAttempt;
      while nextAttempt <= maxAttempts
        invariant 1 <= nextAttempt <= maxAttempts && p in attempts
        invariant Retry(old(View()), p, firstAttempt, maxAttempts, rail, old(budget)) == Retry(View(), p, nextAttempt, maxAttempts, rail, budget)
        decreases maxAttempts - nextAttempt
      {
        var ok := MarkAttemptStarted(p, nextAttempt);
        if !ok { return Interrupted; }
        ok := Survives();
        if !ok { return Interrupted; }
        var answer := rail(nextAttempt);
        if answer.Paid? {
          r := MarkAndPublish(p, Charged(answer.processorId));
          return;
        }
        if !answer.retryable {
          r := MarkAndPublish(p, Refused(answer.code, answer.message));
          return;
        }
        if nextAttempt == maxAttempts {
          var code := OrDefault(answer.code, "rail_retry_exhausted");
          var message := OrDefault(answer.message, "retryable rail failure exhausted");
          r := MarkAndPublish(p, Refused(code, message));
          return;
        }
        var backoff := backoffs[nextAttempt - 1]; // jittered, then slept
        ok := Survives();
        if !ok { return Interrupted; }
        nextAttempt := nextAttempt + 1;
      }
      return FellThrough;
    }

    method HandleExecute(d: Delivery) returns (r: Outcome)
      modifies this
      ensures (View(), r) == Handle(old(View()), d, backoffs)
    {
      var p := d.command.pid;
      budget := d.budget;
      if !d.command.Valid() { return Invalid; }
      if budget == 0 { return Interrupted; }
      budget := budget - 1;
      if p !in attempts { attempts := attempts[p := Attempt(d.command, Pending, 0)]; }
      if attempts[p].status.Pending? {
        r := ProcessPending(p, d.rail);
      } else {
        r := PublishResult(p);
      }
    }
  }
}
