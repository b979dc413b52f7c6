/** The token bucket: tokens are added lazily, when a request comes. Times are in the clock's
    own units; configuration guarantees a positive refill interval. */
module RateLimiter {
  import opened Domain

  datatype Bucket = Bucket(tokens: int, last: int)

  function Min(a: int, b: int): int { if a < b then a else b }

  /** The bucket after the refill that a request at `now` triggers. */
  function Refilled(b: Bucket, now: int, burst: int, every: int): Bucket
    requires every > 0
  {
    if now - b.last >= every then
      var refill := (now - b.last) / every;
      Bucket(Min(burst, b.tokens + refill), b.last + refill * every)
    else b
  }

  function Spent(b: Bucket): (Bucket, bool) {
    if b.tokens <= 0 then (b, false) else (b.(tokens := b.tokens - 1), true)
  }

  /** One request: the bucket it leaves, and whether it is admitted. */
  function Allow(b: Option<Bucket>, now: int, burst: int, every: int): (Bucket, bool)
    requires every > 0
  {
    match b
    case None => (Bucket(burst - 1, now), true)
    case Some(b) => Spent(Refilled(b, now, burst, every))
  }

  function Decisions(b: Option<Bucket>, times: seq<int>, burst: int, every: int): seq<bool>
    requires every > 0
    decreases times
  {
    if times == [] then []
    else
      var (b', ok) := Allow(b, times[0], burst, every);
      [ok] + Decisions(Some(b'), times[1..], burst, every)
  }

  // ----- The eager bucket -----

  /** It is visited at every tick, whoever asks: one more token, unless it is full. */
  datatype Eager = Eager(tokens: int, nextTick: int)

  function Tick(e: Eager, burst: int, every: int): Eager {
    Eager(Min(burst, e.tokens + 1), e.nextTick + every)
  }

  function TickUntil(e: Eager, now: int, burst: int, every: int): Eager
    requires every > 0
    decreases now - e.nextTick
  {
    if e.nextTick > now then e else TickUntil(Tick(e, burst, every), now, burst, every)
  }

  function EagerAllow(e: Option<Eager>, now: int, burst: int, every: int): (Eager, bool)
    requires every > 0
  {
    match e
    case None => (Eager(burst - 1, now + every), true)
    case Some(e) =>
      var e' := TickUntil(e, now, burst, every);
      if e'.tokens <= 0 then (e', false) else (e'.(tokens := e'.tokens - 1), true)
  }

  function EagerDecisions(e: Option<Eager>, times: seq<int>, burst: int, every: int): seq<bool>
    requires every > 0
    decreases times
  {
    if times == [] then []
    else
      var (e', ok) := EagerAllow(e, times[0], burst, every);
      [ok] + EagerDecisions(Some(e'), times[1..], burst, every)
  }

  // ----- Lazy is eager -----

  /** Quotients are ordered as the numbers they divide. */
  lemma QuotientOrder(p: int, r: int, q: int, s: int, every: int)
    requires every > 0 && every * p + r <= every * q + s && 0 <= r && s < every
    ensures p <= q
  {
    assert every * (p - q) == every * p - every * q;
    if p > q { AtLeast(every, p - q); }
  }

  lemma {:induction false} AtLeast(every: int, d: nat)
    requires every > 0 && d >= 1
    ensures every * d >= every
  {
    if d > 1 {
      AtLeast(every, d - 1);
      assert every * d == every * (d - 1) + every;
    }
  }

  lemma Quotient(x: int, every: int)
    requires every > 0
    ensures every * (x / every) + x % every == x && 0 <= x % every < every
  {
  }

  lemma DivideMonotone(x: int, y: int, every: int)
    requires every > 0 && x <= y
    ensures x / every <= y / every
  {
    Quotient(x, every);
    Quotient(y, every);
    QuotientOrder(x / every, x % every, y / every, y % every, every);
  }

  lemma DivideShift(x: int, k: int, every: int)
    requires every > 0
    ensures (x - k * every) / every == x / every - k
  {
    var y := x - k * every;
    Quotient(x, every);
    Quotient(y, every);
    assert every * (x / every - k) + x % every == y;
    QuotientOrder(x / every - k, x % every, y / every, y % every, every);
    QuotientOrder(y / every, y % every, x / every - k, x % every, every);
  }

  /** A refill is one tick, and the refill from there. */
  lemma OneTickSooner(b: Bucket, now: int, burst: int, every: int)
    requires every > 0 && b.tokens <= burst && now - b.last >= every
    ensures Refilled(b, now, burst, every) == Refilled(Bucket(Min(burst, b.tokens + 1), b.last + every), now, burst, every)
  {
    var x := now - b.last;
    DivideShift(x, 1, every);
    var k := (x - every) / every;
    assert x / every == k + 1 && (k + 1) * every == k * every + every;
    SmallQuotient(x - every, every);
  }

  lemma SmallQuotient(x: int, every: int)
    requires every > 0 && x >= 0
    ensures if x < every then x / every == 0 else x / every >= 1
  {
    if x < every {
      Quotient(x, every);
      QuotientOrder(x / every, x % every, 0, x, every);
      QuotientOrder(0, x, x / every, x % every, every);
    } else {
      DivideMonotone(every, x, every);
    }
  }

  /** All the ticks that are due, at once. */
  lemma {:induction false} TicksAtOnce(e: Eager, now: int, burst: int, every: int)
    requires every > 0 && e.tokens <= burst
    ensures var b := Refilled(Bucket(e.tokens, e.nextTick - every), now, burst, every);
      TickUntil(e, now, burst, every) == Eager(b.tokens, b.last + every) && b.tokens <= burst
    decreases now - e.nextTick
  {
    if e.nextTick <= now {
      TicksAtOnce(Tick(e, burst, every), now, burst, every);
      OneTickSooner(Bucket(e.tokens, e.nextTick - every), now, burst, every);
    }
  }

  ghost predicate Same(b: Option<Bucket>, e: Option<Eager>, burst: int, every: int) {
    if b.None? then e.None? else e == Some(Eager(b.value.tokens, b.value.last + every)) && b.value.tokens <= burst
  }

  lemma SameStep(b: Option<Bucket>, e: Option<Eager>, now: int, burst: int, every: int)
    requires every > 0 && Same(b, e, burst, every)
    ensures var (b', ok) := Allow(b, now, burst, every); var (e', ok') := EagerAllow(e, now, burst, every);
      ok == ok' && Same(Some(b'), Some(e'), burst, every)
  {
    if e.Some? { TicksAtOnce(e.value, now, burst, every); }
  }

  /** The lazy bucket decides every sequence of requests as the eager one does. */
  lemma {:induction false} LazyIsEager(b: Option<Bucket>, e: Option<Eager>, times: seq<int>, burst: int, every: int)
    requires every > 0 && Same(b, e, burst, every)
    ensures Decisions(b, times, burst, every) == EagerDecisions(e, times, burst, every)
    decreases times
  {
    hide Allow, EagerAllow, Same;
    if times != [] {
      SameStep(b, e, times[0], burst, every);
      LazyIsEager(Some(Allow(b, times[0], burst, every).0), Some(EagerAllow(e, times[0], burst, every).0), times[1..], burst, every);
    }
  }

  // ----- The window bound -----

  function Admitted(ds: seq<bool>): nat {
    if ds == [] then 0 else Admitted(ds[1..]) + if ds[0] then 1 else 0
  }

  ghost predicate Within(times: seq<int>, from: int, end: int) {
    && (forall i | 0 <= i < |times| :: from <= times[i] <= end)
    && (forall i, j | 0 <= i < j < |times| :: times[i] <= times[j])
  }

  function Positive(x: int): nat { if x < 0 then 0 else x }

  /** What a bucket can still admit before `end`: its tokens and the ticks to come. */
  function Potential(b: Bucket, end: int, every: int): int
    requires every > 0
  {
    Positive(b.tokens) + (end - b.last) / every
  }

  /** A refill turns ticks to come into tokens, at best. */
  lemma RefillPotential(b: Bucket, now: int, end: int, burst: int, every: int)
    requires every > 0 && b.last <= now <= end
    ensures var r := Refilled(b, now, burst, every);
      Potential(r, end, every) <= Potential(b, end, every) && r.last <= now < r.last + every && (b.tokens <= burst ==> r.tokens <= burst)
  {
    if now - b.last >= every {
      var k := (now - b.last) / every;
      assert every * k + (now - b.last) % every == now - b.last;
      DivideMonotone(0, now - b.last, every);
      DivideShift(end - b.last, k, every);
      assert end - (b.last + k * every) == (end - b.last) - k * every;
    }
  }

  lemma {:induction false} AdmitsPotential(b: Bucket, times: seq<int>, end: int, burst: int, every: int)
    requires every > 0 && Within(times, b.last, end) && b.last <= end
    ensures Admitted(Decisions(Some(b), times, burst, every)) <= Potential(b, end, every)
    decreases times
  {
    DivideMonotone(0, end - b.last, every);
    if times != [] {
      RefillPotential(b, times[0], end, burst, every);
      var (b', ok) := Allow(Some(b), times[0], burst, every);
      assert Within(times[1..], b'.last, end);
      AdmitsPotential(b', times[1..], end, burst, every);
      assert Decisions(Some(b), times, burst, every)[1..] == Decisions(Some(b'), times[1..], burst, every);
    }
  }

  /** Ticks in a window that starts less than one interval after the last tick. */
  function Ceiling(window: int, every: int): int
    requires every > 0
  {
    (window + every - 1) / every
  }

  /** The bound from a request that finds bucket `b`. */
  lemma WindowFrom(b: Option<Bucket>, times: seq<int>, window: nat, burst: int, every: int)
    requires every > 0 && burst >= 1 && times != [] && Within(times, times[0], times[0] + window)
    requires b.Some? ==> b.value.last <= times[0] && b.value.tokens <= burst
    ensures Admitted(Decisions(b, times, burst, every)) <= burst + Ceiling(window, every)
  {
    var t, end := times[0], times[0] + window;
    var (b', ok) := Allow(b, t, burst, every);
    assert Decisions(b, times, burst, every)[1..] == Decisions(Some(b'), times[1..], burst, every);
    if b.Some? { RefillPotential(b.value, t, end, burst, every); }
    AdmitsPotential(b', times[1..], end, burst, every);
    DivideMonotone(end - b'.last, window + every - 1, every);
  }

  // ----- Whole histories -----

  /** The bucket that a history of requests leaves. */
  function BucketAfter(b: Option<Bucket>, past: seq<int>, burst: int, every: int): Option<Bucket>
    requires every > 0
    decreases past
  {
    if past == [] then b else BucketAfter(Some(Allow(b, past[0], burst, every).0), past[1..], burst, every)
  }

  lemma {:induction false} DecisionsGoOn(b: Option<Bucket>, past: seq<int>, times: seq<int>, burst: int, every: int)
    requires every > 0
    ensures Decisions(b, past + times, burst, every)
         == Decisions(b, past, burst, every) + Decisions(BucketAfter(b, past, burst, every), times, burst, every)
    ensures |Decisions(b, past, burst, every)| == |past|
    decreases past
  {
    hide Allow;
    if past == [] {
      assert past + times == times;
    } else {
      assert (past + times)[1..] == past[1..] + times;
      DecisionsGoOn(Some(Allow(b, past[0], burst, every).0), past[1..], times, burst, every);
    }
  }

  ghost predicate Monotone(times: seq<int>) {
    forall i, j | 0 <= i < j < |times| :: times[i] <= times[j]
  }

  /** On a monotone clock every reachable bucket was last filled in the past, and not beyond its burst. */
  lemma {:induction false} BucketsAreSound(b: Option<Bucket>, past: seq<int>, now: int, burst: int, every: int)
    requires every > 0 && Monotone(past) && forall i | 0 <= i < |past| :: past[i] <= now
    requires b.Some? ==> b.value.tokens <= burst && b.value.last <= if past == [] then now else past[0]
    ensures var b' := BucketAfter(b, past, burst, every); b'.Some? ==> b'.value.last <= now && b'.value.tokens <= burst
    decreases past
  {
    if past != [] {
      if b.Some? { RefillPotential(b.value, past[0], past[0], burst, every); }
      var b1 := Allow(b, past[0], burst, every).0;
      assert past[1..] != [] ==> past[0] <= past[1..][0];
      BucketsAreSound(Some(b1), past[1..], now, burst, every);
    }
  }

  /** What is decided in a window that starts after a history of requests. */
  ghost function InWindow(past: seq<int>, times: seq<int>, burst: int, every: int): seq<bool>
    requires every > 0
  {
    DecisionsGoOn(None, past, times, burst, every);
    Decisions(None, past + times, burst, every)[|past|..]
  }

  ghost predicate IsWindow(past: seq<int>, times: seq<int>, window: nat) {
    times != [] && Monotone(past + times) && forall i | 0 <= i < |times| :: times[i] <= times[0] + window
  }

  /** From any request of any history on, a window of any length admits at most the burst and one
      more for every refill interval begun. */
  lemma WindowBound(past: seq<int>, times: seq<int>, window: nat, burst: int, every: int)
    requires every > 0 && burst >= 1 && IsWindow(past, times, window)
    ensures Admitted(InWindow(past, times, burst, every)) <= burst + Ceiling(window, every)
  {
    var all := past + times;
    assert forall i | 0 <= i < |past| :: past[i] == all[i];
    assert forall i | 0 <= i < |times| :: times[i] == all[|past| + i];
    BucketsAreSound(None, past, times[0], burst, every);
    DecisionsGoOn(None, past, times, burst, every);
    WindowFrom(BucketAfter(None, past, burst, every), times, window, burst, every);
  }

  /** With no burst the first request of a user is admitted all the same, which breaks the bound
      for an empty window; so the bound holds for every window of every history exactly when the
      burst is positive. */
  lemma WindowBoundIff(burst: int, every: int)
    requires every > 0
    ensures burst >= 1 <==> forall past, times, window: nat | IsWindow(past, times, window) ::
              Admitted(InWindow(past, times, burst, every)) <= burst + Ceiling(window, every)
  {
    if burst >= 1 {
      forall past, times, window: nat | IsWindow(past, times, window)
        ensures Admitted(InWindow(past, times, burst, every)) <= burst + Ceiling(window, every)
      {
        WindowBound(past, times, window, burst, every);
      }
    } else {
      var past: seq<int>, times := [], [0];
      assert past + times == times;
      assert Decisions(None, times, burst, every) == [true];
      assert InWindow(past, times, burst, every) == [true];
      assert Admitted([true]) == 1 by { assert [true][1..] == []; }
      SmallQuotient(every - 1, every);
      assert IsWindow(past, times, 0) && Ceiling(0, every) == 0;
    }
  }

  // ----- The same in the form of the source -----

  class RateLimiter {
    const burst: int
    const refillEvery: int
    var buckets: map<Id, Bucket>

    constructor (burst: int, refillEvery: int)
      ensures this.burst == burst && this.refillEvery == refillEvery && buckets == map[]
    {
      this.burst, this.refillEvery, buckets := burst, refillEvery, map[];
    }

    function At(user: Id): Option<Bucket>
      reads this
    {
      if user in buckets then Some(buckets[user]) else None
    }

    /** One request of one user; nobody else's bucket moves. */
    method AllowRequest(user: Id, now: int) returns (ok: bool)
      requires refillEvery > 0
      modifies this
      ensures (At(user), ok) == var (b, allowed) := Allow(old(At(user)), now, burst, refillEvery); (Some(b), allowed)
      ensures forall other | other != user :: At(other) == old(At(other))
    {
      if user !in buckets {
        buckets := buckets[user := Bucket(burst - 1, now)];
        return true;
      }
      var elapsed := now - buckets[user].last;
      if elapsed >= refillEvery {
        var refill := elapsed / refillEvery;
        buckets := buckets[user := Bucket(Min(burst, buckets[user].tokens + refill), buckets[user].last + refill * refillEvery)];
      }
      if buckets[user].tokens <= 0 { return false; }
      buckets := buckets[user := buckets[user].(tokens := buckets[user].tokens - 1)];
      return true;
    }
  }
}
