/** Keyset pagination of a wallet's ledger entries, with entries inserted between pages. */
module Pagination {
  import opened Domain

  /** A ledger entry, by what orders it: its time, then its id. */
  datatype Row = Row(wallet: Id, at: nat, id: Id)

  datatype Cursor = Cursor(at: nat, id: Id)

  predicate Less(a: Cursor, b: Cursor) {
    a.at < b.at || (a.at == b.at && a.id < b.id)
  }

  function Key(r: Row): Cursor { Cursor(r.at, r.id) }

  ghost predicate UniqueIds(s: set<Row>) {
    forall a, b | a in s && b in s && a.id == b.id :: a == b
  }

  predicate Before(r: Row, cursor: Option<Cursor>) {
    cursor.None? || Less(Key(r), cursor.value)
  }

  /** The rows the query's WHERE clause selects. */
  ghost function Selected(s: set<Row>, wallet: Id, cursor: Option<Cursor>): set<Row> {
    set r | r in s && r.wallet == wallet && Before(r, cursor)
  }

  ghost predicate Last(s: set<Row>, m: Row) {
    m in s && forall r | r in s && r != m :: Less(Key(r), Key(m))
  }

  lemma {:induction false} HasLast(s: set<Row>) returns (m: Row)
    requires s != {} && UniqueIds(s)
    ensures Last(s, m)
  {
    m :| m in s;
    if s != {m} {
      var n := HasLast(s - {m});
      if Less(Key(m), Key(n)) { m := n; }
    }
  }

  ghost predicate Descending(rows: seq<Row>) {
    forall i, j | 0 <= i < j < |rows| :: Less(Key(rows[j]), Key(rows[i]))
  }

  /** ORDER BY created_at DESC, id DESC. */
  ghost function Sorted(s: set<Row>): (rows: seq<Row>)
    requires UniqueIds(s)
    ensures |rows| == |s| && (forall r :: r in rows <==> r in s) && Descending(rows)
  {
    if s == {} then []
    else
      assert exists m :: Last(s, m) by { var m := HasLast(s); }
      var m :| Last(s, m);
      [m] + Sorted(s - {m})
  }

  /** A 64-bit limit converted to 32 bits. */
  function Int32(x: int): int {
    (x + 0x8000_0000) % 0x1_0000_0000 - 0x8000_0000
  }

  datatype Page = Page(rows: seq<Row>, next: Option<Cursor>)

  /** One call; PostgreSQL refuses a negative LIMIT. */
  ghost function ListLedgerEntries(s: set<Row>, wallet: Id, cursor: Option<Cursor>, limit: int): Result<Page>
    requires UniqueIds(s)
  {
    if limit < 1 then Err(InvalidAmount)
    else if Int32(limit + 1) < 0 then Err(ConstraintViolation)
    else
      var all := Sorted(Selected(s, wallet, cursor));
      var queryLimit := Int32(limit + 1);
      var rows := if queryLimit < |all| then all[..queryLimit] else all;
      if |rows| > limit then Ok(Page(rows[..limit], Some(Key(rows[limit - 1])))) else Ok(Page(rows, None))
  }

  /** Rows are inserted between calls and never deleted; `store(i)` is what call `i` sees. */
  ghost predicate Growing(store: nat -> set<Row>) {
    && (forall i :: UniqueIds(store(i)))
    && (forall i, j | i <= j :: store(i) <= store(j))
  }

  /** Each call that gives a cursor gives a smaller one. */
  lemma CursorFalls(s: set<Row>, wallet: Id, cursor: Option<Cursor>, limit: int)
    requires UniqueIds(s)
    ensures var p := ListLedgerEntries(s, wallet, cursor, limit);
      p.Ok? && p.value.next.Some? && cursor.Some? ==> Less(p.value.next.value, cursor.value)
  {
    var p := ListLedgerEntries(s, wallet, cursor, limit);
    if p.Ok? && p.value.next.Some? {
      var all := Sorted(Selected(s, wallet, cursor));
      assert all[limit - 1] in Selected(s, wallet, cursor);
    }
  }

  /** Everything returned by following the cursors from `cursor` on, and whether no call failed.
      That the recursion is allowed is the proof that following them ends. */
  ghost function Follow(store: nat -> set<Row>, i: nat, wallet: Id, cursor: Option<Cursor>, limit: int): (seq<Row>, bool)
    requires Growing(store)
    decreases cursor.None?, if cursor.Some? then cursor.value.at else 0, if cursor.Some? then cursor.value.id else 0
  {
    CursorFalls(store(i), wallet, cursor, limit);
    match ListLedgerEntries(store(i), wallet, cursor, limit)
    case Err(_) => ([], false)
    case Ok(page) =>
      if page.next.None? then (page.rows, true)
      else
        var (rest, ok) := Follow(store, i + 1, wallet, page.next, limit);
        (page.rows + rest, ok)
  }

  ghost predicate Usable(limit: int) {
    1 <= limit <= 0x7FFF_FFFE
  }

  lemma LimitFits(limit: int)
    requires Usable(limit)
    ensures Int32(limit + 1) == limit + 1
  {
  }

  /** One page: the first rows selected, and a cursor with every other selected row below it. */
  lemma OnePage(s: set<Row>, wallet: Id, cursor: Option<Cursor>, limit: int)
    requires UniqueIds(s) && Usable(limit)
    ensures var p := ListLedgerEntries(s, wallet, cursor, limit);
      && p.Ok? && Descending(p.value.rows) && (forall r | r in p.value.rows :: r in Selected(s, wallet, cursor))
      && (p.value.next.None? ==> forall r | r in Selected(s, wallet, cursor) :: r in p.value.rows)
      && (p.value.next.Some? ==>
            && (forall r | r in p.value.rows :: !Less(Key(r), p.value.next.value))
            && (forall r | r in Selected(s, wallet, cursor) :: r in p.value.rows || Less(Key(r), p.value.next.value)))
  {
    hide Sorted;
    LimitFits(limit);
    var all := Sorted(Selected(s, wallet, cursor));
    if |all| > limit {
      Cut(all, limit);
      assert ListLedgerEntries(s, wallet, cursor, limit).value == Page(all[..limit], Some(Key(all[limit - 1]))) by {
        assert all[..limit + 1][..limit] == all[..limit];
      }
    }
  }

  lemma Cut(all: seq<Row>, limit: nat)
    requires Descending(all) && 1 <= limit < |all|
    ensures Descending(all[..limit])
    ensures forall r | r in all[..limit] :: r in all && !Less(Key(r), Key(all[limit - 1]))
    ensures forall r | r in all :: r in all[..limit] || Less(Key(r), Key(all[limit - 1]))
  {
    forall r | r in all ensures r in all[..limit] || Less(Key(r), Key(all[limit - 1])) {
      var k :| 0 <= k < |all| && all[k] == r;
      if k < limit { assert all[..limit][k] == r; }
    }
  }

  lemma DescendingJoin(a: seq<Row>, b: seq<Row>, c: Cursor)
    requires Descending(a) && Descending(b)
    requires (forall r | r in a :: !Less(Key(r), c)) && (forall r | r in b :: Less(Key(r), c))
    ensures Descending(a + b)
  {
    forall i, j | 0 <= i < j < |a + b| ensures Less(Key((a + b)[j]), Key((a + b)[i])) {
      if i < |a| <= j { assert a[i] in a && b[j - |a|] in b; }
    }
  }

  lemma {:induction false} FollowFrom(store: nat -> set<Row>, i: nat, wallet: Id, cursor: Option<Cursor>, limit: int)
    requires Growing(store) && Usable(limit)
    ensures var (out, ok) := Follow(store, i, wallet, cursor, limit);
      && ok && Descending(out)
      && (forall r | r in out :: Before(r, cursor) && r.wallet == wallet && exists j: nat :: r in store(j))
      && (forall r | r in Selected(store(i), wallet, cursor) :: r in out)
    decreases cursor.None?, if cursor.Some? then cursor.value.at else 0, if cursor.Some? then cursor.value.id else 0
  {
    hide ListLedgerEntries, Descending;
    OnePage(store(i), wallet, cursor, limit);
    var page := ListLedgerEntries(store(i), wallet, cursor, limit).value;
    if page.next.Some? {
      CursorFalls(store(i), wallet, cursor, limit);
      FollowFrom(store, i + 1, wallet, page.next, limit);
      var (rest, ok) := Follow(store, i + 1, wallet, page.next, limit);
      DescendingJoin(page.rows, rest, page.next.value);
      forall r | r in Selected(store(i), wallet, cursor) ensures r in page.rows + rest {
        if r !in page.rows { assert r in Selected(store(i + 1), wallet, page.next); }
      }
    }
  }

  /** For every limit that fits: following the cursors from the first page ends without an
      error and returns every entry present at the start exactly once, newest first, whatever
      is inserted between the pages; and it returns only entries of the wallet. */
  lemma PagesAreComplete(store: nat -> set<Row>, wallet: Id, limit: int)
    requires Growing(store) && Usable(limit)
    ensures var (out, ok) := Follow(store, 0, wallet, None, limit);
      && ok && Descending(out) && (forall i, j | 0 <= i < j < |out| :: out[i] != out[j])
      && (forall r | r in store(0) && r.wallet == wallet :: r in out)
      && (forall r | r in out :: r.wallet == wallet && exists j: nat :: r in store(j))
  {
    FollowFrom(store, 0, wallet, None, limit);
    forall r | r in store(0) && r.wallet == wallet ensures r in Follow(store, 0, wallet, None, limit).0 {
      assert r in Selected(store(0), wallet, None);
    }
  }

  // ----- Limits that do not fit -----

  ghost function Numbered(n: nat): set<Row> {
    set k | 0 <= k < n :: Row(1, 0, k)
  }

  lemma {:induction false} NumberedSize(n: nat)
    ensures UniqueIds(Numbered(n)) && |Numbered(n)| == n
  {
    if n > 0 {
      NumberedSize(n - 1);
      assert Numbered(n) == Numbered(n - 1) + {Row(1, 0, n - 1)};
    }
  }

  /** A larger limit: the query refuses it, or quietly returns fewer rows than there are and
      no cursor. */
  lemma LimitWraps(limit: int) returns (s: set<Row>)
    requires limit > 0x7FFF_FFFE
    ensures UniqueIds(s) && (forall r | r in s :: r.wallet == 1)
    ensures var p := ListLedgerEntries(s, 1, None, limit);
      p.Err? || (p.value.next.None? && exists r :: r in s && r !in p.value.rows)
  {
    var q := Int32(limit + 1);
    assert q <= 0x7FFF_FFFF;
    s := Numbered(if q < 0 then 0 else q + 1);
    NumberedSize(if q < 0 then 0 else q + 1);
    if q >= 0 {
      assert Selected(s, 1, None) == s;
      var all := Sorted(s);
      assert all[q] in s;
      assert q <= limit;
      forall k | 0 <= k < q ensures all[k] != all[q] { assert Less(Key(all[q]), Key(all[k])); }
    }
  }

  ghost predicate CompleteFor(store: nat -> set<Row>, wallet: Id, limit: int)
    requires Growing(store)
  {
    var (out, ok) := Follow(store, 0, wallet, None, limit);
    ok && forall r | r in store(0) && r.wallet == wallet :: r in out
  }

  /** A limit is complete for every store, inserts included, exactly when it is at least one and
      its successor fits 32 bits. */
  lemma CompleteIff(limit: int)
    ensures Usable(limit) <==> forall store, wallet | Growing(store) :: CompleteFor(store, wallet, limit)
  {
    if Usable(limit) {
      forall store, wallet | Growing(store) ensures CompleteFor(store, wallet, limit) { PagesAreComplete(store, wallet, limit); }
    } else {
      var s: set<Row> := {};
      if limit >= 1 { s := LimitWraps(limit); }
      var store: nat -> set<Row> := i => s;
      assert Growing(store);
      assert store(0) == s;
      assert !CompleteFor(store, 1, limit);
    }
  }
}
