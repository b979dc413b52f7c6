/** Which transactions can wait for each other for ever, and that they do. */
module Deadlocks {
  import opened Domain
  import opened Bank
  import opened BankLaws
  import opened RowLocks

  /** A debit and a compensation of the same payment: the debit locked a wallet before it looks
      again for the debit row, the compensation locked the debit row before its wallet. */
  ghost predicate Crossing(s: Server, i: nat, j: nat) {
    && i in s.txns && j in s.txns && s.txns[i].DebitRecheck? && s.txns[j].CompLockWallet?
    && s.txns[i].debit.pid == s.txns[j].comp.pid && s.txns[i].wallet.Some?
  }

  /** And it is the same wallet: each holds what the other one waits for. */
  ghost predicate CrossingAt(s: Server, i: nat, j: nat) {
    Crossing(s, i, j) && s.txns[i].debit.from == s.txns[j].row.wallet
  }

  ghost predicate Live(s: Server, id: nat) {
    id in s.txns && !s.txns[id].Ended?
  }

  /** Who holds a wallet row and waits for another row: a transaction that locks two wallets,
      and then it waits for the higher one, or a debit that looks again for its debit row. */
  lemma WalletHolders(b: Bank, t: Txn, w: Id, r: Resource)
    requires TxnOk(b, t) && WalletRow(w) in Holds(t) && r in Wants(t)
    ensures (r.WalletRow? && r.wallet > w) || (t.DebitRecheck? && r == DebitRow(t.debit.pid)) || r.NewDebit? || r.NewDebitKey? || r.NewCompKey?
  {
  }

  /** A transaction with everything it needs can go on. */
  lemma Unblocked(s: Server, id: nat)
    requires ServerOk(s) && Live(s, id) && Wants(s.txns[id]) == {}
    ensures !Blocked(s, id)
  {
  }

  lemma KeyHolders(t: Txn, r: Resource)
    requires r in Holds(t) && (r.NewDebit? || r.NewDebitKey? || r.NewCompKey?)
    ensures !t.Ended? && Wants(t) == {}
  {
  }

  lemma RowHolders(t: Txn, r: Resource)
    requires r in Holds(t) && (r.DebitRow? || r.ReservationRow?) && Wants(t) != {}
    ensures !t.Ended? && ((exists w :: WalletRow(w) in Wants(t)) || t.CompInsert?)
    ensures r.DebitRow? ==> t.CompLockWallet? || t.CompInsert?
  {
    match t
    case CompLockWallet(c, row) => assert WalletRow(row.wallet) in Wants(t);
    case ConfirmLockFirst(_, h) => assert WalletRow(Lower(h.from, h.to)) in Wants(t);
    case ConfirmLockSecond(_, h, _) => assert WalletRow(RowLocks.Upper(h.from, h.to)) in Wants(t);
    case _ =>
  }

  /** Every live transaction waits for another one. */
  ghost predicate Deadlocked(s: Server) {
    (exists id :: Live(s, id)) && forall id | Live(s, id) :: Blocked(s, id)
  }

  lemma Blocker(s: Server, id: nat) returns (j: nat, r: Resource)
    requires id in s.txns && Blocked(s, id)
    ensures j in s.txns && j != id && r in Holds(s.txns[j]) && r in Wants(s.txns[id])
    ensures Live(s, j)
  {
    j :| j in s.txns && j != id && Holds(s.txns[j]) * Wants(s.txns[id]) != {};
    r :| r in Holds(s.txns[j]) * Wants(s.txns[id]);
  }

  /** Nobody in a deadlock waits for a key. */
  lemma NoKeyWaits(s: Server, id: nat)
    requires ServerOk(s) && Deadlocked(s) && Live(s, id)
    ensures !s.txns[id].DebitInsert? && !s.txns[id].CompInsert? && Wants(s.txns[id]) != {}
  {
    hide ServerOk;
    var j, r := Blocker(s, id);
    if r.NewDebit? || r.NewDebitKey? || r.NewCompKey? {
      KeyHolders(s.txns[j], r);
      Unblocked(s, j);
    }
  }

  lemma {:induction false} Highest(ids: set<nat>) returns (m: nat)
    requires ids != {}
    ensures m in ids && forall k | k in ids :: k <= m
  {
    m :| m in ids;
    if ids != {m} {
      var n := Highest(ids - {m});
      assert forall k | k in ids :: k == m || k in ids - {m};
      if n > m { m := n; }
    }
  }

  ghost function WantedWallets(s: Server): set<Id> {
    set id, r | id in s.txns && r in Wants(s.txns[id]) && r.WalletRow? :: r.wallet
  }

  lemma SomeoneWantsAWallet(s: Server)
    requires ServerOk(s) && Deadlocked(s)
    ensures WantedWallets(s) != {}
  {
    hide ServerOk;
    var id :| Live(s, id);
    var j, r := Blocker(s, id);
    NoKeyWaits(s, j);
    var x :| x in Wants(s.txns[j]);
    if x.WalletRow? {
      assert x.wallet in WantedWallets(s);
    } else if r.WalletRow? {
      assert r.wallet in WantedWallets(s);
    } else {
      if r.DebitRow? || r.ReservationRow? { RowHolders(s.txns[j], r); }
      var w :| WalletRow(w) in Wants(s.txns[j]);
      assert WalletRow(w).wallet in WantedWallets(s);
    }
  }

  /** Whoever holds the highest wallet row waited for is a debit at its second look. */
  lemma HighestHolder(s: Server, h: nat, w: Id)
    requires ServerOk(s) && Deadlocked(s) && Live(s, h) && WalletRow(w) in Holds(s.txns[h])
    requires forall k | k in WantedWallets(s) :: k <= w
    ensures s.txns[h].DebitRecheck?
  {
    NoKeyWaits(s, h);
    var x :| x in Wants(s.txns[h]);
    assert x.WalletRow? ==> x.wallet in WantedWallets(s);
    hide ServerOk, Deadlocked, WantedWallets, TxnOk;
    WalletHolders(s.db, s.txns[h], w, x);
  }

  lemma RecheckCrosses(s: Server, h: nat) returns (k: nat)
    requires ServerOk(s) && Deadlocked(s) && Live(s, h) && s.txns[h].DebitRecheck? && s.txns[h].wallet.Some?
    ensures Crossing(s, h, k)
  {
    hide ServerOk;
    var j, y := Blocker(s, h);
    k := j;
    NoKeyWaits(s, k);
    hide Deadlocked, Blocked;
    RowHolders(s.txns[k], y);
  }

  /** A server on which everybody waits. */
  lemma AllBlockedCross(s: Server) returns (h: nat, k: nat)
    requires ServerOk(s) && Deadlocked(s)
    ensures Crossing(s, h, k)
  {
    hide ServerOk, Crossing, Blocked;
    SomeoneWantsAWallet(s);
    var w := Highest(WantedWallets(s));
    var id, r :| id in s.txns && r in Wants(s.txns[id]) && r.WalletRow? && r.wallet == w;
    assert Live(s, id);
    h := WalletHolder(s, id, w);
    HighestHolder(s, h, w);
    k := RecheckCrosses(s, h);
  }

  ghost predicate WaitsFor(s: Server, id: nat, j: nat) {
    id in s.txns && j in s.txns && j != id && Holds(s.txns[j]) * Wants(s.txns[id]) != {}
  }

  /** A deadlock: some live transactions, each waiting for another one of them, whatever the
      rest of the server does. */
  ghost predicate DeadlockAmong(s: Server, ids: set<nat>) {
    ids != {} && forall id | id in ids :: Live(s, id) && WaitsAmong(s, id, ids)
  }

  ghost predicate WaitsAmong(s: Server, id: nat, ids: set<nat>) {
    exists j | j in ids :: WaitsFor(s, id, j)
  }

  ghost function Only(s: Server, ids: set<nat>): Server {
    s.(txns := map id | id in s.txns && id in ids :: s.txns[id])
  }

  lemma OnlyBlocks(s: Server, ids: set<nat>, id: nat)
    requires id in ids && WaitsAmong(s, id, ids)
    ensures id in Only(s, ids).txns && Blocked(Only(s, ids), id)
  {
    hide Holds, Wants;
    var j :| j in ids && WaitsFor(s, id, j);
    var t := Only(s, ids);
    assert j in t.txns && j != id && Holds(t.txns[j]) * Wants(t.txns[id]) != {};
  }

  lemma OnlyDeadlocks(s: Server, ids: set<nat>)
    requires DeadlockAmong(s, ids)
    ensures Deadlocked(Only(s, ids))
  {
    hide Blocked, WaitsAmong;
    var t := Only(s, ids);
    var first :| first in ids;
    assert Live(t, first);
    forall id | Live(t, id) ensures Blocked(t, id) { OnlyBlocks(s, ids, id); }
  }

  lemma OnlyOk(s: Server, ids: set<nat>)
    requires ServerOk(s)
    ensures ServerOk(Only(s, ids))
  {
    hide BankOk, TxnOk, Holds;
  }

  /** Lock order rules out every deadlock, among any of the transactions, but one: it takes a
      debit and a compensation of the same payment, the debit holding a wallet row and the
      compensation the debit row. */
  lemma DeadlockNeedsCrossing(s: Server, ids: set<nat>)
    requires ServerOk(s) && DeadlockAmong(s, ids)
    ensures exists i, j | i in ids && j in ids :: Crossing(s, i, j)
  {
    hide ServerOk;
    OnlyOk(s, ids);
    OnlyDeadlocks(s, ids);
    hide Deadlocked, DeadlockAmong;
    var h, k := AllBlockedCross(Only(s, ids));
    assert h in ids && k in ids && Crossing(s, h, k);
  }

  predicate Debits(t: Txn) {
    t.DebitFind? || t.DebitLock? || t.DebitRecheck? || t.DebitInsert? || t.DebitCommit? || t.DebitLookup?
  }

  /** Requests for the debit of a payment that has one name the wallet it was taken from, as a
      saga's do: its start row never changes. */
  ghost predicate SameWallets(s: Server) {
    forall id | id in s.txns && Debits(s.txns[id]) && s.txns[id].debit.pid in s.db.debits ::
      s.db.debits[s.txns[id].debit.pid].wallet == s.txns[id].debit.from
  }

  lemma CrossingMeets(s: Server, i: nat, j: nat)
    requires ServerOk(s) && SameWallets(s) && Crossing(s, i, j)
    ensures CrossingAt(s, i, j)
  {
    assert TxnOk(s.db, s.txns[j]) && Debits(s.txns[i]);
  }

  lemma CrossingDeadlocks(s: Server, i: nat, j: nat)
    requires CrossingAt(s, i, j)
    ensures DeadlockAmong(s, {i, j})
  {
    assert DebitRow(s.txns[i].debit.pid) in Holds(s.txns[j]) * Wants(s.txns[i]);
    assert WalletRow(s.txns[i].debit.from) in Holds(s.txns[i]) * Wants(s.txns[j]);
    assert WaitsFor(s, i, j) && WaitsFor(s, j, i);
  }

  /** With such requests the server has a deadlock exactly when a debit at its second look and a
      compensation of the same payment hold each other's row. */
  lemma DeadlockIffCrossing(s: Server)
    requires ServerOk(s) && SameWallets(s)
    ensures (exists ids :: DeadlockAmong(s, ids)) <==> exists i, j :: CrossingAt(s, i, j)
  {
    hide ServerOk, SameWallets, DeadlockAmong, Crossing, CrossingAt;
    if ids :| DeadlockAmong(s, ids) {
      DeadlockNeedsCrossing(s, ids);
      var i, j :| i in ids && j in ids && Crossing(s, i, j);
      CrossingMeets(s, i, j);
    }
    if i, j :| CrossingAt(s, i, j) { CrossingDeadlocks(s, i, j); }
  }

  lemma WalletHolder(s: Server, id: nat, w: Id) returns (j: nat)
    requires Live(s, id) && Blocked(s, id) && WalletRow(w) in Wants(s.txns[id])
    ensures Live(s, j) && WalletRow(w) in Holds(s.txns[j])
  {
    var k, r := Blocker(s, id);
    j := k;
  }

  /** Such a pair waits for each other until one of them is aborted, as PostgreSQL does. */
  lemma {:induction false} CrossingIsForever(s: Server, ls: seq<Label>, i: nat, j: nat)
    requires CrossingAt(s, i, j) && Abort(i) !in ls && Abort(j) !in ls
    ensures var s' := TakeAll(s, ls); CrossingAt(s', i, j) && Blocked(s', i) && Blocked(s', j)
    decreases ls
  {
    hide Proceed;
    assert DebitRow(s.txns[i].debit.pid) in Holds(s.txns[j]) * Wants(s.txns[i]);
    assert WalletRow(s.txns[i].debit.from) in Holds(s.txns[i]) * Wants(s.txns[j]);
    if ls != [] {
      CrossingIsForever(Take(s, ls[0]), ls[1..], i, j);
    }
  }

  lemma {:induction false} TakeAllAppend(s: Server, ls: seq<Label>, l: Label)
    ensures TakeAll(s, ls + [l]) == Take(TakeAll(s, ls), l)
    decreases ls
  {
    hide Take;
    if ls == [] {
      assert ls + [l] == [l] && TakeAll(s, [l]) == TakeAll(Take(s, l), [l][1..]);
    } else {
      assert (ls + [l])[1..] == ls[1..] + [l];
      TakeAllAppend(Take(s, ls[0]), ls[1..], l);
    }
  }

  /** A debit alone on the server, until its commit. */
  lemma DebitAlone(b: Bank, d: DebitCommand, from: Wallet)
    requires DebitReady(b, d, from) && d.pid !in b.debits && !KeyTaken(b.debits, d.key)
    ensures DebitValid(d) && Proceed(b, DebitFind(d)) == (b, DebitLock(d))
    ensures Proceed(b, DebitLock(d)) == (b, DebitRecheck(d, Some(from)))
    ensures Proceed(b, DebitRecheck(d, Some(from))) == (b, DebitInsert(d, from))
    ensures Proceed(b, DebitInsert(d, from)) == (b, DebitCommit(d, from))
    ensures var (b', t') := Proceed(b, DebitCommit(d, from));
      && t'.Ended? && d.pid in b'.debits && b'.debits[d.pid].wallet == d.from && b'.debits[d.pid].amount == d.amount
      && b'.debits[d.pid].currency == d.currency && b'.comps == b.comps && d.from in b'.wallets
  {
  }

  lemma CompensationFollows(b: Bank, c: CompensateCommand)
    requires CompValid(c) && c.pid in b.debits && c.pid !in b.comps && CompChecks(c, b.debits[c.pid]).CompLockWallet?
    ensures Proceed(b, CompFind(c)) == (b, CompLockDebit(c))
    ensures Proceed(b, CompLockDebit(c)) == (b, CompRecheck(c, b.debits[c.pid]))
    ensures Proceed(b, CompRecheck(c, b.debits[c.pid])) == (b, CompLockWallet(c, b.debits[c.pid]))
  {
  }

  ghost predicate Goes(s: Server, ls: seq<Label>, s': Server) {
    TakeAll(s, ls) == s'
  }

  lemma GoesOn(s: Server, ls: seq<Label>, s': Server, l: Label, s'': Server)
    requires Goes(s, ls, s') && Take(s', l) == s''
    ensures Goes(s, ls + [l], s'')
  {
    TakeAllAppend(s, ls, l);
  }

  /** A step of a transaction that no other one holds anything against. */
  lemma GoesAhead(s: Server, ls: seq<Label>, s': Server, id: nat, b': Bank, t': Txn)
    requires Goes(s, ls, s') && id in s'.txns && (forall j | j in s'.txns && j != id :: Holds(s'.txns[j]) == {})
    requires Proceed(s'.db, s'.txns[id]) == (b', t')
    ensures Goes(s, ls + [Advance(id)], Server(b', s'.txns[id := t']))
  {
    assert !Blocked(s', id);
    GoesOn(s, ls, s', Advance(id), Server(b', s'.txns[id := t']));
  }

  /** A step that takes nothing another transaction holds. */
  lemma GoesBeside(s: Server, ls: seq<Label>, s': Server, id: nat, b': Bank, t': Txn)
    requires Goes(s, ls, s') && id in s'.txns && Proceed(s'.db, s'.txns[id]) == (b', t')
    requires forall r, j | r in Wants(s'.txns[id]) && j in s'.txns && j != id :: r !in Holds(s'.txns[j])
    ensures Goes(s, ls + [Advance(id)], Server(b', s'.txns[id := t']))
  {
    assert !Blocked(s', id);
    GoesOn(s, ls, s', Advance(id), Server(b', s'.txns[id := t']));
  }

  /** A request for a debit that is not there yet, up to where it will lock the wallet. */
  lemma LookGoes(s0: Server, ls0: seq<Label>, b: Bank, txns: map<nat, Txn>, id: nat, d: DebitCommand) returns (ls: seq<Label>)
    requires DebitValid(d) && d.pid !in b.debits && Goes(s0, ls0, Server(b, txns)) && id !in txns
    requires forall j | j in txns :: Holds(txns[j]) == {}
    ensures Goes(s0, ls, Server(b, txns[id := DebitLock(d)]))
  {
    GoesOn(s0, ls0, Server(b, txns), Begin(id, DebitFind(d)), Server(b, txns[id := DebitFind(d)]));
    ls := ls0 + [Begin(id, DebitFind(d))];
    GoesAhead(s0, ls, Server(b, txns[id := DebitFind(d)]), id, b, DebitLock(d));
    ls := ls + [Advance(id)];
    assert txns[id := DebitFind(d)][id := DebitLock(d)] == txns[id := DebitLock(d)];
  }

  /** A debit beside transactions that hold nothing, to its commit. */
  lemma DebitGoes(s0: Server, ls0: seq<Label>, b: Bank, others: map<nat, Txn>, id: nat, d: DebitCommand, from: Wallet)
    returns (ls: seq<Label>, s: Server)
    requires DebitReady(b, d, from) && d.pid !in b.debits && !KeyTaken(b.debits, d.key) && id !in others
    requires (forall j | j in others :: Holds(others[j]) == {}) && Goes(s0, ls0, Server(b, others))
    ensures Goes(s0, ls, s) && id in s.txns && s.txns == others[id := s.txns[id]] && s.txns[id].Ended?
    ensures s.db == Proceed(b, DebitCommit(d, from)).0
  {
    hide Proceed, DebitReady, DebitValid, KeyTaken;
    DebitAlone(b, d, from);
    ls := LookGoes(s0, ls0, b, others, id, d);
    var txns := others[id := DebitLock(d)];
    GoesAhead(s0, ls, Server(b, txns), id, b, DebitRecheck(d, Some(from)));
    ls, txns := ls + [Advance(id)], txns[id := DebitRecheck(d, Some(from))];
    GoesAhead(s0, ls, Server(b, txns), id, b, DebitInsert(d, from));
    ls, txns := ls + [Advance(id)], txns[id := DebitInsert(d, from)];
    GoesAhead(s0, ls, Server(b, txns), id, b, DebitCommit(d, from));
    ls, txns := ls + [Advance(id)], txns[id := DebitCommit(d, from)];
    var (b', t') := Proceed(b, DebitCommit(d, from));
    GoesAhead(s0, ls, Server(b, txns), id, b', t');
    ls, s := ls + [Advance(id)], Server(b', txns[id := t']);
    assert s.txns == others[id := t'];
  }

  /** A compensation, up to where it will lock the wallet. */
  lemma CompGoes(s0: Server, ls0: seq<Label>, b: Bank, txns: map<nat, Txn>, id: nat, c: CompensateCommand) returns (ls: seq<Label>)
    requires CompValid(c) && c.pid in b.debits && c.pid !in b.comps && CompChecks(c, b.debits[c.pid]).CompLockWallet?
    requires Goes(s0, ls0, Server(b, txns)) && id !in txns && forall j | j in txns :: DebitRow(c.pid) !in Holds(txns[j])
    ensures Goes(s0, ls, Server(b, txns[id := CompLockWallet(c, b.debits[c.pid])]))
  {
    hide Proceed, CompValid, CompChecks;
    var row := b.debits[c.pid];
    CompensationFollows(b, c);
    var begun := txns[id := CompFind(c)];
    GoesOn(s0, ls0, Server(b, txns), Begin(id, CompFind(c)), Server(b, begun));
    ls := ls0 + [Begin(id, CompFind(c))];
    GoesBeside(s0, ls, Server(b, begun), id, b, CompLockDebit(c));
    ls, begun := ls + [Advance(id)], begun[id := CompLockDebit(c)];
    GoesBeside(s0, ls, Server(b, begun), id, b, CompRecheck(c, row));
    ls, begun := ls + [Advance(id)], begun[id := CompRecheck(c, row)];
    GoesBeside(s0, ls, Server(b, begun), id, b, CompLockWallet(c, row));
    ls, begun := ls + [Advance(id)], begun[id := CompLockWallet(c, row)];
    assert begun == txns[id := CompLockWallet(c, row)];
  }

  /** The refund of a debit. */
  function Refund(d: DebitCommand, key: string): CompensateCommand {
    CompensateCommand(d.pid, d.from, NIL, d.amount, d.currency, key)
  }

  /** Any debit that the wallet can pay, requested twice, with its compensation begun in
      between, reaches that deadlock. */
  lemma CrossingIsReachable(b: Bank, d: DebitCommand, from: Wallet, key: string) returns (ls: seq<Label>)
    requires DebitReady(b, d, from) && d.pid !in b.debits && !KeyTaken(b.debits, d.key) && d.pid !in b.comps && key != ""
    ensures CrossingAt(TakeAll(Server(b, map[]), ls), 0, 2)
  {
    hide Proceed, KeyTaken;
    var s0 := Server(b, map[]);
    ls := LookGoes(s0, [], b, map[], 0, d);
    DebitAlone(b, d, from);
    var s;
    ls, s := DebitGoes(s0, ls, b, map[0 := DebitLock(d)], 1, d, from);
    ls := CompGoes(s0, ls, s.db, s.txns, 2, Refund(d, key));
    var txns := s.txns[2 := CompLockWallet(Refund(d, key), s.db.debits[d.pid])];
    LockGoes(s.db, d);
    GoesBeside(s0, ls, Server(s.db, txns), 0, s.db, DebitRecheck(d, Some(s.db.wallets[d.from])));
    ls := ls + [Advance(0)];
  }

  lemma LockGoes(b: Bank, d: DebitCommand)
    requires d.from in b.wallets
    ensures Proceed(b, DebitLock(d)) == (b, DebitRecheck(d, Some(b.wallets[d.from])))
  {
  }

  // ----- Debits and compensations of a payment that name different wallets -----

  /** Two payments from different wallets that can both be debited. */
  ghost predicate Apart(b: Bank, d: DebitCommand, from: Wallet, e: DebitCommand, other: Wallet) {
    && DebitReady(b, d, from) && d.pid !in b.debits && !KeyTaken(b.debits, d.key) && d.pid !in b.comps
    && DebitReady(b, e, other) && e.pid !in b.debits && !KeyTaken(b.debits, e.key) && e.pid !in b.comps
    && d.pid != e.pid && d.from != e.from && d.key != e.key
  }

  /** Payment `d` is debited, as asked, and can be refunded. */
  ghost predicate Refundable(b: Bank, d: DebitCommand) {
    && d.pid in b.debits && b.debits[d.pid].wallet == d.from && d.pid !in b.comps && CompValid(Refund(d, d.key))
    && CompChecks(Refund(d, d.key), b.debits[d.pid]) == CompLockWallet(Refund(d, d.key), b.debits[d.pid])
  }

  /** The first debit leaves the second one as it was. */
  lemma SecondDebit(b: Bank, d: DebitCommand, from: Wallet, e: DebitCommand, other: Wallet)
    requires Apart(b, d, from, e, other)
    ensures DebitValid(d.(from := e.from)) && DebitValid(e.(from := d.from))
    ensures var b1 := Proceed(b, DebitCommit(d, from)).0; var b2 := Proceed(b1, DebitCommit(e, other)).0;
      && DebitReady(b1, e, other) && e.pid !in b1.debits && !KeyTaken(b1.debits, e.key)
      && d.from in b2.wallets && e.from in b2.wallets && Refundable(b2, d) && Refundable(b2, e)
  {
    hide NormalizeCurrency;
  }

  /** Two requests, each naming the other payment's wallet, have looked; then both payments are debited. */
  lemma BothDebited(b: Bank, d: DebitCommand, from: Wallet, e: DebitCommand, other: Wallet) returns (ls: seq<Label>, s: Server)
    requires Apart(b, d, from, e, other)
    ensures Goes(Server(b, map[]), ls, s) && d.from in s.db.wallets && e.from in s.db.wallets && Refundable(s.db, d) && Refundable(s.db, e)
    ensures s.txns.Keys == {0, 2, 4, 5} && s.txns[4].Ended? && s.txns[5].Ended?
    ensures s.txns[0] == DebitLock(d.(from := e.from)) && s.txns[2] == DebitLock(e.(from := d.from))
  {
    hide Proceed, KeyTaken, DebitReady, DebitValid, Refundable, Goes;
    var s0 := Server(b, map[]);
    var d', e' := d.(from := e.from), e.(from := d.from);
    SecondDebit(b, d, from, e, other);
    GoesNowhere(s0);
    ls := LookGoes(s0, [], b, map[], 0, d');
    ls := LookGoes(s0, ls, b, map[0 := DebitLock(d')], 2, e');
    ls, s := DebitGoes(s0, ls, b, map[0 := DebitLock(d')][2 := DebitLock(e')], 4, d, from);
    ls, s := DebitGoes(s0, ls, s.db, s.txns, 5, e, other);
  }

  lemma GoesNowhere(s: Server)
    ensures Goes(s, [], s)
  {
  }

  /** And their compensations hold the debit rows; the two requests are still to lock the wallets. */
  lemma CircleOpens(b: Bank, d: DebitCommand, from: Wallet, e: DebitCommand, other: Wallet) returns (ls: seq<Label>, s: Server)
    requires Apart(b, d, from, e, other)
    ensures Goes(Server(b, map[]), ls, s) && d.from in s.db.wallets && e.from in s.db.wallets
    ensures s.txns.Keys == {0, 1, 2, 3, 4, 5} && s.txns[4].Ended? && s.txns[5].Ended?
    ensures s.txns[0] == DebitLock(d.(from := e.from)) && s.txns[2] == DebitLock(e.(from := d.from))
    ensures s.txns[1].CompLockWallet? && s.txns[1].comp.pid == d.pid && s.txns[1].row.wallet == d.from
    ensures s.txns[3].CompLockWallet? && s.txns[3].comp.pid == e.pid && s.txns[3].row.wallet == e.from
  {
    hide Proceed, KeyTaken, DebitReady, CompValid, CompChecks, Goes;
    var s0 := Server(b, map[]);
    ls, s := BothDebited(b, d, from, e, other);
    ls := CompGoes(s0, ls, s.db, s.txns, 1, Refund(d, d.key));
    s := s.(txns := s.txns[1 := CompLockWallet(Refund(d, d.key), s.db.debits[d.pid])]);
    ls := CompGoes(s0, ls, s.db, s.txns, 3, Refund(e, e.key));
    s := s.(txns := s.txns[3 := CompLockWallet(Refund(e, e.key), s.db.debits[e.pid])]);
  }

  /** Each of the two requests has locked the other payment's wallet. */
  ghost predicate Circle(s: Server, d: DebitCommand, e: DebitCommand) {
    && s.txns.Keys == {0, 1, 2, 3, 4, 5} && s.txns[4].Ended? && s.txns[5].Ended?
    && s.txns[0].DebitRecheck? && s.txns[0].debit == d.(from := e.from) && s.txns[0].wallet.Some?
    && s.txns[2].DebitRecheck? && s.txns[2].debit == e.(from := d.from) && s.txns[2].wallet.Some?
    && s.txns[1].CompLockWallet? && s.txns[1].comp.pid == d.pid && s.txns[1].row.wallet == d.from
    && s.txns[3].CompLockWallet? && s.txns[3].comp.pid == e.pid && s.txns[3].row.wallet == e.from
  }

  lemma CircleCloses(b: Bank, d: DebitCommand, from: Wallet, e: DebitCommand, other: Wallet) returns (ls: seq<Label>)
    requires Apart(b, d, from, e, other)
    ensures Circle(TakeAll(Server(b, map[]), ls), d, e)
  {
    hide Proceed, TakeAll, DebitReady, KeyTaken;
    var s0 := Server(b, map[]);
    var s;
    ls, s := CircleOpens(b, d, from, e, other);
    var d', e' := d.(from := e.from), e.(from := d.from);
    LockGoes(s.db, d');
    LockGoes(s.db, e');
    GoesBeside(s0, ls, s, 0, s.db, DebitRecheck(d', Some(s.db.wallets[e.from])));
    ls := ls + [Advance(0)];
    s := s.(txns := s.txns[0 := DebitRecheck(d', Some(s.db.wallets[e.from]))]);
    GoesBeside(s0, ls, s, 2, s.db, DebitRecheck(e', Some(s.db.wallets[d.from])));
    ls := ls + [Advance(2)];
  }

  /** Who waits for whom in the circle. */
  lemma CircleWaits(s: Server, d: DebitCommand, e: DebitCommand)
    requires Circle(s, d, e)
    ensures WaitsFor(s, 0, 1) && WaitsFor(s, 1, 2) && WaitsFor(s, 2, 3) && WaitsFor(s, 3, 0)
  {
    assert DebitRow(d.pid) in Holds(s.txns[1]) * Wants(s.txns[0]);
    assert WalletRow(d.from) in Holds(s.txns[2]) * Wants(s.txns[1]);
    assert DebitRow(e.pid) in Holds(s.txns[3]) * Wants(s.txns[2]);
    assert WalletRow(e.from) in Holds(s.txns[0]) * Wants(s.txns[3]);
  }

  lemma CircleHasNoPair(s: Server, d: DebitCommand, e: DebitCommand, i: nat, j: nat)
    requires Circle(s, d, e) && d.pid != e.pid && d.from != e.from
    ensures !CrossingAt(s, i, j)
  {
  }

  lemma CircleDeadlocks(s: Server)
    requires WaitsFor(s, 0, 1) && WaitsFor(s, 1, 2) && WaitsFor(s, 2, 3) && WaitsFor(s, 3, 0)
    requires Live(s, 0) && Live(s, 1) && Live(s, 2) && Live(s, 3)
    ensures DeadlockAmong(s, {0, 1, 2, 3})
  {
    hide WaitsFor, Live;
    var ids := {0, 1, 2, 3};
    assert WaitsAmong(s, 0, ids) && WaitsAmong(s, 1, ids) && WaitsAmong(s, 2, ids) && WaitsAmong(s, 3, ids);
  }

  /** Without the same wallets a longer circle can close: two payments from different wallets, each
      debit requested again from the other one's wallet while both are compensated, reach a
      deadlock without a crossing pair. */
  lemma MixedWalletsDeadlock(b: Bank, d: DebitCommand, from: Wallet, e: DebitCommand, other: Wallet) returns (ls: seq<Label>)
    requires Apart(b, d, from, e, other)
    ensures var s := TakeAll(Server(b, map[]), ls); DeadlockAmong(s, {0, 1, 2, 3}) && forall i, j :: !CrossingAt(s, i, j)
  {
    hide TakeAll, WaitsFor, CrossingAt, DeadlockAmong, DebitReady, KeyTaken;
    ls := CircleCloses(b, d, from, e, other);
    var s := TakeAll(Server(b, map[]), ls);
    CircleWaits(s, d, e);
    CircleDeadlocks(s);
    forall i, j ensures !CrossingAt(s, i, j) {
      CircleHasNoPair(s, d, e, i, j);
    }
  }
}
