/** Who can move money out of a wallet by a direct transfer: its owner, and nobody else, over every
    run of commands and every interleaving of their transactions. */
module Ownership {
  import opened Domain
  import opened Sums
  import opened Bank
  import opened BankLaws
  import opened WalletAccounts
  import opened Acceptance
  import opened RowLocks

  // ----- Runs of commands -----

  /** Transfers once recorded stay as they were, and only a transfer request adds an announced one. */
  ghost predicate TransfersStay(b: Bank, b': Bank) {
    b.initiated <= b'.initiated && forall t | t in b.transfers :: t in b'.transfers && b'.transfers[t] == b.transfers[t]
  }

  lemma CommandTransfersStay(b: Bank, c: Command)
    requires BankOk(b)
    ensures TransfersStay(b, Apply(b, c)) && (!c.DoCreateTransfer? ==> Apply(b, c).initiated == b.initiated)
  {
    hide BackedOk, MoneyOk, DebitForSaga, CompensateDebit, NormalizeCurrency;
    assert b.nextId !in b.transfers;
    match c
    case DoReserve(cmd) => ReserveFrame(b, cmd);
    case DoConfirm(cmd) => ConfirmFrame(b, cmd);
    case DoCancel(cmd) => CancelFrame(b, cmd);
    case DoDebit(cmd) => WalletCommandsStay(b, c);
    case DoCompensate(cmd) => WalletCommandsStay(b, c);
    case _ =>
  }

  lemma WalletCommandsStay(b: Bank, c: Command)
    requires c.DoDebit? || c.DoCompensate?
    ensures Apply(b, c).transfers == b.transfers && Apply(b, c).initiated == b.initiated
  {
  }

  lemma {:induction false} RunTransfersStay(b: Bank, cs: seq<Command>)
    requires BankOk(b)
    ensures TransfersStay(b, Run(b, cs))
    decreases cs
  {
    hide BankOk, Apply;
    if cs != [] {
      CommandKeeps(b, cs[0]);
      CommandTransfersStay(b, cs[0]);
      RunTransfersStay(Apply(b, cs[0]), cs[1..]);
    }
  }

  /** Transfer `t` is what the owner of its source wallet asked for. */
  ghost predicate AskedBy(b: Bank, t: Id, c: Command) {
    && t in b.transfers && b.transfers[t].from in b.wallets
    && c == DoCreateTransfer(b.wallets[b.transfers[t].from].user, b.transfers[t].from, b.transfers[t].to, b.transfers[t].amount)
  }

  lemma NewTransferIsAsked(b: Bank, c: Command, t: Id)
    requires BankOk(b) && t in Apply(b, c).initiated && t !in b.initiated
    ensures AskedBy(Apply(b, c), t, c)
  {
    hide BankOk;
    CommandTransfersStay(b, c);
    ConsistentMoney(b);
    if c.DoCreateTransfer? {
      TransferAcceptedIff(b, c.user, c.from, c.to, c.amount);
      if CreateTransfer(b, c.user, c.from, c.to, c.amount).1.Ok? { TransferWrites(b, c.user, c.from, c.to, c.amount); }
    }
  }

  lemma ConsistentMoney(b: Bank)
    requires BankOk(b)
    ensures MoneyOk(b)
  {
  }

  lemma AskedStays(b: Bank, b': Bank, t: Id, c: Command)
    requires AskedBy(b, t, c) && TransfersStay(b, b') && Extends(b, b')
    ensures AskedBy(b', t, c)
  {
  }

  /** Over every run of commands a wallet keeps its owner, and every direct transfer recorded by the
      run was asked for, with just that destination and amount, by the owner of its source. */
  lemma {:induction false} OwnersAsk(b: Bank, cs: seq<Command>, t: Id)
    requires BankOk(b) && t in Run(b, cs).initiated && t !in b.initiated
    ensures exists i | 0 <= i < |cs| :: AskedBy(Run(b, cs), t, cs[i])
    decreases cs
  {
    hide BankOk, Apply, AskedBy, TransfersStay, Extends;
    var b1 := Apply(b, cs[0]);
    CommandKeeps(b, cs[0]);
    if t in b1.initiated {
      NewTransferIsAsked(b, cs[0], t);
      RunTransfersStay(b1, cs[1..]);
      RunLaws(b1, cs[1..]);
      AskedStays(b1, Run(b1, cs[1..]), t, cs[0]);
    } else {
      OwnersAsk(b1, cs[1..], t);
      var i :| 0 <= i < |cs[1..]| && AskedBy(Run(b1, cs[1..]), t, cs[1..][i]);
      assert cs[i + 1] == cs[1..][i];
    }
  }

  lemma OwnersStay(b: Bank, cs: seq<Command>, w: Id)
    requires BankOk(b) && w in b.wallets
    ensures w in Run(b, cs).wallets && Run(b, cs).wallets[w].user == b.wallets[w].user
  {
    RunLaws(b, cs);
  }

  // ----- What nobody else can do -----

  /** No request of the run sends from wallet `w` in its owner's name. */
  ghost predicate Silent(b: Bank, cs: seq<Command>, w: Id)
    requires w in b.wallets
  {
    forall i | 0 <= i < |cs| :: !(cs[i].DoCreateTransfer? && cs[i].user == b.wallets[w].user && cs[i].from == w)
  }

  lemma SilentSends(b: Bank, cs: seq<Command>, w: Id)
    requires BankOk(b) && w in b.wallets && Silent(b, cs, w)
    ensures SentBy(Run(b, cs), w) == SentBy(b, w)
  {
    hide BankOk, Extends, Run, Silent;
    var b' := Run(b, cs);
    RunTransfersStay(b, cs);
    OwnersStay(b, cs, w);
    InitiatedAreTransfers(b);
    forall t | t in b'.initiated && t in b'.transfers && b'.transfers[t].from == w ensures t in b.initiated {
      if t !in b.initiated {
        OwnersAsk(b, cs, t);
        var i :| 0 <= i < |cs| && AskedBy(b', t, cs[i]);
        SilentAt(b, cs, w, i);
      }
    }
  }

  lemma SilentAt(b: Bank, cs: seq<Command>, w: Id, i: nat)
    requires w in b.wallets && Silent(b, cs, w) && i < |cs|
    ensures !(cs[i].DoCreateTransfer? && cs[i].user == b.wallets[w].user && cs[i].from == w)
  {
  }

  lemma InitiatedAreTransfers(b: Bank)
    requires BankOk(b)
    ensures forall t | t in b.initiated :: t in b.transfers && b.transfers[t].amount > 0
  {
    assert forall t | t in b.transfers :: TransferBacked(b, b.transfers[t]);
  }

  lemma {:induction false} SumGrows(m: map<Id, int>, m': map<Id, int>)
    requires (forall k | k in m :: k in m' && m'[k] == m[k]) && forall k | k in m' :: m'[k] >= 0
    ensures Sum(m) <= Sum(m')
    decreases |m|
  {
    if m == map[] {
      SumNonNegative(m');
    } else {
      var k :| k in m;
      SumWithout(m, k);
      SumWithout(m', k);
      assert |m - {k}| < |m| by { assert (m - {k}).Keys == m.Keys - {k}; }
      SumGrows(m - {k}, m' - {k});
    }
  }

  /** Over every run in which the owner of a wallet asks for no transfer out of it, what the wallet
      holds together with its open saga debits does not fall. */
  lemma OnlyTheOwnerSends(b: Bank, cs: seq<Command>, w: Id)
    requires BankOk(b) && w in b.wallets && Silent(b, cs, w)
    ensures var b' := Run(b, cs);
      w in b'.wallets && b'.wallets[w].balance + Sum(OpenOn(b', w)) >= b.wallets[w].balance + Sum(OpenOn(b, w))
  {
    hide BankOk, Run, Silent;
    BalancesAreExplained(b, cs, w);
    SilentSends(b, cs, w);
    RunTransfersStay(b, cs);
    RunLaws(b, cs);
    InitiatedAreTransfers(b);
    InitiatedAreTransfers(Run(b, cs));
    SumGrows(ReceivedBy(b, w), ReceivedBy(Run(b, cs), w));
  }

  // ----- Interleaved transactions -----

  /** The transaction was begun in the run with this command, or was there before. */
  ghost predicate Begun(s: Server, ls: seq<Label>, c: Command) {
    || (exists id :: id in s.txns && !s.txns[id].Ended? && CommandOf(s.txns[id]) == c)
    || (exists k | 0 <= k < |ls| :: ls[k].Begin? && Starts(ls[k].txn) && CommandOf(ls[k].txn) == c)
    || (Creates(c) && exists k | 0 <= k < |ls| :: ls[k] == OneStatement(c))
  }

  lemma TakeKeepsCommands(s: Server, l: Label, id: nat)
    requires ServerOk(s) && id in Take(s, l).txns && !Take(s, l).txns[id].Ended?
    ensures (id in s.txns && !s.txns[id].Ended? && CommandOf(s.txns[id]) == CommandOf(Take(s, l).txns[id]))
      || (l.Begin? && Starts(l.txn) && CommandOf(l.txn) == CommandOf(Take(s, l).txns[id]))
  {
    hide TxnOk, Holds, Wants, Within, Proceed, BankOk, Apply;
    if l.Advance? && l.id == id && id in s.txns && !Blocked(s, id) {
      if s.txns[id].Ended? {
        EndedStays(s.db, s.txns[id]);
      } else {
        DistinctEnds(s.db);
        ProceedOk(s.db, s.txns[id]);
      }
    }
  }

  lemma BegunBefore(s: Server, ls: seq<Label>, c: Command)
    requires ServerOk(s) && ls != [] && Begun(Take(s, ls[0]), ls[1..], c)
    ensures Begun(s, ls, c)
  {
    hide ServerOk, Take;
    var s1 := Take(s, ls[0]);
    if id :| id in s1.txns && !s1.txns[id].Ended? && CommandOf(s1.txns[id]) == c {
      TakeKeepsCommands(s, ls[0], id);
    } else if k :| 0 <= k < |ls[1..]| && ls[1..][k].Begin? && Starts(ls[1..][k].txn) && CommandOf(ls[1..][k].txn) == c {
      assert ls[k + 1] == ls[1..][k];
    } else {
      var k :| 0 <= k < |ls[1..]| && ls[1..][k] == OneStatement(c);
      assert ls[k + 1] == ls[1..][k];
    }
  }

  /** Whatever commits was begun. */
  lemma {:induction false} CommittedWasBegun(s: Server, ls: seq<Label>, c: Command)
    requires ServerOk(s) && c in CommitOrder(s, ls)
    ensures Begun(s, ls, c)
    decreases ls
  {
    hide ServerOk, Take, Begun, Commits;
    if c in Commits(s, ls[0]) {
      CommitIsBegun(s, ls, c);
    } else {
      TakeOk(s, ls[0]);
      CommittedWasBegun(Take(s, ls[0]), ls[1..], c);
      BegunBefore(s, ls, c);
    }
  }

  lemma CommitIsBegun(s: Server, ls: seq<Label>, c: Command)
    requires ls != [] && c in Commits(s, ls[0])
    ensures Begun(s, ls, c)
  {
    hide Proceed;
  }

  /** The request of the owner of its source for transfer `m`. */
  ghost function Request(b: Bank, m: Transfer): Txn
    requires m.from in b.wallets
  {
    TransferLockFirst(TransferCommand(b.wallets[m.from].user, m.from, m.to, m.amount))
  }

  /** From a server with no transaction running, however the transactions of a run interleave: a
      wallet keeps its owner, and every direct transfer committed out of a wallet was requested in
      the run by its owner, with just that destination and amount. */
  lemma OwnersAskUnderLocks(b: Bank, ls: seq<Label>, t: Id)
    requires BankOk(b) && t !in b.initiated && t in TakeAll(Server(b, map[]), ls).db.initiated
    ensures var b' := TakeAll(Server(b, map[]), ls).db;
      && (forall w | w in b.wallets :: w in b'.wallets && b'.wallets[w].user == b.wallets[w].user)
      && t in b'.transfers && b'.transfers[t].from in b'.wallets
      && exists k | 0 <= k < |ls| :: ls[k].Begin? && ls[k].txn == Request(b', b'.transfers[t])
  {
    hide TakeAll, CommitOrder, BankOk, Run;
    var s := Server(b, map[]);
    assert ServerOk(s);
    TransactionsAreSerial(s, ls);
    var cs := CommitOrder(s, ls);
    RunLaws(b, cs);
    OwnersAsk(b, cs, t);
    var i :| 0 <= i < |cs| && AskedBy(Run(b, cs), t, cs[i]);
    CommittedWasBegun(s, ls, cs[i]);
    OnlyTransfersAsk(s, ls, cs[i]);
  }

  lemma OnlyTransfersAsk(s: Server, ls: seq<Label>, c: Command)
    requires s.txns == map[] && Begun(s, ls, c) && c.DoCreateTransfer?
    ensures exists k | 0 <= k < |ls| :: ls[k].Begin? && ls[k].txn == TransferLockFirst(TransferCommand(c.user, c.from, c.to, c.amount))
  {
  }
}
