/** Per-wallet accounting: every balance is explained by the committed rows that mention
    the wallet, so no row moves a balance twice, moves the wrong wallet, or is lost. */
module WalletAccounts {
  import opened Domain
  import opened Sums
  import opened Bank
  import opened BankLaws

  ghost function OpenOn(b: Bank, w: Id): map<PaymentId, int> {
    map p | p in b.debits && p !in b.comps && b.debits[p].wallet == w :: b.debits[p].amount as int
  }

  ghost function SentBy(b: Bank, w: Id): map<Id, int> {
    map t | t in b.initiated && t in b.transfers && b.transfers[t].from == w :: b.transfers[t].amount as int
  }

  ghost function ReceivedBy(b: Bank, w: Id): map<Id, int> {
    map t | t in b.initiated && t in b.transfers && b.transfers[t].to == w :: b.transfers[t].amount as int
  }

  /** What the wallet would hold had no open debit and no transfer ever touched it. */
  ghost function Account(b: Bank, w: Id): int
    requires w in b.wallets
  {
    b.wallets[w].balance + Sum(OpenOn(b, w)) + Sum(SentBy(b, w)) - Sum(ReceivedBy(b, w))
  }

  lemma SameMaps(b: Bank, b': Bank, w: Id)
    requires w in b.wallets && w in b'.wallets && b'.wallets[w].balance == b.wallets[w].balance
    requires OpenOn(b', w) == OpenOn(b, w) && SentBy(b', w) == SentBy(b, w) && ReceivedBy(b', w) == ReceivedBy(b, w)
    ensures Account(b', w) == Account(b, w)
  {
  }

  lemma DebitAccounts(b: Bank, cmd: DebitCommand, balance: int64, w: Id)
    requires w in b.wallets && cmd.from in b.wallets && cmd.pid !in b.debits && cmd.pid !in b.comps
    requires balance + cmd.amount == b.wallets[cmd.from].balance
    ensures Account(PostDebit(b, cmd, balance).0, w) == Account(b, w)
  {
    var b' := PostDebit(b, cmd, balance).0;
    assert SentBy(b', w) == SentBy(b, w) && ReceivedBy(b', w) == ReceivedBy(b, w);
    if w == cmd.from {
      assert OpenOn(b', w) == OpenOn(b, w)[cmd.pid := cmd.amount as int];
      SumUpdate(OpenOn(b, w), cmd.pid, cmd.amount as int);
    } else {
      assert OpenOn(b', w) == OpenOn(b, w);
    }
  }

  lemma CompensationAccounts(b: Bank, cmd: CompensateCommand, balance: int64, w: Id)
    requires w in b.wallets && cmd.pid in b.debits && cmd.pid !in b.comps && b.debits[cmd.pid].wallet in b.wallets
    requires balance == b.wallets[b.debits[cmd.pid].wallet].balance + b.debits[cmd.pid].amount
    ensures Account(PostCompensation(b, cmd, b.debits[cmd.pid], balance).0, w) == Account(b, w)
  {
    var b' := PostCompensation(b, cmd, b.debits[cmd.pid], balance).0;
    assert SentBy(b', w) == SentBy(b, w) && ReceivedBy(b', w) == ReceivedBy(b, w);
    if w == b.debits[cmd.pid].wallet {
      assert OpenOn(b', w) == OpenOn(b, w) - {cmd.pid};
      SumWithout(OpenOn(b, w), cmd.pid);
    } else {
      assert OpenOn(b', w) == OpenOn(b, w);
    }
  }

  lemma TransferAccounts(b: Bank, from: Id, to: Id, amount: int64, left: int64, right: int64, w: Id)
    requires w in b.wallets && from in b.wallets && to in b.wallets && from != to && b.nextId !in b.transfers
    requires left + amount == b.wallets[from].balance && right == b.wallets[to].balance + amount
    ensures Account(PostTransfer(b, from, to, amount, left, right), w) == Account(b, w)
  {
    var b' := PostTransfer(b, from, to, amount, left, right);
    assert OpenOn(b', w) == OpenOn(b, w);
    var t := b.nextId;
    if w == from {
      assert SentBy(b', w) == SentBy(b, w)[t := amount as int];
      SumUpdate(SentBy(b, w), t, amount as int);
    } else {
      assert SentBy(b', w) == SentBy(b, w);
    }
    if w == to {
      assert ReceivedBy(b', w) == ReceivedBy(b, w)[t := amount as int];
      SumUpdate(ReceivedBy(b, w), t, amount as int);
    } else {
      assert ReceivedBy(b', w) == ReceivedBy(b, w);
    }
  }

  lemma SameRows(b: Bank, b': Bank, w: Id)
    requires w in b.wallets && b'.wallets == b.wallets && b'.debits == b.debits && b'.comps == b.comps
    requires b'.initiated == b.initiated
    requires forall t | t in b.initiated :: t in b.transfers && t in b'.transfers && b'.transfers[t] == b.transfers[t]
    ensures Account(b', w) == Account(b, w)
  {
    assert OpenOn(b', w) == OpenOn(b, w);
    assert SentBy(b', w) == SentBy(b, w);
    assert ReceivedBy(b', w) == ReceivedBy(b, w);
  }

  lemma ReserveFrame(b: Bank, cmd: ReserveCommand)
    ensures var b' := ReserveTransfer(b, cmd).0; b' == b.(reservations := b'.reservations, nextId := b'.nextId)
  {
  }

  lemma ConfirmFrame(b: Bank, cmd: ConfirmCommand)
    requires b.nextId !in b.transfers
    ensures var b' := ConfirmTransfer(b, cmd).0;
      && b'.wallets == b.wallets && b'.debits == b.debits && b'.comps == b.comps && b'.initiated == b.initiated
      && forall t | t in b.transfers :: t in b'.transfers && b'.transfers[t] == b.transfers[t]
  {
  }

  lemma CancelFrame(b: Bank, cmd: CancelCommand)
    ensures var b' := CancelReservation(b, cmd).0; b' == b.(reservations := b'.reservations)
  {
  }

  lemma AppendFrame(b: Bank, id: Id)
    requires id in b.transfers
    ensures var b' := AppendTransferEntries(b, id).0; b' == b.(entries := b'.entries)
  {
  }

  /** The ledger commands move no balance. */
  lemma LedgerAccounts(b: Bank, c: Command, w: Id)
    requires BankOk(b) && w in b.wallets
    requires c.DoReserve? || c.DoConfirm? || c.DoCancel? || c.DoAppend?
    ensures w in Apply(b, c).wallets && Account(Apply(b, c), w) == Account(b, w)
  {
    match c
    case DoReserve(cmd) => ReserveFrame(b, cmd); SameRows(b, ReserveTransfer(b, cmd).0, w);
    case DoConfirm(cmd) => ConfirmFrame(b, cmd); SameRows(b, ConfirmTransfer(b, cmd).0, w);
    case DoCancel(cmd) => CancelFrame(b, cmd); SameRows(b, CancelReservation(b, cmd).0, w);
    case DoAppend(id) =>
      if id in b.initiated && id in b.transfers {
        AppendFrame(b, id);
        SameRows(b, AppendTransferEntries(b, id).0, w);
      }
  }

  lemma CommandAccounts(b: Bank, c: Command, w: Id)
    requires BankOk(b) && w in b.wallets
    ensures w in Apply(b, c).wallets && Account(Apply(b, c), w) == Account(b, w)
  {
    match c
    case DoCreateWallet(user, currency) => SameMaps(b, Apply(b, c), w);
    case DoCreateTransfer(user, from, to, amount) =>
      if CreateTransfer(b, user, from, to, amount).1.Ok? {
        TransferAccounts(b, from, to, amount, Debited(b.wallets[from].balance, amount).value,
                         Credited(b.wallets[to].balance, amount).value, w);
      }
    case DoDebit(cmd) =>
      var r := DebitForSaga(b, cmd).1;
      if r.Ok? && cmd.pid !in b.debits { DebitAccounts(b, cmd, r.value.balanceAfter, w); }
    case DoCompensate(cmd) =>
      var r := CompensateDebit(b, cmd).1;
      if r.Ok? && cmd.pid !in b.comps { CompensationAccounts(b, cmd, r.value.balanceAfter, w); }
    case _ => LedgerAccounts(b, c, w);
  }

  /** Over every run, each wallet's balance plus its open debits plus what it sent minus
      what it received never changes. */
  lemma {:induction false} BalancesAreExplained(b: Bank, cs: seq<Command>, w: Id)
    requires BankOk(b) && w in b.wallets
    ensures w in Run(b, cs).wallets && Account(Run(b, cs), w) == Account(b, w)
    decreases cs
  {
    if cs != [] {
      CommandKeeps(b, cs[0]);
      CommandAccounts(b, cs[0], w);
      BalancesAreExplained(Apply(b, cs[0]), cs[1..], w);
    }
  }
}
