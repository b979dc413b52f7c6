/** A transaction that nothing disturbs: statement by statement it comes to the rows and to the
    answer, error included, of its atomic command. */
module LoneTransactions {
  import opened Domain
  import opened Bank
  import opened BankLaws
  import opened RowLocks

  /** Transaction `t` after up to `n` statements of its own and none of others. */
  function Alone(b: Bank, t: Txn, n: nat): (Bank, Txn)
    decreases n
  {
    if n == 0 || t.Ended? then (b, t)
    else
      var (b', t') := Proceed(b, t);
      Alone(b', t', n - 1)
  }

  /** It has done the whole command and answers its answer. */
  ghost predicate DoneAs(b: Bank, c: Command, end: (Bank, Txn))
    requires c.DoDebit? || c.DoCompensate? || c.DoCreateTransfer? || c.DoConfirm? || c.DoCancel?
  {
    end == (Apply(b, c), Ended(Answer(b, c)))
  }

  lemma One(b: Bank, t: Txn, n: nat)
    requires n > 0 && !t.Ended?
    ensures Alone(b, t, n) == Alone(Proceed(b, t).0, Proceed(b, t).1, n - 1)
  {
  }

  lemma Over(b: Bank, t: Txn, n: nat)
    requires t.Ended?
    ensures Alone(b, t, n) == (b, t)
  {
  }

  lemma LoneDebit(b: Bank, d: DebitCommand, n: nat)
    requires n >= 5
    ensures DoneAs(b, DoDebit(d), Alone(b, DebitFind(d), n))
  {
    hide Alone, NormalizeCurrency, KeyTaken;
    One(b, DebitFind(d), n);
    var t := Proceed(b, DebitFind(d)).1;
    if t.Ended? {
      Over(b, t, n - 1);
    } else {
      One(b, t, n - 1);
      var recheck := DebitRecheck(d, Found(b, d.from));
      One(b, recheck, n - 2);
      var checked := Proceed(b, recheck).1;
      if checked.Ended? { Over(b, checked, n - 3); } else { LoneDebitInsert(b, d, checked.from, n - 3); }
    }
  }

  lemma LoneDebitInsert(b: Bank, d: DebitCommand, from: Wallet, n: nat)
    requires n >= 2 && DebitReady(b, d, from) && d.pid !in b.debits
    ensures DoneAs(b, DoDebit(d), Alone(b, DebitInsert(d, from), n))
  {
    hide Alone, NormalizeCurrency, KeyTaken;
    One(b, DebitInsert(d, from), n);
    var t := Proceed(b, DebitInsert(d, from)).1;
    One(b, t, n - 1);
    Over(Proceed(b, t).0, Proceed(b, t).1, n - 2);
  }

  lemma LoneCompensation(b: Bank, c: CompensateCommand, n: nat)
    requires n >= 6
    ensures DoneAs(b, DoCompensate(c), Alone(b, CompFind(c), n))
  {
    hide Alone, NormalizeCurrency, KeyTaken;
    One(b, CompFind(c), n);
    var t := Proceed(b, CompFind(c)).1;
    if t.Ended? {
      Over(b, t, n - 1);
    } else {
      One(b, t, n - 1);
      var locked := Proceed(b, t).1;
      if locked.Ended? {
        Over(b, locked, n - 2);
      } else {
        One(b, locked, n - 2);
        var checked := Proceed(b, locked).1;
        if checked.Ended? { Over(b, checked, n - 3); } else { LoneCompCredit(b, c, n - 3); }
      }
    }
  }

  lemma LoneCompCredit(b: Bank, c: CompensateCommand, n: nat)
    requires n >= 3 && c.pid in b.debits && CompReady(b, c, b.debits[c.pid])
    ensures DoneAs(b, DoCompensate(c), Alone(b, CompLockWallet(c, b.debits[c.pid]), n))
  {
    hide Alone, NormalizeCurrency, KeyTaken;
    var row := b.debits[c.pid];
    One(b, CompLockWallet(c, row), n);
    var t := Proceed(b, CompLockWallet(c, row)).1;
    if t.Ended? {
      Over(b, t, n - 1);
    } else {
      One(b, t, n - 1);
      var last := Proceed(b, t).1;
      One(b, last, n - 2);
      Over(Proceed(b, last).0, Proceed(b, last).1, n - 3);
    }
  }

  lemma LoneTransfer(b: Bank, m: TransferCommand, n: nat)
    requires n >= 3
    ensures DoneAs(b, DoCreateTransfer(m.user, m.from, m.to, m.amount), Alone(b, TransferLockFirst(m), n))
  {
    hide Alone;
    One(b, TransferLockFirst(m), n);
    var t := Proceed(b, TransferLockFirst(m)).1;
    if t.Ended? {
      Over(b, t, n - 1);
    } else {
      One(b, t, n - 1);
      var checked := Proceed(b, t).1;
      if checked.Ended? {
        Over(b, checked, n - 2);
      } else {
        One(b, checked, n - 2);
        Over(Proceed(b, checked).0, Proceed(b, checked).1, n - 3);
      }
    }
  }

  lemma LoneConfirmation(b: Bank, c: ConfirmCommand, n: nat)
    requires n >= 4 && BankOk(b)
    ensures DoneAs(b, DoConfirm(c), Alone(b, ConfirmLock(c), n))
  {
    hide Alone, BankOk;
    One(b, ConfirmLock(c), n);
    var t := Proceed(b, ConfirmLock(c)).1;
    if t.Ended? {
      Over(b, t, n - 1);
    } else {
      DistinctEnds(b);
      One(b, t, n - 1);
      var first := Proceed(b, t).1;
      if first.Ended? {
        Over(b, first, n - 2);
      } else {
        One(b, first, n - 2);
        var checked := Proceed(b, first).1;
        if checked.Ended? {
          Over(b, checked, n - 3);
        } else {
          One(b, checked, n - 3);
          Over(Proceed(b, checked).0, Proceed(b, checked).1, n - 4);
        }
      }
    }
  }

  lemma LoneCancellation(b: Bank, c: CancelCommand, n: nat)
    requires n >= 2
    ensures DoneAs(b, DoCancel(c), Alone(b, CancelLock(c), n))
  {
    hide Alone;
    One(b, CancelLock(c), n);
    var t := Proceed(b, CancelLock(c)).1;
    if t.Ended? {
      Over(b, t, n - 1);
    } else {
      One(b, t, n - 1);
      Over(Proceed(b, t).0, Proceed(b, t).1, n - 2);
    }
  }

  /** Any request, alone: within six statements it has done exactly its atomic command, refusals
      included, and answers exactly its answer. */
  lemma LoneTransactionIsItsCommand(b: Bank, t: Txn, n: nat)
    requires BankOk(b) && Starts(t) && n >= 6
    ensures Alone(b, t, n) == (Apply(b, CommandOf(t)), Ended(Answer(b, CommandOf(t))))
  {
    hide Alone, BankOk, Apply, Answer;
    match t
    case DebitFind(d) => LoneDebit(b, d, n);
    case CompFind(c) => LoneCompensation(b, c, n);
    case TransferLockFirst(m) => LoneTransfer(b, m, n);
    case ConfirmLock(c) => LoneConfirmation(b, c, n);
    case CancelLock(c) => LoneCancellation(b, c, n);
  }
}
