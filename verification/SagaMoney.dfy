/** Money over whole runs of the saga system: every payment, every handler, every race and
    every death, together with direct transfers. */
module SagaMoney {
  import opened Domain
  import opened Bank
  import opened BankLaws
  import opened WalletAccounts
  import opened SagaMachine
  import opened SagaInterleaved

  /** The wallet or ledger command a handler's next step issues, if it issues one. */
  function CommandOf(h: Handler): Option<Command> {
    match h
    case DebitWallet(c) =>
      if c.start.currency == "" || NormalizeCurrency(c.start.currency).Err? then None
      else Some(DoDebit(DebitCommand(c.start.pid, c.start.from, c.start.amount,
        NormalizeCurrency(c.start.currency).value, StepKey(c.start.pid, "debit-wallet"))))
    case ReserveLedger(c) =>
      if c.start.currency == "" then None
      else Some(DoReserve(ReserveCommand(c.start.pid, StepKey(c.start.pid, "reserve-ledger"),
        c.start.from, c.start.to, c.start.amount, c.start.currency)))
    case Confirm(c) =>
      Some(DoConfirm(ConfirmCommand(c.start.pid, StepKey(c.start.pid, "confirm-ledger"), c.reservationId, c.debitId)))
    case CancelLedger(c) =>
      Some(DoCancel(CancelCommand(c.start.pid, StepKey(c.start.pid, "cancel-ledger"), c.reservationId)))
    case Compensate(c) =>
      var currency := if c.start.currency == "" then Ok("") else NormalizeCurrency(c.start.currency);
      if currency.Err? then None
      else Some(DoCompensate(CompensateCommand(c.start.pid, c.start.from, c.debitId, c.start.amount,
        currency.value, StepKey(c.start.pid, "compensate-wallet"))))
    case _ => None
  }

  lemma EntryIssuesNothing(w: World, h: Handler)
    requires !h.HasCopy()
    ensures Enter(w, h).0.bank == w.bank && CommandOf(h).None?
  {
  }

  lemma StepIssues(w: World, h: Handler)
    requires h.HasCopy() && h.cur.start.pid in w.sagas
    ensures Continue(w, h).0.bank == if CommandOf(h).Some? then Apply(w.bank, CommandOf(h).value) else w.bank
  {
  }

  /** A step changes the bank by at most one command. */
  lemma BankMoves(s: System, l: Label)
    ensures var b' := Take(s, l).w.bank; b' == s.w.bank || exists c :: b' == Apply(s.w.bank, c)
  {
    if l.Step? && l.id in s.live {
      var h := s.live[l.id];
      if !h.HasCopy() { EntryIssuesNothing(s.w, h); }
      else if h.cur.start.pid in s.w.sagas { StepIssues(s.w, h); }
    }
  }

  lemma TakeKeepsTotal(s: System, l: Label)
    requires BankOk(s.w.bank)
    ensures BankOk(Take(s, l).w.bank) && Total(Take(s, l).w.bank) == Total(s.w.bank)
  {
    hide Take, Apply, Total;
    BankMoves(s, l);
    var b' := Take(s, l).w.bank;
    if b' != s.w.bank {
      var c :| b' == Apply(s.w.bank, c);
      CommandKeeps(s.w.bank, c);
      CommandConserves(s.w.bank, c);
    }
  }

  lemma TakeKeepsAccount(s: System, l: Label, wallet: Id)
    requires BankOk(s.w.bank) && wallet in s.w.bank.wallets
    ensures var b' := Take(s, l).w.bank; wallet in b'.wallets && Account(b', wallet) == Account(s.w.bank, wallet)
  {
    hide Take, Apply, Account;
    BankMoves(s, l);
    var b' := Take(s, l).w.bank;
    if b' != s.w.bank {
      var c :| b' == Apply(s.w.bank, c);
      CommandAccounts(s.w.bank, c, wallet);
    }
  }

  /** Interleaved setting. Whatever runs, the wallets' money plus the debits not refunded is constant. */
  lemma {:induction false} MoneyIsConserved(s: System, ls: seq<Label>)
    requires BankOk(s.w.bank)
    ensures BankOk(TakeAll(s, ls).w.bank) && Total(TakeAll(s, ls).w.bank) == Total(s.w.bank)
    decreases ls
  {
    hide Take, Total, BankOk;
    if ls != [] {
      TakeKeepsTotal(s, ls[0]);
      MoneyIsConserved(Take(s, ls[0]), ls[1..]);
    }
  }

  /** Interleaved setting. Every wallet's balance stays non-negative, and is explained by the rows
      that name it: no debit, refund or transfer moves it twice or is lost. */
  lemma {:induction false} BalancesStayExplained(s: System, ls: seq<Label>, wallet: Id)
    requires BankOk(s.w.bank) && wallet in s.w.bank.wallets
    ensures var b' := TakeAll(s, ls).w.bank;
      wallet in b'.wallets && Account(b', wallet) == Account(s.w.bank, wallet) && b'.wallets[wallet].balance >= 0
    decreases ls
  {
    hide Take, Account;
    if ls != [] {
      TakeKeepsTotal(s, ls[0]);
      TakeKeepsAccount(s, ls[0], wallet);
      BalancesStayExplained(Take(s, ls[0]), ls[1..], wallet);
    }
  }
}
