/** What each saga command changes: rows of its own payment only, and which ones. */
module BankFrames {
  import opened Domain
  import opened Bank

  /** The rows of every payment but `p` are the old ones. */
  ghost predicate OnlyTouches(b: Bank, b': Bank, p: PaymentId) {
    && b'.debits - {p} == b.debits - {p} && b'.comps - {p} == b.comps - {p}
    && b'.reservations - {p} == b.reservations - {p}
  }

  lemma DebitShape(b: Bank, cmd: DebitCommand)
    ensures var (b', r) := DebitForSaga(b, cmd);
      && OnlyTouches(b, b', cmd.pid) && b'.comps == b.comps && b'.reservations == b.reservations
      && (r.Ok? ==> cmd.pid in b'.debits && b'.debits[cmd.pid] == r.value)
      && (r.Ok? && cmd.pid !in b.debits ==>
            && r.value == WalletOp(b.nextId, cmd.key, cmd.from, cmd.amount, cmd.currency, r.value.balanceAfter)
            && cmd.from in b.wallets && cmd.from in b'.wallets
            && b'.wallets[cmd.from].balance == r.value.balanceAfter == b.wallets[cmd.from].balance - cmd.amount)
      && (r.Ok? ==> cmd.pid != "" && cmd.from != NIL)
      && (r.Err? ==> b' == b)
  {
    var (b', r) := DebitForSaga(b, cmd);
    if r.Ok? && cmd.pid !in b.debits {
      assert b' == PostDebit(b, cmd, r.value.balanceAfter).0;
    }
  }

  lemma CompensationShape(b: Bank, cmd: CompensateCommand)
    ensures var (b', r) := CompensateDebit(b, cmd);
      && OnlyTouches(b, b', cmd.pid) && b'.debits == b.debits && b'.reservations == b.reservations
      && (r.Ok? ==> cmd.pid in b'.comps && b'.comps[cmd.pid] == r.value)
      && (r.Ok? && cmd.pid !in b.comps ==> cmd.pid in b.debits && r.value.key == cmd.key && r.value.wallet == b.debits[cmd.pid].wallet)
      && (r.Err? ==> b' == b)
  {
    var (b', r) := CompensateDebit(b, cmd);
    if r.Ok? && cmd.pid !in b.comps {
      assert b' == PostCompensation(b, cmd, b.debits[cmd.pid], r.value.balanceAfter).0;
    }
  }

  lemma ReserveShape(b: Bank, cmd: ReserveCommand)
    ensures var (b', r) := ReserveTransfer(b, cmd);
      && OnlyTouches(b, b', cmd.pid) && b'.debits == b.debits && b'.comps == b.comps
      && (r.Ok? ==> cmd.pid in b'.reservations && b'.reservations[cmd.pid] == r.value)
      && (r.Ok? ==> r.value.from == cmd.from && r.value.to == cmd.to && r.value.amount == cmd.amount && r.value.key == cmd.key)
      && (r.Ok? ==> r.value.currency == DEFAULT_CURRENCY)
      && (r.Ok? && cmd.pid !in b.reservations ==> r.value.id == b.nextId && r.value.status.Reserved?)
      && (cmd.pid in b.reservations ==> b' == b)
      && (r.Err? ==> b' == b)
  {
  }

  lemma ConfirmShape(b: Bank, cmd: ConfirmCommand)
    ensures var (b', r) := ConfirmTransfer(b, cmd);
      && OnlyTouches(b, b', cmd.pid) && b'.debits == b.debits && b'.comps == b.comps
      && (cmd.pid in b'.reservations <==> cmd.pid in b.reservations)
      && (r.Ok? ==> cmd.pid in b.reservations && !b.reservations[cmd.pid].status.Canceled?)
      && (r.Ok? ==> b'.reservations[cmd.pid] == b.reservations[cmd.pid].(
            status := Confirmed, transfer := r.value, walletDebit := b'.reservations[cmd.pid].walletDebit))
      && (r.Err? ==> b' == b)
  {
  }

  lemma CancelShape(b: Bank, cmd: CancelCommand)
    ensures var (b', r) := CancelReservation(b, cmd);
      && OnlyTouches(b, b', cmd.pid) && b'.debits == b.debits && b'.comps == b.comps
      && (cmd.pid in b'.reservations <==> cmd.pid in b.reservations)
      && (r.Ok? ==> cmd.pid in b.reservations && !b.reservations[cmd.pid].status.Confirmed?)
      && (r.Ok? ==> b'.reservations[cmd.pid] == b.reservations[cmd.pid].(status := Canceled))
      && (r.Err? ==> b' == b)
  {
  }
}
