/** When each wallet and ledger command is accepted, and what it then writes, in terms of the
    tables; a command that is refused writes nothing. */
module Acceptance {
  import opened Domain
  import opened Bank
  import opened BankLaws

  /** A new wallet is empty and its creator's; no other wallet changes. */
  lemma CreateWalletWrites(b: Bank, user: string, currency: string)
    requires MoneyOk(b)
    ensures var b' := CreateWallet(b, user, currency);
      && b.nextId !in b.wallets && b'.wallets.Keys == b.wallets.Keys + {b.nextId} && b'.wallets[b.nextId] == Wallet(user, 0, currency)
      && (forall w | w in b.wallets :: b'.wallets[w] == b.wallets[w])
      && b' == b.(wallets := b'.wallets, nextId := b'.nextId)
  {
  }

  // ----- Direct transfers -----

  /** A transfer is accepted exactly when the sender owns the source wallet, both wallets exist and
      agree in currency, the balance covers the amount and the credit fits. */
  lemma TransferAcceptedIff(b: Bank, user: string, from: Id, to: Id, amount: int64)
    requires MoneyOk(b)
    ensures var (b', r) := CreateTransfer(b, user, from, to, amount);
      && (r.Ok? <==>
            && amount > 0 && from != to && from in b.wallets && to in b.wallets
            && b.wallets[from].user == user && b.wallets[from].currency == b.wallets[to].currency
            && amount <= b.wallets[from].balance && b.wallets[to].balance + amount <= MAX_INT64)
      && (r.Err? ==> b' == b)
  {
  }

  /** An accepted transfer moves the amount, records it once, and announces it. */
  lemma TransferWrites(b: Bank, user: string, from: Id, to: Id, amount: int64)
    requires MoneyOk(b) && CreateTransfer(b, user, from, to, amount).1.Ok?
    ensures var (b', r) := CreateTransfer(b, user, from, to, amount);
      && from in b.wallets && to in b.wallets && r.value == b.nextId
      && b'.wallets.Keys == b.wallets.Keys && (forall w | w in b.wallets && w != from && w != to :: b'.wallets[w] == b.wallets[w])
      && b'.wallets[from] == Wallet(b.wallets[from].user, b.wallets[from].balance - amount, b.wallets[from].currency)
      && b'.wallets[to] == Wallet(b.wallets[to].user, b.wallets[to].balance + amount, b.wallets[to].currency)
      && b'.transfers == b.transfers[r.value := Transfer(from, to, amount, b.wallets[from].currency)]
      && b'.initiated == b.initiated + {r.value} && b'.entries == b.entries
      && b'.debits == b.debits && b'.comps == b.comps && b'.reservations == b.reservations
  {
    TransferAcceptedIff(b, user, from, to, amount);
  }

  // ----- Saga debits and their compensation -----

  ghost predicate DebitCommandOk(cmd: DebitCommand) {
    cmd.pid != "" && cmd.from != NIL && cmd.key != "" && cmd.amount > 0 && NormalizeCurrency(cmd.currency).Ok?
  }

  /** A debit is accepted exactly when it was made before, or the wallet exists in its currency with
      that much money and the key is free. */
  lemma DebitAcceptedIff(b: Bank, cmd: DebitCommand)
    ensures var (b', r) := DebitForSaga(b, cmd);
      && (r.Ok? <==>
            && DebitCommandOk(cmd)
            && (cmd.pid in b.debits ||
                (&& cmd.from in b.wallets && b.wallets[cmd.from].currency == cmd.currency
                 && cmd.amount <= b.wallets[cmd.from].balance && !KeyTaken(b.debits, cmd.key))))
      && (r.Err? || cmd.pid in b.debits ==> b' == b)
  {
    hide NormalizeCurrency, KeyTaken;
  }

  lemma DebitWrites(b: Bank, cmd: DebitCommand)
    requires DebitForSaga(b, cmd).1.Ok? && cmd.pid !in b.debits
    ensures var (b', r) := DebitForSaga(b, cmd);
      && cmd.from in b.wallets && var left := b.wallets[cmd.from].balance - cmd.amount;
      && r.value.id == b.nextId && b'.wallets == b.wallets[cmd.from := Wallet(b.wallets[cmd.from].user, left, b.wallets[cmd.from].currency)]
      && b'.debits == b.debits[cmd.pid := WalletOp(b.nextId, cmd.key, cmd.from, cmd.amount, cmd.currency, left)]
      && b'.comps == b.comps && b'.reservations == b.reservations && b'.transfers == b.transfers && b'.entries == b.entries
  {
    hide NormalizeCurrency, KeyTaken;
  }

  ghost predicate CompensateCommandOk(cmd: CompensateCommand) {
    && cmd.pid != "" && cmd.from != NIL && cmd.key != "" && cmd.amount >= 0
    && (cmd.currency == "" || NormalizeCurrency(cmd.currency).Ok?)
  }

  /** What the command says of the debit; a field left out says nothing. */
  ghost predicate DescribesDebit(cmd: CompensateCommand, debit: WalletOp) {
    && cmd.from == debit.wallet && (cmd.walletDebit == NIL || cmd.walletDebit == debit.id)
    && (cmd.amount == 0 || cmd.amount == debit.amount) && (cmd.currency == "" || cmd.currency == debit.currency)
  }

  /** A refund is accepted exactly when it was made before, or the payment was debited as the
      command says, the credit fits and the key is free. */
  lemma CompensationAcceptedIff(b: Bank, cmd: CompensateCommand)
    requires MoneyOk(b)
    ensures var (b', r) := CompensateDebit(b, cmd);
      && (r.Ok? <==>
            && CompensateCommandOk(cmd)
            && (cmd.pid in b.comps ||
                (&& cmd.pid in b.debits && DescribesDebit(cmd, b.debits[cmd.pid])
                 && b.wallets[b.debits[cmd.pid].wallet].balance + b.debits[cmd.pid].amount <= MAX_INT64
                 && !KeyTaken(b.comps, cmd.key))))
      && (r.Err? || cmd.pid in b.comps ==> b' == b)
  {
    hide NormalizeCurrency, KeyTaken;
  }

  lemma CompensationWrites(b: Bank, cmd: CompensateCommand)
    requires MoneyOk(b) && CompensateDebit(b, cmd).1.Ok? && cmd.pid !in b.comps
    ensures var (b', r) := CompensateDebit(b, cmd);
      && cmd.pid in b.debits && var d := b.debits[cmd.pid]; var v := b.wallets[d.wallet];
      && b'.wallets == b.wallets[d.wallet := Wallet(v.user, v.balance + d.amount, v.currency)]
      && b'.comps == b.comps[cmd.pid := WalletOp(b.nextId, cmd.key, d.wallet, d.amount, d.currency, v.balance + d.amount)]
      && b'.debits == b.debits && b'.reservations == b.reservations && b'.transfers == b.transfers && b'.entries == b.entries
  {
    CompensationAcceptedIff(b, cmd);
    hide NormalizeCurrency, KeyTaken, MoneyOk;
  }

  // ----- Reservations -----

  ghost predicate ReserveCommandOk(cmd: ReserveCommand) {
    && cmd.pid != "" && cmd.key != "" && cmd.from != NIL && cmd.to != NIL && cmd.from != cmd.to && cmd.amount > 0
    && NormalizeCurrency(cmd.currency).Ok?
  }

  /** A first reservation is accepted exactly when both wallets exist and hold US dollars; a repeated
      one exactly when it says the same. */
  lemma ReserveAcceptedIff(b: Bank, cmd: ReserveCommand)
    ensures var (b', r) := ReserveTransfer(b, cmd);
      && (r.Ok? <==>
            && ReserveCommandOk(cmd)
            && if cmd.pid in b.reservations then
                 var first := b.reservations[cmd.pid];
                 first.key == cmd.key && first.from == cmd.from && first.to == cmd.to && first.amount == cmd.amount && first.currency == "USD"
               else cmd.from in b.wallets && cmd.to in b.wallets && b.wallets[cmd.from].currency == "USD" && b.wallets[cmd.to].currency == "USD")
      && (r.Err? || cmd.pid in b.reservations ==> b' == b)
      && (r.Ok? && cmd.pid !in b.reservations ==>
            && r.value == Reservation(b.nextId, cmd.key, cmd.from, cmd.to, cmd.amount, "USD", Reserved, NIL, NIL)
            && b' == b.(reservations := b.reservations[cmd.pid := r.value], nextId := b.nextId + 1))
  {
    hide NormalizeCurrency;
  }

  /** A confirmation is accepted exactly when it names the reservation of its payment and that is
      not cancelled: nothing else, and no balance, is looked at. */
  lemma ConfirmAcceptedIff(b: Bank, cmd: ConfirmCommand)
    requires BankOk(b)
    ensures ConfirmTransfer(b, cmd).1.Ok? <==>
      && cmd.pid != "" && cmd.key != "" && cmd.walletDebit != NIL && cmd.pid in b.reservations
      && b.reservations[cmd.pid].id == cmd.reservation && !b.reservations[cmd.pid].status.Canceled?
  {
    if cmd.pid in b.reservations { assert ReservationBacked(b, b.reservations[cmd.pid]); }
  }

  /** An accepted confirmation of an open reservation writes its transfer and the two entries; no
      wallet moves. */
  lemma ConfirmWrites(b: Bank, cmd: ConfirmCommand)
    requires BankOk(b) && ConfirmTransfer(b, cmd).1.Ok? && cmd.pid in b.reservations && b.reservations[cmd.pid].status.Reserved?
    ensures var (b', result) := ConfirmTransfer(b, cmd); var r := b.reservations[cmd.pid]; var t := result.value;
      && t == b.nextId && r.from in b.wallets && r.to in b.wallets
      && b'.wallets == b.wallets && b'.debits == b.debits && b'.comps == b.comps && b'.initiated == b.initiated
      && b'.transfers == b.transfers[t := Transfer(r.from, r.to, r.amount, r.currency)]
      && b'.entries == b.entries[(t, DebitSide) := Entry(r.from, r.amount, b.wallets[r.from].balance)]
                                [(t, CreditSide) := Entry(r.to, r.amount, b.wallets[r.to].balance)]
      && b'.reservations == b.reservations[cmd.pid :=
           Reservation(r.id, r.key, r.from, r.to, r.amount, r.currency, Confirmed, t, cmd.walletDebit)]
  {
    hide BankOk;
  }

  lemma CancelAcceptedIff(b: Bank, cmd: CancelCommand)
    ensures var (b', r) := CancelReservation(b, cmd);
      && (r.Ok? <==>
            && cmd.pid != "" && cmd.reservation != NIL && cmd.key != "" && cmd.pid in b.reservations
            && b.reservations[cmd.pid].id == cmd.reservation && !b.reservations[cmd.pid].status.Confirmed?)
      && (r.Ok? ==> b' == b.(reservations := b.reservations[cmd.pid := b.reservations[cmd.pid].(status := Canceled)]))
      && (r.Err? ==> b' == b)
  {
    if cmd.pid in b.reservations && b.reservations[cmd.pid].status.Canceled? {
      assert b.reservations == b.reservations[cmd.pid := b.reservations[cmd.pid].(status := Canceled)];
    }
  }

  /** The entries of a direct transfer are appended exactly when its currency is a supported one:
      nothing else can stand in the way. */
  lemma AppendAcceptedIff(b: Bank, id: Id)
    requires BankOk(b) && id in b.transfers
    ensures var (b', r) := AppendTransferEntries(b, id); var t := b.transfers[id];
      && (r.Ok? <==> NormalizeCurrency(t.currency).Ok?)
      && (r.Ok? && Unposted(b, id) ==>
            && t.from in b.wallets && t.to in b.wallets
            && b' == b.(entries := b.entries[(id, DebitSide) := Entry(t.from, t.amount, b.wallets[t.from].balance)]
                                            [(id, CreditSide) := Entry(t.to, t.amount, b.wallets[t.to].balance)]))
      && (r.Err? || !Unposted(b, id) ==> b' == b)
  {
    hide NormalizeCurrency, MoneyOk, OwnsTransfer;
    assert TransferBacked(b, b.transfers[id]);
  }
}
