/** The committed rows of the wallet and ledger tables, and each transaction of the
    repository as one atomic command on them. `RowLocks` shows that the row locks make
    the wallet commands atomic; `Database` is the same commands in statement form. */
module Bank {
  import opened Domain

  datatype Wallet = Wallet(user: string, balance: int64, currency: string)

  // A wallet row's CHECK (balance >= 0) refuses a negative balance.

  /** A row of saga_wallet_operations; `Bank.debits` and `Bank.comps` hold one per payment. */
  datatype WalletOp = WalletOp(
    id: Id, key: string, wallet: Id, amount: int64, currency: string, balanceAfter: int64)

  datatype Status = Reserved | Confirmed | Canceled

  datatype Reservation = Reservation(
    id: Id, key: string, from: Id, to: Id, amount: int64, currency: string,
    status: Status, transfer: Id, walletDebit: Id)

  datatype Transfer = Transfer(from: Id, to: Id, amount: int64, currency: string)

  datatype Side = DebitSide | CreditSide

  datatype Entry = Entry(wallet: Id, amount: int64, balanceAfter: int64)

  datatype Bank = Bank(
    wallets: map<Id, Wallet>,
    debits: map<PaymentId, WalletOp>,
    comps: map<PaymentId, WalletOp>,
    reservations: map<PaymentId, Reservation>,
    transfers: map<Id, Transfer>,
    entries: map<(Id, Side), Entry>,
    initiated: set<Id>, // transfers whose tx.initiated event is in the outbox
    nextId: Id)         // gen_random_uuid(), as a supply of unused identifiers

  datatype DebitCommand = DebitCommand(pid: PaymentId, from: Id, amount: int64, currency: string, key: string)
  datatype CompensateCommand = CompensateCommand(
    pid: PaymentId, from: Id, walletDebit: Id, amount: int64, currency: string, key: string)
  datatype ReserveCommand = ReserveCommand(
    pid: PaymentId, key: string, from: Id, to: Id, amount: int64, currency: string)
  datatype ConfirmCommand = ConfirmCommand(pid: PaymentId, key: string, reservation: Id, walletDebit: Id)
  datatype CancelCommand = CancelCommand(pid: PaymentId, key: string, reservation: Id)

  predicate KeyTaken(ops: map<PaymentId, WalletOp>, key: string) {
    exists p | p in ops :: ops[p].key == key
  }

  function CreateWallet(b: Bank, user: string, currency: string): Bank {
    b.(wallets := b.wallets[b.nextId := Wallet(user, 0, currency)], nextId := b.nextId + 1)
  }

  /** The rows a transfer commits: both balances, the transfer and its tx.initiated event. */
  function PostTransfer(b: Bank, from: Id, to: Id, amount: int64, left: int64, right: int64): Bank
    requires from in b.wallets && to in b.wallets
  {
    b.(wallets := b.wallets[from := b.wallets[from].(balance := left)][to := b.wallets[to].(balance := right)],
       transfers := b.transfers[b.nextId := Transfer(from, to, amount, b.wallets[from].currency)],
       initiated := b.initiated + {b.nextId},
       nextId := b.nextId + 1)
  }

  function CreateTransfer(b: Bank, user: string, from: Id, to: Id, amount: int64): (Bank, Result<Id>) {
    if amount <= 0 then (b, Err(InvalidAmount))
    else if from == to then (b, Err(InvalidTransfer))
    else if from !in b.wallets || b.wallets[from].user != user then (b, Err(NotFound))
    else if to !in b.wallets then (b, Err(NotFound))
    else if b.wallets[from].currency != b.wallets[to].currency then (b, Err(CurrencyMismatch))
    else
      var debited := Debited(b.wallets[from].balance, amount);
      var credited := Credited(b.wallets[to].balance, amount);
      if debited.Err? then (b, Err(debited.error))
      else if credited.Err? then (b, Err(credited.error))
      else if debited.value < 0 || credited.value < 0 then (b, Err(ConstraintViolation))
      else (PostTransfer(b, from, to, amount, debited.value, credited.value), Ok(b.nextId))
  }

  /** The rows a debit commits: the lowered balance and the operation row. */
  function PostDebit(b: Bank, cmd: DebitCommand, balance: int64): (Bank, WalletOp)
    requires cmd.from in b.wallets
  {
    var op := WalletOp(b.nextId, cmd.key, cmd.from, cmd.amount, cmd.currency, balance);
    (b.(wallets := b.wallets[cmd.from := b.wallets[cmd.from].(balance := balance)],
        debits := b.debits[cmd.pid := op],
        nextId := b.nextId + 1),
     op)
  }

  function DebitForSaga(b: Bank, cmd: DebitCommand): (Bank, Result<WalletOp>) {
    if cmd.pid == "" || cmd.from == NIL || cmd.key == "" then (b, Err(InvalidTransfer))
    else if cmd.amount <= 0 then (b, Err(InvalidAmount))
    else if NormalizeCurrency(cmd.currency).Err? then (b, Err(UnsupportedCurrency))
    else if cmd.pid in b.debits then (b, Ok(b.debits[cmd.pid]))
    else if cmd.from !in b.wallets then (b, Err(NotFound))
    else if b.wallets[cmd.from].currency != cmd.currency then (b, Err(CurrencyMismatch))
    else
      var debited := Debited(b.wallets[cmd.from].balance, cmd.amount);
      if debited.Err? then (b, Err(debited.error))
      else
        if debited.value < 0 then (b, Err(ConstraintViolation))
        else if KeyTaken(b.debits, cmd.key) then (b, Err(InvalidTransfer))
        else
          var (b', op) := PostDebit(b, cmd, debited.value);
          (b', Ok(op))
  }

  /** The rows a compensation commits: the raised balance and the operation row. */
  function PostCompensation(b: Bank, cmd: CompensateCommand, debit: WalletOp, balance: int64): (Bank, WalletOp)
    requires debit.wallet in b.wallets
  {
    var op := WalletOp(b.nextId, cmd.key, debit.wallet, debit.amount, debit.currency, balance);
    (b.(wallets := b.wallets[debit.wallet := b.wallets[debit.wallet].(balance := balance)],
        comps := b.comps[cmd.pid := op],
        nextId := b.nextId + 1),
     op)
  }

  function CompensateDebit(b: Bank, cmd: CompensateCommand): (Bank, Result<WalletOp>) {
    if cmd.pid == "" || cmd.from == NIL || cmd.key == "" then (b, Err(InvalidTransfer))
    else if cmd.amount < 0 then (b, Err(InvalidAmount))
    else if cmd.currency != "" && NormalizeCurrency(cmd.currency).Err? then (b, Err(UnsupportedCurrency))
    else if cmd.pid in b.comps then (b, Ok(b.comps[cmd.pid]))
    else if cmd.pid !in b.debits then (b, Err(DebitNotFound))
    else
      var debit := b.debits[cmd.pid];
      if cmd.walletDebit != NIL && cmd.walletDebit != debit.id then (b, Err(DebitNotFound))
      else if debit.wallet != cmd.from then (b, Err(DebitNotFound))
      else if cmd.amount > 0 && cmd.amount != debit.amount then (b, Err(InvalidAmount))
      else if cmd.currency != "" && cmd.currency != debit.currency then (b, Err(CurrencyMismatch))
      else if debit.wallet !in b.wallets then (b, Err(NotFound))
      else
        var credited := Credited(b.wallets[debit.wallet].balance, debit.amount);
        if credited.Err? then (b, Err(credited.error))
        else
          if credited.value < 0 then (b, Err(ConstraintViolation))
          else if KeyTaken(b.comps, cmd.key) then (b, Err(InvalidTransfer))
          else
            var (b', op) := PostCompensation(b, cmd, debit, credited.value);
            (b', Ok(op))
  }

  predicate SamePayload(r: Reservation, cmd: ReserveCommand, currency: string) {
    r.key == cmd.key && r.from == cmd.from && r.to == cmd.to && r.amount == cmd.amount && r.currency == currency
  }

  function ReserveTransfer(b: Bank, cmd: ReserveCommand): (Bank, Result<Reservation>) {
    if cmd.pid == "" || cmd.from == NIL || cmd.to == NIL || cmd.key == "" then (b, Err(InvalidTransfer))
    else if cmd.amount <= 0 then (b, Err(InvalidAmount))
    else if cmd.from == cmd.to then (b, Err(InvalidTransfer))
    else if NormalizeCurrency(cmd.currency).Err? then (b, Err(UnsupportedCurrency))
    else
      var currency := NormalizeCurrency(cmd.currency).value;
      if cmd.pid in b.reservations then
        if SamePayload(b.reservations[cmd.pid], cmd, currency) then (b, Ok(b.reservations[cmd.pid]))
        else (b, Err(AlreadyExists))
      else if cmd.from !in b.wallets || cmd.to !in b.wallets then (b, Err(NotFound))
      else if b.wallets[cmd.from].currency != b.wallets[cmd.to].currency || b.wallets[cmd.from].currency != currency then
        (b, Err(CurrencyMismatch))
      else
        var r := Reservation(b.nextId, cmd.key, cmd.from, cmd.to, cmd.amount, currency, Reserved, NIL, NIL);
        (b.(reservations := b.reservations[cmd.pid := r], nextId := b.nextId + 1), Ok(r))
  }

  function ConfirmTransfer(b: Bank, cmd: ConfirmCommand): (Bank, Result<Id>) {
    if cmd.pid == "" || cmd.reservation == NIL || cmd.walletDebit == NIL || cmd.key == "" then (b, Err(InvalidTransfer))
    else if cmd.pid !in b.reservations then (b, Err(NotFound))
    else
      var r := b.reservations[cmd.pid];
      if r.id != cmd.reservation then (b, Err(FailedPrecondition))
      else match r.status
        case Confirmed => (b, Ok(r.transfer))
        case Canceled => (b, Err(FailedPrecondition))
        case Reserved =>
          if r.from !in b.wallets || r.to !in b.wallets then (b, Err(NotFound))
          else if b.wallets[r.from].currency != b.wallets[r.to].currency || b.wallets[r.from].currency != r.currency then
            (b, Err(CurrencyMismatch))
          else
            var id := b.nextId;
            (b.(transfers := b.transfers[id := Transfer(r.from, r.to, r.amount, r.currency)],
                entries := b.entries[(id, DebitSide) := Entry(r.from, r.amount, b.wallets[r.from].balance)]
                                    [(id, CreditSide) := Entry(r.to, r.amount, b.wallets[r.to].balance)],
                reservations := b.reservations[cmd.pid :=
                  r.(status := Confirmed, transfer := id, walletDebit := cmd.walletDebit)],
                nextId := id + 1),
             Ok(id))
  }

  function CancelReservation(b: Bank, cmd: CancelCommand): (Bank, Result<Reservation>) {
    if cmd.pid == "" || cmd.reservation == NIL || cmd.key == "" then (b, Err(InvalidTransfer))
    else if cmd.pid !in b.reservations then (b, Err(NotFound))
    else
      var r := b.reservations[cmd.pid];
      if r.id != cmd.reservation then (b, Err(FailedPrecondition))
      else match r.status
        case Canceled => (b, Ok(r))
        case Confirmed => (b, Err(FailedPrecondition))
        case Reserved =>
          var canceled := r.(status := Canceled);
          (b.(reservations := b.reservations[cmd.pid := canceled]), Ok(canceled))
  }

  /** The ledger consumer's handling of the tx.initiated event of transfer `id`, whose
      payload is the transfer row. */
  function AppendTransferEntries(b: Bank, id: Id): (Bank, Result<()>)
    requires id in b.transfers
  {
    var t := b.transfers[id];
    if t.amount <= 0 then (b, Err(InvalidAmount))
    else if t.from == t.to then (b, Err(InvalidTransfer))
    else if NormalizeCurrency(t.currency).Err? then (b, Err(UnsupportedCurrency))
    else if (id, DebitSide) in b.entries || (id, CreditSide) in b.entries then (b, Ok(()))
    else if t.from !in b.wallets || t.to !in b.wallets then (b, Err(NotFound))
    else if b.wallets[t.from].currency != b.wallets[t.to].currency || b.wallets[t.from].currency != t.currency then
      (b, Err(CurrencyMismatch))
    else
      (b.(entries := b.entries[(id, DebitSide) := Entry(t.from, t.amount, b.wallets[t.from].balance)]
                              [(id, CreditSide) := Entry(t.to, t.amount, b.wallets[t.to].balance)]),
       Ok(()))
  }

  datatype Command =
    | DoCreateWallet(user: string, currency: string)
    | DoCreateTransfer(user: string, from: Id, to: Id, amount: int64)
    | DoDebit(debit: DebitCommand)
    | DoCompensate(comp: CompensateCommand)
    | DoReserve(reserve: ReserveCommand)
    | DoConfirm(confirm: ConfirmCommand)
    | DoCancel(cancel: CancelCommand)
    | DoAppend(transfer: Id) // delivery, or redelivery, of a tx.initiated event

  function Apply(b: Bank, c: Command): Bank {
    match c
    case DoCreateWallet(user, currency) => CreateWallet(b, user, currency)
    case DoCreateTransfer(user, from, to, amount) => CreateTransfer(b, user, from, to, amount).0
    case DoDebit(cmd) => DebitForSaga(b, cmd).0
    case DoCompensate(cmd) => CompensateDebit(b, cmd).0
    case DoReserve(cmd) => ReserveTransfer(b, cmd).0
    case DoConfirm(cmd) => ConfirmTransfer(b, cmd).0
    case DoCancel(cmd) => CancelReservation(b, cmd).0
    case DoAppend(id) => if id in b.initiated && id in b.transfers then AppendTransferEntries(b, id).0 else b
  }

  function Run(b: Bank, cs: seq<Command>): Bank
    decreases cs
  {
    if cs == [] then b else Run(Apply(b, cs[0]), cs[1..])
  }
}
