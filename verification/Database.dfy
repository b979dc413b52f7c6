/** The wallet and ledger repository in the form of its source: methods that read rows into
    local copies, change the copies, write them back, and leave every table alone when they
    return an error. Each does exactly what its atomic command in `Bank` does. */
module Database {
  import opened Domain
  import opened Bank
  import Atomic = Bank

  /** A wallet row read into memory; `Debit` and `Credit` change its balance in place. */
  class WalletRecord {
    const id: Id
    const user: string
    const currency: string
    var balance: int64

    constructor (id: Id, row: Wallet)
      ensures this.id == id && user == row.user && currency == row.currency && balance == row.balance
    {
      this.id, user, currency, balance := id, row.user, row.currency, row.balance;
    }

    method Debit(amount: int64) returns (error: Option<Error>)
      modifies this
      ensures error == None <==> 0 < amount <= old(balance)
      ensures error == None ==> balance == old(balance) - amount
      ensures error != None ==> balance == old(balance) && Debited(old(balance), amount) == Err(error.value)
    {
      if amount <= 0 { return Some(InvalidAmount); }
      if balance < amount { return Some(InsufficientFunds); }
      balance := Wrap64(balance - amount);
      return None;
    }

    /** The addition is not checked: past the largest 64-bit balance it wraps around. */
    method Credit(amount: int64) returns (error: Option<Error>)
      modifies this
      ensures error == None <==> 0 < amount
      ensures error == None ==> Credited(old(balance), amount) == Ok(balance)
      ensures error == None && old(balance) + amount <= MAX_INT64 ==> balance == old(balance) + amount
      ensures error != None ==> balance == old(balance) && error == Some(InvalidAmount)
    {
      if amount <= 0 { return Some(InvalidAmount); }
      balance := Wrap64(balance + amount);
      return None;
    }
  }

  class Database {
    var wallets: map<Id, Wallet>
    var debits: map<PaymentId, WalletOp>
    var comps: map<PaymentId, WalletOp>
    var reservations: map<PaymentId, Reservation>
    var transfers: map<Id, Transfer>
    var entries: map<(Id, Side), Entry>
    var initiated: set<Id>
    var nextId: Id

    constructor (b: Bank)
      ensures View() == b
    {
      wallets, debits, comps, reservations := b.wallets, b.debits, b.comps, b.reservations;
      transfers, entries, initiated, nextId := b.transfers, b.entries, b.initiated, b.nextId;
    }

    function View(): Bank
      reads this
    {
      Bank(wallets, debits, comps, reservations, transfers, entries, initiated, nextId)
    }

    /** A row read under its lock. */
    method LockWallet(id: Id) returns (wallet: WalletRecord?)
      ensures wallet == null <==> id !in wallets
      ensures wallet != null ==> fresh(wallet) && wallet.id == id
      ensures wallet != null ==> wallets[id] == Wallet(wallet.user, wallet.balance, wallet.currency)
    {
      if id in wallets { wallet := new WalletRecord(id, wallets[id]); } else { wallet := null; }
    }

    /** UPDATE of a balance, under the CHECK that it is not negative. */
    method UpdateWalletBalance(id: Id, balance: int64) returns (ok: bool)
      requires id in wallets
      modifies `wallets
      ensures ok <==> balance >= 0
      ensures View() == if ok then old(View()).(wallets := old(wallets)[id := old(wallets)[id].(balance := balance)]) else old(View())
    {
      if balance < 0 { return false; }
      wallets := wallets[id := wallets[id].(balance := balance)];
      return true;
    }

    /** What a transaction that returns an error leaves behind. */
    method Rollback(before: Bank)
      modifies this
      ensures View() == before
    {
      wallets, debits, comps, reservations := before.wallets, before.debits, before.comps, before.reservations;
      transfers, entries, initiated, nextId := before.transfers, before.entries, before.initiated, before.nextId;
    }

    method NewId() returns (id: Id)
      modifies `nextId
      ensures id == old(nextId) && nextId == id + 1
    {
      id := nextId;
      nextId := nextId + 1;
    }

    method CreateTransfer(user: string, from: Id, to: Id, amount: int64) returns (r: Result<Id>)
      modifies this
      ensures (View(), r) == Atomic.CreateTransfer(old(View()), user, from, to, amount)
    {
      if amount <= 0 { return Err(InvalidAmount); }
      if from == to { return Err(InvalidTransfer); }
      var source := LockWallet(from);
      var target := LockWallet(to);
      if source == null || source.user != user { return Err(NotFound); }
      if target == null { return Err(NotFound); }
      if source.currency != target.currency { return Err(CurrencyMismatch); }
      var error := source.Debit(amount);
      if error.Some? { return Err(error.value); }
      error := target.Credit(amount);
      if error.Some? { return Err(InvalidAmount); }
      var before := View();
      var ok := UpdateWalletBalance(from, source.balance);
      if ok { ok := UpdateWalletBalance(to, target.balance); }
      if !ok {
        Rollback(before);
        return Err(ConstraintViolation);
      }
      var id := NewId();
      transfers := transfers[id := Transfer(from, to, amount, source.currency)];
      initiated := initiated + {id};
      return Ok(id);
    }

    method DebitForSaga(cmd: DebitCommand) returns (r: Result<WalletOp>)
      modifies this
      ensures (View(), r) == Atomic.DebitForSaga(old(View()), cmd)
    {
      if cmd.pid == "" || cmd.from == NIL || cmd.key == "" { return Err(InvalidTransfer); }
      if cmd.amount <= 0 { return Err(InvalidAmount); }
      if NormalizeCurrency(cmd.currency).Err? { return Err(UnsupportedCurrency); }
      if cmd.pid in debits { return Ok(debits[cmd.pid]); }
      var wallet := LockWallet(cmd.from);
      if wallet == null { return Err(NotFound); }
      if wallet.currency != cmd.currency { return Err(CurrencyMismatch); }
      var error := wallet.Debit(cmd.amount);
      if error.Some? { return Err(error.value); }
      var before := View();
      var ok := UpdateWalletBalance(cmd.from, wallet.balance);
      if !ok { return Err(ConstraintViolation); }
      if KeyTaken(debits, cmd.key) {
        Rollback(before);
        return Err(InvalidTransfer);
      }
      var id := NewId();
      var op := WalletOp(id, cmd.key, cmd.from, cmd.amount, cmd.currency, wallet.balance);
      debits := debits[cmd.pid := op];
      return Ok(op);
    }

    method CompensateDebit(cmd: CompensateCommand) returns (r: Result<WalletOp>)
      modifies this
      ensures (View(), r) == Atomic.CompensateDebit(old(View()), cmd)
    {
      if cmd.pid == "" || cmd.from == NIL || cmd.key == "" { return Err(InvalidTransfer); }
      if cmd.amount < 0 { return Err(InvalidAmount); }
      if cmd.currency != "" && NormalizeCurrency(cmd.currency).Err? { return Err(UnsupportedCurrency); }
      if cmd.pid in comps { return Ok(comps[cmd.pid]); }
      if cmd.pid !in debits { return Err(DebitNotFound); }
      var debit := debits[cmd.pid];
      if cmd.walletDebit != NIL && cmd.walletDebit != debit.id { return Err(DebitNotFound); }
      if debit.wallet != cmd.from { return Err(DebitNotFound); }
      if cmd.amount > 0 && cmd.amount != debit.amount { return Err(InvalidAmount); }
      if cmd.currency != "" && cmd.currency != debit.currency { return Err(CurrencyMismatch); }
      var wallet := LockWallet(debit.wallet);
      if wallet == null { return Err(NotFound); }
      var error := wallet.Credit(debit.amount);
      if error.Some? { return Err(error.value); }
      var before := View();
      var ok := UpdateWalletBalance(debit.wallet, wallet.balance);
      if !ok { return Err(ConstraintViolation); }
      if KeyTaken(comps, cmd.key) {
        Rollback(before);
        return Err(InvalidTransfer);
      }
      var id := NewId();
      var op := WalletOp(id, cmd.key, debit.wallet, debit.amount, debit.currency, wallet.balance);
      comps := comps[cmd.pid := op];
      return Ok(op);
    }

    method ReserveTransfer(cmd: ReserveCommand) returns (r: Result<Reservation>)
      modifies this
      ensures (View(), r) == Atomic.ReserveTransfer(old(View()), cmd)
    {
      if cmd.pid == "" || cmd.from == NIL || cmd.to == NIL || cmd.key == "" { return Err(InvalidTransfer); }
      if cmd.amount <= 0 { return Err(InvalidAmount); }
      if cmd.from == cmd.to { return Err(InvalidTransfer); }
      var currency := NormalizeCurrency(cmd.currency);
      if currency.Err? { return Err(UnsupportedCurrency); }
      if cmd.pid in reservations {
        return if SamePayload(reservations[cmd.pid], cmd, currency.value) then Ok(reservations[cmd.pid]) else Err(AlreadyExists);
      }
      var from := LockWallet(cmd.from);
      var to := LockWallet(cmd.to);
      if from == null || to == null { return Err(NotFound); }
      if from.currency != to.currency || from.currency != currency.value { return Err(CurrencyMismatch); }
      var id := NewId();
      var reservation := Reservation(id, cmd.key, cmd.from, cmd.to, cmd.amount, currency.value, Reserved, NIL, NIL);
      reservations := reservations[cmd.pid := reservation];
      return Ok(reservation);
    }

    method CreateLedgerEntries(id: Id, from: WalletRecord, to: WalletRecord, amount: int64)
      modifies `entries
      ensures entries == old(entries)[(id, DebitSide) := Entry(from.id, amount, from.balance)][(id, CreditSide) := Entry(to.id, amount, to.balance)]
    {
      entries := entries[(id, DebitSide) := Entry(from.id, amount, from.balance)];
      entries := entries[(id, CreditSide) := Entry(to.id, amount, to.balance)];
    }

    method ConfirmTransfer(cmd: ConfirmCommand) returns (r: Result<Id>)
      modifies this
      ensures (View(), r) == Atomic.ConfirmTransfer(old(View()), cmd)
    {
      if cmd.pid == "" || cmd.reservation == NIL || cmd.walletDebit == NIL || cmd.key == "" { return Err(InvalidTransfer); }
      if cmd.pid !in reservations { return Err(NotFound); }
      var reservation := reservations[cmd.pid];
      if reservation.id != cmd.reservation { return Err(FailedPrecondition); }
      if reservation.status.Confirmed? { return Ok(reservation.transfer); }
      if reservation.status.Canceled? { return Err(FailedPrecondition); }
      var from := LockWallet(reservation.from);
      var to := LockWallet(reservation.to);
      if from == null || to == null { return Err(NotFound); }
      if from.currency != to.currency || from.currency != reservation.currency { return Err(CurrencyMismatch); }
      var id := NewId();
      transfers := transfers[id := Transfer(reservation.from, reservation.to, reservation.amount, reservation.currency)];
      CreateLedgerEntries(id, from, to, reservation.amount);
      reservations := reservations[cmd.pid := reservation.(status := Confirmed, transfer := id, walletDebit := cmd.walletDebit)];
      return Ok(id);
    }

    method CancelReservation(cmd: CancelCommand) returns (r: Result<Reservation>)
      modifies this
      ensures (View(), r) == Atomic.CancelReservation(old(View()), cmd)
    {
      if cmd.pid == "" || cmd.reservation == NIL || cmd.key == "" { return Err(InvalidTransfer); }
      if cmd.pid !in reservations { return Err(NotFound); }
      var reservation := reservations[cmd.pid];
      if reservation.id != cmd.reservation { return Err(FailedPrecondition); }
      if reservation.status.Canceled? { return Ok(reservation); }
      if reservation.status.Confirmed? { return Err(FailedPrecondition); }
      reservation := reservation.(status := Canceled);
      reservations := reservations[cmd.pid := reservation];
      return Ok(reservation);
    }

    method AppendTransferEntries(id: Id) returns (r: Result<()>)
      requires id in transfers
      modifies this
      ensures (View(), r) == Atomic.AppendTransferEntries(old(View()), id)
    {
      var transfer := transfers[id];
      if transfer.amount <= 0 { return Err(InvalidAmount); }
      if transfer.from == transfer.to { return Err(InvalidTransfer); }
      if NormalizeCurrency(transfer.currency).Err? { return Err(UnsupportedCurrency); }
      if (id, DebitSide) in entries || (id, CreditSide) in entries { return Ok(()); }
      var from := LockWallet(transfer.from);
      var to := LockWallet(transfer.to);
      if from == null || to == null { return Err(NotFound); }
      if from.currency != to.currency || from.currency != transfer.currency { return Err(CurrencyMismatch); }
      CreateLedgerEntries(id, from, to, transfer.amount);
      return Ok(());
    }
  }
}
