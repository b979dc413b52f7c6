/** The transactions of the wallet and ledger repository at the level of their statements:
    FOR UPDATE row locks that block, reads that go stale when nothing is locked, inserts that
    wait for a pending insert of the same key, commits that make everything visible at once.
    A transaction's locks and pending keys follow from where it is, and it holds them until it
    commits or rolls back. A balance UPDATE on a locked row is visible to nobody before the
    commit, so it is part of the commit step. */
module RowLocks {
  import opened Domain
  import opened Bank
  import opened BankLaws
  import opened WalletAccounts

  datatype Reply =
    | OpReply(op: Result<WalletOp>)
    | TransferReply(transfer: Result<Id>)
    | ReservationReply(reservation: Result<Reservation>)
  {
    predicate Success() {
      match this
      case OpReply(op) => op.Ok?
      case TransferReply(transfer) => transfer.Ok?
      case ReservationReply(reservation) => reservation.Ok?
    }
  }

  datatype TransferCommand = TransferCommand(user: string, from: Id, to: Id, amount: int64)

  /** A running transaction: the constructor names its next statement, the other fields what
      it has read. */
  datatype Txn =
    | DebitFind(debit: DebitCommand)
    | DebitLock(debit: DebitCommand)
    | DebitRecheck(debit: DebitCommand, wallet: Option<Wallet>)
    | DebitInsert(debit: DebitCommand, from: Wallet)
    | DebitCommit(debit: DebitCommand, from: Wallet)
    | DebitLookup(debit: DebitCommand) // after the rollback that a unique violation causes
    | CompFind(comp: CompensateCommand)
    | CompLockDebit(comp: CompensateCommand)
    | CompRecheck(comp: CompensateCommand, row: WalletOp)
    | CompLockWallet(comp: CompensateCommand, row: WalletOp)
    | CompInsert(comp: CompensateCommand, row: WalletOp, from: Wallet)
    | CompCommit(comp: CompensateCommand, row: WalletOp, from: Wallet)
    | CompLookup(comp: CompensateCommand)
    | TransferLockFirst(move: TransferCommand)
    | TransferLockSecond(move: TransferCommand, first: Wallet)
    | TransferCommit(move: TransferCommand, first: Wallet, second: Wallet)
    | ConfirmLock(confirm: ConfirmCommand)
    | ConfirmLockFirst(confirm: ConfirmCommand, held: Reservation)
    | ConfirmLockSecond(confirm: ConfirmCommand, held: Reservation, first: Wallet)
    | ConfirmCommit(confirm: ConfirmCommand, held: Reservation, first: Wallet, second: Wallet)
    | CancelLock(cancel: CancelCommand)
    | CancelCommit(cancel: CancelCommand, held: Reservation)
    | Ended(reply: Reply)

  function Lower(a: Id, b: Id): Id { if a < b then a else b }
  function Upper(a: Id, b: Id): Id { if a < b then b else a }

  /** What a transaction can wait for: a locked row, or a key somebody is inserting. */
  datatype Resource =
    | WalletRow(wallet: Id)
    | DebitRow(pid: PaymentId)
    | ReservationRow(pid: PaymentId)
    | NewDebit(pid: PaymentId)
    | NewDebitKey(key: string)
    | NewCompKey(key: string)

  function Holds(t: Txn): set<Resource> {
    match t
    case DebitRecheck(d, wallet) => if wallet.Some? then {WalletRow(d.from)} else {}
    case DebitInsert(d, _) => {WalletRow(d.from)}
    case DebitCommit(d, _) => {WalletRow(d.from), NewDebit(d.pid), NewDebitKey(d.key)}
    case CompRecheck(c, _) => {DebitRow(c.pid)}
    case CompLockWallet(c, _) => {DebitRow(c.pid)}
    case CompInsert(c, row, _) => {DebitRow(c.pid), WalletRow(row.wallet)}
    case CompCommit(c, row, _) => {DebitRow(c.pid), WalletRow(row.wallet), NewCompKey(c.key)}
    case TransferLockSecond(m, _) => {WalletRow(Lower(m.from, m.to))}
    case TransferCommit(m, _, _) => {WalletRow(m.from), WalletRow(m.to)}
    case ConfirmLockFirst(c, _) => {ReservationRow(c.pid)}
    case ConfirmLockSecond(c, r, _) => {ReservationRow(c.pid), WalletRow(Lower(r.from, r.to))}
    case ConfirmCommit(c, r, _, _) => {ReservationRow(c.pid), WalletRow(r.from), WalletRow(r.to)}
    case CancelCommit(c, _) => {ReservationRow(c.pid)}
    case _ => {}
  }

  /** What the next statement must get hold of, or wait for. */
  function Wants(t: Txn): set<Resource> {
    match t
    case DebitFind(d) => {DebitRow(d.pid)}
    case DebitLock(d) => {WalletRow(d.from)}
    case DebitRecheck(d, _) => {DebitRow(d.pid)}
    case DebitInsert(d, _) => {NewDebit(d.pid), NewDebitKey(d.key)}
    case CompLockDebit(c) => {DebitRow(c.pid)}
    case CompLockWallet(c, row) => {WalletRow(row.wallet)}
    case CompInsert(c, _, _) => {NewCompKey(c.key)}
    case TransferLockFirst(m) => {WalletRow(Lower(m.from, m.to))}
    case TransferLockSecond(m, _) => {WalletRow(Upper(m.from, m.to))}
    case ConfirmLock(c) => {ReservationRow(c.pid)}
    case ConfirmLockFirst(_, r) => {WalletRow(Lower(r.from, r.to))}
    case ConfirmLockSecond(_, r, _) => {WalletRow(Upper(r.from, r.to))}
    case CancelLock(c) => {ReservationRow(c.pid)}
    case _ => {}
  }

  function Found(b: Bank, id: Id): Option<Wallet> {
    if id in b.wallets then Some(b.wallets[id]) else None
  }

  /** The command a transaction carries out. */
  function CommandOf(t: Txn): Command
    requires !t.Ended?
  {
    if t.DebitFind? || t.DebitLock? || t.DebitRecheck? || t.DebitInsert? || t.DebitCommit? || t.DebitLookup? then DoDebit(t.debit)
    else if t.CompFind? || t.CompLockDebit? || t.CompRecheck? || t.CompLockWallet? || t.CompInsert? || t.CompCommit? || t.CompLookup? then DoCompensate(t.comp)
    else if t.TransferLockFirst? || t.TransferLockSecond? || t.TransferCommit? then DoCreateTransfer(t.move.user, t.move.from, t.move.to, t.move.amount)
    else if t.ConfirmLock? || t.ConfirmLockFirst? || t.ConfirmLockSecond? || t.ConfirmCommit? then DoConfirm(t.confirm)
    else DoCancel(t.cancel)
  }

  // ----- Statements -----

  function RefuseOp(e: Error): Txn { Ended(OpReply(Err(e))) }

  /** The checks a debit makes on the wallet it locked. */
  function DebitChecks(d: DebitCommand, wallet: Option<Wallet>): Txn {
    if wallet.None? then RefuseOp(NotFound)
    else if wallet.value.currency != d.currency then RefuseOp(CurrencyMismatch)
    else
      var debited := Debited(wallet.value.balance, d.amount);
      if debited.Err? then RefuseOp(debited.error)
      else if debited.value < 0 then RefuseOp(ConstraintViolation)
      else DebitInsert(d, wallet.value)
  }

  /** The checks a compensation makes on the debit it locked. */
  function CompChecks(c: CompensateCommand, row: WalletOp): Txn {
    if c.walletDebit != NIL && c.walletDebit != row.id then RefuseOp(DebitNotFound)
    else if row.wallet != c.from then RefuseOp(DebitNotFound)
    else if c.amount > 0 && c.amount != row.amount then RefuseOp(InvalidAmount)
    else if c.currency != "" && c.currency != row.currency then RefuseOp(CurrencyMismatch)
    else CompLockWallet(c, row)
  }

  function CompCredit(c: CompensateCommand, row: WalletOp, wallet: Option<Wallet>): Txn {
    if wallet.None? then RefuseOp(NotFound)
    else
      var credited := Credited(wallet.value.balance, row.amount);
      if credited.Err? then RefuseOp(credited.error)
      else if credited.value < 0 then RefuseOp(ConstraintViolation)
      else CompInsert(c, row, wallet.value)
  }

  function TransferChecks(m: TransferCommand, first: Wallet, second: Wallet): Txn {
    var from := if m.from < m.to then first else second;
    var to := if m.from < m.to then second else first;
    if from.user != m.user then Ended(TransferReply(Err(NotFound)))
    else if from.currency != to.currency then Ended(TransferReply(Err(CurrencyMismatch)))
    else
      var debited := Debited(from.balance, m.amount);
      var credited := Credited(to.balance, m.amount);
      if debited.Err? then Ended(TransferReply(Err(debited.error)))
      else if credited.Err? then Ended(TransferReply(Err(credited.error)))
      else if debited.value < 0 || credited.value < 0 then Ended(TransferReply(Err(ConstraintViolation)))
      else TransferCommit(m, first, second)
  }

  /** Run the next statement of a debit that nothing blocks. */
  function DebitStep(b: Bank, t: Txn): (Bank, Txn)
    requires t.DebitFind? || t.DebitLock? || t.DebitRecheck? || t.DebitInsert? || t.DebitCommit? || t.DebitLookup?
  {
    match t
    case DebitFind(d) =>
      if d.pid == "" || d.from == NIL || d.key == "" then (b, RefuseOp(InvalidTransfer))
      else if d.amount <= 0 then (b, RefuseOp(InvalidAmount))
      else if NormalizeCurrency(d.currency).Err? then (b, RefuseOp(UnsupportedCurrency))
      else if d.pid in b.debits then (b, Ended(OpReply(Ok(b.debits[d.pid]))))
      else (b, DebitLock(d))
    case DebitLock(d) => (b, DebitRecheck(d, Found(b, d.from)))
    case DebitRecheck(d, wallet) =>
      if d.pid in b.debits then (b, Ended(OpReply(Ok(b.debits[d.pid])))) else (b, DebitChecks(d, wallet))
    case DebitInsert(d, from) =>
      if d.pid in b.debits || KeyTaken(b.debits, d.key) then (b, DebitLookup(d)) else (b, DebitCommit(d, from))
    case DebitCommit(d, from) =>
      var debited := Debited(from.balance, d.amount);
      if d.from !in b.wallets || debited.Err? then (b, RefuseOp(NotFound))
      else
        var (b', op) := PostDebit(b, d, debited.value);
        (b', Ended(OpReply(Ok(op))))
    case DebitLookup(d) =>
      if d.pid in b.debits then (b, Ended(OpReply(Ok(b.debits[d.pid])))) else (b, RefuseOp(InvalidTransfer))
  }

  function CompStep(b: Bank, t: Txn): (Bank, Txn)
    requires t.CompFind? || t.CompLockDebit? || t.CompRecheck? || t.CompLockWallet? || t.CompInsert? || t.CompCommit? || t.CompLookup?
  {
    match t
    case CompFind(c) =>
      if c.pid == "" || c.from == NIL || c.key == "" then (b, RefuseOp(InvalidTransfer))
      else if c.amount < 0 then (b, RefuseOp(InvalidAmount))
      else if c.currency != "" && NormalizeCurrency(c.currency).Err? then (b, RefuseOp(UnsupportedCurrency))
      else if c.pid in b.comps then (b, Ended(OpReply(Ok(b.comps[c.pid]))))
      else (b, CompLockDebit(c))
    case CompLockDebit(c) =>
      if c.pid in b.debits then (b, CompRecheck(c, b.debits[c.pid])) else (b, RefuseOp(DebitNotFound))
    case CompRecheck(c, row) =>
      if c.pid in b.comps then (b, Ended(OpReply(Ok(b.comps[c.pid])))) else (b, CompChecks(c, row))
    case CompLockWallet(c, row) => (b, CompCredit(c, row, Found(b, row.wallet)))
    case CompInsert(c, row, from) =>
      if c.pid in b.comps || KeyTaken(b.comps, c.key) then (b, CompLookup(c)) else (b, CompCommit(c, row, from))
    case CompCommit(c, row, from) =>
      var credited := Credited(from.balance, row.amount);
      if row.wallet !in b.wallets || credited.Err? then (b, RefuseOp(NotFound))
      else
        var (b', op) := PostCompensation(b, c, row, credited.value);
        (b', Ended(OpReply(Ok(op))))
    case CompLookup(c) =>
      if c.pid in b.comps then (b, Ended(OpReply(Ok(b.comps[c.pid])))) else (b, RefuseOp(InvalidTransfer))
  }

  function TransferStep(b: Bank, t: Txn): (Bank, Txn)
    requires t.TransferLockFirst? || t.TransferLockSecond? || t.TransferCommit?
  {
    match t
    case TransferLockFirst(m) =>
      if m.amount <= 0 then (b, Ended(TransferReply(Err(InvalidAmount))))
      else if m.from == m.to then (b, Ended(TransferReply(Err(InvalidTransfer))))
      else
        var first := Found(b, Lower(m.from, m.to));
        (b, if first.None? then Ended(TransferReply(Err(NotFound))) else TransferLockSecond(m, first.value))
    case TransferLockSecond(m, first) =>
      var second := Found(b, Upper(m.from, m.to));
      (b, if second.None? then Ended(TransferReply(Err(NotFound))) else TransferChecks(m, first, second.value))
    case TransferCommit(m, first, second) =>
      var debited := Debited((if m.from < m.to then first else second).balance, m.amount);
      var credited := Credited((if m.from < m.to then second else first).balance, m.amount);
      if m.from !in b.wallets || m.to !in b.wallets || debited.Err? || credited.Err? then (b, Ended(TransferReply(Err(NotFound))))
      else (PostTransfer(b, m.from, m.to, m.amount, debited.value, credited.value), Ended(TransferReply(Ok(b.nextId))))
  }

  /** The inserts and the status UPDATE of a confirmation, from the values it read. */
  function PostConfirmation(b: Bank, c: ConfirmCommand, r: Reservation, left: int64, right: int64): Bank
    requires c.pid in b.reservations
  {
    b.(transfers := b.transfers[b.nextId := Transfer(r.from, r.to, r.amount, r.currency)],
       entries := b.entries[(b.nextId, DebitSide) := Entry(r.from, r.amount, left)][(b.nextId, CreditSide) := Entry(r.to, r.amount, right)],
       reservations := b.reservations[c.pid := b.reservations[c.pid].(status := Confirmed, transfer := b.nextId, walletDebit := c.walletDebit)],
       nextId := b.nextId + 1)
  }

  /** Confirmations and cancellations of a reservation, under its row lock. */
  function ReservationStep(b: Bank, t: Txn): (Bank, Txn)
    requires t.ConfirmLock? || t.ConfirmLockFirst? || t.ConfirmLockSecond? || t.ConfirmCommit? || t.CancelLock? || t.CancelCommit?
  {
    match t
    case ConfirmLock(c) =>
      if c.pid == "" || c.reservation == NIL || c.walletDebit == NIL || c.key == "" then (b, Ended(TransferReply(Err(InvalidTransfer))))
      else if c.pid !in b.reservations then (b, Ended(TransferReply(Err(NotFound))))
      else
        var r := b.reservations[c.pid];
        (b, if r.id != c.reservation || r.status.Canceled? then Ended(TransferReply(Err(FailedPrecondition)))
            else if r.status.Confirmed? then Ended(TransferReply(Ok(r.transfer)))
            else ConfirmLockFirst(c, r))
    case ConfirmLockFirst(c, r) =>
      var first := Found(b, Lower(r.from, r.to));
      (b, if first.None? then Ended(TransferReply(Err(NotFound))) else ConfirmLockSecond(c, r, first.value))
    case ConfirmLockSecond(c, r, first) =>
      var second := Found(b, Upper(r.from, r.to));
      (b, if second.None? then Ended(TransferReply(Err(NotFound)))
          else if first.currency != second.value.currency || first.currency != r.currency then Ended(TransferReply(Err(CurrencyMismatch)))
          else ConfirmCommit(c, r, first, second.value))
    case ConfirmCommit(c, r, first, second) =>
      var from := if r.from < r.to then first else second;
      var to := if r.from < r.to then second else first;
      if c.pid !in b.reservations then (b, Ended(TransferReply(Err(NotFound))))
      else (PostConfirmation(b, c, r, from.balance, to.balance), Ended(TransferReply(Ok(b.nextId))))
    case CancelLock(c) =>
      if c.pid == "" || c.reservation == NIL || c.key == "" then (b, Ended(ReservationReply(Err(InvalidTransfer))))
      else if c.pid !in b.reservations then (b, Ended(ReservationReply(Err(NotFound))))
      else
        var r := b.reservations[c.pid];
        (b, if r.id != c.reservation || r.status.Confirmed? then Ended(ReservationReply(Err(FailedPrecondition)))
            else if r.status.Canceled? then Ended(ReservationReply(Ok(r)))
            else CancelCommit(c, r))
    case CancelCommit(c, _) =>
      if c.pid !in b.reservations then (b, Ended(ReservationReply(Err(NotFound))))
      else
        var canceled := b.reservations[c.pid].(status := Canceled);
        (b.(reservations := b.reservations[c.pid := canceled]), Ended(ReservationReply(Ok(canceled))))
  }

  function Proceed(b: Bank, t: Txn): (Bank, Txn) {
    if t.Ended? then (b, t)
    else match CommandOf(t)
      case DoDebit(_) => DebitStep(b, t)
      case DoCompensate(_) => CompStep(b, t)
      case DoCreateTransfer(_, _, _, _) => TransferStep(b, t)
      case _ => ReservationStep(b, t)
  }

  // ----- What a transaction knows about the committed rows -----

  ghost predicate DebitValid(d: DebitCommand) {
    d.pid != "" && d.from != NIL && d.key != "" && d.amount > 0 && NormalizeCurrency(d.currency).Ok?
  }

  ghost predicate DebitReady(b: Bank, d: DebitCommand, from: Wallet) {
    DebitValid(d) && Found(b, d.from) == Some(from) && from.currency == d.currency && Debited(from.balance, d.amount).Ok?
  }

  ghost predicate CompValid(c: CompensateCommand) {
    c.pid != "" && c.from != NIL && c.key != "" && c.amount >= 0 && (c.currency == "" || NormalizeCurrency(c.currency).Ok?)
  }

  /** The locked debit is the committed one, is what the command names, and is not refunded. */
  ghost predicate CompReady(b: Bank, c: CompensateCommand, row: WalletOp) {
    && CompValid(c) && c.pid in b.debits && b.debits[c.pid] == row && c.pid !in b.comps
    && CompChecks(c, row).CompLockWallet?
  }

  ghost predicate ConfirmReady(b: Bank, c: ConfirmCommand, r: Reservation) {
    && c.pid != "" && c.reservation != NIL && c.walletDebit != NIL && c.key != ""
    && c.pid in b.reservations && b.reservations[c.pid] == r && r.id == c.reservation && r.status.Reserved? && r.from != r.to
  }

  ghost predicate TxnOk(b: Bank, t: Txn) {
    match t
    case DebitLock(d) => DebitValid(d)
    case DebitRecheck(d, wallet) => DebitValid(d) && (wallet.Some? ==> Found(b, d.from) == wallet)
    case DebitInsert(d, from) => DebitReady(b, d, from)
    case DebitCommit(d, from) => DebitReady(b, d, from) && d.pid !in b.debits && !KeyTaken(b.debits, d.key)
    case DebitLookup(d) => DebitValid(d)
    case CompLockDebit(c) => CompValid(c)
    case CompRecheck(c, row) => CompValid(c) && c.pid in b.debits && b.debits[c.pid] == row
    case CompLockWallet(c, row) => CompReady(b, c, row)
    case CompInsert(c, row, from) =>
      CompReady(b, c, row) && Found(b, row.wallet) == Some(from) && CompCredit(c, row, Some(from)).CompInsert?
    case CompCommit(c, row, from) =>
      && CompReady(b, c, row) && Found(b, row.wallet) == Some(from) && CompCredit(c, row, Some(from)).CompInsert?
      && !KeyTaken(b.comps, c.key)
    case CompLookup(c) => CompValid(c)
    case TransferLockSecond(m, first) => m.amount > 0 && m.from != m.to && Found(b, Lower(m.from, m.to)) == Some(first)
    case TransferCommit(m, first, second) =>
      && m.amount > 0 && m.from != m.to && Found(b, Lower(m.from, m.to)) == Some(first) && Found(b, Upper(m.from, m.to)) == Some(second)
      && TransferChecks(m, first, second).TransferCommit?
    case ConfirmLockFirst(c, r) => ConfirmReady(b, c, r)
    case ConfirmLockSecond(c, r, first) => ConfirmReady(b, c, r) && Found(b, Lower(r.from, r.to)) == Some(first)
    case ConfirmCommit(c, r, first, second) =>
      && ConfirmReady(b, c, r) && Found(b, Lower(r.from, r.to)) == Some(first) && Found(b, Upper(r.from, r.to)) == Some(second)
      && first.currency == second.currency == r.currency
    case CancelCommit(c, r) =>
      && c.pid != "" && c.reservation != NIL && c.key != "" && c.pid in b.reservations && b.reservations[c.pid] == r
      && r.id == c.reservation && r.status.Reserved?
    case _ => true
  }

  /** The committed rows that differ are all protected by `held`. */
  ghost predicate Within(b: Bank, b': Bank, held: set<Resource>) {
    && (forall w | w in b.wallets && WalletRow(w) !in held :: w in b'.wallets && b'.wallets[w] == b.wallets[w])
    && (forall p | p in b.debits :: p in b'.debits && b'.debits[p] == b.debits[p])
    && (forall p | p in b'.debits && p !in b.debits :: NewDebit(p) in held && NewDebitKey(b'.debits[p].key) in held)
    && (forall p | p in b'.comps && p !in b.comps :: DebitRow(p) in held)
    && (forall p | p in b.comps :: p in b'.comps && b'.comps[p] == b.comps[p])
    && (forall p | p in b'.comps && p !in b.comps :: NewCompKey(b'.comps[p].key) in held)
    && (forall p | p in b.reservations && ReservationRow(p) !in held :: p in b'.reservations && b'.reservations[p] == b.reservations[p])
  }

  lemma OthersStayOk(b: Bank, b': Bank, held: set<Resource>, t: Txn)
    requires TxnOk(b, t) && Within(b, b', held) && Holds(t) !! held
    ensures TxnOk(b', t)
  {
  }

  // ----- One step -----

  /** The answer of the atomic command. */
  function Answer(b: Bank, c: Command): Reply
    requires c.DoDebit? || c.DoCompensate? || c.DoCreateTransfer? || c.DoConfirm? || c.DoCancel?
  {
    match c
    case DoDebit(d) => OpReply(DebitForSaga(b, d).1)
    case DoCompensate(d) => OpReply(CompensateDebit(b, d).1)
    case DoCreateTransfer(user, from, to, amount) => TransferReply(CreateTransfer(b, user, from, to, amount).1)
    case DoConfirm(d) => TransferReply(ConfirmTransfer(b, d).1)
    case DoCancel(d) => ReservationReply(CancelReservation(b, d).1)
  }

  /** A step either leaves the committed rows alone, or is the whole command at once; and a
      success it answers is the answer of the whole command at that moment. */
  ghost predicate StepOk(b: Bank, t: Txn, b': Bank, t': Txn)
    requires !t.Ended?
  {
    && TxnOk(b', t') && Within(b, b', Holds(t)) && Holds(t') <= Holds(t) + Wants(t)
    && (t'.Ended? || CommandOf(t') == CommandOf(t))
    && (b' == b || (t'.Ended? && t'.reply.Success()))
    && (t'.Ended? && t'.reply.Success() ==> b' == Apply(b, CommandOf(t)) && t'.reply == Answer(b, CommandOf(t)))
  }

  /** A step that leaves the committed rows alone. */
  ghost predicate ReadStep(b: Bank, t: Txn, t': Txn)
    requires !t.Ended?
  {
    && TxnOk(b, t') && Holds(t') <= Holds(t) + Wants(t)
    && (t'.Ended? || CommandOf(t') == CommandOf(t))
    && (t'.Ended? && t'.reply.Success() ==> b == Apply(b, CommandOf(t)) && t'.reply == Answer(b, CommandOf(t)))
  }

  lemma ReadIsStep(b: Bank, t: Txn, t': Txn)
    requires !t.Ended? && ReadStep(b, t, t')
    ensures StepOk(b, t, b, t')
  {
  }

  lemma DebitFound(b: Bank, d: DebitCommand)
    requires DebitValid(d) && d.pid in b.debits
    ensures DebitForSaga(b, d) == (b, Ok(b.debits[d.pid]))
  {
  }

  lemma CompFound(b: Bank, c: CompensateCommand)
    requires CompValid(c) && c.pid in b.comps
    ensures CompensateDebit(b, c) == (b, Ok(b.comps[c.pid]))
  {
  }

  lemma DebitFindOk(b: Bank, d: DebitCommand)
    requires TxnOk(b, DebitFind(d))
    ensures var (b', t') := DebitStep(b, DebitFind(d)); b' == b && ReadStep(b, DebitFind(d), t')
  {
    hide DebitForSaga, CompensateDebit, CreateTransfer, ConfirmTransfer, CancelReservation, NormalizeCurrency, Within;
    if DebitValid(d) && d.pid in b.debits { DebitFound(b, d); }
  }

  lemma DebitLockOk(b: Bank, d: DebitCommand)
    requires TxnOk(b, DebitLock(d))
    ensures var (b', t') := DebitStep(b, DebitLock(d)); b' == b && ReadStep(b, DebitLock(d), t')
  {
    hide DebitForSaga, CompensateDebit, CreateTransfer, ConfirmTransfer, CancelReservation, NormalizeCurrency, Within;
  }

  lemma DebitRecheckOk(b: Bank, d: DebitCommand, wallet: Option<Wallet>)
    requires TxnOk(b, DebitRecheck(d, wallet))
    ensures var (b', t') := DebitStep(b, DebitRecheck(d, wallet)); b' == b && ReadStep(b, DebitRecheck(d, wallet), t')
  {
    hide DebitForSaga, CompensateDebit, CreateTransfer, ConfirmTransfer, CancelReservation, NormalizeCurrency, Within;
    if d.pid in b.debits { DebitFound(b, d); }
  }

  lemma DebitInsertOk(b: Bank, d: DebitCommand, from: Wallet)
    requires TxnOk(b, DebitInsert(d, from))
    ensures var (b', t') := DebitStep(b, DebitInsert(d, from)); b' == b && ReadStep(b, DebitInsert(d, from), t')
  {
    hide DebitForSaga, CompensateDebit, CreateTransfer, ConfirmTransfer, CancelReservation, NormalizeCurrency, Within;
  }

  lemma DebitLookupOk(b: Bank, d: DebitCommand)
    requires TxnOk(b, DebitLookup(d))
    ensures var (b', t') := DebitStep(b, DebitLookup(d)); b' == b && ReadStep(b, DebitLookup(d), t')
  {
    hide DebitForSaga, CompensateDebit, CreateTransfer, ConfirmTransfer, CancelReservation, NormalizeCurrency, Within;
    if d.pid in b.debits { DebitFound(b, d); }
  }

  lemma DebitCommitOk(b: Bank, d: DebitCommand, from: Wallet)
    requires TxnOk(b, DebitCommit(d, from))
    ensures var (b', t') := DebitStep(b, DebitCommit(d, from)); StepOk(b, DebitCommit(d, from), b', t')
  {
    hide CompensateDebit, CreateTransfer, ConfirmTransfer, CancelReservation, NormalizeCurrency;
  }

  lemma CompFindOk(b: Bank, c: CompensateCommand)
    requires TxnOk(b, CompFind(c))
    ensures var (b', t') := CompStep(b, CompFind(c)); b' == b && ReadStep(b, CompFind(c), t')
  {
    hide DebitForSaga, CompensateDebit, CreateTransfer, ConfirmTransfer, CancelReservation, NormalizeCurrency, Within;
    if CompValid(c) && c.pid in b.comps { CompFound(b, c); }
  }

  lemma CompLockDebitOk(b: Bank, c: CompensateCommand)
    requires TxnOk(b, CompLockDebit(c))
    ensures var (b', t') := CompStep(b, CompLockDebit(c)); b' == b && ReadStep(b, CompLockDebit(c), t')
  {
    hide DebitForSaga, CompensateDebit, CreateTransfer, ConfirmTransfer, CancelReservation, NormalizeCurrency, Within;
  }

  lemma CompRecheckOk(b: Bank, c: CompensateCommand, row: WalletOp)
    requires TxnOk(b, CompRecheck(c, row))
    ensures var (b', t') := CompStep(b, CompRecheck(c, row)); b' == b && ReadStep(b, CompRecheck(c, row), t')
  {
    hide DebitForSaga, CompensateDebit, CreateTransfer, ConfirmTransfer, CancelReservation, NormalizeCurrency, Within;
    if c.pid in b.comps { CompFound(b, c); }
  }

  lemma CompLockWalletOk(b: Bank, c: CompensateCommand, row: WalletOp)
    requires TxnOk(b, CompLockWallet(c, row))
    ensures var (b', t') := CompStep(b, CompLockWallet(c, row)); b' == b && ReadStep(b, CompLockWallet(c, row), t')
  {
    hide DebitForSaga, CompensateDebit, CreateTransfer, ConfirmTransfer, CancelReservation, NormalizeCurrency, Within;
  }

  lemma CompInsertOk(b: Bank, c: CompensateCommand, row: WalletOp, from: Wallet)
    requires TxnOk(b, CompInsert(c, row, from))
    ensures var (b', t') := CompStep(b, CompInsert(c, row, from)); b' == b && ReadStep(b, CompInsert(c, row, from), t')
  {
    hide DebitForSaga, CompensateDebit, CreateTransfer, ConfirmTransfer, CancelReservation, NormalizeCurrency, Within;
  }

  lemma CompLookupOk(b: Bank, c: CompensateCommand)
    requires TxnOk(b, CompLookup(c))
    ensures var (b', t') := CompStep(b, CompLookup(c)); b' == b && ReadStep(b, CompLookup(c), t')
  {
    hide DebitForSaga, CompensateDebit, CreateTransfer, ConfirmTransfer, CancelReservation, NormalizeCurrency, Within;
    if c.pid in b.comps { CompFound(b, c); }
  }

  lemma CompCommitOk(b: Bank, c: CompensateCommand, row: WalletOp, from: Wallet)
    requires TxnOk(b, CompCommit(c, row, from))
    ensures var (b', t') := CompStep(b, CompCommit(c, row, from)); StepOk(b, CompCommit(c, row, from), b', t')
  {
    hide DebitForSaga, CreateTransfer, ConfirmTransfer, CancelReservation, NormalizeCurrency;
  }

  lemma TransferLockFirstOk(b: Bank, m: TransferCommand)
    requires TxnOk(b, TransferLockFirst(m))
    ensures var (b', t') := TransferStep(b, TransferLockFirst(m)); b' == b && ReadStep(b, TransferLockFirst(m), t')
  {
    hide DebitForSaga, CompensateDebit, CreateTransfer, ConfirmTransfer, CancelReservation, NormalizeCurrency, Within;
  }

  lemma TransferLockSecondOk(b: Bank, m: TransferCommand, first: Wallet)
    requires TxnOk(b, TransferLockSecond(m, first))
    ensures var (b', t') := TransferStep(b, TransferLockSecond(m, first)); b' == b && ReadStep(b, TransferLockSecond(m, first), t')
  {
    hide DebitForSaga, CompensateDebit, CreateTransfer, ConfirmTransfer, CancelReservation, NormalizeCurrency, Within;
  }

  lemma TransferCommitOk(b: Bank, m: TransferCommand, first: Wallet, second: Wallet)
    requires TxnOk(b, TransferCommit(m, first, second))
    ensures var (b', t') := TransferStep(b, TransferCommit(m, first, second)); StepOk(b, TransferCommit(m, first, second), b', t')
  {
    hide DebitForSaga, CompensateDebit, ConfirmTransfer, CancelReservation;
  }

  lemma ConfirmLockOk(b: Bank, c: ConfirmCommand)
    requires TxnOk(b, ConfirmLock(c)) && forall p | p in b.reservations :: b.reservations[p].from != b.reservations[p].to
    ensures var (b', t') := ReservationStep(b, ConfirmLock(c)); b' == b && ReadStep(b, ConfirmLock(c), t')
  {
    hide DebitForSaga, CompensateDebit, CreateTransfer, CancelReservation;
  }

  lemma ConfirmLockFirstOk(b: Bank, c: ConfirmCommand, r: Reservation)
    requires TxnOk(b, ConfirmLockFirst(c, r))
    ensures var (b', t') := ReservationStep(b, ConfirmLockFirst(c, r)); b' == b && ReadStep(b, ConfirmLockFirst(c, r), t')
  {
    hide DebitForSaga, CompensateDebit, CreateTransfer, ConfirmTransfer, CancelReservation, NormalizeCurrency, Within;
  }

  lemma ConfirmLockSecondOk(b: Bank, c: ConfirmCommand, r: Reservation, first: Wallet)
    requires TxnOk(b, ConfirmLockSecond(c, r, first))
    ensures var (b', t') := ReservationStep(b, ConfirmLockSecond(c, r, first)); b' == b && ReadStep(b, ConfirmLockSecond(c, r, first), t')
  {
    hide DebitForSaga, CompensateDebit, CreateTransfer, ConfirmTransfer, CancelReservation, NormalizeCurrency, Within;
  }

  lemma ConfirmCommitOk(b: Bank, c: ConfirmCommand, r: Reservation, first: Wallet, second: Wallet)
    requires TxnOk(b, ConfirmCommit(c, r, first, second))
    ensures var (b', t') := ReservationStep(b, ConfirmCommit(c, r, first, second)); StepOk(b, ConfirmCommit(c, r, first, second), b', t')
  {
    hide DebitForSaga, CompensateDebit, CreateTransfer, CancelReservation;
  }

  lemma CancelLockOk(b: Bank, c: CancelCommand)
    requires TxnOk(b, CancelLock(c))
    ensures var (b', t') := ReservationStep(b, CancelLock(c)); b' == b && ReadStep(b, CancelLock(c), t')
  {
    hide DebitForSaga, CompensateDebit, CreateTransfer, ConfirmTransfer;
  }

  lemma CancelCommitOk(b: Bank, c: CancelCommand, r: Reservation)
    requires TxnOk(b, CancelCommit(c, r))
    ensures var (b', t') := ReservationStep(b, CancelCommit(c, r)); StepOk(b, CancelCommit(c, r), b', t')
  {
    hide DebitForSaga, CompensateDebit, CreateTransfer, ConfirmTransfer;
  }

  lemma DebitProceedOk(b: Bank, t: Txn)
    requires t.DebitFind? || t.DebitLock? || t.DebitRecheck? || t.DebitInsert? || t.DebitCommit? || t.DebitLookup?
    requires TxnOk(b, t)
    ensures var (b', t') := DebitStep(b, t); StepOk(b, t, b', t')
  {
    hide TxnOk, StepOk, ReadStep, Holds, Wants, DebitStep;
    match t
    case DebitFind(d) => DebitFindOk(b, d); ReadIsStep(b, t, DebitStep(b, t).1);
    case DebitLock(d) => DebitLockOk(b, d); ReadIsStep(b, t, DebitStep(b, t).1);
    case DebitRecheck(d, wallet) => DebitRecheckOk(b, d, wallet); ReadIsStep(b, t, DebitStep(b, t).1);
    case DebitInsert(d, from) => DebitInsertOk(b, d, from); ReadIsStep(b, t, DebitStep(b, t).1);
    case DebitCommit(d, from) => DebitCommitOk(b, d, from);
    case DebitLookup(d) => DebitLookupOk(b, d); ReadIsStep(b, t, DebitStep(b, t).1);
  }

  lemma CompProceedOk(b: Bank, t: Txn)
    requires t.CompFind? || t.CompLockDebit? || t.CompRecheck? || t.CompLockWallet? || t.CompInsert? || t.CompCommit? || t.CompLookup?
    requires TxnOk(b, t)
    ensures var (b', t') := CompStep(b, t); StepOk(b, t, b', t')
  {
    hide TxnOk, StepOk, ReadStep, Holds, Wants, CompStep;
    match t
    case CompFind(c) => CompFindOk(b, c); ReadIsStep(b, t, CompStep(b, t).1);
    case CompLockDebit(c) => CompLockDebitOk(b, c); ReadIsStep(b, t, CompStep(b, t).1);
    case CompRecheck(c, row) => CompRecheckOk(b, c, row); ReadIsStep(b, t, CompStep(b, t).1);
    case CompLockWallet(c, row) => CompLockWalletOk(b, c, row); ReadIsStep(b, t, CompStep(b, t).1);
    case CompInsert(c, row, from) => CompInsertOk(b, c, row, from); ReadIsStep(b, t, CompStep(b, t).1);
    case CompCommit(c, row, from) => CompCommitOk(b, c, row, from);
    case CompLookup(c) => CompLookupOk(b, c); ReadIsStep(b, t, CompStep(b, t).1);
  }

  lemma TransferProceedOk(b: Bank, t: Txn)
    requires t.TransferLockFirst? || t.TransferLockSecond? || t.TransferCommit?
    requires TxnOk(b, t)
    ensures var (b', t') := TransferStep(b, t); StepOk(b, t, b', t')
  {
    hide TxnOk, StepOk, ReadStep, Holds, Wants, TransferStep;
    match t
    case TransferLockFirst(m) => TransferLockFirstOk(b, m); ReadIsStep(b, t, TransferStep(b, t).1);
    case TransferLockSecond(m, first) => TransferLockSecondOk(b, m, first); ReadIsStep(b, t, TransferStep(b, t).1);
    case TransferCommit(m, first, second) => TransferCommitOk(b, m, first, second);
  }

  lemma ReservationProceedOk(b: Bank, t: Txn)
    requires t.ConfirmLock? || t.ConfirmLockFirst? || t.ConfirmLockSecond? || t.ConfirmCommit? || t.CancelLock? || t.CancelCommit?
    requires TxnOk(b, t) && forall p | p in b.reservations :: b.reservations[p].from != b.reservations[p].to
    ensures var (b', t') := ReservationStep(b, t); StepOk(b, t, b', t')
  {
    hide TxnOk, StepOk, ReadStep, Holds, Wants, ReservationStep;
    match t
    case ConfirmLock(c) => ConfirmLockOk(b, c); ReadIsStep(b, t, ReservationStep(b, t).1);
    case ConfirmLockFirst(c, r) => ConfirmLockFirstOk(b, c, r); ReadIsStep(b, t, ReservationStep(b, t).1);
    case ConfirmLockSecond(c, r, first) => ConfirmLockSecondOk(b, c, r, first); ReadIsStep(b, t, ReservationStep(b, t).1);
    case ConfirmCommit(c, r, first, second) => ConfirmCommitOk(b, c, r, first, second);
    case CancelLock(c) => CancelLockOk(b, c); ReadIsStep(b, t, ReservationStep(b, t).1);
    case CancelCommit(c, r) => CancelCommitOk(b, c, r);
  }

  lemma ProceedOk(b: Bank, t: Txn)
    requires TxnOk(b, t) && !t.Ended? && forall p | p in b.reservations :: b.reservations[p].from != b.reservations[p].to
    ensures var (b', t') := Proceed(b, t); StepOk(b, t, b', t')
  {
    hide TxnOk, StepOk, DebitStep, CompStep, TransferStep, ReservationStep;
    match CommandOf(t)
    case DoDebit(_) => DebitProceedOk(b, t);
    case DoCompensate(_) => CompProceedOk(b, t);
    case DoCreateTransfer(_, _, _, _) => TransferProceedOk(b, t);
    case _ => ReservationProceedOk(b, t);
  }

  // ----- A server with many transactions -----

  datatype Server = Server(db: Bank, txns: map<nat, Txn>)

  datatype Label =
    | Begin(id: nat, txn: Txn)
    | Advance(id: nat)
    | Abort(id: nat)             // a lost connection, a deadlock victim
    | OneStatement(command: Command)

  predicate Starts(t: Txn) {
    t.DebitFind? || t.CompFind? || t.TransferLockFirst? || t.ConfirmLock? || t.CancelLock?
  }

  /** Commands modelled as atomic here: they create rows and change none. */
  predicate Creates(c: Command) {
    c.DoCreateWallet? || c.DoReserve? || c.DoAppend?
  }

  ghost predicate Blocked(s: Server, id: nat)
    requires id in s.txns
  {
    exists j | j in s.txns && j != id :: Holds(s.txns[j]) * Wants(s.txns[id]) != {}
  }

  ghost function Take(s: Server, l: Label): Server {
    match l
    case Begin(id, t) => if id !in s.txns && Starts(t) then s.(txns := s.txns[id := t]) else s
    case Advance(id) =>
      if id in s.txns && !Blocked(s, id) then
        var (b', t') := Proceed(s.db, s.txns[id]);
        Server(b', s.txns[id := t'])
      else s
    case Abort(id) => s.(txns := s.txns - {id})
    case OneStatement(c) => if Creates(c) then s.(db := Apply(s.db, c)) else s
  }

  ghost function TakeAll(s: Server, ls: seq<Label>): Server
    decreases ls
  {
    if ls == [] then s else TakeAll(Take(s, ls[0]), ls[1..])
  }

  /** The command that a step carries out, if it carries one out. */
  ghost function Commits(s: Server, l: Label): seq<Command> {
    match l
    case Advance(id) =>
      if id in s.txns && !Blocked(s, id) && !s.txns[id].Ended? then
        var t' := Proceed(s.db, s.txns[id]).1;
        if t'.Ended? && t'.reply.Success() then [CommandOf(s.txns[id])] else []
      else []
    case OneStatement(c) => if Creates(c) then [c] else []
    case _ => []
  }

  /** The commands of a run in the order of their commits. */
  ghost function CommitOrder(s: Server, ls: seq<Label>): seq<Command>
    decreases ls
  {
    if ls == [] then [] else Commits(s, ls[0]) + CommitOrder(Take(s, ls[0]), ls[1..])
  }

  ghost predicate ServerOk(s: Server) {
    && BankOk(s.db)
    && (forall i | i in s.txns :: TxnOk(s.db, s.txns[i]))
    && (forall i, j | i in s.txns && j in s.txns && i != j :: Holds(s.txns[i]) !! Holds(s.txns[j]))
  }

  lemma StillDisjoint(s: Server, id: nat, j: nat, t': Txn)
    requires id in s.txns && j in s.txns && j != id && !Blocked(s, id)
    requires Holds(s.txns[id]) !! Holds(s.txns[j]) && Holds(t') <= Holds(s.txns[id]) + Wants(s.txns[id])
    ensures Holds(t') !! Holds(s.txns[j])
  {
    assert Holds(s.txns[j]) * Wants(s.txns[id]) == {};
  }

  lemma AdvanceOk(s: Server, id: nat)
    requires ServerOk(s) && id in s.txns && !Blocked(s, id)
    ensures var s' := Take(s, Advance(id)); ServerOk(s') && s'.db == Run(s.db, Commits(s, Advance(id)))
  {
    hide TxnOk, Holds, Wants, Within, Proceed, BankOk, Apply;
    var t := s.txns[id];
    var s' := Take(s, Advance(id));
    if t.Ended? {
      assert s' == s by { EndedStays(s.db, t); }
    } else {
      DistinctEnds(s.db);
      ProceedOk(s.db, t);
      CommandKeeps(s.db, CommandOf(t));
      forall j | j in s'.txns ensures TxnOk(s'.db, s'.txns[j]) {
        if j != id { OthersStayOk(s.db, s'.db, Holds(t), s.txns[j]); }
      }
      forall i, j | i in s'.txns && j in s'.txns && i != j ensures Holds(s'.txns[i]) !! Holds(s'.txns[j]) {
        if i == id { StillDisjoint(s, id, j, Proceed(s.db, t).1); } else if j == id { StillDisjoint(s, id, i, Proceed(s.db, t).1); }
      }
      RunOne(s.db, CommandOf(t));
    }
  }

  lemma EndedStays(b: Bank, t: Txn)
    requires t.Ended?
    ensures Proceed(b, t) == (b, t)
  {
  }

  lemma RunOne(b: Bank, c: Command)
    ensures Run(b, [c]) == Apply(b, c) && Run(b, []) == b
  {
    assert Run(b, [c]) == Run(Apply(b, c), [c][1..]);
  }

  lemma DistinctEnds(b: Bank)
    requires BankOk(b)
    ensures forall p | p in b.reservations :: b.reservations[p].from != b.reservations[p].to
  {
  }

  lemma NewWalletWithin(b: Bank, user: string, currency: string)
    requires MoneyOk(b)
    ensures Within(b, CreateWallet(b, user, currency), {})
  {
    assert b.nextId !in b.wallets;
  }

  /** A command that only creates rows disturbs no transaction. */
  lemma CreatesWithin(b: Bank, c: Command)
    requires BankOk(b) && Creates(c)
    ensures Within(b, Apply(b, c), {})
  {
    hide BackedOk, LedgerOk, MoneyOk, Within, ReserveTransfer, AppendTransferEntries, CreateWallet;
    match c
    case DoCreateWallet(user, currency) => NewWalletWithin(b, user, currency);
    case DoReserve(cmd) => ReservationWithin(b, cmd);
    case DoAppend(id) => if id in b.initiated && id in b.transfers { EntriesWithin(b, id); } else { NothingWithin(b); }
  }

  lemma ReservationWithin(b: Bank, cmd: ReserveCommand)
    ensures Within(b, ReserveTransfer(b, cmd).0, {})
  {
    hide NormalizeCurrency;
  }

  lemma EntriesWithin(b: Bank, id: Id)
    requires id in b.transfers
    ensures Within(b, AppendTransferEntries(b, id).0, {})
  {
    hide NormalizeCurrency;
  }

  lemma NothingWithin(b: Bank)
    ensures Within(b, b, {})
  {
  }

  lemma QuietOk(s: Server, l: Label)
    requires ServerOk(s) && !l.Advance?
    ensures var s' := Take(s, l); ServerOk(s') && s'.db == Run(s.db, Commits(s, l))
  {
    hide Within, Apply;
    var s' := Take(s, l);
    if l.OneStatement? && Creates(l.command) {
      CommandKeeps(s.db, l.command);
      CreatesWithin(s.db, l.command);
      forall j | j in s'.txns ensures TxnOk(s'.db, s'.txns[j]) { OthersStayOk(s.db, s'.db, {}, s.txns[j]); }
      RunOne(s.db, l.command);
    } else if l.Begin? {
      assert Starts(l.txn) ==> TxnOk(s.db, l.txn) && Holds(l.txn) == {};
    }
  }

  lemma TakeOk(s: Server, l: Label)
    requires ServerOk(s)
    ensures var s' := Take(s, l); ServerOk(s') && s'.db == Run(s.db, Commits(s, l))
  {
    hide ServerOk;
    if !l.Advance? { QuietOk(s, l); } else if l.id in s.txns && !Blocked(s, l.id) { AdvanceOk(s, l.id); }
  }

  lemma {:induction false} RunAppend(b: Bank, cs: seq<Command>, ds: seq<Command>)
    ensures Run(b, cs + ds) == Run(Run(b, cs), ds)
    decreases cs
  {
    if cs == [] {
      assert cs + ds == ds;
    } else {
      assert (cs + ds)[1..] == cs[1..] + ds;
      RunAppend(Apply(b, cs[0]), cs[1..], ds);
    }
  }

  /** However the transactions interleave, block, go stale and abort, the committed rows are
      those of running the committed commands one at a time, in the order of their commits. */
  lemma {:induction false} TransactionsAreSerial(s: Server, ls: seq<Label>)
    requires ServerOk(s)
    ensures ServerOk(TakeAll(s, ls)) && TakeAll(s, ls).db == Run(s.db, CommitOrder(s, ls))
    decreases ls
  {
    hide ServerOk, Take, Commits;
    if ls != [] {
      TakeOk(s, ls[0]);
      TransactionsAreSerial(Take(s, ls[0]), ls[1..]);
      RunAppend(s.db, Commits(s, ls[0]), CommitOrder(Take(s, ls[0]), ls[1..]));
    }
  }

  /** A transaction that answers success did exactly its command, at that moment: it committed
      the command's rows and answers the command's answer. One that is still running, or
      answers an error, has committed nothing. */
  lemma AnswersAreAtomic(s: Server, id: nat)
    requires ServerOk(s) && id in s.txns && !s.txns[id].Ended? && !Blocked(s, id)
    ensures var s' := Take(s, Advance(id)); var t' := s'.txns[id];
      if t'.Ended? && t'.reply.Success() then
        s'.db == Apply(s.db, CommandOf(s.txns[id])) && t'.reply == Answer(s.db, CommandOf(s.txns[id]))
      else s'.db == s.db
  {
    hide TxnOk, Holds, Wants, Within, Proceed, BankOk, Apply;
    DistinctEnds(s.db);
    ProceedOk(s.db, s.txns[id]);
  }

  /** No concurrent balance write is lost: after any interleaving the money is all there, every
      balance is explained by the committed rows, rows once committed stay as they were, and so
      a payment has at most one debit and one compensation, each moving its wallet once. */
  lemma NoWriteIsLost(s: Server, ls: seq<Label>, w: Id)
    requires ServerOk(s) && w in s.db.wallets
    ensures var b' := TakeAll(s, ls).db;
      && BankOk(b') && Extends(s.db, b') && Total(b') == Total(s.db)
      && w in b'.wallets && Account(b', w) == Account(s.db, w) && b'.wallets[w].balance >= 0
  {
    TransactionsAreSerial(s, ls);
    RunLaws(s.db, CommitOrder(s, ls));
    BalancesAreExplained(s.db, CommitOrder(s, ls), w);
  }
}
