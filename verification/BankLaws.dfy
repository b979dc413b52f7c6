/** What every run of wallet and ledger commands keeps: money is conserved, balances stay
    non-negative, no credit overflows, the ledger is double-entry, and a settled or
    cancelled reservation stays so. */
module BankLaws {
  import opened Domain
  import opened Sums
  import opened Bank

  // ----- Money -----

  ghost function Balances(b: Bank): map<Id, int> {
    map w | w in b.wallets :: b.wallets[w].balance as int
  }

  /** Saga debits not (yet) refunded: money that has left the wallets. */
  ghost function OpenDebits(b: Bank): map<PaymentId, int> {
    map p | p in b.debits && p !in b.comps :: b.debits[p].amount as int
  }

  ghost function Total(b: Bank): int {
    Sum(Balances(b)) + Sum(OpenDebits(b))
  }

  // ----- The table invariant -----

  ghost predicate MoneyOk(b: Bank) {
    && (forall w | w in b.wallets :: w < b.nextId && b.wallets[w].balance >= 0)
    && (forall p | p in b.debits :: b.debits[p].amount > 0 && b.debits[p].wallet in b.wallets && 0 < b.debits[p].id < b.nextId)
    && (forall p | p in b.comps :: p in b.debits && Refunds(b.comps[p], b.debits[p]))
  }

  /** A compensation gives back exactly what its debit took, to the same wallet. */
  ghost predicate Refunds(comp: WalletOp, debit: WalletOp) {
    comp.wallet == debit.wallet && comp.amount == debit.amount && comp.currency == debit.currency
  }

  /** Transfer `t` has one debit on its source and one credit of the same amount on its
      destination. */
  ghost predicate Balanced(b: Bank, t: Id) {
    && t in b.transfers && b.transfers[t].from != b.transfers[t].to
    && (t, DebitSide) in b.entries && (t, CreditSide) in b.entries
    && b.entries[(t, DebitSide)].wallet == b.transfers[t].from
    && b.entries[(t, CreditSide)].wallet == b.transfers[t].to
    && b.entries[(t, DebitSide)].amount == b.entries[(t, CreditSide)].amount == b.transfers[t].amount
  }

  ghost predicate Unposted(b: Bank, t: Id) {
    (t, DebitSide) !in b.entries && (t, CreditSide) !in b.entries
  }

  /** Reservation `r` owns transfer `r.transfer`: it carries exactly the reserved payload. */
  ghost predicate OwnsTransfer(b: Bank, r: Reservation) {
    && Balanced(b, r.transfer) && r.transfer !in b.initiated
    && b.transfers[r.transfer] == Transfer(r.from, r.to, r.amount, r.currency)
  }

  ghost predicate LedgerOk(b: Bank) {
    && 0 < b.nextId
    && (forall t | t in b.transfers :: 0 < t < b.nextId)
    && (forall t | t in b.initiated :: t in b.transfers)
    && (forall k | k in b.entries :: k.0 in b.transfers)
    && (forall t | t in b.transfers :: Unposted(b, t) || Balanced(b, t))
    && (forall p | p in b.reservations :: 0 < b.reservations[p].id < b.nextId && b.reservations[p].from != b.reservations[p].to)
    && (forall p | p in b.reservations :: b.reservations[p].status.Confirmed? ==> OwnsTransfer(b, b.reservations[p]))
    && (forall p | p in b.reservations :: !b.reservations[p].status.Confirmed? ==> b.reservations[p].transfer == NIL)
    && (forall p, q | p in b.reservations && q in b.reservations && p != q ::
          b.reservations[p].transfer == NIL || b.reservations[p].transfer != b.reservations[q].transfer)
  }

  /** Two different wallets of that currency, and an amount. */
  ghost predicate Backed(b: Bank, from: Id, to: Id, amount: int64, currency: string) {
    && amount > 0 && from != to && from in b.wallets && to in b.wallets
    && b.wallets[from].currency == currency && b.wallets[to].currency == currency
  }

  ghost predicate TransferBacked(b: Bank, t: Transfer) {
    Backed(b, t.from, t.to, t.amount, t.currency)
  }

  ghost predicate ReservationBacked(b: Bank, r: Reservation) {
    Backed(b, r.from, r.to, r.amount, r.currency) && r.to != NIL
  }

  ghost predicate BackedOk(b: Bank) {
    && (forall t | t in b.transfers :: TransferBacked(b, b.transfers[t]))
    && (forall p | p in b.reservations :: ReservationBacked(b, b.reservations[p]))
  }

  ghost predicate TablesOk(b: Bank) {
    MoneyOk(b) && LedgerOk(b)
  }

  ghost predicate BankOk(b: Bank) {
    TablesOk(b) && BackedOk(b)
  }

  // ----- One command -----

  lemma MoveBalance(b: Bank, id: Id, balance: int64, b': Bank)
    requires id in b.wallets && b'.wallets == b.wallets[id := b.wallets[id].(balance := balance)]
    ensures Sum(Balances(b')) == Sum(Balances(b)) - b.wallets[id].balance + balance
  {
    assert Balances(b') == Balances(b)[id := balance as int];
    SumUpdate(Balances(b), id, balance as int);
  }

  lemma TransferConserves(b: Bank, user: string, from: Id, to: Id, amount: int64)
    requires MoneyOk(b)
    ensures Total(CreateTransfer(b, user, from, to, amount).0) == Total(b)
  {
    var (b', r) := CreateTransfer(b, user, from, to, amount);
    if r.Ok? {
      var left := Debited(b.wallets[from].balance, amount).value;
      var half := b.(wallets := b.wallets[from := b.wallets[from].(balance := left)]);
      MoveBalance(b, from, left, half);
      MoveBalance(half, to, Credited(b.wallets[to].balance, amount).value, b');
      assert OpenDebits(b') == OpenDebits(b);
    }
  }

  lemma PostDebitConserves(b: Bank, cmd: DebitCommand, balance: int64)
    requires MoneyOk(b) && cmd.from in b.wallets && cmd.pid !in b.debits
    requires balance + cmd.amount == b.wallets[cmd.from].balance
    ensures Total(PostDebit(b, cmd, balance).0) == Total(b)
  {
    var b' := PostDebit(b, cmd, balance).0;
    MoveBalance(b, cmd.from, balance, b');
    assert OpenDebits(b') == OpenDebits(b)[cmd.pid := cmd.amount as int];
    SumUpdate(OpenDebits(b), cmd.pid, cmd.amount as int);
  }

  lemma PostCompensationConserves(b: Bank, cmd: CompensateCommand, balance: int64)
    requires MoneyOk(b) && cmd.pid in b.debits && cmd.pid !in b.comps
    requires balance == b.wallets[b.debits[cmd.pid].wallet].balance + b.debits[cmd.pid].amount
    ensures Total(PostCompensation(b, cmd, b.debits[cmd.pid], balance).0) == Total(b)
  {
    var b' := PostCompensation(b, cmd, b.debits[cmd.pid], balance).0;
    MoveBalance(b, b.debits[cmd.pid].wallet, balance, b');
    assert OpenDebits(b') == OpenDebits(b) - {cmd.pid};
    SumWithout(OpenDebits(b), cmd.pid);
  }

  lemma DebitConserves(b: Bank, cmd: DebitCommand)
    requires MoneyOk(b)
    ensures Total(DebitForSaga(b, cmd).0) == Total(b)
  {
    var (b', r) := DebitForSaga(b, cmd);
    if r.Ok? && cmd.pid !in b.debits {
      PostDebitConserves(b, cmd, r.value.balanceAfter);
    }
  }

  lemma CompensationConserves(b: Bank, cmd: CompensateCommand)
    requires MoneyOk(b)
    ensures Total(CompensateDebit(b, cmd).0) == Total(b)
  {
    var (b', r) := CompensateDebit(b, cmd);
    if r.Ok? && cmd.pid !in b.comps {
      PostCompensationConserves(b, cmd, r.value.balanceAfter);
    }
  }

  lemma CreateWalletConserves(b: Bank, user: string, currency: string)
    requires MoneyOk(b)
    ensures Total(CreateWallet(b, user, currency)) == Total(b)
  {
    var b' := CreateWallet(b, user, currency);
    assert b.nextId !in b.wallets;
    assert Balances(b') == Balances(b)[b.nextId := 0];
    SumUpdate(Balances(b), b.nextId, 0);
    assert OpenDebits(b') == OpenDebits(b);
  }

  lemma SameTotal(b: Bank, b': Bank)
    requires b'.wallets == b.wallets && b'.debits == b.debits && b'.comps == b.comps
    ensures Total(b') == Total(b)
  {
    assert Balances(b') == Balances(b) && OpenDebits(b') == OpenDebits(b);
  }

  lemma CommandConserves(b: Bank, c: Command)
    requires MoneyOk(b)
    ensures Total(Apply(b, c)) == Total(b)
  {
    hide DebitForSaga, CompensateDebit, CreateTransfer, Total, MoneyOk;
    match c
    case DoCreateWallet(user, currency) => CreateWalletConserves(b, user, currency);
    case DoCreateTransfer(user, from, to, amount) => TransferConserves(b, user, from, to, amount);
    case DoDebit(cmd) => DebitConserves(b, cmd);
    case DoCompensate(cmd) => CompensationConserves(b, cmd);
    case _ => SameTotal(b, Apply(b, c));
  }

  // ----- Every command keeps the tables consistent -----

  /** No transfer, entry or reservation moved: the ledger invariant carries over. */
  lemma LedgerUntouched(b: Bank, b': Bank)
    requires LedgerOk(b) && b'.nextId >= b.nextId
    requires b'.transfers == b.transfers && b'.entries == b.entries
    requires b'.reservations == b.reservations && b'.initiated == b.initiated
    ensures LedgerOk(b')
  {
    assert forall t | t in b.transfers :: (Unposted(b, t) <==> Unposted(b', t)) && (Balanced(b, t) <==> Balanced(b', t));
    assert forall p | p in b.reservations :: OwnsTransfer(b, b.reservations[p]) <==> OwnsTransfer(b', b.reservations[p]);
  }

  lemma CreateWalletTables(b: Bank, user: string, currency: string)
    requires TablesOk(b)
    ensures TablesOk(CreateWallet(b, user, currency))
  {
    LedgerUntouched(b, CreateWallet(b, user, currency));
  }

  lemma PostTransferTables(b: Bank, from: Id, to: Id, amount: int64, left: int64, right: int64)
    requires TablesOk(b) && from in b.wallets && to in b.wallets && from != to && 0 <= left && 0 <= right
    ensures TablesOk(PostTransfer(b, from, to, amount, left, right))
  {
    var b' := PostTransfer(b, from, to, amount, left, right);
    assert Unposted(b', b.nextId);
    forall t | t in b.transfers ensures Unposted(b', t) || Balanced(b', t) {
      assert Unposted(b, t) || Balanced(b, t);
    }
    forall p | p in b.reservations && b.reservations[p].status.Confirmed? ensures OwnsTransfer(b', b.reservations[p]) {
      assert OwnsTransfer(b, b.reservations[p]);
    }
  }

  lemma PostDebitTables(b: Bank, cmd: DebitCommand, balance: int64)
    requires TablesOk(b) && cmd.from in b.wallets && cmd.amount > 0 && cmd.pid !in b.debits && 0 <= balance
    ensures TablesOk(PostDebit(b, cmd, balance).0)
  {
    LedgerUntouched(b, PostDebit(b, cmd, balance).0);
  }

  lemma PostCompensationTables(b: Bank, cmd: CompensateCommand, balance: int64)
    requires TablesOk(b) && cmd.pid in b.debits && 0 <= balance
    ensures TablesOk(PostCompensation(b, cmd, b.debits[cmd.pid], balance).0)
  {
    LedgerUntouched(b, PostCompensation(b, cmd, b.debits[cmd.pid], balance).0);
  }

  lemma TransferTables(b: Bank, user: string, from: Id, to: Id, amount: int64)
    requires TablesOk(b)
    ensures TablesOk(CreateTransfer(b, user, from, to, amount).0)
  {
    var (b', r) := CreateTransfer(b, user, from, to, amount);
    if r.Ok? {
      PostTransferTables(b, from, to, amount, Debited(b.wallets[from].balance, amount).value, Credited(b.wallets[to].balance, amount).value);
    }
  }

  lemma DebitTables(b: Bank, cmd: DebitCommand)
    requires TablesOk(b)
    ensures TablesOk(DebitForSaga(b, cmd).0)
  {
    var (b', r) := DebitForSaga(b, cmd);
    if r.Ok? && cmd.pid !in b.debits {
      PostDebitTables(b, cmd, r.value.balanceAfter);
    }
  }

  lemma CompensationTables(b: Bank, cmd: CompensateCommand)
    requires TablesOk(b)
    ensures TablesOk(CompensateDebit(b, cmd).0)
  {
    var (b', r) := CompensateDebit(b, cmd);
    if r.Ok? && cmd.pid !in b.comps {
      PostCompensationTables(b, cmd, r.value.balanceAfter);
    }
  }

  lemma ReserveTables(b: Bank, cmd: ReserveCommand)
    requires TablesOk(b)
    ensures TablesOk(ReserveTransfer(b, cmd).0)
  {
    var b' := ReserveTransfer(b, cmd).0;
    if b' != b {
      assert b'.transfers == b.transfers && b'.entries == b.entries && b'.initiated == b.initiated;
      assert MoneyOk(b') by { assert b'.wallets == b.wallets && b'.debits == b.debits && b'.comps == b.comps; }
      forall t | t in b.transfers ensures Unposted(b', t) || Balanced(b', t) {
        assert Unposted(b, t) || Balanced(b, t);
      }
      forall p | p in b.reservations && b.reservations[p].status.Confirmed? ensures OwnsTransfer(b', b.reservations[p]) {
        assert OwnsTransfer(b, b.reservations[p]);
      }
    }
  }

  lemma ConfirmTables(b: Bank, cmd: ConfirmCommand)
    requires TablesOk(b)
    ensures TablesOk(ConfirmTransfer(b, cmd).0)
  {
    var b' := ConfirmTransfer(b, cmd).0;
    if b' != b {
      assert b.nextId !in b.transfers;
      assert OwnsTransfer(b', b'.reservations[cmd.pid]);
      forall t | t in b.transfers ensures Unposted(b', t) || Balanced(b', t) {
        assert Unposted(b, t) || Balanced(b, t);
      }
      forall p | p in b.reservations && p != cmd.pid && b.reservations[p].status.Confirmed?
        ensures OwnsTransfer(b', b.reservations[p])
      {
        assert OwnsTransfer(b, b.reservations[p]);
      }
    }
  }

  lemma CancelTables(b: Bank, cmd: CancelCommand)
    requires TablesOk(b)
    ensures TablesOk(CancelReservation(b, cmd).0)
  {
    var b' := CancelReservation(b, cmd).0;
    if b' != b {
      forall t | t in b.transfers ensures Unposted(b', t) || Balanced(b', t) {
        assert Unposted(b, t) || Balanced(b, t);
      }
      forall p | p in b.reservations && b'.reservations[p].status.Confirmed? ensures OwnsTransfer(b', b.reservations[p]) {
        assert OwnsTransfer(b, b.reservations[p]);
      }
    }
  }

  lemma AppendTables(b: Bank, id: Id)
    requires TablesOk(b) && id in b.initiated && id in b.transfers
    ensures TablesOk(AppendTransferEntries(b, id).0)
  {
    var b' := AppendTransferEntries(b, id).0;
    if b' != b {
      assert Balanced(b', id);
      forall t | t in b.transfers && t != id ensures Unposted(b', t) || Balanced(b', t) {
        assert Unposted(b, t) || Balanced(b, t);
      }
      forall p | p in b.reservations && b.reservations[p].status.Confirmed? ensures OwnsTransfer(b', b.reservations[p]) {
        assert OwnsTransfer(b, b.reservations[p]);
      }
    }
  }

  // ----- And backed by its wallets -----

  /** Wallets stay what they were, so what was backed stays backed. */
  lemma BackedStays(b: Bank, b': Bank)
    requires BackedOk(b) && Extends(b, b')
    requires forall t | t in b'.transfers :: (t in b.transfers && b'.transfers[t] == b.transfers[t]) || TransferBacked(b', b'.transfers[t])
    requires forall p | p in b'.reservations :: p in b.reservations || ReservationBacked(b', b'.reservations[p])
    ensures BackedOk(b')
  {
    forall t | t in b'.transfers ensures TransferBacked(b', b'.transfers[t]) {
      if t in b.transfers { assert TransferBacked(b, b.transfers[t]); }
    }
    forall p | p in b'.reservations ensures ReservationBacked(b', b'.reservations[p]) {
      if p in b.reservations { assert ReservationBacked(b, b.reservations[p]); }
    }
  }

  lemma TransferBacks(b: Bank, user: string, from: Id, to: Id, amount: int64)
    requires BackedOk(b) && MoneyOk(b)
    ensures BackedOk(CreateTransfer(b, user, from, to, amount).0)
  {
    hide Debited, Credited, MoneyOk;
    TransferExtends(b, user, from, to, amount);
    BackedStays(b, CreateTransfer(b, user, from, to, amount).0);
  }

  lemma ReserveBacks(b: Bank, cmd: ReserveCommand)
    requires BackedOk(b)
    ensures BackedOk(ReserveTransfer(b, cmd).0)
  {
    hide NormalizeCurrency;
    ReserveExtends(b, cmd);
    BackedStays(b, ReserveTransfer(b, cmd).0);
  }

  lemma ConfirmBacks(b: Bank, cmd: ConfirmCommand)
    requires BackedOk(b) && LedgerOk(b)
    ensures BackedOk(ConfirmTransfer(b, cmd).0)
  {
    hide LedgerOk, Extends;
    ConfirmExtends(b, cmd);
    if cmd.pid in b.reservations { assert ReservationBacked(b, b.reservations[cmd.pid]); }
    BackedStays(b, ConfirmTransfer(b, cmd).0);
  }

  /** The other commands write no transfer and no reservation of another payload. */
  lemma OthersBack(b: Bank, b': Bank)
    requires BackedOk(b) && Extends(b, b') && b'.transfers == b.transfers && b'.reservations.Keys == b.reservations.Keys
    ensures BackedOk(b')
  {
    BackedStays(b, b');
  }

  lemma TransferKeeps(b: Bank, user: string, from: Id, to: Id, amount: int64)
    requires BankOk(b)
    ensures BankOk(CreateTransfer(b, user, from, to, amount).0)
  {
    hide MoneyOk, LedgerOk, BackedOk, CreateTransfer;
    TransferTables(b, user, from, to, amount);
    TransferBacks(b, user, from, to, amount);
  }

  lemma CreateWalletKeeps(b: Bank, user: string, currency: string)
    requires BankOk(b)
    ensures BankOk(CreateWallet(b, user, currency))
  {
    CreateWalletTables(b, user, currency);
    assert b.nextId !in b.wallets;
    hide LedgerOk, BackedOk;
    OthersBack(b, CreateWallet(b, user, currency));
  }

  lemma DebitKeeps(b: Bank, cmd: DebitCommand)
    requires BankOk(b)
    ensures BankOk(DebitForSaga(b, cmd).0)
  {
    hide MoneyOk, LedgerOk, BackedOk, Extends;
    DebitTables(b, cmd);
    DebitExtends(b, cmd);
    OthersBack(b, DebitForSaga(b, cmd).0);
  }

  lemma CompensationKeeps(b: Bank, cmd: CompensateCommand)
    requires BankOk(b)
    ensures BankOk(CompensateDebit(b, cmd).0)
  {
    hide MoneyOk, LedgerOk, BackedOk, Extends;
    CompensationTables(b, cmd);
    CompensationExtends(b, cmd);
    OthersBack(b, CompensateDebit(b, cmd).0);
  }

  lemma ReserveKeeps(b: Bank, cmd: ReserveCommand)
    requires BankOk(b)
    ensures BankOk(ReserveTransfer(b, cmd).0)
  {
    hide MoneyOk, LedgerOk, BackedOk, ReserveTransfer;
    ReserveTables(b, cmd);
    ReserveBacks(b, cmd);
  }

  lemma ConfirmKeeps(b: Bank, cmd: ConfirmCommand)
    requires BankOk(b)
    ensures BankOk(ConfirmTransfer(b, cmd).0)
  {
    hide MoneyOk, LedgerOk, BackedOk, ConfirmTransfer;
    ConfirmTables(b, cmd);
    ConfirmBacks(b, cmd);
  }

  lemma CancelKeeps(b: Bank, cmd: CancelCommand)
    requires BankOk(b)
    ensures BankOk(CancelReservation(b, cmd).0)
  {
    hide MoneyOk, LedgerOk, BackedOk, Extends;
    CancelTables(b, cmd);
    CancelExtends(b, cmd);
    OthersBack(b, CancelReservation(b, cmd).0);
  }

  lemma AppendKeeps(b: Bank, id: Id)
    requires BankOk(b) && id in b.initiated && id in b.transfers
    ensures BankOk(AppendTransferEntries(b, id).0)
  {
    hide MoneyOk, LedgerOk, BackedOk, Extends;
    AppendTables(b, id);
    AppendExtends(b, id);
    OthersBack(b, AppendTransferEntries(b, id).0);
  }

  lemma CommandKeeps(b: Bank, c: Command)
    requires BankOk(b)
    ensures BankOk(Apply(b, c))
  {
    match c
    case DoCreateWallet(user, currency) => CreateWalletKeeps(b, user, currency);
    case DoCreateTransfer(user, from, to, amount) => TransferKeeps(b, user, from, to, amount);
    case DoDebit(cmd) => DebitKeeps(b, cmd);
    case DoCompensate(cmd) => CompensationKeeps(b, cmd);
    case DoReserve(cmd) => ReserveKeeps(b, cmd);
    case DoConfirm(cmd) => ConfirmKeeps(b, cmd);
    case DoCancel(cmd) => CancelKeeps(b, cmd);
    case DoAppend(id) => if id in b.initiated && id in b.transfers { AppendKeeps(b, id); }
  }

  // ----- Rows only grow, and settled reservations never move -----

  ghost predicate ReservationGrows(r: Reservation, r': Reservation) {
    && r'.id == r.id && r'.key == r.key && r'.from == r.from && r'.to == r.to
    && r'.amount == r.amount && r'.currency == r.currency
    && (!r.status.Reserved? ==> r' == r)
  }

  /** Only a wallet's balance moves. */
  ghost predicate SameHolder(v: Wallet, v': Wallet) {
    v'.user == v.user && v'.currency == v.currency
  }

  ghost predicate Extends(b: Bank, b': Bank) {
    && (forall w | w in b.wallets :: w in b'.wallets && SameHolder(b.wallets[w], b'.wallets[w]))
    && (forall p | p in b.debits :: p in b'.debits && b'.debits[p] == b.debits[p])
    && (forall p | p in b.comps :: p in b'.comps && b'.comps[p] == b.comps[p])
    && ReservationsExtend(b, b')
    && (forall k | k in b.entries :: k in b'.entries && b'.entries[k] == b.entries[k])
  }

  ghost predicate ReservationsExtend(b: Bank, b': Bank) {
    forall p | p in b.reservations :: p in b'.reservations && ReservationGrows(b.reservations[p], b'.reservations[p])
  }

  lemma SameRowsExtend(b: Bank, b': Bank)
    requires b'.debits == b.debits && b'.comps == b.comps && b'.entries == b.entries
    requires b'.wallets == b.wallets && ReservationsExtend(b, b')
    ensures Extends(b, b')
  {
  }

  lemma TransferExtends(b: Bank, user: string, from: Id, to: Id, amount: int64)
    ensures Extends(b, CreateTransfer(b, user, from, to, amount).0)
  {
    hide Debited, Credited;
  }

  lemma DebitExtends(b: Bank, cmd: DebitCommand)
    ensures Extends(b, DebitForSaga(b, cmd).0)
  {
    var (b', r) := DebitForSaga(b, cmd);
    if r.Ok? && cmd.pid !in b.debits {
      assert b' == PostDebit(b, cmd, r.value.balanceAfter).0;
    }
  }

  lemma CompensationExtends(b: Bank, cmd: CompensateCommand)
    ensures Extends(b, CompensateDebit(b, cmd).0)
  {
    var (b', r) := CompensateDebit(b, cmd);
    if r.Ok? && cmd.pid !in b.comps {
      assert b' == PostCompensation(b, cmd, b.debits[cmd.pid], r.value.balanceAfter).0;
    }
  }

  lemma ReserveExtends(b: Bank, cmd: ReserveCommand)
    ensures Extends(b, ReserveTransfer(b, cmd).0)
  {
    var b' := ReserveTransfer(b, cmd).0;
    assert ReservationsExtend(b, b');
    SameRowsExtend(b, b');
  }

  lemma ConfirmGrows(b: Bank, cmd: ConfirmCommand)
    ensures ReservationsExtend(b, ConfirmTransfer(b, cmd).0)
  {
  }

  lemma ConfirmExtends(b: Bank, cmd: ConfirmCommand)
    requires LedgerOk(b)
    ensures Extends(b, ConfirmTransfer(b, cmd).0)
  {
    ConfirmGrows(b, cmd);
    var b' := ConfirmTransfer(b, cmd).0;
    if b' != b {
      assert b.nextId !in b.transfers;
      assert b'.debits == b.debits && b'.comps == b.comps && b'.wallets == b.wallets;
    }
  }

  lemma CancelGrows(b: Bank, cmd: CancelCommand)
    ensures ReservationsExtend(b, CancelReservation(b, cmd).0)
  {
  }

  lemma CancelExtends(b: Bank, cmd: CancelCommand)
    ensures Extends(b, CancelReservation(b, cmd).0)
  {
    CancelGrows(b, cmd);
    SameRowsExtend(b, CancelReservation(b, cmd).0);
  }

  lemma AppendExtends(b: Bank, id: Id)
    requires id in b.transfers
    ensures Extends(b, AppendTransferEntries(b, id).0)
  {
  }

  lemma CommandExtends(b: Bank, c: Command)
    requires BankOk(b)
    ensures Extends(b, Apply(b, c))
  {
    match c
    case DoCreateWallet(user, currency) =>
    case DoCreateTransfer(user, from, to, amount) => TransferExtends(b, user, from, to, amount);
    case DoDebit(cmd) => DebitExtends(b, cmd);
    case DoCompensate(cmd) => CompensationExtends(b, cmd);
    case DoReserve(cmd) => ReserveExtends(b, cmd);
    case DoConfirm(cmd) => ConfirmExtends(b, cmd);
    case DoCancel(cmd) => CancelExtends(b, cmd);
    case DoAppend(id) => if id in b.initiated && id in b.transfers { AppendExtends(b, id); }
  }

  lemma ExtendsTransitive(b: Bank, b': Bank, b'': Bank)
    requires Extends(b, b') && Extends(b', b'')
    ensures Extends(b, b'')
  {
  }

  // ----- Whole runs -----

  /** Over every sequence of commands the money in the wallets plus the money debited by
      sagas and not refunded is constant, the tables stay consistent, and rows only grow. */
  lemma {:induction false} RunLaws(b: Bank, cs: seq<Command>)
    requires BankOk(b)
    ensures BankOk(Run(b, cs)) && Extends(b, Run(b, cs)) && Total(Run(b, cs)) == Total(b)
    decreases cs
  {
    if cs != [] {
      var b1 := Apply(b, cs[0]);
      CommandKeeps(b, cs[0]);
      CommandExtends(b, cs[0]);
      CommandConserves(b, cs[0]);
      RunLaws(b1, cs[1..]);
      ExtendsTransitive(b, b1, Run(b1, cs[1..]));
    }
  }

  /** If all the money fits in 64 bits then every credit a command may perform is exact:
      the one of any open saga debit, and the one of any transfer between two wallets. */
  lemma CreditsNeverOverflow(b: Bank, cs: seq<Command>)
    requires BankOk(b) && Total(b) <= MAX_INT64
    ensures var e := Run(b, cs);
      && (forall p | p in e.debits && p !in e.comps ::
            e.debits[p].wallet in e.wallets && e.wallets[e.debits[p].wallet].balance + e.debits[p].amount <= MAX_INT64)
      && (forall v, w | v in e.wallets && w in e.wallets && v != w :: e.wallets[v].balance + e.wallets[w].balance <= MAX_INT64)
  {
    RunLaws(b, cs);
    var e := Run(b, cs);
    forall p | p in e.debits && p !in e.comps
      ensures e.debits[p].wallet in e.wallets && e.wallets[e.debits[p].wallet].balance + e.debits[p].amount <= MAX_INT64
    {
      SumDominates(Balances(e), e.debits[p].wallet);
      SumDominates(OpenDebits(e), p);
    }
    forall v, w | v in e.wallets && w in e.wallets && v != w
      ensures e.wallets[v].balance + e.wallets[w].balance <= MAX_INT64
    {
      SumWithout(Balances(e), v);
      SumDominates(Balances(e) - {v}, w);
      SumNonNegative(OpenDebits(e));
    }
  }

  // ----- Redelivery -----

  /** The command was accepted: it returned no error. */
  ghost predicate Accepted(b: Bank, c: Command) {
    match c
    case DoCreateWallet(_, _) => true
    case DoCreateTransfer(user, from, to, amount) => CreateTransfer(b, user, from, to, amount).1.Ok?
    case DoDebit(cmd) => DebitForSaga(b, cmd).1.Ok?
    case DoCompensate(cmd) => CompensateDebit(b, cmd).1.Ok?
    case DoReserve(cmd) => ReserveTransfer(b, cmd).1.Ok?
    case DoConfirm(cmd) => ConfirmTransfer(b, cmd).1.Ok?
    case DoCancel(cmd) => CancelReservation(b, cmd).1.Ok?
    case DoAppend(id) => id in b.initiated && id in b.transfers && AppendTransferEntries(b, id).1.Ok?
  }

  /** The row a saga command would write is already there. */
  ghost predicate Settled(b: Bank, c: Command) {
    match c
    case DoCreateWallet(_, _) => false
    case DoCreateTransfer(_, _, _, _) => false
    case DoDebit(cmd) => cmd.pid in b.debits
    case DoCompensate(cmd) => cmd.pid in b.comps
    case DoReserve(cmd) => cmd.pid in b.reservations
    case DoConfirm(cmd) => cmd.pid in b.reservations && !b.reservations[cmd.pid].status.Reserved?
    case DoCancel(cmd) => cmd.pid in b.reservations && !b.reservations[cmd.pid].status.Reserved?
    case DoAppend(id) => (id, DebitSide) in b.entries
  }

  lemma WalletSettles(b: Bank, c: Command)
    requires Accepted(b, c) && (c.DoDebit? || c.DoCompensate?)
    ensures Settled(Apply(b, c), c)
  {
    hide NormalizeCurrency, Debited, Credited, KeyTaken;
  }

  lemma LedgerSettles(b: Bank, c: Command)
    requires Accepted(b, c) && (c.DoReserve? || c.DoConfirm? || c.DoCancel?)
    ensures Settled(Apply(b, c), c)
  {
    hide NormalizeCurrency;
  }

  lemma AcceptedSettles(b: Bank, c: Command)
    requires BankOk(b) && Accepted(b, c) && !c.DoCreateWallet? && !c.DoCreateTransfer?
    ensures Settled(Apply(b, c), c)
  {
    if c.DoDebit? || c.DoCompensate? { WalletSettles(b, c); }
    else if !c.DoAppend? { LedgerSettles(b, c); }
    else {
      hide MoneyOk, OwnsTransfer, NormalizeCurrency;
      assert Unposted(b, c.transfer) || Balanced(b, c.transfer);
    }
  }

  lemma SettledIsNoop(b: Bank, c: Command)
    requires Settled(b, c)
    ensures Apply(b, c) == b
  {
  }

  /** A saga or ledger command that was accepted once changes nothing when it is repeated,
      whatever ran in between. */
  lemma RepeatChangesNothing(b: Bank, c: Command, cs: seq<Command>)
    requires BankOk(b) && Accepted(b, c) && !c.DoCreateWallet? && !c.DoCreateTransfer?
    ensures var later := Run(Apply(b, c), cs); Apply(later, c) == later
  {
    AcceptedSettles(b, c);
    CommandKeeps(b, c);
    RunLaws(Apply(b, c), cs);
    SettledIsNoop(Run(Apply(b, c), cs), c);
  }
}
