/** Values shared by the wallet and ledger services: identifiers, 64-bit money
    arithmetic, currencies and the errors a command can return. */
module Domain {

  /** A UUID; `NIL` is the all-zero UUID, which the services read as "absent". */
  type Id = nat
  const NIL: Id := 0

  /** The text form of a payment's UUID; "" is absent. */
  type PaymentId = string

  const MAX_INT64: int := 0x7FFF_FFFF_FFFF_FFFF
  type int64 = x: int | -MAX_INT64 - 1 <= x <= MAX_INT64

  datatype Option<+T> = None | Some(value: T)

  datatype Error =
    | InvalidAmount
    | InvalidTransfer
    | InsufficientFunds
    | CurrencyMismatch
    | UnsupportedCurrency
    | NotFound
    | DebitNotFound
    | AlreadyExists
    | FailedPrecondition
    | ConstraintViolation // a schema CHECK or UNIQUE constraint refused the row

  datatype Result<+T> = Ok(value: T) | Err(error: Error)

  /** Two's-complement wrap-around of a 64-bit addition or subtraction. */
  function Wrap64(x: int): (r: int64)
    ensures -MAX_INT64 - 1 <= x <= MAX_INT64 ==> r == x
    ensures MAX_INT64 < x <= 2 * MAX_INT64 ==> r < 0
  {
    (x + MAX_INT64 + 1) % (2 * MAX_INT64 + 2) - MAX_INT64 - 1
  }

  /** The balance after `Wallet.Debit`: refused rather than overdrawn. */
  function Debited(balance: int64, amount: int64): (r: Result<int64>)
    ensures r.Ok? <==> 0 < amount <= balance
    ensures r.Ok? ==> 0 <= r.value < balance && r.value + amount == balance
  {
    if amount <= 0 then Err(InvalidAmount)
    else if balance < amount then Err(InsufficientFunds)
    else Ok(Wrap64(balance - amount))
  }

  /** The balance after `Wallet.Credit`: 64-bit addition, unchecked. */
  function Credited(balance: int64, amount: int64): (r: Result<int64>)
    ensures r.Ok? <==> 0 < amount
    ensures r.Ok? && balance + amount <= MAX_INT64 ==> r.value == balance + amount
    ensures r.Ok? && 0 <= balance && MAX_INT64 < balance + amount ==> r.value < 0
  {
    if amount <= 0 then Err(InvalidAmount) else Ok(Wrap64(balance + amount))
  }

  const DEFAULT_CURRENCY := "USD"

  /** White space as Unicode has it. */
  predicate IsBlank(c: char) {
    || '\t' <= c <= '\r' || c == ' ' || c == '\U{0085}' || c == '\U{00A0}' || c == '\U{1680}' || '\U{2000}' <= c <= '\U{200A}'
    || '\U{2028}' <= c <= '\U{2029}' || c == '\U{202F}' || c == '\U{205F}' || c == '\U{3000}'
  }

  function TrimLeft(s: string): string {
    if s != "" && IsBlank(s[0]) then TrimLeft(s[1..]) else s
  }

  function TrimRight(s: string): string {
    if s != "" && IsBlank(s[|s| - 1]) then TrimRight(s[..|s| - 1]) else s
  }

  /** Upper case of the characters whose upper case is an ASCII letter; one of them, the long
      s, and the dotless i are not ASCII themselves. */
  function Upper(s: string): string {
    seq(|s|, i requires 0 <= i < |s| =>
      if 'a' <= s[i] <= 'z' then 'A' + (s[i] - 'a')
      else if s[i] == '\U{017F}' then 'S' else if s[i] == '\U{0131}' then 'I' else s[i])
  }

  /** Only US dollars are supported, and a blank currency means US dollars. */
  function NormalizeCurrency(currency: string): (r: Result<string>)
    ensures r.Ok? ==> r.value == DEFAULT_CURRENCY
  {
    var normalized := Upper(TrimRight(TrimLeft(currency)));
    if normalized == "" || normalized == DEFAULT_CURRENCY then Ok(DEFAULT_CURRENCY)
    else Err(UnsupportedCurrency)
  }

  predicate Blank(s: string) { forall i | 0 <= i < |s| :: IsBlank(s[i]) }

  lemma {:induction false} TrimLeftSplits(s: string) returns (i: nat)
    ensures i <= |s| && Blank(s[..i]) && TrimLeft(s) == s[i..] && (i < |s| ==> !IsBlank(s[i]))
    decreases s
  {
    if s != "" && IsBlank(s[0]) {
      var k := TrimLeftSplits(s[1..]);
      i := k + 1;
      assert s[..i] == [s[0]] + s[1..][..k];
    } else {
      i := 0;
    }
  }

  lemma {:induction false} TrimRightSplits(s: string) returns (j: nat)
    ensures j <= |s| && Blank(s[j..]) && TrimRight(s) == s[..j] && (j > 0 ==> !IsBlank(s[j - 1]))
    decreases s
  {
    if s != "" && IsBlank(s[|s| - 1]) {
      j := TrimRightSplits(s[..|s| - 1]);
      assert s[j..] == s[..|s| - 1][j..] + [s[|s| - 1]];
    } else {
      j := |s|;
    }
  }

  /** Trimming takes exactly the surrounding blanks. */
  lemma TrimTakesBlanks(s: string, i: nat, j: nat)
    requires i < j <= |s| && Blank(s[..i]) && Blank(s[j..]) && !IsBlank(s[i]) && !IsBlank(s[j - 1])
    ensures TrimRight(TrimLeft(s)) == s[i..j]
  {
    var a := TrimLeftSplits(s);
    BlankUpTo(s, i);
    BlankUpTo(s, a);
    assert a == i;
    var t := s[i..];
    var b := TrimRightSplits(t);
    BlankFrom(s, j);
    BlankFrom(t, b);
    assert forall k | 0 <= k < |t| :: t[k] == s[i + k];
    assert t[j - i - 1] == s[j - 1];
    assert b == j - i;
  }

  lemma BlankUpTo(s: string, i: nat)
    requires i <= |s| && Blank(s[..i])
    ensures forall k | 0 <= k < i :: IsBlank(s[k])
  {
    forall k | 0 <= k < i ensures IsBlank(s[k]) { assert s[..i][k] == s[k]; }
  }

  lemma BlankFrom(s: string, j: nat)
    requires j <= |s| && Blank(s[j..])
    ensures forall k | j <= k < |s| :: IsBlank(s[k])
  {
    forall k | j <= k < |s| ensures IsBlank(s[k]) { assert s[j..][k - j] == s[k]; }
  }

  lemma TrimOfBlank(s: string)
    ensures TrimRight(TrimLeft(s)) == "" <==> Blank(s)
  {
    var a := TrimLeftSplits(s);
    var b := TrimRightSplits(s[a..]);
    assert a < |s| ==> !Blank(s);
    if b == 0 { assert s == s[..a] + s[a..]; }
  }

  /** The three letters, in either case; the long s has S as its upper case. */
  predicate IsDollars(s: string) {
    |s| == 3 && s[0] in "uU" && s[1] in "sS\U{017F}" && s[2] in "dD"
  }

  lemma UpperIsDollars(s: string)
    ensures Upper(s) == DEFAULT_CURRENCY <==> IsDollars(s)
  {
    if |s| == 3 {
      assert Upper(s) == [Upper(s)[0], Upper(s)[1], Upper(s)[2]];
    }
  }

  /** A currency is accepted exactly when it is blank or, but for surrounding blanks and case, USD. */
  lemma CurrencyAcceptedIff(currency: string)
    ensures NormalizeCurrency(currency).Ok? <==>
      Blank(currency) || exists i, j | 0 <= i < j <= |currency| :: Blank(currency[..i]) && Blank(currency[j..]) && IsDollars(currency[i..j])
  {
    TrimOfBlank(currency);
    var a := TrimLeftSplits(currency);
    var b := TrimRightSplits(currency[a..]);
    var trimmed := TrimRight(TrimLeft(currency));
    UpperIsDollars(trimmed);
    if NormalizeCurrency(currency).Ok? && !Blank(currency) {
      assert currency[a..a + b] == trimmed && currency[a + b..] == currency[a..][b..];
    }
    forall i, j | 0 <= i < j <= |currency| && Blank(currency[..i]) && Blank(currency[j..]) && IsDollars(currency[i..j])
      ensures NormalizeCurrency(currency).Ok?
    {
      assert currency[i] == currency[i..j][0] && currency[j - 1] == currency[i..j][2];
      TrimTakesBlanks(currency, i, j);
    }
  }

  lemma DollarsAreNormal()
    ensures NormalizeCurrency(DEFAULT_CURRENCY) == Ok(DEFAULT_CURRENCY)
  {
    assert !IsBlank('U') && !IsBlank('D');
    assert Upper("USD") == "USD";
  }

  lemma NormalizeIsIdempotent(currency: string)
    requires NormalizeCurrency(currency).Ok?
    ensures NormalizeCurrency(NormalizeCurrency(currency).value) == NormalizeCurrency(currency)
  {
    DollarsAreNormal();
  }
}
