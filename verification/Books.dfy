/** The chart of accounts, the legs of a transaction, and the linear quantities read off the balances. */
module Books {
  import opened Wrappers
  import opened MapSum

  const CENTRAL_BANK := "bk_cb"
  const TREASURY := "gv_treasury"

  datatype Code = Cash | Dep | Esc | Res | Lnr | Txr | Dpl | Lnp | Iss

  predicate IsLiability(code: Code) {
    code.Dpl? || code.Lnp? || code.Iss?
  }

  datatype AccountId = AccountId(code: Code, owner: string, bank: Option<string>, ref: Option<string>)

  predicate Plain(s: string) {
    s != "" && forall i :: 0 <= i < |s| ==> s[i] != ':' && s[i] != '@' && s[i] != '#'
  }

  predicate ValidId(id: AccountId) {
    && Plain(id.owner)
    && (id.bank.Some? ==> Plain(id.bank.value))
    && (id.ref.Some? ==> Plain(id.ref.value))
    && (id.bank.Some? <==> id.code.Dep? || id.code.Esc?)
    && (id.ref.Some? <==> id.code.Lnr? || id.code.Lnp? || id.code.Esc?)
  }

  lemma {:induction false} TreasuryDepositValid()
    ensures ValidId(TREASURY_DEPOSIT) && ValidId(ISSUANCE) && ValidId(TAX_RECEIVABLE) && TREASURY != CENTRAL_BANK
  {
  }

  function CashOf(owner: string): AccountId { AccountId(Cash, owner, None, None) }
  function DepositAt(owner: string, bank: string): AccountId { AccountId(Dep, owner, Some(bank), None) }
  function ReservesOf(bank: string): AccountId { AccountId(Res, bank, None, None) }
  function DepositsOwedBy(bank: string): AccountId { AccountId(Dpl, bank, None, None) }
  function Receivable(lender: string, loan: string): AccountId { AccountId(Lnr, lender, None, Some(loan)) }
  function Payable(borrower: string, loan: string): AccountId { AccountId(Lnp, borrower, None, Some(loan)) }
  const ISSUANCE := AccountId(Iss, CENTRAL_BANK, None, None)
  const TREASURY_DEPOSIT := DepositAt(TREASURY, CENTRAL_BANK)
  const TAX_RECEIVABLE := AccountId(Txr, TREASURY, None, None)

  /** The bank whose books carry the account, when a bank's do. */
  function BankOf(id: AccountId): Option<string> {
    match id.code
    case Dep | Esc => id.bank
    case Dpl | Res => Some(id.owner)
    case _ => None
  }

  datatype Account = Account(ownerType: string, openedTick: int, closedTick: Option<int>, balance: int,
                             entryBalance: int)

  type Accounts = map<AccountId, Account>

  /** No account has been opened after a tick. */
  predicate NoneLater(accounts: Accounts, tick: int) {
    forall a :: a in accounts ==> accounts[a].openedTick <= tick
  }

  /** A claim on a borrower: outside every bank's deposits and outside base money. */
  predicate IsClaim(id: AccountId) {
    id.code.Lnr? || id.code.Lnp? || id.code.Txr?
  }

  predicate IsOpen(accounts: Accounts, id: AccountId) {
    id in accounts && accounts[id].closedTick == None
  }

  function Balance(accounts: Accounts, id: AccountId): int {
    if id in accounts then accounts[id].balance else 0
  }

  datatype Reason = Transfer | Wage | Purchase | Rent | Trade | Loan | Interest | Dividend | Tax | Inheritance
                  | Fine | WriteOff | Escrow | Issuance | Withdrawal | Unlisted(text: string)

  datatype Leg = Leg(account: AccountId, direction: int, amount: int, reason: Reason)

  function Signed(leg: Leg): int {
    leg.direction * leg.amount
  }

  function Debit(id: AccountId, cents: int, reason: Reason): Leg { Leg(id, -1, cents, reason) }
  function Credit(id: AccountId, cents: int, reason: Reason): Leg { Leg(id, 1, cents, reason) }

  // ---- Effect of a leg list on the balances ----

  function Hit(leg: Leg, id: AccountId): int {
    if leg.account == id then Signed(leg) else 0
  }

  function Delta(legs: seq<Leg>, id: AccountId): int {
    if legs == [] then 0 else Delta(legs[..|legs| - 1], id) + Hit(legs[|legs| - 1], id)
  }

  function Moved(accounts: Accounts, id: AccountId, cents: int): Accounts
    requires id in accounts
  {
    var account := accounts[id];
    accounts[id := account.(balance := account.balance + cents, entryBalance := account.entryBalance + cents)]
  }

  predicate Known(accounts: Accounts, legs: seq<Leg>) {
    forall i :: 0 <= i < |legs| ==> legs[i].account in accounts
  }

  function Posted(accounts: Accounts, legs: seq<Leg>): (after: Accounts)
    requires Known(accounts, legs)
    ensures after.Keys == accounts.Keys
  {
    if legs == [] then accounts
    else
      var last := legs[|legs| - 1];
      Moved(Posted(accounts, legs[..|legs| - 1]), last.account, Signed(last))
  }

  lemma {:induction false} PostedAt(accounts: Accounts, legs: seq<Leg>, id: AccountId)
    requires Known(accounts, legs) && id in accounts
    ensures Posted(accounts, legs)[id] == accounts[id].(balance := accounts[id].balance + Delta(legs, id),
                                                         entryBalance := accounts[id].entryBalance + Delta(legs, id))
  {
    if legs != [] {
      PostedAt(accounts, legs[..|legs| - 1], id);
    }
  }

  lemma {:induction false} UntouchedDelta(legs: seq<Leg>, id: AccountId)
    requires forall i :: 0 <= i < |legs| ==> legs[i].account != id
    ensures Delta(legs, id) == 0
  {
    if legs != [] {
      UntouchedDelta(legs[..|legs| - 1], id);
    }
  }

  // ---- Linear quantities ----

  /** Sums of balances that the repository's invariants and ratios speak of. */
  datatype Quantity =
    | GlobalSum
    | BaseMoney
    | MoneyOutside
    | Currency
    | BankDeposits(bank: string)
    | CustomerClaims(bank: string)
    | OwedToCustomers(bank: string)
    | NetWorth(owner: string)
    | LiquidOf(owner: string)
    | EstateLiquid(owner: string)

  predicate InBaseMoney(id: AccountId) {
    id.code.Cash? || (id.code.Res? && id.owner != CENTRAL_BANK) || id == TREASURY_DEPOSIT
  }

  predicate Counts(q: Quantity, id: AccountId) {
    match q
    case GlobalSum => true
    case BaseMoney => InBaseMoney(id) || id == ISSUANCE
    case MoneyOutside => InBaseMoney(id)
    case Currency => id.code.Cash?
    case BankDeposits(bank) => ((id.code.Dep? || id.code.Esc?) && id.bank == Some(bank)) || id == DepositsOwedBy(bank)
    case CustomerClaims(bank) => (id.code.Dep? || id.code.Esc?) && id.bank == Some(bank)
    case OwedToCustomers(bank) =>
      ((id.code.Dep? || id.code.Esc?) && id.bank == Some(bank) && id.owner != TREASURY) || id == DepositsOwedBy(bank)
    case NetWorth(owner) => id.owner == owner
    case LiquidOf(owner) => id.owner == owner && (id.code.Cash? || id.code.Dep?)
    case EstateLiquid(owner) => id.owner == owner && (id.code.Cash? || id.code.Dep? || id.code.Esc?)
  }

  ghost function Counted(q: Quantity, accounts: Accounts): map<AccountId, int> {
    map id | id in accounts && Counts(q, id) :: accounts[id].balance
  }

  ghost function Measure(q: Quantity, accounts: Accounts): int {
    Sum(Counted(q, accounts))
  }

  function Term(q: Quantity, leg: Leg): int {
    if Counts(q, leg.account) then Signed(leg) else 0
  }

  /** What a leg list adds to a quantity. */
  function Image(q: Quantity, legs: seq<Leg>): int {
    if legs == [] then 0 else Image(q, legs[..|legs| - 1]) + Term(q, legs[|legs| - 1])
  }

  lemma {:induction false} MovedMeasure(q: Quantity, accounts: Accounts, id: AccountId, cents: int)
    requires id in accounts
    ensures Measure(q, Moved(accounts, id, cents)) == Measure(q, accounts) + if Counts(q, id) then cents else 0
  {
    var after := Moved(accounts, id, cents);
    if Counts(q, id) {
      assert Counted(q, after) == Counted(q, accounts)[id := after[id].balance];
      SumUpdate(Counted(q, accounts), id, after[id].balance);
    } else {
      assert Counted(q, after) == Counted(q, accounts);
    }
  }

  /** Posting moves every quantity by exactly the image of its legs. */
  lemma {:induction false} PostedMeasure(q: Quantity, accounts: Accounts, legs: seq<Leg>)
    requires Known(accounts, legs)
    ensures Measure(q, Posted(accounts, legs)) == Measure(q, accounts) + Image(q, legs)
  {
    if legs != [] {
      var init, last := legs[..|legs| - 1], legs[|legs| - 1];
      PostedMeasure(q, accounts, init);
      MovedMeasure(q, Posted(accounts, init), last.account, Signed(last));
    }
  }

  /** A new account with nothing on it changes no quantity. */
  lemma {:induction false} OpenedMeasure(q: Quantity, accounts: Accounts, id: AccountId, account: Account)
    requires id !in accounts && account.balance == 0
    ensures Measure(q, accounts[id := account]) == Measure(q, accounts)
  {
    var after := accounts[id := account];
    if Counts(q, id) {
      assert Counted(q, after) == Counted(q, accounts)[id := 0];
      SumUpdate(Counted(q, accounts), id, 0);
    } else {
      assert Counted(q, after) == Counted(q, accounts);
    }
  }

  lemma {:induction false} SameBalancesMeasure(q: Quantity, before: Accounts, after: Accounts)
    requires before.Keys == after.Keys && forall id :: id in before ==> before[id].balance == after[id].balance
    ensures Measure(q, before) == Measure(q, after)
  {
    assert Counted(q, before) == Counted(q, after);
  }

  /** When only one of the counted accounts has moved, the quantity has moved with it. */
  lemma {:induction false} MeasureShift(q: Quantity, before: Accounts, after: Accounts, id: AccountId, cents: int)
    requires before.Keys == after.Keys
    requires forall a :: a in before && Counts(q, a) && a != id ==> after[a].balance == before[a].balance
    requires if id in before && Counts(q, id) then after[id].balance == before[id].balance + cents else cents == 0
    ensures Measure(q, after) == Measure(q, before) + cents
  {
    hide Counts, Sum;
    if id in before && Counts(q, id) {
      assert Counted(q, after) == Counted(q, before)[id := after[id].balance];
      SumUpdate(Counted(q, before), id, after[id].balance);
    } else {
      assert Counted(q, after) == Counted(q, before);
    }
  }
}
