/** The leg lists every institution posts, and what each does to the closure quantities. */
module Builders {
  import opened Wrappers
  import opened Books
  import opened Posting
  import opened LegLists

  // ---- Transfers between customers (ledger) ----

  predicate IsPurse(id: AccountId) {
    id.code.Cash? || id.code.Dep? || id.code.Esc?
  }

  function CrossBankLegs(src: AccountId, dst: AccountId, from: string, to: string, cents: int,
                         reason: Reason): seq<Leg> {
    [Debit(src, cents, reason), Credit(DepositsOwedBy(from), cents, reason), Debit(ReservesOf(from), cents, reason),
     Credit(ReservesOf(to), cents, reason), Debit(DepositsOwedBy(to), cents, reason), Credit(dst, cents, reason)]
  }

  function TransferLegs(src: AccountId, dst: AccountId, cents: int, reason: Reason): Result<seq<Leg>, Rule> {
    if cents <= 0 || !ValidId(src) || !ValidId(dst) || !IsPurse(src) || !IsPurse(dst) then Failure(BadTransfer)
    else if BankOf(src) == BankOf(dst) then Success([Debit(src, cents, reason), Credit(dst, cents, reason)])
    else if BankOf(src) == None || BankOf(dst) == None then Failure(BadTransfer)
    else Success(CrossBankLegs(src, dst, BankOf(src).value, BankOf(dst).value, cents, reason))
  }

  // ---- Treasury (fiscal) ----

  function GovernmentTransferLegs(recipient: AccountId, cents: int): Result<seq<Leg>, Rule> {
    match BankOf(recipient)
    case None => Failure(BadTransfer)
    case Some(bank) =>
      if bank == CENTRAL_BANK then
        Success([Debit(TREASURY_DEPOSIT, cents, Transfer), Credit(recipient, cents, Transfer)])
      else
        Success([Debit(TREASURY_DEPOSIT, cents, Transfer), Credit(ReservesOf(bank), cents, Transfer),
                 Debit(DepositsOwedBy(bank), cents, Transfer), Credit(recipient, cents, Transfer)])
  }

  function TaxCollectionLegs(taxpayer: AccountId, cents: int): Result<seq<Leg>, Rule> {
    match BankOf(taxpayer)
    case None => Failure(BadTransfer)
    case Some(bank) =>
      if bank == CENTRAL_BANK then
        Success([Debit(taxpayer, cents, Tax), Credit(TREASURY_DEPOSIT, cents, Tax)])
      else
        Success([Debit(taxpayer, cents, Tax), Credit(DepositsOwedBy(bank), cents, Tax),
                 Debit(ReservesOf(bank), cents, Tax), Credit(TREASURY_DEPOSIT, cents, Tax)])
  }

  function ArrearsLegs(payable: AccountId, cents: int): seq<Leg> {
    [Credit(TAX_RECEIVABLE, cents, Tax), Debit(payable, cents, Tax)]
  }

  /** A payment out of the treasury straight into a bank's reserves: coupon, redemption or deposit insurance. */
  function ReservePaymentLegs(bank: string, cents: int, reason: Reason): seq<Leg> {
    [Debit(TREASURY_DEPOSIT, cents, reason), Credit(ReservesOf(bank), cents, reason)]
  }

  // ---- Credit ----

  function OriginationLegs(lender: string, deposit: AccountId, receivable: AccountId, payable: AccountId,
                           cents: int): seq<Leg> {
    [Credit(receivable, cents, Loan), Debit(DepositsOwedBy(lender), cents, Loan), Credit(deposit, cents, Loan),
     Debit(payable, cents, Loan)]
  }

  function PaymentLegs(lender: string, deposit: AccountId, receivable: AccountId, payable: AccountId, principal: int,
                       due: int): seq<Leg> {
    [Debit(deposit, due, Loan), Credit(DepositsOwedBy(lender), due, Loan),
     Debit(receivable, principal, Loan), Credit(payable, principal, Loan)]
  }

  function ArrearsPaymentLegs(bank: string, deposit: AccountId, treasury: AccountId, receivable: AccountId,
                              payable: AccountId,
                              principal: int, due: int): seq<Leg> {
    [Debit(deposit, due, Tax), Credit(DepositsOwedBy(bank), due, Tax), Debit(ReservesOf(bank), due, Tax),
     Credit(treasury, due, Tax), Debit(receivable, principal, Loan), Credit(payable, principal, Loan)]
  }

  /** The two sides of a claim moved together: interest added to a debt, or a loss booked. */
  function ClaimLegs(receivable: AccountId, payable: AccountId, cents: int, reason: Reason, up: bool): seq<Leg> {
    if up then [Credit(receivable, cents, reason), Debit(payable, cents, reason)]
    else [Debit(receivable, cents, reason), Credit(payable, cents, reason)]
  }

  // ---- Interbank market and resolution (central) ----

  function InterbankLegs(lender: string, borrower: string, receivable: AccountId, payable: AccountId,
                         cents: int): seq<Leg> {
    [Debit(ReservesOf(lender), cents, Loan), Credit(ReservesOf(borrower), cents, Loan),
     Credit(receivable, cents, Loan), Debit(payable, cents, Loan)]
  }

  function DiscountWindowLegs(borrower: string, receivable: AccountId, payable: AccountId, cents: int): seq<Leg> {
    [Credit(ReservesOf(borrower), cents, Issuance), Debit(ISSUANCE, cents, Issuance),
     Credit(receivable, cents, Issuance), Debit(payable, cents, Issuance)]
  }

  /** A loan passing to another lender at face, with nothing paid. */
  function ClaimSwapLegs(prior: AccountId, next: AccountId, cents: int): seq<Leg> {
    [Debit(prior, cents, Loan), Credit(next, cents, Loan)]
  }

  function LoanSaleLegs(seller: string, buyer: string, prior: AccountId, next: AccountId, face: int,
                        price: int): seq<Leg> {
    [Debit(prior, face, Loan), Credit(next, face, Loan), Debit(ReservesOf(buyer), price, Transfer),
     Credit(ReservesOf(seller), price, Transfer)]
  }

  function LoanPurchaseByIssueLegs(seller: string, prior: AccountId, next: AccountId, face: int, price: int): seq<Leg> {
    [Debit(prior, face, Loan), Credit(next, face, Loan), Credit(ReservesOf(seller), price, Issuance),
     Debit(ISSUANCE, price, Issuance)]
  }

  function HaircutLegs(bank: string, claim: AccountId, cents: int): seq<Leg> {
    [Debit(claim, cents, WriteOff), Credit(DepositsOwedBy(bank), cents, WriteOff)]
  }

  function AssumptionLegs(failed: string, buyer: string, claim: AccountId, destination: AccountId,
                          cents: int): seq<Leg> {
    [Debit(claim, cents, Transfer), Credit(DepositsOwedBy(failed), cents, Transfer),
     Debit(DepositsOwedBy(buyer), cents, Transfer), Credit(destination, cents, Transfer)]
  }

  function ReserveSweepLegs(failed: string, buyer: string, cents: int): seq<Leg> {
    [Debit(ReservesOf(failed), cents, Transfer), Credit(ReservesOf(buyer), cents, Transfer)]
  }

  // ---- Banking ----

  function WithdrawalLegs(bank: string, deposit: AccountId, cash: AccountId, cents: int): seq<Leg> {
    [Debit(deposit, cents, Withdrawal), Credit(DepositsOwedBy(bank), cents, Withdrawal),
     Debit(ReservesOf(bank), cents, Withdrawal), Credit(cash, cents, Withdrawal)]
  }

  /** One credit for each (account, cents) pair, in order. */
  function CreditsTo(parts: seq<(AccountId, int)>, reason: Reason): (legs: seq<Leg>)
    ensures |legs| == |parts|
  {
    seq(|parts|, i requires 0 <= i < |parts| => Credit(parts[i].0, parts[i].1, reason))
  }

  function DebitsFrom(parts: seq<(AccountId, int)>, reason: Reason): (legs: seq<Leg>)
    ensures |legs| == |parts|
  {
    seq(|parts|, i requires 0 <= i < |parts| => Debit(parts[i].0, parts[i].1, reason))
  }

  function PartsTotal(parts: seq<(AccountId, int)>): int {
    if parts == [] then 0 else PartsTotal(parts[..|parts| - 1]) + parts[|parts| - 1].1
  }

  function DepositInterestLegs(bank: string, credits: seq<(AccountId, int)>): seq<Leg> {
    CreditsTo(credits, Interest) + [Debit(DepositsOwedBy(bank), PartsTotal(credits), Interest)]
  }

  function BondAuctionLegs(face: int, tranches: seq<(AccountId, int)>): seq<Leg> {
    [Credit(TREASURY_DEPOSIT, face, Transfer)] + DebitsFrom(tranches, Transfer)
  }

  // ---- Closure of each builder ----

  /** A purse at the central bank that the base-money count does not see. */
  predicate OffBook(id: AccountId) {
    BankOf(id) == Some(CENTRAL_BANK) && id != TREASURY_DEPOSIT
  }

  /** What a transfer does to base money: nothing, unless exactly one side is an uncounted central-bank purse. */
  lemma {:induction false} TransferImage(src: AccountId, dst: AccountId, cents: int, reason: Reason)
    requires TransferLegs(src, dst, cents, reason).Success?
    ensures var legs := TransferLegs(src, dst, cents, reason).value;
      && Image(GlobalSum, legs) == 0
      && (forall bank :: bank != CENTRAL_BANK ==> Image(BankDeposits(bank), legs) == 0)
      && Image(BaseMoney, legs) == (if OffBook(src) then cents else 0) - (if OffBook(dst) then cents else 0)
  {
    if BankOf(src) == BankOf(dst) {
      TwoLegs(Debit(src, cents, reason), Credit(dst, cents, reason));
    } else {
      var from, to := BankOf(src).value, BankOf(dst).value;
      SixLegs(Debit(src, cents, reason), Credit(DepositsOwedBy(from), cents, reason),
              Debit(ReservesOf(from), cents, reason),
              Credit(ReservesOf(to), cents, reason), Debit(DepositsOwedBy(to), cents, reason), Credit(dst, cents,
                     reason));
    }
  }

  lemma {:induction false} TransferClosed(src: AccountId, dst: AccountId, cents: int, reason: Reason)
    requires TransferLegs(src, dst, cents, reason).Success?
    ensures ClosedLegs(TransferLegs(src, dst, cents, reason).value) <==> (OffBook(src) <==> OffBook(dst))
  {
    TransferImage(src, dst, cents, reason);
    assert MustBeZero(BaseMoney);
    if OffBook(src) <==> OffBook(dst) {
      forall q | MustBeZero(q) ensures Image(q, TransferLegs(src, dst, cents, reason).value) == 0 {
        match q
        case GlobalSum =>
        case BaseMoney =>
        case BankDeposits(bank) =>
      }
    }
  }

  lemma {:induction false} GovernmentTransferClosed(recipient: AccountId, cents: int)
    requires GovernmentTransferLegs(recipient, cents).Success? && ValidId(recipient) && IsPurse(recipient)
    ensures cents != 0 ==> (ClosedLegs(GovernmentTransferLegs(recipient, cents).value) <==> !OffBook(recipient))
  {
    var bank := BankOf(recipient).value;
    assert MustBeZero(BaseMoney);
    if bank == CENTRAL_BANK {
      TwoLegs(Debit(TREASURY_DEPOSIT, cents, Transfer), Credit(recipient, cents, Transfer));
    } else {
      FourLegs(Debit(TREASURY_DEPOSIT, cents, Transfer), Credit(ReservesOf(bank), cents, Transfer),
               Debit(DepositsOwedBy(bank), cents, Transfer), Credit(recipient, cents, Transfer));
    }
  }

  lemma {:induction false} TaxCollectionClosed(taxpayer: AccountId, cents: int)
    requires TaxCollectionLegs(taxpayer, cents).Success? && ValidId(taxpayer) && IsPurse(taxpayer)
    ensures cents != 0 ==> (ClosedLegs(TaxCollectionLegs(taxpayer, cents).value) <==> !OffBook(taxpayer))
  {
    var bank := BankOf(taxpayer).value;
    assert MustBeZero(BaseMoney);
    if bank == CENTRAL_BANK {
      TwoLegs(Debit(taxpayer, cents, Tax), Credit(TREASURY_DEPOSIT, cents, Tax));
    } else {
      FourLegs(Debit(taxpayer, cents, Tax), Credit(DepositsOwedBy(bank), cents, Tax),
               Debit(ReservesOf(bank), cents, Tax), Credit(TREASURY_DEPOSIT, cents, Tax));
    }
  }

  /** Coupons, redemptions and insurance keep base money exactly when they reach a commercial bank. */
  lemma {:induction false} ReservePaymentClosed(bank: string, cents: int, reason: Reason)
    ensures cents != 0 ==> (ClosedLegs(ReservePaymentLegs(bank, cents, reason)) <==> bank != CENTRAL_BANK)
    ensures Image(BaseMoney, ReservePaymentLegs(bank, cents, reason)) == if bank == CENTRAL_BANK then -cents else 0
  {
    TwoLegs(Debit(TREASURY_DEPOSIT, cents, reason), Credit(ReservesOf(bank), cents, reason));
    assert MustBeZero(BaseMoney);
  }

  predicate HeldAt(id: AccountId, bank: string) {
    (id.code.Dep? || id.code.Esc?) && id.bank == Some(bank)
  }

  lemma {:induction false} OriginationClosed(lender: string, deposit: AccountId, receivable: AccountId,
                                             payable: AccountId, cents: int)
    requires lender != CENTRAL_BANK && HeldAt(deposit, lender) && IsClaim(receivable) && IsClaim(payable)
    ensures ClosedLegs(OriginationLegs(lender, deposit, receivable, payable, cents))
  {
    FourLegs(Credit(receivable, cents, Loan), Debit(DepositsOwedBy(lender), cents, Loan), Credit(deposit, cents, Loan),
             Debit(payable, cents, Loan));
  }

  lemma {:induction false} PaymentClosed(lender: string, deposit: AccountId, receivable: AccountId, payable: AccountId,
                                         principal: int, due: int)
    requires lender != CENTRAL_BANK && HeldAt(deposit, lender) && IsClaim(receivable) && IsClaim(payable)
    ensures ClosedLegs(PaymentLegs(lender, deposit, receivable, payable, principal, due))
  {
    FourLegs(Debit(deposit, due, Loan), Credit(DepositsOwedBy(lender), due, Loan),
             Debit(receivable, principal, Loan), Credit(payable, principal, Loan));
  }

  /** An arrears payment lands outside base money, and outside its bank's books, unless the treasury's account is the
      one at the central bank. */
  lemma {:induction false} ArrearsPaymentClosed(bank: string, deposit: AccountId, treasury: AccountId,
                                                receivable: AccountId,
                                                payable: AccountId, principal: int, due: int)
    requires bank != CENTRAL_BANK && HeldAt(deposit, bank) && IsClaim(receivable) && IsClaim(payable)
    requires due != 0 && ValidId(treasury) && treasury.code.Dep? && treasury.owner == TREASURY && ValidId(deposit)
    requires deposit != treasury
    ensures ClosedLegs(ArrearsPaymentLegs(bank, deposit, treasury, receivable, payable, principal, due)) <==>
      treasury == TREASURY_DEPOSIT
    ensures Image(BaseMoney, ArrearsPaymentLegs(bank, deposit, treasury, receivable, payable, principal, due))
         == if treasury == TREASURY_DEPOSIT then 0 else -due
  {
    SixLegs(Debit(deposit, due, Tax), Credit(DepositsOwedBy(bank), due, Tax), Debit(ReservesOf(bank), due, Tax),
            Credit(treasury, due, Tax), Debit(receivable, principal, Loan), Credit(payable, principal, Loan));
    assert MustBeZero(BaseMoney);
  }

  lemma {:induction false} ClaimClosed(receivable: AccountId, payable: AccountId, cents: int, reason: Reason, up: bool)
    requires IsClaim(receivable) && IsClaim(payable)
    ensures ClosedLegs(ClaimLegs(receivable, payable, cents, reason, up))
    ensures ClaimLegs(TAX_RECEIVABLE, payable, cents, Tax, true) == ArrearsLegs(payable, cents)
  {
    TwoLegs(Credit(receivable, cents, reason), Debit(payable, cents, reason));
    TwoLegs(Debit(receivable, cents, reason), Credit(payable, cents, reason));
  }

  lemma {:induction false} InterbankClosed(lender: string, borrower: string, receivable: AccountId, payable: AccountId,
                                           cents: int)
    requires lender != CENTRAL_BANK && borrower != CENTRAL_BANK && IsClaim(receivable) && IsClaim(payable)
    ensures ClosedLegs(InterbankLegs(lender, borrower, receivable, payable, cents))
    ensures receivable.owner == lender && payable.owner == borrower ==>
      forall b :: Image(NetWorth(b), InterbankLegs(lender, borrower, receivable, payable, cents)) == 0
  {
    FourLegs(Debit(ReservesOf(lender), cents, Loan), Credit(ReservesOf(borrower), cents, Loan),
             Credit(receivable, cents, Loan), Debit(payable, cents, Loan));
  }

  lemma {:induction false} DiscountWindowClosed(borrower: string, receivable: AccountId, payable: AccountId, cents: int)
    requires borrower != CENTRAL_BANK && IsClaim(receivable) && IsClaim(payable)
    ensures ClosedLegs(DiscountWindowLegs(borrower, receivable, payable, cents))
    ensures Image(MoneyOutside, DiscountWindowLegs(borrower, receivable, payable, cents)) == cents
    ensures receivable.owner == CENTRAL_BANK && payable.owner == borrower ==>
      forall b :: Image(NetWorth(b), DiscountWindowLegs(borrower, receivable, payable, cents)) == 0
  {
    FourLegs(Credit(ReservesOf(borrower), cents, Issuance), Debit(ISSUANCE, cents, Issuance),
             Credit(receivable, cents, Issuance), Debit(payable, cents, Issuance));
  }

  lemma {:induction false} ClaimSwapClosed(prior: AccountId, next: AccountId, cents: int)
    requires IsClaim(prior) && IsClaim(next)
    ensures ClosedLegs(ClaimSwapLegs(prior, next, cents))
  {
    TwoLegs(Debit(prior, cents, Loan), Credit(next, cents, Loan));
  }

  lemma {:induction false} LoanSaleClosed(seller: string, buyer: string, prior: AccountId, next: AccountId, face: int,
                                          price: int)
    requires seller != CENTRAL_BANK && IsClaim(prior) && IsClaim(next)
    ensures buyer != CENTRAL_BANK ==> ClosedLegs(LoanSaleLegs(seller, buyer, prior, next, face, price))
    ensures ClosedLegs(LoanPurchaseByIssueLegs(seller, prior, next, face, price))
    ensures Image(MoneyOutside, LoanPurchaseByIssueLegs(seller, prior, next, face, price)) == price
  {
    FourLegs(Debit(prior, face, Loan), Credit(next, face, Loan), Debit(ReservesOf(buyer), price, Transfer),
             Credit(ReservesOf(seller), price, Transfer));
    FourLegs(Debit(prior, face, Loan), Credit(next, face, Loan), Credit(ReservesOf(seller), price, Issuance),
             Debit(ISSUANCE, price, Issuance));
  }

  lemma {:induction false} HaircutClosed(bank: string, claim: AccountId, cents: int)
    requires bank != CENTRAL_BANK && HeldAt(claim, bank)
    ensures ClosedLegs(HaircutLegs(bank, claim, cents))
  {
    TwoLegs(Debit(claim, cents, WriteOff), Credit(DepositsOwedBy(bank), cents, WriteOff));
  }

  lemma {:induction false} AssumptionClosed(failed: string, buyer: string, claim: AccountId, destination: AccountId,
                                            cents: int)
    requires failed != CENTRAL_BANK && buyer != CENTRAL_BANK && HeldAt(claim, failed) && HeldAt(destination, buyer)
    ensures ClosedLegs(AssumptionLegs(failed, buyer, claim, destination, cents))
  {
    FourLegs(Debit(claim, cents, Transfer), Credit(DepositsOwedBy(failed), cents, Transfer),
             Debit(DepositsOwedBy(buyer), cents, Transfer), Credit(destination, cents, Transfer));
  }

  lemma {:induction false} ReserveSweepClosed(failed: string, buyer: string, cents: int)
    requires failed != CENTRAL_BANK && buyer != CENTRAL_BANK
    ensures ClosedLegs(ReserveSweepLegs(failed, buyer, cents))
  {
    TwoLegs(Debit(ReservesOf(failed), cents, Transfer), Credit(ReservesOf(buyer), cents, Transfer));
  }

  lemma {:induction false} WithdrawalClosed(bank: string, deposit: AccountId, cash: AccountId, cents: int)
    requires bank != CENTRAL_BANK && HeldAt(deposit, bank) && cash.code.Cash?
    ensures ClosedLegs(WithdrawalLegs(bank, deposit, cash, cents))
  {
    FourLegs(Debit(deposit, cents, Withdrawal), Credit(DepositsOwedBy(bank), cents, Withdrawal),
             Debit(ReservesOf(bank), cents, Withdrawal), Credit(cash, cents, Withdrawal));
  }

  // ---- Lists of any length ----

  function PartsImage(q: Quantity, parts: seq<(AccountId, int)>): int {
    if parts == [] then 0
    else
      var last := parts[|parts| - 1];
      PartsImage(q, parts[..|parts| - 1]) + if Counts(q, last.0) then last.1 else 0
  }

  lemma {:induction false} PartLegsImage(q: Quantity, parts: seq<(AccountId, int)>, reason: Reason)
    ensures Image(q, CreditsTo(parts, reason)) == PartsImage(q, parts)
    ensures Image(q, DebitsFrom(parts, reason)) == -PartsImage(q, parts)
  {
    hide Counts;
    if parts != [] {
      PartLegsImage(q, parts[..|parts| - 1], reason);
      var credits, debits := CreditsTo(parts, reason), DebitsFrom(parts, reason);
      assert credits[..|credits| - 1] == CreditsTo(parts[..|parts| - 1], reason);
      assert debits[..|debits| - 1] == DebitsFrom(parts[..|parts| - 1], reason);
    }
  }

  lemma {:induction false} ImageConcat(q: Quantity, first: seq<Leg>, second: seq<Leg>)
    ensures Image(q, first + second) == Image(q, first) + Image(q, second)
  {
    if second == [] {
      assert first + second == first;
    } else {
      var init, last := second[..|second| - 1], second[|second| - 1];
      ImageConcat(q, first, init);
      assert (first + second)[..|first + second| - 1] == first + init;
    }
  }

  lemma {:induction false} PartsImageUniform(q: Quantity, parts: seq<(AccountId, int)>, counted: bool)
    requires forall i :: 0 <= i < |parts| ==> (Counts(q, parts[i].0) <==> counted)
    ensures PartsImage(q, parts) == if counted then PartsTotal(parts) else 0
  {
    if parts != [] {
      PartsImageUniform(q, parts[..|parts| - 1], counted);
    }
  }

  lemma {:induction false} DepositInterestClosed(bank: string, credits: seq<(AccountId, int)>)
    requires bank != CENTRAL_BANK && forall i :: 0 <= i < |credits| ==> HeldAt(credits[i].0, bank)
    ensures ClosedLegs(DepositInterestLegs(bank, credits))
  {
    forall q | MustBeZero(q) ensures Image(q, DepositInterestLegs(bank, credits)) == 0 {
      Longer(CreditsTo(credits, Interest), Debit(DepositsOwedBy(bank), PartsTotal(credits), Interest));
      PartLegsImage(q, credits, Interest);
      PartsImageUniform(q, credits, q == GlobalSum || q == BankDeposits(bank));
    }
  }

  lemma {:induction false} BondAuctionImage(q: Quantity, face: int, tranches: seq<(AccountId, int)>)
    requires forall i :: 0 <= i < |tranches| ==> tranches[i].0.code.Res? && tranches[i].0.owner != CENTRAL_BANK
    requires MustBeZero(q)
    ensures Image(q, BondAuctionLegs(face, tranches)) == if q.BankDeposits? then 0 else face - PartsTotal(tranches)
  {
    var receipt := Credit(TREASURY_DEPOSIT, face, Transfer);
    ImageConcat(q, [receipt], DebitsFrom(tranches, Transfer));
    Longer([], receipt);
    assert [] + [receipt] == [receipt];
    PartLegsImage(q, tranches, Transfer);
    PartsImageUniform(q, tranches, !q.BankDeposits?);
  }

  /** A bond auction moves reserves into the treasury's account and closes when the tranches add up to the face. */
  lemma {:induction false} BondAuctionClosed(face: int, tranches: seq<(AccountId, int)>)
    requires forall i :: 0 <= i < |tranches| ==> tranches[i].0.code.Res? && tranches[i].0.owner != CENTRAL_BANK
    ensures ClosedLegs(BondAuctionLegs(face, tranches)) <==> face == PartsTotal(tranches)
  {
    assert MustBeZero(GlobalSum);
    forall q | MustBeZero(q)
      ensures Image(q, BondAuctionLegs(face, tranches)) == if q.BankDeposits? then 0 else face - PartsTotal(tranches)
    {
      BondAuctionImage(q, face, tranches);
    }
  }

  // ---- Genesis grants ----

  /** For each bank, the liability for its customers' grants and the reserves behind it. */
  function BankGrantLegs(grants: seq<(string, int)>): seq<Leg> {
    if grants == [] then []
    else
      var (bank, cents) := grants[|grants| - 1];
      BankGrantLegs(grants[..|grants| - 1])
          + [Debit(DepositsOwedBy(bank), cents, Issuance), Credit(ReservesOf(bank), cents, Issuance)]
  }

  function ClassGrantLegs(credits: seq<(AccountId, int)>, grants: seq<(string, int)>): seq<Leg> {
    CreditsTo(credits, Issuance) + BankGrantLegs(grants) + [Debit(ISSUANCE, PartsTotal(credits), Issuance)]
  }

  function GrantedTo(grants: seq<(string, int)>, bank: string): int {
    if grants == [] then 0
    else
      var last := grants[|grants| - 1];
      GrantedTo(grants[..|grants| - 1], bank) + if last.0 == bank then last.1 else 0
  }

  function GrantTotal(grants: seq<(string, int)>): int {
    if grants == [] then 0 else GrantTotal(grants[..|grants| - 1]) + grants[|grants| - 1].1
  }

  lemma {:induction false} BankGrantImage(q: Quantity, grants: seq<(string, int)>)
    requires forall i :: 0 <= i < |grants| ==> grants[i].0 != CENTRAL_BANK
    ensures q.BaseMoney? || q.MoneyOutside? ==> Image(q, BankGrantLegs(grants)) == GrantTotal(grants)
    ensures q.GlobalSum? ==> Image(q, BankGrantLegs(grants)) == 0
    ensures q.BankDeposits? ==> Image(q, BankGrantLegs(grants)) == -GrantedTo(grants, q.bank)
  {
    if grants != [] {
      BankGrantImage(q, grants[..|grants| - 1]);
      var (bank, cents) := grants[|grants| - 1];
      var pair := [Debit(DepositsOwedBy(bank), cents, Issuance), Credit(ReservesOf(bank), cents, Issuance)];
      ImageConcat(q, BankGrantLegs(grants[..|grants| - 1]), pair);
      TwoLegs(pair[0], pair[1]);
    }
  }

  /** The reserves granted are, bank by bank, what its customers were given. */
  ghost predicate GrantsMatch(credits: seq<(AccountId, int)>, grants: seq<(string, int)>) {
    && GrantTotal(grants) == PartsTotal(credits)
    && forall bank :: GrantedTo(grants, bank) == PartsImage(BankDeposits(bank), credits)
  }

  lemma {:induction false} ClassGrantImage(q: Quantity, credits: seq<(AccountId, int)>, grants: seq<(string, int)>)
    requires forall i ::
      0 <= i < |credits| ==>
        credits[i].0.code.Dep? && credits[i].0.bank.Some? && credits[i].0.bank.value != CENTRAL_BANK
    requires forall i :: 0 <= i < |grants| ==> grants[i].0 != CENTRAL_BANK
    requires MustBeZero(q) || q == MoneyOutside
    ensures Image(q, ClassGrantLegs(credits, grants)) ==
      match q
      case GlobalSum => 0
      case BaseMoney => GrantTotal(grants) - PartsTotal(credits)
      case BankDeposits(bank) => PartsImage(q, credits) - GrantedTo(grants, bank)
      case _ => GrantTotal(grants)
  {
    var issue := Debit(ISSUANCE, PartsTotal(credits), Issuance);
    Longer(CreditsTo(credits, Issuance) + BankGrantLegs(grants), issue);
    ImageConcat(q, CreditsTo(credits, Issuance), BankGrantLegs(grants));
    PartLegsImage(q, credits, Issuance);
    BankGrantImage(q, grants);
    if !q.BankDeposits? {
      PartsImageUniform(q, credits, q == GlobalSum);
    }
  }

  /** A genesis grant keeps the closure quantities exactly when its reserves match its deposits. */
  lemma {:induction false} ClassGrantClosed(credits: seq<(AccountId, int)>, grants: seq<(string, int)>)
    requires forall i ::
      0 <= i < |credits| ==>
        credits[i].0.code.Dep? && credits[i].0.bank.Some? && credits[i].0.bank.value != CENTRAL_BANK
    requires forall i :: 0 <= i < |grants| ==> grants[i].0 != CENTRAL_BANK
    ensures ClosedLegs(ClassGrantLegs(credits, grants)) <==> GrantsMatch(credits, grants)
    ensures Image(MoneyOutside, ClassGrantLegs(credits, grants)) == GrantTotal(grants)
  {
    var legs := ClassGrantLegs(credits, grants);
    NothingAtCentral(credits, grants);
    forall q | MustBeZero(q) || q == MoneyOutside ensures Image(q, legs) ==
      match q
      case GlobalSum => 0
      case BaseMoney => GrantTotal(grants) - PartsTotal(credits)
      case BankDeposits(bank) => PartsImage(q, credits) - GrantedTo(grants, bank)
      case _ => GrantTotal(grants)
    {
      ClassGrantImage(q, credits, grants);
    }
    hide Image, PartsImage;
    if ClosedLegs(legs) {
      assert MustBeZero(BaseMoney);
      forall bank ensures GrantedTo(grants, bank) == PartsImage(BankDeposits(bank), credits) {
        if bank != CENTRAL_BANK {
          assert MustBeZero(BankDeposits(bank));
        }
      }
    }
  }

  lemma {:induction false} NothingAtCentral(credits: seq<(AccountId, int)>, grants: seq<(string, int)>)
    requires forall i ::
      0 <= i < |credits| ==>
        credits[i].0.code.Dep? && credits[i].0.bank.Some? && credits[i].0.bank.value != CENTRAL_BANK
    requires forall i :: 0 <= i < |grants| ==> grants[i].0 != CENTRAL_BANK
    ensures GrantedTo(grants, CENTRAL_BANK) == 0 && PartsImage(BankDeposits(CENTRAL_BANK), credits) == 0
  {
    PartsImageUniform(BankDeposits(CENTRAL_BANK), credits, false);
    if grants != [] {
      NothingAtCentral(credits, grants[..|grants| - 1]);
    }
  }
}
