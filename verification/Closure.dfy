/** Accounting closure over whole runs: whatever the institutions post, in whatever order and however often it is
    refused. */
module Closure {
  import opened Wrappers
  import opened MapSum
  import opened Books
  import opened Posting
  import opened LegLists
  import opened Builders
  import opened LedgerClass

  /** One posting, tagged with the builder that makes its legs. */
  datatype Movement =
    | CustomerTransfer(src: AccountId, dst: AccountId, cents: int, reason: Reason)
    | CombinedTransfers(parts: seq<Purse>, combined: seq<Leg>)
    | GovernmentTransfer(recipient: AccountId, cents: int)
    | TaxCollection(taxpayer: AccountId, cents: int)
    | TreasuryToReserves(bank: string, cents: int, reason: Reason)
    | LoanOrigination(lender: string, deposit: AccountId, receivable: AccountId, payable: AccountId, cents: int)
    | LoanPayment(lender: string, deposit: AccountId, receivable: AccountId, payable: AccountId, principal: int,
                  due: int)
    | ArrearsPayment(bank: string, deposit: AccountId, treasury: AccountId, receivable: AccountId, payable: AccountId,
                     principal: int, due: int)
    | EstateArrears(src: AccountId, dst: AccountId, receivable: AccountId, payable: AccountId, cents: int)
    | ClaimChange(receivable: AccountId, payable: AccountId, cents: int, reason: Reason, up: bool)
    | InterbankLoan(lender: string, borrower: string, receivable: AccountId, payable: AccountId, cents: int)
    | DiscountWindowLoan(borrower: string, receivable: AccountId, payable: AccountId, cents: int)
    | ClaimSwap(prior: AccountId, next: AccountId, cents: int)
    | LoanSale(seller: string, buyer: string, prior: AccountId, next: AccountId, face: int, price: int)
    | LoanPurchaseByIssue(seller: string, prior: AccountId, next: AccountId, face: int, price: int)
    | Haircut(bank: string, claim: AccountId, cents: int)
    | Assumption(failed: string, buyer: string, claim: AccountId, destination: AccountId, cents: int)
    | ReserveSweep(failed: string, buyer: string, cents: int)
    | CashWithdrawal(bank: string, deposit: AccountId, cash: AccountId, cents: int)
    | DepositInterest(bank: string, credits: seq<(AccountId, int)>)
    | BondAuction(face: int, tranches: seq<(AccountId, int)>)
    | Endowment(credits: seq<(AccountId, int)>)
    | ClassGrant(credits: seq<(AccountId, int)>, grants: seq<(string, int)>)

  /** One purse-to-purse transfer inside a combined transaction. */
  datatype Purse = Purse(src: AccountId, dst: AccountId, cents: int, reason: Reason)

  function PurseLegs(p: Purse): seq<Leg> {
    var legs := TransferLegs(p.src, p.dst, p.cents, p.reason);
    if legs.Success? then legs.value else []
  }

  function AllPurseLegs(parts: seq<Purse>): seq<Leg> {
    if parts == [] then [] else AllPurseLegs(parts[..|parts| - 1]) + PurseLegs(parts[|parts| - 1])
  }

  /** Reserves created for the banks: the last class of the genesis issue. */
  function EndowmentLegs(credits: seq<(AccountId, int)>): seq<Leg> {
    CreditsTo(credits, Issuance) + [Debit(ISSUANCE, PartsTotal(credits), Issuance)]
  }

  /** The same quantities, with every leg key at most once: what the leg combiner promises. */
  ghost predicate Combines(legs: seq<Leg>, combined: seq<Leg>) {
    && NoDuplicateLegs(combined)
    && forall q :: Image(q, combined) == Image(q, legs)
  }

  function LegsOf(m: Movement): seq<Leg> {
    match m
    case CustomerTransfer(src, dst, cents, reason) => PurseLegs(Purse(src, dst, cents, reason))
    case CombinedTransfers(_, combined) => combined
    case GovernmentTransfer(recipient, cents) => if GovernmentTransferLegs(recipient, cents).Success?
        then GovernmentTransferLegs(recipient, cents).value else []
    case TaxCollection(taxpayer, cents) => if TaxCollectionLegs(taxpayer, cents).Success?
        then TaxCollectionLegs(taxpayer, cents).value else []
    case TreasuryToReserves(bank, cents, reason) => ReservePaymentLegs(bank, cents, reason)
    case LoanOrigination(lender, deposit, receivable, payable, cents) => OriginationLegs(lender, deposit, receivable,
        payable, cents)
    case LoanPayment(lender, deposit, receivable, payable, principal, due) => PaymentLegs(lender, deposit, receivable,
        payable, principal, due)
    case ArrearsPayment(bank, deposit, treasury, receivable, payable, principal, due) =>
      ArrearsPaymentLegs(bank, deposit, treasury, receivable, payable, principal, due)
    case EstateArrears(src, dst, receivable, payable, cents) =>
      PurseLegs(Purse(src, dst, cents, Tax)) + ClaimLegs(receivable, payable, cents, Reason.Loan, false)
    case ClaimChange(receivable, payable, cents, reason, up) => ClaimLegs(receivable, payable, cents, reason, up)
    case InterbankLoan(lender, borrower, receivable, payable, cents) => InterbankLegs(lender, borrower, receivable,
        payable, cents)
    case DiscountWindowLoan(borrower, receivable, payable, cents) => DiscountWindowLegs(borrower, receivable, payable,
        cents)
    case ClaimSwap(prior, next, cents) => ClaimSwapLegs(prior, next, cents)
    case LoanSale(seller, buyer, prior, next, face, price) => LoanSaleLegs(seller, buyer, prior, next, face, price)
    case LoanPurchaseByIssue(seller, prior, next, face, price) => LoanPurchaseByIssueLegs(seller, prior, next, face,
        price)
    case Haircut(bank, claim, cents) => HaircutLegs(bank, claim, cents)
    case Assumption(failed, buyer, claim, destination, cents) => AssumptionLegs(failed, buyer, claim, destination,
        cents)
    case ReserveSweep(failed, buyer, cents) => ReserveSweepLegs(failed, buyer, cents)
    case CashWithdrawal(bank, deposit, cash, cents) => WithdrawalLegs(bank, deposit, cash, cents)
    case DepositInterest(bank, credits) => DepositInterestLegs(bank, credits)
    case BondAuction(face, tranches) => BondAuctionLegs(face, tranches)
    case Endowment(credits) => EndowmentLegs(credits)
    case ClassGrant(credits, grants) => ClassGrantLegs(credits, grants)
  }

  predicate Commercial(bank: string) {
    bank != CENTRAL_BANK
  }

  /** What the institutions know about the accounts they name, and no more. */
  ghost predicate Placed(m: Movement) {
    match m
    case CustomerTransfer(src, dst, _, _) => OffBook(src) <==> OffBook(dst)
    case CombinedTransfers(parts, combined) =>
      Combines(AllPurseLegs(parts), combined) && forall i :: 0 <= i < |parts| ==>
          (OffBook(parts[i].src) <==> OffBook(parts[i].dst))
    case GovernmentTransfer(recipient, cents) => ValidId(recipient) && IsPurse(recipient) && !OffBook(recipient)
    case TaxCollection(taxpayer, cents) => ValidId(taxpayer) && IsPurse(taxpayer) && !OffBook(taxpayer)
    case TreasuryToReserves(bank, _, _) => Commercial(bank)
    case LoanOrigination(lender, deposit, receivable, payable, _) => Commercial(lender) && HeldAt(deposit, lender)
        && IsClaim(receivable) && IsClaim(payable)
    case LoanPayment(lender, deposit, receivable, payable, _, _) => Commercial(lender) && HeldAt(deposit, lender)
        && IsClaim(receivable) && IsClaim(payable)
    case ArrearsPayment(bank, deposit, treasury, receivable, payable, _, _) =>
      Commercial(bank) && ValidId(deposit) && HeldAt(deposit, bank) && IsClaim(receivable) && IsClaim(payable)
          && treasury == TREASURY_DEPOSIT
    case EstateArrears(src, dst, receivable, payable, _) => (OffBook(src) <==> OffBook(dst)) && IsClaim(receivable)
        && IsClaim(payable)
    case ClaimChange(receivable, payable, _, _, _) => IsClaim(receivable) && IsClaim(payable)
    case InterbankLoan(lender, borrower, receivable, payable, _) => Commercial(lender) && Commercial(borrower)
        && IsClaim(receivable) && IsClaim(payable)
    case DiscountWindowLoan(borrower, receivable, payable, _) => Commercial(borrower) && IsClaim(receivable)
        && IsClaim(payable)
    case ClaimSwap(prior, next, _) => IsClaim(prior) && IsClaim(next)
    case LoanSale(seller, buyer, prior, next, _, _) => Commercial(seller) && Commercial(buyer) && IsClaim(prior)
        && IsClaim(next)
    case LoanPurchaseByIssue(seller, prior, next, _, _) => Commercial(seller) && IsClaim(prior) && IsClaim(next)
    case Haircut(bank, claim, _) => Commercial(bank) && HeldAt(claim, bank)
    case Assumption(failed, buyer, claim, destination, _) => Commercial(failed) && Commercial(buyer)
        && HeldAt(claim, failed) && HeldAt(destination, buyer)
    case ReserveSweep(failed, buyer, _) => Commercial(failed) && Commercial(buyer)
    case CashWithdrawal(bank, deposit, cash, _) => Commercial(bank) && HeldAt(deposit, bank) && cash.code.Cash?
    case DepositInterest(bank, credits) => Commercial(bank) && forall i :: 0 <= i < |credits| ==>
        HeldAt(credits[i].0, bank)
    case BondAuction(face, tranches) =>
      face == PartsTotal(tranches) && forall i :: 0 <= i < |tranches| ==>
          tranches[i].0.code.Res? && Commercial(tranches[i].0.owner)
    case Endowment(credits) => forall i :: 0 <= i < |credits| ==>
        credits[i].0.code.Res? && Commercial(credits[i].0.owner)
    case ClassGrant(credits, grants) =>
      && GrantsMatch(credits, grants) && (forall i :: 0 <= i < |grants| ==> Commercial(grants[i].0))
      && forall i :: 0 <= i < |credits| ==>
          credits[i].0.code.Dep? && credits[i].0.bank.Some? && Commercial(credits[i].0.bank.value)
  }

  function Overdrafts(m: Movement): set<AccountId> {
    if m.TreasuryToReserves? || m.GovernmentTransfer? then {TREASURY_DEPOSIT} else {}
  }

  predicate Issues(m: Movement) {
    m.DiscountWindowLoan? || m.LoanPurchaseByIssue? || m.Endowment? || m.ClassGrant?
  }

  /** Base money a movement creates when it posts. */
  function Created(m: Movement): int {
    match m
    case DiscountWindowLoan(_, _, _, cents) => cents
    case LoanPurchaseByIssue(_, _, _, _, price) => price
    case Endowment(credits) => PartsTotal(credits)
    case ClassGrant(credits, _) => PartsTotal(credits)
    case _ => 0
  }

  lemma {:induction false} CombinedTransfersImage(parts: seq<Purse>, q: Quantity)
    requires MustBeZero(q) && forall i :: 0 <= i < |parts| ==> (OffBook(parts[i].src) <==> OffBook(parts[i].dst))
    ensures Image(q, AllPurseLegs(parts)) == 0
  {
    if parts != [] {
      var init, last := parts[..|parts| - 1], parts[|parts| - 1];
      CombinedTransfersImage(init, q);
      ImageConcat(q, AllPurseLegs(init), PurseLegs(last));
      if TransferLegs(last.src, last.dst, last.cents, last.reason).Success? {
        TransferClosed(last.src, last.dst, last.cents, last.reason);
      }
    }
  }

  lemma {:induction false} EndowmentClosed(credits: seq<(AccountId, int)>)
    requires forall i :: 0 <= i < |credits| ==> credits[i].0.code.Res? && Commercial(credits[i].0.owner)
    ensures ClosedLegs(EndowmentLegs(credits)) && Image(MoneyOutside, EndowmentLegs(credits)) == PartsTotal(credits)
  {
    forall q | MustBeZero(q) || q == MoneyOutside
      ensures Image(q, EndowmentLegs(credits)) == if q == MoneyOutside then PartsTotal(credits) else 0
    {
      Longer(CreditsTo(credits, Issuance), Debit(ISSUANCE, PartsTotal(credits), Issuance));
      PartLegsImage(q, credits, Issuance);
      PartsImageUniform(q, credits, !q.BankDeposits?);
    }
  }

  lemma {:induction false} EstateArrearsClosed(src: AccountId, dst: AccountId, receivable: AccountId,
                                               payable: AccountId, cents: int)
    requires (OffBook(src) <==> OffBook(dst)) && IsClaim(receivable) && IsClaim(payable)
    ensures ClosedLegs(LegsOf(EstateArrears(src, dst, receivable, payable, cents)))
  {
    var moved, claim := PurseLegs(Purse(src, dst, cents, Tax)), ClaimLegs(receivable, payable, cents, Reason.Loan,
                                  false);
    ClaimClosed(receivable, payable, cents, Reason.Loan, false);
    if TransferLegs(src, dst, cents, Tax).Success? {
      TransferClosed(src, dst, cents, Tax);
    }
    hide TransferLegs, OffBook;
    forall q | MustBeZero(q) ensures Image(q, moved + claim) == 0 {
      ImageConcat(q, moved, claim);
    }
  }

  /** Every builder's legs keep the closure quantities. */
  lemma {:induction false} MovementClosed(m: Movement)
    requires Placed(m) && 2 <= |LegsOf(m)|
    requires (m.GovernmentTransfer? || m.TaxCollection? || m.TreasuryToReserves? ==> m.cents != 0)
    requires m.ArrearsPayment? ==> m.due != 0
    ensures ClosedLegs(LegsOf(m))
  {
    match m
    case CustomerTransfer(src, dst, cents, reason) => TransferClosed(src, dst, cents, reason);
    case CombinedTransfers(parts, combined) =>
      forall q | MustBeZero(q) ensures Image(q, combined) == 0 {
        CombinedTransfersImage(parts, q);
      }
    case GovernmentTransfer(recipient, cents) => GovernmentTransferClosed(recipient, cents);
    case TaxCollection(taxpayer, cents) => TaxCollectionClosed(taxpayer, cents);
    case TreasuryToReserves(bank, cents, reason) => ReservePaymentClosed(bank, cents, reason);
    case LoanOrigination(lender, deposit, receivable, payable, cents) => OriginationClosed(lender, deposit, receivable,
                         payable, cents);
    case LoanPayment(lender, deposit, receivable, payable, principal, due) => PaymentClosed(lender, deposit, receivable,
                     payable, principal, due);
    case ArrearsPayment(bank, deposit, treasury, receivable, payable, principal, due) =>
      TreasuryDepositValid();
      ArrearsPaymentClosed(bank, deposit, treasury, receivable, payable, principal, due);
    case EstateArrears(src, dst, receivable, payable, cents) => EstateArrearsClosed(src, dst, receivable, payable,
                       cents);
    case ClaimChange(receivable, payable, cents, reason, up) => ClaimClosed(receivable, payable, cents, reason, up);
    case InterbankLoan(lender, borrower, receivable, payable, cents) => InterbankClosed(lender, borrower, receivable,
                       payable, cents);
    case DiscountWindowLoan(borrower, receivable, payable, cents) => DiscountWindowClosed(borrower, receivable, payable,
                            cents);
    case ClaimSwap(prior, next, cents) => ClaimSwapClosed(prior, next, cents);
    case LoanSale(seller, buyer, prior, next, face, price) => LoanSaleClosed(seller, buyer, prior, next, face, price);
    case LoanPurchaseByIssue(seller, prior, next, face, price) => LoanSaleClosed(seller, seller, prior, next, face,
                             price);
    case Haircut(bank, claim, cents) => HaircutClosed(bank, claim, cents);
    case Assumption(failed, buyer, claim, destination, cents) => AssumptionClosed(failed, buyer, claim, destination,
                    cents);
    case ReserveSweep(failed, buyer, cents) => ReserveSweepClosed(failed, buyer, cents);
    case CashWithdrawal(bank, deposit, cash, cents) => WithdrawalClosed(bank, deposit, cash, cents);
    case DepositInterest(bank, credits) => DepositInterestClosed(bank, credits);
    case BondAuction(face, tranches) => BondAuctionClosed(face, tranches);
    case Endowment(credits) => EndowmentClosed(credits);
    case ClassGrant(credits, grants) => ClassGrantClosed(credits, grants);
  }

  /** Base money is the money outside plus the issuance balance, leg by leg. */
  lemma {:induction false} BaseMoneyParts(legs: seq<Leg>)
    requires forall i :: 0 <= i < |legs| ==> legs[i].account != ISSUANCE
    ensures Image(MoneyOutside, legs) == Image(BaseMoney, legs)
  {
    if legs != [] {
      BaseMoneyParts(legs[..|legs| - 1]);
    }
  }

  /** Money outside moves by exactly what the movement issues. */
  lemma {:induction false} MovementIssue(accounts: Accounts, m: Movement)
    requires Placed(m) && Postable(accounts, LegsOf(m), Overdrafts(m), Issues(m))
    ensures ClosedLegs(LegsOf(m)) && Image(MoneyOutside, LegsOf(m)) == Created(m)
  {
    var legs := LegsOf(m);
    assert LegAdmissible(accounts, legs[0], Issues(m)) && LegAdmissible(accounts, legs[1], Issues(m));
    MovementClosed(m);
    if Issues(m) {
      match m
      case DiscountWindowLoan(borrower, receivable, payable, cents) => DiscountWindowClosed(borrower, receivable,
                              payable, cents);
      case LoanPurchaseByIssue(seller, prior, next, face, price) => LoanSaleClosed(seller, seller, prior, next, face,
                               price);
      case Endowment(credits) => EndowmentClosed(credits);
      case ClassGrant(credits, grants) => ClassGrantClosed(credits, grants);
    } else {
      forall i | 0 <= i < |legs| ensures legs[i].account != ISSUANCE {
        assert LegAdmissible(accounts, legs[i], false);
      }
      assert MustBeZero(BaseMoney);
      BaseMoneyParts(legs);
    }
  }

  // ---- Runs ----

  datatype Step =
    | Open(id: AccountId, ownerType: string, tick: int)
    | Close(id: AccountId, tick: int)
    | Move(movement: Movement)

  ghost predicate Takes(accounts: Accounts, step: Step) {
    match step
    case Open(id, ownerType, tick) => ValidId(id) && id !in accounts && (id.code.Iss? ==> id.owner == CENTRAL_BANK)
    case Close(id, _) => IsOpen(accounts, id) && accounts[id].balance == 0
    case Move(m) => Postable(accounts, LegsOf(m), Overdrafts(m), Issues(m))
  }

  /** A step the ledger refuses leaves the accounts alone. */
  ghost function After(accounts: Accounts, step: Step): Accounts {
    if !Takes(accounts, step) then accounts
    else
      match step
      case Open(id, ownerType, tick) => accounts[id := Account(ownerType, tick, None, 0, 0)]
      case Close(id, tick) => accounts[id := accounts[id].(closedTick := Some(tick))]
      case Move(m) => (PostableKnown(accounts, LegsOf(m), Overdrafts(m), Issues(m)); Posted(accounts, LegsOf(m)))
  }

  ghost function Run(accounts: Accounts, steps: seq<Step>): Accounts {
    if steps == [] then accounts else After(Run(accounts, steps[..|steps| - 1]), steps[|steps| - 1])
  }

  /** Base money issued by the accepted steps of a run. */
  ghost function Issued(accounts: Accounts, steps: seq<Step>): int {
    if steps == [] then 0
    else
      var init, last := steps[..|steps| - 1], steps[|steps| - 1];
      Issued(accounts, init) + if last.Move? && Takes(Run(accounts, init), last) then Created(last.movement) else 0
  }

  lemma {:induction false} StepCloses(accounts: Accounts, step: Step)
    requires SoundAccounts(accounts) && ClosedBooks(accounts) && (step.Move? ==> Placed(step.movement))
    ensures SoundAccounts(After(accounts, step)) && ClosedBooks(After(accounts, step))
    ensures Measure(MoneyOutside, After(accounts, step)) == Measure(MoneyOutside, accounts)
         + if step.Move? && Takes(accounts, step) then Created(step.movement) else 0
  {
    if Takes(accounts, step) {
      var after := After(accounts, step);
      match step
      case Open(id, ownerType, tick) =>
        forall q ensures Measure(q, after) == Measure(q, accounts) {
          OpenedMeasure(q, accounts, id, after[id]);
        }
      case Close(id, tick) =>
        forall q ensures Measure(q, after) == Measure(q, accounts) {
          SameBalancesMeasure(q, accounts, after);
        }
      case Move(m) =>
        MoveCloses(accounts, m);
    }
  }

  lemma {:induction false} MoveCloses(accounts: Accounts, m: Movement)
    requires SoundAccounts(accounts) && ClosedBooks(accounts) && Placed(m)
    requires Postable(accounts, LegsOf(m), Overdrafts(m), Issues(m))
    ensures Known(accounts, LegsOf(m))
    ensures var after := Posted(accounts, LegsOf(m));
      SoundAccounts(after) && ClosedBooks(after)
          && Measure(MoneyOutside, after) == Measure(MoneyOutside, accounts) + Created(m)
  {
    MovementIssue(accounts, m);
    PostableKnown(accounts, LegsOf(m), Overdrafts(m), Issues(m));
    PostedMoves(accounts, LegsOf(m));
    PostedSound(accounts, LegsOf(m), Overdrafts(m), Issues(m));
  }

  /** Every run keeps M-2, M-4 and M-5, and changes base money by exactly what was issued. */
  lemma {:induction false} EveryRunCloses(accounts: Accounts, steps: seq<Step>)
    requires SoundAccounts(accounts) && ClosedBooks(accounts)
    requires forall i :: 0 <= i < |steps| && steps[i].Move? ==> Placed(steps[i].movement)
    ensures SoundAccounts(Run(accounts, steps)) && ClosedBooks(Run(accounts, steps))
    ensures Measure(MoneyOutside, Run(accounts, steps)) == Measure(MoneyOutside, accounts) + Issued(accounts, steps)
  {
    if steps != [] {
      EveryRunCloses(accounts, steps[..|steps| - 1]);
      StepCloses(Run(accounts, steps[..|steps| - 1]), steps[|steps| - 1]);
    }
  }

  // ---- From nothing ----

  lemma {:induction false} EmptyBooks()
    ensures SoundAccounts(map[]) && ClosedBooks(map[]) && Measure(MoneyOutside, map[]) == 0
  {
    forall q ensures Measure(q, map[]) == 0 {
      SumZero(Counted(q, map[]));
    }
  }

  /** Base money is the money outside and the issuance balance together. */
  lemma {:induction false} MoneyOutsideIsIssued(accounts: Accounts)
    ensures Measure(BaseMoney, accounts) == Measure(MoneyOutside, accounts) + Balance(accounts, ISSUANCE)
  {
    var both, outside := Counted(BaseMoney, accounts), Counted(MoneyOutside, accounts);
    if ISSUANCE in accounts {
      SumPick(both, ISSUANCE);
      assert both - {ISSUANCE} == outside;
    } else {
      assert both == outside;
    }
  }

  /** From an empty ledger, whatever has run: the money outside is exactly what has been issued, and the issuance
      account says so. */
  lemma {:induction false} EverythingFromGenesis(steps: seq<Step>)
    requires forall i :: 0 <= i < |steps| && steps[i].Move? ==> Placed(steps[i].movement)
    ensures var accounts := Run(map[], steps);
      && SoundAccounts(accounts) && ClosedBooks(accounts)
      && Measure(MoneyOutside, accounts) == Issued(map[], steps) == -Balance(accounts, ISSUANCE)
  {
    EmptyBooks();
    EveryRunCloses(map[], steps);
    MoneyOutsideIsIssued(Run(map[], steps));
    assert MustBeZero(BaseMoney);
  }
}
