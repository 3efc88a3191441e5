# The closed money system of POLIS, proved

This project models the part of POLIS that moves money and proves what the repository promises of it: the double-entry
ledger, every institution that posts to it (credit, the interbank market and the discount window, bank resolution, the
treasury, withdrawals and deposit interest, estates, genesis), the integer arithmetic they rest on, and three neighbours that
keep state of their own: the goods price totals, the event log, and the household registry.

How it is built, from the bottom up:

- `Books`, `Posting`, `LegLists`, `Builders`: accounts, legs, and the *quantities* (sums of balances) that the stated
  invariants speak of: the global sum (M-2), base money against issuance (M-4), and each commercial bank's deposits against
  its deposit liability (M-5). Every leg builder of every institution is a function, with a lemma giving its effect on them.
- `LedgerClass`: the `Ledger` class with rules P1 to P7. `Closure`: runs of any length made of any builders, in any order,
  accepted or refused. `Replay`: the independent tick-by-tick audit.
- `State`, `LoanBooks`: the economy's records and the invariant `CreditSound` (in `CreditOps`): the ledger is sound and closed, no bank's reserves
  are overdrawn, the loan records agree with it cent for cent, loan identifiers are minted once, every bank's and the treasury's accounts are open,
  every receivable is its loan's lender's or a failed bank's, and nobody but the treasury banks with the central bank. Every institution's method
  keeps it, also when it stops half way with an error. Where money can leak (arrears, coupons to the central bank) the method keeps the weaker
  `RecordsSound` and says what leaked: the ledger stays closed exactly when that is nothing.
- Institutions: `CreditOps`, `Interbank`, `Market`, `Clearing`, `Resolution`, `LoanSales`, `Disposal`, `Takeover`, `BankFailure`, `Auction`, `DebtService`,
  `BondRegister`, `Taxes`, `Banking`, `Purses`, `EstateDebts`, `Estate`, `Interests`, `Genesis`, `Combining`.
- `Effects`, `Institutions`, `Runs`: what each act does to the records, before and after; the joint invariant `Joint` (`CreditSound`, interest counters, bond register, bond symbols, backing of bonds, taxpayers) and any
  sequence of the institutions' acts, from the founding of an economy on.
- Arithmetic: `Money` (largest remainder), `Splits`, `Schedule`, `IncomeTax`, and the carries in `CreditEngine`.
- Neighbours: `Prices`, `GoodsSales`, `EventChain`, `EventLogs`, `JointWealth`, `Households`.
- `Breakdowns`: short histories, from the founding of an economy on, at whose end the code gets stuck.

Where the code goes by identifier and the order shows (instalments, tax collection and conversion, loan sales, estate debts, short
banks, who leaves a household first), so does the model. A shuffle, or a sort that shows in nothing stated, is an arbitrary choice of the
next element, so each result holds for every order. A refused posting is a `Result`, not a precondition.

Loops that decide something, such as which loans are paid or who lends to whom, return a ghost record of their turns. What they promise
is in terms of it (`CreditOps.Amortise`, `Taxes.CollectTaxes`, `Clearing.ClearReserves`, `Disposal.SellLoans`, `Estate.SettleDebts`, `Runs.Run`):
the outcome of each turn follows from the balances it found, and the sums over all turns from that.

## Findings

Where the code does not do what is promised of it, the code is kept as it is and the exact condition is proved.

- **Tax arrears can be paid into the wrong account.** `amortise` pays arrears into the treasury's first deposit in identifier order, and an
  estate opens `dep:gv_treasury@bk_01`, which sorts before `dep:gv_treasury@bk_cb` (`EstateDebts.TreasuryStaysFirst`, an equivalence on bank names,
  and `EstateDebts.FirstBankSortsBefore`). Records and interest still agree; base money falls by exactly the arrears paid, and the ledger stays closed exactly when
  that is nothing (`CreditOps.Amortise`, `Builders.ArrearsPaymentClosed`).
- **An instalment is stuck when the money is in another deposit.** `CreditOps.PayBank` fails exactly when the deposit with the lender holds less than is due
  while all liquid funds cover it; `CreditOps.PayArrears` and `Taxes.CollectOne` give the same for arrears and taxes, and add two more ways: the paying bank is
  short of reserves, or the treasury stays overdrawn after the payment. So a round of instalments or of tax
  collection stops only at such a payment (`CreditOps.Amortise`, `Taxes.CollectTaxes`). `Breakdowns.StuckAtInstalment` and `Breakdowns.StuckAtTax` are histories that lead there:
  two loans and a gift.
- **Resolution can break down**, and exactly when, on the state before it starts (`BankFailure.Resolve`): under takeover, when capital less bad debts is
  below zero and nobody has a deposit to cut; under liquidation, when some performing loan would fetch less than a cent, or capital less bad debts less the
  discount is below zero with no customers, or reserves, sale proceeds and insurance do not reach the deposits left after haircuts.
  `Breakdowns.NobodyToBear` and `Breakdowns.CentAtHalfPrice` are histories that lead there.
- **An estate's loan payment leaves the interest counters alone.** Interest stays accounted for exactly when what stays outstanding still covers
  the interest due (`EstateDebts.EstatePaymentInterest`, with an input that breaks it).
- **Coupons paid to the central bank leave base money.** Bonds pass to it when a bank is liquidated with no other bank left; from then on base money falls by
  exactly what it is paid, and the ledger stays closed exactly when that is nothing (`DebtService.ServiceDebt`, `Builders.ReservePaymentClosed`).
- **A commit whose append succeeded and whose publish failed repeats sequence numbers** (`EventLogs.EventLog.Commit`, an equivalence; `EventLogs.NumberTakenTwice`).
- **Savepoints used out of order pass the code's check** and break the chain unless two hashes coincide (`EventLogs.OutOfOrderSavepoint`).
- **Forming a household under an identifier in use orphans agents**, exactly when someone outside the new household lives under it (`Households.FormedConsistent`).
  `Households.FoundedTwice` is a way there: form, let someone join, leave, and form again at the same tick for the same reason.
- **Parting fails when one partner's first account is cash and the other's a deposit**, among the exact conditions under which the joint wealth cannot be split
  (`Households.Registry.EvenOut`). A dead adult is left without a household when a union is dissolved, and a dead child makes the dissolution fail.

## Model

| member | source | states |
|---|---|---|
| LegLists.DisjointPostable | polis/economy/ledger.py:284-318 | legs on different accounts post exactly when each account can take its own leg and they balance |
| Books.PostedMeasure | polis/economy/ledger.py:335-343 | a posting moves every sum of balances by exactly the image of its legs |
| LedgerClass.Ledger.constructor | polis/economy/ledger.py:167-179 | an empty ledger is sound and every closure quantity is zero |
| LedgerClass.Ledger.OpenAccount | polis/economy/ledger.py:181-209 | opens exactly valid new accounts, the issuance account only for the central bank, and changes no sum |
| LedgerClass.Ledger.CloseAccount | polis/economy/ledger.py:211-218 | closes exactly open, empty accounts not opened later, and changes no sum |
| LedgerClass.Ledger.CheckLegs | polis/economy/ledger.py:288-306 | accepts exactly admissible legs without duplicates, and returns each account's net movement, whose sum is the legs' total |
| LedgerClass.Ledger.CheckPolarity | polis/economy/ledger.py:309-318 | accepts exactly when only whitelisted accounts may overdraw and every other keeps its polarity |
| LedgerClass.Ledger.PostChecked | polis/economy/ledger.py:275-343 | posts exactly when rules P1 to P6 hold; a rejected posting changes nothing; balances, entries and pending buffer move together |
| LedgerClass.Ledger.PostTransaction | polis/economy/ledger.py:259-273 | the same, with issuance forbidden |
| LedgerClass.Ledger.IssueBaseMoney | polis/economy/ledger.py:373-390 | issues exactly with one issuance leg |
| LedgerClass.Ledger.Flush | polis/economy/ledger.py:392-423 | hands over exactly the tick's pending entries, or, if the repository fails, changes nothing |
| LedgerClass.PostedSound | polis/economy/ledger.py:309-339 | after an accepted posting every account not on the overdraft whitelist keeps its polarity and closed accounts stay empty |
| LedgerClass.PostedEntriesSound | polis/economy/ledger.py:320-343 | balances stay the fold of the entries, and no entry repeats |
| LedgerClass.DeliveredOnce | polis/economy/ledger.py:405-423 | once nothing is pending, every entry has been delivered exactly once |
| Identifiers.PrintedParses | polis/economy/ledger.py:104-152 | parsing undoes printing on exactly the valid account identifiers |
| Identifiers.ParsedPrints | polis/economy/ledger.py:137-152 | printing undoes parsing, and only valid identifiers are ever parsed |
| Identifiers.TextInjective | polis/economy/ledger.py:104-134 | distinct valid identifiers have distinct ledger keys |
| Identifiers.ValidateAllowNegative | polis/economy/ledger.py:535-542 | lets through exactly reserves and the treasury's central-bank deposit |
| Identifiers.MintInjective | polis/economy/money.py:48-55 | different prefix, tick or ordinal, different minted identifier |
| Builders.TransferImage | polis/economy/ledger.py:345-371 | what a customer transfer does to the global sum, to deposits and to base money |
| Builders.TransferClosed | polis/economy/ledger.py:345-371 | a transfer keeps closure exactly when both sides or neither are central-bank purses outside base money |
| Builders.GovernmentTransferClosed | polis/economy/fiscal.py:68-88 | keeps closure exactly when the recipient is not such a purse |
| Builders.TaxCollectionClosed | polis/economy/fiscal.py:91-111 | keeps closure exactly when the taxpayer's account is not such a purse |
| Builders.ReservePaymentClosed | polis/economy/fiscal.py:422-432 | coupons, redemptions and insurance keep base money exactly when they go to a commercial bank |
| Builders.OriginationClosed | polis/economy/credit.py:594-608 | funding a loan keeps closure |
| Builders.PaymentClosed | polis/economy/credit.py:784-791 | a loan payment keeps closure |
| Builders.ArrearsPaymentClosed | polis/economy/credit.py:766-783 | an arrears payment keeps closure exactly when it lands in the treasury's central-bank deposit; else base money falls by the amount |
| Builders.ClaimClosed | polis/economy/credit.py:859-877 | capitalisation, write-off and arrears legs keep closure |
| Builders.InterbankClosed | polis/economy/central.py:171-180 | an interbank loan keeps closure and changes no bank's net worth |
| Builders.DiscountWindowClosed | polis/economy/central.py:250-264 | a discount-window loan keeps closure, issues exactly its amount, and changes no bank's net worth |
| Builders.LoanSaleClosed | polis/economy/central.py:408-453 | loan sales and purchases keep closure; a purchase by the central bank issues exactly its price |
| Builders.HaircutClosed | polis/economy/central.py:534-546 | a haircut keeps closure |
| Builders.AssumptionClosed | polis/economy/central.py:606-625 | carrying a claim to another bank keeps closure |
| Builders.WithdrawalClosed | polis/economy/banking.py:347-366 | a withdrawal keeps closure |
| Builders.DepositInterestClosed | polis/economy/banking.py:253-259 | deposit interest keeps closure for any list of depositors |
| Builders.BondAuctionClosed | polis/economy/fiscal.py:523-552 | an auction keeps closure exactly when its tranches add up to the face |
| Builders.ClassGrantClosed | polis/economy/genesis.py:323-366 | a genesis grant keeps closure exactly when each bank's reserves match its depositors' grants |
| Closure.MovementClosed | polis/economy/ledger.py:425-468 | the legs of every builder of every institution keep M-2, M-4 and M-5 |
| Closure.MovementIssue | polis/economy/ledger.py:373-390 | a movement changes the money outside by exactly what it issues |
| Closure.EveryRunCloses | polis/economy/ledger.py:425-468 | every run of openings, closings and movements keeps M-2, M-4, M-5 and polarity, and base money changes by exactly what was issued |
| Closure.EverythingFromGenesis | polis/economy/invariants.py:14-47 | from an empty ledger, the money outside always equals what was issued and minus the issuance balance |
| Genesis.GrantLegs | polis/economy/genesis.py:323-348 | the loop over allocations builds a grant whose reserves match its deposits and pays everyone its allocation |
| Genesis.ClassPosts | polis/economy/genesis.py:323-390 | the ledger takes the issue to a class exactly when it gives positive amounts to distinct open deposits of open banks |
| Institutions.CollectInstalments | polis/economy/credit.py:673-837 | a round of instalments keeps the joint invariant, or has leaked exactly the arrears it paid into another deposit than the treasury's central-bank one, or stops with an error: at a due loan whose instalment is stuck there, and never when every debtor's liquid money is in the deposit asked and the banks and the treasury can bear the arrears; who has paid and who has missed is as for `CreditOps.Amortise` |
| Institutions.Collect | polis/economy/fiscal.py:168-217 | a round of tax collection keeps the joint invariant and takes from everybody what `Taxes.CollectTaxes` says; it stops only at an assessment whose payment is refused, and never when every taxpayer's liquid money is in the deposit looked at and the banks and the treasury can bear what is due |
| Institutions.SettleFor | polis/economy/estate.py:213-405 | settling an estate keeps the joint invariant and closed loans, and pays creditors, heirs and treasury as `Estate.SettleEstate` says; one that fails, or is refused, leaves all records as they were |
| Institutions.Service | polis/economy/fiscal.py:393-461 | a payday keeps it exactly when the central bank is paid nothing, and otherwise leaks exactly what it is paid |
| Institutions.ResolveBank | polis/economy/central.py:304-690 | a resolution keeps the joint invariant unless it breaks down, exactly when |
| Runs.Found | polis/economy/genesis.py:72-145 | an economy of any banks starts with the joint invariant and no money |
| Runs.Issue | polis/economy/genesis.py:323-390 | the genesis issue keeps it, is refused exactly by the ledger's rules, posts exactly its legs, and creates exactly what it issues |
| Runs.Perform | polis/economy/banking.py:68-93 | every act of every institution does what such an act does, all records before and after (`Effects`), and keeps the joint invariant, or stops the run with the records still in agreement; which acts are refused and why, which can stop with an error, when, and at what; a refused act changes nothing; closed loans are as they were however it ends; only instalments and paydays leak |
| Runs.Run | polis/economy/invariants.py:66-104 | over any sequence of acts, in any order, each act has done what such an act does to the records the one before has left, and the joint invariant holds until an act breaks down or leaks, and then loans and claims still agree; a loan repaid or written off at one point of the run is as it was then at every later point |
| Runs.History | polis/economy/invariants.py:66-104 | the same for every history of every economy from its founding, which leaves no loans and no money |
| Replay.PosthocClosure | scripts/validate_m3_multiseed.py:167-230 | the replay reports exactly the ticks that end out of balance, and a zero gap exactly when replayed and stored balances agree |
| Replay.AuditPasses | scripts/validate_m3_multiseed.py:174-230 | a ledger all of whose postings were closed passes: no violating tick, no materialisation error |
| Money.Allocate | polis/economy/money.py:20-45 | splits exactly when the input is legitimate; every claimant gets its share and the shares add up to the pool |
| Money.ShareIsQuotaRounded | polis/economy/money.py:28-45 | a share is its quota rounded down or up, and an exact quota exactly |
| Money.ShareWithinWeight | polis/economy/money.py:28-45 | no share is negative, zero weight gets nothing, and no share exceeds its weight when the pool does not exceed the weights |
| Money.ShareMonotone | polis/economy/money.py:28-45 | a larger weight never gets less; equal weights differ by at most a cent |
| Money.ShareIgnoresListing | polis/economy/money.py:33-45 | the order of the input does not matter |
| Splits.SplitByAccount | polis/economy/central.py:501-512 | the split over accounts, through their printed identifiers, is the largest-remainder split: everyone gets the proportional part rounded down or up, and the spare cents go by remainder, then weight, then identifier |
| Splits.OneSplit | polis/economy/money.py:33-45 | and that leaves no choice: two such splits of one pool are the same |
| Splits.RemainderFacts | polis/economy/money.py:28-45 | a share in any such split is less than a cent from its proportional part, exactly that part when it comes out even, never negative, and within the weight when the pool is |
| Splits.FairToAll | polis/economy/money.py:28-45 | in any such split a larger weight never gets less, and equal weights get the same to the cent |
| Schedule.MakeSchedule | polis/economy/credit.py:462-515 | the loop ends; parts are at least a cent, add up to the loan and end at zero; no payment exceeds the rounded-up level payment |
| Schedule.AnnuityClosedForm | polis/economy/credit.py:480-487 | the annuity factor behind the payment formula, in closed form |
| Schedule.LevelRepays | polis/economy/credit.py:480-488 | the level payment repays the principal with interest over the periods, so there is no balloon |
| CreditEngine.StepKeepsInterest | polis/economy/credit.py:799-996 | every step keeps interest due between zero and the balance; closed exactly at zero; a closed loan does not change |
| CreditEngine.InterestNeverLost | polis/economy/credit.py:639-996 | over any run: interest scheduled is paid, forgiven or still owed, and nothing is owed once the loan is closed |
| CreditEngine.ClosedForGood | polis/economy/credit.py:891-996 | a repaid or written-off loan never changes again |
| CreditEngine.AccrualIsExact | polis/economy/credit.py:643-655 | interest over n days at changing balances and rates is the floor of the exact sum, with the remainder below the divisor |
| CreditEngine.CarryIsExact | polis/economy/labour.py:778-782 | a carried accrual (wages; production in micro-units is the same loop) has released exactly the total rounded down |
| LoanBooks.ClaimStep | polis/economy/credit.py:792-821 | moving one loan and its two claims by the same amount keeps all loan records and the ledger in agreement |
| LoanBooks.LoanRecorded | polis/economy/credit.py:594-631 | so does putting a funded loan on record |
| LoanBooks.FreshLoanId | polis/economy/credit.py:547-559 | the next loan identifier is never in use |
| LoanBooks.MintedGrows | polis/economy/fiscal.py:252-305 | and stays so when loans are added, tax-arrears loans included |
| CreditOps.LiveClaims | polis/economy/credit.py:942-980 | a loan with something outstanding has both claims open and covering it |
| CreditOps.WriteOffLoan | polis/economy/credit.py:942-996 | writes off the lesser of the amount and what is outstanding, on both claims and the record; never refused |
| CreditOps.AccrueInterest | polis/economy/credit.py:639-671 | accrues on exactly the live loans outside bankruptcy, once a day |
| CreditOps.MissPayment | polis/economy/credit.py:839-889 | a missed payment escalates the loan, capitalising interest as it turns delinquent; the books agree |
| CreditOps.MarkDefault | polis/economy/credit.py:891-916 | default is recorded once and only on a live loan |
| CreditOps.WriteOffDue | polis/economy/credit.py:918-940 | writes off in full exactly the loans long enough in default; nothing but claims moves |
| CreditOps.Originate | polis/economy/credit.py:462-632 | an approved loan is scheduled by the level-payment plan, funded and recorded under the next identifier with that plan's payment and number of payments, never refused; funding moves the borrower's deposit, the lender's deposit liability and claims, and nothing else; a refused one changes nothing |
| CreditOps.BankPaymentPosts | polis/economy/credit.py:745-791 | an instalment to a bank posts exactly when the deposit with that bank holds the amount due |
| CreditOps.PayBank | polis/economy/credit.py:687-837 | paid, missed for lack of liquid funds, or stuck: exactly when each, wherever deposits are backed, also after a leak; and what the lender's net worth gains |
| CreditOps.PayArrears | polis/economy/credit.py:695-783 | missed exactly when no single deposit holds the amount; otherwise stuck exactly when the paying bank's reserves do not cover it or the treasury stays overdrawn; when paid, the treasury's first deposit gains it, and base money loses it exactly when that is not the central-bank one |
| CreditOps.Amortise | polis/economy/credit.py:673-837 | due loans have their turns in the order of identifiers: each is paid when the money is where the code looks for it and missed when it is not there in liquid funds, by the balances its turn finds; whoever missed a bank loan ends with less liquid money than was due, and whoever missed arrears with no deposit that holds them; every customer's liquid money falls by exactly what was due on its paid loans; a debtor whose deposits cover everything due has every loan paid; it stops only at the next due loan, whose instalment is stuck in the state reached, and never when every debtor's liquid money is where it is asked for and the arrears can be borne; wherever it stops, records agree with the ledger and interest stays accounted for; base money falls by exactly the arrears paid into another deposit than the treasury's central-bank one, and the ledger stays closed exactly when that is nothing |
| CreditOps.SolventPays | polis/economy/credit.py:709-744 | whoever could have paid everything due at the start has paid every loan that fell due |
| CreditOps.PostQuiet | polis/economy/ledger.py:259-273 | a posting that touches no claim keeps the loan books in agreement |
| Banking.ServeOne | polis/economy/banking.py:283-368 | a request is served in full exactly when reserves and deposit cover it; when it would be refused by the ledger, exactly |
| Banking.WithdrawalPosts | polis/economy/banking.py:293-366 | deposit closure makes the liability leg fit, so a covered withdrawal is never refused |
| Banking.ProcessQueue | polis/economy/banking.py:265-387 | for any queue, in its order, served total equals the fall in deposits and in reserves and the rise in cash; each decision is by what was left; every customer's deposit and cash move by exactly what it was served; no other deposit or claim moves |
| Banking.QueueWithinReserves | polis/economy/banking.py:293-298 | what is served never exceeds the reserves at the start |
| Banking.PayDepositInterest | polis/economy/banking.py:213-262 | every depositor gets its interest and the liability grows by the total; never refused |
| Interbank.GrantsNow | polis/economy/central.py:741-790 | the borrower's capital ratio and the lender's concentration cap decide |
| Interbank.LendReserves | polis/economy/central.py:129-202 | moves the reserves, records the loan, keeps everyone's net worth; never refused |
| Interbank.BorrowAtWindow | polis/economy/central.py:205-289 | issues exactly the amount into the borrower's reserves and records the loan; never refused |
| Clearing.TryLend | polis/economy/central.py:741-803 | a loan is made exactly when both conditions hold at that moment |
| Clearing.CapsAfterLoan | polis/economy/central.py:765-790 | a loan granted under the cap leaves the lender's exposure under it |
| Clearing.FillStep | polis/economy/central.py:738-805 | a loan out of a lender's excess shortens the shortfall and leaves the lender at or above its requirement |
| Market.PeersFirst | polis/economy/central.py:738-807 | while something is missing, a peer that was asked has lent all it could spare or would not lend what was asked |
| Market.LentInAll | polis/economy/central.py:738-805 | the loans of the peers asked add up to what is no longer missing |
| Market.StillWilling | polis/economy/central.py:741-790 | if nobody would refuse any short bank, nobody does after one of them has been funded |
| Clearing.AskPeers | polis/economy/central.py:724-805 | going round the peers in any order, each lends what is still missing or all it can spare, unless the ratio or the cap then forbids it; nobody is drawn below its requirement |
| Clearing.FillShortfall | polis/economy/central.py:724-807 | after peers and window the borrower holds its required reserves; the window has lent exactly what the peers asked have not |
| Clearing.ClearReserves | polis/economy/central.py:711-807 | every active commercial bank ends with its required reserves, no lender below its own, deposits and capital untouched, exposures that grew within the cap, every new loan on the terms of its market, and base money up by exactly the window lending; the short banks are funded by size of shortfall, then identifier; the window lends to one no more than it lacks, and only when every other active bank has nothing to spare at that moment or fails the ratio or the cap; in all it lends no less than the banks together lack, and exactly that when nobody could refuse; no posting is refused |
| Market.WindowTotal | polis/economy/central.py:711-807 | over a whole clearing, what the window has lent is at least what all active banks together lacked, and exactly that if nobody would have refused |
| Resolution.ShedBadLoans | polis/economy/central.py:350-363 | writes off exactly the delinquent and defaulted loans; capital falls by exactly what others owed on them |
| Resolution.ShareLoss | polis/economy/central.py:499-512 | haircuts are the largest-remainder split of the loss, as far as deposits go, over uninsured money when that suffices and over balances otherwise; impossible exactly without customers |
| Resolution.CutsAreFair | polis/economy/central.py:499-512 | so every haircut is the proportional one to the cent, more exposed is never cut less, and equal accounts lose the same to the cent |
| Resolution.Trim | polis/economy/central.py:513-549 | one haircut moves one account and the liability, raises the bank's net worth by as much, and is never refused |
| Resolution.PayInsurance | polis/economy/central.py:471-497 | insurance goes from the treasury, overdrawn if need be, into reserves, raising capital by as much; never refused |
| Resolution.CoverShortfall | polis/economy/central.py:457-549 | insurance plus haircuts cover the shortfall, each customer losing its fair part; impossible exactly when capital is negative and nobody has a deposit |
| Resolution.CoveredOrWiped | polis/economy/central.py:457-549 | afterwards capital is not negative, or all deposits are gone; and a bank that was short gains nothing beyond zero |
| LoanSales.PassStep | polis/economy/central.py:454-455 | the records agree with the ledger after a loan has changed lenders |
| LoanSales.PassLegsPost | polis/economy/central.py:408-453 | passing a loan on posts exactly when the price, if any, is at least a cent |
| LoanSales.PassLoan | polis/economy/central.py:388-455 | a loan passes with all that is outstanding; only the price moves in reserves; refused exactly when the price is not positive |
| Disposal.Strongest | polis/economy/central.py:323-329 | the bank first by capital, then by identifier |
| Disposal.SellLoan | polis/economy/central.py:374-455 | sells to the strongest bank that can pay, else to the central bank; the buyer pays the price out of its reserves; refused exactly when the price is not positive |
| Disposal.SellLoans | polis/economy/central.py:365-455 | every performing loan is sold, in the order of identifiers, each to the strongest bank that can pay at that moment or else to the central bank; reserves grow by exactly the prices, capital falls by exactly face less prices, money outside grows by exactly what the central bank paid; breaks down exactly when one would fetch less than a cent |
| Disposal.CentralLast | polis/economy/central.py:380-407 | a loan has gone to the central bank only where no other active bank had, or has at the end, reserves for its price |
| Disposal.HandOverLoans | polis/economy/central.py:551-576 | under takeover every performing loan passes at face, and nothing but claims moves |
| Takeover.CarryClaim | polis/economy/central.py:586-625 | one claim moves over one for one, with the liability; never refused |
| Takeover.CarryClaims | polis/economy/central.py:578-625 | all claims move one for one; the failed bank ends with no deposits and no liability |
| Takeover.SweepReserves | polis/economy/central.py:627-641 | the reserves left go to the other bank |
| Takeover.PayOut | polis/economy/central.py:643-679 | every customer is paid in cash out of reserves; breaks down exactly when reserves do not cover deposits |
| BondRegister.RebookBonds | polis/economy/central.py:681-686 | the failed bank's bonds pass on in both records, which stay in agreement |
| BondRegister.ReboundRegister | polis/economy/central.py:681-686 | the register still lists exactly the outstanding bonds by holder |
| BankFailure.ByTakeover | polis/economy/central.py:350-641 | write-offs, cover and takeover in one: exactly when it breaks down, who loses what, and where every claim and loan ends |
| BankFailure.ByLiquidation | polis/economy/central.py:350-679 | every loan sold to whoever `Disposal.SellLoans` says, losses shared out fairly, every customer paid out; or it breaks down, exactly when, on the state at the start: a loan would fetch nothing, or a loss has no customer to bear it, or reserves, proceeds and insurance fall short of the deposits left |
| BankFailure.Resolve | polis/economy/central.py:304-690 | does nothing exactly when there is nothing to resolve or nobody to take over; fails exactly when takeover or liquidation breaks down on the state at the start; else winds the bank up: owed nothing and owing no depositor (what it borrowed from banks and the central bank stays owed), its customers' shortfall covered by insurance and haircuts, each losing its proportional part to the cent, and the rest carried to the buyer or paid out in cash, loans written off, passed on or sold, bonds with the strongest other bank, marked failed |
| Auction.FaceCovers | polis/economy/fiscal.py:471-475 | the face is the shortfall rounded up to whole bonds |
| Auction.CutTranches | polis/economy/fiscal.py:523-532 | one tranche for every bank with an allocation, adding up to the allocations |
| Auction.AuctionPosts | polis/economy/fiscal.py:523-552 | the posting is refused exactly when it would leave the treasury overdrawn |
| Auction.IssueTranches | polis/economy/fiscal.py:556-570 | every tranche is a bond of its own, in both records, with the issue's terms; the largest bidder's has the symbol of the issue, every other its place among the bidders after it |
| Auction.AuctionKeepsCapital | polis/economy/fiscal.py:523-570 | what a bank pays in reserves it holds in bonds at face: its capital does not change |
| Auction.FinanceDeficit | polis/economy/fiscal.py:464-571 | changes nothing and says why, or brings the treasury to its floor with no bank's reserves going negative and tranches that are the largest-remainder split of the face over capacities; every new bond carries the coupon of the day, matures after the term next in rotation and counts coupons from its issue; with a floor of zero or more it is never refused |
| DebtService.NothingDueAtIssue | polis/economy/fiscal.py:393-461 | a bond just issued on positive terms has neither its redemption nor a coupon due at that tick |
| DebtService.ServiceDebt | polis/economy/fiscal.py:393-461 | coupons and redemptions: the treasury pays exactly what the holders receive, nothing is refused, the register stays exact; base money falls by exactly what the central bank is paid, and the ledger stays closed exactly when that is nothing |
| BondRegister.MaturityRegisters | polis/economy/fiscal.py:435-460 | a matured bond leaves both records |
| Taxes.TaxPosts | polis/economy/fiscal.py:91-111 | a tax payment posts exactly when that account, its bank's reserves and the treasury can bear it |
| Taxes.CollectOne | polis/economy/fiscal.py:174-217 | what is paid out of which deposit, and exactly when it is stuck; nobody else's liquid money moves but the treasury's |
| Taxes.CollectTaxes | polis/economy/fiscal.py:168-217 | assessments have their turns in the order of identifiers, each paid in full or as far as the taxpayer's money goes; however far it gets, treasury balance, receipts and paid amounts grow by the same sum, and every taxpayer is poorer by exactly what was paid on its assessments; at the end nothing is left that could be collected; it stops only at the next assessment, refused in the state reached, and never when every taxpayer's liquid money is in the deposit looked at and the banks and the treasury can bear what is due |
| Taxes.ConvertOne | polis/economy/fiscal.py:252-316 | an overdue assessment becomes a loan from the treasury under the next identifier, on the terms for arrears; never refused |
| Taxes.ConvertArrears | polis/economy/fiscal.py:220-318 | every overdue assessment, and no other, becomes a loan of what was unpaid, numbered in the order of assessments; the tax receivable and the arrears loans grow by exactly that |
| Purses.TransferCash | polis/economy/estate.py:784-797 | a transfer moves exactly two purses, or nothing |
| Purses.MoveOwnerValue | polis/economy/estate.py:769-798 | moves the amount from owner to owner; fails, with no account closed, exactly when the owner has less |
| EstateDebts.EstatePaymentInterest | polis/economy/estate.py:696-704 | an estate payment keeps interest accounted for exactly when the balance left covers the interest due |
| EstateDebts.EstatePaymentLosesInterest | polis/economy/estate.py:696-704 | a loan for which it does not |
| EstateDebts.TopUp | polis/economy/estate.py:799-843 | moves money among the owner's purses until one holds enough or the others are empty; never refused when all are at one bank |
| EstateDebts.PayEstateBank | polis/economy/estate.py:640-720 | a recovery to a bank comes out of the estate alone and off the loan, and leaves what everybody else is worth alone; never refused when the estate is all at that bank and covers it |
| EstateDebts.PayEstateArrears | polis/economy/estate.py:640-749 | and one to the treasury likewise, whichever one bank the estate is at |
| EstateDebts.TreasuryStaysFirst | polis/economy/estate.py:845-868 | a treasury deposit at another bank leaves the central-bank one first exactly if that bank's name sorts after |
| EstateDebts.FirstBankSortsBefore | polis/economy/estate.py:845-868 | the first commercial bank's does not |
| Estate.SettleDebt | polis/economy/estate.py:283-315 | one debt: the estate pays what it can and the rest is written off; the lender is worth less by exactly that rest; never refused with estate and debt at one bank |
| Estate.SettleDebts | polis/economy/estate.py:282-323 | debts are settled in the order of identifiers, each as far as the estate still goes; the estate pays the lesser of what it has and what it owes; lenders lose exactly the difference; never refused with estate and debts at one bank |
| Estate.Sweep | polis/economy/estate.py:412-438 | deposits move into escrow and the estate's total does not change; never refused when all are at the escrow's bank |
| Estate.Distribute | polis/economy/estate.py:778-797 | each heir is richer by exactly its share; never refused |
| Estate.ShareEstate | polis/economy/estate.py:350-396 | tax, the heirs' shares by largest remainder, and escheat add up to what was left, and nothing is left; everybody but the dead and the treasury is richer by exactly its share; never refused |
| Estate.SettleEstate | polis/economy/estate.py:213-405 | paid, tax, shares and escheat add up to the estate, the shares by largest remainder; paid and written off add up to the debt, settled loan by loan in the order of identifiers; everybody's worth moves by exactly its share less what it lost as a lender, the treasury's also by tax and escheat; the escrow and every purse is empty and closed; closed loans and other borrowers' stay as they were; a failure rolls loans and ledger back to where they were, and with estate and debts at the escrow's bank and no account dated later there is none |
| Interests.PassStake | polis/economy/estate.py:892-904 | one holding is split by largest remainder: each recipient gains exactly its part, nobody else's holding changes, the total stays |
| Interests.PassAll | polis/economy/estate.py:885-926 | and every holding of one holder likewise |
| Interests.Registers.TransferInterests | polis/economy/estate.py:885-926 | every security and share class held is split by largest remainder among the recipients, who gain exactly their parts; the dead keep nothing, nobody else's holding changes, totals stay |
| Combining.CombineLegs | polis/economy/goods.py:306-315 | one leg per account, direction and reason, moving every balance as the original legs would |
| Combining.PurchaseLegs | polis/economy/goods.py:318-376 | refused exactly when one of its transfers cannot be written; otherwise a movement over which accounting stays closed, moving buyer, seller and treasury by exactly what is due |
| Breakdowns.StuckAtInstalment | polis/economy/credit.py:745-791 | a history from the founding on that ends in an instalment refused although the money is there |
| Breakdowns.StuckAtTax | polis/economy/fiscal.py:174-217 | a history that ends in a tax payment refused although the money is there |
| Breakdowns.NobodyToBear | polis/economy/central.py:457-512 | a history that ends in a bank under water without a customer, whose takeover breaks down |
| Breakdowns.CentAtHalfPrice | polis/economy/central.py:374-455 | a history that ends in a bank with a loan that would fetch nothing, whose liquidation breaks down |
| IncomeTax.ProgressiveIncomeTax | polis/economy/labour.py:306-323 | the loop with its early exit computes the full sum over all brackets |
| IncomeTax.BracketsCover | polis/economy/labour.py:315-321 | the brackets split income above the first floor without gap or overlap |
| IncomeTax.TakeHomeNeverFalls | polis/economy/labour.py:306-323 | tax lies between nothing and gross, is monotone, and never takes more than a rise in pay |
| GoodsSales.SalesBook.Record | polis/economy/goods.py:719-747 | a sale keeps per-tick totals, last price and unit count in agreement with the sales |
| GoodsSales.SalesBook.Expire | polis/economy/goods.py:752-774 | expiry keeps them so and drops exactly what has left the window |
| GoodsSales.SalesBook.ExpireTick | polis/economy/goods.py:759-763 | unit counts stay the sums of what is retained; the clamp at zero never acts |
| GoodsSales.SalesBook.PriceNow | polis/economy/goods.py:452-502 | the price by totals is the price by full scan, for every query not before the last event and within the window kept |
| GoodsSales.LastAfterSale | polis/economy/goods.py:743-747 | the last price stays the average at the last tick of sale |
| GoodsSales.StillCovered | polis/economy/goods.py:759-763 | no row to be dropped exceeds the running count |
| EventChain.SealVerifies | polis/events/hashing.py:50-105 | a sealed event verifies, its subjects being sorted twice to the same effect |
| EventChain.ChainIsGapFree | polis/events/log.py:132-143 | a chain has consecutive numbers and every event holds the hash of the one before |
| EventChain.GapFreeIsChain | polis/events/log.py:132-143 | and everything so numbered and linked is a chain |
| EventLogs.EventLog.Stage | polis/events/log.py:90-143 | staging keeps the chain, and what is staged depends only on batch and draft, so restaging after a rollback gives the same events |
| EventLogs.EventLog.RollbackTo | polis/events/log.py:157-165 | refused exactly for another batch or a length out of range; keeps the chain exactly when the head fits; a savepoint still in force restores its batch exactly |
| EventLogs.EventLog.Commit | polis/events/log.py:167-191 | what the sink holds and where the log stands after each outcome; sound exactly unless an append was followed by a failed publish |
| EventLogs.EventLog.Rollback | polis/events/log.py:193-198 | the batch is forgotten and its savepoints with it |
| EventLogs.RestoredChains | polis/events/log.py:157-165 | going back keeps the chain exactly when the savepoint's head is where the remaining events lead |
| EventLogs.OutOfOrderSavepoint | polis/events/log.py:157-165 | an out-of-order savepoint is accepted and breaks the chain unless two hashes agree |
| EventLogs.NumberTakenTwice | polis/events/log.py:170-175 | after such a commit the next event repeats a number |
| Households.FormedConsistent | polis/agents/demography.py:254-319 | forming keeps rows and agents in agreement exactly when nobody outside lives under the identifier |
| Households.Registry.Form | polis/agents/demography.py:254-319 | members leave where they lived and live together in the home they can afford or the first one's, the row saying so, each with its present wealth as baseline; notices and locations are exact; fails without change, exactly when there is no member, a dead one, or no known home |
| Households.Registry.Join | polis/agents/demography.py:321-356 | joining keeps agreement and sets the newcomer's home, baseline and notices; the household left, and no other, loses the newcomer; refused exactly for a dissolved household |
| Households.Registry.Leave | polis/agents/demography.py:367-403 | leaving keeps agreement and touches no other row; a head who leaves is replaced by the first member left |
| Households.Registry.Dissolve | polis/agents/demography.py:405-455 | dissolving leaves every member without a household, with one notice each in name order, and keeps agreement |
| Households.Registry.Load | polis/agents/demography.py:241-252 | every agent lands in a live household that lists it, and in none exactly when none does; loading rows in which nobody is listed twice gives agreement |
| Households.OneHousehold | polis/agents/demography.py:457-464 | nobody lives in two households |
| Households.RestoredExactly | polis/agents/demography.py:241-252 | loading the rows of consistent registers gives every agent its household back |
| Households.PartStep | polis/agents/demography.py:895-915 | placing one group touches nobody else's home, and the new household is as a formed one |
| JointWealth.HalvesAreShares | polis/agents/demography.py:936-937 | halves with the odd cent to the first name are what the largest-remainder split gives equal claims |
| JointWealth.Evens | polis/agents/demography.py:938-943 | once the difference is paid both have gained the same to the cent, and what one owes the other is owed |
| JointWealth.SplitLegs | polis/agents/demography.py:944-957 | the transfer between the partners' first accounts, or none exactly when it cannot be made |
| Households.Registry.EvenOut | polis/agents/demography.py:849-882 | what one partner has gained above its half passes to the other, and the end of the union is noted; refused exactly when that transfer cannot be written or posted |
| Households.Registry.Part | polis/agents/demography.py:828-915 | the parting succeeds exactly when the split works and every new household has living members and a known home; then it has made exactly those households, places and notices |
| Households.Registry.DissolveUnion | polis/agents/demography.py:792-915 | joint gains evened out and everyone placed in exactly one new household, children with the custody parent, each row, place and notice as stated; or ledger, graph, rows, agents, locations and event batch exactly as before; and exactly when each |
| Households.FoundedTwice | polis/agents/demography.py:254-403 | a run of the registry's own operations that leaves an agent in a household that does not list it |

## Left out

- Database, gateway, web, runtime configuration, settings validation, metrics and model calls: plumbing, no money logic.
- The exchange order book, ventures and the bankruptcy waterfall: `cancel_entity` and case A of an estate are not part of this model; an agent in bankruptcy is a name in a set.
- Terminal wages and the end of employments before an estate is settled, and the emigration branch: transfers of the kinds already covered.
- Benefits, tax assessment, budget closing, policy rate, `decide` and `credit_score_bp`: single postings or formulas without an invariant of their own. The rate of a loan enters `CreditOps.Originate` as an argument.
- `CommitmentLedger`, `plan_budget`, `split_labour_by_revenue`, `add_inventory`, `intestacy_shares`: short pure computations.
- The relation graph is the set of couples; other ties, incomes (which choose the head of a household and the custody parent) and runs without a ledger are left out.
- Bank ratios, frozen lending and the call to resolution after settlement are one-line consequences of the capital functions.
- Event payloads and event text; the hash is any function of an event's contents. Nothing is claimed of its injectivity.
- Banks, loans, bonds, assessments and accounts are values in the economy's and the ledger's maps: replaced, where the code updates an object in place. Aliasing between two references to one loan is not captured.
- Decimal arithmetic in the amortisation schedule is exact real arithmetic, without the 28-digit rounding.
- The currency rule P4 and the run's identity as a UUID: one currency, an integer.
- Withdrawal requests are one bank's queue at a time; dividing them by bank is left out.
- CreditOps.CanLend: a borrower is neither the treasury nor the central bank, and the borrower's deposit with the lender has not been closed; otherwise the code raises.
- CreditOps.NoStrangers: only the treasury banks with the central bank. The code relies on it without checking; `Builders.TransferClosed` shows what it protects.
- CreditOps.Originate: assumes a term and a payment interval of at least a tick; otherwise the code's schedule raises with the claim accounts already open.
- Clearing.ClearReserves: assumes reserve ratios that are not negative.
- BankFailure.Resolve: assumes an active central bank, no money of the failed bank on deposit with itself, and no closed account where a customer is to be carried
  (under takeover) or paid in cash (under liquidation).
- Estate.SettleEstate: heirs are a map, so repeated names, which the code's split refuses, cannot occur; the agent is no bank; heirs' accounts have not been closed;
  no live loan is owed to the central bank, since paying one would open a deposit there. Its condition for success is sufficient; it does not say exactly when sweeping
  and debt payments across banks are refused (reserves too short, cash that has to reach a deposit or the treasury). What a failure rolls back is loans and ledger; the rest is not touched.
- Runs.Perform: an act whose own assumptions (those of this list) do not hold is refused without change; for rounds and deaths the condition on which they can stop is necessary, not exact; a run stops at the first error or leak, where the code's own money check halts it.
- Runs.Found: firms, population and the seeding of weights are left out; customers' accounts are opened and the classes' grants issued as acts of the run.
- Households.Registry.DissolveUnion: assumes identifiers that differ for different members, and that nobody has moved into a household this tick's dissolutions would form again.
- Interests.Registers: reserved and locked quantities, and who counts as a firm's founder, are left out.
