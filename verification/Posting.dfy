/** When a leg list may be posted, and the entries it leaves behind. */
module Posting {
  import opened Wrappers
  import opened MapSum
  import opened Books

  datatype Cause = Cause(runId: int, tick: int, seqNo: int)
  datatype TxnId = TxnId(tick: int, ordinal: nat)
  datatype Entry = Entry(txn: TxnId, tick: int, causeSeq: int, leg: Leg)

  datatype Rule =
    | TooFewLegs | ForeignCause | BadDirection | BadAmount | UnknownReason | DuplicateLeg | UnknownAccount
    | ClosedAccount
    | IssuanceReserved | Unbalanced | UnapprovedOverdraft | PolarityBroken
    | InvalidAccount | AccountExists | NegativeTick | NonZeroBalance | ClosedBeforeOpened | NotOneIssuanceLeg
    | BadTransfer | EngineFault

  predicate OverdraftApproved(id: AccountId) {
    ValidId(id) && (id.code.Res? || (id.code.Dep? && id.owner == TREASURY && id.bank == Some(CENTRAL_BANK)))
  }

  predicate PolarityHolds(id: AccountId, balance: int) {
    if IsLiability(id.code) then balance <= 0 else 0 <= balance
  }

  predicate LegAdmissible(accounts: Accounts, leg: Leg, issuance: bool) {
    && (leg.direction == 1 || leg.direction == -1)
    && 0 < leg.amount
    && !leg.reason.Unlisted?
    && IsOpen(accounts, leg.account)
    && (leg.account.code.Iss? ==> issuance)
  }

  predicate SameKey(a: Leg, b: Leg) {
    a.account == b.account && a.direction == b.direction && a.reason == b.reason
  }

  predicate AllAdmissible(accounts: Accounts, legs: seq<Leg>, issuance: bool) {
    forall i :: 0 <= i < |legs| ==> LegAdmissible(accounts, legs[i], issuance)
  }

  predicate NoDuplicateLegs(legs: seq<Leg>) {
    forall i, j :: 0 <= i < j < |legs| ==> !SameKey(legs[i], legs[j])
  }

  predicate PolarityKept(accounts: Accounts, legs: seq<Leg>, allowNegative: set<AccountId>) {
    forall i :: 0 <= i < |legs| && legs[i].account !in allowNegative ==>
      PolarityHolds(legs[i].account, Balance(accounts, legs[i].account) + Delta(legs, legs[i].account))
  }

  /** Rules P1 to P6 and the overdraft whitelist, in one statement. */
  predicate Postable(accounts: Accounts, legs: seq<Leg>, allowNegative: set<AccountId>, issuance: bool) {
    && 2 <= |legs|
    && AllAdmissible(accounts, legs, issuance)
    && NoDuplicateLegs(legs)
    && Image(GlobalSum, legs) == 0
    && (forall id :: id in allowNegative ==> OverdraftApproved(id))
    && PolarityKept(accounts, legs, allowNegative)
  }

  lemma {:induction false} PostableKnown(accounts: Accounts, legs: seq<Leg>, allowNegative: set<AccountId>,
                                         issuance: bool)
    requires Postable(accounts, legs, allowNegative, issuance)
    ensures Known(accounts, legs)
  {
    forall i | 0 <= i < |legs| ensures legs[i].account in accounts {
      assert LegAdmissible(accounts, legs[i], issuance);
    }
  }

  // ---- Entries ----

  function EntriesOf(txn: TxnId, causeSeq: int, legs: seq<Leg>): (entries: seq<Entry>)
    ensures |entries| == |legs|
    ensures forall i :: 0 <= i < |legs| ==> entries[i] == Entry(txn, txn.tick, causeSeq, legs[i])
  {
    seq(|legs|, i requires 0 <= i < |legs| => Entry(txn, txn.tick, causeSeq, legs[i]))
  }

  /** What a list of entries adds up to on one account. */
  function Folded(entries: seq<Entry>, id: AccountId): int {
    if entries == [] then 0 else Folded(entries[..|entries| - 1], id) + Hit(entries[|entries| - 1].leg, id)
  }

  /** What the entries of one tick add to a quantity. */
  function TickImage(q: Quantity, entries: seq<Entry>, tick: int): int {
    if entries == [] then 0
    else
      var last := entries[|entries| - 1];
      TickImage(q, entries[..|entries| - 1], tick) + if last.tick == tick then Term(q, last.leg) else 0
  }

  lemma {:induction false} FoldedPosting(entries: seq<Entry>, txn: TxnId, causeSeq: int, legs: seq<Leg>, id: AccountId)
    ensures Folded(entries + EntriesOf(txn, causeSeq, legs), id) == Folded(entries, id) + Delta(legs, id)
  {
    var all := entries + EntriesOf(txn, causeSeq, legs);
    if legs == [] {
      assert all == entries;
    } else {
      FoldedPosting(entries, txn, causeSeq, legs[..|legs| - 1], id);
      assert all[..|all| - 1] == entries + EntriesOf(txn, causeSeq, legs[..|legs| - 1]);
    }
  }

  lemma {:induction false} TickImagePosting(q: Quantity, entries: seq<Entry>, txn: TxnId, causeSeq: int, legs: seq<Leg>,
                                            tick: int)
    ensures TickImage(q, entries + EntriesOf(txn, causeSeq, legs), tick)
         == TickImage(q, entries, tick) + if txn.tick == tick then Image(q, legs) else 0
  {
    var all := entries + EntriesOf(txn, causeSeq, legs);
    if legs == [] {
      assert all == entries;
    } else {
      TickImagePosting(q, entries, txn, causeSeq, legs[..|legs| - 1], tick);
      assert all[..|all| - 1] == entries + EntriesOf(txn, causeSeq, legs[..|legs| - 1]);
    }
  }

  predicate NoRepeats(entries: seq<Entry>) {
    forall i, j :: 0 <= i < j < |entries| ==> entries[i] != entries[j]
  }

  // ---- Closure: the quantities that must stay at zero ----

  /** Invariants M-2, M-4 and M-5. */
  predicate MustBeZero(q: Quantity) {
    q.GlobalSum? || q.BaseMoney? || (q.BankDeposits? && q.bank != CENTRAL_BANK)
  }

  /** Legs that leave M-2, M-4 and M-5 where they were. */
  ghost predicate ClosedLegs(legs: seq<Leg>) {
    forall q :: MustBeZero(q) ==> Image(q, legs) == 0
  }

  ghost predicate ClosedBooks(accounts: Accounts) {
    forall q :: MustBeZero(q) ==> Measure(q, accounts) == 0
  }

  /** The closure quantities return to zero at the end of every tick. */
  ghost predicate ClosedTicks(entries: seq<Entry>) {
    forall q, tick :: MustBeZero(q) ==> TickImage(q, entries, tick) == 0
  }
}
