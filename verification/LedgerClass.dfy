/** The double-entry ledger: accounts, an append-only entry list, and the buffer of entries not yet handed on. */
module LedgerClass {
  import opened Wrappers
  import opened MapSum
  import opened Books
  import opened Posting

  /** What every reachable chart of accounts satisfies. */
  ghost predicate SoundAccounts(accounts: Accounts) {
    && (forall id :: id in accounts ==> ValidId(id) && SoundAccount(id, accounts[id]))
    && Measure(GlobalSum, accounts) == 0
  }

  predicate SoundAccount(id: AccountId, account: Account) {
    && account.balance == account.entryBalance
    && (!OverdraftApproved(id) ==> PolarityHolds(id, account.balance))
    && (account.closedTick.Some? ==> account.balance == 0)
    && (id.code.Iss? ==> id == ISSUANCE)
  }

  /** Balances are the fold of the entries, which mention only known accounts and carry distinct transaction ids. */
  ghost predicate SoundEntries(accounts: Accounts, entries: seq<Entry>, ordinals: map<int, nat>) {
    && (forall id :: id in accounts ==> accounts[id].entryBalance == Folded(entries, id))
    && (forall i :: 0 <= i < |entries| ==> SoundEntry(accounts, entries[i], ordinals))
    && NoRepeats(entries)
    && (forall tick :: TickImage(GlobalSum, entries, tick) == 0)
  }

  predicate SoundEntry(accounts: Accounts, entry: Entry, ordinals: map<int, nat>) {
    && entry.leg.account in accounts
    && entry.txn.tick == entry.tick
    && entry.txn.ordinal < OrdinalAt(ordinals, entry.tick)
  }

  function OrdinalAt(ordinals: map<int, nat>, tick: int): nat {
    if tick in ordinals then ordinals[tick] else 0
  }

  function PostedAtTick(posted: map<int, set<TxnId>>, tick: int): set<TxnId> {
    if tick in posted then posted[tick] else {}
  }

  /** Delivered and pending entries together are the entries; the pending ones are listed under their tick. */
  ghost predicate SoundDelivery(entries: seq<Entry>, pending: seq<Entry>, delivered: seq<Entry>,
                                posted: map<int, set<TxnId>>) {
    && multiset(delivered) + multiset(pending) == multiset(entries)
    && ListedUnderTick(pending, posted)
  }

  predicate ListedUnderTick(pending: seq<Entry>, posted: map<int, set<TxnId>>) {
    && (forall i :: 0 <= i < |pending| ==> pending[i].tick in posted && pending[i].txn in posted[pending[i].tick])
    && (forall tick :: tick in posted ==> forall txn :: txn in posted[tick] ==> txn.tick == tick)
  }

  /** What a dump of the ledger holds. */
  datatype Snapshot = Snapshot(accounts: Accounts, entries: seq<Entry>, pending: seq<Entry>, dirty: set<AccountId>,
                               ordinals: map<int, nat>,
                               posted: map<int, set<TxnId>>)

  class Ledger {
    const runId: int
    var accounts: Accounts
    var entries: seq<Entry>
    var pending: seq<Entry>
    var dirty: set<AccountId>
    var ordinals: map<int, nat>
    var posted: map<int, set<TxnId>>
    ghost var delivered: seq<Entry>

    ghost predicate Valid()
      reads this
    {
      && SoundAccounts(accounts)
      && SoundEntries(accounts, entries, ordinals)
      && SoundDelivery(entries, pending, delivered, posted)
    }

    constructor (runId: int)
      ensures Valid()
      ensures this.runId == runId && accounts == map[] && entries == [] && ClosedBooks(accounts) && ClosedTicks(entries)
    {
      this.runId := runId;
      accounts, entries, pending, dirty, ordinals, posted, delivered := map[], [], [], {}, map[], map[], [];
      new;
      forall q ensures Measure(q, accounts) == 0 {
        SumZero(Counted(q, accounts));
      }
    }

    function Dump(): Snapshot
      reads this
    {
      Snapshot(accounts, entries, pending, dirty, ordinals, posted)
    }

    /** Takes over a dump; what has gone to the sink has gone. */
    method Load(saved: Snapshot)
      modifies this
      ensures Dump() == saved && delivered == old(delivered)
    {
      accounts, entries, pending := saved.accounts, saved.entries, saved.pending;
      dirty, ordinals, posted := saved.dirty, saved.ordinals, saved.posted;
    }

    function NextTxnId(tick: int): TxnId
      reads this
    {
      TxnId(tick, OrdinalAt(ordinals, tick))
    }

    method OpenAccount(id: AccountId, ownerType: string, tick: int) returns (r: Result<AccountId, Rule>)
      requires Valid()
      modifies this
      ensures Valid()
      ensures r.Success? <==> 0 <= tick && ValidId(id) && id !in old(accounts)
                              && (id.code.Iss? ==> id.owner == CENTRAL_BANK && ownerType == "central_bank")
      ensures r.Failure? ==> accounts == old(accounts)
      ensures r.Success? ==> r.value == id && accounts == old(accounts)[id := Account(ownerType, tick, None, 0, 0)]
      ensures entries == old(entries) && pending == old(pending) && delivered == old(delivered)
      ensures ordinals == old(ordinals) && posted == old(posted)
      ensures forall q :: Measure(q, accounts) == Measure(q, old(accounts))
    {
      if tick < 0 { return Failure(NegativeTick); }
      if !ValidId(id) { return Failure(InvalidAccount); }
      if id in accounts { return Failure(AccountExists); }
      if id.code.Iss? && (id.owner != CENTRAL_BANK || ownerType != "central_bank") { return Failure(IssuanceReserved); }
      ghost var before := accounts;
      accounts := accounts[id := Account(ownerType, tick, None, 0, 0)];
      dirty := dirty + {id};
      forall q ensures Measure(q, accounts) == Measure(q, before) {
        OpenedMeasure(q, before, id, accounts[id]);
      }
      UnmentionedFold(entries, id);
      return Success(id);
    }

    method CloseAccount(id: AccountId, tick: int) returns (r: Result<(), Rule>)
      requires Valid()
      modifies this
      ensures Valid()
      ensures r.Success? <==>
        IsOpen(old(accounts), id) && old(accounts)[id].balance == 0 && old(accounts)[id].openedTick <= tick
      ensures r.Failure? ==> accounts == old(accounts)
      ensures r.Success? ==> accounts == old(accounts)[id := old(accounts)[id].(closedTick := Some(tick))]
      ensures entries == old(entries) && pending == old(pending) && delivered == old(delivered)
      ensures ordinals == old(ordinals) && posted == old(posted)
      ensures forall q :: Measure(q, accounts) == Measure(q, old(accounts))
    {
      if id !in accounts { return Failure(UnknownAccount); }
      if accounts[id].closedTick != None { return Failure(ClosedAccount); }
      if accounts[id].balance != 0 { return Failure(NonZeroBalance); }
      if tick < accounts[id].openedTick { return Failure(ClosedBeforeOpened); }
      ghost var before := accounts;
      accounts := accounts[id := accounts[id].(closedTick := Some(tick))];
      dirty := dirty + {id};
      forall q ensures Measure(q, accounts) == Measure(q, before) {
        SameBalancesMeasure(q, before, accounts);
      }
      return Success(());
    }

    /** Rules P2 to P5 leg by leg; on success, the net movement of every account named. */
    method CheckLegs(legs: seq<Leg>, allowIssuance: bool) returns (r: Result<map<AccountId, int>, Rule>)
      ensures r.Success? <==> AllAdmissible(accounts, legs, allowIssuance) && NoDuplicateLegs(legs)
      ensures r.Success? ==> NetOf(legs, r.value) && Sum(r.value) == Image(GlobalSum, legs)
    {
      hide SeenIn, Tallied, LegAdmissible, KeyOf, FaultOf;
      EmptyTally(accounts, legs, allowIssuance);
      var seen: set<LegKey> := {};
      var deltas: map<AccountId, int> := map[];
      var i := 0;
      while i < |legs|
        invariant 0 <= i <= |legs|
        invariant Checked(accounts, legs, i, allowIssuance)
        invariant SeenIn(seen, legs, i)
        invariant Tallied(legs, i, deltas)
      {
        var leg := legs[i];
        var fault := FaultOf(accounts, leg, KeyOf(leg) in seen, allowIssuance);
        CheckedStep(accounts, legs, i, allowIssuance, seen);
        if fault.Some? { return Failure(fault.value); }
        TalliedStep(legs, i, deltas);
        seen := seen + {KeyOf(leg)};
        deltas := deltas[leg.account := (if leg.account in deltas then deltas[leg.account] else 0) + Signed(leg)];
        i := i + 1;
      }
      FullTally(legs, deltas);
      return Success(deltas);
    }

    /** The overdraft whitelist, then P6 on every account moved. */
    method CheckPolarity(deltas: map<AccountId, int>, allowNegative: set<AccountId>) returns (r: Result<(), Rule>)
      requires forall id :: id in deltas ==> id in accounts
      ensures r.Success? <==> (forall id :: id in allowNegative ==> OverdraftApproved(id))
                              && (forall id :: id in deltas && id !in allowNegative ==>
                                  PolarityHolds(id, accounts[id].balance + deltas[id]))
    {
      if exists id :: id in allowNegative && !OverdraftApproved(id) { return Failure(UnapprovedOverdraft); }
      var rest := deltas.Keys;
      while rest != {}
        invariant rest <= deltas.Keys
        invariant forall id ::
          id in deltas.Keys - rest && id !in allowNegative ==> PolarityHolds(id, accounts[id].balance + deltas[id])
      {
        var id :| id in rest;
        if id !in allowNegative && !PolarityHolds(id, accounts[id].balance + deltas[id]) {
          return Failure(PolarityBroken);
        }
        rest := rest - {id};
      }
      return Success(());
    }

    method PostChecked(legs: seq<Leg>, tick: int, cause: Cause, allowNegative: set<AccountId>, allowIssuance: bool)
      returns (r: Result<TxnId, Rule>)
      requires Valid()
      modifies this
      ensures Valid()
      ensures r.Success? <==>
        cause.runId == runId && cause.tick == tick && Postable(old(accounts), legs, allowNegative, allowIssuance)
      ensures r.Failure? ==> unchanged(this)
      ensures r.Success? ==> r.value == old(NextTxnId(tick)) && accounts == Posted(old(accounts), legs)
                             && entries == old(entries) + EntriesOf(r.value, cause.seqNo, legs)
                             && pending == old(pending) + EntriesOf(r.value, cause.seqNo, legs)
                             && ordinals == old(ordinals)[tick := old(NextTxnId(tick)).ordinal + 1]
                             && delivered == old(delivered)
    {
      hide SoundAccounts, SoundEntries, SoundDelivery, NetOf, AllAdmissible, NoDuplicateLegs, PolarityKept, Posted,
           Image, Sum, LegAdmissible;
      if |legs| < 2 { return Failure(TooFewLegs); }
      if cause.runId != runId || cause.tick != tick { return Failure(ForeignCause); }
      var deltas :- CheckLegs(legs, allowIssuance);
      var total := SumValues(deltas);
      if total != 0 { return Failure(Unbalanced); }
      NetPolarity(accounts, legs, deltas, allowNegative, allowIssuance);
      var _ :- CheckPolarity(deltas, allowNegative);

      var txn := NextTxnId(tick);
      var added := EntriesOf(txn, cause.seqNo, legs);
      PostedIsNet(accounts, legs, deltas);
      PostedSound(accounts, legs, allowNegative, allowIssuance);
      PostedEntriesSound(accounts, entries, ordinals, legs, txn, cause.seqNo);
      PostedDeliverySound(entries, pending, delivered, posted, txn, added);
      ordinals := ordinals[tick := txn.ordinal + 1];
      accounts := map id | id in accounts ::
        if id in deltas
        then accounts[id].(balance := accounts[id].balance + deltas[id],
                           entryBalance := accounts[id].entryBalance + deltas[id])
        else accounts[id];
      dirty := dirty + deltas.Keys;
      entries := entries + added;
      pending := pending + added;
      posted := posted[tick := PostedAtTick(posted, tick) + {txn}];
      return Success(txn);
    }

    method PostTransaction(legs: seq<Leg>, tick: int, cause: Cause, allowNegative: set<AccountId>)
      returns (r: Result<TxnId, Rule>)
      requires Valid()
      modifies this
      ensures Valid()
      ensures r.Success? <==>
        cause.runId == runId && cause.tick == tick && Postable(old(accounts), legs, allowNegative, false)
      ensures r.Failure? ==> unchanged(this)
      ensures r.Success? ==> r.value == old(NextTxnId(tick)) && accounts == Posted(old(accounts), legs)
                             && entries == old(entries) + EntriesOf(r.value, cause.seqNo, legs)
                             && pending == old(pending) + EntriesOf(r.value, cause.seqNo, legs)
                             && ordinals == old(ordinals)[tick := old(NextTxnId(tick)).ordinal + 1]
                             && delivered == old(delivered)
    {
      r := PostChecked(legs, tick, cause, allowNegative, false);
    }

    method IssueBaseMoney(legs: seq<Leg>, tick: int, cause: Cause) returns (r: Result<TxnId, Rule>)
      requires Valid()
      modifies this
      ensures Valid()
      ensures r.Success? <==>
        OneIssuanceLeg(legs) && cause.runId == runId && cause.tick == tick && Postable(old(accounts), legs, {}, true)
      ensures r.Failure? ==> unchanged(this)
      ensures r.Success? ==> r.value == old(NextTxnId(tick)) && accounts == Posted(old(accounts), legs)
                             && entries == old(entries) + EntriesOf(r.value, cause.seqNo, legs)
                             && pending == old(pending) + EntriesOf(r.value, cause.seqNo, legs)
                             && ordinals == old(ordinals)[tick := old(NextTxnId(tick)).ordinal + 1]
                             && delivered == old(delivered)
    {
      var count := 0;
      for i := 0 to |legs|
        invariant count == |IssuancePositions(legs[..i])|
      {
        assert legs[..i + 1][..i] == legs[..i];
        if legs[i].account == ISSUANCE { count := count + 1; }
      }
      assert legs[..|legs|] == legs;
      if count != 1 { return Failure(NotOneIssuanceLeg); }
      r := PostChecked(legs, tick, cause, {}, true);
    }

    /** Hands the tick's pending entries to the repository; a failing repository leaves everything in place. */
    method Flush(tick: int, repositoryAccepts: bool) returns (done: bool)
      requires Valid()
      modifies this
      ensures Valid()
      ensures done <==> repositoryAccepts || (old(dirty) == {} && OfTick(old(pending), tick) == [])
      ensures !done ==> unchanged(this)
      ensures done ==> delivered == old(delivered) + OfTick(old(pending), tick)
                       && pending == NotOfTick(old(pending), tick) && dirty == {}
                       && posted == map t | t in old(posted) && t != tick :: old(posted)[t]
      ensures accounts == old(accounts) && entries == old(entries) && ordinals == old(ordinals)
    {
      hide SoundAccounts, SoundEntries, SoundDelivery, OfTick, NotOfTick, PendingRows, PendingOthers;
      ghost var wasDelivered := delivered;
      FlushFacts(entries, pending, delivered, posted, tick);
      var rows := PendingRows(pending, PostedAtTick(posted, tick));
      var rest := PendingOthers(pending, PostedAtTick(posted, tick));
      if dirty != {} || rows != [] {
        if !repositoryAccepts { return false; }
        delivered := delivered + rows;
      }
      assert delivered == wasDelivered + rows;
      posted := map t | t in posted && t != tick :: posted[t];
      pending := rest;
      dirty := {};
      return true;
    }
  }

  // ---- Checking one leg ----

  datatype LegKey = LegKey(account: AccountId, direction: int, reason: Reason)

  function KeyOf(leg: Leg): LegKey {
    LegKey(leg.account, leg.direction, leg.reason)
  }

  /** The first rule the leg breaks, in the order they are looked at. */
  function FaultOf(accounts: Accounts, leg: Leg, repeated: bool, allowIssuance: bool): (fault: Option<Rule>)
    ensures fault == None <==> LegAdmissible(accounts, leg, allowIssuance) && !repeated
  {
    if leg.direction != 1 && leg.direction != -1 then Some(BadDirection)
    else if leg.amount <= 0 then Some(BadAmount)
    else if leg.reason.Unlisted? then Some(UnknownReason)
    else if repeated then Some(DuplicateLeg)
    else if leg.account !in accounts then Some(UnknownAccount)
    else if accounts[leg.account].closedTick != None then Some(ClosedAccount)
    else if leg.account.code.Iss? && !allowIssuance then Some(IssuanceReserved)
    else None
  }

  ghost predicate SeenIn(seen: set<LegKey>, legs: seq<Leg>, i: nat)
    requires i <= |legs|
  {
    && (forall k :: 0 <= k < i ==> KeyOf(legs[k]) in seen)
    && (forall key :: key in seen ==> exists k :: 0 <= k < i && key == KeyOf(legs[k]))
  }

  /** The first i legs pass rules P2 to P5. */
  ghost predicate Checked(accounts: Accounts, legs: seq<Leg>, i: nat, allowIssuance: bool)
    requires i <= |legs|
  {
    && (forall k :: 0 <= k < i ==> LegAdmissible(accounts, legs[k], allowIssuance))
    && (forall k, l :: 0 <= k < l < i ==> !SameKey(legs[k], legs[l]))
  }

  lemma {:induction false} CheckedStep(accounts: Accounts, legs: seq<Leg>, i: nat, allowIssuance: bool,
                                       seen: set<LegKey>)
    requires i < |legs| && SeenIn(seen, legs, i) && Checked(accounts, legs, i, allowIssuance)
    ensures FaultOf(accounts, legs[i], KeyOf(legs[i]) in seen, allowIssuance).None? ==>
              Checked(accounts, legs, i + 1, allowIssuance) && SeenIn(seen + {KeyOf(legs[i])}, legs, i + 1)
    ensures FaultOf(accounts, legs[i], KeyOf(legs[i]) in seen, allowIssuance).Some? ==>
              !(AllAdmissible(accounts, legs, allowIssuance) && NoDuplicateLegs(legs))
  {
    if KeyOf(legs[i]) in seen {
      var k :| 0 <= k < i && KeyOf(legs[i]) == KeyOf(legs[k]);
      assert SameKey(legs[k], legs[i]);
    } else {
      forall k | 0 <= k < i ensures !SameKey(legs[k], legs[i]) {
        assert KeyOf(legs[k]) in seen;
      }
    }
  }

  ghost predicate Tallied(legs: seq<Leg>, i: nat, deltas: map<AccountId, int>)
    requires i <= |legs|
  {
    NetOf(legs[..i], deltas) && Sum(deltas) == Image(GlobalSum, legs[..i])
  }

  // ---- Posting keeps the ledger sound ----

  ghost predicate NetOf(legs: seq<Leg>, deltas: map<AccountId, int>) {
    && (forall id :: id in deltas <==> exists i :: 0 <= i < |legs| && legs[i].account == id)
    && (forall id :: id in deltas ==> deltas[id] == Delta(legs, id))
  }

  lemma {:induction false} EmptyTally(accounts: Accounts, legs: seq<Leg>, allowIssuance: bool)
    ensures SeenIn({}, legs, 0) && Tallied(legs, 0, map[])
  {
  }

  lemma {:induction false} FullTally(legs: seq<Leg>, deltas: map<AccountId, int>)
    requires Tallied(legs, |legs|, deltas)
    ensures NetOf(legs, deltas) && Sum(deltas) == Image(GlobalSum, legs)
  {
    assert legs[..|legs|] == legs;
  }

  lemma {:induction false} TalliedStep(legs: seq<Leg>, i: nat, deltas: map<AccountId, int>)
    requires i < |legs| && Tallied(legs, i, deltas)
    ensures var id := legs[i].account;
      Tallied(legs, i + 1, deltas[id := (if id in deltas then deltas[id] else 0) + Signed(legs[i])])
  {
    var id := legs[i].account;
    var next := deltas[id := (if id in deltas then deltas[id] else 0) + Signed(legs[i])];
    var all := legs[..i + 1];
    assert all[..|all| - 1] == legs[..i];
    SumUpdate(deltas, id, next[id]);
    if id !in deltas {
      UntouchedDelta(legs[..i], id);
    }
    forall other ensures other in next <==> exists k :: 0 <= k < |all| && all[k].account == other {
      if other in deltas {
        var k :| 0 <= k < i && legs[..i][k].account == other;
        assert all[k].account == other;
      } else if other == id {
        assert all[i].account == other;
      } else {
        forall k | 0 <= k < |all| ensures all[k].account != other {
          if k < i { assert all[k] == legs[..i][k]; }
        }
      }
    }
  }

  lemma {:induction false} NetPolarity(accounts: Accounts, legs: seq<Leg>, deltas: map<AccountId, int>,
                                       allowNegative: set<AccountId>, issuance: bool)
    requires NetOf(legs, deltas) && AllAdmissible(accounts, legs, issuance)
    ensures Known(accounts, legs) && forall id :: id in deltas ==> id in accounts
    ensures PolarityKept(accounts, legs, allowNegative) <==>
            forall id :: id in deltas && id !in allowNegative ==> PolarityHolds(id, Balance(accounts, id) + deltas[id])
  {
    forall i | 0 <= i < |legs| ensures legs[i].account in accounts {
      assert LegAdmissible(accounts, legs[i], issuance);
    }
    if PolarityKept(accounts, legs, allowNegative) {
      forall id | id in deltas && id !in allowNegative ensures PolarityHolds(id, Balance(accounts, id) + deltas[id]) {
        var i :| 0 <= i < |legs| && legs[i].account == id;
      }
    }
  }

  lemma {:induction false} PostedIsNet(accounts: Accounts, legs: seq<Leg>, deltas: map<AccountId, int>)
    requires NetOf(legs, deltas) && Known(accounts, legs)
    ensures Posted(accounts, legs) == map id | id in accounts ::
      if id in deltas
      then accounts[id].(balance := accounts[id].balance + deltas[id],
                         entryBalance := accounts[id].entryBalance + deltas[id])
      else accounts[id]
  {
    forall id | id in accounts
      ensures Posted(accounts, legs)[id] ==
        if id in deltas
        then accounts[id].(balance := accounts[id].balance + deltas[id],
                           entryBalance := accounts[id].entryBalance + deltas[id])
        else accounts[id]
    {
      PostedAt(accounts, legs, id);
      if id !in deltas {
        UntouchedDelta(legs, id);
      }
    }
  }

  lemma {:induction false} PostedSound(accounts: Accounts, legs: seq<Leg>, allowNegative: set<AccountId>,
                                       issuance: bool)
    requires SoundAccounts(accounts) && Postable(accounts, legs, allowNegative, issuance)
    ensures Known(accounts, legs) && SoundAccounts(Posted(accounts, legs))
  {
    var after := Posted(accounts, legs);
    PostedMeasure(GlobalSum, accounts, legs);
    forall id | id in accounts ensures SoundAccount(id, after[id]) {
      PostedAt(accounts, legs, id);
      if exists i :: 0 <= i < |legs| && legs[i].account == id {
        var i :| 0 <= i < |legs| && legs[i].account == id;
        assert LegAdmissible(accounts, legs[i], issuance);
      } else {
        UntouchedDelta(legs, id);
      }
    }
  }

  lemma {:induction false} PostedEntriesSound(accounts: Accounts, entries: seq<Entry>, ordinals: map<int, nat>,
                                              legs: seq<Leg>, txn: TxnId, causeSeq: int)
    requires SoundEntries(accounts, entries, ordinals)
    requires Known(accounts, legs) && NoDuplicateLegs(legs) && Image(GlobalSum, legs) == 0
    requires txn.ordinal == OrdinalAt(ordinals, txn.tick)
    ensures SoundEntries(Posted(accounts, legs), entries + EntriesOf(txn, causeSeq, legs),
                         ordinals[txn.tick := txn.ordinal + 1])
  {
    var all := entries + EntriesOf(txn, causeSeq, legs);
    var after := Posted(accounts, legs);
    forall id | id in after ensures after[id].entryBalance == Folded(all, id) {
      PostedAt(accounts, legs, id);
      FoldedPosting(entries, txn, causeSeq, legs, id);
    }
    forall tick ensures TickImage(GlobalSum, all, tick) == 0 {
      TickImagePosting(GlobalSum, entries, txn, causeSeq, legs, tick);
    }
    forall i, j | 0 <= i < j < |all| ensures all[i] != all[j] {
      if |entries| <= i {
        assert !SameKey(legs[i - |entries|], legs[j - |entries|]);
      } else if |entries| <= j {
        assert SoundEntry(accounts, entries[i], ordinals);
      }
    }
    forall i | 0 <= i < |all| ensures SoundEntry(after, all[i], ordinals[txn.tick := txn.ordinal + 1]) {
      if i < |entries| {
        assert SoundEntry(accounts, entries[i], ordinals);
      } else {
        assert legs[i - |entries|].account in accounts;
      }
    }
  }

  lemma {:induction false} PostedDeliverySound(entries: seq<Entry>, pending: seq<Entry>, delivered: seq<Entry>,
                                               posted: map<int, set<TxnId>>,
                            txn: TxnId, added: seq<Entry>)
    requires SoundDelivery(entries, pending, delivered, posted)
    requires forall i :: 0 <= i < |added| ==> added[i].txn == txn && added[i].tick == txn.tick
    ensures SoundDelivery(entries + added, pending + added, delivered,
                          posted[txn.tick := PostedAtTick(posted, txn.tick) + {txn}])
  {
    assert ListedUnderTick(pending + added, posted[txn.tick := PostedAtTick(posted, txn.tick) + {txn}]);
    assert multiset(delivered) + multiset(pending + added) == multiset(entries + added);
  }

  lemma {:induction false} FlushFacts(entries: seq<Entry>, pending: seq<Entry>, delivered: seq<Entry>,
                                      posted: map<int, set<TxnId>>, tick: int)
    requires SoundDelivery(entries, pending, delivered, posted)
    ensures PendingRows(pending, PostedAtTick(posted, tick)) == OfTick(pending, tick)
    ensures PendingOthers(pending, PostedAtTick(posted, tick)) == NotOfTick(pending, tick)
    ensures SoundDelivery(entries, NotOfTick(pending, tick), delivered + OfTick(pending, tick), map t | t in posted
                          && t != tick :: posted[t])
  {
    PendingByTick(pending, posted, tick);
    FlushedDeliverySound(entries, pending, delivered, posted, tick);
  }

  lemma {:induction false} FlushedDeliverySound(entries: seq<Entry>, pending: seq<Entry>, delivered: seq<Entry>,
                                                posted: map<int, set<TxnId>>, tick: int)
    requires SoundDelivery(entries, pending, delivered, posted)
    ensures SoundDelivery(entries, NotOfTick(pending, tick), delivered + OfTick(pending, tick),
                          map t | t in posted && t != tick :: posted[t])
  {
    PendingSplit(pending, tick);
    assert multiset(delivered + OfTick(pending, tick)) + multiset(NotOfTick(pending, tick)) == multiset(entries);
    NotOfTickListed(pending, posted, tick);
  }

  lemma {:induction false} NotOfTickListed(pending: seq<Entry>, posted: map<int, set<TxnId>>, tick: int)
    requires ListedUnderTick(pending, posted)
    ensures ListedUnderTick(NotOfTick(pending, tick), map t | t in posted && t != tick :: posted[t])
  {
    if pending != [] {
      assert pending[|pending| - 1].tick in posted;
      NotOfTickListed(pending[..|pending| - 1], posted, tick);
    }
  }

  // ---- Issuance legs ----

  function IssuancePositions(legs: seq<Leg>): seq<nat> {
    if legs == [] then []
    else
      IssuancePositions(legs[..|legs| - 1]) + if legs[|legs| - 1].account == ISSUANCE then [|legs| - 1] else []
  }

  predicate OneIssuanceLeg(legs: seq<Leg>) {
    |IssuancePositions(legs)| == 1
  }

  // ---- The pending buffer ----

  function OfTick(entries: seq<Entry>, tick: int): seq<Entry> {
    if entries == [] then []
    else OfTick(entries[..|entries| - 1], tick) + if entries[|entries| - 1].tick == tick then [entries[|entries| - 1]]
        else []
  }

  function NotOfTick(entries: seq<Entry>, tick: int): seq<Entry> {
    if entries == [] then []
    else NotOfTick(entries[..|entries| - 1], tick) + if entries[|entries| - 1].tick != tick
        then [entries[|entries| - 1]] else []
  }

  function PendingRows(pending: seq<Entry>, txns: set<TxnId>): seq<Entry> {
    if pending == [] then []
    else PendingRows(pending[..|pending| - 1], txns) + if pending[|pending| - 1].txn in txns
        then [pending[|pending| - 1]] else []
  }

  function PendingOthers(pending: seq<Entry>, txns: set<TxnId>): seq<Entry> {
    if pending == [] then []
    else PendingOthers(pending[..|pending| - 1], txns) + if pending[|pending| - 1].txn !in txns
        then [pending[|pending| - 1]] else []
  }

  lemma {:induction false} PendingByTick(pending: seq<Entry>, posted: map<int, set<TxnId>>, tick: int)
    requires ListedUnderTick(pending, posted)
    ensures PendingRows(pending, PostedAtTick(posted, tick)) == OfTick(pending, tick)
    ensures PendingOthers(pending, PostedAtTick(posted, tick)) == NotOfTick(pending, tick)
  {
    if pending != [] {
      var last := pending[|pending| - 1];
      assert last.txn in posted[last.tick];
      PendingByTick(pending[..|pending| - 1], posted, tick);
    }
  }

  lemma {:induction false} PendingSplit(pending: seq<Entry>, tick: int)
    ensures multiset(OfTick(pending, tick)) + multiset(NotOfTick(pending, tick)) == multiset(pending)
  {
    if pending != [] {
      PendingSplit(pending[..|pending| - 1], tick);
      assert pending == pending[..|pending| - 1] + [pending[|pending| - 1]];
    }
  }

  lemma {:induction false} UnmentionedFold(entries: seq<Entry>, id: AccountId)
    requires forall i :: 0 <= i < |entries| ==> entries[i].leg.account != id
    ensures Folded(entries, id) == 0
  {
    if entries != [] {
      UnmentionedFold(entries[..|entries| - 1], id);
    }
  }

  lemma {:induction false} CountOnce(entries: seq<Entry>, entry: Entry)
    requires NoRepeats(entries)
    ensures multiset(entries)[entry] == if entry in entries then 1 else 0
  {
    if entries != [] {
      CountOnce(entries[..|entries| - 1], entry);
      assert entries == entries[..|entries| - 1] + [entries[|entries| - 1]];
    }
  }

  /** Nothing is ever delivered twice, and once a tick has been flushed every one of its entries has been delivered. */
  lemma {:induction false} DeliveredOnce(accounts: Accounts, entries: seq<Entry>, ordinals: map<int, nat>,
                                         pending: seq<Entry>,
                                         delivered: seq<Entry>, posted: map<int, set<TxnId>>, tick: int, entry: Entry)
    requires SoundEntries(accounts, entries, ordinals) && SoundDelivery(entries, pending, delivered, posted)
    ensures multiset(delivered)[entry] <= 1
    ensures entry in delivered ==> entry in entries
    ensures (forall i :: 0 <= i < |pending| ==> pending[i].tick != tick) && entry in entries && entry.tick == tick
            ==> multiset(delivered)[entry] == 1
  {
    CountOnce(entries, entry);
    assert multiset(delivered)[entry] + multiset(pending)[entry] == multiset(entries)[entry];
    if entry in delivered {
      assert 0 < multiset(delivered)[entry];
    }
    if entry in multiset(pending) {
      assert entry in pending;
    }
  }
}
