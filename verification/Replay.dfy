/** An independent tick-by-tick replay of the entries against the closure quantities and the stored balances. */
module Replay {
  import opened Wrappers
  import opened MapSum
  import opened Books
  import opened Posting
  import opened LedgerClass

  type Balances = map<AccountId, int>

  ghost function Over(q: Quantity, balances: Balances): map<AccountId, int> {
    map id | id in balances && Counts(q, id) :: balances[id]
  }

  /** What the entries of ticks 0 to last add to a quantity. */
  function RangeImage(q: Quantity, entries: seq<Entry>, last: int): int
    decreases last
  {
    if last < 0 then 0 else RangeImage(q, entries, last - 1) + TickImage(q, entries, last)
  }

  /** What the entries of one tick add to one account. */
  function TickHit(entries: seq<Entry>, id: AccountId, tick: int): int {
    if entries == [] then 0
    else
      var entry := entries[|entries| - 1];
      TickHit(entries[..|entries| - 1], id, tick) + if entry.tick == tick then Hit(entry.leg, id) else 0
  }

  function RangeHit(entries: seq<Entry>, id: AccountId, last: int): int
    decreases last
  {
    if last < 0 then 0 else RangeHit(entries, id, last - 1) + TickHit(entries, id, last)
  }

  /** Some quantity that must be zero is not, among those the audit looks at. */
  ghost predicate ImbalancedAt(accounts: Accounts, entries: seq<Entry>, tick: int) {
    || RangeImage(GlobalSum, entries, tick) != 0
    || RangeImage(BaseMoney, entries, tick) != 0
    || exists bank :: bank in DepositBanks(accounts) && RangeImage(BankDeposits(bank), entries, tick) != 0
  }

  function DepositBanks(accounts: Accounts): set<string> {
    set id | id in accounts && id.code.Dpl? && id.owner != CENTRAL_BANK :: id.owner
  }

  predicate AllKnown(accounts: Accounts, entries: seq<Entry>) {
    forall i :: 0 <= i < |entries| ==> entries[i].leg.account in accounts
  }

  function Abs(x: int): nat {
    if x < 0 then -x else x
  }

  /** Balances after the replay of everything before tick, and of the first i entries of that tick. */
  ghost predicate Replaying(accounts: Accounts, entries: seq<Entry>, balances: Balances, tick: int, i: nat)
    requires i <= |entries|
  {
    && balances.Keys == accounts.Keys
    && (forall id :: id in balances ==>
        balances[id] == RangeHit(entries, id, tick - 1) + TickHit(entries[..i], id, tick))
    && (forall q :: Sum(Over(q, balances)) == RangeImage(q, entries, tick - 1) + TickImage(q, entries[..i], tick))
  }

  lemma {:induction false} ReplayStarts(accounts: Accounts, entries: seq<Entry>)
    ensures Replaying(accounts, entries, map id | id in accounts :: 0, 0, 0)
  {
    var zeros: Balances := map id | id in accounts :: 0;
    forall q ensures Sum(Over(q, zeros)) == 0 {
      SumZero(Over(q, zeros));
    }
  }

  lemma {:induction false} ReplayTurns(accounts: Accounts, entries: seq<Entry>, balances: Balances, tick: nat)
    requires Replaying(accounts, entries, balances, tick, |entries|)
    ensures Replaying(accounts, entries, balances, tick + 1, 0)
    ensures forall q :: Sum(Over(q, balances)) == RangeImage(q, entries, tick)
  {
    assert entries[..|entries|] == entries;
  }

  function Applied(balances: Balances, entry: Entry): Balances
    requires entry.leg.account in balances
  {
    balances[entry.leg.account := balances[entry.leg.account] + Signed(entry.leg)]
  }

  lemma {:induction false} ReplaySteps(accounts: Accounts, entries: seq<Entry>, balances: Balances, tick: nat, i: nat)
    requires i < |entries| && AllKnown(accounts, entries) && Replaying(accounts, entries, balances, tick, i)
    ensures entries[i].leg.account in balances
    ensures Replaying(accounts, entries, if entries[i].tick == tick then Applied(balances, entries[i])
                      else balances, tick, i + 1)
  {
    var entry := entries[i];
    assert entries[..i + 1][..i] == entries[..i];
    if entry.tick == tick {
      var id := entry.leg.account;
      forall q ensures Sum(Over(q, Applied(balances, entry))) == Sum(Over(q, balances)) + Term(q, entry.leg) {
        if Counts(q, id) {
          assert Over(q, Applied(balances, entry)) == Over(q, balances)[id := balances[id] + Signed(entry.leg)];
          SumUpdate(Over(q, balances), id, balances[id] + Signed(entry.leg));
        } else {
          assert Over(q, Applied(balances, entry)) == Over(q, balances);
        }
      }
    }
  }

  /** The total of the absolute deposit imbalances over the commercial banks. */
  method DepositImbalance(balances: Balances, banks: set<string>) returns (total: nat)
    ensures total == 0 <==> forall bank :: bank in banks ==> Sum(Over(BankDeposits(bank), balances)) == 0
  {
    total := 0;
    var rest := banks;
    while rest != {}
      invariant rest <= banks
      invariant total == 0 <==> forall bank :: bank in banks - rest ==> Sum(Over(BankDeposits(bank), balances)) == 0
    {
      var bank :| bank in rest;
      var imbalance := SumValues(map id | id in balances && Counts(BankDeposits(bank), id) :: balances[id]);
      total := total + Abs(imbalance);
      rest := rest - {bank};
    }
  }

  /** Ticks that end out of balance, and the total gap between replayed and stored balances. */
  method PosthocClosure(accounts: Accounts, entries: seq<Entry>, lastTick: int)
    returns (violating: seq<int>, materialisation: nat)
    requires AllKnown(accounts, entries)
    ensures forall tick :: tick in violating <==> 0 <= tick <= lastTick && ImbalancedAt(accounts, entries, tick)
    ensures materialisation == 0 <==>
      forall id :: id in accounts ==> RangeHit(entries, id, lastTick) == accounts[id].balance
  {
    hide Replaying, RangeImage, RangeHit, DepositBanks, ImbalancedAt, Sum;
    var balances: Balances := map id | id in accounts :: 0;
    var banks := DepositBanks(accounts);
    violating := [];
    ReplayStarts(accounts, entries);
    var tick := 0;
    while tick <= lastTick
      invariant 0 <= tick && (0 <= lastTick ==> tick <= lastTick + 1) && (lastTick < 0 ==> tick == 0)
      invariant Replaying(accounts, entries, balances, tick, 0)
      invariant forall t :: t in violating <==> 0 <= t < tick && ImbalancedAt(accounts, entries, t)
    {
      for i := 0 to |entries|
        invariant Replaying(accounts, entries, balances, tick, i)
      {
        ReplaySteps(accounts, entries, balances, tick, i);
        if entries[i].tick == tick { balances := Applied(balances, entries[i]); }
      }
      ReplayTurns(accounts, entries, balances, tick);
      var global := SumValues(map id | id in balances && Counts(GlobalSum, id) :: balances[id]);
      var base := SumValues(map id | id in balances && Counts(BaseMoney, id) :: balances[id]);
      var deposits := DepositImbalance(balances, banks);
      Imbalance(accounts, entries, balances, tick, global, base, deposits);
      if global != 0 || base != 0 || deposits != 0 {
        violating := violating + [tick];
      }
      tick := tick + 1;
    }
    ReplayedBalances(accounts, entries, balances, tick, lastTick);
    materialisation := TotalGap(accounts, balances);
  }

  lemma {:induction false} Imbalance(accounts: Accounts, entries: seq<Entry>, balances: Balances, tick: int,
                                     global: int,
                                     base: int, deposits: int)
    requires forall q :: Sum(Over(q, balances)) == RangeImage(q, entries, tick)
    requires global == Sum(Over(GlobalSum, balances)) && base == Sum(Over(BaseMoney, balances))
    requires deposits == 0 <==>
      forall bank :: bank in DepositBanks(accounts) ==> Sum(Over(BankDeposits(bank), balances)) == 0
    ensures ImbalancedAt(accounts, entries, tick) <==> global != 0 || base != 0 || deposits != 0
  {
    hide Sum, RangeImage, DepositBanks;
  }

  lemma {:induction false} ReplayedBalances(accounts: Accounts, entries: seq<Entry>, balances: Balances, tick: int,
                                            lastTick: int)
    requires Replaying(accounts, entries, balances, tick, 0)
    requires tick == lastTick + 1 || (lastTick < 0 && tick == 0)
    ensures balances.Keys == accounts.Keys
    ensures forall id :: id in balances ==> balances[id] == RangeHit(entries, id, lastTick)
  {
  }

  method TotalGap(accounts: Accounts, balances: Balances) returns (gap: nat)
    requires balances.Keys == accounts.Keys
    ensures gap == 0 <==> forall id :: id in accounts ==> balances[id] == accounts[id].balance
  {
    gap := 0;
    var rest := accounts.Keys;
    while rest != {}
      invariant rest <= accounts.Keys
      invariant gap == 0 <==> forall id :: id in accounts.Keys - rest ==> balances[id] == accounts[id].balance
    {
      var id :| id in rest;
      gap := gap + Abs(balances[id] - accounts[id].balance);
      rest := rest - {id};
    }
  }

  // ---- A sound, closed ledger passes its audit ----

  lemma {:induction false} ClosedRange(entries: seq<Entry>, q: Quantity, last: int)
    requires ClosedTicks(entries) && MustBeZero(q)
    ensures RangeImage(q, entries, last) == 0
    decreases last
  {
    if 0 <= last {
      ClosedRange(entries, q, last - 1);
      assert TickImage(q, entries, last) == 0;
    }
  }

  lemma {:induction false} FoldIsRange(entries: seq<Entry>, id: AccountId, last: int)
    requires forall i :: 0 <= i < |entries| ==> 0 <= entries[i].tick <= last
    ensures RangeHit(entries, id, last) == Folded(entries, id)
  {
    if entries == [] {
      EmptyRange(id, last);
    } else {
      FoldIsRange(entries[..|entries| - 1], id, last);
      RangeAppends(entries, id, last);
    }
  }

  lemma {:induction false} EmptyRange(id: AccountId, last: int)
    ensures RangeHit([], id, last) == 0
    decreases last
  {
    if 0 <= last {
      EmptyRange(id, last - 1);
    }
  }

  lemma {:induction false} RangeAppends(entries: seq<Entry>, id: AccountId, last: int)
    requires entries != []
    ensures var entry := entries[|entries| - 1];
      RangeHit(entries, id, last) == RangeHit(entries[..|entries| - 1], id, last)
        + if 0 <= entry.tick <= last then Hit(entry.leg, id) else 0
    decreases last
  {
    if 0 <= last {
      RangeAppends(entries, id, last - 1);
    }
  }

  /** The audit of any ledger whose postings were all closed finds no bad tick and no gap. */
  lemma {:induction false} AuditPasses(accounts: Accounts, entries: seq<Entry>, ordinals: map<int, nat>, lastTick: int)
    requires SoundAccounts(accounts) && SoundEntries(accounts, entries, ordinals) && ClosedTicks(entries)
    requires forall i :: 0 <= i < |entries| ==> 0 <= entries[i].tick <= lastTick
    ensures AllKnown(accounts, entries)
    ensures forall tick :: !ImbalancedAt(accounts, entries, tick)
    ensures forall id :: id in accounts ==> RangeHit(entries, id, lastTick) == accounts[id].balance
  {
    forall i | 0 <= i < |entries| ensures entries[i].leg.account in accounts {
      assert SoundEntry(accounts, entries[i], ordinals);
    }
    forall tick ensures !ImbalancedAt(accounts, entries, tick) {
      ClosedRange(entries, GlobalSum, tick);
      ClosedRange(entries, BaseMoney, tick);
      forall bank | bank in DepositBanks(accounts) ensures RangeImage(BankDeposits(bank), entries, tick) == 0 {
        ClosedRange(entries, BankDeposits(bank), tick);
      }
    }
    forall id | id in accounts ensures RangeHit(entries, id, lastTick) == accounts[id].balance {
      FoldIsRange(entries, id, lastTick);
      assert SoundAccount(id, accounts[id]);
    }
  }
}
