/** Securities and firm shares passing from the dead to their heirs. */
module Interests {
  import opened Wrappers
  import opened MapSum
  import opened Money
  import opened Splits
  import opened Books

  /** What is held, a security or a class of a firm's shares, and by whom. */
  datatype Stake = Stake(asset: string, holder: string)

  type Stakes = map<Stake, int>

  function HeldOf(stakes: Stakes, asset: string): map<Stake, int> {
    map s | s in stakes && s.asset == asset :: stakes[s]
  }

  function QuantityOf(stakes: Stakes, s: Stake): int {
    if s in stakes then stakes[s] else 0
  }

  lemma {:induction false} HeldUpdate(stakes: Stakes, s: Stake, quantity: int, asset: string)
    ensures Sum(HeldOf(stakes[s := quantity], asset))
         == Sum(HeldOf(stakes, asset)) + if s.asset == asset then quantity - QuantityOf(stakes, s) else 0
  {
    if s.asset == asset {
      assert HeldOf(stakes[s := quantity], asset) == HeldOf(stakes, asset)[s := quantity];
      SumUpdate(HeldOf(stakes, asset), s, quantity);
    } else {
      assert HeldOf(stakes[s := quantity], asset) == HeldOf(stakes, asset);
    }
  }

  lemma {:induction false} HeldDrop(stakes: Stakes, s: Stake, asset: string)
    requires s in stakes
    ensures Sum(HeldOf(stakes - {s}, asset)) == Sum(HeldOf(stakes, asset)) - if s.asset == asset then stakes[s] else 0
  {
    if s.asset == asset {
      SumPick(HeldOf(stakes, asset), s);
      assert HeldOf(stakes, asset) - {s} == HeldOf(stakes - {s}, asset);
    } else {
      assert HeldOf(stakes - {s}, asset) == HeldOf(stakes, asset);
    }
  }

  /** Each recipient has its part added to what it held, nothing else has changed, and the asset has grown by what was
      given. */
  ghost predicate Added(before: Stakes, now: Stakes, asset: string, given: map<string, int>) {
    && AddedRows(before, now, asset, given)
    && (forall other :: Sum(HeldOf(now, other)) == Sum(HeldOf(before, other)) + if other == asset then Sum(given)
        else 0)
  }

  predicate AddedTo(before: Stakes, now: Stakes, asset: string, given: map<string, int>, s: Stake) {
    && QuantityOf(now, s)
        == QuantityOf(before, s) + (if s.asset == asset && s.holder in given then given[s.holder] else 0)
    && (s in before ==> s in now)
    && (s in now && s !in before ==> s.asset == asset && s.holder in given)
  }

  ghost predicate AddedRows(before: Stakes, now: Stakes, asset: string, given: map<string, int>) {
    forall s :: AddedTo(before, now, asset, given, s)
  }

  lemma {:induction false} RowsMore(before: Stakes, now: Stakes, asset: string, given: map<string, int>, heir: string,
                                    quantity: int)
    requires AddedRows(before, now, asset, given) && heir !in given
    ensures AddedRows(before, now[Stake(asset, heir) := QuantityOf(now, Stake(asset, heir)) + quantity], asset,
                      given[heir := quantity])
  {
    var after, more := now[Stake(asset, heir) := QuantityOf(now, Stake(asset, heir)) + quantity],
        given[heir := quantity];
    forall s ensures AddedTo(before, after, asset, more, s) {
      assert AddedTo(before, now, asset, given, s);
    }
  }

  lemma {:induction false} AddedMore(before: Stakes, now: Stakes, asset: string, given: map<string, int>, heir: string,
                                     quantity: int)
    requires Added(before, now, asset, given) && heir !in given
    ensures Added(before, now[Stake(asset, heir) := QuantityOf(now, Stake(asset, heir)) + quantity], asset,
                  given[heir := quantity])
  {
    hide Sum, HeldOf, AddedRows;
    SumUpdate(given, heir, quantity);
    RowsMore(before, now, asset, given, heir, quantity);
    var s := Stake(asset, heir);
    forall other
      ensures Sum(HeldOf(now[s := QuantityOf(now, s) + quantity], other)) == Sum(HeldOf(now, other)) + if asset == other
          then quantity else 0
    {
      HeldUpdate(now, s, QuantityOf(now, s) + quantity, other);
    }
  }

  lemma {:induction false} AddedNone(before: Stakes, now: Stakes, asset: string, given: map<string, int>, heir: string)
    requires Added(before, now, asset, given) && heir !in given
    ensures Added(before, now, asset, given[heir := 0])
  {
    hide HeldOf;
    SumUpdate(given, heir, 0);
    hide Sum;
    var more := given[heir := 0];
    forall s ensures AddedTo(before, now, asset, more, s) {
      assert AddedTo(before, now, asset, given, s);
    }
  }

  lemma {:induction false} RowsFacts(before: Stakes, now: Stakes, asset: string, given: map<string, int>)
    requires AddedRows(before, now, asset, given)
    ensures forall s ::
      QuantityOf(now, s) == QuantityOf(before, s) + if s.asset == asset && s.holder in given then given[s.holder] else 0
    ensures forall s :: s in before ==> s in now
    ensures forall s :: s in now && s !in before ==> s.asset == asset && s.holder in given
  {
    forall s
      ensures QuantityOf(now, s) == QuantityOf(before, s) + if s.asset == asset && s.holder in given
          then given[s.holder] else 0
      ensures (s in before ==> s in now) && (s in now && s !in before ==> s.asset == asset && s.holder in given)
    {
      assert AddedTo(before, now, asset, given, s);
    }
  }

  method AddShares(stakes: Stakes, asset: string, shares: map<string, int>) returns (after: Stakes)
    ensures Added(stakes, after, asset, shares)
  {
    hide Added;
    after := stakes;
    ghost var given: map<string, int> := map[];
    NothingAdded(stakes, asset);
    var rest := shares.Keys;
    while rest != {}
      invariant rest <= shares.Keys && given.Keys == shares.Keys - rest
      invariant forall h :: h in given ==> given[h] == shares[h]
      invariant Added(stakes, after, asset, given)
    {
      var heir :| heir in rest;
      if shares[heir] == 0 {
        AddedNone(stakes, after, asset, given, heir);
      } else {
        AddedMore(stakes, after, asset, given, heir, shares[heir]);
        after := after[Stake(asset, heir) := QuantityOf(after, Stake(asset, heir)) + shares[heir]];
      }
      given := given[heir := shares[heir]];
      rest := rest - {heir};
    }
    assert given == shares;
  }

  lemma {:induction false} NothingAdded(stakes: Stakes, asset: string)
    ensures Added(stakes, stakes, asset, map[])
  {
    SumZero<string>(map[]);
  }

  /** Who receives: the heirs by their weights, or else the treasury. */
  function Recipients(heirs: map<string, int>): map<string, int> {
    if heirs.Keys != {} then heirs else map[TREASURY := 1]
  }

  ghost predicate SameTotals(before: Stakes, after: Stakes) {
    forall asset :: Sum(HeldOf(after, asset)) == Sum(HeldOf(before, asset))
  }

  lemma {:induction false} RecipientsWeigh(heirs: map<string, int>)
    requires forall h :: h in heirs ==> 0 < heirs[h]
    ensures Weighty(Recipients(heirs)) && 0 < Sum(Recipients(heirs))
  {
    var who := Recipients(heirs);
    assert heirs.Keys == {} ==> TREASURY in who.Keys;
    var h :| h in who.Keys;
    SumBoundsPart(who, h);
  }

  ghost predicate Untouched(before: Stakes, after: Stakes, asset: string) {
    forall h: string :: QuantityOf(after, Stake(asset, h)) == QuantityOf(before, Stake(asset, h))
  }

  /** Every recipient has its part of what the holder had, the holder has none left, and nobody else's holding has
      changed. */
  ghost predicate Shared(before: Stakes, after: Stakes, asset: string, holder: string, split: map<string, int>) {
    && QuantityOf(after, Stake(asset, holder)) == 0
    && forall h: string :: h != holder ==>
         QuantityOf(after, Stake(asset, h)) == QuantityOf(before, Stake(asset, h)) + if h in split then split[h] else 0
  }

  /** What a holder had of an asset has been split fairly among the recipients, if it had any. */
  ghost predicate AssetPassed(before: Stakes, after: Stakes, asset: string, holder: string, who: map<string, int>) {
    var quantity := QuantityOf(before, Stake(asset, holder));
    if 0 < quantity then exists split :: FairSplit(quantity, who, split) && Shared(before, after, asset, holder, split)
    else Untouched(before, after, asset)
  }

  ghost predicate AllPassed(before: Stakes, after: Stakes, holder: string, who: map<string, int>) {
    forall asset :: AssetPassed(before, after, asset, holder, who)
  }

  /** One stake split among the recipients: every unit is passed on, none is made, each recipient gets its part. */
  method PassStake(stakes: Stakes, s: Stake, heirs: map<string, int>, drop: bool) returns (after: Stakes)
    requires s in stakes && 0 < stakes[s] && forall h :: h in heirs ==> 0 < heirs[h]
    requires s.holder !in Recipients(heirs)
    ensures SameTotals(stakes, after) && AssetPassed(stakes, after, s.asset, s.holder, Recipients(heirs))
    ensures forall asset :: asset != s.asset ==> Untouched(stakes, after, asset)
  {
    hide Sum, HeldOf, FairSplit;
    var who := Recipients(heirs);
    RecipientsWeigh(heirs);
    var split := SplitByName(stakes[s], who);
    SplitNames(stakes[s], who, split.value);
    var given := AddShares(stakes, s.asset, split.value);
    RowsFacts(stakes, given, s.asset, split.value);
    forall asset ensures Sum(HeldOf(given[s := 0], asset)) == Sum(HeldOf(stakes, asset)) {
      HeldUpdate(given, s, 0, asset);
    }
    forall asset ensures Sum(HeldOf(given - {s}, asset)) == Sum(HeldOf(stakes, asset)) {
      HeldDrop(given, s, asset);
    }
    after := if drop then given - {s} else given[s := 0];
    assert Shared(stakes, after, s.asset, s.holder, split.value);
  }

  lemma {:induction false} SplitNames(pool: int, who: map<string, int>, split: map<string, int>)
    requires FairSplit(pool, who, split)
    ensures split.Keys == who.Keys && Sum(split) == pool
  {
  }

  /** Every stake of one holder. */
  method PassAll(stakes: Stakes, agent: string, heirs: map<string, int>, drop: bool) returns (after: Stakes)
    requires agent !in Recipients(heirs) && forall h :: h in heirs ==> 0 < heirs[h]
    ensures SameTotals(stakes, after) && AllPassed(stakes, after, agent, Recipients(heirs))
    ensures forall s: Stake :: s.holder == agent ==> QuantityOf(after, s) <= 0
  {
    hide Sum, HeldOf, AssetPassed, Untouched;
    after := stakes;
    var rest := set s | s in stakes && s.holder == agent && 0 < stakes[s];
    NonePassed(stakes, agent, rest, Recipients(heirs));
    while rest != {}
      invariant SameTotals(stakes, after) && PassedExcept(stakes, after, agent, rest, Recipients(heirs))
      invariant forall s :: s in rest ==> s.holder == agent && s in stakes && 0 < stakes[s]
      decreases |rest|
    {
      var s :| s in rest;
      ghost var now := after;
      StillHeld(stakes, now, s);
      after := PassStake(after, s, heirs, drop);
      OnePassed(stakes, now, after, agent, rest, Recipients(heirs), s);
      rest := rest - {s};
    }
    forall s: Stake | s.holder == agent ensures QuantityOf(after, s) <= 0 {
      assert AssetPassed(stakes, after, s.asset, agent, Recipients(heirs));
      NothingKept(stakes, after, s, Recipients(heirs));
    }
  }

  /** Every stake has been passed on but those still to come, and these are as they were. */
  ghost predicate PassedExcept(before: Stakes, now: Stakes, holder: string, rest: set<Stake>, who: map<string, int>) {
    forall asset :: if Stake(asset, holder) in rest then Untouched(before, now, asset)
        else AssetPassed(before, now, asset, holder, who)
  }

  lemma {:induction false} NonePassed(stakes: Stakes, holder: string, rest: set<Stake>, who: map<string, int>)
    requires forall s: Stake :: s in stakes && s.holder == holder && 0 < stakes[s] ==> s in rest
    ensures PassedExcept(stakes, stakes, holder, rest, who)
  {
  }

  lemma {:induction false} StillHeld(before: Stakes, now: Stakes, s: Stake)
    requires s in before && 0 < before[s]
    ensures Untouched(before, now, s.asset) ==> s in now && now[s] == before[s]
  {
    if Untouched(before, now, s.asset) {
      assert QuantityOf(now, Stake(s.asset, s.holder)) == QuantityOf(before, Stake(s.asset, s.holder));
    }
  }

  lemma {:induction false} OnePassed(before: Stakes, now: Stakes, after: Stakes, holder: string, rest: set<Stake>,
                                     who: map<string, int>, s: Stake)
    requires PassedExcept(before, now, holder, rest, who) && s in rest && s.holder == holder
    requires AssetPassed(now, after, s.asset, holder, who)
    requires forall asset :: asset != s.asset ==> Untouched(now, after, asset)
    ensures PassedExcept(before, after, holder, rest - {s}, who)
  {
    forall asset
      ensures if Stake(asset, holder) in rest - {s} then Untouched(before, after, asset)
          else AssetPassed(before, after, asset, holder, who)
    {
      if asset == s.asset {
        assert Untouched(before, now, asset);
        SamePassed(before, now, after, asset, holder, who);
      } else {
        PassedKept(before, now, after, asset, holder, who);
      }
    }
  }

  lemma {:induction false} SamePassed(before: Stakes, now: Stakes, after: Stakes, asset: string, holder: string,
                                      who: map<string, int>)
    requires Untouched(before, now, asset) && AssetPassed(now, after, asset, holder, who)
    ensures AssetPassed(before, after, asset, holder, who)
  {
    var quantity := QuantityOf(before, Stake(asset, holder));
    assert quantity == QuantityOf(now, Stake(asset, holder));
    if 0 < quantity {
      var split :| FairSplit(quantity, who, split) && Shared(now, after, asset, holder, split);
      assert Shared(before, after, asset, holder, split);
    }
  }

  lemma {:induction false} PassedKept(before: Stakes, now: Stakes, after: Stakes, asset: string, holder: string,
                                      who: map<string, int>)
    requires Untouched(now, after, asset)
    ensures Untouched(before, now, asset) ==> Untouched(before, after, asset)
    ensures AssetPassed(before, now, asset, holder, who) ==> AssetPassed(before, after, asset, holder, who)
  {
    hide FairSplit;
    if AssetPassed(before, now, asset, holder, who) && 0 < QuantityOf(before, Stake(asset, holder)) {
      var split :| FairSplit(QuantityOf(before, Stake(asset, holder)), who, split)
          && Shared(before, now, asset, holder, split);
      assert Shared(before, after, asset, holder, split);
    }
  }

  lemma {:induction false} NothingKept(before: Stakes, after: Stakes, s: Stake, who: map<string, int>)
    requires AssetPassed(before, after, s.asset, s.holder, who)
    ensures QuantityOf(after, s) <= 0
  {
    assert s == Stake(s.asset, s.holder);
  }

  /** The exchange's holdings and the firms' cap tables. */
  class Registers {
    var holdings: Stakes
    var shares: Stakes

    constructor (holdings: Stakes, shares: Stakes)
      ensures this.holdings == holdings && this.shares == shares
    {
      this.holdings, this.shares := holdings, shares;
    }

    /** Everything the dead held passes on, each recipient getting its fair part of every security and of every class of
        shares; their totals stay what they were, and nobody else's holding changes. */
    method TransferInterests(agent: string, heirs: map<string, int>)
      requires agent !in Recipients(heirs) && forall h :: h in heirs ==> 0 < heirs[h]
      modifies this
      ensures SameTotals(old(holdings), holdings) && SameTotals(old(shares), shares)
      ensures AllPassed(old(holdings), holdings, agent, Recipients(heirs))
      ensures AllPassed(old(shares), shares, agent, Recipients(heirs))
      ensures forall s: Stake :: s.holder == agent ==> QuantityOf(holdings, s) <= 0 && QuantityOf(shares, s) <= 0
    {
      holdings := PassAll(holdings, agent, heirs, false);
      shares := PassAll(shares, agent, heirs, true);
    }
  }
}
