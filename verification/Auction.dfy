/** The bond auction that brings the treasury back to its floor. */
module Auction {
  import opened Wrappers
  import opened MapSum
  import opened Money
  import opened Splits
  import opened Books
  import opened Posting
  import opened LegLists
  import opened Builders
  import opened LedgerClass
  import opened State
  import opened LoanBooks
  import opened CreditEngine
  import opened CreditOps
  import opened Interbank
  import opened Clearing
  import opened BondRegister

  datatype DebtSettings = DebtSettings(floor: int, denomination: int, termDays: seq<int>, ticksPerDay: int,
                                       couponBp: int) {
    predicate Sane() {
      0 < denomination && termDays != []
    }
  }

  /** The shortfall rounded up to whole bonds. */
  function Face(shortfall: int, denomination: int): int
    requires 0 < denomination
  {
    (shortfall + denomination - 1) / denomination * denomination
  }

  lemma {:induction false} FaceCovers(shortfall: int, denomination: int)
    requires 0 < denomination
    ensures shortfall <= Face(shortfall, denomination) < shortfall + denomination
    ensures Face(shortfall, denomination) % denomination == 0
  {
    var n := shortfall + denomination - 1;
    assert n == n / denomination * denomination + n % denomination;
    MultipleHasNoRemainder(n / denomination, denomination);
  }

  lemma {:induction false} MultipleHasNoRemainder(q: int, d: int)
    requires 0 < d
    ensures q * d % d == 0
  {
    QuotientUnique(q * d, d, q, 0);
    assert q * d == (q * d) / d * d + (q * d) % d;
  }

  function Capacities(banks: map<string, Bank>, accounts: Accounts): map<string, int> {
    map b | b in banks && ActiveCommercial(banks, b) :: Max(0, Reserves(accounts, b))
  }

  // ---- Paying for the tranches ----

  /** The tranches of an auction: bank and cents, every bank once, every tranche worth something. */
  ghost predicate Tranches(split: map<string, int>, parts: seq<(string, int)>) {
    && (forall i :: 0 <= i < |parts| ==> parts[i].0 in split && 0 < parts[i].1 == split[parts[i].0])
    && (forall i, j :: 0 <= i < j < |parts| ==> parts[i].0 != parts[j].0)
    && (forall b :: b in split && split[b] != 0 ==> exists i :: 0 <= i < |parts| && parts[i].0 == b)
  }

  function ReserveParts(parts: seq<(string, int)>): (reserves: seq<(AccountId, int)>)
    ensures |reserves| == |parts|
    ensures forall i :: 0 <= i < |parts| ==> reserves[i] == (ReservesOf(parts[i].0), parts[i].1)
  {
    seq(|parts|, i requires 0 <= i < |parts| => (ReservesOf(parts[i].0), parts[i].1))
  }

  /** The tranches so far and the allocations still to come. */
  ghost predicate Cutting(split: map<string, int>, rest: map<string, int>, parts: seq<(string, int)>) {
    && rest.Keys <= split.Keys && (forall b :: b in rest ==> rest[b] == split[b])
    && (forall i :: 0 <= i < |parts| ==>
        parts[i].0 in split && parts[i].0 !in rest && 0 < parts[i].1 == split[parts[i].0])
    && (forall i, j :: 0 <= i < j < |parts| ==> parts[i].0 != parts[j].0)
    && (forall b :: b in split && b !in rest && split[b] != 0 ==> exists i :: 0 <= i < |parts| && parts[i].0 == b)
    && PartsTotal(ReserveParts(parts)) + Sum(rest) == Sum(split)
  }

  lemma {:induction false} CutOne(split: map<string, int>, rest: map<string, int>, parts: seq<(string, int)>, b: string)
    requires Cutting(split, rest, parts) && b in rest && 0 <= split[b]
    ensures Cutting(split, rest - {b}, if rest[b] != 0 then parts + [(b, rest[b])] else parts)
  {
    SumPick(rest, b);
    if rest[b] != 0 {
      var more := parts + [(b, rest[b])];
      assert ReserveParts(more)[..|parts|] == ReserveParts(parts);
      hide Sum, PartsTotal;
      forall c | c in split && c !in rest - {b} && split[c] != 0 ensures exists i :: 0 <= i < |more| && more[i].0 == c {
        if c == b {
          assert more[|parts|].0 == c;
        } else {
          var i :| 0 <= i < |parts| && parts[i].0 == c;
          assert more[i].0 == c;
        }
      }
      assert PartsTotal(ReserveParts(more)) == PartsTotal(ReserveParts(parts)) + rest[b] by {
        PartsGrow(ReserveParts(parts), ReserveParts(more));
      }
    }
  }

  lemma {:induction false} PartsGrow(parts: seq<(AccountId, int)>, more: seq<(AccountId, int)>)
    requires |more| == |parts| + 1 && more[..|parts|] == parts
    ensures PartsTotal(more) == PartsTotal(parts) + more[|parts|].1
  {
  }

  method CutTranches(split: map<string, int>) returns (parts: seq<(string, int)>)
    requires forall b :: b in split ==> 0 <= split[b]
    ensures Tranches(split, parts) && PartsTotal(ReserveParts(parts)) == Sum(split)
  {
    hide Cutting, Sum, PartsTotal;
    parts := [];
    var rest := split;
    CuttingStarts(split);
    while rest.Keys != {}
      invariant Cutting(split, rest, parts) && rest.Keys <= split.Keys
      decreases |rest|
    {
      var b :| b in rest.Keys;
      CutOne(split, rest, parts, b);
      if rest[b] != 0 { parts := parts + [(b, rest[b])]; }
      rest := rest - {b};
    }
    CuttingEnds(split, rest, parts);
  }

  lemma {:induction false} CuttingStarts(split: map<string, int>)
    ensures Cutting(split, split, [])
  {
  }

  lemma {:induction false} CuttingEnds(split: map<string, int>, rest: map<string, int>, parts: seq<(string, int)>)
    requires Cutting(split, rest, parts) && rest.Keys == {}
    ensures Tranches(split, parts) && PartsTotal(ReserveParts(parts)) == Sum(split)
  {
    SumZero(rest);
  }

  /** The banks' reserves and the treasury's account after the auction has been paid for; nothing else has moved. */
  ghost predicate AuctionPaid(before: Accounts, after: Accounts, split: map<string, int>, face: int) {
    && after.Keys == before.Keys
    && (forall a :: Balance(after, a)
         == Balance(before, a) + (if a == TREASURY_DEPOSIT then face else 0)
            - (if a.code.Res? && a == ReservesOf(a.owner) && a.owner in split then split[a.owner] else 0))
    && Measure(MoneyOutside, after) == Measure(MoneyOutside, before)
  }

  lemma {:induction false} AuctionDelta(split: map<string, int>, parts: seq<(string, int)>, face: int, a: AccountId)
    requires Tranches(split, parts)
    ensures Delta(BondAuctionLegs(face, ReserveParts(parts)), a)
         == (if a == TREASURY_DEPOSIT then face else 0)
            - (if a.code.Res? && a == ReservesOf(a.owner) && a.owner in split then split[a.owner] else 0)
  {
    var legs := BondAuctionLegs(face, ReserveParts(parts));
    AuctionDisjoint(split, parts, face);
    if k :| 0 <= k < |legs| && legs[k].account == a {
      DisjointDelta(legs, k);
      assert k > 0 ==> legs[k] == Debit(ReservesOf(parts[k - 1].0), parts[k - 1].1, Transfer);
    } else {
      UntouchedDelta(legs, a);
      NoTranche(split, parts, face, a);
    }
  }

  lemma {:induction false} NoTranche(split: map<string, int>, parts: seq<(string, int)>, face: int, a: AccountId)
    requires Tranches(split, parts)
    requires forall k ::
      0 <= k < |BondAuctionLegs(face, ReserveParts(parts))| ==>
        BondAuctionLegs(face, ReserveParts(parts))[k].account != a
    ensures a != TREASURY_DEPOSIT
    ensures a.code.Res? && a == ReservesOf(a.owner) && a.owner in split ==> split[a.owner] == 0
  {
    var legs := BondAuctionLegs(face, ReserveParts(parts));
    assert legs[0].account == TREASURY_DEPOSIT;
    assert forall i :: 0 <= i < |parts| ==> legs[i + 1].account == ReservesOf(parts[i].0);
  }

  lemma {:induction false} AuctionDisjoint(split: map<string, int>, parts: seq<(string, int)>, face: int)
    requires Tranches(split, parts)
    ensures Disjoint(BondAuctionLegs(face, ReserveParts(parts)))
  {
    var legs := BondAuctionLegs(face, ReserveParts(parts));
    forall i, j | 0 <= i < j < |legs| ensures legs[i].account != legs[j].account {
      assert legs[j] == Debit(ReservesOf(parts[j - 1].0), parts[j - 1].1, Transfer);
      assert i > 0 ==> legs[i] == Debit(ReservesOf(parts[i - 1].0), parts[i - 1].1, Transfer);
    }
  }

  /** The auction's posting is refused only if it would leave the treasury overdrawn. */
  lemma {:induction false} AuctionPosts(accounts: Accounts, split: map<string, int>, parts: seq<(string, int)>,
                                        face: int)
    requires Tranches(split, parts) && 0 < face == PartsTotal(ReserveParts(parts)) && IsOpen(accounts, TREASURY_DEPOSIT)
    requires forall b ::
      b in split ==> b != CENTRAL_BANK && IsOpen(accounts, ReservesOf(b)) && split[b] <= Max(0, Reserves(accounts, b))
    ensures Postable(accounts, BondAuctionLegs(face, ReserveParts(parts)), {}, false) <==>
      0 <= Balance(accounts, TREASURY_DEPOSIT) + face
    ensures ClosedLegs(BondAuctionLegs(face, ReserveParts(parts)))
  {
    var legs := BondAuctionLegs(face, ReserveParts(parts));
    AuctionDisjoint(split, parts, face);
    assert PartsTotal([]) == 0 && ReserveParts([]) == [];
    BondAuctionClosed(face, ReserveParts(parts));
    assert MustBeZero(GlobalSum) && Image(GlobalSum, legs) == 0;
    hide PartsTotal, ClosedLegs, Image, Delta;
    DisjointPostable(accounts, legs, {}, false);
    TreasuryDepositValid();
    forall i | 0 < i < |legs| ensures Fits(accounts, legs[i], {}, false) {
      assert legs[i] == Debit(ReservesOf(parts[i - 1].0), parts[i - 1].1, Transfer);
    }
    assert Fits(accounts, legs[0], {}, false) <==> 0 <= Balance(accounts, TREASURY_DEPOSIT) + face;
  }

  method PayForTranches(e: Economy, split: map<string, int>, parts: seq<(string, int)>, face: int, tick: int)
    returns (r: Result<TxnId, Rule>)
    requires CreditSound(e) && Tranches(split, parts) && 0 < face == PartsTotal(ReserveParts(parts))
    requires forall b :: b in split ==>
        b != CENTRAL_BANK && IsOpen(e.ledger.accounts, ReservesOf(b))
            && split[b] <= Max(0, Reserves(e.ledger.accounts, b))
    modifies e.ledger
    ensures CreditSound(e)
    ensures r.Success? <==> 0 <= Balance(old(e.ledger.accounts), TREASURY_DEPOSIT) + face
    ensures r.Failure? ==> e.ledger.accounts == old(e.ledger.accounts)
    ensures r.Success? ==> AuctionPaid(old(e.ledger.accounts), e.ledger.accounts, split, face)
    ensures forall a :: IsOpen(e.ledger.accounts, a) <==> IsOpen(old(e.ledger.accounts), a)
  {
    hide CreditSound, ClosedLegs, Postable, Tranches, PartsTotal, Image;
    var legs := BondAuctionLegs(face, ReserveParts(parts));
    CommonAccounts(e);
    AuctionPosts(e.ledger.accounts, split, parts, face);
    forall a ensures Delta(legs, a)
      == (if a == TREASURY_DEPOSIT then face
          else 0) - (if a.code.Res? && a == ReservesOf(a.owner) && a.owner in split then split[a.owner] else 0)
    {
      AuctionDelta(split, parts, face, a);
    }
    AuctionImage(split, parts, face);
    r := PostQuiet(e, legs, tick, {});
  }

  lemma {:induction false} AuctionImage(split: map<string, int>, parts: seq<(string, int)>, face: int)
    requires Tranches(split, parts) && face == PartsTotal(ReserveParts(parts))
    requires forall b :: b in split ==> b != CENTRAL_BANK
    ensures Image(MoneyOutside, BondAuctionLegs(face, ReserveParts(parts))) == 0
  {
    var tranches := ReserveParts(parts);
    var receipt := Credit(TREASURY_DEPOSIT, face, Transfer);
    ImageConcat(MoneyOutside, [receipt], DebitsFrom(tranches, Transfer));
    Longer([], receipt);
    assert [] + [receipt] == [receipt];
    PartLegsImage(MoneyOutside, tranches, Transfer);
    PartsImageUniform(MoneyOutside, tranches, true);
  }

  // ---- Registering the tranches ----

  /** What the tranches of one auction have in common. */
  datatype Issue = Issue(banks: set<string>, largest: string, couponBp: int, tick: int, matures: int)

  /** A bank's place among the bidders, by name. */
  function Place(banks: set<string>, bank: string): nat {
    |set b | b in banks && LexLess(b, bank)|
  }

  lemma {:induction false} PlacesDiffer(banks: set<string>, a: string, b: string)
    requires a in banks && b in banks && a != b
    ensures Place(banks, a) != Place(banks, b)
  {
    LexTotal(a, b);
    var first, second := if LexLess(a, b) then a else b, if LexLess(a, b) then b else a;
    LexTotal(first, first);
    var below, more := set c | c in banks && LexLess(c, first), set c | c in banks && LexLess(c, second);
    forall c | c in below ensures c in more {
      LexTransitive(c, first, second);
    }
    SmallerSubset(below, more, first);
  }

  lemma {:induction false} SmallerSubset(few: set<string>, more: set<string>, extra: string)
    requires few <= more && extra in more && extra !in few
    ensures |few| < |more|
  {
    assert |more| == |few| + |more - few| by {
      assert more == few + (more - few);
    }
    assert extra in more - few;
  }

  /** The largest tranche keeps the auction's own symbol; the others are numbered by their banks' places. */
  function TrancheSymbol(issue: Issue, ordinal: nat, bank: string): Symbol {
    Symbol(issue.tick, ordinal, if bank == issue.largest then None else Some(Place(issue.banks, bank)))
  }

  function TrancheBond(issue: Issue, part: (string, int)): Bond {
    Bond(part.1, issue.couponBp, issue.matures, part.0, true, issue.tick)
  }

  /** A bond out of the split: its holder's part, at face, on the auction's terms. */
  predicate IsTranche(bond: Bond, split: map<string, int>, issue: Issue) {
    bond.holder in split && 0 < bond.face == split[bond.holder]
    && bond == TrancheBond(issue, (bond.holder, split[bond.holder]))
  }

  /** What a bank took of the first n tranches. */
  function Taken(parts: seq<(string, int)>, n: nat, bank: string): int
    requires n <= |parts|
  {
    if n == 0 then 0 else Taken(parts, n - 1, bank) + if parts[n - 1].0 == bank then parts[n - 1].1 else 0
  }

  lemma {:induction false} TakenOnce(split: map<string, int>, parts: seq<(string, int)>, n: nat, bank: string)
    requires Tranches(split, parts) && n <= |parts|
    ensures Taken(parts, n, bank) == if exists i :: 0 <= i < n && parts[i].0 == bank then split[bank] else 0
  {
    if n > 0 {
      TakenOnce(split, parts, n - 1, bank);
    }
  }

  /** The bond records with the first n tranches added. */
  function Tranched(before: Bonds, parts: seq<(string, int)>, n: nat, issue: Issue): Bonds
    requires n <= |parts|
  {
    if n == 0 then before
    else
      Tranched(before, parts, n - 1, issue)
        [TrancheSymbol(issue, |before| + 1, parts[n - 1].0) := TrancheBond(issue, parts[n - 1])]
  }

  /** No tranche takes the symbol of one before it. */
  lemma {:induction false} SymbolUnused(before: Bonds, split: map<string, int>, parts: seq<(string, int)>, n: nat,
                                        m: nat, issue: Issue)
    requires n <= m < |parts| && Tranches(split, parts) && SymbolsMinted(before) && issue.banks == split.Keys
    ensures TrancheSymbol(issue, |before| + 1, parts[m].0) !in Tranched(before, parts, n, issue)
  {
    if n > 0 {
      hide Place;
      SymbolUnused(before, split, parts, n - 1, m, issue);
      assert parts[n - 1].0 != parts[m].0;
      PlacesDiffer(split.Keys, parts[n - 1].0, parts[m].0);
    }
  }

  /** Each tranche is a bond of its own. */
  lemma {:induction false} TranchesFresh(before: Bonds, split: map<string, int>, parts: seq<(string, int)>, n: nat,
                                         issue: Issue)
    requires n <= |parts| && Tranches(split, parts) && SymbolsMinted(before) && issue.banks == split.Keys
    ensures var bonds := Tranched(before, parts, n, issue);
      && |bonds| == |before| + n
      && (forall s :: s in before ==> s in bonds && bonds[s] == before[s])
      && (n < |parts| ==> TrancheSymbol(issue, |before| + 1, parts[n].0) !in bonds)
      && (forall s :: s in bonds ==> s.ordinal <= |before| + 1)
      && (0 < n ==> SymbolsMinted(bonds))
      && (forall s :: s in bonds && s !in before ==> IsTranche(bonds[s], split, issue))
  {
    hide Place;
    if n < |parts| {
      SymbolUnused(before, split, parts, n, n, issue);
    }
    if n > 0 {
      TranchesFresh(before, split, parts, n - 1, issue);
      assert IsTranche(TrancheBond(issue, parts[n - 1]), split, issue);
      hide Tranches, IsTranche;
    }
  }

  /** Every tranche so far stands under its own symbol, and no other symbol is new. */
  ghost predicate Named(before: Bonds, bonds: Bonds, parts: seq<(string, int)>, n: nat, issue: Issue)
    requires n <= |parts|
  {
    && (forall i :: 0 <= i < n ==> NamedAt(bonds, issue, |before| + 1, parts[i]))
    && (forall s :: s in bonds && s !in before ==>
          exists i :: 0 <= i < n && s == TrancheSymbol(issue, |before| + 1, parts[i].0))
  }

  predicate NamedAt(bonds: Bonds, issue: Issue, ordinal: nat, part: (string, int)) {
    var s := TrancheSymbol(issue, ordinal, part.0);
    s in bonds && bonds[s] == TrancheBond(issue, part)
  }

  lemma {:induction false} NamedMore(before: Bonds, bonds: Bonds, parts: seq<(string, int)>, n: nat, issue: Issue)
    requires n < |parts| && Named(before, bonds, parts, n, issue)
    requires TrancheSymbol(issue, |before| + 1, parts[n].0) !in bonds
    ensures Named(before, bonds[TrancheSymbol(issue, |before| + 1, parts[n].0) := TrancheBond(issue, parts[n])], parts,
                  n + 1, issue)
  {
    hide TrancheSymbol, TrancheBond;
  }

  lemma {:induction false} TranchesNamed(before: Bonds, split: map<string, int>, parts: seq<(string, int)>, n: nat,
                                         issue: Issue)
    requires n <= |parts| && Tranches(split, parts) && SymbolsMinted(before) && issue.banks == split.Keys
    ensures Named(before, Tranched(before, parts, n, issue), parts, n, issue)
  {
    if n > 0 {
      TranchesNamed(before, split, parts, n - 1, issue);
      SymbolUnused(before, split, parts, n - 1, n - 1, issue);
      hide Tranches, TrancheSymbol, SymbolsMinted, TrancheBond, Named;
      NamedMore(before, Tranched(before, parts, n - 1, issue), parts, n - 1, issue);
    }
  }

  /** The first n tranches are on both records. */
  ghost predicate Issuing(before: Bonds, held: Holdings, bonds: Bonds, holdings: Holdings, parts: seq<(string, int)>,
                          n: nat, issue: Issue)
    requires n <= |parts|
  {
    && Register(bonds, holdings)
    && bonds == Tranched(before, parts, n, issue)
    && (forall b :: Sum(HoldingsOf(holdings, b)) == Sum(HoldingsOf(held, b)) + Taken(parts, n, b))
  }

  method IssueTranches(e: Economy, ghost split: map<string, int>, parts: seq<(string, int)>, issue: Issue)
    requires Tranches(split, parts) && SymbolsMinted(e.bonds) && Register(e.bonds, e.holdings) && parts != []
    requires issue.banks == split.Keys
    modifies e`bonds, e`holdings
    ensures Issuing(old(e.bonds), old(e.holdings), e.bonds, e.holdings, parts, |parts|, issue)
    ensures SymbolsMinted(e.bonds)
  {
    hide Sum, Register, Tranches, Issuing, HoldingsOf, Tranched, Place;
    ghost var before, held := e.bonds, e.holdings;
    var ordinal := |e.bonds| + 1;
    IssuingStarts(before, held, parts, issue);
    for i := 0 to |parts|
      invariant Issuing(before, held, e.bonds, e.holdings, parts, i, issue)
    {
      TranchesFresh(before, split, parts, i, issue);
      ghost var bonds, holdings := e.bonds, e.holdings;
      IssuingFacts(before, held, bonds, holdings, parts, i, issue);
      IssueTranche(e, TrancheSymbol(issue, ordinal, parts[i].0), TrancheBond(issue, parts[i]));
      IssuingGrows(before, held, bonds, holdings, e.bonds, e.holdings, parts, i, issue);
    }
    IssuingFacts(before, held, e.bonds, e.holdings, parts, |parts|, issue);
    TranchesFresh(before, split, parts, |parts|, issue);
  }

  lemma {:induction false} IssuingStarts(bonds: Bonds, holdings: Holdings, parts: seq<(string, int)>, issue: Issue)
    requires Register(bonds, holdings)
    ensures Issuing(bonds, holdings, bonds, holdings, parts, 0, issue)
  {
  }

  lemma {:induction false} IssuingFacts(before: Bonds, held: Holdings, bonds: Bonds, holdings: Holdings,
                                        parts: seq<(string, int)>, n: nat, issue: Issue)
    requires n <= |parts| && Issuing(before, held, bonds, holdings, parts, n, issue)
    ensures Register(bonds, holdings) && bonds == Tranched(before, parts, n, issue)
  {
  }

  lemma {:induction false} IssuingGrows(before: Bonds, held: Holdings, bonds: Bonds, holdings: Holdings, bonds': Bonds,
                                        holdings': Holdings, parts: seq<(string, int)>, n: nat, issue: Issue)
    requires n < |parts| && Issuing(before, held, bonds, holdings, parts, n, issue)
    requires Register(bonds', holdings')
    requires bonds' == bonds[TrancheSymbol(issue, |before| + 1, parts[n].0) := TrancheBond(issue, parts[n])]
    requires forall b ::
      Sum(HoldingsOf(holdings', b)) == Sum(HoldingsOf(holdings, b)) + if b == parts[n].0 then parts[n].1 else 0
    ensures Issuing(before, held, bonds', holdings', parts, n + 1, issue)
  {
    hide Sum, Register, HoldingsOf, Place;
  }

  // ---- The auction ----

  datatype Outcome = NotNeeded | NoBids(offered: int, bid: int) | Cleared(face: int) | Refused(rule: Rule)

  predicate IsLargest(split: map<string, int>, largest: string) {
    && largest in split
    && forall b :: b in split ==> split[b] < split[largest] || (split[b] == split[largest] && !LexLess(largest, b))
  }

  /** The bank with the largest allocation, the later identifier deciding between equals. */
  method LargestShare(split: map<string, int>) returns (largest: string)
    requires split.Keys != {}
    ensures IsLargest(split, largest)
  {
    largest :| largest in split.Keys;
    LexTotal(largest, largest);
    var rest := split.Keys - {largest};
    while rest != {}
      invariant rest <= split.Keys && largest in split
      invariant forall b ::
        b in split && b !in rest ==> split[b] < split[largest] || (split[b] == split[largest] && !LexLess(largest, b))
    {
      var b :| b in rest;
      LexTotal(b, largest);
      LexTotal(b, b);
      if split[largest] < split[b] || (split[b] == split[largest] && LexLess(largest, b)) {
        forall c | c in split && c !in rest ensures split[c] < split[b] || (split[c] == split[b] && !LexLess(b, c)) {
          if split[c] == split[b] && LexLess(b, c) {
            LexTransitive(largest, b, c);
          }
        }
        largest := b;
      }
      rest := rest - {b};
    }
  }

  /** Paid in reserves, held in bonds: what a bank gives up at the auction it gets back at face. */
  lemma {:induction false} AuctionKeepsCapital(before: Accounts, after: Accounts, held: Holdings, holdings: Holdings,
                                               split: map<string, int>,
                                               parts: seq<(string, int)>, face: int, bank: string)
    requires AuctionPaid(before, after, split, face) && Tranches(split, parts) && bank != TREASURY
    requires bank in split ==> ReservesOf(bank) in before
    requires Sum(HoldingsOf(holdings, bank)) == Sum(HoldingsOf(held, bank)) + Taken(parts, |parts|, bank)
    ensures CapitalIn(after, holdings, bank) == CapitalIn(before, held, bank)
  {
    TakenOnce(split, parts, |parts|, bank);
    hide Sum;
    forall a | a in before && Counts(NetWorth(bank), a)
        && a != ReservesOf(bank) ensures after[a].balance == before[a].balance {
      assert Balance(after, a) == Balance(before, a);
    }
    assert Balance(after, ReservesOf(bank)) == Balance(before, ReservesOf(bank)) - if bank in split then split[bank]
        else 0;
    MeasureShift(NetWorth(bank), before, after, ReservesOf(bank), -if bank in split then split[bank] else 0);
  }

  /** Before the auction: every bank's capacity is what its reserves hold. */
  lemma {:induction false} CapacityFacts(e: Economy, face: int, split: map<string, int>)
    requires CreditSound(e) && FairSplit(face, Capacities(e.banks, e.ledger.accounts), split)
    requires 0 <= face <= Sum(Capacities(e.banks, e.ledger.accounts))
    ensures forall b :: b in split ==>
      b != CENTRAL_BANK && b != TREASURY && IsOpen(e.ledger.accounts, ReservesOf(b))
          && 0 <= split[b] <= Max(0, Reserves(e.ledger.accounts, b))
  {
    SplitBounds(face, Capacities(e.banks, e.ledger.accounts), split, Itself);
    hide FairSplit, Sum;
  }

  /** What a cleared auction has done. */
  ghost predicate AuctionCleared(before: Accounts, after: Accounts, held: Holdings, holdings: Holdings,
                                 split: map<string, int>, face: int, floor: int) {
    && AuctionPaid(before, after, split, face) && floor <= Balance(after, TREASURY_DEPOSIT)
    && (forall b :: 0 <= Reserves(before, b) ==> 0 <= Reserves(after, b))
    && (forall b :: b != TREASURY ==> CapitalIn(after, holdings, b) == CapitalIn(before, held, b))
    && (forall b :: Sum(HoldingsOf(holdings, b)) == Sum(HoldingsOf(held, b)) + if b in split then split[b] else 0)
  }

  /** Bonds on record stay as they were; the ones added are the split's tranches, one for each bank that got something,
      under its own symbol. */
  ghost predicate NewTranches(before: Bonds, after: Bonds, split: map<string, int>, issue: Issue) {
    && (forall s :: s in before ==> s in after && after[s] == before[s])
    && (forall s :: s in after && s !in before ==> IsTranche(after[s], split, issue))
    && (forall b :: b in split && split[b] != 0 ==>
          var s := TrancheSymbol(issue, |before| + 1, b);
          s in after && s !in before && after[s] == TrancheBond(issue, (b, split[b])))
    && (forall s :: s in after && s !in before ==>
          exists b :: b in split && split[b] != 0 && s == TrancheSymbol(issue, |before| + 1, b))
  }

  /** The terms of the next auction: maturities rotate with the number of bonds on record. */
  function Maturity(s: DebtSettings, bonds: Bonds, tick: int): int
    requires s.Sane()
  {
    tick + s.termDays[|bonds| % |s.termDays|] * s.ticksPerDay
  }

  ghost predicate OnTerms(s: DebtSettings, bonds: Bonds, split: map<string, int>, tick: int, issue: Issue)
    requires s.Sane()
  {
    && issue.banks == split.Keys && IsLargest(split, issue.largest)
    && issue.couponBp == s.couponBp && issue.tick == tick && issue.matures == Maturity(s, bonds, tick)
  }

  /** Sells bonds to bring the treasury to its floor, or changes nothing. With a floor of zero or more nothing is ever
      refused. */
  method FinanceDeficit(e: Economy, s: DebtSettings, tick: int)
    returns (outcome: Outcome, ghost split: map<string, int>)
    requires CreditSound(e) && s.Sane()
    requires Register(e.bonds, e.holdings) && SymbolsMinted(e.bonds)
    modifies e`bonds, e`holdings, e.ledger
    ensures CreditSound(e) && Register(e.bonds, e.holdings) && SymbolsMinted(e.bonds)
    ensures var treasury := Balance(old(e.ledger.accounts), TREASURY_DEPOSIT);
      var face, available := Face(s.floor - treasury, s.denomination), Sum(Capacities(e.banks, old(e.ledger.accounts)));
      && (outcome == NotNeeded <==> s.floor <= treasury)
      && (outcome.NoBids? <==> treasury < s.floor && available < face)
      && (outcome.Refused? <==> treasury < s.floor && face <= available && treasury + face < 0)
      && (outcome.Cleared? ==>
            && outcome.face == face && FairSplit(face, Capacities(e.banks, old(e.ledger.accounts)), split)
            && AuctionCleared(old(e.ledger.accounts), e.ledger.accounts, old(e.holdings), e.holdings, split, face,
                              s.floor)
            && exists issue ::
                 OnTerms(s, old(e.bonds), split, tick, issue) && NewTranches(old(e.bonds), e.bonds, split, issue))
      && (0 <= s.floor ==> !outcome.Refused?)
    ensures !outcome.Cleared? ==>
      e.ledger.accounts == old(e.ledger.accounts) && e.bonds == old(e.bonds) && e.holdings == old(e.holdings)
  {
    hide CreditSound, Register, SymbolsMinted, FairSplit, Sum, Tranches, PartsTotal, AuctionPaid, AuctionCleared,
         NewTranches, Face, OnTerms;
    split := map[];
    var shortfall := s.floor - Balance(e.ledger.accounts, TREASURY_DEPOSIT);
    if shortfall <= 0 { return NotNeeded, split; }
    var face := Face(shortfall, s.denomination);
    FaceCovers(shortfall, s.denomination);
    var capacity := Capacities(e.banks, e.ledger.accounts);
    var available := SumValues(capacity);
    if available < face { return NoBids(face, available), split; }
    var paid;
    paid, split := HoldAuction(e, s, face, capacity, tick);
    if paid.Failure? { return Refused(paid.error), split; }
    return Cleared(face), split;
  }

  /** Shares the face out over the bidders, takes payment, and registers the tranches. */
  method HoldAuction(e: Economy, s: DebtSettings, face: int, capacity: map<string, int>, tick: int)
    returns (r: Result<(), Rule>, ghost split: map<string, int>)
    requires CreditSound(e) && s.Sane()
    requires Register(e.bonds, e.holdings) && SymbolsMinted(e.bonds)
    requires capacity == Capacities(e.banks, e.ledger.accounts) && 0 < face <= Sum(capacity)
    requires s.floor <= Balance(e.ledger.accounts, TREASURY_DEPOSIT) + face
    modifies e`bonds, e`holdings, e.ledger
    ensures CreditSound(e) && Register(e.bonds, e.holdings) && SymbolsMinted(e.bonds)
    ensures r.Success? <==> 0 <= Balance(old(e.ledger.accounts), TREASURY_DEPOSIT) + face
    ensures r.Failure? ==>
      e.ledger.accounts == old(e.ledger.accounts) && e.bonds == old(e.bonds) && e.holdings == old(e.holdings)
    ensures r.Success? ==>
      && FairSplit(face, capacity, split)
      && AuctionCleared(old(e.ledger.accounts), e.ledger.accounts, old(e.holdings), e.holdings, split, face, s.floor)
      && exists issue ::
           OnTerms(s, old(e.bonds), split, tick, issue) && NewTranches(old(e.bonds), e.bonds, split, issue)
  {
    hide CreditSound, Register, SymbolsMinted, FairSplit, Sum, Tranches, PartsTotal, AuctionPaid, AuctionCleared,
         NewTranches, IsLargest, Maturity;
    BidsWeigh(e.banks, e.ledger.accounts);
    var allocations := SplitByName(face, capacity);
    split := allocations.value;
    CapacityFacts(e, face, allocations.value);
    SplitFacts(face, capacity, allocations.value);
    ghost var before, held, bonds := e.ledger.accounts, e.holdings, e.bonds;
    var parts := CutTranches(allocations.value);
    var paid := PayForTranches(e, allocations.value, parts, face, tick);
    if paid.Failure? { return Failure(paid.error), split; }
    var largest := LargestShare(allocations.value);
    var issue := Issue(allocations.value.Keys, largest, s.couponBp, tick, Maturity(s, e.bonds, tick));
    SomeTranche(parts, face);
    IssueTranches(e, split, parts, issue);
    IssuingFacts(bonds, held, e.bonds, e.holdings, parts, |parts|, issue);
    AllTranches(bonds, split, parts, issue);
    assert OnTerms(s, bonds, split, tick, issue);
    AuctionHolds(before, e.ledger.accounts, held, e.holdings, split, parts, face, s.floor);
    return Success(()), split;
  }

  lemma {:induction false} BidsWeigh(banks: map<string, Bank>, accounts: Accounts)
    ensures Weighty(Capacities(banks, accounts))
  {
  }

  lemma {:induction false} SplitFacts(face: int, capacity: map<string, int>, split: map<string, int>)
    requires FairSplit(face, capacity, split) && 0 < face && Weighty(capacity)
    ensures Sum(split) == face && split.Keys == capacity.Keys && split.Keys != {}
    ensures forall b :: b in split ==> 0 <= split[b]
  {
    SplitBounds(face, capacity, split, Itself);
    hide FairSplit;
    if split.Keys == {} {
      SumZero(split);
    }
  }

  lemma {:induction false} SomeTranche(parts: seq<(string, int)>, face: int)
    requires 0 < face == PartsTotal(ReserveParts(parts))
    ensures parts != []
  {
    assert PartsTotal([]) == 0 && ReserveParts([]) == [];
  }

  lemma {:induction false} AllTranches(bonds: Bonds, split: map<string, int>, parts: seq<(string, int)>, issue: Issue)
    requires Tranches(split, parts) && SymbolsMinted(bonds) && issue.banks == split.Keys
    ensures NewTranches(bonds, Tranched(bonds, parts, |parts|, issue), split, issue)
  {
    TranchesFresh(bonds, split, parts, |parts|, issue);
    TranchesNamed(bonds, split, parts, |parts|, issue);
    hide Tranched, IsTranche, TrancheSymbol, TrancheBond, SymbolsMinted;
    NamedForAll(bonds, Tranched(bonds, parts, |parts|, issue), split, parts, issue);
  }

  lemma {:induction false} NamedForAll(bonds: Bonds, after: Bonds, split: map<string, int>, parts: seq<(string, int)>,
                                       issue: Issue)
    requires Tranches(split, parts) && SymbolsMinted(bonds) && Named(bonds, after, parts, |parts|, issue)
    ensures forall b :: b in split && split[b] != 0 ==>
      var s := TrancheSymbol(issue, |bonds| + 1, b);
      s in after && s !in bonds && after[s] == TrancheBond(issue, (b, split[b]))
    ensures forall s :: s in after && s !in bonds ==>
      exists b :: b in split && split[b] != 0 && s == TrancheSymbol(issue, |bonds| + 1, b)
  {
    hide TrancheSymbol, TrancheBond, SymbolsMinted;
    forall b | b in split && split[b] != 0
      ensures var s := TrancheSymbol(issue, |bonds| + 1, b);
        s in after && s !in bonds && after[s] == TrancheBond(issue, (b, split[b]))
    {
      SymbolIsNew(bonds, issue, b);
      var i :| 0 <= i < |parts| && parts[i].0 == b;
      assert NamedAt(after, issue, |bonds| + 1, parts[i]);
    }
    forall s | s in after && s !in bonds
      ensures exists b :: b in split && split[b] != 0 && s == TrancheSymbol(issue, |bonds| + 1, b)
    {
      var i :| 0 <= i < |parts| && s == TrancheSymbol(issue, |bonds| + 1, parts[i].0);
      assert split[parts[i].0] != 0;
    }
  }

  lemma {:induction false} SymbolIsNew(bonds: Bonds, issue: Issue, bank: string)
    requires SymbolsMinted(bonds)
    ensures TrancheSymbol(issue, |bonds| + 1, bank) !in bonds
  {
  }

  lemma {:induction false} AuctionHolds(before: Accounts, after: Accounts, held: Holdings, holdings: Holdings,
                                        split: map<string, int>,
                                        parts: seq<(string, int)>, face: int, floor: int)
    requires AuctionPaid(before, after, split, face) && Tranches(split, parts)
    requires floor <= Balance(before, TREASURY_DEPOSIT) + face
    requires forall b ::
      b in split ==> b != TREASURY && IsOpen(before, ReservesOf(b)) && split[b] <= Max(0, Reserves(before, b))
    requires forall b :: Sum(HoldingsOf(holdings, b)) == Sum(HoldingsOf(held, b)) + Taken(parts, |parts|, b)
    ensures AuctionCleared(before, after, held, holdings, split, face, floor)
  {
    hide Sum, HoldingsOf, Tranches, Measure, Taken;
    forall b ensures Sum(HoldingsOf(holdings, b)) == Sum(HoldingsOf(held, b)) + if b in split then split[b] else 0 {
      TakenInAll(split, parts, b);
    }
    forall b | b != TREASURY ensures CapitalIn(after, holdings, b) == CapitalIn(before, held, b) {
      AuctionKeepsCapital(before, after, held, holdings, split, parts, face, b);
    }
  }

  lemma {:induction false} TakenInAll(split: map<string, int>, parts: seq<(string, int)>, bank: string)
    requires Tranches(split, parts)
    ensures Taken(parts, |parts|, bank) == if bank in split then split[bank] else 0
  {
    TakenOnce(split, parts, |parts|, bank);
  }
}
