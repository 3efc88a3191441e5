/** The first issue of money: deposits for a class of owners, and for each bank the reserves behind them. */
module Genesis {
  import opened Wrappers
  import opened MapSum
  import opened Books
  import opened Posting
  import opened LegLists
  import opened Builders
  import opened LedgerClass
  import opened Closure

  predicate AtCommercialBank(id: AccountId) {
    id.code.Dep? && id.bank.Some? && id.bank.value != CENTRAL_BANK
  }

  /** The grants so far, bank by bank, match the deposits so far. */
  ghost predicate Matching(credits: seq<(AccountId, int)>, byBank: map<string, int>) {
    && Sum(byBank) == PartsTotal(credits) && CENTRAL_BANK !in byBank
    && forall bank :: (if bank in byBank then byBank[bank] else 0) == PartsImage(BankDeposits(bank), credits)
  }

  lemma {:induction false} MatchingMore(credits: seq<(AccountId, int)>, byBank: map<string, int>, deposit: AccountId,
                                        cents: int)
    requires Matching(credits, byBank) && AtCommercialBank(deposit)
    ensures var bank := deposit.bank.value;
      Matching(credits + [(deposit, cents)], byBank[bank := (if bank in byBank then byBank[bank] else 0) + cents])
  {
    var more := credits + [(deposit, cents)];
    assert more[..|credits|] == credits;
    SumUpdate(byBank, deposit.bank.value,
              (if deposit.bank.value in byBank then byBank[deposit.bank.value] else 0) + cents);
  }

  lemma {:induction false} MatchingNone()
    ensures Matching([], map[])
  {
    SumZero<string>(map[]);
  }

  predicate DistinctBanks(grants: seq<(string, int)>) {
    forall i, j :: 0 <= i < j < |grants| ==> grants[i].0 != grants[j].0
  }

  /** The allocations that amount to something. */
  function Something(allocations: seq<(AccountId, int)>): (credits: seq<(AccountId, int)>)
    ensures forall k :: 0 <= k < |credits| ==> credits[k] in allocations && credits[k].1 != 0
  {
    if allocations == [] then []
    else
      var last := allocations[|allocations| - 1];
      Something(allocations[..|allocations| - 1]) + if last.1 != 0 then [last] else []
  }

  lemma {:induction false} SomethingMore(allocations: seq<(AccountId, int)>, i: nat)
    requires i < |allocations|
    ensures Something(allocations[..i + 1])
         == Something(allocations[..i]) + if allocations[i].1 != 0 then [allocations[i]] else []
  {
    assert allocations[..i + 1][..i] == allocations[..i];
  }

  lemma {:induction false} NothingYet()
    ensures Something([]) == [] && SameCredits([], [])
  {
  }

  lemma {:induction false} CreditsDone(credits: seq<(AccountId, int)>, allocations: seq<(AccountId, int)>)
    requires SameCredits(credits, allocations)
    ensures PartsTotal(credits) == PartsTotal(allocations)
    ensures forall id :: Delta(CreditsTo(credits, Issuance), id) == Delta(CreditsTo(allocations, Issuance), id)
  {
  }

  /** Some of the credits are at the bank. */
  predicate BankCredited(credits: seq<(AccountId, int)>, bank: string) {
    exists k :: 0 <= k < |credits| && credits[k].0.bank == Some(bank)
  }

  ghost predicate Listed(byBank: map<string, int>, rest: map<string, int>, grants: seq<(string, int)>) {
    && rest.Keys <= byBank.Keys && (forall b :: b in rest ==> rest[b] == byBank[b])
    && (forall i :: 0 <= i < |grants| ==> grants[i].0 in byBank && grants[i].0 !in rest)
    && DistinctBanks(grants)
    && GrantTotal(grants) + Sum(rest) == Sum(byBank)
    && forall b :: GrantedTo(grants, b) == if b in byBank && b !in rest then byBank[b] else 0
  }

  lemma {:induction false} ListedMore(byBank: map<string, int>, rest: map<string, int>, grants: seq<(string, int)>,
                                      b: string)
    requires Listed(byBank, rest, grants) && b in rest
    ensures Listed(byBank, rest - {b}, grants + [(b, rest[b])])
  {
    assert (grants + [(b, rest[b])])[..|grants|] == grants;
    SumPick(rest, b);
    hide Sum;
  }

  /** Grants money to a class of owners: each who gets something has a leg, and each bank's reserves are what its
      depositors got. */
  method GrantLegs(allocations: seq<(AccountId, int)>)
    returns (credits: seq<(AccountId, int)>, grants: seq<(string, int)>)
    requires forall i :: 0 <= i < |allocations| ==> AtCommercialBank(allocations[i].0)
    ensures Placed(ClassGrant(credits, grants))
    ensures credits == Something(allocations) && DistinctBanks(grants)
    ensures forall i :: 0 <= i < |grants| ==> BankCredited(credits, grants[i].0)
    ensures PartsTotal(credits) == PartsTotal(allocations)
    ensures forall id :: Delta(CreditsTo(credits, Issuance), id) == Delta(CreditsTo(allocations, Issuance), id)
  {
    hide Sum, Matching, Listed, Something, BankCredited, DistinctBanks, SameCredits, GrantsMatch, PartsTotal, Delta,
         CreditsTo, Placed;
    credits := [];
    var byBank: map<string, int> := map[];
    MatchingNone();
    NothingYet();
    assert allocations[..0] == [];
    for i := 0 to |allocations|
      invariant Matching(credits, byBank) && (forall k :: 0 <= k < |credits| ==> AtCommercialBank(credits[k].0))
      invariant SameCredits(credits, allocations[..i]) && credits == Something(allocations[..i])
      invariant forall b :: b in byBank ==> BankCredited(credits, b)
    {
      var (deposit, cents) := allocations[i];
      assert allocations[..i + 1] == allocations[..i] + [allocations[i]];
      SomethingMore(allocations, i);
      ghost var known := credits;
      CreditMore(credits, allocations[..i], deposit, cents);
      if cents != 0 {
        MatchingMore(credits, byBank, deposit, cents);
        credits := credits + [(deposit, cents)];
        StillCredited(known, deposit, cents);
        byBank := byBank[deposit.bank.value := (if deposit.bank.value in byBank then byBank[deposit.bank.value] else 0)
                         + cents];
      }
    }
    assert allocations[..|allocations|] == allocations;
    grants := ListGrants(byBank);
    GrantsFit(credits, byBank, grants);
    CreditsDone(credits, allocations);
    GrantPlaced(credits, grants);
  }

  lemma {:induction false} StillCredited(credits: seq<(AccountId, int)>, deposit: AccountId, cents: int)
    ensures forall b :: BankCredited(credits, b) ==> BankCredited(credits + [(deposit, cents)], b)
    ensures forall b :: deposit.bank == Some(b) ==> BankCredited(credits + [(deposit, cents)], b)
  {
    var more := credits + [(deposit, cents)];
    assert more[|credits|] == (deposit, cents);
    forall b | BankCredited(credits, b) ensures BankCredited(more, b) {
      var k :| 0 <= k < |credits| && credits[k].0.bank == Some(b);
      assert more[k] == credits[k];
    }
  }

  lemma {:induction false} GrantPlaced(credits: seq<(AccountId, int)>, grants: seq<(string, int)>)
    requires GrantsMatch(credits, grants) && forall k :: 0 <= k < |credits| ==> AtCommercialBank(credits[k].0)
    requires forall i :: 0 <= i < |grants| ==> grants[i].0 != CENTRAL_BANK
    ensures Placed(ClassGrant(credits, grants))
  {
    hide GrantsMatch;
  }

  method ListGrants(byBank: map<string, int>) returns (grants: seq<(string, int)>)
    ensures Listed(byBank, map[], grants)
  {
    hide Sum, Listed;
    grants := [];
    var rest := byBank;
    ListedNone(byBank);
    while rest.Keys != {}
      invariant Listed(byBank, rest, grants)
      decreases |rest|
    {
      var b :| b in rest.Keys;
      ListedMore(byBank, rest, grants, b);
      grants := grants + [(b, rest[b])];
      rest := rest - {b};
    }
    assert rest == map[];
  }

  lemma {:induction false} ListedNone(byBank: map<string, int>)
    ensures Listed(byBank, byBank, [])
  {
  }

  lemma {:induction false} GrantsFit(credits: seq<(AccountId, int)>, byBank: map<string, int>,
                                     grants: seq<(string, int)>)
    requires Matching(credits, byBank) && Listed(byBank, map[], grants)
    ensures GrantsMatch(credits, grants) && DistinctBanks(grants)
    ensures forall i :: 0 <= i < |grants| ==> grants[i].0 != CENTRAL_BANK && grants[i].0 in byBank
  {
    SumZero<string>(map[]);
  }

  /** The same money for the same accounts, nothing legs left out. */
  ghost predicate SameCredits(credits: seq<(AccountId, int)>, allocations: seq<(AccountId, int)>) {
    && PartsTotal(credits) == PartsTotal(allocations)
    && forall id :: Delta(CreditsTo(credits, Issuance), id) == Delta(CreditsTo(allocations, Issuance), id)
  }

  lemma {:induction false} CreditMore(credits: seq<(AccountId, int)>, allocations: seq<(AccountId, int)>,
                                      deposit: AccountId, cents: int)
    requires SameCredits(credits, allocations)
    ensures SameCredits(if cents != 0 then credits + [(deposit, cents)] else credits, allocations + [(deposit, cents)])
  {
    LongerCredits(credits, deposit, cents);
    LongerCredits(allocations, deposit, cents);
  }

  lemma {:induction false} LongerCredits(credits: seq<(AccountId, int)>, deposit: AccountId, cents: int)
    ensures PartsTotal(credits + [(deposit, cents)]) == PartsTotal(credits) + cents
    ensures forall id :: Delta(CreditsTo(credits + [(deposit, cents)], Issuance), id)
                      == Delta(CreditsTo(credits, Issuance), id) + if id == deposit then cents else 0
  {
    var more := credits + [(deposit, cents)];
    assert more[..|credits|] == credits;
    assert CreditsTo(more, Issuance) == CreditsTo(credits, Issuance) + [Credit(deposit, cents, Issuance)];
    Longer(CreditsTo(credits, Issuance), Credit(deposit, cents, Issuance));
  }

  // ---- When the ledger takes it ----

  /** What the issue to a class asks of the ledger: something to issue, a positive amount into each deposit, none named
      twice, and every account of it open. */
  predicate ClassIssuable(accounts: Accounts, credits: seq<(AccountId, int)>) {
    && credits != [] && IsOpen(accounts, ISSUANCE)
    && (forall k :: 0 <= k < |credits| ==> Payable(accounts, credits[k]))
    && forall i, j :: 0 <= i < j < |credits| ==> credits[i].0 != credits[j].0
  }

  predicate Payable(accounts: Accounts, credit: (AccountId, int)) {
    && 0 < credit.1 && IsOpen(accounts, credit.0) && credit.0.bank.Some?
    && IsOpen(accounts, DepositsOwedBy(credit.0.bank.value)) && IsOpen(accounts, ReservesOf(credit.0.bank.value))
  }

  /** The grants belong to the credits: as much for each bank as its customers are given. */
  ghost predicate GrantsFor(credits: seq<(AccountId, int)>, grants: seq<(string, int)>) {
    && (forall k :: 0 <= k < |credits| ==> AtCommercialBank(credits[k].0))
    && GrantsMatch(credits, grants) && DistinctBanks(grants)
    && (forall i :: 0 <= i < |grants| ==> grants[i].0 != CENTRAL_BANK && BankCredited(credits, grants[i].0))
  }

  lemma {:induction false} GrantAmount(grants: seq<(string, int)>, i: nat)
    requires DistinctBanks(grants) && i < |grants|
    ensures GrantedTo(grants, grants[i].0) == grants[i].1
  {
    var init := grants[..|grants| - 1];
    if i < |init| {
      GrantAmount(init, i);
    } else {
      NotGranted(init, grants[i].0);
    }
  }

  lemma {:induction false} NotGranted(grants: seq<(string, int)>, bank: string)
    requires forall i :: 0 <= i < |grants| ==> grants[i].0 != bank
    ensures GrantedTo(grants, bank) == 0
  {
    if grants != [] {
      NotGranted(grants[..|grants| - 1], bank);
    }
  }

  /** Positive credits give each of their banks a positive sum. */
  lemma {:induction false} PositiveImage(credits: seq<(AccountId, int)>, bank: string)
    requires bank != CENTRAL_BANK
    requires forall k :: 0 <= k < |credits| ==> AtCommercialBank(credits[k].0) && 0 < credits[k].1
    ensures 0 <= PartsImage(BankDeposits(bank), credits)
    ensures 0 < PartsImage(BankDeposits(bank), credits) <==> BankCredited(credits, bank)
  {
    if credits != [] {
      var init, last := credits[..|credits| - 1], credits[|credits| - 1];
      PositiveImage(init, bank);
      assert credits == init + [last];
      StillCredited(init, last.0, last.1);
    }
  }

  lemma {:induction false} PositiveTotal(credits: seq<(AccountId, int)>)
    requires forall k :: 0 <= k < |credits| ==> 0 < credits[k].1
    ensures 0 <= PartsTotal(credits) && (0 < PartsTotal(credits) <==> credits != [])
  {
    if credits != [] {
      PositiveTotal(credits[..|credits| - 1]);
    }
  }

  lemma {:induction false} GrantPairs(grants: seq<(string, int)>)
    ensures |BankGrantLegs(grants)| == 2 * |grants|
    ensures forall i :: 0 <= i < |grants| ==>
      && BankGrantLegs(grants)[2 * i] == Debit(DepositsOwedBy(grants[i].0), grants[i].1, Issuance)
      && BankGrantLegs(grants)[2 * i + 1] == Credit(ReservesOf(grants[i].0), grants[i].1, Issuance)
  {
    if grants != [] {
      GrantPairs(grants[..|grants| - 1]);
    }
  }

  lemma {:induction false} OneIssue(init: seq<Leg>, last: Leg)
    requires (forall i :: 0 <= i < |init| ==> init[i].account != ISSUANCE) && last.account == ISSUANCE
    ensures OneIssuanceLeg(init + [last])
  {
    NoIssue(init);
    assert (init + [last])[..|init|] == init;
  }

  lemma {:induction false} NoIssue(legs: seq<Leg>)
    requires forall i :: 0 <= i < |legs| ==> legs[i].account != ISSUANCE
    ensures IssuancePositions(legs) == []
  {
    if legs != [] {
      NoIssue(legs[..|legs| - 1]);
    }
  }

  /** The issue to a class is taken by the ledger exactly when it is a positive amount into distinct open deposits of
      open banks. */
  lemma {:induction false} ClassPosts(accounts: Accounts, credits: seq<(AccountId, int)>, grants: seq<(string, int)>)
    requires GrantsFor(credits, grants) && (forall a :: a in accounts ==> SoundAccount(a, accounts[a]))
    requires forall b :: 0 <= Balance(accounts, ReservesOf(b))
    ensures OneIssuanceLeg(ClassGrantLegs(credits, grants))
    ensures Postable(accounts, ClassGrantLegs(credits, grants), {}, true) <==> ClassIssuable(accounts, credits)
  {
    var legs := ClassGrantLegs(credits, grants);
    GrantPairs(grants);
    IssuedOnce(credits, grants);
    if Postable(accounts, legs, {}, true) {
      TakenIsIssuable(accounts, credits, grants);
    }
    if ClassIssuable(accounts, credits) {
      IssuableIsTaken(accounts, credits, grants);
    }
  }

  lemma {:induction false} IssuedOnce(credits: seq<(AccountId, int)>, grants: seq<(string, int)>)
    requires forall k :: 0 <= k < |credits| ==> AtCommercialBank(credits[k].0)
    ensures OneIssuanceLeg(ClassGrantLegs(credits, grants))
  {
    var init := CreditsTo(credits, Issuance) + BankGrantLegs(grants);
    forall i | 0 <= i < |init| ensures init[i].account != ISSUANCE {
      LegKind(credits, grants, i);
      assert ClassGrantLegs(credits, grants)[i] == init[i];
    }
    OneIssue(init, Debit(ISSUANCE, PartsTotal(credits), Issuance));
  }

  /** Where each leg stands. */
  lemma {:induction false} ClassLegAt(credits: seq<(AccountId, int)>, grants: seq<(string, int)>)
    ensures var legs := ClassGrantLegs(credits, grants);
      && |legs| == |credits| + 2 * |grants| + 1
      && (forall k :: 0 <= k < |credits| ==> legs[k] == Credit(credits[k].0, credits[k].1, Issuance))
      && (forall i :: 0 <= i < |grants| ==>
            && legs[|credits| + 2 * i] == Debit(DepositsOwedBy(grants[i].0), grants[i].1, Issuance)
            && legs[|credits| + 2 * i + 1] == Credit(ReservesOf(grants[i].0), grants[i].1, Issuance))
      && legs[|legs| - 1] == Debit(ISSUANCE, PartsTotal(credits), Issuance)
  {
    GrantPairs(grants);
  }

  lemma {:induction false} TakenIsIssuable(accounts: Accounts, credits: seq<(AccountId, int)>,
                                           grants: seq<(string, int)>)
    requires GrantsFor(credits, grants) && Postable(accounts, ClassGrantLegs(credits, grants), {}, true)
    ensures ClassIssuable(accounts, credits)
  {
    var legs := ClassGrantLegs(credits, grants);
    ClassLegAt(credits, grants);
    TakenFacts(accounts, legs);
    hide Postable, ClassGrantLegs, LegAdmissible;
    forall k | 0 <= k < |credits| ensures 0 < credits[k].1 && IsOpen(accounts, credits[k].0) {
      assert legs[k] == Credit(credits[k].0, credits[k].1, Issuance);
    }
    PositiveTotal(credits);
    assert legs[|legs| - 1].account == ISSUANCE;
    forall k | 0 <= k < |credits| ensures Payable(accounts, credits[k]) {
      var bank := credits[k].0.bank.value;
      BankGranted(credits, grants, k);
      var i :| 0 <= i < |grants| && grants[i].0 == bank;
      assert legs[|credits| + 2 * i].account == DepositsOwedBy(bank);
      assert legs[|credits| + 2 * i + 1].account == ReservesOf(bank);
    }
    forall i, j | 0 <= i < j < |credits| ensures credits[i].0 != credits[j].0 {
      assert !SameKey(legs[i], legs[j]);
    }
  }

  lemma {:induction false} TakenFacts(accounts: Accounts, legs: seq<Leg>)
    requires Postable(accounts, legs, {}, true)
    ensures forall i :: 0 <= i < |legs| ==> 0 < legs[i].amount && IsOpen(accounts, legs[i].account)
    ensures forall i, j :: 0 <= i < j < |legs| ==> !SameKey(legs[i], legs[j])
  {
    forall i | 0 <= i < |legs| ensures 0 < legs[i].amount && IsOpen(accounts, legs[i].account) {
      assert LegAdmissible(accounts, legs[i], true);
    }
  }

  lemma {:induction false} BankGranted(credits: seq<(AccountId, int)>, grants: seq<(string, int)>, k: nat)
    requires GrantsFor(credits, grants) && k < |credits| && forall j :: 0 <= j < |credits| ==> 0 < credits[j].1
    ensures exists i :: 0 <= i < |grants| && grants[i].0 == credits[k].0.bank.value
  {
    var bank := credits[k].0.bank.value;
    assert AtCommercialBank(credits[k].0);
    PositiveImage(credits, bank);
    if forall i :: 0 <= i < |grants| ==> grants[i].0 != bank {
      NotGranted(grants, bank);
    }
  }

  lemma {:induction false} IssuableIsTaken(accounts: Accounts, credits: seq<(AccountId, int)>,
                                           grants: seq<(string, int)>)
    requires GrantsFor(credits, grants) && ClassIssuable(accounts, credits)
    requires (forall a :: a in accounts ==> SoundAccount(a, accounts[a]))
    requires forall b :: 0 <= Balance(accounts, ReservesOf(b))
    ensures Postable(accounts, ClassGrantLegs(credits, grants), {}, true)
  {
    var legs := ClassGrantLegs(credits, grants);
    ClassGrantClosed(credits, grants);
    assert MustBeZero(GlobalSum) && Image(GlobalSum, legs) == 0;
    ClassDisjoint(credits, grants);
    forall n | 0 <= n < |legs| ensures Fits(accounts, legs[n], {}, true) {
      ClassLegFits(accounts, credits, grants, n);
    }
    PositiveTotal(credits);
    ClassLegAt(credits, grants);
    BankGrantedSome(credits, grants);
    DisjointPostable(accounts, legs, {}, true);
  }

  lemma {:induction false} BankGrantedSome(credits: seq<(AccountId, int)>, grants: seq<(string, int)>)
    requires GrantsFor(credits, grants) && credits != [] && forall j :: 0 <= j < |credits| ==> 0 < credits[j].1
    ensures grants != []
  {
    BankGranted(credits, grants, 0);
  }

  lemma {:induction false} ClassDisjoint(credits: seq<(AccountId, int)>, grants: seq<(string, int)>)
    requires (forall k :: 0 <= k < |credits| ==> AtCommercialBank(credits[k].0)) && DistinctBanks(grants)
    requires forall i, j :: 0 <= i < j < |credits| ==> credits[i].0 != credits[j].0
    ensures Disjoint(ClassGrantLegs(credits, grants))
  {
    var legs, n := ClassGrantLegs(credits, grants), |credits|;
    ClassLegAt(credits, grants);
    forall i, j | 0 <= i < j < |legs| ensures legs[i].account != legs[j].account {
      LegKind(credits, grants, i);
      LegKind(credits, grants, j);
      hide ClassGrantLegs;
      if n <= i && j < |legs| - 1 && (i - n) / 2 != (j - n) / 2 {
        assert grants[(i - n) / 2].0 != grants[(j - n) / 2].0;
      }
    }
  }

  lemma {:induction false} LegKind(credits: seq<(AccountId, int)>, grants: seq<(string, int)>, n: nat)
    requires n < |ClassGrantLegs(credits, grants)|
    requires forall k :: 0 <= k < |credits| ==> AtCommercialBank(credits[k].0)
    ensures var leg, g := ClassGrantLegs(credits, grants)[n], (n - |credits|) / 2;
      if n < |credits| then leg == Credit(credits[n].0, credits[n].1, Issuance) && leg.account.code.Dep?
      else if n == |ClassGrantLegs(credits, grants)| - 1 then leg == Debit(ISSUANCE, PartsTotal(credits), Issuance)
      else
        && 0 <= g < |grants|
        && leg == if (n - |credits|) % 2 == 0 then Debit(DepositsOwedBy(grants[g].0), grants[g].1, Issuance)
                  else Credit(ReservesOf(grants[g].0), grants[g].1, Issuance)
  {
    ClassLegAt(credits, grants);
    if |credits| <= n {
      var g := (n - |credits|) / 2;
      assert n == |credits| + 2 * g || n == |credits| + 2 * g + 1;
    }
  }

  lemma {:induction false} ClassLegFits(accounts: Accounts, credits: seq<(AccountId, int)>, grants: seq<(string, int)>,
                                        n: nat)
    requires GrantsFor(credits, grants) && ClassIssuable(accounts, credits) && n < |ClassGrantLegs(credits, grants)|
    requires (forall a :: a in accounts ==> SoundAccount(a, accounts[a]))
    requires forall b :: 0 <= Balance(accounts, ReservesOf(b))
    ensures Fits(accounts, ClassGrantLegs(credits, grants)[n], {}, true)
  {
    var legs := ClassGrantLegs(credits, grants);
    LegKind(credits, grants, n);
    hide ClassGrantLegs, PartsImage, GrantedTo;
    assert forall k :: 0 <= k < |credits| ==> Payable(accounts, credits[k]) && 0 < credits[k].1;
    if n < |credits| {
      DepositFits(accounts, credits[n]);
    } else if n == |legs| - 1 {
      PositiveTotal(credits);
    } else {
      var g := (n - |credits|) / 2;
      var bank := grants[g].0;
      GrantAmount(grants, g);
      PositiveImage(credits, bank);
      assert BankCredited(credits, bank);
      var k :| 0 <= k < |credits| && credits[k].0.bank == Some(bank);
      assert Payable(accounts, credits[k]);
    }
  }

  lemma {:induction false} DepositFits(accounts: Accounts, credit: (AccountId, int))
    requires Payable(accounts, credit) && AtCommercialBank(credit.0)
    requires forall a :: a in accounts ==> SoundAccount(a, accounts[a])
    ensures Fits(accounts, Credit(credit.0, credit.1, Issuance), {}, true)
  {
  }
}
