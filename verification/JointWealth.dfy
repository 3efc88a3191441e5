/** What two partners have gained while together, and the transfer that evens it out when they part. */
module JointWealth {
  import opened Wrappers
  import opened Money
  import opened Identifiers
  import opened Books
  import opened Posting
  import opened LegLists
  import opened Builders
  import opened LedgerClass
  import CreditOps

  /** An owner's part of a joint gain: half, and the odd cent for whoever's name comes first. */
  function HalfOf(total: int, own: string, other: string): int {
    total / 2 + if total % 2 == 1 && LexLess(own, other) then 1 else 0
  }

  /** The halves are what the largest-remainder split gives two equal claims. */
  lemma {:induction false} HalvesAreShares(total: nat, a: string, b: string)
    requires a != b
    ensures var claims := [(a, 1), (b, 1)];
      && Splittable(total, claims) && TotalWeight(claims) == 2
      && Share(total, claims, (a, 1)) == HalfOf(total, a, b) && Share(total, claims, (b, 1)) == HalfOf(total, b, a)
    ensures HalfOf(total, a, b) + HalfOf(total, b, a) == total
  {
    var claims := [(a, 1), (b, 1)];
    var one := [(a, 1)];
    LexTotal(a, b);
    assert claims[..1] == one && one[..0] == [];
    assert TotalWeight([]) == 0;
    assert TotalWeight(one) == 1;
    assert TotalWeight(claims) == 2;
    assert QuotaSum(total, 2, []) == 0;
    assert QuotaSum(total, 2, one) == total / 2;
    assert QuotaSum(total, 2, claims) == total / 2 + total / 2;
    RankOfTwo(total, a, b, (a, 1));
    RankOfTwo(total, a, b, (b, 1));
  }

  lemma {:induction false} RankOfTwo(total: nat, a: string, b: string, x: Claim)
    requires a != b && (x == (a, 1) || x == (b, 1))
    ensures Rank(total, 2, [(a, 1), (b, 1)], x)
         == if (x.0 == a && LexLess(b, a)) || (x.0 == b && LexLess(a, b)) then 1 else 0
  {
    var claims, one := [(a, 1), (b, 1)], [(a, 1)];
    LexTotal(a, a);
    LexTotal(b, b);
    assert claims[..1] == one && one[..0] == [];
    assert Rank(total, 2, [], x) == 0;
    assert Rank(total, 2, one, x) == if Ahead(total, 2, (a, 1), x) then 1 else 0;
  }

  /** What one partner owes the other: its own gain less its half of both; less than nothing when the other owes. */
  function Owed(a: string, b: string, gainA: int, gainB: int): int {
    gainA - HalfOf(gainA + gainB, a, b)
  }

  /** Once it is paid, both have gained the same, to the cent that cannot be halved; and each owes what the other is
      owed. */
  lemma {:induction false} Evens(a: string, b: string, gainA: nat, gainB: nat)
    requires a != b
    ensures Owed(b, a, gainB, gainA) == -Owed(a, b, gainA, gainB)
    ensures var owed: int := Owed(a, b, gainA, gainB);
      && -1 <= (gainA - owed) - (gainB + owed) <= 1 && ((gainA + gainB) % 2 == 0 ==> gainA - owed == gainB + owed)
      && -(gainB as int) <= owed <= gainA
  {
    LexTotal(a, b);
  }

  // ---- The transfer ----

  /** The account a transfer between partners is made from or to: whatever comes first in identifier order. */
  ghost predicate FirstAccount(accounts: Accounts, owner: string, first: AccountId) {
    && first in accounts && first.owner == owner
    && forall a: AccountId :: a in accounts && a.owner == owner ==> !LexLess(Text(a), Text(first))
  }

  lemma {:induction false} OneFirst(accounts: Accounts, owner: string, a: AccountId, b: AccountId)
    requires (forall x :: x in accounts ==> ValidId(x)) && FirstAccount(accounts, owner, a)
    requires FirstAccount(accounts, owner, b)
    ensures a == b
  {
    LexTotal(Text(a), Text(b));
    TextInjective(a, b);
  }

  /** The transfer can be written down, and the ledger takes it. */
  ghost predicate Transferable(accounts: Accounts, from: string, to: string, cents: int) {
    exists src, dst ::
      && FirstAccount(accounts, from, src) && FirstAccount(accounts, to, dst)
      && TransferLegs(src, dst, cents, Transfer).Success?
      && Postable(accounts, TransferLegs(src, dst, cents, Transfer).value, {}, false)
  }

  ghost predicate SplitWorks(accounts: Accounts, a: string, b: string, owed: int) {
    owed == 0 || (if 0 < owed then Transferable(accounts, a, b, owed) else Transferable(accounts, b, a, -owed))
  }

  ghost predicate Transferred(before: Accounts, after: Accounts, from: string, to: string, cents: int) {
    exists src, dst ::
      && FirstAccount(before, from, src) && FirstAccount(before, to, dst)
      && TransferLegs(src, dst, cents, Transfer).Success?
      && Known(before, TransferLegs(src, dst, cents, Transfer).value)
      && after == Posted(before, TransferLegs(src, dst, cents, Transfer).value)
  }

  /** What was owed has passed between the partners' first accounts, if anything was. */
  ghost predicate SplitMade(before: Accounts, after: Accounts, a: string, b: string, owed: int) {
    if owed == 0 then after == before else if 0 < owed then Transferred(before, after, a, b, owed)
        else Transferred(before, after, b, a, -owed)
  }


  ghost predicate MadeFrom(accounts: Accounts, from: string, to: string, cents: int, legs: seq<Leg>) {
    exists src, dst :: FirstAccount(accounts, from, src) && FirstAccount(accounts, to, dst)
        && TransferLegs(src, dst, cents, Transfer) == Success(legs)
  }

  /** The legs of the transfer, from one partner's first account to the other's; none when nothing is owed. */
  method SplitLegs(ledger: Ledger, a: string, b: string, owed: int) returns (legs: Option<seq<Leg>>)
    requires ledger.Valid()
    ensures owed == 0 ==> legs == Some([])
    ensures 0 < owed && legs.Some? ==> MadeFrom(ledger.accounts, a, b, owed, legs.value)
    ensures owed < 0 && legs.Some? ==> MadeFrom(ledger.accounts, b, a, -owed, legs.value)
    ensures legs == None ==> !SplitWorks(ledger.accounts, a, b, owed)
    ensures owed != 0 && legs.Some? ==>
      (SplitWorks(ledger.accounts, a, b, owed) <==> Postable(ledger.accounts, legs.value, {}, false))
  {
    hide Text, LexLess, TransferLegs, Postable, SoundAccounts, SoundEntries, SoundDelivery, ValidId;
    if owed == 0 { return Some([]); }
    var from, to, cents := if 0 < owed then a else b, if 0 < owed then b else a, if 0 < owed then owed else -owed;
    AllIdsValid(ledger);
    var sources, targets := set x | x in ledger.accounts && x.owner == from, set x | x in ledger.accounts
        && x.owner == to;
    var src := CreditOps.FirstByText(sources);
    var dst := CreditOps.FirstByText(targets);
    if src == None || dst == None {
      assert forall x: AccountId :: x in ledger.accounts && x.owner == from ==> x in sources;
      assert forall x: AccountId :: x in ledger.accounts && x.owner == to ==> x in targets;
      NoAccount(ledger.accounts, from, to, cents);
      return None;
    }
    assert FirstAccount(ledger.accounts, from, src.value) && FirstAccount(ledger.accounts, to, dst.value);
    OnlyTransfer(ledger.accounts, from, to, cents, src.value, dst.value);
    var made := TransferLegs(src.value, dst.value, cents, Transfer);
    if made.Failure? { return None; }
    return Some(made.value);
  }

  lemma {:induction false} AllIdsValid(ledger: Ledger)
    requires ledger.Valid()
    ensures forall a :: a in ledger.accounts ==> ValidId(a)
  {
  }

  lemma {:induction false} NoAccount(accounts: Accounts, from: string, to: string, cents: int)
    requires (forall x: AccountId :: x in accounts ==> x.owner != from)
        || (forall x: AccountId :: x in accounts ==> x.owner != to)
    ensures !Transferable(accounts, from, to, cents)
  {
  }

  lemma {:induction false} OnlyTransfer(accounts: Accounts, from: string, to: string, cents: int, src: AccountId,
                                        dst: AccountId)
    requires (forall a :: a in accounts ==> ValidId(a)) && FirstAccount(accounts, from, src)
    requires FirstAccount(accounts, to, dst)
    ensures Transferable(accounts, from, to, cents) <==>
      TransferLegs(src, dst, cents, Transfer).Success?
          && Postable(accounts, TransferLegs(src, dst, cents, Transfer).value, {}, false)
  {
    hide TransferLegs, Postable, FirstAccount;
    forall s, d | FirstAccount(accounts, from, s) && FirstAccount(accounts, to, d) ensures s == src && d == dst {
      OneFirst(accounts, from, s, src);
      OneFirst(accounts, to, d, dst);
    }
  }
}
