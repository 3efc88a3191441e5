/** Money moving between people's cash, deposits and escrows. */
module Purses {
  import opened Wrappers
  import opened MapSum
  import opened Books
  import opened Posting
  import opened LegLists
  import opened Builders
  import opened LedgerClass
  import opened State
  import opened LoanBooks
  import opened CreditEngine
  import opened CreditOps

  /** Every purse moved by the amount, and no other purse. */
  ghost predicate PurseMove(before: Accounts, after: Accounts, src: AccountId, dst: AccountId, cents: int) {
    && after.Keys == before.Keys && (forall a :: IsOpen(after, a) <==> IsOpen(before, a))
    && (forall a :: IsPurse(a) ==>
          Balance(after, a) == Balance(before, a) + (if a == dst then cents else 0) - (if a == src then cents else 0))
    && (forall o :: Measure(EstateLiquid(o), after)
          == Measure(EstateLiquid(o), before)
              + (if dst.owner == o then cents else 0) - (if src.owner == o then cents else 0))
    && WorthMoved(before, after, src.owner, dst.owner, cents)
  }

  /** One owner is worth more and another less; nobody else, and no bank on the way, is worth more or less. */
  ghost predicate WorthMoved(before: Accounts, after: Accounts, from: string, to: string, cents: int) {
    forall o :: Measure(NetWorth(o), after)
      == Measure(NetWorth(o), before) + (if o == to then cents else 0) - (if o == from then cents else 0)
  }

  lemma {:induction false} TransferEffect(src: AccountId, dst: AccountId, cents: int, reason: Reason)
    requires TransferLegs(src, dst, cents, reason).Success?
    ensures var legs := TransferLegs(src, dst, cents, reason).value;
      && (forall a :: IsPurse(a) ==>
          Delta(legs, a) == (if a == dst then cents else 0) - (if a == src then cents else 0))
      && (forall a :: IsClaim(a) ==> Delta(legs, a) == 0)
      && (forall o ::
          Image(EstateLiquid(o), legs) == (if dst.owner == o then cents else 0) - (if src.owner == o then cents else 0))
      && (forall o ::
          Image(NetWorth(o), legs) == (if dst.owner == o then cents else 0) - (if src.owner == o then cents else 0))
  {
    if BankOf(src) == BankOf(dst) {
      LocalEffect(src, dst, cents, reason);
    } else {
      CrossBankEffect(src, dst, BankOf(src).value, BankOf(dst).value, cents, reason);
    }
  }

  lemma {:induction false} LocalEffect(src: AccountId, dst: AccountId, cents: int, reason: Reason)
    requires IsPurse(src) && IsPurse(dst)
    ensures var legs := [Debit(src, cents, reason), Credit(dst, cents, reason)];
      && (forall a :: Delta(legs, a) == (if a == dst then cents else 0) - (if a == src then cents else 0))
      && (forall o ::
          Image(EstateLiquid(o), legs) == (if dst.owner == o then cents else 0) - (if src.owner == o then cents else 0))
      && (forall o ::
          Image(NetWorth(o), legs) == (if dst.owner == o then cents else 0) - (if src.owner == o then cents else 0))
  {
    TwoLegs(Debit(src, cents, reason), Credit(dst, cents, reason));
  }

  lemma {:induction false} CrossBankEffect(src: AccountId, dst: AccountId, from: string, to: string, cents: int,
                                           reason: Reason)
    requires IsPurse(src) && IsPurse(dst)
    ensures var legs := CrossBankLegs(src, dst, from, to, cents, reason);
      && (forall a :: IsPurse(a) ==>
          Delta(legs, a) == (if a == dst then cents else 0) - (if a == src then cents else 0))
      && (forall a :: IsClaim(a) ==> Delta(legs, a) == 0)
      && (forall o ::
          Image(EstateLiquid(o), legs) == (if dst.owner == o then cents else 0) - (if src.owner == o then cents else 0))
      && (forall o ::
          Image(NetWorth(o), legs) == (if dst.owner == o then cents else 0) - (if src.owner == o then cents else 0))
  {
    SixLegs(Debit(src, cents, reason), Credit(DepositsOwedBy(from), cents, reason),
            Debit(ReservesOf(from), cents, reason),
            Credit(ReservesOf(to), cents, reason), Debit(DepositsOwedBy(to), cents, reason), Credit(dst, cents,
                   reason));
  }

  /** No purse on the ledger is at the central bank unless it is the treasury's own. */
  lemma {:induction false} NotOffBook(e: Economy, a: AccountId)
    requires CreditSound(e) && a in e.ledger.accounts && IsPurse(a)
    ensures !OffBook(a) && ValidId(a)
  {
    AccountFacts(e.ledger, a);
  }

  /** A customer transfer; what the ledger refuses changes nothing. */
  method TransferCash(e: Economy, src: AccountId, dst: AccountId, cents: int, reason: Reason, tick: int)
    returns (r: Result<TxnId, Rule>)
    requires CreditSound(e) && src in e.ledger.accounts && dst in e.ledger.accounts && IsPurse(src) && IsPurse(dst)
    modifies e.ledger
    ensures e.ledger.delivered == old(e.ledger.delivered)
    ensures old(NoneLater(e.ledger.accounts, tick)) ==> NoneLater(e.ledger.accounts, tick)
    ensures CreditSound(e)
    ensures r.Success? <==> TransferLegs(src, dst, cents, reason).Success?
                            && Postable(old(e.ledger.accounts), TransferLegs(src, dst, cents, reason).value, {}, false)
    ensures r.Failure? ==> e.ledger.accounts == old(e.ledger.accounts)
    ensures r.Success? ==> PurseMove(old(e.ledger.accounts), e.ledger.accounts, src, dst, cents)
    ensures r.Success? ==>
      var legs := TransferLegs(src, dst, cents, reason).value;
      && (forall a :: Balance(e.ledger.accounts, a) == Balance(old(e.ledger.accounts), a) + Delta(legs, a))
      && (forall q :: Measure(q, e.ledger.accounts) == Measure(q, old(e.ledger.accounts)) + Image(q, legs))
  {
    hide NoneLater, CreditSound, ClosedLegs, Postable, OffBook, TransferLegs, Image, Delta, Measure;
    var legs := TransferLegs(src, dst, cents, reason);
    if legs.Failure? { return Failure(legs.error); }
    NotOffBook(e, src);
    NotOffBook(e, dst);
    TransferClosed(src, dst, cents, reason);
    TransferEffect(src, dst, cents, reason);
    r := PostQuiet(e, legs.value, tick, {});
  }

  /** A transfer within one bank, or from cash to cash, needs only the money. */
  lemma {:induction false} LocalTransferPosts(e: Economy, src: AccountId, dst: AccountId, cents: int, reason: Reason)
    requires CreditSound(e) && src in e.ledger.accounts && IsPurse(src) && IsPurse(dst) && src != dst
    requires BankOf(src) == BankOf(dst)
    requires dst in e.ledger.accounts && IsOpen(e.ledger.accounts, dst) && src.owner != TREASURY
    requires dst != TREASURY_DEPOSIT
    requires 0 < cents <= Balance(e.ledger.accounts, src) && !reason.Unlisted?
    ensures TransferLegs(src, dst, cents, reason).Success?
    ensures Postable(e.ledger.accounts, TransferLegs(src, dst, cents, reason).value, {}, false)
  {
    hide Orderly, BooksAgree, AllMinted;
    AccountFacts(e.ledger, src);
    AccountFacts(e.ledger, dst);
    var legs := TransferLegs(src, dst, cents, reason).value;
    TwoLegs(legs[0], legs[1]);
    NotOffBook(e, dst);
    DisjointPostable(e.ledger.accounts, legs, {}, false);
  }

  /** All the owner's purses are open, and at one bank. */
  predicate LocalTo(accounts: Accounts, owner: string, bank: string) {
    forall a :: a in accounts && a.owner == owner && IsPurse(a) ==> IsOpen(accounts, a) && BankOf(a) == Some(bank)
  }

  lemma {:induction false} LocalKept(before: Accounts, after: Accounts, owner: string)
    requires after.Keys == before.Keys && forall a :: IsOpen(after, a) <==> IsOpen(before, a)
    ensures forall bank :: LocalTo(before, owner, bank) ==> LocalTo(after, owner, bank)
  {
  }

  /** Between the purses of such an owner a transfer needs only the money. */
  lemma {:induction false} LocalOwnerPays(e: Economy, owner: string, src: AccountId, dst: AccountId, cents: int)
    requires CreditSound(e) && owner != TREASURY && src.owner == dst.owner == owner && IsPurse(src) && IsPurse(dst)
    requires src != dst
    requires src in e.ledger.accounts && dst in e.ledger.accounts && 0 < cents <= Balance(e.ledger.accounts, src)
    ensures (exists bank :: LocalTo(e.ledger.accounts, owner, bank)) ==>
      TransferLegs(src, dst, cents, Transfer).Success?
          && Postable(e.ledger.accounts, TransferLegs(src, dst, cents, Transfer).value, {}, false)
  {
    hide CreditSound, TransferLegs, Postable;
    if bank :| LocalTo(e.ledger.accounts, owner, bank) {
      LocalTransferPosts(e, src, dst, cents, Transfer);
    }
  }

  lemma {:induction false} MovedPurses(before: Accounts, after: Accounts, src: AccountId, dst: AccountId, cents: int)
    requires PurseMove(before, after, src, dst, cents)
    ensures after.Keys == before.Keys && forall a :: IsOpen(after, a) <==> IsOpen(before, a)
    ensures forall a ::
      IsPurse(a) ==>
        Balance(after, a) == Balance(before, a) + (if a == dst then cents else 0) - (if a == src then cents else 0)
  {
  }

  // ---- Accounts opened on the way ----

  /** Accounts may have been opened, empty; nothing else has changed. */
  ghost predicate OnlyOpened(before: Accounts, after: Accounts) {
    && (forall a :: a in before ==> a in after && after[a] == before[a])
    && (forall a :: a in after && a !in before ==> IsPurse(a) && IsOpen(after, a) && after[a].balance == 0)
    && (forall q :: Measure(q, after) == Measure(q, before))
  }

  /** The owner's account of that kind, opened if there is none; an account once closed cannot be had again. */
  method EnsureAccount(e: Economy, id: AccountId, tick: nat) returns (r: Result<(), Rule>)
    requires CreditSound(e) && ValidId(id) && IsPurse(id) && BankOf(id) != Some(CENTRAL_BANK)
    modifies e.ledger
    ensures e.ledger.delivered == old(e.ledger.delivered)
    ensures old(NoneLater(e.ledger.accounts, tick)) ==> NoneLater(e.ledger.accounts, tick)
    ensures CreditSound(e) && OnlyOpened(old(e.ledger.accounts), e.ledger.accounts)
    ensures r.Success? <==> (id in old(e.ledger.accounts) ==> IsOpen(old(e.ledger.accounts), id))
    ensures r.Success? ==> IsOpen(e.ledger.accounts, id) && e.ledger.accounts.Keys == old(e.ledger.accounts).Keys + {id}
    ensures r.Failure? ==> e.ledger.accounts == old(e.ledger.accounts)
  {
    hide NoneLater, Orderly, BooksAgree, AllMinted, Measure;
    if IsOpen(e.ledger.accounts, id) { return Success(()); }
    if id in e.ledger.accounts { return Failure(AccountExists); }
    ghost var before := e.ledger.accounts;
    var _ := Open(e.ledger, id, "agent", tick);
    OpenStep(e.loans, before, id, e.ledger.accounts[id]);
    return Success(());
  }

  function Matching(src: AccountId, owner: string): AccountId {
    if src.code.Cash? then CashOf(owner) else AccountId(Dep, owner, src.bank, None)
  }

  // ---- Everything an owner can spend ----

  predicate Spendable(accounts: Accounts, owner: string, a: AccountId) {
    a in accounts && a.owner == owner && IsPurse(a) && IsOpen(accounts, a)
  }

  lemma {:induction false} PurseParts(e: Economy, owner: string)
    requires CreditSound(e) && owner != TREASURY
    ensures 0 <= Measure(EstateLiquid(owner), e.ledger.accounts)
    ensures forall a :: a in e.ledger.accounts && a.owner == owner && IsPurse(a) ==>
      0 <= Balance(e.ledger.accounts, a) <= Measure(EstateLiquid(owner), e.ledger.accounts)
  {
    var purses := Counted(EstateLiquid(owner), e.ledger.accounts);
    forall a | a in purses ensures 0 <= purses[a] {
      AccountFacts(e.ledger, a);
    }
    SumNonNegative(purses);
    forall a | a in e.ledger.accounts && a.owner == owner && IsPurse(a)
      ensures 0 <= Balance(e.ledger.accounts, a) <= Measure(EstateLiquid(owner), e.ledger.accounts)
    {
      SumBoundsPart(purses, a);
    }
  }

  /** An owner all of whose open purses are empty has nothing. */
  lemma {:induction false} EmptyPurses(e: Economy, owner: string)
    requires CreditSound(e) && forall a :: Spendable(e.ledger.accounts, owner, a) ==> Balance(e.ledger.accounts, a) == 0
    ensures Measure(EstateLiquid(owner), e.ledger.accounts) == 0
  {
    var purses := Counted(EstateLiquid(owner), e.ledger.accounts);
    forall a | a in purses ensures purses[a] == 0 {
      AccountFacts(e.ledger, a);
      assert IsOpen(e.ledger.accounts, a) ==> Spendable(e.ledger.accounts, owner, a);
    }
    SumZero(purses);
  }

  lemma {:induction false} NothingMeansEmpty(e: Economy, owner: string)
    requires CreditSound(e) && owner != TREASURY && Measure(EstateLiquid(owner), e.ledger.accounts) == 0
    ensures forall a: AccountId :: a.owner == owner && IsPurse(a) ==> Balance(e.ledger.accounts, a) == 0
  {
    hide CreditSound, Measure;
    PurseParts(e, owner);
  }

  /** No purse of the owner's has been closed. */
  predicate NoneClosed(accounts: Accounts, owner: string) {
    forall a :: a in accounts && a.owner == owner && IsPurse(a) ==> IsOpen(accounts, a)
  }

  /** Value has moved from one owner to another, out of and into purses alone. */
  ghost predicate ValueMoved(before: Accounts, after: Accounts, from: string, to: string, cents: int) {
    && (forall a :: a in before ==> a in after && (IsOpen(after, a) <==> IsOpen(before, a)))
    && (forall a :: a in after && a !in before ==> IsPurse(a) && IsOpen(after, a) && a.owner == to)
    && (forall o :: Measure(EstateLiquid(o), after)
          == Measure(EstateLiquid(o), before) + (if o == to then cents else 0) - (if o == from then cents else 0))
    && (forall a :: IsPurse(a) && a.owner != from && a.owner != to ==> Balance(after, a) == Balance(before, a))
    && WorthMoved(before, after, from, to, cents)
  }

  lemma {:induction false} ValueMovedMore(start: Accounts, now: Accounts, ready: Accounts, after: Accounts,
                                          from: string, to: string, moved: int,
                                          src: AccountId, dst: AccountId, cents: int)
    requires ValueMoved(start, now, from, to, moved) && OnlyOpened(now, ready)
    requires PurseMove(ready, after, src, dst, cents)
    requires src.owner == from && dst.owner == to && ready.Keys == now.Keys + {dst}
    ensures ValueMoved(start, after, from, to, moved + cents)
  {
    hide Measure;
    assert forall a :: Balance(ready, a) == Balance(now, a);
  }

  /** One source emptied as far as needed into the matching account of the new owner. */
  method MoveSome(e: Economy, src: AccountId, owner: string, amount: int, reason: Reason, tick: nat)
    returns (r: Result<(), Rule>, ghost ready: Accounts)
    requires CreditSound(e) && src in e.ledger.accounts && IsPurse(src) && Plain(owner) && src.owner != TREASURY
    requires src.owner != owner
    requires 0 < amount <= Balance(e.ledger.accounts, src) && !reason.Unlisted?
    modifies e.ledger
    ensures e.ledger.delivered == old(e.ledger.delivered)
    ensures old(NoneLater(e.ledger.accounts, tick)) ==> NoneLater(e.ledger.accounts, tick)
    ensures CreditSound(e) && OnlyOpened(old(e.ledger.accounts), ready)
    ensures r.Success? <==>
      (Matching(src, owner) in old(e.ledger.accounts) ==> IsOpen(old(e.ledger.accounts), Matching(src, owner)))
    ensures r.Failure? ==> e.ledger.accounts == old(e.ledger.accounts)
    ensures r.Success? ==> PurseMove(ready, e.ledger.accounts, src, Matching(src, owner), amount)
    ensures r.Success? ==> ready.Keys == old(e.ledger.accounts).Keys + {Matching(src, owner)}
  {
    hide NoneLater, CreditSound, OnlyOpened, PurseMove, Postable, TransferLegs, OffBook;
    var dst := Matching(src, owner);
    SourceFacts(e, src, owner);
    ghost var before := e.ledger.accounts;
    var opening := EnsureAccount(e, dst, tick);
    ready := e.ledger.accounts;
    if opening.Failure? { return Failure(opening.error), ready; }
    SameBalances(before, ready);
    LocalTransferPosts(e, src, dst, amount, reason);
    var moved := TransferCash(e, src, dst, amount, reason, tick);
    return Success(()), ready;
  }

  lemma {:induction false} SourceFacts(e: Economy, src: AccountId, owner: string)
    requires CreditSound(e) && src in e.ledger.accounts && IsPurse(src) && Plain(owner) && src.owner != TREASURY
    requires src.owner != owner
    ensures ValidId(Matching(src, owner)) && IsPurse(Matching(src, owner))
    ensures BankOf(Matching(src, owner)) == BankOf(src) != Some(CENTRAL_BANK)
    ensures Matching(src, owner) != src && Matching(src, owner) != TREASURY_DEPOSIT
  {
    AccountFacts(e.ledger, src);
  }

  lemma {:induction false} SameBalances(before: Accounts, after: Accounts)
    requires OnlyOpened(before, after)
    ensures forall a :: Balance(after, a) == Balance(before, a)
    ensures forall a :: a in before ==> a in after && (IsOpen(after, a) <==> IsOpen(before, a))
    ensures forall q :: Measure(q, after) == Measure(q, before)
  {
  }

  /** Moves an amount from whatever an owner has to another; it fails only when the owner has less, or an account needed
      is closed. */
  method MoveOwnerValue(e: Economy, from: string, to: string, cents: nat, reason: Reason, tick: nat)
    returns (r: Result<(), Rule>)
    requires CreditSound(e) && Plain(to) && from != TREASURY && from != to && !reason.Unlisted?
    modifies e.ledger
    ensures e.ledger.delivered == old(e.ledger.delivered)
    ensures old(NoneLater(e.ledger.accounts, tick)) ==> NoneLater(e.ledger.accounts, tick)
    ensures CreditSound(e)
    ensures NoneClosed(old(e.ledger.accounts), to) ==>
      (r.Success? <==> cents <= Measure(EstateLiquid(from), old(e.ledger.accounts)))
    ensures r.Success? ==> ValueMoved(old(e.ledger.accounts), e.ledger.accounts, from, to, cents)
  {
    hide NoneLater, CreditSound, ValueMoved, OnlyOpened, PurseMove, Measure, NoneClosed, ValidId, Plain, IsOpen;
    ghost var start := e.ledger.accounts;
    var remaining := cents as int;
    ValueUnmoved(start, from, to);
    var sources := set a | a in e.ledger.accounts && Spendable(e.ledger.accounts, from, a);
    var rest := sources;
    while rest != {} && 0 < remaining
      invariant e.ledger.delivered == old(e.ledger.delivered)
      invariant old(NoneLater(e.ledger.accounts, tick)) ==> NoneLater(e.ledger.accounts, tick)
      invariant CreditSound(e) && rest <= sources && 0 <= remaining
      invariant ValueMoved(start, e.ledger.accounts, from, to, cents - remaining)
      invariant 0 < remaining ==> forall a :: a in sources - rest ==> Balance(e.ledger.accounts, a) == 0
      decreases |rest|
    {
      var src :| src in rest;
      SourceStill(e, start, from, to, cents - remaining, src);
      var amount := Min(remaining, Max(0, Balance(e.ledger.accounts, src)));
      if 0 < amount {
        var _ :- MoveMore(e, start, from, to, cents - remaining, src, amount, reason, tick);
        remaining := remaining - amount;
      }
      rest := rest - {src};
    }
    if 0 < remaining {
      Drained(e, start, from, to, cents - remaining, sources);
      return Failure(EngineFault);
    }
    Enough(e, start, from, to, cents);
    return Success(());
  }

  /** One source's part of such a move; refused only by a closed account of the new owner. */
  method MoveMore(e: Economy, ghost start: Accounts, from: string, to: string, ghost moved: int, src: AccountId,
                  amount: int, reason: Reason, tick: nat)
    returns (r: Result<(), Rule>)
    requires CreditSound(e) && src in e.ledger.accounts && IsPurse(src) && src.owner == from && Plain(to)
    requires from != TREASURY && from != to && 0 < amount <= Balance(e.ledger.accounts, src) && !reason.Unlisted?
    requires ValueMoved(start, e.ledger.accounts, from, to, moved)
    modifies e.ledger
    ensures e.ledger.delivered == old(e.ledger.delivered)
    ensures old(NoneLater(e.ledger.accounts, tick)) ==> NoneLater(e.ledger.accounts, tick)
    ensures CreditSound(e)
    ensures r.Failure? ==> !NoneClosed(start, to) && e.ledger.accounts == old(e.ledger.accounts)
    ensures r.Success? ==> ValueMoved(start, e.ledger.accounts, from, to, moved + amount)
    ensures r.Success? ==>
      && Balance(e.ledger.accounts, src) == Balance(old(e.ledger.accounts), src) - amount
      && forall a :: IsPurse(a) && a != src && a.owner != to ==>
          Balance(e.ledger.accounts, a) == Balance(old(e.ledger.accounts), a)
  {
    hide NoneLater, CreditSound, ValueMoved, OnlyOpened, PurseMove, Measure, NoneClosed, ValidId, Plain;
    ghost var now, ready := e.ledger.accounts, e.ledger.accounts;
    r, ready := MoveSome(e, src, to, amount, reason, tick);
    if r.Failure? {
      ClosedDestination(start, now, from, to, moved, Matching(src, to));
      return;
    }
    ValueMovedMore(start, now, ready, e.ledger.accounts, from, to, moved, src, Matching(src, to), amount);
    OthersKept(now, ready, e.ledger.accounts, src, to, amount);
  }

  lemma {:induction false} ValueUnmoved(accounts: Accounts, from: string, to: string)
    ensures ValueMoved(accounts, accounts, from, to, 0)
  {
  }

  lemma {:induction false} SourceStill(e: Economy, start: Accounts, from: string, to: string, moved: int,
                                       src: AccountId)
    requires CreditSound(e) && ValueMoved(start, e.ledger.accounts, from, to, moved) && Spendable(start, from, src)
    requires from != TREASURY
    ensures src in e.ledger.accounts && 0 <= Balance(e.ledger.accounts, src) && IsPurse(src) && src.owner == from
  {
    hide Measure, ValueMoved;
    assert src in e.ledger.accounts by { SourceKept(start, e.ledger.accounts, from, to, moved, src); }
    PurseParts(e, from);
  }

  lemma {:induction false} SourceKept(start: Accounts, now: Accounts, from: string, to: string, moved: int,
                                      src: AccountId)
    requires ValueMoved(start, now, from, to, moved) && src in start
    ensures src in now
  {
  }

  lemma {:induction false} ClosedDestination(start: Accounts, now: Accounts, from: string, to: string, moved: int,
                                             dst: AccountId)
    requires ValueMoved(start, now, from, to, moved) && dst in now && !IsOpen(now, dst) && dst.owner == to
    requires IsPurse(dst)
    ensures !NoneClosed(start, to)
  {
  }

  lemma {:induction false} OthersKept(now: Accounts, ready: Accounts, after: Accounts, src: AccountId, to: string,
                                      amount: int)
    requires OnlyOpened(now, ready) && PurseMove(ready, after, src, Matching(src, to), amount) && src.owner != to
    ensures forall a :: IsPurse(a) && a != src && a.owner != to ==> Balance(after, a) == Balance(now, a)
    ensures Balance(after, src) == Balance(now, src) - amount || !IsPurse(src)
  {
    SameBalances(now, ready);
  }

  lemma {:induction false} Drained(e: Economy, start: Accounts, from: string, to: string, moved: int,
                                   sources: set<AccountId>)
    requires CreditSound(e) && ValueMoved(start, e.ledger.accounts, from, to, moved) && from != to
    requires sources == set a | a in start && Spendable(start, from, a)
    requires forall a :: a in sources ==> Balance(e.ledger.accounts, a) == 0
    ensures Measure(EstateLiquid(from), start) == moved
  {
    hide CreditSound, Measure;
    forall a | Spendable(e.ledger.accounts, from, a) ensures Balance(e.ledger.accounts, a) == 0 {
    }
    EmptyPurses(e, from);
  }

  lemma {:induction false} Enough(e: Economy, start: Accounts, from: string, to: string, cents: int)
    requires CreditSound(e) && ValueMoved(start, e.ledger.accounts, from, to, cents) && from != to && from != TREASURY
    ensures cents <= Measure(EstateLiquid(from), start)
  {
    PurseParts(e, from);
  }
}
