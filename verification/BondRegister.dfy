/** The two records of who holds which bond, and what keeps them in agreement. */
module BondRegister {
  import opened Wrappers
  import opened MapSum
  import opened State
  import opened Interbank

  function HeldBy(bonds: Bonds, holder: string): map<Symbol, int> {
    map s | s in bonds && bonds[s].outstanding && bonds[s].holder == holder :: bonds[s].face
  }

  /** The holdings register lists exactly the outstanding bonds, under their holders, at face. */
  ghost predicate Register(bonds: Bonds, holdings: Holdings) {
    forall holder :: HoldingsOf(holdings, holder) == HeldBy(bonds, holder)
  }

  /** Bonds passing from one holder to another, in the bond records. */
  function Rehold(bonds: Bonds, from: string, to: string): Bonds {
    map s | s in bonds :: if bonds[s].holder == from then bonds[s].(holder := to) else bonds[s]
  }

  /** The same in the register. */
  function MergeHoldings(holdings: Holdings, from: string, to: string): Holdings {
    (holdings - {from})[to := HoldingsOf(holdings, to) + HoldingsOf(holdings, from)]
  }

  lemma {:induction false} ReboundRegister(bonds: Bonds, holdings: Holdings, from: string, to: string)
    requires Register(bonds, holdings) && from != to
    ensures Register(Rehold(bonds, from, to), MergeHoldings(holdings, from, to))
    ensures HoldingsOf(MergeHoldings(holdings, from, to), from) == map[]
  {
    var bonds', holdings' := Rehold(bonds, from, to), MergeHoldings(holdings, from, to);
    forall holder ensures HoldingsOf(holdings', holder) == HeldBy(bonds', holder) {
      assert HoldingsOf(holdings, holder) == HeldBy(bonds, holder);
      if holder == to {
        assert HoldingsOf(holdings, from) == HeldBy(bonds, from);
        assert HeldBy(bonds', to) == HeldBy(bonds, to) + HeldBy(bonds, from);
      }
    }
  }

  /** Passes a failed bank's bonds on, record by record. */
  method RebookBonds(e: Economy, from: string, to: string)
    requires from != to
    modifies e`bonds, e`holdings
    ensures e.bonds == Rehold(old(e.bonds), from, to) && e.holdings == MergeHoldings(old(e.holdings), from, to)
    ensures Register(old(e.bonds), old(e.holdings)) ==> Register(e.bonds, e.holdings)
  {
    if Register(e.bonds, e.holdings) {
      ReboundRegister(e.bonds, e.holdings, from, to);
    }
    e.holdings := MergeHoldings(e.holdings, from, to);
    var rest := e.bonds.Keys;
    while rest != {}
      invariant rest <= e.bonds.Keys == old(e.bonds).Keys && e.holdings == MergeHoldings(old(e.holdings), from, to)
      invariant forall s ::
        s in e.bonds ==> e.bonds[s] == if s in rest then old(e.bonds)[s] else Rehold(old(e.bonds), from, to)[s]
    {
      var s :| s in rest;
      if e.bonds[s].holder == from {
        e.bonds := e.bonds[s := e.bonds[s].(holder := to)];
      }
      rest := rest - {s};
    }
    assert e.bonds == Rehold(old(e.bonds), from, to);
  }

  // ---- New tranches ----

  /** No symbol in use was minted later than now. */
  predicate SymbolsMinted(bonds: Bonds) {
    forall s :: s in bonds ==> s.ordinal <= |bonds|
  }

  /** One more bond on both records. */
  method IssueTranche(e: Economy, symbol: Symbol, bond: Bond)
    requires Register(e.bonds, e.holdings) && symbol !in e.bonds && bond.outstanding
    modifies e`bonds, e`holdings
    ensures Register(e.bonds, e.holdings) && e.bonds == old(e.bonds)[symbol := bond]
    ensures forall b ::
      Sum(HoldingsOf(e.holdings, b)) == Sum(HoldingsOf(old(e.holdings), b)) + if b == bond.holder then bond.face else 0
  {
    hide Sum;
    ghost var holdings := e.holdings;
    TrancheRegisters(e.bonds, e.holdings, symbol, bond);
    e.bonds := e.bonds[symbol := bond];
    e.holdings := e.holdings[bond.holder := HoldingsOf(e.holdings, bond.holder)[symbol := bond.face]];
  }

  lemma {:induction false} TrancheRegisters(bonds: Bonds, holdings: Holdings, symbol: Symbol, bond: Bond)
    requires Register(bonds, holdings) && symbol !in bonds && bond.outstanding
    ensures var after := holdings[bond.holder := HoldingsOf(holdings, bond.holder)[symbol := bond.face]];
      && Register(bonds[symbol := bond], after)
      && forall b :: Sum(HoldingsOf(after, b)) == Sum(HoldingsOf(holdings, b)) + if b == bond.holder then bond.face
          else 0
  {
    hide Sum;
    var more, after := bonds[symbol := bond],
        holdings[bond.holder := HoldingsOf(holdings, bond.holder)[symbol := bond.face]];
    forall b ensures HoldingsOf(after, b) == HeldBy(more, b) {
      assert HoldingsOf(holdings, b) == HeldBy(bonds, b);
      if b == bond.holder {
        assert HeldBy(more, b) == HeldBy(bonds, b)[symbol := bond.face];
      } else {
        assert HeldBy(more, b) == HeldBy(bonds, b);
      }
    }
    assert HoldingsOf(holdings, bond.holder) == HeldBy(bonds, bond.holder);
    SumUpdate(HoldingsOf(holdings, bond.holder), symbol, bond.face);
  }

  /** A matured bond leaves both records. */
  lemma {:induction false} MaturityRegisters(bonds: Bonds, holdings: Holdings, symbol: Symbol)
    requires Register(bonds, holdings) && symbol in bonds && bonds[symbol].outstanding
    ensures var holder := bonds[symbol].holder;
      && holder in holdings && symbol in holdings[holder]
      && Register(bonds[symbol := bonds[symbol].(outstanding := false)],
                  holdings[holder := holdings[holder] - {symbol}])
  {
    var holder := bonds[symbol].holder;
    assert HoldingsOf(holdings, holder) == HeldBy(bonds, holder);
    assert symbol in HeldBy(bonds, holder);
    var fewer, after := bonds[symbol := bonds[symbol].(outstanding := false)],
        holdings[holder := holdings[holder] - {symbol}];
    forall b ensures HoldingsOf(after, b) == HeldBy(fewer, b) {
      assert HoldingsOf(holdings, b) == HeldBy(bonds, b);
      if b == holder {
        assert HeldBy(fewer, b) == HeldBy(bonds, b) - {symbol};
      } else {
        assert HeldBy(fewer, b) == HeldBy(bonds, b);
      }
    }
  }

  /** Rewriting what the register does not record. */
  lemma {:induction false} SameHoldings(bonds: Bonds, symbol: Symbol, next: Bond)
    requires symbol in bonds && next.outstanding == bonds[symbol].outstanding && next.holder == bonds[symbol].holder
    requires next.face == bonds[symbol].face
    ensures forall holdings :: Register(bonds, holdings) ==> Register(bonds[symbol := next], holdings)
  {
    forall b ensures HeldBy(bonds[symbol := next], b) == HeldBy(bonds, b) {
    }
  }
}
