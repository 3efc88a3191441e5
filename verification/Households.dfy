/** Who lives with whom: the household rows and the agents' own records, and what keeps the two in agreement. */
module Households {
  import opened Wrappers
  import opened Money
  import opened Books
  import opened Posting
  import opened LedgerClass
  import opened EventChain
  import opened EventLogs
  import opened JointWealth
  import State

  datatype Household = Household(
    formedTick: int, dissolvedTick: Option<int>, home: string, members: set<string>, head: Option<string>,
        shelter: bool,
    baseline: map<string, int>)
  {
    predicate Live() {
      dissolvedTick == None
    }
  }

  datatype Person = Person(alive: bool, adult: bool, home: string, household: Option<string>)

  type Rows = map<string, Household>
  type People = map<string, Person>

  // ---- The invariant ----

  predicate LivesIn(people: People, a: string, h: string) {
    a in people && people[a].household == Some(h)
  }

  predicate LiveRow(rows: Rows, h: string) {
    h in rows && rows[h].Live()
  }

  predicate Lists(rows: Rows, h: string, a: string) {
    LiveRow(rows, h) && a in rows[h].members
  }

  predicate HeadListed(row: Household) {
    row.Live() && row.head.Some? ==> row.head.value in row.members
  }

  /** An agent's record names a household exactly when that household is live and lists the agent; every head is a
      member. */
  ghost predicate Consistent(rows: Rows, people: People) {
    && (forall a, h :: LivesIn(people, a, h) <==> Lists(rows, h, a))
    && (forall h :: h in rows ==> HeadListed(rows[h]))
  }

  /** So nobody is in two live households. */
  lemma {:induction false} OneHousehold(rows: Rows, people: People, a: string, h: string, k: string)
    requires Consistent(rows, people) && Lists(rows, h, a) && Lists(rows, k, a)
    ensures h == k
  {
    assert LivesIn(people, a, h) && LivesIn(people, a, k);
  }

  // ---- Names in order ----

  /** The member whose identifier comes first. */
  predicate ComesFirst(members: set<string>, a: string) {
    a in members && forall b :: b in members && b != a ==> LexLess(a, b)
  }

  lemma {:induction false} SomeoneComesFirst(members: set<string>)
    requires members != {}
    ensures exists a :: ComesFirst(members, a)
    decreases |members|
  {
    var x :| x in members;
    if members == {x} {
      assert ComesFirst(members, x);
    } else {
      SomeoneComesFirst(members - {x});
      var a :| ComesFirst(members - {x}, a);
      LexTotal(a, x);
      if LexLess(a, x) {
        assert ComesFirst(members, a);
      } else {
        forall b | b in members && b != x ensures LexLess(x, b) {
          if b != a {
            LexTransitive(x, a, b);
          }
        }
        assert ComesFirst(members, x);
      }
    }
  }

  lemma {:induction false} OneComesFirst(members: set<string>, a: string, b: string)
    requires ComesFirst(members, a) && ComesFirst(members, b)
    ensures a == b
  {
    LexTotal(a, b);
  }

  method FirstOf(members: set<string>) returns (first: string)
    requires members != {}
    ensures ComesFirst(members, first)
  {
    hide LexLess;
    SomeoneComesFirst(members);
    first :| first in members && ComesFirst(members, first);
  }

  /** The names in their order, each once. */
  ghost predicate InNameOrder(order: seq<string>, names: set<string>) {
    && (forall i, j :: 0 <= i < j < |order| ==> LexLess(order[i], order[j]))
    && (forall n :: n in names <==> n in order)
  }

  /** The names in done in their order, before those still to come. */
  ghost predicate Listed(order: seq<string>, done: set<string>, rest: set<string>) {
    InNameOrder(order, done) && forall i, n :: 0 <= i < |order| && n in rest ==> LexLess(order[i], n)
  }

  lemma {:induction false} NoneListed(names: set<string>)
    ensures Listed([], {}, names) && names - names == {}
  {
  }

  lemma {:induction false} NextListed(order: seq<string>, names: set<string>, rest: set<string>, next: string)
    requires Listed(order, names - rest, rest) && ComesFirst(rest, next) && rest <= names
    ensures Listed(order + [next], names - (rest - {next}), rest - {next})
    ensures names - (rest - {next}) == names - rest + {next}
  {
    hide LexLess;
    var more := order + [next];
    assert more[|order|] == next;
    forall n ensures n in names - rest + {next} <==> n in more {
      if n in order {
        var i :| 0 <= i < |order| && order[i] == n;
        assert more[i] == n;
      }
    }
  }

  lemma {:induction false} AllListed(order: seq<string>, names: set<string>)
    requires Listed(order, names - {}, {})
    ensures InNameOrder(order, names)
  {
    assert names - {} == names;
  }

  // ---- Rows losing members ----

  /** A row from which some agents have gone; a head who went is replaced by the first member while there is one. */
  predicate Pruned(before: Household, after: Household, gone: set<string>) {
    if gone !! before.members then after == before
    else
      && after == before.(members := before.members - gone, head := after.head)
      && (if before.head.Some? && before.head.value in after.members then after.head == before.head
          else if after.members == {} then after.head == None
          else after.head.Some? && ComesFirst(after.members, after.head.value))
  }

  lemma {:induction false} PruneMore(before: Household, now: Household, after: Household, gone: set<string>, a: string)
    requires Pruned(before, now, gone) && Pruned(now, after, {a}) && a !in gone && a in before.members
    ensures Pruned(before, after, gone + {a})
  {
    assert now.members == before.members - gone;
    assert before.members - gone - {a} == before.members - (gone + {a});
    assert !({a} !! now.members);
    hide LexLess;
  }

  lemma {:induction false} PruneStranger(before: Household, now: Household, gone: set<string>, a: string)
    requires Pruned(before, now, gone) && a !in before.members
    ensures Pruned(before, now, gone + {a})
  {
    assert before.members - gone == before.members - (gone + {a});
  }

  /** What becomes of the registers when some agents form a household of their own. */
  ghost predicate Formed(rows: Rows, people: People, rows': Rows, people': People, id: string, members: set<string>,
                         home: string, tick: int) {
    && LiveRow(rows', id) && rows'[id].members == members && rows'[id].home == home && HeadListed(rows'[id])
    && rows'.Keys == rows.Keys + {id}
    && (forall h :: h in rows && h != id ==>
        if rows[h].Live() then Pruned(rows[h], rows'[h], members) else rows'[h] == rows[h])
    && people'.Keys == people.Keys && members <= people.Keys
    && (forall a :: a in people ==>
          people'[a] == if a in members then people[a].(household := Some(id), home := home) else people[a])
  }

  /** Forming keeps the registers consistent exactly when nobody outside the new household already lives under its
      identifier. */
  lemma {:induction false} FormedConsistent(rows: Rows, people: People, rows': Rows, people': People, id: string,
                                            members: set<string>, home: string, tick: int)
    requires Consistent(rows, people) && Formed(rows, people, rows', people', id, members, home, tick)
    ensures Consistent(rows', people') <==> forall a :: LivesIn(people, a, id) ==> a in members
  {
    if forall a :: LivesIn(people, a, id) ==> a in members {
      forall a, h ensures LivesIn(people', a, h) <==> Lists(rows', h, a) {
        assert LivesIn(people, a, h) <==> Lists(rows, h, a);
      }
      forall h | h in rows' ensures HeadListed(rows'[h]) {
      }
    } else {
      var a :| LivesIn(people, a, id) && a !in members;
      assert LivesIn(people', a, id) && !Lists(rows', id, a);
    }
  }

  /** A row that an agent has joined; it heads a household without one, unless that is a shelter's. */
  function Joined(row: Household, a: string, liquid: int): Household {
    row.(members := row.members + {a},
         head := if row.head.Some? then row.head else if row.shelter then None else Some(a),
         baseline := row.baseline[a := liquid])
  }

  datatype FormError = NoMembers | NotAlive | UnknownPlace | NotInHousehold | HouseholdGone | SplitFailed

  /** What the registry has to tell the event log. */
  datatype Notice =
    | HouseholdFormed(h: string, members: set<string>)
    | HouseholdJoined(h: string, agent: string)
    | HouseholdLeft(h: string, agent: string)
    | HouseholdDissolved(h: string)
    | UnionDissolved(initiator: string, target: string)
    | TieEnded(pair: set<string>)

  /** Who has left where to come to a household: nobody who had none or was there already. */
  function LeftNotice(rows: Rows, people: People, a: string, id: string): seq<Notice> {
    if a in people && people[a].household.Some? && LiveRow(rows, people[a].household.value)
       && people[a].household.value != id
    then [HouseholdLeft(people[a].household.value, a)] else []
  }

  function LeftNotices(rows: Rows, people: People, order: seq<string>, id: string): seq<Notice> {
    if order == [] then []
    else LeftNotices(rows, people, order[..|order| - 1], id) + LeftNotice(rows, people, order[|order| - 1], id)
  }

  lemma {:induction false} LeftNoticesMore(rows: Rows, people: People, order: seq<string>, id: string, a: string)
    ensures LeftNotices(rows, people, order + [a], id)
         == LeftNotices(rows, people, order, id) + LeftNotice(rows, people, a, id)
  {
    assert (order + [a])[..|order|] == order;
  }

  lemma {:induction false} NobodyLeaves(rows: Rows, people: People, order: seq<string>, id: string)
    requires forall a :: a in order ==> a in people && people[a].household == None
    ensures LeftNotices(rows, people, order, id) == []
  {
    if order != [] {
      assert forall a :: a in order[..|order| - 1] ==> a in order;
      NobodyLeaves(rows, people, order[..|order| - 1], id);
    }
  }

  /** The notices of a household that ends. */
  function EndNotices(h: string, order: seq<string>): seq<Notice> {
    seq(|order|, i requires 0 <= i < |order| => HouseholdLeft(h, order[i])) + [HouseholdDissolved(h)]
  }

  // ---- Homes ----

  /** Where a household of these members moves in: what it can afford, or where its first member lives. */
  predicate HomeIs(affordable: set<string> -> Option<string>, people: People, members: set<string>, home: string) {
    if affordable(members).Some? then home == affordable(members).value
    else exists a :: a in members && ComesFirst(members, a) && a in people && home == people[a].home
  }

  /** There is a place to move into, and the world knows it. */
  ghost predicate Housed(affordable: set<string> -> Option<string>, placeKnown: string -> bool, people: People,
                         members: set<string>) {
    exists home :: HomeIs(affordable, people, members, home) && placeKnown(home)
  }

  lemma {:induction false} OneHome(affordable: set<string> -> Option<string>, people: People, members: set<string>,
                                   home: string, other: string)
    requires HomeIs(affordable, people, members, home) && HomeIs(affordable, people, members, other)
    ensures home == other
  {
    if affordable(members) == None {
      var a :| a in members && ComesFirst(members, a) && a in people && home == people[a].home;
      var b :| b in members && ComesFirst(members, b) && b in people && other == people[b].home;
      OneComesFirst(members, a, b);
    }
  }

  lemma {:induction false} FirstIsIn(members: set<string>, first: string)
    requires ComesFirst(members, first)
    ensures first in members
  {
  }

  lemma {:induction false} NoHome(affordable: set<string> -> Option<string>, placeKnown: string -> bool, people: People,
                                  members: set<string>, home: string)
    requires HomeIs(affordable, people, members, home) && !placeKnown(home)
    ensures !Housed(affordable, placeKnown, people, members)
  {
    hide HomeIs;
    forall other | HomeIs(affordable, people, members, other) ensures other == home {
      OneHome(affordable, people, members, home, other);
    }
  }

  /** Homes depend on where the members live and on nothing else. */
  lemma {:induction false} SameHome(affordable: set<string> -> Option<string>, placeKnown: string -> bool,
                                    people: People, people': People, members: set<string>)
    requires forall a ::
      a in members ==> (a in people <==> a in people') && (a in people ==> people'[a].home == people[a].home)
    ensures Housed(affordable, placeKnown, people, members) <==> Housed(affordable, placeKnown, people', members)
  {
    hide ComesFirst;
    forall home ensures HomeIs(affordable, people, members, home) <==> HomeIs(affordable, people', members, home) {
    }
  }

  // ---- Joint wealth ----

  ghost function Liquids(accounts: Accounts, members: set<string>): map<string, int> {
    map a | a in members :: Measure(LiquidOf(a), accounts)
  }

  function BaselineOf(row: Household, a: string): int {
    if a in row.baseline then row.baseline[a] else 0
  }

  function Gain(liquid: int, baseline: int): int {
    if liquid < baseline then 0 else liquid - baseline
  }

  ghost function GainOf(accounts: Accounts, row: Household, a: string): int {
    Gain(Measure(LiquidOf(a), accounts), BaselineOf(row, a))
  }

  /** What evens out the gains the two have made since the household was formed. */
  ghost function OwedBy(accounts: Accounts, row: Household, a: string, b: string): int {
    Owed(a, b, GainOf(accounts, row, a), GainOf(accounts, row, b))
  }

  // ---- The registry ----

  class Registry {
    /** The identifier a household formed at a tick, for a reason, by these members gets. */
    const idOf: (int, string, set<string>) -> string
    const affordable: set<string> -> Option<string>
    const placeKnown: string -> bool
    const isShelter: string -> bool
    const draft: Notice -> Draft
    const moment: int -> Moment
    const ledger: Ledger
    const log: EventLog
    var rows: Rows
    var people: People
    var locations: map<string, string>
    /** The couples of the relation graph. */
    var partners: set<set<string>>

    constructor (idOf: (int, string, set<string>) -> string, affordable: set<string> -> Option<string>,
                 placeKnown: string -> bool,
                 isShelter: string -> bool, draft: Notice -> Draft, moment: int -> Moment, ledger: Ledger,
                     log: EventLog)
      ensures this.idOf == idOf && this.affordable == affordable && this.placeKnown == placeKnown
      ensures this.isShelter == isShelter
      ensures this.draft == draft && this.moment == moment && this.ledger == ledger && this.log == log
      ensures rows == map[] && people == map[] && locations == map[] && partners == {} && Consistent(rows, people)
    {
      this.idOf, this.affordable, this.placeKnown, this.isShelter := idOf, affordable, placeKnown, isShelter;
      this.draft, this.moment, this.ledger, this.log := draft, moment, ledger, log;
      rows, people, locations, partners := map[], map[], map[], {};
    }

    ghost function Here(): World
      reads ledger
    {
      World(idOf, affordable, isShelter, ledger.accounts)
    }

    /** The batch with these notices staged, one after another. */
    ghost function Noted(batch: Batch, notices: seq<Notice>, tick: int): Batch {
      if notices == [] then batch
      else
        Staged(log.digest, log.keep, Noted(batch, notices[..|notices| - 1], tick), draft(notices[|notices| - 1]),
               log.runId, moment(tick)).0
    }

    lemma {:induction false} NotedOne(batch: Batch, notice: Notice, tick: int)
      ensures Noted(batch, [notice], tick)
           == Staged(log.digest, log.keep, batch, draft(notice), log.runId, moment(tick)).0
      ensures Noted(batch, [], tick) == batch
    {
    }

    lemma {:induction false} NotedAlso(batch: Batch, first: seq<Notice>, second: seq<Notice>, tick: int)
      ensures Noted(batch, first + second, tick) == Noted(Noted(batch, first, tick), second, tick)
    {
      if second == [] {
        assert first + second == first;
      } else {
        hide Staged;
        var both := first + second;
        assert both[..|both| - 1] == first + second[..|second| - 1];
        NotedAlso(batch, first, second[..|second| - 1], tick);
      }
    }

    /** Stages an event about a household. */
    method Note(notice: Notice, tick: int)
      requires log.Valid()
      modifies log
      ensures log.Valid() && log.Underneath() == old(log.Underneath())
      ensures log.Now() == Noted(old(log.Now()), [notice], tick)
    {
      NotedOne(log.Now(), notice, tick);
      var _ := log.Stage(draft(notice), moment(tick));
    }

    method LiquidsNow(members: set<string>) returns (liquids: map<string, int>)
      ensures liquids == Liquids(ledger.accounts, members)
    {
      liquids := map[];
      var rest := members;
      while rest != {}
        invariant rest <= members && liquids == Liquids(ledger.accounts, members - rest)
      {
        var a :| a in rest;
        var cents := State.MeasureNow(LiquidOf(a), ledger.accounts);
        liquids := liquids[a := cents];
        assert members - (rest - {a}) == members - rest + {a};
        rest := rest - {a};
      }
      assert members - {} == members;
    }

    /** The live household an agent's record names. */
    function Of(a: string): (h: Option<string>)
      reads this
      ensures h.Some? ==> LivesIn(people, a, h.value) && LiveRow(rows, h.value)
      ensures h == None ==> forall k :: LivesIn(people, a, k) ==> !LiveRow(rows, k)
    {
      if a in people && people[a].household.Some? && LiveRow(rows, people[a].household.value) then people[a].household
          else None
    }

    /** Takes an agent off a row. */
    method RemoveMember(h: string, a: string)
      requires LiveRow(rows, h) && a in rows[h].members
      modifies this`rows
      ensures rows.Keys == old(rows).Keys && Pruned(old(rows)[h], rows[h], {a})
      ensures forall k :: k in rows && k != h ==> rows[k] == old(rows)[k]
    {
      var row := rows[h];
      var left := row.members - {a};
      var head := row.head;
      if head == None || head.value !in left {
        head := None;
        if left != {} {
          var next := FirstOf(left);
          head := Some(next);
        }
      }
      rows := rows[h := row.(members := left, head := head)];
    }

    method Leave(a: string, tick: int) returns (r: Result<(), FormError>)
      requires Consistent(rows, people) && log.Valid()
      modifies this`rows, this`people, log
      ensures Consistent(rows, people) && log.Valid() && log.Underneath() == old(log.Underneath())
      ensures r.Success? <==> exists h :: LivesIn(old(people), a, h)
      ensures r.Failure? ==> unchanged(this) && unchanged(log)
      ensures forall h :: LivesIn(old(people), a, h) ==> log.Now() == Noted(old(log.Now()), [HouseholdLeft(h, a)], tick)
      ensures rows.Keys == old(rows).Keys
      ensures r.Success? ==>
        && people == old(people)[a := old(people)[a].(household := None)]
        && forall h :: h in old(rows) ==>
            h in rows && if Lists(old(rows), h, a) then Pruned(old(rows)[h], rows[h], {a}) else rows[h] == old(rows)[h]
    {
      var of := Of(a);
      if of == None {
        forall h ensures !LivesIn(people, a, h) {
          assert LivesIn(people, a, h) <==> Lists(rows, h, a);
        }
        return Failure(NotInHousehold);
      }
      assert Lists(rows, of.value, a);
      RemoveMember(of.value, a);
      people := people[a := people[a].(household := None)];
      LeftConsistent(old(rows), old(people), rows, people, of.value, a);
      Note(HouseholdLeft(of.value, a), tick);
      return Success(());
    }

    /** Moves one member of a household being formed out of where it lived and in. */
    method MoveIn(a: string, id: string, home: string, tick: int, ghost rows0: Rows, ghost people0: People,
                  ghost done: set<string>)
      requires a in people && a !in done && Forming(rows0, people0, rows, people, id, done, home)
      requires Consistent(rows0, people0) && log.Valid()
      modifies this`rows, this`people, this`locations, log
      ensures Forming(rows0, people0, rows, people, id, done + {a}, home) && locations == old(locations)[a := home]
      ensures log.Valid() && log.Underneath() == old(log.Underneath())
      ensures log.Now() == Noted(old(log.Now()), LeftNotice(rows0, people0, a, id), tick)
      ensures id in old(rows) ==> id in rows && rows[id] == old(rows)[id]
      ensures people.Keys == old(people).Keys
    {
      hide Pruned, Chain, BatchChains, Extends, Staged, ComesFirst, LexLess;
      SameNotice(rows0, people0, rows, people, id, done, home, a);
      assert Noted(log.Now(), [], tick) == log.Now();
      var prior := Of(a);
      ghost var now, folk := rows, people;
      PriorHome(rows0, people0, rows, people, id, done, home, a);
      if prior.Some? && prior.value != id {
        RemoveMember(prior.value, a);
        people := people[a := people[a].(household := None)];
        Note(HouseholdLeft(prior.value, a), tick);
      }
      people := people[a := people[a].(household := Some(id), home := home)];
      locations := locations[a := home];
      MovedIn(rows0, people0, now, folk, rows, people, id, done, home, a);
    }

    /** Forms a household, and exactly when: of living members, with a home to go to. Each starts with what it has. */
    method Form(members: set<string>, tick: int, reason: string) returns (r: Result<string, FormError>)
      requires Consistent(rows, people) && log.Valid()
      modifies this`rows, this`people, this`locations, log
      ensures log.Valid() && log.Underneath() == old(log.Underneath())
      ensures r.Success? <==> members != {} && (forall a :: a in members ==> a in old(people) && old(people)[a].alive)
                              && Housed(affordable, placeKnown, old(people), members)
      ensures r.Failure? ==> unchanged(this) && unchanged(log)
      ensures r.Success? ==> r.value == idOf(tick, reason, members)
      ensures r.Success? ==> exists home ::
        && HomeIs(affordable, old(people), members, home) && placeKnown(home)
        && Formed(old(rows), old(people), rows, people, r.value, members, home, tick)
        && Located(old(locations), locations, members, home)
      ensures r.Success? ==>
        && r.value in rows && rows[r.value].head.Some? && rows[r.value].head.value in members
        && rows[r.value] == Household(tick, None, rows[r.value].home, members, rows[r.value].head,
                                      isShelter(rows[r.value].home), Liquids(ledger.accounts, members))
      ensures r.Success? ==> exists order ::
        && InNameOrder(order, members)
        && log.Now() == Noted(old(log.Now()), LeftNotices(old(rows), old(people), order, r.value)
                              + [HouseholdFormed(r.value, members)], tick)
      ensures r.Success? ==>
        (Consistent(rows, people) <==> forall a :: LivesIn(old(people), a, r.value) ==> a in members)
    {
      hide Consistent, Forming, Pruned, ComesFirst, HomeIs, InNameOrder, Noted, LeftNotices, Staged, Chain, BatchChains,
           Extends;
      if members == {} { return Failure(NoMembers); }
      if exists a :: a in members && (a !in people || !people[a].alive) { return Failure(NotAlive); }
      var home := FindHome(members);
      if !placeKnown(home) {
        NoHome(affordable, placeKnown, people, members, home);
        return Failure(UnknownPlace);
      }
      assert Housed(affordable, placeKnown, people, members);
      var id := idOf(tick, reason, members);
      var head :| head in members;
      var baseline := LiquidsNow(members);
      ghost var rows0, people0 := rows, people;
      rows := rows[id := Household(tick, None, home, members, Some(head), isShelter(home), baseline)];
      FormingStarts(rows0, people0, rows, id, home);
      ghost var order := MoveAllIn(members, id, home, tick, rows0, people0);
      FormingEnds(rows0, people0, rows, people, id, members, home, tick);
      FormedConsistent(rows0, people0, rows, people, id, members, home, tick);
      Note(HouseholdFormed(id, members), tick);
      NotedAlso(old(log.Now()), LeftNotices(rows0, people0, order, id), [HouseholdFormed(id, members)], tick);
      return Success(id);
    }

    method FindHome(members: set<string>) returns (home: string)
      requires members != {} && members <= people.Keys
      ensures HomeIs(affordable, people, members, home)
    {
      hide ComesFirst;
      if affordable(members).Some? { return affordable(members).value; }
      var first := FirstOf(members);
      assert first in members by { FirstIsIn(members, first); }
      return people[first].home;
    }

    method MoveAllIn(members: set<string>, id: string, home: string, tick: int, ghost rows0: Rows,
                     ghost people0: People)
      returns (ghost order: seq<string>)
      requires Consistent(rows0, people0) && Forming(rows0, people0, rows, people, id, {}, home)
      requires members <= people.Keys && id in rows
      requires log.Valid()
      modifies this`rows, this`people, this`locations, log
      ensures Forming(rows0, people0, rows, people, id, members, home)
      ensures Located(old(locations), locations, members, home)
      ensures log.Valid() && log.Underneath() == old(log.Underneath())
      ensures InNameOrder(order, members)
      ensures log.Now() == Noted(old(log.Now()), LeftNotices(rows0, people0, order, id), tick)
      ensures id in rows && rows[id] == old(rows)[id]
    {
      hide Consistent, Forming, Pruned, LexLess, ComesFirst, InNameOrder, Staged, LeftNotice, Listed, Chain,
           BatchChains, Extends, Located;
      NobodyLocated(locations, home);
      var rest := members;
      order := [];
      NoneListed(members);
      assert LeftNotices(rows0, people0, [], id) == [];
      assert Noted(log.Now(), [], tick) == log.Now();
      hide Noted, LeftNotices;
      while rest != {}
        invariant Listed(order, members - rest, rest)
        invariant log.Now() == Noted(old(log.Now()), LeftNotices(rows0, people0, order, id), tick)
        invariant rest <= members <= people.Keys && id in rows && rows[id] == old(rows)[id]
        invariant Forming(rows0, people0, rows, people, id, members - rest, home)
        invariant Located(old(locations), locations, members - rest, home)
        invariant log.Valid() && log.Underneath() == old(log.Underneath())
      {
        var a := FirstOf(rest);
        FirstIsIn(rest, a);
        MoreAtHome(old(locations), locations, members - rest, home, a);
        MoveIn(a, id, home, tick, rows0, people0, members - rest);
        NextListed(order, members, rest, a);
        LeftNoticesMore(rows0, people0, order, id, a);
        NotedAlso(old(log.Now()), LeftNotices(rows0, people0, order, id), LeftNotice(rows0, people0, a, id), tick);
        order := order + [a];
        rest := rest - {a};
      }
      AllListed(order, members);
      assert members - {} == members;
    }

    method Join(a: string, h: string, tick: int) returns (r: Result<(), FormError>)
      requires Consistent(rows, people) && a in people && h in rows && log.Valid()
      modifies this`rows, this`people, this`locations, log
      ensures Consistent(rows, people) && log.Valid() && log.Underneath() == old(log.Underneath())
      ensures r.Success? <==> LiveRow(old(rows), h)
      ensures r.Failure? ==> unchanged(this) && unchanged(log)
      ensures r.Success? ==>
        && rows.Keys == old(rows).Keys && rows[h] == Joined(old(rows)[h], a, Measure(LiquidOf(a), ledger.accounts))
        && people.Keys == old(people).Keys
        && people[a] == old(people)[a].(household := Some(h), home := rows[h].home)
        && locations == old(locations)[a := rows[h].home]
        && forall k :: k in rows && k != h ==>
             if Lists(old(rows), k, a) then Pruned(old(rows)[k], rows[k], {a}) else rows[k] == old(rows)[k]
      ensures r.Success? ==>
        people.Keys == old(people).Keys && forall b :: b in people && b != a ==> people[b] == old(people)[b]
      ensures r.Success? ==>
        log.Now() == Noted(old(log.Now()), LeftNotice(old(rows), old(people), a, h) + [HouseholdJoined(h, a)], tick)
    {
      hide Consistent, Pruned, Staged, Chain, BatchChains, Extends, Measure, Noted;
      if !rows[h].Live() { return Failure(HouseholdGone); }
      ghost var rows0, people0 := rows, people;
      Vacate(a, h, tick);
      var row := rows[h];
      var liquid := State.MeasureNow(LiquidOf(a), ledger.accounts);
      rows := rows[h := Joined(row, a, liquid)];
      people := people[a := people[a].(household := Some(h), home := row.home)];
      locations := locations[a := row.home];
      HeadStays(rows0, people0, h, rows[h], a);
      JoinedConsistent(rows0, people0, rows, people, a, h);
      Note(HouseholdJoined(h, a), tick);
      NotedAlso(old(log.Now()), LeftNotice(rows0, people0, a, h), [HouseholdJoined(h, a)], tick);
      return Success(());
    }

    /** Has an agent leave the household it lives in, unless it is this one. */
    method Vacate(a: string, h: string, tick: int)
      requires Consistent(rows, people) && a in people && LiveRow(rows, h) && log.Valid()
      modifies this`rows, this`people, log
      ensures log.Valid() && log.Underneath() == old(log.Underneath())
      ensures log.Now() == Noted(old(log.Now()), LeftNotice(old(rows), old(people), a, h), tick)
      ensures rows.Keys == old(rows).Keys && rows[h] == old(rows)[h]
      ensures forall k ::
        k in rows && k != h ==>
          if Lists(old(rows), k, a) then Pruned(old(rows)[k], rows[k], {a}) else rows[k] == old(rows)[k]
      ensures people.Keys == old(people).Keys && people[a] == old(people)[a].(household := people[a].household)
      ensures forall b :: b in people && b != a ==> people[b] == old(people)[b]
    {
      hide Pruned, Staged, Chain, BatchChains, Extends;
      var prior := Of(a);
      assert forall k :: LivesIn(people, a, k) <==> Lists(rows, k, a);
      if prior.Some? && prior.value != h {
        var _ := Leave(a, tick);
      }
    }

    /** Ends a household; its members are left without one. */
    method Dissolve(h: string, tick: int)
      requires Consistent(rows, people) && h in rows && log.Valid()
      modifies this`rows, this`people, log
      ensures Consistent(rows, people) && people.Keys == old(people).Keys
      ensures log.Valid() && log.Underneath() == old(log.Underneath())
      ensures rows == if LiveRow(old(rows), h)
          then old(rows)[h := Ended(old(rows)[h], tick)] else old(rows)
      ensures forall a :: a in people ==>
        people[a] == if Lists(old(rows), h, a) then old(people)[a].(household := None) else old(people)[a]
      ensures LiveRow(old(rows), h) ==> exists order ::
        InNameOrder(order, old(rows)[h].members) && log.Now() == Noted(old(log.Now()), EndNotices(h, order), tick)
      ensures !LiveRow(old(rows), h) ==> log.Now() == old(log.Now())
    {
      hide Consistent, Staged, Chain, BatchChains, Extends, InNameOrder, ComesFirst, LexLess, Listed;
      MembersLive(rows, people, h);
      if !rows[h].Live() { return; }
      var rest := rows[h].members;
      ghost var order, left: seq<Notice> := [], [];
      ghost var members := rest;
      NoneListed(members);
      assert Noted(log.Now(), [], tick) == log.Now();
      hide Noted;
      while rest != {}
        invariant rest <= members && Listed(order, members - rest, rest)
        invariant |left| == |order| && forall i :: 0 <= i < |order| ==> left[i] == HouseholdLeft(h, order[i])
        invariant log.Now() == Noted(old(log.Now()), left, tick)
        invariant rows == old(rows) && rest <= rows[h].members && people.Keys == old(people).Keys
        invariant log.Valid() && log.Underneath() == old(log.Underneath())
        invariant forall a :: a in people ==>
          people[a] == if a in rows[h].members - rest then old(people)[a].(household := None) else old(people)[a]
      {
        var a := FirstOf(rest);
        FirstIsIn(rest, a);
        assert LivesIn(old(people), a, h);
        if people[a].household == Some(h) {
          people := people[a := people[a].(household := None)];
          Note(HouseholdLeft(h, a), tick);
        }
        NextListed(order, members, rest, a);
        NotedAlso(old(log.Now()), left, [HouseholdLeft(h, a)], tick);
        order, left := order + [a], left + [HouseholdLeft(h, a)];
        rest := rest - {a};
      }
      AllListed(order, members);
      rows := rows[h := Ended(rows[h], tick)];
      Note(HouseholdDissolved(h), tick);
      NotedAlso(old(log.Now()), left, [HouseholdDissolved(h)], tick);
      assert left + [HouseholdDissolved(h)] == EndNotices(h, order);
      EndedConsistent(old(rows), old(people), rows, people, h, tick);
    }

    /** Takes over saved rows and writes every agent's record anew from them. */
    method Load(saved: Rows)
      modifies this`rows, this`people
      ensures rows == saved && people.Keys == old(people).Keys
      ensures SavedSound(saved, people.Keys) ==> Consistent(rows, people)
      ensures forall a :: a in people ==> people[a] == old(people)[a].(household := people[a].household)
      ensures forall a, h :: LivesIn(people, a, h) ==> Lists(saved, h, a)
      ensures forall a, h :: a in people && Lists(saved, h, a) ==> people[a].household.Some?
    {
      rows := saved;
      people := map a | a in people :: people[a].(household := None);
      ghost var done: set<string> := {};
      var rest := saved.Keys;
      while rest != {}
        invariant rows == saved && people.Keys == old(people).Keys && rest <= saved.Keys
        invariant forall a :: a in people ==> people[a] == old(people)[a].(household := people[a].household)
        invariant forall a, h :: LivesIn(people, a, h) ==> Lists(saved, h, a)
        invariant forall a, h :: a in people && Lists(saved, h, a) && h !in rest ==> people[a].household.Some?
        invariant SavedSound(saved, people.Keys) ==>
          forall a, h :: LivesIn(people, a, h) <==> Lists(saved, h, a) && h !in rest
      {
        var h :| h in rest;
        ghost var before := people;
        if saved[h].Live() {
          people := map a | a in people :: if a in saved[h].members then people[a].(household := Some(h))
              else people[a];
        }
        if SavedSound(saved, people.Keys) {
          LoadedRow(saved, before, people, rest, h);
        }
        rest := rest - {h};
      }
    }

    function FormedNotice(group: set<string>, tick: int): Notice {
      HouseholdFormed(idOf(tick, "dissolution", group), group)
    }

    function SingleNotices(names: seq<string>, tick: int): seq<Notice> {
      seq(|names|, i requires 0 <= i < |names| => FormedNotice({names[i]}, tick))
    }

    /** Places one group of a parting household in a home of its own, if it has one. */
    method Place(h: string, group: set<string>, tick: int, ghost rows0: Rows, ghost people0: People,
                 ghost groups: set<set<string>>) returns (r: Result<(), FormError>)
      requires Consistent(rows, people) && Parting(rows0, people0, rows, people, h, groups, tick, Here())
      requires IdsDiffer(idOf) && log.Valid() && AllLocated(locations, people, groups)
      requires h in rows0 && group <= rows0[h].members && forall g :: g in groups ==> g !! group
      modifies this`rows, this`people, this`locations, log
      ensures log.Valid() && log.Underneath() == old(log.Underneath())
      ensures r.Success? ==>
        Consistent(rows, people) && Parting(rows0, people0, rows, people, h, groups + {group}, tick, Here())
      ensures r.Success? ==> AllLocated(locations, people, groups + {group})
      ensures r.Success? ==> log.Now() == Noted(old(log.Now()), [FormedNotice(group, tick)], tick)
      ensures OnlyMoved(old(locations), locations, group)
      ensures r.Failure? ==> rows == old(rows) && people == old(people)
      ensures r.Success? <==> Placeable(affordable, placeKnown, people0, group)
    {
      hide Consistent, Formed, HomeIs, Housed, NewRow, Parting, Noted, LeftNotices, InNameOrder, AllLocated, Chain,
           BatchChains, Extends, Liquids;
      ghost var rows1, people1 := rows, people;
      SameLives(rows0, people0, rows, people, h, groups, tick, Here(), group);
      SameHome(affordable, placeKnown, people0, people, group);
      var formed := Form(group, tick, "dissolution");
      if formed.Failure? { return Failure(formed.error); }
      ghost var id := formed.value;
      ghost var home :| HomeIs(affordable, people1, group, home)
          && Formed(rows1, people1, rows, people, id, group, home, tick)
          && Located(old(locations), locations, group, home);
      ghost var order :| InNameOrder(order, group)
          && log.Now() == Noted(old(log.Now()), LeftNotices(rows1, people1, order, id) + [HouseholdFormed(id, group)],
                                tick);
      NobodyToLeave(rows1, people1, order, group, id);
      NobodyElse(rows0, people0, rows1, people1, h, groups, tick, Here(), group);
      JustFormed(rows1, people1, rows, people, id, group, home, tick, Here());
      PartStep(rows0, people0, rows1, people1, rows, people, h, groups, group, home, tick, Here());
      MoreLocated(old(locations), locations, people1, people, groups, group, rows1, rows, id, home, tick);
      return Success(());
    }

    /** Moves what one partner owes the other. */
    method EvenOut(row: Household, initiator: string, target: string, tick: int) returns (r: Result<(), FormError>)
      requires ledger.Valid() && log.Valid() && initiator != target
      modifies ledger, log
      ensures ledger.Valid() && log.Valid() && log.Underneath() == old(log.Underneath())
      ensures ledger.delivered == old(ledger.delivered)
      ensures var owed := OwedBy(old(ledger.accounts), row, initiator, target);
        && (r.Success? <==> SplitWorks(old(ledger.accounts), initiator, target, owed))
        && (r.Success? ==> SplitMade(old(ledger.accounts), ledger.accounts, initiator, target, owed))
      ensures r.Success? ==> log.Now() == Noted(old(log.Now()), [UnionDissolved(initiator, target)], tick)
    {
      hide SplitWorks, SplitMade, Transferable, MadeFrom, Staged, Postable, Chain, BatchChains, Extends, Measure,
           SoundAccounts, SoundEntries, SoundDelivery, HalfOf, Share, Posted, EntriesOf, Known, Noted;
      var liquidI := State.MeasureNow(LiquidOf(initiator), ledger.accounts);
      var liquidT := State.MeasureNow(LiquidOf(target), ledger.accounts);
      var gainI, gainT := Gain(liquidI, BaselineOf(row, initiator)), Gain(liquidT, BaselineOf(row, target));
      HalvesAreShares(gainI + gainT, initiator, target);
      var claims := [(initiator, 1), (target, 1)];
      var split := Allocate(gainI + gainT, claims);
      var owed := gainI - split.value[initiator];
      ShareOf(gainI + gainT, claims, split.value, initiator, target);
      var legs := SplitLegs(ledger, initiator, target, owed);
      if legs == None { return Failure(SplitFailed); }
      Note(UnionDissolved(initiator, target), tick);
      if owed == 0 {
        NothingOwed(ledger.accounts, initiator, target);
        return Success(());
      }
      ghost var before := ledger.accounts;
      var posted := ledger.PostTransaction(legs.value, tick, Cause(ledger.runId, tick, 0), {});
      if posted.Failure? { return Failure(SplitFailed); }
      PostableKnown(before, legs.value, {}, false);
      SplitPosted(before, ledger.accounts, initiator, target, owed, legs.value);
      return Success(());
    }

    /** The parting itself; it may stop half way, and exactly when. */
    method Part(h: string, initiator: string, target: string, custody: string, tick: int)
      returns (r: Result<(), FormError>)
      requires Consistent(rows, people) && initiator != target && custody in {initiator, target} && LiveRow(rows, h)
      requires Lists(rows, h, initiator) && Lists(rows, h, target) && IdsDiffer(idOf)
      requires IdsFree(idOf, rows, people, h, tick)
      requires ledger.Valid() && log.Valid()
      modifies this, ledger, log
      ensures people.Keys == old(people).Keys && OnlyMoved(old(locations), locations, old(rows)[h].members)
      ensures forall a :: a in people && a !in old(rows)[h].members ==> people[a] == old(people)[a]
      ensures ledger.Valid() && log.Valid() && log.Underneath() == old(log.Underneath())
      ensures ledger.delivered == old(ledger.delivered)
      ensures r.Success? ==> Consistent(rows, people) && partners == old(partners) - {{initiator, target}}
      ensures r.Success? ==>
        Parting(old(rows), old(people), rows, people, h,
                Groups(old(rows)[h].members, old(people), initiator, target, custody), tick, Here())
      ensures r.Success? ==>
        AllLocated(locations, people, Groups(old(rows)[h].members, old(people), initiator, target, custody))
      ensures r.Success? ==>
        Scattered(Noted(old(log.Now()), [UnionDissolved(initiator, target)]
                        + TieNotice(old(partners), initiator, target), tick),
                  log.Now(), h, old(rows)[h].members, old(people), initiator, target, custody, tick)
      ensures r.Success? ==>
        SplitMade(old(ledger.accounts), ledger.accounts, initiator, target,
                  OwedBy(old(ledger.accounts), old(rows)[h], initiator, target))
      ensures r.Success? <==>
        && SplitWorks(old(ledger.accounts), initiator, target,
                      OwedBy(old(ledger.accounts), old(rows)[h], initiator, target))
        && forall g :: g in Groups(old(rows)[h].members, old(people), initiator, target, custody) ==>
            Placeable(affordable, placeKnown, old(people), g)
    {
      hide Consistent, Parting, IdsFree, IdsDiffer, Placeable, OwedBy, SplitWorks, SplitMade, Chain, BatchChains,
           Extends, SoundAccounts, SoundEntries, SoundDelivery, Groups, AllLocated, Noted, Scattered;
      var even := EvenOut(rows[h], initiator, target, tick);
      if even.Failure? { return Failure(even.error); }
      EndTie(initiator, target, tick);
      NotedAlso(old(log.Now()), [UnionDissolved(initiator, target)], TieNotice(old(partners), initiator, target), tick);
      r := Scatter(h, initiator, target, custody, tick);
    }

    /** Ends the household and places everybody in it anew. */
    method Scatter(h: string, initiator: string, target: string, custody: string, tick: int)
      returns (r: Result<(), FormError>)
      requires Consistent(rows, people) && initiator != target && custody in {initiator, target} && LiveRow(rows, h)
      requires Lists(rows, h, initiator) && Lists(rows, h, target) && IdsDiffer(idOf)
      requires IdsFree(idOf, rows, people, h, tick)
      requires log.Valid()
      modifies this`rows, this`people, this`locations, log
      ensures people.Keys == old(people).Keys && OnlyMoved(old(locations), locations, old(rows)[h].members)
      ensures forall a :: a in people && a !in old(rows)[h].members ==> people[a] == old(people)[a]
      ensures log.Valid() && log.Underneath() == old(log.Underneath())
      ensures r.Success? ==> Consistent(rows, people)
      ensures r.Success? ==>
        Parting(old(rows), old(people), rows, people, h,
                Groups(old(rows)[h].members, old(people), initiator, target, custody), tick, Here())
      ensures r.Success? ==>
        AllLocated(locations, people, Groups(old(rows)[h].members, old(people), initiator, target, custody))
      ensures r.Success? ==>
        Scattered(old(log.Now()), log.Now(), h, old(rows)[h].members, old(people), initiator, target, custody, tick)
      ensures r.Success? <==>
        forall g :: g in Groups(old(rows)[h].members, old(people), initiator, target, custody) ==>
            Placeable(affordable, placeKnown, old(people), g)
    {
      hide Consistent, Parting, IdsFree, IdsDiffer, Dependants, OtherAdults, Placeable, Singles, Chain, BatchChains,
           Extends, Groups, AllLocated, Noted, InNameOrder, EndNotices, SingleNotices, LexLess;
      ghost var rows0, people0, places0, batch := rows, people, locations, log.Now();
      MembersKnown(rows, people, h);
      var members := rows[h].members;
      var dependants := Dependants(members, people, initiator, target);
      var others := OtherAdults(members, people, initiator, target);
      var noncustody := if custody == initiator then target else initiator;
      PartsOf(members, people, initiator, target, custody);
      GroupsAll(affordable, placeKnown, members, people, initiator, target, custody);
      Dissolve(h, tick);
      ghost var gone :| InNameOrder(gone, members) && log.Now() == Noted(batch, EndNotices(h, gone), tick);
      PartingStarts(rows0, people0, rows, people, h, tick, Here());
      PartingFrame(rows0, people0, rows, people, h, {}, tick, Here());
      var pair := ParentGroups(dependants, initiator, target, custody);
      assert {pair.0, pair.1} == {dependants + {custody}, {noncustody}};
      ghost var ended, order := log.Now(), [];
      r, order := Resettle(h, pair.0, pair.1, others, tick, rows0, people0);
      if r.Success? {
        ScatterNoted(batch, ended, log.Now(), h, members, people0, initiator, target, custody, tick, gone, order);
      }
    }

    /** Places everybody, the partners first. */
    method Resettle(h: string, first: set<string>, second: set<string>, others: set<string>, tick: int,
                    ghost rows0: Rows, ghost people0: People)
      returns (r: Result<(), FormError>, ghost order: seq<string>)
      requires Consistent(rows, people) && Parting(rows0, people0, rows, people, h, {}, tick, Here())
      requires log.Valid() && IdsDiffer(idOf) && h in rows0 && first + second + others <= rows0[h].members
      requires first !! second && first !! others && second !! others && first != {} && second != {}
      modifies this`rows, this`people, this`locations, log
      ensures people.Keys == old(people).Keys && OnlyMoved(old(locations), locations, rows0[h].members)
      ensures forall a :: a in people && a !in rows0[h].members ==> people[a] == people0[a]
      ensures log.Valid() && log.Underneath() == old(log.Underneath())
      ensures r.Success? ==>
        && Consistent(rows, people)
        && Parting(rows0, people0, rows, people, h, {first, second} + Singles(others), tick, Here())
        && AllLocated(locations, people, {first, second} + Singles(others)) && InNameOrder(order, others)
        && log.Now() == Noted(Noted(old(log.Now()), [FormedNotice(first, tick), FormedNotice(second, tick)], tick),
                              SingleNotices(order, tick), tick)
      ensures r.Success? <==>
        && Placeable(affordable, placeKnown, people0, first) && Placeable(affordable, placeKnown, people0, second)
        && forall g :: g in Singles(others) ==> Placeable(affordable, placeKnown, people0, g)
    {
      hide Consistent, Parting, IdsDiffer, Placeable, Singles, Chain, BatchChains, Extends, AllLocated, Noted,
           InNameOrder, SingleNotices;
      order := [];
      r := PlaceParents(h, first, second, tick, rows0, people0);
      if r.Failure? { return; }
      r, order := PlaceOthers(h, others, tick, rows0, people0, {first, second});
    }

    /** What the log is told of a household that parts: everybody leaves, it ends, and the new ones form, the partners'
        first and then the others', each in the order of their names. */
    ghost predicate Scattered(before: Batch, after: Batch, h: string, members: set<string>, people: People, a: string,
                              b: string, custody: string, tick: int) {
      exists gone, order ::
        && InNameOrder(gone, members) && InNameOrder(order, OtherAdults(members, people, a, b))
        && var pair := ParentGroups(Dependants(members, people, a, b), a, b, custody);
           after == Noted(before, EndNotices(h, gone) + [FormedNotice(pair.0, tick), FormedNotice(pair.1, tick)]
                          + SingleNotices(order, tick), tick)
    }

    lemma {:induction false} ScatterNoted(before: Batch, ended: Batch, after: Batch, h: string, members: set<string>,
                                          people: People, a: string, b: string, custody: string, tick: int,
                                          gone: seq<string>, order: seq<string>)
      requires InNameOrder(gone, members) && InNameOrder(order, OtherAdults(members, people, a, b))
      requires ended == Noted(before, EndNotices(h, gone), tick)
      requires var pair := ParentGroups(Dependants(members, people, a, b), a, b, custody);
        after == Noted(Noted(ended, [FormedNotice(pair.0, tick), FormedNotice(pair.1, tick)], tick),
                       SingleNotices(order, tick), tick)
      ensures Scattered(before, after, h, members, people, a, b, custody, tick)
    {
      hide Noted, InNameOrder, EndNotices, SingleNotices, ParentGroups, Dependants, OtherAdults;
      var pair := ParentGroups(Dependants(members, people, a, b), a, b, custody);
      var parents := [FormedNotice(pair.0, tick), FormedNotice(pair.1, tick)];
      NotedAlso(before, EndNotices(h, gone), parents, tick);
      NotedAlso(before, EndNotices(h, gone) + parents, SingleNotices(order, tick), tick);
    }

    function TieNotice(ties: set<set<string>>, a: string, b: string): seq<Notice> {
      if {a, b} in ties then [TieEnded({a, b})] else []
    }

    /** Ends a couple's tie, if they had one. */
    method EndTie(a: string, b: string, tick: int)
      requires log.Valid()
      modifies this`partners, log
      ensures partners == old(partners) - {{a, b}}
      ensures log.Valid() && log.Underneath() == old(log.Underneath())
      ensures log.Now() == Noted(old(log.Now()), TieNotice(old(partners), a, b), tick)
    {
      assert Noted(log.Now(), [], tick) == log.Now();
      if {a, b} in partners {
        partners := partners - {{a, b}};
        Note(TieEnded({a, b}), tick);
      }
    }

    /** Places the two partners, the children with one of them. */
    method PlaceParents(h: string, first: set<string>, second: set<string>, tick: int, ghost rows0: Rows,
                        ghost people0: People)
      returns (r: Result<(), FormError>)
      requires Consistent(rows, people) && Parting(rows0, people0, rows, people, h, {}, tick, Here())
      requires log.Valid() && IdsDiffer(idOf) && h in rows0 && first + second <= rows0[h].members
      requires first !! second && first != {} && second != {}
      modifies this`rows, this`people, this`locations, log
      ensures people.Keys == old(people).Keys && OnlyMoved(old(locations), locations, rows0[h].members)
      ensures forall a :: a in people && a !in rows0[h].members ==> people[a] == people0[a]
      ensures log.Valid() && log.Underneath() == old(log.Underneath())
      ensures r.Success? ==>
        Consistent(rows, people) && Parting(rows0, people0, rows, people, h, {first, second}, tick, Here())
      ensures r.Success? ==> AllLocated(locations, people, {first, second})
      ensures r.Success? ==>
        log.Now() == Noted(old(log.Now()), [FormedNotice(first, tick), FormedNotice(second, tick)], tick)
      ensures r.Success? <==>
        Placeable(affordable, placeKnown, people0, first) && Placeable(affordable, placeKnown, people0, second)
    {
      hide Consistent, Parting, IdsDiffer, Placeable, Noted, AllLocated, Chain, BatchChains, Extends;
      PartingFrame(rows0, people0, rows, people, h, {}, tick, Here());
      NoneLocated(locations, people);
      r := Place(h, first, tick, rows0, people0, {});
      if r.Failure? { return; }
      assert {} + {first} == {first};
      PartingFrame(rows0, people0, rows, people, h, {first}, tick, Here());
      r := Place(h, second, tick, rows0, people0, {first});
      if r.Failure? { return; }
      assert {first} + {second} == {first, second};
      PartingFrame(rows0, people0, rows, people, h, {first, second}, tick, Here());
      NotedAlso(old(log.Now()), [FormedNotice(first, tick)], [FormedNotice(second, tick)], tick);
      assert [FormedNotice(first, tick)] + [FormedNotice(second, tick)]
          == [FormedNotice(first, tick), FormedNotice(second, tick)];
    }

    /** Places every remaining adult alone. */
    method PlaceOthers(h: string, others: set<string>, tick: int, ghost rows0: Rows, ghost people0: People,
                       ghost groups: set<set<string>>)
      returns (r: Result<(), FormError>, ghost order: seq<string>)
      requires Consistent(rows, people) && Parting(rows0, people0, rows, people, h, groups, tick, Here())
      requires IdsDiffer(idOf) && log.Valid() && AllLocated(locations, people, groups)
      requires h in rows0 && others <= rows0[h].members && forall g :: g in groups ==> g !! others
      modifies this`rows, this`people, this`locations, log
      ensures people.Keys == old(people).Keys && OnlyMoved(old(locations), locations, rows0[h].members)
      ensures forall a :: a in people && a !in rows0[h].members ==> people[a] == people0[a]
      ensures log.Valid() && log.Underneath() == old(log.Underneath())
      ensures r.Success? ==>
        Consistent(rows, people) && Parting(rows0, people0, rows, people, h, groups + Singles(others), tick, Here())
      ensures r.Success? ==> AllLocated(locations, people, groups + Singles(others))
      ensures r.Success? ==>
        InNameOrder(order, others) && log.Now() == Noted(old(log.Now()), SingleNotices(order, tick), tick)
      ensures r.Success? <==> forall g :: g in Singles(others) ==> Placeable(affordable, placeKnown, people0, g)
    {
      hide Consistent, Parting, Placeable, AllLocated, Chain, BatchChains, Extends, Listed, InNameOrder, ComesFirst,
           Staged;
      ghost var places0, placed := locations, {};
      PartingFrame(rows0, people0, rows, people, h, groups, tick, Here());
      assert groups + Singles(placed) == groups;
      var rest := others;
      order := [];
      NoneListed(others);
      assert SingleNotices([], tick) == [] && Noted(log.Now(), [], tick) == log.Now();
      hide Noted, SingleNotices;
      while rest != {}
        invariant rest <= others && placed == others - rest && Listed(order, placed, rest)
        invariant Consistent(rows, people)
        invariant Parting(rows0, people0, rows, people, h, groups + Singles(placed), tick, Here())
        invariant AllLocated(locations, people, groups + Singles(placed))
        invariant OnlyMoved(places0, locations, rows0[h].members)
        invariant log.Valid() && log.Underneath() == old(log.Underneath())
        invariant log.Now() == Noted(old(log.Now()), SingleNotices(order, tick), tick)
        invariant forall g :: g in Singles(placed) ==> Placeable(affordable, placeKnown, people0, g)
      {
        var a := FirstOf(rest);
        FirstIsIn(rest, a);
        PartingFrame(rows0, people0, rows, people, h, groups + Singles(placed), tick, Here());
        assert {a} in Singles(others);
        r := Place(h, {a}, tick, rows0, people0, groups + Singles(placed));
        if r.Failure? { return; }
        assert groups + Singles(placed + {a}) == groups + Singles(placed) + {{a}};
        OneSingleMore(old(log.Now()), order, a, tick);
        NextListed(order, others, rest, a);
        placed, order := placed + {a}, order + [a];
        rest := rest - {a};
      }
      PartingFrame(rows0, people0, rows, people, h, groups + Singles(placed), tick, Here());
      AllListed(order, others);
      assert placed == others;
      return Success(()), order;
    }

    lemma {:induction false} OneSingleMore(batch: Batch, order: seq<string>, a: string, tick: int)
      ensures Noted(batch, SingleNotices(order + [a], tick), tick)
           == Noted(Noted(batch, SingleNotices(order, tick), tick), [FormedNotice({a}, tick)], tick)
    {
      hide Noted;
      NotedAlso(batch, SingleNotices(order, tick), [FormedNotice({a}, tick)], tick);
      assert SingleNotices(order + [a], tick) == SingleNotices(order, tick) + [FormedNotice({a}, tick)];
    }

    /** Puts back the snapshot taken before a parting that stopped half way. */
    method Restore(savedRows: Rows, savedPeople: People, savedPlaces: map<string, string>, members: set<string>,
                   ghost rows0: Rows, ghost people0: People, ghost places0: map<string, string>)
      requires Consistent(rows0, people0) && savedRows == rows0 && people.Keys == people0.Keys
      requires OnlyMoved(places0, locations, members)
      requires members <= people0.Keys && savedPeople.Keys == members
      requires forall a :: a in members ==> savedPeople[a] == people0[a]
      requires forall a :: a in people && a !in members ==> people[a] == people0[a]
      requires savedPlaces.Keys == places0.Keys * members
      requires forall a :: a in savedPlaces ==> savedPlaces[a] == places0[a]
      modifies this`rows, this`people, this`locations
      ensures rows == rows0 && people == people0 && locations == places0
    {
      hide Consistent, SavedSound;
      people := RestoredPeople(people, savedPeople);
      PeopleBack(people0, people);
      Load(savedRows);
      PlacesBack(places0, locations, savedPlaces, members);
      locations := RestoredPlaces(locations, savedPlaces, members);
      RestoredExactly(rows0, people0, rows, people);
    }

    /** Ends a union: joint gains evened out and everyone placed anew, or ledger, graph, registers, places and log
        exactly as they were. It fails exactly when the transfer cannot be made or some new household has a dead member
        or no home to go to. */
    method DissolveUnion(initiator: string, target: string, custody: string, tick: int)
      returns (r: Result<bool, FormError>)
      requires Consistent(rows, people) && initiator != target && target in people && custody in {initiator, target}
      requires IdsDiffer(idOf) && forall h :: LivesIn(people, initiator, h) ==> IdsFree(idOf, rows, people, h, tick)
      requires ledger.Valid() && log.Valid()
      modifies this, ledger, log
      ensures Consistent(rows, people) && ledger.Valid() && log.Valid()
      ensures r == Success(false) <==> !Together(old(rows), old(people), initiator, target)
      ensures r == Success(false) ==> unchanged(this) && unchanged(ledger) && unchanged(log)
      ensures r.Failure? ==>
        && rows == old(rows) && people == old(people) && locations == old(locations) && partners == old(partners)
        && ledger.Dump() == old(ledger.Dump()) && log.Now() == old(log.Now())
      ensures forall h :: LivesIn(old(people), initiator, h) && LivesIn(old(people), target, h) ==>
        var row, accounts := old(rows)[h], old(ledger.accounts);
        var groups, owed := Groups(row.members, old(people), initiator, target, custody), OwedBy(accounts, row,
                                   initiator, target);
        && (r.Success? <==>
              SplitWorks(accounts, initiator, target, owed) && forall g :: g in groups ==>
                  Placeable(affordable, placeKnown, old(people), g))
        && (r.Success? ==>
            SplitMade(accounts, ledger.accounts, initiator, target, owed)
                && partners == old(partners) - {{initiator, target}})
        && (r.Success? ==>
              && Parting(old(rows), old(people), rows, people, h, groups, tick, Here())
              && AllLocated(locations, people, groups) && OnlyMoved(old(locations), locations, row.members)
              && Scattered(Noted(old(log.Now()), [UnionDissolved(initiator, target)]
                                 + TieNotice(old(partners), initiator, target), tick),
                           log.Now(), h, row.members, old(people), initiator, target, custody, tick))
    {
      hide Consistent, Parting, Placeable, Groups, IdsFree, IdsDiffer, SavedSound, OwedBy, SplitWorks, SplitMade,
           SoundAccounts, SoundEntries, SoundDelivery, Chain, BatchChains, Extends, HeadAfter;
      hide OnlyMoved, Measure, Housed, Known, Postable, AllLocated, Noted, Scattered;
      var household := Of(initiator);
      if household == None || people[target].household != household {
        NotTogether(rows, people, initiator, target);
        return Success(false);
      }
      var point := log.Save();
      var savedRows, savedTies, savedLedger := rows, partners, ledger.Dump();
      var members := rows[household.value].members;
      MembersKnown(rows, people, household.value);
      var savedPeople := map a | a in members :: people[a];
      var savedPlaces := map a | a in members && a in locations :: locations[a];
      ghost var rows0, people0, places0, points0 := rows, people, locations, log.points;
      var parted := Part(household.value, initiator, target, custody, tick);
      if parted.Failure? {
        ledger.Load(savedLedger);
        partners := savedTies;
        Restore(savedRows, savedPeople, savedPlaces, members, rows0, people0, places0);
        assert TakenFrom(point, points0[|points0| - 1], log.token);
        var back := log.RollbackTo(point);
        return Failure(parted.error);
      }
      var yes := true;
      return Success(yes);
    }
  }

  /** How two households come by one identifier: a founder forms a household, another agent joins it, the founder leaves
      and, at the same tick and for the same reason, forms one again. The agent left behind lives in a household that no
      longer lists it. */
  method FoundedTwice(registry: Registry, founder: string, guest: string, tick: int, reason: string)
    requires Consistent(registry.rows, registry.people) && registry.log.Valid() && founder != guest
    requires founder in registry.people && registry.people[founder].alive && guest in registry.people
    requires Housed(registry.affordable, registry.placeKnown, registry.people, {founder})
    requires forall a :: !LivesIn(registry.people, a, registry.idOf(tick, reason, {founder}))
    modifies registry, registry.log
    ensures !Consistent(registry.rows, registry.people)
    ensures LivesIn(registry.people, guest, registry.idOf(tick, reason, {founder}))
    ensures !Lists(registry.rows, registry.idOf(tick, reason, {founder}), guest)
  {
    hide Consistent, Pruned, Measure, Chain, BatchChains, Extends, Formed, Located, HomeIs, Housed;
    ghost var people0 := registry.people;
    FoundAndLeave(registry, founder, guest, tick, reason);
    FounderHome(registry.affordable, registry.placeKnown, people0, registry.people, founder);
    ghost var rows1, people1, id := registry.rows, registry.people, registry.idOf(tick, reason, {founder});
    var second := registry.Form({founder}, tick, reason);
    ghost var home :| Formed(rows1, people1, registry.rows, registry.people, id, {founder}, home, tick);
    GuestStays(rows1, people1, registry.rows, registry.people, id, founder, guest, home, tick);
  }

  lemma {:induction false} GuestStays(rows: Rows, people: People, rows': Rows, people': People, id: string,
                                      founder: string, guest: string,
                                      home: string, tick: int)
    requires Formed(rows, people, rows', people', id, {founder}, home, tick) && LivesIn(people, guest, id)
    requires guest != founder
    ensures LivesIn(people', guest, id) && !Lists(rows', id, guest) && !Consistent(rows', people')
  {
  }

  /** A founder forms a household, a guest joins it, and the founder leaves. */
  method FoundAndLeave(registry: Registry, founder: string, guest: string, tick: int, reason: string)
    requires Consistent(registry.rows, registry.people) && registry.log.Valid() && founder != guest
    requires founder in registry.people && registry.people[founder].alive && guest in registry.people
    requires Housed(registry.affordable, registry.placeKnown, registry.people, {founder})
    requires forall a :: !LivesIn(registry.people, a, registry.idOf(tick, reason, {founder}))
    modifies registry, registry.log
    ensures Consistent(registry.rows, registry.people) && registry.log.Valid()
    ensures founder in registry.people && registry.people[founder].alive
    ensures HomeIs(registry.affordable, old(registry.people), {founder}, registry.people[founder].home)
    ensures LivesIn(registry.people, guest, registry.idOf(tick, reason, {founder}))
  {
    hide Consistent, Pruned, Measure, Chain, BatchChains, Extends, Formed, Located, HomeIs, Housed;
    ghost var rows0, people0 := registry.rows, registry.people;
    var id := registry.idOf(tick, reason, {founder});
    var first := registry.Form({founder}, tick, reason);
    ghost var home :| HomeIs(registry.affordable, people0, {founder}, home)
                      && Formed(rows0, people0, registry.rows, registry.people, id, {founder}, home, tick);
    FounderIn(rows0, people0, registry.rows, registry.people, id, founder, home, tick);
    var joined := registry.Join(guest, id, tick);
    var left := registry.Leave(founder, tick);
  }

  lemma {:induction false} FounderIn(rows: Rows, people: People, rows': Rows, people': People, id: string,
                                     founder: string, home: string, tick: int)
    requires Formed(rows, people, rows', people', id, {founder}, home, tick) && founder in people
    ensures people'.Keys == people.Keys && people'[founder] == people[founder].(household := Some(id), home := home)
    ensures LiveRow(rows', id) && LivesIn(people', founder, id)
  {
  }

  lemma {:induction false} FounderHome(affordable: set<string> -> Option<string>, placeKnown: string -> bool,
                                       people: People, people': People, a: string)
    requires a in people && a in people' && Housed(affordable, placeKnown, people, {a})
    requires HomeIs(affordable, people, {a}, people'[a].home)
    ensures Housed(affordable, placeKnown, people', {a})
  {
    var home :| HomeIs(affordable, people, {a}, home) && placeKnown(home);
    OneHome(affordable, people, {a}, home, people'[a].home);
    assert ComesFirst({a}, a);
    assert HomeIs(affordable, people', {a}, home);
  }

  lemma {:induction false} LeftConsistent(rows: Rows, people: People, rows': Rows, people': People, h: string,
                                          a: string)
    requires Consistent(rows, people) && Lists(rows, h, a) && a in people
    requires rows'.Keys == rows.Keys && Pruned(rows[h], rows'[h], {a})
    requires forall k :: k in rows && k != h ==> rows'[k] == rows[k]
    requires people' == people[a := people[a].(household := None)]
    ensures Consistent(rows', people')
    ensures forall k :: k in rows ==> if Lists(rows, k, a) then k == h else rows'[k] == rows[k]
  {
    forall b, k ensures LivesIn(people', b, k) <==> Lists(rows', k, b) {
      assert LivesIn(people, b, k) <==> Lists(rows, k, b);
      assert LivesIn(people, a, h);
    }
    forall k | k in rows ensures if Lists(rows, k, a) then k == h else rows'[k] == rows[k] {
      if Lists(rows, k, a) {
        OneHousehold(rows, people, a, h, k);
      }
    }
  }

  ghost predicate Located(before: map<string, string>, after: map<string, string>, members: set<string>, home: string) {
    && (forall a :: a in members ==> a in after && after[a] == home)
    && (forall a :: a !in members ==> (a in after <==> a in before) && (a in before ==> after[a] == before[a]))
  }

  lemma {:induction false} NobodyLocated(locations: map<string, string>, home: string)
    ensures Located(locations, locations, {}, home)
  {
  }

  lemma {:induction false} MoreAtHome(before: map<string, string>, now: map<string, string>, members: set<string>,
                                      home: string, a: string)
    requires Located(before, now, members, home)
    ensures Located(before, now[a := home], members + {a}, home)
  {
  }

  ghost predicate OnlyMoved(before: map<string, string>, after: map<string, string>, members: set<string>) {
    forall a :: a !in members ==> (a in after <==> a in before) && (a in before ==> after[a] == before[a])
  }

  /** The registers while the agents in done have moved in under an identifier and the others have not. */
  ghost predicate Forming(rows0: Rows, people0: People, rows: Rows, people: People, id: string, done: set<string>,
                          home: string) {
    && rows.Keys == rows0.Keys + {id}
    && (forall h :: h in rows0 && h != id ==>
        if rows0[h].Live() then Pruned(rows0[h], rows[h], done) else rows[h] == rows0[h])
    && people.Keys == people0.Keys && done <= people0.Keys
    && (forall a :: a in people0 ==>
          people[a] == if a in done then people0[a].(household := Some(id), home := home) else people0[a])
  }

  lemma {:induction false} FormingStarts(rows0: Rows, people0: People, rows: Rows, id: string, home: string)
    requires id in rows && rows == rows0[id := rows[id]]
    ensures Forming(rows0, people0, rows, people0, id, {}, home)
  {
  }

  /** Where an agent still to move in lives now is where it lived at the start. */
  lemma {:induction false} PriorHome(rows0: Rows, people0: People, rows: Rows, people: People, id: string,
                                     done: set<string>, home: string, a: string)
    requires Consistent(rows0, people0) && Forming(rows0, people0, rows, people, id, done, home) && a in people
    requires a !in done
    ensures forall h :: h != id && LivesIn(people, a, h) ==> LiveRow(rows, h) && a in rows[h].members
    ensures forall h :: h != id && h in rows0 && Lists(rows0, h, a) ==> LivesIn(people, a, h)
  {
    forall h | h != id && LivesIn(people, a, h) ensures LiveRow(rows, h) && a in rows[h].members {
      assert LivesIn(people0, a, h) && Lists(rows0, h, a);
    }
    forall h | h != id && h in rows0 && Lists(rows0, h, a) ensures LivesIn(people, a, h) {
      assert LivesIn(people0, a, h);
    }
  }

  lemma {:induction false} SameNotice(rows0: Rows, people0: People, rows: Rows, people: People, id: string,
                                      done: set<string>, home: string, a: string)
    requires Forming(rows0, people0, rows, people, id, done, home) && a in people && a !in done
    ensures LeftNotice(rows, people, a, id) == LeftNotice(rows0, people0, a, id)
  {
    hide ComesFirst;
  }

  lemma {:induction false} MovedIn(rows0: Rows, people0: People, rows: Rows, people: People, rows': Rows,
                                   people': People, id: string,
                                   done: set<string>, home: string, a: string)
    requires Consistent(rows0, people0) && Forming(rows0, people0, rows, people, id, done, home) && a in people
    requires a !in done
    requires rows'.Keys == rows.Keys
    requires forall h ::
      h in rows ==> if h != id && LivesIn(people, a, h) then Pruned(rows[h], rows'[h], {a}) else rows'[h] == rows[h]
    requires people'.Keys == people.Keys
    requires forall b ::
      b in people ==> people'[b] == if b == a then people[a].(household := Some(id), home := home) else people[b]
    ensures Forming(rows0, people0, rows', people', id, done + {a}, home)
  {
    PriorHome(rows0, people0, rows, people, id, done, home, a);
    forall h | h in rows0 && h != id && rows0[h].Live() ensures Pruned(rows0[h], rows'[h], done + {a}) {
      hide Pruned;
      if LivesIn(people, a, h) {
        assert LivesIn(people0, a, h) && Lists(rows0, h, a);
        PruneMore(rows0[h], rows[h], rows'[h], done, a);
      } else {
        assert !Lists(rows0, h, a);
        PruneStranger(rows0[h], rows[h], done, a);
      }
    }
  }

  lemma {:induction false} FormingEnds(rows0: Rows, people0: People, rows: Rows, people: People, id: string,
                                       members: set<string>, home: string, tick: int)
    requires Forming(rows0, people0, rows, people, id, members, home)
    requires LiveRow(rows, id) && rows[id].members == members && rows[id].home == home && HeadListed(rows[id])
    ensures Formed(rows0, people0, rows, people, id, members, home, tick)
  {
  }

  lemma {:induction false} HeadStays(rows: Rows, people: People, h: string, row: Household, a: string)
    requires Consistent(rows, people) && LiveRow(rows, h) && row.members == rows[h].members + {a}
    requires row.head == if rows[h].head.Some? then rows[h].head else if rows[h].shelter then None else Some(a)
    ensures HeadListed(row)
  {
    assert HeadListed(rows[h]);
  }

  lemma {:induction false} JoinedConsistent(rows: Rows, people: People, rows': Rows, people': People, a: string,
                                            h: string)
    requires Consistent(rows, people) && a in people && LiveRow(rows, h) && LiveRow(rows', h)
    requires rows'.Keys == rows.Keys && HeadListed(rows'[h]) && rows'[h].members == rows[h].members + {a}
    requires forall k ::
      k in rows && k != h ==> if Lists(rows, k, a) then Pruned(rows[k], rows'[k], {a}) else rows'[k] == rows[k]
    requires people'.Keys == people.Keys && people'[a].household == Some(h)
    requires forall b :: b in people && b != a ==> people'[b] == people[b]
    ensures Consistent(rows', people')
  {
    forall b, k ensures LivesIn(people', b, k) <==> Lists(rows', k, b) {
      assert LivesIn(people, b, k) <==> Lists(rows, k, b);
    }
  }

  lemma {:induction false} MembersLive(rows: Rows, people: People, h: string)
    requires Consistent(rows, people)
    ensures forall a :: LivesIn(people, a, h) <==> Lists(rows, h, a)
  {
  }

  lemma {:induction false} EndedConsistent(rows: Rows, people: People, rows': Rows, people': People, h: string,
                                           tick: int)
    requires Consistent(rows, people) && LiveRow(rows, h) && rows' == rows[h := Ended(rows[h], tick)]
    requires people'.Keys == people.Keys
    requires forall a :: a in people ==>
      people'[a] == if Lists(rows, h, a) then people[a].(household := None) else people[a]
    ensures Consistent(rows', people')
  {
    forall a, k ensures LivesIn(people', a, k) <==> Lists(rows', k, a) {
      assert LivesIn(people, a, k) <==> Lists(rows, k, a);
      assert Lists(rows, h, a) ==> LivesIn(people, a, h);
    }
  }

  // ---- Loading ----

  /** Saved rows from which a consistent registry can be rebuilt: known members, at most one live row each, and heads
      among them. */
  ghost predicate SavedSound(saved: Rows, known: set<string>) {
    && (forall h, a :: Lists(saved, h, a) ==> a in known)
    && (forall h, k, a :: Lists(saved, h, a) && Lists(saved, k, a) ==> h == k)
    && (forall h :: h in saved ==> HeadListed(saved[h]))
  }

  lemma {:induction false} LoadedRow(saved: Rows, before: People, after: People, rest: set<string>, h: string)
    requires SavedSound(saved, before.Keys) && h in rest && h in saved && after.Keys == before.Keys
    requires forall a, k :: LivesIn(before, a, k) <==> Lists(saved, k, a) && k !in rest
    requires forall a ::
      a in before ==> after[a] == if Lists(saved, h, a) then before[a].(household := Some(h)) else before[a]
    ensures forall a, k :: LivesIn(after, a, k) <==> Lists(saved, k, a) && k !in rest - {h}
  {
    forall a, k ensures LivesIn(after, a, k) <==> Lists(saved, k, a) && k !in rest - {h} {
      assert LivesIn(before, a, k) <==> Lists(saved, k, a) && k !in rest;
      if a in before && Lists(saved, h, a) && Lists(saved, k, a) {
        assert k == h;
      }
    }
  }

  /** Consistent registers are what loading their own rows gives back. */
  lemma {:induction false} RestoredExactly(rows0: Rows, people0: People, rows: Rows, people: People)
    requires Consistent(rows0, people0) && rows == rows0 && people.Keys == people0.Keys
    requires SavedSound(rows0, people0.Keys) ==> Consistent(rows, people)
    requires forall a :: a in people ==> people[a] == people0[a].(household := people[a].household)
    ensures people == people0 && Consistent(rows, people)
  {
    assert SavedSound(rows0, people0.Keys) by {
      forall h, a | Lists(rows0, h, a) ensures a in people0 {
        assert LivesIn(people0, a, h);
      }
      forall h, k, a | Lists(rows0, h, a) && Lists(rows0, k, a) ensures h == k {
        OneHousehold(rows0, people0, a, h, k);
      }
    }
    forall a | a in people ensures people[a].household == people0[a].household {
      if people[a].household.Some? {
        assert LivesIn(people, a, people[a].household.value);
      }
      if people0[a].household.Some? {
        assert LivesIn(people0, a, people0[a].household.value);
      }
    }
  }

  // ---- Parting ----

  predicate Together(rows: Rows, people: People, a: string, b: string) {
    && a in people && people[a].household.Some? && LiveRow(rows, people[a].household.value)
    && b in people && people[b].household == people[a].household
  }

  lemma {:induction false} NotTogether(rows: Rows, people: People, a: string, b: string)
    requires Consistent(rows, people) && !Together(rows, people, a, b) && b in people
    ensures forall h :: !(LivesIn(people, a, h) && LivesIn(people, b, h))
  {
    forall h ensures !(LivesIn(people, a, h) && LivesIn(people, b, h)) {
      assert LivesIn(people, a, h) <==> Lists(rows, h, a);
    }
  }

  lemma {:induction false} MembersKnown(rows: Rows, people: People, h: string)
    requires Consistent(rows, people) && LiveRow(rows, h)
    ensures forall a :: a in rows[h].members ==> LivesIn(people, a, h)
    ensures forall a :: LivesIn(people, a, h) ==> Lists(rows, h, a)
  {
    forall a | a in rows[h].members ensures LivesIn(people, a, h) {
      assert Lists(rows, h, a);
    }
  }

  function Dependants(members: set<string>, people: People, a: string, b: string): set<string> {
    set m | m in members && m != a && m != b && m in people && !people[m].adult
  }

  function OtherAdults(members: set<string>, people: People, a: string, b: string): set<string> {
    set m | m in members && m != a && m != b && m in people && people[m].adult && people[m].alive
  }

  function Singles(names: set<string>): set<set<string>> {
    set a | a in names :: {a}
  }

  /** The two partners' new households, in the order of their names. */
  function ParentGroups(dependants: set<string>, a: string, b: string, custody: string): (set<string>, set<string>) {
    var ofA, ofB := if custody == a then dependants + {a} else {a}, if custody == a then {b} else dependants + {b};
    if LexLess(a, b) then (ofA, ofB) else (ofB, ofA)
  }

  /** The new households: each partner's, the children with the one who has custody, and every other living adult's. */
  function Groups(members: set<string>, people: People, a: string, b: string, custody: string): set<set<string>> {
    {Dependants(members, people, a, b) + {custody}, {if custody == a then b else a}}
        + Singles(OtherAdults(members, people, a, b))
  }

  /** The three kinds of member: they are all of the household's and none of them twice. */
  lemma {:induction false} PartsOf(members: set<string>, people: People, a: string, b: string, custody: string)
    requires a != b && custody in {a, b} && {a, b} <= members <= people.Keys
    ensures var family, single, others := Dependants(members, people, a, b) + {custody},
        {if custody == a then b else a}, OtherAdults(members, people, a, b);
      && family + single <= members && others <= members && family !! single && family !! others && single !! others
  {
  }

  /** A household the members can form: they are alive and have a home. */
  ghost predicate Placeable(affordable: set<string> -> Option<string>, placeKnown: string -> bool, people: People,
                            group: set<string>) {
    && group != {} && (forall a :: a in group ==> a in people && people[a].alive)
    && Housed(affordable, placeKnown, people, group)
  }

  lemma {:induction false} GroupsAll(affordable: set<string> -> Option<string>, placeKnown: string -> bool,
                                     members: set<string>, people: People,
                                     a: string, b: string, custody: string)
    ensures var family, single, others := Dependants(members, people, a, b) + {custody},
        {if custody == a then b else a}, OtherAdults(members, people, a, b);
      && Groups(members, people, a, b, custody) == {family, single} + Singles(others)
      && ((forall g :: g in Groups(members, people, a, b, custody) ==>
           Placeable(affordable, placeKnown, people, g)) <==>
            && Placeable(affordable, placeKnown, people, family) && Placeable(affordable, placeKnown, people, single)
            && forall g :: g in Singles(others) ==> Placeable(affordable, placeKnown, people, g))
  {
    hide Placeable, Dependants, OtherAdults, Singles;
  }

  // ---- Evening out ----

  lemma {:induction false} ShareOf(total: nat, claims: seq<Claim>, shares: map<string, int>, a: string, b: string)
    requires a != b && claims == [(a, 1), (b, 1)] && Splittable(total, claims) && IsSplit(total, claims, shares)
    ensures a in shares && shares[a] == HalfOf(total, a, b)
  {
    HalvesAreShares(total, a, b);
    assert claims[0] == (a, 1);
  }

  lemma {:induction false} NothingOwed(accounts: Accounts, a: string, b: string)
    ensures SplitWorks(accounts, a, b, 0) && SplitMade(accounts, accounts, a, b, 0)
  {
  }

  lemma {:induction false} SplitPosted(before: Accounts, after: Accounts, a: string, b: string, owed: int,
                                       legs: seq<Leg>)
    requires owed != 0 && Known(before, legs) && after == Posted(before, legs)
    requires if 0 < owed then MadeFrom(before, a, b, owed, legs) else MadeFrom(before, b, a, -owed, legs)
    ensures SplitMade(before, after, a, b, owed)
  {
    hide FirstAccount, Known;
  }

  ghost predicate IdsDiffer(idOf: (int, string, set<string>) -> string) {
    forall tick, reason, g, k :: idOf(tick, reason, g) == idOf(tick, reason, k) ==> g == k
  }

  /** Nobody outside the parting household lives under an identifier the parting may mint, except as one it is minted
      for. */
  ghost predicate IdsFree(idOf: (int, string, set<string>) -> string, rows: Rows, people: People, h: string,
                          tick: int) {
    forall g, b :: LivesIn(people, b, idOf(tick, "dissolution", g)) ==> b in g || LivesIn(people, b, h)
  }

  /** What forming households depends on. */
  datatype World = World(idOf: (int, string, set<string>) -> string, affordable: set<string> -> Option<string>,
                         isShelter: string -> bool, accounts: Accounts)

  function Ended(row: Household, tick: int): Household {
    row.(dissolvedTick := Some(tick), members := {}, head := None)
  }

  /** Some groups of a dissolved household placed, each in a live household of exactly its members; the others of it
      nowhere yet; nobody else's home touched. */
  ghost predicate Parting(rows0: Rows, people0: People, rows: Rows, people: People, h: string, groups: set<set<string>>,
                          tick: int, w: World)
  {
    && h in rows0 && people.Keys == people0.Keys
    && PartingRows(rows0, people0, rows, people, h, groups, tick, w)
    && PartingPeople(rows0, people0, people, h, groups, tick, w)
  }

  ghost predicate PartingRows(rows0: Rows, people0: People, rows: Rows, people: People, h: string,
                              groups: set<set<string>>, tick: int, w: World)
    requires h in rows0
  {
    && (forall g :: g in groups ==>
          && g <= rows0[h].members
          && PlacedIn(rows, people, people0, w, w.idOf(tick, "dissolution", g), g, tick))
    && ((forall g :: g in groups ==> h != w.idOf(tick, "dissolution", g)) ==>
          h in rows && rows[h] == Ended(rows0[h], tick))
    && (forall k :: k in rows0 && k != h && (forall g :: g in groups ==> k != w.idOf(tick, "dissolution", g)) ==>
          k in rows && rows[k] == rows0[k])
  }

  ghost predicate PartingPeople(rows0: Rows, people0: People, people: People, h: string, groups: set<set<string>>,
                                tick: int, w: World)
    requires h in rows0 && people.Keys == people0.Keys
  {
    && (forall a :: a in people && a !in rows0[h].members ==> people[a] == people0[a])
    && (forall a :: a in people && a in rows0[h].members && (forall g :: g in groups ==> a !in g) ==>
          people[a] == people0[a].(household := None))
    && (forall a :: a in people && a in rows0[h].members ==>
          people[a].alive == people0[a].alive && people[a].adult == people0[a].adult)
    && (forall g, b :: LivesIn(people, b, w.idOf(tick, "dissolution", g)) ==> b in g)
  }

  /** A group lives in a household of its own: formed at this tick where it could afford to or where its first member
      lived, headed by one of them, everyone starting with what it has. */
  ghost predicate PlacedIn(rows: Rows, people: People, people0: People, w: World, id: string, group: set<string>,
                           tick: int) {
    && LiveRow(rows, id) && rows[id].head.Some? && rows[id].head.value in group
    && rows[id] == Household(tick, None, rows[id].home, group, rows[id].head, w.isShelter(rows[id].home),
                             Liquids(w.accounts, group))
    && HomeIs(w.affordable, people0, group, rows[id].home)
    && forall a :: a in group ==>
         a in people && a in people0 && people[a] == people0[a].(household := Some(id), home := rows[id].home)
  }

  lemma {:induction false} PartingFrame(rows0: Rows, people0: People, rows: Rows, people: People, h: string,
                                        groups: set<set<string>>, tick: int,
                                        w: World)
    requires Parting(rows0, people0, rows, people, h, groups, tick, w)
    ensures people.Keys == people0.Keys && forall a :: a in people && a !in rows0[h].members ==> people[a] == people0[a]
  {
  }

  lemma {:induction false} SameLives(rows0: Rows, people0: People, rows: Rows, people: People, h: string,
                                     groups: set<set<string>>, tick: int,
                                     w: World, group: set<string>)
    requires Parting(rows0, people0, rows, people, h, groups, tick, w) && group <= rows0[h].members
    requires forall g :: g in groups ==> g !! group
    ensures forall a ::
      a in group ==> (a in people <==> a in people0) && (a in people ==> people[a] == people0[a].(household := None))
  {
    forall a | a in group && a in people ensures people[a] == people0[a].(household := None) {
      assert forall g :: g in groups ==> a !in g;
    }
  }

  lemma {:induction false} NobodyElse(rows0: Rows, people0: People, rows: Rows, people: People, h: string,
                                      groups: set<set<string>>, tick: int,
                                      w: World, group: set<string>)
    requires Parting(rows0, people0, rows, people, h, groups, tick, w)
    ensures forall a :: LivesIn(people, a, w.idOf(tick, "dissolution", group)) ==> a in group
  {
  }

  lemma {:induction false} PartingStarts(rows0: Rows, people0: People, rows: Rows, people: People, h: string, tick: int,
                                         w: World)
    requires LiveRow(rows0, h) && IdsFree(w.idOf, rows0, people0, h, tick) && people.Keys == people0.Keys
    requires forall a :: a in rows0[h].members <==> LivesIn(people0, a, h)
    requires rows == rows0[h := Ended(rows0[h], tick)]
    requires forall a ::
      a in people ==> people[a] == if Lists(rows0, h, a) then people0[a].(household := None) else people0[a]
    ensures Parting(rows0, people0, rows, people, h, {}, tick, w)
  {
    forall g, b | LivesIn(people, b, w.idOf(tick, "dissolution", g)) ensures b in g {
      assert LivesIn(people0, b, w.idOf(tick, "dissolution", g));
    }
  }

  lemma {:induction false} PartStep(rows0: Rows, people0: People, rows: Rows, people: People, rows': Rows,
                                    people': People, h: string, groups: set<set<string>>, group: set<string>,
                                    home: string, tick: int, w: World)
    requires Consistent(rows, people) && Parting(rows0, people0, rows, people, h, groups, tick, w)
    requires IdsDiffer(w.idOf)
    requires h in rows0 && group <= rows0[h].members && group != {} && forall g :: g in groups ==> g !! group
    requires var id := w.idOf(tick, "dissolution", group);
      && Formed(rows, people, rows', people', id, group, home, tick)
      && HomeIs(w.affordable, people, group, home) && NewRow(rows'[id], group, home, tick, w)
    ensures Parting(rows0, people0, rows', people', h, groups + {group}, tick, w)
  {
    hide Consistent, IdsDiffer, PlacedIn, Pruned, HomeIs, NewRow, PartingRows, PartingPeople;
    RowsUntouched(rows0, people0, rows, people, rows', people', h, groups, group, home, tick, w);
    RowsStep(rows0, people0, rows, people, rows', people', h, groups, group, home, tick, w);
    PeopleStep(rows0, people0, rows, people, rows', people', h, groups, group, home, tick, w);
  }

  lemma {:induction false} RowsStep(rows0: Rows, people0: People, rows: Rows, people: People, rows': Rows,
                                    people': People, h: string, groups: set<set<string>>, group: set<string>,
                                    home: string, tick: int, w: World)
    requires Parting(rows0, people0, rows, people, h, groups, tick, w) && IdsDiffer(w.idOf)
    requires h in rows0 && group <= rows0[h].members && group != {} && forall g :: g in groups ==> g !! group
    requires var id := w.idOf(tick, "dissolution", group);
      && Formed(rows, people, rows', people', id, group, home, tick)
      && HomeIs(w.affordable, people, group, home) && NewRow(rows'[id], group, home, tick, w)
    requires forall k :: k in rows && k != w.idOf(tick, "dissolution", group) ==> k in rows' && rows'[k] == rows[k]
    ensures PartingRows(rows0, people0, rows', people', h, groups + {group}, tick, w)
  {
    hide IdsDiffer, PlacedIn, Pruned, HomeIs, NewRow, PartingPeople;
    var id := w.idOf(tick, "dissolution", group);
    forall g | g in groups
      ensures PlacedIn(rows', people', people0, w, w.idOf(tick, "dissolution", g), g, tick)
    {
      OtherId(w.idOf, tick, g, group);
      StillPlaced(rows, people, people0, rows', people', w, id, group, home, w.idOf(tick, "dissolution", g), g, tick);
    }
    SameLives(rows0, people0, rows, people, h, groups, tick, w, group);
    JustPlaced(people0, rows, people, rows', people', w, id, group, home, tick);
    StillElsewhere(rows0, rows, rows', h, groups, group, tick, w.idOf);
    StillEnded(rows0, rows, rows', h, groups, group, tick, w);
  }

  lemma {:induction false} PeopleStep(rows0: Rows, people0: People, rows: Rows, people: People, rows': Rows,
                                      people': People, h: string, groups: set<set<string>>, group: set<string>,
                                      home: string, tick: int, w: World)
    requires Parting(rows0, people0, rows, people, h, groups, tick, w) && IdsDiffer(w.idOf)
    requires h in rows0 && group <= rows0[h].members
    requires Formed(rows, people, rows', people', w.idOf(tick, "dissolution", group), group, home, tick)
    ensures people'.Keys == people0.Keys && PartingPeople(rows0, people0, people', h, groups + {group}, tick, w)
  {
    hide IdsDiffer, PlacedIn, Pruned, PartingRows;
    var id := w.idOf(tick, "dissolution", group);
    StillFree(people, people', id, group, home, tick, w.idOf);
    StillUnplaced(rows0, people0, people, people', h, groups, group, id, home);
  }

  lemma {:induction false} JustFormed(rows: Rows, people: People, rows': Rows, people': People, id: string,
                                      group: set<string>, home: string, tick: int, w: World)
    requires Formed(rows, people, rows', people', id, group, home, tick)
    requires rows'[id].head.Some? && rows'[id].head.value in group
    requires rows'[id] == Household(tick, None, rows'[id].home, group, rows'[id].head, w.isShelter(rows'[id].home),
                                    Liquids(w.accounts, group))
    ensures NewRow(rows'[id], group, home, tick, w)
  {
  }

  lemma {:induction false} NobodyToLeave(rows: Rows, people: People, order: seq<string>, group: set<string>, id: string)
    requires InNameOrder(order, group) && forall a :: a in group ==> a in people && people[a].household == None
    ensures forall notice: Notice :: LeftNotices(rows, people, order, id) + [notice] == [notice]
  {
    hide LexLess;
    NobodyLeaves(rows, people, order, id);
    forall notice: Notice ensures LeftNotices(rows, people, order, id) + [notice] == [notice] {
      assert [] + [notice] == [notice];
    }
  }

  /** Everyone placed is where their new household lives. */
  ghost predicate AllLocated(locations: map<string, string>, people: People, groups: set<set<string>>) {
    forall g, a :: g in groups && a in g ==> a in locations && a in people && locations[a] == people[a].home
  }

  lemma {:induction false} NoneLocated(locations: map<string, string>, people: People)
    ensures AllLocated(locations, people, {})
  {
  }

  lemma {:induction false} MoreLocated(before: map<string, string>, after: map<string, string>, people: People,
                                       people': People, groups: set<set<string>>, group: set<string>, rows: Rows,
                                       rows': Rows, id: string, home: string, tick: int)
    requires AllLocated(before, people, groups) && Located(before, after, group, home)
    requires forall g :: g in groups ==> g !! group
    requires Formed(rows, people, rows', people', id, group, home, tick)
    ensures AllLocated(after, people', groups + {group}) && OnlyMoved(before, after, group)
  {
    hide Pruned;
    forall g, a | g in groups + {group} && a in g
      ensures a in after && a in people' && after[a] == people'[a].home
    {
      if g != group {
        assert g in groups;
      }
    }
  }

  ghost predicate NewRow(row: Household, group: set<string>, home: string, tick: int, w: World) {
    && row.head.Some? && row.head.value in group
    && row == Household(tick, None, home, group, row.head, w.isShelter(home), Liquids(w.accounts, group))
  }

  lemma {:induction false} StillEnded(rows0: Rows, rows: Rows, rows': Rows, h: string, groups: set<set<string>>,
                                      group: set<string>, tick: int, w: World)
    requires h in rows0
    requires (forall g :: g in groups ==> h != w.idOf(tick, "dissolution", g)) ==>
      h in rows && rows[h] == Ended(rows0[h], tick)
    requires forall k :: k in rows && k != w.idOf(tick, "dissolution", group) ==> k in rows' && rows'[k] == rows[k]
    ensures (forall g :: g in groups + {group} ==> h != w.idOf(tick, "dissolution", g)) ==>
      h in rows' && rows'[h] == Ended(rows0[h], tick)
  {
    if forall g :: g in groups + {group} ==> h != w.idOf(tick, "dissolution", g) {
      assert group in groups + {group};
      forall g | g in groups ensures h != w.idOf(tick, "dissolution", g) {
        assert g in groups + {group};
      }
    }
  }

  lemma {:induction false} OtherId(idOf: (int, string, set<string>) -> string, tick: int, g: set<string>,
                                   group: set<string>)
    requires IdsDiffer(idOf) && g !! group && group != {}
    ensures idOf(tick, "dissolution", g) != idOf(tick, "dissolution", group)
  {
    assert g != group;
  }

  lemma {:induction false} StillPlaced(rows: Rows, people: People, people0: People, rows': Rows, people': People,
                                       w: World, id: string, group: set<string>, home: string, gid: string,
                                       g: set<string>, tick: int)
    requires PlacedIn(rows, people, people0, w, gid, g, tick) && gid != id && g !! group
    requires forall k :: k in rows && k != id ==> k in rows' && rows'[k] == rows[k]
    requires people'.Keys == people.Keys
    requires forall a ::
      a in people ==> people'[a] == if a in group then people[a].(household := Some(id), home := home) else people[a]
    ensures PlacedIn(rows', people', people0, w, gid, g, tick)
  {
    hide HomeIs;
  }

  lemma {:induction false} JustPlaced(people0: People, rows: Rows, people: People, rows': Rows, people': People,
                                      w: World, id: string, group: set<string>, home: string, tick: int)
    requires LiveRow(rows', id) && rows'[id].members == group && group <= people.Keys == people'.Keys == people0.Keys
    requires NewRow(rows'[id], group, home, tick, w) && HomeIs(w.affordable, people, group, home)
    requires forall a :: a in group ==> people[a] == people0[a].(household := None)
    requires forall a :: a in group ==> people'[a] == people[a].(household := Some(id), home := home)
    ensures PlacedIn(rows', people', people0, w, id, group, tick)
  {
    hide ComesFirst;
  }

  lemma {:induction false} StillFree(people: People, people': People, id: string, group: set<string>, home: string,
                                     tick: int,
                                     idOf: (int, string, set<string>) -> string)
    requires forall g, b :: LivesIn(people, b, idOf(tick, "dissolution", g)) ==> b in g
    requires IdsDiffer(idOf) && id == idOf(tick, "dissolution", group) && people'.Keys == people.Keys
    requires forall a ::
      a in people ==> people'[a] == if a in group then people[a].(household := Some(id), home := home) else people[a]
    ensures forall g, b :: LivesIn(people', b, idOf(tick, "dissolution", g)) ==> b in g
  {
    forall g, b | LivesIn(people', b, idOf(tick, "dissolution", g)) ensures b in g {
      if b in group {
        assert idOf(tick, "dissolution", g) == idOf(tick, "dissolution", group);
      } else {
        assert LivesIn(people, b, idOf(tick, "dissolution", g));
      }
    }
  }

  lemma {:induction false} StillElsewhere(rows0: Rows, rows: Rows, rows': Rows, h: string, groups: set<set<string>>,
                                          group: set<string>, tick: int,
                                          idOf: (int, string, set<string>) -> string)
    requires forall k ::
      k in rows0 && k != h && (forall g :: g in groups ==> k != idOf(tick, "dissolution", g)) ==>
        k in rows && rows[k] == rows0[k]
    requires forall k :: k in rows && k != idOf(tick, "dissolution", group) ==> k in rows' && rows'[k] == rows[k]
    ensures forall k ::
      k in rows0 && k != h && (forall g :: g in groups + {group} ==> k != idOf(tick, "dissolution", g)) ==>
      k in rows' && rows'[k] == rows0[k]
  {
    forall k | k in rows0 && k != h && (forall g :: g in groups + {group} ==> k != idOf(tick, "dissolution", g))
      ensures k in rows' && rows'[k] == rows0[k]
    {
      assert group in groups + {group};
      forall g | g in groups ensures k != idOf(tick, "dissolution", g) {
        assert g in groups + {group};
      }
    }
  }

  lemma {:induction false} StillUnplaced(rows0: Rows, people0: People, people: People, people': People, h: string,
                                         groups: set<set<string>>,
                                         group: set<string>, id: string, home: string)
    requires h in rows0 && people'.Keys == people.Keys == people0.Keys
    requires forall a ::
      a in people && a in rows0[h].members && (forall g :: g in groups ==> a !in g) ==>
        people[a] == people0[a].(household := None)
    requires forall a ::
      a in people ==> people'[a] == if a in group then people[a].(household := Some(id), home := home) else people[a]
    ensures forall a :: a in people' && a in rows0[h].members && (forall g :: g in groups + {group} ==> a !in g) ==>
      people'[a] == people0[a].(household := None)
  {
    forall a | a in people' && a in rows0[h].members && (forall g :: g in groups + {group} ==> a !in g)
      ensures people'[a] == people0[a].(household := None)
    {
      assert group in groups + {group};
      forall g | g in groups ensures a !in g {
        assert g in groups + {group};
      }
    }
  }

  /** Those still without a home are on nobody's row, so placing them changes no other row. */
  lemma {:induction false} RowsUntouched(rows0: Rows, people0: People, rows: Rows, people: People, rows': Rows,
                                         people': People, h: string,
                                         groups: set<set<string>>, group: set<string>, home: string, tick: int,
                                             w: World)
    requires Consistent(rows, people) && Parting(rows0, people0, rows, people, h, groups, tick, w)
    requires h in rows0 && group <= rows0[h].members && forall g :: g in groups ==> g !! group
    requires Formed(rows, people, rows', people', w.idOf(tick, "dissolution", group), group, home, tick)
    ensures forall k :: k in rows && k != w.idOf(tick, "dissolution", group) ==> k in rows' && rows'[k] == rows[k]
  {
    forall k | k in rows && k != w.idOf(tick, "dissolution", group) ensures rows'[k] == rows[k] {
      if rows[k].Live() {
        forall a | a in group ensures a !in rows[k].members {
          assert forall g :: g in groups ==> a !in g;
          assert people[a].household == None;
          assert Lists(rows, k, a) <==> LivesIn(people, a, k);
        }
      }
    }
  }

  function RestoredPeople(now: People, saved: People): People {
    map a | a in now :: if a in saved then saved[a] else now[a]
  }

  lemma {:induction false} PeopleBack(before: People, now: People)
    requires now.Keys == before.Keys && forall a :: a in now ==> now[a] == before[a]
    ensures now == before
  {
  }

  function RestoredPlaces(now: map<string, string>, saved: map<string, string>,
                          members: set<string>): map<string, string> {
    map a | a in now.Keys + saved.Keys && (a in members ==> a in saved) :: if a in saved then saved[a] else now[a]
  }

  lemma {:induction false} PlacesBack(before: map<string, string>, now: map<string, string>, saved: map<string, string>,
                                      members: set<string>)
    requires OnlyMoved(before, now, members)
    requires saved.Keys == before.Keys * members && forall a :: a in saved ==> saved[a] == before[a]
    ensures RestoredPlaces(now, saved, members) == before
  {
    var back := RestoredPlaces(now, saved, members);
    forall a ensures a in back <==> a in before {
    }
    forall a | a in before ensures back[a] == before[a] {
    }
  }
}
