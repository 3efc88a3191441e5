/** Events, how each is sealed to the one before, and what makes a list of them an unbroken chain. */
module EventChain {
  import opened Wrappers
  import opened Money

  const EPHEMERAL_SEQ := -1

  // ---- Subjects in order ----

  function Inserted(x: string, sorted: seq<string>): seq<string> {
    if sorted == [] || !LexLess(sorted[0], x) then [x] + sorted else [sorted[0]] + Inserted(x, sorted[1..])
  }

  function Sorted(names: seq<string>): seq<string> {
    if names == [] then [] else Inserted(names[0], Sorted(names[1..]))
  }

  predicate InOrderNames(names: seq<string>) {
    forall i, j :: 0 <= i < j < |names| ==> !LexLess(names[j], names[i])
  }

  lemma {:induction false} InsertedContents(x: string, sorted: seq<string>)
    ensures multiset(Inserted(x, sorted)) == multiset(sorted) + multiset{x}
  {
    if sorted != [] && LexLess(sorted[0], x) {
      InsertedContents(x, sorted[1..]);
      assert sorted == [sorted[0]] + sorted[1..];
    }
  }

  lemma {:induction false} InsertedInOrder(x: string, sorted: seq<string>)
    requires InOrderNames(sorted)
    ensures InOrderNames(Inserted(x, sorted))
  {
    if sorted == [] {
    } else if !LexLess(sorted[0], x) {
      forall j | 0 <= j < |sorted| ensures !LexLess(sorted[j], x) {
        if LexLess(sorted[j], x) {
          LexTotal(sorted[0], x);
          LexTotal(sorted[j], sorted[0]);
          if x != sorted[0] && j > 0 {
            LexTransitive(sorted[j], x, sorted[0]);
          }
        }
      }
    } else {
      InsertedInOrder(x, sorted[1..]);
      InsertedContents(x, sorted[1..]);
      var rest := Inserted(x, sorted[1..]);
      LexTotal(sorted[0], x);
      forall j | 0 <= j < |rest| ensures !LexLess(rest[j], sorted[0]) {
        assert rest[j] in multiset(rest);
        if rest[j] != x {
          assert rest[j] in sorted[1..];
        }
      }
    }
  }

  lemma {:induction false} SortedInOrder(names: seq<string>)
    ensures InOrderNames(Sorted(names)) && multiset(Sorted(names)) == multiset(names)
  {
    if names != [] {
      SortedInOrder(names[1..]);
      InsertedInOrder(names[0], Sorted(names[1..]));
      InsertedContents(names[0], Sorted(names[1..]));
      assert names == [names[0]] + names[1..];
    }
  }

  lemma {:induction false} SortedFixed(names: seq<string>)
    requires InOrderNames(names)
    ensures Sorted(names) == names
  {
    if names != [] {
      SortedFixed(names[1..]);
      assert names == [names[0]] + names[1..];
    }
  }

  // ---- Events ----

  datatype Persistence = Ephemeral | Sampled | Always

  datatype Draft = Draft(kind: int, persistence: Persistence, actor: Option<string>, subjects: seq<string>,
                         cause: Option<int>,
                         payload: string, sig: Option<string>)

  datatype Moment = Moment(tick: int, simTime: int)

  datatype Event = Event(seqNo: int, runId: int, at: Moment, kind: int, actor: Option<string>, subjects: seq<string>,
                         cause: Option<int>,
                         payload: string, sig: Option<string>, prev: string, hash: string)

  /** Everything an event's hash covers. */
  datatype Content = Content(seqNo: int, runId: int, at: Moment, kind: int, actor: Option<string>,
                             subjects: seq<string>, cause: Option<int>,
                             payload: string, sig: Option<string>, prev: string)

  function ContentOf(e: Event): Content {
    Content(e.seqNo, e.runId, e.at, e.kind, e.actor, Sorted(e.subjects), e.cause, e.payload, e.sig, e.prev)
  }

  type Digest = Content -> string

  predicate Verifies(digest: Digest, e: Event) {
    digest(ContentOf(e)) == e.hash
  }

  function Unsealed(draft: Draft, seqNo: int, runId: int, at: Moment, prev: string): Event {
    Event(seqNo, runId, at, draft.kind, draft.actor, Sorted(draft.subjects), draft.cause, draft.payload, draft.sig,
          prev, "")
  }

  /** An event with the hash of what the draft says. */
  function Seal(digest: Digest, draft: Draft, seqNo: int, runId: int, at: Moment, prev: string): Event {
    Unsealed(draft, seqNo, runId, at, prev).(hash :=
      digest(Content(seqNo, runId, at, draft.kind, draft.actor, Sorted(draft.subjects), draft.cause, draft.payload,
                     draft.sig, prev)))
  }

  /** A sealed event verifies: sorting its subjects again changes nothing. */
  lemma {:induction false} SealVerifies(digest: Digest, draft: Draft, seqNo: int, runId: int, at: Moment, prev: string)
    ensures Verifies(digest, Seal(digest, draft, seqNo, runId, at, prev))
  {
    SortedInOrder(draft.subjects);
    SortedFixed(Sorted(draft.subjects));
  }

  // ---- Chains ----

  datatype Head = Head(seqNo: int, hash: string)

  /** The events lead from one head to another, each numbered next and holding the hash of the one before. */
  predicate Chain(digest: Digest, events: seq<Event>, from: Head, to: Head) {
    if events == [] then from == to
    else
      var last := events[|events| - 1];
      && to == Head(last.seqNo, last.hash) && Verifies(digest, last)
      && Chain(digest, events[..|events| - 1], from, Head(last.seqNo - 1, last.prev))
  }

  lemma {:induction false} ChainsJoin(digest: Digest, first: seq<Event>, second: seq<Event>, a: Head, b: Head, c: Head)
    requires Chain(digest, first, a, b) && Chain(digest, second, b, c)
    ensures Chain(digest, first + second, a, c)
  {
    if second == [] {
      assert first + second == first;
    } else {
      var last := second[|second| - 1];
      ChainsJoin(digest, first, second[..|second| - 1], a, b, Head(last.seqNo - 1, last.prev));
      assert (first + second)[..|first + second| - 1] == first + second[..|second| - 1];
    }
  }

  /** The event in place i is numbered next after the one before it, holds its hash, and verifies. */
  predicate Linked(digest: Digest, events: seq<Event>, from: Head, i: nat)
    requires i < |events|
  {
    && events[i].seqNo == from.seqNo + 1 + i && Verifies(digest, events[i])
    && events[i].prev == (if i == 0 then from.hash else events[i - 1].hash)
  }

  function LastHead(events: seq<Event>, from: Head): Head {
    if events == [] then from else Head(events[|events| - 1].seqNo, events[|events| - 1].hash)
  }

  /** What a chain looks like position by position: no gap, no repeat, every link to the hash before it. */
  lemma {:induction false} ChainIsGapFree(digest: Digest, events: seq<Event>, from: Head, to: Head)
    requires Chain(digest, events, from, to)
    ensures to == LastHead(events, from) && to.seqNo == from.seqNo + |events|
    ensures forall i :: 0 <= i < |events| ==> Linked(digest, events, from, i)
  {
    if events != [] {
      var init, last := events[..|events| - 1], events[|events| - 1];
      ChainIsGapFree(digest, init, from, Head(last.seqNo - 1, last.prev));
      forall i | 0 <= i < |events| ensures Linked(digest, events, from, i) {
        if i < |init| {
          assert Linked(digest, init, from, i);
        }
      }
    }
  }

  /** And everything that looks like that is a chain. */
  lemma {:induction false} GapFreeIsChain(digest: Digest, events: seq<Event>, from: Head)
    requires forall i :: 0 <= i < |events| ==> Linked(digest, events, from, i)
    ensures Chain(digest, events, from, LastHead(events, from)) && LastHead(events, from).seqNo == from.seqNo + |events|
  {
    if events != [] {
      var init := events[..|events| - 1];
      forall i | 0 <= i < |init| ensures Linked(digest, init, from, i) {
        assert Linked(digest, events, from, i);
      }
      GapFreeIsChain(digest, init, from);
      assert Linked(digest, events, from, |events| - 1);
    }
  }

  lemma {:induction false} LinkedPrefix(digest: Digest, events: seq<Event>, from: Head, n: nat)
    requires n <= |events| && forall i :: 0 <= i < |events| ==> Linked(digest, events, from, i)
    ensures forall i :: 0 <= i < n ==> Linked(digest, events[..n], from, i)
  {
    forall i | 0 <= i < n ensures Linked(digest, events[..n], from, i) {
      assert Linked(digest, events, from, i);
    }
  }

  /** A chain has one end. */
  lemma {:induction false} ChainEnd(digest: Digest, events: seq<Event>, from: Head, to: Head, other: Head)
    requires Chain(digest, events, from, to)
    ensures Chain(digest, events, from, other) <==> other == to
  {
  }

  // ---- What persists ----

  function Persistent(events: seq<Event>): seq<Event> {
    if events == [] then []
    else
      var last := events[|events| - 1];
      Persistent(events[..|events| - 1]) + if last.seqNo == EPHEMERAL_SEQ then [] else [last]
  }

  lemma {:induction false} PersistentPrefix(events: seq<Event>, n: nat)
    requires n <= |events|
    ensures |Persistent(events[..n])| <= |Persistent(events)|
    ensures Persistent(events[..n]) == Persistent(events)[..|Persistent(events[..n])|]
  {
    if n == |events| {
      assert events[..n] == events;
    } else {
      PersistentPrefix(events[..|events| - 1], n);
      assert events[..|events| - 1][..n] == events[..n];
    }
  }
}
