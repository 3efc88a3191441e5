/** The event log: staging, savepoints, rollback and commit. */
module EventLogs {
  import opened Wrappers
  import opened EventChain

  /** What staging changes and a rollback restores. */
  datatype Batch = Batch(staged: seq<Event>, head: Head, dropped: nat)

  datatype Savepoint = Savepoint(stagedLen: int, head: Head, dropped: nat, token: nat)

  datatype LogError = StaleSavepoint | SinkFailed

  datatype CommitResult = CommitResult(tick: int, persisted: nat, ephemeral: nat, dropped: nat, firstSeq: int,
                                       last: Head)

  /** The event a draft becomes, and the batch with it: ephemeral events are unnumbered, sampled ones may be dropped. */
  function Staged(digest: Digest, keep: Event -> bool, batch: Batch, draft: Draft, runId: int, at: Moment): (Batch,
                  Event) {
    if draft.persistence == Ephemeral then
      var e := Unsealed(draft, EPHEMERAL_SEQ, runId, at, "");
      (batch.(staged := batch.staged + [e]), e)
    else
      var candidate := Unsealed(draft, batch.head.seqNo + 1, runId, at, batch.head.hash);
      if draft.persistence == Sampled && !keep(candidate) then (batch.(dropped := batch.dropped + 1), candidate)
      else
        var e := Seal(digest, draft, batch.head.seqNo + 1, runId, at, batch.head.hash);
        (batch.(staged := batch.staged + [e], head := Head(e.seqNo, e.hash)), e)
  }

  /** What is staged leads from the last commit to the head of the batch. */
  ghost predicate BatchChains(digest: Digest, base: Head, batch: Batch) {
    Chain(digest, Persistent(batch.staged), base, batch.head)
  }

  lemma {:induction false} StagedChains(digest: Digest, keep: Event -> bool, base: Head, batch: Batch, draft: Draft,
                                        runId: int, at: Moment)
    requires BatchChains(digest, base, batch) && 0 <= base.seqNo
    ensures BatchChains(digest, base, Staged(digest, keep, batch, draft, runId, at).0)
    ensures var (after, e) := Staged(digest, keep, batch, draft, runId, at);
      after.staged == batch.staged || after.staged == batch.staged + [e]
  {
    var (after, e) := Staged(digest, keep, batch, draft, runId, at);
    if after.staged != batch.staged {
      assert after.staged[..|batch.staged|] == batch.staged;
      if draft.persistence != Ephemeral {
        ChainIsGapFree(digest, Persistent(batch.staged), base, batch.head);
        SealVerifies(digest, draft, batch.head.seqNo + 1, runId, at, batch.head.hash);
        assert Persistent(after.staged) == Persistent(batch.staged) + [e];
        ChainGrows(digest, Persistent(batch.staged), base, batch.head, e);
      } else {
        assert Persistent(after.staged) == Persistent(batch.staged) + [] == Persistent(batch.staged);
      }
    }
  }

  lemma {:induction false} ChainGrows(digest: Digest, events: seq<Event>, from: Head, to: Head, e: Event)
    requires Chain(digest, events, from, to) && e.seqNo == to.seqNo + 1 && e.prev == to.hash && Verifies(digest, e)
    ensures Chain(digest, events + [e], from, Head(e.seqNo, e.hash))
  {
    assert (events + [e])[..|events|] == events;
  }

  /** The batch a savepoint of this batch leads back to. */
  function Restored(batch: Batch, point: Savepoint): Batch
    requires 0 <= point.stagedLen <= |batch.staged|
  {
    Batch(batch.staged[..point.stagedLen], point.head, point.dropped)
  }

  /** The head the first n staged events lead to. */
  function HeadAfter(events: seq<Event>, base: Head): Head {
    LastHead(Persistent(events), base)
  }

  /** Going back keeps the chain exactly when the savepoint's head is where the events that remain lead. */
  lemma {:induction false} RestoredChains(digest: Digest, base: Head, batch: Batch, point: Savepoint)
    requires BatchChains(digest, base, batch) && 0 <= point.stagedLen <= |batch.staged|
    ensures BatchChains(digest, base, Restored(batch, point)) <==>
      point.head == HeadAfter(batch.staged[..point.stagedLen], base)
  {
    var kept := Persistent(batch.staged[..point.stagedLen]);
    PersistentPrefix(batch.staged, point.stagedLen);
    ChainIsGapFree(digest, Persistent(batch.staged), base, batch.head);
    LinkedPrefix(digest, Persistent(batch.staged), base, |kept|);
    GapFreeIsChain(digest, kept, base);
    ChainEnd(digest, kept, base, HeadAfter(batch.staged[..point.stagedLen], base), point.head);
  }

  /** A savepoint as it was taken: of these events, with this head. */
  ghost predicate TakenFrom(point: Savepoint, then_: Batch, token: nat) {
    point == Savepoint(|then_.staged|, then_.head, then_.dropped, token)
  }

  ghost predicate Extends(batch: Batch, earlier: Batch) {
    |earlier.staged| <= |batch.staged| && batch.staged[..|earlier.staged|] == earlier.staged
  }

  class EventLog {
    const runId: int
    const digest: Digest
    const keep: Event -> bool
    const origin: Head
    var staged: seq<Event>
    var head: Head
    var dropped: nat
    var base: Head
    var token: nat
    /** What the sink holds, from the start of this log. */
    var sunk: seq<Event>
    /** The batches at which savepoints still in force were taken, oldest first. */
    ghost var points: seq<Batch>

    function Now(): Batch
      reads this
    {
      Batch(staged, head, dropped)
    }

    ghost predicate Valid()
      reads this
    {
      && 0 <= origin.seqNo <= base.seqNo
      && Chain(digest, sunk, origin, base)
      && BatchChains(digest, base, Now())
      && (forall i :: 0 <= i < |points| ==> Extends(Now(), points[i]) && BatchChains(digest, base, points[i]))
      && (forall i, j :: 0 <= i < j < |points| ==> Extends(points[j], points[i]))
    }

    constructor (runId: int, digest: Digest, keep: Event -> bool, origin: Head)
      requires 0 <= origin.seqNo
      ensures Valid() && Now() == Batch([], origin, 0) && sunk == [] && base == origin && points == []
      ensures this.runId == runId && this.digest == digest && this.keep == keep && this.origin == origin
    {
      this.runId, this.digest, this.keep, this.origin := runId, digest, keep, origin;
      staged, head, dropped, base, token, sunk, points := [], origin, 0, origin, 0, [], [];
    }

    /** What staging leaves alone. */
    ghost function Underneath(): (Head, nat, seq<Event>, seq<Batch>)
      reads this
    {
      (base, token, sunk, points)
    }

    /** Stages a draft: what comes of it depends on the batch and the draft alone. */
    method Stage(draft: Draft, at: Moment) returns (e: Event)
      requires Valid()
      modifies this
      ensures Valid()
      ensures (Now(), e) == Staged(digest, keep, old(Now()), draft, runId, at)
      ensures base == old(base) && token == old(token) && sunk == old(sunk) && points == old(points)
    {
      hide Chain, BatchChains, Seal, Unsealed, Extends;
      ghost var before := Now();
      StagedChains(digest, keep, base, before, draft, runId, at);
      StagedExtends(before, Staged(digest, keep, before, draft, runId, at).0, points);
      if draft.persistence == Ephemeral {
        e := Unsealed(draft, EPHEMERAL_SEQ, runId, at, "");
        staged := staged + [e];
      } else {
        e := Unsealed(draft, head.seqNo + 1, runId, at, head.hash);
        if draft.persistence == Sampled && !keep(e) {
          dropped := dropped + 1;
        } else {
          e := Seal(digest, draft, head.seqNo + 1, runId, at, head.hash);
          head := Head(e.seqNo, e.hash);
          staged := staged + [e];
        }
      }
    }

    method Save() returns (point: Savepoint)
      requires Valid()
      modifies this
      ensures Valid() && TakenFrom(point, Now(), token)
      ensures Now() == old(Now()) && base == old(base) && token == old(token) && sunk == old(sunk)
      ensures points == old(points) + [Now()]
    {
      point := Savepoint(|staged|, head, dropped, token);
      points := points + [Now()];
    }

    /** Goes back to a savepoint. The code looks at its batch and its length; the chain is kept exactly when the head
        fits too. A savepoint still in force fits, and what was staged when it was taken comes back exactly. */
    method RollbackTo(point: Savepoint) returns (r: Result<(), LogError>)
      requires Valid()
      modifies this
      ensures r.Success? <==> point.token == old(token) && 0 <= point.stagedLen <= old(|staged|)
      ensures r.Failure? ==> unchanged(this)
      ensures r.Success? ==>
        Now() == Restored(old(Now()), point) && base == old(base) && token == old(token) && sunk == old(sunk)
      ensures Valid() <==> r.Failure? || point.head == HeadAfter(old(staged)[..point.stagedLen], base)
      ensures forall i :: 0 <= i < |old(points)| && TakenFrom(point, old(points)[i], old(token)) ==>
        r.Success? && Valid() && Now() == old(points)[i] && i < |points| && points[..i + 1] == old(points)[..i + 1]
    {
      hide Chain, BatchChains, Extends, HeadAfter;
      if point.token != token || !(0 <= point.stagedLen <= |staged|) {
        PointsFit(digest, base, Now(), points, point, token);
        return Failure(StaleSavepoint);
      }
      ghost var before := Now();
      RestoredChains(digest, base, before, point);
      PointsFit(digest, base, before, points, point, token);
      staged := staged[..point.stagedLen];
      head := point.head;
      dropped := point.dropped;
      InForceKept(points, before, Now());
      points := InForce(points, |staged|);
      return Success(());
    }

    /** Hands the batch to the sinks. The log stays sound unless events were appended and the rest then failed. */
    method Commit(tick: int, appendWorks: bool, publishWorks: bool) returns (r: Result<CommitResult, LogError>)
      requires Valid()
      modifies this
      ensures r.Success? <==> appendWorks && publishWorks
      ensures r.Success? ==> Valid() && sunk == old(sunk) + Persistent(old(staged)) && base == head == old(head)
      ensures r.Success? ==> r.value.last == old(head) && r.value.persisted == |Persistent(old(staged))|
                             && r.value.persisted + r.value.ephemeral == |old(staged)|
                             && r.value.dropped == old(dropped)
                             && r.value.firstSeq
                                 == (if r.value.persisted == 0 then old(head).seqNo else old(base).seqNo + 1)
      ensures r.Failure? ==>
        base == head == old(base) && sunk == old(sunk) + if appendWorks then Persistent(old(staged)) else []
      ensures Valid() <==> publishWorks || !appendWorks || Persistent(old(staged)) == []
      ensures staged == [] && dropped == 0 && points == [] && old(token) < token
    {
      hide Chain;
      var persisted := Persistent(staged);
      var ephemeral := |staged| - |persisted|;
      CommitChains(digest, origin, base, sunk, Now());
      PersistentCount(staged);
      if appendWorks { sunk := sunk + persisted; }
      if !appendWorks || !publishWorks {
        Rollback();
        return Failure(SinkFailed);
      }
      r := Success(CommitResult(tick, |persisted|, ephemeral, dropped, if persisted == [] then head.seqNo
                                else persisted[0].seqNo, head));
      staged, dropped, base, token, points := [], 0, head, token + 1, [];
    }

    /** Forgets the batch. */
    method Rollback()
      modifies this
      ensures staged == [] && head == base == old(base) && dropped == 0 && points == [] && token == old(token) + 1
      ensures sunk == old(sunk)
      ensures Valid() <==> 0 <= origin.seqNo <= base.seqNo && Chain(digest, sunk, origin, base)
    {
      staged, head, dropped, token, points := [], base, 0, token + 1, [];
    }
  }

  lemma {:induction false} StagedExtends(before: Batch, after: Batch, points: seq<Batch>)
    requires |before.staged| <= |after.staged| && after.staged[..|before.staged|] == before.staged
    requires forall i :: 0 <= i < |points| ==> Extends(before, points[i])
    ensures forall i :: 0 <= i < |points| ==> Extends(after, points[i])
  {
    forall i | 0 <= i < |points| ensures Extends(after, points[i]) {
      assert Extends(before, points[i]);
      assert after.staged[..|points[i].staged|] == before.staged[..|points[i].staged|];
    }
  }

  /** The savepoints that a batch of n staged events still covers. */
  ghost function InForce(points: seq<Batch>, n: nat): seq<Batch> {
    if points == [] || |points[|points| - 1].staged| <= n then points else InForce(points[..|points| - 1], n)
  }

  lemma {:induction false} InForceKept(points: seq<Batch>, before: Batch, after: Batch)
    requires |after.staged| <= |before.staged| && after.staged == before.staged[..|after.staged|]
    requires forall i :: 0 <= i < |points| ==> Extends(before, points[i])
    requires forall i, j :: 0 <= i < j < |points| ==> Extends(points[j], points[i])
    ensures var kept := InForce(points, |after.staged|);
      && |kept| <= |points| && kept == points[..|kept|]
      && (forall i :: 0 <= i < |kept| ==> Extends(after, kept[i]))
      && (forall i :: 0 <= i < |points| && |points[i].staged| <= |after.staged| ==> i < |kept|)
  {
    if points == [] {
    } else {
      var init, last := points[..|points| - 1], points[|points| - 1];
      if |last.staged| <= |after.staged| {
        forall i | 0 <= i < |points| ensures Extends(after, points[i]) {
          assert Extends(before, points[i]);
          assert i < |points| - 1 ==> Extends(last, points[i]);
          assert before.staged[..|points[i].staged|] == after.staged[..|points[i].staged|];
        }
      } else {
        InForceKept(init, before, after);
        var kept := InForce(init, |after.staged|);
        assert kept == init[..|kept|] == points[..|kept|];
      }
    }
  }

  /** A savepoint in force is of this batch, is covered by it, and its head fits. */
  lemma {:induction false} PointsFit(digest: Digest, base: Head, batch: Batch, points: seq<Batch>, point: Savepoint,
                                     token: nat)
    requires forall i :: 0 <= i < |points| ==> Extends(batch, points[i]) && BatchChains(digest, base, points[i])
    ensures forall i :: 0 <= i < |points| && TakenFrom(point, points[i], token) ==>
      && point.token == token && 0 <= point.stagedLen <= |batch.staged|
      && Restored(batch, point) == points[i] && point.head == HeadAfter(batch.staged[..point.stagedLen], base)
  {
    forall i | 0 <= i < |points| && TakenFrom(point, points[i], token)
      ensures point.token == token && 0 <= point.stagedLen <= |batch.staged|
              && Restored(batch, point) == points[i] && point.head == HeadAfter(batch.staged[..point.stagedLen], base)
    {
      ChainIsGapFree(digest, Persistent(points[i].staged), base, points[i].head);
    }
  }

  lemma {:induction false} PersistentCount(events: seq<Event>)
    ensures |Persistent(events)| <= |events|
  {
    if events != [] {
      PersistentCount(events[..|events| - 1]);
    }
  }

  /** What the sink would hold after the batch is a chain up to the batch's head, and to no other. */
  lemma {:induction false} CommitChains(digest: Digest, origin: Head, base: Head, sunk: seq<Event>, batch: Batch)
    requires Chain(digest, sunk, origin, base) && BatchChains(digest, base, batch)
    ensures Chain(digest, sunk + Persistent(batch.staged), origin, batch.head)
    ensures Chain(digest, [], batch.head, batch.head) && Chain(digest, [], base, base) && Persistent([]) == []
    ensures base.seqNo <= batch.head.seqNo
    ensures Chain(digest, sunk + Persistent(batch.staged), origin, base) <==> Persistent(batch.staged) == []
    ensures Persistent(batch.staged) != [] ==> Persistent(batch.staged)[0].seqNo == base.seqNo + 1
    ensures sunk + [] == sunk
  {
    var persistent := Persistent(batch.staged);
    ChainsJoin(digest, sunk, persistent, origin, base, batch.head);
    ChainEnd(digest, sunk + persistent, origin, batch.head, base);
    ChainIsGapFree(digest, persistent, base, batch.head);
    if persistent != [] {
      assert Linked(digest, persistent, base, 0);
    }
  }

  /** After an append that was followed by a failed publish, the next event takes a number the sink already holds. */
  lemma {:induction false} NumberTakenTwice(digest: Digest, origin: Head, base: Head, sunk: seq<Event>, batch: Batch,
                                            draft: Draft, runId: int, at: Moment)
    requires Chain(digest, sunk, origin, base) && BatchChains(digest, base, batch) && Persistent(batch.staged) != []
    ensures Seal(digest, draft, base.seqNo + 1, runId, at, base.hash).seqNo
        == (sunk + Persistent(batch.staged))[|sunk|].seqNo
  {
    CommitChains(digest, origin, base, sunk, batch);
  }

  /** Savepoints used out of order get past the code's check: after going back and staging another event in the same
      place, the later savepoint is accepted, and the chain holds exactly if the two events have the same hash. */
  lemma {:induction false} OutOfOrderSavepoint(digest: Digest, keep: Event -> bool, base: Head, batch: Batch, b: Draft,
                                               c: Draft, runId: int, at: Moment)
    requires BatchChains(digest, base, batch) && 0 <= base.seqNo && b.persistence == Always && c.persistence == Always
    ensures var later, other := Staged(digest, keep, batch, b, runId, at), Staged(digest, keep, batch, c, runId, at);
      var point := Savepoint(|later.0.staged|, later.0.head, later.0.dropped, 0);
      && point.stagedLen <= |other.0.staged|
      && (BatchChains(digest, base, Restored(other.0, point)) <==> later.1.hash == other.1.hash)
  {
    var later, other := Staged(digest, keep, batch, b, runId, at), Staged(digest, keep, batch, c, runId, at);
    var point := Savepoint(|later.0.staged|, later.0.head, later.0.dropped, 0);
    StagedChains(digest, keep, base, batch, c, runId, at);
    RestoredChains(digest, base, other.0, point);
    assert other.0.staged[..point.stagedLen] == other.0.staged;
    ChainIsGapFree(digest, Persistent(other.0.staged), base, other.0.head);
  }
}
