/**
 A ring whose elements carry more than one epoch, or not the epoch of the key.  The write side gets
 there when Redis is flushed: events are published under the old epoch until the supervisor adopts
 a new one.  When such a replay queues no marker, is the session still free of silent gaps?
 */
module BrokerEpochs {
  import opened Common
  import opened Broker
  import opened BrokerGaps

  /** What the publish script gives any ring: one numbering, each element under some epoch, and a
      counter that can still be incremented. */
  ghost predicate NumberedSnapshot(snap: Snapshot) {
    && (snap.key.Some? ==> snap.key.value != "")
    && Consecutive(snap.ring)
    && (forall i :: 0 <= i < |snap.ring| ==> snap.ring[i].epoch != "" && 1 <= snap.ring[i].num < MAX_COUNTER)
  }

  predicate Holds(blocks: seq<Block>, epoch: string, m: int) {
    exists j :: 0 <= j < |blocks| && blocks[j].Data? && blocks[j].ev.epoch == epoch && blocks[j].ev.num == m
  }

  /** Everything above the filter and below a queued event of its own generation was queued too, or a
      marker was. */
  ghost predicate GapFree(blocks: seq<Block>, filter: int) {
    || HasMarker(blocks)
    || forall i, m :: 0 <= i < |blocks| && filter < m < blocks[i].ev.num ==> Holds(blocks, blocks[i].ev.epoch, m)
  }

  ghost predicate SessionGapFree(ss: Session, filter: int) {
    forall k :: 0 <= k < |ss.segments| ==> GapFree(ss.segments[k], filter)
  }

  function Filter(o: Opening): nat { CursorVerdict(o.cursor, o.snap).filter }

  function Replayed(o: Opening): seq<Event> { Pending(o.snap.ring, Filter(o)) }

  /** A terminal event, or a run already over, ends the session with its replay. */
  predicate EndsAtOpen(o: Opening) { o.terminalAtOpen || HasTerminal(OpeningBlocks(o)) }

  predicate OneEpoch(events: seq<Event>) {
    forall i :: 0 <= i < |events| ==> events[i].epoch == events[0].epoch
  }

  /** What a caller can check on the snapshot: the replayed elements share one epoch, and it is the
      generation of the session unless the session ends with them. */
  predicate OneGeneration(o: Opening) {
    var pending := Replayed(o);
    OneEpoch(pending) && (pending == [] || pending[0].epoch == Generation(o.snap) || EndsAtOpen(o))
  }

  lemma PendingFacts(snap: Snapshot, filter: nat)
    requires NumberedSnapshot(snap)
    ensures var pending := Pending(snap.ring, filter);
            && Consecutive(pending)
            && (forall i :: 0 <= i < |pending| ==>
                  pending[i].epoch != "" && filter < pending[i].num < MAX_COUNTER && pending[i].num >= 1)
            && (pending != [] ==>
                  && Generation(snap) != "" && MinSeq(pending) == pending[0].num
                  && pending[|pending| - 1] == snap.ring[|snap.ring| - 1]
                  && MaxSeq(pending) == pending[|pending| - 1].num)
  {
    hide MinSeq, MaxSeq, Pending;
    var k := PendingIsSuffix(snap.ring, filter);
    if Pending(snap.ring, filter) != [] {
      MinMaxAreEnds(snap.ring[k..]);
    }
  }

  /** An unmarked opening is the replay alone, and it starts at the first seq the client lacks. */
  lemma UnmarkedOpening(o: Opening)
    requires NumberedSnapshot(o.snap) && !HasMarker(OpeningBlocks(o))
    ensures OpeningBlocks(o) == DataBlocks(Replayed(o), Generation(o.snap))
    ensures Replayed(o) != [] ==> Replayed(o)[0].num == Filter(o) + 1
  {
    hide MinSeq, MaxSeq, CursorVerdict, Pending, Generation, NumberedSnapshot, Consecutive;
    PendingFacts(o.snap, Filter(o));
    var blocks := OpeningBlocks(o);
    if blocks != [] {
      assert !blocks[0].Marker?;
    }
  }

  // ----- one generation: no gap, whatever the channel does ------------------------------------

  lemma SoundIsGapFree(blocks: seq<Block>, filter: int)
    requires SoundSegment(blocks, filter)
    ensures GapFree(blocks, filter)
  {
    if !HasMarker(blocks) {
      var g :| AllNamed(blocks, g);
      forall i, m | 0 <= i < |blocks| && filter < m < blocks[i].ev.num
        ensures Holds(blocks, blocks[i].ev.epoch, m)
      {
        assert !blocks[i].Marker?;
        UnmarkedIsUnbroken(blocks, filter, m, blocks[i].ev.num);
        var j :| 0 <= j < |blocks| && blocks[j].Data? && blocks[j].ev.num == m;
      }
    }
  }

  /** The session does not depend on ring elements at or below the filter. */
  function Trimmed(o: Opening): Opening {
    o.(snap := o.snap.(ring := Replayed(o)), lease := if o.snap.ring == [] then o.lease else None)
  }

  lemma TrimmedIsSame(o: Opening, patience: nat)
    requires NumberedSnapshot(o.snap)
    ensures Filter(Trimmed(o)) == Filter(o) && Generation(Trimmed(o).snap) == Generation(o.snap)
    ensures OpenSession(Trimmed(o), patience) == OpenSession(o, patience)
  {
    TrimmedNames(o);
    hide MinSeq, MaxSeq, Pending, DataBlocks, HasTerminal, ReplayBlocks, NumberedSnapshot, Generation, CursorVerdict;
    SamePendingSameReplay(o.snap.ring, Replayed(o), Filter(o));
  }

  lemma TrimmedNames(o: Opening)
    requires NumberedSnapshot(o.snap)
    ensures CursorVerdict(Trimmed(o).cursor, Trimmed(o).snap) == CursorVerdict(o.cursor, o.snap)
    ensures Generation(Trimmed(o).snap) == Generation(o.snap)
    ensures Pending(Replayed(o), Filter(o)) == Replayed(o) && (Replayed(o) != [] ==> o.snap.ring != [])
    ensures Trimmed(o).snap.ring == [] && Trimmed(o).lease == Some(false) <==>
            o.snap.ring == [] && o.lease == Some(false)
  {
    var k := PendingIsSuffix(o.snap.ring, Filter(o));
    AllPending(o.snap.ring[k..], Filter(o));
    assert o.snap.key.None? ==> k == 0;
    hide Pending;
  }

  lemma SamePendingSameReplay(a: seq<Event>, b: seq<Event>, filter: int)
    requires Pending(a, filter) == Pending(b, filter)
    ensures forall g, gap :: ReplayBlocks(a, filter, g, gap) == ReplayBlocks(b, filter, g, gap)
  {
    hide Pending, MinSeq, MaxSeq, DataBlocks;
  }

  lemma NamedRingIsSound(snap: Snapshot)
    requires NumberedSnapshot(snap)
    requires forall i :: 0 <= i < |snap.ring| ==> snap.ring[i].epoch == Generation(snap)
    ensures SoundSnapshot(snap)
  {
    hide Generation;
  }

  lemma TrimmedIsNumbered(o: Opening)
    requires NumberedSnapshot(o.snap)
    ensures NumberedSnapshot(Trimmed(o).snap)
  {
    PendingFacts(o.snap, Filter(o));
    hide CursorVerdict, Pending, Generation, MinSeq, MaxSeq;
  }

  lemma TrimmedIsSound(o: Opening)
    requires NumberedSnapshot(o.snap)
    requires forall i :: 0 <= i < |Replayed(o)| ==> Replayed(o)[i].epoch == Generation(o.snap)
    ensures SoundSnapshot(Trimmed(o).snap)
  {
    hide NumberedSnapshot, CursorVerdict, Pending, Generation, OpenSession, SoundSnapshot;
    TrimmedIsNumbered(o);
    TrimmedIsSame(o, 0);
    NamedRingIsSound(Trimmed(o).snap);
  }

  lemma NamedIsGapFree(o: Opening, patience: nat, inputs: seq<Input>)
    requires NumberedSnapshot(o.snap) && SoundInputs(inputs)
    requires forall i :: 0 <= i < |Replayed(o)| ==> Replayed(o)[i].epoch == Generation(o.snap)
    ensures SessionGapFree(RunSession(o, patience, inputs), Filter(o))
  {
    hide SoundSnapshot, NumberedSnapshot, OpenSession, RunLive, CursorVerdict, Generation, GapFree, SoundSegment;
    hide Truthful, Pending;
    TrimmedIsSound(o);
    TrimmedIsSame(o, patience);
    SessionsAreSound(Trimmed(o), patience, inputs);
    var ss := RunSession(o, patience, inputs);
    assert ss == RunSession(Trimmed(o), patience, inputs);
    forall k | 0 <= k < |ss.segments| ensures GapFree(ss.segments[k], Filter(o)) {
      SoundIsGapFree(ss.segments[k], Filter(o));
    }
  }

  lemma ReplayIsGapFree(events: seq<Event>, g: string, filter: int, k: nat)
    requires Consecutive(events) && OneEpoch(events) && k <= |events| && (events != [] ==> events[0].num == filter + 1)
    requires forall i :: 0 <= i < |events| ==> events[i].epoch != ""
    ensures GapFree(DataBlocks(events, g)[..k], filter)
  {
    var blocks := DataBlocks(events, g)[..k];
    forall i, m | 0 <= i < |blocks| && filter < m < events[i].num ensures Holds(blocks, events[i].epoch, m) {
      var j := m - filter - 1;
      assert blocks[j].ev == events[j];
    }
  }

  /** What the open phase leaves: a prefix of its blocks, all of them for a patient client. */
  lemma OpenSegments(o: Opening, patience: nat) returns (k: nat)
    ensures k <= |OpeningBlocks(o)| && OpenSession(o, patience).segments == [OpeningBlocks(o)[..k]]
    ensures EndsAtOpen(o) ==> OpenSession(o, patience).status != Open
    ensures o.snap.ring != [] && |OpeningBlocks(o)| <= patience ==>
              k == |OpeningBlocks(o)| && (OpenSession(o, patience).status == Open <==> !EndsAtOpen(o))
  {
    hide OpeningBlocks, CursorVerdict, Generation, ReplayBlocks;
    var blocks := OpeningBlocks(o);
    assert blocks[..0] == [] && blocks[..|blocks|] == blocks;
    k := if o.snap.ring == [] && o.lease == Some(false) && !o.terminalAtOpen then 0 else Min(patience, |blocks|);
  }

  /** A session that ends with its replay queues a prefix of it. */
  lemma EndedIsGapFree(o: Opening, patience: nat, inputs: seq<Input>)
    requires NumberedSnapshot(o.snap) && !HasMarker(OpeningBlocks(o)) && EndsAtOpen(o) && OneEpoch(Replayed(o))
    ensures SessionGapFree(RunSession(o, patience, inputs), Filter(o))
  {
    hide NumberedSnapshot, OpeningBlocks, CursorVerdict, Generation, GapFree, RunLive, OpenSession, HasMarker;
    hide MinSeq, MaxSeq, EndsAtOpen, Pending;
    PendingFacts(o.snap, Filter(o));
    UnmarkedOpening(o);
    var k := OpenSegments(o, patience);
    var ss := OpenSession(o, patience);
    OpenIsRun(ss, Filter(o));
    assert inputs[..0] == [];
    EndedStays(ss, Filter(o), inputs, 0);
    ReplayIsGapFree(Replayed(o), Generation(o.snap), Filter(o), k);
  }

  lemma OpenIsRun(ss: Session, filter: int)
    requires ss.segments != []
    ensures RunLive(ss, filter, []) == ss
  {}

  // ----- more than one: a channel that leaves a silent gap ------------------------------------

  /** Two epochs in the replay: the later one lacks its beginning, at once. */
  lemma MixedReplayHasGap(o: Opening)
    requires NumberedSnapshot(o.snap) && !HasMarker(OpeningBlocks(o)) && !OneEpoch(Replayed(o))
    ensures !SessionGapFree(RunSession(o, |OpeningBlocks(o)|, []), Filter(o))
  {
    hide NumberedSnapshot, OpeningBlocks, CursorVerdict, Generation, RunLive, OpenSession, HasMarker;
    hide MinSeq, MaxSeq, EndsAtOpen, Pending, GapFree;
    var pending, blocks := Replayed(o), OpeningBlocks(o);
    PendingFacts(o.snap, Filter(o));
    UnmarkedOpening(o);
    var k := OpenSegments(o, |blocks|);
    RingOfReplay(o);
    assert blocks[..|blocks|] == blocks;
    OpenIsRun(OpenSession(o, |blocks|), Filter(o));
    var i :| 0 <= i < |pending| && pending[i].epoch != pending[0].epoch;
    FirstIsAlone(pending, Generation(o.snap), blocks, pending[i].epoch, Filter(o) + 1);
    assert blocks[i] == Data(pending[i]);
    IsNotGapFree(blocks, Filter(o), i);
    var segments := RunSession(o, |blocks|, []).segments;
    assert segments[0] == blocks;
  }

  lemma RingOfReplay(o: Opening)
    requires Replayed(o) != []
    ensures o.snap.ring != []
  {}

  lemma IsNotGapFree(blocks: seq<Block>, filter: int, i: nat)
    requires i < |blocks| && blocks[i].Data? && blocks[i].ev.num > filter + 1
    requires forall j :: 0 <= j < |blocks| ==> blocks[j].Data?
    requires !Holds(blocks, blocks[i].ev.epoch, filter + 1)
    ensures !GapFree(blocks, filter)
  {}

  lemma FirstIsAlone(pending: seq<Event>, g: string, blocks: seq<Block>, epoch: string, first: int)
    requires Consecutive(pending) && pending != [] && pending[0].num == first && pending[0].epoch != epoch
    requires forall i :: 0 <= i < |pending| ==> pending[i].epoch != ""
    requires |blocks| >= |pending| && blocks[..|pending|] == DataBlocks(pending, g)
    requires forall i :: |pending| <= i < |blocks| ==> blocks[i].Data? && blocks[i].ev.num > first
    ensures !Holds(blocks, epoch, first)
  {
    forall j | 0 <= j < |blocks| && blocks[j].Data? && blocks[j].ev.num == first
      ensures blocks[j].ev.epoch != epoch
    {
      assert blocks[..|pending|][j] == blocks[j];
    }
  }

  /** The message that follows the replay in the numbering, under the session's own generation. */
  function Successor(o: Opening): Event
    requires Replayed(o) != []
  {
    Event(Generation(o.snap), Replayed(o)[|Replayed(o)| - 1].num + 1, [], false)
  }

  /** The successor of what a session queued, under its own generation, is delivered without a marker. */
  lemma SuccessorIsDelivered(ss: Session, filter: int, e: Event)
    requires |ss.segments| == 1 && ss.status == Open && !e.terminal
    requires ss.live.generation != "" && e.epoch == ss.live.generation
    requires ss.live.arrived == 0 < ss.live.delivered == e.num - 1
    ensures RunLive(ss, filter, [Input(Message(e), 1, NotDue, 0)]).segments == [ss.segments[0] + [Data(e)]]
  {
    var inp := Input(Message(e), 1, NotDue, 0);
    OneStep(ss, filter, inp);
    assert Judge(ss.live, filter, e) == Ruling(ss.live.(arrived := e.num, delivered := e.num), [Data(e)], false);
    assert ss.segments[..0] == [];
  }

  /** One epoch, but not the session's: the next live message is taken for the successor of the replay. */
  lemma ForeignReplayHasGap(o: Opening)
    requires NumberedSnapshot(o.snap) && !HasMarker(OpeningBlocks(o)) && !EndsAtOpen(o)
    requires Replayed(o) != [] && Replayed(o)[0].epoch != Generation(o.snap)
    ensures var inputs := [Input(Message(Successor(o)), 1, NotDue, 0)];
            SoundInputs(inputs) && !SessionGapFree(RunSession(o, |OpeningBlocks(o)|, inputs), Filter(o))
  {
    hide NumberedSnapshot, OpeningBlocks, CursorVerdict, Generation, RunLive, OpenSession, HasMarker;
    hide MinSeq, MaxSeq, EndsAtOpen, Pending, GapFree;
    var pending, blocks, e := Replayed(o), OpeningBlocks(o), Successor(o);
    PendingFacts(o.snap, Filter(o));
    UnmarkedOpening(o);
    var k := OpenSegments(o, |blocks|);
    RingOfReplay(o);
    assert blocks[..|blocks|] == blocks;
    OpenVariables(o);
    SuccessorIsDelivered(OpenSession(o, |blocks|), Filter(o), e);
    var all := blocks + [Data(e)];
    assert all[..|pending|] == blocks;
    FirstIsAlone(pending, Generation(o.snap), all, e.epoch, Filter(o) + 1);
    IsNotGapFree(all, Filter(o), |blocks|);
    var segments := RunSession(o, |blocks|, [Input(Message(e), 1, NotDue, 0)]).segments;
    assert segments[0] == all;
  }

  lemma OpenVariables(o: Opening)
    requires Replayed(o) != []
    ensures var live := OpenSession(o, |OpeningBlocks(o)|).live;
            live.generation == Generation(o.snap) && live.delivered == MaxSeq(Replayed(o)) && live.arrived == 0
  {
    hide Pending, MinSeq, MaxSeq, Generation, CursorVerdict;
  }

  lemma OneStep(ss: Session, filter: int, inp: Input)
    requires ss.segments != []
    ensures RunLive(ss, filter, [inp]) == StepLive(ss, filter, inp)
  {
    assert [inp][..0] == [];
  }

  /** When the opening queues no marker, for any cursor: every continuation of the session, over any
      sound channel, is free of silent gaps per generation if and only if the replayed elements are of
      one generation. */
  lemma GapFreeIffOneGeneration(o: Opening)
    requires NumberedSnapshot(o.snap) && !HasMarker(OpeningBlocks(o))
    ensures (forall patience: nat, inputs: seq<Input> :: SoundInputs(inputs) ==>
               SessionGapFree(RunSession(o, patience, inputs), Filter(o))) <==> OneGeneration(o)
  {
    hide SoundInputs, SessionGapFree, RunSession, NumberedSnapshot, OpeningBlocks, Filter, Replayed, Generation;
    if OneGeneration(o) {
      forall patience: nat, inputs: seq<Input> | SoundInputs(inputs)
        ensures SessionGapFree(RunSession(o, patience, inputs), Filter(o))
      {
        if EndsAtOpen(o) {
          EndedIsGapFree(o, patience, inputs);
        } else {
          NamedIsGapFree(o, patience, inputs);
        }
      }
    } else if !OneEpoch(Replayed(o)) {
      MixedReplayHasGap(o);
      NoInputs();
    } else {
      ForeignReplayHasGap(o);
    }
  }

  lemma NoInputs()
    ensures SoundInputs([])
  {}

  /** A session is named by the key; when that is unreadable, by the newest element of the ring. */
  lemma NewestNamesTheSession(snap: Snapshot)
    requires NumberedSnapshot(snap)
    ensures snap.key.Some? ==> Some(Generation(snap)) == snap.key
    ensures snap.key.None? && snap.ring != [] ==>
              exists e :: e in snap.ring && Generation(snap) == e.epoch && forall d :: d in snap.ring ==> d.num <= e.num
  {
    if snap.key.None? && snap.ring != [] {
      assert snap.ring[|snap.ring| - 1] in snap.ring;
    }
  }

  /** Two elements of one counter life under two names: the client of `B` is never told that seq 1 of
      what it takes for generation `B` is missing. */
  lemma TwoEpochRingHasSilentGap()
    ensures var snap := Snapshot(Some("B"), 2, [Event("A", 1, [], false), Event("B", 2, [], false)]);
            var o := Opening(Cursor(0, None), snap, false, Some(true));
            NumberedSnapshot(snap) && !HasMarker(OpeningBlocks(o)) && !OneGeneration(o)
  {
    var snap := Snapshot(Some("B"), 2, [Event("A", 1, [], false), Event("B", 2, [], false)]);
    AllPending(snap.ring, 0);
    assert snap.ring[1].epoch != snap.ring[0].epoch;
  }

  /** One element published under the old epoch, then the next under the new one, live. */
  lemma RenamedCounterHasSilentGap()
    ensures var a1 := Event("A", 1, [], false);
            var b2 := Event("B", 2, [], false);
            var o := Opening(Cursor(0, None), Snapshot(Some("B"), 1, [a1]), false, Some(true));
            Queued(o, 1, [Input(Message(b2), 1, NotDue, 0)]) == [Data(a1), Data(b2)]
  {
    var a1, b2 := Event("A", 1, [], false), Event("B", 2, [], false);
    var o := Opening(Cursor(0, None), Snapshot(Some("B"), 1, [a1]), false, Some(true));
    AllPending([a1], 0);
    assert OpeningBlocks(o) == [Data(a1)];
    var start := Session(Live("B", 1, 0, 1, false, false), [[Data(a1)]], Open);
    assert OpenSession(o, 1) == start;
    SuccessorIsDelivered(start, 0, b2);
    assert [[Data(a1)] + [Data(b2)]][..0] == [];
  }
}
