/**
 How a session ends: normally with the terminal event of the run as the last block it queues, or at
 open when the run was over or nobody will ever publish; and what its cursor bought it.
 */
module BrokerEnds {
  import opened Common
  import opened Broker
  import opened BrokerGaps
  import BrokerDedup

  predicate IsTerminal(b: Block) { b.Data? && b.ev.terminal }

  /** No terminal event before the last block. */
  predicate OnlyLastTerminal(blocks: seq<Block>) {
    forall i :: 0 <= i < |blocks| - 1 ==> !IsTerminal(blocks[i])
  }

  predicate EndsTerminal(blocks: seq<Block>) { blocks != [] && IsTerminal(blocks[|blocks| - 1]) }

  lemma TerminalAppend(blocks: seq<Block>, more: seq<Block>)
    requires !HasTerminal(blocks)
    ensures HasTerminal(blocks + more) <==> HasTerminal(more)
    ensures OnlyLastTerminal(more) ==> OnlyLastTerminal(blocks + more)
    ensures more != [] ==> (EndsTerminal(blocks + more) <==> EndsTerminal(more))
  {
    var all := blocks + more;
    if HasTerminal(more) {
      var i :| 0 <= i < |more| && more[i].Data? && more[i].ev.terminal;
      assert all[|blocks| + i] == more[i];
    }
    forall i | 0 <= i < |all| - 1 && OnlyLastTerminal(more) ensures !IsTerminal(all[i]) {
      if i >= |blocks| {
        assert all[i] == more[i - |blocks|];
      } else {
        assert all[i] == blocks[i];
      }
    }
  }

  /** An open session goes on, or it ends normally with exactly one terminal event, its last block, or it
      ends abnormally without one. */
  ghost predicate EndInv(ss: Session) {
    var queued := Flat(ss.segments);
    && ss.segments != []
    && (ss.status == Normal <==> HasTerminal(queued))
    && (HasTerminal(queued) ==> EndsTerminal(queued)) && OnlyLastTerminal(queued)
  }

  lemma OfferEnds(ss: Session, r: Ruling, room: nat, after: Status)
    requires EndInv(ss) && ss.status == Open
    requires OnlyLastTerminal(r.blocks) && (after == Normal <==> EndsTerminal(r.blocks)) && after != Abnormal
    requires EndsTerminal(r.blocks) || !HasTerminal(r.blocks)
    ensures EndInv(Offer(ss, r, room, after))
  {
    OfferQueues(ss, r, room, after);
    var k := Min(room, |r.blocks|);
    var queued := r.blocks[..k];
    if k < |r.blocks| {
      forall i | 0 <= i < k ensures !IsTerminal(queued[i]) {
        assert queued[i] == r.blocks[i];
      }
    } else {
      assert queued == r.blocks;
    }
    hide Flat, Offer;
    TerminalAppend(Flat(ss.segments), queued);
    if queued == [] {
      assert Flat(ss.segments) + queued == Flat(ss.segments);
    }
  }

  lemma StepEnds(ss: Session, filter: int, inp: Input)
    requires EndInv(ss) && ss.status == Open
    ensures EndInv(StepLive(ss, filter, inp))
  {
    hide Flat, Judge, JudgeKey, Offer, HasTerminal;
    var mid := ss;
    if inp.poll.Message? {
      var e := inp.poll.ev;
      var r := Judge(ss.live, filter, e);
      BrokerDedup.OneMarkerPerMessage(ss.live, filter, e);
      RulingTerminal(r.blocks, e);
      if r.blocks != [] {
        OfferEnds(ss, r, inp.room, if e.terminal then Normal else Open);
      }
      mid := ss.(live := r.next);
    }
    if inp.check.Read? {
      BrokerDedup.KeyOnlyMarks(mid.live, inp.check.key);
      KeyTerminal(JudgeKey(mid.live, inp.check.key).blocks);
      OfferEnds(mid, JudgeKey(mid.live, inp.check.key), inp.checkRoom, Open);
    }
  }

  lemma RulingTerminal(blocks: seq<Block>, e: Event)
    requires blocks == [] || blocks == [Data(e)] || (|blocks| == 2 && blocks[0].Marker? && blocks[1] == Data(e))
    ensures OnlyLastTerminal(blocks) && (EndsTerminal(blocks) <==> blocks != [] && e.terminal)
    ensures EndsTerminal(blocks) || !HasTerminal(blocks)
  {}

  lemma KeyTerminal(blocks: seq<Block>)
    requires blocks == [] || (|blocks| == 1 && blocks[0].Marker?)
    ensures OnlyLastTerminal(blocks) && !EndsTerminal(blocks) && !HasTerminal(blocks)
  {}

  lemma {:induction false} LiveEnds(ss: Session, filter: int, inputs: seq<Input>)
    requires ss.segments != [] && EndInv(ss) && ss.status == Open
    ensures EndInv(RunLive(ss, filter, inputs))
    decreases |inputs|
  {
    hide EndInv, StepLive;
    if inputs != [] {
      var init := inputs[..|inputs| - 1];
      LiveEnds(ss, filter, init);
      var prior := RunLive(ss, filter, init);
      if prior.status == Open {
        StepEnds(prior, filter, inputs[|inputs| - 1]);
      } else {
        EndedStep(prior, filter, inputs[|inputs| - 1]);
      }
    }
  }

  lemma EndedStep(ss: Session, filter: int, inp: Input)
    requires ss.segments != [] && ss.status != Open
    ensures StepLive(ss, filter, inp) == ss
  {}

  /** Nothing in the ring, the run not over, and its lease known to be gone: nobody will ever publish. */
  predicate Abandoned(o: Opening) { o.snap.ring == [] && o.lease == Some(false) && !o.terminalAtOpen }

  /** A session ends normally if and only if the run was abandoned at open, or the client took the whole
      replay and either the run was over at open or a terminal event was queued. */
  lemma EndsNormallyIff(o: Opening, patience: nat, inputs: seq<Input>)
    ensures RunSession(o, patience, inputs).status == Normal <==>
            || Abandoned(o)
            || (|OpeningBlocks(o)| <= patience && (o.terminalAtOpen || HasTerminal(Queued(o, patience, inputs))))
  {
    var ss, filter := OpenSession(o, patience), CursorVerdict(o.cursor, o.snap).filter;
    var blocks := OpeningBlocks(o);
    assert ss.segments[..0] == [] && Flat(ss.segments) == ss.segments[0];
    hide Flat, RunLive, CursorVerdict, OpeningBlocks, Generation, ReplayBlocks;
    if ss.status == Open {
      LiveEnds(ss, filter, inputs);
    } else {
      assert inputs[..0] == [];
      NoInputs(ss, filter);
      EndedStays(ss, filter, inputs, 0);
    }
  }

  lemma NoInputs(ss: Session, filter: int)
    requires ss.segments != []
    ensures RunLive(ss, filter, []) == ss
  {}

  /** Past the replay, a terminal event is the last block a session queues, and it ends there. */
  lemma TerminalIsLast(o: Opening, patience: nat, inputs: seq<Input>)
    requires OpenSession(o, patience).status == Open
    ensures var queued := Queued(o, patience, inputs);
            && OnlyLastTerminal(queued)
            && (RunSession(o, patience, inputs).status == Normal <==> EndsTerminal(queued))
  {
    var ss, filter := OpenSession(o, patience), CursorVerdict(o.cursor, o.snap).filter;
    assert ss.segments[..0] == [] && Flat(ss.segments) == ss.segments[0];
    hide Flat, RunLive, CursorVerdict, OpeningBlocks, Generation, ReplayBlocks;
    LiveEnds(ss, filter, inputs);
  }

  /** One turn ends a session abnormally exactly when the queue has no room for all it has to say, or the
      key re-read timed out. */
  lemma AbnormalStepIff(ss: Session, filter: int, inp: Input)
    requires ss.segments != [] && ss.status == Open
    ensures var said := if inp.poll.Message? then Judge(ss.live, filter, inp.poll.ev).blocks else [];
            var live := if inp.poll.Message? then Judge(ss.live, filter, inp.poll.ev).next else ss.live;
            StepLive(ss, filter, inp).status == Abnormal <==>
            if said != [] then |said| > inp.room
            else inp.check.TimedOut? || (inp.check.Read? && |JudgeKey(live, inp.check.key).blocks| > inp.checkRoom)
  {
    hide Judge, JudgeKey;
  }

  // ----- what a cursor is good for ------------------------------------------------------------

  /** A cursor with a seq is honoured if and only if it names the present generation and a seq the counter
      has reached; any other one is announced to the client as a gap. */
  lemma HonouredIff(c: Cursor, snap: Snapshot)
    requires c.num > 0
    ensures var v := CursorVerdict(c, snap);
            && (!v.announce <==> c.num <= snap.counter && c.epoch.Some? && c.epoch == snap.key)
            && (!v.announce ==> v.filter == c.num)
            && (v.filter == c.num || v.filter == 0)
            && (v.filter == c.num <==>
                c.num <= snap.counter && snap.key.Some? && (c.epoch.None? || c.epoch == snap.key))
  {}

  /** An empty cursor asks for everything and is never refused. */
  lemma EmptyCursorIsHonoured(c: Cursor, snap: Snapshot)
    requires c.num == 0
    ensures CursorVerdict(c, snap) == Verdict(0, false)
  {}

  /** A refused cursor in a named session: the first block says so, with no seq to come back with, and names
      where the replay starts. */
  lemma RefusalIsTheFirstBlock(o: Opening)
    requires CursorVerdict(o.cursor, o.snap).announce && Generation(o.snap) != ""
    ensures var pending := Pending(o.snap.ring, CursorVerdict(o.cursor, o.snap).filter);
            && OpeningBlocks(o) != []
            && OpeningBlocks(o)[0] == Marker(Generation(o.snap), 0, if pending == [] then 0 else pending[0].num)
  {
    hide CursorVerdict, Generation, Pending, MinSeq, MaxSeq;
  }

  /** On a ring that still reaches back to the cursor, an honoured cursor is answered with exactly the
      events above it: no marker, nothing twice, nothing left out. */
  lemma HonouredCursorGetsTheRest(o: Opening)
    requires SoundSnapshot(o.snap) && !CursorVerdict(o.cursor, o.snap).announce
    requires o.snap.ring == [] || o.snap.ring[0].num <= o.cursor.num + 1
    ensures !HasMarker(OpeningBlocks(o))
    ensures forall e :: Data(e) in OpeningBlocks(o) <==> e in o.snap.ring && e.num > o.cursor.num
  {
    hide CursorVerdict, Generation, OpeningBlocks, Pending, SoundSnapshot;
    HonouredOpening(o);
    var g := Generation(o.snap);
    forall e ensures Data(e) in OpeningBlocks(o) <==> e in o.snap.ring && e.num > o.cursor.num {
      BrokerDedup.PendingInRing(o.snap.ring, o.cursor.num, e);
      DataBlocksHold(Pending(o.snap.ring, o.cursor.num), g, e);
    }
  }

  lemma HonouredOpening(o: Opening)
    requires SoundSnapshot(o.snap) && !CursorVerdict(o.cursor, o.snap).announce
    requires o.snap.ring == [] || o.snap.ring[0].num <= o.cursor.num + 1
    ensures var pending := Pending(o.snap.ring, o.cursor.num);
            && OpeningBlocks(o) == DataBlocks(pending, Generation(o.snap))
            && forall i :: 0 <= i < |pending| ==> pending[i].epoch == Generation(o.snap)
  {
    FirstPending(o.snap.ring, o.cursor.num);
    PendingFacts(o.snap, o.cursor.num);
    ReplayShape(o.snap.ring, o.cursor.num, Generation(o.snap), false);
    assert CursorVerdict(o.cursor, o.snap) == Verdict(o.cursor.num, false);
    hide Generation, ReplayBlocks, Pending, MinSeq, MaxSeq, SoundSnapshot, DataBlocks, CursorVerdict;
    var pending := Pending(o.snap.ring, o.cursor.num);
    assert [] + DataBlocks(pending, Generation(o.snap)) == DataBlocks(pending, Generation(o.snap));
  }

  lemma DataBlocksHold(events: seq<Event>, g: string, e: Event)
    requires forall i :: 0 <= i < |events| ==> events[i].epoch == g
    ensures Data(e) in DataBlocks(events, g) <==> e in events
  {
    var blocks := DataBlocks(events, g);
    if e in events {
      var i :| 0 <= i < |events| && events[i] == e;
      assert blocks[i] == Data(e);
    }
    if Data(e) in blocks {
      var i :| 0 <= i < |blocks| && blocks[i] == Data(e);
      assert events[i] == e;
    }
  }

  lemma FirstPending(ring: seq<Event>, filter: int)
    requires Consecutive(ring) && (ring == [] || ring[0].num <= filter + 1)
    ensures Pending(ring, filter) == [] || Pending(ring, filter)[0].num == filter + 1
  {
    var k := PendingIsSuffix(ring, filter);
  }
}
