/**
 Sound deduplication: what a session may drop, and where the drop rule needs the write side to give
 every life of the counter its own epoch.
 */
module BrokerDedup {
  import opened Common
  import opened Broker
  import opened BrokerGaps

  /** One message causes at most one marker, and the message itself comes last.  The marker is of the
      message's generation, claims no seq, and names the message as where the stream goes on, unless it
      announces a refused cursor. */
  lemma OneMarkerPerMessage(s: Live, filter: int, e: Event)
    ensures var blocks := Judge(s, filter, e).blocks;
            || blocks == []
            || blocks == [Data(e)]
            || (|blocks| == 2 && blocks[1] == Data(e)
                && blocks[0] == Marker(e.epoch, 0, if s.generation == "" && s.pendingGap then 0 else e.num))
  {}

  lemma KeyOnlyMarks(s: Live, seen: Option<string>)
    ensures var blocks := JudgeKey(s, seen).blocks;
            blocks == [] || (seen.Some? && blocks == [Marker(seen.value, 0, 0)])
  {}

  /** The key re-read starts a new numbering exactly when it shows another generation than a named
      session's. */
  lemma KeyResetsIff(s: Live, seen: Option<string>)
    ensures JudgeKey(s, seen).reset <==> seen.Some? && s.generation != "" && seen.value != s.generation
    ensures JudgeKey(s, seen).blocks != [] <==>
            JudgeKey(s, seen).reset || (seen.Some? && s.generation == "" && s.pendingGap)
  {}

  /** A counter that ran backwards inside one generation is always announced and delivered. */
  lemma RegressionIsAnnounced(s: Live, filter: int, e: Event)
    requires s.generation != "" && e.epoch == s.generation && e.num <= s.arrived
    ensures Judge(s, filter, e).blocks == [Marker(e.epoch, 0, e.num), Data(e)]
    ensures Judge(s, filter, e).reset && Judge(s, filter, e).next.delivered == Max(0, e.num)
  {}

  // ----- the replay window --------------------------------------------------------------------

  /** Below the baseline and above the last arrival there is only what the replay queued. */
  ghost predicate Window(s: Live, pending: seq<Event>) {
    && s.arrived >= 0
    && (s.generation == "" ==> s.arrived == 0 && s.replayMin == 0)
    && (if s.replayMin == 0 then s.delivered <= s.arrived
        else && pending != []
             && s.replayMin == pending[0].num && s.generation == pending[0].epoch
             && s.delivered <= Max(pending[|pending| - 1].num, s.arrived))
  }

  lemma WindowJudge(s: Live, filter: int, e: Event, pending: seq<Event>)
    requires Window(s, pending) && SoundEvent(e)
    requires forall i :: 0 <= i < |pending| ==> pending[i].epoch != ""
    ensures Window(Judge(s, filter, e).next, pending)
  {}

  lemma WindowKey(s: Live, seen: Option<string>, pending: seq<Event>)
    requires Window(s, pending) && (seen.Some? ==> seen.value != "")
    requires forall i :: 0 <= i < |pending| ==> pending[i].epoch != ""
    ensures Window(JudgeKey(s, seen).next, pending)
  {}

  lemma WindowStep(ss: Session, filter: int, inp: Input, pending: seq<Event>)
    requires ss.segments != [] && ss.status == Open && Window(ss.live, pending) && SoundInput(inp)
    requires forall i :: 0 <= i < |pending| ==> pending[i].epoch != ""
    ensures Window(StepLive(ss, filter, inp).live, pending)
  {
    hide Window, Judge, JudgeKey;
    var mid := ss.live;
    if inp.poll.Message? {
      WindowJudge(ss.live, filter, inp.poll.ev, pending);
      mid := Judge(ss.live, filter, inp.poll.ev).next;
    }
    if inp.check.Read? {
      WindowKey(mid, inp.check.key, pending);
    }
  }

  lemma {:induction false} WindowHolds(ss: Session, filter: int, inputs: seq<Input>, pending: seq<Event>)
    requires ss.segments != [] && Window(ss.live, pending) && SoundInputs(inputs)
    requires forall i :: 0 <= i < |pending| ==> pending[i].epoch != ""
    ensures Window(RunLive(ss, filter, inputs).live, pending)
    decreases |inputs|
  {
    hide Window;
    if inputs != [] {
      var init := inputs[..|inputs| - 1];
      WindowHolds(ss, filter, init, pending);
      var prior := RunLive(ss, filter, init);
      if prior.status == Open {
        WindowStep(prior, filter, inputs[|inputs| - 1], pending);
      }
    }
  }

  lemma {:induction false} PendingInRing(ring: seq<Event>, filter: int, e: Event)
    ensures e in Pending(ring, filter) <==> e in ring && e.num > filter
  {
    if ring != [] {
      PendingInRing(ring[1..], filter, e);
    }
  }

  /** The drop rule, read against the window. */
  lemma DropIsInWindow(s: Live, filter: int, e: Event, pending: seq<Event>)
    requires Window(s, pending) && Consecutive(pending) && SoundEvent(e)
    requires forall i :: 0 <= i < |pending| ==> pending[i].epoch == pending[0].epoch
    requires Judge(s, filter, e).blocks == []
    ensures exists d :: d in pending && d.epoch == e.epoch && d.num == e.num
  {
    var d := pending[e.num - pending[0].num];
    assert d in pending && d.epoch == e.epoch && d.num == e.num;
  }

  /** The session's opening and what its window is about. */
  lemma OpeningWindow(o: Opening, patience: nat)
    requires SoundSnapshot(o.snap)
    ensures Window(OpenSession(o, patience).live, Pending(o.snap.ring, CursorVerdict(o.cursor, o.snap).filter))
  {
    hide CursorVerdict, OpeningBlocks, Generation, Pending, ReplayBlocks, SoundSnapshot;
    var head, pending := OpeningShape(o);
  }

  /** A parseable live message is dropped only if this session's replay queued the same
      (epoch, seq); the session being open, the whole replay has been handed to the queue. */
  lemma DroppedWasReplayed(o: Opening, patience: nat, inputs: seq<Input>, e: Event)
    requires SoundSnapshot(o.snap) && SoundInputs(inputs) && SoundEvent(e)
    requires var ss := RunSession(o, patience, inputs);
             ss.status == Open && Judge(ss.live, CursorVerdict(o.cursor, o.snap).filter, e).blocks == []
    ensures exists d :: d in o.snap.ring && d.epoch == e.epoch && d.num == e.num && Data(d) in OpeningBlocks(o)
  {
    hide CursorVerdict, OpeningBlocks, Generation, Pending, ReplayBlocks, SoundSnapshot, Judge, Window;
    hide OpenSession, RunLive;
    var filter := CursorVerdict(o.cursor, o.snap).filter;
    var head, pending := OpeningShape(o);
    OpeningWindow(o, patience);
    WindowHolds(OpenSession(o, patience), filter, inputs, pending);
    DropIsInWindow(RunSession(o, patience, inputs).live, filter, e, pending);
    var d :| d in pending && d.epoch == e.epoch && d.num == e.num;
    PendingInRing(o.snap.ring, filter, d);
    var i :| 0 <= i < |pending| && pending[i] == d;
    assert OpeningBlocks(o)[|head| + i] == Data(d);
  }

  /** The guard of the one branch that drops a message. */
  predicate LooksReplayed(s: Live, e: Event) {
    && s.generation != "" && e.epoch == s.generation
    && s.arrived < e.num <= s.delivered && s.replayMin <= e.num
  }

  lemma DroppedIff(s: Live, filter: int, e: Event)
    ensures Judge(s, filter, e).blocks == [] <==> LooksReplayed(s, e)
  {}

  /** A message is lost, neither offered nor queued by the replay, if and only if it passes that guard
      without being in the ring the replay read. */
  lemma LostIff(o: Opening, patience: nat, inputs: seq<Input>, e: Event)
    requires SoundSnapshot(o.snap) && SoundInputs(inputs) && SoundEvent(e)
    requires RunSession(o, patience, inputs).status == Open
    ensures var live := RunSession(o, patience, inputs).live;
            Judge(live, CursorVerdict(o.cursor, o.snap).filter, e).blocks == [] && Data(e) !in OpeningBlocks(o) <==>
            LooksReplayed(live, e) && e !in o.snap.ring
  {
    hide CursorVerdict, OpeningBlocks, Pending, ReplayBlocks, Judge, OpenSession, RunLive, Generation, SoundSnapshot;
    hide LooksReplayed;
    var live, filter := RunSession(o, patience, inputs).live, CursorVerdict(o.cursor, o.snap).filter;
    DroppedIff(live, filter, e);
    if LooksReplayed(live, e) {
      DropLosesNothingIff(o, patience, inputs, e);
    }
  }

  /** While an epoch names one life of the counter, so that epoch and seq name one event, nothing is
      ever lost. */
  lemma OneLifeLosesNothing(o: Opening, patience: nat, inputs: seq<Input>, e: Event)
    requires SoundSnapshot(o.snap) && SoundInputs(inputs) && SoundEvent(e)
    requires RunSession(o, patience, inputs).status == Open
    requires forall d :: d in o.snap.ring && d.epoch == e.epoch && d.num == e.num ==> d == e
    ensures var live := RunSession(o, patience, inputs).live;
            Judge(live, CursorVerdict(o.cursor, o.snap).filter, e).blocks == [] ==> Data(e) in OpeningBlocks(o)
  {
    hide CursorVerdict, OpeningBlocks, Pending, ReplayBlocks, Judge, OpenSession, RunLive, Generation, SoundSnapshot;
    if Judge(RunSession(o, patience, inputs).live, CursorVerdict(o.cursor, o.snap).filter, e).blocks == [] {
      DroppedWasReplayed(o, patience, inputs, e);
    }
  }

  /** A dropped message had been queued exactly when it is itself in the ring the replay read. */
  lemma DropLosesNothingIff(o: Opening, patience: nat, inputs: seq<Input>, e: Event)
    requires SoundSnapshot(o.snap) && SoundInputs(inputs) && SoundEvent(e)
    requires var ss := RunSession(o, patience, inputs);
             ss.status == Open && Judge(ss.live, CursorVerdict(o.cursor, o.snap).filter, e).blocks == []
    ensures Data(e) in OpeningBlocks(o) <==> e in o.snap.ring
  {
    hide CursorVerdict, OpeningBlocks, Pending, ReplayBlocks, Judge, OpenSession, RunLive, Generation, SoundSnapshot;
    DroppedWasReplayed(o, patience, inputs, e);
    var head, pending := OpeningShape(o);
    if Data(e) in OpeningBlocks(o) {
      var i :| 0 <= i < |OpeningBlocks(o)| && OpeningBlocks(o)[i] == Data(e);
      assert DataBlocks(pending, Generation(o.snap))[i - |head|] == Data(e);
      assert pending[i - |head|] == e;
      PendingInRing(o.snap.ring, CursorVerdict(o.cursor, o.snap).filter, e);
    }
    if e in o.snap.ring {
      var d :| d in o.snap.ring && d.epoch == e.epoch && d.num == e.num && Data(d) in OpeningBlocks(o);
      OneEventPerSeq(o.snap, d, e);
    }
  }

  lemma OneEventPerSeq(snap: Snapshot, d: Event, e: Event)
    requires SoundSnapshot(snap) && d in snap.ring && e in snap.ring && d.num == e.num
    ensures d == e
  {}

  /** The assumption is needed: a counter reset under the same epoch, before anything arrived live,
      looks like the replay overlap, and the new event is dropped although it was never queued. */
  lemma SameEpochResetIsLost()
    ensures var old1 := Event("A", 1, [1], false);
            var new1 := Event("A", 1, [2], false);
            var o := Opening(Cursor(0, None), Snapshot(Some("A"), 1, [old1]), false, Some(true));
            var ss := RunSession(o, 1, [Input(Message(new1), 10, NotDue, 0)]);
            && SoundSnapshot(o.snap) && SoundEvent(new1)
            && ss.status == Open && Flat(ss.segments) == [Data(old1)]
  {
    var old1 := Event("A", 1, [1], false);
    var new1 := Event("A", 1, [2], false);
    var o := Opening(Cursor(0, None), Snapshot(Some("A"), 1, [old1]), false, Some(true));
    var inp := Input(Message(new1), 10, NotDue, 0);
    assert Pending([old1], 0) == [old1] + Pending([], 0);
    assert OpeningBlocks(o) == [Data(old1)];
    var start := OpenSession(o, 1);
    assert start == Session(Live("A", 1, 0, 1, false, false), [[Data(old1)]], Open);
    assert [inp][..0] == [];
    assert RunLive(start, 0, [inp]) == StepLive(start, 0, inp);
    assert Flat([[Data(old1)]]) == Flat([]) + [Data(old1)];
  }
}
