/**
 The reading session behind `GET /v1/agent/runs/{runId}/events`: what the client cursor may do,
 what the replay of the ring queues, and how every live channel message is classified.

 A `Block` is one SSE block as it is handed to the delivery queue.  The queue is modelled by the
 room it has at each put; who drains it is the subject of module `Handover`.
 */
module Broker {
  import opened Common

  /** A ring element or channel message; `num` is its seq.  `terminal` says whether the payload names one of the
      three terminal run events. */
  datatype Event = Event(epoch: string, num: int, data: seq<byte>, terminal: bool)

  datatype Block =
    | Data(ev: Event)
    | Marker(epoch: string, num: int, fromSeq: int)   // run.truncated

  /** Where a reconnecting client left off; `num == 0` is the empty cursor. */
  datatype Cursor = Cursor(num: nat, epoch: Option<string>)

  /** The three open-phase reads: epoch key, counter and ring.  An unreadable key is `None`, an
      unreadable counter 0 and an unreadable ring `[]`, exactly as the transport reports them. */
  datatype Snapshot = Snapshot(key: Option<string>, counter: nat, ring: seq<Event>)

  datatype Verdict = Verdict(filter: nat, announce: bool)

  /** What the cursor is allowed to do in this session. */
  function CursorVerdict(c: Cursor, snap: Snapshot): Verdict {
    if c.num <= 0 then Verdict(0, false)
    else if c.num > snap.counter then Verdict(0, true)
    else if snap.key.None? || (c.epoch.Some? && c.epoch != snap.key) then Verdict(0, true)
    else if c.epoch.None? then Verdict(c.num, true)
    else Verdict(c.num, false)
  }

  /** The generation the session starts with: the key, else the last ring element, else none. */
  function Generation(snap: Snapshot): string {
    if snap.key.Some? && snap.key.value != "" then snap.key.value
    else if snap.ring != [] then snap.ring[|snap.ring| - 1].epoch
    else ""
  }

  datatype Replay = Replay(blocks: seq<Block>, first: int, min: int, max: int)

  /** Ring elements above the filter, oldest first. */
  function Pending(ring: seq<Event>, filter: int): seq<Event> {
    if ring == [] then []
    else (if ring[0].num > filter then [ring[0]] else []) + Pending(ring[1..], filter)
  }

  function Named(e: Event, generation: string): Event {
    if e.epoch == "" then e.(epoch := generation) else e
  }

  function DataBlocks(events: seq<Event>, generation: string): (blocks: seq<Block>)
    ensures |blocks| == |events|
    ensures forall i :: 0 <= i < |events| ==> blocks[i] == Data(Named(events[i], generation))
  {
    seq(|events|, i requires 0 <= i < |events| => Data(Named(events[i], generation)))
  }

  function MinSeq(events: seq<Event>): int
    requires events != []
  {
    if |events| == 1 then events[0].num else Min(events[0].num, MinSeq(events[1..]))
  }

  function MaxSeq(events: seq<Event>): int
    requires events != []
  {
    if |events| == 1 then events[0].num else Max(events[0].num, MaxSeq(events[1..]))
  }

  function ReplayBlocks(ring: seq<Event>, filter: int, generation: string, gapAnnounced: bool): Replay {
    var pending := Pending(ring, filter);
    if pending == [] then Replay([], 0, 0, 0)
    else
      var marker :=
        if pending[0].num > filter + 1 && !gapAnnounced
        then [Marker(Named(pending[0], generation).epoch, Max(filter, 0), pending[0].num)]
        else [];
      Replay(marker + DataBlocks(pending, generation), pending[0].num, MinSeq(pending), MaxSeq(pending))
  }

  /** The variables `_classify_live` carries from one message to the next. */
  datatype Live = Live(
    generation: string,
    delivered: int,        // dedup baseline: what this session queued
    arrived: int,          // last seq seen on the channel, whatever was done with it
    replayMin: int,        // lowest seq the replay queued, 0 once the numbering changed
    holeAnnounced: bool,
    pendingGap: bool)

  /** The judgement on one message: the blocks to offer, in order, and whether the baseline was
      reset by it.  A dropped message has no blocks. */
  datatype Ruling = Ruling(next: Live, blocks: seq<Block>, reset: bool)

  function Deliver(s: Live, filter: int, e: Event, announced: seq<Block>, reset: bool): Ruling {
    var late :=
      if s.delivered == 0 && announced == [] && e.num > filter + 1
      then [Marker(e.epoch, 0, e.num)] else [];
    Ruling(s.(arrived := e.num, delivered := Max(s.delivered, e.num)),
           announced + late + [Data(e)], reset)
  }

  /** One branch per message, mutually exclusive. */
  function Judge(s: Live, filter: int, e: Event): Ruling {
    if s.generation == "" then
      Deliver(s.(generation := e.epoch, pendingGap := false), filter, e,
              if s.pendingGap then [Marker(e.epoch, 0, 0)] else [], false)
    else if e.epoch != s.generation then
      Deliver(s.(generation := e.epoch, delivered := 0, replayMin := 0), filter, e,
              [Marker(e.epoch, 0, e.num)], true)
    else if e.num <= s.arrived then
      Deliver(s.(delivered := 0, replayMin := 0), filter, e, [Marker(e.epoch, 0, e.num)], true)
    else if e.num > s.delivered then
      Deliver(s, filter, e,
              if s.delivered > 0 && e.num > s.delivered + 1 then [Marker(e.epoch, 0, e.num)] else [], false)
    else if e.num < s.replayMin then
      Deliver(s.(holeAnnounced := true), filter, e,
              if !s.holeAnnounced then [Marker(e.epoch, 0, e.num)] else [], false)
    else
      Ruling(s.(arrived := e.num), [], false)
  }

  /** The periodic re-read of the epoch key. */
  function JudgeKey(s: Live, seen: Option<string>): Ruling {
    if seen.Some? && s.generation == "" then
      Ruling(s.(generation := seen.value, pendingGap := false),
             if s.pendingGap then [Marker(seen.value, 0, 0)] else [], false)
    else if seen.Some? && seen.value != s.generation then
      Ruling(s.(generation := seen.value, delivered := 0, arrived := 0, replayMin := 0),
             [Marker(seen.value, 0, 0)], true)
    else Ruling(s, [], false)
  }

  datatype Poll = Silence | Garbled | Message(ev: Event)

  datatype Check = NotDue | TimedOut | Read(key: Option<string>)

  /** One turn of the channel loop.  `room` and `checkRoom` are the free ordinary slots of the
      delivery queue when the message is handled and when the key re-read returns. */
  datatype Input = Input(poll: Poll, room: nat, check: Check, checkRoom: nat)

  datatype Status = Open | Normal | Abnormal

  /** Everything queued so far, cut at the baseline resets, plus the loop variables. */
  datatype Session = Session(live: Live, segments: seq<seq<Block>>, status: Status)

  function Flat(segments: seq<seq<Block>>): seq<Block> {
    if segments == [] then [] else Flat(segments[..|segments| - 1]) + segments[|segments| - 1]
  }

  /** Queue blocks at the end of the current segment, or in a new one after a reset. */
  function Extend(segments: seq<seq<Block>>, blocks: seq<Block>, reset: bool): (r: seq<seq<Block>>)
    requires segments != []
    ensures r != []
  {
    if reset then segments + [blocks]
    else segments[..|segments| - 1] + [segments[|segments| - 1] + blocks]
  }

  /** Offer the blocks of a ruling; the depth guard ends the session at the first that has no room. */
  function Offer(ss: Session, r: Ruling, room: nat, after: Status): Session
    requires ss.segments != []
  {
    if |r.blocks| <= room then
      Session(r.next, if r.blocks == [] then ss.segments else Extend(ss.segments, r.blocks, r.reset), after)
    else if room == 0 then ss.(status := Abnormal)
    else Session(r.next, Extend(ss.segments, r.blocks[..room], r.reset), Abnormal)
  }

  function StepKey(ss: Session, check: Check, room: nat): (r: Session)
    requires ss.segments != []
    ensures r.segments != []
  {
    match check
    case NotDue => ss
    case TimedOut => ss.(status := Abnormal)
    case Read(seen) => Offer(ss, JudgeKey(ss.live, seen), room, Open)
  }

  function StepLive(ss: Session, filter: int, inp: Input): (r: Session)
    requires ss.segments != []
    ensures r.segments != []
  {
    if ss.status != Open then ss
    else if inp.poll.Message? then
      var e := inp.poll.ev;
      var ruling := Judge(ss.live, filter, e);
      if ruling.blocks == [] then StepKey(ss.(live := ruling.next), inp.check, inp.checkRoom)
      else Offer(ss, ruling, inp.room, if e.terminal then Normal else Open)
    else StepKey(ss, inp.check, inp.checkRoom)
  }

  function RunLive(ss: Session, filter: int, inputs: seq<Input>): (r: Session)
    requires ss.segments != []
    ensures r.segments != []
    decreases |inputs|
  {
    if inputs == [] then ss
    else StepLive(RunLive(ss, filter, inputs[..|inputs| - 1]), filter, inputs[|inputs| - 1])
  }

  /** What the open phase found besides the snapshot. */
  datatype Opening = Opening(
    cursor: Cursor,
    snap: Snapshot,
    terminalAtOpen: bool,     // rule 2
    lease: Option<bool>)      // tri-state probe, rule 3

  function OpeningBlocks(o: Opening): seq<Block> {
    var v := CursorVerdict(o.cursor, o.snap);
    var g := Generation(o.snap);
    var replay := ReplayBlocks(o.snap.ring, v.filter, g, v.announce);
    (if v.announce && g != "" then [Marker(g, 0, replay.first)] else []) + replay.blocks
  }

  predicate HasTerminal(blocks: seq<Block>) {
    exists i :: 0 <= i < |blocks| && blocks[i].Data? && blocks[i].ev.terminal
  }

  /** The session as it stands when the replay has been queued.  `patience` is how many opening
      blocks a client takes before the replay budget runs out on it. */
  function OpenSession(o: Opening, patience: nat): (r: Session)
    ensures |r.segments| == 1
  {
    var v := CursorVerdict(o.cursor, o.snap);
    var g := Generation(o.snap);
    var replay := ReplayBlocks(o.snap.ring, v.filter, g, v.announce);
    var live := Live(g, replay.max, 0, replay.min, false, v.announce && g == "");
    if o.snap.ring == [] && o.lease == Some(false) && !o.terminalAtOpen then Session(live, [[]], Normal)
    else
      var blocks := OpeningBlocks(o);
      if patience < |blocks| then Session(live, [blocks[..patience]], Abnormal)
      else Session(live, [blocks], if o.terminalAtOpen || HasTerminal(blocks) then Normal else Open)
  }

  /** A whole session: open, replay, then the live channel. */
  function RunSession(o: Opening, patience: nat, inputs: seq<Input>): (r: Session)
    ensures r.segments != []
  {
    RunLive(OpenSession(o, patience), CursorVerdict(o.cursor, o.snap).filter, inputs)
  }

  /** Every block the session handed to its delivery queue, in order. */
  function Queued(o: Opening, patience: nat, inputs: seq<Input>): seq<Block> {
    Flat(RunSession(o, patience, inputs).segments)
  }

  // ----- the channel loop itself ------------------------------------------------------------

  lemma FlatExtend(segments: seq<seq<Block>>, blocks: seq<Block>, reset: bool)
    requires segments != []
    ensures Flat(Extend(segments, blocks, reset)) == Flat(segments) + blocks
  {
    var n := |segments|;
    var r := Extend(segments, blocks, reset);
    if reset {
      assert r[..n] == segments;
    } else {
      assert r[..n - 1] == segments[..n - 1];
      assert Flat(segments) + blocks == Flat(segments[..n - 1]) + (segments[n - 1] + blocks);
    }
  }

  /** Once a session has ended, nothing on the channel can change what it queued. */
  lemma {:induction false} EndedStays(ss: Session, filter: int, inputs: seq<Input>, k: nat)
    requires ss.segments != []
    requires k <= |inputs| && RunLive(ss, filter, inputs[..k]).status != Open
    ensures RunLive(ss, filter, inputs) == RunLive(ss, filter, inputs[..k])
    decreases |inputs|
  {
    if k == |inputs| {
      assert inputs[..k] == inputs;
    } else {
      var init := inputs[..|inputs| - 1];
      assert init[..k] == inputs[..k];
      EndedStays(ss, filter, init, k);
    }
  }

  /** What the depth guard lets through, whatever the ruling was. */
  lemma OfferQueues(ss: Session, r: Ruling, room: nat, after: Status)
    requires ss.segments != []
    ensures var o := Offer(ss, r, room, after);
            && Flat(o.segments) == Flat(ss.segments) + r.blocks[..Min(room, |r.blocks|)]
            && o.status == (if |r.blocks| <= room then after else Abnormal)
            && (|r.blocks| <= room ==> o.live == r.next)
  {
    var k := Min(room, |r.blocks|);
    if k > 0 {
      FlatExtend(ss.segments, r.blocks[..k], r.reset);
      assert k == |r.blocks| ==> r.blocks[..k] == r.blocks;
    }
  }

  /** The branches on one parsed message: new loop variables and the blocks to offer. */
  method ClassifyMessage(s: Live, filter: int, event: Event) returns (next: Live, due: seq<Block>)
    ensures next == Judge(s, filter, event).next && due == Judge(s, filter, event).blocks
  {
    var currentGeneration, delivered, replayMin := s.generation, s.delivered, s.replayMin;
    var holeAnnounced, pendingGap := s.holeAnnounced, s.pendingGap;
    var deliver := true;
    due := [];
    if currentGeneration == "" {
      currentGeneration := event.epoch;
      if pendingGap {
        pendingGap, due := false, [Marker(event.epoch, 0, 0)];
      }
    } else if event.epoch != currentGeneration {
      currentGeneration, delivered, replayMin := event.epoch, 0, 0;
      due := [Marker(event.epoch, 0, event.num)];
    } else if event.num <= s.arrived {
      delivered, replayMin := 0, 0;
      due := [Marker(event.epoch, 0, event.num)];
    } else if event.num > delivered {
      if delivered > 0 && event.num > delivered + 1 {
        due := [Marker(event.epoch, 0, event.num)];
      }
    } else if event.num < replayMin {
      if !holeAnnounced {
        holeAnnounced, due := true, [Marker(event.epoch, 0, event.num)];
      }
    } else {
      deliver := false;
    }
    if deliver {
      if delivered == 0 && due == [] && event.num > filter + 1 {
        due := [Marker(event.epoch, 0, event.num)];
      }
      delivered := Max(delivered, event.num);
      due := due + [Data(event)];
    }
    next := Live(currentGeneration, delivered, event.num, replayMin, holeAnnounced, pendingGap);
  }

  /** The periodic re-read of the key: classification, so it lives in the reader. */
  method RecheckKey(s: Live, key: Option<string>) returns (next: Live, due: seq<Block>)
    ensures next == JudgeKey(s, key).next && due == JudgeKey(s, key).blocks && |due| <= 1
  {
    next, due := s, [];
    if key.Some? && s.generation == "" {
      if s.pendingGap {
        due := [Marker(key.value, 0, 0)];
      }
      next := next.(generation := key.value, pendingGap := false);
    } else if key.Some? && key.value != s.generation {
      due := [Marker(key.value, 0, 0)];
      next := next.(generation := key.value, delivered := 0, arrived := 0, replayMin := 0);
    }
  }

  /** One turn of the channel loop, against one step of the session. */
  method Turn(live: Live, queued: seq<Block>, filter: int, inp: Input, ghost ss: Session)
    returns (live': Live, queued': seq<Block>, status: Status)
    requires ss.segments != [] && ss.status == Open
    requires live == ss.live && queued == Flat(ss.segments)
    ensures var r := StepLive(ss, filter, inp);
            && queued' == Flat(r.segments) && status == r.status
            && (status == Open ==> live' == r.live)
  {
    live', queued', status := live, queued, Open;
    ghost var mid := ss;
    if inp.poll.Message? {
      var due;
      live', due := ClassifyMessage(live, filter, inp.poll.ev);
      if due != [] {
        var after := if inp.poll.ev.terminal then Normal else Open;
        OfferQueues(ss, Judge(ss.live, filter, inp.poll.ev), inp.room, after);
        queued' := queued + due[..Min(inp.room, |due|)];
        return live', queued', if |due| > inp.room then Abnormal else after;
      }
      mid := ss.(live := live');
    }
    match inp.check
    case NotDue =>
    case TimedOut => status := Abnormal;
    case Read(key) =>
      OfferQueues(mid, JudgeKey(mid.live, key), inp.checkRoom, Open);
      var due;
      live', due := RecheckKey(live', key);
      queued' := queued + due[..Min(inp.checkRoom, |due|)];
      status := if |due| > inp.checkRoom then Abnormal else Open;
  }

  /** The live loop.  `inputs` is what the channel, the clock and the queue did; running out of
      inputs is the channel ending, which is a normal end. */
  method ClassifyLive(generation: string, replayMax: int, replayMin: int, filter: int, gap: bool,
                      inputs: seq<Input>)
    returns (queued: seq<Block>, normal: bool)
    ensures var r := RunLive(Session(Live(generation, replayMax, 0, replayMin, false, gap), [[]], Open),
                             filter, inputs);
            queued == Flat(r.segments) && normal == (r.status != Abnormal)
  {
    var live := Live(generation, replayMax, 0, replayMin, false, gap);
    ghost var start := Session(live, [[]], Open);
    queued := [];
    assert Flat([]) == [] && start.segments[..0] == [];
    for i := 0 to |inputs|
      invariant var model := RunLive(start, filter, inputs[..i]);
                model.status == Open && queued == Flat(model.segments) && live == model.live
    {
      assert inputs[..i + 1][..i] == inputs[..i];
      var status;
      live, queued, status := Turn(live, queued, filter, inputs[i], RunLive(start, filter, inputs[..i]));
      if status != Open {
        EndedStays(start, filter, inputs, i + 1);
        return queued, status == Normal;
      }
    }
    assert inputs[..|inputs|] == inputs;
    normal := true;
  }
}
