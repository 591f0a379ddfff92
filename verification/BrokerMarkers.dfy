/**
 No false alarm: every `run.truncated` of a session has a reason that can be read off its blocks,
 and a channel that loses nothing is relayed without a single one.
 */
module BrokerMarkers {
  import opened Common
  import opened Broker
  import opened BrokerGaps
  import BrokerDedup

  // ----- a reason for every marker ------------------------------------------------------------

  /** Seq `n` is neither the successor of the highest seq before it nor, with none before it, within what
      the client lacks first; or it lies below one already queued. */
  predicate Jumps(prior: seq<Block>, n: int, filter: int) {
    if Nums(prior) == {} then n > filter + 1
    else (forall m :: m in Nums(prior) ==> m + 1 < n) || exists m :: m in Nums(prior) && n < m
  }

  /** Every marker stands right before an event that jumps, except one at the head of a segment that has
      a reason of its own. */
  ghost predicate Justified(seg: seq<Block>, filter: int, headHasReason: bool) {
    forall j :: 0 <= j < |seg| && seg[j].Marker? && (j > 0 || !headHasReason) ==> JumpsNext(seg, j, filter)
  }

  ghost predicate JumpsNext(seg: seq<Block>, j: nat, filter: int)
    requires j < |seg|
  {
    j + 1 < |seg| && seg[j + 1].Data? && Jumps(seg[..j], seg[j + 1].ev.num, filter)
  }

  /** The same of a segment whose last ruling the depth guard cut behind its marker. */
  ghost predicate JustifiedButLast(seg: seq<Block>, filter: int, headHasReason: bool) {
    || Justified(seg, filter, headHasReason)
    || (seg != [] && seg[|seg| - 1].Marker? && Justified(seg[..|seg| - 1], filter, headHasReason))
  }

  /** The head of the first segment has a reason of its own when the cursor was refused, the head of every
      other segment because a reset opened it. */
  ghost predicate AllJustified(segments: seq<seq<Block>>, filter: int, refused: bool) {
    forall k :: 0 <= k < |segments| ==> Justified(segments[k], filter, k > 0 || refused)
  }

  ghost predicate MarkersHaveReason(ss: Session, filter: int, refused: bool)
    requires ss.segments != []
  {
    var n := |ss.segments| - 1;
    && AllJustified(ss.segments[..n], filter, refused)
    && (if ss.status == Abnormal then JustifiedButLast(ss.segments[n], filter, n > 0 || refused)
        else Justified(ss.segments[n], filter, n > 0 || refused))
  }

  lemma JustifiedData(seg: seq<Block>, b: Block, filter: int, head: bool)
    requires Justified(seg, filter, head) && b.Data?
    ensures Justified(seg + [b], filter, head)
  {
    var all := seg + [b];
    forall j | 0 <= j < |all| && all[j].Marker? && (j > 0 || !head) ensures JumpsNext(all, j, filter) {
      assert seg[j] == all[j] && JumpsNext(seg, j, filter);
      assert all[..j] == seg[..j] && all[j + 1] == seg[j + 1];
    }
  }

  lemma JustifiedJump(seg: seq<Block>, m: Block, b: Block, filter: int, head: bool)
    requires Justified(seg, filter, head) && m.Marker? && b.Data?
    requires Jumps(seg, b.ev.num, filter) || (seg == [] && head)
    ensures Justified(seg + [m, b], filter, head)
  {
    var all := seg + [m, b];
    forall j | 0 <= j < |all| && all[j].Marker? && (j > 0 || !head) ensures JumpsNext(all, j, filter) {
      if j < |seg| {
        assert seg[j] == all[j] && JumpsNext(seg, j, filter);
        assert all[..j] == seg[..j] && all[j + 1] == seg[j + 1];
      } else {
        assert all[..j] == seg;
      }
    }
  }

  /** What one message may say inside a segment. */
  lemma MarkerNeedsJump(seg: seq<Block>, s: Live, filter: int, e: Event)
    requires Truthful(seg, s, filter) && SoundEvent(e) && !Judge(s, filter, e).reset
    requires |Judge(s, filter, e).blocks| == 2
    ensures s.pendingGap || Jumps(seg, e.num, filter)
    ensures s.pendingGap ==> seg == []
  {
    hide Orderly;
    if s.generation != "" && e.num <= s.delivered {
      assert s.delivered in Nums(seg);
    }
  }

  /** Only a refused cursor leaves a gap to be announced later. */
  ghost predicate GapInv(ss: Session, filter: int, refused: bool) {
    && ss.segments != [] && MarkersHaveReason(ss, filter, refused)
    && (ss.status == Open && ss.live.pendingGap ==> refused && |ss.segments| == 1)
  }

  /** A ruling's blocks and what they do to the segment they are offered to. */
  ghost predicate GoodRuling(ss: Session, r: Ruling, filter: int, refused: bool)
    requires ss.segments != []
  {
    var last, head := ss.segments[|ss.segments| - 1], |ss.segments| > 1 || refused;
    && Justified(if r.reset then r.blocks else last + r.blocks, filter, r.reset || head)
    && (|r.blocks| == 0 || (|r.blocks| == 1 && (r.blocks[0].Marker? ==> r.reset || (last == [] && head)))
        || (|r.blocks| == 2 && r.blocks[0].Marker? && r.blocks[1].Data?))
    && (r.reset ==> r.blocks != [] && r.blocks[0].Marker?)
    && (r.next.pendingGap ==> ss.live.pendingGap && !r.reset)
  }

  lemma ExtendReason(segments: seq<seq<Block>>, blocks: seq<Block>, reset: bool, filter: int, refused: bool)
    requires segments != []
    requires AllJustified(segments[..|segments| - 1], filter, refused)
    requires reset ==> Justified(segments[|segments| - 1], filter, |segments| > 1 || refused)
    ensures var all := Extend(segments, blocks, reset);
            && AllJustified(all[..|all| - 1], filter, refused)
            && all[|all| - 1] == (if reset then blocks else segments[|segments| - 1] + blocks)
            && |all| == |segments| + (if reset then 1 else 0)
  {
    hide Justified;
    var n := |segments|;
    var all := Extend(segments, blocks, reset);
    if reset {
      assert all[..n] == segments;
      forall k | 0 <= k < n ensures Justified(all[..n][k], filter, k > 0 || refused) {
        assert k < n - 1 ==> segments[..n - 1][k] == segments[k];
      }
    } else {
      assert all[..n - 1] == segments[..n - 1];
    }
  }

  lemma CutIsJustifiedButLast(before: seq<Block>, m: Block, filter: int, head: bool)
    requires Justified(before, filter, head) && m.Marker?
    ensures JustifiedButLast(before + [m], filter, head)
  {
    assert (before + [m])[..|before|] == before;
  }

  /** A whole ruling is queued. */
  lemma OfferAll(ss: Session, filter: int, refused: bool, r: Ruling, room: nat, after: Status)
    requires ss.segments != [] && GapInv(ss, filter, refused) && ss.status == Open && after != Abnormal
    requires GoodRuling(ss, r, filter, refused) && |r.blocks| <= room
    ensures GapInv(Offer(ss, r, room, after), filter, refused)
  {
    hide Justified, JustifiedButLast, AllJustified, Extend;
    var last := ss.segments[|ss.segments| - 1];
    if r.blocks == [] {
      assert last + r.blocks == last;
    } else {
      ExtendReason(ss.segments, r.blocks, r.reset, filter, refused);
    }
  }

  /** Only its marker is queued. */
  lemma OfferMarker(ss: Session, filter: int, refused: bool, r: Ruling, after: Status)
    requires ss.segments != [] && GapInv(ss, filter, refused) && ss.status == Open && after != Abnormal
    requires GoodRuling(ss, r, filter, refused) && |r.blocks| == 2
    ensures GapInv(Offer(ss, r, 1, after), filter, refused)
  {
    var last, head := ss.segments[|ss.segments| - 1], |ss.segments| > 1 || refused;
    EmptyIsJustified(filter);
    hide Justified, JustifiedButLast, AllJustified, Extend;
    assert r.blocks[..1] == [r.blocks[0]];
    CutIsJustifiedButLast(if r.reset then [] else last, r.blocks[0], filter, r.reset || head);
    assert [] + [r.blocks[0]] == [r.blocks[0]];
    ExtendReason(ss.segments, [r.blocks[0]], r.reset, filter, refused);
  }

  lemma OfferReason(ss: Session, filter: int, refused: bool, r: Ruling, room: nat, after: Status)
    requires ss.segments != [] && GapInv(ss, filter, refused) && ss.status == Open && after != Abnormal
    requires GoodRuling(ss, r, filter, refused)
    ensures GapInv(Offer(ss, r, room, after), filter, refused)
  {
    if |r.blocks| <= room {
      OfferAll(ss, filter, refused, r, room, after);
    } else if room == 0 {
      TimeoutKeeps(ss, filter, refused);
    } else {
      OfferMarker(ss, filter, refused, r, after);
    }
  }

  lemma StepReason(ss: Session, filter: int, refused: bool, inp: Input)
    requires SoundSession(ss, filter) && GapInv(ss, filter, refused) && SoundInput(inp)
    ensures GapInv(StepLive(ss, filter, inp), filter, refused)
  {
    if ss.status == Open {
      hide GapInv, GoodRuling, Offer, Judge, JudgeKey, SoundSession;
      var mid := ss;
      if inp.poll.Message? {
        var e := inp.poll.ev;
        var r := Judge(ss.live, filter, e);
        MessageIsGood(ss, filter, refused, e);
        if r.blocks != [] {
          OfferReason(ss, filter, refused, r, inp.room, if e.terminal then Normal else Open);
        } else {
          mid := ss.(live := r.next);
          DropKeeps(ss, filter, refused, e);
        }
      }
      if inp.check.Read? && (inp.poll.Message? ==> Judge(ss.live, filter, inp.poll.ev).blocks == []) {
        KeyIsGood(mid, filter, refused, inp.check.key);
        OfferReason(mid, filter, refused, JudgeKey(mid.live, inp.check.key), inp.checkRoom, Open);
      }
      TimeoutKeeps(mid, filter, refused);
    }
  }

  lemma TimeoutKeeps(ss: Session, filter: int, refused: bool)
    requires GapInv(ss, filter, refused) && ss.status == Open
    ensures GapInv(ss.(status := Abnormal), filter, refused)
  {
    hide Justified;
  }

  lemma MessageIsGood(ss: Session, filter: int, refused: bool, e: Event)
    requires SoundSession(ss, filter) && GapInv(ss, filter, refused) && SoundEvent(e) && ss.status == Open
    ensures GoodRuling(ss, Judge(ss.live, filter, e), filter, refused)
  {
    var r := Judge(ss.live, filter, e);
    var n := |ss.segments|;
    var last, head := ss.segments[n - 1], n > 1 || refused;
    BrokerDedup.OneMarkerPerMessage(ss.live, filter, e);
    ResetHasMarker(ss.live, filter, e);
    if |r.blocks| == 2 && !r.reset {
      MarkerNeedsJump(last, ss.live, filter, e);
    }
    hide Judge, Justified, Truthful, SoundSegment, Jumps;
    if r.blocks == [] {
      assert last + r.blocks == last;
    } else if r.reset {
      EmptyIsJustified(filter);
      JustifiedJump([], r.blocks[0], r.blocks[1], filter, true);
      assert [] + [r.blocks[0], r.blocks[1]] == r.blocks;
    } else if |r.blocks| == 1 {
      JustifiedData(last, r.blocks[0], filter, head);
    } else {
      JustifiedJump(last, r.blocks[0], r.blocks[1], filter, head);
      assert [r.blocks[0], r.blocks[1]] == r.blocks;
    }
  }

  lemma EmptyIsJustified(filter: int)
    ensures Justified([], filter, true)
  {}

  lemma ResetHasMarker(s: Live, filter: int, e: Event)
    requires s.pendingGap ==> s.generation == ""
    ensures Judge(s, filter, e).reset ==> |Judge(s, filter, e).blocks| == 2
    ensures !Judge(s, filter, e).next.pendingGap
  {}

  lemma DropKeeps(ss: Session, filter: int, refused: bool, e: Event)
    requires SoundSession(ss, filter) && GapInv(ss, filter, refused) && SoundEvent(e) && ss.status == Open
    requires Judge(ss.live, filter, e).blocks == []
    ensures var mid := ss.(live := Judge(ss.live, filter, e).next);
            GapInv(mid, filter, refused) && SoundSession(mid, filter)
  {
    var last := ss.segments[|ss.segments| - 1];
    ResetHasMarker(ss.live, filter, e);
    DropTruthful(last, ss.live, filter, e);
    hide Justified, Judge, Truthful, SoundSegment;
  }

  lemma KeyIsGood(ss: Session, filter: int, refused: bool, key: Option<string>)
    requires SoundSession(ss, filter) && GapInv(ss, filter, refused) && ss.status == Open
    ensures GoodRuling(ss, JudgeKey(ss.live, key), filter, refused)
  {
    var r := JudgeKey(ss.live, key);
    var n := |ss.segments|;
    var last, head := ss.segments[n - 1], n > 1 || refused;
    assert ss.live.pendingGap ==> ss.live.generation == "" && last == [];
    assert ss.live.generation == "" ==> last == [];
    BrokerDedup.KeyOnlyMarks(ss.live, key);
    if r.blocks != [] {
      OneMarkerIsJustified(r.blocks, filter);
      assert [] + r.blocks == r.blocks;
    } else {
      assert last + r.blocks == last;
    }
    hide Justified, Truthful, SoundSegment;
  }

  lemma OneMarkerIsJustified(blocks: seq<Block>, filter: int)
    requires |blocks| == 1
    ensures Justified(blocks, filter, true)
  {}

  lemma {:induction false} LiveReason(ss: Session, filter: int, refused: bool, inputs: seq<Input>)
    requires ss.segments != [] && SoundSession(ss, filter) && GapInv(ss, filter, refused) && SoundInputs(inputs)
    ensures GapInv(RunLive(ss, filter, inputs), filter, refused)
    decreases |inputs|
  {
    hide SoundSession, StepLive, GapInv;
    if inputs != [] {
      var init := inputs[..|inputs| - 1];
      LiveReason(ss, filter, refused, init);
      LiveSound(ss, filter, init);
      StepReason(RunLive(ss, filter, init), filter, refused, inputs[|inputs| - 1]);
    }
  }

  lemma HeadOnlyIsJustified(blocks: seq<Block>, filter: int, head: bool)
    requires forall j :: 0 < j < |blocks| ==> blocks[j].Data?
    requires blocks != [] && blocks[0].Marker? && !head ==>
               |blocks| > 1 && blocks[1].Data? && blocks[1].ev.num > filter + 1
    ensures Justified(blocks, filter, head)
  {
    if blocks != [] {
      assert blocks[..0] == [] && Nums([]) == {};
    }
  }

  lemma OpeningReason(o: Opening)
    requires SoundSnapshot(o.snap)
    ensures var v := CursorVerdict(o.cursor, o.snap); Justified(OpeningBlocks(o), v.filter, v.announce)
  {
    hide CursorVerdict, OpeningBlocks, Generation, ReplayBlocks, Pending, SoundSnapshot, Justified;
    var head, pending := OpeningShape(o);
    var v, blocks := CursorVerdict(o.cursor, o.snap), OpeningBlocks(o);
    var tail := DataBlocks(pending, Generation(o.snap));
    forall j | |head| <= j < |blocks| ensures blocks[j].Data? {
      assert blocks[j] == tail[j - |head|];
    }
    if !v.announce && head != [] {
      MarkedOpeningJumps(o);
    }
    HeadOnlyIsJustified(blocks, v.filter, v.announce);
  }

  /** Without a refused cursor the opening has a marker only when the ring starts above what the client
      lacks first. */
  lemma MarkedOpeningJumps(o: Opening)
    requires SoundSnapshot(o.snap) && !CursorVerdict(o.cursor, o.snap).announce
    requires OpeningBlocks(o) != [] && OpeningBlocks(o)[0].Marker?
    ensures var blocks := OpeningBlocks(o);
            |blocks| > 1 && blocks[1].Data? && blocks[1].ev.num > CursorVerdict(o.cursor, o.snap).filter + 1
  {
    var v, g := CursorVerdict(o.cursor, o.snap), Generation(o.snap);
    ReplayShape(o.snap.ring, v.filter, g, v.announce);
    hide CursorVerdict, Generation, ReplayBlocks, Pending, MinSeq, MaxSeq;
  }

  lemma PrefixIsJustified(blocks: seq<Block>, k: nat, filter: int, head: bool)
    requires Justified(blocks, filter, head) && k <= |blocks|
    ensures JustifiedButLast(blocks[..k], filter, head)
  {
    var part := blocks[..k];
    var upto := if k > 0 && part[k - 1].Marker? then part[..k - 1] else part;
    forall j | 0 <= j < |upto| && upto[j].Marker? && (j > 0 || !head) ensures JumpsNext(upto, j, filter) {
      assert blocks[j] == upto[j] && JumpsNext(blocks, j, filter);
      assert j + 1 < k && part[j + 1] == blocks[j + 1];
      assert upto[..j] == blocks[..j];
    }
    if upto != part {
      assert part[..|part| - 1] == upto;
    }
  }

  /** Every marker of every session has a reason in its blocks: it opens a segment after a reset, or it is
      the first block and the cursor was refused, or the event behind it jumps; a marker with nothing
      behind it is where an abnormal end cut the stream. */
  lemma NoFalseMarker(o: Opening, patience: nat, inputs: seq<Input>)
    requires SoundSnapshot(o.snap) && SoundInputs(inputs)
    ensures var v := CursorVerdict(o.cursor, o.snap);
            MarkersHaveReason(RunSession(o, patience, inputs), v.filter, v.announce)
  {
    var v := CursorVerdict(o.cursor, o.snap);
    OpeningReason(o);
    NoInputsSound(o, patience);
    OpenReason(o, patience);
    hide CursorVerdict, OpenSession, RunLive, SoundSnapshot, SoundSession;
    LiveReason(OpenSession(o, patience), v.filter, v.announce, inputs);
  }

  lemma NoInputsSound(o: Opening, patience: nat)
    requires SoundSnapshot(o.snap)
    ensures SoundSession(OpenSession(o, patience), CursorVerdict(o.cursor, o.snap).filter)
  {
    hide CursorVerdict, OpenSession, SoundSnapshot, SoundSession;
    SessionsAreSound(o, patience, []);
  }

  lemma OpenReason(o: Opening, patience: nat)
    requires var v := CursorVerdict(o.cursor, o.snap); Justified(OpeningBlocks(o), v.filter, v.announce)
    ensures var v := CursorVerdict(o.cursor, o.snap); GapInv(OpenSession(o, patience), v.filter, v.announce)
  {
    var v, blocks := CursorVerdict(o.cursor, o.snap), OpeningBlocks(o);
    PrefixIsJustified(blocks, Min(patience, |blocks|), v.filter, v.announce);
    EmptySegmentIsJustified(v.filter, v.announce);
    hide CursorVerdict, OpeningBlocks, Generation, ReplayBlocks, Justified, JustifiedButLast;
    var ss := OpenSession(o, patience);
    assert ss.segments[..0] == [];
  }

  lemma EmptySegmentIsJustified(filter: int, head: bool)
    ensures Justified([], filter, head) && AllJustified([], filter, head)
  {}

  // ----- a channel that loses nothing ---------------------------------------------------------

  /** The parsed messages, in order. */
  function Messages(inputs: seq<Input>): seq<Event> {
    if inputs == [] then []
    else
      var n := |inputs| - 1;
      Messages(inputs[..n]) + if inputs[n].poll.Message? then [inputs[n].poll.ev] else []
  }

  /** One generation, consecutive seqs from `first` on, none of them the terminal event; a queue with room;
      and a key that never changes. */
  ghost predicate Lossless(inputs: seq<Input>, g: string, first: int) {
    && (forall i :: 0 <= i < |inputs| ==>
          && (inputs[i].poll.Message? ==>
                inputs[i].poll.ev.epoch == g && !inputs[i].poll.ev.terminal && inputs[i].room >= 1)
          && !inputs[i].check.TimedOut? && (inputs[i].check.Read? ==> inputs[i].check.key in {None, Some(g)}))
    && (forall i :: 0 <= i < |Messages(inputs)| ==> Messages(inputs)[i].num == first + i)
  }

  /** What a lossless channel adds to a session: the messages above what the replay queued. */
  function Above(events: seq<Event>, max: int): seq<Block> {
    if events == [] then []
    else
      var n := |events| - 1;
      Above(events[..n], max) + if events[n].num > max then [Data(events[n])] else []
  }

  /** What the session has become, from `start`, after relaying `events` and nothing else. */
  ghost predicate Relayed(ss: Session, start: Session, g: string, max: int, first: int, events: seq<Event>) {
    && start.segments != [] && ss.status == Open
    && ss.segments == start.segments[..|start.segments| - 1]
                      + [start.segments[|start.segments| - 1] + Above(events, max)]
    && ss.live.generation == g && !ss.live.pendingGap && ss.live.replayMin == start.live.replayMin
    && ss.live.arrived == (if events == [] then start.live.arrived else first + |events| - 1)
    && ss.live.delivered == (if events == [] then max else Max(max, first + |events| - 1))
  }

  /** Where a channel may pick up: above what arrived, no higher than behind what was queued, and not below
      the replay. */
  predicate PicksUp(live: Live, filter: int, first: int) {
    && live.arrived < first
    && (if live.delivered == 0 then live.replayMin == 0 && first <= filter + 1
        else live.replayMin <= first <= live.delivered + 1)
  }

  lemma RelayStep(ss: Session, start: Session, filter: int, g: string, max: int, first: int,
                  events: seq<Event>, inp: Input)
    requires Relayed(ss, start, g, max, first, events) && g != ""
    requires max == start.live.delivered >= 0 && start.live.arrived >= 0 && PicksUp(start.live, filter, first)
    requires inp.poll.Message? ==>
               inp.poll.ev == Event(g, first + |events|, inp.poll.ev.data, false) && inp.room >= 1
    requires !inp.check.TimedOut? && (inp.check.Read? ==> inp.check.key in {None, Some(g)})
    ensures Relayed(StepLive(ss, filter, inp), start, g, max, first,
                    events + if inp.poll.Message? then [inp.poll.ev] else [])
  {
    if inp.poll.Message? {
      var e := inp.poll.ev;
      var all := events + [e];
      assert all[..|events|] == events;
      var r := Judge(ss.live, filter, e);
      assert r.blocks == if e.num > max then [Data(e)] else [];
      assert !r.reset;
      var n, last := |start.segments| - 1, start.segments[|start.segments| - 1];
      assert ss.segments[..n] == start.segments[..n];
      assert ss.segments[n] + [Data(e)] == last + (Above(events, max) + [Data(e)]);
      assert last + (Above(events, max) + []) == ss.segments[n];
    } else {
      assert events + [] == events;
    }
  }

  lemma {:induction false} RelayAll(start: Session, filter: int, g: string, max: int, first: int, inputs: seq<Input>)
    requires start.segments != [] && Relayed(start, start, g, max, first, []) && g != ""
    requires max == start.live.delivered >= 0 && start.live.arrived >= 0 && PicksUp(start.live, filter, first)
    requires Lossless(inputs, g, first)
    ensures Relayed(RunLive(start, filter, inputs), start, g, max, first, Messages(inputs))
    decreases |inputs|
  {
    hide Relayed, StepLive;
    if inputs != [] {
      var n := |inputs| - 1;
      var init, inp := inputs[..n], inputs[n];
      var before := Messages(init);
      assert Messages(inputs) == before + if inp.poll.Message? then [inp.poll.ev] else [];
      assert forall i :: 0 <= i < |before| ==> Messages(inputs)[i] == before[i];
      assert inp.poll.Message? ==> Messages(inputs)[|before|] == inp.poll.ev;
      RelayAll(start, filter, g, max, first, init);
      RelayStep(RunLive(start, filter, init), start, filter, g, max, first, before, inp);
    }
  }

  /** From any open, named session a channel that picks up where it stands and loses nothing is relayed
      exactly: every message above what was queued, once, in order, without a marker. */
  lemma PickedUpIsRelayed(ss: Session, filter: int, first: int, inputs: seq<Input>)
    requires ss.segments != [] && ss.status == Open && ss.live.generation != "" && !ss.live.pendingGap
    requires ss.live.delivered >= 0 && ss.live.arrived >= 0 && PicksUp(ss.live, filter, first)
    requires Lossless(inputs, ss.live.generation, first)
    ensures var t := RunLive(ss, filter, inputs);
            t.status == Open && Flat(t.segments) == Flat(ss.segments) + Above(Messages(inputs), ss.live.delivered)
  {
    var last := ss.segments[|ss.segments| - 1];
    assert last + [] == last && ss.segments[..|ss.segments| - 1] + [last] == ss.segments;
    hide RunLive, StepLive, Lossless, Messages, Flat, PicksUp;
    RelayAll(ss, filter, ss.live.generation, ss.live.delivered, first, inputs);
    hide Above;
    FlatExtend(ss.segments, Above(Messages(inputs), ss.live.delivered), false);
  }

  /** After any reset, by a message or by the key, the session stands so that the new numbering is picked up
      behind that message, or from its first event, without another marker. */
  lemma ResetPicksUp(s: Live, filter: nat, e: Event, seen: Option<string>)
    requires SoundEvent(e)
    ensures var r := Judge(s, filter, e);
            r.reset ==> r.next.generation == e.epoch && r.next.delivered == e.num && PicksUp(r.next, filter, e.num + 1)
    ensures var r := JudgeKey(s, seen);
            r.reset ==> && seen == Some(r.next.generation) && r.next.delivered == r.next.arrived == 0
                        && forall first :: 1 <= first <= filter + 1 ==> PicksUp(r.next, filter, first)
  {}

  /** A channel that loses nothing and overlaps the replay or continues it is relayed exactly: what the
      opening queued, then every message above the replay, once, in order, without a marker, and the
      session stays open. */
  lemma LosslessIsRelayed(o: Opening, patience: nat, inputs: seq<Input>, first: int)
    requires SoundSnapshot(o.snap) && OpenSession(o, patience).status == Open
    requires var pending := Pending(o.snap.ring, CursorVerdict(o.cursor, o.snap).filter);
             && Generation(o.snap) != "" && first >= 1 && Lossless(inputs, Generation(o.snap), first)
             && (if pending == [] then first <= CursorVerdict(o.cursor, o.snap).filter + 1
                 else pending[0].num <= first <= pending[|pending| - 1].num + 1)
    ensures var pending := Pending(o.snap.ring, CursorVerdict(o.cursor, o.snap).filter);
            var max := if pending == [] then 0 else pending[|pending| - 1].num;
            && Queued(o, patience, inputs) == OpeningBlocks(o) + Above(Messages(inputs), max)
            && RunSession(o, patience, inputs).status == Open
  {
    hide CursorVerdict, Generation, OpeningBlocks, OpenSession, SoundSnapshot, Pending, Lossless, Above, Messages;
    hide Flat, RunLive;
    OpeningVariables(o, patience);
    FlatOne(OpeningBlocks(o));
    PickedUpIsRelayed(OpenSession(o, patience), CursorVerdict(o.cursor, o.snap).filter, first, inputs);
  }

  lemma FlatOne(seg: seq<Block>)
    ensures Flat([seg]) == seg
  {
    assert [seg][..0] == [];
  }

  lemma OpeningVariables(o: Opening, patience: nat)
    requires SoundSnapshot(o.snap) && OpenSession(o, patience).status == Open && Generation(o.snap) != ""
    ensures var pending := Pending(o.snap.ring, CursorVerdict(o.cursor, o.snap).filter);
            var start := OpenSession(o, patience);
            && start.segments == [OpeningBlocks(o)] && start.live.generation == Generation(o.snap)
            && !start.live.pendingGap && start.live.arrived == 0
            && (if pending == [] then start.live.delivered == start.live.replayMin == 0
                else && start.live.replayMin == pending[0].num
                     && start.live.delivered == pending[|pending| - 1].num > 0)
  {
    hide CursorVerdict, OpeningBlocks, Generation, ReplayBlocks, Pending, SoundSnapshot;
    var head, pending := OpeningShape(o);
  }

  // ----- one marker for one hole --------------------------------------------------------------

  /** A hole below the replay is announced once: after the first event out of it, the next ones of the same
      numbering are delivered without a marker. */
  lemma HoleIsAnnouncedOnce(s: Live, filter: int, e: Event, d: Event)
    requires s.generation != "" && e.epoch == d.epoch == s.generation
    requires 0 <= s.arrived < e.num < d.num < s.replayMin <= s.delivered
    ensures var r := Judge(s, filter, e);
            && Data(e) in r.blocks && Judge(r.next, filter, d).blocks == [Data(d)]
            && (s.holeAnnounced ==> r.blocks == [Data(e)])
  {}

  // ----- markers claim nothing ----------------------------------------------------------------

  /** The id of a marker carries no seq, or the one the client came with. */
  predicate ClaimsNothing(b: Block, filter: int) { b.Marker? ==> b.num == 0 || b.num == filter }

  lemma StepClaims(ss: Session, filter: int, inp: Input)
    requires ss.segments != [] && forall b <- Flat(ss.segments) :: ClaimsNothing(b, filter)
    ensures forall b <- Flat(StepLive(ss, filter, inp).segments) :: ClaimsNothing(b, filter)
  {
    hide Flat, Judge, JudgeKey, Offer;
    if ss.status == Open {
      var mid := ss;
      if inp.poll.Message? {
        var r := Judge(ss.live, filter, inp.poll.ev);
        BrokerDedup.OneMarkerPerMessage(ss.live, filter, inp.poll.ev);
        OfferQueues(ss, r, inp.room, if inp.poll.ev.terminal then Normal else Open);
        mid := ss.(live := r.next);
      }
      if inp.check.Read? {
        BrokerDedup.KeyOnlyMarks(mid.live, inp.check.key);
        OfferQueues(mid, JudgeKey(mid.live, inp.check.key), inp.checkRoom, Open);
      }
    }
  }

  lemma {:induction false} LiveClaims(ss: Session, filter: int, inputs: seq<Input>)
    requires ss.segments != [] && forall b <- Flat(ss.segments) :: ClaimsNothing(b, filter)
    ensures forall b <- Flat(RunLive(ss, filter, inputs).segments) :: ClaimsNothing(b, filter)
    decreases |inputs|
  {
    hide Flat, StepLive, ClaimsNothing;
    if inputs != [] {
      LiveClaims(ss, filter, inputs[..|inputs| - 1]);
      StepClaims(RunLive(ss, filter, inputs[..|inputs| - 1]), filter, inputs[|inputs| - 1]);
    }
  }

  /** In no session does a marker's id claim an event the client did not have: it carries no seq, or the
      seq of the cursor that was honoured. */
  lemma MarkersClaimNothing(o: Opening, patience: nat, inputs: seq<Input>)
    ensures forall b <- Queued(o, patience, inputs) :: ClaimsNothing(b, CursorVerdict(o.cursor, o.snap).filter)
  {
    var v, g := CursorVerdict(o.cursor, o.snap), Generation(o.snap);
    var start := OpenSession(o, patience);
    FlatOne(start.segments[0]);
    ReplayShape(o.snap.ring, v.filter, g, v.announce);
    hide CursorVerdict, Generation, ReplayBlocks, Pending, MinSeq, MaxSeq, Flat;
    var blocks := OpeningBlocks(o);
    forall b | b in blocks ensures ClaimsNothing(b, v.filter) {}
    assert start.segments == [start.segments[0]];
    assert forall b :: b in start.segments[0] ==> b in blocks;
    LiveClaims(start, v.filter, inputs);
  }
}
