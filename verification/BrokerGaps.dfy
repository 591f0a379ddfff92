/**
 What a session owes its client: no gap without a `run.truncated`, no event queued twice inside one
 numbering, and no live message dropped that the replay did not already queue.

 A segment is the span between two baseline resets (a generation change, or a counter that ran
 backwards).  The theorems quantify over every cursor, snapshot, loss pattern, queue depth and
 sequence of generation changes.
 */
module BrokerGaps {
  import opened Common
  import opened Broker

  // ----- vocabulary ---------------------------------------------------------------------------

  function Nums(blocks: seq<Block>): set<int> {
    set i | 0 <= i < |blocks| && blocks[i].Data? :: blocks[i].ev.num
  }

  predicate HasMarker(blocks: seq<Block>) {
    exists i :: 0 <= i < |blocks| && blocks[i].Marker?
  }

  /** Every event of the segment carries this generation and a positive seq. */
  predicate AllNamed(blocks: seq<Block>, generation: string) {
    forall i :: 0 <= i < |blocks| && blocks[i].Data? ==>
                  blocks[i].ev.epoch == generation && 1 <= blocks[i].ev.num <= MAX_COUNTER
  }

  /** How seq `n` may follow what the segment already holds: new, and right behind a marker, or the
      successor of the highest seq, or the start of what the client lacks, or filling an announced
      hole below. */
  predicate Follows(prior: seq<Block>, n: int, filter: int) {
    && n !in Nums(prior)
    && (|| (prior != [] && prior[|prior| - 1].Marker?)
        || (n - 1 in Nums(prior) && forall m :: m in Nums(prior) ==> m < n)
        || (Nums(prior) == {} && n <= filter + 1)
        || (HasMarker(prior) && exists m :: m in Nums(prior) && n < m))
  }

  predicate Orderly(blocks: seq<Block>, filter: int) {
    blocks == [] ||
    (var prior, last := blocks[..|blocks| - 1], blocks[|blocks| - 1];
     Orderly(prior, filter) && (last.Data? ==> Follows(prior, last.ev.num, filter)))
  }

  // ----- what Orderly means -------------------------------------------------------------------

  lemma NumsAppend(blocks: seq<Block>, b: Block)
    ensures Nums(blocks + [b]) == Nums(blocks) + (if b.Data? then {b.ev.num} else {})
    ensures HasMarker(blocks + [b]) <==> HasMarker(blocks) || b.Marker?
  {
    var all := blocks + [b];
    forall n | n in Nums(blocks) ensures n in Nums(all) {
      var i :| 0 <= i < |blocks| && blocks[i].Data? && blocks[i].ev.num == n;
      assert all[i] == blocks[i];
    }
    if b.Data? {
      assert all[|blocks|] == b;
    }
    if HasMarker(blocks) {
      var i :| 0 <= i < |blocks| && blocks[i].Marker?;
      assert all[i].Marker?;
    }
    if b.Marker? {
      assert all[|blocks|].Marker?;
    }
  }

  lemma OrderlyAppend(blocks: seq<Block>, b: Block, filter: int)
    requires Orderly(blocks, filter)
    requires b.Data? ==> Follows(blocks, b.ev.num, filter)
    ensures Orderly(blocks + [b], filter)
  {
    assert (blocks + [b])[..|blocks|] == blocks;
  }

  lemma {:induction false} OrderlyPrefix(blocks: seq<Block>, filter: int, k: nat)
    requires Orderly(blocks, filter) && k <= |blocks|
    ensures Orderly(blocks[..k], filter)
  {
    if k == |blocks| {
      assert blocks[..k] == blocks;
    } else {
      var prior := blocks[..|blocks| - 1];
      OrderlyPrefix(prior, filter, k);
      assert prior[..k] == blocks[..k];
    }
  }

  /** A segment that queued no marker holds one unbroken range that starts no later than the first
      seq the client lacks. */
  lemma {:induction false} UnmarkedIsUnbroken(blocks: seq<Block>, filter: int, m: int, n: int)
    requires Orderly(blocks, filter) && !HasMarker(blocks)
    requires n in Nums(blocks) && filter < m <= n
    ensures m in Nums(blocks)
    decreases |blocks|
  {
    var prior, last := blocks[..|blocks| - 1], blocks[|blocks| - 1];
    assert blocks == prior + [last];
    NumsAppend(prior, last);
    if n in Nums(prior) {
      UnmarkedIsUnbroken(prior, filter, m, n);
    } else if m != n {
      assert n - 1 in Nums(prior);
      UnmarkedIsUnbroken(prior, filter, m, n - 1);
    }
  }

  /** An event above everything its segment holds, neither its successor nor the first seq the client
      lacks, comes right behind a marker. */
  lemma MarkerBeforeJump(blocks: seq<Block>, filter: int, i: nat)
    requires Orderly(blocks, filter) && i < |blocks| && blocks[i].Data?
    requires var n := blocks[i].ev.num;
             && (forall x :: x in Nums(blocks[..i]) ==> x < n - 1)
             && (Nums(blocks[..i]) == {} ==> n > filter + 1)
    ensures i > 0 && blocks[i - 1].Marker?
  {
    OrderlyPrefix(blocks, filter, i + 1);
    var upto := blocks[..i + 1];
    assert upto[..i] == blocks[..i] && upto[i] == blocks[i];
    assert Follows(blocks[..i], blocks[i].ev.num, filter);
  }

  /** No silent gap: a seq above the filter that had not been queued when a higher one of the same
      segment was, is announced, and the marker stands right before the block that jumped over it. */
  lemma {:induction false} NoSilentGap(blocks: seq<Block>, filter: int, m: int, i: nat) returns (j: nat)
    requires Orderly(blocks, filter) && i < |blocks| && blocks[i].Data?
    requires filter < m < blocks[i].ev.num && m !in Nums(blocks[..i])
    ensures j < i && blocks[j].Marker? && blocks[j + 1].Data? && m < blocks[j + 1].ev.num
    ensures forall x :: x in Nums(blocks[..j]) ==> x < m
  {
    if k :| 0 <= k < i && blocks[k].Data? && blocks[k].ev.num > m {
      forall x | x in Nums(blocks[..k]) ensures x in Nums(blocks[..i]) {
        var l :| 0 <= l < k && blocks[..k][l].Data? && blocks[..k][l].ev.num == x;
        assert blocks[..i][l] == blocks[l];
      }
      j := NoSilentGap(blocks, filter, m, k);
    } else {
      forall x | x in Nums(blocks[..i]) ensures x < m {
        var l :| 0 <= l < i && blocks[..i][l].Data? && blocks[..i][l].ev.num == x;
        assert blocks[l].ev.num == x;
      }
      MarkerBeforeJump(blocks, filter, i);
      j := i - 1;
      forall x | x in Nums(blocks[..j]) ensures x < m {
        var l :| 0 <= l < j && blocks[..j][l].Data? && blocks[..j][l].ev.num == x;
        assert blocks[..i][l] == blocks[l];
      }
    }
  }

  /** No seq is queued twice in one segment. */
  lemma {:induction false} NothingTwice(blocks: seq<Block>, filter: int, i: nat, j: nat)
    requires Orderly(blocks, filter)
    requires i < j < |blocks| && blocks[i].Data? && blocks[j].Data?
    ensures blocks[i].ev.num != blocks[j].ev.num
  {
    OrderlyPrefix(blocks, filter, j + 1);
    var upto := blocks[..j + 1];
    assert upto[..j] == blocks[..j] && upto[j] == blocks[j];
    assert blocks[..j][i] == blocks[i];
    assert blocks[i].ev.num in Nums(blocks[..j]);
  }

  // ----- the loop invariant -------------------------------------------------------------------

  /** The loop variables tell the truth about the segment being written. */
  ghost predicate Truthful(seg: seq<Block>, s: Live, filter: int) {
    && Orderly(seg, filter) && AllNamed(seg, s.generation)
    && (if Nums(seg) == {} then s.delivered == 0
        else s.delivered in Nums(seg) && forall m :: m in Nums(seg) ==> m <= s.delivered)
    && s.arrived >= 0 && s.replayMin >= 0
    && (forall m :: s.arrived < m <= s.delivered && s.replayMin <= m ==> m in Nums(seg))
    && (forall m :: m in Nums(seg) && s.arrived < m ==> 0 < s.replayMin <= m)
    && (s.replayMin > 0 && s.holeAnnounced ==> HasMarker(seg))
    && (s.generation == "" ==> seg == [])
    && (s.pendingGap ==> s.generation == "")
  }

  ghost predicate SoundEvent(e: Event) { 1 <= e.num <= MAX_COUNTER && e.epoch != "" }

  /** What the write side promises: seqs come from INCR and epochs are uuids. */
  ghost predicate SoundInput(inp: Input) {
    && (inp.poll.Message? ==> SoundEvent(inp.poll.ev))
    && (inp.check.Read? && inp.check.key.Some? ==> inp.check.key.value != "")
  }

  ghost predicate SoundInputs(inputs: seq<Input>) {
    forall i :: 0 <= i < |inputs| ==> SoundInput(inputs[i])
  }

  /** The ring as the publish script leaves it, under one epoch for one life of the counter. */
  ghost predicate SoundSnapshot(snap: Snapshot) {
    && (snap.key.Some? ==> snap.key.value != "")
    && (forall i :: 0 <= i < |snap.ring| ==>
                      snap.ring[i].num == snap.ring[0].num + i && snap.ring[i].epoch == Generation(snap))
    && (snap.ring != [] ==>
          && snap.ring[0].num >= 1 && snap.ring[|snap.ring| - 1].num <= MAX_COUNTER
          && Generation(snap) != "")
  }

  lemma AppendMarker(seg: seq<Block>, s: Live, filter: int, b: Block)
    requires Truthful(seg, s, filter) && b.Marker? && s.generation != ""
    ensures Truthful(seg + [b], s, filter)
    ensures Truthful(seg + [b], s.(holeAnnounced := true), filter)
  {
    NumsAppend(seg, b);
    OrderlyAppend(seg, b, filter);
  }

  lemma AppendData(seg: seq<Block>, s: Live, filter: int, e: Event)
    requires Truthful(seg, s, filter) && SoundEvent(e) && e.epoch == s.generation
    requires Follows(seg, e.num, filter)
    requires Nums(seg) == {} || (s.arrived < e.num && (s.delivered < e.num || e.num < s.replayMin))
    ensures Truthful(seg + [Data(e)], s.(arrived := e.num, delivered := Max(s.delivered, e.num)), filter)
  {
    NumsAppend(seg, Data(e));
    OrderlyAppend(seg, Data(e), filter);
  }

  /** A segment with nothing in it yet but at most its marker. */
  lemma FreshSegment(s: Live, filter: int, b: Block)
    requires b.Marker? && s.delivered == 0 && s.replayMin == 0 && s.arrived >= 0
    requires s.generation != "" && !s.pendingGap
    ensures Truthful([b], s, filter) && Nums([b]) == {}
  {
    assert [b][..0] == [];
  }

  /** A message that resets the baseline opens its own segment, marker first. */
  lemma ResetTruthful(s: Live, filter: int, e: Event)
    requires SoundEvent(e) && Judge(s, filter, e).reset && s.arrived >= 0
    requires s.pendingGap ==> s.generation == ""
    ensures var r := Judge(s, filter, e);
            && r.blocks == [Marker(e.epoch, 0, e.num), Data(e)]
            && Truthful(r.blocks, r.next, filter)
  {
    var b := Marker(e.epoch, 0, e.num);
    var mid := s.(generation := e.epoch, delivered := 0, replayMin := 0);
    FreshSegment(mid, filter, b);
    AppendData([b], mid, filter, e);
    assert [b] + [Data(e)] == [b, Data(e)];
  }

  /** The branches that write on in the same segment: at most one marker, then the event, which
      follows what is already there. */
  lemma JudgeFollows(seg: seq<Block>, s: Live, filter: int, e: Event)
    requires Truthful(seg, s, filter) && SoundEvent(e)
    requires !Judge(s, filter, e).reset && Judge(s, filter, e).blocks != []
    ensures var r := Judge(s, filter, e);
            && e.num !in Nums(seg)
            && (Nums(seg) == {} || (s.arrived < e.num && (s.delivered < e.num || e.num < s.replayMin)))
            && (|| (r.blocks == [Data(e)] && Follows(seg, e.num, filter))
                || (|r.blocks| == 2 && r.blocks[0].Marker? && r.blocks[1] == Data(e)))
  {
    // a positive seq cannot be the highest of a segment whose baseline is 0
    assert s.delivered == 0 ==> Nums(seg) == {};
  }

  /** ... and the loop variables change in no other way than this. */
  lemma JudgeNext(s: Live, filter: int, e: Event)
    requires !Judge(s, filter, e).reset && Judge(s, filter, e).blocks != []
    ensures var r := Judge(s, filter, e);
            && r.next == s.(generation := e.epoch, pendingGap := s.pendingGap && s.generation != "",
                            arrived := e.num, delivered := Max(s.delivered, e.num),
                            holeAnnounced := r.next.holeAnnounced)
            && (s.holeAnnounced ==> r.next.holeAnnounced)
            && (|r.blocks| == 1 ==> r.next.holeAnnounced == s.holeAnnounced)
  {}

  lemma Armed(seg: seq<Block>, s: Live, filter: int, e: Event)
    requires Truthful(seg, s, filter) && SoundEvent(e)
    requires !Judge(s, filter, e).reset
    ensures Truthful(seg, s.(generation := e.epoch, pendingGap := false), filter)
    ensures !(s.pendingGap && s.generation != "")
  {}

  lemma DropTruthful(seg: seq<Block>, s: Live, filter: int, e: Event)
    requires Truthful(seg, s, filter) && SoundEvent(e)
    requires Judge(s, filter, e).blocks == []
    ensures Truthful(seg, Judge(s, filter, e).next, filter)
    ensures !Judge(s, filter, e).reset
  {}

  /** Writing on in the same segment keeps the variables truthful. */
  lemma StepTruthful(seg: seq<Block>, s: Live, filter: int, e: Event)
    requires Truthful(seg, s, filter) && SoundEvent(e)
    requires !Judge(s, filter, e).reset && Judge(s, filter, e).blocks != []
    ensures Truthful(seg + Judge(s, filter, e).blocks, Judge(s, filter, e).next, filter)
  {
    hide Truthful, Follows, Judge;
    var r := Judge(s, filter, e);
    JudgeFollows(seg, s, filter, e);
    JudgeNext(s, filter, e);
    Armed(seg, s, filter, e);
    var armed := s.(generation := e.epoch, pendingGap := false);
    if |r.blocks| == 1 {
      AppendData(seg, armed, filter, e);
    } else {
      MarkedTruthful(seg, armed, filter, r.blocks[0], e, r.next.holeAnnounced);
      assert seg + r.blocks == seg + [r.blocks[0]] + [Data(e)];
    }
  }

  lemma MarkedTruthful(seg: seq<Block>, s: Live, filter: int, b: Block, e: Event, hole: bool)
    requires Truthful(seg, s, filter) && SoundEvent(e) && e.epoch == s.generation && b.Marker?
    requires e.num !in Nums(seg)
    requires Nums(seg) == {} || (s.arrived < e.num && (s.delivered < e.num || e.num < s.replayMin))
    requires s.holeAnnounced ==> hole
    ensures Truthful(seg + [b] + [Data(e)],
                     s.(arrived := e.num, delivered := Max(s.delivered, e.num), holeAnnounced := hole), filter)
  {
    AppendMarker(seg, s, filter, b);
    NumsAppend(seg, b);
    AppendData(seg + [b], s.(holeAnnounced := hole), filter, e);
  }

  /** The key re-read: adoption and idle resets. */
  lemma KeyTruthful(seg: seq<Block>, s: Live, filter: int, seen: Option<string>)
    requires Truthful(seg, s, filter) && (seen.Some? ==> seen.value != "")
    ensures var r := JudgeKey(s, seen);
            && Truthful(if r.reset then r.blocks else seg + r.blocks, r.next, filter)
            && (r.blocks == [] || (|r.blocks| == 1 && r.blocks[0].Marker?))
  {
    var r := JudgeKey(s, seen);
    if r.reset {
      FreshSegment(r.next, filter, r.blocks[0]);
    } else if r.blocks == [] {
      assert seg + r.blocks == seg;
    } else {
      AppendMarker(seg, r.next, filter, r.blocks[0]);
    }
  }

  // ----- whole sessions -----------------------------------------------------------------------

  /** A finished or running segment: orderly, all of one generation. */
  ghost predicate SoundSegment(seg: seq<Block>, filter: int) {
    Orderly(seg, filter) && exists g :: AllNamed(seg, g)
  }

  /** Every segment is sound, every reset is announced by the block that opens its segment, and an
      open session's variables are truthful about the last segment. */
  ghost predicate SoundSession(ss: Session, filter: int) {
    && ss.segments != []
    && (forall k :: 0 <= k < |ss.segments| ==> SoundSegment(ss.segments[k], filter))
    && (forall k :: 0 < k < |ss.segments| ==> ss.segments[k] != [] && ss.segments[k][0].Marker?)
    && (ss.status == Open ==> Truthful(ss.segments[|ss.segments| - 1], ss.live, filter))
  }

  /** The depth guard cuts a ruling short only at the end of the session, and what it let through
      is still orderly. */
  lemma ExtendSound(ss: Session, filter: int, blocks: seq<Block>, reset: bool)
    requires SoundSession(ss, filter)
    requires reset ==> blocks != [] && blocks[0].Marker?
    requires SoundSegment(if reset then blocks else ss.segments[|ss.segments| - 1] + blocks, filter)
    ensures var all := Extend(ss.segments, blocks, reset);
            && all[|all| - 1] == (if reset then blocks else ss.segments[|ss.segments| - 1] + blocks)
            && (forall k :: 0 <= k < |all| ==> SoundSegment(all[k], filter))
            && (forall k :: 0 < k < |all| ==> all[k] != [] && all[k][0].Marker?)
  {
    hide Truthful, SoundSegment;
  }

  lemma OfferSound(ss: Session, filter: int, r: Ruling, room: nat, after: Status)
    requires SoundSession(ss, filter) && ss.status == Open
    requires var last := ss.segments[|ss.segments| - 1];
             && Truthful(if r.reset then r.blocks else last + r.blocks, r.next, filter)
             && (r.reset ==> r.blocks != [] && r.blocks[0].Marker?)
    ensures SoundSession(Offer(ss, r, room, after), filter)
  {
    hide Truthful, SoundSegment, Extend;
    var n := |ss.segments|;
    var last := ss.segments[n - 1];
    var written := if r.reset then r.blocks else last + r.blocks;
    var k := Min(room, |r.blocks|);
    TruthfulPrefix(written, r.next, filter, |written| - (|r.blocks| - k));
    if r.blocks == [] {
      assert written == last;
    } else if room > 0 {
      var part := if r.reset then r.blocks[..k] else last + r.blocks[..k];
      assert part == written[..|part|];
      assert k == |r.blocks| ==> part == written && r.blocks[..k] == r.blocks;
      ExtendSound(ss, filter, r.blocks[..k], r.reset);
    }
  }

  lemma TruthfulPrefix(seg: seq<Block>, s: Live, filter: int, k: nat)
    requires Truthful(seg, s, filter) && k <= |seg|
    ensures SoundSegment(seg[..k], filter)
  {
    OrderlyPrefix(seg, filter, k);
    assert AllNamed(seg[..k], s.generation);
  }

  lemma KeyStepSound(ss: Session, filter: int, check: Check, room: nat)
    requires SoundSession(ss, filter) && ss.status == Open
    requires check.Read? && check.key.Some? ==> check.key.value != ""
    ensures SoundSession(StepKey(ss, check, room), filter)
  {
    hide Truthful, SoundSegment;
    if check.Read? {
      KeyTruthful(ss.segments[|ss.segments| - 1], ss.live, filter, check.key);
      OfferSound(ss, filter, JudgeKey(ss.live, check.key), room, Open);
    }
  }

  lemma LiveStepSound(ss: Session, filter: int, inp: Input)
    requires SoundSession(ss, filter) && SoundInput(inp)
    ensures SoundSession(StepLive(ss, filter, inp), filter)
  {
    if ss.status != Open {
    } else if !inp.poll.Message? {
      KeyStepSound(ss, filter, inp.check, inp.checkRoom);
    } else {
      var last := ss.segments[|ss.segments| - 1];
      var e := inp.poll.ev;
      assert ss.live.arrived >= 0 && (ss.live.pendingGap ==> ss.live.generation == "");
      hide Truthful, SoundSegment, Judge;
      var r := Judge(ss.live, filter, e);
      if r.blocks == [] {
        DropTruthful(last, ss.live, filter, e);
        KeyStepSound(ss.(live := r.next), filter, inp.check, inp.checkRoom);
      } else {
        if r.reset {
          ResetTruthful(ss.live, filter, e);
        } else {
          StepTruthful(last, ss.live, filter, e);
        }
        OfferSound(ss, filter, r, inp.room, if e.terminal then Normal else Open);
      }
    }
  }

  lemma {:induction false} LiveSound(ss: Session, filter: int, inputs: seq<Input>)
    requires ss.segments != []
    requires SoundSession(ss, filter) && SoundInputs(inputs)
    ensures SoundSession(RunLive(ss, filter, inputs), filter)
    decreases |inputs|
  {
    hide SoundSession, StepLive;
    if inputs != [] {
      var init := inputs[..|inputs| - 1];
      LiveSound(ss, filter, init);
      LiveStepSound(RunLive(ss, filter, init), filter, inputs[|inputs| - 1]);
    }
  }

  // ----- the open phase -----------------------------------------------------------------------

  ghost predicate Consecutive(events: seq<Event>) {
    forall i :: 0 <= i < |events| ==> events[i].num == events[0].num + i
  }

  /** On a consecutive ring the replay is a suffix. */
  lemma {:induction false} PendingIsSuffix(ring: seq<Event>, filter: int) returns (k: nat)
    requires Consecutive(ring)
    ensures k <= |ring| && Pending(ring, filter) == ring[k..]
    ensures forall i :: 0 <= i < |ring| ==> (ring[i].num > filter <==> k <= i)
  {
    if ring == [] {
      k := 0;
    } else if ring[0].num > filter {
      AllPending(ring, filter);
      k := 0;
    } else {
      k := PendingIsSuffix(ring[1..], filter);
      assert ring[1..][k..] == ring[k + 1..];
      k := k + 1;
    }
  }

  lemma {:induction false} AllPending(ring: seq<Event>, filter: int)
    requires forall i :: 0 <= i < |ring| ==> ring[i].num > filter
    ensures Pending(ring, filter) == ring
  {
    if ring != [] {
      AllPending(ring[1..], filter);
      assert [ring[0]] + ring[1..] == ring;
    }
  }

  lemma {:induction false} MinMaxAreEnds(events: seq<Event>)
    requires events != [] && Consecutive(events)
    ensures MinSeq(events) == events[0].num
    ensures MaxSeq(events) == events[|events| - 1].num
  {
    if |events| > 1 {
      MinMaxAreEnds(events[1..]);
    }
  }

  /** Orderly, of one generation, holding exactly the seqs `lo..hi`. */
  ghost predicate Range(blocks: seq<Block>, g: string, filter: int, lo: int, hi: int) {
    && Orderly(blocks, filter) && AllNamed(blocks, g)
    && (forall m :: m in Nums(blocks) <==> lo <= m <= hi)
  }

  lemma RangeGrows(blocks: seq<Block>, e: Event, g: string, filter: int, lo: int)
    requires Range(blocks, g, filter, lo, e.num - 1) && e.epoch == g && 1 <= e.num <= MAX_COUNTER
    requires lo <= e.num - 1 || (lo == e.num && e.num <= filter + 1)
             || (lo == e.num && blocks != [] && blocks[|blocks| - 1].Marker?)
    ensures Range(blocks + [Data(e)], g, filter, lo, e.num)
  {
    NumsAppend(blocks, Data(e));
    if lo <= e.num - 1 {
      assert e.num - 1 in Nums(blocks);
    } else {
      assert Nums(blocks) == {};
    }
    OrderlyAppend(blocks, Data(e), filter);
  }

  /** A run of consecutive events behind at most a marker. */
  lemma {:induction false} RunIsRange(head: seq<Block>, events: seq<Event>, g: string, filter: int)
    requires Consecutive(events) && events != []
    requires forall i :: 0 <= i < |events| ==> events[i].epoch == g && 1 <= events[i].num <= MAX_COUNTER
    requires g != "" && Range(head, g, filter, events[0].num, events[0].num - 1)
    requires events[0].num <= filter + 1 || (head != [] && head[|head| - 1].Marker?)
    ensures Range(head + DataBlocks(events, g), g, filter, events[0].num, events[|events| - 1].num)
    decreases |events|
  {
    hide Range;
    var n := |events| - 1;
    var shorter := head + DataBlocks(events[..n], g);
    assert head + DataBlocks(events, g) == shorter + [Data(events[n])];
    if n == 0 {
      assert shorter == head;
    } else {
      RunIsRange(head, events[..n], g, filter);
    }
    RangeGrows(shorter, events[n], g, filter, events[0].num);
  }

  /** Nothing replayed: the variables start from zero. */
  lemma EmptyTruthful(notice: seq<Block>, g: string, gap: bool, filter: int, lo: int)
    requires notice == [] || (|notice| == 1 && notice[0].Marker? && g != "")
    requires gap ==> g == ""
    ensures Truthful(notice, Live(g, 0, 0, 0, false, gap), filter)
    ensures Range(notice, g, filter, lo, lo - 1)
  {
    assert Nums(notice) == {};
    assert notice != [] ==> notice[..0] == [];
  }

  lemma RangeTruthful(blocks: seq<Block>, g: string, filter: int, lo: int, hi: int)
    requires Range(blocks, g, filter, lo, hi) && 1 <= lo <= hi && g != ""
    ensures Truthful(blocks, Live(g, hi, 0, lo, false, false), filter)
  {
    assert hi in Nums(blocks);
  }

  /** What the replay picks from a sound ring. */
  lemma PendingFacts(snap: Snapshot, filter: nat)
    requires SoundSnapshot(snap)
    ensures var pending := Pending(snap.ring, filter);
            && Consecutive(pending)
            && (forall i :: 0 <= i < |pending| ==>
                              pending[i].epoch == Generation(snap) && filter < pending[i].num <= MAX_COUNTER)
            && (pending != [] ==>
                  && Generation(snap) != ""
                  && MinSeq(pending) == pending[0].num && MaxSeq(pending) == pending[|pending| - 1].num)
  {
    hide Generation, MinSeq, MaxSeq;
    var k := PendingIsSuffix(snap.ring, filter);
    var pending := snap.ring[k..];
    if pending != [] {
      MinMaxAreEnds(pending);
    }
  }

  /** The replay: a marker when it starts too high and nobody announced that, then the pending events. */
  lemma ReplayShape(ring: seq<Event>, filter: nat, g: string, announced: bool)
    ensures var pending := Pending(ring, filter);
            var r := ReplayBlocks(ring, filter, g, announced);
            if pending == [] then r == Replay([], 0, 0, 0)
            else && r.min == MinSeq(pending) && r.max == MaxSeq(pending)
                 && r.blocks == (if pending[0].num > filter + 1 && !announced
                                 then [Marker(Named(pending[0], g).epoch, filter, pending[0].num)] else [])
                                + DataBlocks(pending, g)
  {
    hide Pending, MinSeq, MaxSeq, DataBlocks;
  }

  /** The shape of the open phase on a sound ring: at most one marker, then a suffix of the ring. */
  lemma OpeningShape(o: Opening) returns (head: seq<Block>, pending: seq<Event>)
    requires SoundSnapshot(o.snap)
    ensures var v := CursorVerdict(o.cursor, o.snap);
            var g := Generation(o.snap);
            var replay := ReplayBlocks(o.snap.ring, v.filter, g, v.announce);
            && pending == Pending(o.snap.ring, v.filter)
            && OpeningBlocks(o) == head + DataBlocks(pending, g)
            && (head == [] || (|head| == 1 && head[0].Marker? && g != ""))
            && (v.announce && g != "" ==> head != [])
            && Consecutive(pending)
            && (forall i :: 0 <= i < |pending| ==> pending[i].epoch == g && v.filter < pending[i].num <= MAX_COUNTER)
            && (if pending == [] then replay.min == 0 && replay.max == 0
                else && g != ""
                     && replay.min == pending[0].num && replay.max == pending[|pending| - 1].num
                     && (pending[0].num <= v.filter + 1 || head != []))
  {
    hide CursorVerdict, MinSeq, MaxSeq, Generation, Pending, SoundSnapshot, Consecutive, ReplayBlocks, DataBlocks;
    var v := CursorVerdict(o.cursor, o.snap);
    var g := Generation(o.snap);
    PendingFacts(o.snap, v.filter);
    pending := Pending(o.snap.ring, v.filter);
    ReplayShape(o.snap.ring, v.filter, g, v.announce);
    var replay := ReplayBlocks(o.snap.ring, v.filter, g, v.announce);
    head := if v.announce && g != "" then [Marker(g, 0, replay.first)]
            else if pending != [] && pending[0].num > v.filter + 1 then [Marker(g, v.filter, pending[0].num)]
            else [];
    var tail := DataBlocks(pending, g);
    assert pending == [] ==> tail == [];
    assert [] + tail == tail;
  }

  /** The replay leaves the variables truthful about what it queued. */
  lemma OpeningTruthful(o: Opening)
    requires SoundSnapshot(o.snap)
    ensures var v := CursorVerdict(o.cursor, o.snap);
            var g := Generation(o.snap);
            var replay := ReplayBlocks(o.snap.ring, v.filter, g, v.announce);
            Truthful(OpeningBlocks(o), Live(g, replay.max, 0, replay.min, false, v.announce && g == ""), v.filter)
  {
    hide Truthful, Range, Nums, CursorVerdict, ReplayBlocks, OpeningBlocks, Generation;
    var v := CursorVerdict(o.cursor, o.snap);
    var g := Generation(o.snap);
    var head, pending := OpeningShape(o);
    if pending == [] {
      assert OpeningBlocks(o) == head;
      EmptyTruthful(head, g, v.announce && g == "", v.filter, 0);
    } else {
      EmptyTruthful(head, g, false, v.filter, pending[0].num);
      RunIsRange(head, pending, g, v.filter);
      RangeTruthful(OpeningBlocks(o), g, v.filter, pending[0].num, pending[|pending| - 1].num);
    }
  }

  /** Every session, from its first block to its last: all segments are sound and every reset is
      announced.  With `NoSilentGap` and `NothingTwice` this is the delivery contract. */
  lemma SessionsAreSound(o: Opening, patience: nat, inputs: seq<Input>)
    requires SoundSnapshot(o.snap) && SoundInputs(inputs)
    ensures SoundSession(RunSession(o, patience, inputs), CursorVerdict(o.cursor, o.snap).filter)
  {
    hide Truthful, SoundSegment, CursorVerdict, OpeningBlocks, RunLive, ReplayBlocks, Generation, SoundSnapshot;
    var filter := CursorVerdict(o.cursor, o.snap).filter;
    OpeningTruthful(o);
    var ss := OpenSession(o, patience);
    var blocks := OpeningBlocks(o);
    TruthfulPrefix(blocks, ss.live, filter, Min(patience, |blocks|));
    TruthfulPrefix(blocks, ss.live, filter, 0);
    assert blocks[..0] == [] && blocks[..|blocks|] == blocks;
    assert SoundSession(ss, filter);
    LiveSound(ss, filter, inputs);
  }
}
