/**
 A client that reconnects: every session is opened with the id of the last block the client took,
 printed by the server and parsed back from `Last-Event-ID`.  Over any chain of sessions, losses,
 wipes and disconnects, a client that was never sent a `run.truncated` holds an unbroken prefix of
 one generation.
 */
module Reconnect {
  import opened Common
  import opened Broker
  import opened BrokerGaps
  import opened CursorCodec
  import BrokerDedup
  import BrokerMarkers

  /** One connection: what it found, what happened on its channel and how many of the queued blocks
      the client took before it went away. */
  datatype Visit = Visit(
    snap: Snapshot, terminalAtOpen: bool, lease: Option<bool>, patience: nat, inputs: seq<Input>, take: nat)

  function BlockId(b: Block): string
    requires b.Data? ==> b.ev.num >= 0
    requires b.Marker? ==> b.num >= 0
  {
    match b
    case Data(e) => PrintId(e.epoch, e.num)
    case Marker(epoch, num, _) => PrintId(epoch, num)
  }

  /** The header the client sends; a block whose seq is not a counter value has no id to send. */
  function NextHeader(taken: seq<Block>): Option<string> {
    if taken == [] then None
    else
      var b := taken[|taken| - 1];
      if (if b.Data? then b.ev.num else b.num) < 0 then None else Some(BlockId(b))
  }

  function NextCursor(taken: seq<Block>): Cursor {
    match ParseCursor(NextHeader(taken), None)
    case Parsed(c) => c
    case _ => Cursor(0, None)
  }

  function VisitOpening(v: Visit, taken: seq<Block>): Opening {
    Opening(NextCursor(taken), v.snap, v.terminalAtOpen, v.lease)
  }

  function Taken(v: Visit, before: seq<Block>): seq<Block> {
    var queued := Queued(VisitOpening(v, before), v.patience, v.inputs);
    queued[..Min(v.take, |queued|)]
  }

  /** Everything the client received over the chain. */
  function Transcript(visits: seq<Visit>): seq<Block> {
    if visits == [] then []
    else
      var before := Transcript(visits[..|visits| - 1]);
      before + Taken(visits[|visits| - 1], before)
  }

  ghost predicate SoundVisit(v: Visit) { SoundSnapshot(v.snap) && SoundInputs(v.inputs) }

  // ----- one session, up to its first marker --------------------------------------------------

  /** No marker: the segment is one run of consecutive seqs. */
  lemma {:induction false} UnmarkedIsConsecutive(blocks: seq<Block>, filter: int)
    requires Orderly(blocks, filter) && !HasMarker(blocks)
    ensures forall i :: 0 <= i < |blocks| ==> blocks[i].Data? && blocks[i].ev.num == blocks[0].ev.num + i
    ensures blocks != [] ==> blocks[0].ev.num <= filter + 1
    decreases |blocks|
  {
    if blocks != [] {
      var n := |blocks| - 1;
      var prior, last := blocks[..n], blocks[n];
      assert blocks == prior + [last];
      NumsAppend(prior, last);
      UnmarkedIsConsecutive(prior, filter);
      if n > 0 {
        assert prior[n - 1].ev.num in Nums(prior);
        assert last.ev.num - 1 in Nums(prior);
      }
    }
  }

  /** The blocks a client sees before the first marker all belong to the first segment. */
  lemma {:induction false} CleanPrefixIsFirst(segments: seq<seq<Block>>, k: nat)
    requires segments != [] && k <= |Flat(segments)| && !HasMarker(Flat(segments)[..k])
    requires forall i :: 0 < i < |segments| ==> segments[i] != [] && segments[i][0].Marker?
    ensures k <= |segments[0]| && Flat(segments)[..k] == segments[0][..k]
    decreases |segments|
  {
    var n := |segments| - 1;
    var init := segments[..n];
    if n == 0 {
      assert Flat(init) == [] && Flat(segments) == segments[0];
    } else {
      var f := Flat(segments);
      assert f == Flat(init) + segments[n];
      assert k <= |Flat(init)| by {
        assert f[|Flat(init)|].Marker?;
        assert forall i :: 0 <= i < k ==> f[..k][i] == f[i];
      }
      assert f[..k] == Flat(init)[..k];
      CleanPrefixIsFirst(init, k);
    }
  }

  /** A session that knows its generation writes its first segment under that name only. */
  ghost predicate FirstIsNamed(ss: Session, g: string) {
    && ss.segments != [] && AllNamed(ss.segments[0], g)
    && (|ss.segments| == 1 && ss.status == Open ==> ss.live.generation == g)
  }

  /** Only a reset changes the name, and a reset opens another segment. */
  lemma FirstIsNamedOffer(ss: Session, r: Ruling, room: nat, after: Status, g: string)
    requires FirstIsNamed(ss, g) && ss.status == Open
    requires |ss.segments| == 1 && !r.reset ==> AllNamed(r.blocks, g) && r.next.generation == g
    requires r.reset ==> r.blocks != []
    ensures FirstIsNamed(Offer(ss, r, room, after), g)
  {
    var k := Min(room, |r.blocks|);
    assert r.blocks[..k] == [] || k > 0;
    if |ss.segments| == 1 && !r.reset {
      assert AllNamed(ss.segments[0] + r.blocks[..k], g);
      assert r.blocks[..|r.blocks|] == r.blocks;
    }
  }

  lemma RulingsKeepTheName(s: Live, filter: int, e: Event, seen: Option<string>)
    requires SoundEvent(e) && (seen.Some? ==> seen.value != "")
    ensures var r := Judge(s, filter, e);
            && (r.reset ==> r.blocks != []) && (r.blocks == [] ==> r.next.generation == s.generation)
            && (s.generation != "" && !r.reset ==>
                  AllNamed(r.blocks, s.generation) && r.next.generation == s.generation)
    ensures var r := JudgeKey(s, seen);
            && (r.reset ==> r.blocks != [])
            && (s.generation != "" && !r.reset ==> r.blocks == [] && r.next.generation == s.generation)
  {}

  lemma FirstIsNamedStep(ss: Session, filter: int, inp: Input, g: string)
    requires FirstIsNamed(ss, g) && g != "" && SoundInput(inp)
    ensures FirstIsNamed(StepLive(ss, filter, inp), g)
  {
    if ss.status == Open {
      hide Offer, Judge, JudgeKey;
      var mid := ss;
      var e := if inp.poll.Message? then inp.poll.ev else Event("g", 1, [], false);
      var seen := if inp.check.Read? then inp.check.key else None;
      RulingsKeepTheName(ss.live, filter, e, seen);
      if inp.poll.Message? {
        var r := Judge(ss.live, filter, e);
        FirstIsNamedOffer(ss, r, inp.room, if e.terminal then Normal else Open, g);
        mid := if r.blocks == [] then ss.(live := r.next) else ss;
        RulingsKeepTheName(mid.live, filter, e, seen);
      }
      if inp.check.Read? {
        FirstIsNamedOffer(mid, JudgeKey(mid.live, seen), inp.checkRoom, Open, g);
      }
    }
  }

  lemma {:induction false} FirstIsNamedHolds(ss: Session, filter: int, inputs: seq<Input>, g: string)
    requires ss.segments != [] && FirstIsNamed(ss, g) && g != "" && SoundInputs(inputs)
    ensures FirstIsNamed(RunLive(ss, filter, inputs), g)
    decreases |inputs|
  {
    hide FirstIsNamed;
    if inputs != [] {
      var init := inputs[..|inputs| - 1];
      FirstIsNamedHolds(ss, filter, init, g);
      FirstIsNamedStep(RunLive(ss, filter, init), filter, inputs[|inputs| - 1], g);
    }
  }

  /** A gap that is due is the first thing queued, at once or at the moment of arming. */
  ghost predicate GapComesFirst(ss: Session) {
    && ss.segments != []
    && (if ss.segments[0] == [] then
          |ss.segments| == 1 && (ss.status == Open ==> ss.live.pendingGap && ss.live.generation == "")
        else ss.segments[0][0].Marker?)
  }

  lemma GapComesFirstStep(ss: Session, filter: int, inp: Input)
    requires GapComesFirst(ss) && SoundInput(inp)
    ensures GapComesFirst(StepLive(ss, filter, inp))
  {}

  lemma {:induction false} GapComesFirstHolds(ss: Session, filter: int, inputs: seq<Input>)
    requires ss.segments != [] && GapComesFirst(ss) && SoundInputs(inputs)
    ensures GapComesFirst(RunLive(ss, filter, inputs))
    decreases |inputs|
  {
    hide GapComesFirst;
    if inputs != [] {
      var init := inputs[..|inputs| - 1];
      GapComesFirstHolds(ss, filter, init);
      GapComesFirstStep(RunLive(ss, filter, init), filter, inputs[|inputs| - 1]);
    }
  }

  /** What a client can take from one session without meeting a marker. */
  lemma CleanSession(o: Opening, patience: nat, inputs: seq<Input>, k: nat) returns (g: string)
    requires SoundSnapshot(o.snap) && SoundInputs(inputs)
    requires k <= |Queued(o, patience, inputs)| && !HasMarker(Queued(o, patience, inputs)[..k])
    ensures var clean := Queued(o, patience, inputs)[..k];
            var v := CursorVerdict(o.cursor, o.snap);
            && AllNamed(clean, g)
            && (forall i :: 0 <= i < k ==> clean[i].Data? && clean[i].ev.num == clean[0].ev.num + i)
            && (k > 0 ==> clean[0].ev.num <= v.filter + 1 && !v.announce)
    ensures Generation(o.snap) != "" ==> g == Generation(o.snap)
  {
    hide CursorVerdict, OpeningBlocks, RunLive, Generation, SoundSnapshot, Orderly, AllNamed;
    var v := CursorVerdict(o.cursor, o.snap);
    var ss := RunSession(o, patience, inputs);
    SessionsAreSound(o, patience, inputs);
    CleanPrefixIsFirst(ss.segments, k);
    OrderlyPrefix(ss.segments[0], v.filter, k);
    UnmarkedIsConsecutive(ss.segments[0][..k], v.filter);
    if v.announce {
      AnnouncedFirst(o, patience, inputs);
    }
    if Generation(o.snap) != "" {
      g := Generation(o.snap);
      OpeningNamed(o, patience);
      FirstIsNamedHolds(OpenSession(o, patience), v.filter, inputs, g);
    } else {
      g :| AllNamed(ss.segments[0], g);
    }
    NamedPrefix(ss.segments[0], g, k);
  }

  lemma NamedPrefix(blocks: seq<Block>, g: string, k: nat)
    requires AllNamed(blocks, g) && k <= |blocks|
    ensures AllNamed(blocks[..k], g)
  {}

  lemma OpeningNamed(o: Opening, patience: nat)
    requires SoundSnapshot(o.snap)
    ensures FirstIsNamed(OpenSession(o, patience), Generation(o.snap))
  {
    hide CursorVerdict, OpeningBlocks, Generation, ReplayBlocks, SoundSnapshot;
    OpeningTruthful(o);
    NamedPrefix(OpeningBlocks(o), Generation(o.snap), Min(patience, |OpeningBlocks(o)|));
  }

  lemma AnnouncedFirst(o: Opening, patience: nat, inputs: seq<Input>)
    requires SoundSnapshot(o.snap) && SoundInputs(inputs)
    requires CursorVerdict(o.cursor, o.snap).announce
    ensures GapComesFirst(RunSession(o, patience, inputs))
  {
    hide CursorVerdict, OpeningBlocks, ReplayBlocks, RunLive;
    var head, pending := OpeningShape(o);
    var start := OpenSession(o, patience);
    assert GapComesFirst(start);
    GapComesFirstHolds(start, CursorVerdict(o.cursor, o.snap).filter, inputs);
  }

  // ----- the chain ----------------------------------------------------------------------------

  /** One generation, every seq from 1 up to the highest received. */
  ghost predicate Complete(taken: seq<Block>) {
    taken == [] || exists g, h :: CompleteTo(taken, g, h)
  }

  ghost predicate CompleteTo(taken: seq<Block>, g: string, h: int)
    requires taken != []
  {
    && taken[|taken| - 1].Data? && g != ""
    && AllNamed(taken, g)
    && (forall m :: m in Nums(taken) <==> 1 <= m <= h)
  }

  /** A client whose last block is an event comes back with exactly that event as its cursor. */
  lemma CursorIsLastTaken(taken: seq<Block>)
    requires taken != [] && taken[|taken| - 1].Data?
    requires var e := taken[|taken| - 1].ev; e.epoch != "" && 0 <= e.num <= MAX_COUNTER
    ensures var e := taken[|taken| - 1].ev; NextCursor(taken) == Cursor(e.num, Some(e.epoch))
  {
    var e := taken[|taken| - 1].ev;
    IdRoundTrip(e.epoch, e.num, None);
  }

  lemma NumsConcat(a: seq<Block>, b: seq<Block>)
    ensures Nums(a + b) == Nums(a) + Nums(b)
    ensures HasMarker(a + b) <==> HasMarker(a) || HasMarker(b)
  {
    var c := a + b;
    assert forall i :: 0 <= i < |a| ==> c[i] == a[i];
    assert forall i :: 0 <= i < |b| ==> c[|a| + i] == b[i];
    forall n | n in Nums(b) ensures n in Nums(c) {
      var i :| 0 <= i < |b| && b[i].Data? && b[i].ev.num == n;
      assert c[|a| + i] == b[i];
    }
    if HasMarker(b) {
      var i :| 0 <= i < |b| && b[i].Marker?;
      assert c[|a| + i].Marker?;
    }
  }

  lemma ConsecutiveNums(clean: seq<Block>)
    requires clean != [] && clean[0].Data?
    requires forall i :: 0 <= i < |clean| ==> clean[i].Data? && clean[i].ev.num == clean[0].ev.num + i
    ensures forall m :: m in Nums(clean) <==> clean[0].ev.num <= m < clean[0].ev.num + |clean|
  {
    forall m | clean[0].ev.num <= m < clean[0].ev.num + |clean| ensures m in Nums(clean) {
      assert clean[m - clean[0].ev.num].Data?;
    }
  }

  /** What one more visit adds to a client that has met no marker. */
  lemma VisitFacts(v: Visit, before: seq<Block>, g: string, h: int) returns (g': string)
    requires SoundVisit(v) && !HasMarker(Taken(v, before)) && Taken(v, before) != []
    requires before != [] ==> CompleteTo(before, g, h)
    ensures var clean := Taken(v, before);
            var filter := CursorVerdict(NextCursor(before), v.snap).filter;
            && AllNamed(clean, g') && g' != ""
            && (forall i :: 0 <= i < |clean| ==> clean[i].Data? && clean[i].ev.num == clean[0].ev.num + i)
            && clean[0].ev.num <= filter + 1
            && (if before == [] then filter == 0
                else && g' == g && NextCursor(before) == Cursor(before[|before| - 1].ev.num, Some(g))
                     && filter == before[|before| - 1].ev.num)
  {
    var o := VisitOpening(v, before);
    hide Queued, Nums, SoundSnapshot;
    g' := CleanSession(o, v.patience, v.inputs, |Taken(v, before)|);
    if before != [] {
      CursorIsLastTaken(before);
      assert v.snap.key == Some(g);
    }
    UnnamedIsEmpty(o, v.patience, v.inputs, Taken(v, before)[0].ev);
  }

  /** Nothing reaches a client under an empty generation. */
  lemma UnnamedIsEmpty(o: Opening, patience: nat, inputs: seq<Input>, e: Event)
    requires SoundSnapshot(o.snap) && SoundInputs(inputs)
    requires Data(e) in Queued(o, patience, inputs)
    ensures e.epoch != ""
  {
    NothingInvented(o, patience, inputs, e);
  }

  // ----- where queued events come from --------------------------------------------------------

  ghost predicate FromChannel(inputs: seq<Input>, e: Event) {
    exists i :: 0 <= i < |inputs| && inputs[i].poll == Message(e)
  }

  lemma StepAddsOnly(ss: Session, filter: int, inp: Input, e: Event)
    requires ss.segments != []
    requires Data(e) in Flat(StepLive(ss, filter, inp).segments)
    ensures Data(e) in Flat(ss.segments) || inp.poll == Message(e)
  {
    hide Flat, Judge, JudgeKey, Offer;
    if ss.status == Open {
      var mid := ss;
      if inp.poll.Message? {
        var r := Judge(ss.live, filter, inp.poll.ev);
        BrokerDedup.OneMarkerPerMessage(ss.live, filter, inp.poll.ev);
        OfferQueues(ss, r, inp.room, if inp.poll.ev.terminal then Normal else Open);
        mid := ss.(live := r.next);
      }
      if inp.check.Read? {
        BrokerDedup.KeyOnlyMarks(mid.live, inp.check.key);
        OfferQueues(mid, JudgeKey(mid.live, inp.check.key), inp.checkRoom, Open);
      }
    }
  }

  lemma {:induction false} LiveAddsOnly(ss: Session, filter: int, inputs: seq<Input>, e: Event)
    requires ss.segments != [] && Data(e) in Flat(RunLive(ss, filter, inputs).segments)
    ensures Data(e) in Flat(ss.segments) || FromChannel(inputs, e)
    decreases |inputs|
  {
    hide Flat;
    if inputs != [] {
      var n := |inputs| - 1;
      var init := inputs[..n];
      StepAddsOnly(RunLive(ss, filter, init), filter, inputs[n], e);
      if inputs[n].poll != Message(e) {
        LiveAddsOnly(ss, filter, init, e);
        if FromChannel(init, e) {
          var i :| 0 <= i < |init| && init[i].poll == Message(e);
          assert inputs[i].poll == Message(e);
        }
      }
    }
  }

  /** Every event a session queues is a ring element above the filter or a message of its channel. */
  lemma NothingInvented(o: Opening, patience: nat, inputs: seq<Input>, e: Event)
    requires SoundSnapshot(o.snap) && SoundInputs(inputs)
    requires Data(e) in Queued(o, patience, inputs)
    ensures e.epoch != ""
    ensures || (e in o.snap.ring && e.num > CursorVerdict(o.cursor, o.snap).filter)
            || FromChannel(inputs, e)
  {
    LiveAddsOnly(OpenSession(o, patience), CursorVerdict(o.cursor, o.snap).filter, inputs, e);
    hide CursorVerdict, OpenSession, RunLive, Flat;
    if !FromChannel(inputs, e) {
      ReplayComesFromRing(o, patience, e);
    }
  }

  /** What the open phase queues comes from the ring, above the filter. */
  lemma ReplayComesFromRing(o: Opening, patience: nat, e: Event)
    requires SoundSnapshot(o.snap) && Data(e) in Flat(OpenSession(o, patience).segments)
    ensures e.epoch != "" && e in o.snap.ring && e.num > CursorVerdict(o.cursor, o.snap).filter
  {
    hide CursorVerdict, OpeningBlocks, Generation, ReplayBlocks, Pending, SoundSnapshot;
    var start := OpenSession(o, patience);
    assert start.segments[..0] == [] && Flat(start.segments) == start.segments[0];
    assert start.segments[0] <= OpeningBlocks(o);
    OpeningComesFromRing(o, e);
  }

  lemma OpeningComesFromRing(o: Opening, e: Event)
    requires SoundSnapshot(o.snap) && Data(e) in OpeningBlocks(o)
    ensures e.epoch != "" && e in o.snap.ring && e.num > CursorVerdict(o.cursor, o.snap).filter
  {
    hide CursorVerdict, OpeningBlocks, Generation, ReplayBlocks, Pending, SoundSnapshot, Consecutive;
    var filter := CursorVerdict(o.cursor, o.snap).filter;
    var head, pending := OpeningShape(o);
    BrokerDedup.PendingInRing(o.snap.ring, filter, e);
    var tail := DataBlocks(pending, Generation(o.snap));
    assert Data(e) in tail;
    var i :| 0 <= i < |tail| && tail[i] == Data(e);
    assert e == pending[i];
  }

  // ----- the theorems -------------------------------------------------------------------------

  /** Reconnect composition: over any chain of sessions, a client that received no marker holds one
      generation without a missing seq below the highest one it received. */
  lemma {:induction false} ChainIsComplete(visits: seq<Visit>)
    requires forall i :: 0 <= i < |visits| ==> SoundVisit(visits[i])
    ensures HasMarker(Transcript(visits)) || Complete(Transcript(visits))
  {
    if visits != [] {
      var n := |visits| - 1;
      var before := Transcript(visits[..n]);
      var clean := Taken(visits[n], before);
      ChainIsComplete(visits[..n]);
      NumsConcat(before, clean);
      if !HasMarker(before + clean) {
        if clean == [] {
          assert before + clean == before;
        } else {
          ExtendsComplete(visits[n], before);
        }
      }
    }
  }

  /** What one more visit adds, wherever the client stood: an unmarked stretch that starts no later than
      behind its cursor, in the cursor's generation if it had one. */
  lemma StretchFacts(v: Visit, before: seq<Block>) returns (g: string)
    requires SoundVisit(v) && !HasMarker(Taken(v, before)) && Taken(v, before) != []
    ensures var clean, cursor := Taken(v, before), NextCursor(before);
            && AllNamed(clean, g) && g != ""
            && (forall i :: 0 <= i < |clean| ==> clean[i].Data? && clean[i].ev.num == clean[0].ev.num + i)
            && clean[0].ev.num <= cursor.num + 1
            && (cursor.num > 0 ==> cursor.epoch == Some(g))
  {
    var o := VisitOpening(v, before);
    assert v.snap.key.Some? ==> v.snap.key.value != "";
    hide Queued, Nums, SoundSnapshot, NextCursor;
    g := CleanSession(o, v.patience, v.inputs, |Taken(v, before)|);
    UnnamedIsEmpty(o, v.patience, v.inputs, Taken(v, before)[0].ev);
  }

  /** One generation, nothing missing above `base`, up to the highest seq `h`. */
  ghost predicate CompleteAbove(taken: seq<Block>, base: int, g: string, h: int) {
    && taken != [] && taken[|taken| - 1].Data? && g != "" && AllNamed(taken, g)
    && (forall m :: base < m <= h ==> m in Nums(taken))
    && (forall m :: m in Nums(taken) ==> m <= h)
  }

  /** What the client took since visit `v`. */
  function Since(visits: seq<Visit>, v: nat): seq<Block>
    requires v <= |visits|
    decreases |visits|
  {
    if v == |visits| then []
    else
      var init := visits[..|visits| - 1];
      Since(init, v) + Taken(visits[|visits| - 1], Transcript(init))
  }

  lemma {:induction false} SinceIsSuffix(visits: seq<Visit>, v: nat)
    requires v <= |visits|
    ensures Transcript(visits) == Transcript(visits[..v]) + Since(visits, v)
    decreases |visits|
  {
    if v == |visits| {
      assert visits[..v] == visits;
    } else {
      var init := visits[..|visits| - 1];
      assert init[..v] == visits[..v];
      SinceIsSuffix(init, v);
    }
  }

  /** After the last marker: from any visit on, whatever markers came before, a client that receives no
      further one holds one generation with no seq missing above the cursor it came back with (above 0
      when its last block was a marker without a seq), and it is the cursor's generation if that had a
      seq. */
  lemma {:induction false} AfterLastMarker(visits: seq<Visit>, v: nat)
    requires v <= |visits| && forall i :: 0 <= i < |visits| ==> SoundVisit(visits[i])
    requires !HasMarker(Since(visits, v))
    ensures var cursor := NextCursor(Transcript(visits[..v]));
            || Since(visits, v) == []
            || exists g, h :: CompleteAbove(Since(visits, v), cursor.num, g, h)
                              && (cursor.num > 0 ==> cursor.epoch == Some(g))
    decreases |visits|
  {
    hide SoundVisit, Taken, NextCursor, Nums, AllNamed, CompleteAbove, HasMarker;
    if v < |visits| {
      var n := |visits| - 1;
      var init := visits[..n];
      var more, before := Since(init, v), Transcript(init);
      var clean := Taken(visits[n], before);
      NumsConcat(more, clean);
      assert init[..v] == visits[..v];
      AfterLastMarker(init, v);
      SinceIsSuffix(init, v);
      if clean == [] {
        assert more + clean == more;
      } else if more == [] {
        assert more + clean == clean;
        assert before == Transcript(visits[..v]);
        FirstStretch(visits[n], before);
      } else {
        var base := NextCursor(Transcript(visits[..v])).num;
        var g, h :| CompleteAbove(more, base, g, h)
                    && (base > 0 ==> NextCursor(Transcript(visits[..v])).epoch == Some(g));
        var h' := NextStretch(visits[n], before, more, base, g, h);
        assert CompleteAbove(Since(visits, v), base, g, h');
      }
    }
  }

  lemma FirstStretch(v: Visit, before: seq<Block>)
    requires SoundVisit(v) && !HasMarker(Taken(v, before)) && Taken(v, before) != []
    ensures var cursor := NextCursor(before);
            exists g, h :: CompleteAbove(Taken(v, before), cursor.num, g, h)
                           && (cursor.num > 0 ==> cursor.epoch == Some(g))
  {
    hide SoundVisit, Taken, NextCursor;
    var clean := Taken(v, before);
    var g := StretchFacts(v, before);
    ConsecutiveNums(clean);
    assert CompleteAbove(clean, NextCursor(before).num, g, clean[0].ev.num + |clean| - 1);
  }

  lemma NextStretch(v: Visit, before: seq<Block>, more: seq<Block>, base: int, g: string, h: int) returns (h': int)
    requires SoundVisit(v) && !HasMarker(Taken(v, before)) && Taken(v, before) != []
    requires |more| <= |before| && before[|before| - |more|..] == more && CompleteAbove(more, base, g, h)
    ensures CompleteAbove(more + Taken(v, before), base, g, h')
  {
    hide SoundVisit, Taken, NextCursor;
    var clean, last := Taken(v, before), more[|more| - 1];
    assert before[|before| - 1] == last && last.ev.num in Nums(more);
    CursorIsLastTaken(before);
    var g' := StretchFacts(v, before);
    ConsecutiveNums(clean);
    NumsConcat(more, clean);
    h' := Max(h, clean[0].ev.num + |clean| - 1);
  }

  // ----- a cursor never claims more than was received -----------------------------------------

  lemma CursorIsItsBlocks(taken: seq<Block>)
    requires taken != []
    requires var b := taken[|taken| - 1]; 0 <= (if b.Data? then b.ev.num else b.num) <= MAX_COUNTER
    ensures var b := taken[|taken| - 1];
            NextCursor(taken).num == 0 || NextCursor(taken).num == if b.Data? then b.ev.num else b.num
  {
    var b := taken[|taken| - 1];
    var epoch, num := if b.Data? then b.ev.epoch else b.epoch, if b.Data? then b.ev.num else b.num;
    if epoch != "" {
      IdRoundTrip(epoch, num, None);
    } else {
      var id := PrintId(epoch, num);
      assert id[0] == '-' && forall i :: 0 < i < |id| ==> id[i] == Decimal(num)[i - 1];
      assert LastDash(id) == 0;
    }
  }

  ghost predicate Received(taken: seq<Block>, num: int) {
    exists i :: 0 <= i < |taken| && taken[i].Data? && taken[i].ev.num == num
  }

  lemma ReceivedMore(taken: seq<Block>, more: seq<Block>, num: int)
    requires Received(taken, num) || Received(more, num)
    ensures Received(taken + more, num)
  {
    var all := taken + more;
    if Received(taken, num) {
      var i :| 0 <= i < |taken| && taken[i].Data? && taken[i].ev.num == num;
      assert all[i] == taken[i];
    } else {
      var i :| 0 <= i < |more| && more[i].Data? && more[i].ev.num == num;
      assert all[|taken| + i] == more[i];
    }
  }

  /** Over any chain of sessions, wherever the connection broke, behind an event or behind a marker: the
      seq a client comes back with is none, or that of an event it did receive. */
  lemma {:induction false} CursorWasReceived(visits: seq<Visit>)
    requires forall i :: 0 <= i < |visits| ==> SoundVisit(visits[i])
    ensures var cursor := NextCursor(Transcript(visits));
            cursor.num == 0 || (cursor.num <= MAX_COUNTER && Received(Transcript(visits), cursor.num))
  {
    hide SoundVisit, Taken, NextCursor, Received;
    if visits == [] {
      EmptyCursor();
    } else {
      var n := |visits| - 1;
      var before := Transcript(visits[..n]);
      CursorWasReceived(visits[..n]);
      VisitCursor(visits[n], before);
    }
  }

  lemma EmptyCursor()
    ensures NextCursor([]).num == 0
  {}

  lemma VisitCursor(v: Visit, before: seq<Block>)
    requires SoundVisit(v)
    requires var c := NextCursor(before); c.num == 0 || (c.num <= MAX_COUNTER && Received(before, c.num))
    ensures var all := before + Taken(v, before);
            var c := NextCursor(all);
            c.num == 0 || (c.num <= MAX_COUNTER && Received(all, c.num))
  {
    var more := Taken(v, before);
    var all := before + more;
    if more == [] {
      assert all == before;
    } else {
      LastTakenClaims(v, before);
      var b := more[|more| - 1];
      assert all[|all| - 1] == b;
      CursorIsItsBlocks(all);
      hide NextCursor, Taken, SoundVisit;
      if b.Data? {
        assert Received(more, b.ev.num);
        ReceivedMore(before, more, b.ev.num);
      } else if b.num > 0 {
        ReceivedMore(before, more, b.num);
      }
    }
  }

  lemma LastTakenClaims(v: Visit, before: seq<Block>)
    requires SoundVisit(v) && Taken(v, before) != []
    ensures var b := Taken(v, before)[|Taken(v, before)| - 1];
            if b.Data? then 1 <= b.ev.num <= MAX_COUNTER else b.num == 0 || b.num == NextCursor(before).num
  {
    var o := VisitOpening(v, before);
    var queued := Queued(o, v.patience, v.inputs);
    var b := Taken(v, before)[|Taken(v, before)| - 1];
    assert b in queued;
    BrokerMarkers.MarkersClaimNothing(o, v.patience, v.inputs);
    FilterIsCursor(o.cursor, o.snap);
    hide NextCursor, CursorVerdict, Queued, Taken;
    if b.Data? {
      QueuedIsNamed(o, v.patience, v.inputs, b);
    }
  }

  lemma FilterIsCursor(c: Cursor, snap: Snapshot)
    ensures CursorVerdict(c, snap).filter == 0 || CursorVerdict(c, snap).filter == c.num
  {}

  lemma QueuedIsNamed(o: Opening, patience: nat, inputs: seq<Input>, b: Block)
    requires SoundSnapshot(o.snap) && SoundInputs(inputs) && b.Data? && b in Queued(o, patience, inputs)
    ensures 1 <= b.ev.num <= MAX_COUNTER
  {
    hide CursorVerdict, OpenSession, RunLive, SoundSnapshot;
    SessionsAreSound(o, patience, inputs);
    InSomeSegment(RunSession(o, patience, inputs).segments, b);
  }

  lemma {:induction false} InSomeSegment(segments: seq<seq<Block>>, b: Block)
    requires b in Flat(segments)
    ensures exists k :: 0 <= k < |segments| && b in segments[k]
  {
    if segments != [] {
      var n := |segments| - 1;
      if b !in segments[n] {
        InSomeSegment(segments[..n], b);
        var k :| 0 <= k < n && b in segments[..n][k];
        assert segments[k] == segments[..n][k];
      }
    }
  }

  lemma ExtendsComplete(v: Visit, before: seq<Block>)
    requires SoundVisit(v) && Complete(before)
    requires !HasMarker(Taken(v, before)) && Taken(v, before) != []
    ensures Complete(before + Taken(v, before))
  {
    hide SoundVisit, Taken, NextCursor, CursorVerdict;
    var clean := Taken(v, before);
    var all := before + clean;
    NumsConcat(before, clean);
    if before == [] {
      var g' := VisitFacts(v, before, "", 0);
      ConsecutiveNums(clean);
      assert all == clean;
      assert CompleteTo(all, g', |clean|);
    } else {
      var g, h :| CompleteTo(before, g, h);
      var g' := VisitFacts(v, before, g, h);
      ConsecutiveNums(clean);
      assert before[|before| - 1].ev.num in Nums(before);
      assert CompleteTo(all, g, Max(h, clean[0].ev.num + |clean| - 1));
    }
  }

  /** The subscription delivers only what was published after it: nothing at or below the cursor. */
  ghost predicate FreshChannel(v: Visit, cursor: Cursor) {
    forall i :: 0 <= i < |v.inputs| && v.inputs[i].poll.Message? && cursor.epoch == Some(v.inputs[i].poll.ev.epoch)
                ==> v.inputs[i].poll.ev.num > cursor.num
  }

  ghost predicate FreshChain(visits: seq<Visit>) {
    visits != [] ==>
      var init := visits[..|visits| - 1];
      FreshChain(init) && FreshChannel(visits[|visits| - 1], NextCursor(Transcript(init)))
  }

  /** Seq `i + 1` of generation `g` at every index `i`. */
  ghost predicate Exact(taken: seq<Block>, g: string) {
    g != "" && forall i :: 0 <= i < |taken| ==>
                             taken[i].Data? && taken[i].ev.epoch == g && taken[i].ev.num == i + 1 <= MAX_COUNTER
  }

  /** With such a channel the transcript of an unmarked client is the generation itself: each seq
      from 1 on, once, in order. */
  lemma {:induction false} ChainIsExact(visits: seq<Visit>)
    requires forall i :: 0 <= i < |visits| ==> SoundVisit(visits[i])
    requires FreshChain(visits)
    ensures HasMarker(Transcript(visits)) || Transcript(visits) == [] || exists g :: Exact(Transcript(visits), g)
  {
    hide SoundVisit, Taken, FreshChannel, NextCursor, Nums, CursorVerdict;
    if visits != [] {
      var n := |visits| - 1;
      var before := Transcript(visits[..n]);
      var clean := Taken(visits[n], before);
      ChainIsExact(visits[..n]);
      NumsConcat(before, clean);
      if !HasMarker(before + clean) {
        if clean == [] {
          assert before + clean == before;
        } else if before == [] {
          var g := VisitFacts(visits[n], before, "", 0);
          assert before + clean == clean;
          assert clean[0].ev.num == 1;
          ExactConcat([], clean, g);
        } else {
          var g :| Exact(before, g);
          ExtendsExact(visits[n], before, g);
        }
      }
    }
  }

  lemma ExactIsComplete(taken: seq<Block>, g: string)
    requires Exact(taken, g) && taken != []
    ensures CompleteTo(taken, g, |taken|)
  {
    ConsecutiveNums(taken);
  }

  lemma ExactConcat(before: seq<Block>, clean: seq<Block>, g: string)
    requires Exact(before, g) && clean != [] && AllNamed(clean, g) && clean[0].Data?
    requires clean[0].ev.num == |before| + 1
    requires forall i :: 0 <= i < |clean| ==> clean[i].Data? && clean[i].ev.num == clean[0].ev.num + i
    ensures Exact(before + clean, g)
  {
    var all := before + clean;
    forall i | |before| <= i < |all|
      ensures all[i].Data? && all[i].ev.epoch == g && all[i].ev.num == i + 1 <= MAX_COUNTER
    {
      assert all[i] == clean[i - |before|];
    }
  }

  lemma ExtendsExact(v: Visit, before: seq<Block>, g: string)
    requires SoundVisit(v) && Exact(before, g) && before != [] && FreshChannel(v, NextCursor(before))
    requires !HasMarker(Taken(v, before)) && Taken(v, before) != []
    ensures Exact(before + Taken(v, before), g)
  {
    ExactIsComplete(before, g);
    hide CursorVerdict, NextCursor, Queued, SoundSnapshot, CompleteTo;
    var clean := Taken(v, before);
    var g' := VisitFacts(v, before, g, |before|);
    var o := VisitOpening(v, before);
    assert Data(clean[0].ev) in Queued(o, v.patience, v.inputs);
    NothingInvented(o, v.patience, v.inputs, clean[0].ev);
    assert clean[0].ev.num > |before|;
    ExactConcat(before, clean, g);
  }
}
