/**
 The delivery pipeline of one client stream: a reader, a writer and a supervisor around one bounded
 queue with a reserved slot for the end-of-stream sentinel, a normal-end flag and an abnormal
 signal.  Every `Step` is one stretch of code between two awaits; a run is any interleaving.
 */
module Handover {
  import opened Common
  import opened Broker

  /** The ceiling for ordinary blocks (the queue holds one more) and the drain budget. */
  datatype Config = Config(ceiling: nat, budget: int)

  datatype Item = Piece(block: Block) | EndOfStream

  datatype Reader =
    | Replaying               // waits for room, bounded by time
    | Following(puts: nat)    // live discipline; how many blocks it has put so far
    | EndedNormally
    | EndedAbnormally
    | Crashed

  datatype Reason = EndSeen | Abandoned | DrainTimedOut | ClientLeft

  datatype Writer =
    | AtTop                             // about to run the top of its loop
    | Waiting(hand: Option<Item>)       // suspended; the getter may already hold an item
    | Yielding(direct: bool)            // a block is with the client; taken straight from the queue or by the getter
    | Closed(reason: Reason)

  datatype Pipe = Pipe(
    queue: seq<Item>,
    normalEnd: bool,                    // the flag
    closing: bool,                      // the abnormal signal
    reader: Reader,
    supervisorFailed: bool,
    writer: Writer,
    drainDeadline: Option<int>,
    lastDelivered: int,
    now: int,
    queued: seq<Block>,                 // everything ever put, in order
    received: seq<Block>)               // everything the client was handed, in order

  datatype Step =
    | Tick(dt: nat)
    | Put(block: Block)                 // `_put_due_replay` or `_offer_live`, with room
    | GoLive                            // `_await_live_phase` returns
    | RefuseLive                        // `_offer_live` at the ceiling
    | GiveUp                            // any other abnormal end of the reader
    | FinishNormally                    // flag first, sentinel second, no await between
    | ReaderCrashes
    | SupervisorCloses(over: bool, idle: bool, lease: Option<bool>)   // rule 4 or 5, after its last hand-over check
    | SupervisorCrashes
    | WriterRuns
    | GetterTakes
    | WriterWakes
    | ClientTakesMore
    | ClientLeaves

  predicate Working(r: Reader) { r.Replaying? || r.Following? }

  predicate HandoverInProgress(p: Pipe, cfg: Config) {
    p.queue != [] && p.now - p.lastDelivered < cfg.budget
  }

  predicate Enabled(p: Pipe, cfg: Config, s: Step) {
    !p.writer.Closed? &&    // closing the writer cancels the other two tasks
    match s
    case Tick(_) => true
    case Put(_) => Working(p.reader) && |p.queue| < cfg.ceiling
    case GoLive => p.reader.Replaying? && |p.queue| <= cfg.ceiling / 2
    case RefuseLive => p.reader.Following? && |p.queue| >= cfg.ceiling
    case GiveUp => Working(p.reader)
    case FinishNormally => Working(p.reader)
    case ReaderCrashes => Working(p.reader)
    case SupervisorCloses(over, idle, lease) =>
      !p.supervisorFailed && !HandoverInProgress(p, cfg) && (over || (idle && lease == Some(false)))
    case SupervisorCrashes => true
    case WriterRuns => p.writer.AtTop?
    case GetterTakes => p.writer == Waiting(None) && p.queue != []
    case WriterWakes => p.writer.Waiting?
    case ClientTakesMore => p.writer.Yielding?
    case ClientLeaves => p.writer.Yielding? || p.writer.Waiting?
  }

  function HandOut(p: Pipe, item: Item, direct: bool): Pipe {
    if item.EndOfStream? then p.(writer := Closed(EndSeen))
    else p.(writer := Yielding(direct), received := p.received + [item.block])
  }

  /** The top of the writer's loop, up to its next await. */
  function RunWriter(p: Pipe, cfg: Config): Pipe {
    var deadline :=
      if p.normalEnd && p.drainDeadline.None? then Some(p.now + cfg.budget) else p.drainDeadline;
    var q := p.(drainDeadline := deadline);
    if deadline.None? && (p.closing || !Working(p.reader) || p.supervisorFailed) then
      q.(writer := Closed(Abandoned))
    else if p.queue != [] then HandOut(q.(queue := p.queue[1..]), p.queue[0], true)
    else if deadline.Some? && p.now >= deadline.value then q.(writer := Closed(DrainTimedOut))
    else q.(writer := Waiting(None))
  }

  function Next(p: Pipe, cfg: Config, s: Step): Pipe
    requires Enabled(p, cfg, s)
  {
    match s
    case Tick(dt) => p.(now := p.now + dt)
    case Put(b) =>
      p.(queue := p.queue + [Piece(b)], queued := p.queued + [b],
         reader := if p.reader.Following? then Following(p.reader.puts + 1) else p.reader)
    case GoLive => p.(reader := Following(0))
    case RefuseLive => p.(reader := EndedAbnormally, closing := true)
    case GiveUp => p.(reader := EndedAbnormally, closing := true)
    case FinishNormally => p.(reader := EndedNormally, normalEnd := true, queue := p.queue + [EndOfStream])
    case ReaderCrashes => p.(reader := Crashed)
    case SupervisorCloses(_, _, _) => p.(closing := true)
    case SupervisorCrashes => p.(supervisorFailed := true)
    case WriterRuns => RunWriter(p, cfg)
    case GetterTakes => p.(queue := p.queue[1..], writer := Waiting(Some(p.queue[0])))
    case WriterWakes =>
      if p.writer.hand.None? then p.(writer := AtTop) else HandOut(p, p.writer.hand.value, false)
    case ClientTakesMore =>
      p.(writer := AtTop, lastDelivered := p.now,
         drainDeadline := if p.writer.direct && p.drainDeadline.Some? then Some(p.now + cfg.budget)
                          else p.drainDeadline)
    case ClientLeaves => p.(writer := Closed(ClientLeft))
  }

  ghost predicate Initial(p: Pipe) {
    && p.queue == [] && !p.normalEnd && !p.closing && p.reader == Replaying && !p.supervisorFailed
    && p.writer == AtTop && p.drainDeadline == None && p.queued == [] && p.received == []
  }

  /** A run: every step enabled where it is taken. */
  ghost predicate Run(trace: seq<Pipe>, steps: seq<Step>, cfg: Config) {
    && |trace| == |steps| + 1 && Initial(trace[0])
    && forall i :: 0 <= i < |steps| ==>
                     Enabled(trace[i], cfg, steps[i]) && trace[i + 1] == Next(trace[i], cfg, steps[i])
  }

  // ----- the invariant ------------------------------------------------------------------------

  function Blocks(items: seq<Item>): seq<Block> {
    if items == [] then []
    else Blocks(items[..|items| - 1]) + (if items[|items| - 1].Piece? then [items[|items| - 1].block] else [])
  }

  function InHand(w: Writer): seq<Item> {
    if w.Waiting? && w.hand.Some? then [w.hand.value] else []
  }

  /** Ordinary blocks only, but for the sentinel in the last place when `ended`. */
  ghost predicate Shape(items: seq<Item>, ended: bool) {
    if ended then
      items != [] && items[|items| - 1].EndOfStream?
      && forall i :: 0 <= i < |items| - 1 ==> items[i].Piece?
    else forall i :: 0 <= i < |items| ==> items[i].Piece?
  }

  ghost predicate Inv(p: Pipe, cfg: Config) {
    && p.received <= p.queued
    && (p.writer != Closed(ClientLeft) ==> p.received + Blocks(InHand(p.writer) + p.queue) == p.queued)
    && (p.normalEnd <==> p.reader == EndedNormally)
    && (!p.writer.Closed? ==> Shape(InHand(p.writer) + p.queue, p.normalEnd))
    && (p.writer == Closed(EndSeen) ==> p.normalEnd && p.queue == [])
    && |p.queue| <= cfg.ceiling + (if p.normalEnd then 1 else 0)
    && (p.drainDeadline.Some? ==> p.normalEnd)
    && (p.writer == Closed(Abandoned) ==> !p.normalEnd)
    && p.writer != Closed(DrainTimedOut)
    && (p.reader.Following? ==> |p.queue| <= cfg.ceiling / 2 + p.reader.puts)
  }

  lemma BlocksAppend(items: seq<Item>, item: Item)
    ensures Blocks(items + [item]) == Blocks(items) + (if item.Piece? then [item.block] else [])
  {
    assert (items + [item])[..|items|] == items;
  }

  lemma {:induction false} BlocksHead(items: seq<Item>)
    requires items != []
    ensures Blocks(items) == (if items[0].Piece? then [items[0].block] else []) + Blocks(items[1..])
  {
    var n := |items| - 1;
    if n == 0 {
      assert items[1..] == [] && items[..0] == [];
    } else {
      BlocksHead(items[..n]);
      assert items[..n][1..] == items[1..][..n - 1];
    }
  }

  lemma InvPut(p: Pipe, cfg: Config, b: Block)
    requires Inv(p, cfg) && Enabled(p, cfg, Put(b))
    ensures Inv(Next(p, cfg, Put(b)), cfg)
  {
    hide Blocks;
    var all := InHand(p.writer) + p.queue;
    BlocksAppend(all, Piece(b));
    assert InHand(p.writer) + (p.queue + [Piece(b)]) == all + [Piece(b)];
    assert p.received + (Blocks(all) + [b]) == p.queued + [b];
  }

  lemma InvFinish(p: Pipe, cfg: Config)
    requires Inv(p, cfg) && Enabled(p, cfg, FinishNormally)
    ensures Inv(Next(p, cfg, FinishNormally), cfg)
  {
    hide Blocks;
    var all := InHand(p.writer) + p.queue;
    BlocksAppend(all, EndOfStream);
    assert InHand(p.writer) + (p.queue + [EndOfStream]) == all + [EndOfStream];
    assert Blocks(all) + [] == Blocks(all);
  }

  lemma ShapeTail(item: Item, rest: seq<Item>, ended: bool)
    requires Shape([item] + rest, ended)
    ensures if item.Piece? then Shape(rest, ended) else ended && rest == []
  {
    var all := [item] + rest;
    assert all[0] == item && forall i :: 0 <= i < |rest| ==> all[i + 1] == rest[i];
    assert rest != [] ==> all[|all| - 1] == rest[|rest| - 1];
  }

  lemma ShapeOfNothing(ended: bool)
    ensures Shape([], ended) <==> !ended
  {}

  lemma MoveOne(received: seq<Block>, item: Item, rest: seq<Item>, queued: seq<Block>)
    requires received + Blocks([item] + rest) == queued
    ensures var now := received + if item.Piece? then [item.block] else [];
            now + Blocks(rest) == queued && now <= queued
  {
    BlocksHead([item] + rest);
    hide Blocks;
    assert ([item] + rest)[1..] == rest;
    var head := if item.Piece? then [item.block] else [];
    assert received + (head + Blocks(rest)) == (received + head) + Blocks(rest);
  }

  lemma InvHandOut(p: Pipe, cfg: Config, item: Item, rest: seq<Item>, direct: bool)
    requires Inv(p, cfg) && !p.writer.Closed? && InHand(p.writer) + p.queue == [item] + rest
    requires |rest| <= |p.queue|
    ensures Inv(HandOut(p.(queue := rest), item, direct), cfg)
  {
    hide Blocks, Shape;
    MoveOne(p.received, item, rest, p.queued);
    ShapeTail(item, rest, p.normalEnd);
    var q := HandOut(p.(queue := rest), item, direct);
    assert InHand(q.writer) + q.queue == rest;
    assert item.EndOfStream? ==> p.received + [] == p.received;
  }

  lemma InvWriterRuns(p: Pipe, cfg: Config)
    requires Inv(p, cfg) && p.writer.AtTop?
    ensures Inv(RunWriter(p, cfg), cfg)
  {
    hide Blocks, HandOut, Shape;
    var deadline := if p.normalEnd && p.drainDeadline.None? then Some(p.now + cfg.budget) else p.drainDeadline;
    var q := p.(drainDeadline := deadline);
    assert InHand(p.writer) + p.queue == p.queue;
    assert Inv(q, cfg);
    if p.queue == [] {
      ShapeOfNothing(p.normalEnd);
    } else {
      assert [p.queue[0]] + p.queue[1..] == p.queue;
      InvHandOut(q, cfg, p.queue[0], p.queue[1..], true);
    }
  }

  lemma InvGetter(p: Pipe, cfg: Config)
    requires Inv(p, cfg) && Enabled(p, cfg, GetterTakes)
    ensures Inv(Next(p, cfg, GetterTakes), cfg)
  {
    hide Blocks, Shape;
    assert [p.queue[0]] + p.queue[1..] == InHand(p.writer) + p.queue;
  }

  lemma InvWakes(p: Pipe, cfg: Config)
    requires Inv(p, cfg) && Enabled(p, cfg, WriterWakes)
    ensures Inv(Next(p, cfg, WriterWakes), cfg)
  {
    hide Blocks, Shape, HandOut;
    if p.writer.hand.Some? {
      InvHandOut(p, cfg, p.writer.hand.value, p.queue, false);
      assert p.(queue := p.queue) == p;
    }
  }

  lemma InvStep(p: Pipe, cfg: Config, s: Step)
    requires Inv(p, cfg) && Enabled(p, cfg, s)
    ensures Inv(Next(p, cfg, s), cfg)
  {
    match s {
      case Put(b) => InvPut(p, cfg, b);
      case FinishNormally => InvFinish(p, cfg);
      case WriterRuns => InvWriterRuns(p, cfg);
      case GetterTakes => InvGetter(p, cfg);
      case WriterWakes => InvWakes(p, cfg);
      case _ => hide Blocks, Shape;
    }
  }

  lemma {:induction false} RunsKeepInv(trace: seq<Pipe>, steps: seq<Step>, cfg: Config, i: nat)
    requires Run(trace, steps, cfg) && i < |trace|
    ensures Inv(trace[i], cfg)
  {
    hide Inv;
    if i == 0 {
      InitialInv(trace[0], cfg);
    } else {
      RunsKeepInv(trace, steps, cfg, i - 1);
      InvStep(trace[i - 1], cfg, steps[i - 1]);
    }
  }

  lemma InitialInv(p: Pipe, cfg: Config)
    requires Initial(p)
    ensures Inv(p, cfg)
  {
    assert InHand(p.writer) + p.queue == [];
  }

  // ----- the theorems -------------------------------------------------------------------------

  /** Whatever the interleaving, the client holds a prefix of what was queued, in order. */
  lemma ReceivedIsPrefix(trace: seq<Pipe>, steps: seq<Step>, cfg: Config, i: nat)
    requires Run(trace, steps, cfg) && i < |trace|
    ensures trace[i].received <= trace[i].queued
  {
    RunsKeepInv(trace, steps, cfg, i);
  }

  /** The sentinel always finds its slot: a reader that may still finish sees at most `ceiling`
      items in a queue of `ceiling + 1`. */
  lemma SentinelFits(trace: seq<Pipe>, steps: seq<Step>, cfg: Config, i: nat)
    requires Run(trace, steps, cfg) && i < |trace| && Enabled(trace[i], cfg, FinishNormally)
    ensures |trace[i].queue| < cfg.ceiling + 1
  {
    RunsKeepInv(trace, steps, cfg, i);
  }

  /** Once the flag is set no close rule discards the queue: the writer stops only behind the last
      queued block, or because the client left; the drain timeout is never reached at all. */
  lemma NormalEndIsDelivered(trace: seq<Pipe>, steps: seq<Step>, cfg: Config, i: nat)
    requires Run(trace, steps, cfg) && i < |trace|
    ensures trace[i].writer != Closed(DrainTimedOut)
    ensures trace[i].writer == Closed(EndSeen) ==> trace[i].received == trace[i].queued
    ensures trace[i].normalEnd && trace[i].writer.Closed? ==>
              trace[i].writer.reason.EndSeen? || trace[i].writer.reason.ClientLeft?
  {
    RunsKeepInv(trace, steps, cfg, i);
    assert trace[i].writer == Closed(EndSeen) ==> InHand(trace[i].writer) + trace[i].queue == [];
  }

  /** A live block is refused only to a client that let at least half the ceiling of live blocks pile up:
      that many of the newest ones are still waiting in the queue, and the replay never counts against
      it. */
  lemma RefusedOnlyWhenBehind(trace: seq<Pipe>, steps: seq<Step>, cfg: Config, i: nat)
    requires Run(trace, steps, cfg) && i < |steps| && steps[i].RefuseLive?
    ensures var p, k := trace[i], cfg.ceiling - cfg.ceiling / 2;
            var waiting := Blocks(p.queue);
            && p.reader.puts >= k && k <= |waiting| && k <= |p.queued|
            && waiting[|waiting| - k..] == p.queued[|p.queued| - k..]
  {
    RunsKeepInv(trace, steps, cfg, i);
    RefusedAtCeiling(trace[i], cfg);
  }

  lemma RefusedAtCeiling(p: Pipe, cfg: Config)
    requires Inv(p, cfg) && Enabled(p, cfg, RefuseLive)
    ensures var k := cfg.ceiling - cfg.ceiling / 2;
            var waiting := Blocks(p.queue);
            && p.reader.puts >= k && k <= |waiting| && k <= |p.queued|
            && waiting[|waiting| - k..] == p.queued[|p.queued| - k..]
  {
    hide Blocks, Shape, InHand;
    var k := cfg.ceiling - cfg.ceiling / 2;
    assert k <= |p.queue| && p.reader.puts >= k && !p.normalEnd;
    WaitingIsNewest(p.received, InHand(p.writer), p.queue, p.queued, k);
  }

  lemma WaitingIsNewest(received: seq<Block>, hand: seq<Item>, queue: seq<Item>, queued: seq<Block>, k: nat)
    requires received + Blocks(hand + queue) == queued && Shape(hand + queue, false) && k <= |queue|
    ensures |Blocks(queue)| == |queue| <= |queued|
    ensures Blocks(queue)[|queue| - k..] == queued[|queued| - k..]
  {
    forall j | 0 <= j < |queue| ensures queue[j].Piece? {
      assert (hand + queue)[|hand| + j] == queue[j];
    }
    AllPieces(queue);
    BlocksSplit(hand, queue);
    hide Blocks, Shape;
    assert queued == (received + Blocks(hand)) + Blocks(queue);
  }

  lemma {:induction false} AllPieces(items: seq<Item>)
    requires forall i :: 0 <= i < |items| ==> items[i].Piece?
    ensures |Blocks(items)| == |items|
  {
    if items != [] {
      AllPieces(items[..|items| - 1]);
    }
  }

  lemma {:induction false} BlocksSplit(a: seq<Item>, b: seq<Item>)
    ensures Blocks(a + b) == Blocks(a) + Blocks(b)
  {
    if b == [] {
      assert a + b == a;
    } else {
      var n := |b| - 1;
      BlocksSplit(a, b[..n]);
      assert (a + b)[..|a + b| - 1] == a + b[..n];
    }
  }

  /** Something other than a normal end of the reader. */
  predicate Alarming(s: Step) {
    s.RefuseLive? || s.GiveUp? || s.ReaderCrashes? || s.SupervisorCloses? || s.SupervisorCrashes?
  }

  ghost predicate Troubled(steps: seq<Step>, i: nat)
    requires i <= |steps|
  {
    exists j :: 0 <= j < i && Alarming(steps[j])
  }

  ghost predicate Finished(steps: seq<Step>, i: nat)
    requires i <= |steps|
  {
    exists j :: 0 <= j < i && steps[j].FinishNormally?
  }

  predicate Alarmed(p: Pipe) { p.closing || p.supervisorFailed || p.reader.EndedAbnormally? || p.reader.Crashed? }

  lemma FlagStep(p: Pipe, cfg: Config, s: Step)
    requires Enabled(p, cfg, s)
    ensures var q := Next(p, cfg, s);
            (q.normalEnd <==> p.normalEnd || s.FinishNormally?) && (Alarmed(q) <==> Alarmed(p) || Alarming(s))
  {}

  lemma HistoryStep(steps: seq<Step>, i: nat)
    requires i < |steps|
    ensures Troubled(steps, i + 1) <==> Troubled(steps, i) || Alarming(steps[i])
    ensures Finished(steps, i + 1) <==> Finished(steps, i) || steps[i].FinishNormally?
  {}

  lemma {:induction false} FlagsTellTheTruth(trace: seq<Pipe>, steps: seq<Step>, cfg: Config, i: nat)
    requires Run(trace, steps, cfg) && i < |trace|
    ensures (Alarmed(trace[i]) <==> Troubled(steps, i)) && (trace[i].normalEnd <==> Finished(steps, i))
  {
    if i > 0 {
      hide Next, Alarmed, Alarming, Troubled, Finished;
      FlagsTellTheTruth(trace, steps, cfg, i - 1);
      FlagStep(trace[i - 1], cfg, steps[i - 1]);
      HistoryStep(steps, i - 1);
    }
  }

  /** The writer abandons the stream at the top of its loop if and only if something went wrong before and
      the reader had not ended normally; what is left in the queue is then not waited for. */
  lemma AbandonsIff(trace: seq<Pipe>, steps: seq<Step>, cfg: Config, i: nat)
    requires Run(trace, steps, cfg) && i < |steps| && steps[i].WriterRuns?
    ensures trace[i + 1].writer == Closed(Abandoned) <==> Troubled(steps, i) && !Finished(steps, i)
  {
    FlagsTellTheTruth(trace, steps, cfg, i);
    RunsKeepInv(trace, steps, cfg, i);
    hide Blocks, Shape, Troubled, Finished;
    WriterAbandonsIff(trace[i], cfg);
  }

  lemma WriterAbandonsIff(p: Pipe, cfg: Config)
    requires Inv(p, cfg) && p.writer.AtTop?
    ensures RunWriter(p, cfg).writer == Closed(Abandoned) <==> Alarmed(p) && !p.normalEnd
  {
    hide Blocks, Shape;
  }

  lemma TimeStep(p: Pipe, cfg: Config, s: Step)
    requires Enabled(p, cfg, s)
    ensures var q := Next(p, cfg, s);
            && q.now == p.now + (if s.Tick? then s.dt else 0)
            && q.lastDelivered == if s.ClientTakesMore? then p.now else p.lastDelivered
  {}

  lemma {:induction false} LastDeliveredCovers(trace: seq<Pipe>, steps: seq<Step>, cfg: Config, j: nat, i: nat)
    requires Run(trace, steps, cfg) && j < i < |trace| && steps[j].ClientTakesMore?
    ensures trace[j].now <= trace[i].lastDelivered && trace[j].now <= trace[i].now
  {
    hide Next;
    TimeStep(trace[i - 1], cfg, steps[i - 1]);
    if j < i - 1 {
      LastDeliveredCovers(trace, steps, cfg, j, i - 1);
    }
  }

  /** The supervisor never closes while blocks are moving: when it does, the queue is empty or the client
      has taken nothing for a whole budget; and the run is over, or idle with its lease known to be gone. */
  lemma CloseNeedsStandstill(trace: seq<Pipe>, steps: seq<Step>, cfg: Config, j: nat, i: nat)
    requires Run(trace, steps, cfg) && j < i < |steps| && steps[i].SupervisorCloses? && steps[j].ClientTakesMore?
    ensures trace[i].queue == [] || trace[i].now - trace[j].now >= cfg.budget
    ensures steps[i].over || (steps[i].idle && steps[i].lease == Some(false))
  {
    LastDeliveredCovers(trace, steps, cfg, j, i);
  }

  /** Serve the client until the stream closes: `n` blocks and then the sentinel. */
  function Drain(p: Pipe, cfg: Config, n: nat): Pipe
    decreases n
  {
    if !p.writer.AtTop? then p
    else
      var q := RunWriter(p, cfg);
      if n == 0 || !q.writer.Yielding? then q else Drain(Next(q, cfg, ClientTakesMore), cfg, n - 1)
  }

  lemma DrainTurn(p: Pipe, cfg: Config)
    requires Inv(p, cfg) && p.normalEnd && p.writer.AtTop?
    ensures var q := RunWriter(p, cfg);
            && q.queued == p.queued && q.normalEnd
            && (if q.writer.Yielding? then Inv(Next(q, cfg, ClientTakesMore), cfg) && |q.queue| == |p.queue| - 1
                else q.writer == Closed(EndSeen) && q.received == q.queued)
  {
    hide Blocks;
    assert InHand(p.writer) + p.queue == p.queue;
    InvWriterRuns(p, cfg);
    var q := RunWriter(p, cfg);
    if q.writer.Yielding? {
      InvStep(q, cfg, ClientTakesMore);
    } else {
      assert InHand(q.writer) + q.queue == [];
      BlocksOfNothing();
    }
  }

  lemma BlocksOfNothing()
    ensures Blocks([]) == []
  {}

  /** The drain of a normal end terminates with everything delivered, in as many hand-overs as there
      are blocks left, whatever the clock says and whatever the supervisor signalled meanwhile. */
  lemma {:induction false} DrainCompletes(p: Pipe, cfg: Config)
    requires Inv(p, cfg) && p.normalEnd && p.writer.AtTop?
    ensures var end := Drain(p, cfg, |p.queue|);
            end.writer == Closed(EndSeen) && end.received == p.queued == end.queued
    decreases |p.queue|
  {
    var q := RunWriter(p, cfg);
    DrainTurn(p, cfg);
    hide Inv, RunWriter;
    if q.writer.Yielding? {
      DrainCompletes(Next(q, cfg, ClientTakesMore), cfg);
    }
  }
}
