/**
 The orphan sweep in time: three checks made at three different moments (Redis uptime, stale
 heartbeat, no live lease) against a consumer that stamps and renews on its supervisor's tick.
 Redis may restart or be flushed at any step.
 */
module Sweep {
  import opened Common

  /** Seconds, as in the settings. */
  datatype Config = Config(renew: int, ttl: int, heartbeat: int, orphanTimeout: int, grace: int)

  /** What the settings validator enforces. */
  predicate Validated(c: Config) {
    && c.renew > 0 && c.ttl > 0 && c.heartbeat > 0 && c.orphanTimeout > 0 && c.grace > 0
    && c.renew < c.ttl && c.heartbeat < c.orphanTimeout && c.renew < c.grace
  }

  datatype Tick = Idle | Permitted | Listed    // how far one sweep tick has got with this run

  datatype World = World(
    now: int,
    boot: int,                 // when this Redis process started
    expiry: Option<int>,       // the lease key
    stamp: int,                // consumer_heartbeat_at, or created_at
    renewed: int,              // last answered renewal
    wiped: bool,               // keys gone since then, by a restart or a flush
    flushed: bool,             // by a flush
    tick: Tick,
    finalized: bool)

  predicate LeaseAlive(w: World) { w.expiry.Some? && w.now < w.expiry.value }

  datatype Step =
    | Wait(dt: nat)
    | Stamp                             // heartbeat written
    | Renew                             // renewal answered
    | Restart                           // Redis restarts: every lease is gone
    | Flush                             // keys wiped without a restart
    | CheckUptime(answered: bool)
    | ListCandidates
    | ProbeLease(answered: bool)

  predicate Enabled(w: World, s: Step) {
    match s
    case CheckUptime(_) => w.tick == Idle
    case ListCandidates => w.tick == Permitted
    case ProbeLease(_) => w.tick == Listed
    case _ => true
  }

  function Next(w: World, c: Config, s: Step): World {
    match s
    case Wait(dt) => w.(now := w.now + dt)
    case Stamp => w.(stamp := w.now)
    case Renew => w.(expiry := Some(w.now + c.ttl), renewed := w.now, wiped := false, flushed := false)
    case Restart => w.(boot := w.now, expiry := None, wiped := true)
    case Flush => w.(expiry := None, wiped := true, flushed := true)
    case CheckUptime(answered) => w.(tick := if answered && w.now - w.boot >= c.grace then Permitted else Idle)
    case ListCandidates => w.(tick := if w.stamp < w.now - c.orphanTimeout then Listed else Idle)
    case ProbeLease(answered) =>
      w.(tick := Idle, finalized := w.finalized || (answered && !LeaseAlive(w)))
  }

  ghost predicate Trace(ws: seq<World>, steps: seq<Step>, c: Config) {
    && |ws| == |steps| + 1 && ws[0].tick == Idle && !ws[0].finalized
    && forall i :: 0 <= i < |steps| ==> Enabled(ws[i], steps[i]) && ws[i + 1] == Next(ws[i], c, steps[i])
  }

  // ----- the heartbeat alone ------------------------------------------------------------------

  /** The consumer never lets more than `period` pass without a stamp. */
  ghost predicate Stamping(ws: seq<World>, period: int) {
    forall i :: 0 <= i < |ws| ==> ws[i].now - ws[i].stamp <= period
  }

  lemma {:induction false} StampedIsNeverListed(ws: seq<World>, steps: seq<Step>, c: Config, period: int, i: nat)
    requires Trace(ws, steps, c) && Stamping(ws, period) && period <= c.orphanTimeout && i < |ws|
    ensures ws[i].tick != Listed && !ws[i].finalized
  {
    if i > 0 {
      StampedIsNeverListed(ws, steps, c, period, i - 1);
    }
  }

  /** A consumer that stamps at least once per `period` is safe from the sweep, whatever Redis does,
      if and only if the period is not longer than the orphan window. */
  lemma HeartbeatProtectsIff(c: Config, period: nat)
    requires Validated(c)
    ensures period <= c.orphanTimeout <==>
            forall ws: seq<World>, steps: seq<Step> :: Trace(ws, steps, c) && Stamping(ws, period) ==>
                                                         !ws[|steps|].finalized
  {
    if period <= c.orphanTimeout {
      forall ws: seq<World>, steps: seq<Step> | Trace(ws, steps, c) && Stamping(ws, period)
        ensures !ws[|steps|].finalized
      {
        StampedIsNeverListed(ws, steps, c, period, |steps|);
      }
    } else {
      var w0 := World(0, -c.grace, None, 0, 0, true, true, Idle, false);
      var steps := [Wait(period), CheckUptime(true), ListCandidates, ProbeLease(true)];
      var w1 := Next(w0, c, steps[0]);
      var w2 := Next(w1, c, steps[1]);
      var w3 := Next(w2, c, steps[2]);
      var ws := [w0, w1, w2, w3, Next(w3, c, steps[3])];
      assert Trace(ws, steps, c) && Stamping(ws, period) && ws[|steps|].finalized;
    }
  }

  /** The stamp is written on the renewal tick, and the validator compares the orphan window with
      another setting, so a validated configuration may leave the window shorter than the tick. */
  lemma ValidatorMissesTheTick()
    ensures exists c :: Validated(c) && c.renew > c.orphanTimeout
  {
    assert Validated(Config(100, 200, 30, 60, 300));
  }

  // ----- the lease alone ----------------------------------------------------------------------

  /** No more than `gap` passes between answered renewals; a real tick is its interval plus its work. */
  ghost predicate Renewing(ws: seq<World>, gap: int) {
    forall i :: 0 <= i < |ws| ==> 0 <= ws[i].now - ws[i].renewed <= gap
  }

  /** The key is what the last renewal made it, unless it was wiped since. */
  ghost predicate KeyInv(w: World, c: Config) {
    w.expiry == (if w.wiped then None else Some(w.renewed + c.ttl)) && (w.flushed ==> w.wiped)
  }

  lemma {:induction false} KeyHolds(ws: seq<World>, steps: seq<Step>, c: Config, i: nat)
    requires Trace(ws, steps, c) && KeyInv(ws[0], c) && i < |ws|
    ensures KeyInv(ws[i], c)
  {
    if i > 0 {
      KeyHolds(ws, steps, c, i - 1);
    }
  }

  /** A probe that finds the keys gone since the last renewal. */
  ghost predicate ProbesWiped(ws: seq<World>, steps: seq<Step>, i: int)
    requires |ws| == |steps| + 1
  {
    0 <= i < |steps| && steps[i] == ProbeLease(true) && ws[i].wiped
  }

  /** With every heartbeat failing, a consumer whose renewals are answered more often than the lease
      expires, over any restarts and flushes at any moment, is finalized if and only if some probe comes
      between a wipe and the next renewal. */
  lemma {:induction false} LiveLeaseIsFinalizedIff(ws: seq<World>, steps: seq<Step>, c: Config, gap: int, n: nat)
    requires gap < c.ttl && Trace(ws, steps, c) && Renewing(ws, gap) && KeyInv(ws[0], c) && n <= |steps|
    ensures ws[n].finalized <==> exists i :: i < n && ProbesWiped(ws, steps, i)
  {
    if n > 0 {
      LiveLeaseIsFinalizedIff(ws, steps, c, gap, n - 1);
      KeyHolds(ws, steps, c, n - 1);
      assert 0 <= ws[n - 1].now - ws[n - 1].renewed <= gap;
      assert steps[n - 1] == ProbeLease(true) ==> (LeaseAlive(ws[n - 1]) <==> !ws[n - 1].wiped);
      assert ws[n].finalized <==> ws[n - 1].finalized || ProbesWiped(ws, steps, n - 1);
    }
  }

  // ----- what the grace buys ------------------------------------------------------------------

  /** No restart between a sweep's uptime check and its lease probe. */
  ghost predicate QuietTicks(ws: seq<World>, steps: seq<Step>)
    requires |ws| == |steps| + 1
  {
    forall i :: 0 <= i < |steps| && steps[i].Restart? ==> ws[i].tick == Idle
  }

  ghost predicate GraceInv(w: World) {
    && w.boot <= w.now && w.renewed <= w.now
    && (w.wiped && !w.flushed ==> w.renewed <= w.boot)
    && (w.tick != Idle ==> w.boot < w.renewed)
  }

  /** A tick that passed the uptime check looks at a run renewed since the last restart: what it finds
      wiped was flushed. */
  lemma {:induction false} GraceProtects(ws: seq<World>, steps: seq<Step>, c: Config, gap: int, i: nat)
    requires gap < c.grace && Trace(ws, steps, c) && Renewing(ws, gap) && QuietTicks(ws, steps) && i < |ws|
    requires GraceInv(ws[0])
    ensures GraceInv(ws[i]) && (ws[i].tick != Idle && ws[i].wiped ==> ws[i].flushed)
  {
    if i > 0 {
      GraceProtects(ws, steps, c, gap, i - 1);
      assert 0 <= ws[i - 1].now - ws[i - 1].renewed <= gap;
    }
  }

  /** Hence, with renewal gaps below the grace too and no restart inside a tick, no number of restarts
      finalizes the run: only a probe between a flush and the next renewal does. */
  lemma RestartsAreHarmless(ws: seq<World>, steps: seq<Step>, c: Config, gap: int)
    requires gap < c.ttl && gap < c.grace && Trace(ws, steps, c) && Renewing(ws, gap) && QuietTicks(ws, steps)
    requires KeyInv(ws[0], c) && GraceInv(ws[0])
    ensures ws[|steps|].finalized <==> exists i :: ProbesWiped(ws, steps, i) && ws[i].flushed
  {
    LiveLeaseIsFinalizedIff(ws, steps, c, gap, |steps|);
    forall i | ProbesWiped(ws, steps, i) ensures ws[i].flushed {
      GraceProtects(ws, steps, c, gap, i);
    }
  }

  /** The assumption is needed: a restart inside the tick finalizes a run that renews on schedule. */
  lemma RestartInsideTickFinalizes(c: Config)
    requires Validated(c)
    ensures var now := c.grace + c.orphanTimeout + 1;
            var w0 := World(now, 0, Some(now + c.ttl), 0, now, false, false, Idle, false);
            var w := Next(Next(Next(w0, c, CheckUptime(true)), c, ListCandidates), c, Restart);
            KeyInv(w0, c) && GraceInv(w0) && Next(w, c, ProbeLease(true)).finalized
  {}

  /** Fail closed: an unanswered uptime check lists nothing, an unanswered probe finalizes nothing, and a
      tick ends with its probe. */
  lemma NoAnswerNoHarm(w: World, c: Config)
    ensures Next(w, c, CheckUptime(false)).tick == Idle
    ensures Next(w, c, ProbeLease(false)).finalized == w.finalized && Next(w, c, ProbeLease(false)).tick == Idle
  {}

  // ----- the tick over all candidates ---------------------------------------------------------

  /** How finalizing a candidate ends: committed, an SQL error, or any other error (a ledger conflict). */
  datatype Outcome = Done | SqlError | OtherError

  datatype Candidate = Candidate(run: string, lease: Option<bool>, outcome: Outcome)   // tri-state probe

  /** Its lease is known to be gone, so the tick tries to finalize it. */
  predicate Tried(c: Candidate) { c.lease == Some(false) }

  predicate Aborts(c: Candidate) { Tried(c) && c.outcome == OtherError }

  function Finalizable(rows: seq<Candidate>): seq<string> {
    if rows == [] then []
    else
      var n := |rows| - 1;
      Finalizable(rows[..n]) + if Tried(rows[n]) && rows[n].outcome == Done then [rows[n].run] else []
  }

  /** One tick: fail closed on an unknown uptime or lease; an SQL error of one run does not stop the rest,
      any other error ends the tick where it stands. */
  method SweepOrphans(uptime: Option<nat>, grace: nat, rows: seq<Candidate>)
    returns (finalized: seq<string>, reached: nat)
    ensures reached <= |rows| && finalized == Finalizable(rows[..reached])
    ensures uptime.None? || uptime.value < grace ==> reached == 0
    ensures uptime.Some? && uptime.value >= grace ==>
              && (forall i :: 0 <= i < reached ==> !Aborts(rows[i]))
              && (reached < |rows| ==> Aborts(rows[reached]))
  {
    finalized, reached := [], 0;
    if uptime.None? || uptime.value < grace {
      return;
    }
    while reached < |rows|
      invariant reached <= |rows| && finalized == Finalizable(rows[..reached])
      invariant forall i :: 0 <= i < reached ==> !Aborts(rows[i])
    {
      var row := rows[reached];
      if row.lease == Some(false) {
        if row.outcome == OtherError {
          return;
        }
        if row.outcome == Done {
          finalized := finalized + [row.run];
        }
      }
      assert rows[..reached + 1][..reached] == rows[..reached];
      reached := reached + 1;
    }
  }

  /** Exactly the candidates whose lease is known to be gone and whose writes succeed are finalized. */
  lemma {:induction false} OnlyKnownOrphans(rows: seq<Candidate>, run: string)
    ensures run in Finalizable(rows) <==>
            exists i :: 0 <= i < |rows| && rows[i].run == run && Tried(rows[i]) && rows[i].outcome == Done
  {
    if rows != [] {
      var n := |rows| - 1;
      var init := rows[..n];
      OnlyKnownOrphans(init, run);
      assert forall i :: 0 <= i < n ==> init[i] == rows[i];
    }
  }

  /** A candidate is served if and only if no candidate before it ends the tick; the query lists the oldest
      first, so one that does, and stays active, keeps all younger ones from every later tick. */
  lemma ServedIff(rows: seq<Candidate>, reached: nat, i: nat)
    requires reached <= |rows| && i < |rows| && (forall k :: 0 <= k < reached ==> !Aborts(rows[k]))
    requires reached < |rows| ==> Aborts(rows[reached])
    ensures i < reached <==> forall k :: 0 <= k <= i ==> !Aborts(rows[k])
  {
    if reached <= i {
      assert Aborts(rows[reached]);
    }
  }
}
