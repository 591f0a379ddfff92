/**
 The life of runs under every interleaving of stream events, pauses, client stops, orphan sweeps and
 any number of resume calls, each split at its commits: pre-check, compare-and-set, launch, and
 chain insert or revert.
 */
module Resume {
  import opened Common
  import opened Runs

  datatype Phase =
    | Checked                   // passed the status guard and the policy gate
    | Won                       // its compare-and-set committed; launching
    | Launched(child: string)   // upstream answered; child row not yet inserted
    | Lost                      // its compare-and-set matched nothing
    | Answered(run: string)     // 202 with this run id
    | Refused                   // any other answer, or the process died

  datatype Call = Call(parent: string, user: string, phase: Phase)

  /** `streaming` holds the runs whose event stream some driver may still process. */
  datatype System = System(rows: Table, calls: map<nat, Call>, streaming: set<string>)

  datatype Step =
    | CreateRoot(id: string, user: string)
    | Ask(call: nat, parent: string, user: string)
    | Cas(call: nat)
    | Resolve(call: nat, child: Option<string>)
    | LaunchFails(call: nat)
    | LaunchAnswers(call: nat, id: string)
    | Chain(call: nat)
    | CallDies(call: nat)
    | StreamPauses(run: string)
    | StreamEnds(run: string, to: Status)
    | StreamStops(run: string)
    | ClientStops(run: string, user: string)
    | SweepFails(run: string)

  predicate Enabled(s: System, step: Step) {
    match step
    case CreateRoot(_, _) => true
    case Ask(c, _, _) => c !in s.calls
    case Cas(c) => c in s.calls && s.calls[c].phase.Checked?
    case Resolve(c, child) =>
      && c in s.calls && s.calls[c].phase.Lost?
      && (if child.Some? then IsChild(s.rows, child.value, s.calls[c].parent) else !HasChild(s.rows, s.calls[c].parent))
    case LaunchFails(c) => c in s.calls && s.calls[c].phase.Won?
    case LaunchAnswers(c, _) => c in s.calls && s.calls[c].phase.Won?
    case Chain(c) => c in s.calls && s.calls[c].phase.Launched? && s.calls[c].parent in s.rows
    case CallDies(c) => c in s.calls && !s.calls[c].phase.Answered?
    case StreamPauses(r) => r in s.streaming
    case StreamEnds(r, to) => r in s.streaming && (to == Completed || to == Failed)
    case StreamStops(r) => r in s.streaming
    case ClientStops(_, _) => true
    case SweepFails(_) => true
  }

  function SetPhase(s: System, c: nat, phase: Phase): System
    requires c in s.calls
  {
    s.(calls := s.calls[c := s.calls[c].(phase := phase)])
  }

  function Next(s: System, step: Step): System
    requires Enabled(s, step)
  {
    match step
    case CreateRoot(id, user) =>
      s.(rows := CreateRunning(s.rows, id, user, None),
         streaming := if id in s.rows then s.streaming else s.streaming + {id})
    case Ask(c, p, user) =>
      var ok := p in s.rows && s.rows[p].user == user && (s.rows[p].status == Paused || s.rows[p].status == Resumed);
      s.(calls := s.calls[c := Call(p, user, if ok then Checked else Refused)])
    case Cas(c) =>
      var p := s.calls[c].parent;
      var won := p in s.rows && s.rows[p].status == Paused;
      SetPhase(s.(rows := CasResume(s.rows, p)), c, if won then Won else Lost)
    case Resolve(c, child) => SetPhase(s, c, if child.Some? then Answered(child.value) else Refused)
    case LaunchFails(c) => SetPhase(s.(rows := RevertCas(s.rows, s.calls[c].parent)), c, Refused)
    case LaunchAnswers(c, id) => SetPhase(s, c, Launched(id))
    case Chain(c) =>
      var p, id := s.calls[c].parent, s.calls[c].phase.child;
      SetPhase(s.(rows := CreateRunning(s.rows, id, s.rows[p].user, Some(p)),
                  streaming := if id in s.rows then s.streaming else s.streaming + {id}), c, Answered(id))
    case CallDies(c) => SetPhase(s, c, Refused)
    case StreamPauses(r) => s.(rows := MarkActive(s.rows, r, Paused), streaming := s.streaming - {r})
    case StreamEnds(r, to) => s.(rows := MarkActive(s.rows, r, to))
    case StreamStops(r) => s.(streaming := s.streaming - {r})
    case ClientStops(r, user) => s.(rows := MarkStopped(s.rows, r, user))
    case SweepFails(r) => s.(rows := MarkActive(s.rows, r, Failed))
  }

  // ----- single flight ------------------------------------------------------------------------

  predicate Winner(s: System, c: nat, p: string) {
    c in s.calls && s.calls[c].parent == p && (s.calls[c].phase.Won? || s.calls[c].phase.Launched?)
  }

  predicate Answer(s: System, c: nat, p: string) {
    c in s.calls && s.calls[c].parent == p && s.calls[c].phase.Answered?
  }

  /** A run that was resumed at some point: neither waiting for it nor never paused. */
  predicate Spent(s: System, p: string) {
    p in s.rows && s.rows[p].status != Paused && s.rows[p].status != Running
  }

  /** At most one party ever holds the right to continue a parent, all answers for it name the same
      run, and while it is paused (or has never been) nobody does. */
  ghost predicate SingleFlight(s: System) {
    && (forall c, d, p :: Winner(s, c, p) && Winner(s, d, p) ==> c == d)
    && (forall c, x, p :: Winner(s, c, p) && IsChild(s.rows, x, p) ==> false)
    && (forall c, d, p :: Winner(s, c, p) && Answer(s, d, p) ==> false)
    && (forall x, y, p :: IsChild(s.rows, x, p) && IsChild(s.rows, y, p) ==> x == y)
    && (forall c, d, p :: Answer(s, c, p) && Answer(s, d, p) ==> s.calls[c].phase.run == s.calls[d].phase.run)
    && (forall c, x, p :: Answer(s, c, p) && IsChild(s.rows, x, p) ==> s.calls[c].phase.run == x)
    && (forall c, p :: Winner(s, c, p) ==> Spent(s, p))
    && (forall c, p :: Answer(s, c, p) ==> Spent(s, p))
    && (forall x, p :: IsChild(s.rows, x, p) ==> Spent(s, p))
  }

  ghost predicate Inv(s: System) {
    && SingleFlight(s)
    && (forall r :: r in s.streaming ==> r in s.rows && s.rows[r].status != Paused && s.rows[r].status != Resumed)
  }

  /** Changing a status keeps single flight as long as no claimed parent is sent back to waiting. */
  lemma StatusKeeps(s: System, r: string, to: Status)
    requires SingleFlight(s) && r in s.rows
    requires to == Paused || to == Running ==>
               && !HasChild(s.rows, r)
               && (forall c :: !Winner(s, c, r)) && (forall c :: !Answer(s, c, r))
    ensures SingleFlight(s.(rows := SetStatus(s.rows, r, to)))
  {
    var t := s.(rows := SetStatus(s.rows, r, to));
    assert forall x, p :: IsChild(t.rows, x, p) <==> IsChild(s.rows, x, p);
    assert forall c, p :: Winner(t, c, p) <==> Winner(s, c, p);
    assert forall c, p :: Answer(t, c, p) <==> Answer(s, c, p);
    forall x, p | IsChild(t.rows, x, p) ensures Spent(t, p) {
      assert IsChild(s.rows, x, p);
    }
  }

  /** Moving a call on, without touching the rows. */
  lemma PhaseKeeps(s: System, c: nat, phase: Phase)
    requires SingleFlight(s) && c in s.calls
    requires phase.Won? ==>
               && Spent(s, s.calls[c].parent) && !HasChild(s.rows, s.calls[c].parent)
               && (forall d :: !Winner(s, d, s.calls[c].parent)) && (forall d :: !Answer(s, d, s.calls[c].parent))
    requires phase.Launched? ==> Winner(s, c, s.calls[c].parent)
    requires phase.Answered? ==>
               IsChild(s.rows, phase.run, s.calls[c].parent)
               || (Winner(s, c, s.calls[c].parent) && !HasChild(s.rows, s.calls[c].parent))
    ensures SingleFlight(SetPhase(s, c, phase))
  {
    var t := SetPhase(s, c, phase);
    var p := s.calls[c].parent;
    assert forall d, q :: d != c ==> (Winner(t, d, q) <==> Winner(s, d, q)) && (Answer(t, d, q) <==> Answer(s, d, q));
    assert forall q :: q != p ==> !Winner(t, c, q) && !Answer(t, c, q);
  }

  /** A new row: a root, or the continuation its parent's only claimant was answered with. */
  lemma InsertKeeps(s: System, id: string, user: string, parent: Option<string>)
    requires SingleFlight(s) && id !in s.rows
    requires parent.Some? ==>
               && Spent(s, parent.value) && !HasChild(s.rows, parent.value)
               && (forall c :: !Winner(s, c, parent.value))
               && (forall c :: Answer(s, c, parent.value) ==> s.calls[c].phase.run == id)
    ensures SingleFlight(s.(rows := CreateRunning(s.rows, id, user, parent)))
  {
    var t := s.(rows := CreateRunning(s.rows, id, user, parent));
    assert forall x, p :: IsChild(t.rows, x, p) <==> IsChild(s.rows, x, p) || (x == id && parent == Some(p));
    assert forall c, p :: (Winner(t, c, p) <==> Winner(s, c, p)) && (Answer(t, c, p) <==> Answer(s, c, p));
    assert forall p :: Spent(s, p) ==> Spent(t, p);
  }

  lemma CasKeeps(s: System, c: nat)
    requires SingleFlight(s) && Enabled(s, Cas(c))
    ensures SingleFlight(Next(s, Cas(c)))
  {
    var p := s.calls[c].parent;
    if p in s.rows && s.rows[p].status == Paused {
      assert !Spent(s, p);
      StatusKeeps(s, p, Resumed);
      var t := s.(rows := CasResume(s.rows, p));
      assert forall d :: Winner(t, d, p) <==> Winner(s, d, p);
      assert forall d :: Answer(t, d, p) <==> Answer(s, d, p);
      assert forall x :: IsChild(t.rows, x, p) <==> IsChild(s.rows, x, p);
      PhaseKeeps(t, c, Won);
    } else {
      assert s.(rows := CasResume(s.rows, p)) == s;
      PhaseKeeps(s, c, Lost);
    }
  }

  lemma LaunchFailsKeeps(s: System, c: nat)
    requires SingleFlight(s) && Enabled(s, LaunchFails(c))
    ensures SingleFlight(Next(s, LaunchFails(c)))
  {
    var p := s.calls[c].parent;
    assert Winner(s, c, p);
    PhaseKeeps(s, c, Refused);
    var t := SetPhase(s, c, Refused);
    assert forall d :: d != c ==> (Winner(t, d, p) <==> Winner(s, d, p));
    assert forall d :: Answer(t, d, p) <==> Answer(s, d, p);
    if p in s.rows && s.rows[p].status == Resumed && !HasChild(s.rows, p) {
      StatusKeeps(t, p, Paused);
    }
    assert Next(s, LaunchFails(c)) == t.(rows := RevertCas(t.rows, p));
  }

  lemma ChainKeeps(s: System, c: nat)
    requires SingleFlight(s) && Enabled(s, Chain(c))
    ensures SingleFlight(Next(s, Chain(c)))
  {
    var p, id := s.calls[c].parent, s.calls[c].phase.child;
    assert Winner(s, c, p);
    PhaseKeeps(s, c, Answered(id));
    var t := SetPhase(s, c, Answered(id));
    assert forall d :: d != c ==> (Winner(t, d, p) <==> Winner(s, d, p)) && (Answer(t, d, p) <==> Answer(s, d, p));
    if id !in s.rows {
      InsertKeeps(t, id, s.rows[p].user, Some(p));
      StreamingIrrelevant(t.(rows := CreateRunning(t.rows, id, s.rows[p].user, Some(p))), Next(s, Chain(c)));
    }
  }

  lemma StreamingIrrelevant(s: System, t: System)
    requires SingleFlight(s) && t.rows == s.rows && t.calls == s.calls
    ensures SingleFlight(t)
  {
    assert forall c, p :: (Winner(t, c, p) <==> Winner(s, c, p)) && (Answer(t, c, p) <==> Answer(s, c, p));
    assert forall p :: Spent(t, p) <==> Spent(s, p);
  }

  lemma SingleFlightStep(s: System, step: Step)
    requires Inv(s) && Enabled(s, step)
    ensures SingleFlight(Next(s, step))
  {
    hide SingleFlight;
    match step
    case CreateRoot(id, user) =>
      assert SingleFlight(s);
      if id !in s.rows {
        InsertKeeps(s, id, user, None);
        StreamingIrrelevant(s.(rows := CreateRunning(s.rows, id, user, None)), Next(s, step));
      }
    case Ask(c, p, user) => AskKeeps(s, c, p, user);
    case Cas(c) => CasKeeps(s, c);
    case Resolve(c, child) => PhaseKeeps(s, c, if child.Some? then Answered(child.value) else Refused);
    case LaunchFails(c) => LaunchFailsKeeps(s, c);
    case LaunchAnswers(c, id) =>
      assert Winner(s, c, s.calls[c].parent);
      PhaseKeeps(s, c, Launched(id));
    case Chain(c) => ChainKeeps(s, c);
    case CallDies(c) => PhaseKeeps(s, c, Refused);
    case StreamPauses(r) =>
      StreamPauseKeeps(s, r);
      StreamingIrrelevant(s.(rows := MarkActive(s.rows, r, Paused)), Next(s, step));
    case StreamEnds(r, to) => MarkKeeps(s, r, to);
    case StreamStops(r) => StreamingIrrelevant(s, Next(s, step));
    case ClientStops(r, user) =>
      if r in s.rows {
        StatusKeeps(s, r, Cancelled);
      }
      assert Next(s, step) == s || Next(s, step) == s.(rows := SetStatus(s.rows, r, Cancelled));
    case SweepFails(r) => MarkKeeps(s, r, Failed);
  }

  lemma MarkKeeps(s: System, r: string, to: Status)
    requires SingleFlight(s) && IsFinal(to)
    ensures SingleFlight(s.(rows := MarkActive(s.rows, r, to)))
  {
    if r in s.rows && IsActive(s.rows[r].status) {
      StatusKeeps(s, r, to);
    } else {
      assert s.(rows := MarkActive(s.rows, r, to)) == s;
    }
  }

  /** A run whose stream is still processed was never resumed, so nobody holds a claim on it. */
  lemma StreamPauseKeeps(s: System, r: string)
    requires Inv(s) && r in s.streaming
    ensures SingleFlight(s.(rows := MarkActive(s.rows, r, Paused)))
  {
    if IsActive(s.rows[r].status) {
      assert !Spent(s, r);
      StatusKeeps(s, r, Paused);
    } else {
      assert s.(rows := MarkActive(s.rows, r, Paused)) == s;
    }
  }

  lemma AskKeeps(s: System, c: nat, p: string, user: string)
    requires SingleFlight(s) && c !in s.calls
    ensures SingleFlight(Next(s, Ask(c, p, user)))
  {
    var t := Next(s, Ask(c, p, user));
    assert forall d, q :: (Winner(t, d, q) <==> Winner(s, d, q)) && (Answer(t, d, q) <==> Answer(s, d, q));
    assert forall q :: Spent(t, q) <==> Spent(s, q);
  }

  lemma StepKeeps(s: System, step: Step)
    requires Inv(s) && Enabled(s, step)
    ensures Inv(Next(s, step))
  {
    SingleFlightStep(s, step);
    hide SingleFlight;
  }

  // ----- the theorems -------------------------------------------------------------------------

  ghost predicate Run(trace: seq<System>, steps: seq<Step>) {
    && |trace| == |steps| + 1 && trace[0] == System(map[], map[], {})
    && forall i :: 0 <= i < |steps| ==> Enabled(trace[i], steps[i]) && trace[i + 1] == Next(trace[i], steps[i])
  }

  lemma {:induction false} RunsKeepInv(trace: seq<System>, steps: seq<Step>, i: nat)
    requires Run(trace, steps) && i < |trace|
    ensures Inv(trace[i])
  {
    hide Inv;
    if i == 0 {
      EmptyInv();
    } else {
      RunsKeepInv(trace, steps, i - 1);
      StepKeeps(trace[i - 1], steps[i - 1]);
    }
  }

  lemma EmptyInv()
    ensures Inv(System(map[], map[], {}))
  {}

  /** Single-flight resume: in every reachable state a parent has at most one continuation child;
      while it is paused it has no child and no winner in flight; and every resume call that was
      answered for it was answered with the same run, which is that child if there is one. */
  lemma ResumeIsSingleFlight(trace: seq<System>, steps: seq<Step>, i: nat, p: string)
    requires Run(trace, steps) && i < |trace|
    ensures var s := trace[i];
            && (forall x, y :: IsChild(s.rows, x, p) && IsChild(s.rows, y, p) ==> x == y)
            && (p in s.rows && s.rows[p].status == Paused ==> !HasChild(s.rows, p) && forall c :: !Winner(s, c, p))
            && (forall c, d :: Answer(s, c, p) && Answer(s, d, p) ==> s.calls[c].phase.run == s.calls[d].phase.run)
            && (forall c, x :: Answer(s, c, p) && IsChild(s.rows, x, p) ==> s.calls[c].phase.run == x)
  {
    RunsKeepInv(trace, steps, i);
    var s := trace[i];
    assert p in s.rows && s.rows[p].status == Paused ==> !Spent(s, p);
  }

  /** A pause written for a run whose stream was already over (nothing in `mark_paused` prevents it)
      keeps single flight exactly when the run is not a resumed parent somebody has a claim on. */
  lemma LatePauseIff(s: System, p: string)
    requires SingleFlight(s)
    ensures SingleFlight(s.(rows := MarkActive(s.rows, p, Paused))) <==>
            !(p in s.rows && s.rows[p].status == Resumed
              && (HasChild(s.rows, p) || (exists c :: Winner(s, c, p)) || (exists c :: Answer(s, c, p))))
  {
    var t := s.(rows := MarkActive(s.rows, p, Paused));
    if p in s.rows && IsActive(s.rows[p].status) {
      assert !Spent(t, p);
      if HasChild(s.rows, p) {
        var x :| x in s.rows && IsChild(s.rows, x, p);
        assert IsChild(t.rows, x, p);
      } else if exists c :: Winner(s, c, p) {
        var c :| Winner(s, c, p);
        assert Winner(t, c, p);
      } else if exists c :: Answer(s, c, p) {
        var c :| Answer(s, c, p);
        assert Answer(t, c, p);
      } else {
        StatusKeeps(s, p, Paused);
      }
    } else {
      assert t == s;
    }
  }

  /** What goes wrong then: the parent is resumed a second time and gets a second child. */
  lemma LatePauseGivesTwoChildren()
    ensures var rows := map["p" := Row("u", Resumed, None), "c" := Row("u", Running, Some("p"))];
            var again := CreateRunning(CasResume(MarkActive(rows, "p", Paused), "p"), "d", "u", Some("p"));
            IsChild(again, "c", "p") && IsChild(again, "d", "p")
  {}

  /** What one step may do to one row. */
  ghost predicate Lawful(before: Row, after: Row, step: Step) {
    && after.user == before.user && after.parent == before.parent
    && (IsFinal(before.status) ==> after == before)
    && (before.status == Paused ==> after == before || (step.Cas? && after.status == Resumed))
  }

  lemma StepIsLawful(s: System, step: Step, r: string)
    requires Enabled(s, step) && r in s.rows
    ensures r in Next(s, step).rows && Lawful(s.rows[r], Next(s, step).rows[r], step)
    ensures step.ClientStops? && s.rows[r].user != step.user ==> Next(s, step).rows[r] == s.rows[r]
  {}

  /** First terminal status wins: over every interleaving, `completed`, `failed` and `cancelled` are
      never left again, and a run changes neither owner nor parent. */
  lemma {:induction false} FinalStatusIsAbsorbing(trace: seq<System>, steps: seq<Step>, i: nat, j: nat, r: string)
    requires Run(trace, steps) && i <= j < |trace| && r in trace[i].rows
    ensures r in trace[j].rows && trace[j].rows[r].user == trace[i].rows[r].user
    ensures IsFinal(trace[i].rows[r].status) ==> trace[j].rows[r] == trace[i].rows[r]
  {
    if i < j {
      FinalStatusIsAbsorbing(trace, steps, i, j - 1, r);
      StepIsLawful(trace[j - 1], steps[j - 1], r);
    }
  }

  /** A paused run stays paused until a resume call's compare-and-set takes it. */
  lemma {:induction false} PausedIsLeftByCasOnly(trace: seq<System>, steps: seq<Step>, i: nat, j: nat, r: string)
    requires Run(trace, steps) && i <= j < |trace| && r in trace[i].rows && trace[i].rows[r].status == Paused
    requires forall k :: i <= k < j && steps[k].Cas? ==> trace[k].calls[steps[k].call].parent != r
    ensures r in trace[j].rows && trace[j].rows[r].status == Paused
  {
    if i < j {
      PausedIsLeftByCasOnly(trace, steps, i, j - 1, r);
      StepIsLawful(trace[j - 1], steps[j - 1], r);
    }
  }

  // ----- where a status comes from ------------------------------------------------------------

  /** The step is one that writes this status to this run. */
  ghost predicate Writes(s: System, step: Step, r: string, status: Status) {
    match status
    case Running => (step.CreateRoot? && step.id == r)
                    || (step.Chain? && step.call in s.calls && s.calls[step.call].phase == Launched(r))
    case Paused => step == StreamPauses(r)
                   || (step.LaunchFails? && step.call in s.calls && s.calls[step.call].parent == r)
    case Resumed => step.Cas? && step.call in s.calls && s.calls[step.call].parent == r
    case Completed => step == StreamEnds(r, Completed)
    case Failed => step == StreamEnds(r, Failed) || step == SweepFails(r)
    case Cancelled => step.ClientStops? && step.run == r && r in s.rows && step.user == s.rows[r].user
  }

  lemma NewStatusIsWritten(s: System, step: Step, r: string)
    requires Enabled(s, step) && r in Next(s, step).rows
    ensures || (r in s.rows && Next(s, step).rows[r].status == s.rows[r].status)
            || Writes(s, step, r, Next(s, step).rows[r].status)
  {}

  /** Every status has its cause: over every interleaving, a row shows a status because some step of the
      kind that writes it did: completed by its stream, failed by its stream or a sweep, cancelled by its
      own user's stop, paused by its stream or a revert, resumed by a compare-and-set, running by its
      creation. */
  lemma {:induction false} StatusHasCause(trace: seq<System>, steps: seq<Step>, i: nat, r: string)
    requires Run(trace, steps) && i < |trace| && r in trace[i].rows
    ensures exists k :: 0 <= k < i && Writes(trace[k], steps[k], r, trace[i].rows[r].status)
  {
    if i > 0 {
      NewStatusIsWritten(trace[i - 1], steps[i - 1], r);
      if r in trace[i - 1].rows && trace[i].rows[r].status == trace[i - 1].rows[r].status {
        StatusHasCause(trace, steps, i - 1, r);
      }
    }
  }

  /** And the write takes: on an active run a stream's end, a pause, a sweep and its own user's stop leave
      the status they name. */
  lemma WritesTake(s: System, r: string, to: Status)
    requires r in s.rows && IsActive(s.rows[r].status)
    ensures Next(s, SweepFails(r)).rows[r].status == Failed
    ensures Next(s, ClientStops(r, s.rows[r].user)).rows[r].status == Cancelled
    ensures r in s.streaming ==> Next(s, StreamPauses(r)).rows[r].status == Paused
    ensures r in s.streaming && (to == Completed || to == Failed) ==> Next(s, StreamEnds(r, to)).rows[r].status == to
  {}

  /** A compare-and-set wins exactly on a paused parent, and the launch that fails behind it hands the
      parent back. */
  lemma WonOrHandedBack(s: System, c: nat)
    requires c in s.calls && s.calls[c].parent in s.rows
    ensures s.calls[c].phase.Checked? ==>
              var t := Next(s, Cas(c));
              && (t.calls[c].phase.Won? <==> s.rows[s.calls[c].parent].status == Paused)
              && (t.calls[c].phase.Won? ==> t.rows[s.calls[c].parent].status == Resumed)
    ensures var p := s.calls[c].parent;
            s.calls[c].phase.Won? && s.rows[p].status == Resumed && !HasChild(s.rows, p) ==>
              Next(s, LaunchFails(c)).rows[p].status == Paused
  {}

  // ----- whose run it is ----------------------------------------------------------------------

  /** Calls that were not refused were made by the parent's own user, and children belong to the user of
      their parent. */
  ghost predicate Owned(s: System) {
    && (forall c :: c in s.calls && !s.calls[c].phase.Refused? ==>
          s.calls[c].parent in s.rows && s.rows[s.calls[c].parent].user == s.calls[c].user)
    && (forall x, p :: IsChild(s.rows, x, p) ==> p in s.rows && s.rows[x].user == s.rows[p].user)
  }

  lemma OwnedStep(s: System, step: Step)
    requires Owned(s) && Enabled(s, step)
    ensures Owned(Next(s, step))
  {
    var t := Next(s, step);
    forall r | r in s.rows
      ensures r in t.rows && t.rows[r].user == s.rows[r].user && t.rows[r].parent == s.rows[r].parent
    {
      StepIsLawful(s, step, r);
    }
    forall x, p | IsChild(t.rows, x, p) ensures p in t.rows && t.rows[x].user == t.rows[p].user {
      if x in s.rows {
        assert IsChild(s.rows, x, p);
      }
    }
  }

  /** Over every interleaving a run is only ever resumed by its own user, and its continuation is theirs. */
  lemma {:induction false} OnlyOwnersResume(trace: seq<System>, steps: seq<Step>, i: nat)
    requires Run(trace, steps) && i < |trace|
    ensures Owned(trace[i])
  {
    hide Owned, Next;
    if i > 0 {
      OnlyOwnersResume(trace, steps, i - 1);
      OwnedStep(trace[i - 1], steps[i - 1]);
    } else {
      NothingIsOwned();
    }
  }

  lemma NothingIsOwned()
    ensures Owned(System(map[], map[], {}))
  {}
}
