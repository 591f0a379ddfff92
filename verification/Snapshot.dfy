/**
 The run-state snapshot: the relay's text buffer, collapsed on every flush, and the
 `agent_run_snapshots` row, whose columns are guarded one by one so that several relays of one run
 may write it in any interleaving.
 */
module Snapshot {
  import opened Common

  // ----- the relay buffer ---------------------------------------------------------------------

  function Join(pieces: seq<string>): string {
    if pieces == [] then "" else Join(pieces[..|pieces| - 1]) + pieces[|pieces| - 1]
  }

  /** Head-preserving truncation. */
  function Head(s: string, cap: nat): (h: string)
    ensures |h| == Min(|s|, cap) && h <= s
  {
    if |s| > cap then s[..cap] else s
  }

  datatype RelayStep = Delta(piece: string) | Flush

  /** Everything the relay was told, flushes ignored. */
  function Heard(steps: seq<RelayStep>): string {
    if steps == [] then ""
    else
      var last := steps[|steps| - 1];
      Heard(steps[..|steps| - 1]) + if last.Delta? then last.piece else ""
  }

  function Buffer(steps: seq<RelayStep>, cap: nat): seq<string> {
    if steps == [] then []
    else
      var before := Buffer(steps[..|steps| - 1], cap);
      var last := steps[|steps| - 1];
      if last.Delta? then before + [last.piece] else [Head(Join(before), cap)]
  }

  lemma HeadAbsorbs(a: string, b: string, more: string, cap: nat)
    requires Head(a, cap) == Head(b, cap)
    ensures Head(a + more, cap) == Head(b + more, cap)
  {
    if |a| > cap || |b| > cap {
      assert (a + more)[..cap] == a[..cap] && (b + more)[..cap] == b[..cap];
    }
  }

  /** Collapsing is invisible: for every flush schedule the text a flush would submit is the head of
      the whole concatenation. */
  lemma {:induction false} FlushesAreInvisible(steps: seq<RelayStep>, cap: nat)
    ensures Head(Join(Buffer(steps, cap)), cap) == Head(Heard(steps), cap)
  {
    if steps != [] {
      var n := |steps| - 1;
      FlushesAreInvisible(steps[..n], cap);
      var before := Buffer(steps[..n], cap);
      match steps[n]
      case Delta(piece) =>
        assert (before + [piece])[..|before|] == before;
        HeadAbsorbs(Join(before), Heard(steps[..n]), piece, cap);
      case Flush =>
        var h := Head(Join(before), cap);
        assert Join([h]) == h by { assert [h][..0] == []; }
    }
  }

  /** Right after a flush the buffer itself is that head, which is what a pause block ships. */
  lemma FlushedBufferIsTheHead(steps: seq<RelayStep>, cap: nat)
    ensures Join(Buffer(steps + [Flush], cap)) == Head(Heard(steps), cap)
  {
    var all := steps + [Flush];
    assert all[..|steps|] == steps;
    var h := Head(Join(Buffer(steps, cap)), cap);
    assert Join([h]) == h by { assert [h][..0] == []; }
    FlushesAreInvisible(steps, cap);
  }

  class Relay {
    var partial: seq<string>
    const cap: nat
    ghost var steps: seq<RelayStep>

    ghost predicate Valid() reads this { partial == Buffer(steps, cap) }

    constructor (cap: nat)
      ensures Valid() && this.cap == cap && steps == []
    {
      this.cap := cap;
      partial := [];
      steps := [];
    }

    method Append(piece: string)
      requires Valid()
      modifies this
      ensures Valid() && steps == old(steps) + [Delta(piece)]
    {
      steps := steps + [Delta(piece)];
      assert steps[..|steps| - 1] == old(steps);
      partial := partial + [piece];
    }

    /** Joins piece by piece, truncates, and replaces the buffer. */
    method Collapse() returns (submitted: string)
      requires Valid()
      modifies this
      ensures Valid() && steps == old(steps) + [Flush]
      ensures submitted == Head(Heard(old(steps)), cap) && partial == [submitted]
    {
      var joined := "";
      for i := 0 to |partial|
        invariant joined == Join(partial[..i])
      {
        assert partial[..i + 1][..i] == partial[..i];
        joined := joined + partial[i];
      }
      assert partial[..|partial|] == partial;
      submitted := if |joined| > cap then joined[..cap] else joined;
      FlushesAreInvisible(steps, cap);
      steps := steps + [Flush];
      assert steps[..|steps| - 1] == old(steps);
      partial := [submitted];
    }
  }

  // ----- the row ------------------------------------------------------------------------------

  datatype Row = Row(
    user: string,
    text: string,
    lastTool: Option<string>,
    approval: Option<string>,
    inputTokens: int,
    outputTokens: int,
    updatedAt: int,
    heartbeat: Option<int>)

  type Table = map<string, Row>

  datatype Submission = Submission(
    run: string, user: string, text: string, lastTool: Option<string>, approval: Option<string>,
    inputTokens: int, outputTokens: int, assertApproval: bool)

  function Guarded(row: Row, s: Submission, now: int): Row {
    row.(text := if |s.text| >= |row.text| && s.text[..|row.text|] == row.text then s.text else row.text,
         inputTokens := Max(row.inputTokens, s.inputTokens),
         outputTokens := Max(row.outputTokens, s.outputTokens),
         lastTool := s.lastTool,
         approval := if s.assertApproval then s.approval else row.approval,
         updatedAt := now)
  }

  function Upserted(t: Table, s: Submission, now: int): Table {
    if s.run !in t then
      t[s.run := Row(s.user, s.text, s.lastTool, s.approval, s.inputTokens, s.outputTokens, now, None)]
    else if t[s.run].user == s.user then t[s.run := Guarded(t[s.run], s, now)]
    else t
  }

  predicate Expired(row: Row, horizon: int) {
    row.updatedAt < horizon && (row.text != "" || row.approval.Some?)
  }

  function Swept(t: Table, terminal: set<string>, horizon: int): Table {
    map r | r in t :: if r in terminal && Expired(t[r], horizon) then t[r].(text := "", approval := None) else t[r]
  }

  datatype Write =
    | Submit(s: Submission, now: int)
    | Ensure(run: string, user: string, now: int)
    | Touch(run: string, now: int)
    | Clear(run: string, user: string, now: int)
    | Sweep(terminal: set<string>, horizon: int)

  function Apply(t: Table, w: Write): Table {
    match w
    case Submit(s, now) => Upserted(t, s, now)
    case Ensure(run, user, now) =>
      if run in t then t else t[run := Row(user, "", None, None, 0, 0, now, None)]
    case Touch(run, now) => if run in t then t[run := t[run].(heartbeat := Some(now))] else t
    case Clear(run, user, now) =>
      if run in t && t[run].user == user && t[run].approval.Some?
      then t[run := t[run].(approval := None, updatedAt := now)] else t
    case Sweep(terminal, horizon) => Swept(t, terminal, horizon)
  }

  function ApplyAll(t: Table, ws: seq<Write>): Table {
    if ws == [] then t else Apply(ApplyAll(t, ws[..|ws| - 1]), ws[|ws| - 1])
  }

  class SnapshotsRepository {
    var rows: Table

    constructor ()
      ensures rows == map[]
    {
      rows := map[];
    }

    /** Both silent refusals are visible in the answer: a foreign owner, and a text that did not
        advance. */
    method Upsert(s: Submission, now: int) returns (applied: bool, storedLength: nat)
      modifies this
      ensures rows == Apply(old(rows), Submit(s, now))
      ensures applied <==> s.run in rows && rows[s.run].user == s.user
      ensures !applied ==> rows == old(rows) && storedLength == 0
      ensures applied ==> storedLength == |rows[s.run].text|
      ensures applied && storedLength < |s.text| ==>
                s.run in old(rows) && !(old(rows)[s.run].text <= s.text)
    {
      if s.run !in rows {
        rows := rows[s.run := Row(s.user, s.text, s.lastTool, s.approval, s.inputTokens, s.outputTokens, now, None)];
      } else if rows[s.run].user != s.user {
        return false, 0;
      } else {
        rows := rows[s.run := Guarded(rows[s.run], s, now)];
      }
      return true, |rows[s.run].text|;
    }

    method EnsureRow(run: string, user: string, now: int)
      modifies this
      ensures rows == Apply(old(rows), Ensure(run, user, now))
    {
      if run !in rows {
        rows := rows[run := Row(user, "", None, None, 0, 0, now, None)];
      }
    }

    method TouchHeartbeat(run: string, now: int) returns (count: nat)
      modifies this
      ensures rows == Apply(old(rows), Touch(run, now))
      ensures count == if run in old(rows) then 1 else 0
    {
      if run !in rows { return 0; }
      rows := rows[run := rows[run].(heartbeat := Some(now))];
      return 1;
    }

    method ClearPendingApproval(run: string, user: string, now: int) returns (count: nat)
      modifies this
      ensures rows == Apply(old(rows), Clear(run, user, now))
      ensures count == 0 <==> rows == old(rows)
    {
      if run in rows && rows[run].user == user && rows[run].approval.Some? {
        rows := rows[run := rows[run].(approval := None, updatedAt := now)];
        return 1;
      }
      return 0;
    }

    method SweepExpired(terminal: set<string>, horizon: int) returns (count: nat)
      modifies this
      ensures rows == Apply(old(rows), Sweep(terminal, horizon)) && rows.Keys == old(rows).Keys
      ensures forall r :: r in rows ==>
                && rows[r] == old(rows)[r].(text := rows[r].text, approval := rows[r].approval)
                && (rows[r] != old(rows)[r] ==> rows[r].text == "" && rows[r].approval == None)
                && (rows[r] == old(rows)[r] <==> r !in terminal || !Expired(old(rows)[r], horizon))
      ensures count == |set r | r in old(rows) && rows[r] != old(rows)[r]|
      ensures count == 0 <==> rows == old(rows)
    {
      ghost var was := rows;
      var hit := set r | r in rows && r in terminal && Expired(rows[r], horizon);
      count := |hit|;
      rows := Swept(rows, terminal, horizon);
      assert hit == set r | r in was && rows[r] != was[r];
      if count == 0 {
        assert hit == {};
        assert forall r :: r in was && r !in hit ==> rows[r] == was[r];
      } else {
        var r :| r in hit;
        assert rows[r] != was[r];
      }
    }
  }

  // ----- laws over every interleaving of writers ----------------------------------------------

  predicate SweepsText(t: Table, w: Write, run: string) {
    w.Sweep? && run in t && run in w.terminal && Expired(t[run], w.horizon)
  }

  /** `ws`, started on `t`, never sweeps the content of `run`. */
  predicate Unswept(t: Table, ws: seq<Write>, run: string) {
    forall i :: 0 <= i < |ws| ==> !SweepsText(ApplyAll(t, ws[..i]), ws[i], run)
  }

  lemma UnsweptPrefix(t: Table, ws: seq<Write>, run: string)
    requires ws != [] && Unswept(t, ws, run)
    ensures Unswept(t, ws[..|ws| - 1], run)
    ensures !SweepsText(ApplyAll(t, ws[..|ws| - 1]), ws[|ws| - 1], run)
  {
    var init := ws[..|ws| - 1];
    forall i | 0 <= i < |init| ensures !SweepsText(ApplyAll(t, init[..i]), init[i], run) {
      assert init[..i] == ws[..i];
    }
  }

  /** Owner and counters never regress; the text only grows by extension unless swept, and a sweep
      leaves the counters, the owner and `updated_at` alone. */
  lemma OneWriteKeeps(t: Table, w: Write, run: string)
    requires run in t
    ensures run in Apply(t, w)
    ensures var a, b := t[run], Apply(t, w)[run];
            && b.user == a.user && b.inputTokens >= a.inputTokens && b.outputTokens >= a.outputTokens
            && (!SweepsText(t, w, run) ==> a.text <= b.text)
            && (w.Sweep? || w.Touch? ==> b.updatedAt == a.updatedAt && b.lastTool == a.lastTool)
  {}

  lemma {:induction false} TextOnlyGrows(t: Table, ws: seq<Write>, run: string)
    requires run in t
    ensures run in ApplyAll(t, ws)
    ensures var a, b := t[run], ApplyAll(t, ws)[run];
            b.user == a.user && b.inputTokens >= a.inputTokens && b.outputTokens >= a.outputTokens
    ensures Unswept(t, ws, run) ==> t[run].text <= ApplyAll(t, ws)[run].text
  {
    if ws != [] {
      var n := |ws| - 1;
      TextOnlyGrows(t, ws[..n], run);
      OneWriteKeeps(ApplyAll(t, ws[..n]), ws[n], run);
      if Unswept(t, ws, run) {
        UnsweptPrefix(t, ws, run);
      }
    }
  }

  predicate Foreign(w: Write, run: string, owner: string) { w.Submit? && w.s.run == run && w.s.user != owner }

  /** The history without the submissions of other tenants. */
  function Erased(ws: seq<Write>, run: string, owner: string): seq<Write> {
    if ws == [] then []
    else
      var n := |ws| - 1;
      Erased(ws[..n], run, owner) + if Foreign(ws[n], run, owner) then [] else [ws[n]]
  }

  /** Another tenant's submissions can be erased from any interleaving: every table comes out the same. */
  lemma {:induction false} ForeignWritesAreInert(t: Table, ws: seq<Write>, run: string)
    requires run in t
    ensures ApplyAll(t, ws) == ApplyAll(t, Erased(ws, run, t[run].user))
  {
    if ws != [] {
      var n, owner := |ws| - 1, t[run].user;
      var kept := Erased(ws[..n], run, owner);
      ForeignWritesAreInert(t, ws[..n], run);
      TextOnlyGrows(t, ws[..n], run);
      if Foreign(ws[n], run, owner) {
        assert kept + [] == kept;
      } else {
        assert (kept + [ws[n]])[..|kept|] == kept;
      }
    }
  }

  predicate SilentOnApproval(w: Write, run: string) {
    w.Submit? && w.s.run == run ==> !w.s.assertApproval
  }

  /** An answered approval is not resurrected by any number of writes that do not speak for it. */
  lemma {:induction false} NoFalseWaiting(t: Table, ws: seq<Write>, run: string)
    requires run in t && t[run].approval.None?
    requires forall w <- ws :: SilentOnApproval(w, run)
    ensures run in ApplyAll(t, ws) && ApplyAll(t, ws)[run].approval.None?
  {
    if ws != [] {
      NoFalseWaiting(t, ws[..|ws| - 1], run);
      assert ws[|ws| - 1] in ws;
    }
  }

  // ----- the columns that follow their last writer ---------------------------------------------

  datatype Field = Approval | Tool | Updated | Beat

  datatype Value = Name(name: Option<string>) | Time(at: Option<int>)

  function Shown(row: Row, f: Field): Value {
    match f
    case Approval => Name(row.approval)
    case Tool => Name(row.lastTool)
    case Updated => Time(Some(row.updatedAt))
    case Beat => Time(row.heartbeat)
  }

  /** The write has something to say about this field of `run`: a submission of the owner about all but the
      heartbeat, and about the approval only when it asserts it; the owner's clear about the approval,
      and about the time when there was one to clear; a sweep of the run's content about the approval; a
      touch about the heartbeat. */
  predicate Speaks(t: Table, w: Write, run: string, f: Field)
    requires run in t
  {
    var owned := w.Submit? && w.s.run == run && w.s.user == t[run].user;
    var cleared := w.Clear? && w.run == run && w.user == t[run].user;
    match f
    case Approval => (owned && w.s.assertApproval) || cleared || SweepsText(t, w, run)
    case Tool => owned
    case Updated => owned || (cleared && t[run].approval.Some?)
    case Beat => w.Touch? && w.run == run
  }

  function Said(w: Write, f: Field): Value {
    match f
    case Approval => Name(if w.Submit? then w.s.approval else None)
    case Tool => Name(if w.Submit? then w.s.lastTool else None)
    case _ => Time(if w.Submit? || w.Clear? || w.Touch? then Some(w.now) else None)
  }

  lemma OneWriteSays(t: Table, w: Write, run: string, f: Field)
    requires run in t
    ensures run in Apply(t, w)
    ensures Shown(Apply(t, w)[run], f) == if Speaks(t, w, run, f) then Said(w, f) else Shown(t[run], f)
  {}

  lemma {:induction false} RowStays(t: Table, ws: seq<Write>, run: string)
    requires run in t
    ensures run in ApplyAll(t, ws)
  {
    if ws != [] {
      RowStays(t, ws[..|ws| - 1], run);
      OneWriteKeeps(ApplyAll(t, ws[..|ws| - 1]), ws[|ws| - 1], run);
    }
  }

  /** Write `k` of the history speaks for the field. */
  ghost predicate SpeaksAt(t: Table, ws: seq<Write>, run: string, f: Field, k: int) {
    0 <= k < |ws| && run in ApplyAll(t, ws[..k]) && Speaks(ApplyAll(t, ws[..k]), ws[k], run, f)
  }

  /** While nobody speaks for it, a field stays. */
  lemma {:induction false} SilenceKeeps(t: Table, ws: seq<Write>, run: string, f: Field, k: nat)
    requires run in t && k <= |ws| && forall j :: k <= j < |ws| ==> !SpeaksAt(t, ws, run, f, j)
    ensures run in ApplyAll(t, ws) && run in ApplyAll(t, ws[..k])
    ensures Shown(ApplyAll(t, ws)[run], f) == Shown(ApplyAll(t, ws[..k])[run], f)
    decreases |ws|
  {
    hide Apply, Speaks, Shown, Said;
    RowStays(t, ws, run);
    RowStays(t, ws[..k], run);
    if k == |ws| {
      assert ws[..k] == ws;
    } else {
      var n, init := |ws| - 1, ws[..|ws| - 1];
      RowStays(t, init, run);
      assert init[..k] == ws[..k];
      forall j | k <= j < |init| ensures !SpeaksAt(t, init, run, f, j) {
        assert init[..j] == ws[..j] && init[j] == ws[j];
        assert !SpeaksAt(t, ws, run, f, j);
      }
      SilenceKeeps(t, init, run, f, k);
      assert !SpeaksAt(t, ws, run, f, n);
      OneWriteSays(ApplyAll(t, init), ws[n], run, f);
    }
  }

  /** Over any interleaving of writers, approval, tool, time and heartbeat are what the last write that
      speaks for them said. */
  lemma LastSpeakerDecides(t: Table, ws: seq<Write>, run: string, f: Field, k: nat)
    requires run in t && SpeaksAt(t, ws, run, f, k) && forall j :: k < j < |ws| ==> !SpeaksAt(t, ws, run, f, j)
    ensures run in ApplyAll(t, ws) && Shown(ApplyAll(t, ws)[run], f) == Said(ws[k], f)
  {
    hide Apply, Speaks, Shown, Said;
    SilenceKeeps(t, ws, run, f, k + 1);
    var upto := ws[..k + 1];
    assert upto[..k] == ws[..k] && upto[k] == ws[k];
    OneWriteSays(ApplyAll(t, ws[..k]), ws[k], run, f);
  }

  /** The first submission of a run stores everything it carries; a row made ahead of it is empty. */
  lemma FirstRow(t: Table, s: Submission, user: string, now: int)
    requires s.run !in t
    ensures var row := Apply(t, Submit(s, now))[s.run];
            && row.user == s.user && row.text == s.text && row.inputTokens == s.inputTokens
            && row.outputTokens == s.outputTokens && row.heartbeat == None
            && Shown(row, Tool) == Name(s.lastTool) && Shown(row, Approval) == Name(s.approval)
            && Shown(row, Updated) == Time(Some(now))
    ensures var row := Apply(t, Ensure(s.run, user, now))[s.run];
            && row.user == user && row.text == "" && row.inputTokens == row.outputTokens == 0
            && Shown(row, Tool) == Shown(row, Approval) == Name(None) && row.heartbeat == None
  {}

  /** A second sweep of the same horizon finds nothing, and runs outside the terminal set keep
      everything at any age. */
  lemma SweepIsIdempotent(t: Table, terminal: set<string>, horizon: int)
    ensures Swept(Swept(t, terminal, horizon), terminal, horizon) == Swept(t, terminal, horizon)
    ensures forall r :: r in t && r in terminal ==> !Expired(Swept(t, terminal, horizon)[r], horizon)
    ensures forall r :: r in t && r !in terminal ==> Swept(t, terminal, horizon)[r] == t[r]
    ensures forall r :: r in t && t[r].updatedAt >= horizon ==> Swept(t, terminal, horizon)[r] == t[r]
    ensures forall r :: r in t && r in terminal && t[r].updatedAt < horizon ==>
                          Swept(t, terminal, horizon)[r] == t[r].(text := "", approval := None)
  {
    var once := Swept(t, terminal, horizon);
    assert forall r :: r in t ==> !(r in terminal && Expired(once[r], horizon));
  }

  // ----- which text ends up stored ------------------------------------------------------------

  predicate Submits(w: Write, run: string, user: string) { w.Submit? && w.s.run == run && w.s.user == user }

  /** One text continues the other. */
  predicate Comparable(a: string, b: string) { a <= b || b <= a }

  ghost predicate Chain(ws: seq<Write>, run: string, user: string) {
    forall i, j :: 0 <= i < |ws| && 0 <= j < |ws| && Submits(ws[i], run, user) && Submits(ws[j], run, user)
                   ==> Comparable(ws[i].s.text, ws[j].s.text)
  }

  /** The stored text continues every text its owner submitted. */
  ghost predicate HoldsAll(ws: seq<Write>, run: string, user: string, stored: string) {
    forall i :: 0 <= i < |ws| && Submits(ws[i], run, user) ==> ws[i].s.text <= stored
  }

  ghost predicate WasSubmitted(ws: seq<Write>, run: string, user: string, text: string) {
    exists i :: 0 <= i < |ws| && Submits(ws[i], run, user) && ws[i].s.text == text
  }

  lemma WasSubmittedMore(ws: seq<Write>, run: string, user: string, text: string)
    requires ws != [] && WasSubmitted(ws[..|ws| - 1], run, user, text)
    ensures WasSubmitted(ws, run, user, text)
  {
    var n := |ws| - 1;
    var i :| 0 <= i < n && Submits(ws[..n][i], run, user) && ws[..n][i].s.text == text;
    assert Submits(ws[i], run, user);
  }

  /** The stored text is never invented: it is the start text or one the owner submitted. */
  lemma {:induction false} StoredWasSubmitted(t: Table, ws: seq<Write>, run: string)
    requires run in t && Unswept(t, ws, run)
    ensures run in ApplyAll(t, ws) && ApplyAll(t, ws)[run].user == t[run].user
    ensures var stored := ApplyAll(t, ws)[run].text;
            stored == t[run].text || WasSubmitted(ws, run, t[run].user, stored)
  {
    if ws != [] {
      var n := |ws| - 1;
      UnsweptPrefix(t, ws, run);
      StoredWasSubmitted(t, ws[..n], run);
      var before := ApplyAll(t, ws[..n]);
      OneWriteKeeps(before, ws[n], run);
      if Apply(before, ws[n])[run].text == before[run].text {
        if before[run].text != t[run].text {
          WasSubmittedMore(ws, run, t[run].user, before[run].text);
        }
      } else {
        assert Submits(ws[n], run, t[run].user);
      }
    }
  }

  lemma ComparableToStored(t: Table, ws: seq<Write>, run: string, text: string)
    requires run in t && t[run].text == "" && Unswept(t, ws, run)
    requires forall i :: 0 <= i < |ws| && Submits(ws[i], run, t[run].user) ==> Comparable(text, ws[i].s.text)
    ensures run in ApplyAll(t, ws) && Comparable(text, ApplyAll(t, ws)[run].text)
  {
    StoredWasSubmitted(t, ws, run);
  }

  /** A comparable submission of the owner is held by the row it leaves. */
  lemma SubmittedIsHeld(t: Table, w: Write, run: string)
    requires run in t && Submits(w, run, t[run].user) && Comparable(w.s.text, t[run].text)
    ensures run in Apply(t, w) && w.s.text <= Apply(t, w)[run].text
  {}

  lemma {:induction false} ChainIsHeld(t: Table, ws: seq<Write>, run: string)
    requires run in t && t[run].text == "" && Unswept(t, ws, run) && Chain(ws, run, t[run].user)
    ensures run in ApplyAll(t, ws) && HoldsAll(ws, run, t[run].user, ApplyAll(t, ws)[run].text)
  {
    hide Apply, Unswept;
    if ws != [] {
      var n, init := |ws| - 1, ws[..|ws| - 1];
      var user := t[run].user;
      assert forall i :: 0 <= i < n ==> init[i] == ws[i];
      UnsweptPrefix(t, ws, run);
      ChainIsHeld(t, init, run);
      StoredWasSubmitted(t, init, run);
      var before := ApplyAll(t, init);
      OneWriteKeeps(before, ws[n], run);
      if Submits(ws[n], run, user) {
        ComparableToStored(t, init, run, ws[n].s.text);
        SubmittedIsHeld(before, ws[n], run);
      }
    }
  }

  /** The row ends with the longest text submitted if and only if the submitted texts continue one
      another, whatever the interleaving; otherwise it is frozen at one of them. */
  lemma LongestWinsIff(t: Table, ws: seq<Write>, run: string)
    requires run in t && t[run].text == "" && Unswept(t, ws, run)
    ensures run in ApplyAll(t, ws)
    ensures HoldsAll(ws, run, t[run].user, ApplyAll(t, ws)[run].text) <==> Chain(ws, run, t[run].user)
    ensures ApplyAll(t, ws)[run].text == "" || WasSubmitted(ws, run, t[run].user, ApplyAll(t, ws)[run].text)
  {
    StoredWasSubmitted(t, ws, run);
    var stored := ApplyAll(t, ws)[run].text;
    if Chain(ws, run, t[run].user) {
      ChainIsHeld(t, ws, run);
    }
    if HoldsAll(ws, run, t[run].user, stored) {
      forall i, j | 0 <= i < |ws| && 0 <= j < |ws|
                    && Submits(ws[i], run, t[run].user) && Submits(ws[j], run, t[run].user)
        ensures Comparable(ws[i].s.text, ws[j].s.text)
      {
        assert ws[i].s.text <= stored && ws[j].s.text <= stored;
      }
    }
  }

  datatype Column = Input | Output

  function Stored(row: Row, col: Column): int { if col.Input? then row.inputTokens else row.outputTokens }

  function Offered(s: Submission, col: Column): int { if col.Input? then s.inputTokens else s.outputTokens }

  ghost predicate WasOffered(ws: seq<Write>, run: string, user: string, col: Column, x: int) {
    exists i :: 0 <= i < |ws| && Submits(ws[i], run, user) && Offered(ws[i].s, col) == x
  }

  /** Sweeps or not, a counter is the maximum of its start value and of everything the owner
      submitted: it covers them all, and it is one of them. */
  lemma {:induction false} CountersAreTheMaximum(t: Table, ws: seq<Write>, run: string, col: Column)
    requires run in t
    ensures run in ApplyAll(t, ws) && ApplyAll(t, ws)[run].user == t[run].user
    ensures var end, user := Stored(ApplyAll(t, ws)[run], col), t[run].user;
            && (forall i :: 0 <= i < |ws| && Submits(ws[i], run, user) ==> Offered(ws[i].s, col) <= end)
            && Stored(t[run], col) <= end
            && (end == Stored(t[run], col) || WasOffered(ws, run, user, col, end))
  {
    if ws != [] {
      var n, init, user := |ws| - 1, ws[..|ws| - 1], t[run].user;
      CountersAreTheMaximum(t, init, run, col);
      OneWriteCounts(ApplyAll(t, init), ws[n], run, col);
      hide Apply;
      assert forall i :: 0 <= i < n ==> init[i] == ws[i];
      var was := Stored(ApplyAll(t, init)[run], col);
      if WasOffered(init, run, user, col, was) {
        var i :| 0 <= i < n && Submits(init[i], run, user) && Offered(init[i].s, col) == was;
        assert Submits(ws[i], run, user);
      }
    }
  }

  lemma OneWriteCounts(t: Table, w: Write, run: string, col: Column)
    requires run in t
    ensures run in Apply(t, w) && Apply(t, w)[run].user == t[run].user
    ensures Stored(Apply(t, w)[run], col) ==
            if Submits(w, run, t[run].user) then Max(Stored(t[run], col), Offered(w.s, col)) else Stored(t[run], col)
  {}

  /** The relay that submitted `text` had heard a prefix of `whole`, however it had flushed. */
  ghost predicate FromReplay(text: string, whole: string, cap: nat) {
    exists steps :: Heard(steps) <= whole && text == Head(Join(Buffer(steps, cap)), cap)
  }

  lemma ReplayedTextIsAHead(text: string, whole: string, cap: nat)
    requires FromReplay(text, whole, cap)
    ensures text <= Head(whole, cap)
  {
    var steps :| Heard(steps) <= whole && text == Head(Join(Buffer(steps, cap)), cap);
    FlushesAreInvisible(steps, cap);
  }

  /** Any number of relays that replay one stream from its start, flushing on any schedule and writing
      in any order: the row holds a head of the stream and every text any of them submitted. */
  lemma ReplayingRelaysConverge(t: Table, ws: seq<Write>, run: string, whole: string, cap: nat)
    requires run in t && t[run].text == "" && Unswept(t, ws, run)
    requires forall i :: 0 <= i < |ws| && Submits(ws[i], run, t[run].user) ==> FromReplay(ws[i].s.text, whole, cap)
    ensures run in ApplyAll(t, ws)
    ensures HoldsAll(ws, run, t[run].user, ApplyAll(t, ws)[run].text)
    ensures ApplyAll(t, ws)[run].text <= Head(whole, cap)
  {
    forall i | 0 <= i < |ws| && Submits(ws[i], run, t[run].user) ensures ws[i].s.text <= Head(whole, cap) {
      ReplayedTextIsAHead(ws[i].s.text, whole, cap);
    }
    LongestWinsIff(t, ws, run);
  }
}
