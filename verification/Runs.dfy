/**
 The `agent_runs` table: every write is one conditional UPDATE or an insert that does nothing on
 conflict.
 */
module Runs {
  import opened Common

  datatype Status = Running | Paused | Resumed | Completed | Failed | Cancelled

  datatype Row = Row(user: string, status: Status, parent: Option<string>)

  type Table = map<string, Row>

  predicate IsActive(s: Status) { s == Running || s == Resumed }

  predicate IsFinal(s: Status) { s == Completed || s == Failed || s == Cancelled }

  predicate IsChild(t: Table, c: string, p: string) { c in t && t[c].parent == Some(p) }

  predicate HasChild(t: Table, p: string) { exists c :: c in t && IsChild(t, c, p) }

  function SetStatus(t: Table, id: string, to: Status): Table
    requires id in t
  {
    t[id := t[id].(status := to)]
  }

  function CreateRunning(t: Table, id: string, user: string, parent: Option<string>): Table {
    if id in t then t else t[id := Row(user, Running, parent)]
  }

  /** `mark_paused` and `mark_status`: only an active run moves. */
  function MarkActive(t: Table, id: string, to: Status): Table {
    if id in t && IsActive(t[id].status) then SetStatus(t, id, to) else t
  }

  function MarkStopped(t: Table, id: string, user: string): Table {
    if id in t && t[id].user == user && IsActive(t[id].status) then SetStatus(t, id, Cancelled) else t
  }

  function CasResume(t: Table, id: string): Table {
    if id in t && t[id].status == Paused then SetStatus(t, id, Resumed) else t
  }

  function RevertCas(t: Table, id: string): Table {
    if id in t && t[id].status == Resumed && !HasChild(t, id) then SetStatus(t, id, Paused) else t
  }

  /** The repository, one method per statement; each returns the affected row count. */
  class RunsRepository {
    var rows: Table

    constructor ()
      ensures rows == map[]
    {
      rows := map[];
    }

    method Create(id: string, user: string, parent: Option<string>)
      modifies this
      ensures rows == CreateRunning(old(rows), id, user, parent)
      ensures rows == if id in old(rows) then old(rows) else old(rows)[id := Row(user, Running, parent)]
    {
      if id !in rows {
        rows := rows[id := Row(user, Running, parent)];
      }
    }

    method Mark(id: string, to: Status) returns (count: nat)
      modifies this
      ensures rows == MarkActive(old(rows), id, to)
      ensures count == if id in old(rows) && IsActive(old(rows)[id].status) then 1 else 0
      ensures count == 1 ==> rows == old(rows)[id := old(rows)[id].(status := to)]
      ensures count == 0 ==> rows == old(rows)
    {
      count := 0;
      if id in rows && IsActive(rows[id].status) {
        rows := rows[id := rows[id].(status := to)];
        count := 1;
      }
    }

    method Stop(id: string, user: string) returns (count: nat)
      modifies this
      ensures rows == MarkStopped(old(rows), id, user)
      ensures count > 0 <==> id in old(rows) && old(rows)[id].user == user && IsActive(old(rows)[id].status)
      ensures forall r :: r in old(rows) && old(rows)[r].user != user ==> r in rows && rows[r] == old(rows)[r]
      ensures rows == if count == 1 then old(rows)[id := old(rows)[id].(status := Cancelled)] else old(rows)
    {
      count := 0;
      if id in rows && rows[id].user == user && IsActive(rows[id].status) {
        rows := rows[id := rows[id].(status := Cancelled)];
        count := 1;
      }
    }

    method Cas(id: string) returns (won: bool)
      modifies this
      ensures rows == CasResume(old(rows), id)
      ensures won <==> id in old(rows) && old(rows)[id].status == Paused
      ensures rows == if won then old(rows)[id := old(rows)[id].(status := Resumed)] else old(rows)
    {
      won := id in rows && rows[id].status == Paused;
      if won {
        rows := rows[id := rows[id].(status := Resumed)];
      }
    }

    method ActiveChild(parent: string) returns (child: Option<string>)
      ensures child.None? ==> !HasChild(rows, parent)
      ensures child.Some? ==> IsChild(rows, child.value, parent)
    {
      if c :| c in rows && rows[c].parent == Some(parent) {
        child := Some(c);
        assert IsChild(rows, c, parent);
      } else {
        child := None;
      }
    }

    method Revert(id: string) returns (count: nat)
      modifies this
      ensures rows == RevertCas(old(rows), id)
      ensures count > 0 <==> id in old(rows) && old(rows)[id].status == Resumed && !HasChild(old(rows), id)
      ensures rows == if count > 0 then old(rows)[id := old(rows)[id].(status := Paused)] else old(rows)
    {
      count := 0;
      var child := ActiveChild(id);
      if id in rows && rows[id].status == Resumed && child.None? {
        rows := rows[id := rows[id].(status := Paused)];
        count := 1;
      }
    }
  }
}
