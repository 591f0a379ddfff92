/**
 The lease on a run's single upstream subscription: taken with SET NX, renewed and released by
 owner-checked scripts, and answered in four ways.  An answer can be lost after the command has
 run, and the key can vanish at any moment by wipe or expiry.
 */
module Lease {
  import opened Common

  type Owner = string

  datatype Acquisition = Acquired | HeldElsewhere | AcquireUnknown

  datatype Renewal = Renewed | Reacquired | LeaseLost | RenewUnknown

  /** The key as the scripts change it, in place: its value and the moment it expires. */
  class LeaseKey {
    var owner: Option<Owner>
    var expiry: int

    /** What a GET at `now` finds. */
    function Holder(now: int): Option<Owner>
      reads this
    {
      if owner.Some? && now < expiry then owner else None
    }

    /** From `now` on the key holds `me`, for exactly `ttl`. */
    ghost predicate HeldFor(me: Owner, now: int, ttl: int)
      reads this
    {
      forall t :: now <= t ==> Holder(t) == if t < now + ttl then Some(me) else None
    }

    constructor ()
      ensures forall t :: Holder(t) == None
    {
      owner, expiry := None, 0;
    }

    method Acquire(me: Owner, now: int, ttl: nat) returns (r: Acquisition)
      modifies this
      ensures r == if old(Holder(now)).None? then Acquired else HeldElsewhere
      ensures r == Acquired ==> HeldFor(me, now, ttl)
      ensures r == HeldElsewhere ==> forall t :: Holder(t) == old(Holder(t))
    {
      if Holder(now).None? {
        owner, expiry := Some(me), now + ttl;
        return Acquired;
      }
      return HeldElsewhere;
    }

    method Renew(me: Owner, now: int, ttl: nat) returns (r: Renewal)
      modifies this
      ensures r == RenewAnswer(old(Holder(now)), me) && r != RenewUnknown
      ensures r == Renewed <==> old(Holder(now)) == Some(me)
      ensures r == Reacquired <==> old(Holder(now)) == None
      ensures r != LeaseLost ==> HeldFor(me, now, ttl)
      ensures r == LeaseLost ==> forall t :: Holder(t) == old(Holder(t))
    {
      var current := Holder(now);
      if current == Some(me) {
        expiry := now + ttl;
        return Renewed;
      }
      if current.None? {
        owner, expiry := Some(me), now + ttl;
        return Reacquired;
      }
      return LeaseLost;
    }

    /** Compare and delete: another owner's lease is never removed. */
    method Release(me: Owner, now: int)
      modifies this
      ensures Holder(now) == Drop(old(Holder(now)), me)
      ensures old(Holder(now)) == Some(me) ==> forall t :: Holder(t) == None
      ensures old(Holder(now)) != Some(me) ==> forall t :: Holder(t) == old(Holder(t))
    {
      if Holder(now) == Some(me) {
        owner := None;
      }
    }
  }

  function Take(holder: Option<Owner>, owner: Owner): Option<Owner> {
    if holder.None? then Some(owner) else holder
  }

  function Drop(holder: Option<Owner>, owner: Owner): Option<Owner> {
    if holder == Some(owner) then None else holder
  }

  function RenewAnswer(holder: Option<Owner>, owner: Owner): Renewal {
    if holder == Some(owner) then Renewed else if holder.None? then Reacquired else LeaseLost
  }

  // ----- consumers around the key -------------------------------------------------------------

  /** `driving` are the consumers still working on the run. */
  datatype World = World(holder: Option<Owner>, driving: set<Owner>)

  datatype Step =
    | StartAnswered(o: Owner)
    | StartUnknown(o: Owner, executed: bool)     // drives without knowing; the SET may have run
    | RenewAnswered(o: Owner)
    | RenewUnanswered(o: Owner, executed: bool)
    | Finish(o: Owner, executed: bool)           // leaves, releasing unless Redis did not hear it
    | KeyVanishes                                // wipe or expiry

  predicate Enabled(w: World, s: Step) {
    match s
    case StartAnswered(o) => o !in w.driving
    case StartUnknown(o, _) => o !in w.driving
    case RenewAnswered(o) => o in w.driving
    case RenewUnanswered(o, _) => o in w.driving
    case Finish(o, _) => o in w.driving
    case KeyVanishes => true
  }

  function Next(w: World, s: Step): World {
    match s
    case StartAnswered(o) =>
      if w.holder.None? then World(Some(o), w.driving + {o}) else w
    case StartUnknown(o, executed) =>
      World(if executed then Take(w.holder, o) else w.holder, w.driving + {o})
    case RenewAnswered(o) =>
      var driving := if RenewAnswer(w.holder, o) == LeaseLost then w.driving - {o} else w.driving;
      World(Take(w.holder, o), driving)
    case RenewUnanswered(o, executed) => w.(holder := if executed then Take(w.holder, o) else w.holder)
    case Finish(o, executed) =>
      World(if executed then Drop(w.holder, o) else w.holder, w.driving - {o})
    case KeyVanishes => w.(holder := None)
  }

  /** Who drives after one step: an answered start only on a free key, an unanswered one always; an
      answered renewal ends a driver only on evidence of another holder; no answer ends nobody. */
  lemma DrivesIff(w: World, s: Step, o: Owner)
    requires Enabled(w, s)
    ensures o in Next(w, s).driving <==>
            match s
            case StartAnswered(p) => o in w.driving || (o == p && w.holder.None?)
            case StartUnknown(p, _) => o in w.driving || o == p
            case RenewAnswered(p) => o in w.driving && (o == p ==> w.holder.None? || w.holder == Some(o))
            case RenewUnanswered(_, _) => o in w.driving
            case Finish(p, _) => o in w.driving && o != p
            case KeyVanishes => o in w.driving
  {}

  /** Nobody's step takes the lease from another holder; only a wipe or expiry does. */
  lemma OthersKeepTheLease(w: World, s: Step, o: Owner)
    requires Enabled(w, s) && w.holder == Some(o) && !s.KeyVanishes? && (s.Finish? ==> s.o != o)
    ensures Next(w, s).holder == Some(o)
  {}

  ghost predicate Trace(ws: seq<World>, steps: seq<Step>) {
    && |ws| == |steps| + 1
    && forall i :: 0 <= i < |steps| ==> Enabled(ws[i], steps[i]) && ws[i + 1] == Next(ws[i], steps[i])
  }

  /** Consumers that had an answered renewal since the start of the trace and did not start anew. */
  function Confirmed(steps: seq<Step>): set<Owner> {
    if steps == [] then {}
    else
      var prior, last := Confirmed(steps[..|steps| - 1]), steps[|steps| - 1];
      match last
      case RenewAnswered(o) => prior + {o}
      case StartAnswered(o) => prior - {o}
      case StartUnknown(o, _) => prior - {o}
      case _ => prior
  }

  lemma ConfirmedHoldStep(w: World, s: Step, prior: set<Owner>, after: set<Owner>)
    requires Enabled(w, s) && !s.KeyVanishes?
    requires forall o :: o in prior && o in w.driving ==> w.holder == Some(o)
    requires after == match s
                      case RenewAnswered(o) => prior + {o}
                      case StartAnswered(o) => prior - {o}
                      case StartUnknown(o, _) => prior - {o}
                      case _ => prior
    ensures forall o :: o in after && o in Next(w, s).driving ==> Next(w, s).holder == Some(o)
  {}

  /** From any state whatever (several drivers, no lease, a foreign lease), as long as the key does
      not vanish again, a confirmed driver is the holder. */
  lemma {:induction false} ConfirmedHold(ws: seq<World>, steps: seq<Step>)
    requires Trace(ws, steps)
    requires forall i :: 0 <= i < |steps| ==> !steps[i].KeyVanishes?
    ensures forall o :: o in Confirmed(steps) && o in ws[|steps|].driving ==> ws[|steps|].holder == Some(o)
  {
    if steps != [] {
      var n := |steps| - 1;
      assert Trace(ws[..n + 1], steps[..n]);
      ConfirmedHold(ws[..n + 1], steps[..n]);
      ConfirmedHoldStep(ws[n], steps[n], Confirmed(steps[..n]), Confirmed(steps));
    }
  }

  /** Lease convergence: once every consumer still driving has had one answered renewal with no
      further wipe or expiry, at most one is left, and it holds the lease. */
  lemma LeaseConverges(ws: seq<World>, steps: seq<Step>)
    requires Trace(ws, steps)
    requires forall i :: 0 <= i < |steps| ==> !steps[i].KeyVanishes?
    requires ws[|steps|].driving <= Confirmed(steps)
    ensures |ws[|steps|].driving| <= 1
    ensures forall o :: o in ws[|steps|].driving ==> ws[|steps|].holder == Some(o)
  {
    ConfirmedHold(ws, steps);
    var left := ws[|steps|].driving;
    if left != {} {
      var o :| o in left;
      assert left == {o};
    }
  }

  /** The assumption is needed: a key that vanishes between two renewals leaves two drivers, both
      answered. */
  lemma VanishingKeyLeavesTwo()
    ensures var w0 := World(None, {"a", "b"});
            var w1 := Next(w0, RenewAnswered("a"));
            var w2 := Next(w1, KeyVanishes);
            Next(w2, RenewAnswered("b")).driving == {"a", "b"}
  {}
}
