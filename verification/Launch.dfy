/**
 Launching a run on the user's instance. The launch request is not idempotent, so only a failure of
 the connect phase may be tried again, inside one deadline shared by all attempts.
 */
module Launch {
  import opened Common

  const MIN_ATTEMPT: real := 1.0

  datatype Fault = ConnectError | ConnectTimeout | PoolTimeout | ReadTimeout | WriteTimeout | SentError

  /** The explicit tuple of errors that are tried again. */
  predicate ConnectPhase(f: Fault) { f.ConnectError? || f.ConnectTimeout? || f.PoolTimeout? }

  /** The HTTP client's timeout family. */
  predicate IsTimeout(f: Fault) { f.ConnectTimeout? || f.PoolTimeout? || f.ReadTimeout? || f.WriteTimeout? }

  datatype Answer = Response(status: int) | Failure(fault: Fault)

  /** How far a request got. */
  datatype Progress = Pooled | Connecting | Writing | Reading | Done

  /** What became of one attempt: its answer, how far it got, whether the instance or the network gave any
      sign, how long it took, and how much longer than asked the sleep after it lasted. */
  datatype Attempt = Attempt(answer: Answer, reached: Progress, heard: bool, takes: real, oversleep: real)

  datatype Outcome = Launched(status: int) | UpstreamTimeout | UpstreamUnreachable

  /** The request left this side, so the instance may have created a run. */
  predicate Sent(a: Attempt) { a.reached.Writing? || a.reached.Reading? || a.reached.Done? }

  /** Which fault can come from where. */
  predicate Possible(a: Attempt) {
    match a.answer
    case Response(_) => a.reached.Done? && a.heard
    case Failure(PoolTimeout) => a.reached.Pooled? && !a.heard
    case Failure(ConnectTimeout) => a.reached.Connecting? && !a.heard
    case Failure(ConnectError) => a.reached.Connecting? && a.heard
    case Failure(WriteTimeout) => a.reached.Writing? && !a.heard
    case Failure(ReadTimeout) => a.reached.Reading? && !a.heard
    case Failure(SentError) => (a.reached.Writing? || a.reached.Reading?) && a.heard
  }

  function MaxReal(a: real, b: real): real { if a >= b then a else b }

  ghost predicate Plausible(world: nat -> Attempt, slack: real) {
    && 0.0 <= slack
    && forall i: nat :: Possible(world(i)) && 0.0 <= world(i).takes && 0.0 <= world(i).oversleep <= slack
  }

  /** An attempt made at `at` failed in time without leaving this side, left room for another one, and
      was followed by a sleep until `next`. */
  ghost predicate GaveWay(a: Attempt, at: real, deadline: real, backoff: real, next: real) {
    && a.takes < deadline - at && !Sent(a)
    && deadline - (at + a.takes) - backoff >= MIN_ATTEMPT
    && next == at + a.takes + backoff + a.oversleep
  }

  /** Each attempt starts with a usable share of the budget, after every attempt before it gave way. */
  ghost predicate Attempts(world: nat -> Attempt, starts: seq<real>, start: real, deadline: real, backoff: real) {
    && (starts != [] ==> starts[0] == start)
    && (forall i :: 0 <= i < |starts| ==> deadline - starts[i] >= MIN_ATTEMPT)
    && (forall i, j :: 0 <= i < j < |starts| && j == i + 1 ==>
                         GaveWay(world(i), starts[i], deadline, backoff, starts[j]))
  }

  /** Why the loop ended. */
  ghost predicate Ended(world: nat -> Attempt, starts: seq<real>, start: real, deadline: real, backoff: real,
                        limit: nat, outcome: Outcome, end: real)
  {
    if starts == [] then deadline - start < MIN_ATTEMPT && outcome.UpstreamTimeout? && end == start
    else
      var n := |starts| - 1;
      var last, left := world(n), deadline - starts[n];
      if last.takes >= left then outcome.UpstreamTimeout? && end == deadline
      else if last.answer.Response? then outcome == Launched(last.answer.status) && end == starts[n] + last.takes
      else if !Sent(last) && |starts| < limit && left - last.takes - backoff >= MIN_ATTEMPT then
        && end == starts[n] + last.takes + backoff + last.oversleep    // woken too late for another one
        && deadline - end < MIN_ATTEMPT && outcome.UpstreamTimeout?
      else outcome == (if last.heard then UpstreamUnreachable else UpstreamTimeout) && end == starts[n] + last.takes
  }

  /** The retry loop. `limit` is the setting, raised to one. */
  method LaunchRun(world: nat -> Attempt, setting: int, backoff: real, start: real, deadline: real, ghost slack: real)
    returns (outcome: Outcome, starts: seq<real>, end: real)
    requires Plausible(world, slack) && backoff >= 0.0
    ensures |starts| <= Max(setting, 1)
    ensures Attempts(world, starts, start, deadline, backoff)
    ensures Ended(world, starts, start, deadline, backoff, Max(setting, 1), outcome, end)
  {
    var attempts := Max(setting, 1);
    end, starts := start, [];
    for attempt := 0 to attempts
      invariant |starts| == attempt && Attempts(world, starts, start, deadline, backoff)
      invariant attempt == 0 ==> end == start
      invariant attempt > 0 ==>
                  attempt < attempts && GaveWay(world(attempt - 1), starts[attempt - 1], deadline, backoff, end)
    {
      var left := deadline - end;
      if left < MIN_ATTEMPT {
        outcome := UpstreamTimeout;
        return;
      }
      starts := starts + [end];
      var reply := world(attempt);
      if reply.takes >= left {
        outcome, end := UpstreamTimeout, deadline;
        return;
      }
      end := end + reply.takes;
      match reply.answer
      case Response(status) =>
        outcome := Launched(status);
        return;
      case Failure(fault) =>
        if ConnectPhase(fault) && attempt + 1 < attempts && deadline - end - backoff >= MIN_ATTEMPT {
          end := end + backoff + reply.oversleep;
        } else {
          outcome := if IsTimeout(fault) then UpstreamTimeout else UpstreamUnreachable;
          return;
        }
    }
    assert false;
  }

  lemma OnlyLastIsSent(world: nat -> Attempt, starts: seq<real>, start: real, deadline: real, backoff: real, i: nat)
    requires Attempts(world, starts, start, deadline, backoff) && i < |starts|
    ensures Sent(world(i)) || world(i).takes >= deadline - starts[i] ==> i == |starts| - 1
  {
    var j := i + 1;
    assert j < |starts| ==> GaveWay(world(i), starts[i], deadline, backoff, starts[j]);
  }

  /** At most one attempt got past the connect phase, and it is the last one made. */
  lemma AtMostOnce(world: nat -> Attempt, starts: seq<real>, start: real, deadline: real, backoff: real, i: nat, j: nat)
    requires Attempts(world, starts, start, deadline, backoff) && i < |starts| && j < |starts|
    requires Sent(world(i)) && Sent(world(j))
    ensures i == j == |starts| - 1
  {
    OnlyLastIsSent(world, starts, start, deadline, backoff, i);
    OnlyLastIsSent(world, starts, start, deadline, backoff, j);
  }

  /** The loop, backoffs included, is over by the shared deadline, give or take one late wake-up; and it
      spends less than `attempts` backoffs. */
  lemma EndsByDeadline(world: nat -> Attempt, starts: seq<real>, start: real, deadline: real, backoff: real,
                       limit: nat, outcome: Outcome, end: real, slack: real)
    requires Plausible(world, slack) && backoff >= 0.0
    requires Attempts(world, starts, start, deadline, backoff)
    requires Ended(world, starts, start, deadline, backoff, limit, outcome, end)
    ensures end <= MaxReal(start, deadline) + slack
    ensures slack == 0.0 ==> end <= MaxReal(start, deadline)
  {
    if starts != [] {
      var n := |starts| - 1;
      assert 0.0 <= world(n).oversleep <= slack;
    }
  }

  /** A client told that the launch was refused can be sure of this: no answer came. A launch is
      reported exactly when the last attempt was answered inside the budget. */
  lemma LaunchedIffAnswered(world: nat -> Attempt, starts: seq<real>, start: real, deadline: real, backoff: real,
                            limit: nat, outcome: Outcome, end: real)
    requires Attempts(world, starts, start, deadline, backoff) && forall i: nat :: Possible(world(i))
    requires Ended(world, starts, start, deadline, backoff, limit, outcome, end)
    ensures outcome.Launched? <==>
            exists i :: 0 <= i < |starts| && world(i).answer.Response? && world(i).takes < deadline - starts[i]
  {
    if starts != [] {
      var n := |starts| - 1;
      if outcome.Launched? {
        assert world(n).answer.Response?;
      }
      forall i | 0 <= i < |starts| && world(i).answer.Response? ensures i == n {
        OnlyLastIsSent(world, starts, start, deadline, backoff, i);
      }
    }
  }
}
