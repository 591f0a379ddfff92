/**
 How a run's money ends: what the orphan sweep settles after a crash between any two commits, which
 crashes nothing ever settles, when a paused run is billed again, and what a `run.completed` that
 surfaces after the sweep still takes.
 */
module Settlement {
  import opened Common
  import opened Pricing
  import opened Wallet
  import opened Runs
  import opened RunBilling

  /** Debits plus debt are exactly the price of the snapshot. */
  predicate Settled(s: State, cfg: Config) { Spent(s, cfg) == Price(s.stored, cfg.rates) }

  /** A whole sweep tick with nothing in between: list if active, price, debit. */
  function Swept(s: State, cfg: Config): State {
    if IsActive(s.status) then Finalize(s, cfg, Max(Owed(s, cfg), 0)) else s
  }

  lemma TickIsThreeSteps(s: State, cfg: Config)
    requires Enabled(s, cfg, ListOrphan)
    ensures var listed := Next(s, cfg, ListOrphan);
            && Enabled(listed, cfg, PriceListed(s.stored))
            && var priced := Next(listed, cfg, PriceListed(s.stored));
               var debit := DebitListed(Max(Owed(s, cfg), 0), Charged(s.acct.debits, cfg.run));
               Enabled(priced, cfg, debit) && Next(priced, cfg, debit) == Swept(s, cfg)
  {
    hide Price, Charged, Conflicts, SettleDebit;
    var listed := Next(s, cfg, ListOrphan);
    assert listed.listed - multiset{Counted(s.stored)} == s.listed;
    var priced := Next(listed, cfg, PriceListed(s.stored));
    var entry := Priced(Max(Owed(s, cfg), 0), Charged(s.acct.debits, cfg.run));
    assert priced.listed == s.listed + multiset{entry};
    assert priced.listed - multiset{entry} == s.listed;
  }

  // ----- the sweep ----------------------------------------------------------------------------

  /** Finalizing any run, whatever its status has become, with any amount found owed earlier.  It takes or
      owes something exactly when something is owed, the finalization key is free and the wallet can be
      debited, and then all of it.  An active run leaves the sweep's working set unless the key was used
      with another amount and reconciliation is off. */
  lemma SweepBillsIff(s: State, cfg: Config, owed: nat)
    ensures var t := Finalize(s, cfg, owed);
            && t == s.(acct := t.acct, status := t.status, runDebt := t.runDebt)
            && (t.acct != s.acct <==> !Used(s.acct.debits, Final(cfg.run)) && CanDebit(s.acct, cfg, owed))
            && (t.acct != s.acct ==> Spent(t, cfg) == Spent(s, cfg) + owed && Used(t.acct.debits, Final(cfg.run)))
            && (t.acct == s.acct ==> Spent(t, cfg) == Spent(s, cfg))
            && (IsActive(t.status) <==> IsActive(s.status) && Conflicts(s.acct, cfg, owed))
            && (IsActive(s.status) && !IsActive(t.status) ==> t.status == Failed)
            && (!IsActive(s.status) ==> t.status == s.status)
  {
    hide Price, Charged, Used, SettleDebit;
    SettleFacts(s.acct, cfg, owed);
    FreeKeyHasNoConflict(s.acct, cfg, owed);
  }

  lemma ConflictsIff(a: Account, cfg: Config, owed: int)
    ensures Conflicts(a, cfg, owed) <==>
            && owed > 0 && !cfg.reconcile && Used(a.debits, Final(cfg.run))
            && owed !in Amounts(a.debits, Final(cfg.run))
  {}

  /** Such a run stays stuck: after any top-ups and debits of other runs the next tick meets the same
      conflict and changes nothing. */
  lemma {:induction false} ConflictIsForever(s: State, cfg: Config, others: seq<Action>)
    requires IsActive(s.status) && Conflicts(s.acct, cfg, Owed(s, cfg)) && AllOutside(cfg, others)
    ensures var late := Meanwhile(s, cfg, others);
            Conflicts(late.acct, cfg, Owed(late, cfg)) && Swept(late, cfg) == late && IsActive(late.status)
  {
    hide Price, Charged, Used, SettleDebit, Amounts, Conflicts, Meanwhile;
    MeanwhileKeeps(s, cfg, others);
    AmountsKept(s, cfg, others);
    ConflictsIff(s.acct, cfg, Owed(s, cfg));
    ConflictsIff(Meanwhile(s, cfg, others).acct, cfg, Owed(s, cfg));
  }

  lemma {:induction false} AmountsKept(s: State, cfg: Config, others: seq<Action>)
    requires AllOutside(cfg, others)
    ensures Amounts(Meanwhile(s, cfg, others).acct.debits, Final(cfg.run)) == Amounts(s.acct.debits, Final(cfg.run))
  {
    hide Amounts, Next;
    if others != [] {
      AmountsKept(s, cfg, others[..|others| - 1]);
      OutsideKeepsAmounts(Meanwhile(s, cfg, others[..|others| - 1]), cfg, others[|others| - 1]);
    }
  }

  /** The three ways a driver goes: killed, on its own with a last flush, or behind a pause. */
  predicate Ends(act: Action) { act.Crash? || act.Leave? || act.WritePause? }

  /** Crash anywhere: a driver goes, in any phase between any two commits, and the sweep lists the run if
      it can.  The run ends settled if and only if it was settled already, or it is still active, its
      finalization key is free and the wallet can be debited.  A status already terminal or paused is
      not listed. */
  lemma CrashSettlesIff(s: State, cfg: Config, act: Action)
    requires DebtNeedsKey(s, cfg) && Ends(act) && Enabled(s, cfg, act)
    ensures var c := Next(s, cfg, act);
            Settled(Swept(c, cfg), cfg) <==>
            || Settled(c, cfg)
            || (IsActive(c.status) && !Used(c.acct.debits, Final(cfg.run)) && CanDebit(c.acct, cfg, Owed(c, cfg)))
  {
    hide Price, Charged, Used, SettleDebit, Conflicts, Finalize;
    var c := Next(s, cfg, act);
    SweepBillsIff(c, cfg, Max(Owed(c, cfg), 0));
  }

  /** Finalizing again, from another worker or on the next tick, changes nothing at all. */
  lemma FinalizeIsIdempotent(s: State, cfg: Config)
    ensures var t := Finalize(s, cfg, Max(Owed(s, cfg), 0)); Finalize(t, cfg, Max(Owed(t, cfg), 0)) == t
  {
    hide Price, Charged, Used, SettleDebit;
    var owed := Max(Owed(s, cfg), 0);
    var t := Finalize(s, cfg, owed);
    SettleFacts(s.acct, cfg, owed);
    FreeKeyHasNoConflict(s.acct, cfg, owed);
    SettleFacts(t.acct, cfg, Max(Owed(t, cfg), 0));
    if t.acct != s.acct {
      FreeKeyHasNoConflict(t.acct, cfg, Max(Owed(t, cfg), 0));
    }
  }

  // ----- runs nobody drives and nobody lists --------------------------------------------------

  /** No driver, a status the sweep does not list, and no tick that listed the run before. */
  predicate Resting(s: State) { s.driver.None? && !IsActive(s.status) && s.listed == multiset{} }

  lemma RestingStep(s: State, cfg: Config, act: Action)
    requires Resting(s) && Enabled(s, cfg, act) && !act.ResumeWins?
    ensures var t := Next(s, cfg, act);
            Resting(t) && t.status == s.status && t.stored == s.stored && Spent(t, cfg) == Spent(s, cfg)
  {
    hide Price, Charged, Used;
    if Outside(cfg, act) {
      OutsideKeeps(s, cfg, act);
    }
  }

  /** A run listed once, whose tick drops it for a live or unknown lease or a failed write, can rest. */
  lemma DroppedRests(s: State, cfg: Config, entry: Listing)
    requires s.driver.None? && !IsActive(s.status) && s.listed == multiset{entry}
    ensures Enabled(s, cfg, DropListed(entry)) && Resting(Next(s, cfg, DropListed(entry)))
  {}

  /** From there on, over every run, nothing is ever charged or owed again: a run that came to rest in a
      final status unsettled stays unsettled, and a paused one is not billed before somebody resumes it. */
  lemma {:induction false} RestingStays(trace: seq<State>, acts: seq<Action>, cfg: Config, i: nat, j: nat)
    requires Steps(trace, acts, cfg) && i <= j < |trace| && Resting(trace[i])
    requires IsFinal(trace[i].status) || forall k :: i <= k < j ==> !acts[k].ResumeWins?
    ensures Resting(trace[j]) && trace[j].status == trace[i].status && trace[j].stored == trace[i].stored
    ensures Spent(trace[j], cfg) == Spent(trace[i], cfg) && (Settled(trace[j], cfg) <==> Settled(trace[i], cfg))
    decreases j
  {
    hide Spent, Price, Next;
    if i < j {
      RestingStays(trace, acts, cfg, i, j - 1);
      RestingStep(trace[j - 1], cfg, acts[j - 1]);
    }
  }

  /** A tick that has listed the run goes on whatever happens to it: with any top-ups and other debits
      before the debit, the run is charged if and only if the finalization key is free, something is owed
      by the counts the query read, and the wallet can be debited then.  A status that is no longer
      active stays. */
  lemma ListedIsChargedIff(s: State, cfg: Config, u: Usage, others: seq<Action>)
    requires Enabled(s, cfg, PriceListed(u)) && AllOutside(cfg, others)
    ensures var late := Meanwhile(Next(s, cfg, PriceListed(u)), cfg, others);
            var debit := DebitListed(Max(OwedFor(s, cfg, u), 0), Charged(s.acct.debits, cfg.run));
            && Enabled(late, cfg, debit)
            && var t := Next(late, cfg, debit);
               && (Spent(t, cfg) > Spent(s, cfg) <==>
                   !Used(s.acct.debits, Final(cfg.run)) && CanDebit(late.acct, cfg, OwedFor(s, cfg, u)))
               && (!IsActive(s.status) ==> t.status == s.status)
  {
    hide Price, Charged, Used, SettleDebit, Conflicts, Finalize, Meanwhile;
    var priced := Next(s, cfg, PriceListed(u));
    MeanwhileKeeps(priced, cfg, others);
    SweepBillsIff(Meanwhile(priced, cfg, others), cfg, Max(OwedFor(s, cfg, u), 0));
  }

  /** A run that is not in a final status can still be settled: resume it if it is paused, top up, sweep. */
  lemma OpenRunCanSettle(s: State, cfg: Config, name: string)
    requires DebtNeedsKey(s, cfg) && !IsFinal(s.status) && !Used(s.acct.debits, Final(cfg.run))
    requires Spent(s, cfg) <= Price(s.stored, cfg.rates) && name !in s.acct.credits
    ensures var r := if s.status == Paused then Next(s, cfg, ResumeWins) else s;
            var funded := Next(r, cfg, TopUp(name, 1 + s.acct.debt + Owed(s, cfg)));
            IsActive(funded.status) && Settled(Swept(funded, cfg), cfg)
  {
    hide Price, Charged, Used, SettleDebit, Conflicts, Finalize;
    var r := if s.status == Paused then Next(s, cfg, ResumeWins) else s;
    var funded := Next(r, cfg, TopUp(name, 1 + s.acct.debt + Owed(s, cfg)));
    SweepBillsIff(funded, cfg, Max(Owed(funded, cfg), 0));
  }

  // ----- pause at zero ------------------------------------------------------------------------

  /** A step ends billing by its driver exactly when something is wanted and the balance it read was zero,
      or its key is free and the smaller of that reading and the balance at the debit does not cover it.
      No debt is made; the wallet is empty then exactly when nothing was added since the reading; and the
      driver flushes, writes `paused` and leaves. */
  lemma ShortfallPauses(s: State, cfg: Config)
    requires cfg.incremental && Enabled(s, cfg, BillStep)
    ensures var d, p := s.driver.value, s.driver.value.phase;
            var want := Price(p.usage, cfg.rates) - d.charged;
            var t := Next(s, cfg, BillStep);
            && t.driver.Some? && t.acct.debt == s.acct.debt && t.runDebt == s.runDebt
            && (t.driver.value.phase.PauseDue? <==>
                && want > 0
                && (p.quoted == 0
                    || (!Used(s.acct.debits, Step(cfg.run, p.index)) && Min(p.quoted, s.acct.balance) < want)))
            && (t.driver.value.phase.PauseDue? ==>
                && (t.acct.balance == 0 <==> s.acct.balance <= p.quoted)
                && forall flushed ::
                     var q := Next(Next(t, cfg, FlushPause(flushed)), cfg, WritePause);
                     q.driver.None? && Spent(q, cfg) == Spent(t, cfg) && q.status == Mark(s.status, Paused))
  {
    hide Price, Charged, Used, StepDebit;
    var d, p := s.driver.value, s.driver.value.phase;
    StepDebitFacts(s.acct, cfg, d.charged, p.index, p.usage, p.quoted);
  }

  /** A paused run is billed again exactly when, at the sweep after its resume, the shortfall is still
      owed, the finalization key is free and the wallet can be debited; the resumed parent is in the
      sweep's working set. */
  lemma PausedIsBilledAgainIff(s: State, cfg: Config, others: seq<Action>)
    requires s.status == Paused && AllOutside(cfg, others)
    ensures var late := Meanwhile(Next(s, cfg, ResumeWins), cfg, others);
            && IsActive(late.status)
            && (Spent(Swept(late, cfg), cfg) > Spent(s, cfg) <==>
                !Used(s.acct.debits, Final(cfg.run)) && CanDebit(late.acct, cfg, Owed(s, cfg)))
  {
    hide Price, Charged, Used, SettleDebit, Meanwhile, Conflicts, Finalize;
    var r := Next(s, cfg, ResumeWins);
    MeanwhileKeeps(r, cfg, others);
    var late := Meanwhile(r, cfg, others);
    SweepBillsIff(late, cfg, Max(Owed(late, cfg), 0));
  }

  // ----- a late run.completed -----------------------------------------------------------------

  /** The sweep finalized the run with whatever it had found owed, the wallet then saw any top-ups and
      other debits, and a driver thought dead surfaces with a `run.completed` of any usage and any memory
      of what was charged.  It adds nothing if and only if nothing is left by its own count, or the
      finalization key was used before or by the sweep, or the wallet cannot be debited at that moment. */
  lemma LateCompletedAddsNothingIff(s: State, cfg: Config, owed: nat, others: seq<Action>, charged: int, u: Usage)
    requires AllOutside(cfg, others)
    ensures var late := Meanwhile(Finalize(s, cfg, owed), cfg, others).acct;
            var remainder := Price(u, cfg.rates) - charged;
            SettleDebit(late, cfg, remainder) == late <==>
            || remainder <= 0
            || Used(s.acct.debits, Final(cfg.run)) || CanDebit(s.acct, cfg, owed)
            || !CanDebit(late, cfg, remainder)
  {
    hide Price, Charged, Used, SettleDebit, Meanwhile, Conflicts, Finalize;
    SweepBillsIff(s, cfg, owed);
    var t := Finalize(s, cfg, owed);
    MeanwhileKeeps(t, cfg, others);
    SettleFacts(Meanwhile(t, cfg, others).acct, cfg, Price(u, cfg.rates) - charged);
  }

  // ----- inputs on which the promises fail ----------------------------------------------------

  /** One credit per thousand tokens, incremental billing, reconciliation on. */
  const CFG: Config := Config("r", Rates(1.0, 1.0), true, true)
  const STRICT: Config := CFG.(reconcile := false)
  const ONE: Usage := Usage(1000, 0)
  const TWO: Usage := Usage(2000, 0)
  const THREE: Usage := Usage(3000, 0)

  function Wealth(balance: nat): Account { Account(balance, 0, [], balance, 0, map[]) }

  /** A run nobody drives, whose snapshot shows `u`. */
  function Left(a: Account, u: Usage, status: Status): State { State(a, u, u, status, None, 0, multiset{}) }

  function Held(a: Account, u: Usage, status: Status, d: Driver): State { Left(a, u, status).(driver := Some(d)) }

  /** A fresh driver on a running run. */
  function Driven(balance: nat): State {
    Held(Wealth(balance), Usage(0, 0), Running, Driver(0, Usage(0, 0), false, Idle))
  }

  lemma Prices()
    ensures Price(ONE, CFG.rates) == 1 && Price(TWO, CFG.rates) == 2 && Price(THREE, CFG.rates) == 3
    ensures Price(Usage(0, 0), CFG.rates) == 0
  {
    WholePrice(1);
    WholePrice(2);
    WholePrice(3);
  }

  lemma WholePrice(n: nat)
    requires n > 0
    ensures Price(Usage(1000 * n, 0), CFG.rates) == n
  {
    assert RawCost(Usage(1000 * n, 0), CFG.rates) == n as real;
  }

  lemma NothingCharged(key: Key)
    ensures Charged([], "r") == 0 && !Used([], key)
  {}

  lemma OneCharged(key: Key, amount: nat)
    requires key.run == "r"
    ensures Charged([Debit(key, amount)], "r") == amount
    ensures forall other :: Used([Debit(key, amount)], other) <==> other == key
  {
    NothingCharged(key);
    DebitAppend([], Debit(key, amount), "r");
    assert [] + [Debit(key, amount)] == [Debit(key, amount)];
  }

  /** `completed` is committed before the remainder is debited.  A crash in between leaves one credit
      unpaid with five in the wallet, and neither a sweep nor a driver will ever come back. */
  lemma CompletedBeforeRemainderIsNeverSettled()
    ensures var due := Next(Driven(5), CFG, CompletedArrives(ONE, true));
            var c := Next(Next(due, CFG, WriteStatus(true)), CFG, Crash);
            c == Left(Wealth(5), ONE, Completed) && Resting(c) && !Settled(c, CFG)
  {
    hide Price, Charged, Used;
    EndedIsNotSettled(5, Completed);
    var due := Next(Driven(5), CFG, CompletedArrives(ONE, true));
    assert due == Held(Wealth(5), ONE, Running, Driver(0, ONE, false, StatusDue(Completed, Some(ONE))));
  }

  /** The same for a step whose run the client stopped before the debit. */
  lemma StoppedBeforeDebitIsNeverSettled()
    ensures var due := Next(Driven(5), CFG, UsageArrives(1, ONE, true));
            var c := Next(Next(due, CFG, ClientStops), CFG, Crash);
            c == Left(Wealth(5), ONE, Cancelled) && Resting(c) && !Settled(c, CFG)
  {
    hide Price, Charged, Used;
    EndedIsNotSettled(5, Cancelled);
    var due := Next(Driven(5), CFG, UsageArrives(1, ONE, true));
    assert due == Held(Wealth(5), ONE, Running, Driver(0, ONE, false, StepDue(1, ONE)));
  }

  /** The same for a run that is told `run.failed` by a driver restarted after a crash. */
  lemma FailedBeforeDebitIsNeverSettled()
    ensures var c := Left(Wealth(5), ONE, Running);
            Next(c, CFG, Start) == Held(Wealth(5), ONE, Running, Driver(0, Usage(0, 0), false, Idle))
    ensures var d := Held(Wealth(5), ONE, Running, Driver(0, Usage(0, 0), false, Idle));
            var told := Next(d, CFG, FailedArrives(true));
            var c := Next(Next(told, CFG, WriteStatus(true)), CFG, Leave(true));
            c == Left(Wealth(5), ONE, Failed) && Resting(c) && !Settled(c, CFG)
  {
    hide Price, Charged, Used;
    EndedIsNotSettled(5, Failed);
    NothingCharged(Final("r"));
  }

  lemma EndedIsNotSettled(balance: nat, status: Status)
    requires IsFinal(status)
    ensures var c := Left(Wealth(balance), ONE, status); Resting(c) && Owed(c, CFG) == 1 && !Settled(c, CFG)
  {
    hide Price, Charged, Used;
    Prices();
    NothingCharged(Final("r"));
  }

  function OnList(status: Status, entry: Listing): State {
    Left(Wealth(5), ONE, status).(listed := multiset{entry})
  }

  lemma ListedThenStopped()
    ensures Next(Next(Left(Wealth(5), ONE, Running), CFG, ListOrphan), CFG, ClientStops) ==
            OnList(Cancelled, Counted(ONE))
  {}

  /** A tick lists the run and the client stops it: the tick still finds one credit owed and debits the
      cancelled run. */
  lemma StoppedWhileListedIsCharged()
    ensures var stopped := OnList(Cancelled, Counted(ONE));
            var t := Finalize(stopped, CFG, 1);
            && OwedFor(stopped, CFG, ONE) == 1 && Spent(stopped, CFG) == 0
            && t.status == Cancelled && Spent(t, CFG) == 1
  {
    hide Price, Charged, Used, SettleDebit, Conflicts, Finalize;
    Prices();
    NothingCharged(Final("r"));
    SweepBillsIff(OnList(Cancelled, Counted(ONE)), CFG, 1);
  }

  /** An orphan whose owner has spent everything else: one credit is owed and the sweep leaves it so. */
  lemma EmptyWalletIsNotSettled()
    ensures var c := Left(Wealth(0), ONE, Running); !Settled(Swept(c, CFG), CFG)
  {
    hide Price, Charged, Used, SettleDebit, Conflicts, Finalize;
    Prices();
    NothingCharged(Final("r"));
    SweepBillsIff(Left(Wealth(0), ONE, Running), CFG, 1);
  }

  /** A failed status write leaves the run active with its remainder debited; more usage arrives; without
      reconciliation the sweep's debit conflicts, and the run stays in the working set for ever. */
  lemma ConflictKeepsRunListed()
    ensures var due := Held(Wealth(5), ONE, Running, Driver(0, ONE, false, RemainderDue(ONE)));
            && Next(Next(Driven(5), STRICT, CompletedArrives(ONE, true)), STRICT, WriteStatus(false)) == due
            && Next(due, STRICT, BillRemainder(true)) == Billed(Running)
    ensures Next(Next(Billed(Running), STRICT, UsageArrives(1, THREE, true)), STRICT, Crash) == Stuck()
    ensures Owed(Stuck(), STRICT) == 2 && Swept(Stuck(), STRICT) == Stuck() && IsActive(Stuck().status)
  {
    hide Price, Charged, Used;
    Prices();
    NothingCharged(Final("r"));
    OneCharged(Final("r"), 1);
    assert [] + [Debit(Final("r"), 1)] == [Debit(Final("r"), 1)];
    ConflictsIff(Stuck().acct, STRICT, 2);
  }

  /** One credit taken under the finalization key. */
  function Finalized(): Account { Account(4, 0, [Debit(Final("r"), 1)], 5, 0, map[]) }

  function Billed(status: Status): State { Held(Finalized(), ONE, status, Driver(0, ONE, true, Idle)) }

  function Stuck(): State { Left(Finalized(), THREE, Running) }

  /** One credit taken by step 1. */
  function Paid(left: nat): Account { Account(left, 0, [Debit(Step("r", 1), 1)], 1, 0, map[]) }

  function Short(phase: Phase): State {
    var due := phase.StepDue? || phase.StepQuoted?;
    Held(if due then Wealth(1) else Paid(0), TWO, Running, Driver(if due then 0 else 1, TWO, false, phase))
  }

  lemma TakesOne()
    ensures StepDebit(Wealth(1), CFG, 0, 1, TWO, 1) == (Paid(0), 1, true)
  {
    hide Price, Charged, Used;
    Prices();
    NothingCharged(Step("r", 1));
    assert [] + [Debit(Step("r", 1), 1)] == [Debit(Step("r", 1), 1)];
  }

  /** A step worth two on a balance of one: one is taken and the run is paused. */
  lemma ShortStepTakesTheRest()
    ensures Next(Driven(1), CFG, UsageArrives(1, TWO, true)) == Short(StepDue(1, TWO))
    ensures Next(Short(StepDue(1, TWO)), CFG, QuoteStep) == Short(StepQuoted(1, TWO, 1))
    ensures Next(Short(PauseDue), CFG, FlushPause(true)) == Short(PauseFlushed)
    ensures Next(Short(PauseFlushed), CFG, WritePause) == Left(Paid(0), TWO, Paused)
    ensures Next(Short(StepQuoted(1, TWO, 1)), CFG, BillStep) == Short(PauseDue)
  {
    TakesOne();
    hide StepDebit;
  }

  /** The same step with a top-up of five between the balance reading and the debit: the run is paused
      although the wallet holds five. */
  lemma PausedWithMoney()
    ensures var funded := Next(Short(StepQuoted(1, TWO, 1)), CFG, TopUp("k", 5));
            var t := Next(funded, CFG, BillStep);
            funded.acct.balance == 6 && t.driver.value.phase.PauseDue? && t.acct.balance == 5
  {
    hide Price, Charged, Used, StepDebit;
    Prices();
    NothingCharged(Step("r", 1));
    var a := Next(Short(StepQuoted(1, TWO, 1)), CFG, TopUp("k", 5)).acct;
    StepTakesExactly(a, CFG, 0, 1, TWO, 1);
    StepDebitFacts(a, CFG, 0, 1, TWO, 1);
  }

  /** After a resume and a top-up the sweep takes the other credit from the paused parent. */
  lemma PausedParentIsBilledAgain()
    ensures var again := Next(Left(Paid(0), TWO, Paused), CFG, ResumeWins);
            var funded := Next(again, CFG, TopUp("k", 5));
            Spent(again, CFG) == 1 && Spent(Swept(funded, CFG), CFG) == 2
  {
    hide Price, Charged, Used, SettleDebit, Conflicts, Finalize;
    Prices();
    OneCharged(Step("r", 1), 1);
    SweepBillsIff(Next(Next(Left(Paid(0), TWO, Paused), CFG, ResumeWins), CFG, TopUp("k", 5)), CFG, 1);
  }

  /** The first step's snapshot write fails, its debit does not. */
  lemma LostFlushBreaksBound()
    ensures var arrived := Next(Driven(5), CFG, UsageArrives(1, ONE, false));
            var t := Next(Next(arrived, CFG, QuoteStep), CFG, BillStep);
            Spent(t, CFG) == 1 && Price(t.stored, CFG.rates) == 0
  {
    hide Price, Charged, Used, StepDebit;
    Prices();
    NothingCharged(Step("r", 1));
    StepTakesExactly(Wealth(5), CFG, 0, 1, ONE, 5);
  }

  /** The remainder was debited; a step of the same usage is then debited again. */
  lemma LateUsageChargesTwice()
    ensures var due := Held(Wealth(5), ONE, Completed, Driver(0, ONE, false, RemainderDue(ONE)));
            && Next(Next(Driven(5), CFG, CompletedArrives(ONE, true)), CFG, WriteStatus(true)) == due
            && Next(due, CFG, BillRemainder(true)) == Billed(Completed)
    ensures var quoted := Held(Finalized(), ONE, Completed, Driver(0, ONE, true, StepQuoted(1, ONE, 4)));
            && Next(Next(Billed(Completed), CFG, UsageArrives(1, ONE, true)), CFG, QuoteStep) == quoted
            && var t := Next(quoted, CFG, BillStep);
               Spent(quoted, CFG) == 1 && Spent(t, CFG) == 2 && Price(t.stored, CFG.rates) == 1
  {
    hide Price, Charged, Used, StepDebit;
    Prices();
    NothingCharged(Final("r"));
    OneCharged(Final("r"), 1);
    assert [] + [Debit(Final("r"), 1)] == [Debit(Final("r"), 1)];
    StepTakesExactly(Finalized(), CFG, 0, 1, ONE, 4);
  }

  /** The sweep found an empty wallet, so the finalization key is free; a top-up later the surfacing
      `run.completed`, within the snapshot, takes the credit. */
  lemma LateCompletedCharges()
    ensures Swept(Left(Wealth(0), ONE, Running), CFG).acct == Wealth(0)
    ensures var late := Grant(Wealth(0), "k", 5, true).0; SettleDebit(late, CFG, Price(ONE, CFG.rates)) != late
  {
    hide Price, Charged, Used, SettleDebit, Conflicts, Finalize;
    Prices();
    NothingCharged(Final("r"));
    SweepBillsIff(Left(Wealth(0), ONE, Running), CFG, 1);
    SettleFacts(Grant(Wealth(0), "k", 5, true).0, CFG, 1);
  }
}
