/**
 Billing of one agent run: cumulative usage turned into telescoping step debits, a terminal
 remainder or an orphan finalization, with a commit after each phase and a crash possible between
 any two commits.

 One driver at a time handles the run.  Sweep ticks, several at once and each in three steps, client
 stops, resumes and their reverts, top-ups and debits of the user's other runs and chats may come
 at any moment, and the writes whose failure the code swallows may fail.
 */
module RunBilling {
  import opened Common
  import opened Pricing
  import opened Wallet
  import opened Runs

  datatype Config = Config(run: string, rates: Rates, incremental: bool, reconcile: bool)

  /** What a driver has in memory between two commits. */
  datatype Phase =
    | Idle
    | StepDue(index: int, usage: Usage)              // usage.delta: anchors flushed, balance not yet read
    | StepQuoted(index: int, usage: Usage, quoted: nat)   // balance read, debit not yet made
    | PauseDue                                       // step debited and short: final flush not yet made
    | PauseFlushed                                   // `paused` not yet written
    | StatusDue(to: Status, final: Option<Usage>)    // terminal event flushed, status not yet written
    | RemainderDue(usage: Usage)                     // status written, remainder not yet debited

  datatype Driver = Driver(charged: int, anchors: Usage, billed: bool, phase: Phase)

  /** How far a sweep tick has got with the run: the counts its query read, or what it found owed and
      the ledger total it subtracted. */
  datatype Listing = Counted(usage: Usage) | Priced(owed: nat, already: nat)

  datatype State = State(
    acct: Account,
    stored: Usage,              // token columns of the snapshot row
    seen: Usage,                // highest usage any driver was told of
    status: Status,
    driver: Option<Driver>,
    runDebt: nat,               // debt accrued on behalf of this run
    listed: multiset<Listing>)  // sweep ticks under way

  datatype Action =
    | Start
    | Crash
    | Leave(flushed: bool)                                    // self-termination, with its final flush
    | UsageArrives(index: int, usage: Usage, flushed: bool)   // anchors and their snapshot write
    | QuoteStep                                               // reads the balance
    | BillStep
    | FlushPause(flushed: bool)
    | WritePause
    | CompletedArrives(usage: Usage, flushed: bool)
    | FailedArrives(flushed: bool)
    | WriteStatus(written: bool)
    | BillRemainder(committed: bool)
    | ClientStops
    | ResumeWins
    | ResumeReverts
    | ListOrphan
    | PriceListed(usage: Usage)                               // reads the ledger
    | DebitListed(owed: nat, already: nat)
    | DropListed(entry: Listing)                              // lease alive or unknown, or a failing write
    | TopUp(name: string, amount: nat)
    | OtherStep(key: Key, amount: nat)
    | OtherFinal(other: string, amount: nat, reconcile: bool) // another run, or a chat (never reconciled)

  /** `_bill_step`, from the balance it read: the account, the new `charged` and whether the wallet fell
      short. */
  function StepDebit(a: Account, cfg: Config, charged: int, index: int, u: Usage, quoted: nat): (Account, int, bool) {
    var want := Price(u, cfg.rates) - charged;
    if want <= 0 then (a, charged, false)
    else
      var charge := Min(want, quoted);
      if charge <= 0 then (a, charged, true)
      else
        var (a', r) := ConsumeStep(a, Step(cfg.run, index), charge);
        if r.Replayed? then (a', charged, false)
        else (a', charged + (if r.Taken? then r.amount else 0), !(r.Taken? && r.amount >= want))
  }

  /** A terminal debit of what is owed, if anything. */
  function SettleDebit(a: Account, cfg: Config, owed: int): Account {
    if owed <= 0 then a else ConsumeFinal(a, Final(cfg.run), owed, cfg.reconcile).0
  }

  /** The finalization key was used with another amount and there is no reconciliation to swallow it. */
  predicate Conflicts(a: Account, cfg: Config, owed: int) {
    owed > 0 && ConsumeFinal(a, Final(cfg.run), owed, cfg.reconcile).1.Conflict?
  }

  /** `finalize_orphan_run`: charge what is owed, whatever the status is by now, then mark `failed` if the
      run is active; one commit.  A conflict escapes and takes everything with it. */
  function Finalize(s: State, cfg: Config, owed: nat): State {
    if Conflicts(s.acct, cfg, owed) then s
    else
      var a := SettleDebit(s.acct, cfg, owed);
      s.(acct := a, status := Mark(s.status, Failed), runDebt := s.runDebt + (a.debt - s.acct.debt))
  }

  /** What the given counts say is still owed beyond the ledger. */
  function OwedFor(s: State, cfg: Config, u: Usage): int { Price(u, cfg.rates) - Charged(s.acct.debits, cfg.run) }

  function Owed(s: State, cfg: Config): int { OwedFor(s, cfg, s.stored) }

  /** Every status write is conditional on an active run. */
  function Mark(from: Status, to: Status): Status { if IsActive(from) then to else from }

  predicate InPhase(s: State, idle: bool) { s.driver.Some? && s.driver.value.phase.Idle? == idle }

  predicate Enabled(s: State, cfg: Config, act: Action) {
    match act
    case Start => s.driver.None? && IsActive(s.status)
    case Crash => s.driver.Some?
    case Leave(_) => s.driver.Some?
    case UsageArrives(_, _, _) => InPhase(s, true)
    case QuoteStep => s.driver.Some? && s.driver.value.phase.StepDue?
    case BillStep => s.driver.Some? && s.driver.value.phase.StepQuoted?
    case FlushPause(_) => s.driver.Some? && s.driver.value.phase.PauseDue?
    case WritePause => s.driver.Some? && s.driver.value.phase.PauseFlushed?
    case CompletedArrives(_, _) => InPhase(s, true)
    case FailedArrives(_) => InPhase(s, true)
    case WriteStatus(_) => s.driver.Some? && s.driver.value.phase.StatusDue?
    case BillRemainder(_) => s.driver.Some? && s.driver.value.phase.RemainderDue?
    case ResumeWins => s.status == Paused
    case ResumeReverts => s.status == Resumed
    case ListOrphan => IsActive(s.status)
    case PriceListed(u) => Counted(u) in s.listed
    case DebitListed(owed, already) => Priced(owed, already) in s.listed
    case DropListed(entry) => entry in s.listed
    case OtherStep(key, _) => key.run != cfg.run
    case OtherFinal(other, _, _) => other != cfg.run
    case _ => true
  }

  /** The driver moves on, and its anchors reach the snapshot row if the write succeeds. */
  function Flush(s: State, d: Driver, flushed: bool): State {
    s.(driver := Some(d), stored := if flushed then Join(s.stored, d.anchors) else s.stored)
  }

  function Next(s: State, cfg: Config, act: Action): State
    requires Enabled(s, cfg, act)
  {
    match act
    case Start =>
      var charged := if cfg.incremental then Charged(s.acct.debits, cfg.run) else 0;
      s.(driver := Some(Driver(charged, Usage(0, 0), false, Idle)))
    case Crash => s.(driver := None)
    case Leave(flushed) => Flush(s, s.driver.value, flushed).(driver := None)
    case UsageArrives(index, u, flushed) =>
      var d := s.driver.value;
      var anchors := Join(d.anchors, u);
      Flush(s, d.(anchors := anchors, phase := StepDue(index, u)), flushed && anchors != d.anchors)
      .(seen := Join(s.seen, u))
    case QuoteStep =>
      var d := s.driver.value;
      s.(driver := Some(d.(phase := StepQuoted(d.phase.index, d.phase.usage, s.acct.balance))))
    case BillStep =>
      var d := s.driver.value;
      if !cfg.incremental then s.(driver := Some(d.(phase := Idle)))
      else
        var p := d.phase;
        var (a, charged, depleted) := StepDebit(s.acct, cfg, d.charged, p.index, p.usage, p.quoted);
        s.(acct := a, driver := Some(d.(charged := charged, phase := if depleted then PauseDue else Idle)))
    case FlushPause(flushed) => Flush(s, s.driver.value.(phase := PauseFlushed), flushed)
    case WritePause => s.(status := Mark(s.status, Paused), driver := None)   // the stream ends here
    case CompletedArrives(u, flushed) =>
      var d := s.driver.value;
      Flush(s, d.(anchors := Join(d.anchors, u), phase := StatusDue(Completed, Some(u))), flushed)
      .(seen := Join(s.seen, u))
    case FailedArrives(flushed) => Flush(s, s.driver.value.(phase := StatusDue(Failed, None)), flushed)
    case WriteStatus(written) =>
      var d := s.driver.value;
      var after := match d.phase.final case Some(u) => RemainderDue(u) case None => Idle;
      s.(driver := Some(d.(phase := after)), status := if written then Mark(s.status, d.phase.to) else s.status)
    case BillRemainder(committed) =>
      var d := s.driver.value;
      var a := if d.billed || !committed then s.acct
               else SettleDebit(s.acct, cfg, Price(d.phase.usage, cfg.rates) - d.charged);
      s.(acct := a, runDebt := s.runDebt + (a.debt - s.acct.debt), driver := Some(d.(billed := true, phase := Idle)))
    case ClientStops => s.(status := Mark(s.status, Cancelled))
    case ResumeWins => s.(status := Resumed)
    case ResumeReverts => s.(status := Paused)
    case ListOrphan => s.(listed := s.listed + multiset{Counted(s.stored)})
    case PriceListed(u) =>
      var priced := Priced(Max(OwedFor(s, cfg, u), 0), Charged(s.acct.debits, cfg.run));
      s.(listed := s.listed - multiset{Counted(u)} + multiset{priced})
    case DebitListed(owed, already) =>
      Finalize(s, cfg, owed).(listed := s.listed - multiset{Priced(owed, already)})
    case DropListed(entry) => s.(listed := s.listed - multiset{entry})
    case TopUp(name, amount) => s.(acct := Grant(s.acct, name, amount, cfg.reconcile).0)
    case OtherStep(key, amount) => s.(acct := ConsumeStep(s.acct, key, amount).0)
    case OtherFinal(other, amount, reconcile) =>
      s.(acct := ConsumeFinal(s.acct, Final(other), amount, reconcile).0)
  }

  // ----- what the debits do -------------------------------------------------------------------

  lemma DebitAppend(debits: seq<Debit>, d: Debit, run: string)
    ensures Charged(debits + [d], run) == Charged(debits, run) + (if d.key.run == run then d.amount else 0)
    ensures forall key :: Used(debits + [d], key) <==> Used(debits, key) || d.key == key
  {
    var all := debits + [d];
    assert all[..|debits|] == debits;
    assert all[|debits|].key == d.key;
    forall key | Used(debits, key) ensures Used(all, key) {
      var i :| 0 <= i < |debits| && debits[i].key == key;
      assert all[i].key == key;
    }
  }

  /** What a step debit can do: charge at most what is wanted, was quoted and is there, never touch the
      debt or the finalization key; when it reports a shortfall; and when the wallet is empty then. */
  lemma StepDebitFacts(a: Account, cfg: Config, charged: int, index: int, u: Usage, quoted: nat)
    ensures var (a', charged', depleted) := StepDebit(a, cfg, charged, index, u, quoted);
            var taken := charged' - charged;
            var want := Price(u, cfg.rates) - charged;
            && 0 <= taken <= a.balance && a'.balance == a.balance - taken && a'.debt == a.debt
            && Charged(a'.debits, cfg.run) == Charged(a.debits, cfg.run) + taken
            && (Used(a'.debits, Final(cfg.run)) <==> Used(a.debits, Final(cfg.run)))
            && charged' <= Max(charged, Price(u, cfg.rates))
            && (depleted <==>
                  && want > 0
                  && (quoted == 0 || (!Used(a.debits, Step(cfg.run, index)) && Min(quoted, a.balance) < want)))
            && (depleted ==> (a'.balance == 0 <==> a.balance <= quoted))
  {
    var (a', charged', depleted) := StepDebit(a, cfg, charged, index, u, quoted);
    if a' != a {
      DebitAppend(a.debits, a'.debits[|a.debits|], cfg.run);
      assert a'.debits == a.debits + [a'.debits[|a.debits|]];
    }
  }

  /** What a terminal debit can do: nothing, or debit plus debt equal to what is owed. */
  lemma SettleFacts(a: Account, cfg: Config, owed: int)
    ensures var a' := SettleDebit(a, cfg, owed);
            var taken := Charged(a'.debits, cfg.run) - Charged(a.debits, cfg.run);
            && a'.debt >= a.debt && (a.balance >= owed ==> a'.debt == a.debt)
            && (a' == a || (taken + (a'.debt - a.debt) == owed && Used(a'.debits, Final(cfg.run))))
            && (a' == a <==> owed <= 0 || Used(a.debits, Final(cfg.run))
                             || (if cfg.reconcile then a.balance == 0 else a.balance < owed))
  {
    var a' := SettleDebit(a, cfg, owed);
    if |a'.debits| > |a.debits| {
      DebitAppend(a.debits, a'.debits[|a.debits|], cfg.run);
      assert a'.debits == a.debits + [a'.debits[|a.debits|]];
    }
  }

  predicate Outside(cfg: Config, act: Action) {
    act.TopUp? || (act.OtherStep? && act.key.run != cfg.run) || (act.OtherFinal? && act.other != cfg.run)
  }

  /** Top-ups and debits of other runs and chats leave this run's rows alone. */
  lemma OutsideKeeps(s: State, cfg: Config, act: Action)
    requires Outside(cfg, act)
    ensures var t := Next(s, cfg, act);
            && t == s.(acct := t.acct) && Charged(t.acct.debits, cfg.run) == Charged(s.acct.debits, cfg.run)
            && forall key: Key :: key.run == cfg.run ==> (Used(t.acct.debits, key) <==> Used(s.acct.debits, key))
  {
    var a, a' := s.acct, Next(s, cfg, act).acct;
    if |a'.debits| > |a.debits| {
      DebitAppend(a.debits, a'.debits[|a.debits|], cfg.run);
      assert a'.debits == a.debits + [a'.debits[|a.debits|]];
    }
  }

  lemma OutsideKeepsAmounts(s: State, cfg: Config, act: Action)
    requires Outside(cfg, act)
    ensures Amounts(Next(s, cfg, act).acct.debits, Final(cfg.run)) == Amounts(s.acct.debits, Final(cfg.run))
  {
    var a, a' := s.acct, Next(s, cfg, act).acct;
    assert a.debits <= a'.debits && |a'.debits| <= |a.debits| + 1;
    assert |a'.debits| > |a.debits| ==> a'.debits[|a.debits|].key.run != cfg.run;
    forall i | 0 <= i < |a.debits| ensures a'.debits[i] == a.debits[i] {}
  }

  /** What a step takes: nothing under a used key, otherwise what is wanted, was quoted and is there. */
  function StepTakes(a: Account, cfg: Config, charged: int, index: int, u: Usage, quoted: nat): nat {
    if Used(a.debits, Step(cfg.run, index)) then 0
    else Min(Min(Max(Price(u, cfg.rates) - charged, 0), quoted), a.balance)
  }

  lemma StepTakesExactly(a: Account, cfg: Config, charged: int, index: int, u: Usage, quoted: nat)
    ensures var (a', charged', _) := StepDebit(a, cfg, charged, index, u, quoted);
            var taken := StepTakes(a, cfg, charged, index, u, quoted);
            && charged' == charged + taken && a'.debt == a.debt
            && Charged(a'.debits, cfg.run) == Charged(a.debits, cfg.run) + taken
  {
    hide Price, Charged, Used;
    StepDebitFacts(a, cfg, charged, index, u, quoted);
  }

  /** The wallet covers a terminal debit at all: with reconciliation, any balance above zero does. */
  predicate CanDebit(a: Account, cfg: Config, owed: int) {
    owed > 0 && if cfg.reconcile then a.balance > 0 else a.balance >= owed
  }

  // ----- crash-anywhere conservation ----------------------------------------------------------

  /** Everything charged for the run, now or as debt. */
  function Spent(s: State, cfg: Config): nat { Charged(s.acct.debits, cfg.run) + s.runDebt }

  ghost predicate DriverInv(s: State, cfg: Config, d: Driver) {
    && Dominates(s.seen, d.anchors)
    && (!Used(s.acct.debits, Final(cfg.run)) ==>
          d.charged == (if cfg.incremental then Charged(s.acct.debits, cfg.run) else 0))
    && (match d.phase
        case StepDue(_, u) => Dominates(s.seen, u)
        case StepQuoted(_, u, _) => Dominates(s.seen, u)
        case StatusDue(_, Some(u)) => Dominates(s.seen, u)
        case RemainderDue(u) => Dominates(s.seen, u)
        case _ => true)
  }

  /** What a tick remembers was covered by the usage seen when it read it. */
  ghost predicate ListingInv(entry: Listing, seen: Usage, r: Rates) {
    match entry
    case Counted(u) => Dominates(seen, u)
    case Priced(owed, already) => owed == 0 || owed + already <= Price(seen, r)
  }

  ghost predicate ListingsInv(listed: multiset<Listing>, seen: Usage, r: Rates) {
    forall entry :: entry in listed ==> ListingInv(entry, seen, r)
  }

  /** Debt is only made together with the finalization key. */
  predicate DebtNeedsKey(s: State, cfg: Config) { Used(s.acct.debits, Final(cfg.run)) || s.runDebt == 0 }

  ghost predicate Inv(s: State, cfg: Config) {
    && Dominates(s.stored, Usage(0, 0)) && Dominates(s.seen, s.stored)
    && Spent(s, cfg) <= Price(s.seen, cfg.rates)
    && DebtNeedsKey(s, cfg)
    && (!Used(s.acct.debits, Final(cfg.run)) && !cfg.incremental ==> Charged(s.acct.debits, cfg.run) == 0)
    && (s.driver.Some? ==> DriverInv(s, cfg, s.driver.value))
    && ListingsInv(s.listed, s.seen, cfg.rates)
  }

  /** A debit made on a stale reading fits under the usage seen: a step after the finalization key was
      used, or a tick whose ledger reading a step has overtaken. */
  predicate Fits(s: State, cfg: Config, act: Action)
    requires Enabled(s, cfg, act)
  {
    match act
    case BillStep =>
      var d, p := s.driver.value, s.driver.value.phase;
      cfg.incremental && Used(s.acct.debits, Final(cfg.run)) ==>
        Spent(s, cfg) + StepTakes(s.acct, cfg, d.charged, p.index, p.usage, p.quoted) <= Price(s.seen, cfg.rates)
    case DebitListed(owed, already) =>
      && !Used(s.acct.debits, Final(cfg.run)) && CanDebit(s.acct, cfg, owed)
      && Charged(s.acct.debits, cfg.run) > already ==>
        Spent(s, cfg) + owed <= Price(s.seen, cfg.rates)
    case _ => true
  }

  lemma InvBillStep(s: State, cfg: Config)
    requires Sane(cfg.rates) && Inv(s, cfg) && Enabled(s, cfg, BillStep) && Fits(s, cfg, BillStep)
    ensures Inv(Next(s, cfg, BillStep), cfg)
  {
    hide Price, Charged, Used, StepTakes, StepDebit;
    var d, p := s.driver.value, s.driver.value.phase;
    StepTakesExactly(s.acct, cfg, d.charged, p.index, p.usage, p.quoted);
    StepDebitFacts(s.acct, cfg, d.charged, p.index, p.usage, p.quoted);
    PriceMonotone(p.usage, s.seen, cfg.rates);
  }

  lemma InvBillRemainder(s: State, cfg: Config, committed: bool)
    requires Sane(cfg.rates) && Inv(s, cfg) && Enabled(s, cfg, BillRemainder(committed))
    ensures Inv(Next(s, cfg, BillRemainder(committed)), cfg)
  {
    hide Price, Charged, Used, SettleDebit;
    var d := s.driver.value;
    SettleFacts(s.acct, cfg, Price(d.phase.usage, cfg.rates) - d.charged);
    PriceMonotone(d.phase.usage, s.seen, cfg.rates);
  }

  /** Listings survive more usage seen, and being dropped. */
  lemma ListingsKeep(listed: multiset<Listing>, fewer: multiset<Listing>, seen: Usage, more: Usage, r: Rates)
    requires Sane(r) && ListingsInv(listed, seen, r) && Dominates(more, seen) && fewer <= listed
    ensures ListingsInv(fewer, more, r)
  {
    hide Price;
    PriceMonotone(seen, more, r);
    forall entry | entry in fewer ensures ListingInv(entry, more, r) {
      assert entry in listed;
    }
  }

  lemma InvListed(s: State, cfg: Config, u: Usage)
    requires Sane(cfg.rates) && Inv(s, cfg) && Enabled(s, cfg, PriceListed(u))
    ensures Inv(Next(s, cfg, PriceListed(u)), cfg)
  {
    hide Price, Charged, Used;
    assert ListingInv(Counted(u), s.seen, cfg.rates);
    PriceMonotone(u, s.seen, cfg.rates);
    ListingsKeep(s.listed, s.listed - multiset{Counted(u)}, s.seen, s.seen, cfg.rates);
  }

  lemma FinalizeFacts(s: State, cfg: Config, owed: nat)
    ensures var t := Finalize(s, cfg, owed);
            var used := Used(s.acct.debits, Final(cfg.run));
            && t.stored == s.stored && t.seen == s.seen && t.driver == s.driver && t.listed == s.listed
            && (if !used && CanDebit(s.acct, cfg, owed)
                then Spent(t, cfg) == Spent(s, cfg) + owed && Used(t.acct.debits, Final(cfg.run))
                else t.acct == s.acct && t.runDebt == s.runDebt)
  {
    hide Price, Charged, Used, SettleDebit;
    SettleFacts(s.acct, cfg, owed);
    FreeKeyHasNoConflict(s.acct, cfg, owed);
  }

  lemma InvDebitListed(s: State, cfg: Config, owed: nat, already: nat)
    requires Sane(cfg.rates) && Inv(s, cfg)
    requires Enabled(s, cfg, DebitListed(owed, already)) && Fits(s, cfg, DebitListed(owed, already))
    ensures Inv(Next(s, cfg, DebitListed(owed, already)), cfg)
  {
    hide Price, Charged, Used, Finalize;
    assert ListingInv(Priced(owed, already), s.seen, cfg.rates);
    FinalizeFacts(s, cfg, owed);
    var rest := s.listed - multiset{Priced(owed, already)};
    ListingsKeep(s.listed, rest, s.seen, s.seen, cfg.rates);
    hide ListingsInv;
    assert Next(s, cfg, DebitListed(owed, already)) == Finalize(s, cfg, owed).(listed := rest);
  }

  lemma InvStep(s: State, cfg: Config, act: Action)
    requires Sane(cfg.rates) && Inv(s, cfg) && Enabled(s, cfg, act) && Fits(s, cfg, act)
    ensures Inv(Next(s, cfg, act), cfg)
  {
    hide Inv, Next, Fits;
    match act
    case BillStep => InvBillStep(s, cfg);
    case BillRemainder(committed) => InvBillRemainder(s, cfg, committed);
    case PriceListed(u) => InvListed(s, cfg, u);
    case DebitListed(owed, already) => InvDebitListed(s, cfg, owed, already);
    case _ =>
      if Outside(cfg, act) {
        InvOutside(s, cfg, act);
      } else {
        InvOther(s, cfg, act);
      }
  }

  /** Actions that touch no account. */
  predicate Quiet(cfg: Config, act: Action) {
    !Outside(cfg, act) && !act.BillStep? && !act.BillRemainder? && !act.PriceListed? && !act.DebitListed?
  }

  lemma QuietFrame(s: State, cfg: Config, act: Action)
    requires Enabled(s, cfg, act) && Quiet(cfg, act) && Dominates(s.stored, Usage(0, 0)) && Dominates(s.seen, s.stored)
    requires s.driver.Some? ==> Dominates(s.seen, s.driver.value.anchors)
    ensures var t := Next(s, cfg, act);
            && t.acct == s.acct && t.runDebt == s.runDebt && Dominates(t.seen, s.seen)
            && Dominates(t.stored, Usage(0, 0)) && Dominates(t.seen, t.stored)
            && (if act.ListOrphan? then t.listed == s.listed + multiset{Counted(s.stored)} && t.seen == s.seen
                else t.listed <= s.listed)
  {
    hide Price, Charged, Used, StepDebit, SettleDebit, ConsumeFinal, ConsumeStep, Grant;
  }

  predicate Arrives(act: Action) { act.UsageArrives? || act.CompletedArrives? }

  lemma JoinMonotone(u: Usage, v: Usage, w: Usage)
    requires Dominates(u, v)
    ensures Dominates(Join(u, w), Join(v, w))
  {}

  lemma ArrivingDriver(s: State, cfg: Config, act: Action)
    requires Enabled(s, cfg, act) && Arrives(act) && DriverInv(s, cfg, s.driver.value)
    ensures var t := Next(s, cfg, act); t.driver.Some? && DriverInv(t, cfg, t.driver.value)
  {
    hide Charged, Used, Join;
    JoinMonotone(s.seen, s.driver.value.anchors, act.usage);
  }

  lemma QuietDriver(s: State, cfg: Config, act: Action)
    requires Enabled(s, cfg, act) && Quiet(cfg, act) && !Arrives(act) && Dominates(s.seen, Usage(0, 0))
    requires s.driver.Some? ==> DriverInv(s, cfg, s.driver.value)
    ensures var t := Next(s, cfg, act); t.driver.Some? ==> DriverInv(t, cfg, t.driver.value)
  {
    hide Price, Charged, Used, StepDebit, SettleDebit, ConsumeFinal, ConsumeStep, Grant, Join;
  }

  lemma InvOther(s: State, cfg: Config, act: Action)
    requires Sane(cfg.rates) && Inv(s, cfg) && Enabled(s, cfg, act) && Quiet(cfg, act)
    ensures Inv(Next(s, cfg, act), cfg)
  {
    hide Price, Charged, Used, Next, Quiet;
    var t := Next(s, cfg, act);
    QuietFrame(s, cfg, act);
    if Arrives(act) {
      ArrivingDriver(s, cfg, act);
    } else {
      QuietDriver(s, cfg, act);
    }
    PriceMonotone(s.seen, t.seen, cfg.rates);
    if act.ListOrphan? {
      assert ListingInv(Counted(s.stored), s.seen, cfg.rates);
    } else {
      ListingsKeep(s.listed, t.listed, s.seen, t.seen, cfg.rates);
    }
  }

  lemma InvOutside(s: State, cfg: Config, act: Action)
    requires Inv(s, cfg) && Outside(cfg, act)
    ensures Inv(Next(s, cfg, act), cfg)
  {
    hide Price, Charged, Used, Next;
    OutsideKeeps(s, cfg, act);
  }

  ghost predicate Initial(s: State, cfg: Config) {
    && s.stored == s.seen == Usage(0, 0) && s.status == Running && s.driver == None && s.runDebt == 0
    && s.listed == multiset{}
    && Charged(s.acct.debits, cfg.run) == 0 && !Used(s.acct.debits, Final(cfg.run))
  }

  /** Any interleaving of the actions, from any state. */
  ghost predicate Steps(trace: seq<State>, acts: seq<Action>, cfg: Config) {
    && |trace| == |acts| + 1
    && forall i :: 0 <= i < |acts| ==>
                     Enabled(trace[i], cfg, acts[i]) && trace[i + 1] == Next(trace[i], cfg, acts[i])
  }

  ghost predicate Run(trace: seq<State>, acts: seq<Action>, cfg: Config) {
    Steps(trace, acts, cfg) && Initial(trace[0], cfg)
  }

  ghost predicate AllFit(trace: seq<State>, acts: seq<Action>, cfg: Config)
    requires Steps(trace, acts, cfg)
  {
    forall k :: 0 <= k < |acts| ==> Fits(trace[k], cfg, acts[k])
  }

  lemma {:induction false} RunsKeepInv(trace: seq<State>, acts: seq<Action>, cfg: Config, i: nat)
    requires Sane(cfg.rates) && Run(trace, acts, cfg) && AllFit(trace, acts, cfg) && i < |trace|
    ensures Inv(trace[i], cfg)
  {
    hide Next, Fits;
    if i > 0 {
      RunsKeepInv(trace, acts, cfg, i - 1);
      InvStep(trace[i - 1], cfg, acts[i - 1]);
    }
  }

  /** Over every run, whatever writes fail and whenever sweeps come: what was debited plus the debt never
      exceeds the price of the highest usage seen, if and only if every debit made on a stale reading
      fits under it. */
  lemma NeverAboveSeenIff(trace: seq<State>, acts: seq<Action>, cfg: Config)
    requires Sane(cfg.rates) && Run(trace, acts, cfg)
    ensures (forall i :: 0 <= i < |trace| ==> Spent(trace[i], cfg) <= Price(trace[i].seen, cfg.rates)) <==>
            AllFit(trace, acts, cfg)
  {
    hide Price, Charged, Used, Inv, Next, Fits;
    if AllFit(trace, acts, cfg) {
      forall i | 0 <= i < |trace| ensures Spent(trace[i], cfg) <= Price(trace[i].seen, cfg.rates) {
        RunsKeepInv(trace, acts, cfg, i);
        BoundOfInv(trace[i], cfg);
      }
    } else {
      var k :| 0 <= k < |acts| && !Fits(trace[k], cfg, acts[k]);
      MisfitBreaksBound(trace[k], cfg, acts[k]);
      assert Spent(trace[k + 1], cfg) > Price(trace[k + 1].seen, cfg.rates);
    }
  }

  lemma MisfitBreaksBound(s: State, cfg: Config, act: Action)
    requires Enabled(s, cfg, act) && !Fits(s, cfg, act)
    ensures var t := Next(s, cfg, act); Spent(t, cfg) > Price(t.seen, cfg.rates)
  {
    hide Price, Charged, Used, StepTakes, StepDebit, SettleDebit;
    if act.BillStep? {
      var d, p := s.driver.value, s.driver.value.phase;
      StepTakesExactly(s.acct, cfg, d.charged, p.index, p.usage, p.quoted);
    } else {
      SettleFacts(s.acct, cfg, act.owed);
      FreeKeyHasNoConflict(s.acct, cfg, act.owed);
    }
  }

  lemma FreeKeyHasNoConflict(a: Account, cfg: Config, owed: int)
    ensures Conflicts(a, cfg, owed) ==> owed > 0 && !cfg.reconcile && Used(a.debits, Final(cfg.run))
  {}

  /** Debt is only made together with the finalization key, in every state of every run, fitting or not. */
  lemma {:induction false} DebtAlwaysNeedsKey(trace: seq<State>, acts: seq<Action>, cfg: Config, i: nat)
    requires Run(trace, acts, cfg) && i < |trace|
    ensures DebtNeedsKey(trace[i], cfg)
  {
    hide Next, DebtNeedsKey;
    if i == 0 {
      FirstHasNoDebt(trace[0], cfg);
    } else {
      DebtAlwaysNeedsKey(trace, acts, cfg, i - 1);
      DebtNeedsKeyStep(trace[i - 1], cfg, acts[i - 1]);
    }
  }

  lemma FirstHasNoDebt(s: State, cfg: Config)
    requires Initial(s, cfg)
    ensures DebtNeedsKey(s, cfg)
  {}

  lemma DebtNeedsKeyStep(s: State, cfg: Config, act: Action)
    requires DebtNeedsKey(s, cfg) && Enabled(s, cfg, act)
    ensures DebtNeedsKey(Next(s, cfg, act), cfg)
  {
    hide Price, Charged, Used, SettleDebit, StepDebit, ConsumeStep, ConsumeFinal;
    if Outside(cfg, act) {
      OutsideKeeps(s, cfg, act);
    } else if act.BillStep? {
      var d, p := s.driver.value, s.driver.value.phase;
      StepDebitFacts(s.acct, cfg, d.charged, p.index, p.usage, p.quoted);
    } else if act.BillRemainder? {
      var d := s.driver.value;
      SettleFacts(s.acct, cfg, Price(d.phase.usage, cfg.rates) - d.charged);
    } else if act.DebitListed? {
      SettleFacts(s.acct, cfg, act.owed);
    }
  }

  lemma BoundOfInv(s: State, cfg: Config)
    requires Inv(s, cfg)
    ensures Spent(s, cfg) <= Price(s.seen, cfg.rates)
  {}

  // ----- the snapshot -------------------------------------------------------------------------

  /** Every snapshot write of the action succeeds. */
  predicate Flushed(act: Action) {
    match act
    case UsageArrives(_, _, flushed) => flushed
    case CompletedArrives(_, flushed) => flushed
    case _ => true
  }

  ghost predicate Mirrored(s: State) {
    && s.stored == s.seen && Dominates(s.stored, Usage(0, 0))
    && (s.driver.Some? ==> Dominates(s.stored, s.driver.value.anchors))
  }

  /** While the writes of the anchors succeed, the snapshot row is the highest usage seen. */
  lemma {:induction false} SnapshotIsSeen(trace: seq<State>, acts: seq<Action>, cfg: Config, i: nat)
    requires Run(trace, acts, cfg) && i < |trace|
    requires forall k :: 0 <= k < |acts| ==> Flushed(acts[k])
    ensures Mirrored(trace[i])
  {
    hide Next, Mirrored;
    if i == 0 {
      MirroredAtFirst(trace[0], cfg);
    } else {
      SnapshotIsSeen(trace, acts, cfg, i - 1);
      MirroredStep(trace[i - 1], cfg, acts[i - 1]);
    }
  }

  lemma MirroredAtFirst(s: State, cfg: Config)
    requires Initial(s, cfg)
    ensures Mirrored(s)
  {}

  lemma MirroredStep(s: State, cfg: Config, act: Action)
    requires Mirrored(s) && Enabled(s, cfg, act) && Flushed(act)
    ensures Mirrored(Next(s, cfg, act))
  {
    hide StepDebit, SettleDebit, Charged, Grant, ConsumeFinal, ConsumeStep;
  }

  /** Hence with successful snapshot writes and no late step, in every reachable state what was debited
      plus the debt is at most the price of the stored snapshot. */
  lemma NeverAboveSnapshot(trace: seq<State>, acts: seq<Action>, cfg: Config, i: nat)
    requires Sane(cfg.rates) && Run(trace, acts, cfg) && AllFit(trace, acts, cfg) && i < |trace|
    requires forall k :: 0 <= k < |acts| ==> Flushed(acts[k])
    ensures Inv(trace[i], cfg) && Spent(trace[i], cfg) <= Price(trace[i].stored, cfg.rates)
  {
    RunsKeepInv(trace, acts, cfg, i);
    SnapshotIsSeen(trace, acts, cfg, i);
  }

  /** A flush that succeeds puts everything its driver knows into the row, also what an earlier one lost. */
  lemma FlushCatchesUp(s: State, cfg: Config, u: Usage)
    requires s.driver.Some?
    ensures Dominates(Next(s, cfg, Leave(true)).stored, s.driver.value.anchors)
    ensures s.driver.value.phase.PauseDue? ==>
              Dominates(Next(s, cfg, FlushPause(true)).stored, s.driver.value.anchors)
    ensures s.driver.value.phase.Idle? ==>
              && Dominates(Next(s, cfg, FailedArrives(true)).stored, s.driver.value.anchors)
              && Dominates(Next(s, cfg, CompletedArrives(u, true)).stored, Join(s.driver.value.anchors, u))
  {}

  /** The remainder is tried once per processing, whatever came of it. */
  lemma RemainderIsTriedOnce(s: State, cfg: Config, committed: bool)
    requires Enabled(s, cfg, BillRemainder(committed))
    ensures var t := Next(s, cfg, BillRemainder(committed));
            && t.driver.Some? && t.driver.value.billed && t.driver.value.phase.Idle?
            && (s.driver.value.billed || !committed ==> t.acct == s.acct && t.runDebt == s.runDebt)
  {}

  // ----- where a status comes from ------------------------------------------------------------

  /** The action that can make a run show this status, or make its driver go and write it. */
  predicate Causes(act: Action, status: Status) {
    match status
    case Running => false
    case Completed => act.CompletedArrives?
    case Failed => act.FailedArrives? || act.DebitListed?
    case Cancelled => act.ClientStops?
    case Paused => act.WritePause? || act.ResumeReverts?
    case Resumed => act.ResumeWins?
  }

  ghost predicate Caused(acts: seq<Action>, status: Status) {
    status == Running || exists k :: 0 <= k < |acts| && Causes(acts[k], status)
  }

  ghost predicate CauseInv(s: State, acts: seq<Action>) {
    && Caused(acts, s.status)
    && (s.driver.Some? && s.driver.value.phase.StatusDue? ==>
          s.driver.value.phase.to != Running && Caused(acts, s.driver.value.phase.to))
  }

  lemma CausedMore(acts: seq<Action>, act: Action)
    ensures forall status :: Caused(acts, status) || Causes(act, status) ==> Caused(acts + [act], status)
  {
    var all := acts + [act];
    assert all[|acts|] == act && forall k :: 0 <= k < |acts| ==> all[k] == acts[k];
  }

  predicate AboutToWrite(s: State, status: Status) {
    s.driver.Some? && s.driver.value.phase.StatusDue? && s.driver.value.phase.to == status
  }

  lemma StatusStep(s: State, cfg: Config, act: Action)
    requires Enabled(s, cfg, act)
    ensures var t := Next(s, cfg, act); t.status == s.status || Causes(act, t.status) || AboutToWrite(s, t.status)
  {
    hide StepDebit, SettleDebit, Price, Charged, ConsumeFinal, ConsumeStep, Grant, Conflicts, Join;
  }

  lemma IntentStep(s: State, cfg: Config, act: Action, status: Status)
    requires Enabled(s, cfg, act) && AboutToWrite(Next(s, cfg, act), status)
    ensures AboutToWrite(s, status) || (Causes(act, status) && status != Running)
  {
    hide StepDebit, SettleDebit, Price, Charged, ConsumeFinal, ConsumeStep, Grant, Conflicts, Join;
  }

  lemma CauseStep(s: State, cfg: Config, acts: seq<Action>, act: Action)
    requires CauseInv(s, acts) && Enabled(s, cfg, act)
    ensures CauseInv(Next(s, cfg, act), acts + [act])
  {
    hide Caused, Causes, Next;
    CausedMore(acts, act);
    var t := Next(s, cfg, act);
    StatusStep(s, cfg, act);
    if t.driver.Some? && t.driver.value.phase.StatusDue? {
      IntentStep(s, cfg, act, t.driver.value.phase.to);
    }
  }

  /** Every status has its cause: over every run, completed comes with a `run.completed`, failed with a
      `run.failed` or a sweep, cancelled with a client stop, paused with a pause or a revert, resumed with
      a compare-and-set. */
  lemma {:induction false} StatusHasCause(trace: seq<State>, acts: seq<Action>, cfg: Config, i: nat)
    requires Run(trace, acts, cfg) && i < |trace|
    ensures CauseInv(trace[i], acts[..i])
  {
    if i > 0 {
      hide Next;
      StatusHasCause(trace, acts, cfg, i - 1);
      CauseStep(trace[i - 1], cfg, acts[..i - 1], acts[i - 1]);
      assert acts[..i] == acts[..i - 1] + [acts[i - 1]];
    }
  }

  // ----- one usage.delta ----------------------------------------------------------------------

  predicate AllOutside(cfg: Config, others: seq<Action>) {
    forall i :: 0 <= i < |others| ==> Outside(cfg, others[i])
  }

  function Meanwhile(s: State, cfg: Config, others: seq<Action>): State
    requires AllOutside(cfg, others)
  {
    if others == [] then s else Next(Meanwhile(s, cfg, others[..|others| - 1]), cfg, others[|others| - 1])
  }

  lemma {:induction false} MeanwhileKeeps(s: State, cfg: Config, others: seq<Action>)
    requires AllOutside(cfg, others)
    ensures var t := Meanwhile(s, cfg, others);
            && t == s.(acct := t.acct) && Charged(t.acct.debits, cfg.run) == Charged(s.acct.debits, cfg.run)
            && forall key: Key :: key.run == cfg.run ==> (Used(t.acct.debits, key) <==> Used(s.acct.debits, key))
  {
    hide Charged, Used, Next;
    if others != [] {
      MeanwhileKeeps(s, cfg, others[..|others| - 1]);
      OutsideKeeps(Meanwhile(s, cfg, others[..|others| - 1]), cfg, others[|others| - 1]);
    }
  }

  /** A `usage.delta` from its arrival over the balance reading to its debit, in any state at all (late or
      not, its snapshot write successful or not, its key used or not) and with any top-ups and other
      debits in between: the bound holds afterwards exactly when there was room for what it takes. */
  lemma StepKeepsBoundIff(s: State, cfg: Config, index: int, u: Usage, flushed: bool,
                          before: seq<Action>, between: seq<Action>)
    requires cfg.incremental && InPhase(s, true)
    requires AllOutside(cfg, before) && AllOutside(cfg, between)
    ensures var d := s.driver.value;
            var anchors := Join(d.anchors, u);
            var row := if flushed && anchors != d.anchors then Join(s.stored, anchors) else s.stored;
            var mid := Meanwhile(Next(s, cfg, UsageArrives(index, u, flushed)), cfg, before);
            && Enabled(mid, cfg, QuoteStep)
            && var late := Meanwhile(Next(mid, cfg, QuoteStep), cfg, between);
               && Enabled(late, cfg, BillStep)
               && var t := Next(late, cfg, BillStep);
                  Spent(t, cfg) <= Price(t.stored, cfg.rates) <==>
                  Spent(s, cfg) + StepTakes(late.acct, cfg, d.charged, index, u, mid.acct.balance)
                  <= Price(row, cfg.rates)
  {
    hide Price, Charged, Used, StepTakes, StepDebit, Meanwhile;
    var arrived := Next(s, cfg, UsageArrives(index, u, flushed));
    MeanwhileKeeps(arrived, cfg, before);
    var mid := Meanwhile(arrived, cfg, before);
    MeanwhileKeeps(Next(mid, cfg, QuoteStep), cfg, between);
    var late := Meanwhile(Next(mid, cfg, QuoteStep), cfg, between);
    StepTakesExactly(late.acct, cfg, s.driver.value.charged, index, u, mid.acct.balance);
  }

  /** A failed snapshot write is swallowed and the debit goes ahead.  From any state within the bound,
      with the finalization key free, the bound survives exactly when the step is worth no more than
      the row already shows, or the whole balance would still fit, or the step's key was used. */
  lemma LostFlushIff(s: State, cfg: Config, index: int, u: Usage)
    requires Inv(s, cfg) && cfg.incremental && InPhase(s, true) && !Used(s.acct.debits, Final(cfg.run))
    requires Spent(s, cfg) <= Price(s.stored, cfg.rates)
    ensures var t := Next(Next(Next(s, cfg, UsageArrives(index, u, false)), cfg, QuoteStep), cfg, BillStep);
            Spent(t, cfg) <= Price(t.stored, cfg.rates) <==>
            || Price(u, cfg.rates) <= Price(s.stored, cfg.rates)
            || Charged(s.acct.debits, cfg.run) + s.acct.balance <= Price(s.stored, cfg.rates)
            || Used(s.acct.debits, Step(cfg.run, index))
  {
    hide Price, Charged, Used, StepDebit;
    StepTakesExactly(s.acct, cfg, s.driver.value.charged, index, u, s.acct.balance);
  }

  // ----- telescoping --------------------------------------------------------------------------

  /** One `usage.delta` as the biller sees it, with the balance it read; a re-subscription reseeds
      `charged` from the ledger, so `charged` is what the ledger says. */
  datatype Delivery = Delivery(index: int, usage: Usage, quoted: nat)

  function BillAll(a: Account, cfg: Config, events: seq<Delivery>): Account {
    if events == [] then a
    else
      var a' := BillAll(a, cfg, events[..|events| - 1]);
      var e := events[|events| - 1];
      StepDebit(a', cfg, Charged(a'.debits, cfg.run), e.index, e.usage, e.quoted).0
  }

  function Highest(events: seq<Delivery>, r: Rates): nat {
    if events == [] then 0 else Max(Highest(events[..|events| - 1], r), Price(events[|events| - 1].usage, r))
  }

  ghost predicate SameStepSameUsage(events: seq<Delivery>) {
    forall i, j :: 0 <= i < |events| && 0 <= j < |events| && events[i].index == events[j].index ==>
                     events[i].usage == events[j].usage
  }

  /** Every balance reading covered its step. */
  ghost predicate Quoted(events: seq<Delivery>, r: Rates) {
    forall i :: 0 <= i < |events| ==> events[i].quoted >= Price(events[i].usage, r)
  }

  lemma {:induction false} HighestCovers(events: seq<Delivery>, r: Rates, i: nat)
    requires i < |events|
    ensures Price(events[i].usage, r) <= Highest(events, r)
  {
    if i < |events| - 1 {
      HighestCovers(events[..|events| - 1], r, i);
    }
  }

  lemma {:induction false} HighestIsOne(events: seq<Delivery>, r: Rates, bound: nat)
    requires forall i :: 0 <= i < |events| ==> Price(events[i].usage, r) <= bound
    ensures Highest(events, r) <= bound
  {
    if events != [] {
      HighestIsOne(events[..|events| - 1], r, bound);
    }
  }

  /** Only a step that was delivered has its key in the ledger. */
  lemma {:induction false} KeysComeFromSteps(a: Account, cfg: Config, events: seq<Delivery>, index: int)
    requires !Used(a.debits, Step(cfg.run, index)) && forall i :: 0 <= i < |events| ==> events[i].index != index
    ensures !Used(BillAll(a, cfg, events).debits, Step(cfg.run, index))
  {
    if events != [] {
      var n := |events| - 1;
      KeysComeFromSteps(a, cfg, events[..n], index);
      var prior, after := BillAll(a, cfg, events[..n]), BillAll(a, cfg, events);
      if after != prior {
        DebitAppend(prior.debits, after.debits[|prior.debits|], cfg.run);
        assert after.debits == prior.debits + [after.debits[|prior.debits|]];
      }
    }
  }

  /** With enough balance, read and there, for any number of steps in any order, repeated or not, and any
      number of re-subscriptions, the debits add up to the highest price seen: no more and no less. */
  lemma {:induction false} StepsTelescope(a: Account, cfg: Config, events: seq<Delivery>)
    requires SameStepSameUsage(events) && Charged(a.debits, cfg.run) == 0
    requires forall i :: 0 <= i < |events| ==> !Used(a.debits, Step(cfg.run, events[i].index))
    requires Quoted(events, cfg.rates) && a.balance >= Highest(events, cfg.rates)
    ensures var b := BillAll(a, cfg, events);
            && Charged(b.debits, cfg.run) == Highest(events, cfg.rates)
            && b.balance == a.balance - Highest(events, cfg.rates) && b.debt == a.debt
  {
    if events != [] {
      var n := |events| - 1;
      var e := events[n];
      StepsTelescope(a, cfg, events[..n]);
      var b := BillAll(a, cfg, events[..n]);
      var charged := Charged(b.debits, cfg.run);
      StepDebitFacts(b, cfg, charged, e.index, e.usage, e.quoted);
      if Price(e.usage, cfg.rates) > charged {
        forall i | 0 <= i < n ensures events[..n][i].index != e.index {
          if events[i].index == e.index {
            HighestCovers(events[..n], cfg.rates, i);
          }
        }
        KeysComeFromSteps(a, cfg, events[..n], e.index);
      }
    }
  }

  /** Hence, when the final usage dominates every step, steps and remainder together cost exactly
      the price of the final usage: the number of steps does not change the price. */
  lemma StepsPlusRemainder(a: Account, cfg: Config, events: seq<Delivery>, final: Usage)
    requires Sane(cfg.rates) && SameStepSameUsage(events) && Charged(a.debits, cfg.run) == 0
    requires forall i :: 0 <= i < |events| ==>
                           !Used(a.debits, Step(cfg.run, events[i].index)) && Dominates(final, events[i].usage)
    requires Quoted(events, cfg.rates)
    requires !Used(a.debits, Final(cfg.run)) && a.balance >= Price(final, cfg.rates)
    ensures var b := BillAll(a, cfg, events);
            var c := SettleDebit(b, cfg, Price(final, cfg.rates) - Charged(b.debits, cfg.run));
            Charged(c.debits, cfg.run) == Price(final, cfg.rates) && c.debt == a.debt
  {
    hide Price, Charged, BillAll, SettleDebit, SameStepSameUsage;
    forall i | 0 <= i < |events| ensures Price(events[i].usage, cfg.rates) <= Price(final, cfg.rates) {
      PriceMonotone(events[i].usage, final, cfg.rates);
    }
    HighestIsOne(events, cfg.rates, Price(final, cfg.rates));
    StepsTelescope(a, cfg, events);
    var b := BillAll(a, cfg, events);
    FinalStaysFree(a, cfg, events);
    SettleFacts(b, cfg, Price(final, cfg.rates) - Charged(b.debits, cfg.run));
  }

  lemma {:induction false} FinalStaysFree(a: Account, cfg: Config, events: seq<Delivery>)
    requires !Used(a.debits, Final(cfg.run))
    ensures !Used(BillAll(a, cfg, events).debits, Final(cfg.run))
  {
    if events != [] {
      var n := |events| - 1;
      FinalStaysFree(a, cfg, events[..n]);
      var b := BillAll(a, cfg, events[..n]);
      StepDebitFacts(b, cfg, Charged(b.debits, cfg.run), events[n].index, events[n].usage, events[n].quoted);
    }
  }

  /** One step alone, with enough balance read and there, brings the ledger up to its price exactly when
      that price is already paid or the step's key is free: a reused index is not charged again. */
  lemma StepReachesPriceIff(a: Account, cfg: Config, index: int, u: Usage, quoted: nat)
    requires a.balance >= Price(u, cfg.rates) && quoted >= Price(u, cfg.rates)
    ensures var charged := Charged(a.debits, cfg.run);
            var b := StepDebit(a, cfg, charged, index, u, quoted).0;
            Charged(b.debits, cfg.run) == Max(charged, Price(u, cfg.rates)) <==>
            Price(u, cfg.rates) <= charged || !Used(a.debits, Step(cfg.run, index))
  {
    hide Price, Charged, Used, StepDebit;
    StepTakesExactly(a, cfg, Charged(a.debits, cfg.run), index, u, quoted);
  }

  // ----- the billing methods on the rows ------------------------------------------------------

  /** The money side of one run's processing state. */
  class RunBiller {
    const cfg: Config
    const wallet: WalletRow
    var charged: int
    var billed: bool

    /** `new_run_processing`: seeded from the ledger in incremental mode. */
    constructor (cfg: Config, wallet: WalletRow)
      ensures this.cfg == cfg && this.wallet == wallet && !billed
      ensures charged == if cfg.incremental then Charged(wallet.debits, cfg.run) else 0
    {
      this.cfg, this.wallet, charged, billed := cfg, wallet, 0, false;
      new;
      if cfg.incremental {
        charged := ChargedForRun();
      }
    }

    method ChargedForRun() returns (total: nat)
      ensures total == Charged(wallet.debits, cfg.run)
    {
      total := 0;
      var rows := wallet.debits;
      for i := 0 to |rows|
        invariant total == Charged(rows[..i], cfg.run)
      {
        assert rows[..i + 1][..i] == rows[..i];
        if rows[i].key.run == cfg.run {
          total := total + rows[i].amount;
        }
      }
      assert rows[..|rows|] == rows;
    }

    /** `quoted` is the balance read before the debit, in a statement of its own. */
    method BillStep(index: int, u: Usage, quoted: nat) returns (depleted: bool)
      modifies this`charged, wallet
      ensures (wallet.View(), charged, depleted) ==
              StepDebit(old(wallet.View()), cfg, old(charged), index, u, quoted)
    {
      var want := Price(u, cfg.rates) - charged;
      if want <= 0 {
        return false;
      }
      var charge := Min(want, quoted);
      var actual := 0;
      if charge > 0 {
        var r := wallet.ConsumeIncrementalClamp(Step(cfg.run, index), charge);
        if r.Replayed? {
          return false;
        }
        actual := r.amount;
        charged := charged + actual;
      }
      return actual < want;
    }

    method BillCompleted(u: Usage)
      requires UniqueKeys(wallet.debits)
      modifies this`billed, wallet
      ensures billed
      ensures wallet.View() == if old(billed) then old(wallet.View())
                               else SettleDebit(old(wallet.View()), cfg, Price(u, cfg.rates) - charged)
    {
      if !billed {
        var amount := Price(u, cfg.rates) - charged;
        if amount > 0 {
          var _ := wallet.ConsumeAgent(Final(cfg.run), amount, cfg.reconcile);
        }
        billed := true;
      }
    }

    /** The sweep's debit; it trusts the ledger, not any driver's memory.  A conflict with the amount on
        record escapes to the caller. */
    method FinalizeOrphan(counted: Usage) returns (taken: nat, conflict: bool)
      requires UniqueKeys(wallet.debits)
      modifies wallet
      ensures var owed := Max(Price(counted, cfg.rates) - old(Charged(wallet.debits, cfg.run)), 0);
              && wallet.View() == SettleDebit(old(wallet.View()), cfg, owed)
              && conflict == Conflicts(old(wallet.View()), cfg, owed)
      ensures taken == old(wallet.balance) - wallet.balance && (conflict ==> wallet.View() == old(wallet.View()))
    {
      var already := ChargedForRun();
      var owed := Max(Price(counted, cfg.rates) - already, 0);
      taken, conflict := 0, false;
      if owed > 0 {
        var r := wallet.ConsumeAgent(Final(cfg.run), owed, cfg.reconcile);
        if r.Taken? {
          taken := r.amount;
        }
        conflict := r.Conflict?;
      }
    }
  }
}
