/**
 A user's wallet row and ledger, as the statements of the wallet service change them: the
 self-clamping step debit, the terminal debit with its debt path, and grants with clawback.
 */
module Wallet {
  import opened Common

  /** `run_id` (the finalization key) or `run_id:<step>`. */
  datatype Key = Final(run: string) | Step(run: string, index: int)

  datatype Debit = Debit(key: Key, amount: nat)

  /** `credits` are the credit rows by idempotency key, `granted` their total, `repaid` the total of
      clawed-back debt. */
  datatype Account = Account(
    balance: nat, debt: nat, debits: seq<Debit>, granted: nat, repaid: nat, credits: map<string, nat>)

  const EMPTY: Account := Account(0, 0, [], 0, 0, map[])

  datatype GrantResult = Credited(repaid: nat) | GrantReplayed | GrantConflict

  datatype Result = Taken(amount: nat) | Replayed | Insufficient | Conflict

  predicate Used(debits: seq<Debit>, key: Key) {
    exists i :: 0 <= i < |debits| && debits[i].key == key
  }

  /** The unique index on the idempotency key. */
  predicate UniqueKeys(debits: seq<Debit>) {
    forall i, j :: 0 <= i < j < |debits| ==> debits[i].key != debits[j].key
  }

  function Total(debits: seq<Debit>): nat {
    if debits == [] then 0 else Total(debits[..|debits| - 1]) + debits[|debits| - 1].amount
  }

  /** `charged_for_run`: everything debited under the run's own keys. */
  function Charged(debits: seq<Debit>, run: string): nat {
    if debits == [] then 0
    else
      var last := debits[|debits| - 1];
      Charged(debits[..|debits| - 1], run) + if last.key.run == run then last.amount else 0
  }

  function Amounts(debits: seq<Debit>, key: Key): set<nat> {
    set i | 0 <= i < |debits| && debits[i].key == key :: debits[i].amount
  }

  function Record(a: Account, key: Key, amount: nat, debtAdded: nat): Account
    requires amount <= a.balance
  {
    a.(balance := a.balance - amount, debt := a.debt + debtAdded, debits := a.debits + [Debit(key, amount)])
  }

  /** Incremental path: clamps to the balance, never raises, never makes debt. */
  function ConsumeStep(a: Account, key: Key, amount: nat): (Account, Result) {
    if Used(a.debits, key) then (a, Replayed)
    else if a.balance == 0 then (a, Taken(0))
    else
      var taken := Min(amount, a.balance);
      (Record(a, key, taken, 0), Taken(taken))
  }

  /** Terminal path of an agent run; `reconcile` is AGENT_DEBT_RECONCILE_ENABLED. */
  function ConsumeFinal(a: Account, key: Key, amount: nat, reconcile: bool): (Account, Result) {
    if reconcile && Used(a.debits, key) then (a, Replayed)
    else if reconcile && 0 < a.balance < amount then
      (Record(a, key, a.balance, amount - a.balance), Taken(a.balance))
    else if Used(a.debits, key) then
      (a, if amount in Amounts(a.debits, key) then Replayed else Conflict)
    else if amount <= a.balance then (Record(a, key, amount, 0), Taken(amount))
    else (a, Insufficient)
  }

  /** A grant: nothing under a used key; under a fresh one the debt is settled out of it first. */
  function Grant(a: Account, key: string, amount: nat, reconcile: bool): (Account, GrantResult) {
    if amount == 0 then (a, GrantConflict)
    else if key in a.credits then (a, if a.credits[key] == amount then GrantReplayed else GrantConflict)
    else
      var repaid := if reconcile then Min(amount, a.debt) else 0;
      (a.(balance := a.balance + (amount - repaid), debt := a.debt - repaid, granted := a.granted + amount,
          repaid := a.repaid + repaid, credits := a.credits[key := amount]),
       Credited(repaid))
  }

  // ----- the rows, changed in place -----------------------------------------------------------

  class WalletRow {
    var balance: nat
    var debt: nat
    var debits: seq<Debit>
    var granted: nat
    var repaid: nat
    var credits: map<string, nat>

    constructor ()
      ensures View() == EMPTY
    {
      balance, debt, debits, granted, repaid, credits := 0, 0, [], 0, 0, map[];
    }

    function View(): Account
      reads this
    {
      Account(balance, debt, debits, granted, repaid, credits)
    }

    /** The row with this idempotency key, if any. */
    method ExistingTx(key: Key) returns (amount: Option<nat>)
      ensures amount.Some? <==> Used(debits, key)
      ensures amount.Some? ==> amount.value in Amounts(debits, key)
    {
      for i := 0 to |debits|
        invariant forall j :: 0 <= j < i ==> debits[j].key != key
      {
        if debits[i].key == key {
          return Some(debits[i].amount);
        }
      }
      return None;
    }

    method ConsumeIncrementalClamp(key: Key, amount: nat) returns (r: Result)
      modifies this
      ensures (View(), r) == ConsumeStep(old(View()), key, amount)
    {
      var existing := ExistingTx(key);
      if existing.Some? {
        return Replayed;
      }
      if balance == 0 {
        return Taken(0);
      }
      var taken := Min(amount, balance);
      debits := debits + [Debit(key, taken)];
      balance := balance - taken;
      return Taken(taken);
    }

    method ConsumeAgent(key: Key, amount: nat, reconcile: bool) returns (r: Result)
      requires UniqueKeys(debits)
      modifies this
      ensures (View(), r) == ConsumeFinal(old(View()), key, amount, reconcile)
    {
      var existing := ExistingTx(key);
      if reconcile {
        if existing.Some? {
          return Replayed;
        }
        if 0 < balance < amount {
          var partial := balance;
          debits := debits + [Debit(key, partial)];
          balance, debt := 0, debt + (amount - partial);
          return Taken(partial);
        }
      }
      if existing.Some? {
        return if existing.value == amount then Replayed else Conflict;
      }
      if balance < amount {
        return Insufficient;
      }
      debits := debits + [Debit(key, amount)];
      balance := balance - amount;
      return Taken(amount);
    }

    /** Idempotent: a used key credits nothing, whatever the amount. */
    method GrantCredits(key: string, amount: nat, reconcile: bool) returns (r: GrantResult)
      modifies this
      ensures (View(), r) == Grant(old(View()), key, amount, reconcile)
      ensures r.Credited? <==> amount > 0 && key !in old(credits)
      ensures r.Credited? ==> balance + r.repaid == old(balance) + amount && debt + r.repaid == old(debt)
      ensures !r.Credited? ==> View() == old(View())
    {
      if amount == 0 {
        return GrantConflict;
      }
      if key in credits {
        return if credits[key] == amount then GrantReplayed else GrantConflict;
      }
      granted, credits := granted + amount, credits[key := amount];
      var back := 0;
      if reconcile {
        back := Min(amount, debt);
      }
      debt, repaid, balance := debt - back, repaid + back, balance + (amount - back);
      return Credited(back);
    }
  }

  // ----- the books ----------------------------------------------------------------------------

  datatype Op =
    | DoStep(key: Key, amount: nat)
    | DoFinal(key: Key, amount: nat, reconcile: bool)
    | DoGrant(name: string, amount: nat, reconcile: bool)

  function Apply(a: Account, op: Op): Account {
    match op
    case DoStep(key, amount) => ConsumeStep(a, key, amount).0
    case DoFinal(key, amount, reconcile) => ConsumeFinal(a, key, amount, reconcile).0
    case DoGrant(name, amount, reconcile) => Grant(a, name, amount, reconcile).0
  }

  function ApplyAll(ops: seq<Op>): Account {
    if ops == [] then EMPTY else Apply(ApplyAll(ops[..|ops| - 1]), ops[|ops| - 1])
  }

  lemma TotalNothing()
    ensures Total([]) == 0
  {}

  lemma TotalAppend(debits: seq<Debit>, d: Debit)
    ensures Total(debits + [d]) == Total(debits) + d.amount
  {
    assert (debits + [d])[..|debits|] == debits;
  }

  /** Granted = held + debited + clawed back. */
  predicate Balanced(a: Account) { a.balance + Total(a.debits) + a.repaid == a.granted }

  lemma RecordKeepsBooks(a: Account, key: Key, amount: nat, debtAdded: nat)
    requires Balanced(a) && amount <= a.balance
    ensures Balanced(Record(a, key, amount, debtAdded))
  {
    TotalAppend(a.debits, Debit(key, amount));
  }

  lemma OpKeepsBooks(a: Account, op: Op)
    requires Balanced(a)
    ensures Balanced(Apply(a, op))
  {
    hide Total, Used, Record, Amounts;
    match op
    case DoStep(key, amount) => RecordKeepsBooks(a, key, Min(amount, a.balance), 0);
    case DoFinal(key, amount, _) =>
      RecordKeepsBooks(a, key, Min(amount, a.balance), amount - Min(amount, a.balance));
    case DoGrant(_, _, _) =>
  }

  /** Over every history of debits and grants, credits are conserved: granted = held + debited +
      clawed back.  The ledger identity `balance == credits - debits` therefore holds exactly for
      the wallets that never repaid debt. */
  lemma {:induction false} CreditsAreConserved(ops: seq<Op>)
    ensures var a := ApplyAll(ops);
            && Balanced(a)
            && (a.balance == a.granted - Total(a.debits) <==> a.repaid == 0)
  {
    TotalNothing();
    hide Apply, Total;
    if ops == [] {
      assert ApplyAll(ops) == EMPTY;
    } else {
      var prior := ApplyAll(ops[..|ops| - 1]);
      CreditsAreConserved(ops[..|ops| - 1]);
      OpKeepsBooks(prior, ops[|ops| - 1]);
      assert ApplyAll(ops) == Apply(prior, ops[|ops| - 1]);
    }
  }

  lemma UniqueAppend(debits: seq<Debit>, d: Debit)
    requires UniqueKeys(debits) && !Used(debits, d.key)
    ensures UniqueKeys(debits + [d])
  {
    var all := debits + [d];
    forall i, j | 0 <= i < j < |all| ensures all[i].key != all[j].key {
      assert i < |debits| && all[i] == debits[i];
    }
  }

  /** No idempotency key is ever recorded twice. */
  lemma {:induction false} KeysStayUnique(ops: seq<Op>)
    ensures UniqueKeys(ApplyAll(ops).debits)
  {
    if ops != [] {
      KeysStayUnique(ops[..|ops| - 1]);
      var a, b := ApplyAll(ops[..|ops| - 1]), ApplyAll(ops);
      if |b.debits| > |a.debits| {
        UniqueAppend(a.debits, b.debits[|a.debits|]);
        assert b.debits == a.debits + [b.debits[|a.debits|]];
      }
    }
  }

  /** One grant keeps the ledger identity exactly when it is refused, replayed, or finds no debt to
      claw back. */
  lemma GrantKeepsIdentityIff(a: Account, key: string, amount: nat, reconcile: bool)
    requires a.balance == a.granted - Total(a.debits)
    ensures var b := Grant(a, key, amount, reconcile).0;
            b.balance == b.granted - Total(b.debits) <==>
            amount == 0 || key in a.credits || !reconcile || a.debt == 0
  {}

  /** A wallet of which the identity is false: 10 granted, a 15-credit run, 10 granted again. */
  lemma ClawbackBreaksIdentity()
    ensures var funded := Grant(EMPTY, "g1", 10, true).0;
            var billed := ConsumeFinal(funded, Final("r"), 15, true).0;
            var a := Grant(billed, "g2", 10, true).0;
            a.balance == 5 && a.granted == 20 && Total(a.debits) == 10
  {
    var d := Debit(Final("r"), 10);
    TotalAppend([], d);
    hide Total;
    assert [] + [d] == [d];
  }
}
