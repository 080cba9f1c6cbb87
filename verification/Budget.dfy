/** The company budget's ledger of top-ups and owner withdrawals and its stored running balances
    (budget/repository.go). Amounts are integer cents. */
module Budget {
  import opened Basics
  import opened Totals

  datatype Kind = ManualIncome | OwnerWithdrawal | ManualExpense | FinanceProfit

  /** A company_budget_transactions row. */
  datatype Txn = Txn(kind: Kind, amount: int, at: int, balance: int) {
    /** The rows the ledger shows; the other two types are legacy. */
    predicate Manual() { kind.ManualIncome? || kind.OwnerWithdrawal? }

    function Signed(): int {
      match kind
      case ManualIncome => amount
      case OwnerWithdrawal => -amount
      case _ => 0
    }
  }

  type Rows = map<Id, Txn>

  datatype Error = NotFound | Constraint

  function SignedOf(rows: Rows): Id -> int { (i: Id) => if i in rows then rows[i].Signed() else 0 }

  /** manualNet with no bounds. */
  ghost function ManualNet(rows: Rows): int { Total(rows.Keys, SignedOf(rows)) }

  /** (created_at, id) order. */
  predicate UpTo(rows: Rows, j: Id, i: Id)
    requires i in rows && j in rows
  {
    rows[j].at < rows[i].at || (rows[j].at == rows[i].at && j <= i)
  }

  /** The window of a row: everything up to it. */
  function Window(rows: Rows, i: Id): set<Id>
    requires i in rows
  {
    set j | j in rows && UpTo(rows, j, i)
  }

  ghost function Running(rows: Rows, i: Id): int
    requires i in rows
  {
    Total(Window(rows, i), SignedOf(rows))
  }

  ghost predicate BalancedRow(rows: Rows, i: Id) {
    i in rows && rows[i].Manual() ==> rows[i].balance == Running(rows, i)
  }

  /** Every visible row stores the sum of the ledger up to and including it. */
  ghost predicate Balanced(rows: Rows) {
    forall i {:trigger BalancedRow(rows, i)} :: BalancedRow(rows, i)
  }

  // ── Operations ────────────────────────────────────────────────────────────────────────

  /** A row AddIncome, AddWithdrawal or an approval inserts, given the net it read. */
  function NewRow(kind: Kind, amount: int, at: int, net: int): Txn {
    Txn(kind, amount, at, net + Txn(kind, amount, at, 0).Signed())
  }

  /** INSERT; the amount check and the primary key may refuse it. */
  function Insert(rows: Rows, i: Id, t: Txn): Result<Rows, Error> {
    if t.amount < 0 || i in rows then Err(Constraint) else Ok(rows[i := t])
  }

  ghost function AddIncome(rows: Rows, i: Id, amount: int, at: int): Result<Rows, Error> {
    Insert(rows, i, NewRow(ManualIncome, amount, at, ManualNet(rows)))
  }

  ghost function AddWithdrawal(rows: Rows, i: Id, amount: int, at: int): Result<Rows, Error> {
    Insert(rows, i, NewRow(OwnerWithdrawal, amount, at, ManualNet(rows)))
  }

  /** recalcBalanceAfter: one UPDATE over the window sum. Legacy rows are rewritten with the rest. */
  ghost function Recalc(rows: Rows): Rows {
    map i | i in rows :: rows[i].(balance := Running(rows, i))
  }

  ghost function UpdateTransaction(rows: Rows, i: Id, amount: int): Result<Rows, Error> {
    if i !in rows || !rows[i].Manual() then Err(NotFound)
    else if amount < 0 then Err(Constraint)
    else Ok(Recalc(rows[i := rows[i].(amount := amount)]))
  }

  // ── Running balances ──────────────────────────────────────────────────────────────────

  /** A window depends on keys and timestamps only, and its sum on amounts besides. */
  lemma SameRunning(rows: Rows, after: Rows, i: Id)
    requires i in rows && rows.Keys == after.Keys
    requires forall j :: j in rows ==> after[j] == rows[j].(balance := after[j].balance)
    ensures Running(after, i) == Running(rows, i)
    ensures ManualNet(after) == ManualNet(rows)
  {
    assert Window(after, i) == Window(rows, i);
    TotalSame(Window(rows, i), SignedOf(rows), SignedOf(after));
    TotalSame(rows.Keys, SignedOf(rows), SignedOf(after));
  }

  /** From any ledger at all, however stale, the recalculation restores every balance. */
  lemma RecalcBalances(rows: Rows)
    ensures Balanced(Recalc(rows))
    ensures ManualNet(Recalc(rows)) == ManualNet(rows)
  {
    hide Running;
    hide Total;
    var after := Recalc(rows);
    assert after.Keys == rows.Keys;
    forall i
      ensures BalancedRow(after, i)
    {
      if i in rows {
        SameRunning(rows, after, i);
      }
    }
    TotalSame(rows.Keys, SignedOf(rows), SignedOf(after));
  }

  /** On a balanced ledger it changes nothing that is shown: appending row by row and recalculating
      the window agree. */
  lemma RecalcIsIncremental(rows: Rows, i: Id)
    requires i in rows && rows[i].Manual()
    ensures Balanced(rows) ==> Recalc(rows)[i] == rows[i]
  {
    assert Balanced(rows) ==> BalancedRow(rows, i);
  }

  /** A row no visible row comes after. */
  predicate Last(rows: Rows, i: Id)
    requires i in rows
  {
    forall j :: j in rows && rows[j].Manual() ==> UpTo(rows, j, i)
  }

  /** The last stored balance is the net of the whole ledger. */
  lemma LastIsNet(rows: Rows, i: Id)
    requires i in rows && rows[i].Manual() && Balanced(rows) && Last(rows, i)
    ensures rows[i].balance == ManualNet(rows)
  {
    assert BalancedRow(rows, i);
    TotalSupport(Window(rows, i), rows.Keys, SignedOf(rows));
  }

  /** Inserting a row moves the window sum of the rows it precedes. */
  lemma RunningAfterInsert(rows: Rows, i: Id, t: Txn, j: Id)
    requires i !in rows && j in rows
    ensures var after := rows[i := t];
            Running(after, j) == Running(rows, j) + if UpTo(after, i, j) then t.Signed() else 0
  {
    var after := rows[i := t];
    TotalSame(Window(rows, j), SignedOf(rows), SignedOf(after));
    if UpTo(after, i, j) {
      assert Window(after, j) == Window(rows, j) + {i};
      TotalAdd(Window(rows, j), SignedOf(after), i);
    } else {
      assert Window(after, j) == Window(rows, j);
    }
  }

  /** The rows that come after a key. */
  function LaterThan(rows: Rows, i: Id, at: int): set<Id> {
    set j | j in rows && (at < rows[j].at || (at == rows[j].at && i < j))
  }

  ghost function LaterSum(rows: Rows, i: Id, at: int): int {
    Total(LaterThan(rows, i, at), SignedOf(rows))
  }

  lemma RunningOfInserted(rows: Rows, i: Id, t: Txn)
    requires i !in rows
    ensures Running(rows[i := t], i) == ManualNet(rows) - LaterSum(rows, i, t.at) + t.Signed()
  {
    hide Total;
    var after, later := rows[i := t], LaterThan(rows, i, t.at);
    var earlier := rows.Keys - later;
    assert earlier + later == rows.Keys;
    TotalUnion(earlier, later, SignedOf(rows));
    TotalSame(earlier, SignedOf(rows), SignedOf(after));
    assert Window(after, i) == earlier + {i};
    TotalAdd(earlier, SignedOf(after), i);
  }

  /** No visible row comes after the key. */
  predicate Newest(rows: Rows, i: Id, at: int) {
    forall j :: j in LaterThan(rows, i, at) ==> !rows[j].Manual()
  }

  /** An append that read the net keeps every balance exact if and only if no visible row is later
      than it (or, for an empty amount, the later ones cancel out). */
  lemma AppendKeepsBalanced(rows: Rows, i: Id, kind: Kind, amount: int, at: int)
    requires Balanced(rows) && i !in rows && (kind.ManualIncome? || kind.OwnerWithdrawal?)
    ensures Balanced(rows[i := NewRow(kind, amount, at, ManualNet(rows))])
       <==> Newest(rows, i, at) || (amount == 0 && LaterSum(rows, i, at) == 0)
  {
    AppendBalances(rows, i, kind, amount, at, ManualNet(rows));
    if Newest(rows, i, at) {
      TotalZero(LaterThan(rows, i, at), SignedOf(rows));
    }
  }

  /** The same for an append that read any net, stale or not. */
  lemma AppendBalances(rows: Rows, i: Id, kind: Kind, amount: int, at: int, net: int)
    requires Balanced(rows) && i !in rows && (kind.ManualIncome? || kind.OwnerWithdrawal?)
    ensures Balanced(rows[i := NewRow(kind, amount, at, net)])
       <==> net == ManualNet(rows) - LaterSum(rows, i, at) && (amount == 0 || Newest(rows, i, at))
  {
    var t := NewRow(kind, amount, at, net);
    var after := rows[i := t];
    RunningOfInserted(rows, i, t);
    assert Balanced(after) ==> BalancedRow(after, i);
    if net == ManualNet(rows) - LaterSum(rows, i, at) && (amount == 0 || Newest(rows, i, at)) {
      forall j
        ensures BalancedRow(after, j)
      {
        if j in rows && j != i {
          assert BalancedRow(rows, j);
          RunningAfterInsert(rows, i, t, j);
        }
      }
    } else if amount != 0 && !Newest(rows, i, at) {
      var j :| j in LaterThan(rows, i, at) && rows[j].Manual();
      assert BalancedRow(rows, j);
      RunningAfterInsert(rows, i, t, j);
      assert !BalancedRow(after, j);
    }
  }

  /** An edit moves the balance of every visible row from the edited one on by the change, and
      leaves the earlier ones alone. */
  lemma EditMovesLater(rows: Rows, i: Id, amount: int, after: Rows, j: Id)
    requires Balanced(rows) && UpdateTransaction(rows, i, amount) == Ok(after)
    requires j in rows && rows[j].Manual()
    ensures j in after && after[j].at == rows[j].at
    ensures var moved := if rows[i].kind.ManualIncome? then amount - rows[i].amount else rows[i].amount - amount;
            && after[j].balance == rows[j].balance + (if UpTo(rows, i, j) then moved else 0)
            && ManualNet(after) == ManualNet(rows) + moved
  {
    var edited := rows[i := rows[i].(amount := amount)];
    assert BalancedRow(rows, j);
    assert after == Recalc(edited);
    RecalcBalances(edited);
    hide Balanced;
    hide Running;
    hide ManualNet;
    EditMovesSums(rows, i, amount, edited, j);
  }

  /** A changed amount counts in the net and in the windows that contain its row. */
  lemma EditMovesSums(rows: Rows, i: Id, amount: int, edited: Rows, j: Id)
    requires i in rows && j in rows && edited == rows[i := rows[i].(amount := amount)]
    ensures var moved := edited[i].Signed() - rows[i].Signed();
            && Running(edited, j) == Running(rows, j) + (if UpTo(rows, i, j) then moved else 0)
            && ManualNet(edited) == ManualNet(rows) + moved
  {
    hide Total;
    assert Window(edited, j) == Window(rows, j);
    assert edited.Keys == rows.Keys;
    TotalChange(rows.Keys, SignedOf(rows), SignedOf(edited), i);
    if UpTo(rows, i, j) {
      TotalChange(Window(rows, j), SignedOf(rows), SignedOf(edited), i);
    } else {
      TotalSame(Window(rows, j), SignedOf(rows), SignedOf(edited));
    }
  }

  /** Two appends that read the net before either inserted: the second balance misses the first
      amount, so the ledger stays balanced only if that amount was empty. */
  lemma ConcurrentAppends(rows: Rows, i: Id, first: Kind, a: int, at: int, j: Id, second: Kind, b: int, later: int)
    requires Balanced(rows) && i !in rows && j !in rows && i != j && at < later
    requires (first.ManualIncome? || first.OwnerWithdrawal?) && (second.ManualIncome? || second.OwnerWithdrawal?)
    requires LaterThan(rows, i, at) == {}
    ensures var net := ManualNet(rows);
            Balanced(rows[i := NewRow(first, a, at, net)][j := NewRow(second, b, later, net)]) <==> a == 0
  {
    var net := ManualNet(rows);
    var mid := rows[i := NewRow(first, a, at, net)];
    AppendBalances(rows, i, first, a, at, net);
    assert LaterThan(mid, j, later) == {} by {
      assert forall x :: x in rows && later <= rows[x].at ==> x in LaterThan(rows, i, at);
    }
    AppendBalances(mid, j, second, b, later, net);
    TotalSame(rows.Keys, SignedOf(rows), SignedOf(mid));
    assert mid.Keys == rows.Keys + {i};
    TotalAdd(rows.Keys, SignedOf(mid), i);
  }

  // ── What an operation writes ──────────────────────────────────────────────────────────

  /** A new row's amount counts with its sign. */
  lemma NetAfterInsert(rows: Rows, i: Id, t: Txn)
    requires i !in rows
    ensures ManualNet(rows[i := t]) == ManualNet(rows) + t.Signed()
  {
    var after := rows[i := t];
    assert after.Keys == rows.Keys + {i};
    TotalAdd(rows.Keys, SignedOf(after), i);
    TotalSame(rows.Keys, SignedOf(rows), SignedOf(after));
  }

  /** A top-up is refused exactly when its amount is negative or its key taken; it raises the net by
      its amount and stores the new net as its balance. */
  lemma ToppedUp(rows: Rows, i: Id, amount: int, at: int)
    ensures var outcome := AddIncome(rows, i, amount, at);
            && (outcome.Ok? <==> amount >= 0 && i !in rows)
            && (outcome.Ok? ==>
                  && ManualNet(outcome.value) == ManualNet(rows) + amount
                  && outcome.value == rows[i := Txn(ManualIncome, amount, at, ManualNet(outcome.value))])
  {
    hide ManualNet;
    if i !in rows {
      NetAfterInsert(rows, i, NewRow(ManualIncome, amount, at, ManualNet(rows)));
    }
  }

  /** A withdrawal lowers the net by its amount, below zero if need be. */
  lemma Withdrawn(rows: Rows, i: Id, amount: int, at: int)
    ensures var outcome := AddWithdrawal(rows, i, amount, at);
            && (outcome.Ok? <==> amount >= 0 && i !in rows)
            && (outcome.Ok? ==>
                  && ManualNet(outcome.value) == ManualNet(rows) - amount
                  && outcome.value == rows[i := Txn(OwnerWithdrawal, amount, at, ManualNet(outcome.value))])
  {
    hide ManualNet;
    if i !in rows {
      NetAfterInsert(rows, i, NewRow(OwnerWithdrawal, amount, at, ManualNet(rows)));
    }
  }

  /** An edit is accepted for a top-up or an owner withdrawal at an amount that is not negative; it
      changes that amount and, apart from balances, nothing else. */
  lemma Edited(rows: Rows, i: Id, amount: int)
    ensures var outcome := UpdateTransaction(rows, i, amount);
            && (outcome.Ok? <==> i in rows && rows[i].kind in {ManualIncome, OwnerWithdrawal} && amount >= 0)
            && (outcome.Ok? ==>
                  && outcome.value.Keys == rows.Keys && outcome.value[i].amount == amount
                  && forall j :: j in rows ==>
                       && outcome.value[j].kind == rows[j].kind && outcome.value[j].at == rows[j].at
                       && (j != i ==> outcome.value[j].amount == rows[j].amount))
  {
    hide Running;
  }

  // ── Runs ──────────────────────────────────────────────────────────────────────────────

  datatype Op =
    | TopUp(i: Id, amount: int, at: int)
    | Withdraw(i: Id, amount: int, at: int)
    | Edit(i: Id, amount: int)

  ghost function Step(rows: Rows, op: Op): Rows {
    var next := match op
      case TopUp(i, amount, at) => AddIncome(rows, i, amount, at)
      case Withdraw(i, amount, at) => AddWithdrawal(rows, i, amount, at)
      case Edit(i, amount) => UpdateTransaction(rows, i, amount);
    if next.Ok? then next.value else rows
  }

  ghost function Run(rows: Rows, ops: seq<Op>): Rows {
    if ops == [] then rows else Step(Run(rows, ops[..|ops| - 1]), ops[|ops| - 1])
  }

  /** Every append is stamped after the visible rows that are there already. */
  ghost predicate InOrder(rows: Rows, ops: seq<Op>) {
    ops != [] ==>
      && InOrder(rows, ops[..|ops| - 1])
      && Stamped(Run(rows, ops[..|ops| - 1]), ops[|ops| - 1])
  }

  predicate Stamped(rows: Rows, op: Op) {
    !op.Edit? ==> Newest(rows, op.i, op.at)
  }

  lemma StepKeepsBalanced(rows: Rows, op: Op)
    requires Balanced(rows) && Stamped(rows, op)
    ensures Balanced(Step(rows, op))
  {
    hide Balanced;
    hide Recalc;
    hide NewRow;
    hide ManualNet;
    match op
    case TopUp(i, amount, at) =>
      if i !in rows {
        AppendKeepsBalanced(rows, i, ManualIncome, amount, at);
      }
    case Withdraw(i, amount, at) =>
      if i !in rows {
        AppendKeepsBalanced(rows, i, OwnerWithdrawal, amount, at);
      }
    case Edit(i, amount) =>
      if i in rows {
        RecalcBalances(rows[i := rows[i].(amount := amount)]);
      }
  }

  /** Through any run of top-ups, withdrawals and retroactive edits every stored balance stays the
      sum of the ledger up to its row. */
  lemma {:induction false} RunKeepsBalanced(rows: Rows, ops: seq<Op>)
    requires Balanced(rows) && InOrder(rows, ops)
    ensures Balanced(Run(rows, ops))
    decreases |ops|
  {
    if ops != [] {
      RunKeepsBalanced(rows, ops[..|ops| - 1]);
      StepKeepsBalanced(Run(rows, ops[..|ops| - 1]), ops[|ops| - 1]);
    }
  }

  // ── The repository ────────────────────────────────────────────────────────────────────

  predicate First(rows: Rows, rest: set<Id>, i: Id)
    requires rest <= rows.Keys
  {
    i in rest && forall j :: j in rest ==> UpTo(rows, i, j)
  }

  /** Some row comes before all the others. */
  lemma {:induction false} FirstExists(rows: Rows, rest: set<Id>) returns (i: Id)
    requires rest != {} && rest <= rows.Keys
    ensures First(rows, rest, i)
    decreases rest
  {
    i :| i in rest;
    if rest != {i} {
      var others := rest - {i};
      var next := FirstExists(rows, others);
      assert forall j :: j in rest ==> j == i || j in others;
      if !UpTo(rows, i, next) {
        i := next;
      }
    }
  }

  /** The recalculation under way: `rest` is still to do, the rows before it are done and add up to
      `running`. */
  ghost predicate UnderWay(source: Rows, rest: set<Id>, running: int, rows: Rows) {
    && rest <= source.Keys
    && running == Total(source.Keys - rest, SignedOf(source))
    && (forall j, k {:trigger UpTo(source, j, k)} :: j in source.Keys - rest && k in rest ==> UpTo(source, j, k))
    && rows == Partly(source, rest)
  }

  ghost function Partly(source: Rows, rest: set<Id>): Rows {
    map j | j in source :: if j in rest then source[j] else source[j].(balance := Running(source, j))
  }

  lemma RunningIsTotal(rows: Rows, i: Id)
    requires i in rows
    ensures Running(rows, i) == Total(Window(rows, i), SignedOf(rows))
  {
  }

  lemma UnderWayStep(source: Rows, rest: set<Id>, running: int, rows: Rows, i: Id)
    requires UnderWay(source, rest, running, rows) && First(source, rest, i)
    ensures var next := running + source[i].Signed();
            UnderWay(source, rest - {i}, next, rows[i := source[i].(balance := next)])
  {
    hide Running;
    hide Total;
    var done := source.Keys - rest;
    assert Running(source, i) == Total(Window(source, i), SignedOf(source)) by { RunningIsTotal(source, i); }
    assert Window(source, i) == done + {i} == source.Keys - (rest - {i});
    TotalAdd(done, SignedOf(source), i);
  }

  lemma UnderWayStarts(source: Rows)
    ensures UnderWay(source, source.Keys, 0, source)
  {
    assert source.Keys - source.Keys == {};
    TotalZero(source.Keys - source.Keys, SignedOf(source));
    hide Total;
    hide Running;
    assert Partly(source, source.Keys) == source;
  }

  lemma UnderWayEnds(source: Rows, running: int, rows: Rows)
    requires UnderWay(source, {}, running, rows)
    ensures rows == Recalc(source)
  {
    hide Total;
    hide Running;
    hide UpTo;
  }

  class Repository {
    var rows: Rows

    constructor (imported: Rows)
      ensures rows == imported
    {
      rows := imported;
    }

    method Net() returns (net: int)
      ensures net == ManualNet(rows)
    {
      net := SelectSum(rows.Keys, SignedOf(rows));
    }

    /** Inserts a top-up stamped with the net it read, and returns the balance with the live profit. */
    method TopUp(i: Id, amount: int, at: int, profit: int) returns (r: Result<int, Error>)
      modifies this
      ensures match AddIncome(old(rows), i, amount, at)
              case Ok(after) => rows == after && r == Ok(ManualNet(after) + profit)
              case Err(e) => rows == old(rows) && r == Err(e)
      ensures r.Ok? ==>
                && i in rows && rows[i].kind == ManualIncome && rows[i].amount == amount
                && r.value == old(ManualNet(rows)) + amount + profit
    {
      ToppedUp(rows, i, amount, at);
      var net := Net();
      if amount < 0 || i in rows {
        return Err(Constraint);
      }
      rows := rows[i := Txn(ManualIncome, amount, at, net + amount)];
      net := Net();
      r := Ok(net + profit);
    }

    /** A withdrawal may drive the balance below zero. */
    method Withdraw(i: Id, amount: int, at: int, profit: int) returns (r: Result<int, Error>)
      modifies this
      ensures match AddWithdrawal(old(rows), i, amount, at)
              case Ok(after) => rows == after && r == Ok(ManualNet(after) + profit)
              case Err(e) => rows == old(rows) && r == Err(e)
      ensures r.Ok? ==>
                && i in rows && rows[i].kind == OwnerWithdrawal && rows[i].amount == amount
                && r.value == old(ManualNet(rows)) - amount + profit
    {
      Withdrawn(rows, i, amount, at);
      var net := Net();
      if amount < 0 || i in rows {
        return Err(Constraint);
      }
      rows := rows[i := Txn(OwnerWithdrawal, amount, at, net - amount)];
      net := Net();
      r := Ok(net + profit);
    }

    method Update(i: Id, amount: int) returns (error: Option<Error>)
      modifies this
      ensures match UpdateTransaction(old(rows), i, amount)
              case Ok(after) => error == None && rows == after && Balanced(rows)
              case Err(e) => error == Some(e) && rows == old(rows)
    {
      if i !in rows || !rows[i].Manual() {
        return Some(NotFound);
      }
      if amount < 0 {
        return Some(Constraint);
      }
      rows := rows[i := rows[i].(amount := amount)];
      ghost var edited := rows;
      RecalcBalanceAfter();
      RecalcBalances(edited);
      error := None;
    }

    /** The window sum, accumulated row by row in (created_at, id) order. */
    method RecalcBalanceAfter()
      modifies this
      ensures rows == Recalc(old(rows))
    {
      var source := rows;
      var rest, running := source.Keys, 0;
      UnderWayStarts(source);
      hide UnderWay;
      while rest != {}
        invariant rest <= source.Keys
        invariant UnderWay(source, rest, running, rows)
        decreases rest
      {
        ghost var first := FirstExists(source, rest);
        var i :| i in rest && First(source, rest, i);
        UnderWayStep(source, rest, running, rows, i);
        running := running + source[i].Signed();
        rest := rest - {i};
        rows := rows[i := source[i].(balance := running)];
      }
      UnderWayEnds(source, running, rows);
    }
  }
}
