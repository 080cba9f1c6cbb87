/** courier.Service, courier.Repository and logistics.Repository on mutable tables: each method
    performs the transaction HandoverRules specifies, keeps orders claimed once and says what it
    does to balances and to the orders still to be handed over. */
module HandoverService {
  import opened Basics
  import opened Totals
  import opened Handovers
  import opened HandoverRules
  import opened HandoverOutcomes

  predicate Ended(spec: Outcome, before: Db, after: Db, err: Option<Error>) {
    match spec
    case Ok(u) => err == None && after == u
    case Err(e) => err == Some(e) && after == before
  }

  /** A new line adds its amounts to the three totals. */
  lemma LineAdded(lines: map<Id, Line>, o: Id, line: Line)
    requires o !in lines
    ensures Total(lines[o := line].Keys, LineCollected(lines[o := line]))
         == Total(lines.Keys, LineCollected(lines)) + line.collected
    ensures Total(lines[o := line].Keys, LineSalary(lines[o := line]))
         == Total(lines.Keys, LineSalary(lines)) + line.salary
    ensures Total(lines[o := line].Keys, LineReturns(lines[o := line]))
         == Total(lines.Keys, LineReturns(lines)) + line.due
  {
    var more := lines[o := line];
    assert more.Keys == lines.Keys + {o};
    TotalAdd(lines.Keys, LineCollected(more), o);
    TotalSame(lines.Keys, LineCollected(lines), LineCollected(more));
    TotalAdd(lines.Keys, LineSalary(more), o);
    TotalSame(lines.Keys, LineSalary(lines), LineSalary(more));
    TotalAdd(lines.Keys, LineReturns(more), o);
    TotalSame(lines.Keys, LineReturns(lines), LineReturns(more));
  }

  lemma LinesGrow(orders: map<Id, Order>, done: set<Id>, o: Id)
    requires o in orders && o !in done
    ensures o !in LinesOf(orders, done)
    ensures LinesOf(orders, done + {o}) == LinesOf(orders, done)[o := LineOf(orders[o])]
  {
  }

  /** Lines and totals of the orders in `done`. */
  ghost predicate Built(orders: map<Id, Order>, done: set<Id>, lines: map<Id, Line>,
                        collected: int, fees: int, toReturn: int)
  {
    && lines == LinesOf(orders, done)
    && collected == Total(lines.Keys, LineCollected(lines))
    && fees == Total(lines.Keys, LineSalary(lines))
    && toReturn == Total(lines.Keys, LineReturns(lines))
  }

  lemma BuiltNothing(orders: map<Id, Order>)
    ensures Built(orders, {}, map[], 0, 0, 0)
  {
    assert LinesOf(orders, {}) == map[];
  }

  lemma BuiltStep(orders: map<Id, Order>, done: set<Id>, lines: map<Id, Line>, collected: int, fees: int, toReturn: int,
                  o: Id, line: Line)
    requires Built(orders, done, lines, collected, fees, toReturn)
    requires o in orders && o !in done && line == LineOf(orders[o])
    ensures Built(orders, done + {o}, lines[o := line],
                  collected + line.collected, fees + line.salary, toReturn + line.due)
  {
    hide Total;
    hide LinesOf;
    LinesGrow(orders, done, o);
    LineAdded(lines, o, line);
  }

  class Service {
    var orders: map<Id, Order>
    var handovers: map<Id, Handover>

    function Tables(): Db
      reads this
    {
      Db(orders, handovers)
    }

    /** Rows are well formed and no order is linked to two open or confirmed handovers. */
    ghost predicate Valid()
      reads this
    {
      Good(Tables())
    }

    /** Payouts are resolved from tariffs and settings, which are not negative. */
    constructor (delivered: map<Id, Order>)
      requires OrderRows(Db(delivered, map[]))
      ensures Tables() == Db(delivered, map[]) && Valid()
    {
      orders, handovers := delivered, map[];
    }

    method GetHandoverPaymentLimit(c: Id) returns (currentDebt: int, pending: int, available: int)
      ensures currentDebt == Max(0, Debt(Tables(), c))
      ensures pending == OpenAmount(Tables(), c)
      ensures available == Available(Tables(), c)
    {
      var orderDebt := SelectSum(orders.Keys, Owed(Tables(), c));
      var residue := SelectSum(handovers.Keys, Residue(handovers, c));
      pending := SelectSum(handovers.Keys, Reserved(handovers, c));
      currentDebt := orderDebt + residue;
      if currentDebt < 0 {
        currentDebt := 0;
      }
      available := currentDebt - pending;
      if available < 0 {
        available := 0;
      }
    }

    /** One line per eligible order and the running totals of the three amounts. */
    method BuildLines(c: Id, eligible: set<Id>)
      returns (lines: map<Id, Line>, collected: int, fees: int, toReturn: int)
      requires eligible <= orders.Keys
      ensures Built(orders, eligible, lines, collected, fees, toReturn)
    {
      hide Built;
      lines, collected, fees, toReturn := map[], 0, 0, 0;
      BuiltNothing(orders);
      var rest := eligible;
      ghost var done := {};
      while rest != {}
        invariant rest + done == eligible && rest !! done
        invariant Built(orders, done, lines, collected, fees, toReturn)
        decreases |rest|
      {
        var o :| o in rest;
        var row := orders[o];
        var got := row.total + row.fee - row.prepaid;
        if got < 0 {
          got := 0;
        }
        var due := got - row.payout;
        if due < 0 {
          due := 0;
        }
        BuiltStep(orders, done, lines, collected, fees, toReturn, o, Line(got, row.payout, due));
        collected, fees, toReturn := collected + got, fees + row.payout, toReturn + due;
        lines := lines[o := Line(got, row.payout, due)];
        rest, done := rest - {o}, done + {o};
      }
    }

    /** The statements of SubmitHandover with nothing in between. */
    method SubmitHandover(c: Id, amount: Option<int>, h: Id) returns (err: Option<Error>)
      requires Valid()
      modifies this
      ensures Ended(Submit(old(Tables()), c, amount, h), old(Tables()), Tables(), err)
      ensures Valid()
      ensures err.None? ==> Eligible(Tables(), c) == {}
      ensures err.None? ==> Balance(Tables(), c) == old(Balance(Tables(), c)) - old(Declared(Tables(), c, amount))
    {
      hide Balance;
      hide Debt;
      hide OpenAmount;
      hide Good;
      hide Total;
      hide Claimed;
      ghost var before := Tables();
      var debt, pending, available := GetHandoverPaymentLimit(c);
      if amount.Some? && amount.value > available {
        return Some(TooMuch);
      }
      var eligible := Eligible(Tables(), c);
      if |eligible| == 0 && (amount.None? || amount.value <= 0) {
        return Some(NothingEligible);
      }
      var lines, collected, fees, toReturn := BuildLines(c, eligible);
      if h in handovers || (amount.Some? && amount.value < 0) {
        return Some(Constraint);
      }
      handovers := handovers[h := Handover(c, Pending, CourierApp, collected, fees, toReturn, amount, lines)];
      assert Submit(before, c, amount, h) == Ok(Tables());
      SubmitEffect(before, Tables(), c, amount, h);
      return None;
    }

    method ConfirmHandover(h: Id, actualReturned: int) returns (err: Option<Error>)
      requires Valid()
      modifies this
      ensures Ended(Decide(old(Tables()), Decision.ConfirmHandover(h, actualReturned)), old(Tables()), Tables(), err)
      ensures err.None? ==>
                && h in old(handovers) && h in handovers && handovers[h].actual == Some(actualReturned)
                && (handovers[h].status == Confirmed <==> -1 <= actualReturned - old(handovers)[h].toReturn <= 1)
                && handovers[h].status in {Confirmed, Disputed}
      ensures Valid()
      ensures err.None? ==> Reweighs(old(Tables()), Tables(), h)
    {
      ghost var before := Tables();
      if h !in handovers {
        return Some(NotFound);
      }
      var row := handovers[h];
      if !row.status.Pending? && !row.status.Disputed? {
        return Some(BadStatus);
      }
      if actualReturned < 0 {
        return Some(Constraint);
      }
      row := row.(actual := Some(actualReturned));
      var diff := actualReturned - row.toReturn;
      if diff < -1 || diff > 1 {
        row := row.(status := Disputed);
      } else {
        row := row.(status := Confirmed);
      }
      handovers := handovers[h := row];
      DecisionEffect(before, Tables(), Decision.ConfirmHandover(h, actualReturned));
      return None;
    }

    method ConfirmTransaction(h: Id) returns (err: Option<Error>)
      requires Valid()
      modifies this
      ensures Ended(Decide(old(Tables()), Decision.ConfirmTransaction(h)), old(Tables()), Tables(), err)
      ensures Valid()
      ensures err.None? ==> Reweighs(old(Tables()), Tables(), h)
      ensures err.None? && old(handovers)[h].source.CourierApp? ==>
                var c, amount := old(handovers)[h].courier, old(handovers)[h].Accepted();
                && Debt(Tables(), c) == Debt(old(Tables()), c) - amount
                && OpenAmount(Tables(), c) == OpenAmount(old(Tables()), c) - amount
    {
      ghost var before := Tables();
      if h !in handovers {
        return Some(NotFound);
      }
      var row := handovers[h];
      if !row.status.Pending? {
        return Some(BadStatus);
      }
      var amount := row.toReturn;
      if row.actual.Some? {
        amount := row.actual.value;
      }
      handovers := handovers[h := row.(actual := Some(amount), status := Confirmed)];
      DecisionEffect(before, Tables(), Decision.ConfirmTransaction(h));
      if before.handovers[h].source.CourierApp? {
        ConfirmTransactionMovesBoth(before, Tables(), h);
      }
      return None;
    }

    method RejectHandover(h: Id) returns (err: Option<Error>)
      requires Valid()
      modifies this
      ensures Ended(Decide(old(Tables()), Decision.RejectHandover(h)), old(Tables()), Tables(), err)
      ensures Valid()
      ensures err.None? ==> Reweighs(old(Tables()), Tables(), h)
      ensures err.None? ==>
                var row := old(handovers)[h];
                && Eligible(Tables(), row.courier) == Eligible(old(Tables()), row.courier) + row.lines.Keys
                && Balance(Tables(), row.courier) == Balance(old(Tables()), row.courier) + row.Accepted()
    {
      ghost var before := Tables();
      if h !in handovers {
        return Some(NotFound);
      }
      var row := handovers[h];
      if !row.status.Pending? && !row.status.Disputed? {
        return Some(BadStatus);
      }
      handovers := handovers[h := row.(status := Rejected)];
      DecisionEffect(before, Tables(), Decision.RejectHandover(h));
      ClosingFrees(before, Tables(), h, before.handovers[h].courier);
      return None;
    }

    /** logistics.UpdateHandover; `noted` says whether an admin note came with the request. */
    method UpdateHandover(h: Id, status: Option<Status>, actual: Option<int>, noted: bool) returns (err: Option<Error>)
      requires Valid()
      modifies this
      ensures Ended(Decide(old(Tables()), Decision.UpdateHandover(h, status, actual, noted)),
                    old(Tables()), Tables(), err)
      ensures err.None? ==>
                h in old(handovers) && h in handovers && Requested(old(handovers)[h], handovers[h], status, actual)
      ensures Valid()
      ensures err.None? ==> Reweighs(old(Tables()), Tables(), h)
    {
      ghost var before := Tables();
      if h !in handovers {
        return Some(NotFound);
      }
      var row := handovers[h];
      if !row.Open() {
        return Some(BadStatus);
      }
      if status == Some(Rejected) && !noted {
        return Some(NoteRequired);
      }
      if actual.Some? {
        if actual.value < 0 {
          return Some(Constraint);
        }
        row := row.(actual := actual);
      }
      if status.Some? {
        row := row.(status := status.value);
      }
      handovers := handovers[h := row];
      DecisionEffect(before, Tables(), Decision.UpdateHandover(h, status, actual, noted));
      return None;
    }

    /** logistics.EditHandover; `noted` says whether an admin note is or will be on the row, and
        `other` whether a note or comment changes. */
    method EditHandover(h: Id, status: Option<Status>, actual: Option<int>, noted: bool, other: bool)
      returns (err: Option<Error>)
      requires Valid()
      modifies this
      ensures Ended(Decide(old(Tables()), Decision.EditHandover(h, status, actual, noted, other)),
                    old(Tables()), Tables(), err)
      ensures err.None? ==>
                h in old(handovers) && h in handovers && Requested(old(handovers)[h], handovers[h], status, actual)
      ensures err.None? ==> Reweighs(old(Tables()), Tables(), h)
      ensures Valid() <==> !(err.None? && Reclaims(old(Tables()), Tables(), h))
    {
      ghost var before := Tables();
      if h !in handovers {
        return Some(NotFound);
      }
      var row := handovers[h];
      if row.status.Pending? {
        return Some(BadStatus);
      }
      if status.Some? && !status.value.Confirmed? && !status.value.Rejected? {
        return Some(Constraint);
      }
      var next := row.status;
      if status.Some? {
        next := status.value;
      }
      if next.Rejected? && !noted {
        return Some(NoteRequired);
      }
      var changed := other;
      if next != row.status {
        changed := true;
      }
      if actual.Some? && actual != row.actual {
        changed := true;
      }
      if !changed {
        return Some(NothingToChange);
      }
      if actual.Some? {
        if actual.value < 0 {
          return Some(Constraint);
        }
        row := row.(actual := actual);
      }
      handovers := handovers[h := row.(status := next)];
      DecisionEffect(before, Tables(), Decision.EditHandover(h, status, actual, noted, other));
      return None;
    }

    method DeleteHandover(h: Id) returns (err: Option<Error>)
      requires Valid()
      modifies this
      ensures Ended(HandoverRules.DeleteHandover(old(Tables()), h), old(Tables()), Tables(), err)
      ensures Valid()
      ensures err.None? ==>
                var row := old(handovers)[h];
                && Eligible(Tables(), row.courier) == Eligible(old(Tables()), row.courier) + row.lines.Keys
                && Balance(Tables(), row.courier) == Balance(old(Tables()), row.courier) + row.Accepted()
    {
      ghost var before := Tables();
      if h !in handovers {
        return Some(NotFound);
      }
      if !handovers[h].status.Pending? {
        return Some(BadStatus);
      }
      handovers := handovers - {h};
      DeleteKeeps(before, Tables(), h);
      ClosingFrees(before, Tables(), h, before.handovers[h].courier);
      return None;
    }

    /** logistics.CreateHandover, the owner's manual entry. */
    method CreateHandover(h: Id, c: Id, collected: int, fees: int, toReturn: int) returns (err: Option<Error>)
      requires Valid()
      modifies this
      ensures Ended(CreateManual(old(Tables()), h, c, collected, fees, toReturn), old(Tables()), Tables(), err)
      ensures Valid()
      ensures err.None? ==> forall o: Id :: Eligible(Tables(), o) == Eligible(old(Tables()), o)
      ensures err.None? ==> Balance(Tables(), c) == old(Balance(Tables(), c)) - toReturn
    {
      ghost var before := Tables();
      if h in handovers || collected < 0 || fees < 0 || toReturn < 0 {
        return Some(Constraint);
      }
      handovers := handovers[h := Handover(c, Pending, Manual, collected, fees, toReturn, None, map[])];
      ManualEffect(before, Tables(), h, c, collected, fees, toReturn);
      return None;
    }
  }
}
