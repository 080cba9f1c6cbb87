/** What each handover operation accepts and what the rows then hold, column by column
    (courier/service.go, logistics/repository.go). */
module HandoverOutcomes {
  import opened Basics
  import opened Totals
  import opened Handovers
  import opened HandoverRules

  /** Rows other than `h`, and all orders, are as they were. */
  ghost predicate OnlyRow(db: Db, after: Db, h: Id) {
    after.orders == db.orders && after.handovers - {h} == db.handovers - {h}
  }

  // ── Decisions ─────────────────────────────────────────────────────────────────────────

  predicate Undecided(db: Db, h: Id) {
    h in db.handovers && (db.handovers[h].status == Pending || db.handovers[h].status == Disputed)
  }

  /** The counted amount is recorded, and the handover is disputed exactly when it is more than a
      cent away from what was to be returned. */
  lemma ConfirmedRow(db: Db, h: Id, amount: int)
    ensures var outcome := Decide(db, ConfirmHandover(h, amount));
            && (outcome.Ok? <==> Undecided(db, h) && amount >= 0)
            && (outcome.Ok? ==>
                  && OnlyRow(db, outcome.value, h) && h in outcome.value.handovers
                  && var row, next := db.handovers[h], outcome.value.handovers[h];
                     && next.actual == Some(amount)
                     && (next.status == Confirmed <==> -1 <= amount - row.toReturn <= 1)
                     && (next.status == Disputed <==> amount < row.toReturn - 1 || amount > row.toReturn + 1)
                     && next == row.(status := next.status, actual := next.actual))
  {
  }

  /** ConfirmTransaction takes pending handovers only and records what was declared, or else what
      was to be returned. */
  lemma TransactionRow(db: Db, h: Id)
    ensures var outcome := Decide(db, ConfirmTransaction(h));
            && (outcome.Ok? <==> h in db.handovers && db.handovers[h].status == Pending)
            && (outcome.Ok? ==>
                  && OnlyRow(db, outcome.value, h) && h in outcome.value.handovers
                  && var row, next := db.handovers[h], outcome.value.handovers[h];
                     && next.status == Confirmed
                     && (row.actual.Some? ==> next.actual == row.actual)
                     && (row.actual.None? ==> next.actual == Some(row.toReturn))
                     && next == row.(status := next.status, actual := next.actual))
  {
  }

  lemma RejectedRow(db: Db, h: Id)
    ensures var outcome := Decide(db, RejectHandover(h));
            && (outcome.Ok? <==> Undecided(db, h))
            && (outcome.Ok? ==>
                  && OnlyRow(db, outcome.value, h) && h in outcome.value.handovers
                  && outcome.value.handovers[h] == db.handovers[h].(status := Rejected))
  {
  }

  /** The requested status and amount are what the row then holds; what was not requested stays. */
  ghost predicate Requested(row: Handover, next: Handover, status: Option<Status>, actual: Option<int>) {
    && (status.Some? ==> next.status == status.value) && (status.None? ==> next.status == row.status)
    && (actual.Some? ==> next.actual == actual) && (actual.None? ==> next.actual == row.actual)
    && next == row.(status := next.status, actual := next.actual)
  }

  lemma UpdatedRow(db: Db, h: Id, status: Option<Status>, actual: Option<int>, noted: bool)
    ensures var outcome := Decide(db, UpdateHandover(h, status, actual, noted));
            && (outcome.Ok? <==>
                  && Undecided(db, h)
                  && (status == Some(Rejected) ==> noted) && (actual.Some? ==> actual.value >= 0))
            && (outcome.Ok? ==>
                  && OnlyRow(db, outcome.value, h) && h in outcome.value.handovers
                  && Requested(db.handovers[h], outcome.value.handovers[h], status, actual))
  {
  }

  /** A decided handover can be corrected to confirmed or rejected only, and only if something
      changes. */
  lemma EditedRow(db: Db, h: Id, status: Option<Status>, actual: Option<int>, noted: bool, other: bool)
    ensures var outcome := Decide(db, EditHandover(h, status, actual, noted, other));
            && (outcome.Ok? ==>
                  && OnlyRow(db, outcome.value, h) && h in db.handovers && h in outcome.value.handovers
                  && db.handovers[h].status != Pending
                  && (status.Some? ==> status.value in {Confirmed, Rejected})
                  && (outcome.value.handovers[h].status == Rejected ==> noted)
                  && (actual.Some? ==> actual.value >= 0)
                  && Requested(db.handovers[h], outcome.value.handovers[h], status, actual)
                  && (other || outcome.value.handovers[h] != db.handovers[h]))
            && (h in db.handovers && db.handovers[h].status != Pending && noted
                && (status.Some? ==> status.value in {Confirmed, Rejected}) && (actual.Some? ==> actual.value >= 0)
                && (other || (status.Some? && status.value != db.handovers[h].status)
                          || (actual.Some? && actual != db.handovers[h].actual))
                ==> outcome.Ok?)
  {
  }

  /** Only a pending handover is deleted. */
  lemma DeletedRow(db: Db, h: Id)
    ensures var outcome := DeleteHandover(db, h);
            && (outcome.Ok? <==> h in db.handovers && db.handovers[h].status == Pending)
            && (outcome.Ok? ==> OnlyRow(db, outcome.value, h) && h !in outcome.value.handovers)
  {
  }

  lemma ManualRow(db: Db, h: Id, c: Id, collected: int, fees: int, toReturn: int)
    ensures var outcome := CreateManual(db, h, c, collected, fees, toReturn);
            && (outcome.Ok? <==> h !in db.handovers && collected >= 0 && fees >= 0 && toReturn >= 0)
            && (outcome.Ok? ==>
                  && OnlyRow(db, outcome.value, h) && h in outcome.value.handovers
                  && var row := outcome.value.handovers[h];
                     && row.courier == c && row.status == Pending && row.source == Manual && row.lines == map[]
                     && row.collected == collected && row.fees == fees && row.toReturn == toReturn
                     && row.actual == None)
  {
  }

  // ── Submissions ───────────────────────────────────────────────────────────────────────

  /** What may be handed over: delivered orders of the courier that are not deleted and that no
      pending, confirmed or disputed handover links. */
  lemma EligibleMeans(db: Db, c: Id, o: Id)
    ensures o in Eligible(db, c) <==>
            && o in db.orders && db.orders[o].courier == Some(c) && db.orders[o].delivered && !db.orders[o].deleted
            && forall h :: h in db.handovers && o in db.handovers[h].lines ==> db.handovers[h].status == Rejected
  {
    ClaimedIsLinked(db, o);
    assert forall h :: Links(db, h, o) <==>
      h in db.handovers && o in db.handovers[h].lines && db.handovers[h].status != Rejected;
  }

  /** Cash in hand for an order: total and delivery fee less what was prepaid, never below zero. */
  ghost function InHand(orders: map<Id, Order>): Id -> int {
    (o: Id) => if o in orders then Max(0, orders[o].total + orders[o].fee - orders[o].prepaid) else 0
  }

  ghost function Payouts(orders: map<Id, Order>): Id -> int {
    (o: Id) => if o in orders then orders[o].payout else 0
  }

  /** What of it goes back: less the payout, never below zero. */
  ghost function Due(orders: map<Id, Order>): Id -> int {
    (o: Id) => if o in orders then Max(0, InHand(orders)(o) - orders[o].payout) else 0
  }

  /** A submission is accepted when the amount it declares is within the limit and not negative,
      and there is an order to hand over or a positive amount. */
  lemma SubmitAccepted(db: Db, c: Id, amount: Option<int>, h: Id)
    ensures Submit(db, c, amount, h).Ok? <==>
            && h !in db.handovers
            && (amount.Some? ==> 0 <= amount.value <= Available(db, c))
            && (Eligible(db, c) != {} || (amount.Some? && amount.value > 0))
  {
    hide Eligible;
    hide Debt;
    hide OpenAmount;
    hide NewHandover;
  }

  /** The new handover is pending, from the courier app, at the declared amount; it links every
      eligible order at cash in hand, payout and amount due, and its totals are their sums. */
  lemma SubmittedRow(db: Db, c: Id, amount: Option<int>, h: Id, after: Db)
    requires Submit(db, c, amount, h) == Ok(after)
    ensures OnlyRow(db, after, h) && h in after.handovers
    ensures var row, found := after.handovers[h], Eligible(db, c);
            && row.courier == c && row.status == Pending && row.source == CourierApp && row.actual == amount
            && row.lines.Keys == found
            && (forall o :: o in found ==>
                  row.lines[o] == Line(InHand(db.orders)(o), Payouts(db.orders)(o), Due(db.orders)(o)))
            && row.collected == Total(found, InHand(db.orders))
            && row.fees == Total(found, Payouts(db.orders))
            && row.toReturn == Total(found, Due(db.orders))
  {
    var found := Eligible(db, c);
    FoundExist(db, c);
    SubmitInserts(db, c, amount, h, after);
    LinesColumns(db.orders, found);
    hide Submit;
    hide Eligible;
    hide Total;
    hide LinesOf;
    hide InHand;
    hide Due;
    hide Payouts;
    hide LineCollected;
    hide LineSalary;
    hide LineReturns;
  }

  lemma SubmitInserts(db: Db, c: Id, amount: Option<int>, h: Id, after: Db)
    requires Submit(db, c, amount, h) == Ok(after)
    ensures OnlyRow(db, after, h) && h in after.handovers
    ensures after.handovers[h] == NewHandover(db.orders, c, amount, Eligible(db, c))
  {
    hide Eligible;
    hide Available;
    hide NewHandover;
  }

  lemma FoundExist(db: Db, c: Id)
    ensures Eligible(db, c) <= db.orders.Keys
  {
  }

  lemma LineColumns(orders: map<Id, Order>, found: set<Id>, o: Id)
    requires found <= orders.Keys && o in found
    ensures var lines := LinesOf(orders, found);
            && o in lines && lines[o] == Line(InHand(orders)(o), Payouts(orders)(o), Due(orders)(o))
            && LineCollected(lines)(o) == InHand(orders)(o) && LineSalary(lines)(o) == Payouts(orders)(o)
            && LineReturns(lines)(o) == Due(orders)(o)
  {
  }

  lemma LinesColumns(orders: map<Id, Order>, found: set<Id>)
    requires found <= orders.Keys
    ensures var lines := LinesOf(orders, found);
            && lines.Keys == found
            && (forall o :: o in found ==> lines[o] == Line(InHand(orders)(o), Payouts(orders)(o), Due(orders)(o)))
            && Total(found, LineCollected(lines)) == Total(found, InHand(orders))
            && Total(found, LineSalary(lines)) == Total(found, Payouts(orders))
            && Total(found, LineReturns(lines)) == Total(found, Due(orders))
  {
    var lines := LinesOf(orders, found);
    assert lines.Keys == found;
    hide InHand;
    hide Due;
    hide Payouts;
    hide LineCollected;
    hide LineSalary;
    hide LineReturns;
    hide LineOf;
    hide LinesOf;
    forall o | o in found
      ensures lines[o] == Line(InHand(orders)(o), Payouts(orders)(o), Due(orders)(o))
      ensures LineCollected(lines)(o) == InHand(orders)(o) && LineSalary(lines)(o) == Payouts(orders)(o)
      ensures LineReturns(lines)(o) == Due(orders)(o)
    {
      LineColumns(orders, found, o);
    }
    TotalSame(found, LineCollected(lines), InHand(orders));
    TotalSame(found, LineSalary(lines), Payouts(orders));
    TotalSame(found, LineReturns(lines), Due(orders));
  }
}
