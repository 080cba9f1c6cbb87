/** Submitting a handover and deciding on it, each as one transaction from tables to tables or an
    error (courier/service.go, logistics/repository.go), and exactly when each keeps orders
    claimed once and declarations within what was earned. */
module HandoverRules {
  import opened Basics
  import opened Totals
  import opened Handovers

  datatype Error = NotFound | BadStatus | TooMuch | NothingEligible | NothingToChange | NoteRequired | Constraint

  type Outcome = Result<Db, Error>

  function LinesOf(orders: map<Id, Order>, eligible: set<Id>): map<Id, Line> {
    map o | o in eligible && o in orders :: LineOf(orders[o])
  }

  ghost function LineCollected(lines: map<Id, Line>): Id -> int {
    (o: Id) => if o in lines then lines[o].collected else 0
  }

  ghost function LineSalary(lines: map<Id, Line>): Id -> int {
    (o: Id) => if o in lines then lines[o].salary else 0
  }

  /** The handover SubmitHandover inserts for the orders it found. */
  ghost function NewHandover(orders: map<Id, Order>, c: Id, amount: Option<int>, eligible: set<Id>): Handover {
    var lines := LinesOf(orders, eligible);
    Handover(c, Pending, CourierApp,
             Total(lines.Keys, LineCollected(lines)), Total(lines.Keys, LineSalary(lines)),
             Total(lines.Keys, LineReturns(lines)), amount, lines)
  }

  ghost function Submit(db: Db, c: Id, amount: Option<int>, h: Id): Outcome {
    var eligible := Eligible(db, c);
    if amount.Some? && amount.value > Available(db, c) then Err(TooMuch)
    else if eligible == {} && (amount.None? || amount.value <= 0) then Err(NothingEligible)
    else if h in db.handovers || (amount.Some? && amount.value < 0) then Err(Constraint)
    else Ok(db.(handovers := db.handovers[h := NewHandover(db.orders, c, amount, eligible)]))
  }

  // ── Decisions ─────────────────────────────────────────────────────────────────────────

  datatype Decision =
    | ConfirmTransaction(h: Id)
    | ConfirmHandover(h: Id, amount: int)
    | RejectHandover(h: Id)
    | UpdateHandover(h: Id, status: Option<Status>, actual: Option<int>, noted: bool)
    | EditHandover(h: Id, status: Option<Status>, actual: Option<int>, noted: bool, other: bool)

  /** What a decision writes to the row it names. */
  function Decided(row: Handover, d: Decision): Result<Handover, Error> {
    match d
    case ConfirmTransaction(_) =>
      if !row.status.Pending? then Err(BadStatus)
      else Ok(row.(status := Confirmed, actual := Some(row.Accepted())))
    case ConfirmHandover(_, amount) =>
      if !row.Open() then Err(BadStatus)
      else if amount < 0 then Err(Constraint)
      else
        var diff := amount - row.toReturn;
        Ok(row.(status := if diff < -1 || diff > 1 then Disputed else Confirmed, actual := Some(amount)))
    case RejectHandover(_) =>
      if !row.Open() then Err(BadStatus) else Ok(row.(status := Rejected))
    case UpdateHandover(_, status, actual, noted) =>
      if !row.Open() then Err(BadStatus)
      else if status == Some(Rejected) && !noted then Err(NoteRequired)
      else if actual.Some? && actual.value < 0 then Err(Constraint)
      else Ok(row.(status := if status.Some? then status.value else row.status,
                   actual := if actual.Some? then actual else row.actual))
    case EditHandover(_, status, actual, noted, other) =>
      if row.status.Pending? then Err(BadStatus)
      else if status.Some? && !status.value.Confirmed? && !status.value.Rejected? then Err(Constraint)
      else
        var next := if status.Some? then status.value else row.status;
        if next.Rejected? && !noted then Err(NoteRequired)
        else if next == row.status && (actual.None? || actual == row.actual) && !other then Err(NothingToChange)
        else if actual.Some? && actual.value < 0 then Err(Constraint)
        else Ok(row.(status := next, actual := if actual.Some? then actual else row.actual))
  }

  function Decide(db: Db, d: Decision): Outcome {
    if d.h !in db.handovers then Err(NotFound)
    else
      match Decided(db.handovers[d.h], d)
      case Ok(row) => Ok(db.(handovers := db.handovers[d.h := row]))
      case Err(e) => Err(e)
  }

  function DeleteHandover(db: Db, h: Id): Outcome {
    if h !in db.handovers then Err(NotFound)
    else if !db.handovers[h].status.Pending? then Err(BadStatus)
    else Ok(db.(handovers := db.handovers - {h}))
  }

  /** logistics.CreateHandover: the owner's manual entry, linked to no order. */
  function CreateManual(db: Db, h: Id, c: Id, collected: int, fees: int, toReturn: int): Outcome {
    if h in db.handovers || collected < 0 || fees < 0 || toReturn < 0 then Err(Constraint)
    else Ok(db.(handovers := db.handovers[h := Handover(c, Pending, Manual, collected, fees, toReturn, None, map[])]))
  }

  // ── Exactly what a decision changes ───────────────────────────────────────────────────

  /** A decision rewrites status and accepted amount of one row, nothing else. */
  ghost predicate Rewrites(db: Db, after: Db, h: Id) {
    && h in db.handovers && h in after.handovers && after.orders == db.orders
    && after.handovers == db.handovers[h := after.handovers[h]]
    && after.handovers[h] == db.handovers[h].(status := after.handovers[h].status, actual := after.handovers[h].actual)
    && (after.handovers[h].actual.Some? && after.handovers[h].actual != db.handovers[h].actual ==>
          after.handovers[h].actual.value >= 0 || after.handovers[h].actual.value == db.handovers[h].toReturn)
  }

  lemma DecideRewrites(db: Db, d: Decision)
    requires Decide(db, d).Ok?
    ensures Rewrites(db, Decide(db, d).value, d.h)
  {
  }

  lemma RewriteKeepsRows(db: Db, after: Db, h: Id)
    requires OrderRows(db) && HandoverRows(db) && Rewrites(db, after, h)
    ensures OrderRows(after) && HandoverRows(after)
  {
    forall i | i in after.handovers
      ensures HandoverRow(after, i)
    {
      assert HandoverRow(db, i);
      if i == h {
        AcceptedNonneg(db, h);
        ToReturnNonneg(db, h);
      }
    }
  }

  lemma ToReturnNonneg(db: Db, h: Id)
    requires h in db.handovers && HandoverRow(db, h)
    ensures db.handovers[h].toReturn >= 0
  {
    var row := db.handovers[h];
    assert forall o :: o in row.lines ==> Delivered(db.orders, row.courier, o);
    TotalNonneg(row.lines.Keys, LineReturns(row.lines));
  }

  /** A decision keeps every order claimed at most once exactly when it does not bring a rejected
      handover back while another open one holds one of its orders. */
  lemma RewriteKeepsSingleClaim(db: Db, after: Db, h: Id)
    requires SingleClaim(db) && Rewrites(db, after, h)
    ensures SingleClaim(after) <==>
            !(db.handovers[h].status.Rejected? && !after.handovers[h].status.Rejected?
              && db.handovers[h].lines.Keys * Claimed(db) != {})
  {
    if db.handovers[h].status.Rejected? && !after.handovers[h].status.Rejected? {
      if o :| o in db.handovers[h].lines && o in Claimed(db) {
        var i :| i in db.handovers && !db.handovers[i].status.Rejected? && o in db.handovers[i].lines;
        assert Links(after, i, o) && Links(after, h, o) && i != h;
        assert o in db.handovers[h].lines.Keys * Claimed(db);
      } else {
        forall i, j, o | Links(after, i, o) && Links(after, j, o)
          ensures i == j
        {
          assert i != h ==> Links(db, i, o);
          assert j != h ==> Links(db, j, o);
        }
      }
    } else {
      forall i, j, o | Links(after, i, o) && Links(after, j, o)
        ensures i == j
      {
        assert Links(db, i, o) && Links(db, j, o);
      }
    }
  }

  /** A decision moves its courier's balance by the change in that handover's weight. */
  lemma RewriteBalance(db: Db, after: Db, h: Id, c: Id)
    requires Rewrites(db, after, h)
    ensures Balance(after, c) == Balance(db, c)
            + (if db.handovers[h].courier == c then WeightOf(after.handovers[h]) - WeightOf(db.handovers[h]) else 0)
  {
    assert after.handovers.Keys == db.handovers.Keys;
    TotalChange(db.handovers.Keys, Weight(db.handovers, c), Weight(after.handovers, c), h);
  }

  /** No courier's balance moved but the one of handover `h`, and that by the change in its weight. */
  ghost predicate Reweighs(db: Db, after: Db, h: Id) {
    && h in db.handovers && h in after.handovers
    && forall c: Id :: Balance(after, c) == Balance(db, c)
         + (if db.handovers[h].courier == c then WeightOf(after.handovers[h]) - WeightOf(db.handovers[h]) else 0)
  }

  /** A decision would bring a rejected handover back while an open one holds one of its orders. */
  predicate Reclaims(db: Db, after: Db, h: Id)
    requires h in db.handovers && h in after.handovers
  {
    && db.handovers[h].status.Rejected? && !after.handovers[h].status.Rejected?
    && db.handovers[h].lines.Keys * Claimed(db) != {}
  }

  /** Everything a decision does to well-formedness and to money. */
  lemma DecisionEffect(db: Db, after: Db, d: Decision)
    requires Good(db) && Decide(db, d) == Ok(after)
    ensures Rewrites(db, after, d.h) && Reweighs(db, after, d.h)
    ensures Good(after) <==> !Reclaims(db, after, d.h)
  {
    hide Balance;
    DecideRewrites(db, d);
    hide Decide;
    RewriteKeepsRows(db, after, d.h);
    RewriteKeepsSingleClaim(db, after, d.h);
    var h := d.h;
    forall c: Id
      ensures Balance(after, c) == Balance(db, c)
           + (if db.handovers[h].courier == c then WeightOf(after.handovers[h]) - WeightOf(db.handovers[h]) else 0)
    {
      RewriteBalance(db, after, h, c);
    }
  }

  /** Rejecting or deleting an open handover frees exactly the orders it linked. */
  lemma ClosingFrees(db: Db, after: Db, h: Id, c: Id)
    requires Good(db) && h in db.handovers && !db.handovers[h].status.Rejected? && after.orders == db.orders
    requires after.handovers - {h} == db.handovers - {h}
    requires h in after.handovers ==> after.handovers[h].status.Rejected?
    ensures Eligible(after, c)
         == Eligible(db, c) + (if c == db.handovers[h].courier then db.handovers[h].lines.Keys else {})
  {
    var lines := db.handovers[h].lines;
    assert HandoverRow(db, h);
    forall o
      ensures o in Claimed(after) <==> o in Claimed(db) && o !in lines
    {
      forall i | Links(after, i, o)
        ensures i != h && Links(db, i, o)
      {
        assert i != h;
        assert (after.handovers - {h})[i] == (db.handovers - {h})[i];
      }
      forall i | Links(db, i, o) && i != h
        ensures Links(after, i, o)
      {
        assert (after.handovers - {h})[i] == (db.handovers - {h})[i];
      }
      ClaimedIsLinked(db, o);
      ClaimedIsLinked(after, o);
      assert o in lines ==> Links(db, h, o);
    }
    forall o | o in lines
      ensures Delivered(db.orders, db.handovers[h].courier, o)
    {
    }
  }

  lemma ClaimedIsLinked(db: Db, o: Id)
    ensures o in Claimed(db) <==> exists h :: Links(db, h, o)
  {
    if o in Claimed(db) {
      var h :| h in db.handovers && !db.handovers[h].status.Rejected? && o in db.handovers[h].lines;
      assert Links(db, h, o);
    }
  }

  /** ConfirmTransaction on a courier-app handover lowers debt and pending by the same accepted
      amount: the balance does not move. */
  lemma ConfirmTransactionMovesBoth(db: Db, after: Db, h: Id)
    requires Good(db) && Decide(db, ConfirmTransaction(h)) == Ok(after) && db.handovers[h].source.CourierApp?
    ensures var c, amount := db.handovers[h].courier, db.handovers[h].Accepted();
            && Debt(after, c) == Debt(db, c) - amount
            && OpenAmount(after, c) == OpenAmount(db, c) - amount
  {
    hide Debt;
    hide Balance;
    hide Claimed;
    hide HandoverRow;
    var c := db.handovers[h].courier;
    DecideRewrites(db, ConfirmTransaction(h));
    RewriteKeepsRows(db, after, h);
    RewriteKeepsSingleClaim(db, after, h);
    RewriteBalance(db, after, h, c);
    DebtIsBalance(db, c);
    DebtIsBalance(after, c);
    assert after.handovers.Keys == db.handovers.Keys;
    TotalChange(db.handovers.Keys, Reserved(db.handovers, c), Reserved(after.handovers, c), h);
  }

  /** Confirming a manual handover of `t` at amount `a` moves the debt by t - 2a, so it takes off
      what was handed over exactly when that is `t`. */
  lemma ConfirmManualMovesDebt(db: Db, after: Db, h: Id, d: Decision)
    requires Good(db) && Decide(db, d) == Ok(after) && d.h == h
    requires db.handovers[h].source.Manual? && db.handovers[h].Open() && after.handovers[h].status.Confirmed?
    ensures var c, t, a := db.handovers[h].courier, db.handovers[h].toReturn, after.handovers[h].Accepted();
            && Debt(after, c) == Debt(db, c) + t - 2 * a
            && (Debt(after, c) == Debt(db, c) - a <==> a == t)
  {
    hide Debt;
    DecideRewrites(db, d);
    assert HandoverRow(db, h);
    hide Decide;
    hide Good;
    UnlinkedMovesDebt(db, after, h);
  }

  /** A decision on a handover that links no order leaves the settled orders as they are. */
  lemma UnlinkedSettles(db: Db, after: Db, h: Id)
    requires Rewrites(db, after, h) && db.handovers[h].lines == map[]
    ensures Settled(after) == Settled(db)
  {
    forall o: Id
      ensures o in Settled(after) <==> o in Settled(db)
    {
      assert forall i :: i in db.handovers && o in db.handovers[i].lines ==> after.handovers[i] == db.handovers[i];
    }
  }

  /** Such a decision moves the debt by the change in the handover's residue. */
  lemma UnlinkedMovesDebt(db: Db, after: Db, h: Id)
    requires Rewrites(db, after, h) && db.handovers[h].lines == map[]
    ensures var c := db.handovers[h].courier;
            Debt(after, c) == Debt(db, c) - Residue(db.handovers, c)(h) + Residue(after.handovers, c)(h)
  {
    hide Delivered;
    hide Net;
    var c := db.handovers[h].courier;
    UnlinkedSettles(db, after, h);
    hide Settled;
    TotalSame(db.orders.Keys, Owed(db, c), Owed(after, c));
    assert after.handovers.Keys == db.handovers.Keys;
    TotalChange(db.handovers.Keys, Residue(db.handovers, c), Residue(after.handovers, c), h);
  }

  /** Accepting `amount` keeps declarations within what was earned exactly when the extra over
      what had been declared fits into what is left. */
  lemma ConfirmWithinBalance(db: Db, after: Db, h: Id, amount: int)
    requires Good(db) && Decide(db, ConfirmHandover(h, amount)) == Ok(after) && db.handovers[h].source.CourierApp?
    ensures Balance(after, db.handovers[h].courier) >= 0
       <==> amount - db.handovers[h].Accepted() <= Balance(db, db.handovers[h].courier)
  {
    hide Balance;
    hide Good;
    DecideRewrites(db, ConfirmHandover(h, amount));
    RewriteBalance(db, after, h, db.handovers[h].courier);
  }

  /** Deleting a pending handover frees its orders and gives its amount back to the balance. */
  lemma DeleteKeeps(db: Db, after: Db, h: Id)
    requires Good(db) && DeleteHandover(db, h) == Ok(after)
    ensures Good(after)
    ensures forall c: Id :: Balance(after, c)
                         == Balance(db, c) + (if db.handovers[h].courier == c then db.handovers[h].Accepted() else 0)
  {
    forall i | i in after.handovers
      ensures HandoverRow(after, i)
    {
      assert HandoverRow(db, i);
    }
    forall i, j, o | Links(after, i, o) && Links(after, j, o)
      ensures i == j
    {
      assert Links(db, i, o) && Links(db, j, o);
    }
    forall c: Id
      ensures Balance(after, c)
           == Balance(db, c) + (if db.handovers[h].courier == c then db.handovers[h].Accepted() else 0)
    {
      assert after.handovers[h := db.handovers[h]] == db.handovers;
      InsertBalance(after, db, h, db.handovers[h], c);
    }
  }

  // ── Submitting ────────────────────────────────────────────────────────────────────────

  lemma InsertBalance(db: Db, after: Db, h: Id, row: Handover, c: Id)
    requires h !in db.handovers && after == db.(handovers := db.handovers[h := row])
    ensures Balance(after, c) == Balance(db, c) + (if row.courier == c then WeightOf(row) else 0)
  {
    assert after.handovers.Keys == db.handovers.Keys + {h};
    TotalAdd(db.handovers.Keys, Weight(after.handovers, c), h);
    TotalSame(db.handovers.Keys, Weight(db.handovers, c), Weight(after.handovers, c));
  }

  lemma InsertKeepsGood(db: Db, after: Db, h: Id, c: Id, amount: Option<int>, orders: set<Id>)
    requires Good(db) && h !in db.handovers && (amount.Some? ==> amount.value >= 0)
    requires forall o :: o in orders ==> Delivered(db.orders, c, o) && o !in Claimed(db)
    requires after == db.(handovers := db.handovers[h := NewHandover(db.orders, c, amount, orders)])
    ensures Good(after)
  {
    forall i | i in after.handovers
      ensures HandoverRow(after, i)
    {
      assert i != h ==> HandoverRow(db, i);
    }
    forall i, j, o | Links(after, i, o) && Links(after, j, o)
      ensures i == j
    {
      assert i != h ==> Links(db, i, o) && o in Claimed(db);
      assert j != h ==> Links(db, j, o) && o in Claimed(db);
    }
  }

  /** What a submission would add to the open declarations. */
  ghost function Declared(db: Db, c: Id, amount: Option<int>): int {
    NewHandover(db.orders, c, amount, Eligible(db, c)).Accepted()
  }

  /** A submission keeps declarations within what was earned exactly when what it declares fits.
      The limit check asks that of a declared amount only; a submission without one declares the
      total of its orders unchecked. */
  lemma SubmitWithinBalance(db: Db, after: Db, c: Id, amount: Option<int>, h: Id)
    requires Good(db) && Balance(db, c) >= 0 && Submit(db, c, amount, h) == Ok(after)
    ensures Good(after)
    ensures Balance(after, c) >= 0 <==> Declared(db, c, amount) <= Available(db, c)
    ensures amount.Some? ==> Balance(after, c) >= 0
  {
    LimitIsBalance(db, c);
    InsertKeepsGood(db, after, h, c, amount, Eligible(db, c));
    InsertBalance(db, after, h, NewHandover(db.orders, c, amount, Eligible(db, c)), c);
  }

  /** A submission leaves its courier nothing to hand over, and other couriers what they had. */
  lemma SubmitClaimsAll(db: Db, after: Db, c: Id, amount: Option<int>, h: Id, other: Id)
    requires Good(db) && Submit(db, c, amount, h) == Ok(after)
    ensures Eligible(after, other) == if other == c then {} else Eligible(db, other)
  {
    hide Available;
    assert after.orders == db.orders by { hide NewHandover; }
    forall o
      ensures o in Claimed(after) <==> o in Claimed(db) || o in Eligible(db, c)
    {
      SubmitLinks(db, after, c, amount, h, o);
      hide Submit;
      hide Links;
      ClaimedIsLinked(db, o);
      ClaimedIsLinked(after, o);
    }
    hide Submit;
    hide Claimed;
  }

  lemma SubmitLinks(db: Db, after: Db, c: Id, amount: Option<int>, h: Id, o: Id)
    requires Submit(db, c, amount, h) == Ok(after)
    ensures forall i :: i != h ==> Links(after, i, o) == Links(db, i, o)
    ensures !Links(db, h, o) && (Links(after, h, o) <==> o in Eligible(db, c))
  {
    hide Total;
    hide Available;
    hide Claimed;
  }

  /** Everything a submission does: orders stay claimed once, the courier has none left to hand over,
      and the balance falls by what was declared. */
  lemma SubmitEffect(db: Db, after: Db, c: Id, amount: Option<int>, h: Id)
    requires Good(db) && Submit(db, c, amount, h) == Ok(after)
    ensures Good(after) && Eligible(after, c) == {}
    ensures Balance(after, c) == Balance(db, c) - Declared(db, c, amount)
  {
    hide Balance;
    hide Available;
    SubmitClaimsAll(db, after, c, amount, h, c);
    InsertKeepsGood(db, after, h, c, amount, Eligible(db, c));
    InsertBalance(db, after, h, NewHandover(db.orders, c, amount, Eligible(db, c)), c);
  }

  /** A manual entry claims no order and takes its amount off the balance, unchecked. */
  lemma ManualEffect(db: Db, after: Db, h: Id, c: Id, collected: int, fees: int, toReturn: int)
    requires Good(db) && CreateManual(db, h, c, collected, fees, toReturn) == Ok(after)
    ensures Good(after)
    ensures forall o: Id :: Eligible(after, o) == Eligible(db, o)
    ensures forall o: Id :: Balance(after, o) == Balance(db, o) - (if o == c then toReturn else 0)
  {
    hide Balance;
    var row := after.handovers[h];
    forall i | i in after.handovers
      ensures HandoverRow(after, i)
    {
      assert i != h ==> HandoverRow(db, i);
    }
    forall i, o
      ensures Links(after, i, o) == Links(db, i, o)
    {
    }
    forall o: Id
      ensures o in Claimed(after) <==> o in Claimed(db)
    {
      ClaimedIsLinked(db, o);
      ClaimedIsLinked(after, o);
    }
    forall o: Id
      ensures Balance(after, o) == Balance(db, o) - (if o == c then toReturn else 0)
    {
      InsertBalance(db, after, h, row, o);
    }
  }
}
