/** What stock is worth: the cost of what leaves, what a return brings back, and where the
    schema does not protect blocked stock. */
module StockCosts {
  import opened Basics
  import opened Totals
  import opened Fefo
  import opened StockTables
  import opened StockMoves
  import opened StockService

  /** Cents a batch is worth. */
  ghost function Worth(batches: Batches): Id -> int {
    (id: Id) => if id in batches then batches[id].remaining * batches[id].unitCost else 0
  }

  /** Total stock value of product `p`. */
  ghost function Value(batches: Batches, p: Id): int {
    Total(Lots(batches, p), Worth(batches))
  }

  /** Cents a drawing takes from batch `id`. */
  ghost function Spent(batches: Batches, take: Id -> int): Id -> int {
    (id: Id) => if id in batches && take(id) > 0 then take(id) * batches[id].unitCost else 0
  }

  lemma {:induction false} CostAppend(a: seq<Consumption>, b: seq<Consumption>)
    ensures CostOf(a + b) == CostOf(a) + CostOf(b)
    decreases |b|
  {
    if b == [] {
      assert a + b == a;
    } else {
      assert (a + b)[..|a + b| - 1] == a + b[..|b| - 1];
      CostAppend(a, b[..|b| - 1]);
    }
  }

  lemma CostOfOne(batches: Batches, take: Id -> int, m: Id, id: Id)
    ensures CostOf(RecordOf(batches, take, m, id)) == Spent(batches, take)(id)
  {
    var one := RecordOf(batches, take, m, id);
    if one != [] {
      assert one[..0] == [];
    }
  }

  /** The records cost what the batches spent. */
  lemma {:induction false} CostOfRecords(batches: Batches, take: Id -> int, m: Id, order: seq<Id>)
    requires Distinct(order)
    ensures CostOf(Records(batches, take, m, order)) == Total(Members(order), Spent(batches, take))
    decreases |order|
  {
    hide RecordOf;
    hide Spent;
    if order != [] {
      var front, last := order[..|order| - 1], order[|order| - 1];
      CostOfRecords(batches, take, m, front);
      CostAppend(Records(batches, take, m, front), RecordOf(batches, take, m, last));
      CostOfOne(batches, take, m, last);
      assert order == front + [last];
      assert Members(order) == Members(front) + {last};
      TotalAdd(Members(front), Spent(batches, take), last);
    }
  }

  /** Consuming lowers the stock value by exactly the cost of the records it inserts. */
  lemma DrawnValue(batches: Batches, p: Id, qty: int, m: Id)
    requires Stocked(batches) && qty >= 0
    ensures Value(Drawn(batches, p, qty), p) == Value(batches, p) - CostOf(Drawing(batches, p, qty, m))
  {
    hide Take;
    hide Total;
    hide CostOf;
    hide Drawing;
    hide OnHand;
    DrawingCost(batches, p, qty, m);
    TakeBounds(batches, p, qty);
    assert Lots(Drawn(batches, p, qty), p) == Lots(batches, p);
    WorthSplit(batches, Drawn(batches, p, qty), Lots(batches, p), TakeOf(batches, p, qty));
  }

  lemma WorthSplit(batches: Batches, after: Batches, lots: set<Id>, take: Id -> int)
    requires forall id :: id in lots ==> id in batches && id in after && take(id) >= 0
    requires forall id :: id in lots ==> after[id] == batches[id].(remaining := batches[id].remaining - take(id))
    ensures Total(lots, Worth(batches)) == Total(lots, Worth(after)) + Total(lots, Spent(batches, take))
  {
    forall id | id in lots
      ensures Worth(batches)(id) == Worth(after)(id) + Spent(batches, take)(id)
    {
      DrawnWorth(batches[id].remaining, take(id), batches[id].unitCost);
    }
    TotalSum(lots, Worth(after), Spent(batches, take), Worth(batches));
  }

  lemma DrawingCost(batches: Batches, p: Id, qty: int, m: Id)
    requires Stocked(batches) && qty >= 0
    ensures CostOf(Drawing(batches, p, qty, m)) == Total(Lots(batches, p), Spent(batches, TakeOf(batches, p, qty)))
  {
    hide CostOf;
    hide Records;
    hide FefoOrder;
    var take := TakeOf(batches, p, qty);
    OrderIsCandidates(batches, p);
    CostOfRecords(batches, take, m, FefoOrder(batches, p));
    assert forall id :: id in Lots(batches, p) && id !in Candidates(batches, p) ==>
             take(id) <= batches[id].remaining <= 0;
    TotalSupport(Candidates(batches, p), Lots(batches, p), Spent(batches, take));
  }

  lemma DrawnWorth(remaining: int, take: int, cost: int)
    ensures remaining * cost == (remaining - take) * cost + take * cost
  {
  }

  lemma LotInsertedValue(batches: Batches, lot: Id, b: Batch)
    requires lot !in batches
    ensures Value(batches[lot := b], b.product) == Value(batches, b.product) + b.remaining * b.unitCost
  {
    var after, lots := batches[lot := b], Lots(batches, b.product);
    assert Lots(after, b.product) == lots + {lot};
    TotalAdd(lots, Worth(after), lot);
    TotalSame(lots, Worth(batches), Worth(after));
  }

  lemma BetweenStep(w: int, q: int, cost: int, unit: int, lo: int, hi: int)
    requires q > 0 && lo <= unit <= hi && lo * w <= cost <= hi * w
    ensures lo * (w + q) <= cost + q * unit <= hi * (w + q)
  {
    assert lo * (w + q) == lo * w + lo * q && hi * (w + q) == hi * w + hi * q;
    assert lo * q <= q * unit <= hi * q;
  }

  lemma {:induction false} CostBetween(cs: seq<Consumption>, m: Id, lo: int, hi: int)
    requires forall c :: c in cs ==> c.quantity > 0 && c.movement == m && lo <= c.unitCost <= hi
    ensures lo * Weigh(cs, ByMovement(m)) <= CostOf(cs) <= hi * Weigh(cs, ByMovement(m))
    decreases |cs|
  {
    if cs != [] {
      var front, last := cs[..|cs| - 1], cs[|cs| - 1];
      CostBetween(front, m, lo, hi);
      assert last in cs;
      BetweenStep(Weigh(front, ByMovement(m)), last.quantity, CostOf(front), last.unitCost, lo, hi);
    }
  }

  /** The unit cost IssueExternalTx returns: total cost over quantity. */
  ghost function IssueCost(t: Tables, p: Id, q: int, m: Id): real
    requires q > 0
  {
    CostOf(Drawing(t.batches, p, q, m)) as real / q as real
  }

  /** The unit cost of an issue lies between the least and the greatest unit cost of the batches
      it consumed. */
  lemma IssueCostBetween(t: Tables, p: Id, q: int, m: Id, lo: int, hi: int)
    requires Inv(t) && Issue(t, p, q, m).Ok?
    requires forall id :: id in Lots(t.batches, p) && Take(t.batches, p, q, id) > 0 ==>
               lo <= t.batches[id].unitCost <= hi
    ensures lo as real <= IssueCost(t, p, q, m) <= hi as real
  {
    InvStocked(t);
    InvRow(t, p);
    var cs := Drawing(t.batches, p, q, m);
    DrawingWeigh(t.batches, p, q, m);
    RecordsFrom(t.batches, TakeOf(t.batches, p, q), m, FefoOrder(t.batches, p));
    OrderIsCandidates(t.batches, p);
    forall c | c in cs
      ensures lo <= c.unitCost <= hi
    {
      assert c.batch in Lots(t.batches, p);
    }
    CostBetween(cs, m, lo, hi);
    AverageBetween(CostOf(cs), q, lo, hi);
  }

  lemma Quotient(x: real, y: real)
    requires y > 0.0
    ensures x / y * y == x
  {
  }

  lemma QuotientBetween(x: real, y: real, lo: real, hi: real)
    requires y > 0.0 && lo * y <= x <= hi * y
    ensures lo <= x / y <= hi
  {
    Quotient(x, y);
  }

  lemma AverageBetween(cost: int, q: int, lo: int, hi: int)
    requires q > 0 && lo * q <= cost <= hi * q
    ensures lo as real <= cost as real / q as real <= hi as real
  {
    assert lo as real * q as real == (lo * q) as real;
    assert hi as real * q as real == (hi * q) as real;
    QuotientBetween(cost as real, q as real, lo as real, hi as real);
  }

  /** An error of at most half a cent per unit, scaled up. */
  lemma ScaledError(r: real, c: real, q: real, cost: real)
    requires q > 0.0 && c * q == cost && -0.5 <= r - c <= 0.5
    ensures -q <= 2.0 * (r * q - cost) <= q
  {
    var d := r - c;
    assert r * q - cost == d * q;
    assert -q <= 2.0 * (d * q) <= q;
  }

  /** Rounding a unit cost to cents is off by at most half a cent per unit, and exact only for whole cents. */
  lemma RoundedWorth(cost: int, q: int, c: real)
    requires q > 0 && c == cost as real / q as real
    ensures -q <= 2 * (q * ToCents(c) - cost) <= q
    ensures c == c.Floor as real <==> q * ToCents(c) == cost
  {
    Quotient(cost as real, q as real);
    RoundedUnits(cost, q, c);
  }

  lemma FloorIs(x: real, n: int)
    requires n as real <= x < n as real + 1.0
    ensures x.Floor == n
  {
  }

  lemma NearestCent(c: real)
    ensures -0.5 <= ToCents(c) as real - c <= 0.5
  {
  }

  lemma WholeCents(c: real, n: int)
    requires c == n as real
    ensures ToCents(c) == n
  {
    FloorIs(c + 0.5, n);
  }

  lemma SameQuotient(c: real, r: real, q: real)
    requires q > 0.0 && c * q == r * q
    ensures c == r
  {
    assert (c - r) * q == 0.0;
  }

  lemma ExactUnits(p: int, r: int, q: int, c: real)
    requires q > 0 && p == r * q && c * q as real == p as real
    ensures c == r as real
  {
    RealProduct(r, q);
    SameQuotient(c, r as real, q as real);
  }

  lemma RoundedUnits(cost: int, q: int, c: real)
    requires q > 0 && c * q as real == cost as real
    ensures -q <= 2 * (q * ToCents(c) - cost) <= q
    ensures c == c.Floor as real <==> q * ToCents(c) == cost
  {
    var r := ToCents(c);
    NearestCent(c);
    if c == c.Floor as real {
      WholeCents(c, c.Floor);
    }
    hide ToCents;
    var p := r * q;
    assert q * r == p;
    ErrorBound(p, r, q, cost, c);
    if p == cost {
      ExactUnits(p, r, q, c);
      FloorIs(c, r);
    } else if c == r as real {
      RealProduct(r, q);
    }
  }

  lemma RealProduct(r: int, q: int)
    ensures (r * q) as real == r as real * q as real
  {
  }

  lemma ErrorBound(p: int, r: int, q: int, cost: int, c: real)
    requires q > 0 && c * q as real == cost as real && -0.5 <= r as real - c <= 0.5 && p == r * q
    ensures -q <= 2 * (p - cost) <= q
  {
    ScaledError(r as real, c, q as real, cost as real);
    RealProduct(r, q);
    IntBound(p, r as real * q as real, q, cost);
  }

  lemma IntBound(p: int, x: real, q: int, cost: int)
    requires x == p as real && -(q as real) <= 2.0 * (x - cost as real) <= q as real
    ensures -q <= 2 * (p - cost) <= q
  {
  }

  /** Issuing `q` units and returning them at the frozen cost restores the stock quantity and the
      stock value: exactly when the average is whole cents, and within q half-cents always. */
  lemma IssueThenReturn(t: Tables, out: Tables, back: Tables, p: Id, q: int, m: Id, k: Keys)
    requires Inv(t) && Issue(t, p, q, m) == Ok(out)
    requires ReturnExternal(out, p, q, ToCents(IssueCost(t, p, q, m)), k) == Ok(back)
    ensures Row(back, p) == Row(t, p)
    ensures -q <= 2 * (Value(back.batches, p) - Value(t.batches, p)) <= q
    ensures IssueCost(t, p, q, m) == IssueCost(t, p, q, m).Floor as real
       <==> Value(back.batches, p) == Value(t.batches, p)
  {
    hide Drawn;
    hide Drawing;
    hide Inv;
    hide Row;
    hide CostOf;
    hide Value;
    InvStocked(t);
    InvRow(t, p);
    DrawnValue(t.batches, p, q, m);
    RoundedWorth(CostOf(Drawing(t.batches, p, q, m)), q, IssueCost(t, p, q, m));
    ReturnedTables(t, out, back, p, q, m, ToCents(IssueCost(t, p, q, m)), k);
  }

  lemma ReturnedTables(t: Tables, out: Tables, back: Tables, p: Id, q: int, m: Id, cost: int, k: Keys)
    requires Issue(t, p, q, m) == Ok(out) && ReturnExternal(out, p, q, cost, k) == Ok(back)
    ensures Row(back, p) == Row(t, p)
    ensures Value(back.batches, p) == Value(Drawn(t.batches, p, q), p) + q * cost
  {
    hide Drawn;
    hide Drawing;
    hide Value;
    LotInsertedValue(out.batches, k.lot, back.batches[k.lot]);
  }

  // ── A corrected cost ──────────────────────────────────────────────────────────────────

  /** Every record of the batch was written at the cost the batch shows. */
  ghost predicate AtCost(t: Tables, lot: Id) {
    lot in t.batches && forall c :: c in t.consumptions && c.batch == lot ==> c.unitCost == t.batches[lot].unitCost
  }

  /** Correcting the unit cost of a receipt does not reach the records already written: they still
      show the batch's cost exactly when the cost stayed or nothing had been consumed. */
  lemma CostEditKeepsRecords(t: Tables, m: Id, p: Id, q: int, cost: int, expiry: Option<int>, after: Tables, lot: Id)
    requires Inv(t) && m in t.movements && EditPurchase(t, m, p, q, cost, expiry) == Ok(after)
    requires lot == LotOf(t, m) && AtCost(t, lot)
    ensures after.consumptions == t.consumptions
    ensures AtCost(after, lot)
       <==> cost == t.batches[lot].unitCost || t.batches[lot].received == t.batches[lot].remaining
  {
    hide Weigh;
    if t.batches[lot].received == t.batches[lot].remaining {
      UntouchedLot(t, lot);
    } else {
      assert LotRow(t, lot);
      if forall c :: c in t.consumptions ==> c.batch != lot {
        WeighZero(t.consumptions, FromBatch(lot));
      }
    }
  }

  // ── Blocked stock ─────────────────────────────────────────────────────────────────────

  /** What an accepted adjustment leaves of the stock row. */
  lemma AdjustedRow(t: Tables, p: Id, target: int, cost: Option<int>, k: Keys)
    requires Adjust(t, p, target, cost, k).Ok?
    ensures Row(Adjust(t, p, target, cost, k).value, p) == Row(t, p).(quantity := target)
    ensures target >= Row(t, p).reserved
  {
    hide Drawn;
    hide Drawing;
    hide FefoOrder;
  }

  /** An adjustment that goes through leaves free stock non-negative exactly when the target
      covers the blocked units too; the schema only makes it cover the reserved ones. */
  lemma AdjustFreeStock(t: Tables, p: Id, target: int, cost: Option<int>, k: Keys)
    requires Inv(t) && Adjust(t, p, target, cost, k).Ok?
    ensures Row(Adjust(t, p, target, cost, k).value, p).Available() >= 0
       <==> target >= Row(t, p).reserved + Row(t, p).blocked
    ensures target >= Row(t, p).reserved
  {
    hide Inv;
    hide Adjust;
    AdjustedRow(t, p, target, cost, k);
  }

  lemma EditedRow(t: Tables, m: Id, p: Id, q: int)
    requires m in t.movements && EditWriteoff(t, m, p, q).Ok?
    ensures Row(EditWriteoff(t, m, p, q).value, p)
         == Row(t, p).(quantity := Row(t, p).quantity + t.movements[m].quantity - q)
  {
    hide Drawn;
    hide Drawing;
    hide Restored;
    hide Without;
  }

  /** The same for a write-off edit: only reservations are checked. */
  lemma EditFreeStock(t: Tables, m: Id, p: Id, q: int)
    requires Inv(t) && m in t.movements && EditWriteoff(t, m, p, q).Ok?
    ensures Row(EditWriteoff(t, m, p, q).value, p).Available() >= 0
       <==> q <= Row(t, p).quantity + t.movements[m].quantity - Row(t, p).reserved - Row(t, p).blocked
  {
    hide Inv;
    hide EditWriteoff;
    EditedRow(t, m, p, q);
  }
}
