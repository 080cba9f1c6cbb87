/** The four ways a transaction moves stock: bring a lot, draw stock, take a drawing back, and
    correct a lot. Each keeps the tables in agreement and the drift of every product unchanged;
    the transactions of inventory/service.go are put together from them. */
module StockMoves {
  import opened Basics
  import opened Totals
  import opened Fefo
  import opened StockTables

  /** Stock of `p` grows by `q`: movement, stock row and one new batch. */
  function AddLot(t: Tables, p: Id, q: int, kind: Kind, m: Id, lot: Id,
                  cost: int, expiry: Option<int>, at: int, created: int): Tables {
    var row := Row(t, p);
    t.(stock := t.stock[p := row.(quantity := row.quantity + q)],
       movements := t.movements[m := Movement(p, kind, q, row.quantity, row.quantity + q)],
       batches := t.batches[lot := Batch(p, q, q, cost, at, created, expiry, Some(m))])
  }

  /** Stock of `p` shrinks by `q`: movement, stock row and the batches in FEFO order. */
  ghost function Deduct(t: Tables, p: Id, q: int, kind: Kind, m: Id): Tables {
    var row := Row(t, p);
    t.(stock := t.stock[p := row.(quantity := row.quantity - q)],
       movements := t.movements[m := Movement(p, kind, q, row.quantity, row.quantity - q)],
       batches := Drawn(t.batches, p, q),
       consumptions := t.consumptions + Drawing(t.batches, p, q, m))
  }

  /** The batches with everything movement `m` took put back. */
  ghost function Restored(t: Tables, m: Id): Batches {
    map id | id in t.batches ::
      t.batches[id].(remaining := t.batches[id].remaining + Weigh(t.consumptions, Given(id, m)))
  }

  /** Movement `m` as if it had never happened. */
  ghost function Undo(t: Tables, m: Id): Tables
    requires m in t.movements
  {
    var mv := t.movements[m];
    var row := Row(t, mv.product);
    t.(stock := t.stock[mv.product := row.(quantity := row.quantity + mv.quantity)],
       movements := t.movements - {m},
       batches := Restored(t, m),
       consumptions := Without(t.consumptions, m))
  }

  /** The stock rows when `was` units of product `from` become `q` units of product `p`. */
  function MovedStock(t: Tables, from: Id, was: int, p: Id, q: int): map<Id, Stock> {
    var row := Row(t, from);
    if p == from then t.stock[p := row.(quantity := row.quantity + (q - was))]
    else
      var other := Row(t, p);
      t.stock[from := row.(quantity := row.quantity - was)][p := other.(quantity := other.quantity + q)]
  }

  /** The purchase `m` that brought `lot` becomes `q` units of `p`. */
  function EditLot(t: Tables, m: Id, lot: Id, p: Id, q: int, cost: int, expiry: Option<int>): Tables
    requires m in t.movements && lot in t.batches
  {
    var mv, b := t.movements[m], t.batches[lot];
    t.(stock := MovedStock(t, mv.product, mv.quantity, p, q),
       movements := t.movements[m := mv.(product := p, quantity := q, next := mv.previous + q)],
       batches := t.batches[lot := b.(product := p, received := q,
                                      remaining := q - (b.received - b.remaining),
                                      unitCost := cost, expiry := expiry)])
  }

  // ── Sums after a row changed ──────────────────────────────────────────────────────────

  /** Writing movement `m` moves each product's signed sum by the change in that row. */
  lemma MovementWritten(movements: map<Id, Movement>, m: Id, mv: Movement, p: Id)
    ensures Total(movements[m := mv].Keys, SignedOf(movements[m := mv], p))
         == Total(movements.Keys, SignedOf(movements, p))
            - SignedOf(movements, p)(m) + (if mv.product == p then Signed(mv) else 0)
  {
    var after := movements[m := mv];
    assert SignedOf(after, p)(m) == if mv.product == p then Signed(mv) else 0;
    if m in movements {
      assert after.Keys == movements.Keys;
      TotalChange(movements.Keys, SignedOf(movements, p), SignedOf(after, p), m);
    } else {
      assert after.Keys == movements.Keys + {m};
      TotalAdd(movements.Keys, SignedOf(after, p), m);
      TotalSame(movements.Keys, SignedOf(movements, p), SignedOf(after, p));
    }
  }

  lemma MovementRemoved(movements: map<Id, Movement>, m: Id, p: Id)
    requires m in movements
    ensures Total((movements - {m}).Keys, SignedOf(movements - {m}, p))
         == Total(movements.Keys, SignedOf(movements, p)) - SignedOf(movements, p)(m)
  {
    var after := movements - {m};
    assert after.Keys == movements.Keys - {m};
    TotalSplit(movements.Keys, SignedOf(movements, p), m);
    TotalSame(after.Keys, SignedOf(movements, p), SignedOf(after, p));
  }

  /** Inserting a batch adds its units to its own product. */
  lemma LotInserted(batches: Batches, lot: Id, b: Batch, p: Id)
    requires lot !in batches
    ensures OnHand(batches[lot := b], p) == OnHand(batches, p) + (if b.product == p then b.remaining else 0)
  {
    var after := batches[lot := b];
    var lots := Lots(batches, p);
    if b.product == p {
      assert Lots(after, p) == lots + {lot};
      TotalAdd(lots, Rem(after), lot);
    } else {
      assert Lots(after, p) == lots;
    }
    TotalSame(lots, Rem(batches), Rem(after));
  }

  lemma LotRemoved(batches: Batches, lot: Id, p: Id)
    requires lot in batches
    ensures OnHand(batches - {lot}, p)
         == OnHand(batches, p) - (if batches[lot].product == p then batches[lot].remaining else 0)
  {
    var after := batches - {lot};
    assert after[lot := batches[lot]] == batches;
    LotInserted(after, lot, batches[lot], p);
  }

  lemma LotReplaced(batches: Batches, lot: Id, b: Batch, p: Id)
    requires lot in batches
    ensures OnHand(batches[lot := b], p)
         == OnHand(batches, p)
            - (if batches[lot].product == p then batches[lot].remaining else 0)
            + (if b.product == p then b.remaining else 0)
  {
    LotRemoved(batches, lot, p);
    LotInserted(batches - {lot}, lot, b, p);
    assert (batches - {lot})[lot := b] == batches[lot := b];
  }

  /** A product whose stock row and batches moved together, and by what the new movement says. */
  lemma DriftKept(t: Tables, after: Tables, m: Id, mv: Movement, o: Id)
    requires after.movements == t.movements[m := mv]
    requires Row(after, o).quantity - Row(t, o).quantity
          == (if mv.product == o then Signed(mv) else 0) - SignedOf(t.movements, o)(m)
    ensures Drift(after, o) == Drift(t, o)
  {
    MovementWritten(t.movements, m, mv, o);
  }

  lemma StockWritten(t: Tables, after: Tables, p: Id, row: Stock)
    requires StockRows(t) && p in t.products && row.Ok()
    requires after.products == t.products && after.stock == t.stock[p := row]
    ensures StockRows(after)
  {
  }

  /** Records keep joining a batch and a movement of one product when both keep theirs. */
  lemma SameRecords(t: Tables, after: Tables)
    requires ConsumptionRows(t)
    requires forall c :: c in after.consumptions ==> c in t.consumptions
    requires forall id :: id in t.batches ==> id in after.batches && after.batches[id].product == t.batches[id].product
    requires forall c {:trigger ConsumptionRow(t, c)} :: c in after.consumptions && c.movement in t.movements ==>
               c.movement in after.movements && after.movements[c.movement] == t.movements[c.movement]
    ensures ConsumptionRows(after)
  {
    forall c | c in after.consumptions
      ensures ConsumptionRow(after, c)
    {
      assert ConsumptionRow(t, c);
    }
  }

  // ── Bringing a lot ────────────────────────────────────────────────────────────────────

  lemma AddLotSums(t: Tables, after: Tables, p: Id, q: int, kind: Kind, m: Id, lot: Id,
                   cost: int, expiry: Option<int>, at: int, created: int)
    requires LotsAgree(t) && m !in t.movements && lot !in t.batches
    requires kind in {Purchase, TransferIn, Adjustment}
    requires after == AddLot(t, p, q, kind, m, lot, cost, expiry, at, created)
    ensures LotsAgree(after)
    ensures forall o: Id :: Drift(after, o) == Drift(t, o)
  {
    forall o: Id
      ensures Row(after, o).quantity == OnHand(after.batches, o)
    {
      LotInserted(t.batches, lot, after.batches[lot], o);
    }
    forall o: Id
      ensures Drift(after, o) == Drift(t, o)
    {
      DriftKept(t, after, m, after.movements[m], o);
    }
  }

  lemma AddLotRows(t: Tables, after: Tables, p: Id, q: int, kind: Kind, m: Id, lot: Id,
                   cost: int, expiry: Option<int>, at: int, created: int)
    requires StockRows(t) && LotRows(t) && ConsumptionRows(t) && MovementRows(t)
    requires q > 0 && cost >= 0 && m !in t.movements && lot !in t.batches
    requires kind in {Purchase, TransferIn, Adjustment}
    requires after == AddLot(t, p, q, kind, m, lot, cost, expiry, at, created)
    ensures LotRows(after) && MovementRows(after)
  {
    RecordFacts(t);
    WeighZero(t.consumptions, FromBatch(lot));
    WeighZero(t.consumptions, ByMovement(m));
    forall id | id in after.batches
      ensures LotRow(after, id)
    {
      assert id != lot ==> LotRow(t, id);
    }
    forall x | x in after.movements
      ensures MovementRow(after, x)
    {
      assert x != m ==> MovementRow(t, x);
    }
  }

  lemma AddLotBrought(t: Tables, after: Tables, p: Id, q: int, kind: Kind, m: Id, lot: Id,
                      cost: int, expiry: Option<int>, at: int, created: int)
    requires LotRows(t) && OneLotEach(t) && m !in t.movements && lot !in t.batches
    requires after == AddLot(t, p, q, kind, m, lot, cost, expiry, at, created)
    ensures OneLotEach(after)
  {
    forall x | x in after.movements && after.movements[x].kind.Purchase?
      ensures exists id :: BroughtBy(after, id, x)
    {
      if x == m {
        assert BroughtBy(after, lot, m);
      } else {
        var id :| BroughtBy(t, id, x);
        assert BroughtBy(after, id, x);
      }
    }
    forall i, j, x | BroughtBy(after, i, x) && BroughtBy(after, j, x)
      ensures i == j
    {
      assert i != lot ==> LotRow(t, i) && BroughtBy(t, i, x);
      assert j != lot ==> LotRow(t, j) && BroughtBy(t, j, x);
    }
  }

  lemma AddLotKeeps(t: Tables, after: Tables, p: Id, q: int, kind: Kind, m: Id, lot: Id,
                    cost: int, expiry: Option<int>, at: int, created: int)
    requires Inv(t) && p in t.products && q > 0 && cost >= 0
    requires kind in {Purchase, TransferIn, Adjustment}
    requires m !in t.movements && lot !in t.batches
    requires after == AddLot(t, p, q, kind, m, lot, cost, expiry, at, created)
    ensures Inv(after)
    ensures forall o: Id :: Drift(after, o) == Drift(t, o)
  {
    AddLotSums(t, after, p, q, kind, m, lot, cost, expiry, at, created);
    AddLotRows(t, after, p, q, kind, m, lot, cost, expiry, at, created);
    AddLotBrought(t, after, p, q, kind, m, lot, cost, expiry, at, created);
    SameRecords(t, after);
    StockWritten(t, after, p, after.stock[p]);
  }

  // ── Drawing stock ─────────────────────────────────────────────────────────────────────

  lemma DeductSums(t: Tables, after: Tables, p: Id, q: int, kind: Kind, m: Id, mv: Movement)
    requires LotsAgree(t) && Stocked(t.batches) && 0 < q <= Row(t, p).quantity
    requires Draws(kind) && m !in t.movements
    requires mv == Movement(p, kind, q, Row(t, p).quantity, Row(t, p).quantity - q)
    requires after.stock == t.stock[p := Row(t, p).(quantity := Row(t, p).quantity - q)]
    requires after.movements == t.movements[m := mv]
    requires after.batches == Drawn(t.batches, p, q)
    ensures LotsAgree(after)
    ensures forall o: Id :: Drift(after, o) == Drift(t, o)
  {
    hide Drawn;
    hide OnHand;
    forall o: Id
      ensures Row(after, o).quantity == OnHand(after.batches, o)
    {
      DrawnOnHand(t.batches, p, q, o);
    }
    forall o: Id
      ensures Drift(after, o) == Drift(t, o)
    {
      DriftKept(t, after, m, mv, o);
    }
  }

  lemma DeductLots(t: Tables, after: Tables, p: Id, q: int, kind: Kind, m: Id)
    requires LotRows(t) && 0 < q <= OnHand(t.batches, p)
    requires m !in t.movements && p in t.stock
    requires after == Deduct(t, p, q, kind, m)
    ensures LotRows(after)
  {
    hide Take;
    hide Weigh;
    hide Drawing;
    assert Stocked(t.batches) by {
      assert forall id :: id in t.batches ==> LotRow(t, id);
    }
    DrawingWeigh(t.batches, p, q, m);
    TakeBounds(t.batches, p, q);
    forall id | id in after.batches
      ensures LotRow(after, id)
    {
      assert LotRow(t, id);
      WeighAppend(t.consumptions, Drawing(t.batches, p, q, m), FromBatch(id));
    }
  }

  lemma DeductMoves(t: Tables, after: Tables, p: Id, q: int, kind: Kind, m: Id, drawing: seq<Consumption>)
    requires MovementRows(t) && ConsumptionRows(t)
    requires 0 < q <= Row(t, p).quantity && m !in t.movements && Draws(kind)
    requires forall c :: c in drawing ==> c.movement == m
    requires Weigh(drawing, ByMovement(m)) == q
    requires after.movements == t.movements[m := Movement(p, kind, q, Row(t, p).quantity, Row(t, p).quantity - q)]
    requires after.consumptions == t.consumptions + drawing
    ensures MovementRows(after)
  {
    RecordFacts(t);
    forall x | x in after.movements
      ensures MovementRow(after, x)
    {
      WeighAppend(t.consumptions, drawing, ByMovement(x));
      if x == m {
        WeighZero(t.consumptions, ByMovement(m));
      } else {
        assert MovementRow(t, x);
        WeighZero(drawing, ByMovement(x));
      }
    }
  }

  lemma DeductRecords(t: Tables, after: Tables, p: Id, q: int, kind: Kind, m: Id)
    requires ConsumptionRows(t) && Draws(kind) && m !in t.movements
    requires after == Deduct(t, p, q, kind, m)
    ensures ConsumptionRows(after)
  {
    OrderIsCandidates(t.batches, p);
    RecordsFrom(t.batches, TakeOf(t.batches, p, q), m, FefoOrder(t.batches, p));
    forall c | c in after.consumptions
      ensures ConsumptionRow(after, c)
    {
      assert c in t.consumptions ==> ConsumptionRow(t, c);
    }
  }

  /** The batches keep their movements when no lot of a removed movement exists. */
  lemma SameBrought(t: Tables, after: Tables)
    requires OneLotEach(t)
    requires after.batches.Keys == t.batches.Keys
    requires forall id :: id in t.batches ==> after.batches[id].movement == t.batches[id].movement
    requires forall x :: x in after.movements && after.movements[x].kind.Purchase? ==>
               x in t.movements && t.movements[x].kind.Purchase?
    ensures OneLotEach(after)
  {
    forall x | x in after.movements && after.movements[x].kind.Purchase?
      ensures exists id :: BroughtBy(after, id, x)
    {
      var id :| BroughtBy(t, id, x);
      assert BroughtBy(after, id, x);
    }
    forall i, j, x | BroughtBy(after, i, x) && BroughtBy(after, j, x)
      ensures i == j
    {
      assert BroughtBy(t, i, x) && BroughtBy(t, j, x);
    }
  }

  lemma DeductBrought(t: Tables, after: Tables, p: Id, q: int, kind: Kind, m: Id)
    requires OneLotEach(t) && Draws(kind)
    requires after == Deduct(t, p, q, kind, m)
    ensures OneLotEach(after)
  {
    SameBrought(t, after);
  }

  lemma DeductKeeps(t: Tables, after: Tables, p: Id, q: int, kind: Kind, m: Id)
    requires Inv(t) && 0 < q <= Row(t, p).quantity - Row(t, p).reserved
    requires Draws(kind) && m !in t.movements
    requires after == Deduct(t, p, q, kind, m)
    ensures Inv(after)
    ensures forall o: Id :: Drift(after, o) == Drift(t, o)
  {
    InvStocked(t);
    assert p in t.stock && Row(t, p).quantity == OnHand(t.batches, p);
    var mv := Movement(p, kind, q, Row(t, p).quantity, Row(t, p).quantity - q);
    DeductSums(t, after, p, q, kind, m, mv);
    DeductLots(t, after, p, q, kind, m);
    DrawingWeigh(t.batches, p, q, m);
    DeductMoves(t, after, p, q, kind, m, Drawing(t.batches, p, q, m));
    DeductRecords(t, after, p, q, kind, m);
    StockWritten(t, after, p, Row(t, p).(quantity := Row(t, p).quantity - q));
    DeductBrought(t, after, p, q, kind, m);
  }

  // ── Taking a drawing back ─────────────────────────────────────────────────────────────

  ghost function GivenBy(cs: seq<Consumption>, m: Id): Id -> int {
    (id: Id) => Weigh(cs, Given(id, m))
  }

  /** What a movement took, batch by batch, adds up to what it took. */
  lemma {:induction false} GivenTotal(cs: seq<Consumption>, m: Id, s: set<Id>)
    requires forall c :: c in cs && c.movement == m ==> c.batch in s
    ensures Total(s, GivenBy(cs, m)) == Weigh(cs, ByMovement(m))
    decreases |cs|
  {
    if cs == [] {
      TotalZero(s, GivenBy(cs, m));
    } else {
      var front, last := cs[..|cs| - 1], cs[|cs| - 1];
      GivenTotal(front, m, s);
      assert last in cs;
      if last.movement == m {
        TotalChange(s, GivenBy(front, m), GivenBy(cs, m), last.batch);
      } else {
        TotalSame(s, GivenBy(front, m), GivenBy(cs, m));
      }
    }
  }

  lemma {:induction false} GivenBounds(cs: seq<Consumption>, id: Id, m: Id)
    requires forall c :: c in cs ==> c.quantity > 0
    ensures 0 <= Weigh(cs, Given(id, m)) <= Weigh(cs, FromBatch(id))
    decreases |cs|
  {
    if cs != [] {
      GivenBounds(cs[..|cs| - 1], id, m);
      assert cs[|cs| - 1] in cs;
    }
  }

  /** All a movement took came from batches of its own product. */
  lemma GivenByProduct(t: Tables, m: Id, p: Id)
    requires ConsumptionRows(t) && m in t.movements
    ensures Total(Lots(t.batches, p), GivenBy(t.consumptions, m))
         == if p == t.movements[m].product then Weigh(t.consumptions, ByMovement(m)) else 0
  {
    var lots := Lots(t.batches, p);
    forall c | c in t.consumptions && c.movement == m
      ensures c.batch in lots <==> p == t.movements[m].product
    {
      assert ConsumptionRow(t, c);
    }
    if p == t.movements[m].product {
      GivenTotal(t.consumptions, m, lots);
    } else {
      forall id | id in lots
        ensures GivenBy(t.consumptions, m)(id) == 0
      {
        WeighZero(t.consumptions, Given(id, m));
      }
      TotalZero(lots, GivenBy(t.consumptions, m));
    }
  }

  lemma UndoStock(t: Tables, m: Id, p: Id)
    requires Inv(t) && m in t.movements && t.movements[m].kind.Writeoff?
    ensures OnHand(Restored(t, m), p)
         == OnHand(t.batches, p) + (if p == t.movements[m].product then t.movements[m].quantity else 0)
  {
    hide *;
    InvMovement(t, m);
    GivenByProduct(t, m, p);
    WriteoffTook(t, m);
    RestoredOnHand(t, m, p);
  }

  lemma InvMovement(t: Tables, m: Id)
    requires Inv(t) && m in t.movements
    ensures ConsumptionRows(t) && MovementRow(t, m)
  {
  }

  lemma WriteoffTook(t: Tables, m: Id)
    requires m in t.movements && MovementRow(t, m) && t.movements[m].kind.Writeoff?
    ensures Weigh(t.consumptions, ByMovement(m)) == t.movements[m].quantity
  {
  }

  /** Restoring puts back what the movement's records took. */
  lemma RestoredOnHand(t: Tables, m: Id, p: Id)
    ensures OnHand(Restored(t, m), p)
         == OnHand(t.batches, p) + Total(Lots(t.batches, p), GivenBy(t.consumptions, m))
  {
    var lots := Lots(t.batches, p);
    assert Lots(Restored(t, m), p) == lots;
    TotalSum(lots, Rem(t.batches), GivenBy(t.consumptions, m), Rem(Restored(t, m)));
  }

  lemma UndoLots(t: Tables, after: Tables, m: Id)
    requires LotRows(t) && ConsumptionRows(t) && m in t.movements && t.movements[m].kind.Writeoff?
    requires after == Undo(t, m)
    ensures LotRows(after)
  {
    RecordFacts(t);
    forall id | id in after.batches
      ensures LotRow(after, id)
    {
      assert LotRow(t, id);
      WithoutWeigh(t.consumptions, m, id, m);
      GivenBounds(t.consumptions, id, m);
    }
  }

  lemma UndoMoves(t: Tables, after: Tables, m: Id)
    requires MovementRows(t) && ConsumptionRows(t) && m in t.movements
    requires after.movements == t.movements - {m} && after.batches == Restored(t, m)
    requires after.consumptions == Without(t.consumptions, m)
    ensures MovementRows(after) && ConsumptionRows(after)
  {
    forall x | x in after.movements
      ensures MovementRow(after, x)
    {
      assert MovementRow(t, x);
      WithoutWeigh(t.consumptions, m, 0, x);
    }
    WithoutMember(t.consumptions, m);
    SameRecords(t, after);
  }

  lemma MovementHasStock(t: Tables, m: Id)
    requires Inv(t) && m in t.movements && t.movements[m].kind.Writeoff?
    ensures t.movements[m].product in t.stock
  {
    assert MovementRow(t, m);
    if forall c :: c in t.consumptions ==> c.movement != m {
      WeighZero(t.consumptions, ByMovement(m));
      assert false;
    } else {
      var c :| c in t.consumptions && c.movement == m;
      assert ConsumptionRow(t, c);
      assert LotRow(t, c.batch);
    }
  }

  lemma UndoDrift(t: Tables, after: Tables, m: Id, o: Id)
    requires m in t.movements && t.movements[m].kind.Writeoff?
    requires after.movements == t.movements - {m}
    requires after.stock == Undo(t, m).stock
    ensures Drift(after, o) == Drift(t, o)
  {
    MovementRemoved(t.movements, m, o);
  }

  lemma UndoKeeps(t: Tables, after: Tables, m: Id)
    requires Inv(t) && m in t.movements && t.movements[m].kind.Writeoff?
    requires after == Undo(t, m)
    ensures Inv(after)
    ensures forall o: Id :: Drift(after, o) == Drift(t, o)
  {
    assert MovementRow(t, m);
    MovementHasStock(t, m);
    forall o: Id
      ensures Row(after, o).quantity == OnHand(after.batches, o)
    {
      UndoStock(t, m, o);
    }
    forall o: Id
      ensures Drift(after, o) == Drift(t, o)
    {
      UndoDrift(t, after, m, o);
    }
    UndoLots(t, after, m);
    UndoMoves(t, after, m);
    SameBrought(t, after);
  }

  /** restoreFIFOConsumption exactly undoes ConsumeFEFO: taking a fresh drawing back gives the
      tables it started from. */
  lemma UndoDeduct(t: Tables, p: Id, q: int, kind: Kind, m: Id)
    requires Inv(t) && 0 < q <= Row(t, p).quantity && m !in t.movements
    ensures Undo(Deduct(t, p, q, kind, m), m) == t
  {
    InvStocked(t);
    RecordFacts(t);
    assert Row(t, p).quantity == OnHand(t.batches, p);
    UndoDeductRows(t, p, q, kind, m);
  }

  lemma UndoDeductRows(t: Tables, p: Id, q: int, kind: Kind, m: Id)
    requires Stocked(t.batches) && 0 < q <= Row(t, p).quantity == OnHand(t.batches, p)
    requires m !in t.movements && forall c :: c in t.consumptions ==> c.movement != m
    ensures Undo(Deduct(t, p, q, kind, m), m) == t
  {
    hide Drawing;
    hide Drawn;
    hide Restored;
    hide Without;
    var after := Deduct(t, p, q, kind, m);
    UndoneRecords(t.batches, t.consumptions, p, q, m, after);
    UndoneRows(t, after, p, q, kind, m);
  }

  lemma UndoneRecords(batches: Batches, cs: seq<Consumption>, p: Id, q: int, m: Id, after: Tables)
    requires Stocked(batches) && 0 <= q <= OnHand(batches, p)
    requires forall c :: c in cs ==> c.movement != m
    requires after.batches == Drawn(batches, p, q)
    requires after.consumptions == cs + Drawing(batches, p, q, m)
    ensures Restored(after, m) == batches
    ensures Without(after.consumptions, m) == cs
  {
    DrawingWeigh(batches, p, q, m);
    RestoredDrawn(batches, cs, Drawing(batches, p, q, m), p, q, m, after);
    WithoutAppend(cs, Drawing(batches, p, q, m), m);
    WithoutNone(cs, m);
  }

  lemma UndoneRows(t: Tables, after: Tables, p: Id, q: int, kind: Kind, m: Id)
    requires m !in t.movements && 0 < q <= Row(t, p).quantity
    requires after.stock == t.stock[p := Row(t, p).(quantity := Row(t, p).quantity - q)]
    requires after.movements == t.movements[m := Movement(p, kind, q, Row(t, p).quantity, Row(t, p).quantity - q)]
    ensures Undo(after, m).stock == t.stock
    ensures Undo(after, m).movements == t.movements
  {
  }

  lemma RestoredDrawn(batches: Batches, cs: seq<Consumption>, drawing: seq<Consumption>,
                      p: Id, q: int, m: Id, after: Tables)
    requires forall id :: Weigh(drawing, FromBatch(id)) == Take(batches, p, q, id)
    requires forall c :: c in cs ==> c.movement != m
    requires forall c :: c in drawing ==> c.movement == m
    requires after.batches == Drawn(batches, p, q)
    requires after.consumptions == cs + drawing
    ensures Restored(after, m) == batches
  {
    forall id | id in batches
      ensures Restored(after, m)[id] == batches[id]
    {
      RestoredUnits(cs, drawing, id, m);
    }
  }

  lemma RestoredUnits(cs: seq<Consumption>, drawing: seq<Consumption>, id: Id, m: Id)
    requires forall c :: c in cs ==> c.movement != m
    requires forall c :: c in drawing ==> c.movement == m
    ensures Weigh(cs + drawing, Given(id, m)) == Weigh(drawing, FromBatch(id))
  {
    WeighAppend(cs, drawing, Given(id, m));
    WeighZero(cs, Given(id, m));
    GivenIsFromBatch(drawing, id, m);
  }

  lemma {:induction false} GivenIsFromBatch(cs: seq<Consumption>, id: Id, m: Id)
    requires forall c :: c in cs ==> c.movement == m
    ensures Weigh(cs, Given(id, m)) == Weigh(cs, FromBatch(id))
    decreases |cs|
  {
    if cs != [] {
      GivenIsFromBatch(cs[..|cs| - 1], id, m);
      assert cs[|cs| - 1] in cs;
    }
  }

  // ── Correcting a lot ──────────────────────────────────────────────────────────────────

  /** The corrections UpdateReceiving lets through. */
  ghost predicate CanEdit(t: Tables, m: Id, lot: Id, p: Id, q: int, cost: int) {
    && m in t.movements && t.movements[m].kind.Purchase?
    && BroughtBy(t, lot, m)
    && p in t.products && q > 0 && cost >= 0
    && q >= t.batches[lot].received - t.batches[lot].remaining
    && (p != t.movements[m].product ==> t.batches[lot].received == t.batches[lot].remaining)
  }

  lemma EditLotSum(t: Tables, after: Tables, m: Id, lot: Id, p: Id, q: int, cost: int, expiry: Option<int>, o: Id)
    requires CanEdit(t, m, lot, p, q, cost) && LotRow(t, lot)
    requires Row(t, o).quantity == OnHand(t.batches, o)
    requires after == EditLot(t, m, lot, p, q, cost, expiry)
    ensures Row(after, o).quantity == OnHand(after.batches, o)
  {
    LotReplaced(t.batches, lot, after.batches[lot], o);
  }

  lemma EditLotDrift(t: Tables, after: Tables, m: Id, lot: Id, p: Id, q: int, cost: int, expiry: Option<int>, o: Id)
    requires m in t.movements && t.movements[m].kind.Purchase? && lot in t.batches
    requires after == EditLot(t, m, lot, p, q, cost, expiry)
    ensures Drift(after, o) == Drift(t, o)
  {
    DriftKept(t, after, m, after.movements[m], o);
  }

  lemma EditLotLots(t: Tables, after: Tables, m: Id, lot: Id, p: Id, q: int, cost: int, expiry: Option<int>)
    requires LotRows(t) && OneLotEach(t)
    requires CanEdit(t, m, lot, p, q, cost)
    requires after == EditLot(t, m, lot, p, q, cost, expiry)
    ensures LotRows(after)
  {
    assert LotRow(t, lot);
    forall id | id in after.batches
      ensures LotRow(after, id)
    {
      assert LotRow(t, id);
      if id != lot && t.batches[id].movement == Some(m) {
        assert BroughtBy(t, id, m);
      }
    }
  }

  lemma EditLotMoves(t: Tables, after: Tables, m: Id, lot: Id, p: Id, q: int, cost: int, expiry: Option<int>)
    requires MovementRows(t) && CanEdit(t, m, lot, p, q, cost)
    requires after == EditLot(t, m, lot, p, q, cost, expiry)
    ensures MovementRows(after)
  {
    forall x | x in after.movements
      ensures MovementRow(after, x)
    {
      assert MovementRow(t, x);
    }
  }

  lemma EditLotRecords(t: Tables, after: Tables, m: Id, lot: Id, p: Id, q: int, cost: int, expiry: Option<int>)
    requires Inv(t) && CanEdit(t, m, lot, p, q, cost)
    requires after == EditLot(t, m, lot, p, q, cost, expiry)
    ensures ConsumptionRows(after)
  {
    assert LotRow(t, lot);
    if p != t.movements[m].product {
      UntouchedLot(t, lot);
    }
    forall c | c in after.consumptions
      ensures ConsumptionRow(after, c)
    {
      assert ConsumptionRow(t, c);
    }
  }

  lemma EditLotBrought(t: Tables, after: Tables, m: Id, lot: Id, p: Id, q: int, cost: int, expiry: Option<int>)
    requires OneLotEach(t) && CanEdit(t, m, lot, p, q, cost)
    requires after == EditLot(t, m, lot, p, q, cost, expiry)
    ensures OneLotEach(after)
  {
    SameBrought(t, after);
  }

  lemma EditLotStock(t: Tables, after: Tables, m: Id, lot: Id, p: Id, q: int, cost: int, expiry: Option<int>)
    requires CanEdit(t, m, lot, p, q, cost) && StockRows(t) && LotRow(t, lot)
    requires after == EditLot(t, m, lot, p, q, cost, expiry)
    requires Row(after, t.movements[m].product).Ok()
    ensures StockRows(after)
  {
  }

  lemma EditLotKeeps(t: Tables, after: Tables, m: Id, lot: Id, p: Id, q: int, cost: int, expiry: Option<int>)
    requires Inv(t) && CanEdit(t, m, lot, p, q, cost)
    requires after == EditLot(t, m, lot, p, q, cost, expiry)
    requires Row(after, t.movements[m].product).Ok()
    ensures Inv(after)
    ensures forall o: Id :: Drift(after, o) == Drift(t, o)
  {
    assert LotRow(t, lot);
    forall o: Id
      ensures Row(after, o).quantity == OnHand(after.batches, o)
      ensures Drift(after, o) == Drift(t, o)
    {
      EditLotSum(t, after, m, lot, p, q, cost, expiry, o);
      EditLotDrift(t, after, m, lot, p, q, cost, expiry, o);
    }
    EditLotLots(t, after, m, lot, p, q, cost, expiry);
    EditLotMoves(t, after, m, lot, p, q, cost, expiry);
    EditLotRecords(t, after, m, lot, p, q, cost, expiry);
    EditLotBrought(t, after, m, lot, p, q, cost, expiry);
    EditLotStock(t, after, m, lot, p, q, cost, expiry);
  }

  /** Neither "would make stock negative" branch of UpdateReceiving can be taken. */
  lemma EditNeverNegative(t: Tables, m: Id, lot: Id, p: Id, q: int, cost: int)
    requires Inv(t) && CanEdit(t, m, lot, p, q, cost)
    ensures p == t.movements[m].product ==> Row(t, p).quantity + (q - t.movements[m].quantity) >= 0
    ensures p != t.movements[m].product ==> Row(t, t.movements[m].product).quantity - t.movements[m].quantity >= 0
  {
    assert LotRow(t, lot);
    LotWithinStock(t, lot);
  }
}
