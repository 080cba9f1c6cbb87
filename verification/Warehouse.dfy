/** inventory.Service and inventory.Repository: the transactions performed row by row on mutable
    tables. Every public method commits exactly what StockService says or rolls back. */
module Warehouse {
  import opened Basics
  import opened Totals
  import opened Fefo
  import opened StockTables
  import opened StockMoves
  import opened StockService

  /** How a transaction ended: committed to the specified tables, or rolled back with its error. */
  predicate Ended(spec: Outcome, before: Tables, after: Tables, err: Option<Error>) {
    match spec
    case Ok(u) => err == None && after == u
    case Err(e) => err == Some(e) && after == before
  }

  /** What the transaction function itself leaves; on an error its writes are still in place. */
  predicate Returned(spec: Outcome, after: Tables, err: Option<Error>) {
    match spec
    case Ok(u) => err == None && after == u
    case Err(e) => err == Some(e)
  }

  lemma EndedKeeps(before: Tables, op: Op, after: Tables, err: Option<Error>)
    requires Inv(before) && Ended(Apply(before, op), before, after, err)
    ensures Inv(after)
  {
    StepKeeps(before, op);
  }

  /** The tables once the stock row of `p` is locked, inserted if it was missing. */
  function Locked(t: Tables, p: Id): Tables { t.(stock := t.stock[p := Row(t, p)]) }

  /** The batches of `b0` after the ones in `s` gave their share. */
  ghost function DrawnFrom(b0: Batches, take: Id -> int, s: set<Id>): Batches {
    map id | id in b0 :: b0[id].(remaining := b0[id].remaining - (if id in s then take(id) else 0))
  }

  /** Rows of movement `m`, newest first. */
  function Matching(cs: seq<Consumption>, m: Id): seq<Consumption> {
    if cs == [] then []
    else
      var last := cs[|cs| - 1];
      (if last.movement == m then [last] else []) + Matching(cs[..|cs| - 1], m)
  }

  lemma {:induction false} MatchingWeigh(cs: seq<Consumption>, m: Id, id: Id)
    ensures Weigh(Matching(cs, m), FromBatch(id)) == Weigh(cs, Given(id, m))
    ensures forall c :: c in Matching(cs, m) ==> c in cs
    decreases |cs|
  {
    if cs != [] {
      var front, last := cs[..|cs| - 1], cs[|cs| - 1];
      MatchingWeigh(front, m, id);
      var mine := if last.movement == m then [last] else [];
      assert mine != [] ==> mine[..0] == [];
      WeighAppend(mine, Matching(front, m), FromBatch(id));
    }
  }

  /** What the k-th batch of the FEFO list has in front of it is what was listed before it. */
  lemma AheadInOrder(batches: Batches, p: Id, k: nat)
    requires Stocked(batches) && k < |FefoOrder(batches, p)|
    ensures FefoOrder(batches, p)[k] in Candidates(batches, p)
    ensures Ahead(batches, FefoOrder(batches, p)[k]) == Total(Members(FefoOrder(batches, p)[..k]), Rem(batches))
  {
    SortedFront(batches, Candidates(batches, p), k);
    var id := FefoOrder(batches, p)[k];
    TotalSupport(Members(FefoOrder(batches, p)[..k]), Front(batches, id), Rem(batches));
  }

  /** Units listed before position `i`. */
  ghost function Listed(b0: Batches, order: seq<Id>, i: nat): int
    requires i <= |order|
  {
    Total(Members(order[..i]), Rem(b0))
  }

  /** The i-th batch is new to the list and gives what is still needed, or all it has. */
  ghost predicate ServedAt(b0: Batches, order: seq<Id>, take: Id -> int, qty: int, i: nat)
    requires i < |order|
  {
    && order[i] in b0 && b0[order[i]].remaining > 0
    && order[i] !in Members(order[..i])
    && take(order[i]) == Min(b0[order[i]].remaining, Max(0, qty - Listed(b0, order, i)))
  }

  ghost predicate Served(b0: Batches, order: seq<Id>, take: Id -> int, qty: int) {
    forall i: nat {:trigger ServedAt(b0, order, take, qty, i)} :: i < |order| ==> ServedAt(b0, order, take, qty, i)
  }

  lemma FefoServed(b0: Batches, p: Id, qty: int)
    requires Stocked(b0)
    ensures Served(b0, FefoOrder(b0, p), TakeOf(b0, p, qty), qty)
  {
    var order, take := FefoOrder(b0, p), TakeOf(b0, p, qty);
    OrderIsCandidates(b0, p);
    forall i: nat | i < |order|
      ensures ServedAt(b0, order, take, qty, i)
    {
      AheadInOrder(b0, p, i);
    }
  }

  lemma ListedStep(b0: Batches, order: seq<Id>, i: nat)
    requires i < |order| && order[i] !in Members(order[..i])
    ensures Members(order[..i + 1]) == Members(order[..i]) + {order[i]}
    ensures Listed(b0, order, i + 1) == Listed(b0, order, i) + Rem(b0)(order[i])
  {
    assert order[..i + 1] == order[..i] + [order[i]];
    TotalAdd(Members(order[..i]), Rem(b0), order[i]);
  }

  /** Units listed only grow along the list. */
  lemma {:induction false} ListedGrows(b0: Batches, order: seq<Id>, take: Id -> int, qty: int, i: nat, k: nat)
    requires Served(b0, order, take, qty) && i <= k <= |order|
    ensures Listed(b0, order, i) <= Listed(b0, order, k)
    decreases k
  {
    if i < k {
      ListedGrows(b0, order, take, qty, i, k - 1);
      assert ServedAt(b0, order, take, qty, k - 1);
      ListedStep(b0, order, k - 1);
    }
  }

  /** The four tables DrawStock leaves are those of Deduct. */
  lemma DrawnTables(t: Tables, after: Tables, p: Id, q: int, kind: Kind, m: Id)
    requires after.products == t.products
    requires after.stock == t.stock[p := Row(t, p)][p := Row(t, p).(quantity := Row(t, p).quantity - q)]
    requires after.movements == t.movements[m := Movement(p, kind, q, Row(t, p).quantity, Row(t, p).quantity - q)]
    requires after.batches == Drawn(t.batches, p, q)
    requires after.consumptions == t.consumptions + Drawing(t.batches, p, q, m)
    ensures after == Deduct(t, p, q, kind, m)
  {
  }

  /** What a write-off edit finds once the old drawing is back. */
  lemma UndoneRow(t: Tables, m: Id)
    requires Inv(t) && m in t.movements && t.movements[m].kind.Writeoff?
    ensures var mv := t.movements[m]; var row := Row(t, mv.product); var undone := Undo(t, m);
            && mv.product in t.stock && row.Ok() && ConsumptionRows(t)
            && Row(undone, mv.product) == row.(quantity := row.quantity + mv.quantity)
            && Stocked(Restored(t, m)) && OnHand(Restored(t, m), mv.product) == row.quantity + mv.quantity
  {
    MovementHasStock(t, m);
    UndoKeeps(t, Undo(t, m), m);
    InvStocked(Undo(t, m));
    assert Row(Undo(t, m), t.movements[m].product).quantity == OnHand(Undo(t, m).batches, t.movements[m].product);
  }

  lemma EditedTables(t: Tables, after: Tables, m: Id, q: int)
    requires m in t.movements && t.movements[m].kind.Writeoff?
    requires var mv := t.movements[m]; var row := Row(t, mv.product); var restored := row.quantity + mv.quantity;
             && after.products == t.products
             && after.stock == t.stock[mv.product := row.(quantity := restored - q)]
             && after.movements == t.movements[m := mv.(quantity := q, previous := restored, next := restored - q)]
             && after.batches == Drawn(Restored(t, m), mv.product, q)
             && after.consumptions == Without(t.consumptions, m) + Drawing(Restored(t, m), mv.product, q, m)
    ensures after == Deduct(Undo(t, m), t.movements[m].product, q, Kind.Writeoff, m)
  {
    hide Drawn;
    hide Drawing;
    hide Restored;
    hide Without;
    var u := Deduct(Undo(t, m), t.movements[m].product, q, Kind.Writeoff, m);
    assert u.stock == after.stock;
    assert u.movements == after.movements;
  }

  /** A purchase has its lot, only one, and a stock row. */
  lemma PurchaseLot(t: Tables, m: Id)
    requires Inv(t) && m in t.movements && t.movements[m].kind.Purchase?
    ensures exists id :: BroughtBy(t, id, m)
    ensures forall id :: BroughtBy(t, id, m) ==> id == LotOf(t, m)
    ensures t.movements[m].product in t.stock && StockRows(t)
    ensures t.batches[LotOf(t, m)].received >= t.batches[LotOf(t, m)].remaining
  {
    assert exists id :: BroughtBy(t, id, m);
    assert LotRow(t, LotOf(t, m));
  }

  lemma InvStockRows(t: Tables)
    requires Inv(t)
    ensures StockRows(t)
  {
  }

  /** A refused line refuses every longer invoice that starts the same way. */
  lemma {:induction false} RefusedLine(t: Tables, lines: seq<Receipt>, keys: seq<Keys>, n: nat, e: Error)
    requires |lines| == |keys| && n <= |lines|
    requires ReceiveLines(t, lines[..n], keys[..n]) == Err(e)
    ensures ReceiveLines(t, lines, keys) == Err(e)
    decreases |lines| - n
  {
    if n == |lines| {
      assert lines[..n] == lines && keys[..n] == keys;
    } else {
      assert lines[..n + 1][..n] == lines[..n] && keys[..n + 1][..n] == keys[..n];
      RefusedLine(t, lines, keys, n + 1, e);
    }
  }

  /** State of ConsumeFEFO's loop after `i` batches of the list. */
  ghost predicate Listing(b0: Batches, order: seq<Id>, take: Id -> int, qty: int, m: Id,
                          now: Batches, i: nat, remaining: int, drawn: seq<Consumption>) {
    && i <= |order|
    && remaining == Max(0, qty - Listed(b0, order, i))
    && now == DrawnFrom(b0, take, Members(order[..i]))
    && drawn == Records(b0, take, m, order[..i])
  }

  lemma ListingStart(b0: Batches, order: seq<Id>, take: Id -> int, qty: int, m: Id)
    requires qty >= 0
    ensures Listing(b0, order, take, qty, m, b0, 0, qty, [])
  {
    assert order[..0] == [];
  }

  lemma DrawnFromStep(b0: Batches, take: Id -> int, s: set<Id>, id: Id)
    requires id in b0 && id !in s
    ensures DrawnFrom(b0, take, s)[id] == b0[id]
    ensures DrawnFrom(b0, take, s + {id})
         == DrawnFrom(b0, take, s)[id := b0[id].(remaining := b0[id].remaining - take(id))]
  {
  }

  lemma ListingHead(b0: Batches, order: seq<Id>, take: Id -> int, qty: int, m: Id,
                    now: Batches, i: nat, remaining: int, drawn: seq<Consumption>)
    requires Served(b0, order, take, qty) && Listing(b0, order, take, qty, m, now, i, remaining, drawn)
    requires i < |order|
    ensures order[i] in now
  {
    assert ServedAt(b0, order, take, qty, i);
  }

  lemma ListingStep(b0: Batches, order: seq<Id>, take: Id -> int, qty: int, m: Id,
                    now: Batches, i: nat, remaining: int, drawn: seq<Consumption>, id: Id, amount: int)
    requires Served(b0, order, take, qty) && Listing(b0, order, take, qty, m, now, i, remaining, drawn)
    requires i < |order| && remaining != 0 && id == order[i]
    requires id in now && amount == Min(now[id].remaining, remaining)
    ensures Listing(b0, order, take, qty, m, now[id := now[id].(remaining := now[id].remaining - amount)],
                    i + 1, remaining - amount, drawn + [Consumption(id, m, amount, now[id].unitCost)])
  {
    assert ServedAt(b0, order, take, qty, i);
    ListedStep(b0, order, i);
    assert order[..i + 1][..i] == order[..i];
    DrawnFromStep(b0, take, Members(order[..i]), id);
  }

  /** Once the list before position `i` covers the need, later batches give nothing. */
  lemma GivesNothing(b0: Batches, order: seq<Id>, take: Id -> int, qty: int, i: nat, k: nat)
    requires Served(b0, order, take, qty) && i <= k < |order| && Listed(b0, order, i) >= qty
    ensures take(order[k]) == 0
  {
    ListedGrows(b0, order, take, qty, i, k);
    hide Listed;
    assert ServedAt(b0, order, take, qty, k);
  }

  lemma {:induction false} NoMoreRecords(b0: Batches, order: seq<Id>, take: Id -> int, m: Id, i: nat, n: nat)
    requires i <= n <= |order| && forall k :: i <= k < n ==> take(order[k]) == 0
    ensures Records(b0, take, m, order[..n]) == Records(b0, take, m, order[..i])
    decreases n
  {
    if i < n {
      NoMoreRecords(b0, order, take, m, i, n - 1);
      assert order[..n][..n - 1] == order[..n - 1];
    }
  }

  lemma NoMoreDraws(b0: Batches, order: seq<Id>, take: Id -> int, qty: int, i: nat)
    requires Served(b0, order, take, qty) && i <= |order| && Listed(b0, order, i) >= qty
    ensures DrawnFrom(b0, take, Members(order[..i])) == DrawnFrom(b0, take, Members(order))
  {
    forall id | id in Members(order) && id !in Members(order[..i])
      ensures take(id) == 0
    {
      var k :| 0 <= k < |order| && order[k] == id;
      assert forall j :: 0 <= j < i ==> order[..i][j] == order[j];
      GivesNothing(b0, order, take, qty, i, k);
    }
  }

  /** The loop ran out of need or out of batches. */
  lemma ListingEnd(b0: Batches, order: seq<Id>, take: Id -> int, qty: int, m: Id,
                   now: Batches, i: nat, remaining: int, drawn: seq<Consumption>)
    requires Served(b0, order, take, qty) && Listing(b0, order, take, qty, m, now, i, remaining, drawn)
    requires i == |order| || remaining == 0
    ensures remaining == 0 <==> qty <= Listed(b0, order, |order|)
    ensures remaining == 0 ==> now == DrawnFrom(b0, take, Members(order)) && drawn == Records(b0, take, m, order)
  {
    assert order[..|order|] == order;
    ListedGrows(b0, order, take, qty, i, |order|);
    if remaining == 0 {
      forall k | i <= k < |order|
        ensures take(order[k]) == 0
      {
        GivesNothing(b0, order, take, qty, i, k);
      }
      NoMoreRecords(b0, order, take, m, i, |order|);
      NoMoreDraws(b0, order, take, qty, i);
    }
  }

  lemma ListedAll(b0: Batches, p: Id)
    requires Stocked(b0)
    ensures Listed(b0, FefoOrder(b0, p), |FefoOrder(b0, p)|) == OnHand(b0, p)
  {
    var order := FefoOrder(b0, p);
    assert order[..|order|] == order;
    OrderIsCandidates(b0, p);
    TotalSupport(Candidates(b0, p), Lots(b0, p), Rem(b0));
  }

  /** What the loop computes over the query's list is the loop-free allocation. */
  lemma DrawnFromAll(b0: Batches, p: Id, qty: int)
    requires Stocked(b0) && qty >= 0
    ensures DrawnFrom(b0, TakeOf(b0, p, qty), Members(FefoOrder(b0, p))) == Drawn(b0, p, qty)
  {
    OrderIsCandidates(b0, p);
    TakeBounds(b0, p, qty);
    forall id | id in b0
      ensures DrawnFrom(b0, TakeOf(b0, p, qty), Candidates(b0, p))[id] == Drawn(b0, p, qty)[id]
    {
      assert id !in Candidates(b0, p) ==> TakeOf(b0, p, qty)(id) == 0;
    }
  }

  /** The batches of `b0` with the first rows given back. */
  ghost function GivenBack(b0: Batches, rows: seq<Consumption>): Batches {
    map id | id in b0 :: b0[id].(remaining := b0[id].remaining + Weigh(rows, FromBatch(id)))
  }

  lemma GiveBackStep(b0: Batches, rows: seq<Consumption>, i: nat)
    requires i < |rows| && rows[i].batch in b0
    ensures var c, now := rows[i], GivenBack(b0, rows[..i]);
            GivenBack(b0, rows[..i + 1])
            == now[c.batch := now[c.batch].(remaining := now[c.batch].remaining + c.quantity)]
  {
    assert rows[..i + 1][..i] == rows[..i];
  }

  lemma GivenBackIsRestored(t: Tables, m: Id)
    ensures GivenBack(t.batches, Matching(t.consumptions, m)) == Restored(t, m)
  {
    forall id | id in t.batches
      ensures Weigh(Matching(t.consumptions, m), FromBatch(id)) == Weigh(t.consumptions, Given(id, m))
    {
      MatchingWeigh(t.consumptions, m, id);
    }
  }

  class Service {
    var products: set<Id>
    var stock: map<Id, Stock>
    var movements: map<Id, Movement>
    var batches: Batches
    var consumptions: seq<Consumption>

    function Tables(): Tables
      reads this
    {
      StockTables.Tables.Tables(products, stock, movements, batches, consumptions)
    }

    ghost predicate Valid()
      reads this
    {
      Inv(Tables())
    }

    constructor (catalogue: set<Id>)
      ensures Tables() == Opening(catalogue) && Valid()
    {
      products, stock, movements, batches, consumptions := catalogue, map[], map[], map[], [];
      new;
      OpeningAgrees(catalogue);
    }

    /** The transaction function returned an error: nothing it wrote survives. */
    method Rollback(saved: Tables)
      modifies this
      ensures Tables() == saved
    {
      products, stock, movements := saved.products, saved.stock, saved.movements;
      batches, consumptions := saved.batches, saved.consumptions;
    }

    // ── Repository: one row at a time ───────────────────────────────────────────────────

    method GetOrCreateForUpdate(p: Id) returns (row: Stock, ok: bool)
      modifies this`stock
      ensures ok <==> p in old(stock) || p in products
      ensures row == Row(old(Tables()), p)
      ensures p in old(stock) ==> stock == old(stock)
      ensures stock == if ok then old(stock)[p := row] else old(stock)
    {
      row := Stock(0, 0, 0);
      ok := true;
      if p in stock {
        row := stock[p];
      } else if p in products {
        stock := stock[p := row];
      } else {
        ok := false;
      }
    }

    method UpdateQuantity(p: Id, quantity: int) returns (ok: bool)
      requires p in stock
      modifies this`stock
      ensures ok <==> old(stock)[p].(quantity := quantity).Ok()
      ensures stock == if ok then old(stock)[p := old(stock)[p].(quantity := quantity)] else old(stock)
    {
      var row := stock[p].(quantity := quantity);
      ok := row.Ok();
      if ok {
        stock := stock[p := row];
      }
    }

    method UpdateReservedQuantity(p: Id, reserved: int) returns (ok: bool)
      requires p in stock
      modifies this`stock
      ensures ok <==> old(stock)[p].(reserved := reserved).Ok()
      ensures stock == if ok then old(stock)[p := old(stock)[p].(reserved := reserved)] else old(stock)
    {
      var row := stock[p].(reserved := reserved);
      ok := row.Ok();
      if ok {
        stock := stock[p := row];
      }
    }

    method UpdateBlockedQuantity(p: Id, blocked: int) returns (ok: bool)
      requires p in stock
      modifies this`stock
      ensures ok <==> old(stock)[p].(blocked := blocked).Ok()
      ensures stock == if ok then old(stock)[p := old(stock)[p].(blocked := blocked)] else old(stock)
    {
      var row := stock[p].(blocked := blocked);
      ok := row.Ok();
      if ok {
        stock := stock[p := row];
      }
    }

    method InsertMovement(m: Id, mv: Movement) returns (ok: bool)
      modifies this`movements
      ensures ok <==> m !in old(movements) && mv.quantity > 0 && mv.previous >= 0 && mv.next >= 0
      ensures movements == if ok then old(movements)[m := mv] else old(movements)
    {
      ok := m !in movements && mv.quantity > 0 && mv.previous >= 0 && mv.next >= 0;
      if ok {
        movements := movements[m := mv];
      }
    }

    method CreateBatch(lot: Id, b: Batch) returns (ok: bool)
      modifies this`batches
      ensures ok <==> lot !in old(batches) && b.received > 0 && b.remaining >= 0 && b.unitCost >= 0
      ensures batches == if ok then old(batches)[lot := b] else old(batches)
    {
      ok := lot !in batches && b.received > 0 && b.remaining >= 0 && b.unitCost >= 0;
      if ok {
        batches := batches[lot := b];
      }
    }

    /** The loop of ConsumeFEFO over the list the query returned. */
    method DrawListed(order: seq<Id>, ghost take: Id -> int, qty: int, m: Id)
      returns (drawn: seq<Consumption>, remaining: int)
      requires Served(batches, order, take, qty) && qty >= 0
      modifies this`batches
      ensures remaining == 0 <==> qty <= Listed(old(batches), order, |order|)
      ensures remaining == 0 ==> batches == DrawnFrom(old(batches), take, Members(order))
      ensures remaining == 0 ==> drawn == Records(old(batches), take, m, order)
    {
      hide Listing;
      hide Served;
      hide Members;
      hide Listed;
      ghost var b0 := batches;
      remaining := qty;
      drawn := [];
      var i := 0;
      ListingStart(b0, order, take, qty, m);
      while i < |order| && remaining != 0
        invariant 0 <= i <= |order|
        invariant Listing(b0, order, take, qty, m, batches, i, remaining, drawn)
      {
        ListingHead(b0, order, take, qty, m, batches, i, remaining, drawn);
        var id := order[i];
        var b := batches[id];
        var amount := remaining;
        if b.remaining < amount {
          amount := b.remaining;
        }
        ListingStep(b0, order, take, qty, m, batches, i, remaining, drawn, id, amount);
        drawn := drawn + [Consumption(id, m, amount, b.unitCost)];
        batches := batches[id := b.(remaining := b.remaining - amount)];
        remaining := remaining - amount;
        i := i + 1;
      }
      ListingEnd(b0, order, take, qty, m, batches, i, remaining, drawn);
    }

    /** Deducts `qty` units in FEFO order and records who gave what; fails only when the batches
        hold less than `qty`. */
    method ConsumeFEFO(p: Id, qty: int, m: Id) returns (drawn: seq<Consumption>, ok: bool)
      requires Stocked(batches) && qty >= 0
      modifies this`batches, this`consumptions
      ensures ok <==> qty <= OnHand(old(batches), p)
      ensures ok ==> batches == Drawn(old(batches), p, qty)
      ensures ok ==> drawn == Drawing(old(batches), p, qty, m)
      ensures ok ==> consumptions == old(consumptions) + drawn
      ensures ok ==> UsedUp(old(batches), batches, p, qty)
    {
      hide UsedUp;
      DrawnUsesUp(batches, p, qty);
      var order := FefoOrder(batches, p);
      FefoServed(batches, p, qty);
      ListedAll(batches, p);
      DrawnFromAll(batches, p, qty);
      var remaining;
      drawn, remaining := DrawListed(order, TakeOf(batches, p, qty), qty, m);
      ok := remaining == 0;
      if ok {
        consumptions := consumptions + drawn;
      }
    }

    /** Gives back everything movement `m` took and deletes its records. */
    method RestoreFIFOConsumption(m: Id)
      requires ConsumptionRows(Tables())
      modifies this`batches, this`consumptions
      ensures batches == Restored(old(Tables()), m)
      ensures consumptions == Without(old(consumptions), m)
    {
      RecordFacts(Tables());
      GivenBackIsRestored(Tables(), m);
      MatchingWeigh(consumptions, m, 0);
      GiveBack(Matching(consumptions, m));
      consumptions := Without(consumptions, m);
    }

    method GiveBack(rows: seq<Consumption>)
      requires forall c :: c in rows ==> c.batch in batches
      modifies this`batches
      ensures batches == GivenBack(old(batches), rows)
    {
      ghost var b0 := batches;
      var i := 0;
      assert rows[..0] == [];
      while i < |rows|
        invariant 0 <= i <= |rows|
        invariant batches == GivenBack(b0, rows[..i])
      {
        var c := rows[i];
        GiveBackStep(b0, rows, i);
        batches := batches[c.batch := batches[c.batch].(remaining := batches[c.batch].remaining + c.quantity)];
        i := i + 1;
      }
      assert rows[..|rows|] == rows;
    }

    // ── The writes every receipt and every issue share ──────────────────────────────────

    /** `t` is the database before the stock row was locked. */
    method BringLot(ghost t: Tables, p: Id, q: int, kind: Kind, cost: int, expiry: Option<int>, k: Keys, row: Stock)
      returns (ok: bool)
      requires Tables() == Locked(t, p) && row == Row(t, p) && row.Ok() && p in products
      modifies this`stock, this`movements, this`batches
      ensures ok <==> LotFits(t, p, q, cost, k)
      ensures ok ==> Tables() == AddLot(t, p, q, kind, k.movement, k.lot, cost, expiry, k.at, k.created)
    {
      ok := UpdateQuantity(p, row.quantity + q);
      if ok {
        ok := InsertMovement(k.movement, Movement(p, kind, q, row.quantity, row.quantity + q));
      }
      if ok {
        ok := CreateBatch(k.lot, Batch(p, q, q, cost, k.at, k.created, expiry, Some(k.movement)));
      }
    }

    /** Refusals come from the schema only: a drawing the stock row allows never exhausts the
        batches. */
    method DrawStock(ghost t: Tables, p: Id, q: int, kind: Kind, m: Id, row: Stock)
      returns (drawn: seq<Consumption>, err: Option<Error>)
      requires products == t.products && stock == t.stock[p := row] && row == Row(t, p) && row.Ok()
      requires movements == t.movements && batches == t.batches && consumptions == t.consumptions
      requires Stocked(t.batches) && row.quantity == OnHand(t.batches, p)
      modifies this`stock, this`movements, this`batches, this`consumptions
      ensures err == if 0 < q <= row.quantity - row.reserved && m !in t.movements then None else Some(Constraint)
      ensures err == None ==> Tables() == Deduct(t, p, q, kind, m)
      ensures err == None ==> drawn == Drawing(t.batches, p, q, m)
    {
      hide Drawing;
      hide Drawn;
      drawn := [];
      var ok := UpdateQuantity(p, row.quantity - q);
      if ok {
        ok := InsertMovement(m, Movement(p, kind, q, row.quantity, row.quantity - q));
      }
      if !ok {
        return [], Some(Constraint);
      }
      drawn, ok := ConsumeFEFO(p, q, m);
      err := if ok then None else Some(Exhausted);
      DrawnTables(t, Tables(), p, q, kind, m);
    }

    // ── Service: the transactions ───────────────────────────────────────────────────────

    method ReceiveLineTx(line: Receipt, k: Keys) returns (err: Option<Error>)
      requires StockRows(Tables())
      modifies this
      ensures Returned(ReceiveLine(old(Tables()), line, k), Tables(), err)
    {
      ghost var t := Tables();
      var row, ok := GetOrCreateForUpdate(line.product);
      if ok {
        ok := BringLot(t, line.product, line.quantity, Purchase, line.unitCost, line.expiry, k, row);
      }
      return if ok then None else Some(Constraint);
    }

    method Receive(today: int, line: Receipt, k: Keys) returns (err: Option<Error>)
      requires Valid()
      modifies this
      ensures Ended(StockService.Receive(old(Tables()), today, line, k), old(Tables()), Tables(), err)
      ensures Valid()
    {
      var before := Tables();
      if !ExpiryOk(line.expiry, today) {
        err := Some(BadExpiry);
      } else {
        err := ReceiveLineTx(line, k);
      }
      if err.Some? {
        Rollback(before);
      }
      EndedKeeps(before, OpReceive(today, line, k), Tables(), err);
    }

    /** Line after line; an error in any of them abandons the invoice. */
    method ReceiveLinesTx(lines: seq<Receipt>, keys: seq<Keys>) returns (err: Option<Error>)
      requires Valid() && |lines| == |keys|
      modifies this
      ensures Returned(ReceiveLines(old(Tables()), lines, keys), Tables(), err)
    {
      hide Inv;
      hide AddLot;
      ghost var t := Tables();
      err := None;
      var i := 0;
      while i < |lines|
        invariant 0 <= i <= |lines| && err == None
        invariant ReceiveLines(t, lines[..i], keys[..i]) == Ok(Tables())
      {
        assert lines[..i + 1][..i] == lines[..i] && keys[..i + 1][..i] == keys[..i];
        assert StockRows(Tables()) by {
          ReceiveLinesKeeps(t, lines[..i], keys[..i]);
          InvStockRows(Tables());
        }
        err := ReceiveLineTx(lines[i], keys[i]);
        if err.Some? {
          RefusedLine(t, lines, keys, i + 1, err.value);
          return;
        }
        i := i + 1;
      }
      assert lines[..|lines|] == lines && keys[..|keys|] == keys;
    }

    method ReceiveBatch(today: int, lines: seq<Receipt>, keys: seq<Keys>) returns (err: Option<Error>)
      requires Valid() && |lines| == |keys|
      modifies this
      ensures Ended(StockService.ReceiveBatch(old(Tables()), today, lines, keys), old(Tables()), Tables(), err)
      ensures Valid()
    {
      hide Inv;
      var before := Tables();
      var i := 0;
      while i < |lines| && ExpiryOk(lines[i].expiry, today)
        invariant 0 <= i <= |lines|
        invariant forall j :: 0 <= j < i ==> ExpiryOk(lines[j].expiry, today)
      {
        i := i + 1;
      }
      if i < |lines| {
        err := Some(BadExpiry);
      } else {
        err := ReceiveLinesTx(lines, keys);
      }
      if err.Some? {
        Rollback(before);
      }
      EndedKeeps(before, OpReceiveBatch(today, lines, keys), Tables(), err);
    }

    /** Free stock leaves for an external location. The caller owns the transaction and rolls it
        back on an error; the unit cost returned is the weighted average of what was consumed. */
    method IssueExternalTx(p: Id, q: int, m: Id) returns (err: Option<Error>, unitCost: real)
      requires Valid()
      modifies this
      ensures Returned(Issue(old(Tables()), p, q, m), Tables(), err)
      ensures err == None ==> unitCost * q as real == CostOf(Drawing(old(batches), p, q, m)) as real
    {
      hide Deduct;
      hide Drawing;
      hide CostOf;
      hide Row;
      hide OnHand;
      hide Inv;
      ghost var t := Tables();
      InvStocked(t);
      unitCost := 0.0;
      if q <= 0 {
        return Some(BadQuantity), 0.0;
      }
      InvRow(t, p);
      var row, ok := GetOrCreateForUpdate(p);
      if !ok {
        return Some(Constraint), 0.0;
      }
      if row.Available() < q {
        return Some(Insufficient), 0.0;
      }
      var drawn;
      drawn, err := DrawStock(t, p, q, TransferOut, m, row);
      if err.Some? {
        return err, 0.0;
      }
      var total := TotalCost(drawn);
      return None, total as real / q as real;
    }

    method TotalCost(drawn: seq<Consumption>) returns (total: int)
      ensures total == CostOf(drawn)
    {
      total := 0;
      var i := 0;
      assert drawn[..0] == [];
      while i < |drawn|
        invariant 0 <= i <= |drawn|
        invariant total == CostOf(drawn[..i])
      {
        assert drawn[..i + 1][..i] == drawn[..i];
        total := total + drawn[i].quantity * drawn[i].unitCost;
        i := i + 1;
      }
      assert drawn[..|drawn|] == drawn;
    }

    /** Stock comes back from an external location at the cost frozen when it left; the column
        keeps it to whole cents. */
    method ReturnExternalTx(p: Id, q: int, unitCost: real, k: Keys) returns (err: Option<Error>)
      requires Valid()
      modifies this
      ensures Returned(ReturnExternal(old(Tables()), p, q, ToCents(unitCost), k), Tables(), err)
    {
      ghost var t := Tables();
      if q <= 0 {
        return Some(BadQuantity);
      }
      var row, ok := GetOrCreateForUpdate(p);
      if ok {
        ok := BringLot(t, p, q, TransferIn, ToCents(unitCost), None, k, row);
      }
      return if ok then None else Some(Constraint);
    }

    method WriteoffTx(p: Id, q: int, m: Id) returns (err: Option<Error>)
      requires Valid()
      modifies this
      ensures Returned(WriteOff(old(Tables()), p, q, m), Tables(), err)
    {
      hide Deduct;
      hide Row;
      hide OnHand;
      hide Inv;
      ghost var t := Tables();
      InvStocked(t);
      InvRow(t, p);
      var row, ok := GetOrCreateForUpdate(p);
      if !ok {
        return Some(Constraint);
      }
      if row.Available() < q {
        return Some(Insufficient);
      }
      var drawn;
      drawn, err := DrawStock(t, p, q, Kind.Writeoff, m, row);
    }

    method Writeoff(p: Id, q: int, m: Id) returns (err: Option<Error>)
      requires Valid()
      modifies this
      ensures Ended(WriteOff(old(Tables()), p, q, m), old(Tables()), Tables(), err)
      ensures Valid()
    {
      hide Inv;
      hide WriteOff;
      var before := Tables();
      err := WriteoffTx(p, q, m);
      if err.Some? {
        Rollback(before);
      }
      EndedKeeps(before, OpWriteOff(p, q, m), Tables(), err);
    }

    /** orders/service.go, deductInventory for one item of a delivered order: the reservation goes first. */
    method SellTx(p: Id, q: int, m: Id) returns (err: Option<Error>)
      requires Valid()
      modifies this
      ensures Returned(StockService.Sell(old(Tables()), p, q, m), Tables(), err)
    {
      hide Deduct;
      hide OnHand;
      ghost var t := Tables();
      InvStocked(t);
      InvRow(t, p);
      hide Inv;
      var row, ok := GetOrCreateForUpdate(p);
      if !ok {
        return Some(Constraint);
      }
      if row.reserved < q {
        return Some(Insufficient);
      }
      var released := row.(reserved := row.reserved - q);
      ok := UpdateReservedQuantity(p, released.reserved);
      if !ok {
        return Some(Constraint);
      }
      var drawn;
      drawn, err := DrawStock(t.(stock := t.stock[p := released]), p, q, Kind.Sale, m, released);
    }

    method Sell(p: Id, q: int, m: Id) returns (err: Option<Error>)
      requires Valid()
      modifies this
      ensures Ended(StockService.Sell(old(Tables()), p, q, m), old(Tables()), Tables(), err)
      ensures Valid()
    {
      hide Inv;
      hide StockService.Sell;
      var before := Tables();
      err := SellTx(p, q, m);
      if err.Some? {
        Rollback(before);
      }
      EndedKeeps(before, OpSell(p, q, m), Tables(), err);
    }

    /** A reservation or a release: the caller computed the new number. */
    method Reserve(p: Id, reserved: int) returns (err: Option<Error>)
      requires Valid()
      modifies this
      ensures Ended(SetRow(old(Tables()), p, Row(old(Tables()), p).(reserved := reserved)),
                    old(Tables()), Tables(), err)
      ensures Valid()
    {
      hide OnHand;
      hide Weigh;
      var before := Tables();
      InvRow(before, p);
      hide Inv;
      var row, ok := GetOrCreateForUpdate(p);
      if ok {
        ok := UpdateReservedQuantity(p, reserved);
      }
      err := if ok then None else Some(Constraint);
      if err.Some? {
        Rollback(before);
      }
      EndedKeeps(before, OpReserve(p, reserved), Tables(), err);
    }

    method Block(p: Id, blocked: int) returns (err: Option<Error>)
      requires Valid()
      modifies this
      ensures Ended(SetRow(old(Tables()), p, Row(old(Tables()), p).(blocked := blocked)), old(Tables()), Tables(), err)
      ensures Valid()
    {
      hide OnHand;
      hide Weigh;
      var before := Tables();
      InvRow(before, p);
      hide Inv;
      var row, ok := GetOrCreateForUpdate(p);
      if ok {
        ok := UpdateBlockedQuantity(p, blocked);
      }
      err := if ok then None else Some(Constraint);
      if err.Some? {
        Rollback(before);
      }
      EndedKeeps(before, OpBlock(p, blocked), Tables(), err);
    }

    method AdjustTx(p: Id, target: int, cost: Option<int>, k: Keys) returns (err: Option<Error>)
      requires Valid()
      modifies this
      ensures Returned(StockService.Adjust(old(Tables()), p, target, cost, k), Tables(), err)
    {
      hide Deduct;
      hide Row;
      hide OnHand;
      hide Inv;
      ghost var t := Tables();
      InvStocked(t);
      InvRow(t, p);
      var row, ok := GetOrCreateForUpdate(p);
      if !ok {
        return Some(Constraint);
      }
      if target < 0 {
        return Some(BadQuantity);
      }
      if target > row.quantity {
        ok := BringLot(t, p, target - row.quantity, Adjustment, if cost.Some? then cost.value else 0, None, k, row);
      } else if target < row.quantity {
        var drawn;
        drawn, err := DrawStock(t, p, row.quantity - target, Adjustment, k.movement, row);
        return;
      } else {
        ok := InsertMovement(k.movement, Movement(p, Adjustment, 1, row.quantity, row.quantity));
      }
      return if ok then None else Some(Constraint);
    }

    method Adjust(p: Id, target: int, cost: Option<int>, k: Keys) returns (err: Option<Error>)
      requires Valid()
      modifies this
      ensures Ended(StockService.Adjust(old(Tables()), p, target, cost, k), old(Tables()), Tables(), err)
      ensures Valid()
    {
      hide Inv;
      hide StockService.Adjust;
      var before := Tables();
      err := AdjustTx(p, target, cost, k);
      if err.Some? {
        Rollback(before);
      }
      EndedKeeps(before, OpAdjust(p, target, cost, k), Tables(), err);
    }

    /** updateWriteoffMovement: put back, check, consume again under the same movement. */
    method EditWriteoffTx(m: Id, p: Id, q: int) returns (err: Option<Error>)
      requires Valid() && m in movements && movements[m].kind.Writeoff?
      modifies this
      ensures Returned(EditWriteoff(old(Tables()), m, p, q), Tables(), err)
    {
      hide Deduct;
      hide Undo;
      hide Restored;
      hide Row;
      hide OnHand;
      hide Inv;
      ghost var t := Tables();
      var mv := movements[m];
      if p != mv.product {
        return Some(ProductFixed);
      }
      UndoneRow(t, m);
      hide Row;
      hide ConsumptionRows;
      var row, ok := GetOrCreateForUpdate(p);
      assert Tables() == t;
      RestoreFIFOConsumption(m);
      var restored := row.quantity + mv.quantity;
      if restored - row.reserved < q {
        return Some(Insufficient);
      }
      ok := UpdateQuantity(p, restored - q);
      if !ok || q <= 0 {
        return Some(Constraint);
      }
      movements := movements[m := mv.(quantity := q, previous := restored, next := restored - q)];
      var drawn;
      drawn, ok := ConsumeFEFO(p, q, m);
      EditedTables(t, Tables(), m, q);
      return if ok then None else Some(Exhausted);
    }

    /** The stock rows of an edited receipt. */
    method EditStock(from: Id, was: int, p: Id, q: int) returns (err: Option<Error>)
      requires StockRows(Tables()) && from in stock && q >= 0
      modifies this`stock
      ensures err == StockRefusal(old(Tables()), from, was, p, q)
      ensures err == None ==> stock == MovedStock(old(Tables()), from, was, p, q)
    {
      var row, ok := GetOrCreateForUpdate(from);
      if p == from {
        if row.quantity + (q - was) < 0 {
          return Some(NegativeStock);
        }
        ok := UpdateQuantity(p, row.quantity + (q - was));
        return if ok then None else Some(Constraint);
      }
      if row.quantity - was < 0 {
        return Some(NegativeStock);
      }
      ok := UpdateQuantity(from, row.quantity - was);
      if !ok {
        return Some(Constraint);
      }
      var other;
      other, ok := GetOrCreateForUpdate(p);
      if !ok {
        return Some(Constraint);
      }
      ok := UpdateQuantity(p, other.quantity + q);
      return if ok then None else Some(Constraint);
    }

    /** The receipt half of UpdateReceiving. */
    method EditPurchaseTx(m: Id, p: Id, q: int, cost: int, expiry: Option<int>) returns (err: Option<Error>)
      requires Valid() && m in movements && movements[m].kind.Purchase?
      modifies this
      ensures Returned(EditPurchase(old(Tables()), m, p, q, cost, expiry), Tables(), err)
    {
      hide Inv;
      hide OnHand;
      hide StockRefusal;
      hide MovedStock;
      ghost var t := Tables();
      PurchaseLot(t, m);
      assert BroughtBy(t, LotOf(t, m), m);
      var lot :| lot in batches && batches[lot].movement == Some(m);
      assert BroughtBy(t, lot, m);
      var mv, b := movements[m], batches[lot];
      var consumed := b.received - b.remaining;
      if q < consumed {
        return Some(BelowConsumed);
      }
      if p != mv.product && consumed > 0 {
        return Some(LotConsumed);
      }
      err := EditStock(mv.product, mv.quantity, p, q);
      if err.Some? {
        return;
      }
      if q <= 0 || cost < 0 {
        return Some(Constraint);
      }
      movements := movements[m := mv.(product := p, quantity := q, next := mv.previous + q)];
      batches := batches[lot := b.(product := p, received := q, remaining := q - consumed,
                                   unitCost := cost, expiry := expiry)];
      return None;
    }

    method UpdateReceiving(today: int, m: Id, p: Id, q: int, cost: int, expiry: Option<int>)
      returns (err: Option<Error>)
      requires Valid()
      modifies this
      ensures Ended(EditMovement(old(Tables()), today, m, p, q, cost, expiry), old(Tables()), Tables(), err)
      ensures Valid()
    {
      hide Inv;
      hide EditPurchase;
      hide EditWriteoff;
      var before := Tables();
      if !ExpiryOk(expiry, today) {
        err := Some(BadExpiry);
      } else if m !in movements {
        err := Some(NotFound);
      } else if movements[m].kind.Writeoff? {
        err := EditWriteoffTx(m, p, q);
      } else if movements[m].kind.Purchase? {
        err := EditPurchaseTx(m, p, q, cost, expiry);
      } else {
        err := Some(NotEditable);
      }
      if err.Some? {
        Rollback(before);
      }
      EndedKeeps(before, OpEdit(today, m, p, q, cost, expiry), Tables(), err);
    }
  }
}
