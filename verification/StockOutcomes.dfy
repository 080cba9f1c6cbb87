/** What each stock transaction accepts and what the rows then hold, column by column
    (inventory/service.go). */
module StockOutcomes {
  import opened Basics
  import opened Totals
  import opened Fefo
  import opened StockTables
  import opened StockMoves
  import opened StockService

  /** The stock row of `p` reads `row` and movement `m` reads `mv`; the other rows of both tables are
      as they were. */
  ghost predicate Wrote(t: Tables, u: Tables, p: Id, row: Stock, m: Id, mv: Movement) {
    && u.products == t.products
    && Row(u, p) == row && (forall o: Id :: o != p ==> Row(u, o) == Row(t, o))
    && m in u.movements && u.movements[m] == mv && u.movements - {m} == t.movements - {m}
  }

  /** One new batch; the others and all records are as they were. */
  ghost predicate Inserted(t: Tables, u: Tables, lot: Id, b: Batch) {
    && lot in u.batches && u.batches[lot] == b && u.batches - {lot} == t.batches
    && u.consumptions == t.consumptions
  }

  /** The batches of `p` gave `q` units in FEFO order, and movement `m` is on record for them. */
  ghost predicate Drew(t: Tables, u: Tables, p: Id, q: int, m: Id) {
    u.batches == Drawn(t.batches, p, q) && u.consumptions == t.consumptions + Drawing(t.batches, p, q, m)
  }

  predicate FreshKeys(t: Tables, k: Keys) { k.movement !in t.movements && k.lot !in t.batches }

  // ── Receiving ─────────────────────────────────────────────────────────────────────────

  /** What a lot of `q` units brings: stock and movement rise together, and the whole lot remains. */
  ghost predicate Brought(t: Tables, u: Tables, p: Id, q: int, kind: Kind, cost: int, expiry: Option<int>, k: Keys) {
    var had := Row(t, p);
    && Wrote(t, u, p, Stock(had.quantity + q, had.reserved, had.blocked),
             k.movement, Movement(p, kind, q, had.quantity, had.quantity + q))
    && Inserted(t, u, k.lot, Batch(p, q, q, cost, k.at, k.created, expiry, Some(k.movement)))
  }

  lemma LotBrings(t: Tables, p: Id, q: int, kind: Kind, cost: int, expiry: Option<int>, k: Keys)
    requires FreshKeys(t, k)
    ensures Brought(t, AddLot(t, p, q, kind, k.movement, k.lot, cost, expiry, k.at, k.created),
                    p, q, kind, cost, expiry, k)
  {
  }

  /** A receipt needs a date that is not past, an existing product, a positive quantity and a cost
      that is not negative, and brings one lot at that cost and date. */
  lemma ReceiptWrites(t: Tables, today: int, line: Receipt, k: Keys)
    ensures var outcome := Receive(t, today, line, k);
            && (outcome.Ok? <==>
                  && line.expiry.Some? && line.expiry.value >= today && line.product in t.products
                  && line.quantity > 0 && line.unitCost >= 0 && FreshKeys(t, k))
            && (outcome.Ok? ==>
                  Brought(t, outcome.value, line.product, line.quantity, Purchase, line.unitCost, line.expiry, k))
  {
  }

  /** A return comes back as a lot without a date. */
  lemma ReturnWrites(t: Tables, p: Id, q: int, cost: int, k: Keys)
    ensures var outcome := ReturnExternal(t, p, q, cost, k);
            && (outcome.Ok? <==> q > 0 && p in t.products && cost >= 0 && FreshKeys(t, k))
            && (outcome.Ok? ==> Brought(t, outcome.value, p, q, TransferIn, cost, None, k))
  {
  }

  /** Units of `p` on the lines of an invoice. */
  function Ordered(lines: seq<Receipt>, p: Id): int {
    if lines == [] then 0
    else
      Ordered(lines[..|lines| - 1], p)
      + if lines[|lines| - 1].product == p then lines[|lines| - 1].quantity else 0
  }

  /** The batch and the movement of one line. */
  ghost predicate LineWritten(u: Tables, line: Receipt, k: Keys) {
    && k.lot in u.batches && k.movement in u.movements
    && u.batches[k.lot] == Batch(line.product, line.quantity, line.quantity, line.unitCost,
                                 k.at, k.created, line.expiry, Some(k.movement))
    && u.movements[k.movement].product == line.product && u.movements[k.movement].kind == Purchase
    && u.movements[k.movement].quantity == line.quantity
  }

  ghost predicate LinesWritten(u: Tables, lines: seq<Receipt>, keys: seq<Keys>)
    requires |lines| == |keys|
  {
    forall i {:trigger lines[i]} :: 0 <= i < |lines| ==> LineWritten(u, lines[i], keys[i])
  }

  ghost predicate StockOrdered(t: Tables, u: Tables, lines: seq<Receipt>) {
    forall p: Id {:trigger Row(u, p)} ::
      Row(u, p) == Row(t, p).(quantity := Row(t, p).quantity + Ordered(lines, p))
  }

  ghost predicate Within<V(!new)>(a: map<Id, V>, b: map<Id, V>) {
    forall x :: x in a ==> x in b && b[x] == a[x]
  }

  /** What was there stays, and `n` batches and movements came in. */
  ghost predicate Kept(t: Tables, u: Tables, n: nat) {
    && Within(t.batches, u.batches) && Within(t.movements, u.movements)
    && |u.batches| == |t.batches| + n && |u.movements| == |t.movements| + n
    && u.consumptions == t.consumptions && u.products == t.products
  }

  /** Every line of an accepted invoice has its own batch and movement, each product's stock rises by
      what the lines order of it, and what was there before stays. */
  lemma {:induction false} InvoiceWrites(t: Tables, lines: seq<Receipt>, keys: seq<Keys>, u: Tables)
    requires |lines| == |keys| && ReceiveLines(t, lines, keys) == Ok(u)
    ensures LinesWritten(u, lines, keys) && StockOrdered(t, u, lines) && Kept(t, u, |lines|)
    decreases |lines|
  {
    if lines != [] {
      var n := |lines| - 1;
      var before := ReceiveLines(t, lines[..n], keys[..n]).value;
      InvoiceWrites(t, lines[..n], keys[..n], before);
      assert ReceiveLine(before, lines[n], keys[n]) == Ok(u);
      hide *;
      LineKept(before, lines[n], keys[n], u);
      LineStock(before, lines[n], keys[n], u);
      KeptStep(t, before, u, n, keys[n]);
      LinesStep(before, u, lines, keys);
      OrderedStep(t, before, u, lines);
    }
  }

  lemma LineKept(t: Tables, line: Receipt, k: Keys, u: Tables)
    requires ReceiveLine(t, line, k) == Ok(u)
    ensures LineWritten(u, line, k) && Kept(t, u, 1)
  {
    hide Within;
    OneMore(t.batches, k.lot, u.batches[k.lot]);
    OneMore(t.movements, k.movement, u.movements[k.movement]);
  }

  lemma LineStock(t: Tables, line: Receipt, k: Keys, u: Tables)
    requires ReceiveLine(t, line, k) == Ok(u)
    ensures StockOrdered(t, u, [line])
  {
    assert [line][..0] == [];
    assert Ordered([], line.product) == 0;
    assert forall p :: Ordered([line], p) == if p == line.product then line.quantity else 0;
  }

  lemma OneMore<V(!new)>(a: map<Id, V>, x: Id, v: V)
    requires x !in a
    ensures |a[x := v]| == |a| + 1 && Within(a, a[x := v])
  {
    assert a[x := v].Keys == a.Keys + {x};
    assert |a[x := v].Keys| == |a.Keys| + 1;
  }

  lemma KeptStep(t: Tables, before: Tables, u: Tables, n: nat, k: Keys)
    requires Kept(t, before, n) && Kept(before, u, 1)
    ensures Kept(t, u, n + 1)
  {
  }

  lemma StillWritten(t: Tables, u: Tables, line: Receipt, k: Keys)
    requires LineWritten(t, line, k) && Within(t.batches, u.batches) && Within(t.movements, u.movements)
    ensures LineWritten(u, line, k)
  {
  }

  lemma LinesStep(before: Tables, u: Tables, lines: seq<Receipt>, keys: seq<Keys>)
    requires |lines| == |keys| > 0 && LinesWritten(before, lines[..|lines| - 1], keys[..|lines| - 1])
    requires Kept(before, u, 1) && LineWritten(u, lines[|lines| - 1], keys[|lines| - 1])
    ensures LinesWritten(u, lines, keys)
  {
    hide LineWritten;
    hide StockOrdered;
    var n := |lines| - 1;
    forall i {:trigger lines[i]} | 0 <= i < |lines|
      ensures LineWritten(u, lines[i], keys[i])
    {
      if i < n {
        assert lines[..n][i] == lines[i] && keys[..n][i] == keys[i];
        assert LineWritten(before, lines[i], keys[i]);
        StillWritten(before, u, lines[i], keys[i]);
      }
    }
  }

  lemma OrderedStep(t: Tables, before: Tables, u: Tables, lines: seq<Receipt>)
    requires lines != [] && StockOrdered(t, before, lines[..|lines| - 1])
    requires StockOrdered(before, u, [lines[|lines| - 1]])
    ensures StockOrdered(t, u, lines)
  {
    hide Row;
    forall p: Id
      ensures Row(u, p) == Row(t, p).(quantity := Row(t, p).quantity + Ordered(lines, p))
    {
      assert Ordered([], p) == 0;
      assert [lines[|lines| - 1]][..0] == [];
      assert Row(before, p).quantity == Row(t, p).quantity + Ordered(lines[..|lines| - 1], p);
    }
  }

  // ── Giving out ────────────────────────────────────────────────────────────────────────

  /** What giving out `q` units writes, and what is then reserved. */
  ghost predicate Gave(t: Tables, u: Tables, p: Id, q: int, kind: Kind, reserved: int, m: Id) {
    var had := Row(t, p);
    && Wrote(t, u, p, Stock(had.quantity - q, reserved, had.blocked),
             m, Movement(p, kind, q, had.quantity, had.quantity - q))
    && Drew(t, u, p, q, m)
  }

  lemma DeductGives(t: Tables, p: Id, q: int, kind: Kind, m: Id)
    ensures Gave(t, Deduct(t, p, q, kind, m), p, q, kind, Row(t, p).reserved, m)
  {
    hide Drawing;
    hide Drawn;
  }

  /** An issue is accepted when stock that is neither reserved nor blocked covers it. */
  lemma IssueWrites(t: Tables, p: Id, q: int, m: Id)
    ensures Issue(t, p, q, m).Ok? <==>
            && q > 0 && p in t.products && m !in t.movements
            && q <= Row(t, p).quantity - Row(t, p).reserved - Row(t, p).blocked
    ensures match Issue(t, p, q, m)
            case Ok(u) => Gave(t, u, p, q, TransferOut, Row(t, p).reserved, m)
            case Err(_) => true
  {
    hide Deduct;
    hide Gave;
    hide Row;
    DeductGives(t, p, q, TransferOut, m);
  }

  lemma WriteOffWrites(t: Tables, p: Id, q: int, m: Id)
    ensures WriteOff(t, p, q, m).Ok? <==>
            && q > 0 && p in t.products && m !in t.movements
            && q <= Row(t, p).quantity - Row(t, p).reserved - Row(t, p).blocked
    ensures match WriteOff(t, p, q, m)
            case Ok(u) => Gave(t, u, p, q, Writeoff, Row(t, p).reserved, m)
            case Err(_) => true
  {
    hide Deduct;
    hide Gave;
    hide Row;
    DeductGives(t, p, q, Writeoff, m);
  }

  /** A sale takes from what is reserved, blocked stock or not. */
  lemma SaleWrites(t: Tables, p: Id, q: int, m: Id)
    ensures var outcome, had := Sell(t, p, q, m), Row(t, p);
            && (outcome.Ok? <==> q > 0 && p in t.products && q <= had.reserved && m !in t.movements)
            && (outcome.Ok? ==> Gave(t, outcome.value, p, q, Sale, had.reserved - q, m))
  {
    hide Drawing;
    hide Drawn;
  }

  // ── Correcting ────────────────────────────────────────────────────────────────────────

  /** An adjustment to `target` units is accepted when that covers what is reserved. A surplus comes
      in as a lot without a date, at the given cost or none; a shortage goes out in FEFO order; and
      no difference still leaves a movement of one unit on record. */
  lemma AdjustmentWrites(t: Tables, p: Id, target: int, cost: Option<int>, k: Keys)
    requires p in t.products && FreshKeys(t, k) && (cost.Some? ==> cost.value >= 0)
    ensures var outcome, had := Adjust(t, p, target, cost, k), Row(t, p);
            && (outcome.Ok? <==> target >= 0 && target >= had.reserved)
            && (outcome.Ok? ==> Row(outcome.value, p) == had.(quantity := target))
            && (outcome.Ok? && target > had.quantity ==>
                  Brought(t, outcome.value, p, target - had.quantity, Adjustment,
                          if cost.Some? then cost.value else 0, None, k))
            && (outcome.Ok? && target < had.quantity ==>
                  Gave(t, outcome.value, p, had.quantity - target, Adjustment, had.reserved, k.movement))
            && (outcome.Ok? && target == had.quantity ==>
                  && Wrote(t, outcome.value, p, had, k.movement, Movement(p, Adjustment, 1, target, target))
                  && outcome.value.batches == t.batches && outcome.value.consumptions == t.consumptions)
  {
    var had := Row(t, p);
    DeductGives(t, p, had.quantity - target, Adjustment, k.movement);
    hide Drawing;
    hide Drawn;
    hide Drew;
    if target > had.quantity {
      LotBrings(t, p, target - had.quantity, Adjustment, if cost.Some? then cost.value else 0, None, k);
    }
  }

  /** A receipt can be corrected down to what was consumed of it, to another product only while
      nothing was, and while its stock row covers what is reserved. */
  lemma ReceiptEditAccepted(t: Tables, m: Id, lot: Id, p: Id, q: int, cost: int, expiry: Option<int>)
    requires Inv(t) && m in t.movements && t.movements[m].kind.Purchase? && BroughtBy(t, lot, m)
    ensures var mv, b := t.movements[m], t.batches[lot];
            EditPurchase(t, m, p, q, cost, expiry).Ok? <==>
            && p in t.products && q > 0 && cost >= 0
            && q >= b.received - b.remaining
            && (p != mv.product ==> b.received == b.remaining)
            && Row(t, mv.product).quantity - mv.quantity + (if p == mv.product then q else 0)
               >= Row(t, mv.product).reserved
  {
    assert LotOf(t, m) == lot;
    assert LotRow(t, lot);
    InvRow(t, t.movements[m].product);
    hide EditLot;
    hide OnHand;
    hide Weigh;
  }

  /** The batch then shows the corrected product, quantity, cost and date, less what was consumed;
      the movement shows product and quantity; the stock moves with them. */
  lemma ReceiptEditWrites(t: Tables, m: Id, lot: Id, p: Id, q: int, cost: int, expiry: Option<int>, u: Tables)
    requires Inv(t) && m in t.movements && BroughtBy(t, lot, m)
    requires EditPurchase(t, m, p, q, cost, expiry) == Ok(u)
    ensures var mv, b := t.movements[m], t.batches[lot];
            && u.products == t.products && u.consumptions == t.consumptions
            && lot in u.batches && u.batches - {lot} == t.batches - {lot}
            && u.batches[lot] == Batch(p, q, q - (b.received - b.remaining), cost, b.receivedAt, b.createdAt, expiry,
                                       Some(m))
            && m in u.movements && u.movements - {m} == t.movements - {m}
            && u.movements[m] == Movement(p, mv.kind, q, mv.previous, mv.previous + q)
            && forall o: Id ::
                 Row(u, o) == Row(t, o).(quantity := Row(t, o).quantity - (if o == mv.product then mv.quantity else 0)
                                                     + (if o == p then q else 0))
  {
    assert LotOf(t, m) == lot;
    assert LotRow(t, lot);
    hide Inv;
    hide OnHand;
    hide Weigh;
  }

  /** An edited write-off keeps its product and is accepted when unreserved stock, with the write-off
      taken back, covers the new quantity. */
  lemma WriteOffEditWrites(t: Tables, m: Id, p: Id, q: int)
    requires m in t.movements
    ensures var outcome, mv, had := EditWriteoff(t, m, p, q), t.movements[m], Row(t, p);
            && (outcome.Ok? <==> p == mv.product && q > 0 && q <= had.quantity + mv.quantity - had.reserved)
            && (outcome.Ok? ==>
                  Wrote(t, outcome.value, p, had.(quantity := had.quantity + mv.quantity - q),
                        m, Movement(p, Writeoff, q, had.quantity + mv.quantity, had.quantity + mv.quantity - q)))
  {
    hide Drawing;
    hide Drawn;
    hide Restored;
    hide Without;
  }

  /** An edit needs a date that is not past, even for a write-off, which ignores it; only receipts
      and write-offs can be edited. */
  lemma EditDispatches(t: Tables, today: int, m: Id, p: Id, q: int, cost: int, expiry: Option<int>)
    ensures var outcome := EditMovement(t, today, m, p, q, cost, expiry);
            && (outcome.Ok? ==>
                  && expiry.Some? && expiry.value >= today && m in t.movements
                  && t.movements[m].kind in {Purchase, Writeoff})
            && (expiry.Some? && expiry.value >= today && m in t.movements && t.movements[m].kind == Purchase ==>
                  outcome == EditPurchase(t, m, p, q, cost, expiry))
            && (expiry.Some? && expiry.value >= today && m in t.movements && t.movements[m].kind == Writeoff ==>
                  outcome == EditWriteoff(t, m, p, q))
  {
    hide EditPurchase;
    hide EditWriteoff;
  }

  /** Reserving and blocking set one column each, within the row's checks. */
  lemma HoldsWrite(t: Tables, p: Id, n: int, reserve: bool)
    requires Row(t, p).Ok()
    ensures var outcome := Apply(t, if reserve then OpReserve(p, n) else OpBlock(p, n));
            && (outcome.Ok? <==> p in t.products && n >= 0 && (reserve ==> n <= Row(t, p).quantity))
            && (outcome.Ok? ==>
                  && outcome.value == t.(stock := outcome.value.stock)
                  && (forall o: Id :: o != p ==> Row(outcome.value, o) == Row(t, o))
                  && Row(outcome.value, p) == if reserve then Row(t, p).(reserved := n) else Row(t, p).(blocked := n))
  {
  }
}
