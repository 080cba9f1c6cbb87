/** Editing a write-off, at once or after anything that left the product's batches untouched. */
module StockTheorems {
  import opened Basics
  import opened Totals
  import opened Fefo
  import opened StockTables
  import opened StockMoves
  import opened StockService

  // ── Editing a write-off ───────────────────────────────────────────────────────────────

  /** Editing a write-off straight after making it is writing off the new quantity in the first
      place, except that the edit may use blocked stock and the write-off may not. */
  lemma EditIsFirstWriteoff(t: Tables, first: Tables, p: Id, q1: int, q2: int, m: Id)
    requires Inv(t) && WriteOff(t, p, q1, m) == Ok(first)
    ensures m in first.movements
    ensures EditWriteoff(first, m, p, q2) == WriteOff(t, p, q2, m)
       <==> !(Row(t, p).Available() < q2 <= Row(t, p).quantity - Row(t, p).reserved)
  {
    hide Deduct;
    hide Undo;
    hide Inv;
    hide Row;
    InvRow(t, p);
    UndoDeduct(t, p, q1, Writeoff, m);
    DeductMovement(t, p, q1, Writeoff, m);
  }

  lemma DeductMovement(t: Tables, p: Id, q: int, kind: Kind, m: Id)
    ensures m in Deduct(t, p, q, kind, m).movements
    ensures Deduct(t, p, q, kind, m).movements[m].product == p
  {
  }

  /** The batches of `p`, its stock quantity and what movement `m` took are in `u` what they are in
      `t`; reservations and blocks may differ. */
  ghost predicate SameSlice(t: Tables, u: Tables, p: Id, m: Id) {
    && Row(u, p).quantity == Row(t, p).quantity
    && SameLots(t.batches, u.batches, p)
    && m in t.movements && m in u.movements && u.movements[m] == t.movements[m]
    && forall id: Id :: Weigh(u.consumptions, Given(id, m)) == Weigh(t.consumptions, Given(id, m))
  }

  ghost predicate SameLots(a: Batches, b: Batches, p: Id) {
    && Lots(a, p) == Lots(b, p)
    && forall id :: id in Lots(a, p) ==> b[id] == a[id]
  }

  /** What a batch gives depends on its own product's batches only. */
  lemma TakeIsLocal(a: Batches, b: Batches, p: Id, q: int, id: Id)
    requires SameLots(a, b, p)
    ensures Take(a, p, q, id) == Take(b, p, q, id)
  {
    if id in Lots(a, p) {
      assert id in Lots(b, p);
      assert Front(a, id) == Front(b, id) by {
        forall k
          ensures k in Front(a, id) <==> k in Front(b, id)
        {
          assert k in Lots(a, p) <==> k in Lots(b, p);
        }
      }
      TotalSame(Front(a, id), Rem(a), Rem(b));
    } else {
      assert id !in Lots(b, p);
    }
  }

  lemma DrawnIsLocal(a: Batches, b: Batches, p: Id, q: int)
    requires SameLots(a, b, p)
    ensures SameLots(Drawn(a, p, q), Drawn(b, p, q), p)
  {
    assert Lots(Drawn(a, p, q), p) == Lots(a, p);
    assert Lots(Drawn(b, p, q), p) == Lots(b, p);
    forall id | id in Lots(a, p)
      ensures Drawn(a, p, q)[id] == Drawn(b, p, q)[id]
    {
      TakeIsLocal(a, b, p, q, id);
    }
  }

  lemma RestoredIsLocal(t: Tables, u: Tables, p: Id, m: Id)
    requires SameSlice(t, u, p, m)
    ensures SameLots(Restored(t, m), Restored(u, m), p)
  {
    assert Lots(Restored(t, m), p) == Lots(t.batches, p);
    assert Lots(Restored(u, m), p) == Lots(u.batches, p);
  }

  /** Operations that name neither product `p` nor a movement of it. */
  ghost predicate Elsewhere(t: Tables, op: Op, p: Id) {
    match op
    case OpReceive(_, line, _) => line.product != p
    case OpReceiveBatch(_, lines, _) => forall i :: 0 <= i < |lines| ==> lines[i].product != p
    case OpIssue(o, _, _) => o != p
    case OpReturn(o, _, _, _) => o != p
    case OpWriteOff(o, _, _) => o != p
    case OpAdjust(o, _, _, _) => o != p
    case OpEdit(_, m, o, _, _, _) => o != p && (m in t.movements ==> t.movements[m].product != p)
    case OpSell(o, _, _) => o != p
    case OpReserve(o, _) => o != p
    case OpBlock(o, _) => o != p
  }

  /** Operations that leave the batches of `p` untouched: those that name other products, and those
      on `p` that only reserve, release, block, confirm its quantity or are refused. */
  ghost predicate Spares(t: Tables, op: Op, p: Id) {
    || Elsewhere(t, op, p)
    || op.OpReserve? || op.OpBlock?
    || (op.OpAdjust? && op.target == Row(t, op.p).quantity)
    || Apply(t, op).Err?
  }

  ghost predicate AllSpare(t: Tables, ops: seq<Op>, p: Id) {
    ops != [] ==> AllSpare(t, ops[..|ops| - 1], p) && Spares(Run(t, ops[..|ops| - 1]), ops[|ops| - 1], p)
  }

  lemma AddLotElsewhere(t: Tables, o: Id, q: int, kind: Kind, x: Id, lot: Id,
                        cost: int, expiry: Option<int>, at: int, created: int, p: Id, m: Id)
    requires m in t.movements && o != p && x !in t.movements && lot !in t.batches
    ensures SameSlice(t, AddLot(t, o, q, kind, x, lot, cost, expiry, at, created), p, m)
  {
    var u := AddLot(t, o, q, kind, x, lot, cost, expiry, at, created);
    assert Lots(u.batches, p) == Lots(t.batches, p);
  }

  lemma DeductElsewhere(t: Tables, o: Id, q: int, kind: Kind, x: Id, p: Id, m: Id)
    requires m in t.movements && o != p && x !in t.movements
    ensures SameSlice(t, Deduct(t, o, q, kind, x), p, m)
  {
    var u := Deduct(t, o, q, kind, x);
    assert Lots(u.batches, p) == Lots(t.batches, p);
    RecordsFrom(t.batches, TakeOf(t.batches, o, q), x, FefoOrder(t.batches, o));
    forall id: Id
      ensures Weigh(u.consumptions, Given(id, m)) == Weigh(t.consumptions, Given(id, m))
    {
      WeighAppend(t.consumptions, Drawing(t.batches, o, q, x), Given(id, m));
      WeighZero(Drawing(t.batches, o, q, x), Given(id, m));
    }
  }

  lemma {:induction false} WithoutGiven(cs: seq<Consumption>, x: Id, id: Id, m: Id)
    requires x != m
    ensures Weigh(Without(cs, x), Given(id, m)) == Weigh(cs, Given(id, m))
    decreases |cs|
  {
    if cs != [] {
      var front, last := cs[..|cs| - 1], cs[|cs| - 1];
      WithoutGiven(front, x, id, m);
      var kept := if last.movement == x then [] else [last];
      WeighAppend(Without(front, x), kept, Given(id, m));
      assert kept != [] ==> kept[..0] == [];
    }
  }

  lemma UndoElsewhere(t: Tables, x: Id, p: Id, m: Id)
    requires Inv(t) && m in t.movements && x in t.movements && x != m && t.movements[x].product != p
    ensures SameSlice(t, Undo(t, x), p, m)
  {
    var u := Undo(t, x);
    assert Lots(u.batches, p) == Lots(t.batches, p);
    forall id | id in Lots(t.batches, p)
      ensures u.batches[id] == t.batches[id]
    {
      forall c | c in t.consumptions
        ensures Given(id, x)(c) == 0
      {
        assert ConsumptionRow(t, c);
      }
      WeighZero(t.consumptions, Given(id, x));
    }
    forall id: Id
      ensures Weigh(u.consumptions, Given(id, m)) == Weigh(t.consumptions, Given(id, m))
    {
      WithoutGiven(t.consumptions, x, id, m);
    }
  }

  lemma EditLotElsewhere(t: Tables, x: Id, lot: Id, o: Id, q: int, cost: int, expiry: Option<int>, p: Id, m: Id)
    requires x in t.movements && lot in t.batches && m in t.movements && x != m
    requires t.movements[x].product != p && o != p && t.batches[lot].product != p
    ensures SameSlice(t, EditLot(t, x, lot, o, q, cost, expiry), p, m)
  {
    assert Lots(EditLot(t, x, lot, o, q, cost, expiry).batches, p) == Lots(t.batches, p);
  }

  lemma SliceTrans(t: Tables, u: Tables, v: Tables, p: Id, m: Id)
    requires SameSlice(t, u, p, m) && SameSlice(u, v, p, m)
    ensures SameSlice(t, v, p, m)
  {
  }

  lemma {:induction false} LinesElsewhere(t: Tables, lines: seq<Receipt>, keys: seq<Keys>, p: Id, m: Id)
    requires |lines| == |keys| && m in t.movements
    requires forall i :: 0 <= i < |lines| ==> lines[i].product != p
    requires ReceiveLines(t, lines, keys).Ok?
    ensures SameSlice(t, ReceiveLines(t, lines, keys).value, p, m)
    decreases |lines|
  {
    hide SameSlice;
    if lines != [] {
      var n := |lines| - 1;
      LinesElsewhere(t, lines[..n], keys[..n], p, m);
      var u := ReceiveLines(t, lines[..n], keys[..n]).value;
      var line, k := lines[n], keys[n];
      SliceMovement(t, u, p, m);
      AddLotElsewhere(u, line.product, line.quantity, Purchase, k.movement, k.lot,
                      line.unitCost, line.expiry, k.at, k.created, p, m);
      SliceTrans(t, u, ReceiveLines(t, lines, keys).value, p, m);
    } else {
      SliceSelf(t, p, m);
    }
  }

  lemma SliceSelf(t: Tables, p: Id, m: Id)
    requires m in t.movements
    ensures SameSlice(t, t, p, m)
  {
  }

  lemma SliceMovement(t: Tables, u: Tables, p: Id, m: Id)
    requires SameSlice(t, u, p, m)
    ensures m in t.movements && m in u.movements && u.movements[m] == t.movements[m]
  {
  }

  lemma EditElsewhere(t: Tables, op: Op, p: Id, m: Id)
    requires Inv(t) && m in t.movements && t.movements[m].product == p
    requires op.OpEdit? && Elsewhere(t, op, p) && Apply(t, op).Ok?
    ensures SameSlice(t, Apply(t, op).value, p, m)
  {
    hide SameSlice;
    hide Deduct;
    hide Undo;
    hide EditLot;
    var x := op.m;
    if t.movements[x].kind.Purchase? {
      var lot := LotOf(t, x);
      assert LotRow(t, lot);
      EditLotElsewhere(t, x, lot, op.p, op.q, op.cost, op.expiry, p, m);
    } else {
      var undone := Undo(t, x);
      UndoElsewhere(t, x, p, m);
      SliceMovement(t, undone, p, m);
      UndoDropsMovement(t, x);
      DeductElsewhere(undone, op.p, op.q, Writeoff, x, p, m);
      SliceTrans(t, undone, Apply(t, op).value, p, m);
    }
  }

  lemma UndoDropsMovement(t: Tables, x: Id)
    requires x in t.movements
    ensures x !in Undo(t, x).movements
  {
  }

  lemma RowElsewhere(t: Tables, u: Tables, o: Id, row: Stock, p: Id, m: Id)
    requires m in t.movements && u == t.(stock := t.stock[o := row])
    requires o == p ==> row.quantity == Row(t, p).quantity
    ensures SameSlice(t, u, p, m)
  {
  }

  lemma AdjustDownElsewhere(t: Tables, op: Op, p: Id, m: Id)
    requires m in t.movements && op.OpAdjust? && op.p != p && Apply(t, op).Ok? && op.target < Row(t, op.p).quantity
    ensures SameSlice(t, Apply(t, op).value, p, m)
  {
    hide SameSlice;
    hide Deduct;
    DeductElsewhere(t, op.p, Row(t, op.p).quantity - op.target, Adjustment, op.k.movement, p, m);
  }

  lemma AdjustElsewhere(t: Tables, op: Op, p: Id, m: Id)
    requires m in t.movements && op.OpAdjust? && op.p != p && Apply(t, op).Ok?
    ensures SameSlice(t, Apply(t, op).value, p, m)
  {
    var row := Row(t, op.p);
    if op.target > row.quantity {
      hide SameSlice;
      AddLotElsewhere(t, op.p, op.target - row.quantity, Adjustment, op.k.movement, op.k.lot,
                      if op.unitCost.Some? then op.unitCost.value else 0, None, op.k.at, op.k.created, p, m);
    } else if op.target < row.quantity {
      AdjustDownElsewhere(t, op, p, m);
    }
  }

  lemma SellElsewhere(t: Tables, op: Op, p: Id, m: Id)
    requires m in t.movements && op.OpSell? && op.p != p && Apply(t, op).Ok?
    ensures SameSlice(t, Apply(t, op).value, p, m)
  {
    hide SameSlice;
    hide Deduct;
    var row := Row(t, op.p);
    var released := t.(stock := t.stock[op.p := row.(reserved := row.reserved - op.q)]);
    RowElsewhere(t, released, op.p, row.(reserved := row.reserved - op.q), p, m);
    DeductElsewhere(released, op.p, op.q, Sale, op.m, p, m);
    SliceTrans(t, released, Apply(t, op).value, p, m);
  }

  lemma StepElsewhere(t: Tables, op: Op, p: Id, m: Id)
    requires Inv(t) && m in t.movements && t.movements[m].product == p && Elsewhere(t, op, p)
    ensures SameSlice(t, Step(t, op), p, m)
  {
    hide SameSlice;
    hide Deduct;
    hide Inv;
    hide Row;
    if Apply(t, op).Err? {
      SliceSelf(t, p, m);
    } else {
      match op
      case OpReceive(_, line, k) =>
        AddLotElsewhere(t, line.product, line.quantity, Purchase, k.movement, k.lot,
                        line.unitCost, line.expiry, k.at, k.created, p, m);
      case OpReceiveBatch(_, lines, keys) => LinesElsewhere(t, lines, keys, p, m);
      case OpIssue(o, q, x) => DeductElsewhere(t, o, q, TransferOut, x, p, m);
      case OpReturn(o, q, cost, k) =>
        AddLotElsewhere(t, o, q, TransferIn, k.movement, k.lot, cost, None, k.at, k.created, p, m);
      case OpWriteOff(o, q, x) => DeductElsewhere(t, o, q, Writeoff, x, p, m);
      case OpAdjust(_, _, _, _) => AdjustElsewhere(t, op, p, m);
      case OpEdit(_, _, _, _, _, _) => EditElsewhere(t, op, p, m);
      case OpSell(_, _, _) => SellElsewhere(t, op, p, m);
      case OpReserve(o, r) => RowElsewhere(t, Step(t, op), o, Row(t, o).(reserved := r), p, m);
      case OpBlock(o, b) => RowElsewhere(t, Step(t, op), o, Row(t, o).(blocked := b), p, m);
    }
  }

  lemma NoteSpares(t: Tables, o: Id, x: Id, p: Id, m: Id)
    requires m in t.movements && x !in t.movements
    ensures SameSlice(t, Note(t, o, x), p, m)
  {
    assert Lots(Note(t, o, x).batches, p) == Lots(t.batches, p);
  }

  lemma StepSpares(t: Tables, op: Op, p: Id, m: Id)
    requires Inv(t) && m in t.movements && t.movements[m].product == p && Spares(t, op, p)
    ensures SameSlice(t, Step(t, op), p, m)
  {
    hide SameSlice;
    hide Inv;
    if Apply(t, op).Err? {
      SliceSelf(t, p, m);
    } else if Elsewhere(t, op, p) {
      StepElsewhere(t, op, p, m);
    } else {
      match op
      case OpReserve(o, r) => RowElsewhere(t, Step(t, op), o, Row(t, o).(reserved := r), p, m);
      case OpBlock(o, b) => RowElsewhere(t, Step(t, op), o, Row(t, o).(blocked := b), p, m);
      case OpAdjust(o, _, _, k) => NoteSpares(t, o, k.movement, p, m);
    }
  }

  /** No run of such operations changes the product's quantity, its batches or what `m` took. */
  lemma {:induction false} RunSpares(t: Tables, ops: seq<Op>, p: Id, m: Id)
    requires Inv(t) && m in t.movements && t.movements[m].product == p && AllSpare(t, ops, p)
    ensures SameSlice(t, Run(t, ops), p, m)
    decreases |ops|
  {
    hide SameSlice;
    hide Spares;
    if ops == [] {
      SliceSelf(t, p, m);
    } else {
      var n := |ops| - 1;
      RunSpares(t, ops[..n], p, m);
      RunKeepsLedgers(t, ops[..n]);
      var u := Run(t, ops[..n]);
      SliceMovement(t, u, p, m);
      StepSpares(u, ops[n], p, m);
      SliceTrans(t, u, Run(t, ops), p, m);
    }
  }

  /** A write-off of `q1` edited to `q2` while the product's batches and the write-off's records are
      what they were: the edit goes through exactly when `q2` fits the restored quantity less what is
      reserved by then, and leaves the quantity and the batches a write-off of `q2` would have left in
      the first place. */
  lemma UntouchedEdit(t: Tables, first: Tables, later: Tables, p: Id, q1: int, q2: int, m: Id)
    requires Inv(t) && WriteOff(t, p, q1, m) == Ok(first) && SameSlice(first, later, p, m)
    ensures m in later.movements
    ensures var edit := EditWriteoff(later, m, p, q2);
            && (edit.Ok? <==> 0 < q2 <= Row(t, p).quantity - Row(later, p).reserved)
            && (edit.Ok? ==>
                  && Row(edit.value, p) == Row(later, p).(quantity := Row(t, p).quantity - q2)
                  && SameLots(Deduct(t, p, q2, Writeoff, m).batches, edit.value.batches, p))
  {
    hide Deduct;
    hide Undo;
    hide Inv;
    hide SameSlice;
    InvRow(t, p);
    DeductMovement(t, p, q1, Writeoff, m);
    SliceMovement(first, later, p, m);
    UndoDeduct(t, p, q1, Writeoff, m);
    LateEdit(first, later, p, q2, m);
  }

  lemma LateEdit(t: Tables, u: Tables, p: Id, q: int, m: Id)
    requires SameSlice(t, u, p, m) && t.movements[m].product == p
    ensures Row(Undo(u, m), p) == Row(u, p).(quantity := Row(Undo(t, m), p).quantity)
    ensures Row(Deduct(Undo(u, m), p, q, Writeoff, m), p)
         == Row(u, p).(quantity := Row(Undo(t, m), p).quantity - q)
    ensures SameLots(Deduct(Undo(t, m), p, q, Writeoff, m).batches, Deduct(Undo(u, m), p, q, Writeoff, m).batches, p)
  {
    hide Restored;
    hide Drawn;
    hide Drawing;
    RestoredIsLocal(t, u, p, m);
    DrawnIsLocal(Restored(t, m), Restored(u, m), p, q);
  }

  /** So it is after any run that left the product's batches untouched, orders reserving and
      releasing the product included. */
  lemma LateEditIsFirstWriteoff(t: Tables, first: Tables, later: Tables, p: Id, q1: int, q2: int, m: Id, ops: seq<Op>)
    requires Inv(t) && WriteOff(t, p, q1, m) == Ok(first)
    requires AllSpare(first, ops, p) && later == Run(first, ops)
    ensures m in later.movements
    ensures var edit := EditWriteoff(later, m, p, q2);
            && (edit.Ok? <==> 0 < q2 <= Row(t, p).quantity - Row(later, p).reserved)
            && (edit.Ok? ==>
                  && Row(edit.value, p) == Row(later, p).(quantity := Row(t, p).quantity - q2)
                  && SameLots(Deduct(t, p, q2, Writeoff, m).batches, edit.value.batches, p))
  {
    hide Deduct;
    hide Inv;
    hide Row;
    hide SameSlice;
    hide SameLots;
    hide EditWriteoff;
    InvRow(t, p);
    WriteOffKeeps(t, p, q1, m);
    DeductMovement(t, p, q1, Writeoff, m);
    RunSpares(first, ops, p, m);
    UntouchedEdit(t, first, later, p, q1, q2, m);
  }
}
