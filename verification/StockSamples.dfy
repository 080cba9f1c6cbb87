/** Reachable tables at which the conditions on stock theorems fail. */
module StockSamples {
  import opened Basics
  import opened Totals
  import opened Fefo
  import opened StockTables
  import opened StockMoves
  import opened StockService
  import opened StockTheorems
  import opened StockCosts

  lemma RunTwo(t: Tables, one: Op, two: Op)
    ensures Run(t, [one, two]) == Step(Step(t, one), two)
  {
    hide Step;
    assert [one, two][..1] == [one] && [one][..0] == [];
    assert Run(t, [one]) == Step(t, one);
  }

  function Bought(n: Id, q: int, cost: int): Op {
    OpReceive(0, Receipt(0, q, cost, Some(0)), Keys(n, n, n, n))
  }

  lemma BoughtStep(t: Tables, n: Id, q: int, cost: int)
    requires 0 in t.products && n !in t.movements && n !in t.batches && q > 0 && cost >= 0
    ensures Step(t, Bought(n, q, cost)) == AddLot(t, 0, q, Purchase, n, n, cost, Some(0), n, n)
  {
    hide AddLot;
  }

  // ── Blocked stock ─────────────────────────────────────────────────────────────────────

  /** Receive five units and block three of them. */
  const BLOCKED: seq<Op> := [Bought(0, 5, 100), OpBlock(0, 3)]

  lemma BlockedRow(t: Tables)
    requires t == Run(Opening({0}), BLOCKED)
    ensures Inv(t) && t.products == {0} && Row(t, 0) == Stock(5, 0, 3)
    ensures t.movements.Keys == {0} && t.batches.Keys == {0}
  {
    var t0 := Opening({0});
    OpeningAgrees({0});
    RunKeepsLedgers(t0, BLOCKED);
    RunTwo(t0, Bought(0, 5, 100), OpBlock(0, 3));
    hide Run;
    hide Inv;
    BoughtStep(t0, 0, 5, 100);
    hide Bought;
  }

  /** Adjusted down to one unit, free stock is two short. */
  lemma AdjustIgnoresBlocked(t: Tables, k: Keys)
    requires t == Run(Opening({0}), BLOCKED) && k == Keys(1, 1, 1, 1)
    ensures Row(t, 0).Available() >= 0 && Adjust(t, 0, 1, None, k).Ok?
    ensures Row(Adjust(t, 0, 1, None, k).value, 0).Available() == -2
  {
    BlockedRow(t);
    hide Run;
    hide Inv;
    hide Deduct;
    assert Adjust(t, 0, 1, None, k).Ok?;
    AdjustedRow(t, 0, 1, None, k);
  }

  /** Correcting a write-off into the range that only blocked stock covers is accepted and leaves
      free stock short, although writing off as much in the first place is refused. */
  lemma BlockedEdit(t: Tables, first: Tables, p: Id, q1: int, q2: int, m: Id)
    requires Inv(t) && WriteOff(t, p, q1, m) == Ok(first)
    requires Row(t, p).Available() < q2 <= Row(t, p).quantity - Row(t, p).reserved
    ensures WriteOff(t, p, q2, m) == Err(Insufficient)
    ensures m in first.movements && EditWriteoff(first, m, p, q2).Ok?
    ensures Row(EditWriteoff(first, m, p, q2).value, p).Available() == Row(t, p).Available() - q2 < 0
  {
    InvRow(t, p);
    hide Inv;
    hide Row;
    hide Deduct;
    hide Undo;
    UndoDeduct(t, p, q1, Writeoff, m);
    DeductMovement(t, p, q1, Writeoff, m);
    DeductedRow(t, p, q2, Writeoff, m);
  }

  lemma DeductedRow(t: Tables, p: Id, q: int, kind: Kind, m: Id)
    ensures Row(Deduct(t, p, q, kind, m), p) == Row(t, p).(quantity := Row(t, p).quantity - q)
  {
  }

  lemma WriteOffStep(t: Tables, p: Id, q: int, m: Id)
    ensures WriteOff(t, p, q, m).Ok? ==> Step(t, OpWriteOff(p, q, m)) == WriteOff(t, p, q, m).value
  {
    hide WriteOff;
  }

  /** One unit written off and corrected to four. */
  lemma EditIgnoresBlocked(t: Tables, first: Tables)
    requires t == Run(Opening({0}), BLOCKED) && first == Step(t, OpWriteOff(0, 1, 1))
    ensures WriteOff(t, 0, 4, 1) == Err(Insufficient)
    ensures 1 in first.movements && EditWriteoff(first, 1, 0, 4).Ok?
    ensures Row(EditWriteoff(first, 1, 0, 4).value, 0).Available() == -2
  {
    BlockedRow(t);
    assert 1 !in t.movements;
    hide Run;
    hide Inv;
    hide Deduct;
    hide Undo;
    hide Row;
    hide Opening;
    hide EditWriteoff;
    WriteOffStep(t, 0, 1, 1);
    hide Step;
    BlockedEdit(t, first, 0, 1, 4, 1);
  }

  // ── Costs ─────────────────────────────────────────────────────────────────────────────

  /** Two units at one cent and one at two. */
  const MIXED: seq<Op> := [Bought(0, 2, 1), Bought(1, 1, 2)]

  function MixedLots(): Batches {
    map[0 := Batch(0, 2, 2, 1, 0, 0, Some(0), Some(0)), 1 := Batch(0, 1, 1, 2, 1, 1, Some(0), Some(1))]
  }

  function FirstLot(): Tables { AddLot(Opening({0}), 0, 2, Purchase, 0, 0, 1, Some(0), 0, 0) }

  function BothLots(): Tables { AddLot(FirstLot(), 0, 1, Purchase, 1, 1, 2, Some(0), 1, 1) }

  lemma FirstLotFacts()
    ensures FirstLot().products == {0} && Row(FirstLot(), 0) == Stock(2, 0, 0)
    ensures FirstLot().movements.Keys == {0}
    ensures FirstLot().batches == map[0 := Batch(0, 2, 2, 1, 0, 0, Some(0), Some(0))]
  {
  }

  lemma BothLotsFacts()
    ensures BothLots().products == {0} && Row(BothLots(), 0) == Stock(3, 0, 0)
    ensures BothLots().movements.Keys == {0, 1} && BothLots().batches == MixedLots()
  {
    FirstLotFacts();
    hide FirstLot;
  }

  lemma MixedTables(t: Tables)
    requires t == Run(Opening({0}), MIXED)
    ensures Inv(t) && t == BothLots()
  {
    var t0 := Opening({0});
    OpeningAgrees({0});
    RunKeepsLedgers(t0, MIXED);
    RunTwo(t0, Bought(0, 2, 1), Bought(1, 1, 2));
    FirstLotFacts();
    hide Run;
    hide Inv;
    hide Step;
    hide Bought;
    BoughtStep(t0, 0, 2, 1);
    BoughtStep(FirstLot(), 1, 1, 2);
    hide AddLot;
  }

  lemma MixedValue(batches: Batches, gone: Batches)
    requires batches == MixedLots() && gone == Drawn(batches, 0, 3)
    ensures Value(batches, 0) == 4 && Value(gone, 0) == 0
  {
    hide Take;
    hide Total;
    assert Lots(batches, 0) == {0, 1};
    assert Stocked(batches);
    TotalPair<Id>(0, 1, Worth(batches));
    TotalPair<Id>(0, 1, Rem(batches));
    AllGone(batches, gone, 3);
    assert Lots(gone, 0) == {0, 1};
    TotalPair<Id>(0, 1, Worth(gone));
  }

  /** A consumption of everything leaves nothing in any batch. */
  lemma AllGone(batches: Batches, gone: Batches, q: int)
    requires Stocked(batches) && q == OnHand(batches, 0) && gone == Drawn(batches, 0, q)
    ensures forall id :: id in Lots(batches, 0) ==> id in gone && gone[id].remaining == 0
  {
    TakeBounds(batches, 0, 0);
    DrawnOnHand(batches, 0, q, 0);
    assert Lots(gone, 0) == Lots(batches, 0);
    TotalNonneg(Lots(gone, 0), Rem(gone));
  }

  /** All three issued and returned: they cost four cents, a cent and a third each, and come back
      worth three. */
  lemma ReturnLosesACent(t: Tables, out: Tables, back: Tables, k: Keys)
    requires t == Run(Opening({0}), MIXED) && Issue(t, 0, 3, 2) == Ok(out)
    requires ReturnExternal(out, 0, 3, ToCents(IssueCost(t, 0, 3, 2)), k) == Ok(back)
    ensures Value(t.batches, 0) == 4 && Value(back.batches, 0) == 3
  {
    MixedTables(t);
    BothLotsFacts();
    hide Run;
    hide BothLots;
    MixedValue(t.batches, Drawn(t.batches, 0, 3));
    InvStocked(t);
    hide Inv;
    hide Drawn;
    hide Value;
    hide Issue;
    hide ReturnExternal;
    hide Stocked;
    ThreeBack(t, out, back, k);
  }

  lemma ThreeBack(t: Tables, out: Tables, back: Tables, k: Keys)
    requires Stocked(t.batches) && Issue(t, 0, 3, 2) == Ok(out)
    requires ReturnExternal(out, 0, 3, ToCents(IssueCost(t, 0, 3, 2)), k) == Ok(back)
    requires Value(t.batches, 0) == 4 && Value(Drawn(t.batches, 0, 3), 0) == 0
    ensures Value(back.batches, 0) == 3
  {
    hide Drawn;
    hide Value;
    hide Drawing;
    hide CostOf;
    hide ToCents;
    hide Issue;
    hide ReturnExternal;
    hide Stocked;
    DrawnValue(t.batches, 0, 3, 2);
    ThirdOfFour(IssueCost(t, 0, 3, 2));
    ReturnedTables(t, out, back, 0, 3, 2, 1, k);
  }

  lemma ThirdOfFour(c: real)
    requires c == 4 as real / 3 as real
    ensures ToCents(c) == 1
  {
    FloorIs(c + 0.5, 1);
  }

  lemma MixedFacts(t: Tables)
    requires t == Run(Opening({0}), MIXED)
    ensures t.products == {0} && Row(t, 0) == Stock(3, 0, 0)
    ensures 2 !in t.movements && 3 !in t.movements && 3 !in t.batches
  {
    MixedTables(t);
    BothLotsFacts();
  }

  /** Those two steps do happen. */
  lemma MixedCanReturn(t: Tables)
    requires t == Run(Opening({0}), MIXED)
    ensures Issue(t, 0, 3, 2).Ok?
    ensures ReturnExternal(Issue(t, 0, 3, 2).value, 0, 3, 1, Keys(3, 3, 3, 3)).Ok?
  {
    MixedFacts(t);
    hide *;
    var out := Deduct(t, 0, 3, TransferOut, 2);
    CanIssue(t, out);
    DeductedKeys(t, 0, 3, TransferOut, 2);
    CanBringBack(out);
  }

  lemma CanIssue(t: Tables, out: Tables)
    requires t.products == {0} && Row(t, 0) == Stock(3, 0, 0) && 2 !in t.movements
    requires out == Deduct(t, 0, 3, TransferOut, 2)
    ensures Issue(t, 0, 3, 2) == Ok(out)
  {
    hide Row;
    hide Deduct;
  }

  lemma CanBringBack(out: Tables)
    requires out.products == {0} && 3 !in out.movements && 3 !in out.batches
    ensures ReturnExternal(out, 0, 3, 1, Keys(3, 3, 3, 3)).Ok?
  {
    hide Row;
    hide AddLot;
  }

  lemma DeductedKeys(t: Tables, p: Id, q: int, kind: Kind, m: Id)
    ensures var u := Deduct(t, p, q, kind, m);
            u.products == t.products && u.movements.Keys == t.movements.Keys + {m} && u.batches.Keys == t.batches.Keys
  {
  }
}
