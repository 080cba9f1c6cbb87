/** The transactions of inventory/service.go as functions from tables to tables or an error,
    and what holds over every run of them. The class in Warehouse.dfy performs the same
    transactions row by row. */
module StockService {
  import opened Basics
  import opened Totals
  import opened Fefo
  import opened StockTables
  import opened StockMoves

  datatype Error =
    | BadExpiry | BadQuantity | Insufficient | NotFound | NotEditable
    | BelowConsumed | LotConsumed | NegativeStock | ProductFixed
    | Constraint   // a CHECK, a foreign key or a primary key refused a row
    | Exhausted    // "FEFO batches exhausted"

  type Outcome = Result<Tables, Error>

  /** One line of a goods receipt; `expiry` is None when the date is missing or malformed. */
  datatype Receipt = Receipt(product: Id, quantity: int, unitCost: int, expiry: Option<int>)

  /** The UUIDs and clock readings a transaction draws. */
  datatype Keys = Keys(movement: Id, lot: Id, at: int, created: int)

  predicate ExpiryOk(expiry: Option<int>, today: int) { expiry.Some? && expiry.value >= today }

  /** The rows of a new lot pass the schema's constraints. */
  predicate LotFits(t: Tables, p: Id, q: int, cost: int, k: Keys) {
    p in t.products && q > 0 && cost >= 0 && k.movement !in t.movements && k.lot !in t.batches
  }

  function Bring(t: Tables, p: Id, q: int, kind: Kind, cost: int, expiry: Option<int>, k: Keys): Outcome {
    if LotFits(t, p, q, cost, k)
    then Ok(AddLot(t, p, q, kind, k.movement, k.lot, cost, expiry, k.at, k.created))
    else Err(Constraint)
  }

  function ReceiveLine(t: Tables, line: Receipt, k: Keys): Outcome {
    Bring(t, line.product, line.quantity, Purchase, line.unitCost, line.expiry, k)
  }

  function Receive(t: Tables, today: int, line: Receipt, k: Keys): Outcome {
    if ExpiryOk(line.expiry, today) then ReceiveLine(t, line, k) else Err(BadExpiry)
  }

  /** Lines one after the other; the first refused line refuses the invoice. */
  function ReceiveLines(t: Tables, lines: seq<Receipt>, keys: seq<Keys>): Outcome
    requires |lines| == |keys|
  {
    if lines == [] then Ok(t)
    else
      var n := |lines| - 1;
      match ReceiveLines(t, lines[..n], keys[..n])
      case Ok(u) => ReceiveLine(u, lines[n], keys[n])
      case Err(e) => Err(e)
  }

  function ReceiveBatch(t: Tables, today: int, lines: seq<Receipt>, keys: seq<Keys>): Outcome
    requires |lines| == |keys|
  {
    if exists i :: 0 <= i < |lines| && !ExpiryOk(lines[i].expiry, today) then Err(BadExpiry)
    else ReceiveLines(t, lines, keys)
  }

  ghost function Issue(t: Tables, p: Id, q: int, m: Id): Outcome {
    if q <= 0 then Err(BadQuantity)
    else if p !in t.products then Err(Constraint)
    else if Row(t, p).Available() < q then Err(Insufficient)
    else if m in t.movements then Err(Constraint)
    else Ok(Deduct(t, p, q, TransferOut, m))
  }

  /** Cents paid for what was drawn. */
  function CostOf(drawn: seq<Consumption>): int {
    if drawn == [] then 0
    else CostOf(drawn[..|drawn| - 1]) + drawn[|drawn| - 1].quantity * drawn[|drawn| - 1].unitCost
  }

  /** A numeric(12,2) column rounds to the nearest cent, halves up for costs that are not negative. */
  function ToCents(cost: real): int { (cost + 0.5).Floor }

  function ReturnExternal(t: Tables, p: Id, q: int, cost: int, k: Keys): Outcome {
    if q <= 0 then Err(BadQuantity) else Bring(t, p, q, TransferIn, cost, None, k)
  }

  ghost function WriteOff(t: Tables, p: Id, q: int, m: Id): Outcome {
    if p !in t.products then Err(Constraint)
    else if Row(t, p).Available() < q then Err(Insufficient)
    else if q <= 0 || m in t.movements then Err(Constraint)
    else Ok(Deduct(t, p, q, Writeoff, m))
  }

  /** orders/service.go, deductInventory: a delivered order releases its reservation and consumes. */
  ghost function Sell(t: Tables, p: Id, q: int, m: Id): Outcome {
    var row := Row(t, p);
    if p !in t.products then Err(Constraint)
    else if row.reserved < q then Err(Insufficient)
    else if q <= 0 || m in t.movements then Err(Constraint)
    else Ok(Deduct(t.(stock := t.stock[p := row.(reserved := row.reserved - q)]), p, q, Sale, m))
  }

  /** An adjustment that changes nothing still records a movement, of quantity 1. */
  function Note(t: Tables, p: Id, m: Id): Tables {
    var row := Row(t, p);
    t.(stock := t.stock[p := row],
       movements := t.movements[m := Movement(p, Adjustment, 1, row.quantity, row.quantity)])
  }

  ghost function Adjust(t: Tables, p: Id, target: int, cost: Option<int>, k: Keys): Outcome {
    var row := Row(t, p);
    if p !in t.products then Err(Constraint)
    else if target < 0 then Err(BadQuantity)
    else if target < row.reserved || k.movement in t.movements then Err(Constraint)
    else if target > row.quantity then
      Bring(t, p, target - row.quantity, Adjustment, if cost.Some? then cost.value else 0, None, k)
    else if target < row.quantity then Ok(Deduct(t, p, row.quantity - target, Adjustment, k.movement))
    else Ok(Note(t, p, k.movement))
  }

  /** The batch a purchase brought. */
  ghost function LotOf(t: Tables, m: Id): (lot: Id)
    requires exists id :: BroughtBy(t, id, m)
    ensures BroughtBy(t, lot, m)
  {
    var lot :| BroughtBy(t, lot, m);
    lot
  }

  /** Why the stock rows of an edited receipt cannot be written, if they cannot. */
  function StockRefusal(t: Tables, from: Id, was: int, p: Id, q: int): Option<Error> {
    var row := Row(t, from);
    var left := row.quantity - was + (if p == from then q else 0);
    if left < 0 then Some(NegativeStock)
    else if !row.(quantity := left).Ok() || p !in t.products then Some(Constraint)
    else None
  }

  ghost function EditPurchase(t: Tables, m: Id, p: Id, q: int, cost: int, expiry: Option<int>): Outcome
    requires m in t.movements
  {
    if !(exists id :: BroughtBy(t, id, m)) then Err(NotFound)
    else
      var lot := LotOf(t, m);
      var mv, b := t.movements[m], t.batches[lot];
      if q < b.received - b.remaining then Err(BelowConsumed)
      else if p != mv.product && b.received > b.remaining then Err(LotConsumed)
      else
        match StockRefusal(t, mv.product, mv.quantity, p, q)
        case Some(e) => Err(e)
        case None => if q <= 0 || cost < 0 then Err(Constraint) else Ok(EditLot(t, m, lot, p, q, cost, expiry))
  }

  ghost function EditWriteoff(t: Tables, m: Id, p: Id, q: int): Outcome
    requires m in t.movements
  {
    if p != t.movements[m].product then Err(ProductFixed)
    else
      var undone := Undo(t, m);
      if Row(undone, p).quantity - Row(undone, p).reserved < q then Err(Insufficient)
      else if q <= 0 then Err(Constraint)
      else Ok(Deduct(undone, p, q, Writeoff, m))
  }

  /** UpdateReceiving. The expiry date is checked before the movement is read, so a write-off
      edit needs a valid one too. */
  ghost function EditMovement(t: Tables, today: int, m: Id, p: Id, q: int, cost: int, expiry: Option<int>): Outcome {
    if !ExpiryOk(expiry, today) then Err(BadExpiry)
    else if m !in t.movements then Err(NotFound)
    else
      match t.movements[m].kind
      case Purchase => EditPurchase(t, m, p, q, cost, expiry)
      case Writeoff => EditWriteoff(t, m, p, q)
      case _ => Err(NotEditable)
  }

  function SetRow(t: Tables, p: Id, row: Stock): Outcome {
    if p in t.products && row.Ok() then Ok(t.(stock := t.stock[p := row])) else Err(Constraint)
  }

  datatype Op =
    | OpReceive(today: int, line: Receipt, k: Keys)
    | OpReceiveBatch(today: int, lines: seq<Receipt>, keys: seq<Keys>)
    | OpIssue(p: Id, q: int, m: Id)
    | OpReturn(p: Id, q: int, cost: int, k: Keys)
    | OpWriteOff(p: Id, q: int, m: Id)
    | OpAdjust(p: Id, target: int, unitCost: Option<int>, k: Keys)
    | OpEdit(today: int, m: Id, p: Id, q: int, cost: int, expiry: Option<int>)
    | OpSell(p: Id, q: int, m: Id)
    | OpReserve(p: Id, reserved: int)
    | OpBlock(p: Id, blocked: int)

  ghost function Apply(t: Tables, op: Op): Outcome {
    match op
    case OpReceive(today, line, k) => Receive(t, today, line, k)
    case OpReceiveBatch(today, lines, keys) =>
      if |lines| == |keys| then ReceiveBatch(t, today, lines, keys) else Err(Constraint)
    case OpIssue(p, q, m) => Issue(t, p, q, m)
    case OpReturn(p, q, cost, k) => ReturnExternal(t, p, q, cost, k)
    case OpWriteOff(p, q, m) => WriteOff(t, p, q, m)
    case OpAdjust(p, target, cost, k) => Adjust(t, p, target, cost, k)
    case OpEdit(today, m, p, q, cost, expiry) => EditMovement(t, today, m, p, q, cost, expiry)
    case OpSell(p, q, m) => Sell(t, p, q, m)
    case OpReserve(p, r) => SetRow(t, p, Row(t, p).(reserved := r))
    case OpBlock(p, b) => SetRow(t, p, Row(t, p).(blocked := b))
  }

  /** A refused transaction rolls back. */
  ghost function Step(t: Tables, op: Op): Tables {
    match Apply(t, op)
    case Ok(u) => u
    case Err(_) => t
  }

  ghost function Run(t: Tables, ops: seq<Op>): Tables {
    if ops == [] then t else Step(Run(t, ops[..|ops| - 1]), ops[|ops| - 1])
  }

  // ── Every transaction keeps the tables in agreement ───────────────────────────────────

  /** Tables agree, and no product's stock moved without a movement saying so. */
  ghost predicate Follows(t: Tables, u: Tables) {
    Inv(u) && forall p: Id :: Drift(u, p) == Drift(t, p)
  }

  lemma BringKeeps(t: Tables, p: Id, q: int, kind: Kind, cost: int, expiry: Option<int>, k: Keys)
    requires Inv(t) && kind in {Purchase, TransferIn, Adjustment} && LotFits(t, p, q, cost, k)
    ensures Follows(t, Bring(t, p, q, kind, cost, expiry, k).value)
  {
    hide Inv;
    hide AddLot;
    AddLotKeeps(t, Bring(t, p, q, kind, cost, expiry, k).value,
                p, q, kind, k.movement, k.lot, cost, expiry, k.at, k.created);
  }

  lemma {:induction false} ReceiveLinesKeeps(t: Tables, lines: seq<Receipt>, keys: seq<Keys>)
    requires Inv(t) && |lines| == |keys|
    ensures ReceiveLines(t, lines, keys).Ok? ==> Follows(t, ReceiveLines(t, lines, keys).value)
    decreases |lines|
  {
    hide Inv;
    hide AddLot;
    hide OnHand;
    hide MovementSum;
    if lines != [] {
      var n := |lines| - 1;
      ReceiveLinesKeeps(t, lines[..n], keys[..n]);
      var before := ReceiveLines(t, lines[..n], keys[..n]);
      if before.Ok? && ReceiveLine(before.value, lines[n], keys[n]).Ok? {
        var line := lines[n];
        BringKeeps(before.value, line.product, line.quantity, Purchase, line.unitCost, line.expiry, keys[n]);
      }
    }
  }

  /** Rewriting reservation or block of a stock row leaves the ledgers alone. */
  lemma SetRowKeeps(t: Tables, u: Tables, p: Id, row: Stock)
    requires Inv(t) && p in t.products && row.Ok() && row.quantity == Row(t, p).quantity
    requires u == t.(stock := t.stock[p := row])
    ensures Follows(t, u)
  {
    hide OnHand;
    hide Weigh;
    hide Total;
    assert forall o: Id :: Row(u, o).quantity == Row(t, o).quantity;
    assert forall o: Id :: Drift(u, o) == Drift(t, o);
    forall id | id in u.batches
      ensures LotRow(u, id)
    {
      assert LotRow(t, id);
    }
    forall m | m in u.movements
      ensures MovementRow(u, m)
    {
      assert MovementRow(t, m);
    }
    SameBrought(t, u);
    SameRecords(t, u);
  }

  lemma SellKeeps(t: Tables, p: Id, q: int, m: Id)
    requires Inv(t) && Sell(t, p, q, m).Ok?
    ensures Follows(t, Sell(t, p, q, m).value)
  {
    InvRow(t, p);
    hide Inv;
    hide Deduct;
    hide OnHand;
    hide MovementSum;
    var row := Row(t, p);
    var released := t.(stock := t.stock[p := row.(reserved := row.reserved - q)]);
    SetRowKeeps(t, released, p, row.(reserved := row.reserved - q));
    DeductKeeps(released, Sell(t, p, q, m).value, p, q, Sale, m);
  }

  lemma NoteRows(t: Tables, u: Tables, p: Id, m: Id)
    requires StockRows(t) && LotRows(t) && ConsumptionRows(t) && MovementRows(t)
    requires p in t.products && m !in t.movements && u == Note(t, p, m)
    ensures LotRows(u) && MovementRows(u)
  {
    RecordFacts(t);
    WeighZero(t.consumptions, ByMovement(m));
    forall id | id in u.batches
      ensures LotRow(u, id)
    {
      assert LotRow(t, id);
    }
    forall x | x in u.movements
      ensures MovementRow(u, x)
    {
      assert x != m ==> MovementRow(t, x);
    }
  }

  lemma NoteKeeps(t: Tables, u: Tables, p: Id, m: Id)
    requires Inv(t) && p in t.products && m !in t.movements && u == Note(t, p, m)
    ensures Follows(t, u)
  {
    var mv := Movement(p, Adjustment, 1, Row(t, p).quantity, Row(t, p).quantity);
    assert forall o: Id :: Row(u, o) == Row(t, o);
    forall o: Id
      ensures Drift(u, o) == Drift(t, o)
    {
      DriftKept(t, u, m, mv, o);
    }
    NoteRows(t, u, p, m);
    SameBrought(t, u);
    SameRecords(t, u);
    assert Row(t, p).Ok();
  }

  lemma DeductFollows(t: Tables, u: Tables, p: Id, q: int, kind: Kind, m: Id)
    requires Inv(t) && 0 < q <= Row(t, p).quantity - Row(t, p).reserved
    requires Draws(kind) && m !in t.movements && u == Deduct(t, p, q, kind, m)
    ensures Follows(t, u)
  {
    hide Inv;
    DeductKeeps(t, u, p, q, kind, m);
  }

  lemma AdjustUpKeeps(t: Tables, p: Id, target: int, cost: Option<int>, k: Keys)
    requires Inv(t) && target > Row(t, p).quantity && Adjust(t, p, target, cost, k).Ok?
    ensures Follows(t, Adjust(t, p, target, cost, k).value)
  {
    hide Inv;
    hide Follows;
    hide AddLot;
    hide OnHand;
    BringKeeps(t, p, target - Row(t, p).quantity, Adjustment, if cost.Some? then cost.value else 0, None, k);
  }

  lemma AdjustDownKeeps(t: Tables, p: Id, target: int, cost: Option<int>, k: Keys)
    requires Inv(t) && target < Row(t, p).quantity && Adjust(t, p, target, cost, k).Ok?
    ensures Follows(t, Adjust(t, p, target, cost, k).value)
  {
    hide Inv;
    hide Follows;
    hide Deduct;
    hide OnHand;
    DeductFollows(t, Adjust(t, p, target, cost, k).value, p, Row(t, p).quantity - target, Adjustment, k.movement);
  }

  lemma AdjustKeeps(t: Tables, p: Id, target: int, cost: Option<int>, k: Keys)
    requires Inv(t) && Adjust(t, p, target, cost, k).Ok?
    ensures Follows(t, Adjust(t, p, target, cost, k).value)
  {
    hide Inv;
    hide Follows;
    hide Deduct;
    hide AddLot;
    hide OnHand;
    if target > Row(t, p).quantity {
      AdjustUpKeeps(t, p, target, cost, k);
    } else if target < Row(t, p).quantity {
      AdjustDownKeeps(t, p, target, cost, k);
    } else {
      NoteKeeps(t, Note(t, p, k.movement), p, k.movement);
    }
  }

  lemma EditWriteoffKeeps(t: Tables, m: Id, p: Id, q: int)
    requires Inv(t) && m in t.movements && t.movements[m].kind.Writeoff? && EditWriteoff(t, m, p, q).Ok?
    ensures Follows(t, EditWriteoff(t, m, p, q).value)
  {
    hide Inv;
    hide Deduct;
    hide OnHand;
    var undone := Undo(t, m);
    UndoKeeps(t, undone, m);
    DeductKeeps(undone, EditWriteoff(t, m, p, q).value, p, q, Writeoff, m);
  }

  lemma EditPurchaseKeeps(t: Tables, m: Id, p: Id, q: int, cost: int, expiry: Option<int>)
    requires Inv(t) && m in t.movements && t.movements[m].kind.Purchase? && EditPurchase(t, m, p, q, cost, expiry).Ok?
    ensures Follows(t, EditPurchase(t, m, p, q, cost, expiry).value)
  {
    var lot := LotOf(t, m);
    assert LotRow(t, lot);
    EditLotKeeps(t, EditPurchase(t, m, p, q, cost, expiry).value, m, lot, p, q, cost, expiry);
  }

  lemma IssueKeeps(t: Tables, p: Id, q: int, m: Id)
    requires Inv(t) && Issue(t, p, q, m).Ok?
    ensures Follows(t, Issue(t, p, q, m).value)
  {
    InvRow(t, p);
    hide Inv;
    hide Deduct;
    hide OnHand;
    hide Follows;
    DeductFollows(t, Issue(t, p, q, m).value, p, q, TransferOut, m);
  }

  lemma WriteOffKeeps(t: Tables, p: Id, q: int, m: Id)
    requires Inv(t) && WriteOff(t, p, q, m).Ok?
    ensures Follows(t, WriteOff(t, p, q, m).value)
  {
    InvRow(t, p);
    hide Inv;
    hide Deduct;
    hide OnHand;
    hide Follows;
    DeductFollows(t, WriteOff(t, p, q, m).value, p, q, Writeoff, m);
  }

  lemma EditKeeps(t: Tables, today: int, m: Id, p: Id, q: int, cost: int, expiry: Option<int>)
    requires Inv(t) && EditMovement(t, today, m, p, q, cost, expiry).Ok?
    ensures Follows(t, EditMovement(t, today, m, p, q, cost, expiry).value)
  {
    if t.movements[m].kind.Purchase? {
      EditPurchaseKeeps(t, m, p, q, cost, expiry);
    } else {
      EditWriteoffKeeps(t, m, p, q);
    }
  }

  lemma StepKeeps(t: Tables, op: Op)
    requires Inv(t)
    ensures Follows(t, Step(t, op))
  {
    var after := Apply(t, op);
    if after.Ok? {
      match op
      case OpReceive(today, line, k) =>
        BringKeeps(t, line.product, line.quantity, Purchase, line.unitCost, line.expiry, k);
      case OpReceiveBatch(today, lines, keys) => ReceiveLinesKeeps(t, lines, keys);
      case OpIssue(p, q, m) => IssueKeeps(t, p, q, m);
      case OpReturn(p, q, cost, k) => BringKeeps(t, p, q, TransferIn, cost, None, k);
      case OpWriteOff(p, q, m) => WriteOffKeeps(t, p, q, m);
      case OpAdjust(p, target, cost, k) => AdjustKeeps(t, p, target, cost, k);
      case OpEdit(today, m, p, q, cost, expiry) => EditKeeps(t, today, m, p, q, cost, expiry);
      case OpSell(p, q, m) => SellKeeps(t, p, q, m);
      case OpReserve(p, r) => SetRowKeeps(t, after.value, p, Row(t, p).(reserved := r));
      case OpBlock(p, b) => SetRowKeeps(t, after.value, p, Row(t, p).(blocked := b));
    }
  }

  /** Over every run of every operation the stock row, the batches, the consumption records and
      the movement ledger stay in agreement, and what the ledger leaves unexplained never changes. */
  lemma {:induction false} RunKeepsLedgers(t: Tables, ops: seq<Op>)
    requires Inv(t)
    ensures Follows(t, Run(t, ops))
    decreases |ops|
  {
    if ops != [] {
      RunKeepsLedgers(t, ops[..|ops| - 1]);
      StepKeeps(Run(t, ops[..|ops| - 1]), ops[|ops| - 1]);
    }
  }

  function Opening(products: set<Id>): Tables {
    Tables(products, map[], map[], map[], [])
  }

  lemma OpeningAgrees(products: set<Id>)
    ensures Inv(Opening(products))
    ensures forall p: Id :: Drift(Opening(products), p) == 0
  {
    var t := Opening(products);
    forall p: Id
      ensures OnHand(t.batches, p) == 0 && MovementSum(t, p) == 0
    {
      TotalZero(Lots(t.batches, p), Rem(t.batches));
      TotalZero(t.movements.Keys, SignedOf(t.movements, p));
    }
  }

  /** Starting from empty tables, the three ledgers of a product always show one number. */
  lemma ThreeLedgersAgree(products: set<Id>, ops: seq<Op>, p: Id)
    ensures Row(Run(Opening(products), ops), p).quantity == OnHand(Run(Opening(products), ops).batches, p)
    ensures Row(Run(Opening(products), ops), p).quantity == MovementSum(Run(Opening(products), ops), p)
  {
    OpeningAgrees(products);
    RunKeepsLedgers(Opening(products), ops);
    assert Drift(Run(Opening(products), ops), p) == Drift(Opening(products), p);
  }

  /** InventoryIntegrityCheck: the stock rows that differ from what their batches hold. */
  ghost function Discrepancies(t: Tables): set<Id> {
    set p | p in t.stock && t.stock[p].quantity != OnHand(t.batches, p)
  }

  /** The audit finds nothing in any reachable state. */
  lemma AuditFindsNothing(products: set<Id>, ops: seq<Op>)
    ensures Discrepancies(Run(Opening(products), ops)) == {}
  {
    hide Run;
    forall p: Id
      ensures p !in Discrepancies(Run(Opening(products), ops))
    {
      ThreeLedgersAgree(products, ops, p);
    }
  }

  /** Every batch accounts for every unit it gave away, in every run. */
  lemma LotsAccountForStock(products: set<Id>, ops: seq<Op>, lot: Id)
    requires lot in Run(Opening(products), ops).batches
    ensures var t := Run(Opening(products), ops);
            && 0 <= t.batches[lot].remaining <= t.batches[lot].received
            && t.batches[lot].received - t.batches[lot].remaining == Weigh(t.consumptions, FromBatch(lot))
            && forall c :: c in t.consumptions && c.batch == lot ==>
                 && c.quantity > 0 && c.movement in t.movements
                 && t.movements[c.movement].product == t.batches[lot].product
  {
    var t0 := Opening(products);
    OpeningAgrees(products);
    RunKeepsLedgers(t0, ops);
    var t := Run(t0, ops);
    assert LotRow(t, lot);
    forall c | c in t.consumptions && c.batch == lot
      ensures c.quantity > 0 && c.movement in t.movements && t.movements[c.movement].product == t.batches[lot].product
    {
      assert ConsumptionRow(t, c);
    }
  }
}
