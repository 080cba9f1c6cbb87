/** The inventory tables, the column constraints of the schema, and what it means for the
    stock row, the batches, the consumption records and the movement ledger to agree
    (inventory/model.go). */
module StockTables {
  import opened Basics
  import opened Totals
  import opened Fefo

  datatype Kind = Purchase | Sale | Return | TransferIn | TransferOut | Adjustment | Writeoff

  /** inventory_movements; its key is the movement id. */
  datatype Movement = Movement(product: Id, kind: Kind, quantity: int, previous: int, next: int)

  /** inventory_batch_consumptions. */
  datatype Consumption = Consumption(batch: Id, movement: Id, quantity: int, unitCost: int)

  /** inventory; its key is the product id. */
  datatype Stock = Stock(quantity: int, reserved: int, blocked: int) {
    /** The generated column available_quantity. */
    function Available(): int { quantity - reserved - blocked }

    /** CHECK (quantity >= 0), (reserved_quantity >= 0), (blocked_quantity >= 0) and
        inventory_available_nonnegative, which does not know about blocked stock. */
    predicate Ok() { quantity >= 0 && reserved >= 0 && blocked >= 0 && quantity >= reserved }
  }

  datatype Tables = Tables(
    products: set<Id>,
    stock: map<Id, Stock>,
    movements: map<Id, Movement>,
    batches: Batches,
    consumptions: seq<Consumption>)

  /** The inventory row of `p`, or the one GetOrCreateForUpdate would insert. */
  function Row(t: Tables, p: Id): Stock {
    if p in t.stock then t.stock[p] else Stock(0, 0, 0)
  }

  // ── Sums over consumption records ─────────────────────────────────────────────────────

  ghost function Weigh(cs: seq<Consumption>, w: Consumption -> int): int {
    if cs == [] then 0 else Weigh(cs[..|cs| - 1], w) + w(cs[|cs| - 1])
  }

  ghost function FromBatch(id: Id): Consumption -> int {
    (c: Consumption) => if c.batch == id then c.quantity else 0
  }

  ghost function ByMovement(m: Id): Consumption -> int {
    (c: Consumption) => if c.movement == m then c.quantity else 0
  }

  /** Units movement `m` took from batch `id`. */
  ghost function Given(id: Id, m: Id): Consumption -> int {
    (c: Consumption) => if c.batch == id && c.movement == m then c.quantity else 0
  }

  /** DELETE ... WHERE movement_id = m. */
  function Without(cs: seq<Consumption>, m: Id): seq<Consumption> {
    if cs == [] then []
    else
      var last := cs[|cs| - 1];
      Without(cs[..|cs| - 1], m) + (if last.movement == m then [] else [last])
  }

  lemma {:induction false} WeighAppend(a: seq<Consumption>, b: seq<Consumption>, w: Consumption -> int)
    ensures Weigh(a + b, w) == Weigh(a, w) + Weigh(b, w)
    decreases |b|
  {
    if b == [] {
      assert a + b == a;
    } else {
      assert (a + b)[..|a + b| - 1] == a + b[..|b| - 1];
      WeighAppend(a, b[..|b| - 1], w);
    }
  }

  lemma {:induction false} WeighNonneg(cs: seq<Consumption>, w: Consumption -> int)
    requires forall c :: c in cs ==> w(c) >= 0
    ensures Weigh(cs, w) >= 0
    ensures forall c :: c in cs ==> w(c) <= Weigh(cs, w)
    decreases |cs|
  {
    if cs != [] {
      WeighNonneg(cs[..|cs| - 1], w);
      forall c | c in cs
        ensures w(c) <= Weigh(cs, w)
      {
        assert c in cs[..|cs| - 1] || c == cs[|cs| - 1];
      }
    }
  }

  lemma {:induction false} WeighZero(cs: seq<Consumption>, w: Consumption -> int)
    requires forall c :: c in cs ==> w(c) == 0
    ensures Weigh(cs, w) == 0
    decreases |cs|
  {
    if cs != [] {
      WeighZero(cs[..|cs| - 1], w);
    }
  }

  /** Deleting a movement's records removes exactly its share of every sum. */
  lemma {:induction false} WithoutWeigh(cs: seq<Consumption>, m: Id, id: Id, other: Id)
    ensures Weigh(Without(cs, m), FromBatch(id)) == Weigh(cs, FromBatch(id)) - Weigh(cs, Given(id, m))
    ensures Weigh(Without(cs, m), ByMovement(other)) == if other == m then 0 else Weigh(cs, ByMovement(other))
    decreases |cs|
  {
    if cs != [] {
      var front, last := cs[..|cs| - 1], cs[|cs| - 1];
      WithoutWeigh(front, m, id, other);
      var kept := if last.movement == m then [] else [last];
      WeighAppend(Without(front, m), kept, FromBatch(id));
      WeighAppend(Without(front, m), kept, ByMovement(other));
    }
  }

  lemma {:induction false} WithoutMember(cs: seq<Consumption>, m: Id)
    ensures forall c :: c in Without(cs, m) <==> c in cs && c.movement != m
    decreases |cs|
  {
    if cs != [] {
      WithoutMember(cs[..|cs| - 1], m);
      assert cs == cs[..|cs| - 1] + [cs[|cs| - 1]];
    }
  }

  lemma {:induction false} WithoutNone(cs: seq<Consumption>, m: Id)
    requires forall c :: c in cs ==> c.movement != m
    ensures Without(cs, m) == cs
    decreases |cs|
  {
    if cs != [] {
      var front, last := cs[..|cs| - 1], cs[|cs| - 1];
      WithoutNone(front, m);
      assert last in cs && cs == front + [last];
    }
  }

  lemma {:induction false} WithoutAppend(a: seq<Consumption>, b: seq<Consumption>, m: Id)
    requires forall c :: c in b ==> c.movement == m
    ensures Without(a + b, m) == Without(a, m)
    decreases |b|
  {
    if b == [] {
      assert a + b == a;
    } else {
      assert (a + b)[..|a + b| - 1] == a + b[..|b| - 1];
      WithoutAppend(a, b[..|b| - 1], m);
    }
  }

  // ── The records one consumption inserts ───────────────────────────────────────────────

  /** SELECT ... WHERE product_id = p AND remaining_quantity > 0. */
  function Candidates(batches: Batches, p: Id): set<Id> {
    set k | k in batches && batches[k].product == p && batches[k].remaining > 0
  }

  /** The candidates in the order the query returns them. */
  function FefoOrder(batches: Batches, p: Id): seq<Id> {
    Sorted(batches, Candidates(batches, p))
  }

  /** Every other row of `s` comes before `last`. */
  predicate IsLast(batches: Batches, s: set<Id>, last: Id)
    requires s <= batches.Keys && last in s
  {
    forall k :: k in s && k != last ==> Before(k, batches[k], last, batches[last])
  }

  lemma HasLast(batches: Batches, s: set<Id>)
    requires s != {} && s <= batches.Keys
    ensures exists last :: last in s && IsLast(batches, s, last)
    ensures forall x, y :: x in s && y in s && IsLast(batches, s, x) && IsLast(batches, s, y) ==> x == y
  {
    var last := LastOf(batches, s);
    assert IsLast(batches, s, last);
    forall x, y | x in s && y in s && IsLast(batches, s, x) && IsLast(batches, s, y)
      ensures x == y
    {
      assert x != y ==> Before(x, batches[x], y, batches[y]) && Before(y, batches[y], x, batches[x]);
    }
  }

  function Sorted(batches: Batches, s: set<Id>): seq<Id>
    requires s <= batches.Keys
    decreases |s|
  {
    if s == {} then []
    else
      HasLast(batches, s);
      var last :| last in s && IsLast(batches, s, last);
      Sorted(batches, s - {last}) + [last]
  }

  /** The record of what batch `id` gives, if anything. */
  ghost function RecordOf(batches: Batches, take: Id -> int, m: Id, id: Id): seq<Consumption> {
    if take(id) > 0 && id in batches then [Consumption(id, m, take(id), batches[id].unitCost)] else []
  }

  /** One record per batch that gives something, in order. */
  ghost function Records(batches: Batches, take: Id -> int, m: Id, order: seq<Id>): seq<Consumption> {
    if order == [] then []
    else
      Records(batches, take, m, order[..|order| - 1]) + RecordOf(batches, take, m, order[|order| - 1])
  }

  ghost function Members(order: seq<Id>): set<Id> { set id | id in order }

  ghost predicate Distinct(order: seq<Id>) {
    forall i, j :: 0 <= i < j < |order| ==> order[i] != order[j]
  }

  lemma SortedUnfolds(batches: Batches, s: set<Id>) returns (last: Id)
    requires s != {} && s <= batches.Keys
    ensures last in s && forall k :: k in s && k != last ==> Before(k, batches[k], last, batches[last])
    ensures Sorted(batches, s) == Sorted(batches, s - {last}) + [last]
  {
    HasLast(batches, s);
    last := Sorted(batches, s)[|Sorted(batches, s)| - 1];
  }

  lemma {:induction false} SortedMembers(batches: Batches, s: set<Id>)
    requires s <= batches.Keys
    ensures Members(Sorted(batches, s)) == s
    ensures Distinct(Sorted(batches, s))
    decreases |s|
  {
    if s != {} {
      var last := SortedUnfolds(batches, s);
      SortedMembers(batches, s - {last});
      var front := Sorted(batches, s - {last});
      assert forall i :: 0 <= i < |front| ==> front[i] in Members(front);
      assert Members(front + [last]) == Members(front) + {last};
    }
  }

  /** What precedes position `i` of the sorted list is what sorts before it. */
  lemma {:induction false} SortedFront(batches: Batches, s: set<Id>, i: nat)
    requires s <= batches.Keys && i < |Sorted(batches, s)|
    ensures Sorted(batches, s)[i] in s
    ensures Members(Sorted(batches, s)[..i])
         == set k | k in s && Before(k, batches[k], Sorted(batches, s)[i], batches[Sorted(batches, s)[i]])
    decreases |s|
  {
    var order := Sorted(batches, s);
    assert s != {};
    var last := SortedUnfolds(batches, s);
    var front := Sorted(batches, s - {last});
    SortedMembers(batches, s - {last});
    if i < |front| {
      SortedFront(batches, s - {last}, i);
      assert order[..i] == front[..i];
      assert front[i] in Members(front);
    } else {
      assert order[..i] == front;
    }
  }

  /** Every record is a positive draw on a listed batch, at that batch's cost. */
  lemma {:induction false} RecordsFrom(batches: Batches, take: Id -> int, m: Id, order: seq<Id>)
    ensures forall c :: c in Records(batches, take, m, order) ==>
              && c.movement == m && c.quantity == take(c.batch) > 0 && c.batch in batches && c.batch in order
              && c.unitCost == batches[c.batch].unitCost
    decreases |order|
  {
    if order != [] {
      RecordsFrom(batches, take, m, order[..|order| - 1]);
    }
  }

  lemma WeighOne(batches: Batches, take: Id -> int, m: Id, id: Id, w: Consumption -> int)
    ensures Weigh(RecordOf(batches, take, m, id), w)
         == if take(id) > 0 && id in batches then w(Consumption(id, m, take(id), batches[id].unitCost)) else 0
  {
    var one := RecordOf(batches, take, m, id);
    if one != [] {
      assert one[..0] == [];
    }
  }

  /** The records say who gave what: each listed batch its share. */
  lemma {:induction false} RecordsByBatch(batches: Batches, take: Id -> int, m: Id, order: seq<Id>, id: Id)
    requires Distinct(order) && take(id) >= 0 && (id !in batches ==> take(id) == 0)
    ensures Weigh(Records(batches, take, m, order), FromBatch(id)) == if id in order then take(id) else 0
    decreases |order|
  {
    if order != [] {
      var front, last := order[..|order| - 1], order[|order| - 1];
      RecordsByBatch(batches, take, m, front, id);
      WeighAppend(Records(batches, take, m, front), RecordOf(batches, take, m, last), FromBatch(id));
      WeighOne(batches, take, m, last, FromBatch(id));
      assert order == front + [last];
    }
  }

  /** ... and the movement the sum of the shares. */
  lemma {:induction false} RecordsByMovement(batches: Batches, take: Id -> int, m: Id, order: seq<Id>)
    requires Distinct(order)
    requires forall id :: id in order ==> take(id) >= 0 && id in batches
    ensures Weigh(Records(batches, take, m, order), ByMovement(m)) == Total(Members(order), take)
    decreases |order|
  {
    if order != [] {
      var front, last := order[..|order| - 1], order[|order| - 1];
      RecordsByMovement(batches, take, m, front);
      WeighAppend(Records(batches, take, m, front), RecordOf(batches, take, m, last), ByMovement(m));
      WeighOne(batches, take, m, last, ByMovement(m));
      assert order == front + [last];
      assert Members(order) == Members(front) + {last};
      TotalAdd(Members(front), take, last);
    }
  }

  /** What ConsumeFEFO inserts. */
  ghost function Drawing(batches: Batches, p: Id, qty: int, m: Id): seq<Consumption> {
    Records(batches, TakeOf(batches, p, qty), m, FefoOrder(batches, p))
  }

  lemma OrderIsCandidates(batches: Batches, p: Id)
    ensures Distinct(FefoOrder(batches, p))
    ensures forall id: Id :: id in FefoOrder(batches, p) <==> id in Candidates(batches, p)
    ensures Members(FefoOrder(batches, p)) == Candidates(batches, p)
  {
    SortedMembers(batches, Candidates(batches, p));
    assert forall id: Id :: id in FefoOrder(batches, p) <==> id in Members(FefoOrder(batches, p));
  }

  /** Along the list dates never decrease, those without a date come last, and equal dates go by
      receipt, then by creation, then by key. */
  lemma OrderByColumns(batches: Batches, p: Id, i: nat, j: nat)
    requires i < j < |FefoOrder(batches, p)|
    ensures var order := FefoOrder(batches, p);
            && order[i] in batches && order[j] in batches
            && var a, b := batches[order[i]], batches[order[j]];
               && (b.expiry.Some? ==> a.expiry.Some? && a.expiry.value <= b.expiry.value)
               && (a.expiry == b.expiry ==> a.receivedAt <= b.receivedAt)
               && (a.expiry == b.expiry && a.receivedAt == b.receivedAt ==> a.createdAt <= b.createdAt)
               && (a.expiry == b.expiry && a.receivedAt == b.receivedAt && a.createdAt == b.createdAt ==>
                     order[i] < order[j])
  {
    var s := Candidates(batches, p);
    var order := Sorted(batches, s);
    SortedFront(batches, s, i);
    SortedFront(batches, s, j);
    assert order[..j][i] == order[i];
    assert order[i] in Members(order[..j]);
  }

  lemma DrawingByBatch(batches: Batches, p: Id, qty: int, m: Id, id: Id)
    requires Stocked(batches) && qty >= 0
    ensures Weigh(Drawing(batches, p, qty, m), FromBatch(id)) == Take(batches, p, qty, id)
  {
    var take := TakeOf(batches, p, qty);
    OrderIsCandidates(batches, p);
    TakeBounds(batches, p, qty);
    RecordsByBatch(batches, take, m, FefoOrder(batches, p), id);
    assert id !in Candidates(batches, p) ==> take(id) == 0;
  }

  lemma DrawingByMovement(batches: Batches, p: Id, qty: int, m: Id)
    requires Stocked(batches) && 0 <= qty <= OnHand(batches, p)
    ensures Weigh(Drawing(batches, p, qty, m), ByMovement(m)) == qty
  {
    var take := TakeOf(batches, p, qty);
    OrderIsCandidates(batches, p);
    TakeBounds(batches, p, qty);
    RecordsByMovement(batches, take, m, FefoOrder(batches, p));
    TotalSupport(Candidates(batches, p), Lots(batches, p), take);
  }

  lemma DrawingWeigh(batches: Batches, p: Id, qty: int, m: Id)
    requires Stocked(batches) && 0 <= qty <= OnHand(batches, p)
    ensures forall id :: Weigh(Drawing(batches, p, qty, m), FromBatch(id)) == Take(batches, p, qty, id)
    ensures Weigh(Drawing(batches, p, qty, m), ByMovement(m)) == qty
    ensures forall c :: c in Drawing(batches, p, qty, m) ==> c.movement == m
  {
    forall id: Id
      ensures Weigh(Drawing(batches, p, qty, m), FromBatch(id)) == Take(batches, p, qty, id)
    {
      DrawingByBatch(batches, p, qty, m, id);
    }
    DrawingByMovement(batches, p, qty, m);
    RecordsFrom(batches, TakeOf(batches, p, qty), m, FefoOrder(batches, p));
  }

  // ── Agreement ─────────────────────────────────────────────────────────────────────────

  /** The movement ledger's effect on the stock row. */
  function Signed(m: Movement): int {
    match m.kind
    case Purchase | TransferIn | Return => m.quantity
    case Sale | TransferOut | Writeoff => -m.quantity
    case Adjustment => m.next - m.previous
  }

  /** Units a movement consumed from batches. */
  function Drawdown(m: Movement): int {
    match m.kind
    case Sale | TransferOut | Writeoff => m.quantity
    case Adjustment => Max(0, m.previous - m.next)
    case _ => 0
  }

  predicate Draws(k: Kind) { k.Sale? || k.TransferOut? || k.Writeoff? || k.Adjustment? }

  ghost function SignedOf(movements: map<Id, Movement>, p: Id): Id -> int {
    (id: Id) => if id in movements && movements[id].product == p then Signed(movements[id]) else 0
  }

  /** Signed sum of product `p`'s movements. */
  ghost function MovementSum(t: Tables, p: Id): int {
    Total(t.movements.Keys, SignedOf(t.movements, p))
  }

  /** Stock the movement ledger does not explain; zero when the ledger starts empty. */
  ghost function Drift(t: Tables, p: Id): int {
    Row(t, p).quantity - MovementSum(t, p)
  }

  ghost predicate StockRows(t: Tables) {
    forall p :: p in t.stock ==> p in t.products && t.stock[p].Ok()
  }

  /** InventoryIntegrityCheck reports no row. */
  ghost predicate LotsAgree(t: Tables) {
    forall p: Id :: Row(t, p).quantity == OnHand(t.batches, p)
  }

  /** Every batch accounts for what it gave, and knows the movement that brought it. */
  ghost predicate LotRow(t: Tables, id: Id)
    requires id in t.batches
  {
    var b := t.batches[id];
    && b.product in t.stock
    && b.received > 0 && 0 <= b.remaining <= b.received && b.unitCost >= 0
    && b.received - b.remaining == Weigh(t.consumptions, FromBatch(id))
    && (b.movement.Some? ==>
          && b.movement.value in t.movements
          && t.movements[b.movement.value].product == b.product
          && t.movements[b.movement.value].kind in {Purchase, TransferIn, Adjustment}
          && (t.movements[b.movement.value].kind.Purchase? ==>
                t.movements[b.movement.value].quantity == b.received))
  }

  ghost predicate LotRows(t: Tables) {
    forall id {:trigger LotRow(t, id)} :: id in t.batches ==> LotRow(t, id)
  }

  ghost predicate BroughtBy(t: Tables, id: Id, m: Id) {
    id in t.batches && t.batches[id].movement == Some(m)
  }

  /** A movement brings at most one batch; a purchase exactly one. */
  ghost predicate OneLotEach(t: Tables) {
    && (forall i, j, m :: BroughtBy(t, i, m) && BroughtBy(t, j, m) ==> i == j)
    && (forall m :: m in t.movements && t.movements[m].kind.Purchase? ==> exists id :: BroughtBy(t, id, m))
  }

  ghost predicate ConsumptionRow(t: Tables, c: Consumption) {
    && c.quantity > 0 && c.batch in t.batches && c.movement in t.movements
    && t.movements[c.movement].product == t.batches[c.batch].product
    && Draws(t.movements[c.movement].kind)
  }

  ghost predicate ConsumptionRows(t: Tables) {
    forall c {:trigger ConsumptionRow(t, c)} :: c in t.consumptions ==> ConsumptionRow(t, c)
  }

  ghost predicate MovementRow(t: Tables, m: Id)
    requires m in t.movements
  {
    && t.movements[m].quantity > 0 && t.movements[m].previous >= 0 && t.movements[m].next >= 0
    && Weigh(t.consumptions, ByMovement(m)) == Drawdown(t.movements[m])
  }

  ghost predicate MovementRows(t: Tables) {
    forall m {:trigger MovementRow(t, m)} :: m in t.movements ==> MovementRow(t, m)
  }

  /** The four tables agree. */
  ghost predicate Inv(t: Tables) {
    && StockRows(t)
    && LotsAgree(t)
    && LotRows(t)
    && OneLotEach(t)
    && ConsumptionRows(t)
    && MovementRows(t)
  }

  /** What the schema's foreign keys and checks say about every consumption record. */
  lemma RecordFacts(t: Tables)
    requires ConsumptionRows(t)
    ensures forall c :: c in t.consumptions ==> c.quantity > 0 && c.batch in t.batches && c.movement in t.movements
  {
    forall c | c in t.consumptions
      ensures c.quantity > 0 && c.batch in t.batches && c.movement in t.movements
    {
      assert ConsumptionRow(t, c);
    }
  }

  lemma InvStocked(t: Tables)
    requires Inv(t)
    ensures Stocked(t.batches)
  {
    assert forall id :: id in t.batches ==> LotRow(t, id);
  }

  /** The stock row of a product is within its bounds and shows what its batches hold. */
  lemma InvRow(t: Tables, p: Id)
    requires Inv(t)
    ensures Row(t, p).Ok() && Row(t, p).quantity == OnHand(t.batches, p)
    ensures p in t.stock ==> p in t.products
  {
  }

  /** A batch never given to anyone has no consumption record. */
  lemma UntouchedLot(t: Tables, id: Id)
    requires Inv(t) && id in t.batches && t.batches[id].received == t.batches[id].remaining
    ensures forall c :: c in t.consumptions ==> c.batch != id
  {
    assert LotRow(t, id);
    RecordFacts(t);
    WeighNonneg(t.consumptions, FromBatch(id));
    forall c | c in t.consumptions
      ensures c.batch != id
    {
      assert FromBatch(id)(c) <= 0;
    }
  }

  /** One batch cannot hold more than the stock row says. */
  lemma LotWithinStock(t: Tables, id: Id)
    requires Inv(t) && id in t.batches
    ensures t.batches[id].remaining <= Row(t, t.batches[id].product).quantity
  {
    var p := t.batches[id].product;
    assert forall k :: k in t.batches ==> LotRow(t, k);
    TotalNonneg(Lots(t.batches, p), Rem(t.batches));
    assert Rem(t.batches)(id) <= OnHand(t.batches, p);
  }
}
