/** First-expired-first-out allocation over the batches of one product
    (inventory/repository.go, GetBatchesForFEFO and ConsumeFEFO), stated without any loop:
    what a batch gives depends only on how much stock stands in front of it. */
module Fefo {
  import opened Basics
  import opened Totals

  /** A lot of stock received at one unit cost (in cents). */
  datatype Batch = Batch(
    product: Id,
    received: int,
    remaining: int,
    unitCost: int,
    receivedAt: int,
    createdAt: int,
    expiry: Option<int>,
    movement: Option<Id>)

  type Batches = map<Id, Batch>

  /** ORDER BY expiry_date ASC NULLS LAST, received_at ASC, created_at ASC, id ASC. */
  predicate Before(i: Id, a: Batch, j: Id, b: Batch) {
    if a.expiry != b.expiry then
      a.expiry.Some? && (b.expiry.None? || a.expiry.value < b.expiry.value)
    else if a.receivedAt != b.receivedAt then a.receivedAt < b.receivedAt
    else if a.createdAt != b.createdAt then a.createdAt < b.createdAt
    else i < j
  }

  /** The batches of product `p`. */
  function Lots(batches: Batches, p: Id): set<Id> {
    set k | k in batches && batches[k].product == p
  }

  /** The batches consumed before `id`. */
  function Front(batches: Batches, id: Id): set<Id>
    requires id in batches
  {
    set k | k in batches && batches[k].product == batches[id].product
            && Before(k, batches[k], id, batches[id])
  }

  /** The remaining_quantity column. */
  ghost function Rem(batches: Batches): Id -> int {
    (id: Id) => if id in batches then batches[id].remaining else 0
  }

  /** Units standing in front of batch `id`. */
  ghost function Ahead(batches: Batches, id: Id): int
    requires id in batches
  {
    Total(Front(batches, id), Rem(batches))
  }

  /** Units of product `p` held in batches. */
  ghost function OnHand(batches: Batches, p: Id): int {
    Total(Lots(batches, p), Rem(batches))
  }

  /** What batch `id` gives when `qty` units of `p` are consumed. */
  ghost function Take(batches: Batches, p: Id, qty: int, id: Id): int {
    if id in batches && batches[id].product == p
    then Min(batches[id].remaining, Max(0, qty - Ahead(batches, id)))
    else 0
  }

  ghost function TakeOf(batches: Batches, p: Id, qty: int): Id -> int {
    (id: Id) => Take(batches, p, qty, id)
  }

  /** The batches after `qty` units of `p` were consumed. */
  ghost function Drawn(batches: Batches, p: Id, qty: int): Batches {
    map id | id in batches :: batches[id].(remaining := batches[id].remaining - Take(batches, p, qty, id))
  }

  ghost predicate Stocked(batches: Batches) {
    forall id :: id in batches ==> batches[id].remaining >= 0
  }

  /** A set of batches of `p` closed under "consumed earlier". */
  ghost predicate Segment(batches: Batches, p: Id, s: set<Id>) {
    && s <= Lots(batches, p)
    && forall j, k {:trigger Before(k, batches[k], j, batches[j])} ::
         j in s && k in Lots(batches, p) && Before(k, batches[k], j, batches[j]) ==> k in s
  }

  /** Any nonempty set of batches has one that is consumed last. */
  lemma {:induction false} LastOf(batches: Batches, s: set<Id>) returns (last: Id)
    requires s != {} && s <= batches.Keys
    ensures last in s
    ensures forall k :: k in s && k != last ==> Before(k, batches[k], last, batches[last])
    decreases |s|
  {
    var x :| x in s;
    last := x;
    if s != {x} {
      var y := LastOf(batches, s - {x});
      if Before(x, batches[x], y, batches[y]) {
        last := y;
      }
    }
  }

  /** Without its last batch, a segment is exactly what stands in front of that batch. */
  lemma SegmentPeel(batches: Batches, p: Id, s: set<Id>, last: Id)
    requires Segment(batches, p, s) && last in s
    requires forall k :: k in s && k != last ==> Before(k, batches[k], last, batches[last])
    ensures Segment(batches, p, s - {last})
    ensures s - {last} == Front(batches, last)
  {
  }

  lemma FrontIsSegment(batches: Batches, id: Id)
    requires id in batches
    ensures Segment(batches, batches[id].product, Front(batches, id))
  {
  }

  /** Consuming `qty` units takes min(qty, stock) from every initial segment. */
  lemma {:induction false} SegmentTake(batches: Batches, p: Id, qty: int, s: set<Id>)
    requires Stocked(batches) && qty >= 0
    requires Segment(batches, p, s)
    ensures Total(s, TakeOf(batches, p, qty)) == Min(qty, Total(s, Rem(batches)))
    ensures Total(s, Rem(batches)) >= 0
    decreases |s|
  {
    if s != {} {
      var last := LastOf(batches, s);
      SegmentPeel(batches, p, s, last);
      SegmentTake(batches, p, qty, s - {last});
      TotalSplit(s, TakeOf(batches, p, qty), last);
      TotalSplit(s, Rem(batches), last);
    }
  }

  lemma LotsAreSegment(batches: Batches, p: Id)
    ensures Segment(batches, p, Lots(batches, p))
  {
  }

  /** A consumption never takes more than a batch holds, and takes `qty` in all when there is that much. */
  lemma TakeBounds(batches: Batches, p: Id, qty: int)
    requires Stocked(batches) && qty >= 0
    ensures forall id :: id in batches ==> 0 <= Take(batches, p, qty, id) <= batches[id].remaining
    ensures Total(Lots(batches, p), TakeOf(batches, p, qty)) == Min(qty, OnHand(batches, p))
    ensures OnHand(batches, p) >= 0
  {
    LotsAreSegment(batches, p);
    SegmentTake(batches, p, qty, Lots(batches, p));
  }

  /** Consumption lowers the product's stock by what was asked (or empties it) and
      leaves every other product alone. */
  lemma DrawnOnHand(batches: Batches, p: Id, qty: int, other: Id)
    requires Stocked(batches) && qty >= 0
    ensures Stocked(Drawn(batches, p, qty))
    ensures OnHand(Drawn(batches, p, qty), other)
         == OnHand(batches, other) - (if other == p then Min(qty, OnHand(batches, p)) else 0)
  {
    TakeBounds(batches, p, qty);
    var after := Drawn(batches, p, qty);
    assert Lots(after, other) == Lots(batches, other);
    TotalSum(Lots(batches, other), Rem(after), TakeOf(batches, p, qty), Rem(batches));
    if other != p {
      TotalZero(Lots(batches, other), TakeOf(batches, p, qty));
    }
  }

  /** What stands in front of a batch after a consumption. */
  lemma DrawnAhead(batches: Batches, p: Id, qty: int, id: Id)
    requires Stocked(batches) && qty >= 0
    requires id in batches && batches[id].product == p
    ensures Ahead(Drawn(batches, p, qty), id) == Max(0, Ahead(batches, id) - qty)
    ensures Ahead(batches, id) >= 0
  {
    var after := Drawn(batches, p, qty);
    var front := Front(batches, id);
    assert Front(after, id) == front;
    FrontIsSegment(batches, id);
    SegmentTake(batches, p, qty, front);
    TotalSum(front, Rem(after), TakeOf(batches, p, qty), Rem(batches));
  }

  lemma TakeTwice(batches: Batches, p: Id, a: int, b: int, id: Id)
    requires Stocked(batches) && a >= 0 && b >= 0
    ensures Take(batches, p, a, id) + Take(Drawn(batches, p, a), p, b, id) == Take(batches, p, a + b, id)
  {
    if id in batches && batches[id].product == p {
      DrawnAhead(batches, p, a, id);
    }
  }

  /** Consuming `a` and then `b` leaves the same batches as consuming `a + b` at once. */
  lemma DrawnCompose(batches: Batches, p: Id, a: int, b: int)
    requires Stocked(batches) && a >= 0 && b >= 0
    ensures Drawn(Drawn(batches, p, a), p, b) == Drawn(batches, p, a + b)
  {
    hide Take;
    hide Stocked;
    var once := Drawn(batches, p, a);
    forall id | id in batches
      ensures Drawn(once, p, b)[id] == Drawn(batches, p, a + b)[id]
    {
      TakeTwice(batches, p, a, b, id);
    }
  }

  // ── The order, column by column ───────────────────────────────────────────────────────

  /** A batch gives nothing until every batch before it is empty. */
  lemma ServedInOrder(batches: Batches, p: Id, qty: int, i: Id, j: Id)
    requires Stocked(batches) && qty >= 0 && i in Lots(batches, p) && j in Lots(batches, p)
    requires Before(i, batches[i], j, batches[j]) && Take(batches, p, qty, j) > 0
    ensures Take(batches, p, qty, i) == batches[i].remaining
  {
    var front, take := Front(batches, j), TakeOf(batches, p, qty);
    FrontIsSegment(batches, j);
    SegmentTake(batches, p, qty, front);
    TakeBounds(batches, p, qty);
    hide Take;
    hide Front;
    TotalSplit(front, take, i);
    TotalSplit(front, Rem(batches), i);
    TotalLe(front - {i}, take, Rem(batches));
  }

  /** While a batch gives anything, every batch of the product that expires earlier (one without a
      date expires last) gives all it holds; so does, at equal expiry, one received earlier, then
      one created earlier, then one with a smaller key. */
  lemma FirstExpiredFirst(batches: Batches, p: Id, qty: int, i: Id, j: Id)
    requires Stocked(batches) && qty >= 0 && i in Lots(batches, p) && j in Lots(batches, p)
    requires Take(batches, p, qty, j) > 0
    ensures var a, b, all := batches[i], batches[j], Take(batches, p, qty, i) == batches[i].remaining;
            && (a.expiry.Some? && b.expiry.None? ==> all)
            && (a.expiry.Some? && b.expiry.Some? && a.expiry.value < b.expiry.value ==> all)
            && (a.expiry == b.expiry && a.receivedAt < b.receivedAt ==> all)
            && (a.expiry == b.expiry && a.receivedAt == b.receivedAt && a.createdAt < b.createdAt ==> all)
            && (a.expiry == b.expiry && a.receivedAt == b.receivedAt && a.createdAt == b.createdAt && i < j ==> all)
  {
    if Before(i, batches[i], j, batches[j]) {
      ServedInOrder(batches, p, qty, i, j);
    }
  }

  /** The batches of `p` that expire by `day`. */
  function ExpiringBy(batches: Batches, p: Id, day: int): set<Id> {
    set k | k in batches && batches[k].product == p && batches[k].expiry.Some? && batches[k].expiry.value <= day
  }

  /** Of what expires by any day `qty` units less are left, or none. */
  ghost predicate UsedUp(batches: Batches, after: Batches, p: Id, qty: int) {
    forall day {:trigger ExpiringBy(batches, p, day)} ::
      Total(ExpiringBy(batches, p, day), Rem(after)) == Max(0, Total(ExpiringBy(batches, p, day), Rem(batches)) - qty)
  }

  lemma DrawnUsesUp(batches: Batches, p: Id, qty: int)
    requires Stocked(batches) && qty >= 0
    ensures UsedUp(batches, Drawn(batches, p, qty), p, qty)
  {
    hide Drawn;
    hide ExpiringBy;
    forall day: int
      ensures Total(ExpiringBy(batches, p, day), Rem(Drawn(batches, p, qty)))
           == Max(0, Total(ExpiringBy(batches, p, day), Rem(batches)) - qty)
    {
      ExpiringFirst(batches, p, qty, day);
    }
  }

  /** By every day as much as possible of what expires by then is used up: all of it, or everything
      that was asked for. */
  lemma ExpiringFirst(batches: Batches, p: Id, qty: int, day: int)
    requires Stocked(batches) && qty >= 0
    ensures var due := ExpiringBy(batches, p, day);
            && Total(due, TakeOf(batches, p, qty)) == Min(qty, Total(due, Rem(batches)))
            && Total(due, Rem(Drawn(batches, p, qty))) == Max(0, Total(due, Rem(batches)) - qty)
  {
    var due, after := ExpiringBy(batches, p, day), Drawn(batches, p, qty);
    SegmentTake(batches, p, qty, due);
    TotalSum(due, Rem(after), TakeOf(batches, p, qty), Rem(batches));
  }

  /** A way to draw `qty` units from the batches of `p`. */
  ghost predicate Allocates(batches: Batches, p: Id, qty: int, give: Id -> int) {
    && (forall id :: id in Lots(batches, p) ==> 0 <= give(id) <= batches[id].remaining)
    && Total(Lots(batches, p), give) == qty
  }

  /** On every initial segment it takes at least as much as any other way does. */
  ghost predicate Dominates(batches: Batches, p: Id, qty: int, give: Id -> int) {
    forall rival: Id -> int, s: set<Id> {:trigger Allocates(batches, p, qty, rival), Segment(batches, p, s)} ::
      Allocates(batches, p, qty, rival) && Segment(batches, p, s) ==> Total(s, rival) <= Total(s, give)
  }

  /** FEFO serves the earliest batches as far as possible: on every initial segment it takes at
      least as much as any other way of drawing the same total from the product's batches. */
  lemma FefoDominates(batches: Batches, p: Id, qty: int, other: Id -> int, s: set<Id>)
    requires Stocked(batches) && qty >= 0
    requires Allocates(batches, p, qty, other) && Segment(batches, p, s)
    ensures Total(s, other) <= Total(s, TakeOf(batches, p, qty))
  {
    SegmentTake(batches, p, qty, s);
    TotalLe(s, other, Rem(batches));
    var rest := Lots(batches, p) - s;
    assert Lots(batches, p) == s + rest;
    TotalUnion(s, rest, other);
    TotalNonneg(rest, other);
  }

  /** FEFO is itself such a way whenever there is one. */
  lemma FefoAllocates(batches: Batches, p: Id, qty: int, other: Id -> int)
    requires Stocked(batches) && qty >= 0 && Allocates(batches, p, qty, other)
    ensures Allocates(batches, p, qty, TakeOf(batches, p, qty))
  {
    TakeBounds(batches, p, qty);
    TotalLe(Lots(batches, p), other, Rem(batches));
  }

  /** An allocation dominates all others if and only if it is what FEFO takes from every batch. */
  lemma DominantIsFefo(batches: Batches, p: Id, qty: int, other: Id -> int)
    requires Stocked(batches) && qty >= 0 && Allocates(batches, p, qty, other)
    ensures Dominates(batches, p, qty, other)
       <==> forall id :: id in Lots(batches, p) ==> other(id) == Take(batches, p, qty, id)
  {
    var fefo := TakeOf(batches, p, qty);
    FefoAllocates(batches, p, qty, other);
    if Dominates(batches, p, qty, other) {
      forall id | id in Lots(batches, p)
        ensures other(id) == Take(batches, p, qty, id)
      {
        OnlyAt(batches, p, qty, other, id);
      }
    } else if forall id :: id in Lots(batches, p) ==> other(id) == Take(batches, p, qty, id) {
      forall rival: Id -> int, s: set<Id> | Allocates(batches, p, qty, rival) && Segment(batches, p, s)
        ensures Total(s, rival) <= Total(s, other)
      {
        FefoDominates(batches, p, qty, rival, s);
        TotalSame(s, other, fefo);
      }
    }
  }

  lemma OnlyAt(batches: Batches, p: Id, qty: int, other: Id -> int, id: Id)
    requires Stocked(batches) && qty >= 0 && Allocates(batches, p, qty, other)
    requires Allocates(batches, p, qty, TakeOf(batches, p, qty)) && Dominates(batches, p, qty, other)
    requires id in Lots(batches, p)
    ensures other(id) == Take(batches, p, qty, id)
  {
    FrontIsSegment(batches, id);
    var front := Front(batches, id);
    assert Segment(batches, p, front + {id});
    FefoDominates(batches, p, qty, other, front);
    FefoDominates(batches, p, qty, other, front + {id});
    TotalAdd(front, other, id);
    TotalAdd(front, TakeOf(batches, p, qty), id);
  }
}
