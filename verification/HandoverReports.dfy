/** The three places that show a courier's debt: the courier's own summary, the owner's list that
    groups all rows by courier, and the dispatcher's board that joins orders to couriers. */
module HandoverReports {
  import opened Basics
  import opened Totals
  import opened Handovers

  /** GROUP BY: each scanned row adds to its group, rows without a group add to none. */
  function GroupSum(scan: seq<Id>, group: Id -> Option<Id>, f: Id -> int): map<Id, int> {
    if scan == [] then map[]
    else
      var sums, k := GroupSum(scan[..|scan| - 1], group, f), scan[|scan| - 1];
      match group(k)
      case None => sums
      case Some(g) => sums[g := Sum(sums, g) + f(k)]
  }

  /** LEFT JOIN on the group with COALESCE(sum, 0). */
  function Sum(sums: map<Id, int>, g: Id): int { if g in sums then sums[g] else 0 }

  ghost function InGroup(group: Id -> Option<Id>, f: Id -> int, g: Id): Id -> int {
    (k: Id) => if group(k) == Some(g) then f(k) else 0
  }

  ghost predicate Scans(scan: seq<Id>, keys: set<Id>) {
    && (forall k :: k in scan <==> k in keys)
    && forall i, j :: 0 <= i < j < |scan| ==> scan[i] != scan[j]
  }

  /** Whatever order the rows are scanned in, a group's sum is the sum over its rows. */
  lemma {:induction false} GroupSumIsTotal(scan: seq<Id>, keys: set<Id>, group: Id -> Option<Id>, f: Id -> int, g: Id)
    requires Scans(scan, keys)
    ensures Sum(GroupSum(scan, group, f), g) == Total(keys, InGroup(group, f, g))
    decreases |scan|
  {
    if scan == [] {
      assert keys == {};
    } else {
      var front, k := scan[..|scan| - 1], scan[|scan| - 1];
      assert scan == front + [k];
      GroupSumIsTotal(front, keys - {k}, group, f, g);
      TotalSplit(keys, InGroup(group, f, g), k);
    }
  }

  // ── ListCouriers ──────────────────────────────────────────────────────────────────────

  /** Rows debt_cte keeps, and their group. */
  function DebtGroup(db: Db): Id -> Option<Id> {
    (o: Id) =>
      if o in db.orders && db.orders[o].courier.Some? && db.orders[o].delivered && !db.orders[o].deleted
         && o !in Settled(db)
      then db.orders[o].courier else None
  }

  function OrderNet(db: Db): Id -> int {
    (o: Id) => if o in db.orders then Net(db.orders[o]) else 0
  }

  function ShortfallGroup(db: Db): Id -> Option<Id> {
    (h: Id) => if h in db.handovers && db.handovers[h].status.Confirmed? then Some(db.handovers[h].courier) else None
  }

  function HandoverResidue(db: Db): Id -> int {
    (h: Id) => if h in db.handovers then ResidueOf(db.handovers[h]) else 0
  }

  /** GREATEST(0, COALESCE(cash_debt, 0) + COALESCE(net_shortfall, 0)) for courier `c`. */
  function ListedDebt(db: Db, orderScan: seq<Id>, handoverScan: seq<Id>, c: Id): int {
    Max(0, Sum(GroupSum(orderScan, DebtGroup(db), OrderNet(db)), c)
           + Sum(GroupSum(handoverScan, ShortfallGroup(db), HandoverResidue(db)), c))
  }

  // ── GetCouriersOverview ───────────────────────────────────────────────────────────────

  /** Orders the LEFT JOIN attaches to courier `c`, delivered or not. */
  function Joined(db: Db, c: Id): set<Id> {
    set o | o in db.orders && db.orders[o].courier == Some(c) && !db.orders[o].deleted
  }

  ghost function CaseOwed(db: Db): Id -> int {
    (o: Id) => if o in db.orders && db.orders[o].delivered && o !in Settled(db) then Net(db.orders[o]) else 0
  }

  function ConfirmedOf(db: Db, c: Id): set<Id> {
    set h | h in db.handovers && db.handovers[h].courier == c && db.handovers[h].status.Confirmed?
  }

  ghost function BoardDebt(db: Db, c: Id): int {
    Max(0, Total(Joined(db, c), CaseOwed(db)) + Total(ConfirmedOf(db, c), HandoverResidue(db)))
  }

  // ── GetCashSummary and GetHandoverPaymentLimit ────────────────────────────────────────

  ghost function SummaryDebt(db: Db, c: Id): int { Max(0, Debt(db, c)) }

  /** The grouped, the joined and the per-courier debt are the same number for every courier,
      whatever order the database scans the rows in. */
  lemma OneDebt(db: Db, orderScan: seq<Id>, handoverScan: seq<Id>, c: Id)
    requires Scans(orderScan, db.orders.Keys) && Scans(handoverScan, db.handovers.Keys)
    ensures ListedDebt(db, orderScan, handoverScan, c) == SummaryDebt(db, c) == BoardDebt(db, c)
  {
    hide Total;
    hide GroupSum;
    hide Scans;
    hide Net;
    hide ResidueOf;
    hide Settled;
    var orders, handovers := db.orders.Keys, db.handovers.Keys;
    GroupSumIsTotal(orderScan, orders, DebtGroup(db), OrderNet(db), c);
    GroupSumIsTotal(handoverScan, handovers, ShortfallGroup(db), HandoverResidue(db), c);
    TotalSame(orders, InGroup(DebtGroup(db), OrderNet(db), c), Owed(db, c));
    TotalSame(handovers, InGroup(ShortfallGroup(db), HandoverResidue(db), c), Residue(db.handovers, c));
    TotalSupport(Joined(db, c), orders, Owed(db, c));
    TotalSame(Joined(db, c), Owed(db, c), CaseOwed(db));
    TotalSupport(ConfirmedOf(db, c), handovers, Residue(db.handovers, c));
    TotalSame(ConfirmedOf(db, c), Residue(db.handovers, c), HandoverResidue(db));
  }
}
