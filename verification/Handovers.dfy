/** Courier cash: orders, handovers, and the debt the queries derive from them
    (courier/model.go, courier/repository.go). Amounts are integer cents. */
module Handovers {
  import opened Basics
  import opened Totals

  /** The order columns the cash queries read. */
  datatype Order = Order(courier: Option<Id>, delivered: bool, deleted: bool,
                         total: int, fee: int, prepaid: int, payout: int)

  datatype Status = Pending | Confirmed | Rejected | Disputed

  datatype Source = CourierApp | Manual

  /** A cash_handover_orders row; its key is the order it links. */
  datatype Line = Line(collected: int, salary: int, due: int)

  /** A cash_handovers row with its lines. */
  datatype Handover = Handover(
    courier: Id,
    status: Status,
    source: Source,
    collected: int,
    fees: int,
    toReturn: int,
    actual: Option<int>,
    lines: map<Id, Line>)
  {
    /** COALESCE(actual_returned, total_to_return). */
    function Accepted(): int { if actual.Some? then actual.value else toReturn }

    predicate Open() { status.Pending? || status.Disputed? }
  }

  datatype Db = Db(orders: map<Id, Order>, handovers: map<Id, Handover>)

  // ── Amounts of one order ──────────────────────────────────────────────────────────────

  /** What the courier physically received, as SubmitHandover clamps it. */
  function Collected(o: Order): int { Max(0, o.total + o.fee - o.prepaid) }

  /** What the courier returns for it: SubmitHandover clamps a second time. */
  function Returns(o: Order): int { Max(0, Collected(o) - o.payout) }

  /** What every debt query counts for it: one clamp over the whole difference. */
  function Net(o: Order): int { Max(0, o.total + o.fee - o.prepaid - o.payout) }

  /** The two-step clamp of the submission and the single clamp of the queries agree exactly when
      the payout is not negative or there was something to collect. */
  lemma ClampsAgree(o: Order)
    ensures Returns(o) == Net(o) <==> o.payout >= 0 || o.total + o.fee - o.prepaid >= 0
  {
  }

  function LineOf(o: Order): Line { Line(Collected(o), o.payout, Returns(o)) }

  // ── Queries ───────────────────────────────────────────────────────────────────────────

  /** A delivered order of courier `c`. */
  predicate Delivered(orders: map<Id, Order>, c: Id, o: Id) {
    o in orders && orders[o].courier == Some(c) && orders[o].delivered && !orders[o].deleted
  }

  /** Orders linked to a confirmed handover. */
  function Settled(db: Db): set<Id> {
    set h, o | h in db.handovers && db.handovers[h].status.Confirmed? && o in db.handovers[h].lines :: o
  }

  /** Orders linked to a pending, confirmed or disputed handover. */
  function Claimed(db: Db): set<Id> {
    set h, o | h in db.handovers && !db.handovers[h].status.Rejected? && o in db.handovers[h].lines :: o
  }

  /** FindEligibleHandoverOrders. */
  function Eligible(db: Db, c: Id): set<Id> {
    set o | o in db.orders && Delivered(db.orders, c, o) && o !in Claimed(db)
  }

  /** The order_debt summand. */
  function Owed(db: Db, c: Id): Id -> int {
    (o: Id) => if Delivered(db.orders, c, o) && o !in Settled(db) then Net(db.orders[o]) else 0
  }

  /** The confirmed_residue summand: a manual entry is credited a second time because no order
      was excluded for it. */
  function ResidueOf(h: Handover): int {
    h.toReturn - h.Accepted() - (if h.source.Manual? then h.Accepted() else 0)
  }

  function Residue(handovers: map<Id, Handover>, c: Id): Id -> int {
    (h: Id) => if h in handovers && handovers[h].courier == c && handovers[h].status.Confirmed?
               then ResidueOf(handovers[h]) else 0
  }

  /** The pending_handovers summand. */
  function Reserved(handovers: map<Id, Handover>, c: Id): Id -> int {
    (h: Id) => if h in handovers && handovers[h].courier == c && handovers[h].Open()
               then handovers[h].Accepted() else 0
  }

  /** current_debt before it is clamped. */
  ghost function Debt(db: Db, c: Id): int {
    Total(db.orders.Keys, Owed(db, c)) + Total(db.handovers.Keys, Residue(db.handovers, c))
  }

  /** pending_amount. */
  ghost function OpenAmount(db: Db, c: Id): int {
    Total(db.handovers.Keys, Reserved(db.handovers, c))
  }

  /** GetHandoverPaymentLimit. */
  ghost function Available(db: Db, c: Id): int {
    Max(0, Max(0, Debt(db, c)) - OpenAmount(db, c))
  }

  // ── What the tables always satisfy ────────────────────────────────────────────────────

  ghost function LineReturns(lines: map<Id, Line>): Id -> int {
    (o: Id) => if o in lines then lines[o].due else 0
  }

  /** A handover links delivered orders of its own courier at their frozen amounts; a manual one
      links none. */
  ghost predicate HandoverRow(db: Db, h: Id)
    requires h in db.handovers
  {
    var row := db.handovers[h];
    && row.lines.Keys <= db.orders.Keys
    && (forall o {:trigger Delivered(db.orders, row.courier, o)} :: o in row.lines ==>
          Delivered(db.orders, row.courier, o) && row.lines[o] == LineOf(db.orders[o]))
    && (row.source.CourierApp? ==> row.toReturn == Total(row.lines.Keys, LineReturns(row.lines)))
    && (row.source.Manual? ==> row.lines == map[] && row.toReturn >= 0)
    && (row.actual.Some? ==> row.actual.value >= 0)
  }

  /** No order is linked to two handovers that are pending, confirmed or disputed. */
  ghost predicate SingleClaim(db: Db) {
    forall i, j, o {:trigger Links(db, i, o), Links(db, j, o)} :: Links(db, i, o) && Links(db, j, o) ==> i == j
  }

  ghost predicate Links(db: Db, h: Id, o: Id) {
    h in db.handovers && !db.handovers[h].status.Rejected? && o in db.handovers[h].lines
  }

  /** A frozen order row is one whose payout is not negative. */
  ghost predicate OrderRows(db: Db) {
    forall o {:trigger db.orders[o]} :: o in db.orders && db.orders[o].delivered ==> db.orders[o].payout >= 0
  }

  ghost predicate HandoverRows(db: Db) {
    forall h {:trigger HandoverRow(db, h)} :: h in db.handovers ==> HandoverRow(db, h)
  }

  ghost predicate Good(db: Db) {
    OrderRows(db) && HandoverRows(db) && SingleClaim(db)
  }

  // ── What the debt means ───────────────────────────────────────────────────────────────

  /** Cash owed for one delivered order of `c`, handed over or not. */
  ghost function Cash(orders: map<Id, Order>, c: Id): Id -> int {
    (o: Id) => if Delivered(orders, c, o) then Net(orders[o]) else 0
  }

  /** All the cash courier `c` ever took for the company. */
  ghost function Earned(db: Db, c: Id): int {
    Total(db.orders.Keys, Cash(db.orders, c))
  }

  /** What one handover takes off what the courier still may declare. */
  function WeightOf(h: Handover): int {
    match h.status
    case Rejected => 0
    case Confirmed => if h.source.Manual? then h.toReturn - 2 * h.Accepted() else -h.Accepted()
    case _ => -h.Accepted()
  }

  ghost function Weight(handovers: map<Id, Handover>, c: Id): Id -> int {
    (h: Id) => if h in handovers && handovers[h].courier == c then WeightOf(handovers[h]) else 0
  }

  /** Cash earned, less everything declared or accepted. */
  ghost function Balance(db: Db, c: Id): int {
    Earned(db, c) + Total(db.handovers.Keys, Weight(db.handovers, c))
  }

  /** Cash of the orders a confirmed handover links, as the courier's debt counts it. */
  ghost function LinkedCash(db: Db, c: Id): Id -> int {
    (h: Id) => if h in db.handovers && db.handovers[h].status.Confirmed?
               then Total(db.handovers[h].lines.Keys, Cash(db.orders, c)) else 0
  }

  ghost function SettledBy(db: Db, hs: set<Id>): set<Id>
    requires hs <= db.handovers.Keys
  {
    set h, o | h in hs && db.handovers[h].status.Confirmed? && o in db.handovers[h].lines :: o
  }

  /** The links of handover `h` that count as settled. */
  function Mine(db: Db, h: Id): set<Id>
    requires h in db.handovers
  {
    if db.handovers[h].status.Confirmed? then db.handovers[h].lines.Keys else {}
  }

  lemma NothingSettled(db: Db, c: Id)
    ensures Total(SettledBy(db, {}), Cash(db.orders, c)) == 0
    ensures forall hs: set<Id> :: hs == {} ==> Total(hs, LinkedCash(db, c)) == 0
  {
    assert SettledBy(db, {}) == {};
  }

  lemma MineIsLinked(db: Db, c: Id, h: Id)
    requires h in db.handovers
    ensures Total(Mine(db, h), Cash(db.orders, c)) == LinkedCash(db, c)(h)
  {
  }

  /** Links of distinct confirmed handovers are disjoint, so their cash adds up. */
  lemma {:induction false} SettledCash(db: Db, c: Id, hs: set<Id>)
    requires SingleClaim(db) && hs <= db.handovers.Keys
    ensures Total(SettledBy(db, hs), Cash(db.orders, c)) == Total(hs, LinkedCash(db, c))
    decreases |hs|
  {
    hide Total;
    hide LinkedCash;
    hide SettledBy;
    hide Cash;
    hide SingleClaim;
    if hs == {} {
      NothingSettled(db, c);
    } else {
      var h :| h in hs;
      SettledCash(db, c, hs - {h});
      TotalSplit(hs, LinkedCash(db, c), h);
      SettledPeel(db, hs, h);
      MineIsLinked(db, c, h);
      TotalUnion(SettledBy(db, hs - {h}), Mine(db, h), Cash(db.orders, c));
    }
  }

  lemma SettledPeel(db: Db, hs: set<Id>, h: Id)
    requires SingleClaim(db) && hs <= db.handovers.Keys && h in hs
    ensures SettledBy(db, hs) == SettledBy(db, hs - {h}) + Mine(db, h)
    ensures SettledBy(db, hs - {h}) !! Mine(db, h)
  {
    assert SettledBy(db, hs) == SettledBy(db, hs - {h}) + Mine(db, h);
    forall o | o in SettledBy(db, hs - {h}) && o in Mine(db, h)
      ensures false
    {
      var i :| i in hs - {h} && db.handovers[i].status.Confirmed? && o in db.handovers[i].lines;
      assert Links(db, i, o) && Links(db, h, o);
    }
  }

  /** A courier-app handover links cash worth its total_to_return to its own courier, and none to
      anyone else. */
  lemma LinkedIsReturned(db: Db, c: Id, h: Id)
    requires OrderRows(db) && h in db.handovers && HandoverRow(db, h)
    ensures var row := db.handovers[h];
            Total(row.lines.Keys, Cash(db.orders, c))
            == if row.courier == c && row.source.CourierApp? then row.toReturn else 0
  {
    var row := db.handovers[h];
    forall o | o in row.lines
      ensures Cash(db.orders, c)(o) == if row.courier == c then LineReturns(row.lines)(o) else 0
    {
      assert Delivered(db.orders, row.courier, o);
      ClampsAgree(db.orders[o]);
    }
    if row.courier == c {
      TotalSame(row.lines.Keys, Cash(db.orders, c), LineReturns(row.lines));
    } else {
      TotalZero(row.lines.Keys, Cash(db.orders, c));
    }
  }

  /** Orders not yet settled owe what was earned less what confirmed handovers link. */
  lemma OwedIsUnsettled(db: Db, c: Id)
    requires HandoverRows(db) && SingleClaim(db)
    ensures Total(db.orders.Keys, Owed(db, c)) == Earned(db, c) - Total(db.handovers.Keys, LinkedCash(db, c))
  {
    var keys, settled := db.orders.Keys, Settled(db);
    SettledCash(db, c, db.handovers.Keys);
    assert SettledBy(db, db.handovers.Keys) == settled;
    assert settled <= keys by {
      forall o | o in settled
        ensures o in keys
      {
        var h :| h in db.handovers && db.handovers[h].status.Confirmed? && o in db.handovers[h].lines;
        assert HandoverRow(db, h);
      }
    }
    var rest := keys - settled;
    assert keys == rest + settled;
    TotalUnion(rest, settled, Cash(db.orders, c));
    TotalUnion(rest, settled, Owed(db, c));
    TotalSame(rest, Cash(db.orders, c), Owed(db, c));
    TotalZero(settled, Owed(db, c));
  }

  /** One handover's share: unlinking its orders and adding its residue is its weight, and an
      open one weighs what it reserves. */
  lemma ShareOfHandover(db: Db, c: Id, h: Id)
    requires OrderRows(db) && h in db.handovers && HandoverRow(db, h)
    ensures Residue(db.handovers, c)(h) - LinkedCash(db, c)(h) - Reserved(db.handovers, c)(h)
         == Weight(db.handovers, c)(h)
  {
    LinkedIsReturned(db, c, h);
  }

  /** Conservation of cash: debt less open declarations is what was earned less what was declared
      or accepted, whatever lines, residues and exclusions the queries go through. */
  lemma DebtIsBalance(db: Db, c: Id)
    requires Good(db)
    ensures Debt(db, c) - OpenAmount(db, c) == Balance(db, c)
  {
    OwedIsUnsettled(db, c);
    SharesAddUp(db, c);
  }

  ghost function LessLinked(db: Db, c: Id): Id -> int {
    (h: Id) => Residue(db.handovers, c)(h) - LinkedCash(db, c)(h)
  }

  lemma SharesAddUp(db: Db, c: Id)
    requires OrderRows(db) && HandoverRows(db)
    ensures Total(db.handovers.Keys, Residue(db.handovers, c)) - Total(db.handovers.Keys, LinkedCash(db, c))
            - Total(db.handovers.Keys, Reserved(db.handovers, c))
         == Total(db.handovers.Keys, Weight(db.handovers, c))
  {
    var keys := db.handovers.Keys;
    forall h | h in keys
      ensures Residue(db.handovers, c)(h) - LinkedCash(db, c)(h) - Reserved(db.handovers, c)(h)
           == Weight(db.handovers, c)(h)
    {
      assert HandoverRow(db, h);
      ShareOfHandover(db, c, h);
    }
    TotalSum(keys, LinkedCash(db, c), LessLinked(db, c), Residue(db.handovers, c));
    TotalSum(keys, Reserved(db.handovers, c), Weight(db.handovers, c), LessLinked(db, c));
  }

  lemma OpenNonneg(db: Db, c: Id)
    requires Good(db)
    ensures OpenAmount(db, c) >= 0
  {
    forall h | h in db.handovers
      ensures Reserved(db.handovers, c)(h) >= 0
    {
      assert HandoverRow(db, h);
      AcceptedNonneg(db, h);
    }
    TotalNonneg(db.handovers.Keys, Reserved(db.handovers, c));
  }

  lemma AcceptedNonneg(db: Db, h: Id)
    requires h in db.handovers && HandoverRow(db, h)
    ensures db.handovers[h].Accepted() >= 0
  {
    var row := db.handovers[h];
    assert forall o :: o in row.lines ==> Delivered(db.orders, row.courier, o);
    TotalNonneg(row.lines.Keys, LineReturns(row.lines));
  }

  /** While nothing more was declared than earned, the limit query shows exactly the balance and
      the debt never goes negative. */
  lemma LimitIsBalance(db: Db, c: Id)
    requires Good(db) && Balance(db, c) >= 0
    ensures Available(db, c) == Balance(db, c)
    ensures Debt(db, c) >= OpenAmount(db, c) >= 0
  {
    DebtIsBalance(db, c);
    OpenNonneg(db, c);
  }
}
