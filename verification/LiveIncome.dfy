/** Team income reports (compensation/live_income.go, income_service.go, income_repository.go): the
    live report recomputes what is not paid out yet with today's rates, the frozen one adds up the
    recorded amounts. Amounts are integer cents. */
module LiveIncome {
  import opened Basics
  import C = Commission
  import R = RateBook

  datatype EventType =
    | SellerEarned | ManagerTeamEarned | ManagerPersonalEarned | PoolEarned | CompanyEarned
    | CourierFee
    | Unrated(name: nat)

  /** What the report reads of an order. */
  datatype Deal = Deal(lead: Option<Id>, leadTeam: Option<Id>, orderType: C.OrderType, net: int, seller: Id,
                       manager: Option<Id>, managerTeam: Option<Id>, deleted: bool)

  /** A financial_events row. */
  datatype Event = Event(order: Id, user: Option<Id>, kind: EventType, amount: int, at: int)

  /** A financial_events row joined with its order. */
  datatype Row = Row(order: Id, user: Id, kind: EventType, amount: int, at: int, deal: Deal)

  /** An amount to be credited to a member. */
  datatype Entry = Entry(user: Id, kind: EventType, amount: int, order: Option<Id>)

  datatype Member = Member(byType: map<EventType, int>, total: int, orders: set<Id>)

  /** A team report; `listed` is the order in which a Go map happened to yield the members. */
  datatype Report =
    Report(total: int, byType: map<EventType, int>, members: map<Id, Member>, listed: seq<Id>, orders: set<Id>)

  // ── Queries ───────────────────────────────────────────────────────────────────────────

  /** The WHERE clause both reports share. */
  predicate Selected(e: Event, orders: map<Id, Deal>, lead: Id, from: int, to: int) {
    && e.order in orders && !orders[e.order].deleted && orders[e.order].lead == Some(lead)
    && e.user.Some? && from <= e.at <= to
  }

  /** GetTeamFinancialEventsDetailed: the selected events but courier fees, joined with their orders. */
  function Detailed(events: seq<Event>, orders: map<Id, Deal>, lead: Id, from: int, to: int): (rows: seq<Row>)
    ensures forall r :: r in rows ==> r.order in orders && r.deal == orders[r.order] && r.kind != CourierFee
  {
    if events == [] then []
    else
      var e := events[|events| - 1];
      Detailed(events[..|events| - 1], orders, lead, from, to)
      + if Selected(e, orders, lead, from, to) && e.kind != CourierFee
        then [Row(e.order, e.user.value, e.kind, e.amount, e.at, orders[e.order])] else []
  }

  /** Rows of one order carry the same order columns, as rows of a join do. */
  predicate Coherent(rows: seq<Row>) {
    forall i, j :: 0 <= i < |rows| && 0 <= j < |rows| && rows[i].order == rows[j].order ==> rows[i].deal == rows[j].deal
  }

  /** The selected events, courier fees alone or all the others, as entries. */
  function Entries(events: seq<Event>, orders: map<Id, Deal>, lead: Id, from: int, to: int, fees: bool)
    : (es: seq<Entry>)
    ensures forall e :: e in es ==> (e.kind == CourierFee) == fees
  {
    if events == [] then []
    else
      var e := events[|events| - 1];
      Entries(events[..|events| - 1], orders, lead, from, to, fees)
      + if Selected(e, orders, lead, from, to) && (e.kind == CourierFee) == fees
        then [Entry(e.user.value, e.kind, e.amount, Some(e.order))] else []
  }

  // ── Recomputation ─────────────────────────────────────────────────────────────────────

  /** SnapshotBuilder.Build: every rate has to resolve, the company's included. */
  function LiveRates(cs: R.Configs, d: Deal, now: int): Option<C.Rates> {
    var seller := R.Resolved(cs, Some(d.seller), None, R.SellerRate, now);
    var managerTeam := R.Resolved(cs, d.manager, d.managerTeam, R.ManagerTeamRate, now);
    var managerPersonal := R.Resolved(cs, d.manager, d.managerTeam, R.ManagerPersonalRate, now);
    var pool := R.Resolved(cs, d.lead, d.leadTeam, R.TeamLeadPoolRate, now);
    var company := R.Resolved(cs, None, None, R.CompanyRate, now);
    if seller.Some? && managerTeam.Some? && managerPersonal.Some? && pool.Some? && company.Some?
    then Some(C.Rates(seller.value, managerTeam.value, managerPersonal.value, pool.value)) else None
  }

  /** recomputeLiveBreakdown. */
  function Recomputed(cs: R.Configs, d: Deal, now: int): Option<C.Breakdown> {
    var rates := LiveRates(cs, d, now);
    if rates.None? then None
    else match C.ApplyCommissionRules(d.orderType, d.net, rates.value, d.manager.Some?)
      case Ok(b) => Some(b)
      case Err(_) => None
  }

  /** breakdownAmountForEvent. */
  function Projected(kind: EventType, b: C.Breakdown): Option<int> {
    match kind
    case SellerEarned => Some(b.seller)
    case ManagerTeamEarned => Some(b.managerTeam)
    case ManagerPersonalEarned => Some(b.managerPersonal)
    case PoolEarned => Some(b.pool)
    case CompanyEarned => Some(b.company)
    case _ => None
  }

  /** Not covered by the payee's last payout. */
  predicate Unpaid(cutoffs: map<Id, int>, r: Row) {
    r.user !in cutoffs || r.at > cutoffs[r.user]
  }

  /** The amount the live report shows for a row, recomputed for that row alone. */
  function LiveAmount(cs: R.Configs, cutoffs: map<Id, int>, now: int, r: Row): int {
    var b := if Unpaid(cutoffs, r) then Recomputed(cs, r.deal, now) else None;
    var live := if b.Some? then Projected(r.kind, b.value) else None;
    if live.Some? then live.value else r.amount
  }

  function LiveEntries(cs: R.Configs, cutoffs: map<Id, int>, now: int, rows: seq<Row>): (es: seq<Entry>)
    ensures |es| == |rows|
  {
    seq(|rows|, i requires 0 <= i < |rows| =>
      Entry(rows[i].user, rows[i].kind, LiveAmount(cs, cutoffs, now, rows[i]), Some(rows[i].order)))
  }

  // ── Row by row ────────────────────────────────────────────────────────────────────────

  /** A live split needs all five rates. The seller's comes from the seller or the global level, those
      of the manager and of the team lead from the person, then the team, then the global level. */
  lemma LiveRatesAre(cs: R.Configs, d: Deal, now: int, rates: C.Rates)
    ensures LiveRates(cs, d, now) == Some(rates) <==>
            && R.Resolved(cs, Some(d.seller), None, R.SellerRate, now) == Some(rates.seller)
            && R.Resolved(cs, d.manager, d.managerTeam, R.ManagerTeamRate, now) == Some(rates.managerTeam)
            && R.Resolved(cs, d.manager, d.managerTeam, R.ManagerPersonalRate, now) == Some(rates.managerPersonal)
            && R.Resolved(cs, d.lead, d.leadTeam, R.TeamLeadPoolRate, now) == Some(rates.pool)
            && R.RateAt(cs, R.Global, R.CompanyRate, now).Some?
  {
    R.ResolvedLayers(cs, None, None, R.CompanyRate, now);
    hide R.Resolved;
  }

  /** An unpaid row whose order can be split today is credited the column of the split that its type
      names; a type that names none keeps the recorded amount. */
  lemma UnpaidRow(cs: R.Configs, cutoffs: map<Id, int>, now: int, r: Row, rates: C.Rates, b: C.Breakdown)
    requires r.user in cutoffs ==> r.at > cutoffs[r.user]
    requires LiveRates(cs, r.deal, now) == Some(rates)
    requires C.ApplyCommissionRules(r.deal.orderType, r.deal.net, rates, r.deal.manager.Some?) == Ok(b)
    ensures r.kind == SellerEarned ==> LiveAmount(cs, cutoffs, now, r) == b.seller
    ensures r.kind == ManagerTeamEarned ==> LiveAmount(cs, cutoffs, now, r) == b.managerTeam
    ensures r.kind == ManagerPersonalEarned ==> LiveAmount(cs, cutoffs, now, r) == b.managerPersonal
    ensures r.kind == PoolEarned ==> LiveAmount(cs, cutoffs, now, r) == b.pool
    ensures r.kind == CompanyEarned ==> LiveAmount(cs, cutoffs, now, r) == b.company
    ensures r.kind == CourierFee || r.kind.Unrated? ==> LiveAmount(cs, cutoffs, now, r) == r.amount
  {
    hide LiveRates;
    hide C.ApplyCommissionRules;
  }

  /** A row paid out by its payee's last payout, and one whose order cannot be split today, keeps the
      recorded amount. */
  lemma RecordedRow(cs: R.Configs, cutoffs: map<Id, int>, now: int, r: Row)
    requires || (r.user in cutoffs && r.at <= cutoffs[r.user])
             || LiveRates(cs, r.deal, now) == None
             || C.ApplyCommissionRules(r.deal.orderType, r.deal.net, LiveRates(cs, r.deal, now).value,
                                       r.deal.manager.Some?).Err?
    ensures LiveAmount(cs, cutoffs, now, r) == r.amount
  {
    hide LiveRates;
    hide C.ApplyCommissionRules;
  }

  /** So an unpaid seller's commission on a seller order is today's rate of its net revenue, to the
      nearest cent, whatever was recorded. */
  lemma UnpaidSeller(cs: R.Configs, cutoffs: map<Id, int>, now: int, r: Row, rates: C.Rates)
    requires r.user in cutoffs ==> r.at > cutoffs[r.user]
    requires r.kind == SellerEarned && r.deal.orderType == C.SellerOrder && r.deal.net >= 0
    requires LiveRates(cs, r.deal, now) == Some(rates) && C.ValidRates(rates)
    requires rates.seller + (if r.deal.manager.Some? then rates.managerTeam else 0) <= rates.pool
    ensures C.Nearest(LiveAmount(cs, cutoffs, now, r), r.deal.net, rates.seller)
  {
    hide LiveRates;
    hide C.Nearest;
    C.AcceptedExactly(C.SellerOrder, r.deal.net, rates, r.deal.manager.Some?);
    var b := C.ApplyCommissionRules(C.SellerOrder, r.deal.net, rates, r.deal.manager.Some?).value;
    hide C.ApplyCommissionRules;
    C.WhoGetsWhat(C.SellerOrder, r.deal.net, rates, r.deal.manager.Some?, b);
    UnpaidRow(cs, cutoffs, now, r, rates, b);
  }

  /** An event to a payee, in the period, of an order of the lead's that is not deleted. */
  predicate InReport(e: Event, orders: map<Id, Deal>, lead: Id, from: int, to: int) {
    && e.order in orders && !orders[e.order].deleted && orders[e.order].lead == Some(lead)
    && e.user != None && from <= e.at && e.at <= to
  }

  /** `at` lists in order, each once, the events of the report that are courier fees, or that are not. */
  ghost predicate Which(at: seq<nat>, events: seq<Event>, orders: map<Id, Deal>, lead: Id, from: int, to: int,
                        fees: bool) {
    && (forall i, j :: 0 <= i < j < |at| ==> at[i] < at[j])
    && forall k: nat :: k in at <==>
         k < |events| && InReport(events[k], orders, lead, from, to) && (events[k].kind == CourierFee <==> fees)
  }

  /** The event after the last is listed or not. */
  lemma WhichStep(at: seq<nat>, events: seq<Event>, orders: map<Id, Deal>, lead: Id, from: int, to: int, fees: bool)
    returns (more: seq<nat>)
    requires events != [] && Which(at, events[..|events| - 1], orders, lead, from, to, fees)
    ensures var e := events[|events| - 1];
            more == at + if Selected(e, orders, lead, from, to) && (e.kind == CourierFee) == fees
                         then [|events| - 1] else []
    ensures Which(more, events, orders, lead, from, to, fees)
  {
    var n := |events| - 1;
    more := at + if Selected(events[n], orders, lead, from, to) && (events[n].kind == CourierFee) == fees
                 then [n] else [];
    forall i | 0 <= i < |at|
      ensures at[i] < n
    {
      assert at[i] in at;
    }
    forall k: nat
      ensures k in more <==>
                k < |events| && InReport(events[k], orders, lead, from, to) && (events[k].kind == CourierFee <==> fees)
    {
      assert k < n ==> events[..n][k] == events[k];
    }
  }

  /** Row `r` of the detailed query shows event `e` and its order's columns. */
  predicate Shows(r: Row, e: Event, orders: map<Id, Deal>) {
    && e.order in orders && e.user == Some(r.user) && r.order == e.order && r.kind == e.kind
    && r.amount == e.amount && r.at == e.at && r.deal == orders[e.order]
  }

  /** Each row shows the event that `at` names. */
  ghost predicate AllShow(rows: seq<Row>, at: seq<nat>, events: seq<Event>, orders: map<Id, Deal>) {
    |at| == |rows| && forall i :: 0 <= i < |at| ==> at[i] < |events| && Shows(rows[i], events[at[i]], orders)
  }

  lemma AllShowStep(rows: seq<Row>, at: seq<nat>, events: seq<Event>, orders: map<Id, Deal>, more: seq<Row>)
    requires events != [] && AllShow(rows, at, events[..|events| - 1], orders)
    requires |more| <= 1 && forall r :: r in more ==> Shows(r, events[|events| - 1], orders)
    ensures AllShow(rows + more, at + if more == [] then [] else [|events| - 1], events, orders)
  {
    hide Shows;
    var which := at + if more == [] then [] else [|events| - 1];
    forall i | 0 <= i < |which|
      ensures which[i] < |events| && Shows((rows + more)[i], events[which[i]], orders)
    {
      if i < |at| {
        assert events[..|events| - 1][at[i]] == events[at[i]];
      } else {
        assert (rows + more)[i] == more[0] && more[0] in more;
      }
    }
  }

  /** The live report's rows are exactly the events in the report that are no courier fees, each once
      and in order: `at` says which event a row shows. */
  lemma {:induction false} DetailedRows(events: seq<Event>, orders: map<Id, Deal>, lead: Id, from: int, to: int)
    returns (at: seq<nat>)
    ensures Which(at, events, orders, lead, from, to, false)
    ensures AllShow(Detailed(events, orders, lead, from, to), at, events, orders)
    decreases |events|
  {
    hide Which;
    hide AllShow;
    if events == [] {
      at := [];
      NothingShown(orders, lead, from, to);
    } else {
      var n := |events| - 1;
      var before := DetailedRows(events[..n], orders, lead, from, to);
      at := WhichStep(before, events, orders, lead, from, to, false);
      var e := events[n];
      var more := if Selected(e, orders, lead, from, to) && e.kind != CourierFee
                  then [Row(e.order, e.user.value, e.kind, e.amount, e.at, orders[e.order])] else [];
      AllShowStep(Detailed(events[..n], orders, lead, from, to), before, events, orders, more);
    }
  }

  lemma NothingShown(orders: map<Id, Deal>, lead: Id, from: int, to: int)
    ensures AllShow([], [], [], orders) && AllCredit([], [], [])
    ensures forall fees :: Which([], [], orders, lead, from, to, fees)
  {
  }

  /** Each entry is the recorded amount of the event that `at` names. */
  ghost predicate AllCredit(es: seq<Entry>, at: seq<nat>, events: seq<Event>) {
    |at| == |es| && forall i :: 0 <= i < |at| ==> at[i] < |events| && Credits(es[i], events[at[i]])
  }

  predicate Credits(x: Entry, e: Event) {
    e.user == Some(x.user) && x.kind == e.kind && x.amount == e.amount && x.order == Some(e.order)
  }

  lemma AllCreditStep(es: seq<Entry>, at: seq<nat>, events: seq<Event>, more: seq<Entry>)
    requires events != [] && AllCredit(es, at, events[..|events| - 1])
    requires |more| <= 1 && forall x :: x in more ==> Credits(x, events[|events| - 1])
    ensures AllCredit(es + more, at + if more == [] then [] else [|events| - 1], events)
  {
    hide Credits;
    var which := at + if more == [] then [] else [|events| - 1];
    forall i | 0 <= i < |which|
      ensures which[i] < |events| && Credits((es + more)[i], events[which[i]])
    {
      if i < |at| {
        assert events[..|events| - 1][at[i]] == events[at[i]];
      } else {
        assert (es + more)[i] == more[0] && more[0] in more;
      }
    }
  }

  /** The frozen report adds up exactly the events in the report, courier fees apart, at the recorded
      amounts. */
  lemma {:induction false} EntriesRows(events: seq<Event>, orders: map<Id, Deal>, lead: Id, from: int, to: int,
                                       fees: bool)
    returns (at: seq<nat>)
    ensures Which(at, events, orders, lead, from, to, fees)
    ensures AllCredit(Entries(events, orders, lead, from, to, fees), at, events)
    decreases |events|
  {
    hide Which;
    hide AllCredit;
    if events == [] {
      at := [];
      NothingShown(orders, lead, from, to);
    } else {
      var n := |events| - 1;
      var before := EntriesRows(events[..n], orders, lead, from, to, fees);
      at := WhichStep(before, events, orders, lead, from, to, fees);
      var e := events[n];
      var more := if Selected(e, orders, lead, from, to) && (e.kind == CourierFee) == fees
                  then [Entry(e.user.value, e.kind, e.amount, Some(e.order))] else [];
      AllCreditStep(Entries(events[..n], orders, lead, from, to, fees), before, events, more);
    }
  }

  // ── Tallies ───────────────────────────────────────────────────────────────────────────

  function At(m: map<EventType, int>, k: EventType): int { if k in m then m[k] else 0 }

  /** Credit an entry to its member, rounding both running totals. */
  function Credit(ms: map<Id, Member>, e: Entry): map<Id, Member> {
    var m := if e.user in ms then ms[e.user] else Member(map[], 0, {});
    ms[e.user := Member(m.byType[e.kind := C.Cents(At(m.byType, e.kind) + e.amount)],
                        C.Cents(m.total + e.amount),
                        m.orders + if e.order.Some? then {e.order.value} else {})]
  }

  function Tally(es: seq<Entry>): map<Id, Member> {
    if es == [] then map[] else Credit(Tally(es[..|es| - 1]), es[|es| - 1])
  }

  /** buildTeamReport's team-wide figures by type. */
  function TypeTally(es: seq<Entry>): map<EventType, int> {
    if es == [] then map[]
    else
      var m, e := TypeTally(es[..|es| - 1]), es[|es| - 1];
      m[e.kind := C.Cents(At(m, e.kind) + e.amount)]
  }

  /** Add a member's figures by type to the team's. */
  function Merge(a: map<EventType, int>, b: map<EventType, int>): map<EventType, int> {
    map k | k in a.Keys + b.Keys :: if k in b then C.Cents(At(a, k) + b[k]) else a[k]
  }

  function Merged(ms: map<Id, Member>, us: seq<Id>): map<EventType, int>
    requires forall u :: u in us ==> u in ms
  {
    if us == [] then map[] else Merge(Merged(ms, us[..|us| - 1]), ms[us[|us| - 1]].byType)
  }

  function TotalsOf(ms: map<Id, Member>, us: seq<Id>): (xs: seq<int>)
    requires forall u :: u in us ==> u in ms
    ensures |xs| == |us| && forall i :: 0 <= i < |us| ==> xs[i] == ms[us[i]].total
  {
    if us == [] then [] else TotalsOf(ms, us[..|us| - 1]) + [ms[us[|us| - 1]].total]
  }

  lemma TallyStep(es: seq<Entry>, e: Entry)
    ensures Tally(es + [e]) == Credit(Tally(es), e)
  {
    assert (es + [e])[..|es|] == es;
  }

  predicate Distinct(us: seq<Id>) {
    forall i, j :: 0 <= i < j < |us| ==> us[i] != us[j]
  }

  ghost predicate Lists(us: seq<Id>, ms: map<Id, Member>) {
    Distinct(us) && forall u :: u in us <==> u in ms
  }

  /** The running total of rounded additions. */
  function Rolling(xs: seq<int>): int {
    if xs == [] then 0 else C.Cents(Rolling(xs[..|xs| - 1]) + xs[|xs| - 1])
  }

  function Orders(rows: seq<Row>): set<Id> { set r | r in rows :: r.order }

  lemma OrdersStep(rows: seq<Row>, r: Row)
    ensures Orders(rows + [r]) == Orders(rows) + {r.order}
    ensures Orders([]) == {}
  {
    assert forall x :: x in rows + [r] <==> x in rows || x == r;
  }

  /** Whatever the cache holds for an order is what any of its rows would be recomputed to. */
  ghost predicate Remembers(cache: map<Id, Option<C.Breakdown>>, cs: R.Configs, now: int, rows: seq<Row>) {
    forall r :: r in rows && r.order in cache ==> cache[r.order] == Recomputed(cs, r.deal, now)
  }

  lemma RememberStep(cache: map<Id, Option<C.Breakdown>>, cs: R.Configs, now: int, rows: seq<Row>, r: Row)
    requires Coherent(rows) && r in rows && Remembers(cache, cs, now, rows)
    ensures Remembers(cache[r.order := Recomputed(cs, r.deal, now)], cs, now, rows)
  {
    hide Recomputed;
    forall x | x in rows && x.order == r.order
      ensures x.deal == r.deal
    {
    }
  }

  lemma RememberedAt(cache: map<Id, Option<C.Breakdown>>, cs: R.Configs, now: int, rows: seq<Row>, i: nat)
    requires i < |rows| && rows[i].order in cache && Remembers(cache, cs, now, rows)
    ensures cache[rows[i].order] == Recomputed(cs, rows[i].deal, now)
  {
    assert rows[i] in rows;
  }

  // ── The reports ───────────────────────────────────────────────────────────────────────

  lemma PrefixTally(es: seq<Entry>, i: nat)
    requires i < |es|
    ensures Tally(es[..i + 1]) == Credit(Tally(es[..i]), es[i])
  {
    assert es[..i + 1] == es[..i] + [es[i]];
    TallyStep(es[..i], es[i]);
  }

  lemma PrefixOrders(rows: seq<Row>, i: nat)
    requires i < |rows|
    ensures Orders(rows[..i + 1]) == Orders(rows[..i]) + {rows[i].order}
  {
    assert rows[..i + 1] == rows[..i] + [rows[i]];
    OrdersStep(rows[..i], rows[i]);
  }

  /** Crediting the i-th row as if it were recomputed alone. */
  lemma PrefixLive(cs: R.Configs, cutoffs: map<Id, int>, now: int, rows: seq<Row>, i: nat, live: seq<Entry>)
    requires i < |rows| && live == LiveEntries(cs, cutoffs, now, rows)
    ensures |live| == |rows|
    ensures Tally(live[..i + 1])
         == Credit(Tally(live[..i]),
                   Entry(rows[i].user, rows[i].kind, LiveAmount(cs, cutoffs, now, rows[i]), Some(rows[i].order)))
  {
    hide LiveAmount;
    hide Tally;
    hide Credit;
    PrefixTally(live, i);
  }

  lemma NothingTallied()
    ensures Tally([]) == map[] && TypeTally([]) == map[] && Rolling(Picked([], Everyone)) == 0
    ensures Orders([]) == {}
  {
  }

  lemma NothingRemembered(cs: R.Configs, now: int, rows: seq<Row>)
    ensures Remembers(map[], cs, now, rows)
  {
  }

  /** The loop over the detailed rows. The breakdown is computed once per order and remembered,
      failures included; the tally is the one that recomputes every row. */
  method TallyLive(cs: R.Configs, cutoffs: map<Id, int>, now: int, rows: seq<Row>)
    returns (members: map<Id, Member>, orders: set<Id>)
    requires Coherent(rows)
    ensures members == Tally(LiveEntries(cs, cutoffs, now, rows))
    ensures orders == Orders(rows)
  {
    hide Remembers;
    hide Coherent;
    hide Orders;
    hide Recomputed;
    hide Projected;
    hide Tally;
    hide Credit;
    hide LiveEntries;
    members, orders := map[], {};
    var cache: map<Id, Option<C.Breakdown>> := map[];
    ghost var live := LiveEntries(cs, cutoffs, now, rows);
    NothingTallied();
    NothingRemembered(cs, now, rows);
    for i := 0 to |rows|
      invariant members == Tally(live[..i])
      invariant orders == Orders(rows[..i])
      invariant Remembers(cache, cs, now, rows)
    {
      var row := rows[i];
      var amount := row.amount;
      if Unpaid(cutoffs, row) {
        if row.order !in cache {
          RememberStep(cache, cs, now, rows, row);
          cache := cache[row.order := Recomputed(cs, row.deal, now)];
        }
        RememberedAt(cache, cs, now, rows, i);
        var b := cache[row.order];
        if b.Some? {
          var shown := Projected(row.kind, b.value);
          if shown.Some? {
            amount := shown.value;
          }
        }
      }
      members := Credit(members, Entry(row.user, row.kind, amount, Some(row.order)));
      orders := orders + {row.order};
      PrefixLive(cs, cutoffs, now, rows, i, live);
      PrefixOrders(rows, i);
    }
    assert live[..|rows|] == live && rows[..|rows|] == rows;
  }

  lemma PrefixAfter(live: seq<Entry>, more: seq<Entry>, i: nat)
    requires i < |more|
    ensures Tally(live + more[..i + 1]) == Credit(Tally(live + more[..i]), more[i])
  {
    hide Tally;
    hide Credit;
    assert live + more[..i + 1] == live + more[..i] + [more[i]];
    TallyStep(live + more[..i], more[i]);
  }

  /** GetTeamIncomeLive over the rows its queries returned. */
  method GetTeamIncomeLive(cs: R.Configs, cutoffs: map<Id, int>, now: int, rows: seq<Row>, pharmacy: seq<Entry>)
    returns (report: Report)
    requires Coherent(rows)
    ensures report.members == Tally(LiveEntries(cs, cutoffs, now, rows) + pharmacy)
    ensures report.orders == Orders(rows)
    ensures Lists(report.listed, report.members)
    ensures report.total == Rolling(TotalsOf(report.members, report.listed))
    ensures report.byType == Merged(report.members, report.listed)
  {
    hide LiveEntries;
    hide Orders;
    hide Tally;
    hide Credit;
    hide Coherent;
    hide Rolling;
    hide Merged;
    var members, orders := TallyLive(cs, cutoffs, now, rows);
    ghost var live := LiveEntries(cs, cutoffs, now, rows);
    assert live + pharmacy[..0] == live;
    for i := 0 to |pharmacy|
      invariant members == Tally(live + pharmacy[..i])
    {
      PrefixAfter(live, pharmacy, i);
      members := Credit(members, pharmacy[i]);
    }
    assert pharmacy[..|pharmacy|] == pharmacy;
    hide Lists;
    var total, byType, listed := TeamTotals(members);
    report := Report(total, byType, members, listed, orders);
  }

  lemma ListOneMore(members: map<Id, Member>, listed: seq<Id>, u: Id)
    requires u in members && forall v :: v in listed ==> v in members
    ensures Rolling(TotalsOf(members, listed + [u])) == C.Cents(Rolling(TotalsOf(members, listed)) + members[u].total)
    ensures Merged(members, listed + [u]) == Merge(Merged(members, listed), members[u].byType)
  {
    hide C.Cents;
    hide Merge;
    assert (listed + [u])[..|listed|] == listed;
    RollingStep(TotalsOf(members, listed), members[u].total);
  }

  /** `listed` holds, once each, the members not in `left`. */
  ghost predicate Remain(members: map<Id, Member>, listed: seq<Id>, left: set<Id>) {
    Distinct(listed) && forall u :: u in listed <==> u in members && u !in left
  }

  lemma ListedOnce(members: map<Id, Member>, listed: seq<Id>, left: set<Id>, u: Id)
    requires Remain(members, listed, left) && u in left && left <= members.Keys
    ensures Remain(members, listed + [u], left - {u})
  {
  }

  lemma ListNone(members: map<Id, Member>)
    ensures Rolling(TotalsOf(members, [])) == 0 && Merged(members, []) == map[]
  {
  }

  /** The loop over the members, in whatever order the map yields them. */
  method TeamTotals(members: map<Id, Member>) returns (total: int, byType: map<EventType, int>, listed: seq<Id>)
    ensures Lists(listed, members)
    ensures total == Rolling(TotalsOf(members, listed))
    ensures byType == Merged(members, listed)
  {
    hide C.Cents;
    hide Rolling;
    hide Merged;
    hide Merge;
    hide TotalsOf;
    total, byType, listed := 0, map[], [];
    ListNone(members);
    var left := members.Keys;
    while left != {}
      invariant left <= members.Keys
      invariant Remain(members, listed, left)
      invariant total == Rolling(TotalsOf(members, listed))
      invariant byType == Merged(members, listed)
      decreases left
    {
      var u :| u in left;
      ListOneMore(members, listed, u);
      ListedOnce(members, listed, left, u);
      left := left - {u};
      var m := members[u];
      listed := listed + [u];
      total := C.Cents(total + m.total);
      byType := AddTypes(byType, m.byType);
    }
  }

  /** The part of a member's figures that was added already. */
  function Except(member: map<EventType, int>, left: set<EventType>): map<EventType, int> {
    map k | k in member && k !in left :: member[k]
  }

  lemma MergeOneMore(team: map<EventType, int>, member: map<EventType, int>, left: set<EventType>, k: EventType)
    requires k in left && left <= member.Keys
    ensures var sum := Merge(team, Except(member, left));
            Merge(team, Except(member, left - {k})) == sum[k := C.Cents(At(sum, k) + member[k])]
  {
    hide C.Cents;
  }

  method AddTypes(team: map<EventType, int>, member: map<EventType, int>) returns (sum: map<EventType, int>)
    ensures sum == Merge(team, member)
  {
    assert Except(member, {}) == member && Merge(team, Except(member, member.Keys)) == team;
    hide C.Cents;
    hide Merge;
    hide Except;
    sum := team;
    var left := member.Keys;
    while left != {}
      invariant left <= member.Keys
      invariant sum == Merge(team, Except(member, left))
      decreases left
    {
      var k :| k in left;
      MergeOneMore(team, member, left, k);
      left := left - {k};
      sum := sum[k := C.Cents(At(sum, k) + member[k])];
    }
  }

  lemma PrefixFrozen(rows: seq<Entry>, i: nat)
    requires i < |rows|
    ensures TypeTally(rows[..i + 1])
         == TypeTally(rows[..i])[rows[i].kind := C.Cents(At(TypeTally(rows[..i]), rows[i].kind) + rows[i].amount)]
    ensures Rolling(Picked(rows[..i + 1], Everyone)) == C.Cents(Rolling(Picked(rows[..i], Everyone)) + rows[i].amount)
  {
    hide C.Cents;
    assert rows[..i + 1][..i] == rows[..i];
    RollingStep(Picked(rows[..i], Everyone), rows[i].amount);
  }

  /** The orders_count of a member is the largest of the member's rows. */
  ghost predicate Largest(rows: seq<Entry>, counts: seq<nat>, n: nat, orders: map<Id, nat>)
    requires n <= |rows| == |counts|
  {
    && (forall i :: 0 <= i < n ==> rows[i].user in orders && counts[i] <= orders[rows[i].user])
    && (forall u :: u in orders ==> exists i :: 0 <= i < n && rows[i].user == u && counts[i] == orders[u])
  }

  lemma LargestStep(rows: seq<Entry>, counts: seq<nat>, n: nat, orders: map<Id, nat>, after: map<Id, nat>)
    requires n < |rows| == |counts| && Largest(rows, counts, n, orders)
    requires after == if rows[n].user in orders && counts[n] <= orders[rows[n].user]
                      then orders else orders[rows[n].user := counts[n]]
    ensures Largest(rows, counts, n + 1, after)
  {
    forall u | u in after
      ensures exists i :: 0 <= i < n + 1 && rows[i].user == u && counts[i] == after[u]
    {
      if u in orders && after[u] == orders[u] {
        var i :| 0 <= i < n && rows[i].user == u && counts[i] == orders[u];
      } else {
        assert rows[n].user == u && counts[n] == after[u];
      }
    }
  }

  /** buildTeamReport over the grouped rows; `counts` is their orders_count column. */
  method BuildTeamReport(rows: seq<Entry>, counts: seq<nat>)
    returns (total: int, byType: map<EventType, int>, members: map<Id, Member>, orders: map<Id, nat>, most: nat)
    requires |counts| == |rows|
    ensures members == Tally(rows)
    ensures byType == TypeTally(rows)
    ensures total == Rolling(Picked(rows, Everyone))
    ensures Largest(rows, counts, |rows|, orders)
    ensures (forall i :: 0 <= i < |counts| ==> counts[i] <= most) && (most != 0 ==> most in counts)
  {
    hide C.Cents;
    hide Tally;
    hide TypeTally;
    hide Rolling;
    hide Picked;
    total, byType, members, orders, most := 0, map[], map[], map[], 0;
    NothingTallied();
    for i := 0 to |rows|
      invariant members == Tally(rows[..i])
      invariant byType == TypeTally(rows[..i])
      invariant total == Rolling(Picked(rows[..i], Everyone))
      invariant Largest(rows, counts, i, orders)
      invariant (forall j :: 0 <= j < i ==> counts[j] <= most) && (most != 0 ==> most in counts)
    {
      PrefixTally(rows, i);
      PrefixFrozen(rows, i);
      var row := rows[i];
      members := Credit(members, row);
      ghost var before := orders;
      if row.user !in orders || counts[i] > orders[row.user] {
        orders := orders[row.user := counts[i]];
      }
      LargestStep(rows, counts, i, before, orders);
      if counts[i] > most {
        most := counts[i];
      }
      total := C.Cents(total + row.amount);
      byType := byType[row.kind := C.Cents(At(byType, row.kind) + row.amount)];
    }
    assert rows[..|rows|] == rows;
  }

  // ── What the figures mean ─────────────────────────────────────────────────────────────

  datatype Filter = Nobody | Everyone | OfUser(u: Id) | OfKind(k: EventType) | OfBoth(user: Id, kind: EventType) {
    predicate Matches(e: Entry) {
      match this
      case Nobody => false
      case Everyone => true
      case OfUser(u) => e.user == u
      case OfKind(k) => e.kind == k
      case OfBoth(u, k) => e.user == u && e.kind == k
    }
  }

  /** The amounts a filter picks, in order. */
  function Picked(es: seq<Entry>, f: Filter): seq<int> {
    if es == [] then []
    else Picked(es[..|es| - 1], f) + if f.Matches(es[|es| - 1]) then [es[|es| - 1].amount] else []
  }

  function Sum(xs: seq<int>): int {
    if xs == [] then 0 else Sum(xs[..|xs| - 1]) + xs[|xs| - 1]
  }

  /** No running sum is below zero. */
  predicate NeverNegative(xs: seq<int>) {
    xs != [] ==> NeverNegative(xs[..|xs| - 1]) && Sum(xs) >= 0
  }

  /** How often a rounded running total is rounded up: a negative one gains a cent. */
  function Dips(xs: seq<int>): nat {
    if xs == [] then 0
    else Dips(xs[..|xs| - 1]) + if Rolling(xs[..|xs| - 1]) + xs[|xs| - 1] < 0 then 1 else 0
  }

  /** A rounded running total is the sum and a cent for every dip. */
  lemma {:induction false} RollingDips(xs: seq<int>)
    ensures Rolling(xs) == Sum(xs) + Dips(xs)
    ensures Dips(xs) == 0 <==> NeverNegative(xs)
  {
    if xs != [] {
      RollingDips(xs[..|xs| - 1]);
      C.CentsOfWhole(Rolling(xs[..|xs| - 1]) + xs[|xs| - 1]);
    }
  }

  /** A rounded running total is the sum exactly when no running sum is ever negative, and
      otherwise it is above it: each dip adds a cent. */
  lemma RollingIsSum(xs: seq<int>)
    ensures Rolling(xs) >= Sum(xs)
    ensures Rolling(xs) == Sum(xs) <==> NeverNegative(xs)
  {
    RollingDips(xs);
  }

  lemma {:induction false} NonnegIsNeverNegative(xs: seq<int>)
    requires forall i :: 0 <= i < |xs| ==> xs[i] >= 0
    ensures NeverNegative(xs) && Sum(xs) >= 0
  {
    if xs != [] {
      NonnegIsNeverNegative(xs[..|xs| - 1]);
    }
  }

  lemma RollingStep(xs: seq<int>, x: int)
    ensures Rolling(xs + [x]) == C.Cents(Rolling(xs) + x)
  {
    assert (xs + [x])[..|xs|] == xs;
  }

  /** What a member's total is: the rounded running total of the member's entries. */
  lemma {:induction false} TallyTotal(es: seq<Entry>, u: Id)
    ensures u in Tally(es) <==> Picked(es, OfUser(u)) != []
    ensures u in Tally(es) ==> Tally(es)[u].total == Rolling(Picked(es, OfUser(u)))
  {
    hide Rolling;
    if es != [] {
      var front, e := es[..|es| - 1], es[|es| - 1];
      TallyTotal(front, u);
      RollingStep(Picked(front, OfUser(u)), e.amount);
      assert Picked(es, OfUser(u))
          == if e.user == u then Picked(front, OfUser(u)) + [e.amount] else Picked(front, OfUser(u));
      assert Rolling([]) == 0 by { RollingIsSum([]); }
    }
  }

  /** And by type. */
  lemma {:induction false} TallyByType(es: seq<Entry>, u: Id, k: EventType)
    ensures u in Tally(es) ==> (k in Tally(es)[u].byType <==> Picked(es, OfBoth(u, k)) != [])
    ensures u in Tally(es) ==> At(Tally(es)[u].byType, k) == Rolling(Picked(es, OfBoth(u, k)))
    ensures u !in Tally(es) ==> Picked(es, OfBoth(u, k)) == []
  {
    hide C.Cents;
    hide Rolling;
    assert Rolling([]) == 0 by { RollingIsSum([]); }
    if es != [] {
      var front, e := es[..|es| - 1], es[|es| - 1];
      TallyByType(front, u, k);
      RollingStep(Picked(front, OfBoth(u, k)), e.amount);
      assert Picked(es, OfBoth(u, k))
          == if e.user == u && e.kind == k then Picked(front, OfBoth(u, k)) + [e.amount]
             else Picked(front, OfBoth(u, k));
    }
  }

  lemma {:induction false} TypeTallyFigures(es: seq<Entry>, k: EventType)
    ensures At(TypeTally(es), k) == Rolling(Picked(es, OfKind(k)))
  {
    hide Rolling;
    assert Rolling([]) == 0 by { RollingIsSum([]); }
    if es != [] {
      var front, e := es[..|es| - 1], es[|es| - 1];
      TypeTallyFigures(front, k);
      RollingStep(Picked(front, OfKind(k)), e.amount);
      assert Picked(es, OfKind(k))
          == if e.kind == k then Picked(front, OfKind(k)) + [e.amount] else Picked(front, OfKind(k));
    }
  }

  /** A member is listed for being paid something, and the member's orders are those paid for. */
  lemma {:induction false} TallyOrders(es: seq<Entry>, u: Id)
    ensures u in Tally(es) <==> exists e :: e in es && e.user == u
    ensures u in Tally(es) ==>
              forall o :: o in Tally(es)[u].orders <==> exists e :: e in es && e.user == u && e.order == Some(o)
    decreases |es|
  {
    hide C.Cents;
    if es != [] {
      var front, last := es[..|es| - 1], es[|es| - 1];
      TallyOrders(front, u);
      assert forall e :: e in es <==> e in front || e == last;
    }
  }
}
