/** What the team income reports add up to, and when the live report and the frozen one agree
    (compensation/live_income.go, income_service.go). */
module IncomeReports {
  import opened Basics
  import opened Totals
  import opened LiveIncome
  import C = Commission
  import R = RateBook

  // ── Sums over parts ───────────────────────────────────────────────────────────────────

  lemma PickedSum(es: seq<Entry>, e: Entry, f: Filter)
    ensures Sum(Picked(es + [e], f)) == Sum(Picked(es, f)) + if f.Matches(e) then e.amount else 0
  {
    PickedStep(es, e, f);
    SumStep(Picked(es, f), e.amount);
  }

  lemma PickedStep(es: seq<Entry>, e: Entry, f: Filter)
    ensures Picked(es + [e], f) == if f.Matches(e) then Picked(es, f) + [e.amount] else Picked(es, f)
  {
    assert (es + [e])[..|es|] == es;
  }

  lemma SumStep(xs: seq<int>, x: int)
    ensures Sum(xs + [x]) == Sum(xs) + x
  {
    assert (xs + [x])[..|xs|] == xs;
  }

  lemma PickedMore(a: seq<Entry>, b: seq<Entry>, e: Entry, f: Filter)
    ensures Sum(Picked(a + (b + [e]), f)) == Sum(Picked(a + b, f)) + if f.Matches(e) then e.amount else 0
  {
    hide Sum;
    hide Picked;
    assert a + (b + [e]) == (a + b) + [e];
    PickedSum(a + b, e, f);
  }

  lemma PickedNothing(a: seq<Entry>, f: Filter)
    ensures Sum(Picked(a + [], f)) == Sum(Picked(a, f)) && Sum(Picked([], f)) == 0
  {
    assert a + [] == a;
  }

  lemma {:induction false} PickedConcat(a: seq<Entry>, b: seq<Entry>, f: Filter)
    ensures Sum(Picked(a + b, f)) == Sum(Picked(a, f)) + Sum(Picked(b, f))
    decreases |b|
  {
    hide Sum;
    hide Picked;
    if b == [] {
      PickedNothing(a, f);
    } else {
      var front, e := b[..|b| - 1], b[|b| - 1];
      PickedConcat(a, front, f);
      assert b == front + [e];
      PickedMore(a, front, e, f);
      PickedSum(front, e, f);
    }
  }

  /** The sum of every part of the entries. */
  function Figure<K(!new)>(es: seq<Entry>, part: K -> Filter): K -> int { x => Sum(Picked(es, part(x))) }

  /** An entry the filter picks falls into exactly one part, and any other into none. */
  ghost predicate Owned<K(!new)>(e: Entry, f: Filter, s: set<K>, part: K -> Filter, owner: Entry -> K) {
    && (f.Matches(e) ==> owner(e) in s)
    && forall x :: x in s ==> (part(x).Matches(e) <==> f.Matches(e) && x == owner(e))
  }

  /** The parts of a filter add up to the whole. */
  lemma {:induction false} PartsSum<K(!new)>(es: seq<Entry>, f: Filter, s: set<K>, part: K -> Filter, owner: Entry -> K)
    requires forall e :: e in es ==> Owned(e, f, s, part, owner)
    ensures Total(s, Figure(es, part)) == Sum(Picked(es, f))
    decreases |es|
  {
    if es == [] {
      TotalZero(s, Figure(es, part));
    } else {
      var front, e := es[..|es| - 1], es[|es| - 1];
      assert es == front + [e] && Owned(e, f, s, part, owner);
      PartsSum(front, f, s, part, owner);
      PickedSum(front, e, f);
      forall x | x in s
        ensures Figure(es, part)(x) == Figure(front, part)(x) + if part(x).Matches(e) then e.amount else 0
      {
        PickedSum(front, e, part(x));
      }
      if f.Matches(e) {
        TotalChange(s, Figure(front, part), Figure(es, part), owner(e));
      } else {
        TotalSame(s, Figure(front, part), Figure(es, part));
      }
    }
  }

  function ByKind(u: Id): EventType -> Filter { k => OfBoth(u, k) }

  function Narrow(f: Filter, u: Id): Filter {
    match f
    case Everyone => OfUser(u)
    case OfKind(k) => OfBoth(u, k)
    case _ => Nobody
  }

  function ByUser(f: Filter): Id -> Filter { (u: Id) => Narrow(f, u) }

  function ByPair(f: Filter): ((Id, EventType)) -> Filter {
    (p: (Id, EventType)) => if f.Matches(Entry(p.0, p.1, 0, None)) then OfBoth(p.0, p.1) else Nobody
  }

  lemma UsersSum(es: seq<Entry>, f: Filter, s: set<Id>)
    requires f.Everyone? || f.OfKind?
    requires forall e :: e in es ==> e.user in s
    ensures Total(s, Figure(es, ByUser(f))) == Sum(Picked(es, f))
  {
    var owner := (e: Entry) => e.user;
    PartsSum(es, f, s, ByUser(f), owner);
  }

  // ── One member ────────────────────────────────────────────────────────────────────────

  /** What the member is shown in a tally, and nothing when not listed. */
  function Shown(ms: map<Id, Member>, u: Id): int { if u in ms then ms[u].total else 0 }

  function ShownBy(ms: map<Id, Member>, u: Id, k: EventType): int { if u in ms then At(ms[u].byType, k) else 0 }

  /** What a member is shown is the sum of the member's entries and a cent for every dip. */
  lemma ShownIs(es: seq<Entry>, u: Id, k: EventType)
    ensures Shown(Tally(es), u) == Sum(Picked(es, OfUser(u))) + Dips(Picked(es, OfUser(u)))
    ensures ShownBy(Tally(es), u, k) == Sum(Picked(es, OfBoth(u, k))) + Dips(Picked(es, OfBoth(u, k)))
  {
    hide Tally;
    hide Picked;
    TallyTotal(es, u);
    TallyByType(es, u, k);
    RollingDips(Picked(es, OfUser(u)));
    RollingDips(Picked(es, OfBoth(u, k)));
  }

  function ValueAt(m: map<EventType, int>): EventType -> int { k => At(m, k) }

  /** The dips of a member's types. */
  function DipsBy(es: seq<Entry>, u: Id): EventType -> int { k => Dips(Picked(es, OfBoth(u, k))) }

  /** A member's figures by type have the sum of the member's entries and of the dips by type. */
  lemma KindsTotal(es: seq<Entry>, u: Id, m: Member)
    requires forall k :: At(m.byType, k) == Sum(Picked(es, OfBoth(u, k))) + Dips(Picked(es, OfBoth(u, k)))
    requires forall k :: Picked(es, OfBoth(u, k)) != [] ==> k in m.byType
    ensures Total(m.byType.Keys, ValueAt(m.byType))
         == Sum(Picked(es, OfUser(u))) + Total(m.byType.Keys, DipsBy(es, u))
  {
    hide Dips;
    hide Sum;
    hide Total;
    var owner := (e: Entry) => e.kind;
    forall e | e in es
      ensures Owned(e, OfUser(u), m.byType.Keys, ByKind(u), owner)
    {
      PickedHas(es, e, OfBoth(e.user, e.kind));
    }
    hide Picked;
    PartsSum(es, OfUser(u), m.byType.Keys, ByKind(u), owner);
    TotalSum(m.byType.Keys, Figure(es, ByKind(u)), DipsBy(es, u), ValueAt(m.byType));
  }

  /** A member's total is the sum of the member's figures by type if and only if the entries dip
      together as often as type by type. */
  lemma MemberAddsUp(es: seq<Entry>, u: Id)
    requires u in Tally(es)
    ensures var m := Tally(es)[u];
            && m.total == Sum(Picked(es, OfUser(u))) + Dips(Picked(es, OfUser(u)))
            && (m.total == Total(m.byType.Keys, ValueAt(m.byType))
                <==> Dips(Picked(es, OfUser(u))) == Total(m.byType.Keys, DipsBy(es, u)))
  {
    hide Tally;
    hide Picked;
    hide Dips;
    hide Sum;
    hide Total;
    hide Rolling;
    var m := Tally(es)[u];
    forall k
      ensures At(m.byType, k) == Sum(Picked(es, OfBoth(u, k))) + Dips(Picked(es, OfBoth(u, k)))
      ensures Picked(es, OfBoth(u, k)) != [] ==> k in m.byType
    {
      ShownIs(es, u, k);
      TallyByType(es, u, k);
    }
    ShownIs(es, u, CourierFee);
    KindsTotal(es, u, m);
  }

  lemma {:induction false} PickedHas(es: seq<Entry>, e: Entry, f: Filter)
    requires e in es && f.Matches(e)
    ensures Picked(es, f) != []
  {
    if es[|es| - 1] != e {
      PickedHas(es[..|es| - 1], e, f);
    }
  }

  /** +1.00 and -0.50 of two types dip only by type: 0.50 in total, 0.51 by type. */
  lemma DipsDoNotAddUp(u: Id)
    ensures var es := [Entry(u, SellerEarned, 100, None), Entry(u, PoolEarned, -50, None)];
            && u in Tally(es) && Tally(es)[u].total == 50
            && Tally(es)[u].byType == map[SellerEarned := 100, PoolEarned := -49]
  {
    var a, b := Entry(u, SellerEarned, 100, None), Entry(u, PoolEarned, -50, None);
    TallyStep([], a);
    TallyStep([a], b);
    assert [] + [a] == [a] && [a] + [b] == [a, b];
    C.CentsOfWhole(100);
    C.CentsOfWhole(50);
    C.CentsOfWhole(-50);
  }

  /** -0.50 of a single type dips once both ways: -0.49 in total and by type. */
  lemma DipsCanAddUp(u: Id)
    ensures var es := [Entry(u, SellerEarned, -50, None)];
            && u in Tally(es) && Tally(es)[u].total == -49 && Tally(es)[u].byType == map[SellerEarned := -49]
  {
    var a := Entry(u, SellerEarned, -50, None);
    TallyStep([], a);
    assert [] + [a] == [a];
    C.CentsOfWhole(-50);
  }

  // ── The team ──────────────────────────────────────────────────────────────────────────

  function TotalAt(ms: map<Id, Member>): Id -> int { (u: Id) => Shown(ms, u) }

  function KindAt(ms: map<Id, Member>, k: EventType): Id -> int { (u: Id) => ShownBy(ms, u, k) }

  function SetOf(us: seq<Id>): (s: set<Id>)
    ensures forall u :: u in s <==> u in us
  {
    if us == [] then {} else SetOf(us[..|us| - 1]) + {us[|us| - 1]}
  }

  lemma DistinctFront(us: seq<Id>)
    requires us != [] && Distinct(us)
    ensures Distinct(us[..|us| - 1]) && us[|us| - 1] !in us[..|us| - 1]
    ensures forall u :: u in us[..|us| - 1] ==> u in us
  {
  }

  predicate Within(us: seq<Id>, ms: map<Id, Member>) {
    forall u :: u in us ==> u in ms
  }

  /** The totals in the order they were listed have the sum of the members' totals. */
  lemma {:induction false} ListedTotals(ms: map<Id, Member>, us: seq<Id>)
    requires Distinct(us) && Within(us, ms)
    ensures Sum(TotalsOf(ms, us)) == Total(SetOf(us), TotalAt(ms))
  {
    hide Distinct;
    hide Sum;
    if us == [] {
      SumOne(0);
    } else {
      var front, u := us[..|us| - 1], us[|us| - 1];
      DistinctFront(us);
      ListedTotals(ms, front);
      TotalAdd(SetOf(front), TotalAt(ms), u);
      SumStep(TotalsOf(ms, front), ms[u].total);
    }
  }

  /** The members' figures of a type, as the loop adds them up. */
  function KindsOf(ms: map<Id, Member>, us: seq<Id>, k: EventType): seq<int>
    requires Within(us, ms)
  {
    if us == [] then []
    else
      var m := ms[us[|us| - 1]];
      KindsOf(ms, us[..|us| - 1], k) + if k in m.byType then [m.byType[k]] else []
  }

  lemma KindsStep(ms: map<Id, Member>, us: seq<Id>, u: Id, k: EventType)
    requires Within(us, ms) && u in ms
    ensures Within(us + [u], ms)
    ensures KindsOf(ms, us + [u], k)
         == KindsOf(ms, us, k) + if k in ms[u].byType then [ms[u].byType[k]] else []
  {
    assert (us + [u])[..|us|] == us;
  }

  lemma {:induction false} ListedKinds(ms: map<Id, Member>, us: seq<Id>, k: EventType)
    requires Distinct(us) && Within(us, ms)
    ensures Sum(KindsOf(ms, us, k)) == Total(SetOf(us), KindAt(ms, k))
  {
    hide Distinct;
    hide Sum;
    hide KindsOf;
    if us == [] {
      assert KindsOf(ms, [], k) == [] by { KindsNone(ms, k); }
      SumOne(0);
    } else {
      var front, u := us[..|us| - 1], us[|us| - 1];
      DistinctFront(us);
      ListedKinds(ms, front, k);
      TotalAdd(SetOf(front), KindAt(ms, k), u);
      assert front + [u] == us;
      KindsStep(ms, front, u, k);
      if k in ms[u].byType {
        SumStep(KindsOf(ms, front, k), ms[u].byType[k]);
      } else {
        assert KindsOf(ms, us, k) == KindsOf(ms, front, k);
      }
    }
  }

  lemma KindsNone(ms: map<Id, Member>, k: EventType)
    ensures KindsOf(ms, [], k) == []
  {
  }

  /** The team's figure of a type is the rounded running total of the members' figures. */
  lemma {:induction false} MergedKinds(ms: map<Id, Member>, us: seq<Id>, k: EventType)
    requires Within(us, ms)
    ensures At(Merged(ms, us), k) == Rolling(KindsOf(ms, us, k))
  {
    if us == [] {
    } else {
      hide Rolling;
      hide KindsOf;
      hide Merge;
      var front, u := us[..|us| - 1], us[|us| - 1];
      MergedKinds(ms, front, k);
      MergedStep(ms, front, u, k);
      KindsStep(ms, front, u, k);
      assert front + [u] == us;
      if k in ms[u].byType {
        RollingStep(KindsOf(ms, front, k), ms[u].byType[k]);
      } else {
        assert KindsOf(ms, us, k) == KindsOf(ms, front, k);
      }
    }
  }

  lemma MergedStep(ms: map<Id, Member>, us: seq<Id>, u: Id, k: EventType)
    requires Within(us, ms) && u in ms
    ensures Within(us + [u], ms)
    ensures At(Merged(ms, us + [u]), k)
         == if k in ms[u].byType then C.Cents(At(Merged(ms, us), k) + ms[u].byType[k]) else At(Merged(ms, us), k)
  {
    hide C.Cents;
    assert (us + [u])[..|us|] == us;
  }

  /** What GetTeamIncomeLive returns for the entries it credits. */
  ghost predicate IsLive(r: Report, es: seq<Entry>) {
    && r.members == Tally(es)
    && Lists(r.listed, r.members)
    && r.total == Rolling(TotalsOf(r.members, r.listed))
    && r.byType == Merged(r.members, r.listed)
  }

  /** The dips of the members' running totals, and of those of one type. */
  function UserDips(es: seq<Entry>): Id -> int { (u: Id) => Dips(Picked(es, OfUser(u))) }

  function KindDips(es: seq<Entry>, k: EventType): Id -> int { (u: Id) => Dips(Picked(es, OfBoth(u, k))) }

  /** All the cents the team total gains: from the members' running totals and from its own. */
  ghost function TeamDips(r: Report, es: seq<Entry>): int
    requires IsLive(r, es)
  {
    Total(r.members.Keys, UserDips(es)) + Dips(TotalsOf(r.members, r.listed))
  }

  ghost function TypeDips(r: Report, es: seq<Entry>, k: EventType): int
    requires IsLive(r, es)
  {
    Total(r.members.Keys, KindDips(es, k)) + Dips(KindsOf(r.members, r.listed, k))
  }

  lemma Credited(es: seq<Entry>, e: Entry)
    requires e in es
    ensures e.user in Tally(es)
  {
    TallyTotal(es, e.user);
    PickedHas(es, e, OfUser(e.user));
  }

  lemma AllCredited(es: seq<Entry>, s: set<Id>)
    requires s == Tally(es).Keys
    ensures forall e :: e in es ==> e.user in s
  {
    forall e | e in es
      ensures e.user in s
    {
      Credited(es, e);
    }
  }

  lemma MembersTotal(es: seq<Entry>, ms: map<Id, Member>)
    requires ms == Tally(es)
    ensures Total(ms.Keys, TotalAt(ms)) == Sum(Picked(es, Everyone)) + Total(ms.Keys, UserDips(es))
  {
    hide Tally;
    hide Picked;
    hide Sum;
    hide Dips;
    hide Total;
    hide Shown;
    AllCredited(es, ms.Keys);
    forall u | u in ms.Keys
      ensures TotalAt(ms)(u) == Figure(es, ByUser(Everyone))(u) + UserDips(es)(u)
    {
      ShownIs(es, u, CourierFee);
    }
    UsersSum(es, Everyone, ms.Keys);
    TotalSum(ms.Keys, Figure(es, ByUser(Everyone)), UserDips(es), TotalAt(ms));
  }

  lemma MembersKind(es: seq<Entry>, ms: map<Id, Member>, k: EventType)
    requires ms == Tally(es)
    ensures Total(ms.Keys, KindAt(ms, k)) == Sum(Picked(es, OfKind(k))) + Total(ms.Keys, KindDips(es, k))
  {
    hide Tally;
    hide Picked;
    hide Sum;
    hide Dips;
    hide Total;
    hide ShownBy;
    AllCredited(es, ms.Keys);
    forall u | u in ms.Keys
      ensures KindAt(ms, k)(u) == Figure(es, ByUser(OfKind(k)))(u) + KindDips(es, k)(u)
    {
      ShownIs(es, u, k);
    }
    UsersSum(es, OfKind(k), ms.Keys);
    TotalSum(ms.Keys, Figure(es, ByUser(OfKind(k))), KindDips(es, k), KindAt(ms, k));
  }

  lemma ListedKeys(r: Report, es: seq<Entry>)
    requires IsLive(r, es)
    ensures SetOf(r.listed) == r.members.Keys && Within(r.listed, r.members) && Distinct(r.listed)
    ensures r.members == Tally(es) && r.byType == Merged(r.members, r.listed)
    ensures r.total == Rolling(TotalsOf(r.members, r.listed))
  {
  }

  lemma TeamTotalIs(r: Report, es: seq<Entry>)
    requires IsLive(r, es)
    ensures r.total == Sum(Picked(es, Everyone)) + TeamDips(r, es)
    ensures r.total == Total(r.members.Keys, TotalAt(r.members)) + Dips(TotalsOf(r.members, r.listed))
  {
    assert TeamDips(r, es) == Total(r.members.Keys, UserDips(es)) + Dips(TotalsOf(r.members, r.listed));
    ListedKeys(r, es);
    hide *;
    MembersTotal(es, r.members);
    ListedTotals(r.members, r.listed);
    RollingDips(TotalsOf(r.members, r.listed));
  }

  lemma TeamTypeIs(r: Report, es: seq<Entry>, k: EventType)
    requires IsLive(r, es)
    ensures At(r.byType, k) == Sum(Picked(es, OfKind(k))) + TypeDips(r, es, k)
    ensures At(r.byType, k) == Total(r.members.Keys, KindAt(r.members, k)) + Dips(KindsOf(r.members, r.listed, k))
  {
    assert TypeDips(r, es, k) == Total(r.members.Keys, KindDips(es, k)) + Dips(KindsOf(r.members, r.listed, k));
    ListedKeys(r, es);
    hide *;
    MembersKind(es, r.members, k);
    MergedKinds(r.members, r.listed, k);
    ListedKinds(r.members, r.listed, k);
    RollingDips(KindsOf(r.members, r.listed, k));
  }

  /** Sums of dips vanish only row by row. */
  lemma NoDips(keys: set<Id>, dips: Id -> int)
    requires forall u :: dips(u) >= 0
    ensures Total(keys, dips) >= 0
    ensures Total(keys, dips) == 0 <==> forall u :: u in keys ==> dips(u) == 0
  {
    TotalNonneg(keys, dips);
    if forall u :: u in keys ==> dips(u) == 0 {
      TotalZero(keys, dips);
    }
  }

  lemma SumsAreNonneg(xs: seq<int>)
    requires NeverNegative(xs)
    ensures Sum(xs) >= 0
  {
  }

  /** The team total is the sum of all entries if and only if no member's running total ever dips,
      whatever order the members were listed in; it is the sum of the members' totals if and only if
      it does not dip itself in that order. */
  lemma TeamAddsUp(r: Report, es: seq<Entry>)
    requires IsLive(r, es)
    ensures r.total == Sum(Picked(es, Everyone)) <==> forall u: Id :: NeverNegative(Picked(es, OfUser(u)))
    ensures r.total == Total(r.members.Keys, TotalAt(r.members))
       <==> NeverNegative(TotalsOf(r.members, r.listed))
  {
    var ms := r.members;
    var xs := TotalsOf(ms, r.listed);
    TeamTotalIs(r, es);
    RollingDips(xs);
    forall u: Id
      ensures Dips(Picked(es, OfUser(u))) == 0 <==> NeverNegative(Picked(es, OfUser(u)))
      ensures u !in ms ==> NeverNegative(Picked(es, OfUser(u)))
      ensures Shown(ms, u) == Sum(Picked(es, OfUser(u))) + Dips(Picked(es, OfUser(u)))
    {
      RollingDips(Picked(es, OfUser(u)));
      TallyTotal(es, u);
      ShownIs(es, u, CourierFee);
    }
    NoDips(ms.Keys, UserDips(es));
    if forall u: Id :: NeverNegative(Picked(es, OfUser(u))) {
      forall i | 0 <= i < |xs|
        ensures xs[i] >= 0
      {
        SumsAreNonneg(Picked(es, OfUser(r.listed[i])));
        assert r.listed[i] in r.listed && xs[i] == Shown(ms, r.listed[i]);
      }
      NonnegIsNeverNegative(xs);
    }
  }

  lemma {:induction false} KindsNonneg(ms: map<Id, Member>, us: seq<Id>, k: EventType)
    requires Within(us, ms) && forall u :: u in us ==> ShownBy(ms, u, k) >= 0
    ensures forall i :: 0 <= i < |KindsOf(ms, us, k)| ==> KindsOf(ms, us, k)[i] >= 0
  {
    if us != [] {
      KindsNonneg(ms, us[..|us| - 1], k);
      assert us[|us| - 1] in us && ShownBy(ms, us[|us| - 1], k) >= 0;
    }
  }

  /** And so is the team's figure of a type, by the members' running totals of that type alone. */
  lemma TeamTypesAddUp(r: Report, es: seq<Entry>, k: EventType)
    requires IsLive(r, es)
    ensures At(r.byType, k) == Sum(Picked(es, OfKind(k))) <==> forall u: Id :: NeverNegative(Picked(es, OfBoth(u, k)))
    ensures At(r.byType, k) == Total(r.members.Keys, KindAt(r.members, k))
       <==> NeverNegative(KindsOf(r.members, r.listed, k))
  {
    var ms := r.members;
    var xs := KindsOf(ms, r.listed, k);
    TeamTypeIs(r, es, k);
    RollingDips(xs);
    forall u: Id
      ensures Dips(Picked(es, OfBoth(u, k))) == 0 <==> NeverNegative(Picked(es, OfBoth(u, k)))
      ensures u !in ms ==> NeverNegative(Picked(es, OfBoth(u, k)))
      ensures ShownBy(ms, u, k) == Sum(Picked(es, OfBoth(u, k))) + Dips(Picked(es, OfBoth(u, k)))
    {
      RollingDips(Picked(es, OfBoth(u, k)));
      TallyByType(es, u, k);
      ShownIs(es, u, k);
    }
    NoDips(ms.Keys, KindDips(es, k));
    if forall u: Id :: NeverNegative(Picked(es, OfBoth(u, k))) {
      forall u | u in r.listed
        ensures ShownBy(ms, u, k) >= 0
      {
        SumsAreNonneg(Picked(es, OfBoth(u, k)));
      }
      KindsNonneg(ms, r.listed, k);
      NonnegIsNeverNegative(xs);
    }
  }

  // ── Grouped rows ──────────────────────────────────────────────────────────────────────

  /** The (user, type) pairs that occur. */
  function Pairs(es: seq<Entry>): (s: set<(Id, EventType)>)
    ensures forall e :: e in es ==> (e.user, e.kind) in s
    ensures forall p :: p in s ==> exists e :: e in es && (e.user, e.kind) == p
  {
    if es == [] then {} else Pairs(es[..|es| - 1]) + {(es[|es| - 1].user, es[|es| - 1].kind)}
  }

  predicate DistinctPairs(es: seq<Entry>) {
    forall i, j :: 0 <= i < j < |es| ==> (es[i].user, es[i].kind) != (es[j].user, es[j].kind)
  }

  /** The result of GROUP BY user, type: one row per pair that occurs, with the sum of its entries. */
  ghost predicate Grouping(groups: seq<Entry>, es: seq<Entry>) {
    && Pairs(groups) == Pairs(es)
    && DistinctPairs(groups)
    && forall g :: g in groups ==> g.amount == Sum(Picked(es, OfBoth(g.user, g.kind)))
  }

  lemma {:induction false} GroupAlone(groups: seq<Entry>, g: Entry)
    requires g in groups
    requires DistinctPairs(groups)
    ensures Picked(groups, OfBoth(g.user, g.kind)) == [g.amount]
  {
    var front, last := groups[..|groups| - 1], groups[|groups| - 1];
    if last == g {
      NonePicked(front, OfBoth(g.user, g.kind));
    } else {
      GroupAlone(front, g);
    }
  }

  lemma {:induction false} NonePicked(es: seq<Entry>, f: Filter)
    requires forall e :: e in es ==> !f.Matches(e)
    ensures Picked(es, f) == []
  {
    if es != [] {
      NonePicked(es[..|es| - 1], f);
    }
  }

  lemma PairsSum(es: seq<Entry>, f: Filter)
    ensures Total(Pairs(es), Figure(es, ByPair(f))) == Sum(Picked(es, f))
  {
    var s, owner := Pairs(es), (e: Entry) => (e.user, e.kind);
    forall e | e in es
      ensures Owned(e, f, s, ByPair(f), owner)
    {
      assert owner(e) in s;
    }
    PartsSum(es, f, s, ByPair(f), owner);
  }

  lemma SumOne(x: int)
    ensures Sum([x]) == x
    ensures Sum([]) == 0
  {
  }

  /** Grouping loses nothing a filter by user and type could tell. */
  lemma GroupingSum(groups: seq<Entry>, es: seq<Entry>, f: Filter)
    requires Grouping(groups, es)
    ensures Sum(Picked(groups, f)) == Sum(Picked(es, f))
  {
    hide DistinctPairs;
    hide Picked;
    hide Sum;
    hide Total;
    hide Pairs;
    PairsSum(es, f);
    PairsSum(groups, f);
    forall p | p in Pairs(es)
      ensures Figure(groups, ByPair(f))(p) == Figure(es, ByPair(f))(p)
    {
      var g :| g in groups && (g.user, g.kind) == p;
      GroupAlone(groups, g);
      SumOne(g.amount);
      NonePicked(es, Nobody);
      NonePicked(groups, Nobody);
    }
    TotalSame(Pairs(es), Figure(groups, ByPair(f)), Figure(es, ByPair(f)));
  }

  // ── Live against frozen ───────────────────────────────────────────────────────────────

  /** Rows that come from the join agree on their order's columns. */
  lemma DetailedIsCoherent(events: seq<Event>, orders: map<Id, Deal>, lead: Id, from: int, to: int)
    ensures Coherent(Detailed(events, orders, lead, from, to))
  {
    var rows := Detailed(events, orders, lead, from, to);
    forall i, j | 0 <= i < |rows| && 0 <= j < |rows| && rows[i].order == rows[j].order
      ensures rows[i].deal == rows[j].deal
    {
      assert rows[i] in rows && rows[j] in rows;
    }
  }

  /** Every row the live report reads was paid out already. */
  predicate Settled(rows: seq<Row>, cutoffs: map<Id, int>) {
    forall r :: r in rows ==> !Unpaid(cutoffs, r)
  }

  /** Paid rows are credited as they were recorded, whatever today's rates are. */
  lemma {:induction false} PaidIsFrozen(cs: R.Configs, cutoffs: map<Id, int>, now: int,
                                        events: seq<Event>, orders: map<Id, Deal>, lead: Id, from: int, to: int)
    requires Settled(Detailed(events, orders, lead, from, to), cutoffs)
    ensures LiveEntries(cs, cutoffs, now, Detailed(events, orders, lead, from, to))
         == Entries(events, orders, lead, from, to, false)
  {
    if events != [] {
      var front, e := events[..|events| - 1], events[|events| - 1];
      var rows := Detailed(front, orders, lead, from, to);
      PaidIsFrozen(cs, cutoffs, now, front, orders, lead, from, to);
      if Selected(e, orders, lead, from, to) && e.kind != CourierFee {
        var row := Row(e.order, e.user.value, e.kind, e.amount, e.at, orders[e.order]);
        assert Detailed(events, orders, lead, from, to) == rows + [row];
        assert row in rows + [row] && !Unpaid(cutoffs, row);
        assert LiveEntries(cs, cutoffs, now, rows + [row])
            == LiveEntries(cs, cutoffs, now, rows) + [Entry(row.user, row.kind, row.amount, Some(row.order))];
      }
    }
  }

  lemma {:induction false} PickedAmounts(es: seq<Entry>, f: Filter)
    requires forall e :: e in es ==> e.amount >= 0
    ensures Dips(Picked(es, f)) == 0
    ensures forall i :: 0 <= i < |Picked(es, f)| ==> Picked(es, f)[i] >= 0
  {
    if es != [] {
      PickedAmounts(es[..|es| - 1], f);
    }
    NonnegIsNeverNegative(Picked(es, f));
    RollingDips(Picked(es, f));
  }

  /** Every figure of the frozen report is the sum of the events it was grouped from and a cent for
      every dip of the grouped rows. */
  lemma FrozenIs(groups: seq<Entry>, es: seq<Entry>, u: Id, k: EventType)
    requires Grouping(groups, es)
    ensures Rolling(Picked(groups, Everyone)) == Sum(Picked(es, Everyone)) + Dips(Picked(groups, Everyone))
    ensures At(TypeTally(groups), k) == Sum(Picked(es, OfKind(k))) + Dips(Picked(groups, OfKind(k)))
    ensures Shown(Tally(groups), u) == Sum(Picked(es, OfUser(u))) + Dips(Picked(groups, OfUser(u)))
    ensures ShownBy(Tally(groups), u, k) == Sum(Picked(es, OfBoth(u, k))) + Dips(Picked(groups, OfBoth(u, k)))
  {
    hide Grouping;
    hide Tally;
    hide TypeTally;
    hide Picked;
    forall f: Filter
      ensures Rolling(Picked(groups, f)) == Sum(Picked(es, f)) + Dips(Picked(groups, f))
      ensures Sum(Picked(groups, f)) == Sum(Picked(es, f))
    {
      RollingDips(Picked(groups, f));
      GroupingSum(groups, es, f);
    }
    TypeTallyFigures(groups, k);
    ShownIs(groups, u, k);
  }

  /** So each is exact if and only if the grouped rows it adds up never dip. */
  lemma FrozenAddsUp(groups: seq<Entry>, es: seq<Entry>, u: Id, k: EventType)
    requires Grouping(groups, es)
    ensures Rolling(Picked(groups, Everyone)) == Sum(Picked(es, Everyone)) <==> NeverNegative(Picked(groups, Everyone))
    ensures At(TypeTally(groups), k) == Sum(Picked(es, OfKind(k))) <==> NeverNegative(Picked(groups, OfKind(k)))
    ensures Shown(Tally(groups), u) == Sum(Picked(es, OfUser(u))) <==> NeverNegative(Picked(groups, OfUser(u)))
    ensures ShownBy(Tally(groups), u, k) == Sum(Picked(es, OfBoth(u, k)))
       <==> NeverNegative(Picked(groups, OfBoth(u, k)))
  {
    hide *;
    FrozenIs(groups, es, u, k);
    RollingDips(Picked(groups, Everyone));
    RollingDips(Picked(groups, OfKind(k)));
    RollingDips(Picked(groups, OfUser(u)));
    RollingDips(Picked(groups, OfBoth(u, k)));
  }

  /** The four figures of the frozen report are those of the live one plus the courier fees. */
  ghost predicate TotalMatches(summary: seq<Entry>, live: Report, fees: seq<Entry>) {
    Rolling(Picked(summary, Everyone)) == live.total + Sum(Picked(fees, Everyone))
  }

  ghost predicate TypeMatches(summary: seq<Entry>, live: Report, fees: seq<Entry>, k: EventType) {
    At(TypeTally(summary), k) == At(live.byType, k) + Sum(Picked(fees, OfKind(k)))
  }

  ghost predicate MemberMatches(summary: seq<Entry>, live: Report, fees: seq<Entry>, u: Id) {
    Shown(Tally(summary), u) == Shown(live.members, u) + Sum(Picked(fees, OfUser(u)))
  }

  ghost predicate MemberTypeMatches(summary: seq<Entry>, live: Report, fees: seq<Entry>, u: Id, k: EventType) {
    ShownBy(Tally(summary), u, k) == ShownBy(live.members, u, k) + Sum(Picked(fees, OfBoth(u, k)))
  }

  /** When every row was paid out, a figure of the frozen report is the live one plus the courier
      fees if and only if the two were rounded up equally often. `pharmacy` are the pharmacy events,
      `grouped` their rows in the live report and `summary` the rows of the frozen one. */
  lemma LiveMatchesFrozen(cs: R.Configs, cutoffs: map<Id, int>, now: int,
                          events: seq<Event>, orders: map<Id, Deal>, lead: Id, from: int, to: int,
                          pharmacy: seq<Entry>, grouped: seq<Entry>, summary: seq<Entry>,
                          live: Report, u: Id, k: EventType)
    requires Settled(Detailed(events, orders, lead, from, to), cutoffs)
    requires Grouping(grouped, pharmacy)
    requires Grouping(summary, Entries(events, orders, lead, from, to, false)
                               + Entries(events, orders, lead, from, to, true) + pharmacy)
    requires IsLive(live, LiveEntries(cs, cutoffs, now, Detailed(events, orders, lead, from, to)) + grouped)
    ensures var es := LiveEntries(cs, cutoffs, now, Detailed(events, orders, lead, from, to)) + grouped;
            var fees := Entries(events, orders, lead, from, to, true);
            && (TotalMatches(summary, live, fees) <==> Dips(Picked(summary, Everyone)) == TeamDips(live, es))
            && (TypeMatches(summary, live, fees, k) <==> Dips(Picked(summary, OfKind(k))) == TypeDips(live, es, k))
            && (MemberMatches(summary, live, fees, u)
                <==> Dips(Picked(summary, OfUser(u))) == Dips(Picked(es, OfUser(u))))
            && (MemberTypeMatches(summary, live, fees, u, k)
                <==> Dips(Picked(summary, OfBoth(u, k))) == Dips(Picked(es, OfBoth(u, k))))
  {
    var base, fees := Entries(events, orders, lead, from, to, false), Entries(events, orders, lead, from, to, true);
    PaidIsFrozen(cs, cutoffs, now, events, orders, lead, from, to);
    FrozenMatches(base, fees, pharmacy, grouped, summary, base + grouped, live, u, k);
  }

  /** The filtered sums of the rows behind the frozen report. */
  lemma SummarySum(base: seq<Entry>, fees: seq<Entry>, pharmacy: seq<Entry>, grouped: seq<Entry>, f: Filter)
    requires Grouping(grouped, pharmacy)
    ensures Sum(Picked(base + fees + pharmacy, f)) == Sum(Picked(base + grouped, f)) + Sum(Picked(fees, f))
  {
    hide *;
    PickedConcat(base + fees, pharmacy, f);
    PickedConcat(base, fees, f);
    PickedConcat(base, grouped, f);
    GroupingSum(grouped, pharmacy, f);
  }

  lemma FrozenMatches(base: seq<Entry>, fees: seq<Entry>, pharmacy: seq<Entry>, grouped: seq<Entry>,
                      summary: seq<Entry>, es: seq<Entry>, live: Report, u: Id, k: EventType)
    requires Grouping(grouped, pharmacy) && Grouping(summary, base + fees + pharmacy)
    requires es == base + grouped && IsLive(live, es)
    ensures TotalMatches(summary, live, fees) <==> Dips(Picked(summary, Everyone)) == TeamDips(live, es)
    ensures TypeMatches(summary, live, fees, k) <==> Dips(Picked(summary, OfKind(k))) == TypeDips(live, es, k)
    ensures MemberMatches(summary, live, fees, u) <==> Dips(Picked(summary, OfUser(u))) == Dips(Picked(es, OfUser(u)))
    ensures MemberTypeMatches(summary, live, fees, u, k)
       <==> Dips(Picked(summary, OfBoth(u, k))) == Dips(Picked(es, OfBoth(u, k)))
  {
    hide Grouping;
    hide Tally;
    hide TypeTally;
    hide Picked;
    hide Sum;
    hide Dips;
    hide Rolling;
    hide Merged;
    hide TeamDips;
    hide TypeDips;
    FrozenIs(summary, base + fees + pharmacy, u, k);
    TeamTotalIs(live, es);
    TeamTypeIs(live, es, k);
    ShownIs(es, u, k);
    SummarySum(base, fees, pharmacy, grouped, Everyone);
    SummarySum(base, fees, pharmacy, grouped, OfKind(k));
    SummarySum(base, fees, pharmacy, grouped, OfUser(u));
    SummarySum(base, fees, pharmacy, grouped, OfBoth(u, k));
  }

  lemma NothingDips(es: seq<Entry>)
    requires forall e :: e in es ==> e.amount >= 0
    ensures forall f: Filter :: NeverNegative(Picked(es, f))
    ensures forall f: Filter :: Dips(Picked(es, f)) == 0
  {
    forall f: Filter
      ensures NeverNegative(Picked(es, f)) && Dips(Picked(es, f)) == 0
    {
      PickedAmounts(es, f);
      RollingDips(Picked(es, f));
    }
  }

  /** With no negative amount nothing dips, in either report. */
  lemma NonnegativeNeverDips(summary: seq<Entry>, es: seq<Entry>, live: Report, u: Id, k: EventType)
    requires IsLive(live, es)
    requires (forall g :: g in summary ==> g.amount >= 0) && forall e :: e in es ==> e.amount >= 0
    ensures Dips(Picked(summary, Everyone)) == 0 && TeamDips(live, es) == 0
    ensures Dips(Picked(summary, OfKind(k))) == 0 && TypeDips(live, es, k) == 0
    ensures Dips(Picked(summary, OfUser(u))) == 0 && Dips(Picked(es, OfUser(u))) == 0
    ensures Dips(Picked(summary, OfBoth(u, k))) == 0 && Dips(Picked(es, OfBoth(u, k))) == 0
  {
    hide *;
    NothingDips(summary);
    NothingDips(es);
    TeamAddsUp(live, es);
    TeamTypesAddUp(live, es, k);
    TeamTotalIs(live, es);
    TeamTypeIs(live, es, k);
  }

  /** With every row paid out and no negative amount, all four figures of the frozen report are the
      live ones plus the courier fees. */
  lemma NonnegativeMatches(cs: R.Configs, cutoffs: map<Id, int>, now: int,
                           events: seq<Event>, orders: map<Id, Deal>, lead: Id, from: int, to: int,
                           pharmacy: seq<Entry>, grouped: seq<Entry>, summary: seq<Entry>,
                           live: Report, u: Id, k: EventType)
    requires Settled(Detailed(events, orders, lead, from, to), cutoffs)
    requires Grouping(grouped, pharmacy)
    requires Grouping(summary, Entries(events, orders, lead, from, to, false)
                               + Entries(events, orders, lead, from, to, true) + pharmacy)
    requires IsLive(live, LiveEntries(cs, cutoffs, now, Detailed(events, orders, lead, from, to)) + grouped)
    requires forall g :: g in summary ==> g.amount >= 0
    requires forall e :: e in Entries(events, orders, lead, from, to, false) + grouped ==> e.amount >= 0
    ensures var fees := Entries(events, orders, lead, from, to, true);
            && TotalMatches(summary, live, fees) && TypeMatches(summary, live, fees, k)
            && MemberMatches(summary, live, fees, u) && MemberTypeMatches(summary, live, fees, u, k)
  {
    hide *;
    PaidIsFrozen(cs, cutoffs, now, events, orders, lead, from, to);
    LiveMatchesFrozen(cs, cutoffs, now, events, orders, lead, from, to, pharmacy, grouped, summary, live, u, k);
    NonnegativeNeverDips(summary, Entries(events, orders, lead, from, to, false) + grouped, live, u, k);
  }

  /** Courier fees are of no other type, so figures of other types agree exactly. */
  lemma FeesAreCourierFees(events: seq<Event>, orders: map<Id, Deal>, lead: Id, from: int, to: int, u: Id, k: EventType)
    requires k != CourierFee
    ensures Picked(Entries(events, orders, lead, from, to, true), OfKind(k)) == []
    ensures Picked(Entries(events, orders, lead, from, to, true), OfBoth(u, k)) == []
  {
    var fees := Entries(events, orders, lead, from, to, true);
    NonePicked(fees, OfKind(k));
    NonePicked(fees, OfBoth(u, k));
  }
}
