/** Commission rates over time: configurations are closed and appended, never rewritten
    (compensation/service.go, repository.go, resolver.go). Instants are integer microseconds, the
    resolution of the timestamp column; rates are integers over 100000. */
module RateBook {
  import opened Basics

  const MILLISECOND := 1000

  datatype Kind = SellerRate | ManagerTeamRate | ManagerPersonalRate | TeamLeadPoolRate | CompanyRate

  datatype Scope = Global | Team(team: Id) | Employee(user: Id)

  /** A commission_configs row; the window is [start, stop). */
  datatype Config = Config(scope: Scope, kind: Kind, rate: int, start: int, stop: Option<int>) {
    predicate Covers(at: int) { start <= at && (stop.Some? ==> stop.value > at) }
    predicate For(s: Scope, k: Kind) { scope == s && kind == k }
  }

  type Configs = map<Id, Config>

  datatype Error = BadRate | NotFound | Closed | Constraint

  /** A row that GetActiveConfig may return. */
  predicate Active(cs: Configs, i: Id, s: Scope, k: Kind) {
    i in cs && cs[i].For(s, k) && cs[i].stop.None?
  }

  /** A row that ResolveRateAtTime may return. */
  predicate Covering(cs: Configs, i: Id, s: Scope, k: Kind, at: int) {
    i in cs && cs[i].For(s, k) && cs[i].Covers(at)
  }

  /** The row before all others in (effective_from descending, id) order. */
  predicate Before(cs: Configs, i: Id, j: Id)
    requires i in cs && j in cs
  {
    cs[j].start < cs[i].start || (cs[j].start == cs[i].start && i <= j)
  }

  predicate Best(cs: Configs, s: Scope, k: Kind, at: int, i: Id) {
    Covering(cs, i, s, k, at) && forall j :: j in cs && Covering(cs, j, s, k, at) ==> Before(cs, i, j)
  }

  /** GetActiveConfig: an open configuration, if there is one. */
  ghost function ActiveId(cs: Configs, s: Scope, k: Kind): (r: Option<Id>)
    ensures r.Some? ==> Active(cs, r.value, s, k)
    ensures r.None? ==> forall i :: !Active(cs, i, s, k)
  {
    if i :| Active(cs, i, s, k) then Some(i) else None
  }

  /** CloseConfig: only an open row can be closed. */
  function Close(cs: Configs, i: Id, stop: int): Configs
    requires i in cs
  {
    cs[i := cs[i].(stop := Some(stop))]
  }

  ghost function CloseActive(cs: Configs, s: Scope, k: Kind, stop: int): Configs {
    var current := ActiveId(cs, s, k);
    if current.Some? then Close(cs, current.value, stop) else cs
  }

  /** CreateConfig: close the open configuration one millisecond before the new one starts. */
  ghost function Create(cs: Configs, i: Id, s: Scope, k: Kind, rate: int, start: int): Result<Configs, Error> {
    if !(0 < rate <= RATE_SCALE) then Err(BadRate)
    else
      var closed := CloseActive(cs, s, k, start - MILLISECOND);
      if i in cs || (exists j :: Active(closed, j, s, k)) then Err(Constraint)
      else Ok(closed[i := Config(s, k, rate, start, None)])
  }

  function Disable(cs: Configs, i: Id, stop: int): Result<Configs, Error> {
    if i !in cs then Err(NotFound)
    else if cs[i].stop.Some? then Err(Closed)
    else Ok(Close(cs, i, stop))
  }

  /** ResolveRateAtTime: the covering configuration with the latest start. */
  function RateAt(cs: Configs, s: Scope, k: Kind, at: int): Option<int> {
    if i :| i in cs && Best(cs, s, k, at, i) then Some(cs[i].rate) else None
  }

  /** RateResolver.Resolve: employee, then team, then global. */
  function Resolved(cs: Configs, user: Option<Id>, team: Option<Id>, k: Kind, at: int): Option<int> {
    var employee := if user.Some? then RateAt(cs, Employee(user.value), k, at) else None;
    if employee.Some? then employee
    else
      var group := if team.Some? then RateAt(cs, Team(team.value), k, at) else None;
      if group.Some? then group else RateAt(cs, Global, k, at)
  }

  // ── What the queries answer ───────────────────────────────────────────────────────────

  /** Of the rows that cover an instant the one that started last is the answer, the one with the
      smallest key when several started then; without one there is no answer. */
  lemma LatestWins(cs: Configs, s: Scope, k: Kind, at: int, i: Id)
    requires Covering(cs, i, s, k, at)
    requires forall j :: Covering(cs, j, s, k, at) && j != i ==>
               cs[j].start < cs[i].start || (cs[j].start == cs[i].start && i < j)
    ensures RateAt(cs, s, k, at) == Some(cs[i].rate)
  {
    assert Best(cs, s, k, at, i);
    BestIsRate(cs, i, s, k, at);
  }

  /** The person's own rate wins, then the team's, then the global one. */
  lemma ResolvedLayers(cs: Configs, user: Option<Id>, team: Option<Id>, k: Kind, at: int)
    ensures user.Some? && RateAt(cs, Employee(user.value), k, at).Some? ==>
              Resolved(cs, user, team, k, at) == RateAt(cs, Employee(user.value), k, at)
    ensures user.None? || RateAt(cs, Employee(user.value), k, at).None? ==>
              Resolved(cs, user, team, k, at) == Resolved(cs, None, team, k, at)
    ensures team.Some? && RateAt(cs, Team(team.value), k, at).Some? ==>
              Resolved(cs, None, team, k, at) == RateAt(cs, Team(team.value), k, at)
    ensures team.None? || RateAt(cs, Team(team.value), k, at).None? ==>
              Resolved(cs, None, team, k, at) == RateAt(cs, Global, k, at)
  {
    hide RateAt;
  }

  // ── What an operation writes ──────────────────────────────────────────────────────────

  /** While the index holds, a creation is refused only for its rate or a taken key. It inserts one
      open row and closes the row that was open for the scope and type, if any, one millisecond
      before; no other row changes. */
  lemma CreateWrites(cs: Configs, i: Id, s: Scope, k: Kind, rate: int, start: int)
    requires OneOpen(cs)
    ensures var outcome := Create(cs, i, s, k, rate, start);
            && (outcome.Ok? <==> 0 < rate <= RATE_SCALE && i !in cs)
            && (outcome.Ok? ==>
                  && outcome.value.Keys == cs.Keys + {i}
                  && outcome.value[i] == Config(s, k, rate, start, None)
                  && forall j :: j in cs ==>
                       outcome.value[j] == if cs[j].For(s, k) && cs[j].stop == None
                                           then cs[j].(stop := Some(start - 1000)) else cs[j])
  {
    if 0 < rate <= RATE_SCALE && i !in cs {
      CreateKeepsOneOpen(cs, i, s, k, rate, start);
      var current := ActiveId(cs, s, k);
      forall j | j in cs && cs[j].For(s, k) && cs[j].stop == None
        ensures current == Some(j)
      {
        assert Active(cs, j, s, k);
      }
    }
  }

  /** Only an open row is closed, at the given instant. */
  lemma DisableWrites(cs: Configs, i: Id, stop: int)
    ensures var outcome := Disable(cs, i, stop);
            && (outcome.Ok? <==> i in cs && cs[i].stop == None)
            && (outcome.Ok? ==> outcome.value == cs[i := cs[i].(stop := Some(stop))])
  {
  }

  // ── Invariants ────────────────────────────────────────────────────────────────────────

  /** At most one open configuration per scope and type, as the partial unique index demands. */
  ghost predicate OneOpen(cs: Configs) {
    forall i, j, s, k {:trigger Active(cs, i, s, k), Active(cs, j, s, k)} ::
      Active(cs, i, s, k) && Active(cs, j, s, k) ==> i == j
  }

  /** No instant is covered twice for one scope and type. */
  ghost predicate Disjoint(cs: Configs) {
    forall i, j, s, k, at {:trigger Covering(cs, i, s, k, at), Covering(cs, j, s, k, at)} ::
      Covering(cs, i, s, k, at) && Covering(cs, j, s, k, at) ==> i == j
  }

  /** The index never refuses a creation, which keeps it satisfied. */
  lemma CreateKeepsOneOpen(cs: Configs, i: Id, s: Scope, k: Kind, rate: int, start: int)
    requires OneOpen(cs) && 0 < rate <= RATE_SCALE && i !in cs
    ensures Create(cs, i, s, k, rate, start).Ok?
    ensures OneOpen(Create(cs, i, s, k, rate, start).value)
  {
    var closed := CloseActive(cs, s, k, start - MILLISECOND);
    forall j
      ensures !Active(closed, j, s, k)
    {
      assert Active(closed, j, s, k) ==> Active(cs, j, s, k);
    }
    var after := closed[i := Config(s, k, rate, start, None)];
    forall x, y, scope, kind | Active(after, x, scope, kind) && Active(after, y, scope, kind)
      ensures x == y
    {
      assert x != i ==> Active(closed, x, scope, kind) && Active(cs, x, scope, kind);
      assert y != i ==> Active(closed, y, scope, kind) && Active(cs, y, scope, kind);
    }
  }

  lemma DisableKeepsOneOpen(cs: Configs, i: Id, stop: int, after: Configs)
    requires OneOpen(cs) && Disable(cs, i, stop) == Ok(after)
    ensures OneOpen(after)
  {
    forall x, y, s, k | Active(after, x, s, k) && Active(after, y, s, k)
      ensures x == y
    {
      assert Active(cs, x, s, k) && Active(cs, y, s, k);
    }
  }

  /** With disjoint windows the covering configuration is the answer. */
  lemma CoveringIsRate(cs: Configs, i: Id, s: Scope, k: Kind, at: int)
    requires Disjoint(cs) && Covering(cs, i, s, k, at)
    ensures RateAt(cs, s, k, at) == Some(cs[i].rate)
  {
    assert Best(cs, s, k, at, i);
  }

  lemma UncoveredHasNoRate(cs: Configs, s: Scope, k: Kind, at: int)
    requires forall i :: !Covering(cs, i, s, k, at)
    ensures RateAt(cs, s, k, at) == None
  {
  }

  /** Two books that cover an instant by the same rates answer alike. */
  lemma SameRate(cs: Configs, after: Configs, s: Scope, k: Kind, at: int)
    requires Disjoint(cs) && Disjoint(after)
    requires forall i :: Covering(cs, i, s, k, at) ==> Covering(after, i, s, k, at) && after[i].rate == cs[i].rate
    requires forall i :: Covering(after, i, s, k, at) ==> Covering(cs, i, s, k, at)
    ensures RateAt(after, s, k, at) == RateAt(cs, s, k, at)
  {
    hide RateAt;
    if i :| Covering(cs, i, s, k, at) {
      CoveringIsRate(cs, i, s, k, at);
      CoveringIsRate(after, i, s, k, at);
    } else {
      UncoveredHasNoRate(cs, s, k, at);
      UncoveredHasNoRate(after, s, k, at);
    }
  }

  /** Only one covering row is before all others. */
  lemma BestIsUnique(cs: Configs, i: Id, j: Id, s: Scope, k: Kind, at: int)
    requires i in cs && Best(cs, s, k, at, i) && j in cs && Best(cs, s, k, at, j)
    ensures i == j
  {
    assert Covering(cs, i, s, k, at) && Covering(cs, j, s, k, at);
    assert Before(cs, i, j) && Before(cs, j, i);
  }

  lemma BestIsRate(cs: Configs, i: Id, s: Scope, k: Kind, at: int)
    requires i in cs && Best(cs, s, k, at, i)
    ensures RateAt(cs, s, k, at) == Some(cs[i].rate)
  {
    var j :| j in cs && Best(cs, s, k, at, j) && RateAt(cs, s, k, at) == Some(cs[j].rate);
    BestIsUnique(cs, i, j, s, k, at);
  }

  /** The same rows cover the instant, from the same starts and at the same rates. */
  ghost predicate SameCover(cs: Configs, after: Configs, s: Scope, k: Kind, at: int) {
    forall i {:trigger Covering(cs, i, s, k, at)} {:trigger Covering(after, i, s, k, at)} ::
      && Covering(after, i, s, k, at) == Covering(cs, i, s, k, at)
      && (Covering(cs, i, s, k, at) ==> after[i].start == cs[i].start && after[i].rate == cs[i].rate)
  }

  lemma NoBestNoRate(cs: Configs, s: Scope, k: Kind, at: int)
    requires forall i :: i in cs ==> !Best(cs, s, k, at, i)
    ensures RateAt(cs, s, k, at) == None
  {
  }

  lemma SameCoverSameBest(cs: Configs, after: Configs, s: Scope, k: Kind, at: int, i: Id)
    requires SameCover(cs, after, s, k, at) && i in cs && Best(cs, s, k, at, i)
    ensures i in after && Best(after, s, k, at, i) && after[i].rate == cs[i].rate
  {
    assert Covering(after, i, s, k, at);
    forall j | j in after && Covering(after, j, s, k, at)
      ensures Before(after, i, j)
    {
      assert Covering(cs, j, s, k, at) && Before(cs, i, j);
    }
  }

  /** Windows may overlap: the same covering rows give the same answer. */
  lemma SameCoverSameRate(cs: Configs, after: Configs, s: Scope, k: Kind, at: int)
    requires SameCover(cs, after, s, k, at)
    ensures RateAt(after, s, k, at) == RateAt(cs, s, k, at)
  {
    hide RateAt;
    hide Best;
    if i :| i in cs && Best(cs, s, k, at, i) {
      SameCoverSameBest(cs, after, s, k, at, i);
      hide SameCover;
      BestIsRate(cs, i, s, k, at);
      BestIsRate(after, i, s, k, at);
    } else {
      SameCoverBack(cs, after, s, k, at);
      NoBestNoRate(cs, s, k, at);
      NoBestNoRate(after, s, k, at);
    }
  }

  lemma SameCoverBack(cs: Configs, after: Configs, s: Scope, k: Kind, at: int)
    requires SameCover(cs, after, s, k, at) && forall i :: i in cs ==> !Best(cs, s, k, at, i)
    ensures forall i :: i in after ==> !Best(after, s, k, at, i)
  {
    hide Best;
    hide Covering;
    if i :| i in after && Best(after, s, k, at, i) {
      SameCoverSameBest(after, cs, s, k, at, i);
    }
  }

  /** A closed window that reaches past `start`. */
  predicate ReachesPast(c: Config, start: int) {
    c.stop.Some? && c.start < c.stop.value && start < c.stop.value
  }

  /** No closed window of the scope and type reaches past `start`. */
  predicate Fits(cs: Configs, s: Scope, k: Kind, start: int) {
    forall j :: j in cs && cs[j].For(s, k) ==> !ReachesPast(cs[j], start)
  }

  /** A creation keeps windows disjoint exactly when no window already closed reaches past its
      start; the one it closes itself never does. */
  lemma CreateKeepsDisjoint(cs: Configs, i: Id, s: Scope, k: Kind, rate: int, start: int, after: Configs)
    requires OneOpen(cs) && Disjoint(cs) && Create(cs, i, s, k, rate, start) == Ok(after)
    ensures Disjoint(after) <==> Fits(cs, s, k, start)
  {
    if j :| j in cs && cs[j].For(s, k) && ReachesPast(cs[j], start) {
      var at := Max(start, cs[j].start);
      assert after[j] == cs[j] && Covering(after, j, s, k, at) && Covering(after, i, s, k, at) && i != j;
    } else {
      hide Create;
      forall x, y, scope, kind, at | Covering(after, x, scope, kind, at) && Covering(after, y, scope, kind, at)
        ensures x == y
      {
        OldCover(cs, i, s, k, rate, start, after, x, scope, kind, at);
        OldCover(cs, i, s, k, rate, start, after, y, scope, kind, at);
      }
    }
  }

  /** What covers an instant after a creation is the new row from its start on, or covered it before. */
  lemma OldCover(cs: Configs, i: Id, s: Scope, k: Kind, rate: int, start: int, after: Configs,
                 x: Id, scope: Scope, kind: Kind, at: int)
    requires OneOpen(cs) && Create(cs, i, s, k, rate, start) == Ok(after)
    requires Covering(after, x, scope, kind, at)
    ensures x == i ==> at >= start && scope == s && kind == k
    ensures x != i ==> Covering(cs, x, scope, kind, at) && after[x].rate == cs[x].rate
    ensures x != i && scope == s && kind == k && at >= start - MILLISECOND ==> ReachesPast(cs[x], at)
  {
    assert x != i && Active(cs, x, s, k) ==> ActiveId(cs, s, k) == Some(x);
  }

  /** A disabled window only loses instants. */
  lemma DisableKeepsDisjoint(cs: Configs, i: Id, stop: int, after: Configs)
    requires Disjoint(cs) && Disable(cs, i, stop) == Ok(after)
    ensures Disjoint(after)
  {
    forall x, y, s, k, at | Covering(after, x, s, k, at) && Covering(after, y, s, k, at)
      ensures x == y
    {
      assert Covering(cs, x, s, k, at) && Covering(cs, y, s, k, at);
    }
  }

  // ── The step function ─────────────────────────────────────────────────────────────────

  /** The millisecond before a change, in which the closed configuration would still have applied. */
  ghost predicate InGap(cs: Configs, s: Scope, k: Kind, start: int, at: int) {
    var current := ActiveId(cs, s, k);
    current.Some? && cs[current.value].start <= at && start - MILLISECOND <= at < start
  }

  /** The whole effect of a creation on resolved rates: its own from its start on, nothing during
      the millisecond before a change, and every earlier rate as it was. */
  lemma CreateIsStep(cs: Configs, i: Id, s: Scope, k: Kind, rate: int, start: int, after: Configs, at: int)
    requires OneOpen(cs) && Disjoint(cs) && Disjoint(after) && Create(cs, i, s, k, rate, start) == Ok(after)
    ensures RateAt(after, s, k, at)
         == if at >= start then Some(rate) else if InGap(cs, s, k, start, at) then None else RateAt(cs, s, k, at)
  {
    hide RateAt;
    var current := ActiveId(cs, s, k);
    if at >= start {
      assert Covering(after, i, s, k, at);
      CoveringIsRate(after, i, s, k, at);
    } else if InGap(cs, s, k, start, at) {
      assert Covering(cs, current.value, s, k, at);
      forall x
        ensures !Covering(after, x, s, k, at)
      {
        if Covering(after, x, s, k, at) {
          OldCover(cs, i, s, k, rate, start, after, x, s, k, at);
        }
      }
      UncoveredHasNoRate(after, s, k, at);
    } else {
      forall x | Covering(after, x, s, k, at)
        ensures Covering(cs, x, s, k, at)
      {
        OldCover(cs, i, s, k, rate, start, after, x, s, k, at);
      }
      SameRate(cs, after, s, k, at);
    }
  }

  /** Other scopes and types do not notice. */
  lemma CreateIsLocal(cs: Configs, i: Id, s: Scope, k: Kind, rate: int, start: int, after: Configs,
                      other: Scope, kind: Kind, at: int)
    requires Create(cs, i, s, k, rate, start) == Ok(after)
    requires other != s || kind != k
    ensures RateAt(after, other, kind, at) == RateAt(cs, other, kind, at)
  {
    hide RateAt;
    hide Create;
    forall x
      ensures Covering(after, x, other, kind, at) == Covering(cs, x, other, kind, at)
      ensures Covering(after, x, other, kind, at) ==> x in cs && x in after && after[x] == cs[x]
    {
      CoverElsewhere(cs, i, s, k, rate, start, after, x, other, kind, at);
    }
    SameCoverSameRate(cs, after, other, kind, at);
  }

  /** More than a millisecond before it starts a new configuration moves no covering row. */
  lemma PastCoverStays(cs: Configs, i: Id, s: Scope, k: Kind, rate: int, start: int, after: Configs,
                       other: Scope, kind: Kind, at: int)
    requires Create(cs, i, s, k, rate, start) == Ok(after) && at < start - MILLISECOND
    ensures SameCover(cs, after, other, kind, at)
  {
    hide Create;
    forall x
      ensures Covering(after, x, other, kind, at) == Covering(cs, x, other, kind, at)
      ensures Covering(cs, x, other, kind, at) ==> after[x].start == cs[x].start && after[x].rate == cs[x].rate
    {
      PastCover(cs, i, s, k, rate, start, after, x, other, kind, at);
    }
  }

  lemma PastCover(cs: Configs, i: Id, s: Scope, k: Kind, rate: int, start: int, after: Configs,
                  x: Id, other: Scope, kind: Kind, at: int)
    requires Create(cs, i, s, k, rate, start) == Ok(after) && at < start - MILLISECOND
    ensures Covering(after, x, other, kind, at) == Covering(cs, x, other, kind, at)
    ensures Covering(cs, x, other, kind, at) ==> after[x].start == cs[x].start && after[x].rate == cs[x].rate
  {
    var current := ActiveId(cs, s, k);
    if x != i && current != Some(x) {
      assert x in after <==> x in cs;
    }
  }

  lemma CoverElsewhere(cs: Configs, i: Id, s: Scope, k: Kind, rate: int, start: int, after: Configs,
                       x: Id, other: Scope, kind: Kind, at: int)
    requires Create(cs, i, s, k, rate, start) == Ok(after)
    requires other != s || kind != k
    ensures Covering(after, x, other, kind, at) == Covering(cs, x, other, kind, at)
    ensures Covering(after, x, other, kind, at) ==> x in cs && x in after && after[x] == cs[x]
  {
    var current := ActiveId(cs, s, k);
    if x != i && current != Some(x) {
      assert x in after <==> x in cs;
    }
  }

  /** Disabling ends the rate from the given instant on and changes nothing before. */
  lemma DisableIsStep(cs: Configs, i: Id, stop: int, after: Configs, at: int)
    requires Disjoint(cs) && Disable(cs, i, stop) == Ok(after)
    ensures RateAt(after, cs[i].scope, cs[i].kind, at)
         == if cs[i].start <= at && stop <= at then None else RateAt(cs, cs[i].scope, cs[i].kind, at)
  {
    hide RateAt;
    DisableKeepsDisjoint(cs, i, stop, after);
    var s, k := cs[i].scope, cs[i].kind;
    if cs[i].start <= at && stop <= at {
      assert Covering(cs, i, s, k, at);
      forall x
        ensures !Covering(after, x, s, k, at)
      {
        assert x != i ==> Covering(after, x, s, k, at) == Covering(cs, x, s, k, at);
      }
      UncoveredHasNoRate(after, s, k, at);
    } else {
      SameRate(cs, after, s, k, at);
    }
  }

  lemma DisableIsLocal(cs: Configs, i: Id, stop: int, after: Configs, s: Scope, k: Kind, at: int)
    requires Disable(cs, i, stop) == Ok(after) && !cs[i].For(s, k)
    ensures RateAt(after, s, k, at) == RateAt(cs, s, k, at)
  {
    hide RateAt;
    SameCoverSameRate(cs, after, s, k, at);
  }

  /** A new configuration leaves every rate resolved more than a millisecond before it starts
      unchanged, for everyone and through all three levels. */
  lemma PastRatesStay(cs: Configs, i: Id, s: Scope, k: Kind, rate: int, start: int, after: Configs,
                      user: Option<Id>, team: Option<Id>, kind: Kind, at: int)
    requires Create(cs, i, s, k, rate, start) == Ok(after) && at < start - MILLISECOND
    ensures Resolved(after, user, team, kind, at) == Resolved(cs, user, team, kind, at)
  {
    hide RateAt;
    hide Create;
    forall other: Scope
      ensures RateAt(after, other, kind, at) == RateAt(cs, other, kind, at)
    {
      PastCoverStays(cs, i, s, k, rate, start, after, other, kind, at);
      SameCoverSameRate(cs, after, other, kind, at);
    }
  }

  /** In the millisecond before an employee's rate changes the employee is paid by the team or
      global rate, although both the old and the new rate are the employee's own. */
  lemma GapFallsThrough(cs: Configs, i: Id, user: Id, team: Option<Id>, k: Kind, rate: int, start: int,
                        after: Configs, at: int)
    requires OneOpen(cs) && Disjoint(cs) && Disjoint(after)
    requires Create(cs, i, Employee(user), k, rate, start) == Ok(after) && InGap(cs, Employee(user), k, start, at)
    ensures Resolved(cs, Some(user), team, k, at) == Some(cs[ActiveId(cs, Employee(user), k).value].rate)
    ensures Resolved(after, Some(user), team, k, at) == Resolved(cs, None, team, k, at)
  {
    hide RateAt;
    hide Create;
    CoveringIsRate(cs, ActiveId(cs, Employee(user), k).value, Employee(user), k, at);
    CreateIsStep(cs, i, Employee(user), k, rate, start, after, at);
    forall other: Scope | other != Employee(user)
      ensures RateAt(after, other, k, at) == RateAt(cs, other, k, at)
    {
      CreateIsLocal(cs, i, Employee(user), k, rate, start, after, other, k, at);
    }
  }

  /** In the millisecond before a global rate changes there is no global rate at all, so nothing
      that needs one (the company rate always does) can be resolved. */
  lemma GapHasNoRate(cs: Configs, i: Id, k: Kind, rate: int, start: int, after: Configs, at: int)
    requires OneOpen(cs) && Disjoint(cs) && Disjoint(after)
    requires Create(cs, i, Global, k, rate, start) == Ok(after) && InGap(cs, Global, k, start, at)
    ensures Resolved(cs, None, None, k, at).Some? && Resolved(after, None, None, k, at).None?
  {
    hide RateAt;
    CoveringIsRate(cs, ActiveId(cs, Global, k).value, Global, k, at);
    CreateIsStep(cs, i, Global, k, rate, start, after, at);
  }

  // ── Runs ──────────────────────────────────────────────────────────────────────────────

  datatype Op =
    | OpCreate(i: Id, s: Scope, k: Kind, rate: int, start: int)
    | OpDisable(i: Id, stop: int)

  ghost function Step(cs: Configs, op: Op): Configs {
    var next := match op
      case OpCreate(i, s, k, rate, start) => Create(cs, i, s, k, rate, start)
      case OpDisable(i, stop) => Disable(cs, i, stop);
    match next
    case Ok(after) => after
    case Err(_) => cs
  }

  ghost function Run(ops: seq<Op>): Configs {
    if ops == [] then map[] else Step(Run(ops[..|ops| - 1]), ops[|ops| - 1])
  }

  /** Every creation starts after every window closed before it. */
  ghost predicate InOrder(ops: seq<Op>) {
    ops != [] ==>
      && InOrder(ops[..|ops| - 1])
      && StartsAfter(Run(ops[..|ops| - 1]), ops[|ops| - 1])
  }

  ghost predicate StartsAfter(cs: Configs, op: Op) {
    op.OpCreate? ==> Fits(cs, op.s, op.k, op.start)
  }

  lemma {:induction false} RunKeepsOneOpen(ops: seq<Op>)
    ensures OneOpen(Run(ops))
    decreases |ops|
  {
    if ops != [] {
      RunKeepsOneOpen(ops[..|ops| - 1]);
      var cs, op := Run(ops[..|ops| - 1]), ops[|ops| - 1];
      if op.OpCreate? {
        if 0 < op.rate <= RATE_SCALE && op.i !in cs {
          CreateKeepsOneOpen(cs, op.i, op.s, op.k, op.rate, op.start);
        }
      } else if Disable(cs, op.i, op.stop).Ok? {
        DisableKeepsOneOpen(cs, op.i, op.stop, Disable(cs, op.i, op.stop).value);
      }
    }
  }

  lemma {:induction false} RunKeepsDisjoint(ops: seq<Op>)
    requires InOrder(ops)
    ensures Disjoint(Run(ops))
    decreases |ops|
  {
    if ops != [] {
      RunKeepsDisjoint(ops[..|ops| - 1]);
      RunKeepsOneOpen(ops[..|ops| - 1]);
      var cs, op := Run(ops[..|ops| - 1]), ops[|ops| - 1];
      if op.OpCreate? {
        var next := Create(cs, op.i, op.s, op.k, op.rate, op.start);
        if next.Ok? {
          CreateKeepsDisjoint(cs, op.i, op.s, op.k, op.rate, op.start, next.value);
        }
      } else if Disable(cs, op.i, op.stop).Ok? {
        DisableKeepsDisjoint(cs, op.i, op.stop, Disable(cs, op.i, op.stop).value);
      }
    }
  }

  /** The rate someone reading the change log would expect: the latest change in force. */
  ghost function Expected(ops: seq<Op>, s: Scope, k: Kind, at: int): Option<int> {
    if ops == [] then None
    else
      var cs, op, before := Run(ops[..|ops| - 1]), ops[|ops| - 1], Expected(ops[..|ops| - 1], s, k, at);
      match op
      case OpCreate(i, scope, kind, rate, start) =>
        if Create(cs, i, scope, kind, rate, start).Ok? && scope == s && kind == k && at >= start
        then Some(rate) else before
      case OpDisable(i, stop) =>
        if Disable(cs, i, stop).Ok? && cs[i].For(s, k) && cs[i].start <= at && stop <= at then None else before
  }

  /** The instant is in no change's gap. */
  ghost predicate OutsideGaps(ops: seq<Op>, s: Scope, k: Kind, at: int) {
    ops != [] ==>
      && OutsideGaps(ops[..|ops| - 1], s, k, at)
      && var cs, op := Run(ops[..|ops| - 1]), ops[|ops| - 1];
         op.OpCreate? && op.s == s && op.k == k ==> !InGap(cs, s, k, op.start, at)
  }

  /** Over every run in order, the resolved rate is the expected step function at every instant
      outside the one-millisecond gaps. */
  lemma {:induction false} RunIsStepFunction(ops: seq<Op>, s: Scope, k: Kind, at: int)
    requires InOrder(ops) && OutsideGaps(ops, s, k, at)
    ensures RateAt(Run(ops), s, k, at) == Expected(ops, s, k, at)
    decreases |ops|
  {
    hide RateAt;
    hide Create;
    if ops == [] {
      UncoveredHasNoRate(Run(ops), s, k, at);
    } else {
      var front := ops[..|ops| - 1];
      RunIsStepFunction(front, s, k, at);
      RunKeepsDisjoint(front);
      RunKeepsOneOpen(front);
      RunKeepsDisjoint(ops);
      StepIsExpected(ops, s, k, at);
    }
  }

  lemma StepIsExpected(ops: seq<Op>, s: Scope, k: Kind, at: int)
    requires ops != [] && OutsideGaps(ops, s, k, at)
    requires OneOpen(Run(ops[..|ops| - 1])) && Disjoint(Run(ops[..|ops| - 1])) && Disjoint(Run(ops))
    requires RateAt(Run(ops[..|ops| - 1]), s, k, at) == Expected(ops[..|ops| - 1], s, k, at)
    ensures RateAt(Run(ops), s, k, at) == Expected(ops, s, k, at)
  {
    hide RateAt;
    hide InGap;
    var cs, op := Run(ops[..|ops| - 1]), ops[|ops| - 1];
    match op
    case OpCreate(i, scope, kind, rate, start) =>
      var next := Create(cs, i, scope, kind, rate, start);
      if next.Ok? {
        if scope == s && kind == k {
          CreateIsStep(cs, i, s, k, rate, start, next.value, at);
        } else {
          CreateIsLocal(cs, i, scope, kind, rate, start, next.value, s, k, at);
        }
      }
    case OpDisable(i, stop) =>
      var next := Disable(cs, i, stop);
      if next.Ok? {
        if cs[i].For(s, k) {
          DisableIsStep(cs, i, stop, next.value, at);
        } else {
          DisableIsLocal(cs, i, stop, next.value, s, k, at);
        }
      }
  }

  /** The layered rate the change log promises: employee, then team, then global. */
  ghost function ExpectedFor(ops: seq<Op>, user: Option<Id>, team: Option<Id>, k: Kind, at: int): Option<int> {
    var employee := if user.Some? then Expected(ops, Employee(user.value), k, at) else None;
    if employee.Some? then employee
    else
      var group := if team.Some? then Expected(ops, Team(team.value), k, at) else None;
      if group.Some? then group else Expected(ops, Global, k, at)
  }

  /** And so is the rate resolved through the three levels. */
  lemma ResolvedIsExpected(ops: seq<Op>, user: Option<Id>, team: Option<Id>, k: Kind, at: int)
    requires InOrder(ops) && OutsideGaps(ops, Global, k, at)
    requires user.Some? ==> OutsideGaps(ops, Employee(user.value), k, at)
    requires team.Some? ==> OutsideGaps(ops, Team(team.value), k, at)
    ensures Resolved(Run(ops), user, team, k, at) == ExpectedFor(ops, user, team, k, at)
  {
    hide RateAt;
    hide Expected;
    RunIsStepFunction(ops, Global, k, at);
    if user.Some? {
      RunIsStepFunction(ops, Employee(user.value), k, at);
    }
    if team.Some? {
      RunIsStepFunction(ops, Team(team.value), k, at);
    }
  }

  // ── The service ───────────────────────────────────────────────────────────────────────

  class Service {
    var configs: Configs

    ghost predicate Valid()
      reads this
    {
      OneOpen(configs)
    }

    constructor ()
      ensures Valid() && configs == map[]
    {
      configs := map[];
    }

    method GetActiveConfig(s: Scope, k: Kind) returns (r: Option<Id>)
      requires Valid()
      ensures r == ActiveId(configs, s, k)
    {
      if i :| i in configs && Active(configs, i, s, k) {
        r := Some(i);
      } else {
        r := None;
        assert ActiveId(configs, s, k).Some? ==> Active(configs, ActiveId(configs, s, k).value, s, k);
      }
    }

    /** Succeeds only on an open row. */
    method CloseConfig(i: Id, stop: int) returns (ok: bool)
      modifies this
      ensures ok == (i in old(configs) && old(configs)[i].stop.None?)
      ensures configs == if ok then Close(old(configs), i, stop) else old(configs)
    {
      ok := i in configs && configs[i].stop.None?;
      if ok {
        configs := Close(configs, i, stop);
      }
    }

    method CreateConfig(i: Id, s: Scope, k: Kind, rate: int, start: int) returns (error: Option<Error>)
      requires Valid()
      modifies this
      ensures Valid()
      ensures match Create(old(configs), i, s, k, rate, start)
              case Ok(after) => error == None && configs == after
              case Err(e) => error == Some(e) && configs == old(configs)
    {
      if !(0 < rate <= RATE_SCALE) {
        return Some(BadRate);
      }
      ghost var before := configs;
      var kept := configs;
      if i !in configs {
        CreateKeepsOneOpen(configs, i, s, k, rate, start);
      }
      var current := GetActiveConfig(s, k);
      if current.Some? {
        var closed := CloseConfig(current.value, start - MILLISECOND);
      }
      assert configs == CloseActive(before, s, k, start - MILLISECOND);
      if i in configs || (exists j :: j in configs && Active(configs, j, s, k)) {
        configs := kept;
        return Some(Constraint);
      }
      configs := configs[i := Config(s, k, rate, start, None)];
      error := None;
    }

    method DisableConfig(i: Id, stop: int) returns (error: Option<Error>)
      requires Valid()
      modifies this
      ensures Valid()
      ensures match Disable(old(configs), i, stop)
              case Ok(after) => error == None && configs == after
              case Err(e) => error == Some(e) && configs == old(configs)
    {
      if i !in configs {
        return Some(NotFound);
      }
      if configs[i].stop.Some? {
        return Some(Closed);
      }
      ghost var before := configs;
      var closed := CloseConfig(i, stop);
      DisableKeepsOneOpen(before, i, stop, configs);
      error := None;
    }
  }
}
