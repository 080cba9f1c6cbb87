/** The reporting hierarchy and its cycle check (hierarchy/repository.go, service.go). */
module Hierarchy {
  import opened Basics

  const MAX_DEPTH := 10

  /** A user_hierarchy row, unique per user. */
  datatype Entry = Entry(parent: Option<Id>, team: Option<Id>)

  type Tree = map<Id, Entry>

  datatype Error = UserNotFound | OwnParent | ParentNotFound | Circular | TeamNotFound

  // ── Ancestors ─────────────────────────────────────────────────────────────────────────

  function ParentOf(t: Tree, u: Id): Option<Id> { if u in t then t[u].parent else None }

  /** The user n links above. */
  function Above(t: Tree, u: Id, n: nat): Option<Id> {
    if n == 0 then Some(u)
    else match Above(t, u, n - 1)
      case None => None
      case Some(v) => ParentOf(t, v)
  }

  predicate IsAbove(t: Tree, p: Id, n: nat, u: Id) { Above(t, p, n) == Some(u) }

  ghost predicate Reaches(t: Tree, p: Id, u: Id) { exists n: nat :: IsAbove(t, p, n, u) }

  /** Fewer than ten links away, where the walk still looks. */
  ghost predicate InDepth(t: Tree, p: Id, u: Id) { exists n: nat :: n < MAX_DEPTH && IsAbove(t, p, n, u) }

  /** No one is above themselves. */
  ghost predicate Acyclic(t: Tree) {
    forall u: Id, n: nat {:trigger Above(t, u, n)} :: n > 0 ==> Above(t, u, n) != Some(u)
  }

  lemma {:induction false} AboveAdd(t: Tree, u: Id, m: nat, n: nat)
    requires Above(t, u, m).Some?
    ensures Above(t, u, m + n) == Above(t, Above(t, u, m).value, n)
    decreases n
  {
    if n > 0 {
      AboveAdd(t, u, m, n - 1);
    }
  }

  lemma {:induction false} AboveExists(t: Tree, u: Id, m: nat, n: nat)
    requires m <= n && Above(t, u, n).Some?
    ensures Above(t, u, m).Some?
    decreases n
  {
    if m < n {
      AboveExists(t, u, m, n - 1);
    }
  }

  // ── The walk ──────────────────────────────────────────────────────────────────────────

  /** Why the walk stopped after these entries: the depth limit, the top, a missing row or a repetition. */
  predicate Stops(t: Tree, u: Id, chain: seq<Id>) {
    |chain| == MAX_DEPTH
    || (|chain| < MAX_DEPTH
        && match Above(t, u, |chain|)
           case None => true
           case Some(v) => v !in t || v in chain)
  }

  /** What GetChainUpward returns: the user and the users above, each with an entry, up to a stop. */
  predicate IsChain(t: Tree, u: Id, chain: seq<Id>) {
    && |chain| <= MAX_DEPTH
    && (forall i :: 0 <= i < |chain| ==> Above(t, u, i) == Some(chain[i]) && chain[i] in t)
    && Stops(t, u, chain)
  }

  /** From one user the walk goes one way. */
  lemma SameNext(t: Tree, u: Id, m: nat, n: nat)
    requires Above(t, u, m) == Above(t, u, n)
    ensures Above(t, u, m + 1) == Above(t, u, n + 1)
  {
  }

  /** Beyond a repetition the walk would only revisit. */
  lemma {:induction false} StaysInChain(t: Tree, u: Id, chain: seq<Id>, n: nat)
    requires |chain| <= n && Above(t, u, |chain|).Some? && Above(t, u, |chain|).value in chain
    requires forall i :: 0 <= i < |chain| ==> Above(t, u, i) == Some(chain[i])
    ensures Above(t, u, n).Some? ==> Above(t, u, n).value in chain
    decreases n
  {
    if n > |chain| && Above(t, u, n).Some? {
      AboveExists(t, u, n - 1, n);
      StaysInChain(t, u, chain, n - 1);
      NextInChain(t, u, chain, n - 1);
    }
  }

  lemma NextInChain(t: Tree, u: Id, chain: seq<Id>, n: nat)
    requires Above(t, u, n).Some? && Above(t, u, n).value in chain && Above(t, u, n + 1).Some?
    requires Above(t, u, |chain|).Some? && Above(t, u, |chain|).value in chain
    requires forall i :: 0 <= i < |chain| ==> Above(t, u, i) == Some(chain[i])
    ensures Above(t, u, n + 1).value in chain
  {
    var i :| 0 <= i < |chain| && chain[i] == Above(t, u, n).value;
    SameNext(t, u, i, n);
    hide Above;
    if i + 1 < |chain| {
      assert Above(t, u, i + 1) == Some(chain[i + 1]);
    }
  }

  /** The chain holds exactly the users with an entry that are fewer than ten links above. */
  lemma ChainMeans(t: Tree, u: Id, chain: seq<Id>, v: Id)
    requires IsChain(t, u, chain)
    ensures v in chain <==> v in t && InDepth(t, u, v)
  {
    if v in chain {
      var i :| 0 <= i < |chain| && chain[i] == v;
      assert IsAbove(t, u, i, v);
    } else if v in t && InDepth(t, u, v) {
      var n: nat :| n < MAX_DEPTH && IsAbove(t, u, n, v);
      assert n >= |chain|;
      AboveExists(t, u, |chain|, n);
      if Above(t, u, |chain|).value in chain {
        StaysInChain(t, u, chain, n);
      } else {
        assert ParentOf(t, Above(t, u, |chain|).value) == None;
        AboveExists(t, u, |chain| + 1, n);
      }
    }
  }

  /** WouldCreateCycle. */
  ghost predicate Detected(t: Tree, u: Id, p: Id) {
    u in t && InDepth(t, p, u)
  }

  // ── Assignments ───────────────────────────────────────────────────────────────────────

  datatype Request = Request(user: Id, parent: Option<Id>, team: Option<Id>)

  /** Upsert. */
  function Upsert(t: Tree, q: Request): Tree { t[q.user := Entry(q.parent, q.team)] }

  ghost function Assigned(t: Tree, users: set<Id>, teams: set<Id>, q: Request): Result<Tree, Error> {
    if q.user !in users then Err(UserNotFound)
    else if q.parent == Some(q.user) then Err(OwnParent)
    else if q.parent.Some? && q.parent.value !in users then Err(ParentNotFound)
    else if q.parent.Some? && Detected(t, q.user, q.parent.value) then Err(Circular)
    else if q.team.Some? && q.team.value !in teams then Err(TeamNotFound)
    else Ok(Upsert(t, q))
  }

  /** AssignTeamID. */
  function Teamed(t: Tree, users: set<Id>, u: Id, team: Id): Result<Tree, Error> {
    if u !in users then Err(UserNotFound)
    else Ok(t[u := Entry(ParentOf(t, u), Some(team))])
  }

  /** An assignment is refused for a user, parent or team that does not exist, for oneself as parent
      and for a cycle the check sees; otherwise the user's entry holds the parent and the team. */
  lemma AssignWrites(t: Tree, users: set<Id>, teams: set<Id>, q: Request)
    ensures var outcome := Assigned(t, users, teams, q);
            && (outcome.Ok? <==>
                  && q.user in users && (q.team.Some? ==> q.team.value in teams)
                  && (q.parent.Some? ==>
                        && q.parent.value in users && q.parent.value != q.user
                        && !(q.user in t && InDepth(t, q.parent.value, q.user))))
            && (outcome.Ok? ==>
                  && q.user in outcome.value && outcome.value - {q.user} == t - {q.user}
                  && outcome.value[q.user].parent == q.parent && outcome.value[q.user].team == q.team)
  {
  }

  /** A team assignment of an existing user sets the team, and no other entry changes. */
  lemma TeamWrites(t: Tree, users: set<Id>, u: Id, team: Id)
    ensures var outcome := Teamed(t, users, u, team);
            && (outcome.Ok? <==> u in users)
            && (outcome.Ok? ==>
                  && u in outcome.value && outcome.value - {u} == t - {u} && outcome.value[u].team == Some(team)
                  && outcome.value[u].parent == (if u in t then t[u].parent else None))
  {
  }

  /** Attaching a user to a team changes no one's ancestors. */
  lemma {:induction false} TeamKeepsAncestors(t: Tree, users: set<Id>, u: Id, team: Id, after: Tree, v: Id, n: nat)
    requires Teamed(t, users, u, team) == Ok(after)
    ensures ParentOf(after, v) == ParentOf(t, v) && Above(after, v, n) == Above(t, v, n)
    decreases n
  {
    if n > 0 {
      TeamKeepsAncestors(t, users, u, team, after, v, n - 1);
    }
  }

  /** The first time a walk meets the user, if it does within n links. */
  lemma {:induction false} FirstMeeting(t: Tree, p: Id, u: Id, n: nat) returns (m: nat)
    requires Above(t, p, n) == Some(u)
    ensures m <= n && Above(t, p, m) == Some(u)
    ensures forall i: nat :: i < m ==> Above(t, p, i) != Some(u)
    decreases n
  {
    m := n;
    if exists i: nat :: i < n && Above(t, p, i) == Some(u) {
      var i: nat :| i < n && Above(t, p, i) == Some(u);
      m := FirstMeeting(t, p, u, i);
    }
  }

  /** Until it meets the user whose entry changed, a walk goes the same way before and after. */
  lemma {:induction false} SameUntil(t: Tree, after: Tree, p: Id, u: Id, m: nat)
    requires forall v :: v != u ==> ParentOf(after, v) == ParentOf(t, v)
    requires forall i: nat :: i < m ==> Above(t, p, i) != Some(u)
    ensures Above(after, p, m) == Above(t, p, m)
    decreases m
  {
    if m > 0 {
      SameUntil(t, after, p, u, m - 1);
    }
  }

  /** A link from u to p closes a cycle exactly when p already reaches u. */
  lemma LinkClosesCycle(t: Tree, q: Request)
    requires Acyclic(t)
    ensures Acyclic(Upsert(t, q)) <==> !(q.parent.Some? && Reaches(t, q.parent.value, q.user))
  {
    var after, u := Upsert(t, q), q.user;
    if q.parent.Some? && Reaches(t, q.parent.value, u) {
      var n: nat :| IsAbove(t, q.parent.value, n, u);
      var m := FirstMeeting(t, q.parent.value, u, n);
      SameUntil(t, after, q.parent.value, u, m);
      assert Above(after, u, 0) == Some(u) && Above(after, u, 1) == q.parent;
      AboveAdd(after, u, 1, m);
    } else {
      forall v: Id, n: nat | n > 0
        ensures Above(after, v, n) != Some(v)
      {
        if Above(after, v, n) == Some(v) {
          CycleIsOld(t, q, v, n);
        }
      }
    }
  }

  /** A cycle after the change that does not use the new link was there before. */
  lemma CycleIsOld(t: Tree, q: Request, v: Id, n: nat)
    requires Acyclic(t) && n > 0 && Above(Upsert(t, q), v, n) == Some(v)
    ensures q.parent.Some? && Reaches(t, q.parent.value, q.user)
  {
    var after, u := Upsert(t, q), q.user;
    if forall i: nat :: i < n ==> Above(after, v, i) != Some(u) {
      SameUntil(after, t, v, u, n);
    } else {
      // The cycle passes through u, so it starts and ends there too.
      var i: nat :| i < n && Above(after, v, i) == Some(u);
      AboveAdd(after, v, n, i);
      AboveAdd(after, v, i, n);
      assert Above(after, u, n) == Some(u);
      assert Above(after, u, 0) == Some(u) && Above(after, u, 1) == q.parent;
      AboveExists(after, u, 1, n);
      AboveAdd(after, u, 1, n - 1);
      var m := FirstMeeting(after, q.parent.value, u, n - 1);
      SameUntil(after, t, q.parent.value, u, m);
      assert IsAbove(t, q.parent.value, m, u);
    }
  }

  /** The link closes a cycle the check does not see: the user has no entry yet, or is ten or more
      links above the new parent. */
  ghost predicate Missed(t: Tree, u: Id, p: Id) {
    Reaches(t, p, u) && (u !in t || !InDepth(t, p, u))
  }

  /** An accepted assignment keeps the hierarchy acyclic if and only if the check missed nothing. */
  lemma AssignKeepsAcyclic(t: Tree, users: set<Id>, teams: set<Id>, q: Request, after: Tree)
    requires Acyclic(t) && Assigned(t, users, teams, q) == Ok(after)
    ensures Acyclic(after) <==> !(q.parent.Some? && Missed(t, q.user, q.parent.value))
  {
    LinkClosesCycle(t, q);
  }

  /** The walk ends at an entry with no parent within the depth limit. */
  ghost predicate Rooted(t: Tree, p: Id) {
    exists n: nat :: n < MAX_DEPTH && Above(t, p, n).Some? && Above(t, p, n).value in t && Above(t, p, n + 1).None?
  }

  /** From such a parent the check answers exactly. */
  lemma RootedIsExact(t: Tree, u: Id, p: Id)
    requires Rooted(t, p)
    ensures Detected(t, u, p) <==> Reaches(t, p, u)
    ensures !Missed(t, u, p)
  {
    if Reaches(t, p, u) {
      var k: nat :| k < MAX_DEPTH && Above(t, p, k).Some? && Above(t, p, k).value in t && Above(t, p, k + 1).None?;
      var n: nat :| IsAbove(t, p, n, u);
      if n > k {
        AboveExists(t, p, k + 1, n);
      } else if n < k {
        AboveExists(t, p, n + 1, k);
      }
    }
  }

  /** Two accepted assignments from an empty hierarchy make two users each other's parent: the first
      gives no entry to the parent, so the second does not find it on its walk. */
  lemma TwoAssignmentsCloseACycle(users: set<Id>, teams: set<Id>, a: Id, b: Id, one: Tree, two: Tree)
    requires a in users && b in users && a != b
    requires one == map[a := Entry(Some(b), None)] && two == one[b := Entry(Some(a), None)]
    ensures Acyclic(map[]) && Assigned(map[], users, teams, Request(a, Some(b), None)) == Ok(one)
    ensures Assigned(one, users, teams, Request(b, Some(a), None)) == Ok(two)
    ensures !Acyclic(two)
  {
    forall u: Id, n: nat | n > 0
      ensures Above(map[], u, n) != Some(u)
    {
      assert ParentOf(map[], u).None?;
      if n > 1 && Above(map[], u, n).Some? {
        AboveExists(map[], u, 1, n);
      }
    }
    assert Above(two, a, 0) == Some(a) && Above(two, a, 1) == Some(b) && Above(two, a, 2) == Some(a);
  }

  // ── Runs ──────────────────────────────────────────────────────────────────────────────

  datatype Op = OpAssign(q: Request) | OpTeam(u: Id, team: Id)

  ghost function Step(t: Tree, users: set<Id>, teams: set<Id>, op: Op): Tree {
    var next := match op
      case OpAssign(q) => Assigned(t, users, teams, q)
      case OpTeam(u, team) => Teamed(t, users, u, team);
    if next.Ok? then next.value else t
  }

  ghost function Run(t: Tree, users: set<Id>, teams: set<Id>, ops: seq<Op>): Tree {
    if ops == [] then t else Step(Run(t, users, teams, ops[..|ops| - 1]), users, teams, ops[|ops| - 1])
  }

  /** The operation is an accepted assignment whose cycle the check does not see. */
  ghost predicate Misses(t: Tree, users: set<Id>, teams: set<Id>, op: Op) {
    && op.OpAssign? && op.q.parent.Some? && Assigned(t, users, teams, op.q).Ok?
    && Missed(t, op.q.user, op.q.parent.value)
  }

  ghost predicate NoneMissed(t: Tree, users: set<Id>, teams: set<Id>, ops: seq<Op>) {
    ops != [] ==>
      && NoneMissed(t, users, teams, ops[..|ops| - 1])
      && !Misses(Run(t, users, teams, ops[..|ops| - 1]), users, teams, ops[|ops| - 1])
  }

  /** Every state of the run is acyclic. */
  ghost predicate AlwaysAcyclic(t: Tree, users: set<Id>, teams: set<Id>, ops: seq<Op>) {
    forall n {:trigger ops[..n]} :: 0 <= n <= |ops| ==> Acyclic(Run(t, users, teams, ops[..n]))
  }

  /** An operation keeps the hierarchy acyclic if and only if it is not an assignment the check
      should have refused. */
  lemma StepKeepsAcyclic(t: Tree, users: set<Id>, teams: set<Id>, op: Op)
    requires Acyclic(t)
    ensures Acyclic(Step(t, users, teams, op)) <==> !Misses(t, users, teams, op)
  {
    hide Acyclic;
    hide Missed;
    match op
    case OpAssign(q) =>
      var next := Assigned(t, users, teams, q);
      if next.Ok? {
        AssignKeepsAcyclic(t, users, teams, q, next.value);
      }
    case OpTeam(u, team) =>
      var next := Teamed(t, users, u, team);
      if next.Ok? {
        TeamKeepsAcyclic(t, users, u, team, next.value);
      }
  }

  lemma TeamKeepsAcyclic(t: Tree, users: set<Id>, u: Id, team: Id, after: Tree)
    requires Acyclic(t) && Teamed(t, users, u, team) == Ok(after)
    ensures Acyclic(after)
  {
    forall v: Id, n: nat | n > 0
      ensures Above(after, v, n) != Some(v)
    {
      TeamKeepsAncestors(t, users, u, team, after, v, n);
    }
  }

  lemma AlwaysAcyclicPeel(t: Tree, users: set<Id>, teams: set<Id>, ops: seq<Op>)
    requires ops != []
    ensures AlwaysAcyclic(t, users, teams, ops)
       <==> AlwaysAcyclic(t, users, teams, ops[..|ops| - 1]) && Acyclic(Run(t, users, teams, ops))
  {
    hide Acyclic;
    hide Run;
    var most := ops[..|ops| - 1];
    assert ops[..|ops|] == ops;
    forall n | 0 <= n < |ops|
      ensures most[..n] == ops[..n]
    {
    }
    if AlwaysAcyclic(t, users, teams, ops) {
      forall n {:trigger most[..n]} | 0 <= n <= |most|
        ensures Acyclic(Run(t, users, teams, most[..n]))
      {
        assert most[..n] == ops[..n];
      }
    }
  }

  /** The hierarchy stays acyclic throughout a run if and only if the check missed no accepted
      assignment of it. */
  lemma {:induction false} RunKeepsAcyclic(t: Tree, users: set<Id>, teams: set<Id>, ops: seq<Op>)
    requires Acyclic(t)
    ensures AlwaysAcyclic(t, users, teams, ops) <==> NoneMissed(t, users, teams, ops)
    ensures NoneMissed(t, users, teams, ops) ==> Acyclic(Run(t, users, teams, ops))
    decreases |ops|
  {
    hide Acyclic;
    hide Step;
    hide Misses;
    if ops != [] {
      var n := |ops| - 1;
      hide AlwaysAcyclic;
      RunKeepsAcyclic(t, users, teams, ops[..n]);
      AlwaysAcyclicPeel(t, users, teams, ops);
      if NoneMissed(t, users, teams, ops[..n]) {
        StepKeepsAcyclic(Run(t, users, teams, ops[..n]), users, teams, ops[n]);
      }
    }
  }

  /** While every new parent's walk ends at an entry with no parent, the check misses nothing. */
  lemma RootedMissesNothing(t: Tree, users: set<Id>, teams: set<Id>, op: Op)
    requires op.OpAssign? && op.q.parent.Some? ==> Rooted(t, op.q.parent.value)
    ensures !Misses(t, users, teams, op)
  {
    if op.OpAssign? && op.q.parent.Some? {
      RootedIsExact(t, op.q.user, op.q.parent.value);
    }
  }

  // ── Ten links up ──────────────────────────────────────────────────────────────────────

  /** Users `low` to `top`, each under the next, all with an entry. */
  function Ladder(low: nat, top: nat): (t: Tree)
    requires low <= top
    ensures forall u: Id :: u in t <==> low <= u <= top
    ensures forall u: Id :: low <= u <= top ==> t[u] == Entry(if u < top then Some(u + 1) else None, None)
    decreases top - low
  {
    var upper := if low < top then Ladder(low + 1, top) else map[];
    upper[low := Entry(if low < top then Some(low + 1) else None, None)]
  }

  /** The assignments that build it, from the top down. */
  function Climb(low: nat, top: nat): seq<Op>
    requires low <= top
    decreases top - low
  {
    (if low < top then Climb(low + 1, top) else [])
    + [OpAssign(Request(low, if low < top then Some(low + 1) else None, None))]
  }

  /** A user without an entry is never found on the walk. */
  lemma NewcomerIsAccepted(t: Tree, users: set<Id>, teams: set<Id>, q: Request)
    requires q.user !in t && q.user in users && q.parent != Some(q.user) && q.team.None?
    requires q.parent.Some? ==> q.parent.value in users
    ensures Step(t, users, teams, OpAssign(q)) == Upsert(t, q)
  {
  }

  lemma {:induction false} ClimbRuns(users: set<Id>, teams: set<Id>, low: nat, top: nat)
    requires low <= top && forall u: nat :: u <= top ==> u in users
    ensures Run(map[], users, teams, Climb(low, top)) == Ladder(low, top)
    decreases top - low
  {
    var ops := Climb(low, top);
    var most := if low < top then Climb(low + 1, top) else [];
    assert ops[..|ops| - 1] == most;
    if low < top {
      ClimbRuns(users, teams, low + 1, top);
    }
    var before := if low < top then Ladder(low + 1, top) else map[];
    assert Run(map[], users, teams, most) == before;
    hide Ladder;
    NewcomerIsAccepted(before, users, teams, ops[|ops| - 1].q);
  }

  lemma {:induction false} LadderAbove(top: nat, u: Id, n: nat)
    ensures Above(Ladder(0, top), u, n) == if n == 0 || u + n <= top then Some(u + n) else None
    decreases n
  {
    if n > 0 {
      LadderAbove(top, u, n - 1);
    }
  }

  /** From an empty table, a chain of users each under the next and then the last under the first:
      the check refuses the last assignment exactly when it is fewer than ten links long, and
      otherwise it is accepted and closes a cycle. */
  lemma LongChainClosesACycle(users: set<Id>, teams: set<Id>, top: nat)
    requires top > 0 && forall u: nat :: u <= top ==> u in users
    ensures var t := Run(map[], users, teams, Climb(0, top));
            var q := Request(top, Some(0), None);
            && Acyclic(t) && Reaches(t, 0, top)
            && (Assigned(t, users, teams, q) == Err(Circular) <==> top < MAX_DEPTH)
            && (top >= MAX_DEPTH ==> Misses(t, users, teams, OpAssign(q)) && !Acyclic(Upsert(t, q)))
  {
    var t, q := Ladder(0, top), Request(top, Some(0), None);
    ClimbRuns(users, teams, 0, top);
    hide Run;
    forall u: Id, n: nat
      ensures Above(t, u, n) == if n == 0 || u + n <= top then Some(u + n) else None
    {
      LadderAbove(top, u, n);
    }
    assert IsAbove(t, 0, top, top);
    assert InDepth(t, 0, top) <==> top < MAX_DEPTH;
    LinkClosesCycle(t, q);
  }

  // ── The service ───────────────────────────────────────────────────────────────────────

  class Service {
    var entries: Tree
    const users: set<Id>
    const teams: set<Id>

    constructor (users: set<Id>, teams: set<Id>)
      ensures entries == map[] && this.users == users && this.teams == teams
    {
      entries := map[];
      this.users := users;
      this.teams := teams;
    }

    /** Walks upward, remembering whom it has visited. */
    method GetChainUpward(u: Id) returns (chain: seq<Id>)
      ensures IsChain(entries, u, chain)
    {
      chain := [];
      var visited: set<Id> := {};
      var current := u;
      for i := 0 to MAX_DEPTH
        invariant |chain| == i
        invariant Above(entries, u, i) == Some(current)
        invariant forall j :: 0 <= j < i ==> Above(entries, u, j) == Some(chain[j]) && chain[j] in entries
        invariant forall v :: v in visited <==> v in chain
      {
        if current in visited {
          return;
        }
        visited := visited + {current};
        if current !in entries {
          return;
        }
        chain := chain + [current];
        if entries[current].parent.None? {
          assert Above(entries, u, i + 1) == None;
          return;
        }
        current := entries[current].parent.value;
      }
    }

    method WouldCreateCycle(u: Id, p: Id) returns (cycle: bool)
      ensures cycle == Detected(entries, u, p)
    {
      var chain := GetChainUpward(p);
      ChainMeans(entries, p, chain, u);
      for i := 0 to |chain|
        invariant u !in chain[..i]
      {
        if chain[i] == u {
          return true;
        }
      }
      assert chain[..|chain|] == chain;
      cycle := false;
    }

    method Assign(q: Request) returns (error: Option<Error>)
      modifies this
      ensures match Assigned(old(entries), users, teams, q)
              case Ok(after) => error == None && entries == after
              case Err(e) => error == Some(e) && entries == old(entries)
    {
      if q.user !in users {
        return Some(UserNotFound);
      }
      if q.parent.Some? {
        if q.parent.value == q.user {
          return Some(OwnParent);
        }
        if q.parent.value !in users {
          return Some(ParentNotFound);
        }
        var cycle := WouldCreateCycle(q.user, q.parent.value);
        if cycle {
          return Some(Circular);
        }
      }
      if q.team.Some? && q.team.value !in teams {
        return Some(TeamNotFound);
      }
      entries := Upsert(entries, q);
      error := None;
    }

    /** Keeps the parent of an entry that exists and creates one without a parent otherwise. */
    method AssignTeamID(u: Id, team: Id) returns (error: Option<Error>)
      modifies this
      ensures match Teamed(old(entries), users, u, team)
              case Ok(after) => error == None && entries == after
              case Err(e) => error == Some(e) && entries == old(entries)
    {
      if u !in users {
        return Some(UserNotFound);
      }
      if u in entries {
        entries := entries[u := entries[u].(team := Some(team))];
      } else {
        entries := entries[u := Entry(None, Some(team))];
      }
      error := None;
    }
  }
}
