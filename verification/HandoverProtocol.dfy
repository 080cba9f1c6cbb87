/** Concurrent handover submissions: every transaction runs statement by statement under READ
    COMMITTED, guarded by an advisory lock on the courier's hash, while dispatchers decide and
    orders are delivered in between (courier/service.go, courier/repository.go). */
module HandoverProtocol {
  import opened Basics
  import opened Totals
  import opened Handovers
  import opened HandoverRules

  /** How far a submission got. */
  datatype Phase =
    | Waiting                                // before pg_advisory_xact_lock returns
    | Locked                                 // lock held, nothing read
    | Limited                                // the declared amount passed the limit
    | Chosen(orders: set<Id>)                // the eligible orders were read

  datatype Tx = Tx(courier: Id, amount: Option<int>, phase: Phase)

  datatype State = State(db: Db, txs: map<Id, Tx>)

  datatype Event =
    | Begin(tx: Id, courier: Id, amount: Option<int>)
    | Acquire(tx: Id)
    | ReadLimit(tx: Id)
    | ReadEligible(tx: Id)
    | Commit(tx: Id, handover: Id)
    | Abort(tx: Id)
    | Deliver(order: Id, row: Order)
    | Rule(d: Decision)
    | Delete(handover: Id)
    | Enter(handover: Id, courier: Id, collected: int, fees: int, toReturn: int)

  /** Some other transaction holds the advisory lock `key`. */
  predicate Held(s: State, hash: Id -> int, key: int, tx: Id) {
    exists x :: x in s.txs && x != tx && !s.txs[x].phase.Waiting? && hash(s.txs[x].courier) == key
  }

  ghost function Drop(s: State, tx: Id): State { s.(txs := s.txs - {tx}) }

  ghost function Commits(s: State, o: Outcome): State {
    match o
    case Ok(db) => s.(db := db)
    case Err(_) => s
  }

  /** One event; an event that cannot happen leaves the state as it is. */
  ghost function Step(hash: Id -> int, s: State, e: Event): State {
    match e
    case Begin(tx, c, amount) =>
      if tx in s.txs then s else s.(txs := s.txs[tx := Tx(c, amount, Waiting)])
    case Acquire(tx) =>
      if tx in s.txs && s.txs[tx].phase.Waiting? && !Held(s, hash, hash(s.txs[tx].courier), tx)
      then s.(txs := s.txs[tx := s.txs[tx].(phase := Locked)]) else s
    case ReadLimit(tx) =>
      if tx in s.txs && s.txs[tx].phase.Locked? then
        var t := s.txs[tx];
        if t.amount.Some? && t.amount.value > Available(s.db, t.courier) then Drop(s, tx)
        else s.(txs := s.txs[tx := t.(phase := Limited)])
      else s
    case ReadEligible(tx) =>
      if tx in s.txs && s.txs[tx].phase.Limited? then
        var t := s.txs[tx];
        var found := Eligible(s.db, t.courier);
        if found == {} && (t.amount.None? || t.amount.value <= 0) then Drop(s, tx)
        else s.(txs := s.txs[tx := t.(phase := Chosen(found))])
      else s
    case Commit(tx, h) =>
      if tx in s.txs && s.txs[tx].phase.Chosen? then
        var t := s.txs[tx];
        if h in s.db.handovers || (t.amount.Some? && t.amount.value < 0) then Drop(s, tx)
        else
          Drop(s, tx).(db := s.db.(handovers :=
            s.db.handovers[h := NewHandover(s.db.orders, t.courier, t.amount, t.phase.orders)]))
      else s
    case Abort(tx) => Drop(s, tx)
    case Deliver(o, row) =>
      if (o in s.db.orders ==> !s.db.orders[o].delivered) && row.delivered && row.payout >= 0
      then s.(db := s.db.(orders := s.db.orders[o := row])) else s
    case Rule(d) => Commits(s, Decide(s.db, d))
    case Delete(h) => Commits(s, DeleteHandover(s.db, h))
    case Enter(h, c, collected, fees, toReturn) => Commits(s, CreateManual(s.db, h, c, collected, fees, toReturn))
  }

  ghost function Run(hash: Id -> int, s: State, es: seq<Event>): State {
    if es == [] then s else Step(hash, Run(hash, s, es[..|es| - 1]), es[|es| - 1])
  }

  // ── One order, one open handover ──────────────────────────────────────────────────────

  /** A submission that read its orders and whose commit the table accepts. */
  predicate Ready(t: Tx) { t.phase.Chosen? && (t.amount.Some? ==> t.amount.value >= 0) }

  /** A submission about to commit chose order `o`. */
  ghost predicate Wanted(s: State, o: Id) {
    exists x :: x in s.txs && Ready(s.txs[x]) && o in s.txs[x].phase.orders
  }

  /** An accepted correction that brings a rejected handover back. */
  predicate Revives(s: State, e: Event) {
    && e.Rule? && e.d.EditHandover? && e.d.h in s.db.handovers
    && s.db.handovers[e.d.h].status.Rejected? && e.d.status == Some(Confirmed)
    && (e.d.actual.Some? ==> e.d.actual.value >= 0)
  }

  /** A correction brings back a handover one of whose orders is claimed by another handover or
      about to be. EditHandover takes no lock and looks for neither. */
  ghost predicate Clashes(s: State, e: Event) {
    && Revives(s, e)
    && exists o :: o in s.db.handovers[e.d.h].lines && (o in Claimed(s.db) || Wanted(s, o))
  }

  /** The advisory lock is held by one transaction at a time. */
  ghost predicate Exclusive(s: State, hash: Id -> int) {
    forall x, y {:trigger Holds(s, x), Holds(s, y)} ::
      Holds(s, x) && Holds(s, y) && hash(s.txs[x].courier) == hash(s.txs[y].courier) ==> x == y
  }

  ghost predicate Holds(s: State, x: Id) { x in s.txs && !s.txs[x].phase.Waiting? }

  /** What a transaction will claim is still unclaimed. */
  ghost predicate Fresh(s: State, x: Id) {
    x in s.txs && Ready(s.txs[x]) ==>
      forall o {:trigger o in s.txs[x].phase.orders} :: o in s.txs[x].phase.orders ==>
        Delivered(s.db.orders, s.txs[x].courier, o) && o !in Claimed(s.db)
  }

  ghost predicate AllFresh(s: State) {
    forall x {:trigger Fresh(s, x)} :: Fresh(s, x)
  }

  ghost predicate Safe(s: State, hash: Id -> int) {
    Good(s.db) && Exclusive(s, hash) && AllFresh(s)
  }

  /** Only a correction of a rejected handover takes a decision out of Rejected. */
  lemma RevivesMeans(s: State, e: Event)
    requires e.Rule? && Decide(s.db, e.d).Ok?
    ensures Revives(s, e) <==>
            s.db.handovers[e.d.h].status.Rejected? && !Decide(s.db, e.d).value.handovers[e.d.h].status.Rejected?
  {
  }

  /** A decision that revives nothing claims nothing new. */
  lemma OtherDecisionIsSafe(s: State, hash: Id -> int, e: Event)
    requires Safe(s, hash) && e.Rule? && !Revives(s, e)
    ensures Safe(Step(hash, s, e), hash)
  {
    var after := Decide(s.db, e.d);
    if after.Ok? {
      RevivesMeans(s, e);
      DecideRewrites(s.db, e.d);
      RewriteKeepsRows(s.db, after.value, e.d.h);
      RewriteKeepsSingleClaim(s.db, after.value, e.d.h);
      ClaimsShrink(s, Step(hash, s, e));
    }
  }

  /** A revived handover claims its orders again. */
  lemma RevivalClaims(db: Db, after: Db, h: Id)
    requires Rewrites(db, after, h)
    requires db.handovers[h].status.Rejected? && !after.handovers[h].status.Rejected?
    ensures Claimed(after) == Claimed(db) + db.handovers[h].lines.Keys
  {
    forall o: Id
      ensures o in Claimed(after) <==> o in Claimed(db) || o in db.handovers[h].lines
    {
      ClaimedIsLinked(db, o);
      ClaimedIsLinked(after, o);
      forall i | i != h
        ensures Links(after, i, o) == Links(db, i, o)
      {
      }
      assert o in db.handovers[h].lines <==> Links(after, h, o);
    }
  }

  /** After a revival the choices are still unclaimed when the handover holds none of them. */
  lemma RevivalFresh(s: State, after: State, h: Id)
    requires AllFresh(s) && after.txs == s.txs && after.db.orders == s.db.orders && h in s.db.handovers
    requires Claimed(after.db) == Claimed(s.db) + s.db.handovers[h].lines.Keys
    ensures AllFresh(after) <==> forall o :: o in s.db.handovers[h].lines ==> !Wanted(s, o)
  {
    if o :| o in s.db.handovers[h].lines && Wanted(s, o) {
      var x :| x in s.txs && Ready(s.txs[x]) && o in s.txs[x].phase.orders;
      assert !Fresh(after, x);
    } else {
      forall x: Id
        ensures Fresh(after, x)
      {
        assert Fresh(s, x);
        assert forall o :: x in s.txs && Ready(s.txs[x]) && o in s.txs[x].phase.orders ==> Wanted(s, o);
      }
    }
  }

  /** A revival is safe exactly when it does not clash. */
  lemma RevivalIsSafe(s: State, hash: Id -> int, e: Event)
    requires Safe(s, hash) && Revives(s, e)
    ensures Safe(Step(hash, s, e), hash) <==> !Clashes(s, e)
  {
    hide Claimed;
    hide Wanted;
    var after := Step(hash, s, e);
    var h := e.d.h;
    assert Decide(s.db, e.d) == Ok(after.db);
    DecideRewrites(s.db, e.d);
    RevivesMeans(s, e);
    hide Decide;
    RewriteKeepsRows(s.db, after.db, h);
    RewriteKeepsSingleClaim(s.db, after.db, h);
    RevivalClaims(s.db, after.db, h);
    RevivalFresh(s, after, h);
    assert forall x :: Holds(after, x) == Holds(s, x);
    assert Exclusive(after, hash);
    if o :| o in s.db.handovers[h].lines && o in Claimed(s.db) {
      assert o in s.db.handovers[h].lines.Keys * Claimed(s.db);
    }
  }

  /** When claims only shrink, nothing chosen becomes stale. */
  lemma ClaimsShrink(s: State, after: State)
    requires AllFresh(s) && after.db.orders == s.db.orders
    requires Claimed(after.db) <= Claimed(s.db)
    requires forall x :: x in after.txs ==> x in s.txs && s.txs[x] == after.txs[x]
    ensures AllFresh(after)
    ensures forall hash: Id -> int :: Exclusive(s, hash) ==> Exclusive(after, hash)
  {
    assert forall x :: Holds(after, x) ==> Holds(s, x);
    forall x: Id
      ensures Fresh(after, x)
    {
      assert Fresh(s, x);
    }
  }

  lemma DeleteIsSafe(s: State, hash: Id -> int, h: Id)
    requires Safe(s, hash)
    ensures Safe(Step(hash, s, Delete(h)), hash)
  {
    var after := DeleteHandover(s.db, h);
    if after.Ok? {
      DeleteKeeps(s.db, after.value, h);
      ClaimsShrink(s, Step(hash, s, Delete(h)));
    }
  }

  lemma EnterIsSafe(s: State, hash: Id -> int, e: Event)
    requires Safe(s, hash) && e.Enter?
    ensures Safe(Step(hash, s, e), hash)
  {
    var after := Step(hash, s, e);
    if after != s {
      forall i | i in after.db.handovers
        ensures HandoverRow(after.db, i)
      {
        assert i != e.handover ==> HandoverRow(s.db, i);
      }
      forall i, j, o | Links(after.db, i, o) && Links(after.db, j, o)
        ensures i == j
      {
        assert Links(s.db, i, o) && Links(s.db, j, o);
      }
      ClaimsShrink(s, after);
    }
  }

  lemma DeliverIsSafe(s: State, hash: Id -> int, e: Event)
    requires Safe(s, hash) && e.Deliver?
    ensures Safe(Step(hash, s, e), hash)
  {
    var after := Step(hash, s, e);
    if after != s {
      forall i | i in after.db.handovers
        ensures HandoverRow(after.db, i)
      {
        assert HandoverRow(s.db, i);
        forall o | o in after.db.handovers[i].lines
          ensures Delivered(after.db.orders, after.db.handovers[i].courier, o)
          ensures after.db.handovers[i].lines[o] == LineOf(after.db.orders[o])
        {
          assert Delivered(s.db.orders, s.db.handovers[i].courier, o);
        }
      }
      forall i, j, o | Links(after.db, i, o) && Links(after.db, j, o)
        ensures i == j
      {
        assert Links(s.db, i, o) && Links(s.db, j, o);
      }
      forall x: Id
        ensures Fresh(after, x)
      {
        assert Fresh(s, x);
      }
      assert forall x :: Holds(after, x) ==> Holds(s, x);
    }
  }

  /** A committed submission claims orders of its own courier, whom no other chooser shares. */
  lemma CommitIsSafe(s: State, hash: Id -> int, e: Event)
    requires Safe(s, hash) && e.Commit?
    ensures Safe(Step(hash, s, e), hash)
  {
    var after := Step(hash, s, e);
    if after.db != s.db {
      var t := s.txs[e.tx];
      assert Fresh(s, e.tx);
      InsertKeepsGood(s.db, after.db, e.handover, t.courier, t.amount, t.phase.orders);
      hide NewHandover;
      hide Good;
      hide Fresh;
      assert forall x :: Holds(after, x) ==> Holds(s, x);
      forall x: Id
        ensures Fresh(after, x)
      {
        CommitFresh(s, hash, e, after, x);
      }
    } else {
      DropIsSafe(s, hash, after);
    }
  }

  lemma CommitFresh(s: State, hash: Id -> int, e: Event, after: State, x: Id)
    requires e.Commit? && Exclusive(s, hash) && Fresh(s, x) && Fresh(s, e.tx)
    requires after == Step(hash, s, e) && after.db != s.db
    ensures Fresh(after, x)
  {
    hide Claimed;
    if x in after.txs && Ready(after.txs[x]) {
      assert Holds(s, x) && Holds(s, e.tx);
      OthersClaim(s.db, after.db, e.handover, s.txs[e.tx].phase.orders);
    }
  }

  lemma OthersClaim(db: Db, after: Db, h: Id, orders: set<Id>)
    requires h !in db.handovers && h in after.handovers && after.handovers == db.handovers[h := after.handovers[h]]
    requires after.handovers[h].lines.Keys <= orders
    ensures forall o :: o in Claimed(after) ==> o in Claimed(db) || o in orders
  {
  }

  lemma DropIsSafe(s: State, hash: Id -> int, after: State)
    requires Safe(s, hash) && after.db == s.db
    requires forall x :: x in after.txs ==> x in s.txs && after.txs[x] == s.txs[x]
    ensures Safe(after, hash)
  {
    assert forall x :: Holds(after, x) ==> Holds(s, x);
    ClaimsShrink(s, after);
  }

  /** Beginning, locking and reading. */
  lemma StatementIsSafe(s: State, hash: Id -> int, e: Event)
    requires Safe(s, hash) && (e.Begin? || e.Acquire? || e.ReadLimit? || e.ReadEligible? || e.Abort?)
    ensures Safe(Step(hash, s, e), hash)
  {
    var after := Step(hash, s, e);
    assert after.db == s.db;
    forall x: Id
      ensures Fresh(after, x)
    {
      assert Fresh(s, x);
    }
    forall x, y | Holds(after, x) && Holds(after, y) && hash(after.txs[x].courier) == hash(after.txs[y].courier)
      ensures x == y
    {
      assert e.Acquire? || (Holds(s, x) && Holds(s, y));
      if e.Acquire? && after != s {
        assert x != e.tx ==> Holds(s, x);
        assert y != e.tx ==> Holds(s, y);
      }
    }
  }

  /** Every event keeps the state safe, a clashing revival excepted. */
  lemma StepIsSafe(s: State, hash: Id -> int, e: Event)
    requires Safe(s, hash)
    ensures Safe(Step(hash, s, e), hash) <==> !Clashes(s, e)
  {
    if Revives(s, e) {
      RevivalIsSafe(s, hash, e);
    } else {
      QuietStepIsSafe(s, hash, e);
    }
  }

  lemma QuietStepIsSafe(s: State, hash: Id -> int, e: Event)
    requires Safe(s, hash) && !Revives(s, e)
    ensures Safe(Step(hash, s, e), hash)
  {
    hide Safe;
    hide Step;
    match e
    case Rule(d) => OtherDecisionIsSafe(s, hash, e);
    case Delete(h) => DeleteIsSafe(s, hash, h);
    case Enter(_, _, _, _, _) => EnterIsSafe(s, hash, e);
    case Deliver(_, _) => DeliverIsSafe(s, hash, e);
    case Commit(_, _) => CommitIsSafe(s, hash, e);
    case _ => StatementIsSafe(s, hash, e);
  }

  ghost predicate NeverClashes(hash: Id -> int, s: State, es: seq<Event>) {
    es != [] ==> NeverClashes(hash, s, es[..|es| - 1]) && !Clashes(Run(hash, s, es[..|es| - 1]), es[|es| - 1])
  }

  /** Every state the run passes through is safe. */
  ghost predicate AlwaysSafe(hash: Id -> int, s: State, es: seq<Event>) {
    forall n {:trigger es[..n]} :: 0 <= n <= |es| ==> Safe(Run(hash, s, es[..n]), hash)
  }

  /** The prefixes of a run are those of all but its last event, and the run itself. */
  lemma PrefixesOf(es: seq<Event>, n: int)
    requires es != [] && 0 <= n <= |es|
    ensures n < |es| ==> es[..|es| - 1][..n] == es[..n]
    ensures n == |es| ==> es[..n] == es
  {
  }

  lemma AlwaysSafePeel(hash: Id -> int, s: State, es: seq<Event>)
    requires es != []
    ensures AlwaysSafe(hash, s, es) <==> AlwaysSafe(hash, s, es[..|es| - 1]) && Safe(Run(hash, s, es), hash)
  {
    hide Safe;
    hide Run;
    var most := es[..|es| - 1];
    forall n | 0 <= n <= |es|
      ensures n < |es| ==> most[..n] == es[..n]
      ensures n == |es| ==> es[..n] == es
    {
      PrefixesOf(es, n);
    }
    assert es[..|es|] == es;
    if AlwaysSafe(hash, s, es) {
      forall n {:trigger most[..n]} | 0 <= n <= |most|
        ensures Safe(Run(hash, s, most[..n]), hash)
      {
        assert most[..n] == es[..n];
      }
    }
  }

  /** Whatever the hash behind the lock, a run stays safe throughout exactly when none of its
      revivals clashes. */
  lemma {:induction false} RunIsSafe(hash: Id -> int, s: State, es: seq<Event>)
    requires Safe(s, hash)
    ensures AlwaysSafe(hash, s, es) <==> NeverClashes(hash, s, es)
    ensures NeverClashes(hash, s, es) ==> Safe(Run(hash, s, es), hash)
    decreases |es|
  {
    hide Safe;
    hide Step;
    hide Clashes;
    if es != [] {
      var n := |es| - 1;
      hide AlwaysSafe;
      RunIsSafe(hash, s, es[..n]);
      AlwaysSafePeel(hash, s, es);
      if NeverClashes(hash, s, es[..n]) {
        StepIsSafe(Run(hash, s, es[..n]), hash, es[n]);
      }
    }
  }

  function Empty(): State { State(Db(map[], map[]), map[]) }

  lemma EmptyIsSafe(hash: Id -> int)
    ensures Safe(Empty(), hash)
  {
  }

  /** In every interleaving of submissions, decisions, deletions and deliveries in which no
      correction clashes, no order is in two pending, confirmed or disputed handovers, whatever the
      hash function behind the lock. */
  lemma NoDoubleClaim(hash: Id -> int, es: seq<Event>)
    requires NeverClashes(hash, Empty(), es)
    ensures SingleClaim(Run(hash, Empty(), es).db)
  {
    EmptyIsSafe(hash);
    hide Run;
    RunIsSafe(hash, Empty(), es);
  }

  /** A submission that gives up changes no row and lets the next one with its lock go on. */
  lemma AbortFrees(hash: Id -> int, s: State, tx: Id, y: Id)
    requires Exclusive(s, hash) && Holds(s, tx) && y in s.txs && s.txs[y].phase.Waiting?
    requires hash(s.txs[y].courier) == hash(s.txs[tx].courier)
    ensures var after := Step(hash, s, Abort(tx));
            && after.db == s.db && after.txs == s.txs - {tx}
            && Step(hash, after, Acquire(y)).txs == after.txs[y := s.txs[y].(phase := Locked)]
  {
    var after := Step(hash, s, Abort(tx));
    if Held(after, hash, hash(s.txs[y].courier), y) {
      var x :| x in after.txs && x != y && !after.txs[x].phase.Waiting? && hash(after.txs[x].courier)
                                                                           == hash(s.txs[y].courier);
      assert Holds(s, x);
    }
  }

  // ── The condition is exact ────────────────────────────────────────────────────────────

  /** Orders are claimed once, and still are after any one submission commits. */
  ghost predicate StaysSingle(hash: Id -> int, s: State) {
    && SingleClaim(s.db)
    && forall x: Id, i: Id {:trigger Commit(x, i)} :: SingleClaim(Step(hash, s, Commit(x, i)).db)
  }

  lemma SafeStaysSingle(hash: Id -> int, s: State)
    requires Safe(s, hash)
    ensures StaysSingle(hash, s)
  {
    hide Step;
    forall x: Id, i: Id
      ensures SingleClaim(Step(hash, s, Commit(x, i)).db)
    {
      CommitIsSafe(s, hash, Commit(x, i));
    }
  }

  /** A key no row has. */
  lemma {:induction false} UnusedKey(keys: set<Id>) returns (unused: Id)
    ensures forall k :: k in keys ==> k < unused
    decreases |keys|
  {
    unused := 0;
    if keys != {} {
      var k :| k in keys;
      unused := UnusedKey(keys - {k});
      assert forall x :: x in keys ==> x == k || x in keys - {k};
      if unused <= k {
        unused := k + 1;
      }
    }
  }

  /** When a handover that is not rejected links an order that a submission is about to commit,
      that commit links it twice. */
  lemma StaleCommit(hash: Id -> int, s: State, x: Id, i: Id, h: Id, o: Id)
    requires x in s.txs && Ready(s.txs[x]) && o in s.txs[x].phase.orders && o in s.db.orders
    requires Links(s.db, h, o) && i !in s.db.handovers
    ensures !SingleClaim(Step(hash, s, Commit(x, i)).db)
  {
    hide Total;
    var after := Step(hash, s, Commit(x, i)).db;
    assert Links(after, i, o) && Links(after, h, o);
  }

  /** The second way an order gets claimed twice: a submission has read it, a correction that takes
      no lock revives a handover that holds it, and the submission commits. The correction alone may
      look harmless. */
  lemma StaleRevival(hash: Id -> int, s: State, e: Event, x: Id, i: Id, o: Id)
    requires Safe(s, hash) && Revives(s, e) && o in s.db.handovers[e.d.h].lines
    requires x in s.txs && Ready(s.txs[x]) && o in s.txs[x].phase.orders && i !in s.db.handovers
    ensures SingleClaim(Step(hash, s, e).db) <==> s.db.handovers[e.d.h].lines.Keys * Claimed(s.db) == {}
    ensures !SingleClaim(Step(hash, Step(hash, s, e), Commit(x, i)).db)
  {
    var after := RevivedState(hash, s, e);
    assert Fresh(s, x);
    RewriteKeepsSingleClaim(s.db, after.db, e.d.h);
    hide Step;
    hide Claimed;
    StaleCommit(hash, after, x, i, e.d.h, o);
  }

  /** What a revival leaves. */
  lemma RevivedState(hash: Id -> int, s: State, e: Event) returns (after: State)
    requires Revives(s, e)
    ensures after == Step(hash, s, e) && after.txs == s.txs && Rewrites(s.db, after.db, e.d.h)
    ensures !after.db.handovers[e.d.h].status.Rejected?
    ensures forall o :: o in s.db.handovers[e.d.h].lines ==> Links(after.db, e.d.h, o)
  {
    after := Step(hash, s, e);
    DecideRewrites(s.db, e.d);
  }

  /** A clashing revival links an order twice at once, or a commit already under way does. */
  lemma ClashDoubleClaims(hash: Id -> int, s: State, e: Event)
    requires Safe(s, hash) && Clashes(s, e)
    ensures !StaysSingle(hash, Step(hash, s, e))
  {
    var after := RevivedState(hash, s, e);
    var h := e.d.h;
    var o :| o in s.db.handovers[h].lines && (o in Claimed(s.db) || Wanted(s, o));
    if o in Claimed(s.db) {
      assert o in s.db.handovers[h].lines.Keys * Claimed(s.db);
      RewriteKeepsSingleClaim(s.db, after.db, h);
    } else {
      var x :| x in s.txs && Ready(s.txs[x]) && o in s.txs[x].phase.orders;
      var i := UnusedKey(s.db.handovers.Keys);
      assert i !in s.db.handovers;
      hide Step;
      hide Safe;
      StaleRevival(hash, s, e, x, i, o);
    }
  }

  /** Every state of the run keeps orders claimed once, also after a commit under way. */
  ghost predicate AlwaysSingle(hash: Id -> int, s: State, es: seq<Event>) {
    forall n {:trigger es[..n]} :: 0 <= n <= |es| ==> StaysSingle(hash, Run(hash, s, es[..n]))
  }

  /** The first clash of a run ends the single claims, so no weaker condition on revivals will do. */
  lemma {:induction false} ClashIsSeen(hash: Id -> int, s: State, es: seq<Event>)
    requires Safe(s, hash) && AlwaysSingle(hash, s, es)
    ensures NeverClashes(hash, s, es)
    decreases |es|
  {
    hide Safe;
    hide Step;
    hide Clashes;
    hide StaysSingle;
    if es != [] {
      var n := |es| - 1;
      var most := es[..n];
      forall k {:trigger most[..k]} | 0 <= k <= |most|
        ensures StaysSingle(hash, Run(hash, s, most[..k]))
      {
        PrefixesOf(es, k);
      }
      ClashIsSeen(hash, s, most);
      RunIsSafe(hash, s, most);
      assert es[..|es|] == es;
      if Clashes(Run(hash, s, most), es[n]) {
        ClashDoubleClaims(hash, Run(hash, s, most), es[n]);
      }
    }
  }

  /** Exactly the runs without a clash keep every order in one open handover, whichever of the
      submissions under way commits next. */
  lemma SingleExactly(hash: Id -> int, s: State, es: seq<Event>)
    requires Safe(s, hash)
    ensures AlwaysSingle(hash, s, es) <==> NeverClashes(hash, s, es)
  {
    hide *;
    if NeverClashes(hash, s, es) {
      RunIsSafe(hash, s, es);
      forall n {:trigger es[..n]} | 0 <= n <= |es|
        ensures StaysSingle(hash, Run(hash, s, es[..n]))
      {
        assert Safe(Run(hash, s, es[..n]), hash) by { AlwaysSafeAt(hash, s, es, n); }
        SafeStaysSingle(hash, Run(hash, s, es[..n]));
      }
      AlwaysSingleFrom(hash, s, es);
    } else if AlwaysSingle(hash, s, es) {
      ClashIsSeen(hash, s, es);
    }
  }

  lemma AlwaysSafeAt(hash: Id -> int, s: State, es: seq<Event>, n: int)
    requires AlwaysSafe(hash, s, es) && 0 <= n <= |es|
    ensures Safe(Run(hash, s, es[..n]), hash)
  {
  }

  lemma AlwaysSingleFrom(hash: Id -> int, s: State, es: seq<Event>)
    requires forall n {:trigger es[..n]} :: 0 <= n <= |es| ==> StaysSingle(hash, Run(hash, s, es[..n]))
    ensures AlwaysSingle(hash, s, es)
  {
  }

  /** A submission nobody interrupts is SubmitHandover as one transaction. */
  lemma UninterruptedIsSubmit(hash: Id -> int, s: State, tx: Id, h: Id)
    requires tx in s.txs && s.txs[tx].phase.Waiting?
    requires !Held(s, hash, hash(s.txs[tx].courier), tx)
    ensures var t := s.txs[tx];
            var locked := Step(hash, s, Acquire(tx));
            var limited := Step(hash, locked, ReadLimit(tx));
            var chosen := Step(hash, limited, ReadEligible(tx));
            Step(hash, chosen, Commit(tx, h)).db
            == match Submit(s.db, t.courier, t.amount, h) case Ok(db) => db case Err(_) => s.db
  {
    hide Available;
    hide NewHandover;
  }
}
