/** Cash under concurrency: the open declarations of a courier stay within the debt, so the debt
    never goes negative, exactly while every event fits what the courier has left once the
    submissions in flight are counted. */
module HandoverMoney {
  import opened Basics
  import opened Totals
  import opened Handovers
  import opened HandoverRules
  import opened HandoverProtocol

  // ── What fits ─────────────────────────────────────────────────────────────────────────

  /** A submission past the limit check that declares an amount. */
  predicate InFlight(t: Tx) { (t.phase.Limited? || t.phase.Chosen?) && t.amount.Some? }

  /** The limit of courier `c` covers `extra`, also on top of each declaration in flight. */
  ghost predicate Leaves(s: State, c: Id, extra: int) {
    && extra <= Available(s.db, c)
    && forall x {:trigger s.txs[x]} :: x in s.txs && InFlight(s.txs[x]) && s.txs[x].courier == c ==>
         extra + s.txs[x].amount.value <= Available(s.db, c)
  }

  /** What the event takes fits: the extra a decision accepts, the total of a manual entry, the
      orders of a submission that declares nothing. None of these is compared with the limit by
      the program. */
  ghost predicate Affords(s: State, e: Event) {
    match e
    case Rule(d) =>
      Decide(s.db, d).Ok? ==>
        var row := s.db.handovers[d.h];
        Leaves(s, row.courier, WeightOf(row) - WeightOf(Decided(row, d).value))
    case Enter(h, c, collected, fees, toReturn) =>
      CreateManual(s.db, h, c, collected, fees, toReturn).Ok? ==> Leaves(s, c, toReturn)
    case Commit(tx, h) =>
      tx in s.txs && s.txs[tx].phase.Chosen? && h !in s.db.handovers && s.txs[tx].amount.None? ==>
        var lines := LinesOf(s.db.orders, s.txs[tx].phase.orders);
        Total(lines.Keys, LineReturns(lines)) <= Available(s.db, s.txs[tx].courier)
    case _ => true
  }

  /** Past the limit check, the declared amount still fits. */
  ghost predicate Fits(s: State, x: Id) {
    x in s.txs && InFlight(s.txs[x]) ==> s.txs[x].amount.value <= Balance(s.db, s.txs[x].courier)
  }

  ghost predicate AllFit(s: State) {
    forall x {:trigger Fits(s, x)} :: Fits(s, x)
  }

  ghost predicate Positive(db: Db) {
    forall c: Id {:trigger Balance(db, c)} :: Balance(db, c) >= 0
  }

  /** No courier declared more than was earned, nor will by a declaration in flight. */
  ghost predicate Solvent(s: State) {
    Positive(s.db) && AllFit(s)
  }

  // ── Steps ─────────────────────────────────────────────────────────────────────────────

  /** Balances that only grow keep every accepted declaration covered. */
  lemma BalanceGrows(s: State, after: State)
    requires Solvent(s) && after.txs == s.txs
    requires forall c: Id :: Balance(after.db, c) >= Balance(s.db, c)
    ensures Solvent(after)
  {
    hide Balance;
    forall x: Id
      ensures Fits(after, x)
    {
      assert Fits(s, x);
    }
  }

  /** One balance fell by `extra`: everything still fits exactly when the limit leaves that much. */
  lemma BalanceFalls(s: State, after: State, c: Id, extra: int)
    requires Good(s.db) && Solvent(s) && after.txs == s.txs
    requires forall o: Id :: Balance(after.db, o) == Balance(s.db, o) - (if o == c then extra else 0)
    ensures Solvent(after) <==> Leaves(s, c, extra)
  {
    hide Balance;
    hide Available;
    hide Good;
    LimitIsBalance(s.db, c);
    if Leaves(s, c, extra) {
      forall x: Id
        ensures Fits(after, x)
      {
        assert Fits(s, x);
      }
    } else if x :| x in s.txs && InFlight(s.txs[x]) && s.txs[x].courier == c
                   && extra + s.txs[x].amount.value > Available(s.db, c) {
      assert !Fits(after, x);
    } else {
      assert Balance(after.db, c) < 0;
    }
  }

  lemma EarnedGrows(db: Db, after: Db, o: Id, row: Order, c: Id)
    requires after == db.(orders := db.orders[o := row])
    requires o in db.orders ==> !db.orders[o].delivered
    ensures Earned(after, c) >= Earned(db, c)
  {
    var f, g := Cash(db.orders, c), Cash(after.orders, c);
    assert f(o) == 0 && g(o) >= 0;
    if o in db.orders {
      assert after.orders.Keys == db.orders.Keys;
      TotalChange(db.orders.Keys, f, g, o);
    } else {
      assert after.orders.Keys == db.orders.Keys + {o};
      TotalAdd(db.orders.Keys, g, o);
      TotalSame(db.orders.Keys, f, g);
    }
  }

  lemma DeliverBalance(s: State, hash: Id -> int, e: Event, c: Id)
    requires e.Deliver?
    ensures Balance(Step(hash, s, e).db, c) >= Balance(s.db, c)
  {
    hide Earned;
    hide Total;
    var after := Step(hash, s, e).db;
    if after != s.db {
      EarnedGrows(s.db, after, e.order, e.row, c);
    }
  }

  lemma DeleteBalance(s: State, hash: Id -> int, h: Id, c: Id)
    requires Good(s.db)
    ensures Balance(Step(hash, s, Delete(h)).db, c) >= Balance(s.db, c)
  {
    hide Balance;
    var after := DeleteHandover(s.db, h);
    if after.Ok? {
      DeleteKeeps(s.db, after.value, h);
      assert HandoverRow(s.db, h);
      AcceptedNonneg(s.db, h);
    }
  }

  /** Deletions and deliveries never take from a balance. */
  lemma QuietStep(s: State, hash: Id -> int, e: Event)
    requires Safe(s, hash) && Solvent(s) && (e.Delete? || e.Deliver?)
    ensures Solvent(Step(hash, s, e))
  {
    hide Balance;
    hide Safe;
    hide Solvent;
    SafeIsGood(s, hash);
    var after := Step(hash, s, e);
    forall c: Id
      ensures Balance(after.db, c) >= Balance(s.db, c)
    {
      match e
      case Delete(h) => DeleteBalance(s, hash, h, c);
      case Deliver(_, _) => DeliverBalance(s, hash, e, c);
    }
    BalanceGrows(s, after);
  }

  lemma SafeIsGood(s: State, hash: Id -> int)
    requires Safe(s, hash)
    ensures Good(s.db)
  {
  }

  /** A decision keeps declarations covered exactly when the extra it accepts fits what balance and
      declarations in flight leave. */
  lemma DecisionStep(s: State, hash: Id -> int, d: Decision)
    requires Safe(s, hash) && Solvent(s)
    ensures Solvent(Step(hash, s, Rule(d))) <==> Affords(s, Rule(d))
  {
    hide Balance;
    hide Safe;
    hide Solvent;
    hide Leaves;
    SafeIsGood(s, hash);
    var after := Decide(s.db, d);
    if after.Ok? {
      var row := s.db.handovers[d.h];
      DecisionEffect(s.db, after.value, d);
      BalanceFalls(s, Step(hash, s, Rule(d)), row.courier, WeightOf(row) - WeightOf(Decided(row, d).value));
    }
  }

  /** A manual entry keeps declarations covered exactly when its total fits. */
  lemma EntryStep(s: State, hash: Id -> int, e: Event)
    requires Safe(s, hash) && Solvent(s) && e.Enter?
    ensures Solvent(Step(hash, s, e)) <==> Affords(s, e)
  {
    hide Balance;
    hide Safe;
    hide Solvent;
    hide Leaves;
    SafeIsGood(s, hash);
    var after := CreateManual(s.db, e.handover, e.courier, e.collected, e.fees, e.toReturn);
    if after.Ok? {
      ManualEffect(s.db, after.value, e.handover, e.courier, e.collected, e.fees, e.toReturn);
      BalanceFalls(s, Step(hash, s, e), e.courier, e.toReturn);
    }
  }

  /** The row a submission commits takes its amount off the balance. */
  lemma CommitTakes(s: State, hash: Id -> int, e: Event, c: Id)
    requires e.Commit? && e.tx in s.txs && s.txs[e.tx].phase.Chosen? && Step(hash, s, e).db != s.db
    ensures var t := s.txs[e.tx];
            var row := NewHandover(s.db.orders, t.courier, t.amount, t.phase.orders);
            Balance(Step(hash, s, e).db, c) == Balance(s.db, c) - (if c == t.courier then row.Accepted() else 0)
  {
    hide Balance;
    hide LinesOf;
    var t := s.txs[e.tx];
    var row := NewHandover(s.db.orders, t.courier, t.amount, t.phase.orders);
    InsertBalance(s.db, Step(hash, s, e).db, e.handover, row, c);
  }

  /** No other transaction of the committing courier is past its check, so the others fit still. */
  lemma CommitFits(s: State, hash: Id -> int, e: Event, after: State)
    requires e.Commit? && Exclusive(s, hash) && AllFit(s) && Holds(s, e.tx)
    requires forall x :: x in after.txs ==> x in s.txs && x != e.tx && after.txs[x] == s.txs[x]
    requires forall c: Id :: c != s.txs[e.tx].courier ==> Balance(after.db, c) == Balance(s.db, c)
    ensures AllFit(after)
  {
    hide Balance;
    forall x: Id
      ensures Fits(after, x)
    {
      assert Fits(s, x);
      assert Holds(after, x) ==> Holds(s, x);
    }
  }

  /** A committed submission spends the amount that was checked; one that declares nothing keeps
      declarations covered exactly when the total of its orders fits. */
  lemma CommitStep(s: State, hash: Id -> int, e: Event)
    requires Safe(s, hash) && Solvent(s) && e.Commit?
    ensures Solvent(Step(hash, s, e)) <==> Affords(s, e)
  {
    hide Balance;
    hide Available;
    hide Good;
    hide AllFresh;
    var after := Step(hash, s, e);
    if after.db == s.db {
      CommitRefused(s, hash, e);
      DroppedFit(s, after);
    } else {
      var t := s.txs[e.tx];
      assert Fits(s, e.tx);
      LimitIsBalance(s.db, t.courier);
      forall c: Id
        ensures Balance(after.db, c) == Balance(s.db, c)
             - (if c == t.courier then
                  NewHandover(s.db.orders, t.courier, t.amount, t.phase.orders).Accepted() else 0)
      {
        CommitTakes(s, hash, e, c);
      }
      CommitFits(s, hash, e, after);
    }
  }

  lemma CommitRefused(s: State, hash: Id -> int, e: Event)
    requires e.Commit? && Step(hash, s, e).db == s.db
    ensures Affords(s, e)
  {
  }

  lemma DroppedFit(s: State, after: State)
    requires Solvent(s) && after.db == s.db
    requires forall x :: x in after.txs ==> x in s.txs && after.txs[x] == s.txs[x]
    ensures Solvent(after)
  {
    hide Balance;
    forall x: Id
      ensures Fits(after, x)
    {
      assert Fits(s, x);
    }
  }

  /** The limit read puts a transaction past its check only when the amount fits. */
  lemma StatementStep(s: State, hash: Id -> int, e: Event)
    requires Safe(s, hash) && Solvent(s)
    requires e.Begin? || e.Acquire? || e.ReadLimit? || e.ReadEligible? || e.Abort?
    ensures Solvent(Step(hash, s, e))
  {
    hide Balance;
    hide Available;
    hide Eligible;
    var after := Step(hash, s, e);
    assert after.db == s.db;
    if e.ReadLimit? && e.tx in s.txs {
      LimitIsBalance(s.db, s.txs[e.tx].courier);
    }
    forall x: Id
      ensures Fits(after, x)
    {
      assert Fits(s, x);
    }
  }

  /** From a safe and solvent state an event leaves every declaration covered, those in flight
      included, exactly when it can be afforded. */
  lemma StepIsSolvent(s: State, hash: Id -> int, e: Event)
    requires Safe(s, hash) && Solvent(s)
    ensures Solvent(Step(hash, s, e)) <==> Affords(s, e)
  {
    hide Safe;
    hide Solvent;
    hide Step;
    match e
    case Rule(d) => DecisionStep(s, hash, d);
    case Enter(_, _, _, _, _) => EntryStep(s, hash, e);
    case Commit(_, _) => CommitStep(s, hash, e);
    case Delete(_) => QuietStep(s, hash, e);
    case Deliver(_, _) => QuietStep(s, hash, e);
    case _ => StatementStep(s, hash, e);
  }

  // ── Runs ──────────────────────────────────────────────────────────────────────────────

  /** No revival of the run clashes and every event can be afforded. */
  ghost predicate Fair(hash: Id -> int, s: State, es: seq<Event>) {
    es != [] ==>
      var before := Run(hash, s, es[..|es| - 1]);
      && Fair(hash, s, es[..|es| - 1])
      && !Clashes(before, es[|es| - 1]) && Affords(before, es[|es| - 1])
  }

  ghost predicate Sound(hash: Id -> int, s: State) { Safe(s, hash) && Solvent(s) }

  ghost predicate AlwaysSound(hash: Id -> int, s: State, es: seq<Event>) {
    forall n {:trigger es[..n]} :: 0 <= n <= |es| ==> Sound(hash, Run(hash, s, es[..n]))
  }

  lemma StepIsSound(hash: Id -> int, s: State, e: Event)
    requires Sound(hash, s)
    ensures Sound(hash, Step(hash, s, e)) <==> !Clashes(s, e) && Affords(s, e)
  {
    hide Safe;
    hide Solvent;
    hide Step;
    hide Clashes;
    hide Affords;
    StepIsSafe(s, hash, e);
    StepIsSolvent(s, hash, e);
  }

  lemma AlwaysSoundPeel(hash: Id -> int, s: State, es: seq<Event>)
    requires es != []
    ensures AlwaysSound(hash, s, es) <==> AlwaysSound(hash, s, es[..|es| - 1]) && Sound(hash, Run(hash, s, es))
  {
    hide Sound;
    hide Run;
    var most := es[..|es| - 1];
    forall n | 0 <= n <= |es|
      ensures n < |es| ==> most[..n] == es[..n]
      ensures n == |es| ==> es[..n] == es
    {
      PrefixesOf(es, n);
    }
    assert es[..|es|] == es;
    if AlwaysSound(hash, s, es) {
      forall n {:trigger most[..n]} | 0 <= n <= |most|
        ensures Sound(hash, Run(hash, s, most[..n]))
      {
        assert most[..n] == es[..n];
      }
    }
  }

  /** Claims stay single and declarations covered throughout a run exactly when it is fair. */
  lemma {:induction false} RunIsSolvent(hash: Id -> int, s: State, es: seq<Event>)
    requires Safe(s, hash) && Solvent(s)
    ensures AlwaysSound(hash, s, es) <==> Fair(hash, s, es)
    ensures Fair(hash, s, es) ==> Safe(Run(hash, s, es), hash) && Solvent(Run(hash, s, es))
    decreases |es|
  {
    hide Safe;
    hide Solvent;
    hide Step;
    hide Clashes;
    hide Affords;
    if es != [] {
      var n := |es| - 1;
      hide AlwaysSound;
      RunIsSolvent(hash, s, es[..n]);
      AlwaysSoundPeel(hash, s, es);
      if Fair(hash, s, es[..n]) {
        StepIsSound(hash, Run(hash, s, es[..n]), es[n]);
      }
    }
  }

  lemma EmptyIsSolvent()
    ensures Solvent(Empty())
  {
    forall c: Id
      ensures Balance(Empty().db, c) == 0
    {
      TotalZero(Empty().db.orders.Keys, Cash(Empty().db.orders, c));
      TotalZero(Empty().db.handovers.Keys, Weight(Empty().db.handovers, c));
    }
  }

  /** In every fair interleaving what a courier has declared and not yet had decided stays within
      the courier's debt, so the debt is never negative before it is clamped. */
  lemma DebtCoversDeclarations(hash: Id -> int, es: seq<Event>, c: Id)
    requires Fair(hash, Empty(), es)
    ensures 0 <= OpenAmount(Run(hash, Empty(), es).db, c) <= Debt(Run(hash, Empty(), es).db, c)
  {
    hide Balance;
    hide Debt;
    hide OpenAmount;
    EmptyIsSafe(hash);
    EmptyIsSolvent();
    RunIsSolvent(hash, Empty(), es);
    SafeIsGood(Run(hash, Empty(), es), hash);
    LimitIsBalance(Run(hash, Empty(), es).db, c);
  }

  // ── The condition is exact ────────────────────────────────────────────────────────────

  /** Open declarations are within the debt. */
  ghost predicate Covered(db: Db) {
    forall c: Id {:trigger Debt(db, c)} :: OpenAmount(db, c) <= Debt(db, c)
  }

  /** What is left of submission `x` past its limit check. */
  ghost function Finish(hash: Id -> int, s: State, x: Id, h: Id): State {
    Step(hash, Step(hash, s, ReadEligible(x)), Commit(x, h))
  }

  /** Declarations are within the debt, and still are after any one that was checked goes in. */
  ghost predicate StaysCovered(hash: Id -> int, s: State) {
    && Covered(s.db)
    && forall x, h {:trigger Finish(hash, s, x, h)} :: x in s.txs && s.txs[x].amount.Some? ==>
         Covered(Finish(hash, s, x, h).db)
  }

  lemma CoveredIsPositive(db: Db)
    requires Good(db)
    ensures Covered(db) <==> Positive(db)
  {
    hide Debt;
    hide OpenAmount;
    hide Balance;
    hide Good;
    forall c: Id
      ensures Balance(db, c) == Debt(db, c) - OpenAmount(db, c)
    {
      DebtIsBalance(db, c);
    }
    if Covered(db) {
      forall c: Id
        ensures Balance(db, c) >= 0
      {
        assert OpenAmount(db, c) <= Debt(db, c);
      }
    }
  }

  lemma FinishIsSafe(hash: Id -> int, s: State, x: Id, h: Id)
    requires Safe(s, hash)
    ensures Safe(Step(hash, s, ReadEligible(x)), hash) && Safe(Finish(hash, s, x, h), hash)
  {
    hide Safe;
    hide Step;
    QuietStepIsSafe(s, hash, ReadEligible(x));
    QuietStepIsSafe(Step(hash, s, ReadEligible(x)), hash, Commit(x, h));
  }

  /** A declared submission still declares its amount after reading its orders. */
  lemma DeclaredAffords(hash: Id -> int, s: State, x: Id, h: Id)
    requires x in s.txs && s.txs[x].amount.Some?
    ensures Affords(s, ReadEligible(x)) && Affords(Step(hash, s, ReadEligible(x)), Commit(x, h))
  {
    hide Available;
    hide Eligible;
    hide Total;
  }

  /** A declared submission goes in without harm to a solvent state. */
  lemma FinishIsSolvent(hash: Id -> int, s: State, x: Id, h: Id)
    requires Safe(s, hash) && Solvent(s) && x in s.txs && s.txs[x].amount.Some?
    ensures Solvent(Finish(hash, s, x, h))
  {
    hide Safe;
    hide Solvent;
    hide Step;
    hide Affords;
    FinishIsSafe(hash, s, x, h);
    DeclaredAffords(hash, s, x, h);
    var chosen := Step(hash, s, ReadEligible(x));
    StepIsSolvent(s, hash, ReadEligible(x));
    StepIsSolvent(chosen, hash, Commit(x, h));
  }

  /** A declaration past its check comes off the balance, whatever the balance is by then. */
  lemma FinishTakes(hash: Id -> int, s: State, x: Id, h: Id)
    requires x in s.txs && InFlight(s.txs[x]) && s.txs[x].amount.value > 0 && h !in s.db.handovers
    ensures var c := s.txs[x].courier;
            Balance(Finish(hash, s, x, h).db, c) == Balance(s.db, c) - s.txs[x].amount.value
  {
    hide Balance;
    hide Eligible;
    hide NewHandover;
    var c := s.txs[x].courier;
    var chosen := Step(hash, s, ReadEligible(x));
    assert chosen.db == s.db && x in chosen.txs && chosen.txs[x].phase.Chosen?;
    var row := NewHandover(s.db.orders, c, s.txs[x].amount, chosen.txs[x].phase.orders);
    var after := Step(hash, chosen, Commit(x, h)).db;
    assert after == s.db.(handovers := s.db.handovers[h := row]);
    InsertBalance(s.db, after, h, row, c);
    NewHandoverTakes(s.db.orders, c, s.txs[x].amount, chosen.txs[x].phase.orders);
  }

  lemma NewHandoverTakes(orders: map<Id, Order>, c: Id, amount: Option<int>, chosen: set<Id>)
    requires amount.Some?
    ensures NewHandover(orders, c, amount, chosen).courier == c
    ensures WeightOf(NewHandover(orders, c, amount, chosen)) == -amount.value
  {
    hide Total;
  }

  /** A solvent state is one in which the declarations are within the debt and stay there whichever
      checked declaration goes in next. */
  lemma SolventMeans(hash: Id -> int, s: State)
    requires Safe(s, hash)
    ensures Solvent(s) <==> StaysCovered(hash, s)
  {
    hide Safe;
    hide Finish;
    hide Covered;
    hide Positive;
    hide Fits;
    SafeIsGood(s, hash);
    CoveredIsPositive(s.db);
    if Solvent(s) {
      forall x, h | x in s.txs && s.txs[x].amount.Some?
        ensures Covered(Finish(hash, s, x, h).db)
      {
        FinishIsSafe(hash, s, x, h);
        FinishIsSolvent(hash, s, x, h);
        SafeIsGood(Finish(hash, s, x, h), hash);
        CoveredIsPositive(Finish(hash, s, x, h).db);
      }
    } else if StaysCovered(hash, s) {
      var x :| !Fits(s, x);
      UncoveredFinish(hash, s, x);
    }
  }

  lemma UncoveredFinish(hash: Id -> int, s: State, x: Id)
    requires Safe(s, hash) && Positive(s.db) && !Fits(s, x)
    ensures !StaysCovered(hash, s)
  {
    hide Safe;
    hide Balance;
    hide Finish;
    hide Covered;
    var c := s.txs[x].courier;
    var h := UnusedKey(s.db.handovers.Keys);
    assert h !in s.db.handovers;
    assert Balance(s.db, c) >= 0;
    FinishTakes(hash, s, x, h);
    FinishIsSafe(hash, s, x, h);
    SafeIsGood(Finish(hash, s, x, h), hash);
    CoveredIsPositive(Finish(hash, s, x, h).db);
    assert !Positive(Finish(hash, s, x, h).db);
  }

  /** An extra that fits the limit may still not fit what a declaration in flight leaves: the
      decision keeps declarations within the debt, and the commit that follows does not. */
  lemma StaleRaise(hash: Id -> int, s: State, d: Decision, x: Id, h: Id)
    requires Safe(s, hash) && Solvent(s) && Decide(s.db, d).Ok? && !Clashes(s, Rule(d)) && h !in s.db.handovers
    requires x in s.txs && InFlight(s.txs[x]) && s.txs[x].courier == s.db.handovers[d.h].courier
    requires var row := s.db.handovers[d.h];
             var extra := WeightOf(row) - WeightOf(Decided(row, d).value);
             extra <= Available(s.db, row.courier) < extra + s.txs[x].amount.value
    ensures var after := Step(hash, s, Rule(d));
            Covered(after.db) && !Covered(Finish(hash, after, x, h).db)
  {
    hide Safe;
    hide Balance;
    hide Covered;
    hide Finish;
    hide Available;
    var after := Step(hash, s, Rule(d));
    var row := s.db.handovers[d.h];
    SafeIsGood(s, hash);
    LimitIsBalance(s.db, row.courier);
    DecisionEffect(s.db, after.db, d);
    StepIsSafe(s, hash, Rule(d));
    SafeIsGood(after, hash);
    CoveredIsPositive(after.db);
    FinishIsSafe(hash, after, x, h);
    SafeIsGood(Finish(hash, after, x, h), hash);
    CoveredIsPositive(Finish(hash, after, x, h).db);
    assert h !in after.db.handovers;
    hide Step;
    hide Decide;
    hide Decided;
    FinishTakes(hash, after, x, h);
  }

  /** Every state of the run keeps orders claimed once and declarations within the debt, also after
      any one submission under way commits (a declared one, for the debt). */
  ghost predicate AlwaysHolds(hash: Id -> int, s: State, es: seq<Event>) {
    forall n {:trigger es[..n]} :: 0 <= n <= |es| ==>
      StaysSingle(hash, Run(hash, s, es[..n])) && StaysCovered(hash, Run(hash, s, es[..n]))
  }

  lemma SoundHolds(hash: Id -> int, s: State)
    requires Sound(hash, s)
    ensures StaysSingle(hash, s) && StaysCovered(hash, s)
  {
    hide Safe;
    hide Solvent;
    SafeStaysSingle(hash, s);
    SolventMeans(hash, s);
  }

  /** A state before the first unfair event is sound; the event breaks what was promised. */
  lemma UnfairEventShows(hash: Id -> int, s: State, e: Event)
    requires Sound(hash, s) && (Clashes(s, e) || !Affords(s, e))
    ensures !StaysSingle(hash, Step(hash, s, e)) || !StaysCovered(hash, Step(hash, s, e))
  {
    hide Safe;
    hide Solvent;
    hide Step;
    hide Clashes;
    hide Affords;
    if Clashes(s, e) {
      ClashDoubleClaims(hash, s, e);
    } else {
      StepIsSafe(s, hash, e);
      StepIsSolvent(s, hash, e);
      SolventMeans(hash, Step(hash, s, e));
    }
  }

  lemma {:induction false} UnfairIsSeen(hash: Id -> int, s: State, es: seq<Event>)
    requires Sound(hash, s) && AlwaysHolds(hash, s, es)
    ensures Fair(hash, s, es)
    decreases |es|
  {
    hide Safe;
    hide Solvent;
    hide Step;
    hide Clashes;
    hide Affords;
    hide StaysSingle;
    hide StaysCovered;
    if es != [] {
      var n := |es| - 1;
      var most := es[..n];
      forall k {:trigger most[..k]} | 0 <= k <= |most|
        ensures StaysSingle(hash, Run(hash, s, most[..k])) && StaysCovered(hash, Run(hash, s, most[..k]))
      {
        PrefixesOf(es, k);
      }
      UnfairIsSeen(hash, s, most);
      RunIsSolvent(hash, s, most);
      assert es[..|es|] == es;
      if Clashes(Run(hash, s, most), es[n]) || !Affords(Run(hash, s, most), es[n]) {
        UnfairEventShows(hash, Run(hash, s, most), es[n]);
      }
    }
  }

  /** Exactly the fair runs keep every order in one open handover and every declaration within the
      debt, whichever of the submissions under way commits next. */
  lemma HoldsExactly(hash: Id -> int, s: State, es: seq<Event>)
    requires Safe(s, hash) && Solvent(s)
    ensures AlwaysHolds(hash, s, es) <==> Fair(hash, s, es)
  {
    hide Safe;
    hide Solvent;
    hide StaysSingle;
    hide StaysCovered;
    hide Run;
    hide Fair;
    if Fair(hash, s, es) {
      RunIsSolvent(hash, s, es);
      forall n {:trigger es[..n]} | 0 <= n <= |es|
        ensures StaysSingle(hash, Run(hash, s, es[..n])) && StaysCovered(hash, Run(hash, s, es[..n]))
      {
        SoundHolds(hash, Run(hash, s, es[..n]));
      }
    } else if AlwaysHolds(hash, s, es) {
      UnfairIsSeen(hash, s, es);
    }
  }

  // ── Ordinary runs ─────────────────────────────────────────────────────────────────────

  /** The dispatcher accepts no more than was declared. */
  predicate NoRaise(row: Handover, d: Decision) {
    match d
    case ConfirmHandover(_, amount) => amount <= row.Accepted()
    case UpdateHandover(_, _, actual, _) => actual.Some? ==> actual.value <= row.Accepted()
    case EditHandover(_, _, actual, _, _) => actual.Some? ==> actual.value <= row.Accepted()
    case _ => true
  }

  /** Submissions declare an amount, no manual entry is made, no rejected handover is revived and
      no decision accepts more than was declared. */
  predicate Ordinary(s: State, e: Event) {
    match e
    case Begin(_, _, amount) => amount.Some?
    case Enter(_, _, _, _, _) => false
    case Rule(d) => !Revives(s, e) && (d.h in s.db.handovers ==> NoRaise(s.db.handovers[d.h], d))
    case _ => true
  }

  ghost predicate AllOrdinary(hash: Id -> int, s: State, es: seq<Event>) {
    es != [] ==> AllOrdinary(hash, s, es[..|es| - 1]) && Ordinary(Run(hash, s, es[..|es| - 1]), es[|es| - 1])
  }

  /** Every handover came from the courier app and every submission declares an amount. */
  ghost predicate FromApp(s: State) {
    && (forall h {:trigger s.db.handovers[h]} :: h in s.db.handovers ==> s.db.handovers[h].source.CourierApp?)
    && (forall x {:trigger s.txs[x]} :: x in s.txs ==> s.txs[x].amount.Some?)
  }

  lemma OrdinaryKeepsSource(hash: Id -> int, s: State, e: Event)
    requires FromApp(s) && Ordinary(s, e)
    ensures FromApp(Step(hash, s, e))
  {
    hide Available;
    hide Eligible;
  }

  lemma NoRaiseWeight(row: Handover, d: Decision)
    requires row.source.CourierApp? && NoRaise(row, d) && Decided(row, d).Ok?
    requires row.status.Rejected? ==> Decided(row, d).value.status.Rejected?
    requires row.Accepted() >= 0
    ensures WeightOf(Decided(row, d).value) >= WeightOf(row)
  {
  }

  /** An ordinary event neither clashes nor takes more than there is. */
  lemma OrdinaryIsFair(hash: Id -> int, s: State, e: Event)
    requires Sound(hash, s) && FromApp(s) && Ordinary(s, e)
    ensures !Clashes(s, e) && Affords(s, e)
  {
    hide Balance;
    hide Available;
    SafeIsGood(s, hash);
    hide Safe;
    if e.Rule? && Decide(s.db, e.d).Ok? {
      var row := s.db.handovers[e.d.h];
      RevivesMeans(s, e);
      assert HandoverRow(s.db, e.d.h);
      AcceptedNonneg(s.db, e.d.h);
      NoRaiseWeight(row, e.d);
      hide Good;
      LimitIsBalance(s.db, row.courier);
      forall x | x in s.txs && InFlight(s.txs[x]) && s.txs[x].courier == row.courier
        ensures s.txs[x].amount.value <= Available(s.db, row.courier)
      {
        assert Fits(s, x);
      }
    }
  }

  /** Every ordinary run is fair. */
  lemma {:induction false} OrdinaryRunIsFair(hash: Id -> int, s: State, es: seq<Event>)
    requires Sound(hash, s) && FromApp(s) && AllOrdinary(hash, s, es)
    ensures Fair(hash, s, es) && FromApp(Run(hash, s, es))
    decreases |es|
  {
    hide Safe;
    hide Solvent;
    hide Step;
    hide Clashes;
    hide Affords;
    hide FromApp;
    hide Ordinary;
    if es != [] {
      var n := |es| - 1;
      OrdinaryRunIsFair(hash, s, es[..n]);
      RunIsSolvent(hash, s, es[..n]);
      OrdinaryIsFair(hash, Run(hash, s, es[..n]), es[n]);
      OrdinaryKeepsSource(hash, Run(hash, s, es[..n]), es[n]);
    }
  }
}
