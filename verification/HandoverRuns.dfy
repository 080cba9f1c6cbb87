/** Runs from the empty tables that show why the conditions on handovers are there. */
module HandoverRuns {
  import opened Basics
  import opened Totals
  import opened Handovers
  import opened HandoverRules
  import P = HandoverProtocol
  import M = HandoverMoney

  function Done(db: Db, o: Outcome): Db { match o case Ok(after) => after case Err(_) => db }

  // ── Runs of whole transactions ────────────────────────────────────────────────────────

  lemma RunAppend(hash: Id -> int, s: P.State, es: seq<P.Event>, e: P.Event)
    ensures P.Run(hash, s, es + [e]) == P.Step(hash, P.Run(hash, s, es), e)
  {
    assert (es + [e])[..|es|] == es;
  }

  lemma {:induction false} RunConcat(hash: Id -> int, s: P.State, a: seq<P.Event>, b: seq<P.Event>)
    ensures P.Run(hash, s, a + b) == P.Run(hash, P.Run(hash, s, a), b)
    decreases |b|
  {
    if b == [] {
      assert a + b == a;
    } else {
      var n := |b| - 1;
      RunConcat(hash, s, a, b[..n]);
      assert a + b == a + b[..n] + [b[n]] && b == b[..n] + [b[n]];
      RunAppend(hash, s, a + b[..n], b[n]);
      RunAppend(hash, P.Run(hash, s, a), b[..n], b[n]);
    }
  }

  /** The statements of one submission, nothing in between. */
  function Submission(x: Id, c: Id, amount: Option<int>, h: Id): seq<P.Event> {
    [P.Begin(x, c, amount), P.Acquire(x), P.ReadLimit(x), P.ReadEligible(x), P.Commit(x, h)]
  }

  /** The same up to its reads. */
  function Reading(x: Id, c: Id, amount: Option<int>): seq<P.Event> {
    [P.Begin(x, c, amount), P.Acquire(x), P.ReadLimit(x), P.ReadEligible(x)]
  }

  lemma RunFour(hash: Id -> int, s: P.State, a: P.Event, b: P.Event, c: P.Event, d: P.Event)
    ensures P.Run(hash, s, [a, b, c, d]) == P.Step(hash, P.Step(hash, P.Step(hash, P.Step(hash, s, a), b), c), d)
  {
    hide P.Step;
    RunAppend(hash, s, [], a);
    RunAppend(hash, s, [a], b);
    RunAppend(hash, s, [a, b], c);
    RunAppend(hash, s, [a, b, c], d);
    assert [] + [a] == [a] && [a] + [b] == [a, b] && [a, b] + [c] == [a, b, c];
    assert [a, b, c] + [d] == [a, b, c, d];
  }

  lemma RunFive(hash: Id -> int, s: P.State, a: P.Event, b: P.Event, c: P.Event, d: P.Event, e: P.Event)
    ensures P.Run(hash, s, [a, b, c, d, e])
         == P.Step(hash, P.Step(hash, P.Step(hash, P.Step(hash, P.Step(hash, s, a), b), c), d), e)
  {
    hide P.Step;
    RunFour(hash, s, a, b, c, d);
    RunAppend(hash, s, [a, b, c, d], e);
    assert [a, b, c, d] + [e] == [a, b, c, d, e];
  }

  lemma SubmissionRuns(hash: Id -> int, s: P.State, x: Id, c: Id, amount: Option<int>, h: Id)
    requires s.txs == map[]
    ensures P.Run(hash, s, Submission(x, c, amount, h)) == s.(db := Done(s.db, Submit(s.db, c, amount, h)))
  {
    hide Available;
    hide NewHandover;
    hide Eligible;
    RunFive(hash, s, P.Begin(x, c, amount), P.Acquire(x), P.ReadLimit(x), P.ReadEligible(x), P.Commit(x, h));
    hide P.Run;
    var begun := s.(txs := map[x := P.Tx(c, amount, P.Waiting)]);
    assert P.Step(hash, s, P.Begin(x, c, amount)) == begun;
    var locked := s.(txs := map[x := P.Tx(c, amount, P.Locked)]);
    assert P.Step(hash, begun, P.Acquire(x)) == locked;
    RestOfSubmission(hash, s, locked, x, c, amount, h);
  }

  lemma RestOfSubmission(hash: Id -> int, s: P.State, locked: P.State, x: Id, c: Id, amount: Option<int>, h: Id)
    requires s.txs == map[] && locked == s.(txs := map[x := P.Tx(c, amount, P.Locked)])
    ensures P.Step(hash, P.Step(hash, P.Step(hash, locked, P.ReadLimit(x)), P.ReadEligible(x)), P.Commit(x, h))
         == s.(db := Done(s.db, Submit(s.db, c, amount, h)))
  {
    hide Available;
    hide NewHandover;
    hide Eligible;
    assert map[x := P.Tx(c, amount, P.Locked)] - {x} == map[];
    if amount.Some? && amount.value > Available(s.db, c) {
      assert P.Step(hash, locked, P.ReadLimit(x)) == s;
    } else {
      var limited := s.(txs := map[x := P.Tx(c, amount, P.Limited)]);
      assert P.Step(hash, locked, P.ReadLimit(x)) == limited;
      var found := Eligible(s.db, c);
      assert limited.txs - {x} == map[];
      if found == {} && (amount.None? || amount.value <= 0) {
        assert P.Step(hash, limited, P.ReadEligible(x)) == s;
      } else {
        var chosen := s.(txs := map[x := P.Tx(c, amount, P.Chosen(found))]);
        assert P.Step(hash, limited, P.ReadEligible(x)) == chosen;
        assert chosen.txs - {x} == map[];
      }
    }
  }

  lemma ThenSubmission(hash: Id -> int, es: seq<P.Event>, s: P.State, x: Id, c: Id, amount: Option<int>, h: Id)
    requires P.Run(hash, P.Empty(), es) == s && s.txs == map[]
    ensures P.Run(hash, P.Empty(), es + Submission(x, c, amount, h))
         == s.(db := Done(s.db, Submit(s.db, c, amount, h)))
  {
    hide P.Run;
    hide Submission;
    RunConcat(hash, P.Empty(), es, Submission(x, c, amount, h));
    SubmissionRuns(hash, s, x, c, amount, h);
  }

  /** With an amount within the limit and something to hand over, the reads get through. */
  lemma ThenReading(hash: Id -> int, es: seq<P.Event>, s: P.State, x: Id, c: Id, amount: Option<int>)
    requires P.Run(hash, P.Empty(), es) == s && s.txs == map[]
    requires amount.Some? ==> amount.value <= Available(s.db, c)
    requires Eligible(s.db, c) != {} || (amount.Some? && amount.value > 0)
    ensures P.Run(hash, P.Empty(), es + Reading(x, c, amount))
         == s.(txs := map[x := P.Tx(c, amount, P.Chosen(Eligible(s.db, c)))])
  {
    hide Available;
    hide Eligible;
    RunConcat(hash, P.Empty(), es, Reading(x, c, amount));
    RunFour(hash, s, P.Begin(x, c, amount), P.Acquire(x), P.ReadLimit(x), P.ReadEligible(x));
    hide P.Run;
    var begun := s.(txs := map[x := P.Tx(c, amount, P.Waiting)]);
    assert P.Step(hash, s, P.Begin(x, c, amount)) == begun;
    var locked := s.(txs := map[x := P.Tx(c, amount, P.Locked)]);
    assert P.Step(hash, begun, P.Acquire(x)) == locked;
    var limited := s.(txs := map[x := P.Tx(c, amount, P.Limited)]);
    assert P.Step(hash, locked, P.ReadLimit(x)) == limited;
  }

  lemma ThenDecision(hash: Id -> int, es: seq<P.Event>, s: P.State, d: Decision)
    requires P.Run(hash, P.Empty(), es) == s
    ensures P.Run(hash, P.Empty(), es + [P.Rule(d)]) == s.(db := Done(s.db, Decide(s.db, d)))
  {
    hide P.Run;
    hide Decide;
    RunAppend(hash, P.Empty(), es, P.Rule(d));
  }

  lemma ThenDeletion(hash: Id -> int, es: seq<P.Event>, s: P.State, h: Id)
    requires P.Run(hash, P.Empty(), es) == s
    ensures P.Run(hash, P.Empty(), es + [P.Delete(h)]) == s.(db := Done(s.db, DeleteHandover(s.db, h)))
  {
    hide P.Run;
    hide DeleteHandover;
    RunAppend(hash, P.Empty(), es, P.Delete(h));
  }

  /** One delivered order worth 100 cents. */
  const SAMPLE := Order(Some(7), true, false, 100, 0, 0, 0)

  function Delivered100(): P.State { P.State(Db(map[0 := SAMPLE], map[]), map[]) }

  lemma SampleFacts()
    ensures Good(Delivered100().db) && Eligible(Delivered100().db, 7) == {0}
    ensures Balance(Delivered100().db, 7) == 100
    ensures Delivered100().txs == map[] && Delivered100().db.handovers == map[]
    ensures 0 in Delivered100().db.orders && Delivered100().db.orders[0] == SAMPLE
  {
    var db := Delivered100().db;
    TotalSplit(db.orders.Keys, Cash(db.orders, 7), 0);
    assert db.orders.Keys - {0} == {};
    TotalZero(db.handovers.Keys, Weight(db.handovers, 7));
  }

  lemma DeliveredRuns(hash: Id -> int)
    ensures P.Run(hash, P.Empty(), [P.Deliver(0, SAMPLE)]) == Delivered100()
  {
    var e := P.Deliver(0, SAMPLE);
    RunAppend(hash, P.Empty(), [], e);
    assert [] + [e] == [e] && P.Run(hash, P.Empty(), []) == P.Empty();
    hide P.Run;
    DeliverStep(hash, P.Empty(), 0, SAMPLE);
  }

  lemma DeliverStep(hash: Id -> int, s: P.State, o: Id, row: Order)
    requires o !in s.db.orders && row.delivered && row.payout >= 0
    ensures P.Step(hash, s, P.Deliver(o, row)) == s.(db := s.db.(orders := s.db.orders[o := row]))
  {
  }

  // ── A revived handover ────────────────────────────────────────────────────────────────

  /** `after` is `db` with a new pending handover `h` of courier `c` that links `orders`. */
  ghost predicate Opened(db: Db, after: Db, h: Id, c: Id, orders: set<Id>) {
    && h !in db.handovers && h in after.handovers && after.orders == db.orders
    && after.handovers == db.handovers[h := after.handovers[h]]
    && after.handovers[h].status.Pending? && after.handovers[h].courier == c
    && after.handovers[h].source.CourierApp?
    && after.handovers[h].lines.Keys == orders
  }

  lemma LinesAreFound(db: Db, c: Id, amount: Option<int>, h: Id, after: Db, found: set<Id>)
    requires found == Eligible(db, c) && Submit(db, c, amount, h) == Ok(after)
    ensures Opened(db, after, h, c, found)
  {
    hide Total;
    hide Available;
    hide Claimed;
    assert LinesOf(db.orders, found).Keys == found;
    hide LinesOf;
  }

  lemma SubmitOpens(db: Db, c: Id, amount: Option<int>, h: Id, after: Db)
    requires Good(db) && Submit(db, c, amount, h) == Ok(after)
    ensures Opened(db, after, h, c, Eligible(db, c))
    ensures Good(after) && Eligible(after, c) == {}
    ensures Balance(after, c) == Balance(db, c) - Declared(db, c, amount)
  {
    hide *;
    LinesAreFound(db, c, amount, h, after, Eligible(db, c));
    SubmitEffect(db, after, c, amount, h);
  }

  /** With orders to hand over and nothing declared, a submission goes through. */
  lemma UndeclaredGoes(db: Db, c: Id, h: Id)
    requires Eligible(db, c) != {} && h !in db.handovers
    ensures Submit(db, c, None, h).Ok?
  {
    hide Available;
    hide NewHandover;
  }

  /** Reject a submission, submit its orders again, edit the first one back to confirmed: every
      order of it is claimed twice. */
  lemma Revived(db: Db, c: Id, h: Id, i: Id, one: Db, two: Db, three: Db)
    requires Good(db) && Eligible(db, c) != {} && h !in db.handovers && i !in db.handovers && h != i
    requires one == Done(db, Submit(db, c, None, h)) && two == Done(one, Decide(one, RejectHandover(h)))
    requires three == Done(two, Submit(two, c, None, i))
    ensures Good(three)
    ensures var d := EditHandover(h, Some(Confirmed), None, false, false);
            && h in three.handovers && three.handovers[h].status.Rejected?
            && Decide(three, d).Ok? && !SingleClaim(Decide(three, d).value)
  {
    hide Good;
    hide Balance;
    hide Declared;
    hide Submit;
    hide Claimed;
    UndeclaredGoes(db, c, h);
    SubmitOpens(db, c, None, h, one);
    assert Decide(one, RejectHandover(h)) == Ok(two);
    Rejected(one, two, h, c);
    UndeclaredGoes(two, c, i);
    SubmitOpens(two, c, None, i, three);
    hide Eligible;
    var o :| o in Eligible(db, c);
    assert three.handovers[h] == two.handovers[h];
    LinkedTwice(three, h, i, o);
  }

  lemma Rejected(one: Db, two: Db, h: Id, c: Id)
    requires Good(one) && Decide(one, RejectHandover(h)) == Ok(two) && one.handovers[h].courier == c
    ensures Good(two) && two.handovers.Keys == one.handovers.Keys && two.handovers[h].status.Rejected?
    ensures two.handovers[h].lines == one.handovers[h].lines
    ensures Eligible(two, c) == Eligible(one, c) + one.handovers[h].lines.Keys
  {
    DecisionEffect(one, two, RejectHandover(h));
    ClosingFrees(one, two, h, c);
  }

  lemma LinkedTwice(db: Db, h: Id, i: Id, o: Id)
    requires h in db.handovers && i in db.handovers && h != i && db.handovers[h].status.Rejected?
    requires o in db.handovers[h].lines && o in db.handovers[i].lines && db.handovers[i].status.Pending?
    ensures var d := EditHandover(h, Some(Confirmed), None, false, false);
            Decide(db, d).Ok? && !SingleClaim(Decide(db, d).value)
  {
    var after := Decide(db, EditHandover(h, Some(Confirmed), None, false, false)).value;
    assert Links(after, h, o) && Links(after, i, o);
  }

  /** Deliver, submit, reject, submit again. */
  function RevivalRun(): seq<P.Event> {
    [P.Deliver(0, SAMPLE)] + Submission(1, 7, None, 1) + [P.Rule(RejectHandover(1))] + Submission(2, 7, None, 2)
  }

  /** The states it passes through. */
  ghost predicate RevivalStates(start: P.State, one: P.State, two: P.State, three: P.State) {
    && start == Delivered100()
    && one == start.(db := Done(start.db, Submit(start.db, 7, None, 1)))
    && two == one.(db := Done(one.db, Decide(one.db, RejectHandover(1))))
    && three == two.(db := Done(two.db, Submit(two.db, 7, None, 2)))
  }

  lemma RevivalRuns(hash: Id -> int, start: P.State, one: P.State, two: P.State, three: P.State)
    requires RevivalStates(start, one, two, three)
    ensures P.Run(hash, P.Empty(), RevivalRun()) == three
  {
    SampleFacts();
    DeliveredRuns(hash);
    hide Delivered100;
    hide Submission;
    hide Submit;
    hide Decide;
    hide Eligible;
    hide Good;
    hide Done;
    hide P.Run;
    var es := [P.Deliver(0, SAMPLE)];
    ThenSubmission(hash, es, start, 1, 7, None, 1);
    ThenDecision(hash, es + Submission(1, 7, None, 1), one, RejectHandover(1));
    ThenSubmission(hash, es + Submission(1, 7, None, 1) + [P.Rule(RejectHandover(1))], two, 2, 7, None, 2);
  }

  lemma RevivalOutcome(start: P.State, one: P.State, two: P.State, three: P.State)
    requires RevivalStates(start, one, two, three)
    ensures var d := EditHandover(1, Some(Confirmed), None, false, false);
            && Good(three.db) && three.txs == map[] && 1 in three.db.handovers && three.db.handovers[1].status.Rejected?
            && Decide(three.db, d).Ok? && !SingleClaim(Decide(three.db, d).value)
  {
    SampleFacts();
    hide Delivered100;
    hide Submit;
    hide Decide;
    hide Good;
    hide Eligible;
    hide Done;
    Revived(start.db, 7, 1, 2, one.db, two.db, three.db);
  }

  /** From empty tables, editing a rejected handover back to confirmed double-links an order. */
  lemma RevivalDoubleClaims(hash: Id -> int)
    ensures var s := P.Run(hash, P.Empty(), RevivalRun());
            var e := P.Rule(EditHandover(1, Some(Confirmed), None, false, false));
            && Good(s.db) && P.Clashes(s, e) && !SingleClaim(P.Step(hash, s, e).db)
  {
    var start := Delivered100();
    var one := start.(db := Done(start.db, Submit(start.db, 7, None, 1)));
    var two := one.(db := Done(one.db, Decide(one.db, RejectHandover(1))));
    var three := two.(db := Done(two.db, Submit(two.db, 7, None, 2)));
    assert RevivalStates(start, one, two, three);
    hide *;
    RevivalRuns(hash, start, one, two, three);
    RevivalOutcome(start, one, two, three);
    RevivalEnds(hash, three);
    AtRestClashes(hash, three, P.Rule(EditHandover(1, Some(Confirmed), None, false, false)));
  }

  lemma RevivalEnds(hash: Id -> int, s: P.State)
    requires 1 in s.db.handovers && s.db.handovers[1].status.Rejected?
    ensures var d := EditHandover(1, Some(Confirmed), None, false, false);
            && P.Revives(s, P.Rule(d))
            && (Decide(s.db, d).Ok? ==> P.Step(hash, s, P.Rule(d)).db == Decide(s.db, d).value)
  {
    hide Decide;
  }

  /** At rest only a clash can break the claims. */
  lemma AtRestClashes(hash: Id -> int, s: P.State, e: P.Event)
    requires Good(s.db) && s.txs == map[] && !SingleClaim(P.Step(hash, s, e).db)
    ensures P.Clashes(s, e)
  {
    hide P.Step;
    hide P.Clashes;
    hide SingleClaim;
    P.StepIsSafe(s, hash, e);
  }

  // ── A revival while a submission is under way ─────────────────────────────────────────

  /** Deliver, submit, reject, and submit again up to the reads. */
  function StaleRevivalRun(): seq<P.Event> {
    [P.Deliver(0, SAMPLE)] + Submission(1, 7, None, 1) + [P.Rule(RejectHandover(1))] + Reading(2, 7, None)
  }

  /** The states it passes through. */
  ghost predicate StaleStates(start: P.State, one: P.State, two: P.State, three: P.State) {
    && start == Delivered100()
    && one == start.(db := Done(start.db, Submit(start.db, 7, None, 1)))
    && two == one.(db := Done(one.db, Decide(one.db, RejectHandover(1))))
    && three == two.(txs := map[2 := P.Tx(7, None, P.Chosen({0}))])
  }

  /** A rejected submission leaves its orders to hand over. */
  lemma SubmittedAndRejected(db: Db, c: Id, h: Id, one: Db, two: Db)
    requires Good(db) && Eligible(db, c) != {} && h !in db.handovers
    requires one == Done(db, Submit(db, c, None, h)) && two == Done(one, Decide(one, RejectHandover(h)))
    ensures Good(two) && two.handovers.Keys == db.handovers.Keys + {h} && two.handovers[h].status.Rejected?
    ensures two.handovers[h].lines.Keys == Eligible(db, c) && Eligible(two, c) == Eligible(db, c)
  {
    hide Good;
    hide Balance;
    hide Declared;
    hide Submit;
    hide Eligible;
    UndeclaredGoes(db, c, h);
    SubmitOpens(db, c, None, h, one);
    assert Decide(one, RejectHandover(h)) == Ok(two);
    Rejected(one, two, h, c);
  }

  lemma StaleRuns(hash: Id -> int, start: P.State, one: P.State, two: P.State, three: P.State)
    requires StaleStates(start, one, two, three)
    requires Eligible(two.db, 7) == {0}
    ensures P.Run(hash, P.Empty(), StaleRevivalRun()) == three
  {
    SampleFacts();
    DeliveredRuns(hash);
    hide Delivered100;
    hide Submission;
    hide Reading;
    hide Submit;
    hide Decide;
    hide Eligible;
    hide Good;
    hide Done;
    hide P.Run;
    var es := [P.Deliver(0, SAMPLE)];
    ThenSubmission(hash, es, start, 1, 7, None, 1);
    ThenDecision(hash, es + Submission(1, 7, None, 1), one, RejectHandover(1));
    ThenReading(hash, es + Submission(1, 7, None, 1) + [P.Rule(RejectHandover(1))], two, 2, 7, None);
  }

  /** One submission under way that chose what is there to hand over. */
  lemma OneChooserIsSafe(hash: Id -> int, s: P.State, x: Id, c: Id, amount: Option<int>)
    requires Good(s.db) && s.txs == map[x := P.Tx(c, amount, P.Chosen(Eligible(s.db, c)))]
    ensures P.Safe(s, hash)
  {
    hide Good;
    hide Claimed;
    forall y: Id
      ensures P.Fresh(s, y)
    {
    }
  }

  lemma StaleOutcome(hash: Id -> int, s: P.State)
    requires P.Safe(s, hash) && 1 in s.db.handovers && s.db.handovers[1].status.Rejected?
    requires s.db.handovers[1].lines.Keys == {0} && Eligible(s.db, 7) == {0} && 2 !in s.db.handovers
    requires s.txs == map[2 := P.Tx(7, None, P.Chosen({0}))]
    ensures var e := P.Rule(EditHandover(1, Some(Confirmed), None, false, false));
            && P.Clashes(s, e) && SingleClaim(P.Step(hash, s, e).db)
            && !SingleClaim(P.Step(hash, P.Step(hash, s, e), P.Commit(2, 2)).db)
  {
    hide P.Safe;
    hide P.Step;
    var e := P.Rule(EditHandover(1, Some(Confirmed), None, false, false));
    RevivalEnds(hash, s);
    assert 2 in s.txs && P.Ready(s.txs[2]) && 0 in s.txs[2].phase.orders;
    assert P.Wanted(s, 0) && 0 in s.db.handovers[1].lines;
    assert s.db.handovers[1].lines.Keys * Claimed(s.db) == {} by {
      assert 0 in Eligible(s.db, 7);
    }
    P.StaleRevival(hash, s, e, 2, 2, 0);
  }

  /** From empty tables, the correction of a wrong rejection while the courier submits the order
      again: after the correction the order is still claimed once, after the commit twice. */
  lemma StaleRevivalDoubleClaims(hash: Id -> int)
    ensures var s := P.Run(hash, P.Empty(), StaleRevivalRun());
            var e := P.Rule(EditHandover(1, Some(Confirmed), None, false, false));
            && P.Safe(s, hash) && P.Clashes(s, e) && SingleClaim(P.Step(hash, s, e).db)
            && !SingleClaim(P.Step(hash, P.Step(hash, s, e), P.Commit(2, 2)).db)
  {
    var start := Delivered100();
    var one := start.(db := Done(start.db, Submit(start.db, 7, None, 1)));
    var two := one.(db := Done(one.db, Decide(one.db, RejectHandover(1))));
    var three := two.(txs := map[2 := P.Tx(7, None, P.Chosen({0}))]);
    assert StaleStates(start, one, two, three);
    SampleFacts();
    hide *;
    SubmittedAndRejected(start.db, 7, 1, one.db, two.db);
    StaleRuns(hash, start, one, two, three);
    OneChooserIsSafe(hash, three, 2, 7, None);
    StaleOutcome(hash, three);
  }

  // ── A raise while a submission is under way ───────────────────────────────────────────

  /** Declare nothing for the order, and all it is worth in a submission read but not committed. */
  function StaleRaiseRun(): seq<P.Event> {
    [P.Deliver(0, SAMPLE)] + Submission(1, 7, Some(0), 1) + Reading(2, 7, Some(100))
  }

  /** Without decisions and manual entries, a run of declared submissions is ordinary. */
  lemma {:induction false} DeclaredRunIsOrdinary(hash: Id -> int, s: P.State, es: seq<P.Event>)
    requires forall k :: 0 <= k < |es| ==> !es[k].Rule? && !es[k].Enter? && (es[k].Begin? ==> es[k].amount.Some?)
    ensures M.AllOrdinary(hash, s, es)
    decreases |es|
  {
    hide P.Run;
    if es != [] {
      DeclaredRunIsOrdinary(hash, s, es[..|es| - 1]);
    }
  }

  lemma StaleRaiseIsSound(hash: Id -> int)
    ensures M.Sound(hash, P.Run(hash, P.Empty(), StaleRaiseRun()))
  {
    var es := StaleRaiseRun();
    P.EmptyIsSafe(hash);
    M.EmptyIsSolvent();
    assert M.FromApp(P.Empty());
    DeclaredRunIsOrdinary(hash, P.Empty(), es);
    hide *;
    assert M.Sound(hash, P.Empty());
    M.OrdinaryRunIsFair(hash, P.Empty(), es);
    M.RunIsSolvent(hash, P.Empty(), es);
  }

  lemma StaleRaiseRuns(hash: Id -> int, start: P.State, one: P.State, two: P.State)
    requires start == Delivered100() && one == start.(db := Done(start.db, Submit(start.db, 7, Some(0), 1)))
    requires two == one.(txs := map[2 := P.Tx(7, Some(100), P.Chosen({}))])
    ensures P.Run(hash, P.Empty(), StaleRaiseRun()) == two
    ensures 1 in two.db.handovers && two.db.handovers.Keys == {1} && Available(two.db, 7) == 100
    ensures var row := two.db.handovers[1];
            row.courier == 7 && row.source.CourierApp? && row.Open() && row.Accepted() == 0
  {
    SampleFacts();
    DeliveredRuns(hash);
    hide Delivered100;
    hide Submission;
    hide Reading;
    hide Submit;
    hide Eligible;
    hide Balance;
    hide Available;
    hide Good;
    hide P.Run;
    DeclaredGoes(start.db, 7, 0, 1, one.db);
    LimitIsBalance(one.db, 7);
    hide Done;
    var es := [P.Deliver(0, SAMPLE)];
    ThenSubmission(hash, es, start, 1, 7, Some(0), 1);
    ThenReading(hash, es + Submission(1, 7, Some(0), 1), one, 2, 7, Some(100));
  }

  /** From empty tables, confirming 100 cents where none were declared stays within the limit, and
      the commit of a submission that passed its check before takes declarations over the debt. */
  lemma StaleRaiseExceedsDebt(hash: Id -> int)
    ensures var s := P.Run(hash, P.Empty(), StaleRaiseRun());
            var after := P.Step(hash, s, P.Rule(ConfirmHandover(1, 100)));
            && M.Sound(hash, s) && M.Covered(after.db) && !M.Covered(P.Step(hash, after, P.Commit(2, 2)).db)
  {
    var start := Delivered100();
    var one := start.(db := Done(start.db, Submit(start.db, 7, Some(0), 1)));
    var two := one.(txs := map[2 := P.Tx(7, Some(100), P.Chosen({}))]);
    StaleRaiseIsSound(hash);
    StaleRaiseRuns(hash, start, one, two);
    hide Delivered100;
    hide StaleRaiseRun;
    hide Submit;
    hide Done;
    hide P.Run;
    StaleRaiseOutcome(hash, two);
  }

  lemma StaleRaiseOutcome(hash: Id -> int, s: P.State)
    requires M.Sound(hash, s) && s.txs == map[2 := P.Tx(7, Some(100), P.Chosen({}))]
    requires 1 in s.db.handovers && s.db.handovers.Keys == {1} && Available(s.db, 7) == 100
    requires var row := s.db.handovers[1];
             row.courier == 7 && row.source.CourierApp? && row.Open() && row.Accepted() == 0
    ensures var after := P.Step(hash, s, P.Rule(ConfirmHandover(1, 100)));
            M.Covered(after.db) && !M.Covered(P.Step(hash, after, P.Commit(2, 2)).db)
  {
    hide P.Safe;
    hide M.Solvent;
    hide M.Covered;
    hide Available;
    var d := ConfirmHandover(1, 100);
    var after := P.Step(hash, s, P.Rule(d));
    assert after.txs == s.txs;
    assert P.Step(hash, after, P.ReadEligible(2)) == after;
    M.StaleRaise(hash, s, d, 2, 2);
  }

  // ── An undeclared submission ──────────────────────────────────────────────────────────

  /** Declare nothing for the order, declare all of it without the order, delete the first. */
  function PaidDownRun(): seq<P.Event> {
    [P.Deliver(0, SAMPLE)] + Submission(1, 7, Some(0), 1) + Submission(2, 7, Some(100), 2) + [P.Delete(1)]
  }

  /** A declared amount within the balance goes through and comes off it. */
  lemma DeclaredGoes(db: Db, c: Id, a: int, h: Id, after: Db)
    requires Good(db) && 0 <= a <= Balance(db, c) && h !in db.handovers && (Eligible(db, c) != {} || a > 0)
    requires after == Done(db, Submit(db, c, Some(a), h))
    ensures Opened(db, after, h, c, Eligible(db, c)) && after.handovers[h].actual == Some(a)
    ensures Good(after) && Eligible(after, c) == {} && Balance(after, c) == Balance(db, c) - a
  {
    LimitIsBalance(db, c);
    hide Good;
    hide Balance;
    hide Available;
    assert Submit(db, c, Some(a), h) == Ok(after) by { hide NewHandover; hide Eligible; }
    SubmitOpens(db, c, Some(a), h, after);
    assert Declared(db, c, Some(a)) == a by { hide Total; }
  }

  lemma PaidDown(start: Db, one: Db, two: Db, three: Db)
    requires Good(start) && start.handovers == map[] && Eligible(start, 7) == {0} && Balance(start, 7) == 100
    requires one == Done(start, Submit(start, 7, Some(0), 1)) && two == Done(one, Submit(one, 7, Some(100), 2))
    requires three == Done(two, DeleteHandover(two, 1))
    ensures Good(three) && Eligible(three, 7) == {0} && Balance(three, 7) == 0
    ensures three.orders == start.orders && three.handovers.Keys == {2}
  {
    hide Submit;
    hide Balance;
    hide Good;
    hide Eligible;
    DeclaredGoes(start, 7, 0, 1, one);
    DeclaredGoes(one, 7, 100, 2, two);
    assert two.handovers[1] == one.handovers[1];
    assert DeleteHandover(two, 1) == Ok(three);
    DeleteKeeps(two, three, 1);
    ClosingFrees(two, three, 1, 7);
  }

  /** The sample order alone declares its 100 cents. */
  lemma SampleDeclares(db: Db)
    requires 0 in db.orders && db.orders[0] == SAMPLE && Eligible(db, 7) == {0}
    ensures Declared(db, 7, None) == 100
  {
    var lines := LinesOf(db.orders, {0});
    assert lines == map[0 := LineOf(SAMPLE)];
    TotalSplit(lines.Keys, LineReturns(lines), 0);
    assert lines.Keys - {0} == {};
  }

  ghost predicate PaidDownStates(start: P.State, one: P.State, two: P.State, three: P.State) {
    && start == Delivered100()
    && one == start.(db := Done(start.db, Submit(start.db, 7, Some(0), 1)))
    && two == one.(db := Done(one.db, Submit(one.db, 7, Some(100), 2)))
    && three == two.(db := Done(two.db, DeleteHandover(two.db, 1)))
  }

  lemma PaidDownRuns(hash: Id -> int, start: P.State, one: P.State, two: P.State, three: P.State)
    requires PaidDownStates(start, one, two, three)
    ensures P.Run(hash, P.Empty(), PaidDownRun()) == three
  {
    SampleFacts();
    DeliveredRuns(hash);
    hide Delivered100;
    hide Submission;
    hide Submit;
    hide DeleteHandover;
    hide Eligible;
    hide Good;
    hide Done;
    hide P.Run;
    var es := [P.Deliver(0, SAMPLE)];
    ThenSubmission(hash, es, start, 1, 7, Some(0), 1);
    ThenSubmission(hash, es + Submission(1, 7, Some(0), 1), one, 2, 7, Some(100), 2);
    ThenDeletion(hash, es + Submission(1, 7, Some(0), 1) + Submission(2, 7, Some(100), 2), two, 1);
  }

  /** With everything declared, the sample order to hand over again exceeds the debt. */
  lemma SampleExceeds(db: Db, after: Db)
    requires Good(db) && Eligible(db, 7) == {0} && Balance(db, 7) == 0 && 3 !in db.handovers
    requires 0 in db.orders && db.orders[0] == SAMPLE && after == Done(db, Submit(db, 7, None, 3))
    ensures Submit(db, 7, None, 3) == Ok(after)
    ensures Debt(after, 7) - OpenAmount(after, 7) == -100
  {
    hide Submit;
    hide Good;
    hide Eligible;
    hide Balance;
    hide Debt;
    hide OpenAmount;
    hide Declared;
    UndeclaredGoes(db, 7, 3);
    SampleDeclares(db);
    SubmitOpens(db, 7, None, 3, after);
    DebtIsBalance(after, 7);
  }

  lemma PaidDownOutcome(start: P.State, one: P.State, two: P.State, three: P.State, after: Db)
    requires PaidDownStates(start, one, two, three) && after == Done(three.db, Submit(three.db, 7, None, 3))
    ensures Good(three.db) && Balance(three.db, 7) == 0 && three.txs == map[]
    ensures Submit(three.db, 7, None, 3) == Ok(after)
    ensures Debt(after, 7) - OpenAmount(after, 7) == -100
  {
    SampleFacts();
    hide Delivered100;
    hide Submit;
    hide DeleteHandover;
    hide Good;
    hide Eligible;
    hide Balance;
    hide Debt;
    hide OpenAmount;
    hide Done;
    PaidDown(start.db, one.db, two.db, three.db);
    SampleExceeds(three.db, after);
  }

  /** From empty tables, in a state where all that was earned is declared already, a submission
      without an amount takes open declarations 100 cents over the debt. */
  lemma UndeclaredExceedsDebt(hash: Id -> int)
    ensures var s := P.Run(hash, P.Empty(), PaidDownRun());
            var after := P.Run(hash, P.Empty(), PaidDownRun() + Submission(3, 7, None, 3));
            && Good(s.db) && Balance(s.db, 7) == 0
            && Debt(after.db, 7) - OpenAmount(after.db, 7) == -100
  {
    var start := Delivered100();
    var one := start.(db := Done(start.db, Submit(start.db, 7, Some(0), 1)));
    var two := one.(db := Done(one.db, Submit(one.db, 7, Some(100), 2)));
    var three := two.(db := Done(two.db, DeleteHandover(two.db, 1)));
    assert PaidDownStates(start, one, two, three);
    hide *;
    PaidDownRuns(hash, start, one, two, three);
    var after := Done(three.db, Submit(three.db, 7, None, 3));
    PaidDownOutcome(start, one, two, three, after);
    ThenSubmission(hash, PaidDownRun(), three, 3, 7, None, 3);
  }

  // ── Without the lock ──────────────────────────────────────────────────────────────────

  /** The protocol with an advisory lock that never makes anyone wait. */
  ghost function UnlockedStep(hash: Id -> int, s: P.State, e: P.Event): P.State {
    if e.Acquire? then
      if e.tx in s.txs && s.txs[e.tx].phase.Waiting?
      then s.(txs := s.txs[e.tx := s.txs[e.tx].(phase := P.Locked)]) else s
    else P.Step(hash, s, e)
  }

  ghost function UnlockedRun(hash: Id -> int, s: P.State, es: seq<P.Event>): P.State {
    if es == [] then s else UnlockedStep(hash, UnlockedRun(hash, s, es[..|es| - 1]), es[|es| - 1])
  }

  /** Two events in a row. */
  ghost function Two(hash: Id -> int, s: P.State, a: P.Event, b: P.Event): P.State {
    UnlockedStep(hash, UnlockedStep(hash, s, a), b)
  }

  lemma RunPair(hash: Id -> int, s: P.State, es: seq<P.Event>, a: P.Event, b: P.Event)
    ensures UnlockedRun(hash, s, es + [a, b]) == Two(hash, UnlockedRun(hash, s, es), a, b)
  {
    hide UnlockedStep;
    var more := es + [a, b];
    assert more[..|es| + 1] == es + [a] && (es + [a])[..|es|] == es;
  }

  /** Two undeclared submissions of one courier, statement by statement in turn. */
  function Interleaved(x: Id, y: Id, c: Id, h: Id, i: Id): seq<P.Event> {
    [] + [P.Begin(x, c, None), P.Begin(y, c, None)] + [P.Acquire(x), P.Acquire(y)]
    + [P.ReadLimit(x), P.ReadLimit(y)] + [P.ReadEligible(x), P.ReadEligible(y)] + [P.Commit(x, h), P.Commit(y, i)]
  }

  /** The two transactions at one phase. */
  function Both(s: P.State, x: Id, y: Id, c: Id, p: P.Phase): P.State {
    s.(txs := map[x := P.Tx(c, None, p), y := P.Tx(c, None, p)])
  }

  lemma BeginBoth(hash: Id -> int, s: P.State, x: Id, y: Id, c: Id)
    requires s.txs == map[] && x != y
    ensures Two(hash, s, P.Begin(x, c, None), P.Begin(y, c, None)) == Both(s, x, y, c, P.Waiting)
  {
  }

  lemma AcquireBoth(hash: Id -> int, s: P.State, x: Id, y: Id, c: Id)
    requires x != y
    ensures Two(hash, Both(s, x, y, c, P.Waiting), P.Acquire(x), P.Acquire(y)) == Both(s, x, y, c, P.Locked)
  {
  }

  lemma LimitBoth(hash: Id -> int, s: P.State, x: Id, y: Id, c: Id)
    requires x != y
    ensures Two(hash, Both(s, x, y, c, P.Locked), P.ReadLimit(x), P.ReadLimit(y)) == Both(s, x, y, c, P.Limited)
  {
  }

  lemma ChooseBoth(hash: Id -> int, s: P.State, x: Id, y: Id, c: Id, found: set<Id>)
    requires x != y && s.txs == map[] && found == Eligible(s.db, c)
    ensures Two(hash, Both(s, x, y, c, P.Limited), P.ReadEligible(x), P.ReadEligible(y))
         == if found == {} then s else Both(s, x, y, c, P.Chosen(found))
  {
    hide Eligible;
  }

  lemma CommitBoth(hash: Id -> int, s: P.State, x: Id, y: Id, c: Id, h: Id, i: Id, found: set<Id>, row: Handover)
    requires x != y && h != i && h !in s.db.handovers && i !in s.db.handovers
    requires row == NewHandover(s.db.orders, c, None, found)
    ensures Two(hash, Both(s, x, y, c, P.Chosen(found)), P.Commit(x, h), P.Commit(y, i)).db
         == s.db.(handovers := s.db.handovers[h := row][i := row])
  {
    hide NewHandover;
  }

  lemma NothingLeft(hash: Id -> int, s: P.State, x: Id, y: Id, h: Id, i: Id)
    requires s.txs == map[]
    ensures Two(hash, s, P.Commit(x, h), P.Commit(y, i)) == s
  {
  }

  lemma SameRowTwice(db: Db, twice: Db, c: Id, h: Id, i: Id, row: Handover)
    requires Eligible(db, c) != {} && h != i && row == NewHandover(db.orders, c, None, Eligible(db, c))
    requires twice == db.(handovers := db.handovers[h := row][i := row])
    ensures !SingleClaim(twice)
  {
    hide Total;
    var o :| o in Eligible(db, c);
    assert Links(twice, h, o) && Links(twice, i, o);
  }

  lemma InterleavedRuns(hash: Id -> int, s: P.State, x: Id, y: Id, c: Id, h: Id, i: Id, found: set<Id>)
    requires x != y && s.txs == map[] && found == Eligible(s.db, c)
    ensures UnlockedRun(hash, s, Interleaved(x, y, c, h, i))
         == Two(hash, if found == {} then s else Both(s, x, y, c, P.Chosen(found)), P.Commit(x, h), P.Commit(y, i))
  {
    assert UnlockedRun(hash, s, []) == s;
    hide UnlockedRun;
    hide Two;
    hide Both;
    var begun := [] + [P.Begin(x, c, None), P.Begin(y, c, None)];
    var locked := begun + [P.Acquire(x), P.Acquire(y)];
    var limited := locked + [P.ReadLimit(x), P.ReadLimit(y)];
    RunPair(hash, s, [], P.Begin(x, c, None), P.Begin(y, c, None));
    BeginBoth(hash, s, x, y, c);
    RunPair(hash, s, begun, P.Acquire(x), P.Acquire(y));
    AcquireBoth(hash, s, x, y, c);
    RunPair(hash, s, locked, P.ReadLimit(x), P.ReadLimit(y));
    LimitBoth(hash, s, x, y, c);
    RunPair(hash, s, limited, P.ReadEligible(x), P.ReadEligible(y));
    ChooseBoth(hash, s, x, y, c, found);
    RunPair(hash, s, limited + [P.ReadEligible(x), P.ReadEligible(y)], P.Commit(x, h), P.Commit(y, i));
  }

  /** Without the lock, from any state at rest: orders stay claimed once if and only if there was
      nothing to claim. */
  lemma UnlockedDoubleClaim(hash: Id -> int, s: P.State, x: Id, y: Id, c: Id, h: Id, i: Id)
    requires Good(s.db) && s.txs == map[] && x != y && h != i && h !in s.db.handovers && i !in s.db.handovers
    ensures SingleClaim(UnlockedRun(hash, s, Interleaved(x, y, c, h, i)).db) <==> Eligible(s.db, c) == {}
  {
    var found := Eligible(s.db, c);
    GoodIsSingle(s.db);
    InterleavedRuns(hash, s, x, y, c, h, i, found);
    hide *;
    if found != {} {
      var row := NewHandover(s.db.orders, c, None, found);
      CommitBoth(hash, s, x, y, c, h, i, found, row);
      SameRowTwice(s.db, UnlockedRun(hash, s, Interleaved(x, y, c, h, i)).db, c, h, i, row);
    } else {
      NothingLeft(hash, s, x, y, h, i);
    }
  }

  lemma GoodIsSingle(db: Db)
    ensures Good(db) ==> SingleClaim(db)
  {
  }
}
