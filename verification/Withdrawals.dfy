/** Owner withdrawals held for approval: approvals, rejections and the expiry sweep run statement by
    statement under READ COMMITTED, with row locks, against the budget ledger
    (budget/withdrawal_requests.go). */
module Withdrawals {
  import opened Basics
  import opened Totals
  import B = Budget

  datatype Status = Pending | Approved | Rejected | Expired

  /** A budget_withdrawal_requests row. */
  datatype Request = Request(amount: int, expires: int, status: Status, txn: Option<Id>)

  datatype Db = Db(requests: map<Id, Request>, rows: B.Rows)

  datatype Error = NotFound | Decided | Constraint

  // ── Each operation on its own ─────────────────────────────────────────────────────────

  predicate IsPending(db: Db, r: Id) { r in db.requests && db.requests[r].status.Pending? }

  /** What keeps a request from being decided. */
  function Refusal(db: Db, r: Id): Option<Error> {
    if r !in db.requests then Some(NotFound)
    else if !db.requests[r].status.Pending? then Some(Decided)
    else None
  }

  function Create(db: Db, r: Id, amount: int, expires: int): Result<Db, Error> {
    if amount <= 0 || r in db.requests then Err(Constraint)
    else Ok(db.(requests := db.requests[r := Request(amount, expires, Pending, None)]))
  }

  /** The ledger row and the decision of an approval that read `net`. */
  function Approve(db: Db, r: Id, t: Id, at: int, net: int): Db
    requires r in db.requests
  {
    var req := db.requests[r];
    Db(db.requests[r := req.(status := Approved, txn := Some(t))],
       db.rows[t := B.NewRow(B.OwnerWithdrawal, req.amount, at, net)])
  }

  ghost function ApproveWithdrawalRequest(db: Db, r: Id, t: Id, at: int): Result<Db, Error> {
    if Refusal(db, r).Some? then Err(Refusal(db, r).value)
    else if t in db.rows then Err(Constraint)
    else Ok(Approve(db, r, t, at, B.ManualNet(db.rows)))
  }

  function SetStatus(db: Db, r: Id, status: Status): Db
    requires r in db.requests
  {
    db.(requests := db.requests[r := db.requests[r].(status := status)])
  }

  function RejectWithdrawalRequest(db: Db, r: Id): Result<Db, Error> {
    if Refusal(db, r).Some? then Err(Refusal(db, r).value) else Ok(SetStatus(db, r, Rejected))
  }

  /** What the sweep's first statement reads. */
  function Overdue(db: Db, now: int): set<Id> {
    set r | r in db.requests && db.requests[r].status.Pending? && db.requests[r].expires < now
  }

  /** What its second statement writes. */
  function ExpireAll(db: Db, ids: set<Id>): Db {
    db.(requests := map r | r in db.requests ::
      if r in ids && db.requests[r].status.Pending? then db.requests[r].(status := Expired) else db.requests[r])
  }

  // ── What an operation writes ──────────────────────────────────────────────────────────

  /** The ledger and all requests but `r` are as they were. */
  ghost predicate OnlyRequest(db: Db, after: Db, r: Id) {
    after.rows == db.rows && after.requests - {r} == db.requests - {r}
  }

  lemma CreatedRequest(db: Db, r: Id, amount: int, expires: int)
    ensures var outcome := Create(db, r, amount, expires);
            && (outcome.Ok? <==> amount > 0 && r !in db.requests)
            && (outcome.Ok? ==>
                  && OnlyRequest(db, outcome.value, r) && r in outcome.value.requests
                  && var req := outcome.value.requests[r];
                     req.amount == amount && req.expires == expires && req.status == Pending && req.txn == None)
  {
  }

  /** An approval of a pending request inserts one owner withdrawal of its amount, stamped with the
      net it leaves, and names it in the request. */
  lemma ApprovedRequest(db: Db, r: Id, t: Id, at: int)
    ensures var outcome := ApproveWithdrawalRequest(db, r, t, at);
            && (outcome.Ok? <==> r in db.requests && db.requests[r].status == Pending && t !in db.rows)
            && (outcome.Ok? ==>
                  && r in outcome.value.requests && outcome.value.requests - {r} == db.requests - {r}
                  && outcome.value.requests[r] == db.requests[r].(status := Approved, txn := Some(t))
                  && t in outcome.value.rows && outcome.value.rows - {t} == db.rows
                  && B.ManualNet(outcome.value.rows) == B.ManualNet(db.rows) - db.requests[r].amount
                  && outcome.value.rows[t]
                     == B.Txn(B.OwnerWithdrawal, db.requests[r].amount, at, B.ManualNet(outcome.value.rows)))
  {
    hide B.ManualNet;
    if r in db.requests && t !in db.rows {
      B.NetAfterInsert(db.rows, t, B.NewRow(B.OwnerWithdrawal, db.requests[r].amount, at, B.ManualNet(db.rows)));
    }
  }

  lemma RejectedRequest(db: Db, r: Id)
    ensures var outcome := RejectWithdrawalRequest(db, r);
            && (outcome.Ok? <==> r in db.requests && db.requests[r].status == Pending)
            && (outcome.Ok? ==>
                  && OnlyRequest(db, outcome.value, r) && r in outcome.value.requests
                  && outcome.value.requests[r] == db.requests[r].(status := Rejected))
  {
  }

  /** The sweep expires exactly the pending requests whose time has passed, and changes nothing else. */
  lemma SweptRequests(db: Db, now: int, r: Id)
    requires r in db.requests
    ensures var after := ExpireAll(db, Overdue(db, now));
            && after.rows == db.rows && after.requests.Keys == db.requests.Keys
            && after.requests[r] == if db.requests[r].status == Pending && db.requests[r].expires < now
                                    then db.requests[r].(status := Expired) else db.requests[r]
  {
  }

  // ── Statement by statement ────────────────────────────────────────────────────────────

  datatype Phase =
    | Deciding(r: Id, approve: bool)                        // FOR UPDATE returned a pending request
    | Priced(r: Id, net: int)                               // the approval read manualNet
    | Sweeping(ids: set<Id>, left: set<Id>, taken: set<Id>) // the UPDATE has visited ids - left, changed taken

  /** Row locks name their transaction; `written` remembers for which request a ledger row was written. */
  datatype State = State(db: Db, locks: map<Id, Id>, txs: map<Id, Phase>, written: map<Id, Id>)

  datatype Event =
    | Submit(r: Id, amount: int, expires: int)
    | Lock(x: Id, r: Id, approve: bool)
    | ReadNet(x: Id)
    | Commit(x: Id, t: Id, at: int)
    | StartSweep(x: Id, now: int)
    | Visit(x: Id, r: Id)
    | EndSweep(x: Id)
    | Abort(x: Id)
    | Ledger(op: B.Op)

  /** End of a transaction: its locks are released. */
  function Ended(s: State, x: Id): State {
    s.(locks := map r | r in s.locks && s.locks[r] != x :: s.locks[r], txs := s.txs - {x})
  }

  /** One event; an event that cannot happen, or has to wait, leaves the state as it is. */
  ghost function Step(s: State, e: Event): State {
    match e
    case Submit(r, amount, expires) =>
      (match Create(s.db, r, amount, expires) case Ok(db) => s.(db := db) case Err(_) => s)
    case Lock(x, r, approve) =>
      if x in s.txs || r in s.locks || !IsPending(s.db, r) then s
      else s.(locks := s.locks[r := x], txs := s.txs[x := Deciding(r, approve)])
    case ReadNet(x) =>
      if x in s.txs && s.txs[x].Deciding? && s.txs[x].approve
      then s.(txs := s.txs[x := Priced(s.txs[x].r, B.ManualNet(s.db.rows))]) else s
    case Commit(x, t, at) =>
      if x !in s.txs then s
      else (
        match s.txs[x]
        case Priced(r, net) =>
          if t in s.db.rows || r !in s.db.requests then Ended(s, x)
          else Ended(s, x).(db := Approve(s.db, r, t, at, net), written := s.written[t := r])
        case Deciding(r, false) =>
          if r in s.db.requests then Ended(s, x).(db := SetStatus(s.db, r, Rejected)) else s
        case _ => s)
    case StartSweep(x, now) =>
      if x in s.txs then s
      else s.(txs := s.txs[x := Sweeping(Overdue(s.db, now), Overdue(s.db, now), {})])
    case Visit(x, r) =>
      if x in s.txs && s.txs[x].Sweeping? && r in s.txs[x].left && r !in s.locks then
        var p := s.txs[x];
        if IsPending(s.db, r)
        then s.(locks := s.locks[r := x], txs := s.txs[x := Sweeping(p.ids, p.left - {r}, p.taken + {r})])
        else s.(txs := s.txs[x := Sweeping(p.ids, p.left - {r}, p.taken)])
      else s
    case EndSweep(x) =>
      if x in s.txs && s.txs[x].Sweeping? && s.txs[x].left == {}
      then Ended(s, x).(db := ExpireAll(s.db, s.txs[x].taken)) else s
    case Abort(x) => Ended(s, x)
    case Ledger(op) => s.(db := s.db.(rows := B.Step(s.db.rows, op)))
  }

  ghost function Run(s: State, es: seq<Event>): State {
    if es == [] then s else Step(Run(s, es[..|es| - 1]), es[|es| - 1])
  }

  // ── What holds in every interleaving ──────────────────────────────────────────────────

  /** The rows a transaction has to hold. */
  function Holds(p: Phase): set<Id> {
    match p
    case Deciding(r, _) => {r}
    case Priced(r, _) => {r}
    case Sweeping(_, _, taken) => taken
  }

  /** A transaction holds its rows' locks, and a request whose lock is held is pending. */
  ghost predicate TxRow(s: State, x: Id) {
    x in s.txs ==>
      && (forall r :: r in Holds(s.txs[x]) ==> r in s.locks && s.locks[r] == x)
      && (s.txs[x].Sweeping? ==> SweepRow(s.db, s.txs[x]))
  }

  /** What a sweep has visited and not taken was decided by someone else. */
  ghost predicate SweepRow(db: Db, p: Phase)
    requires p.Sweeping?
  {
    && p.left + p.taken <= p.ids && p.left !! p.taken
    && forall r :: r in p.ids ==> r in db.requests && (r !in p.left && r !in p.taken ==> !IsPending(db, r))
  }

  ghost predicate LockRow(s: State, r: Id) {
    r in s.locks ==> s.locks[r] in s.txs && r in Holds(s.txs[s.locks[r]]) && IsPending(s.db, r)
  }

  /** An approved request names the one ledger row written for it; any other names none. */
  ghost predicate RequestRow(s: State, r: Id) {
    r in s.db.requests ==>
      var req := s.db.requests[r];
      && (req.txn.Some? <==> req.status.Approved?)
      && (req.txn.Some? ==> req.txn.value in s.written && s.written[req.txn.value] == r)
  }

  ghost predicate WrittenRow(s: State, t: Id) {
    t in s.written ==>
      && t in s.db.rows && s.db.rows[t].kind.OwnerWithdrawal?
      && s.written[t] in s.db.requests && s.db.requests[s.written[t]].txn == Some(t)
  }

  ghost predicate Inv(s: State) {
    && (forall x {:trigger TxRow(s, x)} :: TxRow(s, x))
    && (forall r {:trigger LockRow(s, r)} :: LockRow(s, r))
    && (forall r {:trigger RequestRow(s, r)} :: RequestRow(s, r))
    && (forall t {:trigger WrittenRow(s, t)} :: WrittenRow(s, t))
  }

  lemma LedgerKeepsRows(rows: B.Rows, op: B.Op, t: Id)
    requires t in rows
    ensures t in B.Step(rows, op) && B.Step(rows, op)[t].kind == rows[t].kind
    ensures !(op.Edit? && op.i == t) ==> B.Step(rows, op)[t].amount == rows[t].amount
  {
  }

  lemma StepKeepsLocks(s: State, e: Event, r: Id)
    requires Inv(s)
    ensures LockRow(Step(s, e), r)
  {
    hide RequestRow;
    hide WrittenRow;
    hide SweepRow;
    assert LockRow(s, r);
    if r in s.locks {
      assert TxRow(s, s.locks[r]);
    }
    match e
    case Commit(x, t, at) => assert TxRow(s, x);
    case EndSweep(x) => assert TxRow(s, x);
    case _ =>
  }

  /** Requests are never removed, and a decided one never changes again. */
  ghost predicate Follows(before: Db, after: Db, r: Id) {
    r in before.requests ==>
      && r in after.requests
      && after.requests[r].amount == before.requests[r].amount
      && (!before.requests[r].status.Pending? ==> after.requests[r] == before.requests[r])
  }

  lemma StepFollows(s: State, e: Event, r: Id)
    requires Inv(s)
    ensures Follows(s.db, Step(s, e).db, r)
  {
    hide RequestRow;
    hide WrittenRow;
    hide SweepRow;
    if r in s.db.requests {
      match e
      case Commit(x, t, at) =>
        assert TxRow(s, x);
        if x in s.txs && !s.txs[x].Sweeping? {
          assert LockRow(s, s.txs[x].r);
        }
      case _ =>
    }
  }

  lemma StepKeepsTx(s: State, e: Event, x: Id)
    requires Inv(s)
    ensures TxRow(Step(s, e), x)
  {
    hide RequestRow;
    hide WrittenRow;
    hide SweepRow;
    var after := Step(s, e);
    assert TxRow(s, x);
    if x in after.txs && after.txs[x].Sweeping? {
      SweepGoesOn(s, e, x);
    }
    if x in after.txs {
      forall r | r in Holds(after.txs[x])
        ensures r in after.locks && after.locks[r] == x
      {
        assert x in s.txs && r in Holds(s.txs[x]) ==> r in s.locks && s.locks[r] == x;
      }
    }
  }

  lemma SweepGoesOn(s: State, e: Event, x: Id)
    requires Inv(s) && x in Step(s, e).txs && Step(s, e).txs[x].Sweeping?
    ensures SweepRow(Step(s, e).db, Step(s, e).txs[x])
  {
    hide RequestRow;
    hide WrittenRow;
    hide LockRow;
    assert TxRow(s, x);
    if x in s.txs {
      var p := s.txs[x];
      forall r | r in p.ids
        ensures Follows(s.db, Step(s, e).db, r)
      {
        StepFollows(s, e, r);
      }
    }
  }

  lemma StepKeepsRequests(s: State, e: Event, r: Id)
    requires Inv(s)
    ensures RequestRow(Step(s, e), r)
  {
    hide TxRow;
    hide LockRow;
    assert RequestRow(s, r);
    if r in s.db.requests && s.db.requests[r].txn.Some? {
      assert WrittenRow(s, s.db.requests[r].txn.value);
    }
    match e
    case EndSweep(x) =>
    case Commit(x, t, at) => assert WrittenRow(s, t); CommitRequest(s, x, t, at, r);
    case _ =>
  }

  lemma CommitRequest(s: State, x: Id, t: Id, at: int, r: Id)
    requires Inv(s)
    ensures RequestRow(Step(s, Commit(x, t, at)), r)
  {
    assert RequestRow(s, r) && WrittenRow(s, t) && TxRow(s, x);
    if x in s.txs && !s.txs[x].Sweeping? {
      assert LockRow(s, s.txs[x].r);
      assert RequestRow(s, s.txs[x].r);
    }
  }

  lemma StepKeepsWritten(s: State, e: Event, t: Id)
    requires Inv(s)
    ensures WrittenRow(Step(s, e), t)
  {
    hide TxRow;
    hide LockRow;
    hide B.Step;
    assert WrittenRow(s, t);
    if t in s.written {
      assert RequestRow(s, s.written[t]);
      match e
      case Ledger(op) => LedgerKeepsRows(s.db.rows, op, t);
      case Commit(x, i, at) => CommitWritten(s, x, i, at, t);
      case _ =>
    } else if e.Commit? {
      CommitWritten(s, e.x, e.t, e.at, t);
    }
  }

  lemma CommitWritten(s: State, x: Id, i: Id, at: int, t: Id)
    requires Inv(s)
    ensures WrittenRow(Step(s, Commit(x, i, at)), t)
  {
    assert WrittenRow(s, t) && TxRow(s, x);
    if t in s.written {
      assert RequestRow(s, s.written[t]);
    }
    if x in s.txs && !s.txs[x].Sweeping? {
      assert LockRow(s, s.txs[x].r);
    }
  }

  lemma StepIsSound(s: State, e: Event)
    requires Inv(s)
    ensures Inv(Step(s, e))
  {
    var after := Step(s, e);
    hide Step;
    forall i
      ensures TxRow(after, i) && LockRow(after, i) && RequestRow(after, i) && WrittenRow(after, i)
    {
      StepKeepsTx(s, e, i);
      StepKeepsLocks(s, e, i);
      StepKeepsRequests(s, e, i);
      StepKeepsWritten(s, e, i);
    }
  }

  const EMPTY := State(Db(map[], map[]), map[], map[], map[])

  lemma {:induction false} RunIsSound(rows: B.Rows, es: seq<Event>)
    ensures Inv(Run(EMPTY.(db := Db(map[], rows)), es))
    decreases |es|
  {
    hide Step;
    if es != [] {
      RunIsSound(rows, es[..|es| - 1]);
      StepIsSound(Run(EMPTY.(db := Db(map[], rows)), es[..|es| - 1]), es[|es| - 1]);
    }
  }

  /** In every interleaving the ledger rows written for a request are exactly the one in its
      transaction_id: one for an approved request, none for any other. */
  lemma OneRowEach(rows: B.Rows, es: seq<Event>, r: Id, t: Id)
    requires var s := Run(EMPTY.(db := Db(map[], rows)), es); r in s.db.requests
    ensures var s := Run(EMPTY.(db := Db(map[], rows)), es);
            var req := s.db.requests[r];
            && (t in s.written && s.written[t] == r <==> req.status.Approved? && req.txn == Some(t))
            && (t in s.written ==> t in s.db.rows && s.db.rows[t].kind.OwnerWithdrawal?)
            && (req.status.Approved? <==> req.txn.Some?)
  {
    var s := Run(EMPTY.(db := Db(map[], rows)), es);
    RunIsSound(rows, es);
    hide Run;
    assert RequestRow(s, r) && WrittenRow(s, t);
  }

  /** How often a request leaves pending in a run. */
  ghost function Departures(s: State, es: seq<Event>, r: Id): nat {
    if es == [] then 0
    else
      var before := Run(s, es[..|es| - 1]);
      var after := Step(before, es[|es| - 1]);
      Departures(s, es[..|es| - 1], r)
      + if IsPending(before.db, r) && !IsPending(after.db, r) then 1 else 0
  }

  /** A request leaves pending at most once, and whatever it became it stays: the two halves of
      deciding it only once. */
  lemma {:induction false} DecidedOnce(s: State, es: seq<Event>, r: Id)
    requires Inv(s) && r in s.db.requests
    ensures Inv(Run(s, es)) && Follows(s.db, Run(s, es).db, r)
    ensures r in Run(s, es).db.requests
    ensures Departures(s, es, r) == if IsPending(s.db, r) && !IsPending(Run(s, es).db, r) then 1 else 0
    decreases |es|
  {
    hide Step;
    if es != [] {
      var before := Run(s, es[..|es| - 1]);
      DecidedOnce(s, es[..|es| - 1], r);
      StepIsSound(before, es[|es| - 1]);
      StepFollows(before, es[|es| - 1], r);
    }
  }

  // ── The money ─────────────────────────────────────────────────────────────────────────

  /** A ledger row written for a request still shows the request's amount. */
  ghost predicate FaithfulRow(s: State, t: Id) {
    t in s.written && t in s.db.rows && s.written[t] in s.db.requests ==>
      s.db.rows[t].amount == s.db.requests[s.written[t]].amount
  }

  ghost predicate Faithful(s: State) {
    forall t {:trigger FaithfulRow(s, t)} :: FaithfulRow(s, t)
  }

  /** Only an owner editing the withdrawal itself can break that. */
  lemma StepKeepsFaithful(s: State, e: Event)
    requires Inv(s) && Faithful(s) && NotEdited(s, e)
    ensures Faithful(Step(s, e))
  {
    var after := Step(s, e);
    forall t
      ensures FaithfulRow(after, t)
    {
      assert FaithfulRow(s, t) && WrittenRow(s, t);
      hide B.Step;
      if t in s.written {
        StepFollows(s, e, s.written[t]);
        if e.Ledger? {
          LedgerKeepsRows(s.db.rows, e.op, t);
        }
      }
    }
  }

  function ApprovedAmount(db: Db): Id -> int {
    (r: Id) => if r in db.requests && db.requests[r].status.Approved? then db.requests[r].amount else 0
  }

  function WrittenAmount(s: State): Id -> int { (t: Id) => if t in s.db.rows then s.db.rows[t].amount else 0 }

  /** No owner edits a withdrawal that an approval wrote. */
  ghost predicate LeftAlone(s: State, es: seq<Event>) {
    es != [] ==>
      && LeftAlone(s, es[..|es| - 1])
      && NotEdited(Run(s, es[..|es| - 1]), es[|es| - 1])
  }

  predicate NotEdited(s: State, e: Event) { e.Ledger? && e.op.Edit? ==> e.op.i !in s.written }

  lemma {:induction false} RunKeepsFaithful(s: State, es: seq<Event>)
    requires Inv(s) && Faithful(s) && LeftAlone(s, es)
    ensures Inv(Run(s, es)) && Faithful(Run(s, es))
    decreases |es|
  {
    hide Step;
    hide Inv;
    hide Faithful;
    if es != [] {
      var before := Run(s, es[..|es| - 1]);
      RunKeepsFaithful(s, es[..|es| - 1]);
      StepIsSound(before, es[|es| - 1]);
      StepKeepsFaithful(before, es[|es| - 1]);
    }
  }

  /** In every interleaving in which no owner edits such a row, the withdrawals that left the ledger
      through approvals are the approved requests, each once. */
  lemma ApprovedIsWithdrawn(rows: B.Rows, es: seq<Event>)
    requires LeftAlone(EMPTY.(db := Db(map[], rows)), es)
    ensures var s := Run(EMPTY.(db := Db(map[], rows)), es);
            Total(s.written.Keys, WrittenAmount(s)) == Total(s.db.requests.Keys, ApprovedAmount(s.db))
  {
    var start := EMPTY.(db := Db(map[], rows));
    RunIsSound(rows, []);
    assert Run(start, []) == start && Faithful(start);
    hide Run;
    RunKeepsFaithful(start, es);
    FaithfulAddsUp(Run(start, es));
  }

  /** An owner's edit of such a row moves the withdrawn total by the change, and the approved one not
      at all. */
  lemma EditMovesWithdrawn(s: State, t: Id, amount: int)
    requires Inv(s) && t in s.written && amount >= 0
    ensures var after := Step(s, Ledger(B.Edit(t, amount)));
            && t in s.db.rows && after.db.requests == s.db.requests && after.written == s.written
            && Total(after.written.Keys, WrittenAmount(after))
            == Total(s.written.Keys, WrittenAmount(s)) + amount - s.db.rows[t].amount
  {
    var after := Step(s, Ledger(B.Edit(t, amount)));
    assert WrittenRow(s, t);
    forall u | u in s.written
      ensures u in s.db.rows && WrittenAmount(after)(u) == if u == t then amount else s.db.rows[u].amount
    {
      assert WrittenRow(s, u);
      EditedAmount(s.db.rows, t, amount, u);
    }
    TotalChange(s.written.Keys, WrittenAmount(s), WrittenAmount(after), t);
  }

  lemma EditedAmount(rows: B.Rows, t: Id, amount: int, u: Id)
    requires t in rows && rows[t].Manual() && amount >= 0 && u in rows
    ensures u in B.Step(rows, B.Edit(t, amount))
    ensures B.Step(rows, B.Edit(t, amount))[u].amount == if u == t then amount else rows[u].amount
  {
  }

  /** Where every written row shows its request's amount the two totals are equal. */
  lemma FaithfulAddsUp(s: State)
    requires Inv(s) && Faithful(s)
    ensures Total(s.written.Keys, WrittenAmount(s)) == Total(s.db.requests.Keys, ApprovedAmount(s.db))
  {
    var approved := set r | r in s.db.requests && s.db.requests[r].status.Approved?;
    forall r | r in approved
      ensures RequestRow(s, r)
    {
    }
    forall t | t in s.written
      ensures WrittenRow(s, t) && FaithfulRow(s, t) && s.written[t] in approved
    {
      assert RequestRow(s, s.written[t]);
    }
    hide Inv;
    hide Faithful;
    Paired(s, s.written.Keys, approved);
    TotalSupport(approved, s.db.requests.Keys, ApprovedAmount(s.db));
  }

  /** Rows and requests that name each other have the same sum. */
  lemma {:induction false} Paired(s: State, ts: set<Id>, rs: set<Id>)
    requires forall t :: t in ts ==> t in s.written && WrittenRow(s, t) && FaithfulRow(s, t) && s.written[t] in rs
    requires forall r :: r in rs ==> r in s.db.requests && s.db.requests[r].status.Approved? && RequestRow(s, r)
    requires forall r :: r in rs ==> s.db.requests[r].txn.Some? && s.db.requests[r].txn.value in ts
    ensures Total(ts, WrittenAmount(s)) == Total(rs, ApprovedAmount(s.db))
    decreases ts
  {
    if ts == {} {
      TotalZero(rs, ApprovedAmount(s.db));
    } else {
      var t :| t in ts;
      var r := s.written[t];
      TotalSplit(ts, WrittenAmount(s), t);
      TotalSplit(rs, ApprovedAmount(s.db), r);
      Paired(s, ts - {t}, rs - {r});
    }
  }

  /** An approval keeps the stored balances exact if and only if the net it read is still the
      ledger's when it commits, as the newest row. */
  lemma CommitKeepsBalanced(s: State, x: Id, t: Id, at: int)
    requires B.Balanced(s.db.rows) && x in s.txs && s.txs[x].Priced? && s.txs[x].r in s.db.requests
    requires t !in s.db.rows && B.Newest(s.db.rows, t, at)
    ensures B.Balanced(Step(s, Commit(x, t, at)).db.rows) <==> s.txs[x].net == B.ManualNet(s.db.rows)
  {
    TotalZero(B.LaterThan(s.db.rows, t, at), B.SignedOf(s.db.rows));
    B.AppendBalances(s.db.rows, t, B.OwnerWithdrawal, s.db.requests[s.txs[x].r].amount, at, s.txs[x].net);
  }

  // ── What the sweep reports ────────────────────────────────────────────────────────────

  /** ExpirePendingRequests returns every request it read. Those it expired are the ones no one
      decided in the meantime, so the report is right exactly when no one decided any. */
  lemma SweepReports(s: State, x: Id)
    requires Inv(s) && x in s.txs && s.txs[x].Sweeping? && s.txs[x].left == {}
    ensures var reported, after := s.txs[x].ids, Step(s, EndSweep(x)).db;
            var expired := set r | r in s.db.requests && IsPending(s.db, r) && !IsPending(after, r);
            && (forall r :: r in expired ==> after.requests[r].status.Expired?)
            && expired <= reported
            && (reported == expired <==> forall r :: r in reported ==> IsPending(s.db, r))
  {
    hide RequestRow;
    hide WrittenRow;
    assert TxRow(s, x);
    forall r | r in s.txs[x].taken
      ensures IsPending(s.db, r)
    {
      assert LockRow(s, r);
    }
  }

  // ── Left to themselves ────────────────────────────────────────────────────────────────

  function Or(db: Db, r: Result<Db, Error>): Db { match r case Ok(next) => next case Err(_) => db }

  ghost function ApprovalRun(s: State, x: Id, r: Id, t: Id, at: int): State {
    Step(Step(Step(s, Lock(x, r, true)), ReadNet(x)), Commit(x, t, at))
  }

  lemma Unlocking(s: State, x: Id, r: Id, p: Phase)
    requires Inv(s) && x !in s.txs && r !in s.locks
    ensures Ended(s.(locks := s.locks[r := x], txs := s.txs[x := p]), x) == s
  {
    hide RequestRow;
    hide WrittenRow;
    hide SweepRow;
    forall i | i in s.locks
      ensures s.locks[i] != x
    {
      assert LockRow(s, i);
    }
  }

  lemma LockAndRead(s: State, x: Id, r: Id)
    requires x !in s.txs && r !in s.locks && IsPending(s.db, r)
    ensures Step(Step(s, Lock(x, r, true)), ReadNet(x))
         == s.(locks := s.locks[r := x], txs := s.txs[x := Priced(r, B.ManualNet(s.db.rows))])
  {
  }

  lemma CommitPriced(s: State, x: Id, r: Id, net: int, t: Id, at: int)
    requires x in s.txs && s.txs[x] == Priced(r, net) && r in s.db.requests
    ensures var after := Step(s, Commit(x, t, at));
            && after.db == (if t in s.db.rows then s.db else Approve(s.db, r, t, at, net))
            && after.locks == Ended(s, x).locks && after.txs == Ended(s, x).txs
  {
  }

  /** Undisturbed, the statements of a transaction do what the transaction is meant to do. */
  lemma UninterruptedApproval(s: State, x: Id, r: Id, t: Id, at: int)
    requires Inv(s) && x !in s.txs && r !in s.locks
    ensures var after := ApprovalRun(s, x, r, t, at);
            && after.db == Or(s.db, ApproveWithdrawalRequest(s.db, r, t, at))
            && after.locks == s.locks && after.txs == s.txs
  {
    if IsPending(s.db, r) {
      hide Step;
      var net := B.ManualNet(s.db.rows);
      LockAndRead(s, x, r);
      Unlocking(s, x, r, Priced(r, net));
      CommitPriced(s.(locks := s.locks[r := x], txs := s.txs[x := Priced(r, net)]), x, r, net, t, at);
      hide Inv;
      hide Ended;
      hide Approve;
    } else {
      hide Inv;
      assert Step(s, Lock(x, r, true)) == s;
    }
  }

  lemma UninterruptedRejection(s: State, x: Id, r: Id, t: Id, at: int)
    requires Inv(s) && x !in s.txs && r !in s.locks
    ensures var after := Step(Step(s, Lock(x, r, false)), Commit(x, t, at));
            && after.db == Or(s.db, RejectWithdrawalRequest(s.db, r))
            && after.locks == s.locks && after.txs == s.txs
  {
    if IsPending(s.db, r) {
      var locked := s.(locks := s.locks[r := x], txs := s.txs[x := Deciding(r, false)]);
      assert Step(s, Lock(x, r, false)) == locked;
      Unlocking(s, x, r, Deciding(r, false));
      hide Inv;
      hide Ended;
    }
  }

  /** The rows `rs` visited one after the other. */
  ghost function VisitAll(s: State, x: Id, rs: seq<Id>): State {
    if rs == [] then s else Step(VisitAll(s, x, rs[..|rs| - 1]), Visit(x, rs[|rs| - 1]))
  }

  /** A sweep over `ids` holds the rows `rs` it visited, on top of what was locked before. */
  ghost predicate Swept(s: State, now: State, x: Id, ids: set<Id>, rs: seq<Id>) {
    var visited := set r | r in rs;
    && now == s.(locks := now.locks, txs := s.txs[x := Sweeping(ids, ids - visited, visited)])
    && now.locks.Keys == s.locks.Keys + visited
    && forall r :: r in now.locks ==> now.locks[r] == if r in visited then x else s.locks[r]
  }

  lemma {:induction false} VisitsHold(s: State, start: State, x: Id, ids: set<Id>, rs: seq<Id>)
    requires x !in s.txs && start == s.(txs := s.txs[x := Sweeping(ids, ids, {})])
    requires forall r :: r in ids ==> IsPending(s.db, r) && r !in s.locks
    requires forall i :: 0 <= i < |rs| ==> rs[i] in ids
    requires forall i, j :: 0 <= i < j < |rs| ==> rs[i] != rs[j]
    ensures Swept(s, VisitAll(start, x, rs), x, ids, rs)
    decreases |rs|
  {
    hide Swept;
    hide Step;
    if rs == [] {
      NothingSwept(s, start, x, ids);
    } else {
      var n := |rs| - 1;
      VisitsHold(s, start, x, ids, rs[..n]);
      VisitHolds(s, VisitAll(start, x, rs[..n]), x, ids, rs);
    }
  }

  lemma NothingSwept(s: State, start: State, x: Id, ids: set<Id>)
    requires start == s.(txs := s.txs[x := Sweeping(ids, ids, {})])
    ensures Swept(s, start, x, ids, [])
  {
    var visited: set<Id> := set r | r in [];
    assert visited == {} && ids - {} == ids;
  }

  /** When all of it was visited, the sweep expires it and lets go. */
  lemma SweptEnds(s: State, done: State, x: Id, ids: set<Id>, rs: seq<Id>)
    requires Swept(s, done, x, ids, rs) && x !in s.txs && forall r :: r in s.locks ==> s.locks[r] != x
    requires forall r :: r in rs <==> r in ids
    requires forall r :: r in ids ==> r !in s.locks
    ensures var after := Step(done, EndSweep(x));
            after.db == ExpireAll(s.db, ids) && after.locks == s.locks && after.txs == s.txs
  {
    hide ExpireAll;
    assert (set r | r in rs) == ids && ids - ids == {};
    assert done.txs[x] == Sweeping(ids, {}, ids) && done.db == s.db;
    assert Ended(done, x).locks == s.locks;
    assert s.txs[x := done.txs[x]] - {x} == s.txs;
  }

  lemma VisitHolds(s: State, now: State, x: Id, ids: set<Id>, rs: seq<Id>)
    requires rs != [] && Swept(s, now, x, ids, rs[..|rs| - 1])
    requires rs[|rs| - 1] in ids && rs[|rs| - 1] !in rs[..|rs| - 1] && rs[|rs| - 1] !in s.locks
    requires IsPending(s.db, rs[|rs| - 1])
    ensures Swept(s, Step(now, Visit(x, rs[|rs| - 1])), x, ids, rs)
  {
    var r, front := rs[|rs| - 1], rs[..|rs| - 1];
    var before, visited := (set q | q in front), set q | q in rs;
    assert visited == before + {r} && r !in before;
    assert ids - before - {r} == ids - visited;
  }

  /** A sweep that finds its rows unlocked expires every overdue request. */
  lemma UninterruptedSweep(s: State, x: Id, now: int, rs: seq<Id>)
    requires Inv(s) && x !in s.txs && forall r :: r in Overdue(s.db, now) ==> r !in s.locks
    requires forall r :: r in rs <==> r in Overdue(s.db, now)
    requires forall i, j :: 0 <= i < j < |rs| ==> rs[i] != rs[j]
    ensures var after := Step(VisitAll(Step(s, StartSweep(x, now)), x, rs), EndSweep(x));
            && after.db == ExpireAll(s.db, Overdue(s.db, now))
            && after.locks == s.locks && after.txs == s.txs
  {
    var ids, start := Overdue(s.db, now), Step(s, StartSweep(x, now));
    forall r | r in s.locks
      ensures s.locks[r] != x
    {
      assert LockRow(s, r);
    }
    hide Inv;
    hide Swept;
    hide ExpireAll;
    assert start == s.(txs := s.txs[x := Sweeping(ids, ids, {})]);
    assert forall r :: r in ids ==> IsPending(s.db, r);
    hide Step;
    hide Overdue;
    VisitsHold(s, start, x, ids, rs);
    SweptEnds(s, VisitAll(start, x, rs), x, ids, rs);
  }

  /** A transaction that gives up leaves the tables alone and its rows to others. */
  lemma AbortFrees(s: State, x: Id, y: Id, r: Id, approve: bool)
    requires Inv(s) && x in s.txs && y !in s.txs && r in Holds(s.txs[x])
    ensures var after := Step(s, Abort(x));
            && after.db == s.db && after.txs == s.txs - {x}
            && Step(after, Lock(y, r, approve)).txs == after.txs[y := Deciding(r, approve)]
  {
    assert TxRow(s, x) && LockRow(s, r);
  }

  /** A request is submitted, and the ledger changed, in one statement each. */
  lemma SingleStatements(s: State, r: Id, amount: int, expires: int, op: B.Op)
    ensures amount > 0 && r !in s.db.requests ==>
              Step(s, Submit(r, amount, expires)).db
              == Db(s.db.requests[r := Request(amount, expires, Pending, None)], s.db.rows)
    ensures Step(s, Ledger(op)).db == Db(s.db.requests, B.Step(s.db.rows, op))
  {
    hide B.Step;
  }

  /** An approval between the sweep's two statements: the withdrawal is paid and reported expired. */
  lemma SweepReportsApproved(s: State, x: Id, y: Id, r: Id, t: Id, at: int, after: State)
    requires Inv(s) && x in s.txs && s.txs[x].Sweeping? && r in s.txs[x].left && r !in s.locks
    requires IsPending(s.db, r) && y !in s.txs && t !in s.db.rows
    requires after == Step(ApprovalRun(s, y, r, t, at), Visit(x, r))
    ensures r in after.db.requests && after.db.requests[r].status.Approved?
    ensures after.txs == s.txs[x := Sweeping(s.txs[x].ids, s.txs[x].left - {r}, s.txs[x].taken)]
    ensures r in s.txs[x].ids && r !in s.txs[x].taken
  {
    UninterruptedApproval(s, y, r, t, at);
    assert TxRow(s, x);
    hide Inv;
    hide ApprovalRun;
  }

  // ── One after the other ───────────────────────────────────────────────────────────────

  datatype Op =
    | OpCreate(r: Id, amount: int, expires: int)
    | OpApprove(r: Id, t: Id, at: int)
    | OpReject(r: Id)
    | OpExpire(now: int)
    | OpLedger(op: B.Op)

  ghost function Apply(db: Db, op: Op): Db {
    match op
    case OpCreate(r, amount, expires) => Or(db, Create(db, r, amount, expires))
    case OpApprove(r, t, at) => Or(db, ApproveWithdrawalRequest(db, r, t, at))
    case OpReject(r) => Or(db, RejectWithdrawalRequest(db, r))
    case OpExpire(now) => ExpireAll(db, Overdue(db, now))
    case OpLedger(op) => db.(rows := B.Step(db.rows, op))
  }

  ghost function ApplyAll(db: Db, ops: seq<Op>): Db {
    if ops == [] then db else Apply(ApplyAll(db, ops[..|ops| - 1]), ops[|ops| - 1])
  }

  predicate Stamped(db: Db, op: Op) {
    match op
    case OpApprove(r, t, at) => B.Newest(db.rows, t, at)
    case OpLedger(op) => B.Stamped(db.rows, op)
    case _ => true
  }

  /** Every row is stamped after the visible rows that are there already. */
  ghost predicate InOrder(db: Db, ops: seq<Op>) {
    ops != [] ==>
      && InOrder(db, ops[..|ops| - 1])
      && Stamped(ApplyAll(db, ops[..|ops| - 1]), ops[|ops| - 1])
  }

  lemma ApplyKeepsBalanced(db: Db, op: Op)
    requires B.Balanced(db.rows) && Stamped(db, op)
    ensures B.Balanced(Apply(db, op).rows)
  {
    hide B.Balanced;
    match op
    case OpApprove(r, t, at) =>
      if Refusal(db, r).None? && t !in db.rows {
        B.AppendKeepsBalanced(db.rows, t, B.OwnerWithdrawal, db.requests[r].amount, at);
      }
    case OpLedger(op) => B.StepKeepsBalanced(db.rows, op);
    case _ =>
  }

  /** One after the other, top-ups, withdrawals, approvals and retroactive edits keep every stored
      balance the sum of the ledger up to its row. */
  lemma {:induction false} ApplyAllKeepsBalanced(db: Db, ops: seq<Op>)
    requires B.Balanced(db.rows) && InOrder(db, ops)
    ensures B.Balanced(ApplyAll(db, ops).rows)
    decreases |ops|
  {
    hide B.Balanced;
    if ops != [] {
      ApplyAllKeepsBalanced(db, ops[..|ops| - 1]);
      ApplyKeepsBalanced(ApplyAll(db, ops[..|ops| - 1]), ops[|ops| - 1]);
    }
  }

  // ── The repository ────────────────────────────────────────────────────────────────────

  ghost predicate Finished(spec: Result<Db, Error>, before: Db, after: Db, error: Option<Error>) {
    match spec
    case Ok(db) => error == None && after == db
    case Err(e) => error == Some(e) && after == before
  }

  /** What a request and its ledger row owe each other. */
  ghost predicate LinkRow(db: Db, r: Id) {
    r in db.requests ==>
      var req := db.requests[r];
      && (req.txn.Some? <==> req.status.Approved?)
      && (req.txn.Some? ==>
            && req.txn.value in db.rows && db.rows[req.txn.value].kind.OwnerWithdrawal?
            && db.rows[req.txn.value].amount == req.amount)
  }

  /** Approved requests have a ledger row each, of their own and over their amount; others have none. */
  ghost predicate Linked(db: Db) {
    && (forall r {:trigger LinkRow(db, r)} :: LinkRow(db, r))
    && (forall q, r, t {:trigger Names(db, q, t), Names(db, r, t)} :: Names(db, q, t) && Names(db, r, t) ==> q == r)
  }

  predicate Names(db: Db, r: Id, t: Id) { r in db.requests && db.requests[r].txn == Some(t) }

  /** Nothing decided was decided again, and no request was lost or repriced. */
  ghost predicate AllFollow(before: Db, after: Db) {
    forall r {:trigger Follows(before, after, r)} :: Follows(before, after, r)
  }

  lemma ApproveKeeps(db: Db, r: Id, t: Id, at: int, net: int)
    requires Linked(db) && IsPending(db, r) && t !in db.rows
    ensures Linked(Approve(db, r, t, at, net)) && AllFollow(db, Approve(db, r, t, at, net))
    ensures B.ManualNet(Approve(db, r, t, at, net).rows) == B.ManualNet(db.rows) - db.requests[r].amount
  {
    var after := Approve(db, r, t, at, net);
    forall q
      ensures LinkRow(after, q) && !Names(db, q, t)
    {
      assert LinkRow(db, q);
    }
    forall x, y, u | Names(after, x, u) && Names(after, y, u)
      ensures x == y
    {
      assert x != r ==> Names(db, x, u);
      assert y != r ==> Names(db, y, u);
    }
    assert after.rows.Keys == db.rows.Keys + {t};
    TotalAdd(db.rows.Keys, B.SignedOf(after.rows), t);
    TotalSame(db.rows.Keys, B.SignedOf(db.rows), B.SignedOf(after.rows));
  }

  lemma StatusKeeps(db: Db, after: Db, ids: set<Id>, status: Status)
    requires Linked(db) && !status.Approved? && after.rows == db.rows
    requires forall r :: r in ids ==> IsPending(db, r)
    requires after.requests == map r | r in db.requests ::
                                 if r in ids then db.requests[r].(status := status) else db.requests[r]
    ensures Linked(after) && AllFollow(db, after)
  {
    forall q
      ensures LinkRow(after, q)
    {
      assert LinkRow(db, q);
    }
    forall x, y, t | Names(after, x, t) && Names(after, y, t)
      ensures x == y
    {
      assert Names(db, x, t) && Names(db, y, t);
    }
  }

  lemma CreateKeeps(db: Db, after: Db, r: Id, amount: int, expires: int)
    requires Linked(db) && Create(db, r, amount, expires) == Ok(after)
    ensures Linked(after) && AllFollow(db, after)
  {
    forall q
      ensures LinkRow(after, q)
    {
      assert LinkRow(db, q);
    }
    forall x, y, t | Names(after, x, t) && Names(after, y, t)
      ensures x == y
    {
      assert Names(db, x, t) && Names(db, y, t);
    }
  }

  class Repository {
    var requests: map<Id, Request>
    var rows: B.Rows

    function Tables(): Db
      reads this
    {
      Db(requests, rows)
    }

    ghost predicate Valid()
      reads this
    {
      Linked(Tables())
    }

    constructor (ledger: B.Rows)
      ensures Tables() == Db(map[], ledger) && Valid()
    {
      requests, rows := map[], ledger;
    }

    method CreateWithdrawalRequest(r: Id, amount: int, expires: int) returns (error: Option<Error>)
      requires Valid()
      modifies this
      ensures Finished(Create(old(Tables()), r, amount, expires), old(Tables()), Tables(), error)
      ensures Valid() && AllFollow(old(Tables()), Tables()) && rows == old(rows)
      ensures error.None? ==> r !in old(requests) && IsPending(Tables(), r)
    {
      ghost var before := Tables();
      if amount <= 0 || r in requests {
        return Some(Constraint);
      }
      requests := requests[r := Request(amount, expires, Pending, None)];
      error := None;
      CreateKeeps(before, Tables(), r, amount, expires);
    }

    /** Takes the request's amount off the ledger, once. */
    method Approve(r: Id, t: Id, at: int) returns (error: Option<Error>)
      requires Valid()
      modifies this
      ensures Finished(ApproveWithdrawalRequest(old(Tables()), r, t, at), old(Tables()), Tables(), error)
      ensures Valid() && AllFollow(old(Tables()), Tables())
      ensures error.None? ==>
                && IsPending(old(Tables()), r) && requests[r].status.Approved? && requests[r].txn == Some(t)
                && B.ManualNet(rows) == old(B.ManualNet(rows)) - requests[r].amount
    {
      ghost var before := Tables();
      if r !in requests {
        return Some(NotFound);
      }
      var req := requests[r];
      if !req.status.Pending? {
        return Some(Decided);
      }
      var net := SelectSum(rows.Keys, B.SignedOf(rows));
      if t in rows {
        return Some(Constraint);
      }
      rows := rows[t := B.Txn(B.OwnerWithdrawal, req.amount, at, net - req.amount)];
      requests := requests[r := req.(status := Approved, txn := Some(t))];
      error := None;
      ApproveKeeps(before, r, t, at, net);
    }

    /** No ledger row is ever written for a rejected request. */
    method Reject(r: Id) returns (error: Option<Error>)
      requires Valid()
      modifies this
      ensures Finished(RejectWithdrawalRequest(old(Tables()), r), old(Tables()), Tables(), error)
      ensures Valid() && AllFollow(old(Tables()), Tables()) && rows == old(rows)
      ensures error.None? ==> IsPending(old(Tables()), r) && requests[r].status.Rejected? && requests[r].txn.None?
    {
      ghost var before := Tables();
      if r !in requests {
        return Some(NotFound);
      }
      if !requests[r].status.Pending? {
        return Some(Decided);
      }
      requests := requests[r := requests[r].(status := Rejected)];
      error := None;
      assert LinkRow(before, r);
      StatusKeeps(before, Tables(), {r}, Rejected);
    }

    /** Read the overdue requests, then update them one by one if they are still pending. */
    method ExpirePendingRequests(now: int) returns (expired: set<Id>)
      requires Valid()
      modifies this
      ensures expired == Overdue(old(Tables()), now)
      ensures Tables() == ExpireAll(old(Tables()), expired)
      ensures Valid() && AllFollow(old(Tables()), Tables()) && rows == old(rows)
      ensures forall r :: r in expired ==> r in requests && requests[r].status.Expired?
    {
      expired := Overdue(Tables(), now);
      ghost var before := Tables();
      var left := expired;
      hide Linked;
      while left != {}
        invariant left <= expired
        invariant Tables() == ExpireAll(before, expired - left)
        decreases left
      {
        var r :| r in left;
        left := left - {r};
        if requests[r].status.Pending? {
          requests := requests[r := requests[r].(status := Expired)];
        }
        assert requests == ExpireAll(before, expired - left).requests;
      }
      assert expired - {} == expired;
      StatusKeeps(before, Tables(), expired, Expired);
    }
  }
}
