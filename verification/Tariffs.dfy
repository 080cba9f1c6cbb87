/** Courier tariff brackets (courier_tariffs/service.go, model.go, repository.go). Order amounts are
    integer cents, tariff values integers over 10000 (numeric(12,4)), and payouts are exact, in
    millionths of a cent. */
module Tariffs {
  import opened Basics

  const VALUE_SCALE := 10000
  const PAYOUT_SCALE := 1000000

  datatype Delivery = Normal | Fast

  datatype Kind = Fixed | Percent

  /** A courier_tariff_rules row: the bracket is [from, to). */
  datatype Rule = Rule(courier: Id, delivery: Delivery, from: int, to: Option<int>, kind: Kind, value: int) {
    predicate Contains(amount: int) { amount >= from && (to.Some? ==> amount < to.value) }
    predicate For(c: Id, d: Delivery) { courier == c && delivery == d }
  }

  type Rules = map<Id, Rule>

  datatype Error = BadRange | BadPercent | Overlap | Constraint

  /** rangesOverlap. */
  predicate RangesOverlap(a: Rule, b: Rule) {
    !(a.to.Some? && a.to.value <= b.from) && !(b.to.Some? && b.to.value <= a.from)
  }

  /** The table's CHECK constraints. */
  predicate Stored(r: Rule) { r.from >= 0 && (r.to.Some? ==> r.to.value > r.from) && r.value > 0 }

  predicate Clashes(rules: Rules, r: Rule) {
    exists j :: j in rules && rules[j].For(r.courier, r.delivery) && RangesOverlap(r, rules[j])
  }

  function Create(rules: Rules, i: Id, r: Rule): Result<Rules, Error> {
    if r.to.Some? && r.to.value <= r.from then Err(BadRange)
    else if r.kind.Percent? && r.value > 100 * VALUE_SCALE then Err(BadPercent)
    else if Clashes(rules, r) then Err(Overlap)
    else if i in rules || !Stored(r) then Err(Constraint)
    else Ok(rules[i := r])
  }

  /** Only a rule of the given courier is deleted. */
  function Delete(rules: Rules, i: Id, c: Id): Rules {
    map j | j in rules && !(j == i && rules[j].courier == c) :: rules[j]
  }

  /** CourierTariffRule.Resolve. */
  function Resolve(r: Rule, amount: int): Option<int> {
    if amount < r.from then None
    else if r.to.Some? && amount >= r.to.value then None
    else match r.kind
      case Fixed => Some(r.value * (100 * PAYOUT_SCALE / VALUE_SCALE))
      case Percent => Some(amount * r.value)
  }

  // ── Column by column ──────────────────────────────────────────────────────────────────

  /** A rule pays within [from, to) only: its value in full when fixed, and otherwise that percentage
      of the order, with nothing rounded. */
  lemma PayoutIs(r: Rule, amount: int)
    ensures Resolve(r, amount).Some? <==> r.from <= amount && (r.to == None || amount < r.to.value)
    ensures Resolve(r, amount).Some? && r.kind == Fixed ==>
              Resolve(r, amount).value * VALUE_SCALE == r.value * 100 * PAYOUT_SCALE
    ensures Resolve(r, amount).Some? && r.kind == Percent ==>
              Resolve(r, amount).value * VALUE_SCALE * 100 == amount * r.value * PAYOUT_SCALE
  {
  }

  /** A rule is accepted exactly when its bracket is nonempty and starts at zero or above, its value
      is positive, and no more than 100 for a percentage, and no rule of the courier and delivery
      type overlaps it; it is then stored as it is. */
  lemma CreateWrites(rules: Rules, i: Id, r: Rule)
    ensures var outcome := Create(rules, i, r);
            && (outcome.Ok? <==>
                  && i !in rules && 0 <= r.from && r.value > 0 && (r.to.Some? ==> r.from < r.to.value)
                  && (r.kind == Percent ==> r.value <= 1000000)
                  && forall j :: j in rules && rules[j].courier == r.courier && rules[j].delivery == r.delivery ==>
                       || (r.to.Some? && r.to.value <= rules[j].from)
                       || (rules[j].to.Some? && rules[j].to.value <= r.from))
            && (outcome.Ok? ==> outcome.value == rules[i := r])
  {
  }

  /** A deletion removes the named rule if it is the courier's, and nothing else. */
  lemma DeleteWrites(rules: Rules, i: Id, c: Id)
    ensures Delete(rules, i, c) == if i in rules && rules[i].courier == c then rules - {i} else rules
  {
  }

  // ── Brackets ──────────────────────────────────────────────────────────────────────────

  predicate Matches(rules: Rules, i: Id, c: Id, d: Delivery, amount: int) {
    i in rules && rules[i].For(c, d) && rules[i].Contains(amount)
  }

  ghost predicate Disjoint(rules: Rules) {
    forall i, j, c, d, amount {:trigger Matches(rules, i, c, d, amount), Matches(rules, j, c, d, amount)} ::
      Matches(rules, i, c, d, amount) && Matches(rules, j, c, d, amount) ==> i == j
  }

  ghost predicate ValidRow(rules: Rules, i: Id) {
    i in rules ==> Stored(rules[i]) && (rules[i].kind.Percent? ==> rules[i].value <= 100 * VALUE_SCALE)
  }

  /** Every bracket is nonempty and no two of a courier and delivery type share an amount. */
  ghost predicate Good(rules: Rules) {
    Disjoint(rules) && forall i {:trigger ValidRow(rules, i)} :: ValidRow(rules, i)
  }

  /** The overlap check answers exactly whether two nonempty brackets share an amount. */
  lemma OverlapIsShared(a: Rule, b: Rule)
    requires Stored(a) && Stored(b)
    ensures RangesOverlap(a, b) <==> exists amount :: a.Contains(amount) && b.Contains(amount)
  {
    if RangesOverlap(a, b) {
      var amount := Max(a.from, b.from);
      assert a.Contains(amount) && b.Contains(amount);
    }
  }

  /** Adding a stored rule keeps the brackets disjoint exactly when the check finds no clash. */
  lemma AddKeepsDisjoint(rules: Rules, i: Id, r: Rule)
    requires Good(rules) && i !in rules && Stored(r)
    ensures Disjoint(rules[i := r]) <==> !Clashes(rules, r)
  {
    var after := rules[i := r];
    if Clashes(rules, r) {
      var j :| j in rules && rules[j].For(r.courier, r.delivery) && RangesOverlap(r, rules[j]);
      assert ValidRow(rules, j);
      OverlapIsShared(r, rules[j]);
      var amount :| r.Contains(amount) && rules[j].Contains(amount);
      assert Matches(after, i, r.courier, r.delivery, amount) && Matches(after, j, r.courier, r.delivery, amount);
    } else {
      forall x, y, c, d, amount | Matches(after, x, c, d, amount) && Matches(after, y, c, d, amount)
        ensures x == y
      {
        if x != i && y != i {
          assert Matches(rules, x, c, d, amount) && Matches(rules, y, c, d, amount);
        } else if x != y {
          var j := if x == i then y else x;
          assert rules[j].For(r.courier, r.delivery) && r.Contains(amount) && rules[j].Contains(amount);
          assert RangesOverlap(r, rules[j]);
        }
      }
    }
  }

  lemma CreateKeepsGood(rules: Rules, i: Id, r: Rule, after: Rules)
    requires Good(rules) && Create(rules, i, r) == Ok(after)
    ensures Good(after)
  {
    AddKeepsDisjoint(rules, i, r);
    forall j
      ensures ValidRow(after, j)
    {
      assert ValidRow(rules, j);
    }
  }

  lemma DeleteKeepsGood(rules: Rules, i: Id, c: Id)
    requires Good(rules)
    ensures Good(Delete(rules, i, c))
  {
    var after := Delete(rules, i, c);
    forall x, y, courier, d, amount | Matches(after, x, courier, d, amount) && Matches(after, y, courier, d, amount)
      ensures x == y
    {
      assert Matches(rules, x, courier, d, amount) && Matches(rules, y, courier, d, amount);
    }
    forall j
      ensures ValidRow(after, j)
    {
      assert ValidRow(rules, j);
    }
  }

  /** Nothing locks the rules while one is checked and inserted: two creations that both passed the
      check against the same rules stay disjoint exactly when they do not overlap each other. */
  lemma ConcurrentCreations(rules: Rules, i: Id, a: Rule, j: Id, b: Rule)
    requires Good(rules) && i != j && j !in rules
    requires Create(rules, i, a).Ok? && Create(rules, j, b).Ok?
    ensures Disjoint(rules[i := a][j := b]) <==> !(b.For(a.courier, a.delivery) && RangesOverlap(b, a))
  {
    var mid := rules[i := a];
    CreateKeepsGood(rules, i, a, mid);
    AddKeepsDisjoint(mid, j, b);
    assert mid[i] == a;
    assert forall k :: k in rules ==> k in mid && mid[k] == rules[k];
  }

  datatype Op = OpCreate(i: Id, r: Rule) | OpDelete(i: Id, c: Id)

  function Step(rules: Rules, op: Op): Rules {
    match op
    case OpCreate(i, r) => (match Create(rules, i, r) case Ok(after) => after case Err(_) => rules)
    case OpDelete(i, c) => Delete(rules, i, c)
  }

  function Run(ops: seq<Op>): Rules {
    if ops == [] then map[] else Step(Run(ops[..|ops| - 1]), ops[|ops| - 1])
  }

  lemma {:induction false} RunKeepsGood(ops: seq<Op>)
    ensures Good(Run(ops))
    decreases |ops|
  {
    if ops != [] {
      var before, op := Run(ops[..|ops| - 1]), ops[|ops| - 1];
      RunKeepsGood(ops[..|ops| - 1]);
      match op
      case OpCreate(i, r) =>
        if Create(before, i, r).Ok? {
          CreateKeepsGood(before, i, r, Create(before, i, r).value);
        }
      case OpDelete(i, c) => DeleteKeepsGood(before, i, c);
    }
  }

  // ── Resolution ────────────────────────────────────────────────────────────────────────

  /** Some listing of a courier's rules of one delivery type, in any order. */
  ghost predicate Lists(rules: Rules, c: Id, d: Delivery, listing: seq<Id>) {
    forall i :: i in listing <==> i in rules && rules[i].For(c, d)
  }

  /** The first match in a listing. */
  function Scan(rules: Rules, listing: seq<Id>, amount: int): int {
    if listing == [] then 0
    else
      var payout := if listing[0] in rules then Resolve(rules[listing[0]], amount) else None;
      if payout.Some? then payout.value else Scan(rules, listing[1..], amount)
  }

  /** Without a match in a listing the scan gives nothing, and a match alone in it gives its payout. */
  lemma {:induction false} ScanFinds(rules: Rules, listing: seq<Id>, amount: int, i: Id)
    requires forall j :: j in listing ==> j in rules
    requires forall j :: j in listing && rules[j].Contains(amount) ==> j == i
    ensures Scan(rules, listing, amount)
         == if i in listing && rules[i].Contains(amount) then Resolve(rules[i], amount).value else 0
  {
    if listing != [] {
      ScanFinds(rules, listing[1..], amount, i);
    }
  }

  /** The first match is the only match, so the payout does not depend on the order of the scan. */
  lemma OnlyMatch(rules: Rules, c: Id, d: Delivery, amount: int, one: seq<Id>, other: seq<Id>)
    requires Good(rules) && Lists(rules, c, d, one) && Lists(rules, c, d, other)
    ensures Scan(rules, one, amount) == Scan(rules, other, amount)
    ensures forall i :: Matches(rules, i, c, d, amount) ==> Scan(rules, one, amount) == Resolve(rules[i], amount).value
    ensures (forall i :: !Matches(rules, i, c, d, amount)) ==> Scan(rules, one, amount) == 0
  {
    if i :| Matches(rules, i, c, d, amount) {
      forall j | j in rules && rules[j].For(c, d) && rules[j].Contains(amount)
        ensures j == i
      {
        assert Matches(rules, j, c, d, amount);
      }
      ScanFinds(rules, one, amount, i);
      ScanFinds(rules, other, amount, i);
    } else {
      forall j | j in rules && rules[j].For(c, d)
        ensures !rules[j].Contains(amount)
      {
        assert !Matches(rules, j, c, d, amount);
      }
      ScanFinds(rules, one, amount, 0);
      ScanFinds(rules, other, amount, 0);
    }
  }

  /** A percent tariff never pays more than the order is worth. */
  lemma PercentWithinOrder(rules: Rules, i: Id, c: Id, d: Delivery, amount: int)
    requires Good(rules) && Matches(rules, i, c, d, amount) && rules[i].kind.Percent?
    ensures 0 <= Resolve(rules[i], amount).value <= amount * PAYOUT_SCALE
  {
    assert ValidRow(rules, i);
    assert amount >= rules[i].from >= 0;
    Scaled(amount, rules[i].value, PAYOUT_SCALE);
  }

  lemma Scaled(amount: int, value: int, bound: int)
    requires amount >= 0 && 0 <= value <= bound
    ensures 0 <= amount * value <= amount * bound
  {
  }

  /** The caller reads a zero as "no rule": that is wrong exactly for a percent bracket that covers an
      order of zero. */
  lemma ZeroMeansNoRule(rules: Rules, c: Id, d: Delivery, amount: int, listing: seq<Id>)
    requires Good(rules) && Lists(rules, c, d, listing)
    ensures Scan(rules, listing, amount) == 0
       <==> forall i :: Matches(rules, i, c, d, amount) ==> rules[i].kind.Percent? && amount == 0
  {
    OnlyMatch(rules, c, d, amount, listing, listing);
    forall i | Matches(rules, i, c, d, amount)
      ensures Resolve(rules[i], amount).value == 0 <==> rules[i].kind.Percent? && amount == 0
    {
      assert ValidRow(rules, i);
      assert amount >= rules[i].from >= 0;
      if amount > 0 {
        Positive(amount, rules[i].value);
      }
    }
    if i :| Matches(rules, i, c, d, amount) {
      assert forall j :: Matches(rules, j, c, d, amount) ==> j == i;
    }
  }

  lemma Positive(a: int, b: int)
    requires a > 0 && b > 0
    ensures a * b > 0
  {
  }

  // ── The service ───────────────────────────────────────────────────────────────────────

  class Service {
    var rules: Rules

    ghost predicate Valid()
      reads this
    {
      Good(rules)
    }

    constructor ()
      ensures Valid() && rules == map[]
    {
      rules := map[];
    }

    /** Checks the new bracket against every existing one of its courier and delivery type. */
    method CreateRule(i: Id, r: Rule, existing: seq<Id>) returns (error: Option<Error>)
      requires Valid() && Lists(rules, r.courier, r.delivery, existing)
      modifies this
      ensures Valid()
      ensures match Create(old(rules), i, r)
              case Ok(after) => error == None && rules == after
              case Err(e) => error == Some(e) && rules == old(rules)
    {
      if r.to.Some? && r.to.value <= r.from {
        return Some(BadRange);
      }
      if r.kind.Percent? && r.value > 100 * VALUE_SCALE {
        return Some(BadPercent);
      }
      for k := 0 to |existing|
        invariant forall j :: 0 <= j < k ==> !RangesOverlap(r, rules[existing[j]])
      {
        if RangesOverlap(r, rules[existing[k]]) {
          return Some(Overlap);
        }
      }
      assert !Clashes(rules, r);
      if i in rules || !Stored(r) {
        return Some(Constraint);
      }
      CreateKeepsGood(rules, i, r, rules[i := r]);
      rules := rules[i := r];
      error := None;
    }

    method DeleteRule(i: Id, c: Id)
      requires Valid()
      modifies this
      ensures Valid() && rules == Delete(old(rules), i, c)
    {
      DeleteKeepsGood(rules, i, c);
      ghost var after := Delete(rules, i, c);
      if i in rules && rules[i].courier == c {
        rules := rules - {i};
      }
      assert rules == after;
    }

    /** The first match in the listing the query returned, zero without one. */
    method ResolveForOrder(amount: int, listing: seq<Id>) returns (payout: int)
      requires forall i :: i in listing ==> i in rules
      ensures payout == Scan(rules, listing, amount)
    {
      for k := 0 to |listing|
        invariant Scan(rules, listing, amount) == Scan(rules, listing[k..], amount)
      {
        var found := Resolve(rules[listing[k]], amount);
        if found.Some? {
          return found.value;
        }
      }
      payout := 0;
    }
  }
}
