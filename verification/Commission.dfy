/** The commission split of one order (compensation/service.go, ApplyCommissionRules and round2).
    Money is integer cents and rates are integers over 100000, the scale of numeric(6,5), so the
    real-valued arithmetic of the program is exact here. */
module Commission {
  import opened Basics

  datatype OrderType = SellerOrder | ManagerPersonalOrder | TeamLeadPersonalOrder | HouseOrder

  datatype Rates = Rates(seller: int, managerTeam: int, managerPersonal: int, pool: int)

  datatype Breakdown = Breakdown(seller: int, managerTeam: int, managerPersonal: int, pool: int, company: int)

  datatype Error = RatesExceedPool

  /** int64(x): conversion drops the fraction, toward zero. */
  function Truncate(num: int, den: int): int
    requires den > 0
  {
    if num >= 0 then num / den else -((-num) / den)
  }

  /** round2 of num/den cents: int64(x + 0.5). Half a cent goes up, and a negative amount moves
      toward zero. */
  function Round2(num: int, den: int): int
    requires den > 0
  {
    Truncate(2 * num + den, 2 * den)
  }

  /** round2(netRevenue * rate). */
  function Share(n: int, rate: int): int { Round2(n * rate, RATE_SCALE) }

  /** round2 of a difference of amounts that are whole cents already. */
  function Cents(x: int): int { Round2(x, 1) }

  predicate ValidRate(r: int) { 0 <= r <= RATE_SCALE }

  predicate ValidRates(r: Rates) {
    ValidRate(r.seller) && ValidRate(r.managerTeam) && ValidRate(r.managerPersonal) && ValidRate(r.pool)
  }

  function EffectiveManagerRate(r: Rates, hasManager: bool): int { if hasManager then r.managerTeam else 0 }

  function ApplyCommissionRules(t: OrderType, n: int, r: Rates, hasManager: bool): Result<Breakdown, Error> {
    var gross := Share(n, r.pool);
    var managerRate := EffectiveManagerRate(r, hasManager);
    match t
    case SellerOrder =>
      if r.seller + managerRate > r.pool then Err(RatesExceedPool)
      else
        var seller, manager := Share(n, r.seller), Share(n, managerRate);
        Ok(Breakdown(seller, manager, 0, Cents(gross - seller - manager), Cents(n - gross)))
    case ManagerPersonalOrder =>
      if r.managerPersonal > r.pool then Err(RatesExceedPool)
      else
        var manager := Share(n, r.managerPersonal);
        Ok(Breakdown(0, 0, manager, Cents(gross - manager), Cents(n - gross)))
    case TeamLeadPersonalOrder =>
      if managerRate > r.pool then Err(RatesExceedPool)
      else
        var manager := Share(n, managerRate);
        Ok(Breakdown(0, manager, 0, Cents(gross - manager), Cents(n - gross)))
    case HouseOrder => Ok(Breakdown(0, 0, 0, 0, Cents(n)))
  }

  /** Everything the split hands out. */
  function Paid(b: Breakdown): int { b.seller + b.managerTeam + b.managerPersonal + b.pool + b.company }

  // ── Rounding ──────────────────────────────────────────────────────────────────────────

  /** Whole cents stay whole, except that a negative amount gains a cent. */
  lemma CentsOfWhole(x: int)
    ensures Cents(x) == if x >= 0 then x else x + 1
  {
    if x < 0 {
      assert -(2 * x + 1) / 2 == -x - 1;
    }
  }

  /** round2 of an amount that is not negative: the whole part, and one more when half a cent or
      more is left over. */
  lemma RoundedParts(a: int)
    requires a >= 0
    ensures Round2(a, RATE_SCALE) == a / RATE_SCALE + (if 2 * (a % RATE_SCALE) >= RATE_SCALE then 1 else 0)
  {
    var q, f := a / RATE_SCALE, a % RATE_SCALE;
    assert a == RATE_SCALE * q + f;
    assert 2 * a + RATE_SCALE == 2 * RATE_SCALE * q + (2 * f + RATE_SCALE);
    var r := q + (if 2 * f >= RATE_SCALE then 1 else 0);
    assert 2 * RATE_SCALE * r <= 2 * a + RATE_SCALE < 2 * RATE_SCALE * (r + 1);
  }

  lemma PartsMonotone(a: int, b: int)
    requires 0 <= a <= b
    ensures 0 <= Round2(a, RATE_SCALE) <= Round2(b, RATE_SCALE)
  {
    RoundedParts(a);
    RoundedParts(b);
  }

  lemma RatesOrdered(n: int, a: int, b: int)
    requires n >= 0 && a <= b
    ensures n * a <= n * b
  {
  }

  /** A rate within another takes no larger a share, and no share exceeds the revenue. */
  lemma ShareBounds(n: int, a: int, b: int)
    requires n >= 0 && 0 <= a <= b <= RATE_SCALE
    ensures 0 <= Share(n, a) <= Share(n, b) <= n
  {
    RatesOrdered(n, 0, a);
    RatesOrdered(n, a, b);
    RatesOrdered(n, b, RATE_SCALE);
    PartsMonotone(n * a, n * b);
    PartsMonotone(n * b, n * RATE_SCALE);
    RoundedParts(n * RATE_SCALE);
  }

  /** A share of a loss is always rounded above the loss. */
  lemma ShareOfLoss(n: int, rate: int)
    requires n < 0 && ValidRate(rate)
    ensures Share(n, rate) > n
  {
    assert n * rate >= n * RATE_SCALE by { RatesOrdered(-n, rate, RATE_SCALE); }
    var x := 2 * (n * rate) + RATE_SCALE;
    assert x > 2 * RATE_SCALE * n;
    if x < 0 {
      assert Share(n, rate) == -((-x) / (2 * RATE_SCALE));
      assert (-x) / (2 * RATE_SCALE) <= -n - 1;
    }
  }

  // ── Conservation ──────────────────────────────────────────────────────────────────────

  /** The seller's and the manager's cut both round up while the pool they come from does not
      round up with them: each leaves half a cent or more, and pool and gap leave less than one
      and a half. */
  predicate Overdrawn(n: int, seller: int, manager: int, pool: int) {
    var s, m := n * seller % RATE_SCALE, n * manager % RATE_SCALE;
    && 2 * s >= RATE_SCALE && 2 * m >= RATE_SCALE
    && 2 * (s + m + n * (pool - seller - manager)) < 3 * RATE_SCALE
  }

  lemma ResidualParts(a: int, b: int, gap: int)
    requires a >= 0 && b >= 0 && gap >= 0
    ensures var x := Round2(a + b + gap, RATE_SCALE) - Round2(a, RATE_SCALE) - Round2(b, RATE_SCALE);
            && x >= -1
            && (x == -1 <==> 2 * (a % RATE_SCALE) >= RATE_SCALE && 2 * (b % RATE_SCALE) >= RATE_SCALE
                             && 2 * (a % RATE_SCALE + b % RATE_SCALE + gap) < 3 * RATE_SCALE)
  {
    RoundedParts(a);
    RoundedParts(b);
    RoundedParts(a + b + gap);
    var g := a % RATE_SCALE + b % RATE_SCALE + gap;
    RoundedParts(g);
    assert a + b + gap == RATE_SCALE * (a / RATE_SCALE + b / RATE_SCALE) + g;
    assert (a + b + gap) / RATE_SCALE == a / RATE_SCALE + b / RATE_SCALE + g / RATE_SCALE;
    assert (a + b + gap) % RATE_SCALE == g % RATE_SCALE;
  }

  /** What is left of the pool after seller and manager is never below minus one cent, and is that
      exactly when the pool is overdrawn. */
  lemma Residual(n: int, seller: int, manager: int, pool: int)
    requires n >= 0 && seller >= 0 && manager >= 0 && seller + manager <= pool <= RATE_SCALE
    ensures var x := Share(n, pool) - Share(n, seller) - Share(n, manager);
            x >= -1 && (x == -1 <==> Overdrawn(n, seller, manager, pool))
  {
    RatesOrdered(n, 0, seller);
    RatesOrdered(n, 0, manager);
    RatesOrdered(n, 0, pool - seller - manager);
    assert n * pool == n * seller + n * manager + n * (pool - seller - manager);
    ResidualParts(n * seller, n * manager, n * (pool - seller - manager));
  }

  /** For revenue that is not negative no share is negative, and the split hands out the revenue
      or one cent more. */
  lemma SharesOfRevenue(t: OrderType, n: int, r: Rates, hasManager: bool, b: Breakdown)
    requires n >= 0 && ValidRates(r) && ApplyCommissionRules(t, n, r, hasManager) == Ok(b)
    ensures b.seller >= 0 && b.managerTeam >= 0 && b.managerPersonal >= 0 && b.pool >= 0 && b.company >= 0
    ensures Paid(b) == n
         + if t.SellerOrder? && Overdrawn(n, r.seller, EffectiveManagerRate(r, hasManager), r.pool) then 1 else 0
  {
    hide Share;
    hide Cents;
    hide Overdrawn;
    var manager := EffectiveManagerRate(r, hasManager);
    ShareBounds(n, r.pool, RATE_SCALE);
    CentsOfWhole(n - Share(n, r.pool));
    CentsOfWhole(n);
    match t
    case SellerOrder =>
      ShareBounds(n, r.seller, r.pool);
      ShareBounds(n, manager, r.pool);
      Residual(n, r.seller, manager, r.pool);
      CentsOfWhole(Share(n, r.pool) - Share(n, r.seller) - Share(n, manager));
    case ManagerPersonalOrder =>
      ShareBounds(n, r.managerPersonal, r.pool);
      CentsOfWhole(Share(n, r.pool) - Share(n, r.managerPersonal));
    case TeamLeadPersonalOrder =>
      ShareBounds(n, manager, r.pool);
      CentsOfWhole(Share(n, r.pool) - Share(n, manager));
    case HouseOrder =>
  }

  /** `x` is the cent nearest to `rate` of `n`; half a cent goes up. */
  predicate Nearest(x: int, n: int, rate: int) {
    2 * n * rate - RATE_SCALE < 2 * RATE_SCALE * x <= 2 * n * rate + RATE_SCALE
  }

  lemma ShareIsNearest(n: int, rate: int)
    requires n >= 0 && ValidRate(rate)
    ensures Nearest(Share(n, rate), n, rate)
  {
    RatesOrdered(n, 0, rate);
    var a := n * rate;
    RoundedParts(a);
    assert a == RATE_SCALE * (a / RATE_SCALE) + a % RATE_SCALE;
    assert 2 * n * rate == 2 * a;
  }

  /** The split is refused exactly when the commissions an order type pays exceed its pool's rate. */
  lemma AcceptedExactly(t: OrderType, n: int, r: Rates, hasManager: bool)
    ensures ApplyCommissionRules(t, n, r, hasManager).Ok? <==>
            && (t == SellerOrder && hasManager ==> r.seller + r.managerTeam <= r.pool)
            && (t == SellerOrder && !hasManager ==> r.seller <= r.pool)
            && (t == ManagerPersonalOrder ==> r.managerPersonal <= r.pool)
            && (t == TeamLeadPersonalOrder && hasManager ==> r.managerTeam <= r.pool)
            && (t == TeamLeadPersonalOrder && !hasManager ==> 0 <= r.pool)
  {
  }

  /** Who gets what of revenue that is not negative. Seller and manager get their own rate's share to
      the nearest cent, on the order types that pay them; the company keeps all but the pool's share
      to the nearest cent; the pool gets what is left of that share, or nothing when the commissions
      were rounded above it. A house order is the company's alone. */
  lemma WhoGetsWhat(t: OrderType, n: int, r: Rates, hasManager: bool, b: Breakdown)
    requires n >= 0 && ValidRates(r) && ApplyCommissionRules(t, n, r, hasManager) == Ok(b)
    ensures t == SellerOrder ==> Nearest(b.seller, n, r.seller)
    ensures t != SellerOrder ==> b.seller == 0
    ensures t in {SellerOrder, TeamLeadPersonalOrder} && hasManager ==> Nearest(b.managerTeam, n, r.managerTeam)
    ensures t !in {SellerOrder, TeamLeadPersonalOrder} || !hasManager ==> b.managerTeam == 0
    ensures t == ManagerPersonalOrder ==> Nearest(b.managerPersonal, n, r.managerPersonal)
    ensures t != ManagerPersonalOrder ==> b.managerPersonal == 0
    ensures t != HouseOrder ==> Nearest(n - b.company, n, r.pool)
    ensures t != HouseOrder ==> b.pool == Max(0, n - b.company - b.seller - b.managerTeam - b.managerPersonal)
    ensures t == HouseOrder ==> b == Breakdown(0, 0, 0, 0, n)
  {
    hide Nearest;
    hide Share;
    hide Cents;
    hide Round2;
    var manager := EffectiveManagerRate(r, hasManager);
    ShareIsNearest(n, r.pool);
    ShareIsNearest(n, r.seller);
    ShareIsNearest(n, r.managerTeam);
    ShareIsNearest(n, r.managerPersonal);
    ShareBounds(n, r.pool, RATE_SCALE);
    ShareOfNothing(n);
    CentsOfWhole(n);
    CentsOfWhole(n - Share(n, r.pool));
    PoolIsRest(t, n, r, manager);
    hide ValidRate;
    assert t != HouseOrder ==> b.company == n - Share(n, r.pool);
  }

  lemma ShareOfNothing(n: int)
    ensures Share(n, 0) == 0
  {
    assert n * 0 == 0;
  }

  /** What is left of the pool's share, never negative. */
  lemma PoolIsRest(t: OrderType, n: int, r: Rates, manager: int)
    requires n >= 0 && ValidRates(r) && ValidRate(manager)
    ensures t == SellerOrder && r.seller + manager <= r.pool ==>
              Cents(Share(n, r.pool) - Share(n, r.seller) - Share(n, manager))
              == Max(0, Share(n, r.pool) - Share(n, r.seller) - Share(n, manager))
    ensures t == ManagerPersonalOrder && r.managerPersonal <= r.pool ==>
              Cents(Share(n, r.pool) - Share(n, r.managerPersonal)) == Share(n, r.pool) - Share(n, r.managerPersonal)
              && Share(n, r.managerPersonal) <= Share(n, r.pool)
    ensures t == TeamLeadPersonalOrder && manager <= r.pool ==>
              Cents(Share(n, r.pool) - Share(n, manager)) == Share(n, r.pool) - Share(n, manager)
              && Share(n, manager) <= Share(n, r.pool)
  {
    hide Share;
    hide Cents;
    hide Overdrawn;
    match t
    case SellerOrder =>
      if r.seller + manager <= r.pool {
        Residual(n, r.seller, manager, r.pool);
      }
      CentsOfWhole(Share(n, r.pool) - Share(n, r.seller) - Share(n, manager));
    case ManagerPersonalOrder =>
      if r.managerPersonal <= r.pool {
        ShareBounds(n, r.managerPersonal, r.pool);
      }
      CentsOfWhole(Share(n, r.pool) - Share(n, r.managerPersonal));
    case TeamLeadPersonalOrder =>
      if manager <= r.pool {
        ShareBounds(n, manager, r.pool);
      }
      CentsOfWhole(Share(n, r.pool) - Share(n, manager));
    case HouseOrder =>
  }

  /** A loss is never split exactly: something always rounds toward zero. */
  lemma SharesOfLoss(t: OrderType, n: int, r: Rates, hasManager: bool, b: Breakdown)
    requires n < 0 && ValidRates(r) && ApplyCommissionRules(t, n, r, hasManager) == Ok(b)
    ensures Paid(b) > n
  {
    hide Share;
    hide Cents;
    var manager := EffectiveManagerRate(r, hasManager);
    ShareOfLoss(n, r.pool);
    CentsOfWhole(n - Share(n, r.pool));
    CentsOfWhole(n);
    CentsOfWhole(Share(n, r.pool) - Share(n, r.seller) - Share(n, manager));
    CentsOfWhole(Share(n, r.pool) - Share(n, r.managerPersonal));
    CentsOfWhole(Share(n, r.pool) - Share(n, manager));
  }

  /** The documented conservation law, with the exact condition under which it holds: the shares
      add up to the net revenue if and only if the revenue is not negative and, for a seller order,
      the pool is not overdrawn by rounding. */
  lemma ConservedExactly(t: OrderType, n: int, r: Rates, hasManager: bool, b: Breakdown)
    requires ValidRates(r) && ApplyCommissionRules(t, n, r, hasManager) == Ok(b)
    ensures Paid(b) == n
       <==> n >= 0 && !(t.SellerOrder? && Overdrawn(n, r.seller, EffectiveManagerRate(r, hasManager), r.pool))
  {
    hide ApplyCommissionRules;
    hide Overdrawn;
    if n >= 0 {
      SharesOfRevenue(t, n, r, hasManager, b);
    } else {
      SharesOfLoss(t, n, r, hasManager, b);
    }
  }

  /** One cent of revenue at 50% + 50% of a 100% pool: both cuts round up to a cent, the pool owes
      one, and two cents are handed out. */
  lemma OneCentTooMany()
    ensures var r := Rates(50000, 50000, 0, 100000);
            ApplyCommissionRules(SellerOrder, 1, r, true) == Ok(Breakdown(1, 1, 0, 0, 0))
  {
  }

  /** Without a manager on the order nothing is paid to one, and the pool is never overdrawn. */
  lemma NoManagerNoCut(t: OrderType, n: int, r: Rates, b: Breakdown)
    requires ValidRates(r) && ApplyCommissionRules(t, n, r, false) == Ok(b) && n >= 0
    ensures b.managerTeam == 0 && Paid(b) == n
  {
    SharesOfRevenue(t, n, r, false, b);
    ShareBounds(n, 0, 0);
    RoundedParts(0);
    assert n * 0 % RATE_SCALE == 0;
  }
}
