/** The staking reward: a fixed yearly rate applied pro rata to the staked
    amount and the seconds it stayed staked, in integer arithmetic rounded
    down. The contract's own rate constants are not visible; the rate here is
    a named constant, and what is proved about it is what the staking tests
    rely on (a positive reward after 30 days) plus the shape of the formula. */
module Reward {
  import opened Evm

  const SECONDS_PER_DAY: nat := 24 * 60 * 60
  const YEAR: nat := 365 * SECONDS_PER_DAY
  /** The time the unstaking test advances the chain clock by: 2,592,000 s. */
  const THIRTY_DAYS: nat := 30 * SECONDS_PER_DAY

  /** Yearly rate RATE_NUM / RATE_DEN, here 10%. */
  const RATE_NUM: nat := 10
  const RATE_DEN: nat := 100

  /** The smallest stake that earns a non-zero reward over 30 days. */
  const MIN_REWARDED_STAKE: nat := 122

  /** amount * RATE_NUM * elapsed, the intermediate product the formula forms. */
  function Product(amount: nat, elapsed: nat): (p: nat)
  {
    amount * RATE_NUM * elapsed
  }

  /** Checked uint256 evaluation of amount * RATE_NUM * elapsed, left to right:
      the partial product amount * RATE_NUM and the full product must both fit. */
  predicate ProductFits(amount: nat, elapsed: nat)
  {
    amount * RATE_NUM <= MAX_UINT256 && Product(amount, elapsed) <= MAX_UINT256
  }

  /** The reward for `amount` units staked for `elapsed` seconds. */
  function Compute(amount: nat, elapsed: nat): (r: nat)
    ensures r * (RATE_DEN * YEAR) <= Product(amount, elapsed) < (r + 1) * (RATE_DEN * YEAR)
    ensures elapsed == 0 || amount == 0 ==> r == 0
    ensures r > 0 <==> Product(amount, elapsed) >= RATE_DEN * YEAR
  {
    Product(amount, elapsed) / (RATE_DEN * YEAR)
  }

  lemma MulMonotone(a: nat, x: nat, y: nat)
    requires x <= y
    ensures a * x <= a * y
  {
  }

  /** Staying staked longer never earns less. */
  lemma MonotoneInElapsed(amount: nat, e1: nat, e2: nat)
    requires e1 <= e2
    ensures Compute(amount, e1) <= Compute(amount, e2)
  {
    MulMonotone(amount * RATE_NUM, e1, e2);
    var r1, r2 := Compute(amount, e1), Compute(amount, e2);
    assert r1 * (RATE_DEN * YEAR) < (r2 + 1) * (RATE_DEN * YEAR);
  }

  /** Staking more never earns less over the same time. */
  lemma MonotoneInAmount(a1: nat, a2: nat, elapsed: nat)
    requires a1 <= a2
    ensures Compute(a1, elapsed) <= Compute(a2, elapsed)
  {
    MulMonotone(RATE_NUM * elapsed, a1, a2);
    assert Product(a1, elapsed) == (RATE_NUM * elapsed) * a1;
    assert Product(a2, elapsed) == (RATE_NUM * elapsed) * a2;
    var r1, r2 := Compute(a1, elapsed), Compute(a2, elapsed);
    assert r1 * (RATE_DEN * YEAR) < (r2 + 1) * (RATE_DEN * YEAR);
  }

  /** Proportional in the amount up to rounding: splitting a stake in two
      loses at most one unit of reward. */
  lemma AdditiveInAmount(a1: nat, a2: nat, elapsed: nat)
    ensures Compute(a1, elapsed) + Compute(a2, elapsed) <= Compute(a1 + a2, elapsed)
    ensures Compute(a1 + a2, elapsed) <= Compute(a1, elapsed) + Compute(a2, elapsed) + 1
  {
    assert Product(a1 + a2, elapsed) == Product(a1, elapsed) + Product(a2, elapsed) by {
      assert (a1 + a2) * RATE_NUM * elapsed == a1 * RATE_NUM * elapsed + a2 * RATE_NUM * elapsed;
    }
    var r1, r2, r := Compute(a1, elapsed), Compute(a2, elapsed), Compute(a1 + a2, elapsed);
    assert (r1 + r2) * (RATE_DEN * YEAR) < (r + 1) * (RATE_DEN * YEAR);
    assert r * (RATE_DEN * YEAR) < (r1 + r2 + 2) * (RATE_DEN * YEAR);
  }

  /** Over 30 days or more, exactly the stakes of at least MIN_REWARDED_STAKE
      units earn something. */
  lemma PositiveAfterThirtyDays(amount: nat, elapsed: nat)
    requires elapsed >= THIRTY_DAYS
    ensures amount >= MIN_REWARDED_STAKE ==> Compute(amount, elapsed) > 0
    ensures Compute(amount, THIRTY_DAYS) > 0 <==> amount >= MIN_REWARDED_STAKE
  {
    MonotoneInElapsed(amount, THIRTY_DAYS, elapsed);
    assert Product(amount, THIRTY_DAYS) == amount * 25_920_000;
  }
}
