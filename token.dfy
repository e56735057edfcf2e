/** PortfolioToken: a fungible-token ledger whose holders can lock units as a
    stake and later take them back together with a newly minted reward.

    The state and each call are first given as values (the datatype Ledger
    and its transition functions, which say what a call does to the whole
    state), and then as the contract object (class PortfolioToken), whose
    methods update their fields in place and are proved to agree with the
    transition functions. The block timestamp is the explicit argument `now`. */
module Token {
  import opened Evm
  import Reward

  /** Why a call reverts. */
  datatype Error =
    | InsufficientBalance   // transfer or stake of more than the spendable balance
    | ZeroAmount            // "Cannot stake 0 tokens"
    | AlreadyStaking        // stake while a stake is already open
    | NoStakeFound          // "No tokens staked"
    | InvalidTimestamp      // unstake at a time before the stake was opened
    | ArithmeticOverflow    // a uint256 result would exceed 2^256 - 1

  /** The result of a call on a Ledger value: the state after it, or the reason
      it reverted (in which case the state is the one before it). */
  datatype Outcome = Ok(next: Ledger) | Revert(error: Error)
  {
    function Status(): Status<Error>
    {
      if Ok? then Success else Reverted(error)
    }
  }

  /** The contract's storage. Units that are staked have left `balances` and are
      held in `stakedBalances`; they still count towards `totalSupply`. An
      account has an open stake exactly when it is a key of `stakedBalances`. */
  datatype Ledger = Ledger(
    owner: Address,
    totalSupply: nat,
    balances: map<Address, nat>,
    stakedBalances: map<Address, nat>,
    stakingTimestamp: map<Address, nat>)
  {
    function BalanceOf(a: Address): nat { Get(balances, a) }
    function StakedBalanceOf(a: Address): nat { Get(stakedBalances, a) }
    function StakingTimestampOf(a: Address): nat { Get(stakingTimestamp, a) }
    predicate IsStaking(a: Address) { a in stakedBalances }

    /** Every open stake has a start time and a positive amount, and the
        supply fits a uint256. */
    predicate WellFormed()
    {
      && stakingTimestamp.Keys == stakedBalances.Keys
      && (forall a :: a in stakedBalances ==> stakedBalances[a] > 0)
      && totalSupply <= MAX_UINT256
    }

    /** Conservation: spendable plus staked units make up the whole supply. */
    ghost predicate Conserved()
    {
      Sum(balances) + Sum(stakedBalances) == totalSupply
    }

    ghost predicate Valid()
    {
      WellFormed() && Conserved()
    }

    /** transfer(to, amount) called by `caller`. A transfer to oneself with a
        sufficient balance leaves the balances as they were. */
    function Transfer(caller: Address, to: Address, amount: nat): (o: Outcome)
      ensures o.Ok? <==> amount <= BalanceOf(caller)
      ensures o.Revert? ==> o.error == InsufficientBalance
      ensures o.Ok? ==>
        && o.next.owner == owner
        && o.next.totalSupply == totalSupply
        && o.next.stakedBalances == stakedBalances
        && o.next.stakingTimestamp == stakingTimestamp
        && (forall a :: o.next.BalanceOf(a) ==
              BalanceOf(a) - (if a == caller then amount else 0) + (if a == to then amount else 0))
    {
      if amount > BalanceOf(caller) then Revert(InsufficientBalance)
      else
        var debited := balances[caller := BalanceOf(caller) - amount];
        Ok(this.(balances := debited[to := Get(debited, to) + amount]))
    }

    /** stake(amount) called by `caller` in a block with timestamp `now`.
        The checks run in this order: zero amount, open stake, balance. */
    function Stake(caller: Address, amount: nat, now: nat): (o: Outcome)
      ensures o.Ok? <==> amount > 0 && !IsStaking(caller) && amount <= BalanceOf(caller)
      ensures amount == 0 ==> o == Revert(ZeroAmount)
      ensures amount > 0 && IsStaking(caller) ==> o == Revert(AlreadyStaking)
      ensures amount > 0 && !IsStaking(caller) && amount > BalanceOf(caller) ==> o == Revert(InsufficientBalance)
      ensures o.Ok? ==>
        && o.next.owner == owner
        && o.next.totalSupply == totalSupply
        && o.next.IsStaking(caller)
        && o.next.StakedBalanceOf(caller) == amount
        && o.next.StakingTimestampOf(caller) == now
        && o.next.BalanceOf(caller) == BalanceOf(caller) - amount
        && (forall a :: a != caller ==> o.next.BalanceOf(a) == BalanceOf(a))
        && (forall a :: a != caller ==> o.next.IsStaking(a) == IsStaking(a))
        && (forall a :: a != caller ==> o.next.StakedBalanceOf(a) == StakedBalanceOf(a))
        && (forall a :: a != caller ==> o.next.StakingTimestampOf(a) == StakingTimestampOf(a))
    {
      if amount == 0 then Revert(ZeroAmount)
      else if IsStaking(caller) then Revert(AlreadyStaking)
      else if amount > BalanceOf(caller) then Revert(InsufficientBalance)
      else
        Ok(this.(
          balances := balances[caller := BalanceOf(caller) - amount],
          stakedBalances := stakedBalances[caller := amount],
          stakingTimestamp := stakingTimestamp[caller := now]))
    }

    /** The reward `caller` would be minted on unstaking at `now`. */
    function PendingReward(caller: Address, now: nat): (reward: nat)
      requires now >= StakingTimestampOf(caller)
    {
      Reward.Compute(StakedBalanceOf(caller), now - StakingTimestampOf(caller))
    }

    /** unstake() called by `caller` in a block with timestamp `now`: the staked
        units come back to the spendable balance, the reward is minted on top,
        and the stake record is cleared. */
    function Unstake(caller: Address, now: nat): (o: Outcome)
      ensures !IsStaking(caller) ==> o == Revert(NoStakeFound)
      ensures IsStaking(caller) && now < StakingTimestampOf(caller) ==> o == Revert(InvalidTimestamp)
      ensures o.Ok? <==>
        && IsStaking(caller)
        && now >= StakingTimestampOf(caller)
        && Reward.ProductFits(StakedBalanceOf(caller), now - StakingTimestampOf(caller))
        && totalSupply + PendingReward(caller, now) <= MAX_UINT256
      ensures o.Revert? && IsStaking(caller) && now >= StakingTimestampOf(caller) ==> o.error == ArithmeticOverflow
      ensures o.Ok? ==>
        && o.next.owner == owner
        && !o.next.IsStaking(caller)
        && o.next.StakedBalanceOf(caller) == 0
        && o.next.StakingTimestampOf(caller) == 0
        && o.next.BalanceOf(caller) == BalanceOf(caller) + StakedBalanceOf(caller) + PendingReward(caller, now)
        && o.next.totalSupply == totalSupply + PendingReward(caller, now)
        && (forall a :: a != caller ==> o.next.BalanceOf(a) == BalanceOf(a))
        && (forall a :: a != caller ==> o.next.IsStaking(a) == IsStaking(a))
        && (forall a :: a != caller ==> o.next.StakedBalanceOf(a) == StakedBalanceOf(a))
        && (forall a :: a != caller ==> o.next.StakingTimestampOf(a) == StakingTimestampOf(a))
    {
      if !IsStaking(caller) then Revert(NoStakeFound)
      else if now < StakingTimestampOf(caller) then Revert(InvalidTimestamp)
      else
        var amount := stakedBalances[caller];
        var elapsed := now - StakingTimestampOf(caller);
        if !Reward.ProductFits(amount, elapsed) then Revert(ArithmeticOverflow)
        else
          var reward := Reward.Compute(amount, elapsed);
          if totalSupply + reward > MAX_UINT256 then Revert(ArithmeticOverflow)
          else
            Ok(this.(
              totalSupply := totalSupply + reward,
              balances := balances[caller := BalanceOf(caller) + amount + reward],
              stakedBalances := stakedBalances - {caller},
              stakingTimestamp := stakingTimestamp - {caller}))
    }
  }

  /** The state right after deployment by `deployer`, who is minted the whole
      initial supply. The supply constant itself is not visible in the
      repository, so it is a parameter. */
  function Deploy(deployer: Address, initialSupply: nat): (l: Ledger)
    requires initialSupply <= MAX_UINT256
    ensures l.Valid()
    ensures l.owner == deployer
    ensures l.totalSupply == initialSupply && l.BalanceOf(deployer) == l.totalSupply
    ensures forall a :: a != deployer ==> l.BalanceOf(a) == 0 && !l.IsStaking(a)
  {
    SumUpdate(map[], deployer, initialSupply);
    Ledger(deployer, initialSupply, map[deployer := initialSupply], map[], map[])
  }

  /** A successful transfer keeps the ledger valid. */
  lemma TransferKeepsValid(l: Ledger, caller: Address, to: Address, amount: nat)
    requires l.Valid()
    requires l.Transfer(caller, to, amount).Ok?
    ensures l.Transfer(caller, to, amount).next.Valid()
  {
    var debited := l.balances[caller := l.BalanceOf(caller) - amount];
    SumUpdate(l.balances, caller, l.BalanceOf(caller) - amount);
    SumUpdate(debited, to, Get(debited, to) + amount);
  }

  /** A successful stake keeps the ledger valid: it moves units from the
      spendable balance into the stake, creating and destroying none. */
  lemma StakeKeepsValid(l: Ledger, caller: Address, amount: nat, now: nat)
    requires l.Valid()
    requires l.Stake(caller, amount, now).Ok?
    ensures l.Stake(caller, amount, now).next.Valid()
  {
    SumUpdate(l.balances, caller, l.BalanceOf(caller) - amount);
    SumUpdate(l.stakedBalances, caller, amount);
  }

  /** A successful unstake keeps the ledger valid: the balances gain the stake
      and the reward, and the supply gains exactly the reward. */
  lemma UnstakeKeepsValid(l: Ledger, caller: Address, now: nat)
    requires l.Valid()
    requires l.Unstake(caller, now).Ok?
    ensures l.Unstake(caller, now).next.Valid()
  {
    var amount := l.StakedBalanceOf(caller);
    SumUpdate(l.balances, caller, l.BalanceOf(caller) + amount + l.PendingReward(caller, now));
    SumDelete(l.stakedBalances, caller);
  }

  /** On a valid ledger unstaking mints exactly what it credits beyond the
      stake: the supply grows by the credit minus the units returned. */
  lemma UnstakeMintsCredit(l: Ledger, caller: Address, now: nat)
    requires l.Valid()
    requires l.Unstake(caller, now).Ok?
    ensures var m := l.Unstake(caller, now).next;
      m.totalSupply - l.totalSupply == m.BalanceOf(caller) - l.BalanceOf(caller) - l.StakedBalanceOf(caller)
    ensures var m := l.Unstake(caller, now).next;
      Sum(m.balances) + Sum(m.stakedBalances) == Sum(l.balances) + Sum(l.stakedBalances) + l.PendingReward(caller, now)
  {
    UnstakeKeepsValid(l, caller, now);
  }

  /** Unstaking 30 days or more after staking at least MIN_REWARDED_STAKE units
      credits strictly more than the stake and strictly raises the supply. */
  lemma UnstakeAfterThirtyDaysRewards(l: Ledger, caller: Address, now: nat)
    requires l.Unstake(caller, now).Ok?
    requires now >= l.StakingTimestampOf(caller) + Reward.THIRTY_DAYS
    requires l.StakedBalanceOf(caller) >= Reward.MIN_REWARDED_STAKE
    ensures var m := l.Unstake(caller, now).next;
      m.BalanceOf(caller) > l.BalanceOf(caller) + l.StakedBalanceOf(caller)
    ensures l.Unstake(caller, now).next.totalSupply > l.totalSupply
  {
    Reward.PositiveAfterThirtyDays(l.StakedBalanceOf(caller), now - l.StakingTimestampOf(caller));
  }

  /** Staking and unstaking in the same block is a round trip: no reward, and
      the ledger is exactly as before. A stake above MAX_UINT256 / RATE_NUM is
      the exception: its unstake overflows the partial product and reverts. */
  lemma StakeThenUnstakeSameTime(l: Ledger, caller: Address, amount: nat, now: nat)
    requires l.Valid()
    requires l.Stake(caller, amount, now).Ok?
    requires amount * Reward.RATE_NUM <= MAX_UINT256
    ensures l.Stake(caller, amount, now).next.Unstake(caller, now) == Ok(l)
  {
    var m := l.Stake(caller, amount, now).next;
    assert caller in l.balances;
    assert caller !in l.stakingTimestamp;
    assert m.PendingReward(caller, now) == 0;
    assert m.balances[caller := m.BalanceOf(caller) + amount] == l.balances;
    assert m.stakedBalances - {caller} == l.stakedBalances;
    assert m.stakingTimestamp - {caller} == l.stakingTimestamp;
  }

  /** The contract object. Each method is one external call: it either
      applies the corresponding Ledger transition to the fields or, on a
      revert, leaves every field as it was. */
  class PortfolioToken {
    var owner: Address
    var totalSupply: nat
    var balances: map<Address, nat>
    var stakedBalances: map<Address, nat>
    var stakingTimestamp: map<Address, nat>

    /** The fields as a Ledger value. */
    function State(): (l: Ledger)
      reads this
    {
      Ledger(owner, totalSupply, balances, stakedBalances, stakingTimestamp)
    }

    ghost predicate Valid()
      reads this
    {
      State().Valid()
    }

    constructor (deployer: Address, initialSupply: nat)
      requires initialSupply <= MAX_UINT256
      ensures Valid()
      ensures State() == Deploy(deployer, initialSupply)
    {
      owner := deployer;
      totalSupply := initialSupply;
      balances := map[deployer := initialSupply];
      stakedBalances := map[];
      stakingTimestamp := map[];
      SumUpdate(map[], deployer, initialSupply);
    }

    function BalanceOf(a: Address): nat
      reads this
    {
      Get(balances, a)
    }

    method Transfer(caller: Address, to: Address, amount: nat) returns (r: Status<Error>)
      requires Valid()
      modifies this
      ensures Valid()
      ensures var o := old(State()).Transfer(caller, to, amount);
        r == o.Status() && State() == (if o.Ok? then o.next else old(State()))
    {
      var fromBalance := Get(balances, caller);
      if amount > fromBalance {
        return Reverted(InsufficientBalance);
      }
      balances := balances[caller := fromBalance - amount];
      balances := balances[to := Get(balances, to) + amount];
      r := Success;
      TransferKeepsValid(old(State()), caller, to, amount);
    }

    method Stake(caller: Address, amount: nat, now: nat) returns (r: Status<Error>)
      requires Valid()
      modifies this
      ensures Valid()
      ensures var o := old(State()).Stake(caller, amount, now);
        r == o.Status() && State() == (if o.Ok? then o.next else old(State()))
    {
      if amount == 0 {
        return Reverted(ZeroAmount);
      }
      if caller in stakedBalances {
        return Reverted(AlreadyStaking);
      }
      var held := Get(balances, caller);
      if amount > held {
        return Reverted(InsufficientBalance);
      }
      balances := balances[caller := held - amount];
      stakedBalances := stakedBalances[caller := amount];
      stakingTimestamp := stakingTimestamp[caller := now];
      r := Success;
      StakeKeepsValid(old(State()), caller, amount, now);
    }

    method Unstake(caller: Address, now: nat) returns (r: Status<Error>)
      requires Valid()
      modifies this
      ensures Valid()
      ensures var o := old(State()).Unstake(caller, now);
        r == o.Status() && State() == (if o.Ok? then o.next else old(State()))
    {
      if caller !in stakedBalances {
        return Reverted(NoStakeFound);
      }
      var start := Get(stakingTimestamp, caller);
      if now < start {
        return Reverted(InvalidTimestamp);
      }
      var amount := stakedBalances[caller];
      var elapsed := now - start;
      if !Reward.ProductFits(amount, elapsed) {
        return Reverted(ArithmeticOverflow);
      }
      var reward := Reward.Compute(amount, elapsed);
      if totalSupply + reward > MAX_UINT256 {
        return Reverted(ArithmeticOverflow);
      }
      stakedBalances := stakedBalances - {caller};
      stakingTimestamp := stakingTimestamp - {caller};
      balances := balances[caller := Get(balances, caller) + amount + reward];
      totalSupply := totalSupply + reward;
      r := Success;
      UnstakeKeepsValid(old(State()), caller, now);
    }
  }
}
