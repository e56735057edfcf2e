/** The PortfolioToken test suites replayed against the contract object: each
    method deploys a fresh PortfolioToken (the suites' beforeEach), performs
    the calls of one test case, and promises in its ensures what that test
    case asserts. Signers are distinct addresses; block timestamps are the
    parameters t0, t1, ... with the chain clock moving forward. */
module TokenScenarios {
  import opened Evm
  import Reward
  import opened Token

  /** 2^140: more than any reward on 1,000 units over less than 2^64 seconds. */
  const REWARD_HEADROOM: nat := 0x1000_0000_0000_0000_0000_0000_0000_0000_0000

  /** What the staking tests need of the hidden initial supply: enough for the
      10,000 units given to the staker, and far enough from 2^256 that minting a
      reward cannot overflow. */
  predicate SupplyFitsTests(initialSupply: nat)
  {
    10_000 * ETHER <= initialSupply <= MAX_UINT256 - REWARD_HEADROOM
  }

  /** Deployment: the deployer is the owner and holds the whole supply. */
  method Deployment(deployer: Address, initialSupply: nat) returns (owner: Address, ownerBalance: nat, totalSupply: nat)
    requires initialSupply <= MAX_UINT256
    ensures owner == deployer
    ensures ownerBalance == totalSupply == initialSupply
  {
    var token := new PortfolioToken(deployer, initialSupply);
    owner := token.owner;
    ownerBalance := token.BalanceOf(deployer);
    totalSupply := token.totalSupply;
  }

  /** Transfer 50 from the owner to addr1, then 50 from addr1 to addr2. */
  method TransferBetweenAccounts(deployer: Address, addr1: Address, addr2: Address, initialSupply: nat)
    returns (addr1Balance: nat, addr2Balance: nat)
    requires 50 <= initialSupply <= MAX_UINT256
    requires deployer != addr1 && deployer != addr2 && addr1 != addr2
    ensures addr1Balance == 50
    ensures addr2Balance == 50
  {
    var token := new PortfolioToken(deployer, initialSupply);
    var r := token.Transfer(deployer, addr1, 50);
    addr1Balance := token.BalanceOf(addr1);
    r := token.Transfer(addr1, addr2, 50);
    addr2Balance := token.BalanceOf(addr2);
  }

  /** addr1 holds nothing and tries to send 1 unit to the owner: the call
      reverts and the owner's balance stays what it was. */
  method TransferWithoutFunds(deployer: Address, addr1: Address, initialSupply: nat)
    returns (r: Status<Error>, before: nat, after: nat)
    requires initialSupply <= MAX_UINT256
    requires deployer != addr1
    ensures r == Reverted(InsufficientBalance)
    ensures after == before == initialSupply
  {
    var token := new PortfolioToken(deployer, initialSupply);
    before := token.BalanceOf(deployer);
    r := token.Transfer(addr1, deployer, 1);
    after := token.BalanceOf(deployer);
  }

  /** Transfer 100 to addr1, who stakes 50: 50 staked, 50 left spendable. */
  method StakeHalf(deployer: Address, addr1: Address, initialSupply: nat, now: nat)
    returns (staked: nat, balance: nat)
    requires 100 <= initialSupply <= MAX_UINT256
    requires deployer != addr1
    ensures staked == 50
    ensures balance == 50
  {
    var token := new PortfolioToken(deployer, initialSupply);
    var r := token.Transfer(deployer, addr1, 100);
    r := token.Stake(addr1, 50, now);
    staked := Get(token.stakedBalances, addr1);
    balance := token.BalanceOf(addr1);
  }

  /** The staking suite's beforeEach: deploy, then give the staker 10,000 units. */
  method DeployAndFund(deployer: Address, staker: Address, initialSupply: nat) returns (token: PortfolioToken)
    requires SupplyFitsTests(initialSupply)
    requires deployer != staker
    ensures fresh(token) && token.Valid()
    ensures token.BalanceOf(staker) == 10_000 * ETHER
    ensures !token.State().IsStaking(staker)
    ensures token.totalSupply == initialSupply
  {
    token := new PortfolioToken(deployer, initialSupply);
    var r := token.Transfer(deployer, staker, 10_000 * ETHER);
  }

  /** Staking 1,000 units records the stake and its timestamp and lowers the
      spendable balance by the stake. */
  method StakeRecordsAmountAndTime(deployer: Address, staker: Address, initialSupply: nat, now: nat)
    returns (initialBalance: nat, stakedBalance: nat, finalBalance: nat, timestamp: nat)
    requires SupplyFitsTests(initialSupply)
    requires deployer != staker
    requires now > 0
    ensures stakedBalance == 1_000 * ETHER
    ensures finalBalance == initialBalance - 1_000 * ETHER
    ensures timestamp > 0
  {
    var token := DeployAndFund(deployer, staker, initialSupply);
    initialBalance := token.BalanceOf(staker);
    var r := token.Stake(staker, 1_000 * ETHER, now);
    stakedBalance := Get(token.stakedBalances, staker);
    finalBalance := token.BalanceOf(staker);
    timestamp := Get(token.stakingTimestamp, staker);
  }

  /** Staking one unit more than the balance reverts and changes nothing. */
  method StakeMoreThanBalance(deployer: Address, staker: Address, initialSupply: nat, now: nat)
    returns (r: Status<Error>, balance: nat, staking: bool)
    requires SupplyFitsTests(initialSupply)
    requires deployer != staker
    ensures r == Reverted(InsufficientBalance)
    ensures balance == 10_000 * ETHER && !staking
  {
    var token := DeployAndFund(deployer, staker, initialSupply);
    var tooMuch := token.BalanceOf(staker) + ETHER;
    r := token.Stake(staker, tooMuch, now);
    balance := token.BalanceOf(staker);
    staking := staker in token.stakedBalances;
  }

  /** Staking zero reverts with "Cannot stake 0 tokens". */
  method StakeZero(deployer: Address, staker: Address, initialSupply: nat, now: nat)
    returns (r: Status<Error>)
    requires SupplyFitsTests(initialSupply)
    requires deployer != staker
    ensures r == Reverted(ZeroAmount)
  {
    var token := DeployAndFund(deployer, staker, initialSupply);
    r := token.Stake(staker, 0, now);
  }

  /** Stake 1,000 units at t0 and unstake at t1, at least 30 days later: the
      stake record is cleared, the staker gets back more than the stake, and
      the supply grows. */
  method UnstakeWithReward(deployer: Address, staker: Address, initialSupply: nat, t0: nat, t1: nat)
    returns (stakedAfter: nat, balanceBefore: nat, balanceAfter: nat, supplyBefore: nat, supplyAfter: nat)
    requires SupplyFitsTests(initialSupply)
    requires deployer != staker
    requires t0 + Reward.THIRTY_DAYS <= t1 < 0x1_0000_0000_0000_0000
    ensures stakedAfter == 0
    ensures balanceAfter > balanceBefore + 1_000 * ETHER
    ensures supplyAfter > supplyBefore
  {
    var stakeAmount := 1_000 * ETHER;
    var token := DeployAndFund(deployer, staker, initialSupply);
    var r := token.Stake(staker, stakeAmount, t0);
    supplyBefore := token.totalSupply;
    balanceBefore := token.BalanceOf(staker);

    ghost var staked := token.State();
    assert Reward.Product(stakeAmount, t1 - t0) <= stakeAmount * Reward.RATE_NUM * 0x1_0000_0000_0000_0000;
    assert staked.PendingReward(staker, t1) <= REWARD_HEADROOM;
    assert staked.Unstake(staker, t1).Ok?;
    UnstakeAfterThirtyDaysRewards(staked, staker, t1);

    r := token.Unstake(staker, t1);
    stakedAfter := Get(token.stakedBalances, staker);
    balanceAfter := token.BalanceOf(staker);
    supplyAfter := token.totalSupply;
  }

  /** Unstaking with nothing staked reverts with "No tokens staked". */
  method UnstakeWithoutStake(deployer: Address, staker: Address, initialSupply: nat, now: nat)
    returns (r: Status<Error>)
    requires SupplyFitsTests(initialSupply)
    requires deployer != staker
    ensures r == Reverted(NoStakeFound)
  {
    var token := DeployAndFund(deployer, staker, initialSupply);
    r := token.Unstake(staker, now);
  }
}
