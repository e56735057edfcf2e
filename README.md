# PortfolioToken and PortfolioNFT, modelled in Dafny

This project models the two contracts of a small Ethereum portfolio
repository, as their Hardhat test suites pin them down. The Solidity
sources are not part of this model. What the tests state about them is the
contract that the model is checked against.

- **PortfolioToken** is a fungible-token ledger with staking. `transfer`
  moves units between holders. `stake(amount)` moves units from the
  caller's spendable balance into escrow and records the block timestamp.
  `unstake()` returns the escrowed units and mints a reward on top. The
  reward grows with the time the units stayed staked.
- **PortfolioNFT** is a collection. The owner mints for free, and anyone
  else must pay `mintPrice`. The owner sets the price and withdraws the
  ether the contract has collected.

Each contract is modelled twice:

- as a value (the datatypes `Token.Ledger` and `Nft.Collection`), with one
  transition function per external call;
- as a class (`Token.PortfolioToken` and `Nft.PortfolioNFT`), whose fields
  are the contract's storage and whose methods update them in place.

Every method is proved to have exactly the effect of its transition
function. A revert is a call that ends in `Reverted(reason)` and leaves
every field as it was. The block timestamp is the explicit argument `now`,
and the EVM clock itself is not modelled.

The key invariant of the ledger is conservation:
`Sum(balances) + Sum(stakedBalances) == totalSupply`. It holds at
deployment, and every successful call preserves it. Unstaking raises the
supply by exactly the reward it mints. The collection keeps every
`balanceOf` equal to the number of tokens the holder owns. Minting and
withdrawing conserve the total ether inside and outside the contract.

The modules `TokenScenarios` and `NftScenarios` replay each test case of
the three suites against the classes. Each method's `ensures` is what that
test case asserts.

Files:

- `evm.dfy`: addresses, the uint256 bound, mapping reads and the sum of a mapping.
- `reward.dfy`: the reward formula.
- `token.dfy`: the token ledger.
- `nft.dfy`: the NFT collection.
- `token_scenarios.dfy`, `nft_scenarios.dfy`: the test cases.

Choices made where the repository is silent:

- **Reward rate.** The rate constants are hidden. The model uses
  `reward = amount * 10 * elapsed / (100 * 365 days)`, rounded down, which
  is 10% a year. The product is evaluated left to right under checked
  uint256 arithmetic. An unstake reverts with `ArithmeticOverflow` when
  the partial product `amount * 10`, the full product
  `amount * 10 * elapsed`, or the new supply would exceed 2^256 - 1. So a
  stake above (2^256 - 1) / 10 units can never be unstaked, even in the
  block it was opened. With this rate, a stake earns something over 30 days exactly
  when it is at least 122 base units (`Reward.PositiveAfterThirtyDays`).
  The tests stake 1,000 × 10^18 units, which is far above that. A
  "50 units staked for 30 days" scenario would earn nothing under this rate.
- **Re-staking.** Staking while a stake is open is rejected with
  `AlreadyStaking`. No test exercises this case, so the policy is
  unconstrained by the repository.
- **Check order in `stake`.** A stake is checked for a zero amount first,
  then for an open stake, then for the balance. Tests exercise only the
  first and last checks.
- **Unstake clears everything.** Unstaking deletes both the stake amount
  and the timestamp, so both read 0 afterwards. The tests check only the
  amount.
- **Clock going backwards.** Unstaking at a time before the stake was
  opened reverts with `InvalidTimestamp`. EVM block timestamps never
  decrease, so a real chain never reaches this case. If the contract
  computes the elapsed time with checked subtraction, it would revert here
  too.
- **Hidden constants.** The initial token supply and the initial mint price
  are hidden, so they are constructor parameters. The tests imply two
  assumptions: there is enough supply to fund the staker, and the price is
  positive. The staking scenarios add two bounds that no test implies:
  - The initial supply is at most 2^256 - 1 - 2^140. This leaves room to
    mint the reward under the guessed rate (`TokenScenarios.SupplyFitsTests`).
  - The unstaking timestamp `t1` in `TokenScenarios.UnstakeWithReward` is
    below 2^64, as on a 64-bit clock. This bounds the reward below 2^140.
- **Mint payment.** A non-owner mint succeeds when `value >= mintPrice`.
  Overpaying is not tested. Whatever ether a mint sends stays in the
  contract, whoever the caller is.
- **Token ids.** Token ids start at 0: a new token's id is the number of
  tokens minted before it. No test reads an id, and many contracts start
  such counters at 1.
- **Withdrawing nothing.** `withdraw` succeeds when the contract holds no
  ether, and transfers 0. No test exercises this case.
- **Any price.** `setMintPrice` accepts any price, including 0. No test
  exercises a bound.
- **Plain reads.** `Token.PortfolioToken.BalanceOf` and
  `Nft.PortfolioNFT.BalanceOf` model the contracts' `balanceOf`.
  `Token.Ledger.PendingReward` is the reward an unstake at `now` would mint.
  Each is a single mapping read or formula application, so none of them has
  a row of its own below.

## Model

| member | source | states |
|---|---|---|
| `Reward.Compute` | test/TokenStaking.test.js:62-92 | the reward is the floor of amount × rate × elapsed over a year; it is 0 for zero elapsed time or a zero amount, and positive exactly when the product reaches one rate-year |
| `Reward.MonotoneInElapsed` | test/TokenStaking.test.js:69-72 | staying staked longer never earns a smaller reward |
| `Reward.MonotoneInAmount` | test/TokenStaking.test.js:62-66 | staking more never earns a smaller reward over the same time |
| `Reward.AdditiveInAmount` | test/TokenStaking.test.js:62-66 | the reward is proportional to the amount up to rounding: the reward on a1 + a2 is at least the two separate rewards and at most one unit more |
| `Reward.PositiveAfterThirtyDays` | test/TokenStaking.test.js:69-88 | after 30 days or more, every stake of at least 122 units earns a positive reward; over exactly 30 days, 122 units is the least that earns anything |
| `Token.Deploy` | test/PortfolioToken.test.js:21-28 | the deployer is the owner and holds the whole supply, no one else holds or stakes anything, and conservation holds |
| `Token.Ledger.Transfer` | test/PortfolioToken.test.js:32-56 | a transfer succeeds exactly when the amount is at most the sender's balance, and otherwise reverts with InsufficientBalance; on success the sender loses and the receiver gains exactly the amount, every other balance, every stake and the supply are unchanged, and a transfer to oneself changes nothing |
| `Token.Ledger.Stake` | test/TokenStaking.test.js:24-60 | a stake succeeds exactly when the amount is positive, no stake is open and the amount is at most the balance; it reverts with ZeroAmount, AlreadyStaking or InsufficientBalance otherwise; on success it records the amount and `now`, lowers the balance by exactly the amount, keeps the supply, and leaves every other account unchanged |
| `Token.Ledger.Unstake` | test/TokenStaking.test.js:62-100 | an unstake without an open stake reverts with NoStakeFound, one before the stake's start with InvalidTimestamp, and one whose arithmetic would exceed uint256 with ArithmeticOverflow; on success the stake record is cleared, the caller is credited the stake plus the reward, the supply rises by exactly the reward, and every other account is unchanged |
| `Token.TransferKeepsValid` | test/PortfolioToken.test.js:32-41 | a successful transfer preserves conservation of spendable plus staked units against the supply |
| `Token.StakeKeepsValid` | test/PortfolioToken.test.js:60-71 | a successful stake preserves conservation: the units leave the balance and enter the stake, and none are created or lost |
| `Token.UnstakeKeepsValid` | test/TokenStaking.test.js:62-92 | a successful unstake preserves conservation with the new, larger supply |
| `Token.UnstakeMintsCredit` | test/TokenStaking.test.js:85-92 | on a valid ledger the supply rises by exactly what the caller is credited beyond the returned stake, and the sum of balances and stakes rises by exactly the reward |
| `Token.UnstakeAfterThirtyDaysRewards` | test/TokenStaking.test.js:69-92 | unstaking 30 days or more after staking at least 122 units credits strictly more than balance plus stake and strictly raises the supply |
| `Token.StakeThenUnstakeSameTime` | test/TokenStaking.test.js:62-82 | staking then unstaking in the same block succeeds and restores the ledger exactly: no reward, and balances, stakes, timestamps and supply are all as before; this holds for every stake whose partial product amount × 10 fits a uint256, and a larger stake's unstake reverts with ArithmeticOverflow |
| `Token.PortfolioToken.constructor` | test/PortfolioToken.test.js:11-28 | deployment yields the deployment state, which satisfies the invariant |
| `Token.PortfolioToken.Transfer` | test/PortfolioToken.test.js:32-56 | the call has exactly the effect of the transfer transition, leaves the storage untouched on a revert, and keeps the invariant |
| `Token.PortfolioToken.Stake` | test/TokenStaking.test.js:24-60 | the call has exactly the effect of the stake transition, leaves the storage untouched on a revert, and keeps the invariant |
| `Token.PortfolioToken.Unstake` | test/TokenStaking.test.js:62-100 | the call has exactly the effect of the unstake transition, leaves the storage untouched on a revert, and keeps the invariant |
| `TokenScenarios.Deployment` | test/PortfolioToken.test.js:20-29 | after deployment the owner is the deployer and the owner's balance equals the total supply |
| `TokenScenarios.TransferBetweenAccounts` | test/PortfolioToken.test.js:32-42 | owner sends 50 to addr1, addr1 forwards 50 to addr2: each recipient then holds exactly 50 |
| `TokenScenarios.TransferWithoutFunds` | test/PortfolioToken.test.js:44-56 | an empty account sending 1 unit reverts, and the owner's balance is unchanged |
| `TokenScenarios.StakeHalf` | test/PortfolioToken.test.js:60-72 | after receiving 100 and staking 50, an account has 50 staked and 50 spendable |
| `TokenScenarios.DeployAndFund` | test/TokenStaking.test.js:11-21 | the staking suite's setup leaves the staker with 10,000 units and no open stake, on a valid ledger |
| `TokenScenarios.StakeRecordsAmountAndTime` | test/TokenStaking.test.js:24-44 | staking 1,000 units records them as staked, lowers the balance by exactly 1,000 units, and records a positive timestamp |
| `TokenScenarios.StakeMoreThanBalance` | test/TokenStaking.test.js:46-54 | staking one unit more than the balance reverts, and the balance and the absence of a stake are unchanged |
| `TokenScenarios.StakeZero` | test/TokenStaking.test.js:56-60 | staking 0 reverts with ZeroAmount, the "Cannot stake 0 tokens" reason |
| `TokenScenarios.UnstakeWithReward` | test/TokenStaking.test.js:62-93 | 30 days after staking 1,000 units, unstaking clears the stake, credits strictly more than the stake, and strictly raises the total supply |
| `TokenScenarios.UnstakeWithoutStake` | test/TokenStaking.test.js:95-100 | unstaking with nothing staked reverts with NoStakeFound, the "No tokens staked" reason |
| `Nft.CountAppend` | test/PortfolioNFT.test.js:32-35 | minting one more token to a holder raises that holder's count by one and no one else's |
| `Nft.Deploy` | test/PortfolioNFT.test.js:11-23 | the deployer is the owner, nothing is minted, every balance is 0, the contract holds no ether, and the balance invariant holds |
| `Nft.Collection.MintNFT` | test/PortfolioNFT.test.js:32-52 | a mint succeeds exactly when the caller can send the value and is the owner or pays at least the price; otherwise it reverts with InsufficientFunds or InsufficientPayment; on success the recipient gains exactly one token with the given URI, no other balance changes, and exactly the value moves from the caller into the contract |
| `Nft.Collection.SetMintPrice` | test/PortfolioNFT.test.js:57-61 | only the owner can set the price, others get Unauthorized; on success the price is the new one and nothing else changes |
| `Nft.Collection.Withdraw` | test/PortfolioNFT.test.js:63-82 | only the owner can withdraw, others get Unauthorized; on success the contract holds nothing, the owner gains exactly what it held, and no other wallet and nothing else changes |
| `Nft.MintKeepsValid` | test/PortfolioNFT.test.js:32-52 | after a successful mint every balance still equals the number of tokens the holder owns |
| `Nft.MintConservesEther` | test/PortfolioNFT.test.js:64-74 | a mint moves the payment from the caller into the contract without creating or losing ether |
| `Nft.WithdrawConservesEther` | test/PortfolioNFT.test.js:76-82 | a withdrawal moves the contract's ether to the owner without creating or losing any |
| `Nft.PortfolioNFT.constructor` | test/PortfolioNFT.test.js:11-28 | deployment yields the deployment state, which satisfies the invariant |
| `Nft.PortfolioNFT.MintNFT` | test/PortfolioNFT.test.js:32-52 | the call has exactly the effect of the mint transition, leaves the storage untouched on a revert, returns the id of the new token (the number minted before), and keeps the invariant |
| `Nft.PortfolioNFT.SetMintPrice` | test/PortfolioNFT.test.js:57-61 | the call has exactly the effect of the price transition and leaves the storage untouched on a revert |
| `Nft.PortfolioNFT.Withdraw` | test/PortfolioNFT.test.js:63-82 | the call has exactly the effect of the withdraw transition and leaves the storage untouched on a revert |
| `NftScenarios.Deployment` | test/PortfolioNFT.test.js:20-29 | the owner is the deployer, the name is "Portfolio NFT Collection" and the symbol is "PNFT" |
| `NftScenarios.OwnerMintsFree` | test/PortfolioNFT.test.js:32-35 | the owner minting with no payment succeeds, and the owner then holds one token |
| `NftScenarios.NonOwnerMustPay` | test/PortfolioNFT.test.js:37-53 | a non-owner minting without payment reverts; paying the price succeeds, and the minter then holds one token |
| `NftScenarios.OwnerSetsPrice` | test/PortfolioNFT.test.js:57-61 | after the owner sets a price, that price is the one read back |
| `NftScenarios.OwnerWithdraws` | test/PortfolioNFT.test.js:63-83 | after a paid mint the contract holds exactly the price; the owner's withdrawal then raises the owner's ether by exactly that amount |

## Left out

- The deployment scripts `scripts/deploy-token.js` and `scripts/deploy-nft.js` are left out. They only deploy and log, and hold no logic.
- Hardhat and ethers plumbing is left out: signers, contract factories, `connect`, async calls. The caller is the explicit argument `caller`.
- `evm_increaseTime` and `evm_mine` are left out. The block timestamp is the argument `now`, or `t0`/`t1` in the scenarios.
- Gas is not modelled. The withdraw test allows for gas costs. The model transfers the escrow exactly, which is a special case of what the test allows.
- The exact reward constants are left out, because they are hidden. The rate used is a named constant, and the shape of the formula is a guess.
- `Reward.PositiveAfterThirtyDays`: it states positivity for stakes of at least 122 units. The tests only rely on positivity for 1,000 × 10^18 units. The exact threshold depends on the guessed rate.
- ERC-20 and ERC-721 features that no test exercises are left out: allowances, `approve`, `transferFrom`, safe transfers, `ownerOf`, token transfers, events and ownership transfer.
- The OpenZeppelin zero-address checks are left out. These are the reverts on a transfer to, or a mint to, the address 0, and no test reaches them.
- Token URIs are opaque strings. They are stored per token and never read or validated.
- Overflow of the NFT counters and of the contract's ether balance is not modelled, because total ether is far below 2^256.
- The EVM rejects a transaction whose sender cannot pay the value it sends. The model treats this as an `InsufficientFunds` revert with no state change.
- Reentrancy and the rest of the EVM execution model are left out. Each call is atomic.
