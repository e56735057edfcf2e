/** The PortfolioNFT test suite replayed against the contract object: each
    method deploys a fresh PortfolioNFT (the suite's beforeEach), performs the
    calls of one test case, and promises in its ensures what that test case
    asserts. The hidden initial price is the parameter `price`; the revert of
    an unpaid mint shows it is positive. */
module NftScenarios {
  import opened Evm
  import opened Nft

  /** Deployment: the deployer is the owner; name and symbol are fixed. */
  method Deployment(deployer: Address, price: nat, wallets: map<Address, nat>)
    returns (owner: Address, name: string, symbol: string)
    ensures owner == deployer
    ensures name == "Portfolio NFT Collection" && symbol == "PNFT"
  {
    var nft := new PortfolioNFT(deployer, price, wallets);
    owner := nft.owner;
    name := nft.name;
    symbol := nft.symbol;
  }

  /** The owner mints to itself without paying and then holds one token. */
  method OwnerMintsFree(deployer: Address, price: nat, wallets: map<Address, nat>)
    returns (r: Status<Error>, balance: nat)
    ensures r == Success
    ensures balance == 1
  {
    var nft := new PortfolioNFT(deployer, price, wallets);
    var id;
    r, id := nft.MintNFT(deployer, deployer, "https://example.com/token/1", 0);
    balance := nft.BalanceOf(deployer);
  }

  /** addr1 mints without paying, which reverts, then pays the price, which
      succeeds and leaves addr1 holding one token. */
  method NonOwnerMustPay(deployer: Address, addr1: Address, price: nat, wallets: map<Address, nat>)
    returns (unpaid: Status<Error>, paid: Status<Error>, balance: nat)
    requires deployer != addr1
    requires 0 < price <= Get(wallets, addr1)
    ensures unpaid == Reverted(InsufficientPayment)
    ensures paid == Success
    ensures balance == 1
  {
    var nft := new PortfolioNFT(deployer, price, wallets);
    var id;
    unpaid, id := nft.MintNFT(addr1, addr1, "https://example.com/token/1", 0);
    paid, id := nft.MintNFT(addr1, addr1, "https://example.com/token/1", nft.mintPrice);
    balance := nft.BalanceOf(addr1);
  }

  /** The owner sets a new price, which is then the price read back. */
  method OwnerSetsPrice(deployer: Address, price: nat, wallets: map<Address, nat>, newPrice: nat)
    returns (r: Status<Error>, readBack: nat)
    ensures r == Success
    ensures readBack == newPrice
  {
    var nft := new PortfolioNFT(deployer, price, wallets);
    r := nft.SetMintPrice(deployer, newPrice);
    readBack := nft.mintPrice;
  }

  /** addr1 pays for a mint, the contract then holds exactly the price, and the
      owner's withdrawal raises the owner's ether. */
  method OwnerWithdraws(deployer: Address, addr1: Address, price: nat, wallets: map<Address, nat>)
    returns (contractBalance: nat, ownerBefore: nat, ownerAfter: nat)
    requires deployer != addr1
    requires 0 < price <= Get(wallets, addr1)
    ensures contractBalance == price
    ensures ownerAfter > ownerBefore
    ensures ownerAfter == ownerBefore + price
  {
    var nft := new PortfolioNFT(deployer, price, wallets);
    var r, id := nft.MintNFT(addr1, addr1, "https://example.com/token/1", nft.mintPrice);
    contractBalance := nft.escrow;
    ownerBefore := Get(nft.wallets, deployer);
    r := nft.Withdraw(deployer);
    ownerAfter := Get(nft.wallets, deployer);
  }
}
