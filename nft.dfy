/** PortfolioNFT: a collection whose tokens anyone may mint for a price, or
    the owner for free; the owner sets the price and withdraws the payments
    the contract holds.

    As for the token ledger, the storage is first a value (Collection) with
    one transition function per call, then the contract object (class
    PortfolioNFT) whose methods are proved to agree with them. A token URI is
    an opaque string that is stored and never interpreted. Ether is counted
    in wei; `wallets` holds the ether of the accounts outside the contract,
    `escrow` the ether the contract itself holds. */
module Nft {
  import opened Evm

  const NAME: string := "Portfolio NFT Collection"
  const SYMBOL: string := "PNFT"

  /** Why a call reverts. */
  datatype Error =
    | Unauthorized          // an owner-only call made by someone else
    | InsufficientPayment   // a non-owner mint paying less than the price
    | InsufficientFunds     // a call sending more ether than its sender has

  datatype Outcome = Ok(next: Collection) | Revert(error: Error)
  {
    function Status(): Status<Error>
    {
      if Ok? then Success else Reverted(error)
    }
  }

  /** How many entries of `holders` are `a`. */
  function Count(holders: seq<Address>, a: Address): (n: nat)
  {
    if holders == [] then 0
    else (if holders[0] == a then 1 else 0) + Count(holders[1..], a)
  }

  /** Minting one more token to `x` raises the count of `x` alone, by one. */
  lemma {:induction false} CountAppend(holders: seq<Address>, x: Address, a: Address)
    ensures Count(holders + [x], a) == Count(holders, a) + (if x == a then 1 else 0)
  {
    if holders != [] {
      assert (holders + [x])[1..] == holders[1..] + [x];
      CountAppend(holders[1..], x, a);
    }
  }

  /** The contract's storage, with the ether of the outside accounts. Token
      `id` is held by `holders[id]` and has URI `uris[id]`; `balances` is the
      per-holder token count that balanceOf reads. */
  datatype Collection = Collection(
    owner: Address,
    mintPrice: nat,
    holders: seq<Address>,
    uris: seq<string>,
    balances: map<Address, nat>,
    escrow: nat,
    wallets: map<Address, nat>)
  {
    function BalanceOf(a: Address): nat { Get(balances, a) }
    function FundsOf(a: Address): nat { Get(wallets, a) }

    /** Every token has a URI, and each balance counts exactly the tokens held. */
    ghost predicate Valid()
    {
      && |uris| == |holders|
      && forall a :: BalanceOf(a) == Count(holders, a)
    }

    /** All ether, inside the contract and out. */
    ghost function TotalEther(): (total: nat)
    {
      Sum(wallets) + escrow
    }

    /** mintNFT(to, uri) called by `caller` sending `value` wei. The new token's
        id is the number of tokens minted before it. The owner mints without
        paying; anyone else must send at least the price. Whatever is sent
        stays in the contract. */
    function MintNFT(caller: Address, to: Address, uri: string, value: nat): (o: Outcome)
      ensures o.Ok? <==> value <= FundsOf(caller) && (caller == owner || value >= mintPrice)
      ensures value > FundsOf(caller) ==> o == Revert(InsufficientFunds)
      ensures value <= FundsOf(caller) && caller != owner && value < mintPrice ==> o == Revert(InsufficientPayment)
      ensures o.Ok? ==>
        && o.next.owner == owner
        && o.next.mintPrice == mintPrice
        && o.next.holders == holders + [to]
        && o.next.uris == uris + [uri]
        && o.next.BalanceOf(to) == BalanceOf(to) + 1
        && (forall a :: a != to ==> o.next.BalanceOf(a) == BalanceOf(a))
        && o.next.escrow == escrow + value
        && o.next.FundsOf(caller) == FundsOf(caller) - value
        && (forall a :: a != caller ==> o.next.FundsOf(a) == FundsOf(a))
    {
      if value > FundsOf(caller) then Revert(InsufficientFunds)
      else if caller != owner && value < mintPrice then Revert(InsufficientPayment)
      else
        Ok(this.(
          holders := holders + [to],
          uris := uris + [uri],
          balances := balances[to := BalanceOf(to) + 1],
          escrow := escrow + value,
          wallets := wallets[caller := FundsOf(caller) - value]))
    }

    /** setMintPrice(price), owner only. */
    function SetMintPrice(caller: Address, price: nat): (o: Outcome)
      ensures o.Ok? <==> caller == owner
      ensures o.Revert? ==> o.error == Unauthorized
      ensures o.Ok? ==> o.next == this.(mintPrice := price) && o.next.mintPrice == price
    {
      if caller != owner then Revert(Unauthorized)
      else Ok(this.(mintPrice := price))
    }

    /** withdraw(), owner only: all the ether the contract holds goes to the owner. */
    function Withdraw(caller: Address): (o: Outcome)
      ensures o.Ok? <==> caller == owner
      ensures o.Revert? ==> o.error == Unauthorized
      ensures o.Ok? ==>
        && o.next.escrow == 0
        && o.next.FundsOf(owner) == FundsOf(owner) + escrow
        && (forall a :: a != owner ==> o.next.FundsOf(a) == FundsOf(a))
        && o.next == this.(escrow := 0, wallets := o.next.wallets)
    {
      if caller != owner then Revert(Unauthorized)
      else Ok(this.(escrow := 0, wallets := wallets[owner := FundsOf(owner) + escrow]))
    }
  }

  /** The state right after deployment by `deployer`. The initial price is not
      visible in the repository, so it is a parameter, as are the outside
      accounts' ether balances. */
  function Deploy(deployer: Address, initialPrice: nat, wallets: map<Address, nat>): (c: Collection)
    ensures c.Valid()
    ensures c.owner == deployer && c.mintPrice == initialPrice
    ensures c.escrow == 0 && c.holders == []
    ensures forall a :: c.BalanceOf(a) == 0
  {
    Collection(deployer, initialPrice, [], [], map[], 0, wallets)
  }

  /** A successful mint keeps every balance equal to the count of tokens held. */
  lemma MintKeepsValid(c: Collection, caller: Address, to: Address, uri: string, value: nat)
    requires c.Valid()
    requires c.MintNFT(caller, to, uri, value).Ok?
    ensures c.MintNFT(caller, to, uri, value).next.Valid()
  {
    var m := c.MintNFT(caller, to, uri, value).next;
    forall a
      ensures m.BalanceOf(a) == Count(m.holders, a)
    {
      CountAppend(c.holders, to, a);
    }
  }

  /** Minting moves the payment from the caller into the contract: no ether is
      created or lost. */
  lemma MintConservesEther(c: Collection, caller: Address, to: Address, uri: string, value: nat)
    requires c.MintNFT(caller, to, uri, value).Ok?
    ensures c.MintNFT(caller, to, uri, value).next.TotalEther() == c.TotalEther()
  {
    SumUpdate(c.wallets, caller, c.FundsOf(caller) - value);
  }

  /** Withdrawing moves the contract's ether to the owner: no ether is created
      or lost, and the owner gains exactly what the contract held. */
  lemma WithdrawConservesEther(c: Collection, caller: Address)
    requires c.Withdraw(caller).Ok?
    ensures c.Withdraw(caller).next.TotalEther() == c.TotalEther()
  {
    SumUpdate(c.wallets, c.owner, c.FundsOf(c.owner) + c.escrow);
  }

  /** The contract object. Each method is one external call: it either applies
      the corresponding Collection transition to the fields or, on a revert,
      leaves every field as it was. */
  class PortfolioNFT {
    const name: string := NAME
    const symbol: string := SYMBOL
    var owner: Address
    var mintPrice: nat
    var holders: seq<Address>
    var uris: seq<string>
    var balances: map<Address, nat>
    var escrow: nat
    var wallets: map<Address, nat>

    /** The fields as a Collection value. */
    function State(): (c: Collection)
      reads this
    {
      Collection(owner, mintPrice, holders, uris, balances, escrow, wallets)
    }

    ghost predicate Valid()
      reads this
    {
      State().Valid()
    }

    constructor (deployer: Address, initialPrice: nat, initialWallets: map<Address, nat>)
      ensures Valid()
      ensures State() == Deploy(deployer, initialPrice, initialWallets)
    {
      owner := deployer;
      mintPrice := initialPrice;
      holders := [];
      uris := [];
      balances := map[];
      escrow := 0;
      wallets := initialWallets;
    }

    function BalanceOf(a: Address): nat
      reads this
    {
      Get(balances, a)
    }

    method MintNFT(caller: Address, to: Address, uri: string, value: nat) returns (r: Status<Error>, tokenId: nat)
      requires Valid()
      modifies this
      ensures Valid()
      ensures var o := old(State()).MintNFT(caller, to, uri, value);
        r == o.Status() && State() == (if o.Ok? then o.next else old(State()))
      ensures r.Success? ==> tokenId == old(|holders|) && holders[tokenId] == to && uris[tokenId] == uri
    {
      var funds := Get(wallets, caller);
      if value > funds {
        return Reverted(InsufficientFunds), 0;
      }
      if caller != owner && value < mintPrice {
        return Reverted(InsufficientPayment), 0;
      }
      wallets := wallets[caller := funds - value];
      escrow := escrow + value;
      tokenId := |holders|;
      holders := holders + [to];
      uris := uris + [uri];
      balances := balances[to := Get(balances, to) + 1];
      r := Success;
      MintKeepsValid(old(State()), caller, to, uri, value);
    }

    method SetMintPrice(caller: Address, price: nat) returns (r: Status<Error>)
      requires Valid()
      modifies this
      ensures Valid()
      ensures var o := old(State()).SetMintPrice(caller, price);
        r == o.Status() && State() == (if o.Ok? then o.next else old(State()))
    {
      if caller != owner {
        return Reverted(Unauthorized);
      }
      mintPrice := price;
      r := Success;
    }

    method Withdraw(caller: Address) returns (r: Status<Error>)
      requires Valid()
      modifies this
      ensures Valid()
      ensures var o := old(State()).Withdraw(caller);
        r == o.Status() && State() == (if o.Ok? then o.next else old(State()))
    {
      if caller != owner {
        return Reverted(Unauthorized);
      }
      wallets := wallets[owner := Get(wallets, owner) + escrow];
      escrow := 0;
      r := Success;
    }
  }
}
