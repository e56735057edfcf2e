/** Vocabulary shared by both contracts: addresses, the uint256 range, Solidity
    mapping reads (an absent key reads as zero), the total of a balance mapping,
    and the status a call ends with. */
module Evm {

  /** An account address. Only equality between addresses matters here. */
  type Address = nat

  /** 2^256 - 1, the largest value a Solidity uint256 holds. */
  const MAX_UINT256: nat := 0xFFFF_FFFF_FFFF_FFFF_FFFF_FFFF_FFFF_FFFF_FFFF_FFFF_FFFF_FFFF_FFFF_FFFF_FFFF_FFFF

  /** 10^18, the scaling of ethers.utils.parseEther: one whole unit. */
  const ETHER: nat := 1_000_000_000_000_000_000

  /** A call either succeeds or reverts with a reason; a revert changes nothing. */
  datatype Status<E> = Success | Reverted(reason: E)

  /** Reading `m[a]` of a Solidity mapping. */
  function Get(m: map<Address, nat>, a: Address): (v: nat)
  {
    if a in m then m[a] else 0
  }

  ghost function Pick(keys: set<Address>): (a: Address)
    requires keys != {}
    ensures a in keys
  {
    var a :| a in keys; a
  }

  lemma RemoveShrinks(m: map<Address, nat>, a: Address)
    requires a in m
    ensures |m - {a}| == |m| - 1
  {
    assert (m - {a}).Keys == m.Keys - {a};
  }

  /** The total of all values held in a balance mapping. */
  ghost function Sum(m: map<Address, nat>): (total: nat)
    decreases |m|
  {
    if m == map[] then 0
    else
      var a := Pick(m.Keys);
      RemoveShrinks(m, a);
      m[a] + Sum(m - {a})
  }

  /** Any key, not only the one Sum happens to pick, can be split off the total. */
  lemma {:induction false} SumRemove(m: map<Address, nat>, a: Address)
    requires a in m
    ensures Sum(m) == m[a] + Sum(m - {a})
    decreases |m|
  {
    var b := Pick(m.Keys);
    if b != a {
      RemoveShrinks(m, a);
      RemoveShrinks(m, b);
      SumRemove(m - {b}, a);
      SumRemove(m - {a}, b);
      assert m - {b} - {a} == m - {a} - {b};
    }
  }

  /** Deleting a key lowers the total by exactly what that key read. */
  lemma SumDelete(m: map<Address, nat>, a: Address)
    ensures Sum(m - {a}) + Get(m, a) == Sum(m)
  {
    if a in m {
      SumRemove(m, a);
    } else {
      assert m - {a} == m;
    }
  }

  /** Overwriting one entry changes the total by the difference of the entry. */
  lemma SumUpdate(m: map<Address, nat>, a: Address, v: nat)
    ensures Sum(m[a := v]) + Get(m, a) == Sum(m) + v
  {
    SumRemove(m[a := v], a);
    assert m[a := v] - {a} == m - {a};
    SumDelete(m, a);
  }
}
