/**
 * Shared QRC-20 vocabulary: 20-byte account and contract addresses,
 * 32-byte identifiers, 256-bit amounts, and the error and event types every
 * token, registry and bridge operation returns.
 */
module Qrc20 {
  import opened Base

  /**
   * A `U256` amount. Amounts are unbounded here: the source's panic on a
   * 2^256 overflow is not modelled.
   */
  type U256 = nat

  /** primitive-types' `H160`. */
  datatype H160 = H160(bytes: Bytes20)
  {
    static function Zero(): H160
    {
      H160(Zeros(20))
    }

    predicate IsZero()
    {
      bytes == Zeros(20)
    }
  }

  /** primitive-types' `H256`. */
  datatype H256 = H256(bytes: Bytes32)

  /**
   * `H160::from_low_u64_be(id)`: the u64 in the low 8 bytes, big-endian,
   * the 12 high bytes zero; that is the 20-byte big-endian form of `id`.
   */
  function ContractAddress(id: u64): (a: H160)
    ensures ContractId(a) == id
  {
    U64FitsEightBytes(id);
    Pow256Monotonic(8, 20);
    BigEndianRoundTrip(id, 20);
    H160(ToBigEndian(id, 20))
  }

  /** The number an address encodes, read as a 20-byte big-endian integer. */
  function ContractId(a: H160): nat
  {
    FromBigEndian(a.bytes)
  }

  /** Distinct counter values give distinct contract addresses. */
  lemma ContractAddressInjective(m: u64, n: u64)
    requires m != n
    ensures ContractAddress(m) != ContractAddress(n)
  {
    assert ContractId(ContractAddress(m)) == m;
    assert ContractId(ContractAddress(n)) == n;
  }

  datatype QRC20Error =
    | TokenNotFound
    | InsufficientBalance(required: U256, available: U256)
    | InsufficientAllowance(required: U256, available: U256)
    | TokenPaused
    | OnlyOwner
    | SymbolExists(symbol: string)
    | InvalidAddress(address: string)
    | EVMExecutionFailed(reason: string)

  datatype QRC20Event =
    | Deploy(contract: H160, deployer: H160, name: string, symbol: string, totalSupply: U256)
    | Transfer(contract: H160, from: H160, to: H160, amount: U256)
    | Approval(contract: H160, owner: H160, spender: H160, amount: U256)
    | Mint(contract: H160, to: H160, amount: U256)
    | Burn(contract: H160, from: H160, amount: U256)
    | PauseStatusChanged(contract: H160, paused: bool)
    | OwnershipTransferred(contract: H160, oldOwner: H160, newOwner: H160)

  type QRC20Result<T> = Result<T, QRC20Error>
}
