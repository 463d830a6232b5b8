/**
 * The ERC-20 bridge: external tokens locked on Ethereum are matched by
 * wrapped QRC-20 tokens minted through the registry, less a basis-point
 * fee, and burning wrapped tokens releases locked ones. `BridgeState` and
 * the `...Spec` functions say what each operation does to the bridge and
 * to the registry; the class `ERC20Bridge` performs them in place.
 * Random record ids, the mock QoraNet transaction hash and the wall clock
 * are parameters.
 */
module Bridge {
  import opened Base
  import opened Qrc20
  import opened Token
  import opened Registry

  const DEFAULT_MIN_CONFIRMATIONS: u64 := 12
  const DEFAULT_FEE_BP: u16 := 50
  /** `set_config` refuses fees above 10%. */
  const MAX_CONFIG_FEE_BP: nat := 1000
  const BASIS_POINTS: nat := 10000

  datatype BridgeDirection = EthereumToQoraNet | QoraNetToEthereum

  datatype BridgeStatus = Pending | Confirmed | Completed | Failed | Cancelled

  datatype BridgeTransaction = BridgeTransaction(
    id: H256,
    ethTxHash: Option<H256>,
    qoraTxHash: Option<H256>,
    user: H160,
    ethToken: H160,
    qoraToken: H160,
    amount: U256,
    direction: BridgeDirection,
    status: BridgeStatus,
    confirmations: u64,
    timestamp: u64,
    feePaid: U256)

  datatype BridgeState = BridgeState(
    ethToQora: map<H160, H160>,
    qoraToEth: map<H160, H160>,
    lockedEth: map<H160, U256>,
    mintedQora: map<H160, U256>,
    transactions: map<H256, BridgeTransaction>,
    operators: seq<H160>,
    minConfirmations: u64,
    feeBp: u16,
    treasury: H160)
  {
    /** The two token mappings are each other's inverse. */
    predicate Inverse()
    {
      (forall e | e in ethToQora :: ethToQora[e] in qoraToEth && qoraToEth[ethToQora[e]] == e)
      && (forall q | q in qoraToEth :: qoraToEth[q] in ethToQora && ethToQora[qoraToEth[q]] == q)
    }

    /**
     * Counters exist only for mapped tokens, and for every mapped pair no
     * more wrapped tokens were minted than external ones are locked.
     */
    predicate Backed()
    {
      mintedQora.Keys <= qoraToEth.Keys
      && lockedEth.Keys <= ethToQora.Keys
      && forall q | q in qoraToEth :: Get(mintedQora, q) <= Get(lockedEth, qoraToEth[q])
    }

    predicate Valid()
    {
      Inverse() && Backed()
    }
  }

  /**
   * The bridge and the registry it mints through belong together: every
   * wrapped token's address was handed out by that registry's counter.
   */
  predicate Linked(b: BridgeState, r: RegistryState)
  {
    forall q | q in b.qoraToEth :: ContractId(q) < r.nextContractId
  }

  /** `ERC20Bridge::new`. */
  function NewBridge(): (b: BridgeState)
    ensures b.Valid()
    ensures b.minConfirmations == 12 && b.feeBp == 50 && b.treasury.IsZero() && b.operators == []
  {
    BridgeState(map[], map[], map[], map[], map[], [], DEFAULT_MIN_CONFIRMATIONS, DEFAULT_FEE_BP,
                H160.Zero())
  }

  /** `ERC20Bridge::new_with_config`: no fee bound is enforced here. */
  function NewBridgeWithConfig(operators: seq<H160>, minConfirmations: u64, feeBp: u16,
                               treasury: H160): (b: BridgeState)
    ensures b.Valid() && b.transactions == map[]
    ensures b.operators == operators && b.minConfirmations == minConfirmations
    ensures b.feeBp == feeBp && b.treasury == treasury
  {
    BridgeState(map[], map[], map[], map[], map[], operators, minConfirmations, feeBp, treasury)
  }

  // ---------------------------------------------------------------------
  // Fees

  /** `calculate_bridge_fee`: `amount * bp / 10000`, rounded down. */
  function BridgeFee(amount: U256, bp: u16): (fee: U256)
    ensures bp <= BASIS_POINTS ==> fee <= amount
    ensures fee * BASIS_POINTS <= amount * bp < (fee + 1) * BASIS_POINTS
  {
    var scaled := amount * bp;
    var fee := scaled / BASIS_POINTS;
    FloorDivision(scaled, BASIS_POINTS);
    assert bp <= BASIS_POINTS ==> fee <= amount by {
      if bp <= BASIS_POINTS {
        MulMonotonic(amount, bp, BASIS_POINTS);
        CancelFactor(fee, amount, BASIS_POINTS);
      }
    }
    fee
  }

  /** Euclidean division of naturals brackets the dividend. */
  lemma FloorDivision(n: nat, d: nat)
    requires d > 0
    ensures (n / d) * d <= n < (n / d + 1) * d
  {
    assert n == (n / d) * d + n % d;
  }

  lemma MulMonotonic(a: nat, b: nat, c: nat)
    requires b <= c
    ensures a * b <= a * c
  {
  }

  lemma CancelFactor(x: nat, y: nat, c: nat)
    requires c > 0 && x * c <= y * c
    ensures x <= y
  {
    if x > y {
      MulMonotonic(c, y + 1, x);
    }
  }

  /** `amount.saturating_sub(fee)`. */
  function NetAmount(amount: U256, bp: u16): (net: U256)
    ensures net <= amount
    ensures bp <= BASIS_POINTS ==> net + BridgeFee(amount, bp) == amount
  {
    var fee := BridgeFee(amount, bp);
    if fee <= amount then amount - fee else 0
  }

  /** At the default 0.5%, 1000 pays 5 and 500 pays 2 (2.5 rounded down). */
  lemma DefaultFeeExamples()
    ensures BridgeFee(1000, DEFAULT_FEE_BP) == 5 && NetAmount(1000, DEFAULT_FEE_BP) == 995
    ensures BridgeFee(500, DEFAULT_FEE_BP) == 2 && NetAmount(500, DEFAULT_FEE_BP) == 498
  {
  }

  // ---------------------------------------------------------------------
  // Bridging

  /** The bridge and registry after a bridging operation, and its result. */
  datatype BridgeOutcome = BridgeOutcome(bridge: BridgeState, registry: RegistryState,
                                         result: QRC20Result<H160>)

  function BridgedName(tokenName: string): string
  {
    "Bridged " + tokenName
  }

  function BridgedSymbol(tokenSymbol: string): string
  {
    "b" + tokenSymbol
  }

  /** The owner `mint` is called as: the wrapped token's own owner. */
  function OwnerOf(r: RegistryState, q: H160, otherwise: H160): H160
  {
    if q in r.tokens then r.tokens[q].owner else otherwise
  }

  /** What `bridge_from_ethereum` records and counts once the wrapped tokens are minted. */
  function Lock(b: BridgeState, ethToken: H160, q: H160, user: H160, amount: U256, fee: U256,
                net: U256, ethTxHash: H256, confirmations: u64, id: H256, now: u64)
    : (b': BridgeState)
    ensures SameConfig(b, b') && b'.ethToQora == b.ethToQora && b'.qoraToEth == b.qoraToEth
    ensures Get(b'.lockedEth, ethToken) == Get(b.lockedEth, ethToken) + amount
    ensures Get(b'.mintedQora, q) == Get(b.mintedQora, q) + net
    ensures id in b'.transactions && b'.transactions[id].amount == amount
    ensures b'.transactions[id].feePaid == fee
    ensures b'.transactions[id].status
              == (if confirmations >= b.minConfirmations then Completed else Confirmed)
    ensures OthersKept(b, b', ethToken, q, id)
  {
    var locked := Get(b.lockedEth, ethToken) + amount;
    var minted := Get(b.mintedQora, q) + net;
    var record := BridgeTransaction(
      id, Some(ethTxHash), None, user, ethToken, q, amount, EthereumToQoraNet,
      if confirmations >= b.minConfirmations then Completed else Confirmed, confirmations, now, fee);
    OverwriteThenRemove(b.lockedEth, ethToken, locked);
    OverwriteThenRemove(b.mintedQora, q, minted);
    OverwriteThenRemove(b.transactions, id, record);
    b.(lockedEth := b.lockedEth[ethToken := locked],
       mintedQora := b.mintedQora[q := minted],
       transactions := b.transactions[id := record])
  }

  /** Overwriting a key and then dropping it leaves the other entries as they were. */
  lemma OverwriteThenRemove<K, V>(m: map<K, V>, k: K, v: V)
    ensures m[k := v] - {k} == m - {k}
  {
  }

  /** Operators, confirmations, fee and treasury are those of `b`. */
  predicate SameConfig(b: BridgeState, b': BridgeState)
  {
    b'.operators == b.operators && b'.minConfirmations == b.minConfirmations
    && b'.feeBp == b.feeBp && b'.treasury == b.treasury
  }

  /**
   * Apart from the lock of `e`, the minted counter of `q` and the record
   * `id`, the counters and records of `b'` are those of `b`.
   */
  predicate OthersKept(b: BridgeState, b': BridgeState, e: H160, q: H160, id: H256)
  {
    b'.lockedEth - {e} == b.lockedEth - {e}
    && b'.mintedQora - {q} == b.mintedQora - {q}
    && b'.transactions - {id} == b.transactions - {id}
  }

  /**
   * What a successful `bridge_from_ethereum` of `amount` into wrapped token
   * `q` has done: `ethToken` maps to `q`, the gross amount is locked, the
   * net amount counted as minted and added to the balance `user` held
   * before (nothing when it is a `newToken`), every other holder keeps
   * theirs, and the record is kept under `id`, Completed once confirmed
   * enough times. No other token, counter or record changes.
   */
  ghost predicate Credited(b: BridgeState, r: RegistryState, b': BridgeState, r': RegistryState,
                     ethToken: H160, q: H160, user: H160, newToken: bool, amount: U256,
                     confirmations: u64, id: H256)
  {
    var net := NetAmount(amount, b.feeBp);
    SameConfig(b, b')
    && ethToken in b'.ethToQora && b'.ethToQora[ethToken] == q
    && Get(b'.lockedEth, ethToken) == Get(b.lockedEth, ethToken) + amount
    && Get(b'.mintedQora, q) == Get(b.mintedQora, q) + net
    && OthersKept(b, b', ethToken, q, id)
    && q in r'.tokens
    && r'.tokens - {q} == r.tokens - {q}
    && r'.tokens[q].BalanceOf(user) == (if newToken then 0 else BalanceIn(r, q, user)) + net
    && (forall a | a != user ::
          r'.tokens[q].BalanceOf(a) == if newToken then 0 else BalanceIn(r, q, a))
    && id in b'.transactions
    && b'.transactions[id].amount == amount
    && b'.transactions[id].feePaid == BridgeFee(amount, b.feeBp)
    && b'.transactions[id].status
         == (if confirmations >= b.minConfirmations then Completed else Confirmed)
  }

  /** A holder's balance of token `q`, 0 when the registry has no such token. */
  function BalanceIn(r: RegistryState, q: H160, holder: H160): U256
  {
    if q in r.tokens then r.tokens[q].BalanceOf(holder) else 0
  }

  /** Every invariant of the bridge and of the registry it mints through. */
  ghost predicate Sound(b: BridgeState, r: RegistryState)
  {
    b.Valid() && r.Valid() && Linked(b, r)
  }

  /**
   * The minting half of `bridge_from_ethereum`, once `ethToken` maps to
   * `q`: the token's own owner mints the net amount to the user, then the
   * gross amount is locked and the record kept. A refused mint changes
   * nothing.
   */
  function MintAndLock(b: BridgeState, r: RegistryState, ethToken: H160, q: H160, user: H160,
                       amount: U256, ethTxHash: H256, confirmations: u64, id: H256, now: u64)
    : (o: BridgeOutcome)
    requires ethToken in b.ethToQora && b.ethToQora[ethToken] == q
    ensures o.result.Err? ==> o.bridge == b && o.registry == r
    ensures o.result.Ok? ==>
              o.result.value == q
              && o.bridge.ethToQora == b.ethToQora && o.bridge.qoraToEth == b.qoraToEth
              && o.registry.nextContractId == r.nextContractId
              && Credited(b, r, o.bridge, o.registry, ethToken, q, user, false,
                          amount, confirmations, id)
    ensures Sound(b, r) ==> Sound(o.bridge, o.registry)
  {
    var fee := BridgeFee(amount, b.feeBp);
    var net := NetAmount(amount, b.feeBp);
    var m := TokenOpSpec(r, OwnerOf(r, q, user), QRC20Transaction.Mint(q, user, net));
    if m.result.Err? then BridgeOutcome(b, r, Err(m.result.error))
    else
      LockKeepsValid(b, ethToken, q, amount, net);
      BridgeOutcome(Lock(b, ethToken, q, user, amount, fee, net, ethTxHash, confirmations, id, now),
                    m.registry, Ok(q))
  }

  /**
   * The deploying half of `bridge_from_ethereum` for an external token
   * seen for the first time: "Bridged X" / "bX" is deployed with zero
   * supply, owned by the user, mintable and uncapped, and the pair is
   * mapped both ways. A refused deploy changes nothing.
   */
  function DeployWrapped(b: BridgeState, r: RegistryState, ethToken: H160, user: H160,
                         tokenName: string, tokenSymbol: string, decimals: byte)
    : (o: BridgeOutcome)
    requires ethToken !in b.ethToQora
    requires r.CanDeploy(BridgedName(tokenName), BridgedSymbol(tokenSymbol))
    ensures o.result.Err? ==> o.bridge == b && o.registry == r
    ensures o.result.Ok? ==>
              var q := o.result.value;
              q == ContractAddress(r.nextContractId)
              && o.bridge == b.(ethToQora := b.ethToQora[ethToken := q],
                                qoraToEth := b.qoraToEth[q := ethToken])
              && q in o.registry.tokens
              && var t := o.registry.tokens[q];
              t.name == BridgedName(tokenName) && t.symbol == BridgedSymbol(tokenSymbol)
              && t.owner == user && t.mintable && !t.paused && t.maxSupply == 0
              && t.totalSupply == 0 && o.registry.tokens - {q} == r.tokens - {q}
    ensures o.result.Ok? ==>
              forall a :: o.registry.tokens[o.result.value].BalanceOf(a) == 0
    ensures Sound(b, r) ==> Sound(o.bridge, o.registry)
  {
    var d := DeployDefaultSpec(r, user, BridgedName(tokenName), BridgedSymbol(tokenSymbol),
                               decimals, 0);
    if d.result.Err? then BridgeOutcome(b, r, Err(d.result.error))
    else
      var q := d.result.value;
      MapPairKeepsValid(b, ethToken, q, r);
      BridgeOutcome(b.(ethToQora := b.ethToQora[ethToken := q],
                       qoraToEth := b.qoraToEth[q := ethToken]),
                    d.registry, Ok(q))
  }

  /**
   * `bridge_from_ethereum`: an amount that is all fee is refused; a mapped
   * external token mints into its wrapped token, an unmapped one is first
   * given a new wrapped token. Every error leaves both the bridge and the
   * registry as they were, and the bridge stays backed.
   */
  function BridgeFromSpec(b: BridgeState, r: RegistryState, ethToken: H160, user: H160,
                          amount: U256, tokenName: string, tokenSymbol: string, decimals: byte,
                          ethTxHash: H256, confirmations: u64, id: H256, now: u64)
    : (o: BridgeOutcome)
    requires NetAmount(amount, b.feeBp) == 0 || ethToken in b.ethToQora
             || r.CanDeploy(BridgedName(tokenName), BridgedSymbol(tokenSymbol))
    ensures NetAmount(amount, b.feeBp) == 0 ==>
              o == BridgeOutcome(b, r, Err(EVMExecutionFailed("Amount too small after fees")))
    ensures o.result.Err? ==> o.bridge == b && o.registry == r
    ensures o.result.Ok? ==>
              0 < NetAmount(amount, b.feeBp)
              && Credited(b, r, o.bridge, o.registry, ethToken, o.result.value, user,
                          ethToken !in b.ethToQora, amount, confirmations, id)
    ensures o.result.Ok? && ethToken in b.ethToQora ==>
              o.bridge.ethToQora == b.ethToQora && o.bridge.qoraToEth == b.qoraToEth
    ensures o.result.Ok? && ethToken !in b.ethToQora ==>
              o.result.value == ContractAddress(r.nextContractId)
              && o.bridge.ethToQora == b.ethToQora[ethToken := o.result.value]
              && o.bridge.qoraToEth == b.qoraToEth[o.result.value := ethToken]
              && o.registry.tokens[o.result.value].totalSupply == NetAmount(amount, b.feeBp)
    ensures Sound(b, r) ==> Sound(o.bridge, o.registry)
  {
    if NetAmount(amount, b.feeBp) == 0 then
      BridgeOutcome(b, r, Err(EVMExecutionFailed("Amount too small after fees")))
    else if ethToken in b.ethToQora then
      MintAndLock(b, r, ethToken, b.ethToQora[ethToken], user, amount, ethTxHash, confirmations,
                  id, now)
    else
      DeployThenMint(b, r, ethToken, user, amount, tokenName, tokenSymbol, decimals, ethTxHash,
                     confirmations, id, now)
  }

  /** The branch of `bridge_from_ethereum` for an external token seen for the first time. */
  function DeployThenMint(b: BridgeState, r: RegistryState, ethToken: H160, user: H160,
                          amount: U256, tokenName: string, tokenSymbol: string, decimals: byte,
                          ethTxHash: H256, confirmations: u64, id: H256, now: u64)
    : (o: BridgeOutcome)
    requires 0 < NetAmount(amount, b.feeBp) && ethToken !in b.ethToQora
    requires r.CanDeploy(BridgedName(tokenName), BridgedSymbol(tokenSymbol))
    ensures o.result.Err? ==> o.bridge == b && o.registry == r
    ensures o.result.Ok? ==>
              Credited(b, r, o.bridge, o.registry, ethToken, o.result.value, user, true, amount,
                       confirmations, id)
              && o.result.value == ContractAddress(r.nextContractId)
              && o.bridge.ethToQora == b.ethToQora[ethToken := o.result.value]
              && o.bridge.qoraToEth == b.qoraToEth[o.result.value := ethToken]
              && o.registry.tokens[o.result.value].totalSupply == NetAmount(amount, b.feeBp)
    ensures Sound(b, r) ==> Sound(o.bridge, o.registry)
  {
    var d := DeployWrapped(b, r, ethToken, user, tokenName, tokenSymbol, decimals);
    if d.result.Err? then d
    else
      FreshWrappedMint(b, r, d.bridge, d.registry, ethToken, d.result.value, user, amount,
                       ethTxHash, confirmations, id, now);
      MintAndLock(d.bridge, d.registry, ethToken, d.result.value, user, amount, ethTxHash,
                  confirmations, id, now)
  }

  /**
   * Minting into a wrapped token just deployed cannot fail: its owner is
   * the user, it is mintable, unpaused and uncapped. The user ends up with
   * the net amount, which is also the token's whole supply.
   */
  lemma FreshWrappedMint(b: BridgeState, r: RegistryState, b': BridgeState, r': RegistryState,
                         ethToken: H160, q: H160, user: H160, amount: U256, ethTxHash: H256,
                         confirmations: u64, id: H256, now: u64)
    requires 0 < NetAmount(amount, b.feeBp)
    requires b' == b.(ethToQora := b.ethToQora[ethToken := q], qoraToEth := b.qoraToEth[q := ethToken])
    requires q in r'.tokens && r'.tokens - {q} == r.tokens - {q}
    requires var t := r'.tokens[q];
             t.owner == user && t.mintable && !t.paused && t.maxSupply == 0
             && t.totalSupply == 0
    requires forall a :: r'.tokens[q].BalanceOf(a) == 0
    ensures var o := MintAndLock(b', r', ethToken, q, user, amount, ethTxHash, confirmations, id, now);
            o.result.Ok?
            && o.bridge.ethToQora == b'.ethToQora && o.bridge.qoraToEth == b'.qoraToEth
            && Credited(b, r, o.bridge, o.registry, ethToken, q, user, true, amount, confirmations, id)
            && o.registry.tokens[q].totalSupply == NetAmount(amount, b.feeBp)
  {
    assert MintSpec(r'.tokens[q], user, user, NetAmount(amount, b.feeBp)).result.Ok?;
  }

  /** Mapping a fresh pair keeps the mappings inverse and the counters backed. */
  lemma MapPairKeepsValid(b: BridgeState, e: H160, q: H160, r: RegistryState)
    requires e !in b.ethToQora && ContractId(q) == r.nextContractId
    ensures b.Valid() && Linked(b, r) ==>
              q !in b.qoraToEth
              && b.(ethToQora := b.ethToQora[e := q], qoraToEth := b.qoraToEth[q := e]).Valid()
  {
    if b.Valid() && Linked(b, r) {
      assert q !in b.qoraToEth;
      var b' := b.(ethToQora := b.ethToQora[e := q], qoraToEth := b.qoraToEth[q := e]);
      assert b'.Inverse();
      assert b'.Backed() by {
        forall q' | q' in b'.qoraToEth
          ensures Get(b'.mintedQora, q') <= Get(b'.lockedEth, b'.qoraToEth[q'])
        {
          if q' == q {
            assert q !in b.mintedQora;
          }
        }
      }
    }
  }

  /** Locking `amount` against `net <= amount` newly minted keeps every pair backed. */
  lemma LockKeepsValid(b: BridgeState, e: H160, q: H160, amount: U256, net: U256)
    requires e in b.ethToQora && b.ethToQora[e] == q && net <= amount
    ensures forall ethTxHash, confirmations, id, now, user, fee ::
              b.Valid() ==> Lock(b, e, q, user, amount, fee, net, ethTxHash, confirmations, id, now).Valid()
  {
    if b.Valid() {
      forall ethTxHash, confirmations, id, now, user, fee
        ensures Lock(b, e, q, user, amount, fee, net, ethTxHash, confirmations, id, now).Valid()
      {
        var b' := Lock(b, e, q, user, amount, fee, net, ethTxHash, confirmations, id, now);
        assert b'.Backed() by {
          forall q' | q' in b'.qoraToEth
            ensures Get(b'.mintedQora, q') <= Get(b'.lockedEth, b'.qoraToEth[q'])
          {
            if q' != q {
              assert b.qoraToEth[q'] != e;
            }
          }
        }
      }
    }
  }

  /** `U256::saturating_sub`. */
  function SaturatingSub(a: U256, b: U256): (d: U256)
    ensures d == if b <= a then a - b else 0
  {
    if b <= a then a - b else 0
  }

  /** What `bridge_to_ethereum` records and counts once the wrapped tokens are burned. */
  function Release(b: BridgeState, e: H160, q: H160, user: H160, amount: U256, fee: U256,
                   net: U256, id: H256, qoraTxHash: H256, now: u64)
    : (b': BridgeState)
    requires net <= Get(b.lockedEth, e)
    ensures SameConfig(b, b') && b'.ethToQora == b.ethToQora && b'.qoraToEth == b.qoraToEth
    ensures Get(b'.lockedEth, e) == Get(b.lockedEth, e) - net
    ensures Get(b'.mintedQora, q) == SaturatingSub(Get(b.mintedQora, q), amount)
    ensures id in b'.transactions && b'.transactions[id].status == Pending
    ensures b'.transactions[id].feePaid == fee
    ensures OthersKept(b, b', e, q, id)
  {
    var locked := Get(b.lockedEth, e) - net;
    var minted := SaturatingSub(Get(b.mintedQora, q), amount);
    var record := BridgeTransaction(
      id, None, Some(qoraTxHash), user, e, q, amount, QoraNetToEthereum, Pending, 0, now, fee);
    OverwriteThenRemove(b.lockedEth, e, locked);
    OverwriteThenRemove(b.mintedQora, q, minted);
    OverwriteThenRemove(b.transactions, id, record);
    b.(lockedEth := b.lockedEth[e := locked],
       mintedQora := b.mintedQora[q := minted],
       transactions := b.transactions[id := record])
  }

  /**
   * `bridge_to_ethereum`: the token must be a wrapped one, the amount more
   * than its fee, the token known and the user's balance enough; the
   * gross amount is burned, then the net amount is released from the lock
   * and the gross amount taken off the minted counter (saturating), and a
   * Pending record kept. As written, the burn is not undone when too
   * little is locked: that error leaves the bridge unchanged but the
   * tokens burned.
   */
  function BridgeToSpec(b: BridgeState, r: RegistryState, q: H160, user: H160, amount: U256,
                        id: H256, qoraTxHash: H256, now: u64)
    : (o: BridgeOutcome)
    ensures q !in b.qoraToEth ==>
              o == BridgeOutcome(b, r, Err(EVMExecutionFailed("Token is not bridged from Ethereum")))
    ensures q in b.qoraToEth && NetAmount(amount, b.feeBp) == 0 ==>
              o == BridgeOutcome(b, r, Err(EVMExecutionFailed("Amount too small after fees")))
    ensures q in b.qoraToEth && 0 < NetAmount(amount, b.feeBp) && q !in r.tokens ==>
              o == BridgeOutcome(b, r, Err(TokenNotFound))
    ensures q in b.qoraToEth && 0 < NetAmount(amount, b.feeBp) && q in r.tokens
            && r.tokens[q].BalanceOf(user) < amount ==>
              o == BridgeOutcome(b, r, Err(InsufficientBalance(amount, r.tokens[q].BalanceOf(user))))
    ensures o.bridge != b ==> o.result.Ok?
    ensures o.result.Err? && o.registry != r ==>
              o.result == Err(EVMExecutionFailed("Insufficient locked tokens"))
              && o.registry == TokenOpSpec(r, user, QRC20Transaction.Burn(q, amount)).registry
    ensures o.result.Ok? ==>
              var e := o.result.value;
              var net := NetAmount(amount, b.feeBp);
              q in b.qoraToEth && b.qoraToEth[q] == e
              && SameConfig(b, o.bridge)
              && net <= Get(b.lockedEth, e)
              && Get(o.bridge.lockedEth, e) == Get(b.lockedEth, e) - net
              && Get(o.bridge.mintedQora, q) == SaturatingSub(Get(b.mintedQora, q), amount)
              && o.bridge.ethToQora == b.ethToQora && o.bridge.qoraToEth == b.qoraToEth
              && OthersKept(b, o.bridge, e, q, id)
              && o.registry == TokenOpSpec(r, user, QRC20Transaction.Burn(q, amount)).registry
              && id in o.bridge.transactions
              && o.bridge.transactions[id].status == Pending
              && o.bridge.transactions[id].feePaid == BridgeFee(amount, b.feeBp)
    ensures Sound(b, r) ==> Sound(o.bridge, o.registry)
  {
    if q !in b.qoraToEth then
      BridgeOutcome(b, r, Err(EVMExecutionFailed("Token is not bridged from Ethereum")))
    else
      var e := b.qoraToEth[q];
      var fee := BridgeFee(amount, b.feeBp);
      var net := NetAmount(amount, b.feeBp);
      if net == 0 then BridgeOutcome(b, r, Err(EVMExecutionFailed("Amount too small after fees")))
      else if q !in r.tokens then BridgeOutcome(b, r, Err(TokenNotFound))
      else if r.tokens[q].BalanceOf(user) < amount then
        BridgeOutcome(b, r, Err(InsufficientBalance(amount, r.tokens[q].BalanceOf(user))))
      else BurnAndRelease(b, r, q, user, amount, id, qoraTxHash, now)
  }

  /**
   * The burning half of `bridge_to_ethereum`: the user burns the gross
   * amount, then the net amount leaves the lock. When too little is
   * locked the burn has already happened.
   */
  function BurnAndRelease(b: BridgeState, r: RegistryState, q: H160, user: H160, amount: U256,
                          id: H256, qoraTxHash: H256, now: u64)
    : (o: BridgeOutcome)
    requires q in b.qoraToEth
    ensures o.bridge != b ==> o.result.Ok?
    ensures o.result.Err? && o.registry != r ==>
              o.result == Err(EVMExecutionFailed("Insufficient locked tokens"))
              && o.registry == TokenOpSpec(r, user, QRC20Transaction.Burn(q, amount)).registry
    ensures o.result.Ok? ==>
              var e := o.result.value;
              var net := NetAmount(amount, b.feeBp);
              b.qoraToEth[q] == e
              && SameConfig(b, o.bridge)
              && net <= Get(b.lockedEth, e)
              && Get(o.bridge.lockedEth, e) == Get(b.lockedEth, e) - net
              && Get(o.bridge.mintedQora, q) == SaturatingSub(Get(b.mintedQora, q), amount)
              && o.bridge.ethToQora == b.ethToQora && o.bridge.qoraToEth == b.qoraToEth
              && OthersKept(b, o.bridge, e, q, id)
              && o.registry == TokenOpSpec(r, user, QRC20Transaction.Burn(q, amount)).registry
              && id in o.bridge.transactions
              && o.bridge.transactions[id].status == Pending
              && o.bridge.transactions[id].feePaid == BridgeFee(amount, b.feeBp)
    ensures Sound(b, r) ==> Sound(o.bridge, o.registry)
  {
    var e := b.qoraToEth[q];
    var fee := BridgeFee(amount, b.feeBp);
    var net := NetAmount(amount, b.feeBp);
    var burned := TokenOpSpec(r, user, QRC20Transaction.Burn(q, amount));
    if burned.result.Err? then BridgeOutcome(b, r, Err(burned.result.error))
    else if Get(b.lockedEth, e) < net then
      BridgeOutcome(b, burned.registry, Err(EVMExecutionFailed("Insufficient locked tokens")))
    else
      ReleaseKeepsValid(b, e, q, amount, net);
      BridgeOutcome(Release(b, e, q, user, amount, fee, net, id, qoraTxHash, now),
                    burned.registry, Ok(e))
  }

  /** Releasing `net <= amount` while taking `amount` off the minted counter keeps every pair backed. */
  lemma ReleaseKeepsValid(b: BridgeState, e: H160, q: H160, amount: U256, net: U256)
    requires q in b.qoraToEth && b.qoraToEth[q] == e && net <= amount && net <= Get(b.lockedEth, e)
    ensures forall user, fee, id, qoraTxHash, now ::
              b.Valid() ==> Release(b, e, q, user, amount, fee, net, id, qoraTxHash, now).Valid()
  {
    if b.Valid() {
      forall user, fee, id, qoraTxHash, now
        ensures Release(b, e, q, user, amount, fee, net, id, qoraTxHash, now).Valid()
      {
        var b' := Release(b, e, q, user, amount, fee, net, id, qoraTxHash, now);
        assert e in b.ethToQora;
        assert b'.Backed() by {
          forall q' | q' in b'.qoraToEth
            ensures Get(b'.mintedQora, q') <= Get(b'.lockedEth, b'.qoraToEth[q'])
          {
            if q' != q {
              assert b.qoraToEth[q'] != e;
            }
          }
        }
      }
    }
  }

  /**
   * With 1000 locked at the default fee, bridging 500 back out releases
   * 498 (the fee of 2.5 rounds down to 2) and leaves 502 locked.
   */
  lemma ReleaseAtDefaultFee(b: BridgeState, r: RegistryState, q: H160, user: H160, id: H256,
                            qoraTxHash: H256, now: u64)
    requires q in b.qoraToEth && Get(b.lockedEth, b.qoraToEth[q]) == 1000
    requires b.feeBp == DEFAULT_FEE_BP
    ensures var o := BridgeToSpec(b, r, q, user, 500, id, qoraTxHash, now);
            o.result.Ok? ==> Get(o.bridge.lockedEth, b.qoraToEth[q]) == 502
  {
    DefaultFeeExamples();
  }

  // ---------------------------------------------------------------------
  // Operators, records and configuration

  predicate IsOperator(b: BridgeState, address: H160)
  {
    address in b.operators
  }

  /** The gate on operator management: an operator, the treasury, or anyone while it is zero. */
  predicate MayManageOperators(b: BridgeState, caller: H160)
  {
    IsOperator(b, caller) || b.treasury.IsZero() || caller == b.treasury
  }

  predicate NoDuplicates(s: seq<H160>)
  {
    forall i, j | 0 <= i < j < |s| :: s[i] != s[j]
  }

  /** The bridge after an operation with no value, and its result. */
  datatype Change = Change(bridge: BridgeState, result: QRC20Result<()>)

  /** `add_operator`: appended only if not already present. */
  function AddOperatorSpec(b: BridgeState, caller: H160, operator: H160): (c: Change)
    ensures c.result.Ok? <==> MayManageOperators(b, caller)
    ensures c.result.Err? ==> c == Change(b, Err(OnlyOwner))
    ensures c.result.Ok? ==>
              IsOperator(c.bridge, operator)
              && c.bridge == b.(operators := c.bridge.operators)
              && (IsOperator(b, operator) ==> c.bridge == b)
              && (!IsOperator(b, operator) ==> c.bridge.operators == b.operators + [operator])
    ensures NoDuplicates(b.operators) ==> NoDuplicates(c.bridge.operators)
  {
    if !MayManageOperators(b, caller) then Change(b, Err(OnlyOwner))
    else if operator in b.operators then Change(b, Ok(()))
    else Change(b.(operators := b.operators + [operator]), Ok(()))
  }

  /** `Vec::retain(|&op| op != x)`: every occurrence of `x` dropped, the rest in order. */
  function Without(s: seq<H160>, x: H160): (r: seq<H160>)
    ensures x !in r
    ensures forall y | y != x :: y in r <==> y in s
    ensures |r| <= |s|
  {
    if s == [] then []
    else
      var rest := Without(s[..|s| - 1], x);
      assert forall y :: y in s <==> y in s[..|s| - 1] || y == s[|s| - 1];
      if s[|s| - 1] == x then rest else rest + [s[|s| - 1]]
  }

  /** `remove_operator`: the same gate; removes every occurrence. */
  function RemoveOperatorSpec(b: BridgeState, caller: H160, operator: H160): (c: Change)
    ensures c.result.Ok? <==> MayManageOperators(b, caller)
    ensures c.result.Err? ==> c == Change(b, Err(OnlyOwner))
    ensures c.result.Ok? ==>
              !IsOperator(c.bridge, operator)
              && c.bridge == b.(operators := c.bridge.operators)
              && forall a | a != operator :: IsOperator(c.bridge, a) <==> IsOperator(b, a)
  {
    if !MayManageOperators(b, caller) then Change(b, Err(OnlyOwner))
    else Change(b.(operators := Without(b.operators, operator)), Ok(()))
  }

  /**
   * Whoever may manage operators can add one and remove it again; the
   * removal leaves every other operator as it was.
   */
  lemma AddThenRemoveOperator(b: BridgeState, caller: H160, operator: H160)
    requires MayManageOperators(b, caller)
    ensures var added := AddOperatorSpec(b, caller, operator);
            added.result.Ok? && IsOperator(added.bridge, operator)
            && var removed := RemoveOperatorSpec(added.bridge, caller, operator);
            removed.result.Ok? && !IsOperator(removed.bridge, operator)
            && forall a | a != operator :: IsOperator(removed.bridge, a) <==> IsOperator(b, a)
  {
    var added := AddOperatorSpec(b, caller, operator);
    assert MayManageOperators(added.bridge, caller) by {
      if IsOperator(b, caller) {
        assert caller in added.bridge.operators;
      }
    }
  }

  /**
   * `update_transaction_status`: operators only, and the record must
   * exist; the status is replaced and the hash and confirmations only when
   * given.
   */
  function UpdateStatusSpec(b: BridgeState, caller: H160, id: H256, status: BridgeStatus,
                            ethTxHash: Option<H256>, confirmations: Option<u64>)
    : (c: Change)
    ensures !IsOperator(b, caller) ==> c == Change(b, Err(OnlyOwner))
    ensures IsOperator(b, caller) && id !in b.transactions ==>
              c == Change(b, Err(EVMExecutionFailed("Bridge transaction not found")))
    ensures c.result.Ok? <==> IsOperator(b, caller) && id in b.transactions
    ensures c.result.Ok? ==>
              var old_ := b.transactions[id];
              id in c.bridge.transactions
              && c.bridge == b.(transactions := b.transactions[id := c.bridge.transactions[id]])
              && c.bridge.transactions[id] ==
                   old_.(status := status,
                         ethTxHash := if ethTxHash.Some? then ethTxHash else old_.ethTxHash,
                         confirmations := confirmations.UnwrapOr(old_.confirmations))
  {
    if !IsOperator(b, caller) then Change(b, Err(OnlyOwner))
    else if id !in b.transactions then
      Change(b, Err(EVMExecutionFailed("Bridge transaction not found")))
    else
      var tx := b.transactions[id];
      var updated := tx.(status := status,
                         ethTxHash := if ethTxHash.Some? then ethTxHash else tx.ethTxHash,
                         confirmations := confirmations.UnwrapOr(tx.confirmations));
      Change(b.(transactions := b.transactions[id := updated]), Ok(()))
  }

  /**
   * `set_config`: the treasury (or anyone while it is zero) may change the
   * confirmations, the fee (at most 1000 bp) and the treasury, in that
   * order. As written, a fee that is too high is refused only after the
   * new confirmation count has been stored.
   */
  function SetConfigSpec(b: BridgeState, caller: H160, minConfirmations: Option<u64>,
                         feeBp: Option<u16>, treasury: Option<H160>)
    : (c: Change)
    ensures !b.treasury.IsZero() && caller != b.treasury ==> c == Change(b, Err(OnlyOwner))
    ensures c.result.Ok? <==>
              (b.treasury.IsZero() || caller == b.treasury)
              && (feeBp.None? || feeBp.value <= MAX_CONFIG_FEE_BP)
    ensures (b.treasury.IsZero() || caller == b.treasury) && feeBp.Some?
            && feeBp.value > MAX_CONFIG_FEE_BP ==>
              c == Change(b.(minConfirmations := minConfirmations.UnwrapOr(b.minConfirmations)),
                          Err(EVMExecutionFailed("Bridge fee too high")))
    ensures c.result.Ok? ==>
              c.bridge == b.(minConfirmations := minConfirmations.UnwrapOr(b.minConfirmations),
                             feeBp := feeBp.UnwrapOr(b.feeBp),
                             treasury := treasury.UnwrapOr(b.treasury))
    ensures c.bridge == b.(minConfirmations := c.bridge.minConfirmations, feeBp := c.bridge.feeBp,
                           treasury := c.bridge.treasury)
  {
    if !b.treasury.IsZero() && caller != b.treasury then Change(b, Err(OnlyOwner))
    else
      var b1 := if minConfirmations.Some? then b.(minConfirmations := minConfirmations.value) else b;
      if feeBp.Some? && feeBp.value > MAX_CONFIG_FEE_BP then
        Change(b1, Err(EVMExecutionFailed("Bridge fee too high")))
      else
        var b2 := if feeBp.Some? then b1.(feeBp := feeBp.value) else b1;
        var b3 := if treasury.Some? then b2.(treasury := treasury.value) else b2;
        Change(b3, Ok(()))
  }

  function Cancel(tx: BridgeTransaction): BridgeTransaction
  {
    if tx.status == Pending then tx.(status := Cancelled) else tx
  }

  /** Every Pending record becomes Cancelled; every other record is untouched. */
  function CancelPending(m: map<H256, BridgeTransaction>): (r: map<H256, BridgeTransaction>)
    ensures r.Keys == m.Keys
    ensures forall id | id in m ::
              (m[id].status == Pending ==> r[id] == m[id].(status := Cancelled))
              && (m[id].status != Pending ==> r[id] == m[id])
  {
    map id | id in m :: Cancel(m[id])
  }

  /** `emergency_pause`: an operator or the treasury cancels every pending record. */
  function EmergencyPauseSpec(b: BridgeState, caller: H160): (c: Change)
    ensures c.result.Ok? <==> IsOperator(b, caller) || caller == b.treasury
    ensures c.result.Err? ==> c == Change(b, Err(OnlyOwner))
    ensures c.result.Ok? ==>
              c.bridge == b.(transactions := CancelPending(b.transactions))
              && StatusIds(c.bridge.transactions, Pending) == {}
  {
    if !IsOperator(b, caller) && caller != b.treasury then Change(b, Err(OnlyOwner))
    else Change(b.(transactions := CancelPending(b.transactions)), Ok(()))
  }

  // ---------------------------------------------------------------------
  // Statistics

  function StatusIds(m: map<H256, BridgeTransaction>, status: BridgeStatus): set<H256>
  {
    set id | id in m && m[id].status == status
  }

  datatype BridgeStats = BridgeStats(
    totalLocked: U256,
    totalMinted: U256,
    totalTransactions: nat,
    completedTransactions: nat,
    pendingTransactions: nat,
    failedTransactions: nat,
    totalVolume: U256,
    totalFees: U256,
    uniqueTokens: nat)

  /** `get_bridge_stats`. */
  ghost function Stats(b: BridgeState): BridgeStats
  {
    BridgeStats(
      Total(b.lockedEth),
      Total(b.mintedQora),
      |b.transactions|,
      |StatusIds(b.transactions, Completed)|,
      |StatusIds(b.transactions, Pending)|,
      |StatusIds(b.transactions, Failed)|,
      Total(map id | id in b.transactions :: b.transactions[id].amount),
      Total(map id | id in b.transactions :: b.transactions[id].feePaid),
      |b.ethToQora|)
  }

  lemma {:induction false} SubsetCardinality(a: set<H256>, b: set<H256>)
    requires a <= b
    ensures |a| <= |b|
    decreases |a|
  {
    if a != {} {
      var x :| x in a;
      SubsetCardinality(a - {x}, b - {x});
    }
  }

  /** The three counted statuses never outnumber the records. */
  lemma StatusCountsBounded(b: BridgeState)
    ensures var s := Stats(b);
            s.completedTransactions + s.pendingTransactions + s.failedTransactions
              <= s.totalTransactions
  {
    var m := b.transactions;
    var c, p, f := StatusIds(m, Completed), StatusIds(m, Pending), StatusIds(m, Failed);
    assert c * p == {} && (c + p) * f == {};
    assert |c + p| == |c| + |p|;
    assert |c + p + f| == |c + p| + |f|;
    SubsetCardinality(c + p + f, m.Keys);
  }

  /**
   * Wrapped supply never exceeds what is locked: summed over all tokens,
   * the minted counters stay below the locked ones.
   */
  lemma {:induction false} MintedWithinLocked(minted: map<H160, U256>, locked: map<H160, U256>,
                                              qoraToEth: map<H160, H160>)
    requires minted.Keys <= qoraToEth.Keys
    requires forall q, q' | q in qoraToEth && q' in qoraToEth && q != q' :: qoraToEth[q] != qoraToEth[q']
    requires forall q | q in qoraToEth :: Get(minted, q) <= Get(locked, qoraToEth[q])
    ensures Total(minted) <= Total(locked)
    decreases minted.Keys
  {
    if minted != map[] {
      var q := Pick(minted.Keys);
      var e := qoraToEth[q];
      assert minted[q] <= Get(locked, e);
      TotalRemove(minted, q);
      TotalDelete(locked, e);
      PairRemovedKeepsBound(minted, locked, qoraToEth, q);
      MintedWithinLocked(minted - {q}, locked - {e}, qoraToEth - {q});
    }
  }

  /** Removing one wrapped token together with its origin keeps the per-token bound. */
  lemma PairRemovedKeepsBound(minted: map<H160, U256>, locked: map<H160, U256>,
                              qoraToEth: map<H160, H160>, q: H160)
    requires q in minted && minted.Keys <= qoraToEth.Keys
    requires forall q, q' | q in qoraToEth && q' in qoraToEth && q != q' :: qoraToEth[q] != qoraToEth[q']
    requires forall q | q in qoraToEth :: Get(minted, q) <= Get(locked, qoraToEth[q])
    ensures (minted - {q}).Keys < minted.Keys
    ensures (minted - {q}).Keys <= (qoraToEth - {q}).Keys
    ensures forall q1, q2 | q1 in qoraToEth - {q} && q2 in qoraToEth - {q} && q1 != q2 ::
      (qoraToEth - {q})[q1] != (qoraToEth - {q})[q2]
    ensures forall q' | q' in qoraToEth - {q} ::
      Get(minted - {q}, q') <= Get(locked - {qoraToEth[q]}, (qoraToEth - {q})[q'])
  {
    var e := qoraToEth[q];
    forall q' | q' in qoraToEth - {q}
      ensures Get(minted - {q}, q') <= Get(locked - {e}, (qoraToEth - {q})[q'])
    {
      assert (qoraToEth - {q})[q'] == qoraToEth[q'] != e;
      assert Get(minted - {q}, q') == Get(minted, q');
      assert Get(locked - {e}, qoraToEth[q']) == Get(locked, qoraToEth[q']);
    }
  }

  lemma StatsMintedWithinLocked(b: BridgeState)
    requires b.Valid()
    ensures Stats(b).totalMinted <= Stats(b).totalLocked
  {
    MintedWithinLocked(b.mintedQora, b.lockedEth, b.qoraToEth);
  }

  // ---------------------------------------------------------------------
  // The bridge object

  class ERC20Bridge {
    var ethToQora: map<H160, H160>
    var qoraToEth: map<H160, H160>
    var lockedEth: map<H160, U256>
    var mintedQora: map<H160, U256>
    var transactions: map<H256, BridgeTransaction>
    var operators: seq<H160>
    var minConfirmations: u64
    var bridgeFeeBp: u16
    var treasury: H160

    function State(): BridgeState
      reads this
    {
      BridgeState(ethToQora, qoraToEth, lockedEth, mintedQora, transactions, operators,
                  minConfirmations, bridgeFeeBp, treasury)
    }

    constructor ()
      ensures State() == NewBridge()
    {
      ethToQora := map[];
      qoraToEth := map[];
      lockedEth := map[];
      mintedQora := map[];
      transactions := map[];
      operators := [];
      minConfirmations := DEFAULT_MIN_CONFIRMATIONS;
      bridgeFeeBp := DEFAULT_FEE_BP;
      treasury := H160.Zero();
    }

    constructor WithConfig(operators: seq<H160>, minConfirmations: u64, bridgeFeeBp: u16,
                           treasury: H160)
      ensures State() == NewBridgeWithConfig(operators, minConfirmations, bridgeFeeBp, treasury)
    {
      ethToQora := map[];
      qoraToEth := map[];
      lockedEth := map[];
      mintedQora := map[];
      transactions := map[];
      this.operators := operators;
      this.minConfirmations := minConfirmations;
      this.bridgeFeeBp := bridgeFeeBp;
      this.treasury := treasury;
    }

    method BridgeFromEthereum(registry: QRC20Registry, ethToken: H160, user: H160, amount: U256,
                              tokenName: string, tokenSymbol: string, decimals: byte,
                              ethTxHash: H256, confirmations: u64, id: H256, now: u64)
      returns (r: QRC20Result<H160>)
      requires registry.Valid()
      requires NetAmount(amount, bridgeFeeBp) == 0 || ethToken in ethToQora
               || registry.State().CanDeploy(BridgedName(tokenName), BridgedSymbol(tokenSymbol))
      modifies this`ethToQora, this`qoraToEth, this`lockedEth, this`mintedQora, this`transactions
      modifies registry`tokens, registry`symbolToAddress, registry`nameToAddress,
               registry`nextContractId
      ensures BridgeOutcome(State(), registry.State(), r) ==
                BridgeFromSpec(old(State()), old(registry.State()), ethToken, user, amount,
                               tokenName, tokenSymbol, decimals, ethTxHash, confirmations, id, now)
      ensures registry.Valid()
    {
      var net := NetAmount(amount, bridgeFeeBp);
      if net == 0 {
        return Err(EVMExecutionFailed("Amount too small after fees"));
      }
      if ethToken in ethToQora {
        r := MintAndRecord(registry, ethToken, ethToQora[ethToken], user, amount, ethTxHash,
                           confirmations, id, now);
      } else {
        r := DeployWrappedToken(registry, ethToken, user, tokenName, tokenSymbol, decimals);
        if r.Ok? {
          r := MintAndRecord(registry, ethToken, r.value, user, amount, ethTxHash, confirmations,
                             id, now);
        }
      }
    }

    /** The deploying half of `bridge_from_ethereum`. */
    method DeployWrappedToken(registry: QRC20Registry, ethToken: H160, user: H160,
                              tokenName: string, tokenSymbol: string, decimals: byte)
      returns (r: QRC20Result<H160>)
      requires ethToken !in ethToQora
      requires registry.State().CanDeploy(BridgedName(tokenName), BridgedSymbol(tokenSymbol))
      modifies this`ethToQora, this`qoraToEth
      modifies registry`tokens, registry`symbolToAddress, registry`nameToAddress,
               registry`nextContractId
      ensures BridgeOutcome(State(), registry.State(), r) ==
                DeployWrapped(old(State()), old(registry.State()), ethToken, user, tokenName,
                              tokenSymbol, decimals)
      ensures old(registry.Valid()) ==> registry.Valid()
    {
      r := registry.DeployToken(user, BridgedName(tokenName), BridgedSymbol(tokenSymbol), decimals, 0);
      assert old(registry.Valid()) ==> registry.Valid();
      if r.Ok? {
        ethToQora := ethToQora[ethToken := r.value];
        qoraToEth := qoraToEth[r.value := ethToken];
      }
    }

    /** The minting half of `bridge_from_ethereum`. */
    method MintAndRecord(registry: QRC20Registry, ethToken: H160, qoraToken: H160, user: H160,
                         amount: U256, ethTxHash: H256, confirmations: u64, id: H256, now: u64)
      returns (r: QRC20Result<H160>)
      requires registry.Valid()
      requires ethToken in ethToQora && ethToQora[ethToken] == qoraToken
      modifies this`lockedEth, this`mintedQora, this`transactions
      modifies registry`tokens, registry`symbolToAddress, registry`nameToAddress,
               registry`nextContractId
      ensures BridgeOutcome(State(), registry.State(), r) ==
                MintAndLock(old(State()), old(registry.State()), ethToken, qoraToken, user, amount,
                            ethTxHash, confirmations, id, now)
      ensures registry.Valid()
    {
      var fee := BridgeFee(amount, bridgeFeeBp);
      var net := NetAmount(amount, bridgeFeeBp);
      var owner := OwnerOf(registry.State(), qoraToken, user);
      var minted := registry.ExecuteTransaction(owner, QRC20Transaction.Mint(qoraToken, user, net));
      if minted.Err? {
        return Err(minted.error);
      }
      RecordLock(ethToken, qoraToken, user, amount, fee, net, ethTxHash, confirmations, id, now);
      r := Ok(qoraToken);
    }

    /** The bookkeeping that ends `bridge_from_ethereum`. */
    method RecordLock(ethToken: H160, qoraToken: H160, user: H160, amount: U256, fee: U256,
                      net: U256, ethTxHash: H256, confirmations: u64, id: H256, now: u64)
      modifies this`lockedEth, this`mintedQora, this`transactions
      ensures State() == Lock(old(State()), ethToken, qoraToken, user, amount, fee, net, ethTxHash,
                              confirmations, id, now)
    {
      lockedEth := lockedEth[ethToken := Get(lockedEth, ethToken) + amount];
      mintedQora := mintedQora[qoraToken := Get(mintedQora, qoraToken) + net];
      var status := if confirmations >= minConfirmations then Completed else Confirmed;
      transactions := transactions[id := BridgeTransaction(
        id, Some(ethTxHash), None, user, ethToken, qoraToken, amount, EthereumToQoraNet, status,
        confirmations, now, fee)];
    }

    method BridgeToEthereum(registry: QRC20Registry, qoraToken: H160, user: H160, amount: U256,
                            id: H256, qoraTxHash: H256, now: u64)
      returns (r: QRC20Result<H160>)
      requires registry.Valid()
      modifies this`lockedEth, this`mintedQora, this`transactions
      modifies registry`tokens, registry`symbolToAddress, registry`nameToAddress,
               registry`nextContractId
      ensures BridgeOutcome(State(), registry.State(), r) ==
                BridgeToSpec(old(State()), old(registry.State()), qoraToken, user, amount, id,
                             qoraTxHash, now)
      ensures registry.Valid()
    {
      if qoraToken !in qoraToEth {
        return Err(EVMExecutionFailed("Token is not bridged from Ethereum"));
      }
      var net := NetAmount(amount, bridgeFeeBp);
      if net == 0 {
        return Err(EVMExecutionFailed("Amount too small after fees"));
      }
      if qoraToken !in registry.tokens {
        return Err(TokenNotFound);
      }
      var balance := registry.tokens[qoraToken].BalanceOf(user);
      if balance < amount {
        return Err(InsufficientBalance(amount, balance));
      }
      r := BurnAndRecord(registry, qoraToken, user, amount, id, qoraTxHash, now);
    }

    /** The burning half of `bridge_to_ethereum`. */
    method BurnAndRecord(registry: QRC20Registry, qoraToken: H160, user: H160, amount: U256,
                         id: H256, qoraTxHash: H256, now: u64)
      returns (r: QRC20Result<H160>)
      requires registry.Valid()
      requires qoraToken in qoraToEth
      modifies this`lockedEth, this`mintedQora, this`transactions
      modifies registry`tokens, registry`symbolToAddress, registry`nameToAddress,
               registry`nextContractId
      ensures BridgeOutcome(State(), registry.State(), r) ==
                BurnAndRelease(old(State()), old(registry.State()), qoraToken, user, amount, id,
                               qoraTxHash, now)
      ensures registry.Valid()
    {
      var ethToken := qoraToEth[qoraToken];
      var fee := BridgeFee(amount, bridgeFeeBp);
      var net := NetAmount(amount, bridgeFeeBp);
      var burned := registry.ExecuteTransaction(user, QRC20Transaction.Burn(qoraToken, amount));
      if burned.Err? {
        return Err(burned.error);
      }
      var locked := Get(lockedEth, ethToken);
      if locked < net {
        return Err(EVMExecutionFailed("Insufficient locked tokens"));
      }
      RecordRelease(ethToken, qoraToken, user, amount, fee, net, id, qoraTxHash, now);
      r := Ok(ethToken);
    }

    /** The bookkeeping that ends `bridge_to_ethereum`. */
    method RecordRelease(ethToken: H160, qoraToken: H160, user: H160, amount: U256, fee: U256,
                         net: U256, id: H256, qoraTxHash: H256, now: u64)
      requires net <= Get(lockedEth, ethToken)
      modifies this`lockedEth, this`mintedQora, this`transactions
      ensures State() == Release(old(State()), ethToken, qoraToken, user, amount, fee, net, id,
                                 qoraTxHash, now)
    {
      lockedEth := lockedEth[ethToken := Get(lockedEth, ethToken) - net];
      mintedQora := mintedQora[qoraToken := SaturatingSub(Get(mintedQora, qoraToken), amount)];
      transactions := transactions[id := BridgeTransaction(
        id, None, Some(qoraTxHash), user, ethToken, qoraToken, amount, QoraNetToEthereum, Pending,
        0, now, fee)];
    }

    method AddOperator(caller: H160, operator: H160) returns (r: QRC20Result<()>)
      modifies this`operators
      ensures Change(State(), r) == AddOperatorSpec(old(State()), caller, operator)
    {
      if caller !in operators && !treasury.IsZero() && caller != treasury {
        return Err(OnlyOwner);
      }
      if operator !in operators {
        operators := operators + [operator];
      }
      r := Ok(());
    }

    /** `retain` as a loop that keeps every entry other than `operator`, in order. */
    method RemoveOperator(caller: H160, operator: H160) returns (r: QRC20Result<()>)
      modifies this`operators
      ensures Change(State(), r) == RemoveOperatorSpec(old(State()), caller, operator)
    {
      if caller !in operators && !treasury.IsZero() && caller != treasury {
        return Err(OnlyOwner);
      }
      var kept := [];
      var i := 0;
      while i < |operators|
        invariant 0 <= i <= |operators|
        invariant kept == Without(operators[..i], operator)
      {
        assert operators[..i + 1][..i] == operators[..i];
        if operators[i] != operator {
          kept := kept + [operators[i]];
        }
        i := i + 1;
      }
      assert operators[..i] == operators;
      operators := kept;
      r := Ok(());
    }

    method UpdateTransactionStatus(caller: H160, id: H256, status: BridgeStatus,
                                   ethTxHash: Option<H256>, confirmations: Option<u64>)
      returns (r: QRC20Result<()>)
      modifies this`transactions
      ensures Change(State(), r) ==
                UpdateStatusSpec(old(State()), caller, id, status, ethTxHash, confirmations)
    {
      if caller !in operators {
        return Err(OnlyOwner);
      }
      if id !in transactions {
        return Err(EVMExecutionFailed("Bridge transaction not found"));
      }
      var tx := transactions[id];
      tx := tx.(status := status);
      if ethTxHash.Some? {
        tx := tx.(ethTxHash := ethTxHash);
      }
      if confirmations.Some? {
        tx := tx.(confirmations := confirmations.value);
      }
      transactions := transactions[id := tx];
      r := Ok(());
    }

    /** The fields are written one after another, so a refused fee leaves the new confirmations. */
    method SetConfig(caller: H160, newMinConfirmations: Option<u64>, newFeeBp: Option<u16>,
                     newTreasury: Option<H160>)
      returns (r: QRC20Result<()>)
      modifies this`minConfirmations, this`bridgeFeeBp, this`treasury
      ensures Change(State(), r) ==
                SetConfigSpec(old(State()), caller, newMinConfirmations, newFeeBp, newTreasury)
    {
      if !treasury.IsZero() && caller != treasury {
        return Err(OnlyOwner);
      }
      if newMinConfirmations.Some? {
        minConfirmations := newMinConfirmations.value;
      }
      if newFeeBp.Some? {
        if newFeeBp.value > MAX_CONFIG_FEE_BP {
          return Err(EVMExecutionFailed("Bridge fee too high"));
        }
        bridgeFeeBp := newFeeBp.value;
      }
      if newTreasury.Some? {
        treasury := newTreasury.value;
      }
      r := Ok(());
    }

    /** Visits every record once, cancelling the pending ones. */
    method EmergencyPause(caller: H160) returns (r: QRC20Result<()>)
      modifies this`transactions
      ensures Change(State(), r) == EmergencyPauseSpec(old(State()), caller)
    {
      if caller !in operators && caller != treasury {
        return Err(OnlyOwner);
      }
      var remaining := transactions.Keys;
      while remaining != {}
        invariant remaining <= old(transactions).Keys
        invariant transactions.Keys == old(transactions).Keys
        invariant forall id | id in remaining :: transactions[id] == old(transactions)[id]
        invariant forall id | id in old(transactions) && id !in remaining ::
                    transactions[id] == Cancel(old(transactions)[id])
        decreases remaining
      {
        var id :| id in remaining;
        if transactions[id].status == Pending {
          transactions := transactions[id := transactions[id].(status := Cancelled)];
        }
        remaining := remaining - {id};
      }
      assert transactions == CancelPending(old(transactions));
      r := Ok(());
    }
  }
}
