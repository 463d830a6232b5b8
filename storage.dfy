/**
 * Account records, the bounded in-memory account cache, and the key layout
 * `store_block` writes. The RocksDB column families are modelled as maps
 * from byte-string keys to byte-string values; the clock is an explicit
 * `now` argument.
 */
module Storage {
  import opened Base
  import opened Ledger
  import opened Consensus

  /** The number of accounts `StorageCache::new` allows. */
  const CACHE_SIZE_LIMIT: nat := 10000

  /**
   * The value of an `AccountState`, as the cache holds it: `cache_account`
   * takes the account by value, so a cached entry is a copy that later
   * updates to the caller's account do not reach.
   */
  datatype AccountRecord = AccountRecord(address: Address, balance: u64, nonce: u64, createdAt: u64, lastUpdated: u64)

  /**
   * `AccountState`. The `Balance` struct it holds is represented by its
   * single `amount` field.
   */
  class AccountState {
    const address: Address
    var balance: u64
    var nonce: u64
    var createdAt: u64
    var lastUpdated: u64

    constructor (address: Address, now: u64)
      ensures this.address == address
      ensures balance == 0 && nonce == 0
      ensures createdAt == now && lastUpdated == now
    {
      this.address := address;
      balance := 0;
      nonce := 0;
      createdAt := now;
      lastUpdated := now;
    }

    function State(): AccountRecord
      reads this
    {
      AccountRecord(address, balance, nonce, createdAt, lastUpdated)
    }

    method UpdateBalance(newBalance: u64, now: u64)
      modifies this`balance, this`lastUpdated
      ensures State() == old(State()).(balance := newBalance, lastUpdated := now)
    {
      balance := newBalance;
      lastUpdated := now;
    }

    /** `nonce += 1` overflows at `u64::MAX`, hence the precondition. */
    method IncrementNonce(now: u64)
      requires nonce < U64_MAX
      modifies this`nonce, this`lastUpdated
      ensures State() == old(State()).(nonce := old(nonce) + 1, lastUpdated := now)
    {
      nonce := nonce + 1;
      lastUpdated := now;
    }
  }

  class StorageCache {
    var latestBlockHash: Option<Hash>
    var latestBlockHeight: u64
    var accountCache: map<Address, AccountRecord>
    const cacheSizeLimit: nat

    /** Entries are keyed by their own address and never exceed the limit. */
    ghost predicate Valid()
      reads this
    {
      1 <= cacheSizeLimit
      && |accountCache| <= cacheSizeLimit
      && forall a | a in accountCache :: accountCache[a].address == a
    }

    constructor ()
      ensures Valid()
      ensures latestBlockHash == None && latestBlockHeight == 0
      ensures accountCache == map[] && cacheSizeLimit == CACHE_SIZE_LIMIT
    {
      latestBlockHash := None;
      latestBlockHeight := 0;
      accountCache := map[];
      cacheSizeLimit := CACHE_SIZE_LIMIT;
    }

    /** `account_cache.iter().min_by_key(|(_, acc)| acc.last_updated)`. */
    method OldestCached() returns (oldest: Option<Address>)
      ensures oldest.None? <==> accountCache == map[]
      ensures oldest.Some? ==> oldest.value in accountCache
      ensures oldest.Some? ==> forall a | a in accountCache ::
                accountCache[oldest.value].lastUpdated <= accountCache[a].lastUpdated
    {
      var remaining := accountCache.Keys;
      oldest := None;
      while remaining != {}
        invariant remaining <= accountCache.Keys
        invariant oldest.None? <==> remaining == accountCache.Keys
        invariant oldest.Some? ==> oldest.value in accountCache
        invariant oldest.Some? ==> forall a | a in accountCache && a !in remaining ::
                    accountCache[oldest.value].lastUpdated <= accountCache[a].lastUpdated
        decreases |remaining|
      {
        var a :| a in remaining;
        if oldest.None? || accountCache[a].lastUpdated < accountCache[oldest.value].lastUpdated {
          oldest := Some(a);
        }
        remaining := remaining - {a};
      }
    }

    /**
     * `cache_account`: at capacity, first evict one least-recently-updated
     * entry (even when `account` replaces an entry already cached), then
     * insert. `evicted` names the entry removed, if any.
     */
    method CacheAccount(account: AccountRecord) returns (ghost evicted: Option<Address>)
      requires Valid()
      modifies this`accountCache
      ensures Valid()
      ensures GetCachedAccount(account.address) == Some(account)
      ensures evicted.Some? <==> |old(accountCache)| >= cacheSizeLimit
      ensures evicted.None? ==> accountCache == old(accountCache)[account.address := account]
      ensures evicted.Some? ==>
                evicted.value in old(accountCache)
                && (forall a | a in old(accountCache) ::
                      old(accountCache)[evicted.value].lastUpdated <= old(accountCache)[a].lastUpdated)
                && accountCache == (old(accountCache) - {evicted.value})[account.address := account]
    {
      evicted := None;
      if |accountCache| >= cacheSizeLimit {
        var oldest := OldestCached();
        if oldest.Some? {
          evicted := oldest;
          accountCache := accountCache - {oldest.value};
        }
      }
      accountCache := accountCache[account.address := account];
    }

    /** The cached copy of the account at `address`, if any. */
    function GetCachedAccount(address: Address): (cached: Option<AccountRecord>)
      reads this
      ensures cached.Some? <==> address in accountCache
      ensures Valid() && cached.Some? ==> cached.value.address == address
    {
      if address in accountCache then Some(accountCache[address]) else None
    }

    method InvalidateAccount(address: Address)
      modifies this`accountCache
      ensures accountCache == old(accountCache) - {address}
      ensures GetCachedAccount(address) == None
    {
      accountCache := accountCache - {address};
    }
  }

  // ---------------------------------------------------------------------
  // Block storage key layout

  /** The blocks-keyspace key of the height index: the bytes of "height:{N}". */
  function HeightKey(height: u64): seq<byte>
  {
    Utf8("height:" + Decimal(height))
  }


  /** The transactions keyspace after writing each transaction under its hash, in order. */
  function StoreTransactions(c: Crypto, kv: map<seq<byte>, seq<byte>>, txs: seq<Transaction>)
    : map<seq<byte>, seq<byte>>
  {
    if txs == [] then kv
    else
      var last := txs[|txs| - 1];
      StoreTransactions(c, kv, txs[..|txs| - 1])[TxHash(c, last).bytes := c.encodeTransaction(last)]
  }

  /** Every transaction's hash becomes a key and nothing else is added. */
  lemma {:induction false} StoreTransactionsKeys(
    c: Crypto, kv: map<seq<byte>, seq<byte>>, txs: seq<Transaction>)
    ensures StoreTransactions(c, kv, txs).Keys ==
              kv.Keys + set i | 0 <= i < |txs| :: TxHash(c, txs[i]).bytes
  {
    if txs != [] {
      var n := |txs| - 1;
      var prefix := txs[..n];
      StoreTransactionsKeys(c, kv, prefix);
      var before := set i | 0 <= i < n :: TxHash(c, prefix[i]).bytes;
      var after := set i | 0 <= i < |txs| :: TxHash(c, txs[i]).bytes;
      assert after == before + {TxHash(c, txs[n]).bytes} by {
        forall k | k in after ensures k in before + {TxHash(c, txs[n]).bytes} {
          var i :| 0 <= i < |txs| && k == TxHash(c, txs[i]).bytes;
          if i < n { assert k == TxHash(c, prefix[i]).bytes; }
        }
        forall k | k in before ensures k in after {
          var i :| 0 <= i < n && k == TxHash(c, prefix[i]).bytes;
          assert prefix[i] == txs[i];
        }
      }
    }
  }

  /** A transaction is found under its hash unless a later one has the same hash. */
  lemma {:induction false} StoreTransactionsValues(
    c: Crypto, kv: map<seq<byte>, seq<byte>>, txs: seq<Transaction>, i: nat)
    requires i < |txs|
    requires forall j | i < j < |txs| :: TxHash(c, txs[j]) != TxHash(c, txs[i])
    ensures TxHash(c, txs[i]).bytes in StoreTransactions(c, kv, txs)
    ensures StoreTransactions(c, kv, txs)[TxHash(c, txs[i]).bytes] == c.encodeTransaction(txs[i])
  {
    var n := |txs| - 1;
    if i < n {
      var prefix := txs[..n];
      assert prefix[i] == txs[i];
      assert forall j | i < j < n :: prefix[j] == txs[j];
      StoreTransactionsValues(c, kv, prefix, i);
      assert TxHash(c, txs[n]) != TxHash(c, txs[i]);
    }
  }

  lemma DecimalFitsU64(height: u64)
    ensures |Decimal(height)| <= 20
  {
    assert Pow10(10) == 10000000000;
    Pow10Add(10, 10);
    DecimalLength(height, 20);
  }

  /** A height key is at most 27 bytes, so it never collides with a 32-byte block hash key. */
  lemma HeightKeyNeverABlockHash(height: u64, h: Hash)
    ensures |HeightKey(height)| <= 27
    ensures HeightKey(height) != h.bytes
  {
    DecimalFitsU64(height);
    var s := "height:" + Decimal(height);
    assert IsAscii(s) by {
      forall i | 0 <= i < |s| ensures s[i] as int < 0x80 {
        if i >= 7 { assert s[i] == Decimal(height)[i - 7]; }
      }
    }
    AsciiEncodesOneBytePerChar(s);
  }

  class BlockchainStorage {
    var blocks: map<seq<byte>, seq<byte>>
    var transactions: map<seq<byte>, seq<byte>>
    /** Keyed by the metadata name (`update_metadata` is not part of this model). */
    var metadata: map<string, seq<byte>>
    const cache: StorageCache

    /** An empty store with a fresh cache (opening the database is not modelled). */
    constructor ()
      ensures blocks == map[] && transactions == map[] && metadata == map[]
      ensures fresh(cache) && cache.Valid() && cache.accountCache == map[]
    {
      blocks := map[];
      transactions := map[];
      metadata := map[];
      cache := new StorageCache();
    }

    /** `store_block_transactions`: each transaction under its hash, in order. */
    method StoreBlockTransactions(c: Crypto, txs: seq<Transaction>)
      modifies this`transactions
      ensures transactions == StoreTransactions(c, old(transactions), txs)
    {
      var i := 0;
      while i < |txs|
        invariant 0 <= i <= |txs|
        invariant transactions == StoreTransactions(c, old(transactions), txs[..i])
      {
        var tx := txs[i];
        assert txs[..i + 1][..i] == txs[..i];
        transactions := transactions[TxHash(c, tx).bytes := c.encodeTransaction(tx)];
        i := i + 1;
      }
      assert txs[..i] == txs;
    }

    /**
     * `store_block`: the block under its hash, the hash under "height:{N}",
     * every transaction under its hash, the cached latest hash and height,
     * and the metadata entries (the height as 8 little-endian bytes).
     */
    method StoreBlock(c: Crypto, block: Block)
      modifies this`blocks, this`transactions, this`metadata
      modifies cache`latestBlockHash, cache`latestBlockHeight
      ensures var hash := HeaderHash(c, block.header);
        blocks == old(blocks)[hash.bytes := c.encodeBlock(block)][HeightKey(block.header.height) := hash.bytes]
        && transactions == StoreTransactions(c, old(transactions), block.transactions)
        && cache.latestBlockHash == Some(hash)
        && cache.latestBlockHeight == block.header.height
        && metadata == old(metadata)["latest_block_hash" := hash.bytes]
                                    ["latest_block_height" := LittleEndianU64(block.header.height)]
    {
      var hash := HeaderHash(c, block.header);
      blocks := blocks[hash.bytes := c.encodeBlock(block)];
      blocks := blocks[HeightKey(block.header.height) := hash.bytes];
      StoreBlockTransactions(c, block.transactions);
      cache.latestBlockHash := Some(hash);
      cache.latestBlockHeight := block.header.height;
      metadata := metadata["latest_block_hash" := hash.bytes];
      metadata := metadata["latest_block_height" := LittleEndianU64(block.header.height)];
    }
  }
}
