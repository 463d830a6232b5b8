/**
 * Block assembly and validation: the Merkle root over transaction hashes
 * (an odd node is paired with itself), the fee total, the header and the
 * genesis block, and the ordered validation of a received block.
 *
 * SHA-256, bincode serialization and ed25519 signature checking are not
 * interpreted: they are the fields of a `Crypto` value every operation
 * receives. The wall clock is an explicit `now` argument.
 */
module Consensus {
  import opened Base
  import opened Ledger

  /**
   * A signed transaction. `payload` stands for the parts the block engine
   * never inspects (transaction data, USD fee, priority).
   */
  datatype Transaction = Transaction(
    payload: seq<byte>,
    nonce: u64,
    feeQor: u64,
    signature: seq<byte>,
    signer: Address)

  datatype BlockHeader = BlockHeader(
    previousHash: Hash,
    transactionsRoot: Hash,
    height: u64,
    timestamp: u64,
    validator: Address,
    totalLiquidity: u64,
    activeApps: u32,
    totalFees: u64,
    version: u32,
    nonce: u64)

  datatype Block = Block(header: BlockHeader, transactions: seq<Transaction>)

  /** The functions the block engine calls but does not define. */
  datatype Crypto = Crypto(
    sha256: seq<byte> -> Hash,
    encodeTransaction: Transaction -> seq<byte>,
    encodeHeader: BlockHeader -> seq<byte>,
    encodeBlock: Block -> seq<byte>,
    verifySignature: Transaction -> Result<(), QoraNetError>)

  /** `Transaction::hash`: SHA-256 of the bincode encoding. */
  function TxHash(c: Crypto, tx: Transaction): Hash
  {
    c.sha256(c.encodeTransaction(tx))
  }

  /** `BlockHeader::hash` (and `Block::hash`). */
  function HeaderHash(c: Crypto, h: BlockHeader): Hash
  {
    c.sha256(c.encodeHeader(h))
  }

  /** `transactions.iter().map(|tx| tx.fee_qor).sum()`. */
  function FeeTotal(txs: seq<Transaction>): nat
  {
    if txs == [] then 0 else txs[0].feeQor + FeeTotal(txs[1..])
  }

  /** `Block::transaction_hashes`: one hash per transaction, in order. */
  function TransactionHashes(c: Crypto, txs: seq<Transaction>): (hashes: seq<Hash>)
    ensures |hashes| == |txs|
    ensures forall i :: 0 <= i < |txs| ==> hashes[i] == TxHash(c, txs[i])
  {
    if txs == [] then []
    else [TxHash(c, txs[0])] + TransactionHashes(c, txs[1..])
  }

  // ---------------------------------------------------------------------
  // Merkle root

  /** SHA-256 of the two 32-byte hashes side by side. */
  function Combine(c: Crypto, left: Hash, right: Hash): Hash
  {
    c.sha256(left.bytes + right.bytes)
  }

  /** The parent of chunk `k` of a level: the pair, or the odd last hash with itself. */
  function ParentAt(c: Crypto, level: seq<Hash>, k: nat): Hash
    requires 2 * k < |level|
  {
    if 2 * k + 1 < |level| then Combine(c, level[2 * k], level[2 * k + 1])
    else Combine(c, level[2 * k], level[2 * k])
  }

  /** One round of the tree: `hashes.chunks(2)` mapped to parents. */
  function NextLevel(c: Crypto, level: seq<Hash>): (next: seq<Hash>)
    ensures |next| == (|level| + 1) / 2
    ensures forall k :: 0 <= k < |next| ==> next[k] == ParentAt(c, level, k)
  {
    if level == [] then []
    else if |level| == 1 then [Combine(c, level[0], level[0])]
    else
      var rest := NextLevel(c, level[2..]);
      assert forall k :: 0 <= k < |rest| ==> ParentAt(c, level[2..], k) == ParentAt(c, level, k + 1);
      [Combine(c, level[0], level[1])] + rest
  }

  function MerkleRoot(c: Crypto, level: seq<Hash>): Hash
    requires |level| >= 1
    decreases |level|
  {
    if |level| == 1 then level[0] else MerkleRoot(c, NextLevel(c, level))
  }

  /** The root `calculate_transactions_root` computes: zero for no transactions. */
  function TransactionsRoot(c: Crypto, txs: seq<Transaction>): Hash
  {
    if txs == [] then Hash.Zero() else MerkleRoot(c, TransactionHashes(c, txs))
  }

  lemma TransactionsRootShape(c: Crypto, txs: seq<Transaction>)
    ensures txs == [] ==> TransactionsRoot(c, txs) == Hash.Zero()
    ensures |txs| == 1 ==> TransactionsRoot(c, txs) == TxHash(c, txs[0])
    ensures |txs| == 2 ==>
              TransactionsRoot(c, txs) == Combine(c, TxHash(c, txs[0]), TxHash(c, txs[1]))
    ensures |txs| == 3 ==>
              TransactionsRoot(c, txs) ==
                Combine(c, Combine(c, TxHash(c, txs[0]), TxHash(c, txs[1])),
                           Combine(c, TxHash(c, txs[2]), TxHash(c, txs[2])))
  {
    var hs := TransactionHashes(c, txs);
    if |txs| == 2 {
      var next := NextLevel(c, hs);
      assert MerkleRoot(c, hs) == MerkleRoot(c, next) == next[0] == ParentAt(c, hs, 0);
    } else if |txs| == 3 {
      var next := NextLevel(c, hs);
      assert next[0] == ParentAt(c, hs, 0) && next[1] == ParentAt(c, hs, 1);
      var top := NextLevel(c, next);
      assert MerkleRoot(c, hs) == MerkleRoot(c, next) == MerkleRoot(c, top) == top[0] == ParentAt(c, next, 0);
    }
  }

  /** `Block::calculate_transactions_root`, level by level. */
  method CalculateTransactionsRoot(c: Crypto, transactions: seq<Transaction>) returns (root: Hash)
    ensures root == TransactionsRoot(c, transactions)
  {
    if |transactions| == 0 {
      return Hash.Zero();
    }
    var hashes := TransactionHashes(c, transactions);
    while |hashes| > 1
      invariant |hashes| >= 1
      invariant MerkleRoot(c, hashes) == TransactionsRoot(c, transactions)
      decreases |hashes|
    {
      var nextLevel: seq<Hash> := [];
      var chunk := 0;
      while 2 * chunk < |hashes|
        invariant 2 * chunk <= |hashes| + 1
        invariant |nextLevel| == chunk
        invariant forall k :: 0 <= k < chunk ==> nextLevel[k] == ParentAt(c, hashes, k)
        decreases |hashes| - 2 * chunk
      {
        var combined;
        if 2 * chunk + 1 < |hashes| {
          combined := Combine(c, hashes[2 * chunk], hashes[2 * chunk + 1]);
        } else {
          combined := Combine(c, hashes[2 * chunk], hashes[2 * chunk]);
        }
        nextLevel := nextLevel + [combined];
        chunk := chunk + 1;
      }
      assert nextLevel == NextLevel(c, hashes);
      hashes := nextLevel;
    }
    root := hashes[0];
  }

  // ---------------------------------------------------------------------
  // Header

  /** `BlockHeader::new`, stamped with the clock reading `now`. */
  function NewHeader(
    previousHash: Hash, transactionsRoot: Hash, height: u64, validator: Address,
    totalLiquidity: u64, activeApps: u32, totalFees: u64, now: u64): (h: BlockHeader)
    ensures h.version == 1 && h.nonce == 0 && h.timestamp == now
  {
    BlockHeader(previousHash, transactionsRoot, height, now, validator,
                totalLiquidity, activeApps, totalFees, 1, 0)
  }

  /** `BlockHeader::validate` against the clock reading `now`. */
  function ValidateHeader(h: BlockHeader, expectedHeight: u64, expectedPrevious: Hash, now: u64)
    : Result<(), QoraNetError>
  {
    if h.height != expectedHeight then
      Err(ConsensusError("Invalid block height: expected " + Decimal(expectedHeight)
                         + ", got " + Decimal(h.height)))
    else if h.previousHash != expectedPrevious then
      Err(ConsensusError("Invalid previous block hash"))
    else if h.timestamp > now + 300 then
      Err(ConsensusError("Block timestamp too far in the future"))
    else
      Ok(())
  }

  /** A header is accepted exactly when all three checks hold; there is no lower time bound. */
  lemma ValidateHeaderIff(h: BlockHeader, expectedHeight: u64, expectedPrevious: Hash, now: u64)
    ensures ValidateHeader(h, expectedHeight, expectedPrevious, now).Ok? <==>
              h.height == expectedHeight && h.previousHash == expectedPrevious
              && h.timestamp <= now + 300
    ensures ValidateHeader(h, expectedHeight, expectedPrevious, now).Err? ==>
              ValidateHeader(h, expectedHeight, expectedPrevious, now).error.ConsensusError?
  {
  }

  // ---------------------------------------------------------------------
  // Block

  /** `Block::new`: fee total and Merkle root computed from the transactions. */
  function NewBlock(
    c: Crypto, previousHash: Hash, height: u64, validator: Address,
    transactions: seq<Transaction>, totalLiquidity: u64, activeApps: u32, now: u64): Block
    requires FeeTotal(transactions) <= U64_MAX
  {
    var header := NewHeader(previousHash, TransactionsRoot(c, transactions), height, validator,
                            totalLiquidity, activeApps, FeeTotal(transactions), now);
    Block(header, transactions)
  }

  /** `Block::genesis`. */
  function Genesis(c: Crypto, validator: Address, now: u64): Block
  {
    NewBlock(c, Hash.Zero(), 0, validator, [], 0, 0, now)
  }

  /** The `for tx in &self.transactions { tx.verify_signature()?; }` loop: the first failure. */
  function CheckSignatures(c: Crypto, txs: seq<Transaction>): Result<(), QoraNetError>
  {
    if txs == [] then Ok(())
    else if c.verifySignature(txs[0]).Err? then c.verifySignature(txs[0])
    else CheckSignatures(c, txs[1..])
  }

  lemma {:induction false} CheckSignaturesFirstFailure(c: Crypto, txs: seq<Transaction>)
    ensures CheckSignatures(c, txs).Ok? <==>
              forall i :: 0 <= i < |txs| ==> c.verifySignature(txs[i]).Ok?
    ensures CheckSignatures(c, txs).Err? ==>
              exists i :: 0 <= i < |txs| && c.verifySignature(txs[i]) == CheckSignatures(c, txs)
                          && forall j :: 0 <= j < i ==> c.verifySignature(txs[j]).Ok?
  {
    if txs != [] {
      CheckSignaturesFirstFailure(c, txs[1..]);
      var r := CheckSignatures(c, txs);
      if c.verifySignature(txs[0]).Err? {
        assert c.verifySignature(txs[0]) == r;
      } else {
        assert forall i :: 1 <= i < |txs| ==> txs[i] == txs[1..][i - 1];
        if r.Err? {
          var i :| 0 <= i < |txs[1..]| && c.verifySignature(txs[1..][i]) == r
                   && forall j :: 0 <= j < i ==> c.verifySignature(txs[1..][j]).Ok?;
          assert c.verifySignature(txs[i + 1]) == r;
          assert forall j :: 0 <= j < i + 1 ==> c.verifySignature(txs[j]).Ok? by {
            forall j | 0 <= j < i + 1 ensures c.verifySignature(txs[j]).Ok? {
              if j > 0 { assert txs[j] == txs[1..][j - 1]; }
            }
          }
        }
      }
    }
  }

  /** `Block::validate`: header, root, fees, then every signature, first failure wins. */
  function ValidateBlock(c: Crypto, b: Block, expectedHeight: u64, expectedPrevious: Hash, now: u64)
    : Result<(), QoraNetError>
  {
    var headerCheck := ValidateHeader(b.header, expectedHeight, expectedPrevious, now);
    if headerCheck.Err? then headerCheck
    else if TransactionsRoot(c, b.transactions) != b.header.transactionsRoot then
      Err(ConsensusError("Invalid transactions root"))
    else if FeeTotal(b.transactions) != b.header.totalFees then
      Err(ConsensusError("Invalid total fees"))
    else
      CheckSignatures(c, b.transactions)
  }

  lemma ValidateBlockIff(c: Crypto, b: Block, expectedHeight: u64, expectedPrevious: Hash, now: u64)
    ensures ValidateBlock(c, b, expectedHeight, expectedPrevious, now).Ok? <==>
              ValidateHeader(b.header, expectedHeight, expectedPrevious, now).Ok?
              && TransactionsRoot(c, b.transactions) == b.header.transactionsRoot
              && FeeTotal(b.transactions) == b.header.totalFees
              && forall i :: 0 <= i < |b.transactions| ==> c.verifySignature(b.transactions[i]).Ok?
  {
    CheckSignaturesFirstFailure(c, b.transactions);
  }

  /**
   * A block built by `NewBlock` always passes the root and fee checks: at the
   * expected height and parent, and within the clock tolerance, only the
   * signatures can reject it.
   */
  lemma NewBlockPassesRootAndFees(
    c: Crypto, previousHash: Hash, height: u64, validator: Address,
    transactions: seq<Transaction>, totalLiquidity: u64, activeApps: u32, created: u64, now: u64)
    requires FeeTotal(transactions) <= U64_MAX
    requires created <= now + 300
    ensures ValidateBlock(c, NewBlock(c, previousHash, height, validator, transactions,
                                      totalLiquidity, activeApps, created), height, previousHash, now)
            == CheckSignatures(c, transactions)
  {
  }

  lemma GenesisShape(c: Crypto, validator: Address, now: u64)
    ensures var g := Genesis(c, validator, now);
      g.header.previousHash == Hash.Zero() && g.header.height == 0 && g.transactions == []
      && g.header.transactionsRoot == Hash.Zero() && g.header.totalFees == 0
      && g.header.totalLiquidity == 0 && g.header.activeApps == 0
      && g.header.validator == validator
    ensures ValidateBlock(c, Genesis(c, validator, now), 0, Hash.Zero(), now).Ok?
  {
  }

  /** `Block::get_transaction`: the first transaction whose hash is `h`. */
  function FindTransaction(c: Crypto, txs: seq<Transaction>, h: Hash): (r: Option<Transaction>)
    ensures r.None? <==> forall i :: 0 <= i < |txs| ==> TxHash(c, txs[i]) != h
    ensures r.Some? ==> exists i :: 0 <= i < |txs| && txs[i] == r.value && TxHash(c, txs[i]) == h
                                    && forall j :: 0 <= j < i ==> TxHash(c, txs[j]) != h
  {
    if txs == [] then None
    else if TxHash(c, txs[0]) == h then Some(txs[0])
    else
      var r := FindTransaction(c, txs[1..], h);
      assert forall i :: 1 <= i < |txs| ==> txs[i] == txs[1..][i - 1];
      if r.Some? then
        var i :| 0 <= i < |txs[1..]| && txs[1..][i] == r.value && TxHash(c, txs[1..][i]) == h
                 && forall j :: 0 <= j < i ==> TxHash(c, txs[1..][j]) != h;
        assert txs[i + 1] == r.value;
        assert forall j :: 0 <= j < i + 1 ==> TxHash(c, txs[j]) != h;
        r
      else r
  }

  function GetTransaction(c: Crypto, b: Block, h: Hash): Option<Transaction>
  {
    FindTransaction(c, b.transactions, h)
  }
}
