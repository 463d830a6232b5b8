# QoraNet core in Dafny

This project models the core of the QoraNet node library:

- the ledger primitives: 32-byte hashes and addresses, the hex address parser and printer, checked single- and multi-token balances, LP token pairing and the bridged ERC-20 token registry;
- block assembly and validation: the Merkle root over transaction hashes, the fee total, header checks and the genesis block;
- the storage layer's account cache and the keys `store_block` writes;
- the QRC-20 token standard: one token, the registry of deployed tokens and the ERC-20 bridge to Ethereum;
- the EVM compatibility layer's ERC-20 calldata codec, its result decoders, its transaction builders and its account and block-context bookkeeping.

The model proves properties about all of this.

There is one module per source file:

| module | source file |
|---|---|
| `Base` | shared byte, integer, UTF-8 and map helpers |
| `Ledger` | `src/lib.rs` |
| `Consensus` | `src/consensus/block.rs` |
| `Storage` | `src/storage/mod.rs` |
| `Qrc20` | `src/qrc20/mod.rs` |
| `Token` | `src/qrc20/token.rs` |
| `Registry` | `src/qrc20/registry.rs` |
| `Bridge` | `src/qrc20/bridge.rs` |
| `Evm` | `src/qrc20/evm_integration.rs` |

Where the source updates an object in place, the model has a class with the same fields. `QRC20Token`, `QRC20Registry`, `ERC20Bridge`, `QoraNetEVM`, `TokenBalance`, `Balance`, `TokenRegistry` (the ledger's), `AccountState`, `StorageCache` and `BlockchainStorage` are classes of this kind.

Each such class method is either proved equal to a pure specification function on a value of the same shape, or states its whole new state field by field (`StorageCache.CacheAccount`, `BlockchainStorage.StoreBlock`, `QoraNetEVM.UpdateBlockContext`, `QRC20Token.SetContractAddress`, `Balance.Add`, `Balance.Subtract`, the ledger's `TokenRegistry.RegisterErc20` and the methods of `AccountState`). For example, `Step(State(), r) == TransferSpec(old(State()), ...)`. The lemmas and the specification functions' own contracts carry the properties:

- balance conservation;
- index consistency;
- the bridge's backing of minted by locked tokens;
- round trips of the codecs.

The registry holds its tokens by value, as the source's `HashMap<H160, QRC20Token>` does. It updates them through the same specification functions the token class is proved against.

Hashing, serialization, signature checks and the clock are parameters. In `Consensus`, hashing, serialization and signature checks are the `Crypto` functions, and every call receives them. The clock appears as `now` arguments.

## Model

| member | source | states |
|---|---|---|
| Ledger.FromHex | src/lib.rs:151-163 | after an optional "0x" is stripped, the text is accepted iff it is 64 UTF-8 bytes long and hex-decodes, and the address is exactly the decoded bytes; otherwise "Invalid address length" or "Invalid hex address", in that order |
| Ledger.DecodePairs | src/lib.rs:157-158 | a successful hex decode yields half as many bytes as characters |
| Ledger.DecodedIsAscii | src/lib.rs:157-158 | only text made entirely of ASCII hex digits decodes |
| Ledger.HexEncode | src/lib.rs:121-125 | hex encoding doubles the length |
| Ledger.HexRoundTrip | src/lib.rs:121-125 | decoding the hex encoding of any bytes gives the bytes back |
| Ledger.HexEncodeIsAsciiDigits | src/lib.rs:166-174 | every character the printer emits is an ASCII hex digit |
| Ledger.DisplayRoundTrip | src/lib.rs:151-174 | every non-native address survives printing then parsing, with or without the "0x" prefix |
| Ledger.NativeQorDisplayRejected | src/lib.rs:141-174 | the native address prints as "QOR", which the parser rejects as a wrong length |
| Ledger.NonZeroBalancesAgree | src/lib.rs:258-263 | `get_all_balances` lists a token exactly when its amount is positive, with that amount |
| Ledger.Credit | src/lib.rs:237-244 | checked addition: succeeds iff the sum fits u64, raises only that token, else "Token balance overflow" |
| Ledger.Debit | src/lib.rs:246-255 | checked subtraction: succeeds iff the amount is available, lowers only that token, else `InsufficientLiquidity(required, available)` |
| Ledger.CreditThenDebit | src/lib.rs:237-255 | subtracting what was just added succeeds and restores every amount |
| Ledger.TokenBalance.constructor | src/lib.rs:220-225 | a new multi-token balance is empty |
| Ledger.TokenBalance.AddTokens | src/lib.rs:237-244 | overflow leaves the map unchanged with an error; otherwise the map is `Credit` of the old one |
| Ledger.TokenBalance.SubtractTokens | src/lib.rs:246-255 | a shortfall leaves the map unchanged with an error; otherwise the map is `Debit` of the old one |
| Ledger.NativeSlotKeepsQor | src/lib.rs:318-324 | `to_token_balance` holds exactly the QOR amount and no other token, and is empty for zero |
| Ledger.Balance.constructor | src/lib.rs:284-286 | the balance holds the given amount |
| Ledger.Balance.Add | src/lib.rs:302-306 | checked u64 addition; on overflow the amount is unchanged and "Balance overflow" is returned |
| Ledger.Balance.Subtract | src/lib.rs:308-315 | checked u64 subtraction; on a shortfall the amount is unchanged and `InsufficientLiquidity` is returned |
| Ledger.PairedTokenIffHasQor | src/lib.rs:353-365 | a pair has a QOR side exactly when `get_paired_token` returns something, and it returns the other side (token B first when A is QOR) |
| Ledger.TokenRegistry.constructor | src/lib.rs:413-418 | the registry starts empty, with a consistent index |
| Ledger.TokenRegistry.RegisterErc20 | src/lib.rs:421-432 | a known Ethereum address is refused with no change; otherwise both maps gain the entry and every Ethereum address still maps to a registered token |
| Consensus.TransactionHashes | src/consensus/block.rs:212-215 | one hash per transaction, in order |
| Consensus.NextLevel | src/consensus/block.rs:142-158 | a Merkle level halves, rounding up; parent k hashes children 2k and 2k+1, and an odd last node is paired with itself |
| Consensus.TransactionsRootShape | src/consensus/block.rs:134-164 | the root is zero for no transactions, the hash itself for one, and the expected pairings for two and three |
| Consensus.CalculateTransactionsRoot | src/consensus/block.rs:134-164 | the level-by-level loop computes the recursively defined Merkle root |
| Consensus.NewHeader | src/consensus/block.rs:40-61 | a new header has version 1, nonce 0 and the current time |
| Consensus.ValidateHeaderIff | src/consensus/block.rs:70-93 | a header is accepted iff height and parent match and its time is at most 300 s ahead; every rejection is a `ConsensusError` |
| Consensus.CheckSignaturesFirstFailure | src/consensus/block.rs:196-198 | the signature loop succeeds iff every signature verifies, and otherwise returns the first failure |
| Consensus.ValidateBlockIff | src/consensus/block.rs:178-204 | a block is accepted iff its header passes, the root and the fee total recompute, and every signature verifies |
| Consensus.NewBlockPassesRootAndFees | src/consensus/block.rs:103-131 | a block from `Block::new` passes the root and fee checks, so only signatures can reject it at its own height and parent |
| Consensus.GenesisShape | src/consensus/block.rs:219-229 | genesis has height 0, a zero parent, no transactions, a zero root and zero fees, and validates |
| Consensus.FindTransaction | src/consensus/block.rs:207-209 | returns the first transaction with the given hash, or none iff no transaction has it |
| Storage.AccountState.constructor | src/storage/mod.rs:28-37 | a new account has zero balance and nonce, created and updated now |
| Storage.AccountState.UpdateBalance | src/storage/mod.rs:39-42 | replaces the balance and stamps the update time; address, nonce and creation time are kept |
| Storage.AccountState.IncrementNonce | src/storage/mod.rs:44-47 | adds one to the nonce and stamps the update time; address, balance and creation time are kept |
| Storage.StorageCache.constructor | src/storage/mod.rs:67-74 | an empty cache with no latest block and a limit of 10000 accounts |
| Storage.StorageCache.OldestCached | src/storage/mod.rs:78-81 | finds a cached account with the least update time, or none iff the cache is empty |
| Storage.StorageCache.CacheAccount | src/storage/mod.rs:76-86 | at the limit a least-recently-updated entry is evicted first, then the account value is inserted under its address; the size limit and the keying hold afterwards |
| Storage.StorageCache.GetCachedAccount | src/storage/mod.rs:88-90 | finds an entry iff the address is cached, and in a consistent cache the entry is that address's account |
| Storage.StorageCache.InvalidateAccount | src/storage/mod.rs:92-94 | removes exactly that address |
| Storage.BlockchainStorage.constructor | src/storage/mod.rs:99-118 | a freshly opened store has empty block, transaction and metadata tables and an empty, fresh cache |
| Storage.StoreTransactionsKeys | src/storage/mod.rs:152-166 | storing a block's transactions adds exactly their hashes as keys |
| Storage.StoreTransactionsValues | src/storage/mod.rs:152-166 | each transaction is found under its hash unless a later one in the block shares it |
| Storage.HeightKeyNeverABlockHash | src/storage/mod.rs:130-131 | the "height:N" key is at most 27 bytes, so it never overwrites a 32-byte block-hash key |
| Storage.BlockchainStorage.StoreBlockTransactions | src/storage/mod.rs:152-166 | the loop writes every transaction under its hash, in order |
| Storage.BlockchainStorage.StoreBlock | src/storage/mod.rs:121-149 | writes the block under its hash, the hash under its height key and the transactions; it then caches the latest hash and height and records them as metadata (height as 8 little-endian bytes) |
| Qrc20.ContractAddress | src/qrc20/registry.rs:90-91 | the counter-derived contract address encodes the counter, so it can be read back |
| Qrc20.ContractAddressInjective | src/qrc20/registry.rs:90-91 | distinct counter values give distinct contract addresses |
| Token.SetAllowance | src/qrc20/token.rs:138-141 | exactly one allowance is overwritten |
| Token.Move | src/qrc20/token.rs:120-122 | debit-then-credit moves `amount` from sender to recipient (nothing when they are the same) and keeps the sum of balances |
| Token.NewToken | src/qrc20/token.rs:42-66 | the owner holds the whole supply, balances sum to the supply, there are no allowances, no cap, and the token is mintable and burnable |
| Token.NewAdvancedToken | src/qrc20/token.rs:69-96 | as `new`, with the given cap and flags |
| Token.TransferSpec | src/qrc20/token.rs:104-128 | paused first, then balance; succeeds iff unpaused and funded; only balances change, by exactly the flow; supply conserved |
| Token.ApproveSpec | src/qrc20/token.rs:131-147 | refused while paused; otherwise sets one allowance and leaves every other one |
| Token.TransferFromSpec | src/qrc20/token.rs:150-196 | paused, then allowance, then balance; on success the allowance drops by exactly the amount (entry created if absent) and balances move; supply conserved |
| Token.TransferFromAsWritten | src/qrc20/token.rs:150-196 | the code as written, with the `unwrap` panic as `None` |
| Token.TransferFromPanicsWithoutApproval | src/qrc20/token.rs:180-183 | an unpaused zero-amount `transfer_from` out of an account with no allowance entry panics, while the corrected operation succeeds |
| Token.FreshTokenTransferFromPanics | src/qrc20/token.rs:180-183 | on a freshly created token this panic occurs for the owner's account |
| Token.TransferFromAsWrittenAgrees | src/qrc20/token.rs:150-196 | wherever the code as written does not panic, it equals the corrected operation |
| Token.MintSpec | src/qrc20/token.rs:208-239 | owner, mintable, paused, then cap, in that order; on success the recipient and the supply grow by the amount, never past a nonzero cap; supply conserved |
| Token.BurnSpec | src/qrc20/token.rs:242-269 | burnable, paused, then balance; on success the burner's balance and the supply drop by the amount; supply conserved |
| Token.PauseSpec | src/qrc20/token.rs:272-282 | owner only; sets the flag and nothing else |
| Token.UnpauseSpec | src/qrc20/token.rs:285-295 | owner only; clears the flag and nothing else |
| Token.TransferOwnershipSpec | src/qrc20/token.rs:298-311 | owner only; replaces the owner and reports old and new |
| Token.QRC20Token.constructor | src/qrc20/token.rs:42-66 | the object's state is `NewToken` and conserves supply |
| Token.QRC20Token.Advanced | src/qrc20/token.rs:69-96 | the object's state is `NewAdvancedToken` and conserves supply |
| Token.QRC20Token.Transfer | src/qrc20/token.rs:104-128 | new state and result are exactly `TransferSpec`; conservation is preserved |
| Token.QRC20Token.Approve | src/qrc20/token.rs:131-147 | new state and result are exactly `ApproveSpec` |
| Token.QRC20Token.TransferFrom | src/qrc20/token.rs:150-196 | new state and result are exactly the corrected `TransferFromSpec`; conservation is preserved |
| Token.QRC20Token.Mint | src/qrc20/token.rs:208-239 | new state and result are exactly `MintSpec`; conservation is preserved |
| Token.QRC20Token.Burn | src/qrc20/token.rs:242-269 | new state and result are exactly `BurnSpec`; conservation is preserved |
| Token.QRC20Token.Pause | src/qrc20/token.rs:272-282 | new state and result are exactly `PauseSpec` |
| Token.QRC20Token.Unpause | src/qrc20/token.rs:285-295 | new state and result are exactly `UnpauseSpec` |
| Token.QRC20Token.TransferOwnership | src/qrc20/token.rs:298-311 | new state and result are exactly `TransferOwnershipSpec` |
| Token.QRC20Token.SetContractAddress | src/qrc20/token.rs:314-316 | only the contract address changes |
| Registry.NewRegistry | src/qrc20/registry.rs:27-42 | empty, consistent, counter at 1000, the given owner (zero for `new`) |
| Registry.TotalValueLocked | src/qrc20/registry.rs:275-279 | the sum of all supplies: at least every single token's supply, and zero for an empty registry |
| Registry.TotalValueLockedUpdate | src/qrc20/registry.rs:275-279 | replacing one token changes the total value locked by exactly its change in supply |
| Registry.Issue | src/qrc20/registry.rs:79-88 | no cap means `new` (mintable, burnable, uncapped); a cap means `new_advanced` with each missing flag true; the deployer holds the supply |
| Registry.DeploySpec | src/qrc20/registry.rs:66-124 | symbol checked before name, both refusals change nothing; success stores the token under the counter's address, indexes both labels, advances the counter, keeps the registry consistent and adds the supply to the value locked |
| Registry.DeployKeepsValid | src/qrc20/registry.rs:89-110 | a fresh address with unused labels keeps both indexes consistent in both directions |
| Registry.DeployDefaultSpec | src/qrc20/registry.rs:45-63 | `deploy_token` yields an uncapped, mintable, burnable token owned by the deployer |
| Registry.TokenStep | src/qrc20/registry.rs:160-207 | each operation keeps the token's labels and address, changes nothing on error, and changes the supply only by the mint or burn amount |
| Registry.TokenOpSpec | src/qrc20/registry.rs:160-207 | an unknown contract is `TokenNotFound` with no change; otherwise only that token's entry changes; consistency kept; value locked moves by the supply change |
| Registry.ExecuteSpec | src/qrc20/registry.rs:127-210 | a deploy is reported as the `Deploy` event; errors change nothing, the counter never goes back and the owner is untouched |
| Registry.TokenStepPreservesIndexes | src/qrc20/registry.rs:160-207 | replacing a token by one with the same labels and address keeps the registry consistent |
| Registry.GetTokenBySymbol | src/qrc20/registry.rs:223-227 | finds a token iff one has that symbol, and it is that token |
| Registry.GetTokenByName | src/qrc20/registry.rs:230-234 | finds a token iff one has that name, and it is that token |
| Registry.RemoveSpec | src/qrc20/registry.rs:282-301 | owner (or anyone while the owner is zero) only; removes the token and both index entries, an absent one is a no-op; the counter is untouched; the value locked drops by its supply |
| Registry.RemoveKeepsValid | src/qrc20/registry.rs:290-297 | removing a token with its two index entries keeps the indexes consistent |
| Registry.TransferRegistryOwnershipSpec | src/qrc20/registry.rs:304-319 | the same gate; only the owner changes |
| Registry.DuplicateSymbolRejected | src/qrc20/registry.rs:361-386 | deploying a symbol a second time fails with `SymbolExists`, whatever the name |
| Registry.QRC20Registry.constructor | src/qrc20/registry.rs:27-35 | the object's state is the empty registry owned by zero |
| Registry.QRC20Registry.WithOwner | src/qrc20/registry.rs:38-42 | the object's state is the empty registry with that owner |
| Registry.QRC20Registry.DeployTokenAdvanced | src/qrc20/registry.rs:66-124 | new state and result are exactly `DeploySpec`; consistency kept |
| Registry.QRC20Registry.DeployToken | src/qrc20/registry.rs:45-63 | new state and result are exactly `DeployDefaultSpec` |
| Registry.QRC20Registry.ExecuteTransaction | src/qrc20/registry.rs:127-210 | new state and result are exactly `ExecuteSpec`; consistency kept |
| Registry.QRC20Registry.RemoveToken | src/qrc20/registry.rs:282-301 | new state and result are exactly `RemoveSpec` |
| Registry.QRC20Registry.TransferRegistryOwnership | src/qrc20/registry.rs:304-319 | new state and result are exactly `TransferRegistryOwnershipSpec` |
| Bridge.NewBridge | src/qrc20/bridge.rs:69-81 | 12 confirmations, 50 bp fee, zero treasury, no operators, consistent |
| Bridge.NewBridgeWithConfig | src/qrc20/bridge.rs:83-100 | the given operators, confirmations, fee and treasury, no records, consistent |
| Bridge.BridgeFee | src/qrc20/bridge.rs:283-285 | the fee is `amount * bp / 10000` rounded down, and at most the amount for any fee up to 100% |
| Bridge.NetAmount | src/qrc20/bridge.rs:121-122 | the net amount never exceeds the amount, and for any fee up to 100% (at most 10000 basis points) net plus fee is the amount |
| Bridge.DefaultFeeExamples | src/qrc20/bridge.rs:506-513 | at 0.5%, 1000 pays 5 (net 995) and 500 pays 2 (net 498) |
| Bridge.Lock | src/qrc20/bridge.rs:160-191 | locks the gross amount, counts the net as minted, records the transaction, Completed iff confirmed enough, configuration kept; every other lock, minted counter and record is unchanged |
| Bridge.MintAndLock | src/qrc20/bridge.rs:125-132 | for a mapped token the owner mints the net to the user, then the lock is recorded; a refused mint changes nothing; soundness kept |
| Bridge.DeployWrapped | src/qrc20/bridge.rs:133-157 | an unmapped token gets a new "Bridged X"/"bX" token with zero supply, owned by the user and mapped both ways; a refused deploy changes nothing; soundness kept |
| Bridge.BridgeFromSpec | src/qrc20/bridge.rs:103-199 | an all-fee amount is refused; success credits the user with the net amount and locks the gross, and leaves every other lock, minted counter, record, registry token and holder of the wrapped token as it was (a first-seen token also gains exactly its two mappings); errors change neither bridge nor registry; soundness (inverse mappings, minted ≤ locked per pair, linked registry) is kept |
| Bridge.DeployThenMint | src/qrc20/bridge.rs:133-191 | for a first-seen external token, the new wrapped token ends up holding exactly the net amount at the next contract address, the lock is recorded, a refused deploy changes nothing, and soundness is kept |
| Bridge.MapPairKeepsValid | src/qrc20/bridge.rs:152-153 | mapping a fresh pair keeps the two mappings inverse |
| Bridge.LockKeepsValid | src/qrc20/bridge.rs:160-166 | locking the gross while minting at most that keeps every pair backed |
| Bridge.Release | src/qrc20/bridge.rs:250-275 | releases the net from the lock, takes the gross off the minted count (saturating) and keeps a Pending record; every other lock, minted counter and record is unchanged |
| Bridge.BridgeToSpec | src/qrc20/bridge.rs:202-280 | not-bridged, too-small, unknown-token and short-balance refusals in that order change nothing; success burns, releases the net and records Pending, leaving every other lock, minted counter and record unchanged; a short lock fails only after the burn; soundness kept |
| Bridge.BurnAndRelease | src/qrc20/bridge.rs:238-275 | the user burns the gross, then the net leaves the lock; with too little locked the burn stays and the bridge is unchanged |
| Bridge.ReleaseKeepsValid | src/qrc20/bridge.rs:250-255 | releasing the net while reducing minted by the gross keeps every pair backed |
| Bridge.ReleaseAtDefaultFee | src/qrc20/bridge.rs:572-608 | with 1000 locked at 0.5%, bridging 500 back leaves 502 locked |
| Bridge.AddOperatorSpec | src/qrc20/bridge.rs:288-299 | gated; appends only if absent, so the list stays duplicate-free |
| Bridge.Without | src/qrc20/bridge.rs:308 | `retain` drops every occurrence and keeps every other address |
| Bridge.RemoveOperatorSpec | src/qrc20/bridge.rs:302-311 | gated; the address is no longer an operator, every other keeps its status |
| Bridge.AddThenRemoveOperator | src/qrc20/bridge.rs:516-533 | adding then removing an operator succeeds and restores everyone else's status |
| Bridge.UpdateStatusSpec | src/qrc20/bridge.rs:319-347 | operators only, the record must exist; the status is replaced, hash and confirmations only when given |
| Bridge.SetConfigSpec | src/qrc20/bridge.rs:415-444 | treasury-gated; a fee above 1000 bp is refused after the new confirmation count is already stored; otherwise each given field replaces the old |
| Bridge.CancelPending | src/qrc20/bridge.rs:453-457 | every Pending record becomes Cancelled, every other is untouched |
| Bridge.EmergencyPauseSpec | src/qrc20/bridge.rs:447-461 | an operator or the treasury cancels all pending records, leaving none pending |
| Bridge.StatusCountsBounded | src/qrc20/bridge.rs:371-412 | completed, pending and failed counts never exceed the total |
| Bridge.MintedWithinLocked | src/qrc20/bridge.rs:371-412 | if each wrapped token's minted count is within its external token's lock, the totals are too |
| Bridge.StatsMintedWithinLocked | src/qrc20/bridge.rs:371-412 | in a consistent bridge the reported total minted never exceeds the total locked |
| Bridge.ERC20Bridge.constructor | src/qrc20/bridge.rs:69-81 | the object's state is `NewBridge` |
| Bridge.ERC20Bridge.WithConfig | src/qrc20/bridge.rs:83-100 | the object's state is `NewBridgeWithConfig` |
| Bridge.ERC20Bridge.BridgeFromEthereum | src/qrc20/bridge.rs:103-199 | new bridge and registry states and the result are exactly `BridgeFromSpec` |
| Bridge.ERC20Bridge.DeployWrappedToken | src/qrc20/bridge.rs:133-157 | exactly `DeployWrapped` |
| Bridge.ERC20Bridge.MintAndRecord | src/qrc20/bridge.rs:125-191 | exactly `MintAndLock` |
| Bridge.ERC20Bridge.RecordLock | src/qrc20/bridge.rs:160-191 | exactly `Lock` |
| Bridge.ERC20Bridge.BridgeToEthereum | src/qrc20/bridge.rs:202-280 | new bridge and registry states and the result are exactly `BridgeToSpec` |
| Bridge.ERC20Bridge.BurnAndRecord | src/qrc20/bridge.rs:238-280 | exactly `BurnAndRelease` |
| Bridge.ERC20Bridge.RecordRelease | src/qrc20/bridge.rs:250-275 | exactly `Release` |
| Bridge.ERC20Bridge.AddOperator | src/qrc20/bridge.rs:288-299 | exactly `AddOperatorSpec` |
| Bridge.ERC20Bridge.RemoveOperator | src/qrc20/bridge.rs:302-311 | the retain loop computes exactly `RemoveOperatorSpec` |
| Bridge.ERC20Bridge.UpdateTransactionStatus | src/qrc20/bridge.rs:319-347 | exactly `UpdateStatusSpec` |
| Bridge.ERC20Bridge.SetConfig | src/qrc20/bridge.rs:415-444 | the field-by-field writes give exactly `SetConfigSpec`, including the partial write |
| Bridge.ERC20Bridge.EmergencyPause | src/qrc20/bridge.rs:447-461 | the loop over records gives exactly `EmergencyPauseSpec` |
| Evm.AddressWord | src/qrc20/evm_integration.rs:110-111 | an address word is 12 zero bytes then the 20 address bytes |
| Evm.UintWord | src/qrc20/evm_integration.rs:113-116 | a 32-byte big-endian amount that reads back as the amount |
| Evm.BigEndianOfValue | src/qrc20/evm_integration.rs:188-190 | reading a word as a number and writing it back gives the word |
| Evm.AddressWordInjective | src/qrc20/evm_integration.rs:110-111 | distinct addresses give distinct words |
| Evm.Call | src/qrc20/evm_integration.rs:105-116 | calldata is the 4-byte selector and then argument i at bytes 4+32i .. 4+32i+32 |
| Evm.DecodeCall | src/qrc20/evm_integration.rs:105-116 | arguments are read back iff the length and the selector fit |
| Evm.CallRoundTrip | src/qrc20/evm_integration.rs:105-116 | calldata decodes to the arguments it was built from |
| Evm.CallOfDecoded | src/qrc20/evm_integration.rs:105-116 | whatever decodes is exactly the calldata of its arguments |
| Evm.CallInjective | src/qrc20/evm_integration.rs:105-116 | equal calldata means equal arguments |
| Evm.TransferInput | src/qrc20/evm_integration.rs:105-116 | 68 bytes: a9059cbb, 12 zero bytes, the recipient, the 32-byte big-endian amount |
| Evm.ApproveInput | src/qrc20/evm_integration.rs:163-171 | 68 bytes: 095ea7b3, 12 zero bytes, the spender, the amount |
| Evm.TransferFromInput | src/qrc20/evm_integration.rs:134-147 | 100 bytes: 23b872dd, padded owner, padded recipient, the amount |
| Evm.BalanceOfInput | src/qrc20/evm_integration.rs:180-184 | 36 bytes: 70a08231 then the padded account |
| Evm.AllowanceInput | src/qrc20/evm_integration.rs:198-206 | 68 bytes: dd62ed3e, padded owner, padded spender |
| Evm.TransferInputInjective | src/qrc20/evm_integration.rs:105-116 | transfer calldata determines its recipient and amount |
| Evm.TransferFromInputInjective | src/qrc20/evm_integration.rs:134-147 | transferFrom calldata determines owner, recipient and amount |
| Evm.TransferIsNotApprove | src/qrc20/evm_integration.rs:105-171 | transfer calldata never equals approve calldata |
| Evm.BoolWordDecodes | src/qrc20/evm_integration.rs:121 | the ABI word for true reads as success, the word for false as failure |
| Evm.DecodeUint | src/qrc20/evm_integration.rs:188-192 | a number iff the result is exactly 32 bytes, below 2^256, else the given error |
| Evm.UintRoundTrip | src/qrc20/evm_integration.rs:188-192 | an encoded amount decodes to itself |
| Evm.UintDecodedIsWord | src/qrc20/evm_integration.rs:188-192 | a decoded amount re-encodes to the exact result bytes |
| Evm.DecodeDecimals | src/qrc20/evm_integration.rs:259-263 | a byte iff the result is 32 bytes, else "Invalid decimals response" |
| Evm.DecimalsRoundTrip | src/qrc20/evm_integration.rs:259-263 | the word of a decimals byte decodes to that byte |
| Evm.DecodeStringAsWritten | src/qrc20/evm_integration.rs:224-232 | the decoder as written panics exactly when the result has 64 bytes and a length word above `usize::MAX - 64`: above `usize::MAX` in `as_usize`, otherwise through the overflow of `64 + length` |
| Evm.DecodeString | src/qrc20/evm_integration.rs:224-232 | succeeds iff there are at least 64 bytes and the length word L fits after them, returning exactly the L bytes from offset 64; else the given error |
| Evm.DecodeStringAgrees | src/qrc20/evm_integration.rs:242-250 | wherever the code as written does not panic, it equals the corrected decoder |
| Evm.DecodeStringPanicsOnHugeLength | src/qrc20/evm_integration.rs:225 | a 64-byte result whose length word is 2^64 panics as written and is an error when corrected |
| Evm.DecodeStringPanicsOnMaxLength | src/qrc20/evm_integration.rs:225-227 | a 64-byte result whose length word is `usize::MAX` passes `as_usize`, then panics at `64 + length` as written, and is an error when corrected |
| Evm.EncodeString | src/qrc20/evm_integration.rs:224-232 | the ABI string encoding puts the length at bytes 32..64 and the bytes from 64 |
| Evm.StringRoundTrip | src/qrc20/evm_integration.rs:224-232 | an ABI-encoded string decodes to its bytes |
| Evm.Erc20ConstructorData | src/qrc20/evm_integration.rs:703-725 | the decimals byte, the 32-byte supply, the name bytes, then the symbol bytes; length 33 + name + symbol |
| Evm.Utf8Concat | src/qrc20/evm_integration.rs:721-722 | the UTF-8 bytes of a concatenation are the concatenated bytes |
| Evm.ConstructorDataAmbiguous | src/qrc20/evm_integration.rs:721-722 | moving characters from the end of the name to the start of the symbol gives the same constructor bytes |
| Evm.DeployErc20Tx | src/qrc20/evm_integration.rs:619-641 | a Legacy contract creation (no recipient, zero value) whose data is exactly the constructor data: the decimals byte, the supply word, then the name's and the symbol's bytes |
| Evm.Erc20TransferTx | src/qrc20/evm_integration.rs:644-671 | a Legacy call to the contract with zero value whose data decodes as transfer(to, amount) |
| Evm.Erc20ApproveTx | src/qrc20/evm_integration.rs:674-701 | a Legacy call to the contract with zero value whose data decodes as approve(spender, amount) |
| Evm.EstimateGas | src/qrc20/evm_integration.rs:481-490 | every estimate is between 25000 and 500000, below the 30M block limit; only deployment costs 500000, and only balanceOf and allowance cost 25000 |
| Evm.WithBalance | src/qrc20/evm_integration.rs:455-462 | creates the account if absent, then sets its balance, keeping its nonce and code and every other account |
| Evm.WithNonce | src/qrc20/evm_integration.rs:437-444 | creates the account if absent, then sets its nonce, keeping its balance and code and every other account |
| Evm.UnknownAccountIsEmpty | src/qrc20/evm_integration.rs:429-452 | an unknown address reads as zero balance, zero nonce and no code |
| Evm.QoraNetEVM.constructor | src/qrc20/evm_integration.rs:39-57 | no accounts; block 0, the given time, gas limit 30M, zero coinbase, chain id 2024 |
| Evm.QoraNetEVM.WithConfig | src/qrc20/evm_integration.rs:59-65 | as `new`, with the chain id, gas limit and coinbase given |
| Evm.QoraNetEVM.SetBalance | src/qrc20/evm_integration.rs:455-462 | the accounts become `WithBalance`; reading back gives the value and the nonce is kept |
| Evm.QoraNetEVM.SetNonce | src/qrc20/evm_integration.rs:437-444 | the accounts become `WithNonce`; reading back gives the value and the balance is kept |
| Evm.QoraNetEVM.UpdateBlockContext | src/qrc20/evm_integration.rs:465-468 | replaces number and timestamp only; the chain id is kept |

## Left out

- Floating-point conversions (`usd_to_qor`, `Balance::from_qor`/`to_qor`, `format_amount`/`parse_amount`, fee oracle, `FeePayment`, `AppMetrics`, `BlockStats`): floating point is not modelled.
- SHA-256, Keccak-256, bincode, RLP and ed25519: these are not interpreted. In `Consensus` they are the functions of a `Crypto` value; transaction hashing in the EVM layer is not modelled.
- RocksDB: the column families are maps, opening the database and I/O errors are not modelled, and `update_metadata` is not part of this model (its entries are a map keyed by name). Reads (`get_block`, `get_block_by_height`, `load_latest_block_info`) are not modelled.
- Time and randomness: the wall clock is a `now` parameter. The bridge's random record ids (`H256::random`) and its mock QoraNet transaction hash are parameters.
- EVM execution (`deploy_erc20`, `call_contract`, `static_call`, `create_contract`, the backend, `create_address`, `create2_address`, bytecode generation): not modelled. The decoders take a call's return bytes as a parameter, and the `storage` map and `Config` fields of `QoraNetEVM` are left out.
- Evm.DecodeString, Evm.DecodeStringAsWritten: return the raw name/symbol bytes; `String::from_utf8_lossy` is not modelled.
- Evm.UintWord, Evm.TransferInput, Evm.ApproveInput, Evm.TransferFromInput, Evm.Erc20ConstructorData, Evm.EncodeString: require the amount to be below 2^256, the range of the source's `U256`. Amounts are unbounded naturals in the rest of the model.
- Token amounts: `U256` is an unbounded natural, so the source's panics on overflow past 2^256 are not modelled. These are in `mint` and a credit, in `amount * bp` in `calculate_bridge_fee` (bridge.rs:284, for amounts above (2^256 - 1)/bp), in `locked + amount` and `minted + net_amount` in `bridge_from_ethereum` (bridge.rs:162, 166), in the sum of `get_total_value_locked` (registry.rs:275-279), and in the four sums of `get_bridge_stats` (bridge.rs:372-373, 391-399), which `Bridge.Stats` computes as unbounded totals.
- Consensus.ValidateHeader, Consensus.ValidateHeaderIff: the u64 addition `now + 300` (block.rs:83-84) is not modelled. The model compares the timestamp against the unbounded sum. For a clock reading above `u64::MAX - 300`, the source panics in a debug build and in a release build wraps below 300 and rejects almost every header. The model accepts such a header when its timestamp is at most the unbounded sum. `Consensus.ValidateBlockIff` inherits this.
- Consensus.NewBlock: requires the fee total to fit u64. The source's `sum()` overflow (a panic or wrap-around depending on the build) is not modelled. `Consensus.ValidateBlock` compares the unbounded sum.
- Token.BurnSpec: the supply is decreased with a saturating subtraction. Because balances sum to the supply, this never differs from the source's plain subtraction.
- Storage.StorageCache.CacheAccount: which of several equally old entries is evicted is left open, as `HashMap` iteration order is.
- Ledger.NonZeroBalancesAgree: `get_all_balances` is modelled as a map; the source's `Vec` order is the `HashMap`'s arbitrary order.
- Plain getters with no logic of their own are not modelled as separate members. These are:
  - the bridge's `get_transaction`, `get_user_transactions`, `get_pending_transactions` and `get_*_mapping`;
  - the registry's `get_token`, `get_token_mut`, `list_tokens`, `token_count`, `token_exists`, `is_*_available`, `get_all_addresses` and `get_tokens_by_owner`;
  - the token's `get_info`, `balance_of` and `allowance`, and the bridge's `is_operator` (`Bridge.IsOperator`);
  - the ledger's `get_qor_balance` and `get_token_balance` (`Ledger.TokenBalance.QorBalance`, `Ledger.TokenBalance.TokenAmount`);
  - the ledger registry's `get_token_info`, `get_qora_address`, `get_fee_tokens` and `get_all_tokens`;
  - the EVM wrapper's `get_balance`, `get_nonce`, `block_number` and `chain_id` (`Evm.QoraNetEVM.BlockNumber`, `Evm.QoraNetEVM.ChainId`);
  - `Block::hash` and `Block::size`.

  Where the model needs one of them, it is a one-line function.
- Networking, the CLI, the validator binary, RPC and the top-level node (`qoranet.rs`) are not part of this model.
- Bridge.BridgeToSpec, Bridge.SetConfigSpec: these follow the code's non-atomic behaviour. A burn is not undone when too little is locked, and a new confirmation count stays stored when the fee is refused. The contracts state this behaviour; it is not corrected.
- Registry.TokenStep, Registry.TokenOpSpec, Registry.ExecuteSpec, Registry.QRC20Registry.ExecuteTransaction: a `TransferFrom` transaction goes to the corrected `transfer_from` (`Token.TransferFromSpec`, see Findings), so a zero-amount transfer from an account with no allowance entry succeeds here where the source's `execute_transaction` panics.
- Storage.AccountState.IncrementNonce: requires the nonce to be below `u64::MAX`; the overflow of `nonce += 1` there (a panic in a debug build, wrap-around to 0 in a release build) is not modelled.
- Registry.DeploySpec: requires that a successful deploy does not push the u64 counter past `u64::MAX`; the overflow panic of `next_contract_id += 1` is not modelled.

## Findings

| source | as written | input that shows it | evidently intended | confidence | as-written member | corrected member |
|---|---|---|---|---|---|---|
| src/qrc20/token.rs:180-183 | `allowances.get_mut(&from).unwrap()` panics when `from` has never approved anyone, even though every check passed | `transfer_from` of amount 0 from an account with no allowance entry, e.g. the owner of a fresh token | the allowance is updated through `entry(..).or_insert_with(..)` as `approve` does, so the zero-amount transfer succeeds | medium, not executed | Token.TransferFromPanicsWithoutApproval | Token.TransferFromSpec |
| src/qrc20/evm_integration.rs:225 | `as_usize()` panics when the length word of a name or symbol response exceeds `usize::MAX` | a 64-byte response whose bytes 32..64 encode 2^64 (latent: reachable only once `static_call`, a placeholder that returns 32 zero bytes at evm_integration.rs:346-357, executes real code) | a malformed response is reported as "Invalid name response" / "Invalid symbol response" | medium, not executed | Evm.DecodeStringPanicsOnHugeLength | Evm.DecodeString |
| src/qrc20/evm_integration.rs:226-227 | `64 + length` overflows when the length word is within 64 of `usize::MAX`: a debug build panics at the addition, a release build wraps below 64 and the slice `64..64 + length` panics | a 64-byte response whose bytes 32..64 encode 2^64 - 1 (latent in the same way: reachable only once `static_call` executes real code) | the same "Invalid name response" / "Invalid symbol response" error, for instance through a checked addition | medium, not executed | Evm.DecodeStringPanicsOnMaxLength | Evm.DecodeString |
