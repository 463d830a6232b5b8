/**
 * The EVM compatibility layer's ERC-20 calldata codec, its result decoders,
 * the transaction builders of `EVMTransaction`, and the account and block
 * context bookkeeping of `QoraNetEVM`. Contract execution itself is not
 * modelled: a call's return bytes are a parameter of the decoders.
 */
module Evm {
  import opened Base
  import opened Qrc20

  // ---------------------------------------------------------------------
  // ABI words

  /** One 32-byte ABI word. */
  type Word = s: seq<byte> | |s| == 32 witness Zeros(32)

  type Selector = s: seq<byte> | |s| == 4 witness [0, 0, 0, 0]

  const TRANSFER_SELECTOR: Selector := [0xa9, 0x05, 0x9c, 0xbb]
  const TRANSFER_FROM_SELECTOR: Selector := [0x23, 0xb8, 0x72, 0xdd]
  const APPROVE_SELECTOR: Selector := [0x09, 0x5e, 0xa7, 0xb3]
  const BALANCE_OF_SELECTOR: Selector := [0x70, 0xa0, 0x82, 0x31]
  const ALLOWANCE_SELECTOR: Selector := [0xdd, 0x62, 0xed, 0x3e]
  const NAME_SELECTOR: Selector := [0x06, 0xfd, 0xde, 0x03]
  const SYMBOL_SELECTOR: Selector := [0x95, 0xd8, 0x9b, 0x41]
  const DECIMALS_SELECTOR: Selector := [0x31, 0x3c, 0xe5, 0x67]
  const TOTAL_SUPPLY_SELECTOR: Selector := [0x18, 0x16, 0x0d, 0xdd]

  /** A `U256` is below 2^256; amounts are unbounded elsewhere in the model. */
  predicate FitsWord(x: nat)
  {
    x < Pow256(32)
  }

  /** An address left-padded with 12 zero bytes. */
  function AddressWord(a: H160): (w: Word)
    ensures w[..12] == Zeros(12) && w[12..] == a.bytes
  {
    Zeros(12) + a.bytes
  }

  /** `U256::to_big_endian` into a 32-byte buffer. */
  function UintWord(x: nat): (w: Word)
    requires FitsWord(x)
    ensures FromBigEndian(w) == x
  {
    BigEndianRoundTrip(x, 32);
    ToBigEndian(x, 32)
  }

  /** Reading a 32-byte word as a number and writing it back gives the word. */
  lemma {:induction false} BigEndianOfValue(s: seq<byte>)
    ensures ToBigEndian(FromBigEndian(s), |s|) == s
  {
    if s != [] {
      var init := s[..|s| - 1];
      BigEndianOfValue(init);
      var x := FromBigEndian(s);
      assert x / 256 == FromBigEndian(init);
      assert x % 256 == s[|s| - 1] as nat;
      assert s == init + [s[|s| - 1]];
    }
  }

  lemma AddressWordInjective(a: H160, b: H160)
    requires AddressWord(a) == AddressWord(b)
    ensures a == b
  {
    assert a.bytes == AddressWord(a)[12..];
  }

  /** The words of a call's arguments, one after another. */
  function Words(ws: seq<Word>): (b: seq<byte>)
    ensures |b| == 32 * |ws|
  {
    if ws == [] then [] else ws[0] + Words(ws[1..])
  }

  /** Cuts a byte string into `n` consecutive words. */
  function SplitWords(b: seq<byte>, n: nat): (ws: seq<Word>)
    requires |b| == 32 * n
    ensures |ws| == n
  {
    if n == 0 then [] else [b[..32]] + SplitWords(b[32..], n - 1)
  }

  lemma {:induction false} SplitWordsOfWords(ws: seq<Word>)
    ensures SplitWords(Words(ws), |ws|) == ws
  {
    if ws != [] {
      var b := Words(ws);
      assert b[..32] == ws[0];
      assert b[32..] == Words(ws[1..]);
      SplitWordsOfWords(ws[1..]);
    }
  }

  lemma {:induction false} WordsOfSplitWords(b: seq<byte>, n: nat)
    requires |b| == 32 * n
    ensures Words(SplitWords(b, n)) == b
  {
    if n > 0 {
      var ws := SplitWords(b, n);
      assert ws[1..] == SplitWords(b[32..], n - 1);
      WordsOfSplitWords(b[32..], n - 1);
    }
  }

  /** Word `i` of a call's arguments sits at bytes 32*i .. 32*i + 32. */
  lemma {:induction false} WordAt(ws: seq<Word>, i: nat)
    requires i < |ws|
    ensures Words(ws)[32 * i..32 * i + 32] == ws[i]
  {
    if i > 0 {
      WordAt(ws[1..], i - 1);
      assert Words(ws)[32..] == Words(ws[1..]);
    }
  }

  /** Calldata: the 4-byte selector followed by the argument words. */
  function Call(selector: Selector, args: seq<Word>): (d: seq<byte>)
    ensures |d| == 4 + 32 * |args| && d[..4] == selector
    ensures forall i :: 0 <= i < |args| ==> d[4 + 32 * i..4 + 32 * i + 32] == args[i]
  {
    var d := selector + Words(args);
    forall i | 0 <= i < |args|
      ensures d[4 + 32 * i..4 + 32 * i + 32] == args[i]
    {
      WordAt(args, i);
      assert d[4 + 32 * i..4 + 32 * i + 32] == Words(args)[32 * i..32 * i + 32];
    }
    d
  }

  /** What a contract reads from calldata: the arguments, if the selector and the length fit. */
  function DecodeCall(selector: Selector, arity: nat, data: seq<byte>): (r: Option<seq<Word>>)
    ensures r.Some? <==> |data| == 4 + 32 * arity && data[..4] == selector
    ensures r.Some? ==> |r.value| == arity
  {
    if |data| == 4 + 32 * arity && data[..4] == selector
    then Some(SplitWords(data[4..], arity))
    else None
  }

  /** Calldata decodes to the arguments it was built from. */
  lemma CallRoundTrip(selector: Selector, args: seq<Word>)
    ensures DecodeCall(selector, |args|, Call(selector, args)) == Some(args)
  {
    var d := Call(selector, args);
    assert d[4..] == Words(args);
    SplitWordsOfWords(args);
  }

  /** Whatever decodes is exactly the calldata of what it decodes to. */
  lemma CallOfDecoded(selector: Selector, arity: nat, data: seq<byte>)
    requires DecodeCall(selector, arity, data).Some?
    ensures Call(selector, DecodeCall(selector, arity, data).value) == data
  {
    WordsOfSplitWords(data[4..], arity);
    assert data == data[..4] + data[4..];
  }

  lemma CallInjective(selector: Selector, args: seq<Word>, args': seq<Word>)
    requires |args| == |args'| && Call(selector, args) == Call(selector, args')
    ensures args == args'
  {
    CallRoundTrip(selector, args);
    CallRoundTrip(selector, args');
  }

  // ---------------------------------------------------------------------
  // ERC-20 call inputs (`QoraNetEVM::erc20_*`, `EVMTransaction::erc20_*`)

  /** `transfer(address,uint256)`. */
  function TransferInput(to: H160, amount: U256): (d: seq<byte>)
    requires FitsWord(amount)
    ensures |d| == 68 && d[..4] == TRANSFER_SELECTOR
    ensures d[4..16] == Zeros(12) && d[16..36] == to.bytes
    ensures d[36..68] == ToBigEndian(amount, 32) && FromBigEndian(d[36..68]) == amount
  {
    var args := [AddressWord(to), UintWord(amount)];
    var d := Call(TRANSFER_SELECTOR, args);
    assert d[4 + 32 * 0..4 + 32 * 0 + 32] == args[0];
    assert d[4 + 32 * 1..4 + 32 * 1 + 32] == args[1];
    assert d[4..16] == d[4..36][..12] && d[16..36] == d[4..36][12..];
    d
  }

  /** `approve(address,uint256)`: the transfer layout under its own selector. */
  function ApproveInput(spender: H160, amount: U256): (d: seq<byte>)
    requires FitsWord(amount)
    ensures |d| == 68 && d[..4] == APPROVE_SELECTOR
    ensures d[4..16] == Zeros(12) && d[16..36] == spender.bytes
    ensures d[36..68] == ToBigEndian(amount, 32) && FromBigEndian(d[36..68]) == amount
  {
    var args := [AddressWord(spender), UintWord(amount)];
    var d := Call(APPROVE_SELECTOR, args);
    assert d[4 + 32 * 0..4 + 32 * 0 + 32] == args[0];
    assert d[4 + 32 * 1..4 + 32 * 1 + 32] == args[1];
    assert d[4..16] == d[4..36][..12] && d[16..36] == d[4..36][12..];
    d
  }

  /** `transferFrom(address,address,uint256)`. */
  function TransferFromInput(from: H160, to: H160, amount: U256): (d: seq<byte>)
    requires FitsWord(amount)
    ensures |d| == 100 && d[..4] == TRANSFER_FROM_SELECTOR
    ensures d[4..16] == Zeros(12) && d[16..36] == from.bytes
    ensures d[36..48] == Zeros(12) && d[48..68] == to.bytes
    ensures d[68..100] == ToBigEndian(amount, 32) && FromBigEndian(d[68..100]) == amount
  {
    var args := [AddressWord(from), AddressWord(to), UintWord(amount)];
    var d := Call(TRANSFER_FROM_SELECTOR, args);
    assert d[4 + 32 * 0..4 + 32 * 0 + 32] == args[0];
    assert d[4 + 32 * 1..4 + 32 * 1 + 32] == args[1];
    assert d[4 + 32 * 2..4 + 32 * 2 + 32] == args[2];
    assert d[4..16] == d[4..36][..12] && d[16..36] == d[4..36][12..];
    assert d[36..68] == AddressWord(to);
    assert d[36..48] == d[36..68][..12] && d[48..68] == d[36..68][12..];
    d
  }

  /** `balanceOf(address)`. */
  function BalanceOfInput(account: H160): (d: seq<byte>)
    ensures |d| == 36 && d[..4] == BALANCE_OF_SELECTOR
    ensures d[4..16] == Zeros(12) && d[16..36] == account.bytes
  {
    var args := [AddressWord(account)];
    var d := Call(BALANCE_OF_SELECTOR, args);
    assert d[4 + 32 * 0..4 + 32 * 0 + 32] == args[0];
    assert d[4..16] == d[4..36][..12] && d[16..36] == d[4..36][12..];
    d
  }

  /** `allowance(address,address)`. */
  function AllowanceInput(owner: H160, spender: H160): (d: seq<byte>)
    ensures |d| == 68 && d[..4] == ALLOWANCE_SELECTOR
    ensures d[4..16] == Zeros(12) && d[16..36] == owner.bytes
    ensures d[36..48] == Zeros(12) && d[48..68] == spender.bytes
  {
    var args := [AddressWord(owner), AddressWord(spender)];
    var d := Call(ALLOWANCE_SELECTOR, args);
    assert d[4 + 32 * 0..4 + 32 * 0 + 32] == args[0];
    assert d[4 + 32 * 1..4 + 32 * 1 + 32] == args[1];
    assert d[4..16] == d[4..36][..12] && d[16..36] == d[4..36][12..];
    assert d[36..68] == AddressWord(spender);
    assert d[36..48] == d[36..68][..12] && d[48..68] == d[36..68][12..];
    d
  }

  /** Different recipients or amounts never give the same transfer calldata. */
  lemma TransferInputInjective(to: H160, amount: U256, to': H160, amount': U256)
    requires FitsWord(amount) && FitsWord(amount')
    requires TransferInput(to, amount) == TransferInput(to', amount')
    ensures to == to' && amount == amount'
  {
    CallInjective(TRANSFER_SELECTOR, [AddressWord(to), UintWord(amount)], [AddressWord(to'), UintWord(amount')]);
    AddressWordInjective(to, to');
  }

  /** A transferFrom input determines its owner, recipient and amount. */
  lemma TransferFromInputInjective(from: H160, to: H160, amount: U256, from': H160, to': H160, amount': U256)
    requires FitsWord(amount) && FitsWord(amount')
    requires TransferFromInput(from, to, amount) == TransferFromInput(from', to', amount')
    ensures from == from' && to == to' && amount == amount'
  {
    CallInjective(TRANSFER_FROM_SELECTOR,
      [AddressWord(from), AddressWord(to), UintWord(amount)],
      [AddressWord(from'), AddressWord(to'), UintWord(amount')]);
    AddressWordInjective(from, from');
    AddressWordInjective(to, to');
  }

  /** A transfer can never be mistaken for an approval: the selectors differ. */
  lemma TransferIsNotApprove(to: H160, amount: U256, spender: H160, amount': U256)
    requires FitsWord(amount) && FitsWord(amount')
    ensures TransferInput(to, amount) != ApproveInput(spender, amount')
  {
    var t := TransferInput(to, amount);
    var a := ApproveInput(spender, amount');
    assert t[..4][0] != a[..4][0];
  }

  // ---------------------------------------------------------------------
  // Result decoders

  /** `result.len() == 32 && result[31] == 1`: how transfer, transferFrom and approve read success. */
  function DecodeBool(result: seq<byte>): bool
  {
    |result| == 32 && result[31] == 1
  }

  /** A contract returning the ABI word for `true` reads as success, `false` as failure. */
  lemma BoolWordDecodes()
    ensures DecodeBool(UintWord(1))
    ensures !DecodeBool(UintWord(0))
  {
    Pow256Monotonic(1, 32);
    assert Pow256(1) == 256;
    assert UintWord(1) == ToBigEndian(0, 31) + [1];
    assert UintWord(0) == ToBigEndian(0, 31) + [0];
  }

  /** A 32-byte big-endian number; any other length is the given error. */
  function DecodeUint(result: seq<byte>, error: string): (r: Result<U256, string>)
    ensures r.Ok? <==> |result| == 32
    ensures r.Ok? ==> FitsWord(r.value)
    ensures r.Err? ==> r.error == error
  {
    if |result| == 32 then Ok(FromBigEndian(result)) else Err(error)
  }

  lemma UintRoundTrip(x: U256, error: string)
    requires FitsWord(x)
    ensures DecodeUint(UintWord(x), error) == Ok(x)
  {
  }

  /** A decoded number is exactly the word it came from. */
  lemma UintDecodedIsWord(result: seq<byte>, error: string)
    requires DecodeUint(result, error).Ok?
    ensures UintWord(DecodeUint(result, error).value) == result
  {
    BigEndianOfValue(result);
  }

  /** `erc20_decimals`: the last byte of a 32-byte result; the high 31 bytes are not checked. */
  function DecodeDecimals(result: seq<byte>): (r: Result<byte, string>)
    ensures r.Ok? <==> |result| == 32
    ensures r.Err? ==> r.error == "Invalid decimals response"
  {
    if |result| == 32 then Ok(result[31]) else Err("Invalid decimals response")
  }

  lemma DecimalsRoundTrip(decimals: byte)
    ensures FitsWord(decimals as nat)
    ensures DecodeDecimals(UintWord(decimals as nat)) == Ok(decimals)
  {
    Pow256Monotonic(1, 32);
    assert Pow256(1) == 256;
    var x := decimals as nat;
    assert x / 256 == 0 && x % 256 == x;
    assert UintWord(x) == ToBigEndian(0, 31) + [decimals];
  }

  /** `usize` on a 64-bit target. */
  const USIZE_MAX: nat := U64_MAX

  /** The length word of an ABI string: bytes 32 .. 64. */
  function LengthWord(result: seq<byte>): nat
    requires |result| >= 64
  {
    FromBigEndian(result[32..64])
  }

  /**
   * `erc20_name` and `erc20_symbol` as written; `None` is a panic. A
   * length word above `usize::MAX` panics in `as_usize`; one within 64 of
   * it makes `64 + length` overflow, which panics in a debug build and in
   * a release build wraps below 64, so that the slice `64..64 + length`
   * panics instead.
   */
  function DecodeStringAsWritten(result: seq<byte>, error: string): (r: Option<Result<seq<byte>, string>>)
    ensures r.None? <==> |result| >= 64 && LengthWord(result) > USIZE_MAX - 64
    ensures r.Some? && r.value.Ok? ==> |result| >= 64 && |result| >= 64 + LengthWord(result)
  {
    if |result| >= 64 then
      var length := LengthWord(result);
      if length > USIZE_MAX then None
      else if 64 + length > USIZE_MAX then None
      else if |result| >= 64 + length then Some(Ok(result[64..64 + length]))
      else Some(Err(error))
    else Some(Err(error))
  }

  /**
   * `erc20_name` and `erc20_symbol` with every malformed response an
   * error: the bytes 64 .. 64 + L, where L is the length word, when all of
   * them are present.
   */
  function DecodeString(result: seq<byte>, error: string): (r: Result<seq<byte>, string>)
    ensures r.Ok? <==> |result| >= 64 && 64 + LengthWord(result) <= |result|
    ensures r.Ok? ==> |r.value| == LengthWord(result) && r.value == result[64..][..|r.value|]
    ensures r.Err? ==> r.error == error
  {
    if |result| >= 64 && 64 + LengthWord(result) <= |result|
    then Ok(result[64..64 + LengthWord(result)])
    else Err(error)
  }

  /** Wherever the code as written does not panic, it agrees with the corrected decoder. */
  lemma DecodeStringAgrees(result: seq<byte>, error: string)
    requires DecodeStringAsWritten(result, error).Some?
    ensures DecodeStringAsWritten(result, error).value == DecodeString(result, error)
  {
  }

  /** A 64-byte response whose length word is 2^64 makes the code as written panic. */
  lemma DecodeStringPanicsOnHugeLength(error: string)
    ensures FitsWord(Pow256(8))
    ensures DecodeStringAsWritten(Zeros(32) + UintWord(Pow256(8)), error).None?
    ensures DecodeString(Zeros(32) + UintWord(Pow256(8)), error) == Err(error)
  {
    assert Pow256(8) == 0x1_0000_0000_0000_0000;
    Pow256Monotonic(9, 32);
    SliceAfterPrefix(Zeros(32), UintWord(Pow256(8)));
  }

  /**
   * A 64-byte response whose length word is `usize::MAX` passes `as_usize`
   * and then overflows `64 + length`: the code as written panics.
   */
  lemma DecodeStringPanicsOnMaxLength(error: string)
    ensures FitsWord(USIZE_MAX)
    ensures DecodeStringAsWritten(Zeros(32) + UintWord(USIZE_MAX), error).None?
    ensures DecodeString(Zeros(32) + UintWord(USIZE_MAX), error) == Err(error)
  {
    assert Pow256(8) == 0x1_0000_0000_0000_0000;
    Pow256Monotonic(8, 32);
    SliceAfterPrefix(Zeros(32), UintWord(USIZE_MAX));
  }

  /** The bytes after a prefix of a concatenation are its second part. */
  lemma SliceAfterPrefix(prefix: seq<byte>, rest: seq<byte>)
    ensures (prefix + rest)[|prefix|..|prefix| + |rest|] == rest
  {
  }

  /** The ABI encoding of a dynamic `string` return value: offset, length, bytes, zero padding. */
  function EncodeString(b: seq<byte>): (r: seq<byte>)
    requires FitsWord(|b|)
    ensures |r| >= 64 + |b| && r[32..64] == UintWord(|b|) && r[64..64 + |b|] == b
  {
    Pow256Monotonic(1, 32);
    assert Pow256(1) == 256;
    var padding := Zeros(31 - (|b| + 31) % 32);
    TwoWordsThenBytes(UintWord(32), UintWord(|b|), b, padding);
    UintWord(32) + UintWord(|b|) + b + padding
  }

  /** Where the second word and the payload sit in `first + second + payload + padding`. */
  lemma TwoWordsThenBytes(first: Word, second: Word, payload: seq<byte>, padding: seq<byte>)
    ensures var r := first + second + payload + padding;
            |r| >= 64 + |payload| && r[32..64] == second && r[64..64 + |payload|] == payload
  {
  }

  lemma StringRoundTrip(b: seq<byte>, error: string)
    requires FitsWord(|b|)
    ensures DecodeString(EncodeString(b), error) == Ok(b)
  {
    var r := EncodeString(b);
    assert LengthWord(r) == |b|;
  }

  // ---------------------------------------------------------------------
  // Transactions

  datatype EVMTransactionType = Legacy | EIP2930 | EIP1559

  datatype EVMTransaction = EVMTransaction(
    from: H160,
    to: Option<H160>,
    value: U256,
    gasLimit: U256,
    gasPrice: U256,
    data: seq<byte>,
    nonce: U256,
    transactionType: EVMTransactionType)

  /**
   * `encode_erc20_constructor`: the decimals byte, the 32-byte supply, then
   * the name's and the symbol's UTF-8 bytes with no length or separator.
   */
  function Erc20ConstructorData(name: string, symbol: string, decimals: byte, totalSupply: U256): (d: seq<byte>)
    requires FitsWord(totalSupply)
    ensures |d| == 33 + Utf8Length(name) + Utf8Length(symbol)
    ensures d[0] == decimals && FromBigEndian(d[1..33]) == totalSupply
    ensures d[33..33 + Utf8Length(name)] == Utf8(name) && d[33 + Utf8Length(name)..] == Utf8(symbol)
    ensures d[33..] == Utf8(name) + Utf8(symbol)
  {
    var head := [decimals] + UintWord(totalSupply);
    var tail := Utf8(name) + Utf8(symbol);
    assert head[1..] == UintWord(totalSupply);
    assert tail[..Utf8Length(name)] == Utf8(name) && tail[Utf8Length(name)..] == Utf8(symbol);
    assert (head + tail)[33..] == tail;
    head + tail
  }

  lemma {:induction false} Utf8Concat(a: string, b: string)
    ensures Utf8(a + b) == Utf8(a) + Utf8(b)
  {
    if a != [] {
      assert (a + b)[0] == a[0] && (a + b)[1..] == a[1..] + b;
      Utf8Concat(a[1..], b);
      calc {
        Utf8(a + b);
        EncodeChar(a[0]) + Utf8(a[1..] + b);
        EncodeChar(a[0]) + (Utf8(a[1..]) + Utf8(b));
        Utf8(a) + Utf8(b);
      }
    } else {
      assert a + b == b;
    }
  }

  /**
   * The constructor encoding does not separate name from symbol: moving a
   * suffix of the name to the front of the symbol gives the same bytes.
   */
  lemma ConstructorDataAmbiguous(name: string, moved: string, symbol: string, decimals: byte, totalSupply: U256)
    requires FitsWord(totalSupply)
    ensures Erc20ConstructorData(name + moved, symbol, decimals, totalSupply)
         == Erc20ConstructorData(name, moved + symbol, decimals, totalSupply)
  {
    Utf8Concat(name, moved);
    Utf8Concat(moved, symbol);
    ShiftBoundary([decimals] + UintWord(totalSupply), Utf8(name), Utf8(moved), Utf8(symbol));
  }

  /** Moving the boundary between the last two parts of a concatenation leaves it unchanged. */
  lemma ShiftBoundary(header: seq<byte>, first: seq<byte>, moved: seq<byte>, second: seq<byte>)
    ensures header + (first + moved) + second == header + first + (moved + second)
  {
  }

  /** `EVMTransaction::deploy_erc20`: a contract creation carrying the constructor data. */
  function DeployErc20Tx(from: H160, name: string, symbol: string, decimals: byte, totalSupply: U256,
                         gasLimit: U256, gasPrice: U256, nonce: U256): (tx: EVMTransaction)
    requires FitsWord(totalSupply)
    ensures tx.to.None? && tx.value == 0 && tx.transactionType == Legacy
    ensures tx.from == from && tx.gasLimit == gasLimit && tx.gasPrice == gasPrice && tx.nonce == nonce
    ensures tx.data == Erc20ConstructorData(name, symbol, decimals, totalSupply)
    ensures |tx.data| == 33 + Utf8Length(name) + Utf8Length(symbol)
    ensures tx.data[0] == decimals && FromBigEndian(tx.data[1..33]) == totalSupply
    ensures tx.data[33..] == Utf8(name) + Utf8(symbol)
  {
    EVMTransaction(from, None, 0, gasLimit, gasPrice,
      Erc20ConstructorData(name, symbol, decimals, totalSupply), nonce, Legacy)
  }

  /** `EVMTransaction::erc20_transfer`: a call to `contract` carrying transfer calldata. */
  function Erc20TransferTx(from: H160, contract: H160, to: H160, amount: U256,
                           gasLimit: U256, gasPrice: U256, nonce: U256): (tx: EVMTransaction)
    requires FitsWord(amount)
    ensures tx.to == Some(contract) && tx.value == 0 && tx.transactionType == Legacy
    ensures tx.from == from && tx.gasLimit == gasLimit && tx.gasPrice == gasPrice && tx.nonce == nonce
    ensures |tx.data| == 68 && tx.data[..4] == TRANSFER_SELECTOR
    ensures DecodeCall(TRANSFER_SELECTOR, 2, tx.data) == Some([AddressWord(to), UintWord(amount)])
  {
    CallRoundTrip(TRANSFER_SELECTOR, [AddressWord(to), UintWord(amount)]);
    EVMTransaction(from, Some(contract), 0, gasLimit, gasPrice, TransferInput(to, amount), nonce, Legacy)
  }

  /** `EVMTransaction::erc20_approve`: a call to `contract` carrying approve calldata. */
  function Erc20ApproveTx(from: H160, contract: H160, spender: H160, amount: U256,
                          gasLimit: U256, gasPrice: U256, nonce: U256): (tx: EVMTransaction)
    requires FitsWord(amount)
    ensures tx.to == Some(contract) && tx.value == 0 && tx.transactionType == Legacy
    ensures tx.from == from && tx.gasLimit == gasLimit && tx.gasPrice == gasPrice && tx.nonce == nonce
    ensures |tx.data| == 68 && tx.data[..4] == APPROVE_SELECTOR
    ensures DecodeCall(APPROVE_SELECTOR, 2, tx.data) == Some([AddressWord(spender), UintWord(amount)])
  {
    CallRoundTrip(APPROVE_SELECTOR, [AddressWord(spender), UintWord(amount)]);
    EVMTransaction(from, Some(contract), 0, gasLimit, gasPrice, ApproveInput(spender, amount), nonce, Legacy)
  }

  // ---------------------------------------------------------------------
  // Gas estimates

  datatype EVMOperation = Deploy | Transfer | Approve | TransferFrom | BalanceOf | Allowance

  const DEFAULT_BLOCK_GAS_LIMIT: nat := 30_000_000

  /** `estimate_gas`: a fixed table; deployment is the dearest and every entry fits a default block. */
  function EstimateGas(operation: EVMOperation): (gas: u64)
    ensures 25_000 <= gas <= 500_000 < DEFAULT_BLOCK_GAS_LIMIT
    ensures gas == 500_000 <==> operation == EVMOperation.Deploy
    ensures gas == 25_000 <==> operation in {EVMOperation.BalanceOf, EVMOperation.Allowance}
  {
    match operation
    case Deploy => 500_000
    case Transfer => 50_000
    case Approve => 45_000
    case TransferFrom => 55_000
    case BalanceOf => 25_000
    case Allowance => 25_000
  }

  // ---------------------------------------------------------------------
  // Accounts and block context

  datatype Account = Account(balance: U256, nonce: U256, code: seq<byte>)

  /** The account `entry(..).or_insert_with` creates. */
  const EMPTY_ACCOUNT: Account := Account(0, 0, [])

  datatype BlockContext = BlockContext(
    number: U256,
    timestamp: U256,
    difficulty: U256,
    gasLimit: U256,
    coinbase: H160,
    chainId: U256)

  const QORANET_CHAIN_ID: nat := 2024

  /** The block context of `QoraNetEVM::new`; `now` stands for the system clock. */
  function DefaultBlockContext(now: U256): BlockContext
  {
    BlockContext(0, now, 0, DEFAULT_BLOCK_GAS_LIMIT, H160.Zero(), QORANET_CHAIN_ID)
  }

  function AccountOf(accounts: map<H160, Account>, address: H160): Account
  {
    if address in accounts then accounts[address] else EMPTY_ACCOUNT
  }

  /** `set_balance` on the account map: create the account if absent, then overwrite its balance. */
  function WithBalance(accounts: map<H160, Account>, address: H160, balance: U256): (m: map<H160, Account>)
    ensures m.Keys == accounts.Keys + {address}
    ensures AccountOf(m, address).balance == balance
    ensures AccountOf(m, address).nonce == AccountOf(accounts, address).nonce
    ensures AccountOf(m, address).code == AccountOf(accounts, address).code
    ensures forall a :: a in accounts && a != address ==> m[a] == accounts[a]
  {
    accounts[address := AccountOf(accounts, address).(balance := balance)]
  }

  /** `set_nonce` on the account map: create the account if absent, then overwrite its nonce. */
  function WithNonce(accounts: map<H160, Account>, address: H160, nonce: U256): (m: map<H160, Account>)
    ensures m.Keys == accounts.Keys + {address}
    ensures AccountOf(m, address).nonce == nonce
    ensures AccountOf(m, address).balance == AccountOf(accounts, address).balance
    ensures AccountOf(m, address).code == AccountOf(accounts, address).code
    ensures forall a :: a in accounts && a != address ==> m[a] == accounts[a]
  {
    accounts[address := AccountOf(accounts, address).(nonce := nonce)]
  }

  /** An unknown address reads as an empty account: zero balance, zero nonce, no code. */
  lemma UnknownAccountIsEmpty(accounts: map<H160, Account>, address: H160)
    requires address !in accounts
    ensures AccountOf(accounts, address).balance == 0
    ensures AccountOf(accounts, address).nonce == 0
    ensures AccountOf(accounts, address).code == []
  {
  }

  class QoraNetEVM {
    var accounts: map<H160, Account>
    var blockContext: BlockContext

    /** `QoraNetEVM::new`, with the clock reading `now` as a parameter. */
    constructor (now: U256)
      ensures accounts == map[]
      ensures blockContext == DefaultBlockContext(now)
    {
      accounts := map[];
      blockContext := DefaultBlockContext(now);
    }

    /** `QoraNetEVM::with_config`. */
    constructor WithConfig(now: U256, chainId: u64, gasLimit: u64, coinbase: H160)
      ensures accounts == map[]
      ensures blockContext == DefaultBlockContext(now).(chainId := chainId, gasLimit := gasLimit, coinbase := coinbase)
    {
      accounts := map[];
      var context := DefaultBlockContext(now);
      context := context.(chainId := chainId);
      context := context.(gasLimit := gasLimit);
      context := context.(coinbase := coinbase);
      blockContext := context;
    }

    /** `get_balance`: zero for an address with no account. */
    function GetBalance(address: H160): (balance: U256)
      reads this
      ensures address !in accounts ==> balance == 0
      ensures address in accounts ==> balance == accounts[address].balance
    {
      AccountOf(accounts, address).balance
    }

    /** `get_nonce`: zero for an address with no account. */
    function GetNonce(address: H160): (nonce: U256)
      reads this
      ensures address !in accounts ==> nonce == 0
      ensures address in accounts ==> nonce == accounts[address].nonce
    {
      AccountOf(accounts, address).nonce
    }

    method SetBalance(address: H160, balance: U256)
      modifies this`accounts
      ensures accounts == WithBalance(old(accounts), address, balance)
      ensures GetBalance(address) == balance && GetNonce(address) == old(GetNonce(address))
    {
      var account := if address in accounts then accounts[address] else EMPTY_ACCOUNT;
      account := account.(balance := balance);
      accounts := accounts[address := account];
    }

    method SetNonce(address: H160, nonce: U256)
      modifies this`accounts
      ensures accounts == WithNonce(old(accounts), address, nonce)
      ensures GetNonce(address) == nonce && GetBalance(address) == old(GetBalance(address))
    {
      var account := if address in accounts then accounts[address] else EMPTY_ACCOUNT;
      account := account.(nonce := nonce);
      accounts := accounts[address := account];
    }

    /** `update_block_context`: new number and timestamp, everything else kept. */
    method UpdateBlockContext(number: U256, timestamp: U256)
      modifies this`blockContext
      ensures blockContext == old(blockContext).(number := number, timestamp := timestamp)
      ensures BlockNumber() == number && ChainId() == old(ChainId())
    {
      blockContext := blockContext.(number := number);
      blockContext := blockContext.(timestamp := timestamp);
    }

    function BlockNumber(): U256
      reads this
    {
      blockContext.number
    }

    function ChainId(): U256
      reads this
    {
      blockContext.chainId
    }
  }
}
