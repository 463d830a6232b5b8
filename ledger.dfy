/**
 * Ledger primitives of the node library: 32-byte hashes and addresses,
 * the hex address parser and its printer, checked single- and multi-token
 * balances, LP token pairing and the registry of bridged ERC-20 tokens.
 */
module Ledger {
  import opened Base

  datatype QoraNetError =
    | InvalidTransaction(message: string)
    | InsufficientLiquidity(required: u64, available: u64)
    | AppMonitorError(message: string)
    | NetworkError(message: string)
    | StorageError(message: string)
    | ConsensusError(message: string)
    | TokenError(message: string)
    | BridgeError(message: string)

  datatype Hash = Hash(bytes: Bytes32)
  {
    static function Zero(): Hash
    {
      Hash(Zeros(32))
    }
  }

  datatype Address = Address(bytes: Bytes32)
  {
    /** The native QOR token lives at the all-zero address. */
    static function NativeQor(): Address
    {
      Address(Zeros(32))
    }

    predicate IsNativeQor()
    {
      bytes == Zeros(32)
    }
  }

  // ---------------------------------------------------------------------
  // Hex text (the `hex` crate: lower-case encoding, case-insensitive decoding)

  function HexDigit(n: nat): char
    requires n < 16
  {
    "0123456789abcdef"[n]
  }

  function HexValue(c: char): (v: Option<nat>)
    ensures v.Some? ==> v.value < 16 && c as int < 0x80
  {
    if '0' <= c <= '9' then Some(c as int - '0' as int)
    else if 'a' <= c <= 'f' then Some(c as int - 'a' as int + 10)
    else if 'A' <= c <= 'F' then Some(c as int - 'A' as int + 10)
    else None
  }

  function HexEncode(bytes: seq<byte>): (s: string)
    ensures |s| == 2 * |bytes|
  {
    if bytes == [] then ""
    else [HexDigit(bytes[0] as nat / 16), HexDigit(bytes[0] as nat % 16)] + HexEncode(bytes[1..])
  }

  /** `hex::decode`: None for an odd length or any character that is not a hex digit. */
  function HexDecode(s: string): Option<seq<byte>>
  {
    if |s| % 2 == 1 then None else DecodePairs(s)
  }

  function DecodePairs(s: string): (r: Option<seq<byte>>)
    ensures r.Some? ==> 2 * |r.value| == |s|
  {
    if s == [] then Some([])
    else if |s| == 1 then None
    else
      var high, low, rest := HexValue(s[0]), HexValue(s[1]), DecodePairs(s[2..]);
      if high.None? || low.None? || rest.None? then None
      else Some([(16 * high.value + low.value) as byte] + rest.value)
  }

  /** Only text made of hex digits decodes, so decodable text is ASCII. */
  lemma {:induction false} DecodedIsAscii(s: string)
    requires DecodePairs(s).Some?
    ensures IsAscii(s)
    decreases |s|
  {
    if s != [] {
      DecodedIsAscii(s[2..]);
      assert forall i :: 2 <= i < |s| ==> s[i] == s[2..][i - 2];
    }
  }

  lemma HexDigitValue(n: nat)
    requires n < 16
    ensures HexValue(HexDigit(n)) == Some(n)
  {
  }

  /** Decoding one more leading pair of hex digits prepends its byte. */
  lemma DecodePairsCons(high: char, low: char, rest: string)
    requires DecodePairs(rest).Some? && HexValue(high).Some? && HexValue(low).Some?
    ensures DecodePairs([high, low] + rest)
            == Some([(16 * HexValue(high).value + HexValue(low).value) as byte]
                    + DecodePairs(rest).value)
  {
    var s := [high, low] + rest;
    assert s[0] == high && s[1] == low && s[2..] == rest;
    assert |s| >= 2;
  }

  lemma HexEncodeEvenLength(bytes: seq<byte>)
    ensures |HexEncode(bytes)| % 2 == 0
  {
    var n := |bytes|;
    assert |HexEncode(bytes)| == 2 * n;
  }

  lemma {:induction false} DecodePairsOfHex(bytes: seq<byte>)
    ensures DecodePairs(HexEncode(bytes)) == Some(bytes)
  {
    if bytes != [] {
      var b := bytes[0] as nat;
      var high, low := HexDigit(b / 16), HexDigit(b % 16);
      DecodePairsOfHex(bytes[1..]);
      HexDigitValue(b / 16);
      HexDigitValue(b % 16);
      assert HexEncode(bytes) == [high, low] + HexEncode(bytes[1..]);
      DecodePairsCons(high, low, HexEncode(bytes[1..]));
      assert 16 * (b / 16) + b % 16 == b;
      assert [bytes[0]] + bytes[1..] == bytes;
    }
  }

  lemma HexRoundTrip(bytes: seq<byte>)
    ensures HexDecode(HexEncode(bytes)) == Some(bytes)
  {
    HexEncodeEvenLength(bytes);
    DecodePairsOfHex(bytes);
  }

  lemma {:induction false} AsciiLength(s: string)
    requires IsAscii(s)
    ensures Utf8Length(s) == |s|
  {
    if s != [] {
      assert IsAscii(s[1..]) by {
        assert forall i :: 0 <= i < |s[1..]| ==> s[1..][i] == s[i + 1];
      }
      AsciiLength(s[1..]);
    }
  }

  lemma {:induction false} HexEncodeIsAsciiDigits(bytes: seq<byte>)
    ensures forall i :: 0 <= i < |HexEncode(bytes)| ==> HexValue(HexEncode(bytes)[i]).Some?
    ensures IsAscii(HexEncode(bytes))
  {
    if bytes != [] {
      HexEncodeIsAsciiDigits(bytes[1..]);
      var s := HexEncode(bytes);
      assert forall i :: 2 <= i < |s| ==> s[i] == HexEncode(bytes[1..])[i - 2];
    }
  }

  /** The optional "0x" prefix `from_hex` strips. */
  function StripHexPrefix(s: string): string
  {
    if |s| >= 2 && s[..2] == "0x" then s[2..] else s
  }

  /**
   * `Address::from_hex`: strip an optional "0x", demand exactly 64 bytes of
   * text (Rust's `str::len` counts UTF-8 bytes), then decode the hex.
   */
  function FromHex(text: string): (r: Result<Address, QoraNetError>)
    ensures r.Ok? <==>
              Utf8Length(StripHexPrefix(text)) == 64 && HexDecode(StripHexPrefix(text)).Some?
    ensures r.Ok? ==> r.value.bytes == HexDecode(StripHexPrefix(text)).value
    ensures r.Ok? ==> |StripHexPrefix(text)| == 64
    ensures Utf8Length(StripHexPrefix(text)) != 64 ==> r == Err(TokenError("Invalid address length"))
    ensures Utf8Length(StripHexPrefix(text)) == 64 && HexDecode(StripHexPrefix(text)).None? ==>
              r == Err(TokenError("Invalid hex address"))
  {
    var clean := StripHexPrefix(text);
    if Utf8Length(clean) != 64 then Err(TokenError("Invalid address length"))
    else
      match HexDecode(clean)
      case None => Err(TokenError("Invalid hex address"))
      case Some(bytes) =>
        DecodedIsAscii(clean);
        AsciiLength(clean);
        Ok(Address(bytes))
  }

  /** `Display for Address`: "QOR" for the native token, lower-case hex otherwise. */
  function Display(a: Address): string
  {
    if a.IsNativeQor() then "QOR" else HexEncode(a.bytes)
  }

  /** Every non-native address survives printing and parsing, with or without "0x". */
  lemma DisplayRoundTrip(a: Address)
    requires !a.IsNativeQor()
    ensures FromHex(Display(a)) == Ok(a)
    ensures FromHex("0x" + Display(a)) == Ok(a)
  {
    var s := HexEncode(a.bytes);
    HexEncodeIsAsciiDigits(a.bytes);
    AsciiLength(s);
    HexRoundTrip(a.bytes);
    assert HexValue('x').None?;
    assert s[1] != 'x' by {
      assert HexValue(s[1]).Some?;
    }
    assert StripHexPrefix(s) == s;
    assert ("0x" + s)[..2] == "0x";
    assert ("0x" + s)[2..] == s;
  }

  /** The native address prints as "QOR", which the parser refuses. */
  lemma NativeQorDisplayRejected()
    ensures Display(Address.NativeQor()) == "QOR"
    ensures FromHex(Display(Address.NativeQor())) == Err(TokenError("Invalid address length"))
  {
    assert Address.NativeQor().IsNativeQor();
    assert Utf8Length("QOR") == 3;
  }

  // ---------------------------------------------------------------------
  // Balances

  /** The amount recorded for `token`, zero when absent. */
  function AmountOf(balances: map<Address, u64>, token: Address): u64
  {
    if token in balances then balances[token] else 0
  }

  /** `get_all_balances`: the entries whose amount is positive. */
  function NonZeroBalances(balances: map<Address, u64>): map<Address, u64>
  {
    map a | a in balances && balances[a] > 0 :: balances[a]
  }

  lemma NonZeroBalancesAgree(balances: map<Address, u64>, token: Address)
    ensures token in NonZeroBalances(balances) <==> AmountOf(balances, token) > 0
    ensures token in NonZeroBalances(balances) ==>
              NonZeroBalances(balances)[token] == AmountOf(balances, token)
  {
  }

  /** `add_tokens` on the balance map: a checked u64 addition. */
  function Credit(balances: map<Address, u64>, token: Address, amount: u64): (r: Result<map<Address, u64>, QoraNetError>)
    ensures r.Ok? <==> AmountOf(balances, token) + amount <= U64_MAX
    ensures r.Ok? ==> AmountOf(r.value, token) == AmountOf(balances, token) + amount
    ensures r.Ok? ==> forall t :: t != token ==> AmountOf(r.value, t) == AmountOf(balances, t)
    ensures r.Err? ==> r.error == InvalidTransaction("Token balance overflow")
  {
    var current := AmountOf(balances, token);
    if current + amount > U64_MAX then Err(InvalidTransaction("Token balance overflow"))
    else Ok(balances[token := current + amount])
  }

  /** `subtract_tokens` on the balance map: a checked u64 subtraction. */
  function Debit(balances: map<Address, u64>, token: Address, amount: u64): (r: Result<map<Address, u64>, QoraNetError>)
    ensures r.Ok? <==> amount <= AmountOf(balances, token)
    ensures r.Ok? ==> AmountOf(r.value, token) == AmountOf(balances, token) - amount
    ensures r.Ok? ==> forall t :: t != token ==> AmountOf(r.value, t) == AmountOf(balances, t)
    ensures r.Err? ==> r.error == InsufficientLiquidity(amount, AmountOf(balances, token))
  {
    var current := AmountOf(balances, token);
    if current < amount then Err(InsufficientLiquidity(amount, current))
    else Ok(balances[token := current - amount])
  }

  /** Subtracting what was just added succeeds and restores every amount. */
  lemma CreditThenDebit(balances: map<Address, u64>, token: Address, amount: u64)
    requires Credit(balances, token, amount).Ok?
    ensures Debit(Credit(balances, token, amount).value, token, amount).Ok?
    ensures forall t :: AmountOf(Debit(Credit(balances, token, amount).value, token, amount).value, t)
                        == AmountOf(balances, t)
  {
    var credited := Credit(balances, token, amount).value;
    var debited := Debit(credited, token, amount).value;
    forall t
      ensures AmountOf(debited, t) == AmountOf(balances, t)
    {
      if t != token {
        assert AmountOf(debited, t) == AmountOf(credited, t);
      }
    }
  }

  /** Multi-token balance of one account (QOR plus bridged ERC-20 tokens). */
  class TokenBalance {
    var balances: map<Address, u64>

    constructor ()
      ensures balances == map[]
    {
      balances := map[];
    }

    function QorBalance(): u64
      reads this
    {
      AmountOf(balances, Address.NativeQor())
    }

    function TokenAmount(token: Address): u64
      reads this
    {
      AmountOf(balances, token)
    }

    function AllBalances(): map<Address, u64>
      reads this
    {
      NonZeroBalances(balances)
    }

    method AddTokens(token: Address, amount: u64) returns (r: Result<(), QoraNetError>)
      modifies this
      ensures old(TokenAmount(token)) + amount > U64_MAX ==>
                r == Err(InvalidTransaction("Token balance overflow")) && balances == old(balances)
      ensures old(TokenAmount(token)) + amount <= U64_MAX ==>
                r == Ok(()) && balances == old(balances)[token := old(TokenAmount(token)) + amount]
      ensures r.Ok? <==> Credit(old(balances), token, amount).Ok?
      ensures r.Ok? ==> balances == Credit(old(balances), token, amount).value
    {
      var current := AmountOf(balances, token);
      if current + amount > U64_MAX {
        return Err(InvalidTransaction("Token balance overflow"));
      }
      balances := balances[token := current + amount];
      r := Ok(());
    }

    method SubtractTokens(token: Address, amount: u64) returns (r: Result<(), QoraNetError>)
      modifies this
      ensures old(TokenAmount(token)) < amount ==>
                r == Err(InsufficientLiquidity(amount, old(TokenAmount(token)))) && balances == old(balances)
      ensures old(TokenAmount(token)) >= amount ==>
                r == Ok(()) && balances == old(balances)[token := old(TokenAmount(token)) - amount]
      ensures r.Ok? <==> Debit(old(balances), token, amount).Ok?
      ensures r.Ok? ==> balances == Debit(old(balances), token, amount).value
    {
      var current := AmountOf(balances, token);
      if current < amount {
        return Err(InsufficientLiquidity(amount, current));
      }
      balances := balances[token := current - amount];
      r := Ok(());
    }
  }

  /** The single-slot balance `to_token_balance` produces: empty for zero. */
  function NativeSlot(amount: u64): map<Address, u64>
  {
    if amount > 0 then map[Address.NativeQor() := amount] else map[]
  }

  lemma NativeSlotKeepsQor(amount: u64)
    ensures AmountOf(NativeSlot(amount), Address.NativeQor()) == amount
    ensures NativeSlot(amount) == map[] <==> amount == 0
    ensures forall token :: token != Address.NativeQor() ==> AmountOf(NativeSlot(amount), token) == 0
  {
    if amount > 0 {
      assert Address.NativeQor() in NativeSlot(amount);
    }
  }

  /** Legacy QOR-only balance. */
  class Balance {
    var amount: u64

    constructor (amount: u64)
      ensures this.amount == amount
    {
      this.amount := amount;
    }

    method Add(other: u64) returns (r: Result<(), QoraNetError>)
      modifies this
      ensures old(amount) + other > U64_MAX ==>
                r == Err(InvalidTransaction("Balance overflow")) && amount == old(amount)
      ensures old(amount) + other <= U64_MAX ==> r == Ok(()) && amount == old(amount) + other
    {
      if amount + other > U64_MAX {
        return Err(InvalidTransaction("Balance overflow"));
      }
      amount := amount + other;
      r := Ok(());
    }

    method Subtract(other: u64) returns (r: Result<(), QoraNetError>)
      modifies this
      ensures old(amount) < other ==>
                r == Err(InsufficientLiquidity(other, old(amount))) && amount == old(amount)
      ensures old(amount) >= other ==> r == Ok(()) && amount == old(amount) - other
    {
      if amount < other {
        return Err(InsufficientLiquidity(other, amount));
      }
      amount := amount - other;
      r := Ok(());
    }

    /** The contents of the `TokenBalance` that `to_token_balance` builds. */
    function ToTokenBalance(): map<Address, u64>
      reads this
    {
      NativeSlot(amount)
    }
  }

  // ---------------------------------------------------------------------
  // LP tokens

  datatype PoolType = QorErc20 | Erc20Erc20 | Native

  datatype LPToken = LPToken(poolAddress: Address, amount: u64, tokenA: Address, tokenB: Address, poolType: PoolType)
  {
    predicate HasQor()
    {
      tokenA.IsNativeQor() || tokenB.IsNativeQor()
    }

    /** The non-QOR side of the pair, if the pair has a QOR side. */
    function PairedToken(): Option<Address>
    {
      if tokenA.IsNativeQor() then Some(tokenB)
      else if tokenB.IsNativeQor() then Some(tokenA)
      else None
    }
  }

  lemma PairedTokenIffHasQor(lp: LPToken)
    ensures lp.HasQor() <==> lp.PairedToken().Some?
    ensures lp.PairedToken().Some? ==>
              (lp.PairedToken().value == lp.tokenA || lp.PairedToken().value == lp.tokenB)
    ensures lp.tokenA.IsNativeQor() ==> lp.PairedToken() == Some(lp.tokenB)
    ensures !lp.tokenA.IsNativeQor() && lp.tokenB.IsNativeQor() ==> lp.PairedToken() == Some(lp.tokenA)
  {
  }

  // ---------------------------------------------------------------------
  // Registry of bridged ERC-20 tokens

  datatype ERC20TokenInfo = ERC20TokenInfo(
    ethereumAddress: string,
    qoranetAddress: Address,
    name: string,
    symbol: string,
    decimals: byte,
    totalSupply: u64,
    isFeeToken: bool)

  class TokenRegistry {
    var tokens: map<Address, ERC20TokenInfo>
    var ethereumToQora: map<string, Address>

    /** Every Ethereum address maps to a registered token. */
    predicate Indexed()
      reads this
    {
      forall e :: e in ethereumToQora ==> ethereumToQora[e] in tokens
    }

    constructor ()
      ensures tokens == map[] && ethereumToQora == map[]
      ensures Indexed()
    {
      tokens := map[];
      ethereumToQora := map[];
    }

    method RegisterErc20(info: ERC20TokenInfo) returns (r: Result<(), QoraNetError>)
      modifies this
      ensures info.ethereumAddress in old(ethereumToQora) ==>
                r == Err(InvalidTransaction("Token already registered"))
                && tokens == old(tokens) && ethereumToQora == old(ethereumToQora)
      ensures info.ethereumAddress !in old(ethereumToQora) ==>
                r == Ok(())
                && ethereumToQora == old(ethereumToQora)[info.ethereumAddress := info.qoranetAddress]
                && tokens == old(tokens)[info.qoranetAddress := info]
      ensures old(Indexed()) ==> Indexed()
    {
      if info.ethereumAddress in ethereumToQora {
        return Err(InvalidTransaction("Token already registered"));
      }
      ethereumToQora := ethereumToQora[info.ethereumAddress := info.qoranetAddress];
      tokens := tokens[info.qoranetAddress := info];
      r := Ok(());
    }
  }
}
