/**
 * A single QRC-20 token. `TokenState` is the token's value and the
 * `...Spec` functions say what each operation does to it; the class
 * `QRC20Token` keeps the same fields and updates them in place, and each of
 * its methods is proved to agree with the corresponding specification.
 * The central invariant is conservation: the balances sum to the total
 * supply.
 */
module Token {
  import opened Base
  import opened Qrc20

  /** The allowance `holder` granted `spender`; zero when there is no entry. */
  function Lookup(m: map<H160, map<H160, U256>>, holder: H160, spender: H160): U256
  {
    if holder in m then Get(m[holder], spender) else 0
  }

  /**
   * `allowances.entry(holder).or_insert_with(HashMap::new).insert(spender, amount)`:
   * exactly one allowance is overwritten.
   */
  function SetAllowance(m: map<H160, map<H160, U256>>, holder: H160, spender: H160, amount: U256)
    : (r: map<H160, map<H160, U256>>)
    ensures Lookup(r, holder, spender) == amount
    ensures forall h, sp | h != holder || sp != spender :: Lookup(r, h, sp) == Lookup(m, h, sp)
  {
    var inner := if holder in m then m[holder] else map[];
    m[holder := inner[spender := amount]]
  }

  /** How much a movement of `amount` from `from` to `to` changes the balance of `a`. */
  function Flow(a: H160, from: H160, to: H160, amount: U256): int
  {
    (if a == to then amount else 0) - (if a == from then amount else 0)
  }

  /**
   * Debit `from`, then credit `to` reading the debited map, as `transfer`
   * does; when `from == to` the two writes cancel out.
   */
  function Move(b: map<H160, U256>, from: H160, to: H160, amount: U256): (r: map<H160, U256>)
    requires amount <= Get(b, from)
    ensures forall a :: Get(r, a) == Get(b, a) + Flow(a, from, to, amount)
    ensures Total(r) == Total(b)
  {
    var low := Get(b, from) - amount;
    var debited := b[from := low];
    var high := Get(debited, to) + amount;
    TotalUpdate(b, from, low);
    TotalUpdate(debited, to, high);
    assert Total(debited) + amount == Total(b);
    debited[to := high]
  }

  datatype TokenState = TokenState(
    name: string,
    symbol: string,
    decimals: byte,
    totalSupply: U256,
    contractAddress: H160,
    balances: map<H160, U256>,
    allowances: map<H160, map<H160, U256>>,
    owner: H160,
    paused: bool,
    maxSupply: U256,   // 0 means no limit
    mintable: bool,
    burnable: bool)
  {
    function BalanceOf(account: H160): U256
    {
      Get(balances, account)
    }

    function Allowance(holder: H160, spender: H160): U256
    {
      Lookup(allowances, holder, spender)
    }

    /** The balances add up to the total supply. */
    ghost predicate Conserved()
    {
      Total(balances) == totalSupply
    }
  }

  /** The token after an operation, and what the operation returned. */
  datatype Step = Step(token: TokenState, result: QRC20Result<QRC20Event>)

  /** `QRC20Token::new`: the owner holds the whole supply, no cap, mintable and burnable. */
  function NewToken(name: string, symbol: string, decimals: byte, totalSupply: U256, owner: H160)
    : (t: TokenState)
    ensures t.Conserved()
    ensures t.BalanceOf(owner) == totalSupply
    ensures forall a | a != owner :: t.BalanceOf(a) == 0
    ensures forall h, sp :: t.Allowance(h, sp) == 0
    ensures t.contractAddress.IsZero() && !t.paused
    ensures t.maxSupply == 0 && t.mintable && t.burnable
  {
    TotalSingleton(owner, totalSupply);
    TokenState(name, symbol, decimals, totalSupply, H160.Zero(), map[owner := totalSupply], map[],
               owner, false, 0, true, true)
  }

  /** `QRC20Token::new_advanced`: as `new`, with the cap and the two flags given. */
  function NewAdvancedToken(name: string, symbol: string, decimals: byte, totalSupply: U256,
                            owner: H160, maxSupply: U256, mintable: bool, burnable: bool)
    : (t: TokenState)
    ensures t.Conserved()
    ensures t.BalanceOf(owner) == totalSupply
    ensures forall a | a != owner :: t.BalanceOf(a) == 0
    ensures forall h, sp :: t.Allowance(h, sp) == 0
    ensures t.contractAddress.IsZero() && !t.paused
    ensures t.maxSupply == maxSupply && t.mintable == mintable && t.burnable == burnable
  {
    TotalSingleton(owner, totalSupply);
    TokenState(name, symbol, decimals, totalSupply, H160.Zero(), map[owner := totalSupply], map[],
               owner, false, maxSupply, mintable, burnable)
  }

  /** `transfer`: paused first, then the sender's balance; on success only balances move. */
  function TransferSpec(t: TokenState, from: H160, to: H160, amount: U256): (s: Step)
    ensures t.paused ==> s == Step(t, Err(TokenPaused))
    ensures !t.paused && t.BalanceOf(from) < amount ==>
              s == Step(t, Err(InsufficientBalance(amount, t.BalanceOf(from))))
    ensures s.result.Ok? <==> !t.paused && amount <= t.BalanceOf(from)
    ensures s.result.Ok? ==>
              s.result.value == QRC20Event.Transfer(t.contractAddress, from, to, amount)
              && s.token == t.(balances := s.token.balances)
              && forall a :: s.token.BalanceOf(a) == t.BalanceOf(a) + Flow(a, from, to, amount)
    ensures t.Conserved() ==> s.token.Conserved()
  {
    if t.paused then Step(t, Err(TokenPaused))
    else if t.BalanceOf(from) < amount then
      Step(t, Err(InsufficientBalance(amount, t.BalanceOf(from))))
    else
      Step(t.(balances := Move(t.balances, from, to, amount)),
           Ok(QRC20Event.Transfer(t.contractAddress, from, to, amount)))
  }

  /** `approve`: overwrites one allowance, rejected while paused. */
  function ApproveSpec(t: TokenState, holder: H160, spender: H160, amount: U256): (s: Step)
    ensures t.paused ==> s == Step(t, Err(TokenPaused))
    ensures !t.paused ==>
              s.result == Ok(Approval(t.contractAddress, holder, spender, amount))
              && s.token.Allowance(holder, spender) == amount
    ensures forall h, sp | h != holder || sp != spender ::
              s.token.Allowance(h, sp) == t.Allowance(h, sp)
    ensures s.token == t.(allowances := s.token.allowances)
  {
    if t.paused then Step(t, Err(TokenPaused))
    else
      Step(t.(allowances := SetAllowance(t.allowances, holder, spender, amount)),
           Ok(Approval(t.contractAddress, holder, spender, amount)))
  }

  /**
   * `transfer_from` as evidently intended: paused, then the allowance, then
   * the balance, all before any change; on success the allowance drops by
   * exactly `amount` (its entry is created if `from` never approved anyone)
   * and the balances move as in `transfer`.
   */
  function TransferFromSpec(t: TokenState, spender: H160, from: H160, to: H160, amount: U256)
    : (s: Step)
    ensures t.paused ==> s == Step(t, Err(TokenPaused))
    ensures !t.paused && t.Allowance(from, spender) < amount ==>
              s == Step(t, Err(InsufficientAllowance(amount, t.Allowance(from, spender))))
    ensures !t.paused && amount <= t.Allowance(from, spender) && t.BalanceOf(from) < amount ==>
              s == Step(t, Err(InsufficientBalance(amount, t.BalanceOf(from))))
    ensures s.result.Ok? <==>
              !t.paused && amount <= t.Allowance(from, spender) && amount <= t.BalanceOf(from)
    ensures s.result.Ok? ==>
              s.result.value == QRC20Event.Transfer(t.contractAddress, from, to, amount)
              && s.token == t.(balances := s.token.balances, allowances := s.token.allowances)
              && s.token.Allowance(from, spender) == t.Allowance(from, spender) - amount
              && (forall h, sp | h != from || sp != spender ::
                    s.token.Allowance(h, sp) == t.Allowance(h, sp))
              && forall a :: s.token.BalanceOf(a) == t.BalanceOf(a) + Flow(a, from, to, amount)
    ensures t.Conserved() ==> s.token.Conserved()
  {
    var allowance := t.Allowance(from, spender);
    if t.paused then Step(t, Err(TokenPaused))
    else if allowance < amount then Step(t, Err(InsufficientAllowance(amount, allowance)))
    else if t.BalanceOf(from) < amount then
      Step(t, Err(InsufficientBalance(amount, t.BalanceOf(from))))
    else
      Step(t.(allowances := SetAllowance(t.allowances, from, spender, allowance - amount),
              balances := Move(t.balances, from, to, amount)),
           Ok(QRC20Event.Transfer(t.contractAddress, from, to, amount)))
  }

  /**
   * `transfer_from` as written: `allowances.get_mut(&from).unwrap()` panics
   * (here: `None`) when `from` has no allowance entry at all.
   */
  function TransferFromAsWritten(t: TokenState, spender: H160, from: H160, to: H160, amount: U256)
    : Option<Step>
  {
    var allowance := t.Allowance(from, spender);
    if t.paused then Some(Step(t, Err(TokenPaused)))
    else if allowance < amount then Some(Step(t, Err(InsufficientAllowance(amount, allowance))))
    else if t.BalanceOf(from) < amount then
      Some(Step(t, Err(InsufficientBalance(amount, t.BalanceOf(from)))))
    else if from !in t.allowances then None
    else
      var inner: map<H160, U256> := t.allowances[from][spender := allowance - amount];
      Some(Step(t.(allowances := t.allowances[from := inner],
                   balances := Move(t.balances, from, to, amount)),
                Ok(QRC20Event.Transfer(t.contractAddress, from, to, amount))))
  }

  /**
   * The panic is reachable: a zero-amount `transfer_from` out of an account
   * that never approved anyone passes every check, then panics, where the
   * corrected operation succeeds.
   */
  lemma TransferFromPanicsWithoutApproval(t: TokenState, spender: H160, from: H160, to: H160)
    requires !t.paused && from !in t.allowances
    ensures TransferFromAsWritten(t, spender, from, to, 0) == None
    ensures TransferFromSpec(t, spender, from, to, 0).result.Ok?
  {
  }

  /** A fresh token is such an account for everyone. */
  lemma FreshTokenTransferFromPanics(owner: H160, spender: H160, to: H160)
    ensures TransferFromAsWritten(NewToken("Test Token", "TEST", 18, 1000, owner),
                                  spender, owner, to, 0) == None
  {
    TransferFromPanicsWithoutApproval(NewToken("Test Token", "TEST", 18, 1000, owner),
                                      spender, owner, to);
  }

  /** Apart from the panic, the code as written and the corrected operation agree. */
  lemma TransferFromAsWrittenAgrees(t: TokenState, spender: H160, from: H160, to: H160, amount: U256)
    requires TransferFromAsWritten(t, spender, from, to, amount).Some?
    ensures TransferFromAsWritten(t, spender, from, to, amount)
              == Some(TransferFromSpec(t, spender, from, to, amount))
    ensures amount == 0 ==> from in t.allowances || t.paused
  {
  }

  /**
   * `mint`: owner, then mintable, then paused, then the cap (when nonzero);
   * on success `to` and the supply both grow by `amount`, never past a
   * nonzero cap.
   */
  function MintSpec(t: TokenState, caller: H160, to: H160, amount: U256): (s: Step)
    ensures caller != t.owner ==> s == Step(t, Err(OnlyOwner))
    ensures caller == t.owner && !t.mintable ==>
              s == Step(t, Err(EVMExecutionFailed("Token is not mintable")))
    ensures caller == t.owner && t.mintable && t.paused ==> s == Step(t, Err(TokenPaused))
    ensures caller == t.owner && t.mintable && !t.paused
            && t.maxSupply != 0 && t.totalSupply + amount > t.maxSupply ==>
              s == Step(t, Err(EVMExecutionFailed("Would exceed max supply")))
    ensures s.result.Ok? <==>
              caller == t.owner && t.mintable && !t.paused
              && (t.maxSupply == 0 || t.totalSupply + amount <= t.maxSupply)
    ensures s.result.Ok? ==>
              s.result.value == QRC20Event.Mint(t.contractAddress, to, amount)
              && s.token == t.(balances := s.token.balances, totalSupply := s.token.totalSupply)
              && s.token.totalSupply == t.totalSupply + amount
              && (t.maxSupply != 0 ==> s.token.totalSupply <= t.maxSupply)
              && forall a :: s.token.BalanceOf(a) == t.BalanceOf(a) + (if a == to then amount else 0)
    ensures t.Conserved() ==> s.token.Conserved()
  {
    if caller != t.owner then Step(t, Err(OnlyOwner))
    else if !t.mintable then Step(t, Err(EVMExecutionFailed("Token is not mintable")))
    else if t.paused then Step(t, Err(TokenPaused))
    else if t.maxSupply != 0 && t.totalSupply + amount > t.maxSupply then
      Step(t, Err(EVMExecutionFailed("Would exceed max supply")))
    else
      TotalUpdate(t.balances, to, t.BalanceOf(to) + amount);
      Step(t.(balances := t.balances[to := t.BalanceOf(to) + amount],
              totalSupply := t.totalSupply + amount),
           Ok(QRC20Event.Mint(t.contractAddress, to, amount)))
  }

  /**
   * `burn`: burnable, then paused, then the balance; anyone may burn their
   * own tokens, and `from` and the supply both drop by `amount`.
   */
  function BurnSpec(t: TokenState, from: H160, amount: U256): (s: Step)
    ensures !t.burnable ==> s == Step(t, Err(EVMExecutionFailed("Token is not burnable")))
    ensures t.burnable && t.paused ==> s == Step(t, Err(TokenPaused))
    ensures t.burnable && !t.paused && t.BalanceOf(from) < amount ==>
              s == Step(t, Err(InsufficientBalance(amount, t.BalanceOf(from))))
    ensures s.result.Ok? <==> t.burnable && !t.paused && amount <= t.BalanceOf(from)
    ensures s.result.Ok? ==>
              s.result.value == QRC20Event.Burn(t.contractAddress, from, amount)
              && s.token == t.(balances := s.token.balances, totalSupply := s.token.totalSupply)
              && forall a :: s.token.BalanceOf(a) == t.BalanceOf(a) - (if a == from then amount else 0)
    ensures t.Conserved() && s.result.Ok? ==> s.token.totalSupply == t.totalSupply - amount
    ensures t.Conserved() ==> s.token.Conserved()
  {
    if !t.burnable then Step(t, Err(EVMExecutionFailed("Token is not burnable")))
    else if t.paused then Step(t, Err(TokenPaused))
    else if t.BalanceOf(from) < amount then
      Step(t, Err(InsufficientBalance(amount, t.BalanceOf(from))))
    else
      TotalUpdate(t.balances, from, t.BalanceOf(from) - amount);
      Step(t.(balances := t.balances[from := t.BalanceOf(from) - amount],
              totalSupply := if amount <= t.totalSupply then t.totalSupply - amount else 0),
           Ok(QRC20Event.Burn(t.contractAddress, from, amount)))
  }

  /** `pause`: only the owner; sets the flag and changes nothing else. */
  function PauseSpec(t: TokenState, caller: H160): (s: Step)
    ensures s.result.Ok? <==> caller == t.owner
    ensures s.result.Err? ==> s == Step(t, Err(OnlyOwner))
    ensures s.result.Ok? ==>
              s.token == t.(paused := true)
              && s.result.value == PauseStatusChanged(t.contractAddress, true)
  {
    if caller != t.owner then Step(t, Err(OnlyOwner))
    else Step(t.(paused := true), Ok(PauseStatusChanged(t.contractAddress, true)))
  }

  /** `unpause`: only the owner; clears the flag and changes nothing else. */
  function UnpauseSpec(t: TokenState, caller: H160): (s: Step)
    ensures s.result.Ok? <==> caller == t.owner
    ensures s.result.Err? ==> s == Step(t, Err(OnlyOwner))
    ensures s.result.Ok? ==>
              s.token == t.(paused := false)
              && s.result.value == PauseStatusChanged(t.contractAddress, false)
  {
    if caller != t.owner then Step(t, Err(OnlyOwner))
    else Step(t.(paused := false), Ok(PauseStatusChanged(t.contractAddress, false)))
  }

  /** `transfer_ownership`: only the owner; replaces the owner and nothing else. */
  function TransferOwnershipSpec(t: TokenState, caller: H160, newOwner: H160): (s: Step)
    ensures s.result.Ok? <==> caller == t.owner
    ensures s.result.Err? ==> s == Step(t, Err(OnlyOwner))
    ensures s.result.Ok? ==>
              s.token == t.(owner := newOwner)
              && s.result.value == OwnershipTransferred(t.contractAddress, t.owner, newOwner)
  {
    if caller != t.owner then Step(t, Err(OnlyOwner))
    else Step(t.(owner := newOwner), Ok(OwnershipTransferred(t.contractAddress, t.owner, newOwner)))
  }

  /** The operations a QRC-20 transaction can request. */
  datatype QRC20Transaction =
    | Deploy(name: string, symbol: string, decimals: byte, totalSupply: U256,
             maxSupply: Option<U256>, mintable: Option<bool>, burnable: Option<bool>)
    | Transfer(contract: H160, to: H160, amount: U256)
    | Approve(contract: H160, spender: H160, amount: U256)
    | TransferFrom(contract: H160, from: H160, to: H160, amount: U256)
    | Mint(contract: H160, to: H160, amount: U256)
    | Burn(contract: H160, amount: U256)
    | Pause(contract: H160)
    | Unpause(contract: H160)
    | TransferOwnership(contract: H160, newOwner: H160)

  /**
   * The same token as an object whose fields the operations update in
   * place. `name`, `symbol`, `decimals`, the cap and the two flags never
   * change after construction.
   */
  class QRC20Token {
    const name: string
    const symbol: string
    const decimals: byte
    var totalSupply: U256
    var contractAddress: H160
    var balances: map<H160, U256>
    var allowances: map<H160, map<H160, U256>>
    var owner: H160
    var paused: bool
    const maxSupply: U256
    const mintable: bool
    const burnable: bool

    function State(): TokenState
      reads this
    {
      TokenState(name, symbol, decimals, totalSupply, contractAddress, balances, allowances,
                 owner, paused, maxSupply, mintable, burnable)
    }

    ghost predicate Valid()
      reads this
    {
      State().Conserved()
    }

    constructor (name: string, symbol: string, decimals: byte, totalSupply: U256, owner: H160)
      ensures State() == NewToken(name, symbol, decimals, totalSupply, owner)
      ensures Valid()
    {
      this.name := name;
      this.symbol := symbol;
      this.decimals := decimals;
      this.totalSupply := totalSupply;
      contractAddress := H160.Zero();
      balances := map[owner := totalSupply];
      allowances := map[];
      this.owner := owner;
      paused := false;
      maxSupply := 0;
      mintable := true;
      burnable := true;
    }

    constructor Advanced(name: string, symbol: string, decimals: byte, totalSupply: U256,
                         owner: H160, maxSupply: U256, mintable: bool, burnable: bool)
      ensures State() == NewAdvancedToken(name, symbol, decimals, totalSupply, owner,
                                          maxSupply, mintable, burnable)
      ensures Valid()
    {
      this.name := name;
      this.symbol := symbol;
      this.decimals := decimals;
      this.totalSupply := totalSupply;
      contractAddress := H160.Zero();
      balances := map[owner := totalSupply];
      allowances := map[];
      this.owner := owner;
      paused := false;
      this.maxSupply := maxSupply;
      this.mintable := mintable;
      this.burnable := burnable;
    }

    function BalanceOf(account: H160): U256
      reads this
    {
      State().BalanceOf(account)
    }

    function Allowance(holder: H160, spender: H160): U256
      reads this
    {
      State().Allowance(holder, spender)
    }

    method Transfer(from: H160, to: H160, amount: U256) returns (r: QRC20Result<QRC20Event>)
      requires Valid()
      modifies this`balances
      ensures Step(State(), r) == TransferSpec(old(State()), from, to, amount)
      ensures Valid()
    {
      if paused {
        return Err(TokenPaused);
      }
      var fromBalance := BalanceOf(from);
      if fromBalance < amount {
        return Err(InsufficientBalance(amount, fromBalance));
      }
      balances := balances[from := fromBalance - amount];
      var toBalance := BalanceOf(to);
      balances := balances[to := toBalance + amount];
      r := Ok(QRC20Event.Transfer(contractAddress, from, to, amount));
    }

    method Approve(holder: H160, spender: H160, amount: U256) returns (r: QRC20Result<QRC20Event>)
      requires Valid()
      modifies this`allowances
      ensures Step(State(), r) == ApproveSpec(old(State()), holder, spender, amount)
      ensures Valid()
    {
      if paused {
        return Err(TokenPaused);
      }
      var inner := if holder in allowances then allowances[holder] else map[];
      allowances := allowances[holder := inner[spender := amount]];
      r := Ok(Approval(contractAddress, holder, spender, amount));
    }

    /** The corrected `transfer_from`: the missing allowance entry is created, not unwrapped. */
    method TransferFrom(spender: H160, from: H160, to: H160, amount: U256)
      returns (r: QRC20Result<QRC20Event>)
      requires Valid()
      modifies this`balances, this`allowances
      ensures Step(State(), r) == TransferFromSpec(old(State()), spender, from, to, amount)
      ensures Valid()
    {
      if paused {
        return Err(TokenPaused);
      }
      var allowance := Allowance(from, spender);
      if allowance < amount {
        return Err(InsufficientAllowance(amount, allowance));
      }
      var fromBalance := BalanceOf(from);
      if fromBalance < amount {
        return Err(InsufficientBalance(amount, fromBalance));
      }
      ghost var spec := TransferFromSpec(State(), spender, from, to, amount);
      var inner := if from in allowances then allowances[from] else map[];
      allowances := allowances[from := inner[spender := allowance - amount]];
      balances := balances[from := fromBalance - amount];
      var toBalance := BalanceOf(to);
      balances := balances[to := toBalance + amount];
      r := Ok(QRC20Event.Transfer(contractAddress, from, to, amount));
      assert State() == spec.token;
    }

    method Mint(caller: H160, to: H160, amount: U256) returns (r: QRC20Result<QRC20Event>)
      requires Valid()
      modifies this`balances, this`totalSupply
      ensures Step(State(), r) == MintSpec(old(State()), caller, to, amount)
      ensures Valid()
    {
      if caller != owner {
        return Err(OnlyOwner);
      }
      if !mintable {
        return Err(EVMExecutionFailed("Token is not mintable"));
      }
      if paused {
        return Err(TokenPaused);
      }
      if maxSupply != 0 && totalSupply + amount > maxSupply {
        return Err(EVMExecutionFailed("Would exceed max supply"));
      }
      var toBalance := BalanceOf(to);
      balances := balances[to := toBalance + amount];
      totalSupply := totalSupply + amount;
      r := Ok(QRC20Event.Mint(contractAddress, to, amount));
    }

    method Burn(from: H160, amount: U256) returns (r: QRC20Result<QRC20Event>)
      requires Valid()
      modifies this`balances, this`totalSupply
      ensures Step(State(), r) == BurnSpec(old(State()), from, amount)
      ensures Valid()
    {
      if !burnable {
        return Err(EVMExecutionFailed("Token is not burnable"));
      }
      if paused {
        return Err(TokenPaused);
      }
      var fromBalance := BalanceOf(from);
      if fromBalance < amount {
        return Err(InsufficientBalance(amount, fromBalance));
      }
      ValueAtMostTotal(balances, from);
      balances := balances[from := fromBalance - amount];
      totalSupply := totalSupply - amount;
      r := Ok(QRC20Event.Burn(contractAddress, from, amount));
    }

    method Pause(caller: H160) returns (r: QRC20Result<QRC20Event>)
      modifies this`paused
      ensures Step(State(), r) == PauseSpec(old(State()), caller)
    {
      if caller != owner {
        return Err(OnlyOwner);
      }
      paused := true;
      r := Ok(PauseStatusChanged(contractAddress, true));
    }

    method Unpause(caller: H160) returns (r: QRC20Result<QRC20Event>)
      modifies this`paused
      ensures Step(State(), r) == UnpauseSpec(old(State()), caller)
    {
      if caller != owner {
        return Err(OnlyOwner);
      }
      paused := false;
      r := Ok(PauseStatusChanged(contractAddress, false));
    }

    method TransferOwnership(caller: H160, newOwner: H160) returns (r: QRC20Result<QRC20Event>)
      modifies this`owner
      ensures Step(State(), r) == TransferOwnershipSpec(old(State()), caller, newOwner)
    {
      if caller != owner {
        return Err(OnlyOwner);
      }
      var oldOwner := owner;
      owner := newOwner;
      r := Ok(OwnershipTransferred(contractAddress, oldOwner, newOwner));
    }

    /** Called once, during deployment. */
    method SetContractAddress(address: H160)
      modifies this`contractAddress
      ensures State() == old(State()).(contractAddress := address)
    {
      contractAddress := address;
    }
  }
}
