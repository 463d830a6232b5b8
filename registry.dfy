/**
 * The QRC-20 registry: every deployed token, held by value under a
 * counter-derived contract address, with symbol and name indexes that keep
 * both unique. `RegistryState` and the `...Spec` functions say what each
 * operation does; the class `QRC20Registry` updates the same fields in
 * place and is proved to agree with them.
 */
module Registry {
  import opened Base
  import opened Qrc20
  import opened Token

  /** The first contract id handed out. */
  const FIRST_CONTRACT_ID: u64 := 1000

  datatype RegistryState = RegistryState(
    tokens: map<H160, TokenState>,
    symbolToAddress: map<string, H160>,
    nameToAddress: map<string, H160>,
    nextContractId: u64,
    registryOwner: H160)
  {
    /** Each token sits under its own address, below the counter, and conserves its supply. */
    ghost predicate TokensValid()
    {
      forall a | a in tokens ::
        tokens[a].contractAddress == a && ContractId(a) < nextContractId && tokens[a].Conserved()
    }

    /** The symbol index and the token map agree in both directions. */
    predicate SymbolsIndexed()
    {
      (forall s | s in symbolToAddress ::
         symbolToAddress[s] in tokens && tokens[symbolToAddress[s]].symbol == s)
      && (forall a | a in tokens ::
            tokens[a].symbol in symbolToAddress && symbolToAddress[tokens[a].symbol] == a)
    }

    /** The name index and the token map agree in both directions. */
    predicate NamesIndexed()
    {
      (forall n | n in nameToAddress ::
         nameToAddress[n] in tokens && tokens[nameToAddress[n]].name == n)
      && (forall a | a in tokens ::
            tokens[a].name in nameToAddress && nameToAddress[tokens[a].name] == a)
    }

    ghost predicate Valid()
    {
      TokensValid() && SymbolsIndexed() && NamesIndexed()
    }

    /** Deploying with these labels cannot overflow the u64 counter. */
    predicate CanDeploy(name: string, symbol: string)
    {
      symbol in symbolToAddress || name in nameToAddress || nextContractId < U64_MAX
    }
  }

  /** The registry after an operation, and what the operation returned. */
  datatype Outcome<T> = Outcome(registry: RegistryState, result: QRC20Result<T>)

  /** `QRC20Registry::new` (with `registry_owner` zero) and `with_owner`. */
  function NewRegistry(owner: H160): (r: RegistryState)
    ensures r.Valid()
    ensures r.tokens == map[] && r.nextContractId == FIRST_CONTRACT_ID && r.registryOwner == owner
  {
    RegistryState(map[], map[], map[], FIRST_CONTRACT_ID, owner)
  }

  /** The supply of every token, keyed by address. */
  function Supplies(tokens: map<H160, TokenState>): (m: map<H160, U256>)
    ensures m.Keys == tokens.Keys
    ensures forall a | a in tokens :: m[a] == tokens[a].totalSupply
  {
    map a | a in tokens :: tokens[a].totalSupply
  }

  /**
   * `get_total_value_locked`: the supplies of all tokens added up, so it
   * bounds every single supply and is zero for an empty registry.
   */
  ghost function TotalValueLocked(r: RegistryState): (tvl: U256)
    ensures forall a | a in r.tokens :: r.tokens[a].totalSupply <= tvl
    ensures r.tokens == map[] ==> tvl == 0
  {
    SuppliesWithinTotal(r.tokens);
    Total(Supplies(r.tokens))
  }

  lemma SuppliesWithinTotal(tokens: map<H160, TokenState>)
    ensures forall a | a in tokens :: tokens[a].totalSupply <= Total(Supplies(tokens))
    ensures tokens == map[] ==> Total(Supplies(tokens)) == 0
  {
    forall a | a in tokens
      ensures tokens[a].totalSupply <= Total(Supplies(tokens))
    {
      ValueAtMostTotal(Supplies(tokens), a);
    }
    if tokens == map[] {
      assert Supplies(tokens) == map[];
    }
  }

  /** Replacing one token changes the value locked by the change in its supply. */
  lemma TotalValueLockedUpdate(tokens: map<H160, TokenState>, a: H160, t: TokenState)
    ensures Total(Supplies(tokens[a := t])) + Get(Supplies(tokens), a)
              == Total(Supplies(tokens)) + t.totalSupply
  {
    assert Supplies(tokens[a := t]) == Supplies(tokens)[a := t.totalSupply];
    TotalUpdate(Supplies(tokens), a, t.totalSupply);
  }

  /**
   * The token `deploy_token_advanced` creates: `new` when no cap is given
   * (so the flags are ignored and both hold), else `new_advanced` with each
   * missing flag defaulting to true.
   */
  function Issue(deployer: H160, name: string, symbol: string, decimals: byte, totalSupply: U256,
                 maxSupply: Option<U256>, mintable: Option<bool>, burnable: Option<bool>)
    : (t: TokenState)
    ensures t.Conserved()
    ensures t.name == name && t.symbol == symbol && t.decimals == decimals
    ensures t.owner == deployer && t.totalSupply == totalSupply && !t.paused
    ensures t.BalanceOf(deployer) == totalSupply
    ensures forall a | a != deployer :: t.BalanceOf(a) == 0
    ensures maxSupply.None? ==> t.maxSupply == 0 && t.mintable && t.burnable
    ensures maxSupply.Some? ==>
              t.maxSupply == maxSupply.value
              && t.mintable == mintable.UnwrapOr(true) && t.burnable == burnable.UnwrapOr(true)
  {
    match maxSupply
    case Some(cap) =>
      NewAdvancedToken(name, symbol, decimals, totalSupply, deployer, cap,
                       mintable.UnwrapOr(true), burnable.UnwrapOr(true))
    case None => NewToken(name, symbol, decimals, totalSupply, deployer)
  }

  function NameTakenMessage(name: string): string
  {
    "Token name '" + name + "' already exists"
  }

  /**
   * `deploy_token_advanced`: the symbol is checked first, then the name;
   * either rejection changes nothing. Otherwise the token goes under the
   * address of the current counter, which then moves on by one.
   */
  function DeploySpec(r: RegistryState, deployer: H160, name: string, symbol: string,
                      decimals: byte, totalSupply: U256,
                      maxSupply: Option<U256>, mintable: Option<bool>, burnable: Option<bool>)
    : (o: Outcome<H160>)
    requires r.CanDeploy(name, symbol)
    ensures symbol in r.symbolToAddress ==> o == Outcome(r, Err(SymbolExists(symbol)))
    ensures symbol !in r.symbolToAddress && name in r.nameToAddress ==>
              o == Outcome(r, Err(EVMExecutionFailed(NameTakenMessage(name))))
    ensures o.result.Ok? <==> symbol !in r.symbolToAddress && name !in r.nameToAddress
    ensures o.result.Ok? ==>
              var a := o.result.value;
              a == ContractAddress(r.nextContractId)
              && o.registry.nextContractId == r.nextContractId + 1
              && o.registry.registryOwner == r.registryOwner
              && o.registry.tokens == r.tokens[a := Issue(deployer, name, symbol, decimals, totalSupply,
                                                          maxSupply, mintable, burnable)
                                                    .(contractAddress := a)]
              && o.registry.symbolToAddress == r.symbolToAddress[symbol := a]
              && o.registry.nameToAddress == r.nameToAddress[name := a]
    ensures r.Valid() ==> o.registry.Valid()
    ensures r.Valid() && o.result.Ok? ==>
              o.result.value !in r.tokens
              && TotalValueLocked(o.registry) == TotalValueLocked(r) + totalSupply
  {
    if symbol in r.symbolToAddress then Outcome(r, Err(SymbolExists(symbol)))
    else if name in r.nameToAddress then
      Outcome(r, Err(EVMExecutionFailed(NameTakenMessage(name))))
    else
      var a := ContractAddress(r.nextContractId);
      var t := Issue(deployer, name, symbol, decimals, totalSupply, maxSupply, mintable, burnable)
               .(contractAddress := a);
      var r' := RegistryState(r.tokens[a := t], r.symbolToAddress[symbol := a],
                              r.nameToAddress[name := a], r.nextContractId + 1, r.registryOwner);
      DeployKeepsValid(r, a, t);
      TotalValueLockedUpdate(r.tokens, a, t);
      Outcome(r', Ok(a))
  }

  /** A fresh address with unused labels keeps the indexes consistent. */
  lemma DeployKeepsValid(r: RegistryState, a: H160, t: TokenState)
    requires ContractId(a) == r.nextContractId && r.nextContractId < U64_MAX
    requires t.symbol !in r.symbolToAddress && t.name !in r.nameToAddress
    requires t.contractAddress == a && t.Conserved()
    ensures r.Valid() ==>
              a !in r.tokens
              && RegistryState(r.tokens[a := t], r.symbolToAddress[t.symbol := a],
                               r.nameToAddress[t.name := a], r.nextContractId + 1,
                               r.registryOwner).Valid()
  {
    if r.Valid() {
      var r' := RegistryState(r.tokens[a := t], r.symbolToAddress[t.symbol := a],
                              r.nameToAddress[t.name := a], r.nextContractId + 1, r.registryOwner);
      assert a !in r.tokens;
      assert r'.TokensValid();
      DeploySymbolsIndexed(r, r', a, t);
      DeployNamesIndexed(r, r', a, t);
    }
  }

  lemma DeploySymbolsIndexed(r: RegistryState, r': RegistryState, a: H160, t: TokenState)
    requires r.SymbolsIndexed() && a !in r.tokens && t.symbol !in r.symbolToAddress
    requires r'.tokens == r.tokens[a := t] && r'.symbolToAddress == r.symbolToAddress[t.symbol := a]
    ensures r'.SymbolsIndexed()
  {
    forall s | s in r'.symbolToAddress
      ensures r'.symbolToAddress[s] in r'.tokens && r'.tokens[r'.symbolToAddress[s]].symbol == s
    {
      if s != t.symbol {
        assert r.symbolToAddress[s] in r.tokens;
      }
    }
    forall b | b in r'.tokens
      ensures r'.tokens[b].symbol in r'.symbolToAddress && r'.symbolToAddress[r'.tokens[b].symbol] == b
    {
      if b != a {
        assert r.tokens[b].symbol in r.symbolToAddress;
      }
    }
  }

  lemma DeployNamesIndexed(r: RegistryState, r': RegistryState, a: H160, t: TokenState)
    requires r.NamesIndexed() && a !in r.tokens && t.name !in r.nameToAddress
    requires r'.tokens == r.tokens[a := t] && r'.nameToAddress == r.nameToAddress[t.name := a]
    ensures r'.NamesIndexed()
  {
    forall n | n in r'.nameToAddress
      ensures r'.nameToAddress[n] in r'.tokens && r'.tokens[r'.nameToAddress[n]].name == n
    {
      if n != t.name {
        assert r.nameToAddress[n] in r.tokens;
      }
    }
    forall b | b in r'.tokens
      ensures r'.tokens[b].name in r'.nameToAddress && r'.nameToAddress[r'.tokens[b].name] == b
    {
      if b != a {
        assert r.tokens[b].name in r.nameToAddress;
      }
    }
  }

  /** `deploy_token`: no cap, mintable and burnable. */
  function DeployDefaultSpec(r: RegistryState, deployer: H160, name: string, symbol: string,
                             decimals: byte, totalSupply: U256)
    : (o: Outcome<H160>)
    requires r.CanDeploy(name, symbol)
    ensures o.result.Ok? ==>
              o.result.value in o.registry.tokens
              && var t := o.registry.tokens[o.result.value];
              t.maxSupply == 0 && t.mintable && t.burnable && t.BalanceOf(deployer) == totalSupply
  {
    DeploySpec(r, deployer, name, symbol, decimals, totalSupply, None, Some(true), Some(true))
  }

  /** The change in a token's supply a successful non-deploy transaction makes. */
  function SupplyChange(tx: QRC20Transaction): int
  {
    match tx
    case Mint(_, _, amount) => amount
    case Burn(_, amount) => -(amount as int)
    case _ => 0
  }

  /**
   * The token operation a non-deploy transaction requests, performed by
   * `caller`; `Burn` burns from the caller's own balance.
   */
  function TokenStep(t: TokenState, caller: H160, tx: QRC20Transaction): (s: Step)
    requires !tx.Deploy?
    ensures s.result.Err? ==> s.token == t
    ensures s.token.name == t.name && s.token.symbol == t.symbol
    ensures s.token.contractAddress == t.contractAddress
    ensures t.Conserved() ==> s.token.Conserved()
    ensures t.Conserved() && s.result.Ok? ==> s.token.totalSupply == t.totalSupply + SupplyChange(tx)
  {
    match tx
    case Transfer(_, to, amount) => TransferSpec(t, caller, to, amount)
    case Approve(_, spender, amount) => ApproveSpec(t, caller, spender, amount)
    case TransferFrom(_, from, to, amount) => TransferFromSpec(t, caller, from, to, amount)
    case Mint(_, to, amount) => MintSpec(t, caller, to, amount)
    case Burn(_, amount) => BurnSpec(t, caller, amount)
    case Pause(_) => PauseSpec(t, caller)
    case Unpause(_) => UnpauseSpec(t, caller)
    case TransferOwnership(_, newOwner) => TransferOwnershipSpec(t, caller, newOwner)
  }

  /**
   * `execute_transaction` for everything but a deploy: an unknown contract
   * is `TokenNotFound` with no change, otherwise the token performs the
   * operation on behalf of `caller` and only that entry changes.
   */
  function TokenOpSpec(r: RegistryState, caller: H160, tx: QRC20Transaction)
    : (o: Outcome<QRC20Event>)
    requires !tx.Deploy?
    ensures tx.contract !in r.tokens ==> o == Outcome(r, Err(TokenNotFound))
    ensures tx.contract in r.tokens ==>
              var s := TokenStep(r.tokens[tx.contract], caller, tx);
              o == Outcome(r.(tokens := r.tokens[tx.contract := s.token]), s.result)
    ensures o.result.Err? ==> o.registry == r
    ensures r.Valid() ==> o.registry.Valid()
    ensures r.Valid() && o.result.Ok? ==>
              TotalValueLocked(o.registry) == TotalValueLocked(r) + SupplyChange(tx)
  {
    if tx.contract !in r.tokens then Outcome(r, Err(TokenNotFound))
    else
      var t := r.tokens[tx.contract];
      var s := TokenStep(t, caller, tx);
      TokenStepPreservesIndexes(r, tx.contract, s.token);
      TotalValueLockedUpdate(r.tokens, tx.contract, s.token);
      Outcome(r.(tokens := r.tokens[tx.contract := s.token]), s.result)
  }

  /**
   * `execute_transaction`: a deploy on behalf of `caller`, reported as the
   * `Deploy` event; every other transaction goes to its token.
   */
  function ExecuteSpec(r: RegistryState, caller: H160, tx: QRC20Transaction)
    : (o: Outcome<QRC20Event>)
    requires tx.Deploy? ==> r.CanDeploy(tx.name, tx.symbol)
    ensures !tx.Deploy? ==> o == TokenOpSpec(r, caller, tx)
    ensures tx.Deploy? ==>
              var d := DeploySpec(r, caller, tx.name, tx.symbol, tx.decimals, tx.totalSupply,
                                  tx.maxSupply, tx.mintable, tx.burnable);
              o.registry == d.registry
              && (o.result.Ok? <==> d.result.Ok?)
              && (o.result.Ok? ==>
                    o.result.value == QRC20Event.Deploy(d.result.value, caller, tx.name, tx.symbol,
                                                        tx.totalSupply))
    ensures o.result.Err? ==> o.registry == r
    ensures o.registry.nextContractId >= r.nextContractId
    ensures o.registry.registryOwner == r.registryOwner
    ensures r.Valid() ==> o.registry.Valid()
  {
    match tx
    case Deploy(name, symbol, decimals, totalSupply, maxSupply, mintable, burnable) =>
      var d := DeploySpec(r, caller, name, symbol, decimals, totalSupply, maxSupply, mintable, burnable);
      if d.result.Err? then Outcome(d.registry, Err(d.result.error))
      else Outcome(d.registry, Ok(QRC20Event.Deploy(d.result.value, caller, name, symbol, totalSupply)))
    case _ => TokenOpSpec(r, caller, tx)
  }

  /** Replacing a token by one with the same labels and address keeps the registry valid. */
  lemma TokenStepPreservesIndexes(r: RegistryState, a: H160, t: TokenState)
    requires a in r.tokens
    requires t.name == r.tokens[a].name && t.symbol == r.tokens[a].symbol
    requires t.contractAddress == r.tokens[a].contractAddress
    requires r.tokens[a].Conserved() ==> t.Conserved()
    ensures r.Valid() ==> r.(tokens := r.tokens[a := t]).Valid()
  {
    if r.Valid() {
      ReplaceKeepsTokensValid(r, a, t);
      ReplaceKeepsSymbolsIndexed(r, a, t);
      ReplaceKeepsNamesIndexed(r, a, t);
    }
  }

  lemma ReplaceKeepsTokensValid(r: RegistryState, a: H160, t: TokenState)
    requires a in r.tokens && r.TokensValid()
    requires t.contractAddress == r.tokens[a].contractAddress && t.Conserved()
    ensures r.(tokens := r.tokens[a := t]).TokensValid()
  {
    var r' := r.(tokens := r.tokens[a := t]);
    forall b | b in r'.tokens
      ensures r'.tokens[b].contractAddress == b && ContractId(b) < r'.nextContractId
              && r'.tokens[b].Conserved()
    {
      if b != a {
        assert r'.tokens[b] == r.tokens[b];
      }
    }
  }

  lemma ReplaceKeepsSymbolsIndexed(r: RegistryState, a: H160, t: TokenState)
    requires a in r.tokens && r.SymbolsIndexed() && t.symbol == r.tokens[a].symbol
    ensures r.(tokens := r.tokens[a := t]).SymbolsIndexed()
  {
    var r' := r.(tokens := r.tokens[a := t]);
    forall s | s in r'.symbolToAddress
      ensures r'.symbolToAddress[s] in r'.tokens && r'.tokens[r'.symbolToAddress[s]].symbol == s
    {
      assert r.tokens[r.symbolToAddress[s]].symbol == s;
    }
    forall b | b in r'.tokens
      ensures r'.tokens[b].symbol in r'.symbolToAddress
              && r'.symbolToAddress[r'.tokens[b].symbol] == b
    {
      assert r.tokens[b].symbol == r'.tokens[b].symbol;
    }
  }

  lemma ReplaceKeepsNamesIndexed(r: RegistryState, a: H160, t: TokenState)
    requires a in r.tokens && r.NamesIndexed() && t.name == r.tokens[a].name
    ensures r.(tokens := r.tokens[a := t]).NamesIndexed()
  {
    var r' := r.(tokens := r.tokens[a := t]);
    forall n | n in r'.nameToAddress
      ensures r'.nameToAddress[n] in r'.tokens && r'.tokens[r'.nameToAddress[n]].name == n
    {
      assert r.tokens[r.nameToAddress[n]].name == n;
    }
    forall b | b in r'.tokens
      ensures r'.tokens[b].name in r'.nameToAddress && r'.nameToAddress[r'.tokens[b].name] == b
    {
      assert r.tokens[b].name == r'.tokens[b].name;
    }
  }

  /** `get_token`. */
  function GetToken(r: RegistryState, address: H160): (o: Option<TokenState>)
    ensures o.Some? <==> address in r.tokens
    ensures o.Some? ==> o.value == r.tokens[address]
  {
    if address in r.tokens then Some(r.tokens[address]) else None
  }

  /** `get_token_by_symbol`: through the index, the one token with that symbol. */
  function GetTokenBySymbol(r: RegistryState, symbol: string): (o: Option<TokenState>)
    ensures r.Valid() ==>
              (o.Some? <==> exists a | a in r.tokens :: r.tokens[a].symbol == symbol)
    ensures r.Valid() && o.Some? ==>
              o.value.symbol == symbol && o.value.contractAddress in r.tokens
              && r.tokens[o.value.contractAddress] == o.value
  {
    if symbol in r.symbolToAddress && r.symbolToAddress[symbol] in r.tokens then
      Some(r.tokens[r.symbolToAddress[symbol]])
    else None
  }

  /** `get_token_by_name`: through the index, the one token with that name. */
  function GetTokenByName(r: RegistryState, name: string): (o: Option<TokenState>)
    ensures r.Valid() ==>
              (o.Some? <==> exists a | a in r.tokens :: r.tokens[a].name == name)
    ensures r.Valid() && o.Some? ==>
              o.value.name == name && o.value.contractAddress in r.tokens
              && r.tokens[o.value.contractAddress] == o.value
  {
    if name in r.nameToAddress && r.nameToAddress[name] in r.tokens then
      Some(r.tokens[r.nameToAddress[name]])
    else None
  }

  /** Who may remove tokens or hand the registry over: its owner, or anyone while the owner is zero. */
  predicate MayAdminister(r: RegistryState, caller: H160)
  {
    caller == r.registryOwner || r.registryOwner.IsZero()
  }

  /**
   * `remove_token`: owner-gated; the token and both of its index entries
   * go, and removing an absent contract is a successful no-op. The counter
   * is untouched, so the address is never handed out again.
   */
  function RemoveSpec(r: RegistryState, caller: H160, contract: H160): (o: Outcome<()>)
    ensures o.result.Ok? <==> MayAdminister(r, caller)
    ensures o.result.Err? ==> o == Outcome(r, Err(OnlyOwner))
    ensures o.result.Ok? ==>
              o.registry.tokens == r.tokens - {contract}
              && o.registry.nextContractId == r.nextContractId
              && o.registry.registryOwner == r.registryOwner
    ensures o.result.Ok? && contract !in r.tokens ==> o.registry == r
    ensures r.Valid() ==> o.registry.Valid()
    ensures o.result.Ok? ==>
              TotalValueLocked(o.registry) + Get(Supplies(r.tokens), contract) == TotalValueLocked(r)
  {
    if !MayAdminister(r, caller) then Outcome(r, Err(OnlyOwner))
    else if contract in r.tokens then
      var t := r.tokens[contract];
      var r' := r.(tokens := r.tokens - {contract},
                   symbolToAddress := r.symbolToAddress - {t.symbol},
                   nameToAddress := r.nameToAddress - {t.name});
      RemoveKeepsValid(r, contract);
      assert Supplies(r'.tokens) == Supplies(r.tokens) - {contract};
      TotalDelete(Supplies(r.tokens), contract);
      Outcome(r', Ok(()))
    else
      assert r.tokens - {contract} == r.tokens;
      Outcome(r, Ok(()))
  }

  /** Dropping a token together with its two index entries keeps the indexes consistent. */
  lemma RemoveKeepsValid(r: RegistryState, contract: H160)
    requires contract in r.tokens
    ensures var t := r.tokens[contract];
            r.Valid() ==>
              r.(tokens := r.tokens - {contract},
                 symbolToAddress := r.symbolToAddress - {t.symbol},
                 nameToAddress := r.nameToAddress - {t.name}).Valid()
  {
    var t := r.tokens[contract];
    var r' := r.(tokens := r.tokens - {contract},
                 symbolToAddress := r.symbolToAddress - {t.symbol},
                 nameToAddress := r.nameToAddress - {t.name});
    if r.Valid() {
      assert r'.TokensValid();
      RemoveKeepsSymbolsIndexed(r, r', contract);
      RemoveKeepsNamesIndexed(r, r', contract);
    }
  }

  lemma RemoveKeepsSymbolsIndexed(r: RegistryState, r': RegistryState, contract: H160)
    requires contract in r.tokens && r.SymbolsIndexed()
    requires r'.tokens == r.tokens - {contract}
    requires r'.symbolToAddress == r.symbolToAddress - {r.tokens[contract].symbol}
    ensures r'.SymbolsIndexed()
  {
    forall s | s in r'.symbolToAddress
      ensures r'.symbolToAddress[s] in r'.tokens && r'.tokens[r'.symbolToAddress[s]].symbol == s
    {
      assert r.tokens[r.symbolToAddress[s]].symbol == s;
    }
  }

  lemma RemoveKeepsNamesIndexed(r: RegistryState, r': RegistryState, contract: H160)
    requires contract in r.tokens && r.NamesIndexed()
    requires r'.tokens == r.tokens - {contract}
    requires r'.nameToAddress == r.nameToAddress - {r.tokens[contract].name}
    ensures r'.NamesIndexed()
  {
    forall n | n in r'.nameToAddress
      ensures r'.nameToAddress[n] in r'.tokens && r'.tokens[r'.nameToAddress[n]].name == n
    {
      assert r.tokens[r.nameToAddress[n]].name == n;
    }
  }

  /** `transfer_registry_ownership`: the same gate; only the owner changes. */
  function TransferRegistryOwnershipSpec(r: RegistryState, caller: H160, newOwner: H160)
    : (o: Outcome<()>)
    ensures o.result.Ok? <==> MayAdminister(r, caller)
    ensures o.result.Err? ==> o == Outcome(r, Err(OnlyOwner))
    ensures o.result.Ok? ==> o.registry == r.(registryOwner := newOwner)
  {
    if !MayAdminister(r, caller) then Outcome(r, Err(OnlyOwner))
    else Outcome(r.(registryOwner := newOwner), Ok(()))
  }

  /** Deploying the same symbol twice fails the second time, whatever the name. */
  lemma DuplicateSymbolRejected(r: RegistryState, deployer: H160, name1: string, name2: string,
                                symbol: string, decimals: byte, supply: U256)
    requires symbol !in r.symbolToAddress && name1 !in r.nameToAddress
    requires r.nextContractId < U64_MAX
    ensures var first := DeploySpec(r, deployer, name1, symbol, decimals, supply, None, None, None);
            first.registry.CanDeploy(name2, symbol)
            && DeploySpec(first.registry, deployer, name2, symbol, decimals, supply, None, None, None)
                 .result == Err(SymbolExists(symbol))
  {
  }

  /** The registry as an object whose maps and counter are updated in place. */
  class QRC20Registry {
    var tokens: map<H160, TokenState>
    var symbolToAddress: map<string, H160>
    var nameToAddress: map<string, H160>
    var nextContractId: u64
    var registryOwner: H160

    function State(): RegistryState
      reads this
    {
      RegistryState(tokens, symbolToAddress, nameToAddress, nextContractId, registryOwner)
    }

    ghost predicate Valid()
      reads this
    {
      State().Valid()
    }

    constructor ()
      ensures State() == NewRegistry(H160.Zero())
      ensures Valid()
    {
      tokens := map[];
      symbolToAddress := map[];
      nameToAddress := map[];
      nextContractId := FIRST_CONTRACT_ID;
      registryOwner := H160.Zero();
    }

    constructor WithOwner(owner: H160)
      ensures State() == NewRegistry(owner)
      ensures Valid()
    {
      tokens := map[];
      symbolToAddress := map[];
      nameToAddress := map[];
      nextContractId := FIRST_CONTRACT_ID;
      registryOwner := owner;
    }

    method DeployTokenAdvanced(deployer: H160, name: string, symbol: string, decimals: byte,
                               totalSupply: U256, maxSupply: Option<U256>,
                               mintable: Option<bool>, burnable: Option<bool>)
      returns (r: QRC20Result<H160>)
      requires State().CanDeploy(name, symbol)
      modifies this`tokens, this`symbolToAddress, this`nameToAddress, this`nextContractId
      ensures Outcome(State(), r) ==
                DeploySpec(old(State()), deployer, name, symbol, decimals, totalSupply,
                           maxSupply, mintable, burnable)
      ensures old(Valid()) ==> Valid()
    {
      ghost var spec := DeploySpec(State(), deployer, name, symbol, decimals, totalSupply,
                                   maxSupply, mintable, burnable);
      if symbol in symbolToAddress {
        return Err(SymbolExists(symbol));
      }
      if name in nameToAddress {
        return Err(EVMExecutionFailed(NameTakenMessage(name)));
      }
      var contractAddress := ContractAddress(nextContractId);
      var token := Issue(deployer, name, symbol, decimals, totalSupply, maxSupply, mintable, burnable);
      token := token.(contractAddress := contractAddress);
      ghost var deployed := RegistryState(tokens[contractAddress := token],
                                          symbolToAddress[symbol := contractAddress],
                                          nameToAddress[name := contractAddress],
                                          nextContractId + 1, registryOwner);
      assert spec == Outcome(deployed, Ok(contractAddress));
      tokens, symbolToAddress, nameToAddress, nextContractId :=
        tokens[contractAddress := token], symbolToAddress[symbol := contractAddress],
        nameToAddress[name := contractAddress], nextContractId + 1;
      r := Ok(contractAddress);
    }

    method DeployToken(deployer: H160, name: string, symbol: string, decimals: byte,
                       totalSupply: U256)
      returns (r: QRC20Result<H160>)
      requires State().CanDeploy(name, symbol)
      modifies this`tokens, this`symbolToAddress, this`nameToAddress, this`nextContractId
      ensures Outcome(State(), r) ==
                DeployDefaultSpec(old(State()), deployer, name, symbol, decimals, totalSupply)
      ensures old(Valid()) ==> Valid()
    {
      r := DeployTokenAdvanced(deployer, name, symbol, decimals, totalSupply,
                               None, Some(true), Some(true));
    }

    method ExecuteTransaction(caller: H160, tx: QRC20Transaction)
      returns (r: QRC20Result<QRC20Event>)
      requires tx.Deploy? ==> State().CanDeploy(tx.name, tx.symbol)
      modifies this`tokens, this`symbolToAddress, this`nameToAddress, this`nextContractId
      ensures Outcome(State(), r) == ExecuteSpec(old(State()), caller, tx)
      ensures old(Valid()) ==> Valid()
    {
      if tx.Deploy? {
        var deployed := DeployTokenAdvanced(caller, tx.name, tx.symbol, tx.decimals,
                                            tx.totalSupply, tx.maxSupply, tx.mintable, tx.burnable);
        if deployed.Err? {
          return Err(deployed.error);
        }
        r := Ok(QRC20Event.Deploy(deployed.value, caller, tx.name, tx.symbol, tx.totalSupply));
      } else {
        if tx.contract !in tokens {
          return Err(TokenNotFound);
        }
        var step := TokenStep(tokens[tx.contract], caller, tx);
        tokens := tokens[tx.contract := step.token];
        r := step.result;
      }
    }

    method RemoveToken(caller: H160, contract: H160) returns (r: QRC20Result<()>)
      modifies this`tokens, this`symbolToAddress, this`nameToAddress
      ensures Outcome(State(), r) == RemoveSpec(old(State()), caller, contract)
      ensures old(Valid()) ==> Valid()
    {
      ghost var spec := RemoveSpec(State(), caller, contract);
      if caller != registryOwner && !registryOwner.IsZero() {
        return Err(OnlyOwner);
      }
      if contract in tokens {
        var token := tokens[contract];
        tokens, symbolToAddress, nameToAddress :=
          tokens - {contract}, symbolToAddress - {token.symbol}, nameToAddress - {token.name};
      }
      r := Ok(());
      assert Outcome(State(), r) == spec;
    }

    method TransferRegistryOwnership(caller: H160, newOwner: H160) returns (r: QRC20Result<()>)
      modifies this`registryOwner
      ensures Outcome(State(), r) == TransferRegistryOwnershipSpec(old(State()), caller, newOwner)
    {
      if caller != registryOwner && !registryOwner.IsZero() {
        return Err(OnlyOwner);
      }
      registryOwner := newOwner;
      r := Ok(());
    }
  }
}
