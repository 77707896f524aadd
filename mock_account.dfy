/** The mock fixture builders: addresses, operations, token accounts and
    accounts generated from a seeded generator, each history passed through
    the balance guard. `listTokensForCryptoCurrency`, `inferSubOperations`,
    the derivation-path helpers and `getOperationAmountNumber` are not part
    of this model and are parameters. */
module MockAccount {
  import opened Wrappers
  import opened Types
  import opened Strings
  import opened Random
  import opened BalanceGuard

  const HexChars: string := "0123456789ABCDEF"
  const Base58Chars: string := "123456789ABCDEFGHJKLMNPQRSTUVWXYZabcdefghijkmnopqrstuvwxyz"

  predicate IsHex(s: string)
  {
    forall k :: 0 <= k < |s| ==> s[k] in HexChars
  }

  /** Ethereum-family crypto currencies, and tokens whose id starts with
      "ethereum", get ethereum addresses. */
  predicate EthereumLike(currency: AnyCurrency)
  {
    match currency
    case Crypto(c) => c.family == "ethereum"
    case Token(t) => StartsWith(t.id, "ethereum")
  }

  /** What a generated address looks like: "0x" and 40 hex characters, or
      "1" and 25 to 34 base58 characters. */
  predicate AddressShape(currency: AnyCurrency, address: string)
  {
    if EthereumLike(currency) then
      |address| == 42 && address[..2] == "0x" && IsHex(address[2..])
    else
      26 <= |address| <= 35 && address[0] == '1' && forall k :: 1 <= k < |address| ==> address[k] in Base58Chars
  }

  /** `genBitcoinAddressLike`. */
  method GenBitcoinAddressLike(rng: Rng) returns (address: string)
    modifies rng
    ensures 26 <= |address| <= 35 && address[0] == '1'
    ensures forall k :: 1 <= k < |address| ==> address[k] in Base58Chars
  {
    var length := rng.NextInt(25, 34);
    var tail := rng.NextString(length, Base58Chars);
    address := "1" + tail;
  }

  /** `genHex`. */
  method GenHex(length: nat, rng: Rng) returns (s: string)
    modifies rng
    ensures |s| == length && IsHex(s)
  {
    s := rng.NextString(length, HexChars);
  }

  /** `genAddress`. */
  method GenAddress(currency: AnyCurrency, rng: Rng) returns (address: string)
    modifies rng
    ensures AddressShape(currency, address)
  {
    if EthereumLike(currency) {
      var hex := GenHex(40, rng);
      address := "0x" + hex;
      assert address[..2] == "0x" && address[2..] == hex;
    } else {
      address := GenBitcoinAddressLike(rng);
    }
  }

  /** `mock_op_<index>_<accountId>`. */
  function OperationId(index: nat, accountId: string): string
  {
    "mock_op_" + NatToString(index) + "_" + accountId
  }

  /** Operation ids of one account differ at different indices. */
  lemma OperationIdsDistinct(i: nat, j: nat, accountId: string)
    requires i != j
    ensures OperationId(i, accountId) != OperationId(j, accountId)
  {
    NatToStringInjective(i, j);
    var a, b := NatToString(i), NatToString(j);
    var x, y := OperationId(i, accountId), OperationId(j, accountId);
    if |a| != |b| {
      assert |x| != |y|;
    } else {
      assert x[8..8 + |a|] == a;
      assert y[8..8 + |b|] == b;
    }
  }

  /** `subOperations`: set through `inferSubOperations` for an account
      (not a token account) that has token accounts. */
  function SubOperationsOf(tokenAccounts: Option<seq<TokenAccount>>, hash: string,
                           inferSubOperations: (string, seq<TokenAccount>) -> seq<Operation>): Option<seq<Operation>>
  {
    if tokenAccounts.Some? then Some(inferSubOperations(hash, tokenAccounts.value)) else None
  }

  /** The structure of the operation generated at position `index` of the
      history of account `accountId` under an account of `currency` at
      `blockHeight`; `tokenAccounts` is `None` for a token account. */
  predicate GeneratedOp(op: Operation, index: nat, accountId: string, tokenAccounts: Option<seq<TokenAccount>>,
                        currency: CryptoCurrency, blockHeight: int,
                        inferSubOperations: (string, seq<TokenAccount>) -> seq<Operation>)
  {
    && op.id == OperationId(index, accountId)
    && op.accountId == accountId
    && (op.kind == IN || op.kind == OUT)
    && op.value >= 0
    && op.fee == (op.value + 50) / 100
    && |op.hash| == 64 && IsHex(op.hash)
    && |op.senders| == 1 && AddressShape(Crypto(currency), op.senders[0])
    && |op.recipients| == 1 && AddressShape(Crypto(currency), op.recipients[0])
    && op.blockHash.Some? && |op.blockHash.value| == 64 && IsHex(op.blockHash.value)
    && op.blockHeight.Some? && op.blockHeight.value <= blockHeight
    && op.subOperations == SubOperationsOf(tokenAccounts, op.hash, inferSubOperations)
  }

  /** Swapping the direction keeps an operation generated. */
  lemma FlipKeepsGenerated(op: Operation, index: nat, accountId: string, tokenAccounts: Option<seq<TokenAccount>>,
                           currency: CryptoCurrency, blockHeight: int,
                           inferSubOperations: (string, seq<TokenAccount>) -> seq<Operation>)
    requires GeneratedOp(op, index, accountId, tokenAccounts, currency, blockHeight, inferSubOperations)
    ensures GeneratedOp(Flip(op), index, accountId, tokenAccounts, currency, blockHeight, inferSubOperations)
  {
  }

  /** `genOperation`, drawing in the source's order: the date offset, an
      address, the direction, the value, the hash, the other address, the
      block hash. The value is the drawn integer (the market-price scaling
      is floating point and not modelled) and the block age is the date
      offset in 15-minute blocks. */
  method GenOperation(superAccount: Account, accountId: string, tokenAccounts: Option<seq<TokenAccount>>,
                      ops: seq<Operation>, rng: Rng,
                      inferSubOperations: (string, seq<TokenAccount>) -> seq<Operation>)
    returns (op: Operation)
    modifies rng
    ensures GeneratedOp(op, |ops|, accountId, tokenAccounts, superAccount.currency, superAccount.blockHeight, inferSubOperations)
  {
    var d1 := rng.Next();
    var d2 := rng.Next();
    var dateOffset := rng.NextInt(0, 100000000 * d1 * d2 / (UnitScale * UnitScale));
    var address := GenAddress(Crypto(superAccount.currency), rng);
    var t := rng.Next();
    var kind := if t * 10 < 3 * UnitScale then OUT else IN;
    var v1 := rng.Next();
    var v2 := rng.Next();
    var value := rng.NextInt(0, 100000 * v1 * v2 / (UnitScale * UnitScale));
    var hash := GenHex(64, rng);
    var sender := address;
    if kind != IN {
      sender := GenAddress(Crypto(superAccount.currency), rng);
    }
    var recipient := address;
    if kind == IN {
      recipient := GenAddress(Crypto(superAccount.currency), rng);
    }
    var blockHash := GenHex(64, rng);
    op := Operation(
      id := OperationId(|ops|, accountId),
      hash := hash,
      kind := kind,
      value := value,
      fee := (value + 50) / 100,
      senders := [sender],
      recipients := [recipient],
      blockHash := Some(blockHash),
      blockHeight := Some(superAccount.blockHeight - dateOffset / 900000),
      accountId := accountId,
      subOperations := SubOperationsOf(tokenAccounts, hash, inferSubOperations));
  }

  /** `Array(count).fill(null).reduce(ops => ops.concat(genOperation(...)), start)`. */
  method GenOperations(superAccount: Account, accountId: string, tokenAccounts: Option<seq<TokenAccount>>,
                       start: seq<Operation>, count: nat, rng: Rng,
                       inferSubOperations: (string, seq<TokenAccount>) -> seq<Operation>)
    returns (ops: seq<Operation>)
    modifies rng
    ensures |ops| == |start| + count && ops[..|start|] == start
    ensures forall k :: |start| <= k < |ops| ==>
      GeneratedOp(ops[k], k, accountId, tokenAccounts, superAccount.currency, superAccount.blockHeight, inferSubOperations)
  {
    ops := start;
    for i := 0 to count
      invariant |ops| == |start| + i && ops[..|start|] == start
      invariant forall k :: |start| <= k < |ops| ==>
        GeneratedOp(ops[k], k, accountId, tokenAccounts, superAccount.currency, superAccount.blockHeight, inferSubOperations)
    {
      var op := GenOperation(superAccount, accountId, tokenAccounts, ops, rng, inferSubOperations);
      ops := ops + [op];
    }
  }

  /** Runs `ensureNoNegative` over a fresh array holding `ops`. */
  method GuardOperations(ops: seq<Operation>, amount: Operation -> int) returns (guarded: seq<Operation>, total: int)
    ensures guarded == Guard(ops, 0, amount).0 && total == Guard(ops, 0, amount).1
  {
    var operations := new Operation[|ops|](k requires 0 <= k < |ops| => ops[k]);
    assert operations[..] == ops;
    total := EnsureNoNegative(operations, amount);
    guarded := operations[..];
  }

  /** What the guard promises of a generated history and its balance: the
      balance is the sum of the amounts, and under the sign hypothesis it is
      non-negative and a second guard changes nothing. */
  ghost predicate GuardedHistory(ops: seq<Operation>, balance: int, amount: Operation -> int)
  {
    && balance == Sum(ops, amount)
    && (SignedByDirection(amount) ==> balance >= 0 && Guard(ops, 0, amount).0 == ops)
  }

  /** Guarding a generated history keeps every operation generated and gives
      a guarded history. */
  lemma GuardGenerated(ops: seq<Operation>, amount: Operation -> int, accountId: string,
                       tokenAccounts: Option<seq<TokenAccount>>, currency: CryptoCurrency, blockHeight: int,
                       inferSubOperations: (string, seq<TokenAccount>) -> seq<Operation>)
    requires forall k :: 0 <= k < |ops| ==>
      GeneratedOp(ops[k], k, accountId, tokenAccounts, currency, blockHeight, inferSubOperations)
    ensures var guarded := Guard(ops, 0, amount);
      && |guarded.0| == |ops|
      && (forall k :: 0 <= k < |ops| ==>
           GeneratedOp(guarded.0[k], k, accountId, tokenAccounts, currency, blockHeight, inferSubOperations))
      && GuardedHistory(guarded.0, guarded.1, amount)
  {
    var guarded := Guard(ops, 0, amount);
    GuardShape(ops, 0, amount);
    forall k | 0 <= k < |ops|
      ensures GeneratedOp(guarded.0[k], k, accountId, tokenAccounts, currency, blockHeight, inferSubOperations)
    {
      FlipKeepsGenerated(ops[k], k, accountId, tokenAccounts, currency, blockHeight, inferSubOperations);
    }
    assert Directional(ops) by {
      forall k | 0 <= k < |ops|
        ensures (ops[k].kind == IN || ops[k].kind == OUT) && ops[k].value >= 0
      {
        assert GeneratedOp(ops[k], k, accountId, tokenAccounts, currency, blockHeight, inferSubOperations);
      }
    }
    GuardDirectional(ops, amount);
  }

  /** Guarding a history of incoming and outgoing operations gives a
      guarded history. */
  lemma GuardDirectional(ops: seq<Operation>, amount: Operation -> int)
    requires Directional(ops)
    ensures GuardedHistory(Guard(ops, 0, amount).0, Guard(ops, 0, amount).1, amount)
  {
    var guarded := Guard(ops, 0, amount);
    GuardTotal(ops, 0, amount);
    if SignedByDirection(amount) {
      GuardPrefixesNonNegative(ops, 0, amount);
      GuardIdempotent(ops, 0, amount);
    }
  }

  /** Generated operation ids are distinct. */
  lemma GeneratedIdsDistinct(ops: seq<Operation>, accountId: string, tokenAccounts: Option<seq<TokenAccount>>,
                             currency: CryptoCurrency, blockHeight: int,
                             inferSubOperations: (string, seq<TokenAccount>) -> seq<Operation>)
    requires forall k :: 0 <= k < |ops| ==>
      GeneratedOp(ops[k], k, accountId, tokenAccounts, currency, blockHeight, inferSubOperations)
    ensures forall j, k :: 0 <= j < k < |ops| ==> ops[j].id != ops[k].id
  {
    forall j, k | 0 <= j < k < |ops|
      ensures ops[j].id != ops[k].id
    {
      OperationIdsDistinct(j, k, accountId);
    }
  }

  /** `genAddingOperationsInAccount`: a copy of the account with `count`
      operations appended (numbered on from the existing ones) and the
      balance recomputed by the guard over the whole history. */
  method GenAddingOperationsInAccount(account: Account, count: nat, seed: string,
                                      streams: string -> seq<nat>, amount: Operation -> int,
                                      inferSubOperations: (string, seq<TokenAccount>) -> seq<Operation>)
    returns (copy: Account)
    ensures copy == account.(operations := copy.operations, balance := copy.balance)
    ensures |copy.operations| == |account.operations| + count
    ensures forall k :: 0 <= k < |account.operations| ==>
      copy.operations[k] == account.operations[k] || copy.operations[k] == Flip(account.operations[k])
    ensures forall k :: |account.operations| <= k < |copy.operations| ==>
      GeneratedOp(copy.operations[k], k, account.id, account.tokenAccounts, account.currency, account.blockHeight, inferSubOperations)
    ensures copy.balance == Sum(copy.operations, amount)
    ensures SignedByDirection(amount) && Directional(account.operations) ==> copy.balance >= 0
    ensures SignedByDirection(amount) && Directional(account.operations) ==> Guard(copy.operations, 0, amount).0 == copy.operations
  {
    var rng := new Rng(streams(seed));
    var ops := GenOperations(account, account.id, account.tokenAccounts, account.operations, count, rng, inferSubOperations);
    var guarded, total := GuardOperations(ops, amount);
    GuardShape(ops, 0, amount);
    GuardTotal(ops, 0, amount);
    forall k | |account.operations| <= k < |ops|
      ensures GeneratedOp(guarded[k], k, account.id, account.tokenAccounts, account.currency, account.blockHeight, inferSubOperations)
    {
      FlipKeepsGenerated(ops[k], k, account.id, account.tokenAccounts, account.currency, account.blockHeight, inferSubOperations);
    }
    if SignedByDirection(amount) && Directional(account.operations) {
      assert Directional(ops) by {
        forall k | 0 <= k < |ops|
          ensures (ops[k].kind == IN || ops[k].kind == OUT) && ops[k].value >= 0
        {
          if k < |account.operations| {
            assert ops[k] == ops[..|account.operations|][k];
          }
        }
      }
      GuardDirectional(ops, amount);
    }
    forall k | 0 <= k < |account.operations|
      ensures ops[k] == account.operations[k]
    {
      assert ops[k] == ops[..|account.operations|][k];
    }
    copy := account.(operations := guarded, balance := total);
  }

  /** The structure of the token account generated at `index` under
      `parent`. */
  ghost predicate GeneratedTokenAccount(ta: TokenAccount, index: nat, parent: Account, tokens: seq<TokenCurrency>,
                                        amount: Operation -> int,
                                        inferSubOperations: (string, seq<TokenAccount>) -> seq<Operation>)
  {
    && ta.id == parent.id + "|" + NatToString(index)
    && ta.parentId == parent.id
    && ta.token in tokens
    && 1 <= |ta.operations| <= 200
    && ta.pendingOperations == []
    && (forall k :: 0 <= k < |ta.operations| ==>
         GeneratedOp(ta.operations[k], k, ta.id, None, parent.currency, parent.blockHeight, inferSubOperations))
    && GuardedHistory(ta.operations, ta.balance, amount)
  }

  /** `genTokenAccount`: its own generator is seeded with its id. */
  method GenTokenAccount(index: nat, account: Account, tokensOf: CryptoCurrency -> seq<TokenCurrency>,
                         streams: string -> seq<nat>, amount: Operation -> int,
                         inferSubOperations: (string, seq<TokenAccount>) -> seq<Operation>)
    returns (ta: TokenAccount)
    requires |tokensOf(account.currency)| > 0
    ensures GeneratedTokenAccount(ta, index, account, tokensOf(account.currency), amount, inferSubOperations)
  {
    var id := account.id + "|" + NatToString(index);
    var rng := new Rng(streams(id));
    var token := rng.NextArrayItem(tokensOf(account.currency));
    var operationsSize := rng.NextInt(1, 200);
    var ops := GenOperations(account, id, None, [], operationsSize, rng, inferSubOperations);
    var guarded, total := GuardOperations(ops, amount);
    GuardGenerated(ops, amount, id, None, account.currency, account.blockHeight, inferSubOperations);
    ta := TokenAccount(id, account.id, token, guarded, [], total);
  }

  /** `GenAccountOptions`; a count is a non-negative number. */
  datatype GenAccountOptions = GenAccountOptions(
    operationsSize: Option<nat>,
    currency: Option<CryptoCurrency>,
    tokenAccountsCount: Option<nat>)

  /** The currencies that get token accounts. */
  predicate HasTokenAccounts(currency: CryptoCurrency)
  {
    currency.id == "ethereum" || currency.id == "ethereum_ropsten"
  }

  /** The draws of `genAccount` before the histories: currency, history
      size, address, xpub, name, block height and unit. */
  method GenAccountHeader(id: string, opts: GenAccountOptions, currencies: seq<CryptoCurrency>,
                          derivationPath: CryptoCurrency -> string, rng: Rng)
    returns (account: Account, operationsSize: nat)
    requires opts.currency.None? ==> |currencies| > 0
    requires opts.currency.Some? ==> |opts.currency.value.units| > 0
    requires forall c :: c in currencies ==> |c.units| > 0
    modifies rng
    ensures account.id == "mock:1:" + account.currency.id + ":" + id + ":"
    ensures if opts.currency.Some? then account.currency == opts.currency.value else account.currency in currencies
    ensures account.seedIdentifier == "mock" && account.index == 1
    ensures AddressShape(Crypto(account.currency), account.freshAddress)
    ensures account.freshAddressPath == derivationPath(account.currency)
    ensures |account.xpub| == 64 && IsHex(account.xpub)
    ensures 4 <= |account.name| <= 34
    ensures 100000 <= account.blockHeight <= 200000
    ensures account.unit in account.currency.units
    ensures account.balance == 0 && account.operations == [] && account.pendingOperations == []
    ensures account.tokenAccounts.None?
    ensures if opts.operationsSize.Some? && opts.operationsSize.value > 0
            then operationsSize == opts.operationsSize.value
            else 1 <= operationsSize <= 200
  {
    var currency: CryptoCurrency;
    if opts.currency.Some? {
      currency := opts.currency.value;
    } else {
      currency := rng.NextArrayItem(currencies);
    }
    if opts.operationsSize.Some? && opts.operationsSize.value > 0 {
      operationsSize := opts.operationsSize.value;
    } else {
      operationsSize := rng.NextInt(1, 200);
    }
    var address := GenAddress(Crypto(currency), rng);
    var xpub := GenHex(64, rng);
    var nameLength := rng.NextInt(4, 34);
    var name := rng.NextString(nameLength, DefaultChars);
    var blockHeight := rng.NextInt(100000, 200000);
    var unit := rng.NextArrayItem(currency.units);
    account := Account(
      id := "mock:1:" + currency.id + ":" + id + ":",
      seedIdentifier := "mock",
      xpub := xpub,
      index := 1,
      freshAddress := address,
      freshAddressPath := derivationPath(currency),
      name := name,
      balance := 0,
      blockHeight := blockHeight,
      currency := currency,
      unit := unit,
      operations := [],
      pendingOperations := [],
      tokenAccounts := None);
  }

  /** `Array(tokenCount).fill(null).map((_, i) => genTokenAccount(i, account))`. */
  method GenTokenAccounts(account: Account, tokenCount: nat, tokensOf: CryptoCurrency -> seq<TokenCurrency>,
                          streams: string -> seq<nat>, amount: Operation -> int,
                          inferSubOperations: (string, seq<TokenAccount>) -> seq<Operation>)
    returns (tokenAccounts: seq<TokenAccount>)
    requires |tokensOf(account.currency)| > 0
    ensures |tokenAccounts| == tokenCount
    ensures forall i :: 0 <= i < tokenCount ==>
      GeneratedTokenAccount(tokenAccounts[i], i, account, tokensOf(account.currency), amount, inferSubOperations)
  {
    tokenAccounts := [];
    for i := 0 to tokenCount
      invariant |tokenAccounts| == i
      invariant forall k :: 0 <= k < i ==>
        GeneratedTokenAccount(tokenAccounts[k], k, account, tokensOf(account.currency), amount, inferSubOperations)
    {
      var ta := GenTokenAccount(i, account, tokensOf, streams, amount, inferSubOperations);
      tokenAccounts := tokenAccounts + [ta];
    }
  }

  /** `genAccount(id, opts)`. `currencies` is the mock's currency list and
      `derivationPath` the derivation-scheme helpers. */
  method GenAccount(id: string, opts: GenAccountOptions, currencies: seq<CryptoCurrency>,
                    tokensOf: CryptoCurrency -> seq<TokenCurrency>, derivationPath: CryptoCurrency -> string,
                    streams: string -> seq<nat>, amount: Operation -> int,
                    inferSubOperations: (string, seq<TokenAccount>) -> seq<Operation>)
    returns (account: Account)
    requires opts.currency.None? ==> |currencies| > 0
    requires opts.currency.Some? ==> |opts.currency.value.units| > 0
    requires forall c :: c in currencies ==> |c.units| > 0
    requires forall c :: HasTokenAccounts(c) ==> |tokensOf(c)| > 0
    ensures account.id == "mock:1:" + account.currency.id + ":" + id + ":"
    ensures if opts.currency.Some? then account.currency == opts.currency.value else account.currency in currencies
    ensures account.seedIdentifier == "mock" && account.index == 1
    ensures AddressShape(Crypto(account.currency), account.freshAddress)
    ensures account.freshAddressPath == derivationPath(account.currency)
    ensures |account.xpub| == 64 && IsHex(account.xpub)
    ensures 4 <= |account.name| <= 34
    ensures 100000 <= account.blockHeight <= 200000
    ensures account.unit in account.currency.units
    ensures account.pendingOperations == []
    ensures if opts.operationsSize.Some? && opts.operationsSize.value > 0
            then |account.operations| == opts.operationsSize.value
            else 1 <= |account.operations| <= 200
    ensures forall k :: 0 <= k < |account.operations| ==>
      GeneratedOp(account.operations[k], k, account.id, account.tokenAccounts, account.currency, account.blockHeight, inferSubOperations)
    ensures forall j, k :: 0 <= j < k < |account.operations| ==> account.operations[j].id != account.operations[k].id
    ensures GuardedHistory(account.operations, account.balance, amount)
    ensures account.tokenAccounts.Some? <==> HasTokenAccounts(account.currency)
    ensures account.tokenAccounts.Some? && opts.tokenAccountsCount.Some? ==>
      |account.tokenAccounts.value| == opts.tokenAccountsCount.value
    ensures account.tokenAccounts.Some? && opts.tokenAccountsCount.None? ==> |account.tokenAccounts.value| <= 8
    ensures account.tokenAccounts.Some? ==> forall i :: 0 <= i < |account.tokenAccounts.value| ==>
      GeneratedTokenAccount(account.tokenAccounts.value[i], i, account, tokensOf(account.currency), amount, inferSubOperations)
  {
    var rng := new Rng(streams(id));
    var header, operationsSize := GenAccountHeader(id, opts, currencies, derivationPath, rng);
    var tokenAccounts: Option<seq<TokenAccount>> := None;
    if HasTokenAccounts(header.currency) {
      var tokenCount: nat;
      if opts.tokenAccountsCount.Some? {
        tokenCount := opts.tokenAccountsCount.value;
      } else {
        tokenCount := rng.NextInt(0, 8);
      }
      var generated := GenTokenAccounts(header, tokenCount, tokensOf, streams, amount, inferSubOperations);
      tokenAccounts := Some(generated);
    }
    var guarded, total := GenGuardedHistory(header, tokenAccounts, operationsSize, rng, amount, inferSubOperations);
    account := header.(tokenAccounts := tokenAccounts, operations := guarded, balance := total);
    TokenAccountsUnderFinal(header, account, tokensOf(account.currency), amount, inferSubOperations);
  }

  /** The history of `genAccount`: `count` generated operations, then the
      guard, which also gives the balance. */
  method GenGuardedHistory(header: Account, tokenAccounts: Option<seq<TokenAccount>>, count: nat, rng: Rng,
                           amount: Operation -> int,
                           inferSubOperations: (string, seq<TokenAccount>) -> seq<Operation>)
    returns (ops: seq<Operation>, balance: int)
    modifies rng
    ensures |ops| == count
    ensures forall k :: 0 <= k < |ops| ==>
      GeneratedOp(ops[k], k, header.id, tokenAccounts, header.currency, header.blockHeight, inferSubOperations)
    ensures forall j, k :: 0 <= j < k < |ops| ==> ops[j].id != ops[k].id
    ensures GuardedHistory(ops, balance, amount)
  {
    var generated := GenOperations(header, header.id, tokenAccounts, [], count, rng, inferSubOperations);
    ops, balance := GuardOperations(generated, amount);
    GuardGenerated(generated, amount, header.id, tokenAccounts, header.currency, header.blockHeight, inferSubOperations);
    GeneratedIdsDistinct(ops, header.id, tokenAccounts, header.currency, header.blockHeight, inferSubOperations);
  }

  /** A token account generated under the account header is generated under
      the finished account: only id, currency and block height are read. */
  lemma TokenAccountsUnderFinal(header: Account, account: Account, tokens: seq<TokenCurrency>,
                                amount: Operation -> int,
                                inferSubOperations: (string, seq<TokenAccount>) -> seq<Operation>)
    requires account.id == header.id && account.currency == header.currency && account.blockHeight == header.blockHeight
    ensures forall ta, i :: GeneratedTokenAccount(ta, i, header, tokens, amount, inferSubOperations) ==>
      GeneratedTokenAccount(ta, i, account, tokens, amount, inferSubOperations)
  {
  }
}
