/** The wallet's records: currencies, operations, accounts and token
    accounts. Balances and amounts are exact integers (the library's
    BigNumber values); dates are not modelled. */
module Types {
  import opened Wrappers

  datatype CryptoCurrency = CryptoCurrency(
    id: string,
    name: string,
    ticker: string,
    family: string,
    units: seq<string>)

  datatype TokenCurrency = TokenCurrency(id: string, name: string, ticker: string)

  /** `CryptoCurrency | TokenCurrency`, told apart by the `type` field. */
  datatype AnyCurrency = Crypto(crypto: CryptoCurrency) | Token(token: TokenCurrency)

  /** The `type` of an operation: "IN", "OUT" or any other type string. */
  datatype OperationType = IN | OUT | OtherType(name: string)

  datatype Operation = Operation(
    id: string,
    hash: string,
    kind: OperationType,
    value: int,
    fee: int,
    senders: seq<string>,
    recipients: seq<string>,
    blockHash: Option<string>,
    blockHeight: Option<int>,
    accountId: string,
    subOperations: Option<seq<Operation>>)

  datatype TokenAccount = TokenAccount(
    id: string,
    parentId: string,
    token: TokenCurrency,
    operations: seq<Operation>,
    pendingOperations: seq<Operation>,
    balance: int)

  datatype Account = Account(
    id: string,
    seedIdentifier: string,
    xpub: string,
    index: int,
    freshAddress: string,
    freshAddressPath: string,
    name: string,
    balance: int,
    blockHeight: int,
    currency: CryptoCurrency,
    unit: string,
    operations: seq<Operation>,
    pendingOperations: seq<Operation>,
    tokenAccounts: Option<seq<TokenAccount>>)

  /** `Account | TokenAccount`, told apart by the `type` field. */
  datatype AnyAccount = TopAccount(account: Account) | SubAccount(tokenAccount: TokenAccount)
  {
    function Id(): string {
      match this
      case TopAccount(a) => a.id
      case SubAccount(t) => t.id
    }

    function Balance(): int {
      match this
      case TopAccount(a) => a.balance
      case SubAccount(t) => t.balance
    }

    /** The currency a countervalue is computed for: the account's currency
        or the token account's token. */
    function Currency(): AnyCurrency {
      match this
      case TopAccount(a) => Crypto(a.currency)
      case SubAccount(t) => Token(t.token)
    }
  }
}
