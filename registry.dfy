/** Bridge selection: the currency bridge from the MOCK environment flag and
    the currency family, the account bridge from the implementation tag of
    the main account's id and its currency family. `getMainAccount` and the
    tag read by `decodeAccountId` are not part of this model and are
    parameters. */
module BridgeRegistry {
  import opened Wrappers
  import opened Types

  datatype CurrencyBridge = MockCurrencyBridge | RippleJSCurrencyBridge | EthereumJSCurrencyBridge | LibcoreCurrencyBridge

  datatype AccountBridge =
    | MockAccountBridge
    | RippleJSAccountBridge
    | EthereumJSAccountBridge
    | LibcoreEthereumAccountBridge
    | LibcoreBitcoinAccountBridge

  datatype RegistryError = CurrencyNotSupported(currencyName: string)

  /** `getCurrencyBridge`: the mock whenever MOCK is set, otherwise by family
      with the mock as fallback; never an error. */
  function GetCurrencyBridge(mock: bool, currency: CryptoCurrency): (b: CurrencyBridge)
    ensures mock ==> b == MockCurrencyBridge
    ensures !mock ==> (b == RippleJSCurrencyBridge <==> currency.family == "ripple")
    ensures !mock ==> (b == EthereumJSCurrencyBridge <==> currency.family == "ethereum")
    ensures !mock ==> (b == LibcoreCurrencyBridge <==> currency.family == "bitcoin")
    ensures b == MockCurrencyBridge <==> mock || currency.family !in {"ripple", "ethereum", "bitcoin"}
  {
    if mock then MockCurrencyBridge
    else
      match currency.family
      case "ripple" => RippleJSCurrencyBridge
      case "ethereum" => EthereumJSCurrencyBridge
      case "bitcoin" => LibcoreCurrencyBridge
      case _ => MockCurrencyBridge
  }

  /** The account bridge of a main account whose id carries tag `idType`. */
  function AccountBridgeOf(mainAccount: Account, idType: string): (r: Result<AccountBridge, RegistryError>)
    ensures idType == "mock" ==> r == Ok(MockAccountBridge)
    ensures idType == "libcore" ==>
      r == Ok(if mainAccount.currency.family == "ethereum" then LibcoreEthereumAccountBridge else LibcoreBitcoinAccountBridge)
    ensures r.Err? <==> idType != "mock" && idType != "libcore" && mainAccount.currency.family !in {"ripple", "ethereum"}
    ensures r.Err? ==> r.error == CurrencyNotSupported(mainAccount.currency.name)
    ensures r == Ok(RippleJSAccountBridge) <==> idType != "mock" && idType != "libcore" && mainAccount.currency.family == "ripple"
    ensures r == Ok(EthereumJSAccountBridge) <==> idType != "mock" && idType != "libcore" && mainAccount.currency.family == "ethereum"
  {
    if idType == "mock" then Ok(MockAccountBridge)
    else if idType == "libcore" then
      if mainAccount.currency.family == "ethereum" then Ok(LibcoreEthereumAccountBridge)
      else Ok(LibcoreBitcoinAccountBridge)
    else
      match mainAccount.currency.family
      case "ripple" => Ok(RippleJSAccountBridge)
      case "ethereum" => Ok(EthereumJSAccountBridge)
      case _ => Err(CurrencyNotSupported(mainAccount.currency.name))
  }

  /** `getAccountBridge(account, parentAccount)`: resolved on the main
      account; the MOCK flag is not consulted. */
  function GetAccountBridge(account: AnyAccount, parentAccount: Option<Account>,
                            getMainAccount: (AnyAccount, Option<Account>) -> Account,
                            accountIdType: string -> string): (r: Result<AccountBridge, RegistryError>)
    ensures var main := getMainAccount(account, parentAccount);
      var idType := accountIdType(main.id);
      && (idType == "mock" ==> r == Ok(MockAccountBridge))
      && (r.Err? <==> idType != "mock" && idType != "libcore" && main.currency.family !in {"ripple", "ethereum"})
      && (r.Err? ==> r.error == CurrencyNotSupported(main.currency.name))
      && (idType == "libcore" ==>
            r == Ok(if main.currency.family == "ethereum" then LibcoreEthereumAccountBridge else LibcoreBitcoinAccountBridge))
      && (r == Ok(RippleJSAccountBridge) <==> idType != "mock" && idType != "libcore" && main.currency.family == "ripple")
      && (r == Ok(EthereumJSAccountBridge) <==> idType != "mock" && idType != "libcore" && main.currency.family == "ethereum")
  {
    var mainAccount := getMainAccount(account, parentAccount);
    AccountBridgeOf(mainAccount, accountIdType(mainAccount.id))
  }

  /** A token account gets its parent's bridge. */
  lemma TokenAccountUsesParentBridge(token: TokenAccount, parent: Account,
                                     getMainAccount: (AnyAccount, Option<Account>) -> Account,
                                     accountIdType: string -> string)
    requires getMainAccount(SubAccount(token), Some(parent)) == parent
    requires getMainAccount(TopAccount(parent), None) == parent
    ensures GetAccountBridge(SubAccount(token), Some(parent), getMainAccount, accountIdType)
         == GetAccountBridge(TopAccount(parent), None, getMainAccount, accountIdType)
  {
  }

  /** Accounts with the same main account get the same bridge. */
  lemma SameMainAccountSameBridge(a: AnyAccount, pa: Option<Account>, b: AnyAccount, pb: Option<Account>,
                                  getMainAccount: (AnyAccount, Option<Account>) -> Account,
                                  accountIdType: string -> string)
    requires getMainAccount(a, pa) == getMainAccount(b, pb)
    ensures GetAccountBridge(a, pa, getMainAccount, accountIdType) == GetAccountBridge(b, pb, getMainAccount, accountIdType)
  {
  }
}
