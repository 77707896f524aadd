# Ledger Live common: account ordering, mock fixtures and bridges in Dafny

This project models four pieces of the wallet library's JavaScript core and
proves properties of them:

- **Account ordering** (`src/account/ordering.js`). An order string
  `field|direction` is parsed into a comparator. The comparator works by name,
  or by countervalue memoised per comparator, and breaks ties by name. Sorting
  is stable, and the very same list or account comes back when nothing moves.
  Accounts can be sorted flattened or nested, with token accounts sorted
  inside each parent. There are also the legacy countervalue reordering and
  the legacy id sort.
- **Balance guard and mock fixtures** (`src/mock/account.js`).
  `ensureNoNegative` walks an operation history from the oldest operation. It
  swaps IN and OUT wherever the running total would become negative, and it
  returns the total. The generators build addresses, operations, token
  accounts and accounts from a seeded pseudo-random generator.
- **Mock bridge** (`src/bridge/makeMockBridge.js`). It covers fees, total
  spent, the maximum amount and validation. It also covers the transaction
  editors, pending operations, and the per-account broadcast mailbox that
  each sync tick drains into an account reducer.
- **Bridge registry** (`src/bridge/index.js`). It picks a currency bridge from
  the MOCK flag and the currency family. It picks an account bridge from the
  id tag of the main account and its family, or fails with
  CurrencyNotSupported.

Layout: `wrappers.dfy` (Option, Result, Outcome), `strings.dfy` (JavaScript
`split`, `includes`, `startsWith`, decimal rendering), `sequences.dfy`,
`types.dfy` (currencies, operations, accounts), `stable_sort.dfy` (the stable
sort `Array.prototype.sort` performs, over (item, index) pairs),
`ordering.dfy`, `balance_guard.dfy`, `random.dfy` (the generator),
`mock_account.dfy`, `mock_bridge.dfy`, `registry.dfy`.

Modelling conventions:

- "The same array or object is returned" is the `same` flag of
  `Ordering.Out`.
- `localeCompare` is a parameter `lc` that is assumed to be a total preorder.
- Helpers whose code is not part of this model are parameters:
  `getOperationAmountNumber` (`amount`), `flattenAccounts`,
  `inferSubOperations`, `listTokensForCryptoCurrency` (`tokensOf`),
  `getMainAccount`, the tag read by `decodeAccountId`, the derivation-path
  helpers, and `calculateCountervalue` (`convert`).
- Amounts, balances, fees, prices and countervalues are exact integers.
- Two behaviours of the code worth knowing:
  - A missing countervalue counts as -1 (`src/account/ordering.js:39`). With
    non-negative countervalues, such an entity sorts **first** when ascending
    and last when descending, not last when ascending.
  - The countervalue cache belongs to the comparator returned by
    `sortAccountsComparatorFromOrder`, not to one sort call. It lives as long
    as the comparator and keeps a value even after the entity's balance
    changes.

## Model

| member | source | states |
|---|---|---|
| Ordering.ComparatorFromOrderFields | src/account/ordering.js:26-31 | for `field|direction` (optionally followed by more `|` pieces), the sign is -1 exactly when the direction is "desc", and the name comparator is chosen exactly when the field is "name"; every other field selects the countervalue comparator |
| Ordering.ComparatorFromOrder | src/account/ordering.js:26-31 | the sign of the parsed comparator is always +1 or -1 |
| Ordering.ComparatorFromOrderComplete | src/account/ordering.js:26-31 | every order string holding `|` is a field, `|`, a direction and a rest, and parses to the name comparator exactly when the field is "name", with sign -1 exactly when the direction is "desc" |
| Ordering.ComparatorFromOrderNoDirection | src/account/ordering.js:26-27 | an order string without `|` is ascending |
| Ordering.SortName | src/account/ordering.js:16-17 | the name used for sorting is an account's own name and a token account's token name |
| Ordering.CompareAccounts | src/account/ordering.js:28-51 | the name comparator is the sign times `localeCompare` of the names; the countervalue comparator falls back to `localeCompare` of the names on equal countervalues and otherwise is negative exactly when the first countervalue is smaller (ascending) or larger (descending) |
| Ordering.NameComparatorUsesLens | src/account/ordering.js:16-17 | the name comparator compares an account's name, or a token account's token name, multiplied by the sign |
| Ordering.CompareAccountsConsistent | src/account/ordering.js:19-52 | with a sign of ±1 and a consistent `localeCompare`, every comparator built from an order string is a total preorder on entities, accounts and token accounts, so the sorts are well defined |
| Ordering.MissingCountervalueFirstAscending | src/account/ordering.js:35-39 | an entity without a conversion (counted as -1) sorts before one with a non-negative countervalue when ascending and after it when descending |
| Ordering.CountervalueTieByName | src/account/ordering.js:43-50 | equal countervalues fall back to the ascending name comparison, whatever the direction |
| Ordering.Cached | src/account/ordering.js:33-42 | looking an entity up adds its id to the cache keys and never replaces a cached value; the entry for the id is its fresh countervalue whenever the cache agreed with the entity |
| Ordering.CountervalueComparator.LazyCalcCV | src/account/ordering.js:33-42 | returns the cache entry for the id after the lookup; `convert` is recorded as called exactly when the id was not cached yet |
| Ordering.CountervalueComparator.Compare | src/account/ordering.js:32-51 | both entities are looked up through the cache, the result compares the cached values (ties by name), and `convert` runs at most once per id over the comparator's life |
| Ordering.CachedCompareFresh | src/account/ordering.js:32-51 | while the cache agrees with both entities, a comparison through the cache equals the comparison with freshly computed countervalues |
| Ordering.ComparatorSortAccounts | src/account/ordering.js:54-70 | the result is a permutation of the input, sorted by the comparator, and equal to the stable sort; the input itself comes back exactly when it was already in order |
| Ordering.IdentityIffSorted | src/account/ordering.js:58-67 | the sorted index sequence is the identity exactly when the input is already in order, and then the sort returns the input |
| Ordering.ComparatorSortIdempotent | src/account/ordering.js:58-67 | sorting a sorted result again returns that same list |
| Ordering.FlattenSortAccounts | src/account/ordering.js:73-78 | a sorted permutation of the flattened accounts, equal to their stable sort, the flattened list itself exactly when it was in order |
| Ordering.WithSortedTokenAccounts | src/account/ordering.js:87-96 | an account without token accounts, or with token accounts already in order, is returned itself; otherwise a copy that differs only in `tokenAccounts`, which are a sorted permutation of the original ones |
| Ordering.NestedSortAccounts | src/account/ordering.js:81-102 | the result is sorted, is a permutation of the accounts with their token accounts sorted, and equals the stable sort of those accounts; the input list itself comes back exactly when no account changed and the accounts were already in order |
| Ordering.ReorderTokenAccountsByCountervalues | src/account/ordering.js:135-156 | a permutation in non-increasing order of balance × rate (an unknown ticker has rate 0), equal prices ordered by ascending ticker, equal to the stable sort by that comparator; the input itself exactly when nothing moved |
| Ordering.ReorderAccountByCountervalues | src/account/ordering.js:159-168 | the account itself when it has no token accounts or they do not move; otherwise a copy differing only in the reordered token accounts |
| Ordering.BalanceRows | src/account/ordering.js:117 | each row carries the account's id and name and its BTC balance, or -1 when the balance is missing |
| Ordering.SortByBalance | src/account/ordering.js:115-126 | the ids of a permutation of the rows sorted by balance, ties by name; exactly the ids of the stable sort of the rows |
| Ordering.SortByName | src/account/ordering.js:128-132 | the ids of a permutation of the accounts sorted by name; exactly the ids of the stable sort of the accounts |
| Ordering.SortMethod | src/account/ordering.js:114-133 | a sort method exists exactly for "name" and "balance"; "name" yields exactly the ids of the stable sort of the accounts by name, "balance" exactly the ids of the stable sort of the balance rows (ties by name) |
| Ordering.ReverseInPlace | src/account/ordering.js:174-176 | the array afterwards holds its old contents reversed |
| Ordering.SortAccounts | src/account/ordering.js:170-180 | `None` (null) exactly when the field has no sort method; "desc" gives exactly the reverse of the ascending ids, any other direction the ascending ids |
| StableSort.SortCorrect | src/account/ordering.js:58-63 | the stable sort returns a sorted permutation, and its (item, index) pairs are strictly ordered by comparator and then by index |
| StableSort.StableSortUnique | src/account/ordering.js:58-63 | any arrangement of the (item, index) pairs ordered strictly by comparator and then by index is the stable sort's, so every stable sort gives the same result |
| StableSort.SortOfSorted | src/account/ordering.js:63-64 | sorting an already sorted list keeps every element at its own index |
| BalanceGuard.EnsureNoNegative | src/mock/account.js:25-40 | the in-place backwards loop leaves the array equal to the guard applied to its old contents and returns the guard's total |
| BalanceGuard.Guard | src/mock/account.js:25-40 | the guarded history has as many operations as the input |
| BalanceGuard.GuardShape | src/mock/account.js:30-36 | the length and order stay the same, and every operation is unchanged or has IN and OUT swapped, with no other field touched; operations of other kinds are never changed |
| BalanceGuard.GuardTotal | src/mock/account.js:26-39 | the returned total is the sum of the amounts of the operations after the swaps |
| BalanceGuard.FixNonNegative | src/mock/account.js:30-37 | under the sign hypothesis, one step from a non-negative total keeps it non-negative |
| BalanceGuard.GuardPrefixesNonNegative | src/mock/account.js:27-39 | under the sign hypothesis, on a history of IN/OUT operations with non-negative values, every oldest-first prefix of the result has a non-negative total, and so does the returned total |
| BalanceGuard.GuardIdempotent | src/mock/account.js:27-39 | under the same hypothesis, a second run swaps nothing and returns the same total |
| MockAccount.GenBitcoinAddressLike | src/mock/account.js:66-69 | "1" followed by 25 to 34 base58 characters |
| MockAccount.GenHex | src/mock/account.js:74-76 | exactly `length` hex characters |
| MockAccount.GenAddress | src/mock/account.js:81-93 | ethereum-family currencies and tokens whose id starts with "ethereum" get "0x" and 40 hex characters; all others get a base58 address |
| MockAccount.OperationIdsDistinct | src/mock/account.js:127 | operation ids `mock_op_<i>_<accountId>` differ for different positions |
| MockAccount.GenOperation | src/mock/account.js:99-153 | the operation has the id and account id of its position, IN or OUT, a non-negative value, a fee of value/100 rounded, 64-hex hash and block hash, one sender and one recipient shaped as addresses of the account's currency, a block height not above the account's, and sub-operations inferred exactly for an account with token accounts |
| MockAccount.GenOperations | src/mock/account.js:165-170 | the start list followed by exactly `count` generated operations, each numbered by its position |
| MockAccount.GuardGenerated | src/mock/account.js:253-260 | after the guard, every operation is still generated and the balance is the sum of the amounts; under the sign hypothesis it is non-negative and a second guard changes nothing |
| MockAccount.GeneratedIdsDistinct | src/mock/account.js:253-258 | the operation ids of a generated history are pairwise distinct |
| MockAccount.GenGuardedHistory | src/mock/account.js:253-260 | exactly `count` operations, each generated at its position for the account, with distinct ids, and a balance that is the sum of the guarded amounts |
| MockAccount.GenAddingOperationsInAccount | src/mock/account.js:158-173 | a copy differing only in operations and balance: the old operations (possibly with IN/OUT swapped) followed by exactly `count` new ones numbered on from them, with the balance equal to the sum of the amounts; under the sign hypothesis the balance is non-negative and the new history is a fixed point of the guard |
| MockAccount.GenTokenAccount | src/mock/account.js:185-211 | id `<parent id>|<index>`, parent id, a token from the parent currency's list, 1 to 200 generated operations, no pending operations, and a guarded balance |
| MockAccount.GenTokenAccounts | src/mock/account.js:243-251 | exactly `tokenCount` token accounts, the i-th generated at index i |
| MockAccount.GenAccountHeader | src/mock/account.js:217-241 | currency from the options or the list, the history size from the options when positive, otherwise 1 to 200, an address of the currency, a 64-hex xpub, a name of 4 to 34 characters, a block height from 100000 to 200000, and a unit of the currency |
| MockAccount.GenAccount | src/mock/account.js:213-262 | id `mock:1:<currency id>:<id>:`, the header fields, exactly `operationsSize` operations when that option is positive, distinct operation ids, a guarded balance, and token accounts exactly for ethereum and ethereum_ropsten, counted by the option when given and at most 8 otherwise, each with id `<account id>|<i>` and the account as parent |
| MockBridge.DefaultGetFees | src/bridge/makeMockBridge.js:17-28 | fees are absent exactly when the family reads a transaction field that is absent (gas price or limit for ethereum, fee per byte for bitcoin, fee for ripple), and present whenever all those fields are |
| MockBridge.FeesByFamily | src/bridge/makeMockBridge.js:17-28 | fees are gasPrice × gasLimit for ethereum, feePerByte × 250 for bitcoin, the fee for ripple and 0 for any other family |
| MockBridge.FeesIgnoreAmount | src/bridge/makeMockBridge.js:17-28 | fees do not depend on the amount or the recipient |
| MockBridge.GetTotalSpent | src/bridge/makeMockBridge.js:40-41 | the total spent exceeds the amount by exactly the fees |
| MockBridge.GetMaxAmount | src/bridge/makeMockBridge.js:43-44 | the maximum amount falls short of the balance by exactly the fees |
| MockBridge.MaxAmountSpendsBalance | src/bridge/makeMockBridge.js:40-44 | sending the maximum amount spends exactly the balance |
| MockBridge.MaxAmountNotClamped | src/bridge/makeMockBridge.js:43-44 | follows from the subtraction: fees above the balance give a negative maximum amount, with no clamping at zero |
| MockBridge.CheckValidTransaction | src/bridge/makeMockBridge.js:46-49 | fails with NotEnoughBalance exactly when the amount exceeds the balance |
| MockBridge.WholeBalanceAcceptedDespiteFees | src/bridge/makeMockBridge.js:40-49 | spending the whole balance passes validation although positive fees make the total spent exceed the balance |
| MockBridge.CheckValidRecipient | src/bridge/makeMockBridge.js:98-101 | accepts exactly the recipients longer than three characters |
| MockBridge.CreateTransaction | src/bridge/makeMockBridge.js:103-113 | amount 0, empty recipient, feePerByte 10, fee 10, gasPrice 10000000000, gasLimit 21000, no tag, no network info |
| MockBridge.CreatedTransactionHasFees | src/bridge/makeMockBridge.js:103-113 | follows from the default field values: a new transaction has fees for every family, 210000000000000 for ethereum and 2500 for bitcoin |
| MockBridge.ApplyTransactionNetworkInfo | src/bridge/makeMockBridge.js:125-129 | stores the network info, keeps a present fee, falls back to the server fee only when the fee is absent, and changes nothing else |
| MockBridge.GetTransactionNetworkInfo | src/bridge/makeMockBridge.js:131-132 | returns exactly the stored network info, `None` (null) included: writing it back leaves the transaction as it was, and applying the info read leaves everything but the fee as it was |
| MockBridge.NetworkInfoRoundTrip | src/bridge/makeMockBridge.js:103-132 | the network info just applied is the one read back, and a new transaction has none |
| MockBridge.EditTransactionAmount | src/bridge/makeMockBridge.js:134-137 | the edited amount reads back as set and no other field changes |
| MockBridge.GetTransactionAmount | src/bridge/makeMockBridge.js:138 | writing back the amount read leaves the transaction as it was |
| MockBridge.EditTransactionRecipient | src/bridge/makeMockBridge.js:140-143 | the edited recipient reads back as set and no other field changes |
| MockBridge.GetTransactionRecipient | src/bridge/makeMockBridge.js:145 | writing back the recipient read leaves the transaction as it was |
| MockBridge.EditTransactionExtra | src/bridge/makeMockBridge.js:147-150 | the named extra field takes the value; the amount, recipient, network info and every other extra field keep theirs |
| MockBridge.GetTransactionExtra | src/bridge/makeMockBridge.js:147-150 | writing back the extra field read leaves the transaction as it was |
| MockBridge.EditAmountRecipientRoundTrip | src/bridge/makeMockBridge.js:134-145 | an edited amount or recipient reads back as set, the extra fields are unchanged, and writing the old value back restores the transaction |
| MockBridge.EditExtraRoundTrip | src/bridge/makeMockBridge.js:147-150 | an edited extra field reads back as set, every other field is unchanged, and writing the old value back restores the transaction |
| MockBridge.PrepareTransaction | src/bridge/makeMockBridge.js:182-183 | the transaction is returned unchanged |
| MockBridge.AddPendingOperation | src/bridge/makeMockBridge.js:177-180 | the old pending operations followed by exactly the new one, and every other field equal |
| MockBridge.Reduced | src/bridge/makeMockBridge.js:68-82 | the history grows by the square of the number drained, since each of that many turns adds all drained operations again; every field but block height, balance, history and pending operations is kept |
| MockBridge.SyncReducer | src/bridge/makeMockBridge.js:68-82 | the reducer's loop returns the account described by `Reduced` |
| MockBridge.ReducedFields | src/bridge/makeMockBridge.js:69-80 | one more block, the drained amounts added to the balance, pending operations emptied exactly when something was drained, and every other field kept |
| MockBridge.ReducedOperationsSmall | src/bridge/makeMockBridge.js:72-80 | with nothing drained the history is unchanged; with one operation it becomes that operation followed by the old history reversed |
| MockBridge.ReducedOperationsTwo | src/bridge/makeMockBridge.js:72-80 | with two drained operations the history becomes the two operations, then the old history in its original order, then the two operations reversed |
| MockBridge.RepeatedLength | src/bridge/makeMockBridge.js:76-78 | each turn of the loop adds all drained operations again, so the history grows by k × (number drained) after k turns |
| MockBridge.MockAccountBridge.constructor | src/bridge/makeMockBridge.js:53 | a new bridge starts with an empty mailbox |
| MockBridge.MockAccountBridge.SignAndBroadcast | src/bridge/makeMockBridge.js:152-175 | exactly one OUT operation is appended, to the broadcasting account's queue only: the transaction's amount, sent from the fresh address to the recipient, with no block hash, the account's block height and the next operation id |
| MockBridge.MockAccountBridge.SyncTick | src/bridge/makeMockBridge.js:57-68 | an account named with "crash" gets SyncError and nothing is drained; otherwise its queue is handed to the reducer and emptied, so every broadcast operation reaches at most one reducer, and other accounts' queues are untouched |
| BridgeRegistry.GetCurrencyBridge | src/bridge/index.js:23-35 | the mock whenever MOCK is set; otherwise ripple, ethereum and bitcoin map to their bridges and every other family to the mock; never an error |
| BridgeRegistry.AccountBridgeOf | src/bridge/index.js:42-59 | tag "mock" gives the mock bridge whatever the family; tag "libcore" gives LibcoreEthereum for ethereum and LibcoreBitcoin otherwise; any other tag gives the ripple or ethereum JS bridge, and CurrencyNotSupported with the currency name for every other family |
| BridgeRegistry.GetAccountBridge | src/bridge/index.js:37-60 | tag "mock" gives the mock bridge; the result is an error exactly when the tag is neither "mock" nor "libcore" and the family is neither ripple nor ethereum, and the error is CurrencyNotSupported with the main account's currency name; tag "libcore" gives LibcoreEthereum for ethereum and LibcoreBitcoin otherwise; any other tag gives the ripple JS bridge exactly for ripple and the ethereum JS bridge exactly for ethereum |
| BridgeRegistry.TokenAccountUsesParentBridge | src/bridge/index.js:37-43 | given that `getMainAccount` returns the parent for the token account and the parent for itself, a token account gets its parent account's bridge; a direct consequence of the lookup going through the main account |
| BridgeRegistry.SameMainAccountSameBridge | src/bridge/index.js:37-42 | by the definition, the bridge is a function of the main account alone (the MOCK flag takes no part) |

## Left out

- Timers and observables are not modelled. This covers `setTimeout`, `syncTimeouts`, the 2 s and 20 s re-arming of `startSync`, the two delayed emissions of `signAndBroadcast`, and the completion and unsubscription of observables. A sync tick and a broadcast are single method calls.
- `makeMockCurrencyBridge` and `scanAccountsOnDevice` are left out. Their behaviour comes from `Math.random`, delays, dates and `validateNameEdition`; the accounts they emit are built by `genAccount`, which is modelled.
- `fetchTransactionNetworkInfo` is left out because it makes network fee requests. `NetworkInfo` holds only `serverFee`.
- The `feeCustomUnit` field of a new transaction is left out (a currency unit record).
- `lastSyncDate`, operation dates and `substractOneYear` are left out. Dates are not modelled.
- Random generation is abstract. Prando's algorithm, its seeding and its distribution (such as the 0.3 OUT probability) are not modelled. A generator is a sequence of draws supplied by the caller. `next()` is a fraction with denominator 1000000. Prando's default character set is taken to be the 62 ASCII letters and digits.
- MockAccount.GenOperation: the value is the drawn integer without the division by `tickerApproxMarketPrice`, because that division is floating point. The fee is `Math.round(value * 0.01)` computed exactly, as (value + 50) / 100. The block age is this operation's own date offset in 15-minute blocks. The source measures the age from the current time, and its offsets accumulate over the history. Only "not above the account's block height" is stated.
- MockAccount.GenOperation: the `NaN` check cannot fail, because values are integers.
- MockAccount.GenAddingOperationsInAccount: the source's swaps also act on operation objects shared with the input account, so that account's history can change too. The model works on values and leaves the input untouched.
- MockAccount.GenAddingOperationsInAccount: `count` is a non-negative integer. The RangeError that `Array(n)` throws for a negative or fractional count is not modelled.
- MockAccount.GenAccount: `operationsSize` and `tokenAccountsCount` are non-negative integers. A negative `operationsSize` is truthy, so the source keeps it and `Array` throws RangeError; that error is not modelled.
- MockAccount.GenAccount: every currency is required to have at least one unit. Ethereum currencies are required to have at least one token. The source would otherwise produce an `undefined` unit or fail on an `undefined` token.
- MockAccount.GenAccount: `derivationMode` (always "") is not a field of the model.
- MockAccount.GenAccount: the list of mock currencies, filtered by `tickerApproxMarketPrice`, is a parameter.
- BalanceGuard.GuardPrefixesNonNegative: `getOperationAmountNumber` is not part of this model. Non-negativity and idempotence are proved under a hypothesis: IN counts +value, OUT counts −value, and the history holds only IN/OUT operations with non-negative values.
- MockBridge.MockAccountBridge.SignAndBroadcast: the fee of the queued operation is whatever `genOperation` drew, and nothing is stated about it. The unseeded generator is a parameter.
- MockBridge.CheckValidRecipient: the length is counted in Unicode code points, not in the UTF-16 code units of JavaScript's `.length`. A recipient of two characters outside the Basic Multilingual Plane (length 4 in JavaScript) is rejected here but accepted by the source.
- MockBridge.EditTransactionExtra: only the five extra fields of the mock transaction (feePerByte, fee, gasPrice, gasLimit, tag) can be edited. The source accepts any property name. An absent field (`undefined`) is `None`.
- MockBridge.GetTransactionExtra: only the same five extra fields can be read. An absent field (`undefined`) is `None`.
- MockBridge.EditExtraRoundTrip: only the five extra fields of the mock transaction (feePerByte, fee, gasPrice, gasLimit, tag) can be edited. The source accepts any property name. An absent field (`undefined`) is `None`, and fees that read one are `None`.
- Ordering.CountervalueComparator.Compare: the sorts in this model use the comparison with freshly computed countervalues, `CompareAccounts`. The memoised comparator equals it only while its cache agrees with the entities. A sort through a stale cache is not modelled.
- Ordering.ComparatorSortAccounts: reference identity is the `same` flag; object identity itself is not modelled. JavaScript number conversion (`toNumber`) and the floating-point `rates` are exact integers here.
- Ordering: `localeCompare` is abstract, assumed to be a total preorder on strings.
- `flattenAccounts`, `inferSubOperations`, `getMainAccount`, `decodeAccountId`, `listTokensForCryptoCurrency` and the derivation-scheme helpers are parameters. An id that `decodeAccountId` rejects is not modelled.
