/** The mock account bridge: fee and spend arithmetic, validation, the
    transaction editors, pending operations, and the broadcast mailbox that
    each sync tick drains into an account reducer. Timers and observables
    are not modelled: a broadcast and a sync tick are single calls. */
module MockBridge {
  import opened Wrappers
  import opened Types
  import opened Strings
  import opened Sequences
  import opened Random
  import opened BalanceGuard
  import opened MockAccount

  /** The fee data a server returns; only `serverFee` is read here. */
  datatype NetworkInfo = NetworkInfo(serverFee: Option<int>)

  /** A mock transaction. The five extra fields may be absent (`undefined`):
      `createTransaction` sets all but `tag`, and `editTransactionExtra` can
      set any of them. */
  datatype Transaction = Transaction(
    amount: int,
    recipient: string,
    feePerByte: Option<int>,
    fee: Option<int>,
    gasPrice: Option<int>,
    gasLimit: Option<int>,
    tag: Option<int>,
    networkInfo: Option<NetworkInfo>)

  datatype BridgeError = NotEnoughBalance | InvalidRecipient | SyncError(message: string)

  /** `defaultGetFees`; `None` where the source has no number (a missing
      field: a thrown TypeError, or `undefined` for ripple). */
  function DefaultGetFees(a: Account, t: Transaction): (fees: Option<int>)
    ensures fees.None? <==>
      || (a.currency.family == "ethereum" && (t.gasPrice.None? || t.gasLimit.None?))
      || (a.currency.family == "bitcoin" && t.feePerByte.None?)
      || (a.currency.family == "ripple" && t.fee.None?)
    ensures t.gasPrice.Some? && t.gasLimit.Some? && t.feePerByte.Some? && t.fee.Some? ==> fees.Some?
  {
    match a.currency.family
    case "ethereum" =>
      if t.gasPrice.Some? && t.gasLimit.Some? then Some(t.gasPrice.value * t.gasLimit.value) else None
    case "bitcoin" =>
      if t.feePerByte.Some? then Some(t.feePerByte.value * 250) else None
    case "ripple" => t.fee
    case _ => Some(0)
  }

  /** The fees by family, when the fields they read are present. */
  lemma FeesByFamily(a: Account, t: Transaction)
    ensures a.currency.family == "ethereum" && t.gasPrice.Some? && t.gasLimit.Some? ==>
      DefaultGetFees(a, t) == Some(t.gasPrice.value * t.gasLimit.value)
    ensures a.currency.family == "bitcoin" && t.feePerByte.Some? ==>
      DefaultGetFees(a, t) == Some(t.feePerByte.value * 250)
    ensures a.currency.family == "ripple" ==> DefaultGetFees(a, t) == t.fee
    ensures a.currency.family !in {"ethereum", "bitcoin", "ripple"} ==> DefaultGetFees(a, t) == Some(0)
  {
  }

  /** The fees never depend on the amount or the recipient. */
  lemma FeesIgnoreAmount(a: Account, t: Transaction, amount: int, recipient: string)
    ensures DefaultGetFees(a, t.(amount := amount, recipient := recipient)) == DefaultGetFees(a, t)
  {
  }

  /** `getTotalSpent`: amount plus fees. */
  function GetTotalSpent(a: Account, t: Transaction): (r: Option<int>)
    ensures r.Some? <==> DefaultGetFees(a, t).Some?
    ensures r.Some? ==> r.value - t.amount == DefaultGetFees(a, t).value
  {
    match DefaultGetFees(a, t)
    case Some(fees) => Some(t.amount + fees)
    case None => None
  }

  /** `getMaxAmount`: balance minus fees, negative when the fees exceed the
      balance. */
  function GetMaxAmount(a: Account, t: Transaction): (r: Option<int>)
    ensures r.Some? <==> DefaultGetFees(a, t).Some?
    ensures r.Some? ==> a.balance - r.value == DefaultGetFees(a, t).value
  {
    match DefaultGetFees(a, t)
    case Some(fees) => Some(a.balance - fees)
    case None => None
  }

  /** Sending the maximum amount spends exactly the balance. */
  lemma MaxAmountSpendsBalance(a: Account, t: Transaction)
    requires DefaultGetFees(a, t).Some?
    ensures GetTotalSpent(a, t.(amount := GetMaxAmount(a, t).value)) == Some(a.balance)
  {
    FeesIgnoreAmount(a, t, GetMaxAmount(a, t).value, t.recipient);
  }

  /** The maximum amount is not clamped: positive fees above the balance
      give a negative maximum. */
  lemma MaxAmountNotClamped(a: Account, t: Transaction)
    requires DefaultGetFees(a, t).Some? && DefaultGetFees(a, t).value > a.balance
    ensures GetMaxAmount(a, t).value < 0
  {
  }

  /** `checkValidTransaction`: fails with NotEnoughBalance exactly when the
      amount exceeds the balance; fees play no part. */
  function CheckValidTransaction(a: Account, t: Transaction): (r: Outcome<BridgeError>)
    ensures r.Fail? <==> t.amount > a.balance
    ensures r.Fail? ==> r.error == NotEnoughBalance
  {
    if t.amount > a.balance then Fail(NotEnoughBalance) else Pass
  }

  /** A transaction spending the whole balance passes even when its fees
      make it spend more than the balance. */
  lemma WholeBalanceAcceptedDespiteFees(a: Account, t: Transaction)
    requires t.amount == a.balance
    requires DefaultGetFees(a, t).Some? && DefaultGetFees(a, t).value > 0
    ensures CheckValidTransaction(a, t) == Pass
    ensures GetTotalSpent(a, t).value > a.balance
  {
  }

  /** `checkValidRecipient`: accepts exactly the recipients longer than three
      characters. */
  function CheckValidRecipient(recipient: string): (r: Outcome<BridgeError>)
    ensures r.Pass? <==> |recipient| > 3
    ensures r.Fail? ==> r.error == InvalidRecipient
  {
    if |recipient| > 3 then Pass else Fail(InvalidRecipient)
  }

  /** `createTransaction`. */
  function CreateTransaction(): (t: Transaction)
    ensures t.amount == 0 && t.recipient == ""
    ensures t.feePerByte == Some(10) && t.fee == Some(10)
    ensures t.gasPrice == Some(10000000000) && t.gasLimit == Some(21000)
    ensures t.tag.None? && t.networkInfo.None?
  {
    Transaction(0, "", Some(10), Some(10), Some(10000000000), Some(21000), None, None)
  }

  /** A fresh transaction's fees are defined for every family. */
  lemma CreatedTransactionHasFees(a: Account)
    ensures DefaultGetFees(a, CreateTransaction()).Some?
    ensures a.currency.family == "ethereum" ==> DefaultGetFees(a, CreateTransaction()) == Some(210000000000000)
    ensures a.currency.family == "bitcoin" ==> DefaultGetFees(a, CreateTransaction()) == Some(2500)
  {
  }

  /** `applyTransactionNetworkInfo`: stores the network info; a present fee
      is kept, an absent one falls back to the server fee. */
  function ApplyTransactionNetworkInfo(t: Transaction, networkInfo: NetworkInfo): (r: Transaction)
    ensures r.networkInfo == Some(networkInfo)
    ensures t.fee.Some? ==> r.fee == t.fee
    ensures t.fee.None? ==> r.fee == networkInfo.serverFee
    ensures r.(fee := t.fee, networkInfo := t.networkInfo) == t
  {
    t.(networkInfo := Some(networkInfo), fee := if t.fee.Some? then t.fee else networkInfo.serverFee)
  }

  /** `getTransactionNetworkInfo`: the stored network info, the one field
      that `applyTransactionNetworkInfo` always sets. */
  function GetTransactionNetworkInfo(t: Transaction): (r: Option<NetworkInfo>)
    ensures t.(networkInfo := r) == t
    ensures forall networkInfo :: r == Some(networkInfo) ==> ApplyTransactionNetworkInfo(t, networkInfo).(fee := t.fee) == t
  {
    t.networkInfo
  }

  /** The network info just applied is the one read back, and a new
      transaction has none. */
  lemma NetworkInfoRoundTrip(t: Transaction, networkInfo: NetworkInfo)
    ensures GetTransactionNetworkInfo(ApplyTransactionNetworkInfo(t, networkInfo)) == Some(networkInfo)
    ensures GetTransactionNetworkInfo(CreateTransaction()) == None
  {
  }

  /** `editTransactionAmount`: a copy with the new amount. */
  function EditTransactionAmount(t: Transaction, amount: int): (r: Transaction)
    ensures r.amount == amount
    ensures r.(amount := t.amount) == t
  {
    t.(amount := amount)
  }

  /** `getTransactionAmount`: writing back what it reads changes nothing. */
  function GetTransactionAmount(t: Transaction): (amount: int)
    ensures EditTransactionAmount(t, amount) == t
  {
    t.amount
  }

  /** `editTransactionRecipient`: a copy with the new recipient. */
  function EditTransactionRecipient(t: Transaction, recipient: string): (r: Transaction)
    ensures r.recipient == recipient
    ensures r.(recipient := t.recipient) == t
  {
    t.(recipient := recipient)
  }

  /** `getTransactionRecipient`: writing back what it reads changes nothing. */
  function GetTransactionRecipient(t: Transaction): (recipient: string)
    ensures EditTransactionRecipient(t, recipient) == t
  {
    t.recipient
  }

  /** The extra fields `editTransactionExtra`/`getTransactionExtra` address. */
  datatype ExtraField = FeePerByte | Fee | GasPrice | GasLimit | Tag

  /** `t[field]`. */
  function GetTransactionExtra(t: Transaction, field: ExtraField): (value: Option<int>)
    ensures EditTransactionExtra(t, field, value) == t
  {
    match field
    case FeePerByte => t.feePerByte
    case Fee => t.fee
    case GasPrice => t.gasPrice
    case GasLimit => t.gasLimit
    case Tag => t.tag
  }

  /** `{ ...t, [field]: value }`. */
  function EditTransactionExtra(t: Transaction, field: ExtraField, value: Option<int>): (r: Transaction)
    ensures r.amount == t.amount && r.recipient == t.recipient && r.networkInfo == t.networkInfo
    ensures r.feePerByte == if field == FeePerByte then value else t.feePerByte
    ensures r.fee == if field == Fee then value else t.fee
    ensures r.gasPrice == if field == GasPrice then value else t.gasPrice
    ensures r.gasLimit == if field == GasLimit then value else t.gasLimit
    ensures r.tag == if field == Tag then value else t.tag
  {
    match field
    case FeePerByte => t.(feePerByte := value)
    case Fee => t.(fee := value)
    case GasPrice => t.(gasPrice := value)
    case GasLimit => t.(gasLimit := value)
    case Tag => t.(tag := value)
  }

  /** Reading back an edited amount or recipient gives the new value, and
      nothing else changes. */
  lemma EditAmountRecipientRoundTrip(t: Transaction, amount: int, recipient: string)
    ensures GetTransactionAmount(EditTransactionAmount(t, amount)) == amount
    ensures EditTransactionAmount(EditTransactionAmount(t, amount), GetTransactionAmount(t)) == t
    ensures GetTransactionRecipient(EditTransactionRecipient(t, recipient)) == recipient
    ensures EditTransactionRecipient(EditTransactionRecipient(t, recipient), GetTransactionRecipient(t)) == t
    ensures forall field :: GetTransactionExtra(EditTransactionAmount(t, amount), field) == GetTransactionExtra(t, field)
    ensures forall field :: GetTransactionExtra(EditTransactionRecipient(t, recipient), field) == GetTransactionExtra(t, field)
  {
  }

  /** Reading back an edited extra field gives the new value; every other
      field reads as before, and restoring the old value restores the
      transaction. */
  lemma {:induction false} EditExtraRoundTrip(t: Transaction, field: ExtraField, value: Option<int>)
    ensures GetTransactionExtra(EditTransactionExtra(t, field, value), field) == value
    ensures forall other :: other != field ==>
      GetTransactionExtra(EditTransactionExtra(t, field, value), other) == GetTransactionExtra(t, other)
    ensures EditTransactionExtra(t, field, value).amount == t.amount
    ensures EditTransactionExtra(t, field, value).recipient == t.recipient
    ensures EditTransactionExtra(t, field, value).networkInfo == t.networkInfo
    ensures EditTransactionExtra(EditTransactionExtra(t, field, value), field, GetTransactionExtra(t, field)) == t
  {
  }

  /** `prepareTransaction`: the transaction unchanged. */
  function PrepareTransaction(t: Transaction): (r: Transaction)
    ensures r == t
  {
    t
  }

  /** `addPendingOperation`: one more pending operation, at the end. */
  function AddPendingOperation(account: Account, op: Operation): (r: Account)
    ensures |r.pendingOperations| == |account.pendingOperations| + 1
    ensures r.pendingOperations[..|account.pendingOperations|] == account.pendingOperations
    ensures r.pendingOperations[|account.pendingOperations|] == op
    ensures r.(pendingOperations := account.pendingOperations) == account
  {
    account.(pendingOperations := account.pendingOperations + [op])
  }

  // ---- sync reducer ----

  /** `operations` after `k` turns of the reducer's loop: each turn puts the
      drained operations in front of the reversed list. */
  function Repeated(ops: seq<Operation>, operations: seq<Operation>, k: nat): seq<Operation>
  {
    if k == 0 then operations else ops + Reverse(Repeated(ops, operations, k - 1))
  }

  /** The account the reducer returns for drained operations `ops`. */
  function Reduced(acc: Account, ops: seq<Operation>, amount: Operation -> int): (r: Account)
    ensures |r.operations| == |acc.operations| + |ops| * |ops|
    ensures r.(blockHeight := acc.blockHeight, balance := acc.balance,
      operations := acc.operations, pendingOperations := acc.pendingOperations) == acc
  {
    RepeatedLength(ops, acc.operations, |ops|);
    acc.(blockHeight := acc.blockHeight + 1,
         balance := acc.balance + Sum(ops, amount),
         operations := Repeated(ops, acc.operations, |ops|),
         pendingOperations := if ops == [] then acc.pendingOperations else [])
  }

  /** The reducer emitted by a sync tick, applied to `acc`. */
  method SyncReducer(acc: Account, ops: seq<Operation>, amount: Operation -> int) returns (account: Account)
    ensures account == Reduced(acc, ops, amount)
  {
    account := acc.(blockHeight := acc.blockHeight + 1);
    for k := 0 to |ops|
      invariant account == acc.(blockHeight := acc.blockHeight + 1,
                                balance := acc.balance + Sum(ops[..k], amount),
                                operations := Repeated(ops, acc.operations, k),
                                pendingOperations := if k == 0 then acc.pendingOperations else [])
    {
      assert ops[..k + 1] == ops[..k] + [ops[k]];
      SumAppend(ops[..k], ops[k], amount);
      account := account.(balance := account.balance + amount(ops[k]));
      account := account.(operations := ops + Reverse(account.operations));
      account := account.(pendingOperations := []);
    }
    assert ops[..|ops|] == ops;
  }

  /** What the reducer changes: one more block, the drained amounts added to
      the balance, pending operations emptied exactly when something was
      drained; every other field is kept. */
  lemma ReducedFields(acc: Account, ops: seq<Operation>, amount: Operation -> int)
    ensures Reduced(acc, ops, amount).blockHeight == acc.blockHeight + 1
    ensures Reduced(acc, ops, amount).balance - acc.balance == Sum(ops, amount)
    ensures Reduced(acc, ops, amount).pendingOperations == [] <==> ops != [] || acc.pendingOperations == []
    ensures ops == [] ==> Reduced(acc, ops, amount).pendingOperations == acc.pendingOperations
    ensures Reduced(acc, ops, amount).(blockHeight := acc.blockHeight, balance := acc.balance,
      operations := acc.operations, pendingOperations := acc.pendingOperations) == acc
  {
  }

  /** With nothing drained the history is unchanged; with one operation it is
      that operation followed by the old history reversed. */
  lemma ReducedOperationsSmall(acc: Account, ops: seq<Operation>, amount: Operation -> int)
    ensures ops == [] ==> Reduced(acc, ops, amount).operations == acc.operations
    ensures |ops| == 1 ==> Reduced(acc, ops, amount).operations == ops + Reverse(acc.operations)
  {
    assert Repeated(ops, acc.operations, 0) == acc.operations;
    assert Repeated(ops, acc.operations, 1) == ops + Reverse(acc.operations);
  }

  /** With two drained operations the old history comes back in its original
      order, between the two operations and their reversal. */
  lemma ReducedOperationsTwo(acc: Account, ops: seq<Operation>, amount: Operation -> int)
    requires |ops| == 2
    ensures Reduced(acc, ops, amount).operations == ops + acc.operations + Reverse(ops)
  {
    var once := ops + Reverse(acc.operations);
    assert Repeated(ops, acc.operations, 1) == once;
    ReverseConcat(ops, Reverse(acc.operations));
    ReverseReverse(acc.operations);
  }

  /** The history grows by the drained operations once per drained
      operation. */
  lemma {:induction false} RepeatedLength(ops: seq<Operation>, operations: seq<Operation>, k: nat)
    ensures |Repeated(ops, operations, k)| == k * |ops| + |operations|
  {
    if k > 0 {
      RepeatedLength(ops, operations, k - 1);
    }
  }

  // ---- mailbox ----

  /** `broadcasted[accountId] || []`. */
  function Queue(m: map<string, seq<Operation>>, id: string): seq<Operation>
  {
    if id in m then m[id] else []
  }

  /** The operation `signAndBroadcast` queues: an OUT of the amount, from the
      account's fresh address to the recipient, with no block hash and the
      account's block height. */
  predicate BroadcastOp(op: Operation, account: Account, t: Transaction)
  {
    && op.id == OperationId(|account.operations|, account.id)
    && op.accountId == account.id
    && op.kind == OUT
    && op.value == t.amount
    && op.senders == [account.freshAddress]
    && op.recipients == [t.recipient]
    && op.blockHash.None?
    && op.blockHeight == Some(account.blockHeight)
    && |op.hash| == 64 && IsHex(op.hash)
  }

  /** The bridge `makeMockAccountBridge` returns, with its `broadcasted`
      mailbox. `sent` and `delivered` record every operation ever queued and
      ever drained for an account id: what was sent is what was delivered
      followed by what is still queued, so each operation reaches at most one
      reducer. */
  class MockAccountBridge {
    var broadcasted: map<string, seq<Operation>>
    ghost var sent: map<string, seq<Operation>>
    ghost var delivered: map<string, seq<Operation>>

    ghost predicate Valid()
      reads this
    {
      forall id :: Queue(sent, id) == Queue(delivered, id) + Queue(broadcasted, id)
    }

    constructor ()
      ensures Valid()
      ensures broadcasted == map[] && sent == map[] && delivered == map[]
    {
      broadcasted := map[];
      sent := map[];
      delivered := map[];
    }

    /** The broadcast step of `signAndBroadcast`: `genOperation` on an
        unseeded generator, overwritten into the operation the transaction
        describes, appended to the account's queue only. */
    method SignAndBroadcast(account: Account, t: Transaction, rng: Rng,
                            inferSubOperations: (string, seq<TokenAccount>) -> seq<Operation>)
      returns (op: Operation)
      requires Valid()
      modifies this, rng
      ensures Valid()
      ensures BroadcastOp(op, account, t)
      ensures broadcasted == old(broadcasted)[account.id := Queue(old(broadcasted), account.id) + [op]]
      ensures Queue(sent, account.id) == Queue(old(sent), account.id) + [op]
      ensures forall id :: id != account.id ==> Queue(sent, id) == Queue(old(sent), id)
      ensures delivered == old(delivered)
    {
      var generated := GenOperation(account, account.id, account.tokenAccounts, account.operations, rng, inferSubOperations);
      op := generated.(kind := OUT, value := t.amount, blockHash := None,
                       senders := [account.freshAddress], recipients := [t.recipient],
                       blockHeight := Some(account.blockHeight));
      broadcasted := broadcasted[account.id := Queue(broadcasted, account.id) + [op]];
      sent := sent[account.id := Queue(sent, account.id) + [op]];
      forall id
        ensures Queue(sent, id) == Queue(delivered, id) + Queue(broadcasted, id)
      {
        if id == account.id {
          assert Queue(old(sent), id) == Queue(delivered, id) + Queue(old(broadcasted), id);
        } else {
          assert Queue(sent, id) == Queue(old(sent), id);
          assert Queue(broadcasted, id) == Queue(old(broadcasted), id);
        }
      }
    }

    /** One sync tick for `initialAccount`: an account whose name contains
        "crash" fails with SyncError and drains nothing; otherwise its queue
        is drained and emptied, and the drained operations are those the
        emitted reducer (`SyncReducer`) applies. */
    method SyncTick(initialAccount: Account) returns (r: Result<seq<Operation>, BridgeError>)
      requires Valid()
      modifies this
      ensures Valid()
      ensures sent == old(sent)
      ensures Contains(initialAccount.name, "crash") ==>
        r == Err(SyncError("mock failure")) && broadcasted == old(broadcasted) && delivered == old(delivered)
      ensures !Contains(initialAccount.name, "crash") ==>
        && r == Ok(Queue(old(broadcasted), initialAccount.id))
        && broadcasted == old(broadcasted)[initialAccount.id := []]
        && Queue(delivered, initialAccount.id) == Queue(old(delivered), initialAccount.id) + r.value
        && (forall id :: id != initialAccount.id ==> Queue(delivered, id) == Queue(old(delivered), id))
    {
      var accountId := initialAccount.id;
      if Contains(initialAccount.name, "crash") {
        return Err(SyncError("mock failure"));
      }
      var ops := Queue(broadcasted, accountId);
      broadcasted := broadcasted[accountId := []];
      delivered := delivered[accountId := Queue(delivered, accountId) + ops];
      forall id
        ensures Queue(sent, id) == Queue(delivered, id) + Queue(broadcasted, id)
      {
        if id == accountId {
          assert Queue(sent, id) == Queue(old(delivered), id) + ops;
          assert Queue(broadcasted, id) == [];
        } else {
          assert Queue(delivered, id) == Queue(old(delivered), id);
          assert Queue(broadcasted, id) == Queue(old(broadcasted), id);
        }
      }
      r := Ok(ops);
    }
  }
}
