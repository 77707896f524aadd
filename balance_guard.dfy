/** `ensureNoNegative`: the operation history is newest first; walking it
    from the oldest operation, an operation whose amount would make the
    running total negative has its direction swapped (IN and OUT), and the
    final total is the balance. `getOperationAmountNumber` is not part of
    this model and is the parameter `amount`. */
module BalanceGuard {
  import opened Types

  /** IN and OUT swapped; any other kind kept. */
  function Flip(op: Operation): Operation
  {
    match op.kind
    case IN => op.(kind := OUT)
    case OUT => op.(kind := IN)
    case OtherType(_) => op
  }

  /** The guard's step for one operation at running total `total`. */
  function Fix(op: Operation, total: int, amount: Operation -> int): Operation
  {
    if total + amount(op) < 0 then Flip(op) else op
  }

  /** The guard from running total `t`: the last element (the oldest) is
      fixed first, then the rest from the updated total. The result is the
      new history and the final total. */
  function Guard(ops: seq<Operation>, t: int, amount: Operation -> int): (r: (seq<Operation>, int))
    ensures |r.0| == |ops|
    decreases |ops|
  {
    if ops == [] then ([], t)
    else
      var op := Fix(ops[|ops| - 1], t, amount);
      var rest := Guard(ops[..|ops| - 1], t + amount(op), amount);
      (rest.0 + [op], rest.1)
  }

  /** The sum of the amounts of a list. */
  function Sum(ops: seq<Operation>, amount: Operation -> int): int
  {
    if ops == [] then 0 else amount(ops[0]) + Sum(ops[1..], amount)
  }

  /** The loop of `ensureNoNegative`, from index `length - 1` down to 0,
      swapping `type` in place. */
  method EnsureNoNegative(operations: array<Operation>, amount: Operation -> int) returns (total: int)
    modifies operations
    ensures operations[..] == Guard(old(operations[..]), 0, amount).0
    ensures total == Guard(old(operations[..]), 0, amount).1
  {
    total := 0;
    var i := operations.Length - 1;
    ghost var goal := Guard(operations[..], 0, amount);
    assert operations[..i + 1] == operations[..] && operations[i + 1..] == [];
    assert goal.0 + [] == goal.0;
    while i >= 0
      invariant -1 <= i < operations.Length
      invariant goal.0 == Guard(operations[..i + 1], total, amount).0 + operations[i + 1..]
      invariant goal.1 == Guard(operations[..i + 1], total, amount).1
    {
      ghost var cur := operations[..];
      var op := operations[i];
      if total + amount(op) < 0 {
        if op.kind == IN {
          operations[i] := op.(kind := OUT);
        } else if op.kind == OUT {
          operations[i] := op.(kind := IN);
        }
      }
      assert operations[i] == Fix(op, total, amount);
      assert operations[..i] == cur[..i];
      assert operations[i + 1..] == cur[i + 1..];
      ghost var t := total;
      total := total + amount(operations[i]);
      i := i - 1;
      GuardLoopStep(goal, cur, operations[..], i + 1, t, total, amount);
    }
    assert operations[..0] == [] && operations[0..] == operations[..];
  }

  /** One turn of the loop: fixing position `i` in place moves it from the
      part still to guard to the part already guarded. */
  lemma GuardLoopStep(goal: (seq<Operation>, int), cur: seq<Operation>, next: seq<Operation>,
                      i: nat, total: int, total': int, amount: Operation -> int)
    requires i < |cur| == |next|
    requires next[..i] == cur[..i] && next[i + 1..] == cur[i + 1..]
    requires next[i] == Fix(cur[i], total, amount)
    requires total' == total + amount(next[i])
    requires goal.0 == Guard(cur[..i + 1], total, amount).0 + cur[i + 1..]
    requires goal.1 == Guard(cur[..i + 1], total, amount).1
    ensures goal.0 == Guard(next[..i], total', amount).0 + next[i..]
    ensures goal.1 == Guard(next[..i], total', amount).1
  {
    assert cur[..i + 1][..i] == cur[..i];
    assert cur[..i + 1][i] == cur[i];
    assert next[i..] == [next[i]] + next[i + 1..];
  }

  /** Only directions change: same length and order, every element equal to
      its original or to it with IN and OUT swapped, and any other kind kept. */
  lemma {:induction false} GuardShape(ops: seq<Operation>, t: int, amount: Operation -> int)
    ensures |Guard(ops, t, amount).0| == |ops|
    ensures forall k :: 0 <= k < |ops| ==>
      Guard(ops, t, amount).0[k] == ops[k] || Guard(ops, t, amount).0[k] == Flip(ops[k])
    ensures forall k :: 0 <= k < |ops| ==> Guard(ops, t, amount).0[k] == ops[k].(kind := Guard(ops, t, amount).0[k].kind)
    ensures forall k :: 0 <= k < |ops| && ops[k].kind.OtherType? ==> Guard(ops, t, amount).0[k] == ops[k]
    decreases |ops|
  {
    if ops != [] {
      var op := Fix(ops[|ops| - 1], t, amount);
      GuardShape(ops[..|ops| - 1], t + amount(op), amount);
    }
  }

  /** The final total is the starting total plus the amounts of the
      operations as they are after the swaps. */
  lemma {:induction false} GuardTotal(ops: seq<Operation>, t: int, amount: Operation -> int)
    ensures Guard(ops, t, amount).1 == t + Sum(Guard(ops, t, amount).0, amount)
    decreases |ops|
  {
    if ops != [] {
      var op := Fix(ops[|ops| - 1], t, amount);
      var rest := Guard(ops[..|ops| - 1], t + amount(op), amount);
      GuardTotal(ops[..|ops| - 1], t + amount(op), amount);
      SumAppend(rest.0, op, amount);
    }
  }

  lemma {:induction false} SumAppend(ops: seq<Operation>, op: Operation, amount: Operation -> int)
    ensures Sum(ops + [op], amount) == Sum(ops, amount) + amount(op)
  {
    if ops != [] {
      assert (ops + [op])[1..] == ops[1..] + [op];
      SumAppend(ops[1..], op, amount);
    }
  }

  /** The hypothesis on `getOperationAmountNumber`: IN counts its value,
      OUT its negated value. */
  ghost predicate SignedByDirection(amount: Operation -> int)
  {
    forall op: Operation ::
      (op.kind == IN ==> amount(op) == op.value) && (op.kind == OUT ==> amount(op) == -op.value)
  }

  /** A history of incoming and outgoing operations with non-negative values. */
  predicate Directional(ops: seq<Operation>)
  {
    forall k :: 0 <= k < |ops| ==> (ops[k].kind == IN || ops[k].kind == OUT) && ops[k].value >= 0
  }

  /** From a non-negative total, one step keeps the total non-negative. */
  lemma FixNonNegative(op: Operation, t: int, amount: Operation -> int)
    requires SignedByDirection(amount)
    requires (op.kind == IN || op.kind == OUT) && op.value >= 0
    requires t >= 0
    ensures t + amount(Fix(op, t, amount)) >= 0
    ensures Fix(op, t, amount).kind == IN || Fix(op, t, amount).kind == OUT
  {
  }

  /** Every oldest-first prefix of the result (a suffix of the newest-first
      list) has a non-negative total, the final total included. */
  lemma {:induction false} GuardPrefixesNonNegative(ops: seq<Operation>, t: int, amount: Operation -> int)
    requires SignedByDirection(amount) && Directional(ops) && t >= 0
    ensures forall j :: 0 <= j <= |ops| ==> t + Sum(Guard(ops, t, amount).0[j..], amount) >= 0
    ensures Guard(ops, t, amount).1 >= 0
    decreases |ops|
  {
    GuardTotal(ops, t, amount);
    if ops != [] {
      var n := |ops| - 1;
      var op := Fix(ops[n], t, amount);
      FixNonNegative(ops[n], t, amount);
      var rest := Guard(ops[..n], t + amount(op), amount);
      GuardPrefixesNonNegative(ops[..n], t + amount(op), amount);
      var r := Guard(ops, t, amount).0;
      assert r == rest.0 + [op];
      forall j | 0 <= j < |ops|
        ensures t + Sum(r[j..], amount) >= 0
      {
        SuffixAppend(rest.0, op, j, amount);
      }
      assert r[|ops|..] == [];
      assert r[0..] == r;
    }
  }

  lemma SuffixAppend(rest: seq<Operation>, op: Operation, j: nat, amount: Operation -> int)
    requires j <= |rest|
    ensures Sum((rest + [op])[j..], amount) == Sum(rest[j..], amount) + amount(op)
  {
    assert (rest + [op])[j..] == rest[j..] + [op];
    SumAppend(rest[j..], op, amount);
  }

  /** A second run swaps nothing and gives the same total. */
  lemma {:induction false} GuardIdempotent(ops: seq<Operation>, t: int, amount: Operation -> int)
    requires SignedByDirection(amount) && Directional(ops) && t >= 0
    ensures Guard(Guard(ops, t, amount).0, t, amount) == Guard(ops, t, amount)
    decreases |ops|
  {
    if ops != [] {
      var n := |ops| - 1;
      var op := Fix(ops[n], t, amount);
      FixNonNegative(ops[n], t, amount);
      var rest := Guard(ops[..n], t + amount(op), amount);
      GuardIdempotent(ops[..n], t + amount(op), amount);
      GuardIdempotentStep(ops, t, amount);
    }
  }

  /** The inductive step of `GuardIdempotent`, once the oldest operation is
      known to keep the total non-negative. */
  lemma GuardIdempotentStep(ops: seq<Operation>, t: int, amount: Operation -> int)
    requires ops != []
    requires var op := Fix(ops[|ops| - 1], t, amount);
      && t + amount(op) >= 0
      && var rest := Guard(ops[..|ops| - 1], t + amount(op), amount);
         Guard(rest.0, t + amount(op), amount) == rest
    ensures Guard(Guard(ops, t, amount).0, t, amount) == Guard(ops, t, amount)
  {
    var op := Fix(ops[|ops| - 1], t, amount);
    var rest := Guard(ops[..|ops| - 1], t + amount(op), amount);
    var r := Guard(ops, t, amount).0;
    assert r == rest.0 + [op];
    assert r[|r| - 1] == op && r[..|r| - 1] == rest.0;
    assert Fix(op, t, amount) == op;
    var again := Guard(r[..|r| - 1], t + amount(Fix(r[|r| - 1], t, amount)), amount);
    assert again == rest;
    assert Guard(r, t, amount) == (again.0 + [op], again.1);
  }
}
