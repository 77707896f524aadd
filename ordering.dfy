/** Account ordering: parsing an order string `field|direction` into a
    comparator, sorting that keeps the very same list when nothing moves
    (flattened and nested modes), and the legacy countervalue reordering and
    id sorting. Reference identity is modelled by the `same` flag of `Out`:
    `same` means the input list or object itself is returned. */
module Ordering {
  import opened Wrappers
  import opened Types
  import opened Strings
  import opened StableSort
  import opened Sequences

  /** A result and whether it is the input reference itself. */
  datatype Out<T> = Out(value: T, same: bool)

  /** `localeCompare`, left abstract: a consistent comparison of strings. */
  ghost predicate LocaleOrder(lc: (string, string) -> int)
  {
    TotalPreorder(lc)
  }

  /** The name an entity is ordered by: its own name for an account, its
      token's name for a token account. */
  function SortName(a: AnyAccount): (name: string)
    ensures a.TopAccount? ==> name == a.account.name
    ensures a.SubAccount? ==> name == a.tokenAccount.token.name
  {
    match a
    case TopAccount(acc) => acc.name
    case SubAccount(ta) => ta.token.name
  }

  /** What `sortAccountsComparatorFromOrder` builds, with its sign. */
  datatype Comparator = ByName(ascValue: int) | ByCountervalue(ascValue: int)

  predicate ValidSign(c: Comparator)
  {
    c.ascValue == 1 || c.ascValue == -1
  }

  /** Parses `field|direction`: the first two pieces of `split("|")`. Only a
      direction of exactly "desc" is descending; only the field "name"
      compares names, every other field compares countervalues. */
  function ComparatorFromOrder(orderAccounts: string): (c: Comparator)
    ensures ValidSign(c)
  {
    var pieces := Split(orderAccounts, '|');
    var ascValue := if |pieces| >= 2 && pieces[1] == "desc" then -1 else 1;
    if pieces[0] == "name" then ByName(ascValue) else ByCountervalue(ascValue)
  }

  /** `field|direction`, possibly followed by further `|` pieces. */
  lemma ComparatorFromOrderFields(field: string, direction: string, rest: string)
    requires '|' !in field && '|' !in direction
    requires rest == [] || rest[0] == '|'
    ensures var ascValue := if direction == "desc" then -1 else 1;
      ComparatorFromOrder(field + "|" + direction + rest)
        == if field == "name" then ByName(ascValue) else ByCountervalue(ascValue)
  {
    assert field + "|" + direction + rest == field + ['|'] + direction + rest;
    SplitFirstTwo(field, direction, '|', rest);
  }

  /** Every order string holding a `|` has the shape the previous lemma
      describes, so with the next one the parse is known for every input. */
  lemma ComparatorFromOrderComplete(orderAccounts: string) returns (field: string, direction: string, rest: string)
    requires '|' in orderAccounts
    ensures orderAccounts == field + "|" + direction + rest
    ensures '|' !in field && '|' !in direction && (rest == [] || rest[0] == '|')
    ensures var ascValue := if direction == "desc" then -1 else 1;
      ComparatorFromOrder(orderAccounts) == if field == "name" then ByName(ascValue) else ByCountervalue(ascValue)
  {
    field, direction, rest := SplitShape(orderAccounts, '|');
    assert field + "|" + direction + rest == field + ['|'] + direction + rest;
    ComparatorFromOrderFields(field, direction, rest);
  }

  /** Without a `|`, the direction is missing and the order ascending. */
  lemma ComparatorFromOrderNoDirection(field: string)
    requires '|' !in field
    ensures ComparatorFromOrder(field) == if field == "name" then ByName(1) else ByCountervalue(1)
  {
    SplitWhole(field, '|');
  }

  /** `calculateCountervalue(currency, balance) || BigNumber(-1)`: a missing
      conversion stands as -1. */
  function Countervalue(convert: (AnyCurrency, int) -> Option<int>, a: AnyAccount): int
  {
    convert(a.Currency(), a.Balance()).GetOr(-1)
  }

  /** The countervalue comparison on already computed values: the signed
      difference, and on a tie the ascending name comparison. */
  function CountervalueOrder(ascValue: int, lc: (string, string) -> int,
                             cvA: int, cvB: int, nameA: string, nameB: string): int
  {
    var diff := ascValue * (cvA - cvB);
    if diff == 0 then lc(nameA, nameB) else diff
  }

  /** The comparator a `Comparator` stands for, with every countervalue
      freshly computed. */
  function CompareAccounts(c: Comparator, lc: (string, string) -> int,
                           convert: (AnyCurrency, int) -> Option<int>,
                           a: AnyAccount, b: AnyAccount): (r: int)
    ensures c.ByName? ==> r == c.ascValue * lc(SortName(a), SortName(b))
    ensures c.ByCountervalue? && Countervalue(convert, a) == Countervalue(convert, b) ==>
      r == lc(SortName(a), SortName(b))
    ensures ValidSign(c) && c.ByCountervalue? && Countervalue(convert, a) != Countervalue(convert, b) ==>
      (r < 0 <==> (c.ascValue == 1 <==> Countervalue(convert, a) < Countervalue(convert, b)))
  {
    match c
    case ByName(ascValue) => ascValue * lc(SortName(a), SortName(b))
    case ByCountervalue(ascValue) =>
      CountervalueOrder(ascValue, lc, Countervalue(convert, a), Countervalue(convert, b), SortName(a), SortName(b))
  }

  function AnyCmp(c: Comparator, lc: (string, string) -> int,
                  convert: (AnyCurrency, int) -> Option<int>): (AnyAccount, AnyAccount) -> int
  {
    (a, b) => CompareAccounts(c, lc, convert, a, b)
  }

  function TopCmp(c: Comparator, lc: (string, string) -> int,
                  convert: (AnyCurrency, int) -> Option<int>): (Account, Account) -> int
  {
    (a, b) => CompareAccounts(c, lc, convert, TopAccount(a), TopAccount(b))
  }

  function TokenCmp(c: Comparator, lc: (string, string) -> int,
                    convert: (AnyCurrency, int) -> Option<int>): (TokenAccount, TokenAccount) -> int
  {
    (a, b) => CompareAccounts(c, lc, convert, SubAccount(a), SubAccount(b))
  }

  /** Comparison by an integer key, ties broken by ascending name: the shape
      of the countervalue, price and legacy balance comparators. */
  function KeyThenName<T>(key: T -> int, name: T -> string, lc: (string, string) -> int): (T, T) -> int
  {
    (a, b) => if key(a) - key(b) == 0 then lc(name(a), name(b)) else key(a) - key(b)
  }

  lemma KeyThenNameConsistent<T(!new)>(key: T -> int, name: T -> string, lc: (string, string) -> int)
    requires LocaleOrder(lc)
    ensures TotalPreorder(KeyThenName(key, name, lc))
  {
    var cmp := KeyThenName(key, name, lc);
    forall a, b, c | cmp(a, b) <= 0 && cmp(b, c) <= 0
      ensures cmp(a, c) <= 0
    {
      if key(a) == key(b) && key(b) == key(c) {
        assert lc(name(a), name(b)) <= 0 && lc(name(b), name(c)) <= 0;
      }
    }
  }

  /** A signed name comparison is consistent. */
  lemma SignedNameConsistent<T(!new)>(ascValue: int, name: T -> string, lc: (string, string) -> int)
    requires ascValue == 1 || ascValue == -1
    requires LocaleOrder(lc)
    ensures TotalPreorder((a: T, b: T) => ascValue * lc(name(a), name(b)))
  {
    var cmp := (a: T, b: T) => ascValue * lc(name(a), name(b));
    if ascValue == -1 {
      forall a, b, c | cmp(a, b) <= 0 && cmp(b, c) <= 0
        ensures cmp(a, c) <= 0
      {
        assert lc(name(c), name(b)) <= 0 && lc(name(b), name(a)) <= 0;
        assert lc(name(c), name(a)) <= 0;
      }
    }
  }

  /** The comparators built from an order string are consistent, on
      entities, on accounts and on token accounts. */
  lemma CompareAccountsConsistent(c: Comparator, lc: (string, string) -> int,
                                  convert: (AnyCurrency, int) -> Option<int>)
    requires ValidSign(c) && LocaleOrder(lc)
    ensures TotalPreorder(AnyCmp(c, lc, convert))
    ensures TotalPreorder(TopCmp(c, lc, convert))
    ensures TotalPreorder(TokenCmp(c, lc, convert))
  {
    AnyConsistent(c, lc, convert);
    var any := AnyCmp(c, lc, convert);
    ConsistentUnder(any, (a: Account) => TopAccount(a));
    SameComparison(TopCmp(c, lc, convert), (a: Account, b: Account) => any(TopAccount(a), TopAccount(b)));
    ConsistentUnder(any, (t: TokenAccount) => SubAccount(t));
    SameComparison(TokenCmp(c, lc, convert), (a: TokenAccount, b: TokenAccount) => any(SubAccount(a), SubAccount(b)));
  }

  /** Consistency carries over to a comparator giving the same answers. */
  lemma SameComparison<T(!new)>(f: (T, T) -> int, g: (T, T) -> int)
    requires forall a, b :: f(a, b) == g(a, b)
    requires TotalPreorder(g)
    ensures TotalPreorder(f)
  {
  }

  lemma AnyConsistent(c: Comparator, lc: (string, string) -> int,
                      convert: (AnyCurrency, int) -> Option<int>)
    requires ValidSign(c) && LocaleOrder(lc)
    ensures TotalPreorder(AnyCmp(c, lc, convert))
  {
    match c
    case ByName(ascValue) =>
      SignedNameConsistent(ascValue, SortName, lc);
      SameComparison(AnyCmp(c, lc, convert), (a: AnyAccount, b: AnyAccount) => ascValue * lc(SortName(a), SortName(b)));
    case ByCountervalue(ascValue) =>
      var key := (a: AnyAccount) => ascValue * Countervalue(convert, a);
      KeyThenNameConsistent(key, SortName, lc);
      forall a, b
        ensures AnyCmp(c, lc, convert)(a, b) == KeyThenName(key, SortName, lc)(a, b)
      {
        if ascValue == 1 {
          assert key(a) == Countervalue(convert, a) && key(b) == Countervalue(convert, b);
        } else {
          assert key(a) == -Countervalue(convert, a) && key(b) == -Countervalue(convert, b);
        }
      }
      SameComparison(AnyCmp(c, lc, convert), KeyThenName(key, SortName, lc));
  }

  /** A consistent comparator stays consistent when its arguments are first
      mapped by `f`. */
  lemma ConsistentUnder<T(!new), U(!new)>(cmp: (T, T) -> int, f: U -> T)
    requires TotalPreorder(cmp)
    ensures TotalPreorder((x: U, y: U) => cmp(f(x), f(y)))
  {
    var g := (x: U, y: U) => cmp(f(x), f(y));
    forall x, y, z | g(x, y) <= 0 && g(y, z) <= 0
      ensures g(x, z) <= 0
    {
      assert cmp(f(x), f(y)) <= 0 && cmp(f(y), f(z)) <= 0;
    }
  }

  /** The name comparator compares account names, or token names for token
      accounts, times the direction sign. */
  lemma NameComparatorUsesLens(ascValue: int, lc: (string, string) -> int,
                               convert: (AnyCurrency, int) -> Option<int>,
                               a: Account, b: Account, ta: TokenAccount, tb: TokenAccount)
    ensures CompareAccounts(ByName(ascValue), lc, convert, TopAccount(a), TopAccount(b)) == ascValue * lc(a.name, b.name)
    ensures CompareAccounts(ByName(ascValue), lc, convert, SubAccount(ta), SubAccount(tb))
         == ascValue * lc(ta.token.name, tb.token.name)
    ensures CompareAccounts(ByName(ascValue), lc, convert, TopAccount(a), SubAccount(tb))
         == ascValue * lc(a.name, tb.token.name)
  {
  }

  /** A missing conversion counts as -1: with non-negative conversions, such
      an entity comes first when ascending and last when descending. */
  lemma MissingCountervalueFirstAscending(lc: (string, string) -> int,
                                          convert: (AnyCurrency, int) -> Option<int>,
                                          a: AnyAccount, b: AnyAccount)
    requires convert(a.Currency(), a.Balance()).None?
    requires convert(b.Currency(), b.Balance()).Some? && convert(b.Currency(), b.Balance()).value >= 0
    ensures CompareAccounts(ByCountervalue(1), lc, convert, a, b) < 0
    ensures CompareAccounts(ByCountervalue(-1), lc, convert, a, b) > 0
  {
  }

  /** Equal countervalues fall back to the ascending name comparison,
      whatever the direction. */
  lemma CountervalueTieByName(ascValue: int, lc: (string, string) -> int,
                              convert: (AnyCurrency, int) -> Option<int>, a: AnyAccount, b: AnyAccount)
    requires Countervalue(convert, a) == Countervalue(convert, b)
    ensures CompareAccounts(ByCountervalue(ascValue), lc, convert, a, b) == lc(SortName(a), SortName(b))
  {
  }

  /** Does a cached countervalue for `a`'s id still agree with `a`? */
  predicate Coherent(convert: (AnyCurrency, int) -> Option<int>, cache: map<string, int>, a: AnyAccount)
  {
    a.Id() in cache ==> cache[a.Id()] == Countervalue(convert, a)
  }

  /** The countervalue comparator returned for a field other than "name": a
      closure over a cache from entity id to countervalue. The cache lives as
      long as the comparator, across every sort that uses it, and a cached
      value is used even when the entity's balance has since changed.
      `calculated` records every id `convert` was invoked for. */
  class CountervalueComparator {
    const ascValue: int
    const lc: (string, string) -> int
    const convert: (AnyCurrency, int) -> Option<int>
    var cvCaches: map<string, int>
    ghost var calculated: seq<string>

    ghost predicate Valid()
      reads this
    {
      && (forall i, j :: 0 <= i < j < |calculated| ==> calculated[i] != calculated[j])
      && (forall id :: id in cvCaches <==> id in calculated)
    }

    constructor (ascValue: int, lc: (string, string) -> int, convert: (AnyCurrency, int) -> Option<int>)
      ensures Valid()
      ensures this.ascValue == ascValue && this.lc == lc && this.convert == convert
      ensures cvCaches == map[] && calculated == []
    {
      this.ascValue := ascValue;
      this.lc := lc;
      this.convert := convert;
      cvCaches := map[];
      calculated := [];
    }

    /** `lazyCalcCV`: the cached value when the id is cached, otherwise one
        call of `convert`, whose result is cached. */
    method LazyCalcCV(a: AnyAccount) returns (v: int)
      requires Valid()
      modifies this
      ensures Valid()
      ensures cvCaches == Cached(convert, old(cvCaches), a)
      ensures v == cvCaches[a.Id()]
      ensures calculated == if a.Id() in old(cvCaches) then old(calculated) else old(calculated) + [a.Id()]
    {
      if a.Id() in cvCaches {
        return cvCaches[a.Id()];
      }
      v := Countervalue(convert, a);
      cvCaches := cvCaches[a.Id() := v];
      calculated := calculated + [a.Id()];
    }

    /** One comparison: both entities looked up through the cache, then
        compared by the cached values. `convert` runs at most once per id
        over the whole life of the comparator (Valid). */
    method Compare(a: AnyAccount, b: AnyAccount) returns (r: int)
      requires Valid()
      modifies this
      ensures Valid()
      ensures cvCaches == Cached(convert, Cached(convert, old(cvCaches), a), b)
      ensures old(calculated) <= calculated && |calculated| <= |old(calculated)| + 2
      ensures r == CountervalueOrder(ascValue, lc, cvCaches[a.Id()], cvCaches[b.Id()], SortName(a), SortName(b))
    {
      ghost var before := calculated;
      var cvA := LazyCalcCV(a);
      ghost var middle := cvCaches;
      ghost var between := calculated;
      assert before <= between && |between| <= |before| + 1;
      var cvB := LazyCalcCV(b);
      assert between <= calculated && |calculated| <= |between| + 1;
      assert a.Id() in middle && cvA == cvCaches[a.Id()] && cvB == cvCaches[b.Id()];
      r := CountervalueOrder(ascValue, lc, cvA, cvB, SortName(a), SortName(b));
    }
  }

  /** The cache after looking `a` up: unchanged when its id is cached,
      otherwise extended with its freshly computed countervalue. */
  function Cached(convert: (AnyCurrency, int) -> Option<int>, cache: map<string, int>, a: AnyAccount): (r: map<string, int>)
    ensures r.Keys == cache.Keys + {a.Id()}
    ensures forall id :: id in cache ==> r[id] == cache[id]
    ensures Coherent(convert, cache, a) ==> r[a.Id()] == Countervalue(convert, a)
  {
    if a.Id() in cache then cache else cache[a.Id() := Countervalue(convert, a)]
  }

  /** While the cache agrees with both entities (and an id shared by both
      stands for one countervalue), a comparison through the cache equals
      the comparison with freshly computed countervalues. */
  lemma CachedCompareFresh(ascValue: int, lc: (string, string) -> int, convert: (AnyCurrency, int) -> Option<int>,
                           cache: map<string, int>, a: AnyAccount, b: AnyAccount)
    requires Coherent(convert, cache, a) && Coherent(convert, cache, b)
    requires a.Id() == b.Id() ==> Countervalue(convert, a) == Countervalue(convert, b)
    ensures var after := Cached(convert, Cached(convert, cache, a), b);
      CountervalueOrder(ascValue, lc, after[a.Id()], after[b.Id()], SortName(a), SortName(b))
        == CompareAccounts(ByCountervalue(ascValue), lc, convert, a, b)
  {
    var middle := Cached(convert, cache, a);
    assert Coherent(convert, middle, b);
  }

  /** Does every sorted pair stay at its own position? */
  predicate IsIdentity<T>(meta: seq<Meta<T>>)
  {
    forall i :: 0 <= i < |meta| ==> meta[i].index == i
  }

  /** The sorted positions are the identity exactly when the input is
      already in order, and then the sort gives the input back. */
  lemma IdentityIffSorted<T(!new)>(cmp: (T, T) -> int, accounts: seq<T>)
    requires TotalPreorder(cmp)
    ensures IsIdentity(SortMeta(cmp, Enumerate(accounts))) <==> Sorted(cmp, accounts)
    ensures Sorted(cmp, accounts) ==> Sort(cmp, accounts) == accounts
  {
    SortCorrect(cmp, accounts);
    SortedPairsInRange(cmp, accounts);
    var meta := SortMeta(cmp, Enumerate(accounts));
    if IsIdentity(meta) {
      assert Sort(cmp, accounts) == Items(meta);
      assert forall k :: 0 <= k < |accounts| ==> Items(meta)[k] == accounts[k];
      assert Sort(cmp, accounts) == accounts;
    }
    if Sorted(cmp, accounts) {
      SortOfSorted(cmp, accounts);
    }
  }

  /** `comparatorSortAccounts`: the stable sort by `cmp`, returning the input
      list itself exactly when the sorted positions are the identity. */
  function ComparatorSortAccounts<T(!new)>(accounts: seq<T>, cmp: (T, T) -> int): (r: Out<seq<T>>)
    requires TotalPreorder(cmp)
    ensures multiset(r.value) == multiset(accounts)
    ensures Sorted(cmp, r.value)
    ensures r.value == Sort(cmp, accounts)
    ensures r.same <==> Sorted(cmp, accounts)
    ensures r.same <==> r.value == accounts
  {
    SortCorrect(cmp, accounts);
    IdentityIffSorted(cmp, accounts);
    if IsIdentity(SortMeta(cmp, Enumerate(accounts))) then Out(accounts, true)
    else Out(Sort(cmp, accounts), false)
  }

  /** Sorting a sorted result again returns it itself. */
  lemma ComparatorSortIdempotent<T(!new)>(accounts: seq<T>, cmp: (T, T) -> int)
    requires TotalPreorder(cmp)
    ensures var once := ComparatorSortAccounts(accounts, cmp).value;
      ComparatorSortAccounts(once, cmp) == Out(once, true)
  {
  }

  /** `flattenSortAccounts`: `flattenAccounts` is outside this model and is
      a parameter. */
  function FlattenSortAccounts(accounts: seq<Account>, flattenAccounts: seq<Account> -> seq<AnyAccount>,
                               c: Comparator, lc: (string, string) -> int,
                               convert: (AnyCurrency, int) -> Option<int>): (r: Out<seq<AnyAccount>>)
    requires ValidSign(c) && LocaleOrder(lc)
    ensures multiset(r.value) == multiset(flattenAccounts(accounts))
    ensures Sorted(AnyCmp(c, lc, convert), r.value)
    ensures r.same <==> Sorted(AnyCmp(c, lc, convert), flattenAccounts(accounts))
    ensures r.value == Sort(AnyCmp(c, lc, convert), flattenAccounts(accounts))
  {
    CompareAccountsConsistent(c, lc, convert);
    ComparatorSortAccounts(flattenAccounts(accounts), AnyCmp(c, lc, convert))
  }

  /** An account with its token accounts sorted by `cmp`: the account itself
      when it has none or they are already in order, otherwise a copy that
      differs only in `tokenAccounts`. */
  function WithSortedTokenAccounts(a: Account, cmp: (TokenAccount, TokenAccount) -> int): (r: Out<Account>)
    requires TotalPreorder(cmp)
    ensures r.same <==> (a.tokenAccounts.None? || Sorted(cmp, a.tokenAccounts.value))
    ensures r.same <==> r.value == a
    ensures r.value == a.(tokenAccounts := r.value.tokenAccounts)
    ensures r.value.tokenAccounts.Some? <==> a.tokenAccounts.Some?
    ensures a.tokenAccounts.Some? ==>
      multiset(r.value.tokenAccounts.value) == multiset(a.tokenAccounts.value)
      && Sorted(cmp, r.value.tokenAccounts.value)
  {
    if a.tokenAccounts.None? then Out(a, true)
    else
      var tokenAccounts := ComparatorSortAccounts(a.tokenAccounts.value, cmp);
      if tokenAccounts.same then Out(a, true)
      else Out(a.(tokenAccounts := Some(tokenAccounts.value)), false)
  }

  /** `nestedSortAccounts`: token accounts are sorted inside each account,
      then the accounts among themselves with the same comparator, using the
      original list when no account changed. The input list itself comes back
      exactly when no account changed and the accounts were in order. */
  method NestedSortAccounts(topAccounts: seq<Account>, c: Comparator, lc: (string, string) -> int,
                            convert: (AnyCurrency, int) -> Option<int>)
    returns (r: seq<Account>, same: bool)
    requires ValidSign(c) && LocaleOrder(lc)
    ensures multiset(r) == multiset(InnerSorted(topAccounts, c, lc, convert))
    ensures Sorted(TopCmp(c, lc, convert), r)
    ensures same <==> (forall k :: 0 <= k < |topAccounts| ==> SortTokens(topAccounts[k], c, lc, convert).same)
                      && Sorted(TopCmp(c, lc, convert), topAccounts)
    ensures same ==> r == topAccounts
    ensures r == SortTop(InnerSorted(topAccounts, c, lc, convert), c, lc, convert).value
  {
    var oneAccountHaveChanged := false;
    var accounts: seq<Account> := [];
    ghost var inner := InnerSorted(topAccounts, c, lc, convert);
    for i := 0 to |topAccounts|
      invariant accounts == inner[..i]
      invariant !oneAccountHaveChanged <==>
        forall k :: 0 <= k < i ==> SortTokens(topAccounts[k], c, lc, convert).same
    {
      var sorted := SortTokens(topAccounts[i], c, lc, convert);
      if !sorted.same {
        oneAccountHaveChanged := true;
      }
      assert sorted.value == inner[i];
      TakeOneMore(inner, i);
      accounts := accounts + [sorted.value];
    }
    assert accounts == inner;
    if !oneAccountHaveChanged {
      assert accounts == topAccounts;
    }
    var input := if oneAccountHaveChanged then accounts else topAccounts;
    assert input == inner;
    var result := SortTop(input, c, lc, convert);
    r := result.value;
    same := !oneAccountHaveChanged && result.same;
  }

  /** Every account with its token accounts sorted. */
  function InnerSorted(topAccounts: seq<Account>, c: Comparator, lc: (string, string) -> int,
                       convert: (AnyCurrency, int) -> Option<int>): (accounts: seq<Account>)
    requires ValidSign(c) && LocaleOrder(lc)
    ensures |accounts| == |topAccounts|
    ensures forall k :: 0 <= k < |topAccounts| ==> accounts[k] == SortTokens(topAccounts[k], c, lc, convert).value
  {
    seq(|topAccounts|, k requires 0 <= k < |topAccounts| => SortTokens(topAccounts[k], c, lc, convert).value)
  }

  /** The accounts of `nestedSortAccounts` sorted among themselves. */
  function SortTop(accounts: seq<Account>, c: Comparator, lc: (string, string) -> int,
                   convert: (AnyCurrency, int) -> Option<int>): (r: Out<seq<Account>>)
    requires ValidSign(c) && LocaleOrder(lc)
    ensures multiset(r.value) == multiset(accounts)
    ensures Sorted(TopCmp(c, lc, convert), r.value)
    ensures r.same <==> Sorted(TopCmp(c, lc, convert), accounts)
    ensures r.same <==> r.value == accounts
    ensures r.value == Sort(TopCmp(c, lc, convert), accounts)
  {
    CompareAccountsConsistent(c, lc, convert);
    ComparatorSortAccounts(accounts, TopCmp(c, lc, convert))
  }

  /** One account of `nestedSortAccounts` with its token accounts sorted by
      the comparator for token accounts. */
  function SortTokens(a: Account, c: Comparator, lc: (string, string) -> int,
                      convert: (AnyCurrency, int) -> Option<int>): (r: Out<Account>)
    requires ValidSign(c) && LocaleOrder(lc)
    ensures r.same <==> r.value == a
  {
    CompareAccountsConsistent(c, lc, convert);
    WithSortedTokenAccounts(a, TokenCmp(c, lc, convert))
  }

  // ---- legacy ----

  /** `rates[ticker] || 0`, times the balance. */
  function Price(rates: map<string, int>, ta: TokenAccount): int
  {
    ta.balance * (if ta.token.ticker in rates then rates[ta.token.ticker] else 0)
  }

  /** Descending price, ties by ascending ticker. */
  function PriceCmp(rates: map<string, int>, lc: (string, string) -> int): (TokenAccount, TokenAccount) -> int
  {
    KeyThenName((ta: TokenAccount) => -Price(rates, ta), (ta: TokenAccount) => ta.token.ticker, lc)
  }

  /** `reorderTokenAccountsByCountervalues(rates)(tokenAccounts)`: by
      descending price, ties by ascending ticker; the same list when nothing
      moved. */
  function ReorderTokenAccountsByCountervalues(rates: map<string, int>, lc: (string, string) -> int,
                                               tokenAccounts: seq<TokenAccount>): (r: Out<seq<TokenAccount>>)
    requires LocaleOrder(lc)
    ensures multiset(r.value) == multiset(tokenAccounts)
    ensures forall i, j :: 0 <= i < j < |r.value| ==> Price(rates, r.value[i]) >= Price(rates, r.value[j])
    ensures forall i, j :: 0 <= i < j < |r.value| && Price(rates, r.value[i]) == Price(rates, r.value[j]) ==>
              lc(r.value[i].token.ticker, r.value[j].token.ticker) <= 0
    ensures r.same <==> r.value == tokenAccounts
    ensures r.value == Sort(PriceCmp(rates, lc), tokenAccounts)
  {
    var cmp := PriceCmp(rates, lc);
    KeyThenNameConsistent((ta: TokenAccount) => -Price(rates, ta), (ta: TokenAccount) => ta.token.ticker, lc);
    var r := ComparatorSortAccounts(tokenAccounts, cmp);
    assert forall i, j :: 0 <= i < j < |r.value| ==> cmp(r.value[i], r.value[j]) <= 0;
    r
  }

  /** `reorderAccountByCountervalues(rates)(account)`: the account itself
      unless its token accounts moved. */
  function ReorderAccountByCountervalues(rates: map<string, int>, lc: (string, string) -> int,
                                         account: Account): (r: Out<Account>)
    requires LocaleOrder(lc)
    ensures r.same <==> r.value == account
    ensures r.value == account.(tokenAccounts := r.value.tokenAccounts)
    ensures account.tokenAccounts.Some? ==>
              r.value.tokenAccounts == Some(ReorderTokenAccountsByCountervalues(rates, lc, account.tokenAccounts.value).value)
    ensures account.tokenAccounts.None? ==> r == Out(account, true)
  {
    KeyThenNameConsistent((ta: TokenAccount) => -Price(rates, ta), (ta: TokenAccount) => ta.token.ticker, lc);
    WithSortedTokenAccounts(account, PriceCmp(rates, lc))
  }

  datatype SortAccountsParam = SortAccountsParam(
    accounts: seq<Account>,
    accountsBtcBalance: seq<Option<int>>,
    orderAccounts: string)

  /** `[a.id, accountsBtcBalance[i] || BigNumber(-1), a.name]`. */
  datatype BalanceRow = BalanceRow(id: string, balance: int, name: string)

  function BalanceRows(param: SortAccountsParam): (rows: seq<BalanceRow>)
    ensures |rows| == |param.accounts|
    ensures forall i :: 0 <= i < |rows| ==> rows[i].id == param.accounts[i].id && rows[i].name == param.accounts[i].name
    ensures forall i :: 0 <= i < |rows| ==>
      rows[i].balance == if i < |param.accountsBtcBalance| then param.accountsBtcBalance[i].GetOr(-1) else -1
  {
    seq(|param.accounts|, i requires 0 <= i < |param.accounts| =>
      BalanceRow(param.accounts[i].id,
                 if i < |param.accountsBtcBalance| then param.accountsBtcBalance[i].GetOr(-1) else -1,
                 param.accounts[i].name))
  }

  function BalanceRowCmp(lc: (string, string) -> int): (BalanceRow, BalanceRow) -> int
  {
    KeyThenName((row: BalanceRow) => row.balance, (row: BalanceRow) => row.name, lc)
  }

  function AccountNameCmp(lc: (string, string) -> int): (Account, Account) -> int
  {
    (a: Account, b: Account) => lc(a.name, b.name)
  }

  /** The ids of a stable sort by `cmp`: the ids of a sorted permutation. */
  function SortedIds<T(!new)>(cmp: (T, T) -> int, xs: seq<T>, id: T -> string): (ids: seq<string>)
    requires TotalPreorder(cmp)
    ensures |ids| == |xs|
    ensures exists sorted: seq<T> ::
      && multiset(sorted) == multiset(xs)
      && Sorted(cmp, sorted)
      && |sorted| == |ids| && (forall i :: 0 <= i < |ids| ==> ids[i] == id(sorted[i]))
    ensures |Sort(cmp, xs)| == |ids| && forall i :: 0 <= i < |ids| ==> ids[i] == id(Sort(cmp, xs)[i])
  {
    var sorted := Sort(cmp, xs);
    SortCorrect(cmp, xs);
    assert |sorted| == |multiset(sorted)| == |xs|;
    seq(|sorted|, i requires 0 <= i < |sorted| => id(sorted[i]))
  }

  /** `sortMethod.balance`: rows by ascending balance (missing ones as -1),
      ties by name; the ids of the sorted rows. */
  function SortByBalance(param: SortAccountsParam, lc: (string, string) -> int): (ids: seq<string>)
    requires LocaleOrder(lc)
    ensures |ids| == |param.accounts|
    ensures exists rows: seq<BalanceRow> ::
      && multiset(rows) == multiset(BalanceRows(param))
      && Sorted(BalanceRowCmp(lc), rows)
      && |rows| == |ids| && (forall i :: 0 <= i < |ids| ==> ids[i] == rows[i].id)
    ensures var sorted := Sort(BalanceRowCmp(lc), BalanceRows(param));
      |sorted| == |ids| && forall i :: 0 <= i < |ids| ==> ids[i] == sorted[i].id
  {
    KeyThenNameConsistent((row: BalanceRow) => row.balance, (row: BalanceRow) => row.name, lc);
    SortedIds(BalanceRowCmp(lc), BalanceRows(param), (row: BalanceRow) => row.id)
  }

  /** `sortMethod.name`: the ids of the accounts sorted by name. */
  function SortByName(param: SortAccountsParam, lc: (string, string) -> int): (ids: seq<string>)
    requires LocaleOrder(lc)
    ensures |ids| == |param.accounts|
    ensures exists sorted: seq<Account> ::
      && multiset(sorted) == multiset(param.accounts)
      && Sorted(AccountNameCmp(lc), sorted)
      && |sorted| == |ids| && (forall i :: 0 <= i < |ids| ==> ids[i] == sorted[i].id)
    ensures var sorted := Sort(AccountNameCmp(lc), param.accounts);
      |sorted| == |ids| && forall i :: 0 <= i < |ids| ==> ids[i] == sorted[i].id
  {
    SignedNameConsistent(1, (a: Account) => a.name, lc);
    SameComparison(AccountNameCmp(lc), (a: Account, b: Account) => 1 * lc(a.name, b.name));
    SortedIds(AccountNameCmp(lc), param.accounts, (a: Account) => a.id)
  }

  /** `ids.reverse()`: reverses the array in place. */
  method ReverseInPlace(ids: array<string>)
    modifies ids
    ensures ids[..] == Reverse(old(ids[..]))
  {
    var lo, hi := 0, ids.Length - 1;
    while lo < hi
      invariant 0 <= lo <= ids.Length && hi == ids.Length - 1 - lo
      invariant forall k :: 0 <= k < lo ==> ids[k] == old(ids[ids.Length - 1 - k]) && ids[ids.Length - 1 - k] == old(ids[k])
      invariant forall k :: lo <= k <= hi ==> ids[k] == old(ids[k])
    {
      ids[lo], ids[hi] := ids[hi], ids[lo];
      lo, hi := lo + 1, hi - 1;
    }
  }

  /** `sortMethod[field]`: the ascending ids, `None` for a field without a
      sort method. */
  function SortMethod(field: string, param: SortAccountsParam, lc: (string, string) -> int): (r: Option<seq<string>>)
    requires LocaleOrder(lc)
    ensures r.Some? <==> field == "name" || field == "balance"
    ensures r.Some? ==> |r.value| == |param.accounts|
    ensures field == "name" ==> var sorted := Sort(AccountNameCmp(lc), param.accounts);
      |r.value| == |sorted| && forall i :: 0 <= i < |r.value| ==> r.value[i] == sorted[i].id
    ensures field == "balance" ==> var sorted := Sort(BalanceRowCmp(lc), BalanceRows(param));
      |r.value| == |sorted| && forall i :: 0 <= i < |r.value| ==> r.value[i] == sorted[i].id
  {
    if field == "name" then Some(SortByName(param, lc))
    else if field == "balance" then Some(SortByBalance(param, lc))
    else None
  }

  /** `sortAccounts`: `None` (null) unless the field has a sort method; a
      direction of "desc" gives the exact reverse of the ascending ids. */
  method SortAccounts(param: SortAccountsParam, lc: (string, string) -> int) returns (r: Option<seq<string>>)
    requires LocaleOrder(lc)
    ensures var pieces := Split(param.orderAccounts, '|');
      var ascending := SortMethod(pieces[0], param, lc);
      && (r.None? <==> ascending.None?)
      && (r.Some? ==> r.value == if |pieces| >= 2 && pieces[1] == "desc" then Reverse(ascending.value) else ascending.value)
  {
    var pieces := Split(param.orderAccounts, '|');
    var ascending := SortMethod(pieces[0], param, lc);
    if ascending.None? {
      return None;
    }
    var sorted := ascending.value;
    var ids := new string[|sorted|](i requires 0 <= i < |sorted| => sorted[i]);
    assert ids[..] == sorted;
    if |pieces| >= 2 && pieces[1] == "desc" {
      ReverseInPlace(ids);
    }
    return Some(ids[..]);
  }
}
