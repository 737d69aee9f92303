/**
 * SQL arithmetic over nullable numbers and the GROUP BY ... SUM(...) aggregate.
 * SUM ignores NULL inputs and is NULL when it has no non-NULL input; a product with a
 * NULL factor is NULL.
 */
module Sql {
  import opened Common

  /** The step of SUM: a NULL on either side is skipped. */
  function SumAdd(a: Option<int>, b: Option<int>): Option<int>
  {
    if a.None? then b else if b.None? then a else Some(a.value + b.value)
  }

  /** `nullable * n` in SQL. */
  function Times(a: Option<int>, n: int): Option<int>
  {
    if a.None? then None else Some(a.value * n)
  }

  /** One input row of a GROUP BY: its grouping key and the value SUM adds. */
  datatype Contribution<K> = Contribution(key: K, amount: Option<int>)

  /** One output row of a GROUP BY: the key and the SUM over the rows of that key. */
  datatype Group<K> = Group(key: K, total: Option<int>)

  /** The reference meaning of a group's total: SUM(amount) over exactly the rows whose key is k. */
  function SumWhere<K(==)>(cs: seq<Contribution<K>>, k: K): Option<int>
  {
    if cs == [] then None
    else SumAdd(SumWhere(cs[..|cs| - 1], k), if cs[|cs| - 1].key == k then cs[|cs| - 1].amount else None)
  }

  /** Some input row has key k. */
  predicate Mentions<K(==)>(cs: seq<Contribution<K>>, k: K)
  {
    cs != [] && (cs[|cs| - 1].key == k || Mentions(cs[..|cs| - 1], k))
  }

  /** Some group has key k. */
  predicate HasKey<K(==)>(gs: seq<Group<K>>, k: K)
  {
    gs != [] && (gs[0].key == k || HasKey(gs[1..], k))
  }

  /** No key is listed twice. */
  predicate DistinctKeys<K(==)>(gs: seq<Group<K>>)
  {
    gs == [] || (!HasKey(gs[1..], gs[0].key) && DistinctKeys(gs[1..]))
  }

  /** The total of the first group with key k, NULL when there is none. */
  function TotalOf<K(==)>(gs: seq<Group<K>>, k: K): Option<int>
  {
    if gs == [] then None else if gs[0].key == k then gs[0].total else TotalOf(gs[1..], k)
  }

  /** Folds one input row into the groups built so far. */
  function AddTo<K(==)>(gs: seq<Group<K>>, c: Contribution<K>): seq<Group<K>>
  {
    if gs == [] then [Group(c.key, c.amount)]
    else if gs[0].key == c.key then [Group(c.key, SumAdd(gs[0].total, c.amount))] + gs[1..]
    else [gs[0]] + AddTo(gs[1..], c)
  }

  /**
   * GROUP BY key with SUM(amount). SQL leaves the order of the groups open; this model
   * lists them in order of first appearance.
   */
  function GroupSum<K(==)>(cs: seq<Contribution<K>>): seq<Group<K>>
  {
    if cs == [] then [] else AddTo(GroupSum(cs[..|cs| - 1]), cs[|cs| - 1])
  }

  lemma {:induction false} HasKeyAt<K>(gs: seq<Group<K>>, i: nat)
    requires i < |gs|
    ensures HasKey(gs, gs[i].key)
  {
    if i > 0 {
      assert gs[1..][i - 1] == gs[i];
      HasKeyAt(gs[1..], i - 1);
    }
  }

  lemma {:induction false} MissingKeyTotal<K>(gs: seq<Group<K>>, k: K)
    requires !HasKey(gs, k)
    ensures TotalOf(gs, k) == None
  {
    if gs != [] {
      MissingKeyTotal(gs[1..], k);
    }
  }

  lemma {:induction false} TotalOfAt<K>(gs: seq<Group<K>>, i: nat)
    requires DistinctKeys(gs) && i < |gs|
    ensures TotalOf(gs, gs[i].key) == gs[i].total
  {
    if i > 0 {
      assert gs[1..][i - 1] == gs[i];
      HasKeyAt(gs[1..], i - 1);
      TotalOfAt(gs[1..], i - 1);
    }
  }

  lemma {:induction false} AddToHasKey<K>(gs: seq<Group<K>>, c: Contribution<K>, k: K)
    ensures HasKey(AddTo(gs, c), k) <==> HasKey(gs, k) || k == c.key
  {
    if gs != [] && gs[0].key != c.key {
      AddToHasKey(gs[1..], c, k);
      assert AddTo(gs, c)[1..] == AddTo(gs[1..], c);
    } else if gs != [] {
      assert AddTo(gs, c)[1..] == gs[1..];
    }
  }

  lemma {:induction false} AddToTotal<K>(gs: seq<Group<K>>, c: Contribution<K>, k: K)
    ensures TotalOf(AddTo(gs, c), k) == if k == c.key then SumAdd(TotalOf(gs, k), c.amount) else TotalOf(gs, k)
  {
    if gs != [] && gs[0].key != c.key {
      AddToTotal(gs[1..], c, k);
      assert AddTo(gs, c)[1..] == AddTo(gs[1..], c);
    } else if gs != [] {
      assert AddTo(gs, c)[1..] == gs[1..];
    }
  }

  lemma {:induction false} AddToDistinct<K>(gs: seq<Group<K>>, c: Contribution<K>)
    requires DistinctKeys(gs)
    ensures DistinctKeys(AddTo(gs, c))
  {
    if gs != [] && gs[0].key != c.key {
      AddToDistinct(gs[1..], c);
      AddToHasKey(gs[1..], c, gs[0].key);
      assert AddTo(gs, c)[1..] == AddTo(gs[1..], c);
    } else if gs != [] {
      assert AddTo(gs, c)[1..] == gs[1..];
    }
  }

  /**
   * GROUP BY ... SUM is right: no key is listed twice, a key is listed exactly when some
   * input row has it, and its total is the SUM over the input rows of that key.
   */
  lemma {:induction false} GroupSumCorrect<K>(cs: seq<Contribution<K>>, k: K)
    ensures DistinctKeys(GroupSum(cs))
    ensures HasKey(GroupSum(cs), k) <==> Mentions(cs, k)
    ensures TotalOf(GroupSum(cs), k) == SumWhere(cs, k)
  {
    if cs != [] {
      var init, last := cs[..|cs| - 1], cs[|cs| - 1];
      GroupSumCorrect(init, k);
      AddToDistinct(GroupSum(init), last);
      AddToHasKey(GroupSum(init), last, k);
      AddToTotal(GroupSum(init), last, k);
    }
  }

  /** Each listed group carries the SUM over its own key's rows, and its key occurs in the input. */
  lemma {:induction false} GroupTotalAt<K>(cs: seq<Contribution<K>>, i: nat)
    requires i < |GroupSum(cs)|
    ensures GroupSum(cs)[i].total == SumWhere(cs, GroupSum(cs)[i].key)
    ensures Mentions(cs, GroupSum(cs)[i].key)
  {
    var k := GroupSum(cs)[i].key;
    GroupSumCorrect(cs, k);
    TotalOfAt(GroupSum(cs), i);
    HasKeyAt(GroupSum(cs), i);
  }
}
