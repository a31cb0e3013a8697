/** The free-async rules: a chained hash table of 64 buckets and an atomic count, proved to be
    a map from (name, code) to strategy. */
module RuleTable {
  import opened Base

  const BUCKETS := 64
  const ANY_CODE := -1

  datatype Key = Key(name: string, code: int)
  datatype Entry = Entry(key: Key, strategy: int)
  datatype Error = Ok | Einval | Enomem

  type Chain = seq<Entry>
  type Rules = map<Key, int>

  predicate StrategyValid(strategy: int) {
    strategy == SKIP || strategy == BY_CODE || strategy == BY_DATA
  }

  /** What a lookup means: the exact rule, else the rule for any code of that name. */
  function Select(rules: Rules, name: string, code: int): Option<int> {
    if Key(name, code) in rules then Some(rules[Key(name, code)])
    else if Key(name, ANY_CODE) in rules then Some(rules[Key(name, ANY_CODE)])
    else None
  }

  // ----- Chains and tables as values.

  function ChainRules(chain: Chain): Rules {
    if chain == [] then map[] else ChainRules(chain[1..])[chain[0].key := chain[0].strategy]
  }

  function TableRules(chains: seq<Chain>): Rules {
    if chains == [] then map[] else ChainRules(chains[0]) + TableRules(chains[1..])
  }

  function Total(chains: seq<Chain>): nat {
    if chains == [] then 0 else |chains[0]| + Total(chains[1..])
  }

  predicate UniqueKeys(chain: Chain) {
    forall i, j :: 0 <= i < j < |chain| ==> chain[i].key != chain[j].key
  }

  predicate EntryOk(e: Entry) {
    0 < |e.key.name| < NAME_BUF && e.key.code >= ANY_CODE && StrategyValid(e.strategy)
  }

  /** Chain b holds well-formed entries whose names hash to b. */
  predicate ChainOk(hash: string -> nat, chain: Chain, b: nat) {
    && UniqueKeys(chain)
    && forall i :: 0 <= i < |chain| ==> EntryOk(chain[i]) && hash(chain[i].key.name) % BUCKETS == b
  }

  predicate TableOk(hash: string -> nat, chains: seq<Chain>, first: nat) {
    forall b :: 0 <= b < |chains| ==> ChainOk(hash, chains[b], first + b)
  }

  /** In a chain without duplicates the rules are exactly its entries, wherever they stand. */
  lemma {:induction false} ChainRulesAre(chain: Chain, k: Key)
    requires UniqueKeys(chain)
    ensures k in ChainRules(chain) <==> exists i :: 0 <= i < |chain| && chain[i].key == k
    ensures forall i :: 0 <= i < |chain| && chain[i].key == k ==>
              k in ChainRules(chain) && ChainRules(chain)[k] == chain[i].strategy
    ensures |ChainRules(chain)| == |chain|
  {
    if chain != [] {
      ChainRulesAre(chain[1..], k);
      ChainRulesAre(chain[1..], chain[0].key);
      assert chain[0].key !in ChainRules(chain[1..]);
      assert forall i :: 1 <= i < |chain| ==> chain[i] == chain[1..][i - 1];
    }
  }

  /** The rules of a table are the rules of the name's own bucket, and none is counted twice. */
  lemma {:induction false} TableRulesAre(hash: string -> nat, chains: seq<Chain>, first: nat, k: Key)
    requires TableOk(hash, chains, first)
    ensures var b := hash(k.name) % BUCKETS;
            if first <= b < first + |chains|
            then (k in TableRules(chains) <==> k in ChainRules(chains[b - first]))
                 && (k in TableRules(chains) ==> TableRules(chains)[k] == ChainRules(chains[b - first])[k])
            else k !in TableRules(chains)
  {
    if chains != [] {
      ChainRulesAre(chains[0], k);
      assert ChainOk(hash, chains[0], first);
      TableRulesAre(hash, chains[1..], first + 1, k);
    }
  }

  lemma {:induction false} TableSize(hash: string -> nat, chains: seq<Chain>, first: nat)
    requires TableOk(hash, chains, first)
    ensures |TableRules(chains)| == Total(chains)
  {
    if chains != [] {
      var rest := chains[1..];
      TableSize(hash, rest, first + 1);
      assert ChainOk(hash, chains[0], first);
      forall k | k in ChainRules(chains[0]) ensures k !in TableRules(rest) {
        ChainRulesAre(chains[0], k);
        TableRulesAre(hash, rest, first + 1, k);
      }
      ChainRulesAre(chains[0], Key("", 0));
      assert TableRules(chains).Keys == ChainRules(chains[0]).Keys + TableRules(rest).Keys;
      assert |TableRules(chains).Keys| == |ChainRules(chains[0]).Keys| + |TableRules(rest).Keys|;
    }
  }

  lemma MergePut<K, V>(a: map<K, V>, b: map<K, V>, k: K, v: V)
    ensures k !in b ==> a[k := v] + b == (a + b)[k := v]
    ensures a + b[k := v] == (a + b)[k := v]
  {
  }

  lemma MergeDrop<K, V>(a: map<K, V>, b: map<K, V>, k: K)
    ensures k !in b ==> (a - {k}) + b == (a + b) - {k}
    ensures k !in a ==> a + (b - {k}) == (a + b) - {k}
  {
  }

  /** Adding or changing a rule in its own bucket's chain does so in the table. */
  lemma {:induction false} TablePut(hash: string -> nat, chains: seq<Chain>, first: nat, chain: Chain, k: Key, v: int)
    requires TableOk(hash, chains, first) && first <= hash(k.name) % BUCKETS < first + |chains|
    requires ChainRules(chain) == ChainRules(chains[hash(k.name) % BUCKETS - first])[k := v]
    ensures TableRules(chains[hash(k.name) % BUCKETS - first := chain]) == TableRules(chains)[k := v]
  {
    var i, rest := hash(k.name) % BUCKETS - first, chains[1..];
    if i == 0 {
      TableRulesAre(hash, rest, first + 1, k);
      assert chains[0 := chain][1..] == rest;
      MergePut(ChainRules(chains[0]), TableRules(rest), k, v);
    } else {
      MergePut(ChainRules(chains[0]), TableRules(rest), k, v);
      TablePut(hash, rest, first + 1, chain, k, v);
      assert chains[i := chain][1..] == rest[i - 1 := chain];
    }
  }

  lemma {:induction false} TableDrop(hash: string -> nat, chains: seq<Chain>, first: nat, chain: Chain, k: Key)
    requires TableOk(hash, chains, first) && first <= hash(k.name) % BUCKETS < first + |chains|
    requires ChainRules(chain) == ChainRules(chains[hash(k.name) % BUCKETS - first]) - {k}
    ensures TableRules(chains[hash(k.name) % BUCKETS - first := chain]) == TableRules(chains) - {k}
  {
    var i, rest := hash(k.name) % BUCKETS - first, chains[1..];
    if i == 0 {
      TableRulesAre(hash, rest, first + 1, k);
      assert chains[0 := chain][1..] == rest;
      MergeDrop(ChainRules(chains[0]), TableRules(rest), k);
    } else {
      TableDrop(hash, rest, first + 1, chain, k);
      assert chains[i := chain][1..] == rest[i - 1 := chain];
      assert ChainOk(hash, chains[0], first);
      ChainRulesAre(chains[0], k);
      MergeDrop(ChainRules(chains[0]), TableRules(rest), k);
    }
  }

  lemma ChainSet(chain: Chain, i: nat, v: int)
    requires UniqueKeys(chain) && i < |chain|
    ensures UniqueKeys(chain[i := chain[i].(strategy := v)])
    ensures ChainRules(chain[i := chain[i].(strategy := v)]) == ChainRules(chain)[chain[i].key := v]
  {
    var chain', k := chain[i := chain[i].(strategy := v)], chain[i].key;
    forall x: Key ensures x in ChainRules(chain') <==> x in ChainRules(chain)[k := v]
                  ensures x in ChainRules(chain') ==> ChainRules(chain')[x] == ChainRules(chain)[k := v][x]
    {
      ChainRulesAre(chain, x);
      ChainRulesAre(chain', x);
      if j :| 0 <= j < |chain| && chain[j].key == x { assert chain'[j].key == x; }
      if j :| 0 <= j < |chain| && chain'[j].key == x { assert chain[j].key == x; }
    }
  }

  lemma ChainPush(chain: Chain, e: Entry)
    requires UniqueKeys(chain) && forall i :: 0 <= i < |chain| ==> chain[i].key != e.key
    ensures UniqueKeys([e] + chain) && ChainRules([e] + chain) == ChainRules(chain)[e.key := e.strategy]
  {
    assert ([e] + chain)[1..] == chain;
  }

  lemma CutUnique(chain: Chain, i: nat)
    requires UniqueKeys(chain) && i < |chain|
    ensures UniqueKeys(Without(chain, i))
  {
    var cut := Without(chain, i);
    forall x, y | 0 <= x < y < |cut| ensures cut[x].key != cut[y].key {
      assert cut[x] == chain[if x < i then x else x + 1] && cut[y] == chain[if y < i then y else y + 1];
    }
  }

  lemma {:induction false} ChainCut(chain: Chain, i: nat)
    requires UniqueKeys(chain) && i < |chain|
    ensures UniqueKeys(Without(chain, i)) && ChainRules(Without(chain, i)) == ChainRules(chain) - {chain[i].key}
  {
    var k, cut := chain[i].key, Without(chain, i);
    if i == 0 {
      assert cut == chain[1..];
      NoKey(chain[1..], k);
    } else {
      assert chain[1..][i - 1] == chain[i] && cut[0] == chain[0] && chain[0].key != k;
      ChainCut(chain[1..], i - 1);
      assert cut[1..] == Without(chain[1..], i - 1);
      CutUnique(chain, i);
    }
  }

  lemma {:induction false} EmptyTable(chains: seq<Chain>)
    requires forall b :: 0 <= b < |chains| ==> chains[b] == []
    ensures TableRules(chains) == map[]
  {
    if chains != [] { EmptyTable(chains[1..]); }
  }

  lemma NoKey(chain: Chain, k: Key)
    requires UniqueKeys(chain) && forall i :: 0 <= i < |chain| ==> chain[i].key != k
    ensures k !in ChainRules(chain)
  {
    ChainRulesAre(chain, k);
  }

  /** rkx_free_async_map with its count. The hash of a name can be any function of it. */
  class FreeAsyncTable {
    const hash: string -> nat
    const buckets: array<Chain>
    var count: int

    ghost predicate Valid()
      reads this, buckets
    {
      && buckets.Length == BUCKETS
      && TableOk(hash, buckets[..], 0)
      && count == Total(buckets[..])
    }

    ghost function Contents(): Rules
      reads this, buckets
    {
      TableRules(buckets[..])
    }

    /** rkx_init_free_async. */
    constructor (hash: string -> nat)
      ensures Valid() && Contents() == map[] && fresh(buckets) && this.hash == hash
    {
      this.hash := hash;
      buckets := new Chain[BUCKETS](_ => []);
      count := 0;
      new;
      EmptyTable(buckets[..]);
      TableSize(hash, buckets[..], 0);
    }

    /** rkx_free_async_has_entries: the fast path says no exactly when there are no rules. */
    method HasEntries() returns (r: bool)
      requires Valid()
      ensures r <==> Contents() != map[]
    {
      TableSize(hash, buckets[..], 0);
      r := count > 0;
    }

    function Bucket(name: string): (b: nat)
      ensures b < BUCKETS
    {
      hash(name) % BUCKETS
    }

    /** rkx_free_async_lookup_rcu without concurrent writers. A null name finds nothing, and
        neither the count test nor the order of the chain shows in the result. */
    method Lookup(name: Option<string>, code: int) returns (r: Option<int>)
      requires Valid()
      ensures r == if name.None? then None else Select(Contents(), name.value, code)
    {
      var any := HasEntries();
      if name.None? || !any {
        return None;
      }
      var b := Bucket(name.value);
      assert ChainOk(hash, buckets[..][b], 0 + b);
      TableRulesAre(hash, buckets[..], 0, Key(name.value, code));
      TableRulesAre(hash, buckets[..], 0, Key(name.value, ANY_CODE));
      r := LookupIn(buckets[b], name.value, code);
    }

    /** The walk along a bucket: it stops at the exact rule and remembers the any-code rule. */
    method LookupIn(chain: Chain, name: string, code: int) returns (r: Option<int>)
      requires UniqueKeys(chain) && forall i :: 0 <= i < |chain| ==> StrategyValid(chain[i].strategy)
      ensures r == Select(ChainRules(chain), name, code)
    {
      var exact, wild, i := 0, 0, 0;
      ghost var k, w, at := Key(name, code), Key(name, ANY_CODE), 0;
      while i < |chain|
        invariant 0 <= i <= |chain| && exact == 0
        invariant forall j :: 0 <= j < i ==> chain[j].key != k
        invariant wild == 0 ==> forall j :: 0 <= j < i ==> chain[j].key != w
        invariant wild != 0 ==> 0 <= at < i && chain[at].key == w && chain[at].strategy == wild
      {
        if chain[i].key.name == name {
          if chain[i].key.code == code {
            exact := chain[i].strategy;
            break;
          }
          if chain[i].key.code == ANY_CODE {
            wild, at := chain[i].strategy, i;
          }
        }
        i := i + 1;
      }
      ChainRulesAre(chain, k);
      ChainRulesAre(chain, w);
      if exact != 0 {
        return Some(exact);
      }
      if wild != 0 {
        return Some(wild);
      }
      return None;
    }

    /** The walk along a bucket under the mutex, looking for one key. */
    method Find(chain: Chain, k: Key) returns (i: nat)
      ensures i <= |chain| && forall j :: 0 <= j < i ==> chain[j].key != k
      ensures i < |chain| ==> chain[i].key == k
    {
      i := 0;
      while i < |chain| && chain[i].key != k
        invariant i <= |chain| && forall j :: 0 <= j < i ==> chain[j].key != k
      {
        i := i + 1;
      }
    }

    /** rkx_add_free_async; `allocOk` is the outcome of kmalloc. */
    method Add(name: Option<string>, code: int, strategy: int, allocOk: bool) returns (err: Error)
      requires Valid()
      modifies this, buckets
      ensures Valid()
      ensures err == Einval <==>
                || name.None? || name.value == "" || |name.value| >= NAME_BUF || code < -1
                || strategy !in {SKIP, BY_CODE, BY_DATA}
      ensures err == Enomem <==> err != Einval && Key(name.value, code) !in old(Contents()) && !allocOk
      ensures Contents() == if err == Ok then old(Contents())[Key(name.value, code) := strategy] else old(Contents())
    {
      if name.None? || name.value == "" || code < -1 || !StrategyValid(strategy) {
        return Einval;
      }
      var len := Min(|name.value|, NAME_BUF);
      if len == 0 || len >= NAME_BUF {
        return Einval;
      }
      err := AddEntry(Entry(Key(name.value, code), strategy), allocOk);
    }

    /** The part of it under the mutex. */
    method AddEntry(e: Entry, allocOk: bool) returns (err: Error)
      requires Valid() && EntryOk(e)
      modifies this, buckets
      ensures Valid() && err != Einval && (err == Enomem <==> e.key !in old(Contents()) && !allocOk)
      ensures Contents() == if err == Ok then old(Contents())[e.key := e.strategy] else old(Contents())
    {
      var b := Bucket(e.key.name);
      assert ChainOk(hash, buckets[..][b], 0 + b);
      TableRulesAre(hash, buckets[..], 0, e.key);
      var chain, found := With(buckets[b], e, b);
      if !found && !allocOk {
        return Enomem;
      }
      Replace(b, chain, e.key, Some(e.strategy), if found then 0 else 1);
      return Ok;
    }

    /** A bucket with the entry stored or put in front. */
    method With(chain: Chain, e: Entry, b: nat) returns (chain': Chain, found: bool)
      requires ChainOk(hash, chain, b) && EntryOk(e) && b == Bucket(e.key.name)
      ensures found <==> e.key in ChainRules(chain)
      ensures ChainOk(hash, chain', b) && |chain'| == |chain| + (if found then 0 else 1)
      ensures ChainRules(chain') == ChainRules(chain)[e.key := e.strategy]
    {
      ChainRulesAre(chain, e.key);
      var i := Find(chain, e.key);
      found := i < |chain|;
      if found {
        ChainSet(chain, i, e.strategy);
        chain' := chain[i := chain[i].(strategy := e.strategy)];
      } else {
        ChainPush(chain, e);
        chain' := [e] + chain;
      }
    }

    /** rkx_del_free_async: deleting an absent rule succeeds and changes nothing. */
    method Del(name: Option<string>, code: int) returns (err: Error)
      requires Valid()
      modifies this, buckets
      ensures Valid()
      ensures err == if name.None? || name.value == "" || code < -1 then Einval else Ok
      ensures Contents() == if err == Ok then old(Contents()) - {Key(name.value, code)} else old(Contents())
    {
      if name.None? || name.value == "" || code < -1 {
        return Einval;
      }
      var k, b := Key(name.value, code), Bucket(name.value);
      var chain := buckets[b];
      assert ChainOk(hash, buckets[..][b], 0 + b);
      ChainRulesAre(chain, k);
      TableRulesAre(hash, buckets[..], 0, k);
      var i := Find(chain, k);
      if i < |chain| {
        ChainCut(chain, i);
        Replace(b, Without(chain, i), k, None, -1);
      }
      return Ok;
    }

    /** Stores a bucket's new chain and moves the count with it. */
    method Replace(b: nat, chain: Chain, k: Key, v: Option<int>, delta: int)
      requires Valid() && b == Bucket(k.name) && ChainOk(hash, chain, b) && |chain| == |buckets[b]| + delta
      requires ChainRules(chain) ==
               if v.Some? then ChainRules(buckets[b])[k := v.value] else ChainRules(buckets[b]) - {k}
      modifies this, buckets
      ensures Valid()
      ensures Contents() == if v.Some? then old(Contents())[k := v.value] else old(Contents()) - {k}
    {
      ghost var was := buckets[..];
      if v.Some? { TablePut(hash, was, 0, chain, k, v.value); } else { TableDrop(hash, was, 0, chain, k); }
      TotalUpdate(was, b, chain);
      buckets[b] := chain;
      count := count + delta;
      assert buckets[..] == was[b := chain];
    }

    /** rkx_destroy_free_async. */
    method Destroy()
      requires Valid()
      modifies this, buckets
      ensures Valid() && Contents() == map[]
    {
      var b := 0;
      while b < BUCKETS
        invariant 0 <= b <= BUCKETS
        invariant forall j :: 0 <= j < b ==> buckets[j] == []
      {
        while buckets[b] != []
          invariant forall j :: 0 <= j < b ==> buckets[j] == []
          decreases |buckets[b]|
        {
          buckets[b] := buckets[b][1..];
        }
        b := b + 1;
      }
      count := 0;
      EmptyTable(buckets[..]);
      TableSize(hash, buckets[..], 0);
    }
  }

  lemma {:induction false} TotalUpdate(chains: seq<Chain>, b: nat, chain: Chain)
    requires b < |chains|
    ensures Total(chains[b := chain]) == Total(chains) - |chains[b]| + |chain|
  {
    if b == 0 {
      assert chains[0 := chain][1..] == chains[1..];
    } else {
      TotalUpdate(chains[1..], b - 1, chain);
      assert chains[b := chain][1..] == chains[1..][b - 1 := chain];
    }
  }
}
