/** The growing chained hash tables of `lemon.c` (strings, symbols, states, configurations). */
module HashTables {

  import opened Wrappers

  // ---- Masking a hash ----

  function Pow2(k: nat): (r: nat)
    ensures r > 0
  {
    if k == 0 then 1 else 2 * Pow2(k - 1)
  }

  /** Bitwise and. */
  function And(a: nat, b: nat): nat {
    if a == 0 || b == 0 then 0 else 2 * And(a / 2, b / 2) + (a % 2) * (b % 2)
  }

  /** Masking with a power of two less one is the remainder. */
  lemma {:induction false} MaskIsRemainder(h: nat, k: nat)
    ensures And(h, Pow2(k) - 1) == h % Pow2(k)
  {
    hide And;
    if k == 0 {
      AndZero(h);
    } else {
      MaskIsRemainder(h / 2, k - 1);
      MaskDoubles(h, Pow2(k - 1), Pow2(k));
    }
  }

  lemma AndZero(a: nat)
    ensures And(a, 0) == 0
  {
  }

  lemma MaskDoubles(h: nat, p: nat, m: nat)
    requires p > 0 && m == p + p && And(h / 2, p - 1) == h / 2 % p
    ensures And(h, m - 1) == h % m
  {
    hide And;
    var half, odd, rem, b := h / 2, h % 2, h / 2 % p, p - 1;
    assert h % m == 2 * rem + odd by { DoubleRemainder(h, p, m); }
    assert And(h, 2 * b + 1) == 2 * And(half, b) + odd by { AndOdd(h, b); }
    assert 2 * b + 1 == m - 1;
  }

  lemma AndOdd(a: nat, b: nat)
    ensures And(a, 2 * b + 1) == 2 * And(a / 2, b) + a % 2
  {
    assert (2 * b + 1) / 2 == b && (2 * b + 1) % 2 == 1;
  }

  lemma DoubleRemainder(h: nat, p: nat, m: nat)
    requires p > 0 && m == p + p
    ensures h % m == 2 * (h / 2 % p) + h % 2
  {
    var q, r := h / 2 / p, h / 2 % p;
    assert h / 2 == p * q + r;
    assert m * q == p * q + p * q;
    RemainderUnique(h, m, q, 2 * r + h % 2);
  }

  lemma RemainderUnique(x: nat, m: nat, q: nat, r: nat)
    requires m > 0 && x == m * q + r && r < m
    ensures x % m == r
  {
    MulStrict(m, q, x / m);
    MulStrict(m, x / m, q);
  }

  lemma MulStrict(m: nat, a: nat, b: nat)
    ensures a >= b + 1 ==> m * a >= m * b + m
  {
    if a >= b + 1 {
      MulSum(m, b, a - b - 1);
    }
  }

  lemma MulSum(m: nat, b: nat, k: nat)
    ensures m * (b + 1 + k) == m * b + m + m * k && m * k >= 0
  {
  }

  // ---- Rows and chains ----

  /** A node: key, data, and the index of the next node with the same hash slot, or -1. */
  datatype Node<K, V> = Node(key: K, data: V, next: int)

  function Slot<K>(hash: K -> nat, bits: nat, key: K): (h: nat)
    ensures h < Pow2(bits)
  {
    MaskIsRemainder(hash(key), bits);
    And(hash(key), Pow2(bits) - 1)
  }

  /** The newest of the first `n` nodes that falls into slot `h`, or -1. */
  function Newest<K, V>(hash: K -> nat, bits: nat, tbl: seq<Node<K, V>>, n: nat, h: nat): (r: int)
    requires n <= |tbl|
    ensures -1 <= r < n
    ensures r >= 0 ==> Slot(hash, bits, tbl[r].key) == h
    ensures forall i :: r < i < n ==> Slot(hash, bits, tbl[i].key) != h
  {
    if n == 0 then -1
    else if Slot(hash, bits, tbl[n - 1].key) == h then n - 1
    else Newest(hash, bits, tbl, n - 1, h)
  }

  lemma {:induction false} NewestPrefix<K, V>(hash: K -> nat, bits: nat, tbl: seq<Node<K, V>>, more: seq<Node<K, V>>, n: nat, h: nat)
    requires n <= |tbl|
    ensures Newest(hash, bits, tbl + more, n, h) == Newest(hash, bits, tbl, n, h)
  {
    if n > 0 { NewestPrefix(hash, bits, tbl, more, n - 1, h); }
  }

  /** Chains are threaded newest first: each node links to the newest older node of its slot. */
  ghost predicate Threaded<K, V>(hash: K -> nat, bits: nat, tbl: seq<Node<K, V>>) {
    forall i :: 0 <= i < |tbl| ==> tbl[i].next == Newest(hash, bits, tbl, i, Slot(hash, bits, tbl[i].key))
  }

  ghost predicate Headed<K, V>(hash: K -> nat, bits: nat, tbl: seq<Node<K, V>>, ht: seq<int>) {
    |ht| == Pow2(bits) && forall h :: 0 <= h < |ht| ==> ht[h] == Newest(hash, bits, tbl, |tbl|, h)
  }

  ghost predicate DistinctKeys<K, V>(tbl: seq<Node<K, V>>) {
    forall i, j :: 0 <= i < j < |tbl| ==> tbl[i].key != tbl[j].key
  }

  /** Following a link of a chain passes over no node of the slot. */
  lemma ChainStep<K, V>(hash: K -> nat, bits: nat, tbl: seq<Node<K, V>>, r: nat)
    requires Threaded(hash, bits, tbl) && r < |tbl|
    ensures -1 <= tbl[r].next < r
    ensures tbl[r].next >= 0 ==> Slot(hash, bits, tbl[tbl[r].next].key) == Slot(hash, bits, tbl[r].key)
    ensures forall i :: tbl[r].next < i < r ==> Slot(hash, bits, tbl[i].key) != Slot(hash, bits, tbl[r].key)
  {
    hide Slot;
  }

  /** Prepending a node to its chain. */
  lemma Push<K, V>(hash: K -> nat, bits: nat, tbl: seq<Node<K, V>>, ht: seq<int>, key: K, data: V)
    requires Threaded(hash, bits, tbl) && Headed(hash, bits, tbl, ht)
    ensures Slot(hash, bits, key) < |ht|
    ensures var h := Slot(hash, bits, key); var tbl' := tbl + [Node(key, data, ht[h])];
      Threaded(hash, bits, tbl') && Headed(hash, bits, tbl', ht[h := |tbl|])
  {
    var h := Slot(hash, bits, key);
    var node := Node(key, data, ht[h]);
    var tbl' := tbl + [node];
    hide Newest;
    forall i | 0 <= i < |tbl'| ensures tbl'[i].next == Newest(hash, bits, tbl', i, Slot(hash, bits, tbl'[i].key)) {
      NewestPrefix(hash, bits, tbl, [node], i, Slot(hash, bits, tbl'[i].key));
    }
    forall x | 0 <= x < |ht| ensures ht[h := |tbl|][x] == Newest(hash, bits, tbl', |tbl'|, x) {
      NewestPrefix(hash, bits, tbl, [node], |tbl|, x);
      NewestLast(hash, bits, tbl', x);
    }
  }

  lemma NewestLast<K, V>(hash: K -> nat, bits: nat, tbl: seq<Node<K, V>>, h: nat)
    requires |tbl| > 0
    ensures Newest(hash, bits, tbl, |tbl|, h) ==
      if Slot(hash, bits, tbl[|tbl| - 1].key) == h then |tbl| - 1 else Newest(hash, bits, tbl, |tbl| - 1, h)
  {
  }

  /** A well-formed table. */
  ghost predicate Formed<K, V>(hash: K -> nat, bits: nat, tbl: seq<Node<K, V>>, ht: seq<int>) {
    Threaded(hash, bits, tbl) && Headed(hash, bits, tbl, ht) && DistinctKeys(tbl) && |tbl| <= Pow2(bits)
  }

  lemma FormedHead<K, V>(hash: K -> nat, bits: nat, tbl: seq<Node<K, V>>, ht: seq<int>, h: nat)
    requires Formed(hash, bits, tbl, ht) && h < Pow2(bits)
    ensures h < |ht| && -1 <= ht[h] < |tbl| && (ht[h] >= 0 ==> Slot(hash, bits, tbl[ht[h]].key) == h)
    ensures forall i :: ht[h] < i < |tbl| ==> Slot(hash, bits, tbl[i].key) != h
  {
    hide Slot, Threaded, DistinctKeys;
  }

  lemma FormedStep<K, V>(hash: K -> nat, bits: nat, tbl: seq<Node<K, V>>, ht: seq<int>, r: nat)
    requires Formed(hash, bits, tbl, ht) && r < |tbl|
    ensures -1 <= tbl[r].next < r
    ensures tbl[r].next >= 0 ==> Slot(hash, bits, tbl[tbl[r].next].key) == Slot(hash, bits, tbl[r].key)
    ensures forall i :: tbl[r].next < i < r ==> Slot(hash, bits, tbl[i].key) != Slot(hash, bits, tbl[r].key)
  {
    hide Slot, Threaded, DistinctKeys, Headed;
    ChainStep(hash, bits, tbl, r);
  }

  /** A new key is stored at the head of its chain. */
  lemma FormedPush<K, V>(hash: K -> nat, bits: nat, tbl: seq<Node<K, V>>, ht: seq<int>, key: K, data: V)
    requires Formed(hash, bits, tbl, ht) && |tbl| < Pow2(bits) && forall i :: 0 <= i < |tbl| ==> tbl[i].key != key
    ensures Slot(hash, bits, key) < |ht|
    ensures var h := Slot(hash, bits, key); Formed(hash, bits, tbl + [Node(key, data, ht[h])], ht[h := |tbl|])
  {
    hide Slot, Threaded, Headed;
    Push(hash, bits, tbl, ht, key, data);
  }

  lemma Unthreaded<K, V>(hash: K -> nat, bits: nat, ht: seq<int>)
    requires |ht| == Pow2(bits) && forall h :: 0 <= h < |ht| ==> ht[h] == -1
    ensures Formed<K, V>(hash, bits, [], ht)
  {
  }

  // ---- The finite map ----

  /** What was inserted, in order: the fields of the nodes that outlive a rehash. */
  datatype Row<K, V> = Row(key: K, data: V)

  function Rows<K, V>(tbl: seq<Node<K, V>>): (r: seq<Row<K, V>>)
    ensures |r| == |tbl|
    ensures forall i :: 0 <= i < |tbl| ==> r[i] == Row(tbl[i].key, tbl[i].data)
  {
    seq(|tbl|, i requires 0 <= i < |tbl| => Row(tbl[i].key, tbl[i].data))
  }

  /** First write wins: replaying inserts, a key that is present keeps its data. */
  function FirstWrites<K, V>(ops: seq<Row<K, V>>): map<K, V> {
    if ops == [] then map[]
    else
      var m, op := FirstWrites(ops[..|ops| - 1]), ops[|ops| - 1];
      if op.key in m then m else m[op.key := op.data]
  }

  /** Said without replaying: the data of the earliest insert under the key. */
  lemma {:induction false} FirstWritesIsFirst<K, V>(ops: seq<Row<K, V>>, key: K)
    ensures key in FirstWrites(ops) <==> exists i :: 0 <= i < |ops| && ops[i].key == key
    ensures forall i :: 0 <= i < |ops| && ops[i].key == key && (forall j :: 0 <= j < i ==> ops[j].key != key) ==>
      key in FirstWrites(ops) && FirstWrites(ops)[key] == ops[i].data
  {
    if ops != [] {
      var front := ops[..|ops| - 1];
      FirstWritesIsFirst(front, key);
      assert forall j :: 0 <= j < |front| ==> front[j] == ops[j];
      if i :| 0 <= i < |front| && front[i].key == key { assert ops[i].key == key; }
    }
  }

  /** With distinct keys nothing is shadowed: as many keys as rows. */
  lemma {:induction false} DistinctCount<K, V>(tbl: seq<Node<K, V>>)
    requires DistinctKeys(tbl)
    ensures |FirstWrites(Rows(tbl))| == |tbl|
  {
    if tbl != [] {
      var front := tbl[..|tbl| - 1];
      DistinctCount(front);
      assert Rows(tbl)[..|tbl| - 1] == Rows(front);
      FirstWritesIsFirst(Rows(front), tbl[|tbl| - 1].key);
    }
  }

  lemma FirstWritesAppend<K, V>(rows: seq<Row<K, V>>, r: Row<K, V>)
    ensures FirstWrites(rows + [r]) == if r.key in FirstWrites(rows) then FirstWrites(rows) else FirstWrites(rows)[r.key := r.data]
  {
    assert (rows + [r])[..|rows|] == rows;
  }

  /** Thread all nodes again into a table of twice the size. */
  method Rethread<K, V>(hash: K -> nat, bits: nat, olds: seq<Node<K, V>>, ghost ht: seq<int>) returns (nodes: seq<Node<K, V>>, heads: array<int>)
    requires Formed(hash, bits, olds, ht)
    ensures fresh(heads) && Formed(hash, bits + 1, nodes, heads[..]) && Rows(nodes) == Rows(olds)
  {
    var more := bits + 1;
    heads, nodes := new int[Pow2(more)](_ => -1), [];
    hide Slot, Formed, Rows;
    Unthreaded<K, V>(hash, more, heads[..]);
    ManyRows(hash, bits, olds, ht);
    RowsLength(nodes);
    RowsLength(olds);
    for i := 0 to |olds|
      invariant fresh(heads) && |nodes| == i && Formed(hash, more, nodes, heads[..])
      invariant Rows(nodes) == Rows(olds)[..i]
    {
      NotYet(hash, bits, olds, ht, nodes, i);
      FormedPush(hash, more, nodes, heads[..], olds[i].key, olds[i].data);
      var h := Slot(hash, more, olds[i].key);
      ghost var before := heads[..];
      RowsPush(nodes, olds[i].key, olds[i].data, heads[h]);
      nodes := nodes + [Node(olds[i].key, olds[i].data, heads[h])];
      heads[h] := i;
      assert heads[..] == before[h := i];
    }
  }

  lemma RowsLength<K, V>(tbl: seq<Node<K, V>>)
    ensures |Rows(tbl)| == |tbl|
  {
  }

  lemma NoRows<K, V>(tbl: seq<Node<K, V>>, ops: seq<Row<K, V>>)
    requires tbl == []
    ensures FirstWrites(Rows(tbl)) == FirstWrites(ops[..0])
  {
    assert Rows(tbl) == ops[..0] == [];
  }

  class Table<K(==), V> {
    const hash: K -> nat
    var bits: nat                     // there are 2^bits slots
    var tbl: seq<Node<K, V>>          // the filled part of the node array
    var ht: array<int>                // the head of each chain, or -1

    constructor (hash: K -> nat, bits: nat)
      ensures Valid() && fresh(ht) && Contents() == map[] && tbl == [] && this.hash == hash && this.bits == bits
    {
      this.hash, this.bits, tbl := hash, bits, [];
      ht := new int[Pow2(bits)](_ => -1);
      new;
      Unthreaded<K, V>(hash, bits, ht[..]);
    }

    ghost predicate Valid()
      reads this, ht
    {
      Formed(hash, bits, tbl, ht[..])
    }

    ghost function Contents(): map<K, V>
      reads this
    {
      FirstWrites(Rows(tbl))
    }

    /** Walk the chain of the key's slot; `r` is the node found, or -1. */
    method Walk(key: K) returns (r: int)
      requires Valid()
      ensures -1 <= r < |tbl| && (r >= 0 ==> tbl[r].key == key)
      ensures r == -1 ==> forall i :: 0 <= i < |tbl| ==> tbl[i].key != key
    {
      var h := Slot(hash, bits, key);
      hide Slot, Formed;
      FormedHead(hash, bits, tbl, ht[..], h);
      r := ht[h];
      while r >= 0 && tbl[r].key != key
        invariant -1 <= r < |tbl| && (r >= 0 ==> Slot(hash, bits, tbl[r].key) == h)
        invariant forall i :: r < i < |tbl| ==> tbl[i].key != key
        decreases r
      {
        FormedStep(hash, bits, tbl, ht[..], r);
        r := tbl[r].next;
      }
    }

    /** `Symbol_find` and its siblings: the data first stored under the key. */
    method Find(key: K) returns (r: Option<V>)
      requires Valid()
      ensures r == if key in Contents() then Some(Contents()[key]) else None
    {
      var i := Walk(key);
      FirstWritesIsFirst(Rows(tbl), key);
      if i < 0 { return None; }
      assert Rows(tbl)[i].key == key;
      return Some(tbl[i].data);
    }

    /** Twice as many slots, every node threaded again; the rows stay as they were. */
    method Grow()
      requires Valid()
      modifies this`bits, this`tbl, this`ht
      ensures Valid() && fresh(ht) && bits == old(bits) + 1 && Rows(tbl) == old(Rows(tbl)) && |tbl| < Pow2(bits)
    {
      hide Formed, Rows;
      ManyRows(hash, bits, tbl, ht[..]);
      RowsLength(tbl);
      var nodes, heads := Rethread(hash, bits, tbl, ht[..]);
      RowsLength(nodes);
      bits, tbl, ht := bits + 1, nodes, heads;
    }

    /** `Symbol_insert` and its siblings: prior data under the same key is not overwritten. */
    method Insert(key: K, data: V) returns (ok: bool)
      requires Valid()
      modifies this`bits, this`tbl, this`ht, ht
      ensures Valid() && (ht == old(ht) || fresh(ht))
      ensures ok <==> key !in old(Contents())
      ensures Contents() == if ok then old(Contents())[key := data] else old(Contents())
      ensures Rows(tbl) == if ok then old(Rows(tbl)) + [Row(key, data)] else old(Rows(tbl))
    {
      hide Formed, Rows, FirstWrites;
      var found := Walk(key);
      FirstWritesIsFirst(Rows(tbl), key);
      if found >= 0 {
        assert Rows(tbl)[found].key == key;
        return false;
      }
      if |tbl| >= Pow2(bits) { Grow(); }
      KeysOfRows(tbl, old(tbl), key);
      FirstWritesAppend(Rows(tbl), Row(key, data));
      Append(key, data);
      return true;
    }

    /** Store a new key in the first free node. */
    method Append(key: K, data: V)
      requires Valid() && |tbl| < Pow2(bits) && forall i :: 0 <= i < |tbl| ==> tbl[i].key != key
      modifies this`tbl, ht
      ensures Valid() && Rows(tbl) == old(Rows(tbl)) + [Row(key, data)]
    {
      hide Slot, Formed, Rows;
      FormedPush(hash, bits, tbl, ht[..], key, data);
      var h := Slot(hash, bits, key);
      ghost var before := ht[..];
      RowsPush(tbl, key, data, ht[h]);
      tbl := tbl + [Node(key, data, ht[h])];
      ht[h] := |tbl| - 1;
      assert ht[..] == before[h := |tbl| - 1];
    }

    /** `Symbol_count`: the number of distinct keys. */
    method Count() returns (n: nat)
      requires Valid()
      ensures n == |Contents()| == |tbl|
    {
      DistinctCount(tbl);
      n := |tbl|;
    }

    /** `Symbol_Nth`: the n-th insert that succeeded, counted from one. */
    method Nth(n: int) returns (r: Option<V>)
      requires Valid()
      ensures r == if 0 < n <= |tbl| then Some(Rows(tbl)[n - 1].data) else None
    {
      return if 0 < n <= |tbl| then Some(tbl[n - 1].data) else None;
    }

    /** Any sequence of inserts into an empty table. */
    method InsertAll(ops: seq<Row<K, V>>)
      requires Valid() && tbl == []
      modifies this, ht
      ensures Valid() && Contents() == FirstWrites(ops)
    {
      hide Formed, Rows, FirstWrites;
      NoRows(tbl, ops);
      for i := 0 to |ops|
        invariant Valid() && (ht == old(ht) || fresh(ht)) && Contents() == FirstWrites(ops[..i])
      {
        var ok := Insert(ops[i].key, ops[i].data);
        assert ops[..i + 1] == ops[..i] + [ops[i]];
        FirstWritesAppend(ops[..i], ops[i]);
      }
      assert ops[..|ops|] == ops;
    }
  }

  lemma RowsPush<K, V>(tbl: seq<Node<K, V>>, key: K, data: V, next: int)
    ensures Rows(tbl + [Node(key, data, next)]) == Rows(tbl) + [Row(key, data)]
  {
  }

  lemma ManyRows<K, V>(hash: K -> nat, bits: nat, tbl: seq<Node<K, V>>, ht: seq<int>)
    requires Formed(hash, bits, tbl, ht)
    ensures |tbl| < Pow2(bits + 1)
  {
  }

  /** The keys threaded so far do not include the next one. */
  lemma NotYet<K, V>(hash: K -> nat, bits: nat, olds: seq<Node<K, V>>, ht: seq<int>, nodes: seq<Node<K, V>>, i: nat)
    requires Formed(hash, bits, olds, ht) && i < |olds| && |nodes| == i && Rows(nodes) == Rows(olds)[..i]
    ensures forall j :: 0 <= j < |nodes| ==> nodes[j].key != olds[i].key
    ensures Rows(olds)[..i + 1] == Rows(olds)[..i] + [Row(olds[i].key, olds[i].data)]
  {
    hide Threaded, Headed;
    forall j | 0 <= j < |nodes| ensures nodes[j].key != olds[i].key { assert Rows(nodes)[j] == Rows(olds)[j]; }
  }

  lemma KeysOfRows<K, V>(a: seq<Node<K, V>>, b: seq<Node<K, V>>, key: K)
    requires Rows(a) == Rows(b) && forall i :: 0 <= i < |b| ==> b[i].key != key
    ensures forall i :: 0 <= i < |a| ==> a[i].key != key
  {
    forall i | 0 <= i < |a| ensures a[i].key != key { assert Rows(a)[i] == Rows(b)[i]; }
  }
}
