/** The document collections that the migration writes to, and the batched
    write helper of the migrate-data cloud function. A collection keeps the
    documents written under an explicit id (`doc(id).set`) in a map and the
    documents inserted with a generated id (`add`) in a multiset: writes of
    one batch run concurrently, so nothing orders the inserted documents. */
module DocStore {
  import opened Common

  /** The body of a stored document (the item without its `_id`). */
  datatype Doc =
    | FundDoc(code: string, name: string, fundType: string)
    | PortfolioDoc(fundCode: string, totalShares: real, avgCost: real, totalCost: real)
    | TransactionDoc(fundCode: string, kind: TxKind, date: Option<string>, shares: real,
                     price: real, amount: real, note: Option<string>)

  datatype TxKind = Buy | Sell

  /** An item handed to the batched write: an optional `_id` and the rest. */
  datatype Item = Item(id: Option<string>, body: Doc)

  /** The contents of one collection. */
  datatype Store = Store(keyed: map<string, Doc>, inserted: multiset<Doc>)

  const BatchSize := 50

  /** `if (id)`: only a present, non-empty `_id` is truthy. */
  predicate Keyed(item: Item)
  {
    item.id.Some? && item.id.value != ""
  }

  /** One write: `set` under the id for a keyed item (create or replace),
      otherwise `add` as a new document. */
  function WriteItem(s: Store, item: Item): Store
  {
    if Keyed(item) then Store(s.keyed[item.id.value := item.body], s.inserted)
    else Store(s.keyed, s.inserted + multiset{item.body})
  }

  /** A keyed write replaces the document under its id and touches nothing
      else; the stored document is the item without its `_id`. An unkeyed
      write adds one document and leaves the keyed ones alone. */
  lemma WriteItemEffect(s: Store, item: Item)
    ensures Keyed(item) ==>
              && WriteItem(s, item).keyed.Keys == s.keyed.Keys + {item.id.value}
              && WriteItem(s, item).keyed[item.id.value] == item.body
              && WriteItem(s, item).inserted == s.inserted
              && (forall k :: k in s.keyed && k != item.id.value ==> WriteItem(s, item).keyed[k] == s.keyed[k])
    ensures !Keyed(item) ==>
              && WriteItem(s, item).keyed == s.keyed
              && WriteItem(s, item).inserted == s.inserted + multiset{item.body}
              && |WriteItem(s, item).inserted| == |s.inserted| + 1
  {
  }

  /** Writing the same item twice in a row: a keyed write the second time
      changes nothing, an unkeyed one adds a second copy. */
  lemma WriteItemTwice(s: Store, item: Item)
    ensures Keyed(item) ==> WriteItem(WriteItem(s, item), item) == WriteItem(s, item)
    ensures !Keyed(item) ==> WriteItem(WriteItem(s, item), item).inserted[item.body] == s.inserted[item.body] + 2
  {
    if Keyed(item) {
      assert WriteItem(s, item).keyed[item.id.value := item.body] == WriteItem(s, item).keyed;
    }
  }

  /** The writes of a list of items, one after another. */
  function WriteAll(s: Store, items: seq<Item>): Store
  {
    if items == [] then s else WriteItem(WriteAll(s, items[..|items| - 1]), items[|items| - 1])
  }

  /** For every id, the body of the last keyed item carrying it. */
  function LastWins(items: seq<Item>): map<string, Doc>
  {
    if items == [] then map[]
    else
      var m := LastWins(items[..|items| - 1]);
      var it := items[|items| - 1];
      if Keyed(it) then m[it.id.value := it.body] else m
  }

  /** The bodies of the items without an id. */
  function Unkeyed(items: seq<Item>): multiset<Doc>
  {
    if items == [] then multiset{}
    else Unkeyed(items[..|items| - 1]) + (if Keyed(items[|items| - 1]) then multiset{} else multiset{items[|items| - 1].body})
  }

  /** Number of unkeyed items. */
  function CountUnkeyed(items: seq<Item>): nat
  {
    if items == [] then 0
    else CountUnkeyed(items[..|items| - 1]) + (if Keyed(items[|items| - 1]) then 0 else 1)
  }

  /** The effect of a list of writes: keyed items override the map, the
      last write of an id winning; unkeyed items are all added. */
  lemma {:induction false} WriteAllEffect(s: Store, items: seq<Item>)
    ensures WriteAll(s, items).keyed == s.keyed + LastWins(items)
    ensures WriteAll(s, items).inserted == s.inserted + Unkeyed(items)
  {
    if items != [] {
      var init, it := items[..|items| - 1], items[|items| - 1];
      WriteAllEffect(s, init);
      if Keyed(it) {
        UnionUpdate(s.keyed, LastWins(init), it.id.value, it.body);
      }
    }
  }

  lemma UnionUpdate(m: map<string, Doc>, l: map<string, Doc>, k: string, d: Doc)
    ensures (m + l)[k := d] == m + l[k := d]
  {
  }

  lemma {:induction false} UnkeyedSize(items: seq<Item>)
    ensures |Unkeyed(items)| == CountUnkeyed(items)
  {
    if items != [] {
      UnkeyedSize(items[..|items| - 1]);
    }
  }

  /** Writing the same items again leaves the keyed documents as the first
      run left them: `set` by id is idempotent. */
  lemma {:induction false} KeyedWritesIdempotent(s: Store, items: seq<Item>)
    ensures WriteAll(WriteAll(s, items), items).keyed == WriteAll(s, items).keyed
  {
    WriteAllEffect(s, items);
    WriteAllEffect(WriteAll(s, items), items);
    var m, l := s.keyed, LastWins(items);
    assert (m + l) + l == m + l;
  }

  /** Writing the same items again adds every unkeyed item a second time:
      `add` is not idempotent. */
  lemma {:induction false} UnkeyedWritesDuplicate(s: Store, items: seq<Item>)
    ensures WriteAll(WriteAll(s, items), items).inserted == s.inserted + Unkeyed(items) + Unkeyed(items)
    ensures |WriteAll(WriteAll(s, items), items).inserted| == |s.inserted| + 2 * CountUnkeyed(items)
    ensures CountUnkeyed(items) > 0 ==> WriteAll(WriteAll(s, items), items) != WriteAll(s, items)
  {
    WriteAllEffect(s, items);
    WriteAllEffect(WriteAll(s, items), items);
    UnkeyedSize(items);
  }

  /** When every item carries an id, writing twice is the same as writing once. */
  lemma {:induction false} AllKeyedIdempotent(s: Store, items: seq<Item>)
    requires forall i :: 0 <= i < |items| ==> Keyed(items[i])
    ensures WriteAll(WriteAll(s, items), items) == WriteAll(s, items)
  {
    KeyedWritesIdempotent(s, items);
    WriteAllEffect(s, items);
    WriteAllEffect(WriteAll(s, items), items);
    NoUnkeyed(items);
    UnkeyedSize(items);
    assert Unkeyed(items) == multiset{};
  }

  lemma {:induction false} NoUnkeyed(items: seq<Item>)
    requires forall i :: 0 <= i < |items| ==> Keyed(items[i])
    ensures CountUnkeyed(items) == 0
  {
    if items != [] {
      NoUnkeyed(items[..|items| - 1]);
    }
  }

  lemma {:induction false} AllUnkeyedCount(items: seq<Item>)
    requires forall i :: 0 <= i < |items| ==> !Keyed(items[i])
    ensures CountUnkeyed(items) == |items|
  {
    if items != [] {
      AllUnkeyedCount(items[..|items| - 1]);
    }
  }

  /** Writing a concatenation is writing one part after the other. */
  lemma {:induction false} WriteAllAppend(s: Store, a: seq<Item>, b: seq<Item>)
    ensures WriteAll(s, a + b) == WriteAll(WriteAll(s, a), b)
  {
    if b == [] {
      assert a + b == a;
    } else {
      var b' := b[..|b| - 1];
      assert (a + b)[..|a + b| - 1] == a + b';
      WriteAllAppend(s, a, b');
    }
  }

  // ---------------------------------------------------------------------
  // Batches

  /** `items.slice(i, i + 50)` for i = 0, 50, 100, ... */
  function Batches(items: seq<Item>): (r: seq<seq<Item>>)
    ensures items == [] <==> r == []
    ensures items != [] ==> r[0] == items[..Min(BatchSize, |items|)]
    decreases |items|
  {
    if items == [] then []
    else if |items| <= BatchSize then [items]
    else [items[..BatchSize]] + Batches(items[BatchSize..])
  }

  function Concat(bs: seq<seq<Item>>): seq<Item>
  {
    if bs == [] then [] else bs[0] + Concat(bs[1..])
  }

  /** The batches cover the items exactly once and in order; there are
      ceil(n / 50) of them, each non-empty and at most 50 long, and every
      batch but the last is full. */
  lemma {:induction false} BatchesPartition(items: seq<Item>)
    ensures Concat(Batches(items)) == items
    ensures |Batches(items)| == (|items| + BatchSize - 1) / BatchSize
    ensures forall k :: 0 <= k < |Batches(items)| ==> 0 < |Batches(items)[k]| <= BatchSize
    ensures forall k :: 0 <= k < |Batches(items)| - 1 ==> |Batches(items)[k]| == BatchSize
    decreases |items|
  {
    if |items| > BatchSize {
      var rest := items[BatchSize..];
      BatchesPartition(rest);
      assert Batches(items)[1..] == Batches(rest);
      assert items[..BatchSize] + rest == items;
    } else if items != [] {
      assert Batches(items)[1..] == [];
    }
  }

  /** Batch k is `items.slice(50 * k, 50 * k + 50)`. */
  lemma {:induction false} BatchesAt(items: seq<Item>, k: nat)
    requires k < |Batches(items)|
    ensures BatchSize * k < |items|
    ensures Batches(items)[k] == items[BatchSize * k .. Min(BatchSize * (k + 1), |items|)]
    decreases |items|
  {
    if k > 0 {
      assert Batches(items)[k] == Batches(items[BatchSize..])[k - 1];
      BatchesAt(items[BatchSize..], k - 1);
    }
  }

  /** Writes applied batch after batch. */
  function WriteBatches(s: Store, bs: seq<seq<Item>>): Store
    decreases |bs|
  {
    if bs == [] then s else WriteBatches(WriteAll(s, bs[0]), bs[1..])
  }

  /** Batching does not change the effect: running the batches in turn
      writes the items in their order. */
  lemma {:induction false} WriteBatchesIsWriteAll(s: Store, items: seq<Item>)
    ensures WriteBatches(s, Batches(items)) == WriteAll(s, items)
  {
    BatchesPartition(items);
    WriteConcat(s, Batches(items));
  }

  lemma {:induction false} WriteConcat(s: Store, bs: seq<seq<Item>>)
    ensures WriteBatches(s, bs) == WriteAll(s, Concat(bs))
    decreases |bs|
  {
    if bs != [] {
      WriteConcat(WriteAll(s, bs[0]), bs[1..]);
      WriteAllAppend(s, bs[0], Concat(bs[1..]));
    }
  }

  // ---------------------------------------------------------------------
  // The collection and the batched write

  /** One collection of the document database. */
  class Collection {
    var keyed: map<string, Doc>
    var inserted: multiset<Doc>

    constructor ()
      ensures keyed == map[] && inserted == multiset{}
    {
      keyed := map[];
      inserted := multiset{};
    }

    function State(): Store
      reads this
    {
      Store(keyed, inserted)
    }

    /** `collection.doc(id).set({ data })`: create or replace. */
    method Set(id: string, body: Doc)
      modifies this
      ensures keyed == old(keyed)[id := body] && inserted == old(inserted)
    {
      keyed := keyed[id := body];
    }

    /** `collection.add({ data })`: a new document with a generated id. */
    method Add(body: Doc)
      modifies this
      ensures keyed == old(keyed) && inserted == old(inserted) + multiset{body}
    {
      inserted := inserted + multiset{body};
    }
  }

  /** One batch: its writes run concurrently and are awaited together;
      each item goes to `set` or `add` on its own, so they are applied here
      one after another. */
  method WriteBatch(c: Collection, batch: seq<Item>)
    modifies c
    ensures c.State() == WriteAll(old(c.State()), batch)
  {
    ghost var s0 := c.State();
    var j := 0;
    while j < |batch|
      invariant 0 <= j <= |batch|
      invariant c.State() == WriteAll(s0, batch[..j])
    {
      assert batch[..j + 1][..j] == batch[..j];
      var item := batch[j];
      if Keyed(item) {
        c.Set(item.id.value, item.body);
      } else {
        c.Add(item.body);
      }
      j := j + 1;
    }
    assert batch[..j] == batch;
  }

  /** p full batches of 50 are needed for n items when 50 * (p - 1) < n <= 50 * p. */
  lemma {:induction false} BatchCount(n: nat, p: nat)
    requires 0 < p && BatchSize * (p - 1) < n <= BatchSize * p
    ensures (n + BatchSize - 1) / BatchSize == p
  {
  }

  /** Writing the first a + b items is writing the first a, then the next b. */
  lemma {:induction false} WritePrefixes(s: Store, items: seq<Item>, a: nat, b: nat)
    requires a + b <= |items|
    ensures WriteAll(s, items[..a + b]) == WriteAll(WriteAll(s, items[..a]), items[a..a + b])
  {
    assert items[..a] + items[a..a + b] == items[..a + b];
    WriteAllAppend(s, items[..a], items[a..a + b]);
  }

  /** One turn of `batchWrite`'s loop: `items.slice(i, i + 50)` is
      written; returns the batch length. */
  method WriteSlice(c: Collection, items: seq<Item>, i: nat, ghost s0: Store) returns (written: nat)
    requires i < |items| && c.State() == WriteAll(s0, items[..i])
    modifies c
    ensures written == Min(i + BatchSize, |items|) - i
    ensures c.State() == WriteAll(s0, items[..i + written])
  {
    var batch := items[i..Min(i + BatchSize, |items|)];
    WriteBatch(c, batch);
    WritePrefixes(s0, items, i, |batch|);
    written := |batch|;
  }

  /** `batchWrite`: nothing for an empty list; otherwise the items in
      batches of 50, each item written with `set` when it has an id and
      with `add` when it has none. Returns the progress count logged after
      each batch. */
  method BatchWrite(c: Collection, items: seq<Item>) returns (progress: seq<nat>)
    modifies c
    ensures c.State() == WriteAll(old(c.State()), items)
    ensures |progress| == |Batches(items)|
    ensures forall k :: 0 <= k < |progress| ==> progress[k] == Min(BatchSize * (k + 1), |items|)
  {
    progress := [];
    if |items| == 0 {
      return;
    }
    ghost var s0 := c.State();
    var count := 0;
    var i := 0;
    while i < |items|
      invariant i == BatchSize * |progress| && count == Min(i, |items|)
      invariant |progress| > 0 ==> i - BatchSize < |items|
      invariant forall k :: 0 <= k < |progress| ==> progress[k] == Min(BatchSize * (k + 1), |items|)
      invariant c.State() == WriteAll(s0, items[..count])
      decreases |items| - i
    {
      var written := WriteSlice(c, items, i, s0);
      count := count + written;
      progress := progress + [count];
      i := i + BatchSize;
    }
    assert items[..count] == items;
    BatchesPartition(items);
    BatchCount(|items|, |progress|);
  }
}
