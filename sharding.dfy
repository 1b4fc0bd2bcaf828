/** Splitting a batch's items into per-shard buckets by a shard function, as
    the preprocessor and the production filter do before sending to the
    joiners. The shard function itself (common.GetShard) is not part of this
    model: it is a parameter, and results in 1..shards are what the callers
    presuppose. */
module Sharding {
  import opened Utils

  /** The shard of an item: GetShard applied to the item's key. */
  function ShardOf<T>(getKey: T -> string, getShard: (string, int) -> int, shards: int): T -> int
  {
    x => getShard(getKey(x), shards)
  }

  /** The items of `data` whose shard is `id`, in input order. */
  function Bucket<T>(data: seq<T>, shard: T -> int, id: int): seq<T>
  {
    if data == [] then []
    else Bucket(data[..|data| - 1], shard, id) + (if shard(data[|data| - 1]) == id then [data[|data| - 1]] else [])
  }

  /** A bucket is an order-preserving filter by any predicate that tests for its id. */
  lemma {:induction false} BucketIsFiltered<T>(data: seq<T>, shard: T -> int, id: int, p: T -> bool)
    requires forall k :: 0 <= k < |data| ==> p(data[k]) == (shard(data[k]) == id)
    ensures Filtered(data, p) == Bucket(data, shard, id)
  {
    if data != [] {
      BucketIsFiltered(data[..|data| - 1], shard, id, p);
    }
  }

  /** Each item occurs in its own bucket as often as in the input, and in no other. */
  lemma BucketCount<T>(data: seq<T>, shard: T -> int, id: int, x: T)
    ensures multiset(Bucket(data, shard, id))[x] == if shard(x) == id then multiset(data)[x] else 0
  {
    var p := y => shard(y) == id;
    BucketIsFiltered(data, shard, id, p);
    FilteredCount(data, p, x);
  }

  /** The union of buckets 1..n. */
  function Buckets<T>(data: seq<T>, shard: T -> int, n: nat): multiset<T>
  {
    if n == 0 then multiset{} else Buckets(data, shard, n - 1) + multiset(Bucket(data, shard, n))
  }

  /** Appending an item adds it to the union exactly when its shard is in 1..n. */
  lemma {:induction false} BucketsSnoc<T>(data: seq<T>, shard: T -> int, n: nat, x: T)
    ensures Buckets(data + [x], shard, n)
            == Buckets(data, shard, n) + if 1 <= shard(x) <= n then multiset{x} else multiset{}
  {
    assert (data + [x])[..|data + [x]| - 1] == data;
    if n > 0 {
      BucketsSnoc(data, shard, n - 1, x);
    }
  }

  /** When every item's shard lies in 1..shards, buckets 1..shards partition the
      input: together they hold every item exactly as often as the input does. */
  lemma {:induction false} BucketsPartition<T>(data: seq<T>, shard: T -> int, shards: nat)
    requires forall k :: 0 <= k < |data| ==> 1 <= shard(data[k]) <= shards
    ensures Buckets(data, shard, shards) == multiset(data)
  {
    if data == [] {
      EmptyBuckets(shard, shards);
    } else {
      var init, last := data[..|data| - 1], data[|data| - 1];
      assert init + [last] == data;
      assert multiset(data) == multiset(init) + multiset{last};
      assert 1 <= shard(last) <= shards;
      BucketsPartition(init, shard, shards);
      BucketsSnoc(init, shard, shards, last);
    }
  }

  lemma {:induction false} EmptyBuckets<T>(shard: T -> int, n: nat)
    ensures Buckets([], shard, n) == multiset{}
  {
    if n > 0 {
      EmptyBuckets(shard, n - 1);
    }
  }

  /** Every item lands in the bucket of its shard, and a bucket holds only input
      items of that shard. */
  lemma LandsInOwnBucket<T>(data: seq<T>, shard: T -> int, id: int, x: T)
    ensures x in Bucket(data, shard, id) <==> x in data && shard(x) == id
  {
    BucketCount(data, shard, id, x);
    assert x in Bucket(data, shard, id) <==> multiset(Bucket(data, shard, id))[x] > 0;
    assert x in data <==> multiset(data)[x] > 0;
  }
}
