/** What the rate limiter's operations compute: a running count that each tick moves into a store
    of expiring buckets, and a cached total of the store. */
module Limiter {
  import opened Common

  /** `^uint64(v-1)`: what the code adds in order to subtract v. */
  function Complement(v: nat): nat { U64 - 1 - Wrap(v - 1) }

  /** The store key built from the base key and a time bucket. */
  datatype Key = Key(bucket: int)

  datatype Item = Item(value: nat, expires: int)

  /** Times and durations are integer nanoseconds. */
  datatype Settings = Settings(limit: nat, interval: int, flushInterval: int, multiplier: int)

  datatype State = State(total: nat, synced: nat, count: nat, key: Option<Key>, items: map<Key, Item>)

  const MILLISECOND := 1_000_000

  function KeyAt(cfg: Settings, now: nat): Key
    requires cfg.interval > 0
  {
    Key(now / cfg.interval)
  }

  function Expiry(cfg: Settings, now: nat): int { now + cfg.multiplier * cfg.flushInterval }

  ghost function SumItems(items: map<Key, Item>): nat {
    if !exists k :: k in items then 0
    else var k :| k in items; items[k].value + SumItems(items - {k})
  }

  function Expired(s: State, k: Key, now: nat): bool
    requires k in s.items
  {
    Some(k) != s.key && now > s.items[k].expires
  }

  /** A bucket takes up one interval of time: two times share it exactly if no multiple of the interval
      lies between them. */
  lemma KeyCovers(cfg: Settings, t: nat, u: nat)
    requires cfg.interval > 0 && t <= u
    ensures var b := KeyAt(cfg, t).bucket; b * cfg.interval <= t < (b + 1) * cfg.interval
    ensures KeyAt(cfg, t) == KeyAt(cfg, u) <==> u < (KeyAt(cfg, t).bucket + 1) * cfg.interval
  {
    var n := cfg.interval;
    Quotient(t, n);
    Quotient(u, n);
    assert (t / n + 1) * n == n * (t / n) + n;
    if t / n < u / n {
      Scaled(t / n, u / n, n);
    } else if u / n < t / n {
      Scaled(u / n, t / n, n);
    }
  }

  // ----- Each operation as a function of the state -----

  function UpdateKey(cfg: Settings, s: State, now: nat): State
    requires cfg.interval > 0
  {
    var k := KeyAt(cfg, now);
    s.(key := Some(k), items := s.items[k := Item(0, Expiry(cfg, now))])
  }

  function Purged(s: State, now: nat): map<Key, Item> {
    map k | k in s.items && Expired(s, k, now) :: s.items[k]
  }

  function Kept(s: State, now: nat): map<Key, Item> {
    map k | k in s.items && !Expired(s, k, now) :: s.items[k]
  }

  ghost function Purge(s: State, now: nat): State {
    s.(total := Wrap(s.total - SumItems(Purged(s, now))), items := Kept(s, now))
  }

  function Flush(s: State): State {
    if s.key.None? || s.key.value !in s.items then s.(count := 0)
    else
      var item := s.items[s.key.value];
      var value := Wrap(item.value + s.count);
      s.(count := 0, items := s.items[s.key.value := item.(value := value)],
         synced := Wrap(s.synced + value), total := Wrap(s.total + value))
  }

  /** A flush empties the running count, whether or not there is a bucket to take it: a limiter that was
      never started drops it. Otherwise the bucket gets it, and both totals the bucket's new value. */
  lemma FlushForm(s: State)
    ensures var t := Flush(s);
            && t.count == 0 && t.key == s.key
            && (s.key.None? || s.key.value !in s.items ==> t == s.(count := 0))
            && (s.key.Some? && s.key.value in s.items && s.items[s.key.value].value + s.count < U64 ==>
                  var value := s.items[s.key.value].value + s.count;
                  && t.items == s.items[s.key.value := s.items[s.key.value].(value := value)]
                  && t.synced == (s.synced + value) % U64 && t.total == (s.total + value) % U64)
  {
  }

  function Increment(s: State, delta: nat): State { s.(count := Wrap(s.count + delta)) }

  ghost function Tick(cfg: Settings, s: State, now: nat): State
    requires cfg.interval > 0
  {
    Flush(Purge(UpdateKey(cfg, s, now), now))
  }

  /** What IsAverageOverLimit answers. */
  predicate Over(cfg: Settings, s: State) { Wrap(s.total + s.count) / (|s.items| + 1) > cfg.limit }

  const NEW: State := State(0, 0, 0, None, map[])

  // ----- The sum of a map of items -----

  /** The choice of the first key does not matter. */
  lemma {:induction false} SumRemove(items: map<Key, Item>, k: Key)
    requires k in items
    ensures SumItems(items) == items[k].value + SumItems(items - {k})
    decreases |items|
  {
    var j :| j in items && SumItems(items) == items[j].value + SumItems(items - {j});
    if j != k {
      SumRemove(items - {j}, k);
      SumRemove(items - {k}, j);
      assert items - {j} - {k} == items - {k} - {j};
    }
  }

  lemma SumUpdate(items: map<Key, Item>, k: Key, item: Item)
    ensures SumItems(items[k := item]) == SumItems(items) - (if k in items then items[k].value else 0) + item.value
  {
    SumRemove(items[k := item], k);
    assert items[k := item] - {k} == items - {k};
    if k in items {
      SumRemove(items, k);
    } else {
      assert items - {k} == items;
    }
  }

  lemma SumNone(items: map<Key, Item>)
    requires !exists k :: k in items
    ensures SumItems(items) == 0
  {
  }

  /** Every item of `all` is in exactly one of `a` and `b`. */
  ghost predicate Splits(all: map<Key, Item>, a: map<Key, Item>, b: map<Key, Item>) {
    && (forall k :: k in all <==> k in a || k in b)
    && (forall k :: k in a ==> k !in b && a[k] == all[k])
    && (forall k :: k in b ==> b[k] == all[k])
  }

  /** Splitting a map splits its sum. */
  lemma {:induction false} SumSplit(all: map<Key, Item>, a: map<Key, Item>, b: map<Key, Item>)
    requires Splits(all, a, b)
    ensures SumItems(all) == SumItems(a) + SumItems(b)
    decreases |all|
  {
    hide SumItems;
    if k :| k in all {
      SumRemove(all, k);
      if k in a {
        SumRemove(a, k);
        SumSplit(all - {k}, a - {k}, b);
      } else {
        SumRemove(b, k);
        SumSplit(all - {k}, a, b - {k});
      }
    } else {
      SumNone(all);
      SumNone(a);
      SumNone(b);
    }
  }

  /** A purge under way: expired items are gone, and what is left has not expired or is still to be
      looked at. */
  ghost predicate Purging(s: State, now: nat, gone: map<Key, Item>, left: map<Key, Item>, todo: set<Key>) {
    && todo <= left.Keys && Splits(s.items, gone, left)
    && (forall k :: k in gone ==> Expired(s, k, now))
    && (forall k :: k in left && k !in todo ==> !Expired(s, k, now))
  }

  lemma PurgeStart(s: State, now: nat)
    requires s.total < U64
    ensures Purging(s, now, map[], s.items, s.items.Keys) && s.total == Wrap(s.total - SumItems(map[]))
  {
    SumNone(map[]);
  }

  lemma PurgeNext(s: State, now: nat, gone: map<Key, Item>, left: map<Key, Item>, todo: set<Key>, k: Key)
    requires Purging(s, now, gone, left, todo) && k in todo
    ensures k !in gone && k in left && k in s.items && left[k] == s.items[k]
    ensures Expired(s, k, now) ==> Purging(s, now, gone[k := left[k]], left - {k}, todo - {k})
    ensures !Expired(s, k, now) ==> Purging(s, now, gone, left, todo - {k})
  {
  }

  /** What is left when every expired item is gone. */
  lemma PurgeDone(s: State, now: nat, gone: map<Key, Item>, left: map<Key, Item>, todo: set<Key>)
    requires Purging(s, now, gone, left, todo) && !exists k :: k in todo
    ensures gone == Purged(s, now) && left == Kept(s, now)
  {
  }

  lemma SubtractByComplement(total: nat, v: nat)
    requires total < U64 && v < U64
    ensures Wrap(total + Complement(v)) == Wrap(total - v)
  {
    if v == 0 {
      assert Wrap(-1) == U64 - 1;
    } else {
      assert Wrap(v - 1) == v - 1;
      assert Wrap(total - v + U64) == Wrap(total - v);
    }
  }

  /** Deleting one more expired item takes its value off the total. */
  lemma SubtractItem(start: nat, gone: map<Key, Item>, total: nat, k: Key, item: Item)
    requires total == Wrap(start - SumItems(gone)) && k !in gone && item.value < U64
    ensures Wrap(total + Complement(item.value)) == Wrap(start - SumItems(gone[k := item]))
  {
    SubtractByComplement(total, item.value);
    WrapSubtract(start - SumItems(gone), item.value);
    SumUpdate(gone, k, item);
  }

  lemma WrapSubtract(a: int, b: nat)
    ensures Wrap(Wrap(a) - b) == Wrap(a - b)
  {
  }

  // ----- The mean -----

  lemma Quotient(a: nat, n: nat)
    requires n > 0
    ensures n * (a / n) <= a < n * (a / n) + n
  {
    assert a == n * (a / n) + a % n;
  }

  lemma {:induction false} Scaled(x: int, y: int, n: nat)
    requires x < y
    ensures n * x + n <= n * y
    decreases y - x
  {
    assert n * (y - 1) + n == n * y;
    if x < y - 1 {
      Scaled(x, y - 1, n);
    }
  }

  /** A mean of 64-bit numbers is one, so taking less than it away does not wrap. */
  lemma MeanFits(a: int, n: nat, limit: nat)
    requires n > 0
    ensures var mean := Wrap(a) / n; limit <= mean ==> Wrap(mean - limit) == mean - limit
  {
    hide Wrap;
    MeanAtMost(Wrap(a), n);
    if limit <= Wrap(a) / n {
      WrapSmall(Wrap(a) / n - limit);
    }
  }

  lemma MeanAtMost(a: nat, n: nat)
    requires n > 0
    ensures a / n <= a
  {
    Quotient(a, n);
    Scaled(0, n, a / n);
  }

  lemma WrapSmall(a: nat)
    requires a < U64
    ensures Wrap(a) == a
  {
  }

  lemma MeanAbove(a: nat, n: nat, limit: nat)
    requires n > 0
    ensures a / n > limit <==> a >= (limit + 1) * n
  {
    var q := a / n;
    Quotient(a, n);
    assert (limit + 1) * n == n * limit + n;
    if q > limit {
      Scaled(limit, q, n);
    } else if q < limit {
      Scaled(q, limit, n);
    }
  }

  /** Without overflow, "over" means that the store and the running count reach the next whole
      limit for every bucket and the current one. */
  lemma OverIff(cfg: Settings, s: State)
    requires s.total + s.count < U64
    ensures Over(cfg, s) <==> s.total + s.count >= (cfg.limit + 1) * (|s.items| + 1)
  {
    assert Wrap(s.total + s.count) == s.total + s.count;
    MeanAbove(s.total + s.count, |s.items| + 1, cfg.limit);
  }
}
