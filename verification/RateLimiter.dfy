/** The rate limiter as an object, its methods proved against the functions of Limiter. */
module RateLimiting {
  import opened Common
  import opened Limiter

  class RateLimiter {
    const cfg: Settings
    var total: nat
    var synced: nat
    var count: nat
    var key: Option<Key>
    var items: map<Key, Item>

    function View(): State
      reads this
    {
      State(total, synced, count, key, items)
    }

    /** The counters are uint64s. */
    ghost predicate Valid()
      reads this
    {
      total < U64 && synced < U64 && count < U64 && forall k :: k in items ==> items[k].value < U64
    }

    constructor (cfg: Settings)
      ensures Valid() && this.cfg == cfg && View() == NEW
    {
      this.cfg := cfg;
      total, synced, count, key, items := 0, 0, 0, None, map[];
    }

    method UpdateCurrentKey(now: nat)
      requires Valid() && cfg.interval > 0
      modifies this
      ensures Valid() && View() == UpdateKey(cfg, old(View()), now)
    {
      var k := Key(now / cfg.interval);
      key := Some(k);
      items := items[k := Item(0, now + cfg.multiplier * cfg.flushInterval)];
    }

    /** Goes through the items in any order, deleting and subtracting as it goes. */
    method PurgeExpiredKeys(now: nat)
      requires Valid()
      modifies this
      ensures Valid() && View() == Purge(old(View()), now)
    {
      hide Wrap, Complement, SumItems, Purging, Purged, Kept;
      ghost var s := View();
      ghost var gone: map<Key, Item> := map[];
      PurgeStart(s, now);
      var todo := items.Keys;
      while exists k :: k in todo
        invariant Valid() && key == s.key && synced == s.synced && count == s.count
        invariant Purging(s, now, gone, items, todo)
        invariant total == Wrap(s.total - SumItems(gone))
        decreases |todo|
      {
        var k :| k in todo;
        PurgeNext(s, now, gone, items, todo, k);
        var item := items[k];
        if Some(k) != key && now > item.expires {
          SubtractItem(s.total, gone, total, k, item);
          total := Wrap(total + Complement(item.value));
          items := items - {k};
          gone := gone[k := item];
        }
        todo := todo - {k};
      }
      PurgeDone(s, now, gone, items, todo);
    }

    method FlushCount()
      requires Valid()
      modifies this
      ensures Valid() && View() == Flush(old(View())) && count == 0
    {
      hide Wrap;
      var flushed := count;
      count := 0;
      if key.Some? && key.value in items {
        var item := items[key.value];
        var value := Wrap(item.value + flushed);
        items := items[key.value := item.(value := value)];
        synced := Wrap(synced + value);
        total := Wrap(total + value);
      }
    }

    method Add(delta: nat)
      requires Valid()
      modifies this
      ensures Valid() && View() == Increment(old(View()), delta)
    {
      count := Wrap(count + delta);
    }

    /** Init, without the goroutine: intervals under a millisecond are refused. */
    method Init(now: nat) returns (ok: bool)
      requires Valid()
      modifies this
      ensures Valid() && ok == (cfg.interval >= 1_000_000)
      ensures View() == if ok then UpdateKey(cfg, old(View()), now) else old(View())
    {
      ok := cfg.interval >= MILLISECOND;
      if ok {
        UpdateCurrentKey(now);
      }
    }

    /** What the goroutine does when the ticker fires. */
    method OnTick(now: nat)
      requires Valid() && cfg.interval > 0
      modifies this
      ensures Valid() && View() == Tick(cfg, old(View()), now)
    {
      UpdateCurrentKey(now);
      PurgeExpiredKeys(now);
      FlushCount();
    }

    /** Stop flushes once more without moving on to a new key. */
    method Stop()
      requires Valid()
      modifies this
      ensures Valid() && View() == Flush(old(View()))
    {
      FlushCount();
    }

    /** "Over" compares the mean of the store and the running count with the limit. Without overflow
        it means that the two together reach the next whole limit for every bucket. */
    method IsAverageOverLimit() returns (excess: nat, mean: nat, over: bool)
      requires Valid()
      ensures over <==> Over(cfg, View())
      ensures total + count < U64 ==> (over <==> total + count >= (cfg.limit + 1) * (|items| + 1))
      ensures mean == Wrap(total + count) / (|items| + 1)
      ensures over ==> excess == mean - cfg.limit
    {
      mean := Wrap(total + count) / (|items| + 1);
      excess := Wrap(mean - cfg.limit);
      over := mean > cfg.limit;
      MeanFits(total + count, |items| + 1, cfg.limit);
      hide Wrap;
      if total + count < U64 {
        OverIff(cfg, View());
      }
    }
  }
}
