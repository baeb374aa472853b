/** Whole runs of a rate limiter: nothing is lost track of, whatever the ticks' timing, and with
    regular ticks the limiter is a sliding window. */
module LimiterRuns {
  import opened Common
  import opened Limiter

  datatype Event = Ticked(now: nat) | Counted(bytes: nat)

  ghost function Apply(cfg: Settings, s: State, e: Event): State
    requires cfg.interval > 0
  {
    match e
    case Ticked(now) => Tick(cfg, s, now)
    case Counted(bytes) => Increment(s, bytes)
  }

  ghost function Exec(cfg: Settings, s: State, events: seq<Event>): State
    requires cfg.interval > 0
    decreases |events|
  {
    if events == [] then s else Exec(cfg, Apply(cfg, s, events[0]), events[1..])
  }

  /** The limiter after Init at time t0. */
  function Started(cfg: Settings, t0: nat): State
    requires cfg.interval > 0
  {
    UpdateKey(cfg, NEW, t0)
  }

  /** The sum of all increments. */
  function Bytes(events: seq<Event>): nat {
    if events == [] then 0 else (if events[0].Counted? then events[0].bytes else 0) + Bytes(events[1..])
  }

  // ----- Conservation, whatever the timing -----

  /** What a tick at `now` overwrites: the value its bucket already had. */
  function Overwritten(cfg: Settings, s: State, now: nat): nat
    requires cfg.interval > 0
  {
    if KeyAt(cfg, now) in s.items then s.items[KeyAt(cfg, now)].value else 0
  }

  ghost function Lost(cfg: Settings, s: State, events: seq<Event>): nat
    requires cfg.interval > 0
    decreases |events|
  {
    if events == [] then 0
    else
      var here := if events[0].Ticked? then Overwritten(cfg, s, events[0].now) else 0;
      here + Lost(cfg, Apply(cfg, s, events[0]), events[1..])
  }

  /** The counters account for `sum` bytes, of which `lost` were overwritten and `purged` expired. */
  ghost predicate Ledger(s: State, sum: nat, lost: nat, purged: nat) {
    && sum < U64 && s.key.Some? && s.key.value in s.items
    && s.synced + s.count == sum
    && s.synced == SumItems(s.items) + lost + purged
    && s.total == SumItems(s.items) + lost
  }

  /** A purge subtracts no more than is there. */
  lemma PurgeLedger(s: State, now: nat, sum: nat, lost: nat, purged: nat)
    requires Ledger(s, sum, lost, purged)
    ensures SumItems(Purged(s, now)) <= s.total
    ensures Purge(s, now).total == s.total - SumItems(Purged(s, now))
    ensures Ledger(Purge(s, now), sum, lost, purged + SumItems(Purged(s, now)))
  {
    hide SumItems;
    SumSplit(s.items, Purged(s, now), Kept(s, now));
  }

  /** A flush moves the running count into a bucket that is empty. */
  lemma FlushLedger(s: State, sum: nat, lost: nat, purged: nat)
    requires Ledger(s, sum, lost, purged) && s.items[s.key.value].value == 0
    ensures Ledger(Flush(s), sum, lost, purged) && Flush(s).count == 0
  {
    hide SumItems;
    SumUpdate(s.items, s.key.value, s.items[s.key.value].(value := s.count));
  }

  /** A new key takes over: what its bucket held before is overwritten. */
  lemma KeyLedger(cfg: Settings, s: State, now: nat, sum: nat, lost: nat, purged: nat)
    requires cfg.interval > 0 && Ledger(s, sum, lost, purged)
    ensures Ledger(UpdateKey(cfg, s, now), sum, lost + Overwritten(cfg, s, now), purged)
  {
    hide SumItems;
    SumUpdate(s.items, KeyAt(cfg, now), Item(0, Expiry(cfg, now)));
  }

  lemma TickLedger(cfg: Settings, s: State, now: nat, sum: nat, lost: nat, purged: nat) returns (more: nat)
    requires cfg.interval > 0 && Ledger(s, sum, lost, purged)
    ensures Ledger(Tick(cfg, s, now), sum, lost + Overwritten(cfg, s, now), more)
    ensures SumItems(Purged(UpdateKey(cfg, s, now), now)) <= s.total
    ensures Tick(cfg, s, now).count == 0
  {
    hide SumItems, Flush, Wrap;
    var u := UpdateKey(cfg, s, now);
    more := purged + SumItems(Purged(u, now));
    KeyLedger(cfg, s, now, sum, lost, purged);
    PurgeLedger(u, now, sum, lost + Overwritten(cfg, s, now), purged);
    FlushLedger(Purge(u, now), sum, lost + Overwritten(cfg, s, now), more);
  }

  lemma {:induction false} RunLedger(cfg: Settings, s: State, events: seq<Event>, sum: nat, lost: nat, purged: nat)
      returns (more: nat)
    requires cfg.interval > 0 && Ledger(s, sum, lost, purged) && sum + Bytes(events) < U64
    ensures Ledger(Exec(cfg, s, events), sum + Bytes(events), lost + Lost(cfg, s, events), more)
    decreases |events|
  {
    more := purged;
    if events != [] {
      hide SumItems, Tick;
      var next := Apply(cfg, s, events[0]);
      match events[0] {
        case Ticked(now) =>
          var m := TickLedger(cfg, s, now, sum, lost, purged);
          more := RunLedger(cfg, next, events[1..], sum, lost + Overwritten(cfg, s, now), m);
        case Counted(bytes) =>
          more := RunLedger(cfg, next, events[1..], sum + bytes, lost, purged);
      }
    }
  }

  lemma StartLedger(cfg: Settings, t0: nat)
    requires cfg.interval > 0
    ensures Ledger(Started(cfg, t0), 0, 0, 0)
  {
    SumUpdate(map[], KeyAt(cfg, t0), Item(0, Expiry(cfg, t0)));
    SumNone(map[]);
  }

  /** Limiter conservation: from Init until Stop, under any tick times, the synced and running
      counts add up to all increments, the current key is in the store, and the cached total is
      the sum of the store plus what same-bucket ticks overwrote (as long as the increments fit
      64 bits). */
  lemma Conservation(cfg: Settings, t0: nat, events: seq<Event>)
    requires cfg.interval > 0 && Bytes(events) < U64
    ensures var s := Exec(cfg, Started(cfg, t0), events);
            && s.synced + s.count == Bytes(events)
            && s.key.Some? && s.key.value in s.items
            && s.total == SumItems(s.items) + Lost(cfg, Started(cfg, t0), events)
  {
    StartLedger(cfg, t0);
    var _ := RunLedger(cfg, Started(cfg, t0), events, 0, 0, 0);
  }

  /** So no purge ever takes more off the total than is in it. */
  lemma PurgeNeverUnderflows(cfg: Settings, t0: nat, events: seq<Event>, now: nat)
    requires cfg.interval > 0 && Bytes(events) < U64
    ensures var s := Exec(cfg, Started(cfg, t0), events);
            SumItems(Purged(UpdateKey(cfg, s, now), now)) <= s.total
  {
    StartLedger(cfg, t0);
    var more := RunLedger(cfg, Started(cfg, t0), events, 0, 0, 0);
    var s, lost := Exec(cfg, Started(cfg, t0), events), Lost(cfg, Started(cfg, t0), events);
    var _ := TickLedger(cfg, s, now, Bytes(events), lost, more);
  }

  lemma StopLedger(s: State, sum: nat, lost: nat, purged: nat)
    requires Ledger(s, sum, lost, purged) && 2 * sum < U64
    ensures var stopped, stored := Flush(s), s.items[s.key.value].value;
            && stopped.synced + stopped.count == sum + stored
            && stopped.total == SumItems(stopped.items) + lost + stored
  {
    hide SumItems;
    var item := s.items[s.key.value];
    SumRemove(s.items, s.key.value);
    assert Flush(s).items == s.items[s.key.value := item.(value := item.value + s.count)];
    hide Flush, Ledger, Wrap;
    SumUpdate(s.items, s.key.value, item.(value := item.value + s.count));
  }

  /** Stop counts the current bucket's stored value a second time: the accounts still balance
      afterwards exactly if that value was zero. */
  lemma StopBalancesIff(cfg: Settings, t0: nat, events: seq<Event>)
    requires cfg.interval > 0 && 2 * Bytes(events) < U64
    ensures var s := Exec(cfg, Started(cfg, t0), events);
            && s.key.Some? && s.key.value in s.items
            && var stopped, stored := Flush(s), s.items[s.key.value].value;
               && stopped.synced + stopped.count == Bytes(events) + stored
               && stopped.total == SumItems(stopped.items) + Lost(cfg, Started(cfg, t0), events) + stored
               && (stopped.synced + stopped.count == Bytes(events) <==> stored == 0)
  {
    hide SumItems, Exec, Flush, Wrap;
    StartLedger(cfg, t0);
    var more := RunLedger(cfg, Started(cfg, t0), events, 0, 0, 0);
    StopLedger(Exec(cfg, Started(cfg, t0), events), Bytes(events), Lost(cfg, Started(cfg, t0), events), more);
  }

  // ----- The window: what the ticks alone say -----

  /** The bytes counted between a tick and the one before it. */
  datatype Batch = Batch(time: nat, bytes: nat)

  datatype History = History(batches: seq<Batch>, pending: nat)

  /** The batches of a run, without reference to any limiter. */
  function Record(h: History, events: seq<Event>): History
    decreases |events|
  {
    if events == [] then h else Record(Observe(h, events[0]), events[1..])
  }

  function Observe(h: History, e: Event): History {
    match e
    case Ticked(now) => History(h.batches + [Batch(now, h.pending)], 0)
    case Counted(bytes) => h.(pending := h.pending + bytes)
  }

  function HistoryOf(t0: nat, events: seq<Event>): History { Record(History([Batch(t0, 0)], 0), events) }

  /** A limiter has to remember a batch for StoreMultiplier flush intervals. */
  predicate Remembered(cfg: Settings, b: Batch, now: int) { now - b.time <= cfg.multiplier * cfg.flushInterval }

  /** The batches that are to be remembered at `now`. */
  function InTime(cfg: Settings, batches: seq<Batch>, now: int): seq<Batch> {
    if batches == [] then []
    else
      var n := |batches| - 1;
      var rest := InTime(cfg, batches[..n], now);
      if Remembered(cfg, batches[n], now) then rest + [batches[n]] else rest
  }

  /** The sliding window after the latest tick: that tick's batch and the earlier ones in time. */
  function Window(cfg: Settings, batches: seq<Batch>): seq<Batch> {
    if batches == [] then []
    else var n := |batches| - 1; InTime(cfg, batches[..n], batches[n].time) + [batches[n]]
  }

  function SumBytes(batches: seq<Batch>): nat {
    if batches == [] then 0 else SumBytes(batches[..|batches| - 1]) + batches[|batches| - 1].bytes
  }

  /** Ticks in time order, each at least `gap` after the one before. */
  ghost predicate Spaced(batches: seq<Batch>, gap: int) {
    forall i :: 0 <= i < |batches| - 1 ==> batches[i + 1].time >= batches[i].time + gap
  }

  ghost predicate Sorted(batches: seq<Batch>) {
    forall i, j :: 0 <= i < j < |batches| ==> batches[i].time <= batches[j].time
  }

  /** The bucket of a time: the number of whole intervals before it. */
  function BucketOf(cfg: Settings, t: nat): Key
    requires cfg.interval > 0
  {
    Key(t / cfg.interval)
  }

  /** What a store keeps of a batch. */
  function ItemOf(cfg: Settings, b: Batch): Item { Item(b.bytes, b.time + cfg.multiplier * cfg.flushInterval) }

  /** The store that holds each bucket's latest batch. */
  function StoreOf(cfg: Settings, batches: seq<Batch>): map<Key, Item>
    requires cfg.interval > 0
  {
    if batches == [] then map[]
    else
      var n := |batches| - 1;
      StoreOf(cfg, batches[..n])[BucketOf(cfg, batches[n].time) := ItemOf(cfg, batches[n])]
  }

  /** What is in time later was in time earlier. */
  lemma {:induction false} InTimeTwice(cfg: Settings, batches: seq<Batch>, t: int, u: int)
    requires t <= u
    ensures InTime(cfg, InTime(cfg, batches, t), u) == InTime(cfg, batches, u)
  {
    if batches != [] {
      var n := |batches| - 1;
      InTimeTwice(cfg, batches[..n], t, u);
      if Remembered(cfg, batches[n], t) {
        InTimeAppend(cfg, InTime(cfg, batches[..n], t), batches[n], u);
      }
    }
  }

  lemma InTimeAppend(cfg: Settings, batches: seq<Batch>, b: Batch, now: int)
    ensures var rest := InTime(cfg, batches, now);
            InTime(cfg, batches + [b], now) == if Remembered(cfg, b, now) then rest + [b] else rest
  {
    assert (batches + [b])[..|batches|] == batches;
  }

  /** Filtering the window of earlier ticks is filtering their whole history. */
  lemma WindowMoves(cfg: Settings, batches: seq<Batch>, b: Batch)
    requires batches != [] && batches[|batches| - 1].time <= b.time
    ensures Window(cfg, batches + [b]) == InTime(cfg, Window(cfg, batches), b.time) + [b]
  {
    var n := |batches| - 1;
    var last := batches[n];
    assert (batches + [b])[..|batches|] == batches;
    assert batches == batches[..n] + [last];
    InTimeAppend(cfg, batches[..n], last, b.time);
    InTimeTwice(cfg, batches[..n], last.time, b.time);
    InTimeAppend(cfg, InTime(cfg, batches[..n], last.time), last, b.time);
  }

  /** Every item of the store is some batch, and expires when that batch does. */
  lemma {:induction false} StoreItem(cfg: Settings, batches: seq<Batch>, k: Key) returns (i: nat)
    requires cfg.interval > 0 && k in StoreOf(cfg, batches)
    ensures i < |batches| && k == BucketOf(cfg, batches[i].time)
    ensures StoreOf(cfg, batches)[k] == ItemOf(cfg, batches[i])
  {
    var n := |batches| - 1;
    if k == BucketOf(cfg, batches[n].time) {
      i := n;
    } else {
      i := StoreItem(cfg, batches[..n], k);
    }
  }

  lemma {:induction false} AllExpired(cfg: Settings, batches: seq<Batch>, now: int)
    requires forall i :: 0 <= i < |batches| ==> !Remembered(cfg, batches[i], now)
    ensures InTime(cfg, batches, now) == []
  {
    if batches != [] {
      AllExpired(cfg, batches[..|batches| - 1], now);
    }
  }

  /** Dropping the expired batches drops exactly the expired items. */
  lemma {:induction false} StoreInTime(cfg: Settings, batches: seq<Batch>, now: int, k: Key)
    requires cfg.interval > 0 && Sorted(batches)
    ensures var all, live := StoreOf(cfg, batches), StoreOf(cfg, InTime(cfg, batches, now));
            && (k in live <==> k in all && now <= all[k].expires)
            && (k in live ==> live[k] == all[k])
  {
    if batches != [] {
      var n := |batches| - 1;
      if Remembered(cfg, batches[n], now) {
        StoreInTime(cfg, batches[..n], now, k);
        var rest := InTime(cfg, batches[..n], now);
        assert (rest + [batches[n]])[..|rest|] == rest;
      } else {
        AllExpired(cfg, batches, now);
        if k in StoreOf(cfg, batches) {
          var i := StoreItem(cfg, batches, k);
        }
      }
    }
  }

  /** The limiter has seen exactly this history. */
  ghost predicate Tracks(cfg: Settings, s: State, h: History)
    requires cfg.interval > 0
  {
    && h.batches != [] && Sorted(h.batches) && h.pending < U64
    && s.count == h.pending
    && s.key == Some(BucketOf(cfg, h.batches[|h.batches| - 1].time))
    && s.items == StoreOf(cfg, Window(cfg, h.batches))
  }

  lemma {:induction false} InTimeSorted(cfg: Settings, batches: seq<Batch>, now: int, top: int)
    requires Sorted(batches) && forall i :: 0 <= i < |batches| ==> batches[i].time <= top
    ensures Sorted(InTime(cfg, batches, now))
    ensures forall i :: 0 <= i < |InTime(cfg, batches, now)| ==> InTime(cfg, batches, now)[i].time <= top
  {
    if batches != [] {
      var n := |batches| - 1;
      InTimeSorted(cfg, batches[..n], now, batches[n].time);
    }
  }

  lemma WindowSorted(cfg: Settings, batches: seq<Batch>)
    requires Sorted(batches)
    ensures Sorted(Window(cfg, batches))
  {
    if batches != [] {
      var n := |batches| - 1;
      InTimeSorted(cfg, batches[..n], batches[n].time, batches[n].time);
    }
  }

  /** One key of the store after a tick. */
  lemma TickItem(cfg: Settings, s: State, now: nat, k: Key)
    requires cfg.interval > 0 && s.count < U64
    ensures var t, mine := Tick(cfg, s, now).items, KeyAt(cfg, now);
            && (k in t <==> k == mine || (k in s.items && now <= s.items[k].expires))
            && (k in t ==> t[k] == if k == mine then Item(s.count, Expiry(cfg, now)) else s.items[k])
  {
    hide SumItems;
    var p := Purge(UpdateKey(cfg, s, now), now);
    assert p.key == Some(KeyAt(cfg, now)) && p.key.value in p.items && p.items[p.key.value].value == 0;
  }

  lemma TickStore(cfg: Settings, s: State, w: seq<Batch>, now: nat)
    requires cfg.interval > 0 && s.count < U64 && Sorted(w) && s.items == StoreOf(cfg, w)
    ensures Tick(cfg, s, now).items == StoreOf(cfg, InTime(cfg, w, now) + [Batch(now, s.count)])
  {
    hide Tick;
    var t, live := Tick(cfg, s, now).items, InTime(cfg, w, now);
    var all := live + [Batch(now, s.count)];
    assert all[..|live|] == live;
    forall k
      ensures k in t <==> k in StoreOf(cfg, all)
      ensures k in t ==> t[k] == StoreOf(cfg, all)[k]
    {
      TickItem(cfg, s, now, k);
      StoreInTime(cfg, w, now, k);
    }
    assert t == StoreOf(cfg, all);
  }

  lemma TickKey(cfg: Settings, s: State, now: nat)
    requires cfg.interval > 0
    ensures Tick(cfg, s, now).key == Some(KeyAt(cfg, now))
  {
    hide SumItems;
  }

  lemma TickTracks(cfg: Settings, s: State, h: History, now: nat)
    requires cfg.interval > 0 && Tracks(cfg, s, h) && h.batches[|h.batches| - 1].time <= now
    requires Tick(cfg, s, now).count == 0
    ensures Tracks(cfg, Tick(cfg, s, now), Observe(h, Ticked(now)))
  {
    hide Tick, StoreOf, InTime;
    TickKey(cfg, s, now);
    WindowMoves(cfg, h.batches, Batch(now, h.pending));
    WindowSorted(cfg, h.batches);
    hide Window;
    TickStore(cfg, s, Window(cfg, h.batches), now);
  }

  lemma {:induction false} RecordPrefix(h: History, events: seq<Event>)
    ensures |h.batches| <= |Record(h, events).batches| && Record(h, events).batches[..|h.batches|] == h.batches
    ensures Record(h, events).pending <= h.pending + Bytes(events)
    decreases |events|
  {
    if events != [] {
      RecordPrefix(Observe(h, events[0]), events[1..]);
    }
  }

  lemma {:induction false} RunTracks(
    cfg: Settings, s: State, h: History, events: seq<Event>, sum: nat, lost: nat, purged: nat)
    requires cfg.interval > 0 && Tracks(cfg, s, h) && Sorted(Record(h, events).batches)
    requires Ledger(s, sum, lost, purged) && sum + Bytes(events) < U64
    ensures Tracks(cfg, Exec(cfg, s, events), Record(h, events))
    decreases |events|
  {
    if events != [] {
      hide Tick, SumItems, StoreOf, Window;
      match events[0] {
        case Ticked(now) =>
          var next := Observe(h, events[0]);
          var more := TickLedger(cfg, s, now, sum, lost, purged);
          RecordPrefix(next, events[1..]);
          var all := Record(next, events[1..]).batches;
          assert all[|h.batches| - 1] == h.batches[|h.batches| - 1] && all[|h.batches|] == Batch(now, h.pending);
          TickTracks(cfg, s, h, now);
          RunTracks(cfg, Tick(cfg, s, now), next, events[1..], sum, lost + Overwritten(cfg, s, now), more);
        case Counted(bytes) =>
          RunTracks(cfg, Increment(s, bytes), Observe(h, events[0]), events[1..], sum + bytes, lost, purged);
      }
    }
  }

  /** At every moment, for ticks in time order, the store holds exactly the sliding window of the
      history: for each bucket its latest batch that has not expired, and nothing else. */
  lemma StoreIsWindow(cfg: Settings, t0: nat, events: seq<Event>)
    requires cfg.interval > 0 && Bytes(events) < U64 && Sorted(HistoryOf(t0, events).batches)
    ensures var s, h := Exec(cfg, Started(cfg, t0), events), HistoryOf(t0, events);
            s.items == StoreOf(cfg, Window(cfg, h.batches)) && s.count == h.pending
  {
    StartLedger(cfg, t0);
    StartTracks(cfg, t0);
    RunTracks(cfg, Started(cfg, t0), History([Batch(t0, 0)], 0), events, 0, 0, 0);
  }

  lemma StartTracks(cfg: Settings, t0: nat)
    requires cfg.interval > 0
    ensures Tracks(cfg, Started(cfg, t0), History([Batch(t0, 0)], 0))
  {
    var b := Batch(t0, 0);
    assert Window(cfg, [b]) == [b];
    assert StoreOf(cfg, [b]) == map[BucketOf(cfg, t0) := ItemOf(cfg, b)];
  }

  const ONE_TICK: seq<Event> := [Counted(5), Ticked(MILLISECOND)]

  /** One tick is enough for Stop to count a message twice. */
  lemma StopCountsTwice(limit: nat)
    ensures var cfg := Settings(limit, MILLISECOND, MILLISECOND, 1);
            var stopped := Flush(Exec(cfg, Started(cfg, 0), ONE_TICK));
            Bytes(ONE_TICK) == 5 && stopped.synced + stopped.count == 10
  {
    var cfg := Settings(limit, MILLISECOND, MILLISECOND, 1);
    var s := Increment(Started(cfg, 0), 5);
    assert ONE_TICK[1..] == [Ticked(MILLISECOND)] && [Ticked(MILLISECOND)][1..] == [];
    assert Bytes([Ticked(MILLISECOND)]) == 0 && Bytes(ONE_TICK) == 5;
    assert Exec(cfg, Started(cfg, 0), ONE_TICK) == Tick(cfg, s, MILLISECOND) by {
      hide Tick;
      assert Exec(cfg, s, [Ticked(MILLISECOND)]) == Exec(cfg, Tick(cfg, s, MILLISECOND), []);
    }
    hide Tick, Flush;
    TickItem(cfg, s, MILLISECOND, KeyAt(cfg, MILLISECOND));
    TickKey(cfg, s, MILLISECOND);
    StopBalancesIff(cfg, 0, ONE_TICK);
  }

  // ----- Regular ticks -----

  /** Every two batches are at least `gap` apart. */
  ghost predicate Apart(batches: seq<Batch>, gap: int) {
    forall i, j :: 0 <= i < j < |batches| ==> batches[j].time >= batches[i].time + gap
  }

  lemma {:induction false} SpacedApart(batches: seq<Batch>, gap: nat)
    requires Spaced(batches, gap)
    ensures Apart(batches, gap)
  {
    if |batches| > 1 {
      var n := |batches| - 1;
      SpacedApart(batches[..n], gap);
      assert batches[n - 1 + 1].time >= batches[n - 1].time + gap;
    }
  }

  lemma {:induction false} InTimeApart(cfg: Settings, batches: seq<Batch>, now: int, gap: nat, top: int)
    requires Apart(batches, gap) && forall i :: 0 <= i < |batches| ==> batches[i].time + gap <= top
    ensures Apart(InTime(cfg, batches, now), gap)
    ensures forall i :: 0 <= i < |InTime(cfg, batches, now)| ==> InTime(cfg, batches, now)[i].time + gap <= top
  {
    if batches != [] {
      var n := |batches| - 1;
      InTimeApart(cfg, batches[..n], now, gap, batches[n].time);
    }
  }

  lemma WindowApart(cfg: Settings, batches: seq<Batch>, gap: nat)
    requires Apart(batches, gap)
    ensures Apart(Window(cfg, batches), gap)
    ensures batches != [] ==>
              Window(cfg, batches) != [] && Window(cfg, batches)[|Window(cfg, batches)| - 1] == batches[|batches| - 1]
  {
    if batches != [] {
      var n := |batches| - 1;
      InTimeApart(cfg, batches[..n], batches[n].time, gap, batches[n].time);
    }
  }

  /** An interval later is a later bucket. */
  lemma LaterKey(cfg: Settings, t: nat, u: nat)
    requires cfg.interval > 0 && u >= t + cfg.interval
    ensures BucketOf(cfg, u).bucket > BucketOf(cfg, t).bucket
  {
    var p, q := u / cfg.interval, t / cfg.interval;
    Quotient(u, cfg.interval);
    Quotient(t, cfg.interval);
    if p < q {
      Scaled(p, q, cfg.interval);
    }
  }

  lemma {:induction false} StoreSize(cfg: Settings, batches: seq<Batch>)
    requires cfg.interval > 0
    ensures |StoreOf(cfg, batches)| <= |batches|
  {
    if batches != [] {
      StoreSize(cfg, batches[..|batches| - 1]);
    }
  }

  /** A bucket after all those of the batches is not in their store. */
  lemma FreshKey(cfg: Settings, batches: seq<Batch>, now: nat)
    requires cfg.interval > 0 && forall i :: 0 <= i < |batches| ==> batches[i].time + cfg.interval <= now
    ensures BucketOf(cfg, now) !in StoreOf(cfg, batches)
  {
    if BucketOf(cfg, now) in StoreOf(cfg, batches) {
      var i := StoreItem(cfg, batches, BucketOf(cfg, now));
      LaterKey(cfg, batches[i].time, now);
    }
  }

  /** Batches in different buckets are stored one by one. */
  lemma {:induction false} StoreExact(cfg: Settings, batches: seq<Batch>)
    requires cfg.interval > 0 && Apart(batches, cfg.interval)
    ensures |StoreOf(cfg, batches)| == |batches| && SumItems(StoreOf(cfg, batches)) == SumBytes(batches)
  {
    if batches == [] {
      SumNone(map[]);
    } else {
      hide SumItems;
      var n := |batches| - 1;
      StoreExact(cfg, batches[..n]);
      FreshKey(cfg, batches[..n], batches[n].time);
      var key, item := BucketOf(cfg, batches[n].time), ItemOf(cfg, batches[n]);
      SumUpdate(StoreOf(cfg, batches[..n]), key, item);
    }
  }

  lemma FewerIntervals(c: int, m: int, f: int)
    requires f > 0 && c * f <= m * f
    ensures c <= m
  {
  }

  /** Ticks a flush interval apart, the latest c intervals ago: at most m - c + 1 are in time. */
  lemma {:induction false} InTimeShort(cfg: Settings, batches: seq<Batch>, now: int, c: nat)
    requires cfg.flushInterval > 0 && Spaced(batches, cfg.flushInterval)
    requires batches != [] ==> now >= batches[|batches| - 1].time + c * cfg.flushInterval
    ensures |InTime(cfg, batches, now)| <= if c <= cfg.multiplier then cfg.multiplier - c + 1 else 0
  {
    if batches != [] {
      var n := |batches| - 1;
      if n > 0 {
        assert batches[n - 1 + 1].time >= batches[n - 1].time + cfg.flushInterval;
        assert (c + 1) * cfg.flushInterval == c * cfg.flushInterval + cfg.flushInterval;
      }
      InTimeShort(cfg, batches[..n], now, c + 1);
      if Remembered(cfg, batches[n], now) {
        FewerIntervals(c, cfg.multiplier, cfg.flushInterval);
      }
    }
  }

  /** Bounded store: with ticks at least a flush interval apart, the store never holds more than
      StoreMultiplier + 1 buckets (one if the multiplier is negative). */
  lemma BoundedStore(cfg: Settings, t0: nat, events: seq<Event>)
    requires cfg.interval > 0 && cfg.flushInterval > 0 && Bytes(events) < U64
    requires Spaced(HistoryOf(t0, events).batches, cfg.flushInterval)
    ensures |Exec(cfg, Started(cfg, t0), events).items| <= (if cfg.multiplier >= 0 then cfg.multiplier else 0) + 1
  {
    var batches := HistoryOf(t0, events).batches;
    SpacedApart(batches, cfg.flushInterval);
    StoreIsWindow(cfg, t0, events);
    StoreSize(cfg, Window(cfg, batches));
    if batches != [] {
      var n := |batches| - 1;
      if n > 0 {
        assert batches[n - 1 + 1].time >= batches[n - 1].time + cfg.flushInterval;
      }
      InTimeShort(cfg, batches[..n], batches[n].time, 1);
    }
  }

  // ----- What a regular store holds, batch by batch -----

  lemma {:induction false} InTimeIff(cfg: Settings, batches: seq<Batch>, now: int, b: Batch)
    ensures b in InTime(cfg, batches, now) <==> b in batches && Remembered(cfg, b, now)
  {
    if batches != [] {
      var n := |batches| - 1;
      InTimeIff(cfg, batches[..n], now, b);
      assert b in batches <==> b in batches[..n] || b == batches[n];
    }
  }

  /** Batches in different buckets are all there. */
  lemma {:induction false} StoreHolds(cfg: Settings, batches: seq<Batch>, i: nat)
    requires cfg.interval > 0 && Apart(batches, cfg.interval) && i < |batches|
    ensures var store, k := StoreOf(cfg, batches), BucketOf(cfg, batches[i].time);
            k in store && store[k] == ItemOf(cfg, batches[i])
  {
    var n := |batches| - 1;
    if i < n {
      StoreHolds(cfg, batches[..n], i);
      LaterKey(cfg, batches[i].time, batches[n].time);
    }
  }

  /** The batch is the latest, or not older than StoreMultiplier flush intervals. */
  predicate Current(cfg: Settings, batches: seq<Batch>, i: nat)
    requires i < |batches|
  {
    var n := |batches| - 1;
    i == n || batches[n].time - batches[i].time <= cfg.multiplier * cfg.flushInterval
  }

  lemma WindowIff(cfg: Settings, batches: seq<Batch>, i: nat)
    requires cfg.interval > 0 && Apart(batches, cfg.interval) && i < |batches|
    ensures batches[i] in Window(cfg, batches) <==> Current(cfg, batches, i)
  {
    var n := |batches| - 1;
    InTimeIff(cfg, batches[..n], batches[n].time, batches[i]);
    if i < n {
      assert batches[..n][i] == batches[i] && batches[i].time < batches[n].time;
    }
  }

  lemma {:induction false} WindowIsOld(cfg: Settings, batches: seq<Batch>, b: Batch) returns (i: nat)
    requires b in Window(cfg, batches)
    ensures i < |batches| && batches[i] == b
  {
    var n := |batches| - 1;
    InTimeIff(cfg, batches[..n], batches[n].time, b);
    i :| 0 <= i < |batches| && batches[i] == b;
  }

  lemma WindowStores(cfg: Settings, batches: seq<Batch>, i: nat)
    requires cfg.interval > 0 && Apart(batches, cfg.interval) && i < |batches|
    ensures var store, k := StoreOf(cfg, Window(cfg, batches)), BucketOf(cfg, batches[i].time);
            && (k in store <==> Current(cfg, batches, i))
            && (k in store ==> store[k].value == batches[i].bytes)
  {
    hide Window, StoreOf;
    var w, k := Window(cfg, batches), BucketOf(cfg, batches[i].time);
    WindowIff(cfg, batches, i);
    WindowApart(cfg, batches, cfg.interval);
    if k in StoreOf(cfg, w) {
      var j := StoreItem(cfg, w, k);
      var m := WindowIsOld(cfg, batches, w[j]);
      if m < i {
        LaterKey(cfg, batches[m].time, batches[i].time);
      } else if i < m {
        LaterKey(cfg, batches[i].time, batches[m].time);
      }
    }
    if batches[i] in w {
      var j :| 0 <= j < |w| && w[j] == batches[i];
      StoreHolds(cfg, w, j);
    }
  }

  /** With ticks at least an interval apart, the store holds a batch of the history, under the number of
      whole intervals before its time and with its bytes, exactly if it is the latest or not older than
      StoreMultiplier flush intervals. */
  lemma StoreHoldsIff(cfg: Settings, t0: nat, events: seq<Event>, i: nat)
    requires cfg.interval > 0 && Bytes(events) < U64 && Spaced(HistoryOf(t0, events).batches, cfg.interval)
    requires i < |HistoryOf(t0, events).batches|
    ensures var s, h := Exec(cfg, Started(cfg, t0), events), HistoryOf(t0, events).batches;
            var k := Key(h[i].time / cfg.interval);
            && (k in s.items <==>
                  i == |h| - 1 || h[|h| - 1].time - h[i].time <= cfg.multiplier * cfg.flushInterval)
            && (k in s.items ==> s.items[k].value == h[i].bytes)
  {
    hide Exec, Record, Window, StoreOf;
    var batches := HistoryOf(t0, events).batches;
    SpacedApart(batches, cfg.interval);
    StoreIsWindow(cfg, t0, events);
    WindowStores(cfg, batches, i);
  }

  lemma MultipleAtMost(c: int, m: int, f: int)
    requires f > 0
    ensures c * f <= m * f <==> c <= m
  {
    assert c * f == f * c && m * f == f * m;
    if m < c {
      Scaled(m, c, f);
    } else if c < m {
      Scaled(c, m, f);
    }
  }

  /** Ticks exactly a flush interval apart, the latest c intervals ago. */
  lemma {:induction false} InTimeExact(cfg: Settings, batches: seq<Batch>, now: int, c: nat)
    requires cfg.flushInterval > 0
    requires forall i :: 0 <= i < |batches| - 1 ==> batches[i + 1].time == batches[i].time + cfg.flushInterval
    requires batches != [] ==> now == batches[|batches| - 1].time + c * cfg.flushInterval
    requires c + |batches| > cfg.multiplier
    ensures |InTime(cfg, batches, now)| == if c <= cfg.multiplier then cfg.multiplier - c + 1 else 0
    decreases |batches|
  {
    if batches == [] {
      assert c > cfg.multiplier;
    } else {
      var n := |batches| - 1;
      if n > 0 {
        assert batches[n - 1 + 1].time == batches[n - 1].time + cfg.flushInterval;
        assert (c + 1) * cfg.flushInterval == c * cfg.flushInterval + cfg.flushInterval;
      }
      InTimeExact(cfg, batches[..n], now, c + 1);
      MultipleAtMost(c, cfg.multiplier, cfg.flushInterval);
    }
  }

  /** The bound is reached: with FlushInterval equal to Interval, ticks exactly that far apart and at
      least StoreMultiplier + 1 batches, the store holds exactly StoreMultiplier + 1 buckets. */
  lemma FullStore(cfg: Settings, t0: nat, events: seq<Event>)
    requires cfg.interval == cfg.flushInterval > 0 && cfg.multiplier >= 0 && Bytes(events) < U64
    requires var batches := HistoryOf(t0, events).batches;
             && |batches| >= cfg.multiplier + 1
             && forall i :: 0 <= i < |batches| - 1 ==> batches[i + 1].time == batches[i].time + cfg.interval
    ensures |Exec(cfg, Started(cfg, t0), events).items| == cfg.multiplier + 1
  {
    hide Exec, Record, StoreOf;
    var batches := HistoryOf(t0, events).batches;
    var n := |batches| - 1;
    SpacedApart(batches, cfg.interval);
    StoreIsWindow(cfg, t0, events);
    if n > 0 {
      assert batches[n - 1 + 1].time == batches[n - 1].time + cfg.interval;
    }
    InTimeExact(cfg, batches[..n], batches[n].time, 1);
    WindowApart(cfg, batches, cfg.interval);
    StoreExact(cfg, Window(cfg, batches));
  }

  lemma ApartSoFar(h: History, events: seq<Event>, gap: int)
    requires Apart(Record(h, events).batches, gap)
    ensures Apart(h.batches, gap)
  {
    RecordPrefix(h, events);
    var all := Record(h, events).batches;
    assert h.batches == all[..|h.batches|];
  }

  /** A regular tick overwrites nothing. */
  lemma TickLosesNothing(cfg: Settings, s: State, h: History, now: nat, sum: nat, lost: nat, purged: nat)
      returns (more: nat)
    requires cfg.interval > 0 && Tracks(cfg, s, h) && Ledger(s, sum, lost, purged)
    requires Apart(Observe(h, Ticked(now)).batches, cfg.interval)
    ensures Overwritten(cfg, s, now) == 0
    ensures Tracks(cfg, Tick(cfg, s, now), Observe(h, Ticked(now))) && Ledger(Tick(cfg, s, now), sum, lost, more)
  {
    hide Tick, SumItems, StoreOf, Window, Ledger, Apart;
    KeyIsFresh(cfg, h.batches, Batch(now, h.pending));
    more := TickLedger(cfg, s, now, sum, lost, purged);
    TickTracks(cfg, s, h, now);
  }

  lemma CountTracks(cfg: Settings, s: State, h: History, bytes: nat, sum: nat, lost: nat, purged: nat)
    requires cfg.interval > 0 && Tracks(cfg, s, h) && Ledger(s, sum, lost, purged) && sum + bytes < U64
    ensures Tracks(cfg, Increment(s, bytes), Observe(h, Counted(bytes)))
    ensures Ledger(Increment(s, bytes), sum + bytes, lost, purged)
  {
    hide SumItems, StoreOf, Window;
  }

  /** Regular ticks never meet a bucket that is still in the store. */
  lemma {:induction false} NothingLost(
    cfg: Settings, s: State, h: History, events: seq<Event>, sum: nat, lost: nat, purged: nat)
    requires cfg.interval > 0 && Tracks(cfg, s, h) && Apart(Record(h, events).batches, cfg.interval)
    requires Ledger(s, sum, lost, purged) && sum + Bytes(events) < U64
    ensures Lost(cfg, s, events) == 0
    decreases |events|
  {
    hide Tick, Increment, Tracks, Ledger, Apart, Observe, Overwritten;
    if events != [] {
      var next := Observe(h, events[0]);
      match events[0] {
        case Ticked(now) =>
          ApartSoFar(next, events[1..], cfg.interval);
          var more := TickLosesNothing(cfg, s, h, now, sum, lost, purged);
          NothingLost(cfg, Tick(cfg, s, now), next, events[1..], sum, lost, more);
        case Counted(bytes) =>
          CountTracks(cfg, s, h, bytes, sum, lost, purged);
          NothingLost(cfg, Increment(s, bytes), next, events[1..], sum + bytes, lost, purged);
      }
    }
  }

  lemma KeyIsFresh(cfg: Settings, batches: seq<Batch>, b: Batch)
    requires cfg.interval > 0 && batches != [] && Apart(batches + [b], cfg.interval)
    ensures BucketOf(cfg, b.time) !in StoreOf(cfg, Window(cfg, batches))
    ensures batches[|batches| - 1].time <= b.time
  {
    var n := |batches| - 1;
    assert (batches + [b])[n] == batches[n] && (batches + [b])[n + 1] == b;
    assert forall i :: 0 <= i < |batches| ==> (batches + [b])[i] == batches[i];
    assert Apart(batches, cfg.interval);
    InTimeApart(cfg, batches[..n], batches[n].time, cfg.interval, batches[n].time);
    FreshKey(cfg, Window(cfg, batches), b.time);
  }

  /** The cached average refines a sliding window: with FlushInterval equal to Interval and ticks at
      least one Interval apart, the cached total is the sum of the window of the history, the store
      has one entry per batch of it, and "over" compares exactly the window and the running count
      with the limit. */
  lemma SlidingWindow(cfg: Settings, t0: nat, events: seq<Event>)
    requires cfg.interval == cfg.flushInterval > 0 && Bytes(events) < U64
    requires Spaced(HistoryOf(t0, events).batches, cfg.interval)
    ensures var s, h := Exec(cfg, Started(cfg, t0), events), HistoryOf(t0, events);
            var w := Window(cfg, h.batches);
            && s.total == SumBytes(w) && |s.items| == |w| && s.count == h.pending
            && (Over(cfg, s) <==> SumBytes(w) + h.pending >= (cfg.limit + 1) * (|w| + 1))
  {
    hide Exec, SumItems, Record, Lost, Bytes, Window, SumBytes, StoreOf, Over, Tracks, Ledger, Wrap;
    var s, h := Exec(cfg, Started(cfg, t0), events), HistoryOf(t0, events);
    SpacedApart(h.batches, cfg.interval);
    RegularTotal(cfg, t0, events);
    WindowApart(cfg, h.batches, cfg.interval);
    StoreExact(cfg, Window(cfg, h.batches));
    OverIff(cfg, s);
  }

  /** With regular ticks the cached total is the sum of the store, which is the window. */
  lemma RegularTotal(cfg: Settings, t0: nat, events: seq<Event>)
    requires cfg.interval > 0 && Bytes(events) < U64 && Apart(HistoryOf(t0, events).batches, cfg.interval)
    ensures var s, h := Exec(cfg, Started(cfg, t0), events), HistoryOf(t0, events);
            && s.items == StoreOf(cfg, Window(cfg, h.batches)) && s.count == h.pending
            && s.total == SumItems(s.items) && s.total + s.count < U64
  {
    hide Exec, Record, SumItems, StoreOf, Window;
    var start := History([Batch(t0, 0)], 0);
    StartLedger(cfg, t0);
    StartTracks(cfg, t0);
    var more := RunLedger(cfg, Started(cfg, t0), events, 0, 0, 0);
    RunTracks(cfg, Started(cfg, t0), start, events, 0, 0, 0);
    NothingLost(cfg, Started(cfg, t0), start, events, 0, 0, 0);
  }
}
