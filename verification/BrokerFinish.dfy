/** Which stopped brokers can still finish, with the verdicts of their limiters. A limiter that ticks
    can forget everything but its residue: what its total has kept of buckets that were overwritten. */
module BrokerFinish {
  import opened Common
  import opened Sums
  import opened Broker
  import opened BrokerInvariant
  import opened BrokerDoom
  import opened BrokerCycles
  import opened BrokerDrain
  import opened BrokerLimits
  import L = Limiter

  // ----- Two ticks clear a limiter -----

  ghost function Residue(x: L.State): nat { Wrap(x.total - L.SumItems(x.items)) }

  /** After all that the store knows of. */
  predicate Later(limit: L.Settings, items: map<L.Key, L.Item>, now: nat)
    requires limit.interval > 0
  {
    forall k :: k in items ==> k.bucket < now / limit.interval && items[k].expires < now
  }

  lemma {:induction false} SomeLater(limit: L.Settings, items: map<L.Key, L.Item>, from: nat) returns (now: nat)
    requires limit.interval > 0
    ensures now >= from && Later(limit, items, now)
    decreases |items|
  {
    if k :| k in items {
      var before := SomeLater(limit, items - {k}, from);
      var bucket, expires := if k.bucket > 0 then k.bucket else 0, if items[k].expires > 0 then items[k].expires else 0;
      now := before + expires + 1 + (bucket + 1) * limit.interval;
      MuchLater(before + expires + 1, bucket, limit.interval);
      forall j | j in items
        ensures j.bucket < now / limit.interval && items[j].expires < now
      {
        if j != k {
          assert j in items - {k};
          QuotientGrows(before, now, limit.interval);
        }
      }
    } else {
      now := from;
    }
  }

  lemma QuotientGrows(a: nat, b: nat, n: nat)
    requires n > 0 && a <= b
    ensures a / n <= b / n
  {
    L.Quotient(a, n);
    L.Quotient(b, n);
    if b / n < a / n {
      L.Scaled(b / n, a / n, n);
    }
  }

  lemma MuchLater(a: nat, bucket: nat, n: nat)
    requires n > 0
    ensures (a + (bucket + 1) * n) / n > bucket && a <= a + (bucket + 1) * n
  {
    QuotientGrows((bucket + 1) * n, a + (bucket + 1) * n, n);
    L.Quotient((bucket + 1) * n, n);
    var q := (bucket + 1) * n / n;
    if q < bucket + 1 {
      L.Scaled(q, bucket + 1, n);
    }
  }

  /** A tick later than everything in the store leaves one bucket, with the running count. */
  lemma LateTick(limit: L.Settings, x: L.State, now: nat)
    requires Ticking(limit) && Later(limit, x.items, now)
    ensures var y := L.Tick(limit, x, now);
            && y.count == 0 && y.key == Some(L.KeyAt(limit, now))
            && y.items == map[L.KeyAt(limit, now) := L.Item(Wrap(x.count), L.Expiry(limit, now))]
            && y.total == Wrap(Wrap(x.total - L.SumItems(x.items)) + Wrap(x.count))
  {
    hide L.SumItems, Wrap;
    var u := L.UpdateKey(limit, x, now);
    var k := L.KeyAt(limit, now);
    assert k !in x.items;
    assert L.Purged(u, now) == x.items;
    assert L.Kept(u, now) == map[k := L.Item(0, L.Expiry(limit, now))];
    assert L.Purge(u, now).items[k].value + x.count == x.count;
  }

  /** What is left of a limiter that has been cleared. */
  ghost predicate Cleared(x: L.State, y: L.State) {
    && y.total == Residue(x) && y.count == 0 && |y.items| == 1 && L.SumItems(y.items) == 0
    && y.key.Some? && y.key.value in y.items
  }

  lemma ClearLimiter(limit: L.Settings, x: L.State, from: nat) returns (first: nat, second: nat)
    requires Ticking(limit)
    ensures from <= first <= second && Cleared(x, L.Tick(limit, L.Tick(limit, x, first), second))
  {
    hide L.SumItems, L.Tick, Wrap;
    first := SomeLater(limit, x.items, from);
    LateTick(limit, x, first);
    var y := L.Tick(limit, x, first);
    second := SomeLater(limit, y.items, first);
    LateTick(limit, y, second);
    OneItem(L.KeyAt(limit, first), y.items[L.KeyAt(limit, first)]);
    OneItem(L.KeyAt(limit, second), L.Item(Wrap(0), L.Expiry(limit, second)));
    ForgetsCount(x.total - L.SumItems(x.items), x.count);
  }

  lemma OneItem(k: L.Key, item: L.Item)
    ensures L.SumItems(map[k := item]) == item.value && |map[k := item]| == 1
  {
    L.SumRemove(map[k := item], k);
    L.SumNone(map[k := item] - {k});
  }

  lemma ForgetsCount(a: int, count: nat)
    ensures Wrap(0) == 0
    ensures Wrap(Wrap(Wrap(Wrap(a) + Wrap(count)) - Wrap(count)) + 0) == Wrap(a)
  {
    var b, c := Wrap(a), Wrap(count);
    if b + c < U64 {
      assert Wrap(b + c) == b + c;
    } else {
      assert Wrap(b + c) == b + c - U64;
      assert Wrap(b - U64) == b;
    }
    assert Wrap(b) == b;
  }

  /** A limiter can be brought to be not over: it ticks, and its residue alone is below capacity. */
  ghost predicate Clearable(limit: L.Settings, x: L.State) {
    Ticking(limit) && Residue(x) < 2 * (limit.limit + 1)
  }

  lemma ClearedKeeps(limit: L.Settings, x: L.State, y: L.State)
    requires Cleared(x, y)
    ensures Residue(y) == Residue(x)
    ensures Clearable(limit, x) ==> Clearable(limit, y) && !L.Over(limit, y)
  {
    assert Wrap(Residue(x)) == Residue(x);
    if Clearable(limit, x) {
      L.MeanAbove(Residue(x), 2, limit.limit);
    }
  }

  /** Increments leave the residue alone. */
  lemma IncrementKeeps(x: L.State, bytes: nat)
    ensures Residue(L.Increment(x, bytes)) == Residue(x)
  {
  }

  // ----- Runs of broker and tickers -----

  lemma {:induction false} ExecJoin(u: Setup, s: System, first: seq<Event>, second: seq<Event>)
    requires Fit(u, s) && Exec(u, s, first).Some?
    ensures Exec(u, s, first + second) == Exec(u, Exec(u, s, first).value, second)
    decreases |first|
  {
    hide Next;
    if first == [] {
      assert first + second == second;
    } else {
      assert (first + second)[1..] == first[1..] + second;
      ExecJoin(u, Next(u, s, first[0]).value, first[1..], second);
    }
  }

  lemma ExecOne(u: Setup, s: System, e: Event)
    requires Fit(u, s) && Next(u, s, e).Some?
    ensures Exec(u, s, [e]) == Next(u, s, e)
  {
    hide Next;
    assert [e][1..] == [];
    assert Exec(u, Next(u, s, e).value, []) == Next(u, s, e);
  }

  /** Limiter r of target t ticks twice, which clears it. */
  lemma ClearRule(u: Setup, s: System, t: nat, r: nat) returns (events: seq<Event>, n: System)
    requires Fit(u, s) && t < |u.limits| && r < |u.limits[t]| && Ticking(u.limits[t][r])
    ensures Exec(u, s, events) == Some(n) && AllOk(events) && NoneAccepts(events) && n.broker == s.broker
    ensures Cleared(s.limiters[t][r], n.limiters[t][r])
    ensures n.limiters == s.limiters[t := s.limiters[t][r := n.limiters[t][r]]]
  {
    hide L.Tick, Cleared, Exec;
    var first, second := ClearLimiter(u.limits[t][r], s.limiters[t][r], s.clock);
    var e, f := Fire(t, r, first), Fire(t, r, second);
    var m := Next(u, s, e).value;
    n := Next(u, m, f).value;
    assert m.limiters[t][r] == L.Tick(u.limits[t][r], s.limiters[t][r], first);
    assert n.limiters[t][r] == L.Tick(u.limits[t][r], m.limiters[t][r], second);
    assert n.limiters[t] == s.limiters[t][r := n.limiters[t][r]];
    ExecOne(u, s, e);
    ExecOne(u, m, f);
    ExecJoin(u, s, [e], [f]);
    events := [e] + [f];
  }

  // ----- Finishing -----

  /** Every rule that acts has a limiter that can be cleared. */
  ghost predicate AllClearable(u: Setup, s: System)
    requires Fit(u, s)
  {
    forall t, r :: 0 <= t < |u.limits| && 0 <= r < |u.limits[t]| && !u.broker.targets[t][r].Unhandled? ==>
                     Clearable(u.limits[t][r], s.limiters[t][r])
  }

  lemma MoveKeepsClearable(u: Setup, s: System, a: Action)
    requires Fit(u, s) && AllClearable(u, s) && Next(u, s, Move(a)).Some?
    ensures AllClearable(u, Next(u, s, Move(a)).value)
  {
    hide Next, Residue;
    var n := Next(u, s, Move(a)).value;
    forall t, r | 0 <= t < |u.limits| && 0 <= r < |u.limits[t]| && !u.broker.targets[t][r].Unhandled?
      ensures Clearable(u.limits[t][r], n.limiters[t][r])
    {
      MoveCharges(u, s, a, t, r);
      if a == Connector(t, Await(true)) {
        IncrementKeeps(s.limiters[t][r], |s.broker.connectors[t].parcel.msg.sourceMessage|);
      }
    }
  }

  lemma ClearKeepsClearable(u: Setup, s: System, n: System, t: nat, r: nat)
    requires Fit(u, s) && Fit(u, n) && AllClearable(u, s) && t < |u.limits| && r < |u.limits[t]|
    requires n.limiters == s.limiters[t := s.limiters[t][r := n.limiters[t][r]]]
    requires Cleared(s.limiters[t][r], n.limiters[t][r])
    ensures AllClearable(u, n)
  {
    hide Cleared, Clearable;
    ClearedKeeps(u.limits[t][r], s.limiters[t][r], n.limiters[t][r]);
  }

  /** An easy step of the broker, made with the verdict of its limiter: a rule that is over is
      cleared first, or does not act. */
  lemma EasyMove(u: Setup, s: System, a: Action) returns (events: seq<Event>, t: System)
    requires Fit(u, s) && AllClearable(u, s) && Easy(a) && Step(u.broker, s.broker, a).Some?
    ensures Exec(u, s, events) == Some(t) && t.broker == Step(u.broker, s.broker, a).value && AllClearable(u, t)
  {
    hide Clearable, L.Over, Exec, AllClearable;
    var m, before, b := s, [], a;
    assert Exec(u, s, []) == Some(s) by { ExecNone(u, s); }
    if !Honest(u, s, a) {
      var c := a.connector;
      var r := s.broker.connectors[c].rule;
      assert a.conAct.verdict.Under? && OverAt(u, s, c, r) by { EasyVerdict(a); }
      if u.broker.targets[c][r].Unhandled? {
        b := Connector(c, Check(Over));
      } else {
        RuleClearable(u, s, c, r);
        before, m := ClearRule(u, s, c, r);
        ClearKeepsClearable(u, s, m, c, r);
        ClearedKeeps(u.limits[c][r], s.limiters[c][r], m.limiters[c][r]);
      }
    }
    assert Honest(u, m, b);
    assert Step(u.broker, m.broker, b) == Step(u.broker, s.broker, a);
    t := Next(u, m, Move(b)).value;
    MoveKeepsClearable(u, m, b);
    ExecOne(u, m, Move(b));
    ExecJoin(u, s, before, [Move(b)]);
    events := before + [Move(b)];
  }

  lemma ExecNone(u: Setup, s: System)
    requires Fit(u, s)
    ensures Exec(u, s, []) == Some(s)
  {
  }

  lemma EasyVerdict(a: Action)
    requires Easy(a) && a.Connector? && a.conAct.Check?
    ensures a.conAct.verdict.Under?
  {
  }

  lemma RuleClearable(u: Setup, s: System, t: nat, r: nat)
    requires Fit(u, s) && AllClearable(u, s) && t < |u.limits| && r < |u.limits[t]|
    requires !u.broker.targets[t][r].Unhandled?
    ensures Clearable(u.limits[t][r], s.limiters[t][r]) && Ticking(u.limits[t][r])
  {
  }

  /** Unless the broker is doomed, deliveries past cleared limiters lead to the end. */
  lemma {:induction false} WayOut(u: Setup, wt: seq<nat>, s: System) returns (events: seq<Event>)
    requires Fit(u, s) && AllClearable(u, s) && Fits(u.broker, wt)
    requires Inv(u.broker, s.broker) && !Doomed(s.broker) && s.broker.sourceStop
    ensures Exec(u, s, events).Some? && Exec(u, s, events).value.broker.main.Returned?
    decreases Work(wt, s.broker)
  {
    hide Balanced, Sound, Phased, Doomed, Work, Step, AllClearable, Exec;
    ExecNone(u, s);
    if s.broker.main.Returned? {
      events := [];
    } else {
      var a := Progress(u.broker, s.broker);
      StepInv(u.broker, s.broker, a);
      EasyKeepsHope(u.broker, s.broker, a);
      StepWorks(u.broker, wt, s.broker, a);
      StopStaysOne(u.broker, s.broker, a);
      var first, t := EasyMove(u, s, a);
      var rest := WayOut(u, wt, t);
      ExecJoin(u, s, first, rest);
      events := first + rest;
    }
  }

  lemma StopStaysOne(cfg: Config, s: State, a: Action)
    requires Shaped(cfg, s) && s.sourceStop && Step(cfg, s, a).Some?
    ensures Step(cfg, s, a).value.sourceStop
  {
  }

  /** A run leads from s to the end of Broker.Start. */
  ghost predicate CanFinish(u: Setup, s: System)
    requires Fit(u, s)
  {
    exists events :: Exec(u, s, events).Some? && Exec(u, s, events).value.broker.main.Returned?
  }

  lemma DoomedCannotFinish(u: Setup, s: System)
    requires Fit(u, s) && Kept(u, s) && Inv(u.broker, s.broker) && Doomed(s.broker)
    ensures !CanFinish(u, s)
  {
    hide Kept, Inv, Doomed, Run, Exec;
    forall events | Exec(u, s, events).Some?
      ensures !Exec(u, s, events).value.broker.main.Returned?
    {
      ExecProjects(u, s, events);
      DoomedForever(u.broker, s.broker, Moves(events));
    }
  }

  /** With any configuration, whatever has failed and however the limiters have ticked: a stopped broker
      whose acting limiters can be cleared can still finish exactly when it is not doomed. */
  lemma CanFinishIff(u: Setup, t0: nat, before: seq<Event>, s: System)
    requires Matches(u) && Came(u, t0, before, s) && s.broker.sourceStop && Fit(u, s) && AllClearable(u, s)
    ensures CanFinish(u, s) <==> !Doomed(s.broker)
  {
    hide Inv, Exec, Run, Doomed, AllClearable, Kept;
    CameReached(u, t0, before, s);
    ReachedInv(u.broker, Moves(before), s.broker);
    if Doomed(s.broker) {
      DoomedCannotFinish(u, s);
    } else {
      var events := WayOut(u, LightWeights(u.broker), s);
    }
  }

  /** In particular, if nothing has failed: exactly when every message at a source has a worker to take
      it and no connectors are blocked in a ring. */
  lemma CanFinishIffNoRing(u: Setup, t0: nat, before: seq<Event>, s: System)
    requires Matches(u) && Named(u.broker) && Came(u, t0, before, s) && AllOk(before) && s.broker.sourceStop
    requires Fit(u, s) && AllClearable(u, s)
    ensures CanFinish(u, s) <==> !Unattended(s.broker) && NoRing(s.broker)
  {
    hide Inv, Healthy, Exec, Doomed, AllClearable, Kept, Unattended, NoRing, Named;
    CameReached(u, t0, before, s);
    MovesOk(before);
    InitInv(u.broker);
    InitHealthy(u.broker);
    RunHealthy(u.broker, Init(u.broker), Moves(before));
    HealthyDoom(u.broker, s.broker);
    CanFinishIff(u, t0, before, s);
  }

  // ----- Ticks that overwrite nothing -----

  /** No tick comes in a bucket that its store still has. */
  ghost predicate Regular(u: Setup, s: System, events: seq<Event>)
    requires Fit(u, s)
    decreases |events|
  {
    events != [] && Next(u, s, events[0]).Some? ==>
      && (events[0].Fire? ==>
            var Fire(t, r, now) := events[0]; L.KeyAt(u.limits[t][r], now) !in s.limiters[t][r].items)
      && Regular(u, Next(u, s, events[0]).value, events[1..])
  }

  ghost predicate NoResidue(u: Setup, s: System)
    requires Fit(u, s)
  {
    forall t, r :: 0 <= t < |u.limits| && 0 <= r < |u.limits[t]| ==> Residue(s.limiters[t][r]) == 0
  }

  /** A tick in a new bucket leaves the residue alone. */
  lemma NewBucketKeeps(limit: L.Settings, x: L.State, now: nat)
    requires Ticking(limit) && L.KeyAt(limit, now) !in x.items
    ensures Residue(L.Tick(limit, x, now)) == Residue(x)
  {
    hide L.SumItems, Wrap;
    var u := L.UpdateKey(limit, x, now);
    var k := L.KeyAt(limit, now);
    L.SumUpdate(x.items, k, L.Item(0, L.Expiry(limit, now)));
    var p := L.Purge(u, now);
    L.SumSplit(u.items, L.Purged(u, now), L.Kept(u, now));
    var value := Wrap(p.items[k].value + p.count);
    L.SumUpdate(p.items, k, p.items[k].(value := value));
    SumsAgree(x.total, L.SumItems(u.items), L.SumItems(L.Purged(u, now)), L.SumItems(p.items), value);
  }

  lemma SumsAgree(total: nat, all: nat, purged: nat, left: nat, value: nat)
    requires all == purged + left && value < U64
    ensures Wrap(Wrap(Wrap(total - purged) + value) - (left + value)) == Wrap(total - all)
  {
    WrapAdd(total - purged, value);
    WrapAdd(total - purged + value, -(left + value));
  }

  lemma WrapAdd(a: int, b: int)
    ensures Wrap(Wrap(a) + b) == Wrap(a + b)
  {
  }

  lemma NextNoResidue(u: Setup, s: System, e: Event)
    requires Fit(u, s) && NoResidue(u, s) && Next(u, s, e).Some?
    requires e.Fire? ==> L.KeyAt(u.limits[e.target][e.rule], e.now) !in s.limiters[e.target][e.rule].items
    ensures NoResidue(u, Next(u, s, e).value)
  {
    hide Residue, L.Tick;
    var n := Next(u, s, e).value;
    forall t, r | 0 <= t < |u.limits| && 0 <= r < |u.limits[t]|
      ensures Residue(n.limiters[t][r]) == 0
    {
      if e.Move? {
        MoveCharges(u, s, e.action, t, r);
        if e.action == Connector(t, Await(true)) {
          IncrementKeeps(s.limiters[t][r], |s.broker.connectors[t].parcel.msg.sourceMessage|);
        }
      } else if t == e.target && r == e.rule {
        NewBucketKeeps(u.limits[t][r], s.limiters[t][r], e.now);
      }
    }
  }

  lemma {:induction false} RegularNoResidue(u: Setup, s: System, events: seq<Event>)
    requires Fit(u, s) && NoResidue(u, s) && Regular(u, s, events) && Exec(u, s, events).Some?
    ensures NoResidue(u, Exec(u, s, events).value)
    decreases |events|
  {
    hide NoResidue, Next;
    if events != [] {
      NextNoResidue(u, s, events[0]);
      RegularNoResidue(u, Next(u, s, events[0]).value, events[1..]);
    }
  }

  lemma StartNoResidue(u: Setup, t0: nat)
    requires Matches(u) && Fit(u, Start(u, t0))
    ensures NoResidue(u, Start(u, t0))
  {
    forall t, r | 0 <= t < |u.limits| && 0 <= r < |u.limits[t]|
      ensures Residue(Start(u, t0).limiters[t][r]) == 0
    {
      L.SumNone(map[]);
      if Ticking(u.limits[t][r]) {
        OneItem(L.KeyAt(u.limits[t][r], t0), L.Item(0, L.Expiry(u.limits[t][r], t0)));
        assert L.UpdateKey(u.limits[t][r], L.NEW, t0).items ==
               map[L.KeyAt(u.limits[t][r], t0) := L.Item(0, L.Expiry(u.limits[t][r], t0))];
      }
    }
  }

  /** Every rule that acts has a limiter that ticks. */
  ghost predicate AllTick(u: Setup)
    requires Matches(u)
  {
    forall t, r :: 0 <= t < |u.limits| && 0 <= r < |u.limits[t]| && !u.broker.targets[t][r].Unhandled? ==>
                     Ticking(u.limits[t][r])
  }

  /** If every acting limiter ticks, and none twice in a bucket, they can all be cleared. */
  lemma RegularClearable(u: Setup, t0: nat, before: seq<Event>, s: System)
    requires Matches(u) && AllTick(u) && Came(u, t0, before, s) && Regular(u, Start(u, t0), before)
    ensures Fit(u, s) && NoResidue(u, s) && AllClearable(u, s)
  {
    hide Residue, Exec, Regular;
    StartNoResidue(u, t0);
    RegularNoResidue(u, Start(u, t0), before);
  }

  /** So then a stopped broker can still finish exactly when it is not doomed. */
  lemma RegularCanFinishIff(u: Setup, t0: nat, before: seq<Event>, s: System)
    requires Matches(u) && AllTick(u) && Came(u, t0, before, s) && Regular(u, Start(u, t0), before)
    requires s.broker.sourceStop
    ensures Fit(u, s) && (CanFinish(u, s) <==> !Doomed(s.broker))
  {
    hide Exec, Regular, AllClearable, Doomed;
    RegularClearable(u, t0, before, s);
    CanFinishIff(u, t0, before, s);
  }
}
