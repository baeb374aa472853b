/** The broker together with its rate limiters: every rule has a limiter, a verdict is what that
    limiter answers, an acknowledged message is counted by all limiters of its target, and ticks are
    steps of their own, at any time. */
module BrokerLimits {
  import opened Common
  import opened Sums
  import opened Broker
  import opened BrokerInvariant
  import opened BrokerDoom
  import opened BrokerCycles
  import opened BrokerDrain
  import L = Limiter
  import A = Admission

  /** A broker's configuration and the limiter settings of every target's rules. */
  datatype Setup = Setup(broker: Config, limits: seq<seq<L.Settings>>)

  datatype System = System(broker: State, limiters: seq<seq<L.State>>, clock: nat)

  datatype Event = Move(action: Action) | Fire(target: Name, rule: nat, now: nat)

  /** Init starts a limiter's ticker only if the interval is long enough; its error is ignored. */
  predicate Ticking(limit: L.Settings) { limit.interval >= L.MILLISECOND }

  /** Each rule has settings, and its limit is a uint64. */
  ghost predicate Matches(u: Setup) {
    && |u.limits| == |u.broker.targets|
    && (forall t :: 0 <= t < |u.limits| ==> |u.limits[t]| == |u.broker.targets[t]|)
    && (forall t, r :: 0 <= t < |u.limits| && 0 <= r < |u.limits[t]| ==> u.limits[t][r].limit < U64)
  }

  ghost predicate Fit(u: Setup, s: System) {
    && Matches(u) && Shaped(u.broker, s.broker) && |s.limiters| == |u.limits|
    && forall t :: 0 <= t < |u.limits| ==> |s.limiters[t]| == |u.limits[t]|
  }

  function Fresh(limit: L.Settings, t0: nat): L.State {
    if Ticking(limit) then L.UpdateKey(limit, L.NEW, t0) else L.NEW
  }

  function Start(u: Setup, t0: nat): System {
    System(Init(u.broker),
           seq(|u.limits|, t requires 0 <= t < |u.limits| =>
                 seq(|u.limits[t]|, r requires 0 <= r < |u.limits[t]| => Fresh(u.limits[t][r], t0))),
           t0)
  }

  predicate OverAt(u: Setup, s: System, t: Name, r: nat)
    requires t < |u.limits| == |s.limiters| && r < |u.limits[t]| == |s.limiters[t]|
  {
    L.Over(u.limits[t][r], s.limiters[t][r])
  }

  /** Connector c is about to look at a rule. */
  ghost predicate Asks(u: Setup, s: System, c: Name)
    requires Fit(u, s)
  {
    c < |s.broker.connectors| && s.broker.connectors[c].CLimiting? && s.broker.connectors[c].rule < |u.limits[c]|
  }

  /** The verdict of a check is the limiter's. */
  ghost predicate Honest(u: Setup, s: System, a: Action)
    requires Fit(u, s)
  {
    a.Connector? && a.conAct.Check? && Asks(u, s, a.connector) ==>
      (a.conAct.verdict.Under? <==> !OverAt(u, s, a.connector, s.broker.connectors[a.connector].rule))
  }

  function ChargeRow(row: seq<L.State>, bytes: nat): seq<L.State> {
    seq(|row|, r requires 0 <= r < |row| => L.Increment(row[r], bytes))
  }

  /** A message's size is the length of its payload. */
  function Charged(s: System, a: Action): seq<seq<L.State>> {
    if a.Connector? && a.conAct == Await(true) && a.connector < |s.broker.connectors| && a.connector < |s.limiters|
       && s.broker.connectors[a.connector].CAwaiting?
    then
      var bytes := |s.broker.connectors[a.connector].parcel.msg.sourceMessage|;
      s.limiters[a.connector := ChargeRow(s.limiters[a.connector], bytes)]
    else s.limiters
  }

  function SetLimiter(s: System, t: nat, r: nat, limiter: L.State, now: nat): System
    requires t < |s.limiters| && r < |s.limiters[t]|
  {
    s.(limiters := s.limiters[t := s.limiters[t][r := limiter]], clock := now)
  }

  ghost function Next(u: Setup, s: System, e: Event): (r: Option<System>)
    requires Fit(u, s)
    ensures r.Some? ==> Fit(u, r.value)
  {
    match e
    case Move(a) =>
      var b := Step(u.broker, s.broker, a);
      if b.None? || !Honest(u, s, a) then None else Some(s.(broker := b.value, limiters := Charged(s, a)))
    case Fire(t, r, now) =>
      if t < |u.limits| && r < |u.limits[t]| && Ticking(u.limits[t][r]) && now >= s.clock
      then Some(SetLimiter(s, t, r, L.Tick(u.limits[t][r], s.limiters[t][r], now), now))
      else None
  }

  ghost function Exec(u: Setup, s: System, events: seq<Event>): (r: Option<System>)
    requires Fit(u, s)
    ensures r.Some? ==> Fit(u, r.value)
    decreases |events|
  {
    if events == [] then Some(s)
    else
      var next := Next(u, s, events[0]);
      if next.None? then None else Exec(u, next.value, events[1..])
  }

  /** The broker's own steps. */
  function Moves(events: seq<Event>): seq<Action>
    decreases |events|
  {
    if events == [] then []
    else if events[0].Move? then [events[0].action] + Moves(events[1..])
    else Moves(events[1..])
  }

  // ----- Rules that never decide -----

  /** What a limiter's load has to reach for it to be over: after Init it always has a bucket. */
  function Capacity(limit: L.Settings): nat { if Ticking(limit) then 2 * (limit.limit + 1) else limit.limit + 1 }

  /** A rule that acts, by a limiter that never ticks. */
  predicate Frozen(u: Setup, t: nat, r: nat)
    requires t < |u.limits| && t < |u.broker.targets| && |u.limits[t]| == |u.broker.targets[t]| && r < |u.limits[t]|
  {
    !u.broker.targets[t][r].Unhandled? && !Ticking(u.limits[t][r])
  }

  /** An earlier rule that acts stands before rule r, both have limiters that never tick, and so
      count the same, and the earlier limit is not larger. */
  predicate Shadowed(u: Setup, t: nat, r: nat)
    requires t < |u.limits| && t < |u.broker.targets| && |u.limits[t]| == |u.broker.targets[t]| && r < |u.limits[t]|
  {
    !Ticking(u.limits[t][r]) &&
    exists q :: 0 <= q < r && Frozen(u, t, q) && u.limits[t][q].limit <= u.limits[t][r].limit
  }

  /** Rule r of target t can never decide. */
  predicate Dead(u: Setup, t: nat, r: nat)
    requires t < |u.limits| && t < |u.broker.targets| && |u.limits[t]| == |u.broker.targets[t]| && r < |u.limits[t]|
  {
    Capacity(u.limits[t][r]) >= U64 || Shadowed(u, t, r)
  }

  function LiveRules(u: Setup, t: nat): (rules: seq<Breach>)
    requires t < |u.limits| && t < |u.broker.targets| && |u.limits[t]| == |u.broker.targets[t]|
    ensures |rules| == |u.broker.targets[t]|
  {
    seq(|u.limits[t]|, r requires 0 <= r < |u.limits[t]| => if Dead(u, t, r) then Unhandled else u.broker.targets[t][r])
  }

  /** The configuration with the rules left that can decide. */
  ghost function Live(u: Setup): (cfg: Config)
    requires Matches(u)
    ensures |cfg.targets| == |u.broker.targets| && cfg.sources == u.broker.sources && cfg.workers == u.broker.workers
  {
    u.broker.(targets := seq(|u.limits|, t requires 0 <= t < |u.limits| => LiveRules(u, t)))
  }

  // ----- What limiters keep -----

  /** A limiter that ticks always has a bucket, one that does not has none. */
  predicate Tame(limit: L.Settings, x: L.State) {
    if Ticking(limit) then x.key.Some? && x.key.value in x.items else x.key.None? && x.items == map[] && x.total == 0
  }

  /** Limiters of one target that never tick have counted the same. */
  ghost predicate SameCounts(u: Setup, s: System)
    requires Fit(u, s)
  {
    forall t, q, r :: 0 <= t < |u.limits| && 0 <= q < |u.limits[t]| && 0 <= r < |u.limits[t]| &&
                      !Ticking(u.limits[t][q]) && !Ticking(u.limits[t][r]) ==>
                        s.limiters[t][q].count == s.limiters[t][r].count
  }

  ghost predicate AllTame(u: Setup, s: System)
    requires Fit(u, s)
  {
    forall t, r :: 0 <= t < |u.limits| && 0 <= r < |u.limits[t]| ==> Tame(u.limits[t][r], s.limiters[t][r])
  }

  /** The message at c has got past rule q. */
  predicate Past(s: System, c: nat, q: nat)
    requires c < |s.broker.connectors|
  {
    s.broker.connectors[c].CLimiting? && q < s.broker.connectors[c].rule
  }

  /** A message that has got past a rule with a limiter that never ticks has found it not over, and
      it still is not. */
  ghost predicate PassedUnder(u: Setup, s: System)
    requires Fit(u, s)
  {
    forall c, q ::
      0 <= c < |s.broker.connectors| && 0 <= q < |u.limits[c]| && Past(s, c, q) && Frozen(u, c, q) ==>
        !OverAt(u, s, c, q)
  }

  ghost predicate Kept(u: Setup, s: System)
    requires Fit(u, s)
  {
    AllTame(u, s) && SameCounts(u, s) && PassedUnder(u, s)
  }

  lemma StartKept(u: Setup, t0: nat)
    requires Matches(u)
    ensures Fit(u, Start(u, t0)) && Kept(u, Start(u, t0))
  {
  }

  lemma TickTame(limit: L.Settings, x: L.State, now: nat)
    requires Ticking(limit) && Tame(limit, x)
    ensures Tame(limit, L.Tick(limit, x, now))
  {
    hide L.SumItems, Wrap;
  }

  /** What a tick leaves alone. */
  lemma FireLeaves(u: Setup, s: System, e: Event, t: nat, r: nat)
    requires Fit(u, s) && e.Fire? && Next(u, s, e).Some? && t < |u.limits| && r < |u.limits[t]|
    ensures Next(u, s, e).value.broker == s.broker
    ensures t != e.target || r != e.rule ==> Next(u, s, e).value.limiters[t][r] == s.limiters[t][r]
    ensures !Ticking(u.limits[t][r]) ==> Next(u, s, e).value.limiters[t][r] == s.limiters[t][r]
    ensures Tame(u.limits[t][r], s.limiters[t][r]) ==> Tame(u.limits[t][r], Next(u, s, e).value.limiters[t][r])
  {
    if t == e.target && r == e.rule && Tame(u.limits[t][r], s.limiters[t][r]) {
      TickTame(u.limits[t][r], s.limiters[t][r], e.now);
    }
  }

  lemma FireKept(u: Setup, s: System, e: Event)
    requires Fit(u, s) && Kept(u, s) && e.Fire? && Next(u, s, e).Some?
    ensures Kept(u, Next(u, s, e).value)
  {
    hide Next, Tame, L.Over;
    var n := Next(u, s, e).value;
    forall t, r | 0 <= t < |u.limits| && 0 <= r < |u.limits[t]|
      ensures Tame(u.limits[t][r], n.limiters[t][r]) && n.broker == s.broker
      ensures !Ticking(u.limits[t][r]) ==> n.limiters[t][r] == s.limiters[t][r]
    {
      FireLeaves(u, s, e, t, r);
    }
  }

  /** What a step of the broker does to a limiter. */
  lemma MoveCharges(u: Setup, s: System, a: Action, t: nat, r: nat)
    requires Fit(u, s) && Next(u, s, Move(a)).Some? && t < |u.limits| && r < |u.limits[t]|
    ensures var x := Next(u, s, Move(a)).value.limiters[t][r];
            if a == Connector(t, Await(true)) then
              s.broker.connectors[t].CAwaiting? &&
              x == L.Increment(s.limiters[t][r], |s.broker.connectors[t].parcel.msg.sourceMessage|)
            else x == s.limiters[t][r]
  {
  }

  lemma MoveTame(u: Setup, s: System, a: Action)
    requires Fit(u, s) && Kept(u, s) && Next(u, s, Move(a)).Some?
    ensures AllTame(u, Next(u, s, Move(a)).value) && SameCounts(u, Next(u, s, Move(a)).value)
  {
    hide Next, Wrap;
    var n := Next(u, s, Move(a)).value;
    forall t, r | 0 <= t < |u.limits| && 0 <= r < |u.limits[t]|
      ensures Tame(u.limits[t][r], n.limiters[t][r])
    {
      MoveCharges(u, s, a, t, r);
    }
    forall t, q, r | 0 <= t < |u.limits| && 0 <= q < |u.limits[t]| && 0 <= r < |u.limits[t]| &&
                     !Ticking(u.limits[t][q]) && !Ticking(u.limits[t][r])
      ensures n.limiters[t][q].count == n.limiters[t][r].count
    {
      MoveCharges(u, s, a, t, q);
      MoveCharges(u, s, a, t, r);
    }
  }

  /** Where a message can be among the rules: at the first one, where it was, or past one that has
      just let it pass. */
  lemma MoveRule(u: Setup, s: System, a: Action, c: nat)
    requires Fit(u, s) && Next(u, s, Move(a)).Some? && c < |s.broker.connectors|
    requires Next(u, s, Move(a)).value.broker.connectors[c].CLimiting?
    ensures var now, was := Next(u, s, Move(a)).value.broker.connectors[c], s.broker.connectors[c];
            || now.rule == 0 || now == was
            || (was.CLimiting? && now.rule == was.rule + 1 && was.rule < |u.limits[c]|
                && (u.broker.targets[c][was.rule].Unhandled? || !OverAt(u, s, c, was.rule)))
    ensures a != Connector(c, Await(true))
  {
    hide L.Over, SourceStep, WorkerStep, ConnectorStep;
    match a
    case Source(i, b) => SourceLeaves(u.broker, s.broker, i, b);
    case Worker(w, b) => WorkerLeavesRules(s.broker, w, b, c);
    case Connector(d, b) => ConnectorRule(u.broker, s.broker, d, b, c);
    case Main(_) =>
  }

  lemma WorkerLeavesRules(s: State, w: nat, a: WorkerAct, c: nat)
    requires w < |s.workers| && WorkerStep(s, w, a).Some? && c < |s.connectors|
    ensures WorkerStep(s, w, a).value.connectors[c].CLimiting? ==>
              WorkerStep(s, w, a).value.connectors[c] == s.connectors[c]
  {
  }

  lemma ConnectorRule(cfg: Config, s: State, d: nat, a: ConnectorAct, c: nat)
    requires Shaped(cfg, s) && d < |s.connectors| && ConnectorStep(cfg, s, d, a).Some? && c < |s.connectors|
    requires ConnectorStep(cfg, s, d, a).value.connectors[c].CLimiting?
    ensures var now, was := ConnectorStep(cfg, s, d, a).value.connectors[c], s.connectors[c];
            || now.rule == 0 || (c != d && now == was)
            || (c == d && was.CLimiting? && now.rule == was.rule + 1 && was.rule < |cfg.targets[c]|
                && a.Check? && (cfg.targets[c][was.rule].Unhandled? || a.verdict.Under?))
    ensures a != Await(true) || c != d
  {
  }

  lemma MovePassed(u: Setup, s: System, a: Action)
    requires Fit(u, s) && Kept(u, s) && Next(u, s, Move(a)).Some?
    ensures PassedUnder(u, Next(u, s, Move(a)).value)
  {
    hide Next, L.Over;
    var n := Next(u, s, Move(a)).value;
    forall c, q | 0 <= c < |n.broker.connectors| && 0 <= q < |u.limits[c]| && Past(n, c, q) && Frozen(u, c, q)
      ensures !OverAt(u, n, c, q)
    {
      MoveRule(u, s, a, c);
      MoveCharges(u, s, a, c, q);
    }
  }

  lemma NextKept(u: Setup, s: System, e: Event)
    requires Fit(u, s) && Kept(u, s) && Next(u, s, e).Some?
    ensures Kept(u, Next(u, s, e).value)
  {
    hide AllTame, SameCounts, PassedUnder, Next;
    if e.Move? {
      MoveTame(u, s, e.action);
      MovePassed(u, s, e.action);
    } else {
      FireKept(u, s, e);
    }
  }

  // ----- Projections -----

  /** A limiter that is over has reached its capacity. */
  lemma OverReaches(limit: L.Settings, x: L.State)
    requires Tame(limit, x) && L.Over(limit, x)
    ensures Capacity(limit) < U64
  {
    var load, n := Wrap(x.total + x.count), |x.items| + 1;
    if Ticking(limit) {
      assert x.items.Keys != {};
      assert n >= 2;
      L.MeanAbove(load, n, limit.limit);
      L.Scaled(1, n, limit.limit + 1);
    } else {
      L.MeanAbove(load, n, limit.limit);
    }
  }

  /** A rule that is over, where the message has come to it, can decide. */
  lemma AskedIsLive(u: Setup, s: System, c: nat)
    requires Fit(u, s) && Kept(u, s) && Asks(u, s, c) && OverAt(u, s, c, s.broker.connectors[c].rule)
    ensures !Dead(u, c, s.broker.connectors[c].rule)
  {
    hide L.Over;
    var r := s.broker.connectors[c].rule;
    assert Tame(u.limits[c][r], s.limiters[c][r]);
    OverReaches(u.limits[c][r], s.limiters[c][r]);
    if q :| 0 <= q < r && Frozen(u, c, q) && !Ticking(u.limits[c][r]) && u.limits[c][q].limit <= u.limits[c][r].limit {
      assert Past(s, c, q);
      assert Tame(u.limits[c][q], s.limiters[c][q]);
      SameOver(u.limits[c][q], s.limiters[c][q], u.limits[c][r], s.limiters[c][r]);
    }
  }

  lemma SameOver(small: L.Settings, x: L.State, large: L.Settings, y: L.State)
    requires Tame(small, x) && Tame(large, y) && !Ticking(small) && !Ticking(large) && x.count == y.count
    requires small.limit <= large.limit && L.Over(large, y)
    ensures L.Over(small, x)
  {
    assert |x.items| == 0 && |y.items| == 0;
  }

  /** To the broker, the rules that can never decide are not there. */
  lemma LiveStep(u: Setup, s: System, a: Action)
    requires Fit(u, s) && Kept(u, s) && Honest(u, s, a)
    ensures Shaped(Live(u), s.broker) && Step(Live(u), s.broker, a) == Step(u.broker, s.broker, a)
  {
    hide L.Over, SourceStep, WorkerStep, MainStep, Kept;
    match a
    case Source(i, b) => LiveSource(u, s, i, b);
    case Worker(_, _) =>
    case Connector(c, b) =>
      if b.Check? && Asks(u, s, c) {
        LiveCheck(u, s, c, b.verdict);
      } else if c < |s.broker.connectors| {
        LiveOther(u, s, c, b);
      }
    case Main(_) =>
  }

  lemma LiveSource(u: Setup, s: System, i: nat, a: SourceAct)
    requires Fit(u, s)
    ensures i < |s.broker.sources| ==> SourceStep(Live(u), s.broker, i, a) == SourceStep(u.broker, s.broker, i, a)
  {
  }

  lemma LiveCheck(u: Setup, s: System, c: nat, v: Verdict)
    requires Fit(u, s) && Kept(u, s) && Honest(u, s, Connector(c, Check(v))) && Asks(u, s, c)
    ensures ConnectorStep(Live(u), s.broker, c, Check(v)) == ConnectorStep(u.broker, s.broker, c, Check(v))
  {
    hide L.Over, Kept;
    if !v.Under? {
      AskedIsLive(u, s, c);
    }
  }

  lemma LiveOther(u: Setup, s: System, c: nat, a: ConnectorAct)
    requires Fit(u, s) && c < |s.broker.connectors| && (a.Check? ==> !Asks(u, s, c))
    ensures ConnectorStep(Live(u), s.broker, c, a) == ConnectorStep(u.broker, s.broker, c, a)
  {
  }

  /** Whatever its limiters do, the broker goes through a run of its own, and through the same run of
      the configuration without the rules that can never decide. */
  lemma {:induction false} ExecProjects(u: Setup, s: System, events: seq<Event>)
    requires Fit(u, s) && Kept(u, s) && Exec(u, s, events).Some?
    ensures Shaped(Live(u), s.broker) && Kept(u, Exec(u, s, events).value)
    ensures Run(u.broker, s.broker, Moves(events)) == Some(Exec(u, s, events).value.broker)
    ensures Run(Live(u), s.broker, Moves(events)) == Some(Exec(u, s, events).value.broker)
    decreases |events|
  {
    hide Kept, Step, Honest, Live, L.Tick;
    if events != [] {
      var next := Next(u, s, events[0]).value;
      NextKept(u, s, events[0]);
      ExecProjects(u, next, events[1..]);
      if events[0].Move? {
        LiveStep(u, s, events[0].action);
        assert Moves(events)[1..] == Moves(events[1..]);
      }
    }
  }

  /** `s` is where some interleaving of broker and tickers leads from the start. */
  ghost predicate Came(u: Setup, t0: nat, events: seq<Event>, s: System)
    requires Matches(u)
  {
    Fit(u, Start(u, t0)) && Exec(u, Start(u, t0), events) == Some(s)
  }

  lemma CameReached(u: Setup, t0: nat, events: seq<Event>, s: System)
    requires Matches(u) && Came(u, t0, events, s)
    ensures Fit(u, s) && Kept(u, s)
    ensures Reached(u.broker, Moves(events), s.broker) && Reached(Live(u), Moves(events), s.broker)
  {
    hide Kept, Exec, Run;
    StartKept(u, t0);
    ExecProjects(u, Start(u, t0), events);
    assert Init(Live(u)) == Init(u.broker);
  }

  // ----- Draining with real verdicts -----

  predicate FaultlessEvent(e: Event) { e.Move? ==> Faultless(e.action) }

  ghost predicate AllOk(events: seq<Event>) { forall k :: 0 <= k < |events| ==> FaultlessEvent(events[k]) }

  predicate AcceptingEvent(e: Event) { e.Move? && Accepting(e.action) }

  ghost predicate NoneAccepts(events: seq<Event>) { forall k :: 0 <= k < |events| ==> !AcceptingEvent(events[k]) }

  lemma {:induction false} MovesOk(events: seq<Event>)
    ensures AllOk(events) ==> AllFaultless(Moves(events))
    ensures NoneAccepts(events) ==> NoneAccepting(Moves(events))
    decreases |events|
  {
    if events != [] {
      MovesOk(events[1..]);
    }
  }

  /** Nothing but a failure or a new message can move the broker; its limiters may still tick. */
  ghost predicate Halted(u: Setup, s: System)
    requires Fit(u, s)
  {
    forall a :: Faultless(a) && !Accepting(a) ==> Next(u, s, Move(a)).None?
  }

  /** Whichever way the limiter answers, there is a step. */
  lemma SomeVerdict(u: Setup, s: System, a: Action) returns (b: Action)
    requires Fit(u, s) && Kept(u, s) && Faultless(a) && !Accepting(a)
    requires Shaped(Live(u), s.broker) && Step(Live(u), s.broker, a).Some?
    ensures Faultless(b) && !Accepting(b) && Next(u, s, Move(b)).Some?
    ensures b == a || (a.Connector? && a.conAct.Check? && b.Connector? && b.conAct.Check? && b.connector == a.connector)
  {
    hide Kept, L.Over;
    b := a;
    if !Honest(u, s, a) {
      var over := OverAt(u, s, a.connector, s.broker.connectors[a.connector].rule);
      b := Connector(a.connector, Check(if over then Over else Under));
    } else {
      LiveStep(u, s, a);
    }
  }

  /** Progress with the verdicts of the limiters: unless it is doomed, a broker that has deliveries in
      flight, or has been stopped and has not returned, has a step without a failure. */
  lemma ProgressLive(u: Setup, t0: nat, before: seq<Event>, s: System) returns (b: Action)
    requires Matches(u) && Came(u, t0, before, s) && !Doomed(s.broker)
    requires s.broker.waitGroup > 0 || (s.broker.sourceStop && !s.broker.main.Returned?)
    ensures Fit(u, s) && Faultless(b) && !Accepting(b) && Next(u, s, Move(b)).Some?
  {
    hide Kept, Exec, Run, Inv, Doomed, Next;
    CameReached(u, t0, before, s);
    ReachedInv(Live(u), Moves(before), s.broker);
    var a := Progress(Live(u), s.broker);
    b := SomeVerdict(u, s, a);
  }

  lemma HaltedIsStuck(u: Setup, s: System)
    requires Fit(u, s) && Kept(u, s) && Halted(u, s)
    ensures Shaped(Live(u), s.broker) && Stuck(Live(u), s.broker)
  {
    hide Kept, Next, Step;
    forall a | Faultless(a) && !Accepting(a)
      ensures !Enabled(Live(u), s.broker, a)
    {
      if Enabled(Live(u), s.broker, a) {
        var b := SomeVerdict(u, s, a);
      }
    }
  }

  /** Drain without deadlock, limiters included: as DrainCompletes, but only rules that can decide
      count as fallbacks, and the ticks may come at any time. */
  lemma DrainCompletesLive(u: Setup, t0: nat, before: seq<Event>, s: System, events: seq<Event>, t: System)
      returns (bound: nat)
    requires Matches(u) && Named(Live(u)) && !ListsCycle(Live(u)) && u.broker.workers >= 1
    requires Came(u, t0, before, s) && AllOk(before) && s.broker.sourceStop
    requires Fit(u, s) && AllOk(events) && NoneAccepts(events) && Exec(u, s, events) == Some(t)
    ensures forall more :: AllOk(more) && NoneAccepts(more) && Exec(u, s, more).Some? ==> |Moves(more)| <= bound
    ensures Fit(u, t)
    ensures Halted(u, t) ==> t.broker.main.Returned? && t.broker.waitGroup == 0
    ensures Halted(u, t) ==> forall o :: Owed(t.broker, o) ==>
              exists k: nat :: SettledOnceAt(t.broker, o, k) && !t.broker.outcomes[k].result.Unacknowledged?
  {
    hide Kept, Exec, Run, ListsCycle, Halted, Stuck, Named, Owed, SettledOnceAt;
    CameReached(u, t0, before, s);
    MovesOk(before);
    MovesOk(events);
    ExecProjects(u, s, events);
    bound := DrainCompletes(Live(u), Moves(before), s.broker, Moves(events), t.broker);
    forall more | AllOk(more) && NoneAccepts(more) && Exec(u, s, more).Some?
      ensures |Moves(more)| <= bound
    {
      MovesOk(more);
      ExecProjects(u, s, more);
    }
    if Halted(u, t) {
      HaltedIsStuck(u, t);
    }
  }

  /** With real verdicts connectors are only ever blocked in a ring where some source lists a target
      from which rules that can decide lead into a cycle. */
  lemma RingHasLiveCycle(u: Setup, t0: nat, events: seq<Event>, s: System, d: set<nat>)
    requires Matches(u) && Came(u, t0, events, s) && Ring(s.broker, d)
    ensures ListsCycle(Live(u))
  {
    hide Kept, Exec, Run, ListsCycle, Ring;
    CameReached(u, t0, events, s);
    ReachedInv(Live(u), Moves(events), s.broker);
    RingHasCycle(Live(u), s.broker, d);
  }

  // ----- One function seen twice: checks one by one, and handleRateLimiting -----

  /** The rules of target c as Admission has them. */
  function RulesOf(u: Setup, s: System, c: nat): seq<A.Rule>
    requires c < |u.limits| == |s.limiters| && c < |u.broker.targets|
    requires |u.limits[c]| == |u.broker.targets[c]| == |s.limiters[c]|
  {
    seq(|u.limits[c]|, r requires 0 <= r < |u.limits[c]| =>
          A.Rule(u.limits[c][r], s.limiters[c][r], u.broker.targets[c][r]))
  }

  /** Checks by the verdicts of the limiters, from the rule at hand. */
  lemma {:induction false} ChecksDecide(u: Setup, s: System, c: nat, n: nat)
      returns (events: seq<Event>, t: System)
    requires Fit(u, s) && c < |s.broker.connectors| && s.broker.connectors[c].CLimiting?
    requires s.broker.connectors[c].rule <= n <= |u.limits[c]|
    requires forall r :: s.broker.connectors[c].rule <= r < n ==> !A.Breached(RulesOf(u, s, c)[r])
    ensures Exec(u, s, events) == Some(t) && t.limiters == s.limiters
    ensures t.broker == SetConnector(s.broker, c, CLimiting(s.broker.connectors[c].parcel, n))
    ensures n < |u.limits[c]| && A.Breached(RulesOf(u, s, c)[n]) ==>
              Next(u, t, Move(Connector(c, Check(Over)))).Some?
    decreases n - s.broker.connectors[c].rule
  {
    hide L.Over;
    var r := s.broker.connectors[c].rule;
    if r == n {
      events, t := [], s;
    } else {
      var e := Move(Connector(c, Check(if OverAt(u, s, c, r) then Over else Under)));
      var next := Next(u, s, e).value;
      assert !A.Breached(RulesOf(u, s, c)[r]);
      assert next.broker == SetConnector(s.broker, c, CLimiting(s.broker.connectors[c].parcel, r + 1));
      assert RulesOf(u, next, c) == RulesOf(u, s, c);
      var more;
      more, t := ChecksDecide(u, next, c, n);
      events := [e] + more;
      assert events[1..] == more;
    }
  }
}
