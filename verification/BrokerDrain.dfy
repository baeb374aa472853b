/** Draining the broker after the sources stop accepting: with no failing target, a broker whose sources
    cannot lead into a cycle of fallback rules always finishes. */
module BrokerDrain {
  import opened Common
  import opened Sums
  import opened Broker
  import opened BrokerInvariant
  import opened BrokerDoom
  import opened BrokerCycles

  // ----- Steps and states of a faultless run -----

  /** Every step but a failing codec, a failing target connection and a missing acknowledgement.
      Sources may fail at any time. */
  predicate Faultless(a: Action) {
    && (a.Worker? ==> a.wrkAct != Decode(false))
    && (a.Connector? ==>
          a.conAct !in {Open(false), Parse(false), Check(OverUnmarshallable), Write(false), Await(false)})
  }

  predicate Accepting(a: Action) { a.Source? && a.srcAct.Accept? }

  /** Every target a source lists and every fallback target exists. */
  ghost predicate Named(cfg: Config) {
    && (forall i, j :: 0 <= i < |cfg.sources| && 0 <= j < |cfg.sources[i]| ==> cfg.sources[i][j] < |cfg.targets|)
    && (forall t: Name, u: Name :: Edge(cfg, t, u) ==> u < |cfg.targets|)
  }

  predicate HealthyConnector(m: MainPc, pc: ConnectorPc) {
    && (pc.CClosed? ==> TargetStopClosed(m))
    && (pc.CUncounting? || pc.CReleasing? ==> !pc.dying)
  }

  predicate Healthy(s: State) {
    && s.leaks == []
    && (forall c :: 0 <= c < |s.connectors| ==> HealthyConnector(s.main, s.connectors[c]))
    && (forall k :: 0 <= k < |s.outcomes| ==> !s.outcomes[k].result.Unacknowledged?)
  }

  lemma WorkerHealthy(cfg: Config, s: State, w: nat, a: WorkerAct)
    requires Named(cfg) && Shaped(cfg, s) && Sound(cfg, s) && Healthy(s)
    requires w < |s.workers| && a != Decode(false) && WorkerStep(s, w, a).Some?
    ensures Healthy(WorkerStep(s, w, a).value)
  {
    var pc := s.workers[w];
    assert WorkerSound(s.accepted, pc);
    if a.FanOut? && pc.next < |pc.msg.targets| {
      assert pc.msg.targets[pc.next] < |cfg.targets|;
    }
  }

  lemma ConnectorHealthy(cfg: Config, s: State, c: nat, a: ConnectorAct)
    requires Named(cfg) && Shaped(cfg, s) && Healthy(s)
    requires c < |s.connectors| && Faultless(Connector(c, a)) && ConnectorStep(cfg, s, c, a).Some?
    ensures Healthy(ConnectorStep(cfg, s, c, a).value)
  {
    var pc := s.connectors[c];
    assert HealthyConnector(s.main, pc);
    if a.Check? {
      var rule := cfg.targets[c][pc.rule];
      assert rule.Fallback? ==> Edge(cfg, c, rule.target);
    }
  }

  lemma StepHealthy(cfg: Config, s: State, a: Action)
    requires Named(cfg) && Inv(cfg, s) && Healthy(s) && Faultless(a) && Step(cfg, s, a).Some?
    ensures Healthy(Step(cfg, s, a).value)
  {
    hide Balanced, WorkerStep, ConnectorStep;
    match a
    case Source(i, b) =>
    case Worker(w, b) => WorkerHealthy(cfg, s, w, b);
    case Connector(c, b) => ConnectorHealthy(cfg, s, c, b);
    case Main(b) =>
  }

  // ----- How much work is left -----

  function Weight(wt: seq<nat>, t: Name): nat { if t < |wt| then wt[t] else 0 }

  /** The work of delivering to each listed target. */
  function ListWork(wt: seq<nat>, targets: seq<Name>): nat {
    if targets == [] then 0 else Weight(wt, targets[0]) + 1 + ListWork(wt, targets[1..])
  }

  ghost function SourceWork(wt: seq<nat>): (nat, SourcePc) -> nat {
    (_, pc: SourcePc) => match pc
      case SConnecting => 2
      case SIdle => 1
      case SCounting(_, msg) => 6 + ListWork(wt, msg.targets)
      case SGrouping(_, msg) => 5 + ListWork(wt, msg.targets)
      case SHanding(_, msg) => 4 + ListWork(wt, msg.targets)
      case SClosed => 0
  }

  ghost function WorkerWork(wt: seq<nat>): (nat, WorkerPc) -> nat {
    (_, pc: WorkerPc) => match pc
      case WIdle => 1
      case WDecoding(_, msg) => 3 + ListWork(wt, msg.targets)
      case WFanning(_, msg, j) => if j <= |msg.targets| then 2 + ListWork(wt, msg.targets[j..]) else 0
      case WClosed => 0
  }

  ghost function ConnectorWork(wt: seq<nat>): (nat, ConnectorPc) -> nat {
    (c, pc: ConnectorPc) => match pc
      case CConnecting => 2
      case CIdle => 1
      case CParsing(_) => 1 + Weight(wt, c)
      case CLimiting(_, r) => if r <= Weight(wt, c) then Weight(wt, c) - r else 0
      case CBlocked(_, u) => 2 + Weight(wt, u)
      case CAwaiting(_) => 4
      case CUncounting(_, _) => 3
      case CReleasing(_, _) => 2
      case CClosed => 0
  }

  function MainWork(m: MainPc): nat {
    match m
    case WaitSources => 4
    case WaitWorkers => 3
    case WaitInFlight => 2
    case WaitTargets => 1
    case Returned => 0
  }

  ghost function Work(wt: seq<nat>, s: State): nat {
    Total(s.sources, SourceWork(wt)) + Total(s.workers, WorkerWork(wt)) + Total(s.connectors, ConnectorWork(wt))
    + MainWork(s.main) + One(!s.sourceStop)
  }

  /** A connector's weight pays for its own rules and steps. */
  predicate Fits(cfg: Config, wt: seq<nat>) {
    |wt| == |cfg.targets| && forall t :: 0 <= t < |wt| ==> wt[t] >= |cfg.targets[t]| + 10
  }

  /** Where messages can come, it also pays for the target it may fall back to. */
  ghost predicate Descends(cfg: Config, wt: seq<nat>) {
    |wt| == |cfg.targets| && forall t: Name, u: Name :: Reachable(cfg, t) && Edge(cfg, t, u) ==>
      wt[t] >= |cfg.targets[t]| + 10 + Weight(wt, u)
  }

  lemma SourceWorks(cfg: Config, wt: seq<nat>, s: State, i: nat, a: SourceAct)
    requires Shaped(cfg, s) && i < |s.sources| && SourceStep(cfg, s, i, a).Some? && !a.Accept?
    ensures Work(wt, SourceStep(cfg, s, i, a).value) < Work(wt, s)
  {
    hide Total;
    var t := SourceStep(cfg, s, i, a).value;
    TotalUpdate(s.sources, i, t.sources[i], SourceWork(wt));
    if a.HandTo? {
      TotalUpdate(s.workers, a.worker, t.workers[a.worker], WorkerWork(wt));
    }
  }

  lemma WorkerWorks(cfg: Config, wt: seq<nat>, s: State, w: nat, a: WorkerAct)
    requires Shaped(cfg, s) && Sound(cfg, s) && w < |s.workers| && WorkerStep(s, w, a).Some? && a != Decode(false)
    requires |wt| == |cfg.targets|
    ensures Work(wt, WorkerStep(s, w, a).value) < Work(wt, s)
  {
    hide Total;
    var pc, t := s.workers[w], WorkerStep(s, w, a).value;
    assert WorkerSound(s.accepted, pc);
    TotalUpdate(s.workers, w, t.workers[w], WorkerWork(wt));
    if a.Decode? {
      assert pc.msg.targets[0..] == pc.msg.targets;
    } else if a.FanOut? && pc.next < |pc.msg.targets| {
      assert pc.msg.targets[pc.next..][1..] == pc.msg.targets[pc.next + 1..];
      var u := pc.msg.targets[pc.next];
      if u < |s.connectors| {
        TotalUpdate(s.connectors, u, t.connectors[u], ConnectorWork(wt));
      }
    }
  }

  lemma ConnectorWorks(cfg: Config, wt: seq<nat>, s: State, c: nat, a: ConnectorAct)
    requires Shaped(cfg, s) && Sound(cfg, s) && c < |s.connectors| && ConnectorStep(cfg, s, c, a).Some?
    requires Faultless(Connector(c, a)) && Fits(cfg, wt) && (Descends(cfg, wt) || a != Check(Over))
    ensures Work(wt, ConnectorStep(cfg, s, c, a).value) < Work(wt, s)
  {
    hide Total, Sound, Routed, Reachable;
    if a.Resend? {
      ResendWorks(cfg, wt, s, c);
    } else if a == Check(Over) {
      OverWorks(cfg, wt, s, c);
    } else {
      var pc, t := s.connectors[c], ConnectorStep(cfg, s, c, a).value;
      RuleInRange(cfg, s, c);
      TotalUpdate(s.connectors, c, t.connectors[c], ConnectorWork(wt));
    }
  }

  lemma OverWorks(cfg: Config, wt: seq<nat>, s: State, c: nat)
    requires Shaped(cfg, s) && Sound(cfg, s) && c < |s.connectors| && ConnectorStep(cfg, s, c, Check(Over)).Some?
    requires Fits(cfg, wt) && Descends(cfg, wt)
    ensures Work(wt, ConnectorStep(cfg, s, c, Check(Over)).value) < Work(wt, s)
  {
    hide Total, Sound, Reachable;
    var pc, t := s.connectors[c], ConnectorStep(cfg, s, c, Check(Over)).value;
    CarrierReachable(cfg, s, c);
    var rule := cfg.targets[c][pc.rule];
    assert rule.Fallback? ==> Edge(cfg, c, rule.target);
    TotalUpdate(s.connectors, c, t.connectors[c], ConnectorWork(wt));
  }

  lemma RuleInRange(cfg: Config, s: State, c: nat)
    requires Shaped(cfg, s) && Sound(cfg, s) && c < |s.connectors|
    ensures s.connectors[c].CLimiting? ==> s.connectors[c].rule <= |cfg.targets[c]|
  {
    assert ConnectorSound(cfg, s.accepted, c, s.connectors[c]);
  }

  lemma ResendWorks(cfg: Config, wt: seq<nat>, s: State, c: nat)
    requires Shaped(cfg, s) && c < |s.connectors| && ConnectorStep(cfg, s, c, Resend).Some?
    ensures Work(wt, ConnectorStep(cfg, s, c, Resend).value) < Work(wt, s)
  {
    hide Total;
    var u, moved := s.connectors[c].to, s.connectors[c := CIdle];
    TotalUpdate(s.connectors, c, CIdle, ConnectorWork(wt));
    TotalUpdate(moved, u, CParsing(Forwarded(s.connectors[c].parcel, u)), ConnectorWork(wt));
  }

  /** Every step but accepting lowers the work left. */
  lemma StepWorks(cfg: Config, wt: seq<nat>, s: State, a: Action)
    requires Inv(cfg, s) && Faultless(a) && !Accepting(a) && Step(cfg, s, a).Some?
    requires Fits(cfg, wt) && (Descends(cfg, wt) || !a.Connector? || a.conAct != Check(Over))
    ensures Work(wt, Step(cfg, s, a).value) < Work(wt, s)
  {
    hide Balanced, SourceStep, WorkerStep, ConnectorStep;
    match a
    case Source(i, b) => SourceWorks(cfg, wt, s, i, b);
    case Worker(w, b) => WorkerWorks(cfg, wt, s, w, b);
    case Connector(c, b) => ConnectorWorks(cfg, wt, s, c, b);
    case Main(_) =>
  }

  // ----- Something can always move -----

  predicate Enabled(cfg: Config, s: State, a: Action)
    requires Shaped(cfg, s)
  {
    Step(cfg, s, a).Some?
  }

  /** A step that neither fails, nor accepts a message, nor finds a limiter over. */
  predicate Easy(a: Action) {
    Faultless(a) && !Accepting(a) && a != Main(RequestStop) && (a.Connector? ==> a.conAct != Check(Over))
  }

  predicate Resting(pc: ConnectorPc) { pc.CIdle? || pc.CClosed? }

  /** A connector that is neither resting nor blocked can move by itself. */
  lemma BusyConnectorMoves(cfg: Config, s: State, c: nat) returns (a: Action)
    requires Shaped(cfg, s) && c < |s.connectors| && !Resting(s.connectors[c]) && !s.connectors[c].CBlocked?
    ensures Easy(a) && Enabled(cfg, s, a)
  {
    match s.connectors[c]
    case CConnecting => a := Connector(c, Open(true));
    case CParsing(_) => a := Connector(c, Parse(true));
    case CLimiting(_, r) => a := Connector(c, if r < |cfg.targets[c]| then Check(Under) else Write(true));
    case CAwaiting(_) => a := Connector(c, Await(true));
    case CUncounting(_, _) => a := Connector(c, Uncount);
    case CReleasing(_, _) => a := Connector(c, Release);
  }

  /** Unless the broker is doomed, some blocked connector waits for one that may receive again. */
  lemma EndOfChain(s: State, c: nat) returns (k: nat)
    requires !Doomed(s) && c < |s.connectors| && s.connectors[c].CBlocked?
    ensures k < |s.connectors| && s.connectors[k].CBlocked?
    ensures s.connectors[k].to < |s.connectors| ==>
              !s.connectors[s.connectors[k].to].CBlocked? && !s.connectors[s.connectors[k].to].CClosed?
  {
    var d := set k | 0 <= k < |s.connectors| && (s.connectors[k].CBlocked? || s.connectors[k].CClosed?);
    assert c in d && !Traps(s, d);
    k :| k in d && !DeadEnd(s.connectors[k], d);
  }

  lemma BlockedConnectorMoves(cfg: Config, s: State, c: nat) returns (a: Action)
    requires Inv(cfg, s) && !Doomed(s)
    requires c < |s.connectors| && s.connectors[c].CBlocked?
    ensures Easy(a) && Enabled(cfg, s, a)
  {
    hide Balanced, Doomed;
    var k := EndOfChain(s, c);
    assert ConnectorSound(cfg, s.accepted, k, s.connectors[k]);
    var u := s.connectors[k].to;
    if Resting(s.connectors[u]) {
      a := Connector(k, Resend);
    } else {
      a := BusyConnectorMoves(cfg, s, u);
    }
  }

  /** A worker's next target that does not exist, or has closed, traps the broker. */
  lemma NextTargetTraps(s: State, w: nat) returns (d: set<nat>)
    requires WorkersSound(s.accepted, s.workers) && w < |s.workers| && s.workers[w].WFanning?
    requires s.workers[w].next < |s.workers[w].msg.targets|
    requires var u := s.workers[w].msg.targets[s.workers[w].next];
             u >= |s.connectors| || s.connectors[u].CClosed?
    ensures Traps(s, d)
  {
    var WFanning(id, msg, j) := s.workers[w];
    var o, u := Obligation(id, j), msg.targets[j];
    assert WorkerSound(s.accepted, s.workers[w]) && WorkerHas(s.workers[w], o);
    assert Waits(s, o);
    d := if u >= |s.connectors| then {} else {u};
    assert Hopeless(s, d, o);
  }

  /** Unless the broker is doomed, the next target of a worker exists and may receive again. */
  lemma NextTargetLives(s: State, w: nat)
    requires !Doomed(s) && WorkersSound(s.accepted, s.workers) && w < |s.workers| && s.workers[w].WFanning?
    requires s.workers[w].next < |s.workers[w].msg.targets|
    ensures var u := s.workers[w].msg.targets[s.workers[w].next];
            u < |s.connectors| && !s.connectors[u].CClosed?
  {
    hide Traps, WorkersSound;
    var u := s.workers[w].msg.targets[s.workers[w].next];
    if u >= |s.connectors| || s.connectors[u].CClosed? {
      var d := NextTargetTraps(s, w);
    }
  }

  lemma BusyWorkerMoves(cfg: Config, s: State, w: nat) returns (a: Action)
    requires Inv(cfg, s) && !Doomed(s)
    requires forall c :: 0 <= c < |s.connectors| ==> Resting(s.connectors[c])
    requires w < |s.workers| && !s.workers[w].WIdle? && !s.workers[w].WClosed?
    ensures Easy(a) && Enabled(cfg, s, a)
  {
    hide Balanced, Doomed;
    var pc := s.workers[w];
    if pc.WDecoding? {
      a := Worker(w, Decode(true));
    } else {
      a := Worker(w, FanOut);
      if pc.next < |pc.msg.targets| {
        NextTargetLives(s, w);
      }
    }
  }

  lemma BusySourceMoves(cfg: Config, s: State, i: nat) returns (a: Action)
    requires Inv(cfg, s) && !Unattended(s)
    requires forall w :: 0 <= w < |s.workers| ==> s.workers[w].WIdle? || s.workers[w].WClosed?
    requires i < |s.sources| && !s.sources[i].SClosed? && (s.sources[i].SIdle? ==> s.sourceStop)
    ensures Easy(a) && Enabled(cfg, s, a)
  {
    hide Balanced;
    match s.sources[i]
    case SConnecting => a := Source(i, Dial(true));
    case SIdle => a := Source(i, Quit);
    case SCounting(_, _) => a := Source(i, Count);
    case SGrouping(_, _) => a := Source(i, Group);
    case SHanding(_, _) => a := Source(i, HandTo(0));
  }

  lemma RestingMeansDrained(s: State)
    requires Balanced(s, Obligation(0, 0)) && AllLeaked(s) == 0 && AllSourcesClosed(s)
    requires forall c :: 0 <= c < |s.connectors| ==> Resting(s.connectors[c])
    requires forall w :: 0 <= w < |s.workers| ==> s.workers[w].WIdle? || s.workers[w].WClosed?
    ensures s.waitGroup == 0
  {
    TotalZero(s.sources, SourceGroups);
    TotalZero(s.workers, WorkerCounts);
    TotalZero(s.connectors, ConnectorGroups);
  }

  /** With every goroutine of the pipeline at rest, Broker.Start itself moves. */
  lemma MainMoves(cfg: Config, s: State) returns (a: Action)
    requires Inv(cfg, s) && AllLeaked(s) == 0 && AllSourcesClosed(s) && !s.main.Returned?
    requires forall c :: 0 <= c < |s.connectors| ==> Resting(s.connectors[c])
    requires forall w :: 0 <= w < |s.workers| ==> s.workers[w].WIdle? || s.workers[w].WClosed?
    ensures Easy(a) && Enabled(cfg, s, a)
  {
    hide Total, Sound, Balanced;
    if s.main.WaitSources? {
      a := Main(StopWorkers);
    } else if w :| 0 <= w < |s.workers| && s.workers[w].WIdle? {
      a := Worker(w, Leave);
    } else if s.main.WaitWorkers? {
      a := Main(AwaitInFlight);
    } else if s.main.WaitInFlight? {
      RestingMeansDrained(s);
      a := Main(CloseTargets);
    } else if c :| 0 <= c < |s.connectors| && s.connectors[c].CIdle? {
      a := Connector(c, Halt);
    } else {
      a := Main(Return);
    }
  }

  /** Progress: after Broker.Stop, or with deliveries in flight, a broker that is not doomed can take
      a step without a failure, whatever its limiters say and whatever has failed before. */
  lemma Progress(cfg: Config, s: State) returns (a: Action)
    requires Inv(cfg, s) && !Doomed(s)
    requires s.waitGroup > 0 || (s.sourceStop && !s.main.Returned?)
    ensures Easy(a) && Enabled(cfg, s, a)
  {
    assert Balanced(s, Obligation(0, 0));
    if c :| 0 <= c < |s.connectors| && s.connectors[c].CBlocked? {
      a := BlockedConnectorMoves(cfg, s, c);
    } else if c :| 0 <= c < |s.connectors| && !Resting(s.connectors[c]) {
      a := BusyConnectorMoves(cfg, s, c);
    } else if w :| 0 <= w < |s.workers| && !s.workers[w].WIdle? && !s.workers[w].WClosed? {
      a := BusyWorkerMoves(cfg, s, w);
    } else if i :| 0 <= i < |s.sources| && !s.sources[i].SClosed? && (s.sources[i].SIdle? ==> s.sourceStop) {
      a := BusySourceMoves(cfg, s, i);
    } else {
      if s.waitGroup > 0 {
        TotalZero(s.sources, SourceGroups);
        TotalZero(s.workers, WorkerCounts);
        TotalZero(s.connectors, ConnectorGroups);
      }
      a := MainMoves(cfg, s);
    }
  }

  // ----- Fallback rules without a cycle -----

  /** What a target costs when messages fall back at most k times from it. */
  ghost function Cost(cfg: Config, k: nat, t: Name): nat
    decreases k, 1, 0
  {
    if t >= |cfg.targets| then 0
    else |cfg.targets[t]| + 10 + (if k == 0 then 0 else RulesCost(cfg, k - 1, cfg.targets[t]))
  }

  ghost function RulesCost(cfg: Config, k: nat, rules: seq<Breach>): nat
    decreases k, 2, |rules|
  {
    if rules == [] then 0
    else (if rules[0].Fallback? then Cost(cfg, k, rules[0].target) else 0) + RulesCost(cfg, k, rules[1..])
  }

  lemma {:induction false} RulesCostAtLeast(cfg: Config, k: nat, rules: seq<Breach>, u: Name)
    requires Fallback(u) in rules
    ensures RulesCost(cfg, k, rules) >= Cost(cfg, k, u)
  {
    if rules[0] != Fallback(u) {
      RulesCostAtLeast(cfg, k, rules[1..], u);
    }
  }

  lemma {:induction false} RulesCostSame(cfg: Config, j: nat, k: nat, rules: seq<Breach>)
    requires forall u :: Fallback(u) in rules ==> Cost(cfg, j, u) == Cost(cfg, k, u)
    ensures RulesCost(cfg, j, rules) == RulesCost(cfg, k, rules)
  {
    if rules != [] {
      if rules[0].Fallback? {
        assert Fallback(rules[0].target) in rules;
      }
      RulesCostSame(cfg, j, k, rules[1..]);
    }
  }

  lemma {:induction false} RulesCostNone(cfg: Config, k: nat, rules: seq<Breach>)
    requires forall b :: b in rules ==> !b.Fallback?
    ensures RulesCost(cfg, k, rules) == 0
  {
    if rules != [] {
      RulesCostNone(cfg, k, rules[1..]);
    }
  }

  /** No chain from t has more than k hops. */
  ghost predicate Shallow(cfg: Config, k: nat, t: Name) {
    forall p :: FallbackPath(cfg, p) && |p| > 0 && p[0] == t ==> |p| <= k + 1
  }

  lemma ShallowNext(cfg: Config, k: nat, t: Name, u: Name)
    requires Shallow(cfg, k, t) && Edge(cfg, t, u)
    ensures k > 0 && Shallow(cfg, k - 1, u)
  {
    assert FallbackPath(cfg, [t, u]);
    forall p | FallbackPath(cfg, p) && |p| > 0 && p[0] == u
      ensures |p| <= k
    {
      var q := [t] + p;
      forall i | 0 <= i < |q| - 1
        ensures Edge(cfg, q[i], q[i + 1])
      {
        if i > 0 {
          assert Edge(cfg, p[i - 1], p[i]);
        }
      }
      assert FallbackPath(cfg, q);
    }
  }

  /** Past the longest chain, allowing one more hop changes no cost. */
  lemma {:induction false} CostSettles(cfg: Config, k: nat, t: Name)
    requires Shallow(cfg, k, t)
    ensures Cost(cfg, k, t) == Cost(cfg, k + 1, t)
    decreases k
  {
    if t < |cfg.targets| {
      var rules := cfg.targets[t];
      if k == 0 {
        forall b | b in rules
          ensures !b.Fallback?
        {
          if b.Fallback? {
            ShallowNext(cfg, k, t, b.target);
          }
        }
        RulesCostNone(cfg, 0, rules);
      } else {
        forall u | Fallback(u) in rules
          ensures Cost(cfg, k - 1, u) == Cost(cfg, k, u)
        {
          ShallowNext(cfg, k, t, u);
          CostSettles(cfg, k - 1, u);
        }
        RulesCostSame(cfg, k - 1, k, rules);
      }
    }
  }

  /** Rules by which no source can lead into a cycle admit weights that pay for every chain of fallbacks. */
  lemma WeightsExist(cfg: Config) returns (wt: seq<nat>)
    requires Named(cfg) && !ListsCycle(cfg)
    ensures Fits(cfg, wt) && Descends(cfg, wt)
  {
    hide Reachable, ListsCycle;
    var n := |cfg.targets|;
    wt := seq(n, t requires 0 <= t < n => Cost(cfg, n, t));
    forall t: Name, u: Name | Reachable(cfg, t) && Edge(cfg, t, u)
      ensures wt[t] >= |cfg.targets[t]| + 10 + Weight(wt, u)
    {
      ChainsAreShort(cfg, t);
      CostSettles(cfg, n, t);
      RulesCostAtLeast(cfg, n, cfg.targets[t], u);
    }
  }

  lemma ChainsAreShort(cfg: Config, t: Name)
    requires Named(cfg) && !ListsCycle(cfg) && Reachable(cfg, t) && t < |cfg.targets|
    ensures Shallow(cfg, |cfg.targets|, t)
  {
    hide Reachable, ListsCycle;
    forall p | FallbackPath(cfg, p) && |p| > 0 && p[0] == t
      ensures |p| <= |cfg.targets| + 1
    {
      forall k | 0 <= k < |p|
        ensures p[k] < |cfg.targets|
      {
        if k > 0 {
          assert Edge(cfg, p[k - 1], p[k - 1 + 1]);
        }
      }
      if |p| > |cfg.targets| {
        LongChain(cfg, t, p);
      }
    }
  }

  // ----- Whole runs -----

  ghost predicate AllFaultless(acts: seq<Action>) { forall k :: 0 <= k < |acts| ==> Faultless(acts[k]) }

  ghost predicate NoneAccepting(acts: seq<Action>) { forall k :: 0 <= k < |acts| ==> !Accepting(acts[k]) }

  lemma InitHealthy(cfg: Config)
    ensures Healthy(Init(cfg))
  {
  }

  lemma {:induction false} RunHealthy(cfg: Config, s: State, acts: seq<Action>)
    requires Named(cfg) && Inv(cfg, s) && Healthy(s) && AllFaultless(acts) && Run(cfg, s, acts).Some?
    ensures Inv(cfg, Run(cfg, s, acts).value) && Healthy(Run(cfg, s, acts).value)
    decreases |acts|
  {
    hide Balanced, Sound, Phased, Step, Healthy;
    if acts != [] {
      StepInv(cfg, s, acts[0]);
      StepHealthy(cfg, s, acts[0]);
      RunHealthy(cfg, Step(cfg, s, acts[0]).value, acts[1..]);
    }
  }

  /** A faultless run that accepts nothing is no longer than the work left at its start. */
  lemma {:induction false} RunsAreBounded(cfg: Config, wt: seq<nat>, s: State, acts: seq<Action>)
    requires Named(cfg) && Inv(cfg, s) && Fits(cfg, wt) && Descends(cfg, wt)
    requires AllFaultless(acts) && NoneAccepting(acts) && Run(cfg, s, acts).Some?
    ensures |acts| + Work(wt, Run(cfg, s, acts).value) <= Work(wt, s)
    decreases |acts|
  {
    hide Balanced, Sound, Phased, Step, Work;
    if acts != [] {
      StepInv(cfg, s, acts[0]);
      StepWorks(cfg, wt, s, acts[0]);
      RunsAreBounded(cfg, wt, Step(cfg, s, acts[0]).value, acts[1..]);
    }
  }

  /** Nothing but a failure or a new message can move the broker. */
  ghost predicate Stuck(cfg: Config, s: State)
    requires Shaped(cfg, s)
  {
    forall a :: Faultless(a) && !Accepting(a) ==> !Enabled(cfg, s, a)
  }

  /** Drain without deadlock: with fallback rules over existing targets by which no source can lead
      into a cycle, and at least one worker, take any state reached without a fault, in which
      Broker.Stop has been called. Every faultless continuation that accepts no more messages is
      bounded, and one that cannot go on has returned from Broker.Start with every accepted obligation
      delivered or discarded exactly once. */
  lemma DrainCompletes(cfg: Config, before: seq<Action>, s: State, acts: seq<Action>, t: State) returns (bound: nat)
    requires Named(cfg) && !ListsCycle(cfg) && cfg.workers >= 1
    requires Reached(cfg, before, s) && AllFaultless(before) && s.sourceStop
    requires AllFaultless(acts) && NoneAccepting(acts) && Run(cfg, s, acts) == Some(t)
    ensures forall more :: AllFaultless(more) && NoneAccepting(more) && Run(cfg, s, more).Some? ==> |more| <= bound
    ensures Stuck(cfg, t) ==> t.main.Returned? && t.waitGroup == 0
    ensures Stuck(cfg, t) ==> forall o :: Owed(t, o) ==>
              exists k: nat :: SettledOnceAt(t, o, k) && !t.outcomes[k].result.Unacknowledged?
  {
    hide Work, Step;
    InitInv(cfg);
    InitHealthy(cfg);
    RunHealthy(cfg, Init(cfg), before);
    var wt := WeightsExist(cfg);
    bound := Work(wt, s);
    forall more | AllFaultless(more) && NoneAccepting(more) && Run(cfg, s, more).Some?
      ensures |more| <= bound
    {
      RunsAreBounded(cfg, wt, s, more);
    }
    if Stuck(cfg, t) {
      RunHealthy(cfg, s, acts);
      StuckMeansReturned(cfg, s, acts, t);
      RunJoin(cfg, Init(cfg), before, acts);
      ShutdownSafety(cfg, before + acts, t);
    }
  }

  lemma StuckMeansReturned(cfg: Config, s: State, acts: seq<Action>, t: State)
    requires Named(cfg) && !ListsCycle(cfg) && cfg.workers >= 1
    requires Inv(cfg, s) && s.sourceStop && Run(cfg, s, acts) == Some(t)
    requires Inv(cfg, t) && Healthy(t) && Stuck(cfg, t)
    ensures t.main.Returned? && t.waitGroup == 0
  {
    hide Balanced, Sound, Healthy;
    StopStays(cfg, s, acts);
    if d :| Ring(t, d) {
      RingHasCycle(cfg, t, d);
    }
    HealthyDoom(cfg, t);
    if !t.main.Returned? {
      var a := Progress(cfg, t);
    }
  }

  lemma {:induction false} StopStays(cfg: Config, s: State, acts: seq<Action>)
    requires Shaped(cfg, s) && s.sourceStop && Run(cfg, s, acts).Some?
    ensures Run(cfg, s, acts).value.sourceStop
    decreases |acts|
  {
    if acts != [] {
      StopStays(cfg, Step(cfg, s, acts[0]).value, acts[1..]);
    }
  }

  lemma {:induction false} RunJoin(cfg: Config, s: State, first: seq<Action>, second: seq<Action>)
    requires Shaped(cfg, s) && Run(cfg, s, first).Some?
    ensures Run(cfg, s, first + second) == Run(cfg, Run(cfg, s, first).value, second)
    decreases |first|
  {
    hide Step;
    if first == [] {
      assert first + second == second;
    } else {
      assert (first + second)[1..] == first[1..] + second;
      RunJoin(cfg, Step(cfg, s, first[0]).value, first[1..], second);
    }
  }

  /** Where nothing has failed, what traps the broker is a ring. */
  lemma HealthyTrap(cfg: Config, s: State, d: set<nat>)
    requires Named(cfg) && Sound(cfg, s) && Shaped(cfg, s) && Healthy(s) && !TargetStopClosed(s.main) && Traps(s, d)
    ensures Ring(s, d)
  {
    hide Waits;
    forall c | c in d
      ensures s.connectors[c].CBlocked? && s.connectors[c].to in d
    {
      assert HealthyConnector(s.main, s.connectors[c]);
    }
    if o :| Waits(s, o) && Hopeless(s, d, o) {
      assert s.accepted[o.message].targets[o.entry] in d;
    }
  }

  lemma RingTraps(s: State, d: set<nat>)
    requires Ring(s, d)
    ensures Traps(s, d)
  {
    var c :| c in d;
    assert s.connectors[c].CBlocked?;
  }

  lemma HealthyDoom(cfg: Config, s: State)
    requires Named(cfg) && Inv(cfg, s) && Healthy(s)
    ensures Doomed(s) <==> Unattended(s) || !NoRing(s)
  {
    hide Balanced, Traps, Ring, Healthy, Phased;
    if Doomed(s) {
      DoomedMeansOpen(cfg, s);
      NoLeaks(s);
      if d :| Traps(s, d) {
        HealthyTrap(cfg, s, d);
      }
    }
    if d :| Ring(s, d) {
      RingTraps(s, d);
    }
  }

  lemma NoLeaks(s: State)
    requires Healthy(s)
    ensures AllLeaked(s) == 0
  {
  }

  // ----- Easy steps do not doom the broker -----

  /** An easy step turns no connector into a dead end that was not one. */
  lemma NewlyDead(cfg: Config, s: State, a: Action, d: set<nat>, c: nat)
    requires Shaped(cfg, s) && Easy(a) && Step(cfg, s, a).Some? && !TargetStopClosed(s.main)
    requires c < |s.connectors| && DeadEnd(Step(cfg, s, a).value.connectors[c], d)
    ensures DeadEnd(s.connectors[c], d)
    ensures Step(cfg, s, a).value.connectors[c].CBlocked? ==> s.connectors[c].CBlocked?
  {
    hide SourceStep, ConnectorStep;
    match a
    case Source(i, b) => SourceLeaves(cfg, s, i, b);
    case Connector(e, b) => ConnectorNewlyDead(cfg, s, e, b, d, c);
    case _ =>
  }

  lemma ConnectorNewlyDead(cfg: Config, s: State, e: nat, a: ConnectorAct, d: set<nat>, c: nat)
    requires Shaped(cfg, s) && Easy(Connector(e, a)) && e < |s.connectors| && ConnectorStep(cfg, s, e, a).Some?
    requires c < |s.connectors| && DeadEnd(ConnectorStep(cfg, s, e, a).value.connectors[c], d)
    requires !TargetStopClosed(s.main)
    ensures DeadEnd(s.connectors[c], d)
    ensures ConnectorStep(cfg, s, e, a).value.connectors[c].CBlocked? ==> s.connectors[c].CBlocked?
  {
  }

  lemma EasySourceWaits(cfg: Config, s: State, i: nat, a: SourceAct, o: Obligation)
    requires Shaped(cfg, s) && !a.Accept? && i < |s.sources| && SourceStep(cfg, s, i, a).Some?
    requires Waits(SourceStep(cfg, s, i, a).value, o)
    ensures Waits(s, o) && SourceStep(cfg, s, i, a).value.accepted == s.accepted
  {
    var t := SourceStep(cfg, s, i, a).value;
    if j :| 0 <= j < |t.sources| && SourceHas(t.sources[j], o) {
      assert SourceHas(s.sources[j], o);
    } else {
      var w :| 0 <= w < |t.workers| && WorkerHas(t.workers[w], o);
      if a.HandTo? && w == a.worker {
        assert SourceHas(s.sources[i], o);
      } else {
        assert WorkerHas(s.workers[w], o);
      }
    }
  }

  lemma EasyWorkerWaits(cfg: Config, s: State, w: nat, a: WorkerAct, o: Obligation)
    requires Shaped(cfg, s) && w < |s.workers| && WorkerStep(s, w, a).Some?
    requires Waits(WorkerStep(s, w, a).value, o)
    ensures Waits(s, o) && WorkerStep(s, w, a).value.accepted == s.accepted
  {
    var t := WorkerStep(s, w, a).value;
    if j :| 0 <= j < |t.sources| && SourceHas(t.sources[j], o) {
      assert SourceHas(s.sources[j], o);
    } else {
      var v :| 0 <= v < |t.workers| && WorkerHas(t.workers[v], o);
      assert WorkerHas(s.workers[v], o);
    }
  }

  lemma OthersAccepted(cfg: Config, s: State, a: Action)
    requires Shaped(cfg, s) && Step(cfg, s, a).Some? && (a.Connector? || a.Main?)
    ensures Step(cfg, s, a).value.accepted == s.accepted
  {
  }

  /** It leaves nothing waiting that was not. */
  lemma EasyWaits(cfg: Config, s: State, a: Action, d: set<nat>, o: Obligation)
    requires Shaped(cfg, s) && Easy(a) && Step(cfg, s, a).Some?
    requires Waits(Step(cfg, s, a).value, o) && Hopeless(Step(cfg, s, a).value, d, o)
    ensures Waits(s, o) && Hopeless(s, d, o)
  {
    hide Waits, SourceStep, WorkerStep, ConnectorStep, MainStep;
    match a
    case Source(i, b) => EasySourceWaits(cfg, s, i, b, o);
    case Worker(w, b) => EasyWorkerWaits(cfg, s, w, b, o);
    case _ =>
      OthersWait(cfg, s, a, o);
      OthersAccepted(cfg, s, a);
  }

  /** An easy step leaks only what a worker was about to send to a target that does not exist. */
  lemma EasyLeaks(cfg: Config, s: State, a: Action)
    requires Shaped(cfg, s) && Sound(cfg, s) && Easy(a) && Step(cfg, s, a).Some? && !Doomed(s)
    ensures AllLeaked(Step(cfg, s, a).value) == 0
  {
    if a.Worker? && s.workers[a.worker].WFanning? && s.workers[a.worker].next < |s.workers[a.worker].msg.targets| {
      NextTargetLives(s, a.worker);
    }
    assert Step(cfg, s, a).value.leaks == s.leaks;
  }

  lemma EasyTraps(cfg: Config, s: State, a: Action, d: set<nat>)
    requires Shaped(cfg, s) && Easy(a) && Step(cfg, s, a).Some? && !TargetStopClosed(s.main)
    requires Traps(Step(cfg, s, a).value, d)
    ensures Traps(s, d)
  {
    hide Waits, Hopeless, Step, DeadEnd;
    var t := Step(cfg, s, a).value;
    forall c | c in d
      ensures c < |s.connectors| && DeadEnd(s.connectors[c], d)
      ensures t.connectors[c].CBlocked? ==> s.connectors[c].CBlocked?
    {
      NewlyDead(cfg, s, a, d, c);
    }
    if o :| Waits(t, o) && Hopeless(t, d, o) {
      EasyWaits(cfg, s, a, d, o);
    }
  }

  lemma UnattendedBefore(cfg: Config, s: State, a: Action)
    requires Shaped(cfg, s) && Easy(a) && Step(cfg, s, a).Some? && Unattended(Step(cfg, s, a).value)
    ensures Unattended(s)
  {
    var i :| 0 <= i < |s.sources| && AtSource(Step(cfg, s, a).value.sources[i]);
    assert AtSource(s.sources[i]);
  }

  lemma EasyKeepsHope(cfg: Config, s: State, a: Action)
    requires Inv(cfg, s) && !Doomed(s) && Easy(a) && Step(cfg, s, a).Some?
    ensures !Doomed(Step(cfg, s, a).value)
  {
    hide Balanced, Sound, Phased, AllLeaked, Step, Traps;
    var t := Step(cfg, s, a).value;
    EasyLeaks(cfg, s, a);
    StepInv(cfg, s, a);
    if Unattended(t) {
      UnattendedBefore(cfg, s, a);
    }
    if Doomed(t) {
      DoomedMeansOpen(cfg, t);
      OpenBefore(cfg, s, a);
    }
    forall d
      ensures !TargetStopClosed(s.main) ==> !Traps(t, d)
    {
      if !TargetStopClosed(s.main) && Traps(t, d) {
        EasyTraps(cfg, s, a, d);
      }
    }
  }

  lemma OpenBefore(cfg: Config, s: State, a: Action)
    requires Shaped(cfg, s) && Step(cfg, s, a).Some? && !TargetStopClosed(Step(cfg, s, a).value.main)
    ensures !TargetStopClosed(s.main)
  {
  }

  function LightWeights(cfg: Config): (wt: seq<nat>)
    ensures Fits(cfg, wt)
  {
    seq(|cfg.targets|, t requires 0 <= t < |cfg.targets| => |cfg.targets[t]| + 10)
  }
}
