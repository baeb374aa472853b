/** Limiters that never tick: once over, they stay over. Where such rules lead messages only to one
    another, no message ever gets out. */
module BrokerCorner {
  import opened Common
  import opened Broker
  import opened BrokerInvariant
  import opened BrokerDoom
  import opened BrokerLimits
  import L = Limiter

  predicate LeadsInto(rule: Breach, d: set<nat>) { rule.Unhandled? || (rule.Fallback? && rule.target in d) }

  /** Rule f of c is over for good, and it and every rule before it that acts fall back into d. */
  ghost predicate Barrier(u: Setup, s: System, d: set<nat>, c: nat, f: nat)
    requires Fit(u, s) && c < |u.limits|
  {
    && f < |u.limits[c]| && Frozen(u, c, f) && OverAt(u, s, c, f)
    && forall j :: 0 <= j <= f ==> LeadsInto(u.broker.targets[c][j], d)
  }

  /** The connector has no message that has got past rule f, nor one that is to leave d. */
  predicate Within(pc: ConnectorPc, d: set<nat>, f: nat) {
    !pc.CAwaiting? && (pc.CLimiting? ==> pc.rule <= f) && (pc.CBlocked? ==> pc.to in d)
  }

  ghost predicate Guarded(u: Setup, s: System, d: set<nat>, c: nat)
    requires Fit(u, s) && c < |s.broker.connectors|
  {
    exists f :: Barrier(u, s, d, c, f) && Within(s.broker.connectors[c], d, f)
  }

  ghost predicate Corner(u: Setup, s: System, d: set<nat>)
    requires Fit(u, s)
  {
    && (forall c :: c in d ==> c < |s.broker.connectors|)
    && (forall c {:trigger Guarded(u, s, d, c)} :: c in d ==> Guarded(u, s, d, c))
  }

  /** o is to go to a target in d. */
  predicate Headed(s: State, d: set<nat>, o: Obligation) {
    Owed(s, o) && s.accepted[o.message].targets[o.entry] in d
  }

  /** A message is in d or on its way there. */
  ghost predicate HasMessage(s: State, d: set<nat>) {
    || (exists c :: c in d && c < |s.connectors| && Carries(s.connectors[c]))
    || (exists o :: Waits(s, o) && Headed(s, d, o))
  }

  ghost predicate Cornered(u: Setup, s: System)
    requires Fit(u, s)
  {
    exists d :: Corner(u, s, d) && HasMessage(s.broker, d)
  }

  // ----- Every step keeps a corner -----

  /** The limiter of a barrier does not change. */
  lemma BarrierStays(u: Setup, s: System, e: Event, d: set<nat>, c: nat, f: nat)
    requires Fit(u, s) && Next(u, s, e).Some? && c < |u.limits|
    requires Barrier(u, s, d, c, f) && Within(s.broker.connectors[c], d, f)
    ensures Barrier(u, Next(u, s, e).value, d, c, f)
  {
    hide Next, L.Over;
    if e.Move? {
      MoveCharges(u, s, e.action, c, f);
    } else {
      FireLeaves(u, s, e, c, f);
    }
  }

  /** A connector behind a barrier keeps its message within d. */
  lemma WithinStays(u: Setup, s: System, a: Action, d: set<nat>, c: nat, f: nat)
    requires Fit(u, s) && Next(u, s, Move(a)).Some? && c < |u.limits|
    requires Barrier(u, s, d, c, f) && Within(s.broker.connectors[c], d, f)
    ensures Within(Next(u, s, Move(a)).value.broker.connectors[c], d, f)
  {
    hide SourceStep, WorkerStep, ConnectorStep, L.Over;
    match a
    case Source(i, b) => SourceLeaves(u.broker, s.broker, i, b);
    case Worker(w, b) => WorkerHandsOver(s.broker, w, b, c);
    case Connector(e, b) => ConnectorWithin(u, s, e, b, d, c, f);
    case Main(_) =>
  }

  lemma WorkerHandsOver(s: State, w: nat, a: WorkerAct, c: nat)
    requires w < |s.workers| && WorkerStep(s, w, a).Some? && c < |s.connectors|
    ensures var t := WorkerStep(s, w, a).value; t.connectors[c] == s.connectors[c] || t.connectors[c].CParsing?
  {
  }

  lemma ConnectorWithin(u: Setup, s: System, e: nat, a: ConnectorAct, d: set<nat>, c: nat, f: nat)
    requires Fit(u, s) && Honest(u, s, Connector(e, a)) && c < |u.limits| && e < |s.broker.connectors|
    requires ConnectorStep(u.broker, s.broker, e, a).Some?
    requires Barrier(u, s, d, c, f) && Within(s.broker.connectors[c], d, f)
    ensures Within(ConnectorStep(u.broker, s.broker, e, a).value.connectors[c], d, f)
  {
    hide L.Over;
  }

  lemma CornerStays(u: Setup, s: System, e: Event, d: set<nat>)
    requires Fit(u, s) && Next(u, s, e).Some? && Corner(u, s, d)
    ensures Corner(u, Next(u, s, e).value, d)
  {
    hide Next, Barrier, Within;
    var n := Next(u, s, e).value;
    forall c | c in d
      ensures Guarded(u, n, d, c)
    {
      var f := CornerAt(u, s, d, c);
      BarrierStays(u, s, e, d, c, f);
      if e.Move? {
        WithinStays(u, s, e.action, d, c, f);
      } else {
        BarrierInRange(u, s, d, c, f);
        FireLeaves(u, s, e, c, f);
      }
    }
  }

  lemma BarrierInRange(u: Setup, s: System, d: set<nat>, c: nat, f: nat)
    requires Fit(u, s) && c < |u.limits| && Barrier(u, s, d, c, f)
    ensures f < |u.limits[c]|
  {
  }

  // ----- and what is in it -----

  /** A message in d stays there, moves on within d, or leaks. */
  lemma CarriedStays(u: Setup, s: System, a: Action, d: set<nat>, c: nat)
    requires Fit(u, s) && Next(u, s, Move(a)).Some? && Corner(u, s, d) && c in d && Carries(s.broker.connectors[c])
    ensures var t := Next(u, s, Move(a)).value.broker; AllLeaked(t) > 0 || HasMessage(t, d)
  {
    hide SourceStep, WorkerStep, ConnectorStep, AllLeaked, Corner, Barrier, Within, Waits, Headed, Honest;
    var t := Next(u, s, Move(a)).value.broker;
    CornerInRange(u, s, d);
    var f := CornerAt(u, s, d, c);
    if a.Connector? {
      ConnectorCarries(u, s, a.connector, a.conAct, d, c, f);
    } else {
      match a {
        case Source(i, b) => SourceLeaves(u.broker, s.broker, i, b);
        case Worker(w, b) => WorkerHandsOver(s.broker, w, b, c);
        case Main(_) =>
      }
      assert Carries(t.connectors[c]);
    }
  }

  lemma CornerAt(u: Setup, s: System, d: set<nat>, c: nat) returns (f: nat)
    requires Fit(u, s) && Corner(u, s, d) && c in d
    ensures c < |u.limits| && Barrier(u, s, d, c, f) && Within(s.broker.connectors[c], d, f)
  {
    hide Barrier, Within;
    assert Guarded(u, s, d, c);
    f :| Barrier(u, s, d, c, f) && Within(s.broker.connectors[c], d, f);
  }

  lemma ConnectorCarries(u: Setup, s: System, e: nat, a: ConnectorAct, d: set<nat>, c: nat, f: nat)
    requires Fit(u, s) && Honest(u, s, Connector(e, a)) && c in d && c < |u.limits| && e < |s.broker.connectors|
    requires ConnectorStep(u.broker, s.broker, e, a).Some? && Carries(s.broker.connectors[c])
    requires Barrier(u, s, d, c, f) && Within(s.broker.connectors[c], d, f)
    requires forall k :: k in d ==> k < |s.broker.connectors|
    ensures var t := ConnectorStep(u.broker, s.broker, e, a).value; AllLeaked(t) > 0 || HasMessage(t, d)
  {
    hide L.Over, AllLeaked;
    var t := ConnectorStep(u.broker, s.broker, e, a).value;
    if t.leaks != s.broker.leaks {
      LeakedSome(s.broker, t, t.leaks[|s.broker.leaks|]);
    } else if e == c && a.Resend? {
      assert Carries(t.connectors[s.broker.connectors[c].to]);
    } else {
      assert Carries(t.connectors[c]);
    }
  }

  lemma WaitingStays(u: Setup, s: System, a: Action, d: set<nat>, o: Obligation)
    requires Fit(u, s) && Sound(u.broker, s.broker) && Next(u, s, Move(a)).Some? && Corner(u, s, d)
    requires Waits(s.broker, o) && Headed(s.broker, d, o)
    ensures var t := Next(u, s, Move(a)).value.broker; AllLeaked(t) > 0 || HasMessage(t, d)
  {
    hide AllLeaked, Waits, Headed, SourceStep, WorkerStep, ConnectorStep, Sound, Corner, Honest;
    StillHeaded(u.broker, s.broker, a, d, o);
    match a
    case Source(i, b) => SourceWaits(u.broker, s.broker, i, b, o);
    case Worker(w, b) => WorkerHeaded(u, s, w, b, d, o);
    case _ => OthersWait(u.broker, s.broker, a, o);
  }

  lemma StillHeaded(cfg: Config, s: State, a: Action, d: set<nat>, o: Obligation)
    requires Shaped(cfg, s) && Step(cfg, s, a).Some? && Headed(s, d, o)
    ensures Headed(Step(cfg, s, a).value, d, o)
  {
  }

  /** A worker keeps its entry for d, hands it over to a connector in d, or drops it. */
  lemma WorkerHeaded(u: Setup, s: System, w: nat, a: WorkerAct, d: set<nat>, o: Obligation)
    requires Fit(u, s) && Sound(u.broker, s.broker) && Corner(u, s, d) && w < |s.broker.workers|
    requires WorkerStep(s.broker, w, a).Some? && Waits(s.broker, o) && Headed(s.broker, d, o)
    ensures var t := WorkerStep(s.broker, w, a).value;
            AllLeaked(t) > 0 || Waits(t, o) || exists c :: c in d && c < |t.connectors| && Carries(t.connectors[c])
  {
    hide AllLeaked, Corner;
    CornerInRange(u, s, d);
    var b, t, pc := s.broker, WorkerStep(s.broker, w, a).value, s.broker.workers[w];
    assert WorkerSound(b.accepted, pc);
    if t.leaks != b.leaks && t.leaks[|b.leaks|].from < t.leaks[|b.leaks|].end {
      LeakedSome(b, t, t.leaks[|b.leaks|]);
    } else if i :| 0 <= i < |b.sources| && SourceHas(b.sources[i], o) {
      assert SourceHas(t.sources[i], o);
    } else {
      var v :| 0 <= v < |b.workers| && WorkerHas(b.workers[v], o);
      if v == w && a.FanOut? && pc.next == o.entry {
        var c := pc.msg.targets[pc.next];
        assert c in d && Carries(t.connectors[c]);
      } else {
        assert WorkerHas(t.workers[v], o);
      }
    }
  }

  lemma CornerInRange(u: Setup, s: System, d: set<nat>)
    requires Fit(u, s) && Corner(u, s, d)
    ensures forall c :: c in d ==> c < |s.broker.connectors|
  {
  }

  lemma MoveKeepsCorner(u: Setup, s: System, a: Action)
    requires Fit(u, s) && Sound(u.broker, s.broker) && Cornered(u, s) && Next(u, s, Move(a)).Some?
    ensures AllLeaked(Next(u, s, Move(a)).value.broker) > 0 || Cornered(u, Next(u, s, Move(a)).value)
  {
    hide Next, AllLeaked, Corner, Waits, Headed, Sound;
    var d :| Corner(u, s, d) && HasMessage(s.broker, d);
    CornerStays(u, s, Move(a), d);
    if c :| c in d && c < |s.broker.connectors| && Carries(s.broker.connectors[c]) {
      CarriedStays(u, s, a, d, c);
    } else {
      var o :| Waits(s.broker, o) && Headed(s.broker, d, o);
      WaitingStays(u, s, a, d, o);
    }
  }

  lemma FireKeepsCorner(u: Setup, s: System, e: Event)
    requires Fit(u, s) && Cornered(u, s) && e.Fire? && Next(u, s, e).Some?
    ensures Cornered(u, Next(u, s, e).value)
  {
    hide Corner, HasMessage, L.Tick;
    var d :| Corner(u, s, d) && HasMessage(s.broker, d);
    CornerStays(u, s, e, d);
  }

  lemma CorneredMeansOpen(u: Setup, s: System)
    requires Fit(u, s) && Inv(u.broker, s.broker) && Cornered(u, s)
    ensures !TargetStopClosed(s.broker.main)
  {
    hide Corner, Sound;
    var b := s.broker;
    assert Balanced(b, Obligation(0, 0));
    var d :| Corner(u, s, d) && HasMessage(b, d);
    if b.waitGroup == 0 {
      if c :| c in d && c < |b.connectors| && Carries(b.connectors[c]) {
        DrainedConnector(b, c);
      }
    }
  }

  /** A message that only limiters which never tick can decide about, and which they only pass around
      among themselves, keeps the broker from ever finishing, doomed or not, whatever happens next. */
  lemma {:induction false} CorneredForever(u: Setup, s: System, events: seq<Event>)
    requires Fit(u, s) && Inv(u.broker, s.broker) && (Cornered(u, s) || Doomed(s.broker)) && Exec(u, s, events).Some?
    ensures !TargetStopClosed(Exec(u, s, events).value.broker.main)
    decreases |events|
  {
    hide Inv, Cornered, AllLeaked, Doomed, Next, Step;
    if events == [] {
      if Cornered(u, s) {
        CorneredMeansOpen(u, s);
      } else {
        DoomedMeansOpen(u.broker, s.broker);
      }
    } else {
      CorneredStep(u, s, events[0]);
      CorneredForever(u, Next(u, s, events[0]).value, events[1..]);
    }
  }

  lemma CorneredStep(u: Setup, s: System, e: Event)
    requires Fit(u, s) && Inv(u.broker, s.broker) && (Cornered(u, s) || Doomed(s.broker)) && Next(u, s, e).Some?
    ensures var n := Next(u, s, e).value; Inv(u.broker, n.broker) && (Cornered(u, n) || Doomed(n.broker))
  {
    hide Cornered, AllLeaked, Balanced, Sound, Phased, Step, L.Tick;
    if e.Move? {
      StepInv(u.broker, s.broker, e.action);
      if Cornered(u, s) {
        MoveKeepsCorner(u, s, e.action);
      } else {
        StepKeepsDoom(u.broker, s.broker, e.action);
      }
    } else if Cornered(u, s) {
      FireKeepsCorner(u, s, e);
    }
  }
}
