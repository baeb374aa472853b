/** What keeps the broker from ever finishing: a leaked obligation, connectors that wait for one
    that will not receive again, and entries that are still to go to such a connector or to a target
    that does not exist, or messages that no worker will take. None of it ever goes away. */
module BrokerDoom {
  import opened Common
  import opened Sums
  import opened Broker
  import opened BrokerInvariant

  // ----- Connectors that will not receive again -----

  /** Closed, or completing its last delivery. */
  predicate Ending(pc: ConnectorPc) { pc.CClosed? || ((pc.CUncounting? || pc.CReleasing?) && pc.dying) }

  /** Ending, or waiting for a member of d. */
  predicate DeadEnd(pc: ConnectorPc, d: set<nat>) { Ending(pc) || (pc.CBlocked? && pc.to in d) }

  ghost predicate DeadSet(s: State, d: set<nat>) {
    && (forall c :: c in d ==> c < |s.connectors|)
    && (forall c {:trigger s.connectors[c]} :: c in d ==> DeadEnd(s.connectors[c], d))
  }

  lemma SourceLeaves(cfg: Config, s: State, i: nat, a: SourceAct)
    requires Shaped(cfg, s) && i < |s.sources| && SourceStep(cfg, s, i, a).Some?
    ensures SourceStep(cfg, s, i, a).value.connectors == s.connectors
  {
  }

  lemma ConnectorLeaves(cfg: Config, s: State, b: nat, a: ConnectorAct, d: set<nat>, c: nat)
    requires Shaped(cfg, s) && b < |s.connectors| && ConnectorStep(cfg, s, b, a).Some?
    requires DeadSet(s, d) && c in d
    ensures DeadEnd(ConnectorStep(cfg, s, b, a).value.connectors[c], d)
    ensures s.connectors[c].CBlocked? ==> ConnectorStep(cfg, s, b, a).value.connectors[c] == s.connectors[c]
  {
  }

  /** A dead end stays one, and a connector that waits for one stays as it is. */
  lemma DeadStays(cfg: Config, s: State, a: Action, d: set<nat>, c: nat)
    requires Shaped(cfg, s) && Step(cfg, s, a).Some? && DeadSet(s, d) && c in d
    ensures DeadEnd(Step(cfg, s, a).value.connectors[c], d)
    ensures s.connectors[c].CBlocked? ==> Step(cfg, s, a).value.connectors[c] == s.connectors[c]
  {
    hide SourceStep, ConnectorStep;
    match a
    case Source(i, b) => SourceLeaves(cfg, s, i, b);
    case Connector(e, b) => ConnectorLeaves(cfg, s, e, b, d, c);
    case _ =>
  }

  // ----- Connectors blocked on one another -----

  /** Each member of d waits to send to a member of d. */
  ghost predicate Ring(s: State, d: set<nat>) {
    && d != {} && (forall c :: c in d ==> c < |s.connectors|)
    && (forall c {:trigger s.connectors[c]} :: c in d ==> s.connectors[c].CBlocked? && s.connectors[c].to in d)
  }

  ghost predicate NoRing(s: State) { forall d :: !Ring(s, d) }

  lemma RingStays(cfg: Config, s: State, d: set<nat>, a: Action)
    requires Shaped(cfg, s) && Ring(s, d) && Step(cfg, s, a).Some?
    ensures Ring(Step(cfg, s, a).value, d)
  {
    hide Step;
    forall c | c in d
      ensures Step(cfg, s, a).value.connectors[c] == s.connectors[c]
    {
      DeadStays(cfg, s, a, d, c);
    }
  }

  /** A blocked connector is in the WaitGroup, so TargetStop is still open. */
  lemma BlockedMeansOpen(cfg: Config, s: State, c: nat)
    requires Inv(cfg, s) && c < |s.connectors| && s.connectors[c].CBlocked?
    ensures !TargetStopClosed(s.main)
  {
    hide Total;
    assert Balanced(s, Obligation(0, 0));
    if s.waitGroup == 0 {
      DrainedConnector(s, c);
    }
  }

  lemma RingMeansOpen(cfg: Config, s: State, d: set<nat>)
    requires Inv(cfg, s) && Ring(s, d)
    ensures !TargetStopClosed(s.main)
  {
    var c :| c in d;
    BlockedMeansOpen(cfg, s, c);
  }

  /** A ring never dissolves, whatever the other goroutines do, and TargetStop is never closed. */
  lemma {:induction false} RingForever(cfg: Config, s: State, d: set<nat>, acts: seq<Action>)
    requires Inv(cfg, s) && Ring(s, d) && Run(cfg, s, acts).Some?
    ensures Ring(Run(cfg, s, acts).value, d) && !TargetStopClosed(Run(cfg, s, acts).value.main)
    decreases |acts|
  {
    hide Balanced, Sound, Phased, Step, Ring;
    if acts == [] {
      RingMeansOpen(cfg, s, d);
    } else {
      StepInv(cfg, s, acts[0]);
      RingStays(cfg, s, d, acts[0]);
      RingForever(cfg, Step(cfg, s, acts[0]).value, d, acts[1..]);
    }
  }

  // ----- Entries that will not arrive -----

  /** o has not left its source or its worker. */
  ghost predicate Waits(s: State, o: Obligation) {
    || (exists i :: 0 <= i < |s.sources| && SourceHas(s.sources[i], o))
    || (exists w :: 0 <= w < |s.workers| && WorkerHas(s.workers[w], o))
  }

  /** It is to go to a target that does not exist or will not receive it. */
  predicate Hopeless(s: State, d: set<nat>, o: Obligation) {
    Owed(s, o) && var u := s.accepted[o.message].targets[o.entry]; u >= |s.connectors| || u in d
  }

  ghost predicate Traps(s: State, d: set<nat>) {
    && DeadSet(s, d)
    && (|| (exists c :: c in d && c < |s.connectors| && s.connectors[c].CBlocked?)
        || (exists o :: Waits(s, o) && Hopeless(s, d, o)))
  }

  /** A source has a message and there is no worker to take it. */
  ghost predicate Unattended(s: State) {
    |s.workers| == 0 && exists i :: 0 <= i < |s.sources| && AtSource(s.sources[i])
  }

  ghost predicate Doomed(s: State) { AllLeaked(s) > 0 || Unattended(s) || exists d :: Traps(s, d) }

  lemma StaysUnattended(cfg: Config, s: State, a: Action)
    requires Shaped(cfg, s) && Unattended(s) && Step(cfg, s, a).Some?
    ensures Unattended(Step(cfg, s, a).value)
  {
    var i :| 0 <= i < |s.sources| && AtSource(s.sources[i]);
    assert AtSource(Step(cfg, s, a).value.sources[i]);
  }

  lemma SourceWaits(cfg: Config, s: State, i: nat, a: SourceAct, o: Obligation)
    requires Shaped(cfg, s) && i < |s.sources| && SourceStep(cfg, s, i, a).Some? && Waits(s, o)
    ensures Waits(SourceStep(cfg, s, i, a).value, o)
  {
    var t := SourceStep(cfg, s, i, a).value;
    if j :| 0 <= j < |s.sources| && SourceHas(s.sources[j], o) {
      if i == j && a.HandTo? {
        assert WorkerHas(t.workers[a.worker], o);
      } else {
        assert SourceHas(t.sources[j], o);
      }
    } else {
      var w :| 0 <= w < |s.workers| && WorkerHas(s.workers[w], o);
      assert WorkerHas(t.workers[w], o);
    }
  }

  lemma LeakedSome(s: State, t: State, l: Leak)
    requires t.leaks == s.leaks + [l] && l.from < l.end
    ensures AllLeaked(t) > 0
  {
    TotalAppend(s.leaks, l, LeakSize);
  }

  /** A worker can only drop a hopeless entry. */
  lemma WorkerWaits(cfg: Config, s: State, w: nat, a: WorkerAct, d: set<nat>, o: Obligation)
    requires Shaped(cfg, s) && Sound(cfg, s) && w < |s.workers| && WorkerStep(s, w, a).Some?
    requires DeadSet(s, d) && Waits(s, o) && Hopeless(s, d, o)
    ensures Waits(WorkerStep(s, w, a).value, o) || AllLeaked(WorkerStep(s, w, a).value) > 0
  {
    hide AllLeaked;
    var t, pc := WorkerStep(s, w, a).value, s.workers[w];
    assert WorkerSound(s.accepted, pc);
    if t.leaks != s.leaks && t.leaks[|s.leaks|].from < t.leaks[|s.leaks|].end {
      LeakedSome(s, t, t.leaks[|s.leaks|]);
    } else if i :| 0 <= i < |s.sources| && SourceHas(s.sources[i], o) {
      assert SourceHas(t.sources[i], o);
    } else {
      var v :| 0 <= v < |s.workers| && WorkerHas(s.workers[v], o);
      assert WorkerHas(t.workers[v], o);
    }
  }

  lemma OthersWait(cfg: Config, s: State, a: Action, o: Obligation)
    requires Shaped(cfg, s) && Step(cfg, s, a).Some? && (a.Connector? || a.Main?)
    ensures Waits(Step(cfg, s, a).value, o) <==> Waits(s, o)
  {
  }

  lemma StillOwed(cfg: Config, s: State, a: Action, d: set<nat>, o: Obligation)
    requires Shaped(cfg, s) && Step(cfg, s, a).Some? && Hopeless(s, d, o)
    ensures Hopeless(Step(cfg, s, a).value, d, o)
  {
  }

  lemma StepWaits(cfg: Config, s: State, a: Action, d: set<nat>, o: Obligation)
    requires Shaped(cfg, s) && Sound(cfg, s) && Step(cfg, s, a).Some?
    requires DeadSet(s, d) && Waits(s, o) && Hopeless(s, d, o)
    ensures var t := Step(cfg, s, a).value; AllLeaked(t) > 0 || (Waits(t, o) && Hopeless(t, d, o))
  {
    StillOwed(cfg, s, a, d, o);
    hide AllLeaked, Waits, Hopeless, SourceStep, WorkerStep, ConnectorStep;
    match a
    case Source(i, b) => SourceWaits(cfg, s, i, b, o);
    case Worker(w, b) => WorkerWaits(cfg, s, w, b, d, o);
    case _ => OthersWait(cfg, s, a, o);
  }

  lemma StepKeepsDoom(cfg: Config, s: State, a: Action)
    requires Shaped(cfg, s) && Sound(cfg, s) && Doomed(s) && Step(cfg, s, a).Some?
    ensures Doomed(Step(cfg, s, a).value)
  {
    hide AllLeaked, Waits, Hopeless, Step, DeadEnd, Sound, Unattended;
    var t := Step(cfg, s, a).value;
    LeaksGrow(cfg, s, a);
    if Unattended(s) {
      StaysUnattended(cfg, s, a);
    }
    if d :| Traps(s, d) {
      forall c | c in d
        ensures DeadEnd(t.connectors[c], d)
        ensures s.connectors[c].CBlocked? ==> t.connectors[c] == s.connectors[c]
      {
        DeadStays(cfg, s, a, d, c);
      }
      assert DeadSet(t, d);
      if o :| Waits(s, o) && Hopeless(s, d, o) {
        StepWaits(cfg, s, a, d, o);
      }
      assert AllLeaked(t) > 0 || Traps(t, d);
    }
  }

  lemma DoomedMeansOpen(cfg: Config, s: State)
    requires Inv(cfg, s) && Doomed(s)
    ensures !TargetStopClosed(s.main)
  {
    hide Sound;
    assert Balanced(s, Obligation(0, 0));
    if TargetStopClosed(s.main) {
      if d, c :| Traps(s, d) && c in d && c < |s.connectors| && s.connectors[c].CBlocked? {
        BlockedMeansOpen(cfg, s, c);
      }
    }
  }

  /** Whatever happens next, the broker never closes TargetStop. */
  lemma {:induction false} DoomedForever(cfg: Config, s: State, acts: seq<Action>)
    requires Inv(cfg, s) && Doomed(s) && Run(cfg, s, acts).Some?
    ensures Doomed(Run(cfg, s, acts).value) && !TargetStopClosed(Run(cfg, s, acts).value.main)
    decreases |acts|
  {
    hide Balanced, Sound, Phased, Step, Doomed;
    if acts == [] {
      DoomedMeansOpen(cfg, s);
    } else {
      StepInv(cfg, s, acts[0]);
      StepKeepsDoom(cfg, s, acts[0]);
      DoomedForever(cfg, Step(cfg, s, acts[0]).value, acts[1..]);
    }
  }
}
