/** With one worker and no fallback rules, the messages of a source reach each target in the order
    in which the broker accepted them. */
module BrokerOrder {
  import opened Common
  import opened Broker
  import opened BrokerInvariant

  /** Acceptance order, and within a message the order of its target list. */
  predicate Before(a: Obligation, b: Obligation) {
    a.message < b.message || (a.message == b.message && a.entry < b.entry)
  }

  predicate NoFallbacks(cfg: Config) {
    forall t, r :: 0 <= t < |cfg.targets| && 0 <= r < |cfg.targets[t]| ==> !cfg.targets[t][r].Fallback?
  }

  /** The source that sent the message of o. */
  function Sender(accepted: seq<BrokerMessage>, o: Obligation): int {
    if o.message < |accepted| then accepted[o.message].source else -1
  }

  predicate SameSender(accepted: seq<BrokerMessage>, a: Obligation, b: Obligation) {
    Sender(accepted, a) == Sender(accepted, b)
  }

  /** Where the outcome happened. */
  function Site(r: Outcome): int { if r.route == [] then -1 else r.route[|r.route| - 1] }

  /** The next entry the (only) worker will hand out. */
  function Frontier(workers: seq<WorkerPc>): Option<Obligation> {
    if |workers| != 1 then None
    else match workers[0]
      case WDecoding(id, _) => Some(Obligation(id, 0))
      case WFanning(id, _, j) => Some(Obligation(id, j))
      case _ => None
  }

  /** x has left the worker: a connector carries it or it is settled. */
  ghost predicate Out(s: State, x: Obligation) {
    || (exists c :: 0 <= c < |s.connectors| && ConnectorHas(s.connectors[c], x))
    || (exists k :: 0 <= k < |s.outcomes| && s.outcomes[k].owed == x)
  }

  /** Outcomes of one source at one target are in order. */
  predicate LogOrdered(accepted: seq<BrokerMessage>, outcomes: seq<Outcome>) {
    forall j, k :: 0 <= j < k < |outcomes| && Site(outcomes[j]) == Site(outcomes[k])
      && SameSender(accepted, outcomes[j].owed, outcomes[k].owed)
      ==> Before(outcomes[j].owed, outcomes[k].owed)
  }

  /** What a connector carries comes after what it has settled. */
  predicate CarriedLast(accepted: seq<BrokerMessage>, outcomes: seq<Outcome>, c: nat, o: Obligation) {
    forall k :: 0 <= k < |outcomes| && Site(outcomes[k]) == c && SameSender(accepted, outcomes[k].owed, o)
      ==> Before(outcomes[k].owed, o)
  }

  ghost predicate CarriersLast(s: State) {
    forall c :: 0 <= c < |s.connectors| && Carries(s.connectors[c])
      ==> CarriedLast(s.accepted, s.outcomes, c, s.connectors[c].parcel.owed)
  }

  /** Everything of the same source that has left the worker precedes f. */
  ghost predicate Precede(s: State, f: Obligation) {
    forall x :: Out(s, x) && SameSender(s.accepted, x, f) ==> Before(x, f)
  }

  /** A message still at its source follows everything that has left the source. */
  ghost predicate HeldLast(s: State, id: nat) {
    && Precede(s, Obligation(id, 0))
    && (var f := Frontier(s.workers);
        f.Some? && SameSender(s.accepted, f.value, Obligation(id, 0)) ==> f.value.message < id)
  }

  ghost predicate HoldersLast(s: State) {
    forall i :: 0 <= i < |s.sources| && AtSource(s.sources[i]) ==> HeldLast(s, s.sources[i].id)
  }

  ghost predicate Ordered(s: State) {
    && LogOrdered(s.accepted, s.outcomes)
    && CarriersLast(s)
    && (Frontier(s.workers).Some? ==> Precede(s, Frontier(s.workers).value))
    && HoldersLast(s)
  }

  /** Fewer obligations are out and the worker has not moved: the order stays. */
  lemma FewerOut(s: State, t: State)
    requires HoldersLast(s) && (Frontier(s.workers).Some? ==> Precede(s, Frontier(s.workers).value))
    requires t.accepted == s.accepted && t.sources == s.sources && t.workers == s.workers
    requires forall x :: Out(t, x) ==> Out(s, x)
    ensures HoldersLast(t) && (Frontier(t.workers).Some? ==> Precede(t, Frontier(t.workers).value))
  {
    hide Out;
    forall i | 0 <= i < |t.sources| && AtSource(t.sources[i])
      ensures HeldLast(t, t.sources[i].id)
    {
      assert HeldLast(s, s.sources[i].id);
    }
  }

  lemma ConnectorOrdered(cfg: Config, s: State, c: nat, a: ConnectorAct)
    requires NoFallbacks(cfg) && Shaped(cfg, s) && Sound(cfg, s) && Ordered(s)
    requires c < |s.connectors| && ConnectorStep(cfg, s, c, a).Some?
    ensures Ordered(ConnectorStep(cfg, s, c, a).value)
  {
    hide Ordered, ConnectorStep;
    CarriesOnOrSettles(cfg, s, c, a);
    SettleOrdered(s, ConnectorStep(cfg, s, c, a).value, c);
  }

  /** Without fallbacks a connector keeps its obligation or lets go of it, and settles no other. */
  predicate OwnOnly(s: State, t: State, c: nat)
    requires c < |s.connectors| == |t.connectors|
  {
    && t.accepted == s.accepted && t.sources == s.sources && t.workers == s.workers
    && t.connectors == s.connectors[c := t.connectors[c]]
    && (Carries(t.connectors[c]) ==>
          Carries(s.connectors[c]) && t.connectors[c].parcel.owed == s.connectors[c].parcel.owed)
    && (t.outcomes != s.outcomes ==>
          && Carries(s.connectors[c]) && !Carries(t.connectors[c])
          && |t.outcomes| == |s.outcomes| + 1 && t.outcomes[..|s.outcomes|] == s.outcomes
          && t.outcomes[|s.outcomes|].owed == s.connectors[c].parcel.owed && Site(t.outcomes[|s.outcomes|]) == c)
  }

  lemma CarriesOnOrSettles(cfg: Config, s: State, c: nat, a: ConnectorAct)
    requires NoFallbacks(cfg) && Shaped(cfg, s) && Sound(cfg, s)
    requires c < |s.connectors| && ConnectorStep(cfg, s, c, a).Some?
    ensures |ConnectorStep(cfg, s, c, a).value.connectors| == |s.connectors|
    ensures OwnOnly(s, ConnectorStep(cfg, s, c, a).value, c)
  {
    hide FallbackPath;
    assert ConnectorSound(cfg, s.accepted, c, s.connectors[c]);
  }

  /** A connector carries on, or settles or drops what it carried. */
  lemma SettleOrdered(s: State, t: State, c: nat)
    requires Ordered(s) && c < |s.connectors| == |t.connectors| && OwnOnly(s, t, c)
    ensures Ordered(t)
  {
    forall x | Out(t, x)
      ensures Out(s, x)
    {
      if d :| 0 <= d < |t.connectors| && ConnectorHas(t.connectors[d], x) {
        assert ConnectorHas(s.connectors[d], x);
      } else {
        var k :| 0 <= k < |t.outcomes| && t.outcomes[k].owed == x;
        if k < |s.outcomes| {
          assert s.outcomes[k].owed == x;
        } else {
          assert ConnectorHas(s.connectors[c], x);
        }
      }
    }
    FewerOut(s, t);
    assert Carries(s.connectors[c]) ==> CarriedLast(s.accepted, s.outcomes, c, s.connectors[c].parcel.owed);
    forall d | 0 <= d < |t.connectors| && Carries(t.connectors[d])
      ensures CarriedLast(t.accepted, t.outcomes, d, t.connectors[d].parcel.owed)
    {
      assert CarriedLast(s.accepted, s.outcomes, d, s.connectors[d].parcel.owed);
    }
  }

  /** What is out, or at the worker, belongs to an accepted message. */
  lemma OutIsAccepted(cfg: Config, s: State, x: Obligation)
    requires Sound(cfg, s) && Out(s, x)
    ensures x.message < |s.accepted|
  {
    if c :| 0 <= c < |s.connectors| && ConnectorHas(s.connectors[c], x) {
      assert ConnectorSound(cfg, s.accepted, c, s.connectors[c]);
    } else {
      var k :| 0 <= k < |s.outcomes| && s.outcomes[k].owed == x;
      assert OutcomeSound(cfg, s.accepted, s.outcomes[k]);
    }
  }

  lemma AcceptOrdered(cfg: Config, s: State, i: nat, m: BrokerMessage)
    requires Sound(cfg, s) && Ordered(s) && i < |s.sources| && s.sources[i].SIdle?
    ensures Ordered(AcceptMessage(s, i, m))
  {
    hide Sound;
    var t := AcceptMessage(s, i, m);
    forall x | Out(t, x)
      ensures Out(s, x) && x.message < |s.accepted|
    {
      assert Out(s, x);
      OutIsAccepted(cfg, s, x);
    }
    assert forall k :: 0 <= k < |s.outcomes| ==> Out(s, s.outcomes[k].owed);
    assert forall c :: 0 <= c < |s.connectors| && Carries(s.connectors[c]) ==> Out(s, s.connectors[c].parcel.owed) by {
      assert forall c :: 0 <= c < |s.connectors| && Carries(s.connectors[c]) ==>
                           ConnectorHas(s.connectors[c], s.connectors[c].parcel.owed);
    }
    WorkersAccepted(cfg, s);
    forall j | 0 <= j < |t.sources| && AtSource(t.sources[j])
      ensures HeldLast(t, t.sources[j].id)
    {
      if j != i {
        assert HeldLast(s, s.sources[j].id);
      }
    }
    forall c | 0 <= c < |t.connectors| && Carries(t.connectors[c])
      ensures CarriedLast(t.accepted, t.outcomes, c, t.connectors[c].parcel.owed)
    {
      assert CarriedLast(s.accepted, s.outcomes, c, s.connectors[c].parcel.owed);
    }
  }

  lemma WorkersAccepted(cfg: Config, s: State)
    requires Sound(cfg, s)
    ensures Frontier(s.workers).Some? ==> Frontier(s.workers).value.message < |s.accepted|
    ensures forall i :: 0 <= i < |s.sources| && AtSource(s.sources[i]) ==> s.sources[i].id < |s.accepted|
  {
    if |s.workers| == 1 {
      assert WorkerSound(s.accepted, s.workers[0]);
    }
    assert forall i :: 0 <= i < |s.sources| ==> SourceSound(s.accepted, i, s.sources[i]);
  }

  /** The worker takes a message from its source. */
  lemma HandOrdered(cfg: Config, s: State, i: nat)
    requires Shaped(cfg, s) && Sound(cfg, s) && Ordered(s) && |s.workers| == 1
    requires i < |s.sources| && s.sources[i].SHanding? && s.workers[0].WIdle?
    ensures Ordered(SetWorker(SetSource(s, i, SIdle), 0, WDecoding(s.sources[i].id, s.sources[i].msg)))
  {
    var id, t := s.sources[i].id, SetWorker(SetSource(s, i, SIdle), 0, WDecoding(s.sources[i].id, s.sources[i].msg));
    assert SourceSound(s.accepted, i, s.sources[i]);
    assert HeldLast(s, id);
    SameOut(s, t);
    forall j | 0 <= j < |t.sources| && AtSource(t.sources[j])
      ensures HeldLast(t, t.sources[j].id)
    {
      assert HeldLast(s, s.sources[j].id);
      assert SourceSound(s.accepted, j, s.sources[j]);
    }
  }

  lemma SameOut(s: State, t: State)
    requires t.connectors == s.connectors && t.outcomes == s.outcomes
    ensures forall x :: Out(t, x) <==> Out(s, x)
  {
  }

  /** A source or the worker moves on within the message it has. */
  lemma StillOrdered(s: State, t: State)
    requires Ordered(s) && |s.workers| == 1
    requires t.accepted == s.accepted && t.outcomes == s.outcomes && t.connectors == s.connectors
    requires |t.sources| == |s.sources|
    requires forall i :: 0 <= i < |t.sources| && AtSource(t.sources[i]) ==>
              AtSource(s.sources[i]) && t.sources[i].id == s.sources[i].id
    requires |t.workers| == 1 && (Frontier(t.workers).Some? ==>
               Frontier(s.workers).Some? && Frontier(t.workers).value.message == Frontier(s.workers).value.message
               && Frontier(t.workers).value.entry >= Frontier(s.workers).value.entry)
    ensures Ordered(t)
  {
    SameOut(s, t);
    forall j | 0 <= j < |t.sources| && AtSource(t.sources[j])
      ensures HeldLast(t, t.sources[j].id)
    {
      assert HeldLast(s, s.sources[j].id);
    }
    forall c | 0 <= c < |t.connectors| && Carries(t.connectors[c])
      ensures CarriedLast(t.accepted, t.outcomes, c, t.connectors[c].parcel.owed)
    {
      assert CarriedLast(s.accepted, s.outcomes, c, s.connectors[c].parcel.owed);
    }
  }

  lemma SourceOrdered(cfg: Config, s: State, i: nat, a: SourceAct)
    requires Shaped(cfg, s) && Sound(cfg, s) && Ordered(s) && |s.workers| == 1
    requires i < |s.sources| && SourceStep(cfg, s, i, a).Some?
    ensures Ordered(SourceStep(cfg, s, i, a).value)
  {
    hide Ordered, Sound;
    match a
    case Accept(payload) => AcceptOrdered(cfg, s, i, SourceToBroker(i, cfg.sources[i], payload));
    case HandTo(w) => HandOrdered(cfg, s, i);
    case _ => StillOrdered(s, SourceStep(cfg, s, i, a).value);
  }

  /** The worker hands entry j to a connector. */
  lemma FanOrdered(s: State, id: nat, msg: BrokerMessage, j: nat, u: nat, p: Parcel)
    requires Ordered(s) && |s.workers| == 1 && s.workers[0] == WFanning(id, msg, j) && p.owed == Obligation(id, j)
    requires u < |s.connectors| && s.connectors[u].CIdle?
    ensures Ordered(SetConnector(SetWorker(s, 0, WFanning(id, msg, j + 1)), u, CParsing(p)))
  {
    var t := SetConnector(SetWorker(s, 0, WFanning(id, msg, j + 1)), u, CParsing(p));
    forall x | Out(t, x)
      ensures x == p.owed || Out(s, x)
    {
      if x != p.owed {
        if c :| 0 <= c < |t.connectors| && ConnectorHas(t.connectors[c], x) {
          assert ConnectorHas(s.connectors[c], x);
        }
      }
    }
    hide Out;
    forall i | 0 <= i < |t.sources| && AtSource(t.sources[i])
      ensures HeldLast(t, t.sources[i].id)
    {
      assert HeldLast(s, s.sources[i].id);
    }
    FanCarries(s, t, u, p);
  }

  lemma FanCarries(s: State, t: State, u: nat, p: Parcel)
    requires CarriersLast(s) && Precede(s, p.owed) && u < |s.connectors|
    requires t.accepted == s.accepted && t.outcomes == s.outcomes && t.connectors == s.connectors[u := CParsing(p)]
    ensures CarriersLast(t)
  {
    forall c | 0 <= c < |t.connectors| && Carries(t.connectors[c])
      ensures CarriedLast(t.accepted, t.outcomes, c, t.connectors[c].parcel.owed)
    {
      if c == u {
        assert forall k :: 0 <= k < |s.outcomes| ==> Out(s, s.outcomes[k].owed);
      } else {
        assert CarriedLast(s.accepted, s.outcomes, c, s.connectors[c].parcel.owed);
      }
    }
  }

  lemma WorkerOrdered(cfg: Config, s: State, w: nat, a: WorkerAct)
    requires Shaped(cfg, s) && Ordered(s) && |s.workers| == 1
    requires w < |s.workers| && WorkerStep(s, w, a).Some?
    ensures Ordered(WorkerStep(s, w, a).value)
  {
    hide Ordered;
    var pc, t := s.workers[w], WorkerStep(s, w, a).value;
    if t.connectors == s.connectors {
      StillOrdered(s, t);
    } else {
      var u := pc.msg.targets[pc.next];
      FanOrdered(s, pc.id, pc.msg, pc.next, u, Parcel(Obligation(pc.id, pc.next), pc.msg, [u]));
    }
  }

  lemma {:induction false} RunOrdered(cfg: Config, s: State, acts: seq<Action>)
    requires cfg.workers == 1 && NoFallbacks(cfg) && Inv(cfg, s) && Ordered(s) && Run(cfg, s, acts).Some?
    ensures Inv(cfg, Run(cfg, s, acts).value) && Ordered(Run(cfg, s, acts).value)
    decreases |acts|
  {
    hide Balanced, Sound, Phased, Ordered, Step;
    if acts != [] {
      StepInv(cfg, s, acts[0]);
      StepOrdered(cfg, s, acts[0]);
      RunOrdered(cfg, Step(cfg, s, acts[0]).value, acts[1..]);
    }
  }

  lemma StepOrdered(cfg: Config, s: State, a: Action)
    requires cfg.workers == 1 && NoFallbacks(cfg) && Inv(cfg, s) && Ordered(s) && Step(cfg, s, a).Some?
    ensures Ordered(Step(cfg, s, a).value)
  {
    hide Balanced, Sound, Phased, Ordered, SourceStep, WorkerStep, ConnectorStep;
    match a
    case Source(i, b) => SourceOrdered(cfg, s, i, b);
    case Worker(w, b) => WorkerOrdered(cfg, s, w, b);
    case Connector(c, b) => ConnectorOrdered(cfg, s, c, b);
    case Main(b) => StillOrdered(s, MainStep(s, b).value);
  }

  /** Per-source order: with one worker and no fallback rules, of two deliveries of one source to
      one target the earlier is of the message accepted earlier (or of an earlier entry of the
      same message's target list), under every interleaving. */
  lemma PerSourceOrder(cfg: Config, acts: seq<Action>, s: State, j: nat, k: nat)
    requires cfg.workers == 1 && NoFallbacks(cfg) && Reached(cfg, acts, s)
    requires j < k < |s.outcomes| && s.outcomes[j].result.Delivered? && s.outcomes[k].result.Delivered?
    requires var a, b := s.outcomes[j].result.sent, s.outcomes[k].result.sent;
             a.target == b.target && a.source == b.source
    ensures Before(s.outcomes[j].owed, s.outcomes[k].owed)
  {
    hide Balanced;
    InitInv(cfg);
    RunOrdered(cfg, Init(cfg), acts);
    assert OutcomeSound(cfg, s.accepted, s.outcomes[j]);
    assert OutcomeSound(cfg, s.accepted, s.outcomes[k]);
  }
}
