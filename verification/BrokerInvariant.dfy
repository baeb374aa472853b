/** What every step of the broker keeps: no obligation is lost or invented, the two in-flight
    counters agree with the goroutines, messages are unchanged by re-routing, and shutdown
    happens in order. */
module BrokerInvariant {
  import opened Common
  import opened Sums
  import opened Broker

  // ----- Who holds which obligation -----

  /** Message `id` with target list `targets` owes o, counting entries from `from` on. */
  predicate Covers(id: nat, from: nat, targets: seq<Name>, o: Obligation) {
    o.message == id && from <= o.entry < |targets|
  }

  /** The source connector has a message that no worker has taken yet. */
  predicate AtSource(pc: SourcePc) { pc.SCounting? || pc.SGrouping? || pc.SHanding? }

  predicate SourceHas(pc: SourcePc, o: Obligation) {
    AtSource(pc) && Covers(pc.id, 0, pc.msg.targets, o)
  }

  predicate WorkerHas(pc: WorkerPc, o: Obligation) {
    match pc
    case WDecoding(id, msg) => Covers(id, 0, msg.targets, o)
    case WFanning(id, msg, next) => Covers(id, next, msg.targets, o)
    case _ => false
  }

  predicate Carries(pc: ConnectorPc) { pc.CParsing? || pc.CLimiting? || pc.CBlocked? || pc.CAwaiting? }

  predicate ConnectorHas(pc: ConnectorPc, o: Obligation) { Carries(pc) && pc.parcel.owed == o }

  ghost function SourceHolds(o: Obligation): (nat, SourcePc) -> nat { (_, pc) => One(SourceHas(pc, o)) }

  ghost function WorkerHolds(o: Obligation): (nat, WorkerPc) -> nat { (_, pc) => One(WorkerHas(pc, o)) }

  ghost function ConnectorHolds(o: Obligation): (nat, ConnectorPc) -> nat { (_, pc) => One(ConnectorHas(pc, o)) }

  /** How many goroutines hold o: it is accepted, not settled, not leaked. */
  ghost function Holders(s: State, o: Obligation): nat {
    Total(s.sources, SourceHolds(o)) + Total(s.workers, WorkerHolds(o)) + Total(s.connectors, ConnectorHolds(o))
  }

  ghost function OutcomeOf(o: Obligation): (nat, Outcome) -> nat { (_, r: Outcome) => One(r.owed == o) }

  ghost function LeakOf(o: Obligation): (nat, Leak) -> nat {
    (_, l: Leak) => One(l.message == o.message && l.from <= o.entry < l.end)
  }

  function LeakSize(i: nat, l: Leak): nat { if l.from < l.end then l.end - l.from else 0 }

  /** How many times o has been leaked, and how many obligations have. */
  ghost function Leaked(s: State, o: Obligation): nat { Total(s.leaks, LeakOf(o)) }

  ghost function AllLeaked(s: State): nat { Total(s.leaks, LeakSize) }

  /** How many terminal outcomes o has had. */
  ghost function Outcomes(s: State, o: Obligation): nat { Total(s.outcomes, OutcomeOf(o)) }

  /** o is an entry of the target list of an accepted message. */
  predicate Owed(s: State, o: Obligation) {
    o.message < |s.accepted| && o.entry < |s.accepted[o.message].targets|
  }

  // ----- The two in-flight counters -----

  /** How many obligations of a goroutine are in MessagesInFlight, and how many in the WaitGroup. */
  function SourceCounts(i: nat, pc: SourcePc): nat {
    if pc.SGrouping? || pc.SHanding? then |pc.msg.targets| else 0
  }

  function SourceGroups(i: nat, pc: SourcePc): nat {
    if pc.SHanding? then |pc.msg.targets| else 0
  }

  function WorkerCounts(i: nat, pc: WorkerPc): nat {
    match pc
    case WDecoding(_, msg) => |msg.targets|
    case WFanning(_, msg, next) => if next < |msg.targets| then |msg.targets| - next else 0
    case _ => 0
  }

  function ConnectorCounts(i: nat, pc: ConnectorPc): nat {
    One(Carries(pc) || pc.CUncounting?)
  }

  function ConnectorGroups(i: nat, pc: ConnectorPc): nat {
    One(Carries(pc) || pc.CUncounting? || pc.CReleasing?)
  }

  ghost function Counted(s: State): nat {
    Total(s.sources, SourceCounts) + Total(s.workers, WorkerCounts) + Total(s.connectors, ConnectorCounts)
    + AllLeaked(s)
  }

  ghost function Grouped(s: State): nat {
    Total(s.sources, SourceGroups) + Total(s.workers, WorkerCounts) + Total(s.connectors, ConnectorGroups)
    + AllLeaked(s)
  }

  ghost predicate Counting(s: State) {
    s.inFlight == Wrap(Counted(s)) && s.waitGroup == Grouped(s)
  }

  // ----- Moving one goroutine -----

  lemma MoveSource(s: State, i: nat, pc: SourcePc, o: Obligation)
    requires i < |s.sources|
    ensures Holders(SetSource(s, i, pc), o) + One(SourceHas(s.sources[i], o)) == Holders(s, o) + One(SourceHas(pc, o))
    ensures Counted(SetSource(s, i, pc)) + SourceCounts(i, s.sources[i]) == Counted(s) + SourceCounts(i, pc)
    ensures Grouped(SetSource(s, i, pc)) + SourceGroups(i, s.sources[i]) == Grouped(s) + SourceGroups(i, pc)
  {
    TotalUpdate(s.sources, i, pc, SourceHolds(o));
    TotalUpdate(s.sources, i, pc, SourceCounts);
    TotalUpdate(s.sources, i, pc, SourceGroups);
  }

  lemma MoveWorker(s: State, w: nat, pc: WorkerPc, o: Obligation)
    requires w < |s.workers|
    ensures Holders(SetWorker(s, w, pc), o) + One(WorkerHas(s.workers[w], o)) == Holders(s, o) + One(WorkerHas(pc, o))
    ensures Counted(SetWorker(s, w, pc)) + WorkerCounts(w, s.workers[w]) == Counted(s) + WorkerCounts(w, pc)
    ensures Grouped(SetWorker(s, w, pc)) + WorkerCounts(w, s.workers[w]) == Grouped(s) + WorkerCounts(w, pc)
  {
    TotalUpdate(s.workers, w, pc, WorkerHolds(o));
    TotalUpdate(s.workers, w, pc, WorkerCounts);
  }

  lemma MoveConnector(s: State, c: nat, pc: ConnectorPc, o: Obligation)
    requires c < |s.connectors|
    ensures Holders(SetConnector(s, c, pc), o) + One(ConnectorHas(s.connectors[c], o)) ==
              Holders(s, o) + One(ConnectorHas(pc, o))
    ensures Counted(SetConnector(s, c, pc)) + ConnectorCounts(c, s.connectors[c]) == Counted(s) + ConnectorCounts(c, pc)
    ensures Grouped(SetConnector(s, c, pc)) + ConnectorGroups(c, s.connectors[c]) == Grouped(s) + ConnectorGroups(c, pc)
  {
    TotalUpdate(s.connectors, c, pc, ConnectorHolds(o));
    TotalUpdate(s.connectors, c, pc, ConnectorCounts);
    TotalUpdate(s.connectors, c, pc, ConnectorGroups);
  }

  /** Appending a leak adds its size to both counters' accounts. */
  lemma LeakMore(s: State, id: nat, from: nat, end: nat, o: Obligation)
    requires from <= end
    ensures var t := LeakEntries(s, id, from, end);
            && Leaked(t, o) == Leaked(s, o) + One(id == o.message && from <= o.entry < end)
            && Counted(t) == Counted(s) + (end - from) && Grouped(t) == Grouped(s) + (end - from)
  {
    TotalAppend(s.leaks, Leak(id, from, end), LeakOf(o));
    TotalAppend(s.leaks, Leak(id, from, end), LeakSize);
  }

  lemma LeakOne(s: State, owed: Obligation, o: Obligation)
    ensures var t := LeakEntries(s, owed.message, owed.entry, owed.entry + 1);
            && Leaked(t, o) == Leaked(s, o) + One(owed == o)
            && Counted(t) == Counted(s) + 1 && Grouped(t) == Grouped(s) + 1
  {
    LeakMore(s, owed.message, owed.entry, owed.entry + 1, o);
    assert owed == o <==> owed.message == o.message && owed.entry == o.entry;
  }

  /** The first uncovered entry and the rest. */
  lemma CoversNext(id: nat, j: nat, targets: seq<Name>, o: Obligation)
    requires j < |targets|
    ensures One(Covers(id, j, targets, o)) == One(Obligation(id, j) == o) + One(Covers(id, j + 1, targets, o))
  {
    assert Obligation(id, j) == o <==> id == o.message && j == o.entry;
  }

  ghost predicate Balanced(s: State, o: Obligation) {
    && Holders(s, o) + Leaked(s, o) + Outcomes(s, o) == One(Owed(s, o))
    && Counting(s)
  }

  lemma ModAdd(a: nat, b: nat)
    ensures Wrap(Wrap(a) + b) == Wrap(a + b)
  {
  }

  // ----- Each kind of step keeps the balance -----

  /** A goroutine moves on without gaining or losing an obligation. */
  lemma SourceKeeps(s: State, i: nat, pc: SourcePc, o: Obligation)
    requires i < |s.sources| && Balanced(s, o)
    requires SourceHas(s.sources[i], o) == SourceHas(pc, o)
    requires SourceCounts(i, s.sources[i]) == SourceCounts(i, pc)
    requires SourceGroups(i, s.sources[i]) == SourceGroups(i, pc)
    ensures Balanced(SetSource(s, i, pc), o)
  {
    MoveSource(s, i, pc, o);
  }

  lemma WorkerKeeps(s: State, w: nat, pc: WorkerPc, o: Obligation)
    requires w < |s.workers| && Balanced(s, o)
    requires WorkerHas(s.workers[w], o) == WorkerHas(pc, o) && WorkerCounts(w, s.workers[w]) == WorkerCounts(w, pc)
    ensures Balanced(SetWorker(s, w, pc), o)
  {
    MoveWorker(s, w, pc, o);
  }

  lemma ConnectorKeeps(s: State, c: nat, pc: ConnectorPc, o: Obligation)
    requires c < |s.connectors| && Balanced(s, o)
    requires ConnectorHas(s.connectors[c], o) == ConnectorHas(pc, o)
    requires ConnectorCounts(c, s.connectors[c]) == ConnectorCounts(c, pc)
    requires ConnectorGroups(c, s.connectors[c]) == ConnectorGroups(c, pc)
    ensures Balanced(SetConnector(s, c, pc), o)
  {
    MoveConnector(s, c, pc, o);
  }

  lemma AcceptBalances(s: State, i: nat, msg: BrokerMessage, o: Obligation)
    requires i < |s.sources| && s.sources[i].SIdle? && Balanced(s, o)
    ensures Balanced(AcceptMessage(s, i, msg), o)
  {
    hide Total;
    MoveSource(s.(accepted := s.accepted + [msg]), i, SCounting(|s.accepted|, msg), o);
  }

  lemma CountBalances(cfg: Config, s: State, i: nat, o: Obligation)
    requires i < |s.sources| == |cfg.sources| && s.sources[i].SCounting? && Balanced(s, o)
    ensures Balanced(SourceStep(cfg, s, i, Count).value, o)
  {
    hide Total;
    var SCounting(id, msg) := s.sources[i];
    MoveSource(s, i, SGrouping(id, msg), o);
    ModAdd(Counted(s), |msg.targets|);
  }

  lemma GroupBalances(cfg: Config, s: State, i: nat, o: Obligation)
    requires i < |s.sources| == |cfg.sources| && s.sources[i].SGrouping? && Balanced(s, o)
    ensures Balanced(SourceStep(cfg, s, i, Group).value, o)
  {
    hide Total;
    var SGrouping(id, msg) := s.sources[i];
    MoveSource(s, i, SHanding(id, msg), o);
  }

  /** The rendezvous on Outbound. */
  lemma HandBalances(s: State, i: nat, w: nat, o: Obligation)
    requires i < |s.sources| && w < |s.workers| && s.sources[i].SHanding? && s.workers[w].WIdle? && Balanced(s, o)
    ensures Balanced(SetWorker(SetSource(s, i, SIdle), w, WDecoding(s.sources[i].id, s.sources[i].msg)), o)
  {
    hide Total;
    MoveSource(s, i, SIdle, o);
    MoveWorker(SetSource(s, i, SIdle), w, WDecoding(s.sources[i].id, s.sources[i].msg), o);
  }

  lemma SourceBalances(cfg: Config, s: State, i: nat, a: SourceAct, o: Obligation)
    requires i < |s.sources| == |cfg.sources| && Balanced(s, o)
    requires SourceStep(cfg, s, i, a).Some?
    ensures Balanced(SourceStep(cfg, s, i, a).value, o)
  {
    match a
    case Accept(payload) => AcceptBalances(s, i, SourceToBroker(i, cfg.sources[i], payload), o);
    case Count => CountBalances(cfg, s, i, o);
    case Group => GroupBalances(cfg, s, i, o);
    case HandTo(w) => HandBalances(s, i, w, o);
    case _ => SourceKeeps(s, i, SourceStep(cfg, s, i, a).value.sources[i], o);
  }

  /** An undecodable message: the worker drops all its entries. */
  lemma DropBalances(s: State, w: nat, o: Obligation)
    requires w < |s.workers| && s.workers[w].WDecoding? && Balanced(s, o)
    ensures Balanced(SetWorker(LeakEntries(s, s.workers[w].id, 0, |s.workers[w].msg.targets|), w, WIdle), o)
  {
    hide Total;
    var WDecoding(id, msg) := s.workers[w];
    LeakMore(s, id, 0, |msg.targets|, o);
    MoveWorker(LeakEntries(s, id, 0, |msg.targets|), w, WIdle, o);
  }

  /** One entry goes to its connector, or is dropped for want of one. */
  lemma SendBalances(s: State, w: nat, o: Obligation)
    requires w < |s.workers| && s.workers[w].WFanning? && Balanced(s, o)
    requires s.workers[w].next < |s.workers[w].msg.targets|
    requires WorkerStep(s, w, FanOut).Some?
    ensures Balanced(WorkerStep(s, w, FanOut).value, o)
  {
    hide Total;
    var WFanning(id, msg, j) := s.workers[w];
    var next := SetWorker(s, w, WFanning(id, msg, j + 1));
    MoveWorker(s, w, WFanning(id, msg, j + 1), o);
    CoversNext(id, j, msg.targets, o);
    if msg.targets[j] < |s.connectors| {
      MoveConnector(next, msg.targets[j], CParsing(Parcel(Obligation(id, j), msg, [msg.targets[j]])), o);
    } else {
      LeakOne(next, Obligation(id, j), o);
    }
  }

  lemma WorkerBalances(s: State, w: nat, a: WorkerAct, o: Obligation)
    requires w < |s.workers| && Balanced(s, o)
    requires WorkerStep(s, w, a).Some?
    ensures Balanced(WorkerStep(s, w, a).value, o)
  {
    if a == Decode(false) {
      DropBalances(s, w, o);
    } else if a.FanOut? && s.workers[w].next < |s.workers[w].msg.targets| {
      SendBalances(s, w, o);
    } else {
      WorkerKeeps(s, w, WorkerStep(s, w, a).value.workers[w], o);
    }
  }

  lemma LeakBalances(s: State, c: nat, pc: ConnectorPc, o: Obligation)
    requires c < |s.connectors| && Carries(s.connectors[c]) && (pc.CIdle? || pc.CClosed?) && Balanced(s, o)
    ensures Balanced(SetConnector(LeakParcel(s, s.connectors[c].parcel), c, pc), o)
  {
    hide Total;
    var p := s.connectors[c].parcel;
    LeakOne(s, p.owed, o);
    MoveConnector(LeakParcel(s, p), c, pc, o);
  }

  lemma SettleBalances(s: State, c: nat, result: Result, dying: bool, o: Obligation)
    requires c < |s.connectors| && Carries(s.connectors[c]) && Balanced(s, o)
    ensures var p := s.connectors[c].parcel;
            Balanced(SetConnector(Settle(s, p, result), c, CUncounting(p.owed, dying)), o)
  {
    hide Total;
    var p := s.connectors[c].parcel;
    TotalAppend(s.outcomes, Outcome(p.owed, p.route, result), OutcomeOf(o));
    MoveConnector(Settle(s, p, result), c, CUncounting(p.owed, dying), o);
  }

  /** The rendezvous on the fallback's Inbound. */
  lemma ResendBalances(s: State, c: nat, o: Obligation)
    requires c < |s.connectors| && s.connectors[c].CBlocked? && s.connectors[c].to < |s.connectors|
    requires s.connectors[s.connectors[c].to].CIdle? && Balanced(s, o)
    ensures var CBlocked(p, to) := s.connectors[c];
            Balanced(SetConnector(SetConnector(s, c, CIdle), to, CParsing(Forwarded(p, to))), o)
  {
    hide Total;
    var CBlocked(p, to) := s.connectors[c];
    MoveConnector(s, c, CIdle, o);
    MoveConnector(SetConnector(s, c, CIdle), to, CParsing(Forwarded(p, to)), o);
  }

  lemma UncountBalances(cfg: Config, s: State, c: nat, o: Obligation)
    requires c < |s.connectors| == |cfg.targets| && s.connectors[c].CUncounting? && Balanced(s, o)
    ensures Counted(s) > 0
    ensures Balanced(ConnectorStep(cfg, s, c, Uncount).value, o)
  {
    hide Total;
    var CUncounting(owed, dying) := s.connectors[c];
    MoveConnector(s, c, CReleasing(owed, dying), o);
    ModAdd(Counted(s), U64 - 1);
    assert Wrap(Counted(s) - 1 + U64) == Wrap(Counted(s) - 1);
  }

  lemma ReleaseBalances(cfg: Config, s: State, c: nat, o: Obligation)
    requires c < |s.connectors| == |cfg.targets| && s.connectors[c].CReleasing? && Balanced(s, o)
    ensures s.waitGroup > 0
    ensures Balanced(ConnectorStep(cfg, s, c, Release).value, o)
  {
    hide Total, Wrap;
    MoveConnector(s, c, if s.connectors[c].dying then CClosed else CIdle, o);
  }

  lemma CheckBalances(s: State, c: nat, rule: Breach, v: Verdict, o: Obligation)
    requires c < |s.connectors| && s.connectors[c].CLimiting? && Balanced(s, o)
    ensures Balanced(CheckRule(s, c, s.connectors[c].parcel, s.connectors[c].rule, rule, v), o)
  {
    var CLimiting(p, r) := s.connectors[c];
    var t := CheckRule(s, c, p, r, rule, v);
    if t.leaks != s.leaks {
      LeakBalances(s, c, CIdle, o);
    } else if t.outcomes != s.outcomes {
      SettleBalances(s, c, Discarded, false, o);
    } else {
      ConnectorKeeps(s, c, t.connectors[c], o);
    }
  }

  lemma ConnectorBalances(cfg: Config, s: State, c: nat, a: ConnectorAct, o: Obligation)
    requires c < |s.connectors| == |cfg.targets| && Balanced(s, o)
    requires ConnectorStep(cfg, s, c, a).Some?
    ensures Balanced(ConnectorStep(cfg, s, c, a).value, o)
  {
    match a
    case Check(v) => CheckBalances(s, c, cfg.targets[c][s.connectors[c].rule], v, o);
    case Resend => ResendBalances(s, c, o);
    case Uncount => UncountBalances(cfg, s, c, o);
    case Release => ReleaseBalances(cfg, s, c, o);
    case Await(ok) =>
      var sent := BrokerToTarget(c, s.connectors[c].parcel.msg);
      SettleBalances(s, c, if ok then Delivered(sent) else Unacknowledged(sent), !ok, o);
    case _ =>
      if a == Parse(false) || a == Write(false) {
        LeakBalances(s, c, CClosed, o);
      } else {
        ConnectorKeeps(s, c, ConnectorStep(cfg, s, c, a).value.connectors[c], o);
      }
  }

  // ----- Where messages may be, and what they carry -----

  /** Target t has a rule that falls back to u. */
  predicate Edge(cfg: Config, t: Name, u: Name) {
    t < |cfg.targets| && Fallback(u) in cfg.targets[t]
  }

  /** Each hop of the route follows a fallback rule. */
  predicate FallbackPath(cfg: Config, route: seq<Name>) {
    forall k :: 0 <= k < |route| - 1 ==> Edge(cfg, route[k], route[k + 1])
  }

  /** The route starts at the target the source listed and ends at connector c. */
  predicate Routed(cfg: Config, accepted: seq<BrokerMessage>, owed: Obligation, route: seq<Name>, c: Name) {
    && owed.message < |accepted| && owed.entry < |accepted[owed.message].targets|
    && |route| > 0 && route[0] == accepted[owed.message].targets[owed.entry] && route[|route| - 1] == c
    && FallbackPath(cfg, route)
  }

  /** Re-routing replaces the target list and nothing else. */
  predicate SameMessage(m: BrokerMessage, accepted: BrokerMessage) {
    m.sourceMessage == accepted.sourceMessage && m.source == accepted.source
  }

  predicate SourceSound(accepted: seq<BrokerMessage>, i: nat, pc: SourcePc) {
    pc.SCounting? || pc.SGrouping? || pc.SHanding? ==>
      pc.id < |accepted| && pc.msg == accepted[pc.id] && pc.msg.source == i
  }

  predicate WorkerSound(accepted: seq<BrokerMessage>, pc: WorkerPc) {
    && (pc.WDecoding? || pc.WFanning? ==> pc.id < |accepted| && pc.msg == accepted[pc.id])
    && (pc.WFanning? ==> pc.next <= |pc.msg.targets|)
  }

  predicate ParcelSound(cfg: Config, accepted: seq<BrokerMessage>, c: Name, p: Parcel) {
    Routed(cfg, accepted, p.owed, p.route, c) && SameMessage(p.msg, accepted[p.owed.message])
  }

  predicate ConnectorSound(cfg: Config, accepted: seq<BrokerMessage>, c: Name, pc: ConnectorPc) {
    && (Carries(pc) ==> ParcelSound(cfg, accepted, c, pc.parcel))
    && (pc.CLimiting? ==> c < |cfg.targets| && pc.rule <= |cfg.targets[c]|)
    && (pc.CBlocked? ==> Edge(cfg, c, pc.to) && pc.to < |cfg.targets| && pc.parcel.msg.targets == [pc.to])
  }

  /** What the record of a delivery says: the accepted payload and source, under the name of the
      connector that ends the route. */
  predicate OutcomeSound(cfg: Config, accepted: seq<BrokerMessage>, r: Outcome) {
    && |r.route| > 0 && Routed(cfg, accepted, r.owed, r.route, r.route[|r.route| - 1])
    && (!r.result.Discarded? ==>
          var m := accepted[r.owed.message];
          r.result.sent == TargetMessage(m.sourceMessage, r.route[|r.route| - 1], m.source))
  }

  predicate AcceptedSound(cfg: Config, accepted: seq<BrokerMessage>) {
    forall k :: 0 <= k < |accepted| ==>
      accepted[k].source < |cfg.sources| && accepted[k].targets == cfg.sources[accepted[k].source]
  }

  predicate SourcesSound(accepted: seq<BrokerMessage>, sources: seq<SourcePc>) {
    forall i :: 0 <= i < |sources| ==> SourceSound(accepted, i, sources[i])
  }

  predicate WorkersSound(accepted: seq<BrokerMessage>, workers: seq<WorkerPc>) {
    forall w :: 0 <= w < |workers| ==> WorkerSound(accepted, workers[w])
  }

  predicate ConnectorsSound(cfg: Config, accepted: seq<BrokerMessage>, connectors: seq<ConnectorPc>) {
    forall c :: 0 <= c < |connectors| ==> ConnectorSound(cfg, accepted, c, connectors[c])
  }

  predicate OutcomesSound(cfg: Config, accepted: seq<BrokerMessage>, outcomes: seq<Outcome>) {
    forall k :: 0 <= k < |outcomes| ==> OutcomeSound(cfg, accepted, outcomes[k])
  }

  predicate Sound(cfg: Config, s: State) {
    && AcceptedSound(cfg, s.accepted)
    && SourcesSound(s.accepted, s.sources)
    && WorkersSound(s.accepted, s.workers)
    && ConnectorsSound(cfg, s.accepted, s.connectors)
    && OutcomesSound(cfg, s.accepted, s.outcomes)
  }

  /** The order of shutdown. */
  predicate Phased(s: State) {
    && (forall w :: 0 <= w < |s.workers| && s.workers[w].WClosed? ==> WorkerStopClosed(s.main))
    && (!s.main.WaitSources? ==> AllSourcesClosed(s))
    && (!s.main.WaitSources? && !s.main.WaitWorkers? ==> AllWorkersClosed(s))
    && (TargetStopClosed(s.main) ==> s.waitGroup == 0)
    && (s.main.Returned? ==> AllConnectorsClosed(s))
  }

  lemma RouteGrows(cfg: Config, route: seq<Name>, u: Name)
    requires FallbackPath(cfg, route) && |route| > 0 && Edge(cfg, route[|route| - 1], u)
    ensures FallbackPath(cfg, route + [u])
  {
    var longer := route + [u];
    forall k | 0 <= k < |longer| - 1
      ensures Edge(cfg, longer[k], longer[k + 1])
    {
      assert longer[k] == route[k];
      if k < |route| - 1 {
        assert longer[k + 1] == route[k + 1];
      }
    }
  }

  /** Accepting one more message disturbs nothing that was said of the earlier ones. */
  lemma AcceptSound(cfg: Config, s: State, i: nat, payload: string)
    requires Shaped(cfg, s) && Sound(cfg, s) && i < |s.sources|
    ensures Sound(cfg, AcceptMessage(s, i, SourceToBroker(i, cfg.sources[i], payload)))
  {
    var m := SourceToBroker(i, cfg.sources[i], payload);
    forall c | 0 <= c < |s.connectors|
      ensures ConnectorSound(cfg, s.accepted + [m], c, s.connectors[c])
    {
      assert ConnectorSound(cfg, s.accepted, c, s.connectors[c]);
    }
    forall k | 0 <= k < |s.outcomes|
      ensures OutcomeSound(cfg, s.accepted + [m], s.outcomes[k])
    {
      assert OutcomeSound(cfg, s.accepted, s.outcomes[k]);
    }
  }

  lemma SourceSoundStep(cfg: Config, s: State, i: nat, a: SourceAct)
    requires Shaped(cfg, s) && Sound(cfg, s) && i < |s.sources|
    requires SourceStep(cfg, s, i, a).Some?
    ensures Sound(cfg, SourceStep(cfg, s, i, a).value)
  {
    if a.Accept? {
      AcceptSound(cfg, s, i, a.payload);
    } else {
      assert SourceSound(s.accepted, i, s.sources[i]);
    }
  }

  lemma WorkerSoundStep(cfg: Config, s: State, w: nat, a: WorkerAct)
    requires Shaped(cfg, s) && Sound(cfg, s) && w < |s.workers|
    requires WorkerStep(s, w, a).Some?
    ensures Sound(cfg, WorkerStep(s, w, a).value)
  {
    assert WorkerSound(s.accepted, s.workers[w]);
  }

  /** A connector's step leaves every connector with a sound parcel. */
  lemma ParcelsSoundStep(cfg: Config, s: State, c: nat, a: ConnectorAct)
    requires Shaped(cfg, s) && Sound(cfg, s) && c < |s.connectors| && !a.Resend?
    requires ConnectorStep(cfg, s, c, a).Some?
    ensures ConnectorsSound(cfg, s.accepted, ConnectorStep(cfg, s, c, a).value.connectors)
  {
    hide Routed, FallbackPath;
    var t := ConnectorStep(cfg, s, c, a).value;
    assert ConnectorSound(cfg, s.accepted, c, s.connectors[c]);
    assert t.connectors == s.connectors[c := t.connectors[c]];
    assert ConnectorSound(cfg, s.accepted, c, t.connectors[c]);
  }

  lemma ResendSound(cfg: Config, s: State, c: nat)
    requires Shaped(cfg, s) && Sound(cfg, s) && c < |s.connectors|
    requires ConnectorStep(cfg, s, c, Resend).Some?
    ensures ConnectorsSound(cfg, s.accepted, ConnectorStep(cfg, s, c, Resend).value.connectors)
  {
    hide FallbackPath;
    var pc := s.connectors[c];
    assert ConnectorSound(cfg, s.accepted, c, pc);
    RouteGrows(cfg, pc.parcel.route, pc.to);
    assert ParcelSound(cfg, s.accepted, pc.to, Forwarded(pc.parcel, pc.to));
  }

  lemma OutcomesSoundStep(cfg: Config, s: State, c: nat, a: ConnectorAct)
    requires Shaped(cfg, s) && Sound(cfg, s) && c < |s.connectors|
    requires ConnectorStep(cfg, s, c, a).Some?
    ensures OutcomesSound(cfg, s.accepted, ConnectorStep(cfg, s, c, a).value.outcomes)
  {
    hide FallbackPath;
    var t := ConnectorStep(cfg, s, c, a).value;
    assert ConnectorSound(cfg, s.accepted, c, s.connectors[c]);
    if t.outcomes != s.outcomes {
      assert OutcomeSound(cfg, s.accepted, t.outcomes[|s.outcomes|]);
    }
  }

  lemma ConnectorSoundStep(cfg: Config, s: State, c: nat, a: ConnectorAct)
    requires Shaped(cfg, s) && Sound(cfg, s) && c < |s.connectors|
    requires ConnectorStep(cfg, s, c, a).Some?
    ensures Sound(cfg, ConnectorStep(cfg, s, c, a).value)
  {
    hide ConnectorsSound, OutcomesSound, SourcesSound, WorkersSound, AcceptedSound;
    if a.Resend? {
      ResendSound(cfg, s, c);
    } else {
      ParcelsSoundStep(cfg, s, c, a);
    }
    OutcomesSoundStep(cfg, s, c, a);
  }

  // ----- The invariant and what it says of every run -----

  ghost predicate Inv(cfg: Config, s: State) {
    Shaped(cfg, s) && Sound(cfg, s) && Phased(s) && forall o :: Balanced(s, o)
  }

  /** Once the WaitGroup is at zero, no connector has anything to do. */
  lemma DrainedConnector(s: State, c: nat)
    requires c < |s.connectors| && Counting(s) && s.waitGroup == 0
    ensures !Carries(s.connectors[c]) && !s.connectors[c].CUncounting? && !s.connectors[c].CReleasing?
  {
    TotalAtLeast(s.connectors, c, ConnectorGroups);
  }

  lemma StepBalances(cfg: Config, s: State, a: Action, o: Obligation)
    requires Shaped(cfg, s) && Balanced(s, o) && Step(cfg, s, a).Some?
    ensures Balanced(Step(cfg, s, a).value, o)
  {
    hide Balanced, SourceStep, WorkerStep, ConnectorStep, MainStep;
    match a
    case Source(i, b) => SourceBalances(cfg, s, i, b, o);
    case Worker(w, b) => WorkerBalances(s, w, b, o);
    case Connector(c, b) => ConnectorBalances(cfg, s, c, b, o);
    case Main(b) => MainBalances(s, b, o);
  }

  lemma MainBalances(s: State, a: MainAct, o: Obligation)
    requires Balanced(s, o) && MainStep(s, a).Some?
    ensures Balanced(MainStep(s, a).value, o)
  {
    hide Total;
  }

  lemma StepSound(cfg: Config, s: State, a: Action)
    requires Shaped(cfg, s) && Sound(cfg, s) && Step(cfg, s, a).Some?
    ensures Sound(cfg, Step(cfg, s, a).value)
  {
    match a
    case Source(i, b) => SourceSoundStep(cfg, s, i, b);
    case Worker(w, b) => WorkerSoundStep(cfg, s, w, b);
    case Connector(c, b) => ConnectorSoundStep(cfg, s, c, b);
    case Main(_) =>
  }

  lemma StepPhased(cfg: Config, s: State, a: Action)
    requires Shaped(cfg, s) && Counting(s) && Phased(s) && Step(cfg, s, a).Some?
    ensures Phased(Step(cfg, s, a).value)
  {
    hide Total, Counting, SourceStep, ConnectorStep;
    match a
    case Source(i, b) => SourcePhased(cfg, s, i, b);
    case Worker(_, _) =>
    case Connector(c, b) => ConnectorPhased(cfg, s, c, b);
    case Main(_) =>
  }

  lemma SourcePhased(cfg: Config, s: State, i: nat, a: SourceAct)
    requires Shaped(cfg, s) && Phased(s) && i < |s.sources| && SourceStep(cfg, s, i, a).Some?
    ensures Phased(SourceStep(cfg, s, i, a).value)
  {
    assert s.main.WaitSources?;
  }

  lemma ConnectorPhased(cfg: Config, s: State, c: nat, a: ConnectorAct)
    requires Shaped(cfg, s) && Counting(s) && Phased(s) && c < |s.connectors| && ConnectorStep(cfg, s, c, a).Some?
    ensures Phased(ConnectorStep(cfg, s, c, a).value)
  {
    hide Total, Counting;
    if s.waitGroup == 0 {
      DrainedConnector(s, c);
    }
  }

  lemma InitInv(cfg: Config)
    ensures Inv(cfg, Init(cfg))
  {
    hide Total;
    var s := Init(cfg);
    forall o
      ensures Holders(s, o) + Leaked(s, o) + Outcomes(s, o) == 0
    {
      TotalZero(s.leaks, LeakOf(o));
      TotalZero(s.outcomes, OutcomeOf(o));
      TotalZero(s.sources, SourceHolds(o));
      TotalZero(s.workers, WorkerHolds(o));
      TotalZero(s.connectors, ConnectorHolds(o));
    }
    TotalZero(s.sources, SourceCounts);
    TotalZero(s.sources, SourceGroups);
    TotalZero(s.workers, WorkerCounts);
    TotalZero(s.connectors, ConnectorCounts);
    TotalZero(s.connectors, ConnectorGroups);
    TotalZero(s.leaks, LeakSize);
  }

  lemma StepInv(cfg: Config, s: State, a: Action)
    requires Inv(cfg, s) && Step(cfg, s, a).Some?
    ensures Inv(cfg, Step(cfg, s, a).value)
  {
    forall o
      ensures Balanced(Step(cfg, s, a).value, o)
    {
      assert Balanced(s, o);
      StepBalances(cfg, s, a, o);
    }
    assert Balanced(s, Obligation(0, 0));
    StepSound(cfg, s, a);
    StepPhased(cfg, s, a);
  }

  lemma {:induction false} RunInv(cfg: Config, s: State, acts: seq<Action>)
    requires Inv(cfg, s) && Run(cfg, s, acts).Some?
    ensures Inv(cfg, Run(cfg, s, acts).value)
    decreases |acts|
  {
    if acts != [] {
      StepInv(cfg, s, acts[0]);
      RunInv(cfg, Step(cfg, s, acts[0]).value, acts[1..]);
    }
  }

  lemma ReachedInv(cfg: Config, acts: seq<Action>, s: State)
    requires Reached(cfg, acts, s)
    ensures Inv(cfg, s)
  {
    InitInv(cfg);
    RunInv(cfg, Init(cfg), acts);
  }

  /** Conservation: in every reachable state each obligation of an accepted message is held by
      exactly one goroutine, or leaked once, or settled once; nothing else is. MessagesInFlight
      is, modulo 2^64, the number of obligations counted and not completed; the WaitGroup is
      that number exactly and never negative. */
  lemma Conservation(cfg: Config, acts: seq<Action>, s: State, o: Obligation)
    requires Reached(cfg, acts, s)
    ensures Holders(s, o) + Leaked(s, o) + Outcomes(s, o) == One(Owed(s, o))
    ensures s.inFlight == Counted(s) % U64
    ensures s.waitGroup == Grouped(s) >= 0
  {
    ReachedInv(cfg, acts, s);
    assert Balanced(s, o);
  }

  /** The decrement by all ones never wraps below zero: a connector about to decrement finds its
      own delivery in the counter, as long as fewer than 2^64 deliveries are in flight. */
  lemma DecrementExact(cfg: Config, acts: seq<Action>, s: State, c: nat)
    requires Reached(cfg, acts, s) && c < |s.connectors| && s.connectors[c].CUncounting?
    requires Counted(s) < U64
    ensures s.inFlight > 0
    ensures var CUncounting(owed, dying) := s.connectors[c];
            Step(cfg, s, Connector(c, Uncount)) ==
            Some(SetConnector(s.(inFlight := s.inFlight - 1), c, CReleasing(owed, dying)))
  {
    hide Total;
    ReachedInv(cfg, acts, s);
    var o := Obligation(0, 0);
    assert Balanced(s, o);
    UncountBalances(cfg, s, c, o);
  }

  /** o has one terminal outcome, at position k of the log. */
  ghost predicate SettledOnceAt(s: State, o: Obligation, k: nat) {
    && k < |s.outcomes| && s.outcomes[k].owed == o
    && forall j :: 0 <= j < |s.outcomes| && j != k ==> s.outcomes[j].owed != o
  }

  /** Shutdown safety: in every run, failures included, once TargetStop is closed the sources and
      workers have finished, no connector holds a message, and every accepted obligation has
      exactly one terminal outcome. */
  lemma ShutdownSafety(cfg: Config, acts: seq<Action>, s: State)
    requires Reached(cfg, acts, s) && TargetStopClosed(s.main)
    ensures AllSourcesClosed(s) && AllWorkersClosed(s)
    ensures forall c :: 0 <= c < |s.connectors| ==> !Carries(s.connectors[c])
    ensures AllLeaked(s) == 0
    ensures forall o :: Owed(s, o) ==> exists k :: SettledOnceAt(s, o, k)
  {
    ReachedInv(cfg, acts, s);
    assert Balanced(s, Obligation(0, 0));
    forall c | 0 <= c < |s.connectors|
      ensures !Carries(s.connectors[c])
    {
      DrainedConnector(s, c);
    }
    forall o | Owed(s, o)
      ensures exists k :: SettledOnceAt(s, o, k)
    {
      assert Balanced(s, o);
      TotalZero(s.sources, SourceHolds(o));
      TotalZero(s.workers, WorkerHolds(o));
      TotalZero(s.connectors, ConnectorHolds(o));
      LeakedZero(s, o);
      var k := TotalUnique(s.outcomes, OutcomeOf(o));
      assert SettledOnceAt(s, o, k);
    }
  }

  lemma LeakedZero(s: State, o: Obligation)
    requires AllLeaked(s) == 0
    ensures Leaked(s, o) == 0
  {
    if Leaked(s, o) > 0 {
      var i := TotalWitness(s.leaks, LeakOf(o));
      TotalAtLeast(s.leaks, i, LeakSize);
    }
  }

  lemma LeaksGrow(cfg: Config, s: State, a: Action)
    requires Shaped(cfg, s) && Step(cfg, s, a).Some?
    ensures AllLeaked(Step(cfg, s, a).value) >= AllLeaked(s)
  {
    var t := Step(cfg, s, a).value;
    if t.leaks != s.leaks {
      TotalAppend(s.leaks, t.leaks[|s.leaks|], LeakSize);
    }
  }

  /** One leaked obligation is enough: whatever happens next, TargetStop is never closed. */
  lemma {:induction false} LeakPreventsShutdown(cfg: Config, s: State, acts: seq<Action>)
    requires Inv(cfg, s) && AllLeaked(s) > 0 && Run(cfg, s, acts).Some?
    ensures !TargetStopClosed(Run(cfg, s, acts).value.main)
    decreases |acts|
  {
    if acts == [] {
      assert Balanced(s, Obligation(0, 0));
    } else {
      StepInv(cfg, s, acts[0]);
      LeaksGrow(cfg, s, acts[0]);
      LeakPreventsShutdown(cfg, Step(cfg, s, acts[0]).value, acts[1..]);
    }
  }

  /** Every message a target received carries the payload and the source name of the message the
      broker accepted, under the name of the delivering connector; the connectors it went through
      follow fallback rules from a target that its source lists. */
  lemma DeliveredIntact(cfg: Config, acts: seq<Action>, s: State, k: nat)
    requires Reached(cfg, acts, s) && k < |s.outcomes| && s.outcomes[k].result.Delivered?
    ensures var r := s.outcomes[k];
            && Owed(s, r.owed) && |r.route| > 0
            && var m := s.accepted[r.owed.message];
               && m.source < |cfg.sources| && m.targets == cfg.sources[m.source]
               && r.result.sent == TargetMessage(m.sourceMessage, r.route[|r.route| - 1], m.source)
               && r.route[0] == cfg.sources[m.source][r.owed.entry]
               && FallbackPath(cfg, r.route)
  {
    ReachedInv(cfg, acts, s);
    assert OutcomeSound(cfg, s.accepted, s.outcomes[k]);
  }

  /** When a source connector's Handle has returned, every message it acknowledged has been
      counted in flight and taken over by a worker. */
  lemma ClosedSourceHandedOver(cfg: Config, acts: seq<Action>, s: State, i: nat, o: Obligation)
    requires Reached(cfg, acts, s) && i < |s.sources| && s.sources[i].SClosed?
    requires Owed(s, o) && s.accepted[o.message].source == i
    ensures Total(s.workers, WorkerHolds(o)) + Total(s.connectors, ConnectorHolds(o)) + Leaked(s, o) + Outcomes(s, o) ==
              1
  {
    ReachedInv(cfg, acts, s);
    assert Balanced(s, o);
    forall j | 0 <= j < |s.sources|
      ensures SourceHolds(o)(j, s.sources[j]) == 0
    {
      assert SourceSound(s.accepted, j, s.sources[j]);
    }
    TotalZero(s.sources, SourceHolds(o));
  }
}
