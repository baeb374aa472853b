/** The broker pipeline: source connectors, workers, target connectors and the goroutine
    that runs Broker.Start, as one transition system. Channels are unbuffered, so a send and
    its receive are one step that moves two goroutines. A failing connection, codec or peer is
    a step parameter, and so is a rate limiter's verdict. */
module Broker {
  import opened Common
  import opened Sums

  /** A target name. Names are numbered so that the TargetConnectors map holds exactly the
      numbers below |targets|; any other number is a name that no target bears. */
  type Name = nat

  /** What a rule does once its limiter is over: "discard", "fallback", anything else. */
  datatype Breach = Discard | Fallback(target: Name) | Unhandled

  /** `sources[i]` lists the targets of source i, `targets[t]` the rate limit rules of target t. */
  datatype Config = Config(sources: seq<seq<Name>>, targets: seq<seq<Breach>>, workers: nat)

  datatype BrokerMessage = BrokerMessage(sourceMessage: string, source: nat, targets: seq<Name>)

  datatype TargetMessage = TargetMessage(sourceMessage: string, target: Name, source: nat)

  function SourceToBroker(source: nat, targets: seq<Name>, payload: string): BrokerMessage {
    BrokerMessage(payload, source, targets)
  }

  function BrokerToTarget(target: Name, m: BrokerMessage): TargetMessage {
    TargetMessage(m.sourceMessage, target, m.source)
  }

  /** What accepting a message makes the broker owe: one delivery per entry of its target list.
      Messages are numbered in the order in which the broker accepted them. */
  datatype Obligation = Obligation(message: nat, entry: nat)

  /** A message in the hands of a target connector, with the obligation it stands for and the
      connectors it has been received by so far. */
  datatype Parcel = Parcel(owed: Obligation, msg: BrokerMessage, route: seq<Name>)

  /** Entries from..end of a message that no goroutine will ever complete. */
  datatype Leak = Leak(message: nat, from: nat, end: nat)

  datatype Result = Delivered(sent: TargetMessage) | Discarded | Unacknowledged(sent: TargetMessage)

  datatype Outcome = Outcome(owed: Obligation, route: seq<Name>, result: Result)

  datatype SourcePc =
    | SConnecting
    | SIdle
    | SCounting(id: nat, msg: BrokerMessage)   // acknowledged, not yet in MessagesInFlight
    | SGrouping(id: nat, msg: BrokerMessage)   // in MessagesInFlight, not yet in the WaitGroup
    | SHanding(id: nat, msg: BrokerMessage)    // blocked on Outbound
    | SClosed

  datatype WorkerPc =
    | WIdle
    | WDecoding(id: nat, msg: BrokerMessage)
    | WFanning(id: nat, msg: BrokerMessage, next: nat)
    | WClosed

  datatype ConnectorPc =
    | CConnecting
    | CIdle
    | CParsing(parcel: Parcel)
    | CLimiting(parcel: Parcel, rule: nat)
    | CBlocked(parcel: Parcel, to: Name)               // blocked on the fallback's Inbound
    | CAwaiting(parcel: Parcel)
    | CUncounting(owed: Obligation, dying: bool)       // settled, still in MessagesInFlight
    | CReleasing(owed: Obligation, dying: bool)        // settled, still in the WaitGroup
    | CClosed

  datatype MainPc = WaitSources | WaitWorkers | WaitInFlight | WaitTargets | Returned

  datatype State = State(
    main: MainPc,
    sourceStop: bool,
    sources: seq<SourcePc>,
    workers: seq<WorkerPc>,
    connectors: seq<ConnectorPc>,
    inFlight: nat,
    waitGroup: int,
    accepted: seq<BrokerMessage>,
    leaks: seq<Leak>,
    outcomes: seq<Outcome>)

  predicate WorkerStopClosed(m: MainPc) { !m.WaitSources? }

  predicate TargetStopClosed(m: MainPc) { m.WaitTargets? || m.Returned? }

  function Init(cfg: Config): State {
    State(WaitSources, false,
          seq(|cfg.sources|, _ => SConnecting), seq(cfg.workers, _ => WIdle),
          seq(|cfg.targets|, _ => CConnecting), 0, 0, [], [], [])
  }

  datatype SourceAct = Dial(ok: bool) | Accept(payload: string) | Fail | Count | Group | HandTo(worker: nat) | Quit
  datatype WorkerAct = Decode(ok: bool) | FanOut | Leave
  datatype Verdict = Under | Over | OverUnmarshallable
  datatype ConnectorAct =
    | Open(ok: bool) | Parse(ok: bool) | Check(verdict: Verdict) | Resend | Write(ok: bool)
    | Await(ok: bool) | Uncount | Release | Halt
  datatype MainAct = RequestStop | StopWorkers | AwaitInFlight | CloseTargets | Return

  datatype Action =
    | Source(source: nat, srcAct: SourceAct)
    | Worker(worker: nat, wrkAct: WorkerAct)
    | Connector(connector: nat, conAct: ConnectorAct)
    | Main(mainAct: MainAct)

  function SetSource(s: State, i: nat, pc: SourcePc): State
    requires i < |s.sources|
  {
    s.(sources := s.sources[i := pc])
  }

  function SetWorker(s: State, w: nat, pc: WorkerPc): State
    requires w < |s.workers|
  {
    s.(workers := s.workers[w := pc])
  }

  function SetConnector(s: State, c: nat, pc: ConnectorPc): State
    requires c < |s.connectors|
  {
    s.(connectors := s.connectors[c := pc])
  }

  function LeakEntries(s: State, id: nat, from: nat, end: nat): State {
    s.(leaks := s.leaks + [Leak(id, from, end)])
  }

  function LeakParcel(s: State, p: Parcel): State {
    LeakEntries(s, p.owed.message, p.owed.entry, p.owed.entry + 1)
  }

  function Settle(s: State, p: Parcel, result: Result): State {
    s.(outcomes := s.outcomes + [Outcome(p.owed, p.route, result)])
  }

  /** SourceConnector.Handle. Quitting and receiving are both ready once SourceStop is closed,
      so a source may still accept after that. */
  function SourceStep(cfg: Config, s: State, i: nat, a: SourceAct): Option<State>
    requires i < |s.sources| && |s.sources| == |cfg.sources|
  {
    var pc := s.sources[i];
    match a
    case Dial(ok) => if pc.SConnecting? then Some(SetSource(s, i, if ok then SIdle else SClosed)) else None
    case Accept(payload) =>
      if pc.SIdle? then Some(AcceptMessage(s, i, SourceToBroker(i, cfg.sources[i], payload))) else None
    case Fail => if pc.SIdle? then Some(SetSource(s, i, SClosed)) else None
    case Count =>
      if pc.SCounting?
      then Some(SetSource(s.(inFlight := Wrap(s.inFlight + |pc.msg.targets|)), i, SGrouping(pc.id, pc.msg)))
      else None
    case Group =>
      if pc.SGrouping?
      then Some(SetSource(s.(waitGroup := s.waitGroup + |pc.msg.targets|), i, SHanding(pc.id, pc.msg)))
      else None
    case HandTo(w) =>
      if pc.SHanding? && w < |s.workers| && s.workers[w].WIdle?
      then Some(SetWorker(SetSource(s, i, SIdle), w, WDecoding(pc.id, pc.msg)))
      else None
    case Quit => if pc.SIdle? && s.sourceStop then Some(SetSource(s, i, SClosed)) else None
  }

  function AcceptMessage(s: State, i: nat, msg: BrokerMessage): State
    requires i < |s.sources|
  {
    SetSource(s.(accepted := s.accepted + [msg]), i, SCounting(|s.accepted|, msg))
  }

  /** Worker.Start: an undecodable message leaks all its entries, an unknown target its own. */
  function WorkerStep(s: State, w: nat, a: WorkerAct): Option<State>
    requires w < |s.workers|
  {
    var pc := s.workers[w];
    match a
    case Decode(ok) =>
      if !pc.WDecoding? then None
      else if ok then Some(SetWorker(s, w, WFanning(pc.id, pc.msg, 0)))
      else Some(SetWorker(LeakEntries(s, pc.id, 0, |pc.msg.targets|), w, WIdle))
    case FanOut => if pc.WFanning? then SendToTarget(s, w, pc.id, pc.msg, pc.next) else None
    case Leave => if pc.WIdle? && WorkerStopClosed(s.main) then Some(SetWorker(s, w, WClosed)) else None
  }

  /** One round of the loop over the message's targets, or the end of the loop. */
  function SendToTarget(s: State, w: nat, id: nat, msg: BrokerMessage, j: nat): Option<State>
    requires w < |s.workers|
  {
    if j >= |msg.targets| then Some(SetWorker(s, w, WIdle))
    else
      var next := SetWorker(s, w, WFanning(id, msg, j + 1));
      var t := msg.targets[j];
      if t >= |s.connectors| then Some(LeakEntries(next, id, j, j + 1))
      else if s.connectors[t].CIdle? then Some(SetConnector(next, t, CParsing(Parcel(Obligation(id, j), msg, [t]))))
      else None
  }

  /** TargetConnector.Handle and handleRateLimiting, one rule per Check. */
  function ConnectorStep(cfg: Config, s: State, c: nat, a: ConnectorAct): Option<State>
    requires c < |s.connectors| && |s.connectors| == |cfg.targets|
  {
    var pc := s.connectors[c];
    match a
    case Open(ok) => if pc.CConnecting? then Some(SetConnector(s, c, if ok then CIdle else CClosed)) else None
    case Parse(ok) =>
      if !pc.CParsing? then None
      else if ok then Some(SetConnector(s, c, CLimiting(pc.parcel, 0)))
      else Some(SetConnector(LeakParcel(s, pc.parcel), c, CClosed))
    case Check(v) =>
      if pc.CLimiting? && pc.rule < |cfg.targets[c]|
      then Some(CheckRule(s, c, pc.parcel, pc.rule, cfg.targets[c][pc.rule], v))
      else None
    case Resend =>
      if pc.CBlocked? && pc.to < |s.connectors| && s.connectors[pc.to].CIdle?
      then Some(SetConnector(SetConnector(s, c, CIdle), pc.to, CParsing(Forwarded(pc.parcel, pc.to))))
      else None
    case Write(ok) =>
      if !pc.CLimiting? || pc.rule < |cfg.targets[c]| then None
      else if ok then Some(SetConnector(s, c, CAwaiting(pc.parcel)))
      else Some(SetConnector(LeakParcel(s, pc.parcel), c, CClosed))
    case Await(ok) => if pc.CAwaiting? then Some(Acknowledge(s, c, pc.parcel, ok)) else None
    case Uncount =>
      if pc.CUncounting?
      then Some(SetConnector(s.(inFlight := Wrap(s.inFlight + (U64 - 1))), c, CReleasing(pc.owed, pc.dying)))
      else None
    case Release =>
      if pc.CReleasing?
      then Some(SetConnector(s.(waitGroup := s.waitGroup - 1), c, if pc.dying then CClosed else CIdle))
      else None
    case Halt => if pc.CIdle? && TargetStopClosed(s.main) then Some(SetConnector(s, c, CClosed)) else None
  }

  /** One round of the loop over the rules. An unmarshallable message and an unknown fallback
      both return without completing the message. */
  function CheckRule(s: State, c: nat, p: Parcel, r: nat, rule: Breach, v: Verdict): State
    requires c < |s.connectors|
  {
    if v.Under? || rule.Unhandled? then SetConnector(s, c, CLimiting(p, r + 1))
    else if rule.Discard? then SetConnector(Settle(s, p, Discarded), c, CUncounting(p.owed, false))
    else if v.OverUnmarshallable? || rule.target >= |s.connectors| then SetConnector(LeakParcel(s, p), c, CIdle)
    else SetConnector(s, c, CBlocked(p.(msg := p.msg.(targets := [rule.target])), rule.target))
  }

  function Forwarded(p: Parcel, next: Name): Parcel { p.(route := p.route + [next]) }

  /** WaitForOk after a write that succeeded. */
  function Acknowledge(s: State, c: nat, p: Parcel, ok: bool): State
    requires c < |s.connectors|
  {
    var sent := BrokerToTarget(c, p.msg);
    SetConnector(Settle(s, p, if ok then Delivered(sent) else Unacknowledged(sent)), c, CUncounting(p.owed, !ok))
  }

  /** Broker.Start after the goroutines are launched, and Broker.Stop. */
  function MainStep(s: State, a: MainAct): Option<State> {
    match a
    case RequestStop => if s.sourceStop then None else Some(s.(sourceStop := true))
    case StopWorkers =>
      if s.main.WaitSources? && AllSourcesClosed(s) then Some(s.(main := WaitWorkers)) else None
    case AwaitInFlight =>
      if s.main.WaitWorkers? && AllWorkersClosed(s) then Some(s.(main := WaitInFlight)) else None
    case CloseTargets =>
      if s.main.WaitInFlight? && s.waitGroup == 0 then Some(s.(main := WaitTargets)) else None
    case Return =>
      if s.main.WaitTargets? && AllConnectorsClosed(s) then Some(s.(main := Returned)) else None
  }

  predicate AllSourcesClosed(s: State) { forall i :: 0 <= i < |s.sources| ==> s.sources[i].SClosed? }

  predicate AllWorkersClosed(s: State) { forall w :: 0 <= w < |s.workers| ==> s.workers[w].WClosed? }

  predicate AllConnectorsClosed(s: State) { forall c :: 0 <= c < |s.connectors| ==> s.connectors[c].CClosed? }

  ghost predicate Shaped(cfg: Config, s: State) {
    |s.sources| == |cfg.sources| && |s.workers| == cfg.workers && |s.connectors| == |cfg.targets|
  }

  function Step(cfg: Config, s: State, a: Action): (r: Option<State>)
    requires Shaped(cfg, s)
    ensures r.Some? ==> Shaped(cfg, r.value)
  {
    match a
    case Source(i, b) => if i < |s.sources| then SourceStep(cfg, s, i, b) else None
    case Worker(w, b) => if w < |s.workers| then WorkerStep(s, w, b) else None
    case Connector(c, b) => if c < |s.connectors| then ConnectorStep(cfg, s, c, b) else None
    case Main(b) => MainStep(s, b)
  }

  /** Where a sequence of steps leads, if each is enabled in its turn. */
  function Run(cfg: Config, s: State, acts: seq<Action>): (r: Option<State>)
    requires Shaped(cfg, s)
    ensures r.Some? ==> Shaped(cfg, r.value)
    decreases |acts|
  {
    if acts == [] then Some(s)
    else
      var next := Step(cfg, s, acts[0]);
      if next.None? then None else Run(cfg, next.value, acts[1..])
  }

  /** `s` is where some interleaving takes the broker from its start. */
  ghost predicate Reached(cfg: Config, acts: seq<Action>, s: State) {
    Run(cfg, Init(cfg), acts) == Some(s)
  }
}
