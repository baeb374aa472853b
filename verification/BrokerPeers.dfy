/** The broker together with the sources at the other end of its connections. A source sends a
    message and waits for its OK before the next; the broker acknowledges before it hands over. */
module BrokerPeers {
  import opened Common
  import opened Broker
  import opened BrokerInvariant

  datatype Reply = Hello | Ok | Bye

  datatype PeerPc = Greeting | Ready | Awaiting | Gone

  /** One source: what it has sent and how many OKs it has read, and the two directions of its
      connection. */
  datatype Peer = Peer(pc: PeerPc, sent: seq<string>, acked: nat, outgoing: seq<string>, replies: seq<Reply>)

  datatype Network = Network(broker: State, peers: seq<Peer>)

  /** `replied`: the broker's reply to this step, if it has one, gets through. */
  datatype Event =
    | BrokerActs(action: Action, replied: bool)
    | PeerSends(source: nat, payload: string)
    | PeerReads(source: nat)
    | PeerFails(source: nat)

  const NEW_PEER: Peer := Peer(Greeting, [], 0, [], [])

  function Start(cfg: Config): Network { Network(Init(cfg), seq(|cfg.sources|, _ => NEW_PEER)) }

  function Push(p: Peer, r: Reply, replied: bool): Peer { if replied then p.(replies := p.replies + [r]) else p }

  /** A peer's side of a step of its source connector; the connector can only accept what is next
      on the connection. A connector that fails says BYE; one that is stopped has closed the
      connection by then. */
  function Answer(p: Peer, a: SourceAct, replied: bool): Option<Peer> {
    match a
    case Dial(ok) => Some(if ok then Push(p, Hello, replied) else p)
    case Accept(payload) =>
      if p.outgoing != [] && p.outgoing[0] == payload
      then Some(Push(p.(outgoing := p.outgoing[1..]), Ok, replied))
      else None
    case Fail => Some(Push(p, Bye, replied))
    case _ => Some(p)
  }

  function Send(p: Peer, payload: string): Option<Peer> {
    if p.pc.Ready?
    then Some(p.(pc := Awaiting, sent := p.sent + [payload], outgoing := p.outgoing + [payload]))
    else None
  }

  /** WaitForHello and WaitForOk: any other reply ends the loop. */
  function Read(p: Peer): Option<Peer> {
    if p.replies == [] then None
    else
      var q := p.(replies := p.replies[1..]);
      match p.pc
      case Greeting => Some(q.(pc := if p.replies[0].Hello? then Ready else Gone))
      case Awaiting => Some(if p.replies[0].Ok? then q.(pc := Ready, acked := p.acked + 1) else q.(pc := Gone))
      case _ => None
  }

  ghost predicate Wired(cfg: Config, n: Network) { Shaped(cfg, n.broker) && |n.peers| == |cfg.sources| }

  function SetPeer(n: Network, i: nat, p: Option<Peer>): Option<Network>
    requires i < |n.peers|
  {
    if p.None? then None else Some(n.(peers := n.peers[i := p.value]))
  }

  function Advance(cfg: Config, n: Network, e: Event): (r: Option<Network>)
    requires Wired(cfg, n)
    ensures r.Some? ==> Wired(cfg, r.value)
  {
    match e
    case BrokerActs(a, replied) =>
      var next := Step(cfg, n.broker, a);
      if next.None? then None
      else if a.Source? then SetPeer(n.(broker := next.value), a.source, Answer(n.peers[a.source], a.srcAct, replied))
      else Some(n.(broker := next.value))
    case PeerSends(i, payload) => if i < |n.peers| then SetPeer(n, i, Send(n.peers[i], payload)) else None
    case PeerReads(i) => if i < |n.peers| then SetPeer(n, i, Read(n.peers[i])) else None
    case PeerFails(i) => if i < |n.peers| then Some(n.(peers := n.peers[i := n.peers[i].(pc := Gone)])) else None
  }

  function Exec(cfg: Config, n: Network, events: seq<Event>): (r: Option<Network>)
    requires Wired(cfg, n)
    ensures r.Some? ==> Wired(cfg, r.value)
    decreases |events|
  {
    if events == [] then Some(n)
    else
      var next := Advance(cfg, n, events[0]);
      if next.None? then None else Exec(cfg, next.value, events[1..])
  }

  // ----- The broker of a network is the broker -----

  function BrokerSteps(events: seq<Event>): seq<Action>
    decreases |events|
  {
    if events == [] then []
    else if events[0].BrokerActs? then [events[0].action] + BrokerSteps(events[1..])
    else BrokerSteps(events[1..])
  }

  /** Whatever its peers do, the broker goes through a run of its own. */
  lemma {:induction false} BrokerRuns(cfg: Config, n: Network, events: seq<Event>)
    requires Wired(cfg, n) && Exec(cfg, n, events).Some?
    ensures Run(cfg, n.broker, BrokerSteps(events)) == Some(Exec(cfg, n, events).value.broker)
    decreases |events|
  {
    hide Step;
    if events != [] {
      BrokerRuns(cfg, Advance(cfg, n, events[0]).value, events[1..]);
      if events[0].BrokerActs? {
        assert BrokerSteps(events)[1..] == BrokerSteps(events[1..]);
      }
    }
  }

  // ----- What was sent, what was accepted, what was acknowledged -----

  /** The numbers of the messages accepted from source i, in order. */
  function From(accepted: seq<BrokerMessage>, i: nat): seq<nat> {
    if accepted == [] then []
    else
      var last := |accepted| - 1;
      if accepted[last].source == i then From(accepted[..last], i) + [last] else From(accepted[..last], i)
  }

  /** They are in ascending order, each is of source i, and none is missing. */
  lemma {:induction false} FromIsAll(accepted: seq<BrokerMessage>, i: nat)
    ensures var ids := From(accepted, i);
            && (forall k :: 0 <= k < |ids| ==> ids[k] < |accepted| && accepted[ids[k]].source == i)
            && (forall j, k :: 0 <= j < k < |ids| ==> ids[j] < ids[k])
            && (forall id: nat :: id < |accepted| && accepted[id].source == i ==> id in ids)
  {
    if accepted != [] {
      var last := |accepted| - 1;
      FromIsAll(accepted[..last], i);
      forall id: nat | id < |accepted| && accepted[id].source == i
        ensures id in From(accepted, i)
      {
        if id < last {
          assert accepted[..last][id] == accepted[id];
        }
      }
    }
  }

  function Payloads(accepted: seq<BrokerMessage>, i: nat): seq<string> {
    if accepted == [] then []
    else
      var last := |accepted| - 1;
      if accepted[last].source == i then Payloads(accepted[..last], i) + [accepted[last].sourceMessage]
      else Payloads(accepted[..last], i)
  }

  lemma {:induction false} PayloadsOf(accepted: seq<BrokerMessage>, i: nat, k: nat)
    requires k < |From(accepted, i)|
    ensures |Payloads(accepted, i)| == |From(accepted, i)| && From(accepted, i)[k] < |accepted|
    ensures Payloads(accepted, i)[k] == accepted[From(accepted, i)[k]].sourceMessage
  {
    var last := |accepted| - 1;
    SameLength(accepted, i);
    if k < |From(accepted[..last], i)| {
      PayloadsOf(accepted[..last], i, k);
    } else {
      SameLength(accepted[..last], i);
    }
  }

  lemma {:induction false} SameLength(accepted: seq<BrokerMessage>, i: nat)
    ensures |Payloads(accepted, i)| == |From(accepted, i)|
  {
    if accepted != [] {
      SameLength(accepted[..|accepted| - 1], i);
    }
  }

  function Oks(replies: seq<Reply>): nat {
    if replies == [] then 0 else (if replies[0].Ok? then 1 else 0) + Oks(replies[1..])
  }

  lemma {:induction false} OksAppend(replies: seq<Reply>, r: Reply)
    ensures Oks(replies + [r]) == Oks(replies) + if r.Ok? then 1 else 0
  {
    if replies == [] {
      assert [r][1..] == [] && [] + [r] == [r];
    } else {
      assert (replies + [r])[1..] == replies[1..] + [r];
      OksAppend(replies[1..], r);
    }
  }

  /** What a source sent is what was accepted and what is still on its way, in that order; OKs that
      were read or are on their way belong to accepted messages; the source is at most one message
      ahead of the OKs it has read. */
  predicate PeerOk(got: seq<string>, p: Peer) {
    && got + p.outgoing == p.sent
    && p.acked + Oks(p.replies) <= |got|
    && (p.pc.Greeting? ==> p.sent == [])
    && (p.pc.Ready? ==> |p.sent| == p.acked)
    && (p.pc.Awaiting? ==> |p.sent| == p.acked + 1)
    && p.acked <= |p.sent| <= p.acked + 1
  }

  ghost predicate PeersOk(n: Network) {
    forall i :: 0 <= i < |n.peers| ==> PeerOk(Payloads(n.broker.accepted, i), n.peers[i])
  }

  lemma SendKeeps(got: seq<string>, p: Peer, payload: string)
    requires PeerOk(got, p) && Send(p, payload).Some?
    ensures PeerOk(got, Send(p, payload).value)
  {
    assert got + (p.outgoing + [payload]) == p.sent + [payload];
  }

  lemma ReadKeeps(got: seq<string>, p: Peer)
    requires PeerOk(got, p) && Read(p).Some?
    ensures PeerOk(got, Read(p).value)
  {
  }

  lemma AnswerKeeps(got: seq<string>, p: Peer, a: SourceAct, replied: bool)
    requires PeerOk(got, p) && Answer(p, a, replied).Some?
    ensures PeerOk(if a.Accept? then got + [a.payload] else got, Answer(p, a, replied).value)
  {
    OksAppend(p.replies, Ok);
    OksAppend(p.replies, Hello);
    OksAppend(p.replies, Bye);
    if a.Accept? {
      assert got + [a.payload] + p.outgoing[1..] == got + p.outgoing;
    }
  }

  /** Only accepting adds a message, and only to its own source's. */
  lemma StepPayloads(cfg: Config, s: State, a: Action, i: nat)
    requires Shaped(cfg, s) && Step(cfg, s, a).Some?
    ensures Payloads(Step(cfg, s, a).value.accepted, i) ==
            if a.Source? && a.source == i && a.srcAct.Accept? then Payloads(s.accepted, i) + [a.srcAct.payload]
            else Payloads(s.accepted, i)
  {
    hide WorkerStep, ConnectorStep;
    var t := Step(cfg, s, a).value;
    if a.Source? && a.srcAct.Accept? {
      assert t.accepted[..|s.accepted|] == s.accepted;
    } else {
      AcceptedStays(cfg, s, a);
    }
  }

  lemma AcceptedStays(cfg: Config, s: State, a: Action)
    requires Shaped(cfg, s) && Step(cfg, s, a).Some? && !(a.Source? && a.srcAct.Accept?)
    ensures Step(cfg, s, a).value.accepted == s.accepted
  {
  }

  lemma AdvanceKeeps(cfg: Config, n: Network, e: Event)
    requires Wired(cfg, n) && PeersOk(n) && Advance(cfg, n, e).Some?
    ensures PeersOk(Advance(cfg, n, e).value)
  {
    hide Step, PeerOk, Send, Read, Answer;
    var m := Advance(cfg, n, e).value;
    forall i | 0 <= i < |m.peers|
      ensures PeerOk(Payloads(m.broker.accepted, i), m.peers[i])
    {
      var got, p := Payloads(n.broker.accepted, i), n.peers[i];
      assert PeerOk(got, p);
      match e
      case BrokerActs(a, replied) =>
        StepPayloads(cfg, n.broker, a, i);
        if a.Source? && a.source == i {
          AnswerKeeps(got, p, a.srcAct, replied);
        }
      case PeerSends(j, payload) => if i == j { SendKeeps(got, p, payload); }
      case PeerReads(j) => if i == j { ReadKeeps(got, p); }
      case PeerFails(j) => GoneKeeps(got, p);
    }
  }

  lemma GoneKeeps(got: seq<string>, p: Peer)
    requires PeerOk(got, p)
    ensures PeerOk(got, p.(pc := Gone))
  {
  }

  lemma {:induction false} ExecKeeps(cfg: Config, n: Network, events: seq<Event>)
    requires Wired(cfg, n) && PeersOk(n) && Exec(cfg, n, events).Some?
    ensures PeersOk(Exec(cfg, n, events).value)
    decreases |events|
  {
    hide PeersOk, Advance;
    if events != [] {
      AdvanceKeeps(cfg, n, events[0]);
      ExecKeeps(cfg, Advance(cfg, n, events[0]).value, events[1..]);
    }
  }

  /** Stop and wait: in every run of brokers and sources together, lost replies and failing sources
      included, the broker has accepted exactly what the source sent, in order and each once,
      except perhaps the latest, and the source has read an OK for all of it, except perhaps
      the latest. */
  lemma StopAndWait(cfg: Config, events: seq<Event>, n: Network, i: nat)
    requires Exec(cfg, Start(cfg), events) == Some(n) && i < |n.peers|
    ensures var got, p := Payloads(n.broker.accepted, i), n.peers[i];
            && |got| <= |p.sent| && got == p.sent[..|got|]
            && p.acked <= |got| <= |p.sent| <= p.acked + 1
  {
    ExecKeeps(cfg, Start(cfg), events);
    assert PeerOk(Payloads(n.broker.accepted, i), n.peers[i]);
    var got := Payloads(n.broker.accepted, i);
    assert (got + n.peers[i].outgoing)[..|got|] == got;
  }

  // ----- Where no reply is lost -----

  ghost predicate AllReplied(events: seq<Event>) {
    forall k :: 0 <= k < |events| && events[k].BrokerActs? ==> events[k].replied
  }

  predicate IsOpen(pc: SourcePc) { !pc.SConnecting? && !pc.SClosed? }

  /** What a source that has not given up still has to read: the hello of an open connection, the OK of
      a message that has been accepted, and perhaps the BYE of a connector that has closed. */
  predicate Heard(pc: SourcePc, p: Peer) {
    var due := if p.pc.Greeting? then [Hello] else if p.pc.Awaiting? && p.outgoing == [] then [Ok] else [];
    match p.pc
    case Gone => true
    case Greeting =>
      && (pc.SConnecting? ==> p.replies == []) && (IsOpen(pc) ==> p.replies == due)
      && (pc.SClosed? ==> p.replies == [] || p.replies == due || p.replies == due + [Bye])
    case _ =>
      && !pc.SConnecting? && (IsOpen(pc) ==> p.replies == due)
      && (pc.SClosed? ==> p.replies == due || p.replies == due + [Bye])
  }

  ghost predicate AllHeard(n: Network) {
    |n.peers| == |n.broker.sources| && forall i :: 0 <= i < |n.peers| ==> Heard(n.broker.sources[i], n.peers[i])
  }

  lemma AnswerHeard(cfg: Config, s: State, i: nat, a: SourceAct, got: seq<string>, p: Peer)
    requires Shaped(cfg, s) && i < |s.sources| && SourceStep(cfg, s, i, a).Some? && Answer(p, a, true).Some?
    requires PeerOk(got, p) && Heard(s.sources[i], p)
    ensures Heard(SourceStep(cfg, s, i, a).value.sources[i], Answer(p, a, true).value)
  {
  }

  lemma ReadHeard(pc: SourcePc, got: seq<string>, p: Peer)
    requires PeerOk(got, p) && Heard(pc, p) && Read(p).Some?
    ensures Heard(pc, Read(p).value)
  {
  }

  lemma SendHeard(pc: SourcePc, got: seq<string>, p: Peer, payload: string)
    requires PeerOk(got, p) && Heard(pc, p) && Send(p, payload).Some?
    ensures Heard(pc, Send(p, payload).value)
  {
  }

  lemma OtherSourceStays(cfg: Config, s: State, a: Action, i: nat)
    requires Shaped(cfg, s) && Step(cfg, s, a).Some? && i < |s.sources| && !(a.Source? && a.source == i)
    ensures Step(cfg, s, a).value.sources[i] == s.sources[i]
  {
  }

  lemma AdvanceHeard(cfg: Config, n: Network, e: Event)
    requires Wired(cfg, n) && PeersOk(n) && AllHeard(n) && Advance(cfg, n, e).Some?
    requires e.BrokerActs? ==> e.replied
    ensures AllHeard(Advance(cfg, n, e).value)
  {
    hide SourceStep, WorkerStep, ConnectorStep, MainStep, PeerOk, Send, Read, Answer, Heard;
    var m := Advance(cfg, n, e).value;
    forall i | 0 <= i < |m.peers|
      ensures Heard(m.broker.sources[i], m.peers[i])
    {
      var got, p := Payloads(n.broker.accepted, i), n.peers[i];
      assert PeerOk(got, p) && Heard(n.broker.sources[i], p);
      match e
      case BrokerActs(a, replied) =>
        if a.Source? && a.source == i {
          AnswerHeard(cfg, n.broker, i, a.srcAct, got, p);
        } else {
          OtherSourceStays(cfg, n.broker, a, i);
        }
      case PeerSends(j, payload) => if i == j { SendHeard(n.broker.sources[i], got, p, payload); }
      case PeerReads(j) => if i == j { ReadHeard(n.broker.sources[i], got, p); }
      case PeerFails(j) => GoneHeard(n.broker.sources[i], p);
    }
  }

  lemma GoneHeard(pc: SourcePc, p: Peer)
    ensures Heard(pc, p.(pc := Gone))
  {
  }

  lemma {:induction false} ExecHeard(cfg: Config, n: Network, events: seq<Event>)
    requires Wired(cfg, n) && PeersOk(n) && AllHeard(n) && AllReplied(events) && Exec(cfg, n, events).Some?
    ensures AllHeard(Exec(cfg, n, events).value)
    decreases |events|
  {
    hide PeersOk, AllHeard, Advance;
    if events != [] {
      AdvanceKeeps(cfg, n, events[0]);
      AdvanceHeard(cfg, n, events[0]);
      ExecHeard(cfg, Advance(cfg, n, events[0]).value, events[1..]);
    }
  }

  lemma RepliesSoFar(cfg: Config, events: seq<Event>, n: Network, i: nat)
    requires Exec(cfg, Start(cfg), events) == Some(n) && AllReplied(events) && i < |n.peers|
    ensures i < |n.broker.sources| && PeerOk(Payloads(n.broker.accepted, i), n.peers[i])
    ensures Heard(n.broker.sources[i], n.peers[i])
  {
    ExecKeeps(cfg, Start(cfg), events);
    ExecHeard(cfg, Start(cfg), events);
  }

  /** Every accepted message is acknowledged: where no reply is lost, a source that has not given up has
      read, or can still read, exactly one OK for each message the broker has accepted from it. */
  lemma AcceptedMeansAcknowledged(cfg: Config, events: seq<Event>, n: Network, i: nat)
    requires Exec(cfg, Start(cfg), events) == Some(n) && AllReplied(events) && i < |n.peers|
    ensures !n.peers[i].pc.Gone? ==>
              n.peers[i].acked + Oks(n.peers[i].replies) == |Payloads(n.broker.accepted, i)|
  {
    RepliesSoFar(cfg, events, n, i);
    assert [Ok][1..] == [] && [Bye][1..] == [] && [Ok, Bye][1..] == [Bye] && [Hello][1..] == [];
    assert [Ok] + [Bye] == [Ok, Bye] && [Hello] + [Bye] == [Hello, Bye] && [Hello, Bye][1..] == [Bye];
    assert Oks([Bye]) == 0 && Oks([Ok]) == 1;
  }

  /** So a source never waits in vain: once its message is accepted, reading takes it to the next. */
  lemma OkReadsOn(cfg: Config, events: seq<Event>, n: Network, i: nat)
    requires Exec(cfg, Start(cfg), events) == Some(n) && AllReplied(events) && i < |n.peers|
    requires n.peers[i].pc.Awaiting? && |Payloads(n.broker.accepted, i)| == |n.peers[i].sent|
    ensures Wired(cfg, n) && Advance(cfg, n, PeerReads(i)).Some?
    ensures var p := Advance(cfg, n, PeerReads(i)).value.peers[i]; p.pc.Ready? && p.acked == |p.sent|
  {
    RepliesSoFar(cfg, events, n, i);
    assert |n.peers[i].outgoing| == 0;
  }

  /** And once the broker has opened the connection, reading takes a source to its first message. */
  lemma HelloReadsOn(cfg: Config, events: seq<Event>, n: Network, i: nat)
    requires Exec(cfg, Start(cfg), events) == Some(n) && AllReplied(events) && i < |n.peers|
    requires n.peers[i].pc.Greeting? && i < |n.broker.sources| && IsOpen(n.broker.sources[i])
    ensures Wired(cfg, n) && Advance(cfg, n, PeerReads(i)).Some?
    ensures Advance(cfg, n, PeerReads(i)).value.peers[i].pc.Ready?
  {
    RepliesSoFar(cfg, events, n, i);
  }

  /** A connector that fails says so: a source that waits for the OK of a message the broker has not
      accepted reads the BYE, and gives up. */
  lemma ByeEnds(cfg: Config, events: seq<Event>, n: Network, i: nat)
    requires Exec(cfg, Start(cfg), events) == Some(n) && AllReplied(events) && i < |n.peers|
    requires n.peers[i].pc.Awaiting? && n.peers[i].outgoing != []
    requires i < |n.broker.sources| && n.broker.sources[i].SIdle?
    ensures Wired(cfg, n) && Advance(cfg, n, BrokerActs(Source(i, Fail), true)).Some?
    ensures var m := Advance(cfg, n, BrokerActs(Source(i, Fail), true)).value;
            && Wired(cfg, m) && m.peers[i].replies == [Bye]
            && Advance(cfg, m, PeerReads(i)).Some? && Advance(cfg, m, PeerReads(i)).value.peers[i].pc.Gone?
  {
    RepliesSoFar(cfg, events, n, i);
    assert [] + [Bye] == [Bye];
  }

  /** Any other reply makes a source give up. */
  lemma OtherReplyEnds(cfg: Config, n: Network, i: nat)
    requires Wired(cfg, n) && i < |n.peers| && n.peers[i].replies != []
    requires var p := n.peers[i];
             (p.pc.Awaiting? && p.replies[0] != Ok) || (p.pc.Greeting? && p.replies[0] != Hello)
    ensures Advance(cfg, n, PeerReads(i)).Some? && Advance(cfg, n, PeerReads(i)).value.peers[i].pc.Gone?
  {
  }

  /** One that has given up neither sends nor reads again. */
  lemma GoneIsGone(cfg: Config, n: Network, i: nat, payload: string)
    requires Wired(cfg, n) && i < |n.peers| && n.peers[i].pc.Gone?
    ensures Advance(cfg, n, PeerSends(i, payload)).None? && Advance(cfg, n, PeerReads(i)).None?
  {
  }

  /** From end to end: once the broker has closed TargetStop, the k-th message of a source that has
      read k OKs or more was accepted under a number of its own, and every target the source lists
      has exactly one terminal outcome for it. */
  lemma AcknowledgedMeansSettled(cfg: Config, events: seq<Event>, n: Network, i: nat, k: nat, entry: nat)
      returns (id: nat)
    requires Exec(cfg, Start(cfg), events) == Some(n) && TargetStopClosed(n.broker.main)
    requires i < |n.peers| && k < n.peers[i].acked && entry < |cfg.sources[i]|
    ensures k < |From(n.broker.accepted, i)| && id == From(n.broker.accepted, i)[k] && k < |n.peers[i].sent|
    ensures id < |n.broker.accepted| && n.broker.accepted[id] == BrokerMessage(n.peers[i].sent[k], i, cfg.sources[i])
    ensures exists at :: SettledOnceAt(n.broker, Obligation(id, entry), at)
  {
    hide Step;
    StopAndWait(cfg, events, n, i);
    SameLength(n.broker.accepted, i);
    id := From(n.broker.accepted, i)[k];
    PayloadsOf(n.broker.accepted, i, k);
    FromIsAll(n.broker.accepted, i);
    BrokerRuns(cfg, Start(cfg), events);
    ReachedInv(cfg, BrokerSteps(events), n.broker);
    ShutdownSafety(cfg, BrokerSteps(events), n.broker);
    assert Owed(n.broker, Obligation(id, entry));
  }
}
