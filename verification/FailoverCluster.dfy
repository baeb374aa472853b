/** Clients that join, run whole rounds and lose their sessions in any order. In a round any request
    may fail whose error the client ignores. */
module FailoverCluster {
  import opened Common
  import opened Failover

  /** A client and its latest assignment; `last` numbers its latest completed round (0: none), and
      `blind` has the nodes it took although another client led them. */
  datatype Peer = Peer(client: Client, running: set<Node>, blind: set<Node>, last: nat)

  /** `led[n]` is the number of the latest round completed by a client whose home is n. */
  datatype Cluster = Cluster(kv: Kv, live: set<Session>, peers: map<Session, Peer>, clock: nat, led: map<Node, nat>)

  datatype Event =
    | Join(client: Client)
    | Sync(session: Session, cleared: bool, looks: seq<Look>)
    | Expiry(session: Session)

  const EMPTY: Cluster := Cluster(map[], {}, map[], 0, map[])

  function Led(c: Cluster, n: Node): nat { if n in c.led then c.led[n] else 0 }

  function JoinStep(c: Cluster, client: Client): Option<Cluster> {
    if client.session == NOBODY || client.session in c.peers then None
    else Some(c.(live := c.live + {client.session}, peers := c.peers[client.session := Peer(client, {}, {}, 0)]))
  }

  /** A round over these nodes in which no request fails. */
  function SureSync(s: Session, nodes: seq<Node>): Event { Sync(s, true, AllSure(nodes)) }

  ghost predicate IsSure(e: Event) { e.Sync? ==> e.cleared && e.looks == AllSure(Nodes(e.looks)) }

  /** A round that completes; a client still waiting for its leader lock takes no step. Where requests
      fail, the node list has each node once. */
  ghost function SyncStep(c: Cluster, e: Event): Option<Cluster>
    requires e.Sync?
  {
    var Sync(s, cleared, looks) := e;
    if s !in c.live || s !in c.peers || !(EachOnce(looks) || IsSure(e)) then None
    else
      var me := c.peers[s].client;
      var r := Round(c.kv, me, cleared, looks);
      if r.None? then None
      else
        var now := c.clock + 1;
        var running := set n | n in r.value.taken;
        var blind := set n | n in r.value.taken && n != me.home && HeldByOther(c.kv, Leader(n), s);
        Some(Cluster(r.value.kv, c.live, c.peers[s := Peer(me, running, blind, now)], now, c.led[me.home := now]))
  }

  function ExpiryStep(c: Cluster, s: Session): Option<Cluster> {
    if s !in c.live then None else Some(c.(kv := Expire(c.kv, s), live := c.live - {s}))
  }

  ghost function Step(c: Cluster, e: Event): Option<Cluster> {
    match e
    case Join(client) => JoinStep(c, client)
    case Sync(_, _, _) => SyncStep(c, e)
    case Expiry(s) => ExpiryStep(c, s)
  }

  ghost function Run(c: Cluster, events: seq<Event>): Option<Cluster>
    decreases |events|
  {
    if events == [] then Some(c)
    else
      var next := Step(c, events[0]);
      if next.None? then None else Run(next.value, events[1..])
  }

  // ----- What holds between rounds -----

  /** Every key is held by a live client that is entitled to it, except that a failover key may have
      been released and not deleted. */
  ghost predicate LocksSound(c: Cluster) {
    && (forall s :: s in c.live ==> s != NOBODY && s in c.peers && c.peers[s].client.session == s)
    && (forall n :: Leader(n) in c.kv ==>
          var l := c.kv[Leader(n)]; l in c.live && l in c.peers && c.peers[l].client.home == n && c.peers[l].last > 0)
    && (forall n :: Held(c.kv, Standby(n)) ==>
          var h := c.kv[Standby(n)];
          h in c.live && h in c.peers && c.peers[h].client.home != n && c.peers[h].client.failover)
  }

  /** A live client that has completed a round still leads its home node. */
  ghost predicate HomeHeld(c: Cluster, s: Session)
    requires s in c.peers
  {
    var p := c.peers[s];
    && p.last <= c.clock
    && (p.last == 0 ==> p.running == {})
    && (p.last > 0 ==>
          Get(c.kv, Leader(p.client.home)) == Some(s) && p.client.home in p.running && Led(c, p.client.home) == p.last)
  }

  /** A live client still holds the failover lock of every node it took over, unless a primary of
      that node has completed a round since. */
  ghost predicate TakenHeld(c: Cluster, s: Session)
    requires s in c.peers
  {
    var p := c.peers[s];
    forall n :: n in p.running && n != p.client.home ==> Get(c.kv, Standby(n)) == Some(s) || Led(c, n) > p.last
  }

  /** Rounds are numbered one by one. */
  ghost predicate Numbered(c: Cluster) {
    && (forall n :: n in c.led ==> c.led[n] <= c.clock)
    && (forall s, t :: s in c.live && t in c.live && s in c.peers && t in c.peers && s != t && c.peers[s].last > 0 ==>
          c.peers[s].last != c.peers[t].last)
  }

  ghost predicate Inv(c: Cluster) {
    && LocksSound(c) && Numbered(c)
    && (forall s :: s in c.live ==> HomeHeld(c, s) && TakenHeld(c, s))
  }

  lemma LiveIsPeer(c: Cluster)
    requires LocksSound(c)
    ensures forall s :: s in c.live ==> s != NOBODY && s in c.peers && c.peers[s].client.session == s
  {
  }

  lemma JoinKeeps(c: Cluster, client: Client)
    requires Inv(c) && JoinStep(c, client).Some?
    ensures Inv(JoinStep(c, client).value)
  {
    var d := JoinStep(c, client).value;
    forall s | s in d.live
      ensures s in d.peers && HomeHeld(d, s) && TakenHeld(d, s)
    {
      if s != client.session {
        assert HomeHeld(c, s) && TakenHeld(c, s);
      }
    }
  }

  lemma ExpiryKeeps(c: Cluster, s: Session)
    requires Inv(c) && ExpiryStep(c, s).Some?
    ensures Inv(ExpiryStep(c, s).value)
  {
    var d := ExpiryStep(c, s).value;
    forall t | t in d.live
      ensures HomeHeld(d, t) && TakenHeld(d, t)
    {
      assert HomeHeld(c, t) && TakenHeld(c, t);
    }
  }

  /** The locks of one node after a round in which no request fails, as RoundEffect gives them. */
  lemma SyncEffect(c: Cluster, s: Session, nodes: seq<Node>, n: Node)
    requires SyncStep(c, SureSync(s, nodes)).Some?
    ensures var d, me := SyncStep(c, SureSync(s, nodes)).value, c.peers[s].client;
            && Get(d.kv, Leader(n)) == (if n == me.home then Some(me.session) else Get(c.kv, Leader(n)))
            && Get(d.kv, Standby(n)) ==
               (if n == me.home then None
                else if me.failover && n in nodes then StandbyAfter(c.kv, me.session, n)
                else Get(c.kv, Standby(n)))
            && (n in d.peers[s].running <==> n == me.home || (me.failover && n in nodes && Takes(c.kv, me.session, n)))
  {
    RoundEffect(c.kv, c.peers[s].client, nodes, n);
  }

  /** What a round can do to a node other than its client's own, whatever fails. */
  ghost predicate Bounded(kv: Kv, after: Kv, me: Client, took: bool, n: Node) {
    && Get(after, Leader(n)) == Get(kv, Leader(n))
    && (took ==> me.failover && Get(after, Standby(n)) == Some(me.session) && CanAcquire(kv, Standby(n), me.session))
    && (!took ==>
          || Get(after, Standby(n)) == Get(kv, Standby(n))
          || (Get(kv, Standby(n)) == Some(me.session) && HeldByOther(kv, Leader(n), me.session)
              && !Held(after, Standby(n))))
  }

  lemma RoundBounds(kv: Kv, c: Client, cleared: bool, looks: seq<Look>, n: Node)
    requires Round(kv, c, cleared, looks).Some? && n != c.home
    requires EachOnce(looks) || (cleared && looks == AllSure(Nodes(looks)))
    ensures var r := Round(kv, c, cleared, looks).value; Bounded(kv, r.kv, c, n in r.taken, n)
  {
    hide VisitNode;
    var own := LeadHome(kv, c, cleared);
    UnseenStays(own, c, looks, n);
    if k :| EachOnce(looks) && 0 <= k < |looks| && looks[k].node == n {
      ScanIsLooks(own, c, looks, k);
      LookFacts(own, c.session, looks[k]);
    } else if !EachOnce(looks) {
      RoundEffect(kv, c, Nodes(looks), n);
    }
  }

  lemma SyncBounds(c: Cluster, e: Event, n: Node)
    requires e.Sync? && SyncStep(c, e).Some?
    ensures var d, me, s := SyncStep(c, e).value, c.peers[e.session].client, e.session;
            && (n == me.home ==> Get(d.kv, Leader(n)) == Some(me.session) && n in d.peers[s].running)
            && (n == me.home && Standby(n) in d.kv ==> Get(d.kv, Standby(n)) == Get(c.kv, Standby(n)))
            && (n != me.home ==> Bounded(c.kv, d.kv, me, n in d.peers[s].running, n))
            && (n in d.peers[s].blind <==> n in d.peers[s].running && n != me.home && HeldByOther(c.kv, Leader(n), s))
  {
    hide VisitNodes;
    var me := c.peers[e.session].client;
    if n == me.home {
      UnseenStays(LeadHome(c.kv, me, e.cleared), me, e.looks, n);
    } else {
      hide Round;
      RoundBounds(c.kv, me, e.cleared, e.looks, n);
    }
  }

  /** What a round leaves of a node's locks is sound. */
  lemma SyncNode(c: Cluster, e: Event, n: Node)
    requires e.Sync? && Inv(c) && SyncStep(c, e).Some?
    ensures var d := SyncStep(c, e).value;
            && (Leader(n) in d.kv ==>
                  var l := d.kv[Leader(n)];
                  l in d.live && l in d.peers && d.peers[l].client.home == n && d.peers[l].last > 0)
            && (Held(d.kv, Standby(n)) ==>
                  var h := d.kv[Standby(n)];
                  h in d.live && h in d.peers && d.peers[h].client.home != n && d.peers[h].client.failover)
  {
    hide Round, HomeHeld, TakenHeld;
    SyncBounds(c, e, n);
  }

  lemma SyncKeepsLocks(c: Cluster, e: Event)
    requires e.Sync? && Inv(c) && SyncStep(c, e).Some?
    ensures LocksSound(SyncStep(c, e).value)
  {
    hide Round, HomeHeld, TakenHeld;
    var d := SyncStep(c, e).value;
    forall n
      ensures Leader(n) in d.kv ==>
                var l := d.kv[Leader(n)];
                l in d.live && l in d.peers && d.peers[l].client.home == n && d.peers[l].last > 0
      ensures Held(d.kv, Standby(n)) ==>
                var h := d.kv[Standby(n)];
                h in d.live && h in d.peers && d.peers[h].client.home != n && d.peers[h].client.failover
    {
      SyncNode(c, e, n);
    }
  }

  lemma SyncKeepsPeer(c: Cluster, e: Event, t: Session)
    requires e.Sync? && Inv(c) && SyncStep(c, e).Some? && t in c.live
    ensures var d := SyncStep(c, e).value; t in d.peers && HomeHeld(d, t) && TakenHeld(d, t)
  {
    var d := SyncStep(c, e).value;
    hide Round, EachOnce;
    assert HomeHeld(c, t) && TakenHeld(c, t);
    SyncBounds(c, e, c.peers[t].client.home);
    forall n | n in d.peers[t].running && n != d.peers[t].client.home
      ensures Get(d.kv, Standby(n)) == Some(t) || Led(d, n) > d.peers[t].last
    {
      SyncBounds(c, e, n);
    }
  }

  lemma SyncKeepsOrder(c: Cluster, e: Event)
    requires e.Sync? && Inv(c) && SyncStep(c, e).Some?
    ensures Numbered(SyncStep(c, e).value)
  {
    var d := SyncStep(c, e).value;
    hide Round, TakenHeld, LocksSound;
    LiveIsPeer(c);
    forall t, u | t in d.live && u in d.live && t in d.peers && u in d.peers && t != u && d.peers[t].last > 0
      ensures d.peers[t].last != d.peers[u].last
    {
      assert HomeHeld(c, t) && HomeHeld(c, u);
    }
  }

  lemma SyncKeeps(c: Cluster, e: Event)
    requires e.Sync? && Inv(c) && SyncStep(c, e).Some?
    ensures Inv(SyncStep(c, e).value)
  {
    var d := SyncStep(c, e).value;
    hide Round, HomeHeld, TakenHeld, Numbered;
    SyncKeepsLocks(c, e);
    forall t | t in d.live
      ensures t in d.peers && HomeHeld(d, t) && TakenHeld(d, t)
    {
      SyncKeepsPeer(c, e, t);
    }
    SyncKeepsOrder(c, e);
  }

  lemma {:induction false} RunKeeps(c: Cluster, events: seq<Event>)
    requires Inv(c) && Run(c, events).Some?
    ensures Inv(Run(c, events).value)
    decreases |events|
  {
    if events != [] {
      hide Inv;
      match events[0] {
        case Join(client) => JoinKeeps(c, client);
        case Sync(_, _, _) => SyncKeeps(c, events[0]);
        case Expiry(s) => ExpiryKeeps(c, s);
      }
      RunKeeps(Step(c, events[0]).value, events[1..]);
    }
  }

  lemma ReachedInv(events: seq<Event>, c: Cluster)
    requires Run(EMPTY, events) == Some(c)
    ensures Inv(c)
  {
    RunKeeps(EMPTY, events);
  }

  // ----- Exclusion, where no request fails -----

  /** A node's two locks are never both held, and no key is left released. */
  ghost predicate Exclusion(c: Cluster) {
    forall n :: (Leader(n) in c.kv ==> Standby(n) !in c.kv) && Get(c.kv, Standby(n)) != Some(NOBODY)
  }

  lemma StepExcludes(c: Cluster, e: Event)
    requires Inv(c) && Exclusion(c) && IsSure(e) && Step(c, e).Some?
    ensures Exclusion(Step(c, e).value)
  {
    if e.Sync? {
      hide Round, HomeHeld, TakenHeld, Numbered;
      LiveIsPeer(c);
      forall n
        ensures Leader(n) in Step(c, e).value.kv ==> Standby(n) !in Step(c, e).value.kv
        ensures Get(Step(c, e).value.kv, Standby(n)) != Some(NOBODY)
      {
        SyncEffect(c, e.session, Nodes(e.looks), n);
      }
    }
  }

  lemma RunOne(c: Cluster, e: Event)
    requires Step(c, e).Some?
    ensures Run(c, [e]) == Step(c, e)
  {
    hide Step;
    assert [e][1..] == [];
    assert Run(Step(c, e).value, []) == Step(c, e);
  }

  lemma {:induction false} RunExcludes(c: Cluster, events: seq<Event>)
    requires Inv(c) && Exclusion(c) && Run(c, events).Some? && forall k :: 0 <= k < |events| ==> IsSure(events[k])
    ensures Exclusion(Run(c, events).value)
    decreases |events|
  {
    hide Inv, Exclusion, Step, IsSure;
    if events != [] {
      StepExcludes(c, events[0]);
      RunKeeps(c, [events[0]]);
      RunOne(c, events[0]);
      RunExcludes(Step(c, events[0]).value, events[1..]);
    }
  }

  /** With atomic rounds in which no request fails, the leader and failover locks of a node are never
      both held. */
  lemma LocksExclude(events: seq<Event>, c: Cluster, n: Node)
    requires Run(EMPTY, events) == Some(c) && forall k :: 0 <= k < |events| ==> IsSure(events[k])
    ensures !(Leader(n) in c.kv && Standby(n) in c.kv)
  {
    RunExcludes(EMPTY, events);
  }

  // ----- Overlap -----

  /** a and b are live clients that both run n, and a's latest round is the earlier one. */
  ghost predicate Overlap(c: Cluster, a: Session, b: Session, n: Node) {
    && a in c.live && b in c.live && a in c.peers && b in c.peers
    && n in c.peers[a].running && n in c.peers[b].running && c.peers[a].last < c.peers[b].last
  }

  /** A primary of n has completed a round that a has not reacted to yet, and a is not that primary. */
  ghost predicate Explained(c: Cluster, a: Session, n: Node)
    requires a in c.peers
  {
    Led(c, n) > c.peers[a].last && c.peers[a].client.home != n
  }

  /** What becomes of a taken node: it was taken blindly, or nobody else led it and a cannot be its
      primary unless that is past. */
  ghost predicate NotPrimary(c: Cluster, b: Session)
    requires b in c.peers
  {
    forall n, a :: n in c.peers[b].running && n !in c.peers[b].blind && n != c.peers[b].client.home &&
                   a in c.live && a in c.peers && c.peers[a].client.home == n && c.peers[a].last > 0 ==>
                     c.peers[a].last > c.peers[b].last
  }

  lemma SyncNotPrimary(c: Cluster, e: Event, b: Session)
    requires e.Sync? && Inv(c) && SyncStep(c, e).Some? && b in c.live
    requires b in c.peers && NotPrimary(c, b)
    ensures var d := SyncStep(c, e).value; b in d.peers && NotPrimary(d, b)
  {
    hide Round, TakenHeld, EachOnce;
    var d := SyncStep(c, e).value;
    forall n, a | n in d.peers[b].running && n !in d.peers[b].blind && n != d.peers[b].client.home &&
                  a in d.live && a in d.peers && d.peers[a].client.home == n && d.peers[a].last > 0
      ensures d.peers[a].last > d.peers[b].last
    {
      assert HomeHeld(c, a) && HomeHeld(c, b);
      SyncBounds(c, e, n);
    }
  }

  ghost predicate NoSecretPrimary(c: Cluster) { forall b :: b in c.live ==> b in c.peers && NotPrimary(c, b) }

  lemma StepNoSecret(c: Cluster, e: Event)
    requires Inv(c) && NoSecretPrimary(c) && Step(c, e).Some?
    ensures NoSecretPrimary(Step(c, e).value)
  {
    hide HomeHeld, TakenHeld, Numbered, SyncStep;
    if e.Sync? {
      SyncLive(c, e);
      forall b | b in Step(c, e).value.live
        ensures b in Step(c, e).value.peers && NotPrimary(Step(c, e).value, b)
      {
        SyncNotPrimary(c, e, b);
      }
    }
  }

  lemma SyncLive(c: Cluster, e: Event)
    requires e.Sync? && SyncStep(c, e).Some?
    ensures SyncStep(c, e).value.live == c.live
  {
  }

  lemma {:induction false} RunNoSecret(c: Cluster, events: seq<Event>)
    requires Inv(c) && NoSecretPrimary(c) && Run(c, events).Some?
    ensures NoSecretPrimary(Run(c, events).value)
    decreases |events|
  {
    hide Inv, NoSecretPrimary, Step;
    if events != [] {
      StepNoSecret(c, events[0]);
      RunKeeps(c, [events[0]]);
      RunOne(c, events[0]);
      RunNoSecret(Step(c, events[0]).value, events[1..]);
    }
  }

  /** Failover overlap is bounded, whatever requests fail: two live clients share a node only after a
      primary of the node has completed a round that the earlier of them has not yet reacted to, and
      the earlier of them is not that primary; or the later one took the node without seeing that
      another client led it. */
  lemma OverlapBounded(events: seq<Event>, c: Cluster, a: Session, b: Session, n: Node)
    requires Run(EMPTY, events) == Some(c) && Overlap(c, a, b, n)
    ensures Explained(c, a, n) || n in c.peers[b].blind
  {
    ReachedInv(events, c);
    RunNoSecret(EMPTY, events);
    assert HomeHeld(c, a) && TakenHeld(c, a);
    assert HomeHeld(c, b) && TakenHeld(c, b);
    assert NotPrimary(c, b);
  }

  /** A round in which no request fails takes nothing blindly. */
  lemma SureIsNotBlind(c: Cluster, s: Session, nodes: seq<Node>)
    requires Inv(c) && SyncStep(c, SureSync(s, nodes)).Some?
    ensures SyncStep(c, SureSync(s, nodes)).value.peers[s].blind == {}
  {
    hide Round, HomeHeld, TakenHeld, Numbered;
    LiveIsPeer(c);
    var d := SyncStep(c, SureSync(s, nodes)).value;
    forall n
      ensures n !in d.peers[s].blind
    {
      SyncEffect(c, s, nodes, n);
      SyncBounds(c, SureSync(s, nodes), n);
    }
  }

  /** And only a failed read of the leader lock makes a round take a node blindly. */
  lemma BlindMeansUnread(c: Cluster, e: Event, n: Node)
    requires e.Sync? && Inv(c) && SyncStep(c, e).Some? && n in SyncStep(c, e).value.peers[e.session].blind
    ensures exists k :: 0 <= k < |e.looks| && e.looks[k].node == n && !e.looks[k].leader
  {
    hide VisitNode, HomeHeld, TakenHeld, Numbered;
    LiveIsPeer(c);
    var me := c.peers[e.session].client;
    var own := LeadHome(c.kv, me, e.cleared);
    UnseenStays(own, me, e.looks, n);
    var k :| 0 <= k < |e.looks| && e.looks[k].node == n;
    if EachOnce(e.looks) {
      ScanIsLooks(own, me, e.looks, k);
      LookFacts(own, e.session, e.looks[k]);
    } else {
      SureIsNotBlind(c, e.session, Nodes(e.looks));
    }
  }

  /** Taking a node blindly is what breaks the bound: it makes an overlap with the node's own primary,
      which no round explains. */
  lemma BlindOverlaps(c: Cluster, e: Event, n: Node) returns (a: Session)
    requires e.Sync? && Inv(c) && SyncStep(c, e).Some? && n in SyncStep(c, e).value.peers[e.session].blind
    ensures var d := SyncStep(c, e).value; Overlap(d, a, e.session, n) && !Explained(d, a, n)
  {
    hide Round, TakenHeld;
    SyncBounds(c, e, n);
    a := c.kv[Leader(n)];
    assert HomeHeld(c, a);
  }

  /** What the earlier client's next round does about a shared node: it keeps the node exactly
      when neither lock of the node is held by another session. */
  lemma NextRoundKeepsIff(events: seq<Event>, c: Cluster, a: Session, b: Session, n: Node, nodes: seq<Node>)
    requires Run(EMPTY, events) == Some(c) && Overlap(c, a, b, n) && n !in c.peers[b].blind && n in nodes
    requires c.peers[a].client.failover
    ensures Step(c, SureSync(a, nodes)).Some?
    ensures n in Step(c, SureSync(a, nodes)).value.peers[a].running <==>
            !HeldByOther(c.kv, Leader(n), a) && !HeldByOther(c.kv, Standby(n), a)
  {
    ReachedInv(events, c);
    OverlapBounded(events, c, a, b, n);
    assert HomeHeld(c, a);
    SureCompletes(c, a, nodes);
    SyncEffect(c, a, nodes, n);
  }

  lemma SureCompletes(c: Cluster, a: Session, nodes: seq<Node>)
    requires LocksSound(c) && a in c.live && CanAcquire(c.kv, Leader(c.peers[a].client.home), a)
    ensures SyncStep(c, SureSync(a, nodes)).Some?
  {
    assert Nodes(AllSure(nodes)) == nodes;
  }

  /** In particular the overlap ends with that round if no primary of the node has completed a
      round after the later client, or if a primary of the node is live. */
  lemma NextRoundEndsOverlap(events: seq<Event>, c: Cluster, a: Session, b: Session, n: Node, nodes: seq<Node>)
    requires Run(EMPTY, events) == Some(c) && Overlap(c, a, b, n) && n !in c.peers[b].blind
    requires Led(c, n) <= c.peers[b].last || Leader(n) in c.kv
    ensures Step(c, SureSync(a, nodes)).Some?
    ensures n !in Step(c, SureSync(a, nodes)).value.peers[a].running
  {
    ReachedInv(events, c);
    OverlapBounded(events, c, a, b, n);
    assert HomeHeld(c, a);
    assert HomeHeld(c, b) && TakenHeld(c, b);
    SureCompletes(c, a, nodes);
    SyncEffect(c, a, nodes, n);
  }

  /** States that follow one another step by step are a run. */
  lemma {:induction false} TraceIsRun(states: seq<Cluster>, events: seq<Event>)
    requires |states| == |events| + 1
    requires forall k :: 0 <= k < |events| ==> Step(states[k], events[k]) == Some(states[k + 1])
    ensures Run(states[0], events) == Some(states[|events|])
    decreases |events|
  {
    hide Step;
    if events != [] {
      assert Step(states[0], events[0]) == Some(states[0 + 1]);
      TraceIsRun(states[1..], events[1..]);
    }
  }

  lemma {:induction false} RunJoin(c: Cluster, first: seq<Event>, second: seq<Event>)
    requires Run(c, first).Some?
    ensures Run(c, first + second) == Run(Run(c, first).value, second)
    decreases |first|
  {
    hide Step;
    if first == [] {
      assert first + second == second;
    } else {
      assert (first + second)[1..] == first[1..] + second;
      RunJoin(Step(c, first[0]).value, first[1..], second);
    }
  }
}
