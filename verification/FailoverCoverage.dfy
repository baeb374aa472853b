/** Once sessions stop changing, one more round by each client gives every node one runner, if the
    client can read the node's leader lock and acquires on it succeed. */
module FailoverCoverage {
  import opened Common
  import opened Failover
  import opened FailoverCluster

  /** Every live client leads its home node (so home nodes are distinct). */
  ghost predicate Settled(c: Cluster) {
    forall s :: s in c.live ==> s in c.peers && Get(c.kv, Leader(c.peers[s].client.home)) == Some(s)
  }

  /** n is looked at, its leader lock is read, and acquiring its failover lock does not fail; any other
      request may. */
  ghost predicate LooksWell(e: Event, n: Node) {
    && e.Sync? && (EachOnce(e.looks) || IsSure(e))
    && exists i :: 0 <= i < |e.looks| && e.looks[i].node == n && e.looks[i].leader && e.looks[i].acquire
  }

  /** Rounds by live clients, each with such a look at n. */
  ghost predicate RoundsOver(events: seq<Event>, live: set<Session>, n: Node) {
    forall k :: 0 <= k < |events| ==> LooksWell(events[k], n) && events[k].session in live
  }

  /** n's failover key has not been left released. */
  predicate NotLeft(c: Cluster, n: Node) { Leader(n) in c.kv || Get(c.kv, Standby(n)) != Some(NOBODY) }

  ghost function Rounders(events: seq<Event>): set<Session> {
    set k | 0 <= k < |events| && events[k].Sync? :: events[k].session
  }

  /** The session entitled to n: its primary, or else the holder of its failover lock. */
  function Owner(c: Cluster, n: Node): Option<Session> {
    if Leader(n) in c.kv then Some(c.kv[Leader(n)]) else Get(c.kv, Standby(n))
  }

  /** A client that has had its round runs n exactly if it owns n, and leaves n owned if it can. */
  ghost predicate Agrees(c: Cluster, n: Node, s: Session)
    requires s in c.peers
  {
    && (n in c.peers[s].running <==> Owner(c, n) == Some(s))
    && (c.peers[s].client.failover ==> Owner(c, n).Some?)
  }

  /** Such a round settles n by its two locks. */
  lemma WellEffect(c: Cluster, e: Event, n: Node)
    requires Inv(c) && Settled(c) && NotLeft(c, n) && LooksWell(e, n) && SyncStep(c, e).Some?
    ensures var d, me, s := SyncStep(c, e).value, c.peers[e.session].client, e.session;
            && Get(d.kv, Leader(n)) == Get(c.kv, Leader(n)) && NotLeft(d, n)
            && (n == me.home ==> n in d.peers[s].running && Get(c.kv, Leader(n)) == Some(s))
            && (n != me.home && Leader(n) in c.kv ==> n !in d.peers[s].running && c.kv[Leader(n)] != s)
            && (n != me.home && Leader(n) !in c.kv ==>
                  var takes := me.failover && !HeldByOther(c.kv, Standby(n), s);
                  && (n in d.peers[s].running <==> takes)
                  && Get(d.kv, Standby(n)) == if takes then Some(s) else Get(c.kv, Standby(n)))
  {
    hide HomeHeld, TakenHeld, Numbered, VisitNodes;
    var me := c.peers[e.session].client;
    LiveIsPeer(c);
    SyncBounds(c, e, n);
    if n != me.home {
      if EachOnce(e.looks) {
        var k :| 0 <= k < |e.looks| && e.looks[k].node == n && e.looks[k].leader && e.looks[k].acquire;
        ScanIsLooks(LeadHome(c.kv, me, e.cleared), me, e.looks, k);
        LookIsLocal(LeadHome(c.kv, me, e.cleared), c.kv, e.session, e.looks[k]);
        UnseenStays(LeadHome(c.kv, me, e.cleared), me, e.looks, n);
      } else {
        assert n in Nodes(e.looks);
        SyncEffect(c, e.session, Nodes(e.looks), n);
      }
    }
  }

  lemma SyncAgrees(c: Cluster, e: Event, n: Node, s: Session)
    requires Inv(c) && Settled(c) && NotLeft(c, n) && LooksWell(e, n) && e.session in c.live && s in c.live
    requires e.Sync? && SyncStep(c, e).Some? && (s == e.session || Agrees(c, n, s))
    ensures s in SyncStep(c, e).value.peers && Agrees(SyncStep(c, e).value, n, s)
  {
    hide Round, HomeHeld, TakenHeld, Numbered, LooksWell;
    LiveIsPeer(c);
    WellEffect(c, e, n);
    assert s != e.session ==> SyncStep(c, e).value.peers[s] == c.peers[s] by { IsSync(c, e); }
    assert SyncStep(c, e).value.peers[s].client == c.peers[s].client by { IsSync(c, e); }
  }

  lemma IsSync(c: Cluster, e: Event)
    requires e.Sync? && SyncStep(c, e).Some?
    ensures var d := SyncStep(c, e).value;
            && d.live == c.live && d.peers.Keys == c.peers.Keys + {e.session} && e.session in c.peers
            && d.peers[e.session].client == c.peers[e.session].client
            && forall s :: s in c.peers && s != e.session ==> d.peers[s] == c.peers[s]
  {
  }

  lemma SyncSettled(c: Cluster, e: Event, n: Node)
    requires Inv(c) && Settled(c) && LooksWell(e, n) && e.session in c.live
    ensures SyncStep(c, e).Some?
    ensures var d := SyncStep(c, e).value;
            && Settled(d) && d.live == c.live
            && forall s :: s in c.live ==> s in d.peers && d.peers[s].client == c.peers[s].client
  {
    hide HomeHeld, TakenHeld, Numbered;
    LiveIsPeer(c);
    var d := SyncStep(c, e).value;
    forall s | s in d.live
      ensures Get(d.kv, Leader(d.peers[s].client.home)) == Some(s)
    {
      SyncBounds(c, e, c.peers[s].client.home);
    }
  }

  lemma {:induction false} RoundsAgree(c: Cluster, events: seq<Event>, n: Node, done: set<Session>)
    requires Inv(c) && Settled(c) && NotLeft(c, n) && RoundsOver(events, c.live, n)
    requires done <= c.live && forall s :: s in done ==> s in c.peers && Agrees(c, n, s)
    ensures Run(c, events).Some?
    ensures var d := Run(c, events).value;
            && Inv(d) && Settled(d) && NotLeft(d, n) && d.live == c.live
            && (forall s :: s in c.live ==> s in c.peers && s in d.peers && d.peers[s].client == c.peers[s].client)
            && (forall s :: s in c.live && s in done + Rounders(events) ==> s in d.peers && Agrees(d, n, s))
    decreases |events|
  {
    hide Inv, SyncStep;
    if events != [] {
      var t := events[0].session;
      assert LooksWell(events[0], n);
      SyncSettled(c, events[0], n);
      SyncKeeps(c, events[0]);
      WellEffect(c, events[0], n);
      var next := SyncStep(c, events[0]).value;
      forall s | s in done + {t}
        ensures s in next.peers && Agrees(next, n, s)
      {
        SyncAgrees(c, events[0], n, s);
      }
      assert RoundsOver(events[1..], next.live, n);
      RoundsAgree(next, events[1..], n, done + {t});
      assert done + {t} + Rounders(events[1..]) == done + Rounders(events) by { RoundersSplit(events); }
    }
  }

  lemma RoundersSplit(events: seq<Event>)
    requires events != [] && events[0].Sync?
    ensures Rounders(events) == {events[0].session} + Rounders(events[1..])
  {
    forall s | s in Rounders(events)
      ensures s in {events[0].session} + Rounders(events[1..])
    {
      var k :| 0 <= k < |events| && events[k].Sync? && events[k].session == s;
      if k > 0 {
        assert events[1..][k - 1] == events[k];
      }
    }
    forall s | s in Rounders(events[1..])
      ensures s in Rounders(events)
    {
      var k :| 0 <= k < |events[1..]| && events[1..][k].Sync? && events[1..][k].session == s;
      assert events[k + 1] == events[1..][k];
    }
  }

  /** Some live client has home n. */
  ghost predicate HasPrimary(c: Cluster, n: Node) {
    exists s :: s in c.live && s in c.peers && c.peers[s].client.home == n
  }

  ghost predicate HasFailover(c: Cluster) {
    exists s :: s in c.live && s in c.peers && c.peers[s].client.failover
  }

  ghost predicate RunsAlone(c: Cluster, n: Node, s: Session) {
    && s in c.live && s in c.peers && n in c.peers[s].running
    && forall t :: t in c.live && t in c.peers && n in c.peers[t].running ==> t == s
  }

  /** Failover coverage: in a reachable state where every live client leads its home node and n's
      failover key has not been left released, let every live client run at least one round, in any
      order and any number of times, in which it looks at n, reads n's leader lock and can acquire;
      any other request may fail, now or before. No round has to wait, and afterwards exactly one live
      client runs n if and only if n has a live primary or some live client has failover enabled;
      otherwise none does. */
  lemma Coverage(before: seq<Event>, c: Cluster, events: seq<Event>, n: Node)
    requires FailoverCluster.Run(EMPTY, before) == Some(c) && Settled(c)
    requires NotLeft(c, n) && RoundsOver(events, c.live, n) && c.live <= Rounders(events)
    ensures Run(c, events).Some?
    ensures var d := Run(c, events).value;
            && (HasPrimary(c, n) || HasFailover(c) <==> exists s :: RunsAlone(d, n, s))
            && (!HasPrimary(c, n) && !HasFailover(c) ==>
                  forall s :: s in d.live && s in d.peers ==> n !in d.peers[s].running)
  {
    hide Inv, FailoverCluster.Run;
    ReachedInv(before, c);
    RoundsAgree(c, events, n, {});
    OwnerRuns(c, Run(c, events).value, n);
  }

  lemma OwnerRuns(c: Cluster, d: Cluster, n: Node)
    requires Inv(c) && Inv(d) && Settled(d) && NotLeft(d, n) && d.live == c.live
    requires forall s :: s in c.live ==> s in c.peers && s in d.peers && d.peers[s].client == c.peers[s].client
    requires forall s :: s in d.live ==> s in d.peers && Agrees(d, n, s)
    ensures HasPrimary(c, n) || HasFailover(c) <==> exists s :: RunsAlone(d, n, s)
    ensures !HasPrimary(c, n) && !HasFailover(c) ==> forall s :: s in d.live && s in d.peers ==>
              n !in d.peers[s].running
  {
    OwnerIff(c, d, n);
    hide Inv, HasPrimary, HasFailover;
    if Owner(d, n).Some? {
      assert RunsAlone(d, n, Owner(d, n).value);
    }
  }

  /** n is owned exactly if someone is there to own it. */
  lemma OwnerIff(c: Cluster, d: Cluster, n: Node)
    requires Inv(c) && Inv(d) && Settled(d) && NotLeft(d, n) && d.live == c.live
    requires forall s :: s in c.live ==> s in c.peers && s in d.peers && d.peers[s].client == c.peers[s].client
    requires forall s :: s in d.live ==> s in d.peers && Agrees(d, n, s)
    ensures Owner(d, n).Some? <==> HasPrimary(c, n) || HasFailover(c)
    ensures Owner(d, n).Some? ==> Owner(d, n).value in d.live
  {
    if Owner(d, n).Some? {
      var s := Owner(d, n).value;
      assert s in c.live && s in c.peers;
    }
    if HasFailover(c) {
      var s :| s in c.live && s in c.peers && c.peers[s].client.failover;
      assert Agrees(d, n, s);
    }
  }

  // ----- A failover key that was left released -----

  /** A release that succeeded before a delete that failed has left n's failover key, with no primary. */
  predicate Left(c: Cluster, n: Node) { Leader(n) !in c.kv && Get(c.kv, Standby(n)) == Some(NOBODY) }

  /** Another node than n. */
  function Elsewhere(n: Node): Node { if n == "f" then "g" else "f" }

  /** F takes n over, its primary comes back and fails to delete F's lock, F's next look releases it and
      fails to delete the key, and the primary dies. */
  function LeavesKey(n: Node): seq<Event> {
    [ Join(Client(1, Elsewhere(n), true)), Join(Client(2, n, false)), SureSync(1, [n]), Sync(2, false, []),
      Sync(1, true, [Sure(n).(delete := false)]), Expiry(2) ]
  }

  /** What matters on the way: the locks of n, who is live, and that both clients can lead their nodes. */
  ghost predicate OnTheWay(c: Cluster, n: Node, live: set<Session>, leader: Option<Session>, standby: Option<Session>) {
    && c.live == live && c.peers.Keys == {1, 2} && Get(c.kv, Leader(n)) == leader && Get(c.kv, Standby(n)) == standby
    && c.peers[1].client == Client(1, Elsewhere(n), true) && c.peers[2].client == Client(2, n, false)
    && CanAcquire(c.kv, Leader(Elsewhere(n)), 1) && (leader.None? || leader == Some(2))
  }

  lemma BothJoin(n: Node) returns (a: Cluster, b: Cluster)
    ensures Step(EMPTY, LeavesKey(n)[0]) == Some(a) && Step(a, LeavesKey(n)[1]) == Some(b)
    ensures OnTheWay(b, n, {1, 2}, None, None)
  {
    a := Step(EMPTY, LeavesKey(n)[0]).value;
    b := Step(a, LeavesKey(n)[1]).value;
  }

  lemma TakesOver(c: Cluster, n: Node)
    requires OnTheWay(c, n, {1, 2}, None, None)
    ensures Step(c, SureSync(1, [n])).Some? && OnTheWay(Step(c, SureSync(1, [n])).value, n, {1, 2}, None, Some(1))
  {
    SyncEffect(c, 1, [n], n);
    SyncEffect(c, 1, [n], Elsewhere(n));
  }

  lemma ComesBack(c: Cluster, n: Node)
    requires OnTheWay(c, n, {1, 2}, None, Some(1))
    ensures Step(c, Sync(2, false, [])).Some?
    ensures OnTheWay(Step(c, Sync(2, false, [])).value, n, {1, 2}, Some(2), Some(1))
  {
    assert EachOnce([]);
  }

  lemma GivesUpHalf(c: Cluster, n: Node)
    requires OnTheWay(c, n, {1, 2}, Some(2), Some(1))
    ensures var e := Sync(1, true, [Sure(n).(delete := false)]);
            Step(c, e).Some? && OnTheWay(Step(c, e).value, n, {1, 2}, Some(2), Some(NOBODY))
  {
    var look := Sure(n).(delete := false);
    var me := c.peers[1].client;
    var own := LeadHome(c.kv, me, true);
    assert EachOnce([look]) && [look][0] == look && [look][1..] == [];
    HolderGivesUp(own, 1, look, VisitNode(own, 1, look).kv);
    assert VisitNodes(own, me, [look]).kv == VisitNode(own, 1, look).kv;
  }

  lemma PrimaryDies(c: Cluster, n: Node)
    requires OnTheWay(c, n, {1, 2}, Some(2), Some(NOBODY))
    ensures Step(c, Expiry(2)).Some? && Left(Step(c, Expiry(2)).value, n)
  {
  }

  /** Two failed deletes are enough to leave n's failover key, whatever node n is. */
  lemma KeyCanBeLeft(n: Node) returns (c: Cluster)
    ensures Run(EMPTY, LeavesKey(n)) == Some(c) && Left(c, n)
  {
    hide Step, OnTheWay;
    var a, b := BothJoin(n);
    TakesOver(b, n);
    var taken := Step(b, SureSync(1, [n])).value;
    ComesBack(taken, n);
    var back := Step(taken, Sync(2, false, [])).value;
    GivesUpHalf(back, n);
    var half := Step(back, Sync(1, true, [Sure(n).(delete := false)])).value;
    PrimaryDies(half, n);
    c := Step(half, Expiry(2)).value;
    TraceIsRun([EMPTY, a, b, taken, back, half, c], LeavesKey(n));
  }

  /** A look at n that reads the failover key, by a client of another node. */
  ghost predicate SeesKey(c: Cluster, e: Event, n: Node) {
    && e.Sync? && EachOnce(e.looks) && e.session in c.peers && c.peers[e.session].client.home != n
    && exists i :: 0 <= i < |e.looks| && e.looks[i].node == n && e.looks[i].standby
  }

  ghost predicate AllSeeKey(c: Cluster, events: seq<Event>, n: Node) {
    forall k :: 0 <= k < |events| ==> SeesKey(c, events[k], n)
  }

  lemma LeftEffect(c: Cluster, e: Event, n: Node)
    requires Inv(c) && Left(c, n) && SeesKey(c, e, n) && SyncStep(c, e).Some?
    ensures var d := SyncStep(c, e).value; Left(d, n) && n !in d.peers[e.session].running
  {
    hide HomeHeld, TakenHeld, Numbered, VisitNodes;
    LiveIsPeer(c);
    SyncBounds(c, e, n);
    var me := c.peers[e.session].client;
    var k :| 0 <= k < |e.looks| && e.looks[k].node == n && e.looks[k].standby;
    ScanIsLooks(LeadHome(c.kv, me, e.cleared), me, e.looks, k);
    LookIsLocal(LeadHome(c.kv, me, e.cleared), c.kv, e.session, e.looks[k]);
    UnseenStays(LeadHome(c.kv, me, e.cleared), me, e.looks, n);
  }

  /** It breaks coverage for good: whatever rounds clients of other nodes complete, as long as they can
      read the key, none of them runs the node afterwards, and the key stays. */
  lemma {:induction false} LeftStaysUncovered(c: Cluster, events: seq<Event>, n: Node, done: set<Session>)
    requires Inv(c) && Left(c, n) && AllSeeKey(c, events, n) && Run(c, events).Some?
    requires forall s :: s in done ==> s in c.peers && n !in c.peers[s].running
    ensures var d := Run(c, events).value;
            Left(d, n) && forall s :: s in done + Rounders(events) ==> s in d.peers && n !in d.peers[s].running
    decreases |events|
  {
    hide Inv, SyncStep, Left;
    if events != [] {
      var next := SyncStep(c, events[0]).value;
      assert SeesKey(c, events[0], n);
      LeftEffect(c, events[0], n);
      SyncKeeps(c, events[0]);
      IsSync(c, events[0]);
      forall k | 0 <= k < |events[1..]|
        ensures SeesKey(next, events[1..][k], n)
      {
        assert SeesKey(c, events[k + 1], n);
      }
      LeftStaysUncovered(next, events[1..], n, done + {events[0].session});
      RoundersSplit(events);
      assert done + {events[0].session} + Rounders(events[1..]) == done + Rounders(events);
    }
  }
}
