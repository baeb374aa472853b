/** An overlap that outlives the earlier client's next round. */
module FailoverRelapse {
  import opened Common
  import opened Failover
  import opened FailoverCluster

  const A: Client := Client(1, "a", true)
  const B: Client := Client(2, "b", true)
  const P: Client := Client(3, "n", false)
  const Q: Client := Client(4, "n", false)

  /** A takes n over; its primary P returns and dies; B takes n over; the primary returns as Q and
      dies too. Now A's next round finds both locks of n free. */
  const RELAPSE: seq<Event> := [
    Join(A), Join(B), Join(P), Join(Q), SureSync(1, ["n"]), SureSync(3, []), Expiry(3), SureSync(2, ["n"]),
    SureSync(4, []), Expiry(4)]

  /** What matters of a state: who is live, the locks of n, and who of A and B runs n since when. */
  ghost predicate Scene(
    c: Cluster, now: nat, live: set<Session>, leader: Option<Session>, standby: Option<Session>, a: nat, b: nat)
  {
    && c.clock == now && c.live == live && c.peers.Keys == {1, 2, 3, 4}
    && c.peers[1].client == A && c.peers[2].client == B && c.peers[3].client == P && c.peers[4].client == Q
    && Get(c.kv, Leader("n")) == leader && Get(c.kv, Standby("n")) == standby
    && CanAcquire(c.kv, Leader("a"), 1) && CanAcquire(c.kv, Leader("b"), 2)
    && ("n" in c.peers[1].running <==> a > 0) && c.peers[1].last == a
    && ("n" in c.peers[2].running <==> b > 0) && c.peers[2].last == b
  }

  lemma JoinAll() returns (c: Cluster)
    ensures Run(EMPTY, RELAPSE[..4]) == Some(c) && Scene(c, 0, {1, 2, 3, 4}, None, None, 0, 0)
  {
    var c1 := JoinStep(EMPTY, A).value;
    var c2 := JoinStep(c1, B).value;
    var c3 := JoinStep(c2, P).value;
    c := JoinStep(c3, Q).value;
    TraceIsRun([EMPTY, c1, c2, c3, c], RELAPSE[..4]);
  }

  /** A or B takes n over when both its locks are free. */
  lemma TakeOver(c: Cluster, now: nat, live: set<Session>, a: nat, b: nat, s: Session)
    requires Scene(c, now, live, None, None, a, b) && s in live && s in {1, 2}
    ensures Step(c, SureSync(s, ["n"])).Some?
    ensures Scene(Step(c, SureSync(s, ["n"])).value, now + 1, live, None, Some(s),
                  if s == 1 then now + 1 else a, if s == 2 then now + 1 else b)
  {
    SyncEffect(c, s, ["n"], "n");
    SyncEffect(c, s, ["n"], "a");
    SyncEffect(c, s, ["n"], "b");
  }

  /** A primary of n completes a round. */
  lemma Recover(c: Cluster, now: nat, live: set<Session>, standby: Option<Session>, a: nat, b: nat, s: Session)
    requires Scene(c, now, live, None, standby, a, b) && s in live && s in {3, 4}
    ensures Step(c, SureSync(s, [])).Some?
    ensures Scene(Step(c, SureSync(s, [])).value, now + 1, live, Some(s), None, a, b)
  {
    SyncEffect(c, s, [], "n");
    SyncEffect(c, s, [], "a");
    SyncEffect(c, s, [], "b");
  }

  lemma Die(c: Cluster, now: nat, live: set<Session>, a: nat, b: nat, s: Session)
    requires Scene(c, now, live, Some(s), None, a, b) && s in live && s in {3, 4}
    ensures Step(c, Expiry(s)).Some?
    ensures Scene(Step(c, Expiry(s)).value, now, live - {s}, None, None, a, b)
  {
  }

  lemma RelapseRun() returns (c: Cluster)
    ensures Run(EMPTY, RELAPSE) == Some(c) && Scene(c, 4, {1, 2, 3, 4} - {3} - {4}, None, None, 1, 3)
  {
    hide Step, Scene;
    var c4 := JoinAll();
    TakeOver(c4, 0, {1, 2, 3, 4}, 0, 0, 1);
    var c5 := Step(c4, SureSync(1, ["n"])).value;
    Recover(c5, 1, {1, 2, 3, 4}, Some(1), 1, 0, 3);
    var c6 := Step(c5, SureSync(3, [])).value;
    Die(c6, 2, {1, 2, 3, 4}, 1, 0, 3);
    var c7 := Step(c6, Expiry(3)).value;
    TakeOver(c7, 2, {1, 2, 3, 4} - {3}, 1, 0, 2);
    var c8 := Step(c7, SureSync(2, ["n"])).value;
    Recover(c8, 3, {1, 2, 3, 4} - {3}, Some(2), 1, 3, 4);
    var c9 := Step(c8, SureSync(4, [])).value;
    Die(c9, 4, {1, 2, 3, 4} - {3}, 1, 3, 4);
    c := Step(c9, Expiry(4)).value;
    TraceIsRun([c4, c5, c6, c7, c8, c9, c], RELAPSE[4..]);
    RunJoin(EMPTY, RELAPSE[..4], RELAPSE[4..]);
    assert RELAPSE[..4] + RELAPSE[4..] == RELAPSE;
  }

  /** The earlier client's next round need not end an overlap: here A runs n again beside B. */
  lemma OverlapCanRelapse() returns (c: Cluster)
    ensures Run(EMPTY, RELAPSE) == Some(c) && Overlap(c, 1, 2, "n")
    ensures Step(c, SureSync(1, ["n"])).Some? && Overlap(Step(c, SureSync(1, ["n"])).value, 2, 1, "n")
  {
    hide Step, Run;
    c := RelapseRun();
    TakeOver(c, 4, {1, 2, 3, 4} - {3} - {4}, 1, 3, 1);
  }
}
