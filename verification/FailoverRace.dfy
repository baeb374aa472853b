/** Two clients whose interleaved requests leave both locks of a node held. */
module FailoverRace {
  import opened Common
  import opened Failover
  import opened FailoverSteps

  const F: Client := Client(1, "f", true)
  const P: Client := Client(2, "n", false)

  /** F reads the leader lock of n as free; P comes back and completes a round; F takes over. */
  const RACE: seq<Event> := [
    Join(F), Join(P), Begin(1, ["n"]), Act(1, true), Act(1, true), Act(1, true), Act(1, true),
    Begin(2, []), Act(2, true), Act(2, true), Act(1, true)]

  /** What matters of a state: where F and P are, and the locks of n. */
  ghost predicate Scene(y: System, f: Pc, p: Pc, leader: Option<Session>, standby: Option<Session>) {
    && y.live == {1, 2} && y.procs.Keys == {1, 2} && AllPlaced(y)
    && y.procs[1].client == F && y.procs[2].client == P && y.procs[1].pc == f && y.procs[2].pc == p
    && CanAcquire(y.kv, Leader("f"), 1) && Get(y.kv, Leader("n")) == leader && Get(y.kv, Standby("n")) == standby
  }

  lemma SceneBeginF(y: System)
    requires Scene(y, Resting, Resting, None, None)
    ensures Step(y, Begin(1, ["n"])).Some? && Scene(Step(y, Begin(1, ["n"])).value, Waiting(["n"]), Resting, None, None)
  {
  }

  lemma SceneBeginP(y: System)
    requires Scene(y, Acquiring(["n"], []), Resting, None, None)
    ensures Step(y, Begin(2, [])).Some?
    ensures Scene(Step(y, Begin(2, [])).value, Acquiring(["n"], []), Waiting([]), None, None)
  {
  }

  /** A request by F, other than taking the failover lock. */
  lemma SceneF(y: System, f: Pc, p: Pc)
    requires Scene(y, f, p, None, None)
    requires f in {Waiting(["n"]), Clearing(["n"]), Looking(["n"], []), SawLeader(["n"], [], None)}
    ensures Step(y, Act(1, true)).Some?
    ensures Scene(Step(y, Act(1, true)).value,
                  match f
                  case Waiting(ns) => Clearing(ns)
                  case Clearing(ns) => Looking(ns, [])
                  case Looking(ns, _) => SawLeader(ns, [], None)
                  case _ => Acquiring(["n"], []),
                  p, None, None)
  {
  }

  lemma SceneLead(y: System)
    requires Scene(y, Acquiring(["n"], []), Waiting([]), None, None)
    ensures Step(y, Act(2, true)).Some?
    ensures Scene(Step(y, Act(2, true)).value, Acquiring(["n"], []), Clearing([]), Some(2), None)
  {
  }

  lemma SceneClear(y: System)
    requires Scene(y, Acquiring(["n"], []), Clearing([]), Some(2), None)
    ensures Step(y, Act(2, true)).Some?
    ensures Scene(Step(y, Act(2, true)).value, Acquiring(["n"], []), Resting, Some(2), None)
  {
  }

  lemma SceneTake(y: System)
    requires Scene(y, Acquiring(["n"], []), Resting, Some(2), None)
    ensures Step(y, Act(1, true)).Some?
    ensures Scene(Step(y, Act(1, true)).value, Looking([], ["n"]), Resting, Some(2), Some(1))
  {
    assert ["n"][1..] == [] && [] + ["n"] == ["n"];
  }

  lemma SceneJoin() returns (y1: System, y2: System)
    ensures AllPlaced(EMPTY) && Step(EMPTY, Join(F)) == Some(y1) && AllPlaced(y1) && Step(y1, Join(P)) == Some(y2)
    ensures Scene(y2, Resting, Resting, None, None)
  {
    y1 := Step(EMPTY, Join(F)).value;
    y2 := Step(y1, Join(P)).value;
  }

  /** F has read n's leader lock as free. */
  lemma RaceRead() returns (y7: System)
    ensures Run(EMPTY, RACE[..7]) == Some(y7) && Scene(y7, Acquiring(["n"], []), Resting, None, None)
  {
    hide Step, Scene, AllPlaced, CanAcquire;
    var y1, y2 := SceneJoin();
    SceneBeginF(y2);
    var y3 := Step(y2, Begin(1, ["n"])).value;
    SceneF(y3, Waiting(["n"]), Resting);
    var y4 := Step(y3, Act(1, true)).value;
    SceneF(y4, Clearing(["n"]), Resting);
    var y5 := Step(y4, Act(1, true)).value;
    SceneF(y5, Looking(["n"], []), Resting);
    var y6 := Step(y5, Act(1, true)).value;
    SceneF(y6, SawLeader(["n"], [], None), Resting);
    y7 := Step(y6, Act(1, true)).value;
    TraceIsRun([EMPTY, y1, y2, y3, y4, y5, y6, y7], RACE[..7]);
  }

  /** P returns, completes its round, and F acts on what it read. */
  lemma RaceTake(y7: System) returns (y: System)
    requires AllPlaced(y7) && Scene(y7, Acquiring(["n"], []), Resting, None, None)
    ensures Run(y7, RACE[7..]) == Some(y) && Scene(y, Looking([], ["n"]), Resting, Some(2), Some(1))
  {
    hide Step, Scene, AllPlaced;
    SceneBeginP(y7);
    var y8 := Step(y7, Begin(2, [])).value;
    SceneLead(y8);
    var y9 := Step(y8, Act(2, true)).value;
    SceneClear(y9);
    var y10 := Step(y9, Act(2, true)).value;
    SceneTake(y10);
    y := Step(y10, Act(1, true)).value;
    TraceIsRun([y7, y8, y9, y10, y], RACE[7..]);
  }

  /** With interleaved requests both locks of a node can be held, by two live clients. */
  lemma ExclusionCanBeLost() returns (y: System)
    ensures Run(EMPTY, RACE) == Some(y) && y.live == {1, 2} && !Exclusive(y.kv, "n")
  {
    hide Step;
    var y7 := RaceRead();
    y := RaceTake(y7);
    RunJoin(EMPTY, RACE[..7], RACE[7..]);
    assert RACE[..7] + RACE[7..] == RACE;
  }
}
