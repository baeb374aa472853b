/** The same clients with every Consul request a step of its own, interleaved in any order, and any
    request may fail. A client whose session has expired, or whose request fails, panics on acquiring
    its leader lock and gets no failover lock; its releases and deletes still go through if they
    do not fail, and a failed read looks like a key that does not exist. */
module FailoverSteps {
  import opened Common
  import opened Failover

  /** Where a client is in getAllocations; `rest` starts with the node being looked at. */
  datatype Pc =
    | Resting
    | Waiting(nodes: seq<Node>)                                        // for the leader lock
    | Clearing(nodes: seq<Node>)                                       // about to delete its own failover key
    | Looking(rest: seq<Node>, taken: seq<Node>)
    | SawLeader(rest: seq<Node>, taken: seq<Node>, leader: Option<Session>)
    | Releasing(rest: seq<Node>, taken: seq<Node>)
    | Deleting(rest: seq<Node>, taken: seq<Node>)
    | Acquiring(rest: seq<Node>, taken: seq<Node>)
    | Crashed

  /** `led`: the client has acquired its leader lock at least once. */
  datatype Proc = Proc(client: Client, pc: Pc, running: seq<Node>, led: bool)

  datatype World = World(kv: Kv, proc: Proc)

  predicate Between(pc: Pc) { pc.SawLeader? || pc.Releasing? || pc.Deleting? || pc.Acquiring? }

  /** A client between two requests about a node is looking at a node that is not its own. */
  predicate Placed(p: Proc) { Between(p.pc) ==> p.pc.rest != [] && p.pc.rest[0] != p.client.home }

  /** The next request of a client, and what it does. */
  function Advance(kv: Kv, p: Proc, alive: bool, ok: bool): (r: World)
    requires Placed(p)
    ensures Placed(r.proc)
  {
    var c, s := p.client, p.client.session;
    match p.pc
    case Resting => World(kv, p)
    case Crashed => World(kv, p)
    case Waiting(nodes) =>
      if !alive || !ok then World(kv, p.(pc := Crashed))
      else if CanAcquire(kv, Leader(c.home), s) then
        World(kv[Leader(c.home) := s], p.(pc := Clearing(nodes), led := true))
      else World(kv, p)
    case Clearing(nodes) =>
      World(if ok then Delete(kv, Standby(c.home)) else kv,
            if c.failover then p.(pc := Looking(nodes, [])) else p.(pc := Resting, running := [c.home]))
    case Looking(rest, taken) =>
      if rest == [] then World(kv, p.(pc := Resting, running := [c.home] + taken))
      else if rest[0] == c.home then World(kv, p.(pc := Looking(rest[1..], taken)))
      else World(kv, p.(pc := SawLeader(rest, taken, Read(kv, Leader(rest[0]), ok))))
    case SawLeader(rest, taken, leader) =>
      var standby := Read(kv, Standby(rest[0]), ok);
      if leader.Some? && leader.value != s then
        World(kv, p.(pc := if standby == Some(s) then Releasing(rest, taken) else Looking(rest[1..], taken)))
      else if standby.Some? && standby.value != s then World(kv, p.(pc := Looking(rest[1..], taken)))
      else World(kv, p.(pc := Acquiring(rest, taken)))
    case Releasing(rest, taken) =>
      World(if ok then Release(kv, Standby(rest[0]), s) else kv, p.(pc := Deleting(rest, taken)))
    case Deleting(rest, taken) =>
      World(if ok then Delete(kv, Standby(rest[0])) else kv, p.(pc := Looking(rest[1..], taken)))
    case Acquiring(rest, taken) =>
      if alive && ok && CanAcquire(kv, Standby(rest[0]), s)
      then World(kv[Standby(rest[0]) := s], p.(pc := Looking(rest[1..], taken + [rest[0]])))
      else World(kv, p.(pc := Looking(rest[1..], taken)))
  }

  // ----- An uninterrupted client performs a round -----

  function After(w: World, ok: bool): (r: World)
    requires Placed(w.proc)
    ensures Placed(r.proc)
  {
    Advance(w.kv, w.proc, true, ok)
  }

  /** One request for each entry of `oks`, which says whether it succeeds. */
  function Advances(w: World, oks: seq<bool>): (r: World)
    requires Placed(w.proc)
    ensures Placed(r.proc)
    decreases |oks|
  {
    if oks == [] then w else Advances(After(w, oks[0]), oks[1..])
  }

  lemma {:induction false} AdvancesJoin(w: World, first: seq<bool>, second: seq<bool>)
    requires Placed(w.proc)
    ensures Advances(w, first + second) == Advances(Advances(w, first), second)
    decreases |first|
  {
    hide After;
    if first == [] {
      assert first + second == second;
    } else {
      assert (first + second)[1..] == first[1..] + second;
      AdvancesJoin(After(w, first[0]), first[1..], second);
    }
  }

  lemma AdvancesTwo(w: World, a: bool, b: bool)
    requires Placed(w.proc)
    ensures Advances(w, [a, b]) == After(After(w, a), b)
  {
    hide After;
    assert [a, b][1..] == [b] && [b][1..] == [];
    assert Advances(After(w, a), [b]) == Advances(After(After(w, a), b), []);
  }

  /** Someone else leads the node: its failover lock is given back if the client has it. */
  lemma GivesBack(kv: Kv, p: Proc, look: Look) returns (oks: seq<bool>)
    requires p.pc.SawLeader? && p.pc.rest != [] && p.pc.rest[0] == look.node != p.client.home
    requires p.pc.leader == Read(kv, Leader(look.node), look.leader) && p.pc.leader.Some?
    requires p.pc.leader.value != p.client.session
    ensures Advances(World(kv, p), oks) ==
            World(VisitNode(kv, p.client.session, look).kv, p.(pc := Looking(p.pc.rest[1..], p.pc.taken)))
  {
    hide Advances;
    var seen := After(World(kv, p), look.standby);
    AdvancesOne(World(kv, p), look.standby);
    oks := [look.standby];
    if Read(kv, Standby(look.node), look.standby) == Some(p.client.session) {
      AdvancesTwo(seen, look.release, look.delete);
      AdvancesJoin(World(kv, p), [look.standby], [look.release, look.delete]);
      oks := [look.standby] + [look.release, look.delete];
    }
  }

  lemma AdvancesOne(w: World, a: bool)
    requires Placed(w.proc)
    ensures Advances(w, [a]) == After(w, a)
  {
    hide After;
    assert [a][1..] == [];
    assert Advances(After(w, a), []) == After(w, a);
  }

  /** Nobody else is seen to lead the node: its failover lock is taken if it looks free. */
  lemma TriesToTake(kv: Kv, p: Proc, look: Look) returns (oks: seq<bool>)
    requires p.pc.SawLeader? && p.pc.rest != [] && p.pc.rest[0] == look.node != p.client.home
    requires p.pc.leader == Read(kv, Leader(look.node), look.leader)
    requires p.pc.leader.None? || p.pc.leader.value == p.client.session
    ensures var v := VisitNode(kv, p.client.session, look);
            Advances(World(kv, p), oks) == World(v.kv, p.(pc := Looking(p.pc.rest[1..], p.pc.taken + v.taken)))
  {
    hide Advances;
    var standby := Read(kv, Standby(look.node), look.standby);
    assert p.pc.taken + [] == p.pc.taken;
    if standby.Some? && standby.value != p.client.session {
      AdvancesOne(World(kv, p), look.standby);
      oks := [look.standby];
    } else {
      AdvancesTwo(World(kv, p), look.standby, look.acquire);
      oks := [look.standby, look.acquire];
    }
  }

  /** From looking at a node to looking at the next: the client does what VisitOther says. */
  lemma SoloVisit(kv: Kv, p: Proc, look: Look) returns (oks: seq<bool>)
    requires p.pc.Looking? && p.pc.rest != [] && p.pc.rest[0] == look.node
    ensures var v := VisitOther(kv, p.client, look);
            Advances(World(kv, p), oks) == World(v.kv, p.(pc := Looking(p.pc.rest[1..], p.pc.taken + v.taken)))
  {
    hide Advances, VisitNode;
    assert p.pc.taken + [] == p.pc.taken;
    var next := After(World(kv, p), look.leader);
    AdvancesOne(World(kv, p), look.leader);
    if look.node == p.client.home {
      oks := [look.leader];
    } else {
      var more;
      if next.proc.pc.leader.Some? && next.proc.pc.leader.value != p.client.session {
        more := GivesBack(kv, next.proc, look);
        SeenTakesNone(kv, p.client.session, look);
      } else {
        more := TriesToTake(kv, next.proc, look);
      }
      oks := [look.leader] + more;
      AdvancesJoin(World(kv, p), [look.leader], more);
    }
  }

  lemma SeenTakesNone(kv: Kv, s: Session, look: Look)
    requires Read(kv, Leader(look.node), look.leader).Some? && Read(kv, Leader(look.node), look.leader).value != s
    ensures VisitNode(kv, s, look).taken == []
  {
  }

  lemma ScanEnds(kv: Kv, p: Proc)
    requires p.pc.Looking? && p.pc.rest == []
    ensures Advances(World(kv, p), [true]) ==
              World(kv, p.(pc := Resting, running := [p.client.home] + (p.pc.taken + [])))
  {
    AdvancesOne(World(kv, p), true);
    assert p.pc.taken + [] == p.pc.taken;
  }

  lemma {:induction false} SoloScan(kv: Kv, p: Proc, looks: seq<Look>) returns (oks: seq<bool>)
    requires p.pc.Looking? && p.pc.rest == Nodes(looks)
    ensures var v := VisitNodes(kv, p.client, looks);
            Advances(World(kv, p), oks) ==
            World(v.kv, p.(pc := Resting, running := [p.client.home] + (p.pc.taken + v.taken)))
    decreases |looks|
  {
    hide Advances, After, VisitOther;
    if looks == [] {
      oks := [true];
      ScanEnds(kv, p);
    } else {
      var first := SoloVisit(kv, p, looks[0]);
      var v := VisitOther(kv, p.client, looks[0]);
      var next := p.(pc := Looking(p.pc.rest[1..], p.pc.taken + v.taken));
      assert Nodes(looks)[1..] == Nodes(looks[1..]);
      var rest := SoloScan(v.kv, next, looks[1..]);
      AdvancesJoin(World(kv, p), first, rest);
      oks := first + rest;
      var more := VisitNodes(v.kv, p.client, looks[1..]).taken;
      assert p.pc.taken + v.taken + more == p.pc.taken + (v.taken + more);
    }
  }

  /** A client that runs without interruption performs exactly a Round, whichever of its requests
      fail. */
  lemma SoloRound(kv: Kv, p: Proc, cleared: bool, looks: seq<Look>) returns (oks: seq<bool>)
    requires p.pc.Waiting? && p.pc.nodes == Nodes(looks) && Round(kv, p.client, cleared, looks).Some?
    ensures var r := Round(kv, p.client, cleared, looks).value;
            Advances(World(kv, p), oks) == World(r.kv, p.(pc := Resting, running := r.taken, led := true))
  {
    hide Advances, VisitNodes;
    var w := World(kv, p);
    AdvancesTwo(w, true, cleared);
    oks := [true, cleared];
    if p.client.failover {
      var w2 := After(After(w, true), cleared);
      var rest := SoloScan(w2.kv, w2.proc, looks);
      AdvancesJoin(w, [true, cleared], rest);
      oks := [true, cleared] + rest;
      var taken := VisitNodes(w2.kv, p.client, looks).taken;
      assert [] + taken == taken;
    }
  }

  // ----- Many clients, interleaved request by request -----

  datatype System = System(kv: Kv, live: set<Session>, procs: map<Session, Proc>)

  datatype Event =
    | Join(client: Client)
    | Begin(session: Session, nodes: seq<Node>)
    | Act(session: Session, ok: bool)
    | Expiry(session: Session)

  const EMPTY: System := System(map[], {}, map[])

  ghost predicate AllPlaced(y: System) { forall s :: s in y.procs ==> Placed(y.procs[s]) }

  function Step(y: System, e: Event): (r: Option<System>)
    requires AllPlaced(y)
    ensures r.Some? ==> AllPlaced(r.value)
  {
    match e
    case Join(c) =>
      if c.session == NOBODY || c.session in y.procs then None
      else Some(y.(live := y.live + {c.session}, procs := y.procs[c.session := Proc(c, Resting, [], false)]))
    case Begin(s, nodes) =>
      if s in y.procs && y.procs[s].pc.Resting?
      then Some(y.(procs := y.procs[s := y.procs[s].(pc := Waiting(nodes))]))
      else None
    case Act(s, ok) =>
      if s in y.procs then
        var w := Advance(y.kv, y.procs[s], s in y.live, ok);
        Some(System(w.kv, y.live, y.procs[s := w.proc]))
      else None
    case Expiry(s) =>
      if s in y.live then Some(y.(kv := Expire(y.kv, s), live := y.live - {s})) else None
  }

  function Run(y: System, events: seq<Event>): (r: Option<System>)
    requires AllPlaced(y)
    ensures r.Some? ==> AllPlaced(r.value)
    decreases |events|
  {
    if events == [] then Some(y)
    else
      var next := Step(y, events[0]);
      if next.None? then None else Run(next.value, events[1..])
  }

  /** Leader locks are sound even so: one is held only by a live client of that node, and a live
      client that has acquired its own has it still. */
  ghost predicate LeadersSound(y: System) {
    && (forall s :: s in y.live ==> s in y.procs)
    && (forall s :: s in y.procs ==> s != NOBODY && y.procs[s].client.session == s)
    && (forall n :: Leader(n) in y.kv ==> y.kv[Leader(n)] in y.live && y.procs[y.kv[Leader(n)]].client.home == n)
    && (forall s :: s in y.live && y.procs[s].led ==> Get(y.kv, Leader(y.procs[s].client.home)) == Some(s))
  }

  /** Only acquiring and expiry touch leader locks. */
  lemma AdvanceLeaders(kv: Kv, p: Proc, alive: bool, ok: bool, n: Node)
    requires Placed(p)
    ensures var r := Advance(kv, p, alive, ok);
            && r.proc.client == p.client && (p.led ==> r.proc.led)
            && ((Get(r.kv, Leader(n)) == Get(kv, Leader(n)) && (n == p.client.home ==> r.proc.led == p.led))
                || (alive && n == p.client.home && CanAcquire(kv, Leader(n), p.client.session)
                    && Get(r.kv, Leader(n)) == Some(p.client.session)))
  {
  }

  lemma ActKeepsLeaders(y: System, s: Session, ok: bool)
    requires AllPlaced(y) && LeadersSound(y) && s in y.procs
    ensures LeadersSound(Step(y, Act(s, ok)).value)
  {
    hide Advance;
    var z := Step(y, Act(s, ok)).value;
    forall n | Leader(n) in z.kv
      ensures z.kv[Leader(n)] in z.live && z.procs[z.kv[Leader(n)]].client.home == n
    {
      AdvanceLeaders(y.kv, y.procs[s], s in y.live, ok, n);
    }
    forall t | t in z.live && z.procs[t].led
      ensures Get(z.kv, Leader(z.procs[t].client.home)) == Some(t)
    {
      AdvanceLeaders(y.kv, y.procs[s], s in y.live, ok, z.procs[t].client.home);
      AdvanceLeaders(y.kv, y.procs[s], s in y.live, ok, y.procs[s].client.home);
    }
    AdvanceLeaders(y.kv, y.procs[s], s in y.live, ok, y.procs[s].client.home);
  }

  lemma StepKeepsLeaders(y: System, e: Event)
    requires AllPlaced(y) && LeadersSound(y) && Step(y, e).Some?
    ensures LeadersSound(Step(y, e).value)
  {
    if e.Act? {
      ActKeepsLeaders(y, e.session, e.ok);
    }
  }

  lemma {:induction false} RunKeepsLeaders(y: System, events: seq<Event>)
    requires AllPlaced(y) && LeadersSound(y) && Run(y, events).Some?
    ensures LeadersSound(Run(y, events).value)
    decreases |events|
  {
    hide Step;
    if events != [] {
      StepKeepsLeaders(y, events[0]);
      RunKeepsLeaders(Step(y, events[0]).value, events[1..]);
    }
  }

  /** Under every interleaving, two live clients of one node never both get past the leader lock. */
  lemma LeaderExclusive(events: seq<Event>, y: System, s: Session, t: Session)
    requires Run(EMPTY, events) == Some(y) && s in y.live && t in y.live && s in y.procs && t in y.procs
    requires y.procs[s].led && y.procs[t].led && y.procs[s].client.home == y.procs[t].client.home
    ensures s == t
  {
    RunKeepsLeaders(EMPTY, events);
  }

  // ----- Exclusion: healed, lost, kept -----

  /** Whatever the locks were: one uninterrupted round by the node's primary leaves the failover
      lock of the node deleted. */
  lemma PrimaryHeals(kv: Kv, p: Proc) returns (oks: seq<bool>)
    requires p.pc.Waiting? && CanAcquire(kv, Leader(p.client.home), p.client.session)
    ensures var w, n := Advances(World(kv, p), oks), p.client.home;
            && w.proc.pc.Resting? && Get(w.kv, Leader(n)) == Some(p.client.session)
            && Standby(n) !in w.kv && Exclusive(w.kv, n)
  {
    assert Nodes(AllSure(p.pc.nodes)) == p.pc.nodes;
    oks := SoloRound(kv, p, true, AllSure(p.pc.nodes));
    RoundEffect(kv, p.client, p.pc.nodes, p.client.home);
  }

  /** So does one by the failover holder while another client leads the node: it gives the lock
      and the node up. */
  lemma HolderHeals(kv: Kv, f: Proc, n: Node) returns (oks: seq<bool>)
    requires f.pc.Waiting? && CanAcquire(kv, Leader(f.client.home), f.client.session)
    requires f.client.failover && n in f.pc.nodes && n != f.client.home
    requires HeldByOther(kv, Leader(n), f.client.session) && Get(kv, Standby(n)) == Some(f.client.session)
    ensures var w := Advances(World(kv, f), oks);
            && w.proc.pc.Resting? && n !in w.proc.running && Standby(n) !in w.kv
            && Get(w.kv, Leader(n)) == Get(kv, Leader(n)) && Exclusive(w.kv, n)
  {
    assert Nodes(AllSure(f.pc.nodes)) == f.pc.nodes;
    oks := SoloRound(kv, f, true, AllSure(f.pc.nodes));
    RoundEffect(kv, f.client, f.pc.nodes, n);
  }

  /** The client has not seen another's leader lock on n and may still take n's failover lock. */
  predicate Committed(p: Proc, n: Node) {
    && (p.pc.SawLeader? || p.pc.Acquiring?)
    && p.pc.rest != [] && p.pc.rest[0] == n
    && (p.pc.SawLeader? ==> p.pc.leader.None? || p.pc.leader.value == p.client.session)
  }

  /** p is live and leads n, and nobody holds n's failover lock. */
  ghost predicate Recovered(y: System, p: Session, n: Node) {
    && p in y.live && p in y.procs && y.procs[p].led && y.procs[p].client.home == n
    && !Held(y.kv, Standby(n))
  }

  /** No live client is about to take n's failover lock. */
  ghost predicate NoneCommitted(y: System, n: Node) {
    forall s :: s in y.procs && s in y.live ==> !Committed(y.procs[s], n)
  }

  /** A client that is alive fails to read n's leader lock. */
  predicate Blind(y: System, e: Event, n: Node) {
    && e.Act? && !e.ok && e.session in y.procs && e.session in y.live
    && var p := y.procs[e.session]; p.pc.Looking? && p.pc.rest != [] && p.pc.rest[0] == n
  }

  /** In the run, p stays alive and no live client fails to read n's leader lock. */
  predicate Sighted(y: System, events: seq<Event>, p: Session, n: Node)
    requires AllPlaced(y)
    decreases |events|
  {
    events == [] ||
    (events[0] != Expiry(p) && !Blind(y, events[0], n)
     && (Step(y, events[0]).Some? ==> Sighted(Step(y, events[0]).value, events[1..], p, n)))
  }

  lemma AdvanceRecovered(kv: Kv, q: Proc, alive: bool, ok: bool, p: Session, n: Node)
    requires Placed(q) && (alive ==> !Committed(q, n)) && Get(kv, Leader(n)) == Some(p) && !Held(kv, Standby(n))
    requires q.client.session != NOBODY && (q.client.session == p ==> q.client.home == n)
    ensures var r := Advance(kv, q, alive, ok);
            && !Held(r.kv, Standby(n)) && r.proc.client == q.client && (q.led ==> r.proc.led)
            && (alive && (ok || !q.pc.Looking? || q.pc.rest == [] || q.pc.rest[0] != n) ==> !Committed(r.proc, n))
  {
  }

  lemma StepRecovered(y: System, e: Event, p: Session, n: Node)
    requires AllPlaced(y) && LeadersSound(y) && Recovered(y, p, n) && NoneCommitted(y, n) && Step(y, e).Some?
    requires e != Expiry(p) && !Blind(y, e, n)
    ensures Recovered(Step(y, e).value, p, n) && NoneCommitted(Step(y, e).value, n)
  {
    if e.Act? {
      assert Get(y.kv, Leader(n)) == Some(p);
      AdvanceRecovered(y.kv, y.procs[e.session], e.session in y.live, e.ok, p, n);
    }
  }

  lemma {:induction false} StaysRecovered(y: System, events: seq<Event>, p: Session, n: Node)
    requires AllPlaced(y) && LeadersSound(y) && Recovered(y, p, n) && NoneCommitted(y, n)
    requires Run(y, events).Some? && Sighted(y, events, p, n)
    ensures Recovered(Run(y, events).value, p, n)
    decreases |events|
  {
    hide Step, Blind;
    if events != [] {
      StepKeepsLeaders(y, events[0]);
      StepRecovered(y, events[0], p, n);
      StaysRecovered(Step(y, events[0]).value, events[1..], p, n);
    }
  }

  /** A committed client takes the lock, if it gets to go on. */
  lemma CommittedTakes(y: System, s: Session, p: Session, n: Node) returns (events: seq<Event>)
    requires AllPlaced(y) && LeadersSound(y) && Recovered(y, p, n)
    requires s in y.procs && s in y.live && Committed(y.procs[s], n)
    ensures Run(y, events).Some? && Sighted(y, events, p, n) && !Exclusive(Run(y, events).value.kv, n)
  {
    assert Get(y.kv, Leader(n)) == Some(p) && Held(y.kv, Leader(n));
    if y.procs[s].pc.Acquiring? {
      events := [Act(s, true)];
      TakesNow(y, s, p, n);
      RunOne(y, events[0]);
      assert Sighted(Step(y, events[0]).value, [], p, n);
    } else {
      events := [Act(s, Standby(n) !in y.kv), Act(s, true)];
      var z := Step(y, events[0]).value;
      assert Recovered(z, p, n) && z.procs[s].pc.Acquiring? && Committed(z.procs[s], n);
      StepKeepsLeaders(y, events[0]);
      TakesNow(z, s, p, n);
      RunTwo(y, events[0], events[1]);
      assert events[1..] == [Act(s, true)] && events[1..][1..] == [];
      assert Sighted(Step(z, events[1]).value, [], p, n);
      assert Sighted(z, events[1..], p, n);
    }
  }

  lemma TakesNow(y: System, s: Session, p: Session, n: Node)
    requires AllPlaced(y) && LeadersSound(y) && Recovered(y, p, n)
    requires s in y.procs && s in y.live && Committed(y.procs[s], n) && y.procs[s].pc.Acquiring?
    ensures Step(y, Act(s, true)).Some? && !Exclusive(Step(y, Act(s, true)).value.kv, n)
  {
    assert Get(y.kv, Leader(n)) == Some(p);
  }

  lemma RunOne(y: System, e: Event)
    requires AllPlaced(y) && Step(y, e).Some?
    ensures Run(y, [e]) == Step(y, e)
  {
    hide Step;
    assert [e][1..] == [];
    assert Run(Step(y, e).value, []) == Step(y, e);
  }

  lemma RunTwo(y: System, e: Event, f: Event)
    requires AllPlaced(y) && Step(y, e).Some? && Step(Step(y, e).value, f).Some?
    ensures Run(y, [e, f]) == Step(Step(y, e).value, f)
  {
    hide Step;
    RunOne(Step(y, e).value, f);
    assert [e, f][1..] == [f];
  }

  /** Every run from y in which p lives and live clients can read n's leader lock ends with n's locks
      not both held. */
  ghost predicate StaysExclusive(y: System, p: Session, n: Node)
    requires AllPlaced(y)
  {
    forall events :: Run(y, events).Some? && Sighted(y, events, p, n) ==> Exclusive(Run(y, events).value.kv, n)
  }

  /** When a primary has come back, exclusion holds from then on, under every interleaving, exactly
      if no live client is about to take over on what it read before. */
  lemma StaysExclusiveIff(before: seq<Event>, y: System, p: Session, n: Node)
    requires Run(EMPTY, before) == Some(y) && Recovered(y, p, n)
    ensures StaysExclusive(y, p, n) <==> NoneCommitted(y, n)
  {
    hide Step, Exclusive, Committed, Sighted, Recovered;
    RunKeepsLeaders(EMPTY, before);
    if NoneCommitted(y, n) {
      forall events | Run(y, events).Some? && Sighted(y, events, p, n)
        ensures Exclusive(Run(y, events).value.kv, n)
      {
        StaysRecovered(y, events, p, n);
        RecoveredExclusive(Run(y, events).value, p, n);
      }
    } else {
      var s :| s in y.procs && s in y.live && Committed(y.procs[s], n);
      var events := CommittedTakes(y, s, p, n);
    }
  }

  lemma RecoveredExclusive(y: System, p: Session, n: Node)
    requires Recovered(y, p, n)
    ensures Exclusive(y.kv, n)
  {
  }

  /** A client that gives up a failover lock leaves its key unheld between its two requests, so that
      others see a key that is not theirs; it is gone only after the second. */
  lemma ReleasingLeavesKey(y: System, s: Session, n: Node)
    requires AllPlaced(y) && s in y.procs && y.procs[s].client.session == s != NOBODY && y.procs[s].pc.Releasing?
    requires y.procs[s].pc.rest[0] == n && Get(y.kv, Standby(n)) == Some(s)
    ensures Step(y, Act(s, true)).Some? && AllPlaced(Step(y, Act(s, true)).value)
    ensures var z := Step(y, Act(s, true)).value;
            && Get(z.kv, Standby(n)) == Some(NOBODY)
            && (forall key :: key != Standby(n) ==> Get(z.kv, key) == Get(y.kv, key))
            && Step(z, Act(s, true)).Some? && Standby(n) !in Step(z, Act(s, true)).value.kv
  {
  }

  /** A client whose acquire of its leader lock fails, or whose session has expired by then, is gone for
      good: it never sends another request. */
  lemma CrashedForGood(y: System, s: Session, ok: bool)
    requires AllPlaced(y) && s in y.procs && y.procs[s].pc.Waiting? && (!ok || s !in y.live)
    ensures var z := Step(y, Act(s, ok));
            && z.Some? && AllPlaced(z.value) && z.value.kv == y.kv
            && (forall again :: Step(z.value, Act(s, again)) == z)
            && (forall nodes :: Step(z.value, Begin(s, nodes)).None?)
  {
    var z := Step(y, Act(s, ok)).value;
    assert z.procs[s].pc.Crashed?;
    forall again
      ensures Step(z, Act(s, again)) == Some(z)
    {
      assert z.procs[s := z.procs[s]] == z.procs;
    }
  }

  /** Being able to read the leader lock is needed: a single failed read of it loses exclusion. */
  lemma BlindReadTakes(y: System, s: Session, p: Session, n: Node)
    requires AllPlaced(y) && LeadersSound(y) && Recovered(y, p, n)
    requires s in y.procs && s in y.live && y.procs[s].pc.Looking? && y.procs[s].pc.rest != []
    requires y.procs[s].pc.rest[0] == n != y.procs[s].client.home
    ensures var z := Step(y, Act(s, false)).value;
            Step(y, Act(s, false)).Some? && AllPlaced(z) && Recovered(z, p, n) && !NoneCommitted(z, n)
  {
    var z := Step(y, Act(s, false)).value;
    assert Committed(z.procs[s], n);
  }

  /** States that follow one another step by step are a run. */
  lemma {:induction false} TraceIsRun(states: seq<System>, events: seq<Event>)
    requires |states| == |events| + 1 && forall k :: 0 <= k < |states| ==> AllPlaced(states[k])
    requires forall k :: 0 <= k < |events| ==> Step(states[k], events[k]) == Some(states[k + 1])
    ensures Run(states[0], events) == Some(states[|events|])
    decreases |events|
  {
    hide Step;
    if events != [] {
      assert Step(states[0], events[0]) == Some(states[0 + 1]);
      TraceIsRun(states[1..], events[1..]);
    }
  }

  lemma {:induction false} RunJoin(y: System, first: seq<Event>, second: seq<Event>)
    requires AllPlaced(y) && Run(y, first).Some?
    ensures Run(y, first + second) == Run(Run(y, first).value, second)
    decreases |first|
  {
    hide Step;
    if first == [] {
      assert first + second == second;
    } else {
      assert (first + second)[1..] == first[1..] + second;
      RunJoin(Step(y, first[0]).value, first[1..], second);
    }
  }
}
