/** The same clients with the look at one node as one step, in which any request may fail: exactly
    which failures let both locks of a node be held. */
module FailoverFaults {
  import opened Common
  import opened Failover

  datatype System = System(kv: Kv, live: set<Session>, clients: map<Session, Client>)

  /** `Lead`: a client gets its leader lock and deletes its own failover lock, if `cleared`. */
  datatype Event =
    | Join(client: Client)
    | Lead(session: Session, cleared: bool)
    | Visit(session: Session, look: Look)
    | Expiry(session: Session)

  const EMPTY: System := System(map[], {}, map[])

  /** An expired session gets no lock. */
  function Granted(y: System, s: Session, look: Look): Look { look.(acquire := look.acquire && s in y.live) }

  function Step(y: System, e: Event): Option<System> {
    match e
    case Join(c) =>
      if c.session == NOBODY || c.session in y.clients then None
      else Some(y.(live := y.live + {c.session}, clients := y.clients[c.session := c]))
    case Lead(s, cleared) =>
      if s in y.live && s in y.clients && CanAcquire(y.kv, Leader(y.clients[s].home), s)
      then Some(y.(kv := LeadHome(y.kv, y.clients[s], cleared))) else None
    case Visit(s, look) =>
      if s in y.clients && y.clients[s].failover
      then Some(y.(kv := VisitOther(y.kv, y.clients[s], Granted(y, s, look)).kv)) else None
    case Expiry(s) => if s in y.live then Some(y.(kv := Expire(y.kv, s), live := y.live - {s})) else None
  }

  function Run(y: System, events: seq<Event>): Option<System>
    decreases |events|
  {
    if events == [] then Some(y)
    else
      var next := Step(y, events[0]);
      if next.None? then None else Run(next.value, events[1..])
  }

  // ----- Rounds are runs of such steps -----

  function Visits(s: Session, looks: seq<Look>): seq<Event>
    decreases |looks|
  {
    if looks == [] then [] else [Visit(s, looks[0])] + Visits(s, looks[1..])
  }

  lemma {:induction false} ScanRuns(y: System, s: Session, looks: seq<Look>)
    requires s in y.clients && y.clients[s].failover && s in y.live
    ensures Run(y, Visits(s, looks)) == Some(y.(kv := VisitNodes(y.kv, y.clients[s], looks).kv))
    decreases |looks|
  {
    hide VisitOther;
    if looks != [] {
      assert Granted(y, s, looks[0]) == looks[0];
      assert Visits(s, looks)[1..] == Visits(s, looks[1..]);
      ScanRuns(Step(y, Visit(s, looks[0])).value, s, looks[1..]);
    }
  }

  /** An uninterrupted round, whatever fails in it, is a Lead and a Visit for every look. */
  lemma RoundRuns(y: System, s: Session, cleared: bool, looks: seq<Look>)
    requires s in y.clients && s in y.live && y.clients[s].session == s
    requires Round(y.kv, y.clients[s], cleared, looks).Some?
    ensures Run(y, [Lead(s, cleared)] + if y.clients[s].failover then Visits(s, looks) else []) ==
            Some(y.(kv := Round(y.kv, y.clients[s], cleared, looks).value.kv))
  {
    hide VisitNodes, LeadHome;
    var rest := if y.clients[s].failover then Visits(s, looks) else [];
    var z := Step(y, Lead(s, cleared)).value;
    assert ([Lead(s, cleared)] + rest)[1..] == rest;
    if y.clients[s].failover {
      ScanRuns(z, s, looks);
    }
  }

  // ----- Exclusion -----

  /** A leader lock is held by a live client of that node. */
  ghost predicate Entitled(y: System) {
    && (forall s :: s in y.live ==> s in y.clients)
    && (forall s :: s in y.clients ==> s != NOBODY && y.clients[s].session == s)
    && (forall n :: Leader(n) in y.kv ==> y.kv[Leader(n)] in y.live && y.clients[y.kv[Leader(n)]].home == n)
  }

  lemma VisitLeaders(kv: Kv, c: Client, look: Look, n: Node)
    ensures Get(VisitOther(kv, c, look).kv, Leader(n)) == Get(kv, Leader(n))
  {
  }

  lemma StepEntitled(y: System, e: Event)
    requires Entitled(y) && Step(y, e).Some?
    ensures Entitled(Step(y, e).value)
  {
    if e.Visit? {
      hide VisitOther;
      var z := Step(y, e).value;
      forall n | Leader(n) in z.kv
        ensures z.kv[Leader(n)] in z.live && z.clients[z.kv[Leader(n)]].home == n
      {
        VisitLeaders(y.kv, y.clients[e.session], Granted(y, e.session, e.look), n);
      }
    }
  }

  /** The two ways to lose exclusion of n: its primary comes back while someone holds the failover
      lock, and fails to delete it; or a live client fails to read the leader lock that is held,
      does not see a failover key either, and gets the failover lock. */
  predicate Breach(y: System, e: Event, n: Node) {
    match e
    case Lead(s, cleared) => s in y.clients && y.clients[s].home == n && !cleared && Held(y.kv, Standby(n))
    case Visit(s, look) =>
      && s in y.clients && s in y.live && look.node == n != y.clients[s].home
      && Held(y.kv, Leader(n)) && !look.leader && (Standby(n) !in y.kv || !look.standby) && look.acquire
    case _ => false
  }

  lemma VisitExclusive(y: System, s: Session, look: Look, n: Node)
    requires Entitled(y) && Exclusive(y.kv, n) && Step(y, Visit(s, look)).Some?
    ensures Exclusive(Step(y, Visit(s, look)).value.kv, n) <==> !Breach(y, Visit(s, look), n)
  {
    var c := y.clients[s];
    assert c.session == s != NOBODY;
    if look.node == n != c.home && Leader(n) in y.kv {
      assert y.kv[Leader(n)] in y.live && y.kv[Leader(n)] != s;
    }
  }

  lemma StepExclusiveIff(y: System, e: Event, n: Node)
    requires Entitled(y) && Exclusive(y.kv, n) && Step(y, e).Some?
    ensures Exclusive(Step(y, e).value.kv, n) <==> !Breach(y, e, n)
  {
    match e
    case Visit(s, look) => VisitExclusive(y, s, look, n);
    case _ =>
  }

  /** n's locks are not both held at any point of the run. */
  predicate AlwaysExclusive(y: System, events: seq<Event>, n: Node)
    decreases |events|
  {
    Exclusive(y.kv, n) &&
    (events != [] && Step(y, events[0]).Some? ==> AlwaysExclusive(Step(y, events[0]).value, events[1..], n))
  }

  predicate NoBreach(y: System, events: seq<Event>, n: Node)
    decreases |events|
  {
    events != [] && Step(y, events[0]).Some? ==>
      !Breach(y, events[0], n) && NoBreach(Step(y, events[0]).value, events[1..], n)
  }

  lemma {:induction false} RunExclusiveIff(y: System, events: seq<Event>, n: Node)
    requires Entitled(y) && Exclusive(y.kv, n)
    ensures AlwaysExclusive(y, events, n) <==> NoBreach(y, events, n)
    decreases |events|
  {
    hide Step, Exclusive, Breach, Entitled;
    if events != [] && Step(y, events[0]).Some? {
      StepEntitled(y, events[0]);
      StepExclusiveIff(y, events[0], n);
      var z := Step(y, events[0]).value;
      if Exclusive(z.kv, n) {
        RunExclusiveIff(z, events[1..], n);
      }
    }
  }

  /** With requests that may fail, the leader and failover locks of a node are never both held in a
      run exactly if no step of it is a breach. */
  lemma ExclusionIff(events: seq<Event>, n: Node)
    ensures AlwaysExclusive(EMPTY, events, n) <==> NoBreach(EMPTY, events, n)
  {
    RunExclusiveIff(EMPTY, events, n);
  }

  const F: Client := Client(1, "f", true)

  /** F runs n while its primary is away; the primary comes back and fails to delete F's lock. */
  lemma UnclearedBreaks(n: Node) returns (events: seq<Event>, y: System)
    requires n != "f"
    ensures Run(EMPTY, events) == Some(y) && Held(y.kv, Leader(n)) && Held(y.kv, Standby(n))
    ensures !NoBreach(EMPTY, events, n)
  {
    var p := Client(2, n, false);
    var y1 := Step(EMPTY, Join(F)).value;
    var y2 := Step(y1, Join(p)).value;
    var y3 := Step(y2, Visit(1, Sure(n))).value;
    y := Step(y3, Lead(2, false)).value;
    events := [Join(F), Join(p), Visit(1, Sure(n)), Lead(2, false)];
    FourSteps(y1, y2, y3, y, events);
    ExclusionIff(events, n);
    if AlwaysExclusive(EMPTY, events, n) {
      AlwaysEnds(EMPTY, events, n);
    }
  }

  /** The primary of n leads it, and F fails to read that. */
  lemma BlindBreaks(n: Node) returns (events: seq<Event>, y: System)
    requires n != "f"
    ensures Run(EMPTY, events) == Some(y) && Held(y.kv, Leader(n)) && Held(y.kv, Standby(n))
    ensures !NoBreach(EMPTY, events, n)
  {
    var p := Client(2, n, false);
    var y1 := Step(EMPTY, Join(F)).value;
    var y2 := Step(y1, Join(p)).value;
    var y3 := Step(y2, Lead(2, true)).value;
    y := Step(y3, Visit(1, Sure(n).(leader := false))).value;
    events := [Join(F), Join(p), Lead(2, true), Visit(1, Sure(n).(leader := false))];
    FourSteps(y1, y2, y3, y, events);
    ExclusionIff(events, n);
    if AlwaysExclusive(EMPTY, events, n) {
      AlwaysEnds(EMPTY, events, n);
    }
  }

  lemma FourSteps(y1: System, y2: System, y3: System, y4: System, events: seq<Event>)
    requires |events| == 4 && Step(EMPTY, events[0]) == Some(y1) && Step(y1, events[1]) == Some(y2)
    requires Step(y2, events[2]) == Some(y3) && Step(y3, events[3]) == Some(y4)
    ensures Run(EMPTY, events) == Some(y4)
  {
    hide Step;
    assert Run(y4, events[4..]) == Some(y4);
    assert Run(y3, events[3..]) == Some(y4) by { assert events[3..][1..] == events[4..]; }
    assert Run(y2, events[2..]) == Some(y4) by { assert events[2..][1..] == events[3..]; }
    assert Run(y1, events[1..]) == Some(y4) by { assert events[1..][1..] == events[2..]; }
  }

  lemma {:induction false} AlwaysEnds(y: System, events: seq<Event>, n: Node)
    requires Run(y, events).Some? && AlwaysExclusive(y, events, n)
    ensures Exclusive(Run(y, events).value.kv, n)
    decreases |events|
  {
    hide Step, Exclusive;
    if events != [] {
      AlwaysEnds(Step(y, events[0]).value, events[1..], n);
    }
  }
}
