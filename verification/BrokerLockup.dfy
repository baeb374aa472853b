/** How a broker comes to lock up, with the verdicts of its limiters: runs that lead into a ring of
    blocked connectors, for every configuration whose sources list a target from which rules that can
    decide lead into a cycle. With limiters that tick these are the only ones that can lock up. */
module BrokerLockup {
  import opened Common
  import opened Sums
  import opened Broker
  import opened BrokerInvariant
  import opened BrokerDoom
  import opened BrokerCycles
  import opened BrokerDrain
  import opened BrokerLimits
  import opened BrokerFinish
  import opened BrokerMoves
  import L = Limiter

  // ----- A path of fallback rules that closes on itself -----

  /** The targets of the path in order; from the last one a rule leads back to number k. */
  datatype Lasso = Lasso(q: seq<Name>, k: nat)

  function Succ(l: Lasso, x: nat): nat { if x + 1 < |l.q| then x + 1 else l.k }

  ghost predicate IsLasso(cfg: Config, l: Lasso) {
    && l.k < |l.q|
    && (forall x, y :: 0 <= x < y < |l.q| ==> l.q[x] != l.q[y])
    && (forall x :: 0 <= x < |l.q| ==> l.q[x] < |cfg.targets| && Edge(cfg, l.q[x], l.q[Succ(l, x)]))
  }

  /** The part that closes on itself. */
  function RingOf(l: Lasso): seq<Name>
    requires l.k < |l.q|
  {
    l.q[l.k..]
  }

  lemma OnRing(cfg: Config, l: Lasso, x: nat)
    requires IsLasso(cfg, l) && x < |l.q|
    ensures l.q[x] in RingOf(l) <==> x >= l.k
  {
    if x >= l.k {
      assert RingOf(l)[x - l.k] == l.q[x];
    } else {
      forall y | 0 <= y < |RingOf(l)|
        ensures RingOf(l)[y] != l.q[x]
      {
        assert RingOf(l)[y] == l.q[l.k + y];
      }
    }
  }

  /** A connector of the ring is idle or waits for the next one. */
  predicate Spot(connectors: seq<ConnectorPc>, l: Lasso, x: nat)
    requires l.k < |l.q| && x < |l.q| && l.q[x] < |connectors|
  {
    var pc := connectors[l.q[x]];
    pc.CIdle? || (pc.CBlocked? && pc.to == l.q[Succ(l, x)])
  }

  /** No message is on its way but those parked around the ring. */
  ghost predicate Calm(connectors: seq<ConnectorPc>, l: Lasso) {
    && l.k < |l.q|
    && (forall c :: 0 <= c < |connectors| ==> connectors[c].CIdle? || c in RingOf(l))
    && (forall x :: l.k <= x < |l.q| ==> l.q[x] < |connectors| && Spot(connectors, l, x))
  }

  ghost function HoleOf(ring: seq<Name>): (nat, ConnectorPc) -> nat {
    (c: nat, pc: ConnectorPc) => One(pc.CIdle? && c in ring)
  }

  ghost function Holes(connectors: seq<ConnectorPc>, l: Lasso): nat
    requires l.k < |l.q|
  {
    Total(connectors, HoleOf(RingOf(l)))
  }

  lemma Park(cfg: Config, connectors: seq<ConnectorPc>, l: Lasso, x: nat, pc: ConnectorPc)
    requires IsLasso(cfg, l) && Calm(connectors, l) && l.k <= x < |l.q| && connectors[l.q[x]].CIdle?
    requires pc.CBlocked? && pc.to == l.q[Succ(l, x)]
    ensures Calm(connectors[l.q[x] := pc], l) && Holes(connectors[l.q[x] := pc], l) + 1 == Holes(connectors, l)
  {
    TotalUpdate(connectors, l.q[x], pc, HoleOf(RingOf(l)));
    OnRing(cfg, l, x);
    hide Total;
    CalmUpdate(cfg, connectors, l, x, pc);
  }

  lemma CalmUpdate(cfg: Config, connectors: seq<ConnectorPc>, l: Lasso, x: nat, pc: ConnectorPc)
    requires IsLasso(cfg, l) && Calm(connectors, l) && l.k <= x < |l.q|
    requires pc.CIdle? || (pc.CBlocked? && pc.to == l.q[Succ(l, x)])
    ensures Calm(connectors[l.q[x] := pc], l)
  {
    OnRing(cfg, l, x);
    var after := connectors[l.q[x] := pc];
    forall y | l.k <= y < |l.q|
      ensures l.q[y] < |after| && Spot(after, l, y)
    {
      assert Spot(connectors, l, y);
    }
  }

  lemma Unpark(cfg: Config, connectors: seq<ConnectorPc>, l: Lasso, x: nat)
    requires IsLasso(cfg, l) && Calm(connectors, l) && l.k <= x < |l.q| && !connectors[l.q[x]].CIdle?
    ensures Calm(connectors[l.q[x] := CIdle], l) && Holes(connectors[l.q[x] := CIdle], l) == Holes(connectors, l) + 1
  {
    TotalUpdate(connectors, l.q[x], CIdle, HoleOf(RingOf(l)));
    OnRing(cfg, l, x);
    hide Total;
    CalmUpdate(cfg, connectors, l, x, CIdle);
  }

  lemma SomeHole(connectors: seq<ConnectorPc>, l: Lasso) returns (y: nat)
    requires l.k < |l.q| && Holes(connectors, l) > 0
    ensures l.k <= y < |l.q| && l.q[y] < |connectors| && connectors[l.q[y]].CIdle?
  {
    var c := TotalWitness(connectors, HoleOf(RingOf(l)));
    assert connectors[c].CIdle? && c in RingOf(l);
    var z :| 0 <= z < |RingOf(l)| && RingOf(l)[z] == c;
    y := l.k + z;
  }

  // ----- Which targets of the path turn messages away -----

  ghost predicate LoadedAt(u: Setup, s: System, l: Lasso, x: nat)
    requires Fit(u, s) && l.k < |l.q| && x < |l.q|
  {
    Loaded(u, s, l.q[x], l.q[Succ(l, x)])
  }

  ghost predicate RingLoaded(u: Setup, s: System, l: Lasso)
    requires Fit(u, s) && l.k < |l.q|
  {
    forall x :: l.k <= x < |l.q| ==> LoadedAt(u, s, l, x)
  }

  /** How many of the first n do not. */
  ghost function Unloaded(u: Setup, s: System, l: Lasso, n: nat): nat
    requires Fit(u, s) && l.k < |l.q| && n <= |l.q|
  {
    if n == 0 then 0 else Unloaded(u, s, l, n - 1) + One(!LoadedAt(u, s, l, n - 1))
  }

  lemma {:induction false} UnloadedFalls(u: Setup, s: System, t: System, l: Lasso, n: nat, y: nat)
    requires Fit(u, s) && Fit(u, t) && l.k < |l.q| && n <= |l.q|
    requires forall x :: 0 <= x < |l.q| && LoadedAt(u, s, l, x) ==> LoadedAt(u, t, l, x)
    ensures Unloaded(u, t, l, n) <= Unloaded(u, s, l, n)
    ensures y < n && !LoadedAt(u, s, l, y) && LoadedAt(u, t, l, y) ==> Unloaded(u, t, l, n) < Unloaded(u, s, l, n)
  {
    hide LoadedAt;
    if n > 0 {
      UnloadedFalls(u, s, t, l, n - 1, y);
    }
  }

  /** Limiters of target q[y] alone have changed. */
  lemma LoadedElsewhere(u: Setup, s: System, t: System, l: Lasso, y: nat)
    requires Fit(u, s) && Fit(u, t) && IsLasso(Live(u), l) && y < |l.q| && OthersSame(s, t, l.q[y])
    ensures forall x :: 0 <= x < |l.q| && x != y ==> (LoadedAt(u, t, l, x) <==> LoadedAt(u, s, l, x))
  {
    hide L.Over;
    forall x | 0 <= x < |l.q| && x != y
      ensures LoadedAt(u, t, l, x) <==> LoadedAt(u, s, l, x)
    {
      assert l.q[x] != l.q[y];
      RowLoads(u, s, t, l.q[x], l.q[Succ(l, x)]);
    }
  }

  lemma RowLoads(u: Setup, s: System, t: System, c: Name, b: Name)
    requires Fit(u, s) && Fit(u, t) && (c < |u.limits| ==> t.limiters[c] == s.limiters[c])
    ensures Loaded(u, t, c, b) <==> Loaded(u, s, c, b)
  {
    hide L.Over;
    if Loaded(u, s, c, b) {
      var r :| 0 <= r < |u.limits[c]| && u.broker.targets[c][r] == Fallback(b) && OverAt(u, s, c, r);
      assert OverAt(u, t, c, r);
    }
    if Loaded(u, t, c, b) {
      var r :| 0 <= r < |u.limits[c]| && u.broker.targets[c][r] == Fallback(b) && OverAt(u, t, c, r);
      assert OverAt(u, s, c, r);
    }
  }

  /** Limiters have no residue, nothing is on its way but what is parked, and messages are parked only
      once the whole ring turns messages away. */
  ghost predicate Poised(u: Setup, s: System, l: Lasso) {
    && Fit(u, s) && AllTick(u) && IsLasso(Live(u), l) && NoResidue(u, s) && Calm(s.broker.connectors, l)
    && (NoneParked(s.broker.connectors) || RingLoaded(u, s, l))
  }

  /** How far y is ahead of x, on the way along the path and around the ring. */
  function Distance(l: Lasso, x: nat, y: nat): nat
    requires l.k < |l.q| && x < |l.q| && y < |l.q|
  {
    if x <= y then y - x else |l.q| - x + (if y >= l.k then y - l.k else 0)
  }

  /** A parked message moves one place. */
  lemma Advance(u: Setup, s: System, l: Lasso, x: nat) returns (t: System)
    requires Poised(u, s, l) && RingLoaded(u, s, l) && l.k <= x < |l.q|
    requires !s.broker.connectors[l.q[x]].CIdle? && s.broker.connectors[l.q[Succ(l, x)]].CIdle?
    ensures Poised(u, t, l) && RingLoaded(u, t, l) && Leads(u, s, t) && SameRest(s, t)
    ensures Holes(t.broker.connectors, l) == Holes(s.broker.connectors, l)
    ensures t.broker.connectors[l.q[x]].CIdle?
    ensures Unloaded(u, t, l, |l.q|) <= Unloaded(u, s, l, |l.q|)
  {
    hide Leads, Holes, Loaded, NoResidue;
    var y := Succ(l, x);
    assert Spot(s.broker.connectors, l, x) && LoadedAt(u, s, l, y);
    var moved := MoveOn(u, s, l.q[x]);
    SameNoResidue(u, s, moved);
    RowLoads(u, s, moved, l.q[y], l.q[Succ(l, y)]);
    t := FallBack(u, moved, l.q[y], l.q[Succ(l, y)]);
    LeadsJoin(u, s, moved, t);
    KeepsLoaded(u, s, t, l, y);
    var left := s.broker.connectors[l.q[x] := CIdle];
    assert t.broker.connectors == left[l.q[y] := t.broker.connectors[l.q[y]]];
    Unpark(Live(u), s.broker.connectors, l, x);
    Park(Live(u), left, l, y, t.broker.connectors[l.q[y]]);
  }

  lemma KeepsLoaded(u: Setup, s: System, t: System, l: Lasso, y: nat)
    requires Fit(u, s) && Fit(u, t) && IsLasso(Live(u), l) && y < |l.q| && OthersSame(s, t, l.q[y])
    requires LoadedAt(u, t, l, y)
    ensures RingLoaded(u, s, l) ==> RingLoaded(u, t, l)
    ensures Unloaded(u, t, l, |l.q|) <= Unloaded(u, s, l, |l.q|)
    ensures !LoadedAt(u, s, l, y) ==> Unloaded(u, t, l, |l.q|) < Unloaded(u, s, l, |l.q|)
  {
    hide LoadedAt;
    LoadedElsewhere(u, s, t, l, y);
    UnloadedFalls(u, s, t, l, |l.q|, y);
  }

  lemma PathStarts(u: Setup, s: System, l: Lasso)
    requires Poised(u, s, l)
    ensures Fit(u, s) && l.k < |l.q| && forall x :: 0 <= x < |l.q| ==> l.q[x] < |s.broker.connectors|
  {
  }

  /** With a hole somewhere, the parked messages can move around until x is free. */
  lemma {:induction false} Free(u: Setup, s: System, l: Lasso, x: nat, y: nat) returns (t: System)
    requires Poised(u, s, l) && RingLoaded(u, s, l)
    requires l.k <= x < |l.q| && l.k <= y < |l.q| && s.broker.connectors[l.q[y]].CIdle?
    ensures Poised(u, t, l) && RingLoaded(u, t, l) && Leads(u, s, t) && SameRest(s, t)
    ensures Holes(t.broker.connectors, l) == Holes(s.broker.connectors, l)
    ensures t.broker.connectors[l.q[x]].CIdle?
    ensures Unloaded(u, t, l, |l.q|) <= Unloaded(u, s, l, |l.q|)
    decreases Distance(l, x, y)
  {
    hide Leads, Holes, RingLoaded, Unloaded, Poised, Fit;
    PathStarts(u, s, l);
    LeadsHere(u, s);
    t := s;
    if !s.broker.connectors[l.q[x]].CIdle? {
      t := Free(u, s, l, Succ(l, x), y);
      PathStarts(u, t, l);
      if !t.broker.connectors[l.q[x]].CIdle? {
        var v := Advance(u, t, l, x);
        LeadsJoin(u, s, t, v);
        t := v;
      }
    }
  }

  // ----- One more message for the path -----

  /** Where a message that has come to x will stop: at a target that still delivers, or where it is
      parked. */
  ghost predicate Stop(u: Setup, s: System, l: Lasso, w: nat)
    requires Fit(u, s) && l.k < |l.q| && w < |l.q|
  {
    !LoadedAt(u, s, l, w) || (w >= l.k && RingLoaded(u, s, l))
  }

  /** The way from x to w is free: nothing is parked, or the message is to be parked at the first place
      of the ring that it comes to. */
  ghost predicate FreeWay(u: Setup, s: System, base: seq<ConnectorPc>, l: Lasso, x: nat, w: nat)
    requires Fit(u, s) && l.k < |l.q|
  {
    && x < |l.q| && w < |l.q| && (x <= w || (l.k <= x && l.k <= w)) && Stop(u, s, l, w) && Calm(base, l)
    && |base| == |s.broker.connectors|
    && (NoneParked(base) || (RingLoaded(u, s, l) && w == (if x < l.k then l.k else x) && base[l.q[w]].CIdle?))
  }

  lemma IdleAhead(u: Setup, s: System, base: seq<ConnectorPc>, l: Lasso, x: nat, w: nat)
    requires Fit(u, s) && IsLasso(Live(u), l) && FreeWay(u, s, base, l, x, w)
    ensures base[l.q[x]].CIdle?
    ensures x != w ==> Succ(l, x) != x && base[l.q[Succ(l, x)]].CIdle?
  {
    OnRing(Live(u), l, x);
    OnRing(Live(u), l, Succ(l, x));
  }

  /** A heavy message at x falls back along the path until it is delivered, or parked. */
  lemma {:induction false} Carry(u: Setup, base: seq<ConnectorPc>, s: System, l: Lasso, x: nat, w: nat)
      returns (t: System)
    requires Fit(u, s) && AllTick(u) && IsLasso(Live(u), l) && NoResidue(u, s) && FreeWay(u, s, base, l, x, w)
    requires s.broker.connectors == base[l.q[x] := s.broker.connectors[l.q[x]]] && s.broker.connectors[l.q[x]].CParsing?
    requires Heavy(u, |s.broker.connectors[l.q[x]].parcel.msg.sourceMessage|)
    ensures Fit(u, t) && Leads(u, s, t) && SameRest(s, t) && NoResidue(u, t) && Calm(t.broker.connectors, l)
    ensures RingLoaded(u, s, l) ==> RingLoaded(u, t, l)
    ensures Gap(u, t, l) < Unloaded(u, s, l, |l.q|) + Holes(base, l)
    ensures t.broker.connectors == base || RingLoaded(u, t, l)
    decreases Distance(l, x, w)
  {
    hide Leads, Holes, Loaded, NoResidue, Calm, Heavy, RingLoaded;
    var y := Succ(l, x);
    IdleAhead(u, s, base, l, x, w);
    if !LoadedAt(u, s, l, x) {
      t := DeliverHeavy(u, s, l.q[x]);
      assert t.broker.connectors == base;
      KeepsLoaded(u, s, t, l, x);
    } else {
      t := FallBack(u, s, l.q[x], l.q[y]);
      KeepsLoaded(u, s, t, l, x);
      if x == w {
        assert t.broker.connectors == base[l.q[x] := t.broker.connectors[l.q[x]]];
        Park(Live(u), base, l, x, t.broker.connectors[l.q[x]]);
      } else {
        var moved := MoveOn(u, t, l.q[x]);
        LeadsJoin(u, s, t, moved);
        assert moved.broker.connectors == base[l.q[y] := moved.broker.connectors[l.q[y]]];
        StillFree(u, s, t, moved, base, l, x, w);
        var v := Carry(u, base, moved, l, y, w);
        LeadsJoin(u, s, moved, v);
        t := v;
      }
    }
  }

  /** How much is left to do: targets that do not turn messages away yet, and places in the ring. */
  ghost function Gap(u: Setup, s: System, l: Lasso): nat
    requires Fit(u, s) && l.k < |l.q|
  {
    Unloaded(u, s, l, |l.q|) + Holes(s.broker.connectors, l)
  }

  /** Having moved on one place, the message still has a free way. */
  lemma StillFree(u: Setup, s: System, t: System, moved: System, base: seq<ConnectorPc>, l: Lasso, x: nat, w: nat)
    requires Fit(u, s) && Fit(u, t) && Fit(u, moved) && IsLasso(Live(u), l) && FreeWay(u, s, base, l, x, w) && x != w
    requires LoadedAt(u, s, l, x) && LoadedAt(u, t, l, x) && OthersSame(s, t, l.q[x]) && moved.limiters == t.limiters
    requires NoResidue(u, t)
    ensures FreeWay(u, moved, base, l, Succ(l, x), w) && NoResidue(u, moved)
    ensures RingLoaded(u, moved, l) <==> RingLoaded(u, s, l)
    ensures Unloaded(u, moved, l, |l.q|) <= Unloaded(u, s, l, |l.q|)
    ensures Distance(l, Succ(l, x), w) < Distance(l, x, w)
  {
    hide Loaded, Calm, NoResidue;
    SameNoResidue(u, t, moved);
    forall z | 0 <= z < |l.q|
      ensures LoadedAt(u, moved, l, z) <==> LoadedAt(u, s, l, z)
    {
      RowLoads(u, t, moved, l.q[z], l.q[Succ(l, z)]);
      LoadedElsewhere(u, s, t, l, x);
    }
    UnloadedFalls(u, s, moved, l, |l.q|, 0);
  }

  /** Worker 0 is sending out a heavy message of source i; entry e of its list is where the path starts. */
  ghost predicate Sending(u: Setup, s: System, i: nat, e: nat, l: Lasso) {
    && Poised(u, s, l) && |s.broker.workers| > 0 && s.broker.workers[0].WFanning?
    && i < |u.broker.sources| && e < |u.broker.sources[i]| && u.broker.sources[i][e] == l.q[0]
    && s.broker.workers[0].msg.targets == u.broker.sources[i] && Heavy(u, |s.broker.workers[0].msg.sourceMessage|)
  }

  /** Worker 0 has sent one more entry. */
  predicate SentOne(s: System, t: System)
    requires |s.broker.workers| > 0 && s.broker.workers[0].WFanning?
  {
    && t.broker.sources == s.broker.sources && t.broker.main == s.broker.main
    && t.broker.workers == s.broker.workers[0 := s.broker.workers[0].(next := s.broker.workers[0].next + 1)]
  }

  /** An entry for a target of the path: one target more turns messages away, or one place less is left
      in the ring. */
  lemma SendToPath(u: Setup, s: System, i: nat, e: nat, l: Lasso, x: nat) returns (t: System)
    requires Sending(u, s, i, e, l) && Holes(s.broker.connectors, l) > 0 && x < |l.q|
    requires s.broker.workers[0].next < |u.broker.sources[i]| && u.broker.sources[i][s.broker.workers[0].next] == l.q[x]
    ensures Sending(u, t, i, e, l) && Leads(u, s, t) && SentOne(s, t) && Gap(u, t, l) < Gap(u, s, l)
  {
    hide Leads, Holes, Loaded, NoResidue, Calm, Heavy, IsLasso, Unloaded;
    var m, w := MakeWay(u, s, l, x);
    PathStarts(u, m, l);
    IdleAhead(u, m, m.broker.connectors, l, x, w);
    var sent := FanTo(u, m, 0);
    LeadsJoin(u, s, m, sent);
    SameNoResidue(u, m, sent);
    SameFreeWay(u, m, sent, l, x, w);
    t := Carry(u, m.broker.connectors, sent, l, x, w);
    LeadsJoin(u, s, sent, t);
  }

  /** Parked messages make way for one that comes to x. */
  lemma MakeWay(u: Setup, s: System, l: Lasso, x: nat) returns (t: System, w: nat)
    requires Poised(u, s, l) && Holes(s.broker.connectors, l) > 0 && x < |l.q|
    ensures Poised(u, t, l) && Leads(u, s, t) && SameRest(s, t) && FreeWay(u, t, t.broker.connectors, l, x, w)
    ensures Gap(u, t, l) <= Gap(u, s, l)
  {
    hide Leads, Holes, Loaded, NoResidue, Unloaded;
    if RingLoaded(u, s, l) {
      w := if x < l.k then l.k else x;
      var y := SomeHole(s.broker.connectors, l);
      t := Free(u, s, l, w, y);
    } else {
      t := s;
      LeadsHere(u, s);
      w :| l.k <= w < |l.q| && !LoadedAt(u, s, l, w);
    }
  }

  lemma SameFreeWay(u: Setup, m: System, sent: System, l: Lasso, x: nat, w: nat)
    requires Fit(u, m) && Fit(u, sent) && IsLasso(Live(u), l) && sent.limiters == m.limiters
    requires FreeWay(u, m, m.broker.connectors, l, x, w) && |sent.broker.connectors| == |m.broker.connectors|
    ensures FreeWay(u, sent, m.broker.connectors, l, x, w)
    ensures RingLoaded(u, sent, l) <==> RingLoaded(u, m, l)
    ensures Unloaded(u, sent, l, |l.q|) <= Unloaded(u, m, l, |l.q|)
  {
    hide Loaded, Calm;
    forall z | 0 <= z < |l.q|
      ensures LoadedAt(u, sent, l, z) <==> LoadedAt(u, m, l, z)
    {
      RowLoads(u, m, sent, l.q[z], l.q[Succ(l, z)]);
    }
    UnloadedFalls(u, m, sent, l, |l.q|, 0);
  }

  /** Any other entry is delivered, or dropped if its target does not exist. */
  lemma SendAway(u: Setup, s: System, i: nat, e: nat, l: Lasso, c: Name) returns (t: System)
    requires Sending(u, s, i, e, l) && forall x :: 0 <= x < |l.q| ==> l.q[x] != c
    requires s.broker.workers[0].next < |u.broker.sources[i]| && u.broker.sources[i][s.broker.workers[0].next] == c
    ensures Sending(u, t, i, e, l) && Leads(u, s, t) && SentOne(s, t) && Gap(u, t, l) <= Gap(u, s, l)
    ensures t.broker.connectors == s.broker.connectors
  {
    hide Leads, Holes, Loaded, NoResidue, Heavy, Unloaded;
    if c < |s.broker.connectors| {
      var sent := FanTo(u, s, 0);
      SameNoResidue(u, s, sent);
      t := DeliverHeavy(u, sent, c);
      LeadsJoin(u, s, sent, t);
      assert t.broker.connectors == s.broker.connectors;
    } else {
      LeadsHere(u, s);
      t := Then(u, s, s, Worker(0, FanOut));
      SameNoResidue(u, s, t);
    }
    LoadedOutside(u, s, t, l, c);
  }

  lemma LoadedOutside(u: Setup, s: System, t: System, l: Lasso, c: Name)
    requires Fit(u, s) && Fit(u, t) && IsLasso(Live(u), l) && OthersSame(s, t, c)
    requires forall x :: 0 <= x < |l.q| ==> l.q[x] != c
    ensures RingLoaded(u, t, l) <==> RingLoaded(u, s, l)
    ensures Unloaded(u, t, l, |l.q|) <= Unloaded(u, s, l, |l.q|)
  {
    hide Loaded;
    forall z | 0 <= z < |l.q|
      ensures LoadedAt(u, t, l, z) <==> LoadedAt(u, s, l, z)
    {
      RowLoads(u, s, t, l.q[z], l.q[Succ(l, z)]);
    }
    UnloadedFalls(u, s, t, l, |l.q|, 0);
  }

  lemma SendEntry(u: Setup, s: System, i: nat, e: nat, l: Lasso) returns (t: System)
    requires Sending(u, s, i, e, l) && Holes(s.broker.connectors, l) > 0
    requires s.broker.workers[0].next < |u.broker.sources[i]|
    ensures Sending(u, t, i, e, l) && Leads(u, s, t) && SentOne(s, t)
    ensures Gap(u, t, l) + One(s.broker.workers[0].next == e) <= Gap(u, s, l)
  {
    hide Leads, Poised, Heavy, Gap, Holes, Fit;
    PathStarts(u, s, l);
    var c := u.broker.sources[i][s.broker.workers[0].next];
    if x :| 0 <= x < |l.q| && l.q[x] == c {
      t := SendToPath(u, s, i, e, l, x);
    } else {
      t := SendAway(u, s, i, e, l, c);
    }
  }

  /** Worker 0 sends what is left of its message, or stops once the ring is full. */
  lemma {:induction false} SendRest(u: Setup, s: System, i: nat, e: nat, l: Lasso) returns (t: System)
    requires Sending(u, s, i, e, l) && s.broker.workers[0].next <= |u.broker.sources[i]|
    ensures Poised(u, t, l) && Leads(u, s, t) && t.broker.sources == s.broker.sources && |t.broker.workers| > 0
    ensures Holes(t.broker.connectors, l) == 0 ||
            (t.broker.workers[0].WIdle? && Gap(u, t, l) + One(s.broker.workers[0].next <= e) <= Gap(u, s, l))
    decreases |u.broker.sources[i]| - s.broker.workers[0].next
  {
    hide Leads, Heavy, Holes, Loaded, NoResidue, Calm, IsLasso, Unloaded;
    LeadsHere(u, s);
    PathStarts(u, s, l);
    if Holes(s.broker.connectors, l) == 0 {
      t := s;
    } else if s.broker.workers[0].next == |u.broker.sources[i]| {
      t := Then(u, s, s, Worker(0, FanOut));
      SameLimiters(u, s, t, l);
    } else {
      var v := SendEntry(u, s, i, e, l);
      t := SendRest(u, v, i, e, l);
      LeadsJoin(u, s, v, t);
    }
  }

  lemma SameLimiters(u: Setup, s: System, t: System, l: Lasso)
    requires Poised(u, s, l) && Fit(u, t) && t.limiters == s.limiters && t.broker.connectors == s.broker.connectors
    ensures Poised(u, t, l) && Gap(u, t, l) <= Gap(u, s, l)
  {
    hide Loaded, NoResidue, Calm, Unloaded;
    SameNoResidue(u, s, t);
    forall z | 0 <= z < |l.q|
      ensures LoadedAt(u, t, l, z) <==> LoadedAt(u, s, l, z)
    {
      RowLoads(u, s, t, l.q[z], l.q[Succ(l, z)]);
    }
    UnloadedFalls(u, s, t, l, |l.q|, 0);
  }

  /** Message after message, until the ring is full. */
  lemma {:induction false} Fill(u: Setup, s: System, i: nat, e: nat, l: Lasso, payload: string) returns (t: System)
    requires Poised(u, s, l) && |s.broker.workers| > 0 && s.broker.workers[0].WIdle?
    requires i < |s.broker.sources| && s.broker.sources[i].SIdle?
    requires e < |u.broker.sources[i]| && u.broker.sources[i][e] == l.q[0] && Heavy(u, |payload|)
    ensures Poised(u, t, l) && Leads(u, s, t) && Holes(t.broker.connectors, l) == 0
    decreases Gap(u, s, l)
  {
    hide Leads, Holes, Heavy, Loaded, NoResidue, Calm, IsLasso, Unloaded;
    var fed := Feed(u, s, i, 0, payload);
    SameLimiters(u, s, fed, l);
    t := SendRest(u, fed, i, e, l);
    LeadsJoin(u, s, fed, t);
    PathStarts(u, t, l);
    if Holes(t.broker.connectors, l) > 0 {
      var more := Fill(u, t, i, e, l, payload);
      LeadsJoin(u, s, t, more);
      t := more;
    }
  }

  function Members(ring: seq<Name>): set<Name> { set c | c in ring }

  lemma FullRing(cfg: Config, s: State, l: Lasso)
    requires IsLasso(cfg, l) && Calm(s.connectors, l) && Holes(s.connectors, l) == 0
    ensures Ring(s, Members(RingOf(l)))
  {
    hide Calm, Holes, IsLasso;
    LassoRange(cfg, l);
    var d := Members(RingOf(l));
    OnRing(cfg, l, l.k);
    assert l.q[l.k] in d;
    forall c | c in d
      ensures c < |s.connectors| && s.connectors[c].CBlocked? && s.connectors[c].to in d
    {
      FullMember(cfg, s.connectors, l, c);
    }
  }

  lemma LassoRange(cfg: Config, l: Lasso)
    requires IsLasso(cfg, l)
    ensures l.k < |l.q|
  {
  }

  lemma FullMember(cfg: Config, connectors: seq<ConnectorPc>, l: Lasso, c: Name)
    requires IsLasso(cfg, l) && Calm(connectors, l) && Holes(connectors, l) == 0 && c in RingOf(l)
    ensures c < |connectors| && connectors[c].CBlocked? && connectors[c].to in RingOf(l)
  {
    hide Calm, Holes;
    var z :| 0 <= z < |RingOf(l)| && RingOf(l)[z] == c;
    FullSpot(cfg, connectors, l, l.k + z);
    OnRing(cfg, l, Succ(l, l.k + z));
  }

  lemma FullSpot(cfg: Config, connectors: seq<ConnectorPc>, l: Lasso, x: nat)
    requires IsLasso(cfg, l) && Calm(connectors, l) && Holes(connectors, l) == 0 && l.k <= x < |l.q|
    ensures l.q[x] < |connectors| && connectors[l.q[x]].CBlocked? && connectors[l.q[x]].to == l.q[Succ(l, x)]
  {
    assert Spot(connectors, l, x);
    OnRing(cfg, l, x);
    TotalAtLeast(connectors, l.q[x], HoleOf(RingOf(l)));
  }

  // ----- Which configurations can lock up -----

  /** The start of p up to the first target it repeats. */
  lemma {:induction false} FirstRepeat(cfg: Config, p: seq<Name>) returns (k: nat, n: nat)
    requires FallbackPath(cfg, p) && Repeats(p)
    ensures k < n < |p| && p[k] == p[n] && !Repeats(p[..n])
  {
    var last := |p| - 1;
    if Repeats(p[..last]) {
      k, n := FirstRepeat(cfg, p[..last]);
      assert p[..last][..n] == p[..n];
    } else {
      var a, b :| 0 <= a < b < |p| && p[a] == p[b];
      if b < last {
        RepeatsEarlier(p, a, b);
      }
      k, n := a, b;
    }
  }

  lemma RepeatsEarlier(p: seq<Name>, a: nat, b: nat)
    requires a < b < |p| - 1 && p[a] == p[b]
    ensures Repeats(p[..|p| - 1])
  {
    assert p[..|p| - 1][a] == p[..|p| - 1][b];
  }

  lemma LassoOf(cfg: Config, p: seq<Name>, k: nat, n: nat)
    requires FallbackPath(cfg, p) && k < n < |p| && p[k] == p[n] && !Repeats(p[..n])
    ensures IsLasso(cfg, Lasso(p[..n], k))
  {
    var l := Lasso(p[..n], k);
    forall x, y | 0 <= x < y < |l.q|
      ensures l.q[x] != l.q[y]
    {
      assert p[..n][x] == l.q[x] && p[..n][y] == l.q[y];
    }
    forall x | 0 <= x < |l.q|
      ensures l.q[x] < |cfg.targets| && Edge(cfg, l.q[x], l.q[Succ(l, x)])
    {
      assert Edge(cfg, p[x], p[x + 1]);
    }
  }

  /** Where rules that can decide lead from a listed target into a cycle, a run without failures leads to
      connectors that are blocked in a ring: messages of a size that loads their limiters are delivered
      until every rule on the way is over, and the next ones go around until the ring is full. */
  lemma CycleLocksUp(u: Setup, t0: nat, i: nat, e: nat, size: nat) returns (events: seq<Event>, s: System, d: set<nat>)
    requires Matches(u) && AllTick(u) && Heavy(u, size) && u.broker.workers >= 1
    requires i < |u.broker.sources| && e < |u.broker.sources[i]| && ReachesCycle(Live(u), u.broker.sources[i][e])
    ensures AllOk(events) && Came(u, t0, events, s) && Ring(s.broker, d)
  {
    hide Holes, Next, Ring, IsLasso, Calm, NoResidue, Loaded;
    var p :| FallbackPath(Live(u), p) && |p| > 0 && p[0] == u.broker.sources[i][e] && Repeats(p);
    var k, n := FirstRepeat(Live(u), p);
    var l := Lasso(p[..n], k);
    LassoOf(Live(u), p, k, n);
    var ready := Ready(u, t0, i);
    AllCalm(Live(u), ready.broker, l);
    s := Fill(u, ready, i, e, l, seq(size, _ => 'x'));
    LeadsJoin(u, Start(u, t0), ready, s);
    FullRing(Live(u), s.broker, l);
    d := Members(RingOf(l));
    events :| AllOk(events) && Exec(u, Start(u, t0), events) == Some(s);
  }

  lemma AllCalm(cfg: Config, s: State, l: Lasso)
    requires Shaped(cfg, s) && IsLasso(cfg, l) && NoneParked(s.connectors)
    ensures Calm(s.connectors, l)
  {
  }

  /** A run without failures leads to connectors blocked in a ring. */
  ghost predicate CanLockUp(u: Setup, t0: nat)
    requires Matches(u)
  {
    exists events, s :: AllOk(events) && Came(u, t0, events, s) && !NoRing(s.broker)
  }

  /** With limiters that tick, a broker can lock its connectors up, without any failure, exactly if some
      source lists a target from which rules that can decide lead into a cycle. */
  lemma LocksUpIff(u: Setup, t0: nat)
    requires Matches(u) && AllTick(u) && u.broker.workers >= 1
    ensures CanLockUp(u, t0) <==> ListsCycle(Live(u))
  {
    hide ReachesCycle, Ring, Exec, AllTick;
    if i, e :| 0 <= i < |u.broker.sources| && 0 <= e < |u.broker.sources[i]| &&
               ReachesCycle(Live(u), u.broker.sources[i][e]) {
      AnyHeavy(u);
      var events, s, d := CycleLocksUp(u, t0, i, e, U64 - 1);
      assert !NoRing(s.broker);
    }
    if events, s :| AllOk(events) && Came(u, t0, events, s) && !NoRing(s.broker) {
      var d :| Ring(s.broker, d);
      RingHasLiveCycle(u, t0, events, s, d);
    }
  }

  /** The largest size loads whatever can be loaded. */
  lemma AnyHeavy(u: Setup)
    requires Matches(u)
    ensures Heavy(u, U64 - 1)
  {
  }

  // ----- Which configurations always finish -----

  /** Whatever a broker without failures has done, once stopped it can still finish. */
  ghost predicate AlwaysFinishes(u: Setup, t0: nat)
    requires Matches(u)
  {
    forall events, s :: AllOk(events) && Came(u, t0, events, s) && s.broker.sourceStop ==> Fit(u, s) && CanFinish(u, s)
  }

  /** Without a cycle to lead into, any verdicts lead to the end. */
  lemma {:induction false} AnyWayOut(u: Setup, wt: seq<nat>, s: System) returns (events: seq<Event>)
    requires Fit(u, s) && Kept(u, s) && Shaped(Live(u), s.broker) && Named(Live(u)) && !ListsCycle(Live(u))
    requires Fits(Live(u), wt) && Descends(Live(u), wt) && (|s.broker.workers| > 0 || s.broker.sources == [])
    requires Inv(Live(u), s.broker) && Healthy(s.broker) && s.broker.sourceStop
    ensures Exec(u, s, events).Some? && Exec(u, s, events).value.broker.main.Returned?
    decreases Work(wt, s.broker)
  {
    hide Balanced, Sound, Phased, Healthy, Work, Step, Exec, Next;
    hide Kept, Doomed, ListsCycle, Named, Descends, Fits, Live;
    ExecNone(u, s);
    if s.broker.main.Returned? {
      events := [];
    } else {
      NotDoomed(Live(u), s.broker);
      var a := Progress(Live(u), s.broker);
      var b := SomeVerdict(u, s, a);
      var t := OneMove(u, wt, s, b);
      var rest := AnyWayOut(u, wt, t);
      ExecOne(u, s, Move(b));
      ExecJoin(u, s, [Move(b)], rest);
      events := [Move(b)] + rest;
    }
  }

  lemma NotDoomed(cfg: Config, s: State)
    requires Named(cfg) && !ListsCycle(cfg) && Inv(cfg, s) && Healthy(s) && (|s.workers| > 0 || s.sources == [])
    ensures !Doomed(s)
  {
    hide Healthy, ListsCycle, Named, Balanced, Phased, Ring;
    if d :| Ring(s, d) {
      RingHasCycle(cfg, s, d);
    }
    HealthyDoom(cfg, s);
  }

  lemma OneMove(u: Setup, wt: seq<nat>, s: System, b: Action) returns (t: System)
    requires Fit(u, s) && Kept(u, s) && Shaped(Live(u), s.broker) && Named(Live(u))
    requires Fits(Live(u), wt) && Descends(Live(u), wt) && Inv(Live(u), s.broker) && Healthy(s.broker)
    requires s.broker.sourceStop
    requires Faultless(b) && !Accepting(b) && Next(u, s, Move(b)).Some?
    ensures t == Next(u, s, Move(b)).value && Kept(u, t) && Shaped(Live(u), t.broker) && Inv(Live(u), t.broker)
    ensures Healthy(t.broker) && t.broker.sourceStop && Work(wt, t.broker) < Work(wt, s.broker)
    ensures |t.broker.workers| == |s.broker.workers| && |t.broker.sources| == |s.broker.sources|
  {
    hide Balanced, Sound, Phased, Healthy, Work, Step, Kept, Named, Descends, Fits;
    t := Next(u, s, Move(b)).value;
    NextKept(u, s, Move(b));
    LiveStep(u, s, b);
    StepInv(Live(u), s.broker, b);
    StepHealthy(Live(u), s.broker, b);
    StepWorks(Live(u), wt, s.broker, b);
    StopStaysOne(u.broker, s.broker, b);
  }

  lemma AcyclicFinishes(u: Setup, t0: nat, before: seq<Event>, s: System)
    requires Matches(u) && Named(Live(u)) && !ListsCycle(Live(u)) && (u.broker.workers >= 1 || u.broker.sources == [])
    requires AllOk(before) && Came(u, t0, before, s) && s.broker.sourceStop
    ensures Fit(u, s) && CanFinish(u, s)
  {
    hide Balanced, Sound, Phased, Healthy, Exec, Run, Kept, ListsCycle, Named, Live;
    CameReached(u, t0, before, s);
    MovesOk(before);
    InitInv(Live(u));
    InitHealthy(Live(u));
    RunHealthy(Live(u), Init(Live(u)), Moves(before));
    var wt := WeightsExist(Live(u));
    var events := AnyWayOut(u, wt, s);
  }

  /** What to check before starting a broker whose limiters tick: if the rules that can decide fall back to
      existing targets, it can always still finish exactly if it has no source, or has a worker and no
      source can lead into a cycle of such rules. */
  lemma AlwaysFinishesIff(u: Setup, t0: nat)
    requires Matches(u) && AllTick(u) && Named(Live(u))
    ensures AlwaysFinishes(u, t0) <==> u.broker.sources == [] || (u.broker.workers >= 1 && !ListsCycle(Live(u)))
  {
    hide ReachesCycle, Ring, Exec, AllTick, Named, Doomed, Inv, Kept;
    if u.broker.sources != [] && u.broker.workers == 0 {
      var events, s := NobodyThere(u, t0);
      CameDoomed(u, t0, events, s);
    } else if i, e :| 0 <= i < |u.broker.sources| && 0 <= e < |u.broker.sources[i]| &&
                      ReachesCycle(Live(u), u.broker.sources[i][e]) {
      var events, s, d := StoppedInRing(u, t0, i, e);
      RingDooms(s.broker, d);
      CameDoomed(u, t0, events, s);
    } else {
      forall events, s | AllOk(events) && Came(u, t0, events, s) && s.broker.sourceStop
        ensures Fit(u, s) && CanFinish(u, s)
      {
        AcyclicFinishes(u, t0, events, s);
      }
    }
  }

  lemma RingDooms(s: State, d: set<nat>)
    requires Ring(s, d)
    ensures Doomed(s)
  {
    hide Ring, Traps;
    RingTraps(s, d);
  }

  lemma CameDoomed(u: Setup, t0: nat, events: seq<Event>, s: System)
    requires Matches(u) && Came(u, t0, events, s) && Doomed(s.broker)
    ensures Fit(u, s) && !CanFinish(u, s)
  {
    hide Exec, Run, Doomed, Inv, Kept;
    CameReached(u, t0, events, s);
    ReachedInv(u.broker, Moves(events), s.broker);
    DoomedCannotFinish(u, s);
  }

  lemma StoppedInRing(u: Setup, t0: nat, i: nat, e: nat) returns (events: seq<Event>, s: System, d: set<nat>)
    requires Matches(u) && AllTick(u) && u.broker.workers >= 1
    requires i < |u.broker.sources| && e < |u.broker.sources[i]| && ReachesCycle(Live(u), u.broker.sources[i][e])
    ensures AllOk(events) && Came(u, t0, events, s) && s.broker.sourceStop && Ring(s.broker, d)
  {
    hide ReachesCycle, Ring, AllTick;
    AnyHeavy(u);
    events, s, d := CycleLocksUp(u, t0, i, e, U64 - 1);
    if !s.broker.sourceStop {
      StartKept(u, t0);
      RingStays(u.broker, s.broker, d, Main(RequestStop));
      LeadsBy(u, Start(u, t0), events, s);
      s := Then(u, Start(u, t0), s, Main(RequestStop));
      events :| AllOk(events) && Exec(u, Start(u, t0), events) == Some(s);
    }
  }

  /** Without a worker, one message is enough. */
  lemma NobodyThere(u: Setup, t0: nat) returns (events: seq<Event>, s: System)
    requires Matches(u) && u.broker.workers == 0 && u.broker.sources != []
    ensures AllOk(events) && Came(u, t0, events, s) && s.broker.sourceStop && Doomed(s.broker)
  {
    hide Leads, AllLeaked, Traps;
    var ready := Ready(u, t0, 0);
    s := Then(u, Start(u, t0), ready, Source(0, Accept("")));
    assert AtSource(s.broker.sources[0]);
    var accepted := s;
    if !s.broker.sourceStop {
      s := Then(u, Start(u, t0), accepted, Main(RequestStop));
    }
    assert AtSource(s.broker.sources[0]);
    assert Unattended(s.broker);
    events := RunTo(u, t0, s);
  }

  /** One target that falls back to itself is enough. */
  lemma SelfFallbackLocksUp(u: Setup, t0: nat, i: nat, e: nat) returns (events: seq<Event>, s: System)
    requires Matches(u) && AllTick(u) && u.broker.workers >= 1 && i < |u.broker.sources| && e < |u.broker.sources[i]|
    requires Edge(Live(u), u.broker.sources[i][e], u.broker.sources[i][e])
    ensures AllOk(events) && Came(u, t0, events, s) && !NoRing(s.broker) && Fit(u, s) && !CanFinish(u, s)
  {
    hide Ring, Inv, Kept, AllTick, Exec, Doomed;
    var p := [u.broker.sources[i][e], u.broker.sources[i][e]];
    assert FallbackPath(Live(u), p) && p[0] == p[1] && Repeats(p);
    assert ReachesCycle(Live(u), u.broker.sources[i][e]);
    AnyHeavy(u);
    var d;
    events, s, d := CycleLocksUp(u, t0, i, e, U64 - 1);
    RingDooms(s.broker, d);
    CameDoomed(u, t0, events, s);
  }
}
