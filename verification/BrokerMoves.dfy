/** Pieces of runs of a broker without failures, with the verdicts of its limiters. */
module BrokerMoves {
  import opened Common
  import opened Sums
  import opened Broker
  import opened BrokerInvariant
  import opened BrokerDoom
  import opened BrokerCycles
  import opened BrokerDrain
  import opened BrokerLimits
  import opened BrokerFinish
  import L = Limiter

  // ----- Building runs -----

  /** A run without failures leads from s to t. */
  ghost predicate Leads(u: Setup, s: System, t: System)
    requires Fit(u, s)
  {
    exists events :: AllOk(events) && Exec(u, s, events) == Some(t)
  }

  lemma LeadsHere(u: Setup, s: System)
    requires Fit(u, s)
    ensures Leads(u, s, s)
  {
    ExecNone(u, s);
    assert AllOk([]);
  }

  lemma LeadsBy(u: Setup, s: System, events: seq<Event>, t: System)
    requires Fit(u, s) && AllOk(events) && Exec(u, s, events) == Some(t)
    ensures Leads(u, s, t) && Fit(u, t)
  {
  }

  lemma LeadsJoin(u: Setup, s: System, t: System, v: System)
    requires Fit(u, s) && Leads(u, s, t) && Fit(u, t) && Leads(u, t, v)
    ensures Fit(u, v) && Leads(u, s, v)
  {
    hide Next, Fit;
    var first :| AllOk(first) && Exec(u, s, first) == Some(t);
    var second :| AllOk(second) && Exec(u, t, second) == Some(v);
    ExecJoin(u, s, first, second);
    assert AllOk(first + second);
  }

  /** One more step of the broker. */
  lemma Then(u: Setup, s: System, t: System, a: Action) returns (n: System)
    requires Fit(u, s) && Leads(u, s, t) && Fit(u, t) && Faultless(a) && Next(u, t, Move(a)).Some?
    ensures n == Next(u, t, Move(a)).value && Fit(u, n) && Leads(u, s, n)
  {
    hide Next, Fit;
    n := Next(u, t, Move(a)).value;
    ExecOne(u, t, Move(a));
    assert AllOk([Move(a)]);
    LeadsBy(u, t, [Move(a)], n);
    LeadsJoin(u, s, t, n);
  }

  /** Everything but connectors and limiters is as it was. */
  predicate SameRest(s: System, t: System) {
    t.broker.sources == s.broker.sources && t.broker.workers == s.broker.workers && t.broker.main == s.broker.main
  }

  /** A source hands one message to a worker. */
  lemma Feed(u: Setup, s: System, i: nat, w: nat, payload: string) returns (t: System)
    requires Fit(u, s) && i < |s.broker.sources| && w < |s.broker.workers|
    requires s.broker.sources[i].SIdle? && s.broker.workers[w].WIdle?
    ensures Fit(u, t) && Leads(u, s, t) && t.limiters == s.limiters
    ensures t.broker.sources == s.broker.sources && t.broker.connectors == s.broker.connectors
    ensures t.broker.main == s.broker.main && t.broker.leaks == s.broker.leaks
    ensures var m := SourceToBroker(i, u.broker.sources[i], payload);
            && t.broker.workers == s.broker.workers[w := WFanning(|s.broker.accepted|, m, 0)]
            && t.broker.accepted == s.broker.accepted + [m]
  {
    hide Leads;
    var offered := Offer(u, s, i, payload);
    t := Then(u, s, offered, Source(i, HandTo(w)));
    t := Then(u, s, t, Worker(w, Decode(true)));
  }

  /** A source accepts a message and counts it. */
  lemma Offer(u: Setup, s: System, i: nat, payload: string) returns (t: System)
    requires Fit(u, s) && i < |s.broker.sources| && s.broker.sources[i].SIdle?
    ensures Fit(u, t) && Leads(u, s, t) && t.limiters == s.limiters
    ensures t.broker.connectors == s.broker.connectors && t.broker.workers == s.broker.workers
    ensures t.broker.main == s.broker.main && t.broker.leaks == s.broker.leaks
    ensures var m := SourceToBroker(i, u.broker.sources[i], payload);
            && t.broker.sources == s.broker.sources[i := SHanding(|s.broker.accepted|, m)]
            && t.broker.accepted == s.broker.accepted + [m]
  {
    hide Leads, Wrap;
    LeadsHere(u, s);
    t := Then(u, s, s, Source(i, Accept(payload)));
    t := Then(u, s, t, Source(i, Count));
    t := Then(u, s, t, Source(i, Group));
  }

  /** A worker hands its next entry to an idle connector. */
  lemma FanTo(u: Setup, s: System, w: nat) returns (t: System)
    requires Fit(u, s) && w < |s.broker.workers| && s.broker.workers[w].WFanning?
    requires s.broker.workers[w].next < |s.broker.workers[w].msg.targets|
    requires var c := s.broker.workers[w].msg.targets[s.broker.workers[w].next];
             c < |s.broker.connectors| && s.broker.connectors[c].CIdle?
    ensures Fit(u, t) && Leads(u, s, t) && t.limiters == s.limiters
    ensures t.broker.sources == s.broker.sources && t.broker.main == s.broker.main && t.broker.leaks == s.broker.leaks
    ensures t.broker.accepted == s.broker.accepted
    ensures t.broker.workers == s.broker.workers[w := s.broker.workers[w].(next := s.broker.workers[w].next + 1)]
    ensures var c := s.broker.workers[w].msg.targets[s.broker.workers[w].next];
            && t.broker.connectors == s.broker.connectors[c := t.broker.connectors[c]]
            && t.broker.connectors[c].CParsing?
            && t.broker.connectors[c].parcel.msg == s.broker.workers[w].msg
  {
    hide Leads;
    LeadsHere(u, s);
    t := Then(u, s, s, Worker(w, FanOut));
  }

  /** A blocked message moves on to its fallback. */
  lemma MoveOn(u: Setup, s: System, c: nat) returns (t: System)
    requires Fit(u, s) && c < |s.broker.connectors| && s.broker.connectors[c].CBlocked?
    requires var b := s.broker.connectors[c].to; b < |s.broker.connectors| && s.broker.connectors[b].CIdle?
    ensures Fit(u, t) && Leads(u, s, t) && SameRest(s, t) && t.limiters == s.limiters
    ensures var b := s.broker.connectors[c].to;
            && t.broker.connectors == s.broker.connectors[c := CIdle][b := t.broker.connectors[b]]
            && t.broker.connectors[b].CParsing?
            && t.broker.connectors[b].parcel.msg.sourceMessage == s.broker.connectors[c].parcel.msg.sourceMessage
  {
    hide Leads;
    LeadsHere(u, s);
    t := Then(u, s, s, Connector(c, Resend));
  }

  // ----- Limiters on the way -----

  /** Only limiters of target c may have changed. */
  predicate OthersSame(s: System, t: System, c: nat) {
    |t.limiters| == |s.limiters| && forall x :: 0 <= x < |s.limiters| && x != c ==> t.limiters[x] == s.limiters[x]
  }

  predicate Zeroed(x: L.State) { x.total == 0 && x.count == 0 && |x.items| == 1 }

  /** A rule that acts is cleared and lets the message pass; any other lets it pass anyway. */
  lemma PassOne(u: Setup, s: System, c: nat) returns (t: System)
    requires Fit(u, s) && AllTick(u) && NoResidue(u, s) && Asks(u, s, c)
    ensures Fit(u, t) && Leads(u, s, t) && NoResidue(u, t)
    ensures var CLimiting(p, r) := s.broker.connectors[c];
            && t.broker == SetConnector(s.broker, c, CLimiting(p, r + 1))
            && t.limiters == s.limiters[c := s.limiters[c][r := t.limiters[c][r]]]
            && (!u.broker.targets[c][r].Unhandled? ==> Zeroed(t.limiters[c][r]))
  {
    hide Leads, L.Over, Exec, L.SumItems, NoResidue;
    LeadsHere(u, s);
    var r := s.broker.connectors[c].rule;
    if u.broker.targets[c][r].Unhandled? {
      t := Then(u, s, s, Connector(c, Check(if OverAt(u, s, c, r) then Over else Under)));
      assert s.limiters[c] == s.limiters[c][r := s.limiters[c][r]];
      assert t.limiters == s.limiters;
      SameNoResidue(u, s, t);
    } else {
      var events, m := ClearRule(u, s, c, r);
      LeadsBy(u, s, events, m);
      ZeroUnder(u, s, m, c, r);
      t := Then(u, s, m, Connector(c, Check(Under)));
      SameNoResidue(u, m, t);
    }
  }

  lemma SameNoResidue(u: Setup, s: System, t: System)
    requires Fit(u, s) && Fit(u, t) && NoResidue(u, s) && t.limiters == s.limiters
    ensures NoResidue(u, t)
  {
  }

  lemma ZeroUnder(u: Setup, s: System, m: System, c: nat, r: nat)
    requires Fit(u, s) && Fit(u, m) && NoResidue(u, s) && c < |u.limits| && r < |u.limits[c]|
    requires Cleared(s.limiters[c][r], m.limiters[c][r])
    requires m.limiters == s.limiters[c := s.limiters[c][r := m.limiters[c][r]]]
    ensures Zeroed(m.limiters[c][r]) && !OverAt(u, m, c, r) && NoResidue(u, m)
  {
    hide L.SumItems;
    ClearedKeeps(u.limits[c][r], s.limiters[c][r], m.limiters[c][r]);
    assert Wrap(0) == 0;
  }

  /** A message gets past the rules up to r. */
  lemma {:induction false} PassRules(u: Setup, s: System, c: nat, r: nat) returns (t: System)
    requires Fit(u, s) && AllTick(u) && NoResidue(u, s) && c < |s.broker.connectors|
    requires s.broker.connectors[c].CLimiting?
    requires s.broker.connectors[c].rule <= r <= |u.limits[c]|
    ensures Fit(u, t) && Leads(u, s, t) && NoResidue(u, t) && OthersSame(s, t, c)
    ensures t.broker == SetConnector(s.broker, c, CLimiting(s.broker.connectors[c].parcel, r))
    ensures forall x :: r <= x < |u.limits[c]| ==> t.limiters[c][x] == s.limiters[c][x]
    ensures forall x :: s.broker.connectors[c].rule <= x < r && !u.broker.targets[c][x].Unhandled? ==>
              Zeroed(t.limiters[c][x])
    ensures forall x :: 0 <= x < s.broker.connectors[c].rule ==> t.limiters[c][x] == s.limiters[c][x]
    decreases r - s.broker.connectors[c].rule
  {
    hide Leads, NoResidue, Zeroed;
    LeadsHere(u, s);
    t := s;
    if s.broker.connectors[c].rule < r {
      var m := PassOne(u, s, c);
      t := PassRules(u, m, c, r);
      LeadsJoin(u, s, m, t);
    }
  }

  /** Target c has a rule that falls back to b and is over. */
  ghost predicate Loaded(u: Setup, s: System, c: Name, b: Name)
    requires Fit(u, s)
  {
    c < |u.limits| && exists r :: 0 <= r < |u.limits[c]| && u.broker.targets[c][r] == Fallback(b) && OverAt(u, s, c, r)
  }

  /** A message is turned away by a loaded rule, the rules before it being cleared. */
  lemma FallBack(u: Setup, s: System, c: nat, b: Name) returns (t: System)
    requires Fit(u, s) && AllTick(u) && NoResidue(u, s) && Loaded(u, s, c, b)
    requires s.broker.connectors[c].CParsing? && b < |s.broker.connectors|
    ensures Fit(u, t) && Leads(u, s, t) && SameRest(s, t) && NoResidue(u, t) && OthersSame(s, t, c)
    ensures Loaded(u, t, c, b)
    ensures t.broker.connectors == s.broker.connectors[c := t.broker.connectors[c]]
    ensures t.broker.connectors[c].CBlocked? && t.broker.connectors[c].to == b
    ensures t.broker.connectors[c].parcel.msg.sourceMessage == s.broker.connectors[c].parcel.msg.sourceMessage
  {
    hide Leads, L.Over, NoResidue, Wrap, Zeroed;
    LeadsHere(u, s);
    var r :| 0 <= r < |u.limits[c]| && u.broker.targets[c][r] == Fallback(b) && OverAt(u, s, c, r);
    var parsed := Then(u, s, s, Connector(c, Parse(true)));
    SameNoResidue(u, s, parsed);
    var limited := PassRules(u, parsed, c, r);
    LeadsJoin(u, s, parsed, limited);
    assert OverAt(u, limited, c, r);
    t := Then(u, s, limited, Connector(c, Check(Over)));
    SameNoResidue(u, limited, t);
    assert OverAt(u, t, c, r);
  }

  /** A message of this size loads every limiter that can be loaded. */
  ghost predicate Heavy(u: Setup, size: nat)
    requires Matches(u)
  {
    size < U64 && forall t, r :: 0 <= t < |u.limits| && 0 <= r < |u.limits[t]| && Capacity(u.limits[t][r]) < U64 ==>
                                   Capacity(u.limits[t][r]) <= size
  }

  lemma HeavyLoads(limit: L.Settings, x: L.State, size: nat)
    requires Ticking(limit) && Zeroed(x) && Capacity(limit) <= size < U64
    ensures L.Over(limit, L.Increment(x, size))
  {
    assert Wrap(size) == size;
    L.MeanAbove(size, 2, limit.limit);
  }

  /** A heavy message is delivered, which loads every rule of the target that can decide. */
  lemma DeliverHeavy(u: Setup, s: System, c: nat) returns (t: System)
    requires Fit(u, s) && AllTick(u) && NoResidue(u, s) && c < |s.broker.connectors| && s.broker.connectors[c].CParsing?
    requires Heavy(u, |s.broker.connectors[c].parcel.msg.sourceMessage|)
    ensures Fit(u, t) && Leads(u, s, t) && SameRest(s, t) && NoResidue(u, t) && OthersSame(s, t, c)
    ensures t.broker.connectors == s.broker.connectors[c := CIdle]
    ensures forall b :: Edge(Live(u), c, b) ==> Loaded(u, t, c, b)
  {
    hide Leads, L.Over, NoResidue, Zeroed, Heavy;
    LeadsHere(u, s);
    var parsed := Then(u, s, s, Connector(c, Parse(true)));
    SameNoResidue(u, s, parsed);
    var limited := PassRules(u, parsed, c, |u.limits[c]|);
    LeadsJoin(u, s, parsed, limited);
    t := Complete(u, limited, c);
    LeadsJoin(u, s, limited, t);
    var size := |s.broker.connectors[c].parcel.msg.sourceMessage|;
    forall b | Edge(Live(u), c, b)
      ensures Loaded(u, t, c, b)
    {
      var r := LiveRule(u, c, b);
      assert Zeroed(limited.limiters[c][r]);
      HeavyRule(u, size, c, r);
      HeavyLoads(u.limits[c][r], limited.limiters[c][r], size);
      assert OverAt(u, t, c, r);
    }
  }

  lemma HeavyRule(u: Setup, size: nat, t: nat, r: nat)
    requires Matches(u) && Heavy(u, size) && t < |u.limits| && r < |u.limits[t]| && Capacity(u.limits[t][r]) < U64
    ensures Capacity(u.limits[t][r]) <= size < U64
  {
  }

  lemma LiveRule(u: Setup, c: nat, b: Name) returns (r: nat)
    requires Matches(u) && AllTick(u) && Edge(Live(u), c, b)
    ensures c < |u.limits| && r < |u.limits[c]| && u.broker.targets[c][r] == Fallback(b)
    ensures Ticking(u.limits[c][r]) && Capacity(u.limits[c][r]) < U64
  {
    r :| 0 <= r < |Live(u).targets[c]| && Live(u).targets[c][r] == Fallback(b);
  }

  /** It is past the rules: written, acknowledged, counted and completed. */
  lemma Complete(u: Setup, s: System, c: nat) returns (t: System)
    requires Fit(u, s) && NoResidue(u, s) && c < |s.broker.connectors| && s.broker.connectors[c].CLimiting?
    requires s.broker.connectors[c].rule == |u.limits[c]|
    ensures Fit(u, t) && Leads(u, s, t) && SameRest(s, t) && NoResidue(u, t) && t.broker.leaks == s.broker.leaks
    ensures t.broker.accepted == s.broker.accepted
    ensures t.broker.connectors == s.broker.connectors[c := CIdle]
    ensures t.limiters == s.limiters[c := ChargeRow(s.limiters[c], |s.broker.connectors[c].parcel.msg.sourceMessage|)]
  {
    hide Leads, NoResidue, Next;
    var known := Acknowledged(u, s, c);
    t := Settled(u, known, c);
    LeadsJoin(u, s, known, t);
    SameNoResidue(u, known, t);
  }

  lemma Acknowledged(u: Setup, s: System, c: nat) returns (t: System)
    requires Fit(u, s) && NoResidue(u, s) && c < |s.broker.connectors| && s.broker.connectors[c].CLimiting?
    requires s.broker.connectors[c].rule == |u.limits[c]|
    ensures Fit(u, t) && Leads(u, s, t) && SameRest(s, t) && NoResidue(u, t) && t.broker.leaks == s.broker.leaks
    ensures t.broker.accepted == s.broker.accepted
    ensures t.broker.connectors == s.broker.connectors[c := t.broker.connectors[c]]
    ensures t.broker.connectors[c].CUncounting?
    ensures !t.broker.connectors[c].dying
    ensures t.limiters == s.limiters[c := ChargeRow(s.limiters[c], |s.broker.connectors[c].parcel.msg.sourceMessage|)]
  {
    hide Leads, Wrap, NoResidue;
    LeadsHere(u, s);
    var written := Then(u, s, s, Connector(c, Write(true)));
    SameNoResidue(u, s, written);
    t := Then(u, s, written, Connector(c, Await(true)));
    NextNoResidue(u, written, Move(Connector(c, Await(true))));
  }

  lemma Settled(u: Setup, s: System, c: nat) returns (t: System)
    requires Fit(u, s) && c < |s.broker.connectors| && s.broker.connectors[c].CUncounting?
    requires !s.broker.connectors[c].dying
    ensures Fit(u, t) && Leads(u, s, t) && SameRest(s, t) && t.broker.leaks == s.broker.leaks
    ensures t.limiters == s.limiters
    ensures t.broker.accepted == s.broker.accepted && t.broker.connectors == s.broker.connectors[c := CIdle]
  {
    hide Leads, Wrap;
    LeadsHere(u, s);
    t := Then(u, s, s, Connector(c, Uncount));
    t := Then(u, s, t, Connector(c, Release));
  }

  predicate NoneParked(connectors: seq<ConnectorPc>) { forall c :: 0 <= c < |connectors| ==> connectors[c].CIdle? }

  // ----- From the start -----

  /** The first n target connections open. */
  lemma {:induction false} OpenSome(u: Setup, t0: nat, n: nat) returns (t: System)
    requires Matches(u) && n <= |u.broker.targets|
    ensures Fit(u, Start(u, t0)) && Fit(u, t) && Leads(u, Start(u, t0), t) && SameRest(Start(u, t0), t)
    ensures t.limiters == Start(u, t0).limiters && t.broker.leaks == [] && t.broker.accepted == []
    ensures forall c :: 0 <= c < |t.broker.connectors| ==>
              if c < n then t.broker.connectors[c].CIdle? else t.broker.connectors[c].CConnecting?
  {
    hide Leads;
    StartKept(u, t0);
    if n == 0 {
      t := Start(u, t0);
      LeadsHere(u, t);
    } else {
      var v := OpenSome(u, t0, n - 1);
      t := Then(u, Start(u, t0), v, Connector(n - 1, Open(true)));
    }
  }

  /** All target connections and that of source i are open. */
  lemma Ready(u: Setup, t0: nat, i: nat) returns (t: System)
    requires Matches(u) && i < |u.broker.sources|
    ensures Fit(u, Start(u, t0)) && Fit(u, t) && Leads(u, Start(u, t0), t) && NoResidue(u, t)
    ensures t.limiters == Start(u, t0).limiters && t.broker.leaks == [] && t.broker.accepted == []
    ensures t.broker.sources[i].SIdle? && NoneParked(t.broker.connectors)
    ensures forall w :: 0 <= w < |t.broker.workers| ==> t.broker.workers[w].WIdle?
    ensures forall j :: 0 <= j < |t.broker.sources| ==> !AtSource(t.broker.sources[j])
  {
    hide Leads, NoResidue;
    var open := OpenSome(u, t0, |u.broker.targets|);
    t := Then(u, Start(u, t0), open, Source(i, Dial(true)));
    StartNoResidue(u, t0);
    SameNoResidue(u, Start(u, t0), t);
  }

  lemma RunTo(u: Setup, t0: nat, s: System) returns (events: seq<Event>)
    requires Matches(u) && Fit(u, Start(u, t0)) && Leads(u, Start(u, t0), s)
    ensures AllOk(events) && Came(u, t0, events, s)
  {
    events :| AllOk(events) && Exec(u, Start(u, t0), events) == Some(s);
  }
}
