/** Other ways in which a broker gets stuck: a target that does not exist, a refused connection, and
    a limiter that stays over. */
module BrokerStuck {
  import opened Common
  import opened Sums
  import opened Broker
  import opened BrokerInvariant
  import opened BrokerDoom
  import opened BrokerCycles
  import opened BrokerDrain
  import opened BrokerLimits
  import opened BrokerFinish
  import opened BrokerMoves
  import opened BrokerCorner
  import L = Limiter

  // ----- Limiters that have counted nothing -----

  /** No limiter has counted anything. */
  ghost predicate Unused(s: System) {
    forall t, r :: 0 <= t < |s.limiters| && 0 <= r < |s.limiters[t]| ==>
                     s.limiters[t][r].total == 0 && s.limiters[t][r].count == 0
  }

  lemma StartUnused(u: Setup, t0: nat)
    requires Matches(u)
    ensures Unused(Start(u, t0))
  {
  }

  lemma UnusedUnder(u: Setup, s: System, c: nat, r: nat)
    requires Fit(u, s) && Unused(s) && c < |u.limits| && r < |u.limits[c]|
    ensures !OverAt(u, s, c, r)
  {
    assert Wrap(0) == 0;
  }

  /** A message passes all rules of a target whose limiters have counted nothing. */
  lemma {:induction false} PassUnused(u: Setup, s: System, c: nat) returns (t: System)
    requires Fit(u, s) && Unused(s) && c < |s.broker.connectors| && s.broker.connectors[c].CLimiting?
    requires s.broker.connectors[c].rule <= |u.limits[c]|
    ensures Fit(u, t) && Leads(u, s, t) && t.limiters == s.limiters
    ensures t.broker == SetConnector(s.broker, c, CLimiting(s.broker.connectors[c].parcel, |u.limits[c]|))
    decreases |u.limits[c]| - s.broker.connectors[c].rule
  {
    hide Leads, L.Over;
    LeadsHere(u, s);
    t := s;
    if s.broker.connectors[c].rule < |u.limits[c]| {
      UnusedUnder(u, s, c, s.broker.connectors[c].rule);
      var m := Then(u, s, s, Connector(c, Check(Under)));
      t := PassUnused(u, m, c);
      LeadsJoin(u, s, m, t);
    }
  }

  lemma DeliverFirst(u: Setup, s: System, c: nat) returns (t: System)
    requires Fit(u, s) && Unused(s) && NoResidue(u, s) && c < |s.broker.connectors| && s.broker.connectors[c].CParsing?
    ensures Fit(u, t) && Leads(u, s, t) && SameRest(s, t) && NoResidue(u, t) && t.broker.leaks == s.broker.leaks
    ensures t.broker.connectors == s.broker.connectors[c := CIdle] && t.broker.accepted == s.broker.accepted
    ensures t.limiters == s.limiters[c := ChargeRow(s.limiters[c], |s.broker.connectors[c].parcel.msg.sourceMessage|)]
  {
    hide Leads, NoResidue;
    LeadsHere(u, s);
    var parsed := Then(u, s, s, Connector(c, Parse(true)));
    SameNoResidue(u, s, parsed);
    var limited := PassUnused(u, parsed, c);
    LeadsJoin(u, s, parsed, limited);
    SameNoResidue(u, parsed, limited);
    t := Complete(u, limited, c);
    LeadsJoin(u, s, limited, t);
  }

  lemma EmptyUnused(s: System, t: System, c: nat)
    requires Unused(s) && c < |s.limiters| && t.limiters == s.limiters[c := ChargeRow(s.limiters[c], 0)]
    ensures Unused(t)
  {
    assert Wrap(0) == 0;
  }

  /** Worker 0, with an empty message, sends the entries up to n, delivering those that have a target. */
  lemma {:induction false} SendUpTo(u: Setup, s: System, n: nat) returns (t: System)
    requires Fit(u, s) && Unused(s) && NoResidue(u, s) && |s.broker.workers| > 0 && s.broker.workers[0].WFanning?
    requires s.broker.workers[0].next <= n <= |s.broker.workers[0].msg.targets|
    requires s.broker.workers[0].msg.sourceMessage == "" && NoneParked(s.broker.connectors)
    ensures Fit(u, t) && Leads(u, s, t) && Unused(t) && NoResidue(u, t) && t.broker.connectors == s.broker.connectors
    ensures t.broker.workers == s.broker.workers[0 := s.broker.workers[0].(next := n)]
    ensures t.broker.sources == s.broker.sources && t.broker.accepted == s.broker.accepted
    ensures (forall j :: 0 <= j < n ==> s.broker.workers[0].msg.targets[j] < |s.broker.connectors|) ==>
              t.broker.leaks == s.broker.leaks
    decreases n - s.broker.workers[0].next
  {
    hide Leads, Unused, NoResidue;
    LeadsHere(u, s);
    t := s;
    if s.broker.workers[0].next < n {
      var m := SendEmpty(u, s);
      t := SendUpTo(u, m, n);
      LeadsJoin(u, s, m, t);
    }
  }

  lemma SendEmpty(u: Setup, s: System) returns (t: System)
    requires Fit(u, s) && Unused(s) && NoResidue(u, s) && |s.broker.workers| > 0 && s.broker.workers[0].WFanning?
    requires s.broker.workers[0].next < |s.broker.workers[0].msg.targets|
    requires s.broker.workers[0].msg.sourceMessage == "" && NoneParked(s.broker.connectors)
    ensures Fit(u, t) && Leads(u, s, t) && Unused(t) && NoResidue(u, t) && t.broker.connectors == s.broker.connectors
    ensures t.broker.workers == s.broker.workers[0 := s.broker.workers[0].(next := s.broker.workers[0].next + 1)]
    ensures t.broker.sources == s.broker.sources && t.broker.accepted == s.broker.accepted
    ensures s.broker.workers[0].msg.targets[s.broker.workers[0].next] < |s.broker.connectors| ==>
              t.broker.leaks == s.broker.leaks
    ensures s.broker.workers[0].msg.targets[s.broker.workers[0].next] >= |s.broker.connectors| ==>
              var j := s.broker.workers[0].next;
              t.broker.leaks == s.broker.leaks + [Leak(s.broker.workers[0].id, j, j + 1)]
  {
    hide Leads, NoResidue;
    var c := s.broker.workers[0].msg.targets[s.broker.workers[0].next];
    if c < |s.broker.connectors| {
      var sent := FanTo(u, s, 0);
      SameNoResidue(u, s, sent);
      t := DeliverFirst(u, sent, c);
      LeadsJoin(u, s, sent, t);
      EmptyUnused(sent, t, c);
      assert t.broker.connectors == s.broker.connectors;
    } else {
      LeadsHere(u, s);
      t := Then(u, s, s, Worker(0, FanOut));
      SameNoResidue(u, s, t);
    }
  }

  // ----- Three ways -----

  /** A source that lists a target that does not exist makes the broker leak without any failure, and
      no run that has come to that closes TargetStop. */
  lemma UnknownTargetLeaks(u: Setup, t0: nat, i: nat, e: nat) returns (events: seq<Event>, s: System)
    requires Matches(u) && u.broker.workers >= 1
    requires i < |u.broker.sources| && e < |u.broker.sources[i]| && u.broker.sources[i][e] >= |u.broker.targets|
    ensures AllOk(events) && Came(u, t0, events, s) && AllLeaked(s.broker) > 0 && Doomed(s.broker)
    ensures Fit(u, s) && forall more :: Exec(u, s, more).Some? ==> !TargetStopClosed(Exec(u, s, more).value.broker.main)
  {
    hide Next, Inv, AllLeaked, Kept, Unused, NoResidue, Leads;
    var ready := Ready(u, t0, i);
    StartUnused(u, t0);
    SameUnused(Start(u, t0), ready);
    var fed := Feed(u, ready, i, 0, "");
    LeadsJoin(u, Start(u, t0), ready, fed);
    SameUnused(ready, fed);
    SameNoResidue(u, ready, fed);
    var there := SendUpTo(u, fed, e);
    LeadsJoin(u, Start(u, t0), fed, there);
    s := SendEmpty(u, there);
    LeadsJoin(u, Start(u, t0), there, s);
    LeakedSome(there.broker, s.broker, s.broker.leaks[|there.broker.leaks|]);
    events := RunTo(u, t0, s);
    DoomedStaysOpen(u, t0, events, s);
  }

  lemma SameUnused(s: System, t: System)
    requires Unused(s) && t.limiters == s.limiters
    ensures Unused(t)
  {
  }

  lemma DoomedStaysOpen(u: Setup, t0: nat, events: seq<Event>, s: System)
    requires Matches(u) && Came(u, t0, events, s) && Doomed(s.broker)
    ensures Fit(u, s) && forall more :: Exec(u, s, more).Some? ==> !TargetStopClosed(Exec(u, s, more).value.broker.main)
  {
    hide Exec, Run, Inv, Kept, Doomed;
    CameReached(u, t0, events, s);
    ReachedInv(u.broker, Moves(events), s.broker);
    forall more | Exec(u, s, more).Some?
      ensures !TargetStopClosed(Exec(u, s, more).value.broker.main)
    {
      ExecProjects(u, s, more);
      DoomedForever(u.broker, s.broker, Moves(more));
    }
  }

  /** One refused connection is enough to doom the broker, with nothing leaked and nothing blocked in
      a ring: a message for that target is never taken. */
  lemma RefusedTargetDooms(u: Setup, t0: nat, i: nat, e: nat) returns (events: seq<Event>, s: System)
    requires Matches(u) && u.broker.workers >= 1
    requires i < |u.broker.sources| && e < |u.broker.sources[i]| && u.broker.sources[i][e] < |u.broker.targets|
    ensures Came(u, t0, events, s) && Doomed(s.broker) && s.broker.leaks == [] && NoRing(s.broker)
    ensures Fit(u, s) && forall more :: Exec(u, s, more).Some? ==> !TargetStopClosed(Exec(u, s, more).value.broker.main)
  {
    hide Next, Inv, AllLeaked, Ring, Kept;
    var c := u.broker.sources[i][e];
    var first, refused := Refuse(u, t0, i, c);
    s := Feed(u, refused, i, 0, "log");
    var second :| Exec(u, refused, second) == Some(s);
    ExecJoin(u, Start(u, t0), first, second);
    events := first + second;
    NothingBlocked(s.broker);
    var o := Obligation(|refused.broker.accepted|, e);
    assert WorkerHas(s.broker.workers[0], o);
    assert Waits(s.broker, o) && Hopeless(s.broker, {c}, o);
    assert Traps(s.broker, {c});
    DoomedStaysOpen(u, t0, events, s);
  }

  /** One more step of the broker, failing or not. */
  lemma OneStep(u: Setup, t0: nat, events: seq<Event>, s: System, a: Action) returns (more: seq<Event>, t: System)
    requires Matches(u) && Came(u, t0, events, s) && Fit(u, s) && Next(u, s, Move(a)).Some?
    ensures t == Next(u, s, Move(a)).value && Came(u, t0, more, t) && Fit(u, t)
  {
    hide Next, Fit;
    t := Next(u, s, Move(a)).value;
    ExecOne(u, s, Move(a));
    ExecJoin(u, Start(u, t0), events, [Move(a)]);
    more := events + [Move(a)];
  }

  /** A message is handed to the connector of entry e, with nothing leaked if the entries before it have
      a target. */
  lemma HandedOver(u: Setup, t0: nat, i: nat, e: nat) returns (events: seq<Event>, s: System)
    requires Matches(u) && u.broker.workers >= 1
    requires i < |u.broker.sources| && e < |u.broker.sources[i]| && u.broker.sources[i][e] < |u.broker.targets|
    ensures Came(u, t0, events, s) && Fit(u, s) && Unused(s) && s.broker.sources[i].SIdle?
    ensures var c := u.broker.sources[i][e];
            && s.broker.connectors[c].CParsing?
            && forall d :: 0 <= d < |s.broker.connectors| && d != c ==> s.broker.connectors[d].CIdle?
    ensures (forall j :: 0 <= j < e ==> u.broker.sources[i][j] < |u.broker.targets|) ==> s.broker.leaks == []
  {
    hide Next, Kept, Unused, NoResidue, Leads;
    var ready := Ready(u, t0, i);
    StartUnused(u, t0);
    SameUnused(Start(u, t0), ready);
    var fed := Feed(u, ready, i, 0, "");
    LeadsJoin(u, Start(u, t0), ready, fed);
    SameUnused(ready, fed);
    SameNoResidue(u, ready, fed);
    var there := SendUpTo(u, fed, e);
    LeadsJoin(u, Start(u, t0), fed, there);
    s := FanTo(u, there, 0);
    LeadsJoin(u, Start(u, t0), there, s);
    SameUnused(there, s);
    events := RunTo(u, t0, s);
  }

  /** It is written, its acknowledgement does not come, and the connector closes. */
  lemma MissesAcknowledgement(u: Setup, t0: nat, before: seq<Event>, s: System, c: nat)
      returns (events: seq<Event>, t: System)
    requires Matches(u) && Came(u, t0, before, s) && Fit(u, s) && Unused(s)
    requires c < |s.broker.connectors| && s.broker.connectors[c].CParsing?
    ensures Came(u, t0, events, t) && Fit(u, t) && t.broker.connectors == s.broker.connectors[c := CClosed]
    ensures t.broker.sources == s.broker.sources && t.broker.leaks == s.broker.leaks
  {
    hide Leads, Came, Wrap, Unused;
    var parsed, limited;
    events, parsed := OneStep(u, t0, before, s, Connector(c, Parse(true)));
    SameUnused(s, parsed);
    limited := PassUnused(u, parsed, c);
    events := CameOn(u, t0, events, parsed, limited);
    events, t := OneStep(u, t0, events, limited, Connector(c, Write(true)));
    var w := t;
    events, t := OneStep(u, t0, events, w, Connector(c, Await(false)));
    events, t := Closes(u, t0, events, t, c);
  }

  lemma Closes(u: Setup, t0: nat, before: seq<Event>, s: System, c: nat) returns (events: seq<Event>, t: System)
    requires Matches(u) && Came(u, t0, before, s) && Fit(u, s)
    requires c < |s.broker.connectors| && s.broker.connectors[c].CUncounting? && s.broker.connectors[c].dying
    ensures Came(u, t0, events, t) && Fit(u, t) && t.broker.connectors == s.broker.connectors[c := CClosed]
    ensures t.broker.sources == s.broker.sources && t.broker.leaks == s.broker.leaks
  {
    hide Came, Wrap;
    events, t := OneStep(u, t0, before, s, Connector(c, Uncount));
    events, t := OneStep(u, t0, events, t, Connector(c, Release));
  }

  lemma CameOn(u: Setup, t0: nat, events: seq<Event>, s: System, t: System) returns (more: seq<Event>)
    requires Matches(u) && Came(u, t0, events, s) && Fit(u, s) && Leads(u, s, t)
    ensures Came(u, t0, more, t)
  {
    hide Next, Fit;
    var rest :| AllOk(rest) && Exec(u, s, rest) == Some(t);
    ExecJoin(u, Start(u, t0), events, rest);
    more := events + rest;
  }

  /** One missing acknowledgement is enough, too: its connector ends, and the next message for that
      target is never taken. */
  lemma MissedAcknowledgementDooms(u: Setup, t0: nat, i: nat, e: nat) returns (events: seq<Event>, s: System)
    requires Matches(u) && u.broker.workers >= 1
    requires i < |u.broker.sources| && e < |u.broker.sources[i]| && u.broker.sources[i][e] < |u.broker.targets|
    ensures Came(u, t0, events, s) && Doomed(s.broker) && NoRing(s.broker)
    ensures (forall j :: 0 <= j < e ==> u.broker.sources[i][j] < |u.broker.targets|) ==> s.broker.leaks == []
    ensures Fit(u, s) && forall more :: Exec(u, s, more).Some? ==> !TargetStopClosed(Exec(u, s, more).value.broker.main)
  {
    hide Next, Inv, AllLeaked, Ring, Kept, Unused, Came;
    var c := u.broker.sources[i][e];
    var handed, ended;
    events, handed := HandedOver(u, t0, i, e);
    events, ended := MissesAcknowledgement(u, t0, events, handed, c);
    var a := Source(i, Accept("log"));
    AcceptsAgain(u, ended, i);
    events, s := OneStep(u, t0, events, ended, a);
    NothingBlocked(s.broker);
    var o := Obligation(|ended.broker.accepted|, e);
    assert SourceHas(s.broker.sources[i], o);
    assert Waits(s.broker, o) && Hopeless(s.broker, {c}, o);
    assert Traps(s.broker, {c});
    DoomedStaysOpen(u, t0, events, s);
  }

  lemma AcceptsAgain(u: Setup, s: System, i: nat)
    requires Fit(u, s) && i < |s.broker.sources| && s.broker.sources[i].SIdle?
    ensures var t := Next(u, s, Move(Source(i, Accept("log"))));
            var m := SourceToBroker(i, u.broker.sources[i], "log");
            && t.Some? && t.value.broker.connectors == s.broker.connectors && t.value.broker.leaks == s.broker.leaks
            && t.value.broker.accepted == s.broker.accepted + [m]
            && t.value.broker.sources[i] == SCounting(|s.broker.accepted|, m)
  {
  }

  lemma NothingBlocked(s: State)
    requires forall c :: 0 <= c < |s.connectors| ==> !s.connectors[c].CBlocked?
    ensures NoRing(s)
  {
    forall d
      ensures !Ring(s, d)
    {
      if c :| c in d && c < |s.connectors| {
        assert !s.connectors[c].CBlocked?;
      }
    }
  }

  /** The connection of target c is refused, that of source i opens. */
  lemma Refuse(u: Setup, t0: nat, i: nat, c: nat) returns (events: seq<Event>, t: System)
    requires Matches(u) && i < |u.broker.sources| && c < |u.broker.targets|
    ensures Fit(u, Start(u, t0)) && Fit(u, t) && Exec(u, Start(u, t0), events) == Some(t)
    ensures t.broker.leaks == [] && t.broker.connectors[c].CClosed? && t.broker.sources[i].SIdle?
    ensures forall d :: 0 <= d < |t.broker.connectors| ==> !t.broker.connectors[d].CBlocked?
    ensures forall w :: 0 <= w < |t.broker.workers| ==> t.broker.workers[w].WIdle?
  {
    StartKept(u, t0);
    var dial, refuse := Move(Source(i, Dial(true))), Move(Connector(c, Open(false)));
    var open := Next(u, Start(u, t0), dial).value;
    t := Next(u, open, refuse).value;
    hide Next, Start;
    ExecOne(u, Start(u, t0), dial);
    ExecOne(u, open, refuse);
    ExecJoin(u, Start(u, t0), [dial], [refuse]);
    events := [dial] + [refuse];
  }

  /** That limiters tick is needed: where a target's first rule falls back to the target itself, by a
      limiter that never ticks but can be over, two messages make a stopped broker unable to finish,
      although nothing dooms it. */
  lemma StuckLimiterNeverFinishes(u: Setup, t0: nat, i: nat, c: nat) returns (events: seq<Event>, s: System)
    requires Matches(u) && u.broker.workers >= 1 && i < |u.broker.sources| && u.broker.sources[i] == [c]
    requires c < |u.broker.targets| && u.broker.targets[c] != [] && u.broker.targets[c][0] == Fallback(c)
    requires !Ticking(u.limits[c][0]) && Capacity(u.limits[c][0]) < U64
    ensures AllOk(events) && Came(u, t0, events, s) && s.broker.sourceStop && !Doomed(s.broker)
    ensures Fit(u, s) && !CanFinish(u, s)
  {
    hide Next, Inv, Kept, Exec, Leads, Doomed;
    s := SecondWaits(u, t0, i, c);
    events := RunTo(u, t0, s);
    CameReached(u, t0, events, s);
    ReachedInv(u.broker, Moves(events), s.broker);
    NothingWrong(u, s, c);
    forall more | Exec(u, s, more).Some?
      ensures !Exec(u, s, more).value.broker.main.Returned?
    {
      CorneredForever(u, s, more);
    }
  }

  lemma SecondWaits(u: Setup, t0: nat, i: nat, c: nat) returns (s: System)
    requires Matches(u) && u.broker.workers >= 1 && i < |u.broker.sources| && u.broker.sources[i] == [c]
    requires c < |u.broker.targets| && u.broker.targets[c] != [] && u.broker.targets[c][0] == Fallback(c)
    requires !Ticking(u.limits[c][0]) && Capacity(u.limits[c][0]) < U64
    ensures Fit(u, Start(u, t0)) && Fit(u, s) && Leads(u, Start(u, t0), s) && s.broker.sourceStop
    ensures s.broker.leaks == []
    ensures s.broker.connectors[c].CParsing?
    ensures (forall d :: 0 <= d < |s.broker.connectors| && d != c ==> s.broker.connectors[d].CIdle?)
    ensures |s.broker.workers| > 0 && s.broker.workers[0] == WFanning(1, SourceToBroker(i, [c], ""), 1)
    ensures forall w :: 1 <= w < |s.broker.workers| ==> s.broker.workers[w].WIdle?
    ensures forall j :: 0 <= j < |s.broker.sources| ==> !AtSource(s.broker.sources[j])
    ensures Cornered(u, s)
  {
    hide Leads, Next, NoResidue;
    var loaded := FirstDelivered(u, t0, i, c);
    var fed := Feed(u, loaded, i, 0, "");
    LeadsJoin(u, Start(u, t0), loaded, fed);
    var sent := FanTo(u, fed, 0);
    LeadsJoin(u, Start(u, t0), fed, sent);
    s := RequestIt(u, t0, sent);
    SelfCorner(u, s, c);
  }

  /** A message that has come to such a target is cornered there. */
  lemma SelfCorner(u: Setup, s: System, c: nat)
    requires Fit(u, s) && c < |u.limits| && |u.limits[c]| > 0 && u.broker.targets[c][0] == Fallback(c)
    requires !Ticking(u.limits[c][0]) && OverAt(u, s, c, 0) && s.broker.connectors[c].CParsing?
    ensures Cornered(u, s)
  {
    hide L.Over;
    assert Frozen(u, c, 0);
    assert Barrier(u, s, {c}, c, 0) && Within(s.broker.connectors[c], {c}, 0);
    assert Corner(u, s, {c}) && HasMessage(s.broker, {c});
  }

  lemma RequestIt(u: Setup, t0: nat, s: System) returns (t: System)
    requires Fit(u, Start(u, t0)) && Fit(u, s) && Leads(u, Start(u, t0), s)
    ensures Fit(u, t) && Leads(u, Start(u, t0), t) && t == s.(broker := s.broker.(sourceStop := true))
  {
    hide Leads;
    if s.broker.sourceStop {
      t := s;
    } else {
      t := Then(u, Start(u, t0), s, Main(RequestStop));
    }
  }

  /** The first message is delivered and brings the limiter over its limit for good. */
  lemma FirstDelivered(u: Setup, t0: nat, i: nat, c: nat) returns (s: System)
    requires Matches(u) && u.broker.workers >= 1 && i < |u.broker.sources| && u.broker.sources[i] == [c]
    requires c < |u.broker.targets| && u.broker.targets[c] != []
    requires !Ticking(u.limits[c][0]) && Capacity(u.limits[c][0]) < U64
    ensures Fit(u, Start(u, t0)) && Fit(u, s) && Leads(u, Start(u, t0), s) && OverAt(u, s, c, 0) && s.broker.leaks == []
    ensures NoneParked(s.broker.connectors) && s.broker.sources[i].SIdle? && |s.broker.accepted| == 1
    ensures forall w :: 0 <= w < |s.broker.workers| ==> s.broker.workers[w].WIdle?
    ensures forall j :: 0 <= j < |s.broker.sources| ==> !AtSource(s.broker.sources[j])
  {
    hide Leads, Next, NoResidue, Unused, L.Over;
    var ready := Ready(u, t0, i);
    StartUnused(u, t0);
    SameUnused(Start(u, t0), ready);
    var fed := Feed(u, ready, i, 0, seq(u.limits[c][0].limit + 1, _ => 'x'));
    LeadsJoin(u, Start(u, t0), ready, fed);
    var sent := FanTo(u, fed, 0);
    LeadsJoin(u, Start(u, t0), fed, sent);
    SameUnused(ready, sent);
    SameNoResidue(u, ready, sent);
    var done := DeliverFirst(u, sent, c);
    LeadsJoin(u, Start(u, t0), sent, done);
    s := EndFan(u, t0, done);
    StuckOver(u, t0, s, c);
  }

  lemma EndFan(u: Setup, t0: nat, s: System) returns (t: System)
    requires Fit(u, Start(u, t0)) && Fit(u, s) && Leads(u, Start(u, t0), s) && |s.broker.workers| > 0
    requires s.broker.workers[0].WFanning? && s.broker.workers[0].next == |s.broker.workers[0].msg.targets|
    ensures Fit(u, t) && Leads(u, Start(u, t0), t) && t.limiters == s.limiters
    ensures t.broker == s.broker.(workers := s.broker.workers[0 := WIdle])
  {
    hide Leads;
    t := Then(u, Start(u, t0), s, Worker(0, FanOut));
  }

  lemma StuckOver(u: Setup, t0: nat, s: System, c: nat)
    requires Matches(u) && Fit(u, s) && Fit(u, Start(u, t0)) && c < |u.limits| && |u.limits[c]| > 0
    requires !Ticking(u.limits[c][0]) && Capacity(u.limits[c][0]) < U64
    requires s.limiters == Start(u, t0).limiters[c := ChargeRow(Start(u, t0).limiters[c], u.limits[c][0].limit + 1)]
    ensures OverAt(u, s, c, 0)
  {
    var x, limit := s.limiters[c][0], u.limits[c][0];
    assert Start(u, t0).limiters[c][0] == L.NEW;
    assert x == L.Increment(L.NEW, limit.limit + 1);
    assert Wrap(limit.limit + 1) == limit.limit + 1;
    assert x.total + x.count == limit.limit + 1 && |x.items| == 0;
    L.MeanAbove(limit.limit + 1, 1, limit.limit);
  }

  lemma NothingWrong(u: Setup, s: System, c: nat)
    requires Fit(u, s) && Inv(u.broker, s.broker) && s.broker.leaks == [] && c < |s.broker.connectors|
    requires s.broker.connectors[c].CParsing?
    requires forall d :: 0 <= d < |s.broker.connectors| && d != c ==> s.broker.connectors[d].CIdle?
    requires |s.broker.workers| > 0 && s.broker.workers[0].WFanning?
    requires s.broker.workers[0].next == |s.broker.workers[0].msg.targets|
    requires forall w :: 1 <= w < |s.broker.workers| ==> s.broker.workers[w].WIdle?
    requires forall j :: 0 <= j < |s.broker.sources| ==> !AtSource(s.broker.sources[j])
    ensures !Doomed(s.broker)
  {
    hide Inv;
    assert AllLeaked(s.broker) == 0;
    forall d
      ensures !Traps(s.broker, d)
    {
      assert forall o :: !Waits(s.broker, o);
      if x :| x in d && x < |s.broker.connectors| {
        assert !DeadEnd(s.broker.connectors[x], d);
      }
    }
  }
}
