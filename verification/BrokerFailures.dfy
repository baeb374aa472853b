/** What failures do to the goroutine they happen to: which of them end it for good, and which it gets
    over with nothing but the message lost. */
module BrokerFailures {
  import opened Common
  import opened Sums
  import opened Broker
  import opened BrokerInvariant
  import opened BrokerDoom

  // ----- Connectors that end -----

  /** Closed, or completing this delivery in order to close. */
  predicate EndingWith(pc: ConnectorPc, owed: Obligation) { Ending(pc) && (pc.CClosed? || pc.owed == owed) }

  lemma StepEnding(cfg: Config, s: State, a: Action, c: nat, owed: Obligation)
    requires Shaped(cfg, s) && Step(cfg, s, a).Some? && c < |s.connectors| && EndingWith(s.connectors[c], owed)
    ensures EndingWith(Step(cfg, s, a).value.connectors[c], owed)
    ensures s.connectors[c].CClosed? ==> Step(cfg, s, a).value.connectors[c].CClosed?
  {
    hide SourceStep, ConnectorStep;
    match a
    case Source(i, b) => SourceLeaves(cfg, s, i, b);
    case Connector(d, b) => ConnectorEnding(cfg, s, d, b, c, owed);
    case _ =>
  }

  lemma ConnectorEnding(cfg: Config, s: State, d: nat, a: ConnectorAct, c: nat, owed: Obligation)
    requires Shaped(cfg, s) && d < |s.connectors| && ConnectorStep(cfg, s, d, a).Some?
    requires c < |s.connectors| && EndingWith(s.connectors[c], owed)
    ensures EndingWith(ConnectorStep(cfg, s, d, a).value.connectors[c], owed)
    ensures s.connectors[c].CClosed? ==> ConnectorStep(cfg, s, d, a).value.connectors[c].CClosed?
  {
  }

  /** Whatever happens next, such a connector never has a message again. */
  lemma {:induction false} EndingForever(cfg: Config, s: State, c: nat, acts: seq<Action>)
    requires Shaped(cfg, s) && c < |s.connectors| && Ending(s.connectors[c]) && Run(cfg, s, acts).Some?
    ensures Ending(Run(cfg, s, acts).value.connectors[c]) && !Carries(Run(cfg, s, acts).value.connectors[c])
    ensures s.connectors[c].CClosed? ==> Run(cfg, s, acts).value.connectors[c].CClosed?
    decreases |acts|
  {
    hide Step;
    if acts != [] {
      StepEnding(cfg, s, acts[0], c, if s.connectors[c].CClosed? then Obligation(0, 0) else s.connectors[c].owed);
      EndingForever(cfg, Step(cfg, s, acts[0]).value, c, acts[1..]);
    }
  }

  /** A failed connection, a message that cannot be decoded and a failed write close the connector for
      good; the last two lose the message it had, and nothing else. */
  lemma FailureCloses(cfg: Config, s: State, c: nat, a: ConnectorAct, acts: seq<Action>)
    requires Shaped(cfg, s) && a in {Open(false), Parse(false), Write(false)} && Step(cfg, s, Connector(c, a)).Some?
    requires Run(cfg, Step(cfg, s, Connector(c, a)).value, acts).Some?
    ensures Run(cfg, Step(cfg, s, Connector(c, a)).value, acts).value.connectors[c].CClosed?
    ensures a != Open(false) ==> Carries(s.connectors[c])
    ensures a != Open(false) ==>
              forall o :: Leaked(Step(cfg, s, Connector(c, a)).value, o) ==
                          Leaked(s, o) + One(s.connectors[c].parcel.owed == o)
  {
    var t := Step(cfg, s, Connector(c, a)).value;
    if a != Open(false) {
      forall o
        ensures Leaked(t, o) == Leaked(s, o) + One(s.connectors[c].parcel.owed == o)
      {
        LeakOne(s, s.connectors[c].parcel.owed, o);
      }
    }
    EndingForever(cfg, t, c, acts);
  }

  /** A missing acknowledgement ends the connector: it completes that delivery and closes. */
  ghost predicate UnacknowledgedEnds(s: State) {
    forall k :: 0 <= k < |s.outcomes| && s.outcomes[k].result.Unacknowledged? ==>
      var r := s.outcomes[k];
      |r.route| > 0 && var c := r.route[|r.route| - 1];
      c < |s.connectors| && EndingWith(s.connectors[c], r.owed)
  }

  /** The step that settles a message, and what it leaves of the connector. */
  lemma NewOutcome(cfg: Config, s: State, a: Action)
    requires Shaped(cfg, s) && Sound(cfg, s) && Step(cfg, s, a).Some?
    ensures var t := Step(cfg, s, a).value;
            t.outcomes != s.outcomes ==>
              && |t.outcomes| == |s.outcomes| + 1 && t.outcomes[..|s.outcomes|] == s.outcomes
              && a.Connector? && a.connector < |s.connectors|
              && var r := t.outcomes[|s.outcomes|];
                 |r.route| > 0 && r.route[|r.route| - 1] == a.connector
                 && (r.result.Unacknowledged? ==> EndingWith(t.connectors[a.connector], r.owed))
  {
    hide SourceStep, WorkerStep, FallbackPath;
    if a.Source? {
      SourceSettlesNothing(cfg, s, a.source, a.srcAct);
    } else if a.Worker? {
      WorkerSettlesNothing(s, a.worker, a.wrkAct);
    } else if a.Connector? {
      assert ConnectorSound(cfg, s.accepted, a.connector, s.connectors[a.connector]);
    }
  }

  lemma SourceSettlesNothing(cfg: Config, s: State, i: nat, a: SourceAct)
    requires Shaped(cfg, s) && i < |s.sources| && SourceStep(cfg, s, i, a).Some?
    ensures SourceStep(cfg, s, i, a).value.outcomes == s.outcomes
  {
  }

  lemma WorkerSettlesNothing(s: State, w: nat, a: WorkerAct)
    requires w < |s.workers| && WorkerStep(s, w, a).Some?
    ensures WorkerStep(s, w, a).value.outcomes == s.outcomes
  {
  }

  lemma StepUnacknowledged(cfg: Config, s: State, a: Action)
    requires Shaped(cfg, s) && Sound(cfg, s) && UnacknowledgedEnds(s) && Step(cfg, s, a).Some?
    ensures UnacknowledgedEnds(Step(cfg, s, a).value)
  {
    hide Step, EndingWith, Sound;
    NewOutcome(cfg, s, a);
    var t := Step(cfg, s, a).value;
    forall k | 0 <= k < |t.outcomes| && t.outcomes[k].result.Unacknowledged?
      ensures var r := t.outcomes[k];
              |r.route| > 0 && var c := r.route[|r.route| - 1];
              c < |t.connectors| && EndingWith(t.connectors[c], r.owed)
    {
      if k < |s.outcomes| {
        var r := s.outcomes[k];
        assert t.outcomes[k] == r;
        StepEnding(cfg, s, a, r.route[|r.route| - 1], r.owed);
      }
    }
  }

  lemma {:induction false} RunUnacknowledged(cfg: Config, s: State, acts: seq<Action>)
    requires Inv(cfg, s) && UnacknowledgedEnds(s) && Run(cfg, s, acts).Some?
    ensures UnacknowledgedEnds(Run(cfg, s, acts).value)
    decreases |acts|
  {
    hide Balanced, Sound, Phased, UnacknowledgedEnds, Step;
    if acts != [] {
      StepInv(cfg, s, acts[0]);
      StepUnacknowledged(cfg, s, acts[0]);
      RunUnacknowledged(cfg, Step(cfg, s, acts[0]).value, acts[1..]);
    }
  }

  /** In every reachable state the connector that has missed an acknowledgement has closed or is
      completing that very delivery in order to close, and whatever happens next it never has a
      message again. */
  lemma MissedAcknowledgementEnds(cfg: Config, before: seq<Action>, s: State, k: nat, acts: seq<Action>)
    requires Reached(cfg, before, s) && k < |s.outcomes| && s.outcomes[k].result.Unacknowledged?
    requires Shaped(cfg, s) && Run(cfg, s, acts).Some?
    ensures |s.outcomes[k].route| > 0
    ensures var c := s.outcomes[k].route[|s.outcomes[k].route| - 1];
            && c < |s.connectors| && EndingWith(s.connectors[c], s.outcomes[k].owed)
            && Ending(Run(cfg, s, acts).value.connectors[c]) && !Carries(Run(cfg, s, acts).value.connectors[c])
  {
    hide Step, Balanced, Sound, Phased;
    InitInv(cfg);
    RunUnacknowledged(cfg, Init(cfg), before);
    EndingForever(cfg, s, s.outcomes[k].route[|s.outcomes[k].route| - 1], acts);
  }

  // ----- Connectors and workers that go on -----

  /** A rule that is over but cannot send the message on, for want of an encoding or of the target, loses
      it, and the connector goes on. */
  lemma FailedFallbackGoesOn(cfg: Config, s: State, c: nat, v: Verdict, o: Obligation)
    requires Shaped(cfg, s) && c < |s.connectors| && s.connectors[c].CLimiting? && !v.Under?
    requires s.connectors[c].rule < |cfg.targets[c]| && cfg.targets[c][s.connectors[c].rule].Fallback?
    requires v.OverUnmarshallable? || cfg.targets[c][s.connectors[c].rule].target >= |cfg.targets|
    ensures var t := Step(cfg, s, Connector(c, Check(v)));
            && t.Some? && t.value.connectors[c].CIdle? && t.value.outcomes == s.outcomes
            && Leaked(t.value, o) == Leaked(s, o) + One(s.connectors[c].parcel.owed == o)
  {
    LeakOne(s, s.connectors[c].parcel.owed, o);
  }

  /** A rule that discards settles the message, and the connector completes it and goes on. */
  lemma DiscardGoesOn(cfg: Config, s: State, c: nat)
    requires Shaped(cfg, s) && c < |s.connectors| && s.connectors[c].CLimiting?
    requires s.connectors[c].rule < |cfg.targets[c]| && cfg.targets[c][s.connectors[c].rule].Discard?
    ensures var t := Run(cfg, s, [Connector(c, Check(Over)), Connector(c, Uncount), Connector(c, Release)]);
            && t.Some? && t.value.connectors[c].CIdle? && |t.value.outcomes| == |s.outcomes| + 1
            && t.value.outcomes[|s.outcomes|].owed == s.connectors[c].parcel.owed
            && t.value.outcomes[|s.outcomes|].result.Discarded?
  {
    hide SourceStep, WorkerStep, MainStep, Wrap;
    var a, b, d := Connector(c, Check(Over)), Connector(c, Uncount), Connector(c, Release);
    var s1 := Step(cfg, s, a).value;
    var s2 := Step(cfg, s1, b).value;
    var s3 := Step(cfg, s2, d).value;
    hide Step;
    assert [a, b, d][1..] == [b, d] && [b, d][1..] == [d] && [d][1..] == [];
    assert Run(cfg, s3, []) == Some(s3);
    assert Run(cfg, s2, [d]) == Some(s3);
    assert Run(cfg, s1, [b, d]) == Some(s3);
  }

  /** A worker loses every entry of a message that it cannot decode, and goes on. */
  lemma UndecodedGoesOn(cfg: Config, s: State, w: nat, o: Obligation)
    requires Shaped(cfg, s) && w < |s.workers| && s.workers[w].WDecoding?
    ensures var t := Step(cfg, s, Worker(w, Decode(false)));
            && t.Some? && t.value.workers[w].WIdle? && t.value.connectors == s.connectors
            && Leaked(t.value, o) ==
               Leaked(s, o) + One(o.message == s.workers[w].id && o.entry < |s.workers[w].msg.targets|)
  {
    LeakMore(s, s.workers[w].id, 0, |s.workers[w].msg.targets|, o);
  }

  /** It loses an entry for a target that does not exist, and goes on with the next. */
  lemma UnknownTargetGoesOn(cfg: Config, s: State, w: nat, o: Obligation)
    requires Shaped(cfg, s) && w < |s.workers| && s.workers[w].WFanning?
    requires s.workers[w].next < |s.workers[w].msg.targets|
    requires s.workers[w].msg.targets[s.workers[w].next] >= |cfg.targets|
    ensures var t, pc := Step(cfg, s, Worker(w, FanOut)), s.workers[w];
            && t.Some? && t.value.workers[w] == pc.(next := pc.next + 1) && t.value.connectors == s.connectors
            && Leaked(t.value, o) == Leaked(s, o) + One(o == Obligation(pc.id, pc.next))
  {
    LeakOne(s, Obligation(s.workers[w].id, s.workers[w].next), o);
  }

  // ----- Sources -----

  lemma StepClosedSource(cfg: Config, s: State, a: Action, i: nat)
    requires Shaped(cfg, s) && Step(cfg, s, a).Some? && i < |s.sources| && s.sources[i].SClosed?
    ensures Step(cfg, s, a).value.sources[i].SClosed?
    ensures |s.accepted| <= |Step(cfg, s, a).value.accepted|
    ensures forall k :: |s.accepted| <= k < |Step(cfg, s, a).value.accepted| ==>
              Step(cfg, s, a).value.accepted[k].source != i
  {
    hide WorkerStep, ConnectorStep, MainStep;
    if !a.Source? {
      OthersAcceptNothing(cfg, s, a);
    }
  }

  lemma OthersAcceptNothing(cfg: Config, s: State, a: Action)
    requires Shaped(cfg, s) && Step(cfg, s, a).Some? && !a.Source?
    ensures Step(cfg, s, a).value.accepted == s.accepted && Step(cfg, s, a).value.sources == s.sources
    ensures s.sourceStop ==> Step(cfg, s, a).value.sourceStop
  {
  }

  lemma {:induction false} ClosedSourceForever(cfg: Config, s: State, i: nat, acts: seq<Action>)
    requires Shaped(cfg, s) && i < |s.sources| && s.sources[i].SClosed? && Run(cfg, s, acts).Some?
    ensures var t := Run(cfg, s, acts).value;
            && t.sources[i].SClosed? && |s.accepted| <= |t.accepted|
            && forall k :: |s.accepted| <= k < |t.accepted| ==> t.accepted[k].source != i
    decreases |acts|
  {
    hide Step;
    if acts != [] {
      StepClosedSource(cfg, s, acts[0], i);
      AcceptedGrows(cfg, Step(cfg, s, acts[0]).value, acts[1..]);
      ClosedSourceForever(cfg, Step(cfg, s, acts[0]).value, i, acts[1..]);
    }
  }

  lemma StepAccepted(cfg: Config, s: State, a: Action)
    requires Shaped(cfg, s) && Step(cfg, s, a).Some?
    ensures s.accepted <= Step(cfg, s, a).value.accepted
  {
  }

  lemma {:induction false} AcceptedGrows(cfg: Config, s: State, acts: seq<Action>)
    requires Shaped(cfg, s) && Run(cfg, s, acts).Some?
    ensures s.accepted <= Run(cfg, s, acts).value.accepted
    decreases |acts|
  {
    hide Step;
    if acts != [] {
      StepAccepted(cfg, s, acts[0]);
      AcceptedGrows(cfg, Step(cfg, s, acts[0]).value, acts[1..]);
    }
  }

  /** A failed connection, a failure and a stop close a source connector for good: it never accepts
      another message. */
  lemma SourceEnds(cfg: Config, s: State, i: nat, a: SourceAct, acts: seq<Action>)
    requires Shaped(cfg, s) && a in {Dial(false), Fail, Quit} && Step(cfg, s, Source(i, a)).Some?
    requires Run(cfg, Step(cfg, s, Source(i, a)).value, acts).Some?
    ensures var t := Run(cfg, Step(cfg, s, Source(i, a)).value, acts).value;
            && t.sources[i].SClosed? && |s.accepted| <= |t.accepted|
            && forall k :: |s.accepted| <= k < |t.accepted| ==> t.accepted[k].source != i
  {
    assert Step(cfg, s, Source(i, a)).value.accepted == s.accepted;
    ClosedSourceForever(cfg, Step(cfg, s, Source(i, a)).value, i, acts);
  }

  /** Nothing but these closes one. */
  predicate EndsSource(a: Action, i: nat) { a.Source? && a.source == i && a.srcAct in {Dial(false), Fail} }

  lemma StepSourceOpen(cfg: Config, s: State, a: Action, i: nat)
    requires Shaped(cfg, s) && Step(cfg, s, a).Some? && i < |s.sources| && !EndsSource(a, i)
    requires s.sources[i].SClosed? ==> s.sourceStop
    ensures Step(cfg, s, a).value.sources[i].SClosed? ==> Step(cfg, s, a).value.sourceStop
  {
    hide WorkerStep, ConnectorStep, MainStep;
    if !a.Source? {
      OthersAcceptNothing(cfg, s, a);
    }
  }

  lemma {:induction false} RunSourceOpen(cfg: Config, s: State, i: nat, acts: seq<Action>)
    requires Shaped(cfg, s) && i < |s.sources| && (s.sources[i].SClosed? ==> s.sourceStop) && Run(cfg, s, acts).Some?
    requires forall k :: 0 <= k < |acts| ==> !EndsSource(acts[k], i)
    ensures Run(cfg, s, acts).value.sources[i].SClosed? ==> Run(cfg, s, acts).value.sourceStop
    decreases |acts|
  {
    hide Step, EndsSource;
    if acts != [] {
      StepSourceOpen(cfg, s, acts[0], i);
      RunSourceOpen(cfg, Step(cfg, s, acts[0]).value, i, acts[1..]);
    }
  }

  /** A source connector that has not failed goes on until Broker.Stop is called, and Broker.Start goes on
      as long as it does. */
  lemma SourceGoesOn(cfg: Config, acts: seq<Action>, s: State, i: nat)
    requires Reached(cfg, acts, s) && !s.sourceStop && i < |cfg.sources|
    requires forall k :: 0 <= k < |acts| ==> !EndsSource(acts[k], i)
    ensures i < |s.sources| && !s.sources[i].SClosed? && s.main.WaitSources?
  {
    hide Balanced, Sound;
    RunSourceOpen(cfg, Init(cfg), i, acts);
    ReachedInv(cfg, acts, s);
  }
}
