/** How a target connector's rate limit rules admit messages. */
module Admission {
  import opened Common
  import opened Limiter
  import B = Broker

  /** A limiter and what happens when it is over. */
  datatype Rule = Rule(cfg: Settings, state: State, action: B.Breach)

  /** The rule turns a message away. */
  predicate Breached(r: Rule) { Over(r.cfg, r.state) && !r.action.Unhandled? }

  predicate Passes(rules: seq<Rule>) { forall i :: 0 <= i < |rules| ==> !Breached(rules[i]) }

  function Charge(r: Rule, bytes: nat): Rule { r.(state := Increment(r.state, bytes)) }

  function ChargeAll(rules: seq<Rule>, bytes: nat): seq<Rule> {
    seq(|rules|, i requires 0 <= i < |rules| => Charge(rules[i], bytes))
  }

  /** The rules after a message of that size has been offered: a delivery charges every rule. */
  function Offer(rules: seq<Rule>, bytes: nat): seq<Rule> {
    if Passes(rules) then ChargeAll(rules, bytes) else rules
  }

  /** A target connector's rules. */
  class Target {
    var rules: seq<Rule>

    constructor (rules: seq<Rule>)
      ensures this.rules == rules
    {
      this.rules := rules;
    }

    /** handleRateLimiting: the first rule that is over and says discard or fallback decides; if
        there is none the message passes. */
    method HandleRateLimiting() returns (decision: Option<B.Breach>)
      ensures decision.None? <==> Passes(rules)
      ensures decision.Some? ==>
                exists i :: 0 <= i < |rules| && Breached(rules[i]) && decision.value == rules[i].action
                  && forall j :: 0 <= j < i ==> !Breached(rules[j])
    {
      for i := 0 to |rules|
        invariant forall j :: 0 <= j < i ==> !Breached(rules[j])
      {
        var rule := rules[i];
        if Over(rule.cfg, rule.state) {
          match rule.action {
            case Discard => return Some(rule.action);
            case Fallback(_) => return Some(rule.action);
            case Unhandled =>
          }
        }
      }
      decision := None;
    }

    /** After an acknowledgement every rule's limiter counts the message. */
    method Acknowledged(bytes: nat)
      modifies this
      ensures rules == ChargeAll(old(rules), bytes)
    {
      var i := 0;
      while i < |rules|
        invariant 0 <= i <= |rules| == |old(rules)|
        invariant forall j :: 0 <= j < i ==> rules[j] == Charge(old(rules)[j], bytes)
        invariant forall j :: i <= j < |rules| ==> rules[j] == old(rules)[j]
      {
        rules := rules[i := Charge(rules[i], bytes)];
        i := i + 1;
      }
    }

    /** One message, written and acknowledged if the rules let it pass. */
    method Process(bytes: nat) returns (delivered: bool)
      modifies this
      ensures delivered <==> Passes(old(rules))
      ensures rules == Offer(old(rules), bytes)
    {
      var decision := HandleRateLimiting();
      delivered := decision.None?;
      if delivered {
        Acknowledged(bytes);
      }
    }
  }

  /** The rules after a run of messages without a tick in between. */
  function OfferAll(rules: seq<Rule>, sizes: seq<nat>): seq<Rule>
    decreases |sizes|
  {
    if sizes == [] then rules else OfferAll(Offer(rules, sizes[0]), sizes[1..])
  }

  function Sum(sizes: seq<nat>): nat { if sizes == [] then 0 else sizes[0] + Sum(sizes[1..]) }

  /** The counters have room for `more` bytes. */
  ghost predicate Room(rules: seq<Rule>, more: nat) {
    forall i :: 0 <= i < |rules| ==> rules[i].state.total + rules[i].state.count + more < U64
  }

  /** Stored total and running count of a rule. */
  function Load(r: Rule): nat { r.state.total + r.state.count }

  /** One more than the limit, for every bucket and the running count. */
  function Capacity(r: Rule): nat { (r.cfg.limit + 1) * (|r.state.items| + 1) }

  /** The rules as they were, apart from their running counts. */
  predicate SameRules(a: seq<Rule>, b: seq<Rule>) {
    |a| == |b| && forall i :: 0 <= i < |a| ==>
      a[i].cfg == b[i].cfg && a[i].action == b[i].action && a[i].state.(count := 0) == b[i].state.(count := 0)
  }

  lemma OfferStep(rules: seq<Rule>, bytes: nat, more: nat)
    requires Room(rules, bytes + more)
    ensures SameRules(Offer(rules, bytes), rules) && Room(Offer(rules, bytes), more)
    ensures forall i :: 0 <= i < |rules| ==>
              Load(Offer(rules, bytes)[i]) == Load(rules[i]) + (if Passes(rules) then bytes else 0)
  {
  }

  /** Admission bound: between two ticks, right after any delivery in any sequence of messages, the
      load of every rule that discards or falls back is below its capacity plus the size of that
      delivery; a message that is turned away leaves the load as it was. */
  lemma {:induction false} AdmissionBound(rules: seq<Rule>, sizes: seq<nat>, bytes: nat, i: nat)
    requires Room(rules, Sum(sizes) + bytes) && i < |rules| && !rules[i].action.Unhandled?
    ensures var before := OfferAll(rules, sizes);
            var after := Offer(before, bytes);
            && SameRules(after, rules)
            && (Passes(before) ==> Load(after[i]) < Capacity(rules[i]) + bytes)
            && (!Passes(before) ==> after == before)
    decreases |sizes|
  {
    if sizes == [] {
      OfferStep(rules, bytes, 0);
      OverIff(rules[i].cfg, rules[i].state);
      assert Passes(rules) ==> !Breached(rules[i]);
    } else {
      OfferStep(rules, sizes[0], Sum(sizes[1..]) + bytes);
      AdmissionBound(Offer(rules, sizes[0]), sizes[1..], bytes, i);
    }
  }
}
