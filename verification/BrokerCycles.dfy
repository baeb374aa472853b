/** Cycles of fallback rules, and what they have to do with connectors blocked in a ring. */
module BrokerCycles {
  import opened Common
  import opened Broker
  import opened BrokerInvariant
  import opened BrokerDoom

  ghost predicate Repeats(p: seq<Name>) { exists j, k :: 0 <= j < k < |p| && p[j] == p[k] }

  /** Fallback rules lead from t into a cycle. */
  ghost predicate ReachesCycle(cfg: Config, t: Name) {
    exists p :: FallbackPath(cfg, p) && |p| > 0 && p[0] == t && Repeats(p)
  }

  /** Some source lists a target from which fallback rules lead into a cycle. */
  ghost predicate ListsCycle(cfg: Config) {
    exists i, e :: 0 <= i < |cfg.sources| && 0 <= e < |cfg.sources[i]| && ReachesCycle(cfg, cfg.sources[i][e])
  }

  /** Fallback rules lead to t from a target that some source lists. */
  ghost predicate Reachable(cfg: Config, t: Name) {
    exists route :: |route| > 0 && FallbackPath(cfg, route) && Listed(cfg, route[0]) && route[|route| - 1] == t
  }

  predicate Listed(cfg: Config, t: Name) {
    exists i, e :: 0 <= i < |cfg.sources| && 0 <= e < |cfg.sources[i]| && cfg.sources[i][e] == t
  }

  /** No chain of fallback rules leads from a target back to itself. */
  ghost predicate Acyclic(cfg: Config) {
    forall p :: FallbackPath(cfg, p) && |p| >= 2 ==> p[0] != p[|p| - 1]
  }

  /** Rules without any cycle have none that a source could lead into. */
  lemma AcyclicListsNone(cfg: Config)
    requires Acyclic(cfg)
    ensures !ListsCycle(cfg)
  {
    if i, e :| 0 <= i < |cfg.sources| && 0 <= e < |cfg.sources[i]| && ReachesCycle(cfg, cfg.sources[i][e]) {
      var p :| FallbackPath(cfg, p) && |p| > 0 && p[0] == cfg.sources[i][e] && Repeats(p);
      var j, k :| 0 <= j < k < |p| && p[j] == p[k];
      SubPath(cfg, p, j, k);
    }
  }

  lemma SubPath(cfg: Config, p: seq<Name>, i: nat, j: nat)
    requires FallbackPath(cfg, p) && i <= j < |p|
    ensures FallbackPath(cfg, p[i..j + 1])
  {
    var q := p[i..j + 1];
    forall k | 0 <= k < |q| - 1
      ensures Edge(cfg, q[k], q[k + 1])
    {
      assert Edge(cfg, p[i + k], p[i + k + 1]);
    }
  }

  ghost function Below(n: nat): (r: set<nat>)
    ensures |r| == n && forall x: nat :: x in r <==> x < n
  {
    if n == 0 then {} else Below(n - 1) + {n - 1}
  }

  /** More than n numbers below n repeat one. */
  lemma {:induction false} Pigeonhole(p: seq<nat>, n: nat) returns (i: nat, j: nat)
    requires |p| > n && forall k :: 0 <= k < |p| ==> p[k] < n
    ensures i < j < |p| && p[i] == p[j]
  {
    if a, b :| 0 <= a < b < |p| && p[a] == p[b] {
      return a, b;
    }
    DistinctFit(p, Below(n));
    assert false;
  }

  lemma {:induction false} DistinctFit(p: seq<nat>, s: set<nat>)
    requires forall i, j :: 0 <= i < j < |p| ==> p[i] != p[j]
    requires forall k :: 0 <= k < |p| ==> p[k] in s
    ensures |p| <= |s|
  {
    if p != [] {
      var last := p[|p| - 1];
      DistinctFit(p[..|p| - 1], s - {last});
    }
  }

  lemma RingEdge(cfg: Config, s: State, d: set<nat>, c: nat)
    requires Shaped(cfg, s) && Sound(cfg, s) && Ring(s, d) && c in d
    ensures c < |s.connectors| && s.connectors[c].CBlocked?
    ensures s.connectors[c].to in d && Edge(cfg, c, s.connectors[c].to)
  {
    assert ConnectorSound(cfg, s.accepted, c, s.connectors[c]);
  }

  /** Following a ring from any member gives chains of any length. */
  lemma {:induction false} ChainInRing(cfg: Config, s: State, d: set<nat>, c: nat, n: nat) returns (p: seq<Name>)
    requires Shaped(cfg, s) && Sound(cfg, s) && Ring(s, d) && c in d
    ensures |p| == n + 1 && p[0] == c && FallbackPath(cfg, p) && forall k :: 0 <= k < |p| ==> p[k] in d
  {
    hide Sound;
    if n == 0 {
      p := [c];
    } else {
      p := ChainInRing(cfg, s, d, c, n - 1);
      var last := p[|p| - 1];
      RingEdge(cfg, s, d, last);
      RouteGrows(cfg, p, s.connectors[last].to);
      p := p + [s.connectors[last].to];
    }
  }

  lemma ListedRoute(cfg: Config, s: State, c: nat)
    requires Shaped(cfg, s) && Sound(cfg, s) && c < |s.connectors| && Carries(s.connectors[c])
    ensures var p := s.connectors[c].parcel;
            && p.owed.message < |s.accepted|
            && var i := s.accepted[p.owed.message].source;
               && i < |cfg.sources| && p.owed.entry < |cfg.sources[i]|
               && FallbackPath(cfg, p.route) && |p.route| > 0
               && p.route[0] == cfg.sources[i][p.owed.entry] && p.route[|p.route| - 1] == c
  {
    hide FallbackPath;
    assert ConnectorSound(cfg, s.accepted, c, s.connectors[c]);
  }

  lemma RouteIntoCycle(cfg: Config, route: seq<Name>, chain: seq<Name>, a: nat, b: nat)
    requires FallbackPath(cfg, route) && FallbackPath(cfg, chain) && |route| > 0 && a < b < |chain|
    requires route[|route| - 1] == chain[0] && chain[a] == chain[b]
    ensures ReachesCycle(cfg, route[0])
  {
    PathsJoin(cfg, route, chain);
    var p, r := route + chain[1..], |route| - 1;
    assert p[r + a] == chain[a] && p[r + b] == chain[b];
    assert Repeats(p);
  }

  /** Where a message is, some source can send one. */
  lemma CarrierReachable(cfg: Config, s: State, c: nat)
    requires Shaped(cfg, s) && Sound(cfg, s) && c < |s.connectors| && Carries(s.connectors[c])
    ensures Reachable(cfg, c)
  {
    ListedRoute(cfg, s, c);
    hide Sound, FallbackPath;
    var p := s.connectors[c].parcel;
    assert Listed(cfg, p.route[0]);
  }

  /** A chain from a reachable target that is longer than the number of targets leads into a cycle. */
  lemma LongChain(cfg: Config, t: Name, chain: seq<Name>)
    requires Reachable(cfg, t) && FallbackPath(cfg, chain) && |chain| > |cfg.targets| && chain[0] == t
    requires forall k :: 0 <= k < |chain| ==> chain[k] < |cfg.targets|
    ensures ListsCycle(cfg)
  {
    hide FallbackPath, ReachesCycle;
    var route :| |route| > 0 && FallbackPath(cfg, route) && Listed(cfg, route[0]) && route[|route| - 1] == t;
    var a, b := Pigeonhole(chain, |cfg.targets|);
    RouteIntoCycle(cfg, route, chain, a, b);
  }

  /** Connectors are only ever blocked in a ring where some source can lead into a cycle. */
  lemma RingHasCycle(cfg: Config, s: State, d: set<nat>)
    requires Shaped(cfg, s) && Sound(cfg, s) && Ring(s, d)
    ensures ListsCycle(cfg)
  {
    hide Sound;
    var c :| c in d;
    CarrierReachable(cfg, s, c);
    var chain := ChainInRing(cfg, s, d, c, |cfg.targets|);
    LongChain(cfg, c, chain);
  }

  lemma AcyclicHasNoRing(cfg: Config, s: State)
    requires Acyclic(cfg) && Shaped(cfg, s) && Sound(cfg, s)
    ensures NoRing(s)
  {
    AcyclicListsNone(cfg);
    if d :| Ring(s, d) {
      RingHasCycle(cfg, s, d);
    }
  }

  lemma PathsJoin(cfg: Config, p: seq<Name>, q: seq<Name>)
    requires FallbackPath(cfg, p) && FallbackPath(cfg, q) && |p| > 0 && |q| > 0 && p[|p| - 1] == q[0]
    ensures FallbackPath(cfg, p + q[1..])
  {
    var both, r := p + q[1..], |p| - 1;
    forall k | 0 <= k < |both| - 1
      ensures Edge(cfg, both[k], both[k + 1])
    {
      if k < r {
        assert Edge(cfg, p[k], p[k + 1]);
      } else {
        assert Edge(cfg, q[k - r], q[k - r + 1]);
      }
    }
  }
}
