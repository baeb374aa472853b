/** The leader and failover locks that nomad clients take in Consul, one round at a time. */
module Failover {
  import opened Common

  type Node = string

  /** A Consul session. NOBODY is the empty session of a key that exists but is not held. */
  type Session = nat

  const NOBODY: Session := 0

  datatype Key = Leader(node: Node) | Standby(node: Node)

  /** Which session holds each existing key. */
  type Kv = map<Key, Session>

  function Get(kv: Kv, key: Key): Option<Session> {
    if key in kv then Some(kv[key]) else None
  }

  predicate CanAcquire(kv: Kv, key: Key, s: Session) {
    key !in kv || kv[key] == NOBODY || kv[key] == s
  }

  function Release(kv: Kv, key: Key, s: Session): Kv {
    if key in kv && kv[key] == s then kv[key := NOBODY] else kv
  }

  function Delete(kv: Kv, key: Key): Kv { kv - {key} }

  /** Sessions are created with behaviour "delete": expiry removes the keys they hold. */
  function Expire(kv: Kv, s: Session): Kv {
    map key | key in kv && kv[key] != s :: kv[key]
  }

  /** What each operation leaves of every key: an expired session's locks are free for anyone, and
      releasing a lock leaves its key, held by nobody. */
  lemma KeysAfter(kv: Kv, key: Key, other: Key, s: Session)
    requires s != NOBODY
    ensures Get(Expire(kv, s), other) == if Get(kv, other) == Some(s) then None else Get(kv, other)
    ensures Get(kv, key) == Some(s) ==> Get(Release(kv, key, s), key) == Some(NOBODY)
    ensures Get(kv, key) != Some(s) || other != key ==> Get(Release(kv, key, s), other) == Get(kv, other)
    ensures key !in Delete(kv, key) && (other != key ==> Get(Delete(kv, key), other) == Get(kv, other))
    ensures CanAcquire(kv, key, s) <==> Get(kv, key).None? || Get(kv, key) == Some(NOBODY) || Get(kv, key) == Some(s)
  {
  }

  datatype Client = Client(session: Session, home: Node, failover: bool)

  /** The locks after a scan, and the nodes it took over. */
  datatype Scan = Scan(kv: Kv, taken: seq<Node>)

  predicate HeldByOther(kv: Kv, key: Key, s: Session) { key in kv && kv[key] != s }

  predicate Held(kv: Kv, key: Key) { key in kv && kv[key] != NOBODY }

  /** The leader and the failover lock of n are not both held. */
  predicate Exclusive(kv: Kv, n: Node) { !(Held(kv, Leader(n)) && Held(kv, Standby(n))) }

  /** Which requests succeed when a client looks at a node. The client ignores their errors. */
  datatype Look = Look(node: Node, leader: bool, standby: bool, release: bool, delete: bool, acquire: bool)

  function Sure(n: Node): Look { Look(n, true, true, true, true, true) }

  function AllSure(nodes: seq<Node>): seq<Look> {
    seq(|nodes|, i requires 0 <= i < |nodes| => Sure(nodes[i]))
  }

  /** A failed read looks like a key that does not exist. */
  function Read(kv: Kv, key: Key, ok: bool): Option<Session> { if ok then Get(kv, key) else None }

  /** One round of the loop over the other nodes. */
  function VisitNode(kv: Kv, s: Session, look: Look): Scan {
    var n := look.node;
    var leader, standby := Read(kv, Leader(n), look.leader), Read(kv, Standby(n), look.standby);
    if leader.Some? && leader.value != s then
      if standby == Some(s) then
        var released := if look.release then Release(kv, Standby(n), s) else kv;
        Scan(if look.delete then Delete(released, Standby(n)) else released, [])
      else Scan(kv, [])
    else if standby.Some? && standby.value != s then Scan(kv, [])
    else if look.acquire && CanAcquire(kv, Standby(n), s) then Scan(kv[Standby(n) := s], [n])
    else Scan(kv, [])
  }

  /** The home node is skipped. */
  function VisitOther(kv: Kv, c: Client, look: Look): Scan {
    if look.node == c.home then Scan(kv, []) else VisitNode(kv, c.session, look)
  }

  function VisitNodes(kv: Kv, c: Client, looks: seq<Look>): Scan
    decreases |looks|
  {
    if looks == [] then Scan(kv, [])
    else
      var first := VisitOther(kv, c, looks[0]);
      var rest := VisitNodes(first.kv, c, looks[1..]);
      Scan(rest.kv, first.taken + rest.taken)
  }

  /** Taking the leader lock of the home node and deleting its failover lock, which may fail. */
  function LeadHome(kv: Kv, c: Client, cleared: bool): Kv {
    var led := kv[Leader(c.home) := c.session];
    if cleared then Delete(led, Standby(c.home)) else led
  }

  /** A whole uninterrupted getAllocations: None while the leader lock is someone else's. */
  function Round(kv: Kv, c: Client, cleared: bool, looks: seq<Look>): Option<Scan> {
    if !CanAcquire(kv, Leader(c.home), c.session) then None
    else
      var own := LeadHome(kv, c, cleared);
      var others := if c.failover then VisitNodes(own, c, looks) else Scan(own, []);
      Some(Scan(others.kv, [c.home] + others.taken))
  }

  // ----- What a round does to the two locks of a node -----

  /** c may run node n: neither lock is someone else's. */
  predicate Takes(kv: Kv, s: Session, n: Node) {
    !HeldByOther(kv, Leader(n), s) && !HeldByOther(kv, Standby(n), s)
  }

  /** The holder of n's failover lock after s has looked at it. */
  function StandbyAfter(kv: Kv, s: Session, n: Node): Option<Session> {
    if Takes(kv, s, n) then Some(s)
    else if HeldByOther(kv, Leader(n), s) && Get(kv, Standby(n)) == Some(s) then None
    else Get(kv, Standby(n))
  }

  /** A scan leaves leader locks alone, settles each listed node by its own two locks, and leaves
      every other node as it was. */
  lemma {:induction false} VisitEffect(kv: Kv, c: Client, nodes: seq<Node>, n: Node)
    ensures var r := VisitNodes(kv, c, AllSure(nodes));
            && Get(r.kv, Leader(n)) == Get(kv, Leader(n))
            && Get(r.kv, Standby(n)) ==
               (if n in nodes && n != c.home then StandbyAfter(kv, c.session, n) else Get(kv, Standby(n)))
            && (n in r.taken <==> n in nodes && n != c.home && Takes(kv, c.session, n))
    decreases |nodes|
  {
    if nodes != [] {
      var m := nodes[0];
      var first := if m == c.home then Scan(kv, []) else VisitNode(kv, c.session, Sure(m));
      assert AllSure(nodes)[1..] == AllSure(nodes[1..]);
      VisitEffect(first.kv, c, nodes[1..], n);
      assert n in nodes <==> n == m || n in nodes[1..];
    }
  }

  // ----- What failing requests change -----

  /** The holder of a failover lock gives it up where it sees that another client leads the node: the key
      is gone if the delete succeeds, left unheld if only the release does, and kept if neither. */
  lemma HolderGivesUp(kv: Kv, s: Session, look: Look, after: Kv)
    requires look.leader && look.standby && HeldByOther(kv, Leader(look.node), s) && s != NOBODY
    requires Get(kv, Standby(look.node)) == Some(s) && after == VisitNode(kv, s, look).kv
    ensures look.delete ==> Standby(look.node) !in after
    ensures !look.delete && look.release ==> Get(after, Standby(look.node)) == Some(NOBODY)
    ensures !look.delete && !look.release ==> after == kv
    ensures forall key :: key != Standby(look.node) ==> Get(after, key) == Get(kv, key)
  {
  }

  /** No node is looked at twice. */
  ghost predicate EachOnce(looks: seq<Look>) {
    forall i, j :: 0 <= i < j < |looks| ==> looks[i].node != looks[j].node
  }

  /** What a look does to a node depends on that node's two locks alone. */
  lemma LookIsLocal(kv: Kv, other: Kv, s: Session, look: Look)
    requires Get(kv, Leader(look.node)) == Get(other, Leader(look.node))
    requires Get(kv, Standby(look.node)) == Get(other, Standby(look.node))
    ensures Get(VisitNode(kv, s, look).kv, Standby(look.node)) == Get(VisitNode(other, s, look).kv, Standby(look.node))
    ensures VisitNode(kv, s, look).taken == VisitNode(other, s, look).taken
  {
  }

  lemma LookLeaves(kv: Kv, c: Client, look: Look, n: Node)
    ensures var v := VisitOther(kv, c, look);
            && Get(v.kv, Leader(n)) == Get(kv, Leader(n))
            && (look.node != n ==> Get(v.kv, Standby(n)) == Get(kv, Standby(n)) && n !in v.taken)
            && (look.node == c.home ==> v == Scan(kv, []))
  {
  }

  /** A scan leaves alone what it does not look at. */
  lemma {:induction false} UnseenStays(kv: Kv, c: Client, looks: seq<Look>, n: Node)
    ensures Get(VisitNodes(kv, c, looks).kv, Leader(n)) == Get(kv, Leader(n))
    ensures (forall i :: 0 <= i < |looks| ==> looks[i].node != n) || n == c.home ==>
              var r := VisitNodes(kv, c, looks);
              Get(r.kv, Standby(n)) == Get(kv, Standby(n)) && n !in r.taken
    decreases |looks|
  {
    hide VisitOther;
    if looks != [] {
      LookLeaves(kv, c, looks[0], n);
      UnseenStays(VisitOther(kv, c, looks[0]).kv, c, looks[1..], n);
    }
  }

  /** Whatever fails, a scan does to a node exactly what the look at it does. */
  lemma {:induction false} ScanIsLooks(kv: Kv, c: Client, looks: seq<Look>, k: nat)
    requires EachOnce(looks) && k < |looks| && looks[k].node != c.home
    ensures var n, r, v := looks[k].node, VisitNodes(kv, c, looks), VisitNode(kv, c.session, looks[k]);
            && Get(r.kv, Standby(n)) == Get(v.kv, Standby(n))
            && (n in r.taken <==> n in v.taken)
    decreases |looks|
  {
    hide VisitNode;
    var n := looks[k].node;
    var first := VisitOther(kv, c, looks[0]);
    if k == 0 {
      UnseenStays(first.kv, c, looks[1..], n);
    } else {
      LookLeaves(kv, c, looks[0], n);
      ScanIsLooks(first.kv, c, looks[1..], k - 1);
      LookIsLocal(kv, first.kv, c.session, looks[k]);
    }
  }

  /** What a look can do to a failover lock: take it if it can be had, or give up what the client has. */
  lemma LookFacts(kv: Kv, s: Session, look: Look)
    ensures var n, v := look.node, VisitNode(kv, s, look);
            && (n in v.taken ==>
                  && Get(v.kv, Standby(n)) == Some(s) && CanAcquire(kv, Standby(n), s)
                  && (look.leader ==> !HeldByOther(kv, Leader(n), s)))
            && (n !in v.taken ==>
                  || Get(v.kv, Standby(n)) == Get(kv, Standby(n))
                  || (Get(kv, Standby(n)) == Some(s) && HeldByOther(kv, Leader(n), s)
                      && (Get(v.kv, Standby(n)).None? || Get(v.kv, Standby(n)) == Some(NOBODY))))
  {
  }

  /** A round by c in which no request fails ends with c leading its home node alone; any other
      listed node is settled by what its two locks said before. */
  lemma RoundEffect(kv: Kv, c: Client, nodes: seq<Node>, n: Node)
    requires Round(kv, c, true, AllSure(nodes)).Some?
    ensures var r := Round(kv, c, true, AllSure(nodes)).value;
            && Get(r.kv, Leader(n)) == (if n == c.home then Some(c.session) else Get(kv, Leader(n)))
            && Get(r.kv, Standby(n)) ==
               (if n == c.home then None
                else if c.failover && n in nodes then StandbyAfter(kv, c.session, n)
                else Get(kv, Standby(n)))
            && (n in r.taken <==> n == c.home || (c.failover && n in nodes && Takes(kv, c.session, n)))
  {
    VisitEffect(LeadHome(kv, c, true), c, nodes, n);
  }

  // ----- The same as the client runs it -----

  /** Consul's key-value store. `ok` says whether a request gets through. */
  class Consul {
    var pairs: Kv

    constructor ()
      ensures pairs == map[]
    {
      pairs := map[];
    }

    method Acquire(key: Key, s: Session, ok: bool) returns (acquired: bool)
      modifies this
      ensures acquired <==> ok && (Get(old(pairs), key).None? || Get(old(pairs), key).value in {NOBODY, s})
      ensures pairs == if acquired then old(pairs)[key := s] else old(pairs)
    {
      acquired := ok && (key !in pairs || pairs[key] == NOBODY || pairs[key] == s);
      if acquired {
        pairs := pairs[key := s];
      }
    }

    method ReleaseKey(key: Key, s: Session, ok: bool)
      modifies this
      ensures pairs == if ok && Get(old(pairs), key) == Some(s) then old(pairs)[key := NOBODY] else old(pairs)
    {
      if ok && key in pairs && pairs[key] == s {
        pairs := pairs[key := NOBODY];
      }
    }

    method DeleteKey(key: Key, ok: bool)
      modifies this
      ensures pairs == if ok then old(pairs) - {key} else old(pairs)
    {
      if ok {
        pairs := pairs - {key};
      }
    }
  }

  /** The body of the loop over the other nodes. */
  method Visit(consul: Consul, s: Session, look: Look) returns (taken: seq<Node>)
    modifies consul
    ensures VisitNode(old(consul.pairs), s, look) == Scan(consul.pairs, taken)
    ensures var n, was := look.node, old(consul.pairs);
            look.leader && look.standby && HeldByOther(was, Leader(n), s) && Get(was, Standby(n)) == Some(s) ==>
              consul.pairs == if look.delete then was - {Standby(n)}
                              else if look.release then was[Standby(n) := NOBODY] else was
  {
    taken := [];
    var n := look.node;
    var existing, standby := Read(consul.pairs, Leader(n), look.leader), Read(consul.pairs, Standby(n), look.standby);
    if existing.Some? && existing.value != s {
      if standby == Some(s) {
        consul.ReleaseKey(Standby(n), s, look.release);
        consul.DeleteKey(Standby(n), look.delete);
      }
    } else if standby.None? || standby.value == s {
      var acquired := consul.Acquire(Standby(n), s, look.acquire);
      if acquired {
        taken := [n];
      }
    }
  }

  /** getAllocations up to the list of nodes to sync, running alone: a client without a node takes
      every node, and one whose leader lock is taken is still waiting (None). */
  method GetNodes(consul: Consul, c: Client, cleared: bool, looks: seq<Look>) returns (toSync: Option<seq<Node>>)
    modifies consul
    ensures c.home == "" ==> toSync == Some(Nodes(looks)) && consul.pairs == old(consul.pairs)
    ensures c.home != "" ==>
              match Round(old(consul.pairs), c, cleared, looks)
              case None => toSync.None? && consul.pairs == old(consul.pairs)
              case Some(r) => toSync == Some(r.taken) && consul.pairs == r.kv
  {
    if c.home == "" {
      return Some(Nodes(looks));
    }
    var acquired := consul.Acquire(Leader(c.home), c.session, true);
    if !acquired {
      return None;
    }
    consul.DeleteKey(Standby(c.home), cleared);
    var others := [];
    if c.failover {
      others := VisitAll(consul, c, looks);
    }
    toSync := Some([c.home] + others);
  }

  /** The nodes that are looked at. */
  function Nodes(looks: seq<Look>): seq<Node> {
    seq(|looks|, i requires 0 <= i < |looks| => looks[i].node)
  }

  lemma {:induction false} VisitOneMore(kv: Kv, c: Client, looks: seq<Look>, look: Look)
    ensures var done := VisitNodes(kv, c, looks);
            var last := VisitOther(done.kv, c, look);
            VisitNodes(kv, c, looks + [look]) == Scan(last.kv, done.taken + last.taken)
    decreases |looks|
  {
    hide VisitNode;
    if looks == [] {
      assert [look][1..] == [];
      assert VisitNodes(VisitOther(kv, c, look).kv, c, []) == Scan(VisitOther(kv, c, look).kv, []);
    } else {
      var first := VisitOther(kv, c, looks[0]);
      VisitOneMore(first.kv, c, looks[1..], look);
      assert (looks + [look])[1..] == looks[1..] + [look];
    }
  }

  method VisitAll(consul: Consul, c: Client, looks: seq<Look>) returns (taken: seq<Node>)
    modifies consul
    ensures VisitNodes(old(consul.pairs), c, looks) == Scan(consul.pairs, taken)
  {
    hide VisitNode;
    taken := [];
    var i := 0;
    while i < |looks|
      invariant 0 <= i <= |looks|
      invariant VisitNodes(old(consul.pairs), c, looks[..i]) == Scan(consul.pairs, taken)
    {
      VisitOneMore(old(consul.pairs), c, looks[..i], looks[i]);
      assert looks[..i] + [looks[i]] == looks[..i + 1];
      if looks[i].node != c.home {
        var more := Visit(consul, c.session, looks[i]);
        taken := taken + more;
      }
      i := i + 1;
    }
    assert looks[..i] == looks;
  }
}
