/** The allocation pool, which turns each new list of allocations into added and removed events,
    and the table of workers those events drive. */
module Allocations {

  /** An allocation is known by its ID; `modified` stands for the rest of it. */
  datatype Alloc = Alloc(id: string, modified: nat)

  datatype Event = Added(alloc: Alloc) | Removed(alloc: Alloc)

  ghost predicate Lists(allocs: seq<Alloc>, id: string) {
    exists i :: 0 <= i < |allocs| && allocs[i].id == id
  }

  /** One event per listed allocation that the pool lacks, in list order. */
  ghost function AddedEvents(pool: seq<Alloc>, allocs: seq<Alloc>): seq<Event> {
    if allocs == [] then []
    else
      var n := |allocs| - 1;
      AddedEvents(pool, allocs[..n]) + if Lists(pool, allocs[n].id) then [] else [Added(allocs[n])]
  }

  /** One event per pooled allocation that the list lacks, in pool order. */
  ghost function RemovedEvents(pool: seq<Alloc>, allocs: seq<Alloc>): seq<Event> {
    if pool == [] then []
    else
      var n := |pool| - 1;
      RemovedEvents(pool[..n], allocs) + if Lists(allocs, pool[n].id) then [] else [Removed(pool[n])]
  }

  ghost function SyncEvents(pool: seq<Alloc>, allocs: seq<Alloc>): seq<Event> {
    AddedEvents(pool, allocs) + RemovedEvents(pool, allocs)
  }

  lemma CountPushed<T>(s: seq<T>, x: T, e: T)
    ensures multiset(s + [x])[e] == multiset(s)[e] + if x == e then 1 else 0
  {
  }

  lemma CountLast<T>(s: seq<T>, e: T)
    requires s != []
    ensures multiset(s)[e] == multiset(s[..|s| - 1])[e] + if s[|s| - 1] == e then 1 else 0
  {
    assert s == s[..|s| - 1] + [s[|s| - 1]];
  }

  /** How often an allocation is to be announced: as often as it is listed and unknown by its ID. */
  lemma {:induction false} AddedCount(pool: seq<Alloc>, allocs: seq<Alloc>, e: Event)
    ensures multiset(AddedEvents(pool, allocs))[e] ==
            if e.Added? && !Lists(pool, e.alloc.id) then multiset(allocs)[e.alloc] else 0
  {
    if allocs != [] {
      var n := |allocs| - 1;
      var before, known := AddedEvents(pool, allocs[..n]), Lists(pool, allocs[n].id);
      AddedCount(pool, allocs[..n], e);
      assert AddedEvents(pool, allocs) == before + if known then [] else [Added(allocs[n])];
      CountLast(allocs, e.alloc);
      if known {
        assert AddedEvents(pool, allocs) == before;
      } else {
        CountPushed(before, Added(allocs[n]), e);
      }
    }
  }

  lemma {:induction false} RemovedCount(pool: seq<Alloc>, allocs: seq<Alloc>, e: Event)
    ensures multiset(RemovedEvents(pool, allocs))[e] ==
            if e.Removed? && !Lists(allocs, e.alloc.id) then multiset(pool)[e.alloc] else 0
  {
    if pool != [] {
      var n := |pool| - 1;
      var before, known := RemovedEvents(pool[..n], allocs), Lists(allocs, pool[n].id);
      RemovedCount(pool[..n], allocs, e);
      assert RemovedEvents(pool, allocs) == before + if known then [] else [Removed(pool[n])];
      CountLast(pool, e.alloc);
      if known {
        assert RemovedEvents(pool, allocs) == before;
      } else {
        CountPushed(before, Removed(pool[n]), e);
      }
    }
  }

  /** A Sync announces each listed allocation that the pool lacks by its ID, as it is listed and as often,
      and each pooled one that the list lacks, as it is pooled; all the added ones come first. */
  lemma SyncAnnounces(pool: seq<Alloc>, allocs: seq<Alloc>)
    ensures var events := SyncEvents(pool, allocs);
            && (forall a :: multiset(events)[Added(a)] == if Lists(pool, a.id) then 0 else multiset(allocs)[a])
            && (forall a :: multiset(events)[Removed(a)] == if Lists(allocs, a.id) then 0 else multiset(pool)[a])
            && (forall i, j :: 0 <= i < j < |events| && events[j].Added? ==> events[i].Added?)
  {
    var added, removed := AddedEvents(pool, allocs), RemovedEvents(pool, allocs);
    forall e: Event
      ensures multiset(added)[e] == if e.Added? && !Lists(pool, e.alloc.id) then multiset(allocs)[e.alloc] else 0
      ensures multiset(removed)[e] == if e.Removed? && !Lists(allocs, e.alloc.id) then multiset(pool)[e.alloc] else 0
    {
      AddedCount(pool, allocs, e);
      RemovedCount(pool, allocs, e);
    }
    assert multiset(SyncEvents(pool, allocs)) == multiset(added) + multiset(removed);
    forall i, j | 0 <= i < j < |SyncEvents(pool, allocs)| && SyncEvents(pool, allocs)[j].Added?
      ensures SyncEvents(pool, allocs)[i].Added?
    {
      KindsApart(pool, allocs);
    }
  }

  lemma KindsApart(pool: seq<Alloc>, allocs: seq<Alloc>)
    ensures forall e :: e in AddedEvents(pool, allocs) ==> e.Added?
    ensures forall e :: e in RemovedEvents(pool, allocs) ==> e.Removed?
  {
    forall e | e in AddedEvents(pool, allocs)
      ensures e.Added?
    {
      AddedCount(pool, allocs, e);
    }
    forall e | e in RemovedEvents(pool, allocs)
      ensures e.Removed?
    {
      RemovedCount(pool, allocs, e);
    }
  }

  method SliceContainsAllocation(alloc: Alloc, allocs: seq<Alloc>) returns (found: bool)
    ensures found <==> Lists(allocs, alloc.id)
  {
    for i := 0 to |allocs|
      invariant forall j :: 0 <= j < i ==> allocs[j].id != alloc.id
    {
      if allocs[i].id == alloc.id {
        return true;
      }
    }
    found := false;
  }

  class AllocationPool {
    var allocations: seq<Alloc>
    /** What has been sent on the two channels; they are unbuffered and have one sender and one
        receiver, so this is also the order of receipt. */
    var sent: seq<Event>

    constructor ()
      ensures allocations == [] && sent == []
    {
      allocations, sent := [], [];
    }

    method Has(alloc: Alloc) returns (has: bool)
      ensures has <==> Lists(allocations, alloc.id)
    {
      has := SliceContainsAllocation(alloc, allocations);
    }

    /** Adds first, then removes, then stores the list. */
    method Sync(allocs: seq<Alloc>)
      modifies this
      ensures allocations == allocs
      ensures sent == old(sent) + SyncEvents(old(allocations), allocs)
    {
      var i := 0;
      while i < |allocs|
        invariant 0 <= i <= |allocs| && allocations == old(allocations)
        invariant sent == old(sent) + AddedEvents(allocations, allocs[..i])
      {
        assert allocs[..i + 1][..i] == allocs[..i];
        var known := Has(allocs[i]);
        if !known {
          sent := sent + [Added(allocs[i])];
        }
        i := i + 1;
      }
      assert allocs[..i] == allocs;
      ghost var added := sent;
      var j := 0;
      while j < |allocations|
        invariant 0 <= j <= |allocations| && allocations == old(allocations)
        invariant sent == added + RemovedEvents(allocations[..j], allocs)
      {
        assert allocations[..j + 1][..j] == allocations[..j];
        var kept := SliceContainsAllocation(allocations[j], allocs);
        if !kept {
          sent := sent + [Removed(allocations[j])];
        }
        j := j + 1;
      }
      assert allocations[..j] == allocations;
      allocations := allocs;
    }
  }

  // ----- The worker table -----

  /** Workers are numbered as they are started; `closed` logs every close of a Stop channel. */
  datatype Table = Table(workers: map<string, nat>, started: nat, closed: seq<nat>)

  const EMPTY: Table := Table(map[], 0, [])

  /** Starts a worker for an added allocation; stops and removes that of a removed one, if any. */
  function Handle(t: Table, e: Event): Table {
    match e
    case Added(a) => Table(t.workers[a.id := t.started], t.started + 1, t.closed)
    case Removed(a) =>
      if a.id in t.workers then Table(t.workers - {a.id}, t.started, t.closed + [t.workers[a.id]]) else t
  }

  function HandleAll(t: Table, events: seq<Event>): Table {
    if events == [] then t else Handle(HandleAll(t, events[..|events| - 1]), events[|events| - 1])
  }

  class AllocationWorkers {
    var workers: map<string, nat>
    var started: nat
    var closed: seq<nat>

    constructor ()
      ensures View() == EMPTY
    {
      workers, started, closed := map[], 0, [];
    }

    function View(): Table
      reads this
    {
      Table(workers, started, closed)
    }

    method Add(a: Alloc)
      modifies this
      ensures workers == old(workers)[a.id := old(started)] && started == old(started) + 1 && closed == old(closed)
    {
      workers := workers[a.id := started];
      started := started + 1;
    }

    method Close(a: Alloc)
      modifies this
      ensures workers == old(workers) && started == old(started)
      ensures closed == old(closed) + if a.id in workers then [workers[a.id]] else []
    {
      if a.id in workers {
        closed := closed + [workers[a.id]];
      }
    }

    method Remove(a: Alloc)
      modifies this
      ensures workers == old(workers) - {a.id} && started == old(started) && closed == old(closed)
    {
      if a.id in workers {
        workers := workers - {a.id};
      }
    }

    /** The body of the loop in ReceiveLogs. */
    method OnEvent(e: Event)
      modifies this
      ensures View() == Handle(old(View()), e)
    {
      match e {
        case Added(a) => Add(a);
        case Removed(a) =>
          Close(a);
          Remove(a);
          assert a.id !in old(workers) ==> workers == old(workers);
      }
    }
  }

  // ----- What every event keeps -----

  ghost predicate Once(s: seq<nat>) { forall i, j :: 0 <= i < j < |s| ==> s[i] != s[j] }

  /** No Stop channel has been closed twice, and no worker in the table has been stopped. */
  ghost predicate TableOk(t: Table) {
    && Once(t.closed)
    && (forall i :: 0 <= i < |t.closed| ==> t.closed[i] < t.started)
    && (forall id :: id in t.workers ==> t.workers[id] < t.started && t.workers[id] !in t.closed)
    && (forall a, b :: a in t.workers && b in t.workers && a != b ==> t.workers[a] != t.workers[b])
  }

  lemma {:induction false} EventsKeepTable(t: Table, events: seq<Event>)
    requires TableOk(t)
    ensures TableOk(HandleAll(t, events))
  {
    if events != [] {
      EventsKeepTable(t, events[..|events| - 1]);
    }
  }

  lemma {:induction false} HandleJoin(t: Table, first: seq<Event>, second: seq<Event>)
    ensures HandleAll(t, first + second) == HandleAll(HandleAll(t, first), second)
  {
    if second == [] {
      assert first + second == first;
    } else {
      var n := |second| - 1;
      assert (first + second)[..|first + second| - 1] == first + second[..n];
      HandleJoin(t, first, second[..n]);
    }
  }

  lemma HandleOne(t: Table, events: seq<Event>, e: Event)
    ensures HandleAll(t, events + [e]) == Handle(HandleAll(t, events), e)
  {
    assert (events + [e])[..|events|] == events;
  }

  /** The table has a worker for exactly the pooled IDs. */
  ghost predicate Mirrors(t: Table, pool: seq<Alloc>) {
    forall id :: id in t.workers <==> Lists(pool, id)
  }

  lemma ListsLast(pool: seq<Alloc>, id: string)
    requires pool != []
    ensures var n := |pool| - 1; Lists(pool, id) <==> Lists(pool[..n], id) || pool[n].id == id
  {
  }

  /** Adding touches only IDs that the pool lacks. */
  lemma {:induction false} AddedEffect(t: Table, pool: seq<Alloc>, allocs: seq<Alloc>, id: string)
    ensures var u := HandleAll(t, AddedEvents(pool, allocs));
            && (id in u.workers <==> id in t.workers || (Lists(allocs, id) && !Lists(pool, id)))
            && (Lists(pool, id) && id in t.workers ==> u.workers[id] == t.workers[id])
            && u.closed == t.closed
  {
    if allocs != [] {
      var n := |allocs| - 1;
      AddedEffect(t, pool, allocs[..n], id);
      ListsLast(allocs, id);
      hide HandleAll, Lists;
      if Lists(pool, allocs[n].id) {
        assert AddedEvents(pool, allocs) == AddedEvents(pool, allocs[..n]);
      } else {
        HandleOne(t, AddedEvents(pool, allocs[..n]), Added(allocs[n]));
      }
    }
  }

  /** Removing touches only IDs that the list lacks. */
  lemma {:induction false} RemovedEffect(t: Table, pool: seq<Alloc>, allocs: seq<Alloc>, id: string)
    ensures var u := HandleAll(t, RemovedEvents(pool, allocs));
            && (id in u.workers <==> id in t.workers && (Lists(pool, id) ==> Lists(allocs, id)))
            && (id in u.workers ==> u.workers[id] == t.workers[id])
  {
    if pool != [] {
      var n := |pool| - 1;
      RemovedEffect(t, pool[..n], allocs, id);
      ListsLast(pool, id);
      hide HandleAll, Lists;
      if Lists(allocs, pool[n].id) {
        assert RemovedEvents(pool, allocs) == RemovedEvents(pool[..n], allocs);
      } else {
        HandleOne(t, RemovedEvents(pool[..n], allocs), Removed(pool[n]));
      }
    }
  }

  /** Once its events are handled, a Sync leaves the table with a worker for exactly the listed IDs,
      and every ID that was there before keeps its worker, duplicates in the lists or not. */
  lemma SyncMirrors(t: Table, pool: seq<Alloc>, allocs: seq<Alloc>)
    requires Mirrors(t, pool)
    ensures var u := HandleAll(t, SyncEvents(pool, allocs));
            && Mirrors(u, allocs)
            && forall id :: Lists(pool, id) && Lists(allocs, id) ==>
                 id in u.workers && id in t.workers && u.workers[id] == t.workers[id]
  {
    var mid := HandleAll(t, AddedEvents(pool, allocs));
    var u := HandleAll(t, SyncEvents(pool, allocs));
    HandleJoin(t, AddedEvents(pool, allocs), RemovedEvents(pool, allocs));
    forall id
      ensures id in u.workers <==> Lists(allocs, id)
      ensures Lists(pool, id) && Lists(allocs, id) ==>
                id in u.workers && id in t.workers && u.workers[id] == t.workers[id]
    {
      AddedEffect(t, pool, allocs, id);
      RemovedEffect(mid, pool, allocs, id);
    }
  }

  // ----- Workers that nobody can stop any more -----

  ghost predicate InTable(t: Table, w: nat) { exists id :: id in t.workers && t.workers[id] == w }

  /** Every started worker is in the table or has been stopped. */
  ghost predicate Accounted(t: Table) { forall w: nat :: w < t.started ==> InTable(t, w) || w in t.closed }

  /** No ID that the pool lacks is listed twice. */
  ghost predicate NewOnesOnce(pool: seq<Alloc>, allocs: seq<Alloc>) {
    forall i, j :: 0 <= i < j < |allocs| && !Lists(pool, allocs[i].id) ==> allocs[i].id != allocs[j].id
  }

  /** w has been started and is neither in the table nor stopped. */
  ghost predicate Orphan(t: Table, w: nat) { w < t.started && !InTable(t, w) && w !in t.closed }

  /** Nothing that is added or removed later brings w back. */
  ghost predicate OrphanAlways(t: Table, w: nat) { forall later :: Orphan(HandleAll(t, later), w) }

  lemma OrphanStays(t: Table, e: Event, w: nat)
    requires Orphan(t, w)
    ensures Orphan(Handle(t, e), w)
  {
    var u := Handle(t, e);
    forall id | id in u.workers
      ensures u.workers[id] != w
    {
      assert id in t.workers ==> InTable(t, t.workers[id]);
    }
  }

  /** An orphan stays one, whatever is added or removed later. */
  lemma {:induction false} OrphanForever(t: Table, events: seq<Event>, w: nat)
    requires Orphan(t, w)
    ensures Orphan(HandleAll(t, events), w)
  {
    if events != [] {
      OrphanForever(t, events[..|events| - 1], w);
      OrphanStays(HandleAll(t, events[..|events| - 1]), events[|events| - 1], w);
    }
  }

  lemma RemoveAccounted(t: Table, a: Alloc)
    requires Accounted(t)
    ensures Accounted(Handle(t, Removed(a)))
  {
    var u := Handle(t, Removed(a));
    forall w: nat | w < u.started
      ensures InTable(u, w) || w in u.closed
    {
      if id :| id in t.workers && t.workers[id] == w {
        if id == a.id {
          assert u.closed[|t.closed|] == w;
        } else {
          assert id in u.workers && u.workers[id] == w;
        }
      }
    }
  }

  /** Adding an ID that has a worker orphans that worker; adding any other ID orphans none. */
  lemma AddAccounted(t: Table, a: Alloc)
    requires Accounted(t) && TableOk(t)
    ensures a.id !in t.workers ==> Accounted(Handle(t, Added(a)))
    ensures a.id in t.workers ==> Orphan(Handle(t, Added(a)), t.workers[a.id])
  {
    var u := Handle(t, Added(a));
    if a.id in t.workers {
      assert u.workers[a.id] != t.workers[a.id];
    } else {
      forall w: nat | w < u.started
        ensures InTable(u, w) || w in u.closed
      {
        if w == t.started {
          assert u.workers[a.id] == w;
        } else if id :| id in t.workers && t.workers[id] == w {
          assert u.workers[id] == w;
        }
      }
    }
  }

  lemma {:induction false} RemovedAccounted(t: Table, pool: seq<Alloc>, allocs: seq<Alloc>)
    requires Accounted(t)
    ensures Accounted(HandleAll(t, RemovedEvents(pool, allocs)))
  {
    if pool != [] {
      var n := |pool| - 1;
      RemovedAccounted(t, pool[..n], allocs);
      if Lists(allocs, pool[n].id) {
        assert RemovedEvents(pool, allocs) == RemovedEvents(pool[..n], allocs);
      } else {
        HandleOne(t, RemovedEvents(pool[..n], allocs), Removed(pool[n]));
        RemoveAccounted(HandleAll(t, RemovedEvents(pool[..n], allocs)), pool[n]);
      }
    }
  }

  lemma {:induction false} AddedAccounted(t: Table, pool: seq<Alloc>, allocs: seq<Alloc>) returns (w: nat)
    requires Accounted(t) && TableOk(t) && Mirrors(t, pool)
    ensures var u := HandleAll(t, AddedEvents(pool, allocs));
            if NewOnesOnce(pool, allocs) then Accounted(u) else Orphan(u, w)
  {
    w := 0;
    if allocs != [] {
      var n := |allocs| - 1;
      var rest := allocs[..n];
      w := AddedAccounted(t, pool, rest);
      var mid := HandleAll(t, AddedEvents(pool, rest));
      EventsKeepTable(t, AddedEvents(pool, rest));
      AddedEffect(t, pool, rest, allocs[n].id);
      if Lists(pool, allocs[n].id) {
        assert AddedEvents(pool, allocs) == AddedEvents(pool, rest);
        LastKnown(pool, allocs);
      } else {
        HandleOne(t, AddedEvents(pool, rest), Added(allocs[n]));
        LastNew(pool, allocs);
        if NewOnesOnce(pool, rest) {
          AddAccounted(mid, allocs[n]);
          w := if allocs[n].id in mid.workers then mid.workers[allocs[n].id] else 0;
        } else {
          OrphanStays(mid, Added(allocs[n]), w);
        }
      }
    }
  }

  lemma LastKnown(pool: seq<Alloc>, allocs: seq<Alloc>)
    requires allocs != [] && Lists(pool, allocs[|allocs| - 1].id)
    ensures NewOnesOnce(pool, allocs) <==> NewOnesOnce(pool, allocs[..|allocs| - 1])
  {
    var rest := allocs[..|allocs| - 1];
    assert forall i :: 0 <= i < |rest| ==> rest[i] == allocs[i];
  }

  lemma LastNew(pool: seq<Alloc>, allocs: seq<Alloc>)
    requires allocs != [] && !Lists(pool, allocs[|allocs| - 1].id)
    ensures var rest, last := allocs[..|allocs| - 1], allocs[|allocs| - 1];
            NewOnesOnce(pool, allocs) <==> NewOnesOnce(pool, rest) && !Lists(rest, last.id)
  {
    var rest := allocs[..|allocs| - 1];
    assert forall i :: 0 <= i < |rest| ==> rest[i] == allocs[i];
  }

  /** After a Sync every started worker is still in the table or stopped exactly if no new ID was
      listed twice; otherwise some worker can never be stopped again. */
  lemma SyncAccountedIff(t: Table, pool: seq<Alloc>, allocs: seq<Alloc>)
    requires Accounted(t) && TableOk(t) && Mirrors(t, pool)
    ensures var u := HandleAll(t, SyncEvents(pool, allocs));
            && (Accounted(u) <==> NewOnesOnce(pool, allocs))
            && (!NewOnesOnce(pool, allocs) ==> exists w :: OrphanAlways(u, w))
  {
    var mid := HandleAll(t, AddedEvents(pool, allocs));
    var u := HandleAll(t, SyncEvents(pool, allocs));
    HandleJoin(t, AddedEvents(pool, allocs), RemovedEvents(pool, allocs));
    var w := AddedAccounted(t, pool, allocs);
    if NewOnesOnce(pool, allocs) {
      RemovedAccounted(mid, pool, allocs);
    } else {
      OrphanForever(mid, RemovedEvents(pool, allocs), w);
      forall later
        ensures Orphan(HandleAll(u, later), w)
      {
        OrphanForever(u, later, w);
      }
      assert OrphanAlways(u, w) && Orphan(HandleAll(u, []), w);
    }
  }

  // ----- Any sequence of Syncs -----

  ghost function SyncAll(t: Table, pool: seq<Alloc>, lists: seq<seq<Alloc>>): Table
    decreases |lists|
  {
    if lists == [] then t else SyncAll(HandleAll(t, SyncEvents(pool, lists[0])), lists[0], lists[1..])
  }

  /** The list of the latest Sync. */
  function Latest(pool: seq<Alloc>, lists: seq<seq<Alloc>>): seq<Alloc> {
    if lists == [] then pool else lists[|lists| - 1]
  }

  ghost predicate NoDuplicates(allocs: seq<Alloc>) {
    forall i, j :: 0 <= i < j < |allocs| ==> allocs[i].id != allocs[j].id
  }

  lemma {:induction false} SyncsMirror(t: Table, pool: seq<Alloc>, lists: seq<seq<Alloc>>)
    requires TableOk(t) && Mirrors(t, pool)
    ensures var u := SyncAll(t, pool, lists);
            && TableOk(u) && Mirrors(u, Latest(pool, lists))
            && (Accounted(t) && (forall k :: 0 <= k < |lists| ==> NoDuplicates(lists[k])) ==> Accounted(u))
    decreases |lists|
  {
    hide HandleAll, TableOk, Mirrors;
    if lists != [] {
      var next := HandleAll(t, SyncEvents(pool, lists[0]));
      EventsKeepTable(t, SyncEvents(pool, lists[0]));
      SyncMirrors(t, pool, lists[0]);
      if Accounted(t) {
        SyncAccountedIff(t, pool, lists[0]);
      }
      SyncsMirror(next, lists[0], lists[1..]);
    }
  }

  /** An ID that every list has keeps its worker throughout. */
  lemma {:induction false} SyncsKeepWorker(t: Table, pool: seq<Alloc>, lists: seq<seq<Alloc>>, id: string)
    requires Mirrors(t, pool) && Lists(pool, id) && forall k :: 0 <= k < |lists| ==> Lists(lists[k], id)
    ensures id in t.workers && id in SyncAll(t, pool, lists).workers
    ensures SyncAll(t, pool, lists).workers[id] == t.workers[id]
    decreases |lists|
  {
    if lists != [] {
      SyncMirrors(t, pool, lists[0]);
      SyncsKeepWorker(HandleAll(t, SyncEvents(pool, lists[0])), lists[0], lists[1..], id);
    }
  }

  lemma {:induction false} SyncsJoin(t: Table, pool: seq<Alloc>, first: seq<seq<Alloc>>, second: seq<seq<Alloc>>)
    ensures SyncAll(t, pool, first + second) == SyncAll(SyncAll(t, pool, first), Latest(pool, first), second)
    decreases |first|
  {
    hide HandleAll;
    if first == [] {
      assert first + second == second;
    } else {
      assert (first + second)[1..] == first[1..] + second;
      SyncsJoin(HandleAll(t, SyncEvents(pool, first[0])), first[0], first[1..], second);
    }
  }

  /** The list of Sync j and every later one has the ID. */
  ghost predicate ListedSince(lists: seq<seq<Alloc>>, j: nat, id: string) {
    j < |lists| && forall k :: j <= k < |lists| ==> Lists(lists[k], id)
  }

  lemma WorkerKeptSince(lists: seq<seq<Alloc>>, j: nat, id: string)
    requires ListedSince(lists, j, id)
    ensures var earlier, now := SyncAll(EMPTY, [], lists[..j + 1]), SyncAll(EMPTY, [], lists);
            id in earlier.workers && id in now.workers && now.workers[id] == earlier.workers[id]
  {
    hide SyncAll;
    SyncsMirror(EMPTY, [], lists[..j + 1]);
    assert lists[..j + 1] + lists[j + 1..] == lists;
    SyncsJoin(EMPTY, [], lists[..j + 1], lists[j + 1..]);
    SyncsKeepWorker(SyncAll(EMPTY, [], lists[..j + 1]), lists[j], lists[j + 1..], id);
  }

  /** The table mirrors the pool: after any sequence of Syncs from the start, with its events
      handled, the table has a worker for exactly the IDs of the latest list, no Stop channel was
      closed twice and no worker in the table is stopped; an ID that every list since Sync j has
      still has the worker it had then; with duplicate-free lists every worker ever started is in
      the table or stopped. */
  lemma TableMirrorsPool(lists: seq<seq<Alloc>>)
    ensures var u := SyncAll(EMPTY, [], lists);
            && TableOk(u) && Mirrors(u, Latest([], lists))
            && (forall j: nat, id :: ListedSince(lists, j, id) ==>
                  var earlier := SyncAll(EMPTY, [], lists[..j + 1]);
                  id in earlier.workers && id in u.workers && u.workers[id] == earlier.workers[id])
            && ((forall k :: 0 <= k < |lists| ==> NoDuplicates(lists[k])) ==> Accounted(u))
  {
    hide SyncAll;
    SyncsMirror(EMPTY, [], lists);
    forall j: nat, id | ListedSince(lists, j, id)
      ensures var earlier, u := SyncAll(EMPTY, [], lists[..j + 1]), SyncAll(EMPTY, [], lists);
              id in earlier.workers && id in u.workers && u.workers[id] == earlier.workers[id]
    {
      WorkerKeptSince(lists, j, id);
    }
  }
}
