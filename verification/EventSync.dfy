/** Sending each allocation event once: a worker looks its mark up in Consul, sends the event, and
    then marks it. Requests may fail and workers may crash between any two of them. */
module EventSync {
  import opened Common
  import opened Sums

  /** A synced-events key: the allocation and the hash of the event. */
  datatype EventKey = EventKey(alloc: string, hash: nat)

  datatype Pc = Idle | Sending(key: EventKey) | Marking(key: EventKey)

  /** What a worker has done about one key. A failed lookup reads as "not marked".
      `lateGets`: lookups that failed although the key was marked. `lost`: marks that failed, or were
      cut off by a crash after the send, while the key was not marked. `earlyCrashes` and
      `lateCrashes`: crashes between lookup and send, before and after the key was marked. */
  datatype Tally = Tally(
    seen: nat, sent: nat, marks: nat, lateGets: nat, lost: nat, earlyCrashes: nat, lateCrashes: nat)

  const NONE: Tally := Tally(0, 0, 0, 0, 0, 0, 0)

  datatype Worker = Worker(pc: Pc, tallies: map<EventKey, Tally>)

  /** `sent` is what the receiver got, in order. */
  datatype State = State(marked: set<EventKey>, workers: seq<Worker>, sent: seq<EventKey>)

  datatype Action =
    | Check(worker: nat, key: EventKey, getOk: bool)
    | Send(worker: nat)
    | Mark(worker: nat, ok: bool)
    | Crash(worker: nat)

  function TallyOf(w: Worker, k: EventKey): Tally { if k in w.tallies then w.tallies[k] else NONE }

  function Noted(w: Worker, pc: Pc, k: EventKey, tally: Tally): Worker { Worker(pc, w.tallies[k := tally]) }

  function CheckEvent(marked: set<EventKey>, w: Worker, k: EventKey, getOk: bool): Worker {
    var t := TallyOf(w, k);
    var seen := t.(seen := t.seen + 1, lateGets := t.lateGets + One(!getOk && k in marked));
    Noted(w, if getOk && k in marked then Idle else Sending(k), k, seen)
  }

  function Step(s: State, a: Action): Option<State> {
    if a.worker >= |s.workers| then None
    else
      var w := s.workers[a.worker];
      match a
      case Check(i, k, getOk) =>
        if w.pc.Idle? then Some(s.(workers := s.workers[i := CheckEvent(s.marked, w, k, getOk)])) else None
      case Send(i) =>
        if w.pc.Sending? then
          var t := TallyOf(w, w.pc.key);
          var sending := Noted(w, Marking(w.pc.key), w.pc.key, t.(sent := t.sent + 1));
          Some(s.(workers := s.workers[i := sending], sent := s.sent + [w.pc.key]))
        else None
      case Mark(i, ok) =>
        if w.pc.Marking? then
          var t := TallyOf(w, w.pc.key);
          if ok then
            var marking := Noted(w, Idle, w.pc.key, t.(marks := t.marks + 1));
            Some(s.(workers := s.workers[i := marking], marked := s.marked + {w.pc.key}))
          else Some(s.(workers := s.workers[i := LoseMark(s.marked, w)]))
        else None
      case Crash(i) => Some(s.(workers := s.workers[i := CrashWorker(s.marked, w)]))
  }

  /** The send goes unrecorded, which matters if the key has no mark yet. */
  function LoseMark(marked: set<EventKey>, w: Worker): Worker
    requires w.pc.Marking?
  {
    var t := TallyOf(w, w.pc.key);
    Noted(w, Idle, w.pc.key, t.(lost := t.lost + One(w.pc.key !in marked)))
  }

  function CrashWorker(marked: set<EventKey>, w: Worker): Worker {
    match w.pc
    case Idle => w
    case Marking(_) => LoseMark(marked, w)
    case Sending(k) =>
      var t := TallyOf(w, k);
      Noted(w, Idle, k,
            if k in marked then t.(lateCrashes := t.lateCrashes + 1) else t.(earlyCrashes := t.earlyCrashes + 1))
  }

  function Run(s: State, acts: seq<Action>): Option<State>
    decreases |acts|
  {
    if acts == [] then Some(s)
    else
      var next := Step(s, acts[0]);
      if next.None? then None else Run(next.value, acts[1..])
  }

  /** n workers, nothing marked or sent. */
  function Init(n: nat): State { State({}, seq(n, _ => Worker(Idle, map[])), []) }

  // ----- What every step keeps -----

  predicate Busy(w: Worker, k: EventKey) { !w.pc.Idle? && w.pc.key == k }

  /** Sends of k by w that its tally accounts for: one for the mark, or for being on the way to it,
      and one for every lost mark and every late failed lookup that no crash cut off. */
  predicate Tight(marked: set<EventKey>, w: Worker, k: EventKey) {
    var t := TallyOf(w, k);
    && t.sent + One(w.pc == Sending(k)) + t.lateCrashes == t.lost + t.lateGets + One(k in marked || Busy(w, k))
    && t.lateCrashes + One(w.pc == Sending(k) && k in marked) <= t.lateGets
  }

  /** A worker's books on k. With several workers a mark may be another worker's. */
  predicate Books(marked: set<EventKey>, w: Worker, k: EventKey) {
    var t := TallyOf(w, k);
    && t.sent + One(w.pc == Sending(k)) + t.lateCrashes <= t.lost + t.lateGets + One(k in marked || Busy(w, k))
    && t.marks + One(w.pc == Marking(k)) <= t.sent
    && (t.marks > 0 ==> k in marked)
    && (t.seen > 0 ==> k in marked || Busy(w, k) || t.lost + t.earlyCrashes > 0)
  }

  ghost function SentOf(k: EventKey): (nat, Worker) -> nat { (_, w: Worker) => TallyOf(w, k).sent }

  function Count(log: seq<EventKey>, k: EventKey): nat {
    if log == [] then 0 else Count(log[..|log| - 1], k) + One(log[|log| - 1] == k)
  }

  ghost predicate Inv(s: State, k: EventKey) {
    && (forall i :: 0 <= i < |s.workers| ==> Books(s.marked, s.workers[i], k))
    && (|s.workers| == 1 ==> Tight(s.marked, s.workers[0], k))
    && Count(s.sent, k) == Total(s.workers, SentOf(k))
    && (k in s.marked ==> exists i :: 0 <= i < |s.workers| && TallyOf(s.workers[i], k).marks > 0)
  }

  lemma StepBooks(s: State, a: Action, k: EventKey)
    requires Inv(s, k) && Step(s, a).Some?
    ensures var t := Step(s, a).value;
            && (forall i :: 0 <= i < |t.workers| ==> Books(t.marked, t.workers[i], k))
            && (|t.workers| == 1 ==> Tight(t.marked, t.workers[0], k))
  {
    hide Total, Count, Books, Tight, Step;
    var t := Step(s, a).value;
    StepLeaves(s, a);
    if |t.workers| == 1 {
      MoverTight(s, a, k);
    }
    forall i | 0 <= i < |t.workers|
      ensures Books(t.marked, t.workers[i], k)
    {
      assert Books(s.marked, s.workers[i], k);
      if i == a.worker {
        MoverBooks(s, a, k);
      } else {
        MoreMarked(s.marked, t.marked, s.workers[i], k);
      }
    }
  }

  lemma StepLeaves(s: State, a: Action)
    requires Step(s, a).Some?
    ensures var t := Step(s, a).value;
            && |t.workers| == |s.workers| && a.worker < |s.workers| && s.marked <= t.marked
            && forall i :: 0 <= i < |s.workers| && i != a.worker ==> t.workers[i] == s.workers[i]
  {
  }

  lemma MoverBooks(s: State, a: Action, k: EventKey)
    requires Step(s, a).Some? && Books(s.marked, s.workers[a.worker], k)
    ensures Books(Step(s, a).value.marked, Step(s, a).value.workers[a.worker], k)
  {
  }

  lemma MoverTight(s: State, a: Action, k: EventKey)
    requires Step(s, a).Some? && Tight(s.marked, s.workers[a.worker], k)
    ensures Tight(Step(s, a).value.marked, Step(s, a).value.workers[a.worker], k)
  {
  }

  lemma MoreMarked(marked: set<EventKey>, more: set<EventKey>, w: Worker, k: EventKey)
    requires Books(marked, w, k) && marked <= more
    ensures Books(more, w, k)
  {
  }

  lemma StepMarks(s: State, a: Action, k: EventKey)
    requires Inv(s, k) && Step(s, a).Some?
    ensures var t := Step(s, a).value;
            k in t.marked ==> exists i :: 0 <= i < |t.workers| && TallyOf(t.workers[i], k).marks > 0
  {
    hide Total, Count, Books;
    var t := Step(s, a).value;
    if k in s.marked {
      var i :| 0 <= i < |s.workers| && TallyOf(s.workers[i], k).marks > 0;
      assert TallyOf(t.workers[i], k).marks > 0;
    } else if k in t.marked {
      assert TallyOf(t.workers[a.worker], k).marks > 0;
    }
  }

  lemma StepCount(s: State, a: Action, k: EventKey)
    requires Inv(s, k) && Step(s, a).Some?
    ensures Count(Step(s, a).value.sent, k) == Total(Step(s, a).value.workers, SentOf(k))
  {
    hide Total, Books;
    var t := Step(s, a).value;
    TotalUpdate(s.workers, a.worker, t.workers[a.worker], SentOf(k));
    if a.Send? {
      assert t.sent[..|s.sent|] == s.sent;
    }
  }

  lemma {:induction false} RunKeeps(s: State, acts: seq<Action>, k: EventKey)
    requires Inv(s, k) && Run(s, acts).Some?
    ensures Inv(Run(s, acts).value, k) && |Run(s, acts).value.workers| == |s.workers|
    decreases |acts|
  {
    if acts != [] {
      StepBooks(s, acts[0], k);
      StepMarks(s, acts[0], k);
      StepCount(s, acts[0], k);
      RunKeeps(Step(s, acts[0]).value, acts[1..], k);
    }
  }

  lemma InitInv(n: nat, k: EventKey)
    ensures Inv(Init(n), k)
  {
    TotalZero(Init(n).workers, SentOf(k));
  }

  /** A key is marked only after its event was sent, under any interleaving of workers, failures
      and crashes. */
  lemma MarkedOnlyAfterSent(n: nat, acts: seq<Action>, s: State, k: EventKey)
    requires Run(Init(n), acts) == Some(s) && k in s.marked
    ensures Count(s.sent, k) > 0
  {
    InitInv(n, k);
    RunKeeps(Init(n), acts, k);
    var i :| 0 <= i < |s.workers| && TallyOf(s.workers[i], k).marks > 0;
    assert Books(s.marked, s.workers[i], k);
    TotalAtLeast(s.workers, i, SentOf(k));
  }

  /** What can make a worker send k again: a lookup that fails although k is marked, and a mark
      that is lost while k is not. */
  function Mishaps(t: Tally): nat { t.lateGets + t.lost }

  ghost function MishapsOf(k: EventKey): (nat, Worker) -> nat { (_, w: Worker) => Mishaps(TallyOf(w, k)) }

  lemma {:induction false} SentBounded(marked: set<EventKey>, workers: seq<Worker>, k: EventKey)
    requires forall i :: 0 <= i < |workers| ==> Books(marked, workers[i], k)
    ensures Total(workers, SentOf(k)) <= |workers| + Total(workers, MishapsOf(k))
  {
    if workers != [] {
      var n := |workers| - 1;
      SentBounded(marked, workers[..n], k);
      assert Books(marked, workers[n], k);
    }
  }

  /** Event de-duplication: under any interleaving an event is sent at most once per worker, plus
      once for every late failed lookup and every lost mark. */
  lemma SentAtMost(n: nat, acts: seq<Action>, s: State, k: EventKey)
    requires Run(Init(n), acts) == Some(s)
    ensures Count(s.sent, k) <= n + Total(s.workers, MishapsOf(k))
  {
    InitInv(n, k);
    RunKeeps(Init(n), acts, k);
    SentBounded(s.marked, s.workers, k);
  }

  /** How often exactly, with one worker and whatever fails or crashes: once for the mark, once for
      every lost mark, and once for every late failed lookup that was not cut off by a crash. */
  lemma SentExactly(acts: seq<Action>, s: State, k: EventKey)
    requires Run(Init(1), acts) == Some(s)
    ensures |s.workers| == 1
    ensures var t := TallyOf(s.workers[0], k);
            && (!Busy(s.workers[0], k) ==> Count(s.sent, k) + t.lateCrashes == One(k in s.marked) + t.lost + t.lateGets)
            && (k in s.marked && !Busy(s.workers[0], k) ==>
                  (Count(s.sent, k) == 1 <==> t.lost == 0 && t.lateGets == t.lateCrashes))
  {
    InitInv(1, k);
    RunKeeps(Init(1), acts, k);
    assert s.workers[..0] == [];
  }

  const EVENT: EventKey := EventKey("alloc", 1)

  const LOOKUP_FAILS: seq<Action> := [Check(0, EVENT, true), Send(0), Mark(0, true), Check(0, EVENT, false), Send(0)]

  /** The one worker after the run: it looked twice, sent twice and marked once. */
  const RESENT: State :=
    State({EVENT}, [Worker(Marking(EVENT), map[EVENT := Tally(2, 2, 1, 1, 0, 0, 0)])], [EVENT, EVENT])

  function Alone(pc: Pc, t: Tally): seq<Worker> { [Worker(pc, map[EVENT := t])] }

  /** What a step of the one worker comes to. */
  lemma AloneStep(s: State, a: Action, pc: Pc, t: Tally)
    requires |s.workers| == 1 && a.worker == 0 && s.workers[0].tallies.Keys <= {EVENT}
    requires (a.Check? && a.key == EVENT) || (!s.workers[0].pc.Idle? && s.workers[0].pc.key == EVENT && !a.Check?)
    requires Step(s, a).Some? && Step(s, a).value.workers[0].pc == pc
    requires EVENT in Step(s, a).value.workers[0].tallies && Step(s, a).value.workers[0].tallies[EVENT] == t
    ensures Step(s, a).value.workers == Alone(pc, t)
  {
    var w := Step(s, a).value.workers[0];
    assert w.tallies.Keys == {EVENT};
    assert w.tallies == map[EVENT := t];
    assert |Step(s, a).value.workers| == 1;
  }

  lemma FirstSend()
    ensures Run(Init(1), LOOKUP_FAILS) ==
              Run(State({EVENT}, Alone(Idle, Tally(1, 1, 1, 0, 0, 0, 0)), [EVENT]), LOOKUP_FAILS[3..])
  {
    hide Run;
    AloneStep(Init(1), LOOKUP_FAILS[0], Sending(EVENT), Tally(1, 0, 0, 0, 0, 0, 0));
    RunHead(Init(1), LOOKUP_FAILS);
    var s1 := Step(Init(1), LOOKUP_FAILS[0]).value;
    AloneStep(s1, LOOKUP_FAILS[1], Marking(EVENT), Tally(1, 1, 0, 0, 0, 0, 0));
    assert LOOKUP_FAILS[1..][0] == LOOKUP_FAILS[1] && LOOKUP_FAILS[1..][1..] == LOOKUP_FAILS[2..];
    RunHead(s1, LOOKUP_FAILS[1..]);
    var s2 := Step(s1, LOOKUP_FAILS[1]).value;
    AloneStep(s2, LOOKUP_FAILS[2], Idle, Tally(1, 1, 1, 0, 0, 0, 0));
    assert LOOKUP_FAILS[2..][0] == LOOKUP_FAILS[2] && LOOKUP_FAILS[2..][1..] == LOOKUP_FAILS[3..];
    RunHead(s2, LOOKUP_FAILS[2..]);
    assert Step(s2, LOOKUP_FAILS[2]).value.marked == {EVENT} && Step(s2, LOOKUP_FAILS[2]).value.sent == [EVENT];
  }

  lemma SecondSend()
    ensures Run(State({EVENT}, Alone(Idle, Tally(1, 1, 1, 0, 0, 0, 0)), [EVENT]), LOOKUP_FAILS[3..]) == Some(RESENT)
  {
    hide Run;
    var s3 := State({EVENT}, Alone(Idle, Tally(1, 1, 1, 0, 0, 0, 0)), [EVENT]);
    AloneStep(s3, LOOKUP_FAILS[3], Sending(EVENT), Tally(2, 1, 1, 1, 0, 0, 0));
    assert LOOKUP_FAILS[3..][0] == LOOKUP_FAILS[3] && LOOKUP_FAILS[3..][1..] == LOOKUP_FAILS[4..];
    RunHead(s3, LOOKUP_FAILS[3..]);
    var s4 := Step(s3, LOOKUP_FAILS[3]).value;
    AloneStep(s4, LOOKUP_FAILS[4], Marking(EVENT), Tally(2, 2, 1, 1, 0, 0, 0));
    assert LOOKUP_FAILS[4..][0] == LOOKUP_FAILS[4] && LOOKUP_FAILS[4..][1..] == LOOKUP_FAILS[5..];
    RunHead(s4, LOOKUP_FAILS[4..]);
    assert Step(s4, LOOKUP_FAILS[4]).value.sent == [EVENT, EVENT];
    assert LOOKUP_FAILS[5..] == [];
    RunEmpty(RESENT);
  }

  lemma RunHead(s: State, acts: seq<Action>)
    requires acts != [] && Step(s, acts[0]).Some?
    ensures Run(s, acts) == Run(Step(s, acts[0]).value, acts[1..])
  {
  }

  lemma RunEmpty(s: State)
    ensures Run(s, []) == Some(s)
  {
  }

  /** Failed lookups have to be counted: one worker, no lost mark and no crash, and yet the event
      is sent twice. */
  lemma FailedLookupResends()
    ensures Run(Init(1), LOOKUP_FAILS) == Some(RESENT) && Count(RESENT.sent, EVENT) == 2
    ensures var t := TallyOf(RESENT.workers[0], EVENT);
            t.lost == 0 && t.earlyCrashes == 0 && t.lateCrashes == 0 && t.lateGets == 1
  {
    hide Run, Step;
    FirstSend();
    SecondSend();
    assert [EVENT, EVENT][..1] == [EVENT] && [EVENT][..0] == [];
    assert Count([EVENT], EVENT) == 1;
  }

  /** So a single worker sends every event it has looked at, and is done with, exactly once if no
      crash or lost mark came before the mark and every late failed lookup was cut off by a crash. */
  lemma SentExactlyOnce(acts: seq<Action>, s: State, k: EventKey)
    requires Run(Init(1), acts) == Some(s) && |s.workers| == 1 && !Busy(s.workers[0], k)
    requires var t := TallyOf(s.workers[0], k);
             t.seen > 0 && t.lost == 0 && t.earlyCrashes == 0 && t.lateGets == t.lateCrashes
    ensures Count(s.sent, k) == 1 && k in s.marked
  {
    InitInv(1, k);
    RunKeeps(Init(1), acts, k);
    assert Books(s.marked, s.workers[0], k);
    assert s.workers[..0] == [];
  }

  // ----- One round of the poll loop -----

  /** A task's switches and the hashes of its events. */
  datatype Task = Task(enabled: bool, watched: bool, hashes: seq<nat>)

  datatype Progress = Progress(marked: set<EventKey>, sent: seq<EventKey>)

  /** The keys a round looks at, in order. */
  function KeysOf(alloc: string, tasks: seq<Task>): seq<EventKey> {
    if tasks == [] then []
    else
      var earlier, last := KeysOf(alloc, tasks[..|tasks| - 1]), tasks[|tasks| - 1];
      if last.enabled && last.watched then earlier + Hashed(alloc, last.hashes) else earlier
  }

  function Hashed(alloc: string, hashes: seq<nat>): seq<EventKey> {
    seq(|hashes|, i requires 0 <= i < |hashes| => EventKey(alloc, hashes[i]))
  }

  /** The keys a round is about: an event of a task that is enabled and has its events watched. */
  ghost predicate Due(alloc: string, tasks: seq<Task>, k: EventKey) {
    exists t, i :: 0 <= t < |tasks| && 0 <= i < |tasks[t].hashes| && tasks[t].enabled && tasks[t].watched &&
                     k == EventKey(alloc, tasks[t].hashes[i])
  }

  lemma {:induction false} KeysAreDue(alloc: string, tasks: seq<Task>, k: EventKey)
    ensures k in KeysOf(alloc, tasks) <==> Due(alloc, tasks, k)
  {
    if tasks != [] {
      var n := |tasks| - 1;
      var last := tasks[n];
      KeysAreDue(alloc, tasks[..n], k);
      if k in Hashed(alloc, last.hashes) {
        var i :| 0 <= i < |last.hashes| && k == EventKey(alloc, last.hashes[i]);
        assert last.enabled && last.watched ==> k == EventKey(alloc, tasks[n].hashes[i]);
      }
      if Due(alloc, tasks, k) {
        var t, i :| 0 <= t < |tasks| && 0 <= i < |tasks[t].hashes| && tasks[t].enabled && tasks[t].watched &&
                      k == EventKey(alloc, tasks[t].hashes[i]);
        if t < n {
          assert tasks[..n][t] == tasks[t];
        } else {
          assert Hashed(alloc, last.hashes)[i] == k;
        }
      }
      if Due(alloc, tasks[..n], k) {
        var t, i :| 0 <= t < n && 0 <= i < |tasks[..n][t].hashes| && tasks[..n][t].enabled && tasks[..n][t].watched &&
                      k == EventKey(alloc, tasks[..n][t].hashes[i]);
        assert tasks[t] == tasks[..n][t];
      }
    }
  }

  /** Looking, sending and marking key after key, with nothing failing. */
  function Deliver(p: Progress, keys: seq<EventKey>): Progress {
    if keys == [] then p
    else
      var q := Deliver(p, keys[..|keys| - 1]);
      var k := keys[|keys| - 1];
      if k in q.marked then q else Progress(q.marked + {k}, q.sent + [k])
  }

  lemma {:induction false} DeliverJoin(p: Progress, first: seq<EventKey>, second: seq<EventKey>)
    ensures Deliver(p, first + second) == Deliver(Deliver(p, first), second)
  {
    if second == [] {
      assert first + second == first;
    } else {
      var n := |second| - 1;
      assert (first + second)[..|first + second| - 1] == first + second[..n];
      DeliverJoin(p, first, second[..n]);
    }
  }

  /** The log has every marked key once and no other. */
  ghost predicate InStep(p: Progress) { forall k :: Count(p.sent, k) == One(k in p.marked) }

  /** Rounds without failures, however many and whatever they list: an event is sent exactly once
      if some round lists it, and never otherwise. */
  lemma {:induction false} DeliveredOnce(p: Progress, keys: seq<EventKey>)
    requires InStep(p)
    ensures InStep(Deliver(p, keys))
    ensures forall k :: k in Deliver(p, keys).marked <==> k in p.marked || k in keys
  {
    if keys != [] {
      var n := |keys| - 1;
      DeliveredOnce(p, keys[..n]);
      var q := Deliver(p, keys[..n]);
      assert (q.sent + [keys[n]])[..|q.sent|] == q.sent;
      assert keys == keys[..n] + [keys[n]];
    }
  }

  lemma {:induction false} DeliverMarks(p: Progress, keys: seq<EventKey>, k: EventKey)
    ensures k in Deliver(p, keys).marked <==> k in p.marked || k in keys
  {
    if keys != [] {
      var n := |keys| - 1;
      DeliverMarks(p, keys[..n], k);
      assert keys == keys[..n] + [keys[n]];
    }
  }

  class EventWatcher {
    var marked: set<EventKey>
    var sent: seq<EventKey>

    constructor ()
      ensures marked == {} && sent == []
    {
      marked, sent := {}, [];
    }

    function View(): Progress
      reads this
    {
      Progress(marked, sent)
    }

    /** The inner loop: the events of one task. */
    method SendEvents(alloc: string, hashes: seq<nat>)
      modifies this
      ensures View() == Deliver(old(View()), Hashed(alloc, hashes))
    {
      ghost var keys := Hashed(alloc, hashes);
      var i := 0;
      while i < |hashes|
        invariant 0 <= i <= |hashes|
        invariant View() == Deliver(old(View()), keys[..i])
      {
        assert keys[..i + 1][..i] == keys[..i];
        var key := EventKey(alloc, hashes[i]);
        if key !in marked {
          sent := sent + [key];
          marked := marked + {key};
        }
        i := i + 1;
      }
      assert keys[..i] == keys;
    }

    /** A tick of watchAllocationEvents: the tasks in the order the map gives them. Exactly the events
        that are due get marked, and a log that has every marked key once goes on to do so. */
    method Poll(alloc: string, tasks: seq<Task>)
      modifies this
      ensures View() == Deliver(old(View()), KeysOf(alloc, tasks))
      ensures InStep(old(View())) ==> InStep(View())
      ensures forall k :: k in marked <==> k in old(marked) || Due(alloc, tasks, k)
    {
      var i := 0;
      while i < |tasks|
        invariant 0 <= i <= |tasks|
        invariant View() == Deliver(old(View()), KeysOf(alloc, tasks[..i]))
      {
        assert tasks[..i + 1][..i] == tasks[..i];
        if tasks[i].enabled && tasks[i].watched {
          DeliverJoin(old(View()), KeysOf(alloc, tasks[..i]), Hashed(alloc, tasks[i].hashes));
          SendEvents(alloc, tasks[i].hashes);
        }
        i := i + 1;
      }
      assert tasks[..i] == tasks;
      if InStep(old(View())) {
        DeliveredOnce(old(View()), KeysOf(alloc, tasks));
      }
      forall k
        ensures k in marked <==> k in old(marked) || Due(alloc, tasks, k)
      {
        DeliverMarks(old(View()), KeysOf(alloc, tasks), k);
        KeysAreDue(alloc, tasks, k);
      }
    }
  }
}
