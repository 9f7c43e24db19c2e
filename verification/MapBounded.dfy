/**
 * The bounded-concurrency map of the retrieval runner (`mapBounded`), as steps.
 *
 * A step is one stretch of one worker between two awaits: starting up to its first call, or storing the outcome it
 * waited for and going on to its next call. Any order of enabled steps is a run.
 */
module MapBounded {
  import opened Sequences

  /** What a call ends in; a call that throws leaves a discarded slot. */
  datatype Outcome<+R> = Resolved(value: R) | Discarded

  datatype Worker = Fresh | Awaiting(index: nat) | Done

  datatype Slot<+R> = Empty | Held(outcome: Outcome<R>)

  /** `claims` records, in order, the index of every call made. */
  datatype State<+R> = State(cursor: nat, out: seq<Slot<R>>, workers: seq<Worker>, claims: seq<nat>)

  datatype Step = Start(worker: nat) | Settle(worker: nat)

  function PoolSize(n: nat, limit: int): (size: nat)
    ensures size >= 1 && (size > 1 ==> size <= n && size <= limit)
            && (n >= 1 && limit >= 1 ==> size == n || size == limit)
  {
    var m := if limit < n then limit else n;
    if m > 1 then m else 1
  }

  function Initial<R>(n: nat, limit: int): State<R> {
    State(0, seq(n, _ => Empty), seq(PoolSize(n, limit), _ => Fresh), [])
  }

  /** Take the next index off the shared cursor, or stop when the items are used up. */
  function ClaimNext<R>(s: State<R>, w: nat): State<R>
    requires w < |s.workers|
  {
    if s.cursor < |s.out| then
      s.(cursor := s.cursor + 1, workers := s.workers[w := Awaiting(s.cursor)], claims := s.claims + [s.cursor])
    else
      s.(cursor := s.cursor + 1, workers := s.workers[w := Done])
  }

  predicate Enabled<R>(s: State<R>, step: Step) {
    step.worker < |s.workers|
    && match step
       case Start(w) => s.workers[w].Fresh?
       case Settle(w) => s.workers[w].Awaiting? && s.workers[w].index < |s.out|
  }

  /** `results[i]` is what the call on item `i` ends in. */
  function Apply<R>(results: seq<Outcome<R>>, s: State<R>, step: Step): State<R>
    requires Enabled(s, step) && |results| == |s.out|
  {
    match step
    case Start(w) => ClaimNext(s, w)
    case Settle(w) =>
      var i := s.workers[w].index;
      ClaimNext(s.(out := s.out[i := Held(results[i])]), w)
  }

  /** The state after the steps, if each of them was possible. */
  function Run<R>(results: seq<Outcome<R>>, limit: int, steps: seq<Step>): (r: Option<State<R>>)
    ensures r.Some? ==> |r.value.out| == |results|
  {
    if steps == [] then Some(Initial(|results|, limit))
    else
      match Run(results, limit, steps[..|steps| - 1])
      case None => None
      case Some(s) =>
        if Enabled(s, steps[|steps| - 1]) then Some(Apply(results, s, steps[|steps| - 1])) else None
  }

  predicate IsHeld<R>(slot: Slot<R>) { slot.Held? }
  predicate IsAwaiting(w: Worker) { w.Awaiting? }
  predicate IsFresh(w: Worker) { w.Fresh? }

  function InFlight<R>(s: State<R>): nat { CountIf(s.workers, IsAwaiting) }

  ghost predicate Awaited<R>(s: State<R>, i: nat) {
    exists w :: 0 <= w < |s.workers| && s.workers[w] == Awaiting(i)
  }

  ghost predicate Invariant<R>(results: seq<Outcome<R>>, limit: int, s: State<R>) {
    var n := |results|;
    && |s.out| == n && |s.workers| == PoolSize(n, limit)
    && |s.claims| == (if s.cursor < n then s.cursor else n)
    && (forall i :: 0 <= i < |s.claims| ==> s.claims[i] == i)
    && (forall v, w :: 0 <= v < w < |s.workers| && s.workers[v].Awaiting? ==> s.workers[w] != s.workers[v])
    && (forall w :: 0 <= w < |s.workers| && s.workers[w].Awaiting? ==> s.workers[w].index < |s.claims|)
    && (forall i :: 0 <= i < n ==> (s.out[i] == Empty || s.out[i] == Held(results[i])))
    && (forall i :: 0 <= i < n ==> (s.out[i] == Empty <==> i >= |s.claims| || Awaited(s, i)))
    && (forall w :: 0 <= w < |s.workers| && s.workers[w].Done? ==> s.cursor > n)
    && |s.claims| == CountIf(s.out, IsHeld) + InFlight(s)
  }

  lemma InitialInvariant<R>(results: seq<Outcome<R>>, limit: int)
    ensures Invariant(results, limit, Initial(|results|, limit))
  {
    var s: State<R> := Initial(|results|, limit);
    CountIfNone(s.out, IsHeld);
    CountIfNone(s.workers, IsAwaiting);
  }

  /** A worker that is not waiting for a call takes the next index. */
  lemma ClaimKeeps<R>(results: seq<Outcome<R>>, limit: int, s: State<R>, w: nat)
    requires w < |s.workers| && ClaimReady(results, limit, s, w)
    ensures Invariant(results, limit, ClaimNext(s, w))
  {
    var s' := ClaimNext(s, w);
    CountIfUpdate(s.workers, w, s'.workers[w], IsAwaiting);
    forall i | 0 <= i < |results| ensures s'.out[i] == Empty <==> i >= |s'.claims| || Awaited(s', i) {
      AwaitedAfterClaim(s, w, i);
    }
  }

  /** The invariant as it stands inside a stretch, when worker `w` holds nothing it waits for. */
  ghost predicate ClaimReady<R>(results: seq<Outcome<R>>, limit: int, s: State<R>, w: nat)
    requires w < |s.workers|
  {
    var n := |results|;
    && |s.out| == n && |s.workers| == PoolSize(n, limit)
    && |s.claims| == (if s.cursor < n then s.cursor else n)
    && (forall i :: 0 <= i < |s.claims| ==> s.claims[i] == i)
    && (forall u, v :: 0 <= u < v < |s.workers| && u != w && v != w && s.workers[u].Awaiting? ==>
          s.workers[v] != s.workers[u])
    && (forall v :: 0 <= v < |s.workers| && v != w && s.workers[v].Awaiting? ==> s.workers[v].index < |s.claims|)
    && (forall i :: 0 <= i < n ==> (s.out[i] == Empty || s.out[i] == Held(results[i])))
    && (forall i :: 0 <= i < n ==> (s.out[i] == Empty <==> i >= |s.claims| || AwaitedByOther(s, w, i)))
    && (forall v :: 0 <= v < |s.workers| && s.workers[v].Done? ==> s.cursor > n)
    && |s.claims| == CountIf(s.out, IsHeld) + InFlight(s) - if s.workers[w].Awaiting? then 1 else 0
  }

  ghost predicate AwaitedByOther<R>(s: State<R>, w: nat, i: nat) {
    exists v :: 0 <= v < |s.workers| && v != w && s.workers[v] == Awaiting(i)
  }

  lemma AwaitedAfterClaim<R>(s: State<R>, w: nat, i: nat)
    requires w < |s.workers|
    ensures Awaited(ClaimNext(s, w), i) <==> AwaitedByOther(s, w, i) || (s.cursor < |s.out| && i == s.cursor)
  {
    var s' := ClaimNext(s, w);
    if AwaitedByOther(s, w, i) {
      var v :| 0 <= v < |s.workers| && v != w && s.workers[v] == Awaiting(i);
      assert s'.workers[v] == Awaiting(i);
    }
    if s.cursor < |s.out| && i == s.cursor {
      assert s'.workers[w] == Awaiting(i);
    }
  }

  lemma StepKeeps<R>(results: seq<Outcome<R>>, limit: int, s: State<R>, step: Step)
    requires Invariant(results, limit, s) && Enabled(s, step)
    ensures Invariant(results, limit, Apply(results, s, step))
  {
    var w := step.worker;
    match step
    case Start(_) =>
      forall i | 0 <= i < |results| ensures Awaited(s, i) <==> AwaitedByOther(s, w, i) {
      }
      ClaimKeeps(results, limit, s, w);
    case Settle(_) =>
      SettleReady(results, limit, s, w);
      ClaimKeeps(results, limit, s.(out := s.out[s.workers[w].index := Held(results[s.workers[w].index])]), w);
  }

  lemma SettleReady<R>(results: seq<Outcome<R>>, limit: int, s: State<R>, w: nat)
    requires Invariant(results, limit, s) && Enabled(s, Settle(w))
    ensures ClaimReady(results, limit, s.(out := s.out[s.workers[w].index := Held(results[s.workers[w].index])]), w)
  {
    var k := s.workers[w].index;
    var stored := s.(out := s.out[k := Held(results[k])]);
    assert Awaited(s, k);
    CountIfUpdate(s.out, k, Held(results[k]), IsHeld);
    forall i | 0 <= i < |results| ensures stored.out[i] == Empty <==> i >= |s.claims| || AwaitedByOther(stored, w, i) {
      if i == k {
        assert !AwaitedByOther(stored, w, k);
      } else {
        assert Awaited(s, i) <==> AwaitedByOther(stored, w, i);
      }
    }
  }

  /** Every run, whatever the schedule and whichever calls throw, keeps the invariant. */
  lemma {:induction false} RunKeeps<R>(results: seq<Outcome<R>>, limit: int, steps: seq<Step>)
    requires Run(results, limit, steps).Some?
    ensures Invariant(results, limit, Run(results, limit, steps).value)
  {
    if steps == [] {
      InitialInvariant(results, limit);
    } else {
      RunKeeps(results, limit, steps[..|steps| - 1]);
      StepKeeps(results, limit, Run(results, limit, steps[..|steps| - 1]).value, steps[|steps| - 1]);
    }
  }

  /** Calls are made on 0, 1, 2, ... in that order, each index once; calls in flight never exceed the pool. */
  lemma {:induction false} ClaimsInOrderAndBounded<R>(results: seq<Outcome<R>>, limit: int, steps: seq<Step>)
    requires Run(results, limit, steps).Some?
    ensures var s := Run(results, limit, steps).value;
            && |s.claims| <= |results| && (forall i :: 0 <= i < |s.claims| ==> s.claims[i] == i)
            && |s.claims| - CountIf(s.out, IsHeld) == InFlight(s) <= PoolSize(|results|, limit)
  {
    RunKeeps(results, limit, steps);
  }

  /** When every worker has stopped, the result is item by item what its own call ended in. */
  lemma {:induction false} StoppedMeansComplete<R>(results: seq<Outcome<R>>, limit: int, steps: seq<Step>)
    requires Run(results, limit, steps).Some?
    requires forall w :: 0 <= w < |Run(results, limit, steps).value.workers| ==>
             Run(results, limit, steps).value.workers[w].Done?
    ensures Run(results, limit, steps).value.out == seq(|results|, i requires 0 <= i < |results| => Held(results[i]))
    ensures |Run(results, limit, steps).value.claims| == |results|
  {
    RunKeeps(results, limit, steps);
    var s := Run(results, limit, steps).value;
    assert s.workers[0].Done?;
    forall i | 0 <= i < |results| ensures s.out[i] == Held(results[i]) {
      assert !Awaited(s, i);
    }
  }

  /** Until then some step is possible, and a run has one start per worker and one settled call per item at most. */
  lemma {:induction false} RunsEnd<R>(results: seq<Outcome<R>>, limit: int, steps: seq<Step>)
    requires Run(results, limit, steps).Some?
    ensures var s := Run(results, limit, steps).value;
            && |steps| == |s.workers| - CountIf(s.workers, IsFresh) + CountIf(s.out, IsHeld)
            && |steps| <= PoolSize(|results|, limit) + |results|
            && ((exists step :: Enabled(s, step)) || forall w :: 0 <= w < |s.workers| ==> s.workers[w].Done?)
  {
    RunKeeps(results, limit, steps);
    var s := Run(results, limit, steps).value;
    if steps == [] {
      CountIfAll(s.workers, IsFresh);
      CountIfNone(s.out, IsHeld);
    } else {
      var s0 := Run(results, limit, steps[..|steps| - 1]).value;
      RunsEnd(results, limit, steps[..|steps| - 1]);
      RunKeeps(results, limit, steps[..|steps| - 1]);
      StepCount(results, limit, s0, steps[|steps| - 1]);
    }
    NotStuck(results, limit, s);
  }

  lemma StepCount<R>(results: seq<Outcome<R>>, limit: int, s: State<R>, step: Step)
    requires Invariant(results, limit, s) && Enabled(s, step)
    ensures var s' := Apply(results, s, step);
            && |s'.workers| == |s.workers|
            && CountIf(s'.out, IsHeld) - CountIf(s'.workers, IsFresh)
               == CountIf(s.out, IsHeld) - CountIf(s.workers, IsFresh) + 1
  {
    var s', w := Apply(results, s, step), step.worker;
    CountIfUpdate(s.workers, w, s'.workers[w], IsFresh);
    if step.Settle? {
      var k := s.workers[w].index;
      assert Awaited(s, k);
      CountIfUpdate(s.out, k, Held(results[k]), IsHeld);
    }
  }

  lemma NotStuck<R>(results: seq<Outcome<R>>, limit: int, s: State<R>)
    requires Invariant(results, limit, s)
    ensures (exists step :: Enabled(s, step)) || forall w :: 0 <= w < |s.workers| ==> s.workers[w].Done?
  {
    if w :| 0 <= w < |s.workers| && !s.workers[w].Done? {
      assert Enabled(s, if s.workers[w].Fresh? then Start(w) else Settle(w));
    }
  }
}
