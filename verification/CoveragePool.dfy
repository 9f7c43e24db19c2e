/**
 * The worker pool of the coverage run (`lcovMutex`, `worker`), as steps.
 *
 * Every test file runs in a child process that writes one shared report file, so a worker runs the child and claims
 * the report inside one section of a promise-chain mutex. A step is one stretch between two awaits, or one write of
 * a child process; any order of enabled steps is a run.
 */
module CoveragePool {
  import opened Sequences
  import Text

  datatype Status = Pending | Running(wrote: Option<string>) | Fulfilled | Rejected

  /** A section queued on the mutex: job `i` may start when job `i - 1` has settled, in whichever way. */
  datatype Job = Job(worker: nat, path: string, status: Status)

  /** The shared report file: which job's child wrote it (none for a file left by an earlier run) and its text. */
  datatype Report = Report(author: Option<nat>, text: string)

  datatype Chunk = Chunk(claimedBy: nat, report: Report)

  datatype Worker = Ready | Waiting(job: nat) | Finished | Failed

  /** `entered` and `spawned` record, in order, the sections entered and the children begun. */
  datatype State = State(
    queue: seq<string>, jobs: seq<Job>, workers: seq<Worker>, shared: Option<Report>,
    chunks: seq<Chunk>, failed: seq<string>, entered: seq<nat>, spawned: seq<nat>)

  datatype Step =
    | Take(worker: nat)                                  // shift the queue and ask for the mutex, or stop
    | Begin(job: nat)                                    // remove the old report and spawn the child
    | Refuse(job: nat, removed: bool)                    // the section throws before a child exists
    | Write(job: nat, text: string)                      // the child writes the shared report
    | Exit(job: nat, code: int, renamed: bool, readable: bool, cleaned: bool)
    | Resume(worker: nat)                                // the worker's await of its section ends

  function Initial(files: seq<string>, concurrency: nat, stale: Option<string>): State {
    var shared := match stale case Some(text) => Some(Report(None, text)) case None => None;
    State(files, [], seq(concurrency, _ => Ready), shared, [], [], [], [])
  }

  predicate Settled(status: Status) {
    status.Fulfilled? || status.Rejected?
  }

  predicate MayEnter(s: State, j: nat) {
    j < |s.jobs| && s.jobs[j].status.Pending? && (j == 0 || Settled(s.jobs[j - 1].status))
  }

  /** `leaves[j]` is what the child of job `j` has written by the time it exits. */
  predicate Enabled(leaves: seq<Option<string>>, s: State, step: Step) {
    match step
    case Take(w) => w < |s.workers| && s.workers[w].Ready?
    case Begin(j) => MayEnter(s, j)
    case Refuse(j, _) => MayEnter(s, j)
    case Write(j, _) => j < |s.jobs| && s.jobs[j].status.Running?
    case Exit(j, _, _, _, _) => j < |s.jobs| && j < |leaves| && s.jobs[j].status == Running(leaves[j])
    case Resume(w) => w < |s.workers| && s.workers[w].Waiting? && s.workers[w].job < |s.jobs|
                      && Settled(s.jobs[s.workers[w].job].status)
  }

  function SetStatus(s: State, j: nat, status: Status): State
    requires j < |s.jobs|
  {
    s.(jobs := s.jobs[j := s.jobs[j].(status := status)])
  }

  predicate HasRecords(text: string) {
    Text.Includes(text, "SF:")
  }

  /** The end of a section: note a failed test, rename the report away, read it, delete it. */
  function Close(s: State, j: nat, code: int, renamed: bool, readable: bool, cleaned: bool): State
    requires j < |s.jobs|
  {
    var s1 := if code != 0 then s.(failed := s.failed + [s.jobs[j].path]) else s;
    match s1.shared
    case None => SetStatus(s1, j, Fulfilled)
    case Some(report) =>
      if !renamed then SetStatus(s1, j, Fulfilled)
      else
        var chunks := if readable && HasRecords(report.text) then s1.chunks + [Chunk(j, report)] else s1.chunks;
        SetStatus(s1.(shared := None, chunks := chunks), j, if cleaned then Fulfilled else Rejected)
  }

  function Apply(leaves: seq<Option<string>>, s: State, step: Step): State
    requires Enabled(leaves, s, step)
  {
    match step
    case Take(w) =>
      if s.queue == [] then s.(workers := s.workers[w := Finished])
      else s.(queue := s.queue[1..], jobs := s.jobs + [Job(w, s.queue[0], Pending)],
              workers := s.workers[w := Waiting(|s.jobs|)])
    case Begin(j) => SetStatus(s.(shared := None, entered := s.entered + [j], spawned := s.spawned + [j]), j,
                               Running(None))
    case Refuse(j, removed) =>
      SetStatus(s.(shared := if removed then None else s.shared, entered := s.entered + [j]), j, Rejected)
    case Write(j, text) => SetStatus(s.(shared := Some(Report(Some(j), text))), j, Running(Some(text)))
    case Exit(j, code, renamed, readable, cleaned) => Close(s, j, code, renamed, readable, cleaned)
    case Resume(w) =>
      s.(workers := s.workers[w := if s.jobs[s.workers[w].job].status.Fulfilled? then Ready else Failed])
  }

  datatype Setup = Setup(files: seq<string>, concurrency: nat, stale: Option<string>, leaves: seq<Option<string>>)

  function Run(setup: Setup, steps: seq<Step>): Option<State> {
    if steps == [] then Some(Initial(setup.files, setup.concurrency, setup.stale))
    else
      match Run(setup, steps[..|steps| - 1])
      case None => None
      case Some(s) =>
        if Enabled(setup.leaves, s, steps[|steps| - 1]) then Some(Apply(setup.leaves, s, steps[|steps| - 1])) else None
  }

  function Paths(jobs: seq<Job>): (r: seq<string>)
    ensures |r| == |jobs|
  {
    seq(|jobs|, i requires 0 <= i < |jobs| => jobs[i].path)
  }

  /** The mutex: a section has been entered only after every earlier one settled, and entries follow arrival. */
  ghost predicate MutexInvariant(s: State) {
    && |s.entered| <= |s.jobs|
    && (forall i :: 0 <= i < |s.entered| ==> s.entered[i] == i)
    && (forall i :: 0 <= i < |s.jobs| ==> (s.jobs[i].status.Pending? <==> i >= |s.entered|))
    && (forall i :: 0 <= i < |s.entered| - 1 ==> Settled(s.jobs[i].status))
  }

  /** The shared file: while a child runs it holds what that child wrote and nothing else. */
  ghost predicate ReportInvariant(s: State) {
    && (forall j :: 0 <= j < |s.jobs| && s.jobs[j].status.Running? ==>
          s.shared == match s.jobs[j].status.wrote case Some(text) => Some(Report(Some(j), text)) case None => None)
    && (forall c :: 0 <= c < |s.chunks| ==> s.chunks[c].report.author == Some(s.chunks[c].claimedBy))
    && (forall c :: 0 <= c < |s.chunks| ==>
          s.chunks[c].claimedBy < |s.jobs| && Settled(s.jobs[s.chunks[c].claimedBy].status))
    && (forall c, d :: 0 <= c < d < |s.chunks| ==> s.chunks[c].claimedBy < s.chunks[d].claimedBy)
  }

  /** The queue: files are taken in order, each by the worker that waits for its section. */
  ghost predicate QueueInvariant(setup: Setup, s: State) {
    && setup.files == Paths(s.jobs) + s.queue
    && |s.workers| == setup.concurrency
    && (forall j :: 0 <= j < |s.jobs| && !Settled(s.jobs[j].status) ==>
          s.jobs[j].worker < |s.workers| && s.workers[s.jobs[j].worker] == Waiting(j))
    && (forall w :: 0 <= w < |s.workers| && s.workers[w].Finished? ==> s.queue == [])
    && (forall w :: 0 <= w < |s.workers| && s.workers[w].Waiting? ==> s.workers[w].job < |s.jobs|)
  }

  lemma MutexStep(leaves: seq<Option<string>>, s: State, step: Step)
    requires MutexInvariant(s) && Enabled(leaves, s, step)
    ensures MutexInvariant(Apply(leaves, s, step))
  {
  }

  lemma CloseKeepsReports(s: State, j: nat, code: int, renamed: bool, readable: bool, cleaned: bool)
    requires MutexInvariant(s) && ReportInvariant(s) && j < |s.jobs| && s.jobs[j].status.Running?
    ensures ReportInvariant(Close(s, j, code, renamed, readable, cleaned))
  {
    OneRunning(s, j);
    var s' := Close(s, j, code, renamed, readable, cleaned);
    OwnReportOnly(s, j);
    SettlingKeepsReports(s, j, s', s'.jobs[j].status);
  }

  lemma OwnReportOnly(s: State, j: nat)
    requires ReportInvariant(s) && j < |s.jobs| && s.jobs[j].status.Running?
    ensures s.shared.Some? ==> s.shared.value.author == Some(j)
  {
  }

  lemma SettlingKeepsReports(s: State, j: nat, s': State, status: Status)
    requires MutexInvariant(s) && ReportInvariant(s) && j < |s.jobs| && j == |s.entered| - 1
    requires Settled(status) && !Settled(s.jobs[j].status)
    requires s'.jobs == s.jobs[j := s.jobs[j].(status := status)]
    requires s'.chunks == s.chunks
          || exists report: Report :: report.author == Some(j) && s'.chunks == s.chunks + [Chunk(j, report)]
    ensures ReportInvariant(s')
  {
    assert forall i :: 0 <= i < |s'.jobs| ==> !s'.jobs[i].status.Running?;
    assert forall c :: 0 <= c < |s.chunks| ==> s.chunks[c].claimedBy < j;
  }

  lemma WriteKeepsReports(s: State, j: nat, text: string)
    requires MutexInvariant(s) && ReportInvariant(s) && j < |s.jobs| && s.jobs[j].status.Running?
    ensures ReportInvariant(SetStatus(s.(shared := Some(Report(Some(j), text))), j, Running(Some(text))))
  {
    OneRunning(s, j);
  }

  lemma EntryKeepsReports(s: State, j: nat, shared: Option<Report>, spawned: seq<nat>, status: Status)
    requires MutexInvariant(s) && ReportInvariant(s) && MayEnter(s, j)
    requires status == Rejected || (status == Running(None) && shared == None)
    ensures ReportInvariant(SetStatus(s.(shared := shared, entered := s.entered + [j], spawned := spawned), j, status))
  {
  }

  lemma ReportStep(leaves: seq<Option<string>>, s: State, step: Step)
    requires MutexInvariant(s) && ReportInvariant(s) && Enabled(leaves, s, step)
    ensures ReportInvariant(Apply(leaves, s, step))
  {
    match step
    case Exit(j, code, renamed, readable, cleaned) => CloseKeepsReports(s, j, code, renamed, readable, cleaned);
    case Write(j, text) => WriteKeepsReports(s, j, text);
    case Begin(j) => EntryKeepsReports(s, j, None, s.spawned + [j], Running(None));
    case Refuse(j, removed) => EntryKeepsReports(s, j, if removed then None else s.shared, s.spawned, Rejected);
    case Take(w) =>
    case Resume(w) =>
  }

  /** At most one section runs: a running job is the last one entered. */
  lemma OneRunning(s: State, j: nat)
    requires MutexInvariant(s) && j < |s.jobs| && s.jobs[j].status.Running?
    ensures j == |s.entered| - 1
    ensures forall i :: 0 <= i < |s.jobs| && s.jobs[i].status.Running? ==> i == j
  {
  }

  lemma QueueStep(setup: Setup, s: State, step: Step)
    requires QueueInvariant(setup, s) && Enabled(setup.leaves, s, step)
    ensures QueueInvariant(setup, Apply(setup.leaves, s, step))
  {
    var s' := Apply(setup.leaves, s, step);
    if step.Take? {
      if s.queue != [] {
        assert Paths(s'.jobs) == Paths(s.jobs) + [s.queue[0]];
      }
    } else if step.Resume? {
      assert Paths(s'.jobs) == Paths(s.jobs);
    } else {
      SectionKeepsQueue(setup, s, step.job, s');
    }
  }

  /** A section touches neither the queue nor the workers. */
  lemma SectionKeepsQueue(setup: Setup, s: State, j: nat, s': State)
    requires QueueInvariant(setup, s) && j < |s.jobs| && !Settled(s.jobs[j].status)
    requires s'.queue == s.queue && s'.workers == s.workers && |s'.jobs| == |s.jobs|
    requires s'.jobs[j].path == s.jobs[j].path && s'.jobs[j].worker == s.jobs[j].worker
    requires forall i :: 0 <= i < |s.jobs| && i != j ==> s'.jobs[i] == s.jobs[i]
    ensures QueueInvariant(setup, s')
  {
    assert Paths(s'.jobs) == Paths(s.jobs);
  }

  lemma {:induction false} RunKeeps(setup: Setup, steps: seq<Step>)
    requires Run(setup, steps).Some?
    ensures var s := Run(setup, steps).value;
            MutexInvariant(s) && ReportInvariant(s) && QueueInvariant(setup, s)
  {
    if steps == [] {
      var s := Initial(setup.files, setup.concurrency, setup.stale);
      assert Paths(s.jobs) + s.queue == setup.files;
    } else {
      var s, step := Run(setup, steps[..|steps| - 1]).value, steps[|steps| - 1];
      RunKeeps(setup, steps[..|steps| - 1]);
      MutexStep(setup.leaves, s, step);
      ReportStep(setup.leaves, s, step);
      QueueStep(setup, s, step);
    }
  }

  /**
   * In every schedule, even after sections that reject: sections run one at a time and in arrival order, and every
   * collected report was written by the child of the very job that claimed it.
   */
  lemma {:induction false} EveryReportIsOwn(setup: Setup, steps: seq<Step>)
    requires Run(setup, steps).Some?
    ensures var s := Run(setup, steps).value;
            && (forall i, j :: (0 <= i < |s.jobs| && 0 <= j < |s.jobs|
                                && s.jobs[i].status.Running? && s.jobs[j].status.Running?) ==> i == j)
            && (forall i :: 0 <= i < |s.entered| ==> s.entered[i] == i)
            && (forall c :: 0 <= c < |s.chunks| ==> s.chunks[c].report.author == Some(s.chunks[c].claimedBy))
            && (forall c, d :: 0 <= c < d < |s.chunks| ==> s.chunks[c].claimedBy != s.chunks[d].claimedBy)
  {
    RunKeeps(setup, steps);
    var s := Run(setup, steps).value;
    forall i, j | 0 <= i < |s.jobs| && 0 <= j < |s.jobs| && s.jobs[i].status.Running? && s.jobs[j].status.Running?
      ensures i == j
    {
      OneRunning(s, i);
    }
  }

  ghost predicate Stopped(s: State) {
    && (forall w :: 0 <= w < |s.workers| ==> s.workers[w].Finished? || s.workers[w].Failed?)
    && exists w :: 0 <= w < |s.workers| && s.workers[w].Finished?
  }

  /** The section of job `j` threw before its child existed. */
  ghost predicate WasRefused(steps: seq<Step>, j: nat) {
    exists i :: 0 <= i < |steps| && steps[i].Refuse? && steps[i].job == j
  }

  /** The children begun, each once and in order, are those of the sections entered and not refused. */
  ghost predicate SpawnInvariant(steps: seq<Step>, s: State) {
    && (forall p, q :: 0 <= p < q < |s.spawned| ==> s.spawned[p] < s.spawned[q])
    && (forall j: nat :: j in s.spawned <==> j < |s.entered| && !WasRefused(steps, j))
    && (forall j: nat :: WasRefused(steps, j) ==> j < |s.entered|)
  }

  lemma RefusedAfter(steps: seq<Step>, j: nat)
    requires steps != []
    ensures var last := steps[|steps| - 1];
            WasRefused(steps, j) <==> WasRefused(steps[..|steps| - 1], j) || (last.Refuse? && last.job == j)
  {
    var n := |steps| - 1;
    if WasRefused(steps[..n], j) {
      var i :| 0 <= i < n && steps[..n][i].Refuse? && steps[..n][i].job == j;
      assert steps[i].Refuse? && steps[i].job == j;
    }
    if WasRefused(steps, j) {
      var i :| 0 <= i < |steps| && steps[i].Refuse? && steps[i].job == j;
      assert i < n ==> steps[..n][i] == steps[i];
    }
  }

  lemma SpawnStep(leaves: seq<Option<string>>, steps: seq<Step>, s: State)
    requires steps != [] && MutexInvariant(s) && SpawnInvariant(steps[..|steps| - 1], s)
    requires Enabled(leaves, s, steps[|steps| - 1])
    ensures SpawnInvariant(steps, Apply(leaves, s, steps[|steps| - 1]))
  {
    var s' := Apply(leaves, s, steps[|steps| - 1]);
    forall j: nat
      ensures j in s'.spawned <==> j < |s'.entered| && !WasRefused(steps, j)
      ensures WasRefused(steps, j) ==> j < |s'.entered|
    {
      RefusedAfter(steps, j);
    }
    forall p, q | 0 <= p < q < |s'.spawned| ensures s'.spawned[p] < s'.spawned[q] {
      assert p < |s.spawned| ==> s.spawned[p] in s.spawned;
    }
  }

  lemma {:induction false} RunSpawns(setup: Setup, steps: seq<Step>)
    requires Run(setup, steps).Some?
    ensures SpawnInvariant(steps, Run(setup, steps).value)
  {
    if steps != [] {
      RunSpawns(setup, steps[..|steps| - 1]);
      RunKeeps(setup, steps[..|steps| - 1]);
      SpawnStep(setup.leaves, steps, Run(setup, steps[..|steps| - 1]).value);
    }
  }

  lemma {:induction false} IncreasingCount(s: seq<nat>, x: nat)
    requires forall p, q :: 0 <= p < q < |s| ==> s[p] < s[q]
    ensures Count(s, x) == if x in s then 1 else 0
  {
    if s != [] {
      var front, last := s[..|s| - 1], s[|s| - 1];
      IncreasingCount(front, x);
      assert s == front + [last];
    }
  }

  /**
   * When the workers have stopped and one of them found the queue empty, the files were taken in order, every section
   * was entered once and is over, and each file's child was begun exactly once, unless its section was refused, when
   * it was not begun at all.
   */
  lemma {:induction false} EveryFileRunsOnce(setup: Setup, steps: seq<Step>)
    requires Run(setup, steps).Some? && Stopped(Run(setup, steps).value)
    ensures var s := Run(setup, steps).value;
            && Paths(s.jobs) == setup.files
            && |s.entered| == |setup.files|
            && (forall i :: 0 <= i < |s.entered| ==> s.entered[i] == i && Settled(s.jobs[i].status))
            && forall i: nat :: i < |setup.files| ==> Count(s.spawned, i) == if WasRefused(steps, i) then 0 else 1
  {
    RunKeeps(setup, steps);
    RunSpawns(setup, steps);
    var s := Run(setup, steps).value;
    AllEntered(setup, s);
    SpawnsCounted(steps, s);
  }

  lemma SpawnsCounted(steps: seq<Step>, s: State)
    requires SpawnInvariant(steps, s)
    ensures forall i: nat :: i < |s.entered| ==> Count(s.spawned, i) == if WasRefused(steps, i) then 0 else 1
  {
    forall i: nat | i < |s.entered| ensures Count(s.spawned, i) == if WasRefused(steps, i) then 0 else 1 {
      IncreasingCount(s.spawned, i);
    }
  }

  lemma AllEntered(setup: Setup, s: State)
    requires MutexInvariant(s) && QueueInvariant(setup, s) && Stopped(s)
    ensures Paths(s.jobs) == setup.files && |s.entered| == |setup.files|
    ensures forall i :: 0 <= i < |s.entered| ==> s.entered[i] == i && Settled(s.jobs[i].status)
  {
    assert setup.files == Paths(s.jobs);
    forall j | 0 <= j < |s.jobs| ensures Settled(s.jobs[j].status) {
      var w := s.jobs[j].worker;
      assert w < |s.workers| ==> !s.workers[w].Waiting?;
    }
    assert |s.jobs| > 0 ==> Settled(s.jobs[|s.jobs| - 1].status);
  }

  ghost predicate CanMove(s: State, w: nat) {
    || (w < |s.workers| && s.workers[w].Ready?)
    || (w < |s.workers| && s.workers[w].Waiting? && s.workers[w].job < |s.jobs|
        && Settled(s.jobs[s.workers[w].job].status))
    || MayEnter(s, |s.entered|)
    || (s.entered != [] && |s.entered| <= |s.jobs| && s.jobs[|s.entered| - 1].status.Running?)
  }

  /**
   * The mutex never blocks: while a worker has not stopped, it can move itself, or the next section can start, or a
   * child is running.
   */
  lemma {:induction false} NeverBlocked(setup: Setup, steps: seq<Step>, w: nat)
    requires Run(setup, steps).Some? && w < |Run(setup, steps).value.workers|
    requires !Run(setup, steps).value.workers[w].Finished? && !Run(setup, steps).value.workers[w].Failed?
    ensures CanMove(Run(setup, steps).value, w)
  {
    RunKeeps(setup, steps);
    StateMoves(setup, Run(setup, steps).value, w);
  }

  lemma StateMoves(setup: Setup, s: State, w: nat)
    requires MutexInvariant(s) && QueueInvariant(setup, s) && w < |s.workers|
    requires !s.workers[w].Finished? && !s.workers[w].Failed?
    ensures CanMove(s, w)
  {
    if s.workers[w].Waiting? && !Settled(s.jobs[s.workers[w].job].status) {
      MutexMoves(s, s.workers[w].job);
    }
  }

  lemma MutexMoves(s: State, j: nat)
    requires MutexInvariant(s) && j < |s.jobs| && !Settled(s.jobs[j].status)
    ensures MayEnter(s, |s.entered|) || (s.entered != [] && s.jobs[|s.entered| - 1].status.Running?)
  {
    if s.jobs[j].status.Pending? {
      assert s.jobs[|s.entered|].status.Pending?;
    }
  }

  // ---------------------------------------------------------------------------------------------
  // What is collected does not depend on the schedule
  // ---------------------------------------------------------------------------------------------

  /** The texts that reach the merge: the reports with records, in file order. */
  function Expected(leaves: seq<Option<string>>): seq<string> {
    if leaves == [] then []
    else
      var front := Expected(leaves[..|leaves| - 1]);
      match leaves[|leaves| - 1]
      case Some(text) => if Text.Includes(text, "SF:") then front + [text] else front
      case None => front
  }

  /** No file-system failure: the section never throws before its child runs, and a written report can be claimed. */
  predicate Faultless(step: Step) {
    !step.Refuse? && (step.Exit? ==> step.renamed && step.readable)
  }

  function Texts(chunks: seq<Chunk>): (r: seq<string>)
    ensures |r| == |chunks|
  {
    seq(|chunks|, c requires 0 <= c < |chunks| => chunks[c].report.text)
  }

  /** How many sections have ended. */
  function Ended(s: State): nat {
    if s.entered == [] then 0
    else if |s.entered| <= |s.jobs| && s.jobs[|s.entered| - 1].status.Running? then |s.entered| - 1
    else |s.entered|
  }

  ghost predicate CollectedInvariant(leaves: seq<Option<string>>, s: State) {
    Ended(s) <= |leaves| && Texts(s.chunks) == Expected(leaves[..Ended(s)])
  }

  lemma CollectedStep(leaves: seq<Option<string>>, s: State, step: Step)
    requires MutexInvariant(s) && ReportInvariant(s) && CollectedInvariant(leaves, s)
    requires Enabled(leaves, s, step) && Faultless(step)
    ensures CollectedInvariant(leaves, Apply(leaves, s, step))
  {
    match step
    case Exit(j, _, _, _, _) => CollectedExit(leaves, s, step);
    case Write(j, _) => OneRunning(s, j);
    case _ =>
  }

  lemma CollectedExit(leaves: seq<Option<string>>, s: State, step: Step)
    requires MutexInvariant(s) && ReportInvariant(s) && CollectedInvariant(leaves, s)
    requires step.Exit? && Enabled(leaves, s, step) && Faultless(step)
    ensures CollectedInvariant(leaves, Apply(leaves, s, step))
  {
    hide Text.Includes;
    var s', j := Apply(leaves, s, step), step.job;
    OneRunning(s, j);
    assert Ended(s') == j + 1;
    assert leaves[..j + 1][..j] == leaves[..j];
    assert leaves[j].Some? && HasRecords(leaves[j].value) ==> Texts(s'.chunks) == Texts(s.chunks) + [leaves[j].value];
  }

  lemma {:induction false} RunCollects(setup: Setup, steps: seq<Step>)
    requires Run(setup, steps).Some? && forall i :: 0 <= i < |steps| ==> Faultless(steps[i])
    ensures CollectedInvariant(setup.leaves, Run(setup, steps).value)
  {
    if steps != [] {
      RunCollects(setup, steps[..|steps| - 1]);
      RunKeeps(setup, steps[..|steps| - 1]);
      CollectedStep(setup.leaves, Run(setup, steps[..|steps| - 1]).value, steps[|steps| - 1]);
    }
  }

  // ---------------------------------------------------------------------------------------------
  // What a run leaves behind, failures included
  // ---------------------------------------------------------------------------------------------

  /** The reports that the sections ended by these steps could claim and read, and that hold records, in order. */
  function Claimed(leaves: seq<Option<string>>, steps: seq<Step>): seq<string> {
    if steps == [] then []
    else
      var front := Claimed(leaves, steps[..|steps| - 1]);
      match steps[|steps| - 1]
      case Exit(j, _, renamed, readable, _) =>
        if j < |leaves| && leaves[j].Some? && renamed && readable && Text.Includes(leaves[j].value, "SF:")
        then front + [leaves[j].value] else front
      case _ => front
  }

  /** The files whose tests ended with another code than 0, in order. */
  function FailedTests(files: seq<string>, steps: seq<Step>): seq<string> {
    if steps == [] then []
    else
      var front := FailedTests(files, steps[..|steps| - 1]);
      match steps[|steps| - 1]
      case Exit(j, code, _, _, _) => if code != 0 && j < |files| then front + [files[j]] else front
      case _ => front
  }

  lemma {:induction false} LeavesStep(setup: Setup, steps: seq<Step>, s: State, step: Step)
    requires MutexInvariant(s) && ReportInvariant(s) && QueueInvariant(setup, s) && Enabled(setup.leaves, s, step)
    requires Texts(s.chunks) == Claimed(setup.leaves, steps) && s.failed == FailedTests(setup.files, steps)
    ensures var s' := Apply(setup.leaves, s, step);
            && Texts(s'.chunks) == Claimed(setup.leaves, steps + [step])
            && s'.failed == FailedTests(setup.files, steps + [step])
  {
    hide Text.Includes, MutexInvariant;
    assert (steps + [step])[..|steps|] == steps;
    match step
    case Exit(j, _, _, _, _) =>
      assert Paths(s.jobs)[j] == setup.files[j];
    case _ =>
  }

  /** In every schedule, whatever fails: exactly those reports are collected and exactly those files noted as failed. */
  lemma {:induction false} RunLeaves(setup: Setup, steps: seq<Step>)
    requires Run(setup, steps).Some?
    ensures Texts(Run(setup, steps).value.chunks) == Claimed(setup.leaves, steps)
    ensures Run(setup, steps).value.failed == FailedTests(setup.files, steps)
  {
    hide Apply, Enabled;
    if steps != [] {
      var front, last := steps[..|steps| - 1], steps[|steps| - 1];
      RunLeaves(setup, front);
      RunKeeps(setup, front);
      LeavesStep(setup, front, Run(setup, front).value, last);
      assert steps == front + [last];
    }
  }

  /** The section of job `j` ended in an exception: it was refused, or its claimed report could not be deleted. */
  ghost predicate Threw(leaves: seq<Option<string>>, steps: seq<Step>, j: nat) {
    exists i :: 0 <= i < |steps| && ThrowsAt(leaves, steps[i], j)
  }

  ghost predicate ThrowsAt(leaves: seq<Option<string>>, step: Step, j: nat) {
    match step
    case Refuse(k, _) => k == j
    case Exit(k, _, renamed, _, cleaned) => k == j && j < |leaves| && leaves[j].Some? && renamed && !cleaned
    case _ => false
  }

  /** A section is rejected exactly when it threw. */
  ghost predicate RejectionInvariant(leaves: seq<Option<string>>, steps: seq<Step>, s: State) {
    forall j: nat :: Threw(leaves, steps, j) <==> j < |s.jobs| && s.jobs[j].status.Rejected?
  }

  /** A worker waits for sections of its own, and fails after a rejected one, for which it may still be waiting. */
  ghost predicate FailureInvariant(s: State) {
    && (forall w :: 0 <= w < |s.workers| && s.workers[w].Waiting? ==>
          s.workers[w].job < |s.jobs| && s.jobs[s.workers[w].job].worker == w)
    && (forall w :: 0 <= w < |s.workers| && s.workers[w].Failed? ==>
          exists j: nat :: j < |s.jobs| && s.jobs[j].worker == w && s.jobs[j].status.Rejected?)
    && (forall j: nat :: j < |s.jobs| && s.jobs[j].status.Rejected? ==>
          s.jobs[j].worker < |s.workers|
          && (s.workers[s.jobs[j].worker].Failed? || s.workers[s.jobs[j].worker] == Waiting(j)))
  }

  lemma ThrewAfter(leaves: seq<Option<string>>, steps: seq<Step>, step: Step, j: nat)
    ensures Threw(leaves, steps + [step], j) <==> Threw(leaves, steps, j) || ThrowsAt(leaves, step, j)
  {
    hide ThrowsAt;
    var after := steps + [step];
    assert after[|steps|] == step;
    if i :| 0 <= i < |steps| && ThrowsAt(leaves, steps[i], j) {
      assert after[i] == steps[i];
    }
    if i :| 0 <= i < |after| && ThrowsAt(leaves, after[i], j) {
      assert i < |steps| ==> after[i] == steps[i];
    }
  }

  lemma RejectionStep(setup: Setup, steps: seq<Step>, s: State, step: Step)
    requires MutexInvariant(s) && ReportInvariant(s) && QueueInvariant(setup, s) && Enabled(setup.leaves, s, step)
    requires RejectionInvariant(setup.leaves, steps, s)
    ensures RejectionInvariant(setup.leaves, steps + [step], Apply(setup.leaves, s, step))
  {
    hide Threw, HasRecords, MutexInvariant, QueueInvariant;
    var s' := Apply(setup.leaves, s, step);
    forall j: nat ensures Threw(setup.leaves, steps + [step], j) <==> j < |s'.jobs| && s'.jobs[j].status.Rejected? {
      ThrewAfter(setup.leaves, steps, step, j);
    }
  }

  lemma FailureStep(setup: Setup, s: State, step: Step)
    requires QueueInvariant(setup, s) && Enabled(setup.leaves, s, step) && FailureInvariant(s)
    ensures FailureInvariant(Apply(setup.leaves, s, step))
  {
    hide HasRecords, Paths, FailureInvariant;
    match step
    case Take(w) => WorkerKeepsFailures(s, w, Apply(setup.leaves, s, step));
    case Resume(w) => WorkerKeepsFailures(s, w, Apply(setup.leaves, s, step));
    case Begin(j) => SectionKeepsFailures(setup, s, j, Apply(setup.leaves, s, step));
    case Refuse(j, _) => SectionKeepsFailures(setup, s, j, Apply(setup.leaves, s, step));
    case Write(j, _) => SectionKeepsFailures(setup, s, j, Apply(setup.leaves, s, step));
    case Exit(j, _, _, _, _) => SectionKeepsFailures(setup, s, j, Apply(setup.leaves, s, step));
  }

  /** A worker that asks for a section or ends its wait for one touches no other worker and no job there is. */
  lemma WorkerKeepsFailures(s: State, w: nat, s': State)
    requires FailureInvariant(s) && w < |s.workers| == |s'.workers| && s.jobs <= s'.jobs
    requires forall v :: 0 <= v < |s.workers| && v != w ==> s'.workers[v] == s.workers[v]
    requires forall j: nat :: |s.jobs| <= j < |s'.jobs| ==> s'.jobs[j].status.Pending? && s'.jobs[j].worker == w
    requires s.workers[w].Ready? || s.workers[w].Waiting?
    requires s.workers[w].Ready? ==> s'.workers[w].Finished? || s'.workers[w] == Waiting(|s.jobs|)
    requires s'.workers[w] == Waiting(|s.jobs|) ==> |s'.jobs| > |s.jobs|
    requires s.workers[w].Waiting? ==>
               s'.workers[w] == if s.jobs[s.workers[w].job].status.Rejected? then Failed else Ready
    ensures FailureInvariant(s')
  {
    assert forall j: nat :: j < |s.jobs| ==> s'.jobs[j] == s.jobs[j];
    forall v | 0 <= v < |s'.workers| && s'.workers[v].Failed?
      ensures exists j: nat :: j < |s'.jobs| && s'.jobs[j].worker == v && s'.jobs[j].status.Rejected?
    {
      if v == w {
        assert s'.jobs[s.workers[w].job] == s.jobs[s.workers[w].job];
      } else {
        var j: nat :| j < |s.jobs| && s.jobs[j].worker == v && s.jobs[j].status.Rejected?;
        assert s'.jobs[j] == s.jobs[j];
      }
    }
  }

  /** A step inside the section of a job that had not settled touches nothing of the workers and no other job. */
  lemma SectionKeepsFailures(setup: Setup, s: State, j: nat, s': State)
    requires QueueInvariant(setup, s) && FailureInvariant(s) && j < |s.jobs| && !Settled(s.jobs[j].status)
    requires s'.workers == s.workers && |s'.jobs| == |s.jobs| && s'.jobs[j].worker == s.jobs[j].worker
    requires forall i :: 0 <= i < |s.jobs| && i != j ==> s'.jobs[i] == s.jobs[i]
    ensures FailureInvariant(s')
  {
    forall w | 0 <= w < |s'.workers| && s'.workers[w].Failed?
      ensures exists i: nat :: i < |s'.jobs| && s'.jobs[i].worker == w && s'.jobs[i].status.Rejected?
    {
      var i: nat :| i < |s.jobs| && s.jobs[i].worker == w && s.jobs[i].status.Rejected?;
      assert s'.jobs[i] == s.jobs[i];
    }
  }

  lemma {:induction false} RunFails(setup: Setup, steps: seq<Step>)
    requires Run(setup, steps).Some?
    ensures RejectionInvariant(setup.leaves, steps, Run(setup, steps).value)
    ensures FailureInvariant(Run(setup, steps).value)
  {
    hide Apply, Enabled, RejectionInvariant, FailureInvariant;
    if steps == [] {
      NothingFailed(setup);
    } else {
      var front, last := steps[..|steps| - 1], steps[|steps| - 1];
      RunFails(setup, front);
      RunKeeps(setup, front);
      RejectionStep(setup, front, Run(setup, front).value, last);
      FailureStep(setup, Run(setup, front).value, last);
      assert steps == front + [last];
    }
  }

  lemma NothingFailed(setup: Setup)
    ensures RejectionInvariant(setup.leaves, [], Initial(setup.files, setup.concurrency, setup.stale))
    ensures FailureInvariant(Initial(setup.files, setup.concurrency, setup.stale))
  {
  }

  /** When all workers have stopped, one of them failed exactly when a section threw; otherwise all finished. */
  lemma {:induction false} WorkersFailExactly(setup: Setup, steps: seq<Step>)
    requires Run(setup, steps).Some? && Stopped(Run(setup, steps).value)
    ensures Failed in Run(setup, steps).value.workers <==> exists j: nat :: Threw(setup.leaves, steps, j)
  {
    RunKeeps(setup, steps);
    RunFails(setup, steps);
    var s := Run(setup, steps).value;
    if j: nat :| Threw(setup.leaves, steps, j) {
      assert s.workers[s.jobs[j].worker].Failed?;
    }
    if Failed in s.workers {
      var w :| 0 <= w < |s.workers| && s.workers[w] == Failed;
    }
  }

  /** A finished faultless run hands the merge the same texts for every worker count and every schedule. */
  lemma {:induction false} CollectionIsScheduleFree(setup: Setup, steps: seq<Step>)
    requires |setup.leaves| == |setup.files|
    requires Run(setup, steps).Some? && Stopped(Run(setup, steps).value)
    requires forall i :: 0 <= i < |steps| ==> Faultless(steps[i])
    ensures Texts(Run(setup, steps).value.chunks) == Expected(setup.leaves)
  {
    RunCollects(setup, steps);
    EveryFileRunsOnce(setup, steps);
    assert setup.leaves[..|setup.leaves|] == setup.leaves;
  }
}
