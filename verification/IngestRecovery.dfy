/**
 * Ingestion over any sequence of crashes and restarts, with one corpus and one batch size.
 *
 * A step is a start of the program, one `remember` call, the recording of a batch together with the flush that
 * follows it in the same stretch, the end of the batch loop, or the end of the program, crash or not. The result file
 * survives. The dataset list a start gets is arbitrary: a list call that fails answers with no names at all.
 */
module IngestRecovery {
  import opened Sequences
  import opened IngestLedger

  datatype Phase =
    | Idle                                     // not running, or stopped
    | Sending(ledger: Ledger, next: nat, attempts: nat)   // in the batch loop, at batch `next`
    | Answered(ledger: Ledger, next: nat, answer: Answer) // the retries of that batch are over
    | Completed(ledger: Ledger)

  datatype Event = Sent(batch: nat) | Flushed(batch: nat, stored: bool)

  /** `stored` holds the batches the server has taken in, whatever it answered. */
  datatype State = State(disk: Option<Ledger>, phase: Phase, stored: set<nat>, log: seq<Event>)

  datatype Step =
    | Start(resume: bool, listed: bool)        // whether --resume was given, and whether the answer lists the dataset
    | Send(answer: Answer, taken: bool)
    | Record
    | Finish
    | Crash

  const BEGIN := State(None, Idle, {}, [])

  function Loaded(s: State, resume: bool): Ledger {
    if resume && s.disk.Some? then s.disk.value else FRESH
  }

  predicate Enabled(sizes: seq<nat>, s: State, step: Step) {
    match step
    case Start(_, _) => s.phase.Idle?
    case Send(answer, taken) => s.phase.Sending? && s.phase.next < |sizes| && (Accepted(answer) ==> taken)
    case Record => s.phase.Answered? && s.phase.next < |sizes|
    case Finish => s.phase.Sending? && s.phase.next >= |sizes|
    case Crash => true
  }

  function Apply(sizes: seq<nat>, s: State, step: Step): State
    requires Enabled(sizes, s, step)
  {
    match step
    case Start(resume, listed) =>
      var l := Loaded(s, resume);
      if listed && !(resume && l.documentsWritten > 0) then s.(disk := Some(l))      // refused; the file is rewritten
      else if listed && l.documentsWritten >= Sum(sizes) then s.(phase := Completed(l), disk := Some(l))
      else s.(phase := Sending(l, if l.documentsWritten > 0 then |l.perBatchDocs| else 0, 0))
    case Send(answer, taken) =>
      var l, b, attempts := s.phase.ledger, s.phase.next, s.phase.attempts + 1;
      s.(phase :=
           if Accepted(answer) || attempts >= MAX_ATTEMPTS then Answered(l, b, answer) else Sending(l, b, attempts),
         stored := if taken then s.stored + {b} else s.stored,
         log := s.log + [Sent(b)])
    case Record =>
      var b := s.phase.next;
      var l := Recorded(s.phase.ledger, b, sizes[b], s.phase.answer);
      s.(phase := Sending(l, b + 1, 0), disk := Some(l), log := s.log + [Flushed(b, b in s.stored)])
    case Finish => s.(phase := Completed(s.phase.ledger), disk := Some(s.phase.ledger))
    case Crash => s.(phase := Idle)
  }

  /** The state after the steps, if each of them was possible. */
  function RunFrom(sizes: seq<nat>, from: State, steps: seq<Step>): Option<State> {
    if steps == [] then Some(from)
    else
      match RunFrom(sizes, from, steps[..|steps| - 1])
      case None => None
      case Some(s) =>
        if Enabled(sizes, s, steps[|steps| - 1]) then Some(Apply(sizes, s, steps[|steps| - 1])) else None
  }

  function Run(sizes: seq<nat>, steps: seq<Step>): Option<State> {
    RunFrom(sizes, BEGIN, steps)
  }

  lemma {:induction false} RunInTwoParts(sizes: seq<nat>, from: State, steps: seq<Step>, more: seq<Step>)
    requires RunFrom(sizes, from, steps).Some?
    ensures RunFrom(sizes, from, steps + more) == RunFrom(sizes, RunFrom(sizes, from, steps).value, more)
  {
    if more == [] {
      assert steps + more == steps;
    } else {
      assert (steps + more)[..|steps + more| - 1] == steps + more[..|more| - 1];
      RunInTwoParts(sizes, from, steps, more[..|more| - 1]);
    }
  }

  lemma {:induction false} OneStep(sizes: seq<nat>, s: State, step: Step)
    requires Enabled(sizes, s, step)
    ensures RunFrom(sizes, s, [step]) == Some(Apply(sizes, s, step))
  {
    assert [step][..0] == [];
  }

  ghost predicate AllPositive(sizes: seq<nat>) {
    forall i :: 0 <= i < |sizes| ==> sizes[i] > 0
  }

  /** A ledger records a contiguous prefix of the batches, and `documentsWritten` is their sum. */
  ghost predicate Sound(sizes: seq<nat>, l: Ledger) {
    && l.perBatchDocs <= sizes
    && l.documentsWritten == Sum(l.perBatchDocs)
    && (forall i :: 0 <= i < |l.failed| ==> l.failed[i] < |l.perBatchDocs|)
    && Distinct(l.failed)
  }

  ghost predicate SoundState(sizes: seq<nat>, s: State) {
    && (s.disk.Some? ==> Sound(sizes, s.disk.value))
    && (match s.phase
        case Idle => true
        case Sending(l, next, _) => Sound(sizes, l) && next == |l.perBatchDocs|
        case Answered(l, next, _) => Sound(sizes, l) && next == |l.perBatchDocs| < |sizes|
        case Completed(l) => Sound(sizes, l) && l.perBatchDocs == sizes)
  }

  lemma {:induction false} PositiveSum(s: seq<nat>)
    requires AllPositive(s)
    ensures Sum(s) == 0 <==> s == []
  {
    if s != [] {
      PositiveSum(s[..|s| - 1]);
    }
  }

  /** A proper prefix of the batches holds fewer documents than the corpus. */
  lemma {:induction false} PrefixHoldsLess(sizes: seq<nat>, k: nat)
    requires AllPositive(sizes) && k <= |sizes|
    ensures Sum(sizes[..k]) >= Sum(sizes) <==> k == |sizes|
  {
    if k == |sizes| {
      assert sizes[..k] == sizes;
    } else {
      PrefixHoldsLess(sizes[..|sizes| - 1], k);
      assert sizes[..|sizes| - 1][..k] == sizes[..k];
    }
  }

  lemma SoundAppend(sizes: seq<nat>, l: Ledger, a: Answer)
    requires Sound(sizes, l) && |l.perBatchDocs| < |sizes|
    ensures Sound(sizes, Recorded(l, |l.perBatchDocs|, sizes[|l.perBatchDocs|], a))
  {
    SumAppend(l.perBatchDocs, sizes[|l.perBatchDocs|]);
  }

  lemma StartIsSound(sizes: seq<nat>, s: State, resume: bool, listed: bool)
    requires AllPositive(sizes) && SoundState(sizes, s) && Enabled(sizes, s, Start(resume, listed))
    ensures SoundState(sizes, Apply(sizes, s, Start(resume, listed)))
    ensures var l := Loaded(s, resume);
            Sound(sizes, l) && (l.documentsWritten == 0 <==> l.perBatchDocs == [])
  {
    var l := Loaded(s, resume);
    assert Sound(sizes, l);
    PositiveSum(l.perBatchDocs);
    PrefixHoldsLess(sizes, |l.perBatchDocs|);
    assert sizes[..|l.perBatchDocs|] == l.perBatchDocs;
  }

  lemma StepIsSound(sizes: seq<nat>, s: State, step: Step)
    requires AllPositive(sizes) && SoundState(sizes, s) && Enabled(sizes, s, step)
    ensures SoundState(sizes, Apply(sizes, s, step))
  {
    match step
    case Start(resume, listed) => StartIsSound(sizes, s, resume, listed);
    case Record => SoundAppend(sizes, s.phase.ledger, s.phase.answer);
    case _ =>
  }

  lemma {:induction false} SoundFrom(sizes: seq<nat>, from: State, steps: seq<Step>)
    requires AllPositive(sizes) && SoundState(sizes, from) && RunFrom(sizes, from, steps).Some?
    ensures SoundState(sizes, RunFrom(sizes, from, steps).value)
  {
    if steps != [] {
      SoundFrom(sizes, from, steps[..|steps| - 1]);
      StepIsSound(sizes, RunFrom(sizes, from, steps[..|steps| - 1]).value, steps[|steps| - 1]);
    }
  }

  lemma RunIsSound(sizes: seq<nat>, steps: seq<Step>)
    requires AllPositive(sizes) && Run(sizes, steps).Some?
    ensures SoundState(sizes, Run(sizes, steps).value)
  {
    SoundFrom(sizes, BEGIN, steps);
  }

  /**
   * Over any sequence of crashes, resumes and fresh starts, the file on disk records a contiguous prefix of the batches
   * with `documentsWritten` their sum, and a run whose batch loop ends has written the size of the corpus.
   */
  lemma {:induction false} LedgerIsAPrefix(sizes: seq<nat>, steps: seq<Step>)
    requires AllPositive(sizes) && Run(sizes, steps).Some?
    ensures var s := Run(sizes, steps).value;
            && (s.disk.Some? ==> s.disk.value.perBatchDocs <= sizes
                                 && s.disk.value.documentsWritten == Sum(s.disk.value.perBatchDocs))
            && (s.phase.Completed? ==> s.phase.ledger.documentsWritten == Sum(sizes))
  {
    RunIsSound(sizes, steps);
  }

  // ---------------------------------------------------------------------------------------------
  // No batch is sent again once its record was flushed
  // ---------------------------------------------------------------------------------------------

  /** Events in order: a batch is not sent after an event that `protects` it. */
  ghost predicate NeverResent(log: seq<Event>, protects: Event -> bool) {
    forall p, q :: 0 <= p < q < |log| && log[p].Flushed? && protects(log[p]) ==> log[q] != Sent(log[p].batch)
  }

  predicate Always(e: Event) { true }
  predicate WhenStored(e: Event) { e.Flushed? && e.stored }

  /** The number of batches recorded where the program will go on from. */
  function Reached(s: State): nat {
    match s.phase
    case Idle => if s.disk.Some? then |s.disk.value.perBatchDocs| else 0
    case Sending(_, next, _) => next
    case Answered(_, next, _) => next
    case Completed(l) => |l.perBatchDocs|
  }

  /** With --resume throughout: every flushed batch is below the point the file, and the program, have reached. */
  ghost predicate ResumeInvariant(sizes: seq<nat>, s: State) {
    && SoundState(sizes, s)
    && NeverResent(s.log, Always)
    && (forall p :: 0 <= p < |s.log| && s.log[p].Flushed? ==>
          s.log[p].batch < Reached(s) && s.disk.Some? && s.log[p].batch < |s.disk.value.perBatchDocs|)
  }

  predicate Resuming(step: Step) {
    step.Start? ==> step.resume
  }

  lemma ResumeStep(sizes: seq<nat>, s: State, step: Step)
    requires AllPositive(sizes) && ResumeInvariant(sizes, s) && Enabled(sizes, s, step) && Resuming(step)
    ensures ResumeInvariant(sizes, Apply(sizes, s, step))
  {
    StepIsSound(sizes, s, step);
    if step.Start? {
      StartIsSound(sizes, s, step.resume, step.listed);
    }
  }

  lemma {:induction false} ResumeRun(sizes: seq<nat>, steps: seq<Step>)
    requires AllPositive(sizes) && Run(sizes, steps).Some? && forall i :: 0 <= i < |steps| ==> Resuming(steps[i])
    ensures ResumeInvariant(sizes, Run(sizes, steps).value)
  {
    if steps != [] {
      ResumeRun(sizes, steps[..|steps| - 1]);
      ResumeStep(sizes, Run(sizes, steps[..|steps| - 1]).value, steps[|steps| - 1]);
    }
  }

  /** Over any crashes and resumes, a batch whose record was flushed is never sent again. */
  lemma FlushedIsNeverResent(sizes: seq<nat>, steps: seq<Step>)
    requires AllPositive(sizes) && Run(sizes, steps).Some? && forall i :: 0 <= i < |steps| ==> Resuming(steps[i])
    ensures NeverResent(Run(sizes, steps).value.log, Always)
  {
    ResumeRun(sizes, steps);
  }

  // ---------------------------------------------------------------------------------------------
  // Starts without --resume, and dataset lists that fail
  // ---------------------------------------------------------------------------------------------

  /** Some batch that the server holds was recorded. */
  ghost predicate HasKept(s: State) {
    exists p :: 0 <= p < |s.log| && WhenStored(s.log[p])
  }

  /**
   * A start that cannot lead to a stored and recorded batch being sent again: the answer lists the dataset, or the file
   * it goes on from has documents, or there is no such batch.
   */
  ghost predicate Protected(s: State, step: Step) {
    step.Start? && HasKept(s) ==> step.listed || Loaded(s, step.resume).documentsWritten > 0
  }

  ghost predicate ProtectedFrom(sizes: seq<nat>, from: State, steps: seq<Step>)
    requires RunFrom(sizes, from, steps).Some?
  {
    steps != [] ==>
      && ProtectedFrom(sizes, from, steps[..|steps| - 1])
      && Protected(RunFrom(sizes, from, steps[..|steps| - 1]).value, steps[|steps| - 1])
  }

  /** What the server holds and the file recorded stays out of reach. */
  ghost predicate MixedInvariant(sizes: seq<nat>, s: State) {
    && SoundState(sizes, s)
    && NeverResent(s.log, WhenStored)
    && (forall p :: 0 <= p < |s.log| && WhenStored(s.log[p]) ==>
          && s.stored != {} && s.log[p].batch < |sizes|
          && (s.phase.Idle? || s.log[p].batch < Reached(s))
          && (s.disk.Some? && (s.disk.value.perBatchDocs == [] || s.log[p].batch < |s.disk.value.perBatchDocs|)))
  }

  lemma MixedStep(sizes: seq<nat>, s: State, step: Step)
    requires AllPositive(sizes) && MixedInvariant(sizes, s) && Enabled(sizes, s, step) && Protected(s, step)
    ensures MixedInvariant(sizes, Apply(sizes, s, step))
  {
    StepIsSound(sizes, s, step);
    if step.Start? {
      StartIsSound(sizes, s, step.resume, step.listed);
    }
  }

  lemma {:induction false} MixedRun(sizes: seq<nat>, from: State, steps: seq<Step>)
    requires AllPositive(sizes) && MixedInvariant(sizes, from)
    requires RunFrom(sizes, from, steps).Some? && ProtectedFrom(sizes, from, steps)
    ensures MixedInvariant(sizes, RunFrom(sizes, from, steps).value)
  {
    if steps != [] {
      MixedRun(sizes, from, steps[..|steps| - 1]);
      MixedStep(sizes, RunFrom(sizes, from, steps[..|steps| - 1]).value, steps[|steps| - 1]);
    }
  }

  /** As long as every start is protected, a batch the server holds and the file recorded is never sent again. */
  lemma {:induction false} ProtectedIsNeverResent(sizes: seq<nat>, steps: seq<Step>)
    requires AllPositive(sizes) && Run(sizes, steps).Some? && ProtectedFrom(sizes, BEGIN, steps)
    ensures NeverResent(Run(sizes, steps).value.log, WhenStored)
  {
    MixedRun(sizes, BEGIN, steps);
  }

  /** The answer to a start's list call names the dataset whenever the server holds something of it. */
  predicate Truthful(s: State, step: Step) {
    step.Start? && s.stored != {} ==> step.listed
  }

  ghost predicate TruthfulFrom(sizes: seq<nat>, from: State, steps: seq<Step>)
    requires RunFrom(sizes, from, steps).Some?
  {
    steps != [] ==>
      && TruthfulFrom(sizes, from, steps[..|steps| - 1])
      && Truthful(RunFrom(sizes, from, steps[..|steps| - 1]).value, steps[|steps| - 1])
  }

  lemma {:induction false} TruthfulIsProtected(sizes: seq<nat>, steps: seq<Step>)
    requires AllPositive(sizes) && Run(sizes, steps).Some? && TruthfulFrom(sizes, BEGIN, steps)
    ensures ProtectedFrom(sizes, BEGIN, steps)
  {
    if steps != [] {
      TruthfulIsProtected(sizes, steps[..|steps| - 1]);
      MixedRun(sizes, BEGIN, steps[..|steps| - 1]);
    }
  }

  /**
   * With truthful dataset lists, even when some starts drop --resume, a batch the server holds and the file recorded is
   * never sent again.
   */
  lemma {:induction false} StoredIsNeverResent(sizes: seq<nat>, steps: seq<Step>)
    requires AllPositive(sizes) && Run(sizes, steps).Some? && TruthfulFrom(sizes, BEGIN, steps)
    ensures NeverResent(Run(sizes, steps).value.log, WhenStored)
  {
    TruthfulIsProtected(sizes, steps);
    ProtectedIsNeverResent(sizes, steps);
  }

  const ACCEPT := Send(Answer(false, 1), true)

  /** `k` batches, each accepted at once and recorded. */
  function SendAll(k: nat): seq<Step> {
    if k == 0 then [] else SendAll(k - 1) + [ACCEPT, Record]
  }

  predicate HasNoStart(steps: seq<Step>) {
    forall i :: 0 <= i < |steps| ==> !steps[i].Start?
  }

  lemma {:induction false} SendOne(sizes: seq<nat>, s: State)
    requires s.phase.Sending? && s.phase.next < |sizes|
    ensures var r := RunFrom(sizes, s, [ACCEPT, Record]);
            r.Some? && r.value.phase.Sending? && r.value.phase.next == s.phase.next + 1 && s.log <= r.value.log
  {
    assert [ACCEPT, Record][..1] == [ACCEPT] && [ACCEPT][..0] == [];
    assert RunFrom(sizes, s, [ACCEPT]) == Some(Apply(sizes, s, ACCEPT));
  }

  lemma {:induction false} SendAllRuns(sizes: seq<nat>, s: State, k: nat)
    requires s.phase.Sending? && s.phase.next + k <= |sizes|
    ensures HasNoStart(SendAll(k))
    ensures var r := RunFrom(sizes, s, SendAll(k));
            r.Some? && r.value.phase.Sending? && r.value.phase.next == s.phase.next + k && s.log <= r.value.log
  {
    if k > 0 {
      SendAllRuns(sizes, s, k - 1);
      RunInTwoParts(sizes, s, SendAll(k - 1), [ACCEPT, Record]);
      SendOne(sizes, RunFrom(sizes, s, SendAll(k - 1)).value);
    }
  }

  /** After this start, and before the next one, some stored and recorded batch can be sent again. */
  ghost predicate MayResend(sizes: seq<nat>, s: State, start: Step)
    requires Enabled(sizes, s, start)
  {
    exists more :: HasNoStart(more) && Resends(sizes, Apply(sizes, s, start), more)
  }

  ghost predicate Resends(sizes: seq<nat>, s: State, more: seq<Step>) {
    RunFrom(sizes, s, more).Some? && !NeverResent(RunFrom(sizes, s, more).value.log, WhenStored)
  }

  lemma {:induction false} NoStartIsProtected(sizes: seq<nat>, from: State, steps: seq<Step>)
    requires RunFrom(sizes, from, steps).Some? && HasNoStart(steps)
    ensures ProtectedFrom(sizes, from, steps)
  {
    if steps != [] {
      NoStartIsProtected(sizes, from, steps[..|steps| - 1]);
    }
  }

  /** An unprotected start goes back to the first batch and in time reaches one that is stored and recorded. */
  lemma UnprotectedResends(sizes: seq<nat>, s: State, start: Step)
    requires MixedInvariant(sizes, s) && Enabled(sizes, s, start) && start.Start? && !Protected(s, start)
    ensures MayResend(sizes, s, start)
  {
    var p :| 0 <= p < |s.log| && WhenStored(s.log[p]);
    var b, s1 := s.log[p].batch, Apply(sizes, s, start);
    SendAllRuns(sizes, s1, b);
    var s2 := RunFrom(sizes, s1, SendAll(b)).value;
    var more := SendAll(b) + [ACCEPT];
    assert more[..|more| - 1] == SendAll(b);
    var s3 := RunFrom(sizes, s1, more).value;
    assert s3 == Apply(sizes, s2, ACCEPT);
    assert s3.log[p] == s2.log[p] == s1.log[p] == s.log[p] && s3.log[|s2.log|] == Sent(b);
    assert Resends(sizes, s1, more);
  }

  /**
   * The exact condition, start by start: after a run whose starts were protected, one more start can make a stored and
   * recorded batch be sent again if and only if it is not protected.
   */
  lemma {:induction false} ResendsExactlyUnprotected(sizes: seq<nat>, steps: seq<Step>, start: Step)
    requires AllPositive(sizes) && Run(sizes, steps).Some? && ProtectedFrom(sizes, BEGIN, steps)
    requires start.Start? && Enabled(sizes, Run(sizes, steps).value, start)
    ensures MayResend(sizes, Run(sizes, steps).value, start) <==> !Protected(Run(sizes, steps).value, start)
  {
    var s := Run(sizes, steps).value;
    MixedRun(sizes, BEGIN, steps);
    if Protected(s, start) {
      var s1 := Apply(sizes, s, start);
      MixedStep(sizes, s, start);
      forall more | HasNoStart(more) && RunFrom(sizes, s1, more).Some? ensures !Resends(sizes, s1, more) {
        NoStartIsProtected(sizes, s1, more);
        MixedRun(sizes, s1, more);
      }
    } else {
      UnprotectedResends(sizes, s, start);
    }
  }

  /** One recorded batch, a start without --resume whose list call fails, and the batch is sent a second time. */
  lemma FailedListResends(sizes: seq<nat>)
    requires sizes != []
    ensures var steps := [Start(true, false), ACCEPT, Record, Crash, Start(false, false), ACCEPT];
            Run(sizes, steps).Some? && Run(sizes, steps).value.log == [Sent(0), Flushed(0, true), Sent(0)]
  {
    var first := [Start(true, false), ACCEPT, Record];
    var s1 := Apply(sizes, BEGIN, Start(true, false));
    var s3 := Apply(sizes, Apply(sizes, s1, ACCEPT), Record);
    ThreeSteps(sizes, BEGIN, Start(true, false), ACCEPT, Record);
    ThreeSteps(sizes, s3, Crash, Start(false, false), ACCEPT);
    RunInTwoParts(sizes, BEGIN, first, [Crash, Start(false, false), ACCEPT]);
    assert first + [Crash, Start(false, false), ACCEPT]
        == [Start(true, false), ACCEPT, Record, Crash, Start(false, false), ACCEPT];
  }

  lemma {:induction false} ThreeSteps(sizes: seq<nat>, s: State, a: Step, b: Step, c: Step)
    requires Enabled(sizes, s, a) && Enabled(sizes, Apply(sizes, s, a), b)
    requires Enabled(sizes, Apply(sizes, Apply(sizes, s, a), b), c)
    ensures RunFrom(sizes, s, [a, b, c]) == Some(Apply(sizes, Apply(sizes, Apply(sizes, s, a), b), c))
  {
    hide Apply, Enabled;
    OneStep(sizes, s, a);
    OneStep(sizes, Apply(sizes, s, a), b);
    OneStep(sizes, Apply(sizes, Apply(sizes, s, a), b), c);
    RunInTwoParts(sizes, s, [a], [b]);
    RunInTwoParts(sizes, s, [a] + [b], [c]);
    assert [a] + [b] + [c] == [a, b, c];
  }

  // ---------------------------------------------------------------------------------------------
  // When an interrupted ingest can be resumed
  // ---------------------------------------------------------------------------------------------

  /** The program is not running, the server holds a batch, but no document is recorded. */
  ghost predicate Orphaned(s: State) {
    && s.phase.Idle? && s.stored != {}
    && (s.disk.Some? ==> s.disk.value.documentsWritten == 0)
  }

  /**
   * A start is refused, leaving the program stopped, exactly when the dataset is listed and no recorded document is
   * loaded.
   */
  lemma RefusedExactly(sizes: seq<nat>, s: State, resume: bool, listed: bool)
    requires s.phase.Idle?
    ensures Apply(sizes, s, Start(resume, listed)).phase.Idle?
            <==> listed && !(resume && s.disk.Some? && s.disk.value.documentsWritten > 0)
  {
  }

  /**
   * With the server holding something, a start with --resume is refused exactly in an orphaned state with a listed
   * dataset.
   */
  lemma ResumeRefusedExactly(sizes: seq<nat>, s: State, listed: bool)
    requires s.phase.Idle? && s.stored != {}
    ensures Apply(sizes, s, Start(true, listed)).phase.Idle? <==> listed && Orphaned(s)
  {
    RefusedExactly(sizes, s, true, listed);
  }

  predicate AllListed(steps: seq<Step>) {
    forall i :: 0 <= i < |steps| && steps[i].Start? ==> steps[i].listed
  }

  /** While the dataset is listed, every start from an orphaned state is refused and nothing is ever sent. */
  lemma {:induction false} OrphanedStaysStuck(sizes: seq<nat>, s: State, more: seq<Step>)
    requires Orphaned(s) && RunFrom(sizes, s, more).Some? && AllListed(more)
    ensures Orphaned(RunFrom(sizes, s, more).value) && RunFrom(sizes, s, more).value.log == s.log
  {
    if more != [] {
      OrphanedStaysStuck(sizes, s, more[..|more| - 1]);
    }
  }

  /** A list call that fails lets even an orphaned state send, from the first batch on. */
  lemma FailedListUnsticks(sizes: seq<nat>, s: State, resume: bool)
    requires Orphaned(s)
    ensures var s' := Apply(sizes, s, Start(resume, false)); s'.phase.Sending? && s'.phase.next == 0
  {
  }

  /** Some way to go on, with the dataset listed at every start, ends with the batch loop done. */
  ghost predicate CanComplete(sizes: seq<nat>, s: State) {
    exists more :: AllListed(more) && Completes(sizes, s, more)
  }

  ghost predicate Completes(sizes: seq<nat>, s: State, more: seq<Step>) {
    && RunFrom(sizes, s, more).Some? && RunFrom(sizes, s, more).value.phase.Completed?
    && RunFrom(sizes, s, more).value.phase.ledger.documentsWritten == Sum(sizes)
  }

  /** From the middle of the batch loop, accepted calls lead to its end. */
  lemma LoopCompletes(sizes: seq<nat>, s: State) returns (more: seq<Step>)
    requires AllPositive(sizes) && SoundState(sizes, s) && s.phase.Sending?
    ensures HasNoStart(more) && Completes(sizes, s, more)
  {
    var k := |sizes| - s.phase.next;
    more := SendAll(k) + [Finish];
    SendAllRuns(sizes, s, k);
    RunInTwoParts(sizes, s, SendAll(k), [Finish]);
    OneStep(sizes, RunFrom(sizes, s, SendAll(k)).value, Finish);
    SoundFrom(sizes, s, more);
  }

  lemma ResumeCompletes(sizes: seq<nat>, s: State)
    requires AllPositive(sizes) && SoundState(sizes, s) && s.phase.Idle? && s.stored != {} && !Orphaned(s)
    ensures CanComplete(sizes, s)
  {
    var start := Start(true, true);
    var s1 := Apply(sizes, s, start);
    StepIsSound(sizes, s, start);
    OneStep(sizes, s, start);
    var more: seq<Step> := [];
    if s1.phase.Sending? {
      more := LoopCompletes(sizes, s1);
    }
    RunInTwoParts(sizes, s, [start], more);
    assert AllListed([start] + more);
    assert Completes(sizes, s, [start] + more);
  }

  /**
   * The exact condition for recovery: after any run, with the program stopped and the server holding something of a
   * listed dataset, the ingest can still be completed if and only if the file records at least one document.
   */
  lemma ResumableExactly(sizes: seq<nat>, steps: seq<Step>)
    requires AllPositive(sizes) && Run(sizes, steps).Some?
    requires Run(sizes, steps).value.phase.Idle? && Run(sizes, steps).value.stored != {}
    ensures CanComplete(sizes, Run(sizes, steps).value) <==> !Orphaned(Run(sizes, steps).value)
  {
    var s := Run(sizes, steps).value;
    RunIsSound(sizes, steps);
    if Orphaned(s) {
      forall more | AllListed(more) && RunFrom(sizes, s, more).Some? ensures !Completes(sizes, s, more) {
        OrphanedStaysStuck(sizes, s, more);
      }
    } else {
      ResumeCompletes(sizes, s);
    }
  }

  /**
   * How a state becomes orphaned: the program ends while the server holds something and the file records nothing, or a
   * start without --resume is refused and rewrites the file with an empty ledger.
   */
  lemma OrphanedByExactly(sizes: seq<nat>, s: State, step: Step)
    requires Enabled(sizes, s, step) && !Orphaned(s)
    ensures Orphaned(Apply(sizes, s, step)) <==>
            s.stored != {} && ((step == Crash && (s.disk.Some? ==> s.disk.value.documentsWritten == 0))
                               || step == Start(false, true))
  {
  }

  /** One accepted call and one crash away: the window between the first answer and the first flush. */
  lemma CrashBeforeFirstFlush(sizes: seq<nat>)
    requires sizes != []
    ensures var steps := [Start(true, false), ACCEPT, Crash];
            Run(sizes, steps).Some? && Orphaned(Run(sizes, steps).value)
  {
    ThreeSteps(sizes, BEGIN, Start(true, false), ACCEPT, Crash);
    assert 0 in Run(sizes, [Start(true, false), ACCEPT, Crash]).value.stored;
  }

  /** A start without --resume on a listed dataset orphans whatever was recorded. */
  lemma RefusedStartOrphans(sizes: seq<nat>, s: State)
    requires s.phase.Idle? && s.stored != {}
    ensures Orphaned(Apply(sizes, s, Start(false, true)))
  {
  }

  // ----- an uninterrupted run is the batch loop -----

  /** The attempts on one batch, from the given one on, and the record. */
  function BatchSteps(server: (nat, nat) -> Answer, b: nat, attempt: nat): seq<Step>
    requires 1 <= attempt <= 3
    decreases 3 - attempt
  {
    var answer := server(b, attempt);
    [Send(answer, Accepted(answer))]
    + if Accepted(answer) || attempt == 3 then [Record] else BatchSteps(server, b, attempt + 1)
  }

  function LoopSteps(server: (nat, nat) -> Answer, next: nat, end: nat): seq<Step>
    requires next <= end
  {
    if next == end then [] else LoopSteps(server, next, end - 1) + BatchSteps(server, end - 1, 1)
  }

  lemma {:induction false} BatchIsRecorded(
      sizes: seq<nat>, s: State, l: Ledger, server: (nat, nat) -> Answer, b: nat, attempt: nat)
    requires 1 <= attempt <= 3 && b < |sizes| && s.phase == Sending(l, b, attempt - 1)
    ensures var recorded := Recorded(l, b, sizes[b], LastAnswer(server, b, attempt));
            var r := RunFrom(sizes, s, BatchSteps(server, b, attempt));
            r.Some? && r.value.phase == Sending(recorded, b + 1, 0) && r.value.disk == Some(recorded)
    decreases 3 - attempt
  {
    hide RunFrom;
    var answer := server(b, attempt);
    var send := Send(answer, Accepted(answer));
    var sent := Apply(sizes, s, send);
    OneStep(sizes, s, send);
    if Accepted(answer) || attempt == 3 {
      OneStep(sizes, sent, Record);
      RunInTwoParts(sizes, s, [send], [Record]);
    } else {
      BatchIsRecorded(sizes, sent, l, server, b, attempt + 1);
      RunInTwoParts(sizes, s, [send], BatchSteps(server, b, attempt + 1));
    }
  }

  lemma {:induction false} LoopIsRecorded(
      sizes: seq<nat>, s: State, l: Ledger, server: (nat, nat) -> Answer, next: nat, end: nat)
    requires next <= end <= |sizes| && s.phase == Sending(l, next, 0)
    ensures var recorded := RecordRest(l, sizes, server, next, end);
            var r := RunFrom(sizes, s, LoopSteps(server, next, end));
            && r.Some? && r.value.phase == Sending(recorded, end, 0)
            && r.value.disk == if next == end then s.disk else Some(recorded)
  {
    if next < end {
      hide RunFrom, Recorded, LastAnswer;
      LoopIsRecorded(sizes, s, l, server, next, end - 1);
      var before := RunFrom(sizes, s, LoopSteps(server, next, end - 1)).value;
      BatchIsRecorded(sizes, before, RecordRest(l, sizes, server, next, end - 1), server, end - 1, 1);
      RunInTwoParts(sizes, s, LoopSteps(server, next, end - 1), BatchSteps(server, end - 1, 1));
    }
  }

  /**
   * A start that is not refused, followed without a crash by up to three attempts on every remaining batch, each
   * recorded after them, leaves on disk what the ledger's ingest computes.
   */
  lemma UninterruptedIsIngested(
      sizes: seq<nat>, s: State, server: (nat, nat) -> Answer, resume: bool, listed: bool)
    requires AllPositive(sizes) && SoundState(sizes, s) && s.phase.Idle?
    requires Ingested(Loaded(s, resume), sizes, server, listed, resume).Some?
    ensures var l := Loaded(s, resume);
            var steps := if listed && l.documentsWritten >= Sum(sizes) then [Start(resume, listed)]
                         else [Start(resume, listed)] + LoopSteps(server, FirstBatch(l, sizes), |sizes|) + [Finish];
            var r := RunFrom(sizes, s, steps);
            r.Some? && r.value.phase.Completed?
            && r.value.disk == Ingested(l, sizes, server, listed, resume)
  {
    hide RunFrom, RecordRest;
    var l, start := Loaded(s, resume), Start(resume, listed);
    var started := Apply(sizes, s, start);
    OneStep(sizes, s, start);
    if !(listed && l.documentsWritten >= Sum(sizes)) {
      var loop := LoopSteps(server, FirstBatch(l, sizes), |sizes|);
      PositiveSum(l.perBatchDocs);
      LoopIsRecorded(sizes, started, l, server, FirstBatch(l, sizes), |sizes|);
      RunInTwoParts(sizes, s, [start], loop);
      var looped := RunFrom(sizes, s, [start] + loop).value;
      OneStep(sizes, looped, Finish);
      RunInTwoParts(sizes, s, [start] + loop, [Finish]);
    }
  }
}
