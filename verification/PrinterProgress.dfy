/** What becomes of a job, an opening and a query when the hardware behaves, and when it does
    not: stated over runs of the machine, from the answers of the device thread to the row, the
    paper and the caller. */
module PrinterProgress {
  import opened Options
  import opened PrinterMachine
  import opened PrinterInvariant
  import opened PrinterRuns
  import opened PrinterTheorems
  import opened PrinterJournal

  /** The hardware does what it is asked, and no job raises while it is rendered. */
  predicate GoesWell(step: Step) {
    (step.DoRun? ==> step.fate == Well) && (step.DoRendered? ==> step.sound)
  }

  predicate AllGoesWell(steps: seq<Step>) {
    forall i :: 0 <= i < |steps| ==> GoesWell(steps[i])
  }

  // ----- every job is printed ------------------------------------------------------------

  /** Nobody is giving the device up, and no bad answer is on its way to the worker. */
  ghost predicate Smooth(s: State) {
    && Alive(s.worker) && !s.cancelling && s.disconnects == 0
    && (s.worker.Checking? && s.worker.op in s.results ==> s.results[s.worker.op] == Answered(true))
    && (s.worker.Writing? && s.worker.op in s.results ==> s.results[s.worker.op] == Success)
  }

  /** The job is still to be done, or has been printed; `waiter` is its caller as it began. */
  ghost predicate Coming(s: State, j: JobId, waiter: Waiter) {
    && j < |s.jobs|
    && if j in s.queue || (Holds(s.worker) && s.worker.job == j) then s.jobs[j].waiter == waiter
       else s.jobs[j] == Job(if waiter == Waiting then ToldOk else waiter, [RowOk], Whole)
  }

  lemma SmoothLock(s: State)
    requires Inv(s) && Smooth(s)
    ensures s.orphan.None? && !s.retired && s.lock.Free? && s.printer.Some?
  {
  }

  lemma TakeGoesWell(s: State, j: JobId, waiter: Waiter)
    requires Inv(s) && Smooth(s) && Enabled(s, DoTake) && Coming(s, j, waiter)
    ensures Smooth(Take(s)) && Coming(Take(s), j, waiter)
  {
    assert s.queue == [s.queue[0]] + s.queue[1..];
    assert j in s.queue[1..] ==> s.queue[0] != j;
  }

  lemma WorkGoesWell(s: State, step: Step, j: JobId, waiter: Waiter)
    requires Inv(s) && Smooth(s) && Enabled(s, step) && GoesWell(step) && Coming(s, j, waiter)
    requires step.DoChecked? || step.DoRendered?
    ensures Smooth(Apply(s, step)) && Coming(Apply(s, step), j, waiter)
  {
  }

  lemma WriteGoesWell(s: State, j: JobId, waiter: Waiter)
    requires Inv(s) && Smooth(s) && Enabled(s, DoWritten) && Coming(s, j, waiter)
    ensures Smooth(Written(s)) && Coming(Written(s), j, waiter)
  {
  }

  lemma RunGoesWell(s: State, j: JobId, waiter: Waiter)
    requires Inv(s) && Smooth(s) && s.device != [] && Coming(s, j, waiter)
    ensures Smooth(RunHead(s, Well)) && Coming(RunHead(s, Well), j, waiter)
  {
  }

  lemma RestGoesWell(s: State, step: Step, j: JobId, waiter: Waiter)
    requires Inv(s) && Smooth(s) && Enabled(s, step) && !External(step) && Coming(s, j, waiter)
    requires step.DoDeliver? || step.DoCloseStray? || step.DoCloseLate?
    ensures Smooth(Apply(s, step)) && Coming(Apply(s, step), j, waiter)
  {
  }

  lemma StepGoesWell(s: State, step: Step, j: JobId, waiter: Waiter)
    requires Inv(s) && Smooth(s) && Enabled(s, step) && GoesWell(step) && !External(step) && Coming(s, j, waiter)
    ensures Smooth(Apply(s, step)) && Coming(Apply(s, step), j, waiter)
  {
    SmoothLock(s);
    match step
    case DoTake => TakeGoesWell(s, j, waiter);
    case DoChecked => WorkGoesWell(s, step, j, waiter);
    case DoRendered(_) => WorkGoesWell(s, step, j, waiter);
    case DoWritten => WriteGoesWell(s, j, waiter);
    case DoRun(_) => RunGoesWell(s, j, waiter);
    case _ => RestGoesWell(s, step, j, waiter);
  }

  lemma {:induction false} RunsGoWell(s: State, steps: seq<Step>, j: JobId, waiter: Waiter)
    requires Inv(s) && Smooth(s) && CanRun(s, steps) && NobodyCalls(steps) && AllGoesWell(steps) && Coming(s, j, waiter)
    ensures Smooth(Run(s, steps)) && Coming(Run(s, steps), j, waiter)
    decreases |steps|
  {
    if steps != [] {
      assert GoesWell(steps[0]) && !External(steps[0]);
      StepKeeps(s, steps[0]);
      StepGoesWell(s, steps[0], j, waiter);
      RunsGoWell(Apply(s, steps[0]), steps[1..], j, waiter);
    }
  }

  /** Where all goes well every queued job is printed, spooler or not: at whatever end the
      device comes to, its bytes are all on paper, its row says ok, and its caller, if one
      waited, was told so. */
  lemma WellEveryJobIsPrinted(s: State, steps: seq<Step>, j: JobId)
    requires Reachable(s) && s.worker.Idle? && !s.cancelling && s.disconnects == 0 && j in s.queue
    requires CanRun(s, steps) && NobodyCalls(steps) && AllGoesWell(steps) && Quiescent(Run(s, steps))
    ensures j < |s.jobs| && j < |Run(s, steps).jobs|
    ensures Run(s, steps).jobs[j] ==
              Job(if s.jobs[j].waiter == Waiting then ToldOk else s.jobs[j].waiter, [RowOk], Whole)
  {
    ReachableInv(s);
    RunsGoWell(s, steps, j, s.jobs[j].waiter);
    RunKeepsInv(s, steps);
    WorkerRests(Run(s, steps));
  }

  lemma AGoodStep(s: State) returns (step: Step)
    requires Reachable(s) && !Quiescent(s)
    ensures Enabled(s, step) && !External(step) && GoesWell(step)
    ensures Reachable(Apply(s, step)) && Weight(Apply(s, step)) < Weight(s)
  {
    var any :| Enabled(s, any) && !External(any);
    step := if any.DoRun? then DoRun(Well) else if any.DoRendered? then DoRendered(true) else any;
    ReachableInv(s);
    InternalStepsAreLighter(s, step);
    ReachableStep(s, step);
  }

  /** And there is such an end. */
  lemma {:induction false} AGoodEndExists(s: State) returns (steps: seq<Step>)
    requires Reachable(s)
    ensures CanRun(s, steps) && NobodyCalls(steps) && AllGoesWell(steps) && Quiescent(Run(s, steps))
    decreases Weight(s)
  {
    if Quiescent(s) {
      steps := [];
    } else {
      var step := AGoodStep(s);
      var rest := AGoodEndExists(Apply(s, step));
      steps := [step] + rest;
      assert steps[1..] == rest;
    }
  }

  // ----- what each answer of the device thread comes to ------------------------------------

  /** The thread runs the operation, its result reaches the event loop, whoever waits goes on. */
  function Answering(fate: Fate, op: OpId, next: Step): seq<Step> {
    [DoRun(fate), DoDeliver(op), next]
  }

  lemma AnswerRuns(s: State, fate: Fate, op: OpId, next: Step)
    requires DeviceInv(s) && s.device != [] && s.device[0].id == op
    requires Enabled(Deliver(RunHead(s, fate), op), next)
    ensures CanRun(s, Answering(fate, op, next))
    ensures Run(s, Answering(fate, op, next)) == Apply(Deliver(RunHead(s, fate), op), next)
  {
    var t := RunHead(s, fate);
    assert Enabled(t, DoDeliver(op));
    assert CanRun(Apply(Deliver(t, op), next), []);
    assert Answering(fate, op, next)[1..] == [DoDeliver(op), next] && [DoDeliver(op), next][1..] == [next] && [next][1..] == [];
    var u := Deliver(t, op);
    assert CanRun(u, [next]) && Run(u, [next]) == Run(Apply(u, next), []);
    assert CanRun(t, [DoDeliver(op), next]) && Run(t, [DoDeliver(op), next]) == Run(u, [next]);
  }

  /** Where things stand once the result of a write has reached the event loop. */
  lemma WriteAnswered(s: State, fate: Fate)
    requires Inv(s) && s.worker.Writing? && s.device != [] && s.device[0].id == s.worker.op
    ensures var u, j := Deliver(RunHead(s, fate), s.worker.op), s.worker.job;
            && j < |s.jobs| && Done(u, s.worker.op) && u.worker == s.worker && u.cancelling == s.cancelling
            && u.results[s.worker.op] == (if fate.Breaks? then Failed(fate.os) else Success)
            && u.printer == s.printer && u.queue == s.queue && u.orphan == s.orphan
            && u.jobs == s.jobs[j := s.jobs[j].(paper := if fate.Breaks? then Incomplete else Whole)]
  {
    WriteIsHead(s);
  }

  lemma RowGiven(jobs: seq<Job>, j: JobId, paper: Paper, row: Row)
    requires j < |jobs| && jobs[j].rows == [] && jobs[j].waiter != ToldOk && jobs[j].waiter != ToldError
    ensures Ended(jobs[j := jobs[j].(paper := paper)], j, row, if row == RowOk then ToldOk else ToldError)
         == jobs[j := Over(jobs[j], row, paper)]
  {
    assert [] + [row] == [row];
  }

  lemma WriteEnds(u: State, jobs: seq<Job>, j: JobId, h: Handle, op: OpId, paper: Paper)
    requires u.worker == Writing(j, h, op) && Done(u, op) && u.results[op] != Failed(true) && j < |jobs|
    requires u.jobs == jobs[j := jobs[j].(paper := paper)]
    requires jobs[j].rows == [] && jobs[j].waiter != ToldOk && jobs[j].waiter != ToldError
    ensures var t := Written(u);
            && t.worker == Idle && !t.inFlight && t.printer == u.printer && t.queue == u.queue
            && t.jobs == jobs[j := Over(jobs[j], if u.results[op].Failed? then RowFailed else RowOk, paper)]
  {
    RowGiven(jobs, j, paper, if u.results[op].Failed? then RowFailed else RowOk);
  }

  lemma StatusAnswered(s: State, fate: Fate)
    requires Inv(s) && s.worker.Checking? && s.device != [] && s.device[0].id == s.worker.op
    ensures var u := Deliver(RunHead(s, fate), s.worker.op);
            && Done(u, s.worker.op) && u.worker == s.worker && u.cancelling == s.cancelling && u.jobs == s.jobs && u.inFlight
            && u.results[s.worker.op] == Result.Answered(fate != Unfit)
  {
    assert s.device[0] == Item(s.worker.op, Status);
  }

  /** The job with its row, its caller told accordingly. */
  function Over(job: Job, row: Row, paper: Paper): Job {
    var answer := if row == RowOk then ToldOk else ToldError;
    Job(if job.waiter == Waiting then answer else job.waiter, [row], paper)
  }

  /** A status query lets its job be rendered unless it finds the printer unfit; a query that
      breaks lets it through too. */
  lemma QueryRefusesExactly(s: State, fate: Fate)
    requires Reachable(s) && s.worker.Checking? && !s.cancelling && s.device != [] && s.device[0].id == s.worker.op
    ensures CanRun(s, Answering(fate, s.worker.op, DoChecked))
    ensures var t, j := Run(s, Answering(fate, s.worker.op, DoChecked)), s.worker.job;
            && j < |s.jobs|
            && if fate == Unfit then t.worker == Idle && !t.inFlight && t.jobs == s.jobs[j := Over(s.jobs[j], RowFailed, Untouched)]
               else t.worker == Rendering(j, s.worker.h) && t.inFlight && t.jobs == s.jobs
  {
    ReachableInv(s);
    StatusAnswered(s, fate);
    AnswerRuns(s, fate, s.worker.op, DoChecked);
    RefusedOrNot(Deliver(RunHead(s, fate), s.worker.op), s.worker.job);
  }

  lemma RefusedOrNot(u: State, j: JobId)
    requires u.worker.Checking? && u.worker.job == j && Done(u, u.worker.op) && u.results[u.worker.op].Answered? && u.inFlight
    requires j < |u.jobs| && u.jobs[j].rows == [] && u.jobs[j].waiter != ToldOk && u.jobs[j].waiter != ToldError
    requires u.jobs[j].paper == Untouched
    ensures var t := Checked(u);
            if !u.results[u.worker.op].fit then t.worker == Idle && !t.inFlight && t.jobs == u.jobs[j := Over(u.jobs[j], RowFailed, Untouched)]
            else t.worker == Rendering(j, u.worker.h) && t.inFlight && t.jobs == u.jobs
  {
    assert [] + [RowFailed] == [RowFailed];
  }

  lemma WriteIsHead(s: State)
    requires Inv(s) && s.worker.Writing? && s.device != [] && s.device[0].id == s.worker.op
    ensures s.worker.job < |s.jobs| && s.device[0] == Item(s.worker.op, Write(s.worker.h, s.worker.job))
    ensures s.jobs[s.worker.job].rows == [] && s.jobs[s.worker.job].waiter != ToldOk && s.jobs[s.worker.job].waiter != ToldError
  {
  }

  /** A write that does not break: the row says ok, the caller is told so, and the worker is back
      at the queue with the same handle. One that breaks without an OSError leaves the rest alone
      as well. */
  lemma WriteEndsExactly(s: State, fate: Fate)
    requires Reachable(s) && s.worker.Writing? && !s.cancelling && s.device != [] && s.device[0].id == s.worker.op
    requires fate != Breaks(true)
    ensures CanRun(s, Answering(fate, s.worker.op, DoWritten))
    ensures var t, j := Run(s, Answering(fate, s.worker.op, DoWritten)), s.worker.job;
            && j < |s.jobs|
            && t.worker == Idle && !t.inFlight && t.printer == s.printer && t.queue == s.queue
            && t.jobs == s.jobs[j := if fate.Breaks? then Over(s.jobs[j], RowFailed, Incomplete) else Over(s.jobs[j], RowOk, Whole)]
  {
    ReachableInv(s);
    WriteIsHead(s);
    WriteAnswered(s, fate);
    AnswerRuns(s, fate, s.worker.op, DoWritten);
    WriteEnds(Deliver(RunHead(s, fate), s.worker.op), s.jobs, s.worker.job, s.worker.h, s.worker.op,
              if fate.Breaks? then Incomplete else Whole);
  }

  /** One that breaks with an OSError ends the connection: the worker is gone, the handle is on
      its way to be closed, and every queued job is given up. */
  lemma LostConnectionExactly(s: State)
    requires Reachable(s) && s.worker.Writing? && !s.cancelling && s.device != [] && s.device[0].id == s.worker.op
    ensures CanRun(s, Answering(Breaks(true), s.worker.op, DoWritten))
    ensures var t, j := Run(s, Answering(Breaks(true), s.worker.op, DoWritten)), s.worker.job;
            && t.worker == Dead && !t.inFlight && t.printer == None && t.queue == []
            && j < |s.jobs| == |t.jobs| && t.jobs[j] == Over(s.jobs[j], RowFailed, Incomplete)
            && t.device == s.device[1..] + [Item(s.nextOp, Close(s.worker.h))]
            && forall k :: 0 <= k < |s.jobs| && k != j ==>
                 t.jobs[k] == if k in s.queue then Over(s.jobs[k], RowCancelled, Untouched) else s.jobs[k]
  {
    ReachableInv(s);
    LostTurn(s);
    AnswerRuns(s, Breaks(true), s.worker.op, DoWritten);
    LostJobs(s);
  }

  lemma QueueGivenUp(s: State, jobs: seq<Job>, k: JobId)
    requires Inv(s) && k < |s.jobs| == |jobs| && jobs[k] == s.jobs[k]
    ensures |Drained(s.queue, jobs)| == |jobs|
    ensures Drained(s.queue, jobs)[k] == if k in s.queue then Over(s.jobs[k], RowCancelled, Untouched) else s.jobs[k]
  {
    DrainedEffect(s.queue, jobs);
    if k in s.queue {
      assert Unanswered(s.jobs[k]) && s.jobs[k].paper == Untouched;
    }
  }

  lemma LostOutcome(u: State, s: State)
    requires Inv(s) && s.worker.Writing? && s.worker.job < |s.jobs|
    requires u.queue == s.queue && u.worker == s.worker && u.printer == s.printer && u.nextOp == s.nextOp
    requires u.jobs == s.jobs[s.worker.job := s.jobs[s.worker.job].(paper := Incomplete)] && |u.places| == |s.places|
    ensures var t, j := ConnectionLost(u, s.worker.job), s.worker.job;
            && t.worker == Dead && !t.inFlight && t.printer == None && t.queue == []
            && t.device == u.device + [Item(s.nextOp, Close(s.worker.h))]
            && t.jobs == Drained(s.queue, s.jobs[j := Over(s.jobs[j], RowFailed, Incomplete)])
  {
    var j := s.worker.job;
    RowGiven(s.jobs, j, Incomplete, RowFailed);
  }

  lemma LostTurn(s: State)
    requires Inv(s) && s.worker.Writing? && !s.cancelling && s.device != [] && s.device[0].id == s.worker.op
    ensures Enabled(Deliver(RunHead(s, Breaks(true)), s.worker.op), DoWritten)
    ensures s.worker.job < |s.jobs|
    ensures var t, j := Apply(Deliver(RunHead(s, Breaks(true)), s.worker.op), DoWritten), s.worker.job;
            && t.worker == Dead && !t.inFlight && t.printer == None && t.queue == []
            && t.device == s.device[1..] + [Item(s.nextOp, Close(s.worker.h))]
            && t.jobs == Drained(s.queue, s.jobs[j := Over(s.jobs[j], RowFailed, Incomplete)])
  {
    WriteIsHead(s);
    LostOutcome(Deliver(RunHead(s, Breaks(true)), s.worker.op), s);
  }

  lemma LostJobs(s: State)
    requires Inv(s) && s.worker.Writing? && s.worker.job < |s.jobs|
    ensures var j := s.worker.job; var jobs := Drained(s.queue, s.jobs[j := Over(s.jobs[j], RowFailed, Incomplete)]);
            && |jobs| == |s.jobs| && jobs[j] == Over(s.jobs[j], RowFailed, Incomplete)
            && forall k :: 0 <= k < |s.jobs| && k != j ==>
                 jobs[k] == if k in s.queue then Over(s.jobs[k], RowCancelled, Untouched) else s.jobs[k]
  {
    var j := s.worker.job;
    var jobs := s.jobs[j := Over(s.jobs[j], RowFailed, Incomplete)];
    DrainedEffect(s.queue, jobs);
    assert j !in s.queue;
    forall k | 0 <= k < |s.jobs| && k != j
      ensures Drained(s.queue, jobs)[k] == if k in s.queue then Over(s.jobs[k], RowCancelled, Untouched) else s.jobs[k]
    {
      QueueGivenUp(s, jobs, k);
    }
  }

  /** A worker cancelled while its write is still to come leaves row and answer to the write, and
      they say what the write came to. */
  lemma CancelledWriteEndsExactly(s: State, fate: Fate)
    requires Reachable(s) && s.worker.Writing? && s.cancelling && s.device != [] && s.device[0].id == s.worker.op
    ensures var op, steps := s.worker.op, Answering(fate, s.worker.op, DoOrphanEnds);
            Enabled(s, DoCancelled) && CanRun(Cancelled(s), steps)
    ensures var t, j := Run(Cancelled(s), Answering(fate, s.worker.op, DoOrphanEnds)), s.worker.job;
            && j < |s.jobs| && t.worker == Dead && !t.inFlight && t.orphan == None
            && t.jobs == s.jobs[j := if fate.Breaks? then Over(s.jobs[j], RowFailed, Incomplete) else Over(s.jobs[j], RowOk, Whole)]
  {
    ReachableInv(s);
    WriteIsHead(s);
    LeftToTheWrite(s);
    CancelledKeeps(s);
    var c := Cancelled(s);
    AnswerRuns(c, fate, s.worker.op, DoOrphanEnds);
    OrphanWriteEnds(c, s.jobs, s.worker.job, s.worker.h, fate);
  }

  lemma LeftToTheWrite(s: State)
    requires Inv(s) && s.worker.Writing? && s.cancelling && s.device != [] && s.device[0].id == s.worker.op
    ensures var c, j := Cancelled(s), s.worker.job;
            && j < |s.jobs| && c.worker == Dead && c.jobs == s.jobs && c.device == s.device && !c.cancelling
            && c.orphan == Some(Orphan(j, s.worker.h, s.worker.op, s.jobs[j].waiter == Waiting, true))
  {
  }

  lemma OrphanWriteEnds(c: State, jobs: seq<Job>, j: JobId, h: Handle, fate: Fate)
    requires c.device != [] && c.device[0].op == Write(h, j) && j < |jobs| && c.jobs == jobs && c.worker == Dead
    requires c.orphan == Some(Orphan(j, h, c.device[0].id, jobs[j].waiter == Waiting, true))
    requires jobs[j].rows == [] && jobs[j].waiter != ToldOk && jobs[j].waiter != ToldError
    ensures var u := Deliver(RunHead(c, fate), c.device[0].id);
            && Enabled(u, DoOrphanEnds)
            && var t := OrphanEnds(u);
               && t.worker == Dead && !t.inFlight && t.orphan == None
               && t.jobs == jobs[j := if fate.Breaks? then Over(jobs[j], RowFailed, Incomplete) else Over(jobs[j], RowOk, Whole)]
  {
    assert [] + [RowOk] == [RowOk] && [] + [RowFailed] == [RowFailed];
  }

  /** An opening that does not break installs the handle it opened and leaves a worker waiting
      for jobs; one that breaks leaves nothing installed. */
  lemma OpeningEndsExactly(s: State, fate: Fate)
    requires Reachable(s) && s.lock.Connecting? && s.device != [] && s.device[0].id == s.lock.op
    ensures CanRun(s, Answering(fate, s.lock.op, DoConnectReturns))
    ensures var t := Run(s, Answering(fate, s.lock.op, DoConnectReturns));
            && t.lock == Free && t.jobs == s.jobs
            && if fate.Breaks? then t.printer == None && t.worker == Dead && t.places == s.places
               else t.printer == Some(|s.places|) && t.worker == Idle && t.places == s.places + [Installed]
  {
    ReachableInv(s);
    assert s.device[0] == Item(s.lock.op, Build);
    AnswerRuns(s, fate, s.lock.op, DoConnectReturns);
  }

  // ----- a call from outside ---------------------------------------------------------------

  /** On a connected, idle device where all goes well a call is printed and its caller told. */
  lemma WellACallIsPrinted(s: State, steps: seq<Step>)
    requires Reachable(s) && s.worker.Idle? && !s.cancelling && s.disconnects == 0
    requires CanRun(Apply(s, DoEnqueue), steps) && NobodyCalls(steps) && AllGoesWell(steps)
    requires Quiescent(Run(Apply(s, DoEnqueue), steps))
    ensures var t := Run(Apply(s, DoEnqueue), steps);
            |s.jobs| < |t.jobs| && t.jobs[|s.jobs|] == Job(ToldOk, [RowOk], Whole)
  {
    ReachableInv(s);
    ReachableStep(s, DoEnqueue);
    WellEveryJobIsPrinted(Apply(s, DoEnqueue), steps, |s.jobs|);
  }

  /** Without a handle it is refused at once: its row says failed, nothing is ever printed. */
  lemma UnconnectedCallIsRefused(s: State, steps: seq<Step>)
    requires Reachable(s) && s.printer.None? && CanRun(Apply(s, DoEnqueue), steps)
    ensures var t := Run(Apply(s, DoEnqueue), steps);
            |s.jobs| < |t.jobs| && t.jobs[|s.jobs|] == Job(ToldError, [RowFailed], Untouched)
  {
    ReachableInv(s);
    ReachableStep(s, DoEnqueue);
    SettledForever(Apply(s, DoEnqueue), steps, |s.jobs|);
  }

  /** A probe is asked of the installed handle exactly when no job is held by the worker and none
      is being written for a worker that is gone. */
  lemma ProbeAsksExactly(s: State)
    requires Reachable(s)
    ensures var asks := s.printer.Some? && !Holds(s.worker) && !(s.orphan.Some? && s.orphan.value.clears);
            Apply(s, DoProbe) == if asks then s.(device := s.device + [Item(s.nextOp, Probe(s.printer.value))], nextOp := s.nextOp + 1)
                                 else s
  {
    ReachableInv(s);
  }
}
