/** The truth of the work journal and of what callers are told, and the visibility of work
    that is still going on. */
module PrinterJournal {
  import opened Options
  import opened PrinterMachine
  import opened PrinterInvariant
  import opened PrinterRuns
  import opened PrinterTheorems

  // ----- one truthful row a job -------------------------------------------

  ghost predicate InHand(s: State, j: JobId) {
    Active(s.queue, s.worker, s.orphan, j)
  }

  /** No job ever has two rows; a row says ok only of bytes that are all on paper; a caller
      is told success only then; and a job nobody has in hand any more has its row, which
      says ok exactly when its bytes are all on paper. */
  lemma JournalTruth(s: State, j: JobId)
    requires Reachable(s) && j < |s.jobs|
    ensures var job := s.jobs[j];
            && |job.rows| <= 1
            && (job.rows == [RowOk] ==> job.paper == Whole)
            && (job.waiter == ToldOk ==> job.paper == Whole)
            && (!InHand(s, j) ==> |job.rows| == 1 && (job.rows == [RowOk] <==> job.paper == Whole))
  {
    ReachableInv(s);
  }

  // ----- what is settled stays settled --------------------------------------

  lemma DrainLeavesOthers(s: State, j: JobId)
    requires QueueOk(s.queue, s.jobs) && j < |s.jobs| && j !in s.queue
    ensures var t := FailQueued(s); j < |t.jobs| && t.jobs[j] == s.jobs[j]
  {
    DrainedEffect(s.queue, s.jobs);
  }

  lemma RunLeavesSettled(s: State, fate: Fate, j: JobId)
    requires WorkInv(s) && s.device != [] && j < |s.jobs| && !InHand(s, j)
    ensures var t := RunHead(s, fate); j < |t.jobs| && t.jobs[j] == s.jobs[j]
  {
  }

  lemma LostLeavesSettled(s: State, j: JobId)
    requires JobsInv(s) && s.worker.Writing? && j < |s.jobs| && !InHand(s, j)
    ensures var t := ConnectionLost(s, s.worker.job); j < |t.jobs| && t.jobs[j] == s.jobs[j] && !InHand(t, j)
    ensures s.orphan.None? ==> ConnectionLost(s, s.worker.job).orphan.None?
  {
    var t := EndJob(s, s.worker.job, RowFailed, ToldError).(inFlight := false, worker := Dead, printer := None);
    DrainLeavesOthers(if s.printer.Some? && s.printer.value < |t.places| then SubmitClose(t, s.printer.value) else t, j);
  }

  lemma DisconnectFrame(s: State)
    ensures var t, u := FailQueued(s), DisconnectEnds(s);
            u.jobs == t.jobs && u.queue == t.queue && u.worker == t.worker && u.orphan == t.orphan
  {
    GiveUpFrame(FailQueued(s).(printer := None), s.printer);
  }

  lemma GiveUpFrame(t: State, printer: Option<Handle>)
    ensures var u := GiveUp(t, printer);
            u.jobs == t.jobs && u.queue == t.queue && u.worker == t.worker && u.orphan == t.orphan
  {
  }

  lemma DisconnectLeavesSettled(s: State, j: JobId)
    requires JobsInv(s) && j < |s.jobs| && !InHand(s, j)
    ensures var t := DisconnectEnds(s); j < |t.jobs| && t.jobs[j] == s.jobs[j] && !InHand(t, j)
  {
    DisconnectFrame(s);
    DrainLeavesOthers(s, j);
  }

  lemma TakeLeavesSettled(s: State, j: JobId)
    requires LockOk(s) && Enabled(s, DoTake) && j < |s.jobs| && !InHand(s, j)
    ensures var t := Take(s); j < |t.jobs| && t.jobs[j] == s.jobs[j] && !InHand(t, j)
  {
    assert s.queue[0] in s.queue && forall k :: k in s.queue[1..] ==> k in s.queue;
    var t := Take(s);
    assert t.jobs == s.jobs && t.queue == s.queue[1..] && t.orphan == s.orphan;
    assert Holds(t.worker) && t.worker.job == s.queue[0];
  }

  lemma FailJobLeavesOthers(s: State, j: JobId)
    requires Holds(s.worker) && j < |s.jobs| && !InHand(s, j)
    ensures var t := FailJob(s, s.worker.job); j < |t.jobs| && t.jobs[j] == s.jobs[j] && !InHand(t, j)
  {
  }

  lemma RenderedLeavesSettled(s: State, sound: bool, j: JobId)
    requires Enabled(s, DoRendered(sound)) && j < |s.jobs| && !InHand(s, j)
    ensures var t := Rendered(s, sound); j < |t.jobs| && t.jobs[j] == s.jobs[j] && !InHand(t, j)
  {
    FailJobLeavesOthers(s, j);
  }

  lemma WrittenLeavesSettled(s: State, j: JobId)
    requires Enabled(s, DoWritten) && s.results[s.worker.op] != Failed(true) && j < |s.jobs| && !InHand(s, j)
    ensures var t := Written(s); j < |t.jobs| && t.jobs[j] == s.jobs[j] && !InHand(t, j)
  {
    FailJobLeavesOthers(s, j);
  }

  lemma CancelledLeavesSettled(s: State, j: JobId)
    requires Enabled(s, DoCancelled) && LockOk(s) && j < |s.jobs| && !InHand(s, j)
    ensures var t := Cancelled(s); j < |t.jobs| && t.jobs[j] == s.jobs[j] && !InHand(t, j)
  {
  }

  lemma OrphanLeavesSettled(s: State, j: JobId)
    requires Enabled(s, DoOrphanEnds) && j < |s.jobs| && !InHand(s, j)
    ensures var t := OrphanEnds(s); j < |t.jobs| && t.jobs[j] == s.jobs[j] && !InHand(t, j)
  {
  }

  lemma EnqueueLeavesSettled(s: State, j: JobId)
    requires j < |s.jobs| && !InHand(s, j)
    ensures var t := EnqueueCall(s); j < |t.jobs| && t.jobs[j] == s.jobs[j] && !InHand(t, j)
  {
  }

  lemma CallsLeaveSettled(s: State, step: Step, j: JobId)
    requires JobsInv(s) && Enabled(s, step) && External(step) && !step.DoEnqueue? && j < |s.jobs| && !InHand(s, j)
    ensures var t := Apply(s, step); j < |t.jobs| && t.jobs[j] == s.jobs[j] && !InHand(t, j)
  {
    assert Settled(s.jobs[j]);
  }

  lemma WriteEndLeavesSettled(s: State, j: JobId)
    requires JobsInv(s) && Enabled(s, DoWritten) && j < |s.jobs| && !InHand(s, j)
    ensures var t := Written(s); j < |t.jobs| && t.jobs[j] == s.jobs[j] && !InHand(t, j)
  {
    if s.results[s.worker.op] == Failed(true) {
      LostLeavesSettled(s, j);
    } else {
      WrittenLeavesSettled(s, j);
    }
  }

  lemma LoopLeavesSettled(s: State, step: Step, j: JobId)
    requires Inv(s) && Enabled(s, step) && j < |s.jobs| && !InHand(s, j)
    requires step.DoTake? || step.DoChecked? || step.DoRendered? || step.DoWritten? || step.DoCancelled? || step.DoOrphanEnds?
    ensures var t := Apply(s, step); j < |t.jobs| && t.jobs[j] == s.jobs[j] && !InHand(t, j)
  {
    match step
    case DoTake => TakeLeavesSettled(s, j);
    case DoChecked => FailJobLeavesOthers(s, j);
    case DoRendered(sound) => RenderedLeavesSettled(s, sound, j);
    case DoWritten => WriteEndLeavesSettled(s, j);
    case DoCancelled => CancelledLeavesSettled(s, j);
    case DoOrphanEnds => OrphanLeavesSettled(s, j);
  }

  /** Steps of the device thread, of opening and of giving up. */
  predicate Handling(step: Step) {
    step.DoRun? || step.DoDeliver? || step.DoCloseStray? || step.DoConnectReturns? || step.DoConnectTimesOut?
    || step.DoCloseLate? || step.DoDisconnectBegins? || step.DoDisconnectEnds? || step.DoCloseWaitEnds?
  }

  lemma BeginningLeavesSettled(s: State, j: JobId)
    requires JobsInv(s) && Enabled(s, DoDisconnectBegins) && j < |s.jobs| && !InHand(s, j)
    ensures var t := DisconnectBegins(s); j < |t.jobs| && t.jobs[j] == s.jobs[j] && !InHand(t, j)
  {
    if !Alive(s.worker) {
      DisconnectLeavesSettled(s.(disconnects := s.disconnects - 1), j);
    }
  }

  lemma OpeningLeavesJobs(s: State, step: Step)
    requires LockOk(s) && Enabled(s, step) && Handling(step)
    requires !step.DoRun? && !step.DoDisconnectBegins? && !step.DoDisconnectEnds?
    ensures var t := Apply(s, step);
            && t.jobs == s.jobs && t.queue == s.queue && t.orphan == s.orphan
            && (t.worker == s.worker || (!Holds(t.worker) && !Holds(s.worker)))
  {
    if step.DoConnectReturns? {
      ReturnLeavesJobs(s);
    } else if step.DoCloseLate? {
      LateLeavesJobs(s, step.op);
    }
  }

  lemma ReturnLeavesJobs(s: State)
    requires LockOk(s) && Enabled(s, DoConnectReturns)
    ensures var t := ConnectReturns(s);
            && t.jobs == s.jobs && t.queue == s.queue && t.orphan == s.orphan
            && (t.worker == s.worker || (!Holds(t.worker) && !Holds(s.worker)))
  {
  }

  lemma LateLeavesJobs(s: State, op: OpId)
    requires Enabled(s, DoCloseLate(op))
    ensures var t := CloseLate(s, op);
            t.jobs == s.jobs && t.queue == s.queue && t.orphan == s.orphan && t.worker == s.worker
  {
  }

  lemma HandlingLeavesSettled(s: State, step: Step, j: JobId)
    requires WorkInv(s) && JobsInv(s) && LockOk(s) && Enabled(s, step) && Handling(step) && j < |s.jobs| && !InHand(s, j)
    ensures var t := Apply(s, step); j < |t.jobs| && t.jobs[j] == s.jobs[j] && !InHand(t, j)
  {
    if step.DoRun? {
      RunLeavesSettled(s, step.fate, j);
    } else if step.DoDisconnectBegins? {
      BeginningLeavesSettled(s, j);
    } else if step.DoDisconnectEnds? {
      DisconnectLeavesSettled(s, j);
    } else {
      OpeningLeavesJobs(s, step);
    }
  }

  lemma SettledStep(s: State, step: Step, j: JobId)
    requires Reachable(s) && Enabled(s, step) && j < |s.jobs| && !InHand(s, j)
    ensures var t := Apply(s, step); j < |t.jobs| && t.jobs[j] == s.jobs[j] && !InHand(t, j)
  {
    ReachableInv(s);
    if step.DoEnqueue? {
      EnqueueLeavesSettled(s, j);
    } else if External(step) {
      CallsLeaveSettled(s, step, j);
    } else if Handling(step) {
      HandlingLeavesSettled(s, step, j);
    } else {
      LoopLeavesSettled(s, step, j);
    }
  }

  /** A job nobody has in hand is never touched again: not its paper, its row, its answer. */
  lemma {:induction false} SettledForever(s: State, steps: seq<Step>, j: JobId)
    requires Reachable(s) && CanRun(s, steps) && j < |s.jobs| && !InHand(s, j)
    ensures var t := Run(s, steps); j < |t.jobs| && t.jobs[j] == s.jobs[j]
    decreases |steps|
  {
    if steps != [] {
      SettledStep(s, steps[0], j);
      ReachableStep(s, steps[0]);
      SettledForever(Apply(s, steps[0]), steps[1..], j);
    }
  }

  lemma FailJobLetsGo(s: State, j: JobId)
    requires JobsInv(s) && LockOk(s) && Holds(s.worker) && s.worker.job == j
    ensures var t := FailJob(s, j);
            !InHand(t, j) && j < |t.jobs| && t.jobs[j] == Finish(s.jobs[j], RowFailed, ToldError)
  {
  }

  /** A job refused by the status query or failed while rendering puts no byte on the
      device, whatever happens later, and its row says failed. */
  lemma FailedBeforeWritingPrintsNothing(s: State, steps: seq<Step>)
    requires Reachable(s) && steps != [] && CanRun(s, steps)
    requires steps[0] == DoRendered(false) || (steps[0] == DoChecked && s.results[s.worker.op] != Answered(true))
    ensures var j, t := s.worker.job, Run(s, steps);
            j < |t.jobs| && t.jobs[j].paper == Untouched && t.jobs[j].rows == [RowFailed] && t.jobs[j].waiter != ToldOk
  {
    ReachableInv(s);
    var u := Apply(s, steps[0]);
    FailJobLetsGo(s, s.worker.job);
    ReachableStep(s, steps[0]);
    SettledForever(u, steps[1..], s.worker.job);
  }

  /** First come, first written: while the device thread writes a job, every job enqueued
      before it is out of hand. */
  lemma FirstComeFirstWritten(s: State, k: JobId)
    requires Reachable(s) && s.device != [] && s.device[0].op.Write? && k < s.device[0].op.job
    ensures !InHand(s, k)
  {
    ReachableInv(s);
  }

  // ----- told an error although printed --------------------------------------

  /** The caller was told of an error and the whole job is on paper. */
  predicate Misled(jobs: seq<Job>, j: JobId) {
    j < |jobs| && jobs[j].waiter == ToldError && jobs[j].paper == Whole
  }

  /** A cancellation reaches the worker after its write ended well and before it went on. */
  predicate CancelledAfterTheWrite(s: State, step: Step, j: JobId) {
    && step.DoCancelled? && s.worker.Writing? && s.worker.job == j
    && Done(s, s.worker.op) && s.results[s.worker.op] == Success
    && j < |s.jobs| && s.jobs[j].waiter == Waiting
  }

  /** The one way a caller comes to be told of an error though the job was printed, over
      all steps of the machine. */
  lemma MisledExactly(s: State, step: Step, j: JobId)
    requires Reachable(s) && Enabled(s, step)
    ensures !Misled(s.jobs, j) && Misled(Apply(s, step).jobs, j) <==> CancelledAfterTheWrite(s, step, j)
  {
    ReachableInv(s);
    if j < |s.jobs| && !InHand(s, j) {
      SettledStep(s, step, j);
    } else if step.DoCancelled? {
      MisledByCancellation(s, j);
    } else {
      assert !CancelledAfterTheWrite(s, step, j);
      NotMisled(s, step, j);
    }
  }

  lemma MisledByCancellation(s: State, j: JobId)
    requires Inv(s) && Enabled(s, DoCancelled) && (j < |s.jobs| ==> InHand(s, j))
    ensures !Misled(s.jobs, j) && Misled(Cancelled(s).jobs, j) <==> CancelledAfterTheWrite(s, DoCancelled, j)
  {
  }

  lemma NotMisledByRun(s: State, fate: Fate, j: JobId)
    requires Inv(s) && s.device != [] && !Misled(s.jobs, j)
    ensures !Misled(RunHead(s, fate).jobs, j)
  {
  }

  lemma NotMisledByDrain(s: State, j: JobId)
    requires QueueOk(s.queue, s.jobs) && !Misled(s.jobs, j)
    ensures !Misled(FailQueued(s).jobs, j)
  {
    DrainedEffect(s.queue, s.jobs);
  }

  lemma NotMisledByLoss(s: State, j: JobId)
    requires Inv(s) && Enabled(s, DoWritten) && s.results[s.worker.op] == Failed(true) && !Misled(s.jobs, j)
    ensures !Misled(Written(s).jobs, j)
  {
    LostHandles(s);
    LostJobs(s);
    NotMisledByDrain(Lost(s), j);
  }

  lemma NotMisledByLoop(s: State, step: Step, j: JobId)
    requires Inv(s) && Enabled(s, step) && !Misled(s.jobs, j)
    requires step.DoTake? || step.DoChecked? || step.DoRendered? || step.DoOrphanEnds?
    ensures !Misled(Apply(s, step).jobs, j)
  {
  }

  lemma NotMisledByEnd(s: State, j: JobId)
    requires Inv(s) && Enabled(s, DoWritten) && s.results[s.worker.op] != Failed(true) && !Misled(s.jobs, j)
    ensures !Misled(Written(s).jobs, j)
  {
  }

  lemma NotMisledByHandling(s: State, step: Step, j: JobId)
    requires Inv(s) && Enabled(s, step) && Handling(step) && !Misled(s.jobs, j)
    ensures !Misled(Apply(s, step).jobs, j)
  {
    if step.DoRun? {
      NotMisledByRun(s, step.fate, j);
    } else if step.DoDisconnectBegins? {
      NotMisledByDrain(s.(disconnects := s.disconnects - 1), j);
      DisconnectFrame(s.(disconnects := s.disconnects - 1));
    } else if step.DoDisconnectEnds? {
      NotMisledByDrain(s, j);
      DisconnectFrame(s);
    }
  }

  lemma NotMisled(s: State, step: Step, j: JobId)
    requires Inv(s) && Enabled(s, step) && !step.DoCancelled?
    ensures !Misled(s.jobs, j) ==> !Misled(Apply(s, step).jobs, j)
  {
    if !Misled(s.jobs, j) && !External(step) {
      if Handling(step) {
        NotMisledByHandling(s, step, j);
      } else if !step.DoWritten? {
        NotMisledByLoop(s, step, j);
      } else if s.results[s.worker.op] == Failed(true) {
        NotMisledByLoss(s, j);
      } else {
        NotMisledByEnd(s, j);
      }
    }
  }

  /** A run up to the moment a spooler's worker waits for its first job. */
  lemma FirstConnection() returns (s: State)
    ensures Reachable(s)
    ensures s == State(true, Some(0), [], Idle, false, false, false, Free, 0, Some(0), false,
                       [], map[0 := Built(0)], {0}, 1, {}, None, [], [Installed])
  {
    s := Initial(true);
    assert CanRun(s, []) && Run(s, []) == s;
    s := Follow(s, DoConnect);
    s := Follow(s, DoRun(Well));
    s := Follow(s, DoDeliver(0));
    s := Follow(s, DoConnectReturns);
  }

  lemma Follow(s: State, step: Step) returns (t: State)
    requires Reachable(s) && Enabled(s, step)
    ensures Reachable(t) && t == Apply(s, step)
  {
    ReachableStep(s, step);
    t := Apply(s, step);
  }

  lemma FirstJobRendering() returns (s: State)
    ensures Reachable(s)
    ensures s == State(true, Some(0), [], Rendering(0, 0), false, true, false, Free, 0, Some(0), false,
                       [], map[0 := Built(0)], {0}, 1, {}, None, [Job(Waiting, [], Untouched)], [Installed])
  {
    s := FirstConnection();
    s := Follow(s, DoEnqueue);
    s := Follow(s, DoTake);
  }

  lemma FirstJobWritten() returns (s: State)
    ensures Reachable(s)
    ensures s == State(true, Some(0), [], Writing(0, 0, 1), false, true, false, Free, 0, Some(0), false,
                       [], map[0 := Built(0), 1 := Success], {0, 1}, 2, {}, None, [Job(Waiting, [], Whole)], [Installed])
  {
    s := FirstJobRendering();
    s := Follow(s, DoRendered(true));
    s := Follow(s, DoRun(Well));
    s := Follow(s, DoDeliver(1));
  }

  lemma FirstJobCancelled() returns (s: State)
    ensures Reachable(s) && s.jobs == [Job(ToldError, [], Whole)]
    ensures s.orphan == Some(Orphan(0, 0, 1, false, false)) && Done(s, 1) && s.results[1] == Success
  {
    s := FirstJobWritten();
    s := Follow(s, DoDisconnect);
    s := Follow(s, DoDisconnectBegins);
    s := Follow(s, DoCancelled);
  }

  /** It does happen: the write ends, then the device is given up before the worker goes on;
      the row says ok and the caller is told that printing was cancelled. */
  lemma AMisledCaller() returns (s: State)
    ensures Reachable(s) && s.jobs == [Job(ToldError, [RowOk], Whole)]
  {
    var before := FirstJobCancelled();
    s := Follow(before, DoOrphanEnds);
    assert before.jobs[0].rows + [RowOk] == [RowOk];
    assert s == OrphanEnds(before) && s.jobs == before.jobs[0 := Job(ToldError, [RowOk], Whole)];
  }

  // ----- busy visibility ------------------------------------------------------

  /** A write handed to the device thread has not ended yet. */
  predicate WriteUnfinished(s: State) {
    exists i :: 0 <= i < |s.device| && s.device[i].op.Write?
  }

  /** The device counts as busy exactly while a job is queued behind a live worker, is held
      by it, or is being written although its worker was cancelled. */
  lemma BusyExactly(s: State)
    requires Reachable(s)
    ensures PendingJobs(s) >= 1 <==>
              || (Alive(s.worker) && s.queue != [])
              || Holds(s.worker)
              || (s.orphan.Some? && s.orphan.value.clears)
    ensures WriteUnfinished(s) ==> PendingJobs(s) >= 1
    ensures s.worker.Dead? && s.orphan.None? ==> PendingJobs(s) == 0
  {
    ReachableInv(s);
    if WriteUnfinished(s) {
      var i :| 0 <= i < |s.device| && s.device[i].op.Write?;
      assert s.device[i].id !in s.results;
    }
  }

  /** Once the worker is dead and the write it left behind is done, its callback brings the
      count back to nothing. */
  lemma BusyEnds(s: State)
    requires Reachable(s) && s.worker.Dead? && s.orphan.Some? && Done(s, s.orphan.value.op)
    ensures Enabled(s, DoOrphanEnds) && PendingJobs(OrphanEnds(s)) == 0
  {
    ReachableInv(s);
    ReachableStep(s, DoOrphanEnds);
    BusyExactly(OrphanEnds(s));
  }
}
