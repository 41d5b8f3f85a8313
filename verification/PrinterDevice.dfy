/** `PrinterDevice` itself: its fields, what its environment keeps for it, and a method for
    every stretch of code between two awaits. Each method is tied to the step of the machine
    it performs, and keeps the invariant; the guards the machine needs to be total are gone
    here, since the invariant rules their other branch out. */
module PrinterDevice {
  import opened Options
  import opened PrinterMachine
  import opened PrinterInvariant
  import opened PrinterRuns

  class Device {
    // the fields of the source's class
    const spooler: bool
    var printer: Option<Handle>
    var queue: seq<JobId>
    var worker: Worker
    var inFlight: bool
    var retired: bool
    var lock: Lock
    var pendingBuild: Option<OpId>
    var shut: bool
    // the event loop: requested cancellations, waiting disconnects, futures and their callbacks
    var cancelling: bool
    var disconnects: nat
    var results: map<OpId, Result>
    var delivered: set<OpId>
    var nextOp: OpId
    var late: set<OpId>
    var orphan: Option<Orphan>
    // the device thread's list of operations
    var device: seq<Item>
    // callers, journal and paper of each job; every handle ever opened
    var jobs: seq<Job>
    var places: seq<Place>

    function View(): State
      reads this
    {
      State(spooler, printer, queue, worker, cancelling, inFlight, retired, lock, disconnects, pendingBuild, shut,
            device, results, delivered, nextOp, late, orphan, jobs, places)
    }

    /** Every queued job and the installed handle have a record. */
    ghost predicate KnownJobs()
      reads this
    {
      forall a :: 0 <= a < |queue| ==> queue[a] < |jobs|
    }

    ghost predicate KnownHandle()
      reads this
    {
      printer.Some? ==> printer.value < |places|
    }

    constructor (spooler: bool)
      ensures View() == Initial(spooler) && Inv(View())
    {
      this.spooler := spooler;
      printer, queue, worker, inFlight, retired, lock := None, [], Dead, false, false, Free;
      pendingBuild, shut, cancelling, disconnects := None, false, false, 0;
      results, delivered, nextOp, late, orphan := map[], {}, 0, {}, None;
      device, jobs, places := [], [], [];
    }

    /** `_io`. */
    method Submit(op: Op) returns (id: OpId)
      modifies `device, `nextOp
      ensures View() == PrinterMachine.Submit(old(View()), op) && id == old(nextOp)
    {
      id := nextOp;
      device := device + [Item(id, op)];
      nextOp := nextOp + 1;
    }

    method SubmitClose(h: Handle) returns (id: OpId)
      requires h < |places|
      modifies `device, `nextOp, `places
      ensures View() == PrinterMachine.SubmitClose(old(View()), h) && id == old(nextOp)
    {
      id := Submit(Close(h));
      places := places[h := ClosePending(id)];
    }

    /** Writes the job's row and answers its caller, if somebody still waits. */
    method EndJob(j: JobId, row: Row, answer: Waiter)
      requires j < |jobs|
      modifies `jobs
      ensures View() == PrinterMachine.EndJob(old(View()), j, row, answer)
    {
      jobs := jobs[j := jobs[j].(rows := jobs[j].rows + [row])];
      if jobs[j].waiter == Waiting {
        jobs := jobs[j := jobs[j].(waiter := answer)];
      }
    }

    /** `_fail_queued_jobs`. */
    method FailQueuedJobs()
      requires KnownJobs()
      modifies `queue, `jobs
      ensures View() == FailQueued(old(View()))
    {
      while queue != []
        invariant KnownJobs()
        invariant Drained(queue, jobs) == Drained(old(queue), old(jobs))
        decreases |queue|
      {
        var j := queue[0];
        queue := queue[1..];
        EndJob(j, RowCancelled, ToldError);
      }
    }

    /** `pending_jobs`. */
    method CountPending() returns (n: nat)
      ensures n == PendingJobs(View())
    {
      n := 0;
      if worker != Dead {
        n := |queue|;
      }
      if inFlight {
        n := n + 1;
      }
    }

    method Enqueue()
      modifies `queue, `jobs
      ensures View() == EnqueueCall(old(View()))
    {
      if printer.None? {
        jobs := jobs + [Job(ToldError, [RowFailed], Untouched)];
      } else {
        queue := queue + [|jobs|];
        jobs := jobs + [Job(Waiting, [], Untouched)];
      }
    }

    /** `connect` from the lock to its await. */
    method Connect()
      requires lock.Free?
      modifies `pendingBuild, `lock, `device, `nextOp
      ensures View() == ConnectCall(old(View()))
    {
      if retired || printer.Some? {
        return;
      }
      if pendingBuild.Some? && !Done(View(), pendingBuild.value) {
        return;
      }
      var build := Submit(Build);
      pendingBuild, lock := Some(build), Connecting(build);
    }

    /** `connect` from its await to the end, the worker task included. */
    method ConnectResumes()
      requires Enabled(View(), DoConnectReturns)
      requires results[lock.op].Built? ==> results[lock.op].h < |places|
      modifies `printer, `places, `lock, `worker
      ensures View() == ConnectReturns(old(View()))
    {
      var result := results[lock.op];
      if result.Built? {
        printer := Some(result.h);
        places := places[result.h := Installed];
        if worker.Dead? {
          worker := Idle;
        }
      }
      lock := Free;
    }

    method ConnectGivesUp()
      requires lock.Connecting?
      modifies `late, `lock
      ensures View() == ConnectTimesOut(old(View()))
    {
      late := late + {lock.op};
      lock := Free;
    }

    /** `_close_late_handle`. */
    method CloseLateHandle(op: OpId)
      requires Enabled(View(), DoCloseLate(op))
      requires results[op].Built? ==> results[op].h < |places|
      modifies `late, `places, `device, `nextOp
      ensures View() == CloseLate(old(View()), op)
    {
      late := late - {op};
      var result := results[op];
      if result.Built? {
        if shut {
          places := places[result.h := Stray];
        } else {
          var _ := SubmitClose(result.h);
        }
      }
    }

    /** `_disconnect_locked` up to its first await. */
    method DisconnectLocked()
      requires Enabled(View(), DoDisconnectBegins)
      requires KnownJobs() && KnownHandle()
      modifies this
      ensures View() == DisconnectBegins(old(View()))
    {
      disconnects := disconnects - 1;
      if worker != Dead {
        cancelling := true;
        lock := AwaitingWorker;
      } else {
        GiveUpHandle();
      }
    }

    /** The rest of `_disconnect_locked`, from the drained queue to the await of the close. */
    method GiveUpHandle()
      requires KnownJobs() && KnownHandle()
      modifies this
      ensures View() == DisconnectEnds(old(View()))
    {
      FailQueuedJobs();
      var dead := printer;
      printer := None;
      if dead.Some? {
        var closing := SubmitClose(dead.value);
        lock := Closing(closing);
      } else {
        lock, shut := Free, true;
      }
    }

    /** `except Exception` of the worker, and its `finally`. */
    method WorkerFails()
      requires Holds(worker) && worker.job < |jobs|
      modifies `jobs, `inFlight, `worker
      ensures View() == FailJob(old(View()), old(worker.job))
    {
      EndJob(worker.job, RowFailed, ToldError);
      inFlight := false;
      worker := Idle;
    }

    /** The worker takes the next job and asks for the printer's status. */
    method WorkerTakes()
      requires Enabled(View(), DoTake)
      requires printer.Some?
      modifies `queue, `inFlight, `worker, `device, `nextOp
      ensures View() == Take(old(View()))
    {
      if spooler {
        queue, inFlight, worker := queue[1..], true, Rendering(queue[0], printer.value);
      } else {
        TakeToCheck();
      }
    }

    method TakeToCheck()
      requires queue != [] && printer.Some? && !spooler
      modifies `queue, `inFlight, `worker, `device, `nextOp
      ensures View() == Take(old(View()))
    {
      var op := Submit(Status);
      queue, inFlight, worker := queue[1..], true, Checking(queue[0], printer.value, op);
    }

    method WorkerChecked()
      requires Enabled(View(), DoChecked)
      requires worker.job < |jobs|
      modifies `jobs, `inFlight, `worker
      ensures View() == Checked(old(View()))
    {
      if results[worker.op] == Answered(true) {
        worker := Rendering(worker.job, worker.h);
      } else {
        WorkerFails();
      }
    }

    method WorkerRendered(sound: bool)
      requires Enabled(View(), DoRendered(sound))
      requires worker.job < |jobs|
      modifies `jobs, `inFlight, `worker, `device, `nextOp
      ensures View() == Rendered(old(View()), sound)
    {
      if sound {
        var flush := Submit(Write(worker.h, worker.job));
        worker := Writing(worker.job, worker.h, flush);
      } else {
        WorkerFails();
      }
    }

    method WorkerWrote()
      requires Enabled(View(), DoWritten)
      requires worker.job < |jobs| && KnownJobs() && printer.Some? && KnownHandle()
      modifies this
      ensures View() == Written(old(View()))
    {
      var flush := results[worker.op];
      if flush == Failed(true) {
        WorkerLosesConnection();
      } else if flush.Failed? {
        WorkerFails();
      } else {
        EndJob(worker.job, RowOk, ToldOk);
        inFlight := false;
        worker := Idle;
      }
    }

    /** `except OSError` of the worker. */
    method WorkerLosesConnection()
      requires worker.Writing? && worker.job < |jobs| && KnownJobs() && printer.Some? && KnownHandle()
      modifies this
      ensures View() == ConnectionLost(old(View()), old(worker.job))
    {
      var j := worker.job;
      EndJob(j, RowFailed, ToldError);
      var dead := printer;
      printer, inFlight, worker := None, false, Dead;
      var _ := SubmitClose(dead.value);
      FailQueuedJobs();
    }

    /** The write of a cancelled worker is left to its callbacks; one that has ended already
        leaves them its row alone. */
    method LeaveWrite(j: JobId, h: Handle, op: OpId)
      requires worker == Writing(j, h, op) && j < |jobs|
      modifies `jobs, `orphan, `inFlight
      ensures jobs == if Done(View(), op) then Told(old(jobs), j, ToldError) else old(jobs)
      ensures orphan == Some(if Done(View(), op) then Orphan(j, h, op, false, false)
                             else Orphan(j, h, op, old(jobs[j].waiter) == Waiting, true))
      ensures inFlight == if Done(View(), op) then false else old(inFlight)
    {
      if op in delivered && op in results {
        jobs := jobs[j := Tell(jobs[j], ToldError)];
        orphan := Some(Orphan(j, h, op, false, false));
        inFlight := false;
      } else {
        orphan := Some(Orphan(j, h, op, jobs[j].waiter == Waiting, true));
      }
    }

    /** `except CancelledError` of the worker, and its `finally`. */
    method WorkerCancelled()
      requires Enabled(View(), DoCancelled)
      requires Holds(worker) ==> worker.job < |jobs|
      modifies this
      ensures View() == Cancelled(old(View()))
    {
      if worker.Writing? {
        LeaveWrite(worker.job, worker.h, worker.op);
      } else if Holds(worker) {
        EndJob(worker.job, RowCancelled, ToldError);
        inFlight := false;
      }
      worker, cancelling := Dead, false;
    }

    /** `_row` and `_settle_from`. */
    method RowOfWrite(j: JobId, well: bool, settles: bool)
      requires j < |jobs|
      modifies `jobs
      ensures jobs == old(jobs)[j := (if settles then Tell(old(jobs[j]), if well then ToldOk else ToldError) else old(jobs[j]))
                                     .(rows := old(jobs[j].rows) + [if well then RowOk else RowFailed])]
    {
      var job := jobs[j].(rows := jobs[j].rows + [if well then RowOk else RowFailed]);
      if settles && job.waiter == Waiting {
        job := job.(waiter := if well then ToldOk else ToldError);
      }
      jobs := jobs[j := job];
    }

    /** `_row`, `_settle_from` and `_job_finished`, called when the orphaned write is done. */
    method WriteCallbacks()
      requires Enabled(View(), DoOrphanEnds)
      requires orphan.value.job < |jobs|
      modifies `orphan, `inFlight, `jobs
      ensures View() == OrphanEnds(old(View()))
    {
      var Orphan(j, h, op, settles, clears) := orphan.value;
      orphan := None;
      RowOfWrite(j, results[op] == Success, settles);
      if clears {
        inFlight := false;
      }
    }

    /** The paper a write leaves behind. */
    method PrintOn(op: Op, fate: Fate)
      requires op.Write? ==> op.job < |jobs|
      modifies `jobs
      ensures jobs == PaperAfter(old(jobs), op, fate)
    {
      if op.Write? {
        jobs := jobs[op.job := jobs[op.job].(paper := if fate.Breaks? then Incomplete else Whole)];
      }
    }

    /** A build that works opens a handle, a close closes one. */
    method MoveHandle(id: OpId, op: Op, fate: Fate)
      requires op.Close? ==> op.h < |places|
      modifies `places
      ensures places == PlacesAfter(old(places), id, op, fate)
    {
      if op.Build? && !fate.Breaks? {
        places := places + [Unclaimed(id)];
      } else if op.Close? {
        places := places[op.h := Closed];
      }
    }

    /** The device thread runs the first operation of its list. */
    method RunOperation(fate: Fate)
      requires device != []
      requires device[0].op.Write? ==> device[0].op.job < |jobs|
      requires device[0].op.Close? ==> device[0].op.h < |places|
      modifies `device, `results, `jobs, `places
      ensures View() == RunHead(old(View()), fate)
    {
      var Item(id, op) := device[0];
      device := device[1..];
      results := results[id := Outcome(op, fate, |places|)];
      PrintOn(op, fate);
      MoveHandle(id, op, fate);
    }

    /** `async_probe` on the installed handle. */
    method Ask()
      modifies `device, `nextOp
      ensures View() == ProbeCall(old(View()))
    {
      if printer.Some? && !inFlight {
        var _ := Submit(Probe(printer.value));
      }
    }

    /** A worker's step. */
    method PerformWork(step: Step)
      requires Inv(View()) && Enabled(View(), step)
      requires step.DoTake? || step.DoChecked? || step.DoRendered? || step.DoWritten? || step.DoCancelled? || step.DoOrphanEnds?
      modifies this
      ensures View() == Apply(old(View()), step)
    {
      match step
      case DoTake => WorkerTakes();
      case DoChecked => WorkerChecked();
      case DoRendered(sound) => WorkerRendered(sound);
      case DoWritten => WorkerWrote();
      case DoCancelled => WorkerCancelled();
      case DoOrphanEnds => WriteCallbacks();
    }

    /** A step of opening. */
    method PerformOpening(step: Step)
      requires Inv(View()) && Enabled(View(), step)
      requires step.DoConnectReturns? || step.DoConnectTimesOut? || step.DoCloseLate?
      modifies this
      ensures View() == Apply(old(View()), step)
    {
      match step
      case DoConnectReturns =>
        assert Expected(lock, late, lock.op);
        ConnectResumes();
      case DoConnectTimesOut => ConnectGivesUp();
      case DoCloseLate(op) =>
        assert Expected(lock, late, op);
        CloseLateHandle(op);
    }

    /** A step of giving the device up. */
    method PerformGivingUp(step: Step)
      requires Inv(View()) && Enabled(View(), step)
      requires step.DoDisconnectBegins? || step.DoDisconnectEnds? || step.DoCloseWaitEnds?
      modifies this
      ensures View() == Apply(old(View()), step)
    {
      match step
      case DoDisconnectBegins => DisconnectLocked();
      case DoDisconnectEnds => GiveUpHandle();
      case DoCloseWaitEnds => lock, shut := Free, true;
    }

    /** A step of the device thread, or of a thread that closes a stray handle. */
    method PerformThread(step: Step)
      requires Inv(View()) && Enabled(View(), step)
      requires step.DoRun? || step.DoDeliver? || step.DoCloseStray?
      modifies this
      ensures View() == Apply(old(View()), step)
    {
      match step
      case DoRun(fate) =>
        assert ItemStands(places, device[0]);
        RunOperation(fate);
      case DoDeliver(op) => delivered := delivered + {op};
      case DoCloseStray(h) => places := places[h := Closed];
    }

    /** A call from outside. */
    method PerformCall(step: Step)
      requires Enabled(View(), step) && External(step)
      modifies this
      ensures View() == Apply(old(View()), step)
    {
      match step
      case DoEnqueue => Enqueue();
      case DoConnect => Connect();
      case DoDisconnect => retired, disconnects := true, disconnects + 1;
      case DoProbe => Ask();
      case DoLeave(j) => jobs := Told(jobs, j, Gone);
    }

    /** Any step the machine can take is performed exactly by the method that stands for it,
        and keeps the invariant. */
    method Perform(step: Step)
      requires Inv(View()) && Enabled(View(), step)
      modifies this
      ensures View() == Apply(old(View()), step) && Inv(View())
    {
      StepKeeps(View(), step);
      if External(step) {
        PerformCall(step);
      } else if step.DoTake? || step.DoChecked? || step.DoRendered? || step.DoWritten? || step.DoCancelled? || step.DoOrphanEnds? {
        PerformWork(step);
      } else if step.DoConnectReturns? || step.DoConnectTimesOut? || step.DoCloseLate? {
        PerformOpening(step);
      } else if step.DoDisconnectBegins? || step.DoDisconnectEnds? || step.DoCloseWaitEnds? {
        PerformGivingUp(step);
      } else {
        PerformThread(step);
      }
    }
  }
}
