/** What the printer machine promises its callers, the journal, the hardware and the
    updater that asks whether it is busy. */
module PrinterTheorems {
  import opened Options
  import opened PrinterMachine
  import opened PrinterInvariant
  import opened PrinterRuns

  // ----- no caller is stranded --------------------------------------------

  /** Nothing is left that the machine would do by itself. */
  ghost predicate Quiescent(s: State) {
    forall step :: Enabled(s, step) ==> External(step)
  }

  /** An operation handed to the device thread moves on by itself until it is delivered. */
  lemma OperationMoves(s: State, op: OpId)
    requires op in s.results || s.device != []
    ensures Done(s, op) || !Quiescent(s)
  {
    if op !in s.results {
      assert Enabled(s, DoRun(Well));
    } else if op !in s.delivered {
      assert Enabled(s, DoDeliver(op));
    }
  }

  lemma WorkerRests(s: State)
    requires Inv(s) && Quiescent(s)
    ensures !Holds(s.worker) && !s.cancelling
    ensures s.worker.Idle? ==> s.queue == []
  {
    if s.cancelling {
      assert Enabled(s, DoCancelled);
    }
    assert !Enabled(s, DoTake) && !Enabled(s, DoChecked) && !Enabled(s, DoRendered(true)) && !Enabled(s, DoWritten);
    if s.worker.Checking? || s.worker.Writing? {
      OperationMoves(s, s.worker.op);
    }
  }

  lemma OrphanRests(s: State)
    requires Inv(s) && Quiescent(s)
    ensures s.orphan.None?
  {
    assert !Enabled(s, DoOrphanEnds);
    if s.orphan.Some? {
      OperationMoves(s, s.orphan.value.op);
    }
  }

  lemma LockRests(s: State)
    requires Inv(s) && Quiescent(s)
    ensures s.lock.Free? && s.disconnects == 0
    ensures s.retired ==> s.shut
  {
    assert !Enabled(s, DoConnectTimesOut) && !Enabled(s, DoDisconnectEnds)
        && !Enabled(s, DoCloseWaitEnds) && !Enabled(s, DoDisconnectBegins) && !Enabled(s, DoCancelled);
  }

  /** Where a job whose caller still waits can be: queued behind a live worker or a
      disconnect that has still to drain the queue, in the worker's hands, or written by a
      write whose worker is gone and which will answer. */
  ghost predicate Carried(s: State, j: JobId) {
    || (j in s.queue && (Alive(s.worker) || s.lock.AwaitingWorker?))
    || (Holds(s.worker) && s.worker.job == j)
    || (s.orphan.Some? && s.orphan.value.job == j && s.orphan.value.settles)
  }

  lemma WaitingIsCarried(s: State, j: JobId)
    requires Reachable(s) && j < |s.jobs| && s.jobs[j].waiter == Waiting
    ensures Carried(s, j)
  {
    ReachableInv(s);
    assert !Settled(s.jobs[j]);
    assert Active(s.queue, s.worker, s.orphan, j);
  }

  /** A state with no step of its own left has no waiting caller, and every job has its row. */
  lemma NoCallerIsStranded(s: State)
    requires Reachable(s) && Quiescent(s)
    ensures forall j :: 0 <= j < |s.jobs| ==> s.jobs[j].waiter != Waiting && Settled(s.jobs[j])
    ensures s.queue == [] && PendingJobs(s) == 0
  {
    ReachableInv(s);
    WorkerRests(s);
    OrphanRests(s);
    LockRests(s);
    forall j | 0 <= j < |s.jobs|
      ensures Settled(s.jobs[j])
    {
      assert !Active(s.queue, s.worker, s.orphan, j);
    }
  }

  lemma {:induction false} RunAppend(s: State, steps: seq<Step>, step: Step)
    requires CanRun(s, steps) && Enabled(Run(s, steps), step)
    ensures CanRun(s, steps + [step]) && Run(s, steps + [step]) == Apply(Run(s, steps), step)
    decreases |steps|
  {
    if steps == [] {
      assert CanRun(Apply(s, step), []);
      assert [step][1..] == [];
    } else {
      RunAppend(Apply(s, steps[0]), steps[1..], step);
      assert (steps + [step])[1..] == steps[1..] + [step];
    }
  }

  lemma ReachableStep(s: State, step: Step)
    requires Reachable(s) && Enabled(s, step)
    ensures Reachable(Apply(s, step))
  {
    var spooler: bool, steps: seq<Step> :| CanRun(Initial(spooler), steps) && s == Run(Initial(spooler), steps);
    RunAppend(Initial(spooler), steps, step);
  }

  lemma {:induction false} ReachableRun(s: State, steps: seq<Step>)
    requires Reachable(s) && CanRun(s, steps)
    ensures Reachable(Run(s, steps))
    decreases |steps|
  {
    if steps != [] {
      ReachableStep(s, steps[0]);
      ReachableRun(Apply(s, steps[0]), steps[1..]);
    }
  }

  /** However the machine is left to itself, it reaches in at most `Weight(s)` steps a state
      in which every caller has been answered and every job has its journal row. */
  lemma LeftAloneEveryCallerIsAnswered(s: State, steps: seq<Step>)
    requires Reachable(s) && CanRun(s, steps) && NobodyCalls(steps)
    ensures |steps| <= Weight(s)
    ensures Quiescent(Run(s, steps)) ==>
              forall j :: 0 <= j < |Run(s, steps).jobs| ==> Settled(Run(s, steps).jobs[j])
  {
    ReachableInv(s);
    QuietRunsEnd(s, steps);
    ReachableRun(s, steps);
    if Quiescent(Run(s, steps)) {
      NoCallerIsStranded(Run(s, steps));
    }
  }

  /** Such an end can be reached from every reachable state. */
  lemma {:induction false} AnEndExists(s: State) returns (steps: seq<Step>)
    requires Reachable(s)
    ensures CanRun(s, steps) && NobodyCalls(steps) && Quiescent(Run(s, steps))
    decreases Weight(s)
  {
    if Quiescent(s) {
      steps := [];
    } else {
      var step :| Enabled(s, step) && !External(step);
      ReachableInv(s);
      InternalStepsAreLighter(s, step);
      ReachableStep(s, step);
      var rest := AnEndExists(Apply(s, step));
      steps := [step] + rest;
      assert steps[1..] == rest;
    }
  }

  // ----- handles ------------------------------------------------------------

  /** The handle an operation works on, if it works on one. The status query takes the
      installed handle when it runs. */
  function Touches(s: State, op: Op): Option<Handle> {
    match op
    case Build => None
    case Status => s.printer
    case Probe(h) => Some(h)
    case Write(h, j) => Some(h)
    case Close(h) => Some(h)
  }

  predicate OpenHandle(s: State, h: Handle) {
    h < |s.places| && (s.places[h].Installed? || s.places[h].ClosePending?)
  }

  /** Whatever the device thread runs next touches a handle that is open, that no other
      thread is about to close, and whose own close, if it is not the operation itself,
      stands further back. */
  lemma OperationsTouchOpenHandles(s: State)
    requires Reachable(s) && s.device != [] && Touches(s, s.device[0].op).Some?
    ensures var h := Touches(s, s.device[0].op).value;
            && OpenHandle(s, h)
            && (forall i :: 1 <= i < |s.device| && s.device[0].op == Close(h) ==> Touches(s, s.device[i].op) != Some(h))
  {
    ReachableInv(s);
    var h := Touches(s, s.device[0].op).value;
    assert ItemStands(s.places, s.device[0]);
    if s.device[0].op == Close(h) {
      forall i | 1 <= i < |s.device|
        ensures Touches(s, s.device[i].op) != Some(h)
      {
        assert s.device[0].id < s.device[i].id;
        assert ItemStands(s.places, s.device[i]);
      }
    }
  }

  /** A handle closed by a thread of its own is touched by no operation of the device. */
  lemma StrayHandlesAreTouchedByNobody(s: State, h: Handle)
    requires Reachable(s) && h < |s.places| && s.places[h].Stray?
    ensures s.printer != Some(h)
    ensures forall i :: 0 <= i < |s.device| ==> Touches(s, s.device[i].op) != Some(h)
  {
    ReachableInv(s);
    forall i | 0 <= i < |s.device|
      ensures Touches(s, s.device[i].op) != Some(h)
    {
      assert ItemStands(s.places, s.device[i]);
    }
  }

  /** At most one handle is installed, and installing one never replaces another nor a
      running worker. */
  lemma OneHandleOneWorker(s: State)
    requires Reachable(s)
    ensures forall h, k :: 0 <= h < |s.places| && 0 <= k < |s.places| && s.places[h].Installed? && s.places[k].Installed? ==> h == k
    ensures Enabled(s, DoConnectReturns) ==> s.printer.None? && s.worker.Dead? && s.orphan.None?
    ensures Alive(s.worker) ==> s.printer.Some? && OpenHandle(s, s.printer.value)
  {
    ReachableInv(s);
    forall h, k | 0 <= h < |s.places| && 0 <= k < |s.places| && s.places[h].Installed? && s.places[k].Installed?
      ensures h == k
    {
      assert PlaceStands(s.printer, s.lock, s.late, s.device, s.results, h, s.places[h]);
      assert PlaceStands(s.printer, s.lock, s.late, s.device, s.results, k, s.places[k]);
    }
  }

  /** However often opening is tried, at most one opening waits in the device thread, and
      its result is one somebody will pick up or close. */
  lemma OneOpeningAtATime(s: State, i: nat, k: nat)
    requires Reachable(s) && i < |s.device| && s.device[i].op.Build?
    ensures k < |s.device| && s.device[k].op.Build? ==> k == i
    ensures Expected(s.lock, s.late, s.device[i].id)
  {
    ReachableInv(s);
    if k < |s.device| && s.device[k].op.Build? {
      assert s.device[i].id == s.device[k].id;
    }
  }

  /** After a disconnect, once the device thread has nothing left, every handle that was
      ever opened is closed, those of late openings included. */
  lemma DisconnectClosesEveryHandle(s: State)
    requires Reachable(s) && Quiescent(s) && s.retired
    ensures forall h :: 0 <= h < |s.places| ==> s.places[h].Closed?
    ensures s.printer.None? && s.worker.Dead? && s.device == [] && s.late == {}
  {
    ReachableInv(s);
    LockRests(s);
    assert !Enabled(s, DoRun(Well));
    forall op | op in s.late
      ensures Done(s, op) && Enabled(s, DoCloseLate(op))
    {
      OperationMoves(s, op);
    }
    assert s.late == {};
    forall h | 0 <= h < |s.places|
      ensures s.places[h].Closed?
    {
      assert PlaceStands(s.printer, s.lock, s.late, s.device, s.results, h, s.places[h]);
      assert !Enabled(s, DoCloseStray(h));
    }
  }

  lemma ReturnLeavesClosed(s: State, h: Handle)
    requires BuildsInv(s) && Enabled(s, DoConnectReturns) && h < |s.places| && s.places[h].Closed?
    ensures var t := ConnectReturns(s); h < |t.places| && t.places[h].Closed?
  {
    assert Expected(s.lock, s.late, s.lock.op);
  }

  lemma LateLeavesClosed(s: State, op: OpId, h: Handle)
    requires BuildsInv(s) && Enabled(s, DoCloseLate(op)) && h < |s.places| && s.places[h].Closed?
    ensures var t := CloseLate(s, op); h < |t.places| && t.places[h].Closed?
  {
    assert Expected(s.lock, s.late, op);
  }

  lemma LostLeavesClosed(s: State, h: Handle)
    requires PlacesInv(s) && LockOk(s) && s.worker.Writing? && h < |s.places| && s.places[h].Closed?
    ensures var t := ConnectionLost(s, s.worker.job); h < |t.places| && t.places[h].Closed?
  {
    assert ConnectionLost(s, s.worker.job) == FailQueued(Lost(s));
  }

  lemma DisconnectLeavesClosed(s: State, h: Handle)
    requires PlacesInv(s) && h < |s.places| && s.places[h].Closed?
    ensures var t := DisconnectEnds(s); h < |t.places| && t.places[h].Closed?
  {
    assert FailQueued(s).places == s.places && s.printer != Some(h);
  }

  /** Steps of opening and giving up. */
  lemma HandlingLeavesClosed(s: State, step: Step, h: Handle)
    requires PlacesInv(s) && BuildsInv(s) && Enabled(s, step) && h < |s.places| && s.places[h].Closed?
    requires step.DoConnectReturns? || step.DoCloseLate? || step.DoDisconnectBegins? || step.DoDisconnectEnds?
    ensures var t := Apply(s, step); h < |t.places| && t.places[h].Closed?
  {
    if step.DoConnectReturns? {
      ReturnLeavesClosed(s, h);
    } else if step.DoCloseLate? {
      LateLeavesClosed(s, step.op, h);
    } else if step.DoDisconnectEnds? {
      DisconnectLeavesClosed(s, h);
    } else {
      BeginningLeavesClosed(s, h);
    }
  }

  lemma BeginningLeavesClosed(s: State, h: Handle)
    requires PlacesInv(s) && Enabled(s, DoDisconnectBegins) && h < |s.places| && s.places[h].Closed?
    ensures var t := DisconnectBegins(s); h < |t.places| && t.places[h].Closed?
  {
    DisconnectLeavesClosed(s.(disconnects := s.disconnects - 1), h);
  }

  lemma WrittenLeavesClosed(s: State, h: Handle)
    requires PlacesInv(s) && LockOk(s) && Enabled(s, DoWritten) && h < |s.places| && s.places[h].Closed?
    ensures var t := Written(s); h < |t.places| && t.places[h].Closed?
  {
    if s.results[s.worker.op] == Failed(true) {
      LostLeavesClosed(s, h);
    }
  }

  lemma TakeLeavesPlaces(s: State)
    requires Enabled(s, DoTake)
    ensures Take(s).places == s.places
  {
  }

  lemma CheckedLeavesPlaces(s: State)
    requires Enabled(s, DoChecked)
    ensures Checked(s).places == s.places
  {
  }

  lemma RenderedLeavesPlaces(s: State, sound: bool)
    requires Enabled(s, DoRendered(sound))
    ensures Rendered(s, sound).places == s.places
  {
  }

  lemma CancelledLeavesPlaces(s: State)
    ensures Cancelled(s).places == s.places
  {
  }

  lemma OrphanLeavesPlaces(s: State)
    requires Enabled(s, DoOrphanEnds)
    ensures OrphanEnds(s).places == s.places
  {
  }

  lemma EnqueueLeavesPlaces(s: State)
    ensures EnqueueCall(s).places == s.places
  {
  }

  lemma ConnectLeavesPlaces(s: State)
    ensures ConnectCall(s).places == s.places && ProbeCall(s).places == s.places
  {
  }

  lemma LeaveLeavesPlaces(s: State, j: JobId)
    ensures DisconnectCall(s).places == s.places && ClientLeaves(s, j).places == s.places
  {
  }

  lemma PlacesStayClosed(places: seq<Place>, id: OpId, op: Op, fate: Fate, h: Handle)
    requires h < |places| && places[h].Closed?
    ensures var after := PlacesAfter(places, id, op, fate); h < |after| && after[h].Closed?
  {
  }

  lemma RunLeavesClosed(s: State, fate: Fate, h: Handle)
    requires s.device != [] && h < |s.places| && s.places[h].Closed?
    ensures var t := RunHead(s, fate); h < |t.places| && t.places[h].Closed?
  {
    PlacesStayClosed(s.places, s.device[0].id, s.device[0].op, fate, h);
  }

  /** Closed stays closed, so that no handle is ever used again. */
  lemma ClosedForGood(s: State, step: Step, h: Handle)
    requires Reachable(s) && Enabled(s, step) && h < |s.places| && s.places[h].Closed?
    ensures h < |Apply(s, step).places| && Apply(s, step).places[h].Closed?
  {
    ReachableInv(s);
    match step
    case DoConnectReturns => HandlingLeavesClosed(s, step, h);
    case DoCloseLate(_) => HandlingLeavesClosed(s, step, h);
    case DoDisconnectBegins => HandlingLeavesClosed(s, step, h);
    case DoDisconnectEnds => HandlingLeavesClosed(s, step, h);
    case DoWritten => WrittenLeavesClosed(s, h);
    case DoTake => TakeLeavesPlaces(s);
    case DoChecked => CheckedLeavesPlaces(s);
    case DoRendered(sound) => RenderedLeavesPlaces(s, sound);
    case DoCancelled => CancelledLeavesPlaces(s);
    case DoOrphanEnds => OrphanLeavesPlaces(s);
    case DoRun(fate) => RunLeavesClosed(s, fate, h);
    case DoEnqueue => EnqueueLeavesPlaces(s);
    case DoConnect => ConnectLeavesPlaces(s);
    case DoProbe => ConnectLeavesPlaces(s);
    case DoLeave(j) => LeaveLeavesPlaces(s, j);
    case _ =>
  }
}
