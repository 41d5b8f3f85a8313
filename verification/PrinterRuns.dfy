/** The invariant over whole runs: every run from a fresh device keeps it, and every run in
    which nobody calls from outside comes to an end. */
module PrinterRuns {
  import opened Options
  import opened PrinterMachine
  import opened PrinterInvariant

  lemma LoopStepKeeps(s: State, step: Step)
    requires Inv(s) && Enabled(s, step)
    requires step.DoTake? || step.DoChecked? || step.DoRendered? || step.DoWritten? || step.DoCancelled? || step.DoOrphanEnds?
    ensures Inv(Apply(s, step))
  {
    match step
    case DoTake => TakeKeeps(s);
    case DoChecked => CheckedKeeps(s);
    case DoRendered(sound) => RenderedKeeps(s, sound);
    case DoWritten => WrittenKeeps(s);
    case DoCancelled => CancelledKeeps(s);
    case DoOrphanEnds => OrphanEndsKeeps(s);
  }

  /** Every step of the machine keeps the whole invariant. */
  lemma StepKeeps(s: State, step: Step)
    requires Inv(s) && Enabled(s, step)
    ensures Inv(Apply(s, step))
  {
    match step
    case DoEnqueue => EnqueueKeeps(s);
    case DoConnect => ConnectKeeps(s);
    case DoDisconnect => DisconnectKeeps(s);
    case DoProbe => ProbeKeeps(s);
    case DoLeave(j) => LeaveKeeps(s, j);
    case DoRun(fate) => RunKeeps(s, fate);
    case DoDeliver(op) => DeliverKeeps(s, op);
    case DoCloseStray(h) => CloseStrayKeeps(s, h);
    case DoConnectReturns => ConnectReturnsKeeps(s);
    case DoConnectTimesOut => ConnectTimesOutKeeps(s);
    case DoCloseLate(op) => CloseLateKeeps(s, op);
    case DoDisconnectBegins => DisconnectBeginsKeeps(s);
    case DoDisconnectEnds => DisconnectEndsKeeps(s);
    case DoCloseWaitEnds => CloseWaitEndsKeeps(s);
    case _ => LoopStepKeeps(s, step);
  }

  lemma {:induction false} RunKeepsInv(s: State, steps: seq<Step>)
    requires Inv(s) && CanRun(s, steps)
    ensures Inv(Run(s, steps))
    decreases |steps|
  {
    if steps != [] {
      StepKeeps(s, steps[0]);
      RunKeepsInv(Apply(s, steps[0]), steps[1..]);
    }
  }

  /** A state some run of a fresh device leads to. */
  ghost predicate Reachable(s: State) {
    exists spooler: bool, steps: seq<Step> :: CanRun(Initial(spooler), steps) && s == Run(Initial(spooler), steps)
  }

  lemma ReachableInv(s: State)
    requires Reachable(s)
    ensures Inv(s)
  {
    var spooler: bool, steps: seq<Step> :| CanRun(Initial(spooler), steps) && s == Run(Initial(spooler), steps);
    InitialInv(spooler);
    RunKeepsInv(Initial(spooler), steps);
  }

  // ----- runs without calls from outside end -------------------------------

  function WorkerWeight(w: Worker): nat {
    match w
    case Dead => 0
    case Idle => 1
    case Writing(_, _, _) => 6
    case Rendering(_, _) => 10
    case Checking(_, _, _) => 11
  }

  function LockWeight(l: Lock): nat {
    match l
    case Free => 0
    case Closing(_) => 4
    case Connecting(_) => 6
    case AwaitingWorker => 10
  }

  function OrphanWeight(orphan: Option<Orphan>): nat {
    if orphan.Some? then 5 else 0
  }

  function Undelivered(results: map<OpId, Result>, delivered: set<OpId>): set<OpId> {
    results.Keys - delivered
  }

  function Strays(places: seq<Place>): set<Handle> {
    set h | 0 <= h < |places| && places[h].Stray?
  }

  /** The weight of what the machine has still to do by itself. */
  function Weight(s: State): nat {
    20 * |s.queue| + 3 * |s.device| + |Undelivered(s.results, s.delivered)| + WorkerWeight(s.worker)
    + OrphanWeight(s.orphan) + 4 * |s.late| + |Strays(s.places)| + LockWeight(s.lock) + 12 * s.disconnects
  }

  lemma PlaceUpdate(places: seq<Place>, h: Handle, place: Place)
    requires h < |places|
    ensures !place.Stray? ==> |Strays(places[h := place])| <= |Strays(places)|
    ensures places[h].Stray? && !place.Stray? ==> |Strays(places[h := place])| == |Strays(places)| - 1
    ensures |Strays(places[h := place])| <= |Strays(places)| + 1
  {
    var before, after := Strays(places), Strays(places[h := place]);
    if place.Stray? {
      assert after == before + {h};
    } else {
      assert after == before - {h};
    }
  }

  lemma PlaceAppend(places: seq<Place>, place: Place)
    requires !place.Stray?
    ensures Strays(places + [place]) == Strays(places)
  {
  }

  lemma SubmitCloseWeight(s: State, h: Handle)
    requires h < |s.places|
    ensures Weight(SubmitClose(s, h)) <= Weight(s) + 3
  {
    PlaceUpdate(s.places, h, ClosePending(s.nextOp));
  }

  lemma FailQueuedWeight(s: State)
    ensures Weight(FailQueued(s)) == Weight(s) - 20 * |s.queue|
  {
  }

  lemma RunWeight(s: State, fate: Fate)
    requires s.device != []
    ensures Weight(RunHead(s, fate)) < Weight(s)
  {
    assert RunHead(s, fate).results.Keys == s.results.Keys + {s.device[0].id};
    RunStrays(s.places, s.device[0].id, s.device[0].op, fate);
    OneMoreUndelivered(s.results.Keys, s.delivered, s.device[0].id);
  }

  lemma OneMoreUndelivered(results: set<OpId>, delivered: set<OpId>, id: OpId)
    ensures |(results + {id}) - delivered| <= |results - delivered| + 1
  {
    SubsetSize((results + {id}) - delivered, (results - delivered) + {id});
  }

  lemma RunStrays(places: seq<Place>, id: OpId, op: Op, fate: Fate)
    ensures |Strays(PlacesAfter(places, id, op, fate))| <= |Strays(places)|
  {
    if op.Build? {
      PlaceAppend(places, Unclaimed(id));
    } else if op.Close? && op.h < |places| {
      PlaceUpdate(places, op.h, Closed);
    }
  }

  lemma {:induction false} SubsetSize(a: set<OpId>, b: set<OpId>)
    requires a <= b
    ensures |a| <= |b|
  {
    if a != {} {
      var x :| x in a;
      SubsetSize(a - {x}, b - {x});
    }
  }

  lemma DeliverWeight(s: State, op: OpId)
    requires op in s.results && op !in s.delivered
    ensures Weight(Deliver(s, op)) < Weight(s)
  {
    assert Undelivered(s.results, s.delivered + {op}) == Undelivered(s.results, s.delivered) - {op};
  }

  lemma CloseLateWeight(s: State, op: OpId)
    requires op in s.late && Done(s, op)
    ensures Weight(CloseLate(s, op)) < Weight(s)
  {
    var t := s.(late := s.late - {op});
    assert Weight(t) == Weight(s) - 4;
    match s.results[op]
    case Built(h) =>
      if h < |s.places| {
        PlaceUpdate(s.places, h, Stray);
        SubmitCloseWeight(t, h);
      }
    case _ =>
  }

  lemma WorkerMoves(s: State, t: State)
    requires t == s.(worker := t.worker, cancelling := t.cancelling, orphan := t.orphan, inFlight := t.inFlight, jobs := t.jobs)
    ensures Weight(t) + WorkerWeight(s.worker) + OrphanWeight(s.orphan)
         == Weight(s) + WorkerWeight(t.worker) + OrphanWeight(t.orphan)
  {
  }

  lemma TakeWeight(s: State)
    requires LockOk(s) && Enabled(s, DoTake)
    ensures Weight(Take(s)) < Weight(s)
  {
  }

  lemma CheckedWeight(s: State)
    requires Enabled(s, DoChecked)
    ensures Weight(Checked(s)) < Weight(s)
  {
    WorkerMoves(s, Checked(s));
  }

  lemma RenderedWeight(s: State, sound: bool)
    requires Enabled(s, DoRendered(sound))
    ensures Weight(Rendered(s, sound)) < Weight(s)
  {
    if sound {
      var t := Submit(s, Write(s.worker.h, s.worker.job));
      assert Weight(t) == Weight(s) + 3;
      WorkerMoves(t, Rendered(s, sound));
    } else {
      WorkerMoves(s, Rendered(s, sound));
    }
  }

  lemma CancelledWeight(s: State)
    requires LockOk(s) && Enabled(s, DoCancelled)
    ensures Weight(Cancelled(s)) < Weight(s)
  {
    var t := Cancelled(s);
    assert t.worker.Dead? && (t.orphan.Some? ==> s.worker.Writing?);
    WorkerMoves(s, t);
  }

  lemma OrphanEndsWeight(s: State)
    requires Enabled(s, DoOrphanEnds)
    ensures Weight(OrphanEnds(s)) < Weight(s)
  {
    WorkerMoves(s, OrphanEnds(s));
  }

  lemma LostWeight(s: State)
    requires s.worker.Writing? && s.printer.Some? && s.printer.value < |s.places|
    ensures Weight(Lost(s)) <= Weight(s) - 3
  {
    var jobs := EndJob(s, s.worker.job, RowFailed, ToldError).jobs;
    var t := s.(printer := None, jobs := jobs, inFlight := false, worker := Dead);
    WorkerMoves(s.(printer := None), t);
    SubmitCloseWeight(t, s.printer.value);
    LostFrame(s);
  }

  lemma LostFrame(s: State)
    requires s.worker.Writing? && s.printer.Some? && s.printer.value < |s.places|
    ensures var jobs := EndJob(s, s.worker.job, RowFailed, ToldError).jobs;
            Lost(s) == SubmitClose(s.(printer := None, jobs := jobs, inFlight := false, worker := Dead), s.printer.value)
  {
  }

  lemma ConnectionLostWeight(s: State)
    requires s.worker.Writing? && s.printer.Some? && s.printer.value < |s.places|
    ensures Weight(ConnectionLost(s, s.worker.job)) < Weight(s)
  {
    LostWeight(s);
    FailQueuedWeight(Lost(s));
    assert ConnectionLost(s, s.worker.job) == FailQueued(Lost(s));
  }

  lemma WriteEndsFrame(s: State)
    requires Enabled(s, DoWritten) && s.results[s.worker.op] != Failed(true)
    ensures var t := Written(s); t == s.(worker := Idle, inFlight := false, jobs := t.jobs)
  {
  }

  lemma WriteEndsWeight(s: State)
    requires Enabled(s, DoWritten) && s.results[s.worker.op] != Failed(true)
    ensures Weight(Written(s)) < Weight(s)
  {
    WriteEndsFrame(s);
    WorkerMoves(s, Written(s));
  }

  lemma WrittenWeight(s: State)
    requires LockOk(s) && PlacesInv(s) && Enabled(s, DoWritten)
    ensures Weight(Written(s)) < Weight(s)
  {
    if s.results[s.worker.op] == Failed(true) {
      ConnectionLostWeight(s);
      assert Written(s) == ConnectionLost(s, s.worker.job);
    } else {
      WriteEndsWeight(s);
    }
  }

  lemma DisconnectEndsWeight(s: State)
    requires !s.lock.Connecting? && !s.lock.Closing?
    ensures Weight(DisconnectEnds(s)) <= Weight(s) - LockWeight(s.lock) + 7
  {
    FailQueuedWeight(s);
    var t := FailQueued(s).(printer := None);
    assert Weight(t) <= Weight(s);
    GiveUpWeight(t, s.printer);
  }

  lemma GiveUpWeight(t: State, printer: Option<Handle>)
    ensures printer.Some? && printer.value < |t.places| ==>
              Weight(SubmitClose(t, printer.value).(lock := Closing(t.nextOp))) <= Weight(t) - LockWeight(t.lock) + 7
    ensures Weight(t.(lock := Free, shut := true)) == Weight(t) - LockWeight(t.lock)
  {
    if printer.Some? && printer.value < |t.places| {
      SubmitCloseWeight(t, printer.value);
    }
  }

  lemma DisconnectWeight(s: State, step: Step)
    requires Inv(s) && Enabled(s, step) && (step.DoDisconnectBegins? || step.DoDisconnectEnds? || step.DoCloseWaitEnds?)
    ensures Weight(Apply(s, step)) < Weight(s)
  {
    if step.DoDisconnectBegins? && !Alive(s.worker) {
      DisconnectEndsWeight(s.(disconnects := s.disconnects - 1));
    } else if step.DoDisconnectEnds? {
      DisconnectEndsWeight(s);
    }
  }

  lemma ConnectReturnsWeight(s: State)
    requires Inv(s) && Enabled(s, DoConnectReturns)
    ensures Weight(ConnectReturns(s)) < Weight(s)
  {
    if s.results[s.lock.op].Built? {
      var h := s.results[s.lock.op].h;
      assert Expected(s.lock, s.late, s.lock.op);
      PlaceUpdate(s.places, h, Installed);
    }
  }

  /** Every step the machine takes by itself makes it lighter. */
  lemma InternalStepsAreLighter(s: State, step: Step)
    requires Inv(s) && Enabled(s, step) && !External(step)
    ensures Weight(Apply(s, step)) < Weight(s)
  {
    match step
    case DoRun(fate) => RunWeight(s, fate);
    case DoDeliver(op) => DeliverWeight(s, op);
    case DoCloseStray(h) => PlaceUpdate(s.places, h, Closed);
    case DoConnectReturns => ConnectReturnsWeight(s);
    case DoConnectTimesOut =>
    case DoCloseLate(op) => CloseLateWeight(s, op);
    case DoWritten => WrittenWeight(s);
    case DoDisconnectBegins => DisconnectWeight(s, step);
    case DoDisconnectEnds => DisconnectWeight(s, step);
    case DoCloseWaitEnds => DisconnectWeight(s, step);
    case DoTake => TakeWeight(s);
    case DoChecked => CheckedWeight(s);
    case DoRendered(sound) => RenderedWeight(s, sound);
    case DoCancelled => CancelledWeight(s);
    case DoOrphanEnds => OrphanEndsWeight(s);
  }

  predicate NobodyCalls(steps: seq<Step>) {
    forall i :: 0 <= i < |steps| ==> !External(steps[i])
  }

  /** No livelock: once the calls stop, the machine takes at most `Weight(s)` more steps,
      whatever order they come in. */
  lemma {:induction false} QuietRunsEnd(s: State, steps: seq<Step>)
    requires Inv(s) && CanRun(s, steps) && NobodyCalls(steps)
    ensures |steps| + Weight(Run(s, steps)) <= Weight(s)
    decreases |steps|
  {
    if steps != [] {
      assert !External(steps[0]);
      StepKeeps(s, steps[0]);
      InternalStepsAreLighter(s, steps[0]);
      QuietRunsEnd(Apply(s, steps[0]), steps[1..]);
    }
  }
}
