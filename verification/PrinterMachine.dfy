/** The life of one `PrinterDevice`, as a machine whose steps are the stretches of code
    between two awaits of the event loop, and the operations of the device thread.

    The device thread takes operations first in, first out, one at a time. What an
    operation produced reaches the event loop in a later step of its own (`Deliver`), and
    whoever waits for it resumes in yet another one. */
module PrinterMachine {
  import opened Options

  type Handle = nat
  type JobId = nat
  type OpId = nat

  datatype Op = Build | Status | Probe(h: Handle) | Write(h: Handle, job: JobId) | Close(h: Handle)

  datatype Item = Item(id: OpId, op: Op)

  /** What an operation ended with; `os` tells an OSError from any other exception. */
  datatype Result = Built(h: Handle) | Answered(fit: bool) | Success | Failed(os: bool)

  /** What the device thread may do with the operation it runs. */
  datatype Fate = Well | Unfit | Breaks(os: bool)

  datatype Waiter = Waiting | ToldOk | ToldError | Gone

  datatype Row = RowOk | RowFailed | RowCancelled

  /** How much of the job's bytes the device has taken without an error. */
  datatype Paper = Untouched | Incomplete | Whole

  /** One `enqueue` call: its caller, its journal rows, its paper. */
  datatype Job = Job(waiter: Waiter, rows: seq<Row>, paper: Paper)

  datatype Worker =
    | Dead
    | Idle
    | Checking(job: JobId, h: Handle, op: OpId)
    | Rendering(job: JobId, h: Handle)
    | Writing(job: JobId, h: Handle, op: OpId)

  /** A write whose worker was cancelled: callbacks on its future write the row, answer the
      caller (`settles`) and lower the in-flight flag (`clears`). */
  datatype Orphan = Orphan(job: JobId, h: Handle, op: OpId, settles: bool, clears: bool)

  datatype Lock = Free | Connecting(op: OpId) | AwaitingWorker | Closing(op: OpId)

  /** Where an opened handle is: result nobody picked up yet, installed, waiting for its
      close in the device thread, closed by a thread of its own, closed. */
  datatype Place = Unclaimed(op: OpId) | Installed | ClosePending(op: OpId) | Stray | Closed

  datatype State = State(
    spooler: bool,
    printer: Option<Handle>,
    queue: seq<JobId>,
    worker: Worker,
    cancelling: bool,
    inFlight: bool,
    retired: bool,
    lock: Lock,
    disconnects: nat,
    pendingBuild: Option<OpId>,
    shut: bool,
    device: seq<Item>,
    results: map<OpId, Result>,
    delivered: set<OpId>,
    nextOp: OpId,
    late: set<OpId>,
    orphan: Option<Orphan>,
    jobs: seq<Job>,
    places: seq<Place>)

  function Initial(spooler: bool): State {
    State(spooler, None, [], Dead, false, false, false, Free, 0, None, false, [], map[], {}, 0, {}, None, [], [])
  }

  // ----- small moves ----------------------------------------------------

  function Submit(s: State, op: Op): State {
    s.(device := s.device + [Item(s.nextOp, op)], nextOp := s.nextOp + 1)
  }

  function SubmitClose(s: State, h: Handle): State
    requires h < |s.places|
  {
    s.(device := s.device + [Item(s.nextOp, Close(h))], nextOp := s.nextOp + 1,
       places := s.places[h := ClosePending(s.nextOp)])
  }

  function Tell(job: Job, answer: Waiter): Job {
    if job.waiter == Waiting then job.(waiter := answer) else job
  }

  function Finish(job: Job, row: Row, answer: Waiter): Job {
    Tell(job, answer).(rows := job.rows + [row])
  }

  /** The jobs once `j` has its row and its caller an answer. */
  function Ended(jobs: seq<Job>, j: JobId, row: Row, answer: Waiter): seq<Job> {
    if j < |jobs| then jobs[j := Finish(jobs[j], row, answer)] else jobs
  }

  function EndJob(s: State, j: JobId, row: Row, answer: Waiter): State {
    s.(jobs := Ended(s.jobs, j, row, answer))
  }

  function Told(jobs: seq<Job>, j: JobId, answer: Waiter): seq<Job> {
    if j < |jobs| then jobs[j := Tell(jobs[j], answer)] else jobs
  }

  /** The jobs once everything queued has been given up. */
  function Drained(queue: seq<JobId>, jobs: seq<Job>): seq<Job> {
    if queue == [] then jobs else Drained(queue[1..], Ended(jobs, queue[0], RowCancelled, ToldError))
  }

  /** `_fail_queued_jobs`. */
  function FailQueued(s: State): State {
    s.(queue := [], jobs := Drained(s.queue, s.jobs))
  }

  /** The worker gives up one job and goes back to the queue. */
  function FailJob(s: State, j: JobId): State {
    EndJob(s, j, RowFailed, ToldError).(inFlight := false, worker := Idle)
  }

  predicate Done(s: State, op: OpId) {
    op in s.delivered && op in s.results
  }

  predicate Alive(w: Worker) {
    !w.Dead?
  }

  predicate Holds(w: Worker) {
    w.Checking? || w.Rendering? || w.Writing?
  }

  // ----- calls from outside ---------------------------------------------

  function EnqueueCall(s: State): State {
    if s.printer.None? then s.(jobs := s.jobs + [Job(ToldError, [RowFailed], Untouched)])
    else s.(jobs := s.jobs + [Job(Waiting, [], Untouched)], queue := s.queue + [|s.jobs|])
  }

  /** `connect()` once it holds the lock. */
  function ConnectCall(s: State): State {
    if s.retired || s.printer.Some? || (s.pendingBuild.Some? && !Done(s, s.pendingBuild.value)) then s
    else Submit(s, Build).(pendingBuild := Some(s.nextOp), lock := Connecting(s.nextOp))
  }

  function DisconnectCall(s: State): State {
    s.(retired := true, disconnects := s.disconnects + 1)
  }

  function ProbeCall(s: State): State {
    if s.printer.None? || s.inFlight then s else Submit(s, Probe(s.printer.value))
  }

  function ClientLeaves(s: State, j: JobId): State {
    s.(jobs := Told(s.jobs, j, Gone))
  }

  // ----- the device thread ----------------------------------------------

  /** What the operation ends with; a build that works opens the next handle. */
  function Outcome(op: Op, fate: Fate, opens: Handle): Result {
    match op
    case Build => if fate.Breaks? then Failed(fate.os) else Built(opens)
    case Status => Answered(fate != Unfit)
    case Probe(h) => Success
    case Write(h, j) => if fate.Breaks? then Failed(fate.os) else Success
    case Close(h) => Success
  }

  function PaperAfter(jobs: seq<Job>, op: Op, fate: Fate): seq<Job> {
    if op.Write? && op.job < |jobs| then
      jobs[op.job := jobs[op.job].(paper := if fate.Breaks? then Incomplete else Whole)]
    else jobs
  }

  function PlacesAfter(places: seq<Place>, id: OpId, op: Op, fate: Fate): seq<Place> {
    if op.Build? && !fate.Breaks? then places + [Unclaimed(id)]
    else if op.Close? && op.h < |places| then places[op.h := Closed]
    else places
  }

  function RunHead(s: State, fate: Fate): State
    requires s.device != []
  {
    var Item(id, op) := s.device[0];
    s.(device := s.device[1..],
       results := s.results[id := Outcome(op, fate, |s.places|)],
       jobs := PaperAfter(s.jobs, op, fate),
       places := PlacesAfter(s.places, id, op, fate))
  }

  function Deliver(s: State, op: OpId): State {
    s.(delivered := s.delivered + {op})
  }

  function CloseStray(s: State, h: Handle): State
    requires h < |s.places|
  {
    s.(places := s.places[h := Closed])
  }

  // ----- opening --------------------------------------------------------

  function ConnectReturns(s: State): State
    requires s.lock.Connecting? && Done(s, s.lock.op)
  {
    match s.results[s.lock.op]
    case Built(h) =>
      if h < |s.places| then
        s.(printer := Some(h), places := s.places[h := Installed], lock := Free,
           worker := if Alive(s.worker) then s.worker else Idle)
      else s
    case _ => s.(lock := Free)
  }

  function ConnectTimesOut(s: State): State
    requires s.lock.Connecting?
  {
    s.(late := s.late + {s.lock.op}, lock := Free)
  }

  /** `_close_late_handle`: by the executor that opened it, or by a thread of its own when
      that executor takes no more work. */
  function CloseLate(s: State, op: OpId): State
    requires Done(s, op)
  {
    var t := s.(late := s.late - {op});
    match s.results[op]
    case Built(h) =>
      if h >= |s.places| then t
      else if s.shut then t.(places := s.places[h := Stray])
      else SubmitClose(t, h)
    case _ => t
  }

  // ----- the worker -----------------------------------------------------

  function Take(s: State): State
    requires s.queue != []
  {
    var j := s.queue[0];
    var t := s.(queue := s.queue[1..], inFlight := true);
    match s.printer
    case None => FailJob(t, j)
    case Some(h) =>
      if s.spooler then t.(worker := Rendering(j, h))
      else Submit(t, Status).(worker := Checking(j, h, s.nextOp))
  }

  function Checked(s: State): State
    requires s.worker.Checking? && Done(s, s.worker.op)
  {
    if s.results[s.worker.op] == Answered(true) then s.(worker := Rendering(s.worker.job, s.worker.h))
    else FailJob(s, s.worker.job)
  }

  /** The job built its bytes, or raised; only then is a write submitted. */
  function Rendered(s: State, sound: bool): State
    requires s.worker.Rendering?
  {
    var j, h := s.worker.job, s.worker.h;
    if !sound then FailJob(s, j)
    else Submit(s, Write(h, j)).(worker := Writing(j, h, s.nextOp))
  }

  function Written(s: State): State
    requires s.worker.Writing? && Done(s, s.worker.op)
  {
    var j := s.worker.job;
    match s.results[s.worker.op]
    case Failed(os) => if os then ConnectionLost(s, j) else FailJob(s, j)
    case _ => EndJob(s, j, RowOk, ToldOk).(inFlight := false, worker := Idle)
  }

  /** The OSError branch: the handle is given up, the queue drained, the worker exits. */
  function ConnectionLost(s: State, j: JobId): State {
    var t := EndJob(s, j, RowFailed, ToldError).(inFlight := false, worker := Dead, printer := None);
    var u := if s.printer.Some? && s.printer.value < |t.places| then SubmitClose(t, s.printer.value) else t;
    FailQueued(u)
  }

  /** CancelledError thrown at the worker's await. */
  function Cancelled(s: State): State {
    var w := s.worker;
    if !Holds(w) then s.(worker := Dead, cancelling := false)
    else if !w.Writing? then
      s.(worker := Dead, cancelling := false, inFlight := false, jobs := Ended(s.jobs, w.job, RowCancelled, ToldError))
    else if Done(s, w.op) then
      s.(worker := Dead, cancelling := false, inFlight := false, jobs := Told(s.jobs, w.job, ToldError),
         orphan := Some(Orphan(w.job, w.h, w.op, false, false)))
    else
      var settles := w.job < |s.jobs| && s.jobs[w.job].waiter == Waiting;
      s.(worker := Dead, cancelling := false, orphan := Some(Orphan(w.job, w.h, w.op, settles, true)))
  }

  /** The callbacks left on the future of an orphaned write. */
  function OrphanEnds(s: State): State
    requires s.orphan.Some? && Done(s, s.orphan.value.op)
  {
    var o := s.orphan.value;
    var well := s.results[o.op] == Success;
    var t := s.(orphan := None, inFlight := if o.clears then false else s.inFlight);
    if o.job >= |s.jobs| then t
    else
      var job := s.jobs[o.job];
      var row := if well then RowOk else RowFailed;
      var told := if o.settles then Tell(job, if well then ToldOk else ToldError) else job;
      t.(jobs := s.jobs[o.job := told.(rows := job.rows + [row])])
  }

  // ----- giving the device up -------------------------------------------

  function DisconnectBegins(s: State): State
    requires s.disconnects > 0
  {
    var t := s.(disconnects := s.disconnects - 1);
    if Alive(s.worker) then t.(cancelling := true, lock := AwaitingWorker) else DisconnectEnds(t)
  }

  /** The handle's close goes to the end of the thread's list, or there was none to close. */
  function GiveUp(s: State, printer: Option<Handle>): State {
    if printer.Some? && printer.value < |s.places| then
      s.(device := s.device + [Item(s.nextOp, Close(printer.value))], nextOp := s.nextOp + 1,
         places := s.places[printer.value := ClosePending(s.nextOp)], lock := Closing(s.nextOp))
    else s.(lock := Free, shut := true)
  }

  /** `_disconnect_locked` once no worker runs. */
  function DisconnectEnds(s: State): State {
    GiveUp(FailQueued(s).(printer := None), s.printer)
  }

  function StopWaitingForClose(s: State): State {
    s.(lock := Free, shut := true)
  }

  // ----- the machine ----------------------------------------------------

  datatype Step =
    | DoEnqueue | DoConnect | DoDisconnect | DoProbe | DoLeave(j: JobId)
    | DoRun(fate: Fate) | DoDeliver(op: OpId) | DoCloseStray(h: Handle)
    | DoConnectReturns | DoConnectTimesOut | DoCloseLate(op: OpId)
    | DoTake | DoChecked | DoRendered(sound: bool) | DoWritten | DoCancelled | DoOrphanEnds
    | DoDisconnectBegins | DoDisconnectEnds | DoCloseWaitEnds

  predicate External(step: Step) {
    step.DoEnqueue? || step.DoConnect? || step.DoDisconnect? || step.DoProbe? || step.DoLeave?
  }

  predicate Enabled(s: State, step: Step) {
    match step
    case DoEnqueue => true
    case DoConnect => s.lock.Free?
    case DoDisconnect => true
    case DoProbe => true
    case DoLeave(j) => j < |s.jobs|
    case DoRun(fate) => s.device != []
    case DoDeliver(op) => op in s.results && op !in s.delivered
    case DoCloseStray(h) => h < |s.places| && s.places[h].Stray?
    case DoConnectReturns => s.lock.Connecting? && Done(s, s.lock.op)
    case DoConnectTimesOut => s.lock.Connecting?
    case DoCloseLate(op) => op in s.late && Done(s, op)
    case DoTake => s.worker.Idle? && !s.cancelling && s.queue != []
    case DoChecked => s.worker.Checking? && !s.cancelling && Done(s, s.worker.op)
    case DoRendered(sound) => s.worker.Rendering? && !s.cancelling
    case DoWritten => s.worker.Writing? && !s.cancelling && Done(s, s.worker.op)
    case DoCancelled => s.cancelling && Alive(s.worker)
    case DoOrphanEnds => s.orphan.Some? && Done(s, s.orphan.value.op)
    case DoDisconnectBegins => s.lock.Free? && s.disconnects > 0
    case DoDisconnectEnds => s.lock.AwaitingWorker? && !Alive(s.worker)
    case DoCloseWaitEnds => s.lock.Closing?
  }

  function Apply(s: State, step: Step): State
    requires Enabled(s, step)
  {
    match step
    case DoEnqueue => EnqueueCall(s)
    case DoConnect => ConnectCall(s)
    case DoDisconnect => DisconnectCall(s)
    case DoProbe => ProbeCall(s)
    case DoLeave(j) => ClientLeaves(s, j)
    case DoRun(fate) => RunHead(s, fate)
    case DoDeliver(op) => Deliver(s, op)
    case DoCloseStray(h) => CloseStray(s, h)
    case DoConnectReturns => ConnectReturns(s)
    case DoConnectTimesOut => ConnectTimesOut(s)
    case DoCloseLate(op) => CloseLate(s, op)
    case DoTake => Take(s)
    case DoChecked => Checked(s)
    case DoRendered(sound) => Rendered(s, sound)
    case DoWritten => Written(s)
    case DoCancelled => Cancelled(s)
    case DoOrphanEnds => OrphanEnds(s)
    case DoDisconnectBegins => DisconnectBegins(s)
    case DoDisconnectEnds => DisconnectEnds(s)
    case DoCloseWaitEnds => StopWaitingForClose(s)
  }

  /** Every step of the run is enabled when it is taken. */
  predicate CanRun(s: State, steps: seq<Step>)
    decreases |steps|
  {
    steps == [] || (Enabled(s, steps[0]) && CanRun(Apply(s, steps[0]), steps[1..]))
  }

  function Run(s: State, steps: seq<Step>): State
    requires CanRun(s, steps)
    decreases |steps|
  {
    if steps == [] then s else Run(Apply(s, steps[0]), steps[1..])
  }

  function PendingJobs(s: State): nat {
    (if Alive(s.worker) then |s.queue| else 0) + (if s.inFlight then 1 else 0)
  }
}
