/** What holds in every reachable state of the printer machine. Each part of the invariant
    speaks of just the components it needs, so that a step which leaves those alone keeps it
    for free. */
module PrinterInvariant {
  import opened Options
  import opened PrinterMachine

  type Results = map<OpId, Result>

  // ----- the device thread and its results -------------------------------

  /** Operations keep the order of their submission; an operation is either still to run or
      has a result, and only a result can have been delivered. */
  ghost predicate DeviceOk(device: seq<Item>, results: Results, delivered: set<OpId>, nextOp: OpId) {
    && (forall i :: 0 <= i < |device| ==> device[i].id < nextOp && device[i].id !in results)
    && (forall i, k :: 0 <= i < k < |device| ==> device[i].id < device[k].id)
    && (forall op :: op in results ==> op < nextOp)
    && (forall op :: op in delivered ==> op in results)
  }

  // ----- the worker ------------------------------------------------------

  /** The write of a job: still to run with no byte on paper, or ended as the paper says. */
  ghost predicate WriteStands(device: seq<Item>, results: Results, jobs: seq<Job>, j: JobId, h: Handle, op: OpId) {
    && j < |jobs|
    && (|| (Item(op, Write(h, j)) in device && jobs[j].paper == Untouched)
        || (op in results && results[op] == Success && jobs[j].paper == Whole)
        || (op in results && results[op].Failed? && jobs[j].paper == Incomplete))
  }

  ghost predicate WorkerStands(
    worker: Worker, printer: Option<Handle>, device: seq<Item>, results: Results, jobs: seq<Job>)
  {
    match worker
    case Dead => true
    case Idle => printer.Some?
    case Checking(j, h, op) =>
      && printer == Some(h) && j < |jobs| && jobs[j].paper == Untouched
      && (Item(op, Status) in device || (op in results && results[op].Answered?))
    case Rendering(j, h) => printer == Some(h) && j < |jobs| && jobs[j].paper == Untouched
    case Writing(j, h, op) => printer == Some(h) && WriteStands(device, results, jobs, j, h, op)
  }

  ghost predicate OrphanStands(
    orphan: Option<Orphan>, device: seq<Item>, results: Results, delivered: set<OpId>, jobs: seq<Job>)
  {
    orphan.Some? ==>
      var o := orphan.value;
      && WriteStands(device, results, jobs, o.job, o.h, o.op)
      && (!o.clears ==> o.op in delivered && o.op in results && !o.settles)
      && (!o.settles ==> jobs[o.job].waiter != Waiting)
  }

  /** A write waiting in the device thread belongs to the worker or to the orphan. */
  ghost predicate WritesOwned(worker: Worker, orphan: Option<Orphan>, device: seq<Item>) {
    forall i :: 0 <= i < |device| && device[i].op.Write? ==>
      var Item(id, op) := device[i];
      || worker == Writing(op.job, op.h, id)
      || (orphan.Some? && orphan.value.job == op.job && orphan.value.h == op.h && orphan.value.op == id)
  }

  // ----- the jobs --------------------------------------------------------

  ghost predicate Active(queue: seq<JobId>, worker: Worker, orphan: Option<Orphan>, j: JobId) {
    || j in queue
    || (Holds(worker) && worker.job == j)
    || (orphan.Some? && orphan.value.job == j)
  }

  ghost predicate Unanswered(job: Job) {
    job.rows == [] && (job.waiter == Waiting || job.waiter == Gone)
  }

  /** The end of a job: one row, a truthful one, and nobody waiting. */
  ghost predicate Settled(job: Job) {
    && |job.rows| == 1
    && job.waiter != Waiting
    && (job.rows[0] == RowOk <==> job.paper == Whole)
    && (job.waiter == ToldOk ==> job.paper == Whole)
  }

  ghost predicate QueueOk(queue: seq<JobId>, jobs: seq<Job>) {
    && (forall a :: 0 <= a < |queue| ==>
          queue[a] < |jobs| && Unanswered(jobs[queue[a]]) && jobs[queue[a]].paper == Untouched)
    && (forall a, b :: 0 <= a < b < |queue| ==> queue[a] < queue[b])
  }

  /** Whatever is queued was enqueued after the job. */
  ghost predicate AllAfter(queue: seq<JobId>, j: JobId) {
    forall a :: 0 <= a < |queue| ==> j < queue[a]
  }

  ghost predicate JobsOk(queue: seq<JobId>, worker: Worker, orphan: Option<Orphan>, jobs: seq<Job>) {
    && QueueOk(queue, jobs)
    && (Holds(worker) ==>
          worker.job < |jobs| && AllAfter(queue, worker.job) && Unanswered(jobs[worker.job]))
    && (orphan.Some? ==>
          var j := orphan.value.job;
          && j < |jobs| && AllAfter(queue, j) && jobs[j].rows == [] && jobs[j].waiter != ToldOk
          && (orphan.value.clears ==> Unanswered(jobs[j])))
    && (forall j :: 0 <= j < |jobs| && !Active(queue, worker, orphan, j) ==> Settled(jobs[j]))
  }

  // ----- who may do what -------------------------------------------------

  ghost predicate LockOk(s: State) {
    && (Alive(s.worker) ==> s.printer.Some?)
    && (s.printer.Some? && !Alive(s.worker) ==> s.lock.AwaitingWorker?)
    && (s.printer.None? ==> s.queue == [])
    && (s.cancelling ==> s.lock.AwaitingWorker? && Alive(s.worker))
    && (s.lock.AwaitingWorker? ==> s.retired && (Alive(s.worker) ==> s.cancelling))
    && (s.lock.Connecting? ==> s.printer.None? && !Alive(s.worker) && s.orphan.None?)
    && (s.lock.Closing? ==> s.retired && s.printer.None?)
    && (s.shut ==> s.retired && s.printer.None? && s.lock.Free?)
    && (s.disconnects > 0 ==> s.retired)
    && (s.retired ==> s.disconnects > 0 || s.lock.AwaitingWorker? || s.lock.Closing? || s.shut)
    && (s.orphan.Some? ==> s.worker.Dead? && s.retired)
    && s.inFlight == (Holds(s.worker) || (s.orphan.Some? && s.orphan.value.clears))
  }

  // ----- the handles -----------------------------------------------------

  /** An opening whose result somebody will still pick up. */
  ghost predicate Expected(lock: Lock, late: set<OpId>, op: OpId) {
    lock == Connecting(op) || op in late
  }

  ghost predicate BuildStands(device: seq<Item>, results: Results, op: OpId) {
    Item(op, Build) in device || (op in results && (results[op].Built? || results[op].Failed?))
  }

  ghost predicate PlaceStands(
    printer: Option<Handle>, lock: Lock, late: set<OpId>, device: seq<Item>, results: Results, h: Handle, place: Place)
  {
    match place
    case Unclaimed(op) => op in results && results[op] == Built(h) && Expected(lock, late, op)
    case Installed => printer == Some(h)
    case ClosePending(op) => Item(op, Close(h)) in device
    case Stray => true
    case Closed => true
  }

  ghost predicate PlacesOk(
    printer: Option<Handle>, lock: Lock, late: set<OpId>, device: seq<Item>, results: Results, places: seq<Place>)
  {
    && (printer.Some? ==> printer.value < |places| && places[printer.value] == Installed)
    && (forall h :: 0 <= h < |places| ==> PlaceStands(printer, lock, late, device, results, h, places[h]))
  }

  /** A handle may be touched: it is installed, or its close stands further back. */
  ghost predicate Touchable(places: seq<Place>, h: Handle, op: OpId) {
    && h < |places|
    && (places[h].Installed? || (places[h].ClosePending? && op < places[h].op))
  }

  ghost predicate ItemStands(places: seq<Place>, item: Item) {
    match item.op
    case Build => true
    case Status => true
    case Probe(h) => Touchable(places, h, item.id)
    case Write(h, j) => Touchable(places, h, item.id)
    case Close(h) => h < |places| && places[h] == ClosePending(item.id)
  }

  ghost predicate ItemsOk(device: seq<Item>, places: seq<Place>) {
    forall i :: 0 <= i < |device| ==> ItemStands(places, device[i])
  }

  ghost predicate BuildsOk(
    lock: Lock, late: set<OpId>, pendingBuild: Option<OpId>, device: seq<Item>, results: Results, places: seq<Place>,
    nextOp: OpId)
  {
    && (lock.Connecting? ==>
          lock.op !in late && BuildStands(device, results, lock.op) && pendingBuild == Some(lock.op) && lock.op < nextOp)
    && (forall op :: op in late ==> BuildStands(device, results, op) && op < nextOp)
    && (forall op :: op in results && results[op].Built? && Expected(lock, late, op) ==>
          results[op].h < |places| && places[results[op].h] == Unclaimed(op))
    && (forall i :: 0 <= i < |device| && device[i].op.Build? ==>
          Expected(lock, late, device[i].id) && pendingBuild == Some(device[i].id))
  }

  ghost predicate DeviceInv(s: State) {
    DeviceOk(s.device, s.results, s.delivered, s.nextOp)
  }

  ghost predicate WorkInv(s: State) {
    && WorkerStands(s.worker, s.printer, s.device, s.results, s.jobs)
    && OrphanStands(s.orphan, s.device, s.results, s.delivered, s.jobs)
    && WritesOwned(s.worker, s.orphan, s.device)
  }

  ghost predicate JobsInv(s: State) {
    JobsOk(s.queue, s.worker, s.orphan, s.jobs)
  }

  ghost predicate PlacesInv(s: State) {
    PlacesOk(s.printer, s.lock, s.late, s.device, s.results, s.places)
  }

  ghost predicate ItemsInv(s: State) {
    ItemsOk(s.device, s.places)
  }

  ghost predicate BuildsInv(s: State) {
    BuildsOk(s.lock, s.late, s.pendingBuild, s.device, s.results, s.places, s.nextOp)
  }

  ghost predicate Inv(s: State) {
    DeviceInv(s) && LockOk(s) && WorkInv(s) && JobsInv(s) && PlacesInv(s) && ItemsInv(s) && BuildsInv(s)
  }

  lemma InitialInv(spooler: bool)
    ensures Inv(Initial(spooler))
  {
  }

  // ----- what draining the queue does to each job -------------------------

  lemma {:induction false} DrainedEffect(queue: seq<JobId>, jobs: seq<Job>)
    requires forall a :: 0 <= a < |queue| ==> queue[a] < |jobs|
    requires forall a, b :: 0 <= a < b < |queue| ==> queue[a] != queue[b]
    ensures var t := Drained(queue, jobs);
            && |t| == |jobs|
            && forall j :: 0 <= j < |jobs| ==>
                 t[j] == if j in queue then Finish(jobs[j], RowCancelled, ToldError) else jobs[j]
  {
    if queue != [] {
      DrainedEffect(queue[1..], Ended(jobs, queue[0], RowCancelled, ToldError));
      assert queue == [queue[0]] + queue[1..];
      assert queue[0] !in queue[1..];
    }
  }

  // ----- one lemma a step -------------------------------------------------

  lemma QueueJob(queue: seq<JobId>, worker: Worker, orphan: Option<Orphan>, jobs: seq<Job>, job: Job)
    requires JobsOk(queue, worker, orphan, jobs) && Unanswered(job) && job.paper == Untouched
    ensures JobsOk(queue + [|jobs|], worker, orphan, jobs + [job])
  {
    var longer, more := queue + [|jobs|], jobs + [job];
    assert |jobs| !in queue;
    forall j | 0 <= j < |more| && !Active(longer, worker, orphan, j)
      ensures Settled(more[j])
    {
      assert longer[|queue|] == |jobs|;
      assert j in queue ==> j in longer;
      assert !Active(queue, worker, orphan, j);
    }
  }

  lemma RefuseJob(queue: seq<JobId>, worker: Worker, orphan: Option<Orphan>, jobs: seq<Job>, job: Job)
    requires JobsOk(queue, worker, orphan, jobs) && Settled(job)
    ensures JobsOk(queue, worker, orphan, jobs + [job])
  {
  }

  lemma EnqueueWork(s: State, job: Job)
    requires WorkInv(s)
    ensures WorkInv(s.(jobs := s.jobs + [job]))
  {
  }

  lemma EnqueueKeeps(s: State)
    requires Inv(s)
    ensures Inv(EnqueueCall(s))
  {
    var job := if s.printer.None? then Job(ToldError, [RowFailed], Untouched) else Job(Waiting, [], Untouched);
    if s.printer.None? {
      RefuseJob(s.queue, s.worker, s.orphan, s.jobs, job);
    } else {
      QueueJob(s.queue, s.worker, s.orphan, s.jobs, job);
    }
    EnqueueWork(s, job);
    var t := EnqueueCall(s);
    assert WorkInv(t) && JobsInv(t);
  }

  /** Appending an operation that touches nothing it may not touch. */
  lemma SubmitPlaces(s: State, op: Op)
    requires DeviceInv(s) && PlacesInv(s) && ItemsInv(s) && ItemStands(s.places, Item(s.nextOp, op))
    ensures DeviceInv(Submit(s, op)) && PlacesInv(Submit(s, op)) && ItemsInv(Submit(s, op))
  {
    var t := Submit(s, op);
    assert forall item :: item in s.device ==> item in t.device;
  }

  lemma SubmitBuilds(s: State, op: Op)
    requires BuildsInv(s) && !op.Build?
    ensures BuildsInv(Submit(s, op))
  {
    var t := Submit(s, op);
    assert forall item :: item in s.device ==> item in t.device;
  }

  lemma SubmitWork(s: State, op: Op)
    requires WorkInv(s) && !op.Write?
    ensures WorkInv(Submit(s, op))
  {
    var t := Submit(s, op);
    assert forall item :: item in s.device ==> item in t.device;
  }

  lemma ConnectBuilds(s: State)
    requires DeviceInv(s) && BuildsInv(s) && PlacesInv(s) && s.lock.Free?
    requires s.pendingBuild.Some? ==> Done(s, s.pendingBuild.value)
    ensures var t := Submit(s, Build).(pendingBuild := Some(s.nextOp), lock := Connecting(s.nextOp));
            BuildsInv(t) && PlacesInv(t)
  {
    var t := Submit(s, Build).(pendingBuild := Some(s.nextOp), lock := Connecting(s.nextOp));
    assert forall item :: item in s.device ==> item in t.device;
    assert Item(s.nextOp, Build) in t.device;
    assert forall op :: Expected(t.lock, t.late, op) <==> Expected(s.lock, s.late, op) || op == s.nextOp;
  }

  lemma ConnectKeeps(s: State)
    requires Inv(s) && s.lock.Free?
    ensures Inv(ConnectCall(s))
  {
    if ConnectCall(s) != s {
      SubmitPlaces(s, Build);
      SubmitWork(s, Build);
      ConnectBuilds(s);
    }
  }

  lemma DisconnectKeeps(s: State)
    requires Inv(s)
    ensures Inv(DisconnectCall(s))
  {
  }

  lemma ProbeKeeps(s: State)
    requires Inv(s)
    ensures Inv(ProbeCall(s))
  {
  }

  lemma LeaveKeeps(s: State, j: JobId)
    requires Inv(s)
    ensures Inv(ClientLeaves(s, j))
  {
    LeaveJobs(s, j);
  }

  lemma LeaveJobs(s: State, j: JobId)
    requires WorkInv(s) && JobsInv(s)
    ensures WorkInv(ClientLeaves(s, j)) && JobsInv(ClientLeaves(s, j))
  {
    if j < |s.jobs| {
      LeftJobs(s.queue, s.worker, s.orphan, s.jobs, j);
      LeftWork(s, j);
    }
  }

  lemma LeftJobs(queue: seq<JobId>, worker: Worker, orphan: Option<Orphan>, jobs: seq<Job>, j: JobId)
    requires JobsOk(queue, worker, orphan, jobs) && j < |jobs|
    ensures JobsOk(queue, worker, orphan, jobs[j := Tell(jobs[j], Gone)])
  {
  }

  lemma LeftWork(s: State, j: JobId)
    requires WorkInv(s) && j < |s.jobs|
    ensures WorkInv(s.(jobs := s.jobs[j := Tell(s.jobs[j], Gone)]))
  {
  }

  /** The device thread takes its first operation off the list and notes how it ended. */
  lemma RunDevice(s: State, result: Result)
    requires DeviceInv(s) && s.device != []
    ensures var t := s.(device := s.device[1..], results := s.results[s.device[0].id := result]);
            && DeviceInv(t) && s.device[0].id !in s.results
            && (forall item :: item in t.device ==> item in s.device && item != s.device[0])
            && (forall item :: item in s.device && item != s.device[0] ==> item in t.device)
  {
    var t := s.(device := s.device[1..], results := s.results[s.device[0].id := result]);
    assert s.device == [s.device[0]] + t.device;
  }

  function Ran(s: State, result: Result): State
    requires s.device != []
  {
    s.(device := s.device[1..], results := s.results[s.device[0].id := result])
  }

  /** Any operation but a write or a build says nothing new about jobs and openings. */
  lemma RunWork(s: State, result: Result)
    requires DeviceInv(s) && WorkInv(s) && s.device != [] && !s.device[0].op.Write?
    requires s.device[0].op.Status? ==> result.Answered?
    ensures WorkInv(Ran(s, result))
  {
    RunDevice(s, result);
  }

  lemma RunItems(s: State, result: Result)
    requires ItemsInv(s) && s.device != []
    ensures ItemsInv(Ran(s, result))
  {
  }

  lemma RunPlaces(s: State, result: Result)
    requires DeviceInv(s) && PlacesInv(s) && s.device != [] && !s.device[0].op.Close?
    ensures PlacesInv(Ran(s, result))
  {
    RunDevice(s, result);
    var t := Ran(s, result);
    forall k | 0 <= k < |s.places|
      ensures PlaceStands(s.printer, s.lock, s.late, t.device, t.results, k, s.places[k])
    {
      assert PlaceStands(s.printer, s.lock, s.late, s.device, s.results, k, s.places[k]);
    }
  }

  lemma RunBuilds(s: State, result: Result)
    requires DeviceInv(s) && BuildsInv(s) && s.device != [] && !result.Built?
    requires s.device[0].op.Build? ==> result.Failed?
    ensures BuildsInv(Ran(s, result))
  {
    RunDevice(s, result);
  }

  lemma RunBuildWell(s: State)
    requires Inv(s) && s.device != [] && s.device[0].op.Build?
    ensures Inv(RunHead(s, Well))
  {
    var id := s.device[0].id;
    var result := Built(|s.places|);
    var t := Ran(s, result);
    RunDevice(s, result);
    RunWork(s, result);
    RunItems(s, result);
    RunPlaces(s, result);
    OpenedPlaces(t, id);
    OpenedBuilds(s);
  }

  lemma OpenedPlaces(t: State, id: OpId)
    requires PlacesInv(t) && ItemsInv(t) && id in t.results && t.results[id] == Built(|t.places|)
    requires Expected(t.lock, t.late, id)
    ensures var u := t.(places := t.places + [Unclaimed(id)]); PlacesInv(u) && ItemsInv(u)
  {
    var u := t.(places := t.places + [Unclaimed(id)]);
    assert forall i :: 0 <= i < |t.device| ==> ItemStands(t.places, t.device[i]);
  }

  lemma OpenedBuilds(s: State)
    requires DeviceInv(s) && BuildsInv(s) && s.device != [] && s.device[0].op.Build?
    ensures BuildsInv(RunHead(s, Well)) && Expected(s.lock, s.late, s.device[0].id)
  {
    RunDevice(s, Built(|s.places|));
  }

  /** A handle being closed is nobody's any more, and nothing behind the close touches it. */
  lemma RunClose(s: State, fate: Fate)
    requires Inv(s) && s.device != [] && s.device[0].op.Close?
    ensures Inv(RunHead(s, fate))
  {
    RunDevice(s, Success);
    RunWork(s, Success);
    RunBuilds(s, Success);
    ClosedPlaces(s);
    ClosedItems(s);
    ReplacedBuilds(Ran(s, Success), s.device[0].op.h, Closed);
  }

  lemma ClosedPlaces(s: State)
    requires DeviceInv(s) && PlacesInv(s) && ItemsInv(s) && s.device != [] && s.device[0].op.Close?
    ensures var h := s.device[0].op.h;
            h < |s.places| && PlacesInv(Ran(s, Success).(places := s.places[h := Closed]))
  {
    RunDevice(s, Success);
    var h, t := s.device[0].op.h, Ran(s, Success);
    assert ItemStands(s.places, s.device[0]);
    var places := s.places[h := Closed];
    forall k | 0 <= k < |places|
      ensures PlaceStands(s.printer, s.lock, s.late, t.device, t.results, k, places[k])
    {
      assert PlaceStands(s.printer, s.lock, s.late, s.device, s.results, k, s.places[k]);
    }
  }

  lemma ClosedItems(s: State)
    requires DeviceInv(s) && ItemsInv(s) && s.device != [] && s.device[0].op.Close?
    ensures var h := s.device[0].op.h; h < |s.places| && ItemsOk(s.device[1..], s.places[h := Closed])
  {
    var h := s.device[0].op.h;
    assert ItemStands(s.places, s.device[0]);
    forall i | 0 <= i < |s.device[1..]|
      ensures ItemStands(s.places[h := Closed], s.device[1..][i])
    {
      assert ItemStands(s.places, s.device[i + 1]);
      assert s.device[0].id < s.device[i + 1].id;
    }
  }

  lemma RunWrite(s: State, fate: Fate)
    requires Inv(s) && s.device != [] && s.device[0].op.Write?
    ensures Inv(RunHead(s, fate))
  {
    var result := if fate.Breaks? then Failed(fate.os) else Success;
    RunDevice(s, result);
    RunItems(s, result);
    RunPlaces(s, result);
    RunBuilds(s, result);
    WrittenPaper(s, fate);
    PaperJobs(s, s.device[0].op.job, if fate.Breaks? then Incomplete else Whole);
  }

  lemma WrittenPaper(s: State, fate: Fate)
    requires DeviceInv(s) && LockOk(s) && WorkInv(s) && JobsInv(s) && s.device != [] && s.device[0].op.Write?
    ensures var j := s.device[0].op.job; j < |s.jobs| && Active(s.queue, s.worker, s.orphan, j) && j !in s.queue
    ensures WorkInv(RunHead(s, fate))
  {
    var result := if fate.Breaks? then Failed(fate.os) else Success;
    RunDevice(s, result);
    var t := RunHead(s, fate);
    assert s.device[0] == Item(s.device[0].id, Write(s.device[0].op.h, s.device[0].op.job));
    assert forall i :: 0 <= i < |t.device| ==> t.device[i] == s.device[i + 1] && s.device[0].id < t.device[i].id;
  }

  lemma PaperJobs(s: State, j: JobId, paper: Paper)
    requires JobsInv(s) && j < |s.jobs| && Active(s.queue, s.worker, s.orphan, j) && j !in s.queue
    ensures JobsOk(s.queue, s.worker, s.orphan, s.jobs[j := s.jobs[j].(paper := paper)])
  {
  }

  lemma RunQuery(s: State, fate: Fate)
    requires Inv(s) && s.device != [] && (s.device[0].op.Status? || s.device[0].op.Probe?)
    ensures Inv(RunHead(s, fate))
  {
    var result := if s.device[0].op.Status? then Answered(fate != Unfit) else Success;
    RunDevice(s, result);
    RunWork(s, result);
    RunItems(s, result);
    RunPlaces(s, result);
    RunBuilds(s, result);
  }

  lemma RunBuildBreaks(s: State, fate: Fate)
    requires Inv(s) && s.device != [] && s.device[0].op.Build? && fate.Breaks?
    ensures Inv(RunHead(s, fate))
  {
    var result := Failed(fate.os);
    RunDevice(s, result);
    RunWork(s, result);
    RunItems(s, result);
    RunPlaces(s, result);
    RunBuilds(s, result);
  }

  lemma RunKeeps(s: State, fate: Fate)
    requires Inv(s) && s.device != []
    ensures Inv(RunHead(s, fate))
  {
    match s.device[0].op
    case Build =>
      if fate.Breaks? {
        RunBuildBreaks(s, fate);
      } else {
        RunBuildWell(s);
      }
    case Status => RunQuery(s, fate);
    case Probe(h) => RunQuery(s, fate);
    case Write(h, j) => RunWrite(s, fate);
    case Close(h) => RunClose(s, fate);
  }

  lemma DeliverKeeps(s: State, op: OpId)
    requires Inv(s) && op in s.results
    ensures Inv(Deliver(s, op))
  {
  }

  lemma CloseStrayKeeps(s: State, h: Handle)
    requires Inv(s) && h < |s.places| && s.places[h].Stray?
    ensures Inv(CloseStray(s, h))
  {
  }

  lemma InstallPlaces(s: State, h: Handle)
    requires DeviceInv(s) && PlacesInv(s) && ItemsInv(s) && s.printer.None? && s.lock.Connecting? && BuildsInv(s)
    requires s.lock.op in s.results && s.results[s.lock.op] == Built(h)
    ensures h < |s.places| && s.places[h] == Unclaimed(s.lock.op)
    ensures var places := s.places[h := Installed];
            PlacesOk(Some(h), Free, s.late, s.device, s.results, places) && ItemsOk(s.device, places)
  {
    assert Expected(s.lock, s.late, s.lock.op);
    var places := s.places[h := Installed];
    forall k | 0 <= k < |places|
      ensures PlaceStands(Some(h), Free, s.late, s.device, s.results, k, places[k])
    {
      assert PlaceStands(s.printer, s.lock, s.late, s.device, s.results, k, s.places[k]);
    }
    assert forall i :: 0 <= i < |s.device| ==> ItemStands(s.places, s.device[i]);
  }

  lemma InstallBuilds(s: State, h: Handle)
    requires DeviceInv(s) && BuildsInv(s) && s.lock.Connecting? && h < |s.places| && s.places[h] == Unclaimed(s.lock.op)
    requires s.lock.op in s.results
    ensures BuildsOk(Free, s.late, s.pendingBuild, s.device, s.results, s.places[h := Installed], s.nextOp)
  {
    assert forall op :: Expected(Free, s.late, op) <==> Expected(s.lock, s.late, op) && op != s.lock.op;
  }

  lemma ReturnEmptyHanded(s: State)
    requires DeviceInv(s) && BuildsInv(s) && PlacesInv(s) && s.lock.Connecting?
    requires s.lock.op in s.results && !s.results[s.lock.op].Built?
    ensures BuildsInv(s.(lock := Free)) && PlacesInv(s.(lock := Free))
  {
    assert forall op :: Expected(Free, s.late, op) <==> Expected(s.lock, s.late, op) && op != s.lock.op;
    forall k | 0 <= k < |s.places|
      ensures PlaceStands(s.printer, Free, s.late, s.device, s.results, k, s.places[k])
    {
      assert PlaceStands(s.printer, s.lock, s.late, s.device, s.results, k, s.places[k]);
    }
  }

  lemma ConnectReturnsKeeps(s: State)
    requires Inv(s) && Enabled(s, DoConnectReturns)
    ensures Inv(ConnectReturns(s))
  {
    match s.results[s.lock.op]
    case Built(h) =>
      InstallPlaces(s, h);
      InstallBuilds(s, h);
      var t := ConnectReturns(s);
      assert DeviceInv(t) && LockOk(t) && WorkInv(t) && JobsInv(t);
    case _ =>
      ReturnEmptyHanded(s);
  }

  lemma ConnectTimesOutKeeps(s: State)
    requires Inv(s) && Enabled(s, DoConnectTimesOut)
    ensures Inv(ConnectTimesOut(s))
  {
  }

  /** A handle's close is put behind everything that may still touch it. */
  lemma SubmitClosePlaces(s: State, h: Handle)
    requires DeviceInv(s) && ItemsInv(s) && h < |s.places| && (s.places[h].Installed? || s.places[h].Unclaimed?)
    requires forall k :: 0 <= k < |s.places| && k != h ==>
               PlaceStands(s.printer, s.lock, s.late, s.device, s.results, k, s.places[k])
    requires s.printer.Some? ==> s.printer.value < |s.places| && s.printer.value != h && s.places[s.printer.value] == Installed
    ensures var t := SubmitClose(s, h); DeviceInv(t) && PlacesInv(t) && ItemsInv(t)
  {
    var t := SubmitClose(s, h);
    assert forall item :: item in s.device ==> item in t.device;
    assert Item(s.nextOp, Close(h)) in t.device;
    forall k | 0 <= k < |t.places|
      ensures PlaceStands(t.printer, t.lock, t.late, t.device, t.results, k, t.places[k])
    {
    }
    forall i | 0 <= i < |t.device|
      ensures ItemStands(t.places, t.device[i])
    {
      if i < |s.device| {
        assert ItemStands(s.places, s.device[i]);
      }
    }
  }

  lemma ReplacedBuilds(s: State, h: Handle, place: Place)
    requires BuildsInv(s) && h < |s.places|
    requires !(s.places[h].Unclaimed? && s.places[h].op in s.results && Expected(s.lock, s.late, s.places[h].op))
    ensures BuildsInv(s.(places := s.places[h := place]))
  {
  }

  lemma ForgetLate(s: State, op: OpId)
    requires DeviceInv(s) && BuildsInv(s) && op in s.late && op in s.results
    ensures BuildsInv(s.(late := s.late - {op}))
    ensures !Expected(s.lock, s.late - {op}, op)
  {
    var late := s.late - {op};
    assert forall k :: Expected(s.lock, late, k) <==> Expected(s.lock, s.late, k) && k != op;
  }

  lemma ForgetLatePlaces(s: State, op: OpId, h: Handle)
    requires PlacesInv(s) && op in s.late && op in s.results && s.results[op] == Built(h)
    ensures forall k :: 0 <= k < |s.places| && k != h ==>
              PlaceStands(s.printer, s.lock, s.late - {op}, s.device, s.results, k, s.places[k])
  {
    forall k | 0 <= k < |s.places| && k != h
      ensures PlaceStands(s.printer, s.lock, s.late - {op}, s.device, s.results, k, s.places[k])
    {
      assert PlaceStands(s.printer, s.lock, s.late, s.device, s.results, k, s.places[k]);
    }
  }

  lemma StrayPlaces(s: State, h: Handle)
    requires ItemsInv(s) && h < |s.places| && s.places[h].Unclaimed?
    requires forall k :: 0 <= k < |s.places| && k != h ==>
               PlaceStands(s.printer, s.lock, s.late, s.device, s.results, k, s.places[k])
    requires s.printer.Some? ==> s.printer.value < |s.places| && s.places[s.printer.value] == Installed
    ensures var t := s.(places := s.places[h := Stray]); PlacesInv(t) && ItemsInv(t)
  {
    var t := s.(places := s.places[h := Stray]);
    assert forall i :: 0 <= i < |s.device| ==> ItemStands(s.places, s.device[i]);
  }

  lemma CloseLateKeeps(s: State, op: OpId)
    requires Inv(s) && Enabled(s, DoCloseLate(op))
    ensures Inv(CloseLate(s, op))
  {
    var t := s.(late := s.late - {op});
    ForgetLate(s, op);
    match s.results[op]
    case Built(h) =>
      assert Expected(s.lock, s.late, op);
      ForgetLatePlaces(s, op, h);
      if s.shut {
        StrayPlaces(t, h);
        ReplacedBuilds(t, h, Stray);
      } else {
        SubmitClosePlaces(t, h);
        ReplacedBuilds(t, h, ClosePending(s.nextOp));
        SubmitBuilds(t.(places := s.places[h := ClosePending(s.nextOp)]), Close(h));
        SubmitWork(t, Close(h));
      }
      var u := CloseLate(s, op);
      assert DeviceInv(u) && LockOk(u) && WorkInv(u) && JobsInv(u);
    case _ =>
      LateFailed(s, op);
  }

  lemma LateFailed(s: State, op: OpId)
    requires PlacesInv(s) && op in s.late && op in s.results && !s.results[op].Built?
    ensures PlacesInv(s.(late := s.late - {op}))
  {
    forall k | 0 <= k < |s.places|
      ensures PlaceStands(s.printer, s.lock, s.late - {op}, s.device, s.results, k, s.places[k])
    {
      assert PlaceStands(s.printer, s.lock, s.late, s.device, s.results, k, s.places[k]);
    }
  }

  lemma TakeJobs(queue: seq<JobId>, orphan: Option<Orphan>, jobs: seq<Job>, worker: Worker)
    requires JobsOk(queue, Idle, orphan, jobs) && orphan.None? && queue != []
    requires Holds(worker) && worker.job == queue[0]
    ensures JobsOk(queue[1..], worker, orphan, jobs)
  {
    assert queue == [queue[0]] + queue[1..];
    assert forall j :: Active(queue, Idle, orphan, j) <==> Active(queue[1..], worker, orphan, j);
  }

  lemma TakeKeeps(s: State)
    requires Inv(s) && Enabled(s, DoTake)
    ensures Inv(Take(s))
  {
    var t := Take(s);
    TakeJobs(s.queue, s.orphan, s.jobs, t.worker);
    if !s.spooler {
      SubmitPlaces(s, Status);
      SubmitBuilds(s, Status);
      SubmitWork(s, Status);
      assert Item(s.nextOp, Status) in t.device;
    }
    assert WorkInv(t) && LockOk(t);
  }

  lemma CheckedKeeps(s: State)
    requires Inv(s) && Enabled(s, DoChecked)
    ensures Inv(Checked(s))
  {
    if s.results[s.worker.op] == Answered(true) {
      RewordedJobs(s, Rendering(s.worker.job, s.worker.h));
    } else {
      FailJobKeeps(s);
    }
  }

  /** The worker lets go of a job that has come to its end. */
  lemma JobEnds(s: State, worker: Worker, job: Job)
    requires JobsInv(s) && Holds(s.worker) && !Holds(worker) && s.orphan.None? && Settled(job)
    ensures JobsOk(s.queue, worker, s.orphan, s.jobs[s.worker.job := job])
  {
    var j := s.worker.job;
    var jobs := s.jobs[j := job];
    forall k | 0 <= k < |jobs| && !Active(s.queue, worker, s.orphan, k)
      ensures Settled(jobs[k])
    {
      assert k != j ==> !Active(s.queue, s.worker, s.orphan, k);
    }
  }

  lemma FailJobKeeps(s: State)
    requires Inv(s) && Holds(s.worker) && !s.cancelling && s.jobs[s.worker.job].paper != Whole
    requires WritesOwned(Idle, s.orphan, s.device)
    ensures Inv(FailJob(s, s.worker.job))
  {
    var j := s.worker.job;
    JobEnds(s, Idle, Finish(s.jobs[j], RowFailed, ToldError));
  }

  lemma SubmitWrite(s: State)
    requires WorkInv(s) && s.worker.Rendering? && s.orphan.None?
    ensures var w := s.worker;
            WorkInv(Submit(s, Write(w.h, w.job)).(worker := Writing(w.job, w.h, s.nextOp)))
  {
    var w := s.worker;
    var t := Submit(s, Write(w.h, w.job));
    assert Item(s.nextOp, Write(w.h, w.job)) in t.device;
  }

  lemma RenderedKeeps(s: State, sound: bool)
    requires Inv(s) && Enabled(s, DoRendered(sound))
    ensures Inv(Rendered(s, sound))
  {
    if sound {
      var op := Write(s.worker.h, s.worker.job);
      SubmitPlaces(s, op);
      SubmitBuilds(s, op);
      SubmitWrite(s);
      RewordedJobs(s, Writing(s.worker.job, s.worker.h, s.nextOp));
    } else {
      FailJobKeeps(s);
    }
  }

  lemma RewordedJobs(s: State, worker: Worker)
    requires JobsInv(s) && Holds(s.worker) && Holds(worker) && worker.job == s.worker.job
    ensures JobsOk(s.queue, worker, s.orphan, s.jobs)
  {
    assert forall k :: Active(s.queue, worker, s.orphan, k) <==> Active(s.queue, s.worker, s.orphan, k);
  }

  lemma FailQueuedKeeps(s: State)
    requires JobsInv(s) && !Holds(s.worker) && OrphanStands(s.orphan, s.device, s.results, s.delivered, s.jobs)
    ensures var t := FailQueued(s);
            && JobsInv(t)
            && OrphanStands(t.orphan, t.device, t.results, t.delivered, t.jobs)
  {
    DrainedEffect(s.queue, s.jobs);
    var t := FailQueued(s);
    forall j | 0 <= j < |t.jobs| && !Active([], s.worker, s.orphan, j)
      ensures Settled(t.jobs[j])
    {
      if j !in s.queue {
        assert !Active(s.queue, s.worker, s.orphan, j);
      }
    }
  }

  /** The installed handle is taken out; every other place stands as it did. */
  lemma Uninstall(s: State, lock: Lock)
    requires PlacesInv(s) && !s.lock.Connecting? && !lock.Connecting?
    ensures forall k :: 0 <= k < |s.places| && Some(k) != s.printer ==>
              PlaceStands(None, lock, s.late, s.device, s.results, k, s.places[k])
  {
    forall k | 0 <= k < |s.places| && Some(k) != s.printer
      ensures PlaceStands(None, lock, s.late, s.device, s.results, k, s.places[k])
    {
      assert PlaceStands(s.printer, s.lock, s.late, s.device, s.results, k, s.places[k]);
    }
  }

  lemma RelockBuilds(s: State, lock: Lock)
    requires BuildsInv(s) && !s.lock.Connecting? && !lock.Connecting?
    ensures BuildsInv(s.(lock := lock))
  {
    assert forall op :: Expected(lock, s.late, op) <==> Expected(s.lock, s.late, op);
  }

  /** Taking the installed handle out and putting its close at the end of the thread's list. */
  lemma Surrender(s: State, lock: Lock)
    requires DeviceInv(s) && PlacesInv(s) && ItemsInv(s) && BuildsInv(s) && s.printer.Some?
    requires !s.lock.Connecting? && !lock.Connecting?
    ensures s.printer.value < |s.places|
    ensures var t := SubmitClose(s.(printer := None, lock := lock), s.printer.value);
            DeviceInv(t) && PlacesInv(t) && ItemsInv(t) && BuildsInv(t)
  {
    var h := s.printer.value;
    var t := s.(printer := None, lock := lock);
    Uninstall(s, lock);
    SubmitClosePlaces(t, h);
    RelockBuilds(s, lock);
    ReplacedBuilds(t, h, ClosePending(s.nextOp));
    SubmitBuilds(t.(places := s.places[h := ClosePending(s.nextOp)]), Close(h));
  }

  lemma ConnectionLostKeeps(s: State)
    requires Inv(s) && Enabled(s, DoWritten) && s.results[s.worker.op].Failed?
    ensures Inv(ConnectionLost(s, s.worker.job))
  {
    var j := s.worker.job;
    var u := Lost(s);
    LostHandles(s);
    LostJobs(s);
    FailQueuedKeeps(u);
    var v := ConnectionLost(s, j);
    assert v == FailQueued(u);
    assert DeviceInv(v) && PlacesInv(v) && ItemsInv(v) && BuildsInv(v);
  }

  /** The OSError branch up to the draining of the queue. */
  function Lost(s: State): State
    requires s.worker.Writing? && s.printer.Some? && s.printer.value < |s.places|
  {
    var t := EndJob(s, s.worker.job, RowFailed, ToldError).(inFlight := false, worker := Dead, printer := None);
    SubmitClose(t, s.printer.value)
  }

  lemma LostHandles(s: State)
    requires DeviceInv(s) && PlacesInv(s) && ItemsInv(s) && BuildsInv(s) && LockOk(s) && s.worker.Writing?
    ensures s.printer.Some? && s.printer.value < |s.places|
    ensures var u := Lost(s); DeviceInv(u) && PlacesInv(u) && ItemsInv(u) && BuildsInv(u)
  {
    Surrender(s, s.lock);
    var u := SubmitClose(s.(printer := None), s.printer.value);
    assert Lost(s) == u.(jobs := Lost(s).jobs, inFlight := false, worker := Dead);
  }

  lemma LostJobs(s: State)
    requires DeviceInv(s) && WorkInv(s) && JobsInv(s) && LockOk(s) && PlacesInv(s)
    requires Enabled(s, DoWritten) && s.results[s.worker.op].Failed?
    ensures s.printer.Some? && s.printer.value < |s.places|
    ensures var u := Lost(s); JobsInv(u) && WorkInv(u)
  {
    JobEnds(s, Dead, Finish(s.jobs[s.worker.job], RowFailed, ToldError));
    WritesGone(s);
  }

  /** The worker's own write has a result, so no write waits in the thread. */
  lemma WritesGone(s: State)
    requires DeviceInv(s) && WorkInv(s) && s.worker.Writing? && s.worker.op in s.results && s.orphan.None?
    ensures forall worker :: WritesOwned(worker, s.orphan, s.device)
  {
  }

  lemma WrittenKeeps(s: State)
    requires Inv(s) && Enabled(s, DoWritten)
    ensures Inv(Written(s))
  {
    var j := s.worker.job;
    WritesGone(s);
    if s.results[s.worker.op] == Failed(true) {
      ConnectionLostKeeps(s);
    } else if s.results[s.worker.op].Failed? {
      FailJobKeeps(s);
    } else {
      JobEnds(s, Idle, Finish(s.jobs[j], RowOk, ToldOk));
    }
  }

  lemma CancelledKeeps(s: State)
    requires Inv(s) && Enabled(s, DoCancelled)
    ensures Inv(Cancelled(s))
  {
    CancelledJobs(s);
    var t := Cancelled(s);
    assert DeviceInv(t) && PlacesInv(t) && ItemsInv(t) && BuildsInv(t);
  }

  lemma CancelledJobs(s: State)
    requires DeviceInv(s) && WorkInv(s) && JobsInv(s) && LockOk(s) && Enabled(s, DoCancelled)
    ensures var t := Cancelled(s); JobsInv(t) && WorkInv(t) && LockOk(t)
  {
    var t := Cancelled(s);
    if s.worker.Checking? || s.worker.Rendering? {
      JobEnds(s, Dead, Finish(s.jobs[s.worker.job], RowCancelled, ToldError));
    } else if s.worker.Writing? {
      assert forall j :: Active(s.queue, t.worker, t.orphan, j) <==> Active(s.queue, s.worker, s.orphan, j);
    }
  }

  lemma OrphanEndsKeeps(s: State)
    requires Inv(s) && Enabled(s, DoOrphanEnds)
    ensures Inv(OrphanEnds(s))
  {
  }

  lemma DisconnectBeginsKeeps(s: State)
    requires Inv(s) && Enabled(s, DoDisconnectBegins)
    ensures Inv(DisconnectBegins(s))
  {
  }

  lemma DisconnectEndsKeeps(s: State)
    requires Inv(s) && Enabled(s, DoDisconnectEnds)
    ensures Inv(DisconnectEnds(s))
  {
    GivenUpJobs(s);
    GivenUpHandles(s);
    assert LockOk(DisconnectEnds(s));
  }

  lemma GivenUpJobs(s: State)
    requires DeviceInv(s) && WorkInv(s) && JobsInv(s) && s.worker.Dead?
    ensures JobsInv(DisconnectEnds(s)) && WorkInv(DisconnectEnds(s))
  {
    DrainedWork(s);
    GiveUpWork(FailQueued(s).(printer := None), s.printer);
  }

  /** Giving up touches nothing of the jobs and at most adds a close to the thread's list. */
  lemma GiveUpLeaves(t: State, printer: Option<Handle>)
    ensures var u := GiveUp(t, printer);
            && u.queue == t.queue && u.worker == t.worker && u.printer == t.printer && u.orphan == t.orphan
            && u.jobs == t.jobs && u.results == t.results && u.delivered == t.delivered
            && (u.device == t.device || (printer.Some? && u.device == t.device + [Item(t.nextOp, Close(printer.value))]))
  {
  }

  lemma GiveUpWork(t: State, printer: Option<Handle>)
    requires JobsInv(t) && WorkInv(t)
    ensures JobsInv(GiveUp(t, printer)) && WorkInv(GiveUp(t, printer))
  {
    GiveUpLeaves(t, printer);
    if printer.Some? {
      OneMoreItem(t.worker, t.printer, t.orphan, t.device, t.results, t.delivered, t.jobs, Item(t.nextOp, Close(printer.value)));
    }
  }

  lemma OneMoreItem(
    worker: Worker, printer: Option<Handle>, orphan: Option<Orphan>, device: seq<Item>, results: Results,
    delivered: set<OpId>, jobs: seq<Job>, item: Item)
    requires WorkerStands(worker, printer, device, results, jobs) && OrphanStands(orphan, device, results, delivered, jobs)
    requires WritesOwned(worker, orphan, device) && !item.op.Write?
    ensures var longer := device + [item];
            && WorkerStands(worker, printer, longer, results, jobs) && OrphanStands(orphan, longer, results, delivered, jobs)
            && WritesOwned(worker, orphan, longer)
  {
    assert forall other :: other in device ==> other in device + [item];
  }

  lemma DrainedWork(s: State)
    requires DeviceInv(s) && WorkInv(s) && JobsInv(s) && s.worker.Dead?
    ensures var t := FailQueued(s).(printer := None); JobsInv(t) && WorkInv(t)
  {
    FailQueuedKeeps(s);
  }

  lemma GivenUpHandles(s: State)
    requires DeviceInv(s) && PlacesInv(s) && ItemsInv(s) && BuildsInv(s) && s.lock.AwaitingWorker?
    ensures var u := DisconnectEnds(s); DeviceInv(u) && PlacesInv(u) && ItemsInv(u) && BuildsInv(u)
  {
    var t, u := FailQueued(s), DisconnectEnds(s);
    if s.printer.Some? {
      Surrender(t, Closing(s.nextOp));
      assert u == SubmitClose(t.(printer := None, lock := Closing(s.nextOp)), s.printer.value);
    } else {
      RelockBuilds(t, Free);
      Uninstall(t, Free);
    }
  }

  lemma CloseWaitEndsKeeps(s: State)
    requires Inv(s) && Enabled(s, DoCloseWaitEnds)
    ensures Inv(StopWaitingForClose(s))
  {
  }
}
