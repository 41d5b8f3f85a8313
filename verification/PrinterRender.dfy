/** Rendering on the printer machine: what each handle's shim holds back, the pages and the
    bytes collected for the job at hand, and the reset on every way out of a rendering. */
module PrinterRender {
  import opened Options
  import opened PrinterMachine
  import opened PrinterInvariant
  import opened PrinterRuns
  import opened PrinterTheorems
  import TextShim

  /** What the closure installed on a handle keeps between calls. */
  datatype Shim = Shim(buffer: seq<string>, style: TextShim.Style)

  const CLEAN := Shim([], TextShim.DEFAULT_STYLE)

  /** What a write was submitted with: its job, the calls that job made, and what goes out. */
  datatype Sent = Sent(job: JobId, calls: seq<TextShim.Call>, content: seq<TextShim.Output>)

  /** The shims by handle, the pages a label printer's job has collected, the output of any
      other; `broken` after a call that raised. */
  datatype Desk = Desk(
    tspl: bool,
    shims: map<Handle, Shim>,
    pages: seq<TextShim.Output>,
    chunks: seq<TextShim.Output>,
    calls: seq<TextShim.Call>,
    broken: bool,
    sent: map<OpId, Sent>)

  datatype Printing = Printing(device: State, desk: Desk)

  function InitialDesk(tspl: bool): Desk {
    Desk(tspl, map[], [], [], [], false, map[])
  }

  /** A handle nobody has rendered on has no shim yet; it will get a fresh one. */
  function ShimOf(shims: map<Handle, Shim>, h: Handle): Shim {
    if h in shims then shims[h] else CLEAN
  }

  function Collected(d: Desk): seq<TextShim.Output> {
    if d.tspl then d.pages else d.chunks
  }

  /** `_buffered` opens: only the chunks start over. */
  function Opened(d: Desk): Desk {
    d.(chunks := [], calls := [], broken := false)
  }

  /** One call of the job on the shim of handle `h`. */
  function Called(d: Desk, h: Handle, call: TextShim.Call): Desk {
    var shim := ShimOf(d.shims, h);
    var t := TextShim.Do(TextShim.State(shim.buffer, shim.style, Collected(d)), call, d.tspl);
    d.(shims := d.shims[h := Shim(t.buffer, t.style)],
       pages := if d.tspl then t.out else d.pages,
       chunks := if d.tspl then d.chunks else t.out,
       calls := d.calls + [call])
  }

  /** A call that raises leaves the shim it works on, and what it collects in, in any state. */
  function Spoilt(d: Desk, h: Handle, shim: Shim, out: seq<TextShim.Output>): Desk {
    d.(shims := d.shims[h := shim],
       pages := if d.tspl then out else d.pages,
       chunks := if d.tspl then d.chunks else out,
       broken := true)
  }

  /** `_reset_render_state`: the pages, and the shim of the handle that is installed now. */
  function Reset(d: Desk, printer: Option<Handle>): Desk {
    d.(pages := [], shims := if printer.Some? then d.shims[printer.value := CLEAN] else d.shims)
  }

  /** The pages or the chunks go to the device thread with the write. */
  function Handed(d: Desk, op: OpId, j: JobId): Desk {
    d.(sent := d.sent[op := Sent(j, d.calls, Collected(d))])
  }

  /** What a step of the machine does to the desk. */
  function DeskAfter(d: Desk, s: State, step: Step): Desk
    requires Enabled(s, step)
  {
    match step
    case DoTake => if Take(s).worker.Rendering? then Opened(d) else d
    case DoChecked => if Checked(s).worker.Rendering? then Opened(d) else d
    case DoRendered(sound) =>
      Reset(if sound then Handed(d, s.nextOp, s.worker.job) else d, s.printer)
    case DoCancelled => if s.worker.Rendering? then Reset(d, s.printer) else d
    case _ => d
  }

  datatype Act =
    | Machine(step: Step)
    | Calls(call: TextShim.Call)
    | Raises(shim: Shim, out: seq<TextShim.Output>)

  predicate AtWork(p: Printing) {
    p.device.worker.Rendering? && !p.device.cancelling && !p.desk.broken
  }

  /** After a call that raised the job can only fail. */
  predicate CanAct(p: Printing, act: Act) {
    match act
    case Machine(step) => Enabled(p.device, step) && (step == DoRendered(true) ==> !p.desk.broken)
    case Calls(call) => AtWork(p)
    case Raises(shim, out) => AtWork(p)
  }

  function Acted(p: Printing, act: Act): Printing
    requires CanAct(p, act)
  {
    match act
    case Machine(step) => Printing(Apply(p.device, step), DeskAfter(p.desk, p.device, step))
    case Calls(call) => p.(desk := Called(p.desk, p.device.worker.h, call))
    case Raises(shim, out) => p.(desk := Spoilt(p.desk, p.device.worker.h, shim, out))
  }

  predicate CanActAll(p: Printing, acts: seq<Act>)
    decreases |acts|
  {
    acts == [] || (CanAct(p, acts[0]) && CanActAll(Acted(p, acts[0]), acts[1..]))
  }

  function ActedAll(p: Printing, acts: seq<Act>): Printing
    requires CanActAll(p, acts)
    decreases |acts|
  {
    if acts == [] then p else ActedAll(Acted(p, acts[0]), acts[1..])
  }

  // ----- what always holds ---------------------------------------------------------------

  ghost predicate ShimsClean(shims: map<Handle, Shim>, worker: Worker) {
    forall h :: h in shims && !(worker.Rendering? && worker.h == h) ==> shims[h] == CLEAN
  }

  /** The shim, and what it has put out, are those of a fresh one that was given the calls
      of the job at hand. */
  ghost predicate Faithful(d: Desk, h: Handle) {
    var shim := ShimOf(d.shims, h);
    TextShim.State(shim.buffer, shim.style, Collected(d)) == TextShim.DoAll(TextShim.FRESH, d.calls, d.tspl)
  }

  ghost predicate SentOk(d: Desk, device: seq<Item>, nextOp: OpId) {
    && (forall op :: op in d.sent ==> op < nextOp && d.sent[op].content == TextShim.Job(d.sent[op].calls, d.tspl))
    && (forall i :: 0 <= i < |device| && device[i].op.Write? ==>
          device[i].id in d.sent && d.sent[device[i].id].job == device[i].op.job)
  }

  ghost predicate DeskOk(d: Desk, worker: Worker) {
    && ShimsClean(d.shims, worker)
    && (!worker.Rendering? ==> d.pages == [])
    && (worker.Rendering? && !d.broken ==> Faithful(d, worker.h))
    && (!d.tspl ==> d.pages == [])
  }

  ghost predicate PrintingInv(p: Printing) {
    && Inv(p.device)
    && DeskOk(p.desk, p.device.worker)
    && SentOk(p.desk, p.device.device, p.device.nextOp)
  }

  lemma OpenedOk(d: Desk, before: Worker, worker: Worker)
    requires DeskOk(d, before) && !before.Rendering? && worker.Rendering?
    ensures DeskOk(Opened(d), worker)
  {
    assert ShimOf(d.shims, worker.h) == CLEAN;
  }

  /** Every way out of a rendering leaves the desk clean, since the handle that is reset is
      the one the job rendered on. */
  lemma ResetOk(d: Desk, before: Worker, printer: Option<Handle>, worker: Worker)
    requires DeskOk(d, before) && before.Rendering? && printer == Some(before.h) && !worker.Rendering?
    ensures DeskOk(Reset(d, printer), worker)
  {
  }

  lemma CallOk(d: Desk, worker: Worker, call: TextShim.Call)
    requires DeskOk(d, worker) && worker.Rendering? && !d.broken
    ensures DeskOk(Called(d, worker.h, call), worker)
  {
    TextShim.DoAllLast(TextShim.FRESH, d.calls, call, d.tspl);
  }

  lemma HandedOk(d: Desk, worker: Worker, device: seq<Item>, nextOp: OpId)
    requires DeskOk(d, worker) && SentOk(d, device, nextOp) && worker.Rendering? && !d.broken
    ensures DeskOk(Handed(d, nextOp, worker.job), worker)
    ensures SentOk(Handed(d, nextOp, worker.job), device + [Item(nextOp, Write(worker.h, worker.job))], nextOp + 1)
  {
  }

  /** A step other than the sound end of a rendering submits no write. */
  ghost predicate NoNewWrites(s: State, t: State) {
    && s.nextOp <= t.nextOp
    && forall i :: 0 <= i < |t.device| && t.device[i].op.Write? ==> t.device[i] in s.device
  }

  lemma CallsSubmitNoWrite(s: State, step: Step)
    requires Enabled(s, step) && External(step)
    ensures NoNewWrites(s, Apply(s, step))
  {
  }

  lemma WorkerSubmitsNoWrite(s: State, step: Step)
    requires Enabled(s, step) && (step.DoTake? || step.DoChecked? || step == DoRendered(false) || step.DoCancelled?)
    ensures NoNewWrites(s, Apply(s, step))
  {
    if step.DoTake? {
      TakeSubmitsNoWrite(s);
    } else if step.DoCancelled? {
      CancelSubmitsNoWrite(s);
    }
  }

  lemma TakeSubmitsNoWrite(s: State)
    requires Enabled(s, DoTake)
    ensures NoNewWrites(s, Take(s))
  {
  }

  lemma CancelSubmitsNoWrite(s: State)
    ensures NoNewWrites(s, Cancelled(s))
  {
  }

  lemma LossSubmitsNoWrite(s: State, j: JobId)
    ensures NoNewWrites(s, ConnectionLost(s, j))
  {
  }

  lemma WrittenSubmitsNoWrite(s: State)
    requires Enabled(s, DoWritten)
    ensures NoNewWrites(s, Written(s))
  {
    if s.results[s.worker.op] == Failed(true) {
      LossSubmitsNoWrite(s, s.worker.job);
    }
  }

  lemma GivingUpSubmitsNoWrite(s: State)
    ensures NoNewWrites(s, DisconnectEnds(s))
  {
  }

  lemma DisconnectSubmitsNoWrite(s: State, step: Step)
    requires Enabled(s, step) && (step.DoDisconnectBegins? || step.DoDisconnectEnds?)
    ensures NoNewWrites(s, Apply(s, step))
  {
    if step.DoDisconnectBegins? {
      var t := s.(disconnects := s.disconnects - 1);
      GivingUpSubmitsNoWrite(t);
    } else {
      GivingUpSubmitsNoWrite(s);
    }
  }

  lemma OpeningSubmitsNoWrite(s: State, step: Step)
    requires Enabled(s, step)
    requires step.DoRun? || step.DoDeliver? || step.DoCloseStray? || step.DoConnectReturns? || step.DoConnectTimesOut?
          || step.DoCloseLate? || step.DoCloseWaitEnds? || step.DoOrphanEnds?
    ensures NoNewWrites(s, Apply(s, step))
  {
  }

  lemma OnlyRenderingSubmitsWrites(s: State, step: Step)
    requires Enabled(s, step) && step != DoRendered(true)
    ensures NoNewWrites(s, Apply(s, step))
  {
    if External(step) {
      CallsSubmitNoWrite(s, step);
    } else if step.DoTake? || step.DoChecked? || step.DoRendered? || step.DoCancelled? {
      WorkerSubmitsNoWrite(s, step);
    } else if step.DoWritten? {
      WrittenSubmitsNoWrite(s);
    } else if step.DoDisconnectBegins? || step.DoDisconnectEnds? {
      DisconnectSubmitsNoWrite(s, step);
    } else {
      OpeningSubmitsNoWrite(s, step);
    }
  }

  lemma SentStays(d: Desk, e: Desk, s: State, t: State)
    requires SentOk(d, s.device, s.nextOp) && e.sent == d.sent && e.tspl == d.tspl && NoNewWrites(s, t)
    ensures SentOk(e, t.device, t.nextOp)
  {
  }

  lemma StepKeepsSent(p: Printing, step: Step)
    requires PrintingInv(p) && CanAct(p, Machine(step))
    ensures var t := Apply(p.device, step); SentOk(DeskAfter(p.desk, p.device, step), t.device, t.nextOp)
  {
    if step == DoRendered(true) {
      HandedOk(p.desk, p.device.worker, p.device.device, p.device.nextOp);
    } else {
      OnlyRenderingSubmitsWrites(p.device, step);
      SentStays(p.desk, DeskAfter(p.desk, p.device, step), p.device, Apply(p.device, step));
    }
  }

  /** Only four steps have to do with rendering. */
  predicate AboutRendering(step: Step) {
    step.DoTake? || step.DoChecked? || step.DoRendered? || step.DoCancelled?
  }

  lemma WorkerEndsOutside(s: State, step: Step)
    requires Enabled(s, step) && (step.DoWritten? || step.DoOrphanEnds?)
    ensures step.DoWritten? ==> !Apply(s, step).worker.Rendering?
    ensures step.DoOrphanEnds? ==> Apply(s, step).worker == s.worker
  {
  }

  lemma DisconnectKeepsWorker(s: State, step: Step)
    requires Enabled(s, step) && (step.DoDisconnectBegins? || step.DoDisconnectEnds? || step.DoCloseWaitEnds?)
    ensures Apply(s, step).worker == s.worker
  {
  }

  lemma OthersLeaveRendering(s: State, step: Step)
    requires LockOk(s) && Enabled(s, step) && !AboutRendering(step)
    ensures var t := Apply(s, step);
            s.worker == t.worker || (!s.worker.Rendering? && !t.worker.Rendering?)
  {
    if step.DoWritten? || step.DoOrphanEnds? {
      WorkerEndsOutside(s, step);
    } else if step.DoDisconnectBegins? || step.DoDisconnectEnds? || step.DoCloseWaitEnds? {
      DisconnectKeepsWorker(s, step);
    }
  }

  lemma RenderingStepKeepsDesk(p: Printing, step: Step)
    requires PrintingInv(p) && CanAct(p, Machine(step)) && AboutRendering(step)
    ensures DeskOk(DeskAfter(p.desk, p.device, step), Apply(p.device, step).worker)
  {
    var s, t := p.device, Apply(p.device, step);
    if t.worker.Rendering? {
      OpenedOk(p.desk, s.worker, t.worker);
    } else if s.worker.Rendering? {
      ResetOk(p.desk, s.worker, s.printer, t.worker);
    }
  }

  lemma StepKeepsDesk(p: Printing, step: Step)
    requires PrintingInv(p) && CanAct(p, Machine(step))
    ensures DeskOk(DeskAfter(p.desk, p.device, step), Apply(p.device, step).worker)
  {
    if AboutRendering(step) {
      RenderingStepKeepsDesk(p, step);
    } else {
      OthersLeaveRendering(p.device, step);
    }
  }

  lemma ActKeeps(p: Printing, act: Act)
    requires PrintingInv(p) && CanAct(p, act)
    ensures PrintingInv(Acted(p, act))
  {
    match act
    case Machine(step) =>
      StepKeeps(p.device, step);
      StepKeepsDesk(p, step);
      StepKeepsSent(p, step);
    case Calls(call) => CallOk(p.desk, p.device.worker, call);
    case Raises(_, _) =>
  }

  // ----- over whole runs -----------------------------------------------------------------

  lemma {:induction false} ActsKeep(p: Printing, acts: seq<Act>)
    requires PrintingInv(p) && CanActAll(p, acts)
    ensures PrintingInv(ActedAll(p, acts))
    decreases |acts|
  {
    if acts != [] {
      ActKeeps(p, acts[0]);
      ActsKeep(Acted(p, acts[0]), acts[1..]);
    }
  }

  function Start(spooler: bool, tspl: bool): Printing {
    Printing(Initial(spooler), InitialDesk(tspl))
  }

  /** What some run of a fresh device leads to, with any calls made by its jobs. */
  ghost predicate Printable(p: Printing) {
    exists spooler: bool, tspl: bool, acts: seq<Act> ::
      CanActAll(Start(spooler, tspl), acts) && p == ActedAll(Start(spooler, tspl), acts)
  }

  lemma PrintableInv(p: Printing)
    requires Printable(p)
    ensures PrintingInv(p)
  {
    var spooler: bool, tspl: bool, acts: seq<Act> :|
      CanActAll(Start(spooler, tspl), acts) && p == ActedAll(Start(spooler, tspl), acts);
    InitialInv(spooler);
    ActsKeep(Start(spooler, tspl), acts);
  }

  lemma {:induction false} ActedReachable(p: Printing, acts: seq<Act>)
    requires Reachable(p.device) && CanActAll(p, acts)
    ensures Reachable(ActedAll(p, acts).device)
    decreases |acts|
  {
    if acts != [] {
      if acts[0].Machine? {
        ReachableStep(p.device, acts[0].step);
      }
      ActedReachable(Acted(p, acts[0]), acts[1..]);
    }
  }

  /** Rendering adds no state to the machine: what was proved of it holds here. */
  lemma PrintableReachable(p: Printing)
    requires Printable(p)
    ensures Reachable(p.device)
  {
    var spooler: bool, tspl: bool, acts: seq<Act> :|
      CanActAll(Start(spooler, tspl), acts) && p == ActedAll(Start(spooler, tspl), acts);
    assert CanRun(Initial(spooler), []) && Run(Initial(spooler), []) == Initial(spooler);
    ActedReachable(Start(spooler, tspl), acts);
  }

  function MachineActs(steps: seq<Step>): (acts: seq<Act>) {
    seq(|steps|, i requires 0 <= i < |steps| => Machine(steps[i]))
  }

  /** Nor does it take a run away: every run of the machine can be taken here. */
  lemma {:induction false} EveryRunCanBeActed(p: Printing, steps: seq<Step>)
    requires CanRun(p.device, steps) && !p.desk.broken
    ensures CanActAll(p, MachineActs(steps)) && ActedAll(p, MachineActs(steps)).device == Run(p.device, steps)
    decreases |steps|
  {
    if steps != [] {
      assert MachineActs(steps)[1..] == MachineActs(steps[1..]);
      EveryRunCanBeActed(Acted(p, Machine(steps[0])), steps[1..]);
    }
  }

  /** Whatever became of the job before, sound, failed, refused or cancelled, the next one
      finds a fresh shim on the installed handle, and on every other, and no page. */
  lemma NextJobStartsClean(p: Printing, h: Handle)
    requires Printable(p) && !p.device.worker.Rendering?
    ensures ShimOf(p.desk.shims, h) == CLEAN && p.desk.pages == []
  {
    PrintableInv(p);
  }

  lemma BeginsRendering(s: State, step: Step)
    requires LockOk(s) && Enabled(s, step) && !s.worker.Rendering? && Apply(s, step).worker.Rendering?
    ensures (step.DoTake? || step.DoChecked?) && Apply(s, step).printer == s.printer
  {
    if !AboutRendering(step) {
      OthersLeaveRendering(s, step);
    }
  }

  /** Whichever step begins a rendering, the job starts with no call made and nothing
      collected, on the installed handle. */
  lemma RenderingStartsFresh(p: Printing, step: Step)
    requires Printable(p) && CanAct(p, Machine(step))
    requires !p.device.worker.Rendering? && Apply(p.device, step).worker.Rendering?
    ensures var d := Acted(p, Machine(step)).desk; d.calls == [] && !d.broken && Collected(d) == []
    ensures p.device.printer == Some(Apply(p.device, step).worker.h)
  {
    PrintableInv(p);
    StepKeeps(p.device, step);
    BeginsRendering(p.device, step);
  }

  /** Every write in the device thread's list was submitted with what its own job's calls put
      out on a fresh device, no more and no less. */
  lemma EveryWriteIsItsOwnJob(p: Printing, i: nat)
    requires Printable(p) && i < |p.device.device| && p.device.device[i].op.Write?
    ensures var Item(id, op) := p.device.device[i];
            && id in p.desk.sent && p.desk.sent[id].job == op.job
            && p.desk.sent[id].content == TextShim.Job(p.desk.sent[id].calls, p.desk.tspl)
  {
    PrintableInv(p);
  }

  function CallsIn(acts: seq<Act>): seq<TextShim.Call>
    decreases |acts|
  {
    if acts == [] then []
    else (if acts[0].Calls? then [acts[0].call] else []) + CallsIn(acts[1..])
  }

  /** The job goes on being rendered all along, whatever else happens meanwhile. */
  predicate StaysRendering(p: Printing, acts: seq<Act>)
    requires CanActAll(p, acts)
    decreases |acts|
  {
    p.device.worker.Rendering? && (acts == [] || StaysRendering(Acted(p, acts[0]), acts[1..]))
  }

  lemma StepWhileRendering(p: Printing, step: Step)
    requires CanAct(p, Machine(step)) && p.device.worker.Rendering? && LockOk(p.device)
    requires Apply(p.device, step).worker.Rendering?
    ensures Apply(p.device, step).worker == p.device.worker && DeskAfter(p.desk, p.device, step) == p.desk
  {
    if !AboutRendering(step) {
      OthersLeaveRendering(p.device, step);
    }
  }

  lemma ActWhileRendering(p: Printing, act: Act)
    requires CanAct(p, act) && LockOk(p.device) && p.device.worker.Rendering? && Acted(p, act).device.worker.Rendering?
    ensures var q := Acted(p, act);
            && q.device.worker == p.device.worker && q.desk.tspl == p.desk.tspl
            && q.desk.calls == p.desk.calls + (if act.Calls? then [act.call] else [])
  {
    if act.Machine? {
      StepWhileRendering(p, act.step);
      assert p.desk.calls + [] == p.desk.calls;
    }
  }

  lemma CallsInFirst(calls: seq<TextShim.Call>, acts: seq<Act>)
    requires acts != []
    ensures calls + (if acts[0].Calls? then [acts[0].call] else []) + CallsIn(acts[1..]) == calls + CallsIn(acts)
  {
  }

  lemma {:induction false} CallsAreKept(p: Printing, acts: seq<Act>)
    requires PrintingInv(p) && CanActAll(p, acts) && StaysRendering(p, acts)
    ensures var q := ActedAll(p, acts);
            && q.device.worker == p.device.worker
            && q.desk.calls == p.desk.calls + CallsIn(acts) && q.desk.tspl == p.desk.tspl
    decreases |acts|
  {
    if acts != [] {
      ActKeeps(p, acts[0]);
      ActWhileRendering(p, acts[0]);
      CallsInFirst(p.desk.calls, acts);
      CallsAreKept(Acted(p, acts[0]), acts[1..]);
    }
  }

  lemma HandedOver(q: Printing)
    requires PrintingInv(q) && CanAct(q, Machine(DoRendered(true)))
    ensures var t := Acted(q, Machine(DoRendered(true)));
            && Item(q.device.nextOp, Write(q.device.worker.h, q.device.worker.job)) in t.device.device
            && q.device.nextOp in t.desk.sent
            && t.desk.sent[q.device.nextOp] == Sent(q.device.worker.job, q.desk.calls, TextShim.Job(q.desk.calls, q.desk.tspl))
  {
  }

  /** Through any calls from outside and any steps of the device thread, to the step that ends
      the rendering well: the write that is submitted carries what the calls made before and
      since put out on a fresh device. */
  lemma WrittenIsWhatTheJobCalled(p: Printing, acts: seq<Act>)
    requires Printable(p) && CanActAll(p, acts) && StaysRendering(p, acts)
    requires CanAct(ActedAll(p, acts), Machine(DoRendered(true)))
    ensures var q := ActedAll(p, acts);
            var t := Acted(q, Machine(DoRendered(true)));
            var calls := p.desk.calls + CallsIn(acts);
            && Item(q.device.nextOp, Write(p.device.worker.h, p.device.worker.job)) in t.device.device
            && q.device.nextOp in t.desk.sent
            && t.desk.sent[q.device.nextOp] == Sent(p.device.worker.job, calls, TextShim.Job(calls, p.desk.tspl))
  {
    PrintableInv(p);
    CallsAreKept(p, acts);
    ActsKeep(p, acts);
    HandedOver(ActedAll(p, acts));
  }
}
