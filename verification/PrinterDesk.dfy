/** What rendering keeps beside the device: the pages, the closures on the handles, the bytes
    collected for the job at hand. A method for everything that changes them, and one that
    performs any act of a device together with its rendering. */
module PrinterDesk {
  import opened Options
  import opened PrinterMachine
  import opened PrinterInvariant
  import opened PrinterRuns
  import opened PrinterRender
  import opened PrinterDevice
  import TextShim

  class RenderDesk {
    const tspl: bool
    // `_tspl_pages`, the state each handle's closure keeps, the list `_buffered` fills
    var pages: seq<TextShim.Output>
    var shims: map<Handle, Shim>
    var chunks: seq<TextShim.Output>
    // kept for the record: the calls of the job at hand, whether one raised, what was handed over
    var calls: seq<TextShim.Call>
    var broken: bool
    var sent: map<OpId, Sent>

    function View(): Desk
      reads this
    {
      Desk(tspl, shims, pages, chunks, calls, broken, sent)
    }

    constructor (tspl: bool)
      ensures View() == InitialDesk(tspl)
    {
      this.tspl := tspl;
      pages, shims, chunks, calls, broken, sent := [], map[], [], [], false, map[];
    }

    /** `_buffered` opens. */
    method OpenBuffer()
      modifies this
      ensures View() == Opened(old(View()))
    {
      chunks, calls, broken := [], [], false;
    }

    /** The closure of a handle, about to work on what the job has collected. */
    method Closure(shim: Shim) returns (closure: TextShim.Shim)
      ensures fresh(closure) && closure.tspl == tspl
      ensures closure.View() == TextShim.State(shim.buffer, shim.style, if tspl then pages else chunks)
    {
      closure := new TextShim.Shim(tspl);
      closure.buffer, closure.style, closure.out := shim.buffer, shim.style, if tspl then pages else chunks;
    }

    /** `_reset_render_state`: whichever handle is installed now. */
    method ResetRenderState(installed: Option<Handle>)
      modifies this
      ensures View() == Reset(old(View()), installed)
    {
      pages := [];
      if installed.Some? {
        var closure := Closure(ShimOf(shims, installed.value));
        closure.ResetState();
        shims := shims[installed.value := Shim(closure.buffer, closure.style)];
      }
    }

    /** The job calls `text`, `set`, `cut` or `_bh_emit_image` of its handle. */
    method RenderCall(h: Handle, call: TextShim.Call)
      modifies this
      ensures View() == Called(old(View()), h, call)
    {
      var closure := Closure(ShimOf(shims, h));
      match call {
        case Say(text) => closure.Text(text);
        case Restyle(change) => closure.Set(change);
        case CutPaper => closure.CutOff();
        case Show(image) => closure.EmitImage(image);
      }
      shims := shims[h := Shim(closure.buffer, closure.style)];
      if tspl {
        pages := closure.out;
      } else {
        chunks := closure.out;
      }
      calls := calls + [call];
    }

    /** What was collected goes to the device thread. */
    method HandOver(op: OpId, j: JobId)
      modifies this
      ensures View() == Handed(old(View()), op, j)
    {
      sent := sent[op := Sent(j, calls, if tspl then pages else chunks)];
    }

    /** What a step of the device does here: every way out of a rendering, sound, failed or
        cancelled, goes through the reset. */
    method Follow(s: State, step: Step)
      requires Enabled(s, step)
      modifies this
      ensures View() == DeskAfter(old(View()), s, step)
    {
      match step
      case DoTake =>
        if Take(s).worker.Rendering? {
          OpenBuffer();
        }
      case DoChecked =>
        if Checked(s).worker.Rendering? {
          OpenBuffer();
        }
      case DoRendered(sound) =>
        if sound {
          HandOver(s.nextOp, s.worker.job);
        }
        ResetRenderState(s.printer);
      case DoCancelled =>
        if s.worker.Rendering? {
          ResetRenderState(s.printer);
        }
      case _ =>
    }

    /** Any act of a device and its jobs is performed exactly, and keeps the invariant. */
    method Perform(device: Device, act: Act)
      requires var p := Printing(device.View(), View()); PrintingInv(p) && CanAct(p, act)
      modifies this, device
      ensures Printing(device.View(), View()) == Acted(old(Printing(device.View(), View())), act)
      ensures PrintingInv(Printing(device.View(), View()))
    {
      ActKeeps(Printing(device.View(), View()), act);
      match act
      case Machine(step) =>
        Follow(device.View(), step);
        device.Perform(step);
      case Calls(call) => RenderCall(device.worker.h, call);
      case Raises(shim, out) =>
        shims, broken := shims[device.worker.h := shim], true;
        if tspl {
          pages := out;
        } else {
          chunks := out;
        }
    }
  }
}
