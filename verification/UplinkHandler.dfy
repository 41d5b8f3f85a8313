/** `SocketIOLogHandler` over the client it hands its lines to: a bounded deque, a counter
    and a flush, each method tied to the steps of the ledger it takes. */
module UplinkHandler {
  import opened Options
  import opened UplinkLedger

  /** What announcing comes to when nobody counts meanwhile: a client that does not take the
      notice, or does not get it through, loses it. */
  function AfterSay(s: State, onLoop: bool, arrives: bool): State {
    if s.deferred == 0 || !s.connected then s
    else if Takes(s, onLoop) && arrives then s.(deferred := 0, told := s.told + s.deferred)
    else s.(deferred := 0, lost := s.lost + s.deferred)
  }

  /** What a flush that nobody interrupts comes to. */
  function AfterFlush(s: State, onLoop: bool, arrives: bool): State {
    if !s.connected || (!Takes(s, onLoop) && s.buffer != []) then s else AfterSay(Flushed(s), onLoop, arrives)
  }

  /** What one call of `emit` that nobody interrupts comes to. */
  function AfterEmit(s: State, onLoop: bool): State {
    if !s.connected then Push(s, s.next).(next := s.next + 1)
    else if Takes(s, onLoop) then s.(inFlight := s.inFlight + multiset{s.next}, next := s.next + 1)
    else Push(s, s.next).(next := s.next + 1, deferred := s.deferred + 1, refusals := s.refusals + 1)
  }

  /** All are runs of the ledger, so that whatever holds over its runs holds of them. */
  lemma SayIsARun(s: State, onLoop: bool, arrives: bool) returns (steps: seq<Step>)
    requires s.hand.None? && s.saying.None? && s.notice.None?
    ensures CanRun(s, steps) && Run(s, steps) == AfterSay(s, onLoop, arrives)
  {
    if s.deferred == 0 || !s.connected {
      steps := [];
    } else {
      var read := Apply(s, SaysReads);
      var stored := Apply(read, SaysStores);
      var last := Announces(onLoop, Takes(s, onLoop) && arrives);
      RunFirst(stored, last, []);
      RunFirst(read, SaysStores, [last] + []);
      RunFirst(s, SaysReads, [SaysStores] + ([last] + []));
      steps := [SaysReads] + ([SaysStores] + ([last] + []));
    }
  }

  lemma FlushIsARun(s: State, onLoop: bool, arrives: bool) returns (steps: seq<Step>)
    requires s.hand.None? && s.saying.None? && s.notice.None?
    ensures CanRun(s, steps) && Run(s, steps) == AfterFlush(s, onLoop, arrives)
  {
    if !s.connected || (!Takes(s, onLoop) && s.buffer != []) {
      steps := [];
    } else {
      var say := SayIsARun(Flushed(s), onLoop, arrives);
      if Takes(s, onLoop) {
        FlushDrains(s, onLoop);
        RunAppend(s, FlushSteps(|s.buffer|, onLoop), say);
        steps := FlushSteps(|s.buffer|, onLoop) + say;
      } else {
        assert s.inFlight + multiset(s.buffer) == s.inFlight;
        steps := say;
      }
    }
  }

  /** There is always a thread that is not counting. */
  lemma {:induction false} AnotherThread(threads: set<Thread>) returns (t: Thread)
    ensures forall u :: u in threads ==> u < t
  {
    t := 0;
    if threads != {} {
      var u :| u in threads;
      var above := AnotherThread(threads - {u});
      t := if u < above then above else u + 1;
      assert forall v :: v in threads ==> v == u || v in threads - {u};
    }
  }

  lemma CountIsARun(s: State) returns (steps: seq<Step>)
    requires s.uncounted > 0
    ensures CanRun(s, steps) && Run(s, steps) == s.(uncounted := s.uncounted - 1, deferred := s.deferred + 1)
  {
    var t := AnotherThread(s.counting.Keys);
    var read := Apply(s, ReadsCount(t));
    assert read.counting - {t} == s.counting;
    RunFirst(read, WritesCount(t), []);
    RunFirst(s, ReadsCount(t), [WritesCount(t)] + []);
    steps := [ReadsCount(t)] + ([WritesCount(t)] + []);
  }

  lemma RefusedOnce(s: State)
    requires s.connected && !s.loopRuns
    ensures var seen := Apply(s, LogsWhileUp);
            && Enabled(seen, IsRefused(s.next, false))
            && Apply(seen, IsRefused(s.next, false)) == AfterEmit(s, false).(uncounted := s.uncounted + 1, deferred := s.deferred)
  {
    assert (s.held + multiset{s.next}) - multiset{s.next} == s.held;
  }

  /** A refused line is handed in, refused and counted. */
  lemma RefusalIsARun(s: State) returns (steps: seq<Step>)
    requires s.connected && !s.loopRuns
    ensures CanRun(s, steps) && Run(s, steps) == AfterEmit(s, false)
  {
    RefusedOnce(s);
    var seen := Apply(s, LogsWhileUp);
    var count := CountIsARun(Apply(seen, IsRefused(s.next, false)));
    RunFirst(seen, IsRefused(s.next, false), count);
    RunFirst(s, LogsWhileUp, [IsRefused(s.next, false)] + count);
    steps := [LogsWhileUp] + ([IsRefused(s.next, false)] + count);
  }

  lemma EmitIsARun(s: State, onLoop: bool) returns (steps: seq<Step>)
    ensures CanRun(s, steps) && Run(s, steps) == AfterEmit(s, onLoop)
  {
    if !s.connected {
      RunFirst(s, LogsWhileDown, []);
      steps := [LogsWhileDown] + [];
    } else if Takes(s, onLoop) {
      var seen, last := Apply(s, LogsWhileUp), HandsOver(s.next, onLoop);
      assert seen.held - multiset{s.next} == s.held;
      RunFirst(seen, last, []);
      RunFirst(s, LogsWhileUp, [last] + []);
      steps := [LogsWhileUp] + ([last] + []);
    } else {
      steps := RefusalIsARun(s);
    }
  }

  lemma OneHanded(buffer: seq<Line>, inFlight: multiset<Line>, taken: seq<Line>)
    requires buffer != []
    ensures [buffer[0]] + buffer[1..] == buffer
    ensures inFlight + multiset{buffer[0]} + multiset(buffer[1..]) == inFlight + multiset(buffer)
    ensures taken + [buffer[0]] + buffer[1..] == taken + buffer
  {
    assert [buffer[0]] + buffer[1..] == buffer;
  }

  class Handler {
    const limit: nat
    var buffer: seq<Line>
    var deferred: nat
    // the client and the network behind it
    var connected: bool
    var loopRuns: bool
    var inFlight: multiset<Line>
    var delivered: multiset<Line>
    // the lines the client took, in their order
    var taken: seq<Line>
    // what became of each line, and how many there were
    var evicted: multiset<Line>
    var next: Line
    var refusals: nat
    var told: nat
    var lost: nat

    function View(): State
      reads this
    {
      State(limit, buffer, deferred, multiset{}, None, inFlight, delivered, evicted, connected, loopRuns, next,
            refusals, 0, map[], None, None, told, lost)
    }

    constructor (limit: nat)
      ensures View() == Initial(limit) && taken == []
    {
      this.limit, taken := limit, [];
      buffer, deferred, connected, loopRuns := [], 0, false, false;
      inFlight, delivered, evicted, next, refusals, told, lost := multiset{}, multiset{}, multiset{}, 0, 0, 0, 0;
    }

    /** `deque.append`. */
    method PushLine(line: Line)
      requires |buffer| <= limit
      modifies `buffer, `evicted
      ensures var p := Append(old(buffer), line, limit); buffer == p.buffer && evicted == old(evicted) + multiset(p.evicted)
      ensures |buffer| <= limit
    {
      PushesLoseNothing(buffer, line, limit);
      if limit == 0 {
        evicted := evicted + multiset([line]);
      } else if |buffer| == limit {
        evicted := evicted + multiset([buffer[0]]);
        buffer := buffer[1..] + [line];
      } else {
        buffer := buffer + [line];
        assert evicted + multiset([]) == evicted;
      }
    }

    /** Whether `_spawn_emit` finds a loop: the one it runs on, or the one of the uplink. */
    function Loop(onLoop: bool): bool
      reads `loopRuns
    {
      onLoop || loopRuns
    }

    /** `LogUplinkClient.emit`; false where it has no loop to hand the line to. */
    method ClientEmit(line: Line, onLoop: bool) returns (took: bool)
      modifies `inFlight, `taken
      ensures took == Takes(View(), onLoop)
      ensures inFlight == if took then old(inFlight) + multiset{line} else old(inFlight)
      ensures taken == if took then old(taken) + [line] else old(taken)
    {
      if !connected || !Loop(onLoop) {
        return false;
      }
      inFlight := inFlight + multiset{line};
      taken := taken + [line];
      return true;
    }

    /** The branch of `emit` for a line the client had no loop for. */
    method KeepForLater(line: Line)
      requires |buffer| <= limit
      modifies `buffer, `deferred, `evicted, `refusals
      ensures View() == Push(old(View()), line).(deferred := old(deferred) + 1, refusals := old(refusals) + 1)
      ensures |buffer| <= limit
    {
      PushLine(line);
      deferred, refusals := deferred + 1, refusals + 1;
    }

    method EmitConnected(line: Line, onLoop: bool)
      requires connected && |buffer| <= limit
      modifies `buffer, `deferred, `inFlight, `taken, `evicted, `refusals
      ensures taken == if Loop(onLoop) then old(taken) + [line] else old(taken)
      ensures Loop(onLoop) ==> View() == old(View()).(inFlight := old(inFlight) + multiset{line})
      ensures !Loop(onLoop) ==> View() == Push(old(View()), line).(deferred := old(deferred) + 1, refusals := old(refusals) + 1)
      ensures |buffer| <= limit
    {
      var handed := ClientEmit(line, onLoop);
      if !handed {
        KeepForLater(line);
      }
    }

    method EmitDisconnected(line: Line)
      requires !connected && |buffer| <= limit
      modifies `buffer, `evicted
      ensures View() == Push(old(View()), line) && |buffer| <= limit
    {
      PushLine(line);
    }

    /** `emit`; `line` is the number of the call. */
    method Emit(line: Line, onLoop: bool)
      requires line == next && |buffer| <= limit
      modifies `buffer, `deferred, `inFlight, `taken, `evicted, `next, `refusals
      ensures taken == if old(connected) && Loop(onLoop) then old(taken) + [line] else old(taken)
      ensures next == line + 1 && |buffer| <= limit
      ensures View().(next := line) == AfterEmit(old(View()), onLoop).(next := line)
    {
      if connected {
        EmitConnected(line, onLoop);
      } else {
        EmitDisconnected(line);
      }
      next := next + 1;
    }

    /** `_requeue_payload`, called when a send fails. */
    method RequeuePayload(line: Line)
      requires line in inFlight && |buffer| <= limit
      modifies `buffer, `inFlight, `evicted
      ensures View() == Push(old(View()).(inFlight := old(inFlight) - multiset{line}), line) && |buffer| <= limit
    {
      inFlight := inFlight - multiset{line};
      PushLine(line);
    }

    /** `_say_deferred`; the answer of the client, and whether the notice arrives, change
        nothing here. */
    method SayDeferred(onLoop: bool, arrives: bool)
      modifies `deferred, `told, `lost
      ensures View() == AfterSay(old(View()), onLoop, arrives)
    {
      if deferred == 0 || !connected {
        return;
      }
      var count := deferred;
      deferred := 0;
      if Loop(onLoop) && arrives {
        told := told + count;
      } else {
        lost := lost + count;
      }
    }

    /** The loop of `flush_buffer`; false where it returns from within. What the client takes it
        takes oldest first. */
    method HandOverBuffer(onLoop: bool) returns (finished: bool)
      requires |buffer| <= limit
      modifies `buffer, `inFlight, `taken
      ensures taken == old(taken) + if connected && Loop(onLoop) then old(buffer) else []
      ensures finished == (!connected || Loop(onLoop) || old(buffer) == [])
      ensures View() == if Takes(old(View()), onLoop) then Flushed(old(View())) else old(View())
    {
      while buffer != [] && connected
        invariant |buffer| <= limit
        invariant inFlight + multiset(buffer) == old(inFlight) + multiset(old(buffer))
        invariant taken + buffer == old(taken) + old(buffer)
        invariant !Takes(View(), onLoop) ==> buffer == old(buffer) && inFlight == old(inFlight) && taken == old(taken)
        decreases |buffer|
      {
        OneHanded(buffer, inFlight, taken);
        var item := buffer[0];
        buffer := buffer[1..];
        var handed := ClientEmit(item, onLoop);
        if !handed {
          buffer := [item] + buffer;
          return false;
        }
      }
      return true;
    }

    /** `flush_buffer`: it comes to an end, and either hands everything over or leaves
        everything as it was. */
    method FlushBuffer(onLoop: bool, arrives: bool)
      requires |buffer| <= limit
      modifies `buffer, `deferred, `inFlight, `taken, `told, `lost
      ensures View() == AfterFlush(old(View()), onLoop, arrives) && |buffer| <= limit
      ensures taken == old(taken) + if connected && Loop(onLoop) then old(buffer) else []
    {
      assert inFlight + multiset([]) == inFlight;
      var finished := HandOverBuffer(onLoop);
      if finished {
        SayDeferred(onLoop, arrives);
      }
    }
  }
}
