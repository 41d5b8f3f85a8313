/** The log uplink as a ledger: where each line handed to the handler is, over every
    interleaving of threads that log, flushes, sends, connects and drops. A line is the
    number of the call that handed it over. */
module UplinkLedger {
  import opened Options

  type Line = nat
  type Thread = nat

  /** A `deque(maxlen=limit)` after a push, and what the push threw out. */
  datatype Pushed = Pushed(buffer: seq<Line>, evicted: seq<Line>)

  /** `append`: a full deque loses its oldest entry. */
  function Append(buffer: seq<Line>, line: Line, limit: nat): Pushed {
    if limit == 0 then Pushed(buffer, [line])
    else if |buffer| >= limit then Pushed(buffer[1..] + [line], [buffer[0]])
    else Pushed(buffer + [line], [])
  }

  /** `appendleft`: a full deque loses its newest entry. */
  function AppendLeft(buffer: seq<Line>, line: Line, limit: nat): Pushed {
    if limit == 0 then Pushed(buffer, [line])
    else if |buffer| >= limit then Pushed([line] + buffer[..|buffer| - 1], [buffer[|buffer| - 1]])
    else Pushed([line] + buffer, [])
  }

  lemma PushesLoseNothing(buffer: seq<Line>, line: Line, limit: nat)
    requires |buffer| <= limit
    ensures var p := Append(buffer, line, limit);
            |p.buffer| <= limit && multiset(p.buffer) + multiset(p.evicted) == multiset(buffer) + multiset{line}
            && (p.evicted != [] ==> |buffer| == limit)
    ensures var p := AppendLeft(buffer, line, limit);
            |p.buffer| <= limit && multiset(p.buffer) + multiset(p.evicted) == multiset(buffer) + multiset{line}
            && (p.evicted != [] ==> |buffer| == limit)
  {
    if |buffer| > 0 {
      var last := |buffer| - 1;
      assert buffer == [buffer[0]] + buffer[1..];
      assert buffer == buffer[..last] + [buffer[last]];
    }
  }

  /** `held` are lines whose thread has seen the connection up and not yet handed them over;
      `hand` is the entry a flush has popped. Counting a refusal is three moves: a thread is
      to count (`uncounted`), has read the counter (`counting`, thread by thread), has
      written it. A flush announces in the same way: it has read the counter (`saying`), has
      set it to nothing and holds the notice (`notice`), has handed the notice over; what the
      notices said arrived (`told`) or did not (`lost`). */
  datatype State = State(
    limit: nat, buffer: seq<Line>, deferred: nat,
    held: multiset<Line>, hand: Option<Line>, inFlight: multiset<Line>,
    delivered: multiset<Line>, evicted: multiset<Line>,
    connected: bool, loopRuns: bool, next: Line, refusals: nat,
    uncounted: nat, counting: map<Thread, nat>, saying: Option<nat>, notice: Option<nat>, told: nat, lost: nat)

  function Initial(limit: nat): State {
    State(limit, [], 0, multiset{}, None, multiset{}, multiset{}, multiset{}, false, false, 0, 0,
          0, map[], None, None, 0, 0)
  }

  /** `onLoop` tells the loop's own thread from any other. */
  datatype Step =
    | LogsWhileDown | LogsWhileUp | HandsOver(line: Line, onLoop: bool) | IsRefused(line: Line, onLoop: bool)
    | ReadsCount(thread: Thread) | WritesCount(thread: Thread)
    | FlushPops | FlushHandsOver(onLoop: bool) | FlushIsRefused(onLoop: bool)
    | SaysReads | SaysStores | Announces(onLoop: bool, arrives: bool) | AnnounceRaises
    | SendEnds(line: Line) | SendFails(line: Line)
    | Connects | Drops | LoopStarts | LoopStops

  /** Whether the client takes a line: connected, and with a loop to send it on, which a call
      from the loop's own thread always has. */
  predicate Takes(s: State, onLoop: bool) {
    s.connected && (onLoop || s.loopRuns)
  }

  predicate Enabled(s: State, step: Step) {
    match step
    case LogsWhileDown => !s.connected
    case LogsWhileUp => s.connected
    case HandsOver(line, onLoop) => line in s.held && Takes(s, onLoop)
    case IsRefused(line, onLoop) => line in s.held && !Takes(s, onLoop)
    case ReadsCount(t) => s.uncounted > 0 && t !in s.counting
    case WritesCount(t) => t in s.counting
    case FlushPops => s.connected && s.hand.None? && s.buffer != []
    case FlushHandsOver(onLoop) => s.hand.Some? && Takes(s, onLoop)
    case FlushIsRefused(onLoop) => s.hand.Some? && !Takes(s, onLoop)
    case SaysReads => s.connected && s.hand.None? && s.saying.None? && s.notice.None? && s.deferred > 0
    case SaysStores => s.saying.Some? && s.notice.None?
    case Announces(onLoop, arrives) => s.notice.Some? && (arrives ==> Takes(s, onLoop))
    case AnnounceRaises => s.notice.Some?
    case SendEnds(line) => line in s.inFlight
    case SendFails(line) => line in s.inFlight
    case Connects => true
    case Drops => true
    case LoopStarts => true
    case LoopStops => true
  }

  function Push(s: State, line: Line): State {
    var p := Append(s.buffer, line, s.limit);
    s.(buffer := p.buffer, evicted := s.evicted + multiset(p.evicted))
  }

  function PutBack(s: State, line: Line): State {
    var p := AppendLeft(s.buffer, line, s.limit);
    s.(buffer := p.buffer, evicted := s.evicted + multiset(p.evicted))
  }

  function Apply(s: State, step: Step): State
    requires Enabled(s, step)
  {
    match step
    case LogsWhileDown => Push(s, s.next).(next := s.next + 1)
    case LogsWhileUp => s.(held := s.held + multiset{s.next}, next := s.next + 1)
    case HandsOver(line, _) => s.(held := s.held - multiset{line}, inFlight := s.inFlight + multiset{line})
    case IsRefused(line, _) =>
      Push(s.(held := s.held - multiset{line}), line).(uncounted := s.uncounted + 1, refusals := s.refusals + 1)
    case ReadsCount(t) => s.(uncounted := s.uncounted - 1, counting := s.counting[t := s.deferred])
    case WritesCount(t) => s.(counting := s.counting - {t}, deferred := s.counting[t] + 1)
    case FlushPops => s.(hand := Some(s.buffer[0]), buffer := s.buffer[1..])
    case FlushHandsOver(_) => s.(hand := None, inFlight := s.inFlight + multiset{s.hand.value})
    case FlushIsRefused(_) => PutBack(s.(hand := None), s.hand.value)
    case SaysReads => s.(saying := Some(s.deferred))
    case SaysStores => s.(saying := None, notice := s.saying, deferred := 0)
    case Announces(_, arrives) =>
      s.(notice := None, told := s.told + (if arrives then s.notice.value else 0),
         lost := s.lost + (if arrives then 0 else s.notice.value))
    case AnnounceRaises => s.(notice := None, deferred := s.notice.value)
    case SendEnds(line) => s.(inFlight := s.inFlight - multiset{line}, delivered := s.delivered + multiset{line})
    case SendFails(line) => Push(s.(inFlight := s.inFlight - multiset{line}), line)
    case Connects => s.(connected := true)
    case Drops => s.(connected := false)
    case LoopStarts => s.(loopRuns := true)
    case LoopStops => s.(loopRuns := false)
  }

  predicate CanRun(s: State, steps: seq<Step>)
    decreases |steps|
  {
    steps == [] || (Enabled(s, steps[0]) && CanRun(Apply(s, steps[0]), steps[1..]))
  }

  function Run(s: State, steps: seq<Step>): State
    requires CanRun(s, steps)
    decreases |steps|
  {
    if steps == [] then s else Run(Apply(s, steps[0]), steps[1..])
  }

  // ----- the ledger -----------------------------------------------------------------

  function InHand(hand: Option<Line>): multiset<Line> {
    if hand.Some? then multiset{hand.value} else multiset{}
  }

  /** In how many places a line is. */
  function Places(s: State, line: Line): nat {
    multiset(s.buffer)[line] + s.held[line] + InHand(s.hand)[line] + s.inFlight[line] + s.delivered[line] + s.evicted[line]
  }

  ghost predicate Balanced(s: State) {
    && (forall line: Line :: Places(s, line) == if line < s.next then 1 else 0)
    && |s.buffer| <= s.limit
  }

  lemma PushPlaces(s: State, pushed: Line, line: Line)
    requires |s.buffer| <= s.limit
    ensures Places(Push(s, pushed), line) == Places(s, line) + (if line == pushed then 1 else 0)
    ensures Places(PutBack(s, pushed), line) == Places(s, line) + (if line == pushed then 1 else 0)
  {
    PushesLoseNothing(s.buffer, pushed, s.limit);
    var p, q := Append(s.buffer, pushed, s.limit), AppendLeft(s.buffer, pushed, s.limit);
    assert (multiset(p.buffer) + multiset(p.evicted))[line] == (multiset(s.buffer) + multiset{pushed})[line];
    assert (multiset(q.buffer) + multiset(q.evicted))[line] == (multiset(s.buffer) + multiset{pushed})[line];
  }

  /** One for the line being handed over just now. */
  function New(s: State, step: Step, line: Line): nat {
    if (step.LogsWhileDown? || step.LogsWhileUp?) && line == s.next then 1 else 0
  }

  lemma RefusalPlaces(s: State, refused: Line, onLoop: bool, line: Line)
    requires Enabled(s, IsRefused(refused, onLoop)) && |s.buffer| <= s.limit
    ensures Places(Apply(s, IsRefused(refused, onLoop)), line) == Places(s, line)
  {
    PushPlaces(s.(held := s.held - multiset{refused}), refused, line);
  }

  lemma TakenOut(lines: multiset<Line>, taken: Line, line: Line)
    requires taken in lines
    ensures (lines - multiset{taken})[line] + (if line == taken then 1 else 0) == lines[line]
  {
  }

  lemma FailurePlaces(s: State, failed: Line, line: Line)
    requires failed in s.inFlight && |s.buffer| <= s.limit
    ensures Places(Push(s.(inFlight := s.inFlight - multiset{failed}), failed), line) == Places(s, line)
  {
    TakenOut(s.inFlight, failed, line);
    PushPlaces(s.(inFlight := s.inFlight - multiset{failed}), failed, line);
  }

  lemma PopPlaces(s: State, line: Line)
    requires Enabled(s, FlushPops)
    ensures Places(Apply(s, FlushPops), line) == Places(s, line)
  {
    assert s.buffer == [s.buffer[0]] + s.buffer[1..];
    assert multiset(s.buffer) == multiset{s.buffer[0]} + multiset(s.buffer[1..]);
  }

  lemma FlushPlaces(s: State, step: Step, line: Line)
    requires Enabled(s, step) && |s.buffer| <= s.limit
    requires step.FlushPops? || step.FlushHandsOver? || step.FlushIsRefused?
    ensures Places(Apply(s, step), line) == Places(s, line)
  {
    if step.FlushPops? {
      PopPlaces(s, line);
    } else if step.FlushIsRefused? {
      PushPlaces(s.(hand := None), s.hand.value, line);
    }
  }

  lemma StepPlaces(s: State, step: Step, line: Line)
    requires Enabled(s, step) && |s.buffer| <= s.limit
    ensures Places(Apply(s, step), line) == Places(s, line) + New(s, step, line)
  {
    match step
    case LogsWhileDown => PushPlaces(s, s.next, line);
    case IsRefused(l, onLoop) => RefusalPlaces(s, l, onLoop, line);
    case FlushPops => FlushPlaces(s, step, line);
    case FlushHandsOver(_) => FlushPlaces(s, step, line);
    case FlushIsRefused(_) => FlushPlaces(s, step, line);
    case SendFails(l) => FailurePlaces(s, l, line);
    case _ =>
  }

  lemma StepBounds(s: State, step: Step)
    requires Enabled(s, step) && |s.buffer| <= s.limit
    ensures var t := Apply(s, step); |t.buffer| <= t.limit == s.limit
  {
    match step
    case LogsWhileDown => PushesLoseNothing(s.buffer, s.next, s.limit);
    case IsRefused(line, _) => PushesLoseNothing(s.buffer, line, s.limit);
    case FlushIsRefused(_) => PushesLoseNothing(s.buffer, s.hand.value, s.limit);
    case SendFails(line) => PushesLoseNothing(s.buffer, line, s.limit);
    case _ =>
  }

  lemma StepBalances(s: State, step: Step)
    requires Balanced(s) && Enabled(s, step)
    ensures Balanced(Apply(s, step))
  {
    StepBounds(s, step);
    var t := Apply(s, step);
    assert t.next == if step.LogsWhileDown? || step.LogsWhileUp? then s.next + 1 else s.next;
    forall line: Line
      ensures Places(t, line) == if line < t.next then 1 else 0
    {
      StepPlaces(s, step, line);
    }
  }

  lemma {:induction false} RunBalances(s: State, steps: seq<Step>)
    requires Balanced(s) && CanRun(s, steps)
    ensures Balanced(Run(s, steps)) && Run(s, steps).limit == s.limit
    decreases |steps|
  {
    if steps != [] {
      StepBalances(s, steps[0]);
      StepBounds(s, steps[0]);
      RunBalances(Apply(s, steps[0]), steps[1..]);
    }
  }

  /** After any run every line handed over is in exactly one place, once; no other line is
      anywhere; and the buffer keeps its bound. */
  lemma EveryLineIsInOnePlace(limit: nat, steps: seq<Step>, line: Line)
    requires CanRun(Initial(limit), steps)
    ensures var s := Run(Initial(limit), steps);
            && multiset(s.buffer)[line] + s.held[line] + InHand(s.hand)[line] + s.inFlight[line] + s.delivered[line] + s.evicted[line]
               == (if line < s.next then 1 else 0)
            && |s.buffer| <= limit
  {
    RunBalances(Initial(limit), steps);
    assert Places(Run(Initial(limit), steps), line) == if line < Run(Initial(limit), steps).next then 1 else 0;
  }

  /** A line is thrown out only by a push onto a full buffer. */
  lemma OnlyAFullBufferEvicts(s: State, step: Step)
    requires |s.buffer| <= s.limit && Enabled(s, step) && Apply(s, step).evicted != s.evicted
    ensures |s.buffer| == s.limit
  {
    if step.LogsWhileDown? {
      PushesLoseNothing(s.buffer, s.next, s.limit);
    } else if step.IsRefused? || step.SendFails? {
      PushesLoseNothing(s.buffer, step.line, s.limit);
    } else if step.FlushIsRefused? {
      PushesLoseNothing(s.buffer, s.hand.value, s.limit);
    }
  }

  // ----- a connection that holds empties the ledger ---------------------------------------

  /** One flush and then the sends. */
  function FlushSteps(n: nat, onLoop: bool): seq<Step> {
    if n == 0 then [] else [FlushPops, FlushHandsOver(onLoop)] + FlushSteps(n - 1, onLoop)
  }

  lemma RunFirst(s: State, step: Step, rest: seq<Step>)
    requires Enabled(s, step) && CanRun(Apply(s, step), rest)
    ensures CanRun(s, [step] + rest) && Run(s, [step] + rest) == Run(Apply(s, step), rest)
  {
    assert ([step] + rest)[1..] == rest;
  }

  function Flushed(s: State): State {
    s.(buffer := [], inFlight := s.inFlight + multiset(s.buffer))
  }

  lemma FlushOne(s: State, onLoop: bool)
    requires Takes(s, onLoop) && s.hand.None? && s.buffer != []
    ensures var popped := Apply(s, FlushPops);
            && Enabled(popped, FlushHandsOver(onLoop))
            && var t := Apply(popped, FlushHandsOver(onLoop));
               Takes(t, onLoop) && t.hand.None? && |t.buffer| == |s.buffer| - 1 && Flushed(t) == Flushed(s)
  {
    assert s.buffer == [s.buffer[0]] + s.buffer[1..];
    var t := Apply(Apply(s, FlushPops), FlushHandsOver(onLoop));
    assert t.inFlight + multiset(t.buffer) == s.inFlight + multiset(s.buffer);
  }

  lemma FlushFirst(s: State, onLoop: bool, rest: seq<Step>)
    requires Takes(s, onLoop) && s.hand.None? && s.buffer != []
    requires CanRun(Apply(Apply(s, FlushPops), FlushHandsOver(onLoop)), rest)
    ensures var steps := [FlushPops, FlushHandsOver(onLoop)] + rest;
            CanRun(s, steps) && Run(s, steps) == Run(Apply(Apply(s, FlushPops), FlushHandsOver(onLoop)), rest)
  {
    RunFirst(Apply(s, FlushPops), FlushHandsOver(onLoop), rest);
    RunFirst(s, FlushPops, [FlushHandsOver(onLoop)] + rest);
    assert [FlushPops] + ([FlushHandsOver(onLoop)] + rest) == [FlushPops, FlushHandsOver(onLoop)] + rest;
  }

  lemma {:induction false} FlushDrains(s: State, onLoop: bool)
    requires Takes(s, onLoop) && s.hand.None?
    ensures CanRun(s, FlushSteps(|s.buffer|, onLoop)) && Run(s, FlushSteps(|s.buffer|, onLoop)) == Flushed(s)
    decreases |s.buffer|
  {
    if s.buffer == [] {
      assert s.inFlight + multiset(s.buffer) == s.inFlight;
    } else {
      FlushOne(s, onLoop);
      var t := Apply(Apply(s, FlushPops), FlushHandsOver(onLoop));
      FlushDrains(t, onLoop);
      FlushFirst(s, onLoop, FlushSteps(|t.buffer|, onLoop));
    }
  }

  lemma {:induction false} SendsDrain(s: State) returns (steps: seq<Step>)
    ensures CanRun(s, steps) && Run(s, steps) == s.(inFlight := multiset{}, delivered := s.delivered + s.inFlight)
    decreases |s.inFlight|
  {
    if s.inFlight == multiset{} {
      steps := [];
      assert s.delivered + s.inFlight == s.delivered;
    } else {
      var line :| line in s.inFlight;
      var t := Apply(s, SendEnds(line));
      var rest := SendsDrain(t);
      steps := [SendEnds(line)] + rest;
      RunFirst(s, SendEnds(line), rest);
      assert t.delivered + t.inFlight == s.delivered + s.inFlight;
    }
  }

  lemma RunOneMore(s: State, steps: seq<Step>, whole: seq<Step>)
    requires whole != [] && steps == whole[1..] && Enabled(s, whole[0]) && CanRun(Apply(s, whole[0]), steps)
    ensures CanRun(s, whole) && Run(s, whole) == Run(Apply(s, whole[0]), steps)
  {
  }

  lemma {:induction false} RunAppend(s: State, first: seq<Step>, later: seq<Step>)
    requires CanRun(s, first) && CanRun(Run(s, first), later)
    ensures CanRun(s, first + later) && Run(s, first + later) == Run(Run(s, first), later)
    decreases |first|
  {
    if first == [] {
      assert first + later == later;
    } else {
      var whole := first + later;
      assert whole[0] == first[0] && whole[1..] == first[1..] + later;
      RunAppend(Apply(s, first[0]), first[1..], later);
      RunOneMore(s, first[1..] + later, whole);
    }
  }

  /** With nobody in the middle of handing a line over, one flush on a connection that holds,
      and then its sends, deliver every line that was not thrown out: each as often as it was
      anywhere, which over a whole run is once. */
  lemma OneFlushDeliversAll(s: State, onLoop: bool) returns (steps: seq<Step>)
    requires Takes(s, onLoop) && s.hand.None? && s.held == multiset{}
    ensures CanRun(s, steps)
    ensures var t := Run(s, steps);
            && t.buffer == [] && t.inFlight == multiset{} && t.evicted == s.evicted && t.next == s.next
            && forall line: Line :: t.delivered[line] + t.evicted[line] == Places(s, line)
  {
    FlushDrains(s, onLoop);
    var flush := FlushSteps(|s.buffer|, onLoop);
    var sends := SendsDrain(Run(s, flush));
    RunAppend(s, flush, sends);
    steps := flush + sends;
  }

  // ----- what becomes of the count of refusals ---------------------------------------------

  /** The refusals somebody still knows of or was told of. */
  function Accounted(s: State): nat {
    s.deferred + s.uncounted + |s.counting| + (if s.notice.Some? then s.notice.value else 0) + s.told + s.lost
  }

  /** By how much a write to the counter goes wrong: what was read differs from what the
      counter says by then. */
  function Drift(s: State, step: Step): int {
    match step
    case WritesCount(t) => (if t in s.counting then s.counting[t] else 0) - s.deferred
    case SaysStores => (if s.saying.Some? then s.saying.value else 0) - s.deferred
    case AnnounceRaises => 0 - s.deferred
    case _ => 0
  }

  lemma OneMore(counting: map<Thread, nat>, t: Thread, read: nat)
    ensures t !in counting ==> |counting[t := read]| == |counting| + 1
    ensures t in counting ==> |counting - {t}| == |counting| - 1
  {
    if t in counting {
      assert counting == (counting - {t})[t := counting[t]];
    }
  }

  lemma CountingAccounts(s: State, step: Step)
    requires Enabled(s, step) && (step.ReadsCount? || step.WritesCount?)
    ensures var t := Apply(s, step); t.refusals == s.refusals && Accounted(t) == Accounted(s) + Drift(s, step)
  {
    OneMore(s.counting, step.thread, s.deferred);
  }

  lemma StepAccounts(s: State, step: Step)
    requires Enabled(s, step)
    ensures var t := Apply(s, step); Accounted(t) - t.refusals == Accounted(s) - s.refusals + Drift(s, step)
  {
    if step.ReadsCount? || step.WritesCount? {
      CountingAccounts(s, step);
    }
  }

  /** What the schedule alone says of the counter: how many counts were completed since it was
      last set to nothing, or put back; how many there were at each thread's read, at the
      flush's, and in the notice the flush holds. */
  datatype Clock = Clock(level: nat, read: map<Thread, nat>, said: nat, held: nat)

  const MIDNIGHT := Clock(0, map[], 0, 0)

  function Tick(c: Clock, step: Step): Clock {
    match step
    case ReadsCount(t) => c.(read := c.read[t := c.level])
    case WritesCount(t) => c.(level := c.level + 1)
    case SaysReads => c.(said := c.level)
    case SaysStores => c.(level := 0, held := c.said)
    case AnnounceRaises => c.(level := c.held)
    case _ => c
  }

  /** Whoever writes the counter finds as many counts completed as at its own read; whoever puts
      a notice back finds none. */
  predicate OnTime(c: Clock, step: Step) {
    match step
    case WritesCount(t) => t in c.read && c.read[t] == c.level
    case SaysStores => c.said == c.level
    case AnnounceRaises => c.level == 0
    case _ => true
  }

  predicate AllOnTime(c: Clock, steps: seq<Step>)
    decreases |steps|
  {
    steps == [] || (OnTime(c, steps[0]) && AllOnTime(Tick(c, steps[0]), steps[1..]))
  }

  /** Every refusal is accounted for before the first step and after each. */
  predicate AccountedThroughout(s: State, steps: seq<Step>)
    requires CanRun(s, steps)
    decreases |steps|
  {
    Accounted(s) == s.refusals && (steps == [] || AccountedThroughout(Apply(s, steps[0]), steps[1..]))
  }

  ghost predicate InStep(s: State, c: Clock) {
    && s.deferred == c.level
    && (forall t :: t in s.counting ==> t in c.read && c.read[t] == s.counting[t])
    && (s.saying.Some? ==> s.saying.value == c.said)
    && (s.notice.Some? ==> s.notice.value == c.held)
  }

  lemma ClockTells(s: State, c: Clock, step: Step)
    requires InStep(s, c) && Enabled(s, step)
    ensures Drift(s, step) == 0 <==> OnTime(c, step)
    ensures Drift(s, step) == 0 ==> InStep(Apply(s, step), Tick(c, step))
  {
  }

  lemma {:induction false} ThroughoutExactly(s: State, c: Clock, steps: seq<Step>)
    requires CanRun(s, steps) && InStep(s, c) && Accounted(s) == s.refusals
    ensures AccountedThroughout(s, steps) <==> AllOnTime(c, steps)
    decreases |steps|
  {
    if steps != [] {
      StepAccounts(s, steps[0]);
      ClockTells(s, c, steps[0]);
      if OnTime(c, steps[0]) {
        ThroughoutExactly(Apply(s, steps[0]), Tick(c, steps[0]), steps[1..]);
      } else {
        NotThroughout(Apply(s, steps[0]), steps[1..]);
      }
    }
  }

  lemma NotThroughout(s: State, steps: seq<Step>)
    requires CanRun(s, steps) && Accounted(s) != s.refusals
    ensures !AccountedThroughout(s, steps)
  {
  }

  /** Over any interleaving every refusal is accounted for throughout, exactly when by the
      schedule alone every write to the counter is on time. */
  lemma AccountedExactlyOnTime(limit: nat, steps: seq<Step>)
    requires CanRun(Initial(limit), steps)
    ensures AccountedThroughout(Initial(limit), steps) <==> AllOnTime(MIDNIGHT, steps)
  {
    ThroughoutExactly(Initial(limit), MIDNIGHT, steps);
  }

  /** Nobody begins to count while another thread counts or a flush announces, and no flush
      begins to announce while somebody counts. */
  predicate OneAtATime(s: State, steps: seq<Step>)
    requires CanRun(s, steps)
    decreases |steps|
  {
    steps == []
    || (&& (steps[0].ReadsCount? ==> s.counting == map[] && s.saying.None? && s.notice.None?)
        && (steps[0].SaysReads? ==> s.counting == map[])
        && OneAtATime(Apply(s, steps[0]), steps[1..]))
  }

  ghost predicate UpToDate(s: State) {
    && (forall t :: t in s.counting ==> s.counting[t] == s.deferred)
    && (forall t, u :: t in s.counting && u in s.counting ==> t == u)
    && (s.saying.Some? ==> s.saying.value == s.deferred && s.counting == map[] && s.notice.None?)
    && (s.notice.Some? ==> s.deferred == 0 && s.counting == map[])
  }

  lemma CountStaysUpToDate(s: State, step: Step)
    requires UpToDate(s) && Enabled(s, step)
    requires step.ReadsCount? ==> s.counting == map[] && s.saying.None? && s.notice.None?
    requires step.SaysReads? ==> s.counting == map[]
    ensures UpToDate(Apply(s, step)) && Drift(s, step) == 0
  {
  }

  lemma {:induction false} OneAtATimeThroughout(s: State, steps: seq<Step>)
    requires UpToDate(s) && CanRun(s, steps) && OneAtATime(s, steps) && Accounted(s) == s.refusals
    ensures AccountedThroughout(s, steps) && Accounted(Run(s, steps)) == Run(s, steps).refusals
    decreases |steps|
  {
    if steps != [] {
      CountStaysUpToDate(s, steps[0]);
      StepAccounts(s, steps[0]);
      OneAtATimeThroughout(Apply(s, steps[0]), steps[1..]);
    }
  }

  /** One at a time, every refusal is accounted for, at the end and all along. */
  lemma OneAtATimeLosesNoRefusal(limit: nat, steps: seq<Step>)
    requires CanRun(Initial(limit), steps) && OneAtATime(Initial(limit), steps)
    ensures var s := Run(Initial(limit), steps); Accounted(s) == s.refusals
    ensures AccountedThroughout(Initial(limit), steps)
  {
    OneAtATimeThroughout(Initial(limit), steps);
  }

  lemma Follow(s: State, steps: seq<Step>, step: Step, limit: nat) returns (more: seq<Step>, t: State)
    requires CanRun(Initial(limit), steps) && s == Run(Initial(limit), steps) && Enabled(s, step)
    ensures CanRun(Initial(limit), more) && t == Run(Initial(limit), more) && t == Apply(s, step)
  {
    RunFirst(s, step, []);
    assert [step] + [] == [step];
    RunAppend(Initial(limit), steps, [step]);
    more, t := steps + [step], Apply(s, step);
  }

  /** What the examples below need to know of a state. */
  predicate Counts(s: State, lines: nat, uncounted: nat, deferred: nat, told: nat) {
    && s.connected && !s.loopRuns && s.hand.None?
    && s.next == lines && s.refusals == lines && s.uncounted == uncounted && s.deferred == deferred
    && s.told == told && s.lost == 0
  }

  lemma OneMoreRefused(before: State, steps: seq<Step>, deferred: nat) returns (more: seq<Step>, s: State)
    requires CanRun(Initial(9), steps) && before == Run(Initial(9), steps) && Counts(before, before.next, 0, deferred, 0)
    ensures CanRun(Initial(9), more) && s == Run(Initial(9), more)
    ensures Counts(s, before.next + 1, 1, deferred, 0)
    ensures s.counting == before.counting && s.saying == before.saying && s.notice == before.notice
  {
    more, s := Follow(before, steps, LogsWhileUp, 9);
    more, s := Follow(s, more, IsRefused(before.next, false), 9);
  }

  lemma OneRefused() returns (steps: seq<Step>, s: State)
    ensures CanRun(Initial(9), steps) && s == Run(Initial(9), steps)
    ensures Counts(s, 1, 1, 0, 0) && s.counting == map[] && s.saying.None? && s.notice.None?
  {
    steps, s := Follow(Initial(9), [], Connects, 9);
    steps, s := OneMoreRefused(s, steps, 0);
  }

  /** One refusal has been counted; nothing else has happened to the counter. */
  lemma OneCounted() returns (steps: seq<Step>, s: State)
    ensures CanRun(Initial(9), steps) && s == Run(Initial(9), steps)
    ensures Counts(s, 1, 0, 1, 0) && s.counting == map[] && s.saying.None? && s.notice.None?
  {
    steps, s := OneRefused();
    steps, s := Follow(s, steps, ReadsCount(0), 9);
    steps, s := Follow(s, steps, WritesCount(0), 9);
  }

  /** A flush announces between a thread's reading the counter and its writing it: the first
      refusal is announced and counted again. */
  lemma ARefusalCountedTwice() returns (steps: seq<Step>, s: State)
    ensures CanRun(Initial(9), steps) && s == Run(Initial(9), steps)
    ensures s.refusals == 2 && s.told == 1 && s.deferred == 2 && Accounted(s) == 3
  {
    steps, s := OneCounted();
    steps, s := OneMoreRefused(s, steps, 1);
    steps, s := Follow(s, steps, ReadsCount(0), 9);
    steps, s := Follow(s, steps, SaysReads, 9);
    steps, s := Follow(s, steps, SaysStores, 9);
    steps, s := Follow(s, steps, Announces(true, true), 9);
    steps, s := Follow(s, steps, WritesCount(0), 9);
  }

  /** A thread counts between a flush's reading the counter and its setting it to nothing: its
      refusal is never announced. */
  lemma ARefusalForgotten() returns (steps: seq<Step>, s: State)
    ensures CanRun(Initial(9), steps) && s == Run(Initial(9), steps)
    ensures s.refusals == 2 && s.told == 1 && Accounted(s) == 1
  {
    steps, s := OneCounted();
    steps, s := Follow(s, steps, SaysReads, 9);
    steps, s := OneMoreRefused(s, steps, 1);
    steps, s := Follow(s, steps, ReadsCount(0), 9);
    steps, s := Follow(s, steps, WritesCount(0), 9);
    steps, s := Follow(s, steps, SaysStores, 9);
    steps, s := Follow(s, steps, Announces(true, true), 9);
  }

  /** A change between a thread's read and its write need not show: the flush sets the counter
      to nothing and, its notice having raised, puts it back before the thread writes. */
  lemma AChangeThatDoesNotShow() returns (steps: seq<Step>, s: State)
    ensures CanRun(Initial(9), steps) && s == Run(Initial(9), steps)
    ensures s.refusals == 2 && s.deferred == 2 && Accounted(s) == 2
  {
    steps, s := OneCounted();
    steps, s := OneMoreRefused(s, steps, 1);
    steps, s := Follow(s, steps, ReadsCount(0), 9);
    steps, s := Follow(s, steps, SaysReads, 9);
    steps, s := Follow(s, steps, SaysStores, 9);
    steps, s := Follow(s, steps, AnnounceRaises, 9);
    steps, s := Follow(s, steps, WritesCount(0), 9);
  }
}
