/** Which line a full buffer gives up, in which order the lines stand, and what one call of
    the handler comes to, said of the lines and numbers themselves. */
module UplinkOrder {
  import opened Options
  import opened UplinkLedger
  import opened UplinkHandler

  /** The step puts this line into the buffer: one logged while down, refused by the client,
      or sent in vain. */
  predicate PutsIn(s: State, step: Step, line: Line) {
    || (step.LogsWhileDown? && line == s.next)
    || ((step.IsRefused? || step.SendFails?) && line == step.line)
  }

  /** The line goes to the end. A full buffer gives up the line it has had longest, and one
      that can hold nothing the line itself; no other line is given up. */
  lemma TheOldestMakesRoom(s: State, step: Step, line: Line)
    requires |s.buffer| <= s.limit && Enabled(s, step) && PutsIn(s, step, line)
    ensures var t := Apply(s, step);
            && (|s.buffer| < s.limit ==> t.buffer == s.buffer + [line] && t.evicted == s.evicted)
            && (0 < |s.buffer| == s.limit ==>
                  t.buffer == s.buffer[1..] + [line] && t.evicted == s.evicted + multiset{s.buffer[0]})
            && (s.limit == 0 ==> t.buffer == [] && t.evicted == s.evicted + multiset{line})
  {
    assert multiset([line]) == multiset{line};
    assert s.evicted + multiset([]) == s.evicted;
    if s.buffer != [] {
      assert multiset([s.buffer[0]]) == multiset{s.buffer[0]};
    }
  }

  /** A flush takes the line that has waited longest. Refused, it stands first again; where the
      buffer has filled up meanwhile, the newest line makes room. */
  lemma TheFlushTakesTheOldest(s: State, onLoop: bool)
    requires |s.buffer| <= s.limit
    ensures Enabled(s, FlushPops) ==>
              var t := Apply(s, FlushPops); s.buffer == [t.hand.value] + t.buffer && t.evicted == s.evicted
    ensures Enabled(s, FlushIsRefused(onLoop)) && |s.buffer| < s.limit ==>
              var t := Apply(s, FlushIsRefused(onLoop)); t.buffer == [s.hand.value] + s.buffer && t.evicted == s.evicted
    ensures Enabled(s, FlushIsRefused(onLoop)) && 0 < |s.buffer| == s.limit ==>
              var t := Apply(s, FlushIsRefused(onLoop));
              && t.buffer == [s.hand.value] + s.buffer[..s.limit - 1]
              && t.evicted == s.evicted + multiset{s.buffer[s.limit - 1]}
  {
    assert s.evicted + multiset([]) == s.evicted;
  }

  /** No other step touches the buffer or gives up a line. */
  lemma OthersLeaveTheBuffer(s: State, step: Step)
    requires Enabled(s, step) && !step.FlushPops? && !step.FlushIsRefused? && forall line :: !PutsIn(s, step, line)
    ensures Apply(s, step).buffer == s.buffer && Apply(s, step).evicted == s.evicted
  {
    assert step.LogsWhileDown? ==> PutsIn(s, step, s.next);
    assert step.IsRefused? || step.SendFails? ==> PutsIn(s, step, step.line);
  }

  // ----- order ----------------------------------------------------------------------------

  /** The lines waiting, the one a flush has taken first. */
  function Waiting(s: State): seq<Line> {
    (if s.hand.Some? then [s.hand.value] else []) + s.buffer
  }

  /** Each was handed over before the next, and all before now. */
  predicate Rising(lines: seq<Line>, now: Line) {
    && (forall i, j :: 0 <= i < j < |lines| ==> lines[i] < lines[j])
    && (forall i :: 0 <= i < |lines| ==> lines[i] < now)
  }

  /** The step puts a line back that was handed over earlier: refused, or sent in vain. */
  predicate ComesBack(step: Step) {
    step.IsRefused? || step.SendFails?
  }

  lemma RisingWithout(lines: seq<Line>, k: nat, now: Line)
    requires Rising(lines, now) && k < |lines|
    ensures Rising(lines[..k] + lines[k + 1..], now)
  {
  }

  lemma RisingMore(lines: seq<Line>, now: Line)
    requires Rising(lines, now)
    ensures Rising(lines + [now], now + 1) && Rising(lines, now + 1)
  {
  }

  lemma WaitingAfterPush(s: State)
    requires |s.buffer| == s.limit > 0 && !s.connected
    ensures var h := if s.hand.Some? then 1 else 0;
            Waiting(Apply(s, LogsWhileDown)) == (Waiting(s)[..h] + Waiting(s)[h + 1..]) + [s.next]
  {
    TheOldestMakesRoom(s, LogsWhileDown, s.next);
    if s.hand.Some? {
      assert Waiting(s)[..1] == [s.hand.value] && Waiting(s)[2..] == s.buffer[1..];
    } else {
      assert Waiting(s) == s.buffer && Waiting(s)[..0] + s.buffer[1..] == s.buffer[1..];
    }
  }

  lemma WaitingWithRoom(s: State)
    requires |s.buffer| <= s.limit && !s.connected
    ensures |s.buffer| < s.limit ==> Waiting(Apply(s, LogsWhileDown)) == Waiting(s) + [s.next]
    ensures s.limit == 0 ==> Waiting(Apply(s, LogsWhileDown)) == Waiting(s)
  {
    TheOldestMakesRoom(s, LogsWhileDown, s.next);
  }

  lemma RisingWithoutThenMore(lines: seq<Line>, k: nat, now: Line)
    requires Rising(lines, now) && k < |lines|
    ensures Rising((lines[..k] + lines[k + 1..]) + [now], now + 1)
  {
    RisingWithout(lines, k, now);
    RisingMore(lines[..k] + lines[k + 1..], now);
  }

  lemma RisingAfterPush(s: State)
    requires Rising(Waiting(s), s.next) && |s.buffer| <= s.limit && !s.connected
    ensures Rising(Waiting(Apply(s, LogsWhileDown)), s.next + 1)
  {
    if |s.buffer| == s.limit > 0 {
      WaitingAfterPush(s);
      RisingWithoutThenMore(Waiting(s), if s.hand.Some? then 1 else 0, s.next);
    } else {
      WaitingWithRoom(s);
      RisingMore(Waiting(s), s.next);
    }
  }

  lemma RisingAfterRefusal(s: State, onLoop: bool)
    requires Rising(Waiting(s), s.next) && |s.buffer| <= s.limit && Enabled(s, FlushIsRefused(onLoop))
    ensures var t := Apply(s, FlushIsRefused(onLoop)); Rising(Waiting(t), t.next)
  {
    TheFlushTakesTheOldest(s, onLoop);
    var t, w := Apply(s, FlushIsRefused(onLoop)), Waiting(s);
    if |s.buffer| < s.limit {
      assert Waiting(t) == w;
    } else if s.limit > 0 {
      RisingWithout(w, |w| - 1, s.next);
      assert Waiting(t) == w[..|w| - 1] + w[|w|..];
    } else {
      assert Waiting(t) == [];
    }
  }

  lemma WaitingAfterStep(s: State, step: Step)
    requires Enabled(s, step) && !ComesBack(step) && !step.LogsWhileDown? && !step.FlushIsRefused?
    ensures var w := Waiting(s); Waiting(Apply(s, step)) == if step.FlushHandsOver? then w[..0] + w[1..] else w
  {
  }

  lemma RisingAfterStep(s: State, step: Step)
    requires Rising(Waiting(s), s.next) && |s.buffer| <= s.limit && Enabled(s, step) && !ComesBack(step)
    ensures var t := Apply(s, step); Rising(Waiting(t), t.next)
  {
    if step.LogsWhileDown? {
      RisingAfterPush(s);
    } else if step.FlushIsRefused? {
      RisingAfterRefusal(s, step.onLoop);
    } else {
      WaitingAfterStep(s, step);
      if step.FlushHandsOver? {
        RisingWithout(Waiting(s), 0, s.next);
      } else {
        RisingMore(Waiting(s), s.next);
      }
    }
  }

  lemma {:induction false} RisingAfterRun(s: State, steps: seq<Step>)
    requires Rising(Waiting(s), s.next) && |s.buffer| <= s.limit
    requires CanRun(s, steps) && forall step :: step in steps ==> !ComesBack(step)
    ensures Rising(Waiting(Run(s, steps)), Run(s, steps).next)
    decreases |steps|
  {
    if steps != [] {
      RisingAfterStep(s, steps[0]);
      StepBounds(s, steps[0]);
      RisingAfterRun(Apply(s, steps[0]), steps[1..]);
    }
  }

  /** Over any run in which no line comes back, the lines waiting stand in the order in which
      they were handed over, the one a flush holds before all others. */
  lemma LinesWaitInOrder(limit: nat, steps: seq<Step>)
    requires CanRun(Initial(limit), steps) && forall step :: step in steps ==> !ComesBack(step)
    ensures var w := Waiting(Run(Initial(limit), steps)); forall i, j :: 0 <= i < j < |w| ==> w[i] < w[j]
  {
    RisingAfterRun(Initial(limit), steps);
  }

  // ----- a connection that is down ------------------------------------------------------------

  function Outage(n: nat): seq<Step> {
    if n == 0 then [] else [LogsWhileDown] + Outage(n - 1)
  }

  /** The numbers of the next lines. */
  function Numbers(from: nat, n: nat): seq<Line> {
    seq(n, i requires 0 <= i < n => from + i)
  }

  lemma NumbersFirst(from: nat, n: nat)
    requires n > 0
    ensures Numbers(from, n) == [from] + Numbers(from + 1, n - 1)
  {
  }

  /** The last of them, as many as fit, and those before. */
  function Newest(all: seq<Line>, limit: nat): seq<Line> {
    if |all| <= limit then all else all[|all| - limit..]
  }

  function Older(all: seq<Line>, limit: nat): seq<Line> {
    if |all| <= limit then [] else all[..|all| - limit]
  }

  lemma OneMoreOlder(first: Line, rest: seq<Line>, limit: nat)
    requires |rest| >= limit
    ensures Newest([first] + rest, limit) == Newest(rest, limit)
    ensures Older([first] + rest, limit) == [first] + Older(rest, limit)
  {
  }

  /** The line that made room, if one did, is the first of all. */
  lemma RoomMade(s: State, n: nat)
    requires !s.connected && |s.buffer| <= s.limit && n > 0
    ensures var all, t := s.buffer + Numbers(s.next, n), Apply(s, LogsWhileDown);
            var rest := t.buffer + Numbers(s.next + 1, n - 1);
            && (|s.buffer| < s.limit ==> rest == all && t.evicted == s.evicted)
            && (|s.buffer| == s.limit ==>
                  |rest| >= s.limit && all == [all[0]] + rest && t.evicted == s.evicted + multiset{all[0]})
  {
    TheOldestMakesRoom(s, LogsWhileDown, s.next);
    NumbersFirst(s.next, n);
  }

  lemma GivenUp(s: State, n: nat)
    requires !s.connected && |s.buffer| <= s.limit && n > 0
    ensures var all, t := s.buffer + Numbers(s.next, n), Apply(s, LogsWhileDown);
            var rest := t.buffer + Numbers(s.next + 1, n - 1);
            && Newest(rest, s.limit) == Newest(all, s.limit)
            && t.evicted + multiset(Older(rest, s.limit)) == s.evicted + multiset(Older(all, s.limit))
  {
    RoomMade(s, n);
    if |s.buffer| == s.limit {
      var all, rest := s.buffer + Numbers(s.next, n), Apply(s, LogsWhileDown).buffer + Numbers(s.next + 1, n - 1);
      OneMoreOlder(all[0], rest, s.limit);
      assert multiset([all[0]] + Older(rest, s.limit)) == multiset{all[0]} + multiset(Older(rest, s.limit));
    }
  }

  lemma OutageFirst(s: State, n: nat)
    requires !s.connected && n > 0 && CanRun(Apply(s, LogsWhileDown), Outage(n - 1))
    ensures CanRun(s, Outage(n)) && Run(s, Outage(n)) == Run(Apply(s, LogsWhileDown), Outage(n - 1))
  {
    RunFirst(s, LogsWhileDown, Outage(n - 1));
  }

  lemma DownStays(s: State)
    requires !s.connected && |s.buffer| <= s.limit
    ensures var t := Apply(s, LogsWhileDown);
            !t.connected && |t.buffer| <= t.limit == s.limit && t.next == s.next + 1
  {
    StepBounds(s, LogsWhileDown);
  }

  /** While the connection is down the buffer comes to hold the newest lines, as many as fit,
      and what it had before and did not keep is given up. */
  lemma {:induction false} AnOutageKeepsTheNewest(s: State, n: nat)
    requires !s.connected && |s.buffer| <= s.limit
    ensures CanRun(s, Outage(n))
    ensures var all := s.buffer + Numbers(s.next, n);
            && Run(s, Outage(n)).buffer == Newest(all, s.limit)
            && Run(s, Outage(n)).evicted == s.evicted + multiset(Older(all, s.limit))
    decreases n
  {
    if n == 0 {
      assert s.buffer + Numbers(s.next, 0) == s.buffer && s.evicted + multiset([]) == s.evicted;
    } else {
      DownStays(s);
      AnOutageKeepsTheNewest(Apply(s, LogsWhileDown), n - 1);
      OutageFirst(s, n);
      GivenUp(s, n);
    }
  }

  // ----- one call of the handler -----------------------------------------------------------------

  /** A line is on its way exactly when the client is connected and has a loop to go through,
      which a call on the loop's own thread always has; it is counted as refused exactly when
      connected without one; a line not on its way waits at the end of the buffer. */
  lemma EmitOutcome(s: State, onLoop: bool)
    requires |s.buffer| < s.limit
    ensures var t, taken := AfterEmit(s, onLoop), s.connected && (onLoop || s.loopRuns);
            && t.inFlight == (if taken then s.inFlight + multiset{s.next} else s.inFlight)
            && t.buffer == (if taken then s.buffer else s.buffer + [s.next])
            && t.deferred == s.deferred + (if s.connected && !taken then 1 else 0)
            && t.next == s.next + 1 && t.delivered == s.delivered && t.evicted == s.evicted
  {
    assert s.evicted + multiset([]) == s.evicted;
  }

  /** A flush on a connection with a loop leaves nothing waiting and says how many lines were
      deferred, once; without a connection, or with lines waiting and no loop to hand them to,
      it changes nothing; with neither lines nor a loop only its notice is lost. */
  lemma FlushOutcome(s: State, onLoop: bool, arrives: bool)
    ensures s.connected && (onLoop || s.loopRuns) ==>
              var t := AfterFlush(s, onLoop, arrives);
              && t.buffer == [] && t.inFlight == s.inFlight + multiset(s.buffer) && t.deferred == 0
              && t.told + t.lost == s.told + s.lost + s.deferred
              && (arrives ==> t.lost == s.lost) && (!arrives ==> t.told == s.told)
    ensures !s.connected || (!onLoop && !s.loopRuns && s.buffer != []) ==> AfterFlush(s, onLoop, arrives) == s
    ensures s.connected && !onLoop && !s.loopRuns && s.buffer == [] ==>
              AfterFlush(s, onLoop, arrives) == s.(deferred := 0, lost := s.lost + s.deferred)
  {
    assert s.inFlight + multiset([]) == s.inFlight;
  }
}
