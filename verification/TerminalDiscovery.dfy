/** `discover_network_terminals`: the patience of the second pass, the probes held to the
    deadline, the report of what was done, and the terminals found twice. */
module TerminalDiscovery {
  import opened Options
  import opened TerminalSweep

  // ----- the patience of the slow pass -------------------------------------------

  /** What a budget leaves for one connect of the slow pass over `silent` addresses; with no
      budget the full patience. */
  function Patience(left: Option<real>, silent: nat, slow: real): real {
    if left.None? then slow
    else
      var batches := Batches(silent, WORKERS);
      var affordable := (left.value - PROBE_RESERVE) / (if batches < 1 then 1.0 else batches as real);
      if affordable < slow then affordable else slow
  }

  predicate WorthRunning(patience: real, timeout: real) {
    patience >= timeout + SLOW_PASS_MIN_MARGIN
  }

  lemma QuotientFits(total: real, n: nat, share: real)
    requires n > 0 && share <= total / (n as real)
    ensures n as real * share <= total
  {
    assert (total / (n as real)) * (n as real) == total;
  }

  /** The slow pass leaves the reserve of the probes untouched. */
  lemma SlowPassLeavesTheReserve(left: real, silent: nat, slow: real)
    requires silent > 0
    ensures Allowed(silent, WORKERS, Patience(Some(left), silent, slow)) <= left - PROBE_RESERVE
  {
    var patience := Patience(Some(left), silent, slow);
    AllowedIsBatches(silent, WORKERS, patience);
    assert Batches(silent, WORKERS) >= 1;
    QuotientFits(left - PROBE_RESERVE, Batches(silent, WORKERS), patience);
  }

  // ----- the probes -----------------------------------------------------------------

  type Adapter = string

  datatype Target = Target(host: string, port: int, adapter: Adapter)

  datatype Descriptor = Descriptor(serial: string, address: Option<Pair>)

  /** What a probe would do if nobody stopped it: how long it takes, and what it answers;
      nothing stands for an exception as well. */
  datatype Handshake = Handshake(duration: real, answer: Option<Descriptor>)

  datatype Probed = Probed(
    now: real, seen: set<Target>, run: nat, skipped: nat, cut: nat, found: seq<Descriptor>)

  /** How long a probe may take with that much of the budget left. */
  function Ceiling(left: Option<real>): real {
    if left.Some? && left.value < PROBE_CEILING then left.value else PROBE_CEILING
  }

  function LeftOf(deadline: Option<real>, now: real): Option<real> {
    if deadline.None? then None else Some(deadline.value - now)
  }

  function Probe(s: Probed, target: Target, net: Target -> Handshake, deadline: Option<real>, probeTimeout: real): Probed {
    if target in s.seen then s
    else
      var t, left := s.(seen := s.seen + {target}), LeftOf(deadline, s.now);
      if left.Some? && left.value <= probeTimeout then t.(skipped := s.skipped + 1)
      else
        var handshake, ceiling := net(target), Ceiling(left);
        if handshake.duration > ceiling then t.(now := s.now + ceiling, cut := s.cut + 1)
        else
          var later := t.(now := s.now + (if handshake.duration < 0.0 then 0.0 else handshake.duration), run := s.run + 1);
          if handshake.answer.Some? then later.(found := s.found + [handshake.answer.value]) else later
  }

  function ProbeAll(s: Probed, targets: seq<Target>, net: Target -> Handshake, deadline: Option<real>, probeTimeout: real): Probed
    decreases |targets|
  {
    if targets == [] then s
    else ProbeAll(Probe(s, targets[0], net, deadline, probeTimeout), targets[1..], net, deadline, probeTimeout)
  }

  /** Every target is accounted for once: its probe ran, was cut off or was never started. */
  predicate Accounted(s: Probed) {
    |s.seen| == s.run + s.skipped + s.cut && |s.found| <= s.run
  }

  function Distinct(targets: seq<Target>): set<Target> {
    if targets == [] then {} else {targets[0]} + Distinct(targets[1..])
  }

  /** The later of the deadline and of where things stand. */
  function Bound(deadline: Option<real>, now: real): real {
    if deadline.Some? && deadline.value > now then deadline.value else now
  }

  lemma OneProbe(s: Probed, target: Target, net: Target -> Handshake, deadline: Option<real>, probeTimeout: real)
    requires Accounted(s) && probeTimeout >= 0.0
    ensures var t := Probe(s, target, net, deadline, probeTimeout);
            && Accounted(t) && t.seen == s.seen + {target} && t.now >= s.now && s.found <= t.found
            && (deadline.Some? ==> Bound(deadline, t.now) == Bound(deadline, s.now))
            && (deadline.None? ==> t.skipped == s.skipped)
  {
    var t := Probe(s, target, net, deadline, probeTimeout);
    if target !in s.seen {
      assert |s.seen + {target}| == |s.seen| + 1;
    } else {
      assert s.seen + {target} == s.seen;
    }
  }

  /** The probes end by the deadline, or where they began if that was later; each distinct
      target is accounted for exactly once; without a deadline none is skipped. */
  lemma {:induction false} ProbesKeepTheDeadline(
    s: Probed, targets: seq<Target>, net: Target -> Handshake, deadline: Option<real>, probeTimeout: real)
    requires Accounted(s) && probeTimeout >= 0.0
    ensures var t := ProbeAll(s, targets, net, deadline, probeTimeout);
            && Accounted(t) && t.now >= s.now && t.seen == s.seen + Distinct(targets)
            && (deadline.Some? ==> t.now <= Bound(deadline, s.now))
            && (deadline.None? ==> t.skipped == s.skipped)
    decreases |targets|
  {
    if targets == [] {
      assert s.seen + {} == s.seen;
    } else {
      var u := Probe(s, targets[0], net, deadline, probeTimeout);
      OneProbe(s, targets[0], net, deadline, probeTimeout);
      ProbesKeepTheDeadline(u, targets[1..], net, deadline, probeTimeout);
      assert s.seen + {targets[0]} + Distinct(targets[1..]) == s.seen + Distinct(targets);
    }
  }

  /** A probe that was cut off was given its full ceiling or all that was left. */
  lemma CutOffOnlyAtTheCeiling(s: Probed, target: Target, net: Target -> Handshake, deadline: Option<real>, probeTimeout: real)
    requires target !in s.seen
    ensures Probe(s, target, net, deadline, probeTimeout).cut > s.cut ==>
              net(target).duration > Ceiling(LeftOf(deadline, s.now))
    ensures net(target).answer.Some? && net(target).duration <= probeTimeout <= PROBE_CEILING
              && (deadline.Some? ==> s.now + probeTimeout < deadline.value) ==>
              Probe(s, target, net, deadline, probeTimeout).found == s.found + [net(target).answer.value]
  {
  }

  // ----- the same terminal found twice ----------------------------------------------

  const LOOPBACK := "127.0.0.1"

  predicate OnLoopback(d: Descriptor) {
    d.address.Some? && d.address.value.0 == LOOPBACK
  }

  /** Found on the network with a serial, under this port. */
  predicate NetworkTwin(d: Descriptor, serial: string, port: int) {
    d.serial != "" && d.address.Some? && d.address.value.0 != LOOPBACK && d.serial == serial && d.address.value.1 == port
  }

  function Twins(ds: seq<Descriptor>): set<(string, int)> {
    if ds == [] then {}
    else
      var last := ds[|ds| - 1];
      Twins(ds[..|ds| - 1])
      + (if last.serial != "" && last.address.Some? && !OnLoopback(last) then {(last.serial, last.address.value.1)} else {})
  }

  lemma {:induction false} TwinsAreOnTheNetwork(ds: seq<Descriptor>, serial: string, port: int)
    ensures (serial, port) in Twins(ds) <==> exists d :: d in ds && NetworkTwin(d, serial, port)
  {
    if ds != [] {
      var last := |ds| - 1;
      TwinsAreOnTheNetwork(ds[..last], serial, port);
      assert ds == ds[..last] + [ds[last]];
      if (serial, port) in Twins(ds) && (serial, port) !in Twins(ds[..last]) {
        assert NetworkTwin(ds[last], serial, port);
      }
    }
  }

  predicate Dropped(d: Descriptor, twins: set<(string, int)>) {
    OnLoopback(d) && d.serial != "" && (d.serial, d.address.value.1) in twins
  }

  function Keep(ds: seq<Descriptor>, twins: set<(string, int)>): seq<Descriptor> {
    if ds == [] then []
    else
      var last, rest := ds[|ds| - 1], Keep(ds[..|ds| - 1], twins);
      if Dropped(last, twins) then rest else rest + [last]
  }

  lemma {:induction false} KeepHolds(ds: seq<Descriptor>, twins: set<(string, int)>)
    ensures forall d :: d in Keep(ds, twins) <==> d in ds && !Dropped(d, twins)
  {
    if ds != [] {
      KeepHolds(ds[..|ds| - 1], twins);
      assert ds == ds[..|ds| - 1] + [ds[|ds| - 1]];
    }
  }

  /** A descriptor is dropped exactly when it is on the loopback and the same serial on the
      same port was found on the network; and that other one is kept. */
  lemma OnlyRealTwinsAreDropped(ds: seq<Descriptor>, d: Descriptor)
    requires d in ds
    ensures d !in Keep(ds, Twins(ds)) <==>
              OnLoopback(d) && d.serial != "" && exists e :: e in ds && NetworkTwin(e, d.serial, d.address.value.1)
    ensures d !in Keep(ds, Twins(ds)) ==>
              exists e :: e in Keep(ds, Twins(ds)) && NetworkTwin(e, d.serial, d.address.value.1)
  {
    KeepHolds(ds, Twins(ds));
    if OnLoopback(d) {
      TwinsAreOnTheNetwork(ds, d.serial, d.address.value.1);
      if d !in Keep(ds, Twins(ds)) {
        var e :| e in ds && NetworkTwin(e, d.serial, d.address.value.1);
        assert !Dropped(e, Twins(ds));
      }
    }
  }

  /** `_without_loopback_twins`. */
  method WithoutLoopbackTwins(ds: seq<Descriptor>) returns (kept: seq<Descriptor>)
    ensures kept == Keep(ds, Twins(ds))
  {
    var twins: set<(string, int)> := {};
    for i := 0 to |ds|
      invariant twins == Twins(ds[..i])
    {
      assert ds[..i + 1][..i] == ds[..i];
      if ds[i].serial != "" && ds[i].address.Some? && ds[i].address.value.0 != LOOPBACK {
        twins := twins + {(ds[i].serial, ds[i].address.value.1)};
      }
    }
    assert ds[..|ds|] == ds;
    kept := [];
    for i := 0 to |ds|
      invariant kept == Keep(ds[..i], twins)
    {
      assert ds[..i + 1][..i] == ds[..i];
      if !Dropped(ds[i], twins) {
        kept := kept + [ds[i]];
      }
    }
  }
  // ----- the whole call -------------------------------------------------------------------

  datatype SlowPass = NotNeeded | Skipped | Ran(patience: real)

  /** The caller's `coverage` dictionary. */
  class Coverage {
    var hosts: nat
    var pairs: nat
    var slowPass: SlowPass
    var run: nat
    var skipped: nat
    var cutOff: nat
    var cutShort: bool

    constructor () {
      hosts, pairs, slowPass, run, skipped, cutOff, cutShort := 0, 0, NotNeeded, 0, 0, 0, false;
    }

    method Clear()
      modifies this
      ensures hosts == 0 && pairs == 0 && slowPass == NotNeeded && run == 0 && skipped == 0 && cutOff == 0 && !cutShort
    {
      hosts, pairs, slowPass, run, skipped, cutOff, cutShort := 0, 0, NotNeeded, 0, 0, 0, false;
    }
  }

  /** What the network would do: to the connects of each pass, and to the probes; and the
      order in which the connects of a list come back. */
  datatype Network = Network(
    fast: Pair -> Attempt, slow: Pair -> Attempt, probe: Target -> Handshake, order: seq<Pair> -> seq<Pair>)

  function Completed(net: Network, pairs: seq<Pair>): (completed: seq<Pair>)
    ensures multiset(completed) == multiset(pairs)
  {
    if multiset(net.order(pairs)) == multiset(pairs) then net.order(pairs) else pairs
  }

  datatype Settings = Settings(timeout: real, probeTimeout: real, slowTimeout: real, budget: Option<real>)

  function AllPairs(hosts: seq<string>, ports: seq<int>): seq<Pair> {
    if hosts == [] then [] else seq(|ports|, i requires 0 <= i < |ports| => (hosts[0], ports[i])) + AllPairs(hosts[1..], ports)
  }

  function TargetsOf(pair: Pair, adapters: int -> seq<Adapter>): seq<Target> {
    var names := adapters(pair.1);
    seq(|names|, i requires 0 <= i < |names| => Target(pair.0, pair.1, names[i]))
  }

  function AllTargets(pairs: seq<Pair>, adapters: int -> seq<Adapter>): seq<Target> {
    if pairs == [] then [] else TargetsOf(pairs[0], adapters) + AllTargets(pairs[1..], adapters)
  }

  /** The second pass, or why there was none. */
  function SlowPassFor(st: Settings, elapsed: real, silent: nat): SlowPass {
    if silent == 0 || st.slowTimeout <= st.timeout then NotNeeded
    else
      var patience := Patience(LeftOf(st.budget, elapsed), silent, st.slowTimeout);
      if WorthRunning(patience, st.timeout) then Ran(patience) else Skipped
  }

  predicate CutShort(pass: SlowPass, st: Settings) {
    pass.Skipped? || (pass.Ran? && pass.patience < st.slowTimeout)
  }

  /** `_probe_all`. */
  method RunProbes(start: real, pairs: seq<Pair>, adapters: int -> seq<Adapter>, net: Target -> Handshake,
                   deadline: Option<real>, probeTimeout: real)
    returns (done: Probed)
    ensures done == ProbeAll(Probed(start, {}, 0, 0, 0, []), AllTargets(pairs, adapters), net, deadline, probeTimeout)
  {
    done := Probed(start, {}, 0, 0, 0, []);
    ghost var all := ProbeAll(done, AllTargets(pairs, adapters), net, deadline, probeTimeout);
    assert pairs[0..] == pairs;
    for i := 0 to |pairs|
      invariant ProbeAll(done, AllTargets(pairs[i..], adapters), net, deadline, probeTimeout) == all
    {
      assert pairs[i..] == [pairs[i]] + pairs[i + 1..];
      ghost var rest := AllTargets(pairs[i + 1..], adapters);
      var targets := TargetsOf(pairs[i], adapters);
      assert targets[0..] == targets;
      for j := 0 to |targets|
        invariant ProbeAll(done, targets[j..] + rest, net, deadline, probeTimeout) == all
      {
        assert targets[j..] + rest == [targets[j]] + (targets[j + 1..] + rest);
        done := RunProbe(done, targets[j], net, deadline, probeTimeout);
      }
      assert [] + rest == rest;
    }
  }

  /** One turn of its loop. */
  method RunProbe(s: Probed, target: Target, net: Target -> Handshake, deadline: Option<real>, probeTimeout: real)
    returns (t: Probed)
    ensures t == Probe(s, target, net, deadline, probeTimeout)
  {
    t := s;
    if target in s.seen {
      return;
    }
    t := t.(seen := t.seen + {target});
    var left := LeftOf(deadline, t.now);
    if left.Some? && left.value <= probeTimeout {
      t := t.(skipped := t.skipped + 1);
      return;
    }
    var handshake, ceiling := net(target), PROBE_CEILING;
    if left.Some? && left.value < ceiling {
      ceiling := left.value;
    }
    if handshake.duration > ceiling {
      t := t.(now := t.now + ceiling, cut := t.cut + 1);
      return;
    }
    t := t.(run := t.run + 1);
    if handshake.duration > 0.0 {
      t := t.(now := t.now + handshake.duration);
    }
    if handshake.answer.Some? {
      t := t.(found := t.found + [handshake.answer.value]);
    }
  }

  /** The addresses a call finds open, and how the second pass went. */
  function FastOpen(pairs: seq<Pair>, st: Settings, net: Network): seq<Pair> {
    Filter(Completed(net, pairs), net.fast, st.timeout, true)
  }

  function FastSilent(pairs: seq<Pair>, st: Settings, net: Network): seq<Pair> {
    Filter(Completed(net, pairs), net.fast, st.timeout, false)
  }

  function SlowOpen(silent: seq<Pair>, pass: SlowPass, net: Network): seq<Pair> {
    if pass.Ran? then Filter(Completed(net, silent), net.slow, pass.patience, true) else []
  }

  /** The second pass over the addresses that kept silent. */
  method SweepAgain(silent: seq<Pair>, st: Settings, net: Network, fastEnd: real, patience: real)
    returns (slowOpen: seq<Pair>, end: real)
    requires silent != [] && 0.0 <= st.timeout <= patience
    requires patience == Patience(LeftOf(st.budget, fastEnd), |silent|, st.slowTimeout)
    ensures slowOpen == Filter(Completed(net, silent), net.slow, patience, true)
    ensures fastEnd <= end && (st.budget.Some? ==> end <= st.budget.value - PROBE_RESERVE)
  {
    var answered, stillSilent, elapsed := SweepOpenPairs(silent, net.slow, patience, Completed(net, silent));
    slowOpen := answered;
    end := fastEnd + elapsed;
    if st.budget.Some? {
      SlowPassLeavesTheReserve(st.budget.value - fastEnd, |silent|, st.slowTimeout);
    }
  }

  /** The call without its probes: both passes, and the report on them. */
  method SweepTwice(pairs: seq<Pair>, st: Settings, net: Network, coverage: Coverage)
    returns (reached: seq<Pair>, fastEnd: real, end: real)
    requires st.timeout >= 0.0
    modifies coverage`slowPass, coverage`cutShort
    ensures fastEnd <= Allowed(|pairs|, WORKERS, st.timeout) && fastEnd <= end
    ensures coverage.slowPass == SlowPassFor(st, fastEnd, |FastSilent(pairs, st, net)|)
    ensures reached == FastOpen(pairs, st, net) + SlowOpen(FastSilent(pairs, st, net), coverage.slowPass, net)
    ensures coverage.cutShort == CutShort(coverage.slowPass, st)
    ensures st.budget.Some? ==> end == fastEnd || end <= st.budget.value - PROBE_RESERVE
  {
    var silent: seq<Pair>;
    reached, silent, fastEnd := SweepOpenPairs(pairs, net.fast, st.timeout, Completed(net, pairs));
    end := fastEnd;
    coverage.slowPass, coverage.cutShort := NotNeeded, false;
    if silent != [] && st.slowTimeout > st.timeout {
      var patience := Patience(LeftOf(st.budget, fastEnd), |silent|, st.slowTimeout);
      if patience < st.timeout + SLOW_PASS_MIN_MARGIN {
        coverage.slowPass, coverage.cutShort := Skipped, true;
      } else {
        coverage.slowPass, coverage.cutShort := Ran(patience), patience < st.slowTimeout;
        var slowOpen: seq<Pair>;
        slowOpen, end := SweepAgain(silent, st, net, fastEnd, patience);
        reached := reached + slowOpen;
      }
    }
  }

  /** What the probes of the open addresses come to, begun at `start`. */
  function ProbesOf(start: real, reached: seq<Pair>, adapters: int -> seq<Adapter>, st: Settings, net: Network): Probed {
    ProbeAll(Probed(start, {}, 0, 0, 0, []), AllTargets(reached, adapters), net.probe, st.budget, st.probeTimeout)
  }

  lemma NothingToProbe(start: real, reached: seq<Pair>, adapters: int -> seq<Adapter>, st: Settings, net: Network)
    requires reached == []
    ensures var done := ProbesOf(start, reached, adapters, st, net);
            && done == Probed(start, {}, 0, 0, 0, []) && Keep(done.found, Twins(done.found)) == []
            && Distinct(AllTargets(reached, adapters)) == {}
  {
  }

  /** Every distinct target of the open addresses was probed, cut off or skipped. */
  lemma ProbesAreAccounted(start: real, reached: seq<Pair>, adapters: int -> seq<Adapter>, st: Settings, net: Network)
    requires st.probeTimeout >= 0.0
    ensures var done := ProbesOf(start, reached, adapters, st, net);
            && done.run + done.skipped + done.cut == |Distinct(AllTargets(reached, adapters))|
            && |done.found| <= done.run
            && (st.budget.Some? ==> done.now <= Bound(st.budget, start))
  {
    var s := Probed(start, {}, 0, 0, 0, []);
    ProbesKeepTheDeadline(s, AllTargets(reached, adapters), net.probe, st.budget, st.probeTimeout);
    assert s.seen + Distinct(AllTargets(reached, adapters)) == Distinct(AllTargets(reached, adapters));
  }

  /** The probes, and the report on them. */
  method ProbeReached(start: real, reached: seq<Pair>, adapters: int -> seq<Adapter>, st: Settings, net: Network, coverage: Coverage)
    returns (found: seq<Descriptor>, end: real)
    requires st.probeTimeout >= 0.0
    modifies coverage`run, coverage`skipped, coverage`cutOff, coverage`cutShort
    ensures var done := ProbesOf(start, reached, adapters, st, net);
            found == Keep(done.found, Twins(done.found)) && end == done.now && coverage.run == done.run && coverage.cutOff == done.cut
    ensures coverage.run + coverage.skipped == |Distinct(AllTargets(reached, adapters))| && coverage.cutOff <= coverage.skipped
    ensures coverage.cutShort == (old(coverage.cutShort) || coverage.skipped > 0)
    ensures st.budget.Some? ==> end <= Bound(st.budget, start)
  {
    ProbesAreAccounted(start, reached, adapters, st, net);
    var done := RunProbes(start, reached, adapters, net.probe, st.budget, st.probeTimeout);
    coverage.run, coverage.skipped, coverage.cutOff := done.run, done.skipped + done.cut, done.cut;
    if coverage.skipped > 0 {
      coverage.cutShort := true;
    }
    end := done.now;
    found := WithoutLoopbackTwins(done.found);
  }

  function WithLoopback(lan: seq<string>): seq<string> {
    if LOOPBACK in lan then lan else [LOOPBACK] + lan
  }

  /** An address is reached exactly when it answers the fast pass, or keeps silent then and
      answers a slow pass that was run: no silent address goes without its second try. */
  lemma ReachedExactly(pairs: seq<Pair>, st: Settings, net: Network, pass: SlowPass, p: Pair)
    ensures p in FastOpen(pairs, st, net) + SlowOpen(FastSilent(pairs, st, net), pass, net) <==>
              && p in pairs
              && (Answers(net.fast(p), st.timeout) || (pass.Ran? && Answers(net.slow(p), pass.patience)))
  {
    var silent := FastSilent(pairs, st, net);
    FilterHolds(Completed(net, pairs), net.fast, st.timeout, true);
    FilterHolds(Completed(net, pairs), net.fast, st.timeout, false);
    assert p in pairs <==> p in multiset(pairs);
    assert p in Completed(net, pairs) <==> p in multiset(Completed(net, pairs));
    if pass.Ran? {
      FilterHolds(Completed(net, silent), net.slow, pass.patience, true);
      assert p in silent <==> p in multiset(silent);
      assert p in Completed(net, silent) <==> p in multiset(Completed(net, silent));
    }
  }

  /** The sweep of all addresses, with its part of the report. */
  method SweepAddresses(hosts: nat, pairs: seq<Pair>, st: Settings, net: Network, coverage: Coverage)
    returns (reached: seq<Pair>, fastEnd: real, end: real)
    requires st.timeout >= 0.0
    modifies coverage
    ensures coverage.hosts == hosts && coverage.pairs == |pairs|
    ensures coverage.slowPass == SlowPassFor(st, fastEnd, |FastSilent(pairs, st, net)|)
    ensures reached == FastOpen(pairs, st, net) + SlowOpen(FastSilent(pairs, st, net), coverage.slowPass, net)
    ensures fastEnd <= Allowed(|pairs|, WORKERS, st.timeout) && fastEnd <= end
    ensures st.budget.Some? ==> end == fastEnd || end <= st.budget.value - PROBE_RESERVE
    ensures coverage.run == 0 && coverage.skipped == 0 && coverage.cutOff == 0
    ensures coverage.cutShort == CutShort(coverage.slowPass, st)
  {
    coverage.Clear();
    coverage.hosts, coverage.pairs := hosts, |pairs|;
    reached, fastEnd, end := SweepTwice(pairs, st, net, coverage);
  }

  /** `discover_network_terminals`, started at moment zero. With a budget it ends by the
      deadline, or with its fast pass if that took longer; and the report counts every
      distinct probe exactly once. */
  method DiscoverNetworkTerminals(
    lan: seq<string>, ports: seq<int>, adapters: int -> seq<Adapter>, st: Settings, net: Network, coverage: Coverage)
    returns (found: seq<Descriptor>, fastEnd: real, sweepEnd: real, end: real, reached: seq<Pair>)
    requires st.timeout >= 0.0 && st.probeTimeout >= 0.0
    modifies coverage
    ensures var pairs := AllPairs(WithLoopback(lan), ports);
            && coverage.hosts == |WithLoopback(lan)| && coverage.pairs == |pairs|
            && coverage.slowPass == SlowPassFor(st, fastEnd, |FastSilent(pairs, st, net)|)
            && reached == FastOpen(pairs, st, net) + SlowOpen(FastSilent(pairs, st, net), coverage.slowPass, net)
    ensures fastEnd <= Allowed(coverage.pairs, WORKERS, st.timeout)
    ensures st.budget.Some? ==> end <= Bound(st.budget, fastEnd)
    ensures var done := ProbesOf(sweepEnd, reached, adapters, st, net); found == Keep(done.found, Twins(done.found)) && end == done.now
    ensures coverage.run + coverage.skipped == |Distinct(AllTargets(reached, adapters))| && coverage.cutOff <= coverage.skipped
    ensures coverage.cutShort <==> CutShort(coverage.slowPass, st) || coverage.skipped > 0
  {
    var hosts := WithLoopback(lan);
    reached, fastEnd, sweepEnd := SweepAddresses(|hosts|, AllPairs(hosts, ports), st, net, coverage);
    if reached == [] {
      NothingToProbe(sweepEnd, reached, adapters, st, net);
      return [], fastEnd, sweepEnd, sweepEnd, reached;
    }
    found, end := ProbeReached(sweepEnd, reached, adapters, st, net, coverage);
  }
}
