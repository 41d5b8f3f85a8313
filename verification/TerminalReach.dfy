/** What a discovery tries, with how much patience, and in which order it answers, said in
    seconds, addresses and ports. */
module TerminalReach {
  import opened Options
  import opened TerminalSweep
  import opened TerminalDiscovery

  // ----- the second pass -----------------------------------------------------------

  lemma RoundsOf(silent: nat)
    requires silent > 0
    ensures Batches(silent, WORKERS) == (silent + 255) / 256 && (silent + 255) / 256 >= 1
  {
    BatchesRoundsUp(silent);
  }

  lemma Shared(total: real, rounds: nat, share: real)
    requires rounds >= 1
    ensures share <= total / (rounds as real) <==> rounds as real * share <= total
    ensures share == total / (rounds as real) ==> rounds as real * share == total
  {
    var n := rounds as real;
    assert (total / n) * n == total;
    if share <= total / n {
      assert share * n <= (total / n) * n;
    }
    if n * share <= total {
      assert (n * share) / n <= total / n;
      assert (n * share) / n == share;
    }
  }

  /** Where an address kept silent and the slow timeout is above the fast one, a second pass
      runs exactly when a second more than the fast timeout is within the slow one and, given a
      budget, that much for each round of 256 addresses leaves nine seconds of it. Its patience
      is then as long as the slow timeout and the budget let it be. */
  lemma SecondPassExactly(st: Settings, elapsed: real, silent: nat)
    ensures var pass, needed := SlowPassFor(st, elapsed, silent), silent > 0 && st.slowTimeout > st.timeout;
            var rounds := ((silent + 255) / 256) as real;
            && (pass == NotNeeded <==> !needed)
            && (pass.Ran? <==>
                  && needed && st.slowTimeout >= st.timeout + 1.0
                  && (st.budget.Some? ==> elapsed + rounds * (st.timeout + 1.0) <= st.budget.value - 9.0))
            && (pass.Ran? ==>
                  && pass.patience <= st.slowTimeout
                  && (st.budget.None? ==> pass.patience == st.slowTimeout)
                  && (st.budget.Some? ==>
                        && elapsed + rounds * pass.patience <= st.budget.value - 9.0
                        && (pass.patience == st.slowTimeout || elapsed + rounds * pass.patience == st.budget.value - 9.0)))
  {
    if silent > 0 && st.slowTimeout > st.timeout && st.budget.Some? {
      RoundsOf(silent);
      var total, rounds := st.budget.value - elapsed - 9.0, (silent + 255) / 256;
      var patience := Patience(LeftOf(st.budget, elapsed), silent, st.slowTimeout);
      Shared(total, rounds, st.timeout + 1.0);
      Shared(total, rounds, patience);
    }
  }

  /** The answer is marked as cut short for want of a second pass, or of its whole patience. */
  lemma CutShortExactly(st: Settings, elapsed: real, silent: nat)
    ensures CutShort(SlowPassFor(st, elapsed, silent), st) <==>
              && silent > 0 && st.slowTimeout > st.timeout
              && (|| st.slowTimeout < st.timeout + 1.0
                  || (st.budget.Some? &&
                        elapsed + ((silent + 255) / 256) as real * st.slowTimeout > st.budget.value - 9.0))
  {
    SecondPassExactly(st, elapsed, silent);
    if silent > 0 && st.slowTimeout > st.timeout && st.budget.Some? {
      RoundsOf(silent);
      Shared(st.budget.value - elapsed - 9.0, (silent + 255) / 256, st.slowTimeout);
    }
  }

  // ----- what is tried ---------------------------------------------------------------

  /** This machine first, unless it is among the addresses of the network anyway. */
  lemma ThisMachineToo(lan: seq<string>)
    ensures "127.0.0.1" in WithLoopback(lan)
    ensures |WithLoopback(lan)| == |lan| + (if "127.0.0.1" in lan then 0 else 1)
    ensures forall h :: h in WithLoopback(lan) <==> h in lan || h == "127.0.0.1"
    ensures WithLoopback(lan)[0] == if "127.0.0.1" in lan then lan[0] else "127.0.0.1"
  {
  }

  lemma AtOneHost(i: nat, j: nat, n: nat)
    requires i > 0 && j < n
    ensures i * n + j == n + ((i - 1) * n + j) && (i - 1) * n + j >= 0
  {
    assert i * n == n + (i - 1) * n;
  }

  /** Every port of every host, host by host. */
  lemma {:induction false} EveryPortOfEveryHost(hosts: seq<string>, ports: seq<int>, i: nat, j: nat)
    requires i < |hosts| && j < |ports|
    ensures |AllPairs(hosts, ports)| == |hosts| * |ports|
    ensures i * |ports| + j < |AllPairs(hosts, ports)| && AllPairs(hosts, ports)[i * |ports| + j] == (hosts[i], ports[j])
    decreases |hosts|
  {
    PairsCount(hosts, ports);
    if i > 0 {
      AtOneHost(i, j, |ports|);
      EveryPortOfEveryHost(hosts[1..], ports, i - 1, j);
    } else {
      assert 0 * |ports| + j == j;
    }
  }

  lemma {:induction false} PairsCount(hosts: seq<string>, ports: seq<int>)
    ensures |AllPairs(hosts, ports)| == |hosts| * |ports|
    decreases |hosts|
  {
    if hosts != [] {
      PairsCount(hosts[1..], ports);
      assert |hosts| * |ports| == |ports| + (|hosts| - 1) * |ports|;
    }
  }

  /** An open port is probed with the adapters that speak on it, and with no others. */
  lemma {:induction false} ProbedExactly(pairs: seq<Pair>, adapters: int -> seq<Adapter>, t: Target)
    ensures t in AllTargets(pairs, adapters) <==> (t.host, t.port) in pairs && t.adapter in adapters(t.port)
    decreases |pairs|
  {
    if pairs != [] {
      ProbedExactly(pairs[1..], adapters, t);
      AtOnePair(pairs[0], adapters, t);
      assert pairs == [pairs[0]] + pairs[1..];
    }
  }

  lemma AtOnePair(pair: Pair, adapters: int -> seq<Adapter>, t: Target)
    ensures t in TargetsOf(pair, adapters) <==> pair == (t.host, t.port) && t.adapter in adapters(t.port)
  {
    var names := adapters(pair.1);
    if pair == (t.host, t.port) && t.adapter in names {
      var i :| 0 <= i < |names| && names[i] == t.adapter;
      assert TargetsOf(pair, adapters)[i] == t;
    }
  }

  // ----- one probe ---------------------------------------------------------------------

  /** A target not met before is left out exactly when no more of the budget is left than a
      probe may want; given up on exactly when it takes more than nine seconds or goes past the
      deadline; and heard out otherwise, its answer put behind those there were. A target met
      before is not tried again. */
  lemma ProbeOutcome(s: Probed, target: Target, net: Target -> Handshake, deadline: Option<real>, probeTimeout: real)
    ensures var t, takes := Probe(s, target, net, deadline, probeTimeout), net(target).duration;
            var leftOut := deadline.Some? && deadline.value - s.now <= probeTimeout;
            var givenUp := !leftOut && (takes > 9.0 || (deadline.Some? && s.now + takes > deadline.value));
            && (target in s.seen ==> t == s)
            && (target !in s.seen ==>
                  && t.skipped == s.skipped + (if leftOut then 1 else 0)
                  && t.cut == s.cut + (if givenUp then 1 else 0)
                  && t.run == s.run + (if leftOut || givenUp then 0 else 1)
                  && (leftOut ==> t.now == s.now)
                  && (givenUp ==>
                        && t.now <= s.now + 9.0
                        && (t.now == s.now + 9.0 || (deadline.Some? && t.now == deadline.value)))
                  && t.found == s.found
                                + (if !leftOut && !givenUp && net(target).answer.Some? then [net(target).answer.value] else []))
  {
    assert s.found + [] == s.found;
  }

  // ----- what is kept ------------------------------------------------------------------

  /** What is kept keeps its order. */
  lemma {:induction false} KeptInOrder(first: seq<Descriptor>, later: seq<Descriptor>, twins: set<(string, int)>)
    ensures Keep(first + later, twins) == Keep(first, twins) + Keep(later, twins)
    decreases |later|
  {
    if later == [] {
      assert first + later == first;
    } else {
      var all, last := first + later, |later| - 1;
      assert all[..|all| - 1] == first + later[..last] && all[|all| - 1] == later[last];
      KeptInOrder(first, later[..last], twins);
    }
  }
}
