/** What is left of the copies of one terminal after the load pass: everything the operator
    named, put together in a fixed order, at the address of the latest copy. */
module TerminalSurvivor {
  import opened Options
  import opened TerminalIds
  import opened TerminalMerge
  import opened TerminalLoad
  import opened TerminalResolve

  function RegsOf(copies: seq<Copy>): seq<Registration> {
    if copies == [] then [] else [copies[0].reg] + RegsOf(copies[1..])
  }

  /** Merging looks neither at the winner's descriptor nor at the ids it remembers. */
  lemma {:induction false} MergeIgnoresIds(winner: Registration, descriptor: Descriptor, known: seq<Id>, losers: seq<Registration>)
    ensures AbsorbAll(winner.(descriptor := descriptor, knownIds := known), losers)
         == AbsorbAll(winner, losers).(descriptor := descriptor, knownIds := known)
    decreases |losers|
  {
    if losers != [] {
      MergeIgnoresIds(Absorb(winner, losers[0]), descriptor, known, losers[1..]);
      assert Absorb(winner.(descriptor := descriptor, knownIds := known), losers[0])
          == Absorb(winner, losers[0]).(descriptor := descriptor, knownIds := known);
    }
  }

  /** Equal but for the ids remembered. */
  predicate Same(a: Registration, b: Registration) {
    a == b.(knownIds := a.knownIds)
  }

  lemma RetireMerges(b: Book, target: Id, c: Copy, rank: Rank)
    requires target in b.regs.at && target != c.key
    ensures var u := Retire(b, target, c, rank);
            && target in u.regs.at
            && Same(u.regs.at[target], Absorb(b.regs.at[target], c.reg))
  {
  }

  lemma {:induction false} RetireAllMerges(b: Book, target: Id, losers: seq<Copy>, rank: Rank)
    requires target in b.regs.at && target !in KeysOf(losers)
    ensures var t := RetireAll(b, target, losers, rank);
            target in t.regs.at && Same(t.regs.at[target], AbsorbAll(b.regs.at[target], RegsOf(losers)))
    decreases |losers|
  {
    if losers != [] {
      var c, rest, u := losers[0], losers[1..], Retire(b, target, losers[0], rank);
      RetireMerges(b, target, c, rank);
      RetireAllMerges(u, target, rest, rank);
      MergeMore(b.regs.at[target], u.regs.at[target], c.reg, RegsOf(rest));
      assert RegsOf(losers) == [c.reg] + RegsOf(rest);
    }
  }

  lemma MergeMore(winner: Registration, merged: Registration, loser: Registration, rest: seq<Registration>)
    requires Same(merged, Absorb(winner, loser))
    ensures AbsorbAll(merged, rest) == AbsorbAll(winner, [loser] + rest).(knownIds := merged.knownIds)
  {
    var absorbed := Absorb(winner, loser);
    assert merged == absorbed.(descriptor := absorbed.descriptor, knownIds := merged.knownIds);
    MergeIgnoresIds(absorbed, absorbed.descriptor, merged.knownIds, rest);
    WinnerKeepsDescriptor(absorbed, rest);
    assert ([loser] + rest)[1..] == rest;
  }

  lemma {:induction false} WinnerKeepsDescriptor(winner: Registration, losers: seq<Registration>)
    ensures AbsorbAll(winner, losers).descriptor == winner.descriptor
    decreases |losers|
  {
    if losers != [] {
      WinnerKeepsDescriptor(Absorb(winner, losers[0]), losers[1..]);
    }
  }

  /** The copies of a group in the order they are merged: what is stored under the target
      already, if anything, then the group as sorted. */
  function MergeOrder(regs: Dict, target: Id): seq<Registration> {
    (if target in regs.at then [regs.at[target]] else []) + RegsOf(Group(regs, target))
  }

  /** Group and incumbent, with their places in the file. */
  function Candidates(regs: Dict, target: Id): seq<Copy> {
    Group(regs, target)
    + (if target in regs.at then [Copy(PositionOf(regs.order, target), target, regs.at[target])] else [])
  }

  /** The registration a group ends up as. */
  ghost predicate Merged(read: Dict, target: Id, reg: Registration)
    requires Candidates(read, target) != [] && MergeOrder(read, target) != []
  {
    var copies, donor := MergeOrder(read, target), Donor(Candidates(read, target)).reg;
    var moved := copies[0].(descriptor := copies[0].descriptor.(id := target));
    Same(reg, AbsorbAll(copies[0], copies[1..]).(descriptor := CarryAddress(moved, donor).descriptor))
  }

  lemma MergedFrom(read: Dict, b: Book, target: Id, rank: Rank, start: Registration, moved: Registration, losers: seq<Copy>)
    requires target in b.regs.at && target !in KeysOf(losers)
    requires Group(read, target) != []
    requires MergeOrder(read, target) == [start] + RegsOf(losers)
    requires moved == start.(descriptor := start.descriptor.(id := target))
    requires Same(b.regs.at[target], CarryAddress(moved, Donor(Candidates(read, target)).reg))
    ensures var t := RetireAll(b, target, losers, rank);
            target in t.regs.at && Merged(read, target, t.regs.at[target])
  {
    var copies := MergeOrder(read, target);
    assert copies[0] == start && copies[1..] == RegsOf(losers);
    RetireAllMerges(b, target, losers, rank);
    var first := b.regs.at[target];
    assert first == start.(descriptor := first.descriptor, knownIds := first.knownIds);
    MergeIgnoresIds(start, first.descriptor, first.knownIds, RegsOf(losers));
  }

  lemma MoveGroupMerges(read: Dict, b: Book, target: Id, rank: Rank)
    requires Group(read, target) != [] && target !in KeysOf(Group(read, target))
    requires target in b.regs.at <==> target in read.at
    requires target in read.at ==> b.regs.at[target] == read.at[target] && read.at[target].descriptor.id == target
    ensures var t := MoveGroup(b, read.order, target, Group(read, target), rank);
            target in t.regs.at && Merged(read, target, t.regs.at[target])
  {
    var group, donor := Group(read, target), Donor(Candidates(read, target)).reg;
    if target in read.at {
      var start := read.at[target];
      MergedFrom(read, Readdress(b, target, donor), target, rank, start, start, group);
    } else {
      var start := group[0].reg;
      assert Candidates(read, target) == group;
      assert RegsOf(group) == [start] + RegsOf(group[1..]);
      var moved := start.(descriptor := start.descriptor.(id := target));
      MergedFrom(read, Readdress(Enthrone(b, target, group[0], rank), target, donor), target, rank, start, moved, group[1..]);
    }
  }

  // ----- the other groups leave it alone ---------------------------------------------------

  /** A target is still as the file had it. */
  ghost predicate Fresh(read: Dict, b: Book, target: Id) {
    && (target in b.regs.at <==> target in read.at)
    && (target in read.at ==> b.regs.at[target] == read.at[target])
  }

  lemma OtherGroup(read: Dict, b: Book, other: Id, rest: seq<Id>, target: Id, rank: Rank)
    requires Sound(read) && Good(read.at, b) && Untouched(read, b, [other] + rest) && other !in rest
    requires other != target && SerialForm(target)
    ensures var t := MoveGroup(b, read.order, other, Group(read, other), rank);
            && (target in t.regs.at <==> target in b.regs.at)
            && (target in t.regs.at ==> t.regs.at[target] == b.regs.at[target])
  {
    var group := Group(read, other);
    GroupHolds(read, other);
    GroupPending(read, b, other, rest);
    if group != [] {
      MoveGroupGood(read.at, b, read.order, other, group, rank);
      assert !Copies(read, target, other);
    }
  }

  lemma {:induction false} OtherGroups(read: Dict, b: Book, targets: seq<Id>, target: Id, rank: Rank)
    requires Sound(read) && Good(read.at, b) && Untouched(read, b, targets) && Distinct(targets)
    requires target !in targets && SerialForm(target)
    ensures var t := MoveGroups(b, read, targets, rank);
            && (target in t.regs.at <==> target in b.regs.at)
            && (target in t.regs.at ==> t.regs.at[target] == b.regs.at[target])
    decreases |targets|
  {
    if targets != [] {
      assert targets == [targets[0]] + targets[1..];
      NextGroup(read, b, targets[0], targets[1..], rank);
      OtherGroup(read, b, targets[0], targets[1..], target, rank);
      OtherGroups(read, MoveGroup(b, read.order, targets[0], Group(read, targets[0]), rank), targets[1..], target, rank);
    }
  }

  lemma GroupTarget(read: Dict, target: Id)
    requires Sound(read) && Group(read, target) != []
    ensures SerialForm(target) && target !in KeysOf(Group(read, target))
  {
    GroupHolds(read, target);
  }

  lemma StillFresh(read: Dict, b: Book, other: Id, rest: seq<Id>, target: Id, rank: Rank)
    requires Sound(read) && Good(read.at, b) && Untouched(read, b, [other] + rest) && other !in rest
    requires other != target && SerialForm(target) && Fresh(read, b, target)
    ensures Fresh(read, MoveGroup(b, read.order, other, Group(read, other), rank), target)
  {
    OtherGroup(read, b, other, rest, target, rank);
  }

  lemma OthersLeaveMerged(read: Dict, b: Book, rest: seq<Id>, target: Id, rank: Rank)
    requires Sound(read) && Good(read.at, b) && Untouched(read, b, rest) && Distinct(rest)
    requires Group(read, target) != [] && target !in rest && SerialForm(target)
    requires target in b.regs.at && Merged(read, target, b.regs.at[target])
    ensures var t := MoveGroups(b, read, rest, rank);
            target in t.regs.at && Merged(read, target, t.regs.at[target])
  {
    OtherGroups(read, b, rest, target, rank);
  }

  lemma {:induction false} GroupsMerge(read: Dict, b: Book, targets: seq<Id>, target: Id, rank: Rank)
    requires Sound(read) && Good(read.at, b) && Untouched(read, b, targets) && Distinct(targets)
    requires target in targets && Group(read, target) != [] && Fresh(read, b, target)
    ensures var t := MoveGroups(b, read, targets, rank);
            target in t.regs.at && Merged(read, target, t.regs.at[target])
    decreases |targets|
  {
    var next, rest := targets[0], targets[1..];
    assert targets == [next] + rest;
    GroupTarget(read, target);
    NextGroup(read, b, next, rest, rank);
    var u := MoveGroup(b, read.order, next, Group(read, next), rank);
    if next == target {
      MoveGroupMerges(read, b, target, rank);
      OthersLeaveMerged(read, u, rest, target, rank);
    } else {
      StillFresh(read, b, next, rest, target, rank);
      GroupsMerge(read, u, rest, target, rank);
    }
  }

  // ----- the results ----------------------------------------------------------------------------

  lemma SurvivorIsTheMerge(file: seq<Registration>, targets: seq<Id>, rank: Rank, target: Id)
    requires Targets(ReadFile(file), targets) && Group(ReadFile(file), target) != []
    ensures var b := Load(file, targets, rank).regs.at;
            target in b && Merged(ReadFile(file), target, b[target])
  {
    var read := ReadFile(file);
    ReadKnows(Dict([], map[]), file);
    IndexedGood(read, rank);
    GroupHolds(read, target);
    assert target in targets;
    GroupsMerge(read, Book(read, Indexed(read, rank)), targets, target, rank);
  }

  /** The survivor has exactly the bindings of all copies; every nickname is the first that
      is not blank, in the order they are merged; so are its own nickname and its default
      merchant; and the kind is the winner's. */
  lemma MergeLosesNothing(file: seq<Registration>, targets: seq<Id>, rank: Rank, target: Id, k: Key)
    requires Targets(ReadFile(file), targets) && Group(ReadFile(file), target) != []
    ensures var b, copies := Load(file, targets, rank).regs.at, MergeOrder(ReadFile(file), target);
            && target in b
            && (HasKey(b[target].merchants, k) <==> SomeHasKey(copies, k))
            && ((forall i :: 1 <= i < |copies| ==> UniqueKeys(copies[i].merchants)) ==>
                  NicknameOf(b[target].merchants, k) == FirstMerchantNickname(copies, k))
            && b[target].nickname == FirstNickname(copies)
            && b[target].defaultMerchant == FirstDefault(copies)
            && b[target].kind == copies[0].kind
  {
    SurvivorIsTheMerge(file, targets, rank, target);
    MergedLosesNothing(ReadFile(file), target, Load(file, targets, rank).regs.at[target], k);
  }

  lemma MergedLosesNothing(read: Dict, target: Id, reg: Registration, k: Key)
    requires Group(read, target) != [] && Merged(read, target, reg)
    ensures var copies := MergeOrder(read, target);
            && (HasKey(reg.merchants, k) <==> SomeHasKey(copies, k))
            && ((forall i :: 1 <= i < |copies| ==> UniqueKeys(copies[i].merchants)) ==>
                  NicknameOf(reg.merchants, k) == FirstMerchantNickname(copies, k))
            && reg.nickname == FirstNickname(copies)
            && reg.defaultMerchant == FirstDefault(copies)
            && reg.kind == copies[0].kind
  {
    var copies := MergeOrder(read, target);
    var winner, losers := copies[0], copies[1..];
    assert copies == [winner] + losers;
    KeysAreTheUnion(winner, losers, k);
    NicknameAndDefaultComeFirstToLast(winner, losers);
    WinnerIsNeverOverwritten(winner, losers, k);
    if forall i :: 1 <= i < |copies| ==> UniqueKeys(copies[i].merchants) {
      assert forall i :: 0 <= i < |losers| ==> losers[i] == copies[i + 1];
      MerchantNicknamesComeFirstToLast(winner, losers, k);
    }
  }

  lemma {:induction false} PositionFound(order: seq<Id>, key: Id)
    requires key in order
    ensures PositionOf(order, key) < |order| && order[PositionOf(order, key)] == key
  {
    if order[0] != key {
      assert order == [order[0]] + order[1..];
      PositionFound(order[1..], key);
    }
  }

  /** The copy stands where it says. */
  predicate Stands(read: Dict, c: Copy) {
    c.position < |read.order| && c.key == read.order[c.position] && c.key in read.at && c.reg == read.at[c.key]
  }

  lemma GroupStands(read: Dict, target: Id)
    ensures forall c :: c in Group(read, target) ==> Stands(read, c)
  {
    GroupFromHolds(read, target, 0);
    SortedKeepsCopies(GroupFrom(read, target, 0));
    forall c | c in Group(read, target)
      ensures Stands(read, c)
    {
      assert c in multiset(Group(read, target));
      assert CopyOf(read, target, c);
    }
  }

  lemma CandidatesStand(read: Dict, target: Id)
    requires Sound(read)
    ensures forall c :: c in Candidates(read, target) ==> Stands(read, c)
  {
    GroupStands(read, target);
    if target in read.at {
      PositionFound(read.order, target);
    }
  }

  /** It is found at the address of the copy that stands last in the file, if that copy has
      one. */
  lemma SurvivorTakesTheLatestAddress(file: seq<Registration>, targets: seq<Id>, rank: Rank, target: Id)
    requires Targets(ReadFile(file), targets) && Group(ReadFile(file), target) != []
    ensures var read, b := ReadFile(file), Load(file, targets, rank).regs.at;
            target in b && exists c ::
              && c in Candidates(read, target)
              && Stands(read, c)
              && (forall d :: d in Candidates(read, target) ==> d.position <= c.position)
              && (c.reg.descriptor.network.Some? ==> b[target].descriptor.network == c.reg.descriptor.network)
  {
    SurvivorIsTheMerge(file, targets, rank, target);
    var read := ReadFile(file);
    ReadKnows(Dict([], map[]), file);
    CandidatesStand(read, target);
    var c := Donor(Candidates(read, target));
    assert c in Candidates(read, target);
  }

  /** Without a registration stored under the id already, no copy of the group is placed
      before the one that keeps the id. */
  lemma WinnerIsFirst(read: Dict, target: Id, i: nat)
    requires target !in read.at && i < |Group(read, target)|
    ensures MergeOrder(read, target) != [] && MergeOrder(read, target)[0] == Group(read, target)[0].reg
    ensures !Before(Group(read, target)[i], Group(read, target)[0])
  {
    SortedInOrder(GroupFrom(read, target, 0));
  }
}
