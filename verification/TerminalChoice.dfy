/** Which stored copy of a terminal keeps the id after the load pass, and in which order the
    others are put to it, in the copies' own fields: what the operator did first, then the
    later entry. */
module TerminalChoice {
  import opened Options
  import opened Texts
  import opened TerminalIds
  import opened TerminalMerge
  import opened TerminalLoad
  import opened TerminalResolve
  import opened TerminalSurvivor

  /** The bindings the operator has named, among the first so many. */
  function NamedAmong(ms: seq<Merchant>, n: nat): set<int>
    requires n <= |ms|
  {
    set i | 0 <= i < n && !Blank(ms[i].nickname)
  }

  function NamedBindings(ms: seq<Merchant>): nat {
    |NamedAmong(ms, |ms|)|
  }

  lemma {:induction false} NamedLast(ms: seq<Merchant>, last: Merchant)
    ensures Named(ms + [last]) == Named(ms) + if Blank(last.nickname) then 0 else 1
  {
    if ms == [] {
      assert ms + [last] == [last] && [last][1..] == [];
    } else {
      assert (ms + [last])[1..] == ms[1..] + [last];
      NamedLast(ms[1..], last);
    }
  }

  lemma {:induction false} NamedCountsTo(ms: seq<Merchant>, n: nat)
    requires n <= |ms|
    ensures Named(ms[..n]) == |NamedAmong(ms, n)|
  {
    if n > 0 {
      var last := ms[n - 1];
      NamedCountsTo(ms, n - 1);
      NamedLast(ms[..n - 1], last);
      assert ms[..n] == ms[..n - 1] + [last];
      assert NamedAmong(ms, n) == NamedAmong(ms, n - 1) + if Blank(last.nickname) then {} else {n - 1};
    }
  }

  lemma NamedCounts(ms: seq<Merchant>)
    ensures Named(ms) == NamedBindings(ms)
  {
    NamedCountsTo(ms, |ms|);
    assert ms[..|ms|] == ms;
  }

  /** The first copy is rather kept than the second: it has a nickname where the other has none;
      then more named bindings, then more bindings, then a default merchant, then the later
      place in the file. */
  ghost predicate Preferred(a: Copy, b: Copy) {
    var x, y := a.reg, b.reg;
    var alike := Blank(x.nickname) <==> Blank(y.nickname);
    var named := NamedBindings(x.merchants) == NamedBindings(y.merchants);
    var many := |x.merchants| == |y.merchants|;
    var defaults := x.defaultMerchant == "" <==> y.defaultMerchant == "";
    && (Blank(x.nickname) ==> Blank(y.nickname))
    && (alike ==> NamedBindings(x.merchants) >= NamedBindings(y.merchants))
    && (alike && named ==> |x.merchants| >= |y.merchants|)
    && (alike && named && many ==> x.defaultMerchant == "" ==> y.defaultMerchant == "")
    && (alike && named && many && defaults ==> a.position > b.position)
  }

  lemma NotBeforeIsPreferred(a: Copy, b: Copy)
    requires !Before(b, a) && a.position != b.position
    ensures Preferred(a, b)
  {
    NamedCounts(a.reg.merchants);
    NamedCounts(b.reg.merchants);
  }

  /** A copy of the device with this serial and port, stored under an id made of an address. */
  predicate StoredCopy(read: Dict, c: Copy, serial: string, port: int) {
    && c.position < |read.order| && read.order[c.position] == c.key && c.key in read.at && read.at[c.key] == c.reg
    && c.reg.descriptor.serial == serial && c.reg.descriptor.network.Some?
    && var net := c.reg.descriptor.network.value;
       net.port == port && net.host != "" && c.key == Id.Network(net.host, port, serial)
  }

  lemma GroupIsStored(read: Dict, serial: string, port: int, c: Copy)
    requires Sound(read) && serial != ""
    ensures c in Group(read, Id.Network("", port, serial)) <==> StoredCopy(read, c, serial, port)
  {
    var target := Id.Network("", port, serial);
    GroupFromHolds(read, target, 0);
    SortedKeepsCopies(GroupFrom(read, target, 0));
    assert c in Group(read, target) <==> c in multiset(Group(read, target));
    assert c in GroupFrom(read, target, 0) <==> c in multiset(GroupFrom(read, target, 0));
    if c in GroupFrom(read, target, 0) {
      assert CopyOf(read, target, c);
    }
    if StoredCopy(read, c, serial, port) {
      assert Copies(read, read.order[c.position], target);
    }
  }

  lemma PlacesDiffer(read: Dict, serial: string, port: int, i: nat, j: nat)
    requires Sound(read) && serial != "" && i < j < |Group(read, Id.Network("", port, serial))|
    ensures var g := Group(read, Id.Network("", port, serial)); g[i].position != g[j].position
  {
    var target := Id.Network("", port, serial);
    var g := Group(read, target);
    GroupHolds(read, target);
    GroupStands(read, target);
    assert Stands(read, g[i]) && Stands(read, g[j]);
  }

  /** The registrations that are put together, the first being the one that keeps the id. */
  function Merging(read: Dict, target: Id, copies: seq<Copy>): seq<Registration> {
    (if target in read.at then [read.at[target]] else []) + RegsOf(copies)
  }

  /** After the load pass the device's copies stand merged under its own id, in an order that is
      the operator's: each is preferred to every later one. The kind and, where it is set, the
      default terminal are those of the registration already stored under that id or else of the
      first copy. */
  lemma TheCopiesInTheirOrder(file: seq<Registration>, targets: seq<Id>, rank: Rank, serial: string, port: int, some: Copy)
    returns (copies: seq<Copy>)
    requires Targets(ReadFile(file), targets) && serial != "" && StoredCopy(ReadFile(file), some, serial, port)
    ensures forall c :: c in copies <==> StoredCopy(ReadFile(file), c, serial, port)
    ensures forall i, j :: 0 <= i < j < |copies| ==> copies[i] != copies[j] && Preferred(copies[i], copies[j])
    ensures var read, target := ReadFile(file), Id.Network("", port, serial);
            var b, regs := Load(file, targets, rank).regs.at, Merging(read, target, copies);
            && target in b && regs != []
            && b[target].kind == regs[0].kind
            && (regs[0].defaultTerminal != "" ==> b[target].defaultTerminal == regs[0].defaultTerminal)
            && b[target].nickname == FirstNickname(regs)
            && b[target].defaultMerchant == FirstDefault(regs)
  {
    var read, target := ReadFile(file), Id.Network("", port, serial);
    ReadKnows(Dict([], map[]), file);
    copies := Group(read, target);
    forall c
      ensures c in copies <==> StoredCopy(read, c, serial, port)
    {
      GroupIsStored(read, serial, port, c);
    }
    assert some in copies;
    SortedInOrder(GroupFrom(read, target, 0));
    forall i, j | 0 <= i < j < |copies|
      ensures copies[i] != copies[j] && Preferred(copies[i], copies[j])
    {
      PlacesDiffer(read, serial, port, i, j);
      NotBeforeIsPreferred(copies[i], copies[j]);
    }
    MergeLosesNothing(file, targets, rank, target, ("", ""));
    SurvivorKeepsDefaultTerminal(file, targets, rank, target);
  }

  lemma SurvivorKeepsDefaultTerminal(file: seq<Registration>, targets: seq<Id>, rank: Rank, target: Id)
    requires Targets(ReadFile(file), targets) && Group(ReadFile(file), target) != []
    ensures var b, regs := Load(file, targets, rank).regs.at, MergeOrder(ReadFile(file), target);
            target in b && (regs[0].defaultTerminal != "" ==> b[target].defaultTerminal == regs[0].defaultTerminal)
  {
    SurvivorIsTheMerge(file, targets, rank, target);
    var regs := MergeOrder(ReadFile(file), target);
    NicknameAndDefaultComeFirstToLast(regs[0], regs[1..]);
  }

  // ----- the file and the dictionary ----------------------------------------------------

  predicate DistinctIds(file: seq<Registration>) {
    forall i, j :: 0 <= i < j < |file| ==> file[i].descriptor.id != file[j].descriptor.id
  }

  /** In a file that names no id twice, as every saved one does, places are those of the file. */
  lemma {:induction false} ReadInFileOrder(d: Dict, file: seq<Registration>)
    requires DistinctIds(file) && forall i :: 0 <= i < |file| ==> file[i].descriptor.id !in d.at
    ensures var t := ReadInto(d, file);
            && |t.order| == |d.order| + |file| && d.order <= t.order
            && (forall k :: k in d.at ==> k in t.at && t.at[k] == d.at[k])
            && forall i :: 0 <= i < |file| ==>
                 t.order[|d.order| + i] == file[i].descriptor.id && file[i].descriptor.id in t.at && t.at[file[i].descriptor.id] == file[i]
    decreases |file|
  {
    if file != [] {
      var next, rest := Put(d, file[0].descriptor.id, file[0]), file[1..];
      assert forall i :: 0 <= i < |rest| ==> rest[i] == file[i + 1];
      ReadInFileOrder(next, rest);
      OneReadFirst(d, file, ReadInto(next, rest));
    }
  }

  lemma OneReadFirst(d: Dict, file: seq<Registration>, t: Dict)
    requires file != [] && file[0].descriptor.id !in d.at
    requires var next, rest := Put(d, file[0].descriptor.id, file[0]), file[1..];
             && |t.order| == |next.order| + |rest| && next.order <= t.order
             && (forall k :: k in next.at ==> k in t.at && t.at[k] == next.at[k])
             && forall i :: 0 <= i < |rest| ==>
                  t.order[|next.order| + i] == rest[i].descriptor.id && rest[i].descriptor.id in t.at && t.at[rest[i].descriptor.id] == rest[i]
    ensures |t.order| == |d.order| + |file| && d.order <= t.order
    ensures forall k :: k in d.at ==> k in t.at && t.at[k] == d.at[k]
    ensures forall i :: 0 <= i < |file| ==>
              t.order[|d.order| + i] == file[i].descriptor.id && file[i].descriptor.id in t.at && t.at[file[i].descriptor.id] == file[i]
  {
    var next, rest := Put(d, file[0].descriptor.id, file[0]), file[1..];
    assert t.order[|d.order|] == next.order[|d.order|];
    forall i | 0 <= i < |file|
      ensures t.order[|d.order| + i] == file[i].descriptor.id && file[i].descriptor.id in t.at && t.at[file[i].descriptor.id] == file[i]
    {
      if i > 0 {
        assert file[i] == rest[i - 1];
        assert t.order[|next.order| + (i - 1)] == rest[i - 1].descriptor.id;
      }
    }
  }

  lemma ReadFileInOrder(file: seq<Registration>, i: nat)
    requires DistinctIds(file) && i < |file|
    ensures var read := ReadFile(file);
            && |read.order| == |file| && read.order[i] == file[i].descriptor.id
            && read.order[i] in read.at && read.at[read.order[i]] == file[i]
  {
    ReadInFileOrder(Dict([], map[]), file);
    var read := ReadFile(file);
    assert read.order[0 + i] == file[i].descriptor.id;
  }

  /** The survivor's descriptor is the first copy's, under the device's own id; of the copy that
      stands last in the file it takes the address, if that has another one, and with it the
      caption. */
  lemma SurvivorDescriptor(file: seq<Registration>, targets: seq<Id>, rank: Rank, target: Id)
    requires Targets(ReadFile(file), targets) && Group(ReadFile(file), target) != []
    ensures var read, b := ReadFile(file), Load(file, targets, rank).regs.at;
            var first := MergeOrder(read, target)[0].descriptor;
            target in b && exists c ::
              && c in Candidates(read, target) && Stands(read, c)
              && (forall d :: d in Candidates(read, target) ==> d.position <= c.position)
              && var last, moves := c.reg.descriptor, c.reg.descriptor.network.Some? && c.reg.descriptor.network != first.network;
                 b[target].descriptor ==
                   Descriptor(target, if moves then last.caption else first.caption, first.serial,
                              if moves then last.network else first.network)
  {
    SurvivorIsTheMerge(file, targets, rank, target);
    var read := ReadFile(file);
    ReadKnows(Dict([], map[]), file);
    CandidatesStand(read, target);
    var c := Donor(Candidates(read, target));
    assert c in Candidates(read, target);
  }
}
