/** The load pass loses no id: every key and every id a registration remembers goes on
    answering, and answers with the same device when no id is claimed by two of them. */
module TerminalResolve {
  import opened Options
  import opened TerminalIds
  import opened TerminalMerge
  import opened TerminalLoad

  type Store = map<Id, Registration>

  ghost predicate Answers(at: Store, aliases: Aliases, id: Id) {
    id in at || (id in aliases && aliases[id] in at)
  }

  predicate SerialForm(id: Id) {
    id.Network? && id.host == "" && id.serial != ""
  }

  // ----- what claiming a list of ids does to each alias ---------------------------

  predicate Claimed(pasts: seq<Id>, key: Id, id: Id) {
    id in pasts && id != NO_ID && id != key
  }

  lemma {:induction false} RememberAliasesEffect(aliases: Aliases, live: set<Id>, pasts: seq<Id>, key: Id, rank: Rank, id: Id)
    ensures var t := RememberAliases(aliases, live, pasts, key, rank);
            && (!Claimed(pasts, key, id) ==> (id in t <==> id in aliases) && (id in t ==> t[id] == aliases[id]))
            && (Claimed(pasts, key, id) ==>
                  id in t && (t[id] == key || (id in aliases && aliases[id] in live && t[id] == aliases[id])))
    decreases |pasts|
  {
    if pasts != [] {
      RememberAliasesEffect(RememberAlias(aliases, live, pasts[0], key, rank), live, pasts[1..], key, rank, id);
      assert pasts == [pasts[0]] + pasts[1..];
    }
  }

  /** Two registrations that claim one id, whichever comes first in the file, settle it the
      same way: it resolves to the lower of their ids. */
  lemma CollisionsAreSettledTheSameWay(aliases: Aliases, live: set<Id>, past: Id, a: Id, b: Id, rank: Rank)
    requires past !in aliases && a in live && b in live && rank(a) < rank(b)
    ensures Claim(Claim(aliases, live, past, a, rank), live, past, b, rank)[past] == a
    ensures Claim(Claim(aliases, live, past, b, rank), live, past, a, rank)[past] == a
  {
  }

  // ----- who claims an id -----------------------------------------------------------

  /** A device with a serial is that serial and port; anything else is its own entry. */
  datatype Owner = Device(serial: string, port: int) | Entry(key: Id)

  function OwnerOf(key: Id, reg: Registration): Owner {
    if HasSerial(reg) then Device(reg.descriptor.serial, reg.descriptor.network.value.port) else Entry(key)
  }

  /** The ids a registration answers for: its key, the ids it remembers, and for a device
      with a serial the id computed today and the one its address used to give. */
  predicate Claims(key: Id, reg: Registration, id: Id) {
    id == key || id in reg.knownIds || (HasSerial(reg) && (id == CurrentIdOf(reg) || id == LegacyIdOf(reg)))
  }

  ghost predicate Belongs(read: Store, id: Id, owner: Owner) {
    exists k :: k in read && OwnerOf(k, read[k]) == owner && Claims(k, read[k], id)
  }

  /** No id is claimed by two devices. */
  ghost predicate NoIdClaimedTwice(read: Store) {
    forall id, a, b :: Belongs(read, id, a) && Belongs(read, id, b) ==> a == b
  }

  // ----- what the pass maintains ------------------------------------------------------

  /** Only ids their registration remembers point at an address-based key. */
  ghost predicate Backed(at: Store, aliases: Aliases) {
    forall id :: id in aliases && aliases[id] in at ==> SerialForm(aliases[id]) || id in at[aliases[id]].knownIds
  }

  /** Keys and aliases lead to registrations of the device that claims them; an alias may
      point at a serial-based id that some registration is yet to move to. */
  ghost predicate Traced(read: Store, at: Store, aliases: Aliases) {
    && (forall k :: k in at ==> Belongs(read, k, OwnerOf(k, at[k])))
    && (forall id :: id in aliases && aliases[id] in at ==> Belongs(read, id, OwnerOf(aliases[id], at[aliases[id]])))
    && (forall id :: id in aliases && aliases[id] !in at && SerialForm(aliases[id]) ==>
          Belongs(read, id, Device(aliases[id].serial, aliases[id].port)))
  }

  /** The registration under `key` gives way to `target`, which answers for all its ids. */
  ghost predicate Moved(at: Store, aliases: Aliases, at': Store, aliases': Aliases, key: Id, target: Id, pasts: seq<Id>, rank: Rank) {
    && key in at && at'.Keys == at.Keys - {key} + {target} && !SerialForm(key) && SerialForm(target)
    && (forall k :: k in at' && k != target ==> at'[k] == at[k])
    && aliases' == RememberAliases(aliases, at'.Keys, pasts, target, rank)
    && (forall id :: id in pasts <==> id == key || id in at[key].knownIds)
  }

  lemma MovedAnswers(at: Store, aliases: Aliases, at': Store, aliases': Aliases, key: Id, target: Id, pasts: seq<Id>, rank: Rank, id: Id)
    requires Moved(at, aliases, at', aliases', key, target, pasts, rank) && Backed(at, aliases)
    requires id != NO_ID && Answers(at, aliases, id)
    ensures Answers(at', aliases', id)
  {
    RememberAliasesEffect(aliases, at'.Keys, pasts, target, rank, id);
  }

  lemma MovedBacked(at: Store, aliases: Aliases, at': Store, aliases': Aliases, key: Id, target: Id, pasts: seq<Id>, rank: Rank)
    requires Moved(at, aliases, at', aliases', key, target, pasts, rank) && Backed(at, aliases)
    ensures Backed(at', aliases')
  {
    forall id | id in aliases' && aliases'[id] in at'
      ensures SerialForm(aliases'[id]) || id in at'[aliases'[id]].knownIds
    {
      RememberAliasesEffect(aliases, at'.Keys, pasts, target, rank, id);
    }
  }

  lemma MovedTraced(read: Store, at: Store, aliases: Aliases, at': Store, aliases': Aliases, key: Id, target: Id, pasts: seq<Id>, rank: Rank)
    requires Moved(at, aliases, at', aliases', key, target, pasts, rank) && Traced(read, at, aliases)
    requires key in read && read[key] == at[key] && StoredUnderLegacyId(key, read[key]) && CurrentIdOf(read[key]) == target
    requires OwnerOf(target, at'[target]) == OwnerOf(key, at[key])
    requires target in at ==> OwnerOf(target, at[target]) == OwnerOf(key, at[key])
    ensures Traced(read, at', aliases')
  {
    var owner := OwnerOf(key, at[key]);
    forall id | Claims(key, at[key], id)
      ensures Belongs(read, id, owner)
    {
    }
    forall id | id in aliases' && aliases'[id] in at'
      ensures Belongs(read, id, OwnerOf(aliases'[id], at'[aliases'[id]]))
    {
      RememberAliasesEffect(aliases, at'.Keys, pasts, target, rank, id);
      if Claimed(pasts, target, id) {
        assert Belongs(read, id, owner);
      }
    }
    forall id | id in aliases' && aliases'[id] !in at' && SerialForm(aliases'[id])
      ensures Belongs(read, id, Device(aliases'[id].serial, aliases'[id].port))
    {
      RememberAliasesEffect(aliases, at'.Keys, pasts, target, rank, id);
    }
  }

  // ----- one copy -----------------------------------------------------------------------

  ghost predicate Good(read: Store, b: Book) {
    && Sound(b.regs)
    && Backed(b.regs.at, b.aliases)
    && (NoIdClaimedTwice(read) ==> Traced(read, b.regs.at, b.aliases))
  }

  /** A copy as it was read, still where it was. */
  ghost predicate Pending(read: Store, b: Book, target: Id, c: Copy) {
    && c.key in read && read[c.key] == c.reg && StoredUnderLegacyId(c.key, c.reg) && CurrentIdOf(c.reg) == target
    && c.key in b.regs.at && b.regs.at[c.key] == c.reg
  }

  /** The ids the file names: its keys and what its registrations remember. */
  ghost predicate Tracked(at: Store, id: Id) {
    id in at || exists k :: k in at && id in at[k].knownIds
  }

  /** Nothing that answered stops answering, and nothing the file names is forgotten. */
  ghost predicate StillAnswers(b: Book, t: Book) {
    && (forall id :: id != NO_ID && Answers(b.regs.at, b.aliases, id) ==> Answers(t.regs.at, t.aliases, id))
    && (forall id :: id != NO_ID && Tracked(b.regs.at, id) ==> Tracked(t.regs.at, id))
  }

  /** What moved is remembered where it moved to. */
  lemma MovedTracked(at: Store, at': Store, key: Id, target: Id, id: Id)
    requires key in at && target in at' && id != NO_ID && Tracked(at, id)
    requires at'.Keys == at.Keys - {key} + {target}
    requires forall k :: k in at' && k != target ==> at'[k] == at[k]
    requires forall x :: x != NO_ID && x != target && (x == key || x in at[key].knownIds) ==> x in at'[target].knownIds
    requires target in at ==> forall x :: x in at[target].knownIds ==> x in at'[target].knownIds
    ensures Tracked(at', id)
  {
    if id == target {
    } else if id == key || id in at[key].knownIds {
      assert id in at'[target].knownIds;
    } else if id !in at {
      var k :| k in at && id in at[k].knownIds;
      assert k in at' && id in at'[k].knownIds;
    }
  }

  lemma {:induction false} RememberAllKnownHolds(known: seq<Id>, pasts: seq<Id>, key: Id)
    ensures forall id :: id in RememberAllKnown(known, pasts, key) <==> id in known || Claimed(pasts, key, id)
    decreases |pasts|
  {
    if pasts != [] {
      RememberedKnown(known, pasts[0], key);
      RememberAllKnownHolds(RememberKnown(known, pasts[0], key), pasts[1..], key);
      assert pasts == [pasts[0]] + pasts[1..];
    }
  }

  /** Under no double claim, what is stored under a copy's target is the copy's own device. */
  lemma TargetIsTheSameDevice(read: Store, b: Book, target: Id, c: Copy)
    requires Good(read, b) && NoIdClaimedTwice(read) && Pending(read, b, target, c) && target in b.regs.at
    ensures OwnerOf(target, b.regs.at[target]) == OwnerOf(c.key, c.reg)
  {
    assert Claims(c.key, read[c.key], target);
    assert Belongs(read, target, OwnerOf(c.key, c.reg));
    assert Belongs(read, target, OwnerOf(target, b.regs.at[target]));
  }

  lemma {:induction false} RememberedKnown(known: seq<Id>, past: Id, key: Id)
    ensures past != NO_ID && past != key ==> forall id :: id in RememberKnown(known, past, key) <==> id in known || id == past
    ensures past == NO_ID || past == key ==> RememberKnown(known, past, key) == known
  {
  }

  lemma EnthroneMoves(read: Store, b: Book, target: Id, c: Copy, rank: Rank)
    requires Pending(read, b, target, c) && target !in b.regs.at
    ensures var t := Enthrone(b, target, c, rank);
            var pasts := [c.key] + RememberKnown(c.reg.knownIds, c.key, target);
            && Moved(b.regs.at, b.aliases, t.regs.at, t.aliases, c.key, target, pasts, rank)
            && OwnerOf(target, t.regs.at[target]) == OwnerOf(c.key, c.reg)
  {
    var pasts := [c.key] + RememberKnown(c.reg.knownIds, c.key, target);
    RememberedKnown(c.reg.knownIds, c.key, target);
    var t := Enthrone(b, target, c, rank);
    assert t.regs.at.Keys == b.regs.at.Keys - {c.key} + {target};
    assert forall id :: id in pasts <==> id == c.key || id in RememberKnown(c.reg.knownIds, c.key, target);
  }

  lemma EnthroneSound(read: Store, b: Book, target: Id, c: Copy, rank: Rank)
    requires Sound(b.regs)
    ensures Sound(Enthrone(b, target, c, rank).regs)
  {
    PopSound(b.regs, c.key);
    var known := RememberKnown(c.reg.knownIds, c.key, target);
    PutSound(Pop(b.regs, c.key), target,
             c.reg.(descriptor := c.reg.descriptor.(id := target), knownIds := Without(known, target)));
  }

  lemma EnthroneTracks(read: Store, b: Book, target: Id, c: Copy, rank: Rank, id: Id)
    requires Pending(read, b, target, c) && target !in b.regs.at && id != NO_ID && Tracked(b.regs.at, id)
    ensures Tracked(Enthrone(b, target, c, rank).regs.at, id)
  {
    EnthroneMoves(read, b, target, c, rank);
    var known := RememberKnown(c.reg.knownIds, c.key, target);
    RememberedKnown(c.reg.knownIds, c.key, target);
    WithoutKeepsOthers(known, target);
    MovedTracked(b.regs.at, Enthrone(b, target, c, rank).regs.at, c.key, target, id);
  }

  lemma RetireTracks(read: Store, b: Book, target: Id, c: Copy, rank: Rank, id: Id)
    requires Pending(read, b, target, c) && target in b.regs.at && id != NO_ID && Tracked(b.regs.at, id)
    ensures Tracked(Retire(b, target, c, rank).regs.at, id)
  {
    RetireMoves(read, b, target, c, rank);
    RememberAllKnownHolds(b.regs.at[target].knownIds, [c.key] + c.reg.knownIds, target);
    MovedTracked(b.regs.at, Retire(b, target, c, rank).regs.at, c.key, target, id);
  }

  lemma EnthroneGood(read: Store, b: Book, target: Id, c: Copy, rank: Rank)
    requires Good(read, b) && Pending(read, b, target, c) && target !in b.regs.at
    ensures Good(read, Enthrone(b, target, c, rank)) && StillAnswers(b, Enthrone(b, target, c, rank))
  {
    var t := Enthrone(b, target, c, rank);
    var pasts := [c.key] + RememberKnown(c.reg.knownIds, c.key, target);
    EnthroneSound(read, b, target, c, rank);
    EnthroneMoves(read, b, target, c, rank);
    MovedBacked(b.regs.at, b.aliases, t.regs.at, t.aliases, c.key, target, pasts, rank);
    if NoIdClaimedTwice(read) {
      MovedTraced(read, b.regs.at, b.aliases, t.regs.at, t.aliases, c.key, target, pasts, rank);
    }
    forall id | id != NO_ID && Answers(b.regs.at, b.aliases, id)
      ensures Answers(t.regs.at, t.aliases, id)
    {
      MovedAnswers(b.regs.at, b.aliases, t.regs.at, t.aliases, c.key, target, pasts, rank, id);
    }
    forall id | id != NO_ID && Tracked(b.regs.at, id)
      ensures Tracked(t.regs.at, id)
    {
      EnthroneTracks(read, b, target, c, rank, id);
    }
  }

  lemma RetireMoves(read: Store, b: Book, target: Id, c: Copy, rank: Rank)
    requires Pending(read, b, target, c) && target in b.regs.at
    ensures var t := Retire(b, target, c, rank);
            && Moved(b.regs.at, b.aliases, t.regs.at, t.aliases, c.key, target, [c.key] + c.reg.knownIds, rank)
            && OwnerOf(target, t.regs.at[target]) == OwnerOf(target, b.regs.at[target])
  {
    var t := Retire(b, target, c, rank);
    assert t.regs.at.Keys == b.regs.at.Keys - {c.key} + {target};
    assert Pop(b.regs, c.key).at.Keys == t.regs.at.Keys;
  }

  lemma RetireSound(b: Book, target: Id, c: Copy, rank: Rank)
    requires Sound(b.regs)
    ensures Sound(Retire(b, target, c, rank).regs)
  {
    PopSound(b.regs, c.key);
    var regs := Pop(b.regs, c.key);
    if target in regs.at {
      var winner := regs.at[target];
      var known := RememberAllKnown(winner.knownIds, [c.key] + c.reg.knownIds, target);
      PutSound(regs, target, Absorb(winner.(knownIds := known), c.reg));
    }
  }

  lemma RetireGood(read: Store, b: Book, target: Id, c: Copy, rank: Rank)
    requires Good(read, b) && Pending(read, b, target, c) && target in b.regs.at
    ensures Good(read, Retire(b, target, c, rank)) && StillAnswers(b, Retire(b, target, c, rank))
  {
    var t, pasts := Retire(b, target, c, rank), [c.key] + c.reg.knownIds;
    RetireSound(b, target, c, rank);
    RetireMoves(read, b, target, c, rank);
    MovedBacked(b.regs.at, b.aliases, t.regs.at, t.aliases, c.key, target, pasts, rank);
    if NoIdClaimedTwice(read) {
      TargetIsTheSameDevice(read, b, target, c);
      MovedTraced(read, b.regs.at, b.aliases, t.regs.at, t.aliases, c.key, target, pasts, rank);
    }
    forall id | id != NO_ID && Answers(b.regs.at, b.aliases, id)
      ensures Answers(t.regs.at, t.aliases, id)
    {
      MovedAnswers(b.regs.at, b.aliases, t.regs.at, t.aliases, c.key, target, pasts, rank, id);
    }
    forall id | id != NO_ID && Tracked(b.regs.at, id)
      ensures Tracked(t.regs.at, id)
    {
      RetireTracks(read, b, target, c, rank, id);
    }
  }
  // ----- one group ------------------------------------------------------------------------

  /** The registration is the device its id names. */
  predicate AtHome(reg: Registration, target: Id) {
    HasSerial(reg) && CurrentIdOf(reg) == target
  }

  lemma OwnerAtHome(reg: Registration, target: Id)
    requires SerialForm(target)
    ensures AtHome(reg, target) <==> OwnerOf(target, reg) == Device(target.serial, target.port)
  {
  }

  /** The registrations under `gone` gave way to `target`; the others stand as they did. */
  ghost predicate Yielded(read: Store, b: Book, t: Book, target: Id, gone: set<Id>) {
    && Good(read, t) && StillAnswers(b, t)
    && t.regs.at.Keys == b.regs.at.Keys - gone + {target}
    && (forall k :: k in t.regs.at && k != target ==> t.regs.at[k] == b.regs.at[k])
  }

  lemma YieldedTwice(read: Store, b: Book, u: Book, t: Book, target: Id, gone: set<Id>, more: set<Id>)
    requires Yielded(read, b, u, target, gone) && Yielded(read, u, t, target, more)
    ensures Yielded(read, b, t, target, gone + more)
  {
    assert t.regs.at.Keys == b.regs.at.Keys - (gone + more) + {target};
    forall k | k in t.regs.at && k != target
      ensures t.regs.at[k] == b.regs.at[k]
    {
      assert k in u.regs.at;
    }
  }

  lemma ReaddressGood(read: Store, b: Book, target: Id, donor: Registration)
    requires Good(read, b) && target in b.regs.at
    requires NoIdClaimedTwice(read) ==> AtHome(b.regs.at[target], target) && AtHome(donor, target)
    ensures Yielded(read, b, Readdress(b, target, donor), target, {})
    ensures Readdress(b, target, donor).aliases == b.aliases
  {
    var t := Readdress(b, target, donor);
    PutSound(b.regs, target, t.regs.at[target]);
    assert t.regs.at.Keys == b.regs.at.Keys && t.regs.at[target].knownIds == b.regs.at[target].knownIds;
    assert forall k :: k in t.regs.at ==> t.regs.at[k].knownIds == b.regs.at[k].knownIds;
    if NoIdClaimedTwice(read) {
      assert OwnerOf(target, t.regs.at[target]) == OwnerOf(target, b.regs.at[target]);
    }
  }

  predicate DistinctKeys(copies: seq<Copy>) {
    forall i, j :: 0 <= i < j < |copies| ==> copies[i].key != copies[j].key
  }

  function KeysOf(copies: seq<Copy>): set<Id> {
    if copies == [] then {} else {copies[0].key} + KeysOf(copies[1..])
  }

  lemma {:induction false} KeysOfHolds(copies: seq<Copy>)
    ensures forall c :: c in copies ==> c.key in KeysOf(copies)
    ensures forall k :: k in KeysOf(copies) ==> exists c :: c in copies && c.key == k
  {
    if copies != [] {
      KeysOfHolds(copies[1..]);
      assert copies == [copies[0]] + copies[1..];
    }
  }

  ghost predicate AllPending(read: Store, b: Book, target: Id, copies: seq<Copy>) {
    DistinctKeys(copies) && forall i :: 0 <= i < |copies| ==> Pending(read, b, target, copies[i])
  }

  lemma StillPending(read: Store, b: Book, u: Book, target: Id, gone: set<Id>, copies: seq<Copy>)
    requires Yielded(read, b, u, target, gone) && AllPending(read, b, target, copies)
    requires forall i :: 0 <= i < |copies| ==> copies[i].key !in gone
    ensures AllPending(read, u, target, copies)
  {
    forall i | 0 <= i < |copies|
      ensures Pending(read, u, target, copies[i])
    {
      assert Pending(read, b, target, copies[i]);
    }
  }

  lemma RestPending(read: Store, b: Book, target: Id, copies: seq<Copy>)
    requires AllPending(read, b, target, copies) && copies != []
    ensures Pending(read, b, target, copies[0]) && AllPending(read, b, target, copies[1..])
    ensures forall i :: 0 <= i < |copies[1..]| ==> copies[1..][i].key != copies[0].key
  {
    forall i | 0 <= i < |copies[1..]|
      ensures Pending(read, b, target, copies[1..][i])
    {
      assert Pending(read, b, target, copies[i + 1]);
    }
  }

  lemma {:induction false} RetireAllGood(read: Store, b: Book, target: Id, losers: seq<Copy>, rank: Rank)
    requires Good(read, b) && AllPending(read, b, target, losers) && target in b.regs.at
    ensures Yielded(read, b, RetireAll(b, target, losers, rank), target, KeysOf(losers))
    decreases |losers|
  {
    if losers != [] {
      var c, rest := losers[0], losers[1..];
      var u := Retire(b, target, c, rank);
      RestPending(read, b, target, losers);
      RetireGood(read, b, target, c, rank);
      RetireMoves(read, b, target, c, rank);
      assert Yielded(read, b, u, target, {c.key});
      StillPending(read, b, u, target, {c.key}, rest);
      RetireAllGood(read, u, target, rest, rank);
      YieldedTwice(read, b, u, RetireAll(u, target, rest, rank), target, {c.key}, KeysOf(rest));
    }
  }

  lemma PendingAtHome(read: Store, b: Book, target: Id, copies: seq<Copy>, c: Copy)
    requires AllPending(read, b, target, copies) && c in copies
    ensures AtHome(c.reg, target)
  {
    var i :| 0 <= i < |copies| && copies[i] == c;
    assert Pending(read, b, target, copies[i]);
  }

  lemma EnthronedGroup(read: Store, b: Book, target: Id, group: seq<Copy>, rank: Rank)
    requires Good(read, b) && AllPending(read, b, target, group) && group != [] && target !in b.regs.at
    ensures Yielded(
              read, b,
              RetireAll(Readdress(Enthrone(b, target, group[0], rank), target, Donor(group).reg), target, group[1..], rank),
              target, KeysOf(group))
  {
    var c, rest, u := group[0], group[1..], Enthrone(b, target, group[0], rank);
    RestPending(read, b, target, group);
    EnthroneGood(read, b, target, c, rank);
    EnthroneMoves(read, b, target, c, rank);
    assert Yielded(read, b, u, target, {c.key});
    PendingAtHome(read, b, target, group, Donor(group));
    ReaddressGood(read, u, target, Donor(group).reg);
    var v := Readdress(u, target, Donor(group).reg);
    YieldedTwice(read, b, u, v, target, {c.key}, {});
    assert {c.key} + {} == {c.key};
    StillPending(read, b, v, target, {c.key}, rest);
    RetireAllGood(read, v, target, rest, rank);
    YieldedTwice(read, b, v, RetireAll(v, target, rest, rank), target, {c.key}, KeysOf(rest));
  }

  lemma IncumbentAtHome(read: Store, b: Book, position: nat, target: Id, group: seq<Copy>)
    requires Good(read, b) && AllPending(read, b, target, group) && group != [] && target in b.regs.at
    requires NoIdClaimedTwice(read)
    ensures AtHome(b.regs.at[target], target)
    ensures AtHome(Donor(group + [Copy(position, target, b.regs.at[target])]).reg, target)
  {
    var all := group + [Copy(position, target, b.regs.at[target])];
    RestPending(read, b, target, group);
    TargetIsTheSameDevice(read, b, target, group[0]);
    OwnerAtHome(b.regs.at[target], target);
    if Donor(all) in group {
      PendingAtHome(read, b, target, group, Donor(all));
    }
  }

  lemma RetiredAfter(read: Store, b: Book, u: Book, target: Id, group: seq<Copy>, rank: Rank)
    requires Yielded(read, b, u, target, {}) && AllPending(read, b, target, group)
    ensures Yielded(read, b, RetireAll(u, target, group, rank), target, KeysOf(group))
  {
    StillPending(read, b, u, target, {}, group);
    RetireAllGood(read, u, target, group, rank);
    YieldedTwice(read, b, u, RetireAll(u, target, group, rank), target, {}, KeysOf(group));
    assert {} + KeysOf(group) == KeysOf(group);
  }

  lemma IncumbentGroup(read: Store, b: Book, position: nat, target: Id, group: seq<Copy>, rank: Rank)
    requires Good(read, b) && AllPending(read, b, target, group) && group != [] && target in b.regs.at
    ensures var all := group + [Copy(position, target, b.regs.at[target])];
            Yielded(read, b, RetireAll(Readdress(b, target, Donor(all).reg), target, group, rank), target, KeysOf(group))
  {
    var donor := Donor(group + [Copy(position, target, b.regs.at[target])]).reg;
    if NoIdClaimedTwice(read) {
      IncumbentAtHome(read, b, position, target, group);
    }
    ReaddressGood(read, b, target, donor);
    RetiredAfter(read, b, Readdress(b, target, donor), target, group, rank);
  }

  lemma MoveGroupGood(read: Store, b: Book, positions: seq<Id>, target: Id, group: seq<Copy>, rank: Rank)
    requires Good(read, b) && AllPending(read, b, target, group) && group != []
    ensures Yielded(read, b, MoveGroup(b, positions, target, group, rank), target, KeysOf(group))
  {
    if target in b.regs.at {
      IncumbentGroup(read, b, PositionOf(positions, target), target, group, rank);
    } else {
      EnthronedGroup(read, b, target, group, rank);
    }
  }

  // ----- the groups -------------------------------------------------------------------------

  lemma {:induction false} InsertKeepsKeys(c: Copy, sorted: seq<Copy>)
    requires DistinctKeys(sorted) && forall d :: d in sorted ==> d.key != c.key
    ensures DistinctKeys(Insert(c, sorted))
  {
    if sorted != [] && !Before(c, sorted[0]) {
      var rest, t := sorted[1..], Insert(c, sorted[1..]);
      InsertKeepsKeys(c, rest);
      InsertKeepsCopies(c, rest);
      assert sorted[0] in sorted;
      forall j | 0 <= j < |t|
        ensures t[j].key != sorted[0].key
      {
        assert t[j] in multiset(t);
        assert t[j] == c || t[j] in rest;
      }
    }
  }

  lemma {:induction false} SortedKeepsKeys(copies: seq<Copy>)
    requires DistinctKeys(copies)
    ensures DistinctKeys(Sorted(copies))
  {
    if copies != [] {
      SortedKeepsKeys(copies[1..]);
      SortedKeepsCopies(copies[1..]);
      var sorted := Sorted(copies[1..]);
      forall d | d in sorted
        ensures d.key != copies[0].key
      {
        assert d in multiset(sorted);
        assert d in copies[1..];
      }
      InsertKeepsKeys(copies[0], sorted);
    }
  }

  predicate CopyOf(regs: Dict, target: Id, c: Copy) {
    Copies(regs, c.key, target) && c.reg == regs.at[c.key]
  }

  lemma {:induction false} GroupFromHolds(regs: Dict, target: Id, i: nat)
    requires i <= |regs.order|
    ensures forall c :: c in GroupFrom(regs, target, i) ==>
              i <= c.position < |regs.order| && c.key == regs.order[c.position] && CopyOf(regs, target, c)
    ensures forall j :: i <= j < |regs.order| && Copies(regs, regs.order[j], target) ==>
              Copy(j, regs.order[j], regs.at[regs.order[j]]) in GroupFrom(regs, target, i)
    decreases |regs.order| - i
  {
    if i < |regs.order| {
      GroupFromHolds(regs, target, i + 1);
    }
  }

  lemma {:induction false} GroupFromDistinct(regs: Dict, target: Id, i: nat)
    requires i <= |regs.order| && Distinct(regs.order)
    ensures DistinctKeys(GroupFrom(regs, target, i))
    decreases |regs.order| - i
  {
    if i < |regs.order| {
      GroupFromDistinct(regs, target, i + 1);
      GroupFromHolds(regs, target, i + 1);
      var rest := GroupFrom(regs, target, i + 1);
      assert forall j :: 0 <= j < |rest| ==> rest[j] in rest;
    }
  }

  lemma GroupHolds(regs: Dict, target: Id)
    requires Sound(regs)
    ensures var g := Group(regs, target);
            && DistinctKeys(g)
            && (forall i :: 0 <= i < |g| ==> CopyOf(regs, target, g[i]))
            && (forall k :: Copies(regs, k, target) <==> k in KeysOf(g))
            && (g != [] ==> Copies(regs, g[0].key, target))
  {
    var all, g := GroupFrom(regs, target, 0), Group(regs, target);
    GroupFromHolds(regs, target, 0);
    GroupFromDistinct(regs, target, 0);
    SortedKeepsKeys(all);
    SortedKeepsCopies(all);
    KeysOfHolds(g);
    assert forall c :: c in g <==> c in multiset(g);
    assert forall c :: c in g <==> c in all;
    forall i | 0 <= i < |g|
      ensures CopyOf(regs, target, g[i])
    {
      assert g[i] in g;
    }
    forall k | Copies(regs, k, target)
      ensures k in KeysOf(g)
    {
      var j :| 0 <= j < |regs.order| && regs.order[j] == k;
      assert Copy(j, k, regs.at[k]) in all;
    }
  }

  // ----- the whole pass ---------------------------------------------------------------------

  /** Copies whose group is still to come stand as they were read, and nothing else is
      stored under an address-based id. */
  ghost predicate Untouched(read: Dict, b: Book, targets: seq<Id>) {
    && (forall k :: k in read.at && StoredUnderLegacyId(k, read.at[k]) && CurrentIdOf(read.at[k]) in targets ==>
          k in b.regs.at && b.regs.at[k] == read.at[k])
    && (forall k :: k in b.regs.at && StoredUnderLegacyId(k, b.regs.at[k]) ==>
          k in read.at && read.at[k] == b.regs.at[k] && CurrentIdOf(read.at[k]) in targets)
  }

  lemma GroupPending(read: Dict, b: Book, target: Id, rest: seq<Id>)
    requires Sound(read) && Untouched(read, b, [target] + rest)
    ensures AllPending(read.at, b, target, Group(read, target))
  {
    var group := Group(read, target);
    GroupHolds(read, target);
    forall i | 0 <= i < |group|
      ensures Pending(read.at, b, target, group[i])
    {
      assert CopyOf(read, target, group[i]);
    }
  }

  lemma NextGroup(read: Dict, b: Book, target: Id, rest: seq<Id>, rank: Rank)
    requires Sound(read) && Good(read.at, b) && Untouched(read, b, [target] + rest) && target !in rest
    ensures var t := MoveGroup(b, read.order, target, Group(read, target), rank);
            Good(read.at, t) && StillAnswers(b, t) && Untouched(read, t, rest)
  {
    var group := Group(read, target);
    GroupHolds(read, target);
    GroupPending(read, b, target, rest);
    if group == [] {
      NoGroupUntouched(read, b, target, rest);
    } else {
      assert CopyOf(read, target, group[0]);
      NextFullGroup(read, b, target, rest, group, rank);
    }
  }

  lemma NoGroupUntouched(read: Dict, b: Book, target: Id, rest: seq<Id>)
    requires Untouched(read, b, [target] + rest) && forall k :: !Copies(read, k, target)
    ensures Untouched(read, b, rest)
  {
    assert forall id :: id in [target] + rest <==> id == target || id in rest;
    forall k | k in b.regs.at && StoredUnderLegacyId(k, b.regs.at[k])
      ensures k in read.at && read.at[k] == b.regs.at[k] && CurrentIdOf(read.at[k]) in rest
    {
      assert !Copies(read, k, target);
    }
  }

  lemma NextFullGroup(read: Dict, b: Book, target: Id, rest: seq<Id>, group: seq<Copy>, rank: Rank)
    requires Good(read.at, b) && Untouched(read, b, [target] + rest) && target !in rest && group != []
    requires AllPending(read.at, b, target, group) && SerialForm(target)
    requires forall k :: Copies(read, k, target) <==> k in KeysOf(group)
    ensures var t := MoveGroup(b, read.order, target, group, rank);
            Good(read.at, t) && StillAnswers(b, t) && Untouched(read, t, rest)
  {
    MoveGroupGood(read.at, b, read.order, target, group, rank);
    NextUntouched(read, b, MoveGroup(b, read.order, target, group, rank), target, rest, KeysOf(group));
  }

  lemma NextUntouched(read: Dict, b: Book, t: Book, target: Id, rest: seq<Id>, gone: set<Id>)
    requires Untouched(read, b, [target] + rest) && Yielded(read.at, b, t, target, gone) && target !in rest
    requires SerialForm(target) && forall k :: Copies(read, k, target) <==> k in gone
    ensures Untouched(read, t, rest)
  {
    forall k | k in read.at && StoredUnderLegacyId(k, read.at[k]) && CurrentIdOf(read.at[k]) in rest
      ensures k in t.regs.at && t.regs.at[k] == read.at[k]
    {
      assert !Copies(read, k, target);
      assert k != target;
    }
    forall k | k in t.regs.at && StoredUnderLegacyId(k, t.regs.at[k])
      ensures k in read.at && read.at[k] == t.regs.at[k] && CurrentIdOf(read.at[k]) in rest
    {
      assert k != target;
      assert !Copies(read, k, target);
    }
  }

  lemma {:induction false} MoveGroupsGood(read: Dict, b: Book, targets: seq<Id>, rank: Rank)
    requires Sound(read) && Good(read.at, b) && Distinct(targets) && Untouched(read, b, targets)
    ensures var t := MoveGroups(b, read, targets, rank);
            Good(read.at, t) && StillAnswers(b, t) && Untouched(read, t, [])
    decreases |targets|
  {
    if targets != [] {
      assert targets == [targets[0]] + targets[1..];
      NextGroup(read, b, targets[0], targets[1..], rank);
      MoveGroupsGood(read, MoveGroup(b, read.order, targets[0], Group(read, targets[0]), rank), targets[1..], rank);
    }
  }
  // ----- what is known before the first group ------------------------------------------------

  /** Every alias leads to a stored registration that remembers it. */
  ghost predicate Recorded(at: Store, aliases: Aliases) {
    forall id :: id in aliases ==> aliases[id] in at && id in at[aliases[id]].knownIds
  }

  lemma {:induction false} IndexKnownRecords(at: Store, aliases: Aliases, pasts: seq<Id>, key: Id, rank: Rank)
    requires Recorded(at, aliases) && key in at && forall id :: id in pasts ==> id in at[key].knownIds
    ensures var t := IndexKnown(aliases, at.Keys, pasts, key, rank);
            && Recorded(at, t) && aliases.Keys <= t.Keys
            && (forall id :: id in pasts && id !in at ==> id in t)
    decreases |pasts|
  {
    if pasts != [] {
      var next := if pasts[0] == key || pasts[0] in at.Keys then aliases else Claim(aliases, at.Keys, pasts[0], key, rank);
      assert pasts[0] in pasts && forall id :: id in pasts[1..] ==> id in pasts;
      IndexKnownRecords(at, next, pasts[1..], key, rank);
      assert pasts == [pasts[0]] + pasts[1..];
    }
  }

  lemma {:induction false} IndexStoredRecords(regs: Dict, aliases: Aliases, keys: seq<Id>, rank: Rank)
    requires forall i :: 0 <= i < |keys| ==> keys[i] in regs.at
    requires Recorded(regs.at, aliases)
    ensures var t := IndexStored(aliases, regs, keys, rank);
            && Recorded(regs.at, t) && aliases.Keys <= t.Keys
            && (forall i, id :: 0 <= i < |keys| && id in regs.at[keys[i]].knownIds && id !in regs.at ==> id in t)
    decreases |keys|
  {
    if keys != [] {
      var known := regs.at[keys[0]].knownIds;
      var next := IndexKnown(aliases, regs.at.Keys, known, keys[0], rank);
      IndexKnownRecords(regs.at, aliases, known, keys[0], rank);
      IndexStoredRecords(regs, next, keys[1..], rank);
      assert forall i :: 1 <= i < |keys| ==> keys[i] == keys[1..][i - 1];
    }
  }

  /** What the derived aliases add to those written down. */
  ghost predicate Derived(at: Store, aliases: Aliases, t: Aliases) {
    && (forall id :: id in aliases ==> id in t && t[id] == aliases[id])
    && (forall id :: id in t && id !in aliases ==>
          exists k :: k in at && HasSerial(at[k]) && id == LegacyIdOf(at[k]) && t[id] == CurrentIdOf(at[k]))
  }

  lemma {:induction false} DeriveAliasesHolds(regs: Dict, aliases: Aliases, keys: seq<Id>)
    requires forall i :: 0 <= i < |keys| ==> keys[i] in regs.at
    ensures Derived(regs.at, aliases, DeriveAliases(aliases, regs, keys))
    decreases |keys|
  {
    if keys != [] {
      var reg := regs.at[keys[0]];
      var fits := HasSerial(reg) && LegacyIdOf(reg) != CurrentIdOf(reg)
               && LegacyIdOf(reg) !in regs.at && LegacyIdOf(reg) !in aliases;
      DeriveAliasesHolds(regs, if fits then aliases[LegacyIdOf(reg) := CurrentIdOf(reg)] else aliases, keys[1..]);
    }
  }

  lemma KeysBelong(read: Store)
    ensures forall k :: k in read ==> Belongs(read, k, OwnerOf(k, read[k]))
  {
    forall k | k in read
      ensures Belongs(read, k, OwnerOf(k, read[k]))
    {
      assert Claims(k, read[k], k);
    }
  }

  lemma RecordedBelongs(read: Store, aliases: Aliases, id: Id)
    requires Recorded(read, aliases) && id in aliases
    ensures Belongs(read, id, OwnerOf(aliases[id], read[aliases[id]]))
  {
    assert Claims(aliases[id], read[aliases[id]], id);
  }

  lemma DerivedFromADevice(read: Store, aliases: Aliases, t: Aliases, id: Id)
    requires Derived(read, aliases, t) && id in t && id !in aliases
    ensures SerialForm(t[id])
    ensures Belongs(read, id, Device(t[id].serial, t[id].port)) && Belongs(read, t[id], Device(t[id].serial, t[id].port))
  {
    var k :| k in read && HasSerial(read[k]) && id == LegacyIdOf(read[k]) && t[id] == CurrentIdOf(read[k]);
    assert OwnerOf(k, read[k]) == Device(t[id].serial, t[id].port);
    assert Claims(k, read[k], id) && Claims(k, read[k], t[id]);
  }

  lemma DerivedBelongs(read: Store, aliases: Aliases, t: Aliases, id: Id)
    requires Derived(read, aliases, t) && NoIdClaimedTwice(read) && id in t && id !in aliases
    ensures SerialForm(t[id]) && Belongs(read, id, Device(t[id].serial, t[id].port))
    ensures t[id] in read ==> Belongs(read, id, OwnerOf(t[id], read[t[id]]))
  {
    DerivedFromADevice(read, aliases, t, id);
    KeysBelong(read);
  }

  lemma DerivedTraced(read: Store, aliases: Aliases, t: Aliases)
    requires Recorded(read, aliases) && Derived(read, aliases, t) && NoIdClaimedTwice(read)
    ensures Traced(read, read, t)
  {
    KeysBelong(read);
    forall id | id in t && t[id] in read
      ensures Belongs(read, id, OwnerOf(t[id], read[t[id]]))
    {
      if id in aliases {
        RecordedBelongs(read, aliases, id);
      } else {
        DerivedBelongs(read, aliases, t, id);
      }
    }
    forall id | id in t && t[id] !in read && SerialForm(t[id])
      ensures Belongs(read, id, Device(t[id].serial, t[id].port))
    {
      DerivedBelongs(read, aliases, t, id);
    }
  }

  lemma DerivedBacked(read: Store, aliases: Aliases, t: Aliases)
    requires Recorded(read, aliases) && Derived(read, aliases, t)
    ensures Backed(read, t)
  {
  }

  lemma IndexedGood(read: Dict, rank: Rank)
    requires Sound(read)
    ensures Good(read.at, Book(read, Indexed(read, rank)))
  {
    var written := IndexStored(map[], read, read.order, rank);
    IndexStoredRecords(read, map[], read.order, rank);
    DeriveAliasesHolds(read, written, read.order);
    DerivedBacked(read.at, written, Indexed(read, rank));
    if NoIdClaimedTwice(read.at) {
      DerivedTraced(read.at, written, Indexed(read, rank));
    }
  }

  lemma IndexedAnswers(read: Dict, rank: Rank, id: Id)
    requires Sound(read) && Tracked(read.at, id)
    ensures Answers(read.at, Indexed(read, rank), id)
  {
    var written := IndexStored(map[], read, read.order, rank);
    IndexStoredRecords(read, map[], read.order, rank);
    DeriveAliasesHolds(read, written, read.order);
    if id !in read.at {
      var k :| k in read.at && id in read.at[k].knownIds;
      var i :| 0 <= i < |read.order| && read.order[i] == k;
      assert id in written;
    }
  }

  // ----- the results ----------------------------------------------------------------------------

  lemma LoadGood(file: seq<Registration>, targets: seq<Id>, rank: Rank)
    requires Targets(ReadFile(file), targets)
    ensures var read, b := ReadFile(file), Load(file, targets, rank);
            && Sound(read) && Good(read.at, b) && Untouched(read, b, [])
            && StillAnswers(Book(read, Indexed(read, rank)), b)
  {
    var read := ReadFile(file);
    ReadKnows(Dict([], map[]), file);
    IndexedGood(read, rank);
    MoveGroupsGood(read, Book(read, Indexed(read, rank)), targets, rank);
  }

  /** After the load pass every stored key and every id that is not empty and that a
      registration remembers resolves in one hop, and goes on being written down. */
  lemma LoadLosesNoId(file: seq<Registration>, targets: seq<Id>, rank: Rank, id: Id)
    requires Targets(ReadFile(file), targets) && id != NO_ID && Tracked(ReadFile(file).at, id)
    ensures var b := Load(file, targets, rank);
            Resolve(b.regs.at.Keys, b.aliases, id).Some? && Tracked(b.regs.at, id)
  {
    LoadGood(file, targets, rank);
    var read := ReadFile(file);
    IndexedAnswers(read, rank, id);
    assert Tracked(Book(read, Indexed(read, rank)).regs.at, id);
  }

  lemma {:induction false} EveryAddressIsDerived(regs: Dict, aliases: Aliases, keys: seq<Id>, key: Id)
    requires (forall i :: 0 <= i < |keys| ==> keys[i] in regs.at) && key in keys && HasSerial(regs.at[key])
    requires LegacyIdOf(regs.at[key]) != CurrentIdOf(regs.at[key])
    ensures LegacyIdOf(regs.at[key]) in regs.at || LegacyIdOf(regs.at[key]) in DeriveAliases(aliases, regs, keys)
    decreases |keys|
  {
    var reg := regs.at[keys[0]];
    var fits := HasSerial(reg) && LegacyIdOf(reg) != CurrentIdOf(reg)
             && LegacyIdOf(reg) !in regs.at && LegacyIdOf(reg) !in aliases;
    var next := if fits then aliases[LegacyIdOf(reg) := CurrentIdOf(reg)] else aliases;
    if key == keys[0] {
      DeriveAliasesHolds(regs, next, keys[1..]);
    } else {
      assert keys == [keys[0]] + keys[1..];
      EveryAddressIsDerived(regs, next, keys[1..], key);
    }
  }

  lemma AddressAnswers(read: Dict, rank: Rank, key: Id)
    requires Sound(read) && key in read.at && HasSerial(read.at[key]) && CurrentIdOf(read.at[key]) in read.at
    ensures Answers(read.at, Indexed(read, rank), LegacyIdOf(read.at[key]))
  {
    var written, id := IndexStored(map[], read, read.order, rank), LegacyIdOf(read.at[key]);
    if id != CurrentIdOf(read.at[key]) && id !in read.at {
      IndexStoredRecords(read, map[], read.order, rank);
      DeriveAliasesHolds(read, written, read.order);
      EveryAddressIsDerived(read, written, read.order, key);
      if id !in written {
        var k :| k in read.at && HasSerial(read.at[k]) && id == LegacyIdOf(read.at[k])
                 && Indexed(read, rank)[id] == CurrentIdOf(read.at[k]);
      }
    }
  }

  /** A device stored under its own id also answers to the id made of the address it is stored with,
      though no registration need remember that one. */
  lemma AddressGoesOnAnswering(file: seq<Registration>, targets: seq<Id>, rank: Rank, serial: string, net: Address)
    requires Targets(ReadFile(file), targets) && serial != ""
    requires var read, key := ReadFile(file).at, Id.Network("", net.port, serial);
             key in read && read[key].descriptor.serial == serial && read[key].descriptor.network == Some(net)
    ensures var b := Load(file, targets, rank);
            Resolve(b.regs.at.Keys, b.aliases, Id.Network(net.host, net.port, serial)).Some?
  {
    LoadGood(file, targets, rank);
    AddressAnswers(ReadFile(file), rank, Id.Network("", net.port, serial));
  }

  lemma FoundIsTheClaimant(read: Store, b: Book, key: Id, id: Id)
    requires NoIdClaimedTwice(read) && Traced(read, b.regs.at, b.aliases) && key in read && Claims(key, read[key], id)
    ensures var found := Resolve(b.regs.at.Keys, b.aliases, id);
            found.Some? ==> OwnerOf(found.value, b.regs.at[found.value]) == OwnerOf(key, read[key])
  {
    var found := Resolve(b.regs.at.Keys, b.aliases, id);
    assert Belongs(read, id, OwnerOf(key, read[key]));
    if found.Some? {
      assert Belongs(read, id, OwnerOf(found.value, b.regs.at[found.value]));
    }
  }

  /** When no id is claimed by two devices, whatever resolves leads to the device that
      claimed it: the same serial and port, or, without a serial, the same entry. */
  lemma LoadKeepsTheDevice(file: seq<Registration>, targets: seq<Id>, rank: Rank, key: Id, id: Id)
    requires var read := ReadFile(file).at;
             Targets(ReadFile(file), targets) && NoIdClaimedTwice(read) && key in read && Claims(key, read[key], id)
    ensures var read, b := ReadFile(file).at, Load(file, targets, rank);
            var found := Resolve(b.regs.at.Keys, b.aliases, id);
            found.Some? ==> OwnerOf(found.value, b.regs.at[found.value]) == OwnerOf(key, read[key])
  {
    LoadGood(file, targets, rank);
    FoundIsTheClaimant(ReadFile(file).at, Load(file, targets, rank), key, id);
  }

  /** No registration is left under the id its address used to give. */
  lemma NothingStaysUnderItsLegacyId(file: seq<Registration>, targets: seq<Id>, rank: Rank, key: Id)
    requires Targets(ReadFile(file), targets) && key in Load(file, targets, rank).regs.at
    ensures var b := Load(file, targets, rank);
            !StoredUnderLegacyId(key, b.regs.at[key]) && b.regs.at[key].descriptor.id == key
  {
    LoadGood(file, targets, rank);
  }

  /** The first `i` entries of a dictionary. */
  ghost predicate Begins(part: Dict, d: Dict, i: nat)
    requires i <= |d.order|
  {
    && part.order == d.order[..i]
    && (forall k :: k in part.at <==> k in d.order[..i])
    && (forall k :: k in part.at ==> k in d.at && part.at[k] == d.at[k])
  }

  lemma {:induction false} ReadBack(part: Dict, d: Dict, i: nat)
    requires Sound(d) && i <= |d.order| && Begins(part, d, i)
    ensures ReadInto(part, Saved(d)[i..]) == d
    decreases |d.order| - i
  {
    if i == |d.order| {
      assert d.order[..i] == d.order;
      assert part.at == d.at;
    } else {
      var key := d.order[i];
      assert key !in d.order[..i];
      assert d.order[..i + 1] == d.order[..i] + [key];
      assert Saved(d)[i..] == [d.at[key]] + Saved(d)[i + 1..];
      ReadBack(Put(part, key, d.at[key]), d, i + 1);
    }
  }

  lemma ReadFileSaved(d: Dict)
    requires Sound(d)
    ensures ReadFile(Saved(d)) == d
  {
    ReadBack(Dict([], map[]), d, 0);
    assert Saved(d)[0..] == Saved(d);
  }

  lemma {:induction false} NothingToMove(b: Book, read: Dict, targets: seq<Id>, rank: Rank)
    requires Sound(read) && forall k :: k in read.at ==> !StoredUnderLegacyId(k, read.at[k])
    ensures MoveGroups(b, read, targets, rank) == b
    decreases |targets|
  {
    if targets != [] {
      GroupHolds(read, targets[0]);
      NothingToMove(b, read, targets[1..], rank);
    }
  }

  /** Saving after the pass and loading again moves nothing and gives the same registrations
      in the same order. */
  lemma LoadIsIdempotent(file: seq<Registration>, targets: seq<Id>, again: seq<Id>, rank: Rank)
    requires Targets(ReadFile(file), targets)
    ensures var once := Load(file, targets, rank);
            Sound(once.regs) && Load(Saved(once.regs), again, rank).regs == once.regs
  {
    LoadGood(file, targets, rank);
    var once := Load(file, targets, rank).regs;
    ReadFileSaved(once);
    NothingToMove(Book(once, Indexed(once, rank)), once, again, rank);
  }

  /** No restart loses an id either. */
  lemma RestartLosesNoId(file: seq<Registration>, targets: seq<Id>, again: seq<Id>, rank: Rank, id: Id)
    requires Targets(ReadFile(file), targets) && id != NO_ID && Tracked(ReadFile(file).at, id)
    ensures var once := Load(file, targets, rank).regs;
            && Sound(once)
            && var twice := Load(Saved(once), again, rank);
               Resolve(twice.regs.at.Keys, twice.aliases, id).Some?
  {
    LoadGood(file, targets, rank);
    LoadLosesNoId(file, targets, rank, id);
    var once := Load(file, targets, rank).regs;
    ReadFileSaved(once);
    LoadIsIdempotent(file, targets, again, rank);
    IndexedAnswers(once, rank, id);
    NothingToMove(Book(once, Indexed(once, rank)), once, again, rank);
  }
}
