/** Reading terminals.json: the ids a registration has left behind become aliases, and what
    is still stored under its address-based id moves to the id computed today. */
module TerminalLoad {
  import opened Options
  import opened TerminalIds
  import opened TerminalMerge

  /** A Python dictionary of registrations: its keys in the order of their insertion. */
  datatype Dict = Dict(order: seq<Id>, at: map<Id, Registration>)

  type Aliases = map<Id, Id>

  /** An id's place in the alphabet of hashes, which decides collisions. */
  type Rank = Id -> nat

  datatype Book = Book(regs: Dict, aliases: Aliases)

  function Without(order: seq<Id>, key: Id): seq<Id> {
    if order == [] then []
    else if order[0] == key then Without(order[1..], key)
    else [order[0]] + Without(order[1..], key)
  }

  predicate Distinct(order: seq<Id>) {
    forall i, j :: 0 <= i < j < |order| ==> order[i] != order[j]
  }

  function Put(d: Dict, key: Id, reg: Registration): Dict {
    Dict(if key in d.at then d.order else d.order + [key], d.at[key := reg])
  }

  function Pop(d: Dict, key: Id): Dict {
    Dict(Without(d.order, key), d.at - {key})
  }

  // ----- aliases --------------------------------------------------------------

  /** `_resolve`: the key a registration is stored under, in at most one hop. */
  function Resolve(live: set<Id>, aliases: Aliases, id: Id): Option<Id> {
    if id in live then Some(id)
    else if id in aliases && aliases[id] in live then Some(aliases[id])
    else None
  }

  /** `_claim_legacy_id`. */
  function Claim(aliases: Aliases, live: set<Id>, past: Id, key: Id, rank: Rank): Aliases {
    if past in aliases && aliases[past] != key && aliases[past] in live then
      aliases[past := if rank(key) < rank(aliases[past]) then key else aliases[past]]
    else aliases[past := key]
  }

  /** `_remember_old_id`, what it does to the aliases and to the registration's own list. */
  function RememberAlias(aliases: Aliases, live: set<Id>, past: Id, key: Id, rank: Rank): Aliases {
    if past == NO_ID || past == key then aliases else Claim(aliases, live, past, key, rank)
  }

  function RememberKnown(known: seq<Id>, past: Id, key: Id): seq<Id> {
    if past == NO_ID || past == key || past in known then known else known + [past]
  }

  function RememberAliases(aliases: Aliases, live: set<Id>, pasts: seq<Id>, key: Id, rank: Rank): Aliases
    decreases |pasts|
  {
    if pasts == [] then aliases
    else RememberAliases(RememberAlias(aliases, live, pasts[0], key, rank), live, pasts[1..], key, rank)
  }

  function RememberAllKnown(known: seq<Id>, pasts: seq<Id>, key: Id): seq<Id>
    decreases |pasts|
  {
    if pasts == [] then known else RememberAllKnown(RememberKnown(known, pasts[0], key), pasts[1..], key)
  }

  // ----- `_index_stored_known_ids` ----------------------------------------------

  function IndexKnown(aliases: Aliases, live: set<Id>, pasts: seq<Id>, key: Id, rank: Rank): Aliases
    decreases |pasts|
  {
    if pasts == [] then aliases
    else
      IndexKnown(
        if pasts[0] == key || pasts[0] in live then aliases else Claim(aliases, live, pasts[0], key, rank),
        live, pasts[1..], key, rank)
  }

  function IndexStored(aliases: Aliases, regs: Dict, keys: seq<Id>, rank: Rank): Aliases
    requires forall i :: 0 <= i < |keys| ==> keys[i] in regs.at
    decreases |keys|
  {
    if keys == [] then aliases
    else IndexStored(IndexKnown(aliases, regs.at.Keys, regs.at[keys[0]].knownIds, keys[0], rank), regs, keys[1..], rank)
  }

  lemma IndexFirst(aliases: Aliases, regs: Dict, keys: seq<Id>, i: nat, rank: Rank)
    requires i < |keys| && forall j :: i <= j < |keys| ==> keys[j] in regs.at
    ensures IndexStored(aliases, regs, keys[i..], rank)
         == IndexStored(IndexKnown(aliases, regs.at.Keys, regs.at[keys[i]].knownIds, keys[i], rank), regs, keys[i + 1..], rank)
  {
    assert keys[i..] == [keys[i]] + keys[i + 1..];
  }

  // ----- `_index_legacy_network_ids` ----------------------------------------------

  predicate HasSerial(reg: Registration) {
    reg.descriptor.network.Some? && reg.descriptor.serial != ""
  }

  function CurrentIdOf(reg: Registration): Id
    requires HasSerial(reg)
  {
    var net := reg.descriptor.network.value;
    CurrentId(net.host, net.port, reg.descriptor.serial)
  }

  function LegacyIdOf(reg: Registration): Id
    requires HasSerial(reg)
  {
    var net := reg.descriptor.network.value;
    LegacyId(net.host, net.port, reg.descriptor.serial)
  }

  /** Stored under its address-based id although another id is computed today. */
  predicate StoredUnderLegacyId(key: Id, reg: Registration) {
    HasSerial(reg) && key != CurrentIdOf(reg) && key == LegacyIdOf(reg)
  }

  /** The aliases derived from the registrations' own addresses. */
  function DeriveAliases(aliases: Aliases, regs: Dict, keys: seq<Id>): Aliases
    requires forall i :: 0 <= i < |keys| ==> keys[i] in regs.at
    decreases |keys|
  {
    if keys == [] then aliases
    else
      var reg := regs.at[keys[0]];
      var fits := HasSerial(reg) && LegacyIdOf(reg) != CurrentIdOf(reg)
               && LegacyIdOf(reg) !in regs.at && LegacyIdOf(reg) !in aliases;
      DeriveAliases(if fits then aliases[LegacyIdOf(reg) := CurrentIdOf(reg)] else aliases, regs, keys[1..])
  }

  lemma DeriveFirst(aliases: Aliases, regs: Dict, keys: seq<Id>, i: nat)
    requires i < |keys| && forall j :: i <= j < |keys| ==> keys[j] in regs.at
    ensures var reg := regs.at[keys[i]];
            var fits := HasSerial(reg) && LegacyIdOf(reg) != CurrentIdOf(reg)
                     && LegacyIdOf(reg) !in regs.at && LegacyIdOf(reg) !in aliases;
            DeriveAliases(aliases, regs, keys[i..])
            == DeriveAliases(if fits then aliases[LegacyIdOf(reg) := CurrentIdOf(reg)] else aliases, regs, keys[i + 1..])
  {
    assert keys[i..] == [keys[i]] + keys[i + 1..];
  }

  predicate Copies(regs: Dict, key: Id, target: Id) {
    key in regs.at && StoredUnderLegacyId(key, regs.at[key]) && CurrentIdOf(regs.at[key]) == target
  }

  /** The copies that move to `target`, in the order of the file. */
  function GroupFrom(regs: Dict, target: Id, i: nat): seq<Copy>
    requires i <= |regs.order|
    decreases |regs.order| - i
  {
    if i == |regs.order| then []
    else
      var key := regs.order[i];
      (if Copies(regs, key, target) then [Copy(i, key, regs.at[key])] else []) + GroupFrom(regs, target, i + 1)
  }

  function Group(regs: Dict, target: Id): seq<Copy> {
    Sorted(GroupFrom(regs, target, 0))
  }

  function PositionOf(order: seq<Id>, key: Id): nat {
    if order == [] || order[0] == key then 0 else 1 + PositionOf(order[1..], key)
  }

  /** A copy moves to `target`, where nothing is stored yet. */
  function Enthrone(b: Book, target: Id, c: Copy, rank: Rank): Book {
    var regs := Pop(b.regs, c.key);
    var known := RememberKnown(c.reg.knownIds, c.key, target);
    Book(
      Put(regs, target, c.reg.(descriptor := c.reg.descriptor.(id := target), knownIds := Without(known, target))),
      RememberAliases(b.aliases, regs.at.Keys + {target}, [c.key] + known, target, rank))
  }

  /** A copy gives way to what is stored under `target`. */
  function Retire(b: Book, target: Id, c: Copy, rank: Rank): Book {
    var regs := Pop(b.regs, c.key);
    if target !in regs.at then b
    else
      var winner := regs.at[target];
      var pasts := [c.key] + c.reg.knownIds;
      Book(
        Put(regs, target, Absorb(winner.(knownIds := RememberAllKnown(winner.knownIds, pasts, target)), c.reg)),
        RememberAliases(b.aliases, regs.at.Keys, pasts, target, rank))
  }

  function RetireAll(b: Book, target: Id, losers: seq<Copy>, rank: Rank): Book
    decreases |losers|
  {
    if losers == [] then b else RetireAll(Retire(b, target, losers[0], rank), target, losers[1..], rank)
  }

  /** `_carry_newest_address`. */
  function Readdress(b: Book, target: Id, donor: Registration): Book {
    if target !in b.regs.at then b
    else b.(regs := Put(b.regs, target, CarryAddress(b.regs.at[target], donor)))
  }

  /** One group: `positions` are those of the file as it was read. */
  function MoveGroup(b: Book, positions: seq<Id>, target: Id, group: seq<Copy>, rank: Rank): Book {
    if group == [] then b
    else if target in b.regs.at then
      var incumbent := Copy(PositionOf(positions, target), target, b.regs.at[target]);
      RetireAll(Readdress(b, target, Donor(group + [incumbent]).reg), target, group, rank)
    else
      RetireAll(Readdress(Enthrone(b, target, group[0], rank), target, Donor(group).reg), target, group[1..], rank)
  }

  /** All groups, in the order of `targets`; `read` is the dictionary as it was read. */
  function MoveGroups(b: Book, read: Dict, targets: seq<Id>, rank: Rank): Book
    decreases |targets|
  {
    if targets == [] then b
    else MoveGroups(MoveGroup(b, read.order, targets[0], Group(read, targets[0]), rank), read, targets[1..], rank)
  }

  // ----- `load` and `save` ---------------------------------------------------------

  function ReadInto(d: Dict, file: seq<Registration>): Dict
    decreases |file|
  {
    if file == [] then d else ReadInto(Put(d, file[0].descriptor.id, file[0]), file[1..])
  }

  function ReadFile(file: seq<Registration>): Dict {
    ReadInto(Dict([], map[]), file)
  }

  function Saved(d: Dict): seq<Registration>
    requires forall i :: 0 <= i < |d.order| ==> d.order[i] in d.at
  {
    seq(|d.order|, i requires 0 <= i < |d.order| => d.at[d.order[i]])
  }

  /** What the source's dictionaries are by nature, and each key its registration's own id. */
  ghost predicate Sound(d: Dict) {
    && (forall i :: 0 <= i < |d.order| ==> d.order[i] in d.at)
    && (forall k :: k in d.at ==> k in d.order)
    && Distinct(d.order)
    && (forall k :: k in d.at ==> d.at[k].descriptor.id == k)
  }

  /** `targets` are the ids some copy moves to, each once, in whatever order. */
  ghost predicate Targets(regs: Dict, targets: seq<Id>) {
    && Distinct(targets)
    && (forall k :: k in regs.at && StoredUnderLegacyId(k, regs.at[k]) ==> CurrentIdOf(regs.at[k]) in targets)
  }

  function Indexed(regs: Dict, rank: Rank): Aliases
    requires forall i :: 0 <= i < |regs.order| ==> regs.order[i] in regs.at
  {
    DeriveAliases(IndexStored(map[], regs, regs.order, rank), regs, regs.order)
  }

  /** The registry right after `load`. */
  function Load(file: seq<Registration>, targets: seq<Id>, rank: Rank): Book {
    var regs := ReadFile(file);
    ReadKnows(Dict([], map[]), file);
    MoveGroups(Book(regs, Indexed(regs, rank)), regs, targets, rank)
  }

  lemma {:induction false} ReadKnows(d: Dict, file: seq<Registration>)
    requires Sound(d)
    ensures Sound(ReadInto(d, file))
    decreases |file|
  {
    if file != [] {
      PutSound(d, file[0].descriptor.id, file[0]);
      ReadKnows(Put(d, file[0].descriptor.id, file[0]), file[1..]);
    }
  }

  lemma PutSound(d: Dict, key: Id, reg: Registration)
    requires Sound(d) && reg.descriptor.id == key
    ensures Sound(Put(d, key, reg))
  {
    var t := Put(d, key, reg);
    forall k | k in t.at
      ensures k in t.order
    {
      assert t.order[|t.order| - 1] in t.order;
      assert k in d.order ==> k in t.order;
    }
  }

  lemma {:induction false} WithoutKeepsOthers(order: seq<Id>, key: Id)
    ensures forall k :: k in Without(order, key) <==> k in order && k != key
  {
    if order != [] {
      WithoutKeepsOthers(order[1..], key);
      assert order == [order[0]] + order[1..];
    }
  }

  lemma {:induction false} WithoutKeepsDistinct(order: seq<Id>, key: Id)
    requires Distinct(order)
    ensures Distinct(Without(order, key))
  {
    if order != [] {
      var rest := order[1..];
      WithoutKeepsDistinct(rest, key);
      WithoutKeepsOthers(rest, key);
      var t := Without(rest, key);
      forall j | 0 <= j < |t|
        ensures t[j] != order[0]
      {
        assert t[j] in t;
        assert t[j] in rest;
      }
    }
  }

  lemma PopSound(d: Dict, key: Id)
    requires Sound(d)
    ensures Sound(Pop(d, key))
  {
    WithoutKeepsOthers(d.order, key);
    WithoutKeepsDistinct(d.order, key);
    var t := Pop(d, key);
    forall i | 0 <= i < |t.order|
      ensures t.order[i] in t.at
    {
      assert t.order[i] in t.order;
    }
  }
}
