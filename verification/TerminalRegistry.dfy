/** The registry class: its dictionaries are changed in place, one statement after the other,
    and every method is tied to the function that says what it comes to. */
module TerminalRegistry {
  import opened Options
  import opened TerminalIds
  import opened TerminalMerge
  import opened TerminalLoad
  import opened TerminalResolve
  import opened TerminalRuns
  import opened Texts

  /** The index of a merchant list is the dictionary the source builds from it. */
  ghost predicate Indexes(byKey: map<Key, nat>, ms: seq<Merchant>) {
    forall k :: (k in byKey <==> HasKey(ms, k)) && (k in byKey ==> byKey[k] == IndexOf(ms, k))
  }

  lemma IndexesAppended(byKey: map<Key, nat>, ms: seq<Merchant>, m: Merchant)
    requires Indexes(byKey, ms)
    ensures Indexes(byKey[KeyOf(m) := |ms|], ms + [m])
  {
    assert (ms + [m])[..|ms|] == ms;
  }

  lemma IndexesRenamed(byKey: map<Key, nat>, ms: seq<Merchant>, i: nat, nickname: string)
    requires Indexes(byKey, ms) && i < |ms|
    ensures Indexes(byKey, ms[i := ms[i].(nickname := nickname)])
  {
    var after := ms[i := ms[i].(nickname := nickname)];
    assert forall j :: 0 <= j < |ms| ==> KeyOf(after[j]) == KeyOf(ms[j]);
    forall k
      ensures IndexOf(after, k) == IndexOf(ms, k)
    {
      if HasKey(ms, k) {
        IndexIsUnique(after, k, IndexOf(ms, k));
      }
    }
  }

  /** The dictionary of a list: the last place of each key. */
  method IndexMerchants(own: seq<Merchant>) returns (byKey: map<Key, nat>)
    ensures Indexes(byKey, own)
  {
    byKey := map[];
    for i := 0 to |own|
      invariant Indexes(byKey, own[..i])
    {
      IndexesAppended(byKey, own[..i], own[i]);
      assert own[..i + 1] == own[..i] + [own[i]];
      byKey := byKey[KeyOf(own[i]) := i];
    }
    assert own[..|own|] == own;
  }

  /** One merchant of the losing copy: added, or its nickname taken over. */
  method AbsorbMerchant(ms: seq<Merchant>, byKey: map<Key, nat>, m: Merchant) returns (more: seq<Merchant>, index: map<Key, nat>)
    requires Indexes(byKey, ms)
    ensures more == AddMerchant(ms, m) && Indexes(index, more)
  {
    more, index := ms, byKey;
    if KeyOf(m) !in byKey {
      IndexesAppended(byKey, ms, m);
      index := byKey[KeyOf(m) := |ms|];
      more := ms + [m];
    } else {
      var kept := byKey[KeyOf(m)];
      if Blank(ms[kept].nickname) && !Blank(m.nickname) {
        IndexesRenamed(byKey, ms, kept, m.nickname);
        more := ms[kept := ms[kept].(nickname := m.nickname)];
      }
    }
  }

  lemma NextMerchant(ms: seq<Merchant>, others: seq<Merchant>, i: nat)
    requires i < |others|
    ensures AddMerchants(ms, others[i..]) == AddMerchants(AddMerchant(ms, others[i]), others[i + 1..])
  {
    assert others[i..][1..] == others[i + 1..];
  }

  /** The merchants' part of `_absorb_losing_registration`. */
  method AbsorbMerchants(own: seq<Merchant>, others: seq<Merchant>) returns (ms: seq<Merchant>)
    ensures ms == AddMerchants(own, others)
  {
    ms := own;
    var byKey := IndexMerchants(own);
    assert others[0..] == others;
    for i := 0 to |others|
      invariant Indexes(byKey, ms) && AddMerchants(ms, others[i..]) == AddMerchants(own, others)
    {
      NextMerchant(ms, others, i);
      ms, byKey := AbsorbMerchant(ms, byKey, others[i]);
    }
  }

  /** `_absorb_losing_registration`. */
  method AbsorbLosing(winner: Registration, loser: Registration) returns (merged: Registration)
    ensures merged == Absorb(winner, loser)
  {
    merged := winner;
    if !Blank(loser.nickname) && Blank(winner.nickname) {
      merged := merged.(nickname := loser.nickname);
    }
    var ms := AbsorbMerchants(winner.merchants, loser.merchants);
    merged := merged.(merchants := ms);
    if loser.defaultMerchant != "" && winner.defaultMerchant == "" {
      merged := merged.(defaultMerchant := loser.defaultMerchant);
      if winner.defaultTerminal == "" {
        merged := merged.(defaultTerminal := loser.defaultTerminal);
      }
    }
  }

  /** The dictionary of nicknames `merge_merchant_list` reads off the stored list. */
  method NicknameIndex(stored: seq<Merchant>) returns (index: map<Key, string>)
    ensures forall k :: k in index <==> StoredNickname(stored, k) != ""
    ensures forall k :: k in index ==> index[k] == StoredNickname(stored, k)
  {
    index := map[];
    for i := 0 to |stored|
      invariant forall k :: k in index <==> StoredNickname(stored[..i], k) != ""
      invariant forall k :: k in index ==> index[k] == StoredNickname(stored[..i], k)
    {
      assert stored[..i + 1][..i] == stored[..i];
      if stored[i].nickname != "" {
        index := index[KeyOf(stored[i]) := stored[i].nickname];
      }
    }
    assert stored[..|stored|] == stored;
  }

  class TerminalRegistry {
    /** The order of the hashed ids, which settles collisions. */
    const rank: Rank
    var regs: Dict
    var aliases: Aliases
    var discovery: Discovery
    /** terminals.json. */
    var file: seq<Registration>

    function View(): Registry
      reads this
    {
      Registry(Book(regs, aliases), discovery)
    }

    constructor (rank: Rank, file: seq<Registration>)
      ensures this.file == file && Valid(View()) && regs.at == map[] && aliases == map[] && this.rank == rank
    {
      this.rank := rank;
      this.file := file;
      regs, aliases, discovery := Dict([], map[]), map[], map[];
    }

    method ClaimLegacyId(past: Id, key: Id)
      modifies `aliases
      ensures aliases == Claim(old(aliases), regs.at.Keys, past, key, rank)
    {
      if past in aliases {
        var held := aliases[past];
        if held != key && held in regs.at {
          var settled := held;
          if rank(key) < rank(held) {
            settled := key;
          }
          aliases := aliases[past := settled];
          return;
        }
      }
      aliases := aliases[past := key];
    }

    method RememberOldId(known: seq<Id>, past: Id, key: Id) returns (longer: seq<Id>)
      modifies `aliases
      ensures aliases == RememberAlias(old(aliases), regs.at.Keys, past, key, rank)
      ensures longer == RememberKnown(known, past, key)
    {
      longer := known;
      if past == NO_ID || past == key {
        return;
      }
      if past !in known {
        longer := longer + [past];
      }
      ClaimLegacyId(past, key);
    }

    method RememberOldIds(known: seq<Id>, pasts: seq<Id>, key: Id) returns (longer: seq<Id>)
      modifies `aliases
      ensures aliases == RememberAliases(old(aliases), regs.at.Keys, pasts, key, rank)
      ensures longer == RememberAllKnown(known, pasts, key)
    {
      longer := known;
      for i := 0 to |pasts|
        invariant RememberAliases(aliases, regs.at.Keys, pasts[i..], key, rank)
               == RememberAliases(old(aliases), regs.at.Keys, pasts, key, rank)
        invariant RememberAllKnown(longer, pasts[i..], key) == RememberAllKnown(known, pasts, key)
      {
        assert pasts[i..] == [pasts[i]] + pasts[i + 1..];
        longer := RememberOldId(longer, pasts[i], key);
      }
    }

    method IndexKnownIdsOf(key: Id, pasts: seq<Id>)
      modifies `aliases
      ensures aliases == IndexKnown(old(aliases), regs.at.Keys, pasts, key, rank)
    {
      for i := 0 to |pasts|
        invariant IndexKnown(aliases, regs.at.Keys, pasts[i..], key, rank)
               == IndexKnown(old(aliases), regs.at.Keys, pasts, key, rank)
      {
        assert pasts[i..] == [pasts[i]] + pasts[i + 1..];
        if pasts[i] != key && pasts[i] !in regs.at {
          ClaimLegacyId(pasts[i], key);
        }
      }
    }

    method IndexStoredKnownIds()
      requires Sound(regs)
      modifies `aliases
      ensures aliases == IndexStored(old(aliases), regs, regs.order, rank)
    {
      var keys := regs.order;
      for i := 0 to |keys|
        invariant forall j :: i <= j < |keys| ==> keys[j] in regs.at
        invariant IndexStored(aliases, regs, keys[i..], rank) == IndexStored(old(aliases), regs, keys, rank)
      {
        IndexFirst(aliases, regs, keys, i, rank);
        IndexKnownIdsOf(keys[i], regs.at[keys[i]].knownIds);
      }
    }

    /** The aliases every stored address still gives. */
    method DeriveLegacyAliases()
      requires Sound(regs)
      modifies `aliases
      ensures aliases == DeriveAliases(old(aliases), regs, regs.order)
    {
      var keys := regs.order;
      for i := 0 to |keys|
        invariant forall j :: i <= j < |keys| ==> keys[j] in regs.at
        invariant DeriveAliases(aliases, regs, keys[i..]) == DeriveAliases(old(aliases), regs, keys)
      {
        DeriveFirst(aliases, regs, keys, i);
        var reg := regs.at[keys[i]];
        if HasSerial(reg) {
          var legacy, current := LegacyIdOf(reg), CurrentIdOf(reg);
          if legacy != current && legacy !in regs.at && legacy !in aliases {
            aliases := aliases[legacy := current];
          }
        }
      }
    }

    method CollectGroup(target: Id) returns (group: seq<Copy>)
      requires Sound(regs)
      ensures group == Group(regs, target)
    {
      var copies: seq<Copy> := [];
      for i := 0 to |regs.order|
        invariant copies + GroupFrom(regs, target, i) == GroupFrom(regs, target, 0)
      {
        ghost var before, rest := copies, GroupFrom(regs, target, i + 1);
        var key := regs.order[i];
        var reg := regs.at[key];
        if HasSerial(reg) && key != CurrentIdOf(reg) && key == LegacyIdOf(reg) && CurrentIdOf(reg) == target {
          copies := copies + [Copy(i, key, reg)];
          assert copies + rest == before + ([Copy(i, key, reg)] + rest);
        } else {
          assert [] + rest == rest;
        }
      }
      assert copies + [] == copies;
      group := Sorted(copies);
    }

    method CarryNewestAddress(target: Id, donor: Registration)
      requires target in regs.at
      modifies `regs
      ensures View().book == Readdress(old(View().book), target, donor)
    {
      var winner := regs.at[target];
      if donor.descriptor.network.Some? && donor.descriptor.network != winner.descriptor.network {
        winner := winner.(descriptor :=
          winner.descriptor.(network := donor.descriptor.network, caption := donor.descriptor.caption));
      }
      regs := Put(regs, target, winner);
    }

    /** The winner goes on answering to its old id and to every id it remembers. */
    method RememberWinner(target: Id, past: Id, known: seq<Id>) returns (longer: seq<Id>)
      modifies `aliases
      ensures longer == RememberKnown(known, past, target)
      ensures aliases == RememberAliases(old(aliases), regs.at.Keys, [past] + longer, target, rank)
    {
      longer := RememberOldId(known, past, target);
      var _ := RememberOldIds(longer, longer, target);
      assert ([past] + longer)[1..] == longer;
    }

    /** The winner of a group nothing is stored for yet moves to the new id. */
    method MoveWinner(target: Id, c: Copy)
      requires target !in regs.at
      modifies `regs, `aliases
      ensures View().book == Enthrone(old(View().book), target, c, rank)
    {
      regs := Pop(regs, c.key);
      var winner := c.reg.(descriptor := c.reg.descriptor.(id := target));
      regs := Put(regs, target, winner);
      assert regs.at.Keys == Pop(old(regs), c.key).at.Keys + {target};
      var known := RememberWinner(target, c.key, winner.knownIds);
      regs := Put(regs, target, winner.(knownIds := Without(known, target)));
    }

    method RetireLoser(target: Id, c: Copy)
      requires target in regs.at && target != c.key
      modifies `regs, `aliases
      ensures View().book == Retire(old(View().book), target, c, rank) && target in regs.at
    {
      var winner := regs.at[target];
      regs := Pop(regs, c.key);
      var known := RememberOldIds(winner.knownIds, [c.key] + c.reg.knownIds, target);
      var merged := AbsorbLosing(winner.(knownIds := known), c.reg);
      regs := Put(regs, target, merged);
    }

    method RetireLosers(target: Id, losers: seq<Copy>)
      requires target in regs.at && target !in KeysOf(losers)
      modifies `regs, `aliases
      ensures View().book == RetireAll(old(View().book), target, losers, rank)
    {
      KeysOfHolds(losers);
      for i := 0 to |losers|
        invariant target in regs.at
        invariant RetireAll(View().book, target, losers[i..], rank) == RetireAll(old(View().book), target, losers, rank)
      {
        assert losers[i] in losers;
        assert losers[i..] == [losers[i]] + losers[i + 1..];
        RetireLoser(target, losers[i]);
      }
    }

    method MoveOneGroup(positions: seq<Id>, target: Id, group: seq<Copy>)
      requires group != [] ==> target !in KeysOf(group)
      modifies `regs, `aliases
      ensures View().book == MoveGroup(old(View().book), positions, target, group, rank)
    {
      if group == [] {
        return;
      }
      var candidates, losers := group, group;
      if target in regs.at {
        candidates := candidates + [Copy(PositionOf(positions, target), target, regs.at[target])];
      } else {
        MoveWinner(target, group[0]);
        losers := group[1..];
      }
      CarryNewestAddress(target, Donor(candidates).reg);
      RetireLosers(target, losers);
    }

    method CollectGroups(targets: seq<Id>) returns (groups: seq<seq<Copy>>, changed: bool)
      requires Sound(regs)
      ensures |groups| == |targets| && forall j :: 0 <= j < |targets| ==> groups[j] == Group(regs, targets[j])
      ensures changed <==> exists j :: 0 <= j < |groups| && groups[j] != []
    {
      groups, changed := [], false;
      for i := 0 to |targets|
        invariant |groups| == i && forall j :: 0 <= j < i ==> groups[j] == Group(regs, targets[j])
        invariant changed <==> exists j :: 0 <= j < i && groups[j] != []
      {
        var group := CollectGroup(targets[i]);
        groups := groups + [group];
        changed := changed || group != [];
      }
    }

    /** Every group in turn; `read` is the dictionary the groups were collected from. */
    method MoveAllGroups(ghost read: Dict, positions: seq<Id>, targets: seq<Id>, groups: seq<seq<Copy>>)
      requires Sound(read) && read.order == positions && Distinct(targets)
      requires Good(read.at, View().book) && Untouched(read, View().book, targets)
      requires |groups| == |targets| && forall j :: 0 <= j < |targets| ==> groups[j] == Group(read, targets[j])
      modifies `regs, `aliases
      ensures View().book == MoveGroups(old(View().book), read, targets, rank) && Sound(regs)
    {
      assert targets[0..] == targets;
      for i := 0 to |targets|
        invariant Good(read.at, View().book) && Untouched(read, View().book, targets[i..])
        invariant MoveGroups(View().book, read, targets[i..], rank) == MoveGroups(old(View().book), read, targets, rank)
      {
        assert targets[i..] == [targets[i]] + targets[i + 1..];
        GroupHolds(read, targets[i]);
        NextGroup(read, View().book, targets[i], targets[i + 1..], rank);
        MoveOneGroup(positions, targets[i], groups[i]);
      }
    }

    /** `_index_legacy_network_ids`, without the copy it takes of the file. `targets` are the
        ids some copy moves to, sorted in the source. */
    method IndexLegacyNetworkIds(targets: seq<Id>, rewriteFile: bool)
      requires Sound(regs) && Targets(regs, targets)
      requires Good(regs.at, Book(regs, DeriveAliases(aliases, regs, regs.order)))
      modifies `regs, `aliases, `file
      ensures var derived := Book(old(regs), DeriveAliases(old(aliases), old(regs), old(regs).order));
              View().book == MoveGroups(derived, old(regs), targets, rank)
      ensures Sound(regs)
      ensures file == if rewriteFile || exists j :: 0 <= j < |targets| && Group(old(regs), targets[j]) != [] then Saved(regs) else old(file)
    {
      DeriveLegacyAliases();
      ghost var read := regs;
      var groups, changed := CollectGroups(targets);
      MoveAllGroups(read, regs.order, targets, groups);
      if changed || rewriteFile {
        Save();
      }
    }

    method Save()
      requires Sound(regs)
      modifies `file
      ensures file == Saved(regs)
    {
      file := [];
      for i := 0 to |regs.order|
        invariant file == Saved(regs)[..i]
      {
        file := file + [regs.at[regs.order[i]]];
      }
      assert Saved(regs)[..|regs.order|] == Saved(regs);
    }

    /** The entries of the file, one by one. */
    method ReadEntries()
      requires regs == Dict([], map[])
      modifies `regs
      ensures regs == ReadFile(file)
    {
      assert file[0..] == file;
      for i := 0 to |file|
        invariant ReadInto(regs, file[i..]) == ReadFile(file)
      {
        assert file[i..] == [file[i]] + file[i + 1..];
        regs := Put(regs, file[i].descriptor.id, file[i]);
      }
    }

    /** `load`. */
    method LoadFile(targets: seq<Id>, rewriteFile: bool)
      requires regs == Dict([], map[]) && aliases == map[] && Targets(ReadFile(file), targets)
      modifies `regs, `aliases, `file
      ensures View().book == Load(old(file), targets, rank) && Sound(regs)
      ensures file == old(file) || file == Saved(regs)
    {
      ReadKnows(Dict([], map[]), file);
      ReadEntries();
      IndexedGood(regs, rank);
      IndexStoredKnownIds();
      IndexLegacyNetworkIds(targets, rewriteFile);
    }

    /** `_resolve`. */
    method ResolveId(id: Id) returns (key: Option<Id>)
      ensures key == Found(View().book, id)
    {
      if id in regs.at {
        return Some(id);
      }
      if id in aliases && aliases[id] in regs.at {
        return Some(aliases[id]);
      }
      return None;
    }

    /** What was discovered under the id or under the one it resolves to, or else is stored. */
    method ChooseDescriptor(id: Id, resolved: Option<Id>) returns (descriptor: Option<Descriptor>)
      requires resolved == Found(View().book, id)
      ensures descriptor == ChosenDescriptor(View(), id)
    {
      if id in discovery {
        return Some(discovery[id]);
      }
      if resolved.None? {
        return None;
      }
      if resolved.value != id && resolved.value in discovery {
        return Some(discovery[resolved.value]);
      }
      return Some(regs.at[resolved.value].descriptor);
    }

    /** `register`; `ok` is false where it raises. */
    method RegisterTerminal(req: Request) returns (ok: bool)
      requires Valid(View())
      modifies `regs, `aliases, `file
      ensures ok == Registered(old(View()), req).Some?
      ensures View() == After(old(View()), Register(req)) && Valid(View())
      ensures file == if ok then Saved(regs) else old(file)
    {
      CallKeepsValid(View(), Register(req));
      var resolved := ResolveId(req.id);
      var chosen := ChooseDescriptor(req.id, resolved);
      if chosen.None? {
        return false;
      }
      var descriptor := chosen.value;
      var merchants, known := [], [];
      if resolved.Some? {
        merchants, known := regs.at[resolved.value].merchants, regs.at[resolved.value].knownIds;
      }
      if req.merchants.Some? {
        merchants := req.merchants.value;
      }
      if resolved.Some? && resolved.value != descriptor.id {
        regs := Pop(regs, resolved.value);
        if resolved.value !in known {
          known := known + [resolved.value];
        }
        aliases := Redirected(aliases, resolved.value, descriptor.id);
      }
      known := Without(known, descriptor.id);
      regs := Put(regs, descriptor.id,
        Registration(descriptor, req.kind, req.nickname, req.defaultMerchant, req.defaultTerminal, merchants, known));
      Save();
      return true;
    }

    method SetMerchants(key: Id, merchants: seq<Merchant>)
      requires Valid(View()) && key in regs.at
      modifies `regs, `file
      ensures View() == WithMerchants(old(View()), key, merchants) && Valid(View()) && file == Saved(regs)
    {
      WithMerchantsValid(View(), key, merchants);
      regs := Put(regs, key, regs.at[key].(merchants := merchants));
      Save();
    }

    /** `update_merchants`. */
    method ReplaceMerchants(id: Id, merchants: seq<Merchant>) returns (ok: bool)
      requires Valid(View())
      modifies `regs, `file
      ensures ok == Found(old(View()).book, id).Some?
      ensures View() == After(old(View()), UpdateMerchants(id, merchants)) && Valid(View())
      ensures file == if ok then Saved(regs) else old(file)
    {
      var resolved := ResolveId(id);
      if resolved.None? {
        return false;
      }
      SetMerchants(resolved.value, merchants);
      return true;
    }

    /** `merge_merchant_list`. */
    method RefreshMerchants(id: Id, listed: seq<Merchant>) returns (merged: seq<Merchant>)
      requires Valid(View())
      modifies `regs, `file
      ensures merged == MerchantsAnswered(old(View()), id, listed)
      ensures View() == After(old(View()), MergeMerchantList(id, listed)) && Valid(View())
      ensures file == if Found(old(View()).book, id).Some? then Saved(regs) else old(file)
    {
      var resolved := ResolveId(id);
      ghost var stored := MerchantsBefore(View().book, resolved);
      var index: map<Key, string> := map[];
      if resolved.Some? {
        index := NicknameIndex(regs.at[resolved.value].merchants);
      }
      merged := [];
      for i := 0 to |listed|
        invariant merged == Refreshed(stored, listed)[..i]
      {
        var m := listed[i];
        if KeyOf(m) in index {
          m := m.(nickname := index[KeyOf(m)]);
        }
        merged := merged + [m];
      }
      assert merged == Refreshed(stored, listed);
      if resolved.Some? {
        SetMerchants(resolved.value, merged);
      }
    }

    /** `unregister`. */
    method UnregisterTerminal(id: Id) returns (ok: bool)
      requires Valid(View())
      modifies `regs, `aliases, `file
      ensures ok == Found(old(View()).book, id).Some?
      ensures View() == After(old(View()), Unregister(id)) && Valid(View())
      ensures file == if ok then Saved(regs) else old(file)
    {
      CallKeepsValid(View(), Unregister(id));
      var resolved := ResolveId(id);
      if resolved.None? {
        return false;
      }
      regs := Pop(regs, resolved.value);
      aliases := Forgotten(aliases, resolved.value);
      Save();
      return true;
    }
  }
}
