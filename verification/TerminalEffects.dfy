/** What each call does to the registrations and to the ids that lead to them, field by field. */
module TerminalEffects {
  import opened Options
  import opened TerminalIds
  import opened TerminalMerge
  import opened TerminalLoad
  import opened TerminalResolve
  import opened TerminalRuns

  /** Registering under an id that neither was discovered nor leads anywhere changes nothing. */
  lemma UnknownIsNotRegistered(r: Registry, req: Request)
    requires req.id !in r.discovery && Found(r.book, req.id).None?
    ensures After(r, Register(req)) == r
  {
  }

  /** The descriptor is the one just discovered under the id asked for, or under the one it leads
      to, or the stored one; kind, nickname and defaults are the request's; without a list of
      merchants the stored ones stay. */
  lemma RegisteredFields(r: Registry, req: Request)
    requires Valid(r) && (req.id in r.discovery || Found(r.book, req.id).Some?)
    ensures var before, found, t := r.book.regs.at, Found(r.book, req.id), After(r, Register(req)).book.regs.at;
            && (found.Some? ==> found.value in before)
            && var d := if req.id in r.discovery then r.discovery[req.id]
                        else if found.value in r.discovery then r.discovery[found.value]
                        else before[found.value].descriptor;
               && d.id in t && t[d.id].descriptor == d
               && t[d.id].kind == req.kind && t[d.id].nickname == req.nickname
               && t[d.id].defaultMerchant == req.defaultMerchant && t[d.id].defaultTerminal == req.defaultTerminal
               && t[d.id].merchants == (if req.merchants.Some? then req.merchants.value
                                        else if found.Some? then before[found.value].merchants else [])
               && (forall id :: id in t[d.id].knownIds <==>
                     id != d.id && found.Some? && (id == found.value || id in before[found.value].knownIds))
  {
    var found := Found(r.book, req.id);
    var d := ChosenDescriptor(r, req.id).value;
    var known := KnownBefore(r.book, found);
    var longer := if found.Some? && found.value != d.id && found.value !in known then known + [found.value] else known;
    WithoutKeepsOthers(longer, d.id);
  }

  /** Replacing a list changes that list and nothing else. */
  lemma ReplacedFields(r: Registry, id: Id, merchants: seq<Merchant>)
    requires Valid(r) && Found(r.book, id).Some?
    ensures var k, t := Found(r.book, id).value, After(r, UpdateMerchants(id, merchants)).book;
            && t.aliases == r.book.aliases && t.regs.order == r.book.regs.order
            && t.regs.at == r.book.regs.at[k := r.book.regs.at[k].(merchants := merchants)]
  {
  }

  /** Refreshing puts the bank's entries in, with the last nickname the operator stored for each. */
  lemma MergedFields(r: Registry, id: Id, listed: seq<Merchant>)
    requires Valid(r) && Found(r.book, id).Some?
    ensures var k, t := Found(r.book, id).value, After(r, MergeMerchantList(id, listed)).book;
            && t.aliases == r.book.aliases && t.regs.order == r.book.regs.order
            && t.regs.at == r.book.regs.at[k := r.book.regs.at[k].(merchants := Refreshed(r.book.regs.at[k].merchants, listed))]
  {
  }

  /** The nickname is the last one stored under the binding's key. */
  lemma {:induction false} LastNicknameStored(ms: seq<Merchant>, k: Key, i: nat)
    requires i < |ms| && KeyOf(ms[i]) == k && ms[i].nickname != ""
    requires forall j :: i < j < |ms| && KeyOf(ms[j]) == k ==> ms[j].nickname == ""
    ensures StoredNickname(ms, k) == ms[i].nickname
  {
    if i < |ms| - 1 {
      LastNicknameStored(ms[..|ms| - 1], k, i);
    }
  }

  /** An unregistered terminal is gone, with every id that led to it, unless its own id is at the
      same time an old id of another one: then it leads there. Every other id leads where it did. */
  lemma UnregisteredIsGone(r: Registry, id: Id, other: Id)
    requires Valid(r) && Found(r.book, id).Some?
    ensures var k, t := Found(r.book, id).value, After(r, Unregister(id)).book;
            && t.regs.at == r.book.regs.at - {k}
            && Found(t, other) ==
                 if Found(r.book, other) != Some(k) then Found(r.book, other)
                 else if other == k && k in r.book.aliases && r.book.aliases[k] != k && r.book.aliases[k] in r.book.regs.at
                 then Some(r.book.aliases[k])
                 else None
  {
  }

  /** Of several descriptors of one id the sweep reports last counts. */
  lemma {:induction false} LastDiscovered(descriptors: seq<Descriptor>, i: nat)
    requires i < |descriptors| && forall j :: i < j < |descriptors| ==> descriptors[j].id != descriptors[i].id
    ensures descriptors[i].id in ById(descriptors) && ById(descriptors)[descriptors[i].id] == descriptors[i]
  {
    if i < |descriptors| - 1 {
      LastDiscovered(descriptors[..|descriptors| - 1], i);
    }
  }
}
