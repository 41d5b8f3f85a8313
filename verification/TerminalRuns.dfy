/** The registry at work: registering, renaming merchants, refreshing them from the bank and
    unregistering, in any order. */
module TerminalRuns {
  import opened Options
  import opened TerminalIds
  import opened TerminalMerge
  import opened TerminalLoad
  import opened TerminalResolve

  datatype Request = Request(
    id: Id, kind: nat, nickname: string, defaultMerchant: string, defaultTerminal: string,
    merchants: Option<seq<Merchant>>)

  type Discovery = map<Id, Descriptor>

  datatype Registry = Registry(book: Book, discovery: Discovery)

  function Found(b: Book, id: Id): Option<Id> {
    Resolve(b.regs.at.Keys, b.aliases, id)
  }

  // ----- `register` --------------------------------------------------------------

  /** The descriptor a registration is made with: the one just discovered under the id asked
      for or under the one it resolves to, else the stored one. */
  function ChosenDescriptor(r: Registry, id: Id): Option<Descriptor> {
    var resolved := Found(r.book, id);
    if id in r.discovery then Some(r.discovery[id])
    else if resolved.None? then None
    else if resolved.value != id && resolved.value in r.discovery then Some(r.discovery[resolved.value])
    else Some(r.book.regs.at[resolved.value].descriptor)
  }

  function Redirected(aliases: Aliases, from: Id, to: Id): Aliases {
    (map past | past in aliases :: if aliases[past] == from then to else aliases[past])[from := to]
  }

  function KnownBefore(b: Book, resolved: Option<Id>): seq<Id> {
    if resolved.Some? && resolved.value in b.regs.at then b.regs.at[resolved.value].knownIds else []
  }

  function MerchantsBefore(b: Book, resolved: Option<Id>): seq<Merchant> {
    if resolved.Some? && resolved.value in b.regs.at then b.regs.at[resolved.value].merchants else []
  }

  function NewRegistration(b: Book, resolved: Option<Id>, d: Descriptor, req: Request): Registration {
    var known := KnownBefore(b, resolved);
    var longer := if resolved.Some? && resolved.value != d.id && resolved.value !in known then known + [resolved.value] else known;
    Registration(
      d, req.kind, req.nickname, req.defaultMerchant, req.defaultTerminal,
      if req.merchants.Some? then req.merchants.value else MerchantsBefore(b, resolved),
      Without(longer, d.id))
  }

  /** `register`; nothing when it raises. */
  function Registered(r: Registry, req: Request): Option<Registry> {
    var chosen := ChosenDescriptor(r, req.id);
    if chosen.None? then None
    else
      var b, d, resolved := r.book, chosen.value, Found(r.book, req.id);
      var moves := resolved.Some? && resolved.value != d.id;
      var regs := if moves then Pop(b.regs, resolved.value) else b.regs;
      var aliases := if moves then Redirected(b.aliases, resolved.value, d.id) else b.aliases;
      Some(r.(book := Book(Put(regs, d.id, NewRegistration(b, resolved, d, req)), aliases)))
  }

  // ----- the other calls ------------------------------------------------------------

  function WithMerchants(r: Registry, key: Id, merchants: seq<Merchant>): Registry {
    if key !in r.book.regs.at then r
    else r.(book := r.book.(regs := Put(r.book.regs, key, r.book.regs.at[key].(merchants := merchants))))
  }

  function MerchantsUpdated(r: Registry, id: Id, merchants: seq<Merchant>): Option<Registry> {
    var resolved := Found(r.book, id);
    if resolved.None? then None else Some(WithMerchants(r, resolved.value, merchants))
  }

  /** The last nickname stored for a binding, if any is. */
  function StoredNickname(ms: seq<Merchant>, k: Key): string {
    if ms == [] then ""
    else
      var last := ms[|ms| - 1];
      if KeyOf(last) == k && last.nickname != "" then last.nickname else StoredNickname(ms[..|ms| - 1], k)
  }

  function Renamed(stored: seq<Merchant>, m: Merchant): Merchant {
    var nickname := StoredNickname(stored, KeyOf(m));
    if nickname != "" then m.(nickname := nickname) else m
  }

  /** The bank's list with the operator's nicknames. */
  function Refreshed(stored: seq<Merchant>, listed: seq<Merchant>): (r: seq<Merchant>)
    ensures |r| == |listed|
  {
    seq(|listed|, i requires 0 <= i < |listed| => Renamed(stored, listed[i]))
  }

  /** `merge_merchant_list`: what is answered, and what is kept. */
  function MerchantsAnswered(r: Registry, id: Id, listed: seq<Merchant>): seq<Merchant> {
    Refreshed(MerchantsBefore(r.book, Found(r.book, id)), listed)
  }

  function MerchantsMerged(r: Registry, id: Id, listed: seq<Merchant>): Registry {
    var resolved := Found(r.book, id);
    if resolved.None? then r else WithMerchants(r, resolved.value, MerchantsAnswered(r, id, listed))
  }

  function Forgotten(aliases: Aliases, key: Id): Aliases {
    map past | past in aliases && aliases[past] != key :: aliases[past]
  }

  function Unregistered(r: Registry, id: Id): Option<Registry> {
    var resolved := Found(r.book, id);
    if resolved.None? then None
    else Some(r.(book := Book(Pop(r.book.regs, resolved.value), Forgotten(r.book.aliases, resolved.value))))
  }

  function ById(descriptors: seq<Descriptor>): Discovery {
    if descriptors == [] then map[]
    else
      var last := descriptors[|descriptors| - 1];
      ById(descriptors[..|descriptors| - 1])[last.id := last]
  }

  // ----- runs -------------------------------------------------------------------------

  datatype Call =
    | Discover(descriptors: seq<Descriptor>)
    | AddManually(descriptor: Descriptor)
    | Register(req: Request)
    | UpdateMerchants(id: Id, merchants: seq<Merchant>)
    | MergeMerchantList(id: Id, listed: seq<Merchant>)
    | Unregister(id: Id)

  function OrSame(r: Registry, next: Option<Registry>): Registry {
    if next.Some? then next.value else r
  }

  /** A call that raises leaves everything as it was. */
  function After(r: Registry, call: Call): Registry {
    match call
    case Discover(descriptors) => r.(discovery := ById(descriptors))
    case AddManually(d) => r.(discovery := r.discovery[d.id := d])
    case Register(req) => OrSame(r, Registered(r, req))
    case UpdateMerchants(id, merchants) => OrSame(r, MerchantsUpdated(r, id, merchants))
    case MergeMerchantList(id, listed) => MerchantsMerged(r, id, listed)
    case Unregister(id) => OrSame(r, Unregistered(r, id))
  }

  function AfterAll(r: Registry, calls: seq<Call>): Registry
    decreases |calls|
  {
    if calls == [] then r else AfterAll(After(r, calls[0]), calls[1..])
  }

  /** What becomes of the registration stored under `key`: the id it is stored under after
      the call, or nothing once it has been unregistered. */
  function Successor(r: Registry, call: Call, key: Id): Option<Id> {
    match call
    case Register(req) =>
      if Found(r.book, req.id) == Some(key) && ChosenDescriptor(r, req.id).Some? then Some(ChosenDescriptor(r, req.id).value.id)
      else Some(key)
    case Unregister(id) => if Found(r.book, id) == Some(key) then None else Some(key)
    case _ => Some(key)
  }

  function Heir(r: Registry, calls: seq<Call>, key: Id): Option<Id>
    decreases |calls|
  {
    if calls == [] then Some(key)
    else
      var next := Successor(r, calls[0], key);
      if next.None? then None else Heir(After(r, calls[0]), calls[1..], next.value)
  }

  ghost predicate Valid(r: Registry) {
    Sound(r.book.regs) && forall id :: id in r.discovery ==> r.discovery[id].id == id
  }

  /** The new id is the one asked for or the one it resolves to, so that registering never
      falls on another registration. */
  lemma RegisterFallsOnItself(r: Registry, req: Request)
    requires Valid(r) && ChosenDescriptor(r, req.id).Some?
    ensures var d, resolved := ChosenDescriptor(r, req.id).value, Found(r.book, req.id);
            && (d.id == req.id || resolved == Some(d.id))
            && (d.id in r.book.regs.at ==> resolved == Some(d.id))
  {
  }

  /** Registering leaves every other registration exactly as it was. */
  lemma RegisterOverwritesNoOther(r: Registry, req: Request, key: Id)
    requires Valid(r) && key in r.book.regs.at && Found(r.book, req.id) != Some(key)
    ensures var t := After(r, Register(req)).book.regs.at; key in t && t[key] == r.book.regs.at[key]
  {
    if ChosenDescriptor(r, req.id).Some? {
      RegisterFallsOnItself(r, req);
    }
  }

  lemma {:induction false} ByIdIsKeyed(descriptors: seq<Descriptor>)
    ensures forall id :: id in ById(descriptors) ==> ById(descriptors)[id].id == id
  {
    if descriptors != [] {
      ByIdIsKeyed(descriptors[..|descriptors| - 1]);
    }
  }

  lemma WithMerchantsValid(r: Registry, key: Id, merchants: seq<Merchant>)
    requires Valid(r)
    ensures Valid(WithMerchants(r, key, merchants))
  {
    if key in r.book.regs.at {
      PutSound(r.book.regs, key, r.book.regs.at[key].(merchants := merchants));
    }
  }

  lemma RegisterValid(r: Registry, req: Request)
    requires Valid(r)
    ensures Valid(After(r, Register(req)))
  {
    var chosen, resolved := ChosenDescriptor(r, req.id), Found(r.book, req.id);
    if chosen.Some? {
      var d := chosen.value;
      var moves := resolved.Some? && resolved.value != d.id;
      if moves {
        PopSound(r.book.regs, resolved.value);
      }
      PutSound(if moves then Pop(r.book.regs, resolved.value) else r.book.regs, d.id, NewRegistration(r.book, resolved, d, req));
    }
  }

  /** Every call keeps each key its registration's own id. */
  lemma CallKeepsValid(r: Registry, call: Call)
    requires Valid(r)
    ensures Valid(After(r, call))
  {
    match call
    case Discover(descriptors) => ByIdIsKeyed(descriptors);
    case AddManually(d) =>
    case Register(req) => RegisterValid(r, req);
    case UpdateMerchants(id, merchants) =>
      if Found(r.book, id).Some? {
        WithMerchantsValid(r, Found(r.book, id).value, merchants);
      }
    case MergeMerchantList(id, listed) =>
      if Found(r.book, id).Some? {
        WithMerchantsValid(r, Found(r.book, id).value, MerchantsAnswered(r, id, listed));
      }
    case Unregister(id) =>
      if Found(r.book, id).Some? {
        PopSound(r.book.regs, Found(r.book, id).value);
      }
  }

  lemma RegisterKeepsAnswers(r: Registry, req: Request, id: Id)
    requires Valid(r) && Found(r.book, id).Some?
    ensures var call := Register(req);
            Found(After(r, call).book, id) == Successor(r, call, Found(r.book, id).value)
  {
    if ChosenDescriptor(r, req.id).Some? {
      RegisterFallsOnItself(r, req);
    }
  }

  lemma CallKeepsAnswers(r: Registry, call: Call, id: Id)
    requires Valid(r) && Found(r.book, id).Some? && Successor(r, call, Found(r.book, id).value).Some?
    ensures Found(After(r, call).book, id) == Successor(r, call, Found(r.book, id).value)
  {
    if call.Register? {
      RegisterKeepsAnswers(r, call.req, id);
    }
  }

  /** Over any run an id that resolves goes on resolving, to the registration it resolved to
      or to the one that took its place, until that one is unregistered. */
  lemma {:induction false} RunKeepsAnswers(r: Registry, calls: seq<Call>, id: Id)
    requires Valid(r) && Found(r.book, id).Some? && Heir(r, calls, Found(r.book, id).value).Some?
    ensures Found(AfterAll(r, calls).book, id) == Heir(r, calls, Found(r.book, id).value)
    ensures Valid(AfterAll(r, calls))
    decreases |calls|
  {
    if calls != [] {
      CallKeepsAnswers(r, calls[0], id);
      CallKeepsValid(r, calls[0]);
      RunKeepsAnswers(After(r, calls[0]), calls[1..], id);
    }
  }

  // ----- ids on disk -----------------------------------------------------------------------

  /** The registration under `key` names the id, so that the file does. */
  predicate Names(r: Registry, key: Id, id: Id) {
    key in r.book.regs.at && (id == key || id in r.book.regs.at[key].knownIds)
  }

  lemma RegisterKeepsNames(r: Registry, req: Request, key: Id, id: Id)
    requires Valid(r) && Names(r, key, id)
    ensures Names(After(r, Register(req)), Successor(r, Register(req), key).value, id)
  {
    var chosen, resolved := ChosenDescriptor(r, req.id), Found(r.book, req.id);
    if chosen.Some? {
      RegisterFallsOnItself(r, req);
      if resolved == Some(key) {
        var d, known := chosen.value, r.book.regs.at[key].knownIds;
        var longer := if key != d.id && key !in known then known + [key] else known;
        WithoutKeepsOthers(longer, d.id);
      }
    }
  }

  /** Over any run every id a registration names is named by its heir: no id is lost at the
      next start either. */
  lemma CallKeepsNames(r: Registry, call: Call, key: Id, id: Id)
    requires Valid(r) && Names(r, key, id) && Successor(r, call, key).Some?
    ensures Names(After(r, call), Successor(r, call, key).value, id)
  {
    if call.Register? {
      RegisterKeepsNames(r, call.req, key, id);
    }
  }

  lemma {:induction false} RunKeepsNames(r: Registry, calls: seq<Call>, key: Id, id: Id)
    requires Valid(r) && Names(r, key, id) && Heir(r, calls, key).Some?
    ensures Names(AfterAll(r, calls), Heir(r, calls, key).value, id)
    decreases |calls|
  {
    if calls != [] {
      CallKeepsNames(r, calls[0], key, id);
      CallKeepsValid(r, calls[0]);
      RunKeepsNames(After(r, calls[0]), calls[1..], Successor(r, calls[0], key).value, id);
    }
  }

  lemma {:induction false} RunKeepsValid(r: Registry, calls: seq<Call>)
    requires Valid(r)
    ensures Valid(AfterAll(r, calls))
    decreases |calls|
  {
    if calls != [] {
      CallKeepsValid(r, calls[0]);
      RunKeepsValid(After(r, calls[0]), calls[1..]);
    }
  }

  /** Start, any run, restart: an id the file named still resolves. */
  lemma RestartAfterARun(r: Registry, calls: seq<Call>, key: Id, id: Id, targets: seq<Id>, rank: Rank)
    requires Valid(r) && Names(r, key, id) && id != NO_ID && Heir(r, calls, key).Some?
    requires Targets(AfterAll(r, calls).book.regs, targets)
    ensures var stored := AfterAll(r, calls).book.regs;
            Sound(stored) && Found(Load(Saved(stored), targets, rank), id).Some?
  {
    RunKeepsNames(r, calls, key, id);
    RunKeepsValid(r, calls);
    var stored := AfterAll(r, calls).book.regs;
    ReadFileSaved(stored);
    assert Tracked(stored.at, id);
    LoadLosesNoId(Saved(stored), targets, rank, id);
  }

  // ----- nicknames ---------------------------------------------------------------------------

  predicate Lists(ms: seq<Merchant>, k: Key) {
    exists i :: 0 <= i < |ms| && KeyOf(ms[i]) == k
  }

  lemma {:induction false} StoredNicknameIsStored(ms: seq<Merchant>, k: Key)
    ensures StoredNickname(ms, k) != "" ==> exists i :: 0 <= i < |ms| && KeyOf(ms[i]) == k && ms[i].nickname == StoredNickname(ms, k)
    ensures StoredNickname(ms, k) == "" ==> forall i :: 0 <= i < |ms| && KeyOf(ms[i]) == k ==> ms[i].nickname == ""
  {
    if ms != [] {
      StoredNicknameIsStored(ms[..|ms| - 1], k);
    }
  }

  /** The refreshed list is the bank's, entry for entry; an entry with a stored nickname gets
      it, any other keeps its own. */
  lemma RefreshedEntry(stored: seq<Merchant>, listed: seq<Merchant>, i: nat)
    requires i < |listed|
    ensures var m := Refreshed(stored, listed)[i];
            && KeyOf(m) == KeyOf(listed[i]) && m.name == listed[i].name
            && (m.nickname == listed[i].nickname || StoredNickname(stored, KeyOf(m)) == m.nickname)
            && ((exists j :: 0 <= j < |stored| && KeyOf(stored[j]) == KeyOf(m) && stored[j].nickname != "") ==>
                  m.nickname != "" && exists j :: 0 <= j < |stored| && KeyOf(stored[j]) == KeyOf(m) && stored[j].nickname == m.nickname)
  {
    StoredNicknameIsStored(stored, KeyOf(listed[i]));
  }

  lemma NicknameSurvivesRefresh(stored: seq<Merchant>, listed: seq<Merchant>, k: Key)
    requires Lists(listed, k) && StoredNickname(stored, k) != ""
    ensures StoredNickname(Refreshed(stored, listed), k) == StoredNickname(stored, k)
  {
    var merged := Refreshed(stored, listed);
    var i :| 0 <= i < |listed| && KeyOf(listed[i]) == k;
    assert KeyOf(merged[i]) == k && merged[i].nickname == StoredNickname(stored, k);
    StoredNicknameIsStored(merged, k);
  }

  function RefreshedAll(stored: seq<Merchant>, lists: seq<seq<Merchant>>): seq<Merchant>
    decreases |lists|
  {
    if lists == [] then stored else RefreshedAll(Refreshed(stored, lists[0]), lists[1..])
  }

  /** A nickname the operator chose survives any number of refreshes, as long as the bank
      goes on listing the binding. */
  lemma {:induction false} NicknamesStick(stored: seq<Merchant>, lists: seq<seq<Merchant>>, k: Key)
    requires StoredNickname(stored, k) != "" && forall i :: 0 <= i < |lists| ==> Lists(lists[i], k)
    ensures StoredNickname(RefreshedAll(stored, lists), k) == StoredNickname(stored, k)
    decreases |lists|
  {
    if lists != [] {
      NicknameSurvivesRefresh(stored, lists[0], k);
      NicknamesStick(Refreshed(stored, lists[0]), lists[1..], k);
    }
  }
}
