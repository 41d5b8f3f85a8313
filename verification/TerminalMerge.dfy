/** Putting several stored copies of one terminal together: which copy keeps the id, what
    it takes from the others, whose address it ends up with. */
module TerminalMerge {
  import opened Options
  import opened TerminalIds
  import opened Texts

  // ----- merchants ----------------------------------------------------------

  /** Where the binding with this key is; of several, the last one, as a dictionary built
      from the list holds it. */
  function IndexOf(ms: seq<Merchant>, k: Key): (i: int)
    ensures -1 <= i < |ms|
    ensures i >= 0 ==> KeyOf(ms[i]) == k && forall j :: i < j < |ms| ==> KeyOf(ms[j]) != k
    ensures i == -1 ==> forall j :: 0 <= j < |ms| ==> KeyOf(ms[j]) != k
  {
    if ms == [] then -1
    else if KeyOf(ms[|ms| - 1]) == k then |ms| - 1
    else IndexOf(ms[..|ms| - 1], k)
  }

  predicate HasKey(ms: seq<Merchant>, k: Key) {
    IndexOf(ms, k) >= 0
  }

  /** The nickname the operator gave to this binding. */
  function NicknameOf(ms: seq<Merchant>, k: Key): string {
    if HasKey(ms, k) then ms[IndexOf(ms, k)].nickname else ""
  }

  function FirstNonBlank(a: string, b: string): string {
    if Blank(a) && !Blank(b) then b else a
  }

  function AddMerchant(ms: seq<Merchant>, m: Merchant): seq<Merchant> {
    var i := IndexOf(ms, KeyOf(m));
    if i < 0 then ms + [m]
    else if Blank(ms[i].nickname) && !Blank(m.nickname) then ms[i := ms[i].(nickname := m.nickname)]
    else ms
  }

  function AddMerchants(ms: seq<Merchant>, others: seq<Merchant>): seq<Merchant>
    decreases |others|
  {
    if others == [] then ms else AddMerchants(AddMerchant(ms, others[0]), others[1..])
  }

  predicate UniqueKeys(ms: seq<Merchant>) {
    forall i, j :: 0 <= i < j < |ms| ==> KeyOf(ms[i]) != KeyOf(ms[j])
  }

  lemma IndexIsUnique(ms: seq<Merchant>, k: Key, i: nat)
    requires i < |ms| && KeyOf(ms[i]) == k && forall j :: i < j < |ms| ==> KeyOf(ms[j]) != k
    ensures IndexOf(ms, k) == i
  {
  }

  lemma AddMerchantEffect(ms: seq<Merchant>, m: Merchant, k: Key)
    ensures HasKey(AddMerchant(ms, m), k) <==> HasKey(ms, k) || k == KeyOf(m)
    ensures k != KeyOf(m) ==> NicknameOf(AddMerchant(ms, m), k) == NicknameOf(ms, k)
    ensures k == KeyOf(m) ==>
              NicknameOf(AddMerchant(ms, m), k) ==
              if HasKey(ms, k) then FirstNonBlank(NicknameOf(ms, k), m.nickname) else m.nickname
  {
    var after, i := AddMerchant(ms, m), IndexOf(ms, k);
    if IndexOf(ms, KeyOf(m)) < 0 {
      if k == KeyOf(m) {
        IndexIsUnique(after, k, |ms|);
      } else if i >= 0 {
        IndexIsUnique(after, k, i);
      } else {
        assert forall j :: 0 <= j < |after| ==> KeyOf(after[j]) != k;
      }
    } else {
      assert |after| == |ms| && forall j :: 0 <= j < |ms| ==> KeyOf(after[j]) == KeyOf(ms[j]);
      if i >= 0 {
        IndexIsUnique(after, k, i);
      }
    }
  }

  /** The keys of the merged list are those of both lists; a nickname that is not blank is
      never overwritten; with one entry a key, the other list's nickname fills a blank. */
  lemma {:induction false} AddMerchantsEffect(ms: seq<Merchant>, others: seq<Merchant>, k: Key)
    ensures HasKey(AddMerchants(ms, others), k) <==> HasKey(ms, k) || HasKey(others, k)
    ensures HasKey(ms, k) && !Blank(NicknameOf(ms, k)) ==> NicknameOf(AddMerchants(ms, others), k) == NicknameOf(ms, k)
    ensures UniqueKeys(others) ==>
              NicknameOf(AddMerchants(ms, others), k) ==
              if !HasKey(others, k) then NicknameOf(ms, k)
              else if HasKey(ms, k) then FirstNonBlank(NicknameOf(ms, k), NicknameOf(others, k))
              else NicknameOf(others, k)
    decreases |others|
  {
    if others != [] {
      var m, rest := others[0], others[1..];
      AddMerchantEffect(ms, m, k);
      AddMerchantsEffect(AddMerchant(ms, m), rest, k);
      HeadAndTail(others, k);
    }
  }

  lemma HeadAndTail(ms: seq<Merchant>, k: Key)
    requires ms != []
    ensures HasKey(ms, k) <==> KeyOf(ms[0]) == k || HasKey(ms[1..], k)
    ensures HasKey(ms[1..], k) ==> NicknameOf(ms, k) == NicknameOf(ms[1..], k)
    ensures !HasKey(ms[1..], k) && KeyOf(ms[0]) == k ==> NicknameOf(ms, k) == ms[0].nickname
    ensures UniqueKeys(ms) ==> UniqueKeys(ms[1..]) && (KeyOf(ms[0]) == k ==> !HasKey(ms[1..], k))
  {
    var i := IndexOf(ms[1..], k);
    if i >= 0 {
      IndexIsUnique(ms, k, i + 1);
    } else if KeyOf(ms[0]) == k {
      assert forall j :: 0 < j < |ms| ==> KeyOf(ms[j]) == KeyOf(ms[1..][j - 1]);
      IndexIsUnique(ms, k, 0);
    } else {
      assert forall j :: 0 < j < |ms| ==> KeyOf(ms[j]) == KeyOf(ms[1..][j - 1]);
    }
  }

  /** The bindings the winner already had stay where they were, the new ones come after. */
  lemma {:induction false} MerchantsKeepTheirOrder(ms: seq<Merchant>, others: seq<Merchant>)
    ensures var t := AddMerchants(ms, others);
            |ms| <= |t| && forall i :: 0 <= i < |ms| ==> t[i] == ms[i].(nickname := t[i].nickname)
    decreases |others|
  {
    if others != [] {
      MerchantsKeepTheirOrder(AddMerchant(ms, others[0]), others[1..]);
    }
  }

  // ----- registrations --------------------------------------------------------

  /** `_absorb_losing_registration`, without its two lists for the log. */
  function Absorb(winner: Registration, loser: Registration): Registration {
    var takesDefault := loser.defaultMerchant != "" && winner.defaultMerchant == "";
    winner.(
      nickname := FirstNonBlank(winner.nickname, loser.nickname),
      merchants := AddMerchants(winner.merchants, loser.merchants),
      defaultMerchant := if takesDefault then loser.defaultMerchant else winner.defaultMerchant,
      defaultTerminal :=
        if takesDefault && winner.defaultTerminal == "" then loser.defaultTerminal else winner.defaultTerminal)
  }

  function AbsorbAll(winner: Registration, losers: seq<Registration>): Registration
    decreases |losers|
  {
    if losers == [] then winner else AbsorbAll(Absorb(winner, losers[0]), losers[1..])
  }

  /** The nickname read off the copies in their order: the first that is not blank. */
  function FirstNickname(copies: seq<Registration>): string
    requires copies != []
  {
    if |copies| == 1 then copies[0].nickname else FirstNonBlank(copies[0].nickname, FirstNickname(copies[1..]))
  }

  /** The same for one binding, over the copies that have it. */
  function FirstMerchantNickname(copies: seq<Registration>, k: Key): string {
    if copies == [] then ""
    else
      var rest := FirstMerchantNickname(copies[1..], k);
      if HasKey(copies[0].merchants, k) then FirstNonBlank(NicknameOf(copies[0].merchants, k), rest) else rest
  }

  /** The first copy that names a default merchant. */
  function FirstDefault(copies: seq<Registration>): string {
    if copies == [] then "" else
      if copies[0].defaultMerchant != "" then copies[0].defaultMerchant else FirstDefault(copies[1..])
  }

  function TerminalOfFirstDefault(copies: seq<Registration>): string {
    if copies == [] then ""
    else if copies[0].defaultMerchant != "" then copies[0].defaultTerminal
    else TerminalOfFirstDefault(copies[1..])
  }

  predicate SomeHasKey(copies: seq<Registration>, k: Key) {
    exists i :: 0 <= i < |copies| && HasKey(copies[i].merchants, k)
  }

  lemma SomeHasKeyFirst(first: Registration, rest: seq<Registration>, k: Key)
    ensures SomeHasKey([first] + rest, k) <==> HasKey(first.merchants, k) || SomeHasKey(rest, k)
  {
    var all := [first] + rest;
    assert all[0] == first;
    if i :| 0 <= i < |rest| && HasKey(rest[i].merchants, k) {
      assert all[i + 1] == rest[i];
    }
    if i :| 0 <= i < |all| && HasKey(all[i].merchants, k) {
      assert i > 0 ==> all[i] == rest[i - 1];
    }
  }

  lemma AbsorbKeys(winner: Registration, loser: Registration, k: Key)
    ensures HasKey(Absorb(winner, loser).merchants, k) <==> HasKey(winner.merchants, k) || HasKey(loser.merchants, k)
  {
    AddMerchantsEffect(winner.merchants, loser.merchants, k);
  }

  lemma UnionStep(winner: Registration, losers: seq<Registration>, k: Key)
    requires losers != []
    ensures SomeHasKey([winner] + losers, k) <==> SomeHasKey([Absorb(winner, losers[0])] + losers[1..], k)
  {
    AbsorbKeys(winner, losers[0], k);
    SomeHasKeyFirst(winner, losers, k);
    SomeHasKeyFirst(losers[0], losers[1..], k);
    SomeHasKeyFirst(Absorb(winner, losers[0]), losers[1..], k);
    assert losers == [losers[0]] + losers[1..];
  }

  /** The survivor has the bindings of all the copies, and no others. */
  lemma {:induction false} KeysAreTheUnion(winner: Registration, losers: seq<Registration>, k: Key)
    ensures HasKey(AbsorbAll(winner, losers).merchants, k) <==> SomeHasKey([winner] + losers, k)
    decreases |losers|
  {
    if losers == [] {
      SomeHasKeyFirst(winner, [], k);
      assert [winner] + losers == [winner] + [];
    } else {
      UnionStep(winner, losers, k);
      KeysAreTheUnion(Absorb(winner, losers[0]), losers[1..], k);
    }
  }

  /** Its nickname of a binding is the first that is not blank, winner first. */
  lemma {:induction false} MerchantNicknamesComeFirstToLast(winner: Registration, losers: seq<Registration>, k: Key)
    requires forall i :: 0 <= i < |losers| ==> UniqueKeys(losers[i].merchants)
    ensures NicknameOf(AbsorbAll(winner, losers).merchants, k) == FirstMerchantNickname([winner] + losers, k)
    decreases |losers|
  {
    if losers == [] {
      assert ([winner] + losers)[1..] == [];
    } else {
      var w, rest := Absorb(winner, losers[0]), losers[1..];
      AddMerchantsEffect(winner.merchants, losers[0].merchants, k);
      MerchantNicknamesComeFirstToLast(w, rest, k);
      assert ([w] + rest)[1..] == rest;
      assert ([winner] + losers)[1..] == losers;
    }
  }

  /** So are its own nickname and its default merchant; the default terminal is its own, or
      goes with that merchant. */
  lemma {:induction false} NicknameAndDefaultComeFirstToLast(winner: Registration, losers: seq<Registration>)
    ensures AbsorbAll(winner, losers).nickname == FirstNickname([winner] + losers)
    ensures AbsorbAll(winner, losers).defaultMerchant == FirstDefault([winner] + losers)
    ensures AbsorbAll(winner, losers).defaultTerminal ==
            if winner.defaultTerminal != "" then winner.defaultTerminal else TerminalOfFirstDefault([winner] + losers)
    decreases |losers|
  {
    if losers != [] {
      var w, rest := Absorb(winner, losers[0]), losers[1..];
      NicknameAndDefaultComeFirstToLast(w, rest);
      assert ([w] + rest)[1..] == rest;
      assert ([winner] + losers)[1..] == losers;
    } else {
      assert ([winner] + losers)[1..] == [];
    }
  }

  /** Nothing of the winner's own is overwritten. */
  lemma {:induction false} WinnerIsNeverOverwritten(winner: Registration, losers: seq<Registration>, k: Key)
    ensures var t := AbsorbAll(winner, losers);
            && t.kind == winner.kind && t.descriptor == winner.descriptor
            && (!Blank(winner.nickname) ==> t.nickname == winner.nickname)
            && (winner.defaultMerchant != "" ==>
                  t.defaultMerchant == winner.defaultMerchant && t.defaultTerminal == winner.defaultTerminal)
            && (HasKey(winner.merchants, k) && !Blank(NicknameOf(winner.merchants, k)) ==>
                  HasKey(t.merchants, k) && NicknameOf(t.merchants, k) == NicknameOf(winner.merchants, k))
    decreases |losers|
  {
    if losers != [] {
      AddMerchantsEffect(winner.merchants, losers[0].merchants, k);
      WinnerIsNeverOverwritten(Absorb(winner, losers[0]), losers[1..], k);
    }
  }

  // ----- the order of the copies ------------------------------------------------

  /** One stored copy: where it stands in the file, the id it is stored under. */
  datatype Copy = Copy(position: nat, key: Id, reg: Registration)

  function Named(ms: seq<Merchant>): nat {
    if ms == [] then 0 else Named(ms[1..]) + (if Blank(ms[0].nickname) then 0 else 1)
  }

  /** `_rekey_winner_first`, compared: the operator's own work first, then the later entry. */
  predicate Before(a: Copy, b: Copy) {
    var x, y := a.reg, b.reg;
    if Blank(x.nickname) != Blank(y.nickname) then !Blank(x.nickname)
    else if Named(x.merchants) != Named(y.merchants) then Named(x.merchants) > Named(y.merchants)
    else if |x.merchants| != |y.merchants| then |x.merchants| > |y.merchants|
    else if (x.defaultMerchant != "") != (y.defaultMerchant != "") then x.defaultMerchant != ""
    else a.position > b.position
  }

  function Insert(c: Copy, sorted: seq<Copy>): seq<Copy> {
    if sorted == [] || Before(c, sorted[0]) then [c] + sorted else [sorted[0]] + Insert(c, sorted[1..])
  }

  function Sorted(copies: seq<Copy>): seq<Copy> {
    if copies == [] then [] else Insert(copies[0], Sorted(copies[1..]))
  }

  lemma {:induction false} InsertKeepsCopies(c: Copy, sorted: seq<Copy>)
    ensures multiset(Insert(c, sorted)) == multiset(sorted) + multiset{c}
  {
    if sorted != [] && !Before(c, sorted[0]) {
      InsertKeepsCopies(c, sorted[1..]);
      assert sorted == [sorted[0]] + sorted[1..];
    }
  }

  lemma {:induction false} SortedKeepsCopies(copies: seq<Copy>)
    ensures multiset(Sorted(copies)) == multiset(copies) && |Sorted(copies)| == |copies|
  {
    if copies != [] {
      SortedKeepsCopies(copies[1..]);
      InsertKeepsCopies(copies[0], Sorted(copies[1..]));
      assert copies == [copies[0]] + copies[1..];
      assert |multiset(Sorted(copies))| == |multiset(copies)|;
    }
  }

  predicate InOrder(copies: seq<Copy>) {
    forall i, j :: 0 <= i < j < |copies| ==> !Before(copies[j], copies[i])
  }

  lemma {:induction false} InsertKeepsOrder(c: Copy, sorted: seq<Copy>)
    requires InOrder(sorted)
    ensures InOrder(Insert(c, sorted))
  {
    var t := Insert(c, sorted);
    if sorted == [] || Before(c, sorted[0]) {
      forall i, j | 0 <= i < j < |t|
        ensures !Before(t[j], t[i])
      {
        if i == 0 && j > 1 {
          assert !Before(sorted[j - 1], sorted[0]);
        }
      }
    } else {
      InsertKeepsOrder(c, sorted[1..]);
      InsertKeepsCopies(c, sorted[1..]);
      forall j | 1 <= j < |t|
        ensures !Before(t[j], t[0])
      {
        assert t[j] in multiset(Insert(c, sorted[1..]));
        assert t[j] == c || t[j] in sorted[1..];
      }
    }
  }

  /** The copy that keeps the id is one no other copy is placed before. */
  lemma {:induction false} SortedInOrder(copies: seq<Copy>)
    ensures InOrder(Sorted(copies))
  {
    if copies != [] {
      SortedInOrder(copies[1..]);
      InsertKeepsOrder(copies[0], Sorted(copies[1..]));
    }
  }

  /** `_address_donor`: the copy that stands last in the file. */
  function Donor(copies: seq<Copy>): (d: Copy)
    requires copies != []
    ensures d in copies && forall i :: 0 <= i < |copies| ==> copies[i].position <= d.position
  {
    if |copies| == 1 then copies[0]
    else
      var d := Donor(copies[1..]);
      if copies[0].position >= d.position then copies[0] else d
  }

  /** `_carry_newest_address`. */
  function CarryAddress(winner: Registration, donor: Registration): Registration {
    if donor.descriptor.network.None? || donor.descriptor.network == winner.descriptor.network then winner
    else winner.(descriptor := winner.descriptor.(network := donor.descriptor.network, caption := donor.descriptor.caption))
  }
}
