/** The printer's fiscal journal: what each command does to it, and where the money goes over
    any run of commands. */
module FiscalJournal {
  import opened Options
  import opened Texts
  import opened FiscalDocument

  datatype Entry =
    | Rejected(items: seq<ItemRead>, total: string)
    | Issued(number: nat, z: nat, items: seq<ItemRead>, total: string, paymentType: string,
             payments: seq<PaymentRead>, refund: bool)
    | Closure(number: nat, totals: map<string, int>)
    | DailyRead(number: nat)
    | Copied(text: string, items: seq<ItemRead>, copiedTotal: Option<string>)

  datatype Journal = Journal(
    keep: nat, requireFirstZ: bool, firstZDone: bool,
    receipts: nat, closures: nat, readings: nat, entries: seq<Entry>, recorded: nat, day: map<string, int>)

  function Fresh(requireFirstZ: bool, keep: nat): Journal {
    Journal(keep, requireFirstZ, !requireFirstZ, 0, 0, 0, [], 0, map[])
  }

  /** `docs[-keep:]` of a list that grew too long; with nothing to keep that is all of it. */
  function Trimmed(entries: seq<Entry>, keep: nat): seq<Entry> {
    if |entries| > keep && keep > 0 then entries[|entries| - keep..] else entries
  }

  /** `_record_doc`. */
  function Recorded(j: Journal, e: Entry): Journal {
    j.(entries := Trimmed(j.entries + [e], j.keep), recorded := j.recorded + 1)
  }

  function Of(day: map<string, int>, key: string): int {
    if key in day then day[key] else 0
  }

  function Cents(p: PaymentRead): int {
    if AmountOf(p.amount).Some? then AmountOf(p.amount).value else 0
  }

  /** `_accrue`. */
  function Accrued(day: map<string, int>, ps: seq<PaymentRead>, refund: bool): map<string, int>
    decreases |ps|
  {
    if ps == [] then day
    else
      var p := ps[0];
      Accrued(day[p.paymentType := Of(day, p.paymentType) + (if refund then -Cents(p) else Cents(p))], ps[1..], refund)
  }

  /** The rows a sale is settled with; without any, its total stands for one. */
  function Rows(sale: Command): seq<PaymentRead>
    requires sale.Sale?
  {
    if sale.payments != [] then sale.payments else [PaymentRead("", sale.paymentType, sale.total)]
  }

  predicate Blocked(j: Journal) {
    j.requireFirstZ && !j.firstZDone
  }

  /** `record_sale`. */
  function AfterSale(j: Journal, sale: Command): Journal
    requires sale.Sale?
  {
    if Blocked(j) then Recorded(j, Rejected(sale.items, sale.total))
    else
      var numbered := j.(receipts := j.receipts + 1);
      Recorded(numbered, Issued(numbered.receipts, j.closures, sale.items, sale.total, sale.paymentType, Rows(sale), sale.refund))
      .(day := Accrued(j.day, Rows(sale), sale.refund))
  }

  /** `run_z`. */
  function AfterZ(j: Journal): Journal {
    Recorded(j.(day := map[], closures := j.closures + 1, firstZDone := true, receipts := 0), Closure(j.closures + 1, j.day))
  }

  /** `run_x`. */
  function AfterX(j: Journal): Journal {
    Recorded(j.(readings := j.readings + 1), DailyRead(j.readings + 1))
  }

  /** The newest issued document with that number among those still kept. */
  function Original(entries: seq<Entry>, number: string): Option<Entry> {
    if entries == [] then None
    else
      var last := entries[|entries| - 1];
      if last.Issued? && Digits(last.number) == number then Some(last) else Original(entries[..|entries| - 1], number)
  }

  function CopyOf(entries: seq<Entry>, number: string): Entry {
    var original := Original(entries, number);
    if original.Some? && original.value.Issued? then Copied(number, original.value.items, Some(original.value.total))
    else Copied(number, [], None)
  }

  /** `handle_request`. */
  function After(j: Journal, command: Command): Journal {
    match command
    case ZReport => AfterZ(j)
    case XReport => AfterX(j)
    case Reprint(number) => Recorded(j, CopyOf(j.entries, number))
    case Sale(_, _, _, _, _) => AfterSale(j, command)
    case _ => j
  }

  // ----- what comes of each command ---------------------------------------------------

  datatype Event = Accepted(rows: seq<PaymentRead>, refund: bool) | Refused | Closed(totals: map<string, int>) | Nothing

  function EventOf(j: Journal, command: Command): Event {
    match command
    case ZReport => Closed(j.day)
    case Sale(_, _, refund, _, _) => if Blocked(j) then Refused else Accepted(Rows(command), refund)
    case _ => Nothing
  }

  function Run(j: Journal, commands: seq<Command>): Journal
    decreases |commands|
  {
    if commands == [] then j else Run(After(j, commands[0]), commands[1..])
  }

  function Events(j: Journal, commands: seq<Command>): seq<Event>
    decreases |commands|
  {
    if commands == [] then [] else [EventOf(j, commands[0])] + Events(After(j, commands[0]), commands[1..])
  }

  /** The amounts of one payment type among the rows. */
  function SumFor(rows: seq<PaymentRead>, key: string): int {
    if rows == [] then 0 else (if rows[0].paymentType == key then Cents(rows[0]) else 0) + SumFor(rows[1..], key)
  }

  function Signed(amount: int, refund: bool): int {
    if refund then -amount else amount
  }

  /** What was sold, less what was given back, by this payment type. */
  function Sold(events: seq<Event>, key: string): int {
    if events == [] then 0
    else (if events[0].Accepted? then Signed(SumFor(events[0].rows, key), events[0].refund) else 0) + Sold(events[1..], key)
  }

  /** What all the closures say together. */
  function ClosedTotals(events: seq<Event>, key: string): int {
    if events == [] then 0
    else (if events[0].Closed? then Of(events[0].totals, key) else 0) + ClosedTotals(events[1..], key)
  }

  lemma {:induction false} AccruedAdds(day: map<string, int>, ps: seq<PaymentRead>, refund: bool, key: string)
    ensures Of(Accrued(day, ps, refund), key) == Of(day, key) + Signed(SumFor(ps, key), refund)
    decreases |ps|
  {
    if ps != [] {
      var p := ps[0];
      AccruedAdds(day[p.paymentType := Of(day, p.paymentType) + (if refund then -Cents(p) else Cents(p))], ps[1..], refund, key);
    }
  }

  lemma OneCommand(j: Journal, command: Command, key: string)
    ensures ClosedTotals([EventOf(j, command)], key) + Of(After(j, command).day, key)
         == Of(j.day, key) + Sold([EventOf(j, command)], key)
  {
    var e := EventOf(j, command);
    assert [e][1..] == [];
    if command.Sale? {
      AccruedAdds(j.day, Rows(command), command.refund, key);
    }
  }

  lemma SumsSplit(e: Event, rest: seq<Event>, key: string)
    ensures Sold([e] + rest, key) == Sold([e], key) + Sold(rest, key)
    ensures ClosedTotals([e] + rest, key) == ClosedTotals([e], key) + ClosedTotals(rest, key)
  {
    assert ([e] + rest)[1..] == rest && [e][1..] == [];
  }

  /** Over any run the closures and the open day together say, for each payment type, exactly
      what was sold less what was given back; how many documents the journal keeps has no
      part in it. */
  lemma {:induction false} MoneyIsConserved(j: Journal, commands: seq<Command>, key: string)
    ensures ClosedTotals(Events(j, commands), key) + Of(Run(j, commands).day, key)
         == Of(j.day, key) + Sold(Events(j, commands), key)
    decreases |commands|
  {
    if commands != [] {
      OneCommand(j, commands[0], key);
      MoneyIsConserved(After(j, commands[0]), commands[1..], key);
      SumsSplit(EventOf(j, commands[0]), Events(After(j, commands[0]), commands[1..]), key);
    }
  }

  /** Two printers that keep differently many documents agree on every event and total. */
  lemma {:induction false} KeepMakesNoDifference(j: Journal, keep: nat, entries: seq<Entry>, commands: seq<Command>)
    ensures Events(j, commands) == Events(j.(keep := keep, entries := entries), commands)
    ensures Run(j, commands).day == Run(j.(keep := keep, entries := entries), commands).day
    decreases |commands|
  {
    if commands != [] {
      var other := j.(keep := keep, entries := entries);
      var u, v := After(j, commands[0]), After(other, commands[0]);
      assert v == u.(keep := v.keep, entries := v.entries);
      KeepMakesNoDifference(u, v.keep, v.entries, commands[1..]);
    }
  }

  // ----- the first closure ---------------------------------------------------------------

  /** Where the first closure is required, no sale is accepted before it and none counted;
      otherwise, or once it has been made, every sale is accepted. */
  lemma {:induction false} NoSaleBeforeTheFirstZ(j: Journal, commands: seq<Command>)
    requires Blocked(j) && forall i :: 0 <= i < |commands| ==> commands[i] != ZReport
    ensures forall i :: 0 <= i < |Events(j, commands)| ==> !Events(j, commands)[i].Accepted?
    ensures var t := Run(j, commands); Blocked(t) && t.day == j.day && t.receipts == j.receipts
    decreases |commands|
  {
    if commands != [] {
      NoSaleBeforeTheFirstZ(After(j, commands[0]), commands[1..]);
    }
  }

  lemma {:induction false} EverySaleAfterTheFirstZ(j: Journal, commands: seq<Command>)
    requires !Blocked(j)
    ensures !Blocked(Run(j, commands)) && |Events(j, commands)| == |commands|
    ensures forall i :: 0 <= i < |commands| && commands[i].Sale? ==>
              Events(j, commands)[i] == Accepted(Rows(commands[i]), commands[i].refund)
    decreases |commands|
  {
    if commands != [] {
      EverySaleAfterTheFirstZ(After(j, commands[0]), commands[1..]);
      assert forall i :: 1 <= i < |commands| ==> commands[i] == commands[1..][i - 1];
    }
  }

  // ----- numbers and documents ---------------------------------------------------------------

  /** Sales accepted since the last closure. */
  function SinceZ(events: seq<Event>, before: nat): nat {
    if events == [] then before
    else
      var last := events[|events| - 1];
      if last.Closed? then 0
      else SinceZ(events[..|events| - 1], before) + (if last.Accepted? then 1 else 0)
  }

  lemma {:induction false} SinceZFirst(e: Event, rest: seq<Event>, before: nat)
    ensures SinceZ([e] + rest, before) == SinceZ(rest, if e.Closed? then 0 else if e.Accepted? then before + 1 else before)
  {
    if rest == [] {
      assert [e] + rest == [e] && [e][..0] == [];
    } else {
      var front := rest[..|rest| - 1];
      SinceZFirst(e, front, before);
      assert ([e] + rest)[..|rest|] == [e] + front;
    }
  }

  /** The receipt counter is the number of sales accepted since the last closure. */
  lemma {:induction false} ReceiptsCountTheDay(j: Journal, commands: seq<Command>)
    ensures Run(j, commands).receipts == SinceZ(Events(j, commands), j.receipts)
    decreases |commands|
  {
    if commands != [] {
      ReceiptsCountTheDay(After(j, commands[0]), commands[1..]);
      SinceZFirst(EventOf(j, commands[0]), Events(After(j, commands[0]), commands[1..]), j.receipts);
    }
  }
}
