/** The fiscal day in the till's words: what its cash and its card come to, which document a copy
    is made of, and what is answered. */
module FiscalDay {
  import opened Options
  import opened Texts
  import opened FiscalDocument
  import opened FiscalRoundTrip
  import opened FiscalJournal
  import opened FiscalPrinter
  import opened FiscalTender

  // ----- totals --------------------------------------------------------------------------------

  /** The multiple of five cents that lies nearest. */
  ghost predicate Nearest5(cents: int, rounded: int) {
    rounded % 5 == 0 && -2 <= rounded - cents <= 2
  }

  /** What these tenders come to under one number: each with its amount, cash that is alone with
      the nearest multiple of five cents. */
  ghost function OwedUnder(ps: seq<Payment>, types: map<string, int>, number: int, alone: bool): int {
    if ps == [] then 0
    else
      var amount := if alone && NumberOf(ps[0].kind, types) == 0 then ps[0].amount + 2 - (ps[0].amount + 2) % 5 else ps[0].amount;
      (if NumberOf(ps[0].kind, types) == number then amount else 0) + OwedUnder(ps[1..], types, number, alone)
  }

  lemma RoundedIsNearest(cents: int)
    ensures Nearest5(cents, cents + 2 - (cents + 2) % 5) && Round5(cents) == cents + 2 - (cents + 2) % 5
  {
  }

  /** What the accepted documents come to under one number, refunds taken off. */
  ghost function OwedBy(requests: seq<Request>, number: int): int {
    if requests == [] then 0
    else
      (if requests[0].Sell? && Refusal(requests[0].doc).None? then
         var doc := requests[0].doc;
         var owed := OwedUnder(Tenders(doc), doc.types, number, |Tenders(doc)| == 1);
         if doc.refund then -owed else owed
       else 0) + OwedBy(requests[1..], number)
  }

  lemma {:induction false} SettledUnder(settled: seq<(int, int)>, ps: seq<Payment>, types: map<string, int>, number: int, alone: bool)
    requires |settled| == |ps|
    requires forall i :: 0 <= i < |ps| ==>
               var kind := NumberOf(ps[i].kind, types);
               settled[i] == (kind, if kind == 0 && alone then Round5(ps[i].amount) else ps[i].amount)
    ensures SettledFor(settled, number) == OwedUnder(ps, types, number, alone)
  {
    if ps != [] {
      RoundedIsNearest(ps[0].amount);
      assert forall i :: 0 <= i < |ps[1..]| ==> ps[1..][i] == ps[i + 1] && settled[1..][i] == settled[i + 1];
      SettledUnder(settled[1..], ps[1..], types, number, alone);
    }
  }

  lemma DocumentOwed(doc: Document, number: int)
    ensures SettledFor(Settled(doc), number) == OwedUnder(Tenders(doc), doc.types, number, |Tenders(doc)| == 1)
  {
    var ps := Tenders(doc);
    forall i | 0 <= i < |ps|
      ensures Resolve(ps[i], doc.types) == NumberOf(ps[i].kind, doc.types)
    {
      ResolvedNumber(ps[i], doc.types);
    }
    SettledUnder(Settled(doc), ps, doc.types, number, |ps| == 1);
  }

  lemma {:induction false} TakenIsOwed(requests: seq<Request>, number: int)
    ensures Taken(requests, number) == OwedBy(requests, number)
  {
    if requests != [] {
      TakenIsOwed(requests[1..], number);
      if requests[0].Sell? {
        DocumentOwed(requests[0].doc, number);
      }
    }
  }

  /** What is sent once a closure has been. */
  ghost function SinceAClosure(requests: seq<Request>): seq<Request> {
    if requests == [] then [] else if requests[0].CloseDay? then requests[1..] else SinceAClosure(requests[1..])
  }

  lemma {:induction false} SinceIsAfter(requests: seq<Request>)
    ensures AfterFirstClosure(requests) == SinceAClosure(requests)
  {
    if requests != [] {
      SinceIsAfter(requests[1..]);
    }
  }

  /** Through the XML and any order of sales, refunds, closures, readings and copies: under each
      number the closures and the open day hold what the tenders came to by the till's own words. */
  lemma TheDayInWords(j: Journal, requests: seq<Request>, number: int)
    ensures var commands := ReadAll(Sent(requests));
            var counted := if j.requireFirstZ && !j.firstZDone then SinceAClosure(requests) else requests;
            ClosedTotals(Events(j, commands), PrintInt(number)) + Of(Run(j, commands).day, PrintInt(number))
            == Of(j.day, PrintInt(number)) + OwedBy(counted, number)
  {
    TheClosuresSayWhatTheTillTook(j, requests, number);
    SinceIsAfter(requests);
    TakenIsOwed(Counted(j, requests), number);
  }

  // ----- the journal ------------------------------------------------------------------------------

  predicate IsDocument(e: Entry, number: string) {
    e.Issued? && Digits(e.number) == number
  }

  /** A copy is made of the newest document with that number among those kept; numbers start over
      every day, so there may be older ones. */
  lemma {:induction false} NewestIsCopied(entries: seq<Entry>, number: string, i: nat)
    requires i < |entries| && IsDocument(entries[i], number)
    requires forall k :: i < k < |entries| ==> !IsDocument(entries[k], number)
    ensures Original(entries, number) == Some(entries[i])
    ensures CopyOf(entries, number) == Copied(number, entries[i].items, Some(entries[i].total))
  {
    if i < |entries| - 1 {
      NewestIsCopied(entries[..|entries| - 1], number, i);
    }
  }

  lemma {:induction false} NothingIsCopied(entries: seq<Entry>, number: string)
    requires forall k :: 0 <= k < |entries| ==> !IsDocument(entries[k], number)
    ensures Original(entries, number) == None && CopyOf(entries, number) == Copied(number, [], None)
  {
    if entries != [] {
      NothingIsCopied(entries[..|entries| - 1], number);
    }
  }

  /** A journal that grew too long loses its oldest entries; with nothing to keep it loses none. */
  lemma NewestAreKept(j: Journal, e: Entry)
    requires j.keep == 0 || |j.entries| <= j.keep
    ensures var t := Recorded(j, e).entries;
            && (j.keep == 0 || |j.entries| < j.keep ==> t == j.entries + [e])
            && (j.keep > 0 && |j.entries| == j.keep ==> t == j.entries[1..] + [e])
  {
    if j.keep > 0 && |j.entries| == j.keep {
      assert (j.entries + [e])[1..] == j.entries[1..] + [e];
    }
  }

  /** What each command writes down and answers. */
  lemma SaleIsWrittenDown(j: Journal, sale: Command)
    requires sale.Sale? && (j.keep == 0 || |j.entries| <= j.keep)
    ensures var t, last := After(j, sale), After(j, sale).entries;
            && last != [] && t.closures == j.closures && t.readings == j.readings && t.firstZDone == j.firstZDone
            && if j.requireFirstZ && !j.firstZDone then
                 && last[|last| - 1] == Rejected(sale.items, sale.total)
                 && t.receipts == j.receipts && t.day == j.day && Answer(j, sale) == Failed("17")
               else
                 && last[|last| - 1] == Issued(j.receipts + 1, j.closures, sale.items, sale.total, sale.paymentType,
                      if sale.payments != [] then sale.payments else [PaymentRead("", sale.paymentType, sale.total)], sale.refund)
                 && t.receipts == j.receipts + 1 && Answer(j, sale) == Done
  {
  }

  lemma ClosureIsWrittenDown(j: Journal)
    requires j.keep == 0 || |j.entries| <= j.keep
    ensures var t := After(j, ZReport);
            && t.entries != [] && t.entries[|t.entries| - 1] == Closure(j.closures + 1, j.day)
            && t.closures == j.closures + 1 && t.receipts == 0 && t.day == map[] && t.firstZDone
            && t.readings == j.readings && Answer(j, ZReport) == Done
  {
  }

  lemma ReadingIsWrittenDown(j: Journal)
    requires j.keep == 0 || |j.entries| <= j.keep
    ensures var t := After(j, XReport);
            && t.entries != [] && t.entries[|t.entries| - 1] == DailyRead(j.readings + 1)
            && t.readings == j.readings + 1 && t.receipts == j.receipts && t.closures == j.closures
            && t.day == j.day && t.firstZDone == j.firstZDone && Answer(j, XReport) == Done
  {
  }

  lemma OthersChangeNothing(j: Journal)
    ensures After(j, Status) == j && Answer(j, Status) == Done
    ensures After(j, Unknown) == j && Answer(j, Unknown) == Failed("unknown_command")
  {
  }
}
