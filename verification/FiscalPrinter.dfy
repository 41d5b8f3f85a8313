/** The emulated printer as a class, and the whole way of the money: from the till's
    documents through the XML to the closures. */
module FiscalPrinter {
  import opened Options
  import opened Texts
  import opened FiscalDocument
  import opened FiscalRoundTrip
  import opened FiscalJournal

  datatype Response = Done | Failed(code: string)

  function Answer(j: Journal, command: Command): Response {
    if command.Sale? && Blocked(j) then Failed("17")
    else if command.Unknown? then Failed("unknown_command")
    else if command.Unreadable? then Failed("unreadable")
    else Done
  }

  class FiscalState {
    const keep: nat
    const requireFirstZ: bool
    var firstZDone: bool
    var receipts: nat
    var closures: nat
    var readings: nat
    var entries: seq<Entry>
    var recorded: nat
    var day: map<string, int>

    function View(): Journal
      reads this
    {
      Journal(keep, requireFirstZ, firstZDone, receipts, closures, readings, entries, recorded, day)
    }

    constructor (requireFirstZ: bool, keep: nat)
      ensures View() == Fresh(requireFirstZ, keep)
    {
      this.keep, this.requireFirstZ, firstZDone := keep, requireFirstZ, !requireFirstZ;
      receipts, closures, readings, entries, recorded, day := 0, 0, 0, [], 0, map[];
    }

    method RecordDoc(e: Entry)
      modifies `entries, `recorded
      ensures View() == Recorded(old(View()), e)
    {
      recorded := recorded + 1;
      entries := entries + [e];
      if |entries| > keep && keep > 0 {
        entries := entries[|entries| - keep..];
      }
    }

    method Accrue(ps: seq<PaymentRead>, refund: bool)
      modifies `day
      ensures day == Accrued(old(day), ps, refund)
    {
      assert ps[0..] == ps;
      for i := 0 to |ps|
        invariant Accrued(day, ps[i..], refund) == Accrued(old(day), ps, refund)
      {
        assert ps[i..] == [ps[i]] + ps[i + 1..];
        var amount := Cents(ps[i]);
        if refund {
          amount := -amount;
        }
        day := day[ps[i].paymentType := Of(day, ps[i].paymentType) + amount];
      }
    }

    method RecordSale(sale: Command) returns (r: Response)
      requires sale.Sale?
      modifies this
      ensures View() == AfterSale(old(View()), sale)
      ensures r == if Blocked(old(View())) then Failed("17") else Done
    {
      if requireFirstZ && !firstZDone {
        RecordDoc(Rejected(sale.items, sale.total));
        return Failed("17");
      }
      receipts := receipts + 1;
      var rows := sale.payments;
      if rows == [] {
        rows := [PaymentRead("", sale.paymentType, sale.total)];
      }
      RecordDoc(Issued(receipts, closures, sale.items, sale.total, sale.paymentType, rows, sale.refund));
      Accrue(rows, sale.refund);
      return Done;
    }

    method RunZ()
      modifies this
      ensures View() == AfterZ(old(View()))
    {
      var totals := day;
      day := map[];
      closures := closures + 1;
      firstZDone := true;
      receipts := 0;
      RecordDoc(Closure(closures, totals));
    }

    method RunX()
      modifies this
      ensures View() == AfterX(old(View()))
    {
      readings := readings + 1;
      RecordDoc(DailyRead(readings));
    }

    method FindOriginal(number: string) returns (original: Option<Entry>)
      ensures original == Original(entries, number)
      ensures original.Some? ==> original.value in entries && original.value.Issued? && Digits(original.value.number) == number
    {
      var i := |entries|;
      assert entries[..i] == entries;
      while i > 0
        invariant i <= |entries| && Original(entries[..i], number) == Original(entries, number)
      {
        i := i - 1;
        assert entries[..i + 1][..i] == entries[..i];
        var e := entries[i];
        if e.Issued? && Digits(e.number) == number {
          return Some(e);
        }
      }
      return None;
    }

    method ReprintReceipt(number: string)
      modifies `entries, `recorded
      ensures View() == Recorded(old(View()), CopyOf(old(entries), number))
    {
      var original := FindOriginal(number);
      if original.Some? {
        RecordDoc(Copied(number, original.value.items, Some(original.value.total)));
      } else {
        RecordDoc(Copied(number, [], None));
      }
    }

    /** `handle_request`. */
    method Handle(root: Element) returns (r: Response)
      modifies this
      ensures View() == After(old(View()), Read(root)) && r == Answer(old(View()), Read(root))
    {
      var command := Read(root);
      match command
      case ZReport =>
        RunZ();
        r := Done;
      case XReport =>
        RunX();
        r := Done;
      case Reprint(number) =>
        ReprintReceipt(number);
        r := Done;
      case Status => r := Done;
      case Sale(_, _, _, _, _) => r := RecordSale(command);
      case Unknown => r := Failed("unknown_command");
      case Unreadable => r := Failed("unreadable");
    }
  }

  // ----- the whole way --------------------------------------------------------------

  datatype Request = Sell(doc: Document) | CloseDay | ReadDay | AskStatus | AskCopy(number: string)

  /** `build_z_report_xml`, `build_x_report_xml`, `build_status_xml`, `build_reprint_xml`. */
  function Tree(request: Request): Element
    requires !request.Sell?
  {
    match request
    case CloseDay => Element("printerFiscalReport", map[], [Leaf("printZReport", map["operator" := OPERATOR])])
    case ReadDay => Element("printerFiscalReport", map[], [Leaf("printXReport", map["operator" := OPERATOR])])
    case AskStatus => Element("printerCommand", map[], [Leaf("queryPrinterStatus", map[])])
    case AskCopy(number) =>
      Element("printerCommand", map[], [Leaf("printDuplicateReceipt", map["operator" := OPERATOR, "receiptNumber" := number])])
  }

  function Meant(request: Request): Command {
    match request
    case Sell(doc) => SaleOf(doc)
    case CloseDay => ZReport
    case ReadDay => XReport
    case AskStatus => Status
    case AskCopy(number) => Reprint(number)
  }

  /** What goes over the wire; a document that is refused does not. */
  function Sent(requests: seq<Request>): seq<Element> {
    if requests == [] then []
    else
      var request := requests[0];
      (if !request.Sell? then [Wrapped(Tree(request))]
       else if Refusal(request.doc).None? then [Wrapped(Built(request.doc))]
       else []) + Sent(requests[1..])
  }

  function ReadAll(bodies: seq<Element>): seq<Command> {
    if bodies == [] then [] else [Read(bodies[0])] + ReadAll(bodies[1..])
  }

  lemma SmallNamed(root: Element, leaf: Element, name: string)
    requires root.children == [leaf] && leaf.children == [] && '}' !in root.tag && '}' !in leaf.tag
    requires name != "Envelope" && name != "Body"
    ensures Named(Iter(Wrapped(root)), name)
         == (if root.tag == name then [root] else []) + (if leaf.tag == name then [leaf] else [])
  {
    IterWrapped(root);
    PlainName(root.tag);
    PlainName(leaf.tag);
    SoapNames();
    NamedConcat([Wrapped(root), Body(root), root], [leaf], name);
    LastNamed(Wrapped(root), Body(root), root, name);
    NamedOne(leaf, name);
  }

  lemma ClosureIsRead()
    ensures Read(Wrapped(Tree(CloseDay))) == ZReport
  {
    var root := Tree(CloseDay);
    SmallNamed(root, root.children[0], "printZReport");
  }

  lemma ReadingIsRead()
    ensures Read(Wrapped(Tree(ReadDay))) == XReport
  {
    var root := Tree(ReadDay);
    assert "printXReport"[5] != "printZReport"[5];
    SmallNamed(root, root.children[0], "printZReport");
    SmallNamed(root, root.children[0], "printXReport");
  }

  lemma CommandIsRead(request: Request)
    requires request.AskStatus? || request.AskCopy?
    ensures Read(Wrapped(Tree(request))) == Meant(request)
  {
    var root := Tree(request);
    SmallNamed(root, root.children[0], "printZReport");
    SmallNamed(root, root.children[0], "printXReport");
    SmallNamed(root, root.children[0], "queryPrinterStatus");
    SmallNamed(root, root.children[0], "printDuplicateReceipt");
  }

  /** The settled amounts of one kind of tender. */
  function SettledFor(settled: seq<(int, int)>, kind: int): int {
    if settled == [] then 0 else (if settled[0].0 == kind then settled[0].1 else 0) + SettledFor(settled[1..], kind)
  }

  /** What the accepted documents come to by this kind of tender, refunds taken off. */
  function Taken(requests: seq<Request>, kind: int): int {
    if requests == [] then 0
    else
      var request := requests[0];
      (if request.Sell? && Refusal(request.doc).None? then Signed(SettledFor(Settled(request.doc), kind), request.doc.refund)
       else 0) + Taken(requests[1..], kind)
  }

  lemma PrintIntInjective(a: int, b: int)
    requires PrintInt(a) == PrintInt(b)
    ensures a == b
  {
    var x, y := if a < 0 then -a else a, if b < 0 then -b else b;
    ValueOfDigits(x);
    ValueOfDigits(y);
    assert IsDigit(Digits(x)[0]) && IsDigit(Digits(y)[0]);
    assert ("-" + Digits(x))[1..] == Digits(x) && ("-" + Digits(y))[1..] == Digits(y);
    assert ("-" + Digits(x))[0] == '-' && ("-" + Digits(y))[0] == '-';
  }

  lemma {:induction false} RowsSum(rows: seq<PaymentRead>, settled: seq<(int, int)>, kind: int)
    requires |rows| == |settled| && forall i :: 0 <= i < |rows| ==> ReadsAs(rows[i], settled[i])
    ensures SumFor(rows, PrintInt(kind)) == SettledFor(settled, kind)
  {
    if rows != [] {
      forall i | 0 <= i < |rows[1..]|
        ensures ReadsAs(rows[1..][i], settled[1..][i])
      {
        assert ReadsAs(rows[i + 1], settled[i + 1]);
      }
      RowsSum(rows[1..], settled[1..], kind);
      assert ReadsAs(rows[0], settled[0]);
      if rows[0].paymentType == PrintInt(kind) {
        PrintIntInjective(settled[0].0, kind);
      }
    }
  }

  lemma DocumentSum(doc: Document, kind: int)
    ensures SaleOf(doc).Sale? && SumFor(Rows(SaleOf(doc)), PrintInt(kind)) == SettledFor(Settled(doc), kind)
  {
    PaymentsReadBack(doc);
    RowsSum(ReadPayments(TotalLines(doc)), Settled(doc), kind);
  }

  /** The commands the printer acts on. */
  function Commands(requests: seq<Request>): seq<Command> {
    if requests == [] then []
    else
      (if requests[0].Sell? && Refusal(requests[0].doc).Some? then [] else [Meant(requests[0])]) + Commands(requests[1..])
  }

  /** The printer reads each of them as what the till meant. */
  lemma {:induction false} SentIsRead(requests: seq<Request>)
    ensures ReadAll(Sent(requests)) == Commands(requests)
  {
    if requests != [] {
      var request, rest := requests[0], requests[1..];
      SentIsRead(rest);
      if request.Sell? {
        BuiltIsRead(request.doc);
      } else if request.CloseDay? {
        ClosureIsRead();
      } else if request.ReadDay? {
        ReadingIsRead();
      } else {
        CommandIsRead(request);
      }
      if Sent(requests) != Sent(rest) {
        assert Sent(requests)[1..] == Sent(rest);
      }
    }
  }

  /** What is sent once the first day has been closed. */
  function AfterFirstClosure(requests: seq<Request>): seq<Request> {
    if requests == [] then []
    else if requests[0].CloseDay? then requests[1..]
    else AfterFirstClosure(requests[1..])
  }

  /** A printer that waits for its first closure counts nothing until it has been made. */
  function Counted(j: Journal, requests: seq<Request>): seq<Request> {
    if Blocked(j) then AfterFirstClosure(requests) else requests
  }

  lemma MeantIsSold(j: Journal, request: Request, kind: int)
    requires request.Sell? ==> Refusal(request.doc).None?
    ensures Blocked(After(j, Meant(request))) == (Blocked(j) && !request.CloseDay?)
    ensures Sold([EventOf(j, Meant(request))], PrintInt(kind)) == if Blocked(j) then 0 else Taken([request], kind)
  {
    assert [EventOf(j, Meant(request))][1..] == [] && [request][1..] == [];
    if request.Sell? {
      DocumentSum(request.doc, kind);
    }
  }

  lemma CountedFirst(j: Journal, k: Journal, requests: seq<Request>, kind: int)
    requires requests != [] && Blocked(k) == (Blocked(j) && !requests[0].CloseDay?)
    ensures Taken(Counted(j, requests), kind)
         == (if Blocked(j) then 0 else Taken([requests[0]], kind)) + Taken(Counted(k, requests[1..]), kind)
  {
    assert [requests[0]][1..] == [];
  }

  lemma {:induction false} CommandsAreSold(j: Journal, requests: seq<Request>, kind: int)
    ensures Sold(Events(j, Commands(requests)), PrintInt(kind)) == Taken(Counted(j, requests), kind)
    decreases |requests|
  {
    if requests != [] {
      var request, rest := requests[0], requests[1..];
      if request.Sell? && Refusal(request.doc).Some? {
        assert [request][1..] == [];
        CommandsAreSold(j, rest, kind);
        CountedFirst(j, j, requests, kind);
        assert Commands(requests) == Commands(rest);
      } else {
        var command := Meant(request);
        MeantIsSold(j, request, kind);
        CommandsAreSold(After(j, command), rest, kind);
        CountedFirst(j, After(j, command), requests, kind);
        assert Commands(requests)[0] == command && Commands(requests)[1..] == Commands(rest);
        SumsSplit(EventOf(j, command), Events(After(j, command), Commands(rest)), PrintInt(kind));
      }
    }
  }

  /** Sales, refunds, closures, readings and copies in any order, sent through the XML: the
      closures and the open day together say, for every kind of tender, exactly what the
      till settled, refunds taken off; where the first closure is required and has not been
      made, what it settled after that closure. */
  lemma TheClosuresSayWhatTheTillTook(j: Journal, requests: seq<Request>, kind: int)
    ensures var commands := ReadAll(Sent(requests));
            ClosedTotals(Events(j, commands), PrintInt(kind)) + Of(Run(j, commands).day, PrintInt(kind))
            == Of(j.day, PrintInt(kind)) + Taken(Counted(j, requests), kind)
  {
    SentIsRead(requests);
    MoneyIsConserved(j, Commands(requests), PrintInt(kind));
    CommandsAreSold(j, requests, kind);
  }
}
