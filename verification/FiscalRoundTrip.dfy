/** The printer reads exactly the sale the till built: every line, every tender, the sum. */
module FiscalRoundTrip {
  import opened Options
  import opened Texts
  import opened FiscalDocument

  lemma Associative(a: seq<Element>, b: seq<Element>, c: seq<Element>)
    ensures a + b + c == a + (b + c)
  {
  }

  lemma NamedFirst(es: seq<Element>, e: Element, rest: seq<Element>, name: string)
    requires es == [e] + rest
    ensures Named(es, name) == (if LocalName(e.tag) == name then [e] else []) + Named(rest, name)
  {
    assert es[1..] == rest;
  }

  lemma {:induction false} NamedConcat(a: seq<Element>, b: seq<Element>, name: string)
    ensures Named(a + b, name) == Named(a, name) + Named(b, name)
  {
    if a == [] {
      assert a + b == b;
    } else {
      var e, rest := a[0], a[1..];
      NamedConcat(rest, b, name);
      Associative([e], rest, b);
      NamedFirst(a, e, rest, name);
      NamedFirst(a + b, e, rest + b, name);
      Associative(if LocalName(e.tag) == name then [e] else [], Named(rest, name), Named(b, name));
    }
  }

  lemma {:induction false} NamedAll(es: seq<Element>, tag: string, name: string)
    requires forall i :: 0 <= i < |es| ==> es[i].tag == tag
    ensures Named(es, name) == if LocalName(tag) == name then es else []
  {
    if es != [] {
      NamedAll(es[1..], tag, name);
      assert es == [es[0]] + es[1..];
    }
  }

  lemma NamedOne(e: Element, name: string)
    ensures Named([e], name) == if LocalName(e.tag) == name then [e] else []
  {
    assert [e][1..] == [];
  }

  lemma {:induction false} LocalNameAfter(space: string, plain: string)
    requires '}' !in plain && (space == "" || space[|space| - 1] == '}')
    ensures LocalName(space + plain) == plain
  {
    var tag := space + plain;
    if plain == "" {
      assert tag == space;
    } else {
      var front := plain[..|plain| - 1];
      assert tag[..|tag| - 1] == space + front;
      LocalNameAfter(space, front);
    }
  }

  lemma PlainName(plain: string)
    requires '}' !in plain
    ensures LocalName(plain) == plain
  {
    LocalNameAfter("", plain);
    assert "" + plain == plain;
  }

  lemma {:induction false} IterLeaves(es: seq<Element>)
    requires forall i :: 0 <= i < |es| ==> es[i].children == []
    ensures IterAll(es) == es
  {
    if es != [] {
      IterLeaves(es[1..]);
      assert Iter(es[0]) == [es[0]];
      assert es == [es[0]] + es[1..];
    }
  }

  function Body(root: Element): Element {
    Element(SOAP + "Body", map[], [root])
  }

  lemma IterOne(e: Element)
    ensures IterAll([e]) == Iter(e)
  {
    assert [e][1..] == [] && Iter(e) + [] == Iter(e);
  }

  /** The elements of a wrapped document, in their order. */
  lemma IterWrapped(root: Element)
    requires forall i :: 0 <= i < |root.children| ==> root.children[i].children == []
    ensures Iter(Wrapped(root)) == [Wrapped(root), Body(root), root] + root.children
  {
    IterLeaves(root.children);
    IterOne(root);
    IterOne(Body(root));
    assert Iter(Wrapped(root)) == [Wrapped(root)] + ([Body(root)] + ([root] + root.children));
  }

  lemma SoapNames()
    ensures LocalName(SOAP + "Envelope") == "Envelope" && LocalName(SOAP + "Body") == "Body"
  {
    LocalNameAfter(SOAP, "Envelope");
    LocalNameAfter(SOAP, "Body");
  }

  lemma FrameNames()
    ensures LocalName("printerFiscalReceipt") == "printerFiscalReceipt"
    ensures LocalName("beginFiscalReceipt") == "beginFiscalReceipt" && LocalName("endFiscalReceipt") == "endFiscalReceipt"
  {
    PlainName("printerFiscalReceipt");
    PlainName("beginFiscalReceipt");
    PlainName("endFiscalReceipt");
  }

  lemma LineNames()
    ensures LocalName("printRecItem") == "printRecItem" && LocalName("printRecRefund") == "printRecRefund"
    ensures LocalName("printRecTotal") == "printRecTotal" && LocalName("printRecMessage") == "printRecMessage"
  {
    PlainName("printRecItem");
    PlainName("printRecRefund");
    PlainName("printRecTotal");
    PlainName("printRecMessage");
  }

  lemma LastNamed(e: Element, b: Element, r: Element, name: string)
    requires LocalName(e.tag) != name && LocalName(b.tag) != name
    ensures Named([e, b, r], name) == if LocalName(r.tag) == name then [r] else []
  {
    NamedOne(r, name);
    assert [e, b, r][1..] == [b, r] && [b, r][1..] == [r];
  }

  lemma FrameNamed(root: Element, name: string)
    requires root.tag == "printerFiscalReceipt" && name != "Envelope" && name != "Body"
    ensures Named([Wrapped(root), Body(root), root], name) == if name == "printerFiscalReceipt" then [root] else []
  {
    SoapNames();
    FrameNames();
    LastNamed(Wrapped(root), Body(root), root, name);
  }

  lemma PartsNamed(a: seq<Element>, b: seq<Element>, c: seq<Element>, d: seq<Element>, e: seq<Element>, name: string)
    ensures Named(a + b + c + d + e, name) == Named(a, name) + Named(b, name) + Named(c, name) + Named(d, name) + Named(e, name)
  {
    NamedConcat(a, b, name);
    NamedConcat(a + b, c, name);
    NamedConcat(a + b + c, d, name);
    NamedConcat(a + b + c + d, e, name);
  }

  lemma FrameAndLines(root: Element, name: string)
    requires root.tag == "printerFiscalReceipt" && name != "Envelope" && name != "Body"
    requires forall i :: 0 <= i < |root.children| ==> root.children[i].children == []
    ensures Named(Iter(Wrapped(root)), name)
         == (if name == "printerFiscalReceipt" then [root] else []) + Named(root.children, name)
  {
    IterWrapped(root);
    NamedConcat([Wrapped(root), Body(root), root], root.children, name);
    FrameNamed(root, name);
  }

  lemma WrappedParts(doc: Document, name: string)
    requires name != "Envelope" && name != "Body"
    ensures Named(Iter(Wrapped(Built(doc))), name)
         == (if name == "printerFiscalReceipt" then [Built(doc)] else [])
            + (Named(Header(doc), name) + Named([BEGIN], name) + Named(ItemLines(doc), name) + Named(TotalLines(doc), name)
               + Named([END], name))
  {
    FrameAndLines(Built(doc), name);
    PartsNamed(Header(doc), [BEGIN], ItemLines(doc), TotalLines(doc), [END], name);
  }

  predicate Framing(name: string) {
    name == "Envelope" || name == "Body" || name == "beginFiscalReceipt" || name == "endFiscalReceipt"
    || name == "printerFiscalReceipt"
  }

  lemma EndsNamed(name: string)
    requires !Framing(name)
    ensures Named([BEGIN], name) == [] && Named([END], name) == []
  {
    FrameNames();
    NamedOne(BEGIN, name);
    NamedOne(END, name);
  }

  lemma HeaderNamed(doc: Document, name: string)
    ensures Named(Header(doc), name) == if name == "printRecMessage" then Header(doc) else []
  {
    LineNames();
    NamedAll(Header(doc), "printRecMessage", name);
  }

  function ItemTag(doc: Document): string {
    if doc.refund then "printRecRefund" else "printRecItem"
  }

  lemma ItemsNamed(doc: Document, name: string)
    ensures Named(ItemLines(doc), name) == if name == ItemTag(doc) then ItemLines(doc) else []
  {
    LineNames();
    NamedAll(ItemLines(doc), ItemTag(doc), name);
  }

  lemma TotalsNamed(doc: Document, name: string)
    ensures Named(TotalLines(doc), name) == if name == "printRecTotal" then TotalLines(doc) else []
  {
    LineNames();
    NamedAll(TotalLines(doc), "printRecTotal", name);
  }

  /** Of the names the parser asks for, each is found where the builder put it. */
  lemma WrappedNamed(doc: Document, name: string)
    requires !Framing(name)
    ensures Named(Iter(Wrapped(Built(doc))), name) ==
            (if name == "printRecMessage" then Header(doc) else [])
            + (if name == ItemTag(doc) then ItemLines(doc) else [])
            + (if name == "printRecTotal" then TotalLines(doc) else [])
  {
    WrappedParts(doc, name);
    EndsNamed(name);
    HeaderNamed(doc, name);
    ItemsNamed(doc, name);
    TotalsNamed(doc, name);
    Squeeze(Named(Header(doc), name), Named(ItemLines(doc), name), Named(TotalLines(doc), name));
  }

  lemma Squeeze(a: seq<Element>, b: seq<Element>, c: seq<Element>)
    ensures [] + (a + [] + b + c + []) == a + b + c
  {
  }

  lemma RootNamed(doc: Document)
    ensures Named(Iter(Wrapped(Built(doc))), "printerFiscalReceipt") != []
  {
    WrappedParts(doc, "printerFiscalReceipt");
  }

  function SumSettled(settled: seq<(int, int)>): int {
    if settled == [] then 0 else settled[0].1 + SumSettled(settled[1..])
  }

  /** Each item line reads back as the item it was made from. */
  lemma ItemsReadBack(doc: Document, i: nat)
    requires i < |doc.items|
    ensures var item, read := doc.items[i], ReadItems(ItemLines(doc));
            && |read| == |doc.items|
            && read[i].description == item.name && read[i].quantity == item.quantity
            && ParseCents(read[i].unitPrice) == Some(item.unitPrice)
            && read[i].department == PrintInt(if item.department.Some? then item.department.value else DepartmentFor(item.rate))
  {
    CentsRoundTrip(doc.items[i].unitPrice);
  }

  /** Each line read back says the kind and, to the cent, the amount it was built with. */
  predicate ReadsAs(p: PaymentRead, settled: (int, int)) {
    p.paymentType == PrintInt(settled.0) && p.amount == PrintCents(settled.1) && AmountOf(p.amount) == Some(settled.1)
  }

  lemma PaymentReadBack(settled: (int, int), index: nat, refund: bool)
    ensures var p := ReadPayment(TotalLine(settled, index, refund));
            ReadsAs(p, settled) && p.kind == if refund then "RIMBORSO" else KindLabel(settled.0)
  {
    CentsRoundTrip(settled.1);
  }

  lemma PaymentsReadBack(doc: Document)
    ensures var ps := ReadPayments(TotalLines(doc));
            && |ps| == |Settled(doc)|
            && (forall i :: 0 <= i < |ps| ==> ReadsAs(ps[i], Settled(doc)[i]))
            && (forall i :: 0 <= i < |ps| ==> ps[i].kind == if doc.refund then "RIMBORSO" else KindLabel(Settled(doc)[i].0))
  {
    var ps, settled := ReadPayments(TotalLines(doc)), Settled(doc);
    forall i | 0 <= i < |ps|
      ensures ReadsAs(ps[i], settled[i]) && ps[i].kind == if doc.refund then "RIMBORSO" else KindLabel(settled[i].0)
    {
      PaymentReadBack(settled[i], i + 1, doc.refund);
    }
  }

  lemma SumOfFirst(ps: seq<PaymentRead>, settled: seq<(int, int)>)
    requires ps != [] && settled != [] && ReadsAs(ps[0], settled[0]) && SumRead(ps[1..]) == Some(SumSettled(settled[1..]))
    ensures SumRead(ps).Some? && SumRead(ps).value == SumSettled(settled)
  {
  }

  lemma {:induction false} SumReadBack(ps: seq<PaymentRead>, settled: seq<(int, int)>)
    requires |ps| == |settled| && forall i :: 0 <= i < |ps| ==> ReadsAs(ps[i], settled[i])
    ensures SumRead(ps) == Some(SumSettled(settled))
  {
    if ps != [] {
      forall i | 0 <= i < |ps[1..]|
        ensures ReadsAs(ps[1..][i], settled[1..][i])
      {
        assert ReadsAs(ps[i + 1], settled[i + 1]);
      }
      SumReadBack(ps[1..], settled[1..]);
      SumOfFirst(ps, settled);
    }
  }

  function SaleOf(doc: Document): Command {
    Sale(ReadItems(ItemLines(doc)), PrintCents(SumSettled(Settled(doc))), doc.refund,
         PrintInt(Settled(doc)[|Settled(doc)| - 1].0), ReadPayments(TotalLines(doc)))
  }

  lemma OneOfThree(a: seq<Element>)
    ensures a + [] + [] == a && [] + a + [] == a && [] + [] + a == a
  {
  }

  lemma TotalsAreRead(doc: Document)
    ensures var es := Iter(Wrapped(Built(doc)));
            Named(es, "printRecTotal") == TotalLines(doc) && Named(es, "printRecMessage") == Header(doc)
  {
    WrappedNamed(doc, "printRecTotal");
    WrappedNamed(doc, "printRecMessage");
    OneOfThree(TotalLines(doc));
    OneOfThree(Header(doc));
  }

  lemma ItemsAreRead(doc: Document)
    ensures var es := Iter(Wrapped(Built(doc)));
            && Named(es, "printRecItem") == (if doc.refund then [] else ItemLines(doc))
            && Named(es, "printRecRefund") == (if doc.refund then ItemLines(doc) else [])
  {
    WrappedNamed(doc, "printRecItem");
    WrappedNamed(doc, "printRecRefund");
    OneOfThree(ItemLines(doc));
  }

  lemma RefundIsRead(doc: Document)
    ensures doc.refund <==> exists m :: m in Header(doc) && IsReso(m)
  {
    if doc.refund {
      assert IsReso(Header(doc)[0]);
    }
  }

  lemma TotalsAddUp(doc: Document)
    ensures var ps := ReadPayments(TotalLines(doc));
            && SumRead(ps) == Some(SumSettled(Settled(doc)))
            && |ps| == |Settled(doc)|
            && ps[|ps| - 1].paymentType == PrintInt(Settled(doc)[|ps| - 1].0)
  {
    PaymentsReadBack(doc);
    var ps, settled := ReadPayments(TotalLines(doc)), Settled(doc);
    SumReadBack(ps, settled);
    assert ReadsAs(ps[|ps| - 1], settled[|ps| - 1]);
  }

  lemma SaleMade(items: seq<Element>, refunds: seq<Element>, messages: seq<Element>, totals: seq<Element>, sum: int, last: string)
    requires totals != [] && SumRead(ReadPayments(totals)) == Some(sum) && ReadPayments(totals)[|totals| - 1].paymentType == last
    ensures SaleFrom(items, refunds, messages, totals) ==
              Sale(ReadItems(items + refunds), PrintCents(sum),
                   refunds != [] || exists m :: m in messages && IsReso(m), last, ReadPayments(totals))
  {
  }

  lemma SaleFromThese(lines: seq<Element>, messages: seq<Element>, totals: seq<Element>, refund: bool, sum: int, last: string)
    requires totals != [] && SumRead(ReadPayments(totals)) == Some(sum) && ReadPayments(totals)[|totals| - 1].paymentType == last
    requires refund <==> exists m :: m in messages && IsReso(m)
    ensures SaleFrom(if refund then [] else lines, if refund then lines else [], messages, totals)
         == Sale(ReadItems(lines), PrintCents(sum), refund, last, ReadPayments(totals))
  {
    var items, refunds: seq<Element> := if refund then [] else lines, if refund then lines else [];
    SaleMade(items, refunds, messages, totals, sum, last);
    assert items + refunds == lines;
  }

  lemma SaleFromParts(doc: Document, messages: seq<Element>)
    requires doc.refund <==> exists m :: m in messages && IsReso(m)
    ensures SaleOf(doc) ==
            SaleFrom(if doc.refund then [] else ItemLines(doc), if doc.refund then ItemLines(doc) else [],
                     messages, TotalLines(doc))
  {
    var settled := Settled(doc);
    TotalsAddUp(doc);
    SaleFromThese(ItemLines(doc), messages, TotalLines(doc), doc.refund,
                  SumSettled(settled), PrintInt(settled[|settled| - 1].0));
  }

  lemma SaleIsRead(doc: Document)
    ensures ReadSale(Iter(Wrapped(Built(doc)))) == SaleOf(doc)
  {
    ItemsAreRead(doc);
    TotalsAreRead(doc);
    RefundIsRead(doc);
    SaleFromParts(doc, Header(doc));
  }

  /** What is built and wrapped is read as that sale: all the items in their order, one
      payment a tender with its kind and its amount to the cent, their sum, sale or refund. */
  lemma BuiltIsRead(doc: Document)
    ensures Read(Wrapped(Built(doc))) == SaleOf(doc)
  {
    assert "printZReport"[5] != "printRecItem"[5] && "printXReport"[5] != "printRecItem"[5];
    WrappedNamed(doc, "printZReport");
    WrappedNamed(doc, "printXReport");
    assert "queryPrinterStatus"[0] != "beginFiscalReceipt"[0];
    WrappedNamed(doc, "queryPrinterStatus");
    WrappedNamed(doc, "printDuplicateReceipt");
    RootNamed(doc);
    SaleIsRead(doc);
  }

  /** A split is settled with the very amounts the till gave; a single cash payment with the
      nearest multiple of 5 cents. */
  lemma SettledAmounts(doc: Document, i: nat)
    requires i < |Tenders(doc)|
    ensures var given, settled := Tenders(doc)[i], Settled(doc)[i];
            && settled.0 == Resolve(given, doc.types)
            && (|Tenders(doc)| > 1 || settled.0 != CASH ==> settled.1 == given.amount)
            && (settled.0 == CASH && Refusal(doc).None? ==> settled.1 % 5 == 0 && -2 <= settled.1 - given.amount <= 2)
  {
    AcceptedExactly(doc);
    Round5IsNearest(Tenders(doc)[i].amount, 0);
  }
}
