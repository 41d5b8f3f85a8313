/** The fiscal document of an Italian till: checked, built as an XML tree, and read by the
    printer. Amounts are whole cents. */
module FiscalDocument {
  import opened Options
  import opened Texts

  const CASH := 0
  const CARD := 2
  const OPERATOR := "1"

  datatype Item = Item(name: string, quantity: string, unitPrice: int, total: int, rate: int, department: Option<int>)

  datatype Payment = Payment(kind: string, amount: int)

  /** `types` is the till's own map of tender names. */
  datatype Document = Document(
    items: seq<Item>, payment: Payment, payments: seq<Payment>, types: map<string, int>, refund: bool, reference: string)

  datatype PayloadError = InvalidTenderAmount | UnknownPaymentType | PaymentsSumMismatch | CashNotRounded

  // ----- tenders ------------------------------------------------------------------

  /** `round_to_5_cents`: no amount of cents lies halfway. */
  function Round5(cents: int): int {
    5 * ((cents + 2) / 5)
  }

  lemma Round5IsNearest(cents: int, other: int)
    requires other % 5 == 0
    ensures Round5(cents) % 5 == 0
    ensures -2 <= Round5(cents) - cents <= 2
    ensures other != Round5(cents) ==> other - cents > 2 || cents - other > 2
    ensures Round5(cents) == cents <==> cents % 5 == 0
  {
  }

  /** `_tenders`. */
  function Tenders(doc: Document): (tenders: seq<Payment>)
    ensures |tenders| >= 1
  {
    if doc.payments != [] then doc.payments else [doc.payment]
  }

  predicate LiteralCash(key: string) {
    key == "cash" || key == "contante" || key == "contanti"
  }

  predicate LiteralCard(key: string) {
    key == "card" || key == "carta" || key == "electronic" || key == "pos"
  }

  /** `is_known_payment_type`. */
  predicate Known(p: Payment, types: map<string, int>) {
    var key := Lower(Strip(p.kind));
    p.kind in types || LiteralCash(key) || LiteralCard(key)
  }

  /** `resolve_payment_type`. */
  function Resolve(p: Payment, types: map<string, int>): int {
    if p.kind in types then types[p.kind]
    else if LiteralCard(Lower(Strip(p.kind))) then CARD
    else CASH
  }

  function SumItems(items: seq<Item>): int {
    if items == [] then 0 else items[0].total + SumItems(items[1..])
  }

  function SumPayments(ps: seq<Payment>): int {
    if ps == [] then 0 else ps[0].amount + SumPayments(ps[1..])
  }

  /** The first tender of a split that can be no part of one. */
  function FirstBadTender(ps: seq<Payment>, types: map<string, int>): Option<PayloadError> {
    if ps == [] then None
    else if ps[0].amount <= 0 then Some(InvalidTenderAmount)
    else if !Known(ps[0], types) then Some(UnknownPaymentType)
    else FirstBadTender(ps[1..], types)
  }

  predicate UnroundedCash(p: Payment, types: map<string, int>) {
    Resolve(p, types) == CASH && Round5(p.amount) != p.amount
  }

  predicate SomeUnroundedCash(ps: seq<Payment>, types: map<string, int>) {
    exists i :: 0 <= i < |ps| && UnroundedCash(ps[i], types)
  }

  /** `validate_tenders`: what it raises, if anything. */
  function Refusal(doc: Document): Option<PayloadError> {
    var ps := Tenders(doc);
    var expected, got := SumItems(doc.items), SumPayments(ps);
    if |ps| < 2 then None
    else if FirstBadTender(ps, doc.types).Some? then FirstBadTender(ps, doc.types)
    else if expected - got > 1 || got - expected > 1 then Some(PaymentsSumMismatch)
    else if SomeUnroundedCash(ps, doc.types) then Some(CashNotRounded)
    else None
  }

  lemma {:induction false} NoBadTender(ps: seq<Payment>, types: map<string, int>)
    ensures FirstBadTender(ps, types).None? <==> forall i :: 0 <= i < |ps| ==> ps[i].amount > 0 && Known(ps[i], types)
  {
    if ps != [] {
      NoBadTender(ps[1..], types);
      if FirstBadTender(ps, types).None? {
        assert forall i :: 1 <= i < |ps| ==> ps[i] == ps[1..][i - 1];
      } else if ps[0].amount > 0 && Known(ps[0], types) {
        var i :| 0 <= i < |ps[1..]| && !(ps[1..][i].amount > 0 && Known(ps[1..][i], types));
        assert ps[i + 1] == ps[1..][i];
      }
    }
  }

  lemma AllCashRounded(ps: seq<Payment>, types: map<string, int>)
    ensures SomeUnroundedCash(ps, types) <==>
              exists i :: 0 <= i < |ps| && Resolve(ps[i], types) == CASH && ps[i].amount % 5 != 0
  {
    if SomeUnroundedCash(ps, types) {
      var i :| 0 <= i < |ps| && UnroundedCash(ps[i], types);
      assert ps[i].amount % 5 != 0;
    }
    if i :| 0 <= i < |ps| && Resolve(ps[i], types) == CASH && ps[i].amount % 5 != 0 {
      assert UnroundedCash(ps[i], types);
    }
  }

  /** A split is accepted exactly when each part is positive and of a known kind, the parts
      make up the document to within a cent, and each cash part is a multiple of 5 cents; a
      single payment always is. */
  lemma AcceptedExactly(doc: Document)
    ensures Refusal(doc).None? <==>
              var ps := Tenders(doc);
              || |ps| == 1
              || (&& (forall i :: 0 <= i < |ps| ==> ps[i].amount > 0 && Known(ps[i], doc.types))
                  && -1 <= SumItems(doc.items) - SumPayments(ps) <= 1
                  && (forall i :: 0 <= i < |ps| && Resolve(ps[i], doc.types) == CASH ==> ps[i].amount % 5 == 0))
  {
    NoBadTender(Tenders(doc), doc.types);
    AllCashRounded(Tenders(doc), doc.types);
  }

  /** The loops of `validate_tenders`. */
  method ValidateTenders(doc: Document) returns (refusal: Option<PayloadError>)
    ensures refusal == Refusal(doc)
  {
    var ps := Tenders(doc);
    if |ps| < 2 {
      return None;
    }
    assert ps[0..] == ps;
    for i := 0 to |ps|
      invariant FirstBadTender(ps[i..], doc.types) == FirstBadTender(ps, doc.types)
    {
      assert ps[i..] == [ps[i]] + ps[i + 1..];
      if ps[i].amount <= 0 {
        return Some(InvalidTenderAmount);
      }
      if !Known(ps[i], doc.types) {
        return Some(UnknownPaymentType);
      }
    }
    var expected, got := SumItems(doc.items), SumPayments(ps);
    if expected - got > 1 || got - expected > 1 {
      return Some(PaymentsSumMismatch);
    }
    for i := 0 to |ps|
      invariant forall j :: 0 <= j < i ==> !UnroundedCash(ps[j], doc.types)
    {
      if Resolve(ps[i], doc.types) == CASH && Round5(ps[i].amount) != ps[i].amount {
        return Some(CashNotRounded);
      }
    }
    return None;
  }

  /** The amounts the document is settled with: cash that settles it alone is rounded. */
  function Settled(doc: Document): seq<(int, int)> {
    var ps := Tenders(doc);
    seq(|ps|, i requires 0 <= i < |ps| =>
      var kind := Resolve(ps[i], doc.types);
      (kind, if kind == CASH && |ps| == 1 then Round5(ps[i].amount) else ps[i].amount))
  }

  // ----- the tree -------------------------------------------------------------------

  datatype Element = Element(tag: string, attributes: map<string, string>, children: seq<Element>)

  function Leaf(tag: string, attributes: map<string, string>): Element {
    Element(tag, attributes, [])
  }

  function DepartmentFor(rate: int): int {
    if rate == 10 then 3 else if rate == 5 then 5 else if rate == 4 then 7 else if rate == 0 then 9 else 1
  }

  function ItemLine(item: Item, refund: bool): Element {
    Leaf(if refund then "printRecRefund" else "printRecItem",
         map["operator" := OPERATOR, "description" := item.name, "quantity" := item.quantity,
             "unitPrice" := PrintCents(item.unitPrice),
             "department" := PrintInt(if item.department.Some? then item.department.value else DepartmentFor(item.rate)),
             "justification" := "1"])
  }

  function KindLabel(kind: int): string {
    if kind == 0 then "Contanti" else if kind == 1 then "Assegno" else if kind == 2 then "Carta" else "Pagamento"
  }

  function TotalLine(settled: (int, int), index: nat, refund: bool): Element {
    Leaf("printRecTotal",
         map["operator" := OPERATOR, "description" := if refund then "RIMBORSO" else KindLabel(settled.0),
             "payment" := PrintCents(settled.1), "paymentType" := PrintInt(settled.0),
             "index" := PrintInt(index), "justification" := "1"])
  }

  function ItemLines(doc: Document): seq<Element> {
    seq(|doc.items|, i requires 0 <= i < |doc.items| => ItemLine(doc.items[i], doc.refund))
  }

  function TotalLines(doc: Document): seq<Element> {
    seq(|Settled(doc)|, i requires 0 <= i < |Settled(doc)| => TotalLine(Settled(doc)[i], i + 1, doc.refund))
  }

  function Header(doc: Document): seq<Element> {
    if !doc.refund then []
    else [Leaf("printRecMessage", map["operator" := OPERATOR, "messageType" := "4",
                                      "message" := if doc.reference != "" then doc.reference else "RESO MERCE"])]
  }

  const BEGIN := Leaf("beginFiscalReceipt", map["operator" := OPERATOR])
  const END := Leaf("endFiscalReceipt", map["operator" := OPERATOR])

  /** `build_commercial_document_xml` of a document that was not refused. */
  function Built(doc: Document): Element {
    Element("printerFiscalReceipt", map[], Header(doc) + [BEGIN] + ItemLines(doc) + TotalLines(doc) + [END])
  }

  lemma NextItemLine(doc: Document, i: nat)
    requires i < |doc.items|
    ensures ItemLines(doc)[..i + 1] == ItemLines(doc)[..i] + [ItemLine(doc.items[i], doc.refund)]
  {
  }

  method AppendItems(root: seq<Element>, doc: Document) returns (longer: seq<Element>)
    ensures longer == root + ItemLines(doc)
  {
    longer := root;
    for i := 0 to |doc.items|
      invariant longer == root + ItemLines(doc)[..i]
    {
      NextItemLine(doc, i);
      longer := longer + [ItemLine(doc.items[i], doc.refund)];
    }
  }

  method AppendTotals(root: seq<Element>, doc: Document) returns (longer: seq<Element>)
    ensures longer == root + TotalLines(doc)
  {
    longer := root;
    var ps := Tenders(doc);
    ghost var lines := TotalLines(doc);
    for i := 0 to |ps|
      invariant longer == root + lines[..i]
    {
      var kind, amount := Resolve(ps[i], doc.types), ps[i].amount;
      if kind == CASH && |ps| == 1 {
        amount := Round5(amount);
      }
      assert Settled(doc)[i] == (kind, amount);
      longer := longer + [TotalLine((kind, amount), i + 1, doc.refund)];
      assert lines[..i + 1] == lines[..i] + [lines[i]];
    }
    assert lines[..|ps|] == lines;
  }

  /** The builder's element tree grows line by line. */
  method Build(doc: Document) returns (r: Option<Element>, refusal: Option<PayloadError>)
    ensures refusal == Refusal(doc)
    ensures r == if refusal.Some? then None else Some(Built(doc))
  {
    refusal := ValidateTenders(doc);
    if refusal.Some? {
      return None, refusal;
    }
    var root := AppendItems(Header(doc) + [BEGIN], doc);
    root := AppendTotals(root, doc);
    return Some(Element("printerFiscalReceipt", map[], root + [END])), None;
  }

  const SOAP := "{http://schemas.xmlsoap.org/soap/envelope/}"

  /** `_soap_wrap`, as the printer's parser reads it. */
  function Wrapped(body: Element): Element {
    Element(SOAP + "Envelope", map[], [Element(SOAP + "Body", map[], [body])])
  }

  // ----- reading it back ---------------------------------------------------------------

  /** `root.iter()`. */
  function Iter(e: Element): seq<Element>
    decreases e, 0
  {
    [e] + IterAll(e.children)
  }

  function IterAll(es: seq<Element>): seq<Element>
    decreases es
  {
    if es == [] then [] else Iter(es[0]) + IterAll(es[1..])
  }

  /** `_localname`. */
  function LocalName(tag: string): string
    decreases |tag|
  {
    if tag == [] then []
    else if tag[|tag| - 1] == '}' then []
    else LocalName(tag[..|tag| - 1]) + [tag[|tag| - 1]]
  }

  function Named(es: seq<Element>, name: string): seq<Element> {
    if es == [] then []
    else (if LocalName(es[0].tag) == name then [es[0]] else []) + Named(es[1..], name)
  }

  function Get(e: Element, key: string): string {
    if key in e.attributes then e.attributes[key] else ""
  }

  datatype ItemRead = ItemRead(description: string, quantity: string, unitPrice: string, department: string)

  datatype PaymentRead = PaymentRead(kind: string, paymentType: string, amount: string)

  /** `Unreadable` stands for an amount that is not written with two decimals. */
  datatype Command =
    | ZReport | XReport | Status | Unknown | Unreadable
    | Reprint(number: string)
    | Sale(items: seq<ItemRead>, total: string, refund: bool, paymentType: string, payments: seq<PaymentRead>)

  function ReadItem(e: Element): ItemRead {
    ItemRead(Get(e, "description"), Get(e, "quantity"), Get(e, "unitPrice"), Get(e, "department"))
  }

  function ReadItems(es: seq<Element>): seq<ItemRead> {
    seq(|es|, i requires 0 <= i < |es| => ReadItem(es[i]))
  }

  function ReadPayment(e: Element): PaymentRead {
    PaymentRead(Get(e, "description"), Get(e, "paymentType"), Get(e, "payment"))
  }

  function ReadPayments(es: seq<Element>): seq<PaymentRead> {
    seq(|es|, i requires 0 <= i < |es| => ReadPayment(es[i]))
  }

  /** `float(amount or 0)`, in cents. */
  function AmountOf(text: string): Option<int> {
    if text == "" then Some(0) else ParseCents(text)
  }

  function SumRead(ps: seq<PaymentRead>): Option<int> {
    if ps == [] then Some(0)
    else
      var first, rest := AmountOf(ps[0].amount), SumRead(ps[1..]);
      if first.None? || rest.None? then None else Some(first.value + rest.value)
  }

  predicate IsReso(m: Element) {
    Get(m, "messageType") == "4"
  }

  function SaleFrom(items: seq<Element>, refunds: seq<Element>, messages: seq<Element>, totals: seq<Element>): Command {
    var payments := ReadPayments(totals);
    var sum := SumRead(payments);
    if sum.None? then Unreadable
    else
      Sale(
        ReadItems(items + refunds),
        if payments == [] then "" else PrintCents(sum.value),
        refunds != [] || exists m :: m in messages && IsReso(m),
        if payments == [] then "" else payments[|payments| - 1].paymentType,
        payments)
  }

  function ReadSale(es: seq<Element>): Command {
    SaleFrom(Named(es, "printRecItem"), Named(es, "printRecRefund"), Named(es, "printRecMessage"), Named(es, "printRecTotal"))
  }

  /** `parse_fiscal_request`. */
  function Read(root: Element): Command {
    var es := Iter(root);
    if Named(es, "printZReport") != [] then ZReport
    else if Named(es, "printXReport") != [] then XReport
    else if Named(es, "queryPrinterStatus") != [] then Status
    else if Named(es, "printDuplicateReceipt") != [] then Reprint(Get(Named(es, "printDuplicateReceipt")[0], "receiptNumber"))
    else if Named(es, "printerFiscalReceipt") != [] then ReadSale(es)
    else Unknown
  }
}
