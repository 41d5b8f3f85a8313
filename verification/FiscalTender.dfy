/** Which tender is cash and which is card, and what follows from it: in the words a till uses and
    in what stands on the built tree. */
module FiscalTender {
  import opened Options
  import opened Texts
  import opened FiscalDocument
  import opened FiscalRoundTrip

  // ----- the words ------------------------------------------------------------------------

  /** The same letters, capital or not; `word` is in small ones. */
  predicate SameLetters(text: string, word: string) {
    && |text| == |word|
    && forall i :: 0 <= i < |text| ==>
         text[i] == word[i] || ('A' <= text[i] <= 'Z' && text[i] as int + 32 == word[i] as int)
  }

  /** The word with nothing but white space around it. */
  predicate SaysAt(text: string, word: string, i: nat, j: nat) {
    && i <= j <= |text| && SameLetters(text[i..j], word)
    && (forall k :: 0 <= k < i ==> Space(text[k])) && (forall k :: j <= k < |text| ==> Space(text[k]))
  }

  ghost predicate Says(text: string, word: string) {
    exists i: nat, j: nat :: SaysAt(text, word, i, j)
  }

  ghost predicate SaysCard(text: string) {
    Says(text, "card") || Says(text, "carta") || Says(text, "electronic") || Says(text, "pos")
  }

  ghost predicate SaysCash(text: string) {
    Says(text, "cash") || Says(text, "contante") || Says(text, "contanti")
  }

  /** The number of a tender: the till's own, or 2 for a card, or 0. */
  ghost function NumberOf(kind: string, types: map<string, int>): int {
    if kind in types then types[kind] else if SaysCard(kind) then 2 else 0
  }

  lemma LowerIsSame(text: string, word: string)
    requires forall i :: 0 <= i < |word| ==> 'a' <= word[i] <= 'z'
    ensures Lower(text) == word <==> SameLetters(text, word)
  {
    if Lower(text) == word {
      forall i | 0 <= i < |text|
        ensures text[i] == word[i] || ('A' <= text[i] <= 'Z' && text[i] as int + 32 == word[i] as int)
      {
        assert Lower(text)[i] == word[i];
      }
    }
    if SameLetters(text, word) {
      assert forall i :: 0 <= i < |text| ==> Lower(text)[i] == word[i];
    }
  }

  /** Stripping cuts a text between its first and its last letter that is no white space. */
  lemma {:induction false} StripIsBetween(text: string) returns (i: nat, j: nat)
    ensures i <= j <= |text| && Strip(text) == text[i..j]
    ensures (forall k :: 0 <= k < i ==> Space(text[k])) && (forall k :: j <= k < |text| ==> Space(text[k]))
    decreases |text|
  {
    if text == [] {
      i, j := 0, 0;
    } else if Space(text[0]) {
      i, j := StripIsBetween(text[1..]);
      assert text[1..][i..j] == text[i + 1..j + 1];
      assert forall k :: 1 <= k < |text| ==> text[k] == text[1..][k - 1];
      i, j := i + 1, j + 1;
    } else if Space(text[|text| - 1]) {
      var front := text[..|text| - 1];
      i, j := StripIsBetween(front);
      assert front[i..j] == text[i..j];
    } else {
      i, j := 0, |text|;
      assert text[0..|text|] == text;
    }
  }

  lemma WordBounds(text: string, word: string)
    requires SameLetters(text, word) && word != "" && forall i :: 0 <= i < |word| ==> 'a' <= word[i] <= 'z'
    ensures text != "" && !Space(text[0]) && !Space(text[|text| - 1])
  {
  }

  /** A text that says a word strips to it. */
  lemma {:induction false} SaidIsStripped(text: string, i: nat, j: nat)
    requires i < j <= |text| && !Space(text[i]) && !Space(text[j - 1])
    requires (forall k :: 0 <= k < i ==> Space(text[k])) && (forall k :: j <= k < |text| ==> Space(text[k]))
    ensures Strip(text) == text[i..j]
    decreases |text|
  {
    if i > 0 {
      assert forall k :: 1 <= k < |text| ==> text[k] == text[1..][k - 1];
      SaidIsStripped(text[1..], i - 1, j - 1);
      assert text[1..][i - 1..j - 1] == text[i..j];
    } else if j < |text| {
      var front := text[..|text| - 1];
      SaidIsStripped(front, i, j);
      assert front[i..j] == text[i..j];
    } else {
      assert text[0..|text|] == text;
    }
  }

  lemma SaidStrips(text: string, word: string, i: nat, j: nat)
    requires SaysAt(text, word, i, j) && word != "" && forall k :: 0 <= k < |word| ==> 'a' <= word[k] <= 'z'
    ensures Strip(text) == text[i..j]
  {
    WordBounds(text[i..j], word);
    SaidIsStripped(text, i, j);
  }

  lemma StrippedSays(text: string, word: string)
    requires word != "" && forall i :: 0 <= i < |word| ==> 'a' <= word[i] <= 'z'
    ensures Lower(Strip(text)) == word <==> Says(text, word)
  {
    LowerIsSame(Strip(text), word);
    var i, j := StripIsBetween(text);
    if SameLetters(Strip(text), word) {
      assert SaysAt(text, word, i, j);
    }
    if Says(text, word) {
      var m: nat, n: nat :| SaysAt(text, word, m, n);
      SaidStrips(text, word, m, n);
    }
  }

  lemma CardWords(text: string)
    ensures LiteralCard(Lower(Strip(text))) <==> SaysCard(text)
  {
    StrippedSays(text, "card");
    StrippedSays(text, "carta");
    StrippedSays(text, "electronic");
    StrippedSays(text, "pos");
  }

  lemma CashWords(text: string)
    ensures LiteralCash(Lower(Strip(text))) <==> SaysCash(text)
  {
    StrippedSays(text, "cash");
    StrippedSays(text, "contante");
    StrippedSays(text, "contanti");
  }

  lemma ResolvedNumber(p: Payment, types: map<string, int>)
    ensures Resolve(p, types) == NumberOf(p.kind, types)
  {
    CardWords(p.kind);
  }

  // ----- on the tree ------------------------------------------------------------------------------

  /** The lines of one name on the document as it goes over the wire. */
  function OnTree(doc: Document, name: string): seq<Element> {
    Named(Iter(Wrapped(Built(doc))), name)
  }

  lemma TotalsOnTree(doc: Document)
    ensures OnTree(doc, "printRecTotal") == TotalLines(doc)
  {
    WrappedNamed(doc, "printRecTotal");
    OneOfThree(TotalLines(doc));
  }

  lemma SmallNumbers()
    ensures PrintInt(0) == "0" && PrintInt(1) == "1" && PrintInt(2) == "2"
    ensures PrintInt(3) == "3" && PrintInt(5) == "5" && PrintInt(7) == "7" && PrintInt(9) == "9"
  {
  }

  /** A tender whose word the till has a number for is settled under that number. Any other is
      settled as a card if its word says so and as cash if not; a card with exactly its amount,
      cash as well unless it is alone: then with the nearest multiple of five cents. */
  lemma TenderOnTree(doc: Document, i: nat)
    requires i < |Tenders(doc)|
    ensures var rows, tender := OnTree(doc, "printRecTotal"), Tenders(doc)[i];
            && |rows| == |Tenders(doc)|
            && var at := rows[i].attributes;
               && "paymentType" in at && "payment" in at && "description" in at && "index" in at
               && at["index"] == PrintInt(i + 1)
               && (tender.kind in doc.types ==> at["paymentType"] == PrintInt(doc.types[tender.kind]))
               && (tender.kind !in doc.types && SaysCard(tender.kind) ==>
                     at["paymentType"] == "2" && at["payment"] == PrintCents(tender.amount)
                     && at["description"] == if doc.refund then "RIMBORSO" else "Carta")
               && (tender.kind !in doc.types && !SaysCard(tender.kind) ==>
                     at["paymentType"] == "0" && at["description"] == if doc.refund then "RIMBORSO" else "Contanti")
  {
    TotalsOnTree(doc);
    ResolvedNumber(Tenders(doc)[i], doc.types);
    SmallNumbers();
  }

  /** What is settled under number 0 alone is rounded to five cents; everything else is exact. */
  lemma AmountOnTree(doc: Document, i: nat) returns (cents: int)
    requires i < |Tenders(doc)|
    ensures var rows, tender := OnTree(doc, "printRecTotal"), Tenders(doc)[i];
            && |rows| == |Tenders(doc)| && "payment" in rows[i].attributes
            && rows[i].attributes["payment"] == PrintCents(cents)
            && (|Tenders(doc)| > 1 || NumberOf(tender.kind, doc.types) != 0 ==> cents == tender.amount)
            && (|Tenders(doc)| == 1 && NumberOf(tender.kind, doc.types) == 0 ==>
                  cents % 5 == 0 && -2 <= cents - tender.amount <= 2)
  {
    TotalsOnTree(doc);
    ResolvedNumber(Tenders(doc)[i], doc.types);
    Round5IsNearest(Tenders(doc)[i].amount, 0);
    cents := Settled(doc)[i].1;
  }

  /** The labels of the kinds the till has a number for. */
  lemma LabelOnTree(doc: Document, i: nat)
    requires i < |Tenders(doc)| && !doc.refund
    ensures var rows, n := OnTree(doc, "printRecTotal"), NumberOf(Tenders(doc)[i].kind, doc.types);
            && |rows| == |Tenders(doc)| && "description" in rows[i].attributes
            && rows[i].attributes["description"] ==
                 if n == 0 then "Contanti" else if n == 1 then "Assegno" else if n == 2 then "Carta" else "Pagamento"
  {
    TotalsOnTree(doc);
    ResolvedNumber(Tenders(doc)[i], doc.types);
  }

  lemma ItemsOnTree(doc: Document)
    ensures OnTree(doc, if doc.refund then "printRecRefund" else "printRecItem") == ItemLines(doc)
    ensures OnTree(doc, if doc.refund then "printRecItem" else "printRecRefund") == []
  {
    WrappedNamed(doc, "printRecItem");
    WrappedNamed(doc, "printRecRefund");
    OneOfThree(ItemLines(doc));
  }

  /** The line says what the item is, in its own department or the one of its rate. */
  predicate ItemStands(row: Element, item: Item) {
    var at := row.attributes;
    && "description" in at && "quantity" in at && "unitPrice" in at && "department" in at
    && at["description"] == item.name && at["quantity"] == item.quantity
    && at["unitPrice"] == PrintCents(item.unitPrice)
    && (item.department.Some? ==> at["department"] == PrintInt(item.department.value))
    && (item.department.None? ==>
          at["department"] == if item.rate == 10 then "3" else if item.rate == 5 then "5"
                              else if item.rate == 4 then "7" else if item.rate == 0 then "9" else "1")
  }

  lemma ItemLineStands(item: Item, refund: bool)
    ensures ItemStands(ItemLine(item, refund), item)
  {
    SmallNumbers();
  }

  /** Each item stands on the tree in its place, of a refund as a refund. */
  lemma ItemOnTree(doc: Document, i: nat)
    requires i < |doc.items|
    ensures var rows := OnTree(doc, if doc.refund then "printRecRefund" else "printRecItem");
            |rows| == |doc.items| && ItemStands(rows[i], doc.items[i])
    ensures OnTree(doc, if doc.refund then "printRecItem" else "printRecRefund") == []
  {
    ItemsOnTree(doc);
    ItemLineStands(doc.items[i], doc.refund);
  }

  /** A refund says so once, with the reference or the words "RESO MERCE"; a sale does not. */
  lemma RefundOnTree(doc: Document)
    ensures var rows := OnTree(doc, "printRecMessage");
            if !doc.refund then rows == []
            else
              && |rows| == 1 && "messageType" in rows[0].attributes && rows[0].attributes["messageType"] == "4"
              && "message" in rows[0].attributes
              && rows[0].attributes["message"] == if doc.reference != "" then doc.reference else "RESO MERCE"
  {
    WrappedNamed(doc, "printRecMessage");
    OneOfThree(Header(doc));
  }

  /** Lines of one name, each for the operator "1". */
  ghost predicate Rows(lines: seq<Element>, name: string) {
    forall line :: line in lines ==> line.tag == name && "operator" in line.attributes && line.attributes["operator"] == "1"
  }

  /** The document begins, has its items, then its tenders, and ends; a refund says first what it is. */
  lemma LinesInOrder(doc: Document)
    returns (refund: seq<Element>, begin: Element, items: seq<Element>, tenders: seq<Element>, end: Element)
    ensures Built(doc).children == refund + [begin] + items + tenders + [end]
    ensures |refund| == (if doc.refund then 1 else 0) && Rows(refund, "printRecMessage")
    ensures Rows([begin], "beginFiscalReceipt") && Rows([end], "endFiscalReceipt")
    ensures |items| == |doc.items| && Rows(items, if doc.refund then "printRecRefund" else "printRecItem")
    ensures |tenders| == |Tenders(doc)| && Rows(tenders, "printRecTotal")
  {
    refund, begin, items, tenders, end := Header(doc), BEGIN, ItemLines(doc), TotalLines(doc), END;
  }

  // ----- what is refused -------------------------------------------------------------------------

  /** A part of a split that can be one: positive, and of a kind the till or a word names. */
  ghost predicate Sound(p: Payment, types: map<string, int>) {
    p.amount > 0 && (p.kind in types || SaysCard(p.kind) || SaysCash(p.kind))
  }

  ghost predicate FirstUnsound(ps: seq<Payment>, types: map<string, int>, i: nat) {
    i < |ps| && !Sound(ps[i], types) && forall k :: 0 <= k < i ==> Sound(ps[k], types)
  }

  lemma {:induction false} FirstBadIsUnsound(ps: seq<Payment>, types: map<string, int>)
    ensures FirstBadTender(ps, types).None? <==> forall i :: 0 <= i < |ps| ==> Sound(ps[i], types)
    ensures forall i: nat :: FirstUnsound(ps, types, i) ==>
              FirstBadTender(ps, types) == Some(if ps[i].amount <= 0 then InvalidTenderAmount else UnknownPaymentType)
  {
    if ps != [] {
      CardWords(ps[0].kind);
      CashWords(ps[0].kind);
      FirstBadIsUnsound(ps[1..], types);
      assert forall i :: 1 <= i < |ps| ==> ps[i] == ps[1..][i - 1];
      forall i: nat | FirstUnsound(ps, types, i)
        ensures FirstBadTender(ps, types) == Some(if ps[i].amount <= 0 then InvalidTenderAmount else UnknownPaymentType)
      {
        if i > 0 {
          assert Sound(ps[0], types);
          assert FirstUnsound(ps[1..], types, i - 1);
        }
      }
    }
  }

  /** Why a document is refused: the first part that can be none, and then its amount before its
      kind; parts that do not make up the items to a cent; cash that is no multiple of five
      cents, among more than one tender. */
  lemma RefusedExactly(doc: Document)
    ensures var ps, types := Tenders(doc), doc.types;
            var off := SumItems(doc.items) - SumPayments(ps);
            var sound := forall i :: 0 <= i < |ps| ==> Sound(ps[i], types);
            && (|ps| == 1 ==> Refusal(doc) == None)
            && (|ps| > 1 ==>
                  && (forall i: nat :: FirstUnsound(ps, types, i) ==>
                        Refusal(doc) == Some(if ps[i].amount <= 0 then InvalidTenderAmount else UnknownPaymentType))
                  && (sound && (off > 1 || off < -1) ==> Refusal(doc) == Some(PaymentsSumMismatch))
                  && (sound && -1 <= off <= 1 ==>
                        Refusal(doc) ==
                          if exists i :: 0 <= i < |ps| && NumberOf(ps[i].kind, types) == 0 && ps[i].amount % 5 != 0
                          then Some(CashNotRounded) else None))
  {
    var ps, types := Tenders(doc), doc.types;
    FirstBadIsUnsound(ps, types);
    forall i | 0 <= i < |ps|
      ensures Resolve(ps[i], types) == NumberOf(ps[i].kind, types)
    {
      ResolvedNumber(ps[i], types);
    }
    AllCashRounded(ps, types);
  }
}
