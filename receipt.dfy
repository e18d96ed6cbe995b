/** The sales receipt: the record a receipt is drawn from, the plain-text
    rendition handed to the share sheet or the clipboard, and the fields of
    the on-screen rendition. Currency and date formatting are parameters. */
module Receipt {
  import opened Records
  import Text

  datatype ReceiptItem = ReceiptItem(name: string, qty: int, price: int)

  datatype ReceiptData = ReceiptData(
    id: string,
    date: string,
    total: int,
    paymentAmount: Option<int>,
    changeAmount: Option<int>,
    items: seq<ReceiptItem>)

  /** The sum of the printed line subtotals (quantity times price). */
  function ItemsValue(items: seq<ReceiptItem>): int {
    if items == [] then 0 else ItemsValue(items[..|items| - 1]) + items[|items| - 1].qty * items[|items| - 1].price
  }

  const Rule := "--------------------------------"
  const StoreName := "*28 POINT*"
  const Title := "Struk Belanja"
  const Thanks := "Terima kasih telah berbelanja!"
  const NoReturns := "Barang tidak dapat ditukar."
  const ServicesHeading := "TERSEDIA LAYANAN:"
  const ServiceCash := "\U{2705} Tarik & Setor Tunai"
  const ServiceTransfer := "\U{2705} Transfer Bank (Semua Bank)"
  const ServiceTopUp := "\U{2705} Pulsa, Paket Data, Token PLN"
  const ServiceBills := "\U{2705} Bayar PDAM, BPJS, Cicilan, dll"
  const Address1 := "Jl. Kali Brantas No. 28, RT 003/RW 002"
  const Address2 := "Bendo, Kepanjenkidul, Kota Blitar"
  const Address3 := "Jawa Timur, 66116"

  /** The receipt number: the first eight characters of the id, upper-cased
      (the whole id when it is shorter). */
  function ShortNumber(id: string): (r: string)
    ensures |r| == if |id| < 8 then |id| else 8
    ensures forall i :: 0 <= i < |r| ==> r[i] == Text.UpperChar(id[i])
  {
    Text.Upper(if |id| < 8 then id else id[..8])
  }

  /** The cash lines are printed only when both the tendered amount and the
      change are known. */
  predicate ShowsPayment(d: ReceiptData) {
    d.paymentAmount.Some? && d.changeAmount.Some?
  }

  function QtyLine(item: ReceiptItem, fmt: int -> string): string {
    Text.IntToString(item.qty) + " x " + fmt(item.price) + " = " + fmt(item.qty * item.price)
  }

  function HeaderLines(d: ReceiptData, dateStr: string): seq<string> {
    [StoreName, Title, Rule, "Tgl: " + dateStr, "No : " + ShortNumber(d.id), Rule]
  }

  /** Two lines per item, in the order of the items: the name, then the
      quantity, the unit price and their product. */
  function ItemLines(items: seq<ReceiptItem>, fmt: int -> string): (r: seq<string>)
    ensures |r| == 2 * |items|
  {
    if items == [] then []
    else
      var last := items[|items| - 1];
      ItemLines(items[..|items| - 1], fmt) + [last.name, QtyLine(last, fmt)]
  }

  lemma {:induction false} NameIndex(items: seq<ReceiptItem>, fmt: int -> string, k: nat)
    requires k < |items|
    ensures ItemLines(items, fmt)[2 * k] == items[k].name
  {
    var p := items[..|items| - 1];
    if k < |items| - 1 {
      NameIndex(p, fmt, k);
      assert p[k] == items[k];
    }
  }

  lemma {:induction false} QtyIndex(items: seq<ReceiptItem>, fmt: int -> string, k: nat)
    requires k < |items|
    ensures ItemLines(items, fmt)[2 * k + 1] == QtyLine(items[k], fmt)
  {
    var p := items[..|items| - 1];
    if k < |items| - 1 {
      QtyIndex(p, fmt, k);
      assert p[k] == items[k];
    }
  }

  function TotalLines(d: ReceiptData, fmt: int -> string): seq<string> {
    [Rule, "TOTAL   : " + fmt(d.total)]
    + (if ShowsPayment(d)
       then ["TUNAI   : " + fmt(d.paymentAmount.value), "KEMBALI : " + fmt(d.changeAmount.value)]
       else [])
  }

  /** The fixed closing message, the list of services and the shop address. */
  const ClosingLines: seq<string> := [Rule, Thanks, NoReturns, ""]
  const ServiceLines: seq<string> := [Rule, ServicesHeading, ServiceCash, ServiceTransfer] + [ServiceTopUp, ServiceBills, Rule, ""]
  const AddressLines: seq<string> := [Address1, Address2, Address3]
  const FooterLines: seq<string> := ClosingLines + ServiceLines + AddressLines

  /** The lines of the text receipt, in order. */
  function Lines(d: ReceiptData, fmt: int -> string, dateStr: string): seq<string> {
    HeaderLines(d, dateStr) + ItemLines(d.items, fmt) + TotalLines(d, fmt) + FooterLines
  }

  /** Lines joined into text, each one ended by a newline. */
  function Unlines(ls: seq<string>): string {
    if ls == [] then "" else Unlines(ls[..|ls| - 1]) + ls[|ls| - 1] + "\n"
  }

  lemma UnlinesSnoc(ls: seq<string>, l: string)
    ensures Unlines(ls + [l]) == Unlines(ls) + l + "\n"
  {
    assert (ls + [l])[..|ls|] == ls;
  }

  /** The share/clipboard text of a receipt, built line by line. */
  method GenerateText(d: ReceiptData, fmt: int -> string, formatDate: string -> string) returns (text: string)
    ensures text == Unlines(Lines(d, fmt, formatDate(d.date)))
  {
    var dateStr := formatDate(d.date);
    // `lines` records the lines appended so far; `text` is always their join.
    ghost var lines := HeaderLines(d, dateStr);
    text := EmitHeader(d, dateStr);

    text := EmitItems(text, lines, d.items, fmt);
    lines := lines + ItemLines(d.items, fmt);
    text := EmitTotals(text, lines, d, fmt);
    lines := lines + TotalLines(d, fmt);
    text := EmitFooter(text, lines);
    lines := lines + FooterLines;
    assert lines == Lines(d, fmt, dateStr);
  }

  /** Two lines per item, in the order of the items. */
  method EmitItems(text: string, ghost lines: seq<string>, items: seq<ReceiptItem>, fmt: int -> string) returns (r: string)
    requires text == Unlines(lines)
    ensures r == Unlines(lines + ItemLines(items, fmt))
  {
    r := text;
    // `ls` records the lines appended so far; `r` is always their join.
    ghost var ls := lines;
    var i := 0;
    while i < |items|
      invariant 0 <= i <= |items|
      invariant ls == lines + ItemLines(items[..i], fmt) && r == Unlines(ls)
    {
      var item := items[i];
      r := Emit(r, ls, item.name);
      ls := ls + [item.name];
      var q := Text.IntToString(item.qty) + " x " + fmt(item.price) + " = " + fmt(item.qty * item.price);
      r := Emit(r, ls, q);
      ls := ls + [q];
      ItemLinesStep(items, fmt, i);
      SnocPair(lines, ItemLines(items[..i], fmt), item.name, q);
      i := i + 1;
    }
    assert items[..i] == items;
  }

  lemma ItemLinesStep(items: seq<ReceiptItem>, fmt: int -> string, i: nat)
    requires i < |items|
    ensures ItemLines(items[..i + 1], fmt) == ItemLines(items[..i], fmt) + [items[i].name, QtyLine(items[i], fmt)]
  {
    assert items[..i + 1][..i] == items[..i];
  }

  /** The shop name, the title, the date and the receipt number. */
  method EmitHeader(d: ReceiptData, dateStr: string) returns (r: string)
    ensures r == Unlines(HeaderLines(d, dateStr))
  {
    ghost var ls: seq<string> := [];
    r := Emit("", ls, StoreName); ls := ls + [StoreName];
    r := Emit(r, ls, Title); ls := ls + [Title];
    r := Emit(r, ls, Rule); ls := ls + [Rule];
    r := Emit(r, ls, "Tgl: " + dateStr); ls := ls + ["Tgl: " + dateStr];
    r := Emit(r, ls, "No : " + Text.Upper(if |d.id| < 8 then d.id else d.id[..8]));
    ls := ls + ["No : " + ShortNumber(d.id)];
    r := Emit(r, ls, Rule); ls := ls + [Rule];
    assert ls == HeaderLines(d, dateStr);
  }

  /** The TOTAL line and, when both amounts are known, the cash lines. */
  method EmitTotals(text: string, ghost lines: seq<string>, d: ReceiptData, fmt: int -> string) returns (r: string)
    requires text == Unlines(lines)
    ensures r == Unlines(lines + TotalLines(d, fmt))
  {
    ghost var ls := lines;
    var totalLine := "TOTAL   : " + fmt(d.total);
    r := Emit(text, ls, Rule); ls := ls + [Rule];
    r := Emit(r, ls, totalLine); ls := ls + [totalLine];
    assert ls == lines + [Rule, totalLine];
    if d.paymentAmount.Some? && d.changeAmount.Some? {
      var paid := "TUNAI   : " + fmt(d.paymentAmount.value);
      var change := "KEMBALI : " + fmt(d.changeAmount.value);
      r := Emit(r, ls, paid); ls := ls + [paid];
      r := Emit(r, ls, change); ls := ls + [change];
      assert ls == lines + ([Rule, totalLine] + [paid, change]);
    }
    assert ls == lines + TotalLines(d, fmt);
  }

  /** The fixed closing lines. */
  method EmitFooter(text: string, ghost lines: seq<string>) returns (r: string)
    requires text == Unlines(lines)
    ensures r == Unlines(lines + FooterLines)
  {
    r := EmitClosing(text, lines);
    r := EmitServices(r, lines + ClosingLines);
    r := EmitAddress(r, lines + ClosingLines + ServiceLines);
    AppendAssoc(lines, ClosingLines, ServiceLines);
    AppendAssoc(lines, ClosingLines + ServiceLines, AddressLines);
  }

  method EmitClosing(text: string, ghost lines: seq<string>) returns (r: string)
    requires text == Unlines(lines)
    ensures r == Unlines(lines + ClosingLines)
  {
    ghost var ls := lines;
    r := Emit(text, ls, Rule); ls := ls + [Rule];
    r := Emit(r, ls, Thanks); ls := ls + [Thanks];
    r := Emit(r, ls, NoReturns); ls := ls + [NoReturns];
    r := Emit(r, ls, ""); ls := ls + [""];
    SnocFour(lines, Rule, Thanks, NoReturns, "");
  }

  method EmitServices(text: string, ghost lines: seq<string>) returns (r: string)
    requires text == Unlines(lines)
    ensures r == Unlines(lines + ServiceLines)
  {
    r := EmitServicesA(text, lines);
    r := EmitServicesB(r, lines + [Rule, ServicesHeading, ServiceCash, ServiceTransfer]);
    AppendAssoc(lines, [Rule, ServicesHeading, ServiceCash, ServiceTransfer], [ServiceTopUp, ServiceBills, Rule, ""]);
  }

  method EmitServicesA(text: string, ghost lines: seq<string>) returns (r: string)
    requires text == Unlines(lines)
    ensures r == Unlines(lines + [Rule, ServicesHeading, ServiceCash, ServiceTransfer])
  {
    ghost var ls := lines;
    r := Emit(text, ls, Rule); ls := ls + [Rule];
    r := Emit(r, ls, ServicesHeading); ls := ls + [ServicesHeading];
    r := Emit(r, ls, ServiceCash); ls := ls + [ServiceCash];
    r := Emit(r, ls, ServiceTransfer); ls := ls + [ServiceTransfer];
    SnocFour(lines, Rule, ServicesHeading, ServiceCash, ServiceTransfer);
  }

  method EmitServicesB(text: string, ghost lines: seq<string>) returns (r: string)
    requires text == Unlines(lines)
    ensures r == Unlines(lines + [ServiceTopUp, ServiceBills, Rule, ""])
  {
    ghost var ls := lines;
    r := Emit(text, ls, ServiceTopUp); ls := ls + [ServiceTopUp];
    r := Emit(r, ls, ServiceBills); ls := ls + [ServiceBills];
    r := Emit(r, ls, Rule); ls := ls + [Rule];
    r := Emit(r, ls, ""); ls := ls + [""];
    SnocFour(lines, ServiceTopUp, ServiceBills, Rule, "");
  }

  method EmitAddress(text: string, ghost lines: seq<string>) returns (r: string)
    requires text == Unlines(lines)
    ensures r == Unlines(lines + AddressLines)
  {
    ghost var ls := lines;
    r := Emit(text, ls, Address1); ls := ls + [Address1];
    r := Emit(r, ls, Address2); ls := ls + [Address2];
    r := Emit(r, ls, Address3); ls := ls + [Address3];
    SnocThree(lines, Address1, Address2, Address3);
  }

  lemma AppendAssoc<T>(a: seq<T>, b: seq<T>, c: seq<T>)
    ensures a + b + c == a + (b + c)
  {
  }

  lemma SnocPair<T>(a: seq<T>, b: seq<T>, x: T, y: T)
    ensures a + b + [x] + [y] == a + (b + [x, y])
  {
  }

  lemma SnocThree<T>(a: seq<T>, x: T, y: T, z: T)
    ensures a + [x] + [y] + [z] == a + [x, y, z]
  {
  }

  lemma SnocFour<T>(a: seq<T>, w: T, x: T, y: T, z: T)
    ensures a + [w] + [x] + [y] + [z] == a + [w, x, y, z]
  {
  }

  /** `text += l + "\n"`, keeping `text` the join of the lines appended so far. */
  method Emit(text: string, ghost lines: seq<string>, l: string) returns (r: string)
    requires text == Unlines(lines)
    ensures r == Unlines(lines + [l])
  {
    UnlinesSnoc(lines, l);
    r := text + l + "\n";
  }

  /** The layout of the text: six header lines, two per item, the TOTAL
      block, and the fifteen fixed footer and address lines. */
  lemma LinesLayout(d: ReceiptData, fmt: int -> string, dateStr: string)
    ensures var ls := Lines(d, fmt, dateStr); var n := |d.items|;
      && |ls| == 23 + 2 * n + (if ShowsPayment(d) then 2 else 0)
      && ls[0] == StoreName && ls[1] == Title
      && ls[3] == "Tgl: " + dateStr && ls[4] == "No : " + ShortNumber(d.id)
      && ls[7 + 2 * n] == "TOTAL   : " + fmt(d.total)
      && ls[|ls| - 15..] == FooterLines
  {
    var h, il, t := HeaderLines(d, dateStr), ItemLines(d.items, fmt), TotalLines(d, fmt);
    FirstAt(h, il, t, FooterLines, 0);
    FirstAt(h, il, t, FooterLines, 1);
    FirstAt(h, il, t, FooterLines, 3);
    FirstAt(h, il, t, FooterLines, 4);
    ThirdAt(h, il, t, FooterLines, 1);
    SuffixIs(h + il + t, FooterLines);
  }

  /** Item `k` contributes its name line and then its quantity line, at
      positions fixed by its index. */
  lemma NameLineAt(d: ReceiptData, fmt: int -> string, dateStr: string, k: nat)
    requires k < |d.items|
    ensures Lines(d, fmt, dateStr)[6 + 2 * k] == d.items[k].name
  {
    var h, il, t := HeaderLines(d, dateStr), ItemLines(d.items, fmt), TotalLines(d, fmt);
    assert |h| == 6;
    NameIndex(d.items, fmt, k);
    assert il[2 * k] == d.items[k].name;
    MiddleIs(h, il, t, FooterLines, 2 * k, d.items[k].name);
  }

  lemma QtyLineAt(d: ReceiptData, fmt: int -> string, dateStr: string, k: nat)
    requires k < |d.items|
    ensures Lines(d, fmt, dateStr)[7 + 2 * k] == QtyLine(d.items[k], fmt)
  {
    QtyIndex(d.items, fmt, k);
    MiddleAt(HeaderLines(d, dateStr), ItemLines(d.items, fmt), TotalLines(d, fmt), FooterLines, 2 * k + 1);
  }

  lemma FirstAt<T>(a: seq<T>, b: seq<T>, c: seq<T>, e: seq<T>, i: nat)
    requires i < |a|
    ensures (a + b + c + e)[i] == a[i]
  {
  }

  lemma ThirdAt<T>(a: seq<T>, b: seq<T>, c: seq<T>, e: seq<T>, i: nat)
    requires i < |c|
    ensures (a + b + c + e)[|a| + |b| + i] == c[i]
  {
  }

  lemma FourthAt<T>(a: seq<T>, b: seq<T>, c: seq<T>, e: seq<T>, i: nat)
    requires i < |e|
    ensures (a + b + c + e)[|a| + |b| + |c| + i] == e[i]
  {
  }

  lemma SuffixIs<T>(a: seq<T>, e: seq<T>)
    ensures (a + e)[|a + e| - |e|..] == e
  {
    assert (a + e)[|a|..] == e;
  }

  lemma MiddleIs<T>(a: seq<T>, b: seq<T>, c: seq<T>, e: seq<T>, i: nat, x: T)
    requires i < |b| && b[i] == x
    ensures (a + b + c + e)[|a| + i] == x
  {
  }

  lemma MiddleAt<T>(a: seq<T>, b: seq<T>, c: seq<T>, e: seq<T>, i: nat)
    requires i < |b|
    ensures (a + b + c + e)[|a| + i] == b[i]
  {
  }

  /** The cash lines follow the TOTAL line exactly when both amounts are
      present. */
  lemma PaymentLinesIff(d: ReceiptData, fmt: int -> string, dateStr: string)
    ensures var ls := Lines(d, fmt, dateStr); var n := |d.items|;
      && (ShowsPayment(d) <==> |ls| == 25 + 2 * n)
      && (ShowsPayment(d) ==>
            ls[8 + 2 * n] == "TUNAI   : " + fmt(d.paymentAmount.value)
            && ls[9 + 2 * n] == "KEMBALI : " + fmt(d.changeAmount.value))
      && (!ShowsPayment(d) ==> ls[8 + 2 * n] == Rule)
  {
    var h, il, t := HeaderLines(d, dateStr), ItemLines(d.items, fmt), TotalLines(d, fmt);
    if ShowsPayment(d) {
      ThirdAt(h, il, t, FooterLines, 2);
      ThirdAt(h, il, t, FooterLines, 3);
    } else {
      FourthAt(h, il, t, FooterLines, 0);
    }
  }

  /** The TOTAL line shows the total the receipt carries: replacing the
      items by any others leaves it as it is. */
  lemma TotalLineIgnoresItems(d: ReceiptData, items: seq<ReceiptItem>, fmt: int -> string, dateStr: string)
    ensures Lines(d.(items := items), fmt, dateStr)[7 + 2 * |items|] == Lines(d, fmt, dateStr)[7 + 2 * |d.items|]
  {
    LinesLayout(d, fmt, dateStr);
    LinesLayout(d.(items := items), fmt, dateStr);
  }

  /** One row of the on-screen receipt: the name, "qty x price", and the
      line subtotal. */
  datatype ViewRow = ViewRow(name: string, qtyPrice: string, subtotal: string)

  /** The on-screen receipt: number, date, rows, total and the optional cash
      lines (tendered, change). */
  datatype ReceiptView = ReceiptView(
    number: string,
    date: string,
    rows: seq<ViewRow>,
    total: string,
    payment: Option<(string, string)>)

  function View(d: ReceiptData, fmt: int -> string, formatShortDate: string -> string): (v: ReceiptView)
    ensures v.number == ShortNumber(d.id)
    ensures |v.rows| == |d.items|
    ensures forall k :: 0 <= k < |d.items| ==>
      v.rows[k].name == d.items[k].name && v.rows[k].subtotal == fmt(d.items[k].qty * d.items[k].price)
    ensures v.total == fmt(d.total)
    ensures v.payment.Some? <==> ShowsPayment(d)
  {
    ReceiptView(
      ShortNumber(d.id),
      formatShortDate(d.date),
      seq(|d.items|, k requires 0 <= k < |d.items| =>
        ViewRow(d.items[k].name,
                Text.IntToString(d.items[k].qty) + " x " + fmt(d.items[k].price),
                fmt(d.items[k].qty * d.items[k].price))),
      fmt(d.total),
      if ShowsPayment(d) then Some((fmt(d.paymentAmount.value), fmt(d.changeAmount.value))) else None)
  }

  /** The screen and the text agree: the same receipt number, and for every
      item the same "qty x price" and the same subtotal. */
  lemma ViewAgreesWithText(d: ReceiptData, fmt: int -> string, formatShortDate: string -> string, dateStr: string)
    ensures var v := View(d, fmt, formatShortDate); var ls := Lines(d, fmt, dateStr);
      && ls[4] == "No : " + v.number
      && forall k :: 0 <= k < |d.items| ==> ls[7 + 2 * k] == v.rows[k].qtyPrice + " = " + v.rows[k].subtotal
  {
    LinesLayout(d, fmt, dateStr);
    forall k | 0 <= k < |d.items|
      ensures Lines(d, fmt, dateStr)[7 + 2 * k] == View(d, fmt, formatShortDate).rows[k].qtyPrice + " = " + View(d, fmt, formatShortDate).rows[k].subtotal
    {
      QtyLineAt(d, fmt, dateStr, k);
    }
  }
}
