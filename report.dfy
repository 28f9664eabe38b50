/**
 * The PDF report (`generatePDF`), reduced to what the drawing calls place where: the text
 * lines it emits, the vertical cursor `yPos` they are placed at, and the page breaks.
 * Fonts, colours, rectangles and number formatting belong to the PDF library.
 */
module Report {
  import opened Wrappers
  import opened Entries
  import opened Totals
  import opened DateOrder
  import opened Seqs

  /** The left margin, also the cursor a new page starts at. */
  const Margin: int := 20
  /** A page is added before an entry whose cursor is below `pageHeight - BreakGap`. */
  const BreakGap: int := 40
  /** The longest notes text shown before it is cut. */
  const NotesLimit: nat := 60

  /** What a text line says. Amounts are the unformatted numbers. */
  datatype Text =
    | Title
    | GeneratedOn
    | InfoHeading
    | NameLine(name: string)
    | BusinessLine(business: string)
    | SummaryHeading
    | TotalStandardHours(amount: real)
    | TotalOvertimeHours(amount: real)
    | TotalMileage(amount: real)
    | TotalGasExpense(amount: real)
    | TotalOtherExpenses(amount: real)
    | TotalExpensesLine(amount: real)
    | EntriesHeading
    | EntryDate(date: string)
    | HoursLine(standard: string, overtime: string)
    | MileageLine(mileage: string)
    | GasLine(parsed: Option<real>)
    | OtherLine(parsed: Option<real>)
    | ExpenseDescription(description: string)
    | NotesLine(notes: string)
  {
    /** A line of an entry's block other than its date. */
    predicate IsDetail() {
      HoursLine? || MileageLine? || GasLine? || OtherLine? || ExpenseDescription? || NotesLine?
    }

    /** A line of the summary that shows an amount. */
    predicate IsAmount() {
      TotalStandardHours? || TotalOvertimeHours? || TotalMileage? || TotalGasExpense? || TotalOtherExpenses? || TotalExpensesLine?
    }
  }

  /** One drawing step: a text line at height `y`, or `addPage`. */
  datatype Item = Line(y: int, text: Text) | AddPage

  /** `notes.substring(0, 60)`, followed by `...` when the notes are longer than that. */
  function TruncateNotes(notes: string): (r: string)
    ensures |notes| <= NotesLimit ==> r == notes
    ensures |notes| > NotesLimit ==> |r| == NotesLimit + 3 && r[..NotesLimit] == notes[..NotesLimit] && r[NotesLimit..] == "..."
  {
    var shown := if |notes| < NotesLimit then notes else notes[..NotesLimit];
    shown + if |notes| > NotesLimit then "..." else ""
  }

  /** The condition of the hours line: either hours field is filled in. */
  predicate HasHours(e: Entry) {
    Truthy(e.form.standardHours) || Truthy(e.form.overtimeHours)
  }

  function Bit(b: bool): nat {
    if b then 1 else 0
  }

  /** The number of detail lines an entry gets, among hours, mileage, gas, other and notes. */
  function DetailCount(e: Entry): nat {
    Bit(HasHours(e)) + Bit(Truthy(e.form.mileage)) + Bit(Truthy(e.form.gasExpense)) +
    Bit(Truthy(e.form.otherExpense)) + Bit(Truthy(e.form.notes))
  }

  /** The cursor an entry's block starts at: the margin of a new page, or where it stands. */
  function BlockTop(y: int, pageHeight: int): int {
    if y > pageHeight - BreakGap then Margin else y
  }

  /** The drawing so far and the cursor. */
  type Pen = (seq<Item>, int)

  /** A detail line drawn when `present`, at the cursor, which then moves down by 6. */
  function Emit(p: Pen, present: bool, t: Text): Pen {
    if present then (p.0 + [Line(p.1, t)], p.1 + 6) else p
  }

  /** The other-expense line, with its description beside it on the same line. */
  function EmitOther(parse: Parser, p: Pen, f: EntryForm): Pen {
    if !Truthy(f.otherExpense) then p
    else if Truthy(f.expenseDescription) then
      (p.0 + [Line(p.1, OtherLine(parse(f.otherExpense)))] + [Line(p.1, ExpenseDescription(f.expenseDescription))], p.1 + 6)
    else (p.0 + [Line(p.1, OtherLine(parse(f.otherExpense)))], p.1 + 6)
  }

  /** The date line of a block, after the page break if there is one. */
  function BlockStart(e: Entry, y0: int, pageHeight: int): Pen {
    var top := BlockTop(y0, pageHeight);
    var brk := if y0 > pageHeight - BreakGap then [AddPage] else [];
    (brk + [Line(top + 3, EntryDate(e.form.date))], top + 10)
  }

  /** The detail lines of one entry, drawn from pen `p` in the order the source checks them. */
  function Details(parse: Parser, e: Entry, p: Pen): Pen {
    var f := e.form;
    var p2 := Emit(p, HasHours(e), HoursLine(OrZero(f.standardHours), OrZero(f.overtimeHours)));
    var p3 := Emit(p2, Truthy(f.mileage), MileageLine(f.mileage));
    var p4 := Emit(p3, Truthy(f.gasExpense), GasLine(parse(f.gasExpense)));
    var p5 := EmitOther(parse, p4, f);
    Emit(p5, Truthy(f.notes), NotesLine(TruncateNotes(f.notes)))
  }

  /** The lines drawn for one entry, starting from cursor `y0`, and the cursor after it. */
  function EntryBlock(parse: Parser, e: Entry, y0: int, pageHeight: int): Pen {
    var p := Details(parse, e, BlockStart(e, y0, pageHeight));
    (p.0, p.1 + 8)
  }

  /** The `forEach` over the sorted entries: the blocks one after another. */
  function Layout(parse: Parser, es: seq<Entry>, y0: int, pageHeight: int): (seq<Item>, int)
    decreases |es|
  {
    if es == [] then ([], y0)
    else
      var (prev, y) := Layout(parse, es[..|es| - 1], y0, pageHeight);
      var (block, y') := EntryBlock(parse, es[|es| - 1], y, pageHeight);
      (prev + block, y')
  }

  /** The loop over the entries with its mutable cursor, as `generatePDF` runs it. */
  method LayoutEntries(parse: Parser, es: seq<Entry>, y0: int, pageHeight: int) returns (items: seq<Item>, y: int)
    ensures (items, y) == Layout(parse, es, y0, pageHeight)
  {
    items, y := [], y0;
    var i := 0;
    while i < |es|
      invariant 0 <= i <= |es|
      invariant (items, y) == Layout(parse, es[..i], y0, pageHeight)
    {
      assert es[..i + 1][..i] == es[..i];
      var block;
      block, y := DrawEntry(parse, es[i], y, pageHeight);
      items := items + block;
      i := i + 1;
    }
    assert es[..|es|] == es;
  }

  /** The body of the `forEach`: draws one entry and moves the cursor past it. */
  method DrawEntry(parse: Parser, e: Entry, y0: int, pageHeight: int) returns (items: seq<Item>, y: int)
    ensures (items, y) == EntryBlock(parse, e, y0, pageHeight)
  {
    items, y := [], y0;
    if y > pageHeight - BreakGap {
      items := items + [AddPage];
      y := Margin;
    }
    assert items == if y0 > pageHeight - BreakGap then [AddPage] else [];
    items := items + [Line(y + 3, EntryDate(e.form.date))];
    y := y + 10;
    items, y := DrawDetails(parse, e, items, y);
    y := y + 8;
  }

  /** The conditional detail lines of the loop body, each moving the cursor down by 6. */
  method DrawDetails(parse: Parser, e: Entry, items0: seq<Item>, y0: int) returns (items: seq<Item>, y: int)
    ensures (items, y) == Details(parse, e, (items0, y0))
  {
    ghost var f := e.form;
    items, y := items0, y0;
    if Truthy(e.form.standardHours) || Truthy(e.form.overtimeHours) {
      items := items + [Line(y, HoursLine(OrZero(e.form.standardHours), OrZero(e.form.overtimeHours)))];
      y := y + 6;
    }
    ghost var p := Emit((items0, y0), HasHours(e), HoursLine(OrZero(f.standardHours), OrZero(f.overtimeHours)));
    assert (items, y) == p;
    if Truthy(e.form.mileage) {
      items := items + [Line(y, MileageLine(e.form.mileage))];
      y := y + 6;
    }
    p := Emit(p, Truthy(f.mileage), MileageLine(f.mileage));
    assert (items, y) == p;
    if Truthy(e.form.gasExpense) {
      items := items + [Line(y, GasLine(parse(e.form.gasExpense)))];
      y := y + 6;
    }
    p := Emit(p, Truthy(f.gasExpense), GasLine(parse(f.gasExpense)));
    assert (items, y) == p;
    if Truthy(e.form.otherExpense) {
      items := items + [Line(y, OtherLine(parse(e.form.otherExpense)))];
      if Truthy(e.form.expenseDescription) {
        items := items + [Line(y, ExpenseDescription(e.form.expenseDescription))];
      }
      y := y + 6;
    }
    p := EmitOther(parse, p, f);
    assert (items, y) == p;
    if Truthy(e.form.notes) {
      items := items + [Line(y, NotesLine(TruncateNotes(e.form.notes)))];
      y := y + 6;
    }
  }

  /** The dates of the entry lines, in the order they are drawn. */
  function EntryDates(items: seq<Item>): seq<string>
    decreases |items|
  {
    if items == [] then [] else DateOf(items[0]) + EntryDates(items[1..])
  }

  function DateOf(item: Item): seq<string> {
    if item.Line? && item.text.EntryDate? then [item.text.date] else []
  }

  function DatesOf(es: seq<Entry>): seq<string>
    decreases |es|
  {
    if es == [] then [] else [es[0].form.date] + DatesOf(es[1..])
  }

  /** Every `addPage` is followed at once by an entry's date line. */
  ghost predicate BreaksBeforeEntries(items: seq<Item>) {
    forall i :: 0 <= i < |items| && items[i].AddPage? ==> DateLineAt(items, i + 1)
  }

  /** The item at index `j` is an entry's date line. */
  ghost predicate DateLineAt(items: seq<Item>, j: int) {
    0 <= j < |items| && items[j].Line? && items[j].text.EntryDate?
  }

  /** No text line is placed lower than `bottom`. */
  ghost predicate LinesAbove(items: seq<Item>, bottom: int) {
    forall i :: 0 <= i < |items| && items[i].Line? ==> items[i].y <= bottom
  }

  /** From index `from` on, only detail lines, placed between `lo` and `hi`. */
  ghost predicate DetailsFrom(items: seq<Item>, from: int, lo: int, hi: int) {
    forall i :: 0 <= i < |items| && from <= i ==> items[i].Line? && items[i].text.IsDetail() && lo <= items[i].y <= hi
  }

  lemma EmitKeeps(p: Pen, present: bool, t: Text, from: int, lo: int, hi: int)
    requires DetailsFrom(p.0, from, lo, hi) && lo <= p.1 <= hi && t.IsDetail()
    ensures var r := Emit(p, present, t);
      DetailsFrom(r.0, from, lo, hi) && r.1 == p.1 + 6 * Bit(present) && |p.0| <= |r.0| && (forall i :: 0 <= i < |p.0| ==> r.0[i] == p.0[i])
  {
  }

  lemma EmitOtherKeeps(parse: Parser, p: Pen, f: EntryForm, from: int, lo: int, hi: int)
    requires DetailsFrom(p.0, from, lo, hi) && lo <= p.1 <= hi
    ensures var r := EmitOther(parse, p, f);
      DetailsFrom(r.0, from, lo, hi) && r.1 == p.1 + 6 * Bit(Truthy(f.otherExpense)) && |p.0| <= |r.0| && (forall i :: 0 <= i < |p.0| ==> r.0[i] == p.0[i])
  {
  }

  /**
   * The detail lines only append to the drawing, lie within 24 below where they start,
   * and move the cursor down by 6 for each present line among hours, mileage, gas, other
   * and notes.
   */
  lemma DetailsShape(parse: Parser, e: Entry, p: Pen, from: int)
    requires DetailsFrom(p.0, from, p.1, p.1 + 24)
    ensures var r := Details(parse, e, p);
      && DetailsFrom(r.0, from, p.1, p.1 + 24) && r.1 == p.1 + 6 * DetailCount(e)
      && |p.0| <= |r.0| && (forall i :: 0 <= i < |p.0| ==> r.0[i] == p.0[i])
  {
    var f := e.form;
    var lo, hi := p.1, p.1 + 24;
    var p2 := Emit(p, HasHours(e), HoursLine(OrZero(f.standardHours), OrZero(f.overtimeHours)));
    EmitKeeps(p, HasHours(e), HoursLine(OrZero(f.standardHours), OrZero(f.overtimeHours)), from, lo, hi);
    var p3 := Emit(p2, Truthy(f.mileage), MileageLine(f.mileage));
    EmitKeeps(p2, Truthy(f.mileage), MileageLine(f.mileage), from, lo, hi);
    var p4 := Emit(p3, Truthy(f.gasExpense), GasLine(parse(f.gasExpense)));
    EmitKeeps(p3, Truthy(f.gasExpense), GasLine(parse(f.gasExpense)), from, lo, hi);
    var p5 := EmitOther(parse, p4, f);
    EmitOtherKeeps(parse, p4, f, from, lo, hi);
    EmitKeeps(p5, Truthy(f.notes), NotesLine(TruncateNotes(f.notes)), from, lo, hi);
  }

  /**
   * The shape of one entry's block. The page-break check runs once, first: a page is added
   * exactly when the cursor is below `pageHeight - 40`, and the block then starts at the
   * margin. The date line follows, 3 below the block's top; after it come only detail
   * lines, between 10 and 34 below the top.
   */
  lemma EntryBlockShape(parse: Parser, e: Entry, y0: int, pageHeight: int)
    ensures var items, top, k := EntryBlock(parse, e, y0, pageHeight).0, BlockTop(y0, pageHeight), Bit(y0 > pageHeight - BreakGap);
      && k < |items|
      && (items[0].AddPage? <==> y0 > pageHeight - BreakGap)
      && items[k] == Line(top + 3, EntryDate(e.form.date))
      && DetailsFrom(items, k + 1, top + 10, top + 34)
  {
    var p1 := BlockStart(e, y0, pageHeight);
    DetailsShape(parse, e, p1, |p1.0|);
  }

  /**
   * The cursor ends 10 + 6 k + 8 below the block's top, where k counts the present lines
   * among hours, mileage, gas, other and notes.
   */
  lemma EntryBlockAdvance(parse: Parser, e: Entry, y0: int, pageHeight: int)
    ensures EntryBlock(parse, e, y0, pageHeight).1 == BlockTop(y0, pageHeight) + 10 + 6 * DetailCount(e) + 8
  {
    var p1 := BlockStart(e, y0, pageHeight);
    DetailsShape(parse, e, p1, |p1.0|);
  }

  /** A block adds a page only in front of its date line. */
  lemma EntryBlockBreaks(parse: Parser, e: Entry, y0: int, pageHeight: int)
    ensures BreaksBeforeEntries(EntryBlock(parse, e, y0, pageHeight).0)
  {
    var items, k := EntryBlock(parse, e, y0, pageHeight).0, Bit(y0 > pageHeight - BreakGap);
    EntryBlockShape(parse, e, y0, pageHeight);
    forall i | 0 <= i < |items| && items[i].AddPage?
      ensures DateLineAt(items, i + 1)
    {
      assert i == 0 && k == 1;
    }
  }

  /** Every line of a block lies between 3 and 34 below the block's top. */
  lemma EntryBlockExtent(parse: Parser, e: Entry, y0: int, pageHeight: int)
    ensures var items, top := EntryBlock(parse, e, y0, pageHeight).0, BlockTop(y0, pageHeight);
      forall i :: 0 <= i < |items| && items[i].Line? ==> top + 3 <= items[i].y <= top + 34
  {
    EntryBlockShape(parse, e, y0, pageHeight);
  }

  lemma {:induction false} EntryDatesConcat(a: seq<Item>, b: seq<Item>)
    ensures EntryDates(a + b) == EntryDates(a) + EntryDates(b)
    decreases |a|
  {
    ConcatFront(a, b);
    if a != [] {
      EntryDatesConcat(a[1..], b);
    }
  }

  lemma {:induction false} DatesOfSnoc(es: seq<Entry>, e: Entry)
    ensures DatesOf(es + [e]) == DatesOf(es) + [e.form.date]
    decreases |es|
  {
    ConcatFront(es, [e]);
    if es != [] {
      DatesOfSnoc(es[1..], e);
    }
  }

  lemma EmitDates(p: Pen, present: bool, t: Text)
    requires !t.EntryDate?
    ensures EntryDates(Emit(p, present, t).0) == EntryDates(p.0)
  {
    EntryDatesConcat(p.0, [Line(p.1, t)]);
  }

  lemma EmitOtherDates(parse: Parser, p: Pen, f: EntryForm)
    ensures EntryDates(EmitOther(parse, p, f).0) == EntryDates(p.0)
  {
    var other := [Line(p.1, OtherLine(parse(f.otherExpense)))];
    var description := [Line(p.1, ExpenseDescription(f.expenseDescription))];
    EntryDatesConcat(p.0, other);
    EntryDatesConcat(p.0 + other, description);
  }

  /** The detail lines show no date. */
  lemma DetailsDates(parse: Parser, e: Entry, p: Pen)
    ensures EntryDates(Details(parse, e, p).0) == EntryDates(p.0)
  {
    var f := e.form;
    var p2 := Emit(p, HasHours(e), HoursLine(OrZero(f.standardHours), OrZero(f.overtimeHours)));
    EmitDates(p, HasHours(e), HoursLine(OrZero(f.standardHours), OrZero(f.overtimeHours)));
    var p3 := Emit(p2, Truthy(f.mileage), MileageLine(f.mileage));
    EmitDates(p2, Truthy(f.mileage), MileageLine(f.mileage));
    var p4 := Emit(p3, Truthy(f.gasExpense), GasLine(parse(f.gasExpense)));
    EmitDates(p3, Truthy(f.gasExpense), GasLine(parse(f.gasExpense)));
    var p5 := EmitOther(parse, p4, f);
    EmitOtherDates(parse, p4, f);
    EmitDates(p5, Truthy(f.notes), NotesLine(TruncateNotes(f.notes)));
  }

  /** A block shows exactly one date, its entry's. */
  lemma EntryBlockDates(parse: Parser, e: Entry, y0: int, pageHeight: int)
    ensures EntryDates(EntryBlock(parse, e, y0, pageHeight).0) == [e.form.date]
  {
    DetailsDates(parse, e, BlockStart(e, y0, pageHeight));
    var brk := if y0 > pageHeight - BreakGap then [AddPage] else [];
    EntryDatesConcat(brk, [Line(BlockTop(y0, pageHeight) + 3, EntryDate(e.form.date))]);
    NoDates(brk);
  }

  lemma {:induction false} NoDates(items: seq<Item>)
    requires forall i :: 0 <= i < |items| ==> !(items[i].Line? && items[i].text.EntryDate?)
    ensures EntryDates(items) == []
    decreases |items|
  {
    if items != [] {
      NoDates(items[1..]);
    }
  }

  /** The report draws one date line per entry, in the order of the entries. */
  lemma {:induction false} LayoutDates(parse: Parser, es: seq<Entry>, y0: int, pageHeight: int)
    ensures EntryDates(Layout(parse, es, y0, pageHeight).0) == DatesOf(es)
    decreases |es|
  {
    if es != [] {
      var init, last := es[..|es| - 1], es[|es| - 1];
      SplitLast(es);
      var (prev, y) := Layout(parse, init, y0, pageHeight);
      LayoutDates(parse, init, y0, pageHeight);
      EntryBlockDates(parse, last, y, pageHeight);
      EntryDatesConcat(prev, EntryBlock(parse, last, y, pageHeight).0);
      DatesOfSnoc(init, last);
    }
  }

  /** Pages are added only in front of an entry: each `addPage` is followed by a date line. */
  lemma {:induction false} LayoutPageBreaks(parse: Parser, es: seq<Entry>, y0: int, pageHeight: int)
    ensures BreaksBeforeEntries(Layout(parse, es, y0, pageHeight).0)
    decreases |es|
  {
    if es != [] {
      var init, last := es[..|es| - 1], es[|es| - 1];
      var (prev, y) := Layout(parse, init, y0, pageHeight);
      LayoutPageBreaks(parse, init, y0, pageHeight);
      EntryBlockBreaks(parse, last, y, pageHeight);
      BreaksConcat(prev, EntryBlock(parse, last, y, pageHeight).0);
    }
  }

  lemma BreaksConcat(a: seq<Item>, b: seq<Item>)
    requires BreaksBeforeEntries(a) && BreaksBeforeEntries(b)
    ensures BreaksBeforeEntries(a + b)
  {
    forall i | 0 <= i < |a + b| && (a + b)[i].AddPage?
      ensures DateLineAt(a + b, i + 1)
    {
      if i < |a| {
        assert (a + b)[i] == a[i];
        assert DateLineAt(a, i + 1);
        assert (a + b)[i + 1] == a[i + 1];
      } else {
        assert (a + b)[i] == b[i - |a|];
        assert DateLineAt(b, i + 1 - |a|);
        assert (a + b)[i + 1] == b[i + 1 - |a|];
      }
    }
  }

  /**
   * On a page at least 60 high, no entry line is drawn lower than 6 above the page's
   * bottom: a block starts at most 40 above it and its lines lie within 34 of its top.
   */
  lemma {:induction false} LayoutOnPage(parse: Parser, es: seq<Entry>, y0: int, pageHeight: int)
    requires pageHeight >= Margin + BreakGap
    ensures LinesAbove(Layout(parse, es, y0, pageHeight).0, pageHeight - 6)
    decreases |es|
  {
    if es != [] {
      var init, last := es[..|es| - 1], es[|es| - 1];
      var (prev, y) := Layout(parse, init, y0, pageHeight);
      LayoutOnPage(parse, init, y0, pageHeight);
      EntryBlockExtent(parse, last, y, pageHeight);
      LinesAboveConcat(prev, EntryBlock(parse, last, y, pageHeight).0, pageHeight - 6);
    }
  }

  lemma LinesAboveConcat(a: seq<Item>, b: seq<Item>, bottom: int)
    requires LinesAbove(a, bottom) && LinesAbove(b, bottom)
    ensures LinesAbove(a + b, bottom)
  {
    forall i | 0 <= i < |a + b| && (a + b)[i].Line?
      ensures (a + b)[i].y <= bottom
    {
      if i < |a| {
        assert (a + b)[i] == a[i];
      } else {
        assert (a + b)[i] == b[i - |a|];
      }
    }
  }

  /** `contractorInfo[k]`, with a missing key read as the falsy empty string. */
  function InfoField(info: map<string, string>, k: string): string {
    if k in info then info[k] else ""
  }

  /** The contractor block, drawn from 60 down when a name or a business is filled in. */
  function InfoBlock(info: map<string, string>): (seq<Item>, int) {
    var name, business := InfoField(info, "name"), InfoField(info, "business");
    if !(Truthy(name) || Truthy(business)) then ([], 60)
    else
      var nameLine := if Truthy(name) then [Line(68, NameLine(name))] else [];
      var y := 68 + (if Truthy(name) then 6 else 0);
      var businessLine := if Truthy(business) then [Line(y, BusinessLine(business))] else [];
      ([Line(60, InfoHeading)] + nameLine + businessLine, y + (if Truthy(business) then 6 else 0) + 5)
  }

  /** The text of the `k`-th amount line of the summary. */
  function AmountText(k: nat, amount: real): Text {
    if k == 0 then TotalStandardHours(amount)
    else if k == 1 then TotalOvertimeHours(amount)
    else if k == 2 then TotalMileage(amount)
    else if k == 3 then TotalGasExpense(amount)
    else if k == 4 then TotalOtherExpenses(amount)
    else TotalExpensesLine(amount)
  }

  /** The amount lines of the summary from the `k`-th on, 7 apart, starting at `y`. */
  function AmountLines(y: int, amounts: seq<real>, k: nat): seq<Item>
    decreases |amounts|
  {
    if amounts == [] then []
    else [Line(y, AmountText(k, amounts[0]))] + AmountLines(y + 7, amounts[1..], k + 1)
  }

  /** The summary's amounts, in the order the report shows them. */
  function SummaryAmounts(t: Totals): seq<real> {
    [t.standardHours, t.overtimeHours, t.mileage, t.gasExpense, t.otherExpense, TotalExpenses(t)]
  }

  /**
   * The summary from cursor `y`: its heading, the six amounts from 15 below `y`, then
   * the entries heading 15 below the last amount.
   */
  function SummaryBlock(y: int, t: Totals): (seq<Item>, int) {
    var s := y + 15;
    ([Line(y + 5, SummaryHeading)] + AmountLines(s, SummaryAmounts(t), 0) + [Line(s + 50, EntriesHeading)], s + 60)
  }

  /** The title lines, the contractor block and the summary, and the cursor after them. */
  function Header(info: map<string, string>, t: Totals): (seq<Item>, int) {
    var (infoLines, y) := InfoBlock(info);
    var (summary, y') := SummaryBlock(y, t);
    ([Line(25, Title), Line(35, GeneratedOn)] + infoLines + summary, y')
  }

  /**
   * The entries start at 135 when neither a name nor a business is filled in, and
   * otherwise at 148 plus 6 for each of the two that is filled in: 154 or 160.
   */
  lemma HeaderCursor(info: map<string, string>, t: Totals)
    ensures var name, business := Truthy(InfoField(info, "name")), Truthy(InfoField(info, "business"));
      && (!(name || business) ==> Header(info, t).1 == 135)
      && (name || business ==> Header(info, t).1 == 148 + 6 * Bit(name) + 6 * Bit(business))
  {
  }

  /**
   * The whole report: the summary of the entries as given, then the entries sorted by
   * date, with the cursor carried on from the summary.
   */
  function ReportOf(parse: Parser, entries: seq<Entry>, info: map<string, string>, pageHeight: int): seq<Item> {
    var header := Header(info, TotalsOf(parse, entries));
    header.0 + Layout(parse, SortByDate(entries), header.1, pageHeight).0
  }

  /**
   * `generatePDF(entries, contractorInfo)`: folds the totals, lays out the header and
   * summary, sorts the array it was given in place, then lays out the entries.
   */
  method GenerateReport(parse: Parser, a: array<Entry>, info: map<string, string>, pageHeight: int) returns (items: seq<Item>)
    modifies a
    ensures a[..] == SortByDate(old(a[..]))
    ensures items == ReportOf(parse, old(a[..]), info, pageHeight)
  {
    var totals := TotalsOf(parse, a[..]);
    var head, y := Header(info, totals).0, Header(info, totals).1;
    SortInPlace(a, EntryLe);
    var details, end := LayoutEntries(parse, a[..], y, pageHeight);
    items := head + details;
  }

  /** The amounts shown by the summary lines, in the order they are drawn. */
  function Amounts(items: seq<Item>): seq<real>
    decreases |items|
  {
    if items == [] then [] else AmountOf(items[0]) + Amounts(items[1..])
  }

  function AmountOf(item: Item): seq<real> {
    if item.Line? && item.text.IsAmount() then [item.text.amount] else []
  }

  lemma {:induction false} AmountsConcat(a: seq<Item>, b: seq<Item>)
    ensures Amounts(a + b) == Amounts(a) + Amounts(b)
    decreases |a|
  {
    ConcatFront(a, b);
    if a != [] {
      AmountsConcat(a[1..], b);
    }
  }

  lemma {:induction false} NoAmounts(items: seq<Item>)
    requires forall i :: 0 <= i < |items| && items[i].Line? ==> !items[i].text.IsAmount()
    ensures Amounts(items) == []
    decreases |items|
  {
    if items != [] {
      NoAmounts(items[1..]);
    }
  }

  /** The lines of an entry's block: its date and its details, nothing of the summary. */
  ghost predicate EntryLines(items: seq<Item>) {
    forall i :: 0 <= i < |items| && items[i].Line? ==> items[i].text.EntryDate? || items[i].text.IsDetail()
  }

  lemma {:induction false} LayoutLines(parse: Parser, es: seq<Entry>, y0: int, pageHeight: int)
    ensures EntryLines(Layout(parse, es, y0, pageHeight).0)
    decreases |es|
  {
    if es != [] {
      var init, last := es[..|es| - 1], es[|es| - 1];
      var (prev, y) := Layout(parse, init, y0, pageHeight);
      LayoutLines(parse, init, y0, pageHeight);
      EntryBlockShape(parse, last, y, pageHeight);
      EntryLinesConcat(prev, EntryBlock(parse, last, y, pageHeight).0);
    }
  }

  lemma EntryLinesConcat(a: seq<Item>, b: seq<Item>)
    requires EntryLines(a) && EntryLines(b)
    ensures EntryLines(a + b)
  {
    forall i | 0 <= i < |a + b| && (a + b)[i].Line?
      ensures (a + b)[i].text.EntryDate? || (a + b)[i].text.IsDetail()
    {
      if i < |a| {
        assert (a + b)[i] == a[i];
      } else {
        assert (a + b)[i] == b[i - |a|];
      }
    }
  }

  /** Items that are all text lines, with no page break among them. */
  ghost predicate AllLines(items: seq<Item>) {
    forall i :: 0 <= i < |items| ==> items[i].Line?
  }

  lemma AllLinesConcat(a: seq<Item>, b: seq<Item>)
    requires AllLines(a) && AllLines(b)
    ensures AllLines(a + b)
  {
    forall i | 0 <= i < |a + b|
      ensures (a + b)[i].Line?
    {
      if i < |a| {
        assert (a + b)[i] == a[i];
      } else {
        assert (a + b)[i] == b[i - |a|];
      }
    }
  }

  /** The entries' blocks show no summary amount. */
  lemma LayoutNoAmounts(parse: Parser, es: seq<Entry>, y0: int, pageHeight: int)
    ensures Amounts(Layout(parse, es, y0, pageHeight).0) == []
  {
    LayoutLines(parse, es, y0, pageHeight);
    EntryLinesNoAmounts(Layout(parse, es, y0, pageHeight).0);
  }

  lemma EntryLinesNoAmounts(items: seq<Item>)
    requires EntryLines(items)
    ensures Amounts(items) == []
  {
    forall i | 0 <= i < |items| && items[i].Line?
      ensures !items[i].text.IsAmount()
    {
      assert items[i].text.EntryDate? || items[i].text.IsDetail();
    }
    NoAmounts(items);
  }

  /** Amount lines show their amounts, in order, and no entry date. */
  lemma {:induction false} AmountLinesShown(y: int, amounts: seq<real>, k: nat)
    ensures Amounts(AmountLines(y, amounts, k)) == amounts
    ensures EntryDates(AmountLines(y, amounts, k)) == []
    decreases |amounts|
  {
    if amounts != [] {
      var x, rest := Line(y, AmountText(k, amounts[0])), AmountLines(y + 7, amounts[1..], k + 1);
      AmountLinesShown(y + 7, amounts[1..], k + 1);
      AmountsConcat([x], rest);
      EntryDatesConcat([x], rest);
      SplitFirst(amounts);
    }
  }

  /** Amount lines are text lines only. */
  lemma {:induction false} AmountLinesAreLines(y: int, amounts: seq<real>, k: nat)
    ensures AllLines(AmountLines(y, amounts, k))
    decreases |amounts|
  {
    if amounts != [] {
      AmountLinesAreLines(y + 7, amounts[1..], k + 1);
      AllLinesConcat([Line(y, AmountText(k, amounts[0]))], AmountLines(y + 7, amounts[1..], k + 1));
    }
  }

  /** The summary shows the six amounts once each, in order, and no entry date. */
  lemma SummaryContents(y: int, t: Totals)
    ensures Amounts(SummaryBlock(y, t).0) == SummaryAmounts(t)
    ensures EntryDates(SummaryBlock(y, t).0) == []
  {
    var s := y + 15;
    var h, lines, e := [Line(y + 5, SummaryHeading)], AmountLines(s, SummaryAmounts(t), 0), [Line(s + 50, EntriesHeading)];
    AmountLinesShown(s, SummaryAmounts(t), 0);
    AmountsConcat(h, lines);
    AmountsConcat(h + lines, e);
    EntryDatesConcat(h, lines);
    EntryDatesConcat(h + lines, e);
  }

  /** The summary is made of text lines only. */
  lemma SummaryLines(y: int, t: Totals)
    ensures AllLines(SummaryBlock(y, t).0)
  {
    var s := y + 15;
    var h, lines, e := [Line(y + 5, SummaryHeading)], AmountLines(s, SummaryAmounts(t), 0), [Line(s + 50, EntriesHeading)];
    AmountLinesAreLines(s, SummaryAmounts(t), 0);
    AllLinesConcat(h, lines);
    AllLinesConcat(h + lines, e);
  }

  lemma HeaderContents(info: map<string, string>, t: Totals)
    ensures Amounts(Header(info, t).0) == SummaryAmounts(t)
    ensures EntryDates(Header(info, t).0) == []
  {
    var (infoLines, y) := InfoBlock(info);
    var pre := [Line(25, Title), Line(35, GeneratedOn)] + infoLines;
    var summary := SummaryBlock(y, t).0;
    SummaryContents(y, t);
    InfoPlain(info);
    NoAmounts(pre);
    NoDates(pre);
    AmountsConcat(pre, summary);
    EntryDatesConcat(pre, summary);
    assert Header(info, t).0 == pre + summary;
  }

  /** The header holds text lines only, so no page is added in it. */
  lemma HeaderLines(info: map<string, string>, t: Totals)
    ensures AllLines(Header(info, t).0)
  {
    var (infoLines, y) := InfoBlock(info);
    var pre := [Line(25, Title), Line(35, GeneratedOn)] + infoLines;
    SummaryLines(y, t);
    InfoPlain(info);
    AllLinesConcat(pre, SummaryBlock(y, t).0);
    assert Header(info, t).0 == pre + SummaryBlock(y, t).0;
  }

  /** Lines that show neither an amount nor an entry's date. */
  ghost predicate Plain(items: seq<Item>) {
    forall i :: 0 <= i < |items| ==> items[i].Line? && !items[i].text.IsAmount() && !items[i].text.EntryDate?
  }

  /** The title and the contractor block show neither amounts nor entry dates. */
  lemma InfoPlain(info: map<string, string>)
    ensures Plain([Line(25, Title), Line(35, GeneratedOn)] + InfoBlock(info).0)
  {
  }

  /**
   * The report's summary shows the totals of the entries it was given: the same fold that
   * the dashboard shows, and gas plus other expense as the total of expenses.
   */
  lemma ReportSummary(parse: Parser, entries: seq<Entry>, info: map<string, string>, pageHeight: int)
    ensures Amounts(ReportOf(parse, entries, info, pageHeight)) == SummaryAmounts(TotalsOf(parse, entries))
  {
    var head, y := Header(info, TotalsOf(parse, entries)).0, Header(info, TotalsOf(parse, entries)).1;
    var body := Layout(parse, SortByDate(entries), y, pageHeight).0;
    HeaderContents(info, TotalsOf(parse, entries));
    LayoutNoAmounts(parse, SortByDate(entries), y, pageHeight);
    AmountsConcat(head, body);
  }

  /** Sorting the entries for the report does not change their totals. */
  lemma SortKeepsTotals(parse: Parser, entries: seq<Entry>)
    ensures TotalsOf(parse, SortByDate(entries)) == TotalsOf(parse, entries)
  {
    SortByDateCorrect(entries);
    TotalsPermutation(parse, SortByDate(entries), entries);
  }

  /**
   * The report lists one date line per entry, in the order `SortByDate` gives, which
   * holds every entry once, ascending by date (`SortByDateCorrect`).
   */
  lemma ReportEntries(parse: Parser, entries: seq<Entry>, info: map<string, string>, pageHeight: int)
    ensures EntryDates(ReportOf(parse, entries, info, pageHeight)) == DatesOf(SortByDate(entries))
  {
    var head, y := Header(info, TotalsOf(parse, entries)).0, Header(info, TotalsOf(parse, entries)).1;
    var body := Layout(parse, SortByDate(entries), y, pageHeight).0;
    HeaderContents(info, TotalsOf(parse, entries));
    LayoutDates(parse, SortByDate(entries), y, pageHeight);
    EntryDatesConcat(head, body);
  }

  /** The report adds pages only in front of an entry, never in the header. */
  lemma ReportPageBreaks(parse: Parser, entries: seq<Entry>, info: map<string, string>, pageHeight: int)
    ensures BreaksBeforeEntries(ReportOf(parse, entries, info, pageHeight))
  {
    var head, y := Header(info, TotalsOf(parse, entries)).0, Header(info, TotalsOf(parse, entries)).1;
    HeaderLines(info, TotalsOf(parse, entries));
    assert BreaksBeforeEntries(head);
    LayoutPageBreaks(parse, SortByDate(entries), y, pageHeight);
    BreaksConcat(head, Layout(parse, SortByDate(entries), y, pageHeight).0);
  }
}
