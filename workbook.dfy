/**
 * The part of a spreadsheet document the exporter writes to: one worksheet
 * whose cells hold a value, the flat content style, a number-format code and
 * a centred alignment; the document properties; the sheet title; and the
 * per-column auto-size flags and fixed widths.
 *
 * Every cell write is an `Op`. `Run` replays a list of them over the cell
 * map, so an exporter operation can be specified by the list of writes it
 * performs, including the writes done before it stopped with an error.
 */
module Workbook {
  import opened Wrappers

  /** A cell coordinate such as "B7": column letters and a row number. */
  datatype Address = Address(column: string, row: int)

  /** What setCellValue stores: the text given, or a number. */
  datatype CellValue = Text(text: string) | Number(number: real)

  datatype Cell = Cell(value: Option<CellValue>, contentStyle: bool, format: Option<string>, centered: bool)

  /** A cell nothing has been written to. */
  const Blank := Cell(None, false, None, false)

  /** One write to one cell. */
  datatype Op =
    | SetValue(at: Address, v: CellValue)
    | ApplyContentStyle(at: Address)
    | SetFormatCode(at: Address, code: string)
    | Center(at: Address)

  type Cells = map<Address, Cell>

  function Get(cells: Cells, a: Address): Cell {
    if a in cells then cells[a] else Blank
  }

  /** The effect of one write on the cell it addresses. */
  function ApplyToCell(c: Cell, op: Op): Cell {
    match op
    case SetValue(_, v) => c.(value := Some(v))
    case ApplyContentStyle(_) => c.(contentStyle := true)
    case SetFormatCode(_, code) => c.(format := Some(code))
    case Center(_) => c.(centered := true)
  }

  /** One write: only the addressed cell changes. */
  function Step(cells: Cells, op: Op): (r: Cells)
  {
    cells[op.at := ApplyToCell(Get(cells, op.at), op)]
  }

  /** The cell map after the writes `ops`, in order. */
  function Run(cells: Cells, ops: seq<Op>): Cells
    decreases |ops|
  {
    if ops == [] then cells else Step(Run(cells, ops[..|ops| - 1]), ops[|ops| - 1])
  }

  /** One cell after the writes `ops`: only the writes that address `a` count, in order. */
  function CellAfter(c: Cell, ops: seq<Op>, a: Address): Cell
    decreases |ops|
  {
    if ops == [] then c
    else
      var before := CellAfter(c, ops[..|ops| - 1], a);
      if ops[|ops| - 1].at == a then ApplyToCell(before, ops[|ops| - 1]) else before
  }

  lemma StepGet(cells: Cells, op: Op, a: Address)
    ensures Get(Step(cells, op), a) == if a == op.at then ApplyToCell(Get(cells, op.at), op) else Get(cells, a)
  {
  }

  /** Replaying writes over the map agrees with replaying them cell by cell. */
  lemma {:induction false} RunAt(cells: Cells, ops: seq<Op>, a: Address)
    ensures Get(Run(cells, ops), a) == CellAfter(Get(cells, a), ops, a)
    decreases |ops|
  {
    if ops != [] {
      RunAt(cells, ops[..|ops| - 1], a);
      StepGet(Run(cells, ops[..|ops| - 1]), ops[|ops| - 1], a);
    }
  }

  /** Replaying one more write. */
  lemma RunSnoc(cells: Cells, ops: seq<Op>, op: Op)
    ensures Run(cells, ops + [op]) == Step(Run(cells, ops), op)
  {
    assert (ops + [op])[..|ops|] == ops;
  }

  /** Replaying two batches of writes one after the other replays their concatenation. */
  lemma {:induction false} RunAppend(cells: Cells, p: seq<Op>, q: seq<Op>)
    ensures Run(cells, p + q) == Run(Run(cells, p), q)
    decreases |q|
  {
    if q == [] {
      assert p + q == p;
    } else {
      assert (p + q)[..|p + q| - 1] == p + q[..|q| - 1];
      RunAppend(cells, p, q[..|q| - 1]);
    }
  }

  /** One more write changes the cell only if it addresses it. */
  lemma CellAfterSnoc(c: Cell, ops: seq<Op>, op: Op, a: Address)
    ensures CellAfter(c, ops + [op], a) ==
      if op.at == a then ApplyToCell(CellAfter(c, ops, a), op) else CellAfter(c, ops, a)
  {
    assert (ops + [op])[..|ops|] == ops;
  }

  /** Two writes to the same cell, one after the other. */
  lemma CellAfterPair(c: Cell, op0: Op, op1: Op, a: Address)
    requires op0.at == a && op1.at == a
    ensures CellAfter(c, [op0, op1], a) == ApplyToCell(ApplyToCell(c, op0), op1)
  {
    assert [] + [op0] == [op0];
    assert [op0] + [op1] == [op0, op1];
    CellAfterSnoc(c, [], op0, a);
    CellAfterSnoc(c, [op0], op1, a);
  }

  /** A third write to the same cell after a pair. */
  lemma CellAfterPairThen(c: Cell, op0: Op, op1: Op, op2: Op, a: Address)
    requires op0.at == a && op1.at == a && op2.at == a
    ensures CellAfter(c, [op0, op1] + [op2], a) == ApplyToCell(ApplyToCell(ApplyToCell(c, op0), op1), op2)
  {
    CellAfterSnoc(c, [op0, op1], op2, a);
    CellAfterPair(c, op0, op1, a);
  }

  /** Writes done in two batches end where they end when done in one. */
  lemma {:induction false} CellAfterAppend(c: Cell, p: seq<Op>, q: seq<Op>, a: Address)
    ensures CellAfter(c, p + q, a) == CellAfter(CellAfter(c, p, a), q, a)
    decreases |q|
  {
    if q == [] {
      assert p + q == p;
    } else {
      assert (p + q)[..|p + q| - 1] == p + q[..|q| - 1];
      CellAfterAppend(c, p, q[..|q| - 1], a);
    }
  }

  /** Writes that address other cells leave a cell as it was. */
  lemma {:induction false} CellAfterUntouched(c: Cell, ops: seq<Op>, a: Address)
    requires forall j :: 0 <= j < |ops| ==> ops[j].at != a
    ensures CellAfter(c, ops, a) == c
    decreases |ops|
  {
    if ops != [] {
      CellAfterUntouched(c, ops[..|ops| - 1], a);
    }
  }

  /** Of writes split in two, only the first part matters to a cell the second part does not address. */
  lemma CellAfterPrefix(c: Cell, ops: seq<Op>, p: seq<Op>, q: seq<Op>, a: Address)
    requires ops == p + q
    requires forall j :: 0 <= j < |q| ==> q[j].at != a
    ensures CellAfter(c, ops, a) == CellAfter(c, p, a)
  {
    CellAfterAppend(c, p, q, a);
    CellAfterUntouched(CellAfter(c, p, a), q, a);
  }

  /** Of writes split in two, only the second part matters to a cell the first part does not address. */
  lemma CellAfterSuffix(c: Cell, ops: seq<Op>, p: seq<Op>, q: seq<Op>, a: Address)
    requires ops == p + q
    requires forall j :: 0 <= j < |p| ==> p[j].at != a
    ensures CellAfter(c, ops, a) == CellAfter(c, q, a)
  {
    CellAfterAppend(c, p, q, a);
    CellAfterUntouched(c, p, a);
  }

  /** A cell addressed by exactly one write holds that write's effect. */
  lemma CellAfterOnly(c: Cell, ops: seq<Op>, i: nat, a: Address)
    requires i < |ops| && ops[i].at == a
    requires forall j :: 0 <= j < |ops| && j != i ==> ops[j].at != a
    ensures CellAfter(c, ops, a) == ApplyToCell(c, ops[i])
  {
    var p, q := ops[..i], ops[i + 1..];
    assert ops == p + [ops[i]] + q;
    CellAfterAppend(c, p + [ops[i]], q, a);
    CellAfterAppend(c, p, [ops[i]], a);
    assert forall j :: 0 <= j < |p| ==> p[j] == ops[j];
    assert forall j :: 0 <= j < |q| ==> q[j] == ops[i + 1 + j];
    CellAfterUntouched(c, p, a);
    CellAfterUntouched(ApplyToCell(c, ops[i]), q, a);
  }

  /**
   * When every write of `ops` is a number-format write with the one code
   * `code` and one of them addresses `a`, the cell ends with that code,
   * whatever it held.
   */
  lemma {:induction false} FormatsTo(c: Cell, ops: seq<Op>, a: Address, code: string, i: nat)
    requires forall j :: 0 <= j < |ops| ==> ops[j] == SetFormatCode(ops[j].at, code)
    requires i < |ops| && ops[i].at == a
    ensures CellAfter(c, ops, a).format == Some(code)
    decreases |ops|
  {
    var last := ops[|ops| - 1];
    if last.at != a {
      assert i < |ops| - 1;
      assert ops[..|ops| - 1][i] == ops[i];
      FormatsTo(c, ops[..|ops| - 1], a, code, i);
    }
  }

  /** Style writes (alignment, number format) leave a cell's value and content style alone. */
  lemma {:induction false} StylesKeepValue(c: Cell, ops: seq<Op>, a: Address)
    requires forall j :: 0 <= j < |ops| ==> ops[j].SetFormatCode? || ops[j].Center?
    ensures var r := CellAfter(c, ops, a); r.value == c.value && r.contentStyle == c.contentStyle
    decreases |ops|
  {
    if ops != [] {
      StylesKeepValue(c, ops[..|ops| - 1], a);
    }
  }

  /** Number-format writes leave a cell's alignment alone. */
  lemma {:induction false} FormatsKeepCentered(c: Cell, ops: seq<Op>, a: Address)
    requires forall j :: 0 <= j < |ops| ==> ops[j].SetFormatCode?
    ensures CellAfter(c, ops, a).centered == c.centered
    decreases |ops|
  {
    if ops != [] {
      FormatsKeepCentered(c, ops[..|ops| - 1], a);
    }
  }

  /** Once a write has centred a cell, later writes never undo it. */
  lemma {:induction false} CenteredStays(c: Cell, ops: seq<Op>, a: Address, i: nat)
    requires i < |ops| && ops[i] == Center(a)
    ensures CellAfter(c, ops, a).centered
    decreases |ops|
  {
    if i < |ops| - 1 {
      assert ops[..|ops| - 1][i] == ops[i];
      CenteredStays(c, ops[..|ops| - 1], a, i);
    }
  }

  /** strtoupper() on one character: only the ASCII letters a..z change. */
  function UpperChar(c: char): char {
    if 'a' <= c <= 'z' then (c as int - 32) as char else c
  }

  /** strtoupper(): how the library normalises the column of a coordinate before using it. */
  function Upper(s: string): string {
    seq(|s|, i requires 0 <= i < |s| => UpperChar(s[i]))
  }

  /** A column already in capitals is its own upper-case form, and upper-casing twice is upper-casing once. */
  lemma UpperFixes(s: string)
    ensures (forall i :: 0 <= i < |s| ==> 'A' <= s[i] <= 'Z') ==> Upper(s) == s
    ensures Upper(Upper(s)) == Upper(s)
  {
  }

  /** The cell styles applied over a block of rows of one column. */
  datatype RangeStyle = Centered | NumberFormat(code: string)

  function StyleOp(s: RangeStyle, a: Address): Op {
    match s
    case Centered => Center(a)
    case NumberFormat(code) => SetFormatCode(a, code)
  }

  /** The writes of getStyle("<column>1:<column><last>") with style `s`: rows 1..last, top to bottom. */
  function RangeOps(s: RangeStyle, column: string, last: int): (r: seq<Op>)
    ensures |r| == if last < 1 then 0 else last
    ensures forall j :: 0 <= j < |r| ==> r[j] == StyleOp(s, Address(column, j + 1))
    decreases last
  {
    if last < 1 then [] else RangeOps(s, column, last - 1) + [StyleOp(s, Address(column, last))]
  }

  /** The document properties written by the exporter, with the values a new document starts with. */
  datatype Properties = Properties(
    creator: string,
    lastModifiedBy: string,
    title: string,
    subject: string,
    description: string,
    keywords: string,
    category: string)

  const DefaultProperties := Properties("Unknown Creator", "Unknown Creator", "Untitled Spreadsheet", "", "", "", "")

  /** A new document has a single worksheet. */
  const SheetCount := 1

  /** setActiveSheetIndex(i) only succeeds for an existing sheet. */
  predicate ValidSheetIndex(index: int) {
    0 <= index < SheetCount
  }

  /** A sheet title has at most 31 characters and none of * : / \ ? [ ]. */
  predicate ValidSheetTitle(t: string) {
    |t| <= 31 && forall i :: 0 <= i < |t| ==> t[i] !in "*:/\\?[]"
  }

  /** The whole observable state of a document, as one value. */
  datatype Snapshot = Snapshot(
    cells: Cells,
    properties: Properties,
    title: string,
    autoSize: map<string, bool>,
    widths: map<string, real>)

  const NewSnapshot := Snapshot(map[], DefaultProperties, "Worksheet", map[], map[])

  class Workbook {
    var cells: Cells
    var properties: Properties
    var title: string
    var autoSize: map<string, bool>
    var widths: map<string, real>

    function State(): Snapshot
      reads this
    {
      Snapshot(cells, properties, title, autoSize, widths)
    }

    /** A new, empty document with one sheet named "Worksheet". */
    constructor ()
      ensures State() == NewSnapshot
    {
      cells := map[];
      properties := DefaultProperties;
      title := "Worksheet";
      autoSize := map[];
      widths := map[];
    }

    /** Selecting sheet `index`: fails for any sheet but the first; the state is unchanged either way. */
    method SetActiveSheetIndex(index: int) returns (ok: bool)
      ensures ok <==> ValidSheetIndex(index)
    {
      ok := 0 <= index < SheetCount;
    }

    /** One cell write. */
    method Apply(op: Op)
      modifies this`cells
      ensures cells == Step(old(cells), op)
    {
      cells := cells[op.at := ApplyToCell(Get(cells, op.at), op)];
    }

    /** The writes `ops`, in order. */
    method ApplyAll(ops: seq<Op>)
      modifies this`cells
      ensures cells == Run(old(cells), ops)
    {
      for j := 0 to |ops|
        invariant cells == Run(old(cells), ops[..j])
      {
        RunSnoc(old(cells), ops[..j], ops[j]);
        assert ops[..j + 1] == ops[..j] + [ops[j]];
        Apply(ops[j]);
      }
      assert ops[..|ops|] == ops;
    }

    /** Applies style `s` to rows 1..last of `column`, the column taken in capitals as the library does. */
    method StyleRange(s: RangeStyle, column: string, last: int)
      modifies this`cells
      ensures cells == Run(old(cells), RangeOps(s, Upper(column), last))
    {
      var column := Upper(column);
      var row := 1;
      while row <= last
        invariant 1 <= row && (last < 1 ==> row == 1) && (last >= 1 ==> row <= last + 1)
        invariant cells == Run(old(cells), RangeOps(s, column, row - 1))
      {
        ghost var done := RangeOps(s, column, row - 1);
        var op := StyleOp(s, Address(column, row));
        assert RangeOps(s, column, row) == done + [op];
        assert (done + [op])[..|done + [op]| - 1] == done;
        Apply(op);
        row := row + 1;
      }
    }

    /** setTitle(t): refused, with the title kept, when `t` is not a valid sheet title. */
    method SetTitle(t: string) returns (ok: bool)
      modifies this`title
      ensures ok <==> ValidSheetTitle(t)
      ensures title == if ok then t else old(title)
    {
      ok := ValidSheetTitle(t);
      if ok {
        title := t;
      }
    }

    method SetProperties(p: Properties)
      modifies this`properties
      ensures properties == p
    {
      properties := p;
    }

    /** Sets the auto-size flag of a column, taken in capitals. */
    method SetAutoSize(column: string, on: bool)
      modifies this`autoSize
      ensures autoSize == old(autoSize)[Upper(column) := on]
    {
      autoSize := autoSize[Upper(column) := on];
    }

    /** Sets the width of a column, taken in capitals. */
    method SetWidth(column: string, width: real)
      modifies this`widths
      ensures widths == old(widths)[Upper(column) := width]
    {
      widths := widths[Upper(column) := width];
    }
  }
}
