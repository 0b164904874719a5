/**
 * The export builder: writes a header row, one row per record and a block
 * of totals into a new document, formats each written cell from the
 * pattern classifier's verdict, and then applies the column-level
 * overrides (centring, currency formats, fixed widths).
 *
 * Each step of the exporter is specified by a `Plan`: the result the step
 * returns and the list of cell writes it performs, in order, up to the
 * point where it stops. The methods of class `Exportador` perform those
 * writes on a `Workbook`; the lemmas below state what the writes leave in
 * the cells.
 */
module Exportador {
  import opened Wrappers
  import opened Php
  import opened Patterns
  import opened Workbook

  // ---------------------------------------------------------------------
  // The column table

  /** The capital letter number `i` of the alphabet, 'A' for 0. */
  function Letter(i: nat): (c: char)
    requires i < 26
    ensures 'A' <= c <= 'Z'
  {
    (65 + i) as char
  }

  /** The spreadsheet label of zero-based column `i`: A..Z, then AA, AB, ... */
  function ColumnLabel(i: nat): (r: string)
    ensures 1 <= |r| && (|r| == 1 <==> i < 26)
    decreases i
  {
    if i < 26 then [Letter(i)] else ColumnLabel(i / 26 - 1) + [Letter(i % 26)]
  }

  /** Different columns have different labels, and a label names one column. */
  lemma {:induction false} ColumnLabelInjective(i: nat, j: nat)
    ensures ColumnLabel(i) == ColumnLabel(j) <==> i == j
    decreases i
  {
    var a, b := ColumnLabel(i), ColumnLabel(j);
    if i < 26 && j < 26 {
      if a == b {
        assert Letter(i) == a[0] == b[0] == Letter(j);
      }
    } else if i >= 26 && j >= 26 {
      ColumnLabelInjective(i / 26 - 1, j / 26 - 1);
      if a == b {
        assert Letter(i % 26) == a[|a| - 1] == b[|b| - 1] == Letter(j % 26);
        assert ColumnLabel(i / 26 - 1) == a[..|a| - 1] == b[..|b| - 1] == ColumnLabel(j / 26 - 1);
      }
    }
  }

  /** Every label is written in capital letters only. */
  lemma {:induction false} LabelCapitals(i: nat)
    ensures forall k :: 0 <= k < |ColumnLabel(i)| ==> 'A' <= ColumnLabel(i)[k] <= 'Z'
    decreases i
  {
    if i >= 26 {
      LabelCapitals(i / 26 - 1);
      assert ColumnLabel(i) == ColumnLabel(i / 26 - 1) + [Letter(i % 26)];
    }
  }

  /** A label is its own capital form, so the library keys a label column by the label itself. */
  lemma LabelUpper(i: nat)
    ensures Upper(ColumnLabel(i)) == ColumnLabel(i)
  {
    LabelCapitals(i);
    UpperFixes(ColumnLabel(i));
  }

  /** The number of columns the exporter can address. */
  const ColumnCount: nat := 72

  /** The labels of the first `n` columns, in order. */
  function Labels(n: nat): (r: seq<string>)
    ensures |r| == n && forall i :: 0 <= i < n ==> r[i] == ColumnLabel(i)
  {
    seq(n, i requires 0 <= i => ColumnLabel(i))
  }

  /** The exporter's table of column letters: the first 72 labels, A to BT. */
  const Columnas: seq<string> := Labels(ColumnCount)

  /** Entry `i` of the table is the label of column `i`, and no label occurs twice. */
  lemma ColumnasLabels()
    ensures |Columnas| == ColumnCount
    ensures forall i :: 0 <= i < ColumnCount ==> Columnas[i] == ColumnLabel(i)
    ensures forall i, j :: 0 <= i < ColumnCount && 0 <= j < ColumnCount && i != j ==> Columnas[i] != Columnas[j]
  {
    forall i, j | 0 <= i < ColumnCount && 0 <= j < ColumnCount && i != j
      ensures Columnas[i] != Columnas[j]
    {
      ColumnLabelInjective(i, j);
    }
  }

  /** The table runs A..Z, AA..AZ, BA..BT. */
  lemma ColumnasTable()
    ensures |Columnas| == 72
    ensures Columnas[0] == "A" && Columnas[1] == "B" && Columnas[25] == "Z"
    ensures Columnas[26] == "AA" && Columnas[51] == "AZ" && Columnas[52] == "BA" && Columnas[71] == "BT"
  {
    assert |Columnas| == 72;
    assert Columnas[0] == ColumnLabel(0) && Columnas[1] == ColumnLabel(1) && Columnas[25] == ColumnLabel(25);
    assert Columnas[26] == ColumnLabel(26) && Columnas[51] == ColumnLabel(51);
    assert Columnas[52] == ColumnLabel(52) && Columnas[71] == ColumnLabel(71);
  }

  /** The number-format codes by style key. */
  const Estilos: map<string, string> := map[
    "txt_numero" := "@",
    "fecha" := "yyyy-mm-dd",
    "moneda" := "[$$-80A]#,##0.00;[RED]-[$$-80A]#,##0.00"]

  /** The format code of the `moneda_sin_decimal` override. */
  const MonedaSinDecimal := "$#,00"

  /** The format code of the `moneda` override: the library's simple US dollar format. */
  const CurrencyUsdSimple := "\"$\"#,##0.00_-"

  // ---------------------------------------------------------------------
  // Records and errors

  /** A field of a record: null, a scalar (held as its text) or an array. */
  datatype Value = Null | Scalar(text: string) | Composite

  type Registro = map<string, Value>

  /** An element of the record list: an array of fields, or anything else. */
  datatype Item = Fields(fields: Registro) | NotArray

  datatype ExportError =
    | EmptyName
    | NegativeColumn(numeroColumna: int)
    | NegativeRow(fila: int)
    | ColumnOverflow(position: int)
    | SheetIndexOutOfRange(index: int)
    | NonScalarCell(campo: string)
    | UnknownStyle(estilo: string)
    | NotARecord(item: nat)
    | InvalidSheetTitle(title: string)
    | CodecFailure(message: string)

  /** A step's result together with the cell writes it performed, in order. */
  datatype Plan<T> = Plan(result: Result<T, ExportError>, ops: seq<Op>)

  /** Every write of `ops` addresses the cell `a`. */
  predicate OnlyAt(ops: seq<Op>, a: Address) {
    forall j :: 0 <= j < |ops| ==> ops[j].at == a
  }

  /** Every write of `ops` lands in a row from `lo` to `hi`. */
  predicate WithinRows(ops: seq<Op>, lo: int, hi: int) {
    forall j :: 0 <= j < |ops| ==> lo <= ops[j].at.row <= hi
  }

  /** Every write of `ops` lands in row `fila`, in one of the first `n` columns. */
  predicate WithinRow(ops: seq<Op>, fila: int, n: nat) {
    forall j :: 0 <= j < |ops| ==> ops[j].at.row == fila && ops[j].at.column in Labels(n)
  }

  /** Writes confined to some rows leave every cell of the other rows alone. */
  lemma WithinRowsAvoid(ops: seq<Op>, lo: int, hi: int, a: Address)
    requires WithinRows(ops, lo, hi) && (a.row < lo || hi < a.row)
    ensures forall j :: 0 <= j < |ops| ==> ops[j].at != a
  {
  }

  /** Two batches of writes confined to the same rows stay confined when joined. */
  lemma WithinRowsConcat(p: seq<Op>, q: seq<Op>, lo: int, hi: int)
    requires WithinRows(p, lo, hi) && WithinRows(q, lo, hi)
    ensures WithinRows(p + q, lo, hi)
  {
    forall j | 0 <= j < |p + q| ensures lo <= (p + q)[j].at.row <= hi {
      if j < |p| {
        assert (p + q)[j] == p[j];
      } else {
        assert (p + q)[j] == q[j - |p|];
      }
    }
  }

  /** Writes confined to one row of the first `n` columns, followed by writes to column `n` of that row. */
  lemma WithinRowSnoc(p: seq<Op>, d: seq<Op>, fila: int, n: nat)
    requires WithinRow(p, fila, n) && OnlyAt(d, Address(ColumnLabel(n), fila))
    ensures WithinRow(p + d, fila, n + 1)
  {
    forall j | 0 <= j < |p + d| ensures (p + d)[j].at.row == fila && (p + d)[j].at.column in Labels(n + 1) {
      if j < |p| {
        assert (p + d)[j] == p[j];
        assert p[j].at.column in Labels(n);
        var m :| 0 <= m < n && Labels(n)[m] == p[j].at.column;
        assert Labels(n + 1)[m] == p[j].at.column;
      } else {
        assert (p + d)[j] == d[j - |p|];
        assert Labels(n + 1)[n] == ColumnLabel(n);
      }
    }
  }

  /** Writes confined to the first `n` columns of a row leave column `i` >= `n` of that row alone. */
  lemma WithinRowAvoid(ops: seq<Op>, fila: int, n: nat, i: nat)
    requires WithinRow(ops, fila, n) && n <= i
    ensures forall j :: 0 <= j < |ops| ==> ops[j].at != Address(ColumnLabel(i), fila)
  {
    forall j | 0 <= j < |ops| ensures ops[j].at != Address(ColumnLabel(i), fila) {
      assert ops[j].at.column in Labels(n);
      var m :| 0 <= m < n && Labels(n)[m] == ops[j].at.column;
      ColumnLabelInjective(m, i);
    }
  }

  /** isset($registro[$campo]): present and not null. */
  predicate IsSet(registro: Registro, campo: string) {
    campo in registro && !registro[campo].Null?
  }

  // ---------------------------------------------------------------------
  // One cell

  /**
   * The style key the classifier gives a value: the `xls` key of the first
   * matching rule when that key is truthy, and none otherwise.
   */
  function StyleFor(cat: Catalog, valor: string): Option<string>
  {
    var xls := Classification(cat, valor).1;
    if Truthy(xls) then Some(xls.value) else None
  }

  /** The style is the truthy xls key of the first matching rule, and none without a match. */
  lemma StyleForFirstMatch(cat: Catalog, valor: string)
    ensures StyleFor(cat, valor).Some? ==> Truthy(Str(StyleFor(cat, valor).value))
    ensures match FirstMatch(cat.rules, cat.matches, valor)
      case Some(k) => StyleFor(cat, valor) == (if Truthy(cat.rules[k].xls) then Some(cat.rules[k].xls.value) else None)
      case None => StyleFor(cat, valor) == None
  {
  }

  /**
   * The spreadsheet serial number the exporter writes for a date: days since
   * 1899-12-30, less five hours, from the timestamp strtotime gave (a failed
   * parse counts as timestamp 0).
   */
  function DateSerial(t: Option<int>): real
  {
    (if t.Some? then t.value as real else 0.0) / 86400.0 + 25569.0 + (-5.0 / 24.0)
  }

  /**
   * The serial number gives the timestamp back: undoing the five-hour shift
   * and the epoch offset and scaling days to seconds yields the timestamp,
   * and one day later in the timestamp is one more in the serial.
   */
  lemma DateSerialTimestamp(t: int)
    ensures (DateSerial(Some(t)) - 25569.0 + 5.0 / 24.0) * 86400.0 == t as real
    ensures DateSerial(Some(t + 86400)) == DateSerial(Some(t)) + 1.0
    ensures DateSerial(None) == DateSerial(Some(0))
  {
  }

  /** What is written for the trimmed value `valor`: a date style turns it into a serial number. */
  function DatoCelda(strToTime: StrToTime, valor: string, estilo: Option<string>): CellValue {
    if estilo == Some("fecha") then Number(DateSerial(strToTime(valor))) else Text(valor)
  }

  /**
   * A value classified as a date is written as the serial number its
   * timestamp denotes (the serial of 1970-01-01 less five hours when
   * strtotime fails); any other value is written as its text.
   */
  lemma DatoCeldaFecha(strToTime: StrToTime, valor: string, estilo: Option<string>)
    ensures estilo != Some("fecha") ==> DatoCelda(strToTime, valor, estilo) == Text(valor)
    ensures estilo == Some("fecha") && strToTime(valor).Some? ==>
      && DatoCelda(strToTime, valor, estilo).Number?
      && (DatoCelda(strToTime, valor, estilo).number - 25569.0 + 5.0 / 24.0) * 86400.0 == strToTime(valor).value as real
    ensures estilo == Some("fecha") && strToTime(valor).None? ==>
      DatoCelda(strToTime, valor, estilo) == Number(25569.0 - 5.0 / 24.0)
  {
    if estilo == Some("fecha") && strToTime(valor).Some? {
      DateSerialTimestamp(strToTime(valor).value);
    }
  }

  /** What the exporter consults besides its arguments: the pattern catalog and strtotime. */
  datatype Env = Env(catalog: Catalog, strToTime: StrToTime)

  /** The value a scalar field puts in its cell, or none when the field is unset or null. */
  function FieldCell(env: Env, registro: Registro, campo: string): Option<CellValue> {
    if IsSet(registro, campo) && registro[campo].Scalar? then
      var valor := Trim(registro[campo].text);
      Some(DatoCelda(env.strToTime, valor, StyleFor(env.catalog, valor)))
    else None
  }

  /**
   * Writing field `campo` of `registro` into column `numeroColumna` of row
   * `fila`: three validations that write nothing, a skip for an unset or
   * null field, an error for an array, then the value, the content style
   * and, when the classifier gave a style, its format code.
   */
  function DatosPlan(env: Env, campo: string, fila: int, index: int,
                     numeroColumna: int, registro: Registro): Plan<Registro>
  {
    if numeroColumna < 0 then Plan(Err(NegativeColumn(numeroColumna)), [])
    else if fila < 0 then Plan(Err(NegativeRow(fila)), [])
    else if numeroColumna >= ColumnCount then Plan(Err(ColumnOverflow(numeroColumna)), [])
    else if !IsSet(registro, campo) then Plan(Ok(registro), [])
    else if registro[campo].Composite? then Plan(Err(NonScalarCell(campo)), [])
    else if !ValidSheetIndex(index) then Plan(Err(SheetIndexOutOfRange(index)), [])
    else
      var valor := Trim(registro[campo].text);
      var celda := Address(ColumnLabel(numeroColumna), fila);
      var estilo := StyleFor(env.catalog, valor);
      var written := [SetValue(celda, DatoCelda(env.strToTime, valor, estilo)), ApplyContentStyle(celda)];
      match estilo
      case None => Plan(Ok(registro), written)
      case Some(e) =>
        if e in Estilos then Plan(Ok(registro), written + [SetFormatCode(celda, Estilos[e])])
        else Plan(Err(UnknownStyle(e)), written)
  }

  /**
   * A field write returns the record itself; a bad position writes nothing,
   * neither does an unset or null field nor an array; whatever is written
   * goes to the one cell of the field.
   */
  lemma DatosShape(env: Env, campo: string, fila: int, index: int, numeroColumna: int, registro: Registro)
    ensures var p := DatosPlan(env, campo, fila, index, numeroColumna, registro);
      && (p.result.Ok? ==> p.result.value == registro)
      && (numeroColumna < 0 || fila < 0 || numeroColumna >= ColumnCount ==> p.result.Err? && p.ops == [])
      && (0 <= numeroColumna < ColumnCount && 0 <= fila && !IsSet(registro, campo) ==>
            p.result == Ok(registro) && p.ops == [])
      && (IsSet(registro, campo) && registro[campo].Composite? ==> p.result.Err? && p.ops == [])
      && (|p.ops| > 0 ==> 0 <= numeroColumna < ColumnCount && OnlyAt(p.ops, Address(ColumnLabel(numeroColumna), fila)))
  {
  }

  /**
   * After a successful field write, the cell holds the trimmed value (or its
   * date serial) with the content style, and the style's format code when
   * the classifier gave one; an unset or null field leaves the cell as it was.
   */
  lemma DatosCell(env: Env, campo: string, fila: int, index: int,
                  numeroColumna: int, registro: Registro, c: Cell)
    requires DatosPlan(env, campo, fila, index, numeroColumna, registro).result.Ok?
    requires 0 <= numeroColumna < ColumnCount
    ensures IsSet(registro, campo) ==> registro[campo].Scalar?
    ensures IsSet(registro, campo) && StyleFor(env.catalog, Trim(registro[campo].text)).Some? ==>
      StyleFor(env.catalog, Trim(registro[campo].text)).value in Estilos
    ensures var after := CellAfter(c, DatosPlan(env, campo, fila, index, numeroColumna, registro).ops,
                                   Address(ColumnLabel(numeroColumna), fila));
      var field := FieldCell(env, registro, campo);
      && after.value == (if field.Some? then field else c.value)
      && after.contentStyle == (field.Some? || c.contentStyle)
      && after.format == (if field.Some? && StyleFor(env.catalog, Trim(registro[campo].text)).Some?
                          then Some(Estilos[StyleFor(env.catalog, Trim(registro[campo].text)).value]) else c.format)
      && after.centered == c.centered
  {
    var p := DatosPlan(env, campo, fila, index, numeroColumna, registro);
    var a := Address(ColumnLabel(numeroColumna), fila);
    if IsSet(registro, campo) {
      var valor := Trim(registro[campo].text);
      var op0, op1 := SetValue(a, DatoCelda(env.strToTime, valor, StyleFor(env.catalog, valor))), ApplyContentStyle(a);
      if StyleFor(env.catalog, valor).Some? {
        CellAfterPairThen(c, op0, op1, p.ops[2], a);
      } else {
        CellAfterPair(c, op0, op1, a);
      }
    }
  }

  /** `n` copies of `x`. */
  function Repeat<T>(x: T, n: nat): (r: seq<T>)
    ensures |r| == n
  {
    if n == 0 then [] else Repeat(x, n - 1) + [x]
  }

  /**
   * Writing the fields of `registro` named by the first `n` keys into row
   * `fila`, key `i` in column `i`, stopping at the first error; the result
   * collects what each field write returned.
   */
  function RegistroPlan(env: Env, fila: int, index: int, keys: seq<string>,
                        registro: Registro, n: nat): (p: Plan<seq<Registro>>)
    requires n <= |keys|
    ensures p.result.Ok? ==> p.result.value == Repeat(registro, n)
    decreases n
  {
    if n == 0 then Plan(Ok([]), [])
    else
      var p := RegistroPlan(env, fila, index, keys, registro, n - 1);
      if p.result.Err? then p
      else
        var d := DatosPlan(env, keys[n - 1], fila, index, n - 1, registro);
        DatosShape(env, keys[n - 1], fila, index, n - 1, registro);
        Plan(if d.result.Err? then Err(d.result.error) else Ok(p.result.value + [d.result.value]), p.ops + d.ops)
  }

  /** A record write only touches row `fila`, in the columns of the first `n` keys. */
  lemma {:induction false} RegistroWrites(env: Env, fila: int, index: int, keys: seq<string>,
                                          registro: Registro, n: nat)
    requires n <= |keys|
    ensures WithinRow(RegistroPlan(env, fila, index, keys, registro, n).ops, fila, n)
    decreases n
  {
    if n > 0 {
      var p := RegistroPlan(env, fila, index, keys, registro, n - 1);
      RegistroWrites(env, fila, index, keys, registro, n - 1);
      if p.result.Ok? {
        var d := DatosPlan(env, keys[n - 1], fila, index, n - 1, registro);
        DatosShape(env, keys[n - 1], fila, index, n - 1, registro);
        assert RegistroPlan(env, fila, index, keys, registro, n).ops == p.ops + d.ops;
        WithinRowSnoc(p.ops, d.ops, fila, n - 1);
      }
    }
  }

  /** An error part-way through a record keeps the error in every longer prefix. */
  lemma {:induction false} RegistroErrStable(env: Env, fila: int, index: int,
                                             keys: seq<string>, registro: Registro, k: nat, n: nat)
    requires k <= n <= |keys|
    requires RegistroPlan(env, fila, index, keys, registro, k).result.Err?
    ensures RegistroPlan(env, fila, index, keys, registro, n) ==
            RegistroPlan(env, fila, index, keys, registro, k)
    decreases n
  {
    if n > k {
      RegistroErrStable(env, fila, index, keys, registro, k, n - 1);
    }
  }

  /**
   * In a successful record write, the cell of key `i` is written only by the
   * field write for key `i`.
   */
  lemma {:induction false} RegistroCell(env: Env, fila: int, index: int,
                                        keys: seq<string>, registro: Registro, n: nat, i: nat, c: Cell)
    requires i < n <= |keys| && n <= ColumnCount
    requires RegistroPlan(env, fila, index, keys, registro, n).result.Ok?
    ensures DatosPlan(env, keys[i], fila, index, i, registro).result.Ok?
    ensures CellAfter(c, RegistroPlan(env, fila, index, keys, registro, n).ops, Address(ColumnLabel(i), fila)) ==
            CellAfter(c, DatosPlan(env, keys[i], fila, index, i, registro).ops, Address(ColumnLabel(i), fila))
    decreases n
  {
    var p := RegistroPlan(env, fila, index, keys, registro, n - 1);
    var d := DatosPlan(env, keys[n - 1], fila, index, n - 1, registro);
    DatosShape(env, keys[n - 1], fila, index, n - 1, registro);
    var a := Address(ColumnLabel(i), fila);
    CellAfterAppend(c, p.ops, d.ops, a);
    if i == n - 1 {
      RegistroWrites(env, fila, index, keys, registro, n - 1);
      WithinRowAvoid(p.ops, fila, n - 1, i);
      CellAfterUntouched(c, p.ops, a);
    } else {
      RegistroCell(env, fila, index, keys, registro, n - 1, i, c);
      ColumnLabelInjective(n - 1, i);
      CellAfterUntouched(CellAfter(c, p.ops, a), d.ops, a);
    }
  }

  // ---------------------------------------------------------------------
  // Headers, body and totals

  /**
   * The header row: key `i` written as text into column `i` of row 1, left to
   * right, stopping at the first failure (no sheet `index`, or a key with no
   * column letter left).
   */
  function EncabezadosPlan(index: int, keys: seq<string>, n: nat): (p: Plan<()>)
    requires n <= |keys|
    ensures |p.ops| <= n
    decreases n
  {
    if n == 0 then Plan(Ok(()), [])
    else
      var p := EncabezadosPlan(index, keys, n - 1);
      if p.result.Err? then p
      else if !ValidSheetIndex(index) then Plan(Err(SheetIndexOutOfRange(index)), p.ops)
      else if n - 1 >= ColumnCount then Plan(Err(ColumnOverflow(n - 1)), p.ops)
      else Plan(Ok(()), p.ops + [SetValue(Address(ColumnLabel(n - 1), 1), Text(keys[n - 1]))])
  }

  /** A failed header write stays failed, with the same writes, for every longer key prefix. */
  lemma {:induction false} EncabezadosErrStable(index: int, keys: seq<string>, k: nat, n: nat)
    requires k <= n <= |keys|
    requires EncabezadosPlan(index, keys, k).result.Err?
    ensures EncabezadosPlan(index, keys, n) == EncabezadosPlan(index, keys, k)
    decreases n
  {
    if n > k {
      EncabezadosErrStable(index, keys, k, n - 1);
    }
  }

  /**
   * The header writes, in closed form: with a valid sheet, key `i` goes to
   * column `i` of row 1 for every key that has a column; the write for
   * position 72 fails; with no valid sheet, the first key already fails.
   */
  lemma {:induction false} EncabezadosOps(index: int, keys: seq<string>, n: nat)
    requires n <= |keys|
    ensures var p := EncabezadosPlan(index, keys, n);
      && (n == 0 || ValidSheetIndex(index) ==>
           && |p.ops| == (if n <= ColumnCount then n else ColumnCount)
           && (forall i :: 0 <= i < |p.ops| ==> p.ops[i] == SetValue(Address(ColumnLabel(i), 1), Text(keys[i])))
           && p.result == (if n <= ColumnCount then Ok(()) else Err(ColumnOverflow(ColumnCount))))
      && (n > 0 && !ValidSheetIndex(index) ==> p.result == Err(SheetIndexOutOfRange(index)) && p.ops == [])
    decreases n
  {
    if n > 0 {
      EncabezadosOps(index, keys, n - 1);
    }
  }

  /** The header writes only touch row 1. */
  lemma EncabezadosRow(index: int, keys: seq<string>, a: Address)
    requires a.row != 1
    ensures forall j :: 0 <= j < |EncabezadosPlan(index, keys, |keys|).ops| ==>
      EncabezadosPlan(index, keys, |keys|).ops[j].at != a
  {
    EncabezadosOps(index, keys, |keys|);
  }

  /** After a successful header write, row 1 holds the keys, one per column, in order. */
  lemma EncabezadosCells(index: int, keys: seq<string>, c: Cell, i: nat)
    requires EncabezadosPlan(index, keys, |keys|).result.Ok?
    requires i < |keys|
    ensures |keys| <= ColumnCount
    ensures CellAfter(c, EncabezadosPlan(index, keys, |keys|).ops, Address(ColumnLabel(i), 1)) ==
            c.(value := Some(Text(keys[i])))
  {
    var ops := EncabezadosPlan(index, keys, |keys|).ops;
    EncabezadosOps(index, keys, |keys|);
    forall j | 0 <= j < |ops| && j != i ensures ops[j].at != Address(ColumnLabel(i), 1) {
      ColumnLabelInjective(j, i);
    }
    CellAfterOnly(c, ops, i, Address(ColumnLabel(i), 1));
  }

  /**
   * The body: record `k` (0-based) written into row k + 2 for the first `n`
   * records, stopping at an element that is not an array or at a failed
   * record write.
   */
  function CuerpoPlan(env: Env, index: int, keys: seq<string>, registros: seq<Item>,
                      n: nat): (p: Plan<()>)
    requires n <= |registros|
    decreases n
  {
    if n == 0 then Plan(Ok(()), [])
    else
      var p := CuerpoPlan(env, index, keys, registros, n - 1);
      if p.result.Err? then p
      else
        match registros[n - 1]
        case NotArray => Plan(Err(NotARecord(n - 1)), p.ops)
        case Fields(f) =>
          var r := RegistroPlan(env, n + 1, index, keys, f, |keys|);
          Plan(if r.result.Err? then Err(r.result.error) else Ok(()), p.ops + r.ops)
  }

  /** One more record of the body, written into row `fila` = k + 2. */
  lemma CuerpoStep(env: Env, index: int, keys: seq<string>, registros: seq<Item>, k: nat, fila: int)
    requires k < |registros| && fila == k + 2
    requires CuerpoPlan(env, index, keys, registros, k).result.Ok?
    ensures registros[k].NotArray? ==>
      CuerpoPlan(env, index, keys, registros, k + 1) == Plan(Err(NotARecord(k)), CuerpoPlan(env, index, keys, registros, k).ops)
    ensures registros[k].Fields? ==>
      && CuerpoPlan(env, index, keys, registros, k + 1).ops ==
         CuerpoPlan(env, index, keys, registros, k).ops + RegistroPlan(env, fila, index, keys, registros[k].fields, |keys|).ops
      && (CuerpoPlan(env, index, keys, registros, k + 1).result.Ok? <==>
          RegistroPlan(env, fila, index, keys, registros[k].fields, |keys|).result.Ok?)
      && (RegistroPlan(env, fila, index, keys, registros[k].fields, |keys|).result.Err? ==>
          CuerpoPlan(env, index, keys, registros, k + 1).result.error ==
          RegistroPlan(env, fila, index, keys, registros[k].fields, |keys|).result.error)
  {
    var p := CuerpoPlan(env, index, keys, registros, k);
    var q := CuerpoPlan(env, index, keys, registros, k + 1);
    assert q == match registros[k]
      case NotArray => Plan(Err(NotARecord(k)), p.ops)
      case Fields(f) =>
        var r := RegistroPlan(env, fila, index, keys, f, |keys|);
        Plan(if r.result.Err? then Err(r.result.error) else Ok(()), p.ops + r.ops);
  }

  /** A non-array element at position `k` after `k` good records ends the whole body with an error. */
  lemma CuerpoHalts(env: Env, index: int, keys: seq<string>, registros: seq<Item>, k: nat)
    requires k < |registros| && registros[k].NotArray?
    requires CuerpoPlan(env, index, keys, registros, k).result.Ok?
    ensures CuerpoPlan(env, index, keys, registros, |registros|) ==
            Plan(Err(NotARecord(k)), CuerpoPlan(env, index, keys, registros, k).ops)
  {
    CuerpoStep(env, index, keys, registros, k, k + 2);
    CuerpoErrStable(env, index, keys, registros, k + 1, |registros|);
  }

  /**
   * Writing record `k` after the first `k` records extends the body by one
   * record; when the record write fails, that failure ends the whole body.
   */
  lemma CuerpoAdvances(env: Env, index: int, keys: seq<string>, registros: seq<Item>, k: nat, fila: int,
                       cells0: Cells, before: Cells, after: Cells, res: Result<seq<Registro>, ExportError>)
    requires k < |registros| && registros[k].Fields? && fila == k + 2
    requires CuerpoPlan(env, index, keys, registros, k).result.Ok?
    requires before == Run(cells0, CuerpoPlan(env, index, keys, registros, k).ops)
    requires after == Run(before, RegistroPlan(env, fila, index, keys, registros[k].fields, |keys|).ops)
    requires res == RegistroPlan(env, fila, index, keys, registros[k].fields, |keys|).result
    ensures after == Run(cells0, CuerpoPlan(env, index, keys, registros, k + 1).ops)
    ensures res.Ok? <==> CuerpoPlan(env, index, keys, registros, k + 1).result.Ok?
    ensures res.Err? ==> CuerpoPlan(env, index, keys, registros, |registros|) ==
                         Plan(Err(res.error), CuerpoPlan(env, index, keys, registros, k + 1).ops)
  {
    CuerpoStep(env, index, keys, registros, k, fila);
    RunAppend(cells0, CuerpoPlan(env, index, keys, registros, k).ops,
              RegistroPlan(env, fila, index, keys, registros[k].fields, |keys|).ops);
    if res.Err? {
      CuerpoErrStable(env, index, keys, registros, k + 1, |registros|);
    }
  }

  /** The body writes of the first `n` records only touch rows 2..n + 1. */
  lemma {:induction false} CuerpoRows(env: Env, index: int, keys: seq<string>, registros: seq<Item>, n: nat)
    requires n <= |registros|
    ensures WithinRows(CuerpoPlan(env, index, keys, registros, n).ops, 2, n + 1)
    decreases n
  {
    if n > 0 {
      var p := CuerpoPlan(env, index, keys, registros, n - 1);
      CuerpoRows(env, index, keys, registros, n - 1);
      assert WithinRows(p.ops, 2, n + 1);
      if p.result.Ok? && registros[n - 1].Fields? {
        var r := RegistroPlan(env, n + 1, index, keys, registros[n - 1].fields, |keys|);
        RegistroWrites(env, n + 1, index, keys, registros[n - 1].fields, |keys|);
        assert WithinRows(r.ops, n + 1, n + 1);
        assert CuerpoPlan(env, index, keys, registros, n).ops == p.ops + r.ops;
        WithinRowsConcat(p.ops, r.ops, 2, n + 1);
      }
    }
  }

  /** An error part-way through the body keeps the error in every longer prefix. */
  lemma {:induction false} CuerpoErrStable(env: Env, index: int, keys: seq<string>,
                                           registros: seq<Item>, k: nat, n: nat)
    requires k <= n <= |registros|
    requires CuerpoPlan(env, index, keys, registros, k).result.Err?
    ensures CuerpoPlan(env, index, keys, registros, n) == CuerpoPlan(env, index, keys, registros, k)
    decreases n
  {
    if n > k {
      CuerpoErrStable(env, index, keys, registros, k, n - 1);
      var p := CuerpoPlan(env, index, keys, registros, n - 1);
      assert p.result.Err?;
    }
  }

  /** A record list with an element that is not an array is rejected. */
  lemma {:induction false} CuerpoRejectsNonArray(env: Env, index: int, keys: seq<string>,
                                                 registros: seq<Item>, k: nat, n: nat)
    requires k < n <= |registros| && registros[k].NotArray?
    ensures CuerpoPlan(env, index, keys, registros, n).result.Err?
    decreases n
  {
    if k < n - 1 {
      CuerpoRejectsNonArray(env, index, keys, registros, k, n - 1);
    }
  }

  /**
   * In a successful body write, the cell of key `i` in row k + 2 is written
   * only by the field write of key `i` for record `k`.
   */
  lemma {:induction false} CuerpoCell(env: Env, index: int, keys: seq<string>,
                                      registros: seq<Item>, n: nat, k: nat, i: nat, c: Cell)
    requires k < n <= |registros| && i < |keys| <= ColumnCount
    requires CuerpoPlan(env, index, keys, registros, n).result.Ok?
    ensures registros[k].Fields?
    ensures DatosPlan(env, keys[i], k + 2, index, i, registros[k].fields).result.Ok?
    ensures CellAfter(c, CuerpoPlan(env, index, keys, registros, n).ops, Address(ColumnLabel(i), k + 2)) ==
            CellAfter(c, DatosPlan(env, keys[i], k + 2, index, i, registros[k].fields).ops,
                      Address(ColumnLabel(i), k + 2))
    decreases n
  {
    var p := CuerpoPlan(env, index, keys, registros, n - 1);
    var f := registros[n - 1].fields;
    var r := RegistroPlan(env, n + 1, index, keys, f, |keys|);
    var a := Address(ColumnLabel(i), k + 2);
    CellAfterAppend(c, p.ops, r.ops, a);
    if k == n - 1 {
      CuerpoRows(env, index, keys, registros, n - 1);
      WithinRowsAvoid(p.ops, 2, n, a);
      CellAfterUntouched(c, p.ops, a);
      RegistroCell(env, n + 1, index, keys, f, |keys|, i, c);
    } else {
      CuerpoCell(env, index, keys, registros, n - 1, k, i, c);
      RegistroWrites(env, n + 1, index, keys, f, |keys|);
      assert WithinRows(r.ops, n + 1, n + 1);
      WithinRowsAvoid(r.ops, n + 1, n + 1, a);
      CellAfterUntouched(CellAfter(c, p.ops, a), r.ops, a);
    }
  }

  /** The four writes of one totals row: label in A, value in B, then the content style on both. */
  function TotalRow(fila: int, etiqueta: string, total: string): seq<Op> {
    [SetValue(Address("A", fila), Text(etiqueta)), SetValue(Address("B", fila), Text(total)),
     ApplyContentStyle(Address("A", fila)), ApplyContentStyle(Address("B", fila))]
  }

  /** A totals row leaves the label in A and the value in B, both with the content style. */
  lemma TotalRowCells(fila: int, etiqueta: string, total: string, c: Cell, d: Cell)
    ensures CellAfter(c, TotalRow(fila, etiqueta, total), Address("A", fila)) ==
            c.(value := Some(Text(etiqueta)), contentStyle := true)
    ensures CellAfter(d, TotalRow(fila, etiqueta, total), Address("B", fila)) ==
            d.(value := Some(Text(total)), contentStyle := true)
  {
    var cA, cB := Address("A", fila), Address("B", fila);
    var o0, o1, o2, o3 := SetValue(cA, Text(etiqueta)), SetValue(cB, Text(total)), ApplyContentStyle(cA), ApplyContentStyle(cB);
    assert [] + [o0] == [o0];
    assert [o0] + [o1] == [o0, o1];
    assert [o0, o1] + [o2] == [o0, o1, o2];
    assert [o0, o1, o2] + [o3] == TotalRow(fila, etiqueta, total);
    CellAfterSnoc(c, [], o0, cA);
    CellAfterSnoc(c, [o0], o1, cA);
    CellAfterSnoc(c, [o0, o1], o2, cA);
    CellAfterSnoc(c, [o0, o1, o2], o3, cA);
    CellAfterSnoc(d, [], o0, cB);
    CellAfterSnoc(d, [o0], o1, cB);
    CellAfterSnoc(d, [o0, o1], o2, cB);
    CellAfterSnoc(d, [o0, o1, o2], o3, cB);
  }

  /** The first `n` totals entries, entry `t` in row fila + t. */
  function TotalesPlan(index: int, totales: seq<(string, string)>, fila: int, n: nat): (p: Plan<()>)
    requires n <= |totales|
    ensures p.result.Ok? <==> n == 0 || ValidSheetIndex(index)
    ensures p.result.Ok? ==> |p.ops| == 4 * n
    decreases n
  {
    if n == 0 then Plan(Ok(()), [])
    else
      var p := TotalesPlan(index, totales, fila, n - 1);
      if p.result.Err? then p
      else if !ValidSheetIndex(index) then Plan(Err(SheetIndexOutOfRange(index)), p.ops)
      else Plan(Ok(()), p.ops + TotalRow(fila + n - 1, totales[n - 1].0, totales[n - 1].1))
  }

  /** The writes of the first `n` totals entries only touch rows fila..fila + n - 1. */
  lemma {:induction false} TotalesRows(index: int, totales: seq<(string, string)>, fila: int, n: nat)
    requires n <= |totales|
    ensures WithinRows(TotalesPlan(index, totales, fila, n).ops, fila, fila + n - 1)
    decreases n
  {
    if n > 0 {
      var p := TotalesPlan(index, totales, fila, n - 1);
      var ops := TotalesPlan(index, totales, fila, n).ops;
      TotalesRows(index, totales, fila, n - 1);
      if p.result.Ok? && ValidSheetIndex(index) {
        var row := TotalRow(fila + n - 1, totales[n - 1].0, totales[n - 1].1);
        assert ops == p.ops + row;
        forall j | 0 <= j < |ops| ensures fila <= ops[j].at.row <= fila + n - 1 {
          if j < |p.ops| {
            assert ops[j] == p.ops[j];
          } else {
            assert ops[j] == row[j - |p.ops|];
          }
        }
      }
    }
  }

  /** A failed totals write stays failed, with the same writes, for every longer prefix. */
  lemma {:induction false} TotalesErrStable(index: int, totales: seq<(string, string)>, fila: int, k: nat, n: nat)
    requires k <= n <= |totales|
    requires TotalesPlan(index, totales, fila, k).result.Err?
    ensures TotalesPlan(index, totales, fila, n) == TotalesPlan(index, totales, fila, k)
    decreases n
  {
    if n > k {
      TotalesErrStable(index, totales, fila, k, n - 1);
    }
  }

  /** One more totals entry: its row when the sheet exists, an error otherwise. */
  lemma TotalesStep(index: int, totales: seq<(string, string)>, inicio: int, t: nat, fila: int)
    requires t < |totales| && fila == inicio + t
    requires TotalesPlan(index, totales, inicio, t).result.Ok?
    ensures TotalesPlan(index, totales, inicio, t + 1) ==
      if ValidSheetIndex(index)
      then Plan(Ok(()), TotalesPlan(index, totales, inicio, t).ops + TotalRow(fila, totales[t].0, totales[t].1))
      else Plan(Err(SheetIndexOutOfRange(index)), TotalesPlan(index, totales, inicio, t).ops)
  {
    assert inicio + (t + 1) - 1 == fila;
  }

  /** After the totals, row fila + t holds entry `t`: its etiqueta in A and its value in B. */
  lemma {:induction false} TotalesCells(index: int, totales: seq<(string, string)>, fila: int, n: nat, t: nat,
                                        c: Cell, d: Cell)
    requires t < n <= |totales| && ValidSheetIndex(index)
    ensures var ops := TotalesPlan(index, totales, fila, n).ops;
      && CellAfter(c, ops, Address("A", fila + t)) == c.(value := Some(Text(totales[t].0)), contentStyle := true)
      && CellAfter(d, ops, Address("B", fila + t)) == d.(value := Some(Text(totales[t].1)), contentStyle := true)
    decreases n
  {
    var p := TotalesPlan(index, totales, fila, n - 1);
    var row := TotalRow(fila + n - 1, totales[n - 1].0, totales[n - 1].1);
    var a, b := Address("A", fila + t), Address("B", fila + t);
    CellAfterAppend(c, p.ops, row, a);
    CellAfterAppend(d, p.ops, row, b);
    if t == n - 1 {
      TotalesRows(index, totales, fila, n - 1);
      CellAfterUntouched(c, p.ops, a);
      CellAfterUntouched(d, p.ops, b);
      TotalRowCells(fila + t, totales[t].0, totales[t].1, c, d);
    } else {
      TotalesCells(index, totales, fila, n - 1, t, c, d);
      CellAfterUntouched(CellAfter(c, p.ops, a), row, a);
      CellAfterUntouched(CellAfter(d, p.ops, b), row, b);
    }
  }

  /**
   * The whole of the body and the totals: the records from row 2, a blank
   * row, then the totals from row |registros| + 3. The result is the record
   * list itself.
   */
  function LibroPlan(env: Env, index: int, keys: seq<string>, registros: seq<Item>,
                     totales: seq<(string, string)>): (p: Plan<seq<Item>>)
    ensures p.result.Ok? ==> p.result.value == registros
  {
    var b := CuerpoPlan(env, index, keys, registros, |registros|);
    if b.result.Err? then Plan(Err(b.result.error), b.ops)
    else
      var t := TotalesPlan(index, totales, |registros| + 3, |totales|);
      Plan(if t.result.Err? then Err(t.result.error) else Ok(registros), b.ops + t.ops)
  }

  /** The body and totals writes start at row 2 and leave row |registros| + 2 blank. */
  lemma LibroRows(env: Env, index: int, keys: seq<string>, registros: seq<Item>, totales: seq<(string, string)>)
    ensures forall j :: 0 <= j < |LibroPlan(env, index, keys, registros, totales).ops| ==>
      2 <= LibroPlan(env, index, keys, registros, totales).ops[j].at.row != |registros| + 2
  {
    var b := CuerpoPlan(env, index, keys, registros, |registros|);
    var t := TotalesPlan(index, totales, |registros| + 3, |totales|);
    var ops := LibroPlan(env, index, keys, registros, totales).ops;
    CuerpoRows(env, index, keys, registros, |registros|);
    TotalesRows(index, totales, |registros| + 3, |totales|);
    if b.result.Ok? {
      assert ops == b.ops + t.ops;
      forall j | 0 <= j < |ops| ensures 2 <= ops[j].at.row && ops[j].at.row != |registros| + 2 {
        if j < |b.ops| {
          assert ops[j] == b.ops[j];
        } else {
          assert ops[j] == t.ops[j - |b.ops|];
        }
      }
    }
  }

  /** In a body and totals write whose body succeeded, the cell of key `i` in row k + 2 is the field write's. */
  lemma LibroBodyCell(env: Env, index: int, keys: seq<string>, registros: seq<Item>,
                      totales: seq<(string, string)>, k: nat, i: nat)
    requires k < |registros| && i < |keys| <= ColumnCount
    requires CuerpoPlan(env, index, keys, registros, |registros|).result.Ok?
    ensures registros[k].Fields?
    ensures DatosPlan(env, keys[i], k + 2, index, i, registros[k].fields).result.Ok?
    ensures CellAfter(Blank, LibroPlan(env, index, keys, registros, totales).ops, Address(ColumnLabel(i), k + 2)) ==
            CellAfter(Blank, DatosPlan(env, keys[i], k + 2, index, i, registros[k].fields).ops, Address(ColumnLabel(i), k + 2))
  {
    LibroOps(env, index, keys, registros, totales);
    TotalesRows(index, totales, |registros| + 3, |totales|);
    CellAfterPrefix(Blank, LibroPlan(env, index, keys, registros, totales).ops,
                    CuerpoPlan(env, index, keys, registros, |registros|).ops,
                    TotalesPlan(index, totales, |registros| + 3, |totales|).ops, Address(ColumnLabel(i), k + 2));
    CuerpoCell(env, index, keys, registros, |registros|, k, i, Blank);
  }

  /** When the body succeeds, the body and totals write is the body's writes followed by the totals' writes. */
  lemma LibroOps(env: Env, index: int, keys: seq<string>, registros: seq<Item>,
                 totales: seq<(string, string)>)
    requires CuerpoPlan(env, index, keys, registros, |registros|).result.Ok?
    ensures LibroPlan(env, index, keys, registros, totales).ops ==
            CuerpoPlan(env, index, keys, registros, |registros|).ops
            + TotalesPlan(index, totales, |registros| + 3, |totales|).ops
    ensures LibroPlan(env, index, keys, registros, totales).result ==
            if TotalesPlan(index, totales, |registros| + 3, |totales|).result.Err?
            then Err(TotalesPlan(index, totales, |registros| + 3, |totales|).result.error) else Ok(registros)
  {
  }

  /** After writes to earlier rows and then the totals from row `fila`, entry `t` sits in row fila + t. */
  lemma TotalsAfter(ops: seq<Op>, prefix: seq<Op>, index: int, totales: seq<(string, string)>, fila: int, t: nat, row: int)
    requires t < |totales| && ValidSheetIndex(index) && row == fila + t
    requires forall j :: 0 <= j < |prefix| ==> prefix[j].at.row < fila
    requires ops == prefix + TotalesPlan(index, totales, fila, |totales|).ops
    ensures CellAfter(Blank, ops, Address("A", row)).value == Some(Text(totales[t].0))
    ensures CellAfter(Blank, ops, Address("B", row)).value == Some(Text(totales[t].1))
  {
    var a, b := Address("A", fila + t), Address("B", fila + t);
    var tt := TotalesPlan(index, totales, fila, |totales|).ops;
    CellAfterAppend(Blank, prefix, tt, a);
    CellAfterUntouched(Blank, prefix, a);
    CellAfterAppend(Blank, prefix, tt, b);
    CellAfterUntouched(Blank, prefix, b);
    TotalesCells(index, totales, fila, |totales|, t, Blank, Blank);
  }

  /** In a body and totals write whose body succeeded, entry `t` of the totals sits in row fila = |registros| + 3 + t. */
  lemma LibroTotalsCell(env: Env, index: int, keys: seq<string>, registros: seq<Item>,
                        totales: seq<(string, string)>, t: nat, fila: int)
    requires t < |totales| && ValidSheetIndex(index) && fila == |registros| + 3 + t
    requires CuerpoPlan(env, index, keys, registros, |registros|).result.Ok?
    ensures CellAfter(Blank, LibroPlan(env, index, keys, registros, totales).ops, Address("A", fila)).value ==
            Some(Text(totales[t].0))
    ensures CellAfter(Blank, LibroPlan(env, index, keys, registros, totales).ops, Address("B", fila)).value ==
            Some(Text(totales[t].1))
  {
    LibroOps(env, index, keys, registros, totales);
    CuerpoRows(env, index, keys, registros, |registros|);
    TotalsAfter(LibroPlan(env, index, keys, registros, totales).ops,
                CuerpoPlan(env, index, keys, registros, |registros|).ops, index, totales, |registros| + 3, t, fila);
  }

  // ---------------------------------------------------------------------
  // Column overrides, auto-size and fixed widths

  /** The listed columns as the library keys them: each in capitals. */
  function UpperAll(columns: seq<string>): seq<string> {
    seq(|columns|, i requires 0 <= i < |columns| => Upper(columns[i]))
  }

  /**
   * Style `s` over rows 1..count of each column of `columns`, column after
   * column; only the capitalised listed columns are touched.
   */
  function ColumnsOps(s: RangeStyle, columns: seq<string>, count: int): (r: seq<Op>)
    ensures forall j :: 0 <= j < |r| ==>
      && r[j] == StyleOp(s, r[j].at)
      && r[j].at.column in UpperAll(columns)
      && 1 <= r[j].at.row <= count
    decreases |columns|
  {
    if columns == [] then []
    else
      var init := columns[..|columns| - 1];
      var p := ColumnsOps(s, init, count);
      assert UpperAll(columns) == UpperAll(init) + [Upper(columns[|columns| - 1])];
      p + RangeOps(s, Upper(columns[|columns| - 1]), count)
  }

  /** Every row 1..count of every listed column, in capitals, is styled. */
  lemma {:induction false} ColumnsOpsCover(s: RangeStyle, columns: seq<string>, count: int, column: string, row: int)
    returns (j: nat)
    requires column in columns && 1 <= row <= count
    ensures j < |ColumnsOps(s, columns, count)| && ColumnsOps(s, columns, count)[j].at == Address(Upper(column), row)
    decreases |columns|
  {
    var init, last := columns[..|columns| - 1], columns[|columns| - 1];
    var p := ColumnsOps(s, init, count);
    if column == last {
      j := |p| + row - 1;
    } else {
      assert columns == init + [last];
      j := ColumnsOpsCover(s, init, count, column, row);
    }
  }

  /**
   * The overrides of listado_base_xls over rows 1..count: centring for
   * `centers`, then the no-decimals currency code for `monedaSinDecimal`,
   * then the currency code for `moneda`.
   */
  function OverrideOps(centers: seq<string>, monedaSinDecimal: seq<string>, moneda: seq<string>, count: int): seq<Op> {
    ColumnsOps(Centered, centers, count)
      + ColumnsOps(NumberFormat(MonedaSinDecimal), monedaSinDecimal, count)
      + ColumnsOps(NumberFormat(CurrencyUsdSimple), moneda, count)
  }

  /** The overrides only style cells: values and the content style stay, and rows outside 1..count stay whole. */
  lemma OverridesKeep(centers: seq<string>, monedaSinDecimal: seq<string>, moneda: seq<string>, count: int,
                      c: Cell, a: Address)
    ensures var r := CellAfter(c, OverrideOps(centers, monedaSinDecimal, moneda, count), a);
      r.value == c.value && r.contentStyle == c.contentStyle
    ensures a.row < 1 || a.row > count ==> CellAfter(c, OverrideOps(centers, monedaSinDecimal, moneda, count), a) == c
  {
    var ops := OverrideOps(centers, monedaSinDecimal, moneda, count);
    var x, y, z := ColumnsOps(Centered, centers, count), ColumnsOps(NumberFormat(MonedaSinDecimal), monedaSinDecimal, count),
      ColumnsOps(NumberFormat(CurrencyUsdSimple), moneda, count);
    assert forall j :: 0 <= j < |ops| ==> ops[j] in x || ops[j] in y || ops[j] in z;
    StylesKeepValue(c, ops, a);
    if a.row < 1 || a.row > count {
      CellAfterUntouched(c, ops, a);
    }
  }

  /** A column listed in `moneda` ends with the currency code on rows 1..count, whatever else applied. */
  lemma OverrideMoneda(centers: seq<string>, monedaSinDecimal: seq<string>, moneda: seq<string>, count: int,
                       c: Cell, column: string, row: int)
    requires column in moneda && 1 <= row <= count
    ensures CellAfter(c, OverrideOps(centers, monedaSinDecimal, moneda, count), Address(Upper(column), row)).format ==
            Some(CurrencyUsdSimple)
  {
    var a := Address(Upper(column), row);
    var xy := ColumnsOps(Centered, centers, count) + ColumnsOps(NumberFormat(MonedaSinDecimal), monedaSinDecimal, count);
    var z := ColumnsOps(NumberFormat(CurrencyUsdSimple), moneda, count);
    CellAfterAppend(c, xy, z, a);
    var j := ColumnsOpsCover(NumberFormat(CurrencyUsdSimple), moneda, count, column, row);
    FormatsTo(CellAfter(c, xy, a), z, a, CurrencyUsdSimple, j);
  }

  /**
   * A column listed in `monedaSinDecimal`, and not in `moneda` under any
   * capitalisation, ends with the no-decimals code on rows 1..count.
   */
  lemma OverrideSinDecimal(centers: seq<string>, monedaSinDecimal: seq<string>, moneda: seq<string>, count: int,
                           c: Cell, column: string, row: int)
    requires column in monedaSinDecimal && 1 <= row <= count
    requires forall m :: m in moneda ==> Upper(m) != Upper(column)
    ensures CellAfter(c, OverrideOps(centers, monedaSinDecimal, moneda, count), Address(Upper(column), row)).format ==
            Some(MonedaSinDecimal)
  {
    var a := Address(Upper(column), row);
    var x := ColumnsOps(Centered, centers, count);
    var y := ColumnsOps(NumberFormat(MonedaSinDecimal), monedaSinDecimal, count);
    var z := ColumnsOps(NumberFormat(CurrencyUsdSimple), moneda, count);
    CellAfterAppend(c, x + y, z, a);
    CellAfterAppend(c, x, y, a);
    CellAfterUntouched(CellAfter(c, x + y, a), z, a);
    var j := ColumnsOpsCover(NumberFormat(MonedaSinDecimal), monedaSinDecimal, count, column, row);
    FormatsTo(CellAfter(c, x, a), y, a, MonedaSinDecimal, j);
  }

  /** A column listed in `centers` ends centred on rows 1..count. */
  lemma OverrideCenter(centers: seq<string>, monedaSinDecimal: seq<string>, moneda: seq<string>, count: int,
                       c: Cell, column: string, row: int)
    requires column in centers && 1 <= row <= count
    ensures CellAfter(c, OverrideOps(centers, monedaSinDecimal, moneda, count), Address(Upper(column), row)).centered
  {
    var a := Address(Upper(column), row);
    var x := ColumnsOps(Centered, centers, count);
    var y := ColumnsOps(NumberFormat(MonedaSinDecimal), monedaSinDecimal, count);
    var z := ColumnsOps(NumberFormat(CurrencyUsdSimple), moneda, count);
    CellAfterAppend(c, x + y, z, a);
    CellAfterAppend(c, x, y, a);
    var j := ColumnsOpsCover(Centered, centers, count, column, row);
    CenteredStays(c, x, a, j);
    FormatsKeepCentered(CellAfter(c, x, a), y, a);
    FormatsKeepCentered(CellAfter(c, x + y, a), z, a);
  }

  /** aplica_autosize over the first `n` columns: each turned to auto-size. */
  function AutoSizeColumns(autoSize: map<string, bool>, n: nat): (r: map<string, bool>)
    requires n <= ColumnCount
    ensures forall i :: 0 <= i < n ==> ColumnLabel(i) in r && r[ColumnLabel(i)]
    decreases n
  {
    if n == 0 then autoSize else AutoSizeColumns(autoSize, n - 1)[ColumnLabel(n - 1) := true]
  }

  /** Columns beyond the first `n` keep their auto-size setting. */
  lemma {:induction false} AutoSizeColumnsElsewhere(autoSize: map<string, bool>, n: nat, column: string)
    requires n <= ColumnCount && column !in Labels(n)
    ensures var r := AutoSizeColumns(autoSize, n);
      (column in r <==> column in autoSize) && (column in r ==> r[column] == autoSize[column])
    decreases n
  {
    if n > 0 {
      assert Labels(n) == Labels(n - 1) + [ColumnLabel(n - 1)];
      AutoSizeColumnsElsewhere(autoSize, n - 1, column);
    }
  }

  /**
   * aplica_autosize: auto-size on for the column of every key; a key with
   * no column letter fails after the 72 columns were set. On success the
   * operation returns the column table.
   */
  function AutosizePlan(autoSize: map<string, bool>, keys: seq<string>): (Result<(), ExportError>, map<string, bool>) {
    if |keys| <= ColumnCount then (Ok(()), AutoSizeColumns(autoSize, |keys|))
    else (Err(ColumnOverflow(ColumnCount)), AutoSizeColumns(autoSize, ColumnCount))
  }

  /** The fixed widths, in order: auto-size off and the width set, for each listed column in capitals. */
  function FixWidths(autoSize: map<string, bool>, widths: map<string, real>, sizes: seq<(string, real)>)
    : (map<string, bool>, map<string, real>)
    decreases |sizes|
  {
    if sizes == [] then (autoSize, widths)
    else
      var p := FixWidths(autoSize, widths, sizes[..|sizes| - 1]);
      var (column, width) := sizes[|sizes| - 1];
      (p.0[Upper(column) := false], p.1[Upper(column) := width])
  }

  /**
   * A column given a fixed width ends with auto-size off and the width of
   * its last entry (entries compared in capitals), whatever auto-size was
   * set to before.
   */
  lemma {:induction false} FixedWidthWins(autoSize: map<string, bool>, widths: map<string, real>,
                                          sizes: seq<(string, real)>, i: nat)
    requires i < |sizes| && forall j :: i < j < |sizes| ==> Upper(sizes[j].0) != Upper(sizes[i].0)
    ensures var r := FixWidths(autoSize, widths, sizes); var column := Upper(sizes[i].0);
      column in r.0 && !r.0[column] && column in r.1 && r.1[column] == sizes[i].1
    decreases |sizes|
  {
    if i < |sizes| - 1 {
      var init := sizes[..|sizes| - 1];
      assert init[i] == sizes[i];
      FixedWidthWins(autoSize, widths, init, i);
    }
  }

  /** A column that no entry names, in capitals, keeps its auto-size setting and width. */
  lemma {:induction false} FixWidthsElsewhere(autoSize: map<string, bool>, widths: map<string, real>,
                                              sizes: seq<(string, real)>, column: string)
    requires forall j :: 0 <= j < |sizes| ==> Upper(sizes[j].0) != column
    ensures var r := FixWidths(autoSize, widths, sizes);
      && (column in r.0 <==> column in autoSize) && (column in r.0 ==> r.0[column] == autoSize[column])
      && (column in r.1 <==> column in widths) && (column in r.1 ==> r.1[column] == widths[column])
    decreases |sizes|
  {
    if sizes != [] {
      FixWidthsElsewhere(autoSize, widths, sizes[..|sizes| - 1], column);
    }
  }

  // ---------------------------------------------------------------------
  // The whole listing

  /** genera_datos_libro: the document properties for `dato`, refused for a blank `dato`. */
  function DatosLibro(dato: string): (r: Result<Properties, ExportError>)
    ensures r.Err? <==> Trim(dato) == ""
    ensures r.Err? ==> r.error == EmptyName
    ensures r.Ok? ==> r.value.creator == "Sistema" && r.value.lastModifiedBy == "Sistema"
    ensures r.Ok? ==> r.value.title == dato && r.value.subject == dato && r.value.description == dato
                      && r.value.keywords == dato && r.value.category == dato
  {
    if Trim(dato) == "" then Err(EmptyName)
    else Ok(Properties("Sistema", "Sistema", dato, dato, dato, dato, dato))
  }

  /** The arguments of listado_base_xls besides the delivery mode and the base path. */
  datatype Listing = Listing(
    name: string,
    keys: seq<string>,
    registros: seq<Item>,
    totales: seq<(string, string)>,
    centers: seq<string>,
    index: int,
    moneda: seq<string>,
    monedaSinDecimal: seq<string>,
    sizeColumnas: seq<(string, real)>)

  /** A failed listing: the error and the document as far as it got. */
  datatype Failure = Failure(error: ExportError, at: Snapshot)

  /** The cells of a finished listing: headers, body and totals, then the overrides. */
  function ListadoCells(env: Env, l: Listing): Cells {
    var h := EncabezadosPlan(l.index, l.keys, |l.keys|).ops;
    var b := LibroPlan(env, l.index, l.keys, l.registros, l.totales).ops;
    Run(Run(Run(map[], h), b), OverrideOps(l.centers, l.monedaSinDecimal, l.moneda, |l.registros| + 1))
  }

  /**
   * The first phases of listado_base_xls, or the first failure among them: a
   * blank name, then the properties, the headers, the body and totals, and
   * the auto-size of the key columns.
   */
  function Preparado(env: Env, l: Listing): (r: Result<Snapshot, Failure>)
    ensures Trim(l.name) == "" ==> r == Err(Failure(EmptyName, NewSnapshot))
  {
    if Trim(l.name) == "" then Err(Failure(EmptyName, NewSnapshot))
    else
      match DatosLibro(l.name)
      case Err(e) => Err(Failure(e, NewSnapshot))
      case Ok(props) =>
        var s0 := NewSnapshot.(properties := props);
        var h := EncabezadosPlan(l.index, l.keys, |l.keys|);
        var s1 := s0.(cells := Run(s0.cells, h.ops));
        if h.result.Err? then Err(Failure(h.result.error, s1))
        else
          var b := LibroPlan(env, l.index, l.keys, l.registros, l.totales);
          var s2 := s1.(cells := Run(s1.cells, b.ops));
          if b.result.Err? then Err(Failure(b.result.error, s2))
          else
            var a := AutosizePlan(s2.autoSize, l.keys);
            var s3 := s2.(autoSize := a.1);
            if a.0.Err? then Err(Failure(a.0.error, s3)) else Ok(s3)
  }

  /** The last phases of listado_base_xls, which cannot fail: the sheet title, the fixed widths and the range overrides. */
  function Terminado(l: Listing, s: Snapshot): Snapshot {
    var w := FixWidths(s.autoSize, s.widths, l.sizeColumnas);
    var s4 := s.(title := FirstChars(l.name, 31), autoSize := w.0, widths := w.1);
    s4.(cells := Run(s4.cells, OverrideOps(l.centers, l.monedaSinDecimal, l.moneda, |l.registros| + 1)))
  }

  /**
   * The document listado_base_xls builds before it is written out, or the
   * first failure: the first phases, then a sheet title the document
   * refuses, then the last phases.
   */
  function ListadoLibro(env: Env, l: Listing): (r: Result<Snapshot, Failure>)
    ensures Trim(l.name) == "" ==> r == Err(Failure(EmptyName, NewSnapshot))
  {
    match Preparado(env, l)
    case Err(f) => Err(f)
    case Ok(s) =>
      var t := FirstChars(l.name, 31);
      if !ValidSheetTitle(t) then Err(Failure(InvalidSheetTitle(t), s)) else Ok(Terminado(l, s))
  }

  /** How listado_base_xls ends. */
  datatype Outcome =
    | Returned(data: string)          // the encoded file, when not streaming
    | ReturnedError(error: ExportError)
    | Streamed                        // written to the client, then the process exits
    | Died(error: ExportError)        // the error printed, then the process exits

  /** A failure is returned when not streaming, and ends the process when streaming. */
  function Fail(header: bool, e: ExportError): (o: Outcome)
    ensures o.Died? <==> header
    ensures o.Died? || o.ReturnedError?
  {
    if header then Died(e) else ReturnedError(e)
  }

  /**
   * The file writer, seen from the exporter: `stream` writes the file image
   * of a document to the client, `encode` writes it to a temporary file and
   * returns that file base64-encoded; either may fail with a message.
   */
  datatype Writer = Writer(stream: Snapshot -> Result<(), string>, encode: Snapshot -> Result<string, string>)

  /**
   * genera_salida_xls: a blank name fails; when streaming, the document is
   * written to the client and a write failure ends the process; otherwise
   * the encoded file is returned and a write failure is returned.
   */
  function Salida(header: bool, name: string, s: Snapshot, writer: Writer): (o: Outcome)
    ensures Trim(name) == "" ==> o == Fail(header, EmptyName)
    ensures Trim(name) != "" && header ==>
      o == (if writer.stream(s).Ok? then Streamed else Died(CodecFailure(writer.stream(s).error)))
    ensures Trim(name) != "" && !header ==>
      o == (if writer.encode(s).Ok? then Returned(writer.encode(s).value)
            else ReturnedError(CodecFailure(writer.encode(s).error)))
  {
    if Trim(name) == "" then Fail(header, EmptyName)
    else if header then
      match writer.stream(s)
      case Ok(_) => Streamed
      case Err(message) => Died(CodecFailure(message))
    else
      match writer.encode(s)
      case Ok(data) => Returned(data)
      case Err(message) => ReturnedError(CodecFailure(message))
  }

  /** listado_base_xls: how it ends and the document it leaves. */
  function Listado(env: Env, header: bool, l: Listing, writer: Writer): (r: (Outcome, Snapshot))
    ensures header <==> r.0.Streamed? || r.0.Died?
    ensures r.0.Returned? || r.0.Streamed? ==> ListadoLibro(env, l).Ok?
    ensures Trim(l.name) == "" ==> r == (Fail(header, EmptyName), NewSnapshot)
  {
    match ListadoLibro(env, l)
    case Err(f) => (Fail(header, f.error), f.at)
    case Ok(s) => (Salida(header, l.name, s, writer), s)
  }

  /** The document of a finished listing, in closed form. */
  function ListadoFinal(env: Env, l: Listing): Snapshot {
    var w := FixWidths(AutosizePlan(map[], l.keys).1, map[], l.sizeColumnas);
    Snapshot(ListadoCells(env, l), Properties("Sistema", "Sistema", l.name, l.name, l.name, l.name, l.name),
             FirstChars(l.name, 31), w.0, w.1)
  }

  /** The first phases, when they succeed, leave the header and body writes, the properties and the key columns auto-sized. */
  lemma PreparadoValue(env: Env, l: Listing)
    requires Preparado(env, l).Ok?
    ensures Preparado(env, l).value ==
      Snapshot(Run(Run(map[], EncabezadosPlan(l.index, l.keys, |l.keys|).ops),
                   LibroPlan(env, l.index, l.keys, l.registros, l.totales).ops),
               Properties("Sistema", "Sistema", l.name, l.name, l.name, l.name, l.name),
               "Worksheet", AutosizePlan(map[], l.keys).1, map[])
  {
  }

  /** A finished listing is the closed form: the writes of every phase, the properties, the title and the widths. */
  lemma ListadoLibroValue(env: Env, l: Listing)
    requires ListadoLibro(env, l).Ok?
    ensures ListadoLibro(env, l).value == ListadoFinal(env, l)
  {
    PreparadoValue(env, l);
  }

  /** What a finished listing has passed through. */
  lemma ListadoLibroOk(env: Env, l: Listing)
    requires ListadoLibro(env, l).Ok?
    ensures Trim(l.name) != "" && |l.keys| <= ColumnCount && ValidSheetTitle(FirstChars(l.name, 31))
    ensures EncabezadosPlan(l.index, l.keys, |l.keys|).result.Ok?
    ensures CuerpoPlan(env, l.index, l.keys, l.registros, |l.registros|).result.Ok?
    ensures |l.totales| > 0 ==> ValidSheetIndex(l.index)
  {
  }

  /** One cell of a finished listing, as the three phases of writes leave it. */
  lemma ListadoCell(env: Env, l: Listing, a: Address)
    ensures Get(ListadoCells(env, l), a) ==
      CellAfter(CellAfter(CellAfter(Blank, EncabezadosPlan(l.index, l.keys, |l.keys|).ops, a),
                          LibroPlan(env, l.index, l.keys, l.registros, l.totales).ops, a),
                OverrideOps(l.centers, l.monedaSinDecimal, l.moneda, |l.registros| + 1), a)
  {
    var h := EncabezadosPlan(l.index, l.keys, |l.keys|).ops;
    var b := LibroPlan(env, l.index, l.keys, l.registros, l.totales).ops;
    RunAt(map[], h, a);
    RunAt(Run(map[], h), b, a);
    RunAt(Run(Run(map[], h), b), OverrideOps(l.centers, l.monedaSinDecimal, l.moneda, |l.registros| + 1), a);
  }

  /** Below the headers, a cell of a listing holds what the body and totals wrote: the overrides only style it. */
  lemma ListadoBelowHeaders(env: Env, l: Listing, a: Address)
    requires ListadoLibro(env, l).Ok? && 2 <= a.row
    ensures Get(ListadoLibro(env, l).value.cells, a).value ==
            CellAfter(Blank, LibroPlan(env, l.index, l.keys, l.registros, l.totales).ops, a).value
    ensures Get(ListadoLibro(env, l).value.cells, a).contentStyle ==
            CellAfter(Blank, LibroPlan(env, l.index, l.keys, l.registros, l.totales).ops, a).contentStyle
  {
    ListadoLibroValue(env, l);
    var b := LibroPlan(env, l.index, l.keys, l.registros, l.totales).ops;
    ListadoCell(env, l, a);
    EncabezadosRow(l.index, l.keys, a);
    CellAfterUntouched(Blank, EncabezadosPlan(l.index, l.keys, |l.keys|).ops, a);
    OverridesKeep(l.centers, l.monedaSinDecimal, l.moneda, |l.registros| + 1, CellAfter(Blank, b, a), a);
  }

  /** In a finished listing row 1 holds the keys, key `i` in column `i`. */
  lemma ListadoHeaders(env: Env, l: Listing, i: nat)
    requires ListadoLibro(env, l).Ok? && i < |l.keys|
    ensures Get(ListadoLibro(env, l).value.cells, Address(ColumnLabel(i), 1)).value == Some(Text(l.keys[i]))
  {
    ListadoLibroOk(env, l);
    ListadoLibroValue(env, l);
    var a := Address(ColumnLabel(i), 1);
    ListadoCell(env, l, a);
    EncabezadosCells(l.index, l.keys, Blank, i);
    var h := EncabezadosPlan(l.index, l.keys, |l.keys|).ops;
    LibroRows(env, l.index, l.keys, l.registros, l.totales);
    CellAfterUntouched(CellAfter(Blank, h, a), LibroPlan(env, l.index, l.keys, l.registros, l.totales).ops, a);
    OverridesKeep(l.centers, l.monedaSinDecimal, l.moneda, |l.registros| + 1,
                  CellAfter(Blank, h, a), a);
  }

  /**
   * In a finished listing the cell of key `i` in row k + 2 holds field
   * keys[i] of record `k` as written (trimmed, or as a date serial), with the
   * content style, and stays empty when the field is unset or null.
   */
  lemma ListadoBody(env: Env, l: Listing, k: nat, i: nat)
    requires ListadoLibro(env, l).Ok? && k < |l.registros| && i < |l.keys|
    ensures l.registros[k].Fields?
    ensures var cell := Get(ListadoLibro(env, l).value.cells, Address(ColumnLabel(i), k + 2));
      var field := FieldCell(env, l.registros[k].fields, l.keys[i]);
      cell.value == field && cell.contentStyle == field.Some?
  {
    ListadoLibroOk(env, l);
    ListadoLibroValue(env, l);
    LibroBodyCell(env, l.index, l.keys, l.registros, l.totales, k, i);
    DatosCell(env, l.keys[i], k + 2, l.index, i, l.registros[k].fields, Blank);
    ListadoBelowHeaders(env, l, Address(ColumnLabel(i), k + 2));
  }

  /**
   * In a finished listing, entry `t` of the totals sits in row
   * fila = |registros| + 3 + t: its label in column A and its value in column B.
   */
  lemma ListadoTotals(env: Env, l: Listing, t: nat, fila: int)
    requires ListadoLibro(env, l).Ok? && t < |l.totales| && fila == |l.registros| + 3 + t
    ensures Get(ListadoLibro(env, l).value.cells, Address("A", fila)).value == Some(Text(l.totales[t].0))
    ensures Get(ListadoLibro(env, l).value.cells, Address("B", fila)).value == Some(Text(l.totales[t].1))
  {
    ListadoLibroOk(env, l);
    LibroTotalsCell(env, l.index, l.keys, l.registros, l.totales, t, fila);
    ListadoBelowHeaders(env, l, Address("A", fila));
    ListadoBelowHeaders(env, l, Address("B", fila));
  }

  /** In a finished listing the row between the body and the totals is blank in every column. */
  lemma ListadoSeparator(env: Env, l: Listing, column: string)
    requires ListadoLibro(env, l).Ok?
    ensures Get(ListadoLibro(env, l).value.cells, Address(column, |l.registros| + 2)) == Blank
  {
    ListadoLibroValue(env, l);
    var a := Address(column, |l.registros| + 2);
    var h := EncabezadosPlan(l.index, l.keys, |l.keys|).ops;
    var b := LibroPlan(env, l.index, l.keys, l.registros, l.totales).ops;
    ListadoCell(env, l, a);
    EncabezadosRow(l.index, l.keys, a);
    LibroRows(env, l.index, l.keys, l.registros, l.totales);
    CellAfterUntouched(Blank, h, a);
    CellAfterUntouched(Blank, b, a);
    OverridesKeep(l.centers, l.monedaSinDecimal, l.moneda, |l.registros| + 1, Blank, a);
  }

  /**
   * In a finished listing, rows 1..|registros| + 1 of a `moneda` column carry
   * the currency code, those of a `monedaSinDecimal` column not also in
   * `moneda` the no-decimals code, and those of a `centers` column are centred.
   */
  lemma ListadoOverrides(env: Env, l: Listing, column: string, row: int)
    requires ListadoLibro(env, l).Ok? && 1 <= row <= |l.registros| + 1
    ensures var cell := Get(ListadoLibro(env, l).value.cells, Address(Upper(column), row));
      && (column in l.moneda ==> cell.format == Some(CurrencyUsdSimple))
      && (column in l.monedaSinDecimal && (forall m :: m in l.moneda ==> Upper(m) != Upper(column)) ==>
            cell.format == Some(MonedaSinDecimal))
      && (column in l.centers ==> cell.centered)
  {
    ListadoLibroValue(env, l);
    var a := Address(Upper(column), row);
    var h := EncabezadosPlan(l.index, l.keys, |l.keys|).ops;
    var b := LibroPlan(env, l.index, l.keys, l.registros, l.totales).ops;
    var before := CellAfter(CellAfter(Blank, h, a), b, a);
    var count := |l.registros| + 1;
    ListadoCell(env, l, a);
    if column in l.moneda {
      OverrideMoneda(l.centers, l.monedaSinDecimal, l.moneda, count, before, column, row);
    }
    if column in l.monedaSinDecimal && forall m :: m in l.moneda ==> Upper(m) != Upper(column) {
      OverrideSinDecimal(l.centers, l.monedaSinDecimal, l.moneda, count, before, column, row);
    }
    if column in l.centers {
      OverrideCenter(l.centers, l.monedaSinDecimal, l.moneda, count, before, column, row);
    }
  }

  /**
   * In a finished listing a column given a fixed width has auto-size off and
   * the width of its last entry, even when it is the column of a key and was
   * auto-sized before.
   */
  lemma ListadoFixedWidth(env: Env, l: Listing, i: nat)
    requires ListadoLibro(env, l).Ok? && i < |l.sizeColumnas|
    requires forall j :: i < j < |l.sizeColumnas| ==> Upper(l.sizeColumnas[j].0) != Upper(l.sizeColumnas[i].0)
    ensures var s := ListadoLibro(env, l).value; var column := Upper(l.sizeColumnas[i].0);
      column in s.autoSize && !s.autoSize[column] && column in s.widths && s.widths[column] == l.sizeColumnas[i].1
  {
    ListadoLibroValue(env, l);
    FixedWidthWins(AutosizePlan(map[], l.keys).1, map[], l.sizeColumnas, i);
  }

  /** In a finished listing the column of every key that has no fixed width is auto-sized. */
  lemma ListadoAutoSize(env: Env, l: Listing, i: nat)
    requires ListadoLibro(env, l).Ok? && i < |l.keys|
    requires forall j :: 0 <= j < |l.sizeColumnas| ==> Upper(l.sizeColumnas[j].0) != ColumnLabel(i)
    ensures var s := ListadoLibro(env, l).value;
      ColumnLabel(i) in s.autoSize && s.autoSize[ColumnLabel(i)]
  {
    ListadoLibroOk(env, l);
    ListadoLibroValue(env, l);
    FixWidthsElsewhere(AutoSizeColumns(map[], |l.keys|), map[], l.sizeColumnas, ColumnLabel(i));
  }

  // ---------------------------------------------------------------------
  // The exporter

  /**
   * The exporter object: the column and style tables built by its
   * constructor, the catalog and strtotime it consults, and the document it
   * creates on construction.
   */
  class Exportador {
    const columnas: seq<string> := Columnas
    const estilos: map<string, string> := Estilos
    const env: Env
    var libro: Workbook

    constructor (env: Env)
      ensures this.env == env
      ensures fresh(libro) && libro.State() == NewSnapshot
    {
      this.env := env;
      libro := new Workbook();
    }

    /** estilos_format: the style key of the classifier's first matching rule, when it is truthy. */
    method EstilosFormat(valor: string) returns (estilo: Option<string>)
      ensures estilo == StyleFor(env.catalog, valor)
      ensures match FirstMatch(env.catalog.rules, env.catalog.matches, valor)
        case Some(k) => estilo == (if Truthy(env.catalog.rules[k].xls) then Some(env.catalog.rules[k].xls.value) else None)
        case None => estilo == None
    {
      var patterns := new Patterns(env.catalog.rules, env.catalog.matches, valor);
      estilo := None;
      if Truthy(patterns.tipoXls) {
        estilo := Some(patterns.tipoXls.value);
      }
    }

    /** genera_datos_libro: sets the document properties from `dato`, refusing a blank one. */
    method GeneraDatosLibro(dato: string, libro: Workbook) returns (r: Result<Properties, ExportError>)
      modifies libro`properties
      ensures r == DatosLibro(dato)
      ensures libro.properties == if r.Ok? then r.value else old(libro.properties)
    {
      if Trim(dato) == "" {
        return Err(EmptyName);
      }
      var props := Properties("Sistema", "Sistema", dato, dato, dato, dato, dato);
      libro.SetProperties(props);
      return Ok(props);
    }

    /** genera_encabezados: the keys into row 1, key `i` in column `i`. */
    method GeneraEncabezados(index: int, keys: seq<string>, libro: Workbook) returns (r: Result<(), ExportError>)
      modifies libro`cells
      ensures r == EncabezadosPlan(index, keys, |keys|).result
      ensures libro.cells == Run(old(libro.cells), EncabezadosPlan(index, keys, |keys|).ops)
    {
      var i := 0;
      while i < |keys|
        invariant 0 <= i <= |keys|
        invariant EncabezadosPlan(index, keys, i).result.Ok?
        invariant libro.cells == Run(old(libro.cells), EncabezadosPlan(index, keys, i).ops)
      {
        var ok := libro.SetActiveSheetIndex(index);
        if !ok {
          EncabezadosErrStable(index, keys, i + 1, |keys|);
          return Err(SheetIndexOutOfRange(index));
        }
        if i >= |columnas| {
          EncabezadosErrStable(index, keys, i + 1, |keys|);
          return Err(ColumnOverflow(i));
        }
        var op := SetValue(Address(columnas[i], 1), Text(keys[i]));
        RunSnoc(old(libro.cells), EncabezadosPlan(index, keys, i).ops, op);
        libro.Apply(op);
        i := i + 1;
      }
      return Ok(());
    }

    /** llena_datos_xls: field `campo` of `registro` into column `numeroColumna` of row `fila`. */
    method LlenaDatosXls(campo: string, fila: int, index: int, libro: Workbook,
                         numeroColumna: int, registro: Registro) returns (r: Result<Registro, ExportError>)
      modifies libro`cells
      ensures r == DatosPlan(env, campo, fila, index, numeroColumna, registro).result
      ensures libro.cells == Run(old(libro.cells), DatosPlan(env, campo, fila, index, numeroColumna, registro).ops)
    {
      if numeroColumna < 0 {
        return Err(NegativeColumn(numeroColumna));
      }
      if fila < 0 {
        return Err(NegativeRow(fila));
      }
      if numeroColumna >= |columnas| {
        return Err(ColumnOverflow(numeroColumna));
      }
      if IsSet(registro, campo) {
        if registro[campo].Composite? {
          return Err(NonScalarCell(campo));
        }
        var valor := Trim(registro[campo].text);
        var celda := Address(columnas[numeroColumna], fila);
        var estilo := EstilosFormat(valor);
        var dato := DatoCelda(env.strToTime, valor, estilo);
        var ok := libro.SetActiveSheetIndex(index);
        if !ok {
          return Err(SheetIndexOutOfRange(index));
        }
        var written := [SetValue(celda, dato), ApplyContentStyle(celda)];
        libro.ApplyAll(written);
        if estilo.Some? {
          if estilo.value !in estilos {
            return Err(UnknownStyle(estilo.value));
          }
          var op := SetFormatCode(celda, estilos[estilo.value]);
          RunSnoc(old(libro.cells), written, op);
          libro.Apply(op);
        }
      }
      return Ok(registro);
    }

    /** llena_registro_xls: the fields named by `keys` into row `fila`, stopping at the first error. */
    method LlenaRegistroXls(fila: int, index: int, keys: seq<string>, libro: Workbook,
                            registro: Registro) returns (r: Result<seq<Registro>, ExportError>)
      modifies libro`cells
      ensures r == RegistroPlan(env, fila, index, keys, registro, |keys|).result
      ensures libro.cells == Run(old(libro.cells), RegistroPlan(env, fila, index, keys, registro, |keys|).ops)
    {
      var data: seq<Registro> := [];
      var i := 0;
      while i < |keys|
        invariant 0 <= i <= |keys|
        invariant RegistroPlan(env, fila, index, keys, registro, i).result == Ok(data)
        invariant libro.cells == Run(old(libro.cells), RegistroPlan(env, fila, index, keys, registro, i).ops)
      {
        ghost var p := RegistroPlan(env, fila, index, keys, registro, i);
        var llenado := LlenaDatosXls(keys[i], fila, index, libro, i, registro);
        RunAppend(old(libro.cells), p.ops, DatosPlan(env, keys[i], fila, index, i, registro).ops);
        if llenado.Err? {
          RegistroErrStable(env, fila, index, keys, registro, i + 1, |keys|);
          return Err(llenado.error);
        }
        data := data + [llenado.value];
        i := i + 1;
      }
      return Ok(data);
    }

    /**
     * One pass of the records loop of llena_libro_xls: record `k` into row
     * `fila` = k + 2, after the first `k` records were written from `cells0`.
     */
    method LlenaFilaXls(index: int, keys: seq<string>, libro: Workbook, registros: seq<Item>,
                        k: nat, fila: int, ghost cells0: Cells) returns (r: Result<(), ExportError>)
      requires k < |registros| && fila == k + 2
      requires CuerpoPlan(env, index, keys, registros, k).result.Ok?
      requires libro.cells == Run(cells0, CuerpoPlan(env, index, keys, registros, k).ops)
      modifies libro`cells
      ensures r.Ok? ==> && CuerpoPlan(env, index, keys, registros, k + 1).result.Ok?
                        && libro.cells == Run(cells0, CuerpoPlan(env, index, keys, registros, k + 1).ops)
      ensures r.Err? ==> && r == CuerpoPlan(env, index, keys, registros, |registros|).result
                         && libro.cells == Run(cells0, CuerpoPlan(env, index, keys, registros, |registros|).ops)
    {
      if registros[k].NotArray? {
        CuerpoHalts(env, index, keys, registros, k);
        return Err(NotARecord(k));
      }
      ghost var before := libro.cells;
      var llenado := LlenaRegistroXls(fila, index, keys, libro, registros[k].fields);
      CuerpoAdvances(env, index, keys, registros, k, fila, cells0, before, libro.cells, llenado);
      if llenado.Err? {
        return Err(llenado.error);
      }
      return Ok(());
    }

    /** The records loop of llena_libro_xls: record `k` into row k + 2; returns the row after the last record. */
    method LlenaCuerpoXls(index: int, keys: seq<string>, libro: Workbook, registros: seq<Item>)
      returns (r: Result<(), ExportError>, fila: int)
      modifies libro`cells
      ensures r == CuerpoPlan(env, index, keys, registros, |registros|).result
      ensures libro.cells == Run(old(libro.cells), CuerpoPlan(env, index, keys, registros, |registros|).ops)
      ensures r.Ok? ==> fila == |registros| + 2
    {
      fila := 2;
      for k := 0 to |registros|
        invariant fila == k + 2
        invariant CuerpoPlan(env, index, keys, registros, k).result.Ok?
        invariant libro.cells == Run(old(libro.cells), CuerpoPlan(env, index, keys, registros, k).ops)
      {
        var paso := LlenaFilaXls(index, keys, libro, registros, k, fila, old(libro.cells));
        if paso.Err? {
          return paso, fila;
        }
        fila := fila + 1;
      }
      return Ok(()), fila;
    }

    /** The totals loop of llena_libro_xls: entry `t` into row fila + t. */
    method LlenaTotalesXls(index: int, libro: Workbook, totales: seq<(string, string)>, fila: int)
      returns (r: Result<(), ExportError>)
      modifies libro`cells
      ensures r == TotalesPlan(index, totales, fila, |totales|).result
      ensures libro.cells == Run(old(libro.cells), TotalesPlan(index, totales, fila, |totales|).ops)
    {
      var actual := fila;
      var t := 0;
      while t < |totales|
        invariant 0 <= t <= |totales| && actual == fila + t
        invariant TotalesPlan(index, totales, fila, t).result.Ok?
        invariant libro.cells == Run(old(libro.cells), TotalesPlan(index, totales, fila, t).ops)
      {
        TotalesStep(index, totales, fila, t, actual);
        var ok := libro.SetActiveSheetIndex(index);
        if !ok {
          TotalesErrStable(index, totales, fila, t + 1, |totales|);
          return Err(SheetIndexOutOfRange(index));
        }
        var row := TotalRow(actual, totales[t].0, totales[t].1);
        RunAppend(old(libro.cells), TotalesPlan(index, totales, fila, t).ops, row);
        libro.ApplyAll(row);
        actual := actual + 1;
        t := t + 1;
      }
      return Ok(());
    }

    /** llena_libro_xls: the records from row 2, a blank row, then one row per totals entry; returns the records. */
    method LlenaLibroXls(index: int, keys: seq<string>, libro: Workbook, registros: seq<Item>,
                         totales: seq<(string, string)>) returns (r: Result<seq<Item>, ExportError>)
      modifies libro`cells
      ensures r == LibroPlan(env, index, keys, registros, totales).result
      ensures libro.cells == Run(old(libro.cells), LibroPlan(env, index, keys, registros, totales).ops)
    {
      var cuerpo, fila := LlenaCuerpoXls(index, keys, libro, registros);
      if cuerpo.Err? {
        return Err(cuerpo.error);
      }
      fila := fila + 1;
      ghost var c := libro.cells;
      var totalizado := LlenaTotalesXls(index, libro, totales, fila);
      LibroOps(env, index, keys, registros, totales);
      RunAppend(old(libro.cells), CuerpoPlan(env, index, keys, registros, |registros|).ops,
                TotalesPlan(index, totales, |registros| + 3, |totales|).ops);
      if totalizado.Err? {
        return Err(totalizado.error);
      }
      return Ok(registros);
    }

    /** aplica_autosize: auto-size on for the column of every key; on success the column table. */
    method AplicaAutosize(keys: seq<string>, libro: Workbook) returns (r: Result<seq<string>, ExportError>)
      modifies libro`autoSize
      ensures r.Ok? <==> AutosizePlan(old(libro.autoSize), keys).0.Ok?
      ensures r.Ok? ==> r.value == columnas
      ensures r.Err? ==> r.error == AutosizePlan(old(libro.autoSize), keys).0.error
      ensures libro.autoSize == AutosizePlan(old(libro.autoSize), keys).1
    {
      var i := 0;
      while i < |keys|
        invariant 0 <= i <= |keys| && i <= ColumnCount
        invariant libro.autoSize == AutoSizeColumns(old(libro.autoSize), i)
      {
        if i >= |columnas| {
          return Err(ColumnOverflow(i));
        }
        LabelUpper(i);
        libro.SetAutoSize(columnas[i], true);
        i := i + 1;
      }
      return Ok(columnas);
    }

    /** The fixed widths of listado_base_xls, in order. */
    method FijaAnchos(libro: Workbook, sizes: seq<(string, real)>)
      modifies libro`autoSize, libro`widths
      ensures (libro.autoSize, libro.widths) == FixWidths(old(libro.autoSize), old(libro.widths), sizes)
    {
      for j := 0 to |sizes|
        invariant (libro.autoSize, libro.widths) == FixWidths(old(libro.autoSize), old(libro.widths), sizes[..j])
      {
        assert sizes[..j + 1][..j] == sizes[..j];
        libro.SetAutoSize(sizes[j].0, false);
        libro.SetWidth(sizes[j].0, sizes[j].1);
      }
      assert sizes[..|sizes|] == sizes;
    }

    /** One of the override loops of listado_base_xls: style `s` over rows 1..count of each column. */
    method EstiloColumnas(libro: Workbook, s: RangeStyle, columns: seq<string>, count: int)
      modifies libro`cells
      ensures libro.cells == Run(old(libro.cells), ColumnsOps(s, columns, count))
    {
      for j := 0 to |columns|
        invariant libro.cells == Run(old(libro.cells), ColumnsOps(s, columns[..j], count))
      {
        assert columns[..j + 1][..j] == columns[..j];
        RunAppend(old(libro.cells), ColumnsOps(s, columns[..j], count), RangeOps(s, Upper(columns[j]), count));
        libro.StyleRange(s, columns[j], count);
      }
      assert columns[..|columns|] == columns;
    }

    /** genera_salida_xls, with the file writer passed in as `writer`. */
    method GeneraSalidaXls(header: bool, libro: Workbook, name: string, writer: Writer) returns (o: Outcome)
      ensures o == Salida(header, name, libro.State(), writer)
    {
      if Trim(name) == "" {
        return Fail(header, EmptyName);
      }
      if header {
        var sent := writer.stream(libro.State());
        if sent.Err? {
          return Died(CodecFailure(sent.error));
        }
        return Streamed;
      }
      var data := writer.encode(libro.State());
      if data.Err? {
        return ReturnedError(CodecFailure(data.error));
      }
      return Returned(data.value);
    }

    /**
     * The first phases of listado_base_xls on a new document: the
     * properties, the headers, the body and totals, and the auto-size of the
     * key columns, stopping at the first failure.
     */
    method PreparaLibro(l: Listing, generado: Workbook) returns (r: Result<(), ExportError>)
      requires Trim(l.name) != "" && generado.State() == NewSnapshot
      modifies generado
      ensures r.Ok? ==> Preparado(env, l) == Ok(generado.State())
      ensures r.Err? ==> Preparado(env, l) == Err(Failure(r.error, generado.State()))
    {
      // The name is not blank, so the properties are always set.
      var datos := GeneraDatosLibro(l.name, generado);
      var encabezados := GeneraEncabezados(l.index, l.keys, generado);
      if encabezados.Err? {
        return Err(encabezados.error);
      }
      var llenado := LlenaLibroXls(l.index, l.keys, generado, l.registros, l.totales);
      if llenado.Err? {
        return Err(llenado.error);
      }
      var autosize := AplicaAutosize(l.keys, generado);
      if autosize.Err? {
        return Err(autosize.error);
      }
      return Ok(());
    }

    /**
     * The last phases of listado_base_xls, once the sheet title is set: the
     * fixed widths, then centring, the no-decimals currency code and the
     * currency code over rows 1..|registros| + 1 of their columns.
     */
    method TerminaLibro(l: Listing, generado: Workbook)
      requires generado.title == FirstChars(l.name, 31)
      modifies generado
      ensures generado.State() == Terminado(l, old(generado.State()))
    {
      var _ := generado.SetActiveSheetIndex(0);
      FijaAnchos(generado, l.sizeColumnas);
      var count := |l.registros| + 1;
      ghost var c := generado.cells;
      EstiloColumnas(generado, Centered, l.centers, count);
      EstiloColumnas(generado, NumberFormat(MonedaSinDecimal), l.monedaSinDecimal, count);
      EstiloColumnas(generado, NumberFormat(CurrencyUsdSimple), l.moneda, count);
      RunAppend(c, ColumnsOps(Centered, l.centers, count),
                ColumnsOps(NumberFormat(MonedaSinDecimal), l.monedaSinDecimal, count));
      RunAppend(c, ColumnsOps(Centered, l.centers, count)
                   + ColumnsOps(NumberFormat(MonedaSinDecimal), l.monedaSinDecimal, count),
                ColumnsOps(NumberFormat(CurrencyUsdSimple), l.moneda, count));
    }

    /** listado_base_xls: builds the document of a listing in a new workbook and delivers it. */
    method ListadoBaseXls(header: bool, name: string, keys: seq<string>, registros: seq<Item>,
                          totales: seq<(string, string)>, centers: seq<string>, index: int,
                          moneda: seq<string>, monedaSinDecimal: seq<string>,
                          sizeColumnas: seq<(string, real)>, writer: Writer)
      returns (o: Outcome, generado: Workbook)
      ensures fresh(generado)
      ensures (o, generado.State()) == Listado(env, header,
        Listing(name, keys, registros, totales, centers, index, moneda, monedaSinDecimal, sizeColumnas), writer)
    {
      var l := Listing(name, keys, registros, totales, centers, index, moneda, monedaSinDecimal, sizeColumnas);
      generado := new Workbook();
      if Trim(name) == "" {
        return Fail(header, EmptyName), generado;
      }
      var preparado := PreparaLibro(l, generado);
      if preparado.Err? {
        return Fail(header, preparado.error), generado;
      }
      ghost var prepared := generado.State();
      var titulo := FirstChars(name, 31);
      var ok := generado.SetTitle(titulo);
      if !ok {
        return Fail(header, InvalidSheetTitle(titulo)), generado;
      }
      TerminaLibro(l, generado);
      assert generado.State() == Terminado(l, prepared);
      o := GeneraSalidaXls(header, generado, name, writer);
    }
  }
}
