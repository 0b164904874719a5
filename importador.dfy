/**
 * The import normalizer: turns the grid of cells read from a spreadsheet
 * (row 0 is the header) into records keyed by column name, stripping
 * single quotes and normalising designated date columns to `Y-m-d`.
 *
 * The spreadsheet codec, the filesystem and the date library are not
 * modelled: an `Env` hands the model what `IOFactory`, `file_exists`, the
 * cell-reference validator, `rangeToArray` and the date functions return.
 */
module Importador {
  import opened Wrappers
  import opened Php

  /** One row of cells as read from the sheet; `None` is a null cell. */
  type Row = seq<Option<string>>
  type Grid = seq<Row>

  /** A record: the properties of the object built for one data row. */
  type Record = map<string, Option<string>>

  datatype ImportError =
    | EmptyCeldaInicio
    | EmptyInputFileType
    | EmptyRutaAbsoluta
    | FileNotFound(ruta: string)
    | InvalidCell(celda: string)
    | IdentifyFailure(ruta: string)
    | ReadFailure(message: string)
    | NoFirstRow
    | ColumnCountMismatch(columnas: seq<string>)
    | InvalidColumnName(columna: string)
    | InvalidDateFormat(value: string)

  /** How far down the sheet a read goes: the highest row, or a given row. */
  datatype RowLimit = HighestRow | UpToRow(row: int)

  /** The date library, as the importer uses it. */
  datatype DateLib = DateLib(
    strToTime: StrToTime,             // strtotime()
    phpToExcel: string -> Option<real>, // Date::PHPToExcel(); None is `false`
    isNumeric: string -> bool,        // is_numeric() on a string
    toNumber: string -> real,         // the number a numeric string denotes
    excelToYmd: real -> string)       // Date::excelToDateTimeObject($x)->format('Y-m-d')

  /** Everything the importer obtains from outside. */
  datatype Env = Env(
    identify: string -> Option<string>,  // IOFactory::identify(); None when it throws
    fileExists: string -> bool,          // file_exists()
    validCell: string -> bool,           // the validator's check of a cell reference
    readRange: (string, string, string, RowLimit) -> Result<Grid, string>,
                                         // (inputFileType, ruta, celda_inicio, limit): load the
                                         // first sheet and return the range; Err is a caught exception
    dates: DateLib)

  /** The ordered pre-checks done before a file is opened; the first failing one is reported. */
  function ValidaInCalc(env: Env, celdaInicio: string, inputFileType: string, rutaAbsoluta: string)
    : (r: Result<bool, ImportError>)
    ensures r.Ok? <==>
      && Trim(celdaInicio) != "" && Trim(inputFileType) != "" && Trim(rutaAbsoluta) != ""
      && env.fileExists(Trim(rutaAbsoluta)) && env.validCell(Trim(celdaInicio))
    ensures r.Ok? ==> r.value
    ensures r == Err(EmptyCeldaInicio) <==> Trim(celdaInicio) == ""
    ensures r == Err(EmptyInputFileType) <==> Trim(celdaInicio) != "" && Trim(inputFileType) == ""
    ensures r == Err(EmptyRutaAbsoluta) <==>
      Trim(celdaInicio) != "" && Trim(inputFileType) != "" && Trim(rutaAbsoluta) == ""
    ensures r == Err(FileNotFound(Trim(rutaAbsoluta))) <==>
      && Trim(celdaInicio) != "" && Trim(inputFileType) != "" && Trim(rutaAbsoluta) != ""
      && !env.fileExists(Trim(rutaAbsoluta))
    ensures r == Err(InvalidCell(Trim(celdaInicio))) <==>
      && Trim(celdaInicio) != "" && Trim(inputFileType) != "" && Trim(rutaAbsoluta) != ""
      && env.fileExists(Trim(rutaAbsoluta)) && !env.validCell(Trim(celdaInicio))
  {
    var celda := Trim(celdaInicio);
    if celda == "" then Err(EmptyCeldaInicio)
    else
      var tipo := Trim(inputFileType);
      if tipo == "" then Err(EmptyInputFileType)
      else
        var ruta := Trim(rutaAbsoluta);
        if ruta == "" then Err(EmptyRutaAbsoluta)
        else if !env.fileExists(ruta) then Err(FileNotFound(ruta))
        else if !env.validCell(celda) then Err(InvalidCell(celda))
        else Ok(true)
  }

  /** The row limit of a read: -1 reads to the highest row, any other value up to that row. */
  function LimitOf(maxCellRow: int): RowLimit {
    if maxCellRow == -1 then HighestRow else UpToRow(maxCellRow)
  }

  /**
   * Validates the parameters, then reads the range starting at `celdaInicio`
   * down to row `maxCellRow` (or to the last row when it is -1).
   */
  function Rows(env: Env, celdaInicio: string, inputFileType: string, rutaAbsoluta: string, maxCellRow: int)
    : (r: Result<Grid, ImportError>)
    ensures ValidaInCalc(env, celdaInicio, inputFileType, rutaAbsoluta).Err? ==>
      r == Err(ValidaInCalc(env, celdaInicio, inputFileType, rutaAbsoluta).error)
    ensures r.Ok? <==>
      ValidaInCalc(env, celdaInicio, inputFileType, rutaAbsoluta).Ok? &&
      env.readRange(inputFileType, rutaAbsoluta, celdaInicio, LimitOf(maxCellRow)).Ok?
    ensures ValidaInCalc(env, celdaInicio, inputFileType, rutaAbsoluta).Ok? ==>
      var read := env.readRange(inputFileType, rutaAbsoluta, celdaInicio, LimitOf(maxCellRow));
      && (read.Ok? ==> r == Ok(read.value))
      && (read.Err? ==> r == Err(ReadFailure(read.error)))
  {
    var valida := ValidaInCalc(env, celdaInicio, inputFileType, rutaAbsoluta);
    if valida.Err? then Err(valida.error)
    else
      var limit := LimitOf(maxCellRow);
      match env.readRange(inputFileType, rutaAbsoluta, celdaInicio, limit)
      case Ok(grid) => Ok(grid)
      case Err(message) => Err(ReadFailure(message))
  }

  /** A cell after str_replace("'", "", ...); null stays null. */
  function StripCell(raw: Option<string>): Option<string>
  {
    match raw
    case None => None
    case Some(s) => Some(StripQuotes(s))
  }

  /** Whether strtotime() yields a truthy value (a timestamp other than 0). */
  predicate ParsesAsDate(dates: DateLib, v: string) {
    dates.strToTime(v).Some? && dates.strToTime(v).value != 0
  }

  /**
   * A non-empty date-column value: parsed and turned into a serial number if
   * strtotime() accepts it, required to be numeric, then formatted `Y-m-d`.
   */
  function DateToYmd(v: string, dates: DateLib): (r: Result<string, ImportError>)
    ensures r.Err? <==>
      if ParsesAsDate(dates, v) then dates.phpToExcel(v).None? else !dates.isNumeric(v)
    ensures r.Err? ==> r.error == InvalidDateFormat(v)
    ensures r.Ok? && ParsesAsDate(dates, v) ==> r.value == dates.excelToYmd(dates.phpToExcel(v).value)
    ensures r.Ok? && !ParsesAsDate(dates, v) ==> r.value == dates.excelToYmd(dates.toNumber(v))
  {
    if ParsesAsDate(dates, v) then
      match dates.phpToExcel(v)
      case Some(serial) => Ok(dates.excelToYmd(serial))
      case None => Err(InvalidDateFormat(v))
    else if dates.isNumeric(v) then Ok(dates.excelToYmd(dates.toNumber(v)))
    else Err(InvalidDateFormat(v))
  }

  /**
   * PHP's loose `==` on two strings: two numeric strings are equal when
   * the numbers they denote are ("1" and "01"); any other pair only when
   * the strings are identical.
   */
  predicate LooseEquals(dates: DateLib, a: string, b: string) {
    if dates.isNumeric(a) && dates.isNumeric(b) then dates.toNumber(a) == dates.toNumber(b) else a == b
  }

  /** in_array($x, $xs) with its default loose comparison. */
  function InArray(dates: DateLib, x: string, xs: seq<string>): bool
  {
    xs != [] && (LooseEquals(dates, x, xs[0]) || InArray(dates, x, xs[1..]))
  }

  /** in_array finds `x` exactly when some entry is loosely equal to it; an entry equal to `x` is always found. */
  lemma {:induction false} InArrayIff(dates: DateLib, x: string, xs: seq<string>)
    ensures InArray(dates, x, xs) <==> exists i :: 0 <= i < |xs| && LooseEquals(dates, x, xs[i])
    ensures x in xs ==> InArray(dates, x, xs)
  {
    if xs != [] {
      InArrayIff(dates, x, xs[1..]);
      if exists i :: 0 <= i < |xs| && LooseEquals(dates, x, xs[i]) {
        var i :| 0 <= i < |xs| && LooseEquals(dates, x, xs[i]);
        if i > 0 {
          assert xs[1..][i - 1] == xs[i];
        }
      }
      if InArray(dates, x, xs[1..]) {
        var i :| 0 <= i < |xs| - 1 && LooseEquals(dates, x, xs[1..][i]);
        assert xs[i + 1] == xs[1..][i];
      }
      if x in xs && x != xs[0] {
        assert x in xs[1..];
      }
    }
  }

  /**
   * The value stored for one cell under column `columna`: the stripped cell,
   * replaced by its `Y-m-d` form when the column is a date column and the
   * stripped value is not empty() in PHP's sense.
   */
  function FieldValue(columna: string, raw: Option<string>, fechas: seq<string>, dates: DateLib)
    : (r: Result<Option<string>, ImportError>)
    ensures raw.None? ==> r == Ok(None)
    ensures !InArray(dates, columna, fechas) ==> r == Ok(StripCell(raw))
    ensures IsEmpty(StripCell(raw)) ==> r == Ok(StripCell(raw))
  {
    var v := StripCell(raw);
    if InArray(dates, columna, fechas) && !IsEmpty(v) then
      match DateToYmd(v.value, dates)
      case Ok(ymd) => Ok(Some(ymd))
      case Err(e) => Err(e)
    else Ok(v)
  }

  /** PHP refuses a property name that starts with NUL; the empty name "" is accepted. */
  predicate ValidPropertyName(columna: string) {
    columna == "" || columna[0] != '\0'
  }

  /** The record built from the first `k` cells of a row whose width matches the header. */
  function RowFields(row: Row, columnas: seq<string>, fechas: seq<string>, dates: DateLib, k: nat)
    : Result<Record, ImportError>
    requires k <= |row| <= |columnas|
  {
    if k == 0 then Ok(map[])
    else
      match RowFields(row, columnas, fechas, dates, k - 1)
      case Err(e) => Err(e)
      case Ok(rec) =>
        var columna := columnas[k - 1];
        if !ValidPropertyName(columna) then Err(InvalidColumnName(columna))
        else
          match FieldValue(columna, row[k - 1], fechas, dates)
          case Err(e) => Err(e)
          case Ok(v) => Ok(rec[columna := v])
  }

  /**
   * One data row: an empty row gives an empty record without any check, a
   * row of another width than the header is an error, any other row is
   * filled cell by cell.
   */
  function NormalizeRow(row: Row, columnas: seq<string>, fechas: seq<string>, dates: DateLib)
    : Result<Record, ImportError>
  {
    if |row| == 0 then Ok(map[])
    else if |row| != |columnas| then Err(ColumnCountMismatch(columnas))
    else RowFields(row, columnas, fechas, dates, |row|)
  }

  /** The records of a list of data rows, in order, or the error of the first failing row. */
  function Records(rows: seq<Row>, columnas: seq<string>, fechas: seq<string>, dates: DateLib)
    : Result<seq<Record>, ImportError>
  {
    if rows == [] then Ok([])
    else
      match Records(rows[..|rows| - 1], columnas, fechas, dates)
      case Err(e) => Err(e)
      case Ok(rs) =>
        match NormalizeRow(rows[|rows| - 1], columnas, fechas, dates)
        case Err(e) => Err(e)
        case Ok(rec) => Ok(rs + [rec])
  }

  /** The records of a whole grid: every row but the header row 0. */
  function Normalize(grid: Grid, columnas: seq<string>, fechas: seq<string>, dates: DateLib)
    : Result<seq<Record>, ImportError>
  {
    if |grid| == 0 then Ok([]) else Records(grid[1..], columnas, fechas, dates)
  }

  /** What leer_registros yields for a file: identify it, read it whole, normalise the grid. */
  function ReadRecords(env: Env, rutaAbsoluta: string, columnas: seq<string>, fechas: seq<string>, inicio: string)
    : Result<seq<Record>, ImportError>
  {
    match env.identify(rutaAbsoluta)
    case None => Err(IdentifyFailure(rutaAbsoluta))
    case Some(inputFileType) =>
      match Rows(env, inicio, inputFileType, rutaAbsoluta, -1)
      case Err(e) => Err(e)
      case Ok(grid) => Normalize(grid, columnas, fechas, env.dates)
  }

  /** Once a prefix of the cells fails, the row fails with that error. */
  lemma {:induction false} RowFieldsErrStable(row: Row, columnas: seq<string>, fechas: seq<string>, dates: DateLib, k: nat, n: nat)
    requires k <= n <= |row| <= |columnas|
    requires RowFields(row, columnas, fechas, dates, k).Err?
    ensures RowFields(row, columnas, fechas, dates, n) == RowFields(row, columnas, fechas, dates, k)
  {
    if n > k {
      RowFieldsErrStable(row, columnas, fechas, dates, k, n - 1);
    }
  }

  /** Once a prefix of the rows fails, the whole read fails with that error. */
  lemma {:induction false} RecordsErrStable(rows: seq<Row>, columnas: seq<string>, fechas: seq<string>, dates: DateLib, k: nat)
    requires k <= |rows|
    requires Records(rows[..k], columnas, fechas, dates).Err?
    ensures Records(rows, columnas, fechas, dates) == Records(rows[..k], columnas, fechas, dates)
  {
    if k < |rows| {
      var init := rows[..|rows| - 1];
      assert init[..k] == rows[..k];
      RecordsErrStable(init, columnas, fechas, dates, k);
    } else {
      assert rows[..k] == rows;
    }
  }

  /**
   * The body of leer_registros' outer loop for one data row: walks the
   * cells, checking the row's width against the header at every cell, and
   * fills the record field by field.
   */
  method FillRecord(row: Row, columnas: seq<string>, fechas: seq<string>, dates: DateLib)
    returns (r: Result<Record, ImportError>)
    ensures r == NormalizeRow(row, columnas, fechas, dates)
  {
    var registros: Record := map[];
    var j := 0;
    while j < |row|
      invariant 0 <= j <= |row|
      invariant j > 0 ==> |row| == |columnas| && RowFields(row, columnas, fechas, dates, j) == Ok(registros)
      invariant j == 0 ==> registros == map[]
    {
      if |row| != |columnas| {
        return Err(ColumnCountMismatch(columnas));
      }
      var columna := columnas[j];
      if !ValidPropertyName(columna) {
        RowFieldsErrStable(row, columnas, fechas, dates, j + 1, |row|);
        return Err(InvalidColumnName(columna));
      }
      ghost var before := registros;
      assert RowFields(row, columnas, fechas, dates, j) == Ok(before);
      registros := registros[columna := StripCell(row[j])];
      if InArray(dates, columna, fechas) && !IsEmpty(registros[columna]) {
        var fecha := DateToYmd(registros[columna].value, dates);
        if fecha.Err? {
          RowFieldsErrStable(row, columnas, fechas, dates, j + 1, |row|);
          return Err(fecha.error);
        }
        registros := registros[columna := Some(fecha.value)];
      }
      assert FieldValue(columna, row[j], fechas, dates) == Ok(registros[columna]);
      assert registros == before[columna := registros[columna]];
      j := j + 1;
    }
    r := Ok(registros);
  }

  /** One more data row: row `i` is normalised after the rows before it, and a failure ends the read. */
  lemma RecordsStep(rows: Grid, columnas: seq<string>, fechas: seq<string>, dates: DateLib, i: int, salida: seq<Record>)
    requires 1 <= i < |rows| && Records(rows[1..i], columnas, fechas, dates) == Ok(salida)
    ensures NormalizeRow(rows[i], columnas, fechas, dates).Ok? ==>
      Records(rows[1..i + 1], columnas, fechas, dates) == Ok(salida + [NormalizeRow(rows[i], columnas, fechas, dates).value])
    ensures NormalizeRow(rows[i], columnas, fechas, dates).Err? ==>
      Records(rows[1..], columnas, fechas, dates) == Err(NormalizeRow(rows[i], columnas, fechas, dates).error)
  {
    assert rows[1..i + 1][..i - 1] == rows[1..i];
    assert rows[1..i + 1][i - 1] == rows[i];
    if NormalizeRow(rows[i], columnas, fechas, dates).Err? {
      assert rows[1..][..i] == rows[1..i + 1];
      RecordsErrStable(rows[1..], columnas, fechas, dates, i);
    }
  }

  /**
   * leer_registros: identifies and reads the file from `inicio`, then walks
   * the data rows (index 1 on), building one record per row. A width
   * mismatch, a bad column name or a bad date value abandons the whole read.
   */
  method LeerRegistros(env: Env, rutaAbsoluta: string, columnas: seq<string>, fechas: seq<string>, inicio: string)
    returns (r: Result<seq<Record>, ImportError>)
    ensures r == ReadRecords(env, rutaAbsoluta, columnas, fechas, inicio)
  {
    var inputFileType := env.identify(rutaAbsoluta);
    if inputFileType.None? {
      return Err(IdentifyFailure(rutaAbsoluta));
    }
    var read := Rows(env, inicio, inputFileType.value, rutaAbsoluta, -1);
    if read.Err? {
      return Err(read.error);
    }
    var rows := read.value;
    var salida: seq<Record> := [];
    var i := 1;
    while i < |rows|
      invariant |rows| == 0 ==> i == 1 && salida == []
      invariant |rows| > 0 ==> 1 <= i <= |rows| && Records(rows[1..i], columnas, fechas, env.dates) == Ok(salida)
    {
      var registros := FillRecord(rows[i], columnas, fechas, env.dates);
      RecordsStep(rows, columnas, fechas, env.dates, i, salida);
      if registros.Err? {
        return Err(registros.error);
      }
      salida := salida + [registros.value];
      i := i + 1;
    }
    assert |rows| > 0 ==> rows[1..i] == rows[1..];
    r := Ok(salida);
  }

  /**
   * primer_row: the first row of the range read from `celdaInicio` with the
   * row limit 1, i.e. the header row.
   */
  function PrimerRow(env: Env, celdaInicio: string, rutaAbsoluta: string): (r: Result<Row, ImportError>)
    ensures r.Ok? ==>
      && env.identify(rutaAbsoluta).Some?
      && ValidaInCalc(env, celdaInicio, env.identify(rutaAbsoluta).value, rutaAbsoluta).Ok?
      && var grid := env.readRange(env.identify(rutaAbsoluta).value, rutaAbsoluta, celdaInicio, UpToRow(1));
         grid.Ok? && |grid.value| > 0 && r.value == grid.value[0]
    ensures env.identify(rutaAbsoluta).None? ==> r == Err(IdentifyFailure(rutaAbsoluta))
    ensures env.identify(rutaAbsoluta).Some? &&
            ValidaInCalc(env, celdaInicio, env.identify(rutaAbsoluta).value, rutaAbsoluta).Err? ==>
      r == Err(ValidaInCalc(env, celdaInicio, env.identify(rutaAbsoluta).value, rutaAbsoluta).error)
    ensures env.identify(rutaAbsoluta).Some? &&
            ValidaInCalc(env, celdaInicio, env.identify(rutaAbsoluta).value, rutaAbsoluta).Ok? ==>
      var grid := env.readRange(env.identify(rutaAbsoluta).value, rutaAbsoluta, celdaInicio, UpToRow(1));
      && (grid.Err? ==> r == Err(ReadFailure(grid.error)))
      && (grid.Ok? && |grid.value| == 0 ==> r == Err(NoFirstRow))
      && (grid.Ok? && |grid.value| > 0 ==> r == Ok(grid.value[0]))
  {
    match env.identify(rutaAbsoluta)
    case None => Err(IdentifyFailure(rutaAbsoluta))
    case Some(inputFileType) =>
      match Rows(env, celdaInicio, inputFileType, rutaAbsoluta, 1)
      case Err(e) => Err(e)
      case Ok(grid) => if |grid| == 0 then Err(NoFirstRow) else Ok(grid[0])
  }

  /** The property names PHP uses for the header cells: a null cell names the property "". */
  function ColumnNames(header: Row): (names: seq<string>)
    ensures |names| == |header|
    ensures forall j :: 0 <= j < |header| ==> names[j] == (if header[j].Some? then header[j].value else "")
  {
    if header == [] then []
    else [if header[0].Some? then header[0].value else ""] + ColumnNames(header[1..])
  }

  /** The result of leer: the header row and the records under it. */
  datatype Datos = Datos(columns: Row, rows: seq<Record>)

  /**
   * leer: reads the header row from A1, then the records of the whole file
   * under those column names (no date columns); the first error wins.
   */
  method Leer(env: Env, rutaAbsoluta: string) returns (r: Result<Datos, ImportError>)
    ensures PrimerRow(env, "A1", rutaAbsoluta).Err? ==> r == Err(PrimerRow(env, "A1", rutaAbsoluta).error)
    ensures PrimerRow(env, "A1", rutaAbsoluta).Ok? ==>
      var columns := PrimerRow(env, "A1", rutaAbsoluta).value;
      var rows := ReadRecords(env, rutaAbsoluta, ColumnNames(columns), [], "A1");
      r == if rows.Err? then Err(rows.error) else Ok(Datos(columns, rows.value))
  {
    var columns := PrimerRow(env, "A1", rutaAbsoluta);
    if columns.Err? {
      return Err(columns.error);
    }
    var rows := LeerRegistros(env, rutaAbsoluta, ColumnNames(columns.value), [], "A1");
    if rows.Err? {
      return Err(rows.error);
    }
    r := Ok(Datos(columns.value, rows.value));
  }

  /** The read succeeds exactly when every data row does; then there is one record per row, in order. */
  lemma {:induction false} RecordsOk(rows: seq<Row>, columnas: seq<string>, fechas: seq<string>, dates: DateLib)
    ensures Records(rows, columnas, fechas, dates).Ok? <==>
      forall k :: 0 <= k < |rows| ==> NormalizeRow(rows[k], columnas, fechas, dates).Ok?
    ensures Records(rows, columnas, fechas, dates).Ok? ==>
      var rs := Records(rows, columnas, fechas, dates).value;
      |rs| == |rows| && forall k :: 0 <= k < |rows| ==> NormalizeRow(rows[k], columnas, fechas, dates) == Ok(rs[k])
  {
    if rows != [] {
      var init := rows[..|rows| - 1];
      RecordsOk(init, columnas, fechas, dates);
      assert forall k :: 0 <= k < |init| ==> init[k] == rows[k];
    }
  }

  /** A failed read reports the error of the first data row that fails. */
  lemma {:induction false} RecordsFirstError(rows: seq<Row>, columnas: seq<string>, fechas: seq<string>, dates: DateLib)
    requires Records(rows, columnas, fechas, dates).Err?
    ensures exists k :: (0 <= k < |rows|
      && NormalizeRow(rows[k], columnas, fechas, dates) == Err(Records(rows, columnas, fechas, dates).error)
      && forall j :: 0 <= j < k ==> NormalizeRow(rows[j], columnas, fechas, dates).Ok?)
  {
    var init := rows[..|rows| - 1];
    assert forall k :: 0 <= k < |init| ==> init[k] == rows[k];
    if Records(init, columnas, fechas, dates).Err? {
      RecordsFirstError(init, columnas, fechas, dates);
      var k :| 0 <= k < |init|
        && NormalizeRow(init[k], columnas, fechas, dates) == Err(Records(init, columnas, fechas, dates).error)
        && forall j :: 0 <= j < k ==> NormalizeRow(init[j], columnas, fechas, dates).Ok?;
      assert NormalizeRow(rows[k], columnas, fechas, dates) == Err(Records(rows, columnas, fechas, dates).error);
    } else {
      RecordsOk(init, columnas, fechas, dates);
      var k := |rows| - 1;
      assert NormalizeRow(rows[k], columnas, fechas, dates) == Err(Records(rows, columnas, fechas, dates).error);
    }
  }

  /** Row 0 is the header: a grid of n >= 1 rows gives n - 1 records, record k built from row k + 1. */
  lemma ReadSkipsHeader(grid: Grid, columnas: seq<string>, fechas: seq<string>, dates: DateLib)
    requires Normalize(grid, columnas, fechas, dates).Ok?
    ensures |Normalize(grid, columnas, fechas, dates).value| == if |grid| == 0 then 0 else |grid| - 1
    ensures forall k :: 0 <= k < |Normalize(grid, columnas, fechas, dates).value| ==>
      NormalizeRow(grid[k + 1], columnas, fechas, dates) == Ok(Normalize(grid, columnas, fechas, dates).value[k])
  {
    if |grid| > 0 {
      RecordsOk(grid[1..], columnas, fechas, dates);
      assert forall k :: 0 <= k < |grid| - 1 ==> grid[1..][k] == grid[k + 1];
    }
  }

  /**
   * A non-empty data row of another width than the header fails the whole
   * read; when every data row before it is fine, the error is the width
   * mismatch.
   */
  lemma WidthMismatchFails(grid: Grid, columnas: seq<string>, fechas: seq<string>, dates: DateLib, k: nat)
    requires 1 <= k < |grid| && |grid[k]| != 0 && |grid[k]| != |columnas|
    ensures Normalize(grid, columnas, fechas, dates).Err?
    ensures (forall j :: 1 <= j < k ==> NormalizeRow(grid[j], columnas, fechas, dates).Ok?) ==>
      Normalize(grid, columnas, fechas, dates) == Err(ColumnCountMismatch(columnas))
  {
    var rows := grid[1..];
    assert rows[k - 1] == grid[k];
    RecordsOk(rows, columnas, fechas, dates);
    if forall j :: 1 <= j < k ==> NormalizeRow(grid[j], columnas, fechas, dates).Ok? {
      var before := rows[..k - 1];
      assert forall j :: 0 <= j < |before| ==> before[j] == grid[j + 1];
      RecordsOk(before, columnas, fechas, dates);
      assert rows[..k][..k - 1] == before;
      assert rows[..k][k - 1] == grid[k];
      RecordsErrStable(rows, columnas, fechas, dates, k);
    }
  }

  /** The cells of a row fill the record exactly when every column name is usable and every value converts. */
  lemma {:induction false} RowFieldsOkIff(row: Row, columnas: seq<string>, fechas: seq<string>, dates: DateLib, k: nat)
    requires k <= |row| <= |columnas|
    ensures RowFields(row, columnas, fechas, dates, k).Ok? <==>
      forall j :: 0 <= j < k ==>
        ValidPropertyName(columnas[j]) && FieldValue(columnas[j], row[j], fechas, dates).Ok?
  {
    if k > 0 {
      RowFieldsOkIff(row, columnas, fechas, dates, k - 1);
    }
  }

  /**
   * A filled record has one field per column name, and the field named by
   * column j holds cell j as FieldValue converts it when no later column
   * has the same name: of columns sharing a name, the last one wins.
   */
  lemma {:induction false} RowFieldsContent(row: Row, columnas: seq<string>, fechas: seq<string>, dates: DateLib, k: nat)
    requires k <= |row| <= |columnas|
    requires RowFields(row, columnas, fechas, dates, k).Ok?
    ensures var rec := RowFields(row, columnas, fechas, dates, k).value;
      && rec.Keys == (set j | 0 <= j < k :: columnas[j])
      && forall j :: 0 <= j < k && (forall i :: j < i < k ==> columnas[i] != columnas[j]) ==>
           FieldValue(columnas[j], row[j], fechas, dates) == Ok(rec[columnas[j]])
  {
    if k > 0 {
      RowFieldsContent(row, columnas, fechas, dates, k - 1);
      var rec := RowFields(row, columnas, fechas, dates, k).value;
      var prev := RowFields(row, columnas, fechas, dates, k - 1).value;
      var columna := columnas[k - 1];
      var v := FieldValue(columna, row[k - 1], fechas, dates);
      assert v.Ok? && rec == prev[columna := v.value];
      assert (set j | 0 <= j < k :: columnas[j]) == (set j | 0 <= j < k - 1 :: columnas[j]) + {columna};
      forall j | 0 <= j < k && (forall i :: j < i < k ==> columnas[i] != columnas[j])
        ensures FieldValue(columnas[j], row[j], fechas, dates) == Ok(rec[columnas[j]])
      {
        if j < k - 1 {
          assert columnas[k - 1] != columnas[j];
          assert rec[columnas[j]] == prev[columnas[j]];
        }
      }
    }
  }

  /**
   * The record of data row k: a field per column name; the field named by
   * column j, the last column with that name (several blank header cells
   * all name ""), holds the cell with its quotes removed (null staying
   * null) when the column is not a date column or its stripped value is
   * empty(), and the `Y-m-d` form of the value in a date column.
   */
  lemma RecordFields(grid: Grid, columnas: seq<string>, fechas: seq<string>, dates: DateLib, k: nat, j: nat)
    requires Normalize(grid, columnas, fechas, dates).Ok?
    requires 1 <= k < |grid| && |grid[k]| > 0 && j < |columnas|
    requires forall i :: j < i < |columnas| ==> columnas[i] != columnas[j]
    ensures |grid[k]| == |columnas|
    ensures |Normalize(grid, columnas, fechas, dates).value| == |grid| - 1
    ensures var rec := Normalize(grid, columnas, fechas, dates).value[k - 1];
      var v := StripCell(grid[k][j]);
      && rec.Keys == (set c | c in columnas)
      && (!InArray(dates, columnas[j], fechas) || IsEmpty(v) ==> rec[columnas[j]] == v)
      && (InArray(dates, columnas[j], fechas) && !IsEmpty(v) ==>
            rec[columnas[j]].Some? && DateToYmd(v.value, dates) == Ok(rec[columnas[j]].value))
  {
    ReadSkipsHeader(grid, columnas, fechas, dates);
    var row := grid[k];
    assert NormalizeRow(grid[(k - 1) + 1], columnas, fechas, dates) == Ok(Normalize(grid, columnas, fechas, dates).value[k - 1]);
    RowFieldsContent(row, columnas, fechas, dates, |row|);
    assert (set i | 0 <= i < |row| :: columnas[i]) == (set c | c in columnas) by {
      forall c | c in columnas ensures c in (set i | 0 <= i < |row| :: columnas[i]) {
        var i :| 0 <= i < |columnas| && columnas[i] == c;
      }
    }
  }

  /**
   * A date-column value that is not empty() and that neither converts as a
   * date nor is numeric fails the whole read.
   */
  lemma InvalidDateFails(grid: Grid, columnas: seq<string>, fechas: seq<string>, dates: DateLib, k: nat, j: nat)
    requires 1 <= k < |grid| && |grid[k]| == |columnas| && j < |columnas|
    requires InArray(dates, columnas[j], fechas) && !IsEmpty(StripCell(grid[k][j]))
    requires DateToYmd(StripCell(grid[k][j]).value, dates).Err?
    ensures Normalize(grid, columnas, fechas, dates).Err?
  {
    var rows := grid[1..];
    assert rows[k - 1] == grid[k];
    RowFieldsOkIff(grid[k], columnas, fechas, dates, |grid[k]|);
    RecordsOk(rows, columnas, fechas, dates);
  }

  /**
   * A header with a blank cell still reads: the blank cell names the
   * property "", and the data row under it fills that property.
   */
  lemma BlankHeaderCell(dates: DateLib)
    ensures var header := [Some("id"), None];
      Normalize([header, [Some("1"), Some("x")]], ColumnNames(header), [], dates) ==
      Ok([map["id" := Some("1"), "" := Some("x")]])
  {
    var header: Row := [Some("id"), None];
    var row: Row := [Some("1"), Some("x")];
    var grid := [header, row];
    assert ColumnNames(header) == ["id", ""];
    assert StripQuotes("1") == "1" && StripQuotes("x") == "x";
    var cols := ["id", ""];
    assert !InArray(dates, "id", []) && !InArray(dates, "", []);
    assert RowFields(row, cols, [], dates, 1) == Ok(map["id" := Some("1")]);
    assert RowFields(row, cols, [], dates, 2) == Ok(map["id" := Some("1"), "" := Some("x")]);
    assert NormalizeRow(row, cols, [], dates) == Ok(map["id" := Some("1"), "" := Some("x")]);
    var rows := [row];
    assert grid[1..] == rows;
    assert rows[..|rows| - 1] == [] && rows[|rows| - 1] == row;
    assert Records(rows[..|rows| - 1], cols, [], dates) == Ok([]);
    var rec := map["id" := Some("1"), "" := Some("x")];
    assert [] + [rec] == [rec];
    assert Records(rows, cols, [], dates) == Ok([rec]);
    assert Normalize(grid, cols, [], dates) == Ok([rec]);
  }

  /**
   * Two blank header cells both name the property "": the value under the
   * second one is the one the record keeps.
   */
  lemma TwoBlankHeaderCells(dates: DateLib)
    ensures var header := [Some("id"), None, None];
      Normalize([header, [Some("1"), Some("x"), Some("y")]], ColumnNames(header), [], dates) ==
      Ok([map["id" := Some("1"), "" := Some("y")]])
  {
    var header: Row := [Some("id"), None, None];
    var row: Row := [Some("1"), Some("x"), Some("y")];
    var grid := [header, row];
    assert ColumnNames(header) == ["id", "", ""];
    assert StripQuotes("1") == "1" && StripQuotes("x") == "x" && StripQuotes("y") == "y";
    var cols := ["id", "", ""];
    assert !InArray(dates, "id", []) && !InArray(dates, "", []);
    assert RowFields(row, cols, [], dates, 1) == Ok(map["id" := Some("1")]);
    assert RowFields(row, cols, [], dates, 2) == Ok(map["id" := Some("1"), "" := Some("x")]);
    assert map["id" := Some("1"), "" := Some("x")]["" := Some("y")] == map["id" := Some("1"), "" := Some("y")];
    assert RowFields(row, cols, [], dates, 3) == Ok(map["id" := Some("1"), "" := Some("y")]);
    var rec := map["id" := Some("1"), "" := Some("y")];
    assert NormalizeRow(row, cols, [], dates) == Ok(rec);
    var rows := [row];
    assert grid[1..] == rows;
    assert rows[..|rows| - 1] == [] && rows[|rows| - 1] == row;
    assert Records(rows[..|rows| - 1], cols, [], dates) == Ok([]);
    assert [] + [rec] == [rec];
    assert Records(rows, cols, [], dates) == Ok([rec]);
    assert Normalize(grid, cols, [], dates) == Ok([rec]);
  }

  /**
   * A quote inside a value disappears on import and the text around it is
   * kept (O'Brien becomes OBrien).
   */
  lemma QuoteInsideValue(columna: string, fechas: seq<string>, dates: DateLib, a: string, b: string)
    requires '\'' !in a && '\'' !in b && !InArray(dates, columna, fechas)
    ensures FieldValue(columna, Some(a + ['\''] + b), fechas, dates) == Ok(Some(a + b))
  {
    StripInnerQuote(a, b);
    assert StripCell(Some(a + ['\''] + b)) == Some(a + b);
  }
}
