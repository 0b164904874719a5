# Spreadsheet plugin core, modelled in Dafny

This project models the three parts of the `gamboamartin/plugins` spreadsheet
plugin that carry sequential logic:

- **the pattern classifier** (`patterns::data`): an ordered list of rules
  `(expresion, tipo_dato, xls)` is scanned and the first rule whose expression
  matches a value decides its data type and its export style key;
- **the importer** (`Importador`): the pre-checks of a read
  (`valida_in_calc`), the header row (`primer_row`), and the normalisation of
  the grid read from a sheet into records keyed by column name
  (`leer_registros`, `leer`), with quotes stripped and date columns
  converted to `Y-m-d`;
- **the exporter** (`exportador`): the 72-entry column table and the style
  table, the document properties, the header row, one row per record with
  a number format chosen by the classifier for each cell, a blank row, the
  totals, and then the column overrides of `listado_base_xls` (auto-size,
  fixed widths, centring and currency formats).

Files:

- `wrappers.dfy` holds `Option` and `Result`.
- `php.dfy` holds the PHP built-ins the core relies on, written out on
  strings: `trim`, `str_replace("'", "", …)`, `empty()`, truthiness and
  `substr`.
- `patterns.dfy` holds the rule scan, as a function and as the `Patterns`
  class whose `Data` method walks the rules with a loop.
- `importador.dfy` holds the importer. The record-building loops of
  `leer_registros` are methods proved against the functions `Records`,
  `NormalizeRow` and `RowFields`.
- `workbook.dfy` holds the part of a spreadsheet document the exporter
  writes to, as a `Workbook` class. Every cell write is an `Op`; `Run`
  replays a list of writes over the cell map.
- `exportador.dfy` holds the exporter. Each step is specified by a `Plan`:
  the result the step returns together with the list of cell writes it
  performs, in order, up to the point where it stops. Each method of class
  `Exportador` ensures that the workbook's cells are the old cells with
  the step's writes replayed, and that its result is the step's result.
  The lemmas then state what those writes leave in each cell.

The regular-expression engine, the date library and the spreadsheet file
codec are parameters:

- A `Catalog` carries the rule list together with a matching relation.
- A `DateLib` carries `strtotime`, `PHPToExcel`, `is_numeric` and the
  `Y-m-d` formatter.
- An importer `Env` carries `IOFactory::identify`, `file_exists`, the
  cell-reference validator and the range read.
- A `Writer` streams a finished document to the client, or writes it to a file and returns it encoded. Either may fail with a message.

The global error flag `errores::$error` becomes a `Result`. Each error
the PHP code reports is a constructor of `ImportError` or `ExportError`.

## Model

| member | source | states |
|---|---|---|
| Php.TrimLeftSpec | src/exportador.php:366 | ltrim keeps a suffix of the input, drops only trim characters, and stops at the first other character |
| Php.TrimRightSpec | src/exportador.php:366 | rtrim keeps a prefix of the input, drops only trim characters, and stops at the last other character |
| Php.TrimInfix | src/Importador.php:175-186 | trim() keeps the infix left once the trim characters at both ends are dropped; that infix neither starts nor ends with a trim character |
| Php.TrimLeftAllTrim | src/exportador.php:93 | a string made only of trim characters is dropped entirely by ltrim |
| Php.TrimEmptyIff | src/exportador.php:93-95 | a string trims to "" exactly when every character is a trim character, which is when the blank-name checks fire |
| Php.TrimIdempotent | src/Importador.php:175-186 | trimming twice is trimming once |
| Php.StripQuotes | src/Importador.php:81 | the result of str_replace("'", "", s) contains no single quote |
| Php.StripQuotesCounts | src/Importador.php:81 | stripping removes exactly the quotes: the length drops by the number of quotes and every other character keeps its count |
| Php.StripQuotesConcat | src/Importador.php:81 | stripping distributes over concatenation, so the kept characters stay in order |
| Php.StripQuotesNoQuote | src/Importador.php:81 | a string without quotes is left unchanged |
| Php.StripInnerQuote | src/Importador.php:81 | a quote between two quote-free strings disappears and the two strings are joined |
| Php.StripQuotesIdempotent | src/Importador.php:81 | stripping a stripped string changes nothing |
| Php.FirstChars | src/exportador.php:276 | substr($s, 0, 31) is a prefix of at most 31 characters: the whole string when it is short enough, exactly 31 characters otherwise |
| Patterns.FirstMatch | src/patterns.php:44-53 | the position found holds a matching rule and no earlier rule matches; no position is found exactly when no rule matches |
| Patterns.ClassificationIsFirstMatch | src/patterns.php:44-48 | when rule k matches and no earlier rule does, (tipo_dato, tipo_xls) are rule k's fields |
| Patterns.ClassificationNoMatch | src/patterns.php:42-53 | with no matching rule both results are false |
| Patterns.FirstMatchAppend | src/patterns.php:44-53 | scanning two rule lists one after the other: the first list decides if one of its rules matches, otherwise the second does, at a shifted position |
| Patterns.RulesAfterMatchIrrelevant | src/patterns.php:51 | replacing every rule after the first match by other rules leaves the classification unchanged |
| Patterns.Patterns.constructor | src/patterns.php:17-33 | loads the rule list, starts with an empty `data` object and classifies the value: the fields hold the first match's pair, or false and false |
| Patterns.Patterns.Data | src/patterns.php:40-55 | resets both fields, then sets them from the first matching rule (false and false without one); `data` mirrors them on a match and keeps its earlier contents otherwise; exactly k + 1 rules are tried when rule k is the first match, all of them without a match; the rule list is a constant field |
| Importador.ValidaInCalc | src/Importador.php:173-196 | succeeds (with true) exactly when the trimmed cell, file type and path are non-empty, the file exists and the cell is valid; each of the five failures (blank cell, blank file type, blank path, missing file, invalid cell) is reported exactly when it is the first check to fail, with the trimmed path or cell |
| Importador.Rows | src/Importador.php:127-153 | a failed validation is passed on unchanged; after a successful validation, a successful read of the range up to the highest row (limit -1) or up to the given row is returned as it is, and a failed read is reported as ReadFailure with its message; the result is Ok exactly when both succeed |
| Importador.DateToYmd | src/Importador.php:83-93 | fails exactly when the value parses as a date but has no serial number, or does not parse and is not numeric; otherwise it formats the serial number (or the number itself) as Y-m-d |
| Importador.FieldValue | src/Importador.php:80-93 | a null cell stays null; outside the date columns, matched loosely as in_array does, and for a value that is empty() once stripped, the field is the cell with its quotes removed |
| Importador.InArrayIff | src/Importador.php:83 | in_array with loose comparison: a column is a date column exactly when some entry equals it, as numbers when both are numeric strings and as text otherwise; an exact match always counts |
| Importador.FillRecord | src/Importador.php:73-95 | the inner loop over one row's cells builds exactly the record NormalizeRow specifies, or its error |
| Importador.LeerRegistros | src/Importador.php:60-99 | identifies the file, reads it whole, and walks the data rows from index 1; the result is exactly ReadRecords: every record in order, or the first error |
| Importador.PrimerRow | src/Importador.php:101-111 | an unidentifiable file is IdentifyFailure; a failed validation is passed on; after it, a failed read of the range with the row limit 1 is ReadFailure, an empty range is NoFirstRow, and otherwise the result is element 0 of the range |
| Importador.ColumnNames | src/Importador.php:39 | the header cells become the property names one for one, a null cell naming the property "" |
| Importador.Leer | src/Importador.php:32-50 | reads the header row from A1, then the records of the whole file under those names with no date columns; either error is passed on; on success the header and the records are returned together |
| Importador.RowFieldsErrStable | src/Importador.php:74-90 | once a cell of a row fails, the row fails with that error |
| Importador.RecordsErrStable | src/Importador.php:72-96 | once a data row fails, the whole read fails with that error and no partial list |
| Importador.RecordsStep | src/Importador.php:72-96 | one more data row appends its record, or ends the whole read with its error |
| Importador.RecordsOk | src/Importador.php:72-98 | the read succeeds exactly when every data row does; then there is one record per row, in row order |
| Importador.RecordsFirstError | src/Importador.php:72-96 | a failed read reports the error of the first failing data row |
| Importador.ReadSkipsHeader | src/Importador.php:72 | a grid of n >= 1 rows gives n - 1 records, record k built from row k + 1; row 0 never becomes a record |
| Importador.WidthMismatchFails | src/Importador.php:74-78 | a non-empty data row of another width than the header fails the read, with the width error when the rows before it are fine |
| Importador.RowFieldsOkIff | src/Importador.php:74-93 | a row's cells fill a record exactly when every column name is usable as a property (any name, "" included, except one starting with NUL) and every value converts |
| Importador.RowFieldsContent | src/Importador.php:80-93 | a filled record has one field per column name; the field named by column j holds cell j as converted whenever no later column has the same name, so of columns sharing a name the last one wins |
| Importador.RecordFields | src/Importador.php:80-95 | the record of data row k has exactly the header's field names; the field named by column j, taken as the last column with that name, holds the cell with its quotes removed (null stays null) when the column is not a date column (loose comparison) or the value is empty() once stripped, and the value's Y-m-d form in a date column |
| Importador.BlankHeaderCell | src/Importador.php:72-95 | a header with a blank cell still reads: the blank cell names the property "", and the data row's value under it fills that property |
| Importador.TwoBlankHeaderCells | src/Importador.php:72-95 | two blank header cells both name the property "", and the record keeps the value under the second one |
| Importador.InvalidDateFails | src/Importador.php:83-90 | a non-empty date-column value that neither converts as a date nor is numeric fails the whole read |
| Importador.QuoteInsideValue | src/Importador.php:81 | a quote inside a value disappears on import and the text on both sides is kept |
| Workbook.RangeOps | src/exportador.php:303 | styling the range "<column>1:<column><last>" writes the style to rows 1..last of the column, top to bottom, and to nothing else |
| Workbook.Workbook.constructor | src/exportador.php:222 | a new document has no cells, the default properties, one sheet titled "Worksheet", and no column settings |
| Workbook.Workbook.SetActiveSheetIndex | src/exportador.php:125 | selecting a sheet succeeds only for index 0, the one sheet of a new document |
| Workbook.Workbook.Apply | src/exportador.php:126 | one cell write changes only the addressed cell |
| Workbook.Workbook.ApplyAll | src/exportador.php:442-445 | a sequence of cell writes is replayed in order |
| Workbook.Workbook.StyleRange | src/exportador.php:303 | styling a column range performs exactly the writes of RangeOps on the column in capitals, since the library upper-cases the coordinate |
| Workbook.Workbook.SetTitle | src/exportador.php:275-286 | the title is refused, and the old one kept, exactly when it is longer than 31 characters or holds one of * : / \ ? [ ] |
| Workbook.Workbook.SetProperties | src/exportador.php:97-103 | sets the document properties |
| Workbook.Workbook.SetAutoSize | src/exportador.php:61 | sets the auto-size flag of the column in capitals and leaves the others alone |
| Workbook.Workbook.SetWidth | src/exportador.php:292 | sets the width of the column in capitals and leaves the others alone |
| Workbook.UpperFixes | src/exportador.php:291-292 | a column already in capitals is its own upper-case form, and upper-casing twice is upper-casing once |
| Exportador.ColumnLabel | src/exportador.php:24-27 | a column label is non-empty and has a single letter exactly for the first 26 columns |
| Exportador.ColumnLabelInjective | src/exportador.php:24-27 | two columns have the same label exactly when they are the same column |
| Exportador.LabelCapitals | src/exportador.php:24-27 | every column label is written in capital letters only |
| Exportador.LabelUpper | src/exportador.php:59-67 | a label is its own upper-case form, so auto-sizing a label column keys it by the label itself |
| Exportador.ColumnasLabels | src/exportador.php:24-27 | the table has 72 entries, entry i is the label of column i, and no label occurs twice |
| Exportador.ColumnasTable | src/exportador.php:24-27 | the table runs A..Z, AA..AZ, BA..BT |
| Exportador.StyleForFirstMatch | src/exportador.php:399-407 | the style is the truthy xls key of the first matching rule, and none when no rule matches or the key is falsy |
| Exportador.DateSerialTimestamp | src/exportador.php:373-376 | the serial number written for a date gives the timestamp back, one day later is one more, and a failed parse counts as timestamp 0 |
| Exportador.DatoCeldaFecha | src/exportador.php:373-378 | a value classified as a date is written as the serial number that gives its timestamp back (the serial of timestamp 0 when strtotime fails); any other value is written as its text |
| Exportador.DatosShape | src/exportador.php:351-365 | a bad column, a bad row or a column beyond the table is an error before anything is written; an unset or null field writes nothing and returns the record; an array is an error that writes nothing; whatever is written goes to the field's one cell |
| Exportador.DatosCell | src/exportador.php:362-389 | after a successful field write the cell holds the trimmed value (its date serial for the fecha style) with the content style, and the style's format code when the classifier gave one; an unset or null field leaves the cell as it was |
| Exportador.RegistroPlan | src/exportador.php:468-482 | on success the record write returns one copy of the record per key |
| Exportador.RegistroWrites | src/exportador.php:470-480 | a record write touches only its row, in the columns of its keys |
| Exportador.RegistroErrStable | src/exportador.php:475-477 | a failed field write ends the record write with that error |
| Exportador.RegistroCell | src/exportador.php:470-480 | in a successful record write, the key in position i is written to column i and by no other field write |
| Exportador.EncabezadosPlan | src/exportador.php:119-135 | the header step performs at most one write per key |
| Exportador.EncabezadosErrStable | src/exportador.php:129-132 | a failed header write ends the step with that error |
| Exportador.EncabezadosOps | src/exportador.php:121-133 | with a valid sheet, key i goes to column i of row 1, left to right; the key in position 72 fails; with no valid sheet the first key fails and nothing is written |
| Exportador.EncabezadosRow | src/exportador.php:121 | the header writes touch only row 1 |
| Exportador.EncabezadosCells | src/exportador.php:123-133 | after a successful header step, row 1 holds key i in column i |
| Exportador.CuerpoStep | src/exportador.php:423-436 | one more record: an element that is not an array is an error; otherwise the record's writes are appended and its failure is the body's |
| Exportador.CuerpoHalts | src/exportador.php:424-426 | a non-array element after good records ends the whole body with an error and no more writes |
| Exportador.CuerpoAdvances | src/exportador.php:427-435 | writing record k extends the body by that record; its failure ends the whole body |
| Exportador.CuerpoRows | src/exportador.php:422-436 | the body writes of the first n records touch only rows 2..n + 1 |
| Exportador.CuerpoErrStable | src/exportador.php:430-433 | an error part-way through the body is the body's error |
| Exportador.CuerpoRejectsNonArray | src/exportador.php:424-426 | a record list with an element that is not an array is rejected |
| Exportador.CuerpoCell | src/exportador.php:422-436 | in a successful body, the cell of key i in row k + 2 is written only by the field write of key i for record k |
| Exportador.TotalRowCells | src/exportador.php:442-445 | a totals row leaves the label in A and the value in B, both with the content style |
| Exportador.TotalesPlan | src/exportador.php:440-452 | the totals succeed exactly when there are none or the sheet exists; then there are four writes per entry |
| Exportador.TotalesRows | src/exportador.php:440-452 | the writes of n totals entries touch only rows fila..fila + n - 1 |
| Exportador.TotalesErrStable | src/exportador.php:447-449 | a failed totals write ends the step with that error |
| Exportador.TotalesStep | src/exportador.php:441-451 | one more totals entry writes its row when the sheet exists and fails otherwise |
| Exportador.TotalesCells | src/exportador.php:440-452 | after the totals, row fila + t holds entry t's label in A and its value in B |
| Exportador.LibroPlan | src/exportador.php:419-456 | on success llena_libro_xls returns the record list itself |
| Exportador.LibroRows | src/exportador.php:422-452 | body and totals writes start at row 2 and never touch row count(registros) + 2, the blank separator |
| Exportador.LibroBodyCell | src/exportador.php:422-436 | when the body succeeds, the cell of key i in row k + 2 is the one written by the field write of record k |
| Exportador.LibroOps | src/exportador.php:419-456 | when the body succeeds, the writes are the body's followed by the totals', and a totals error is the result |
| Exportador.TotalsAfter | src/exportador.php:438-452 | totals written after earlier rows put entry t in row fila + t |
| Exportador.LibroTotalsCell | src/exportador.php:438-452 | when the body succeeds, totals entry t sits in row count(registros) + 3 + t, label in A and value in B |
| Exportador.ColumnsOps | src/exportador.php:295-317 | an override loop writes only its one style, only to the listed columns in capitals, only to rows 1..count |
| Exportador.ColumnsOpsCover | src/exportador.php:303 | every row 1..count of every listed column, in capitals, is styled |
| Exportador.OverridesKeep | src/exportador.php:295-317 | the overrides change no value and no content style, and leave rows outside 1..count whole |
| Exportador.OverrideMoneda | src/exportador.php:312-317 | a moneda column, in capitals, ends with the currency code on rows 1..count, whatever was applied before |
| Exportador.OverrideSinDecimal | src/exportador.php:306-310 | a moneda_sin_decimal column, in capitals, that no moneda entry names in any case ends with the no-decimals code on rows 1..count |
| Exportador.OverrideCenter | src/exportador.php:295-304 | a centers column, in capitals, ends centred on rows 1..count |
| Exportador.AutoSizeColumns | src/exportador.php:59-67 | the first n columns are auto-sized |
| Exportador.AutoSizeColumnsElsewhere | src/exportador.php:59-67 | the other columns keep their auto-size setting |
| Exportador.FixedWidthWins | src/exportador.php:289-293 | a column given a fixed width ends, in capitals, with auto-size off and the width of the last entry naming it in any case |
| Exportador.FixWidthsElsewhere | src/exportador.php:289-293 | a column that no entry names in any case keeps its auto-size setting and width |
| Exportador.DatosLibro | src/exportador.php:92-110 | a blank dato is refused; otherwise creator and last-modified-by are "Sistema" and title, subject, description, keywords and category are dato |
| Exportador.Preparado | src/exportador.php:214-273 | a blank name fails before anything is written |
| Exportador.ListadoLibro | src/exportador.php:214-286 | a blank name fails before anything is written |
| Exportador.Fail | src/exportador.php:214-221 | a failure ends the process when streaming and is returned otherwise |
| Exportador.Salida | src/exportador.php:145-191 | a blank name fails; when streaming, the document is written to the client and the process ends, or dies with the writer's error; otherwise the encoded file, or the writer's error, is returned |
| Exportador.Listado | src/exportador.php:208-334 | the process ends exactly when streaming; a file is produced only for a finished document; a blank name fails with an untouched document |
| Exportador.PreparadoValue | src/exportador.php:222-273 | the first phases leave the header and body writes, the properties from the name and the key columns auto-sized |
| Exportador.ListadoLibroValue | src/exportador.php:222-317 | a finished document is the closed form: every phase's writes, the properties, the title and the column settings |
| Exportador.ListadoLibroOk | src/exportador.php:214-286 | a finished listing had a non-blank name, at most 72 keys, a valid title, and successful header and body steps |
| Exportador.ListadoCell | src/exportador.php:233-317 | each cell of a finished listing is what the header, body and override writes leave, in that order |
| Exportador.ListadoBelowHeaders | src/exportador.php:243-317 | below row 1 a cell's value and content style are what the body and totals wrote; the overrides only style it |
| Exportador.ListadoHeaders | src/exportador.php:233-241 | row 1 of a finished listing holds key i in column i |
| Exportador.ListadoBody | src/exportador.php:243-253 | the cell of key i in row k + 2 holds field keys[i] of record k as written, with the content style, and stays empty for an unset or null field |
| Exportador.ListadoTotals | src/exportador.php:243-253 | totals entry t sits in row count(registros) + 3 + t, label in A and value in B |
| Exportador.ListadoSeparator | src/exportador.php:435-438 | the row between the body and the totals is blank in every column |
| Exportador.ListadoOverrides | src/exportador.php:295-317 | rows 1..count(registros) + 1 of a moneda column carry the currency code, of a moneda_sin_decimal column not in moneda the no-decimals code, and of a centers column are centred, each column taken in capitals; moneda wins when a column is in both in any case |
| Exportador.ListadoFixedWidth | src/exportador.php:265-293 | a column given a fixed width has, in capitals, auto-size off and its width, even when it is a key column auto-sized before |
| Exportador.ListadoAutoSize | src/exportador.php:265-293 | the column of every key that no fixed-width entry names in any case is auto-sized |
| Exportador.Exportador.constructor | src/exportador.php:22-48 | a new exporter holds the column and style tables and a new, empty document |
| Exportador.Exportador.EstilosFormat | src/exportador.php:399-407 | the style key is the first matching rule's xls key when it is truthy, and none otherwise |
| Exportador.Exportador.GeneraDatosLibro | src/exportador.php:92-110 | sets the properties from dato, or refuses a blank dato and leaves them unchanged |
| Exportador.Exportador.GeneraEncabezados | src/exportador.php:119-135 | performs exactly the header writes, stopping at the first failure, and returns that step's result |
| Exportador.Exportador.LlenaDatosXls | src/exportador.php:347-390 | performs exactly the writes of one field and returns its result |
| Exportador.Exportador.LlenaRegistroXls | src/exportador.php:468-482 | performs exactly the writes of one record and returns its result |
| Exportador.Exportador.LlenaFilaXls | src/exportador.php:423-435 | one pass of the records loop extends the body by one record, or ends it with the body's error |
| Exportador.Exportador.LlenaCuerpoXls | src/exportador.php:422-436 | performs exactly the body writes and returns the body's result; on success the next row is count(registros) + 2 |
| Exportador.Exportador.LlenaTotalesXls | src/exportador.php:438-452 | performs exactly the totals writes and returns their result |
| Exportador.Exportador.LlenaLibroXls | src/exportador.php:419-456 | performs exactly the body and totals writes and returns the record list, or the first error |
| Exportador.Exportador.AplicaAutosize | src/exportador.php:56-69 | auto-sizes the key columns and returns the column table; a key beyond the table fails once the 72 columns are set |
| Exportador.Exportador.FijaAnchos | src/exportador.php:289-293 | applies the fixed widths in order |
| Exportador.Exportador.EstiloColumnas | src/exportador.php:295-317 | one override loop performs exactly the writes of ColumnsOps |
| Exportador.Exportador.GeneraSalidaXls | src/exportador.php:145-191 | ends as Salida says for the document |
| Exportador.Exportador.PreparaLibro | src/exportador.php:222-273 | the first phases on a new document leave the state Preparado gives, or its failure with the document as it stands |
| Exportador.Exportador.TerminaLibro | src/exportador.php:288-317 | the fixed widths and the three override loops leave the state Terminado gives |
| Exportador.Exportador.ListadoBaseXls | src/exportador.php:208-334 | builds a new document and ends exactly as Listado says, with the document Listado gives |

## Left out

- Reading spreadsheet files is not modelled. `IOFactory::identify`, the reader, `getHighestRowAndColumn` and `rangeToArray` are one parameter of the importer's `Env`. `Rows` passes on what that parameter returns.
- `identify` throws on an unreadable file and the PHP method lets the exception escape. The model reports this as the `IdentifyFailure` result instead.
- `primer_row` on an empty range returns a null with a warning. The model reports `NoFirstRow` instead. This arises when `celda_inicio` lies below row 1: the range then runs from that row up to row 1 and comes back empty. `leer` calls it with A1 and never reaches it.
- A column name starting with NUL makes PHP throw, because such a property name is refused (src/Importador.php:81). The model reports `InvalidColumnName`. Any other name, the empty name "" of a blank header cell included, is an ordinary property.
- `fechas` holds strings. `in_array` on entries of other PHP types (numbers, booleans, null) is not modelled; the loose comparison of two strings is, through `is_numeric` and the number a numeric string denotes.
- The date library is not modelled: `strtotime`, `Date::PHPToExcel`, `is_numeric`, the number a numeric string denotes, and `excelToDateTimeObject()->format('Y-m-d')`. They are fields of `DateLib`, and `strtotime` is a parameter of the exporter's `Env`.
- Exportador.DateSerialTimestamp: the export date formula `(t / 86400) + 25569 - 5/24` is computed exactly on reals, not in floating point.
- The regular-expression engine (`preg_match`) is not modelled. It is the relation carried by a `Catalog`, and an invalid pattern counts as a non-match.
- Loading the rule list from `config/default/regex.json` is not modelled. The rule list is a constructor argument. The constructor's `die` on an error cannot occur, because `data` never fails.
- `asigna_estilos_titulo` (src/exportador.php:76-84) is not modelled. Neither are the font arrays `estilo_titulos` and `estilo_contenido`. Those calls change no value and no format code; the content style is a flag on each cell.
- PhpSpreadsheet's value binder is not modelled. `setCellValue` stores the text it is given (or the date serial); the binder's conversion of numeric text to numbers is left out.
- The I/O half of `genera_salida_xls` is not modelled: HTTP headers, `php://output`, the `time()`-named temporary file, `base64_encode`, `unlink`. Streaming and encoding are the `Writer` parameter, and `die`/`exit` become the `Died` and `Streamed` outcomes.
- The key of an unknown style (a truthy `xls` key that is not in `estilos`) is reported as `UnknownStyle` after the value and the content style were written. PHP reads the missing key as null, and what `setFormatCode(null)` does depends on the library version.
- SetTitle: the library renames a title that clashes with an existing sheet name (compared case-insensitively, surrounding apostrophes ignored) by cutting it to 29 characters and appending " 1". A new document's only sheet is "Worksheet", so the name "WORKSHEET" gives the sheet "WORKSHEET 1" there; the model keeps the title as given, and so does the title `ListadoLibroValue` states.
- FirstChars: `substr($name, 0, 31)` cuts 31 bytes of the UTF-8 name and can split a character; the model cuts 31 characters, so the two agree only on names whose first 31 characters are ASCII.
- Upper: only the ASCII letters a..z are upper-cased, as `strtoupper` does.
- EstiloColumnas: an override entry that is not a column reference makes the library throw an exception, which the PHP code does not catch. The model styles the cells the entry names.
- `centers`, `moneda` and `moneda_sin_decimal` hold column letters, not keys, because the code builds the ranges from them directly.
- `totales` is a sequence of (label, value) pairs in the order of the PHP array. `size_columnas` is a sequence of (column, width) pairs, so a repeated column is possible and its last entry wins.
- src/files.php, src/web.php and src/imagen.php are not part of this model. They are filesystem walks, an HTTP client and a QR decoder.
- The static `errores::$error` flag is replaced by results. An error flag left set by an earlier, unrelated call, which the PHP methods would then report, has no counterpart.
