/**
 * The spreadsheet import wizard (components/ExcelImportWizard.tsx): find
 * the header row of a sheet, guess which columns hold the date, merchant,
 * amount and description, and turn the data rows into expense
 * transactions for one card.
 */
module ImportWizard {
  import opened Wrappers
  import opened Seqs
  import opened Ledger

  /** A cell as `sheet_to_json(ws, {header: 1, defval: ""})` yields it; `Missing` is reading past a row's end. */
  datatype Cell = Text(text: string) | Num(n: int) | When(d: Date) | Missing

  /**
   * The JavaScript conversions the wizard calls: `String(n)`, `String(date)`,
   * `date.toLocaleDateString()`, `parseFloat` (`None` for NaN) and
   * `new Date(string)` (`None` for an invalid date).
   */
  datatype Js = Js(
    numberText: int -> string,
    dateText: Date -> string,
    localeDateText: Date -> string,
    parseFloat: string -> Option<int>,
    parseDate: string -> Option<Date>)

  /** `String(cell)`. */
  function CellText(js: Js, c: Cell): string {
    match c
    case Text(s) => s
    case Num(n) => js.numberText(n)
    case When(d) => js.dateText(d)
    case Missing => "undefined"
  }

  /** The cells JavaScript treats as false in `cell || fallback`. */
  predicate Falsy(c: Cell) {
    c == Missing || c == Text("") || c == Num(0)
  }

  /** `row[i]`, `undefined` outside the row (including the unmapped index -1). */
  function CellAt(row: seq<Cell>, i: int): Cell {
    if 0 <= i < |row| then row[i] else Missing
  }

  /** `s.includes(sub)`. */
  predicate Contains(s: string, sub: string)
    decreases |s|
  {
    |sub| <= |s| && (s[..|sub|] == sub || (|s| > 0 && Contains(s[1..], sub)))
  }

  /** Some alternative occurs in `s`. */
  predicate ContainsAny(s: string, alternatives: seq<string>)
    decreases |alternatives|
  {
    |alternatives| > 0 && (Contains(s, alternatives[0]) || ContainsAny(s, alternatives[1..]))
  }

  lemma {:induction false} ContainsAnyMeaning(s: string, alternatives: seq<string>)
    ensures ContainsAny(s, alternatives) <==> exists k :: 0 <= k < |alternatives| && Contains(s, alternatives[k])
    decreases |alternatives|
  {
    if |alternatives| > 0 {
      ContainsAnyMeaning(s, alternatives[1..]);
      if exists k :: 0 <= k < |alternatives| && Contains(s, alternatives[k]) {
        var k :| 0 <= k < |alternatives| && Contains(s, alternatives[k]);
        if k > 0 {
          assert alternatives[1..][k - 1] == alternatives[k];
        }
      }
      if exists k :: 0 <= k < |alternatives[1..]| && Contains(s, alternatives[1..][k]) {
        var k :| 0 <= k < |alternatives[1..]| && Contains(s, alternatives[1..][k]);
        assert alternatives[k + 1] == alternatives[1..][k];
      }
    }
  }

  /** ASCII lower case, the `/i` flag's folding for the Latin alternatives. */
  function FoldChar(c: char): char {
    if 'A' <= c <= 'Z' then (c as int + 32) as char else c
  }

  function Fold(s: string): (r: string)
    ensures |r| == |s|
    decreases |s|
  {
    if |s| == 0 then "" else Fold(s[..|s| - 1]) + [FoldChar(s[|s| - 1])]
  }

  /** `seq.join(sep)`. */
  function Join(parts: seq<string>, sep: string): string
    decreases |parts|
  {
    if |parts| == 0 then ""
    else if |parts| == 1 then parts[0]
    else Join(parts[..|parts| - 1], sep) + sep + parts[|parts| - 1]
  }

  /** A cell as `Array.prototype.join` renders it: a missing cell becomes the empty string. */
  function JoinedCellText(js: Js, c: Cell): string {
    if c.Missing? then "" else CellText(js, c)
  }

  /** Line 77: `data[i].join(" ")`. */
  function RowText(js: Js, row: seq<Cell>): string {
    Join(MapSeq(row, (c: Cell) => JoinedCellText(js, c)), " ")
  }

  // ---------------------------------------------------------------------
  // Header detection (lines 66-86)
  // ---------------------------------------------------------------------

  /** Lines 73-76. */
  const KEYWORDS: seq<string> := [
    "날짜", "일시", "거래일", "승인일", "승인일자",
    "가맹점", "사용처", "금액", "출금", "이용내역", "승인금액"]

  /** Only this many leading rows are searched for the header. */
  const HEADER_SCAN := 10

  /** Line 80: the row's cells, joined with spaces, mention a keyword. */
  predicate IsHeaderRow(js: Js, row: seq<Cell>) {
    ContainsAny(RowText(js, row), KEYWORDS)
  }

  function HeaderTest(js: Js): seq<Cell> -> bool {
    (row: seq<Cell>) => IsHeaderRow(js, row)
  }

  /** The first row among the first ten that passes `isHeader`, else row 0. */
  function FirstHeader(data: seq<seq<Cell>>, isHeader: seq<Cell> -> bool): nat {
    match Find(data[..Min(|data|, HEADER_SCAN)], isHeader)
    case Some(i) => i
    case None => 0
  }

  /** The first keyword row among the first ten, else row 0. */
  function HeaderIndexOf(js: Js, data: seq<seq<Cell>>): nat {
    FirstHeader(data, HeaderTest(js))
  }

  /** Lines 71-82: the scan with its early `break`; `isHeader` is the keyword test of lines 74-76. */
  method FindHeaderIndex(data: seq<seq<Cell>>, isHeader: seq<Cell> -> bool) returns (headerIndex: nat)
    ensures headerIndex == FirstHeader(data, isHeader)
  {
    ghost var scanned := data[..Min(|data|, HEADER_SCAN)];
    headerIndex := 0;
    var i := 0;
    while i < Min(|data|, HEADER_SCAN)
      invariant 0 <= i <= Min(|data|, HEADER_SCAN)
      invariant forall j :: 0 <= j < i ==> !isHeader(scanned[j])
    {
      if isHeader(data[i]) {
        headerIndex := i;
        FindIs(scanned, isHeader, i);
        return;
      }
      i := i + 1;
    }
    FindNone(scanned, isHeader);
  }

  lemma FindIs<T>(s: seq<T>, p: T -> bool, i: nat)
    requires i < |s| && p(s[i]) && forall j :: 0 <= j < i ==> !p(s[j])
    ensures Find(s, p) == Some(i)
  {
    var r := Find(s, p);
    assert r.Some?;
    assert !(r.value < i);
    assert !(r.value > i);
  }

  lemma FindNone<T>(s: seq<T>, p: T -> bool)
    requires forall j :: 0 <= j < |s| ==> !p(s[j])
    ensures Find(s, p) == None
  {
  }

  /** The first of the first ten rows that passes the test, and row 0 when none does. */
  lemma FirstHeaderSpec(data: seq<seq<Cell>>, isHeader: seq<Cell> -> bool)
    ensures var h := FirstHeader(data, isHeader);
      && h < Max(1, Min(|data|, HEADER_SCAN))
      && (forall j :: 0 <= j < h ==> !isHeader(data[j]))
      && (h > 0 ==> isHeader(data[h]))
      && ((forall j :: 0 <= j < Min(|data|, HEADER_SCAN) ==> !isHeader(data[j])) ==> h == 0)
  {
    var scanned := data[..Min(|data|, HEADER_SCAN)];
    match Find(scanned, isHeader)
    case Some(i) =>
      forall j | 0 <= j < i ensures !isHeader(data[j]) {
        assert !isHeader(scanned[j]);
      }
    case None =>
      forall j | 0 <= j < Min(|data|, HEADER_SCAN) ensures !isHeader(data[j]) {
        assert !isHeader(scanned[j]);
      }
  }

  /**
   * The header row: the first of the first ten rows that mentions a
   * keyword, and row 0 when none of them does.
   */
  lemma HeaderIndexSpec(js: Js, data: seq<seq<Cell>>)
    ensures var h := HeaderIndexOf(js, data);
      && h < Max(1, Min(|data|, HEADER_SCAN))
      && (forall j :: 0 <= j < h ==> !IsHeaderRow(js, data[j]))
      && (h > 0 ==> IsHeaderRow(js, data[h]))
      && ((forall j :: 0 <= j < Min(|data|, HEADER_SCAN) ==> !IsHeaderRow(js, data[j])) ==> h == 0)
  {
    FirstHeaderSpec(data, HeaderTest(js));
    var test := HeaderTest(js);
    assert forall row :: test(row) == IsHeaderRow(js, row);
  }

  function NonEmptyRow(r: seq<Cell>): bool { |r| > 0 }

  /** Line 85: the rows after the header, without the empty ones. */
  function DataRows(data: seq<seq<Cell>>, headerIndex: nat): seq<seq<Cell>> {
    if headerIndex < |data| then Filter(data[headerIndex + 1..], NonEmptyRow) else []
  }

  lemma DataRowsSpec(data: seq<seq<Cell>>, headerIndex: nat)
    requires headerIndex < |data|
    ensures forall r :: r in DataRows(data, headerIndex) ==> |r| > 0
    ensures forall i :: headerIndex < i < |data| && |data[i]| > 0 ==> data[i] in DataRows(data, headerIndex)
    ensures forall r :: r in DataRows(data, headerIndex) ==> exists i :: headerIndex < i < |data| && data[i] == r
  {
    var after := data[headerIndex + 1..];
    var rows := DataRows(data, headerIndex);
    FilterMembers(after, NonEmptyRow);
    forall i | headerIndex < i < |data| && |data[i]| > 0 ensures data[i] in rows {
      assert after[i - headerIndex - 1] == data[i];
    }
    forall r | r in rows ensures exists i :: headerIndex < i < |data| && data[i] == r {
      var k :| 0 <= k < |rows| && rows[k] == r;
      assert r in after;
      var j :| 0 <= j < |after| && after[j] == r;
      assert data[headerIndex + 1 + j] == r;
    }
  }

  // ---------------------------------------------------------------------
  // Column mapping (lines 88-103)
  // ---------------------------------------------------------------------

  datatype Field = DateField | MerchantField | AmountField | DescriptionField

  /** The alternatives of each test, the Latin ones already folded for the `/i` flag. */
  const DATE_WORDS: seq<string> := ["날짜", "거래일", "승인일", "date", "승인일자"]
  const MERCHANT_WORDS: seq<string> := ["가맹점", "사용처", "거래처", "merchant", "store", "기재내용", "가맹점명"]
  const AMOUNT_WORDS: seq<string> := ["출금", "사용금액", "지출", "amount", "이용금액", "승인금액"]
  const BALANCE_WORD := "잔액"
  const DESCRIPTION_WORDS: seq<string> := ["적요", "내용", "메모", "desc", "일시불할부구분"]

  /** Line 93: `String(h).trim()`, folded for the case-insensitive tests. */
  function HeaderKey(js: Js, h: Cell): string {
    Fold(Trim(CellText(js, h)))
  }

  /** Lines 95-101: the first test the header passes, tried as date, merchant, amount, description. */
  function ColumnField(js: Js, h: Cell): Option<Field> {
    var k := HeaderKey(js, h);
    if ContainsAny(k, DATE_WORDS) then Some(DateField)
    else if ContainsAny(k, MERCHANT_WORDS) then Some(MerchantField)
    else if ContainsAny(k, AMOUNT_WORDS) && !Contains(k, BALANCE_WORD) then Some(AmountField)
    else if ContainsAny(k, DESCRIPTION_WORDS) then Some(DescriptionField)
    else None
  }

  /** The column index chosen for each field, -1 for none. */
  datatype Mapping = Mapping(date: int, merchant: int, amount: int, description: int)

  const UNMAPPED := Mapping(-1, -1, -1, -1)

  function Column(m: Mapping, f: Field): int {
    match f
    case DateField => m.date
    case MerchantField => m.merchant
    case AmountField => m.amount
    case DescriptionField => m.description
  }

  /** `newMapping.<f> = idx`. */
  function Assign(m: Mapping, f: Field, idx: int): (r: Mapping)
    ensures Column(r, f) == idx
    ensures forall g :: g != f ==> Column(r, g) == Column(m, g)
  {
    match f
    case DateField => m.(date := idx)
    case MerchantField => m.(merchant := idx)
    case AmountField => m.(amount := idx)
    case DescriptionField => m.(description := idx)
  }

  /** The last index whose element satisfies `p`, or -1. */
  function LastIndex<T>(s: seq<T>, p: T -> bool): (r: int)
    ensures -1 <= r < |s|
    ensures r >= 0 ==> p(s[r])
    ensures forall j :: r < j < |s| ==> !p(s[j])
    decreases |s|
  {
    if |s| == 0 then -1
    else if p(s[|s| - 1]) then |s| - 1
    else LastIndex(s[..|s| - 1], p)
  }

  /** The header test of the scan, as a function of the cell. */
  function Classifier(js: Js): Cell -> Option<Field> {
    (h: Cell) => ColumnField(js, h)
  }

  function FieldIs(classify: Cell -> Option<Field>, f: Field): Cell -> bool {
    (h: Cell) => classify(h) == Some(f)
  }

  /** For each field, the last column the classifier assigns to it. */
  function LastColumns(headers: seq<Cell>, classify: Cell -> Option<Field>): Mapping {
    Mapping(
      LastIndex(headers, FieldIs(classify, DateField)),
      LastIndex(headers, FieldIs(classify, MerchantField)),
      LastIndex(headers, FieldIs(classify, AmountField)),
      LastIndex(headers, FieldIs(classify, DescriptionField)))
  }

  /** The mapping the scan arrives at. */
  function GuessMapping(js: Js, headers: seq<Cell>): Mapping {
    LastColumns(headers, Classifier(js))
  }

  /** Lines 91-102: the `forEach` over the headers, later columns overwriting earlier ones. */
  method MapColumns(headers: seq<Cell>, classify: Cell -> Option<Field>) returns (newMapping: Mapping)
    ensures newMapping == LastColumns(headers, classify)
  {
    newMapping := UNMAPPED;
    for idx := 0 to |headers|
      invariant newMapping == LastColumns(headers[..idx], classify)
    {
      assert headers[..idx + 1][..idx] == headers[..idx];
      var field := classify(headers[idx]);
      if field.Some? {
        newMapping := Assign(newMapping, field.value, idx);
      }
    }
    assert headers[..|headers|] == headers;
  }


  /** Every field is unmapped or points at a column of the header row. */
  predicate InRange(m: Mapping, width: int) {
    forall f :: -1 <= Column(m, f) < width
  }

  /**
   * Last one wins, one field per column: each field is -1 exactly when no
   * header is assigned to it, else the last header that is, and no two
   * fields share a column.
   */
  lemma LastColumnsSpec(headers: seq<Cell>, classify: Cell -> Option<Field>)
    ensures var m := LastColumns(headers, classify);
      && InRange(m, |headers|)
      && (forall f :: Column(m, f) == -1 <==> forall j :: 0 <= j < |headers| ==> classify(headers[j]) != Some(f))
      && (forall f :: Column(m, f) >= 0 ==> classify(headers[Column(m, f)]) == Some(f))
      && (forall f, j :: Column(m, f) < j < |headers| ==> classify(headers[j]) != Some(f))
      && (forall f, g :: f != g && Column(m, f) >= 0 ==> Column(m, f) != Column(m, g))
  {
    var m := LastColumns(headers, classify);
    forall f ensures Column(m, f) == LastIndex(headers, FieldIs(classify, f)) {
    }
    forall f | Column(m, f) >= 0 ensures classify(headers[Column(m, f)]) == Some(f) {
      assert FieldIs(classify, f)(headers[Column(m, f)]);
    }
    forall f, j | Column(m, f) < j < |headers| ensures classify(headers[j]) != Some(f) {
      assert !FieldIs(classify, f)(headers[j]);
    }
    forall f | Column(m, f) == -1 ensures forall j :: 0 <= j < |headers| ==> classify(headers[j]) != Some(f) {
      forall j | 0 <= j < |headers| ensures classify(headers[j]) != Some(f) {
        assert !FieldIs(classify, f)(headers[j]);
      }
    }
  }

  /** A header that mentions a balance ("잔액") is never taken for the amount. */
  lemma BalanceNeverAmount(js: Js, h: Cell)
    ensures ColumnField(js, h) == Some(AmountField) ==> !Contains(HeaderKey(js, h), BALANCE_WORD)
  {
  }

  /** The guessed mapping, with the header tests of lines 95-101. */
  lemma GuessMappingSpec(js: Js, headers: seq<Cell>)
    ensures var m := GuessMapping(js, headers);
      && InRange(m, |headers|)
      && (forall f :: Column(m, f) >= 0 ==> ColumnField(js, headers[Column(m, f)]) == Some(f))
      && (m.amount >= 0 ==> !Contains(HeaderKey(js, headers[m.amount]), BALANCE_WORD))
  {
    var m := GuessMapping(js, headers);
    LastColumnsSpec(headers, Classifier(js));
    forall f | Column(m, f) >= 0 ensures ColumnField(js, headers[Column(m, f)]) == Some(f) {
      assert Classifier(js)(headers[Column(m, f)]) == Some(f);
    }
    if m.amount >= 0 {
      assert Column(m, AmountField) == m.amount;
      BalanceNeverAmount(js, headers[m.amount]);
    }
  }

  // ---------------------------------------------------------------------
  // Amounts and rows (lines 116-181)
  // ---------------------------------------------------------------------

  /** Everything but digits, `.` and `-` is dropped: `replace(/[^0-9.-]/g, "")`. */
  const NUMBER_CHARS := "0123456789.-"

  function IsNumberChar(c: char): bool { c in NUMBER_CHARS }

  function CleanNumber(s: string): string {
    Filter(s, IsNumberChar)
  }

  /** A number cell as it is; anything else cleaned and parsed, with NaN and 0 both giving 0 (`|| 0`). */
  function RawAmount(js: Js, c: Cell): int {
    match c
    case Num(n) => n
    case _ => js.parseFloat(CleanNumber(CellText(js, c))).GetOr(0)
  }

  /** Lines 142 and 172: a positive amount is negated, so every amount reads as an expense. */
  function AsExpense(a: int): (r: int)
    ensures r <= 0
    ensures -r == Abs(a)
  {
    if a > 0 then -a else a
  }

  function RowAmount(js: Js, m: Mapping, row: seq<Cell>): int {
    AsExpense(RawAmount(js, CellAt(row, m.amount)))
  }

  /** The name a transaction without a merchant is saved under. */
  const UNKNOWN_MERCHANT := "알 수 없음"

  /** `String(cell || fallback)`. */
  function TextOr(js: Js, c: Cell, fallback: string): string {
    if Falsy(c) then fallback else CellText(js, c)
  }

  /** `mapping.description > -1 ? String(row[mapping.description]) : ""`. */
  function RowDescription(js: Js, m: Mapping, row: seq<Cell>): string {
    if m.description > -1 then CellText(js, CellAt(row, m.description)) else ""
  }

  datatype PreviewRow = PreviewRow(id: nat, date: string, merchant: string, amount: int, description: string)

  /** Lines 121-128: a date cell in the locale's format, anything else as text. */
  function PreviewDate(js: Js, c: Cell): string {
    match c
    case When(d) => js.localeDateText(d)
    case _ => CellText(js, c)
  }

  function PreviewRowOf(js: Js, m: Mapping, row: seq<Cell>, idx: nat): PreviewRow {
    PreviewRow(idx, PreviewDate(js, CellAt(row, m.date)), TextOr(js, CellAt(row, m.merchant), ""),
      RowAmount(js, m, row), RowDescription(js, m, row))
  }

  /** Lines 116-145: the first five data rows. */
  function PreviewData(js: Js, m: Mapping, rows: seq<seq<Cell>>): seq<PreviewRow> {
    seq(Min(5, |rows|), i requires 0 <= i < Min(5, |rows|) => PreviewRowOf(js, m, rows[i], i))
  }

  /** A transaction as `handleSave` sends it. */
  datatype Imported = Imported(date: Date, merchant: string, amount: int, cardId: string, description: string)

  function DotToDash(c: char): char { if c == '.' then '-' else c }

  /** Lines 151-157: a date cell as it is; else the text with `.` read as `-`, and `now` when it does not parse. */
  function SaveDate(js: Js, now: Date, c: Cell): Date {
    match c
    case When(d) => d
    case _ => js.parseDate(MapSeq(CellText(js, c), DotToDash)).GetOr(now)
  }

  function ImportedOf(js: Js, now: Date, m: Mapping, cardId: string, row: seq<Cell>): Imported {
    Imported(SaveDate(js, now, CellAt(row, m.date)), TextOr(js, CellAt(row, m.merchant), UNKNOWN_MERCHANT),
      RowAmount(js, m, row), cardId, RowDescription(js, m, row))
  }

  function NonZero(t: Imported): bool { t.amount != 0 }

  /** Lines 149-181: every data row converted, then the zero amounts dropped. */
  function ToSave(js: Js, now: Date, m: Mapping, cardId: string, rows: seq<seq<Cell>>): seq<Imported> {
    Filter(MapSeq(rows, (r: seq<Cell>) => ImportedOf(js, now, m, cardId, r)), NonZero)
  }

  /**
   * What is saved: only expenses, all on the selected card, each the
   * conversion of a data row, and every row with a non-zero amount is
   * among them; a row without a merchant is saved as "알 수 없음".
   */
  lemma ToSaveSpec(js: Js, now: Date, m: Mapping, cardId: string, rows: seq<seq<Cell>>)
    ensures var saved := ToSave(js, now, m, cardId, rows);
      && |saved| <= |rows|
      && (forall t :: t in saved ==> t.amount < 0 && t.cardId == cardId)
      && (forall t :: t in saved ==> exists i :: 0 <= i < |rows| && t == ImportedOf(js, now, m, cardId, rows[i]))
      && (forall i :: 0 <= i < |rows| && RowAmount(js, m, rows[i]) != 0 ==> ImportedOf(js, now, m, cardId, rows[i]) in saved)
  {
    var all := MapSeq(rows, (r: seq<Cell>) => ImportedOf(js, now, m, cardId, r));
    var saved := ToSave(js, now, m, cardId, rows);
    FilterMembers(all, NonZero);
    forall t | t in saved ensures t.amount < 0 && t.cardId == cardId && exists i :: 0 <= i < |rows| && t == ImportedOf(js, now, m, cardId, rows[i]) {
      var k :| 0 <= k < |all| && all[k] == t;
    }
    forall i | 0 <= i < |rows| && RowAmount(js, m, rows[i]) != 0 ensures ImportedOf(js, now, m, cardId, rows[i]) in saved {
      assert NonZero(all[i]);
    }
  }

  /** A row whose merchant cell is empty or missing is saved under "알 수 없음"; an unmapped description is empty. */
  lemma ImportedDefaults(js: Js, now: Date, m: Mapping, cardId: string, row: seq<Cell>)
    ensures Falsy(CellAt(row, m.merchant)) ==> ImportedOf(js, now, m, cardId, row).merchant == UNKNOWN_MERCHANT
    ensures m.description == -1 ==> ImportedOf(js, now, m, cardId, row).description == ""
  {
  }

  /** The preview shows the first five rows, numbered from 0, with the amounts that saving would use. */
  lemma PreviewSpec(js: Js, now: Date, m: Mapping, cardId: string, rows: seq<seq<Cell>>)
    ensures var p := PreviewData(js, m, rows);
      && |p| == Min(5, |rows|)
      && forall i :: 0 <= i < |p| ==>
        && p[i].id == i
        && p[i].amount <= 0
        && p[i].amount == ImportedOf(js, now, m, cardId, rows[i]).amount
        && p[i].description == ImportedOf(js, now, m, cardId, rows[i]).description
  {
  }

  // ---------------------------------------------------------------------
  // The wizard's state (lines 20-41, 44-105, 147-201, 331)
  // ---------------------------------------------------------------------

  datatype Step = Upload | SheetSelection | MappingStep | PreviewStep

  /** A read workbook: its sheet names, and each sheet's rows as `sheet_to_json` returns them. */
  datatype Workbook = Workbook(sheetNames: seq<string>, sheets: map<string, seq<seq<Cell>>>)

  /** Every listed sheet can be read. */
  predicate Readable(wb: Workbook) {
    forall k :: 0 <= k < |wb.sheetNames| ==> wb.sheetNames[k] in wb.sheets
  }

  /** Line 331: the button to the preview needs the three required columns and a card. */
  predicate CanAdvance(m: Mapping, selectedCardId: string) {
    m.date != -1 && m.merchant != -1 && m.amount != -1 && selectedCardId != ""
  }

  /** Lines 64-103 on a non-empty sheet: the header row, the rows after it, and the guessed mapping. */
  method Analyze(isHeader: seq<Cell> -> bool, classify: Cell -> Option<Field>, data: seq<seq<Cell>>) returns (headerIndex: nat, extractedHeaders: seq<Cell>, newMapping: Mapping)
    requires |data| > 0
    ensures headerIndex == FirstHeader(data, isHeader) && headerIndex < |data|
    ensures extractedHeaders == data[headerIndex]
    ensures newMapping == LastColumns(extractedHeaders, classify) && InRange(newMapping, |extractedHeaders|)
  {
    headerIndex := FindHeaderIndex(data, isHeader);
    FirstHeaderSpec(data, isHeader);
    extractedHeaders := data[headerIndex];
    newMapping := MapColumns(extractedHeaders, classify);
    LastColumnsSpec(extractedHeaders, classify);
  }

  class Wizard {
    /** The keyword test on a row (lines 74-76) and the header classifier (lines 91-102). */
    const isHeader: seq<Cell> -> bool
    const classify: Cell -> Option<Field>
    var step: Step
    var workbook: Option<Workbook>
    var sheetNames: seq<string>
    var fileData: seq<seq<Cell>>
    var headers: seq<Cell>
    var selectedCardId: string
    var mapping: Mapping

    /** While columns are being chosen or previewed, the mapping points into the header row. */
    predicate Valid()
      reads this
    {
      (step == MappingStep || step == PreviewStep) ==> InRange(mapping, |headers|)
    }

    constructor (js: Js)
      ensures isHeader == HeaderTest(js) && classify == Classifier(js)
      ensures Valid()
      ensures step == Upload && workbook == None && sheetNames == [] && fileData == [] && headers == []
      ensures selectedCardId == "" && mapping == UNMAPPED
    {
      isHeader, classify := HeaderTest(js), Classifier(js);
      step := Upload;
      workbook := None;
      sheetNames, fileData, headers := [], [], [];
      selectedCardId := "";
      mapping := UNMAPPED;
    }

    /**
     * `analyzeSheet`: finds the header row, keeps the data rows, guesses the
     * mapping and moves to the mapping step. An empty sheet has no row 0,
     * and the source's `forEach` on it throws: the model reports that and
     * changes nothing.
     */
    method AnalyzeSheet(wb: Workbook, sheetName: string) returns (ok: bool)
      requires Valid() && sheetName in wb.sheets
      modifies this
      ensures Valid()
      ensures ok <==> |wb.sheets[sheetName]| > 0
      ensures !ok ==> step == old(step) && headers == old(headers) && fileData == old(fileData) && mapping == old(mapping)
      ensures ok ==> var data := wb.sheets[sheetName];
        var h := FirstHeader(data, isHeader);
        && h < |data| && headers == data[h] && fileData == DataRows(data, h)
        && mapping == LastColumns(headers, classify) && step == MappingStep
      ensures workbook == old(workbook) && sheetNames == old(sheetNames) && selectedCardId == old(selectedCardId)
    {
      var data := wb.sheets[sheetName];
      if |data| == 0 {
        return false;
      }
      var headerIndex, extractedHeaders, newMapping := Analyze(isHeader, classify, data);
      headers, fileData, mapping, step := extractedHeaders, DataRows(data, headerIndex), newMapping, MappingStep;
      return true;
    }

    /** `processFile` once the workbook is read: one sheet is analysed at once, several are offered for choice. */
    method ProcessFile(wb: Workbook)
      requires Valid() && Readable(wb)
      modifies this
      ensures Valid()
      ensures workbook == Some(wb) && sheetNames == wb.sheetNames && selectedCardId == old(selectedCardId)
      ensures |wb.sheetNames| != 1 ==>
        step == SheetSelection && headers == old(headers) && fileData == old(fileData) && mapping == old(mapping)
      ensures |wb.sheetNames| == 1 && |wb.sheets[wb.sheetNames[0]]| > 0 ==>
        var data := wb.sheets[wb.sheetNames[0]];
        var h := FirstHeader(data, isHeader);
        && h < |data| && headers == data[h] && fileData == DataRows(data, h)
        && mapping == LastColumns(headers, classify) && step == MappingStep
      ensures |wb.sheetNames| == 1 && |wb.sheets[wb.sheetNames[0]]| == 0 ==>
        step == old(step) && headers == old(headers) && fileData == old(fileData) && mapping == old(mapping)
    {
      workbook := Some(wb);
      sheetNames := wb.sheetNames;
      if |wb.sheetNames| == 1 {
        var ok := AnalyzeSheet(wb, wb.sheetNames[0]);
      } else {
        step := SheetSelection;
      }
    }

    /** A sheet picked in the selection step is analysed. */
    method SelectSheet(k: int) returns (ok: bool)
      requires Valid() && step == SheetSelection && 0 <= k < |sheetNames|
      requires workbook.Some? ==> Readable(workbook.value) && sheetNames == workbook.value.sheetNames
      modifies this
      ensures Valid()
      ensures workbook == old(workbook) && sheetNames == old(sheetNames) && selectedCardId == old(selectedCardId)
      ensures ok <==> workbook.Some? && |workbook.value.sheets[sheetNames[k]]| > 0
      ensures !ok ==> step == old(step) && headers == old(headers) && fileData == old(fileData) && mapping == old(mapping)
      ensures ok ==> var data := workbook.value.sheets[sheetNames[k]];
        var h := FirstHeader(data, isHeader);
        && h < |data| && headers == data[h] && fileData == DataRows(data, h)
        && mapping == LastColumns(headers, classify) && step == MappingStep
    {
      if workbook.None? {
        return false;
      }
      ok := AnalyzeSheet(workbook.value, sheetNames[k]);
    }

    /** Choosing a column in one of the four selects; only the description offers "none" (-1). */
    method ChooseColumn(f: Field, idx: int)
      requires Valid() && (if f == DescriptionField then -1 else 0) <= idx < |headers|
      modifies this
      ensures Valid()
      ensures mapping == Assign(old(mapping), f, idx)
      ensures step == old(step) && headers == old(headers) && fileData == old(fileData)
      ensures selectedCardId == old(selectedCardId) && workbook == old(workbook) && sheetNames == old(sheetNames)
    {
      mapping := Assign(mapping, f, idx);
    }

    method SelectCard(cardId: string)
      modifies this
      requires Valid()
      ensures Valid()
      ensures selectedCardId == cardId
      ensures step == old(step) && mapping == old(mapping) && headers == old(headers) && fileData == old(fileData)
      ensures workbook == old(workbook) && sheetNames == old(sheetNames)
    {
      selectedCardId := cardId;
    }

    /** The "next" button: enabled only when the required columns and a card are chosen. */
    method Next()
      requires Valid() && step == MappingStep
      modifies this
      ensures Valid()
      ensures step == if CanAdvance(mapping, selectedCardId) then PreviewStep else MappingStep
      ensures mapping == old(mapping) && headers == old(headers) && fileData == old(fileData) && selectedCardId == old(selectedCardId)
      ensures workbook == old(workbook) && sheetNames == old(sheetNames)
    {
      if CanAdvance(mapping, selectedCardId) {
        step := PreviewStep;
      }
    }

    /**
     * The back buttons: sheet selection returns to the upload, the mapping
     * returns to sheet selection (the button shows only for a workbook of
     * several sheets), and the preview returns to the mapping.
     */
    method Back()
      requires Valid()
      modifies this
      ensures Valid()
      ensures old(step) == SheetSelection ==> step == Upload
      ensures old(step) == MappingStep ==> step == if |sheetNames| > 1 then SheetSelection else MappingStep
      ensures old(step) == PreviewStep ==> step == MappingStep
      ensures old(step) == Upload ==> step == Upload
      ensures mapping == old(mapping) && headers == old(headers) && fileData == old(fileData) && selectedCardId == old(selectedCardId)
      ensures workbook == old(workbook) && sheetNames == old(sheetNames)
    {
      match step
      case SheetSelection => step := Upload;
      case MappingStep => if |sheetNames| > 1 { step := SheetSelection; }
      case PreviewStep => step := MappingStep;
      case Upload =>
    }

    /** The rows the preview step shows: the preview of the current mapping and rows. */
    method Preview(js: Js) returns (rows: seq<PreviewRow>)
      requires Valid() && step == PreviewStep
      ensures rows == PreviewData(js, mapping, fileData)
    {
      rows := PreviewData(js, mapping, fileData);
    }

    /** `reset`: back to the upload step with no workbook and no rows; the mapping and the card stay. */
    method Reset()
      modifies this
      ensures Valid()
      ensures step == Upload && workbook == None && fileData == [] && headers == []
      ensures mapping == old(mapping) && selectedCardId == old(selectedCardId) && sheetNames == old(sheetNames)
    {
      step := Upload;
      workbook := None;
      fileData, headers := [], [];
    }

    /**
     * `handleSave`: nothing without a card; else the converted rows are
     * sent, and a `saved` upload resets the wizard.
     */
    method Save(js: Js, now: Date, saved: bool) returns (sent: Option<seq<Imported>>)
      requires Valid()
      modifies this
      ensures Valid()
      ensures old(selectedCardId) == "" ==>
                sent == None && step == old(step) && fileData == old(fileData) && headers == old(headers) && workbook == old(workbook)
      ensures old(selectedCardId) != "" ==> sent == Some(ToSave(js, now, old(mapping), old(selectedCardId), old(fileData)))
      ensures old(selectedCardId) != "" && saved ==> step == Upload && fileData == [] && headers == [] && workbook == None
      ensures old(selectedCardId) != "" && !saved ==>
                step == old(step) && fileData == old(fileData) && headers == old(headers) && workbook == old(workbook)
      ensures mapping == old(mapping) && selectedCardId == old(selectedCardId) && sheetNames == old(sheetNames)
    {
      if selectedCardId == "" {
        return None;
      }
      sent := Some(ToSave(js, now, mapping, selectedCardId, fileData));
      if saved {
        Reset();
      }
    }
  }
}
