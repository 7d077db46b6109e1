/** The number checker page (`src/components/pages/NumberCheck.tsx`): the
    single and bulk checks that prepend results, the import of the first CSV
    column into the bulk box, the CSV export, and the statistic cards. The
    random outcomes of a check and the clock are parameters. */
module NumberChecker {
  import opened Seqs
  import opened Text
  import opened Types
  import opened Csv

  /** The random outcomes one check draws: valid (`> 0.2`), on WhatsApp
      (`> 0.3`), with a picture (`> 0.5`), with an about text (`> 0.7`), with
      an error (`> 0.8`). */
  datatype Draw = Draw(valid: bool, whatsApp: bool, withPicture: bool, withAbout: bool, withError: bool)

  const PictureUrl: string := "https://images.unsplash.com/photo-1494790108755-2616b619639a?w=150"
  const AboutText: string := "Hey there! I am using WhatsApp."
  const SingleCheckError: string := "Number not in service"
  const BulkCheckError: string := "Invalid format"

  /** The result record a check builds for `phone`. */
  function Check(phone: string, d: Draw, now: string, errorText: string): NumberCheck
  {
    NumberCheck(phone, d.valid, d.whatsApp, now,
                if d.withPicture then Some(PictureUrl) else None,
                if d.withAbout then Some(AboutText) else None,
                if d.withError then Some(errorText) else None)
  }

  /** `n => n.trim()` used as a filter: the line holds a non-space character. */
  predicate IsFilled(line: string)
  {
    !IsBlank(line)
  }

  /** The numbers of the bulk box: its lines, without blank ones, trimmed. */
  function BulkNumbers(input: string): seq<string>
  {
    Map(Filter(Split(input, '\n'), IsFilled), Trim)
  }

  /** A trimmed filled line is non-empty and keeps no character it did not have. */
  lemma TrimmedLine(x: string, c: char)
    requires IsFilled(x) && c !in x
    ensures Trim(x) != "" && c !in Trim(x) && Trim(Trim(x)) == Trim(x)
  {
    TrimEmptyIffBlank(x);
    TrimOccurs(x);
    TrimIdempotent(x);
    OccursWithin(x, Trim(x), |x| - |TrimStart(x)|);
  }

  /** Every bulk number is non-empty, trimmed, and a single line. */
  lemma BulkNumbersShape(input: string)
    ensures var r := BulkNumbers(input);
      |r| <= |Split(input, '\n')| &&
      forall i :: 0 <= i < |r| ==> r[i] != "" && '\n' !in r[i] && Trim(r[i]) == r[i]
  {
    var kept := Filter(Split(input, '\n'), IsFilled);
    forall i | 0 <= i < |kept|
      ensures Trim(kept[i]) != "" && '\n' !in Trim(kept[i]) && Trim(Trim(kept[i])) == Trim(kept[i])
    {
      assert kept[i] in kept;
      TrimmedLine(kept[i], '\n');
    }
  }

  /** Non-empty trimmed lines joined with line breaks come back as they were. */
  lemma BulkNumbersOfLines(lines: seq<string>)
    requires |lines| >= 1
    requires forall i :: 0 <= i < |lines| ==> lines[i] != "" && '\n' !in lines[i] && Trim(lines[i]) == lines[i]
    ensures BulkNumbers(Join(lines, "\n")) == lines
  {
    SplitJoin(lines, '\n');
    forall x | x in lines
      ensures IsFilled(x)
    {
      TrimEmptyIffBlank(x);
    }
    FilterAll(lines, IsFilled);
  }

  /** A blank part joined to blank parts by a blank separator stays blank. */
  lemma {:induction false} JoinBlank(parts: seq<string>, sep: string)
    requires forall i :: 0 <= i < |parts| ==> IsBlank(parts[i])
    requires IsBlank(sep)
    ensures IsBlank(Join(parts, sep))
  {
    if |parts| > 1 {
      JoinBlank(parts[1..], sep);
      var rest := Join(parts[1..], sep);
      var j := parts[0] + sep + rest;
      assert forall k :: 0 <= k < |j| ==>
        j[k] == if k < |parts[0]| then parts[0][k]
                else if k < |parts[0]| + |sep| then sep[k - |parts[0]|]
                else rest[k - |parts[0]| - |sep|];
    }
  }

  /** Text that is not blank always yields a bulk number, so the page's second
      guard (an empty list after the blank test) never fires. */
  lemma FilledInputHasNumbers(input: string)
    ensures BulkNumbers(input) == [] ==> IsBlank(input)
  {
    var parts := Split(input, '\n');
    if Filter(parts, IsFilled) == [] {
      assert forall i :: 0 <= i < |parts| ==> IsBlank(parts[i]) by {
        forall i | 0 <= i < |parts|
          ensures IsBlank(parts[i])
        {
          assert parts[i] in parts;
        }
      }
      JoinBlank(parts, "\n");
      JoinSplit(input, '\n');
    }
  }

  /** `line.split(",")[0]`. */
  function FirstColumn(line: string): string
  {
    FirstField(line, ',')
  }

  /** The values the upload takes: the first column of every line after the
      header, without blank values. */
  function ImportedValues(content: string): seq<string>
  {
    Filter(Map(Split(content, '\n')[1..], FirstColumn), IsFilled)
  }

  /** What the upload writes into the bulk box. */
  function ImportedNumbers(content: string): string
  {
    Join(ImportedValues(content), "\n")
  }

  /** An imported value is filled, holds no comma and no line break, and there
      is at most one per line after the header. */
  lemma ImportedValuesShape(content: string)
    ensures var v := ImportedValues(content);
      |v| < |Split(content, '\n')| &&
      forall i :: 0 <= i < |v| ==> IsFilled(v[i]) && ',' !in v[i] && '\n' !in v[i]
  {
    var lines := Split(content, '\n')[1..];
    var firsts := Map(lines, FirstColumn);
    forall i | 0 <= i < |firsts|
      ensures '\n' !in firsts[i]
    {
      var f := FirstField(lines[i], ',');
      assert lines[i] in Split(content, '\n');
      assert forall j :: 0 <= j < |f| ==> f[j] == lines[i][j];
    }
  }

  /** The bulk check of imported numbers checks exactly the imported values, trimmed. */
  lemma ImportThenBulk(content: string)
    ensures BulkNumbers(ImportedNumbers(content)) == Map(ImportedValues(content), Trim)
  {
    var v := ImportedValues(content);
    ImportedValuesShape(content);
    if v == [] {
      assert Split("", '\n') == [""];
      assert Filter([""], IsFilled) == [];
    } else {
      SplitJoin(v, '\n');
      FilterAll(v, IsFilled);
    }
  }

  /** The export's column names and header line. */
  const ExportColumns: seq<string> := ["Phone Number", "Valid", "Has WhatsApp", "Last Checked", "Error"]
  const ExportHeader: string := Row(ExportColumns)

  /** `n.error || ""`. */
  function ErrorText(e: Option<string>): string
  {
    if e.Some? then e.value else ""
  }

  /** The five fields of one exported result. */
  function ExportFields(n: NumberCheck): seq<string>
  {
    [n.phoneNumber, BoolToString(n.isValid), BoolToString(n.hasWhatsApp), n.lastChecked, ErrorText(n.error)]
  }

  /** The exported file: the header, then one row per result. */
  function ExportCsv(numbers: seq<NumberCheck>): string
  {
    Csv.Document([ExportHeader] + Map(Map(numbers, ExportFields), Row))
  }

  /** The header is a single line that splits into the five column names. */
  lemma HeaderIsOneLine()
    ensures '\n' !in ExportHeader
    ensures Split(ExportHeader, ',') == ExportColumns
  {
    assert forall i :: 0 <= i < |ExportColumns| ==> CsvSafe(ExportColumns[i]);
    RowIsOneLine(ExportColumns);
    RowFields(ExportColumns);
  }

  /** A text that cannot break the comma-and-line layout. */
  predicate CsvSafe(s: string)
  {
    ',' !in s && '\n' !in s
  }

  /** The result's texts are free of commas and line breaks. */
  predicate Exportable(n: NumberCheck)
  {
    CsvSafe(n.phoneNumber) && CsvSafe(n.lastChecked) && CsvSafe(ErrorText(n.error))
  }

  /** Each exported field is safe when the result's texts are. */
  lemma ExportFieldsSafe(n: NumberCheck)
    requires Exportable(n)
    ensures |ExportFields(n)| == 5
    ensures forall j :: 0 <= j < 5 ==> CsvSafe(ExportFields(n)[j])
  {
    assert CsvSafe("true") && CsvSafe("false");
  }

  /** One exported result is a single line that splits into its five fields. */
  lemma ResultRow(n: NumberCheck)
    requires Exportable(n)
    ensures '\n' !in Row(ExportFields(n)) && Split(Row(ExportFields(n)), ',') == ExportFields(n)
  {
    ExportFieldsSafe(n);
    RowIsOneLine(ExportFields(n));
    RowFields(ExportFields(n));
  }

  /** The export's lines are the header and one row per result. */
  lemma ExportLines(numbers: seq<NumberCheck>)
    requires forall i :: 0 <= i < |numbers| ==> Exportable(numbers[i])
    ensures Split(ExportCsv(numbers), '\n') == [ExportHeader] + Map(Map(numbers, ExportFields), Row)
  {
    var lines := [ExportHeader] + Map(Map(numbers, ExportFields), Row);
    forall i | 0 <= i < |lines|
      ensures '\n' !in lines[i]
    {
      if i == 0 {
        HeaderIsOneLine();
      } else {
        ResultRow(numbers[i - 1]);
      }
    }
    DocumentLines(lines);
  }

  /** The export reads back as the header followed by one five-field line per
      result, in order; a missing error is the empty field. */
  lemma ExportShape(numbers: seq<NumberCheck>)
    requires forall i :: 0 <= i < |numbers| ==> Exportable(numbers[i])
    ensures var lines := Split(ExportCsv(numbers), '\n');
      |lines| == |numbers| + 1 && lines[0] == ExportHeader &&
      forall i :: 0 <= i < |numbers| ==> Split(lines[i + 1], ',') == ExportFields(numbers[i])
    ensures forall i :: 0 <= i < |numbers| && numbers[i].error.None? ==> ExportFields(numbers[i])[4] == ""
  {
    ExportLines(numbers);
    var lines := Split(ExportCsv(numbers), '\n');
    forall i | 0 <= i < |numbers|
      ensures Split(lines[i + 1], ',') == ExportFields(numbers[i])
    {
      ResultRow(numbers[i]);
    }
  }

  /** The upload reads the first column after the header: the phone numbers
      of any document laid out like the export. */
  lemma {:induction false} ImportRows(header: string, rows: seq<seq<string>>)
    requires '\n' !in header
    requires forall i :: 0 <= i < |rows| ==> |rows[i]| >= 1 && IsFilled(rows[i][0])
    requires forall i, j :: 0 <= i < |rows| && 0 <= j < |rows[i]| ==> CsvSafe(rows[i][j])
    ensures var v := ImportedValues(Csv.Document([header] + Map(rows, Row)));
      |v| == |rows| && forall i :: 0 <= i < |rows| ==> v[i] == rows[i][0]
  {
    var body := Map(rows, Row);
    forall i | 0 <= i < |rows|
      ensures '\n' !in body[i] && FirstColumn(body[i]) == rows[i][0]
    {
      SafeRowFirstColumn(rows[i]);
    }
    var lines := [header] + body;
    DocumentLines(lines);
    assert Split(Csv.Document(lines), '\n')[1..] == body;
    var firsts := Map(body, FirstColumn);
    assert forall x :: x in firsts ==> IsFilled(x);
    FilterAll(firsts, IsFilled);
  }

  /** A line of safe fields is one line whose first column is its first field. */
  lemma SafeRowFirstColumn(row: seq<string>)
    requires |row| >= 1
    requires forall j :: 0 <= j < |row| ==> CsvSafe(row[j])
    ensures '\n' !in Row(row) && FirstColumn(Row(row)) == row[0]
  {
    RowIsOneLine(row);
    RowFields(row);
  }

  /** Importing an export gives back the checked phone numbers, in order, when
      none of them is blank. */
  lemma ExportThenImport(numbers: seq<NumberCheck>)
    requires forall i :: 0 <= i < |numbers| ==> Exportable(numbers[i]) && IsFilled(numbers[i].phoneNumber)
    ensures ImportedValues(ExportCsv(numbers)) == Map(numbers, (n: NumberCheck) => n.phoneNumber)
  {
    var rows := Map(numbers, ExportFields);
    forall i | 0 <= i < |rows|
      ensures |rows[i]| >= 1 && IsFilled(rows[i][0]) && forall j :: 0 <= j < |rows[i]| ==> CsvSafe(rows[i][j])
    {
      ExportFieldsSafe(numbers[i]);
    }
    HeaderIsOneLine();
    ImportRows(ExportHeader, rows);
  }

  predicate IsValidNumber(n: NumberCheck)
  {
    n.isValid
  }

  predicate OnWhatsApp(n: NumberCheck)
  {
    n.hasWhatsApp
  }

  /** `n.error` is truthy: present and not empty. */
  predicate HasError(n: NumberCheck)
  {
    n.error.Some? && n.error.value != ""
  }

  function ValidCount(numbers: seq<NumberCheck>): (r: nat)
    ensures r <= |numbers|
  {
    |Filter(numbers, IsValidNumber)|
  }

  function WhatsAppCount(numbers: seq<NumberCheck>): (r: nat)
    ensures r <= |numbers|
  {
    |Filter(numbers, OnWhatsApp)|
  }

  function ErrorCount(numbers: seq<NumberCheck>): (r: nat)
    ensures r <= |numbers|
  {
    |Filter(numbers, HasError)|
  }

  /** Prepending results adds their counts: the cards count the new results
      plus the old ones. */
  lemma CountsOfPrepend(added: seq<NumberCheck>, existing: seq<NumberCheck>)
    ensures ValidCount(added + existing) == ValidCount(added) + ValidCount(existing)
    ensures WhatsAppCount(added + existing) == WhatsAppCount(added) + WhatsAppCount(existing)
    ensures ErrorCount(added + existing) == ErrorCount(added) + ErrorCount(existing)
  {
    FilterAppend(added, existing, IsValidNumber);
    FilterAppend(added, existing, OnWhatsApp);
    FilterAppend(added, existing, HasError);
  }

  /** `whole > 0 ? Math.round(part / whole * 100) : 0`. */
  function Percent(part: int, whole: int): (r: int)
    ensures whole <= 0 ==> r == 0
    ensures whole > 0 ==> 2 * whole * r - whole <= 200 * part < 2 * whole * r + whole
  {
    if whole > 0 then RoundDiv(100 * part, whole) else 0
  }

  /** "% success rate". */
  function SuccessRate(numbers: seq<NumberCheck>): int
  {
    Percent(ValidCount(numbers), |numbers|)
  }

  /** "% of valid". */
  function WhatsAppShare(numbers: seq<NumberCheck>): int
  {
    Percent(WhatsAppCount(numbers), ValidCount(numbers))
  }

  /** "% failed". */
  function FailureRate(numbers: seq<NumberCheck>): int
  {
    Percent(ErrorCount(numbers), |numbers|)
  }

  /** A part of its whole is 0 to 100 percent. */
  lemma PercentOfWhole(part: int, whole: int)
    requires 0 <= part <= whole
    ensures 0 <= Percent(part, whole) <= 100
  {
    if whole > 0 {
      RoundPercentBounds(part, whole);
    }
  }

  /** A non-negative part is a non-negative percentage. */
  lemma PercentNonNegative(part: int, whole: int)
    requires part >= 0
    ensures Percent(part, whole) >= 0
  {
    if whole > 0 {
      var r := Percent(part, whole);
      assert 0 < 2 * whole * r + whole;
      PositiveProduct(whole, 2 * r + 1);
    }
  }

  /** The success and failure rates are percentages, 0 with no results; the
      WhatsApp share is 0 with no valid result and never negative. */
  lemma RatesInRange(numbers: seq<NumberCheck>)
    ensures 0 <= SuccessRate(numbers) <= 100 && 0 <= FailureRate(numbers) <= 100
    ensures numbers == [] ==> SuccessRate(numbers) == 0 && FailureRate(numbers) == 0
    ensures ValidCount(numbers) == 0 ==> WhatsAppShare(numbers) == 0
    ensures WhatsAppShare(numbers) >= 0
  {
    PercentOfWhole(ValidCount(numbers), |numbers|);
    PercentOfWhole(ErrorCount(numbers), |numbers|);
    PercentNonNegative(WhatsAppCount(numbers), ValidCount(numbers));
  }

  /** The WhatsApp share compares two independent draws, so it can pass 100:
      one valid and one invalid number, both on WhatsApp, show 200. */
  lemma WhatsAppShareCanExceedHundred(now: string)
    ensures var ns := [Check("1", Draw(true, true, false, false, false), now, SingleCheckError),
                       Check("2", Draw(false, true, false, false, false), now, SingleCheckError)];
      WhatsAppShare(ns) == 200
  {
    var ns := [Check("1", Draw(true, true, false, false, false), now, SingleCheckError),
               Check("2", Draw(false, true, false, false, false), now, SingleCheckError)];
    assert Filter(ns, IsValidNumber) == [ns[0]];
    assert Filter(ns, OnWhatsApp) == ns;
  }

  /** The number of rows the results table shows. */
  const TableRows: nat := 10

  function ShownResults(numbers: seq<NumberCheck>): (r: seq<NumberCheck>)
    ensures |r| <= TableRows && |r| <= |numbers|
    ensures numbers == r + numbers[|r|..]
  {
    Take(numbers, TableRows)
  }

  /** "Showing 10 of N results". */
  predicate ShowsMoreNote(numbers: seq<NumberCheck>)
  {
    |numbers| > TableRows
  }

  /** The note appears exactly when the table leaves results out. */
  lemma MoreNoteIffTruncated(numbers: seq<NumberCheck>)
    ensures ShowsMoreNote(numbers) <==> |ShownResults(numbers)| < |numbers|
  {
  }

  /** The results of a bulk check, one per number in input order; the i-th
      number draws `draw(i)`. */
  function BulkChecks(list: seq<string>, draw: nat -> Draw, now: string): (r: seq<NumberCheck>)
    ensures |r| == |list|
    ensures forall i :: 0 <= i < |list| ==> r[i] == Check(list[i], draw(i), now, BulkCheckError)
  {
    seq(|list|, i requires 0 <= i < |list| => Check(list[i], draw(i), now, BulkCheckError))
  }

  class Page {
    var numbers: seq<NumberCheck>
    var singleNumber: string
    var bulkNumbers: string
    var isChecking: bool

    /** The page with its sample results and empty inputs. */
    constructor(initial: seq<NumberCheck>)
      ensures numbers == initial && singleNumber == "" && bulkNumbers == "" && !isChecking
    {
      numbers := initial;
      singleNumber := "";
      bulkNumbers := "";
      isChecking := false;
    }

    /** `handleSingleCheck` and its delayed completion: a blank input does
        nothing; otherwise the untrimmed input is checked, its result goes
        first, and the input is cleared. */
    method HandleSingleCheck(d: Draw, now: string)
      modifies this`numbers, this`singleNumber, this`isChecking
      ensures IsBlank(old(singleNumber)) ==>
        numbers == old(numbers) && singleNumber == old(singleNumber) && isChecking == old(isChecking)
      ensures !IsBlank(old(singleNumber)) ==>
        numbers == [Check(old(singleNumber), d, now, SingleCheckError)] + old(numbers) &&
        singleNumber == "" && !isChecking
    {
      if IsBlank(singleNumber) {
        return;
      }
      isChecking := true;
      numbers := [Check(singleNumber, d, now, SingleCheckError)] + numbers;
      singleNumber := "";
      isChecking := false;
    }

    /** `handleBulkCheck` and its delayed completion: a blank input does
        nothing; otherwise one result per number, in input order, goes before
        the existing results, and the input is cleared. */
    method HandleBulkCheck(draw: nat -> Draw, now: string)
      modifies this`numbers, this`bulkNumbers, this`isChecking
      ensures IsBlank(old(bulkNumbers)) ==>
        numbers == old(numbers) && bulkNumbers == old(bulkNumbers) && isChecking == old(isChecking)
      ensures !IsBlank(old(bulkNumbers)) ==>
        numbers == BulkChecks(BulkNumbers(old(bulkNumbers)), draw, now) + old(numbers) &&
        bulkNumbers == "" && !isChecking
    {
      if IsBlank(bulkNumbers) {
        return;
      }
      var list := BulkNumbers(bulkNumbers);
      FilledInputHasNumbers(bulkNumbers);
      isChecking := true;
      numbers := BulkChecks(list, draw, now) + numbers;
      bulkNumbers := "";
      isChecking := false;
    }

    /** `handleFileUpload` once the reader has the text: the bulk box receives
        the imported numbers; without a file nothing happens. */
    method HandleFileUpload(content: Option<string>)
      modifies this`bulkNumbers
      ensures content.None? ==> bulkNumbers == old(bulkNumbers)
      ensures content.Some? ==> bulkNumbers == ImportedNumbers(content.value)
    {
      if content.Some? {
        bulkNumbers := ImportedNumbers(content.value);
      }
    }
  }
}
