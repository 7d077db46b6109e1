/** The comma-separated exports of the address book and the number checker:
    fields joined with "," into rows, rows joined with "\n" into a document. */
module Csv {
  import opened Text

  function Row(fields: seq<string>): string
  {
    Join(fields, ",")
  }

  function Document(lines: seq<string>): string
  {
    Join(lines, "\n")
  }

  /** A character absent from every part and from the separator is absent from the join. */
  lemma {:induction false} JoinAvoids(parts: seq<string>, sep: string, c: char)
    requires forall i :: 0 <= i < |parts| ==> c !in parts[i]
    requires c !in sep
    ensures c !in Join(parts, sep)
  {
    if |parts| > 1 {
      JoinAvoids(parts[1..], sep, c);
    }
  }

  /** A row built from fields without line breaks is a single line. */
  lemma RowIsOneLine(fields: seq<string>)
    requires forall i :: 0 <= i < |fields| ==> '\n' !in fields[i]
    ensures '\n' !in Row(fields)
  {
    JoinAvoids(fields, ",", '\n');
  }

  /** Splitting a document on line breaks gives back its lines, when no line
      holds a line break. */
  lemma DocumentLines(lines: seq<string>)
    requires |lines| >= 1
    requires forall i :: 0 <= i < |lines| ==> '\n' !in lines[i]
    ensures Split(Document(lines), '\n') == lines
  {
    SplitJoin(lines, '\n');
  }

  /** Splitting a row on commas gives back its fields, when no field holds a comma. */
  lemma RowFields(fields: seq<string>)
    requires |fields| >= 1
    requires forall i :: 0 <= i < |fields| ==> ',' !in fields[i]
    ensures Split(Row(fields), ',') == fields
  {
    SplitJoin(fields, ',');
  }
}
