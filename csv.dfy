/**
 * `dict_to_csv`: a list of dicts rendered with Python's `csv.writer` in its
 * default (excel) dialect: fields separated by `,`, a field quoted with `"`
 * only when it holds `,`, `"`, CR or LF, inner quotes doubled, every row
 * ended by CR LF, `None` written as an empty field, and a row made of one
 * empty field written as `""`.
 *
 * A reader for that dialect is given beside the writer, and the round trip
 * `ReadCsv(CsvOf(data))` is proved to give back the header (the first dict's
 * keys) followed by one row of cell texts per dict.
 */
module Csv {
  import opened PyText
  import opened PyValue

  /** A Python dict with its keys in insertion order. */
  type Dict = seq<(string, Json)>

  function Keys(d: Dict): (ks: seq<string>)
    ensures |ks| == |d| && forall k :: 0 <= k < |d| ==> ks[k] == d[k].0
  {
    seq(|d|, k requires 0 <= k < |d| => d[k].0)
  }

  /** The text the csv writer produces for one value: `None` is the empty
      field, anything else is `str(value)`. */
  function CellText(v: Json): (r: string)
    ensures v.JNull? ==> r == ""
    ensures v.JStr? ==> r == v.s
  {
    if v.JNull? then "" else Str(v)
  }

  /** The cell texts of one dict's values, in the dict's own order. */
  function Cells(d: Dict): (cs: seq<string>)
    ensures |cs| == |d| && forall k :: 0 <= k < |d| ==> cs[k] == CellText(d[k].1)
  {
    seq(|d|, k requires 0 <= k < |d| => CellText(d[k].1))
  }

  predicate Special(c: char)
  {
    c == ',' || c == '"' || c == '\r' || c == '\n'
  }

  predicate NeedsQuotes(f: string)
  {
    exists k :: 0 <= k < |f| && Special(f[k])
  }

  function DoubleQuotes(f: string): string
  {
    if f == [] then ""
    else (if f[0] == '"' then "\"\"" else [f[0]]) + DoubleQuotes(f[1..])
  }

  /** One field as written by QUOTE_MINIMAL. */
  function QuoteField(f: string): string
  {
    if NeedsQuotes(f) then "\"" + DoubleQuotes(f) + "\"" else f
  }

  function QuoteAll(fields: seq<string>): (qs: seq<string>)
    ensures |qs| == |fields| && forall k :: 0 <= k < |fields| ==> qs[k] == QuoteField(fields[k])
  {
    seq(|fields|, k requires 0 <= k < |fields| => QuoteField(fields[k]))
  }

  const Terminator: string := "\r\n"

  /** `writer.writerow(fields)` */
  function FormatRow(fields: seq<string>): string
  {
    if fields == [""] then "\"\"" + Terminator
    else Join(QuoteAll(fields), ",") + Terminator
  }

  /** The rows written one after another. */
  function RowsText(rows: seq<seq<string>>): string
  {
    if rows == [] then "" else FormatRow(rows[0]) + RowsText(rows[1..])
  }

  function CellRows(data: seq<Dict>): (rows: seq<seq<string>>)
    ensures |rows| == |data| && forall i :: 0 <= i < |data| ==> rows[i] == Cells(data[i])
  {
    seq(|data|, i requires 0 <= i < |data| => Cells(data[i]))
  }

  /** The table `dict_to_csv` writes: no rows at all for an empty list,
      otherwise the first dict's keys, then each dict's values. */
  function Table(data: seq<Dict>): seq<seq<string>>
  {
    if data == [] then [] else [Keys(data[0])] + CellRows(data)
  }

  /** The text `dict_to_csv(data)` returns. */
  function CsvOf(data: seq<Dict>): (r: string)
    ensures r == "" <==> data == []
  {
    var rows := Table(data);
    if rows == [] then "" else RowsText(rows)
  }

  /** `dict_to_csv`: an empty list gives the empty string; otherwise the
      header row is written first, then one row per dict. */
  method DictToCsv(data: seq<Dict>) returns (csv: string)
    ensures csv == CsvOf(data)
  {
    if data == [] {
      return "";
    }
    var header := Keys(data[0]);
    var buffer := FormatRow(header);
    HeaderRowWritten(header, data);
    for i := 0 to |data|
      invariant buffer == RowsText([header] + CellRows(data[..i]))
    {
      WriteOneMoreRow(header, data, i);
      buffer := buffer + FormatRow(Cells(data[i]));
    }
    AllRowsWritten(data);
    csv := buffer;
  }

  lemma HeaderRowWritten(header: seq<string>, data: seq<Dict>)
    ensures RowsText([header] + CellRows(data[..0])) == FormatRow(header)
  {
    assert CellRows(data[..0]) == [];
    assert [header] + CellRows(data[..0]) == [header];
    assert [header][..0] == [];
  }

  lemma AllRowsWritten(data: seq<Dict>)
    requires data != []
    ensures CsvOf(data) == RowsText([Keys(data[0])] + CellRows(data[..|data|]))
  {
    assert data[..|data|] == data;
  }

  lemma WriteOneMoreRow(header: seq<string>, data: seq<Dict>, i: nat)
    requires i < |data|
    ensures RowsText([header] + CellRows(data[..i + 1]))
         == RowsText([header] + CellRows(data[..i])) + FormatRow(Cells(data[i]))
  {
    var before := [header] + CellRows(data[..i]);
    var after := [header] + CellRows(data[..i + 1]);
    assert after == before + [Cells(data[i])];
    RowsTextSnoc(before, Cells(data[i]));
  }

  /** Writing one more row appends its text. */
  lemma {:induction false} RowsTextSnoc(rows: seq<seq<string>>, row: seq<string>)
    ensures RowsText(rows + [row]) == RowsText(rows) + FormatRow(row)
    decreases |rows|
  {
    if rows == [] {
      assert rows + [row] == [row];
      assert [row][1..] == [];
    } else {
      RowsTextSnoc(rows[1..], row);
      assert (rows + [row])[1..] == rows[1..] + [row];
      var a, b, c := FormatRow(rows[0]), RowsText(rows[1..]), FormatRow(row);
      assert a + (b + c) == (a + b) + c;
    }
  }

  // ---------------------------------------------------------------------
  // Reading the excel dialect back.

  /** Drops `n` characters, or everything if there are fewer. */
  function Drop(s: string, n: nat): (r: string)
    ensures |r| <= |s|
  {
    if n <= |s| then s[n..] else ""
  }

  /** An unquoted field: everything up to `,`, CR or the end. */
  function ReadBare(s: string): (r: (string, string))
    ensures |r.1| <= |s|
  {
    if s == [] || s[0] == ',' || s[0] == '\r' then ("", s)
    else var (f, rest) := ReadBare(s[1..]); ([s[0]] + f, rest)
  }

  /** The body of a quoted field, after its opening quote: `""` stands for
      one quote, a lone `"` closes the field. */
  function ReadQuoted(s: string): (r: (string, string))
    ensures |r.1| < |s| || s == []
  {
    if s == [] then ("", s)
    else if s[0] == '"' then
      if |s| >= 2 && s[1] == '"' then var (f, rest) := ReadQuoted(s[2..]); ("\"" + f, rest)
      else ("", s[1..])
    else var (f, rest) := ReadQuoted(s[1..]); ([s[0]] + f, rest)
  }

  function ReadField(s: string): (r: (string, string))
    ensures |r.1| <= |s|
    ensures s != [] && s[0] == '"' ==> |r.1| < |s|
  {
    if s != [] && s[0] == '"' then ReadQuoted(s[1..]) else ReadBare(s)
  }

  /** The fields of one row, up to and including its terminator. */
  function ReadFields(s: string): (r: (seq<string>, string))
    ensures |r.1| < |s| || s == []
    decreases |s|
  {
    var (f, rest) := ReadField(s);
    if rest != [] && rest[0] == ',' then
      var (fs, tail) := ReadFields(rest[1..]);
      ([f] + fs, tail)
    else ([f], Drop(rest, 2))
  }

  /** One row: a bare terminator is a row with no fields. */
  function ReadRow(s: string): (r: (seq<string>, string))
    requires s != []
    ensures |r.1| < |s|
  {
    if StartsWith(s, Terminator) then ([], s[2..]) else ReadFields(s)
  }

  /** All rows of a CSV text. */
  function ReadCsv(s: string): seq<seq<string>>
    decreases |s|
  {
    if s == [] then [] else var (row, rest) := ReadRow(s); [row] + ReadCsv(rest)
  }

  // ---------------------------------------------------------------------
  // The round trip.

  /** What may follow a field: nothing, the next field, or the terminator. */
  predicate FieldEnd(rest: string)
  {
    rest == [] || rest[0] == ',' || rest[0] == '\r'
  }

  lemma {:induction false} ReadBareField(f: string, rest: string)
    requires !NeedsQuotes(f) && FieldEnd(rest)
    ensures ReadBare(f + rest) == (f, rest)
  {
    if f != [] {
      assert (f + rest)[0] == f[0] && !Special(f[0]);
      assert [f[0]] + f[1..] == f;
      assert !NeedsQuotes(f[1..]) by {
        forall k | 0 <= k < |f[1..]| ensures !Special(f[1..][k]) {
          assert f[1..][k] == f[k + 1];
        }
      }
      assert (f + rest)[1..] == f[1..] + rest;
      ReadBareField(f[1..], rest);
      var s := f + rest;
      assert !(s == [] || s[0] == ',' || s[0] == '\r');
      assert ReadBare(s) == ([s[0]] + ReadBare(s[1..]).0, ReadBare(s[1..]).1);
      assert ReadBare(s[1..]) == (f[1..], rest);
      assert [s[0]] + f[1..] == f;
    } else {
      assert f + rest == rest;
    }
  }

  lemma {:induction false} ReadQuotedField(f: string, rest: string)
    requires rest == [] || rest[0] != '"'
    ensures ReadQuoted(DoubleQuotes(f) + "\"" + rest) == (f, rest)
  {
    var s := DoubleQuotes(f) + "\"" + rest;
    if f == [] {
      assert s == "\"" + rest;
      assert s[1..] == rest;
    } else {
      ReadQuotedField(f[1..], rest);
      assert [f[0]] + f[1..] == f;
      var tail := DoubleQuotes(f[1..]) + "\"" + rest;
      if f[0] == '"' {
        assert s == "\"\"" + tail;
        assert s[2..] == tail;
      } else {
        assert s == [f[0]] + tail;
        assert s[1..] == tail;
      }
    }
  }

  lemma ReadFieldQuoted(f: string, rest: string)
    requires FieldEnd(rest)
    ensures ReadField(QuoteField(f) + rest) == (f, rest)
  {
    if NeedsQuotes(f) {
      var s := "\"" + DoubleQuotes(f) + "\"" + rest;
      assert s[1..] == DoubleQuotes(f) + "\"" + rest;
      ReadQuotedField(f, rest);
    } else {
      if f != [] {
        assert !Special(f[0]);
        assert (f + rest)[0] == f[0];
      }
      ReadBareField(f, rest);
    }
  }

  lemma {:induction false} ReadJoinedFields(fields: seq<string>, more: string)
    requires |fields| >= 1
    ensures ReadFields(Join(QuoteAll(fields), ",") + Terminator + more) == (fields, more)
  {
    var q := QuoteField(fields[0]);
    if |fields| == 1 {
      assert QuoteAll(fields) == [q];
      var s := q + (Terminator + more);
      assert Join(QuoteAll(fields), ",") + Terminator + more == s;
      ReadFieldQuoted(fields[0], Terminator + more);
      var rest := Terminator + more;
      assert rest[0] == '\r';
      assert Drop(rest, 2) == more;
      assert ReadField(s) == (fields[0], rest);
      assert ReadFields(s) == ([fields[0]], Drop(rest, 2));
      assert fields == [fields[0]];
    } else {
      var qs := QuoteAll(fields);
      assert qs[0] == q && qs[1..] == QuoteAll(fields[1..]);
      var next := Join(QuoteAll(fields[1..]), ",") + Terminator + more;
      var s := q + ("," + next);
      assert Join(qs, ",") + Terminator + more == s;
      ReadFieldQuoted(fields[0], "," + next);
      assert ("," + next)[1..] == next;
      ReadJoinedFields(fields[1..], more);
      assert [fields[0]] + fields[1..] == fields;
    }
  }

  lemma ReadFormattedRow(fields: seq<string>, more: string)
    ensures ReadRow(FormatRow(fields) + more) == (fields, more)
  {
    if fields == [] {
      ReadNoFieldRow(more);
    } else if fields == [""] {
      ReadEmptyFieldRow(more);
    } else {
      ReadFieldsRow(fields, more);
    }
  }

  lemma ReadNoFieldRow(more: string)
    ensures ReadRow(FormatRow([]) + more) == ([], more)
  {
    var s := FormatRow([]) + more;
    assert QuoteAll([]) == [];
    assert s == Terminator + more;
    assert StartsWith(s, Terminator);
  }

  /** A row of one empty field is written `""`, which reads back as that
      one empty field. */
  lemma ReadEmptyFieldRow(more: string)
    ensures ReadRow(FormatRow([""]) + more) == ([""], more)
  {
    var s := FormatRow([""]) + more;
    assert s == "\"\"" + Terminator + more;
    assert !StartsWith(s, Terminator) by { assert s[0] == '"'; }
    assert ReadField(s) == ("", Terminator + more) by {
      assert s[1..] == DoubleQuotes("") + "\"" + (Terminator + more);
      ReadQuotedField("", Terminator + more);
    }
    assert Drop(Terminator + more, 2) == more;
  }

  lemma ReadFieldsRow(fields: seq<string>, more: string)
    requires fields != [] && fields != [""]
    ensures ReadRow(FormatRow(fields) + more) == (fields, more)
  {
    var s := FormatRow(fields) + more;
    ReadJoinedFields(fields, more);
    assert !StartsWith(s, Terminator) by {
      var qs := QuoteAll(fields);
      var q := qs[0];
      if q == [] {
        assert fields[0] == "";
        assert |fields| >= 2;
        assert Join(qs, ",") == q + "," + Join(qs[1..], ",");
        assert s[0] == ',';
      } else if NeedsQuotes(fields[0]) {
        assert s[0] == '"';
      } else {
        assert Join(qs, ",")[0] == q[0] == fields[0][0];
        assert !Special(fields[0][0]);
      }
    }
  }

  lemma {:induction false} ReadRowsText(rows: seq<seq<string>>)
    ensures ReadCsv(RowsText(rows)) == rows
    decreases |rows|
  {
    if rows != [] {
      ReadFormattedRow(rows[0], RowsText(rows[1..]));
      ReadRowsText(rows[1..]);
      assert [rows[0]] + rows[1..] == rows;
    }
  }

  /** Reading back what `dict_to_csv` wrote gives nothing for an empty list,
      and otherwise the first dict's keys followed by one row per dict,
      in list order, holding that dict's values as text. */
  lemma CsvRoundTrip(data: seq<Dict>)
    ensures ReadCsv(CsvOf(data)) == Table(data)
    ensures data != [] ==> ReadCsv(CsvOf(data))[0] == Keys(data[0])
    ensures forall i :: 0 <= i < |data| ==> ReadCsv(CsvOf(data))[i + 1] == Cells(data[i])
  {
    var t := Table(data);
    ReadRowsText(t);
    if data != [] {
      assert t[0] == Keys(data[0]);
      forall i | 0 <= i < |data|
        ensures t[i + 1] == Cells(data[i])
      {
        assert t[i + 1] == CellRows(data)[i];
      }
    }
  }
}
