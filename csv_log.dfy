/**
 * Row classification of a CSV result log (`CsvLogAnalyser.getSamples` and
 * `validateCsvSampleAttributes`).  The rows are what `csv.reader` yields:
 * each row a sequence of fields, quotes already removed.
 */
module CsvLog {
  import opened Wrappers
  import opened IntLiteral
  import opened Records

  /** Python's `s.find(prefix) == 0`. */
  predicate StartsWith(s: string, prefix: string) {
    |prefix| <= |s| && s[..|prefix|] == prefix
  }

  /**
   * The header test made on row 0.  A row too short to index raises inside
   * the `try` and is therefore not a header.
   */
  predicate IsHeaderRow(row: seq<string>) {
    |row| >= 2 && StartsWith(row[0], "timeStamp") && StartsWith(row[1], "elapsed")
  }

  /** `validateCsvSampleAttributes`: fields 0, 1, 8 and 9 parse with `int()`. */
  predicate ValidateCsvSampleAttributes(row: seq<string>)
    requires |row| >= 10
  {
    && ParseInt(row[0]).Some?
    && ParseInt(row[1]).Some?
    && ParseInt(row[8]).Some?
    && ParseInt(row[9]).Some?
  }

  /** The fixed 14-column layout used after a header: bytes from column 9, latency from column 13. */
  function HeaderLayoutSample(row: seq<string>): Sample
    requires |row| >= 14
  {
    Sample(row[0], row[1], row[2], row[3], row[4], row[5], row[6], row[7], row[9], row[13], None, [])
  }

  /** A headerless row that passed validation: 10 fields make a `Sample`, 12 a `Sample2`. */
  function DataRowSample(row: seq<string>): Sample
    requires |row| == 10 || |row| == 12
  {
    var extended := if |row| == 12 then Some(ThreadCounts(row[10], row[11])) else None;
    Sample(row[0], row[1], row[2], row[3], row[4], row[5], row[6], row[7], row[8], row[9], extended, [])
  }

  /** Whether a headerless row yields a sample. */
  predicate AcceptedDataRow(row: seq<string>) {
    (|row| == 10 || |row| == 12) && ValidateCsvSampleAttributes(row)
  }

  /**
   * One pass of the loop body of `getSamples` for the row numbered `counter`:
   * a sample, nothing, or the `IndexError` of a short row after a header.
   */
  function ClassifyRow(row: seq<string>, headerFound: bool, counter: nat): Result<Option<Sample>, Failure> {
    if headerFound then
      if counter == 0 then Ok(None)
      else if |row| < 14 then Err(IndexError)
      else Ok(Some(HeaderLayoutSample(row)))
    else if AcceptedDataRow(row) then Ok(Some(DataRowSample(row)))
    else Ok(None)
  }

  /** The samples collected from `rows`, in row order; the first failing row stops the scan. */
  function ParsedRows(rows: seq<seq<string>>, headerFound: bool): (r: Result<seq<Sample>, Failure>)
    ensures r.Err? ==> r.error == IndexError
    decreases |rows|
  {
    if rows == [] then Ok([])
    else
      match ParsedRows(rows[..|rows| - 1], headerFound)
      case Err(e) => Err(e)
      case Ok(samples) =>
        match ClassifyRow(rows[|rows| - 1], headerFound, |rows| - 1)
        case Err(e) => Err(e)
        case Ok(None) => Ok(samples)
        case Ok(Some(s)) => Ok(samples + [s])
  }

  /** Whether `getSamples` takes the header path for these rows. */
  predicate HeaderFound(rows: seq<seq<string>>) {
    |rows| > 0 && IsHeaderRow(rows[0])
  }

  /** `CsvLogAnalyser.getSamples` as a whole, with its final "No samples were found" check. */
  function CsvSamples(rows: seq<seq<string>>): (r: Result<seq<Sample>, Failure>)
    ensures r.Ok? ==> |r.value| > 0
    ensures r.Err? ==> r.error == NoSamples || r.error == IndexError
  {
    match ParsedRows(rows, HeaderFound(rows))
    case Err(e) => Err(e)
    case Ok(samples) => if |samples| == 0 then Err(NoSamples) else Ok(samples)
  }

  /**
   * After a header every later row is mapped by the 14-column layout, without
   * any check of its numbers; the scan fails exactly when some row is shorter
   * than 14 fields.
   */
  lemma {:induction false} HeaderRowsMapped(rows: seq<seq<string>>)
    requires |rows| >= 1
    ensures ParsedRows(rows, true).Ok? <==> forall i :: 1 <= i < |rows| ==> |rows[i]| >= 14
    ensures ParsedRows(rows, true).Err? ==> ParsedRows(rows, true).error == IndexError
    ensures ParsedRows(rows, true).Ok? ==>
              var samples := ParsedRows(rows, true).value;
              && |samples| == |rows| - 1
              && forall i :: 1 <= i < |rows| ==> samples[i - 1] == HeaderLayoutSample(rows[i])
    decreases |rows|
  {
    if |rows| > 1 {
      var prefix := rows[..|rows| - 1];
      HeaderRowsMapped(prefix);
      assert forall i :: 1 <= i < |prefix| ==> prefix[i] == rows[i];
    }
  }

  /** Without a header the scan never fails. */
  lemma {:induction false} DataRowsNeverFail(rows: seq<seq<string>>)
    ensures ParsedRows(rows, false).Ok?
    decreases |rows|
  {
    if rows != [] {
      DataRowsNeverFail(rows[..|rows| - 1]);
    }
  }

  /** A headerless row yields the same outcome wherever it stands. */
  lemma DataRowStep(rows: seq<seq<string>>, row: seq<string>)
    requires ParsedRows(rows, false).Ok?
    ensures ParsedRows(rows + [row], false) ==
              Ok(ParsedRows(rows, false).value + if AcceptedDataRow(row) then [DataRowSample(row)] else [])
  {
    var r := rows + [row];
    assert r[..|r| - 1] == rows && r[|r| - 1] == row;
    var samples := ParsedRows(rows, false).value;
    if AcceptedDataRow(row) {
      assert ClassifyRow(row, false, |rows|) == Ok(Some(DataRowSample(row)));
      assert ParsedRows(r, false) == Ok(samples + [DataRowSample(row)]);
    } else {
      assert ClassifyRow(row, false, |rows|) == Ok(None);
      assert ParsedRows(r, false) == Ok(samples);
      assert samples + [] == samples;
    }
  }

  /** Without a header the rows are classified one by one: the samples of `a + b` are those of `a` followed by those of `b`. */
  lemma {:induction false} DataRowsAppend(a: seq<seq<string>>, b: seq<seq<string>>)
    ensures ParsedRows(a + b, false).Ok? && ParsedRows(a, false).Ok? && ParsedRows(b, false).Ok?
    ensures ParsedRows(a + b, false).value == ParsedRows(a, false).value + ParsedRows(b, false).value
    decreases |b|
  {
    DataRowsNeverFail(a + b);
    DataRowsNeverFail(a);
    DataRowsNeverFail(b);
    if b == [] {
      assert a + b == a;
    } else {
      var b', row := b[..|b| - 1], b[|b| - 1];
      assert b == b' + [row];
      assert a + b == (a + b') + [row];
      DataRowsAppend(a, b');
      DataRowsAppendStep(a, b', row);
    }
  }

  /** The step of `DataRowsAppend`: one more row after `b` extends both sides alike. */
  lemma DataRowsAppendStep(a: seq<seq<string>>, b: seq<seq<string>>, row: seq<string>)
    requires ParsedRows(a + b, false).Ok? && ParsedRows(a, false).Ok? && ParsedRows(b, false).Ok?
    requires ParsedRows(a + b, false).value == ParsedRows(a, false).value + ParsedRows(b, false).value
    ensures ParsedRows((a + b) + [row], false).Ok? && ParsedRows(b + [row], false).Ok?
    ensures ParsedRows((a + b) + [row], false).value == ParsedRows(a, false).value + ParsedRows(b + [row], false).value
  {
    DataRowStep(a + b, row);
    DataRowStep(b, row);
    var extra := if AcceptedDataRow(row) then [DataRowSample(row)] else [];
    assert (ParsedRows(a, false).value + ParsedRows(b, false).value) + extra
        == ParsedRows(a, false).value + (ParsedRows(b, false).value + extra);
  }

  /**
   * Without a header, every sample comes from a row that passed validation,
   * and keeps that row's text; and every row that passes validation yields
   * its sample.
   */
  lemma DataRowsValidated(rows: seq<seq<string>>)
    ensures ParsedRows(rows, false).Ok?
    ensures forall s :: s in ParsedRows(rows, false).value ==>
              exists i :: 0 <= i < |rows| && AcceptedDataRow(rows[i]) && s == DataRowSample(rows[i])
    ensures forall i :: 0 <= i < |rows| && AcceptedDataRow(rows[i]) ==> DataRowSample(rows[i]) in ParsedRows(rows, false).value
  {
    SamplesFromAcceptedRows(rows);
    AcceptedRowsYieldSamples(rows);
  }

  /** Without a header, every sample comes from a row that passed validation. */
  lemma {:induction false} SamplesFromAcceptedRows(rows: seq<seq<string>>)
    ensures ParsedRows(rows, false).Ok?
    ensures forall s :: s in ParsedRows(rows, false).value ==>
              exists i :: 0 <= i < |rows| && AcceptedDataRow(rows[i]) && s == DataRowSample(rows[i])
    decreases |rows|
  {
    DataRowsNeverFail(rows);
    if rows != [] {
      var prefix := rows[..|rows| - 1];
      SamplesFromAcceptedRows(prefix);
      forall s | s in ParsedRows(rows, false).value
        ensures exists i :: 0 <= i < |rows| && AcceptedDataRow(rows[i]) && s == DataRowSample(rows[i])
      {
        if s in ParsedRows(prefix, false).value {
          var i :| 0 <= i < |prefix| && AcceptedDataRow(prefix[i]) && s == DataRowSample(prefix[i]);
          assert rows[i] == prefix[i];
        } else {
          assert AcceptedDataRow(rows[|rows| - 1]) && s == DataRowSample(rows[|rows| - 1]);
        }
      }
    }
  }

  /** Without a header, every row that passes validation yields its sample. */
  lemma {:induction false} AcceptedRowsYieldSamples(rows: seq<seq<string>>)
    ensures ParsedRows(rows, false).Ok?
    ensures forall i :: 0 <= i < |rows| && AcceptedDataRow(rows[i]) ==> DataRowSample(rows[i]) in ParsedRows(rows, false).value
    decreases |rows|
  {
    DataRowsNeverFail(rows);
    if rows != [] {
      var prefix, last := rows[..|rows| - 1], rows[|rows| - 1];
      AcceptedRowsYieldSamples(prefix);
      assert rows == prefix + [last];
      DataRowStep(prefix, last);
      forall i | 0 <= i < |prefix| && AcceptedDataRow(rows[i])
        ensures DataRowSample(rows[i]) in ParsedRows(rows, false).value
      {
        assert rows[i] == prefix[i];
      }
    }
  }

  /** A validated row yields a sample whose four numeric fields parse, so aggregation cannot raise `ValueError` on it. */
  lemma DataRowSampleNumeric(row: seq<string>)
    requires AcceptedDataRow(row)
    ensures NumericFieldsParse(DataRowSample(row))
  {
  }

  /** A headerless log's samples all have numeric fields that parse. */
  lemma DataRowsNumeric(rows: seq<seq<string>>)
    ensures ParsedRows(rows, false).Ok?
    ensures forall s :: s in ParsedRows(rows, false).value ==> NumericFieldsParse(s)
  {
    DataRowsValidated(rows);
  }

  /** Once a prefix of the rows fails, every longer prefix fails the same way. */
  lemma {:induction false} PrefixFailurePersists(rows: seq<seq<string>>, k: nat, headerFound: bool)
    requires k <= |rows| && ParsedRows(rows[..k], headerFound).Err?
    ensures ParsedRows(rows, headerFound) == ParsedRows(rows[..k], headerFound)
    decreases |rows| - k
  {
    if k < |rows| {
      assert rows[..k + 1][..k] == rows[..k];
      PrefixFailurePersists(rows, k + 1, headerFound);
    } else {
      assert rows[..k] == rows;
    }
  }

  /** A row shorter than 14 fields after the header stops the whole scan with an index error. */
  lemma ShortRowFails(rows: seq<seq<string>>, k: nat)
    requires k < |rows| && 1 <= k && HeaderFound(rows) && |rows[k]| < 14
    requires ParsedRows(rows[..k], true).Ok?
    ensures CsvSamples(rows) == Err(IndexError)
  {
    assert ParsedRows(rows[..k + 1], true) == Err(IndexError) by {
      assert rows[..k + 1][..k] == rows[..k];
    }
    PrefixFailurePersists(rows, k + 1, true);
    assert rows[..|rows|] == rows;
  }
}
