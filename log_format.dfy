/**
 * Format recognition of a JMeter result log (`LogAnalysisInitiator.recognizeFormat`)
 * and the choice of analyser that follows it (`initiateNewAnalyserObject`).
 */
module LogFormat {
  import opened Wrappers
  import opened IntLiteral
  import opened Records

  /** The three answers of `recognizeFormat`: "xml", "csv" and "". */
  datatype Format = Xml | Csv | Unknown

  /** Text searched in the first line of an XML log. */
  const XmlDeclaration := "xml version"
  /** Text searched in the second line of an XML log. */
  const ResultsTag := "<testResults"
  /** Text searched in the header line of a CSV log. */
  const CsvHeader := "timeStamp,elapsed,label"

  /** `pat` occurs in `s` at position `i`. */
  predicate OccursAt(s: string, pat: string, i: int) {
    0 <= i <= |s| - |pat| && s[i..i + |pat|] == pat
  }

  /** `re.search(pat, s)` for a pattern without metacharacters: `pat` occurs in `s`. */
  predicate Contains(s: string, pat: string) {
    exists i | 0 <= i <= |s| - |pat| :: OccursAt(s, pat, i)
  }

  /** `s[i..k+1]` is a match of the regular expression `\d+,\d+,`, with `\d` read as the ASCII digits. */
  ghost predicate IntPairAt(s: string, i: int, j: int, k: int) {
    && 0 <= i < j
    && j + 1 < k < |s|
    && AllDigits(s[i..j])
    && s[j] == ','
    && AllDigits(s[j + 1..k])
    && s[k] == ','
  }

  /** `re.search("\d+,\d+,.*", s)` succeeds: some substring of `s` matches `\d+,\d+,`. */
  ghost predicate MatchesIntPair(s: string) {
    exists i, j, k :: IntPairAt(s, i, j, k)
  }

  /** A run of one or more digits starts at `q` and is followed by a comma. */
  function DigitsThenComma(s: string, q: nat): bool
    decreases |s| - q
  {
    q < |s| && IsDigit(s[q]) && ((q + 1 < |s| && s[q + 1] == ',') || DigitsThenComma(s, q + 1))
  }

  /** Some comma at position `p` or later is preceded by a digit and followed by digits and a comma. */
  function ScanIntPair(s: string, p: nat): bool
    decreases |s| - p
  {
    if p >= |s| then false
    else (1 <= p && s[p] == ',' && IsDigit(s[p - 1]) && DigitsThenComma(s, p + 1)) || ScanIntPair(s, p + 1)
  }

  /** A left-to-right search for `\d+,\d+,` in one line. */
  function SearchIntPair(s: string): bool {
    ScanIntPair(s, 0)
  }

  /** Where `DigitsThenComma` holds, the digits end at a comma. */
  lemma {:induction false} DigitsThenCommaEnd(s: string, q: nat) returns (k: nat)
    requires DigitsThenComma(s, q)
    ensures q < k < |s| && AllDigits(s[q..k]) && s[k] == ','
    decreases |s| - q
  {
    if q + 1 < |s| && s[q + 1] == ',' {
      k := q + 1;
    } else {
      var k' := DigitsThenCommaEnd(s, q + 1);
      k := k';
      assert s[q..k] == [s[q]] + s[q + 1..k];
    }
  }

  /** A run of digits ending at a comma satisfies `DigitsThenComma` at every position of the run. */
  lemma {:induction false} DigitsThenCommaFrom(s: string, q: nat, k: nat)
    requires q < k < |s| && AllDigits(s[q..k]) && s[k] == ','
    ensures DigitsThenComma(s, q)
    decreases k - q
  {
    assert s[q..k][0] == s[q];
    if q + 1 < k {
      assert s[q + 1..k] == s[q..k][1..];
      DigitsThenCommaFrom(s, q + 1, k);
    }
  }

  /** A successful scan from `p` exhibits a match. */
  lemma {:induction false} ScanIntPairSound(s: string, p: nat)
    requires ScanIntPair(s, p)
    ensures MatchesIntPair(s)
    decreases |s| - p
  {
    if 1 <= p && s[p] == ',' && IsDigit(s[p - 1]) && DigitsThenComma(s, p + 1) {
      var k := DigitsThenCommaEnd(s, p + 1);
      assert IntPairAt(s, p - 1, p, k);
    } else {
      ScanIntPairSound(s, p + 1);
    }
  }

  /** A match whose first comma is at `p` or later is found by the scan from `p`. */
  lemma {:induction false} ScanIntPairComplete(s: string, p: nat, i: int, j: int, k: int)
    requires IntPairAt(s, i, j, k) && p <= j
    ensures ScanIntPair(s, p)
    decreases j - p
  {
    if p == j {
      assert s[i..j][j - 1 - i] == s[j - 1];
      DigitsThenCommaFrom(s, j + 1, k);
    } else {
      ScanIntPairComplete(s, p + 1, i, j, k);
    }
  }

  /** The scanner agrees with the regular expression on every line. */
  lemma SearchIntPairCorrect(s: string)
    ensures SearchIntPair(s) <==> MatchesIntPair(s)
  {
    if SearchIntPair(s) {
      ScanIntPairSound(s, 0);
    }
    if MatchesIntPair(s) {
      var i, j, k :| IntPairAt(s, i, j, k);
      ScanIntPairComplete(s, 0, i, j, k);
    }
  }

  /**
   * `recognizeFormat(fileLines)`.  A log whose only line contains the CSV
   * header text makes the source index `fileLines[1]`: `Err(IndexError)`.
   */
  function RecognizeFormat(lines: seq<string>): (r: Result<Format, Failure>)
    ensures r.Err? ==> r.error == IndexError
  {
    if |lines| > 1 && Contains(lines[0], XmlDeclaration) && Contains(lines[1], ResultsTag) then Ok(Xml)
    else if |lines| == 0 then Ok(Unknown)
    else
      var dataFirst := SearchIntPair(lines[0]);
      if Contains(lines[0], CsvHeader) then
        if |lines| < 2 then Err(IndexError)
        else Ok(if dataFirst || SearchIntPair(lines[1]) then Csv else Unknown)
      else Ok(if dataFirst then Csv else Unknown)
  }

  /** The XML signature on the first two lines. */
  ghost predicate LooksLikeXml(lines: seq<string>) {
    |lines| >= 2 && Contains(lines[0], XmlDeclaration) && Contains(lines[1], ResultsTag)
  }

  /** A data line first, or the header line followed by a data line. */
  ghost predicate LooksLikeCsv(lines: seq<string>) {
    && |lines| >= 1
    && (MatchesIntPair(lines[0]) || (|lines| >= 2 && Contains(lines[0], CsvHeader) && MatchesIntPair(lines[1])))
  }

  /** The header text on the only line of the log. */
  ghost predicate HeaderWithoutData(lines: seq<string>) {
    |lines| == 1 && Contains(lines[0], CsvHeader)
  }

  /**
   * What `recognizeFormat` answers, in terms of the regular expressions it
   * searches: XML takes precedence, then CSV, then the empty answer; the lone
   * header line fails whatever else it contains.
   */
  lemma RecognizeFormatCases(lines: seq<string>)
    ensures RecognizeFormat(lines) == Ok(Xml) <==> LooksLikeXml(lines)
    ensures RecognizeFormat(lines) == Err(IndexError) <==> !LooksLikeXml(lines) && HeaderWithoutData(lines)
    ensures RecognizeFormat(lines) == Ok(Csv) <==>
              !LooksLikeXml(lines) && !HeaderWithoutData(lines) && LooksLikeCsv(lines)
    ensures RecognizeFormat(lines) == Ok(Unknown) <==>
              !LooksLikeXml(lines) && !HeaderWithoutData(lines) && !LooksLikeCsv(lines)
  {
    if |lines| >= 1 {
      SearchIntPairCorrect(lines[0]);
    }
    if |lines| >= 2 {
      SearchIntPairCorrect(lines[1]);
    }
  }

  /**
   * `initiateNewAnalyserObject` after the file was read: the CSV or XML
   * analyser, or "Incorrect log file format".
   */
  function SelectAnalyser(lines: seq<string>): (r: Result<Format, Failure>)
    ensures r.Ok? ==> r.value != Unknown && RecognizeFormat(lines) == r
    ensures r == Err(IncorrectFormat) <==> RecognizeFormat(lines) == Ok(Unknown)
  {
    match RecognizeFormat(lines)
    case Err(e) => Err(e)
    case Ok(Unknown) => Err(IncorrectFormat)
    case Ok(f) => Ok(f)
  }

  /** A log that is neither XML nor CSV stops the run with "Incorrect log file format". */
  lemma UnrecognizedLogFails(lines: seq<string>)
    requires !LooksLikeXml(lines) && !LooksLikeCsv(lines) && !HeaderWithoutData(lines)
    ensures SelectAnalyser(lines) == Err(IncorrectFormat)
  {
    RecognizeFormatCases(lines);
  }
}
