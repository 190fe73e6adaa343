/** The fraud report: the line list handed to the PDF writer, and what a reader of the file
    gets back of it. */
module FraudReport {
  import opened Options
  import opened Decimal
  import opened Utf8
  import opened PdfWriter
  import opened PdfReader
  import opened PdfStrings
  import opened PdfContent
  import opened PdfRoundTrip
  import opened PdfDocument

  /** The analysis and user columns the report shows; numbers and the date as already
      formatted text. */
  datatype Report = Report(
    id: string, status: string, riskScore: string, email: Option<string>, phone: Option<string>,
    latitude: Option<string>, longitude: Option<string>, createdAt: string, riskFactors: seq<string>)

  const FIXED_LINES: nat := 10

  function FactorLine(factor: string, index: nat): string {
    NatToString(index + 1) + ". " + factor
  }

  function FactorLines(factors: seq<string>): (r: seq<string>)
    ensures |r| == |factors|
    ensures forall i | 0 <= i < |r| :: r[i] == FactorLine(factors[i], i)
  {
    seq(|factors|, i requires 0 <= i < |factors| => FactorLine(factors[i], i))
  }

  function HeaderLines(r: Report): (lines: seq<string>)
    ensures |lines| == FIXED_LINES
  {
    ["Aegis Fraud Report",
     "Analysis ID: " + r.id,
     "Status: " + r.status,
     "Risk Score: " + r.riskScore,
     "User Email: " + ValueOr(r.email, "Unknown"),
     "User Phone: " + ValueOr(r.phone, "Unknown"),
     "GPS: " + ValueOr(r.latitude, "N/A") + ", " + ValueOr(r.longitude, "N/A"),
     "Created At: " + r.createdAt,
     "",
     "Risk Factors:"]
  }

  function ReportLines(r: Report): (lines: seq<string>)
    ensures |lines| == FIXED_LINES + if r.riskFactors == [] then 1 else |r.riskFactors|
    ensures lines[..FIXED_LINES] == HeaderLines(r)
    ensures forall i | 0 <= i < |r.riskFactors| :: lines[FIXED_LINES + i] == FactorLine(r.riskFactors[i], i)
    ensures r.riskFactors == [] ==> lines[FIXED_LINES] == "None"
  {
    HeaderLines(r) + (if r.riskFactors == [] then ["None"] else FactorLines(r.riskFactors))
  }

  /** What a reader sees, starting from the end of the file. */
  function ShownIn(file: string): Option<seq<Shown>> {
    if ReportStreamOf(file).None? then None else ShownText(ReportStreamOf(file).value)
  }

  ghost predicate Fits(lines: seq<string>) {
    FitsTable(HEADER, Objects(ContentStream(lines)))
  }

  lemma ShownLines(lines: seq<string>)
    requires Fits(lines)
    ensures ShownIn(Pdf(lines)) == Some(Expected(lines, 0))
  {
    ReportReadsBack(lines);
  }

  ghost predicate NoReturns(lines: seq<string>) {
    forall i | 0 <= i < |lines| :: '\r' !in lines[i]
  }

  /** The shown lines, one for one, at their heights. */
  ghost predicate ShowsExactly(shown: seq<Shown>, lines: seq<string>) {
    |shown| == |lines| && forall i | 0 <= i < |lines| :: shown[i] == Shown(Placed(i), Encode(lines[i]))
  }

  /** A reader of the file sees exactly the given lines, in order and at their heights,
      exactly when no line holds a carriage return. */
  lemma {:induction false} LinesSurviveIffNoReturn(lines: seq<string>)
    requires Fits(lines)
    ensures ShownIn(Pdf(lines)).Some? && (ShowsExactly(ShownIn(Pdf(lines)).value, lines) <==> NoReturns(lines))
  {
    ShownLines(lines);
    ExpectedIffNoReturn(lines);
  }

  lemma ShownAt(lines: seq<string>, i: nat)
    requires i < |lines| && '\r' !in lines[i]
    ensures |Expected(lines, 0)| == |lines| && Expected(lines, 0)[i] == Shown(Placed(i), Encode(lines[i]))
  {
    ExpectedAt(lines, 0);
    NormalizeLeavesNoReturn(lines[i]);
  }

  /** Every risk factor is shown, numbered from 1, in order, below the ten fixed lines. */
  lemma {:induction false} FactorIsShown(r: Report, i: nat)
    requires Fits(ReportLines(r)) && i < |r.riskFactors| && '\r' !in r.riskFactors[i]
    ensures var shown := ShownIn(Pdf(ReportLines(r)));
            && shown.Some? && |shown.value| == FIXED_LINES + |r.riskFactors|
            && shown.value[FIXED_LINES + i]
               == Shown(Placed(FIXED_LINES + i), Encode(NatToString(i + 1) + ". " + r.riskFactors[i]))
  {
    ShownLines(ReportLines(r));
    FactorLineHasNoReturn(r.riskFactors[i], i);
    ShownAt(ReportLines(r), FIXED_LINES + i);
  }

  /** The text shown at line i of the page. */
  function TextAt(r: Report, i: nat): Option<string> {
    var shown := ShownIn(Pdf(ReportLines(r)));
    if shown.None? || i >= |shown.value| || shown.value[i].at != Placed(i) then None else Some(shown.value[i].text)
  }

  /** Each column stands behind its own label, a missing one as a word. */
  lemma ColumnsAreLabelled(r: Report)
    ensures var lines := HeaderLines(r);
            && lines[0] == "Aegis Fraud Report" && lines[1] == "Analysis ID: " + r.id
            && lines[2] == "Status: " + r.status && lines[3] == "Risk Score: " + r.riskScore
            && lines[4] == "User Email: " + (if r.email.Some? then r.email.value else "Unknown")
            && lines[5] == "User Phone: " + (if r.phone.Some? then r.phone.value else "Unknown")
            && lines[7] == "Created At: " + r.createdAt && lines[8] == "" && lines[9] == "Risk Factors:"
    ensures HeaderLines(r)[6] == "GPS: " + (if r.latitude.Some? then r.latitude.value else "N/A")
                                 + ", " + (if r.longitude.Some? then r.longitude.value else "N/A")
  {}

  /** The ten fixed lines are shown at the head of the page. */
  lemma HeaderIsShown(r: Report, i: nat)
    requires Fits(ReportLines(r)) && NoReturns(ReportLines(r)) && i < FIXED_LINES
    ensures TextAt(r, i) == Some(Encode(HeaderLines(r)[i]))
  {
    assert ReportLines(r)[i] == ReportLines(r)[..FIXED_LINES][i] == HeaderLines(r)[i];
    ShownLines(ReportLines(r));
    ShownAt(ReportLines(r), i);
  }

  lemma FactorLineHasNoReturn(factor: string, index: nat)
    ensures '\r' in FactorLine(factor, index) <==> '\r' in factor
  {
    var number := NatToString(index + 1);
    assert AllDigits(number);
    assert forall c | c in number :: IsDigit(c);
    assert FactorLine(factor, index) == number + (". " + factor);
  }

  /** The page is 792 units high and has no second one: every line's baseline is on the page
      exactly when there are at most 38 risk factors. */
  lemma AllLinesOnPageIff(r: Report)
    ensures (forall i: nat | i < |ReportLines(r)| :: 0 <= Placed(i).y <= 792) <==> |r.riskFactors| <= 38
  {
    if |r.riskFactors| > 38 {
      assert Placed(48).y < 0 && 48 < |ReportLines(r)|;
    }
  }

  /** The file determines the lines: two reports with one file have the same lines. */
  lemma FileDeterminesLines(a: seq<string>, b: seq<string>)
    requires Fits(a) && Fits(b) && NoReturns(a) && NoReturns(b)
    ensures Pdf(a) == Pdf(b) <==> a == b
  {
    if Pdf(a) == Pdf(b) {
      ShownLines(a);
      ShownLines(b);
      ExpectedIffNoReturn(a);
      ExpectedIffNoReturn(b);
      forall i | 0 <= i < |a| ensures a[i] == b[i] {
        assert Expected(a, 0)[i] == Shown(Placed(i), Encode(a[i]));
        assert Expected(b, 0)[i] == Shown(Placed(i), Encode(b[i]));
        EncodeInjective(a[i], b[i]);
      }
    }
  }

  // ---- What the file says about the report ----

  lemma SameSuffix(prefix: string, a: string, b: string)
    requires prefix + a == prefix + b
    ensures a == b
  {
    assert (prefix + a)[|prefix|..] == a && (prefix + b)[|prefix|..] == b;
  }

  lemma SameHeader(r: Report, q: Report)
    requires HeaderLines(r) == HeaderLines(q)
    ensures r.id == q.id && r.status == q.status && r.riskScore == q.riskScore && r.createdAt == q.createdAt
  {
    assert HeaderLines(r)[1] == HeaderLines(q)[1] && HeaderLines(r)[2] == HeaderLines(q)[2];
    assert HeaderLines(r)[3] == HeaderLines(q)[3] && HeaderLines(r)[7] == HeaderLines(q)[7];
    SameSuffix("Analysis ID: ", r.id, q.id);
    SameSuffix("Status: ", r.status, q.status);
    SameSuffix("Risk Score: ", r.riskScore, q.riskScore);
    SameSuffix("Created At: ", r.createdAt, q.createdAt);
  }

  lemma FactorLineIsNotNone(factor: string)
    ensures FactorLine(factor, 0) != "None"
  {
    assert IsDigit(NatToString(1)[0]) && FactorLine(factor, 0)[0] == NatToString(1)[0];
  }

  lemma SameFactors(r: Report, q: Report)
    requires ReportLines(r) == ReportLines(q)
    ensures r.riskFactors == q.riskFactors
  {
    var lines := ReportLines(r);
    if r.riskFactors == [] && q.riskFactors != [] {
      FactorLineIsNotNone(q.riskFactors[0]);
    } else if q.riskFactors == [] && r.riskFactors != [] {
      FactorLineIsNotNone(r.riskFactors[0]);
    }
    forall i | 0 <= i < |r.riskFactors| ensures r.riskFactors[i] == q.riskFactors[i] {
      assert lines[FIXED_LINES + i] == FactorLine(r.riskFactors[i], i) == FactorLine(q.riskFactors[i], i);
      SameSuffix(NatToString(i + 1) + ". ", r.riskFactors[i], q.riskFactors[i]);
    }
  }

  /** The file tells the analysis: reports with one file have the same id, status, score, date
      and risk factors. */
  lemma {:induction false} FileDeterminesAnalysis(r: Report, q: Report)
    requires Fits(ReportLines(r)) && Fits(ReportLines(q)) && NoReturns(ReportLines(r)) && NoReturns(ReportLines(q))
    requires Pdf(ReportLines(r)) == Pdf(ReportLines(q))
    ensures r.id == q.id && r.status == q.status && r.riskScore == q.riskScore && r.createdAt == q.createdAt
    ensures r.riskFactors == q.riskFactors
  {
    FileDeterminesLines(ReportLines(r), ReportLines(q));
    assert ReportLines(r)[..FIXED_LINES] == ReportLines(q)[..FIXED_LINES];
    SameHeader(r, q);
    SameFactors(r, q);
  }
}
