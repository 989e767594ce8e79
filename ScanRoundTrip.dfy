/** The sampling output file read back by the scan parser. A file written
    without a refit parses completely: one row per saved line, holding the
    two chosen parameter values and twice the difference of the line's
    minimum to the input minimum. A file written with a refit has lines of
    twice the width and is rejected at its best-fit line. */
module ScanRoundTrip {
  import opened Common
  import opened Streams
  import opened Samplers
  import opened AnalyzerSpec
  import opened ParseScan

  /** The lines of fits written without a refit, one per (parameters, fval). */
  function RecordLines(dm: Dumper, nsave: int, records: seq<(seq<Parameter>, real)>): (ls: seq<Line>)
    requires nsave != 1
    ensures |ls| == |records|
  {
    if records == [] then []
    else
      var last := records[|records| - 1];
      RecordLines(dm, nsave, records[..|records| - 1]) + [SampleLine(dm, nsave, last.0, last.1, None)]
  }

  /** Line k is the line of record k. */
  lemma {:induction false} RecordLinesAt(dm: Dumper, nsave: int, records: seq<(seq<Parameter>, real)>, k: nat)
    requires nsave != 1 && k < |records|
    ensures RecordLines(dm, nsave, records)[k] == SampleLine(dm, nsave, records[k].0, records[k].1, None)
  {
    if k < |records| - 1 {
      RecordLinesAt(dm, nsave, records[..|records| - 1], k);
    }
  }

  lemma NumericAppend(a: Line, b: Line)
    requires Numeric(a) && Numeric(b)
    ensures Numeric(a + b)
  {
    forall i | 0 <= i < |a + b|
      ensures Float((a + b)[i]).Some?
    {
      if i >= |a| {
        assert (a + b)[i] == b[i - |a|];
      }
    }
  }

  lemma {:induction false} DumpFieldsNumeric(dm: Dumper, values: seq<real>, ndump: int, n: nat)
    requires ndump > 1
    ensures Numeric(DumpFields(dm, values, ndump, n))
  {
    if n > 0 {
      DumpFieldsNumeric(dm, values, ndump, n - 1);
      NumericAppend(DumpFields(dm, values, ndump, n - 1),
                    RealTexts(Predictions(dm, GridPoint(dm.rmin, dm.rmax, ndump, n - 1), values)));
    }
  }

  /** Every field of a saved line is a number. */
  lemma SampleLineNumeric(dm: Dumper, nsave: int, parameters: seq<Parameter>, fval: real,
                          refit: Option<(seq<Parameter>, real)>)
    requires nsave != 1
    ensures Numeric(SampleLine(dm, nsave, parameters, fval, refit))
  {
    var fields := FitFields(parameters, fval);
    var refitFields := if refit.Some? then FitFields(refit.value.0, refit.value.1) else [];
    NumericAppend(fields, refitFields);
    if nsave > 0 {
      DumpFieldsNumeric(dm, Values(parameters), nsave, nsave);
      var dumps := DumpFields(dm, Values(parameters), nsave, nsave);
      var refitDumps := if refit.Some? then DumpFields(dm, Values(refit.value.0), nsave, nsave) else [];
      if refit.Some? {
        DumpFieldsNumeric(dm, Values(refit.value.0), nsave, nsave);
      }
      NumericAppend(dumps, refitDumps);
      NumericAppend(fields + refitFields, dumps + refitDumps);
    }
  }

  /** A line written without a refit gives the row of its two parameter
      values and its chi-square minus the best one. */
  lemma RecordLineRow(dm: Dumper, nsave: int, parameters: seq<Parameter>, fval: real,
                      lineno: nat, index1: int, index2: int, bestchisq: real)
    requires nsave >= 0 && nsave != 1
    requires 0 <= index1 < |parameters| && 0 <= index2 < |parameters|
    ensures ScanRow(SampleLine(dm, nsave, parameters, fval, None), lineno, index1, index2,
                    |parameters|, 1 + |parameters| + 3 * nsave, bestchisq)
         == Ok(Row(parameters[index1].value, parameters[index2].value, 2.0 * fval - bestchisq))
  {
    var l := SampleLine(dm, nsave, parameters, fval, None);
    SampleLineNumeric(dm, nsave, parameters, fval, None);
    SampleLineLength(dm, nsave, parameters, fval, None);
    var fields := FitFields(parameters, fval);
    assert l[..|fields|] == fields;
    assert Floats(l)[index1] == parameters[index1].value by { assert l[index1] == fields[index1]; }
    assert Floats(l)[index2] == parameters[index2].value by { assert l[index2] == fields[index2]; }
  }

  /** The first two lines of a file written without a refit: the header
      announcing the parameters, the saved fits per line and one fit, then
      the parameter errors. */
  lemma HeaderAndErrorsLines(dm: Dumper, nsave: int, fmin: FunctionMinimum, body: seq<Line>)
    requires nsave >= 0 && nsave != 1
    ensures var file := HeaderLines(dm, nsave, fmin, None) + body;
      && ReadHeader(LineOf(file, 0)) == Some(Header(|fmin.parameters|, nsave, 1))
      && LineOf(file, 1) == RealTexts(Errors(fmin.parameters))
  {
    var file := HeaderLines(dm, nsave, fmin, None) + body;
    assert LineOf(file, 0) == HeaderLines(dm, nsave, fmin, None)[0];
    assert LineOf(file, 1) == RealTexts(Errors(fmin.parameters)) + [];
  }

  /** The third line of a file written without a refit is the input
      minimum's own line, whose chi-square is twice its fval; the lines
      after it are the body. */
  lemma BestLine(dm: Dumper, nsave: int, fmin: FunctionMinimum, body: seq<Line>)
    requires nsave >= 0 && nsave != 1
    ensures var file := HeaderLines(dm, nsave, fmin, None) + body;
      && LineOf(file, 2) == SampleLine(dm, nsave, fmin.parameters, fmin.minValue, None)
      && DataLines(file) == body
  {
    var file := HeaderLines(dm, nsave, fmin, None) + body;
    assert LineOf(file, 2) == HeaderLines(dm, nsave, fmin, None)[2];
    assert DataLines(file) == body;
  }

  /** The header lines of a file written without a refit pass every check
      of the parser, which then reads the remaining lines as scan points
      against the input minimum's chi-square. */
  lemma HeaderPasses(dm: Dumper, nsave: int, fmin: FunctionMinimum, body: seq<Line>, index1: int, index2: int)
    requires nsave >= 0 && nsave != 1
    requires 0 <= index1 < |fmin.parameters| && 0 <= index2 < |fmin.parameters|
    ensures Scan(IntText(index1), IntText(index2), HeaderLines(dm, nsave, fmin, None) + body)
         == ScanPoints(index1, index2, |fmin.parameters|, 1 + |fmin.parameters| + 3 * nsave, 2.0 * fmin.minValue, body, 3)
  {
    HeaderAndErrorsLines(dm, nsave, fmin, body);
    BestLine(dm, nsave, fmin, body);
    RecordLineRow(dm, nsave, fmin.parameters, fmin.minValue, 3, index1, index2, 0.0);
    SampleLineNumeric(dm, nsave, fmin.parameters, fmin.minValue, None);
  }

  /** Value of parameter i (0 outside the parameters). */
  function ValueAt(ps: seq<Parameter>, i: int): real {
    if 0 <= i < |ps| then ps[i].value else 0.0
  }

  /** The rows the parser makes of records: the two chosen parameter
      values and twice the fval less bestchisq, one row per record. */
  function RecordRows(records: seq<(seq<Parameter>, real)>, index1: int, index2: int, bestchisq: real): (rows: seq<Row>)
    ensures |rows| == |records|
  {
    if records == [] then []
    else [Row(ValueAt(records[0].0, index1), ValueAt(records[0].0, index2), 2.0 * records[0].1 - bestchisq)]
         + RecordRows(records[1..], index1, index2, bestchisq)
  }

  /** Row k is made of record k. */
  lemma {:induction false} RecordRowsAt(records: seq<(seq<Parameter>, real)>, index1: int, index2: int, bestchisq: real,
                                        k: nat)
    requires k < |records|
    ensures RecordRows(records, index1, index2, bestchisq)[k]
         == Row(ValueAt(records[k].0, index1), ValueAt(records[k].0, index2), 2.0 * records[k].1 - bestchisq)
  {
    if k > 0 {
      RecordRowsAt(records[1..], index1, index2, bestchisq, k - 1);
    }
  }

  /** Saved lines of as many parameters as the header announces are all
      scan points, in order. */
  lemma RecordsParse(dm: Dumper, nsave: int, records: seq<(seq<Parameter>, real)>, npar: nat,
                     index1: int, index2: int, bestchisq: real, lineno: nat)
    requires nsave >= 0 && nsave != 1 && lineno >= 3
    requires 0 <= index1 < npar && 0 <= index2 < npar
    requires forall k :: 0 <= k < |records| ==> |records[k].0| == npar
    ensures ScanPoints(index1, index2, npar, 1 + npar + 3 * nsave, bestchisq, RecordLines(dm, nsave, records), lineno)
         == ScanOutput(RecordRows(records, index1, index2, bestchisq), Parsed(lineno - 3 + |records|))
  {
    var lines := RecordLines(dm, nsave, records);
    var rows := RecordRows(records, index1, index2, bestchisq);
    forall k | 0 <= k < |records|
      ensures ScanRow(lines[k], lineno + k + 1, index1, index2, npar, 1 + npar + 3 * nsave, bestchisq) == Ok(rows[k])
    {
      RecordLinesAt(dm, nsave, records, k);
      RecordRowsAt(records, index1, index2, bestchisq, k);
      RecordLineRow(dm, nsave, records[k].0, records[k].1, lineno + k + 1, index1, index2, bestchisq);
    }
    RowsParse(index1, index2, npar, 1 + npar + 3 * nsave, bestchisq, lines, rows, lineno);
  }

  /** The parser sees the lines the writer wrote. */
  lemma ScanReadBack(index1: Token, index2: Token, file: seq<Line>)
    ensures Scan(index1, index2, Lines(WriteLines(file))) == Scan(index1, index2, file)
  {
    ReadWrittenLines(file);
  }

  /** A file of header lines without a refit followed by lines that parse
      completely as scan points, to some rows, is read back to those rows. */
  lemma WrittenScanParses(dm: Dumper, nsave: int, fmin: FunctionMinimum, body: seq<Line>, rows: seq<Row>,
                          index1: int, index2: int)
    requires nsave >= 0 && nsave != 1
    requires 0 <= index1 < |fmin.parameters| && 0 <= index2 < |fmin.parameters|
    requires ScanPoints(index1, index2, |fmin.parameters|, 1 + |fmin.parameters| + 3 * nsave, 2.0 * fmin.minValue, body, 3)
          == ScanOutput(rows, Parsed(|body|))
    ensures Scan(IntText(index1), IntText(index2), Lines(WriteLines(HeaderLines(dm, nsave, fmin, None) + body)))
         == ScanOutput(rows, Parsed(|body|))
  {
    HeaderPasses(dm, nsave, fmin, body, index1, index2);
    ScanReadBack(IntText(index1), IntText(index2), HeaderLines(dm, nsave, fmin, None) + body);
  }

  /** A file of header lines without a refit followed by the lines of
      records with as many parameters as the header announces is read back
      to the rows of those records, all of them. */
  lemma WrittenRecordsParse(dm: Dumper, nsave: int, fmin: FunctionMinimum, records: seq<(seq<Parameter>, real)>,
                            index1: int, index2: int)
    requires nsave >= 0 && nsave != 1
    requires 0 <= index1 < |fmin.parameters| && 0 <= index2 < |fmin.parameters|
    requires forall k :: 0 <= k < |records| ==> |records[k].0| == |fmin.parameters|
    ensures Scan(IntText(index1), IntText(index2), Lines(WriteLines(HeaderLines(dm, nsave, fmin, None) + RecordLines(dm, nsave, records))))
         == ScanOutput(RecordRows(records, index1, index2, 2.0 * fmin.minValue), Parsed(|records|))
  {
    var body := RecordLines(dm, nsave, records);
    var rows := RecordRows(records, index1, index2, 2.0 * fmin.minValue);
    var npar := |fmin.parameters|;
    RecordsParse(dm, nsave, records, npar, index1, index2, 2.0 * fmin.minValue, 3);
    assert ScanPoints(index1, index2, npar, 1 + npar + 3 * nsave, 2.0 * fmin.minValue, body, 3)
        == ScanOutput(rows, Parsed(|body|));
    WrittenScanParses(dm, nsave, fmin, body, rows, index1, index2);
  }

  /** The saved lines of fits made without a refit, as records. */
  function FitRecords(fs: seq<SampleFit>): (rs: seq<(seq<Parameter>, real)>)
    ensures |rs| == |fs|
    ensures forall k :: 0 <= k < |fs| ==> rs[k] == (fs[k].first.parameters, fs[k].first.minValue)
  {
    seq(|fs|, k requires 0 <= k < |fs| => (fs[k].first.parameters, fs[k].first.minValue))
  }

  /** Every accepted fit is one of the fits. */
  lemma {:induction false} AcceptedAreFits(fs: seq<SampleFit>)
    ensures forall k :: 0 <= k < |AcceptedFits(fs)| ==> AcceptedFits(fs)[k] in fs
  {
    if fs != [] {
      AcceptedAreFits(fs[..|fs| - 1]);
      var prev := AcceptedFits(fs[..|fs| - 1]);
      forall k | 0 <= k < |AcceptedFits(fs)|
        ensures AcceptedFits(fs)[k] in fs
      {
        if k < |prev| {
          assert prev[k] in fs[..|fs| - 1];
        }
      }
    }
  }

  /** Without a refit, the saved lines of a sampling analysis are the lines
      of its accepted fits' records, each with as many parameters as the
      minimizer returns. */
  lemma SavedLinesAreRecords(fit: Fitter, fitMethod: string, ds: seq<Dataset>, dm: Dumper, nsave: int, npar: nat)
    requires nsave != 1
    requires forall m, d, c :: |fit(m, d, c).parameters| == npar
    ensures var a := AcceptedFits(FitsOf(fit, fitMethod, ds, "", false));
      && SavedLines(dm, nsave, FitsOf(fit, fitMethod, ds, "", false)) == RecordLines(dm, nsave, FitRecords(a))
      && forall k :: 0 <= k < |a| ==> |FitRecords(a)[k].0| == npar
  {
    var fs := FitsOf(fit, fitMethod, ds, "", false);
    var a := AcceptedFits(fs);
    FitsOfAt(fit, fitMethod, ds, "", false);
    AcceptedAreFits(fs);
    forall k | 0 <= k < |a|
      ensures a[k].refit.None? && |a[k].first.parameters| == npar
    {
      var j :| 0 <= j < |fs| && fs[j] == a[k];
      assert fs[j] == FitSample(fit, fitMethod, ds[j], "", false);
    }
    var records := FitRecords(a);
    forall k | 0 <= k < |a|
      ensures SavedLines(dm, nsave, fs)[k] == RecordLines(dm, nsave, records)[k]
    {
      RecordLinesAt(dm, nsave, records, k);
    }
  }

  /** A sampling analysis without a refit, saving its fits, writes a file the
      parser reads back completely, one row per accepted sample in order,
      when the minimizer keeps the number of parameters. */
  lemma SamplingScanParses(kind: SamplerKind, res: Resampler, from: nat, fit: Fitter, fitMethod: string,
                           dm: Dumper, fmin: FunctionMinimum, saveName: string, nsave: int,
                           index1: int, index2: int)
    requires kind.ToyMC? ==> ToyFits(kind)
    requires kind.Jackknife? ==> res.JackknifeEnds()
    requires |saveName| > 0 && nsave >= 0 && nsave != 1
    requires 0 <= index1 < |fmin.parameters| && 0 <= index2 < |fmin.parameters|
    requires forall m, d, c :: |fit(m, d, c).parameters| == |fmin.parameters|
    ensures var r := SamplingOutcome(kind, res, from, fit, fitMethod, dm, fmin, None, "", saveName, nsave);
      && r.Ok? && r.value.saved.Some?
      && var s := Scan(IntText(index1), IntText(index2), Lines(WriteLines(r.value.saved.value)));
      && s.exit == Parsed(|r.value.fitStats|)
      && s.rows == RecordRows(FitRecords(AcceptedFits(FitsOf(fit, fitMethod, Draws(kind, res, from), "", false))),
                              index1, index2, 2.0 * fmin.minValue)
  {
    var ds := Draws(kind, res, from);
    SamplingOutcomeOk(kind, res, from, fit, fitMethod, dm, fmin, None, "", saveName, nsave);
    SavedLinesAreRecords(fit, fitMethod, ds, dm, nsave, |fmin.parameters|);
    var a := AcceptedFits(FitsOf(fit, fitMethod, ds, "", false));
    var records := FitRecords(a);
    WrittenRecordsParse(dm, nsave, fmin, records, index1, index2);
  }

  /** The records of a chain's first n steps, as its file writes them. */
  function ChainRecords(parameters: seq<Parameter>, samples: seq<real>, n: nat): (rs: seq<(seq<Parameter>, real)>)
    requires Offset(|parameters|, n) <= |samples|
    ensures |rs| == n
  {
    if n == 0 then []
    else
      OffsetStep(|parameters|, n - 1);
      var r := ChainRecord(samples, |parameters|, n - 1);
      ChainRecords(parameters, samples, n - 1) + [(SetValues(parameters, r.0), r.1)]
  }

  lemma {:induction false} ChainLinesAreRecords(dm: Dumper, nsave: int, parameters: seq<Parameter>,
                                                samples: seq<real>, n: nat)
    requires nsave != 1
    requires Offset(|parameters|, n) <= |samples|
    ensures ChainLines(dm, nsave, parameters, samples, n) == RecordLines(dm, nsave, ChainRecords(parameters, samples, n))
  {
    if n > 0 {
      OffsetStep(|parameters|, n - 1);
      ChainLinesAreRecords(dm, nsave, parameters, samples, n - 1);
    }
  }

  /** Record k of the chain's file holds the parameters with the values at
      offset k*(npar+1) of the chain output, and the fval after them. */
  lemma {:induction false} ChainRecordAt(parameters: seq<Parameter>, samples: seq<real>, n: nat, k: nat)
    requires Offset(|parameters|, n) <= |samples| && k < n
    ensures Offset(|parameters|, k) + |parameters| < |samples|
    ensures var o := Offset(|parameters|, k);
      var rec := ChainRecords(parameters, samples, n)[k];
      && |rec.0| == |parameters|
      && (forall i :: 0 <= i < |parameters| ==> rec.0[i] == parameters[i].(value := samples[o + i]))
      && rec.1 == samples[o + |parameters|]
  {
    OffsetStep(|parameters|, n - 1);
    if k < n - 1 {
      ChainRecordAt(parameters, samples, n - 1, k);
    }
  }

  /** A Markov chain's file parses completely, one row per record. */
  lemma ChainScanParses(dm: Dumper, nsave: int, fmin: FunctionMinimum, samples: seq<real>, nchain: nat,
                        index1: int, index2: int)
    requires nsave >= 0 && nsave != 1
    requires Offset(|fmin.parameters|, nchain) <= |samples|
    requires 0 <= index1 < |fmin.parameters| && 0 <= index2 < |fmin.parameters|
    ensures var s := Scan(IntText(index1), IntText(index2),
                          Lines(WriteLines(HeaderLines(dm, nsave, fmin, None)
                                           + ChainLines(dm, nsave, fmin.parameters, samples, nchain))));
      s == ScanOutput(RecordRows(ChainRecords(fmin.parameters, samples, nchain), index1, index2, 2.0 * fmin.minValue),
                      Parsed(nchain))
  {
    var records := ChainRecords(fmin.parameters, samples, nchain);
    ChainLinesAreRecords(dm, nsave, fmin.parameters, samples, nchain);
    forall k | 0 <= k < nchain
      ensures |records[k].0| == |fmin.parameters|
    {
      ChainRecordAt(fmin.parameters, samples, nchain, k);
    }
    WrittenRecordsParse(dm, nsave, fmin, records, index1, index2);
  }

  /** A file written with a refit of as many parameters passes the header
      and errors checks but is rejected at its best-fit line, whose width is
      twice what the header announces. */
  lemma RefitScanRejected(dm: Dumper, nsave: int, fmin: FunctionMinimum, fmin2: FunctionMinimum,
                          body: seq<Line>, index1: int, index2: int)
    requires nsave >= 0 && nsave != 1
    requires |fmin2.parameters| == |fmin.parameters|
    ensures var s := Scan(IntText(index1), IntText(index2), Lines(WriteLines(HeaderLines(dm, nsave, fmin, Some(fmin2)) + body)));
      s == ScanOutput([], LengthMismatch(2 * (|fmin.parameters| + 1 + 3 * nsave), 3))
  {
    var npar := |fmin.parameters|;
    var header := HeaderLines(dm, nsave, fmin, Some(fmin2));
    var file := header + body;
    ReadWrittenLines(file);
    assert LineOf(file, 0) == header[0];
    assert ReadHeader(LineOf(file, 0)) == Some(Header(npar, nsave, 2));
    var errors := LineOf(file, 1);
    assert errors == RealTexts(Errors(fmin.parameters)) + RealTexts(Errors(fmin2.parameters));
    NumericAppend(RealTexts(Errors(fmin.parameters)), RealTexts(Errors(fmin2.parameters)));
    var best := LineOf(file, 2);
    var refit := Some((fmin2.parameters, fmin2.minValue));
    assert best == SampleLine(dm, nsave, fmin.parameters, fmin.minValue, refit);
    SampleLineNumeric(dm, nsave, fmin.parameters, fmin.minValue, refit);
    SampleLineLength(dm, nsave, fmin.parameters, fmin.minValue, refit);
  }
}
