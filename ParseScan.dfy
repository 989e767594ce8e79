/** The scan parser: it reads a file written by a sampling analysis or a
    Markov chain, checks the header and the length of every line, and writes
    one row per line after the third: two chosen parameter values and the
    chi-square difference to the best fit. Each line of the file is given as
    its fields; a line the file does not have reads as no fields. */
module ParseScan {
  import opened Common
  import opened Streams

  /** How the parser ends. `Parsed` reports the number of scan points; the
      others abort it, naming the line at fault where the parser does. */
  datatype Exit =
    | Parsed(count: nat)
    | IndicesNotIntegers
    | MalformedHeader
    | NotNumbers(lineno: nat)
    | ErrorsLengthMismatch(length: nat)
    | LengthMismatch(length: nat, lineno: nat)
    | IndexOutOfRange(lineno: nat)

  /** One output row: the two chosen values and the chi-square difference. */
  datatype Row = Row(x: real, y: real, dchisq: real)

  /** What the parser writes, then how it ends. Rows written before an abort
      stay in the output. */
  datatype ScanOutput = ScanOutput(rows: seq<Row>, exit: Exit)

  /** The header: number of parameters, of dump radii, of fits per line. */
  datatype Header = Header(npar: int, ndump: int, nfit: int)

  /** What a float conversion makes of a field. */
  function Float(t: Token): Option<real> {
    match t
    case IntText(i) => Some(i as real)
    case RealText(x) => Some(x)
    case OtherText => None
  }

  /** Every field of the line converts to a float. */
  predicate Numeric(l: Line) {
    forall i :: 0 <= i < |l| ==> Float(l[i]).Some?
  }

  /** The fields of a numeric line as floats. */
  function Floats(l: Line): (vs: seq<real>)
    requires Numeric(l)
    ensures |vs| == |l|
  {
    seq(|l|, i requires 0 <= i < |l| => Float(l[i]).value)
  }

  /** Element i of vs with Python's indexing: a negative index counts from
      the end; anything outside [-|vs|, |vs|) is an index error. */
  function PyIndex(vs: seq<real>, i: int): (r: Option<real>)
    ensures r.Some? <==> -|vs| <= i < |vs|
  {
    if 0 <= i < |vs| then Some(vs[i])
    else if -|vs| <= i < 0 then Some(vs[|vs| + i])
    else None
  }

  /** Line i of the file, or no fields past its end. */
  function LineOf(file: seq<Line>, i: nat): Line {
    if i < |file| then file[i] else []
  }

  /** The header read as three integers. */
  function ReadHeader(l: Line): (h: Option<Header>)
    ensures h.Some? <==> |l| == 3 && l[0].IntText? && l[1].IntText? && l[2].IntText?
    ensures h.Some? ==> h.value == Header(l[0].i, l[1].i, l[2].i)
  {
    if |l| == 3 && l[0].IntText? && l[1].IntText? && l[2].IntText? then Some(Header(l[0].i, l[1].i, l[2].i))
    else None
  }

  /** The number of fields of the best-fit line and of every scan point:
      the parameters, the chi-square and three multipoles per dump radius,
      whatever the number of fits. */
  function Width(h: Header): int {
    1 + h.npar + 3 * h.ndump
  }

  /** One scan point, line number lineno: its row, or why it aborts. */
  function ScanRow(l: Line, lineno: nat, index1: int, index2: int, npar: int, width: int, bestchisq: real)
    : (r: Result<Row, Exit>)
    ensures r.Err? ==> !r.error.Parsed?
    ensures r == Err(NotNumbers(lineno)) <==> !Numeric(l)
    ensures r == Err(LengthMismatch(|l|, lineno)) <==> Numeric(l) && |l| != width
    ensures r.Ok? <==>
      Numeric(l) && |l| == width && -|l| <= index1 < |l| && -|l| <= index2 < |l| && -|l| <= npar < |l|
    ensures r.Ok? ==>
      r.value == Row(PyIndex(Floats(l), index1).value, PyIndex(Floats(l), index2).value,
                     PyIndex(Floats(l), npar).value - bestchisq)
  {
    if !Numeric(l) then Err(NotNumbers(lineno))
    else
      var v := Floats(l);
      if |v| != width then Err(LengthMismatch(|v|, lineno))
      else
        var x := PyIndex(v, index1);
        var y := PyIndex(v, index2);
        var chisq := PyIndex(v, npar);
        if x.None? || y.None? || chisq.None? then Err(IndexOutOfRange(lineno))
        else Ok(Row(x.value, y.value, chisq.value - bestchisq))
  }

  /** The scan points from line number lineno + 1 on, one row each, up to
      the first that aborts. */
  function ScanPoints(index1: int, index2: int, npar: int, width: int, bestchisq: real,
                      lines: seq<Line>, lineno: nat): ScanOutput
    requires lineno >= 3
    decreases |lines|
  {
    if lines == [] then ScanOutput([], Parsed(lineno - 3))
    else
      match ScanRow(lines[0], lineno + 1, index1, index2, npar, width, bestchisq)
      case Err(e) => ScanOutput([], e)
      case Ok(row) =>
        var rest := ScanPoints(index1, index2, npar, width, bestchisq, lines[1..], lineno + 1);
        ScanOutput([row] + rest.rows, rest.exit)
  }

  /** The lines after the three header lines. */
  function DataLines(file: seq<Line>): seq<Line> {
    if |file| > 3 then file[3..] else []
  }

  /** The whole run: the indices, the header, the errors line, the best-fit
      line, then the scan points. */
  function Scan(index1: Token, index2: Token, file: seq<Line>): ScanOutput {
    if !index1.IntText? || !index2.IntText? then ScanOutput([], IndicesNotIntegers)
    else
      match ReadHeader(LineOf(file, 0))
      case None => ScanOutput([], MalformedHeader)
      case Some(h) =>
        var errors := LineOf(file, 1);
        var best := LineOf(file, 2);
        if !Numeric(errors) then ScanOutput([], NotNumbers(2))
        else if |errors| != h.npar * h.nfit then ScanOutput([], ErrorsLengthMismatch(|errors|))
        else if !Numeric(best) then ScanOutput([], NotNumbers(3))
        else if |best| != Width(h) then ScanOutput([], LengthMismatch(|best|, 3))
        else
          match PyIndex(Floats(best), h.npar)
          case None => ScanOutput([], IndexOutOfRange(3))
          case Some(bestchisq) =>
            ScanPoints(index1.i, index2.i, h.npar, Width(h), bestchisq, DataLines(file), 3)
  }

  /** The rows are those of the leading scan points; the run either parses
      every line, counting them, or stops at the first line that does not
      give a row, with that line's error and number. */
  lemma {:induction false} ScanPointsRows(index1: int, index2: int, npar: int, width: int, bestchisq: real,
                                          lines: seq<Line>, lineno: nat)
    requires lineno >= 3
    ensures var s := ScanPoints(index1, index2, npar, width, bestchisq, lines, lineno);
      && |s.rows| <= |lines|
      && (forall k :: 0 <= k < |s.rows| ==>
            ScanRow(lines[k], lineno + k + 1, index1, index2, npar, width, bestchisq) == Ok(s.rows[k]))
      && (s.exit.Parsed? <==> |s.rows| == |lines|)
      && (s.exit.Parsed? ==> s.exit.count == lineno - 3 + |lines|)
      && (!s.exit.Parsed? ==>
            ScanRow(lines[|s.rows|], lineno + |s.rows| + 1, index1, index2, npar, width, bestchisq) == Err(s.exit))
    decreases |lines|
  {
    if lines != [] {
      ScanPointsRows(index1, index2, npar, width, bestchisq, lines[1..], lineno + 1);
    }
  }

  /** Lines that each give a row parse completely, to those rows. */
  lemma {:induction false} RowsParse(index1: int, index2: int, npar: int, width: int, bestchisq: real,
                                     lines: seq<Line>, rows: seq<Row>, lineno: nat)
    requires lineno >= 3 && |rows| == |lines|
    requires forall k :: 0 <= k < |lines| ==>
      ScanRow(lines[k], lineno + k + 1, index1, index2, npar, width, bestchisq) == Ok(rows[k])
    ensures ScanPoints(index1, index2, npar, width, bestchisq, lines, lineno) == ScanOutput(rows, Parsed(lineno - 3 + |lines|))
    decreases |lines|
  {
    if lines != [] {
      forall k | 0 <= k < |lines| - 1
        ensures ScanRow(lines[1..][k], lineno + 1 + k + 1, index1, index2, npar, width, bestchisq) == Ok(rows[1..][k])
      {
        assert lines[1..][k] == lines[k + 1];
      }
      RowsParse(index1, index2, npar, width, bestchisq, lines[1..], rows[1..], lineno + 1);
      assert rows == [rows[0]] + rows[1..];
    }
  }

  /** A parsed file has its three header lines and one row per later line,
      each of them of the best-fit line's width; the count reported is the
      number of those lines. */
  lemma ParsedFile(index1: Token, index2: Token, file: seq<Line>)
    ensures var s := Scan(index1, index2, file);
      s.exit.Parsed? ==>
        && |file| >= 3
        && s.exit.count == |file| - 3 == |s.rows|
        && forall k :: 3 <= k < |file| ==> |file[k]| == |file[2]|
  {
    var s := Scan(index1, index2, file);
    if s.exit.Parsed? {
      var h := ReadHeader(LineOf(file, 0)).value;
      var best := LineOf(file, 2);
      var bestchisq := PyIndex(Floats(best), h.npar).value;
      ScanPointsRows(index1.i, index2.i, h.npar, Width(h), bestchisq, DataLines(file), 3);
      forall k | 3 <= k < |file|
        ensures |file[k]| == |file[2]|
      {
        assert DataLines(file)[k - 3] == file[k];
      }
    }
  }

  /** The row of scan point k is the row of line 3 + k, that is
      (v[index1], v[index2], v[npar] - bestchisq) over its fields v, where
      bestchisq is field npar of the best-fit line. */
  lemma ParsedRows(index1: Token, index2: Token, file: seq<Line>, k: nat)
    requires index1.IntText? && index2.IntText?
    requires ReadHeader(LineOf(file, 0)).Some?
    requires k < |Scan(index1, index2, file).rows|
    ensures |file| > 3 + k && Numeric(file[2])
    ensures PyIndex(Floats(file[2]), ReadHeader(LineOf(file, 0)).value.npar).Some?
    ensures var h := ReadHeader(LineOf(file, 0)).value;
      ScanRow(file[3 + k], 4 + k, index1.i, index2.i, h.npar, Width(h), PyIndex(Floats(file[2]), h.npar).value)
        == Ok(Scan(index1, index2, file).rows[k])
  {
    var h := ReadHeader(LineOf(file, 0)).value;
    var best := LineOf(file, 2);
    var bestchisq := PyIndex(Floats(best), h.npar).value;
    ScanPointsRows(index1.i, index2.i, h.npar, Width(h), bestchisq, DataLines(file), 3);
    assert DataLines(file)[k] == file[3 + k];
  }

  /** The parser: header checks, then a loop over the remaining lines that
      writes one row per line and stops at the first bad one. */
  method ParseScanFile(index1: Token, index2: Token, file: seq<Line>) returns (rows: seq<Row>, exit: Exit)
    ensures ScanOutput(rows, exit) == Scan(index1, index2, file)
  {
    if !index1.IntText? || !index2.IntText? {
      return [], IndicesNotIntegers;
    }
    var header := ReadHeader(LineOf(file, 0));
    if header.None? {
      return [], MalformedHeader;
    }
    var h := header.value;
    var errors := LineOf(file, 1);
    if !Numeric(errors) {
      return [], NotNumbers(2);
    }
    if |errors| != h.npar * h.nfit {
      return [], ErrorsLengthMismatch(|errors|);
    }
    var best := LineOf(file, 2);
    if !Numeric(best) {
      return [], NotNumbers(3);
    }
    var bestfit := Floats(best);
    if |bestfit| != 1 + h.npar + 3 * h.ndump {
      return [], LengthMismatch(|bestfit|, 3);
    }
    var lineno: nat := 3;
    var chisq := PyIndex(bestfit, h.npar);
    if chisq.None? {
      return [], IndexOutOfRange(lineno);
    }
    var bestchisq := chisq.value;
    var width := Width(h);
    var data := DataLines(file);
    ghost var all := ScanPoints(index1.i, index2.i, h.npar, width, bestchisq, data, 3);
    rows := [];
    var i := 0;
    while i < |data|
      invariant 0 <= i <= |data| && lineno == 3 + i
      invariant var rest := ScanPoints(index1.i, index2.i, h.npar, width, bestchisq, data[i..], lineno);
        all == ScanOutput(rows + rest.rows, rest.exit)
    {
      assert data[i..][1..] == data[i + 1..];
      lineno := lineno + 1;
      var row := ScanRow(data[i], lineno, index1.i, index2.i, h.npar, width, bestchisq);
      if row.Err? {
        return rows, row.error;
      }
      rows := rows + [row.value];
      i := i + 1;
    }
    exit := Parsed(lineno - 3);
  }
}
