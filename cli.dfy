/**
 * The batch driver (spksim/cli.py): reads a pairs file line by line, scores each
 * `candidate|reference` pair whose files exist, and writes the records as CSV.
 * Loading audio, running the model and computing the similarity are one opaque step,
 * `scorer`, which may raise; the score itself is an opaque value of type S.
 */
module Cli {
  import opened Wrappers
  import opened Strings
  import PosixPath

  /** One scored pair: the candidate's and the reference's file names and the similarity. */
  datatype ScoreRecord<S> = ScoreRecord(uttId: string, ref: string, score: S)

  /** The messages written to the error stream for a line that produced no record. */
  datatype Diagnostic =
    | CandidateNotFound(path: string)
    | ReferenceNotFound(path: string)
    | LineFailed(line: string, message: string)

  /** What one line of the pairs file turns into. */
  datatype LineOutcome<S> =
    | Ignored                         // blank, or no `|`: skipped silently
    | Skipped(warning: Diagnostic)    // a missing file or a raised exception
    | Scored(record: ScoreRecord<S>)

  /**
   * What the driver runs against: the optional base directory for relative paths, the set
   * of paths that exist, and the scoring step (feature extraction, inference and similarity
   * for a candidate and a reference path), which either yields a score or raises.
   */
  datatype Context<S> = Context(
    audioDir: Option<string>,
    existing: set<string>,
    scorer: (string, string) -> Result<S, string>)

  /** `resolve_path`: a relative path is joined onto the base directory when one is given. */
  function ResolvePath(audioDir: Option<string>, p: string): (r: string)
    ensures !Truthy(audioDir) || PosixPath.IsAbs(p) ==> r == p
    ensures Truthy(audioDir) && !PosixPath.IsAbs(p) ==> |r| >= |audioDir.value| && r[..|audioDir.value|] == audioDir.value
    ensures |r| >= |p| && r[|r| - |p|..] == p
    ensures PosixPath.Basename(r) == PosixPath.Basename(p)
    ensures PosixPath.IsAbs(r) <==> PosixPath.IsAbs(p) || (Truthy(audioDir) && PosixPath.IsAbs(audioDir.value))
  {
    if Truthy(audioDir) && !PosixPath.IsAbs(p) then
      PosixPath.BasenameOfJoin(audioDir.value, p);
      PosixPath.Join(audioDir.value, p)
    else p
  }

  /** A stripped line the driver works on: not blank and holding a `|`. */
  predicate IsPairLine(line: string) {
    line != [] && '|' in line
  }

  /** The two whitespace-stripped halves around the first `|`. */
  function PairFields(line: string): (r: (string, string))
    requires '|' in line
    ensures IsStripped(r.0) && IsStripped(r.1)
    ensures '|' !in r.0
  {
    var halves := SplitFirst(line, '|');
    (Strip(halves.0), Strip(halves.1))
  }

  /**
   * The split is at the first `|` only: the left field is the text before it, the right
   * field everything after it, later `|` included, each stripped.
   */
  lemma FirstBarSplit(left: string, right: string)
    requires '|' !in left
    ensures '|' in left + "|" + right
    ensures PairFields(left + "|" + right) == (Strip(left), Strip(right))
  {
    SplitFirstExact(left, '|', right);
  }

  /**
   * The rest of the `try` in `main` once both paths are resolved: report the first missing
   * file, otherwise score the pair and name it by the two files' basenames.
   */
  function ResolvedOutcome<S>(line: string, candidate: string, reference: string, ctx: Context<S>): (o: LineOutcome<S>)
    ensures !o.Ignored?
    ensures o.Scored? <==>
      candidate in ctx.existing && reference in ctx.existing && ctx.scorer(candidate, reference).Success?
  {
    if candidate !in ctx.existing then Skipped(CandidateNotFound(candidate))
    else if reference !in ctx.existing then Skipped(ReferenceNotFound(reference))
    else
      match ctx.scorer(candidate, reference)
      case Failure(e) => Skipped(LineFailed(line, e))
      case Success(s) => Scored(ScoreRecord(PosixPath.Basename(candidate), PosixPath.Basename(reference), s))
  }

  /** The body of the `try` in `main` for a pair line: split it, resolve both paths, go on. */
  function PairOutcome<S>(line: string, ctx: Context<S>): (o: LineOutcome<S>)
    requires '|' in line
    ensures !o.Ignored?
  {
    var fields := PairFields(line);
    ResolvedOutcome(line, ResolvePath(ctx.audioDir, fields.0), ResolvePath(ctx.audioDir, fields.1), ctx)
  }

  /** One iteration of the loop in `main`, from the raw line read from the file. */
  function ProcessLine<S>(raw: string, ctx: Context<S>): LineOutcome<S> {
    var line := Strip(raw);
    if !IsPairLine(line) then Ignored else PairOutcome(line, ctx)
  }

  /** A line is ignored exactly when, once stripped, it is blank or holds no `|`. */
  lemma IgnoredLines<S>(raw: string, ctx: Context<S>)
    ensures ProcessLine(raw, ctx).Ignored? <==> Strip(raw) == [] || '|' !in Strip(raw)
  {
  }

  /**
   * What a pair line turns into: the candidate is checked first, then the reference; a
   * record is made only when both exist and scoring succeeds, and it names the two files
   * by the basenames of the fields as written, whatever the base directory.
   */
  lemma PairLineOutcome<S>(raw: string, ctx: Context<S>)
    requires IsPairLine(Strip(raw))
    ensures
      var o := ProcessLine(raw, ctx);
      var fields := PairFields(Strip(raw));
      var candidate := ResolvePath(ctx.audioDir, fields.0);
      var reference := ResolvePath(ctx.audioDir, fields.1);
      && (candidate !in ctx.existing ==> o == Skipped(CandidateNotFound(candidate)))
      && (candidate in ctx.existing && reference !in ctx.existing ==> o == Skipped(ReferenceNotFound(reference)))
      && (o.Scored? <==>
            candidate in ctx.existing && reference in ctx.existing && ctx.scorer(candidate, reference).Success?)
      && (o.Scored? ==>
            o.record == ScoreRecord(PosixPath.Basename(fields.0), PosixPath.Basename(fields.1),
                                    ctx.scorer(candidate, reference).value))
      && (candidate in ctx.existing && reference in ctx.existing && ctx.scorer(candidate, reference).Failure? ==>
            o == Skipped(LineFailed(Strip(raw), ctx.scorer(candidate, reference).error)))
  {
  }

  /** What each line of the file turns into, line by line: each on its own. */
  function Outcomes<S>(lines: seq<string>, ctx: Context<S>): (os: seq<LineOutcome<S>>)
    ensures |os| == |lines|
    ensures forall i {:trigger os[i]} :: 0 <= i < |lines| ==> os[i] == ProcessLine(lines[i], ctx)
  {
    seq(|lines|, i requires 0 <= i < |lines| => ProcessLine(lines[i], ctx))
  }

  /** The record a line contributes: one when it scored, none otherwise. */
  function RecordOf<S>(o: LineOutcome<S>): seq<ScoreRecord<S>> {
    if o.Scored? then [o.record] else []
  }

  /** The warning a line contributes: one when it was skipped, none otherwise. */
  function WarningOf<S>(o: LineOutcome<S>): seq<Diagnostic> {
    if o.Skipped? then [o.warning] else []
  }

  /** The records accumulated over a run of line outcomes, in line order. */
  function Records<S>(os: seq<LineOutcome<S>>): seq<ScoreRecord<S>> {
    if os == [] then [] else Records(os[..|os| - 1]) + RecordOf(os[|os| - 1])
  }

  /** The warnings written to the error stream over a run of line outcomes, in line order. */
  function Warnings<S>(os: seq<LineOutcome<S>>): seq<Diagnostic> {
    if os == [] then [] else Warnings(os[..|os| - 1]) + WarningOf(os[|os| - 1])
  }

  /**
   * The lines the records come from: one strictly increasing index per record, each
   * naming a line that scored to exactly that record, and every line that scored is listed.
   */
  function ScoredLines<S>(os: seq<LineOutcome<S>>): (idx: seq<nat>)
    ensures |idx| == |Records(os)|
    ensures forall j :: 0 <= j < |idx| ==> idx[j] < |os| && os[idx[j]] == Scored(Records(os)[j])
    ensures forall j, k :: 0 <= j < k < |idx| ==> idx[j] < idx[k]
    ensures forall i :: 0 <= i < |os| && os[i].Scored? ==> i in idx
  {
    if os == [] then []
    else
      var n := |os| - 1;
      var prefix := ScoredLines(os[..n]);
      assert forall i :: 0 <= i < n ==> os[..n][i] == os[i];
      if os[n].Scored? then
        assert Records(os) == Records(os[..n]) + [os[n].record];
        prefix + [n]
      else
        assert Records(os) == Records(os[..n]);
        prefix
  }

  /** At most one record and one warning per line: the two together never outnumber the lines. */
  lemma {:induction false} AtMostOnePerLine<S>(os: seq<LineOutcome<S>>)
    ensures |Records(os)| + |Warnings(os)| <= |os|
  {
    if os != [] {
      AtMostOnePerLine(os[..|os| - 1]);
    }
  }

  /** One more line adds its record after those of the lines before it. */
  lemma RecordsSnoc<S>(os: seq<LineOutcome<S>>, o: LineOutcome<S>)
    ensures Records(os + [o]) == Records(os) + RecordOf(o)
  {
    assert (os + [o])[..|os|] == os;
  }

  /** The records of two runs of lines one after the other. */
  lemma {:induction false} RecordsConcat<S>(a: seq<LineOutcome<S>>, b: seq<LineOutcome<S>>)
    ensures Records(a + b) == Records(a) + Records(b)
    decreases |b|
  {
    if b == [] {
      assert a + b == a;
    } else {
      var n := |b| - 1;
      var init, last := b[..n], b[n];
      assert b == init + [last];
      assert a + b == (a + init) + [last];
      RecordsSnoc(a + init, last);
      RecordsSnoc(init, last);
      RecordsConcat(a, init);
      var x, y, z := Records(a), Records(init), RecordOf(last);
      assert (x + y) + z == x + (y + z);
    }
  }

  /** One more line adds its warning after those of the lines before it. */
  lemma WarningsSnoc<S>(os: seq<LineOutcome<S>>, o: LineOutcome<S>)
    ensures Warnings(os + [o]) == Warnings(os) + WarningOf(o)
  {
    assert (os + [o])[..|os|] == os;
  }

  /** The warnings of two runs of lines one after the other. */
  lemma {:induction false} WarningsConcat<S>(a: seq<LineOutcome<S>>, b: seq<LineOutcome<S>>)
    ensures Warnings(a + b) == Warnings(a) + Warnings(b)
    decreases |b|
  {
    if b == [] {
      assert a + b == a;
    } else {
      var n := |b| - 1;
      var init, last := b[..n], b[n];
      assert b == init + [last];
      assert a + b == (a + init) + [last];
      WarningsSnoc(a + init, last);
      WarningsSnoc(init, last);
      WarningsConcat(a, init);
      var x, y, z := Warnings(a), Warnings(init), WarningOf(last);
      assert (x + y) + z == x + (y + z);
    }
  }

  /**
   * Lines are independent: what a line contributes does not depend on the lines before it,
   * so a failure on one line neither stops nor changes the lines after it.
   */
  lemma LinesIndependent<S>(a: seq<LineOutcome<S>>, b: seq<LineOutcome<S>>)
    ensures Records(a + b) == Records(a) + Records(b)
    ensures Warnings(a + b) == Warnings(a) + Warnings(b)
  {
    RecordsConcat(a, b);
    WarningsConcat(a, b);
  }

  /** One more line adds its own record and warning, if any, after those of the lines before it. */
  lemma PrefixStep<S>(os: seq<LineOutcome<S>>, i: nat)
    requires i < |os|
    ensures Records(os[..i + 1]) == Records(os[..i]) + RecordOf(os[i])
    ensures Warnings(os[..i + 1]) == Warnings(os[..i]) + WarningOf(os[i])
  {
    assert os[..i + 1][..i] == os[..i];
  }

  /** The existence checks and the scoring of a resolved pair: the record and the warning it adds. */
  method ScoreResolved<S>(line: string, candidate: string, reference: string, ctx: Context<S>)
    returns (record: seq<ScoreRecord<S>>, warning: seq<Diagnostic>)
    ensures record == RecordOf(ResolvedOutcome(line, candidate, reference, ctx))
    ensures warning == WarningOf(ResolvedOutcome(line, candidate, reference, ctx))
  {
    record, warning := [], [];
    if candidate !in ctx.existing {
      warning := [CandidateNotFound(candidate)];
      return;
    }
    if reference !in ctx.existing {
      warning := [ReferenceNotFound(reference)];
      return;
    }
    var uttId := PosixPath.Basename(candidate);
    match ctx.scorer(candidate, reference) {
      case Success(similarity) =>
        record := [ScoreRecord(uttId, PosixPath.Basename(reference), similarity)];
      case Failure(e) =>
        warning := [LineFailed(line, e)];
    }
  }

  /** The `try` block of the loop in `main` for a pair line: the record and the warning it adds. */
  method ScorePair<S>(line: string, ctx: Context<S>) returns (record: seq<ScoreRecord<S>>, warning: seq<Diagnostic>)
    requires '|' in line
    ensures record == RecordOf(PairOutcome(line, ctx))
    ensures warning == WarningOf(PairOutcome(line, ctx))
  {
    var halves := SplitFirst(line, '|');
    var candidateField, referenceField := Strip(halves.0), Strip(halves.1);
    var candidate := ResolvePath(ctx.audioDir, candidateField);
    var reference := ResolvePath(ctx.audioDir, referenceField);
    record, warning := ScoreResolved(line, candidate, reference, ctx);
  }

  /** The body of the loop in `main` for one raw line: the record and the warning it adds. */
  method ScoreLine<S>(raw: string, ctx: Context<S>) returns (record: seq<ScoreRecord<S>>, warning: seq<Diagnostic>)
    ensures record == RecordOf(ProcessLine(raw, ctx))
    ensures warning == WarningOf(ProcessLine(raw, ctx))
  {
    var line := Strip(raw);
    if line == [] || '|' !in line {
      assert ProcessLine(raw, ctx) == Ignored;
      return [], [];
    }
    assert ProcessLine(raw, ctx) == PairOutcome(line, ctx);
    record, warning := ScorePair(line, ctx);
  }

  /** The loop over the lines of the pairs file in `main`. */
  method ScorePairs<S>(lines: seq<string>, ctx: Context<S>) returns (scores: seq<ScoreRecord<S>>, log: seq<Diagnostic>)
    ensures scores == Records(Outcomes(lines, ctx))
    ensures log == Warnings(Outcomes(lines, ctx))
    ensures |scores| + |log| <= |lines|
  {
    ghost var os := Outcomes(lines, ctx);
    scores, log := [], [];
    for i := 0 to |lines|
      invariant scores == Records(os[..i])
      invariant log == Warnings(os[..i])
    {
      PrefixStep(os, i);
      var record, warning := ScoreLine(lines[i], ctx);
      assert os[i] == ProcessLine(lines[i], ctx);
      scores := scores + record;
      log := log + warning;
    }
    assert os[..|lines|] == os;
    AtMostOnePerLine(os);
  }

  /** The header row of the results file. */
  const HEADER: string := "candidate,reference,score"

  /**
   * One data row: candidate, reference and the formatted score, comma-separated. Nothing is
   * quoted, so the row holds a newline exactly when one of its fields does.
   */
  function Row<S>(r: ScoreRecord<S>, format: S -> string): (row: string)
    ensures row == Join([r.uttId, r.ref, format(r.score)], ',')
    ensures '\n' in row <==> '\n' in r.uttId || '\n' in r.ref || '\n' in format(r.score)
  {
    var fields := [r.uttId, r.ref, format(r.score)];
    assert fields[1..][1..] == [format(r.score)];
    assert Join(fields[1..], ',') == r.ref + "," + format(r.score);
    assert Join(fields, ',') == r.uttId + "," + (r.ref + "," + format(r.score));
    r.uttId + "," + r.ref + "," + format(r.score)
  }

  /** The lines of the results file: the header, then one row per record in record order. */
  function CsvLines<S>(records: seq<ScoreRecord<S>>, format: S -> string): (lines: seq<string>)
    ensures |lines| == |records| + 1 && lines[0] == HEADER
    ensures forall j :: 0 <= j < |records| ==> lines[j + 1] == Row(records[j], format)
  {
    [HEADER] + seq(|records|, j requires 0 <= j < |records| => Row(records[j], format))
  }

  /** The text of the results file: every line ends in a newline. */
  function CsvText<S>(records: seq<ScoreRecord<S>>, format: S -> string): (text: string)
    ensures text == Join(CsvLines(records, format) + [""], '\n')
    ensures text[|text| - 1] == '\n'
  {
    JoinSnoc(CsvLines(records, format), "", '\n');
    Join(CsvLines(records, format), '\n') + "\n"
  }

  /** One more record adds its row and a newline to the end of the file. */
  lemma CsvTextStep<S>(records: seq<ScoreRecord<S>>, format: S -> string, i: nat)
    requires i < |records|
    ensures CsvText(records[..i + 1], format) == CsvText(records[..i], format) + Row(records[i], format) + "\n"
  {
    var lines, row := CsvLines(records[..i], format), Row(records[i], format);
    assert CsvLines(records[..i + 1], format) == lines + [row];
    JoinSnoc(lines, row, '\n');
    var x := Join(lines, '\n');
    assert (x + "\n" + row) + "\n" == (x + "\n") + row + "\n";
  }

  /** The writes of the results file: the header, then one row per record. */
  method RenderCsv<S>(records: seq<ScoreRecord<S>>, format: S -> string) returns (text: string)
    ensures text == CsvText(records, format)
  {
    text := HEADER + "\n";
    assert CsvLines(records[..0], format) == [HEADER];
    for i := 0 to |records|
      invariant text == CsvText(records[..i], format)
    {
      CsvTextStep(records, format, i);
      text := text + Row(records[i], format) + "\n";
    }
    assert records[..|records|] == records;
  }

  /** A field that can be written into a row without changing the row structure. */
  predicate PlainField(s: string) {
    ',' !in s && '\n' !in s
  }

  /** A row of plain fields holds no newline and splits on commas into its three fields. */
  lemma RowReadsBack<S>(r: ScoreRecord<S>, format: S -> string)
    requires PlainField(r.uttId) && PlainField(r.ref) && PlainField(format(r.score))
    ensures '\n' !in Row(r, format)
    ensures Split(Row(r, format), ',') == [r.uttId, r.ref, format(r.score)]
  {
    var fields := [r.uttId, r.ref, format(r.score)];
    forall k | 0 <= k < 3 ensures ',' !in fields[k] {}
    SplitJoin(fields, ',');
  }

  /**
   * Reading the results file back: split on newlines it is the header, one row per record
   * and the empty text after the final newline; each row splits on commas into the
   * record's three fields. This holds when no field holds a comma or a newline.
   */
  lemma CsvReadsBack<S>(records: seq<ScoreRecord<S>>, format: S -> string)
    requires forall j :: 0 <= j < |records| ==>
      PlainField(records[j].uttId) && PlainField(records[j].ref) && PlainField(format(records[j].score))
    ensures Split(CsvText(records, format), '\n') == CsvLines(records, format) + [""]
    ensures forall j :: 0 <= j < |records| ==>
      Split(CsvLines(records, format)[j + 1], ',') == [records[j].uttId, records[j].ref, format(records[j].score)]
  {
    var lines := CsvLines(records, format);
    var all := lines + [""];
    forall j | 0 <= j < |records|
      ensures '\n' !in lines[j + 1]
      ensures Split(lines[j + 1], ',') == [records[j].uttId, records[j].ref, format(records[j].score)]
    {
      RowReadsBack(records[j], format);
    }
    forall k | 0 <= k < |all| ensures '\n' !in all[k] {
      if 0 < k < |lines| {
        assert all[k] == lines[(k - 1) + 1];
      }
    }
    JoinSnoc(lines, "", '\n');
    assert Join(lines, '\n') + "\n" == Join(all, '\n');
    SplitJoin(all, '\n');
  }

  /**
   * Fields are written unquoted: a row with a comma inside a field does not split back into
   * its three fields.
   */
  lemma CommaInFieldBreaksRow<S>(r: ScoreRecord<S>, format: S -> string)
    requires ',' in r.uttId || ',' in r.ref || ',' in format(r.score)
    ensures Split(Row(r, format), ',') != [r.uttId, r.ref, format(r.score)]
  {
    var fields := [r.uttId, r.ref, format(r.score)];
    var k := if ',' in r.uttId then 0 else if ',' in r.ref then 1 else 2;
    var parts := Split(Row(r, format), ',');
    if |parts| == |fields| {
      assert ',' !in parts[k] && ',' in fields[k];
    }
  }

  /**
   * Fields are written unquoted: when a field holds a newline the file does not split on
   * newlines into its header and rows.
   */
  lemma NewlineInFieldBreaksFile<S>(records: seq<ScoreRecord<S>>, format: S -> string, j: nat)
    requires j < |records|
    requires '\n' in records[j].uttId || '\n' in records[j].ref || '\n' in format(records[j].score)
    ensures Split(CsvText(records, format), '\n') != CsvLines(records, format) + [""]
  {
    var lines := CsvLines(records, format) + [""];
    assert '\n' in lines[j + 1];
  }

  /** The results file `main` writes. */
  datatype OutputFile = OutputFile(path: string, text: string)

  /**
   * The tail of `main`: with no records nothing is written; otherwise, when an output path
   * was given, the file holds the CSV of the records.
   */
  method SaveResults<S>(scores: seq<ScoreRecord<S>>, outputFile: Option<string>, format: S -> string)
    returns (written: Option<OutputFile>)
    ensures written.Some? <==> scores != [] && Truthy(outputFile)
    ensures written.Some? ==> written.value == OutputFile(outputFile.value, CsvText(scores, format))
  {
    if scores == [] {
      return None;
    }
    if !Truthy(outputFile) {
      return None;
    }
    var text := RenderCsv(scores, format);
    written := Some(OutputFile(outputFile.value, text));
  }

  /** `main` after the model is loaded and the pairs file read into `lines`. */
  method RunBatch<S>(lines: seq<string>, ctx: Context<S>, outputFile: Option<string>, format: S -> string)
    returns (scores: seq<ScoreRecord<S>>, log: seq<Diagnostic>, written: Option<OutputFile>)
    ensures scores == Records(Outcomes(lines, ctx)) && log == Warnings(Outcomes(lines, ctx))
    ensures written.Some? <==> scores != [] && Truthy(outputFile)
    ensures written.Some? ==> written.value == OutputFile(outputFile.value, CsvText(scores, format))
  {
    scores, log := ScorePairs(lines, ctx);
    written := SaveResults(scores, outputFile, format);
  }
}
