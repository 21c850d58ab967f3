/**
 * `parse_conda_stdout` (conda.py:108-130): conda may print single-line JSON
 * progress reports before its real result, which may itself span several
 * lines. The parser skips the progress reports, returns the first other
 * object, and falls back to decoding the rest of the output as one document.
 */
module Parser {
  import opened Wrappers
  import opened PyText
  import opened Json

  /** A progress report: an object with a `progress` or a `maxval` key. */
  predicate IsProgress(o: Object) {
    "progress" in o || "maxval" in o
  }

  /** A line that decodes to a progress report. */
  predicate IsProgressLine(decode: Decoder, line: string) {
    decode(line).Some? && IsProgress(decode(line).value)
  }

  /**
   * The reference definition, line by line: skip decoded progress reports;
   * the first decoded non-progress object is the result; at the first line
   * that does not decode, decode that line and every later one joined with
   * nothing in between; with no line left, decode the empty join. A
   * progress report can come back only from that final decoding of the
   * remaining lines.
   */
  function ScanLines(decode: Decoder, lines: seq<string>): (r: Option<Object>)
    ensures r.Some? && IsProgress(r.value) ==>
      exists k :: 0 <= k <= |lines| && r == decode(Join("", lines[k..]))
  {
    if lines == [] then assert lines[0..] == lines; decode(Join("", lines))
    else
      match decode(lines[0])
      case None => assert lines[0..] == lines; decode(Join("", lines))
      case Some(o) =>
        if IsProgress(o) then
          var r := ScanLines(decode, lines[1..]);
          if r.Some? && IsProgress(r.value) then
            var k :| 0 <= k <= |lines| - 1 && r == decode(Join("", lines[1..][k..]));
            assert lines[1..][k..] == lines[k + 1..];
            r
          else r
        else Some(o)
  }

  /** The lines the parser works on: `stdout.strip().split("\n")`. */
  function Lines(stdout: string): seq<string> {
    SplitOn(Strip(stdout), '\n')
  }

  /** The result of `parse_conda_stdout(stdout)`; blank output is decoded as the empty text. */
  function Parse(decode: Decoder, stdout: string): (r: Option<Object>)
    ensures AllSpace(stdout) ==> r == decode("")
  {
    if AllSpace(stdout) then
      StripAllSpace(stdout);
      assert Lines(stdout) == [""];
      ScanLines(decode, [""])
    else ScanLines(decode, Lines(stdout))
  }

  /**
   * `parse_conda_stdout` as written: lines are popped from the front of
   * `splitLines`; a line that fails to decode is pushed back and the loop left.
   */
  method ParseCondaStdout(decode: Decoder, stdout: string) returns (r: Option<Object>)
    ensures r == Parse(decode, stdout)
  {
    var splitLines := Lines(stdout);
    while |splitLines| > 0
      invariant ScanLines(decode, splitLines) == Parse(decode, stdout)
    {
      var line := splitLines[0];
      splitLines := splitLines[1..];
      var lineContent := decode(line);
      if lineContent.Some? {
        if !IsProgress(lineContent.value) {
          return lineContent;
        }
      } else {
        splitLines := [line] + splitLines;
        break;
      }
    }
    r := decode(Join("", splitLines));
  }

  /** Any number of progress lines before a line holding a non-progress object: that object is the result. */
  lemma {:induction false} SkipsProgress(decode: Decoder, progress: seq<string>, line: string, rest: seq<string>)
    requires forall i :: 0 <= i < |progress| ==> IsProgressLine(decode, progress[i])
    requires decode(line).Some? && !IsProgress(decode(line).value)
    ensures ScanLines(decode, progress + [line] + rest) == decode(line)
  {
    if progress != [] {
      assert (progress + [line] + rest)[1..] == progress[1..] + [line] + rest;
      SkipsProgress(decode, progress[1..], line, rest);
    }
  }

  /**
   * Any number of progress lines before a line that does not decode: the
   * result is the decoding of that line and all later ones joined with nothing.
   */
  lemma {:induction false} FallsBackAfterProgress(decode: Decoder, progress: seq<string>, rest: seq<string>)
    requires forall i :: 0 <= i < |progress| ==> IsProgressLine(decode, progress[i])
    requires rest != [] && decode(rest[0]).None?
    ensures ScanLines(decode, progress + rest) == decode(Join("", rest))
  {
    if progress == [] {
      assert progress + rest == rest;
    } else {
      assert (progress + rest)[1..] == progress[1..] + rest;
      FallsBackAfterProgress(decode, progress[1..], rest);
    }
  }

  /** Output made only of progress reports has no result, since nothing is left to decode but "". */
  lemma {:induction false} OnlyProgressIsNone(decode: Decoder, lines: seq<string>)
    requires RejectsEmpty(decode)
    requires forall i :: 0 <= i < |lines| ==> IsProgressLine(decode, lines[i])
    ensures ScanLines(decode, lines) == None
  {
    if lines != [] {
      OnlyProgressIsNone(decode, lines[1..]);
    }
  }

  /** Output on one line: a non-progress object is returned as decoded, text that does not decode gives `None`. */
  lemma {:induction false} SingleLine(decode: Decoder, stdout: string)
    requires '\n' !in Strip(stdout)
    ensures decode(Strip(stdout)).None? ==> Parse(decode, stdout) == None
    ensures decode(Strip(stdout)).Some? && !IsProgress(decode(Strip(stdout)).value)
      ==> Parse(decode, stdout) == decode(Strip(stdout))
  {
    var t := Strip(stdout);
    JoinSplitOn(t, '\n');
    var lines := Lines(stdout);
    assert lines == [t];
  }

  /** Non-JSON text such as `fail` has no result. */
  lemma {:induction false} NonJsonIsNone(decode: Decoder)
    requires decode("fail").None?
    ensures Parse(decode, "fail") == None
  {
    assert Strip("fail") == "fail";
    SingleLine(decode, "fail");
  }

  /**
   * A multi-line document whose first line does not decode on its own (a
   * pretty-printed object): the result is the decoding of the stripped
   * output with its line breaks removed.
   */
  lemma {:induction false} MultiLineDocument(decode: Decoder, stdout: string)
    requires decode(Lines(stdout)[0]).None?
    ensures Parse(decode, stdout) == decode(Without(Strip(stdout), '\n'))
  {
    ConcatSplitOn(Strip(stdout), '\n');
  }
}
