/** Size caps on what a sandboxed run printed. */
module SandboxExecutor {
  import opened Utf8

  type Text = seq<Scalar>

  datatype SandboxResult = SandboxResult(
    exitCode: int,
    stdout: Text,
    stderr: Text,
    timedOut: bool,
    durationSeconds: real)

  datatype Settings = Settings(stdoutMaxBytes: nat, stderrMaxBytes: nat)

  const TRUNCATION_MARKER: string := "\n[OUTPUT TRUNCATED]"

  function CodePoints(s: string): (t: Text)
    ensures |t| == |s|
  {
    seq(|s|, i requires 0 <= i < |s| => s[i] as int)
  }

  function Capped(output: Text, cap: nat): Text {
    if |Encode(output)| > cap
    then DecodeIgnoring(Encode(output)[..cap]) + CodePoints(TRUNCATION_MARKER)
    else output
  }

  function Truncate(result: SandboxResult, settings: Settings): SandboxResult {
    SandboxResult(
      result.exitCode,
      Capped(result.stdout, settings.stdoutMaxBytes),
      Capped(result.stderr, settings.stderrMaxBytes),
      result.timedOut,
      result.durationSeconds)
  }

  /** Capping cuts between code points, keeps the longest prefix that fits, and marks the cut. */
  ghost predicate CutToFit(output: Text, cap: nat, capped: Text) {
    exists k :: 0 <= k < |output|
      && capped == output[..k] + CodePoints(TRUNCATION_MARKER)
      && |Encode(output[..k])| <= cap < |Encode(output[..k + 1])|
  }

  lemma {:induction false} AsciiLength(s: string)
    requires forall i :: 0 <= i < |s| ==> s[i] as int < 0x80
    ensures |Encode(CodePoints(s))| == |s|
  {
    if s != [] {
      AsciiLength(s[1..]);
      assert CodePoints(s)[1..] == CodePoints(s[1..]);
    }
  }

  /**
   Output that fits is passed on as it is; other output is cut to fit, and ends within the cap, the
   marker and no more than three bytes of room apart.
   */
  lemma CappedMeaning(output: Text, cap: nat)
    ensures |Encode(output)| <= cap ==> Capped(output, cap) == output
    ensures |Encode(output)| > cap ==> CutToFit(output, cap, Capped(output, cap))
    ensures |Encode(Capped(output, cap))| <= cap + |TRUNCATION_MARKER|
    ensures |Encode(output)| > cap ==> cap - 3 + |TRUNCATION_MARKER| <= |Encode(Capped(output, cap))|
  {
    hide EncodeOne, DecodeIgnoring, CodePoints;
    if |Encode(output)| > cap {
      var k := Fitting(output, cap);
      DecodeOfCut(output, cap);
      FittingIsLongest(output, cap, k);
      FittingIsLongest(output, cap, |output|);
      assert output[..|output|] == output;
      FittingIsLongest(output, cap, k + 1);
      assert output[..k + 1] == output[..k] + [output[k]];
      EncodeConcat(output[..k], [output[k]]);
      assert Encode([output[k]]) == EncodeOne(output[k]);
      EncodeConcat(output[..k], CodePoints(TRUNCATION_MARKER));
      AsciiLength(TRUNCATION_MARKER);
    }
  }

  /** At most one string is the output cut to fit. */
  lemma CutToFitIsUnique(output: Text, cap: nat, capped: Text)
    requires CutToFit(output, cap, capped)
    ensures |Encode(output)| > cap && capped == Capped(output, cap)
  {
    hide Encode, DecodeIgnoring, Fitting, CodePoints;
    var k :| 0 <= k < |output|
      && capped == output[..k] + CodePoints(TRUNCATION_MARKER)
      && |Encode(output[..k])| <= cap < |Encode(output[..k + 1])|;
    FittingIsLongest(output, cap, k);
    FittingIsLongest(output, cap, k + 1);
    FittingIsLongest(output, cap, |output|);
    assert output[..|output|] == output;
    DecodeOfCut(output, cap);
  }

  /** The part of the output that one capping keeps is a prefix of the same length in the capped output. */
  lemma CappedIsPrefix(output: Text, cap: nat)
    requires |Encode(output)| > cap
    ensures Fitting(output, cap) < |output|
    ensures Capped(output, cap) == output[..Fitting(output, cap)] + CodePoints(TRUNCATION_MARKER)
    ensures |Encode(output[..Fitting(output, cap)])| <= cap
    ensures |Encode(Capped(output, cap))| == |Encode(output[..Fitting(output, cap)])| + |TRUNCATION_MARKER|
  {
    hide Encode, EncodeOne, CodePoints, Fitting;
    var k := Fitting(output, cap);
    DecodeOfCut(output, cap);
    FittingIsLongest(output, cap, k);
    FittingIsLongest(output, cap, |output|);
    assert output[..|output|] == output;
    EncodeConcat(output[..k], CodePoints(TRUNCATION_MARKER));
    AsciiLength(TRUNCATION_MARKER);
  }

  /** How much of `kept` and then the marker fits: all of `kept`, and as much of the marker as there is room. */
  lemma {:induction false} FittingOfMarked(kept: Text, marker: string, cap: nat)
    requires |Encode(kept)| <= cap
    requires forall i :: 0 <= i < |marker| ==> marker[i] as int < 0x80
    ensures Fitting(kept + CodePoints(marker), cap)
         == |kept| + (if cap - |Encode(kept)| < |marker| then cap - |Encode(kept)| else |marker|)
  {
    var n := if cap - |Encode(kept)| < |marker| then cap - |Encode(kept)| else |marker|;
    var all := kept + CodePoints(marker);
    MarkedPrefix(kept, marker, n);
    FittingIsLongest(all, cap, |kept| + n);
    if n < |marker| {
      MarkedPrefix(kept, marker, n + 1);
      FittingIsLongest(all, cap, |kept| + n + 1);
    }
  }

  lemma MarkedPrefix(kept: Text, marker: string, n: nat)
    requires n <= |marker| && forall i :: 0 <= i < |marker| ==> marker[i] as int < 0x80
    ensures |Encode((kept + CodePoints(marker))[..|kept| + n])| == |Encode(kept)| + n
  {
    assert (kept + CodePoints(marker))[..|kept| + n] == kept + CodePoints(marker[..n]);
    EncodeConcat(kept, CodePoints(marker[..n]));
    AsciiLength(marker[..n]);
  }

  /** What one capping leaves alone: output that fits, and output that goes on with just the marker where it is cut. */
  lemma LeftAlone(output: Text, cap: nat)
    ensures Capped(output, cap) == output <==> |Encode(output)| <= cap || CutToFit(output, cap, output)
    ensures Capped(output, cap) == output
       <==> |Encode(output)| <= cap || output[Fitting(output, cap)..] == CodePoints(TRUNCATION_MARKER)
  {
    CappedMeaning(output, cap);
    if CutToFit(output, cap, output) {
      CutToFitIsUnique(output, cap, output);
    }
    if |Encode(output)| > cap {
      CappedIsPrefix(output, cap);
      assert output == output[..Fitting(output, cap)] + output[Fitting(output, cap)..];
    }
  }

  lemma MarkerIsAscii()
    ensures forall i :: 0 <= i < |TRUNCATION_MARKER| ==> TRUNCATION_MARKER[i] as int < 0x80
  {
  }

  /** With the marker, the output is over the cap again. */
  lemma StillOver(output: Text, cap: nat)
    requires |Encode(output)| > cap
    ensures |Encode(Capped(output, cap))| > cap
  {
    hide Encode, Fitting, Capped, CutToFit;
    CappedMeaning(output, cap);
  }

  /**
   Exactly when a second pass changes nothing: the output fits, or the cap falls on the end of a code
   point, so that the first pass filled it.
   */
  lemma SecondPass(output: Text, cap: nat)
    ensures Capped(Capped(output, cap), cap) == Capped(output, cap)
       <==> |Encode(output)| <= cap || |Encode(output[..Fitting(output, cap)])| == cap
  {
    if |Encode(output)| > cap {
      hide *;
      CappedIsPrefix(output, cap);
      StillOver(output, cap);
      MarkerIsAscii();
      FittingOfMarked(output[..Fitting(output, cap)], TRUNCATION_MARKER, cap);
      CappedIsPrefix(Capped(output, cap), cap);
      SecondCut(output[..Fitting(output, cap)], cap);
    }
  }

  lemma SecondCut(kept: Text, cap: nat)
    requires |Encode(kept)| <= cap < |Encode(kept)| + |TRUNCATION_MARKER|
    requires var n := Fitting(kept + CodePoints(TRUNCATION_MARKER), cap); n == |kept| + cap - |Encode(kept)|
    ensures var once := kept + CodePoints(TRUNCATION_MARKER);
      once[..Fitting(once, cap)] + CodePoints(TRUNCATION_MARKER) == once <==> |Encode(kept)| == cap
  {
    var once := kept + CodePoints(TRUNCATION_MARKER);
    assert |once[..Fitting(once, cap)]| == |kept| + cap - |Encode(kept)|;
    if |Encode(kept)| == cap {
      assert once[..|kept|] == kept;
    }
  }

  /** Truncation is not idempotent: two letters of two bytes each, cut at three bytes. */
  lemma SecondPassCanChange()
    ensures Capped(Capped([0xE9, 0xE9], 3), 3) != Capped([0xE9, 0xE9], 3)
  {
    var output: Text := [0xE9, 0xE9];
    assert output[1..] == [0xE9];
    assert Encode([0xE9]) == [0xC3, 0xA9] + Encode([]);
    assert Encode(output) == [0xC3, 0xA9] + Encode([0xE9]);
    assert |Encode(output)| == 4;
    assert Fitting([0xE9], 1) == 0 && Fitting(output, 3) == 1;
    assert output[..1] == [0xE9];
    SecondPass(output, 3);
  }

  /** Nothing but the two outputs changes, each under its own cap. */
  lemma TruncateMeaning(result: SandboxResult, settings: Settings)
    ensures Truncate(result, settings).(stdout := result.stdout, stderr := result.stderr) == result
    ensures |Encode(result.stdout)| > settings.stdoutMaxBytes ==>
              CutToFit(result.stdout, settings.stdoutMaxBytes, Truncate(result, settings).stdout)
    ensures |Encode(result.stderr)| > settings.stderrMaxBytes ==>
              CutToFit(result.stderr, settings.stderrMaxBytes, Truncate(result, settings).stderr)
    ensures |Encode(result.stdout)| <= settings.stdoutMaxBytes && |Encode(result.stderr)| <= settings.stderrMaxBytes ==>
              Truncate(result, settings) == result
  {
    CappedMeaning(result.stdout, settings.stdoutMaxBytes);
    CappedMeaning(result.stderr, settings.stderrMaxBytes);
  }
}
