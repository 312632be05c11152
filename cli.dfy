/**
 * The command-line script: argument defaults and the usage guard in `main`, and
 * `transcribe_video`, which checks the input exists, picks the output path, runs the
 * model and writes one line per segment into the output file.
 */
module Cli {
  import opened Wrappers
  import opened Strings
  import opened Paths
  import opened Transcript
  import opened Runtime

  /** What `main` makes of `sys.argv`: the usage message, or a run with defaults filled in. */
  datatype Invocation =
    | Usage
    | Run(videoPath: string, outputPath: Option<string>, modelSize: string, device: string, computeType: string)

  /**
   * `main`'s reading of `sys.argv` (program name first): fewer than two entries is a
   * usage error; the output path, model size and device are optional, in that order.
   */
  function ParseArgs(argv: seq<string>): (inv: Invocation)
    ensures inv.Usage? <==> |argv| < 2
    ensures inv.Run? ==>
      && inv.videoPath == argv[1]
      && inv.outputPath == (if |argv| > 2 then Some(argv[2]) else None)
      && inv.modelSize == (if |argv| > 3 then argv[3] else "base")
      && inv.device == (if |argv| > 4 then argv[4] else "cuda")
      && (inv.computeType == "auto" <==> inv.device == "cuda")
      && (inv.computeType == "int8" <==> inv.device != "cuda")
  {
    if |argv| < 2 then Usage
    else
      var device := if |argv| > 4 then argv[4] else "cuda";
      Run(argv[1], if |argv| > 2 then Some(argv[2]) else None,
          if |argv| > 3 then argv[3] else "base", device, ComputeType(device))
  }

  /** With only the input given, every other setting takes its default: no output path, "base", "cuda", "auto". */
  lemma DefaultArguments(program: string, videoPath: string)
    ensures ParseArgs([program, videoPath]) == Run(videoPath, None, "base", "cuda", "auto")
  {
  }

  /** Arguments after the device are ignored. */
  lemma ExtraArgumentsIgnored(argv: seq<string>, extra: seq<string>)
    requires |argv| >= 5
    ensures ParseArgs(argv + extra) == ParseArgs(argv)
  {
    assert (argv + extra)[..5] == argv[..5];
    assert forall k :: 0 <= k < 5 ==> (argv + extra)[k] == argv[k];
  }

  /** How the process ends: `transcribe_video` returns, `sys.exit(status)`, or an uncaught exception. */
  datatype Outcome = Completed | Exited(status: int) | Crashed

  /** The process exit status: 0 on return, the given status on `sys.exit`, 1 for an uncaught exception. */
  function ExitStatus(outcome: Outcome): (status: int)
    ensures outcome.Exited? ==> status == outcome.status
    ensures !outcome.Exited? ==> (status == 0 <==> outcome.Completed?)
  {
    match outcome
    case Completed => 0
    case Exited(status) => status
    case Crashed => 1
  }

  /**
   * The output file's path: the explicit one unchanged, or the input path with its last
   * suffix replaced by ".txt" (`None` where `with_suffix` raises, for an input with an empty name).
   */
  function OutputPathFor(videoPath: string, outputPath: Option<string>): (out: Option<string>)
    ensures outputPath.Some? ==> out == outputPath
    ensures outputPath.None? ==> (out.None? <==> Name(videoPath) == "")
  {
    match outputPath
    case Some(p) => Some(p)
    case None => WithSuffix(videoPath, ".txt")
  }

  /**
   * The default output path lies beside the input, with the input's stem and the suffix
   * ".txt" in place of the input's last suffix.
   */
  lemma DefaultOutputBesideInput(videoPath: string)
    requires Name(videoPath) != ""
    ensures var out := OutputPathFor(videoPath, None).value;
      Dir(out) == Dir(videoPath) && Stem(Name(out)) == Stem(Name(videoPath)) && Suffix(Name(out)) == ".txt"
  {
    assert '/' !in ".txt" && ".txt"[0] == '.' && '.' !in ".txt"[1..];
    assert WithSuffix(videoPath, ".txt").Some?;
    WithSuffixParts(videoPath, ".txt");
  }

  /** An input already ending in ".txt" is its own default output path, so the transcript overwrites it. */
  lemma TxtInputIsItsOwnOutput(videoPath: string)
    requires Name(videoPath) != "" && Suffix(Name(videoPath)) == ".txt"
    ensures OutputPathFor(videoPath, None) == Some(videoPath)
  {
    var name := Name(videoPath);
    StemThenSuffix(name);
    assert Dir(videoPath) + name == videoPath;
  }

  /** The request `transcribe_video` makes of the library. */
  function VideoRequest(videoPath: string, modelSize: string, device: string, computeType: string): (req: ModelRequest)
    ensures req.modelSize == modelSize && req.device == device && req.computeType == computeType
    ensures req.media == videoPath && req.beamSize == 5
  {
    ModelRequest(modelSize, device, computeType, videoPath, BeamSize)
  }

  /** How a call ends and the files it leaves behind. */
  datatype Effect = Effect(outcome: Outcome, files: map<string, string>)

  /**
   * `transcribe_video` on a filesystem given as a map from path to contents:
   *  - a missing input exits with status 1, and nothing is loaded or written;
   *  - a failure to derive the output path, build the model or start transcribing raises
   *    before the output is opened, so nothing is written;
   *  - otherwise the output is truncated and receives one line per segment as they come;
   *    a failure part way through raises, leaving the lines written so far.
   */
  function VideoEffect(files: map<string, string>, videoPath: string, outputPath: Option<string>,
                       modelSize: string, device: string, computeType: string,
                       library: ModelRequest -> ModelRun): (e: Effect)
    ensures e.outcome.Exited? <==> videoPath !in files
    ensures e.outcome.Exited? ==> e == Effect(Exited(1), files)
    ensures e.outcome.Completed? ==> OutputPathFor(videoPath, outputPath).Some?
    ensures videoPath in files && OutputPathFor(videoPath, outputPath).None? ==> e == Effect(Crashed, files)
  {
    if videoPath !in files then Effect(Exited(1), files)
    else
      match OutputPathFor(videoPath, outputPath)
      case None => Effect(Crashed, files)
      case Some(out) => RunEffect(files, out, library(VideoRequest(videoPath, modelSize, device, computeType)))
  }

  /**
   * The part of `transcribe_video` after the output path is known: a failure before the
   * segments arrive writes nothing; otherwise the output ends up holding the lines of the
   * segments received, complete or not.
   */
  function RunEffect(files: map<string, string>, out: string, run: ModelRun): (e: Effect)
    ensures e.outcome.Completed? <==> run.Decoding? && run.failure.None?
    ensures !e.outcome.Exited?
    ensures !run.Decoding? ==> e.files == files
    ensures forall p :: p in files && p != out ==> p in e.files && e.files[p] == files[p]
    ensures forall p :: p in e.files ==> p in files || (p == out && run.Decoding?)
  {
    match run
    case LoadFailed(_) => Effect(Crashed, files)
    case TranscribeFailed(_) => Effect(Crashed, files)
    case Decoding(_, _, segs, failure) =>
      Effect(if failure.None? then Completed else Crashed, files[out := CliText(segs)])
  }

  /** The whole script: `main` on `argv`, then `transcribe_video` with the parsed settings. */
  function CliEffect(files: map<string, string>, argv: seq<string>, library: ModelRequest -> ModelRun): (e: Effect)
    ensures e.outcome.Exited? <==> |argv| < 2 || argv[1] !in files
    ensures e.outcome.Exited? ==> e == Effect(Exited(1), files)
  {
    match ParseArgs(argv)
    case Usage => Effect(Exited(1), files)
    case Run(videoPath, outputPath, modelSize, device, computeType) =>
      VideoEffect(files, videoPath, outputPath, modelSize, device, computeType, library)
  }

  /** Only a run that reaches the writing loop touches the filesystem, and then only the output path. */
  lemma OnlyOutputChanges(files: map<string, string>, videoPath: string, outputPath: Option<string>,
                          modelSize: string, device: string, computeType: string,
                          library: ModelRequest -> ModelRun, p: string)
    requires p in files
    requires OutputPathFor(videoPath, outputPath) != Some(p) || videoPath !in files
    ensures var e := VideoEffect(files, videoPath, outputPath, modelSize, device, computeType, library);
      p in e.files && e.files[p] == files[p]
  {
    if videoPath in files && OutputPathFor(videoPath, outputPath).Some? {
      var out := OutputPathFor(videoPath, outputPath).value;
    }
  }

  /**
   * Only an existing input with a derivable output path reaches the model; a run that
   * completes is one of those.
   */
  lemma CompletedReachedModel(files: map<string, string>, videoPath: string, outputPath: Option<string>,
                              modelSize: string, device: string, computeType: string,
                              library: ModelRequest -> ModelRun)
    requires VideoEffect(files, videoPath, outputPath, modelSize, device, computeType, library).outcome.Completed?
    ensures videoPath in files && OutputPathFor(videoPath, outputPath).Some?
    ensures VideoEffect(files, videoPath, outputPath, modelSize, device, computeType, library)
         == RunEffect(files, OutputPathFor(videoPath, outputPath).value,
                      library(VideoRequest(videoPath, modelSize, device, computeType)))
  {
  }

  /**
   * A completed run leaves the output holding exactly the segment lines, in order, and
   * no header: the file is empty or starts with '['.
   */
  lemma CompletedWritesSegmentLines(files: map<string, string>, out: string, run: ModelRun)
    requires RunEffect(files, out, run).outcome.Completed?
    ensures run.Decoding? && run.failure.None?
    ensures RunEffect(files, out, run).files == files[out := CliText(run.segments)]
    ensures run.segments == [] <==> CliText(run.segments) == ""
    ensures run.segments != [] ==> CliText(run.segments)[0] == '['
  {
    assert run.Decoding? && run.failure.None?;
    assert RunEffect(files, out, run) == Effect(Completed, files[out := CliText(run.segments)]);
    CliTextStart(run.segments);
  }

  /**
   * Unlike the web worker, the script is not all or nothing: when decoding fails after
   * some segments, it crashes and the output keeps the lines of those segments.
   */
  lemma LateFailureLeavesPartialFile(files: map<string, string>, out: string, run: ModelRun)
    requires run.Decoding? && run.failure.Some? && run.segments != []
    ensures RunEffect(files, out, run).outcome == Crashed
    ensures RunEffect(files, out, run).files == files[out := CliText(run.segments)]
    ensures CliText(run.segments) != ""
  {
    CliTextStart(run.segments);
  }

  /** Writing a path twice leaves only the second contents. */
  lemma UpdateTwice(m: map<string, string>, p: string, first: string, second: string)
    ensures m[p := first][p := second] == m[p := second]
  {
  }

  /** The machine the script runs on: its files, by path. */
  class Host {
    var files: map<string, string>

    constructor (files: map<string, string>)
      ensures this.files == files
    {
      this.files := files;
    }

    /** The `for segment in segments: f.write(...)` loop: each segment's line appended to the open output. */
    method WriteLines(out: string, segs: seq<Segment>, render: Segment -> string)
      requires out in files
      modifies this
      ensures files == old(files)[out := old(files)[out] + Join(MapSeq(render, segs))]
    {
      var i := 0;
      assert old(files)[out] + Join(MapSeq(render, segs[..0])) == old(files)[out];
      assert files == old(files)[out := old(files)[out]];
      while i < |segs|
        invariant 0 <= i <= |segs|
        invariant files == old(files)[out := old(files)[out] + Join(MapSeq(render, segs[..i]))]
      {
        assert segs[..i + 1][..i] == segs[..i];
        JoinSnoc(MapSeq(render, segs[..i]), render(segs[i]));
        AppendAssoc(old(files)[out], Join(MapSeq(render, segs[..i])), render(segs[i]));
        files := files[out := files[out] + render(segs[i])];
        i := i + 1;
      }
      assert segs[..i] == segs;
    }

    /** `transcribe_video`. */
    method TranscribeVideo(videoPath: string, outputPath: Option<string>, modelSize: string, device: string,
                           computeType: string, library: ModelRequest -> ModelRun)
      returns (outcome: Outcome)
      modifies this
      ensures outcome == VideoEffect(old(files), videoPath, outputPath, modelSize, device, computeType, library).outcome
      ensures files == VideoEffect(old(files), videoPath, outputPath, modelSize, device, computeType, library).files
    {
      if videoPath !in files {
        return Exited(1);
      }
      var out := OutputPathFor(videoPath, outputPath);
      if out.None? {
        return Crashed;
      }
      var run := library(VideoRequest(videoPath, modelSize, device, computeType));
      outcome := FinishRun(out.value, run);
    }

    /** Model construction, transcription and writing, once the output path is known. */
    method FinishRun(out: string, run: ModelRun) returns (outcome: Outcome)
      modifies this
      ensures outcome == RunEffect(old(files), out, run).outcome
      ensures files == RunEffect(old(files), out, run).files
    {
      match run {
        case LoadFailed(_) =>
          outcome := Crashed;
        case TranscribeFailed(_) =>
          outcome := Crashed;
        case Decoding(_, _, segs, failure) =>
          WriteTranscript(out, segs);
          outcome := if failure.None? then Completed else Crashed;
      }
    }

    /** `with open(output_path, 'w')`: the output truncated, then the segment lines written in order. */
    method WriteTranscript(out: string, segs: seq<Segment>)
      modifies this
      ensures files == old(files)[out := CliText(segs)]
    {
      files := files[out := ""];
      WriteLines(out, segs, SegmentLine);
      assert "" + CliText(segs) == CliText(segs);
      UpdateTwice(old(files), out, "", CliText(segs));
    }

    /** The script run with `argv`; the result is the process exit status. */
    method RunCli(argv: seq<string>, library: ModelRequest -> ModelRun) returns (status: int)
      modifies this
      ensures status == ExitStatus(CliEffect(old(files), argv, library).outcome)
      ensures files == CliEffect(old(files), argv, library).files
    {
      match ParseArgs(argv) {
        case Usage =>
          return 1;
        case Run(videoPath, outputPath, modelSize, device, computeType) =>
          var outcome := TranscribeVideo(videoPath, outputPath, modelSize, device, computeType, library);
          status := ExitStatus(outcome);
      }
    }
  }
}
