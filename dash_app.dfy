/**
 * The web front end: the `transcribe_audio` worker, which stages the upload in a
 * temporary file, runs the model on it and assembles the transcript, and the two pure
 * callbacks that guard the start button and name the download.
 */
module DashApp {
  import opened Wrappers
  import opened Strings
  import opened Paths
  import opened Timestamp
  import opened Transcript
  import opened Runtime

  /**
   * How staging the upload went: `NamedTemporaryFile(delete=False)` was created and
   * written, could not be created, or was created but the write raised. Staging runs
   * before the `try`, so its failures are not caught.
   */
  datatype Staging = Staged | CreateFailed(cause: string) | WriteFailed(cause: string)

  /** What `transcribe_audio` does for its caller: return `(transcription, error)`, or raise. */
  datatype AudioResult = Returned(transcription: string, error: Option<string>) | Raised(cause: string)

  /** The temporary file's path: a generated name followed by the upload's own suffix. */
  function TempPath(tempName: string, filename: string): (path: string)
    ensures |path| == |tempName| + |Suffix(Name(filename))|
    ensures path[..|tempName|] == tempName && path[|tempName|..] == Suffix(Name(filename))
  {
    tempName + Suffix(Name(filename))
  }

  /** The request `transcribe_audio` makes of the library for one staged file. */
  function AudioRequest(modelSize: string, device: string, path: string): (req: ModelRequest)
    ensures req.modelSize == modelSize && req.device == device
    ensures req.computeType == "auto" <==> device == "cuda"
    ensures req.computeType == "int8" <==> device != "cuda"
    ensures req.media == path && req.beamSize == 5
  {
    ModelRequest(modelSize, device, ComputeType(device), path, BeamSize)
  }

  /**
   * The answer of `transcribe_audio` given how staging went and how the library ran:
   * a staging failure escapes; any library failure, including one part way through the
   * segments, gives the empty transcript with the message; otherwise the full transcript.
   */
  function AudioOutcome(staging: Staging, run: ModelRun): (r: AudioResult)
    ensures !staging.Staged? ==> r == Raised(staging.cause)
    ensures staging.Staged? ==> r.Returned?
    ensures r.Returned? && r.error.Some? ==> r.transcription == ""
    ensures r.Returned? && r.error.None? ==>
      && run.Decoding? && run.failure.None?
      && r.transcription == Header(run.language, run.probability) + Separator() + CliText(run.segments)
  {
    match staging
    case CreateFailed(cause) => Raised(cause)
    case WriteFailed(cause) => Raised(cause)
    case Staged =>
      match run
      case LoadFailed(cause) => Returned("", Some(cause))
      case TranscribeFailed(cause) => Returned("", Some(cause))
      case Decoding(language, probability, segs, failure) =>
        if failure.Some? then Returned("", failure)
        else Returned(DashText(language, probability, segs), None)
  }

  /**
   * The `transcription_lines` loop: the line of each segment, as `render` gives it,
   * appended in order to the lines already there (the header block).
   */
  method AppendLines(head: seq<string>, segs: seq<Segment>, render: Segment -> string) returns (lines: seq<string>)
    ensures lines == head + MapSeq(render, segs)
  {
    lines := head;
    var i := 0;
    while i < |segs|
      invariant 0 <= i <= |segs|
      invariant lines == head + MapSeq(render, segs[..i])
    {
      assert segs[..i + 1][..i] == segs[..i];
      lines := lines + [render(segs[i])];
      i := i + 1;
    }
    assert segs[..i] == segs;
  }

  /**
   * The server process: the module-level `latest_transcription` and the temporary
   * files present on disk.
   */
  class Server {
    var latestTranscription: string
    var tempFiles: set<string>

    constructor ()
      ensures latestTranscription == "" && tempFiles == {}
    {
      latestTranscription := "";
      tempFiles := {};
    }

    /**
     * `transcribe_audio`. The library is the function from the request to its run; the
     * temporary file's generated name and the outcome of staging are parameters.
     */
    method TranscribeAudio(filename: string, modelSize: string, device: string,
                           tempName: string, staging: Staging, library: ModelRequest -> ModelRun)
      returns (result: AudioResult)
      requires TempPath(tempName, filename) !in tempFiles
      modifies this
      ensures result == AudioOutcome(staging, library(AudioRequest(modelSize, device, TempPath(tempName, filename))))
      ensures tempFiles == old(tempFiles) + (if staging.WriteFailed? then {TempPath(tempName, filename)} else {})
      ensures result.Returned? ==> TempPath(tempName, filename) !in tempFiles
      ensures latestTranscription
           == if result.Returned? && result.error.None? then result.transcription else old(latestTranscription)
    {
      var path := TempPath(tempName, filename);
      match staging {
        case CreateFailed(cause) =>
          return Raised(cause);
        case WriteFailed(cause) =>
          tempFiles := tempFiles + {path};
          return Raised(cause);
        case Staged =>
      }
      tempFiles := tempFiles + {path};
      var run := library(AudioRequest(modelSize, device, path));
      result := Transcribe(run);
      // finally: remove the staged file
      if path in tempFiles {
        tempFiles := tempFiles - {path};
      }
    }

    /**
     * The `try` block and its handler: the model's run turned into the transcript, or into
     * the empty transcript and the message of whatever the library raised.
     */
    method Transcribe(run: ModelRun) returns (result: AudioResult)
      modifies this`latestTranscription
      ensures result == AudioOutcome(Staged, run)
      ensures latestTranscription
           == if result.error.None? then result.transcription else old(latestTranscription)
    {
      match run {
        case LoadFailed(cause) =>
          result := Returned("", Some(cause));
        case TranscribeFailed(cause) =>
          result := Returned("", Some(cause));
        case Decoding(language, probability, segs, failure) =>
          var lines := AppendLines([Header(language, probability), Separator()], segs, SegmentLine);
          if failure.Some? {
            result := Returned("", failure);
          } else {
            latestTranscription := Join(lines);
            result := Returned(latestTranscription, None);
          }
      }
    }
  }

  /** A staging failure escapes before the model is consulted: how the library would run makes no difference. */
  lemma StagingFailureSkipsModel(staging: Staging, run1: ModelRun, run2: ModelRun)
    requires !staging.Staged?
    ensures AudioOutcome(staging, run1) == AudioOutcome(staging, run2) == Raised(staging.cause)
  {
  }

  /**
   * All or nothing: a failure of the library, at any point, returns the empty transcript
   * with the failure's message, never the lines assembled before it.
   */
  lemma FailureReturnsNothing(run: ModelRun)
    requires run.LoadFailed? || run.TranscribeFailed? || (run.Decoding? && run.failure.Some?)
    ensures AudioOutcome(Staged, run)
         == Returned("", Some(if run.Decoding? then run.failure.value else run.cause))
  {
  }

  /** A transcript comes back, with no error, exactly when staging and every segment succeeded. */
  lemma SuccessExactlyWhenAllSucceed(staging: Staging, run: ModelRun)
    ensures (AudioOutcome(staging, run).Returned? && AudioOutcome(staging, run).error.None?)
        <==> (staging.Staged? && run.Decoding? && run.failure.None?)
  {
  }

  /**
   * The transcript returned on success is the header line, the separator, and then exactly
   * the text the command line writes for the same segments.
   */
  lemma SuccessIsFullTranscript(run: ModelRun)
    requires run.Decoding? && run.failure.None?
    ensures AudioOutcome(Staged, run)
         == Returned(Header(run.language, run.probability) + Separator() + CliText(run.segments), None)
  {
  }

  /** What the download callback hands the browser. */
  datatype Download = Download(content: string, filename: string)

  /** `<stem>_transcription.txt` for a given upload name, `transcription.txt` when there is none (or it is empty). */
  function DownloadName(originalFilename: Option<string>): (name: string)
    ensures originalFilename.None? || originalFilename == Some("") ==> name == "transcription.txt"
    ensures originalFilename.Some? && originalFilename.value != "" ==>
      name == Stem(Name(originalFilename.value)) + "_transcription.txt"
  {
    match originalFilename
    case Some(f) => if f == "" then "transcription.txt" else Stem(Name(f)) + "_transcription.txt"
    case None => "transcription.txt"
  }

  /** `download_transcription`: nothing for an absent or empty transcription, else the text under its name. */
  function DownloadTranscription(transcription: Option<string>, originalFilename: Option<string>): (r: Option<Download>)
    ensures r.None? <==> transcription.None? || transcription == Some("")
    ensures r.Some? ==> r.value == Download(transcription.value, DownloadName(originalFilename))
  {
    match transcription
    case None => None
    case Some(t) => if t == "" then None else Some(Download(t, DownloadName(originalFilename)))
  }

  /**
   * The download is named after the upload: read back as a path, its name is itself,
   * its suffix is ".txt" and its stem is the upload's stem followed by "_transcription".
   */
  lemma DownloadNameParts(f: string)
    requires f != ""
    ensures var d := DownloadName(Some(f));
      Name(d) == d && Suffix(d) == ".txt" && Stem(d) == Stem(Name(f)) + "_transcription"
  {
    var st := Stem(Name(f));
    StemThenSuffix(Name(f));
    assert st == Name(f)[..|st|];
    TranscriptionName(st);
  }

  lemma TranscriptionName(st: string)
    requires '/' !in st
    ensures var d := st + "_transcription.txt";
      Name(d) == d && Suffix(d) == ".txt" && Stem(d) == st + "_transcription"
  {
    var base := st + "_transcription";
    var d := base + ".txt";
    assert d == st + "_transcription.txt";
    assert "" + d == d;
    NameOfJoin("", d);
    SuffixOfJoin(base, ".txt");
  }

  /** What the file-info area shows: nothing, or the name of the selected upload. */
  datatype FileInfo = NoFile | SelectedFile(filename: Option<string>)

  /** `update_file_info`: the start button is disabled exactly while nothing is uploaded. */
  function UpdateFileInfo(contents: Option<string>, filename: Option<string>): (r: (FileInfo, bool))
    ensures r.1 <==> contents.None?
    ensures r.0 == (if contents.None? then NoFile else SelectedFile(filename))
  {
    if contents.None? then (NoFile, true) else (SelectedFile(filename), false)
  }
}
