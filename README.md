# simple_transcribe in Dafny

simple_transcribe has two entry points around a speech-recognition library:

- `transcribe.py` is a command-line script. It transcribes a video file into a text file.
- `dash/transcribe_dash.py` is a small web app. It transcribes an uploaded file and offers the transcript for download.

This project models the logic the two share and the logic each adds. The library is not modelled. Each `.dfy` file is one module:

| file | module | what it models |
|---|---|---|
| `wrappers.dfy` | `Wrappers` | `Option` |
| `strings.dfy` | `Strings` | `"".join`, `str.rfind` (which pathlib's suffix rule uses), a first-occurrence search used by the model's own segment-line reader, and mapping over a sequence |
| `timestamp.dfy` | `Timestamp` | `format_timestamp`, plus a parser that reads its output back |
| `transcript.dfy` | `Transcript` | the `[start --> end] text` segment line, the web app's header block, and the text each entry point produces |
| `runtime.dfy` | `Runtime` | the `compute_type` rule, the request made of the library, and the ways a library run can end |
| `paths.dfy` | `Paths` | pathlib's `name`, `suffix`, `stem` and `with_suffix` |
| `dash_app.dfy` | `DashApp` | `transcribe_audio`, `update_file_info` and `download_transcription` |
| `cli.dfy` | `Cli` | `main` and `transcribe_video` |

How the library is represented:

- It is a function from a `ModelRequest` to a `ModelRun`. The request holds the model size, device, compute type, media path and beam size.
- A run fails while the model is built, or fails when `transcribe` is called, or yields segments in order.
- A run that yields segments may still raise after the last one it yields.

The state each entry point changes is a class:

- `DashApp.Server` holds the module-level `latest_transcription` and the set of temporary files on disk.
- `Cli.Host` holds the files on disk as a map from path to contents.

Both loops are `while` loops with invariants, proved against specification functions:

- the web app's `transcription_lines` loop (`DashApp.AppendLines`);
- the script's `f.write` loop (`Cli.Host.WriteLines`).

The specification functions are:

- `DashApp.AudioOutcome` for `transcribe_audio`;
- `Cli.VideoEffect`, `Cli.RunEffect` and `Cli.CliEffect` for the script.

The lemmas beside these functions state what the program promises about them.

### Behaviour worth knowing

These are modelled as the code is written.

**The script is not all or nothing.**
- `transcribe_video` truncates the output file, then writes each line as its segment arrives.
- If decoding fails part way, the exception escapes and the process exits with status 1.
- The output file keeps the lines already written (`Cli.LateFailureLeavesPartialFile`).
- The web worker is different: on any library failure it returns the empty transcript (`DashApp.FailureReturnsNothing`).

**The web app can leave a temporary file behind.**
- The upload is staged in `NamedTemporaryFile(delete=False)` before the `try`.
- If the write fails, the exception escapes `transcribe_audio`, and the created file stays on disk.
- On every path that returns, the staged file is gone (`DashApp.Server.TranscribeAudio`).

**The script writes no header.**
- The script prints the language header to stdout and writes only the segment lines.
- The web transcript is that header and the 80-character separator, followed by exactly the text the script writes for the same segments (`Transcript.DashText`).

**`format_timestamp` is total.**
- It is modelled for every real input, negative ones included.
- A negative input gives a negative hours field, rendered by `02d` as `-N`.
- For exact reals, the minutes and seconds fields stay in 0..59, because Python's `%` on floats follows the sign of the divisor. With float rounding this can fail for tiny negative inputs: `-1e-20 % 60` rounds to `60.0`.

## Model

| member | source | states |
|---|---|---|
| `Timestamp.FloorQuotient` | dash/transcribe_dash.py:18 | Python's float `s // d` for a positive whole `d` is the floor of the whole seconds divided by `d` |
| `Timestamp.FloorRemainder` | dash/transcribe_dash.py:19-20 | Python's float `s % d`, truncated by `int`, is the whole seconds modulo `d`, never negative |
| `Timestamp.Fields` | dash/transcribe_dash.py:18-20 | the three fields add back to the whole seconds (`hours*3600 + minutes*60 + secs == floor(s)`, so truncation, not rounding); minutes and seconds lie in 0..59; each field equals the floor-division/modulo decomposition of the whole seconds; hours is non-negative exactly when the input is |
| `Timestamp.Decimal` | transcribe.py:43 | the decimal digits of a natural number: all digits, no leading zero, one character exactly for 0..9 and at most two exactly below 100 |
| `Timestamp.Pad2` | dash/transcribe_dash.py:21 | `02d`: at least two characters, exactly two for 0..99, digits only for non-negative values, and a leading '-' followed by digits for negative ones; a leading '0' only pads a single digit, and from 10 on and below 0 the width is exactly that of the digits (plus the sign), with no zero after the '-' |
| `Timestamp.Render` | dash/transcribe_dash.py:21 | the joined fields contain exactly two ':' (six and three characters from the end), only digits, ':' and '-', and a '-' exactly when hours is negative |
| `Timestamp.FormatTimestamp` | transcribe.py:39-43 | the timestamp has exactly two ':' separators at fixed positions from the end, is at least eight characters long, holds only digits, ':' and '-', and has no '-' exactly when the input is non-negative |
| `Timestamp.Pad2Value` | dash/transcribe_dash.py:21 | every padded field reads back as the number it renders, negative ones included |
| `Timestamp.RenderRoundTrip` | dash/transcribe_dash.py:21 | rendered fields read back as `hours*3600 + minutes*60 + seconds` |
| `Timestamp.FormatRoundTrip` | dash/transcribe_dash.py:16-21 | for every input, the timestamp reads back as exactly the whole seconds of the input, so the hours field never wraps |
| `Timestamp.FormatSameIffSameSecond` | transcribe.py:39-43 | two inputs give the same timestamp if and only if they have the same whole seconds |
| `Timestamp.HoursFieldWidens` | dash/transcribe_dash.py:18-21 | from 360000 seconds (100 hours) on, the timestamp is exactly the digits of the hours plus six characters, and so longer than eight: the hours field widens, unpadded and unwrapped |
| `Timestamp.Examples` | transcribe.py:39-43 | 0 gives "00:00:00", 3661 gives "01:01:01", 59.9 gives "00:00:59" and 360000 gives "100:00:00" |
| `Strings.Join` | dash/transcribe_dash.py:50 | `"".join` of no parts is empty, and the join of some parts ends with the last part |
| `Strings.JoinAppend` | dash/transcribe_dash.py:50 | `"".join` of two lists of parts is the join of the first followed by the join of the second |
| `Transcript.SegmentLine` | dash/transcribe_dash.py:47 | a segment line starts with '[' and ends with a newline |
| `Transcript.LineRoundTrip` | dash/transcribe_dash.py:47 | every segment line reads back into the segment's two formatted offsets and its text, unmodified, so the line is `"[" + fmt(start) + " --> " + fmt(end) + "] " + text + "\n"` with nothing added or lost |
| `Transcript.SegmentLineNewlines` | transcribe.py:34 | a line whose text has no newline contains exactly one newline, its terminator |
| `Transcript.Header` | dash/transcribe_dash.py:42 | the header is `Detected language: `, then the language, then ` (probability: `, then the rendered probability, then `)` and a newline; it does not start with '[' |
| `Transcript.Separator` | dash/transcribe_dash.py:43 | the separator is 80 '=' characters followed by "\n\n" |
| `Transcript.SegmentLines` | dash/transcribe_dash.py:46-48 | there is one line per segment |
| `Transcript.SegmentLineAt` | dash/transcribe_dash.py:46-48 | the k-th line is the line of the k-th segment received |
| `Transcript.SegmentLinesAppend` | dash/transcribe_dash.py:46-48 | consuming more segments only appends their lines |
| `Transcript.SegmentLinesSnoc` | dash/transcribe_dash.py:48 | one more segment adds exactly its line, at the end |
| `Transcript.DashLines` | dash/transcribe_dash.py:41-48 | the web app's lines are the header, the separator, and then at position k + 2 the line of the k-th segment received, two more entries than segments |
| `Transcript.DashText` | dash/transcribe_dash.py:41-50 | the web transcript is the header line, then the separator, then exactly the text the script writes for the same segments |
| `Transcript.DashLinesInOrder` | dash/transcribe_dash.py:41-48 | the web app's lines are the two header entries plus one per segment, and each later entry reads back into the offsets and text of the segment received at that position |
| `Transcript.CliText` | transcribe.py:32-34 | the text the script writes is empty if and only if there are no segments, and otherwise ends with a newline |
| `Transcript.CliTextAppend` | transcribe.py:33-34 | the text written for more segments extends the earlier text: earlier lines are never rewritten or reordered |
| `Transcript.CliTextSingle` | transcribe.py:34 | the text written for one segment is that segment's line |
| `Transcript.CliTextSnoc` | transcribe.py:33-34 | writing one more segment appends exactly its line |
| `Transcript.CliTextStart` | transcribe.py:32-34 | the written text is empty if and only if there are no segments; otherwise it starts with '[' |
| `Transcript.CliTextNewlines` | transcribe.py:32-34 | when no segment text contains a newline, the written text has exactly one newline per segment |
| `Transcript.CliLinesHaveNoHeader` | transcribe.py:30-34 | the language header is never among the lines the script writes |
| `Runtime.ComputeType` | dash/transcribe_dash.py:34 | the compute type is "auto" if and only if the device is "cuda", and "int8" if and only if it is not |
| `Paths.Name` | dash/transcribe_dash.py:28 | `Path(p).name` is the tail of the path after its last '/'; it contains no '/' and is never "." |
| `Paths.Dir` | transcribe.py:14 | the part before the name, followed by the name, is the whole path; it is empty, ends in '/', or the name is empty |
| `Paths.Suffix` | dash/transcribe_dash.py:28 | `suffix` is empty exactly when the name has no '.' strictly inside it, ends with '.', or is shorter than two characters; otherwise it is the tail from the last '.' and contains no other '.' |
| `Paths.Stem` | dash/transcribe_dash.py:296 | `stem` and `suffix` together have the name's length; the stem is empty only for the empty name |
| `Paths.StemThenSuffix` | dash/transcribe_dash.py:296 | the stem followed by the suffix is the whole name |
| `Paths.WithSuffix` | transcribe.py:14 | `with_suffix` fails exactly when the name is empty or the suffix is invalid; otherwise it keeps the directory and the stem and puts the new suffix after them |
| `Paths.NameOfJoin` | transcribe.py:14 | a name without '/' appended to a directory part is the name of the result, and the directory part is its directory |
| `Paths.SuffixOfJoin` | transcribe.py:14 | a single-'.' suffix appended to a non-empty stem is the suffix of the result, and the stem is its stem |
| `Paths.WithSuffixParts` | transcribe.py:14 | after `with_suffix`, the directory and the stem are unchanged, and the new name's suffix is exactly the given suffix |
| `DashApp.TempPath` | dash/transcribe_dash.py:28 | the temporary file's path is the generated name followed by exactly the suffix of the upload's name |
| `DashApp.AudioRequest` | dash/transcribe_dash.py:34-38 | the model is built with the caller's model size and device, and the "auto" compute type exactly on "cuda" ("int8" otherwise); it transcribes the staged file with beam size 5 |
| `DashApp.AudioOutcome` | dash/transcribe_dash.py:23-58 | a staging failure is raised with its cause; once staged, the call returns; a returned error comes with the empty transcript; a transcript without error means every library step succeeded, and it is the header, the separator and the script's text for the segments |
| `DashApp.AppendLines` | dash/transcribe_dash.py:41-48 | the loop leaves the header entries followed by the line of every segment, in the order received |
| `DashApp.Server.constructor` | dash/transcribe_dash.py:14 | at start-up `latest_transcription` is empty and no temporary file exists |
| `DashApp.Server.Transcribe` | dash/transcribe_dash.py:32-54 | the `try` block and its handler: the result is the full transcript with no error, or the empty transcript with the library's message; `latest_transcription` changes only on success, to the returned transcript |
| `DashApp.Server.TranscribeAudio` | dash/transcribe_dash.py:23-58 | the result is `AudioOutcome` of the staging and the library's run on the staged file; no temporary file remains when the call returns, and one stays only after a failed write; `latest_transcription` is set to the transcript on success and is untouched otherwise (the requires stands for the fresh name `NamedTemporaryFile` guarantees) |
| `DashApp.StagingFailureSkipsModel` | dash/transcribe_dash.py:28-30 | a staging failure escapes with its own cause, whatever the library would have done |
| `DashApp.FailureReturnsNothing` | dash/transcribe_dash.py:53-54 | a library failure at any point, including part way through the segments, returns `("", message)` and never a partial transcript |
| `DashApp.SuccessExactlyWhenAllSucceed` | dash/transcribe_dash.py:50-54 | a transcript without error is returned if and only if staging, model loading, transcription and every segment succeeded |
| `DashApp.SuccessIsFullTranscript` | dash/transcribe_dash.py:41-51 | on success the transcript is the header line `Detected language: L (probability: P)`, the separator, then one line per segment in order, and the error is `None` |
| `DashApp.DownloadName` | dash/transcribe_dash.py:295-298 | a non-empty upload name gives `<stem>_transcription.txt`; no name or an empty one gives `transcription.txt` |
| `DashApp.DownloadTranscription` | dash/transcribe_dash.py:290-300 | nothing is downloaded if and only if the transcription is absent or empty; otherwise the transcription itself, under the download name |
| `DashApp.TranscriptionName` | dash/transcribe_dash.py:296 | a stem without '/' followed by `_transcription.txt` is a bare name with suffix ".txt" and stem `<stem>_transcription` |
| `DashApp.DownloadNameParts` | dash/transcribe_dash.py:296 | the download name for a given upload is a bare file name with suffix ".txt" whose stem is the upload's stem followed by "_transcription" |
| `DashApp.UpdateFileInfo` | dash/transcribe_dash.py:191-201 | the start button is disabled if and only if nothing is uploaded; the file area shows the selected name otherwise |
| `Cli.ParseArgs` | transcribe.py:45-63 | usage (exit 1) if and only if fewer than two argv entries; otherwise the input is `argv[1]`, the output path, model size and device come from `argv[2..4]` with defaults None, "base" and "cuda", and the compute type is "auto" if and only if the device is "cuda", "int8" otherwise |
| `Cli.DefaultArguments` | transcribe.py:58-63 | with only the input given, the settings are no output path, "base", "cuda" and "auto" |
| `Cli.ExtraArgumentsIgnored` | transcribe.py:58-61 | arguments after the device do not change the run |
| `Cli.ExitStatus` | transcribe.py:11 | `sys.exit(n)` exits with n; a normal return exits with 0, and an uncaught exception exits with a non-zero status |
| `Cli.OutputPathFor` | transcribe.py:13-16 | an explicit output path is used unchanged; without one, the path is derived by `with_suffix`, which fails exactly for an input with an empty name |
| `Cli.DefaultOutputBesideInput` | transcribe.py:13-14 | the default output lies in the input's directory, with the input's stem and the suffix ".txt" in place of its last suffix |
| `Cli.TxtInputIsItsOwnOutput` | transcribe.py:14 | an input already ending in ".txt" is its own default output, so the transcript overwrites it |
| `Cli.VideoRequest` | transcribe.py:22-28 | the model is built with the given model size, device and compute type, and transcribes the input path with beam size 5 |
| `Cli.RunEffect` | transcribe.py:22-34 | the run completes if and only if the library decoded every segment, and never exits through `sys.exit`; a model-load or `transcribe` failure leaves every file as it was, because the output is opened only afterwards; otherwise every file other than the output keeps its contents, and the output is the only path that can appear |
| `Cli.VideoEffect` | transcribe.py:6-36 | the script exits through `sys.exit` if and only if the input is missing, and then with status 1 and no file changed; an existing input whose output path `with_suffix` cannot derive crashes with no file changed; a completed run had a derivable output path |
| `Cli.CliEffect` | transcribe.py:45-65 | the script exits through `sys.exit` if and only if there are fewer than two argv entries or the input is missing, and then with status 1 and no file changed |
| `Cli.OnlyOutputChanges` | transcribe.py:6-34 | every file other than the output path keeps its contents, and nothing changes when the input is missing |
| `Cli.CompletedReachedModel` | transcribe.py:9-28 | a run that completes had an existing input and a derivable output path, and its effect is that of the library's run on the input |
| `Cli.CompletedWritesSegmentLines` | transcribe.py:30-34 | a completed run decoded every segment and leaves the output holding exactly their lines in order, with no header: empty for no segments, else starting with '[' |
| `Cli.LateFailureLeavesPartialFile` | transcribe.py:32-34 | a decoding failure after some segments crashes the script but leaves the non-empty text of those segments in the output |
| `Cli.Host.WriteLines` | transcribe.py:33-34 | the loop appends every segment's line, in order, to the output's current contents and changes no other file |
| `Cli.Host.WriteTranscript` | transcribe.py:32-34 | the output is truncated, then holds exactly the lines of the segments received, and no other file changes |
| `Cli.Host.FinishRun` | transcribe.py:22-34 | model construction, transcription and writing leave the outcome and the files that `RunEffect` describes |
| `Cli.Host.TranscribeVideo` | transcribe.py:6-36 | `transcribe_video` ends and leaves the files as `VideoEffect` describes: exit 1 with nothing written for a missing input, then output-path derivation, the model run and the per-segment writing |
| `Cli.Host.RunCli` | transcribe.py:45-65 | the exit status and final files of the whole script on `argv` are those of `CliEffect` |

## Left out

- The speech-recognition library is not modelled. `WhisperModel(...)` and `model.transcribe(...)` are a function from the request to an abstract run. The run reports the language, the rendered probability and the segments in order, or says where it raised.
- The `:.2f` rendering of `language_probability` is float formatting. The rendered probability is an opaque string.
- Python floats are modelled as exact reals. Rounding in `seconds % 3600` and `seconds % 60`, and NaN or infinite input (where `int()` raises), are not modelled.
- The filesystem is abstract:
  - `Path.exists()` is membership in the file map;
  - `tempfile.NamedTemporaryFile` is a generated name plus a staging outcome passed in as parameters;
  - `os.unlink` is removal from the set of temporary files;
  - file contents are strings, with no bytes and no UTF-8 encoding.
- An `open` or `write` failure on the script's output file, and an `os.unlink` failure in the web worker's `finally`, are not modelled. They are OS-level I/O errors.
- Paths are strings in pathlib's normalised form. How `Path` collapses repeated or trailing '/' and "." components is not modelled.
- The `print` calls in both files are not modelled. They only write to stdout.
- `sys.exit` is reduced to an exit status.
- `perform_transcription` is not modelled. It is UI glue: alerts, base64 decoding, `contents.split(',')`, and its `if error:` test, which treats an empty exception message as success.
- `copy_to_clipboard` and the clientside JavaScript callback are not modelled. They run in the browser.
- The Dash layout, the Bootstrap components and `run_server` are not modelled. They are UI.
- Concurrent callbacks racing on `latest_transcription` are not modelled. Each call is taken on its own.
