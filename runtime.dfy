/**
 * The speech-recognition library as the scripts see it: a model built from a size,
 * a device and a compute type, then asked to transcribe one media file.
 */
module Runtime {
  import opened Wrappers
  import opened Transcript

  /** The search beam width both entry points pass to `model.transcribe`. */
  const BeamSize: int := 5

  /** `compute_type`: automatic precision on "cuda", 8-bit integer quantisation on any other device. */
  function ComputeType(device: string): (r: string)
    ensures r == "auto" <==> device == "cuda"
    ensures r == "int8" <==> device != "cuda"
  {
    if device == "cuda" then "auto" else "int8"
  }

  /** `WhisperModel(modelSize, device=device, compute_type=computeType).transcribe(media, beam_size=beamSize)`. */
  datatype ModelRequest = ModelRequest(modelSize: string, device: string, computeType: string, media: string, beamSize: int)

  /**
   * How the library answers one request: building the model raises, `transcribe`
   * raises, or it reports the language and its rendered probability and yields
   * `segments` in order, after which it either ends or raises `failure`.
   */
  datatype ModelRun =
    | LoadFailed(cause: string)
    | TranscribeFailed(cause: string)
    | Decoding(language: string, probability: string, segments: seq<Segment>, failure: Option<string>)
}
