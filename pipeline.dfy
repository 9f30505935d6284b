/** download_and_transcribe (endpoint.py:46-175): fetch, check, convert, transcribe, and map
    whatever was raised to an HTTP status. */
module Pipeline {
  import opened Wrappers
  import opened PyValues
  import opened PyStrings
  import opened Download
  import opened Transcode

  /** What the server at the url does: requests.get or raise_for_status raises, or the body
      streams as chunks, possibly broken off by an exception after the last of them. */
  datatype Fetch =
    | Refused(error: PyException)
    | Streamed(chunks: seq<Chunk>, interruption: Option<PyException>)

  /** What requests.get does with the url it is given. requests turns a url that is not a
      string into text with str(), which is never an http url, so the call raises
      MissingSchema, InvalidSchema or InvalidURL, depending on that text; each is a
      RequestException that is also a ValueError, and the message here stands in for all
      three. network gives what each string url does. */
  function Request(url: Json, network: string -> Fetch): (f: Fetch)
    ensures url.Str? ==> f == network(url.s)
    ensures !url.Str? ==> f.Refused? && f.error.isRequestError && f.error.isValueError
  {
    if url.Str? then network(url.s)
    else Refused(PyException(true, true, "Invalid URL: No scheme supplied"))
  }

  /** The HTTPException the function raises. */
  datatype HttpError = HttpError(status: int, detail: string)

  /** The error raised when the file is empty after the download. */
  const EmptyDownload: PyException := ValueError("Downloaded file is empty")

  /** The three except clauses, tried in order: a requests exception is a download error
      (500) even when it is also a ValueError; any other ValueError is a validation error
      (400); everything else is 500. */
  function ToHttpError(e: PyException): (h: HttpError)
    ensures h.status == 400 || h.status == 500
    ensures h.status == 400 <==> e.isValueError && !e.isRequestError
    ensures e.isRequestError ==> h.detail == "Download error: " + e.message
    ensures !e.isRequestError ==> h.detail == e.message
  {
    if e.isRequestError then HttpError(500, "Download error: " + e.message)
    else if e.isValueError then HttpError(400, e.message)
    else HttpError(500, e.message)
  }

  /** The result of the whole function, given the server, ffmpeg and Whisper. */
  function Transcription(fetch: Fetch, run: Strategy -> Attempt, whisper: Result<string, PyException>)
    : Result<string, HttpError>
  {
    match fetch
    case Refused(e) => Failure(ToHttpError(e))
    case Streamed(chunks, interruption) =>
      if interruption.Some? then Failure(ToHttpError(interruption.value))
      else if Concat(NonEmpty(chunks)) == [] then Failure(ToHttpError(EmptyDownload))
      else match Conversion(run)
        case Failure(e) => Failure(ToHttpError(e))
        case Success(_) =>
          match whisper
          case Failure(e) => Failure(ToHttpError(e))
          case Success(text) => Success(Strip(text))
  }

  /** The conversion commands the function runs: none unless the download completed and is
      non-empty. */
  function CommandsRun(fetch: Fetch, run: Strategy -> Attempt): seq<Strategy> {
    if fetch.Streamed? && fetch.interruption.None? && Concat(NonEmpty(fetch.chunks)) != []
    then Tried(run) else []
  }

  method DownloadAndTranscribe(fetch: Fetch, run: Strategy -> Attempt, whisper: Result<string, PyException>)
    returns (r: Result<string, HttpError>, ran: seq<Strategy>)
    ensures r.Failure? ==> r.error.status == 400 || r.error.status == 500
    ensures r.Success? ==> r.value == Strip(r.value)
    ensures r == Transcription(fetch, run, whisper) && ran == CommandsRun(fetch, run)
  {
    ran := [];
    match fetch
    case Refused(e) =>
      r := Failure(ToHttpError(e));
    case Streamed(chunks, interruption) =>
      var file, downloadedSize := StreamToFile(chunks);
      if interruption.Some? {
        r := Failure(ToHttpError(interruption.value));
        return;
      }
      if file.Size() == 0 {
        r := Failure(ToHttpError(EmptyDownload));
        return;
      }
      var wav;
      ran, wav := Convert(run);
      if wav.Failure? {
        r := Failure(ToHttpError(wav.error));
        return;
      }
      match whisper
      case Failure(e) =>
        r := Failure(ToHttpError(e));
      case Success(text) =>
        StripIdempotent(text);
        r := Success(Strip(text));
  }

  /** A body of empty chunks only is rejected with 400 before any ffmpeg command runs. */
  lemma EmptyDownloadRejected(chunks: seq<Chunk>, run: Strategy -> Attempt, whisper: Result<string, PyException>)
    requires forall i :: 0 <= i < |chunks| ==> chunks[i] == []
    ensures Transcription(Streamed(chunks, None), run, whisper) == Failure(HttpError(400, "Downloaded file is empty"))
    ensures CommandsRun(Streamed(chunks, None), run) == []
  {
    ConcatSkipsEmpty(chunks);
    ConcatEmptyIff(chunks);
  }

  /** A transport failure is a 500 and runs nothing else. */
  lemma TransportErrorIs500(fetch: Fetch, run: Strategy -> Attempt, whisper: Result<string, PyException>)
    requires fetch.Refused? || fetch.interruption.Some?
    requires fetch.Refused? ==> fetch.error.isRequestError
    requires fetch.Streamed? ==> fetch.interruption.value.isRequestError
    ensures Transcription(fetch, run, whisper).Failure?
    ensures Transcription(fetch, run, whisper).error.status == 500
    ensures CommandsRun(fetch, run) == []
  {
  }

  /** When no command returns 0 the result is a 500 carrying "All conversion attempts
      failed"; all three commands ran. */
  lemma AllConversionsFailedIs500(chunks: seq<Chunk>, run: Strategy -> Attempt, whisper: Result<string, PyException>)
    requires exists i :: 0 <= i < |chunks| && chunks[i] != []
    requires forall s :: s in Strategies ==> !Succeeded(run(s))
    ensures Transcription(Streamed(chunks, None), run, whisper) == Failure(HttpError(500, "All conversion attempts failed"))
    ensures CommandsRun(Streamed(chunks, None), run) == Strategies
  {
    ConcatSkipsEmpty(chunks);
    ConcatEmptyIff(chunks);
    AllFailedIffNoZeroExit(run);
  }

  /** A zero exit that leaves an empty WAV file is a 400, not the all-failed 500, and the
      commands after it are not run. */
  lemma EmptyWavIs400(chunks: seq<Chunk>, run: Strategy -> Attempt, whisper: Result<string, PyException>, k: nat)
    requires exists i :: 0 <= i < |chunks| && chunks[i] != []
    requires k < |Strategies| && Succeeded(run(Strategies[k])) && run(Strategies[k]).outputSize == 0
    requires forall j :: 0 <= j < k ==> !Succeeded(run(Strategies[j]))
    ensures Transcription(Streamed(chunks, None), run, whisper) == Failure(HttpError(400, "Converted WAV file is empty"))
    ensures CommandsRun(Streamed(chunks, None), run) == Strategies[..k + 1]
  {
    ConcatSkipsEmpty(chunks);
    ConcatEmptyIff(chunks);
    EmptyWavStops(run, k);
  }

  /** A transcript comes only from a completed, non-empty download and a non-empty WAV file,
      and is Whisper's text with the surrounding whitespace stripped. */
  lemma {:induction false} SuccessNeedsNonEmptyArtifacts(fetch: Fetch, run: Strategy -> Attempt, whisper: Result<string, PyException>)
    requires Transcription(fetch, run, whisper).Success?
    ensures fetch.Streamed? && fetch.interruption.None?
    ensures exists i :: 0 <= i < |fetch.chunks| && fetch.chunks[i] != []
    ensures Conversion(run).Success? && Conversion(run).value > 0
    ensures whisper.Success? && Transcription(fetch, run, whisper).value == Strip(whisper.value)
  {
    ConcatSkipsEmpty(fetch.chunks);
    ConcatEmptyIff(fetch.chunks);
  }
}
