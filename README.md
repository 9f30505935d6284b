# Audio transcription webhook: verified model of its decision logic

The service receives webhook events (`POST /events`). When the first attachment of the
event's message carries a `temporary_download_url`, it downloads the audio, converts it to a
16 kHz mono 16-bit PCM WAV file with ffmpeg, transcribes it with Whisper, writes the
transcript into the message and stores the event in BigQuery. This project models the
deterministic logic of that path in `endpoint.py`, with every external tool given as an
input (an oracle) rather than executed:

- **Download** (`download.dfy`): the response body is a sequence of chunks; the chunk loop
  writes the non-empty ones, in order, into a `TempFile` object and keeps `downloaded_size`.
  The file ends up holding the concatenation of the non-empty chunks, the counter equals its
  size, and empty chunks change nothing.
- **Transcoding** (`transcode.dfy`): three ffmpeg commands (`-f ogg`, `-f audio`, no format
  hint) are tried in that order. The loop stops at the first command whose return code is
  0. A raising command and a non-zero return code are handled alike. No zero exit gives
  "All conversion attempts failed". A zero exit that leaves an empty WAV gives "Converted WAV
  file is empty", and no later command runs.
- **Pipeline** (`pipeline.dfy`): `download_and_transcribe` as a method proved against a
  specification function, with the exception-to-status mapping. Transport errors are 500,
  `ValueError` is 400 and everything else is 500. The except clauses are tried in order, so a
  `requests` exception that is also a `ValueError` is still 500. On success the result is
  Whisper's text passed through `str.strip()`.
- **Webhook** (`events.dfy`): `create_event` on a JSON value. It finds the url, swallows
  any failure of the transcription step, sets `message.transcription` and sets
  `message.text` only when it was missing or falsy. It builds the stored row, with
  `event_name` defaulting to `"unknown"`. The response carries `transcription` only when the
  transcript is non-empty.
- **Python semantics used** (`py_values.dfy`, `py_strings.dfy`): JSON values and their
  truthiness, `dict.get`, the `AttributeError` of `.get` on a non-dict, raised exceptions
  described by the two classes the handlers test, and `str.strip()` over the characters
  `str.isspace()` accepts.

Oracles: `Fetch` (what the server at a url does: refuse, or stream chunks possibly broken
off by an exception), `run: Strategy -> Attempt` (what each ffmpeg command does: raise, or
exit with a code leaving a WAV of some size), `whisper` (the text Whisper returns, or the
exception it raises), `network: string -> Fetch` (the server behind each string url; a url that is not a string
is refused by `requests` before any server is asked, see `Pipeline.Request`) and
`insertErrors` (the errors `insert_rows_json` reports, as the f-string renders them). The
HTTPException raised for those errors is caught by the handler's outer `except Exception` and
raised again with `str()` of it as detail, so the detail reads `"500: Error inserting rows: …"`.

Behaviour as the code has it: a non-2xx answer is a 500 with detail `"Download error: …"`.
"All conversion attempts failed" carries no per-command output. An exception raised by
Whisper is mapped by its class like any other (500, or 400 for a `ValueError`). A command
that succeeds with an empty WAV ends the run without trying the remaining commands.

## Model

| member | source | states |
|---|---|---|
| `Download.TempFile.Create` | endpoint.py:82 | opening the file with mode `'wb'` leaves it empty |
| `Download.TempFile.Write` | endpoint.py:85 | a write appends the chunk's bytes to the file and changes nothing else |
| `Download.NonEmpty` | endpoint.py:84 | the chunks that pass `if chunk:` are all non-empty and no more than the input |
| `Download.TempFile.Size` | endpoint.py:95 | `os.path.getsize`: the number of bytes in the file |
| `Download.StreamToFile` | endpoint.py:79-92 | the file is a new object; after the loop it holds the non-empty chunks concatenated in order, `downloaded_size` is the sum of their lengths, and it equals the file size |
| `Download.ConcatLength` | endpoint.py:86 | the bytes written number exactly the sum of the chunk lengths |
| `Download.ConcatSkipsEmpty` | endpoint.py:84-85 | skipping empty chunks does not change the file contents |
| `Download.ConcatEmptyIff` | endpoint.py:95-98 | the downloaded file is empty exactly when every chunk was empty |
| `Download.ConcatAppend` | endpoint.py:83-85 | chunks streamed after others append their bytes after the earlier ones |
| `Transcode.Command` | endpoint.py:115-122 | every command converts with `-y` to `pcm_s16le`, 16000 Hz, 1 channel, into the WAV path; the first two pass `-f ogg` and `-f audio` and have exactly 13 arguments, the third no format and 11 |
| `Transcode.Succeeded` | endpoint.py:129 | an attempt succeeds only when ffmpeg exited with return code 0; a raised invocation never succeeds |
| `Transcode.FirstSuccess` | endpoint.py:125-131 | the loop stops at the first command with return code 0; every command before it failed |
| `Transcode.Convert` | endpoint.py:124-145 | the commands run form an ordered prefix of ogg, audio, no hint; all but the last failed; the last succeeded unless all three ran; a success result is a non-empty WAV from a zero exit; result and commands run match `Conversion` and `Tried` |
| `Transcode.OggSuccessStops` | endpoint.py:129-131 | when the `-f ogg` command returns 0 it is the only command run |
| `Transcode.AutoDetectRunsLast` | endpoint.py:115-131 | the command without a format hint runs if and only if both hinted commands failed |
| `Transcode.AllFailedIffNoZeroExit` | endpoint.py:137-138 | the outcome is "All conversion attempts failed" if and only if no command returned 0 |
| `Transcode.EmptyWavStops` | endpoint.py:141-145 | a zero exit leaving an empty WAV gives "Converted WAV file is empty", distinct from all-failed, and the later commands are not run |
| `Transcode.FailuresAreInterchangeable` | endpoint.py:132-135 | a raising command and a non-zero exit lead to the same commands run and the same outcome |
| `Transcode.SameFirstSuccess` | endpoint.py:125-135 | the stopping point depends only on which commands returned 0 |
| `Pipeline.Request` | endpoint.py:59 | a string url is fetched from the server it names; any other url is refused with a requests error that is also a ValueError, as requests' MissingSchema is |
| `Pipeline.ToHttpError` | endpoint.py:167-175 | a requests exception gives 500 and `"Download error: "` plus its message, even when it is also a ValueError; another ValueError gives 400; anything else gives 500 |
| `Pipeline.DownloadAndTranscribe` | endpoint.py:46-175 | the status is always 400 or 500 on failure; a transcript is its own strip; result and commands run equal `Transcription` and `CommandsRun` |
| `Pipeline.EmptyDownloadRejected` | endpoint.py:95-99 | a body of empty chunks is a 400 "Downloaded file is empty" and no ffmpeg command runs |
| `Pipeline.TransportErrorIs500` | endpoint.py:167-169 | a requests failure, before or during streaming, is a 500 and runs no command |
| `Pipeline.AllConversionsFailedIs500` | endpoint.py:137-138 | when no command returns 0 the result is a 500 "All conversion attempts failed" after all three commands ran |
| `Pipeline.EmptyWavIs400` | endpoint.py:144-145 | a zero exit with an empty WAV is a 400 "Converted WAV file is empty" and the later commands are not run |
| `Pipeline.SuccessNeedsNonEmptyArtifacts` | endpoint.py:94-165 | a transcript implies a completed non-empty download, a non-empty WAV, and is Whisper's text stripped |
| `PyStrings.IsSpace` | endpoint.py:154 | the characters `str.isspace()` accepts, which `.strip()` removes |
| `PyStrings.LStrip` | endpoint.py:154 | the result is a suffix of the input not starting with whitespace, and only whitespace was removed |
| `PyStrings.RStrip` | endpoint.py:154 | the result is a prefix of the input not ending with whitespace, and only whitespace was removed |
| `PyStrings.Strip` | endpoint.py:154 | the result is no longer than the input and neither starts nor ends with whitespace |
| `PyStrings.LeadingSpace` | endpoint.py:154 | the characters removed at the front are all whitespace |
| `PyStrings.StripUnique` | endpoint.py:154 | a text framed by whitespace runs strips to itself when it neither starts nor ends with whitespace |
| `PyStrings.StripIsInfix` | endpoint.py:154 | the stripped text is the part of the input right after the leading whitespace |
| `PyStrings.StripDropsTrailingSpace` | endpoint.py:154 | what follows the stripped text in the input is whitespace only |
| `PyStrings.StripIdempotent` | endpoint.py:154 | stripping twice is stripping once |
| `PyStrings.StripEmptyIffAllSpace` | endpoint.py:154 | the transcript is empty exactly when Whisper's text is all whitespace |
| `PyValues.Truthy` | endpoint.py:192 | Python's truth test: a value is false exactly when it is None, False, 0, `""`, `[]` or `{}` |
| `PyValues.GetOr` | endpoint.py:205 | `dict.get(key, default)` gives the entry when present and the default otherwise |
| `PyValues.NoGetAttribute` | endpoint.py:205 | `.get` on a non-dict raises an error that is neither a requests error nor a ValueError |
| `Events.MessageOf` | endpoint.py:187-188 | the message is available exactly when the body is a dict whose `message` is a dict |
| `Events.DownloadUrl` | endpoint.py:187-192 | a url is used if and only if the message's attachments are a non-empty list whose first element is a dict with a truthy `temporary_download_url`, and the url is that value |
| `Events.EventName` | endpoint.py:205 | `event_name` is the body's `event_type`, or `"unknown"` when it has none |
| `Events.WithTranscript` | endpoint.py:194-197 | `transcription` is set to the transcript; `text` is set to it only when missing or falsy; no other key of the message or the body changes |
| `Events.TranscriptFor` | endpoint.py:185-200 | a transcript exists only when the body carried a download url |
| `Events.Shown` | endpoint.py:220-221 | the response carries the transcript if and only if it is non-empty |
| `Events.AttachTranscript` | endpoint.py:185-200 | the transcript is the pipeline's when it succeeds, otherwise none, and the body is enriched only in the first case |
| `Events.CreateEvent` | endpoint.py:178-227 | a non-dict body is a 500; otherwise the row holds the event name and the possibly enriched body; success exactly when the insert reports no errors, and reported errors give 500 with detail `"500: Error inserting rows: …"`; the response shows only a truthy transcript; every failure is 500 |
| `Events.EventNameKept` | endpoint.py:203-206 | enriching the message does not change the stored event name |
| `Events.FailureLeavesBodyUnchanged` | endpoint.py:198-200 | a failed transcription is swallowed: the body is stored as received and the response has no transcription |
| `Events.ShownIffAudibleText` | endpoint.py:219-221 | after a successful transcription the response omits it exactly when Whisper heard only whitespace, while the message still records the stripped text |
| `Events.NonStringUrlNotTranscribed` | endpoint.py:191-199 | a `temporary_download_url` that is not a string never yields a transcript and leaves the body unchanged |
| `Events.OnlyFirstAttachmentCounts` | endpoint.py:191 | attachments after the first do not affect whether or from where audio is fetched |

## Left out

- Pipeline.Request: a url that is not a string makes requests raise MissingSchema, InvalidSchema or InvalidURL, depending on its `str()` text; each is a RequestException that is also a ValueError. The model raises one such error whose message stands in for all three. create_event swallows the error, so its class name and text are never observed.
- HTTP fetching: `requests.get`, its headers, `raise_for_status` and header logging are the `Fetch` input.
- Progress percentage and `Content-Length` (endpoint.py:87-89): the percentage is floating-point and only logged, but the lines can also raise, and those exception paths are not modelled. A `Content-Length` that is not an integer (`"10, 10"`) makes `int()` raise a ValueError (400). A `Content-Length` of `"0"` on a body that still delivers bytes raises ZeroDivisionError (500). Both happen at the first non-empty chunk; a caller of the model can express either as `Streamed(chunks up to the first non-empty one, Some(e))`.
- `flush`/`fsync`, creating the download directory, and timestamped file names: OS and clock details. Errors from them (`OSError` from `makedirs` or `open`) are not modelled.
- MIME sniffing with libmagic and the 16-byte header snapshot: diagnostics only. An exception from `magic.from_file` is not modelled.
- `inspect_file` (ffprobe): diagnostic, and it swallows its own errors, so it has no effect.
- ffmpeg itself: each command's behaviour is the `run` input. The stderr it logs is not modelled.
- Transcode.Attempt: a zero exit that leaves no WAV file at all is not modelled. `os.path.getsize` would then raise, giving a 500.
- Whisper model loading and inference: the `whisper` input gives the text or the exception.
- `await request.json()` failing to decode: the body is given as an already decoded value.
- PyValues.Json: JSON numbers are integers only, so the truthiness of a float such as 0.0 is not modelled.
- The `created_at` timestamp, `json.dumps` serialisation and key order of the stored body, the BigQuery client and table name. The insert is reduced to its error report (`insertErrors`).
- FastAPI routing, async/await and the uvicorn entry point.
- Logging: it has no effect on behaviour.
- Events.AttachTranscript: `body["message"]` is updated in place in the code; the model rebuilds the body value. No other reference to that dict exists, so the difference is not observable.
- Downloaded and converted files are never deleted in the code; file retention is not modelled.
