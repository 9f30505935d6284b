/** create_event (endpoint.py:177-227): transcribe the first attachment of a webhook body when
    it has a download url, fold the transcript into the message, store the event and answer. */
module Events {
  import opened Wrappers
  import opened PyValues
  import opened PyStrings
  import opened Transcode
  import opened Pipeline

  /** The row handed to BigQuery, less its created_at timestamp; `body` is the value that
      json.dumps serialises. */
  datatype Row = Row(eventName: Json, body: Json)

  /** The JSON object returned on success. */
  datatype Response = Response(status: string, message: string, transcription: Option<string>)

  /** body["message"] when the body is a dict whose "message" is a dict. */
  function MessageOf(body: Json): (m: Option<map<string, Json>>)
    ensures m.Some? <==> body.Dict? && "message" in body.fields && body.fields["message"].Dict?
    ensures m.Some? ==> m.value == body.fields["message"].fields
  {
    if body.Dict? && "message" in body.fields && body.fields["message"].Dict?
    then Some(body.fields["message"].fields) else None
  }

  /** The url download_and_transcribe is called with. None when the guard skips the call, and
      also when evaluating the guard raises (a message or first attachment that is not a
      dict, attachments that are a string, a number or a dict), since that error is swallowed. */
  function DownloadUrl(body: Json): (url: Option<Json>)
    ensures url.Some? ==> Truthy(url.value) && MessageOf(body).Some?
    ensures url.Some? <==>
              && MessageOf(body).Some?
              && "attachments" in MessageOf(body).value
              && MessageOf(body).value["attachments"].List?
              && MessageOf(body).value["attachments"].items != []
              && MessageOf(body).value["attachments"].items[0].Dict?
              && "temporary_download_url" in MessageOf(body).value["attachments"].items[0].fields
              && Truthy(MessageOf(body).value["attachments"].items[0].fields["temporary_download_url"])
    ensures url.Some? ==>
              url.value == MessageOf(body).value["attachments"].items[0].fields["temporary_download_url"]
  {
    match MessageOf(body)
    case None => None
    case Some(message) =>
      if "attachments" !in message then None
      else match message["attachments"]
        case List(attachments) =>
          if attachments == [] || !attachments[0].Dict? then None
          else
            var u := GetOr(attachments[0].fields, "temporary_download_url", Null);
            if Truthy(u) then Some(u) else None
        case _ => None
  }

  /** event_name: the body's "event_type", or "unknown" when it has none. */
  function EventName(body: Json): (name: Json)
    requires body.Dict?
    ensures "event_type" !in body.fields ==> name == Str("unknown")
    ensures "event_type" in body.fields ==> name == body.fields["event_type"]
  {
    GetOr(body.fields, "event_type", Str("unknown"))
  }

  /** The body once transcript t has been folded into its message: "transcription" is always
      t, "text" becomes t only when it was missing or falsy, and nothing else changes. */
  function WithTranscript(body: Json, t: string): (b: Json)
    requires MessageOf(body).Some?
    ensures b.Dict? && b.fields.Keys == body.fields.Keys
    ensures forall k :: k in body.fields && k != "message" ==> b.fields[k] == body.fields[k]
    ensures MessageOf(b).Some?
    ensures var before, after := MessageOf(body).value, MessageOf(b).value;
            && after.Keys == before.Keys + {"text", "transcription"}
            && after["transcription"] == Str(t)
            && (Truthy(GetOr(before, "text", Null)) ==> after["text"] == before["text"])
            && (!Truthy(GetOr(before, "text", Null)) ==> after["text"] == Str(t))
            && forall k :: k in before && k != "text" && k != "transcription" ==> after[k] == before[k]
  {
    var message := MessageOf(body).value;
    var withText := if Truthy(GetOr(message, "text", Null)) then message else message["text" := Str(t)];
    Dict(body.fields["message" := Dict(withText["transcription" := Str(t)])])
  }

  /** The transcript create_event obtains, or None when there is no url or the call raised. */
  function TranscriptFor(body: Json, network: string -> Fetch, run: Strategy -> Attempt,
                         whisper: Result<string, PyException>): (t: Option<string>)
    ensures t.Some? ==> DownloadUrl(body).Some?
  {
    match DownloadUrl(body)
    case None => None
    case Some(url) =>
      match Transcription(Request(url, network), run, whisper)
      case Success(text) => Some(text)
      case Failure(_) => None
  }

  /** The body as stored: enriched after a transcript, untouched otherwise. */
  function StoredBody(body: Json, t: Option<string>): Json
    requires t.Some? ==> MessageOf(body).Some?
  {
    if t.Some? then WithTranscript(body, t.value) else body
  }

  /** The response's "transcription" entry, present only for a truthy transcript. */
  function Shown(t: Option<string>): (shown: Option<string>)
    ensures shown.Some? <==> t.Some? && t.value != []
    ensures shown.Some? ==> shown == t
  {
    if t.Some? && t.value != [] then t else None
  }

  /** The inner try block: call download_and_transcribe when there is a url and, when it
      returns, fold the transcript into body["message"]; any exception leaves the body as it
      was and the transcription None. */
  method AttachTranscript(body: Json, network: string -> Fetch, run: Strategy -> Attempt,
                          whisper: Result<string, PyException>)
    returns (stored: Json, transcription: Option<string>)
    ensures transcription == TranscriptFor(body, network, run, whisper)
    ensures transcription.Some? ==> MessageOf(body).Some?
    ensures stored == StoredBody(body, transcription)
  {
    transcription := None;
    stored := body;
    var url := DownloadUrl(body);
    if url.Some? {
      var r, _ := DownloadAndTranscribe(Request(url.value, network), run, whisper);
      if r.Success? {
        var message := MessageOf(body).value;
        if !Truthy(GetOr(message, "text", Null)) {
          message := message["text" := Str(r.value)];
        }
        message := message["transcription" := Str(r.value)];
        stored := Dict(stored.fields["message" := Dict(message)]);
        transcription := Some(r.value);
      }
    }
  }

  /** The handler. network gives what each url serves, run what each ffmpeg command does,
      whisper what Whisper returns or raises, insertErrors the errors insert_rows_json
      reports, as the f-string renders them. The HTTPException raised for them is caught by
      the outer handler and raised again with str() of it, "500: " and its detail. */
  method CreateEvent(body: Json, network: string -> Fetch, run: Strategy -> Attempt,
                     whisper: Result<string, PyException>, insertErrors: Option<string>)
    returns (row: Option<Row>, response: Result<Response, HttpError>)
    ensures !body.Dict? ==> row.None? && response == Failure(HttpError(500, NoGetAttribute(body).message))
    ensures body.Dict? ==> var t := TranscriptFor(body, network, run, whisper);
            row == Some(Row(EventName(body), StoredBody(body, t)))
    ensures response.Success? <==> body.Dict? && insertErrors.None?
    ensures body.Dict? && insertErrors.Some? ==>
              response == Failure(HttpError(500, "500: Error inserting rows: " + insertErrors.value))
    ensures response.Failure? ==> response.error.status == 500
    ensures response.Success? ==>
              response.value == Response("success", "Event saved successfully",
                                         Shown(TranscriptFor(body, network, run, whisper)))
  {
    if !body.Dict? {
      row := None;
      response := Failure(HttpError(500, NoGetAttribute(body).message));
      return;
    }
    var stored, transcription := AttachTranscript(body, network, run, whisper);
    EventNameKept(body, transcription);
    row := Some(Row(GetOr(stored.fields, "event_type", Str("unknown")), stored));
    if insertErrors.Some? {
      response := Failure(HttpError(500, "500: Error inserting rows: " + insertErrors.value));
      return;
    }
    var shown := None;
    if transcription.Some? && transcription.value != [] {
      shown := transcription;
    }
    response := Success(Response("success", "Event saved successfully", shown));
  }

  /** Folding in the transcript does not change the event name. */
  lemma EventNameKept(body: Json, t: Option<string>)
    requires body.Dict?
    requires t.Some? ==> MessageOf(body).Some?
    ensures StoredBody(body, t).Dict? && EventName(StoredBody(body, t)) == EventName(body)
  {
    if t.Some? {
      var b := WithTranscript(body, t.value);
      assert "event_type" != "message";
      if "event_type" in body.fields {
        assert b.fields["event_type"] == body.fields["event_type"];
      }
    }
  }

  /** A failed transcription is swallowed: the body is stored as received and the response
      has no transcription. */
  lemma FailureLeavesBodyUnchanged(body: Json, network: string -> Fetch, run: Strategy -> Attempt,
                                   whisper: Result<string, PyException>)
    requires DownloadUrl(body).Some?
    requires Transcription(Request(DownloadUrl(body).value, network), run, whisper).Failure?
    ensures TranscriptFor(body, network, run, whisper).None?
    ensures StoredBody(body, TranscriptFor(body, network, run, whisper)) == body
    ensures Shown(TranscriptFor(body, network, run, whisper)).None?
  {
  }

  /** The response omits the transcript exactly when Whisper heard only whitespace (or
      nothing): a successful but empty transcript is still stored in the message. */
  lemma {:induction false} ShownIffAudibleText(body: Json, network: string -> Fetch, run: Strategy -> Attempt,
                                               whisper: Result<string, PyException>)
    requires DownloadUrl(body).Some?
    requires Transcription(Request(DownloadUrl(body).value, network), run, whisper).Success?
    ensures whisper.Success?
    ensures Shown(TranscriptFor(body, network, run, whisper)).None? <==> AllSpace(whisper.value)
    ensures MessageOf(StoredBody(body, TranscriptFor(body, network, run, whisper))).value["transcription"]
            == Str(Strip(whisper.value))
  {
    SuccessNeedsNonEmptyArtifacts(Request(DownloadUrl(body).value, network), run, whisper);
    StripEmptyIffAllSpace(whisper.value);
  }

  /** A url that is not a string never yields a transcript: requests refuses it and the
      error is swallowed. */
  lemma NonStringUrlNotTranscribed(body: Json, network: string -> Fetch, run: Strategy -> Attempt,
                                   whisper: Result<string, PyException>)
    requires DownloadUrl(body).Some? && !DownloadUrl(body).value.Str?
    ensures TranscriptFor(body, network, run, whisper).None?
    ensures StoredBody(body, TranscriptFor(body, network, run, whisper)) == body
  {
  }

  /** Only the first attachment decides whether transcription is attempted. */
  lemma OnlyFirstAttachmentCounts(body: Json, rest: seq<Json>)
    requires MessageOf(body).Some? && "attachments" in MessageOf(body).value
    requires MessageOf(body).value["attachments"].List?
    requires MessageOf(body).value["attachments"].items != []
    ensures var message := MessageOf(body).value;
            var first := message["attachments"].items[0];
            var body' := Dict(body.fields["message" := Dict(message["attachments" := List([first] + rest)])]);
            DownloadUrl(body') == DownloadUrl(body)
  {
  }
}
