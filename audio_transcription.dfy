/** The transcription service: four calls on the speech client, each output
    feeding the next (create the job, poll it, read the result URL, read the
    display text), with every exception re-raised as one HTTP 500 error. */
module AudioTranscription {
  import opened Common
  import AzSpeech

  const FailurePrefix: string := "文字起こしに失敗しました: "

  /** `_execute_transcription`: the four calls, with the poll's defaults. */
  function ExecuteTranscription(api: AzSpeech.SpeechApi, endpoint: string, blobUrl: string): Result<string>
  {
    var jobUrl :- AzSpeech.CreateTranscriptionJob(api, endpoint, blobUrl);
    var filesUrl :- AzSpeech.Poll(api, jobUrl, AzSpeech.DefaultMaxAttempts, AzSpeech.DefaultInitialInterval).result;
    var contentUrl :- AzSpeech.GetTranscriptionResult(api, filesUrl);
    AzSpeech.GetTranscriptionDisplay(api, contentUrl)
  }

  /** `transcribe_audio`: the display text unchanged, or 500 "文字起こしに失敗しました: <str(e)>". */
  function TranscribeAudio(api: AzSpeech.SpeechApi, endpoint: string, blobUrl: string): Result<string>
  {
    match ExecuteTranscription(api, endpoint, blobUrl)
    case Ok(text) => Ok(text)
    case Err(e) => Err(HttpError(500, FailurePrefix + Str(e)))
  }

  /** When every call succeeds, the result is the display text read from the
      content URL that the files listing named, the files URL being the one the
      poll of the created job returned. */
  lemma TranscribeAudioChain(api: AzSpeech.SpeechApi, endpoint: string, blobUrl: string,
                             jobUrl: string, filesUrl: string, contentUrl: string)
    requires AzSpeech.CreateTranscriptionJob(api, endpoint, blobUrl) == Ok(jobUrl)
    requires AzSpeech.Poll(api, jobUrl, AzSpeech.DefaultMaxAttempts, AzSpeech.DefaultInitialInterval).result == Ok(filesUrl)
    requires AzSpeech.GetTranscriptionResult(api, filesUrl) == Ok(contentUrl)
    ensures TranscribeAudio(api, endpoint, blobUrl) == match AzSpeech.GetTranscriptionDisplay(api, contentUrl)
      case Ok(text) => Ok(text)
      case Err(e) => Err(HttpError(500, FailurePrefix + Str(e)))
  {
  }

  /** The service never returns without a value: it gives the display text or
      raises 500 with the failing step's message, and a step fails only when
      every step before it succeeded (a failed job creation skips the poll). */
  lemma TranscribeAudioErrors(api: AzSpeech.SpeechApi, endpoint: string, blobUrl: string)
    ensures var r := TranscribeAudio(api, endpoint, blobUrl);
      var job := AzSpeech.CreateTranscriptionJob(api, endpoint, blobUrl);
      && (r.Ok? <==> ExecuteTranscription(api, endpoint, blobUrl).Ok?)
      && (job.Err? ==> r == Err(HttpError(500, FailurePrefix + Str(job.error))))
      && (job.Ok? && AzSpeech.Poll(api, job.value, AzSpeech.DefaultMaxAttempts, AzSpeech.DefaultInitialInterval).result.Err? ==>
            r == Err(HttpError(500, FailurePrefix
                 + Str(AzSpeech.Poll(api, job.value, AzSpeech.DefaultMaxAttempts, AzSpeech.DefaultInitialInterval).result.error))))
      && (r.Err? ==>
            r.error.HttpError? && r.error.status == 500
            && |FailurePrefix| <= |r.error.detail| && r.error.detail[..|FailurePrefix|] == FailurePrefix)
  {
  }
}
