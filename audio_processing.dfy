/** The audio-processing service: prepare the upload (convert it to WAV if it
    is an MP4), put it in blob storage, transcribe it from its blob URL, delete
    the blob and return the text. The blob store is a set of names that the
    service changes in place; every failure comes back as HTTP 500 with the
    step's message inside, wrapped once by the step and once more by
    `process_audio`. */
module AudioProcessing {
  import opened Common
  import AzSpeech
  import Mp4Processing
  import AudioTranscription

  const FilePrefix: string := "音声ファイルの処理に失敗しました: "
  const TranscribePrefix: string := "文字起こしに失敗しました: "
  const ProcessPrefix: string := "音声処理と文字起こしに失敗しました: "

  /** What the collaborators answer. */
  datatype AudioEnv = AudioEnv(
    mp4: Mp4Processing.Mp4Env,                               // file system and converter
    tmpdir: string,                                          // the scratch directory mkdtemp gives
    upload: (string, seq<Mp4Processing.Byte>) -> Result<string>,  // upload_blob: the blob URL or the exception
    speech: AzSpeech.SpeechApi,                              // the speech service
    endpoint: string,                                        // the speech endpoint
    deleteError: string -> Option<Error>)                    // delete_blob: the exception, if any

  /** The blob store: the names of the blobs it holds. */
  class BlobStore {
    var names: set<string>

    constructor (names: set<string>)
      ensures this.names == names
    {
      this.names := names;
    }

    /** `upload_blob`: on success the blob is there under `name`. */
    method UploadBlob(upload: (string, seq<Mp4Processing.Byte>) -> Result<string>, name: string, data: seq<Mp4Processing.Byte>)
      returns (r: Result<string>)
      modifies this
      ensures r == upload(name, data)
      ensures names == if r.Ok? then old(names) + {name} else old(names)
    {
      r := upload(name, data);
      if r.Ok? {
        names := names + {name};
      }
    }

    /** `delete_blob`: on success the blob is gone. */
    method DeleteBlob(deleteError: string -> Option<Error>, name: string) returns (failure: Option<Error>)
      modifies this
      ensures failure == deleteError(name)
      ensures names == if failure.None? then old(names) - {name} else old(names)
    {
      failure := deleteError(name);
      if failure.None? {
        names := names - {name};
      }
    }
  }

  /** The uploaded file: its name in the store and its URL. */
  datatype Uploaded = Uploaded(fileName: string, blobUrl: string)

  /** An exception re-raised as HTTP 500 "<prefix><str(e)>". */
  function Wrap(prefix: string, e: Error): (w: Error)
    ensures w.HttpError? && w.status == 500
    ensures |prefix| <= |w.detail| && w.detail[..|prefix|] == prefix
    ensures |Str(e)| <= |w.detail| && w.detail[|w.detail| - |Str(e)|..] == Str(e)
  {
    HttpError(500, prefix + Str(e))
  }

  /** What `process_audio_file` returns or raises. */
  function ProcessAudioFileSpec(env: AudioEnv, filePath: string): Result<Uploaded>
  {
    match Mp4Processing.ProcessMp4Spec(env.mp4, env.tmpdir, filePath)
    case Err(e) => Err(Wrap(FilePrefix, e))
    case Ok(f) =>
      match env.upload(f.fileName, f.fileData)
      case Err(e) => Err(Wrap(FilePrefix, e))
      case Ok(url) => Ok(Uploaded(f.fileName, url))
  }

  /** What `transcribe_audio` returns or raises. */
  function TranscribeAudioSpec(env: AudioEnv, blobUrl: string): Result<string>
  {
    match AudioTranscription.TranscribeAudio(env.speech, env.endpoint, blobUrl)
    case Ok(text) => Ok(text)
    case Err(e) => Err(Wrap(TranscribePrefix, e))
  }

  /** What `process_audio` returns or raises, and the blobs left in the store. */
  datatype Processed = Processed(result: Result<string>, blobs: set<string>)

  function ProcessAudioSpec(env: AudioEnv, filePath: string, blobs: set<string>): Processed
  {
    match ProcessAudioFileSpec(env, filePath)
    case Err(e) => Processed(Err(Wrap(ProcessPrefix, e)), blobs)
    case Ok(u) =>
      var stored := blobs + {u.fileName};
      match TranscribeAudioSpec(env, u.blobUrl)
      case Err(e) => Processed(Err(Wrap(ProcessPrefix, e)), stored)
      case Ok(text) =>
        match env.deleteError(u.fileName)
        case Some(e) => Processed(Err(Wrap(ProcessPrefix, e)), stored)
        case None => Processed(Ok(text), stored - {u.fileName})
  }

  class AudioProcessingService {
    const env: AudioEnv
    const store: BlobStore

    constructor (env: AudioEnv, store: BlobStore)
      ensures this.env == env && this.store == store
    {
      this.env := env;
      this.store := store;
    }

    /** `process_audio_file`: prepare the file, upload it under the prepared
        name, and return that name with the blob URL. */
    method ProcessAudioFile(filePath: string) returns (r: Result<Uploaded>)
      modifies store
      ensures r == ProcessAudioFileSpec(env, filePath)
      ensures store.names == if r.Ok? then old(store.names) + {r.value.fileName} else old(store.names)
    {
      var prepared := Mp4Processing.ProcessMp4(env.mp4, env.tmpdir, filePath);
      if prepared.Err? {
        return Err(Wrap(FilePrefix, prepared.error));
      }
      var url := store.UploadBlob(env.upload, prepared.value.fileName, prepared.value.fileData);
      if url.Err? {
        return Err(Wrap(FilePrefix, url.error));
      }
      r := Ok(Uploaded(prepared.value.fileName, url.value));
    }

    /** `transcribe_audio`: the transcription service, its errors wrapped again. */
    method TranscribeAudio(blobUrl: string) returns (r: Result<string>)
      ensures r == TranscribeAudioSpec(env, blobUrl)
    {
      var text := AudioTranscription.TranscribeAudio(env.speech, env.endpoint, blobUrl);
      r := if text.Ok? then text else Err(Wrap(TranscribePrefix, text.error));
    }

    /** `process_audio`: prepare and upload, transcribe, delete the blob, return
        the text. */
    method ProcessAudio(filePath: string) returns (r: Result<string>)
      modifies store
      ensures Processed(r, store.names) == ProcessAudioSpec(env, filePath, old(store.names))
    {
      var audio := ProcessAudioFile(filePath);
      if audio.Err? {
        return Err(Wrap(ProcessPrefix, audio.error));
      }
      var text := TranscribeAudio(audio.value.blobUrl);
      if text.Err? {
        return Err(Wrap(ProcessPrefix, text.error));
      }
      var failure := store.DeleteBlob(env.deleteError, audio.value.fileName);
      if failure.Some? {
        return Err(Wrap(ProcessPrefix, failure.value));
      }
      r := text;
    }
  }

  /** On success the text is the transcription of the uploaded blob's URL and
      the blob, uploaded and deleted under the same name, is gone again; the
      call succeeds exactly when preparation, upload, transcription and
      deletion all do. */
  lemma ProcessAudioSucceeds(env: AudioEnv, filePath: string, blobs: set<string>)
    ensures var p := ProcessAudioSpec(env, filePath, blobs);
      var u := ProcessAudioFileSpec(env, filePath);
      && (p.result.Ok? <==>
            && u.Ok?
            && AudioTranscription.TranscribeAudio(env.speech, env.endpoint, u.value.blobUrl).Ok?
            && env.deleteError(u.value.fileName).None?)
      && (p.result.Ok? ==>
            && p.result.value == AudioTranscription.TranscribeAudio(env.speech, env.endpoint, u.value.blobUrl).value
            && p.blobs == blobs - {u.value.fileName})
  {
  }

  /** The prepared file is uploaded under its prepared name: the .wav base name,
      or the .mp4 base name's stem with ".wav". */
  lemma UploadedUnderPreparedName(env: AudioEnv, filePath: string)
    requires ProcessAudioFileSpec(env, filePath).Ok?
    ensures var f := Mp4Processing.ProcessMp4Spec(env.mp4, env.tmpdir, filePath);
      && f.Ok?
      && ProcessAudioFileSpec(env, filePath) == Ok(Uploaded(f.value.fileName, env.upload(f.value.fileName, f.value.fileData).value))
  {
  }

  /** A failed transcription never reaches `delete_blob`: the uploaded blob
      stays in the store, and the speech error comes back wrapped three times
      (by the transcription service, by `transcribe_audio` and by
      `process_audio`), each wrap adding "500: " and its prefix. */
  lemma TranscriptionFailureLeaksBlob(env: AudioEnv, filePath: string, blobs: set<string>, u: Uploaded, e: Error)
    requires ProcessAudioFileSpec(env, filePath) == Ok(u)
    requires AudioTranscription.ExecuteTranscription(env.speech, env.endpoint, u.blobUrl) == Err(e)
    ensures ProcessAudioSpec(env, filePath, blobs).blobs == blobs + {u.fileName}
    ensures ProcessAudioSpec(env, filePath, blobs).result
            == Err(HttpError(500, ProcessPrefix + ("500: " + (TranscribePrefix + ("500: "
                                  + (AudioTranscription.FailurePrefix + Str(e)))))))
  {
    var once := HttpError(500, AudioTranscription.FailurePrefix + Str(e));
    assert AudioTranscription.TranscribeAudio(env.speech, env.endpoint, u.blobUrl) == Err(once);
    var twice := Wrap(TranscribePrefix, once);
    assert TranscribeAudioSpec(env, u.blobUrl) == Err(twice);
    assert ProcessAudioSpec(env, filePath, blobs) == Processed(Err(Wrap(ProcessPrefix, twice)), blobs + {u.fileName});
    TripleWrap(e);
  }

  /** The three wraps of a speech error, written out. */
  lemma TripleWrap(e: Error)
    ensures Wrap(ProcessPrefix, Wrap(TranscribePrefix, HttpError(500, AudioTranscription.FailurePrefix + Str(e))))
            == HttpError(500, ProcessPrefix + ("500: " + (TranscribePrefix + ("500: " + (AudioTranscription.FailurePrefix + Str(e))))))
  {
    var d1 := AudioTranscription.FailurePrefix + Str(e);
    var d2 := TranscribePrefix + ("500: " + d1);
    StrOf500(d1);
    assert Wrap(TranscribePrefix, HttpError(500, d1)) == HttpError(500, d2);
    StrOf500(d2);
  }

  lemma StrOf500(detail: string)
    ensures Str(HttpError(500, detail)) == "500: " + detail
  {
    assert Decimal(5) == "5";
    assert Decimal(50) == "50";
    assert Decimal(500) == "500";
  }

  /** Every failure of `process_audio` is HTTP 500 starting with
      "音声処理と文字起こしに失敗しました: " and ending with the original
      exception's message; the store then holds what it held, plus the
      uploaded blob when the upload had succeeded. */
  lemma ProcessAudioFailures(env: AudioEnv, filePath: string, blobs: set<string>)
    ensures var p := ProcessAudioSpec(env, filePath, blobs);
      p.result.Err? ==>
        && p.result.error.HttpError? && p.result.error.status == 500
        && |ProcessPrefix| <= |p.result.error.detail|
        && p.result.error.detail[..|ProcessPrefix|] == ProcessPrefix
        && (ProcessAudioFileSpec(env, filePath).Err? ==> p.blobs == blobs)
        && (ProcessAudioFileSpec(env, filePath).Ok? ==> p.blobs == blobs + {ProcessAudioFileSpec(env, filePath).value.fileName})
  {
    var u := ProcessAudioFileSpec(env, filePath);
    if u.Ok? {
      var t := TranscribeAudioSpec(env, u.value.blobUrl);
      if t.Err? {
        assert ProcessAudioSpec(env, filePath, blobs) == Processed(Err(Wrap(ProcessPrefix, t.error)), blobs + {u.value.fileName});
      }
    }
  }
}
