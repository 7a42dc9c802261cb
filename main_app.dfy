/** The application module's own pipeline, as its endpoints intend to wire
    it (the module's imports and two of its calls do not match the helpers
    they name, so this is the design the module states rather than code that
    runs as written). The endpoint opens the task, saves the upload and
    schedules `process_audio`. That method converts, uploads the blob, transcribes, summarises, delivers
    the Word document, completes the task and deletes the blob, in that order.
    It records any exception as a task failure and raises nothing. The status
    endpoint reads the task back. The task store is the same three-dictionary
    store as `TaskStore.TaskManagingService`. */
module MainApp {
  import opened Common
  import TaskStore
  import TokenChunking
  import SummaryText
  import Mp4Processing
  import AudioProcessing
  import AudioProcessingUseCase

  type SiteData = AudioProcessingUseCase.SiteData
  type WordStep = AudioProcessingUseCase.WordStep

  const Mp4Failed: Error := ValueError("MP4ファイルの処理に失敗しました")
  const TranscriptionFailed: Error := ValueError("文字起こしに失敗しました")
  const UnknownTask: Error := HttpError(404, "タスクIDが存在しません")
  const Started: string := "処理を開始しました"

  /** What the collaborators answer. */
  datatype MainEnv = MainEnv(
    mp4: string -> Result<Option<Mp4Processing.AudioFile>>,        // mp4_processor: the file, a falsy None, or the exception
    upload: (string, seq<Mp4Processing.Byte>) -> Result<string>,  // upload_blob: the blob URL
    transcribe: string -> Result<string>,                         // the transcription client on a blob URL
    chat: SummaryText.Chat,                                       // one chat completion
    tok: TokenChunking.Tokenizer,                                 // the summariser's tokenizer
    createWord: (string, string) -> Result<string>,               // create_word: the file path
    uploadFile: (Json, Json, string) -> Option<Error>,            // upload_file: the exception, if any
    deleteError: string -> Option<Error>)                         // delete_blob: the exception, if any

  /** `_handle_transcription`: an empty transcription is an error. */
  function HandleTranscription(env: MainEnv, blobUrl: string): (r: Result<string>)
    ensures r.Ok? <==> env.transcribe(blobUrl).Ok? && env.transcribe(blobUrl).value != ""
    ensures r.Ok? ==> r.value == env.transcribe(blobUrl).value
    ensures env.transcribe(blobUrl) == Ok("") ==> r == Err(TranscriptionFailed)
    ensures env.transcribe(blobUrl).Err? ==> r == env.transcribe(blobUrl)
  {
    var text :- env.transcribe(blobUrl);
    if text == "" then Err(TranscriptionFailed) else Ok(text)
  }

  /** The delivery gate of `_handle_sharepoint_upload`: a non-empty dictionary
      holding both keys. */
  predicate Deliver(siteData: Option<SiteData>)
  {
    siteData.Some? && siteData.value != map[] && "site" in siteData.value && "directory" in siteData.value
  }

  /** `_handle_sharepoint_upload`: create the document, upload it, and clean it
      up whatever the upload did; an upload exception propagates after the
      cleanup. */
  function HandleSharepointUploadSpec(env: MainEnv, siteData: Option<SiteData>, transcribed: string, summarized: string)
    : AudioProcessingUseCase.Word
  {
    if !Deliver(siteData) then AudioProcessingUseCase.Word(Ok(()), [])
    else
      match env.createWord(transcribed, summarized)
      case Err(e) => AudioProcessingUseCase.Word(Err(e), [])
      case Ok(path) =>
        var failure := env.uploadFile(siteData.value["site"], siteData.value["directory"], path);
        var steps := [AudioProcessingUseCase.Created(path), AudioProcessingUseCase.Uploaded(path, failure),
                      AudioProcessingUseCase.CleanedUp(path)];
        AudioProcessingUseCase.Word(if failure.Some? then Err(failure.value) else Ok(()), steps)
  }

  /** What `process_audio` did: the store calls in order, the blobs left, the
      document work, and the exception it recorded (it raises none). */
  datatype MainRun = MainRun(calls: seq<TaskStore.StoreCall>, blobs: set<string>, word: seq<WordStep>, failure: Option<Error>)

  function Failed(taskId: string, e: Error, blobs: set<string>, word: seq<WordStep>): MainRun
  {
    MainRun([TaskStore.Fail(taskId, Str(e))], blobs, word, Some(e))
  }

  function ProcessAudioSpec(env: MainEnv, blobs: set<string>, taskId: string, siteData: Option<SiteData>, filePath: string): MainRun
  {
    match env.mp4(filePath)
    case Err(e) => Failed(taskId, e, blobs, [])
    case Ok(None) => Failed(taskId, Mp4Failed, blobs, [])
    case Ok(Some(f)) =>
      match env.upload(f.fileName, f.fileData)
      case Err(e) => Failed(taskId, e, blobs, [])
      case Ok(url) =>
        var stored := blobs + {f.fileName};
        match HandleTranscription(env, url)
        case Err(e) => Failed(taskId, e, stored, [])
        case Ok(text) =>
          Transcribed(env, stored, taskId, siteData, f.fileName, text,
                      SummaryText.SummarizeTextSpec(env.chat, env.tok, text, SummaryText.DefaultMaxTokensPerChunk))
  }

  /** `process_audio` once the text is in and the summariser answered. */
  function Transcribed(env: MainEnv, stored: set<string>, taskId: string, siteData: Option<SiteData>,
                       fileName: string, text: string, summary: Result<string>): MainRun
  {
    match summary
    case Err(e) => Failed(taskId, e, stored, [])
    case Ok(s) =>
      var w := HandleSharepointUploadSpec(env, siteData, text, s);
      match w.result
      case Err(e) => Failed(taskId, e, stored, w.steps)
      case Ok(_) =>
        var complete := TaskStore.Complete(taskId, text, s);
        match env.deleteError(fileName)
        case Some(e) => MainRun([complete, TaskStore.Fail(taskId, Str(e))], stored, w.steps, Some(e))
        case None => MainRun([complete], stored - {fileName}, w.steps, None)
  }

  /** `parse_form`: a missing or empty field becomes "". */
  function OrEmpty(field: Option<string>): (r: string)
    ensures field.Some? ==> r == field.value
    ensures field.None? ==> r == ""
  {
    if field.Some? && field.value != "" then field.value else ""
  }

  /** The site data the endpoint hands on: the parsed form as a dictionary,
      which always holds both keys. */
  function ParseForm(site: Option<string>, directory: Option<string>): SiteData
  {
    map["site" := JStr(OrEmpty(site)), "directory" := JStr(OrEmpty(directory))]
  }

  /** The endpoint's answer. */
  datatype Response =
    | Accepted(taskId: string, message: string)  // 202 {"task_id", "message"}
    | ServerError(error: string)                 // 500 {"error": str(e)}

  /** The work the endpoint schedules in the background. */
  datatype Scheduled = Scheduled(taskId: string, siteData: SiteData, filePath: string)

  datatype Endpoint = Endpoint(response: Response, calls: seq<TaskStore.StoreCall>, scheduled: Option<Scheduled>)

  /** `POST /transcribe`: `taskId` is the fresh uuid and `saved` what
      `save_disk` gave. */
  function TranscribeSpec(taskId: string, site: Option<string>, directory: Option<string>, saved: Result<string>): Endpoint
  {
    var init := [TaskStore.Initialize(taskId)];
    match saved
    case Err(e) => Endpoint(ServerError(Str(e)), init, None)
    case Ok(path) => Endpoint(Accepted(taskId, Started), init, Some(Scheduled(taskId, ParseForm(site, directory), path)))
  }

  /** The body of `GET /transcribe/{task_id}`. */
  datatype StatusReport = StatusReport(taskId: string, status: TaskStore.TaskStatus,
                                       transcribed: Option<string>, summarized: Option<string>)

  /** `get_transcription_status`: 404 for an id the store does not know. */
  function GetTranscriptionStatus(t: TaskStore.Tasks, taskId: string): (r: Result<StatusReport>)
    ensures taskId !in t.status ==> r == Err(UnknownTask)
    ensures r.Ok? ==>
      && r.value.taskId == taskId
      && taskId in t.status && r.value.status == t.status[taskId]
      && taskId in t.transcribed && r.value.transcribed == t.transcribed[taskId]
      && taskId in t.summarized && r.value.summarized == t.summarized[taskId]
  {
    if taskId !in t.status then Err(UnknownTask)
    else if taskId !in t.transcribed || taskId !in t.summarized then Err(AudioProcessingUseCase.KeyError(taskId))
    else Ok(StatusReport(taskId, t.status[taskId], t.transcribed[taskId], t.summarized[taskId]))
  }

  /** `AudioProcessor`: the pipeline over the shared task store. */
  class AudioProcessor {
    const taskManager: TaskStore.TaskManagingService

    constructor (taskManager: TaskStore.TaskManagingService)
      ensures this.taskManager == taskManager
    {
      this.taskManager := taskManager;
    }

    /** `_handle_sharepoint_upload`. */
    method HandleSharepointUpload(env: MainEnv, siteData: Option<SiteData>, transcribed: string, summarized: string)
      returns (w: AudioProcessingUseCase.Word)
      ensures w == HandleSharepointUploadSpec(env, siteData, transcribed, summarized)
    {
      if !Deliver(siteData) {
        return AudioProcessingUseCase.Word(Ok(()), []);
      }
      var path := env.createWord(transcribed, summarized);
      if path.Err? {
        return AudioProcessingUseCase.Word(Err(path.error), []);
      }
      var steps := [AudioProcessingUseCase.Created(path.value)];
      var failure := env.uploadFile(siteData.value["site"], siteData.value["directory"], path.value);
      steps := steps + [AudioProcessingUseCase.Uploaded(path.value, failure)];
      steps := steps + [AudioProcessingUseCase.CleanedUp(path.value)];
      w := AudioProcessingUseCase.Word(if failure.Some? then Err(failure.value) else Ok(()), steps);
    }

    /** `process_audio`: the store ends as the calls of `ProcessAudioSpec`
        leave it, and the blob store holds what it says. */
    method ProcessAudio(env: MainEnv, store: AudioProcessing.BlobStore, taskId: string, siteData: Option<SiteData>, filePath: string)
      returns (word: seq<WordStep>, failure: Option<Error>)
      requires taskManager.Valid()
      modifies taskManager, store
      ensures taskManager.Valid()
      ensures word == ProcessAudioSpec(env, old(store.names), taskId, siteData, filePath).word
      ensures failure == ProcessAudioSpec(env, old(store.names), taskId, siteData, filePath).failure
      ensures taskManager.Model() == TaskStore.ApplyAll(old(taskManager.Model()), ProcessAudioSpec(env, old(store.names), taskId, siteData, filePath).calls)
      ensures store.names == ProcessAudioSpec(env, old(store.names), taskId, siteData, filePath).blobs
    {
      ghost var t0 := taskManager.Model();
      ghost var spec := ProcessAudioSpec(env, store.names, taskId, siteData, filePath);
      word := [];
      var wav := env.mp4(filePath);
      var e: Error;
      if wav.Err? {
        e := wav.error;
      } else if wav.value.None? {
        e := Mp4Failed;
      } else {
        var file := wav.value.value;
        var url := store.UploadBlob(env.upload, file.fileName, file.fileData);
        if url.Err? {
          e := url.error;
        } else {
          var text := HandleTranscription(env, url.value);
          if text.Err? {
            e := text.error;
          } else {
            var summary, _ := SummaryText.SummarizeText(env.chat, env.tok, text.value, SummaryText.DefaultMaxTokensPerChunk);
            assert spec == Transcribed(env, store.names, taskId, siteData, file.fileName, text.value, summary);
            if summary.Err? {
              e := summary.error;
            } else {
              var w := HandleSharepointUpload(env, siteData, text.value, summary.value);
              word := w.steps;
              if w.result.Err? {
                e := w.result.error;
              } else {
                taskManager.CompleteTask(taskId, text.value, summary.value);
                var deleteFailure := store.DeleteBlob(env.deleteError, file.fileName);
                if deleteFailure.Some? {
                  taskManager.FailTask(taskId, Str(deleteFailure.value));
                  AudioProcessingUseCase.Stored2(t0, TaskStore.Complete(taskId, text.value, summary.value),
                                                 TaskStore.Fail(taskId, Str(deleteFailure.value)));
                  return word, deleteFailure;
                }
                assert TaskStore.ApplyAll(t0, [TaskStore.Complete(taskId, text.value, summary.value)])
                       == TaskStore.ApplyAll(taskManager.Model(), []);
                return word, None;
              }
            }
          }
        }
      }
      taskManager.FailTask(taskId, Str(e));
      assert TaskStore.ApplyAll(t0, [TaskStore.Fail(taskId, Str(e))]) == TaskStore.ApplyAll(taskManager.Model(), []);
      failure := Some(e);
    }

    /** `POST /transcribe`: the task is opened before the upload is saved. */
    method Transcribe(taskId: string, site: Option<string>, directory: Option<string>, saved: Result<string>)
      returns (response: Response, scheduled: Option<Scheduled>)
      requires taskManager.Valid()
      modifies taskManager
      ensures taskManager.Valid()
      ensures response == TranscribeSpec(taskId, site, directory, saved).response
      ensures scheduled == TranscribeSpec(taskId, site, directory, saved).scheduled
      ensures taskManager.Model() == TaskStore.ApplyAll(old(taskManager.Model()), TranscribeSpec(taskId, site, directory, saved).calls)
    {
      taskManager.InitializeTask(taskId);
      assert TaskStore.ApplyAll(old(taskManager.Model()), [TaskStore.Initialize(taskId)]) == TaskStore.ApplyAll(taskManager.Model(), []);
      var siteData := ParseForm(site, directory);
      if saved.Err? {
        return ServerError(Str(saved.error)), None;
      }
      return Accepted(taskId, Started), Some(Scheduled(taskId, siteData, saved.value));
    }
  }

  /** The form always yields both keys, so every scheduled run passes the
      delivery gate: a document is attempted whenever the pipeline gets that
      far, even with no site chosen. The gate is the one the use case applies. */
  lemma ScheduledRunsAlwaysDeliver(taskId: string, site: Option<string>, directory: Option<string>, saved: Result<string>)
    ensures var ep := TranscribeSpec(taskId, site, directory, saved);
      && (ep.scheduled.Some? <==> saved.Ok?)
      && (ep.scheduled.Some? ==> Deliver(Some(ep.scheduled.value.siteData)))
      && (ep.scheduled.Some? ==> ep.scheduled.value.siteData["site"] == JStr(OrEmpty(site)))
  {
    var sd := ParseForm(site, directory);
    assert "site" in sd;
  }

  lemma DeliverIsUseCaseGate(siteData: Option<SiteData>)
    ensures Deliver(siteData) <==> AudioProcessingUseCase.ShouldUpload(siteData)
  {
    if AudioProcessingUseCase.ShouldUpload(siteData) {
      assert "site" in siteData.value;
    }
  }

  /** If saving the upload fails, the answer is 500 with the exception's str,
      nothing is scheduled, and the task, already opened, stays PROCESSING. */
  lemma SaveFailureLeavesTaskProcessing(t: TaskStore.Tasks, taskId: string, site: Option<string>,
                                        directory: Option<string>, e: Error)
    ensures var ep := TranscribeSpec(taskId, site, directory, Err(e));
      && ep.response == ServerError(Str(e)) && ep.scheduled.None?
      && TaskStore.Lookup(TaskStore.ApplyAll(t, ep.calls).status, taskId) == Some(TaskStore.Processing)
  {
    AudioProcessingUseCase.FinalStatus(t, [TaskStore.Initialize(taskId)], taskId);
  }

  /** `process_audio` never raises: it records exactly one outcome per run.
      Every call names the task; a failure is recorded once, as the last call,
      with its str; the task ends FAILED exactly when there was a failure and
      COMPLETED otherwise. */
  lemma ProcessAudioRecordsOutcome(env: MainEnv, t: TaskStore.Tasks, blobs: set<string>,
                                   taskId: string, siteData: Option<SiteData>, filePath: string)
    ensures RecordsOutcome(ProcessAudioSpec(env, blobs, taskId, siteData, filePath), taskId)
    ensures var run := ProcessAudioSpec(env, blobs, taskId, siteData, filePath);
      var after := TaskStore.ApplyAll(t, run.calls);
      && taskId in after.status
      && after.status[taskId] == (if run.failure.Some? then TaskStore.Failed else TaskStore.Completed)
  {
    var run := ProcessAudioSpec(env, blobs, taskId, siteData, filePath);
    var wav := env.mp4(filePath);
    if wav.Ok? && wav.value.Some? {
      var f := wav.value.value;
      var url := env.upload(f.fileName, f.fileData);
      if url.Ok? {
        var text := HandleTranscription(env, url.value);
        if text.Ok? {
          var summary := SummaryText.SummarizeTextSpec(env.chat, env.tok, text.value, SummaryText.DefaultMaxTokensPerChunk);
          assert run == Transcribed(env, blobs + {f.fileName}, taskId, siteData, f.fileName, text.value, summary);
          TranscribedRecordsOutcome(env, blobs + {f.fileName}, taskId, siteData, f.fileName, text.value, summary);
        }
      }
    }
    assert RecordsOutcome(run, taskId);
    AudioProcessingUseCase.FinalStatus(t, run.calls, taskId);
  }

  /** The part of `ProcessAudioRecordsOutcome` after the transcription. */
  lemma TranscribedRecordsOutcome(env: MainEnv, stored: set<string>, taskId: string, siteData: Option<SiteData>,
                                  fileName: string, text: string, summary: Result<string>)
    ensures RecordsOutcome(Transcribed(env, stored, taskId, siteData, fileName, text, summary), taskId)
  {
    if summary.Ok? {
      var w := HandleSharepointUploadSpec(env, siteData, text, summary.value);
      if w.result.Ok? && env.deleteError(fileName).Some? {
        var run := Transcribed(env, stored, taskId, siteData, fileName, text, summary);
        assert run.calls == [TaskStore.Complete(taskId, text, summary.value), TaskStore.Fail(taskId, Str(env.deleteError(fileName).value))];
      }
    }
  }

  /** One or two calls, all naming the task; a failure is recorded once, as
      the last call, with its str, and a two-call run completes first. */
  predicate RecordsOutcome(run: MainRun, taskId: string)
  {
    var n := |run.calls|;
    && 1 <= n <= 2
    && (forall i :: 0 <= i < n ==> run.calls[i].taskId == taskId)
    && (run.failure.Some? <==> run.calls[n - 1].Fail?)
    && (run.failure.Some? ==> run.calls[n - 1] == TaskStore.Fail(taskId, Str(run.failure.value)))
    && (run.failure.None? ==> run.calls[n - 1].Complete?)
    && (n == 2 ==> run.calls[0].Complete?)
  }

  /** `complete_task` comes after the document delivery and records the
      transcription and its summary; a delivery failure (creation or upload)
      therefore fails the task without ever completing it. */
  lemma DeliveryFailureFailsTask(env: MainEnv, blobs: set<string>, taskId: string, siteData: Option<SiteData>,
                                 filePath: string, file: Mp4Processing.AudioFile, url: string, text: string, summary: string)
    requires env.mp4(filePath) == Ok(Some(file))
    requires env.upload(file.fileName, file.fileData) == Ok(url)
    requires env.transcribe(url) == Ok(text) && text != ""
    requires SummaryText.SummarizeTextSpec(env.chat, env.tok, text, SummaryText.DefaultMaxTokensPerChunk) == Ok(summary)
    ensures var run := ProcessAudioSpec(env, blobs, taskId, siteData, filePath);
      var w := HandleSharepointUploadSpec(env, siteData, text, summary);
      && (w.result.Err? ==> run == Failed(taskId, w.result.error, blobs + {file.fileName}, w.steps))
      && (w.result.Ok? ==> run.calls[0] == TaskStore.Complete(taskId, text, summary))
  {
    assert ProcessAudioSpec(env, blobs, taskId, siteData, filePath)
           == Transcribed(env, blobs + {file.fileName}, taskId, siteData, file.fileName, text, Ok(summary));
  }

  /** A `delete_blob` failure comes after `complete_task`: the COMPLETED task
      is overwritten with FAILED and the blob stays. */
  lemma DeleteFailureOverwritesCompleted(env: MainEnv, t: TaskStore.Tasks, blobs: set<string>, taskId: string,
                                         siteData: Option<SiteData>, filePath: string, file: Mp4Processing.AudioFile,
                                         url: string, text: string, summary: string, e: Error)
    requires env.mp4(filePath) == Ok(Some(file))
    requires env.upload(file.fileName, file.fileData) == Ok(url)
    requires env.transcribe(url) == Ok(text) && text != ""
    requires SummaryText.SummarizeTextSpec(env.chat, env.tok, text, SummaryText.DefaultMaxTokensPerChunk) == Ok(summary)
    requires HandleSharepointUploadSpec(env, siteData, text, summary).result.Ok?
    requires env.deleteError(file.fileName) == Some(e)
    ensures var run := ProcessAudioSpec(env, blobs, taskId, siteData, filePath);
      && run.calls == [TaskStore.Complete(taskId, text, summary), TaskStore.Fail(taskId, Str(e))]
      && run.blobs == blobs + {file.fileName}
    ensures TaskStore.Lookup(TaskStore.ApplyAll(t, ProcessAudioSpec(env, blobs, taskId, siteData, filePath).calls).status, taskId)
            == Some(TaskStore.Failed)
  {
    var run := Transcribed(env, blobs + {file.fileName}, taskId, siteData, file.fileName, text, Ok(summary));
    assert ProcessAudioSpec(env, blobs, taskId, siteData, filePath) == run;
    AudioProcessingUseCase.FinalStatus(t, run.calls, taskId);
  }

  /** A falsy conversion result or an empty transcription is recorded as a
      ValueError failure; nothing is completed. */
  lemma FalsyStepsFail(env: MainEnv, blobs: set<string>, taskId: string, siteData: Option<SiteData>,
                       filePath: string, file: Mp4Processing.AudioFile, url: string)
    ensures env.mp4(filePath) == Ok(None) ==>
      ProcessAudioSpec(env, blobs, taskId, siteData, filePath) == MainRun([TaskStore.Fail(taskId, "MP4ファイルの処理に失敗しました")], blobs, [], Some(Mp4Failed))
    ensures env.mp4(filePath) == Ok(Some(file)) && env.upload(file.fileName, file.fileData) == Ok(url) && env.transcribe(url) == Ok("") ==>
      ProcessAudioSpec(env, blobs, taskId, siteData, filePath)
      == MainRun([TaskStore.Fail(taskId, "文字起こしに失敗しました")], blobs + {file.fileName}, [], Some(TranscriptionFailed))
  {
  }

  /** The status lookup over a store that only the three calls have written:
      a task id is known exactly when some call named it, and then its status
      and both texts come back as stored. */
  lemma StatusOfKnownTasks(calls: seq<TaskStore.StoreCall>, taskId: string)
    ensures var t := TaskStore.ApplyAll(TaskStore.NoTasks, calls);
      && (GetTranscriptionStatus(t, taskId).Ok? <==> taskId in TaskStore.Ids(calls))
      && (taskId !in TaskStore.Ids(calls) ==> GetTranscriptionStatus(t, taskId) == Err(UnknownTask))
  {
    TaskStore.ApplyAllKeepsKeysAligned(TaskStore.NoTasks, calls);
  }
}
