/** The transcription use case: open the task, turn the audio into text,
    summarise it, record both texts, and — when the request named a site and a
    directory — write a Word document and put it in the document library. Any
    exception fails the task once and is raised again. The task store is only
    ever written, never consulted, so an exception after `complete_task`
    overwrites COMPLETED with FAILED. */
module AudioProcessingUseCase {
  import opened Common
  import TaskStore
  import TokenChunking
  import TextSummarization
  import AudioProcessing

  /** The summariser the use case builds. */
  const MaxTokens: int := 7500
  const BatchSize: int := 5

  const MissingText: Error := ValueError("文字起こしまたは要約テキストが存在しません")

  /** Python's KeyError on a missing dictionary key; its str is the quoted key. */
  function KeyError(key: string): Error
  {
    Failure("'" + key + "'")
  }

  /** The request's site data, a dictionary of any values. */
  type SiteData = map<string, Json>

  /** What the collaborators answer. */
  datatype UseCaseEnv = UseCaseEnv(
    audio: AudioProcessing.AudioEnv,                    // the audio-processing service's collaborators
    llm: TextSummarization.Llm,                         // one summary request
    tok: TokenChunking.Tokenizer,                       // the summariser's tokenizer
    createWord: (string, string) -> Result<string>,     // create_word_document: the file path, or the exception
    uploadFile: (Json, Json, string) -> Option<Error>)  // upload_file: the exception, if any

  /** `_should_upload_to_sharepoint`: the data is there and has both keys,
      whatever their values. */
  predicate ShouldUpload(siteData: Option<SiteData>)
  {
    siteData.Some? && "site" in siteData.value && "directory" in siteData.value
  }

  /** Python truthiness of a stored text. */
  predicate Present(t: Option<string>)
  {
    t.Some? && t.value != ""
  }

  /** The document work, in order. */
  datatype WordStep =
    | Created(path: string)                          // create_word_document returned this file
    | Uploaded(path: string, failure: Option<Error>) // upload_file was called; a failure is only logged
    | CleanedUp(path: string)                        // cleanup_word_file ran

  datatype Word = Word(result: Result<()>, steps: seq<WordStep>)

  /** `_generate_and_upload_word` once both texts are read: refuse falsy ones,
      create the document, upload it (any exception there, a missing key
      included, is logged and dropped), and always clean the file up. */
  function WordFromTexts(env: UseCaseEnv, transcribed: Option<string>, summarized: Option<string>, siteData: SiteData): Word
  {
    if !Present(transcribed) || !Present(summarized) then Word(Err(MissingText), [])
    else
      match env.createWord(transcribed.value, summarized.value)
      case Err(e) => Word(Err(e), [])
      case Ok(path) =>
        var failure :=
          if "site" !in siteData then Some(KeyError("site"))
          else if "directory" !in siteData then Some(KeyError("directory"))
          else env.uploadFile(siteData["site"], siteData["directory"], path);
        Word(Ok(()), [Created(path), Uploaded(path, failure), CleanedUp(path)])
  }

  /** `_generate_and_upload_word`: the texts are read from the store by task id. */
  function GenerateAndUploadWordSpec(env: UseCaseEnv, t: TaskStore.Tasks, taskId: string, siteData: SiteData): Word
  {
    if taskId !in t.transcribed || taskId !in t.summarized then Word(Err(KeyError(taskId)), [])
    else WordFromTexts(env, t.transcribed[taskId], t.summarized[taskId], siteData)
  }

  /** What `execute` raises (or not), the store calls it makes in order, the
      blobs left, and the document work. */
  datatype Run = Run(result: Result<()>, calls: seq<TaskStore.StoreCall>, blobs: set<string>, word: seq<WordStep>)

  function ExecuteSpec(env: UseCaseEnv, t: TaskStore.Tasks, blobs: set<string>,
                       taskId: string, siteData: Option<SiteData>, filePath: string): Run
  {
    var audio := AudioProcessing.ProcessAudioSpec(env.audio, filePath, blobs);
    match audio.result
    case Err(e) => Run(Err(e), [TaskStore.Initialize(taskId), TaskStore.Fail(taskId, Str(e))], audio.blobs, [])
    case Ok(text) =>
      Summarized(env, t, audio.blobs, taskId, siteData, text,
                 TextSummarization.SummarizeTextSpec(env.llm, env.tok, text, MaxTokens, BatchSize).result)
  }

  /** `execute` once the audio came back as `text` and the summariser answered. */
  function Summarized(env: UseCaseEnv, t: TaskStore.Tasks, blobs: set<string>, taskId: string,
                      siteData: Option<SiteData>, text: string, summary: Result<string>): Run
  {
    match summary
    case Err(e) => Run(Err(e), [TaskStore.Initialize(taskId), TaskStore.Fail(taskId, Str(e))], blobs, [])
    case Ok(s) => Completed(env, t, blobs, taskId, siteData, text, s)
  }

  /** `execute` from `complete_task` on. */
  function Completed(env: UseCaseEnv, t: TaskStore.Tasks, blobs: set<string>, taskId: string,
                     siteData: Option<SiteData>, text: string, summary: string): Run
  {
    var done := [TaskStore.Initialize(taskId), TaskStore.Complete(taskId, text, summary)];
    if !ShouldUpload(siteData) then Run(Ok(()), done, blobs, [])
    else
      var w := GenerateAndUploadWordSpec(env, TaskStore.ApplyAll(t, done), taskId, siteData.value);
      match w.result
      case Err(e) => Run(Err(e), done + [TaskStore.Fail(taskId, Str(e))], blobs, w.steps)
      case Ok(_) => Run(Ok(()), done, blobs, w.steps)
  }

  /** Right after `complete_task`, the document work reads back exactly the
      two texts just stored. */
  lemma {:induction false} ReadBackAfterComplete(env: UseCaseEnv, t: TaskStore.Tasks, taskId: string,
                                                 text: string, summary: string, siteData: SiteData)
    ensures GenerateAndUploadWordSpec(env, TaskStore.ApplyAll(t, [TaskStore.Initialize(taskId), TaskStore.Complete(taskId, text, summary)]), taskId, siteData)
            == WordFromTexts(env, Some(text), Some(summary), siteData)
  {
    var done := [TaskStore.Initialize(taskId), TaskStore.Complete(taskId, text, summary)];
    TaskStore.LastWriteWins(t, done, taskId);
  }

  class AudioProcessingUseCase {
    const env: UseCaseEnv
    const tasks: TaskStore.TaskManagingService
    const audio: AudioProcessing.AudioProcessingService

    /** The use case builds its own audio-processing service over the blob store. */
    constructor (env: UseCaseEnv, tasks: TaskStore.TaskManagingService, store: AudioProcessing.BlobStore)
      ensures this.env == env && this.tasks == tasks
      ensures audio.env == env.audio && audio.store == store
    {
      this.env := env;
      this.tasks := tasks;
      audio := new AudioProcessing.AudioProcessingService(env.audio, store);
    }

    /** `_generate_and_upload_word`, reading the texts from the store. */
    method GenerateAndUploadWord(taskId: string, siteData: SiteData) returns (w: Word)
      ensures w == GenerateAndUploadWordSpec(env, tasks.Model(), taskId, siteData)
    {
      if taskId !in tasks.transcribedText || taskId !in tasks.summarizedText {
        return Word(Err(KeyError(taskId)), []);
      }
      var transcribed := tasks.transcribedText[taskId];
      var summarized := tasks.summarizedText[taskId];
      if !Present(transcribed) || !Present(summarized) {
        return Word(Err(MissingText), []);
      }
      var path := env.createWord(transcribed.value, summarized.value);
      if path.Err? {
        return Word(Err(path.error), []);
      }
      var steps := [Created(path.value)];
      var failure: Option<Error>;
      if "site" !in siteData {
        failure := Some(KeyError("site"));
      } else if "directory" !in siteData {
        failure := Some(KeyError("directory"));
      } else {
        failure := env.uploadFile(siteData["site"], siteData["directory"], path.value);
      }
      steps := steps + [Uploaded(path.value, failure)];
      steps := steps + [CleanedUp(path.value)];
      w := Word(Ok(()), steps);
    }

    /** `execute`: the task ends in the store exactly as the calls of
        `ExecuteSpec` leave it. */
    method Execute(taskId: string, siteData: Option<SiteData>, filePath: string) returns (r: Result<()>, word: seq<WordStep>)
      requires tasks.Valid() && audio.env == env.audio
      modifies tasks, audio.store
      ensures tasks.Valid()
      ensures r == ExecuteSpec(env, old(tasks.Model()), old(audio.store.names), taskId, siteData, filePath).result
      ensures word == ExecuteSpec(env, old(tasks.Model()), old(audio.store.names), taskId, siteData, filePath).word
      ensures tasks.Model() == TaskStore.ApplyAll(old(tasks.Model()), ExecuteSpec(env, old(tasks.Model()), old(audio.store.names), taskId, siteData, filePath).calls)
      ensures audio.store.names == ExecuteSpec(env, old(tasks.Model()), old(audio.store.names), taskId, siteData, filePath).blobs
    {
      ghost var t0 := tasks.Model();
      ghost var spec := ExecuteSpec(env, t0, audio.store.names, taskId, siteData, filePath);
      word := [];
      tasks.InitializeTask(taskId);
      var text := audio.ProcessAudio(filePath);
      if text.Err? {
        tasks.FailTask(taskId, Str(text.error));
        Stored2(t0, TaskStore.Initialize(taskId), TaskStore.Fail(taskId, Str(text.error)));
        return Err(text.error), word;
      }
      var summary, _ := TextSummarization.SummarizeText(env.llm, env.tok, text.value, MaxTokens, BatchSize);
      assert spec == Summarized(env, t0, audio.store.names, taskId, siteData, text.value, summary);
      if summary.Err? {
        tasks.FailTask(taskId, Str(summary.error));
        Stored2(t0, TaskStore.Initialize(taskId), TaskStore.Fail(taskId, Str(summary.error)));
        return Err(summary.error), word;
      }
      tasks.CompleteTask(taskId, text.value, summary.value);
      ghost var done := [TaskStore.Initialize(taskId), TaskStore.Complete(taskId, text.value, summary.value)];
      Stored2(t0, done[0], done[1]);
      assert spec == Completed(env, t0, audio.store.names, taskId, siteData, text.value, summary.value);
      if ShouldUpload(siteData) {
        var w := GenerateAndUploadWord(taskId, siteData.value);
        word := w.steps;
        if w.result.Err? {
          tasks.FailTask(taskId, Str(w.result.error));
          TaskStore.ApplyAllAppend(t0, done, [TaskStore.Fail(taskId, Str(w.result.error))]);
          return Err(w.result.error), word;
        }
      }
      r := Ok(());
    }
  }

  /** Two calls in a row. */
  lemma Stored2(t: TaskStore.Tasks, a: TaskStore.StoreCall, b: TaskStore.StoreCall)
    ensures TaskStore.ApplyAll(t, [a, b]) == TaskStore.Apply(TaskStore.Apply(t, a), b)
  {
    var calls := [a, b];
    assert calls[0] == a && calls[1..] == [b];
    assert calls[1..][0] == b && calls[1..][1..] == [];
    assert TaskStore.ApplyAll(TaskStore.Apply(TaskStore.Apply(t, a), b), []) == TaskStore.Apply(TaskStore.Apply(t, a), b);
    assert TaskStore.ApplyAll(TaskStore.Apply(t, a), [b]) == TaskStore.ApplyAll(TaskStore.Apply(TaskStore.Apply(t, a), b), []);
  }

  /** `initialize_task` comes first, and `complete_task` is the second call
      exactly when both services succeed, with exactly their outputs; document
      work happens only after it. */
  lemma ExecuteCompletesWithServiceOutputs(env: UseCaseEnv, t: TaskStore.Tasks, blobs: set<string>,
                                           taskId: string, siteData: Option<SiteData>, filePath: string)
    ensures var run := ExecuteSpec(env, t, blobs, taskId, siteData, filePath);
      var audio := AudioProcessing.ProcessAudioSpec(env.audio, filePath, blobs).result;
      && 2 <= |run.calls| <= 3
      && run.calls[0] == TaskStore.Initialize(taskId)
      && (run.calls[1].Complete? <==>
            audio.Ok? && TextSummarization.SummarizeTextSpec(env.llm, env.tok, audio.value, MaxTokens, BatchSize).result.Ok?)
      && (run.calls[1].Complete? ==>
            run.calls[1] == TaskStore.Complete(taskId, audio.value,
                              TextSummarization.SummarizeTextSpec(env.llm, env.tok, audio.value, MaxTokens, BatchSize).result.value))
      && (run.word != [] ==> run.calls[1].Complete? && ShouldUpload(siteData))
  {
    var audio := AudioProcessing.ProcessAudioSpec(env.audio, filePath, blobs);
    if audio.result.Ok? {
      var summary := TextSummarization.SummarizeTextSpec(env.llm, env.tok, audio.result.value, MaxTokens, BatchSize).result;
      assert ExecuteSpec(env, t, blobs, taskId, siteData, filePath)
             == Summarized(env, t, audio.blobs, taskId, siteData, audio.result.value, summary);
    }
  }

  /** An exception fails the task exactly once, as the last call, with its
      str, and is raised unchanged; without one nothing fails the task. The
      task ends FAILED exactly when `execute` raises, COMPLETED otherwise. */
  lemma ExecuteFailsOnceAndReraises(env: UseCaseEnv, t: TaskStore.Tasks, blobs: set<string>,
                                    taskId: string, siteData: Option<SiteData>, filePath: string)
    ensures var run := ExecuteSpec(env, t, blobs, taskId, siteData, filePath);
      FailsOnceAtEnd(run, taskId)
    ensures var run := ExecuteSpec(env, t, blobs, taskId, siteData, filePath);
      var after := TaskStore.ApplyAll(t, run.calls);
      && taskId in after.status
      && after.status[taskId] == (if run.result.Err? then TaskStore.Failed else TaskStore.Completed)
  {
    var run := ExecuteSpec(env, t, blobs, taskId, siteData, filePath);
    ExecuteFailsOnce(env, t, blobs, taskId, siteData, filePath);
    FinalStatus(t, run.calls, taskId);
  }

  lemma ExecuteFailsOnce(env: UseCaseEnv, t: TaskStore.Tasks, blobs: set<string>,
                         taskId: string, siteData: Option<SiteData>, filePath: string)
    ensures FailsOnceAtEnd(ExecuteSpec(env, t, blobs, taskId, siteData, filePath), taskId)
  {
    if AudioProcessing.ProcessAudioSpec(env.audio, filePath, blobs).result.Ok? {
      TranscribedFailsOnce(env, t, blobs, taskId, siteData, filePath);
    } else {
      UntranscribedFailsOnce(env, t, blobs, taskId, siteData, filePath);
    }
  }

  lemma TranscribedFailsOnce(env: UseCaseEnv, t: TaskStore.Tasks, blobs: set<string>,
                             taskId: string, siteData: Option<SiteData>, filePath: string)
    requires AudioProcessing.ProcessAudioSpec(env.audio, filePath, blobs).result.Ok?
    ensures FailsOnceAtEnd(ExecuteSpec(env, t, blobs, taskId, siteData, filePath), taskId)
  {
    var audio := AudioProcessing.ProcessAudioSpec(env.audio, filePath, blobs);
    var summary := TextSummarization.SummarizeTextSpec(env.llm, env.tok, audio.result.value, MaxTokens, BatchSize).result;
    assert ExecuteSpec(env, t, blobs, taskId, siteData, filePath)
           == Summarized(env, t, audio.blobs, taskId, siteData, audio.result.value, summary);
    SummarizedFailsOnce(env, t, audio.blobs, taskId, siteData, audio.result.value, summary);
  }

  lemma UntranscribedFailsOnce(env: UseCaseEnv, t: TaskStore.Tasks, blobs: set<string>,
                               taskId: string, siteData: Option<SiteData>, filePath: string)
    requires AudioProcessing.ProcessAudioSpec(env.audio, filePath, blobs).result.Err?
    ensures FailsOnceAtEnd(ExecuteSpec(env, t, blobs, taskId, siteData, filePath), taskId)
  {
    var audio := AudioProcessing.ProcessAudioSpec(env.audio, filePath, blobs);
    var e := audio.result.error;
    assert ExecuteSpec(env, t, blobs, taskId, siteData, filePath)
           == Run(Err(e), [TaskStore.Initialize(taskId), TaskStore.Fail(taskId, Str(e))], audio.blobs, []);
    EarlyFailureFailsOnce(e, taskId, audio.blobs);
  }

  lemma EarlyFailureFailsOnce(e: Error, taskId: string, blobs: set<string>)
    ensures FailsOnceAtEnd(Run(Err(e), [TaskStore.Initialize(taskId), TaskStore.Fail(taskId, Str(e))], blobs, []), taskId)
  {
  }

  lemma SummarizedFailsOnce(env: UseCaseEnv, t: TaskStore.Tasks, blobs: set<string>, taskId: string,
                            siteData: Option<SiteData>, text: string, summary: Result<string>)
    ensures FailsOnceAtEnd(Summarized(env, t, blobs, taskId, siteData, text, summary), taskId)
  {
    if summary.Ok? {
      CompletedFailsOnce(env, t, blobs, taskId, siteData, text, summary.value);
    }
  }

  /** Every call names the task; a `fail_task` call is the last one, there is
      at most one, it carries the raised exception's str, and it is there
      exactly when the run raises. */
  predicate FailsOnceAtEnd(run: Run, taskId: string)
  {
    var n := |run.calls|;
    && n > 0
    && (forall i :: 0 <= i < n ==> run.calls[i].taskId == taskId)
    && (forall i :: 0 <= i < n - 1 ==> !run.calls[i].Fail?)
    && (run.result.Err? <==> run.calls[n - 1].Fail?)
    && (run.result.Err? ==> run.calls[n - 1] == TaskStore.Fail(taskId, Str(run.result.error)))
    && (run.result.Ok? ==> run.calls[n - 1].Complete?)
  }

  lemma CompletedFailsOnce(env: UseCaseEnv, t: TaskStore.Tasks, blobs: set<string>, taskId: string,
                           siteData: Option<SiteData>, text: string, summary: string)
    ensures FailsOnceAtEnd(Completed(env, t, blobs, taskId, siteData, text, summary), taskId)
  {
    if ShouldUpload(siteData) {
      ReadBackAfterComplete(env, t, taskId, text, summary, siteData.value);
    }
  }

  /** When the last call names `id`, the store ends as that call wrote it. */
  lemma FinalStatus(t: TaskStore.Tasks, calls: seq<TaskStore.StoreCall>, id: string)
    requires calls != [] && calls[|calls| - 1].taskId == id
    ensures var after := TaskStore.ApplyAll(t, calls);
      id in after.status && after.status[id] == TaskStore.Written(calls[|calls| - 1]).0
  {
    TaskStore.LastWriteWins(t, calls, id);
  }

  /** A failed upload is only logged: the file is still cleaned up, `execute`
      returns normally and the task stays COMPLETED. */
  lemma UploadFailureKeepsCompleted(env: UseCaseEnv, t: TaskStore.Tasks, blobs: set<string>,
                                    taskId: string, siteData: SiteData, filePath: string,
                                    text: string, summary: string, path: string, e: Error)
    requires AudioProcessing.ProcessAudioSpec(env.audio, filePath, blobs).result == Ok(text)
    requires TextSummarization.SummarizeTextSpec(env.llm, env.tok, text, MaxTokens, BatchSize).result == Ok(summary)
    requires ShouldUpload(Some(siteData)) && text != "" && summary != ""
    requires env.createWord(text, summary) == Ok(path)
    requires env.uploadFile(siteData["site"], siteData["directory"], path) == Some(e)
    ensures var run := ExecuteSpec(env, t, blobs, taskId, Some(siteData), filePath);
      && run.result == Ok(())
      && run.calls == [TaskStore.Initialize(taskId), TaskStore.Complete(taskId, text, summary)]
      && run.word == [Created(path), Uploaded(path, Some(e)), CleanedUp(path)]
    ensures var after := TaskStore.ApplyAll(t, ExecuteSpec(env, t, blobs, taskId, Some(siteData), filePath).calls);
      taskId in after.status && after.status[taskId] == TaskStore.Completed
  {
    var audio := AudioProcessing.ProcessAudioSpec(env.audio, filePath, blobs);
    assert ExecuteSpec(env, t, blobs, taskId, Some(siteData), filePath)
           == Completed(env, t, audio.blobs, taskId, Some(siteData), text, summary);
    ReadBackAfterComplete(env, t, taskId, text, summary, siteData);
    FinalStatus(t, [TaskStore.Initialize(taskId), TaskStore.Complete(taskId, text, summary)], taskId);
  }

  /** Whenever the document is created it is cleaned up, after the one upload
      attempt, and the document work then succeeds whatever the upload did. */
  lemma CreatedWordIsCleanedUp(env: UseCaseEnv, t: TaskStore.Tasks, taskId: string, siteData: SiteData)
    ensures var w := GenerateAndUploadWordSpec(env, t, taskId, siteData);
      w.steps != [] ==>
        && |w.steps| == 3 && w.steps[0].Created? && w.steps[1].Uploaded?
        && w.steps[1].path == w.steps[0].path && w.steps[2] == CleanedUp(w.steps[0].path)
        && w.result == Ok(())
    ensures var w := GenerateAndUploadWordSpec(env, t, taskId, siteData);
      w.steps == [] <==> w.result.Err?
  {
  }

  /** After `complete_task`, an empty summary or a document that cannot be
      created reaches the outer handler: the task, already COMPLETED, ends
      FAILED, and the exception is raised. */
  lemma LateFailureOverwritesCompleted(env: UseCaseEnv, t: TaskStore.Tasks, blobs: set<string>,
                                       taskId: string, siteData: SiteData, filePath: string,
                                       text: string, summary: string)
    requires AudioProcessing.ProcessAudioSpec(env.audio, filePath, blobs).result == Ok(text)
    requires TextSummarization.SummarizeTextSpec(env.llm, env.tok, text, MaxTokens, BatchSize).result == Ok(summary)
    requires ShouldUpload(Some(siteData))
    requires text == "" || summary == "" || env.createWord(text, summary).Err?
    ensures var run := ExecuteSpec(env, t, blobs, taskId, Some(siteData), filePath);
      && run.result.Err?
      && run.calls == [TaskStore.Initialize(taskId), TaskStore.Complete(taskId, text, summary),
                       TaskStore.Fail(taskId, Str(run.result.error))]
      && run.result.error == (if text == "" || summary == "" then MissingText else env.createWord(text, summary).error)
    ensures var after := TaskStore.ApplyAll(t, ExecuteSpec(env, t, blobs, taskId, Some(siteData), filePath).calls);
      taskId in after.status && after.status[taskId] == TaskStore.Failed
  {
    var audio := AudioProcessing.ProcessAudioSpec(env.audio, filePath, blobs);
    var run := Completed(env, t, audio.blobs, taskId, Some(siteData), text, summary);
    assert ExecuteSpec(env, t, blobs, taskId, Some(siteData), filePath) == run;
    CompletedThenFails(env, t, audio.blobs, taskId, siteData, text, summary);
    FinalStatus(t, run.calls, taskId);
  }

  /** The part of `LateFailureOverwritesCompleted` from `complete_task` on. */
  lemma CompletedThenFails(env: UseCaseEnv, t: TaskStore.Tasks, blobs: set<string>,
                           taskId: string, siteData: SiteData, text: string, summary: string)
    requires ShouldUpload(Some(siteData))
    requires text == "" || summary == "" || env.createWord(text, summary).Err?
    ensures var run := Completed(env, t, blobs, taskId, Some(siteData), text, summary);
      && run.result.Err?
      && run.calls == [TaskStore.Initialize(taskId), TaskStore.Complete(taskId, text, summary),
                       TaskStore.Fail(taskId, Str(run.result.error))]
      && run.result.error == (if text == "" || summary == "" then MissingText else env.createWord(text, summary).error)
      && run.calls[|run.calls| - 1].taskId == taskId
      && TaskStore.Written(run.calls[|run.calls| - 1]).0 == TaskStore.Failed
  {
    var done := [TaskStore.Initialize(taskId), TaskStore.Complete(taskId, text, summary)];
    ReadBackAfterComplete(env, t, taskId, text, summary, siteData);
    var w := WordFromTexts(env, Some(text), Some(summary), siteData);
    assert w.result.Err?;
    assert w.result.error == (if text == "" || summary == "" then MissingText else env.createWord(text, summary).error);
  }
}
