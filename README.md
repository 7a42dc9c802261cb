# voice_recognition — a verified model of the transcription and summarisation core

The system takes an uploaded meeting recording and does the following:

- converts it to WAV;
- stores it in a blob container;
- has a batch speech-to-text job transcribe it;
- summarises the transcript with a language model over token windows;
- can deliver a Word document of both texts to a SharePoint folder.

A background task runs the pipeline. An in-memory task store records its progress. The browser client polls that store.

This project models that core in Dafny:

- **The task store** (`TaskStore`): three dictionaries keyed by task id, updated in place. The model includes the two orchestrators that drive it:
  - the use case `execute` (`AudioProcessingUseCase`);
  - the older `AudioProcessor.process_audio` of the application module `api/app/main.py`, as that module intends to wire it (`MainApp`; the module's imports and two of its calls do not match the helpers they name, see "## Left out").
- **The text pipeline**:
  - token-window chunking (`TokenChunking`);
  - three summarisers with different failure policies (`TextSummarization`, `SummarizeTextUseCase`, `SummaryText`).
- **The speech client** (`AzSpeech`): strict status checks and the bounded polling loop with doubling back-off. `AudioTranscription` composes its four calls.
- **Audio preparation** (`Mp4Processing`): extension dispatch, the output name, the converter's exit check, and clean-up of the scratch directory.
- **The blob-store service** (`AudioProcessing`): upload, transcribe, delete.
- **The Graph document-library client** (`MsSharePoint`) and the module-level token cache of the older helper (`TokenCache`).
- **Start-up validation** of the environment (`EnvironmentConfig`).
- **The browser client**:
  - the form and the per-answer polling decision (`ClientTranscription`);
  - the site search of the upload form (`FileUploadField`).

Every collaborator is a parameter, a function from its input to success or an error:

- the blob store, the speech service's HTTP answers (status answers indexed by attempt), the language model, the tokenizer, the converter and the file system;
- the document generator, Microsoft Graph, the identity platform, the environment and the network of the browser client.

Imperative code is modelled as classes whose methods are proved equal to a specification function of the old state. The properties are proved as lemmas about those functions. This covers:

- the store;
- the blob set;
- the scratch directory;
- the token cache;
- the SharePoint client;
- the component state;
- every loop: chunking, batching, polling, cleanup and lookups.

Some properties the code has that the design does not promise:

- The store never checks a task's current status. `complete_task` and `fail_task` overwrite a finished task, and `initialize_task` reopens one (`TaskStore.FailOverwritesCompleted`, `TaskStore.InitializeReopensTerminal`).
- In `execute`, an empty stored text or a failed document creation comes after `complete_task`, so a COMPLETED task ends FAILED (`AudioProcessingUseCase.LateFailureOverwritesCompleted`).
- In `process_audio`, a failed blob deletion after `complete_task` does the same (`MainApp.DeleteFailureOverwritesCompleted`).
- `parse_form`, and the identical `parse_transcription_form` of the route the client posts to, always yield both keys, with "" as the default. So every scheduled run tries the SharePoint delivery, even when the client sent only the file (`MainApp.ScheduledRunsAlwaysDeliver`, `ClientTranscription.FormReachesServer`).
- When the audio service's transcription step fails, the uploaded blob is never deleted. The error is wrapped three times, each wrap embedding "500: " (`AudioProcessing.TranscriptionFailureLeaksBlob`).
- The speech poll's timeout message says two hours. With the defaults (240 attempts, 30 seconds doubling to 60), a job that stays pending sleeps 30 + 60 × 239 seconds, about four hours (`AzSpeech.DefaultWait`).
- The client drops the stored "エラー: …" text of a failed task and reports its own message (`ClientTranscription.ClientReadsServerStatus`).

## Model

| member | source | states |
|---|---|---|
| TaskStore.TaskManagingService.constructor | api/app/services/task_managing_service.py:8-11 | the three dictionaries start empty (and so share their keys) |
| TaskStore.TaskManagingService.InitializeTask | api/app/services/task_managing_service.py:13-17 | the id becomes PROCESSING with both texts None, other ids are untouched, the keys stay aligned |
| TaskStore.TaskManagingService.CompleteTask | api/app/services/task_managing_service.py:19-23 | the id becomes COMPLETED holding exactly the two given texts, other ids are untouched |
| TaskStore.TaskManagingService.FailTask | api/app/services/task_managing_service.py:25-30 | the id becomes FAILED with both texts "エラー: " + message, other ids are untouched |
| TaskStore.TaskManagingService.Perform | api/app/main.py:65-89 | main.py's TaskManager has the same three methods; one call applied in place |
| TaskStore.Apply | api/app/services/task_managing_service.py:13-30 | each call writes all three entries of its id and only them; the key sets stay equal |
| TaskStore.LastFor | api/app/services/task_managing_service.py:13-30 | the last call naming an id, absent exactly when no call names it |
| TaskStore.ApplyAllAppend | api/app/services/task_managing_service.py:13-30 | running two call sequences is running their concatenation |
| TaskStore.ApplyAllKeepsKeysAligned | api/app/services/task_managing_service.py:8-30 | from aligned (e.g. empty) dictionaries every call sequence keeps the three key sets equal, and the keys are the ids named |
| TaskStore.LastWriteWins | api/app/services/task_managing_service.py:13-30 | an id's entries are what its last call wrote; an id no call names is unchanged |
| TaskStore.FailOverwritesCompleted | api/app/services/task_managing_service.py:19-30 | complete then fail leaves the task FAILED with the error texts: no status check |
| TaskStore.InitializeReopensTerminal | api/app/services/task_managing_service.py:13-30 | initialising a finished id puts it back to PROCESSING with no texts |
| TokenChunking.SplitToken | api/app/utils/token_chunking.py:4-21 | the loop's chunks equal the decoded windows of the specification (empty text: no chunks, no encoding) |
| TokenChunking.DecodeAll | api/app/utils/token_chunking.py:17-19 | one decoded chunk per window, in window order |
| TokenChunking.WindowsConcat | api/app/utils/token_chunking.py:12-17 | the windows are consecutive and concatenate back to the token sequence |
| TokenChunking.WindowsSizes | api/app/utils/token_chunking.py:16-17 | every window has 1 to max tokens, all but the last exactly max |
| TokenChunking.WindowAt | api/app/utils/token_chunking.py:15-21 | window k is tokens[k*max : k*max+max]: chunk order is token order |
| TokenChunking.WindowsCount | api/app/utils/token_chunking.py:16-17 | there are ceil(len(tokens) / max) windows |
| TokenChunking.SplitTokenChunks | api/app/utils/token_chunking.py:8-21 | empty text gives [] without encoding; otherwise the chunks are the decoded windows |
| TextSummarization.Results | api/app/services/text_summarization_service.py:38-43 | one request per chunk, results in chunk order (order-preserving gather) |
| TextSummarization.KeepOkEmptyIffAllFailed | api/app/services/text_summarization_service.py:43-44 | nothing is kept exactly when every request failed |
| TextSummarization.KeepOkAllSucceeded | api/app/services/text_summarization_service.py:43-44 | with no failure every summary is kept, one per chunk, in order |
| TextSummarization.KeepOkInOrder | api/app/services/text_summarization_service.py:43-44 | the kept summaries are exactly the payloads of the successful requests, one each, in request order |
| TextSummarization.ResultsAppend | api/app/services/text_summarization_service.py:39-44 | the requests of consecutive batches are the requests of the whole list |
| TextSummarization.KeepOkAppend | api/app/services/text_summarization_service.py:43-44 | dropping failures batch by batch equals dropping them over the whole list |
| TextSummarization.SummarizeChunksInBatches | api/app/services/text_summarization_service.py:36-45 | every chunk submitted exactly once in order, the kept summaries are the successful results in order; batch size 0 raises, negative sends nothing |
| TextSummarization.SplitTextChunks | api/app/services/text_summarization_service.py:29-34 | ValueError "入力テキストが空です" exactly when split_token gives no chunk, otherwise its chunks |
| TextSummarization.SummarizeText | api/app/services/text_summarization_service.py:21-27 | split, batch, reduce: the result and the texts sent equal the specification |
| TextSummarization.SummarizeTextRequests | api/app/services/text_summarization_service.py:21-51 | N chunk requests then one final request on the "\n"-joined kept summaries (N+1 calls); a final failure propagates |
| TextSummarization.SummarizeTextEmpty | api/app/services/text_summarization_service.py:29-34 | no chunks: ValueError and no request at all |
| SummarizeTextUseCase.Wrap | api/app/usecase/summarize_text_usecase.py:28-32 | every error leaves as 500 "テキスト要約中にエラーが発生しました: " + str(e) |
| SummarizeTextUseCase.Execute | api/app/usecase/summarize_text_usecase.py:14-54 | the use case with its batch loop equals its specification (7500 tokens, batches of 5) |
| SummarizeTextUseCase.ExecuteErrorsAreWrapped | api/app/usecase/summarize_text_usecase.py:17-32 | every failure is a 500 with the prefix; empty chunking carries "入力テキストが空です" |
| SummarizeTextUseCase.ExecuteAllFailPolicy | api/app/usecase/summarize_text_usecase.py:22-24 | when every chunk request fails it raises "要約の生成に失敗しました" with no final request; otherwise one final request on the joined kept summaries |
| SummaryText.SplitChunksAreWindows | api/app/summary_text.py:27-35 | the comprehension decodes the same windows as split_token's loop |
| SummaryText.FetchSummary | api/app/summary_text.py:37-81 | the stripped completion, or 500 "エラー: " + str(e) |
| SummaryText.CollectOk | api/app/summary_text.py:88-90 | a gather without return_exceptions succeeds iff every request does, then holds every result in order |
| SummaryText.CollectErr | api/app/summary_text.py:88-90 | a failed gather raises its first failed request's exception |
| SummaryText.CollectAppend | api/app/summary_text.py:88-90 | results of consecutive batches concatenate; a failing batch decides the error |
| SummaryText.RunInBatches | api/app/summary_text.py:83-91 | one result per task in task order, batch by batch; it stops after the batch holding the first failure |
| SummaryText.BatchStep | api/app/summary_text.py:88-90 | one more batch extends the results or ends with the whole list's error |
| SummaryText.LastBatchFails | api/app/summary_text.py:88-90 | when the loop stops on an error, every earlier batch succeeded |
| SummaryText.Wrap | api/app/summary_text.py:105-108 | every error leaves as 500 "Failed to summarize text: " + str(e) |
| SummaryText.SummarizeText | api/app/summary_text.py:93-108 | equals its specification (3000 tokens, batches of 15); only chunks were sent |
| SummaryText.SummarizeTextAllOrNothing | api/app/summary_text.py:99-104 | succeeds iff every chunk's completion does, and then is the stripped summaries joined by "\n", no reduction |
| SummaryText.SummarizeTextFirstFailure | api/app/summary_text.py:80-108 | the first failing chunk's error, wrapped twice |
| SummaryText.WrapFetchError | api/app/summary_text.py:80-108 | the double wrap embeds "500: " |
| SummaryText.SummarizeTextEmpty | api/app/summary_text.py:99-104 | a text with no tokens makes no request and gives "" |
| AzSpeech.MakeRequest | api/app/infrastructure/az_speech.py:91-101 | success iff the status is 201 for POST / 200 for GET; otherwise that status with "ジョブの作成に失敗しました: " / "リクエストに失敗しました: " + body |
| AzSpeech.TranscriptionConfig | api/app/infrastructure/az_speech.py:36-49 | contentUrls is [blob_url], locale ja-JP, diarization enabled |
| AzSpeech.CreateTranscriptionJob | api/app/infrastructure/az_speech.py:29-34 | the response's "self" on a 201; the POST error otherwise |
| AzSpeech.FilesUrl | api/app/infrastructure/az_speech.py:62-64 | links.files of the status body |
| AzSpeech.Decision | api/app/infrastructure/az_speech.py:60-66 | one status answer ends the poll exactly when it is not pending (a 200 whose "status" is not Succeeded, Failed or Cancelled) |
| AzSpeech.CheckStatus | api/app/infrastructure/az_speech.py:60-66 | the branches of one attempt stop the poll exactly on a non-pending answer, with the answer's decision |
| AzSpeech.PollTranscriptionStatus | api/app/infrastructure/az_speech.py:51-71 | the loop's result, GET count and sleeps equal the polling specification |
| AzSpeech.PollBounds | api/app/infrastructure/az_speech.py:58-71 | at most max_attempts GETs; the sleeps are the back-off sequence; a timeout follows exactly max_attempts sleeps |
| AzSpeech.BackoffShift | api/app/infrastructure/az_speech.py:68-69 | the back-off from the next interval is the same sequence shifted |
| AzSpeech.BackoffCapped | api/app/infrastructure/az_speech.py:68-69 | every later sleep is at most 60, and is twice the previous or 60 |
| AzSpeech.PollStopsAtFirstDecisive | api/app/infrastructure/az_speech.py:59-66 | the first non-pending answer decides: a bad status raises it, "Succeeded" returns links.files, "Failed"/"Cancelled" raise 500 "ジョブ失敗: …", after exactly j+1 GETs |
| AzSpeech.PollSkipsPending | api/app/infrastructure/az_speech.py:59-69 | pending answers only add sleeps |
| AzSpeech.PollTimesOut | api/app/infrastructure/az_speech.py:59-71 | all pending: the timeout error after exactly max_attempts GETs |
| AzSpeech.DefaultWait | api/app/infrastructure/az_speech.py:54-71 | with the defaults an always-pending job sleeps 30 + 60·(n−1) seconds before the timeout |
| AzSpeech.SumDefaultBackoff | api/app/infrastructure/az_speech.py:55-69 | the default sleeps add up to 30 + 60·(n−1) |
| AzSpeech.DefaultBackoffIs60 | api/app/infrastructure/az_speech.py:55-69 | from the second sleep on the default interval is 60 |
| AzSpeech.GetTranscriptionResult | api/app/infrastructure/az_speech.py:73-76 | succeeds exactly when the answer is 200 and values[0].links.contentUrl is a string, and then returns it; a bad status raises it |
| AzSpeech.GetTranscriptionDisplay | api/app/infrastructure/az_speech.py:78-81 | succeeds exactly when the answer is 200 and combinedRecognizedPhrases[0].display is a string, and then returns it; a bad status raises it |
| AudioTranscription.TranscribeAudioChain | api/app/services/audio/audio_transcription_service.py:11-24 | create, poll, result, display in order, each output the next input; the display text unchanged |
| AudioTranscription.TranscribeAudioErrors | api/app/services/audio/audio_transcription_service.py:11-31 | success iff every step succeeds; every error is 500 "文字起こしに失敗しました: " + str(e) |
| AudioProcessing.BlobStore.UploadBlob | api/app/services/audio/audio_processing_service.py:33-36 | the blob is in the store after a successful upload, the set is unchanged otherwise |
| AudioProcessing.BlobStore.DeleteBlob | api/app/services/audio/audio_processing_service.py:72 | the blob is gone after a successful delete |
| AudioProcessing.Wrap | api/app/services/audio/audio_processing_service.py:43-48 | a 500 whose detail starts with the step's prefix and ends with str(e) |
| AudioProcessing.AudioProcessingService.ProcessAudioFile | api/app/services/audio/audio_processing_service.py:26-48 | equals its specification; on success the store gains the uploaded name |
| AudioProcessing.AudioProcessingService.TranscribeAudio | api/app/services/audio/audio_processing_service.py:50-60 | equals its specification |
| AudioProcessing.AudioProcessingService.ProcessAudio | api/app/services/audio/audio_processing_service.py:62-81 | result and blob set equal the specification |
| AudioProcessing.ProcessAudioSucceeds | api/app/services/audio/audio_processing_service.py:62-74 | success iff prepare, transcribe and delete succeed; the text is the transcription of the uploaded URL and the blob is deleted |
| AudioProcessing.UploadedUnderPreparedName | api/app/services/audio/audio_processing_service.py:30-41 | the upload is under the prepared file name, and that name is returned with the URL |
| AudioProcessing.TranscriptionFailureLeaksBlob | api/app/services/audio/audio_processing_service.py:66-81 | a failed transcription never reaches delete_blob (the blob stays) and its error is wrapped three times |
| AudioProcessing.TripleWrap | api/app/services/audio/audio_processing_service.py:55-81 | the three wraps of a speech error, written out |
| AudioProcessing.ProcessAudioFailures | api/app/services/audio/audio_processing_service.py:43-81 | every failure is a 500 with the process prefix; the blob stays exactly when the upload happened |
| Mp4Processing.Basename | api/app/services/audio/mp4_processing_service.py:20 | the suffix after the last "/" |
| Mp4Processing.SplitExt | api/app/services/audio/mp4_processing_service.py:21 | stem + extension is the path; the extension is a dot with no further dot or "/" |
| Mp4Processing.Lower | api/app/services/audio/mp4_processing_service.py:21 | ASCII letters lowered, length kept |
| Mp4Processing.ConvertWav | api/app/services/audio/mp4_processing_service.py:49-68 | success iff exit code 0; otherwise 500 "FFmpeg失敗: " + stderr |
| Mp4Processing.ProcessAudioFileSpec | api/app/services/audio/mp4_processing_service.py:31-47 | success iff copy, convert and read succeed, giving the stem + ".wav" file; any failure is 500 "処理失敗: …" |
| Mp4Processing.ProcessMp4Dispatch | api/app/services/audio/mp4_processing_service.py:19-29 | an unsupported extension raises 400 before any conversion; .wav returns the basename and bytes unchanged; .mp4 converts to stem + ".wav" |
| Mp4Processing.ExtensionIgnoresCase | api/app/services/audio/mp4_processing_service.py:21 | ".MP4" and ".Wav" are accepted |
| Mp4Processing.DotNameHasNoExtension | api/app/services/audio/mp4_processing_service.py:20-24 | a base name like ".mp4" has no extension, so it is refused |
| Mp4Processing.ScratchDir.Add | api/app/services/audio/mp4_processing_service.py:37-41 | a file written into the directory is listed |
| Mp4Processing.ScratchDir.Cleanup | api/app/services/audio/mp4_processing_service.py:75-86 | one warning per failed removal (plus one if the directory stays); nothing is raised |
| Mp4Processing.ScratchDir.ProcessAudioFile | api/app/services/audio/mp4_processing_service.py:31-47 | equals the specification, and the directory is cleaned up on success and on failure |
| Mp4Processing.ProcessMp4 | api/app/services/audio/mp4_processing_service.py:19-29 | equals the dispatch specification |
| AudioProcessingUseCase.AudioProcessingUseCase.GenerateAndUploadWord | api/app/usecases/audio_processing_usecase.py:78-101 | reads both texts back, creates, uploads and cleans up as specified |
| AudioProcessingUseCase.AudioProcessingUseCase.Execute | api/app/usecases/audio_processing_usecase.py:44-70 | result, document steps, store and blobs equal the use-case specification |
| AudioProcessingUseCase.ReadBackAfterComplete | api/app/usecases/audio_processing_usecase.py:58-83 | the texts read back for the document are the ones just completed |
| AudioProcessingUseCase.ExecuteCompletesWithServiceOutputs | api/app/usecases/audio_processing_usecase.py:49-64 | initialise first; complete with exactly the services' transcription and summary, before any document work; documents only after completion and when the gate holds |
| AudioProcessingUseCase.ExecuteFailsOnceAndReraises | api/app/usecases/audio_processing_usecase.py:66-70 | an error gives exactly one fail_task(str(e)), as the last call, and is re-raised; the task ends FAILED iff the run raised |
| AudioProcessingUseCase.CompletedFailsOnce | api/app/usecases/audio_processing_usecase.py:63-70 | the same after completion |
| AudioProcessingUseCase.FinalStatus | api/app/services/task_managing_service.py:13-30 | the final status is what the last call wrote |
| AudioProcessingUseCase.UploadFailureKeepsCompleted | api/app/usecases/audio_processing_usecase.py:92-101 | an upload exception is swallowed: the document is still cleaned up and the task stays COMPLETED |
| AudioProcessingUseCase.CreatedWordIsCleanedUp | api/app/usecases/audio_processing_usecase.py:88-101 | a created document is uploaded then cleaned up whatever the upload did |
| AudioProcessingUseCase.LateFailureOverwritesCompleted | api/app/usecases/audio_processing_usecase.py:66-90 | empty stored text or a create error after complete_task ends the task FAILED |
| MainApp.HandleTranscription | api/app/main.py:141-150 | the transcription when non-empty; "" raises ValueError "文字起こしに失敗しました"; errors pass through |
| MainApp.OrEmpty | api/app/main.py:235-240 | a missing field becomes "" |
| MainApp.GetTranscriptionStatus | api/app/main.py:277-291 | unknown id: 404 "タスクIDが存在しません"; otherwise the id, its status and both stored texts |
| MainApp.AudioProcessor.HandleSharepointUpload | api/app/main.py:152-169 | equals the delivery specification (gate, create, upload, clean-up in finally) |
| MainApp.AudioProcessor.ProcessAudio | api/app/main.py:96-139 | store, blob set, document steps and the swallowed failure equal the pipeline specification |
| MainApp.AudioProcessor.Transcribe | api/app/main.py:242-275 | initialise the task, then 500 with str(e) if saving fails, else 202 and the scheduled run |
| MainApp.ScheduledRunsAlwaysDeliver | api/app/main.py:235-275 | a run is scheduled iff saving succeeded, and its site data always passes the delivery gate |
| MainApp.DeliverIsUseCaseGate | api/app/main.py:160-161 | the application's gate coincides with the use case's should-upload test |
| MainApp.SaveFailureLeavesTaskProcessing | api/app/main.py:253-275 | a failed save answers 500 and leaves the task PROCESSING forever |
| MainApp.ProcessAudioRecordsOutcome | api/app/main.py:107-175 | a run writes either one complete or ends with exactly one fail_task(str(e)), never re-raised; final status matches |
| MainApp.DeliveryFailureFailsTask | api/app/main.py:127-135 | delivery precedes complete_task, so its failure fails the task and the blob stays |
| MainApp.DeleteFailureOverwritesCompleted | api/app/main.py:135-139 | a delete_blob failure after complete_task overwrites COMPLETED with FAILED |
| MainApp.FalsyStepsFail | api/app/main.py:109-150 | a falsy conversion result or empty transcription records the ValueError as the task failure |
| MainApp.StatusOfKnownTasks | api/app/main.py:277-291 | over any history of store calls an id is found iff some call named it, else 404 |
| MsSharePoint.KeyIn | api/app/infrastructure/ms_sharepoint.py:80 | Python's `in` on a dict item |
| MsSharePoint.FoldersOnly | api/app/infrastructure/ms_sharepoint.py:80 | the entries with a "folder" key, in their original order |
| MsSharePoint.FileName | api/app/infrastructure/ms_sharepoint.py:118 | the path's last component |
| MsSharePoint.FoldersPayload | api/app/infrastructure/ms_sharepoint.py:73-81 | no response gives None; a payload without "value" unchanged; otherwise "value" filtered to folders |
| MsSharePoint.GetFoldersSpec | api/app/infrastructure/ms_sharepoint.py:68-81 | no token raises before the request; a request error propagates |
| MsSharePoint.MsSharePointClient.ValidateToken | api/app/infrastructure/ms_sharepoint.py:32-35 | raises exactly when there is no access token |
| MsSharePoint.MsSharePointClient.GraphGet | api/app/infrastructure/ms_sharepoint.py:37-44 | validates the token, then the GET's answer |
| MsSharePoint.MsSharePointClient.GetSites | api/app/infrastructure/ms_sharepoint.py:55-58 | the sites listing; no response and no token raise |
| MsSharePoint.MsSharePointClient.FindByName | api/app/infrastructure/ms_sharepoint.py:60-103 | the first entry with that exact name, or none when no entry matches |
| MsSharePoint.MsSharePointClient.Listing | api/app/infrastructure/ms_sharepoint.py:62-64 | the "value" list of a payload |
| MsSharePoint.MsSharePointClient.GetSiteId | api/app/infrastructure/ms_sharepoint.py:60-66 | the id of the first site named exactly so (every earlier site has another name), None when no site has it; it raises only without a token or response, without a "value" list, on a nameless site before the match, or when the match has no id |
| MsSharePoint.MsSharePointClient.GetFolders | api/app/infrastructure/ms_sharepoint.py:68-81 | equals the folders specification |
| MsSharePoint.MsSharePointClient.GetFolder | api/app/infrastructure/ms_sharepoint.py:94-103 | the record of the first listed folder named so, None when none is or the listing is None; it raises only when get_folders does, without a "value" list, or on a nameless folder before the match |
| MsSharePoint.MsSharePointClient.GetFolderId | api/app/infrastructure/ms_sharepoint.py:83-92 | the id of the first listed folder named so, else None; it raises only where get_folder does or when the match has no id |
| MsSharePoint.MsSharePointClient.GetFolderIdFromTree | api/app/infrastructure/ms_sharepoint.py:105-107 | the same first-match, None and error cases as get_folder_id |
| MsSharePoint.MsSharePointClient.GetSubfolders | api/app/infrastructure/ms_sharepoint.py:109-111 | the same as get_folders |
| MsSharePoint.MsSharePointClient.UploadFile | api/app/infrastructure/ms_sharepoint.py:113-121 | an empty folder id raises ValueError before any I/O; the URL ends in /items/{folder}:/{name}:/content |
| MsSharePoint.FilteredAreFolders | api/app/infrastructure/ms_sharepoint.py:80 | every listed item is a folder |
| MsSharePoint.FoldersOnlyIdempotent | api/app/infrastructure/ms_sharepoint.py:80 | filtering again changes nothing |
| TokenCache.ExpiresIn | api/app/sharepoint.py:41-45 | expires_in, 3600 when absent, a boolean as 0 or 1; any other non-number raises the TypeError naming its type |
| TokenCache.TokenStore.GetAccessToken | api/app/sharepoint.py:21-55 | result, new cache and whether it requested equal the cache specification |
| TokenCache.FreshTokenIsServed | api/app/sharepoint.py:22-25 | a cached unexpired token is returned with no request and no change |
| TokenCache.FailureKeepsCache | api/app/sharepoint.py:49-55 | a failure keeps the cache; non-200 raises that status; transport errors raise 500 "HTTP Request failed: …" |
| TokenCache.RefreshReplacesCache | api/app/sharepoint.py:38-48 | a 200 replaces the cache with the token and now + expires_in − 300 |
| TokenCache.RefreshThenServe | api/app/sharepoint.py:21-48 | after a refresh later calls before the expiry are served from the cache |
| EnvironmentConfig.Config.constructor | api/app/config/environment_config.py:16-19 | every required name holds what getenv gave; the container name is "container-vr-dev" |
| EnvironmentConfig.Config.ValidateLoaded | api/app/config/environment_config.py:21-24 | the loop over the loaded values equals validation |
| EnvironmentConfig.Missing | api/app/config/environment_config.py:22 | exactly the required names with a falsy value, in declared order |
| EnvironmentConfig.Validate | api/app/config/environment_config.py:21-24 | ValueError iff some name is missing, listing them ", "-separated |
| EnvironmentConfig.ValidateIffAllSet | api/app/config/environment_config.py:21-24 | start-up succeeds iff every variable is non-empty; all unset names all eight in order |
| ClientTranscription.MessageOr | client/src/api/transcription.ts:35-37 | an Error's message, else the fallback |
| ClientTranscription.DirectoryId | client/src/api/transcription.ts:24 | the sub-directory's id, else the directory's, else "" |
| ClientTranscription.FieldOf | client/src/api/transcription.ts:18-26 | the value of a named form field, absent when there is none |
| ClientTranscription.Form | client/src/api/transcription.ts:18-26 | nothing chosen: only the file; site without directory: the error; "site" iff a site is chosen; the directory field; file last, once |
| ClientTranscription.OnTick | client/src/api/transcription.ts:52-67 | completed with both texts resolves with them, with one missing rejects; failed rejects; errors reject with their message; anything else keeps polling |
| ClientTranscription.SettledByFirstDecision | client/src/api/transcription.ts:46-68 | pending iff every answer says keep polling, else decided by the first settling answer |
| ClientTranscription.Poll | client/src/api/transcription.ts:41-70 | stops at the first settling answer, all earlier ticks were pending |
| ClientTranscription.SendAudio | client/src/api/transcription.ts:11-39 | form error and post error reject with the same message; otherwise the poll's outcome |
| ClientTranscription.Served | api/app/main.py:277-291 | a status report becomes the JSON the client reads |
| ClientTranscription.ClientReadsServerStatus | client/src/api/transcription.ts:53-63 | processing keeps polling, failed rejects without the stored error text, completed resolves (or rejects on empty text), unknown ids reject; the store is read by main.py's status rule, identical to the handler's |
| ClientTranscription.FormReachesServer | client/src/api/transcription.ts:18-26 | every form the client sends parses (by main.py's rule, identical to `parse_transcription_form`) into site data that passes both main.py's delivery gate and the use case's upload gate |
| FileUploadField.Shown | client/src/components/FileUploadField.tsx:41-43 | blank query: all sites; otherwise the sites whose name contains the raw query, in order |
| FileUploadField.UploadForm.constructor | client/src/components/FileUploadField.tsx:29-31 | every site shown, no type error |
| FileUploadField.UploadForm.OnSitesChanged | client/src/components/FileUploadField.tsx:33-35 | the shown list resets to the new sites, the search text stays |
| FileUploadField.UploadForm.HandleSearch | client/src/components/FileUploadField.tsx:37-46 | stores the raw text and shows the sites it selects, drawn from the sites in order |
| FileUploadField.UploadForm.OnFileChange | client/src/components/FileUploadField.tsx:85-91 | no file raises the flag and forwards nothing; a file clears it and is forwarded |
| FileUploadField.SearchIsIdempotent | client/src/components/FileUploadField.tsx:41-43 | searching again over the shown list changes nothing |
| FileUploadField.PaddedQueryMatchesLiterally | client/src/components/FileUploadField.tsx:42 | only the blank test trims: a leading space hides names without spaces |
| FileUploadField.MatchingEverySiteShowsAll | client/src/components/FileUploadField.tsx:41-43 | a query every name contains shows every site |

## Left out

- Token acquisition through MSAL (`_get_access_token`) and the `@cache` on `graph_api_get`: the client takes the token as given and every GET answers afresh.
- The ffmpeg subprocess, temporary directories, file copy and read, and blob SDK calls: each is a parameter that succeeds or fails.
- Word document rendering: `create_word` either gives a path or fails, and clean-up never raises.
- Concurrency and time: `asyncio.gather` is a sequential, order-preserving map, and semaphores are not modelled. Sleeps are recorded as numbers, not waited. `BackgroundTasks`, `setInterval` and `setTimeout` are left out; the client's 5-second delay and 40-second interval do not change any outcome.
- Prompts and model parameters: the prompt builders and the chat request are folded into the language-model parameter.
- `asyncio.gather` without `return_exceptions` raises the first failure in submission order; the model assumes that order rather than completion order.
- JSON: a body that is not an object or a list is an error here, as Python would raise on indexing. A body that fails to decode is folded into the speech client's answer.
- HTTP headers (speech key, Graph bearer token, cache control) are left out.
- `str.lower` is modelled on ASCII letters only; other characters pass through.
- `KeyError`'s string is modelled as the quoted key.
- `pathlib.Path(...).name` is modelled as the text after the last "/", without normalisation.
- The main application's collaborators are parameters: the MP4 processor, the transcription client and the document generator.
- `TokenCache`: `now` is one parameter per call; the clock itself is not modelled.
- `EnvironmentConfig.Config.constructor`: `load_dotenv` and the validation that `__init__` runs right after loading are not part of the constructor. `ValidateLoaded` does the validation as a separate call.
- The client's `console` logging and the logging calls of the backend are left out.
- `MainApp` models what `api/app/main.py` intends, not what it can run: main.py:30-31 imports `save_disk` and `cleanup_word`, but `api/app/mp4_processor.py` defines only `save_disk_async`, `convert_wav_sync` and `mp4_processor`, and `api/app/word_generator.py` defines `create_word` and `cleanup_file`, so the module fails at import.
- `MainApp`: main.py:161 calls `create_word` with two texts, but word_generator.py:7 takes one; the model passes both texts to the document generator parameter.
- `MainApp`: main.py:109 passes a file path to `mp4_processor`, which reads `file.filename` (mp4_processor.py:48); the model's MP4 processor parameter takes the path.
- The client posts to `/transcription` and polls `/transcription/{id}` (client/src/api/transcription.ts:28,48). Those routes are served by `api/app/routers/audio_processing_router.py:7-8` and `api/app/handlers/audio_processing_handler.py`, not by main.py's `/transcribe` (main.py:242,277). The handler's `parse_transcription_form` (api/app/di/parse_form.py:5-15) and status lookup (audio_processing_handler.py:68-83) follow the same rules as main.py's `parse_form` and `get_transcription_status`, so `ClientTranscription.FormReachesServer` and `ClientTranscription.ClientReadsServerStatus` use `MainApp.ParseForm` and `MainApp.GetTranscriptionStatus` in their place. The handler's own wrapping of start-up errors is not modelled.
- `SummarizeTextUseCase`: `api/app/usecase/summarize_text_usecase.py:5` imports `split_token` from `utils.chunk_splitter`, which is not in the repository; the model assumes it is `api/app/utils/token_chunking.py`'s `split_token` (`TokenChunking.SplitTokenSpec`).
- `MsSharePoint.MsSharePointClient.Listing`: a "value" that is not a list is an error (`'value' is not a list`). Python would iterate a dict's keys or a string's characters, then fail at `["name"]` (or, in `get_folders`, keep the keys containing "folder"); only an empty dict or string would give None. JSON objects here have no key order, so that iteration is not modelled.
- `AzSpeech.GetTranscriptionResult`, `AzSpeech.GetTranscriptionDisplay`: a leaf that is not a string is an error in the model; Python would return the value as it is.
