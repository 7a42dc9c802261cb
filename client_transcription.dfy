/** The browser client's transcription calls: build the multipart form from
    the chosen SharePoint site, directory and sub-directory, post it, then
    poll the task's status until the server reports it completed or failed.
    The network is a parameter: `post` is what the upload call brings back
    and `answers(taskId)` the successive answers of the status calls. */
module ClientTranscription {
  import opened Common
  import TaskStore
  import MainApp
  import AudioProcessingUseCase

  const SiteNeedsDirectory: string := "サイトを選択した場合、ディレクトリの選択が必要です"
  const SendFallback: string := "Failed to send audio"
  const MissingData: string := "Missing transcription or summary data"
  const ProcessFailed: string := "Transcription process failed"
  const FetchFallback: string := "Failed to fetch transcription status"

  /** A site or a folder picked in the selectors. */
  datatype Selection = Selection(id: string, name: string)

  /** One entry of the multipart form: the audio file or a text field. */
  datatype Part = FilePart | Field(name: string, value: string)

  /** What a `catch` receives: an `Error` with its message, or anything else. */
  datatype Thrown = ErrorObject(message: string) | OtherValue

  /** `error instanceof Error ? error.message : fallback`. */
  function MessageOr(t: Thrown, fallback: string): (r: string)
    ensures t.ErrorObject? ==> r == t.message
    ensures t.OtherValue? ==> r == fallback
  {
    match t
    case ErrorObject(m) => m
    case OtherValue => fallback
  }

  /** JavaScript truthiness of an optional string (null and "" are falsy). */
  predicate Truthy(s: Option<string>)
  {
    s.Some? && s.value != ""
  }

  /** `subDirectory?.id || directory?.id || ""`. */
  function DirectoryId(directory: Option<Selection>, subDirectory: Option<Selection>): (r: string)
    ensures subDirectory.Some? && subDirectory.value.id != "" ==> r == subDirectory.value.id
    ensures (subDirectory.None? || subDirectory.value.id == "") && directory.Some? ==> r == directory.value.id
    ensures subDirectory.None? && directory.None? ==> r == ""
  {
    if subDirectory.Some? && subDirectory.value.id != "" then subDirectory.value.id
    else if directory.Some? && directory.value.id != "" then directory.value.id
    else ""
  }

  /** The value of the first field called `name`, if the form has one. */
  function FieldOf(parts: seq<Part>, name: string): (r: Option<string>)
    ensures r.Some? ==> Field(name, r.value) in parts
    ensures r.None? ==> forall i :: 0 <= i < |parts| ==> !(parts[i].Field? && parts[i].name == name)
  {
    if parts == [] then None
    else if parts[0].Field? && parts[0].name == name then Some(parts[0].value)
    else FieldOf(parts[1..], name)
  }

  /** The form `handleSendAudio` builds, or the error it throws before posting:
      a site without a directory is refused; with nothing chosen only the file
      is sent; otherwise the site's id when a site is chosen, the directory
      field, and the file last. */
  function Form(site: Option<Selection>, directory: Option<Selection>, subDirectory: Option<Selection>)
    : (r: Result<seq<Part>>)
    ensures r.Err? <==> site.Some? && directory.None?
    ensures r.Err? ==> r.error == Failure(SiteNeedsDirectory)
    ensures site.None? && directory.None? && subDirectory.None? ==> r == Ok([FilePart])
    ensures r.Ok? ==> |r.value| > 0 && r.value[|r.value| - 1] == FilePart && multiset(r.value)[FilePart] == 1
    ensures r.Ok? ==> (FieldOf(r.value, "site").Some? <==> site.Some?)
    ensures r.Ok? && site.Some? ==> FieldOf(r.value, "site") == Some(site.value.id)
    ensures r.Ok? ==> (FieldOf(r.value, "directory").Some? <==> site.Some? || directory.Some? || subDirectory.Some?)
    ensures r.Ok? && FieldOf(r.value, "directory").Some? ==>
      FieldOf(r.value, "directory") == Some(DirectoryId(directory, subDirectory))
  {
    if site.None? && directory.None? && subDirectory.None? then Ok([FilePart])
    else if site.Some? && directory.None? then Err(Failure(SiteNeedsDirectory))
    else
      var siteField := if site.Some? then [Field("site", site.value.id)] else [];
      Ok(siteField + [Field("directory", DirectoryId(directory, subDirectory)), FilePart])
  }

  /** What the upload call brings back: the task id, or what it threw. */
  datatype Posted = Posted(taskId: string) | PostThrew(thrown: Thrown)

  /** One status call: the body's three fields, or what the call threw. */
  datatype Fetch =
    | Answered(status: string, transcribed: Option<string>, summarized: Option<string>)
    | FetchThrew(thrown: Thrown)

  /** The state of the promise the client waits on. */
  datatype Outcome = Pending | Resolved(transcribed: string, summarized: string) | Rejected(message: string)

  /** What one tick of the polling interval does with its answer: keep
      polling, or settle the promise (and stop the interval). */
  function OnTick(f: Fetch): (r: Outcome)
    ensures r.Pending? <==> f.Answered? && f.status != "completed" && f.status != "failed"
    ensures r.Resolved? <==> f.Answered? && f.status == "completed" && Truthy(f.transcribed) && Truthy(f.summarized)
    ensures r.Resolved? ==> r.transcribed == f.transcribed.value && r.summarized == f.summarized.value
    ensures f.Answered? && f.status == "failed" ==> r == Rejected(ProcessFailed)
    ensures f.Answered? && f.status == "completed" && !(Truthy(f.transcribed) && Truthy(f.summarized)) ==>
      r == Rejected(MissingData)
    ensures f.FetchThrew? ==> r == Rejected(MessageOr(f.thrown, FetchFallback))
  {
    match f
    case FetchThrew(t) => Rejected(MessageOr(t, FetchFallback))
    case Answered(status, tx, sm) =>
      if status == "completed" then
        if Truthy(tx) && Truthy(sm) then Resolved(tx.value, sm.value) else Rejected(MissingData)
      else if status == "failed" then Rejected(ProcessFailed)
      else Pending
  }

  /** The promise after the ticks whose answers are `answers`: the first
      tick that settles decides it. */
  function Settled(answers: seq<Fetch>): Outcome
  {
    if answers == [] then Pending
    else if !OnTick(answers[0]).Pending? then OnTick(answers[0])
    else Settled(answers[1..])
  }

  /** The promise stays pending exactly while every answer says to keep
      polling; otherwise it is what the first settling answer decides. */
  lemma {:induction false} SettledByFirstDecision(answers: seq<Fetch>)
    ensures Settled(answers).Pending? <==> forall i :: 0 <= i < |answers| ==> OnTick(answers[i]).Pending?
    ensures !Settled(answers).Pending? ==>
      exists k :: 0 <= k < |answers| && Settled(answers) == OnTick(answers[k]) &&
        forall j :: 0 <= j < k ==> OnTick(answers[j]).Pending?
    decreases |answers|
  {
    if answers != [] && OnTick(answers[0]).Pending? {
      SettledByFirstDecision(answers[1..]);
      if !Settled(answers).Pending? {
        var k :| 0 <= k < |answers[1..]| && Settled(answers[1..]) == OnTick(answers[1..][k]) &&
          forall j :: 0 <= j < k ==> OnTick(answers[1..][j]).Pending?;
        assert Settled(answers) == OnTick(answers[k + 1]);
        assert forall j :: 0 <= j < k + 1 ==> OnTick(answers[j]).Pending? by {
          forall j | 0 <= j < k + 1
            ensures OnTick(answers[j]).Pending?
          {
            if j > 0 {
              assert answers[j] == answers[1..][j - 1];
            }
          }
        }
      } else {
        assert forall i :: 1 <= i < |answers| ==> answers[i] == answers[1..][i - 1];
      }
    }
  }

  /** `pollTranscriptionStatus`: one status call per interval tick until one
      settles the promise. `ticks` counts the calls made. */
  method Poll(answers: seq<Fetch>) returns (r: Outcome, ticks: nat)
    ensures r == Settled(answers)
    ensures ticks <= |answers|
    ensures r.Pending? ==> ticks == |answers|
    ensures !r.Pending? ==> 0 < ticks && r == OnTick(answers[ticks - 1])
    ensures forall j :: 0 <= j < ticks && !(j == ticks - 1 && !r.Pending?) ==> OnTick(answers[j]).Pending?
  {
    ticks := 0;
    r := Pending;
    while ticks < |answers|
      invariant ticks <= |answers|
      invariant Settled(answers) == Settled(answers[ticks..])
      invariant forall j :: 0 <= j < ticks ==> OnTick(answers[j]).Pending?
    {
      var tick := OnTick(answers[ticks]);
      assert answers[ticks..][1..] == answers[ticks + 1..];
      ticks := ticks + 1;
      if !tick.Pending? {
        return tick, ticks;
      }
    }
  }

  /** `handleSendAudio`: build the form, post it, then poll the task. The
      `catch` rethrows every failure with the same message. */
  method SendAudio(site: Option<Selection>, directory: Option<Selection>, subDirectory: Option<Selection>,
                   post: seq<Part> -> Posted, answers: string -> seq<Fetch>)
    returns (r: Outcome)
    ensures Form(site, directory, subDirectory).Err? ==> r == Rejected(SiteNeedsDirectory)
    ensures Form(site, directory, subDirectory).Ok? ==>
      match post(Form(site, directory, subDirectory).value)
      case PostThrew(t) => r == Rejected(MessageOr(t, SendFallback))
      case Posted(taskId) => r == Settled(answers(taskId))
  {
    var form := Form(site, directory, subDirectory);
    if form.Err? {
      return Rejected(SiteNeedsDirectory);
    }
    var posted := post(form.value);
    if posted.PostThrew? {
      return Rejected(MessageOr(posted.thrown, SendFallback));
    }
    var outcome, _ := Poll(answers(posted.taskId));
    if outcome.Rejected? {
      r := Rejected(outcome.message);
    } else {
      r := outcome;
    }
  }

  /** The answer a status call gets from the server: the report's fields, or
      the error the HTTP library throws for a 404 (its message is `message`). */
  function Served(report: Result<MainApp.StatusReport>, message: string): (f: Fetch)
    ensures report.Ok? ==> f.Answered? && f.status == report.value.status.Value()
    ensures report.Err? ==> f == FetchThrew(ErrorObject(message))
  {
    match report
    case Ok(s) => Answered(s.status.Value(), s.transcribed, s.summarized)
    case Err(_) => FetchThrew(ErrorObject(message))
  }

  /** A status call against a store that only the task calls have written:
      a processing task keeps the client polling, a failed task rejects with
      the client's own message (the stored error text is dropped), a
      completed task with two non-empty texts resolves with them, one with
      an empty text rejects, and an unknown id rejects with the 404's message.
      The route the client polls is served by the audio-processing handler's
      `get_transcription_status`, which reads the store by the same rule as
      the application module's status endpoint, `MainApp.GetTranscriptionStatus`. */
  lemma ClientReadsServerStatus(calls: seq<TaskStore.StoreCall>, taskId: string, message: string)
    ensures var t := TaskStore.ApplyAll(TaskStore.NoTasks, calls);
      var tick := OnTick(Served(MainApp.GetTranscriptionStatus(t, taskId), message));
      && (taskId !in TaskStore.Ids(calls) ==> tick == Rejected(message))
      && (taskId in t.status && t.status[taskId] == TaskStore.Processing ==> tick == Pending)
      && (taskId in t.status && t.status[taskId] == TaskStore.Failed ==> tick == Rejected(ProcessFailed))
      && (taskId in t.status && t.status[taskId] == TaskStore.Completed ==>
            taskId in t.transcribed && taskId in t.summarized &&
            var tx := t.transcribed[taskId];
            var sm := t.summarized[taskId];
            (Truthy(tx) && Truthy(sm) ==> tick == Resolved(tx.value, sm.value)) &&
            (!(Truthy(tx) && Truthy(sm)) ==> tick == Rejected(MissingData)))
  {
    MainApp.StatusOfKnownTasks(calls, taskId);
    TaskStore.ApplyAllKeepsKeysAligned(TaskStore.NoTasks, calls);
  }

  /** Whatever the client sends, the server's form parsing yields a site data
      dictionary with both keys, so the background run always tries the
      SharePoint upload — with site "" and directory "" when only the file
      was sent. The route the client posts to parses the form with
      `parse_transcription_form`, which has the same rule as the application
      module's `parse_form` modelled by `MainApp.ParseForm`; the run it
      schedules is the use case, whose upload gate is
      `AudioProcessingUseCase.ShouldUpload`. */
  lemma FormReachesServer(site: Option<Selection>, directory: Option<Selection>, subDirectory: Option<Selection>,
                          parts: seq<Part>)
    requires Form(site, directory, subDirectory) == Ok(parts)
    ensures var sd := MainApp.ParseForm(FieldOf(parts, "site"), FieldOf(parts, "directory"));
      && MainApp.Deliver(Some(sd))
      && AudioProcessingUseCase.ShouldUpload(Some(sd))
      && sd["site"] == JStr(if site.Some? then site.value.id else "")
      && sd["directory"] == JStr(DirectoryId(directory, subDirectory))
  {
    var sd := MainApp.ParseForm(FieldOf(parts, "site"), FieldOf(parts, "directory"));
    assert "site" in sd;
  }
}
