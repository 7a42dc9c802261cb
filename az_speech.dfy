/** The speech-service client: it creates a batch transcription job, polls the
    job until it reaches a terminal status (with a doubling back-off capped at
    60 seconds), and reads the result and display text through two more GETs.
    Every request must answer 201 (POST) or 200 (GET). The service's answers
    are given as functions; the client only decides what to do with them. */
module AzSpeech {
  import opened Common

  datatype Method = Post | Get

  /** An answer of the service: status code, body text and decoded body. */
  datatype HttpResponse = HttpResponse(status: nat, text: string, json: Json)

  /** The speech service as the client sees it. */
  datatype SpeechApi = SpeechApi(
    post: (string, Json) -> HttpResponse,    // the answer to a POST of a body to a URL
    status: (string, nat) -> HttpResponse,   // the answer to the n-th status GET of a job URL
    get: string -> HttpResponse)             // the answer to a GET of a files or content URL

  const JobPath: string := "/speechtotext/v3.2/transcriptions"
  const Locale: string := "ja-JP"
  const DefaultMaxAttempts: int := 240
  const DefaultInitialInterval: int := 30
  const MaxInterval: int := 60
  const Timeout: Error := HttpError(500, "ジョブのタイムアウト (2時間超過)")
  const JobFailedPrefix: string := "ジョブ失敗: "

  function ExpectedStatus(m: Method): nat
  {
    if m == Post then 201 else 200
  }

  /** `_make_request`: the decoded body when the status is the expected one,
      else HTTPException with the answer's status code and text. */
  function MakeRequest(m: Method, resp: HttpResponse): (r: Result<Json>)
    ensures r.Ok? <==> resp.status == ExpectedStatus(m)
    ensures r.Ok? ==> r.value == resp.json
    ensures r.Err? ==> r.error.HttpError? && r.error.status == resp.status
    ensures r.Err? ==>
      r.error.detail == (if m == Post then "ジョブの作成" else "リクエスト") + "に失敗しました: " + resp.text
  {
    if resp.status != ExpectedStatus(m) then
      var what := if m == Post then "ジョブの作成" else "リクエスト";
      Err(HttpError(resp.status, what + "に失敗しました: " + resp.text))
    else Ok(resp.json)
  }

  /** `_create_transcription_config`: the job body for one audio URL. */
  function TranscriptionConfig(blobUrl: string): (body: Json)
    ensures body.JObj? && Has(body, "contentUrls") && body.fields["contentUrls"] == JArr([JStr(blobUrl)])
    ensures Has(body, "locale") && body.fields["locale"] == JStr(Locale)
    ensures Has(body, "properties") && Has(body.fields["properties"], "diarizationEnabled")
      && body.fields["properties"].fields["diarizationEnabled"] == JBool(true)
  {
    JObj(map[
      "displayName" := JStr("Transcription"),
      "locale" := JStr(Locale),
      "contentUrls" := JArr([JStr(blobUrl)]),
      "properties" := JObj(map[
        "audioLocale" := JStr(Locale),
        "defaultLanguageCode" := JStr(Locale),
        "diarizationEnabled" := JBool(true),
        "punctuationMode" := JStr("DictatedAndAutomatic"),
        "wordLevelTimestampsEnabled" := JBool(true)])])
  }

  /** `create_transcription_job`: POST the job body and return the job URL the
      service answers with in "self". */
  function CreateTranscriptionJob(api: SpeechApi, endpoint: string, blobUrl: string): (r: Result<string>)
    ensures var resp := api.post(endpoint + JobPath, TranscriptionConfig(blobUrl));
      && (r.Ok? <==> resp.status == 201 && Has(resp.json, "self") && resp.json.fields["self"].JStr?)
      && (r.Ok? ==> r.value == resp.json.fields["self"].s)
      && (resp.status != 201 ==> r == Err(HttpError(resp.status, "ジョブの作成に失敗しました: " + resp.text)))
  {
    var data :- MakeRequest(Post, api.post(endpoint + JobPath, TranscriptionConfig(blobUrl)));
    GetText(data, "self")
  }

  /** The next sleep: twice the last one, at most 60 seconds. */
  function NextInterval(interval: int): int
  {
    if interval * 2 < MaxInterval then interval * 2 else MaxInterval
  }

  /** The i-th sleep of a poll that started with `initial`. */
  function Backoff(initial: int, i: nat): int
  {
    if i == 0 then initial else NextInterval(Backoff(initial, i - 1))
  }

  /** A status answer that neither ends nor breaks the poll: a 200 whose
      "status" is neither "Succeeded", "Failed" nor "Cancelled". */
  predicate Pending(resp: HttpResponse)
  {
    && resp.status == 200 && Has(resp.json, "status")
    && resp.json.fields["status"] !in {JStr("Succeeded"), JStr("Failed"), JStr("Cancelled")}
  }

  /** What a poll returns or raises, how many status GETs it made and the
      intervals it slept, in order. */
  datatype PollOutcome = PollOutcome(result: Result<string>, gets: nat, sleeps: seq<int>)

  /** `poll_transcription_status` from attempt `k` on, sleeping `interval` next. */
  function PollFrom(api: SpeechApi, jobUrl: string, maxAttempts: int, interval: int, k: nat): PollOutcome
    decreases maxAttempts - k
  {
    if k >= maxAttempts then PollOutcome(Err(Timeout), k, [])
    else
      match Decision(api.status(jobUrl, k))
      case Some(r) => PollOutcome(r, k + 1, [])
      case None =>
        var rest := PollFrom(api, jobUrl, maxAttempts, NextInterval(interval), k + 1);
        PollOutcome(rest.result, rest.gets, [interval] + rest.sleeps)
  }

  /** What one status answer decides: the poll's result, or nothing when the
      job is still running and the poll sleeps and asks again. A request that
      fails, a body without "status", "Succeeded" (links.files), "Failed" and
      "Cancelled" all end the poll. */
  function Decision(resp: HttpResponse): (d: Option<Result<string>>)
    ensures d.None? <==> Pending(resp)
  {
    match MakeRequest(Get, resp)
    case Err(e) => Some(Err(e))
    case Ok(data) =>
      match Common.Get(data, "status")
      case Err(e) => Some(Err(e))
      case Ok(status) =>
        if Truthy(status) && status == JStr("Succeeded") then Some(FilesUrl(data))
        else if Truthy(status) && status in [JStr("Failed"), JStr("Cancelled")] then
          Some(Err(HttpError(500, JobFailedPrefix + status.s)))
        else None
  }

  /** One pass of the polling loop's body after its GET: check the answer's
      code, read "status", and stop on a terminal value. */
  method CheckStatus(resp: HttpResponse) returns (d: Option<Result<string>>)
    ensures d.None? <==> Pending(resp)
    ensures d == Decision(resp)
  {
    var data := MakeRequest(Get, resp);
    if data.Err? {
      return Some(Err(data.error));
    }
    var status := Common.Get(data.value, "status");
    if status.Err? {
      return Some(Err(status.error));
    }
    if Truthy(status.value) {
      if status.value == JStr("Succeeded") {
        return Some(FilesUrl(data.value));
      }
      if status.value in [JStr("Failed"), JStr("Cancelled")] {
        return Some(Err(HttpError(500, JobFailedPrefix + status.value.s)));
      }
    }
    return None;
  }

  /** `links.files` of a successful status answer. */
  function FilesUrl(data: Json): (r: Result<string>)
    ensures r.Ok? <==>
      Has(data, "links") && Has(data.fields["links"], "files") && data.fields["links"].fields["files"].JStr?
    ensures r.Ok? ==> r.value == data.fields["links"].fields["files"].s
  {
    var links :- Common.Get(data, "links");
    GetText(links, "files")
  }

  function Poll(api: SpeechApi, jobUrl: string, maxAttempts: int, initialInterval: int): PollOutcome
  {
    PollFrom(api, jobUrl, maxAttempts, initialInterval, 0)
  }

  /** `poll_transcription_status`: up to `max_attempts` status GETs, sleeping
      between them with a doubling interval capped at 60. */
  method PollTranscriptionStatus(api: SpeechApi, jobUrl: string, maxAttempts: int, initialInterval: int)
    returns (r: Result<string>, gets: nat, sleeps: seq<int>)
    ensures PollOutcome(r, gets, sleeps) == Poll(api, jobUrl, maxAttempts, initialInterval)
  {
    var interval := initialInterval;
    gets, sleeps := 0, [];
    var attempt := 0;
    while attempt < maxAttempts
      invariant 0 <= attempt == gets
      invariant var rest := PollFrom(api, jobUrl, maxAttempts, interval, attempt);
        Poll(api, jobUrl, maxAttempts, initialInterval) == PollOutcome(rest.result, rest.gets, sleeps + rest.sleeps)
      decreases maxAttempts - attempt
    {
      gets := gets + 1;
      var decided := CheckStatus(api.status(jobUrl, attempt));
      if decided.Some? {
        assert sleeps + [] == sleeps;
        return decided.value, gets, sleeps;
      }
      PollPending(api, jobUrl, maxAttempts, interval, attempt, sleeps);
      sleeps := sleeps + [interval];
      interval := NextInterval(interval);
      attempt := attempt + 1;
    }
    r := Err(Timeout);
  }

  /** A pending answer: the poll sleeps `interval` and goes on with the next
      attempt and the next interval. */
  lemma PollPending(api: SpeechApi, jobUrl: string, maxAttempts: int, interval: int, k: nat, before: seq<int>)
    requires k < maxAttempts
    requires Pending(api.status(jobUrl, k))
    ensures var here := PollFrom(api, jobUrl, maxAttempts, interval, k);
      var rest := PollFrom(api, jobUrl, maxAttempts, NextInterval(interval), k + 1);
      PollOutcome(here.result, here.gets, before + here.sleeps)
        == PollOutcome(rest.result, rest.gets, (before + [interval]) + rest.sleeps)
  {
    var rest := PollFrom(api, jobUrl, maxAttempts, NextInterval(interval), k + 1);
    assert PollFrom(api, jobUrl, maxAttempts, interval, k).sleeps == [interval] + rest.sleeps;
    assert before + ([interval] + rest.sleeps) == (before + [interval]) + rest.sleeps;
  }

  /** The poll makes at most `max_attempts` status GETs (none when it is not
      positive) and sleeps once after each pending answer: a decided poll
      sleeps one time fewer than it GETs, a timeout as many times as it GETs
      (it sleeps after the last pending answer too). Every sleep follows the
      back-off: the first is the initial interval, each later one is twice
      the one before capped at 60. */
  lemma {:induction false} PollBounds(api: SpeechApi, jobUrl: string, maxAttempts: int, interval: int, k: nat)
    requires k <= maxAttempts || k == 0
    ensures var o := PollFrom(api, jobUrl, maxAttempts, interval, k);
      && k <= o.gets && (o.gets <= maxAttempts || o.gets == 0)
      && ((o.result == Err(Timeout) && o.gets == |o.sleeps| + k) || o.gets == |o.sleeps| + k + 1)
      && forall i :: 0 <= i < |o.sleeps| ==> o.sleeps[i] == Backoff(interval, i)
    decreases maxAttempts - k
  {
    if k < maxAttempts {
      var o := PollFrom(api, jobUrl, maxAttempts, interval, k);
      var rest := PollFrom(api, jobUrl, maxAttempts, NextInterval(interval), k + 1);
      PollBounds(api, jobUrl, maxAttempts, NextInterval(interval), k + 1);
      if o.sleeps != [] {
        assert o.sleeps == [interval] + rest.sleeps;
        forall i | 1 <= i < |o.sleeps|
          ensures o.sleeps[i] == Backoff(interval, i)
        {
          BackoffShift(interval, i - 1);
        }
      }
    }
  }

  /** Starting one step later in the back-off is starting from the next interval. */
  lemma {:induction false} BackoffShift(initial: int, i: nat)
    ensures Backoff(NextInterval(initial), i) == Backoff(initial, i + 1)
  {
    if i > 0 {
      BackoffShift(initial, i - 1);
    }
  }

  /** Every sleep after the first is between twice the previous (when that is
      under 60) and 60. */
  lemma BackoffCapped(initial: int, i: nat)
    requires i >= 1
    ensures Backoff(initial, i) <= MaxInterval
    ensures Backoff(initial, i) == 2 * Backoff(initial, i - 1) || Backoff(initial, i) == MaxInterval
  {
  }

  /** The i-th status answer decides the poll when every earlier one was pending:
      "Succeeded" returns links.files, "Failed" or "Cancelled" raise at once,
      and no further GET is made. */
  lemma {:induction false} PollStopsAtFirstDecisive(api: SpeechApi, jobUrl: string, maxAttempts: int, initial: int, j: nat)
    requires j < maxAttempts
    requires forall i :: 0 <= i < j ==> Pending(api.status(jobUrl, i))
    requires !Pending(api.status(jobUrl, j))
    ensures var o := Poll(api, jobUrl, maxAttempts, initial);
      var resp := api.status(jobUrl, j);
      && o.gets == j + 1
      && (resp.status != 200 ==> o.result == Err(HttpError(resp.status, "リクエストに失敗しました: " + resp.text)))
      && (resp.status == 200 && Has(resp.json, "status") && resp.json.fields["status"] == JStr("Succeeded") ==>
            o.result == FilesUrl(resp.json))
      && (resp.status == 200 && Has(resp.json, "status") && resp.json.fields["status"] in {JStr("Failed"), JStr("Cancelled")} ==>
            o.result == Err(HttpError(500, JobFailedPrefix + resp.json.fields["status"].s)))
  {
    PollSkipsPending(api, jobUrl, maxAttempts, initial, 0, j);
  }

  /** Pending answers only add sleeps: the poll from k is the poll from j after
      the sleeps of attempts k to j - 1. */
  lemma {:induction false} PollSkipsPending(api: SpeechApi, jobUrl: string, maxAttempts: int, interval: int, k: nat, j: nat)
    requires k <= j <= maxAttempts
    requires forall i :: k <= i < j ==> Pending(api.status(jobUrl, i))
    ensures var o := PollFrom(api, jobUrl, maxAttempts, interval, k);
      var rest := PollFrom(api, jobUrl, maxAttempts, Backoff(interval, j - k), j);
      o.result == rest.result && o.gets == rest.gets && |o.sleeps| == j - k + |rest.sleeps|
    decreases j - k
  {
    if k < j {
      PollSkipsPending(api, jobUrl, maxAttempts, NextInterval(interval), k + 1, j);
      BackoffShift(interval, j - k - 1);
    }
  }

  /** When every answer is pending, the poll raises the timeout after exactly
      `max_attempts` GETs, having slept after each of them. */
  lemma PollTimesOut(api: SpeechApi, jobUrl: string, maxAttempts: nat, initial: int)
    requires forall i :: 0 <= i < maxAttempts ==> Pending(api.status(jobUrl, i))
    ensures var o := Poll(api, jobUrl, maxAttempts, initial);
      o.result == Err(Timeout) && o.gets == maxAttempts && |o.sleeps| == maxAttempts
  {
    PollSkipsPending(api, jobUrl, maxAttempts, initial, 0, maxAttempts);
  }

  function Sum(xs: seq<int>): int
  {
    if xs == [] then 0 else Sum(xs[..|xs| - 1]) + xs[|xs| - 1]
  }

  /** With the default 30-second start every sleep after the first is 60
      seconds, so a poll that times out after n pending answers has slept
      30 + 60 * (n - 1) seconds: 14370 seconds with the default 240 attempts,
      about four hours rather than the two the timeout message names. */
  lemma {:induction false} DefaultWait(api: SpeechApi, jobUrl: string, n: nat)
    requires n >= 1
    requires forall i :: 0 <= i < n ==> Pending(api.status(jobUrl, i))
    ensures var o := Poll(api, jobUrl, n, DefaultInitialInterval);
      o.result == Err(Timeout) && Sum(o.sleeps) == 30 + 60 * (n - 1)
  {
    PollTimesOut(api, jobUrl, n, DefaultInitialInterval);
    PollBounds(api, jobUrl, n, DefaultInitialInterval, 0);
    var s := Poll(api, jobUrl, n, DefaultInitialInterval).sleeps;
    SumDefaultBackoff(s);
  }

  lemma {:induction false} SumDefaultBackoff(s: seq<int>)
    requires |s| >= 1
    requires forall i :: 0 <= i < |s| ==> s[i] == Backoff(DefaultInitialInterval, i)
    ensures Sum(s) == 30 + 60 * (|s| - 1)
    decreases |s|
  {
    if |s| > 1 {
      SumDefaultBackoff(s[..|s| - 1]);
      DefaultBackoffIs60(|s| - 1);
    }
  }

  lemma {:induction false} DefaultBackoffIs60(i: nat)
    requires i >= 1
    ensures Backoff(DefaultInitialInterval, i) == 60
  {
    if i > 1 {
      DefaultBackoffIs60(i - 1);
    }
  }

  /** `get_transcription_result`: values[0].links.contentUrl of the files listing. */
  function GetTranscriptionResult(api: SpeechApi, filesUrl: string): (r: Result<string>)
    ensures var resp := api.get(filesUrl);
      r.Ok? <==> && resp.status == 200
                 && Has(resp.json, "values") && resp.json.fields["values"].JArr?
                 && |resp.json.fields["values"].items| > 0
                 && Has(resp.json.fields["values"].items[0], "links")
                 && Has(resp.json.fields["values"].items[0].fields["links"], "contentUrl")
                 && resp.json.fields["values"].items[0].fields["links"].fields["contentUrl"].JStr?
    ensures var resp := api.get(filesUrl);
      r.Ok? ==> r.value == resp.json.fields["values"].items[0].fields["links"].fields["contentUrl"].s
    ensures api.get(filesUrl).status != 200 ==> r == Err(HttpError(api.get(filesUrl).status, "リクエストに失敗しました: " + api.get(filesUrl).text))
  {
    var data :- MakeRequest(Get, api.get(filesUrl));
    var values :- Common.Get(data, "values");
    var first :- First(values);
    var links :- Common.Get(first, "links");
    GetText(links, "contentUrl")
  }

  /** `get_transcription_display`: combinedRecognizedPhrases[0].display of the content. */
  function GetTranscriptionDisplay(api: SpeechApi, contentUrl: string): (r: Result<string>)
    ensures var resp := api.get(contentUrl);
      r.Ok? <==> && resp.status == 200
                 && Has(resp.json, "combinedRecognizedPhrases") && resp.json.fields["combinedRecognizedPhrases"].JArr?
                 && |resp.json.fields["combinedRecognizedPhrases"].items| > 0
                 && Has(resp.json.fields["combinedRecognizedPhrases"].items[0], "display")
                 && resp.json.fields["combinedRecognizedPhrases"].items[0].fields["display"].JStr?
    ensures var resp := api.get(contentUrl);
      r.Ok? ==> r.value == resp.json.fields["combinedRecognizedPhrases"].items[0].fields["display"].s
    ensures api.get(contentUrl).status != 200 ==> r == Err(HttpError(api.get(contentUrl).status, "リクエストに失敗しました: " + api.get(contentUrl).text))
  {
    var data :- MakeRequest(Get, api.get(contentUrl));
    var phrases :- Common.Get(data, "combinedRecognizedPhrases");
    var first :- First(phrases);
    GetText(first, "display")
  }
}
