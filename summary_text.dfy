/** The older summarisation client: the text is cut into token windows (3000
    tokens by default), one summary request is made per chunk with 15 gathered
    at a time, and the summaries are joined by newlines. Unlike the
    summarisation service, one failed request aborts the whole call, and there
    is no reduction request. */
module SummaryText {
  import opened Common
  import TokenChunking
  import TextSummarization

  const DefaultMaxTokensPerChunk: int := 3000
  const SummaryBatchSize: int := 15
  const FetchPrefix: string := "エラー: "
  const WrapPrefix: string := "Failed to summarize text: "

  /** One chat completion on the fixed minutes-writing prompt around a chunk:
      the message content, or the exception the client raised. */
  type Chat = string -> Result<string>

  /** `split_chunks`: the chunk comprehension over `range(0, len(tokens), max_tokens)`.
      Unlike `split_token`, the text is encoded even when it is empty. */
  function SplitChunks(tok: TokenChunking.Tokenizer, text: string, maxTokens: int): Result<seq<string>>
  {
    var tokens := tok.encode(text);
    if maxTokens == 0 then Err(ZeroStep)
    else if maxTokens < 0 then Ok([])
    else
      var n := |tokens|;
      var count := (n + maxTokens - 1) / maxTokens;
      Ok(seq(count, k requires 0 <= k < count =>
        TokenChunking.WindowsCount(tokens, maxTokens);
        TokenChunking.WindowAt(tokens, maxTokens, k);
        tok.decode(tokens[k * maxTokens .. TokenChunking.Min(k * maxTokens + maxTokens, n)])))
  }

  /** The comprehension decodes the same windows as `split_token`'s loop, so on
      a non-empty text the two splitters agree. */
  lemma SplitChunksAreWindows(tok: TokenChunking.Tokenizer, text: string, maxTokens: int)
    requires maxTokens > 0
    ensures SplitChunks(tok, text, maxTokens)
      == Ok(TokenChunking.DecodeAll(tok, TokenChunking.Windows(tok.encode(text), maxTokens)))
    ensures text != "" ==> SplitChunks(tok, text, maxTokens) == TokenChunking.SplitTokenSpec(tok, text, maxTokens)
  {
    var tokens := tok.encode(text);
    var ws := TokenChunking.Windows(tokens, maxTokens);
    TokenChunking.WindowsCount(tokens, maxTokens);
    var chunks := SplitChunks(tok, text, maxTokens).value;
    forall k | 0 <= k < |ws|
      ensures chunks[k] == tok.decode(ws[k])
    {
      TokenChunking.WindowAt(tokens, maxTokens, k);
    }
    assert chunks == TokenChunking.DecodeAll(tok, ws);
  }

  /** `fetch_summary`: the stripped content of the completion; any exception
      becomes HTTP 500 "エラー: <message>". */
  function FetchSummary(chat: Chat, chunk: string): (r: Result<string>)
    ensures r.Ok? <==> chat(chunk).Ok?
    ensures r.Ok? ==> r.value == Strip(chat(chunk).value, PySpace)
    ensures r.Err? ==> r.error == HttpError(500, FetchPrefix + Str(chat(chunk).error))
  {
    match chat(chunk)
    case Ok(content) => Ok(Strip(content, PySpace))
    case Err(e) => Err(HttpError(500, FetchPrefix + Str(e)))
  }

  /** `asyncio.gather` without `return_exceptions`: every result, or the first
      exception in request order. */
  function Collect(rs: seq<Result<string>>): Result<seq<string>>
    decreases |rs|
  {
    if rs == [] then Ok([])
    else if rs[0].Err? then Err(rs[0].error)
    else match Collect(rs[1..])
      case Ok(vs) => Ok([rs[0].value] + vs)
      case Err(e) => Err(e)
  }

  /** The gather succeeds exactly when every request does, and then holds every
      result, in request order. */
  lemma {:induction false} CollectOk(rs: seq<Result<string>>)
    ensures Collect(rs).Ok? <==> forall i :: 0 <= i < |rs| ==> rs[i].Ok?
    ensures Collect(rs).Ok? ==>
      |Collect(rs).value| == |rs| && forall i :: 0 <= i < |rs| ==> Collect(rs).value[i] == rs[i].value
    decreases |rs|
  {
    if rs != [] {
      CollectOk(rs[1..]);
      assert forall i :: 1 <= i < |rs| ==> rs[i] == rs[1..][i - 1];
    }
  }

  /** A failed gather raises the exception of its first failed request. */
  lemma {:induction false} CollectErr(rs: seq<Result<string>>, f: nat)
    requires f < |rs| && rs[f].Err? && forall j :: 0 <= j < f ==> rs[j].Ok?
    ensures Collect(rs) == Err(rs[f].error)
    decreases f
  {
    if f > 0 {
      CollectErr(rs[1..], f - 1);
    }
  }

  lemma {:induction false} CollectAppend(a: seq<Result<string>>, b: seq<Result<string>>)
    requires Collect(a).Ok?
    ensures Collect(b).Ok? ==> Collect(a + b) == Ok(Collect(a).value + Collect(b).value)
    ensures Collect(b).Err? ==> Collect(a + b) == Collect(b)
    decreases |a|
  {
    if a == [] {
      assert a + b == b;
      if Collect(b).Ok? {
        assert Collect(a).value + Collect(b).value == Collect(b).value;
      }
    } else {
      assert (a + b)[0] == a[0] && (a + b)[1..] == a[1..] + b;
      CollectAppend(a[1..], b);
      var head := [a[0].value];
      assert Collect(a).value == head + Collect(a[1..]).value;
      if Collect(b).Ok? {
        assert head + (Collect(a[1..]).value + Collect(b).value) == Collect(a).value + Collect(b).value;
      }
    }
  }

  /** `run_in_batches`: the requests of `tasks[i : i + batch_size]`, for `i` in
      `range(0, len(tasks), batch_size)`, gathered one batch at a time; a
      failed batch ends the loop with its exception. `sent` lists the requests
      made. */
  method RunInBatches(fetch: TextSummarization.Llm, tasks: seq<string>, batchSize: int)
    returns (r: Result<seq<string>>, sent: seq<string>)
    ensures batchSize == 0 ==> r == Err(ZeroStep) && sent == []
    ensures batchSize < 0 ==> r == Ok([]) && sent == []
    ensures batchSize > 0 ==> r == Collect(TextSummarization.Results(fetch, tasks))
    ensures batchSize > 0 ==> sent <= tasks && (|sent| % batchSize == 0 || sent == tasks)
    ensures batchSize > 0 && r.Ok? ==> sent == tasks
    ensures batchSize > 0 && r.Err? ==> FailsInLastBatch(fetch, sent, batchSize)
  {
    sent := [];
    if batchSize == 0 {
      return Err(ZeroStep), sent;
    } else if batchSize < 0 {
      return Ok([]), sent;
    }
    var results: seq<string> := [];
    var i := 0;
    while i < |tasks|
      invariant 0 <= i <= |tasks| && (i % batchSize == 0 || i == |tasks|)
      invariant sent == tasks[..i]
      invariant Collect(TextSummarization.Results(fetch, sent)) == Ok(results)
      decreases |tasks| - i
    {
      var end := if i + batchSize < |tasks| then i + batchSize else |tasks|;
      var batch := tasks[i..end];
      var gathered := Collect(TextSummarization.Results(fetch, batch));
      BatchStep(fetch, tasks, i, end, batchSize);
      ModStep(i, batchSize);
      sent := sent + batch;
      if gathered.Err? {
        return gathered, sent;
      }
      results := results + gathered.value;
      i := end;
    }
    assert sent == tasks;
    return Ok(results), sent;
  }

  /** One batch of the loop: after successful batches up to `i`, gathering
      `tasks[i:end]` either extends the results or raises what the whole
      gather over `tasks` would raise, the failure lying in this last batch. */
  lemma BatchStep(fetch: TextSummarization.Llm, tasks: seq<string>, i: int, end: int, batchSize: int)
    requires 0 <= i < end <= |tasks| && end <= i + batchSize
    requires Collect(TextSummarization.Results(fetch, tasks[..i])).Ok?
    ensures tasks[..end] == tasks[..i] + tasks[i..end]
    ensures var batch := Collect(TextSummarization.Results(fetch, tasks[i..end]));
      && (batch.Ok? ==>
            Collect(TextSummarization.Results(fetch, tasks[..end]))
              == Ok(Collect(TextSummarization.Results(fetch, tasks[..i])).value + batch.value))
      && (batch.Err? ==> batch == Collect(TextSummarization.Results(fetch, tasks)))
      && (batch.Err? ==> FailsInLastBatch(fetch, tasks[..end], batchSize))
  {
    var a, b, c := tasks[..i], tasks[i..end], tasks[end..];
    assert tasks[..end] == a + b;
    assert tasks == a + b + c;
    TextSummarization.ResultsAppend(fetch, a, b);
    TextSummarization.ResultsAppend(fetch, a + b, c);
    var ra, rb, rc := TextSummarization.Results(fetch, a), TextSummarization.Results(fetch, b), TextSummarization.Results(fetch, c);
    CollectAppend(ra, rb);
    if Collect(rb).Err? {
      ErrStaysFirst(ra, rb, rc);
      LastBatchFails(fetch, tasks, i, end, batchSize);
    }
  }

  /** The requests before the last batch all succeeded and one in the last
      batch failed: a batch is only sent once every earlier batch succeeded. */
  predicate FailsInLastBatch(fetch: TextSummarization.Llm, sent: seq<string>, batchSize: int)
  {
    && |sent| > 0
    && (forall i :: 0 <= i < |sent| && i < |sent| - batchSize ==> fetch(sent[i]).Ok?)
    && exists i :: |sent| - batchSize <= i < |sent| && 0 <= i && fetch(sent[i]).Err?
  }

  lemma LastBatchFails(fetch: TextSummarization.Llm, tasks: seq<string>, i: int, end: int, batchSize: int)
    requires 0 <= i < end <= |tasks| && end <= i + batchSize
    requires Collect(TextSummarization.Results(fetch, tasks[..i])).Ok?
    requires Collect(TextSummarization.Results(fetch, tasks[i..end])).Err?
    ensures FailsInLastBatch(fetch, tasks[..end], batchSize)
  {
    var sent := tasks[..end];
    CollectOk(TextSummarization.Results(fetch, tasks[..i]));
    CollectOk(TextSummarization.Results(fetch, tasks[i..end]));
    var j :| 0 <= j < end - i && fetch(tasks[i..end][j]).Err?;
    assert fetch(sent[i + j]).Err?;
    forall k | 0 <= k < |sent| && k < |sent| - batchSize
      ensures fetch(sent[k]).Ok?
    {
      assert sent[k] == tasks[..i][k];
    }
  }

  lemma ModStep(x: int, d: int)
    requires d > 0 && x >= 0 && x % d == 0
    ensures (x + d) % d == 0
  {
    var q := x / d;
    assert x == d * q;
    assert x + d == d * (q + 1) + 0;
    TokenChunking.DivisionUnique(x + d, d, q + 1, 0);
  }

  lemma ErrStaysFirst(a: seq<Result<string>>, b: seq<Result<string>>, c: seq<Result<string>>)
    requires Collect(a).Ok? && Collect(b).Err?
    ensures Collect(a + b + c) == Collect(b)
  {
    assert a + b + c == a + (b + c);
    CollectAppend(a, b + c);
    BadPrefix(b, c);
  }

  lemma {:induction false} BadPrefix(b: seq<Result<string>>, c: seq<Result<string>>)
    requires Collect(b).Err?
    ensures Collect(b + c) == Collect(b)
    decreases |b|
  {
    assert (b + c)[0] == b[0];
    if b[0].Ok? {
      assert (b + c)[1..] == b[1..] + c;
      BadPrefix(b[1..], c);
    }
  }

  /** Every exception of `summarize_text` leaves as HTTP 500 "Failed to summarize text: <str(e)>". */
  function Wrap(e: Error): (w: Error)
    ensures w.HttpError? && w.status == 500 && w.detail == WrapPrefix + Str(e)
  {
    HttpError(500, WrapPrefix + Str(e))
  }

  /** The per-chunk requests of `summarize_text`. */
  function Fetcher(chat: Chat): TextSummarization.Llm
  {
    c => FetchSummary(chat, c)
  }

  /** What `summarize_text` returns or raises. */
  function SummarizeTextSpec(chat: Chat, tok: TokenChunking.Tokenizer, text: string, maxTokens: int): Result<string>
  {
    match SplitChunks(tok, text, maxTokens)
    case Err(e) => Err(Wrap(e))
    case Ok(chunks) =>
      match Collect(TextSummarization.Results(Fetcher(chat), chunks))
      case Err(e) => Err(Wrap(e))
      case Ok(summaries) => Ok(Join("\n", summaries))
  }

  /** `summarize_text`: split, summarise 15 chunks at a time, join. */
  method SummarizeText(chat: Chat, tok: TokenChunking.Tokenizer, text: string, maxTokens: int)
    returns (r: Result<string>, sent: seq<string>)
    ensures r == SummarizeTextSpec(chat, tok, text, maxTokens)
    ensures SplitChunks(tok, text, maxTokens).Ok? ==> sent <= SplitChunks(tok, text, maxTokens).value
  {
    sent := [];
    var chunks := SplitChunks(tok, text, maxTokens);
    if chunks.Err? {
      return Err(Wrap(chunks.error)), sent;
    }
    var summaries;
    summaries, sent := RunInBatches(Fetcher(chat), chunks.value, SummaryBatchSize);
    if summaries.Err? {
      return Err(Wrap(summaries.error)), sent;
    }
    r := Ok(Join("\n", summaries.value));
  }

  /** All or nothing: once the text is split, the call succeeds exactly when
      every chunk's completion does, and then returns the stripped summaries,
      one per chunk in chunk order, joined by "\n". */
  lemma SummarizeTextAllOrNothing(chat: Chat, tok: TokenChunking.Tokenizer, text: string, maxTokens: int, chunks: seq<string>)
    requires SplitChunks(tok, text, maxTokens) == Ok(chunks)
    ensures var r := SummarizeTextSpec(chat, tok, text, maxTokens);
      && (r.Ok? <==> forall i :: 0 <= i < |chunks| ==> chat(chunks[i]).Ok?)
      && (r.Ok? ==> exists summaries: seq<string> ::
            && |summaries| == |chunks|
            && (forall i :: 0 <= i < |chunks| ==> summaries[i] == Strip(chat(chunks[i]).value, PySpace))
            && r.value == Join("\n", summaries))
  {
    var rs := TextSummarization.Results(Fetcher(chat), chunks);
    CollectOk(rs);
    assert forall i :: 0 <= i < |chunks| ==> rs[i] == FetchSummary(chat, chunks[i]);
    if Collect(rs).Ok? {
      var summaries := Collect(rs).value;
      assert forall i :: 0 <= i < |chunks| ==> summaries[i] == Strip(chat(chunks[i]).value, PySpace);
    }
  }

  /** The first chunk whose completion fails decides the exception:
      "Failed to summarize text: 500: エラー: <message>". */
  lemma SummarizeTextFirstFailure(chat: Chat, tok: TokenChunking.Tokenizer, text: string, maxTokens: int, chunks: seq<string>, f: nat)
    requires SplitChunks(tok, text, maxTokens) == Ok(chunks)
    requires f < |chunks| && chat(chunks[f]).Err?
    requires forall j :: 0 <= j < f ==> chat(chunks[j]).Ok?
    ensures SummarizeTextSpec(chat, tok, text, maxTokens)
      == Err(HttpError(500, WrapPrefix + "500: " + FetchPrefix + Str(chat(chunks[f]).error)))
  {
    var rs := TextSummarization.Results(Fetcher(chat), chunks);
    assert rs[f] == FetchSummary(chat, chunks[f]);
    assert forall j :: 0 <= j < f ==> rs[j] == FetchSummary(chat, chunks[j]);
    CollectErr(rs, f);
    var e := chat(chunks[f]).error;
    assert SummarizeTextSpec(chat, tok, text, maxTokens) == Err(Wrap(HttpError(500, FetchPrefix + Str(e))));
    WrapFetchError(e);
  }

  lemma WrapFetchError(e: Error)
    ensures Wrap(HttpError(500, FetchPrefix + Str(e))) == HttpError(500, WrapPrefix + "500: " + FetchPrefix + Str(e))
  {
    DecimalOf500();
    assert Str(HttpError(500, FetchPrefix + Str(e))) == "500" + ": " + (FetchPrefix + Str(e));
  }

  lemma DecimalOf500()
    ensures Decimal(500) == "500"
  {
    assert Decimal(5) == "5";
    assert Decimal(50) == "50";
  }

  /** A text that encodes to no tokens makes no request and summarises to "". */
  lemma SummarizeTextEmpty(chat: Chat, tok: TokenChunking.Tokenizer, text: string, maxTokens: int)
    requires maxTokens > 0 && tok.encode(text) == []
    ensures SplitChunks(tok, text, maxTokens) == Ok([])
    ensures SummarizeTextSpec(chat, tok, text, maxTokens) == Ok("")
  {
    assert (0 + maxTokens - 1) / maxTokens == 0;
    assert |SplitChunks(tok, text, maxTokens).value| == 0;
  }
}
