/** The summarisation service: split the text into token windows, send one
    summary request per chunk in batches of `batch_size`, drop the requests
    that failed, and reduce the kept summaries, joined by newlines, with one
    more request. */
module TextSummarization {
  import opened Common
  import TokenChunking

  /** The language model as the service sees it: `get_summary(generate_prompt(text))`,
      which gives a summary or raises. */
  type Llm = string -> Result<string>

  /** One request per text, in order: the order-preserving `asyncio.gather`. */
  function Results(llm: Llm, texts: seq<string>): (rs: seq<Result<string>>)
    ensures |rs| == |texts| && forall i :: 0 <= i < |texts| ==> rs[i] == llm(texts[i])
  {
    seq(|texts|, i requires 0 <= i < |texts| => llm(texts[i]))
  }

  /** The results that are strings, in their order: failed requests are dropped. */
  function KeepOk(rs: seq<Result<string>>): seq<string>
  {
    if rs == [] then []
    else (if rs[0].Ok? then [rs[0].value] else []) + KeepOk(rs[1..])
  }

  lemma {:induction false} ResultsAppend(llm: Llm, a: seq<string>, b: seq<string>)
    ensures Results(llm, a + b) == Results(llm, a) + Results(llm, b)
  {
  }

  lemma {:induction false} KeepOkAppend(a: seq<Result<string>>, b: seq<Result<string>>)
    ensures KeepOk(a + b) == KeepOk(a) + KeepOk(b)
    decreases |a|
  {
    if a == [] {
      assert a + b == b;
    } else {
      assert (a + b)[0] == a[0] && (a + b)[1..] == a[1..] + b;
      KeepOkAppend(a[1..], b);
    }
  }

  /** Nothing is kept exactly when every request failed. */
  lemma {:induction false} KeepOkEmptyIffAllFailed(rs: seq<Result<string>>)
    ensures KeepOk(rs) == [] <==> forall i :: 0 <= i < |rs| ==> rs[i].Err?
    decreases |rs|
  {
    if rs != [] {
      KeepOkEmptyIffAllFailed(rs[1..]);
      assert forall i :: 1 <= i < |rs| ==> rs[i] == rs[1..][i - 1];
    }
  }

  /** When no request fails, every summary is kept, one per request, in order. */
  lemma {:induction false} KeepOkAllSucceeded(rs: seq<Result<string>>)
    requires forall i :: 0 <= i < |rs| ==> rs[i].Ok?
    ensures |KeepOk(rs)| == |rs| && forall i :: 0 <= i < |rs| ==> KeepOk(rs)[i] == rs[i].value
    decreases |rs|
  {
    if rs != [] {
      KeepOkAllSucceeded(rs[1..]);
      assert forall i :: 1 <= i < |rs| ==> rs[i] == rs[1..][i - 1];
    }
  }

  /** A request that came back with a summary. */
  predicate Succeeded(r: Result<string>)
  {
    r.Ok?
  }

  /** Every kept summary is the result of some request, and the kept
      summaries are the payloads of the successful requests, one each, in
      request order. */
  lemma {:induction false} KeepOkInOrder(rs: seq<Result<string>>)
    ensures |KeepOk(rs)| <= |rs|
    ensures forall k :: 0 <= k < |KeepOk(rs)| ==> exists i :: 0 <= i < |rs| && rs[i] == Ok(KeepOk(rs)[k])
    ensures var oks := Filter(rs, Succeeded);
      |KeepOk(rs)| == |oks| && forall k :: 0 <= k < |oks| ==> KeepOk(rs)[k] == oks[k].value
    decreases |rs|
  {
    if rs != [] {
      KeepOkInOrder(rs[1..]);
      var kept, tail := KeepOk(rs), KeepOk(rs[1..]);
      var oks, tailOks := Filter(rs, Succeeded), Filter(rs[1..], Succeeded);
      assert oks == if rs[0].Ok? then [rs[0]] + tailOks else tailOks;
      forall k | 0 <= k < |oks| ensures kept[k] == oks[k].value {
        if rs[0].Ok? && k == 0 {
        } else {
          var j := if rs[0].Ok? then k - 1 else k;
          assert kept[k] == tail[j] && oks[k] == tailOks[j];
        }
      }
      forall k | 0 <= k < |kept| ensures exists i :: 0 <= i < |rs| && rs[i] == Ok(kept[k]) {
        if rs[0].Ok? && k == 0 {
          assert rs[0] == Ok(kept[0]);
        } else {
          var j := if rs[0].Ok? then k - 1 else k;
          assert kept[k] == tail[j];
          var i :| 0 <= i < |rs[1..]| && rs[1..][i] == Ok(tail[j]);
          assert rs[i + 1] == Ok(kept[k]);
        }
      }
    }
  }

  /** `_summarize_chunks_in_batches`: one request per chunk, `batch_size` chunks
      at a time, keeping the summaries that came back. `sent` lists the texts
      submitted, in submission order. */
  method SummarizeChunksInBatches(llm: Llm, chunks: seq<string>, batchSize: int)
    returns (r: Result<seq<string>>, sent: seq<string>)
    ensures batchSize == 0 ==> r == Err(ZeroStep) && sent == []
    ensures batchSize < 0 ==> r == Ok([]) && sent == []
    ensures batchSize > 0 ==> r == Ok(KeepOk(Results(llm, chunks))) && sent == chunks
  {
    sent := [];
    if batchSize == 0 {
      return Err(ZeroStep), sent;
    }
    var summaries: seq<string> := [];
    if batchSize > 0 {
      var i := 0;
      while i < |chunks|
        invariant 0 <= i
        invariant sent == chunks[..if i < |chunks| then i else |chunks|]
        invariant summaries == KeepOk(Results(llm, sent))
        decreases |chunks| - i
      {
        var end := if i + batchSize < |chunks| then i + batchSize else |chunks|;
        var batch := chunks[i..end];
        var results := Results(llm, batch);
        ResultsAppend(llm, sent, batch);
        KeepOkAppend(Results(llm, sent), results);
        summaries := summaries + KeepOk(results);
        assert chunks[..end] == sent + batch;
        sent := sent + batch;
        i := i + batchSize;
      }
      assert sent == chunks;
    }
    return Ok(summaries), sent;
  }

  /** `_split_text_chunks`: the chunks, or ValueError when there are none. */
  function SplitTextChunks(tok: TokenChunking.Tokenizer, text: string, maxTokens: int): (r: Result<seq<string>>)
    ensures r.Ok? ==> r.value != [] && Ok(r.value) == TokenChunking.SplitTokenSpec(tok, text, maxTokens)
    ensures TokenChunking.SplitTokenSpec(tok, text, maxTokens) == Ok([]) ==> r == Err(EmptyInput)
  {
    var chunks :- TokenChunking.SplitTokenSpec(tok, text, maxTokens);
    if chunks == [] then Err(EmptyInput) else Ok(chunks)
  }

  const EmptyInput: Error := ValueError("入力テキストが空です")

  /** `_summarize_final`: one more request on the kept summaries joined by newlines. */
  function SummarizeFinal(llm: Llm, summaries: seq<string>): Result<string>
  {
    llm(Join("\n", summaries))
  }

  /** What `summarize_text` returns or raises, with the texts it submits. */
  datatype Summary = Summary(result: Result<string>, sent: seq<string>)

  function SummarizeTextSpec(llm: Llm, tok: TokenChunking.Tokenizer, text: string, maxTokens: int, batchSize: int): Summary
  {
    match SplitTextChunks(tok, text, maxTokens)
    case Err(e) => Summary(Err(e), [])
    case Ok(chunks) =>
      if batchSize == 0 then Summary(Err(ZeroStep), [])
      else
        var kept := if batchSize > 0 then KeepOk(Results(llm, chunks)) else [];
        var sent := if batchSize > 0 then chunks else [];
        var combined := Join("\n", kept);
        Summary(SummarizeFinal(llm, kept), sent + [combined])
  }

  /** `summarize_text`: split, summarise in batches, reduce. */
  method SummarizeText(llm: Llm, tok: TokenChunking.Tokenizer, text: string, maxTokens: int, batchSize: int)
    returns (r: Result<string>, sent: seq<string>)
    ensures Summary(r, sent) == SummarizeTextSpec(llm, tok, text, maxTokens, batchSize)
  {
    var chunks := TokenChunking.SplitToken(tok, text, maxTokens);
    if chunks.Err? {
      return Err(chunks.error), [];
    }
    if chunks.value == [] {
      return Err(EmptyInput), [];
    }
    var summaries;
    summaries, sent := SummarizeChunksInBatches(llm, chunks.value, batchSize);
    if summaries.Err? {
      return Err(summaries.error), sent;
    }
    var combined := Join("\n", summaries.value);
    r := SummarizeFinal(llm, summaries.value);
    sent := sent + [combined];
  }

  /** With a positive batch size and at least one chunk, the service sends each
      chunk once, in chunk order, then exactly one reduction request on the
      kept summaries joined by "\n": N + 1 requests in all. The reduction's
      outcome, an exception included, is the result. */
  lemma SummarizeTextRequests(llm: Llm, tok: TokenChunking.Tokenizer, text: string, maxTokens: int, batchSize: int)
    requires batchSize > 0
    requires TokenChunking.SplitTokenSpec(tok, text, maxTokens).Ok?
    requires TokenChunking.SplitTokenSpec(tok, text, maxTokens).value != []
    ensures var chunks := TokenChunking.SplitTokenSpec(tok, text, maxTokens).value;
      var s := SummarizeTextSpec(llm, tok, text, maxTokens, batchSize);
      var kept := KeepOk(Results(llm, chunks));
      && |s.sent| == |chunks| + 1
      && s.sent[..|chunks|] == chunks
      && s.sent[|chunks|] == Join("\n", kept)
      && s.result == llm(Join("\n", kept))
  {
    var chunks := TokenChunking.SplitTokenSpec(tok, text, maxTokens).value;
    assert (chunks + [Join("\n", KeepOk(Results(llm, chunks)))])[..|chunks|] == chunks;
  }

  /** No chunks means ValueError "入力テキストが空です" and no request at all;
      an empty text is one such case. */
  lemma SummarizeTextEmpty(llm: Llm, tok: TokenChunking.Tokenizer, text: string, maxTokens: int, batchSize: int)
    requires TokenChunking.SplitTokenSpec(tok, text, maxTokens) == Ok([])
    ensures SummarizeTextSpec(llm, tok, text, maxTokens, batchSize) == Summary(Err(EmptyInput), [])
  {
  }
}
