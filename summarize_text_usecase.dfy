/** The summarisation use case: the same split, batch and reduce steps as the
    summarisation service, with windows of 7500 tokens and batches of 5, except
    that it raises when every chunk request failed, and that every exception is
    re-raised as one HTTP 500 error. */
module SummarizeTextUseCase {
  import opened Common
  import TokenChunking
  import TextSummarization

  const MaxTokens: int := 7500
  const BatchSize: int := 5

  const AllFailed: Error := ValueError("要約の生成に失敗しました")
  const WrapPrefix: string := "テキスト要約中にエラーが発生しました: "

  /** Every exception of `execute` leaves as an HTTP 500 carrying its message. */
  function Wrap(e: Error): (w: Error)
    ensures w.HttpError? && w.status == 500 && w.detail == WrapPrefix + Str(e)
  {
    HttpError(500, WrapPrefix + Str(e))
  }

  /** What `execute` returns or raises, and the texts it submits to the model. */
  function ExecuteSpec(llm: TextSummarization.Llm, tok: TokenChunking.Tokenizer, text: string): TextSummarization.Summary
  {
    match TokenChunking.SplitTokenSpec(tok, text, MaxTokens)
    case Err(e) => TextSummarization.Summary(Err(Wrap(e)), [])
    case Ok(chunks) =>
      if chunks == [] then TextSummarization.Summary(Err(Wrap(TextSummarization.EmptyInput)), [])
      else
        var kept := TextSummarization.KeepOk(TextSummarization.Results(llm, chunks));
        if kept == [] then TextSummarization.Summary(Err(Wrap(AllFailed)), chunks)
        else
          var combined := Join("\n", kept);
          var final := llm(combined);
          TextSummarization.Summary(if final.Ok? then final else Err(Wrap(final.error)), chunks + [combined])
  }

  /** `execute`, with `_run_in_batches` as the service's batch loop (the two loops
      are the same) and `_create_final_summary` as the last request. */
  method Execute(llm: TextSummarization.Llm, tok: TokenChunking.Tokenizer, text: string)
    returns (r: Result<string>, sent: seq<string>)
    ensures TextSummarization.Summary(r, sent) == ExecuteSpec(llm, tok, text)
  {
    sent := [];
    var chunks := TokenChunking.SplitToken(tok, text, MaxTokens);
    if chunks.Err? {
      return Err(Wrap(chunks.error)), sent;
    }
    if chunks.value == [] {
      return Err(Wrap(TextSummarization.EmptyInput)), sent;
    }
    var summaries;
    summaries, sent := TextSummarization.SummarizeChunksInBatches(llm, chunks.value, BatchSize);
    if summaries.value == [] {
      return Err(Wrap(AllFailed)), sent;
    }
    var combined := Join("\n", summaries.value);
    var final := llm(combined);
    sent := sent + [combined];
    r := if final.Ok? then final else Err(Wrap(final.error));
  }

  /** Every failure of the use case is an HTTP 500 whose detail starts with
      "テキスト要約中にエラーが発生しました: "; an empty chunking reports
      "入力テキストが空です" and requests nothing. */
  lemma ExecuteErrorsAreWrapped(llm: TextSummarization.Llm, tok: TokenChunking.Tokenizer, text: string)
    ensures var r := ExecuteSpec(llm, tok, text).result;
      r.Err? ==> (r.error.HttpError? && r.error.status == 500
                  && |WrapPrefix| <= |r.error.detail| && r.error.detail[..|WrapPrefix|] == WrapPrefix)
    ensures TokenChunking.SplitTokenSpec(tok, text, MaxTokens) == Ok([]) ==>
      ExecuteSpec(llm, tok, text) == TextSummarization.Summary(Err(HttpError(500, WrapPrefix + "入力テキストが空です")), [])
  {
  }

  /** When every chunk request fails the use case raises "要約の生成に失敗しました"
      (wrapped) without a reduction request; when at least one succeeds it makes
      exactly one reduction request on the kept summaries joined by "\n". */
  lemma {:induction false} ExecuteAllFailPolicy(llm: TextSummarization.Llm, tok: TokenChunking.Tokenizer, text: string)
    requires TokenChunking.SplitTokenSpec(tok, text, MaxTokens).Ok?
    requires TokenChunking.SplitTokenSpec(tok, text, MaxTokens).value != []
    ensures var chunks := TokenChunking.SplitTokenSpec(tok, text, MaxTokens).value;
      var s := ExecuteSpec(llm, tok, text);
      && ((forall i :: 0 <= i < |chunks| ==> llm(chunks[i]).Err?) <==> s.result == Err(Wrap(AllFailed)) && s.sent == chunks)
      && ((exists i :: 0 <= i < |chunks| && llm(chunks[i]).Ok?) ==>
            var kept := TextSummarization.KeepOk(TextSummarization.Results(llm, chunks));
            s.sent == chunks + [Join("\n", kept)])
  {
    var chunks := TokenChunking.SplitTokenSpec(tok, text, MaxTokens).value;
    var rs := TextSummarization.Results(llm, chunks);
    TextSummarization.KeepOkEmptyIffAllFailed(rs);
    var kept := TextSummarization.KeepOk(rs);
    if kept != [] {
      var i :| 0 <= i < |rs| && rs[i].Ok?;
      assert |ExecuteSpec(llm, tok, text).sent| == |chunks| + 1;
    }
  }
}
