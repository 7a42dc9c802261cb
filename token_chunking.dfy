/** Token-window chunking: the text is encoded once, the token sequence is cut
    into consecutive windows of at most `max_tokens` tokens, and each window is
    decoded back to text. The tokenizer itself is left abstract. */
module TokenChunking {
  import opened Common

  type Token = nat

  /** The tokenizer of the "gpt-4o" model: any pair of encode and decode functions. */
  datatype Tokenizer = Tokenizer(encode: string -> seq<Token>, decode: seq<Token> -> string)

  /** The windows `tokens[i:i + max]` for `i` in `range(0, len(tokens), max)`. */
  function Windows(tokens: seq<Token>, max: nat): seq<seq<Token>>
    requires max > 0
    decreases |tokens|
  {
    if |tokens| == 0 then []
    else if |tokens| <= max then [tokens]
    else [tokens[..max]] + Windows(tokens[max..], max)
  }

  function Flatten(ws: seq<seq<Token>>): seq<Token>
  {
    if ws == [] then [] else ws[0] + Flatten(ws[1..])
  }

  /** Each window decoded, in window order. */
  function DecodeAll(tok: Tokenizer, ws: seq<seq<Token>>): (r: seq<string>)
    ensures |r| == |ws| && forall k :: 0 <= k < |ws| ==> r[k] == tok.decode(ws[k])
  {
    seq(|ws|, k requires 0 <= k < |ws| => tok.decode(ws[k]))
  }

  /** What `split_token(text, max_tokens)` returns or raises. An empty text
      gives no chunks before anything is encoded; `range` with step 0 raises
      and with a negative step yields nothing. */
  function SplitTokenSpec(tok: Tokenizer, text: string, maxTokens: int): Result<seq<string>>
  {
    if text == "" then Ok([])
    else if maxTokens == 0 then Err(ZeroStep)
    else if maxTokens < 0 then Ok([])
    else Ok(DecodeAll(tok, Windows(tok.encode(text), maxTokens)))
  }

  /** `split_token`: the loop over `range(0, len(tokens), max_tokens)`. */
  method SplitToken(tok: Tokenizer, text: string, maxTokens: int) returns (r: Result<seq<string>>)
    ensures r == SplitTokenSpec(tok, text, maxTokens)
  {
    if text == "" {
      return Ok([]);
    }
    var tokens := tok.encode(text);
    if maxTokens == 0 {
      return Err(ZeroStep);
    }
    var chunks: seq<string> := [];
    if maxTokens > 0 {
      ghost var done: seq<seq<Token>> := [];
      var i := 0;
      while i < |tokens|
        invariant 0 <= i
        invariant Windows(tokens, maxTokens) == done + Windows(if i < |tokens| then tokens[i..] else [], maxTokens)
        invariant |chunks| == |done| && forall k :: 0 <= k < |done| ==> chunks[k] == tok.decode(done[k])
        decreases |tokens| - i
      {
        var end := if i + maxTokens < |tokens| then i + maxTokens else |tokens|;
        var chunkTokens := tokens[i..end];
        WindowsStep(tokens, maxTokens, i);
        done := done + [chunkTokens];
        chunks := chunks + [tok.decode(chunkTokens)];
        i := i + maxTokens;
      }
      assert done == Windows(tokens, maxTokens);
      assert chunks == DecodeAll(tok, done);
    }
    return Ok(chunks);
  }

  /** The windows from `i` on: the one starting at `i`, then those from `i + max`. */
  lemma WindowsStep(tokens: seq<Token>, max: nat, i: nat)
    requires max > 0 && i < |tokens|
    ensures Windows(tokens[i..], max)
            == [tokens[i..Min(i + max, |tokens|)]] + Windows(if i + max < |tokens| then tokens[i + max..] else [], max)
  {
    var rest := tokens[i..];
    if |rest| > max {
      assert rest[..max] == tokens[i..i + max] && rest[max..] == tokens[i + max..];
      assert Windows(rest, max) == [rest[..max]] + Windows(rest[max..], max);
    } else {
      assert tokens[i..Min(i + max, |tokens|)] == rest;
      assert Windows(rest, max) == [rest];
      assert Windows([], max) == [];
    }
  }

  /** The windows put back together are the whole token sequence, in order:
      consecutive and non-overlapping. */
  lemma {:induction false} WindowsConcat(tokens: seq<Token>, max: nat)
    requires max > 0
    ensures Flatten(Windows(tokens, max)) == tokens
    decreases |tokens|
  {
    if |tokens| > max {
      WindowsConcat(tokens[max..], max);
      assert tokens == tokens[..max] + tokens[max..];
    } else if |tokens| > 0 {
      assert Flatten([tokens]) == tokens + Flatten([]);
    }
  }

  /** Every window holds between 1 and `max` tokens, and every window but the
      last holds exactly `max`. */
  lemma {:induction false} WindowsSizes(tokens: seq<Token>, max: nat)
    requires max > 0
    ensures forall k :: 0 <= k < |Windows(tokens, max)| ==> 0 < |Windows(tokens, max)[k]| <= max
    ensures forall k :: 0 <= k < |Windows(tokens, max)| - 1 ==> |Windows(tokens, max)[k]| == max
    decreases |tokens|
  {
    if |tokens| > max {
      WindowsSizes(tokens[max..], max);
      var w := Windows(tokens, max);
      assert w == [tokens[..max]] + Windows(tokens[max..], max);
      forall k | 1 <= k < |w| ensures w[k] == Windows(tokens[max..], max)[k - 1] { }
    }
  }

  function Min(a: int, b: int): int
  {
    if a < b then a else b
  }

  /** Window k is `tokens[k * max : k * max + max]`: the windows follow token order. */
  lemma {:induction false} WindowAt(tokens: seq<Token>, max: nat, k: nat)
    requires max > 0 && k < |Windows(tokens, max)|
    ensures k * max < |tokens|
    ensures Windows(tokens, max)[k] == tokens[k * max .. Min(k * max + max, |tokens|)]
    decreases |tokens|
  {
    if k > 0 {
      assert |tokens| > max;
      var rest := tokens[max..];
      assert Windows(tokens, max)[k] == Windows(rest, max)[k - 1];
      WindowAt(rest, max, k - 1);
      assert k * max == max + (k - 1) * max;
      assert rest[(k - 1) * max .. Min((k - 1) * max + max, |rest|)]
          == tokens[k * max .. Min(k * max + max, |tokens|)];
    }
  }

  /** There are ceil(len(tokens) / max) windows. */
  lemma {:induction false} WindowsCount(tokens: seq<Token>, max: nat)
    requires max > 0
    ensures |Windows(tokens, max)| == (|tokens| + max - 1) / max
    decreases |tokens|
  {
    var n := |tokens|;
    if n == 0 {
      assert (max - 1) / max == 0;
    } else if n <= max {
      assert max <= n + max - 1 < 2 * max;
      DivisionIsOne(n + max - 1, max);
    } else {
      WindowsCount(tokens[max..], max);
      DivisionStep(n - 1, max);
    }
  }

  lemma DivisionIsOne(x: int, d: int)
    requires 0 < d <= x < 2 * d
    ensures x / d == 1
  {
  }

  lemma DivisionStep(x: int, d: int)
    requires 0 < d && 0 <= x
    ensures (x + d) / d == x / d + 1
  {
    var q, r := x / d, x % d;
    assert x == d * q + r && 0 <= r < d;
    assert x + d == d * (q + 1) + r;
    DivisionUnique(x + d, d, q + 1, r);
  }

  lemma DivisionUnique(a: int, d: int, q: int, r: int)
    requires 0 < d && 0 <= r < d && a == d * q + r
    ensures a / d == q
  {
    var q', r' := a / d, a % d;
    var k := q' - q;
    assert d * k == r - r' by {
      assert a == d * q' + r';
      assert d * q' == d * q + d * k;
    }
    if k >= 1 {
      MultipleAtLeast(d, k);
    } else if k <= -1 {
      MultipleAtLeast(d, -k);
    }
  }

  lemma {:induction false} MultipleAtLeast(d: int, k: int)
    requires d > 0 && k >= 1
    ensures d * k >= d
    decreases k
  {
    if k > 1 {
      MultipleAtLeast(d, k - 1);
      assert d * k == d * (k - 1) + d;
    }
  }

  /** An empty text is never encoded and gives no chunks; a non-empty text with
      a positive window size gives ceil(len/max) chunks, each decoded from one
      window of at most `max_tokens` tokens, the windows together being the
      encoded text. */
  lemma SplitTokenChunks(tok: Tokenizer, text: string, maxTokens: int)
    ensures text == "" ==> SplitTokenSpec(tok, text, maxTokens) == Ok([])
    ensures text != "" && maxTokens > 0 ==>
      var ws := Windows(tok.encode(text), maxTokens);
      && SplitTokenSpec(tok, text, maxTokens) == Ok(DecodeAll(tok, ws))
      && Flatten(ws) == tok.encode(text)
      && |ws| == (|tok.encode(text)| + maxTokens - 1) / maxTokens
      && (forall k :: 0 <= k < |ws| ==> 0 < |ws[k]| <= maxTokens)
      && (forall k :: 0 <= k < |ws| - 1 ==> |ws[k]| == maxTokens)
  {
    if text != "" && maxTokens > 0 {
      var tokens := tok.encode(text);
      WindowsConcat(tokens, maxTokens);
      WindowsSizes(tokens, maxTokens);
      WindowsCount(tokens, maxTokens);
    }
  }
}
