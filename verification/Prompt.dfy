/**
 Assembling the prompt: retrieved passages are admitted while they fit into
 their share of the token budget, then the oldest messages are dropped until
 the rest fits beside them.
 */
module Prompts {
  import opened Prelude

  const RESERVE_DIVISOR := 4

  type Tokenizer = string -> nat

  lemma {:induction false} SumSplit(tokens: seq<nat>, k: nat)
    requires k <= |tokens|
    ensures Sum(tokens) == Sum(tokens[..k]) + Sum(tokens[k..])
  {
    if k == |tokens| {
      assert tokens[..k] == tokens;
    } else {
      var n := |tokens| - 1;
      SumSplit(tokens[..n], k);
      assert tokens[..n][..k] == tokens[..k] && tokens[..n][k..] == tokens[k..][..n - k];
    }
  }

  lemma SumAppend(tokens: seq<nat>, x: nat)
    ensures Sum(tokens + [x]) == Sum(tokens) + x
  {
    assert (tokens + [x])[..|tokens|] == tokens;
  }

  function Counts(count: Tokenizer, texts: seq<string>): seq<nat> {
    seq(|texts|, i requires 0 <= i < |texts| => count(texts[i]))
  }

  function Join(texts: seq<string>): string {
    if texts == [] then "" else Join(texts[..|texts| - 1]) + texts[|texts| - 1]
  }

  /** Where text `i` begins in the joined string. */
  function Offset(texts: seq<string>, i: nat): nat
    requires i <= |texts|
  {
    if i == 0 then 0 else Offset(texts, i - 1) + |texts[i - 1]|
  }

  lemma {:induction false} OffsetFront(texts: seq<string>, n: nat, i: nat)
    requires i <= n <= |texts|
    ensures Offset(texts[..n], i) == Offset(texts, i)
  {
    if i > 0 { OffsetFront(texts, n, i - 1); }
  }

  /** The texts are joined in their order, with nothing in between. */
  lemma {:induction false} JoinMeans(texts: seq<string>, i: nat)
    requires i < |texts|
    ensures |Join(texts)| == Offset(texts, |texts|) && Offset(texts, i) + |texts[i]| <= |Join(texts)|
    ensures Join(texts)[Offset(texts, i)..Offset(texts, i) + |texts[i]|] == texts[i]
  {
    var n := |texts| - 1;
    var front := Join(texts[..n]);
    OffsetFront(texts, n, n);
    if n > 0 { JoinMeans(texts[..n], if i < n then i else 0); }
    if i < n {
      OffsetFront(texts, n, i);
      var at := Offset(texts, i);
      assert Join(texts)[at..at + |texts[i]|] == front[at..at + |texts[i]|];
    } else {
      assert |front| == Offset(texts, n);
    }
  }

  // ---- retrieved passages ------------------------------------------------------------------

  /** What retrieval may use at most. */
  function RagLimit(maxTokens: nat, reserved: nat): (r: nat)
    ensures r <= maxTokens
    ensures r == MinusSat(maxTokens, Max(reserved, maxTokens / RESERVE_DIVISOR))
  {
    MinusSat(maxTokens, Min(Max(reserved, maxTokens / RESERVE_DIVISOR), maxTokens))
  }

  /** `admitted` are the positions of the passages taken so far, in order. */
  ghost predicate Positions(admitted: seq<nat>, n: nat) {
    && (forall i :: 0 <= i < |admitted| ==> admitted[i] < n)
    && (forall i, j :: 0 <= i < j < |admitted| ==> admitted[i] < admitted[j])
  }

  /** None of the first `n` passages that were left out fits beside what was admitted. */
  ghost predicate LeftOutMisfit(count: Tokenizer, passages: seq<string>, admitted: seq<nat>, n: nat, tokens: nat, limit: nat)
    requires n <= |passages|
  {
    forall i :: 0 <= i < n && i !in admitted ==> tokens + count(passages[i]) > limit
  }

  ghost predicate AreAt(texts: seq<string>, passages: seq<string>, admitted: seq<nat>) {
    |texts| == |admitted| && forall i :: 0 <= i < |admitted| ==> admitted[i] < |passages| && texts[i] == passages[admitted[i]]
  }

  lemma AdmitOne(count: Tokenizer, passages: seq<string>, admitted: seq<nat>, texts: seq<string>, n: nat, tokens: nat, limit: nat)
    requires n < |passages| && Positions(admitted, n) && AreAt(texts, passages, admitted)
    requires LeftOutMisfit(count, passages, admitted, n, tokens, limit)
    ensures var cost := count(passages[n]);
            && Positions(admitted + [n], n + 1) && AreAt(texts + [passages[n]], passages, admitted + [n])
            && LeftOutMisfit(count, passages, admitted + [n], n + 1, tokens + cost, limit)
            && Sum(Counts(count, texts + [passages[n]])) == Sum(Counts(count, texts)) + cost
  {
    var cost := count(passages[n]);
    SumAppend(Counts(count, texts), cost);
    assert Counts(count, texts + [passages[n]]) == Counts(count, texts) + [cost];
    assert forall i :: i in admitted ==> i in admitted + [n];
    assert n in admitted + [n];
  }

  /**
   Admits each passage that still fits.  Nothing that was left out would fit
   beside what was admitted in the end.
   */
  method AdmitPassages(count: Tokenizer, passages: seq<string>, envelope: nat, limit: nat)
    returns (admitted: seq<nat>, texts: seq<string>, tokens: nat)
    ensures Positions(admitted, |passages|) && AreAt(texts, passages, admitted)
    ensures tokens == envelope + Sum(Counts(count, texts))
    ensures admitted != [] ==> tokens <= limit
    ensures LeftOutMisfit(count, passages, admitted, |passages|, tokens, limit)
  {
    admitted, texts, tokens := [], [], envelope;
    var i := 0;
    while i < |passages|
      invariant 0 <= i <= |passages| && Positions(admitted, i) && AreAt(texts, passages, admitted)
      invariant tokens == envelope + Sum(Counts(count, texts))
      invariant admitted != [] ==> tokens <= limit
      invariant LeftOutMisfit(count, passages, admitted, i, tokens, limit)
    {
      var cost := count(passages[i]);
      if tokens + cost <= limit {
        AdmitOne(count, passages, admitted, texts, i, tokens, limit);
        texts, admitted, tokens := texts + [passages[i]], admitted + [i], tokens + cost;
      }
      i := i + 1;
    }
  }

  // ---- history -------------------------------------------------------------------------------

  /** `k` is the smallest number of oldest messages whose removal makes the rest fit into `room`. */
  ghost predicate LongestFit(costs: seq<nat>, k: nat, room: int) {
    && k <= |costs|
    && (Sum(costs[k..]) <= room || k == |costs|)
    && forall j :: 0 <= j < k ==> Sum(costs[j..]) > room
  }

  /** Drops the oldest messages while the prompt is too long. */
  method TrimHistory(costs: seq<nat>, rag: nat, limit: nat) returns (k: nat, tokens: nat)
    requires rag <= limit
    ensures LongestFit(costs, k, limit - rag) && tokens == Sum(costs[k..]) <= limit - rag
  {
    k, tokens := 0, 0;
    while k < |costs|
      invariant 0 <= k <= |costs| && tokens == Sum(costs[..k])
    {
      assert costs[..k + 1][..k] == costs[..k];
      tokens, k := tokens + costs[k], k + 1;
    }
    assert costs[..k] == costs;
    k := 0;
    assert costs[0..] == costs;
    while k < |costs| && rag + tokens > limit
      invariant 0 <= k <= |costs| && tokens == Sum(costs[k..])
      invariant forall j :: 0 <= j < k ==> Sum(costs[j..]) > limit - rag
    {
      SumSplit(costs[k..], 1);
      assert costs[k..][..1] == [costs[k]] && costs[k..][1..] == costs[k + 1..];
      SumAppend([], costs[k]);
      assert [] + [costs[k]] == [costs[k]];
      tokens, k := tokens - costs[k], k + 1;
    }
    if k == |costs| { assert costs[k..] == []; }
  }

  // ---- the prompt ------------------------------------------------------------------------------

  datatype Prompt = Prompt(text: string, tokens: nat, ragHit: bool)

  function Block(header: string, texts: seq<string>, footer: string): string {
    if texts == [] then "" else header + Join(texts) + footer
  }

  /**
   The prompt fits the budget, retrieval stays within its share, and the kept
   history is the longest suffix that fits beside the passages.
   */
  method BuildPrompt(
    count: Tokenizer, passages: seq<string>, messages: seq<string>, header: string, footer: string, maxTokens: nat, reserved: nat)
    returns (prompt: Prompt, admitted: seq<nat>, rag: nat, dropped: nat)
    ensures prompt.tokens <= maxTokens && rag <= RagLimit(maxTokens, reserved)
    ensures Positions(admitted, |passages|) && prompt.ragHit == (admitted != [])
    ensures var texts := seq(|admitted|, i requires 0 <= i < |admitted| && admitted[i] < |passages| => passages[admitted[i]]);
            && rag == (if admitted == [] then 0 else count(header + footer) + Sum(Counts(count, texts)))
            && dropped <= |messages|
            && prompt.text == (if admitted == [] then "" else header + Join(texts) + footer) + Join(messages[dropped..])
            && prompt.tokens == rag + Sum(Counts(count, messages)[dropped..])
            && LeftOutMisfit(count, passages, admitted, |passages|, count(header + footer) + Sum(Counts(count, texts)),
                 RagLimit(maxTokens, reserved))
    ensures LongestFit(Counts(count, messages), dropped, maxTokens - rag)
  {
    var envelope := if passages == [] then 0 else count(header + footer);
    var texts;
    admitted, texts, rag := AdmitPassages(count, passages, envelope, RagLimit(maxTokens, reserved));
    assert texts == seq(|admitted|, i requires 0 <= i < |admitted| && admitted[i] < |passages| => passages[admitted[i]]);
    if texts == [] { rag := 0; }
    var tokens;
    dropped, tokens := TrimHistory(Counts(count, messages), rag, maxTokens);
    prompt := Prompt(Block(header, texts, footer) + Join(messages[dropped..]), rag + tokens, texts != []);
  }
}
