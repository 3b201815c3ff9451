/** `CallAi`: counts tokens and chooses how much conversation history fits a
    token budget before the prompt is rendered with the Phi-3 template. The
    tokenizer and the native generator are parameters. Counters are C#
    `ulong`s, so sums wrap modulo 2^64; the limit is an `int` converted to
    `ulong`. */
module CallAi {
  import opened Wrappers
  import opened ChatTemplate

  const TWO_64: int := 0x1_0000_0000_0000_0000
  const TWO_32: int := 0x1_0000_0000

  type U64 = x: int | 0 <= x < TWO_64
  type Int32 = x: int | -0x8000_0000 <= x < 0x8000_0000

  /** `a + b` on `ulong` (unchecked): the carry out of bit 63 is dropped. */
  function AddU64(a: U64, b: U64): (r: U64)
    ensures r == (a + b) % TWO_64
  {
    if a + b < TWO_64 then a + b else a + b - TWO_64
  }

  /** `(ulong)x` for an `int`: two's complement reinterpretation, so a
      negative value lands near the top of the range. */
  function ToULong(x: Int32): (r: U64)
    ensures r == x % TWO_64
  {
    if x < 0 then x + TWO_64 else x
  }

  /** `(int)x` for a `ulong` (unchecked): the low 32 bits, read as signed. */
  function ToInt32(x: U64): (r: Int32)
    ensures r % TWO_32 == x % TWO_32
    ensures x < 0x8000_0000 ==> r == x
  {
    var low := x % TWO_32;
    if low >= 0x8000_0000 then low - TWO_32 else low
  }

  lemma ModAdd(a: int, b: int)
    ensures (a % TWO_64 + b % TWO_64) % TWO_64 == (a + b) % TWO_64
  {
    var qa, qb := a / TWO_64, b / TWO_64;
    assert a == qa * TWO_64 + a % TWO_64;
    assert b == qb * TWO_64 + b % TWO_64;
    assert a + b == (qa + qb) * TWO_64 + (a % TWO_64 + b % TWO_64);
  }

  /** Wrapping addition is associative, so `t + q + a` and `t += q + a` agree. */
  lemma AddU64Assoc(t: U64, q: U64, a: U64)
    ensures AddU64(AddU64(t, q), a) == AddU64(t, AddU64(q, a))
  {
  }

  /** The exact number of tokens over all encoded sequences. */
  function SumLengths(sequences: seq<seq<int>>): nat {
    if |sequences| == 0 then 0 else SumLengths(sequences[..|sequences| - 1]) + |sequences[|sequences| - 1]|
  }

  /** `CountTokens`: adds up the lengths of the sequences the tokenizer
      produced, in a `ulong`; the count is the exact total modulo 2^64. */
  method CountTokens(promptTokens: seq<seq<int>>) returns (tokenCount: U64)
    ensures tokenCount == SumLengths(promptTokens) % TWO_64
    ensures SumLengths(promptTokens) < TWO_64 ==> tokenCount == SumLengths(promptTokens)
  {
    tokenCount := 0;
    var i := 0;
    while i < |promptTokens|
      invariant 0 <= i <= |promptTokens|
      invariant tokenCount == SumLengths(promptTokens[..i]) % TWO_64
    {
      ModAdd(SumLengths(promptTokens[..i]), |promptTokens[i]|);
      assert promptTokens[..i + 1][..i] == promptTokens[..i];
      tokenCount := AddU64(tokenCount, |promptTokens[i]| % TWO_64);   // (ulong)tokenSpan.Length
      i := i + 1;
    }
    assert promptTokens[..i] == promptTokens;
  }

  /** The token count of a text under a tokenizer, as `CountTokens` computes it. */
  function Tokens(encode: string -> seq<seq<int>>, text: string): U64 {
    SumLengths(encode(text)) % TWO_64
  }

  /** `CountTokens` with the tokenizer fixed, as the history scan uses it. */
  function TokenCounter(encode: string -> seq<seq<int>>): string -> U64 {
    text => Tokens(encode, text)
  }

  /** One entry of the conversation history. */
  datatype Turn = Turn(userQuestion: string, aiResponse: string)

  /** Whether accepting `turn` on top of `total` breaks the limit, as the loop
      tests it (`totalInputTokens + userQuestionTokens + aiResponseTokens`). */
  predicate Overflows(count: string -> U64, turn: Turn, total: U64, limit: U64) {
    AddU64(AddU64(total, count(turn.userQuestion)), count(turn.aiResponse)) > limit
  }

  /** The history loop: walks from the newest turn to the oldest, keeping turns
      while the running total stays within the limit and stopping at the first
      turn that does not fit. Returns the kept turns newest first and the final
      total. */
  function Scan(count: string -> U64, history: seq<Turn>, total: U64, limit: U64)
    : (r: (seq<Turn>, U64))
    requires total <= limit
    ensures |r.0| <= |history|
    ensures forall j | 0 <= j < |r.0| :: r.0[j] == history[|history| - 1 - j]
    ensures r.1 <= limit
    ensures |r.0| < |history| ==> Overflows(count, history[|history| - 1 - |r.0|], r.1, limit)
    decreases |history|
  {
    if |history| == 0 then ([], total)
    else
      var turn := history[|history| - 1];
      var q := count(turn.userQuestion);
      var a := count(turn.aiResponse);
      // the test adds `q` then `a`; the update adds `q + a`: the same value
      // by AddU64Assoc
      var next := AddU64(AddU64(total, q), a);
      if next > limit then ([], total)
      else
        var rest := Scan(count, history[..|history| - 1], next, limit);
        ([turn] + rest.0, rest.1)
  }

  /** The exact token cost of the newest `k` turns. */
  function NewestCost(count: string -> U64, history: seq<Turn>, k: nat): nat
    requires k <= |history|
    decreases k
  {
    if k == 0 then 0
    else
      var turn := history[|history| - 1];
      count(turn.userQuestion) + count(turn.aiResponse)
      + NewestCost(count, history[..|history| - 1], k - 1)
  }

  lemma {:induction false} NewestCostMonotone(count: string -> U64, history: seq<Turn>, j: nat, k: nat)
    requires j <= k <= |history|
    ensures NewestCost(count, history, j) <= NewestCost(count, history, k)
    decreases k
  {
    if j < k {
      if j == 0 {
      } else {
        NewestCostMonotone(count, history[..|history| - 1], j - 1, k - 1);
      }
    }
  }

  /** When no sum wraps, the final total is the exact cost of the kept turns
      on top of the starting total. */
  lemma {:induction false} ScanTotalIsExact(count: string -> U64, history: seq<Turn>,
                                            total: U64, limit: U64)
    requires total <= limit
    requires total + NewestCost(count, history, |history|) < TWO_64
    ensures Scan(count, history, total, limit).1
            == total + NewestCost(count, history, |Scan(count, history, total, limit).0|)
    decreases |history|
  {
    if |history| > 0 {
      var turn := history[|history| - 1];
      var cost := total + count(turn.userQuestion) + count(turn.aiResponse);
      var prefix := history[..|history| - 1];
      NewestCostStep(count, history, |prefix|);
      if cost <= limit {
        var rest := Scan(count, prefix, cost, limit);
        ScanKeeps(count, history, total, limit);
        assert rest.1 == cost + NewestCost(count, prefix, |rest.0|) by {
          ScanTotalIsExact(count, prefix, cost, limit);
        }
        assert NewestCost(count, history, |rest.0| + 1)
               == count(turn.userQuestion) + count(turn.aiResponse) + NewestCost(count, prefix, |rest.0|) by {
          NewestCostStep(count, history, |rest.0|);
        }
      } else {
        ScanStops(count, history, total, limit);
      }
    }
  }

  /** ScanTotalIsExact, for callers that cannot rule out wrap-around. */
  lemma ScanTotalWhenNoWrap(count: string -> U64, history: seq<Turn>, total: U64, limit: U64)
    requires total <= limit
    ensures total + NewestCost(count, history, |history|) < TWO_64 ==>
              Scan(count, history, total, limit).1
              == total + NewestCost(count, history, |Scan(count, history, total, limit).0|)
  {
    if total + NewestCost(count, history, |history|) < TWO_64 {
      ScanTotalIsExact(count, history, total, limit);
    }
  }

  /** When no sum wraps, the scan stops only where the next older turn's
      exact cost no longer fits. */
  lemma ScanStopsAtFirstMisfit(count: string -> U64, history: seq<Turn>, total: U64, limit: U64)
    requires total <= limit
    requires total + NewestCost(count, history, |history|) < TWO_64
    ensures var n := |Scan(count, history, total, limit).0|;
            n < |history| ==> total + NewestCost(count, history, n + 1) > limit
  {
    var r := Scan(count, history, total, limit);
    var n := |r.0|;
    if n < |history| {
      var turn := history[|history| - 1 - n];
      var q, a := count(turn.userQuestion), count(turn.aiResponse);
      assert r.1 == total + NewestCost(count, history, n) by {
        ScanTotalIsExact(count, history, total, limit);
      }
      assert NewestCost(count, history, n) + q + a <= NewestCost(count, history, |history|) by {
        NewestCostExtend(count, history, n);
        NewestCostMonotone(count, history, n + 1, |history|);
      }
      assert AddU64(AddU64(r.1, q), a) == r.1 + q + a by {
        SmallSum(r.1, q);
        SmallSum(r.1 + q, a);
      }
      NewestCostExtend(count, history, n);
    }
  }

  /** The scan keeps the newest turn when its exact cost fits, and continues
      from the exact total. */
  lemma ScanKeeps(count: string -> U64, history: seq<Turn>, total: U64, limit: U64)
    requires total <= limit && |history| > 0
    requires total + count(history[|history| - 1].userQuestion)
             + count(history[|history| - 1].aiResponse) <= limit
    ensures var turn := history[|history| - 1];
            var rest := Scan(count, history[..|history| - 1],
                             total + count(turn.userQuestion) + count(turn.aiResponse), limit);
            |Scan(count, history, total, limit).0| == |rest.0| + 1
            && Scan(count, history, total, limit).1 == rest.1
  {
    var turn := history[|history| - 1];
    var q := count(turn.userQuestion);
    var a := count(turn.aiResponse);
    SmallSum(total, q);
    SmallSum(total + q, a);
    AddU64Assoc(total, q, a);
  }

  /** The scan keeps nothing when the newest turn's exact cost does not fit. */
  lemma ScanStops(count: string -> U64, history: seq<Turn>, total: U64, limit: U64)
    requires total <= limit && |history| > 0
    requires limit < total + count(history[|history| - 1].userQuestion)
             + count(history[|history| - 1].aiResponse) < TWO_64
    ensures Scan(count, history, total, limit) == ([], total)
  {
    var turn := history[|history| - 1];
    var q := count(turn.userQuestion);
    var a := count(turn.aiResponse);
    SmallSum(total, q);
    SmallSum(total + q, a);
  }

  /** A sum below 2^64 does not wrap. */
  lemma SmallSum(a: U64, b: U64)
    requires a + b < TWO_64
    ensures AddU64(a, b) == a + b
  {
  }

  /** The newest `k + 1` turns cost the newest turn plus the `k` before it. */
  lemma NewestCostStep(count: string -> U64, history: seq<Turn>, k: nat)
    requires k < |history|
    ensures NewestCost(count, history, k + 1)
            == count(history[|history| - 1].userQuestion) + count(history[|history| - 1].aiResponse)
               + NewestCost(count, history[..|history| - 1], k)
  {
  }

  /** The newest `n + 1` turns cost the newest `n` plus the next older one. */
  lemma {:induction false} NewestCostExtend(count: string -> U64, history: seq<Turn>, n: nat)
    requires n < |history|
    ensures NewestCost(count, history, n + 1)
            == NewestCost(count, history, n) + count(history[|history| - 1 - n].userQuestion)
               + count(history[|history| - 1 - n].aiResponse)
    decreases n
  {
    if n > 0 {
      var prefix := history[..|history| - 1];
      NewestCostExtend(count, prefix, n - 1);
      assert prefix[|prefix| - 1 - (n - 1)] == history[|history| - 1 - n];
      NewestCostStep(count, history, n);
      NewestCostStep(count, history, n - 1);
    }
  }

  /** The same result stated without reference to the scan: under no
      wrap-around, `k` newest turns fit exactly when `k` is at most the number
      the scan keeps. An older, smaller turn that would fit is not taken. */
  lemma KeptIsMaximal(count: string -> U64, history: seq<Turn>, total: U64, limit: U64, k: nat)
    requires total <= limit && k <= |history|
    requires total + NewestCost(count, history, |history|) < TWO_64
    ensures total + NewestCost(count, history, k) <= limit <==> k <= |Scan(count, history, total, limit).0|
  {
    var n := |Scan(count, history, total, limit).0|;
    ScanStopsAtFirstMisfit(count, history, total, limit);
    ScanTotalIsExact(count, history, total, limit);
    if k <= n {
      NewestCostMonotone(count, history, k, n);
    } else {
      NewestCostMonotone(count, history, n + 1, k);
    }
  }

  /** The kept turns as chat messages, each a user message then an assistant
      message. */
  function PairMessages(kept: seq<Turn>): (r: seq<AiMessage>)
    ensures |r| == 2 * |kept|
    decreases |kept|
  {
    if |kept| == 0 then []
    else [AiMessage("user", kept[0].userQuestion), AiMessage("assistant", kept[0].aiResponse)]
         + PairMessages(kept[1..])
  }

  /** The `j`-th kept turn sits at positions `2j` and `2j + 1`. */
  lemma {:induction false} PairMessagesAt(kept: seq<Turn>, j: nat)
    requires j < |kept|
    ensures PairMessages(kept)[2 * j] == AiMessage("user", kept[j].userQuestion)
    ensures PairMessages(kept)[2 * j + 1] == AiMessage("assistant", kept[j].aiResponse)
    decreases j
  {
    if j > 0 {
      PairMessagesAt(kept[1..], j - 1);
    }
  }

  /** `pairs` lists the newest turns of `history`, newest first, each as a
      user message followed by an assistant message. */
  predicate NewestFirst(pairs: seq<AiMessage>, history: seq<Turn>) {
    && |pairs| % 2 == 0 && |pairs| <= 2 * |history|
    && forall j | 0 <= j < |history| && 2 * j + 1 < |pairs| ::
         pairs[2 * j] == AiMessage("user", history[|history| - 1 - j].userQuestion)
         && pairs[2 * j + 1] == AiMessage("assistant", history[|history| - 1 - j].aiResponse)
  }

  lemma PairMessagesNewestFirst(kept: seq<Turn>, history: seq<Turn>)
    requires |kept| <= |history|
    requires forall j | 0 <= j < |kept| :: kept[j] == history[|history| - 1 - j]
    ensures NewestFirst(PairMessages(kept), history)
  {
    forall j: nat | j < |kept| {
      PairMessagesAt(kept, j);
    }
  }

  /** A message list that leaves history out does so because the next older
      turn would have broken the limit. */
  predicate StoppedAtOverflow(count: string -> U64, messages: seq<AiMessage>, history: seq<Turn>,
                              total: U64, limit: U64) {
    var k := (|messages| - 2) / 2;
    2 <= |messages| && 0 <= k < |history| ==> Overflows(count, history[|history| - 1 - k], total, limit)
  }

  /** The AiError of the response model. */
  datatype AiError = AiError(error: bool, message: string)

  const PromptTooLong := AiError(true, "The prompt went over the maximum tokens allowed.")

  /** What the budget step hands to the template: the messages and the total
      of input tokens counted. */
  datatype Selection = Selection(messages: seq<AiMessage>, totalInputTokens: U64)

  /** The history a call works on: a null list is an empty one. */
  function HistoryOf(conversationHistory: Option<seq<Turn>>): seq<Turn> {
    if conversationHistory.None? then [] else conversationHistory.value
  }

  /** Lines 44-90 of `GenerateAIResponseV6`: reject a prompt that alone breaks
      the limit, else the system message, the kept turns newest first, and the
      user prompt last. The running total never exceeds the limit. */
  function SelectMessages(encode: string -> seq<seq<int>>, systemPrompt: string, userPrompt: string,
                          conversationHistory: Option<seq<Turn>>, tokenLimit: Int32)
    : (r: Result<Selection, AiError>)
    ensures r.Failure? <==> Tokens(encode, userPrompt) > ToULong(tokenLimit)
    ensures r.Failure? ==> r.error == PromptTooLong
    ensures r.Success? ==>
              var m := r.value.messages;
              var h := HistoryOf(conversationHistory);
              && r.value.totalInputTokens <= ToULong(tokenLimit)
              && |m| >= 2
              && m[0] == AiMessage("system", systemPrompt)
              && m[|m| - 1] == AiMessage("user", userPrompt)
              && NewestFirst(m[1..|m| - 1], h)
              && StoppedAtOverflow(TokenCounter(encode), m, h, r.value.totalInputTokens, ToULong(tokenLimit))
    ensures r.Success? ==>
              var m := r.value.messages;
              var h := HistoryOf(conversationHistory);
              var count := TokenCounter(encode);
              Tokens(encode, userPrompt) + NewestCost(count, h, |h|) < TWO_64 ==>
                r.value.totalInputTokens == Tokens(encode, userPrompt) + NewestCost(count, h, (|m| - 2) / 2)
  {
    var userPromptTokens := Tokens(encode, userPrompt);
    var limit := ToULong(tokenLimit);
    if userPromptTokens > limit then Failure(PromptTooLong)
    else
      var history := HistoryOf(conversationHistory);
      var scan := Scan(TokenCounter(encode), history, userPromptTokens, limit);
      ConversationShape(systemPrompt, scan.0, userPrompt, history);
      ScanTotalWhenNoWrap(TokenCounter(encode), history, userPromptTokens, limit);
      Success(Selection(Conversation(systemPrompt, scan.0, userPrompt), scan.1))
  }

  /** The message list sent to the template: the system prompt, the kept
      turns, the user prompt. */
  function Conversation(systemPrompt: string, kept: seq<Turn>, userPrompt: string): seq<AiMessage> {
    [AiMessage("system", systemPrompt)] + PairMessages(kept) + [AiMessage("user", userPrompt)]
  }

  lemma ConversationShape(systemPrompt: string, kept: seq<Turn>, userPrompt: string, history: seq<Turn>)
    requires |kept| <= |history|
    requires forall j | 0 <= j < |kept| :: kept[j] == history[|history| - 1 - j]
    ensures var m := Conversation(systemPrompt, kept, userPrompt);
            && |m| == 2 * |kept| + 2 && (|m| - 2) / 2 == |kept|
            && m[0] == AiMessage("system", systemPrompt)
            && m[|m| - 1] == AiMessage("user", userPrompt)
            && NewestFirst(m[1..|m| - 1], history)
  {
    var m := Conversation(systemPrompt, kept, userPrompt);
    PairMessagesNewestFirst(kept, history);
    assert m[1..|m| - 1] == PairMessages(kept);
  }

  /** What the native generator produced for a prompt: the text and the
      number of tokens. */
  datatype Generation = Generation(text: string, outputTokens: int)

  /** `AiResponseModel`; an unset `AiError` is None. */
  datatype AiResponse = AiResponse(updatedHistory: seq<Turn>, totalInputTokens: int, totalOutputTokens: int,
                                   aiError: Option<AiError>)

  /** `GenerateAIResponseV6` around the generator: an oversized prompt yields
      the default response carrying the error; otherwise the Phi-3 prompt of
      the selected messages is generated from, and the whole original history
      is returned with the new turn appended. */
  function GenerateAIResponse(encode: string -> seq<seq<int>>, generate: string -> Generation,
                              systemPrompt: string, userPrompt: string,
                              conversationHistory: Option<seq<Turn>>, tokenLimit: Int32): (r: AiResponse)
    ensures r.aiError.Some? <==> Tokens(encode, userPrompt) > ToULong(tokenLimit)
    ensures r.aiError.Some? ==>
              r == AiResponse([], 0, 0, Some(AiError(true, "The prompt went over the maximum tokens allowed.")))
    ensures r.aiError.None? ==>
              var h := HistoryOf(conversationHistory);
              && |r.updatedHistory| == |h| + 1
              && r.updatedHistory[..|h|] == h
              && r.updatedHistory[|h|].userQuestion == userPrompt
              && var prompt := ChatTemplatePhiMini3(
                   SelectMessages(encode, systemPrompt, userPrompt, conversationHistory, tokenLimit).value.messages,
                   true, PhiEosToken);
                 r.updatedHistory[|h|].aiResponse == generate(prompt).text
    ensures r.aiError.None? && tokenLimit >= 0 ==> 0 <= r.totalInputTokens <= tokenLimit
    ensures r.aiError.None? ==>
              var selection := SelectMessages(encode, systemPrompt, userPrompt, conversationHistory, tokenLimit);
              selection.Success? && r.totalInputTokens == ToInt32(selection.value.totalInputTokens)
  {
    match SelectMessages(encode, systemPrompt, userPrompt, conversationHistory, tokenLimit)
    case Failure(error) => AiResponse([], 0, 0, Some(error))
    case Success(selection) =>
      var fullPrompt := ChatTemplatePhiMini3(selection.messages, true, PhiEosToken);
      var generation := generate(fullPrompt);
      var history := HistoryOf(conversationHistory);
      var updated := history + [Turn(userPrompt, generation.text)];
      assert updated[..|history|] == history;
      AiResponse(updated, ToInt32(selection.totalInputTokens), generation.outputTokens, None)
  }

  /** A limit of -1 becomes `ulong.MaxValue`: nothing is rejected and the
      whole history is kept. */
  lemma MinusOneLimitKeepsEverything(encode: string -> seq<seq<int>>, systemPrompt: string, userPrompt: string,
                                     conversationHistory: Option<seq<Turn>>)
    ensures var r := SelectMessages(encode, systemPrompt, userPrompt, conversationHistory, -1);
            r.Success? && |r.value.messages| == 2 * |HistoryOf(conversationHistory)| + 2
  {
    assert ToULong(-1) == TWO_64 - 1;
  }
}
