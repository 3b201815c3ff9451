/** `ChatTemplate`: three prompt formats that turn a conversation into the
    text a model is fed (Gemma 2, Phi-3 mini, Llama 3.1). */
module ChatTemplate {
  import opened Wrappers
  import opened Exceptions
  import opened Text

  datatype AiMessage = AiMessage(role: string, content: string)

  /** The concatenation of `turn` over the messages, in order. */
  function Render(messages: seq<AiMessage>, turn: AiMessage -> string): string
    decreases |messages|
  {
    if |messages| == 0 then "" else turn(messages[0]) + Render(messages[1..], turn)
  }

  /** Rendering a concatenation renders each part. */
  lemma {:induction false} RenderAppend(a: seq<AiMessage>, b: seq<AiMessage>, turn: AiMessage -> string)
    ensures Render(a + b, turn) == Render(a, turn) + Render(b, turn)
    decreases |a|
  {
    if |a| == 0 {
      assert a + b == b;
    } else {
      assert (a + b)[0] == a[0] && (a + b)[1..] == a[1..] + b;
      RenderAppend(a[1..], b, turn);
    }
  }

  /** Rendering one more message appends that message's turn. */
  lemma RenderSnoc(messages: seq<AiMessage>, m: AiMessage, turn: AiMessage -> string)
    ensures Render(messages + [m], turn) == Render(messages, turn) + turn(m)
  {
    RenderAppend(messages, [m], turn);
    assert Render([m], turn) == turn(m) + Render([], turn);
  }

  // ---------------------------------------------------------------- Gemma 2

  /** Gemma treats `user` and `system` alike as the user side. */
  predicate IsUserSide(m: AiMessage) {
    m.role == "user" || m.role == "system"
  }

  function GemmaTurn(m: AiMessage): string {
    var role := if m.role == "assistant" then "model" else m.role;
    "<start_of_turn>" + role + "\n" + Trim(m.content) + "<end_of_turn>\n"
  }

  /** The alternation rule, for a walk that expects a user-side message at the
      positions whose parity `expectUser` names: every such position must hold
      one. The other positions may hold anything. */
  predicate Alternates(messages: seq<AiMessage>, expectUser: bool) {
    forall i | 0 <= i < |messages| && (i % 2 == 0) == expectUser :: IsUserSide(messages[i])
  }

  lemma AlternatesStep(messages: seq<AiMessage>, expectUser: bool)
    requires |messages| > 0
    ensures Alternates(messages, expectUser)
            <==> (expectUser ==> IsUserSide(messages[0])) && Alternates(messages[1..], !expectUser)
  {
    var tail := messages[1..];
    if (expectUser ==> IsUserSide(messages[0])) && Alternates(tail, !expectUser) {
      forall i | 0 <= i < |messages| && (i % 2 == 0) == expectUser
        ensures IsUserSide(messages[i])
      {
        if i > 0 {
          assert messages[i] == tail[i - 1];
          assert ((i - 1) % 2 == 0) == !expectUser;
        }
      }
    }
    if Alternates(messages, expectUser) {
      forall j | 0 <= j < |tail| && (j % 2 == 0) == !expectUser
        ensures IsUserSide(tail[j])
      {
        assert tail[j] == messages[j + 1];
        assert ((j + 1) % 2 == 0) == expectUser;
      }
    }
  }

  /** The message loop of the Gemma template: it throws at the first message
      that arrives where a user-side message was expected but is not one, and
      tolerates a user-side message where an assistant was expected. */
  function GemmaTurns(messages: seq<AiMessage>, expectUser: bool): (r: Result<string, Exception>)
    ensures r.Success? <==> Alternates(messages, expectUser)
    ensures r.Success? ==> r.value == Render(messages, GemmaTurn)
    ensures r.Failure? ==>
              r.error == InvalidOperation("Conversation roles must alternate user/assistant/user/assistant...")
    decreases |messages|
  {
    if |messages| == 0 then Success("")
    else
      var message := messages[0];
      var isUser := message.role == "user" || message.role == "system";
      AlternatesStep(messages, expectUser);
      if isUser != expectUser && expectUser then
        Failure(InvalidOperation("Conversation roles must alternate user/assistant/user/assistant..."))
      else
        var rest :- GemmaTurns(messages[1..], !expectUser);
        Success(GemmaTurn(message) + rest)
  }

  /** `ChatTemplateGemma9b2`: the BOS token, one turn per message (assistant
      renamed to model, content trimmed) and, when asked, the opening of the
      model's turn. It fails exactly when some message at an even position is
      not from the user side. */
  function ChatTemplateGemma9b2(messages: seq<AiMessage>, addGenerationPrompt: bool, bosToken: string)
    : (r: Result<string, Exception>)
    ensures r.Success? <==> forall i | 0 <= i < |messages| && i % 2 == 0 :: IsUserSide(messages[i])
    ensures r.Success? ==>
              r.value == bosToken + Render(messages, GemmaTurn)
                         + (if addGenerationPrompt then "<start_of_turn>model\n" else "")
  {
    var body :- GemmaTurns(messages, true);
    var text := bosToken + body;
    Success(if addGenerationPrompt then text + "<start_of_turn>model\n" else text)
  }

  const GemmaBosToken := "<|startoftext|>"

  /** A non-empty rendering ends with the end of the last turn. */
  lemma {:induction false} GemmaRenderEndsWithTurnEnd(messages: seq<AiMessage>)
    requires |messages| > 0
    ensures EndsWith(Render(messages, GemmaTurn), "<end_of_turn>\n")
    decreases |messages|
  {
    var rest := messages[1..];
    var first := GemmaTurn(messages[0]);
    if |rest| == 0 {
      assert Render(messages, GemmaTurn) == first;
      assert first[|first| - 14..] == "<end_of_turn>\n";
    } else {
      GemmaRenderEndsWithTurnEnd(rest);
      EndsWithAppend(first, Render(rest, GemmaTurn), "<end_of_turn>\n");
    }
  }

  /** With the default BOS token, an accepted prompt ends with the opening of
      the model's turn exactly when a generation prompt was asked for. */
  lemma GemmaGenerationPromptIff(messages: seq<AiMessage>, addGenerationPrompt: bool)
    requires ChatTemplateGemma9b2(messages, addGenerationPrompt, GemmaBosToken).Success?
    ensures EndsWith(ChatTemplateGemma9b2(messages, addGenerationPrompt, GemmaBosToken).value,
                     "<start_of_turn>model\n")
            <==> addGenerationPrompt
  {
    var text := ChatTemplateGemma9b2(messages, addGenerationPrompt, GemmaBosToken).value;
    var body := Render(messages, GemmaTurn);
    if addGenerationPrompt {
      EndsWithAppend(GemmaBosToken + body, "<start_of_turn>model\n", "<start_of_turn>model\n");
      assert text == (GemmaBosToken + body) + "<start_of_turn>model\n";
    } else if |messages| == 0 {
      assert text == GemmaBosToken;
    } else {
      GemmaRenderEndsWithTurnEnd(messages);
      EndsWithAppend(GemmaBosToken, body, "<end_of_turn>\n");
      assert text == GemmaBosToken + body;
      assert text[|text| - 2] == '>';
    }
  }

  /** A conversation that never breaks the alternation at an even position is
      accepted, and so is one with a stray user message at an odd position. */
  lemma GemmaToleratesOddUser(messages: seq<AiMessage>, extra: AiMessage)
    requires forall i | 0 <= i < |messages| && i % 2 == 0 :: IsUserSide(messages[i])
    requires |messages| % 2 == 1 && IsUserSide(extra)
    ensures ChatTemplateGemma9b2(messages + [extra], true, GemmaBosToken).Success?
  {
    var all := messages + [extra];
    forall i | 0 <= i < |all| && i % 2 == 0
      ensures IsUserSide(all[i])
    {
      assert i < |messages|;
      assert all[i] == messages[i];
    }
  }

  // ---------------------------------------------------------------- Phi-3

  /** Whether the Phi-3 template emits anything for a message. */
  predicate PhiRenders(m: AiMessage) {
    (m.role == "system" && m.content != "") || m.role == "user" || m.role == "assistant"
  }

  function PhiTurn(m: AiMessage): string {
    if m.role == "system" && m.content != "" then "<|system|>\n" + m.content + "<|end|>\n"
    else if m.role == "user" then "<|user|>\n" + m.content + "<|end|>\n"
    else if m.role == "assistant" then "<|assistant|>\n" + m.content + "<|end|>\n"
    else ""
  }

  /** `ChatTemplatePhiMini3`: system messages with content, user and assistant
      messages verbatim, then the assistant prompt or the EOS token. */
  function ChatTemplatePhiMini3(messages: seq<AiMessage>, addGenerationPrompt: bool, eosToken: string)
    : (r: string)
    ensures var body := Render(messages, PhiTurn); |body| <= |r| && r[..|body|] == body
    ensures addGenerationPrompt ==>
              |r| == |Render(messages, PhiTurn)| + |"<|assistant|>\n"| && EndsWith(r, "<|assistant|>\n")
    ensures !addGenerationPrompt ==> |r| == |Render(messages, PhiTurn)| + |eosToken| && EndsWith(r, eosToken)
  {
    var body := Render(messages, PhiTurn);
    var r := body + (if addGenerationPrompt then "<|assistant|>\n" else eosToken);
    assert r[..|body|] == body;
    r
  }

  const PhiEosToken := "<|endoftext|>"

  /** The messages Phi-3 emits, in order. */
  function PhiRendered(messages: seq<AiMessage>): (r: seq<AiMessage>)
    ensures forall k | 0 <= k < |r| :: PhiRenders(r[k])
    decreases |messages|
  {
    if |messages| == 0 then []
    else if PhiRenders(messages[0]) then [messages[0]] + PhiRendered(messages[1..])
    else PhiRendered(messages[1..])
  }

  /** Messages Phi-3 does not emit (other roles, empty system messages) leave
      no trace: the prompt equals the prompt of the emitted messages alone. */
  lemma {:induction false} PhiIgnoresSkipped(messages: seq<AiMessage>, addGenerationPrompt: bool, eosToken: string)
    ensures ChatTemplatePhiMini3(messages, addGenerationPrompt, eosToken)
            == ChatTemplatePhiMini3(PhiRendered(messages), addGenerationPrompt, eosToken)
  {
    RenderOfRendered(messages);
  }

  lemma {:induction false} RenderOfRendered(messages: seq<AiMessage>)
    ensures Render(messages, PhiTurn) == Render(PhiRendered(messages), PhiTurn)
    decreases |messages|
  {
    if |messages| > 0 {
      RenderOfRendered(messages[1..]);
      if PhiRenders(messages[0]) {
        var r := [messages[0]] + PhiRendered(messages[1..]);
        assert r[0] == messages[0] && r[1..] == PhiRendered(messages[1..]);
      }
    }
  }

  /** Inserting a message Phi-3 does not emit, anywhere, changes nothing. */
  lemma PhiSkippedInsertion(a: seq<AiMessage>, m: AiMessage, b: seq<AiMessage>,
                            addGenerationPrompt: bool, eosToken: string)
    requires !PhiRenders(m)
    ensures ChatTemplatePhiMini3(a + [m] + b, addGenerationPrompt, eosToken)
            == ChatTemplatePhiMini3(a + b, addGenerationPrompt, eosToken)
  {
    RenderAppend(a + [m], b, PhiTurn);
    RenderAppend(a, [m], PhiTurn);
    RenderAppend(a, b, PhiTurn);
    assert Render([m], PhiTurn) == PhiTurn(m) + Render([], PhiTurn);
  }

  // ---------------------------------------------------------------- Llama 3.1

  function LlamaTurn(m: AiMessage): string {
    "<|start_header_id|>" + m.role + "<|end_header_id|>\n\n" + Trim(m.content) + "<|eot_id|>"
  }

  /** The fixed header up to the place where the system text goes. */
  function LlamaPreamble(bosToken: string, dateString: string): string {
    bosToken + "\n" + "<|start_header_id|>system<|end_header_id|>\n\n"
    + "Cutting Knowledge Date: December 2023\n" + "Today Date: " + dateString + "\n\n"
  }

  /** The opening of the assistant's turn, when a generation prompt is asked for. */
  function LlamaGenerationPrompt(addGenerationPrompt: bool): string {
    if addGenerationPrompt then "<|start_header_id|>assistant<|end_header_id|>\n\n" else ""
  }

  /** Everything after the system text: the end of the system turn, the
      rendered conversation and the generation prompt. */
  function LlamaBody(rest: seq<AiMessage>, addGenerationPrompt: bool): string {
    "<|eot_id|>" + Render(rest, LlamaTurn) + LlamaGenerationPrompt(addGenerationPrompt)
  }

  /** `ChatTemplateLlama31`: a leading system message is lifted into the
      header (trimmed) and not rendered again; every other message, a later
      system message included, is rendered with its role verbatim. The
      `toolsInUserMessage` option is defaulted and otherwise unused. */
  function ChatTemplateLlama31(messages: seq<AiMessage>, addGenerationPrompt: bool, bosToken: string,
                               dateString: string, toolsInUserMessage: Option<bool>): (r: string)
    ensures |messages| > 0 && messages[0].role == "system" ==>
              r == LlamaPreamble(bosToken, dateString) + Trim(messages[0].content)
                   + LlamaBody(messages[1..], addGenerationPrompt)
    ensures (|messages| == 0 || messages[0].role != "system") ==>
              r == LlamaPreamble(bosToken, dateString) + LlamaBody(messages, addGenerationPrompt)
  {
    var hoisted := |messages| > 0 && messages[0].role == "system";
    var systemMessage := if hoisted then Trim(messages[0].content) else "";
    var rest := if hoisted then messages[1..] else messages;
    LlamaPreamble(bosToken, dateString) + systemMessage + LlamaBody(rest, addGenerationPrompt)
  }

  const LlamaBosToken := "bos_token"
  const LlamaDateString := "26 Jul 2024"

  /** A leading system message changes the prompt only by inserting its
      trimmed text at the fixed place in the header; the rest is identical to
      the prompt without it. */
  lemma LlamaLeadingSystemOnlyFillsHeader(system: AiMessage, messages: seq<AiMessage>,
                                          addGenerationPrompt: bool, bosToken: string, dateString: string)
    requires system.role == "system"
    requires |messages| == 0 || messages[0].role != "system"
    ensures var p := LlamaPreamble(bosToken, dateString);
            var s := LlamaBody(messages, addGenerationPrompt);
            && ChatTemplateLlama31([system] + messages, addGenerationPrompt, bosToken, dateString, None)
               == p + Trim(system.content) + s
            && ChatTemplateLlama31(messages, addGenerationPrompt, bosToken, dateString, None) == p + s
  {
    assert ([system] + messages)[1..] == messages;
  }

  /** Only a LEADING system message is lifted: any later one is rendered as
      an ordinary turn, right before the generation prompt. */
  lemma LlamaLaterSystemIsATurn(messages: seq<AiMessage>, system: AiMessage, addGenerationPrompt: bool)
    requires |messages| > 0 && messages[0].role != "system" && system.role == "system"
    ensures ChatTemplateLlama31(messages + [system], addGenerationPrompt, LlamaBosToken, LlamaDateString, None)
            == LlamaPreamble(LlamaBosToken, LlamaDateString) + LlamaBody(messages + [system], addGenerationPrompt)
    ensures Render(messages + [system], LlamaTurn) == Render(messages, LlamaTurn) + LlamaTurn(system)
  {
    var all := messages + [system];
    assert |all| > 0 && all[0].role != "system" by {
      assert all[0] == messages[0];
    }
    RenderSnoc(messages, system, LlamaTurn);
  }

  /** `toolsInUserMessage` has no effect on the prompt. */
  lemma LlamaIgnoresTools(messages: seq<AiMessage>, addGenerationPrompt: bool, bosToken: string,
                          dateString: string, t1: Option<bool>, t2: Option<bool>)
    ensures ChatTemplateLlama31(messages, addGenerationPrompt, bosToken, dateString, t1)
            == ChatTemplateLlama31(messages, addGenerationPrompt, bosToken, dateString, t2)
  {
  }
}
