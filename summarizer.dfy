/** The summariser (`llm_node`): it builds the prompt from a fixed
    instruction, the recent history and the tool's result, asks the language
    model, and normalises what comes back. The model and `json.dumps` are
    parameters. */
module Summarizer {
  import opened Values
  import opened Messages
  import Executor

  /** How many of the latest messages the prompt keeps. */
  const MaxHistory: nat := 12

  /** How many characters of the tool's rendering the prompt keeps. */
  const MaxToolOutput: nat := 2000

  /** The system instruction that opens every prompt. */
  const Instruction: string :=
    "You are an AI DevOps Assistant. Be concise and factual.\n"
    + "If a TOOL OUTPUT is provided, summarize the final result in one short line for the user.\n"
    + "Do NOT invent actions or repeat unrelated previous tool outputs.\n"
    + "If tool_result.ok is false, produce a short error message explaining why."

  const ToolOutputTag: string := "TOOL_OUTPUT: "

  const LlmFailedTag: string := "LLM call failed: "

  /** `raw_messages[-MAX_HISTORY:]`: the latest `min(12, n)` messages, in
      their original order. */
  function Window(raw: seq<RawMessage>): (w: seq<RawMessage>)
    ensures |w| == if |raw| < MaxHistory then |raw| else MaxHistory
    ensures forall k :: 0 <= k < |w| ==> w[k] == raw[|raw| - |w| + k]
  {
    if |raw| <= MaxHistory then raw else raw[|raw| - MaxHistory..]
  }

  /** A rendering longer than 2000 characters is cut to its first 2000 and
      marked with `...`; a shorter one is kept whole. */
  function Truncate(s: string): (t: string)
    ensures |s| <= MaxToolOutput ==> t == s
    ensures |s| > MaxToolOutput ==>
      (|t| == MaxToolOutput + 3 && t[..MaxToolOutput] == s[..MaxToolOutput] && t[MaxToolOutput..] == "...")
  {
    if |s| > MaxToolOutput then s[..MaxToolOutput] + "..." else s
  }

  /** The system message that carries the tool's result. */
  function ToolOutput(tr: Executor.ToolResult, dumps: Json -> string): Message {
    Message(System, ToolOutputTag + Truncate(dumps(tr.ToJson())))
  }

  /** `[normalize_message(m) for m in ms]`: the first message that cannot be
      normalised raises. */
  function NormalizeAll(ms: seq<RawMessage>, dumps: Json -> string): (r: Outcome<seq<Message>>)
    ensures r.Returned? <==> forall k :: 0 <= k < |ms| ==> Normalize(ms[k], dumps).Returned?
    ensures r.Returned? ==> |r.value| == |ms| && forall k :: 0 <= k < |ms| ==> r.value[k] == Normalize(ms[k], dumps).value
    ensures r.Raised? ==> exists k :: (0 <= k < |ms|
      && (forall j :: 0 <= j < k ==> Normalize(ms[j], dumps).Returned?)
      && Normalize(ms[k], dumps) == Raised(r.exception))
    decreases |ms|
  {
    if ms == [] then Returned([])
    else
      var init := ms[..|ms| - 1];
      assert forall k :: 0 <= k < |init| ==> init[k] == ms[k];
      match NormalizeAll(init, dumps)
      case Raised(e) => Raised(e)
      case Returned(done) =>
        match Normalize(ms[|ms| - 1], dumps)
        case Raised(e) => Raised(e)
        case Returned(m) => Returned(done + [m])
  }

  /** The prompt: the instruction, the normalised window and, when there is
      a tool result, its rendering. */
  function Prompt(raw: seq<RawMessage>, tr: Option<Executor.ToolResult>, dumps: Json -> string): (r: Outcome<seq<Message>>)
    ensures r.Returned? <==> forall k :: 0 <= k < |Window(raw)| ==> Normalize(Window(raw)[k], dumps).Returned?
    ensures r.Returned? ==> |r.value| == 1 + |Window(raw)| + (if tr.Some? then 1 else 0) && r.value[0] == Message(System, Instruction)
  {
    match NormalizeAll(Window(raw), dumps)
    case Raised(e) => Raised(e)
    case Returned(history) =>
      Returned([Message(System, Instruction)] + history + (if tr.Some? then [ToolOutput(tr.value, dumps)] else []))
  }

  /** The prompt, built the way `llm_node` builds it: one message appended
      at a time. */
  method BuildPrompt(raw: seq<RawMessage>, tr: Option<Executor.ToolResult>, dumps: Json -> string)
    returns (prompt: Outcome<seq<Message>>)
    ensures prompt == Prompt(raw, tr, dumps)
  {
    var history := Window(raw);
    var msgs := [Message(System, Instruction)];
    ghost var done: seq<Message> := [];
    var i := 0;
    assert history[..0] == [];
    while i < |history|
      invariant 0 <= i <= |history|
      invariant msgs == [Message(System, Instruction)] + done
      invariant NormalizeAll(history[..i], dumps) == Returned(done)
    {
      var m := Normalize(history[i], dumps);
      PromptStep(raw, tr, dumps, i, done);
      if m.Raised? {
        return Raised(m.exception);
      }
      msgs := msgs + [m.value];
      done := done + [m.value];
      i := i + 1;
    }
    assert history[..i] == history;
    PromptFromHistory(raw, tr, dumps, done);
    if tr.Some? {
      msgs := msgs + [ToolOutput(tr.value, dumps)];
    }
    prompt := Returned(msgs);
  }

  /** One more message of the window: a failure is the prompt's failure,
      otherwise the normalised prefix grows by that message. */
  lemma PromptStep(raw: seq<RawMessage>, tr: Option<Executor.ToolResult>, dumps: Json -> string,
                   i: nat, done: seq<Message>)
    requires i < |Window(raw)| && NormalizeAll(Window(raw)[..i], dumps) == Returned(done)
    ensures var m := Normalize(Window(raw)[i], dumps);
      && (m.Raised? ==> Prompt(raw, tr, dumps) == Raised(m.exception))
      && (m.Returned? ==> NormalizeAll(Window(raw)[..i + 1], dumps) == Returned(done + [m.value]))
  {
    var history := Window(raw);
    NormalizeAllSnoc(history, i, dumps);
    if Normalize(history[i], dumps).Raised? {
      NormalizeFailurePropagates(history, i + 1, dumps);
    }
  }

  /** Once the whole window is normalised, the prompt is the instruction,
      that history and the tool's output, if any. */
  lemma PromptFromHistory(raw: seq<RawMessage>, tr: Option<Executor.ToolResult>, dumps: Json -> string,
                          done: seq<Message>)
    requires NormalizeAll(Window(raw), dumps) == Returned(done)
    ensures Prompt(raw, tr, dumps) == Returned(
      if tr.Some? then [Message(System, Instruction)] + done + [ToolOutput(tr.value, dumps)]
      else [Message(System, Instruction)] + done)
  {
    assert [Message(System, Instruction)] + done + [] == [Message(System, Instruction)] + done;
  }

  /** One more message: its normalisation follows those before it. */
  lemma NormalizeAllSnoc(ms: seq<RawMessage>, i: nat, dumps: Json -> string)
    requires i < |ms|
    ensures NormalizeAll(ms[..i + 1], dumps) ==
      match NormalizeAll(ms[..i], dumps)
      case Raised(e) => Raised(e)
      case Returned(done) =>
        match Normalize(ms[i], dumps)
        case Raised(e) => Raised(e)
        case Returned(m) => Returned(done + [m])
  {
    assert ms[..i + 1][..i] == ms[..i];
    assert ms[..i + 1][i] == ms[i];
  }

  /** A failure within a prefix is the failure of the whole. */
  lemma {:induction false} NormalizeFailurePropagates(ms: seq<RawMessage>, n: nat, dumps: Json -> string)
    requires n <= |ms| && NormalizeAll(ms[..n], dumps).Raised?
    ensures NormalizeAll(ms, dumps) == NormalizeAll(ms[..n], dumps)
    decreases |ms| - n
  {
    if n < |ms| {
      NormalizeAllSnoc(ms, n, dumps);
      NormalizeFailurePropagates(ms, n + 1, dumps);
    } else {
      assert ms[..n] == ms;
    }
  }

  /** The shape of the prompt: exactly one instruction first, then the last
      `min(12, n)` messages in order, then one tool output exactly when there
      is a tool result. */
  lemma PromptShape(raw: seq<RawMessage>, tr: Option<Executor.ToolResult>, dumps: Json -> string)
    requires forall k :: 0 <= k < |raw| ==> Normalize(raw[k], dumps).Returned?
    ensures var p := Prompt(raw, tr, dumps);
      var n := if |raw| < MaxHistory then |raw| else MaxHistory;
      && p.Returned?
      && |p.value| == 1 + n + (if tr.Some? then 1 else 0)
      && p.value[0] == Message(System, Instruction)
      && p.value[1..1 + n] == NormalizeAll(Window(raw), dumps).value
      && (tr.Some? ==> p.value[1 + n] == ToolOutput(tr.value, dumps))
  {
    var w := Window(raw);
    assert forall k :: 0 <= k < |w| ==> Normalize(w[k], dumps).Returned?;
    var h := NormalizeAll(w, dumps);
    assert h.Returned? && |h.value| == |w|;
    var p := [Message(System, Instruction)] + h.value + (if tr.Some? then [ToolOutput(tr.value, dumps)] else []);
    assert Prompt(raw, tr, dumps) == Returned(p);
    assert p[1..1 + |w|] == h.value;
  }

  // ---------------------------------------------------------------------
  // The language model's answer

  /** What the answer holds once its `messages` (attribute or key) has been
      taken out: a list of messages, or a single one. */
  datatype Payload = Many(items: seq<RawMessage>) | One(item: RawMessage)

  /** The model's call either raises or answers. */
  datatype LlmOutcome = LlmFailed(error: string) | Answered(payload: Payload)

  /** What the summariser puts in the conversation: one system message when
      the model fails, otherwise its answer, a single item as a one-element
      list, every element normalised. A prompt that cannot be built raises
      before the model is called. */
  function Summarize(raw: seq<RawMessage>, tr: Option<Executor.ToolResult>, llm: seq<Message> -> LlmOutcome,
                     dumps: Json -> string): (r: Outcome<seq<Message>>)
    ensures Prompt(raw, tr, dumps).Raised? ==> r == Raised(Prompt(raw, tr, dumps).exception)
    ensures Prompt(raw, tr, dumps).Returned? && llm(Prompt(raw, tr, dumps).value).LlmFailed? ==>
      r == Returned([Message(System, LlmFailedTag + llm(Prompt(raw, tr, dumps).value).error)])
  {
    match Prompt(raw, tr, dumps)
    case Raised(e) => Raised(e)
    case Returned(prompt) =>
      match llm(prompt)
      case LlmFailed(e) => Returned([Message(System, LlmFailedTag + e)])
      case Answered(Many(items)) => NormalizeAll(items, dumps)
      case Answered(One(item)) => NormalizeAll([item], dumps)
  }

  /** `llm_node`: the prompt is built message by message, then handed to the
      model. */
  method LlmNode(raw: seq<RawMessage>, tr: Option<Executor.ToolResult>, llm: seq<Message> -> LlmOutcome,
                 dumps: Json -> string) returns (r: Outcome<seq<Message>>)
    ensures r == Summarize(raw, tr, llm, dumps)
  {
    var prompt := BuildPrompt(raw, tr, dumps);
    if prompt.Raised? {
      return Raised(prompt.exception);
    }
    var answer := llm(prompt.value);
    if answer.LlmFailed? {
      return Returned([Message(System, LlmFailedTag + answer.error)]);
    }
    var returned := if answer.payload.Many? then answer.payload.items else [answer.payload.item];
    r := NormalizeAll(returned, dumps);
  }

  /** A single answer becomes a one-element list; a list keeps its length and
      order, each element normalised. */
  lemma AnswerNormalized(raw: seq<RawMessage>, tr: Option<Executor.ToolResult>, llm: seq<Message> -> LlmOutcome,
                         dumps: Json -> string)
    requires Prompt(raw, tr, dumps).Returned?
    requires llm(Prompt(raw, tr, dumps).value).Answered?
    ensures var payload := llm(Prompt(raw, tr, dumps).value).payload;
      var items := if payload.Many? then payload.items else [payload.item];
      var r := Summarize(raw, tr, llm, dumps);
      && (r.Returned? <==> forall k :: 0 <= k < |items| ==> Normalize(items[k], dumps).Returned?)
      && (r.Returned? ==> |r.value| == |items| && forall k :: 0 <= k < |items| ==> r.value[k] == Normalize(items[k], dumps).value)
  {
  }
}
