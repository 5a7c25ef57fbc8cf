/** One turn of the agent: the router, the executor and the summariser run
    one after the other on the conversation state. */
module Agent {
  import opened Values
  import opened Messages
  import opened ShellTool
  import opened FileTool
  import opened GitHubTool
  import Router
  import opened Executor
  import opened Summarizer

  /** The conversation state: the messages, the chosen tool call and the
      tool's result. */
  datatype ChatState = ChatState(
    messages: seq<RawMessage>,
    toolCall: Option<Router.ToolCall>,
    toolResult: Option<ToolResult>)

  /** The end of a turn: the new state (or the exception that ended the
      turn), what was asked of the outside world, and the files afterwards. */
  datatype TurnResult = TurnResult(outcome: Outcome<ChatState>, calls: seq<Invocation>, fs: Fs)

  /** The call the executor sees: the router's, or, when the router adds
      nothing, the one already in the state. */
  function CallAfterRouting(s: ChatState, env: Router.Env, repr: Json -> string): (tc: Option<Router.ToolCall>)
    ensures Router.Route(s.messages, env, repr).Some? ==> tc == Router.Route(s.messages, env, repr)
    ensures Router.Route(s.messages, env, repr).None? ==> tc == s.toolCall
  {
    match Router.Route(s.messages, env, repr)
    case Some(c) => Some(c)
    case None => s.toolCall
  }

  /** Messages the summariser returned, as they are stored in the state. */
  function Stored(ms: seq<Message>): (r: seq<RawMessage>)
    ensures |r| == |ms| && forall k :: 0 <= k < |ms| ==> r[k] == Canonical(ms[k])
  {
    seq(|ms|, k requires 0 <= k < |ms| => Canonical(ms[k]))
  }

  /** One turn: START -> router -> tool -> llm -> END. The llm's messages
      replace the conversation's. */
  function Turn(s: ChatState, env: Router.Env, w: World, root: Path, fs: Fs, llm: seq<Message> -> LlmOutcome,
                dumps: Json -> string, repr: Json -> string): (t: TurnResult)
    requires ListsRepos(CallAfterRouting(s, env, repr)) ==> ListingEnds(Pages(w))
    ensures var step := Dispatch(CallAfterRouting(s, env, repr), env, w, root, fs);
      && t.calls == step.calls && t.fs == step.fs
      && (step.outcome.Raised? ==> t.outcome == Raised(step.outcome.exception))
      && (t.outcome.Returned? ==>
            t.outcome.value.toolCall == CallAfterRouting(s, env, repr) && t.outcome.value.toolResult == step.outcome.value)
      && (step.outcome.Returned? ==>
            var reply := Summarize(s.messages, step.outcome.value, llm, dumps);
            && (reply.Raised? ==> t.outcome == Raised(reply.exception))
            && (reply.Returned? ==> t.outcome.Returned? && t.outcome.value.messages == Stored(reply.value)))
  {
    var tc := CallAfterRouting(s, env, repr);
    var step := Dispatch(tc, env, w, root, fs);
    match step.outcome
    case Raised(e) => TurnResult(Raised(e), step.calls, step.fs)
    case Returned(tr) =>
      match Summarize(s.messages, tr, llm, dumps)
      case Raised(e) => TurnResult(Raised(e), step.calls, step.fs)
      case Returned(ms) => TurnResult(Returned(ChatState(Stored(ms), tc, tr)), step.calls, step.fs)
  }

  /** The compiled graph run on the project's files. */
  method RunTurn(s: ChatState, env: Router.Env, w: World, files: FileSystem, llm: seq<Message> -> LlmOutcome,
                 dumps: Json -> string, repr: Json -> string)
    returns (outcome: Outcome<ChatState>, calls: seq<Invocation>)
    requires files.Valid()
    requires ListsRepos(CallAfterRouting(s, env, repr)) ==> ListingEnds(Pages(w))
    modifies files
    ensures files.Valid()
    ensures TurnResult(outcome, calls, files.State()) == Turn(s, env, w, files.root, old(files.State()), llm, dumps, repr)
  {
    var tc := CallAfterRouting(s, env, repr);
    var result;
    result, calls := ToolNode(tc, env, w, files);
    if result.Raised? {
      return Raised(result.exception), calls;
    }
    var reply := LlmNode(s.messages, result.value, llm, dumps);
    if reply.Raised? {
      return Raised(reply.exception), calls;
    }
    outcome := Returned(ChatState(Stored(reply.value), tc, result.value));
  }

  // ---------------------------------------------------------------------
  // Properties of a turn

  /** A push request only checks the status: the one command handed to the
      shell is `git status -b`, which the whitelist lets through, and the
      result is the status check, never a push. */
  lemma PushTurnChecksStatus(s: ChatState, env: Router.Env, w: World, root: Path, fs: Fs,
                             llm: seq<Message> -> LlmOutcome, dumps: Json -> string, repr: Json -> string)
    requires var r := Router.Route(s.messages, env, repr);
      r.Some? && r.value.tool == "shell" && r.value.args["action"] == "push_intent"
    ensures var t := Turn(s, env, w, root, fs, llm, dumps, repr);
      var run := RunShell("git status -b", w.shell("git status -b"));
      && t.calls == [ShellCall("git status -b")]
      && t.fs == fs
      && Allowed("git status -b")
      && (run.Returned? && t.outcome.Returned? ==>
            t.outcome.value.toolResult == Some(ToolResult("shell", PushChecked(run.value))))
  {
    Router.PushIsStatusCheck(s.messages, env, repr);
    var tc := CallAfterRouting(s, env, repr);
    assert tc == Router.Route(s.messages, env, repr);
    PushCallChecksStatus(tc.value, env, w, root, fs);
    ResultFromCall(s, env, w, root, fs, llm, dumps, repr);
    StatusCheckAllowed();
  }

  /** Without a message and without a call in the state, no tool runs, the
      files are untouched, and the model sees the instruction alone. */
  lemma EmptyConversation(env: Router.Env, w: World, root: Path, fs: Fs,
                          llm: seq<Message> -> LlmOutcome, dumps: Json -> string, repr: Json -> string)
    ensures var t := Turn(ChatState([], None, None), env, w, root, fs, llm, dumps, repr);
      && t.calls == [] && t.fs == fs
      && t.outcome == (match llm([Message(System, Instruction)])
                       case LlmFailed(e) => Returned(ChatState([Canonical(Message(System, LlmFailedTag + e))], None, None))
                       case Answered(p) =>
                         var items := if p.Many? then p.items else [p.item];
                         match NormalizeAll(items, dumps)
                         case Raised(e) => Raised(e)
                         case Returned(ms) => Returned(ChatState(Stored(ms), None, None)))
  {
    var empty: seq<RawMessage> := [];
    var s := ChatState(empty, None, None);
    var prompt := [Message(System, Instruction)];
    assert Router.Route(empty, env, repr).None?;
    assert CallAfterRouting(s, env, repr).None?;
    assert Dispatch(None, env, w, root, fs) == Step(Returned(None), [], fs);
    assert Window(empty) == [];
    assert NormalizeAll([], dumps) == Returned([]);
    assert prompt + [] + [] == prompt;
    assert Prompt(empty, None, dumps) == Returned(prompt);
    match llm(prompt)
    case LlmFailed(e) =>
      assert Summarize(empty, None, llm, dumps) == Returned([Message(System, LlmFailedTag + e)]);
      assert Stored([Message(System, LlmFailedTag + e)]) == [Canonical(Message(System, LlmFailedTag + e))];
    case Answered(p) =>
  }

  /** When no rule fires, a call already in the state is the one executed. */
  lemma SeededCallKept(s: ChatState, env: Router.Env, repr: Json -> string)
    requires s.messages != []
    requires forall k :: 0 <= k < |Router.Order| ==> !Router.Fires(k, Text.Lower(Router.LastText(s.messages, repr)))
    ensures CallAfterRouting(s, env, repr) == s.toolCall
  {
    Router.RouteNone(s.messages, env, repr);
  }

  /** Every tool result the turn stores comes from the executor, and the
      state keeps the call that produced it. */
  lemma ResultFromCall(s: ChatState, env: Router.Env, w: World, root: Path, fs: Fs,
                       llm: seq<Message> -> LlmOutcome, dumps: Json -> string, repr: Json -> string)
    requires ListsRepos(CallAfterRouting(s, env, repr)) ==> ListingEnds(Pages(w))
    ensures var t := Turn(s, env, w, root, fs, llm, dumps, repr);
      var step := Dispatch(CallAfterRouting(s, env, repr), env, w, root, fs);
      && t.calls == step.calls && t.fs == step.fs
      && (t.outcome.Returned? ==>
            && step.outcome == Returned(t.outcome.value.toolResult)
            && t.outcome.value.toolCall == CallAfterRouting(s, env, repr)
            && (t.outcome.value.toolResult.None? ==> step.calls == []))
  {
    var tc := CallAfterRouting(s, env, repr);
    var step := Dispatch(tc, env, w, root, fs);
    NoResultNoCalls(tc, env, w, root, fs);
    var t := Turn(s, env, w, root, fs, llm, dumps, repr);
    if step.outcome.Returned? {
      var sum := Summarize(s.messages, step.outcome.value, llm, dumps);
      assert sum.Returned? ==> t.outcome == Returned(ChatState(Stored(sum.value), tc, step.outcome.value));
    }
  }
}
