/** The executor (`tool_node`): it runs the one tool call the router chose
    and reports its result. Everything outside the agent is a parameter: the
    outcome of running a command, the GitHub server's answer to each request,
    the base64 encoder and the clock. */
module Executor {
  import opened Values
  import opened Text
  import opened ShellTool
  import opened FileTool
  import opened GitHubTool
  import Router

  /** The `tool_result` of the state: the tool's name and what it returned. */
  datatype ToolResult = ToolResult(tool: string, result: Json) {
    function ToJson(): Json {
      JObj([("tool", JStr(tool)), ("result", result)])
    }
  }

  /** What the executor asked of the outside world, in order. */
  datatype Invocation =
    | ShellCall(command: string)
    | ReadCall(path: string)
    | WriteCall(path: string, content: string)
    | HttpCall(req: Request)

  /** The outside world of one turn: how each command's run ends, how the
      server answers each request, `base64.b64encode`, `int(time.time())`,
      `datetime.utcnow().isoformat()`, and a number of repository pages
      within which the listing ends. */
  datatype World = World(
    shell: string -> Subprocess,
    api: Api,
    base64: string -> string,
    clock: int,
    isoNow: string,
    pageBound: nat)

  /** What the executor produced and asked for, and the files afterwards. */
  datatype Step = Step(outcome: Outcome<Option<ToolResult>>, calls: seq<Invocation>, fs: Fs)

  /** The server's answers to the requests for pages 1, 2, ... of the
      repository listing. */
  function Pages(w: World): (pages: seq<Response>)
    ensures |pages| == w.pageBound
    ensures forall k :: 0 <= k < |pages| ==> pages[k] == w.api(PageRequest(k + 1))
  {
    seq(w.pageBound, k => w.api(PageRequest(k + 1)))
  }

  /** `args.get(key)`. */
  function Arg(args: map<string, string>, key: string): Option<string> {
    if key in args then Some(args[key]) else None
  }

  /** `args.get(a) or args.get(b) or default`. */
  function FirstGiven(args: map<string, string>, a: string, b: string, default: string): (r: string)
    ensures Given(Arg(args, a)) ==> r == args[a]
    ensures !Given(Arg(args, a)) && Given(Arg(args, b)) ==> r == args[b]
    ensures !Given(Arg(args, a)) && !Given(Arg(args, b)) ==> r == default
  {
    Or(Or(Arg(args, a), Arg(args, b)), Some(default)).value
  }

  /** `{"ok": False, "error": error}`. */
  function Failure(error: string): Json {
    JObj([("ok", JBool(false)), ("error", JStr(error))])
  }

  /** A result of `tool`, the files unchanged. */
  function Done(tool: string, result: Json, calls: seq<Invocation>, fs: Fs): Step {
    Step(Returned(Some(ToolResult(tool, result))), calls, fs)
  }

  /** The requests of an exchange as invocations. */
  function Https(reqs: seq<Request>): (r: seq<Invocation>)
    ensures |r| == |reqs| && forall k :: 0 <= k < |reqs| ==> r[k] == HttpCall(reqs[k])
  {
    seq(|reqs|, k requires 0 <= k < |reqs| => HttpCall(reqs[k]))
  }

  /** The result of a GitHub wrapper: its value, or the exception it let escape. */
  function FromExchange(x: Exchange, before: seq<Request>, fs: Fs): (s: Step)
    ensures s.calls == Https(before + x.sent) && s.fs == fs
    ensures x.outcome.Raised? <==> s.outcome.Raised?
    ensures x.outcome.Returned? ==> s.outcome == Returned(Some(ToolResult("github", x.outcome.value)))
  {
    var outcome := match x.outcome
      case Raised(e) => Raised(e)
      case Returned(j) => Returned(Some(ToolResult("github", j)));
    Step(outcome, Https(before + x.sent), fs)
  }

  // ---------------------------------------------------------------------
  // Shell

  /** The result of the push intent: a status check, never a push. */
  function PushChecked(status: ShellResult): Json {
    JObj([("ok", JBool(true)), ("type", JStr("push_intent_checked")), ("status", status.ToJson())])
  }

  /** The shell branch: the command (empty when absent) is handed to
      `run_shell`; for the push intent the result is wrapped as a status
      check. An exception of `run_shell` escapes. */
  function ShellStep(args: map<string, string>, w: World, fs: Fs): (s: Step)
    ensures var cmd := if "command" in args then args["command"] else "";
      && s.calls == [ShellCall(cmd)] && s.fs == fs
      && var run := RunShell(cmd, w.shell(cmd));
      && (run.Raised? ==> s.outcome == Raised(run.exception))
      && (run.Returned? && Arg(args, "action") == Some("push_intent") ==>
            s.outcome == Returned(Some(ToolResult("shell", PushChecked(run.value)))))
      && (run.Returned? && Arg(args, "action") != Some("push_intent") ==>
            s.outcome == Returned(Some(ToolResult("shell", run.value.ToJson()))))
  {
    var cmd := if "command" in args then args["command"] else "";
    var calls := [ShellCall(cmd)];
    match RunShell(cmd, w.shell(cmd))
    case Raised(e) => Step(Raised(e), calls, fs)
    case Returned(res) =>
      if Arg(args, "action") == Some("push_intent") then Done("shell", PushChecked(res), calls, fs)
      else Done("shell", res.ToJson(), calls, fs)
  }

  // ---------------------------------------------------------------------
  // Files

  /** The path a read uses: `args.get("path") or args.get("text") or ""`. */
  function ReadPath(args: map<string, string>): string {
    FirstGiven(args, "path", "text", "")
  }

  /** The write branch's handler: a raising `write_file` would leave a result
      that wraps a whole `tool_result` again inside `result`. */
  function WriteHandled(o: Outcome<WriteReply>): (r: Json)
    ensures o.Returned? ==> r == o.value.ToJson()
    ensures o.Raised? ==> r == JObj([("tool_result", ToolResult("file", Failure(o.exception)).ToJson())])
  {
    match o
    case Returned(reply) => reply.ToJson()
    case Raised(e) => JObj([("tool_result", ToolResult("file", Failure(e)).ToJson())])
  }

  /** The file branch: a read of the path (or the text), a write of a given
      path with `create_dirs`, or, for any other action, no result. */
  function FileStep(args: map<string, string>, root: Path, fs: Fs): (s: Step)
    ensures Arg(args, "action") == Some("read") ==>
      s == Done("file", Read(root, fs, ReadPath(args)).ToJson(), [ReadCall(ReadPath(args))], fs)
    ensures Arg(args, "action") == Some("write") && !Given(Arg(args, "path")) ==>
      s == Done("file", Failure("missing_path"), [], fs)
    ensures Arg(args, "action") == Some("write") && Given(Arg(args, "path")) ==>
      var content := if Given(Arg(args, "content")) then args["content"] else "";
      var (reply, after) := Write(root, fs, args["path"], content, true);
      s == Done("file", reply.ToJson(), [WriteCall(args["path"], content)], after)
    ensures Arg(args, "action") !in {Some("read"), Some("write")} ==> s == Step(Returned(None), [], fs)
  {
    var action := Arg(args, "action");
    if action == Some("read") then
      var path := ReadPath(args);
      Done("file", Read(root, fs, path).ToJson(), [ReadCall(path)], fs)
    else if action == Some("write") then
      var path := Arg(args, "path");
      var content := if Given(Arg(args, "content")) then args["content"] else "";
      if !Given(path) then Done("file", Failure("missing_path"), [], fs)
      else
        var (reply, after) := Write(root, fs, path.value, content, true);
        Done("file", WriteHandled(Returned(reply)), [WriteCall(path.value, content)], after)
    else Step(Returned(None), [], fs)
  }

  // ---------------------------------------------------------------------
  // GitHub

  /** `args.get(key) or os.getenv(...)`. */
  function OrEnv(args: map<string, string>, key: string, fallback: Option<string>): (r: Option<string>)
    ensures Given(Arg(args, key)) ==> r == Some(args[key])
    ensures !Given(Arg(args, key)) ==> r == fallback
  {
    Or(Arg(args, key), fallback)
  }

  /** `r.json()["object"]["sha"]` when it succeeds. */
  function RefSha(data: Json): (sha: Option<Json>)
    ensures sha.Some? ==> data.JObj? && HasKey(data.fields, "object")
  {
    if data.JObj? && HasKey(data.fields, "object") then
      var obj := Get(data.fields, "object");
      if obj.JObj? && HasKey(obj.fields, "sha") then Some(Get(obj.fields, "sha")) else None
    else None
  }

  /** The best-effort creation of the head branch: a lookup of the base
      branch (`main` when no base is given) and, when it answers 200 with
      the commit's `sha`, a request creating `refs/heads/<head>`. Every
      failure is swallowed; the answers are otherwise ignored. */
  function BranchRequests(api: Api, owner: Option<string>, repo: Option<string>, head: string, base: Option<string>)
    : (reqs: seq<Request>)
    ensures 1 <= |reqs| <= 2 && reqs[0].verb == "GET"
    ensures |reqs| == 2 <==> api(reqs[0]).Http? && api(reqs[0]).status == 200 && RefSha(api(reqs[0]).data).Some?
    ensures |reqs| == 2 ==> reqs[1].verb == "POST" && reqs[1].url == RepoUrl(owner, repo) + "/git/refs"
  {
    var from := if Given(base) then base.value else "main";
    var lookup := Get1(RepoUrl(owner, repo) + "/git/ref/heads/" + from);
    match api(lookup)
    case TransportError(_) => [lookup]
    case Http(status, data) =>
      if status == 200 && RefSha(data).Some? then
        var payload := JObj([("ref", JStr("refs/heads/" + head)), ("sha", RefSha(data).value)]);
        [lookup, Request("POST", RepoUrl(owner, repo) + "/git/refs", [], Some(payload))]
      else [lookup]
  }

  /** The head branch of an automatic pull request. */
  function AutoHead(clock: int): string {
    "agent/auto-" + IntToString(clock)
  }

  /** The `create_pr` action once a repository is known: the head defaults to
      a fresh branch (created best-effort), the title to a dated one, the
      body to the text, and the base to the repository's default branch. */
  function PullRequestStep(args: map<string, string>, owner: Option<string>, repo: Option<string>, w: World, fs: Fs)
    : (s: Step)
    requires Given(repo)
    ensures s.fs == fs && s.outcome != Returned(None)
  {
    var head := Arg(args, "head");
    var base := Arg(args, "base");
    var headName := if Given(head) then head.value else AutoHead(w.clock);
    var before := if Given(head) then [] else BranchRequests(w.api, owner, repo, headName, base);
    var title := if Given(Arg(args, "title")) then args["title"] else "Automated PR by Agent: " + w.isoNow;
    var body := FirstGiven(args, "body", "text", "");
    var b := if Given(base) then Exchange(Returned(JStr(base.value)), []) else GetDefaultBranch(w.api, owner, repo);
    match b.outcome
    case Raised(e) => Step(Raised(e), Https(before + b.sent), fs)
    case Returned(baseName) =>
      FromExchange(CreatePullRequest(w.api, owner, repo, headName, baseName, title, body), before + b.sent, fs)
  }

  /** The GitHub branch, action by action; the lemmas after `GitHubStep`
      say which wrapper each action calls with which arguments. */
  function GitHubStep(args: map<string, string>, env: Router.Env, w: World, fs: Fs): (s: Step)
    requires Arg(args, "action") == Some("list_repos") ==> ListingEnds(Pages(w))
    ensures s.fs == fs && s.outcome != Returned(None)
  {
    var action := Arg(args, "action");
    var owner := OrEnv(args, "owner", env.owner);
    var repo := OrEnv(args, "repo", env.repo);
    if action == Some("list_repos") then
      var pages := Pages(w);
      var sent := seq(FirstStop(pages) + 1, k => PageRequest(k + 1));
      FromExchange(Exchange(ListFrom(pages, 0, []), sent), [], fs)
    else if action == Some("create_repo") then
      var name := Arg(args, "name");
      if !Given(name) then Done("github", Failure("missing_name"), [], fs)
      else FromExchange(CreateRepository(w.api, name.value, "Created by AI Agent", false), [], fs)
    else if action == Some("update_file") then
      var path := if Given(Arg(args, "path")) then args["path"] else "README.md";
      var content := FirstGiven(args, "content", "text", "");
      if !Given(repo) then Done("github", Failure("missing_repo"), [], fs)
      else FromExchange(CreateOrUpdateFile(w.api, w.base64, owner, repo, path, content, "Agent update"), [], fs)
    else if action == Some("create_pr") then
      if !Given(repo) then Done("github", Failure("missing_repo"), [], fs)
      else PullRequestStep(args, owner, repo, w, fs)
    else if action == Some("list_branches") then
      if !Given(repo) then Done("github", Failure("missing_repo"), [], fs)
      else FromExchange(ListBranches(w.api, owner, repo), [], fs)
    else Done("github", Failure("unknown_action"), [], fs)
  }

  /** `list_repos`: the listing's pages are requested from the first to the
      one where it stops, and its result is the tool's. */
  lemma ListReposCall(args: map<string, string>, env: Router.Env, w: World, fs: Fs)
    requires Arg(args, "action") == Some("list_repos") && ListingEnds(Pages(w))
    ensures GitHubStep(args, env, w, fs) ==
      FromExchange(Exchange(ListFrom(Pages(w), 0, []), seq(FirstStop(Pages(w)) + 1, k => PageRequest(k + 1))), [], fs)
  {
  }

  /** `create_repo`: a public repository with the call's name and the fixed
      description, or `missing_name` without a request. */
  lemma CreateRepoCall(args: map<string, string>, env: Router.Env, w: World, fs: Fs)
    requires Arg(args, "action") == Some("create_repo")
    ensures Given(Arg(args, "name")) ==>
      GitHubStep(args, env, w, fs) == FromExchange(CreateRepository(w.api, args["name"], "Created by AI Agent", false), [], fs)
    ensures !Given(Arg(args, "name")) ==> GitHubStep(args, env, w, fs) == Done("github", Failure("missing_name"), [], fs)
  {
  }

  /** `update_file`: owner and repository from the call or else the
      environment, the path `README.md` unless one is given, the content or
      else the text, and the commit message `Agent update`. */
  lemma UpdateFileCall(args: map<string, string>, env: Router.Env, w: World, fs: Fs)
    requires Arg(args, "action") == Some("update_file") && Given(OrEnv(args, "repo", env.repo))
    ensures var path := if Given(Arg(args, "path")) then args["path"] else "README.md";
      GitHubStep(args, env, w, fs) ==
        FromExchange(CreateOrUpdateFile(w.api, w.base64, OrEnv(args, "owner", env.owner), OrEnv(args, "repo", env.repo),
                                        path, FirstGiven(args, "content", "text", ""), "Agent update"), [], fs)
  {
  }

  /** `list_branches`: owner and repository from the call or else the
      environment. */
  lemma ListBranchesCall(args: map<string, string>, env: Router.Env, w: World, fs: Fs)
    requires Arg(args, "action") == Some("list_branches") && Given(OrEnv(args, "repo", env.repo))
    ensures GitHubStep(args, env, w, fs) ==
      FromExchange(ListBranches(w.api, OrEnv(args, "owner", env.owner), OrEnv(args, "repo", env.repo)), [], fs)
  {
  }

  /** `create_pr` with a head: with a base too, a single pull request from
      head to base; without one, the default branch is looked up first and
      is the base. The title defaults to a dated one and the body to the
      text. */
  lemma PullRequestCall(args: map<string, string>, env: Router.Env, w: World, fs: Fs)
    requires Arg(args, "action") == Some("create_pr") && Given(OrEnv(args, "repo", env.repo))
    requires Given(Arg(args, "head"))
    ensures var owner := OrEnv(args, "owner", env.owner);
      var repo := OrEnv(args, "repo", env.repo);
      var title := if Given(Arg(args, "title")) then args["title"] else "Automated PR by Agent: " + w.isoNow;
      var body := FirstGiven(args, "body", "text", "");
      var b := GetDefaultBranch(w.api, owner, repo);
      var s := GitHubStep(args, env, w, fs);
      && (Given(Arg(args, "base")) ==>
            s == FromExchange(CreatePullRequest(w.api, owner, repo, args["head"], JStr(args["base"]), title, body), [], fs))
      && (!Given(Arg(args, "base")) && b.outcome.Raised? ==> s == Step(Raised(b.outcome.exception), Https(b.sent), fs))
      && (!Given(Arg(args, "base")) && b.outcome.Returned? ==>
            s == FromExchange(CreatePullRequest(w.api, owner, repo, args["head"], b.outcome.value, title, body), b.sent, fs))
  {
  }

  /** The actions that need a repository report `missing_repo` without a
      request when neither the call nor the environment names one, and an
      unknown action is reported as such. */
  lemma GitHubGuards(args: map<string, string>, env: Router.Env, w: World, fs: Fs)
    ensures Arg(args, "action") in {Some("update_file"), Some("create_pr"), Some("list_branches")}
            && !Given(OrEnv(args, "repo", env.repo)) ==>
      GitHubStep(args, env, w, fs) == Done("github", Failure("missing_repo"), [], fs)
    ensures Arg(args, "action") !in {Some("list_repos"), Some("create_repo"), Some("update_file"), Some("create_pr"),
                                     Some("list_branches")} ==>
      GitHubStep(args, env, w, fs) == Done("github", Failure("unknown_action"), [], fs)
  {
  }

  // ---------------------------------------------------------------------
  // Repository coordinator

  /** The `fix_repo` action: the test suite, then the linter, each through
      `run_shell`; only the linter's exception is caught. */
  function RepoStep(args: map<string, string>, w: World, fs: Fs): (s: Step)
    ensures s.fs == fs
    ensures Arg(args, "action") != Some("fix_repo") ==> s == Done("repo", Failure("unknown_repo_action"), [], fs)
    ensures Arg(args, "action") == Some("fix_repo") && RunShell("pytest -q", w.shell("pytest -q")).Raised? ==>
      s == Step(Raised(RunShell("pytest -q", w.shell("pytest -q")).exception), [ShellCall("pytest -q")], fs)
    ensures Arg(args, "action") == Some("fix_repo") && RunShell("pytest -q", w.shell("pytest -q")).Returned? ==>
      s.calls == [ShellCall("pytest -q"), ShellCall("flake8 .")] && s.outcome.Returned?
  {
    if Arg(args, "action") == Some("fix_repo") then
      var calls := [ShellCall("pytest -q"), ShellCall("flake8 .")];
      match RunShell("pytest -q", w.shell("pytest -q"))
      case Raised(e) => Step(Raised(e), [ShellCall("pytest -q")], fs)
      case Returned(tests) =>
        var lint := match RunShell("flake8 .", w.shell("flake8 ."))
          case Raised(_) => Failure("flake8_not_available")
          case Returned(res) => res.ToJson();
        Done("repo", JObj([("tests", tests.ToJson()), ("lint", lint)]), calls, fs)
    else Done("repo", Failure("unknown_repo_action"), [], fs)
  }

  // ---------------------------------------------------------------------
  // Dispatch

  /** The call lists repositories (the one case that needs the listing to end). */
  predicate ListsRepos(tc: Option<Router.ToolCall>) {
    tc.Some? && tc.value.tool == "github" && Arg(tc.value.args, "action") == Some("list_repos")
  }

  /** `tool_node`: no result without a call or for an unknown tool; otherwise
      the step of the tool's branch. */
  function Dispatch(tc: Option<Router.ToolCall>, env: Router.Env, w: World, root: Path, fs: Fs): (s: Step)
    requires ListsRepos(tc) ==> ListingEnds(Pages(w))
    ensures tc.None? || tc.value.tool !in {"shell", "file", "github", "repo"} ==> s == Step(Returned(None), [], fs)
    ensures tc.Some? && tc.value.tool != "file" ==> s.fs == fs
    ensures tc.Some? && tc.value.tool == "shell" ==> |s.calls| == 1 && s.calls[0].ShellCall?
  {
    if tc.None? then Step(Returned(None), [], fs)
    else
      var args := tc.value.args;
      match tc.value.tool
      case "shell" => ShellStep(args, w, fs)
      case "file" => FileStep(args, root, fs)
      case "github" => GitHubStep(args, env, w, fs)
      case "repo" => RepoStep(args, w, fs)
      case _ => Step(Returned(None), [], fs)
  }

  /** `tool_node` over the project's file system, which a write changes in
      place; the repository listing runs its page loop. */
  method ToolNode(tc: Option<Router.ToolCall>, env: Router.Env, w: World, files: FileSystem)
    returns (outcome: Outcome<Option<ToolResult>>, calls: seq<Invocation>)
    requires files.Valid()
    requires ListsRepos(tc) ==> ListingEnds(Pages(w))
    modifies files
    ensures files.Valid()
    ensures Step(outcome, calls, files.State()) == Dispatch(tc, env, w, files.root, old(files.State()))
  {
    if tc.None? {
      return Returned(None), [];
    }
    var args := tc.value.args;
    var action := Arg(args, "action");
    if tc.value.tool == "file" && action == Some("read") {
      var path := ReadPath(args);
      var reply := files.ReadFile(path);
      return Returned(Some(ToolResult("file", reply.ToJson()))), [ReadCall(path)];
    }
    if tc.value.tool == "file" && action == Some("write") && Given(Arg(args, "path")) {
      var path := args["path"];
      var content := if Given(Arg(args, "content")) then args["content"] else "";
      var reply := files.WriteFile(path, content, true);
      return Returned(Some(ToolResult("file", WriteHandled(Returned(reply))))), [WriteCall(path, content)];
    }
    if tc.value.tool == "github" && action == Some("list_repos") {
      var listing, sent := ListRepos(Pages(w));
      var s := FromExchange(Exchange(listing, sent), [], files.State());
      return s.outcome, s.calls;
    }
    var tool := tc.value.tool;
    var s := Step(Returned(None), [], files.State());
    if tool == "shell" {
      s := ShellStep(args, w, files.State());
    } else if tool == "file" {
      s := FileStep(args, files.root, files.State());
    } else if tool == "github" {
      s := GitHubStep(args, env, w, files.State());
    } else if tool == "repo" {
      s := RepoStep(args, w, files.State());
    }
    outcome, calls := s.outcome, s.calls;
  }

  // ---------------------------------------------------------------------
  // Properties of the executor

  /** The argument guards: each gives its error code and invokes nothing. */
  lemma GuardsInvokeNothing(tc: Option<Router.ToolCall>, env: Router.Env, w: World, root: Path, fs: Fs)
    requires ListsRepos(tc) ==> ListingEnds(Pages(w))
    ensures var s := Dispatch(tc, env, w, root, fs);
      && (tc.None? ==> s == Step(Returned(None), [], fs))
      && (tc.Some? ==>
            var args := tc.value.args;
            var action := Arg(args, "action");
            var repo := OrEnv(args, "repo", env.repo);
            && (tc.value.tool == "file" && action == Some("write") && !Given(Arg(args, "path")) ==>
                  s == Done("file", Failure("missing_path"), [], fs))
            && (tc.value.tool == "github" && action == Some("create_repo") && !Given(Arg(args, "name")) ==>
                  s == Done("github", Failure("missing_name"), [], fs))
            && (tc.value.tool == "github" && action in {Some("update_file"), Some("create_pr"), Some("list_branches")}
                && !Given(repo) ==>
                  s == Done("github", Failure("missing_repo"), [], fs)))
  {
  }

  /** Without a result, nothing was invoked: only a missing call, an unknown
      tool or an unknown file action give no result. */
  lemma NoResultNoCalls(tc: Option<Router.ToolCall>, env: Router.Env, w: World, root: Path, fs: Fs)
    requires ListsRepos(tc) ==> ListingEnds(Pages(w))
    ensures var s := Dispatch(tc, env, w, root, fs);
      s.outcome == Returned(None) ==> s.calls == [] && s.fs == fs
  {
    if tc.Some? && tc.value.tool == "file" {
      var args := tc.value.args;
      assert Arg(args, "action") !in {Some("read"), Some("write")} ==> FileStep(args, root, fs).calls == [];
    }
  }

  /** A push call runs its status command and nothing else, and its result
      is the status check. */
  lemma PushCallChecksStatus(tc: Router.ToolCall, env: Router.Env, w: World, root: Path, fs: Fs)
    requires tc.tool == "shell" && Arg(tc.args, "action") == Some("push_intent")
    requires Arg(tc.args, "command") == Some("git status -b")
    ensures var s := Dispatch(Some(tc), env, w, root, fs);
      var run := RunShell("git status -b", w.shell("git status -b"));
      && s.calls == [ShellCall("git status -b")] && s.fs == fs
      && (run.Returned? ==> s.outcome == Returned(Some(ToolResult("shell", PushChecked(run.value)))))
  {
    assert Dispatch(Some(tc), env, w, root, fs) == ShellStep(tc.args, w, fs);
  }

  /** Only a file write with a path changes the files. */
  lemma OnlyWritesChangeFiles(tc: Option<Router.ToolCall>, env: Router.Env, w: World, root: Path, fs: Fs)
    requires ListsRepos(tc) ==> ListingEnds(Pages(w))
    ensures Dispatch(tc, env, w, root, fs).fs != fs ==>
      tc.Some? && tc.value.tool == "file" && Arg(tc.value.args, "action") == Some("write")
      && Given(Arg(tc.value.args, "path"))
  {
    if tc.Some? && tc.value.tool == "file" {
      var args := tc.value.args;
      assert Arg(args, "action") !in {Some("read"), Some("write")} ==> FileStep(args, root, fs).fs == fs;
    }
  }

  /** Round trip through the executor: a write call that succeeds, followed
      by a read call of the same path, gives back the content written. */
  lemma WriteThenReadCall(env: Router.Env, w: World, root: Path, fs: Fs, path: string, content: string)
    requires WellFormed(fs) && path != ""
    requires var write := Router.ToolCall("file", map["action" := "write", "path" := path, "content" := content]);
      Dispatch(Some(write), env, w, root, fs).outcome == Returned(Some(ToolResult("file", WriteOk.ToJson())))
    ensures var write := Router.ToolCall("file", map["action" := "write", "path" := path, "content" := content]);
      var read := Router.ToolCall("file", map["action" := "read", "path" := path]);
      var after := Dispatch(Some(write), env, w, root, fs).fs;
      Dispatch(Some(read), env, w, root, after).outcome == Returned(Some(ToolResult("file", ReadOk(content).ToJson())))
  {
    var wargs := map["action" := "write", "path" := path, "content" := content];
    var rargs := map["action" := "read", "path" := path];
    assert Arg(wargs, "action") == Some("write") && Arg(wargs, "path") == Some(path);
    assert Arg(rargs, "action") == Some("read") && Arg(rargs, "path") == Some(path);
    assert ReadPath(rargs) == path;
    var stored := if Given(Arg(wargs, "content")) then wargs["content"] else "";
    assert stored == content;
    var (reply, after) := Write(root, fs, path, content, true);
    assert reply.ToJson() == WriteOk.ToJson();
    assert reply == WriteOk;
    WriteThenRead(root, fs, path, content, true);
  }

  /** A read call of a path holding `content` returns it, reads once and
      changes nothing. The router's call for `read file X` is such a call for
      the path `Strip(X)` (`Router.ReadRoutesPath`), and after a successful
      write `FileTool.WriteThenRead` gives the premise: together they are the
      read scenario from the message to `{ok: true, content}`. */
  lemma ReadCallReturns(args: map<string, string>, env: Router.Env, w: World, root: Path, fs: Fs,
                        path: string, content: string)
    requires path != ""
    requires Arg(args, "action") == Some("read") && Arg(args, "path") == Some(path)
    requires Read(root, fs, path) == ReadOk(content)
    ensures Dispatch(Some(Router.ToolCall("file", args)), env, w, root, fs)
      == Step(Returned(Some(ToolResult("file", ReadOk(content).ToJson()))), [ReadCall(path)], fs)
  {
    assert ReadPath(args) == path;
  }

  /** A pull request without a head branch: the head is the dated
      `agent/auto-<time>` branch, and the lookup of the base branch (`main`
      when none is given) and, when it names a commit, the creation of the
      head come first. The base is the given one or else the repository's
      default branch, looked up next, whose failure escapes; the pull
      request then goes from that head onto that base. */
  lemma AutoHeadPullRequest(args: map<string, string>, env: Router.Env, w: World, fs: Fs)
    requires Arg(args, "action") == Some("create_pr") && Given(OrEnv(args, "repo", env.repo))
    requires !Given(Arg(args, "head"))
    ensures var owner := OrEnv(args, "owner", env.owner);
      var repo := OrEnv(args, "repo", env.repo);
      var head := AutoHead(w.clock);
      var before := BranchRequests(w.api, owner, repo, head, Arg(args, "base"));
      var title := if Given(Arg(args, "title")) then args["title"] else "Automated PR by Agent: " + w.isoNow;
      var body := FirstGiven(args, "body", "text", "");
      var b := GetDefaultBranch(w.api, owner, repo);
      var s := GitHubStep(args, env, w, fs);
      && (Given(Arg(args, "base")) ==>
            s == FromExchange(CreatePullRequest(w.api, owner, repo, head, JStr(args["base"]), title, body), before, fs))
      && (!Given(Arg(args, "base")) && b.outcome.Raised? ==> s == Step(Raised(b.outcome.exception), Https(before + b.sent), fs))
      && (!Given(Arg(args, "base")) && b.outcome.Returned? ==>
            s == FromExchange(CreatePullRequest(w.api, owner, repo, head, b.outcome.value, title, body), before + b.sent, fs))
  {
    AutoHeadStep(args, OrEnv(args, "owner", env.owner), OrEnv(args, "repo", env.repo), w, fs);
  }

  /** `AutoHeadPullRequest` at the level of the pull-request branch. */
  lemma AutoHeadStep(args: map<string, string>, owner: Option<string>, repo: Option<string>, w: World, fs: Fs)
    requires Given(repo) && !Given(Arg(args, "head"))
    ensures var head := AutoHead(w.clock);
      var before := BranchRequests(w.api, owner, repo, head, Arg(args, "base"));
      var title := if Given(Arg(args, "title")) then args["title"] else "Automated PR by Agent: " + w.isoNow;
      var body := FirstGiven(args, "body", "text", "");
      var b := GetDefaultBranch(w.api, owner, repo);
      var s := PullRequestStep(args, owner, repo, w, fs);
      && (Given(Arg(args, "base")) ==>
            s == FromExchange(CreatePullRequest(w.api, owner, repo, head, JStr(args["base"]), title, body), before, fs))
      && (!Given(Arg(args, "base")) && b.outcome.Raised? ==> s == Step(Raised(b.outcome.exception), Https(before + b.sent), fs))
      && (!Given(Arg(args, "base")) && b.outcome.Returned? ==>
            s == FromExchange(CreatePullRequest(w.api, owner, repo, head, b.outcome.value, title, body), before + b.sent, fs))
  {
  }

  /** With an owner and a base, the headless pull request sends exactly the
      branch requests and then the pull request from the dated head. */
  lemma AutoHeadRequests(args: map<string, string>, env: Router.Env, w: World, fs: Fs)
    requires Arg(args, "action") == Some("create_pr")
    requires !Given(Arg(args, "head")) && Given(Arg(args, "base"))
    requires Given(OrEnv(args, "owner", env.owner)) && Given(OrEnv(args, "repo", env.repo))
    ensures var owner := OrEnv(args, "owner", env.owner);
      var repo := OrEnv(args, "repo", env.repo);
      var head := AutoHead(w.clock);
      var title := if Given(Arg(args, "title")) then args["title"] else "Automated PR by Agent: " + w.isoNow;
      var pr := PullRequest(owner, repo, head, JStr(args["base"]), title, FirstGiven(args, "body", "text", ""));
      GitHubStep(args, env, w, fs).calls == Https(BranchRequests(w.api, owner, repo, head, Arg(args, "base")) + [pr])
  {
    var owner := OrEnv(args, "owner", env.owner);
    var repo := OrEnv(args, "repo", env.repo);
    assert AutoHead(w.clock) != "";
    assert Truthy(JStr(args["base"]));
  }

  /** The repository fixer's lint step never runs: `flake8 .` is refused by
      the whitelist, so whenever the tests run, the lint result is the
      rejection. */
  lemma FixRepoLintRejected(args: map<string, string>, w: World, fs: Fs)
    requires Arg(args, "action") == Some("fix_repo")
    requires RunShell("pytest -q", w.shell("pytest -q")).Returned?
    ensures var tests := RunShell("pytest -q", w.shell("pytest -q")).value;
      RepoStep(args, w, fs) ==
        Done("repo", JObj([("tests", tests.ToJson()), ("lint", Rejected.ToJson())]),
             [ShellCall("pytest -q"), ShellCall("flake8 .")], fs)
  {
    LintCommandRejected();
  }
}
