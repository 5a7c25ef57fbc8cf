# A verified model of the SimpleChat DevOps agent

The agent answers chat messages with at most one tool action per turn. Its
graph runs three nodes in a fixed order:

- **router** (`router_node`) picks a single tool call from the last message.
  It tries ten regular-expression rules in a fixed order, and the first that
  fires wins.
- **executor** (`tool_node`) runs that call. The tools are:
  - a whitelisted shell;
  - a file tool confined to the project root;
  - a GitHub REST wrapper;
  - a "fix repo" coordinator that runs the tests and the linter.
- **summariser** (`llm_node`) builds a prompt and asks the language model. The
  prompt holds a fixed instruction, the latest twelve messages and the tool's
  result, cut to 2000 characters.

This project restates that core in Dafny and proves what it promises. Each
part keeps the form of the code it models:

- The router, the normaliser and the GitHub wrappers compute values, so they
  are functions over datatypes.
- The file tool changes the project's files in place, so it is a class whose
  methods update its state.
- The repository listing, the per-page summaries and the prompt builder loop,
  so they are methods proved against the functions that specify them.

The outside world enters every operation as a parameter:

- the HTTP server, as a function from request to response;
- how each shell command ends;
- `base64`, `json.dumps`, `repr`;
- the clock;
- the language model.

Python exceptions are the `Raised` case of an `Outcome`.

Modules, one file each:

- `values.dfy` (`Values`): JSON values, `Outcome`, Python truthiness and `or`, `dict.get`.
- `text.dfy` (`Text`): `str.strip`, `str.lower`, word characters, decimal rendering.
- `patterns.dfy` (`Patterns`): the regular-expression building blocks the router uses.
  - Literal, case-insensitive and `\b`-bounded matches.
  - Leftmost search.
  - Character-class runs.
  - The `(.+)$` and `\s*(.+)$` tails.
- `messages.dfy` (`Messages`): `normalize_message`.
- `router.dfy` (`Router`): `router_node`.
- `shell_tool.dfy` (`ShellTool`): `run_shell` and its whitelist.
- `file_tool.dfy` (`FileTool`): `safe_path`, `read_file` and `write_file`, over a file system of files and directories.
- `github_tool.dfy` (`GitHubTool`): `_safe_request`, `get_default_branch`, `create_repository`, `create_or_update_file`, `list_repos`, `list_branches` and `create_pull_request`.
- `executor.dfy` (`Executor`): `tool_node`.
- `summarizer.dfy` (`Summarizer`): `llm_node`.
- `agent.dfy` (`Agent`): the compiled graph START → router → tool → llm → END.

The model follows the code as written, including these points, where the
code does not do what a reader of its comments and names might expect:

- The executor can raise:
  - `create_repository`, `list_branches` and `create_pull_request` read
    `r["data"]` after a transport failure (`KeyError`);
  - the PUT of `create_or_update_file` is sent outside the safe wrapper;
  - `shlex.split` runs outside the `try`;
  - `.get` is called on JSON that is not a dictionary.
- `run_shell` reports `ok: true` for every command that completes, whatever
  its exit status.
- `flake8 .` is not on the shell whitelist. The lint half of `fix_repo` is
  therefore always the rejection result, and its `flake8_not_available`
  handler never runs.
- `read_file` and `write_file` never raise. The executor's exception handlers
  around them are dead code. The write handler would wrap a whole
  `tool_result` inside `result` again; `Executor.WriteHandled` records that
  shape.
- The rules are tested against lower-cased text, so the alternatives
  `update README` and `edit README.md` never fire. A message
  "edit README.md" is not routed to the README update.
- In the repository-name pattern, the `repo called` and `repo named`
  alternatives come after `repo`. The leftmost match therefore takes
  "called" or "named" as the name.

## Model

| member | source | states |
|---|---|---|
| Values.GetOr | simplechat_agent.py:36-37 | `d.get(key, default)`: the default when the key is absent, otherwise the value of an entry with that key |
| Values.Or | simplechat_agent.py:36 | Python `a or b`: `a` when it is truthy, otherwise `b` |
| Values.OrNone | simplechat_agent.py:134-135 | `x or None`: an empty string becomes `None`, anything else is kept |
| Text.Strip | simplechat_agent.py:70 | `str.strip()`: a slice of the input that neither starts nor ends with whitespace, with only whitespace cut on either side |
| Text.StripTrimmed | simplechat_agent.py:70 | a text that neither starts nor ends with whitespace is its own strip |
| Text.Lower | simplechat_agent.py:74 | `str.lower()`: same length, each character mapped to its lower case |
| Text.NatToString | simplechat_agent.py:247 | `str(n)`: a non-empty string of decimal digits whose value is `n`, with no leading zero unless `n` is 0 |
| Patterns.UpperKeywordNeverMatchesLowered | simplechat_agent.py:114 | a pattern holding an upper-case letter never matches lower-cased text |
| Patterns.FirstHit | simplechat_agent.py:77-81 | the first index that passes a test, and none before it; `None` when none does |
| Patterns.Leftmost | simplechat_agent.py:86 | `re.search`: the match at the leftmost position that has one, and no match before it |
| Patterns.LeftmostUnique | simplechat_agent.py:86 | two positions that each match with no match before them are the same position, so the leftmost match is unique |
| Patterns.Search | simplechat_agent.py:86 | `re.search` over a whole string: the leftmost match, or no match at any position |
| Patterns.RunLength | simplechat_agent.py:105 | a character-class run (`[A-Za-z0-9._-]+`): every character in the run is in the class, and the next one is not |
| Patterns.LineTail | simplechat_agent.py:86 | `(.+)$`: a non-empty tail without a newline, reaching the end or a final newline |
| Patterns.SpacedTail | simplechat_agent.py:157 | `\s*(.+)$` anchored at the start: a capture is a non-empty piece of one line; Patterns.SpacedTailBacktracks says which |
| Patterns.SpacedStart | simplechat_agent.py:157 | how much of the whitespace prefix the engine keeps: at most the whole prefix; Patterns.SpacedStartMatches says which |
| Patterns.SpacedStartMatches | simplechat_agent.py:157 | with a capture, `(.+)$` matches after the prefix length Patterns.SpacedStart gives and after no longer one |
| Patterns.SpacedTailBacktracks | simplechat_agent.py:157 | the capture is `(.+)$` after the longest whitespace prefix that lets it match, the shorter prefixes tried only when the longer ones fail |
| Patterns.SpacedTailNoMatch | simplechat_agent.py:157 | no capture only when no whitespace prefix, the empty one included, lets `(.+)$` match |
| Patterns.SpacedTailOneLine | simplechat_agent.py:157 | on one line, `\s*(.+)$` captures the rest, equal to it once stripped |
| Messages.RoleText | simplechat_agent.py:36 | the role is `role`, else `type`, lower-cased, or `""` when both are falsy; a non-string role raises |
| Messages.Make | simplechat_agent.py:39-42 | a message is built exactly when the content is a string, and it carries that content |
| Messages.ContentOf | simplechat_agent.py:37 | the value of a `content` entry whenever the key is present; otherwise the value of a `text` entry; `""` when neither key is present |
| Messages.Normalize | simplechat_agent.py:32-45 | message objects are kept; strings become user messages; dictionaries map `user`/`human` to user and `assistant`/`ai` to assistant; any other role gives a system message whose empty content falls back to the JSON dump; other values give a system message with their `str()` |
| Messages.DictRoundTrip | simplechat_agent.py:35-42 | the dictionary form of a message normalises back to the same message, except a system message with empty content, which becomes its JSON dump |
| Messages.ContentKeyWins | simplechat_agent.py:37-39 | a present `content` key decides the content even when `text` is there too, and a `None` content fails to build |
| Messages.TextFallback | simplechat_agent.py:37-39 | without `content`, the `text` value is the content; without either, the content is empty |
| Messages.EmptyDictIsDump | simplechat_agent.py:36-42 | an empty dictionary has no role and no content, so it becomes a system message holding its JSON dump |
| Messages.RoleIgnoresCase | simplechat_agent.py:36-39 | a role in any letter case that lowers to `user` or `human` gives a user message with the same content |
| Router.Classify | simplechat_agent.py:77-155 | the index of the first rule that fires, with none firing before it; `None` exactly when no rule fires |
| Router.Triggers | simplechat_agent.py:77-155 | no contract of its own: each rule's patterns; Router.Classify, Router.CreateRepoFires and Router.UpperReadmeAlternativesDead state what they decide |
| Router.Fires | simplechat_agent.py:77-81 | no contract of its own: rule `k` fires when one of its patterns matches; Router.Classify and Router.RouteFirstRule use it |
| Router.ReadSearch | simplechat_agent.py:86-87 | the leftmost `read (file )?(.+)$` capture, or none when nothing matches |
| Router.WritePairSearch | simplechat_agent.py:92-95 | the leftmost path-and-content capture of the colon form |
| Router.WritePathSearch | simplechat_agent.py:98-99 | the leftmost path-only capture |
| Router.RepoNameSearch | simplechat_agent.py:105-106 | the leftmost repository-name capture |
| Router.ReadmeSearch | simplechat_agent.py:116 | the leftmost README-update capture |
| Router.TextOwnerRepo | simplechat_agent.py:128-130 | the leftmost `owner/repo` pair in the text, or none when there is none |
| Router.FromToSearch | simplechat_agent.py:131-133 | the leftmost `from X to Y` pair, or none |
| Router.RunSearch | simplechat_agent.py:157 | the leftmost `run:` capture, or none |
| Router.WriteArgs | simplechat_agent.py:92-101 | the colon form gives path and content, both stripped; otherwise the path alone, and no content |
| Router.ReadmeArgs | simplechat_agent.py:116-123 | the path is always `README.md`; owner and repo are present together, exactly when an `owner/repo` was captured; content exactly when captured |
| Router.PullRequestArgs | simplechat_agent.py:127-136 | an `owner/repo` from the text wins; otherwise the environment's values, an empty one counting as unset; head and base are present exactly when `from X to Y` matched |
| Router.BranchesArgs | simplechat_agent.py:140-144 | the pair from the text, otherwise the environment's values as they are |
| Router.ArgsFor | simplechat_agent.py:84-159 | every rule's arguments carry its action name and the stripped text, plus exactly its own extracted keys: the stripped `read` capture as `path` when one matched; the `repo` name capture as `name` when one matched; `git status -b` for push; the `run:` command for shell; no further key for listing and fixing; and the write, README, pull-request and branch arguments |
| Router.CallFor | simplechat_agent.py:84-159 | a rule's call names that rule's tool and action, and its arguments are those ArgsFor states |
| Router.Route | simplechat_agent.py:58-162 | no call without messages; a call always carries the last message's stripped text |
| Router.MessageText | simplechat_agent.py:69-72 | no contract of its own: `str(last.content)`, the text of one message |
| Router.LastText | simplechat_agent.py:65-72 | no contract of its own: the last message's text, stripped; Router.Route and Router.RouteNone state its use |
| Router.RouteFirstRule | simplechat_agent.py:83-159 | when rule `k` is the first to fire, the call is rule `k`'s |
| Router.RouteNone | simplechat_agent.py:65-67 | no call exactly when there is no message or no rule fires |
| Router.CreateRepoBeatsBranches | simplechat_agent.py:103-107 | "create repo" without a file phrase routes to `create_repo` on GitHub, even when branches are mentioned, with `name` set exactly when the name pattern captures one, to that capture |
| Router.CreateRepoFires | simplechat_agent.py:104 | the phrase `create repo` fires the third rule, which is repository creation |
| Router.CreateRepoName | simplechat_agent.py:105-106 | in `create repo <name>` with a name of letters, digits, `.`, `_` and `-`, the captured name is exactly that name |
| Router.CreateRepoMyproj | simplechat_agent.py:105-106 | `create repo myproj` captures the name `myproj` |
| Router.ReadRoutesPath | simplechat_agent.py:84-88 | a one-line `read file X` routes to a file read whose path is `X` stripped, with the text |
| Router.ReadFileCapture | simplechat_agent.py:86-87 | on one line, `read (file )?(.+)$` captures everything after `read file ` |
| Router.PushIsStatusCheck | simplechat_agent.py:147-159 | a shell call's command is `git status -b` for the push intent and the `run:` extraction otherwise |
| Router.UpperReadmeAlternativesDead | simplechat_agent.py:114 | on lower-cased text, the README rule fires exactly when `update readme` matches; the upper-case alternatives never do |
| Router.ExecCommandAfterRun | simplechat_agent.py:157-158 | with `run:` in a one-line message, the command is the stripped text after the first `run:` |
| Router.ExecCommandWhole | simplechat_agent.py:158 | without `run:`, the command is the whole message |
| Router.ExecCommand | simplechat_agent.py:157-158 | without any `run:` match the command is the whole message; otherwise it is the stripped capture of the leftmost match |
| Router.RunSearchLeftmost | simplechat_agent.py:157 | `re.search` for `run:` gives the match at the leftmost matching position |
| Router.AddFileHasNoPath | simplechat_agent.py:90-101 | "add file …" fires the write rule, but no verb pattern matches, so neither path nor content is set |
| Router.PullRequestUsesEnv | simplechat_agent.py:134-135 | without `owner/repo` in the text, owner and repo come from the environment, empty values counting as unset |
| Router.OwnerRepoFromText | simplechat_agent.py:128-130 | the first `owner/repo` position gives the pair the router uses |
| ShellTool.AnyPrefix | agent_tools/shell_tool.py:15 | `any(s.startswith(w) for w in ws)`: true exactly when some entry is a prefix |
| ShellTool.Allowed | agent_tools/shell_tool.py:13-15 | no contract of its own: the stripped command starts with a whitelist entry; ShellTool.DangerousCommandsRejected, ShellTool.StatusCheckAllowed, ShellTool.PrefixNotWord and ShellTool.LintCommandRejected state its values, ShellTool.RunShell its use |
| ShellTool.RunShell | agent_tools/shell_tool.py:11-34 | a command whose stripped form starts with no entry is rejected; an allowed one raises on a split failure, gives `exec_error` on a spawn failure, `timeout` on a time-out and `ok` on completion; `ok` holds exactly for an allowed, completed run, and exactly when there is no error |
| ShellTool.RejectionSpawnsNothing | agent_tools/shell_tool.py:16-17 | a rejected command gives the fixed rejection whatever the process would have done |
| ShellTool.NoEntryMatches | agent_tools/shell_tool.py:7-9 | a text that differs from every entry within both lengths starts with no entry |
| ShellTool.DangerousCommandsRejected | agent_tools/shell_tool.py:7-17 | commands starting with `rm`, `curl` or `git push` are rejected without running |
| ShellTool.PrefixNotWord | agent_tools/shell_tool.py:15 | the prefix test is on characters, not words: `lsblk …` passes because of `ls` |
| ShellTool.StatusCheckAllowed | agent_tools/shell_tool.py:7-9 | `git status -b` is allowed |
| ShellTool.LintCommandRejected | agent_tools/shell_tool.py:7-9 | `flake8 .` is not allowed |
| FileTool.Split | agent_tools/file_tool.py:8 | splitting a path on `/` gives at least one segment |
| FileTool.Normalize | agent_tools/file_tool.py:8 | no contract of its own: `resolve()` on segments; FileTool.NormalizeExtends, FileTool.RelativeWithoutParentIsConfined and FileTool.ParentEscapes state its properties |
| FileTool.Resolve | agent_tools/file_tool.py:8 | no contract of its own: `(root / path).resolve()`; FileTool.SafePath, FileTool.RelativeWithoutParentIsConfined and FileTool.ParentEscapes state its properties |
| FileTool.SafePath | agent_tools/file_tool.py:7-11 | the resolved path exactly when it is the root or lies under it, otherwise the permission error |
| FileTool.NormalizeExtends | agent_tools/file_tool.py:8 | segments without `..` only extend the base path |
| FileTool.RelativeWithoutParentIsConfined | agent_tools/file_tool.py:7-11 | a relative path without `..` always resolves inside the root |
| FileTool.ParentEscapes | agent_tools/file_tool.py:9-10 | `../name` is refused unless `name` is the root's own last segment |
| FileTool.FirstNonDir | agent_tools/file_tool.py:27 | the shortest ancestor of a path that is not a directory, with every shorter one a directory |
| FileTool.Mkdir | agent_tools/file_tool.py:27 | `mkdir(parents=True, exist_ok=True)`: success leaves the files alone, keeps every directory and makes the target one; it fails only when the target or one of its ancestors is a file |
| FileTool.WriteText | agent_tools/file_tool.py:28 | `write_text`: succeeds exactly when the path is no directory and all its ancestors are directories, and then stores the content at the path and changes nothing else |
| FileTool.MkdirMakesAncestors | agent_tools/file_tool.py:27 | a successful `mkdir(parents=True)` leaves the files alone, only adds directories, and leaves the directory and all its ancestors existing |
| FileTool.MkdirWellFormed | agent_tools/file_tool.py:27 | `mkdir` keeps the file system well formed |
| FileTool.WriteTextWellFormed | agent_tools/file_tool.py:28 | `write_text` keeps the file system well formed |
| FileTool.WriteWellFormed | agent_tools/file_tool.py:23-31 | `write_file` keeps the file system well formed, whatever happens |
| FileTool.WriteThenRead | agent_tools/file_tool.py:13-29 | after a successful write, reading the same path returns the content written |
| FileTool.OutsideRootUntouched | agent_tools/file_tool.py:14-25 | a path outside the root changes nothing, and both read and write report the permission error; the read's result has empty content |
| FileTool.MissingIsNotFound | agent_tools/file_tool.py:16-17 | a confined path that does not exist reads as `not_found` |
| FileTool.CreateDirsWrites | agent_tools/file_tool.py:26-29 | with `create_dirs`, a confined path whose ancestors are no files and which is not a directory is written successfully |
| FileTool.Read | agent_tools/file_tool.py:13-21 | content is returned exactly for a confined path that is a file, and it is that file's content; a path outside the root gives the permission error |
| FileTool.Write | agent_tools/file_tool.py:23-31 | a path outside the root changes nothing; success stores the content at the resolved path, which is no directory, and keeps every other file; a failure leaves every file as it was, though directories made before it remain |
| FileTool.FileSystem.constructor | agent_tools/file_tool.py:5 | the project's files start in the given well-formed state under the given root |
| FileTool.FileSystem.ReadFile | agent_tools/file_tool.py:13-21 | `read_file` on the current files, which it leaves unchanged |
| FileTool.FileSystem.WriteFile | agent_tools/file_tool.py:23-31 | `write_file`: the reply and the new files are those of the write on the old files, and the files stay well formed |
| GitHubTool.SafeRequest | agent_tools/github_tool.py:31-47 | `ok` exactly for an answer with status 200, 201 or 204; a transport failure gives no status |
| GitHubTool.Reply.DataOrRaise | agent_tools/github_tool.py:78 | `r["data"]` is the body of an answer and a `KeyError` without one |
| GitHubTool.GetDefaultBranch | agent_tools/github_tool.py:53-58 | one GET of the repository; `main` when it fails, otherwise its `default_branch` or `main`; a successful body that is not a dictionary raises |
| GitHubTool.DefaultBranchFallback | agent_tools/github_tool.py:56-58 | a branch other than `main` comes only from a successful lookup whose answer names one |
| GitHubTool.FailureDict | agent_tools/github_tool.py:78 | a failed answer gives `{ok: false, status, error: data}`, and a transport failure raises |
| GitHubTool.CreateRepository | agent_tools/github_tool.py:64-78 | one POST to `/user/repos` with the name, description and privacy; `{ok, data}` on 200, 201 or 204, `{ok: false, status, error}` otherwise, and a `KeyError` without an answer |
| GitHubTool.ExistingSha | agent_tools/github_tool.py:100-103 | the `sha` of the existing file, exactly when the lookup succeeded with a dictionary holding a truthy `sha` |
| GitHubTool.CreateOrUpdateFile | agent_tools/github_tool.py:84-115 | without owner, repo or path, an error and no request; otherwise the repository lookup first, and three requests exactly when the branch lookup returns |
| GitHubTool.FileUpdateProtocol | agent_tools/github_tool.py:88-115 | the lookup is on the default branch; the PUT carries the encoded content, the branch, and a `sha` exactly when the lookup found one; it raises exactly on a transport failure; `ok` exactly for status 200 or 201 |
| GitHubTool.PutBodyFields | agent_tools/github_tool.py:94-103 | the PUT body holds the content and the branch, and a `sha` exactly when one is given |
| GitHubTool.Iterate | agent_tools/github_tool.py:174 | iterating a list gives its items; only lists, dictionaries (keys) and strings (characters) can be iterated |
| GitHubTool.EachDict | agent_tools/github_tool.py:146-152 | `[f(x) for x in items]` with `x.get`: one result per item in order when all are dictionaries, otherwise the first non-dictionary raises |
| GitHubTool.NonDictShift | agent_tools/github_tool.py:146-152 | the first non-dictionary after a dictionary is the first of the whole list |
| GitHubTool.ListBranches | agent_tools/github_tool.py:170-177 | one GET; on success the branch names in response order; on failure `{ok: false, status, error}` |
| GitHubTool.BranchesFromNonList | agent_tools/github_tool.py:173-175 | a successful body that is a dictionary or string gives no branches when empty and raises otherwise |
| GitHubTool.CreatePullRequest | agent_tools/github_tool.py:183-201 | with owner, repo, head or base missing, an error and no request; otherwise one POST to `/pulls` carrying title, head, base and body |
| GitHubTool.FirstStop | agent_tools/github_tool.py:134-158 | the first page where the listing stops; no page before it stops it |
| GitHubTool.Halts | agent_tools/github_tool.py:138-156 | no contract of its own: a page stops the listing when it fails, is no list, holds a non-dictionary or is short; GitHubTool.PageOutcome, GitHubTool.FirstStop and GitHubTool.ListStep state its use |
| GitHubTool.ListFromCollects | agent_tools/github_tool.py:134-158 | the listing from any page is decided by the stopping page, with the full pages before it gathered in order |
| GitHubTool.ListingInPageOrder | agent_tools/github_tool.py:127-164 | a failed stopping page gives `{ok: false, status, error}` and drops what was gathered; otherwise the summaries of every page in page order, the count being the sum of the pages' entries |
| GitHubTool.ListingIsFinish | agent_tools/github_tool.py:134-160 | the listing from the first page ends as its stopping page ends, with everything before it gathered |
| GitHubTool.ListFrom | agent_tools/github_tool.py:134-164 | whichever page stops it, the listing returns a dictionary led by `ok`; ListFromCollects says which page and what it holds |
| GitHubTool.Finish | agent_tools/github_tool.py:138-164 | a failed page gives `{ok: false, …}` and drops what was gathered; it raises exactly for a list holding a non-dictionary; a success keeps what was gathered, at the front |
| GitHubTool.FinishCases | agent_tools/github_tool.py:138-164 | how a stopping page ends the listing: failure, non-list body, or its own summaries added |
| GitHubTool.CollectedLength | agent_tools/github_tool.py:146-162 | the full pages contribute exactly as many summaries as they hold entries |
| GitHubTool.PageEntriesLength | agent_tools/github_tool.py:146-152 | a full page contributes one summary per entry |
| GitHubTool.ListStep | agent_tools/github_tool.py:134-158 | a stopping page ends the listing; any other page hands its summaries on to the next page |
| GitHubTool.PageOutcome | agent_tools/github_tool.py:136-158 | one page, in the order the loop tests it: failure, non-list, bad entry and short page each end the listing, and a full page of dictionaries continues it |
| GitHubTool.Summaries | agent_tools/github_tool.py:146-152 | the `for repo in data` loop computes the page's summaries, or raises at the first non-dictionary |
| GitHubTool.ListRepos | agent_tools/github_tool.py:122-164 | the loop returns the listing's result, having requested pages 1, 2, … up to the stopping page, each exactly once |
| Executor.Pages | agent_tools/github_tool.py:134-136 | the answers to the requests for pages 1, 2, … in order |
| Executor.FirstGiven | simplechat_agent.py:192 | `args.get(a) or args.get(b) or default` |
| Executor.Https | simplechat_agent.py:209-270 | the requests sent, one invocation each, in order |
| Executor.FromExchange | simplechat_agent.py:215-270 | a GitHub wrapper's result becomes the GitHub tool result; it raises exactly when the wrapper does, and its requests are the invocations |
| Executor.ShellStep | simplechat_agent.py:176-186 | exactly one shell invocation, with the command or `""`; the push intent wraps the status as `push_intent_checked`; any other action returns the shell result; an exception escapes |
| Executor.WriteHandled | simplechat_agent.py:203-207 | the write handler returns the tool's reply, or a doubly wrapped `tool_result` if the write raised |
| Executor.FileStep | simplechat_agent.py:189-207 | a read of the path, else the text, else `""`; a write without a path gives `missing_path` and no call; a write with one runs with `create_dirs`; any other action gives no result |
| Executor.OrEnv | simplechat_agent.py:228-229 | `args.get(k) or env`: the argument when it is non-empty, otherwise the environment's value |
| Executor.RefSha | simplechat_agent.py:252 | a `sha` exists only in a dictionary holding `object` |
| Executor.BranchRequests | simplechat_agent.py:248-257 | the head branch's creation: a GET of the base's ref, then a POST to `/git/refs` exactly when the answer is 200 with a `sha` |
| Executor.PullRequestStep | simplechat_agent.py:238-261 | the pull-request branch always gives a result and leaves the files alone; Executor.PullRequestCall (with a head) and Executor.AutoHeadStep (without one) state its requests and its result |
| Executor.GitHubStep | simplechat_agent.py:209-272 | every GitHub action, unknown ones included, gives a result and leaves the files alone |
| Executor.ListReposCall | simplechat_agent.py:213-216 | `list_repos` requests pages 1 to the stopping page and returns the listing |
| Executor.CreateRepoCall | simplechat_agent.py:218-224 | `create_repo` creates a public repository with the call's name and the description `Created by AI Agent`, or returns `missing_name` without a request |
| Executor.UpdateFileCall | simplechat_agent.py:226-235 | `update_file` writes through the wrapper with owner and repository from the call or the environment, `README.md` unless a path is given, the content or else the text, and the message `Agent update` |
| Executor.PullRequestCall | simplechat_agent.py:237-261 | `create_pr` with a head: a given base is used as it is; otherwise the default branch is looked up first, its failure escaping, and becomes the base; the title defaults to a dated one and the body to the text |
| Executor.ListBranchesCall | simplechat_agent.py:263-270 | `list_branches` lists with owner and repository from the call or the environment |
| Executor.GitHubGuards | simplechat_agent.py:227-272 | without a repository, `update_file`, `create_pr` and `list_branches` return `missing_repo` and send nothing; an unknown action returns `unknown_action` |
| Executor.RepoStep | simplechat_agent.py:274-285 | `fix_repo` runs `pytest -q`; when that raises, the exception escapes and only `pytest -q` was run; otherwise `flake8 .` runs next and a result is returned; any other action gives `unknown_repo_action` and runs nothing; the files are untouched |
| Executor.Dispatch | simplechat_agent.py:167-287 | no call, or a call to an unknown tool, gives no result, no invocation and the same files; only the file tool can change files; a shell call makes exactly one shell invocation |
| Executor.ToolNode | simplechat_agent.py:167-287 | `tool_node` on the project's files: its result, its invocations and the new files are those of the dispatch on the old files |
| Executor.GuardsInvokeNothing | simplechat_agent.py:168-268 | no call gives no result; `missing_path`, `missing_name` and `missing_repo` are returned without invoking anything |
| Executor.NoResultNoCalls | simplechat_agent.py:168-287 | no result means nothing was invoked and no file changed |
| Executor.PushCallChecksStatus | simplechat_agent.py:180-183 | a push call runs `git status -b` only, and its result is the status check |
| Executor.OnlyWritesChangeFiles | simplechat_agent.py:198-207 | only a file write with a path changes the files |
| Executor.WriteThenReadCall | simplechat_agent.py:191-207 | after a write call succeeds, a read call of the same path returns the content written |
| Executor.ReadCallReturns | simplechat_agent.py:189-197 | a read call of a path holding some content returns `{ok: true, content}` after one read; with Router.ReadRoutesPath and FileTool.WriteThenRead, `read file X` after writing `X` returns what was written |
| Executor.AutoHeadPullRequest | simplechat_agent.py:238-261 | `create_pr` without a head, with or without a base: the branch `agent/auto-<time>` is created best-effort from the base or `main`, then a given base is used as it is, or else the default branch is looked up (its exception escaping after the branch requests) and used; the pull request goes from the new branch with the title or a dated one and the body or the text |
| Executor.AutoHeadStep | simplechat_agent.py:245-260 | the same at the level of the pull-request branch, for any owner and a given repository |
| Executor.AutoHeadRequests | simplechat_agent.py:246-260 | with a base, the requests are the branch creation's followed by the one pull-request request |
| Executor.FixRepoLintRejected | simplechat_agent.py:276-284 | `fix_repo` reports the tests' run and the lint rejection |
| Summarizer.Window | simplechat_agent.py:302-303 | the latest `min(12, n)` messages, in their original order |
| Summarizer.Truncate | simplechat_agent.py:317-319 | a rendering of at most 2000 characters is kept; a longer one is cut to its first 2000 characters followed by `...` |
| Summarizer.NormalizeAll | simplechat_agent.py:312-313 | every message normalised, in order, or the exception of the first that cannot be |
| Summarizer.Prompt | simplechat_agent.py:302-320 | the prompt exists exactly when every message of the window normalises; it then starts with the instruction and holds one message per window entry plus one for a tool result |
| Summarizer.BuildPrompt | simplechat_agent.py:299-320 | the loop builds the prompt: instruction, normalised window, then the tool output when there is a result |
| Summarizer.PromptStep | simplechat_agent.py:312-313 | one more message either fails the prompt or extends the normalised history |
| Summarizer.PromptFromHistory | simplechat_agent.py:305-320 | with the whole window normalised, the prompt is the instruction, that history, and the tool output if any |
| Summarizer.NormalizeFailurePropagates | simplechat_agent.py:312-313 | a failure in a prefix is the failure of the whole list |
| Summarizer.PromptShape | simplechat_agent.py:302-320 | exactly one instruction first, then `min(12, n)` messages in order, then one tool output exactly when there is a result |
| Summarizer.Summarize | simplechat_agent.py:322-339 | a prompt failure raises before the model is called; a failed model call gives the single `LLM call failed: …` message |
| Summarizer.LlmNode | simplechat_agent.py:292-339 | `llm_node` returns the summariser's messages |
| Summarizer.AnswerNormalized | simplechat_agent.py:327-338 | a single answer becomes a one-element list; a list keeps its length and order, every element normalised |
| Agent.CallAfterRouting | simplechat_agent.py:344-350 | the executor sees the router's call, or the state's own call when the router adds none |
| Agent.Stored | simplechat_agent.py:339 | the summariser's messages are stored one for one |
| Agent.Turn | simplechat_agent.py:344-354 | router, then tool, then llm: the invocations and files are the executor's on the routed call; an executor exception ends the turn; otherwise a summariser exception ends it, and else the new state stores the summariser's messages and keeps that call and the executor's result |
| Agent.RunTurn | simplechat_agent.py:344-354 | one run of the graph: the new state, the invocations and the files are those of the turn |
| Agent.PushTurnChecksStatus | simplechat_agent.py:147-183 | a push request hands only `git status -b` to the shell, which the whitelist allows, changes no file, and stores the status check |
| Agent.EmptyConversation | simplechat_agent.py:65-67 | with no message and no call, nothing runs and the model sees the instruction alone |
| Agent.SeededCallKept | simplechat_agent.py:161-162 | when no rule fires, the call already in the state is the one executed |
| Agent.ResultFromCall | simplechat_agent.py:344-354 | the stored tool result is the executor's, the state keeps the call that produced it, and a missing result means nothing was invoked |

## Left out

- Unicode: `str.strip` and `\s` use Python's full whitespace set, but `str.lower` maps only ASCII letters and `\b` counts only ASCII letters, digits and `_` as word characters. Other Unicode letters and case mappings are not modelled.
- Regular expressions are modelled only as far as the router's own patterns need. There is no general regex engine.
- Symbolic links are not modelled. The file system holds files and directories only, and `resolve()` is a purely lexical normalisation. `PROJECT_ROOT` is a parameter.
- `read_text`/`write_text` encoding errors, permissions and disk-full errors are not modelled.
- The following are parameters, not modelled code:
  - `json.dumps`, `repr`/`str` of a message, `base64.b64encode`;
  - `time.time()`, `datetime.utcnow()`;
  - the language model;
  - the HTTP server and each subprocess's fate.
- `asyncio` scheduling and the LangGraph runtime are not modelled. The graph is the fixed sequence router → tool → llm, and each node's update replaces the state's keys.
- Process output decoding (`decode(errors="ignore")`) is folded into the subprocess parameter's strings.
- Executor.Dispatch requires that the listing stops within the supplied pages, and so do GitHubTool.ListRepos, Agent.Turn and Agent.RunTurn. When every page is full, the source loops forever.
- `list_repos` receives a `username` from the executor but never uses it, so the model does not pass one.
- Router arguments whose Python value is `None` are absent keys in the model. The two agree under every `args.get(...)` the executor makes.
- Messages.Make: content that is a list of strings and dictionaries, which the LangChain message classes accept, is not modelled. A message holds string content, so list content raises `ContentNotText` in the model where the source builds a message.
- Messages.Normalize: a dictionary whose `content` (or `text`) is a list, such as `[{"type": "text", "text": "hi"}]` or `[]`, raises through Messages.Make where the source builds a message.
- A tool call stored as an empty dictionary (falsy in Python) is not distinguished from a present call. The router never produces one.
- JSON objects keep their keys in order, and a lookup takes the first entry with a key. Python dictionaries cannot hold duplicate keys, so the difference is unobservable.
- Summarizer.Truncate: the converse does not hold. A 2000-character rendering and that rendering with `...` appended both stay as they are, so the result alone does not tell whether a cut happened.
- Executor.GitHubStep and Executor.PullRequestStep: their own contracts state only that a result is produced and the files are untouched. Which wrapper each action calls, with which arguments, is stated by the lemmas beside them: Executor.ListReposCall, Executor.CreateRepoCall, Executor.UpdateFileCall, Executor.ListBranchesCall, Executor.PullRequestCall, Executor.GitHubGuards, and for `create_pr` without a head, with or without a base, Executor.AutoHeadPullRequest, Executor.AutoHeadStep and Executor.AutoHeadRequests.
- ShellTool.RunShell: the `timeout` and `cwd` arguments are not modelled. Whether a run times out is part of the subprocess parameter.
