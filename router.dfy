/** `router_node`: reads the text of the last message and picks at most one
    tool call by an ordered list of keyword rules; the first rule that fires
    decides the tool, and explicit versions of the source's capture
    expressions extract the tool's arguments. */
module Router {
  import opened Values
  import opened Text
  import opened Patterns
  import opened Messages

  /** A tool call: the tool's name and its arguments. An argument the router
      sets to `None` is absent from the map. */
  datatype ToolCall = ToolCall(tool: string, args: map<string, string>)

  /** The environment variables the agent reads, `GITHUB_OWNER` and
      `GITHUB_REPO` (`None` when unset). */
  datatype Env = Env(owner: Option<string>, repo: Option<string>)

  /** The intents, one per rule. */
  datatype Intent =
    | FileRead | FileWrite | CreateRepo | ListRepos | UpdateReadme
    | CreatePr | ListBranches | PushIntent | FixRepo | ShellExec

  /** The order in which the rules are tried. */
  const Order: seq<Intent> :=
    [FileRead, FileWrite, CreateRepo, ListRepos, UpdateReadme, CreatePr, ListBranches, PushIntent, FixRepo, ShellExec]

  /** The alternatives of each rule, tested against the lower-cased text.
      `\bmake (?:a )?repo\b` is split into its two spellings. */
  function Triggers(intent: Intent): seq<Pattern> {
    match intent
    case FileRead => [Word("read file"), Word("readfile"), Word("show file"), Word("open file")]
    case FileWrite => [Word("write file"), Word("create file"), Word("add file"), Word("update file"), Word("edit file")]
    case CreateRepo => [Word("create repo"), Word("create repository"), Word("make a repo"), Word("make repo"), Word("new repo")]
    case ListRepos => [Word("list repos"), Word("show repos"), Word("my github repos"), Word("repositories")]
    case UpdateReadme => [Word("update readme"), Word("update README"), Word("edit README.md")]
    case CreatePr =>
      [Word("create pr"), Word("create pull request"), Word("open pr"), Word("open pull request"), Word("make a pull request")]
    case ListBranches => [Word("list branches"), Word("show branches"), Word("branches")]
    case PushIntent => [Word("push my code"), Word("push code"), Word("push repo")]
    case FixRepo => [Word("fix my repo"), Word("fix repo"), Word("make tests pass"), Word("run tests")]
    case ShellExec =>
      [Start("run:"), Word("execute"), Word("shell"), StartWord("ls"), StartWord("git"), Anywhere("pytest"), Anywhere("npm")]
  }

  predicate Fires(k: nat, lm: string) {
    k < |Order| && AnyMatch(Triggers(Order[k]), lm)
  }

  /** The index of the first rule that fires on the lower-cased text. */
  function Classify(lm: string): (r: Option<nat>)
    ensures r.Some? ==> Fires(r.value, lm) && forall j :: 0 <= j < r.value ==> !Fires(j, lm)
    ensures r.None? ==> forall k :: 0 <= k < |Order| ==> !Fires(k, lm)
  {
    var hit := (k: nat) => Fires(k, lm);
    var r := FirstHit(|Order| - 1, hit, 0);
    assert r.None? ==> forall k :: 0 <= k < |Order| ==> !Fires(k, lm) by {
      forall k | 0 <= k < |Order| && r.None? ensures !Fires(k, lm) { assert !hit(k); }
    }
    assert r.Some? ==> forall j :: 0 <= j < r.value ==> !Fires(j, lm) by {
      forall j | r.Some? && 0 <= j < r.value ensures !Fires(j, lm) { assert !hit(j); }
    }
    r
  }

  /** `str(last.content)`, or `str(last)` for an element without a
      `content` attribute; `repr` stands for `str()` of a dictionary. */
  function MessageText(m: RawMessage, repr: Json -> string): string {
    match m
    case Canonical(msg) => msg.content
    case Dict(fields) => repr(JObj(fields))
    case Text(s) => s
    case Other(shown) => shown
  }

  // ---------------------------------------------------------------------
  // Capture expressions, each as the match it finds at one position.

  /** `read (?:file )?(.+)$` at position `i`, ignoring case; the optional
      `file ` is tried first. */
  function ReadAt(msg: string, i: nat): Option<string> {
    if !CIAt(msg, i, "read ") then None
    else if CIAt(msg, i + 5, "file ") && LineTail(msg[i + 10..]).Some? then LineTail(msg[i + 10..])
    else LineTail(msg[i + 5..])
  }

  /** `(?:write|create|update|edit) ` at position `i`, ignoring case: the
      length it covers. */
  function VerbAt(msg: string, i: nat): (n: Option<nat>)
    ensures n.Some? ==> i + n.value <= |msg|
  {
    if CIAt(msg, i, "write ") then Some(6)
    else if CIAt(msg, i, "create ") then Some(7)
    else if CIAt(msg, i, "update ") then Some(7)
    else if CIAt(msg, i, "edit ") then Some(5)
    else None
  }

  /** `([^\:]+):\s*(.+)$` from position `j`: the text before the first colon
      (at least one character, newlines included) and the rest of the line
      after the colon and the whitespace that follows it. */
  function ColonPairFrom(msg: string, j: nat): (r: Option<(string, string)>)
    ensures r.Some? ==> r.value.0 != [] && ':' !in r.value.0
  {
    if j > |msg| then None
    else
      var c := j + IndexOf(msg[j..], ':');
      if j < c < |msg| && SpacedTail(msg[c + 1..]).Some? then
        var before := msg[j..c];
        assert forall k :: 0 <= k < c - j ==> before[k] == msg[j..][k];
        Some((before, SpacedTail(msg[c + 1..]).value))
      else None
  }

  /** `(?:write|create|update|edit) (?:file )?([^\:]+):\s*(.+)$` at `i`. */
  function WritePairAt(msg: string, i: nat): Option<(string, string)> {
    match VerbAt(msg, i)
    case None => None
    case Some(n) =>
      if CIAt(msg, i + n, "file ") && ColonPairFrom(msg, i + n + 5).Some? then ColonPairFrom(msg, i + n + 5)
      else ColonPairFrom(msg, i + n)
  }

  /** `(?:write|create|update|edit) (?:file )?(.+)$` at `i`. */
  function WritePathAt(msg: string, i: nat): Option<string> {
    match VerbAt(msg, i)
    case None => None
    case Some(n) =>
      if CIAt(msg, i + n, "file ") && LineTail(msg[i + n + 5..]).Some? then LineTail(msg[i + n + 5..])
      else LineTail(msg[i + n..])
  }

  /** `kw\s+([A-Za-z0-9._-]+)` at `i`, ignoring case. */
  function NameAfter(msg: string, i: nat, kw: string): (r: Option<string>)
    ensures r.Some? ==> r.value != [] && forall k :: 0 <= k < |r.value| ==> InClass(r.value[k], DottedSlug)
  {
    if !CIAt(msg, i, kw) then None
    else
      var j := i + |kw|;
      var s := RunLength(msg, j, Spaces);
      var n := RunLength(msg, j + s, DottedSlug);
      if s >= 1 && n >= 1 then
        var name := msg[j + s..j + s + n];
        assert forall k :: 0 <= k < n ==> name[k] == msg[j + s + k];
        Some(name)
      else None
  }

  /** `(?:repo|repository|repo called|repo named)\s+([A-Za-z0-9._-]+)` at
      `i`: the alternatives are tried in this order. */
  function RepoNameAt(msg: string, i: nat): Option<string> {
    if NameAfter(msg, i, "repo").Some? then NameAfter(msg, i, "repo")
    else if NameAfter(msg, i, "repository").Some? then NameAfter(msg, i, "repository")
    else if NameAfter(msg, i, "repo called").Some? then NameAfter(msg, i, "repo called")
    else NameAfter(msg, i, "repo named")
  }

  /** `([A-Za-z0-9_-]+)/([A-Za-z0-9_-]+)` at `p`: both names and the position
      after the second. */
  function OwnerRepoAt(msg: string, p: nat): (r: Option<(string, string, nat)>)
    ensures r.Some? ==> p < r.value.2 <= |msg|
    ensures r.Some? ==> r.value.0 != [] && r.value.1 != [] && '/' !in r.value.0 && '/' !in r.value.1
  {
    if p > |msg| then None
    else
      var a := RunLength(msg, p, Slug);
      if a >= 1 && p + a < |msg| && msg[p + a] == '/' then
        var b := RunLength(msg, p + a + 1, Slug);
        if b >= 1 then
          var owner, repo := msg[p..p + a], msg[p + a + 1..p + a + 1 + b];
          assert forall k :: 0 <= k < a ==> owner[k] == msg[p + k];
          assert forall k :: 0 <= k < b ==> repo[k] == msg[p + a + 1 + k];
          Some((owner, repo, p + a + 1 + b))
        else None
      else None
  }

  /** What `update readme (?:for\s+(A/B))?(?: with|:)?\s*(.+)?` captures. */
  datatype ReadmeSpec = ReadmeSpec(ownerRepo: Option<(string, string)>, content: Option<string>)

  /** The groups once `update readme ` has matched and `j` follows it. Every
      part after that text is optional, so the greedy choice of each is kept. */
  function ReadmeFrom(msg: string, j: nat): ReadmeSpec
    requires j <= |msg|
  {
    var forPart :=
      if CIAt(msg, j, "for") && RunLength(msg, j + 3, Spaces) >= 1 then OwnerRepoAt(msg, j + 3 + RunLength(msg, j + 3, Spaces))
      else None;
    var k := if forPart.Some? then forPart.value.2 else j;
    var k2 := if CIAt(msg, k, " with") then k + 5 else if k < |msg| && msg[k] == ':' then k + 1 else k;
    var w := k2 + RunLength(msg, k2, Spaces);
    var e := LineEnd(msg[w..]);
    ReadmeSpec(if forPart.Some? then Some((forPart.value.0, forPart.value.1)) else None,
               if e >= 1 then Some(Strip(msg[w..w + e])) else None)
  }

  function ReadmeAt(msg: string, i: nat): Option<ReadmeSpec> {
    if CIAt(msg, i, "update readme ") then Some(ReadmeFrom(msg, i + 14)) else None
  }

  /** `from\s+([A-Za-z0-9_\-\/]+)\s+to\s+([A-Za-z0-9_\-\/]+)` at `i`
      (case-sensitive): the head and base branch names. */
  function FromToAt(msg: string, i: nat): (r: Option<(string, string)>)
    ensures r.Some? ==> r.value.0 != [] && r.value.1 != []
  {
    if !LitAt(msg, i, "from") then None
    else
      var s1 := RunLength(msg, i + 4, Spaces);
      var h := RunLength(msg, i + 4 + s1, RefName);
      var p := i + 4 + s1 + h;
      var s2 := RunLength(msg, p, Spaces);
      var q := p + s2;
      if s1 >= 1 && h >= 1 && s2 >= 1 && LitAt(msg, q, "to") then
        var s3 := RunLength(msg, q + 2, Spaces);
        var b := RunLength(msg, q + 2 + s3, RefName);
        if s3 >= 1 && b >= 1 then Some((msg[i + 4 + s1..p], msg[q + 2 + s3..q + 2 + s3 + b])) else None
      else None
  }

  /** `run:\s*(.+)$` at `i`, ignoring case. */
  function RunAt(msg: string, i: nat): Option<string> {
    if CIAt(msg, i, "run:") then SpacedTail(msg[i + 4..]) else None
  }

  // ---------------------------------------------------------------------
  // `re.search` with each capture expression: the match at the leftmost
  // position where it matches.

  function ReadSearch(msg: string): (r: Option<string>)
    ensures r.Some? ==> exists i :: 0 <= i <= |msg| && ReadAt(msg, i) == r && forall j :: 0 <= j < i ==> ReadAt(msg, j).None?
    ensures r.None? ==> forall i :: 0 <= i <= |msg| ==> ReadAt(msg, i).None?
  {
    var at := (i: nat) => ReadAt(msg, i);
    var r := Search(msg, at);
    assert r.Some? ==> exists i :: 0 <= i <= |msg| && ReadAt(msg, i) == r && forall j :: 0 <= j < i ==> ReadAt(msg, j).None? by {
      if r.Some? {
        var i :| 0 <= i <= |msg| && at(i) == r && forall j :: 0 <= j < i ==> at(j).None?;
        forall j | 0 <= j < i ensures ReadAt(msg, j).None? { assert at(j).None?; }
        assert ReadAt(msg, i) == r;
      }
    }
    assert r.None? ==> forall i :: 0 <= i <= |msg| ==> ReadAt(msg, i).None? by {
      if r.None? {
        forall i | 0 <= i <= |msg| ensures ReadAt(msg, i).None? { assert at(i).None?; }
      }
    }
    r
  }

  function WritePairSearch(msg: string): (r: Option<(string, string)>)
    ensures r.Some? ==> exists i :: 0 <= i <= |msg| && WritePairAt(msg, i) == r && forall j :: 0 <= j < i ==> WritePairAt(msg, j).None?
    ensures r.None? ==> forall i :: 0 <= i <= |msg| ==> WritePairAt(msg, i).None?
  {
    var at := (i: nat) => WritePairAt(msg, i);
    var r := Search(msg, at);
    assert r.Some? ==> exists i :: 0 <= i <= |msg| && WritePairAt(msg, i) == r && forall j :: 0 <= j < i ==> WritePairAt(msg, j).None? by {
      if r.Some? {
        var i :| 0 <= i <= |msg| && at(i) == r && forall j :: 0 <= j < i ==> at(j).None?;
        forall j | 0 <= j < i ensures WritePairAt(msg, j).None? { assert at(j).None?; }
        assert WritePairAt(msg, i) == r;
      }
    }
    assert r.None? ==> forall i :: 0 <= i <= |msg| ==> WritePairAt(msg, i).None? by {
      if r.None? {
        forall i | 0 <= i <= |msg| ensures WritePairAt(msg, i).None? { assert at(i).None?; }
      }
    }
    r
  }

  function WritePathSearch(msg: string): (r: Option<string>)
    ensures r.Some? ==> exists i :: 0 <= i <= |msg| && WritePathAt(msg, i) == r && forall j :: 0 <= j < i ==> WritePathAt(msg, j).None?
    ensures r.None? ==> forall i :: 0 <= i <= |msg| ==> WritePathAt(msg, i).None?
  {
    var at := (i: nat) => WritePathAt(msg, i);
    var r := Search(msg, at);
    assert r.Some? ==> exists i :: 0 <= i <= |msg| && WritePathAt(msg, i) == r && forall j :: 0 <= j < i ==> WritePathAt(msg, j).None? by {
      if r.Some? {
        var i :| 0 <= i <= |msg| && at(i) == r && forall j :: 0 <= j < i ==> at(j).None?;
        forall j | 0 <= j < i ensures WritePathAt(msg, j).None? { assert at(j).None?; }
        assert WritePathAt(msg, i) == r;
      }
    }
    assert r.None? ==> forall i :: 0 <= i <= |msg| ==> WritePathAt(msg, i).None? by {
      if r.None? {
        forall i | 0 <= i <= |msg| ensures WritePathAt(msg, i).None? { assert at(i).None?; }
      }
    }
    r
  }

  function RepoNameSearch(msg: string): (r: Option<string>)
    ensures r.Some? ==> exists i :: 0 <= i <= |msg| && RepoNameAt(msg, i) == r && forall j :: 0 <= j < i ==> RepoNameAt(msg, j).None?
    ensures r.None? ==> forall i :: 0 <= i <= |msg| ==> RepoNameAt(msg, i).None?
  {
    var at := (i: nat) => RepoNameAt(msg, i);
    var r := Search(msg, at);
    assert r.Some? ==> exists i :: 0 <= i <= |msg| && RepoNameAt(msg, i) == r && forall j :: 0 <= j < i ==> RepoNameAt(msg, j).None? by {
      if r.Some? {
        var i :| 0 <= i <= |msg| && at(i) == r && forall j :: 0 <= j < i ==> at(j).None?;
        forall j | 0 <= j < i ensures RepoNameAt(msg, j).None? { assert at(j).None?; }
        assert RepoNameAt(msg, i) == r;
      }
    }
    assert r.None? ==> forall i :: 0 <= i <= |msg| ==> RepoNameAt(msg, i).None? by {
      if r.None? {
        forall i | 0 <= i <= |msg| ensures RepoNameAt(msg, i).None? { assert at(i).None?; }
      }
    }
    r
  }

  function ReadmeSearch(msg: string): (r: Option<ReadmeSpec>)
    ensures r.Some? ==> exists i :: 0 <= i <= |msg| && ReadmeAt(msg, i) == r && forall j :: 0 <= j < i ==> ReadmeAt(msg, j).None?
    ensures r.None? ==> forall i :: 0 <= i <= |msg| ==> ReadmeAt(msg, i).None?
  {
    var at := (i: nat) => ReadmeAt(msg, i);
    var r := Search(msg, at);
    assert r.Some? ==> exists i :: 0 <= i <= |msg| && ReadmeAt(msg, i) == r && forall j :: 0 <= j < i ==> ReadmeAt(msg, j).None? by {
      if r.Some? {
        var i :| 0 <= i <= |msg| && at(i) == r && forall j :: 0 <= j < i ==> at(j).None?;
        forall j | 0 <= j < i ensures ReadmeAt(msg, j).None? { assert at(j).None?; }
        assert ReadmeAt(msg, i) == r;
      }
    }
    assert r.None? ==> forall i :: 0 <= i <= |msg| ==> ReadmeAt(msg, i).None? by {
      if r.None? {
        forall i | 0 <= i <= |msg| ensures ReadmeAt(msg, i).None? { assert at(i).None?; }
      }
    }
    r
  }

  /** The leftmost `owner/repo` pair in the text. */
  function TextOwnerRepo(msg: string): (r: Option<(string, string, nat)>)
    ensures r.Some? ==> exists i :: 0 <= i <= |msg| && OwnerRepoAt(msg, i) == r && forall j :: 0 <= j < i ==> OwnerRepoAt(msg, j).None?
    ensures r.None? ==> forall i :: 0 <= i <= |msg| ==> OwnerRepoAt(msg, i).None?
  {
    var at := (i: nat) => OwnerRepoAt(msg, i);
    var r := Search(msg, at);
    assert r.Some? ==> exists i :: 0 <= i <= |msg| && OwnerRepoAt(msg, i) == r && forall j :: 0 <= j < i ==> OwnerRepoAt(msg, j).None? by {
      if r.Some? {
        var i :| 0 <= i <= |msg| && at(i) == r && forall j :: 0 <= j < i ==> at(j).None?;
        forall j | 0 <= j < i ensures OwnerRepoAt(msg, j).None? { assert at(j).None?; }
        assert OwnerRepoAt(msg, i) == r;
      }
    }
    assert r.None? ==> forall i :: 0 <= i <= |msg| ==> OwnerRepoAt(msg, i).None? by {
      if r.None? {
        forall i | 0 <= i <= |msg| ensures OwnerRepoAt(msg, i).None? { assert at(i).None?; }
      }
    }
    r
  }

  function FromToSearch(msg: string): (r: Option<(string, string)>)
    ensures r.Some? ==> exists i :: 0 <= i <= |msg| && FromToAt(msg, i) == r && forall j :: 0 <= j < i ==> FromToAt(msg, j).None?
    ensures r.None? ==> forall i :: 0 <= i <= |msg| ==> FromToAt(msg, i).None?
  {
    var at := (i: nat) => FromToAt(msg, i);
    var r := Search(msg, at);
    assert r.Some? ==> exists i :: 0 <= i <= |msg| && FromToAt(msg, i) == r && forall j :: 0 <= j < i ==> FromToAt(msg, j).None? by {
      if r.Some? {
        var i :| 0 <= i <= |msg| && at(i) == r && forall j :: 0 <= j < i ==> at(j).None?;
        forall j | 0 <= j < i ensures FromToAt(msg, j).None? { assert at(j).None?; }
        assert FromToAt(msg, i) == r;
      }
    }
    assert r.None? ==> forall i :: 0 <= i <= |msg| ==> FromToAt(msg, i).None? by {
      if r.None? {
        forall i | 0 <= i <= |msg| ensures FromToAt(msg, i).None? { assert at(i).None?; }
      }
    }
    r
  }

  function RunSearch(msg: string): (r: Option<string>)
    ensures r.Some? ==> exists i :: 0 <= i <= |msg| && RunAt(msg, i) == r && forall j :: 0 <= j < i ==> RunAt(msg, j).None?
    ensures r.None? ==> forall i :: 0 <= i <= |msg| ==> RunAt(msg, i).None?
  {
    var at := (i: nat) => RunAt(msg, i);
    var r := Search(msg, at);
    assert r.Some? ==> exists i :: 0 <= i <= |msg| && RunAt(msg, i) == r && forall j :: 0 <= j < i ==> RunAt(msg, j).None? by {
      if r.Some? {
        var i :| 0 <= i <= |msg| && at(i) == r && forall j :: 0 <= j < i ==> at(j).None?;
        forall j | 0 <= j < i ensures RunAt(msg, j).None? { assert at(j).None?; }
        assert RunAt(msg, i) == r;
      }
    }
    assert r.None? ==> forall i :: 0 <= i <= |msg| ==> RunAt(msg, i).None? by {
      if r.None? {
        forall i | 0 <= i <= |msg| ensures RunAt(msg, i).None? { assert at(i).None?; }
      }
    }
    r
  }

  /** The command of a generic shell request: the stripped text after
      `run:`, or the whole message. */
  function ExecCommand(msg: string): (r: string)
    ensures (forall i :: 0 <= i <= |msg| ==> RunAt(msg, i).None?) ==> r == msg
    ensures forall i :: 0 <= i <= |msg| && RunAt(msg, i).Some? && (forall j :: 0 <= j < i ==> RunAt(msg, j).None?) ==>
      r == Strip(RunAt(msg, i).value)
  {
    match RunSearch(msg)
    case Some(c) =>
      RunSearchLeftmost(msg);
      Strip(c)
    case None => msg
  }

  /** The leftmost `run:` match is the one `RunSearch` finds. */
  lemma RunSearchLeftmost(msg: string)
    requires RunSearch(msg).Some?
    ensures forall i :: 0 <= i <= |msg| && RunAt(msg, i).Some? && (forall j :: 0 <= j < i ==> RunAt(msg, j).None?) ==>
      RunAt(msg, i) == RunSearch(msg)
  {
    var i0 :| 0 <= i0 <= |msg| && RunAt(msg, i0) == RunSearch(msg) && forall j :: 0 <= j < i0 ==> RunAt(msg, j).None?;
    var at := (k: nat) => RunAt(msg, k);
    forall i | 0 <= i <= |msg| && RunAt(msg, i).Some? && (forall j :: 0 <= j < i ==> RunAt(msg, j).None?)
      ensures RunAt(msg, i) == RunSearch(msg)
    {
      LeftmostUnique(at, i0, i);
    }
  }

  // ---------------------------------------------------------------------
  // Building the tool call.

  /** Adds `key` unless the value is `None`. */
  function WithOpt(args: map<string, string>, key: string, v: Option<string>): map<string, string> {
    if v.Some? then args[key := v.value] else args
  }

  function StripOpt(o: Option<string>): Option<string> {
    if o.Some? then Some(Strip(o.value)) else None
  }

  function Base(action: string, msg: string): map<string, string> {
    map["action" := action, "text" := msg]
  }

  /** The tool each intent calls. */
  function ToolName(intent: Intent): string {
    match intent
    case FileRead | FileWrite => "file"
    case PushIntent | ShellExec => "shell"
    case FixRepo => "repo"
    case _ => "github"
  }

  /** The action each intent asks of its tool. */
  function ActionName(intent: Intent): string {
    match intent
    case FileRead => "read"
    case FileWrite => "write"
    case CreateRepo => "create_repo"
    case ListRepos => "list_repos"
    case UpdateReadme => "update_file"
    case CreatePr => "create_pr"
    case ListBranches => "list_branches"
    case PushIntent => "push_intent"
    case FixRepo => "fix_repo"
    case ShellExec => "exec"
  }

  /** The arguments of a file-write call, given what the colon form and the
      path-only form captured: the colon form gives a path and a content,
      otherwise the path alone is kept and the content is absent. */
  function WriteArgs(msg: string, pair: Option<(string, string)>, path: Option<string>): (r: map<string, string>)
    ensures "action" in r && r["action"] == "write" && "text" in r && r["text"] == msg
    ensures pair.Some? ==> "path" in r && r["path"] == Strip(pair.value.0) && "content" in r && r["content"] == Strip(pair.value.1)
    ensures pair.None? ==> "content" !in r && ("path" in r <==> path.Some?) && (path.Some? ==> r["path"] == Strip(path.value))
  {
    var p := if pair.Some? then Some(Strip(pair.value.0)) else StripOpt(path);
    var content := if pair.Some? then Some(Strip(pair.value.1)) else None;
    WithOpt(WithOpt(Base("write", msg), "path", p), "content", content)
  }

  /** The arguments of a README update, given what its expression captured. */
  function ReadmeArgs(msg: string, capture: Option<ReadmeSpec>): (r: map<string, string>)
    ensures "action" in r && r["action"] == "update_file" && "text" in r && r["text"] == msg
    ensures "path" in r && r["path"] == "README.md"
    ensures ("repo" in r <==> capture.Some? && capture.value.ownerRepo.Some?) && ("owner" in r <==> "repo" in r)
    ensures "content" in r <==> capture.Some? && capture.value.content.Some?
  {
    var ownerRepo := if capture.Some? then capture.value.ownerRepo else None;
    var content := if capture.Some? then capture.value.content else None;
    var args := Base("update_file", msg)["path" := "README.md"];
    var args := WithOpt(args, "owner", if ownerRepo.Some? then Some(ownerRepo.value.0) else None);
    var args := WithOpt(args, "repo", if ownerRepo.Some? then Some(ownerRepo.value.1) else None);
    WithOpt(args, "content", content)
  }

  /** The arguments of a pull-request call, given the `owner/repo` and the
      `from X to Y` pairs found in the text: a pair in the text wins over the
      environment, whose empty values count as unset. */
  function PullRequestArgs(msg: string, env: Env, or: Option<(string, string, nat)>, ft: Option<(string, string)>)
    : (r: map<string, string>)
    ensures "action" in r && r["action"] == "create_pr" && "text" in r && r["text"] == msg
    ensures or.Some? ==> "owner" in r && r["owner"] == or.value.0 && "repo" in r && r["repo"] == or.value.1
    ensures or.None? ==>
      && ("owner" in r <==> Given(env.owner)) && (Given(env.owner) ==> r["owner"] == env.owner.value)
      && ("repo" in r <==> Given(env.repo)) && (Given(env.repo) ==> r["repo"] == env.repo.value)
    ensures ("head" in r <==> ft.Some?) && ("base" in r <==> ft.Some?)
    ensures ft.Some? ==> r["head"] == ft.value.0 && r["base"] == ft.value.1
  {
    var owner := if or.Some? then Some(or.value.0) else OrNone(env.owner);
    var repo := if or.Some? then Some(or.value.1) else OrNone(env.repo);
    var args := WithOpt(WithOpt(Base("create_pr", msg), "owner", owner), "repo", repo);
    var args := WithOpt(args, "head", if ft.Some? then Some(ft.value.0) else None);
    WithOpt(args, "base", if ft.Some? then Some(ft.value.1) else None)
  }

  /** The arguments of a branch listing, given the `owner/repo` pair found in
      the text; without one, the environment's values are taken as they are. */
  function BranchesArgs(msg: string, env: Env, or: Option<(string, string, nat)>): (r: map<string, string>)
    ensures "action" in r && r["action"] == "list_branches" && "text" in r && r["text"] == msg
    ensures or.Some? ==> "owner" in r && r["owner"] == or.value.0 && "repo" in r && r["repo"] == or.value.1
    ensures or.None? ==>
      && ("owner" in r <==> env.owner.Some?) && (env.owner.Some? ==> r["owner"] == env.owner.value)
      && ("repo" in r <==> env.repo.Some?) && (env.repo.Some? ==> r["repo"] == env.repo.value)
  {
    var owner := if or.Some? then Some(or.value.0) else env.owner;
    var repo := if or.Some? then Some(or.value.1) else env.repo;
    WithOpt(WithOpt(Base("list_branches", msg), "owner", owner), "repo", repo)
  }

  /** The tool call a rule produces for the stripped message text. */
  function CallFor(intent: Intent, msg: string, env: Env): (c: ToolCall)
    ensures c.tool == ToolName(intent)
    ensures "action" in c.args && c.args["action"] == ActionName(intent)
    ensures "text" in c.args && c.args["text"] == msg
  {
    ToolCall(ToolName(intent), ArgsFor(intent, msg, env))
  }

  /** The arguments a rule gives its call: besides the action and the text,
      the read path and the repository name are the stripped and the raw
      captures of their expressions, the shell commands are fixed or taken
      after `run:`, and the other rules' arguments are those their own
      functions describe. */
  function ArgsFor(intent: Intent, msg: string, env: Env): (args: map<string, string>)
    ensures "action" in args && args["action"] == ActionName(intent)
    ensures "text" in args && args["text"] == msg
    ensures intent == FileRead ==>
      && args.Keys <= {"action", "text", "path"}
      && ("path" in args <==> ReadSearch(msg).Some?)
      && (ReadSearch(msg).Some? ==> args["path"] == Strip(ReadSearch(msg).value))
    ensures intent == CreateRepo ==>
      && args.Keys <= {"action", "text", "name"}
      && ("name" in args <==> RepoNameSearch(msg).Some?)
      && (RepoNameSearch(msg).Some? ==> args["name"] == RepoNameSearch(msg).value)
    ensures intent in {ListRepos, FixRepo} ==> args.Keys == {"action", "text"}
    ensures intent == PushIntent ==> args.Keys == {"action", "text", "command"} && args["command"] == "git status -b"
    ensures intent == ShellExec ==> args.Keys == {"action", "text", "command"} && args["command"] == ExecCommand(msg)
    ensures intent == FileWrite ==> args == WriteArgs(msg, WritePairSearch(msg), WritePathSearch(msg))
    ensures intent == UpdateReadme ==> args == ReadmeArgs(msg, ReadmeSearch(msg))
    ensures intent == CreatePr ==> args == PullRequestArgs(msg, env, TextOwnerRepo(msg), FromToSearch(msg))
    ensures intent == ListBranches ==> args == BranchesArgs(msg, env, TextOwnerRepo(msg))
  {
    match intent
    case FileRead => WithOpt(Base("read", msg), "path", StripOpt(ReadSearch(msg)))
    case FileWrite => WriteArgs(msg, WritePairSearch(msg), WritePathSearch(msg))
    case CreateRepo => WithOpt(Base("create_repo", msg), "name", RepoNameSearch(msg))
    case ListRepos => Base("list_repos", msg)
    case UpdateReadme => ReadmeArgs(msg, ReadmeSearch(msg))
    case CreatePr => PullRequestArgs(msg, env, TextOwnerRepo(msg), FromToSearch(msg))
    case ListBranches => BranchesArgs(msg, env, TextOwnerRepo(msg))
    case PushIntent => Base("push_intent", msg)["command" := "git status -b"]
    case FixRepo => Base("fix_repo", msg)
    case ShellExec => Base("exec", msg)["command" := ExecCommand(msg)]
  }

  /** The stripped text of the last message. */
  function LastText(messages: seq<RawMessage>, repr: Json -> string): string
    requires messages != []
  {
    Strip(MessageText(messages[|messages| - 1], repr))
  }

  /** `router_node`: no call when there is no message or no rule fires;
      otherwise the call of the first rule that fires. */
  function Route(messages: seq<RawMessage>, env: Env, repr: Json -> string): (r: Option<ToolCall>)
    ensures messages == [] ==> r.None?
    ensures r.Some? ==> "text" in r.value.args && r.value.args["text"] == LastText(messages, repr)
  {
    if messages == [] then None
    else
      var msg := LastText(messages, repr);
      match Classify(Lower(msg))
      case None => None
      case Some(k) => Some(CallFor(Order[k], msg, env))
  }

  // ---------------------------------------------------------------------
  // Properties of the router.

  /** Priority: the call is the one of the first rule that fires, whatever
      later rules would also fire. */
  lemma RouteFirstRule(messages: seq<RawMessage>, env: Env, repr: Json -> string, k: nat)
    requires messages != []
    requires Fires(k, Lower(LastText(messages, repr)))
    requires forall j :: 0 <= j < k ==> !Fires(j, Lower(LastText(messages, repr)))
    ensures Route(messages, env, repr) == Some(CallFor(Order[k], LastText(messages, repr), env))
  {
    var lm := Lower(LastText(messages, repr));
    var r := Classify(lm);
    assert r.Some? && Fires(r.value, lm);
    assert !(r.value < k);
    assert !(k < r.value);
  }

  /** No call exactly when there is no message or no rule fires. */
  lemma RouteNone(messages: seq<RawMessage>, env: Env, repr: Json -> string)
    ensures Route(messages, env, repr).None? <==>
      messages == [] || forall k :: 0 <= k < |Order| ==> !Fires(k, Lower(LastText(messages, repr)))
  {
    if messages != [] {
    }
  }

  /** A request to create a repository is routed to repository creation even
      when it also mentions branches, as long as it holds no file phrase. */
  lemma CreateRepoBeatsBranches(messages: seq<RawMessage>, env: Env, repr: Json -> string)
    requires messages != []
    requires var lm := Lower(LastText(messages, repr));
      Matches(Word("create repo"), lm) && !Fires(0, lm) && !Fires(1, lm)
    ensures var r := Route(messages, env, repr);
      var name := RepoNameSearch(LastText(messages, repr));
      && r.Some? && r.value.tool == "github" && r.value.args["action"] == "create_repo"
      && ("name" in r.value.args <==> name.Some?) && (name.Some? ==> r.value.args["name"] == name.value)
  {
    var lm := Lower(LastText(messages, repr));
    CreateRepoFires(lm);
    forall j | 0 <= j < 2 ensures !Fires(j, lm) {
      assert j == 0 || j == 1;
    }
    RouteFirstRule(messages, env, repr, 2);
    var c := CallFor(CreateRepo, LastText(messages, repr), env);
    assert Route(messages, env, repr) == Some(c);
    assert c.tool == ToolName(CreateRepo) == "github";
    assert c.args["action"] == ActionName(CreateRepo) == "create_repo";
  }

  /** `create repo NAME`, with a name made of the name class only, names the
      repository `NAME`: the first alternative, `repo`, matches at the
      leftmost position and the name runs to the end. */
  lemma CreateRepoName(name: string)
    requires name != [] && forall k :: 0 <= k < |name| ==> InClass(name[k], DottedSlug)
    ensures RepoNameSearch("create repo " + name) == Some(name)
  {
    var msg := "create repo " + name;
    NameAfterRepo(name);
    NoRepoBefore(msg);
    assert RepoNameAt(msg, 7) == Some(name);
  }

  /** `repo\s+([A-Za-z0-9._-]+)` after `create ` captures the whole name. */
  lemma NameAfterRepo(name: string)
    requires name != [] && forall k :: 0 <= k < |name| ==> InClass(name[k], DottedSlug)
    ensures NameAfter("create repo " + name, 7, "repo") == Some(name)
  {
    var msg := "create repo " + name;
    assert CIAt(msg, 7, "repo");
    assert msg[12] == name[0];
    assert RunLength(msg, 11, Spaces) == 1;
    var n := RunLength(msg, 12, DottedSlug);
    assert 12 + n == |msg|;
    assert msg[12..12 + n] == name;
  }

  /** No alternative of the name expression starts inside `create `. */
  lemma NoRepoBefore(msg: string)
    requires |msg| >= 12 && msg[..12] == "create repo "
    ensures forall j :: 0 <= j < 7 ==> RepoNameAt(msg, j).None?
  {
    forall j | 0 <= j < 7 ensures RepoNameAt(msg, j).None? {
      var k := if j == 1 then 2 else 0;
      assert msg[j + k] == "create repo "[j + k];
      assert LowerChar(msg[j + k]) != "repo"[k];
      NoRepoAt(msg, j, k, "repo");
      NoRepoAt(msg, j, k, "repository");
      NoRepoAt(msg, j, k, "repo called");
      NoRepoAt(msg, j, k, "repo named");
    }
  }

  /** An alternative beginning with `rep` is not at `j` when the text's
      character `j + k` differs from it. */
  lemma NoRepoAt(msg: string, j: nat, k: nat, kw: string)
    requires k < 3 <= |kw| && kw[..3] == "rep" && j + k < |msg| && LowerChar(msg[j + k]) != kw[k]
    ensures NameAfter(msg, j, kw).None?
  {
    assert LowerChar(kw[k]) == kw[k];
  }

  /** The name in `create repo myproj` is `myproj`. */
  lemma CreateRepoMyproj()
    ensures RepoNameSearch("create repo myproj") == Some("myproj")
  {
    var name := "myproj";
    assert forall k :: 0 <= k < |name| ==> InClass(name[k], DottedSlug);
    CreateRepoName(name);
    MyprojText();
  }

  lemma MyprojText()
    ensures "create repo " + "myproj" == "create repo myproj"
  {
  }

  /** A one-line `read file X` is routed to a read of `X`, stripped: the
      read rule comes first, and its capture is everything after `read file `. */
  lemma ReadRoutesPath(messages: seq<RawMessage>, env: Env, repr: Json -> string, x: string)
    requires messages != [] && LastText(messages, repr) == "read file " + x
    requires x != [] && '\n' !in x
    ensures Route(messages, env, repr) ==
      Some(ToolCall("file", map["action" := "read", "text" := "read file " + x, "path" := Strip(x)]))
  {
    var msg := "read file " + x;
    ReadFileFires(x);
    RouteFirstRule(messages, env, repr, 0);
    ReadFileCapture(x);
    var args := ArgsFor(FileRead, msg, env);
    assert args.Keys == {"action", "text", "path"};
  }

  /** `read file` at the start of a text fires the first rule. */
  lemma ReadFileFires(x: string)
    ensures Fires(0, Lower("read file " + x))
  {
    var msg := "read file " + x;
    var lm := Lower(msg);
    assert WordAt(lm, 0, "read file") by {
      assert forall k :: 0 <= k < 9 ==> lm[k] == msg[k];
      assert lm[9] == ' ';
    }
    assert Matches(Triggers(FileRead)[0], lm);
  }

  /** The read expression captures the whole line after `read file `. */
  lemma ReadFileCapture(x: string)
    requires x != [] && '\n' !in x
    ensures ReadSearch("read file " + x) == Some(x)
  {
    var msg := "read file " + x;
    assert msg[10..] == x;
    assert CIAt(msg, 0, "read ") && CIAt(msg, 5, "file ");
    assert ReadAt(msg, 0) == Some(x);
  }

  /** The phrase `create repo` fires the repository-creation rule. */
  lemma CreateRepoFires(lm: string)
    requires Matches(Word("create repo"), lm)
    ensures Fires(2, lm) && Order[2] == CreateRepo
  {
    var ps := Triggers(CreateRepo);
    assert Order[2] == CreateRepo && ps[0] == Word("create repo");
    assert Matches(ps[0], lm);
  }

  /** The shell is reached by two rules only; the push intent's command is
      always the read-only `git status -b`: no route ever asks for a push. */
  lemma PushIsStatusCheck(messages: seq<RawMessage>, env: Env, repr: Json -> string)
    ensures var r := Route(messages, env, repr);
      r.Some? && r.value.tool == "shell" ==>
        && "command" in r.value.args
        && (r.value.args["action"] == "push_intent" ==> r.value.args["command"] == "git status -b")
        && (r.value.args["action"] != "push_intent" ==> r.value.args["command"] == ExecCommand(LastText(messages, repr)))
  {
    var r := Route(messages, env, repr);
    if r.Some? && r.value.tool == "shell" {
      var msg := LastText(messages, repr);
      var k := Classify(Lower(msg)).value;
      assert r.value == CallFor(Order[k], msg, env);
      assert ToolName(Order[k]) == "shell";
      if Order[k] == PushIntent {
        assert r.value.args["command"] == "git status -b";
      } else {
        assert Order[k] == ShellExec;
        assert r.value.args["command"] == ExecCommand(msg);
      }
    }
  }

  /** The upper-case alternatives of the README rule are tested against
      lower-cased text, so they never fire. */
  lemma UpperReadmeAlternativesDead(s: string)
    ensures !Matches(Word("update README"), Lower(s))
    ensures !Matches(Word("edit README.md"), Lower(s))
    ensures AnyMatch(Triggers(UpdateReadme), Lower(s)) <==> Matches(Word("update readme"), Lower(s))
  {
    var ls := Lower(s);
    UpperKeywordNeverMatchesLowered("update README", s, 7);
    UpperKeywordNeverMatchesLowered("edit README.md", s, 5);
    assert forall i :: !WordAt(ls, i, "update README");
    assert forall i :: !WordAt(ls, i, "edit README.md");
    var ps := Triggers(UpdateReadme);
    assert !Matches(ps[1], ls) && !Matches(ps[2], ls);
    assert ps[0] == Word("update readme");
    assert AnyMatch(ps, ls) ==> Matches(ps[0], ls);
    assert Matches(ps[0], ls) ==> AnyMatch(ps, ls);
  }

  /** The `run:` form: on a one-line message, the command is the stripped
      text after the first `run:` (in any case). */
  lemma ExecCommandAfterRun(msg: string, i: nat)
    requires '\n' !in msg
    requires CIAt(msg, i, "run:") && forall j :: 0 <= j < i ==> !CIAt(msg, j, "run:")
    requires Strip(msg[i + 4..]) != []
    ensures ExecCommand(msg) == Strip(msg[i + 4..])
  {
    var u := msg[i + 4..];
    assert '\n' !in u by {
      forall k | 0 <= k < |u| ensures u[k] != '\n' { assert u[k] == msg[i + 4 + k]; }
    }
    SpacedTailOneLine(u);
    assert RunAt(msg, i).Some?;
    var r := RunSearch(msg);
    var i' :| 0 <= i' <= |msg| && RunAt(msg, i') == r && forall j :: 0 <= j < i' ==> RunAt(msg, j).None?;
    assert i' < i ==> !CIAt(msg, i', "run:");
    assert i' == i;
  }

  /** Without `run:`, the whole message is the command. */
  lemma ExecCommandWhole(msg: string)
    requires forall i :: 0 <= i <= |msg| ==> !CIAt(msg, i, "run:")
    ensures ExecCommand(msg) == msg
  {
    assert forall i :: 0 <= i <= |msg| ==> RunAt(msg, i).None?;
  }

  /** `add file` triggers the write rule, but the capture expressions know
      only the verbs write, create, update and edit: with none of them in
      the text, the call carries neither a path nor a content. */
  lemma AddFileHasNoPath(msg: string)
    requires forall i :: 0 <= i <= |msg| ==> VerbAt(msg, i).None?
    ensures var args := WriteArgs(msg, WritePairSearch(msg), WritePathSearch(msg));
      "path" !in args && "content" !in args
  {
    assert forall i :: 0 <= i <= |msg| ==> WritePairAt(msg, i).None? && WritePathAt(msg, i).None?;
    assert WritePairSearch(msg).None? && WritePathSearch(msg).None?;
  }

  /** Without an `owner/repo` in the text, a pull request takes the owner and
      repository from the environment, empty values counting as unset. */
  lemma PullRequestUsesEnv(msg: string, env: Env)
    requires forall i :: 0 <= i <= |msg| ==> OwnerRepoAt(msg, i).None?
    ensures var args := PullRequestArgs(msg, env, TextOwnerRepo(msg), FromToSearch(msg));
      && ("owner" in args <==> Given(env.owner)) && (Given(env.owner) ==> args["owner"] == env.owner.value)
      && ("repo" in args <==> Given(env.repo)) && (Given(env.repo) ==> args["repo"] == env.repo.value)
  {
    assert TextOwnerRepo(msg).None?;
  }

  /** The leftmost `owner/repo` of the text is the one a pull request and a
      branch listing use. */
  lemma OwnerRepoFromText(msg: string, i: nat)
    requires OwnerRepoAt(msg, i).Some? && forall j :: 0 <= j < i ==> OwnerRepoAt(msg, j).None?
    ensures TextOwnerRepo(msg) == OwnerRepoAt(msg, i)
  {
    var r := TextOwnerRepo(msg);
    assert forall i' :: (0 <= i' <= |msg| && OwnerRepoAt(msg, i') == r
      && (forall j :: 0 <= j < i' ==> OwnerRepoAt(msg, j).None?)) ==> i' == i;
  }
}
