/** The GitHub tool: thin wrappers over GitHub's REST API. The network is a
    function from request to response; every wrapper returns the dictionary
    the tool produces (or the exception that escapes it) together with the
    requests it sent, in order. */
module GitHubTool {
  import opened Values
  import opened Text
  import opened Patterns

  const GitHubApi: string := "https://api.github.com"

  /** Repositories requested per page when listing. */
  const PerPage: nat := 100

  /** An HTTP request: verb, URL, query parameters and JSON body. */
  datatype Request = Request(verb: string, url: string, query: seq<(string, Json)>, payload: Option<Json>)

  /** What the server answered: a status and the body (its parsed JSON, or the
      raw text as a string when it is not JSON), or a failure before any
      answer (connection refused, time-out, ...). */
  datatype Response = Http(status: int, data: Json) | TransportError(message: string)

  /** The network: what the server answers to each request. */
  type Api = Request -> Response

  /** A wrapper's result and the requests it sent. */
  datatype Exchange = Exchange(outcome: Outcome<Json>, sent: seq<Request>)

  /** The dictionary `_safe_request` returns. */
  datatype Reply = Answered(status: int, data: Json) | NoResponse(error: string) {
    /** Its `"ok"` entry. */
    predicate Ok() {
      Answered? && (status == 200 || status == 201 || status == 204)
    }

    function ToJson(): Json {
      match this
      case Answered(s, d) => JObj([("ok", JBool(Ok())), ("status", JInt(s)), ("data", d)])
      case NoResponse(e) => JObj([("ok", JBool(false)), ("error", JStr(e)), ("status", JNull)])
    }

    /** `r.get("status")`. */
    function StatusOrNull(): Json {
      if Answered? then JInt(status) else JNull
    }

    /** `r.get("data")`. */
    function DataOrNull(): Json {
      if Answered? then data else JNull
    }

    /** `r["data"]`: the error reply has no such key. */
    function DataOrRaise(): (r: Outcome<Json>)
      ensures r.Raised? <==> NoResponse?
      ensures r.Raised? ==> r.exception == KeyError("data")
      ensures r.Returned? ==> r.value == data
    {
      if Answered? then Returned(data) else Raised(KeyError("data"))
    }
  }

  /** `_safe_request`: it never raises. */
  function SafeRequest(resp: Response): (r: Reply)
    ensures r.Ok() <==> resp.Http? && resp.status in {200, 201, 204}
    ensures resp.Http? ==> r == Answered(resp.status, resp.data)
    ensures resp.TransportError? ==> r == NoResponse(resp.message)
  {
    match resp
    case Http(s, d) => Answered(s, d)
    case TransportError(m) => NoResponse(m)
  }

  /** The text an f-string gives for a value that may be `None`. */
  function Show(o: Option<string>): string {
    if o.Some? then o.value else "None"
  }

  function RepoUrl(owner: Option<string>, repo: Option<string>): string {
    GitHubApi + "/repos/" + Show(owner) + "/" + Show(repo)
  }

  function Get1(url: string): Request {
    Request("GET", url, [], None)
  }

  /** The last request sent, if any. */
  function Last(sent: seq<Request>): Option<Request> {
    if sent == [] then None else Some(sent[|sent| - 1])
  }

  // ---------------------------------------------------------------------
  // Default branch

  /** `get_default_branch(owner, repo)`: the repository's `default_branch`,
      `"main"` when the lookup fails or the entry is absent. */
  function GetDefaultBranch(api: Api, owner: Option<string>, repo: Option<string>): (x: Exchange)
    ensures x.sent == [Get1(RepoUrl(owner, repo))]
    ensures var r := SafeRequest(api(x.sent[0]));
      && (!r.Ok() ==> x.outcome == Returned(JStr("main")))
      && (r.Ok() && r.data.JObj? ==> x.outcome == Returned(GetOr(r.data.fields, "default_branch", JStr("main"))))
      && (r.Ok() && !r.data.JObj? ==> x.outcome == Raised(NoAttribute(r.data, "get")))
  {
    var req := Get1(RepoUrl(owner, repo));
    var r := SafeRequest(api(req));
    var outcome :=
      if !r.Ok() then Returned(JStr("main"))
      else if r.data.JObj? then Returned(GetOr(r.data.fields, "default_branch", JStr("main")))
      else Raised(NoAttribute(r.data, "get"));
    Exchange(outcome, [req])
  }

  /** Whatever the server says, the branch is a real one or `"main"`: a
      successful lookup whose answer names a branch gives that name. */
  lemma DefaultBranchFallback(api: Api, owner: Option<string>, repo: Option<string>)
    ensures var x := GetDefaultBranch(api, owner, repo);
      var r := SafeRequest(api(Get1(RepoUrl(owner, repo))));
      x.outcome.Returned? && x.outcome.value != JStr("main") ==>
        r.Ok() && r.data.JObj? && HasKey(r.data.fields, "default_branch")
  {
  }

  // ---------------------------------------------------------------------
  // Create repository

  /** The error dictionary the wrappers build from a failed reply:
      `{"ok": False, "status": r["status"], "error": r["data"]}`. */
  function FailureDict(r: Reply): (o: Outcome<Json>)
    requires !r.Ok()
    ensures o.Raised? <==> r.NoResponse?
    ensures r.Answered? ==> o == Returned(JObj([("ok", JBool(false)), ("status", JInt(r.status)), ("error", r.data)]))
  {
    match r.DataOrRaise()
    case Raised(e) => Raised(e)
    case Returned(d) => Returned(JObj([("ok", JBool(false)), ("status", r.StatusOrNull()), ("error", d)]))
  }

  function DataDict(data: Json): Json {
    JObj([("ok", JBool(true)), ("data", data)])
  }

  function CreateRepoRequest(name: string, description: string, isPrivate: bool): Request {
    Request("POST", GitHubApi + "/user/repos", [],
      Some(JObj([("name", JStr(name)), ("description", JStr(description)), ("private", JBool(isPrivate))])))
  }

  /** `create_repository(name, description, private)`. */
  function CreateRepository(api: Api, name: string, description: string, isPrivate: bool): (x: Exchange)
    ensures x.sent == [CreateRepoRequest(name, description, isPrivate)]
    ensures var resp := api(x.sent[0]);
      && (resp.Http? && resp.status in {200, 201, 204} ==> x.outcome == Returned(DataDict(resp.data)))
      && (resp.Http? && resp.status !in {200, 201, 204} ==>
            x.outcome == Returned(JObj([("ok", JBool(false)), ("status", JInt(resp.status)), ("error", resp.data)])))
      && (resp.TransportError? ==> x.outcome == Raised(KeyError("data")))
  {
    var req := CreateRepoRequest(name, description, isPrivate);
    var r := SafeRequest(api(req));
    Exchange(if r.Ok() then Returned(DataDict(r.data)) else FailureDict(r), [req])
  }

  // ---------------------------------------------------------------------
  // Create or update a file

  function ContentsUrl(owner: Option<string>, repo: Option<string>, path: string): string {
    RepoUrl(owner, repo) + "/contents/" + path
  }

  /** The `sha` of the existing file when the lookup found one: the body then
      updates that file instead of creating it. */
  function ExistingSha(r: Reply): (sha: Option<Json>)
    ensures sha.Some? <==> r.Ok() && r.data.JObj? && Truthy(Get(r.data.fields, "sha"))
    ensures sha.Some? ==> sha.value == Get(r.data.fields, "sha")
  {
    if r.Ok() && r.data.JObj? && Truthy(Get(r.data.fields, "sha")) then Some(Get(r.data.fields, "sha")) else None
  }

  /** The body of the PUT request. */
  function PutBody(message: string, encoded: string, branch: Json, sha: Option<Json>): Json {
    var base := [("message", JStr(message)), ("content", JStr(encoded)), ("branch", branch)];
    JObj(if sha.Some? then base + [("sha", sha.value)] else base)
  }

  /** `create_or_update_file(owner, repo, path, content, message)`, with
      `base64` standing for `base64.b64encode(content.encode()).decode()`.
      The PUT is sent directly, so its transport failure escapes. */
  function CreateOrUpdateFile(api: Api, base64: string -> string, owner: Option<string>, repo: Option<string>,
                              path: string, content: string, message: string): (x: Exchange)
    ensures !Given(owner) || !Given(repo) || path == "" ==>
      x == Exchange(Returned(JObj([("ok", JBool(false)), ("error", JStr("Missing owner/repo/path"))])), [])
    ensures Given(owner) && Given(repo) && path != "" ==>
      && 1 <= |x.sent| <= 3
      && x.sent[0] == Get1(RepoUrl(owner, repo))
      && (|x.sent| == 3 <==> GetDefaultBranch(api, owner, repo).outcome.Returned?)
  {
    if !Given(owner) || !Given(repo) || path == "" then
      Exchange(Returned(JObj([("ok", JBool(false)), ("error", JStr("Missing owner/repo/path"))])), [])
    else
      var b := GetDefaultBranch(api, owner, repo);
      match b.outcome
      case Raised(e) => Exchange(Raised(e), b.sent)
      case Returned(branch) =>
        var url := ContentsUrl(owner, repo, path);
        var lookup := Request("GET", url, [("ref", branch)], None);
        var sha := ExistingSha(SafeRequest(api(lookup)));
        var put := Request("PUT", url, [], Some(PutBody(message, base64(content), branch, sha)));
        var outcome :=
          match api(put)
          case TransportError(m) => Raised(m)
          case Http(s, d) => Returned(JObj([("ok", JBool(s == 200 || s == 201)), ("status", JInt(s)), ("data", d)]));
        Exchange(outcome, b.sent + [lookup, put])
  }

  /** The file write: the lookup is made on the default branch, the PUT
      carries the encoded content and, exactly when the lookup found a file
      with a `sha`, that `sha`; the result is ok exactly for status 200 or 201
      (not for 204, unlike the other wrappers). */
  lemma FileUpdateProtocol(api: Api, base64: string -> string, owner: Option<string>, repo: Option<string>,
                           path: string, content: string, message: string)
    requires Given(owner) && Given(repo) && path != ""
    requires GetDefaultBranch(api, owner, repo).outcome.Returned?
    ensures var x := CreateOrUpdateFile(api, base64, owner, repo, path, content, message);
      var branch := GetDefaultBranch(api, owner, repo).outcome.value;
      var lookup := x.sent[1];
      var put := x.sent[2];
      var found := SafeRequest(api(lookup));
      && lookup == Request("GET", ContentsUrl(owner, repo, path), [("ref", branch)], None)
      && put.verb == "PUT" && put.url == ContentsUrl(owner, repo, path) && put.payload.Some?
      && put.payload.value.JObj?
      && Get(put.payload.value.fields, "content") == JStr(base64(content))
      && Get(put.payload.value.fields, "branch") == branch
      && (HasKey(put.payload.value.fields, "sha") <==> ExistingSha(found).Some?)
      && (api(put).TransportError? <==> x.outcome.Raised?)
      && (x.outcome.Returned? ==>
            (x.outcome.value.JObj? && Get(x.outcome.value.fields, "ok") == JBool(api(put).status in {200, 201})))
  {
    var x := CreateOrUpdateFile(api, base64, owner, repo, path, content, message);
    var branch := GetDefaultBranch(api, owner, repo).outcome.value;
    var url := ContentsUrl(owner, repo, path);
    var lookup := Request("GET", url, [("ref", branch)], None);
    var sha := ExistingSha(SafeRequest(api(lookup)));
    var put := Request("PUT", url, [], Some(PutBody(message, base64(content), branch, sha)));
    assert x.sent[1] == lookup && x.sent[2] == put;
    PutBodyFields(message, base64(content), branch, sha);
  }

  /** The PUT body holds the encoded content and the branch, and a `sha`
      exactly when one is given. */
  lemma PutBodyFields(message: string, encoded: string, branch: Json, sha: Option<Json>)
    ensures var fields := PutBody(message, encoded, branch, sha).fields;
      && Get(fields, "content") == JStr(encoded)
      && Get(fields, "branch") == branch
      && (HasKey(fields, "sha") <==> sha.Some?)
  {
    var fields := PutBody(message, encoded, branch, sha).fields;
    assert fields[1] == ("content", JStr(encoded));
    assert fields[2] == ("branch", branch);
    if sha.Some? {
      assert fields[3].0 == "sha";
    } else {
      assert |fields| == 3;
    }
  }

  // ---------------------------------------------------------------------
  // Iterating over JSON values

  /** `for x in v`: a list gives its items, a dictionary its keys, a string
      its characters; other values cannot be iterated. */
  function Iterate(v: Json): (r: Outcome<seq<Json>>)
    ensures v.JList? ==> r == Returned(v.items)
    ensures r.Returned? ==> v.JList? || v.JObj? || v.JStr?
    ensures r.Returned? && (v.JObj? || v.JStr?) ==>
      forall k :: 0 <= k < |r.value| ==> r.value[k].JStr?
  {
    match v
    case JList(items) => Returned(items)
    case JObj(fields) => Returned(seq(|fields|, k requires 0 <= k < |fields| => JStr(fields[k].0)))
    case JStr(s) => Returned(seq(|s|, k requires 0 <= k < |s| => JStr([s[k]])))
    case _ => Raised("'" + TypeName(v) + "' object is not iterable")
  }

  /** `[f(x) for x in items]` where `f` first calls `x.get`: the first item
      that is not a dictionary raises. */
  function EachDict(items: seq<Json>, f: seq<(string, Json)> -> Json): (r: Outcome<seq<Json>>)
    ensures r.Returned? <==> forall k :: 0 <= k < |items| ==> items[k].JObj?
    ensures r.Returned? ==> |r.value| == |items| && forall k :: 0 <= k < |items| ==> r.value[k] == f(items[k].fields)
    ensures r.Raised? ==> exists k ::
      && 0 <= k < |items| && !items[k].JObj?
      && (forall j :: 0 <= j < k ==> items[j].JObj?)
      && r.exception == NoAttribute(items[k], "get")
  {
    if items == [] then Returned([])
    else if !items[0].JObj? then Raised(NoAttribute(items[0], "get"))
    else
      var rest := EachDict(items[1..], f);
      assert forall k :: 1 <= k < |items| ==> items[1..][k - 1] == items[k];
      match rest
      case Raised(e) =>
        NonDictShift(items, e);
        Raised(e)
      case Returned(vs) => Returned([f(items[0].fields)] + vs)
  }

  /** The first entry that is not a dictionary, found after a dictionary,
      is the first one of the whole list too. */
  lemma NonDictShift(items: seq<Json>, e: string)
    requires items != [] && items[0].JObj?
    requires exists k ::
      && 0 <= k < |items[1..]| && !items[1..][k].JObj?
      && (forall j :: 0 <= j < k ==> items[1..][j].JObj?)
      && e == NoAttribute(items[1..][k], "get")
    ensures exists k ::
      && 0 <= k < |items| && !items[k].JObj?
      && (forall j :: 0 <= j < k ==> items[j].JObj?)
      && e == NoAttribute(items[k], "get")
  {
    var k :| 0 <= k < |items[1..]| && !items[1..][k].JObj?
      && (forall j :: 0 <= j < k ==> items[1..][j].JObj?) && e == NoAttribute(items[1..][k], "get");
    assert items[k + 1] == items[1..][k];
    assert forall j :: 1 <= j < k + 1 ==> items[j] == items[1..][j - 1];
  }

  // ---------------------------------------------------------------------
  // List branches

  function BranchName(fields: seq<(string, Json)>): Json {
    Get(fields, "name")
  }

  function BranchesUrl(owner: Option<string>, repo: Option<string>): string {
    RepoUrl(owner, repo) + "/branches"
  }

  /** `list_branches(owner, repo)`. */
  function ListBranches(api: Api, owner: Option<string>, repo: Option<string>): (x: Exchange)
    ensures x.sent == [Get1(BranchesUrl(owner, repo))]
    ensures var r := SafeRequest(api(x.sent[0]));
      && (!r.Ok() ==> x.outcome == FailureDict(r))
      && (r.Ok() && r.data.JList? && (forall k :: 0 <= k < |r.data.items| ==> r.data.items[k].JObj?) ==>
            x.outcome.Returned? && x.outcome.value.JObj?
            && Get(x.outcome.value.fields, "ok") == JBool(true)
            && var names := Get(x.outcome.value.fields, "branches");
               names.JList? && |names.items| == |r.data.items|
               && forall k :: 0 <= k < |r.data.items| ==> names.items[k] == Get(r.data.items[k].fields, "name"))
      && (r.Ok() && r.data.JList? && (exists k :: 0 <= k < |r.data.items| && !r.data.items[k].JObj?) ==>
            x.outcome.Raised?)
  {
    var req := Get1(BranchesUrl(owner, repo));
    var r := SafeRequest(api(req));
    var outcome :=
      if !r.Ok() then FailureDict(r)
      else match Iterate(r.data)
        case Raised(e) => Raised(e)
        case Returned(items) =>
          match EachDict(items, BranchName)
          case Raised(e) => Raised(e)
          case Returned(names) =>
            var fields := [("ok", JBool(true)), ("branches", JList(names))];
            assert Get(fields, "ok") == JBool(true) && Get(fields, "branches") == JList(names) by {
              assert fields[1..][0] == ("branches", JList(names));
            }
            Returned(JObj(fields));
    Exchange(outcome, [req])
  }

  /** A successful listing whose body is an empty dictionary or an empty
      string lists no branches; any other dictionary or string raises. */
  lemma BranchesFromNonList(api: Api, owner: Option<string>, repo: Option<string>)
    requires var r := SafeRequest(api(Get1(BranchesUrl(owner, repo)))); r.Ok() && (r.data.JObj? || r.data.JStr?)
    ensures var r := SafeRequest(api(Get1(BranchesUrl(owner, repo))));
      var x := ListBranches(api, owner, repo);
      var empty := r.data == JObj([]) || r.data == JStr("");
      && (empty ==> x.outcome == Returned(JObj([("ok", JBool(true)), ("branches", JList([]))])))
      && (!empty ==> x.outcome.Raised? && x.outcome.exception == NoAttribute(JStr([]), "get"))
  {
    var r := SafeRequest(api(Get1(BranchesUrl(owner, repo))));
    var items := Iterate(r.data).value;
    if items != [] {
      assert items[0].JStr? && !items[0].JObj?;
      match EachDict(items, BranchName)
      case Raised(e) =>
        var k :| 0 <= k < |items| && !items[k].JObj? && e == NoAttribute(items[k], "get");
      case Returned(_) =>
    }
  }

  // ---------------------------------------------------------------------
  // Create pull request

  function PullsUrl(owner: Option<string>, repo: Option<string>): string {
    RepoUrl(owner, repo) + "/pulls"
  }

  function PullRequest(owner: Option<string>, repo: Option<string>, head: string, base: Json, title: string, body: string): Request {
    Request("POST", PullsUrl(owner, repo), [],
      Some(JObj([("title", JStr(title)), ("head", JStr(head)), ("base", base), ("body", JStr(body))])))
  }

  /** `create_pull_request(owner, repo, head, base, title, body)`. */
  function CreatePullRequest(api: Api, owner: Option<string>, repo: Option<string>, head: string, base: Json,
                             title: string, body: string): (x: Exchange)
    ensures !Given(owner) || !Given(repo) || head == "" || !Truthy(base) ==>
      x == Exchange(Returned(JObj([("ok", JBool(false)), ("error", JStr("Missing owner/repo/head/base"))])), [])
    ensures Given(owner) && Given(repo) && head != "" && Truthy(base) ==>
      && x.sent == [PullRequest(owner, repo, head, base, title, body)]
      && var r := SafeRequest(api(x.sent[0]));
         x.outcome == (if r.Ok() then Returned(DataDict(r.data)) else FailureDict(r))
  {
    if !Given(owner) || !Given(repo) || head == "" || !Truthy(base) then
      Exchange(Returned(JObj([("ok", JBool(false)), ("error", JStr("Missing owner/repo/head/base"))])), [])
    else
      var req := PullRequest(owner, repo, head, base, title, body);
      var r := SafeRequest(api(req));
      Exchange(if r.Ok() then Returned(DataDict(r.data)) else FailureDict(r), [req])
  }

  // ---------------------------------------------------------------------
  // List repositories, page by page

  function PageRequest(page: int): Request {
    Request("GET", GitHubApi + "/user/repos", [("per_page", JInt(PerPage)), ("page", JInt(page))], None)
  }

  /** The summary kept of one repository. */
  function RepoInfo(fields: seq<(string, Json)>): Json {
    JObj([("name", Get(fields, "name")), ("full_name", Get(fields, "full_name")),
          ("private", GetOr(fields, "private", JBool(false))), ("html_url", Get(fields, "html_url"))])
  }

  function Success(repos: seq<Json>): Json {
    JObj([("ok", JBool(true)), ("total", JInt(|repos|)), ("repositories", JList(repos))])
  }

  /** `{"ok": False, "status": r.get("status"), "error": r.get("data")}`. */
  function ListFailure(r: Reply): Json {
    JObj([("ok", JBool(false)), ("status", r.StatusOrNull()), ("error", r.DataOrNull())])
  }

  /** The listing stops at this page: it failed, is not a list, is short, or
      holds an entry that is not a dictionary. */
  predicate Halts(resp: Response) {
    var r := SafeRequest(resp);
    || !r.Ok()
    || !r.data.JList?
    || |r.data.items| < PerPage
    || exists k :: 0 <= k < |r.data.items| && !r.data.items[k].JObj?
  }

  /** The listing's pages hold a page where it stops. */
  predicate ListingEnds(pages: seq<Response>) {
    exists k :: 0 <= k < |pages| && Halts(pages[k])
  }

  /** Index of the page where the listing stops. */
  function FirstStop(pages: seq<Response>): (n: nat)
    requires ListingEnds(pages)
    ensures n < |pages| && Halts(pages[n])
    ensures forall k :: 0 <= k < n ==> !Halts(pages[k])
  {
    var hit := (k: nat) => k < |pages| && Halts(pages[k]);
    var r := FirstHit(|pages| - 1, hit, 0);
    forall k: nat | k < (if r.Some? then r.value else |pages|) ensures !Halts(pages[k]) {
      assert !hit(k);
    }
    r.value
  }

  /** The result of the listing given what was gathered before the page where
      it stops. */
  function Finish(resp: Response, acc: seq<Json>): (r: Outcome<Json>)
    ensures !SafeRequest(resp).Ok() ==> r == Returned(ListFailure(SafeRequest(resp)))
    ensures r.Raised? <==> var d := SafeRequest(resp);
      d.Ok() && d.data.JList? && EachDict(d.data.items, RepoInfo).Raised?
    ensures r.Returned? && SafeRequest(resp).Ok() ==> exists es :: r.value == Success(acc + es)
  {
    var r := SafeRequest(resp);
    if !r.Ok() then Returned(ListFailure(r))
    else if !r.data.JList? then assert acc + [] == acc; Returned(Success(acc))
    else match EachDict(r.data.items, RepoInfo)
      case Raised(e) => Raised(e)
      case Returned(es) => Returned(Success(acc + es))
  }

  /** `list_repos()` from page `i + 1` on, with `acc` gathered so far; `pages[i]`
      is the server's answer to the request for page `i + 1`. Whatever page
      stops it, the result is a dictionary led by its `ok` flag. */
  function ListFrom(pages: seq<Response>, i: nat, acc: seq<Json>): (r: Outcome<Json>)
    requires i < |pages| && exists k :: i <= k < |pages| && Halts(pages[k])
    ensures r.Returned? ==> r.value.JObj? && |r.value.fields| == 3 && r.value.fields[0].0 == "ok"
    decreases |pages| - i
  {
    if Halts(pages[i]) then Finish(pages[i], acc)
    else
      var es := EachDict(SafeRequest(pages[i]).data.items, RepoInfo).value;
      ListFrom(pages, i + 1, acc + es)
  }

  /** The summaries of a full page. */
  function PageEntries(resp: Response): seq<Json>
    requires !Halts(resp)
  {
    EachDict(SafeRequest(resp).data.items, RepoInfo).value
  }

  /** The summaries of the full pages `i..n`, in page order. */
  function Collected(pages: seq<Response>, i: nat, n: nat): seq<Json>
    requires i <= n <= |pages|
    requires forall k :: i <= k < n ==> !Halts(pages[k])
    decreases n - i
  {
    if i == n then [] else PageEntries(pages[i]) + Collected(pages, i + 1, n)
  }

  lemma {:induction false} ListFromCollects(pages: seq<Response>, i: nat, acc: seq<Json>)
    requires ListingEnds(pages) && i <= FirstStop(pages)
    ensures exists k :: i <= k < |pages| && Halts(pages[k])
    ensures ListFrom(pages, i, acc) == Finish(pages[FirstStop(pages)], acc + Collected(pages, i, FirstStop(pages)))
    decreases FirstStop(pages) - i
  {
    var n := FirstStop(pages);
    assert i <= n < |pages| && Halts(pages[n]);
    if i < n {
      var es := PageEntries(pages[i]);
      ListFromCollects(pages, i + 1, acc + es);
      assert acc + es + Collected(pages, i + 1, n) == acc + Collected(pages, i, n);
    } else {
      assert acc + Collected(pages, i, n) == acc;
    }
  }

  /** The listing gathers the summaries of every page up to the one where it
      stops, in page order, and its `total` is their number; a failed page
      reports its status and body, and an entry that is not a dictionary
      raises. */
  lemma ListingInPageOrder(pages: seq<Response>)
    requires ListingEnds(pages)
    ensures var n := FirstStop(pages);
      var last := SafeRequest(pages[n]);
      var before := Collected(pages, 0, n);
      && (!last.Ok() ==> ListFrom(pages, 0, []) == Returned(ListFailure(last)))
      && (last.Ok() && !last.data.JList? ==> ListFrom(pages, 0, []) == Returned(Success(before)))
      && (last.Ok() && last.data.JList? && (forall k :: 0 <= k < |last.data.items| ==> last.data.items[k].JObj?) ==>
            var repos := before + EachDict(last.data.items, RepoInfo).value;
            && ListFrom(pages, 0, []) == Returned(Success(repos))
            && |repos| == |before| + |last.data.items|)
  {
    ListingIsFinish(pages);
    FinishCases(pages[FirstStop(pages)], Collected(pages, 0, FirstStop(pages)));
  }

  /** The listing is decided by the stopping page and the full pages before it. */
  lemma ListingIsFinish(pages: seq<Response>)
    requires ListingEnds(pages)
    ensures ListFrom(pages, 0, []) == Finish(pages[FirstStop(pages)], Collected(pages, 0, FirstStop(pages)))
  {
    ListFromCollects(pages, 0, []);
    assert [] + Collected(pages, 0, FirstStop(pages)) == Collected(pages, 0, FirstStop(pages));
  }

  /** The three ways the stopping page ends the listing. */
  lemma FinishCases(resp: Response, acc: seq<Json>)
    ensures var r := SafeRequest(resp);
      && (!r.Ok() ==> Finish(resp, acc) == Returned(ListFailure(r)))
      && (r.Ok() && !r.data.JList? ==> Finish(resp, acc) == Returned(Success(acc)))
      && (r.Ok() && r.data.JList? && (forall k :: 0 <= k < |r.data.items| ==> r.data.items[k].JObj?) ==>
            var repos := acc + EachDict(r.data.items, RepoInfo).value;
            && Finish(resp, acc) == Returned(Success(repos))
            && |repos| == |acc| + |r.data.items|)
  {
  }

  /** Every full page contributes exactly its own entries: the count gathered
      before the stopping page is the sum of their lengths. */
  lemma {:induction false} CollectedLength(pages: seq<Response>, i: nat, n: nat)
    requires i <= n <= |pages|
    requires forall k :: i <= k < n ==> !Halts(pages[k])
    ensures |Collected(pages, i, n)| == PagesLength(pages, i, n)
    decreases n - i
  {
    if i < n {
      CollectedLength(pages, i + 1, n);
      PageEntriesLength(pages[i]);
    }
  }

  /** A full page contributes one summary per entry. */
  lemma PageEntriesLength(resp: Response)
    requires !Halts(resp)
    ensures |PageEntries(resp)| == |SafeRequest(resp).data.items|
  {
    var items := SafeRequest(resp).data.items;
    assert forall k :: 0 <= k < |items| ==> items[k].JObj?;
  }

  /** The sum of the item counts of the full pages `i..n`. */
  function PagesLength(pages: seq<Response>, i: nat, n: nat): nat
    requires i <= n <= |pages|
    requires forall k :: i <= k < n ==> !Halts(pages[k])
    decreases n - i
  {
    if i == n then 0
    else
      assert !Halts(pages[i]);
      |SafeRequest(pages[i]).data.items| + PagesLength(pages, i + 1, n)
  }

  /** One step of the listing: the stopping page finishes it, any other page
      passes its summaries on to the next. */
  lemma ListStep(pages: seq<Response>, i: nat, acc: seq<Json>)
    requires ListingEnds(pages) && i <= FirstStop(pages)
    ensures exists k :: i <= k < |pages| && Halts(pages[k])
    ensures Halts(pages[i]) ==> i == FirstStop(pages) && ListFrom(pages, i, acc) == Finish(pages[i], acc)
    ensures !Halts(pages[i]) ==>
      && i < FirstStop(pages)
      && ListFrom(pages, i, acc) == ListFrom(pages, i + 1, acc + PageEntries(pages[i]))
  {
    assert i <= FirstStop(pages) < |pages| && Halts(pages[FirstStop(pages)]);
  }

  /** What one page does to the listing, in the order `list_repos` tests it:
      a failure, a body that is not a list, an entry that is not a
      dictionary and a short page end it; a full page of dictionaries hands
      on to the next page. */
  lemma PageOutcome(pages: seq<Response>, i: nat, acc: seq<Json>)
    requires ListingEnds(pages) && i <= FirstStop(pages)
    ensures i < |pages| && exists k :: i <= k < |pages| && Halts(pages[k])
    ensures var r := SafeRequest(pages[i]);
      && (!r.Ok() ==> i == FirstStop(pages) && ListFrom(pages, i, acc) == Returned(ListFailure(r)))
      && (r.Ok() && !r.data.JList? ==> i == FirstStop(pages) && ListFrom(pages, i, acc) == Returned(Success(acc)))
      && (r.Ok() && r.data.JList? && EachDict(r.data.items, RepoInfo).Raised? ==>
            i == FirstStop(pages) && ListFrom(pages, i, acc) == Raised(EachDict(r.data.items, RepoInfo).exception))
      && (r.Ok() && r.data.JList? && EachDict(r.data.items, RepoInfo).Returned? && |r.data.items| < PerPage ==>
            && i == FirstStop(pages)
            && ListFrom(pages, i, acc) == Returned(Success(acc + EachDict(r.data.items, RepoInfo).value)))
      && (r.Ok() && r.data.JList? && EachDict(r.data.items, RepoInfo).Returned? && |r.data.items| >= PerPage ==>
            && i < FirstStop(pages)
            && ListFrom(pages, i, acc) == ListFrom(pages, i + 1, acc + EachDict(r.data.items, RepoInfo).value))
  {
    ListStep(pages, i, acc);
  }

  /** The requests for pages `1..p`, one page more. */
  lemma RequestsSnoc(p: nat)
    requires p >= 1
    ensures seq(p - 1, k => PageRequest(k + 1)) + [PageRequest(p)] == seq(p, k => PageRequest(k + 1))
  {
  }

  /** The summaries of one page's entries: the `for repo in data` loop. */
  method Summaries(items: seq<Json>) returns (out: Outcome<seq<Json>>)
    ensures out == EachDict(items, RepoInfo)
  {
    var es: seq<Json> := [];
    var i := 0;
    while i < |items|
      invariant 0 <= i <= |items|
      invariant |es| == i
      invariant forall k :: 0 <= k < i ==> items[k].JObj? && es[k] == RepoInfo(items[k].fields)
    {
      var repo := items[i];
      if !repo.JObj? {
        out := Raised(NoAttribute(repo, "get"));
        ghost var r := EachDict(items, RepoInfo);
        assert r.Raised? by { assert !items[i].JObj?; }
        ghost var k :| 0 <= k < |items| && !items[k].JObj?
          && (forall j :: 0 <= j < k ==> items[j].JObj?) && r.exception == NoAttribute(items[k], "get");
        assert k == i;
        return;
      }
      es := es + [RepoInfo(repo.fields)];
      i := i + 1;
    }
    ghost var r := EachDict(items, RepoInfo);
    assert r.Returned?;
    assert r.value == es;
    out := Returned(es);
  }

  /** `list_repos()`: requests page after page until one stops the listing.
      Returns the result and the requests sent. */
  method ListRepos(pages: seq<Response>) returns (out: Outcome<Json>, sent: seq<Request>)
    requires ListingEnds(pages)
    ensures out == ListFrom(pages, 0, [])
    ensures sent == seq(FirstStop(pages) + 1, k => PageRequest(k + 1))
  {
    var repos: seq<Json> := [];
    var page: nat := 1;
    sent := [];
    ghost var n := FirstStop(pages);
    while true
      invariant 1 <= page <= n + 1
      invariant ListFrom(pages, page - 1, repos) == ListFrom(pages, 0, [])
      invariant sent == seq(page - 1, k => PageRequest(k + 1))
      decreases n + 1 - page
    {
      PageOutcome(pages, page - 1, repos);
      RequestsSnoc(page);
      sent := sent + [PageRequest(page)];
      var r := SafeRequest(pages[page - 1]);
      if !r.Ok() {
        out := Returned(ListFailure(r));
        return;
      }
      var data := r.data;
      if !data.JList? {
        break;
      }
      var s := Summaries(data.items);
      if s.Raised? {
        out := Raised(s.exception);
        return;
      }
      repos := repos + s.value;
      if |data.items| < PerPage {
        break;
      }
      assert page - 1 < n;
      page := page + 1;
    }
    out := Returned(Success(repos));
  }
}
