/** The shell tool: a command runs only when its trimmed text starts with one
    of a fixed list of prefixes; the subprocess itself is abstracted into the
    outcome it produced. */
module ShellTool {
  import opened Values
  import opened Text

  /** The allowed command prefixes, in the order the source lists them. */
  const Whitelist: seq<string> :=
    ["ls", "pwd", "cat", "echo", "git status", "git rev-parse", "git log", "python", "pip", "npm", "pytest"]

  /** `any(s.startswith(w) for w in ws)`. */
  function AnyPrefix(ws: seq<string>, s: string): (r: bool)
    ensures r <==> exists k :: 0 <= k < |ws| && ws[k] <= s
  {
    if ws == [] then false
    else if ws[0] <= s then true
    else
      var r := AnyPrefix(ws[1..], s);
      assert (exists k :: 0 <= k < |ws| && ws[k] <= s) ==> r by {
        if exists k :: 0 <= k < |ws| && ws[k] <= s {
          var k :| 0 <= k < |ws| && ws[k] <= s;
          assert k > 0 && ws[1..][k - 1] <= s;
        }
      }
      assert r ==> exists k :: 0 <= k < |ws| && ws[k] <= s by {
        if r {
          var k :| 0 <= k < |ws[1..]| && ws[1..][k] <= s;
          assert ws[k + 1] <= s;
        }
      }
      r
  }

  /** The gate: the whitespace-trimmed command starts with a whitelist entry. */
  predicate Allowed(command: string) {
    AnyPrefix(Whitelist, Strip(command))
  }

  /** What happened once the gate let a command through. `shlex.split` runs
      outside the `try`, so its failure escapes `run_shell`; every failure
      while spawning or waiting is caught; a run that outlives the timeout is
      killed, and the kill itself may fail. */
  datatype Subprocess =
    | SplitFails(message: string)
    | SpawnFails(message: string)
    | TimesOut(killFailure: Option<string>)
    | Completes(stdout: string, stderr: string)

  /** The dictionary `run_shell` returns. */
  datatype ShellResult = ShellResult(ok: bool, error: Option<string>, stdout: string, stderr: string) {
    function ToJson(): Json {
      if error.Some? then
        JObj([("ok", JBool(ok)), ("error", JStr(error.value)), ("stdout", JStr(stdout)), ("stderr", JStr(stderr))])
      else
        JObj([("ok", JBool(ok)), ("stdout", JStr(stdout)), ("stderr", JStr(stderr))])
    }
  }

  const Rejected: ShellResult := ShellResult(false, Some("command_not_whitelisted"), "", "Command not allowed")
  const TimedOut: ShellResult := ShellResult(false, Some("timeout"), "", "Command timed out")

  function ExecError(message: string): ShellResult {
    ShellResult(false, Some("exec_error"), "", message)
  }

  /** `run_shell(command)`, given what the subprocess would do. */
  function RunShell(command: string, proc: Subprocess): (r: Outcome<ShellResult>)
    ensures !Allowed(command) ==> r == Returned(Rejected)
    ensures Allowed(command) ==> match proc
      case SplitFails(m) => r == Raised(m)
      case SpawnFails(m) => r == Returned(ExecError(m))
      case TimesOut(killFailure) =>
        r == Returned(if killFailure.Some? then ExecError(killFailure.value) else TimedOut)
      case Completes(out, err) => r == Returned(ShellResult(true, None, out, err))
    ensures r.Returned? ==> (r.value.ok <==> Allowed(command) && proc.Completes?)
    ensures r.Returned? ==> (r.value.ok <==> r.value.error.None?)
  {
    if !Allowed(command) then Returned(Rejected)
    else match proc
      case SplitFails(m) => Raised(m)
      case SpawnFails(m) => Returned(ExecError(m))
      case TimesOut(killFailure) =>
        if killFailure.Some? then Returned(ExecError(killFailure.value)) else Returned(TimedOut)
      case Completes(out, err) => Returned(ShellResult(true, None, out, err))
  }

  /** A rejected command never reaches the subprocess: its result is the same
      whatever the subprocess would have done. */
  lemma RejectionSpawnsNothing(command: string, p: Subprocess, q: Subprocess)
    requires !Allowed(command)
    ensures RunShell(command, p) == RunShell(command, q) == Returned(Rejected)
  {
  }

  /** Two strings that differ at a position shorter than both cannot both be
      prefixes of one text. */
  lemma DifferAt(a: string, b: string, t: string, k: nat)
    requires k < |a| && k < |b| && a[k] != b[k] && a <= t
    ensures !(b <= t)
  {
    assert a[k] == t[k];
  }

  /** `w` and `p` differ at a position shorter than both. */
  predicate Differs(w: string, p: string) {
    exists k :: 0 <= k < |w| && k < |p| && w[k] != p[k]
  }

  /** No whitelist entry is a prefix of a command starting with `p`, when `p`
      differs from every entry at some position shorter than both. */
  lemma NoEntryMatches(p: string, t: string)
    requires p <= t
    requires forall i :: 0 <= i < |Whitelist| ==> Differs(Whitelist[i], p)
    ensures !AnyPrefix(Whitelist, t)
  {
    forall i | 0 <= i < |Whitelist| ensures !(Whitelist[i] <= t) {
      var w := Whitelist[i];
      assert Differs(w, p);
      var k :| 0 <= k < |w| && k < |p| && w[k] != p[k];
      DifferAt(p, w, t, k);
    }
  }

  /** `rm …`, `curl …` and `git push …` are always rejected, whatever follows
      and whatever whitespace surrounds them. */
  lemma DangerousCommandsRejected(command: string)
    requires var t := Strip(command); "rm" <= t || "curl" <= t || "git push" <= t
    ensures !Allowed(command)
    ensures RunShell(command, Completes("", "")) == Returned(Rejected)
  {
    var t := Strip(command);
    if "rm" <= t {
      forall i | 0 <= i < |Whitelist| ensures Differs(Whitelist[i], "rm") {
        assert Whitelist[i][0] != "rm"[0];
      }
      NoEntryMatches("rm", t);
    } else if "curl" <= t {
      forall i | 0 <= i < |Whitelist| ensures Differs(Whitelist[i], "curl") {
        if i == 2 { assert Whitelist[i][1] != "curl"[1]; } else { assert Whitelist[i][0] != "curl"[0]; }
      }
      NoEntryMatches("curl", t);
    } else {
      forall i | 0 <= i < |Whitelist| ensures Differs(Whitelist[i], "git push") {
        if 4 <= i <= 6 {
          assert Whitelist[i][4] != "git push"[4];
        } else {
          assert Whitelist[i][0] != "git push"[0];
        }
      }
      NoEntryMatches("git push", t);
    }
  }

  /** The gate is a plain prefix test, not a word test: `lsblk` passes as
      `ls`. */
  lemma PrefixNotWord(rest: string)
    requires Strip("lsblk" + rest) == "lsblk" + rest
    ensures Allowed("lsblk" + rest)
  {
    assert Whitelist[0] <= "lsblk" + rest;
  }

  /** The safe status check the push intent runs passes the gate. */
  lemma StatusCheckAllowed()
    ensures Allowed("git status -b")
  {
    var t := "git status -b";
    StripTrimmed(t);
    assert Whitelist[4] <= t;
  }

  /** `flake8 .`, which the repository fixer runs as its lint step, is not on
      the whitelist. */
  lemma LintCommandRejected()
    ensures !Allowed("flake8 .")
  {
    var t := "flake8 .";
    StripTrimmed(t);
    forall i | 0 <= i < |Whitelist| ensures !(Whitelist[i] <= t) {
      DifferAt(t, Whitelist[i], t, 0);
    }
  }
}
