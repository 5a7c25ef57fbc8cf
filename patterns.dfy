/** The pieces of Python's `re` that the router's expressions use, written as
    explicit predicates and functions: literal text (exact or ignoring case),
    word boundaries `\b`, anchors, character classes with greedy repetition,
    the tails `(.+)$` and `\s*(.+)$`, and leftmost search (`re.search`). */
module Patterns {
  import opened Values
  import opened Text

  /** One character of a keyword against one character of text; `.` in a
      keyword stands for any character except a newline. */
  predicate CharLike(p: char, c: char) {
    if p == '.' then c != '\n' else p == c
  }

  /** The keyword occurs in `s` at position `i` (case-sensitive). */
  predicate LitAt(s: string, i: int, kw: string) {
    0 <= i && i + |kw| <= |s| && forall k :: 0 <= k < |kw| ==> CharLike(kw[k], s[i + k])
  }

  /** The literal occurs in `s` at position `i`, ignoring case (`re.I`). */
  predicate CIAt(s: string, i: int, lit: string) {
    0 <= i && i + |lit| <= |s| && forall k :: 0 <= k < |lit| ==> LowerChar(s[i + k]) == LowerChar(lit[k])
  }

  predicate WordCharAt(s: string, i: int) {
    0 <= i < |s| && IsWordChar(s[i])
  }

  /** `\b` at position `i`: exactly one of the characters around it is a word
      character (outside the text counts as a non-word character). */
  predicate Boundary(s: string, i: int) {
    WordCharAt(s, i - 1) != WordCharAt(s, i)
  }

  /** `\bkw\b` at position `i`. */
  predicate WordAt(s: string, i: int, kw: string) {
    Boundary(s, i) && LitAt(s, i, kw) && Boundary(s, i + |kw|)
  }

  /** The shapes of the router's trigger expressions:
      `\bkw\b` anywhere, `^\s*kw\b`, `^\s*kw`, and bare `kw` anywhere. */
  datatype Pattern = Word(kw: string) | StartWord(kw: string) | Start(kw: string) | Anywhere(kw: string)

  /** `re.search(pattern, s)` succeeds. */
  predicate Matches(p: Pattern, s: string) {
    match p
    case Word(kw) => exists i :: 0 <= i <= |s| && WordAt(s, i, kw)
    case StartWord(kw) => LitAt(s, LeadingSpace(s), kw) && Boundary(s, LeadingSpace(s) + |kw|)
    case Start(kw) => LitAt(s, LeadingSpace(s), kw)
    case Anywhere(kw) => exists i :: 0 <= i <= |s| && LitAt(s, i, kw)
  }

  /** One of the alternatives matches (the router's `match` helper). */
  predicate AnyMatch(ps: seq<Pattern>, s: string) {
    exists k :: 0 <= k < |ps| && Matches(ps[k], s)
  }

  /** A keyword holding an upper-case letter (not the wildcard) never matches
      lower-cased text. */
  lemma {:induction false} UpperKeywordNeverMatchesLowered(kw: string, s: string, j: nat)
    requires j < |kw| && IsUpper(kw[j])
    ensures forall i :: !LitAt(Lower(s), i, kw)
  {
    forall i ensures !LitAt(Lower(s), i, kw) {
      if 0 <= i && i + |kw| <= |s| {
        assert Lower(s)[i + j] == LowerChar(s[i + j]);
      }
    }
  }

  /** The first position in `from..limit` where `hit` holds: the leftmost
      match of `re.search`, or the first rule that fires. */
  function FirstHit(limit: nat, hit: nat -> bool, from: nat): (r: Option<nat>)
    ensures r.Some? ==> from <= r.value <= limit && hit(r.value)
    ensures r.Some? ==> forall k :: from <= k < r.value ==> !hit(k)
    ensures r.None? ==> forall k :: from <= k <= limit ==> !hit(k)
    decreases if from <= limit then limit + 1 - from else 0
  {
    if from > limit then None
    else if hit(from) then Some(from)
    else FirstHit(limit, hit, from + 1)
  }

  /** `re.search` with a capture: the result at the leftmost position in
      `from..n` where `at` matches. */
  /** Two positions that both match with no match before them are the same. */
  lemma LeftmostUnique<T>(at: nat -> Option<T>, i: nat, j: nat)
    requires at(i).Some? && forall k: nat :: k < i ==> at(k).None?
    requires at(j).Some? && forall k: nat :: k < j ==> at(k).None?
    ensures i == j
  {
    assert !(i < j) && !(j < i);
  }

  function Leftmost<T>(n: nat, at: nat -> Option<T>, from: nat): (r: Option<T>)
    ensures r.Some? ==> exists i :: from <= i <= n && at(i) == r && forall j :: from <= j < i ==> at(j).None?
    ensures r.None? ==> forall i :: from <= i <= n ==> at(i).None?
    decreases if from <= n then n + 1 - from else 0
  {
    if from > n then None
    else if at(from).Some? then at(from)
    else Leftmost(n, at, from + 1)
  }

  /** `re.search` over the whole text `s`. */
  function Search<T>(s: string, at: nat -> Option<T>): (r: Option<T>)
    ensures r.Some? ==> exists i :: 0 <= i <= |s| && at(i) == r && forall j :: 0 <= j < i ==> at(j).None?
    ensures r.None? ==> forall i :: 0 <= i <= |s| ==> at(i).None?
  {
    Leftmost(|s|, at, 0)
  }

  /** Character classes used by the capture expressions. */
  datatype CharClass =
    | Spaces      // \s
    | Slug        // [A-Za-z0-9_-]
    | DottedSlug  // [A-Za-z0-9._-]
    | RefName     // [A-Za-z0-9_\-\/]

  predicate AsciiAlnum(c: char) {
    ('a' <= c <= 'z') || ('A' <= c <= 'Z') || ('0' <= c <= '9')
  }

  predicate InClass(c: char, cls: CharClass) {
    match cls
    case Spaces => IsSpace(c)
    case Slug => AsciiAlnum(c) || c == '_' || c == '-'
    case DottedSlug => AsciiAlnum(c) || c == '.' || c == '_' || c == '-'
    case RefName => AsciiAlnum(c) || c == '_' || c == '-' || c == '/'
  }

  /** Length of the longest run of class characters starting at `i`: what a
      greedy `[...]*` consumes. */
  function RunLength(s: string, i: nat, cls: CharClass): (n: nat)
    requires i <= |s|
    ensures i + n <= |s|
    ensures forall k :: i <= k < i + n ==> InClass(s[k], cls)
    ensures i + n == |s| || !InClass(s[i + n], cls)
    decreases |s| - i
  {
    if i < |s| && InClass(s[i], cls) then 1 + RunLength(s, i + 1, cls) else 0
  }

  /** Index of the first newline, or the length when there is none. */
  function LineEnd(t: string): (n: nat)
    ensures n <= |t|
    ensures forall k :: 0 <= k < n ==> t[k] != '\n'
    ensures n < |t| ==> t[n] == '\n'
  {
    if t == [] || t[0] == '\n' then 0 else 1 + LineEnd(t[1..])
  }

  /** `(.+)$` anchored at the start of `t`: one or more characters other than
      a newline, reaching the end of the text or a newline that ends it. */
  function LineTail(t: string): (r: Option<string>)
    ensures r.Some? ==> r.value != [] && r.value <= t && '\n' !in r.value
    ensures r.Some? ==> t == r.value || t == r.value + "\n"
    ensures '\n' !in t && t != [] ==> r == Some(t)
  {
    var n := LineEnd(t);
    if n >= 1 && (n == |t| || n == |t| - 1) then
      assert t == t[..n] || t == t[..n] + "\n";
      Some(t[..n])
    else None
  }

  /** `\s*(.+)$` anchored at the start of `u`, trying the whitespace prefix
      from its longest form down to the empty one, as the regex engine
      backtracks. */
  function SpacedTailFrom(u: string, k: nat): (r: Option<string>)
    requires k <= |u|
    ensures r.Some? ==> r.value != [] && '\n' !in r.value && |r.value| <= |u|
    decreases k
  {
    if LineTail(u[k..]).Some? then LineTail(u[k..])
    else if k == 0 then None
    else SpacedTailFrom(u, k - 1)
  }

  function SpacedTail(u: string): (r: Option<string>)
    ensures r.Some? ==> r.value != [] && '\n' !in r.value && |r.value| <= |u|
  {
    SpacedTailFrom(u, LeadingSpace(u))
  }

  /** How much of the whitespace prefix `SpacedTailFrom` keeps: the longest
      length, `k` at most, after which `(.+)$` matches (0 when none does). */
  function SpacedStart(u: string, k: nat): (j: nat)
    requires k <= |u|
    ensures j <= k
    decreases k
  {
    if LineTail(u[k..]).Some? || k == 0 then k else SpacedStart(u, k - 1)
  }

  lemma {:induction false} SpacedStartMatches(u: string, k: nat)
    requires k <= |u|
    ensures var j := SpacedStart(u, k);
      SpacedTailFrom(u, k).Some? ==> LineTail(u[j..]) == SpacedTailFrom(u, k) && forall i :: j < i <= k ==> LineTail(u[i..]).None?
    decreases k
  {
    if LineTail(u[k..]).None? && k > 0 {
      SpacedStartMatches(u, k - 1);
    }
  }

  /** The capture comes from the longest whitespace prefix after which
      `(.+)$` matches: the shorter prefixes are tried only when the longer
      ones fail. */
  lemma SpacedTailBacktracks(u: string, k: nat)
    requires k <= |u|
    ensures var r := SpacedTailFrom(u, k);
      r.Some? ==> exists j :: 0 <= j <= k && LineTail(u[j..]) == r && forall i :: j < i <= k ==> LineTail(u[i..]).None?
  {
    SpacedStartMatches(u, k);
    var j := SpacedStart(u, k);
    assert SpacedTailFrom(u, k).Some? ==> LineTail(u[j..]) == SpacedTailFrom(u, k);
  }

  /** There is no capture only when no whitespace prefix, the empty one
      included, lets `(.+)$` match. */
  lemma {:induction false} SpacedTailNoMatch(u: string, k: nat)
    requires k <= |u|
    ensures SpacedTailFrom(u, k).None? ==> forall j :: 0 <= j <= k ==> LineTail(u[j..]).None?
    decreases k
  {
    if SpacedTailFrom(u, k).None? && k > 0 {
      SpacedTailNoMatch(u, k - 1);
    }
  }

  /** On one line of text, `\s*(.+)$` captures everything after the leading
      whitespace, so its `.strip()` is the text's. */
  lemma SpacedTailOneLine(u: string)
    requires '\n' !in u && Strip(u) != []
    ensures SpacedTail(u).Some? && Strip(SpacedTail(u).value) == Strip(u)
  {
    var w := LeadingSpace(u);
    var t := u[w..];
    assert '\n' !in t by {
      forall k | 0 <= k < |t| ensures t[k] != '\n' { assert t[k] == u[w + k]; }
    }
    assert LineTail(t) == Some(t);
    assert LeadingSpace(t) == 0;
    assert t[0..] == t;
  }
}
