/** The per-execution `Runtime` of `routine_runner.py`: one dictionary
    `values` shared by three kinds of entry, and the expansion of
    `<class:name[:args]>` macro tokens in task fields.

    As in the source, one key space holds all entries: `values["cached"]`
    is the memo of generator macros, `values[task-name]` holds the fields a
    task saved, and `values[host-name]` holds the connection helper the
    HTTP check creates for a host. A task or host that happens to be named
    `cached`, or a task named like a host, therefore meets the other kind
    of entry, and the model keeps the consequences. */
module Macros {
  import opened Wrappers
  import opened PyText
  import opened SsUtils

  /** One entry of `Runtime.values`: a dictionary of saved (or memoised)
      values, or the connection helper of a host, which only keeps the
      host name it connects to. */
  datatype Entry = Saved(fields: map<string, Json>) | Connection(hostname: string)

  /** The whole state of a `Runtime`. `draws` counts the calls of the
      generator made so far; it stands in for the randomness of
      `get_rand_string`, so that two calls may give different values. */
  datatype RtState = RtState(values: map<string, Entry>, draws: nat)

  const CacheKey := "cached"

  /** The generator macros of `macro_defs`, keyed by name; only
      `rand_string` exists. A generator is given its name and the number of
      earlier draws. */
  const RandString := "rand_string"

  type Generator = (string, nat) -> string

  /** A fresh `Runtime()`: `values == {'cached': {}}`. */
  function InitialState(): RtState
  {
    RtState(map[CacheKey := Saved(map[])], 0)
  }

  /** The memo of generator values, `values['cached']`. */
  function Cache(st: RtState): map<string, Json>
  {
    if CacheKey in st.values && st.values[CacheKey].Saved? then st.values[CacheKey].fields else map[]
  }

  // ---------------------------------------------------------------------
  // Finding macro tokens: `re.findall(r'<\w+:[\w\:]+>', string)`

  predicate IsWordOrColon(c: char)
  {
    IsWordChar(c) || c == ':'
  }

  /** The two character classes of the pattern: `\w` and `[\w:]`. */
  datatype CharClass = Word | WordOrColon

  predicate InClass(kind: CharClass, c: char)
  {
    match kind
    case Word => IsWordChar(c)
    case WordOrColon => IsWordOrColon(c)
  }

  /** The length of the longest run of characters of a class from `i`. */
  function Run(s: string, i: nat, kind: CharClass): (n: nat)
    requires i <= |s|
    ensures i + n <= |s|
    decreases |s| - i
  {
    if i < |s| && InClass(kind, s[i]) then 1 + Run(s, i + 1, kind) else 0
  }

  /** The run is made of characters of the class, and the character after
      it, if any, is not of the class: the run is the longest. */
  lemma {:induction false} RunIsLongest(s: string, i: nat, kind: CharClass)
    requires i <= |s|
    ensures forall j :: i <= j < i + Run(s, i, kind) ==> InClass(kind, s[j])
    ensures i + Run(s, i, kind) < |s| ==> !InClass(kind, s[i + Run(s, i, kind)])
    decreases |s| - i
  {
    if i < |s| && InClass(kind, s[i]) {
      RunIsLongest(s, i + 1, kind);
    }
  }

  /** The end (exclusive) of a token starting at `i`, if one starts there.
      A token is `<`, a run of word characters, `:`, a run of word
      characters and colons, and `>`. Both runs are taken whole: the
      character after the first must be `:` and after the second `>`, and
      neither of those belongs to the run's class, so backtracking cannot
      find another match. */
  function MatchAt(s: string, i: nat): (r: Option<nat>)
    ensures r.Some? ==> i + 5 <= r.value <= |s|
  {
    if i < |s| && s[i] == '<' then MatchColon(s, i + 1, i + 1 + Run(s, i + 1, Word)) else None
  }

  /** The rest of a match once the class run from `start` ends at `j`: a
      non-empty run followed by `:`. */
  function MatchColon(s: string, start: nat, j: nat): (r: Option<nat>)
    ensures r.Some? ==> j + 3 <= r.value <= |s|
  {
    if j > start && j < |s| && s[j] == ':' then MatchClose(s, j + 1, j + 1 + Run(s, j + 1, WordOrColon)) else None
  }

  /** The end of a match once the second run from `start` ends at `k`: a
      non-empty run followed by `>`. */
  function MatchClose(s: string, start: nat, k: nat): (r: Option<nat>)
    ensures r.Some? ==> k + 1 == r.value <= |s| && start < k
  {
    if k > start && k < |s| && s[k] == '>' then Some(k + 1) else None
  }

  /** The non-overlapping tokens from `i` on, scanning left to right. */
  function FindFrom(s: string, i: nat): (ms: seq<string>)
    requires i <= |s|
    ensures forall m :: m in ms ==> |m| >= 5
    decreases |s| - i
  {
    if i == |s| then []
    else match MatchAt(s, i)
      case Some(e) => [s[i..e]] + FindFrom(s, e)
      case None => FindFrom(s, i + 1)
  }

  /** `matcher.findall(string)`. */
  function FindMacros(s: string): (ms: seq<string>)
    ensures forall m :: m in ms ==> |m| >= 5
  {
    FindFrom(s, 0)
  }

  /** Every string the scan from `i` finds is a whole token occurring in
      `s` at or after `i`. */
  lemma {:induction false} FindFromSound(s: string, i: nat)
    requires i <= |s|
    ensures forall m :: m in FindFrom(s, i) ==> IsTokenText(m) && exists k :: i <= k && OccursAt(s, m, k)
    decreases |s| - i
  {
    if i < |s| {
      match MatchAt(s, i)
      case Some(e) =>
        MatchAtIsToken(s, i);
        assert OccursAt(s, s[i..e], i);
        FindFromSound(s, e);
      case None =>
        FindFromSound(s, i + 1);
    }
  }

  /** Every string `findall` returns is a whole `<\w+:[\w:]+>` token that
      occurs in the string searched. */
  lemma FindMacrosSound(s: string)
    ensures forall m :: m in FindMacros(s) ==> IsTokenText(m) && Contains(s, m)
  {
    FindFromSound(s, 0);
  }

  /** `t` is one token `<cls:rest>`. */
  ghost predicate IsTokenText(t: string)
  {
    exists cls, rest :: IsToken(cls, rest) && t == "<" + cls + ":" + rest + ">"
  }

  /** Some token occurs in `s`. */
  ghost predicate HasToken(s: string)
  {
    exists i, e :: 0 <= i <= e <= |s| && IsTokenText(s[i..e])
  }

  /** A match found at `i` is a whole token. */
  lemma MatchAtIsToken(s: string, i: nat)
    requires MatchAt(s, i).Some?
    ensures IsTokenText(s[i..MatchAt(s, i).value])
  {
    MatchAtShape(s, i);
    var j := i + 1 + Run(s, i + 1, Word);
    var k := j + 1 + Run(s, j + 1, WordOrColon);
    RunIsLongest(s, i + 1, Word);
    RunIsLongest(s, j + 1, WordOrColon);
    TokenFromParts(s, i, j, k);
  }

  /** What a match at `i` consists of: `<`, the class run, `:`, the
      second run and `>`, each run non-empty. */
  lemma MatchAtShape(s: string, i: nat)
    requires MatchAt(s, i).Some?
    ensures var j := i + 1 + Run(s, i + 1, Word);
      var k := j + 1 + Run(s, j + 1, WordOrColon);
      && i + 1 < j && j + 1 < k < |s| && s[i] == '<' && s[j] == ':' && s[k] == '>'
      && MatchAt(s, i) == Some(k + 1)
  {
  }

  /** `<`, word characters, `:`, word characters and colons, `>`: a token. */
  lemma TokenFromParts(s: string, i: nat, j: nat, k: nat)
    requires i + 1 < j && j + 1 < k < |s| && s[i] == '<' && s[j] == ':' && s[k] == '>'
    requires forall q :: i + 1 <= q < j ==> InClass(Word, s[q])
    requires forall q :: j + 1 <= q < k ==> InClass(WordOrColon, s[q])
    ensures IsTokenText(s[i..k + 1])
  {
    var cls, rest := s[i + 1..j], s[j + 1..k];
    forall q | 0 <= q < |cls| ensures IsWordChar(cls[q]) {
      assert InClass(Word, s[i + 1 + q]);
    }
    forall q | 0 <= q < |rest| ensures IsWordOrColon(rest[q]) {
      assert InClass(WordOrColon, s[j + 1 + q]);
    }
    assert IsToken(cls, rest);
    assert s[i..k + 1] == "<" + cls + ":" + rest + ">";
  }

  /** Where the parts of `<cls:rest>` sit. */
  lemma TokenLayout(cls: string, rest: string)
    ensures var t := "<" + cls + ":" + rest + ">";
      && |t| == |cls| + |rest| + 3 && t[0] == '<' && t[|cls| + 1] == ':' && t[|t| - 1] == '>'
      && (forall q :: 0 <= q < |cls| ==> t[1 + q] == cls[q])
      && (forall q :: 0 <= q < |rest| ==> t[|cls| + 2 + q] == rest[q])
  {
  }

  /** A token occurring at `i .. e` is matched there, ending at `e`: the
      class run stops at its colon and the second run at its `>`. */
  lemma MatchAtOfToken(s: string, i: nat, e: nat)
    requires i <= e <= |s| && IsTokenText(s[i..e])
    ensures MatchAt(s, i) == Some(e)
  {
    var cls, rest :| IsToken(cls, rest) && s[i..e] == "<" + cls + ":" + rest + ">";
    TokenInPlace(s, i, e, cls, rest);
    var j := i + 1 + |cls|;
    var k := j + 1 + |rest|;
    RunExact(s, i + 1, |cls|, Word);
    RunExact(s, j + 1, |rest|, WordOrColon);
    MatchAtParts(s, i, j, k);
  }

  /** The characters of a token `<cls:rest>` sitting at `i .. e` of `s`. */
  lemma TokenInPlace(s: string, i: nat, e: nat, cls: string, rest: string)
    requires i <= e <= |s| && IsToken(cls, rest) && s[i..e] == "<" + cls + ":" + rest + ">"
    ensures e == i + |cls| + |rest| + 3
    ensures s[i] == '<' && s[i + 1 + |cls|] == ':' && s[e - 1] == '>'
    ensures forall q :: i + 1 <= q < i + 1 + |cls| ==> IsWordChar(s[q])
    ensures forall q :: i + 2 + |cls| <= q < e - 1 ==> IsWordOrColon(s[q])
  {
    TokenLayout(cls, rest);
    var j := i + 1 + |cls|;
    assert forall x :: 0 <= x < e - i ==> s[i + x] == s[i..e][x];
    forall q | i + 1 <= q < j ensures IsWordChar(s[q]) {
      assert s[q] == cls[q - i - 1];
    }
    forall q | j + 1 <= q < e - 1 ensures IsWordOrColon(s[q]) {
      assert s[q] == rest[q - j - 1];
    }
  }

  /** `<`, a non-empty class run ending at `j` on `:`, a non-empty second
      run ending at `k` on `>`: a match from `i` to `k + 1`. */
  lemma MatchAtParts(s: string, i: nat, j: nat, k: nat)
    requires i < j < k < |s| && s[i] == '<' && s[j] == ':' && s[k] == '>'
    requires j > i + 1 && Run(s, i + 1, Word) == j - i - 1
    requires k > j + 1 && Run(s, j + 1, WordOrColon) == k - j - 1
    ensures MatchAt(s, i) == Some(k + 1)
  {
    assert MatchClose(s, j + 1, k) == Some(k + 1);
  }

  /** No match starts at a position with no token, so a token-free string
      has nothing to find. */
  lemma {:induction false} NoTokenNotFound(s: string, i: nat)
    requires i <= |s| && !HasToken(s)
    ensures FindFrom(s, i) == []
    decreases |s| - i
  {
    if i < |s| {
      if MatchAt(s, i).Some? {
        MatchAtIsToken(s, i);
        assert false;
      }
      NoTokenNotFound(s, i + 1);
    }
  }

  /** A token occurring at or after `p` is found by the scan from `p` (or
      something earlier that overlaps it is). */
  lemma {:induction false} TokenFound(s: string, p: nat, i: nat, e: nat)
    requires p <= i <= e <= |s| && IsTokenText(s[i..e])
    ensures FindFrom(s, p) != []
    decreases i - p
  {
    MatchAtOfToken(s, i, e);
    if MatchAt(s, p).None? {
      assert p < i;
      TokenFound(s, p + 1, i, e);
    }
  }

  /** `findall` finds nothing exactly when no token occurs. */
  lemma FindMacrosEmptyIff(s: string)
    ensures FindMacros(s) == [] <==> !HasToken(s)
  {
    if HasToken(s) {
      var i, e :| 0 <= i <= e <= |s| && IsTokenText(s[i..e]);
      TokenFound(s, 0, i, e);
    } else {
      NoTokenNotFound(s, 0);
    }
  }

  lemma TokenStartsWithAngle(t: string)
    requires IsTokenText(t)
    ensures |t| > 0 && t[0] == '<'
  {
    var cls, rest :| IsToken(cls, rest) && t == "<" + cls + ":" + rest + ">";
    TokenLayout(cls, rest);
  }

  /** A token starts with `<`, so a string without `<` holds none. */
  lemma NoAngleNoToken(s: string)
    requires '<' !in s
    ensures !HasToken(s)
  {
    if HasToken(s) {
      var i, e :| 0 <= i <= e <= |s| && IsTokenText(s[i..e]);
      TokenStartsWithAngle(s[i..e]);
      assert false;
    }
  }

  /** `u` is what `s` holds from position `d` on. */
  predicate AgreesFrom(s: string, d: nat, u: string)
  {
    |s| == d + |u| && forall k :: 0 <= k < |u| ==> s[d + k] == u[k]
  }

  /** A run read in `s` at `d + i` is the run read in `u` at `i`. */
  lemma {:induction false} RunDrop(s: string, d: nat, u: string, i: nat, kind: CharClass)
    requires AgreesFrom(s, d, u) && i <= |u|
    ensures Run(s, d + i, kind) == Run(u, i, kind)
    decreases |u| - i
  {
    if i < |u| {
      assert s[d + i] == u[i];
      RunDrop(s, d, u, i + 1, kind);
    }
  }

  /** Matching looks only forward: a match in `s` at `d + i` is the match
      in `u` at `i`, shifted by `d`. */
  lemma MatchAtDrop(s: string, d: nat, u: string, i: nat)
    requires AgreesFrom(s, d, u) && i <= |u|
    ensures MatchAt(s, d + i) == if MatchAt(u, i).Some? then Some(d + MatchAt(u, i).value) else None
  {
    if i < |u| {
      assert s[d + i] == u[i];
      RunDrop(s, d, u, i + 1, Word);
      MatchColonDrop(s, d, u, i + 1, i + 1 + Run(u, i + 1, Word));
    }
  }

  lemma MatchColonDrop(s: string, d: nat, u: string, start: nat, j: nat)
    requires AgreesFrom(s, d, u)
    ensures MatchColon(s, d + start, d + j) == if MatchColon(u, start, j).Some? then Some(d + MatchColon(u, start, j).value) else None
  {
    if j < |u| {
      assert s[d + j] == u[j];
      if j > start && u[j] == ':' {
        RunDrop(s, d, u, j + 1, WordOrColon);
        MatchCloseDrop(s, d, u, j + 1, j + 1 + Run(u, j + 1, WordOrColon));
      }
    }
  }

  lemma MatchCloseDrop(s: string, d: nat, u: string, start: nat, k: nat)
    requires AgreesFrom(s, d, u)
    ensures MatchClose(s, d + start, d + k) == if MatchClose(u, start, k).Some? then Some(d + k + 1) else None
  {
    if k < |u| {
      assert s[d + k] == u[k];
    }
  }

  /** The scan of `s` from `d + i` finds what the scan of `u` from `i`
      finds. */
  lemma {:induction false} FindFromDrop(s: string, d: nat, u: string, i: nat)
    requires AgreesFrom(s, d, u) && i <= |u|
    ensures FindFrom(s, d + i) == FindFrom(u, i)
    decreases |u| - i
  {
    if i == |u| {
      FindFromEnd(s, d + i);
      FindFromEnd(u, i);
    } else if MatchAt(u, i).Some? {
      var e := MatchAt(u, i).value;
      FindFromDrop(s, d, u, e);
      FindFromDropMatch(s, d, u, i, e);
    } else {
      FindFromDrop(s, d, u, i + 1);
      FindFromDropSkip(s, d, u, i);
    }
  }

  /** The scan from the end finds nothing. */
  lemma FindFromEnd(s: string, i: nat)
    requires i == |s|
    ensures FindFrom(s, i) == []
  {
  }

  /** One step of FindFromDrop at a match: the same text is found in both,
      and the scans resume at corresponding positions. */
  lemma FindFromDropMatch(s: string, d: nat, u: string, i: nat, e: nat)
    requires AgreesFrom(s, d, u) && i < |u| && MatchAt(u, i) == Some(e)
    requires FindFrom(s, d + e) == FindFrom(u, e)
    ensures FindFrom(s, d + i) == FindFrom(u, i)
  {
    FindFromAtDropMatch(s, d, u, i, e);
    FindFromMatch(u, i, e);
  }

  /** A match at `i` in `u`: the scan of `s` from `d + i` finds its text
      and resumes at `d + e`. */
  lemma FindFromAtDropMatch(s: string, d: nat, u: string, i: nat, e: nat)
    requires AgreesFrom(s, d, u) && i < |u| && MatchAt(u, i) == Some(e)
    ensures e <= |u| && FindFrom(s, d + i) == [u[i..e]] + FindFrom(s, d + e)
  {
    MatchAtDropSome(s, d, u, i, e);
    FindFromMatch(s, d + i, d + e);
  }

  /** One step of FindFromDrop where no match starts: both scans move on. */
  lemma FindFromDropSkip(s: string, d: nat, u: string, i: nat)
    requires AgreesFrom(s, d, u) && i < |u| && MatchAt(u, i).None?
    requires FindFrom(s, d + i + 1) == FindFrom(u, i + 1)
    ensures FindFrom(s, d + i) == FindFrom(u, i)
  {
    FindFromAtDropSkip(s, d, u, i);
    FindFromNoMatch(u, i);
  }

  /** No match at `i` in `u`: the scan of `s` moves on from `d + i`. */
  lemma FindFromAtDropSkip(s: string, d: nat, u: string, i: nat)
    requires AgreesFrom(s, d, u) && i < |u| && MatchAt(u, i).None?
    ensures FindFrom(s, d + i) == FindFrom(s, d + i + 1)
  {
    MatchAtDrop(s, d, u, i);
    FindFromNoMatch(s, d + i);
  }

  /** A match at `i` in `u` is the same match, with the same text, at
      `d + i` in `s`. */
  lemma MatchAtDropSome(s: string, d: nat, u: string, i: nat, e: nat)
    requires AgreesFrom(s, d, u) && i < |u| && MatchAt(u, i) == Some(e)
    ensures d + i < |s| && e <= |u| && MatchAt(s, d + i) == Some(d + e) && s[d + i..d + e] == u[i..e]
  {
    MatchAtDrop(s, d, u, i);
    SliceAgrees(s, d, u, i, e);
  }

  lemma SliceAgrees(s: string, d: nat, u: string, i: nat, e: nat)
    requires AgreesFrom(s, d, u) && i <= e <= |u|
    ensures s[d + i..d + e] == u[i..e]
  {
    forall k | 0 <= k < e - i ensures s[d + i..d + e][k] == u[i..e][k] {
      assert s[d + i + k] == u[i + k];
    }
  }

  /** A match at `i` is the first string found from `i`. */
  lemma FindFromMatch(s: string, i: nat, e: nat)
    requires i < |s| && MatchAt(s, i) == Some(e)
    ensures e <= |s| && FindFrom(s, i) == [s[i..e]] + FindFrom(s, e)
  {
  }

  /** With no match at `i`, the scan moves on to `i + 1`. */
  lemma FindFromNoMatch(s: string, i: nat)
    requires i < |s| && MatchAt(s, i).None?
    ensures FindFrom(s, i) == FindFrom(s, i + 1)
  {
  }

  /** Positions without `<` start no match and are skipped. */
  lemma {:induction false} SkipPlain(s: string, i: nat, j: nat)
    requires i <= j <= |s| && forall q :: i <= q < j ==> s[q] != '<'
    ensures FindFrom(s, i) == FindFrom(s, j)
    decreases j - i
  {
    if i < j {
      SkipPlain(s, i + 1, j);
    }
  }

  /** Text without `<`, then a token, then anything: the token is found
      first, and scanning resumes right after it. Applied repeatedly, this
      gives the tokens of a string made of plain text and tokens, in order. */
  lemma FindTokenAfterPlainText(a: string, cls: string, rest: string, b: string)
    requires '<' !in a && IsToken(cls, rest)
    ensures var t := "<" + cls + ":" + rest + ">";
      FindMacros(a + t + b) == [t] + FindMacros(b)
  {
    var t := "<" + cls + ":" + rest + ">";
    assert IsTokenText(t);
    PlainTokenRest(a, t, b);
    TokenAfterPlainAt(a + t + b, |a|, |a| + |t|);
  }

  /** The three parts of `a + t + b`, by position. */
  lemma PlainTokenRest(a: string, t: string, b: string)
    requires '<' !in a
    ensures forall q :: 0 <= q < |a| ==> (a + t + b)[q] != '<'
    ensures (a + t + b)[|a|..|a| + |t|] == t
    ensures (a + t + b)[|a| + |t|..] == b
  {
    var s := a + t + b;
    forall q | 0 <= q < |a| ensures s[q] != '<' {
      assert s[q] == a[q];
    }
  }

  /** In one string: no `<` before `x` and a token at `x .. y`, so the
      token is found first and the scan resumes at `y`. */
  lemma TokenAfterPlainAt(s: string, x: nat, y: nat)
    requires x <= y <= |s| && IsTokenText(s[x..y])
    requires forall q :: 0 <= q < x ==> s[q] != '<'
    ensures FindMacros(s) == [s[x..y]] + FindMacros(s[y..])
  {
    SkipPlain(s, 0, x);
    MatchAtOfToken(s, x, y);
    FindFromMatch(s, x, y);
    AgreesWithSuffix(s, y);
    FindFromDrop(s, y, s[y..], 0);
  }

  /** A string agrees with each of its suffixes from where the suffix starts. */
  lemma AgreesWithSuffix(s: string, y: nat)
    requires y <= |s|
    ensures AgreesFrom(s, y, s[y..])
  {
  }

  lemma {:induction false} RunExact(s: string, i: nat, n: nat, kind: CharClass)
    requires i + n <= |s|
    requires forall j :: i <= j < i + n ==> InClass(kind, s[j])
    requires i + n < |s| ==> !InClass(kind, s[i + n])
    ensures Run(s, i, kind) == n
    decreases n
  {
    if n > 0 {
      RunExact(s, i + 1, n - 1, kind);
    }
  }

  /** `<cls:rest>` with `cls` made of word characters and `rest` of word
      characters and colons is a token. */
  ghost predicate IsToken(cls: string, rest: string)
  {
    && |cls| > 0 && (forall i :: 0 <= i < |cls| ==> IsWordChar(cls[i]))
    && |rest| > 0 && (forall i :: 0 <= i < |rest| ==> IsWordOrColon(rest[i]))
  }

  /** In `<cls:rest>` the class run covers `cls` and stops at the colon. */
  lemma TokenClassRun(cls: string, rest: string)
    requires IsToken(cls, rest)
    ensures var t := "<" + cls + ":" + rest + ">";
      |t| == |cls| + |rest| + 3 && t[0] == '<' && t[1 + |cls|] == ':' && Run(t, 1, Word) == |cls|
  {
    var t := "<" + cls + ":" + rest + ">";
    var j := 1 + |cls|;
    assert t[j] == ':';
    forall q | 1 <= q < j ensures IsWordChar(t[q]) {
      assert t[q] == cls[q - 1];
    }
    RunExact(t, 1, |cls|, Word);
  }

  /** In `<cls:rest>` the run after the colon covers `rest` and stops at
      the closing `>`. */
  lemma TokenRestRun(cls: string, rest: string)
    requires IsToken(cls, rest)
    ensures var t := "<" + cls + ":" + rest + ">";
      t[|t| - 1] == '>' && Run(t, |cls| + 2, WordOrColon) == |rest|
  {
    var t := "<" + cls + ":" + rest + ">";
    var j := 1 + |cls|;
    var k := j + 1 + |rest|;
    assert t[k] == '>';
    forall q | j + 1 <= q < k ensures IsWordOrColon(t[q]) {
      assert t[q] == rest[q - j - 1];
    }
    RunExact(t, j + 1, |rest|, WordOrColon);
  }

  /** A string that is exactly one token is found as that one token. */
  lemma TokenFoundAlone(cls: string, rest: string)
    requires IsToken(cls, rest)
    ensures FindMacros("<" + cls + ":" + rest + ">") == ["<" + cls + ":" + rest + ">"]
  {
    var t := "<" + cls + ":" + rest + ">";
    TokenClassRun(cls, rest);
    TokenRestRun(cls, rest);
    assert MatchAt(t, 0) == Some(|t|);
    assert FindFrom(t, |t|) == [];
    assert t[0..|t|] == t;
  }

  // ---------------------------------------------------------------------
  // Resolving one token

  /** The pieces of a token between `<` and `>`, split on `:`. */
  function Chunks(m: string): (chunks: seq<string>)
    ensures |chunks| >= 1
  {
    if |m| >= 2 then Split(m[1..|m| - 1], ':') else Split("", ':')
  }

  /** The value one token expands to, and the state afterwards, given the
      value the previous token expanded to (`prev`; Python's `expanded`
      variable survives from one loop iteration to the next):

      - `task:T:k` reads `values[T][k]`: a missing `T` or `k` is a
        `KeyError`, a connection entry is a `TypeError`, and so is a saved
        value that is not a string (it cannot be concatenated);
      - `general:g` reads `values['cached'][g]`; when it is missing, the
        generator of `macro_defs[g]` is called (an unknown `g` is a
        `KeyError`) and its value memoised;
      - any other class leaves `expanded` as it was: the previous token's
        value, or an `UnboundLocalError` for the first token. */
  function ResolveToken(m: string, prev: Option<string>, st: RtState, gen: Generator): (Result<string, string>, RtState)
  {
    var chunks := Chunks(m);
    if |chunks| < 2 then (Err("IndexError: list index out of range"), st)
    else if chunks[0] == "task" then (TaskValue(st, chunks[1], chunks[2..]), st)
    else if chunks[0] == "general" then GeneralValue(st, chunks[1], gen)
    else match prev
      case Some(v) => (Ok(v), st)
      case None => (Err("UnboundLocalError: local variable 'expanded' referenced before assignment"), st)
  }

  /** The value of `task:T:k...`: `values[T][k]`, which resolves exactly
      when `T` holds saved fields with a string under `k`. */
  function TaskValue(st: RtState, name: string, args: seq<string>): (r: Result<string, string>)
    ensures r.Ok? <==> (|args| > 0 && name in st.values && st.values[name].Saved?
      && args[0] in st.values[name].fields && st.values[name].fields[args[0]].JStr?)
    ensures r.Ok? ==> st.values[name].fields[args[0]] == JStr(r.value)
  {
    if |args| == 0 then Err("IndexError: list index out of range")
    else if name !in st.values then Err("KeyError: " + name)
    else match st.values[name]
      case Connection(_) => Err("TypeError: object is not subscriptable")
      case Saved(fields) =>
        if args[0] !in fields then Err("KeyError: " + args[0])
        else match fields[args[0]]
          case JStr(v) => Ok(v)
          case _ => Err("TypeError: cannot concatenate a non-string value")
  }

  /** The value of `general:g` and the state afterwards: the memoised value,
      or else a fresh draw from the generator, which is memoised. */
  function GeneralValue(st: RtState, name: string, gen: Generator): (Result<string, string>, RtState)
  {
    var cache := Cache(st);
    if name in cache then
      match cache[name]
      case JStr(v) => (Ok(v), st)
      case _ => (Err("TypeError: cannot concatenate a non-string value"), st)
    else if name != RandString then (Err("KeyError: " + name), st)
    else
      var v := gen(name, st.draws);
      (Ok(v), RtState(st.values[CacheKey := Saved(cache[name := JStr(v)])], st.draws + 1))
  }

  /** The expansion loop from some point on: `res` is the string so far,
      `ms` the tokens still to replace. Each token's value replaces every
      occurrence of the token in `res`; the first token that cannot be
      resolved raises, and the state keeps what was memoised before it. */
  function ExpandFrom(res: string, ms: seq<string>, prev: Option<string>, st: RtState, gen: Generator): (Result<string, string>, RtState)
    requires forall m :: m in ms ==> |m| > 0
    decreases |ms|
  {
    if |ms| == 0 then (Ok(res), st)
    else
      var (r, st1) := ResolveToken(ms[0], prev, st, gen);
      match r
      case Err(e) => (Err(e), st1)
      case Ok(v) => ExpandFrom(Replace(res, ms[0], v), ms[1..], Some(v), st1, gen)
  }

  /** `Runtime.expand_macros(string)`: the expanded string (or the error
      it raises) and the state afterwards. */
  function Expand(s: string, st: RtState, gen: Generator): (Result<string, string>, RtState)
  {
    ExpandFrom(s, FindMacros(s), None, st, gen)
  }

  /** `Runtime.save_value(task, key, value)`, as evidently intended (the
      source declares it without `self`, routine_runner.py:346, so the call
      at routine_runner.py:210 would raise a `TypeError`; see the README).
      An existing dictionary under the task's name gains or overwrites the
      key; a connection entry under that name cannot take an item and
      raises; otherwise a new dictionary is created. */
  function Save(st: RtState, task: string, key: string, value: Json): Result<RtState, string>
  {
    if task in st.values then
      match st.values[task]
      case Saved(fields) => Ok(RtState(st.values[task := Saved(fields[key := value])], st.draws))
      case Connection(_) => Err("TypeError: object does not support item assignment")
    else Ok(RtState(st.values[task := Saved(map[key := value])], st.draws))
  }

  /** The connection step of one `http.run` request: a host without an
      entry gets a connection helper (reading the host's `hostname`, a
      `KeyError` when absent); the entry under the host's name is then used
      to send the request, which only a connection can do. */
  function ConnectHost(st: RtState, host: string, hostCfg: map<string, string>): Result<RtState, string>
  {
    if host in st.values then
      if st.values[host].Connection? then Ok(st)
      else Err("AttributeError: 'dict' object has no attribute 'request'")
    else if "hostname" !in hostCfg then Err("KeyError: 'hostname'")
    else Ok(RtState(st.values[host := Connection(hostCfg["hostname"])], st.draws))
  }

  // ---------------------------------------------------------------------
  // Properties of expansion and saving

  /** A string in which no token occurs is returned unchanged, with the
      state untouched, whatever other `<` it holds. */
  lemma ExpandWithoutToken(s: string, st: RtState, gen: Generator)
    requires !HasToken(s)
    ensures Expand(s, st, gen) == (Ok(s), st)
  {
    NoTokenNotFound(s, 0);
  }

  /** In particular a string with no `<` at all is returned unchanged. */
  lemma ExpandWithoutAngle(s: string, st: RtState, gen: Generator)
    requires '<' !in s
    ensures Expand(s, st, gen) == (Ok(s), st)
  {
    NoAngleNoToken(s);
    ExpandWithoutToken(s, st, gen);
  }

  /** Resolving one token changes no entry but the generator memo, adds
      to the memo without changing what it held, and never lowers the draw
      count. */
  lemma ResolveTokenKeepsEntries(m: string, prev: Option<string>, st: RtState, gen: Generator)
    ensures var st' := ResolveToken(m, prev, st, gen).1;
      && st.values.Keys <= st'.values.Keys <= st.values.Keys + {CacheKey}
      && (forall k :: k in st.values && k != CacheKey ==> st'.values[k] == st.values[k])
      && (forall g :: g in Cache(st) ==> g in Cache(st') && Cache(st')[g] == Cache(st)[g])
      && st.draws <= st'.draws
  {
    var chunks := Chunks(m);
    if |chunks| >= 2 && chunks[0] != "task" && chunks[0] == "general" {
      assert ResolveToken(m, prev, st, gen).1 == GeneralValue(st, chunks[1], gen).1;
      GeneralValueKeepsEntries(st, chunks[1], gen);
    } else {
      assert ResolveToken(m, prev, st, gen).1 == st;
    }
  }

  lemma GeneralValueKeepsEntries(st: RtState, name: string, gen: Generator)
    ensures var st' := GeneralValue(st, name, gen).1;
      && st.values.Keys <= st'.values.Keys <= st.values.Keys + {CacheKey}
      && (forall k :: k in st.values && k != CacheKey ==> st'.values[k] == st.values[k])
      && (forall g :: g in Cache(st) ==> g in Cache(st') && Cache(st')[g] == Cache(st)[g])
      && st.draws <= st'.draws
  {
    var cache := Cache(st);
    if name !in cache && name == RandString {
      var st' := GeneralValue(st, name, gen).1;
      assert Cache(st') == cache[name := JStr(gen(name, st.draws))];
    }
  }

  /** Entries other than the generator memo are never changed by an
      expansion, and a value already memoised keeps its value. */
  lemma {:induction false} ExpandFromKeepsEntries(res: string, ms: seq<string>, prev: Option<string>, st: RtState, gen: Generator)
    requires forall m :: m in ms ==> |m| > 0
    ensures var st' := ExpandFrom(res, ms, prev, st, gen).1;
      && st.values.Keys <= st'.values.Keys <= st.values.Keys + {CacheKey}
      && (forall k :: k in st.values && k != CacheKey ==> st'.values[k] == st.values[k])
      && (forall g :: g in Cache(st) ==> g in Cache(st') && Cache(st')[g] == Cache(st)[g])
      && st.draws <= st'.draws
    decreases |ms|
  {
    if |ms| > 0 {
      var (r, st1) := ResolveToken(ms[0], prev, st, gen);
      ResolveTokenKeepsEntries(ms[0], prev, st, gen);
      if r.Ok? {
        ExpandFromKeepsEntries(Replace(res, ms[0], r.value), ms[1..], Some(r.value), st1, gen);
      }
    }
  }

  /** Expansion keeps every entry but the memo and every memoised value. */
  lemma ExpandKeepsEntries(s: string, st: RtState, gen: Generator)
    ensures var st' := Expand(s, st, gen).1;
      && st.values.Keys <= st'.values.Keys <= st.values.Keys + {CacheKey}
      && (forall k :: k in st.values && k != CacheKey ==> st'.values[k] == st.values[k])
      && (forall g :: g in Cache(st) ==> g in Cache(st') && Cache(st')[g] == Cache(st)[g])
  {
    ExpandFromKeepsEntries(s, FindMacros(s), None, st, gen);
  }

  /** A string that is one token expands to that token's value. */
  lemma ExpandSingleToken(t: string, st: RtState, gen: Generator)
    requires FindMacros(t) == [t]
    ensures Expand(t, st, gen) == ResolveToken(t, None, st, gen)
  {
    var rs := ResolveToken(t, None, st, gen);
    assert |t| > 0 by { assert t in FindMacros(t); }
    ExpandFromOne(t, t, None, st, gen);
    if rs.0.Ok? {
      ReplaceWhole(t, rs.0.value);
    }
  }

  /** Expanding with a single token left resolves it and replaces it. */
  lemma ExpandFromOne(res: string, m: string, prev: Option<string>, st: RtState, gen: Generator)
    requires |m| > 0
    ensures var rs := ResolveToken(m, prev, st, gen);
      ExpandFrom(res, [m], prev, st, gen) == if rs.0.Ok? then (Ok(Replace(res, m, rs.0.value)), rs.1) else rs
  {
    assert [m][1..] == [];
    assert [m][0] == m;
  }

  /** The token `<general:g>`. */
  function GeneralToken(g: string): string
  {
    "<general:" + g + ">"
  }

  /** The token `<task:T:k>`. */
  function TaskToken(task: string, key: string): string
  {
    "<task:" + task + ":" + key + ">"
  }

  ghost predicate IsWord(w: string)
  {
    |w| > 0 && forall i :: 0 <= i < |w| ==> IsWordChar(w[i])
  }

  lemma WordHasNoColon(w: string)
    requires IsWord(w)
    ensures ':' !in w
  {
    forall i | 0 <= i < |w| ensures w[i] != ':' {
      assert IsWordChar(w[i]);
    }
  }

  lemma GeneralTokenParts(g: string)
    requires IsWord(g)
    ensures FindMacros(GeneralToken(g)) == [GeneralToken(g)]
    ensures Chunks(GeneralToken(g)) == ["general", g]
  {
    GeneralTokenFound(g);
    GeneralTokenChunks(g);
  }

  lemma GeneralTokenFound(g: string)
    requires IsWord(g)
    ensures FindMacros(GeneralToken(g)) == [GeneralToken(g)]
  {
    assert IsToken("general", g) by {
      assert forall i :: 0 <= i < |"general"| ==> IsWordChar("general"[i]);
    }
    assert GeneralToken(g) == "<" + "general" + ":" + g + ">";
    TokenFoundAlone("general", g);
  }

  lemma GeneralTokenChunks(g: string)
    requires IsWord(g)
    ensures Chunks(GeneralToken(g)) == ["general", g]
  {
    var t := GeneralToken(g);
    assert t[1..|t| - 1] == "general" + [':'] + g;
    WordHasNoColon(g);
    SplitAtSeparator("general", ':', g);
    SplitWithoutSeparator(g, ':');
  }

  lemma TaskTokenIsToken(task: string, key: string)
    requires IsWord(task) && IsWord(key)
    ensures IsToken("task", task + ":" + key)
  {
    var rest := task + ":" + key;
    forall i | 0 <= i < |rest| ensures IsWordOrColon(rest[i]) {
      if i < |task| {
        assert rest[i] == task[i];
      } else if i > |task| {
        assert rest[i] == key[i - |task| - 1];
      }
    }
    assert forall i :: 0 <= i < |"task"| ==> IsWordChar("task"[i]);
  }

  lemma TaskTokenChunks(task: string, key: string)
    requires IsWord(task) && IsWord(key)
    ensures Chunks(TaskToken(task, key)) == ["task", task, key]
  {
    var t := TaskToken(task, key);
    assert t[1..|t| - 1] == "task" + [':'] + (task + [':'] + key);
    WordHasNoColon(task);
    WordHasNoColon(key);
    SplitAtSeparator("task", ':', task + [':'] + key);
    SplitAtSeparator(task, ':', key);
    SplitWithoutSeparator(key, ':');
  }

  lemma TaskTokenParts(task: string, key: string)
    requires IsWord(task) && IsWord(key)
    ensures FindMacros(TaskToken(task, key)) == [TaskToken(task, key)]
    ensures Chunks(TaskToken(task, key)) == ["task", task, key]
  {
    TaskTokenIsToken(task, key);
    assert TaskToken(task, key) == "<" + "task" + ":" + (task + ":" + key) + ">";
    TokenFoundAlone("task", task + ":" + key);
    TaskTokenChunks(task, key);
  }

  /** The first expansion of `<general:rand_string>` in a runtime calls the
      generator once and memoises its value. */
  lemma GeneralFirstUse(st: RtState, gen: Generator)
    requires RandString !in Cache(st)
    ensures var (r, st') := Expand(GeneralToken(RandString), st, gen);
      && r == Ok(gen(RandString, st.draws))
      && Cache(st') == Cache(st)[RandString := JStr(gen(RandString, st.draws))]
      && st'.draws == st.draws + 1
  {
    assert IsWord(RandString) by {
      assert forall i :: 0 <= i < |RandString| ==> IsWordChar(RandString[i]);
    }
    GeneralTokenParts(RandString);
    ExpandSingleToken(GeneralToken(RandString), st, gen);
  }

  /** After a `general:g` token resolves, its value is in the memo. */
  lemma GeneralResolvedMemo(g: string, st: RtState, gen: Generator)
    requires Chunks(GeneralToken(g)) == ["general", g]
    requires ResolveToken(GeneralToken(g), None, st, gen).0.Ok?
    ensures var (r, st') := ResolveToken(GeneralToken(g), None, st, gen);
      g in Cache(st') && Cache(st')[g] == JStr(r.value)
  {
  }

  /** A `general:g` token whose value is memoised reads the memo. */
  lemma GeneralReadsMemo(g: string, st: RtState, gen: Generator)
    requires Chunks(GeneralToken(g)) == ["general", g]
    requires g in Cache(st) && Cache(st)[g].JStr?
    ensures ResolveToken(GeneralToken(g), None, st, gen) == (Ok(Cache(st)[g].s), st)
  {
  }

  /** `<general:g>` with a string memoised for `g` expands to that string
      and changes nothing, whatever the generator. */
  lemma GeneralExpandsToMemo(g: string, st: RtState, gen: Generator)
    requires IsWord(g) && g in Cache(st) && Cache(st)[g].JStr?
    ensures Expand(GeneralToken(g), st, gen) == (Ok(Cache(st)[g].s), st)
  {
    GeneralTokenParts(g);
    ExpandSingleToken(GeneralToken(g), st, gen);
    GeneralReadsMemo(g, st, gen);
  }

  /** Within one runtime a `general:` macro expanded twice gives the same
      value, whatever the generator would give on a second call: the
      second expansion reads the memo and changes nothing. */
  lemma GeneralMemoised(g: string, st: RtState, gen: Generator, gen2: Generator)
    requires IsWord(g)
    requires Expand(GeneralToken(g), st, gen).0.Ok?
    ensures var (r, st') := Expand(GeneralToken(g), st, gen);
      Expand(GeneralToken(g), st', gen2) == (r, st')
  {
    var t := GeneralToken(g);
    GeneralTokenParts(g);
    ExpandSingleToken(t, st, gen);
    var (r, st1) := ResolveToken(t, None, st, gen);
    GeneralResolvedMemo(g, st, gen);
    ExpandSingleToken(t, st1, gen2);
    GeneralReadsMemo(g, st1, gen2);
  }

  /** The memo still holds, for `g`, the value it held in `st`. */
  predicate MemoKept(st: RtState, st': RtState, g: string)
  {
    g in Cache(st) ==> g in Cache(st') && Cache(st')[g] == Cache(st)[g]
  }

  /** Saving keeps every memoised value, except for a save into the memo
      itself (a task named `cached`) under that very key. */
  lemma SaveKeepsMemo(st: RtState, task: string, key: string, value: Json, g: string)
    requires Save(st, task, key, value).Ok?
    requires !(task == CacheKey && key == g)
    ensures MemoKept(st, Save(st, task, key, value).value, g)
  {
  }

  /** Connecting keeps every memoised value: a new connection entry goes
      under a name that had no entry, and the memo has one. */
  lemma ConnectKeepsMemo(st: RtState, host: string, hostCfg: map<string, string>, g: string)
    requires ConnectHost(st, host, hostCfg).Ok?
    ensures MemoKept(st, ConnectHost(st, host, hostCfg).value, g)
  {
  }

  /** An expansion that succeeds on a list of tokens holding `<general:g>`
      leaves a string memoised for `g`. */
  lemma {:induction false} ExpandFromMemoises(res: string, ms: seq<string>, prev: Option<string>, st: RtState, gen: Generator, g: string)
    requires forall m :: m in ms ==> |m| > 0
    requires IsWord(g) && GeneralToken(g) in ms
    requires ExpandFrom(res, ms, prev, st, gen).0.Ok?
    ensures var st' := ExpandFrom(res, ms, prev, st, gen).1;
      g in Cache(st') && Cache(st')[g].JStr?
    decreases |ms|
  {
    var (r, st1) := ResolveToken(ms[0], prev, st, gen);
    if ms[0] == GeneralToken(g) {
      GeneralTokenParts(g);
      assert Chunks(GeneralToken(g)) == ["general", g];
      assert ResolveToken(ms[0], prev, st, gen) == ResolveToken(GeneralToken(g), None, st, gen);
      GeneralResolvedMemo(g, st, gen);
      ExpandFromKeepsEntries(Replace(res, ms[0], r.value), ms[1..], Some(r.value), st1, gen);
    } else {
      assert GeneralToken(g) in ms[1..];
      ExpandFromMemoises(Replace(res, ms[0], r.value), ms[1..], Some(r.value), st1, gen, g);
    }
  }

  /** Expanding a string in which `<general:g>` occurs, when it succeeds,
      leaves a string memoised for `g`: the value every later reference
      reads. */
  lemma ExpandMemoises(s: string, st: RtState, gen: Generator, g: string)
    requires IsWord(g) && GeneralToken(g) in FindMacros(s)
    requires Expand(s, st, gen).0.Ok?
    ensures g in Cache(Expand(s, st, gen).1) && Cache(Expand(s, st, gen).1)[g].JStr?
  {
    ExpandFromMemoises(s, FindMacros(s), None, st, gen, g);
  }

  /** A `task:T:k` macro whose task has saved nothing under `k` (or has no
      entry at all) raises, and the state is left as it was. */
  lemma TaskMacroUnresolved(task: string, key: string, st: RtState, gen: Generator)
    requires IsWord(task) && IsWord(key)
    requires task !in st.values || (st.values[task].Saved? && key !in st.values[task].fields)
    ensures Expand(TaskToken(task, key), st, gen).0.Err?
    ensures Expand(TaskToken(task, key), st, gen).1 == st
  {
    TaskTokenParts(task, key);
    ExpandSingleToken(TaskToken(task, key), st, gen);
  }

  /** A string value saved under `(T, k)` is what `<task:T:k>` then
      expands to. */
  lemma SaveThenExpand(task: string, key: string, v: string, st: RtState, gen: Generator)
    requires IsWord(task) && IsWord(key)
    requires Save(st, task, key, JStr(v)).Ok?
    ensures var st' := Save(st, task, key, JStr(v)).value;
      Expand(TaskToken(task, key), st', gen) == (Ok(v), st')
  {
    var st' := Save(st, task, key, JStr(v)).value;
    TaskTokenParts(task, key);
    ExpandSingleToken(TaskToken(task, key), st', gen);
    assert ResolveToken(TaskToken(task, key), None, st', gen) == (TaskValue(st', task, [key]), st') by {
      assert Chunks(TaskToken(task, key))[2..] == [key];
    }
    assert st'.values[task] == Saved(st'.values[task].fields);
    assert st'.values[task].fields[key] == JStr(v);
  }

  /** A second save under the same `(task, key)` overwrites the first, and
      saving touches no other key of the task and no other entry. */
  lemma SaveOverwrites(st: RtState, task: string, key: string, v1: Json, v2: Json)
    requires Save(st, task, key, v1).Ok?
    ensures var st1 := Save(st, task, key, v1).value;
      && Save(st1, task, key, v2) == Save(st, task, key, v2)
      && st1.values[task].Saved? && st1.values[task].fields[key] == v1
      && (forall k :: k in st.values && k != task ==> k in st1.values && st1.values[k] == st.values[k])
      && (task in st.values ==> forall k :: k in st.values[task].fields && k != key ==>
            k in st1.values[task].fields && st1.values[task].fields[k] == st.values[task].fields[k])
  {
    var st1 := Save(st, task, key, v1).value;
    if task in st.values {
      assert st1.values[task].fields[key := v2] == st.values[task].fields[key := v2];
      assert st1.values[task := Saved(st.values[task].fields[key := v2])]
          == st.values[task := Saved(st.values[task].fields[key := v2])];
    } else {
      assert map[key := v1][key := v2] == map[key := v2];
      assert st1.values[task := Saved(map[key := v2])] == st.values[task := Saved(map[key := v2])];
    }
  }

  /** A save fails exactly when the name belongs to a connection entry. */
  lemma SaveFailsOnConnection(st: RtState, task: string, key: string, v: Json)
    ensures Save(st, task, key, v).Err? <==> task in st.values && st.values[task].Connection?
  {
  }

  // ---------------------------------------------------------------------
  // The Runtime object

  class Runtime {
    var values: map<string, Entry>
    var draws: nat

    function State(): RtState
      reads this
    {
      RtState(values, draws)
    }

    /** `values['cached']` is always a dictionary. */
    ghost predicate Valid()
      reads this
    {
      CacheKey in values && values[CacheKey].Saved?
    }

    constructor ()
      ensures Valid() && State() == InitialState()
    {
      values := map[CacheKey := Saved(map[])];
      draws := 0;
    }

    /** `save_value`, as evidently intended. */
    method SaveValue(task: string, key: string, value: Json) returns (r: Result<(), string>)
      requires Valid()
      modifies this
      ensures Valid()
      ensures r.Ok? <==> Save(old(State()), task, key, value).Ok?
      ensures r.Ok? ==> State() == Save(old(State()), task, key, value).value
      ensures r.Err? ==> State() == old(State()) && r.error == Save(old(State()), task, key, value).error
    {
      if task in values {
        match values[task]
        case Saved(fields) =>
          values := values[task := Saved(fields[key := value])];
          r := Ok(());
        case Connection(_) =>
          r := Err("TypeError: object does not support item assignment");
      } else {
        values := values[task := Saved(map[key := value])];
        r := Ok(());
      }
    }

    /** The connection step of one HTTP request. */
    method Connect(host: string, hostCfg: map<string, string>) returns (r: Result<(), string>)
      requires Valid()
      modifies this
      ensures Valid()
      ensures r.Ok? <==> ConnectHost(old(State()), host, hostCfg).Ok?
      ensures r.Ok? ==> State() == ConnectHost(old(State()), host, hostCfg).value
      ensures r.Err? ==> State() == old(State()) && r.error == ConnectHost(old(State()), host, hostCfg).error
    {
      if host in values {
        if values[host].Connection? {
          r := Ok(());
        } else {
          r := Err("AttributeError: 'dict' object has no attribute 'request'");
        }
      } else if "hostname" !in hostCfg {
        r := Err("KeyError: 'hostname'");
      } else {
        values := values[host := Connection(hostCfg["hostname"])];
        r := Ok(());
      }
    }

    /** Resolve one token found by `expand_macros`, memoising a generated
        value in `values['cached']`. */
    method ResolveMacro(m: string, prev: Option<string>, gen: Generator) returns (r: Result<string, string>)
      requires Valid()
      modifies this
      ensures Valid()
      ensures (r, State()) == ResolveToken(m, prev, old(State()), gen)
    {
      var chunks := Chunks(m);
      if |chunks| < 2 {
        return Err("IndexError: list index out of range");
      }
      var cls, name, args := chunks[0], chunks[1], chunks[2..];
      if cls == "task" {
        r := TaskValue(State(), name, args);
      } else if cls == "general" {
        r := GeneralMacro(name, gen);
      } else if prev.Some? {
        r := Ok(prev.value);
      } else {
        r := Err("UnboundLocalError: local variable 'expanded' referenced before assignment");
      }
    }

    /** The `general` branch of the expansion loop: the memo is read, and
        on a miss the generator is called and its value memoised. */
    method GeneralMacro(name: string, gen: Generator) returns (r: Result<string, string>)
      requires Valid()
      modifies this
      ensures Valid()
      ensures (r, State()) == GeneralValue(old(State()), name, gen)
    {
      var cache := values[CacheKey].fields;
      assert cache == Cache(State());
      if name in cache {
        match cache[name]
        case JStr(v) =>
          r := Ok(v);
        case _ =>
          r := Err("TypeError: cannot concatenate a non-string value");
      } else if name != RandString {
        r := Err("KeyError: " + name);
      } else {
        var v := gen(name, draws);
        values := values[CacheKey := Saved(cache[name := JStr(v)])];
        draws := draws + 1;
        r := Ok(v);
      }
    }

    /** `expand_macros(string)`: every token found is resolved in turn and
        replaced in `res`; the first token that cannot be resolved raises. */
    method ExpandMacros(s: string, gen: Generator) returns (r: Result<string, string>)
      requires Valid()
      modifies this
      ensures Valid()
      ensures (r, State()) == Expand(s, old(State()), gen)
    {
      var res := s;
      var macros := FindMacros(s);
      var expanded: Option<string> := None;
      var i := 0;
      while i < |macros|
        invariant 0 <= i <= |macros|
        invariant Valid()
        invariant ExpandFrom(res, macros[i..], expanded, State(), gen) == Expand(s, old(State()), gen)
      {
        var m := macros[i];
        assert m in macros;
        var v := ResolveMacro(m, expanded, gen);
        if v.Err? {
          return v;
        }
        assert macros[i..][1..] == macros[i + 1..];
        res := Replace(res, m, v.value);
        expanded := Some(v.value);
        i := i + 1;
      }
      r := Ok(res);
    }
  }
}
