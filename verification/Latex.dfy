/**
 LaTeX escaping and the brace matching that takes escaped titles back out of section commands.
 */
module Latex {
  import opened Wrappers
  import opened Text

  const BACKSLASH: string := "\\textbackslash{}"
  const TILDE: string := "\\textasciitilde{}"
  const CARET: string := "\\textasciicircum{}"

  const SPECIALS: string := "&%$#_{}"

  function EscapeChar(c: char): string {
    if c == '\\' then BACKSLASH
    else if c in SPECIALS then ['\\', c]
    else if c == '~' then TILDE
    else if c == '^' then CARET
    else [c]
  }

  function Escape(s: string): string {
    if s == "" then "" else EscapeChar(s[0]) + Escape(s[1..])
  }

  lemma {:induction false} EscapeAppend(a: string, b: string)
    ensures Escape(a + b) == Escape(a) + Escape(b)
  {
    if a == "" {
      assert a + b == b;
    } else {
      assert (a + b)[1..] == a[1..] + b;
      EscapeAppend(a[1..], b);
    }
  }

  lemma EscapeOneMore(input: string, i: nat)
    requires i < |input|
    ensures Escape(input[..i + 1]) == Escape(input[..i]) + EscapeChar(input[i])
  {
    var c := input[i];
    assert input[..i + 1] == input[..i] + [c];
    EscapeAppend(input[..i], [c]);
    assert Escape([c]) == EscapeChar(c) + Escape([c][1..]);
  }

  method EscapedText(c: char) returns (text: string)
    ensures text == EscapeChar(c)
  {
    match c
    case '\\' => text := "\\textbackslash{}";
    case '&' => text := "\\&";
    case '%' => text := "\\%";
    case '$' => text := "\\$";
    case '#' => text := "\\#";
    case '_' => text := "\\_";
    case '{' => text := "\\{";
    case '}' => text := "\\}";
    case '~' => text := "\\textasciitilde{}";
    case '^' => text := "\\textasciicircum{}";
    case other => text := [other];
  }

  method LatexEscape(input: string) returns (out: string)
    ensures out == Escape(input)
  {
    out := "";
    for i := 0 to |input|
      invariant out == Escape(input[..i])
    {
      EscapeOneMore(input, i);
      var text := EscapedText(input[i]);
      out := out + text;
    }
    assert input[..|input|] == input;
  }

  /******* Escaping can be undone *******/

  predicate StartsWith(s: string, p: string) {
    |p| <= |s| && s[..|p|] == p
  }

  function Unescape(s: string): string {
    if s == "" then ""
    else if s[0] != '\\' then [s[0]] + Unescape(s[1..])
    else if StartsWith(s, BACKSLASH) then "\\" + Unescape(s[|BACKSLASH|..])
    else if StartsWith(s, TILDE) then "~" + Unescape(s[|TILDE|..])
    else if StartsWith(s, CARET) then "^" + Unescape(s[|CARET|..])
    else if |s| >= 2 then [s[1]] + Unescape(s[2..])
    else s
  }

  lemma UnescapeChar(c: char, t: string)
    ensures Unescape(EscapeChar(c) + t) == [c] + Unescape(t)
  {
    var e := EscapeChar(c);
    var s := e + t;
    assert s[|e|..] == t && s[..|e|] == e;
    if c == '~' {
      assert s[5] == 'a' && BACKSLASH[5] == 'b';
      assert !StartsWith(s, BACKSLASH);
    } else if c == '^' {
      assert s[5] == 'a' && BACKSLASH[5] == 'b' && s[10] == 'c' && TILDE[10] == 't';
      assert !StartsWith(s, BACKSLASH) && !StartsWith(s, TILDE);
    } else if c != '\\' && c in SPECIALS {
      assert s[1] == c && BACKSLASH[1] == 't' && TILDE[1] == 't' && CARET[1] == 't';
      assert !StartsWith(s, BACKSLASH) && !StartsWith(s, TILDE) && !StartsWith(s, CARET);
    }
  }

  lemma {:induction false} EscapeRoundTrip(s: string)
    ensures Unescape(Escape(s)) == s
  {
    if s != "" {
      EscapeRoundTrip(s[1..]);
      UnescapeChar(s[0], Escape(s[1..]));
      assert s == [s[0]] + s[1..];
    }
  }

  /******* Escaping leaves nothing special *******/

  /** What LaTeX would take as special at i stands behind a backslash, or is the empty group of a command. */
  predicate HarmlessAt(s: string, i: nat)
    requires i < |s|
  {
    && (s[i] in {'&', '%', '$', '#', '_'} ==> i > 0 && s[i - 1] == '\\')
    && s[i] != '~' && s[i] != '^'
    && (s[i] == '{' ==> (i > 0 && s[i - 1] == '\\') || (i + 1 < |s| && s[i + 1] == '}'))
    && (s[i] == '}' ==> i > 0 && s[i - 1] in {'\\', '{'})
    && (s[i] == '\\' ==> i + 1 < |s| && s[i + 1] in {'&', '%', '$', '#', '_', '{', '}', 't'})
  }

  predicate Harmless(s: string) {
    forall i :: 0 <= i < |s| ==> HarmlessAt(s, i)
  }

  lemma HarmlessAppend(a: string, b: string)
    requires Harmless(a) && Harmless(b)
    ensures Harmless(a + b)
  {
    forall i | 0 <= i < |a + b| ensures HarmlessAt(a + b, i) {
      if i < |a| { assert HarmlessAt(a, i); } else { assert HarmlessAt(b, i - |a|); }
    }
  }

  lemma HarmlessWord(w: string)
    requires forall c <- w :: 'a' <= c <= 'z'
    ensures Harmless(w)
  {
    forall i | 0 <= i < |w| ensures HarmlessAt(w, i) { assert w[i] in w; }
  }

  lemma HarmlessCommand(name: string)
    requires forall c <- name :: 'a' <= c <= 'z'
    ensures Harmless("\\t" + name + "{}")
  {
    HarmlessWord(name);
    HarmlessAppend("\\t", name);
    HarmlessAppend("\\t" + name, "{}");
  }

  lemma HarmlessChar(c: char)
    ensures Harmless(EscapeChar(c))
  {
    if c == '\\' {
      assert BACKSLASH == "\\t" + "extbackslash" + "{}";
      HarmlessCommand("extbackslash");
    } else if c == '~' {
      assert TILDE == "\\t" + "extasciitilde" + "{}";
      HarmlessCommand("extasciitilde");
    } else if c == '^' {
      assert CARET == "\\t" + "extasciicircum" + "{}";
      HarmlessCommand("extasciicircum");
    }
  }

  lemma {:induction false} EscapeIsHarmless(s: string)
    ensures Harmless(Escape(s))
  {
    if s != "" {
      HarmlessChar(s[0]);
      EscapeIsHarmless(s[1..]);
      HarmlessAppend(EscapeChar(s[0]), Escape(s[1..]));
    }
  }

  /******* Brace matching *******/

  // What the matcher carries from one character to the next.
  datatype Scan = Scan(depth: int, escaped: bool)

  function Next(k: Scan, c: char): Scan {
    if k.escaped then k.(escaped := false)
    else if c == '\\' then k.(escaped := true)
    else if c == '{' then k.(depth := k.depth + 1)
    else if c == '}' then k.(depth := k.depth - 1)
    else k
  }

  predicate Closes(k: Scan, c: char) {
    !k.escaped && c == '}' && k.depth == 1
  }

  function After(s: string, k: Scan): Scan {
    if s == "" then k else Next(After(s[..|s| - 1], k), s[|s| - 1])
  }

  /** Position i closes the brace that stands open before s. */
  predicate ClosesAt(s: string, i: nat) {
    i < |s| && Closes(After(s[..i], Scan(1, false)), s[i])
  }

  /** The same search as a function. */
  function BraceEnd(s: string, from: nat): (r: Option<nat>)
    requires from <= |s|
    ensures r.Some? ==> from <= r.value && ClosesAt(s, r.value) && forall i: nat :: from <= i < r.value ==> !ClosesAt(s, i)
    ensures r.None? ==> forall i: nat :: from <= i ==> !ClosesAt(s, i)
    decreases |s| - from
  {
    if from == |s| then None
    else if ClosesAt(s, from) then Some(from)
    else BraceEnd(s, from + 1)
  }

  method MatchingBraceEnd(s: string) returns (r: Option<nat>)
    ensures r.Some? ==> ClosesAt(s, r.value) && forall i: nat :: i < r.value ==> !ClosesAt(s, i)
    ensures r.None? ==> forall i: nat :: !ClosesAt(s, i)
    ensures r == BraceEnd(s, 0)
  {
    var depth, escaped := 1, false;
    for i := 0 to |s|
      invariant Scan(depth, escaped) == After(s[..i], Scan(1, false))
      invariant forall k: nat :: k < i ==> !ClosesAt(s, k)
    {
      assert s[..i + 1][..i] == s[..i];
      if escaped {
        escaped := false;
        continue;
      }
      match s[i]
      case '\\' => escaped := true;
      case '{' => depth := depth + 1;
      case '}' =>
        depth := depth - 1;
        if depth == 0 { return Some(i); }
      case _ =>
    }
    r := None;
  }

  lemma {:induction false} AfterAppend(a: string, b: string, k: Scan)
    ensures After(a + b, k) == After(b, After(a, k))
  {
    if b == "" {
      assert a + b == a;
    } else {
      var n := |b| - 1;
      assert (a + b)[..|a + b| - 1] == a + b[..n];
      AfterAppend(a, b[..n], k);
    }
  }

  // No position of s closes a scan that starts at k.
  predicate Quiet(s: string, k: Scan) {
    forall i :: 0 <= i < |s| ==> !Closes(After(s[..i], k), s[i])
  }

  lemma QuietAppend(a: string, b: string, k: Scan)
    requires Quiet(a, k) && Quiet(b, After(a, k))
    ensures Quiet(a + b, k)
  {
    forall i | 0 <= i < |a + b| ensures !Closes(After((a + b)[..i], k), (a + b)[i]) {
      if i < |a| {
        assert (a + b)[..i] == a[..i];
      } else {
        assert (a + b)[..i] == a + b[..i - |a|];
        AfterAppend(a, b[..i - |a|], k);
      }
    }
  }

  lemma AfterOne(c: char, k: Scan)
    ensures After([c], k) == Next(k, c)
    ensures Quiet([c], k) <==> !Closes(k, c)
  {
    assert [c][..0] == "";
    assert After([c][..0], k) == k;
  }

  // A word without backslash or brace changes nothing.
  lemma {:induction false} AfterWord(w: string, k: Scan)
    requires !k.escaped && '\\' !in w && '{' !in w && '}' !in w
    ensures After(w, k) == k && Quiet(w, k)
  {
    if w != "" {
      var n := |w| - 1;
      AfterWord(w[..n], k);
      AfterOne(w[n], k);
      assert w == w[..n] + [w[n]];
      QuietAppend(w[..n], [w[n]], k);
    }
  }

  lemma PairIsNeutral(a: char, b: char, k: Scan)
    requires !k.escaped && k.depth >= 1 && (a == '\\' || (a == '{' && b == '}'))
    ensures After([a, b], k) == k && Quiet([a, b], k)
  {
    assert [a, b] == [a] + [b];
    AfterOne(a, k);
    AfterOne(b, Next(k, a));
    AfterAppend([a], [b], k);
    QuietAppend([a], [b], k);
  }

  // A command `\name{}` with a one-letter head scans back to where it started.
  lemma CommandIsNeutral(head: char, name: string, depth: int)
    requires depth >= 1 && '\\' !in name && '{' !in name && '}' !in name
    ensures After(['\\', head] + name + "{}", Scan(depth, false)) == Scan(depth, false)
    ensures Quiet(['\\', head] + name + "{}", Scan(depth, false))
  {
    var k := Scan(depth, false);
    PairIsNeutral('\\', head, k);
    AfterWord(name, k);
    QuietAppend(['\\', head], name, k);
    AfterAppend(['\\', head], name, k);
    PairIsNeutral('{', '}', k);
    QuietAppend(['\\', head] + name, "{}", k);
    AfterAppend(['\\', head] + name, "{}", k);
  }

  lemma EscapeCharIsNeutral(c: char, depth: int)
    requires depth >= 1
    ensures After(EscapeChar(c), Scan(depth, false)) == Scan(depth, false) && Quiet(EscapeChar(c), Scan(depth, false))
  {
    if c == '\\' {
      assert BACKSLASH == ['\\', 't'] + "extbackslash" + "{}";
      CommandIsNeutral('t', "extbackslash", depth);
    } else if c in SPECIALS {
      PairIsNeutral('\\', c, Scan(depth, false));
    } else if c == '~' {
      assert TILDE == ['\\', 't'] + "extasciitilde" + "{}";
      CommandIsNeutral('t', "extasciitilde", depth);
    } else if c == '^' {
      assert CARET == ['\\', 't'] + "extasciicircum" + "{}";
      CommandIsNeutral('t', "extasciicircum", depth);
    } else {
      AfterOne(c, Scan(depth, false));
    }
  }

  /** Escaped text is brace-safe: scanned from any depth it closes nothing and ends at that depth. */
  lemma {:induction false} EscapeIsNeutral(s: string, depth: int)
    requires depth >= 1
    ensures After(Escape(s), Scan(depth, false)) == Scan(depth, false) && Quiet(Escape(s), Scan(depth, false))
  {
    if s != "" {
      EscapeCharIsNeutral(s[0], depth);
      EscapeIsNeutral(s[1..], depth);
      AfterAppend(EscapeChar(s[0]), Escape(s[1..]), Scan(depth, false));
      QuietAppend(EscapeChar(s[0]), Escape(s[1..]), Scan(depth, false));
    }
  }

  /** The brace opened before escaped text is matched by the one right after it. */
  lemma BraceEndOfEscaped(s: string, t: string)
    ensures BraceEnd(Escape(s) + "}" + t, 0) == Some(|Escape(s)|)
  {
    var e := Escape(s);
    var all := e + "}" + t;
    EscapeIsNeutral(s, 1);
    assert all[..|e|] == e && all[|e|] == '}';
    assert ClosesAt(all, |e|);
    forall i: nat | i < |e| ensures !ClosesAt(all, i) {
      assert all[..i] == e[..i] && all[i] == e[i];
    }
  }

  /******* Unwrapping pandoc's block commands *******/

  const COMMANDS: seq<string> := ["\\section", "\\subsection", "\\subsubsection", "\\paragraph", "\\subparagraph"]
  const HYPERTARGET: string := "\\hypertarget{"

  function StripPrefix(s: string, p: string): Option<string> {
    if StartsWith(s, p) then Some(s[|p|..]) else None
  }

  // The argument of a brace group at the start of s.
  function Group(s: string): Option<string> {
    match StripPrefix(s, "{")
    case None => None
    case Some(inner) =>
      match BraceEnd(inner, 0)
      case None => None
      case Some(end) => Some(inner[..end])
  }

  function Unwrap(trimmed: string, commands: seq<string>): Option<string> {
    if commands == [] then None
    else
      match StripPrefix(trimmed, commands[0])
      case Some(rest) => var g := Group(rest); if g.Some? then g else Unwrap(trimmed, commands[1..])
      case None => Unwrap(trimmed, commands[1..])
  }

  function UnwrapTarget(trimmed: string): Option<string> {
    match StripPrefix(trimmed, HYPERTARGET)
    case None => None
    case Some(after) =>
      match FindChar(after, '}', 0)
      case None => None
      case Some(end) => Group(after[end + 1..])
  }

  function StripBlockWrappers(s: string): string {
    var trimmed := Trim(s);
    match Unwrap(trimmed, COMMANDS)
    case Some(inner) => inner
    case None =>
      match UnwrapTarget(trimmed)
      case Some(inner) => inner
      case None => trimmed
  }

  lemma StripByCommand(s: string, trimmed: string, inner: string)
    requires Trim(s) == trimmed && Unwrap(trimmed, COMMANDS) == Some(inner)
    ensures StripBlockWrappers(s) == inner
  {
  }

  lemma StripByTarget(s: string, trimmed: string, inner: string)
    requires Trim(s) == trimmed && Unwrap(trimmed, COMMANDS) == None && UnwrapTarget(trimmed) == Some(inner)
    ensures StripBlockWrappers(s) == inner
  {
  }

  /******* Escaped titles come back out *******/

  function Braced(s: string): string {
    "{" + s + "}"
  }

  predicate AllWhite(u: string) {
    forall c <- u :: IsWhite(c)
  }

  lemma GroupOfEscaped(s: string, t: string)
    ensures Group(Braced(Escape(s)) + t) == Some(Escape(s))
  {
    var all, inner := Braced(Escape(s)) + t, Escape(s) + "}" + t;
    assert all[..1] == "{" && all[1..] == inner;
    BraceEndOfEscaped(s, t);
    assert inner[..|Escape(s)|] == Escape(s);
  }

  lemma {:induction false} TrimStartDrops(u: string, x: string)
    requires AllWhite(u) && x != "" && !IsWhite(x[0])
    ensures TrimStart(u + x) == x
  {
    if u == "" {
      assert u + x == x;
    } else {
      assert (u + x)[1..] == u[1..] + x;
      TrimStartDrops(u[1..], x);
    }
  }

  lemma {:induction false} TrimEndKeeps(x: string, t: string)
    requires x != "" && !IsWhite(x[|x| - 1])
    ensures TrimEnd(x + t) == x + TrimEnd(t)
  {
    if t == "" {
      assert x + t == x;
    } else if IsWhite(t[|t| - 1]) {
      assert (x + t)[..|x + t| - 1] == x + t[..|t| - 1];
      TrimEndKeeps(x, t[..|t| - 1]);
    }
  }

  lemma TrimAround(u: string, x: string, t: string)
    requires AllWhite(u) && x != "" && !IsWhite(x[0]) && !IsWhite(x[|x| - 1])
    ensures Trim(u + x + t) == x + TrimEnd(t)
  {
    assert u + x + t == u + (x + t);
    TrimStartDrops(u, x + t);
    TrimEndKeeps(x, t);
  }

  // Each command differs from the ones tried before it within its own letters.
  lemma OnlyItsOwnCommand(j: nat, k: nat, rest: string)
    requires j < k < |COMMANDS|
    ensures !StartsWith(COMMANDS[k] + rest, COMMANDS[j])
  {
    var s, p := COMMANDS[k] + rest, COMMANDS[j];
    assert COMMANDS[1][2] == 'u' && COMMANDS[2][2] == 'u' && COMMANDS[4][2] == 'u' && COMMANDS[0][2] == 'e';
    assert COMMANDS[3][1] == 'p' && COMMANDS[0][1] == 's' && COMMANDS[1][1] == 's' && COMMANDS[2][1] == 's' && COMMANDS[4][1] == 's';
    assert COMMANDS[1][5] == 'e' && COMMANDS[2][5] == 'u' && COMMANDS[4][4] == 'p' && COMMANDS[1][4] == 's' && COMMANDS[2][4] == 's';
    if StartsWith(s, p) {
      assert forall i :: 0 <= i < |p| ==> s[i] == p[i];
      assert forall i :: 0 <= i < |COMMANDS[k]| ==> s[i] == COMMANDS[k][i];
    }
  }

  lemma {:induction false} UnwrapFinds(k: nat, j: nat, s: string, t: string)
    requires j <= k < |COMMANDS|
    ensures Unwrap(COMMANDS[k] + (Braced(Escape(s)) + t), COMMANDS[j..]) == Some(Escape(s))
    decreases k - j
  {
    var rest := Braced(Escape(s)) + t;
    var all := COMMANDS[k] + rest;
    assert COMMANDS[j..][0] == COMMANDS[j] && COMMANDS[j..][1..] == COMMANDS[j + 1..];
    if j == k {
      assert all[..|COMMANDS[k]|] == COMMANDS[k] && all[|COMMANDS[k]|..] == rest;
      GroupOfEscaped(s, t);
    } else {
      OnlyItsOwnCommand(j, k, rest);
      UnwrapFinds(k, j + 1, s, t);
    }
  }

  lemma UnwrapCommand(command: string, s: string, t: string)
    requires command in COMMANDS
    ensures Unwrap(command + Braced(Escape(s)) + t, COMMANDS) == Some(Escape(s))
  {
    var k :| 0 <= k < |COMMANDS| && COMMANDS[k] == command;
    assert command + Braced(Escape(s)) + t == command + (Braced(Escape(s)) + t);
    UnwrapFinds(k, 0, s, t);
    assert COMMANDS[0..] == COMMANDS;
  }

  lemma CommandIsListed(command: string)
    requires command in {"\\section", "\\subsection", "\\subsubsection", "\\paragraph", "\\subparagraph"}
    ensures command in COMMANDS
  {
    assert COMMANDS[0] == "\\section" && COMMANDS[1] == "\\subsection" && COMMANDS[2] == "\\subsubsection";
    assert COMMANDS[3] == "\\paragraph" && COMMANDS[4] == "\\subparagraph";
  }

  lemma CommandEnds(command: string, group: string)
    requires command in COMMANDS
    ensures var x := command + Braced(group); !IsWhite(x[0]) && !IsWhite(x[|x| - 1])
  {
    assert command[0] == '\\';
  }

  /** An escaped title comes back out of any of the five section commands, whatever white space
      precedes the command and whatever follows its argument. */
  lemma StripSectionCommand(u: string, command: string, s: string, t: string)
    requires AllWhite(u)
    requires command in {"\\section", "\\subsection", "\\subsubsection", "\\paragraph", "\\subparagraph"}
    ensures StripBlockWrappers(u + (command + Braced(Escape(s))) + t) == Escape(s)
  {
    CommandIsListed(command);
    var x := command + Braced(Escape(s));
    CommandEnds(command, Escape(s));
    TrimAround(u, x, t);
    UnwrapCommand(command, s, TrimEnd(t));
    StripByCommand(u + x + t, x + TrimEnd(t), Escape(s));
  }

  lemma {:induction false} NoCommand(rest: string, j: nat)
    requires j <= |COMMANDS|
    ensures Unwrap(HYPERTARGET + rest, COMMANDS[j..]) == None
    decreases |COMMANDS| - j
  {
    if j < |COMMANDS| {
      var all := HYPERTARGET + rest;
      assert COMMANDS[j..][0] == COMMANDS[j] && COMMANDS[j..][1..] == COMMANDS[j + 1..];
      assert all[1] == 'h' && COMMANDS[j][1] != 'h';
      assert !StartsWith(all, COMMANDS[j]);
      NoCommand(rest, j + 1);
    }
  }

  lemma TargetSkipped(target: string, rest: string)
    requires '}' !in target
    ensures FindChar(target + "}" + rest, '}', 0) == Some(|target|)
    ensures (target + "}" + rest)[|target| + 1..] == rest
  {
    var after := target + "}" + rest;
    assert after[|target|] == '}';
    assert forall i :: 0 <= i < |target| ==> after[i] == target[i];
  }

  lemma UnwrapTargetFinds(target: string, s: string, t: string)
    requires '}' !in target
    ensures UnwrapTarget(HYPERTARGET + (target + "}" + (Braced(Escape(s)) + t))) == Some(Escape(s))
  {
    var after := target + "}" + (Braced(Escape(s)) + t);
    assert (HYPERTARGET + after)[|HYPERTARGET|..] == after;
    TargetSkipped(target, Braced(Escape(s)) + t);
    GroupOfEscaped(s, t);
  }

  // pandoc's wrapper around a group.
  function Wrapped(target: string, group: string): string {
    "\\hypertarget{" + target + "}" + group
  }

  lemma WrappedThen(target: string, group: string, t: string)
    ensures Wrapped(target, group) + t == HYPERTARGET + (target + "}" + (group + t))
  {
  }

  lemma WrappedIsNoCommand(target: string, group: string, t: string)
    ensures Unwrap(Wrapped(target, group) + t, COMMANDS) == None
  {
    WrappedThen(target, group, t);
    NoCommand(target + "}" + (group + t), 0);
    assert COMMANDS[0..] == COMMANDS;
  }

  lemma UnwrapWrapped(target: string, s: string, t: string)
    requires '}' !in target
    ensures Unwrap(Wrapped(target, Braced(Escape(s))) + t, COMMANDS) == None
    ensures UnwrapTarget(Wrapped(target, Braced(Escape(s))) + t) == Some(Escape(s))
  {
    WrappedIsNoCommand(target, Braced(Escape(s)), t);
    WrappedThen(target, Braced(Escape(s)), t);
    UnwrapTargetFinds(target, s, t);
  }

  /** And out of a hypertarget wrapper whose target name holds no closing brace. */
  lemma StripHypertarget(u: string, target: string, s: string, t: string)
    requires AllWhite(u) && '}' !in target
    ensures StripBlockWrappers(u + Wrapped(target, Braced(Escape(s))) + t) == Escape(s)
  {
    var x := Wrapped(target, Braced(Escape(s)));
    TrimAround(u, x, t);
    UnwrapWrapped(target, s, TrimEnd(t));
    StripByTarget(u + x + t, x + TrimEnd(t), Escape(s));
  }

  lemma {:induction false} NoBackslashNoCommand(t: string, j: nat)
    requires (t == "" || t[0] != '\\') && j <= |COMMANDS|
    ensures Unwrap(t, COMMANDS[j..]) == None
    decreases |COMMANDS| - j
  {
    if j < |COMMANDS| {
      assert COMMANDS[j..][0] == COMMANDS[j] && COMMANDS[j..][1..] == COMMANDS[j + 1..];
      assert COMMANDS[j][0] == '\\';
      assert !StartsWith(t, COMMANDS[j]);
      NoBackslashNoCommand(t, j + 1);
    }
  }

  /** Text that does not start with a command is only trimmed. */
  lemma PlainIsOnlyTrimmed(s: string)
    requires Trim(s) == "" || Trim(s)[0] != '\\'
    ensures StripBlockWrappers(s) == Trim(s)
  {
    var t := Trim(s);
    assert !StartsWith(t, HYPERTARGET);
    NoBackslashNoCommand(t, 0);
    assert COMMANDS[0..] == COMMANDS;
  }
}
