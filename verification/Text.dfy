/** Substring search over character sequences, as the string libraries define it. */
module Text {
  import opened Wrappers

  predicate At(s: string, pat: string, i: nat) {
    i + |pat| <= |s| && s[i..i + |pat|] == pat
  }

  /** The first occurrence of `pat` at or after `from`. */
  function Find(s: string, pat: string, from: nat): (r: Option<nat>)
    ensures r.Some? ==> from <= r.value && At(s, pat, r.value)
    ensures r.Some? ==> forall j: nat :: from <= j < r.value ==> !At(s, pat, j)
    ensures r.None? ==> forall j: nat :: from <= j ==> !At(s, pat, j)
    decreases |s| - from
  {
    if from + |pat| > |s| then None
    else if At(s, pat, from) then Some(from)
    else Find(s, pat, from + 1)
  }

  lemma SliceOfSlice(s: string, a: nat, b: nat, x: nat, y: nat)
    requires a + x <= a + y <= b <= |s|
    ensures s[a..b][x..y] == s[a + x..a + y]
  {
    assert |s[a..b][x..y]| == |s[a + x..a + y]|;
    assert forall k :: 0 <= k < y - x ==> s[a..b][x..y][k] == s[a..b][x + k] == s[a + x..a + y][k];
  }

  lemma AtSlice(s: string, a: nat, b: nat, pat: string, j: nat)
    requires a <= b <= |s|
    ensures At(s[a..b], pat, j) <==> a + j + |pat| <= b && At(s, pat, a + j)
  {
    if a + j + |pat| <= b { SliceOfSlice(s, a, b, j, j + |pat|); }
  }

  lemma FindUnique(s: string, pat: string, from: nat, i: nat)
    requires from <= i && At(s, pat, i) && forall j: nat :: from <= j < i ==> !At(s, pat, j)
    ensures Find(s, pat, from) == Some(i)
  {
  }

  lemma FoundInSlice(s: string, a: nat, pat: string, from: nat, e: nat)
    requires Find(s, pat, a + from) == Some(e)
    ensures Find(s[a..e + |pat|], pat, from) == Some(e - a)
  {
    var t := s[a..e + |pat|];
    AtSlice(s, a, e + |pat|, pat, e - a);
    forall j: nat | from <= j < e - a ensures !At(t, pat, j) {
      AtSlice(s, a, e + |pat|, pat, j);
    }
    FindUnique(t, pat, from, e - a);
  }

  lemma NotFoundInSlice(s: string, a: nat, b: nat, pat: string, from: nat)
    requires a <= b <= |s| && Find(s, pat, a + from) == None
    ensures Find(s[a..b], pat, from) == None
  {
    forall j: nat | from <= j ensures !At(s[a..b], pat, j) {
      AtSlice(s, a, b, pat, j);
    }
  }

  /** The first occurrence of a character at or after `from`. */
  function FindChar(s: string, c: char, from: nat): (r: Option<nat>)
    ensures r.Some? ==> from <= r.value < |s| && s[r.value] == c && forall j :: from <= j < r.value ==> s[j] != c
    ensures r.None? ==> forall j :: from <= j < |s| ==> s[j] != c
    decreases |s| - from
  {
    if from >= |s| then None
    else if s[from] == c then Some(from)
    else FindChar(s, c, from + 1)
  }

  /******* Trimming white space *******/

  predicate IsWhite(c: char) {
    '\t' <= c <= '\r' || c == ' ' || c == '\U{85}' || c == '\U{A0}' || c == '\U{1680}'
    || '\U{2000}' <= c <= '\U{200A}' || c == '\U{2028}' || c == '\U{2029}' || c == '\U{202F}' || c == '\U{205F}' || c == '\U{3000}'
  }

  /** The white space of ASCII, and no letter, digit or mark of it. */
  lemma AsciiWhite(c: char)
    requires c < 128 as char
    ensures IsWhite(c) <==> c == ' ' || c == '\t' || c == '\n' || c == '\r' || c == '\U{B}' || c == '\U{C}'
  {
  }

  function TrimStart(s: string): string {
    if s != "" && IsWhite(s[0]) then TrimStart(s[1..]) else s
  }

  function TrimEnd(s: string): string {
    if s != "" && IsWhite(s[|s| - 1]) then TrimEnd(s[..|s| - 1]) else s
  }

  function Trim(s: string): string {
    TrimEnd(TrimStart(s))
  }

  /******* Lower case, for ASCII letters *******/

  function LowerChar(c: char): char {
    if 'A' <= c <= 'Z' then c - 'A' + 'a' else c
  }

  lemma LowerAlphabet(i: nat)
    requires i < 26
    ensures LowerChar("ABCDEFGHIJKLMNOPQRSTUVWXYZ"[i]) == "abcdefghijklmnopqrstuvwxyz"[i]
    ensures LowerChar("abcdefghijklmnopqrstuvwxyz"[i]) == "abcdefghijklmnopqrstuvwxyz"[i]
  {
  }

  function Lower(s: string): string {
    seq(|s|, i requires 0 <= i < |s| => LowerChar(s[i]))
  }

  /******* Joining pieces *******/

  function Concat(parts: seq<string>): string {
    if parts == [] then "" else Concat(parts[..|parts| - 1]) + parts[|parts| - 1]
  }

  lemma ConcatPush(parts: seq<string>, p: string)
    ensures Concat(parts + [p]) == Concat(parts) + p
  {
    assert (parts + [p])[..|parts|] == parts;
  }
}
