/** Counting and replacing a substring as Python's str methods do: leftmost, without overlap. */
module Replace {
  import opened Wrappers
  import opened Text

  /** The pieces between the occurrences. */
  function Split(s: string, pat: string): (r: seq<string>)
    requires pat != ""
    ensures r != []
    decreases |s|
  {
    match Find(s, pat, 0)
    case None => [s]
    case Some(i) => [s[..i]] + Split(s[i + |pat|..], pat)
  }

  function Join(parts: seq<string>, sep: string): string
    requires parts != []
  {
    if |parts| == 1 then parts[0] else parts[0] + sep + Join(parts[1..], sep)
  }

  function Count(s: string, pat: string): nat
    requires pat != ""
    decreases |s|
  {
    match Find(s, pat, 0)
    case None => 0
    case Some(i) => 1 + Count(s[i + |pat|..], pat)
  }

  function ReplaceAll(s: string, pat: string, sub: string): string
    requires pat != ""
    decreases |s|
  {
    match Find(s, pat, 0)
    case None => s
    case Some(i) => s[..i] + sub + ReplaceAll(s[i + |pat|..], pat, sub)
  }

  lemma SplitAt(s: string, pat: string, i: nat)
    requires At(s, pat, i)
    ensures s == s[..i] + pat + s[i + |pat|..]
  {
  }

  lemma JoinCons(first: string, rest: seq<string>, sep: string)
    requires rest != []
    ensures Join([first] + rest, sep) == first + sep + Join(rest, sep)
  {
    assert ([first] + rest)[1..] == rest;
  }

  /** Replacing is cutting at the counted occurrences and joining with the new text; joining with the old one
      gives the text back. */
  lemma {:induction false} ReplaceIsJoin(s: string, pat: string, sub: string)
    requires pat != ""
    ensures ReplaceAll(s, pat, sub) == Join(Split(s, pat), sub)
    ensures Join(Split(s, pat), pat) == s
    ensures |Split(s, pat)| == Count(s, pat) + 1
    decreases |s|
  {
    match Find(s, pat, 0)
    case None =>
    case Some(i) =>
      var rest := s[i + |pat|..];
      ReplaceIsJoin(rest, pat, sub);
      JoinCons(s[..i], Split(rest, pat), sub);
      JoinCons(s[..i], Split(rest, pat), pat);
      SplitAt(s, pat, i);
  }

  lemma PrefixIsFree(s: string, pat: string, i: nat)
    requires pat != "" && Find(s, pat, 0) == Some(i)
    ensures Find(s[..i], pat, 0) == None
  {
    forall j: nat | j + |pat| <= i ensures !At(s[..i], pat, j) {
      assert !At(s, pat, j);
      assert s[..i][j..j + |pat|] == s[j..j + |pat|];
    }
  }

  /** No piece holds an occurrence. */
  lemma {:induction false} PiecesAreFree(s: string, pat: string, k: nat)
    requires pat != "" && k < |Split(s, pat)|
    ensures Find(Split(s, pat)[k], pat, 0) == None
    decreases |s|
  {
    match Find(s, pat, 0)
    case None =>
    case Some(i) =>
      if k == 0 {
        PrefixIsFree(s, pat, i);
      } else {
        PiecesAreFree(s[i + |pat|..], pat, k - 1);
      }
  }

  lemma OneMore(c: int, d: int)
    ensures (1 + c) * d == d + c * d
  {
  }

  lemma LengthOfStep(a: string, b: string, c: string)
    ensures |a + b + c| == |a| + |b| + |c|
  {
  }

  /** The length changes by the same amount for each counted occurrence. */
  lemma {:induction false} ReplaceLength(s: string, pat: string, sub: string, d: int)
    requires pat != "" && d == |sub| - |pat|
    ensures |ReplaceAll(s, pat, sub)| == |s| + Count(s, pat) * d
    decreases |s|
  {
    match Find(s, pat, 0)
    case None =>
    case Some(i) =>
      var rest := s[i + |pat|..];
      ReplaceLength(rest, pat, sub, d);
      OneMore(Count(rest, pat), d);
      LengthOfStep(s[..i], sub, ReplaceAll(rest, pat, sub));
  }

  lemma NoneLeft(s: string, pat: string, sub: string)
    requires pat != "" && Count(s, pat) == 0
    ensures ReplaceAll(s, pat, sub) == s && Find(s, pat, 0) == None
  {
  }

  lemma OneReplaced(s: string, pat: string, sub: string)
    requires pat != "" && Count(s, pat) == 1
    ensures Find(s, pat, 0).Some?
    ensures var i := Find(s, pat, 0).value; ReplaceAll(s, pat, sub) == s[..i] + sub + s[i + |pat|..]
  {
    var i := Find(s, pat, 0).value;
    NoneLeft(s[i + |pat|..], pat, sub);
  }

  lemma CountShort(s: string, pat: string)
    requires |s| < |pat|
    ensures Count(s, pat) == 0
  {
  }

  // A text that ends with its first occurrence holds one.
  lemma OneAtEnd(front: string, pat: string)
    requires pat != "" && forall j: nat :: j < |front| ==> !At(front + pat, pat, j)
    ensures Find(front + pat, pat, 0) == Some(|front|) && Count(front + pat, pat) == 1
  {
    var s := front + pat;
    assert s[|front|..|front| + |pat|] == pat;
    FindUnique(s, pat, 0, |front|);
    CountShort(s[|front| + |pat|..], pat);
  }

  /******* When a count of one means one position *******/

  // A proper prefix of the text is also a suffix.
  predicate Overlaps(pat: string, k: nat) {
    0 < k < |pat| && pat[k..] == pat[..|pat| - k]
  }

  ghost predicate OverlapsItself(pat: string) {
    exists k :: Overlaps(pat, k)
  }

  lemma TwoOverlap(s: string, pat: string, i: nat, j: nat)
    requires At(s, pat, i) && At(s, pat, j) && i < j < i + |pat|
    ensures Overlaps(pat, j - i)
  {
    assert forall m :: 0 <= m < |pat| ==> s[i..i + |pat|][m] == pat[m] && s[j..j + |pat|][m] == pat[m];
    assert pat[j - i..] == pat[..|pat| - (j - i)];
  }

  lemma OneMeansFirst(s: string, pat: string, j: nat)
    requires pat != "" && Count(s, pat) == 1 && At(s, pat, j) && !OverlapsItself(pat)
    ensures Find(s, pat, 0) == Some(j)
  {
    var i := Find(s, pat, 0).value;
    var k := i + |pat|;
    assert s[k..|s|] == s[k..];
    NoneLeft(s[k..|s|], pat, "");
    if j >= k {
      AtSlice(s, k, |s|, pat, j - k);
    } else if i < j {
      TwoOverlap(s, pat, i, j);
    }
  }

  lemma OverlapCountsOnce(pat: string, k: nat)
    requires Overlaps(pat, k)
    ensures var s := pat[..k] + pat; Count(s, pat) == 1 && At(s, pat, 0) && At(s, pat, k)
  {
    var s := pat[..k] + pat;
    assert s[0..|pat|] == pat;
    assert s[k..k + |pat|] == pat;
    assert Find(s, pat, 0) == Some(0);
    assert Find(s[|pat|..], pat, 0) == None;
  }

  /** A count of one means a single position in every text exactly when the searched text does not overlap itself. */
  lemma OnePositionIff(pat: string)
    requires pat != ""
    ensures (forall s, i: nat, j: nat :: Count(s, pat) == 1 && At(s, pat, i) && At(s, pat, j) ==> i == j) <==> !OverlapsItself(pat)
  {
    if !OverlapsItself(pat) {
      forall s, i: nat, j: nat | Count(s, pat) == 1 && At(s, pat, i) && At(s, pat, j) ensures i == j {
        OneMeansFirst(s, pat, i);
        OneMeansFirst(s, pat, j);
      }
    } else {
      var k :| Overlaps(pat, k);
      OverlapCountsOnce(pat, k);
    }
  }
}
