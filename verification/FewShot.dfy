/**
 The winning-paper library: exemplars bucketed by family and letter, and retrieval in four stages.
 */
module FewShot {
  import opened Wrappers
  import opened Text
  import opened Sorting

  datatype Exemplar = Exemplar(
    paperId: string,
    year: int,
    letter: string,
    family: string,
    summary: string,
    headings: seq<string>,
    hasSensitivity: bool,
    hasStrengths: bool)

  /** a ranks no later than b: sensitivity section first, then strengths and weaknesses, then the later year. */
  predicate Ranks(a: Exemplar, b: Exemplar) {
    if a.hasSensitivity != b.hasSensitivity then a.hasSensitivity
    else if a.hasStrengths != b.hasStrengths then a.hasStrengths
    else a.year >= b.year
  }

  function Ranked(es: seq<Exemplar>): seq<Exemplar> {
    Sort(es, Ranks)
  }

  /******* Family names *******/

  predicate Contains(s: string, pat: string) {
    Find(s, pat, 0).Some?
  }

  const GUOSAI: string := "\U{56FD}\U{8D5B}"
  const HUASHU: string := "\U{534E}\U{6570}"

  function NormalizeFamily(competitionType: string): string {
    var s := Lower(competitionType);
    if Contains(s, "icm") then "icm"
    else if Contains(s, "mcm") then "mcm"
    else if Contains(s, "huashu") || Contains(s, HUASHU) then "huashu"
    else if Contains(s, "cumcm") || Contains(s, GUOSAI) then "cumcm"
    else "mcm"
  }

  function Sibling(family: string): Option<string> {
    match family
    case "mcm" => Some("icm")
    case "icm" => Some("mcm")
    case "cumcm" => Some("huashu")
    case "huashu" => Some("cumcm")
    case _ => None
  }

  /** Families go in pairs that share a rubric. */
  lemma SiblingsPairUp(family: string)
    ensures Sibling("mcm") == Some("icm") && Sibling("cumcm") == Some("huashu")
    ensures Sibling(family).Some? <==> family in {"mcm", "icm", "cumcm", "huashu"}
    ensures Sibling(family).Some? ==> Sibling(Sibling(family).value) == Some(family)
  {
  }

  lemma CumcmHoldsMcm(s: string)
    requires Contains(s, "cumcm")
    ensures Contains(s, "mcm")
  {
    var i := Find(s, "cumcm", 0).value;
    assert s[i + 2..i + 5] == s[i..i + 5][2..] == "mcm";
    assert At(s, "mcm", i + 2);
  }

  /** The name "cumcm" never selects its own family, since it contains "mcm": only the Chinese name does, and only
      beside none of the other names. */
  lemma CumcmOnlyByChineseName(t: string)
    ensures var s := Lower(t);
            NormalizeFamily(t) == "cumcm" <==>
              Contains(s, GUOSAI) && !Contains(s, "icm") && !Contains(s, "mcm") && !Contains(s, "huashu") && !Contains(s, HUASHU)
    ensures Contains(Lower(t), "cumcm") ==> NormalizeFamily(t) in {"icm", "mcm"}
  {
    if Contains(Lower(t), "cumcm") { CumcmHoldsMcm(Lower(t)); }
  }

  /** Which names the other families are reached by. */
  lemma FamilyByName(t: string)
    ensures var s := Lower(t);
            && (NormalizeFamily(t) == "icm" <==> Contains(s, "icm"))
            && (NormalizeFamily(t) == "huashu" <==>
                  (Contains(s, "huashu") || Contains(s, "\U{534E}\U{6570}")) && !Contains(s, "icm") && !Contains(s, "mcm"))
            && NormalizeFamily(t) in {"icm", "mcm", "huashu", "cumcm"}
  {
  }

  /******* The simple form of retrieval *******/

  function OfFamily(es: seq<Exemplar>, family: string): seq<Exemplar> {
    Filter(es, (e: Exemplar) => e.family == family)
  }

  function OfBucket(es: seq<Exemplar>, family: string, letter: string): seq<Exemplar> {
    Filter(es, (e: Exemplar) => e.family == family && e.letter == letter)
  }

  function SiblingPart(es: seq<Exemplar>, family: string): seq<Exemplar> {
    if Sibling(family).Some? then Ranked(OfFamily(es, Sibling(family).value)) else []
  }

  /** Everything that can be asked for, best first: the bucket, the family, its sibling, the whole library. */
  function Candidates(es: seq<Exemplar>, family: string, letter: string): seq<Exemplar> {
    (if letter == "" then [] else Ranked(OfBucket(es, family, letter)))
    + Ranked(OfFamily(es, family))
    + SiblingPart(es, family)
    + Ranked(es)
  }

  /** The first exemplar of each id not yet seen. */
  function Fresh(seen: set<string>, es: seq<Exemplar>): seq<Exemplar>
    decreases |es|
  {
    if es == [] then []
    else if es[0].paperId in seen then Fresh(seen, es[1..])
    else [es[0]] + Fresh(seen + {es[0].paperId}, es[1..])
  }

  function Ids(es: seq<Exemplar>): set<string> {
    set e <- es :: e.paperId
  }

  function First(k: int, es: seq<Exemplar>): seq<Exemplar> {
    if k <= 0 then [] else if k <= |es| then es[..k] else es
  }

  // Python's picked[:k], which counts a negative k from the end.
  function SliceTo(es: seq<Exemplar>, k: int): seq<Exemplar> {
    if k >= 0 then First(k, es) else First(|es| + k, es)
  }

  lemma IdsCons(a: seq<Exemplar>)
    requires a != []
    ensures Ids(a) == {a[0].paperId} + Ids(a[1..])
  {
    assert a == [a[0]] + a[1..];
    forall i | i in Ids(a) ensures i in {a[0].paperId} + Ids(a[1..]) {
      var e :| e in a && e.paperId == i;
    }
    forall e | e in a[1..] ensures e in a {}
  }

  lemma {:induction false} FreshAppend(seen: set<string>, a: seq<Exemplar>, b: seq<Exemplar>)
    ensures Fresh(seen, a + b) == Fresh(seen, a) + Fresh(seen + Ids(a), b)
    decreases |a|
  {
    if a == [] {
      assert a + b == b && seen + Ids(a) == seen;
    } else {
      assert (a + b)[1..] == a[1..] + b;
      IdsCons(a);
      if a[0].paperId in seen {
        FreshAppend(seen, a[1..], b);
        assert seen + Ids(a) == seen + Ids(a[1..]);
      } else {
        FreshAppend(seen + {a[0].paperId}, a[1..], b);
        assert seen + Ids(a) == seen + {a[0].paperId} + Ids(a[1..]);
      }
    }
  }

  lemma FreshIdsStep(seen: set<string>, first: Exemplar, rest: seq<Exemplar>, tail: seq<Exemplar>)
    requires first.paperId !in seen
    requires Ids(tail) == Ids(rest) - (seen + {first.paperId}) && |Ids(tail)| == |tail|
    ensures Ids([first] + tail) == Ids([first] + rest) - seen
    ensures |Ids([first] + tail)| == |[first] + tail|
  {
    var i := first.paperId;
    IdsCons([first] + tail);
    IdsCons([first] + rest);
    assert ([first] + tail)[1..] == tail && ([first] + rest)[1..] == rest;
    assert i !in Ids(tail);
  }

  /** No id appears twice, and none is missed. */
  lemma {:induction false} FreshIds(seen: set<string>, es: seq<Exemplar>)
    ensures Ids(Fresh(seen, es)) == Ids(es) - seen
    ensures |Ids(Fresh(seen, es))| == |Fresh(seen, es)|
    decreases |es|
  {
    if es != [] {
      var first, rest := es[0], es[1..];
      assert es == [first] + rest;
      if first.paperId in seen {
        IdsCons(es);
        FreshIds(seen, rest);
      } else {
        FreshIds(seen + {first.paperId}, rest);
        FreshIdsStep(seen, first, rest, Fresh(seen + {first.paperId}, rest));
      }
    }
  }

  /******* The library *******/

  // How far one stage may fill the list: a stage stops after the addition that reaches k.
  function Limit(k: int, n: nat): nat {
    if k > n then k else n + 1
  }

  // After i items with no stop.
  predicate Adding(picked: seq<Exemplar>, seen: set<string>, items: seq<Exemplar>, i: nat, more: seq<Exemplar>, known: set<string>) {
    i <= |items| && more == picked + Fresh(seen, items[..i]) && known == seen + Ids(items[..i])
  }

  lemma IdsAppend(a: seq<Exemplar>, b: seq<Exemplar>)
    ensures Ids(a + b) == Ids(a) + Ids(b)
  {
    forall i | i in Ids(a) + Ids(b) ensures i in Ids(a + b) {
      if i in Ids(a) {
        var e :| e in a && e.paperId == i;
        assert e in a + b;
      } else {
        var e :| e in b && e.paperId == i;
        assert e in a + b;
      }
    }
  }

  lemma FreshOneMore(seen: set<string>, items: seq<Exemplar>, i: nat)
    requires i < |items|
    ensures Fresh(seen, items[..i + 1])
         == Fresh(seen, items[..i]) + (if items[i].paperId in seen + Ids(items[..i]) then [] else [items[i]])
    ensures seen + Ids(items[..i + 1]) == seen + Ids(items[..i]) + {items[i].paperId}
  {
    var a, b := items[..i], [items[i]];
    assert items[..i + 1] == a + b;
    FreshAppend(seen, a, b);
    assert b[1..] == [];
    IdsAppend(a, b);
    IdsCons(b);
  }

  lemma AddingOne(picked: seq<Exemplar>, seen: set<string>, items: seq<Exemplar>, i: nat, more: seq<Exemplar>, known: set<string>)
    requires Adding(picked, seen, items, i, more, known) && i < |items|
    ensures items[i].paperId in known ==> Adding(picked, seen, items, i + 1, more, known)
    ensures items[i].paperId !in known ==>
      Adding(picked, seen, items, i + 1, more + [items[i]], known + {items[i].paperId})
  {
    FreshOneMore(seen, items, i);
  }

  lemma FreshPrefix(picked: seq<Exemplar>, seen: set<string>, items: seq<Exemplar>, i: nat)
    requires i <= |items|
    ensures var part := picked + Fresh(seen, items[..i]);
            var all := picked + Fresh(seen, items);
            |part| <= |all| && First(|part|, all) == part
  {
    assert items == items[..i] + items[i..];
    FreshAppend(seen, items[..i], items[i..]);
    var rest := Fresh(seen + Ids(items[..i]), items[i..]);
    assert picked + Fresh(seen, items) == picked + Fresh(seen, items[..i]) + rest;
  }

  method Add(picked: seq<Exemplar>, seen: set<string>, items: seq<Exemplar>, k: int) returns (more: seq<Exemplar>, known: set<string>)
    requires |picked| < k || picked == []
    ensures more == First(Limit(k, |picked|), picked + Fresh(seen, items))
    ensures |more| < Limit(k, |picked|) ==> known == seen + Ids(items)
  {
    more, known := picked, seen;
    for i := 0 to |items|
      invariant Adding(picked, seen, items, i, more, known)
      invariant |more| < k || more == []
    {
      AddingOne(picked, seen, items, i, more, known);
      if items[i].paperId in known { continue; }
      known := known + {items[i].paperId};
      more := more + [items[i]];
      if |more| >= k {
        FreshPrefix(picked, seen, items, i + 1);
        return;
      }
    }
    assert items[..|items|] == items;
  }

  // What the stages so far have done: all the fresh candidates while there is room, else the first k of them.
  predicate Staged(picked: seq<Exemplar>, seen: set<string>, done: seq<Exemplar>, k: int) {
    if k <= 0 then |picked| <= 1
    else if |picked| < k then picked == Fresh({}, done) && seen == Ids(done)
    else picked == First(k, Fresh({}, done))
  }

  lemma AddStage(picked: seq<Exemplar>, seen: set<string>, done: seq<Exemplar>, items: seq<Exemplar>, k: int, more: seq<Exemplar>, known: set<string>)
    requires Staged(picked, seen, done, k) && (|picked| < k || picked == [])
    requires more == First(Limit(k, |picked|), picked + Fresh(seen, items))
    requires |more| < Limit(k, |picked|) ==> known == seen + Ids(items)
    ensures Staged(more, known, done + items, k)
  {
    if k > 0 {
      FreshAppend({}, done, items);
      IdsAppend(done, items);
      assert {} + Ids(done) == Ids(done);
    }
  }

  // A full list is not changed by later stages.
  lemma SkipStage(picked: seq<Exemplar>, seen: set<string>, done: seq<Exemplar>, items: seq<Exemplar>, k: int)
    requires Staged(picked, seen, done, k) && |picked| >= k
    ensures Staged(picked, seen, done + items, k)
  {
    FreshAppend({}, done, items);
  }

  lemma StagedResult(picked: seq<Exemplar>, seen: set<string>, done: seq<Exemplar>, k: int)
    requires Staged(picked, seen, done, k)
    ensures SliceTo(picked, k) == First(k, Fresh({}, done))
  {
  }

  method Stage(picked: seq<Exemplar>, seen: set<string>, ghost done: seq<Exemplar>, items: seq<Exemplar>, k: int)
    returns (more: seq<Exemplar>, known: set<string>)
    requires Staged(picked, seen, done, k) && (|picked| < k || picked == [])
    ensures Staged(more, known, done + items, k)
  {
    more, known := Add(picked, seen, items, k);
    AddStage(picked, seen, done, items, k, more, known);
  }

  method StageIfRoom(picked: seq<Exemplar>, seen: set<string>, ghost done: seq<Exemplar>, items: seq<Exemplar>, k: int)
    returns (more: seq<Exemplar>, known: set<string>)
    requires Staged(picked, seen, done, k)
    ensures Staged(more, known, done + items, k)
  {
    more, known := picked, seen;
    if |picked| < k {
      more, known := Stage(picked, seen, done, items, k);
    } else {
      SkipStage(picked, seen, done, items, k);
    }
  }

  // One stage after another, each only while there is room.
  method InStages(bucket: seq<Exemplar>, same: seq<Exemplar>, sibling: seq<Exemplar>, all: seq<Exemplar>, k: int) returns (r: seq<Exemplar>)
    ensures r == First(k, Fresh({}, bucket + same + sibling + all))
  {
    var picked, seen := Stage([], {}, [], bucket, k);
    assert [] + bucket == bucket;
    picked, seen := StageIfRoom(picked, seen, bucket, same, k);
    picked, seen := StageIfRoom(picked, seen, bucket + same, sibling, k);
    picked, seen := StageIfRoom(picked, seen, bucket + same + sibling, all, k);
    StagedResult(picked, seen, bucket + same + sibling + all, k);
    r := SliceTo(picked, k);
  }

  lemma BucketOneMore(es: seq<Exemplar>, i: nat, f: string, l: string)
    requires i < |es|
    ensures OfBucket(es[..i + 1], f, l) == OfBucket(es[..i], f, l) + (if es[i].family == f && es[i].letter == l then [es[i]] else [])
  {
    assert es[..i + 1] == es[..i] + [es[i]];
    FilterAppend(es[..i], [es[i]], (e: Exemplar) => e.family == f && e.letter == l);
  }

  function BucketAt(buckets: map<(string, string), seq<Exemplar>>, key: (string, string)): seq<Exemplar> {
    if key in buckets then buckets[key] else []
  }

  method FillBuckets(es: seq<Exemplar>) returns (b: map<(string, string), seq<Exemplar>>)
    ensures forall key: (string, string) :: BucketAt(b, key) == OfBucket(es, key.0, key.1)
  {
    b := map[];
    for i := 0 to |es|
      invariant forall key: (string, string) :: BucketAt(b, key) == OfBucket(es[..i], key.0, key.1)
    {
      var key := (es[i].family, es[i].letter);
      forall k: (string, string) ensures OfBucket(es[..i + 1], k.0, k.1) == OfBucket(es[..i], k.0, k.1) + (if k == key then [es[i]] else []) {
        BucketOneMore(es, i, k.0, k.1);
      }
      b := b[key := BucketAt(b, key) + [es[i]]];
    }
    assert es[..|es|] == es;
  }

  method SortBuckets(b: map<(string, string), seq<Exemplar>>) returns (sorted: map<(string, string), seq<Exemplar>>)
    ensures forall key :: BucketAt(sorted, key) == Ranked(BucketAt(b, key))
  {
    sorted := b;
    var left := b.Keys;
    while left != {}
      invariant left <= b.Keys && sorted.Keys == b.Keys
      invariant forall key :: key in b ==> sorted[key] == if key in left then b[key] else Ranked(b[key])
      decreases |left|
    {
      var key :| key in left;
      sorted := sorted[key := Ranked(sorted[key])];
      left := left - {key};
    }
  }

  class FewShotLibrary {
    var exemplars: seq<Exemplar>
    var buckets: map<(string, string), seq<Exemplar>>

    ghost predicate Valid()
      reads this
    {
      forall f, l :: BucketIs(f, l)
    }

    // The bucket of a family and letter, empty when there is none.
    ghost predicate BucketIs(f: string, l: string)
      reads this
    {
      (if (f, l) in buckets then buckets[(f, l)] else []) == Ranked(OfBucket(exemplars, f, l))
    }

    constructor (es: seq<Exemplar>)
      ensures Valid() && exemplars == es
    {
      exemplars := es;
      var filled := FillBuckets(es);
      var sorted := SortBuckets(filled);
      buckets := sorted;
    }

    method TopK(competitionType: string, problemLetter: Option<string>, upper: string -> string, k: int) returns (r: seq<Exemplar>)
      requires Valid()
      ensures r == First(k, Fresh({}, Candidates(exemplars, NormalizeFamily(competitionType),
                                                 if problemLetter.Some? then upper(problemLetter.value) else "")))
    {
      r := Retrieve(NormalizeFamily(competitionType), if problemLetter.Some? then upper(problemLetter.value) else "", k);
    }

    method Retrieve(family: string, letter: string, k: int) returns (r: seq<Exemplar>)
      requires Valid()
      ensures r == First(k, Fresh({}, Candidates(exemplars, family, letter)))
    {
      var bucket := if letter != "" && (family, letter) in buckets then buckets[(family, letter)] else [];
      assert BucketIs(family, letter);
      r := InStages(bucket, Ranked(OfFamily(exemplars, family)), SiblingPart(exemplars, family), Ranked(exemplars), k);
    }
  }

  /******* What retrieval returns *******/

  lemma RankedMembers(es: seq<Exemplar>)
    ensures forall e :: e in Ranked(es) <==> e in es
    ensures Ids(Ranked(es)) == Ids(es)
  {
    SortMembers(es, Ranks);
  }

  lemma {:induction false} FilterMembers(es: seq<Exemplar>, p: Exemplar -> bool)
    ensures forall e :: e in Filter(es, p) <==> e in es && p(e)
  {
    if es != [] {
      FilterMembers(es[1..], p);
      assert es == [es[0]] + es[1..];
    }
  }

  lemma PartsFromLibrary(es: seq<Exemplar>, family: string, letter: string)
    ensures forall e :: e in Ranked(OfBucket(es, family, letter)) <==> e in es && e.family == family && e.letter == letter
    ensures forall e :: e in Ranked(OfFamily(es, family)) <==> e in es && e.family == family
  {
    RankedMembers(OfBucket(es, family, letter));
    RankedMembers(OfFamily(es, family));
    FilterMembers(es, (e: Exemplar) => e.family == family && e.letter == letter);
    FilterMembers(es, (e: Exemplar) => e.family == family);
  }

  lemma IdsSubset(a: seq<Exemplar>, b: seq<Exemplar>)
    requires forall e <- a :: e in b
    ensures Ids(a) <= Ids(b)
  {
  }

  lemma CandidateIds(es: seq<Exemplar>, family: string, letter: string)
    ensures Ids(Candidates(es, family, letter)) == Ids(es)
  {
    PartsFromLibrary(es, family, letter);
    if Sibling(family).Some? { PartsFromLibrary(es, Sibling(family).value, letter); }
    RankedMembers(es);
    var front := (if letter == "" then [] else Ranked(OfBucket(es, family, letter))) + Ranked(OfFamily(es, family)) + SiblingPart(es, family);
    IdsAppend(front, Ranked(es));
    assert forall e <- front :: e in es;
    IdsSubset(front, es);
  }

  lemma {:induction false} FreshMembers(seen: set<string>, es: seq<Exemplar>)
    ensures forall e <- Fresh(seen, es) :: e in es
    decreases |es|
  {
    if es != [] {
      assert es == [es[0]] + es[1..];
      FreshMembers(seen, es[1..]);
      FreshMembers(seen + {es[0].paperId}, es[1..]);
    }
  }

  lemma SetSum(a: set<string>, b: set<string>)
    ensures |a + b| <= |a| + |b|
  {
    assert a + b == a + (b - a);
    assert |a + (b - a)| == |a| + |b - a|;
    assert b == (b - a) + (b * a);
  }

  lemma {:induction false} IdsBound(es: seq<Exemplar>)
    ensures |Ids(es)| <= |es|
    decreases |es|
  {
    if es != [] {
      IdsCons(es);
      IdsBound(es[1..]);
      SetSum({es[0].paperId}, Ids(es[1..]));
    }
  }

  lemma PrefixDistinct(es: seq<Exemplar>, k: nat)
    requires |Ids(es)| == |es| && k <= |es|
    ensures |Ids(es[..k])| == k
  {
    assert es == es[..k] + es[k..];
    IdsAppend(es[..k], es[k..]);
    IdsBound(es[..k]);
    IdsBound(es[k..]);
    SetSum(Ids(es[..k]), Ids(es[k..]));
  }

  /** Retrieval gives exactly as many exemplars as asked for or as there are distinct ids, all with distinct ids. */
  lemma ExactSize(es: seq<Exemplar>, family: string, letter: string, k: int)
    ensures var r := First(k, Fresh({}, Candidates(es, family, letter)));
            && |r| == (if k <= 0 then 0 else if k <= |Ids(es)| then k else |Ids(es)|)
            && |Ids(r)| == |r| && r <= Fresh({}, Candidates(es, family, letter))
  {
    var c := Candidates(es, family, letter);
    CandidateIds(es, family, letter);
    FreshIds({}, c);
    assert Ids(c) - {} == Ids(es);
    if 0 < k <= |Fresh({}, c)| { PrefixDistinct(Fresh({}, c), k); }
  }

  lemma BucketPrefix(bucket: seq<Exemplar>, f: seq<Exemplar>, s: seq<Exemplar>, a: seq<Exemplar>, k: int)
    requires k <= |Ids(bucket)|
    ensures First(k, Fresh({}, bucket + f + s + a)) == First(k, Fresh({}, bucket))
    ensures forall e <- First(k, Fresh({}, bucket)) :: e in bucket
  {
    FreshIds({}, bucket);
    assert Ids(bucket) - {} == Ids(bucket);
    assert bucket + f + s + a == bucket + (f + s + a);
    FreshAppend({}, bucket, f + s + a);
    FreshMembers({}, bucket);
  }

  /** A letter whose bucket holds enough distinct papers gets only that bucket's, best first. */
  lemma BucketFirst(es: seq<Exemplar>, family: string, letter: string, k: int)
    requires letter != "" && k <= |Ids(OfBucket(es, family, letter))|
    ensures var r := First(k, Fresh({}, Candidates(es, family, letter)));
            && r == First(k, Fresh({}, Ranked(OfBucket(es, family, letter))))
            && forall e <- r :: e in es && e.family == family && e.letter == letter
  {
    RankedMembers(OfBucket(es, family, letter));
    PartsFromLibrary(es, family, letter);
    BucketPrefix(Ranked(OfBucket(es, family, letter)), Ranked(OfFamily(es, family)), SiblingPart(es, family), Ranked(es), k);
  }

  // The stages that stay inside the asked family and its sibling.
  function Kin(es: seq<Exemplar>, family: string, letter: string): seq<Exemplar> {
    (if letter == "" then [] else Ranked(OfBucket(es, family, letter))) + Ranked(OfFamily(es, family)) + SiblingPart(es, family)
  }

  predicate IsKin(e: Exemplar, family: string) {
    e.family == family || Sibling(family) == Some(e.family)
  }

  lemma FamilyMembers(es: seq<Exemplar>, family: string)
    ensures forall e :: e in Ranked(OfFamily(es, family)) <==> e in es && e.family == family
  {
    RankedMembers(OfFamily(es, family));
    FilterMembers(es, (e: Exemplar) => e.family == family);
  }

  lemma KinMembers(es: seq<Exemplar>, family: string, letter: string)
    ensures forall e :: e in Kin(es, family, letter) <==> e in es && IsKin(e, family)
  {
    FamilyMembers(es, family);
    if Sibling(family).Some? { FamilyMembers(es, Sibling(family).value); }
    PartsFromLibrary(es, family, letter);
  }

  /** While the asked family and its sibling hold enough distinct papers, no other family is used. */
  lemma KinFirst(es: seq<Exemplar>, family: string, letter: string, k: int)
    requires k <= |Ids(Kin(es, family, letter))|
    ensures forall e <- First(k, Fresh({}, Candidates(es, family, letter))) :: e in es && IsKin(e, family)
  {
    KinMembers(es, family, letter);
    var kin := Kin(es, family, letter);
    BucketPrefix(kin, Ranked(es), [], [], k);
    assert Candidates(es, family, letter) == kin + Ranked(es) + [] + [];
  }

  /** Each stage is its exemplars in rank order, equal ones in library order. */
  lemma RankedIsStable(es: seq<Exemplar>, p: Exemplar -> bool)
    requires OneRank(p, Ranks)
    ensures Sorted(Ranked(es), Ranks) && multiset(Ranked(es)) == multiset(es)
    ensures Filter(Ranked(es), p) == Filter(es, p)
  {
    assert TotalPreorder(Ranks);
    SortSorts(es, Ranks);
    SortContents(es, Ranks);
    SortStable(es, Ranks, p);
  }

  /** Within a stage, a sensitivity section comes first, then a strengths section, then the later year. */
  lemma BestComesFirst(es: seq<Exemplar>, i: nat, j: nat)
    requires i < j < |Ranked(es)|
    ensures var a, b := Ranked(es)[i], Ranked(es)[j];
            && (b.hasSensitivity ==> a.hasSensitivity)
            && (a.hasSensitivity == b.hasSensitivity && b.hasStrengths ==> a.hasStrengths)
            && (a.hasSensitivity == b.hasSensitivity && a.hasStrengths == b.hasStrengths ==> a.year >= b.year)
  {
    assert TotalPreorder(Ranks);
    SortSorts(es, Ranks);
    assert Ranks(Ranked(es)[i], Ranked(es)[j]);
  }
}
