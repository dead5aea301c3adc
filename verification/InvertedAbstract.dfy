/**
 OpenAlex abstracts come as `{word: [positions]}`: rebuilding the prose from such an index.
 */
module InvertedAbstract {
  import opened Wrappers
  import opened Text
  import opened Sorting
  import opened Replace

  // A list item: an integer, a boolean (an integer too in Python), or anything else.
  datatype Item = Int(n: int) | Bool(b: bool) | Junk

  // One dictionary entry, where a key that is no string or a value that is no list is None.
  datatype Entry = Entry(word: Option<string>, positions: Option<seq<Item>>)

  datatype Index = NotADict | Dict(entries: seq<Entry>)

  type Placed = (int, string)

  function Position(i: Item): Option<int> {
    match i
    case Int(n) => Some(n)
    case Bool(b) => Some(if b then 1 else 0)
    case Junk => None
  }

  function PairsOfList(word: string, items: seq<Item>): seq<Placed> {
    if items == [] then []
    else
      var last := items[|items| - 1];
      PairsOfList(word, items[..|items| - 1])
      + (if Position(last).Some? then [(Position(last).value, word)] else [])
  }

  predicate IsGood(e: Entry) {
    e.word.Some? && e.positions.Some?
  }

  function PairsOf(e: Entry): seq<Placed> {
    if IsGood(e) then PairsOfList(e.word.value, e.positions.value) else []
  }

  function Pairs(entries: seq<Entry>): seq<Placed> {
    if entries == [] then [] else Pairs(entries[..|entries| - 1]) + PairsOf(entries[|entries| - 1])
  }

  predicate Earlier(a: Placed, b: Placed) {
    a.0 <= b.0
  }

  function Words(ps: seq<Placed>): seq<string> {
    seq(|ps|, i requires 0 <= i < |ps| => ps[i].1)
  }

  function Spaced(words: seq<string>): string {
    if words == [] then "" else Join(words, " ")
  }

  /** The pairs in stable position order, spaced. */
  function Prose(idx: Index): string {
    match idx
    case NotADict => ""
    case Dict(entries) => Spaced(Words(Sort(Pairs(entries), Earlier)))
  }

  method AppendPairs(pairs: seq<Placed>, word: string, items: seq<Item>) returns (more: seq<Placed>)
    ensures more == pairs + PairsOfList(word, items)
  {
    more := pairs;
    for j := 0 to |items|
      invariant more == pairs + PairsOfList(word, items[..j])
    {
      assert items[..j + 1][..j] == items[..j];
      if Position(items[j]).Some? {
        more := more + [(Position(items[j]).value, word)];
      }
    }
    assert items[..|items|] == items;
  }

  method ReconstructInvertedAbstract(idx: Index) returns (text: string)
    ensures text == Prose(idx)
  {
    if idx.NotADict? || idx.entries == [] { return ""; }
    var entries := idx.entries;
    var pairs: seq<Placed> := [];
    for k := 0 to |entries|
      invariant pairs == Pairs(entries[..k])
    {
      assert entries[..k + 1][..k] == entries[..k];
      var e := entries[k];
      if !IsGood(e) { continue; }
      pairs := AppendPairs(pairs, e.word.value, e.positions.value);
    }
    assert entries[..|entries|] == entries;
    if pairs == [] { return ""; }
    SortMembers(pairs, Earlier);
    pairs := Sort(pairs, Earlier);
    text := Join(Words(pairs), " ");
  }

  /******* Round trip *******/

  // An integer names itself; so do booleans, which are 1 and 0.
  predicate Names(i: Item, p: int) {
    i == Int(p) || (i == Bool(true) && p == 1) || (i == Bool(false) && p == 0)
  }

  // How often the list names position p.
  function Mentions(items: seq<Item>, p: int): nat {
    if items == [] then 0
    else Mentions(items[..|items| - 1], p) + (if Names(items[|items| - 1], p) then 1 else 0)
  }

  predicate HasWord(e: Entry, w: string) {
    IsGood(e) && e.word.value == w
  }

  ghost predicate NamesItsPlaces(e: Entry, ws: seq<string>)
    requires IsGood(e)
  {
    forall p :: Mentions(e.positions.value, p) == if 0 <= p < |ws| && ws[p] == e.word.value then 1 else 0
  }

  /** The index of a text: each word has at most one entry, which names each of its positions once and no
      other number, in any order; entries and items that are not what they should be may stand anywhere. */
  ghost predicate Describes(entries: seq<Entry>, ws: seq<string>) {
    && (forall i, j :: 0 <= i < j < |entries| && IsGood(entries[i]) && IsGood(entries[j]) ==> entries[i].word != entries[j].word)
    && (forall e <- entries :: IsGood(e) ==> NamesItsPlaces(e, ws))
    && (forall p :: 0 <= p < |ws| ==> exists e :: e in entries && HasWord(e, ws[p]))
  }

  lemma {:induction false} CountInList(word: string, items: seq<Item>, p: int, w: string)
    ensures multiset(PairsOfList(word, items))[(p, w)] == if w == word then Mentions(items, p) else 0
  {
    if items != [] {
      CountInList(word, items[..|items| - 1], p, w);
    }
  }

  function EntryMentions(e: Entry, p: int, w: string): nat {
    if HasWord(e, w) then Mentions(e.positions.value, p) else 0
  }

  lemma CountInEntry(e: Entry, p: int, w: string)
    ensures multiset(PairsOf(e))[(p, w)] == EntryMentions(e, p, w)
  {
    if IsGood(e) { CountInList(e.word.value, e.positions.value, p, w); }
  }

  function AllMentions(entries: seq<Entry>, p: int, w: string): nat {
    if entries == [] then 0 else AllMentions(entries[..|entries| - 1], p, w) + EntryMentions(entries[|entries| - 1], p, w)
  }

  lemma {:induction false} CountInAll(entries: seq<Entry>, p: int, w: string)
    ensures multiset(Pairs(entries))[(p, w)] == AllMentions(entries, p, w)
  {
    if entries != [] {
      CountInAll(entries[..|entries| - 1], p, w);
      CountInEntry(entries[|entries| - 1], p, w);
    }
  }

  lemma {:induction false} NoEntryNoMention(entries: seq<Entry>, p: int, w: string)
    requires forall j :: 0 <= j < |entries| ==> !HasWord(entries[j], w)
    ensures AllMentions(entries, p, w) == 0
  {
    if entries != [] { NoEntryNoMention(entries[..|entries| - 1], p, w); }
  }

  lemma {:induction false} OneEntryMentions(entries: seq<Entry>, k: nat, p: int, w: string)
    requires k < |entries|
    requires forall j :: 0 <= j < |entries| && j != k ==> !HasWord(entries[j], w)
    ensures AllMentions(entries, p, w) == EntryMentions(entries[k], p, w)
  {
    if k == |entries| - 1 {
      NoEntryNoMention(entries[..k], p, w);
    } else {
      OneEntryMentions(entries[..|entries| - 1], k, p, w);
    }
  }

  function Numbered(ws: seq<string>): seq<Placed> {
    seq(|ws|, i requires 0 <= i < |ws| => (i, ws[i]))
  }

  lemma {:induction false} CountInNumbered(ws: seq<string>, p: int, w: string)
    ensures multiset(Numbered(ws))[(p, w)] == if 0 <= p < |ws| && ws[p] == w then 1 else 0
  {
    if ws != [] {
      var n := |ws| - 1;
      CountInNumbered(ws[..n], p, w);
      assert Numbered(ws) == Numbered(ws[..n]) + [(n, ws[n])];
    }
  }

  lemma CountsAgree(entries: seq<Entry>, ws: seq<string>, p: int, w: string)
    requires Describes(entries, ws)
    ensures multiset(Pairs(entries))[(p, w)] == multiset(Numbered(ws))[(p, w)]
  {
    CountInNumbered(ws, p, w);
    CountInAll(entries, p, w);
    if exists k :: 0 <= k < |entries| && HasWord(entries[k], w) {
      var k :| 0 <= k < |entries| && HasWord(entries[k], w);
      assert entries[k] in entries && NamesItsPlaces(entries[k], ws);
      forall j | 0 <= j < |entries| && j != k ensures !HasWord(entries[j], w) {
        assert IsGood(entries[j]) ==> entries[j].word != entries[k].word;
      }
      OneEntryMentions(entries, k, p, w);
    } else {
      assert forall e <- entries :: !HasWord(e, w);
      NoEntryNoMention(entries, p, w);
    }
  }

  lemma SamePairs(entries: seq<Entry>, ws: seq<string>)
    requires Describes(entries, ws)
    ensures multiset(Pairs(entries)) == multiset(Numbered(ws))
  {
    forall x: Placed ensures multiset(Pairs(entries))[x] == multiset(Numbered(ws))[x] {
      CountsAgree(entries, ws, x.0, x.1);
    }
  }

  lemma SortedIsNumbered(ps: seq<Placed>, ws: seq<string>)
    requires multiset(ps) == multiset(Numbered(ws))
    ensures Sort(ps, Earlier) == Numbered(ws)
  {
    SortContents(ps, Earlier);
    SortSorts(ps, Earlier);
    StrictIsSort(Numbered(ws), Sort(ps, Earlier), Earlier);
  }

  /** Whatever the order of the dictionary and of the position lists, and whatever junk stands between them,
      the text comes back word for word. */
  lemma ProseOfIndex(entries: seq<Entry>, ws: seq<string>)
    requires Describes(entries, ws)
    ensures Prose(Dict(entries)) == Spaced(ws)
  {
    SamePairs(entries, ws);
    SortedIsNumbered(Pairs(entries), ws);
    assert Words(Numbered(ws)) == ws;
  }

  lemma SpacedCons(w: string, rest: seq<string>)
    requires rest != []
    ensures Spaced([w] + rest) == w + " " + Spaced(rest)
  {
    JoinCons(w, rest, " ");
  }

  lemma NoSpaceFound(w: string, rest: string)
    requires ' ' !in w
    ensures Find(w, " ", 0) == None
    ensures Find(w + " " + rest, " ", 0) == Some(|w|)
  {
    var s := w + " " + rest;
    assert s[|w|..|w| + 1] == " ";
    forall j: nat | j < |w| ensures !At(s, " ", j) && !At(w, " ", j) {
      assert s[j] == w[j] && w[j] in w;
      assert s[j..j + 1][0] == s[j] && w[j..j + 1][0] == w[j];
    }
    FindUnique(s, " ", 0, |w|);
  }

  /** The words can be read back from the prose: cut at its spaces, it gives them in order. */
  lemma {:induction false} SplitOfSpaced(ws: seq<string>)
    requires ws != [] && forall w <- ws :: ' ' !in w
    ensures Split(Spaced(ws), " ") == ws
  {
    var w, rest := ws[0], ws[1..];
    assert ws == [w] + rest;
    assert w in ws;
    NoSpaceFound(w, Spaced(rest));
    if rest != [] {
      SpacedCons(w, rest);
      SplitOfSpaced(rest);
      var s := w + " " + Spaced(rest);
      assert s[..|w|] == w && s[|w| + 1..] == Spaced(rest);
    }
  }

  /** So whatever the order of the index, cutting the rebuilt prose at its spaces gives the words of the text. */
  lemma WordsOfProse(entries: seq<Entry>, ws: seq<string>)
    requires Describes(entries, ws) && ws != [] && forall w <- ws :: ' ' !in w
    ensures Split(Prose(Dict(entries)), " ") == ws
  {
    ProseOfIndex(entries, ws);
    SplitOfSpaced(ws);
  }
}
