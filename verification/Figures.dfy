/**
 Figure placeholders `[[FIG:id]]`: the export route's scanner, and the worker's pattern for the same text.
 */
module Figures {
  import opened Wrappers
  import opened Text
  import Latex

  const OPEN: string := "[[FIG:"
  const CLOSE: string := "]]"

  // A placeholder and the text before it.
  datatype Item = Item(literal: string, id: string)

  /** A body cut at its placeholders. */
  datatype Doc = Doc(items: seq<Item>, tail: string)

  function Push(i: Item, d: Doc): Doc {
    Doc([i] + d.items, d.tail)
  }

  // The first placeholder of a text: what precedes it, its id, and what follows it.
  datatype Cut = End | Cut(literal: string, id: string, rest: string)

  function Placeholder(id: string): string {
    OPEN + id + CLOSE
  }

  lemma Pieces(body: string, i: nat, j: nat)
    requires At(body, OPEN, i) && At(body[i + |OPEN|..], CLOSE, j)
    ensures body == body[..i] + Placeholder(body[i + |OPEN|..][..j]) + body[i + |OPEN|..][j + |CLOSE|..]
  {
    var after := body[i + |OPEN|..];
    assert after == after[..j] + CLOSE + after[j + |CLOSE|..];
    assert body == body[..i] + OPEN + after;
  }

  function FirstCut(body: string): (c: Cut)
    ensures c.Cut? ==> |c.rest| < |body| && body == c.literal + Placeholder(c.id) + c.rest
  {
    match Find(body, OPEN, 0)
    case None => End
    case Some(i) =>
      var after := body[i + |OPEN|..];
      match Find(after, CLOSE, 0)
      case None => End
      case Some(j) =>
        Pieces(body, i, j);
        Cut(body[..i], after[..j], after[j + |CLOSE|..])
  }

  function Parse(body: string): Doc
    decreases |body|
  {
    match FirstCut(body)
    case End => Doc([], body)
    case Cut(literal, id, rest) => Push(Item(literal, id), Parse(rest))
  }

  function Fill(d: Doc, block: string -> string): string
    decreases |d.items|
  {
    if d.items == [] then d.tail
    else d.items[0].literal + block(d.items[0].id) + Fill(Doc(d.items[1..], d.tail), block)
  }

  function Print(d: Doc): string {
    Fill(d, Placeholder)
  }

  lemma FillPush(i: Item, d: Doc, block: string -> string)
    ensures Fill(Push(i, d), block) == i.literal + block(i.id) + Fill(d, block)
  {
    assert Push(i, d).items[1..] == d.items;
  }

  /******* Parsing and printing are inverse *******/

  /** No text is lost or reordered by the cut. */
  lemma {:induction false} PrintOfParse(body: string)
    ensures Print(Parse(body)) == body
    decreases |body|
  {
    match FirstCut(body)
    case End =>
    case Cut(literal, id, rest) =>
      PrintOfParse(rest);
      FillPush(Item(literal, id), Parse(rest), Placeholder);
  }

  // Each placeholder's text reaches to the first opener, and its id to the first closer after it.
  predicate ItemOk(i: Item) {
    && Find(i.literal + OPEN, OPEN, 0) == Some(|i.literal|)
    && Find(i.id + CLOSE, CLOSE, 0) == Some(|i.id|)
  }

  predicate TailOk(tail: string) {
    match Find(tail, OPEN, 0)
    case None => true
    case Some(i) => Find(tail[i + |OPEN|..], CLOSE, 0) == None
  }

  predicate Canonical(d: Doc) {
    (forall i <- d.items :: ItemOk(i)) && TailOk(d.tail)
  }

  // A search meets nothing new when text is put behind the occurrence it stops at.
  lemma FindBefore(s: string, pat: string, t: string)
    requires Find(s + pat, pat, 0) == Some(|s|)
    ensures Find(s + pat + t, pat, 0) == Some(|s|)
  {
    var all := s + pat + t;
    assert all[|s|..|s| + |pat|] == pat;
    forall j: nat | j < |s| ensures !At(all, pat, j) {
      assert !At(s + pat, pat, j);
      assert all[j..j + |pat|] == (s + pat)[j..j + |pat|];
    }
    FindUnique(all, pat, 0, |s|);
  }

  lemma FindUpTo(s: string, pat: string, i: nat)
    requires Find(s, pat, 0) == Some(i)
    ensures Find(s[..i] + pat, pat, 0) == Some(i)
  {
    var cut := s[..i] + pat;
    assert s[..i + |pat|] == cut;
    assert cut[i..i + |pat|] == pat;
    forall j: nat | j < i ensures !At(cut, pat, j) {
      assert !At(s, pat, j);
      assert cut[j..j + |pat|] == s[j..j + |pat|];
    }
    FindUnique(cut, pat, 0, i);
  }

  lemma FirstCutIsOk(body: string)
    ensures match FirstCut(body)
            case End => TailOk(body)
            case Cut(literal, id, rest) => ItemOk(Item(literal, id))
  {
    match Find(body, OPEN, 0)
    case None =>
    case Some(i) =>
      var after := body[i + |OPEN|..];
      match Find(after, CLOSE, 0)
      case None =>
      case Some(j) =>
        FindUpTo(body, OPEN, i);
        FindUpTo(after, CLOSE, j);
  }

  lemma {:induction false} ParseIsCanonical(body: string)
    ensures Canonical(Parse(body))
    decreases |body|
  {
    FirstCutIsOk(body);
    match FirstCut(body)
    case End =>
    case Cut(_, _, rest) => ParseIsCanonical(rest);
  }

  lemma FirstCutOfItem(i: Item, t: string)
    requires ItemOk(i)
    ensures FirstCut(i.literal + Placeholder(i.id) + t) == Cut(i.literal, i.id, t)
  {
    var after := i.id + CLOSE + t;
    var body := i.literal + OPEN + after;
    assert i.literal + Placeholder(i.id) + t == body;
    FindBefore(i.literal, OPEN, after);
    assert body[|i.literal| + |OPEN|..] == after && body[..|i.literal|] == i.literal;
    FindBefore(i.id, CLOSE, t);
    assert after[|i.id| + |CLOSE|..] == t && after[..|i.id|] == i.id;
  }

  lemma ParseOfPushed(i: Item, d: Doc, text: string)
    requires ItemOk(i) && text == Print(d) && Parse(text) == d
    ensures Parse(Print(Push(i, d))) == Push(i, d)
  {
    FillPush(i, d, Placeholder);
    FirstCutOfItem(i, text);
  }

  lemma ParseOfTail(tail: string)
    requires TailOk(tail)
    ensures Parse(tail) == Doc([], tail)
  {
  }

  /** And every canonical cut is the one its own text parses to. */
  lemma {:induction false} ParseOfPrint(d: Doc)
    requires Canonical(d)
    ensures Parse(Print(d)) == d
    decreases |d.items|
  {
    if d.items == [] {
      ParseOfTail(d.tail);
    } else {
      var rest := Doc(d.items[1..], d.tail);
      ParseOfPrint(rest);
      ParseOfPushed(d.items[0], rest, Print(rest));
      assert Push(d.items[0], rest) == d;
    }
  }

  /******* The export route's loop *******/

  datatype Width = Finite(w: real) | Infinite | NotANumber

  datatype Figure = Figure(id: string, caption: string, pathPng: string, width: Width)

  function UsedWidth(w: Width): real {
    if w.Finite? && 0.0 < w.w <= 1.0 then w.w else 0.8
  }

  function UpToCaption(fig: Figure, show: real -> string): string {
    "\n\n```{=latex}\n\\begin{figure}[htbp]\n\\centering\n\\includegraphics[width=" + show(UsedWidth(fig.width))
    + "\\textwidth]{" + fig.pathPng + "}\n\\caption{"
  }

  function BelowCaption(fig: Figure): string {
    "\n\\label{fig:" + fig.id + "}\n\\end{figure}\n```\n\n"
  }

  function Captioned(above: string, caption: string, below: string): string {
    above + (Latex.Escape(caption) + "}" + below)
  }

  function FigureLatexBlock(fig: Figure, show: real -> string): string {
    Captioned(UpToCaption(fig, show), fig.caption, BelowCaption(fig))
  }

  function FrontOf(fig: Figure, show: real -> string): string {
    "\n\n```{=latex}\n\\begin{figure}[htbp]\n\\centering\n\\includegraphics[width=" + show(UsedWidth(fig.width)) + "\\textwidth]{"
  }

  /** Brace matching from the caption's opening brace gives back exactly the caption, whatever
      characters it holds and whatever stands around it. */
  lemma CaptionSurvives(above: string, caption: string, below: string)
    ensures var inner := Captioned(above, caption, below)[|above|..];
            match Latex.BraceEnd(inner, 0)
            case Some(end) => end <= |inner| && Latex.Unescape(inner[..end]) == caption
            case None => false
  {
    var e := Latex.Escape(caption);
    var inner := e + "}" + below;
    assert Captioned(above, caption, below)[|above|..] == inner;
    assert inner[..|e|] == e;
    Latex.BraceEndOfEscaped(caption, below);
    Latex.EscapeRoundTrip(caption);
  }

  /** A figure's block holds its own caption, escaped, behind its own path and before its own id. */
  lemma BlockHoldsItsFigure(fig: Figure, show: real -> string)
    ensures FigureLatexBlock(fig, show)
         == FrontOf(fig, show) + (fig.pathPng + "}\n\\caption{")
            + (Latex.Escape(fig.caption) + "}" + ("\n\\label{fig:" + fig.id + "}\n\\end{figure}\n```\n\n"))
  {
    assert UpToCaption(fig, show) == FrontOf(fig, show) + (fig.pathPng + "}\n\\caption{");
  }

  /** So brace matching from its caption's brace gives back the figure's caption. */
  lemma BlockCaptionSurvives(fig: Figure, show: real -> string)
    ensures var inner := FigureLatexBlock(fig, show)[|UpToCaption(fig, show)|..];
            match Latex.BraceEnd(inner, 0)
            case Some(end) => end <= |inner| && Latex.Unescape(inner[..end]) == fig.caption
            case None => false
  {
    CaptionSurvives(UpToCaption(fig, show), fig.caption, BelowCaption(fig));
  }

  /** Its width is the figure's where that is over 0 and at most 1, and 0.8 otherwise. */
  lemma WidthIsClamped(w: Width)
    ensures 0.0 < UsedWidth(w) <= 1.0
    ensures w.Finite? && 0.0 < w.w <= 1.0 ==> UsedWidth(w) == w.w
    ensures !(w.Finite? && 0.0 < w.w <= 1.0) ==> UsedWidth(w) == 0.8
  {
  }

  function BlockOf(figures: map<string, Figure>, show: real -> string): string -> string {
    (id: string) => if id in figures then FigureLatexBlock(figures[id], show) else ""
  }

  lemma AtSuffix(s: string, k: nat, pat: string, i: nat)
    requires k <= |s|
    ensures At(s[k..], pat, i) <==> At(s, pat, k + i)
  {
    if k + i + |pat| <= |s| { assert s[k..][i..i + |pat|] == s[k + i..k + i + |pat|]; }
  }

  lemma SuffixHasNone(s: string, pat: string, k: nat)
    requires k <= |s| && Find(s, pat, 0) == None
    ensures Find(s[k..], pat, 0) == None
  {
    forall j: nat ensures !At(s[k..], pat, j) {
      assert !At(s, pat, k + j);
      AtSuffix(s, k, pat, j);
    }
  }

  // Text without a closer holds no placeholder.
  lemma NoCloser(body: string)
    requires Find(body, CLOSE, 0) == None
    ensures Parse(body) == Doc([], body)
  {
    match Find(body, OPEN, 0)
    case None =>
    case Some(i) => SuffixHasNone(body, CLOSE, i + |OPEN|);
  }

  lemma CutFound(s: string, i: nat, after: string, j: nat, block: string -> string)
    requires Find(s, OPEN, 0) == Some(i) && after == s[i + |OPEN|..] && Find(after, CLOSE, 0) == Some(j)
    ensures Fill(Parse(s), block) == s[..i] + block(after[..j]) + Fill(Parse(after[j + |CLOSE|..]), block)
  {
    FillPush(Item(s[..i], after[..j]), Parse(after[j + |CLOSE|..]), block);
  }

  /** An opener with no closer behind it leaves everything from there on as it was. */
  lemma UnterminatedIsVerbatim(body: string, i: nat, after: string, block: string -> string)
    requires Find(body, OPEN, 0) == Some(i) && after == body[i + |OPEN|..] && Find(after, CLOSE, 0) == None
    ensures Fill(Parse(body), block) == body == body[..i] + OPEN + Fill(Parse(after), block)
  {
    NoCloser(after);
  }

  lemma Regroup(a: string, b: string, c: string, d: string)
    ensures a + (b + c + d) == a + b + c + d
  {
  }

  /** The loop is a map over the cut: each placeholder gives its figure's block, or nothing. */
  method SubstituteFigures(body: string, figures: map<string, Figure>, show: real -> string) returns (out: string)
    ensures out == Fill(Parse(body), BlockOf(figures, show))
  {
    ghost var block := BlockOf(figures, show);
    out := "";
    var rest := body;
    while true
      invariant out + Fill(Parse(rest), block) == Fill(Parse(body), block)
      decreases |rest|
    {
      var found := Find(rest, OPEN, 0);
      if found.None? { break; }
      var i := found.value;
      var after := rest[i + |OPEN|..];
      var closer := Find(after, CLOSE, 0);
      if closer.Some? {
        var j := closer.value;
        var id := after[..j];
        CutFound(rest, i, after, j, block);
        Regroup(out, rest[..i], block(id), Fill(Parse(after[j + |CLOSE|..]), block));
        out := out + rest[..i];
        if id in figures {
          out := out + FigureLatexBlock(figures[id], show);
        } else {
          assert block(id) == "" && out + block(id) == out;
        }
        rest := after[j + |CLOSE|..];
      } else {
        UnterminatedIsVerbatim(rest, i, after, block);
        Regroup(out, rest[..i], OPEN, Fill(Parse(after), block));
        out := out + rest[..i] + OPEN;
        rest := after;
      }
    }
    out := out + rest;
  }

  /** One placeholder: the text before it stays, its figure's block takes its place if the id is known and nothing
      if it is not, and the rest is done likewise. */
  lemma OnePlaceholder(text: string, id: string, rest: string, figures: map<string, Figure>, show: real -> string)
    requires Find(text + "[[FIG:", "[[FIG:", 0) == Some(|text|) && Find(id + "]]", "]]", 0) == Some(|id|)
    ensures Fill(Parse(text + ("[[FIG:" + id + "]]") + rest), BlockOf(figures, show))
         == text + (if id in figures then FigureLatexBlock(figures[id], show) else "") + Fill(Parse(rest), BlockOf(figures, show))
  {
    FirstCutOfItem(Item(text, id), rest);
    FillPush(Item(text, id), Parse(rest), BlockOf(figures, show));
  }

  /******* The worker's pattern *******/

  predicate IsSlugChar(c: char) {
    'a' <= c <= 'z' || '0' <= c <= '9' || c == '_'
  }

  lemma SlugAlphabet(c: char)
    ensures IsSlugChar(c) <==> c in "abcdefghijklmnopqrstuvwxyz" || c in "0123456789_"
  {
  }

  predicate IsSlug(id: string) {
    id != "" && forall c <- id :: IsSlugChar(c)
  }

  // Where the run of slug characters from k ends.
  function SlugEnd(s: string, k: nat): (e: nat)
    requires k <= |s|
    ensures k <= e <= |s| && (forall i :: k <= i < e ==> IsSlugChar(s[i])) && (e < |s| ==> !IsSlugChar(s[e]))
    decreases |s| - k
  {
    if k < |s| && IsSlugChar(s[k]) then SlugEnd(s, k + 1) else k
  }

  /** The pattern matches at i: a slug run of at least one character, then the closer. */
  predicate MatchAt(s: string, i: nat) {
    && At(s, OPEN, i)
    && SlugEnd(s, i + |OPEN|) > i + |OPEN|
    && At(s, CLOSE, SlugEnd(s, i + |OPEN|))
  }

  function FirstMatch(s: string, from: nat): (r: Option<nat>)
    ensures r.Some? ==> from <= r.value && MatchAt(s, r.value) && forall j: nat :: from <= j < r.value ==> !MatchAt(s, j)
    ensures r.None? ==> forall j: nat :: from <= j ==> !MatchAt(s, j)
    decreases |s| - from
  {
    if from >= |s| then None
    else if MatchAt(s, from) then Some(from)
    else FirstMatch(s, from + 1)
  }

  function FirstPatternCut(s: string): (c: Cut)
    ensures c.Cut? ==> |c.rest| < |s| && IsSlug(c.id)
  {
    match FirstMatch(s, 0)
    case None => End
    case Some(i) =>
      var e := SlugEnd(s, i + |OPEN|);
      Cut(s[..i], s[i + |OPEN|..e], s[e + |CLOSE|..])
  }

  /** The cut at the pattern's leftmost non-overlapping matches. */
  function PatternParse(s: string): Doc
    decreases |s|
  {
    match FirstPatternCut(s)
    case End => Doc([], s)
    case Cut(literal, id, rest) => Push(Item(literal, id), PatternParse(rest))
  }

  predicate AllSlugs(d: Doc) {
    forall i <- d.items :: IsSlug(i.id)
  }

  lemma {:induction false} PatternFindsSlugs(s: string)
    ensures AllSlugs(PatternParse(s))
    decreases |s|
  {
    match FirstPatternCut(s)
    case End =>
    case Cut(_, _, rest) => PatternFindsSlugs(rest);
  }

  lemma SlugEndIs(s: string, k: nat, e: nat)
    requires k <= e < |s| && (forall i :: k <= i < e ==> IsSlugChar(s[i])) && !IsSlugChar(s[e])
    ensures SlugEnd(s, k) == e
  {
  }

  // An opener that matches has a closer behind it.
  lemma MatchHasCloser(s: string, i: nat, m: nat)
    requires MatchAt(s, m) && i <= m
    ensures Find(s[i + |OPEN|..], CLOSE, 0) != None
  {
    var k := i + |OPEN|;
    var e := SlugEnd(s, m + |OPEN|);
    assert s[k..][e - k..e - k + |CLOSE|] == s[e..e + |CLOSE|];
    assert At(s[k..], CLOSE, e - k);
  }

  lemma NoMatch(s: string)
    requires TailOk(s)
    ensures FirstMatch(s, 0) == None
  {
    var m := FirstMatch(s, 0);
    if m.Some? {
      var found := Find(s, OPEN, 0);
      assert At(s, OPEN, m.value);
      MatchHasCloser(s, found.value, m.value);
    }
  }

  lemma MatchesWhereFound(s: string, i: nat, j: nat)
    requires Find(s, OPEN, 0) == Some(i) && Find(s[i + |OPEN|..], CLOSE, 0) == Some(j)
    requires IsSlug(s[i + |OPEN|..][..j])
    ensures FirstMatch(s, 0) == Some(i) && SlugEnd(s, i + |OPEN|) == i + |OPEN| + j
  {
    var k := i + |OPEN|;
    var id := s[k..][..j];
    forall m | k <= m < k + j ensures IsSlugChar(s[m]) {
      assert s[m] == id[m - k] && id[m - k] in id;
    }
    assert s[k..][j..j + |CLOSE|] == s[k + j..k + j + |CLOSE|];
    assert s[k + j] == s[k + j..k + j + |CLOSE|][0];
    SlugEndIs(s, k, k + j);
    assert MatchAt(s, i);
    assert forall m: nat :: m < i ==> !At(s, OPEN, m);
  }

  lemma SlugCut(body: string, i: nat, c: Cut)
    requires Find(body, OPEN, 0) == Some(i) && c == FirstCut(body) && c.Cut? && IsSlug(c.id)
    ensures FirstPatternCut(body) == c
  {
    var after := body[i + |OPEN|..];
    var j := Find(after, CLOSE, 0).value;
    MatchesWhereFound(body, i, j);
    var e := i + |OPEN| + j;
    assert body[i + |OPEN|..e] == after[..j] && body[e + |CLOSE|..] == after[j + |CLOSE|..];
  }

  lemma CutsAgree(body: string)
    ensures FirstCut(body).End? ==> FirstPatternCut(body).End?
    ensures FirstCut(body).Cut? && IsSlug(FirstCut(body).id) ==> FirstPatternCut(body) == FirstCut(body)
  {
    FirstCutIsOk(body);
    if FirstCut(body).End? {
      NoMatch(body);
    } else if IsSlug(FirstCut(body).id) {
      SlugCut(body, Find(body, OPEN, 0).value, FirstCut(body));
    }
  }

  lemma PushedSlugs(i: Item, d: Doc)
    ensures AllSlugs(Push(i, d)) <==> IsSlug(i.id) && AllSlugs(d)
  {
    var all := Push(i, d).items;
    assert all[0] == i && all[1..] == d.items;
    if AllSlugs(Push(i, d)) {
      assert i in all;
      forall p | p in d.items ensures IsSlug(p.id) { assert p in all; }
    }
  }

  lemma {:induction false} SlugsAgree(body: string)
    requires AllSlugs(Parse(body))
    ensures PatternParse(body) == Parse(body)
    decreases |body|
  {
    CutsAgree(body);
    match FirstCut(body)
    case End =>
    case Cut(literal, id, rest) =>
      PushedSlugs(Item(literal, id), Parse(rest));
      SlugsAgree(rest);
  }

  /** The two scanners cut a body alike exactly when every id the first one finds is a slug. */
  lemma SameCutIffSlugs(body: string)
    ensures Parse(body) == PatternParse(body) <==> AllSlugs(Parse(body))
  {
    PatternFindsSlugs(body);
    if AllSlugs(Parse(body)) { SlugsAgree(body); }
  }

  // Every opener begins a placeholder with a slug id.
  ghost predicate CleanBody(body: string) {
    forall i: nat :: At(body, OPEN, i) ==> MatchAt(body, i)
  }

  lemma NoCloserInSlug(s: string, k: nat, e: nat)
    requires k <= e <= |s| && forall i :: k <= i < e ==> IsSlugChar(s[i])
    ensures forall j: nat :: j < e - k ==> !At(s[k..], CLOSE, j)
  {
    forall j: nat | j < e - k ensures !At(s[k..], CLOSE, j) {
      assert s[k..][j] == s[k + j];
      assert j + 2 <= |s[k..]| ==> s[k..][j..j + 2][0] == s[k + j];
    }
  }

  lemma CloserIsSlugEnd(s: string, i: nat)
    requires MatchAt(s, i)
    ensures Find(s[i + |OPEN|..], CLOSE, 0) == Some(SlugEnd(s, i + |OPEN|) - (i + |OPEN|))
    ensures IsSlug(s[i + |OPEN|..SlugEnd(s, i + |OPEN|)])
  {
    var k := i + |OPEN|;
    var e := SlugEnd(s, k);
    assert s[k..][e - k..e - k + |CLOSE|] == s[e..e + |CLOSE|];
    NoCloserInSlug(s, k, e);
    FindUnique(s[k..], CLOSE, 0, e - k);
  }

  lemma MatchInSuffix(s: string, k: nat, i: nat)
    requires k <= |s| && MatchAt(s, k + i)
    ensures MatchAt(s[k..], i)
  {
    var t := s[k..];
    var e := SlugEnd(s, k + i + |OPEN|);
    AtSuffix(s, k, OPEN, i);
    AtSuffix(s, k, CLOSE, e - k);
    assert forall m :: 0 <= m < |t| ==> t[m] == s[k + m];
    assert s[e] == s[e..e + |CLOSE|][0];
    SlugEndIs(t, i + |OPEN|, e - k);
  }

  lemma CleanSuffix(s: string, k: nat)
    requires k <= |s| && CleanBody(s)
    ensures CleanBody(s[k..])
  {
    forall i: nat | At(s[k..], OPEN, i) ensures MatchAt(s[k..], i) {
      AtSuffix(s, k, OPEN, i);
      MatchInSuffix(s, k, i);
    }
  }

  lemma CleanCut(body: string) returns (k: nat)
    requires CleanBody(body)
    ensures k <= |body| && (FirstCut(body).Cut? ==> IsSlug(FirstCut(body).id) && FirstCut(body).rest == body[k..])
  {
    match Find(body, OPEN, 0)
    case None => k := 0;
    case Some(i) =>
      CloserIsSlugEnd(body, i);
      var e := SlugEnd(body, i + |OPEN|);
      k := e + |CLOSE|;
      var after := body[i + |OPEN|..];
      assert after[..e - i - |OPEN|] == body[i + |OPEN|..e];
      assert after[e - i - |OPEN| + |CLOSE|..] == body[k..];
  }

  lemma {:induction false} CleanHasSlugs(body: string)
    requires CleanBody(body)
    ensures AllSlugs(Parse(body))
    decreases |body|
  {
    var k := CleanCut(body);
    match FirstCut(body)
    case End =>
    case Cut(literal, id, rest) =>
      CleanSuffix(body, k);
      CleanHasSlugs(rest);
      PushedSlugs(Item(literal, id), Parse(rest));
  }

  /** So on clean bodies both find the same placeholders in the same order. */
  lemma CleanBodiesAgree(body: string)
    requires CleanBody(body)
    ensures AllSlugs(Parse(body)) && Parse(body) == PatternParse(body)
  {
    CleanHasSlugs(body);
    SlugsAgree(body);
  }
}
