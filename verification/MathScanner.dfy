/**
 The tag-aware scanner that applies math substitution to rendered HTML.

 The scanner cuts its input into tags, comments and text, and applies the text renderer only
 to text outside code, pre, script and style elements. `Spans` is the cut; it is proved to
 cover the input exactly once, to leave no tag inside text, and to carry a skip stack that
 counts opened and not yet closed elements. `SubstituteMath` is the loop.
 */
module MathScanner {
  import opened Wrappers
  import opened Text

  datatype Span =
    | Plain(raw: string, skipping: seq<string>)
    | Comment(raw: string)
    | Tag(raw: string, name: string, close: bool, selfClosing: bool)

  const SKIP_TAGS: set<string> := {"code", "pre", "script", "style"}

  predicate IsLetter(c: char) { 'A' <= c <= 'Z' || 'a' <= c <= 'z' }
  predicate IsNameChar(c: char) { IsLetter(c) || '0' <= c <= '9' }

  function NameStart(html: string, i: nat): nat {
    if i + 1 < |html| && html[i + 1] == '/' then i + 2 else i + 1
  }

  /** A `<` opens a tag when a letter follows it, or follows its slash. */
  predicate OpensTag(html: string, i: nat) {
    i < |html| && html[i] == '<' && NameStart(html, i) < |html| && IsLetter(html[NameStart(html, i)])
  }

  predicate OpensComment(html: string, i: nat) {
    i + 4 <= |html| && html[i] == '<' && html[i + 1] == '!' && html[i + 2] == '-' && html[i + 3] == '-'
  }

  function NameEnd(html: string, j: nat): (e: nat)
    requires j <= |html|
    ensures j <= e <= |html|
    ensures forall k :: j <= k < e ==> IsNameChar(html[k])
    ensures e < |html| ==> !IsNameChar(html[e])
    decreases |html| - j
  {
    if j < |html| && IsNameChar(html[j]) then NameEnd(html, j + 1) else j
  }

  function TagEnd(html: string, i: nat): Option<nat>
    requires OpensTag(html, i)
  {
    FindChar(html, '>', NameEnd(html, NameStart(html, i)))
  }

  function CommentEnd(html: string, i: nat): (e: nat)
    requires OpensComment(html, i)
    ensures i + 4 <= e <= |html|
  {
    match Find(html, "-->", i + 4)
    case Some(e) => e + 3
    case None => |html|
  }

  function TagAt(html: string, i: nat, e: nat): Span
    requires OpensTag(html, i) && TagEnd(html, i) == Some(e)
  {
    var j := NameStart(html, i);
    Tag(html[i..e + 1], Lower(html[j..NameEnd(html, j)]), html[i + 1] == '/', html[e - 1] == '/')
  }

  /** Remove the last occurrence of a name, if there is one. */
  function Pop(stack: seq<string>, name: string): seq<string> {
    if stack == [] then []
    else
      var n := |stack| - 1;
      if stack[n] == name then stack[..n] else Pop(stack[..n], name) + [stack[n]]
  }

  function After(stack: seq<string>, s: Span): seq<string> {
    if !s.Tag? || s.selfClosing || s.name !in SKIP_TAGS then stack
    else if s.close then Pop(stack, s.name) else stack + [s.name]
  }

  // What stands at position i: more text, a comment or tag, or a tag that never closes.
  datatype Look = More | Piece(s: Span, stop: nat) | NeverCloses

  function LookAt(html: string, i: nat): (k: Look)
    requires i < |html|
    ensures k.Piece? ==> i < k.stop <= |html| && k.s.raw == html[i..k.stop] && !k.s.Plain?
  {
    if OpensComment(html, i) then
      var stop := CommentEnd(html, i);
      Piece(Comment(html[i..stop]), stop)
    else if !OpensTag(html, i) then More
    else
      match TagEnd(html, i)
      case None => NeverCloses
      case Some(e) => Piece(TagAt(html, i, e), e + 1)
  }

  function Flush(html: string, a: nat, b: nat, stack: seq<string>): seq<Span>
    requires b <= |html|
  {
    if b <= a then [] else [Plain(html[a..b], stack)]
  }

  /** The spans from position i on, with a text span pending since `textStart`. */
  function Cut(html: string, i: nat, textStart: nat, stack: seq<string>): seq<Span>
    requires textStart <= i <= |html|
    decreases |html| - i
  {
    if i == |html| then Flush(html, textStart, |html|, stack)
    else
      match LookAt(html, i)
      case More => Cut(html, i + 1, textStart, stack)
      case NeverCloses => Flush(html, textStart, |html|, stack)
      case Piece(s, stop) => Flush(html, textStart, i, stack) + [s] + Cut(html, stop, stop, After(stack, s))
  }

  function Spans(html: string): seq<Span> {
    Cut(html, 0, 0, [])
  }

  /******* The loop *******/

  function Shown(f: string -> string, s: Span): string {
    if s.Plain? && s.skipping == [] then f(s.raw) else s.raw
  }

  function Show(f: string -> string, spans: seq<Span>): string {
    if spans == [] then "" else Shown(f, spans[0]) + Show(f, spans[1..])
  }

  lemma ShowCons(f: string -> string, s: Span, rest: seq<Span>)
    ensures Show(f, [s] + rest) == Shown(f, s) + Show(f, rest)
  {
    assert ([s] + rest)[1..] == rest;
  }

  lemma {:induction false} ShowAppend(f: string -> string, a: seq<Span>, b: seq<Span>)
    ensures Show(f, a + b) == Show(f, a) + Show(f, b)
    decreases |a|
  {
    if a == [] {
      assert a + b == b;
    } else {
      var first, rest := a[0], a[1..];
      assert a == [first] + rest && a + b == [first] + (rest + b);
      ShowAppend(f, rest, b);
      ShowCons(f, first, rest + b);
      ShowCons(f, first, rest);
    }
  }

  lemma ShowOne(f: string -> string, s: Span)
    ensures Show(f, [s]) == Shown(f, s)
  {
    assert [s][1..] == [];
  }

  lemma ShowPiece(f: string -> string, flushed: seq<Span>, s: Span, rest: seq<Span>)
    ensures Show(f, flushed + [s] + rest) == Show(f, flushed) + Shown(f, s) + Show(f, rest)
  {
    ShowAppend(f, flushed + [s], rest);
    ShowAppend(f, flushed, [s]);
    ShowOne(f, s);
  }

  lemma Regroup<T>(a: seq<T>, b: seq<T>, c: seq<T>, d: seq<T>)
    ensures a + (b + c + d) == (a + b + c) + d
  {
  }

  lemma ShowAtPiece(f: string -> string, html: string, i: nat, textStart: nat, stack: seq<string>)
    requires textStart <= i < |html| && LookAt(html, i).Piece?
    ensures var k := LookAt(html, i);
      Show(f, Cut(html, i, textStart, stack)) ==
      Show(f, Flush(html, textStart, i, stack)) + html[i..k.stop] + Show(f, Cut(html, k.stop, k.stop, After(stack, k.s)))
  {
    var k := LookAt(html, i);
    ShowPiece(f, Flush(html, textStart, i, stack), k.s, Cut(html, k.stop, k.stop, After(stack, k.s)));
  }

  // One turn of the loop that emits the pending text and the piece at i.
  lemma EmitPiece(f: string -> string, out: string, html: string, i: nat, textStart: nat, stack: seq<string>)
    requires textStart <= i < |html| && LookAt(html, i).Piece?
    ensures var k := LookAt(html, i);
      out + Show(f, Cut(html, i, textStart, stack)) ==
      (out + Show(f, Flush(html, textStart, i, stack)) + html[i..k.stop]) + Show(f, Cut(html, k.stop, k.stop, After(stack, k.s)))
  {
    var k := LookAt(html, i);
    ShowAtPiece(f, html, i, textStart, stack);
    Regroup(out, Show(f, Flush(html, textStart, i, stack)), html[i..k.stop], Show(f, Cut(html, k.stop, k.stop, After(stack, k.s))));
  }

  method ScanName(html: string, nameStart: nat) returns (j: nat)
    requires nameStart <= |html|
    ensures j == NameEnd(html, nameStart)
  {
    j := nameStart;
    while j < |html|
      invariant nameStart <= j <= |html| && NameEnd(html, j) == NameEnd(html, nameStart)
    {
      if !IsNameChar(html[j]) { break; }
      j := j + 1;
    }
  }

  method InspectTag(html: string, i: nat, isClose: bool, nameStart: nat) returns (k: Look)
    requires OpensTag(html, i) && nameStart == NameStart(html, i) && isClose == (html[i + 1] == '/')
    ensures match TagEnd(html, i)
            case None => k == NeverCloses
            case Some(e) => k == Piece(TagAt(html, i, e), e + 1)
  {
    var j := ScanName(html, nameStart);
    var tagEnd := FindChar(html, '>', j);
    if tagEnd.None? { return NeverCloses; }
    var e := tagEnd.value;
    k := Piece(Tag(html[i..e + 1], Lower(html[nameStart..j]), isClose, html[e - 1] == '/'), e + 1);
  }

  /** Decides what stands at position i. */
  method Inspect(html: string, i: nat) returns (k: Look)
    requires i < |html|
    ensures k == LookAt(html, i)
  {
    if html[i] != '<' { return More; }
    if OpensComment(html, i) {
      var end := Find(html, "-->", i + 4);
      var stop := if end.None? then |html| else end.value + 3;
      return Piece(Comment(html[i..stop]), stop);
    }
    var isClose := i + 1 < |html| && html[i + 1] == '/';
    var nameStart := if isClose then i + 2 else i + 1;
    if nameStart >= |html| || !IsLetter(html[nameStart]) { return More; }
    k := InspectTag(html, i, isClose, nameStart);
  }

  /** The skip stack after a span. */
  method Updated(stack: seq<string>, s: Span) returns (r: seq<string>)
    ensures r == After(stack, s)
  {
    if !s.Tag? || s.selfClosing || s.name !in SKIP_TAGS { return stack; }
    if !s.close { return stack + [s.name]; }
    var k: nat := |stack|;
    assert stack[..k] == stack && stack[k..] == [];
    while k > 0
      invariant k <= |stack|
      invariant Pop(stack, s.name) == Pop(stack[..k], s.name) + stack[k..]
    {
      k := k - 1;
      assert stack[..k + 1][..k] == stack[..k];
      assert stack[k..] == [stack[k]] + stack[k + 1..];
      if stack[k] == s.name { return stack[..k] + stack[k + 1..]; }
    }
    assert stack[0..] == stack;
    r := stack;
  }

  method Scan(html: string, f: string -> string) returns (r: string)
    ensures r == Show(f, Spans(html))
  {
    var out: string := "";
    var stack: seq<string> := [];
    var i: nat, textStart: nat := 0, 0;
    while i < |html|
      invariant textStart <= i <= |html|
      invariant Show(f, Spans(html)) == out + Show(f, Cut(html, i, textStart, stack))
    {
      var look := Inspect(html, i);
      match look
      case More => i := i + 1;
      case NeverCloses =>
        r := out + Show(f, Flush(html, textStart, |html|, stack));
        return;
      case Piece(s, stop) =>
        EmitPiece(f, out, html, i, textStart, stack);
        out := out + Show(f, Flush(html, textStart, i, stack)) + html[i..stop];
        stack := Updated(stack, s);
        i := stop;
        textStart := stop;
    }
    r := out + Show(f, Flush(html, textStart, |html|, stack));
  }

  /******* What the cut guarantees *******/

  function Print(spans: seq<Span>): string {
    if spans == [] then "" else spans[0].raw + Print(spans[1..])
  }

  lemma {:induction false} PrintAppend(a: seq<Span>, b: seq<Span>)
    ensures Print(a + b) == Print(a) + Print(b)
  {
    if a == [] {
      assert a + b == b;
    } else {
      assert (a + b)[1..] == a[1..] + b;
      PrintAppend(a[1..], b);
    }
  }

  lemma PrintFlush(html: string, a: nat, b: nat, stack: seq<string>)
    requires a <= b <= |html|
    ensures Print(Flush(html, a, b, stack)) == html[a..b]
  {
    if a < b {
      assert Flush(html, a, b, stack)[1..] == [];
      assert html[a..b] + "" == html[a..b];
    }
  }

  lemma SliceTwice(s: string, a: nat, b: nat, c: nat)
    requires a <= b <= c <= |s|
    ensures s[a..b] + s[b..c] + s[c..] == s[a..]
  {
  }

  lemma PrintPiece(html: string, a: nat, i: nat, s: Span, stop: nat, rest: seq<Span>, stack: seq<string>)
    requires a <= i <= stop <= |html| && s.raw == html[i..stop] && Print(rest) == html[stop..]
    ensures Print(Flush(html, a, i, stack) + [s] + rest) == html[a..]
  {
    var flushed := Flush(html, a, i, stack);
    PrintAppend(flushed + [s], rest);
    PrintAppend(flushed, [s]);
    PrintFlush(html, a, i, stack);
    assert Print([s]) == s.raw + Print([s][1..]) == s.raw;
    SliceTwice(html, a, i, stop);
  }

  lemma {:induction false} CutPrints(html: string, i: nat, textStart: nat, stack: seq<string>)
    requires textStart <= i <= |html|
    ensures Print(Cut(html, i, textStart, stack)) == html[textStart..]
    decreases |html| - i
  {
    if i == |html| {
      PrintFlush(html, textStart, |html|, stack);
    } else {
      match LookAt(html, i)
      case More => CutPrints(html, i + 1, textStart, stack);
      case NeverCloses => PrintFlush(html, textStart, |html|, stack);
      case Piece(s, stop) =>
        CutPrints(html, stop, stop, After(stack, s));
        PrintPiece(html, textStart, i, s, stop, Cut(html, stop, stop, After(stack, s)), stack);
    }
  }

  /** The spans cover the input exactly once, in order. */
  lemma SpansCoverInput(html: string)
    ensures Print(Spans(html)) == html
  {
    CutPrints(html, 0, 0, []);
    assert html[0..] == html;
  }

  lemma {:induction false} ShowIsPrint(f: string -> string, spans: seq<Span>)
    requires forall s: string :: '$' !in s ==> f(s) == s
    requires '$' !in Print(spans)
    ensures Show(f, spans) == Print(spans)
  {
    if spans != [] {
      var p := Print(spans);
      assert forall c :: c in spans[0].raw || c in Print(spans[1..]) ==> c in p;
      ShowIsPrint(f, spans[1..]);
    }
  }

  lemma ShowWithoutMath(f: string -> string, html: string)
    requires forall s: string :: '$' !in s ==> f(s) == s
    requires '$' !in html
    ensures Show(f, Spans(html)) == html
  {
    SpansCoverInput(html);
    ShowIsPrint(f, Spans(html));
  }

  /** A tag lies in this text: it opens, and a `>` follows. */
  predicate HasTag(s: string) {
    exists i: nat, j: nat :: i < j < |s| && OpensTag(s, i) && s[j] == '>'
  }

  predicate NoTagClosesFrom(html: string, a: nat, b: nat) {
    forall i: nat :: a <= i < b && OpensTag(html, i) ==> TagEnd(html, i).None?
  }

  // An opening that has no end in the whole input has none in a slice of it.
  lemma SliceHasNoTag(html: string, a: nat, b: nat)
    requires a <= b <= |html| && NoTagClosesFrom(html, a, b)
    ensures !HasTag(html[a..b])
  {
    var s := html[a..b];
    forall i: nat, j: nat | i < j < |s| && OpensTag(s, i) ensures s[j] != '>' {
      var n := NameStart(html, a + i);
      assert forall k :: 0 <= k < |s| ==> s[k] == html[a + k];
      assert OpensTag(html, a + i);
      assert n <= a + j < NameEnd(html, n) ==> IsNameChar(html[a + j]);
    }
  }

  predicate NoCommentFrom(html: string, a: nat, b: nat) {
    forall i: nat :: a <= i < b ==> !OpensComment(html, i)
  }

  /** A comment opens in text only behind a tag that never closes. */
  ghost predicate CommentsBehindTags(s: string) {
    forall i: nat :: OpensComment(s, i) ==> exists j: nat :: j < i && OpensTag(s, j)
  }

  // A comment without a closer.
  predicate Unclosed(s: Span) {
    s.Comment? && Find(s.raw, "-->", 4).None?
  }

  /** A tag ends at its first `>` and carries its own name and marks; a comment ends at its first closer, if it has
      one; text is never empty, holds no whole tag, and no comment unless behind a tag that never closes. */
  ghost predicate SpanOk(s: Span) {
    match s
    case Plain(raw, _) => raw != "" && !HasTag(raw) && CommentsBehindTags(raw)
    case Comment(raw) => OpensComment(raw, 0) && (Unclosed(s) || Find(raw, "-->", 4) == Some(|raw| - 3))
    case Tag(raw, name, close, selfClosing) =>
      && OpensTag(raw, 0) && |raw| >= 3
      && raw[|raw| - 1] == '>' && '>' !in raw[..|raw| - 1]
      && name == Lower(raw[NameStart(raw, 0)..NameEnd(raw, NameStart(raw, 0))])
      && close == (raw[1] == '/') && selfClosing == (raw[|raw| - 2] == '/')
  }

  lemma FlushOk(html: string, a: nat, b: nat, stack: seq<string>)
    requires a <= b <= |html| && NoTagClosesFrom(html, a, b) && NoCommentFrom(html, a, b)
    ensures forall s :: s in Flush(html, a, b, stack) ==> SpanOk(s)
  {
    SliceHasNoTag(html, a, b);
    forall i: nat ensures !OpensComment(html[a..b], i) {
      assert OpensComment(html[a..b], i) ==> OpensComment(html, a + i);
    }
  }

  lemma TagIsNoComment(html: string, i: nat)
    requires OpensTag(html, i)
    ensures !OpensComment(html, i)
  {
  }

  // The rest of the input from a, when the tag at i is the first thing in it that opens, and never closes.
  lemma FlushRestOk(html: string, a: nat, i: nat, stack: seq<string>)
    requires a <= i < |html| && NoTagClosesFrom(html, a, |html|) && NoCommentFrom(html, a, i) && OpensTag(html, i)
    ensures forall s :: s in Flush(html, a, |html|, stack) ==> SpanOk(s)
  {
    var rest := html[a..|html|];
    SliceHasNoTag(html, a, |html|);
    assert OpensTag(rest, i - a);
    forall c: nat | OpensComment(rest, c) ensures i - a < c {
      assert OpensComment(html, a + c);
      TagIsNoComment(html, i);
    }
  }

  lemma NameEndInSlice(html: string, i: nat, e: nat, j: nat)
    requires i <= j <= e < |html| && !IsNameChar(html[e])
    ensures i + NameEnd(html[i..e + 1], j - i) == NameEnd(html, j) <= e
    decreases e - j
  {
    var raw := html[i..e + 1];
    assert raw[j - i] == html[j];
    if IsNameChar(html[j]) { NameEndInSlice(html, i, e, j + 1); }
  }

  lemma TagHasNoEnd(html: string, i: nat, e: nat)
    requires OpensTag(html, i) && TagEnd(html, i) == Some(e)
    ensures '>' !in html[i..e + 1][..e - i]
  {
    var n := NameStart(html, i);
    SliceOfSlice(html, i, e + 1, 0, e - i);
    forall k | i <= k < e ensures html[k] != '>' {
      assert n <= k < NameEnd(html, n) ==> IsNameChar(html[k]);
    }
  }

  lemma TagNameInSlice(html: string, i: nat, e: nat)
    requires OpensTag(html, i) && TagEnd(html, i) == Some(e)
    ensures var raw, n := html[i..e + 1], NameStart(html, i);
      && OpensTag(raw, 0) && |raw| >= 3 && NameStart(raw, 0) == n - i <= NameEnd(raw, n - i)
      && raw[n - i..NameEnd(raw, n - i)] == html[n..NameEnd(html, n)]
  {
    var n := NameStart(html, i);
    assert n < NameEnd(html, n) <= e;
    NameEndInSlice(html, i, e, n);
    SliceOfSlice(html, i, e + 1, n - i, NameEnd(html, n) - i);
  }

  lemma TagAtOk(html: string, i: nat, e: nat)
    requires OpensTag(html, i) && TagEnd(html, i) == Some(e)
    ensures SpanOk(TagAt(html, i, e))
  {
    TagHasNoEnd(html, i, e);
    TagNameInSlice(html, i, e);
  }

  lemma CloserInSlice(html: string, i: nat)
    requires OpensComment(html, i)
    ensures Find(html[i..CommentEnd(html, i)], "-->", 4)
         == match Find(html, "-->", i + 4) { case None => None case Some(e) => Some(e - i) }
  {
    match Find(html, "-->", i + 4)
    case Some(e) => FoundInSlice(html, i, "-->", 4, e);
    case None => NotFoundInSlice(html, i, |html|, "-->", 4);
  }

  lemma CommentOk(html: string, i: nat)
    requires OpensComment(html, i)
    ensures SpanOk(Comment(html[i..CommentEnd(html, i)]))
    ensures Unclosed(Comment(html[i..CommentEnd(html, i)])) ==> CommentEnd(html, i) == |html|
  {
    CloserInSlice(html, i);
  }

  // When the tag at i never closes, nothing after it closes either.
  lemma NothingClosesAfter(html: string, i: nat, textStart: nat)
    requires textStart <= i < |html| && NoTagClosesFrom(html, textStart, i)
    requires OpensTag(html, i) && TagEnd(html, i).None?
    ensures NoTagClosesFrom(html, textStart, |html|)
  {
    var n := NameStart(html, i);
    forall k: nat | i < k < |html| && OpensTag(html, k) ensures TagEnd(html, k).None? {
      assert !IsNameChar(html[k]);
      assert k >= NameEnd(html, n);
    }
  }

  lemma PieceOk(html: string, i: nat)
    requires i < |html| && LookAt(html, i).Piece?
    ensures SpanOk(LookAt(html, i).s)
    ensures Unclosed(LookAt(html, i).s) ==> LookAt(html, i).stop == |html|
  {
    if OpensComment(html, i) {
      CommentOk(html, i);
    } else {
      TagAtOk(html, i, TagEnd(html, i).value);
    }
  }

  ghost predicate AllOk(spans: seq<Span>) {
    && (forall s <- spans :: SpanOk(s))
    && (forall k :: 0 <= k < |spans| - 1 ==> !Unclosed(spans[k]))
  }

  lemma AllOkAround(before: seq<Span>, s: Span, rest: seq<Span>)
    requires (forall p <- before :: SpanOk(p) && p.Plain?) && SpanOk(s) && AllOk(rest) && (Unclosed(s) ==> rest == [])
    ensures AllOk(before + [s] + rest)
  {
    var all, n := before + [s] + rest, |before|;
    forall k | 0 <= k < |all| - 1 ensures !Unclosed(all[k]) {
      if k < n {
        assert all[k] == before[k] && before[k] in before;
      } else if k == n {
        assert all[k] == s && rest != [];
      } else {
        assert all[k] == rest[k - n - 1];
      }
    }
  }

  lemma {:induction false} CutOk(html: string, i: nat, textStart: nat, stack: seq<string>)
    requires textStart <= i <= |html| && NoTagClosesFrom(html, textStart, i) && NoCommentFrom(html, textStart, i)
    ensures AllOk(Cut(html, i, textStart, stack))
    decreases |html| - i
  {
    if i == |html| {
      FlushOk(html, textStart, i, stack);
    } else {
      match LookAt(html, i)
      case More => CutOk(html, i + 1, textStart, stack);
      case NeverCloses =>
        NothingClosesAfter(html, i, textStart);
        FlushRestOk(html, textStart, i, stack);
      case Piece(s, stop) =>
        FlushOk(html, textStart, i, stack);
        PieceOk(html, i);
        CutOk(html, stop, stop, After(stack, s));
        AllOkAround(Flush(html, textStart, i, stack), s, Cut(html, stop, stop, After(stack, s)));
    }
  }

  /** Every tag that closes and every comment was cut out and is what it claims to be, and only the last span can be
      a comment without an end. */
  lemma SpansAreExact(html: string)
    ensures forall s <- Spans(html) :: SpanOk(s)
    ensures forall k :: 0 <= k < |Spans(html)| - 1 ==> !Unclosed(Spans(html)[k])
  {
    CutOk(html, 0, 0, []);
  }

  /******* The skip stack is a saturating counter *******/

  /** Opened minus closed elements of name t, never below zero. */
  function Balance(spans: seq<Span>, t: string): nat {
    if spans == [] then 0
    else
      var d, s := Balance(spans[..|spans| - 1], t), spans[|spans| - 1];
      if !s.Tag? || s.selfClosing || s.name != t then d
      else if !s.close then d + 1
      else if d > 0 then d - 1 else 0
  }

  lemma {:induction false} PopCounts(stack: seq<string>, name: string, t: string)
    ensures var m := multiset(stack)[t];
      multiset(Pop(stack, name))[t] == if t == name && m > 0 then m - 1 else m
  {
    if stack != [] {
      var n := |stack| - 1;
      assert stack == stack[..n] + [stack[n]];
      PopCounts(stack[..n], name, t);
    }
  }

  ghost predicate Counts(stack: seq<string>, before: seq<Span>) {
    forall t :: multiset(stack)[t] == if t in SKIP_TAGS then Balance(before, t) else 0
  }

  // The stack counts what came before, and so did the stack of every text span.
  ghost predicate Sound(spans: seq<Span>, stack: seq<string>) {
    && Counts(stack, spans)
    && forall k :: 0 <= k < |spans| && spans[k].Plain? ==> Counts(spans[k].skipping, spans[..k])
  }

  lemma CountsAfter(spans: seq<Span>, stack: seq<string>, s: Span)
    requires Counts(stack, spans)
    ensures Counts(After(stack, s), spans + [s])
  {
    var after := After(stack, s);
    assert (spans + [s])[..|spans|] == spans;
    forall t ensures multiset(after)[t] == if t in SKIP_TAGS then Balance(spans + [s], t) else 0 {
      if s.Tag? { PopCounts(stack, s.name, t); }
    }
  }

  lemma SoundAfter(spans: seq<Span>, stack: seq<string>, s: Span)
    requires Sound(spans, stack) && (s.Plain? ==> s.skipping == stack)
    ensures Sound(spans + [s], After(stack, s))
  {
    var all := spans + [s];
    assert all[..|spans|] == spans;
    CountsAfter(spans, stack, s);
    forall k | 0 <= k < |all| && all[k].Plain? ensures Counts(all[k].skipping, all[..k]) {
      if k < |spans| { assert all[..k] == spans[..k]; }
    }
  }

  lemma SoundAfterFlush(html: string, a: nat, b: nat, stack: seq<string>, before: seq<Span>)
    requires b <= |html| && Sound(before, stack)
    ensures Sound(before + Flush(html, a, b, stack), stack)
  {
    if a < b {
      SoundAfter(before, stack, Plain(html[a..b], stack));
    } else {
      assert before + [] == before;
    }
  }

  lemma SoundAfterPiece(html: string, a: nat, i: nat, stack: seq<string>, before: seq<Span>, s: Span)
    requires i <= |html| && Sound(before, stack) && !s.Plain?
    ensures Sound(before + Flush(html, a, i, stack) + [s], After(stack, s))
  {
    SoundAfterFlush(html, a, i, stack, before);
    SoundAfter(before + Flush(html, a, i, stack), stack, s);
  }

  lemma {:induction false} CutSound(html: string, i: nat, textStart: nat, stack: seq<string>, before: seq<Span>)
    returns (last: seq<string>)
    requires textStart <= i <= |html| && Sound(before, stack)
    ensures Sound(before + Cut(html, i, textStart, stack), last)
    decreases |html| - i
  {
    if i == |html| {
      SoundAfterFlush(html, textStart, |html|, stack, before);
      return stack;
    }
    match LookAt(html, i)
    case More => last := CutSound(html, i + 1, textStart, stack, before);
    case NeverCloses =>
      SoundAfterFlush(html, textStart, |html|, stack, before);
      last := stack;
    case Piece(s, stop) =>
      SoundAfterPiece(html, textStart, i, stack, before, s);
      last := CutSound(html, stop, stop, After(stack, s), before + Flush(html, textStart, i, stack) + [s]);
      Regroup(before, Flush(html, textStart, i, stack), [s], Cut(html, stop, stop, After(stack, s)));
  }

  // The state of a sound cut at one of its text spans.
  lemma SoundAt(spans: seq<Span>, last: seq<string>, k: nat)
    requires Sound(spans, last) && k < |spans| && spans[k].Plain?
    ensures Counts(spans[k].skipping, spans[..k])
  {
  }

  lemma EmptyIffUncounted(stack: seq<string>, before: seq<Span>)
    requires Counts(stack, before)
    ensures stack == [] <==> forall t :: t in SKIP_TAGS ==> Balance(before, t) == 0
  {
    if stack != [] {
      assert stack[0] in multiset(stack);
    }
  }

  /** Text is handed to the renderer exactly when every code, pre, script and style element
      opened before it has been closed, as the saturating counters tell. */
  lemma RenderedIffOutside(html: string, k: nat)
    requires k < |Spans(html)| && Spans(html)[k].Plain?
    ensures var spans := Spans(html);
      && (forall t :: t in SKIP_TAGS ==> multiset(spans[k].skipping)[t] == Balance(spans[..k], t))
      && (spans[k].skipping == [] <==> forall t :: t in SKIP_TAGS ==> Balance(spans[..k], t) == 0)
  {
    var last := CutSound(html, 0, 0, [], []);
    assert [] + Spans(html) == Spans(html);
    SoundAt(Spans(html), last, k);
    EmptyIffUncounted(Spans(html)[k].skipping, Spans(html)[..k]);
  }

  /******* What comes out *******/

  /** The part of the output that span k becomes: rendered if it is text and every element that keeps its text as it
      is, among those opened before it, has been closed; as it stands otherwise. */
  function Part(f: string -> string, spans: seq<Span>, k: nat): string
    requires k < |spans|
  {
    var before := spans[..k];
    if spans[k].Plain? && Balance(before, "code") == 0 && Balance(before, "pre") == 0
       && Balance(before, "script") == 0 && Balance(before, "style") == 0
    then f(spans[k].raw)
    else spans[k].raw
  }

  function Parts(f: string -> string, spans: seq<Span>): seq<string> {
    seq(|spans|, k requires 0 <= k < |spans| => Part(f, spans, k))
  }

  lemma ShownIsPart(f: string -> string, html: string, k: nat)
    requires k < |Spans(html)|
    ensures Shown(f, Spans(html)[k]) == Part(f, Spans(html), k)
  {
    if Spans(html)[k].Plain? {
      RenderedIffOutside(html, k);
      assert forall t :: t in SKIP_TAGS <==> t in {"code", "pre", "script", "style"};
    }
  }

  lemma {:induction false} ShowIsConcat(f: string -> string, spans: seq<Span>, parts: seq<string>)
    requires |parts| == |spans| && forall k :: 0 <= k < |spans| ==> parts[k] == Shown(f, spans[k])
    ensures Show(f, spans) == Concat(parts)
    decreases |spans|
  {
    if spans != [] {
      var n := |spans| - 1;
      ShowIsConcat(f, spans[..n], parts[..n]);
      ShowAppend(f, spans[..n], [spans[n]]);
      ShowOne(f, spans[n]);
      assert spans == spans[..n] + [spans[n]];
    }
  }

  lemma ShowIsParts(f: string -> string, html: string)
    ensures Show(f, Spans(html)) == Concat(Parts(f, Spans(html)))
  {
    forall k | 0 <= k < |Spans(html)| ensures Parts(f, Spans(html))[k] == Shown(f, Spans(html)[k]) {
      ShownIsPart(f, html, k);
    }
    ShowIsConcat(f, Spans(html), Parts(f, Spans(html)));
  }

  method SubstituteMath(html: string, f: string -> string) returns (r: string)
    requires forall s: string :: '$' !in s ==> f(s) == s
    ensures r == Concat(Parts(f, Spans(html)))
  {
    ShowIsParts(f, html);
    if '$' !in html {
      ShowWithoutMath(f, html);
      return html;
    }
    r := Scan(html, f);
  }

  // Text without a bracket is passed over.
  lemma {:induction false} PassText(html: string, i: nat, j: nat, textStart: nat, stack: seq<string>)
    requires textStart <= i <= j <= |html| && forall k :: i <= k < j ==> html[k] != '<'
    ensures Cut(html, i, textStart, stack) == Cut(html, j, textStart, stack)
    decreases j - i
  {
    if i < j { PassText(html, i + 1, j, textStart, stack); }
  }

  /** Text without tags is rendered as a whole. */
  lemma PlainTextIsRendered(f: string -> string, html: string)
    requires '<' !in html && html != ""
    ensures Concat(Parts(f, Spans(html))) == f(html)
  {
    PassText(html, 0, |html|, 0, []);
    assert html[0..|html|] == html;
    assert Spans(html) == [Plain(html, [])];
    ShowOne(f, Plain(html, []));
    ShowIsParts(f, html);
  }

  predicate IsName(name: string) {
    name != "" && IsLetter(name[0]) && forall c <- name :: IsNameChar(c)
  }

  function TagText(name: string, close: bool): string {
    (if close then "</" else "<") + name + ">"
  }

  lemma {:induction false} NameEndsAt(html: string, j: nat, e: nat)
    requires j <= e < |html| && (forall k :: j <= k < e ==> IsNameChar(html[k])) && !IsNameChar(html[e])
    ensures NameEnd(html, j) == e
    decreases e - j
  {
    if j < e { NameEndsAt(html, j + 1, e); }
  }

  lemma SeesTagAt(html: string, i: nat, n: nat, e: nat, close: bool)
    requires n == i + (if close then 2 else 1) && n < e < |html|
    requires html[i] == '<' && (close ==> html[i + 1] == '/') && html[e] == '>'
    requires IsLetter(html[n]) && forall k :: n <= k < e ==> IsNameChar(html[k])
    ensures LookAt(html, i) == Piece(Tag(html[i..e + 1], Lower(html[n..e]), close, false), e + 1)
  {
    assert OpensTag(html, i) && NameStart(html, i) == n;
    TagIsNoComment(html, i);
    NameEndsAt(html, n, e);
    assert TagEnd(html, i) == Some(e);
  }

  lemma TagTextParts(name: string, close: bool)
    requires name != ""
    ensures var t, d := TagText(name, close), if close then 2 else 1;
            && |t| == d + |name| + 1 && t[0] == '<' && (close ==> t[1] == '/') && t[d..d + |name|] == name && t[|t| - 1] == '>'
  {
  }

  lemma SeesTagText(html: string, i: nat, t: string, d: nat, name: string, close: bool)
    requires IsName(name) && At(html, t, i) && d == (if close then 2 else 1) && |t| == d + |name| + 1
    requires t[0] == '<' && (close ==> t[1] == '/') && t[d..d + |name|] == name && t[|t| - 1] == '>'
    ensures LookAt(html, i) == Piece(Tag(t, Lower(name), close, false), i + |t|)
  {
    SliceOfSlice(html, i, i + |t|, d, d + |name|);
    assert html[i] == t[0] && html[i + 1] == t[1] && html[i + |t| - 1] == t[|t| - 1];
    forall k | i + d <= k < i + d + |name| ensures IsNameChar(html[k]) {
      assert html[i + d..i + d + |name|][k - i - d] == name[k - i - d] && name[k - i - d] in name;
    }
    assert html[i + d] == name[0];
    SeesTagAt(html, i, i + d, i + |t| - 1, close);
  }

  lemma SeesTag(html: string, i: nat, name: string, close: bool)
    requires IsName(name) && At(html, TagText(name, close), i)
    ensures i < |html| && LookAt(html, i) == Piece(Tag(TagText(name, close), Lower(name), close, false), i + |TagText(name, close)|)
  {
    var t := TagText(name, close);
    TagTextParts(name, close);
    SeesTagText(html, i, t, if close then 2 else 1, name, close);
  }

  function TagOf(name: string, close: bool): Span {
    Tag(TagText(name, close), Lower(name), close, false)
  }

  lemma SpansOfElement(html: string, name: string, j: nat)
    requires IsName(name) && At(html, TagText(name, false), 0) && At(html, TagText(name, true), j)
    requires |TagText(name, false)| <= j && j + |TagText(name, true)| == |html|
    requires forall k :: |TagText(name, false)| <= k < j ==> html[k] != '<'
    ensures Spans(html)
         == [TagOf(name, false)] + Flush(html, |TagText(name, false)|, j, After([], TagOf(name, false))) + [TagOf(name, true)]
  {
    var open, close, i := TagOf(name, false), TagOf(name, true), |TagText(name, false)|;
    var stack := After([], open);
    SeesTag(html, 0, name, false);
    SeesTag(html, j, name, true);
    PassText(html, i, j, i, stack);
    assert Cut(html, |html|, |html|, After(stack, close)) == [];
    assert Cut(html, j, i, stack) == Flush(html, i, j, stack) + [close] + [];
  }

  lemma ShowElement(f: string -> string, open: Span, text: seq<Span>, close: Span)
    ensures Show(f, [open] + text + [close]) == Shown(f, open) + Show(f, text) + Shown(f, close)
  {
    ShowAppend(f, [open] + text, [close]);
    ShowAppend(f, [open], text);
    ShowOne(f, open);
    ShowOne(f, close);
  }

  lemma ShowText(f: string -> string, html: string, i: nat, j: nat, stack: seq<string>)
    requires i <= j <= |html| && f("") == ""
    ensures Show(f, Flush(html, i, j, stack)) == if stack == [] then f(html[i..j]) else html[i..j]
  {
    if i < j {
      ShowOne(f, Plain(html[i..j], stack));
    } else {
      assert html[i..j] == "";
    }
  }

  lemma SkipsFour(name: string)
    ensures After([], TagOf(name, false)) == [] <==> Lower(name) !in {"code", "pre", "script", "style"}
  {
  }

  lemma ShowWholeElement(f: string -> string, html: string, name: string, j: nat)
    requires IsName(name) && At(html, TagText(name, false), 0) && At(html, TagText(name, true), j) && f("") == ""
    requires |TagText(name, false)| <= j && j + |TagText(name, true)| == |html|
    requires forall k :: |TagText(name, false)| <= k < j ==> html[k] != '<'
    ensures var s := html[|TagText(name, false)|..j];
            Show(f, Spans(html))
            == TagText(name, false) + (if Lower(name) in {"code", "pre", "script", "style"} then s else f(s)) + TagText(name, true)
  {
    var stack := After([], TagOf(name, false));
    SpansOfElement(html, name, j);
    ShowElement(f, TagOf(name, false), Flush(html, |TagText(name, false)|, j, stack), TagOf(name, true));
    ShowText(f, html, |TagText(name, false)|, j, stack);
    SkipsFour(name);
  }

  lemma ThreeParts(a: string, s: string, z: string)
    ensures var html, j := a + s + z, |a| + |s|;
            At(html, a, 0) && At(html, z, j) && j + |z| == |html| && html[|a|..j] == s
            && forall k :: |a| <= k < j ==> html[k] == s[k - |a|]
  {
    var html, j := a + s + z, |a| + |s|;
    assert html[0..|a|] == a && html[j..j + |z|] == z && html[|a|..j] == s;
  }

  /** What stands in an element is left alone in the four elements that keep their text as it is, and rendered in
      every other. */
  lemma ElementText(f: string -> string, name: string, s: string)
    requires IsName(name) && '<' !in s && f("") == ""
    ensures var html := TagText(name, false) + s + TagText(name, true);
            Concat(Parts(f, Spans(html)))
            == TagText(name, false) + (if Lower(name) in {"code", "pre", "script", "style"} then s else f(s)) + TagText(name, true)
  {
    var html := TagText(name, false) + s + TagText(name, true);
    ThreeParts(TagText(name, false), s, TagText(name, true));
    ShowWholeElement(f, html, name, |TagText(name, false)| + |s|);
    ShowIsParts(f, html);
  }
}
