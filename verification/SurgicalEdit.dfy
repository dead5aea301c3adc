/**
 The fine-tune editor's paper tools: whole-section replacement and exact find-and-replace over the paper's
 bodies, with paper.meta.json and paper.md rewritten after every change.
 */
module SurgicalEdit {
  import opened Wrappers
  import opened Text
  import opened Replace

  /******* The paper *******/

  datatype Section = Section(title: string, body: string)

  datatype Meta = Meta(title: string, abs: Option<string>, sections: seq<Section>, references: seq<string>)

  // A body's place: 0 is the abstract, i + 1 the body of section i.
  predicate IsPlace(m: Meta, w: nat) {
    if w == 0 then m.abs.Some? else w <= |m.sections|
  }

  function Body(m: Meta, w: nat): string
    requires IsPlace(m, w)
  {
    if w == 0 then m.abs.value else m.sections[w - 1].body
  }

  /** The papers differ in bodies only. */
  ghost predicate Skeleton(a: Meta, b: Meta) {
    && a.title == b.title && a.references == b.references
    && a.abs.Some? == b.abs.Some?
    && |a.sections| == |b.sections|
    && forall i :: 0 <= i < |a.sections| ==> a.sections[i].title == b.sections[i].title
  }

  function SetBody(m: Meta, w: nat, b: string): (r: Meta)
    requires IsPlace(m, w)
    ensures Skeleton(m, r) && Body(r, w) == b
    ensures forall v: nat :: IsPlace(m, v) && v != w ==> Body(r, v) == Body(m, v)
  {
    if w == 0 then m.(abs := Some(b)) else m.(sections := m.sections[w - 1 := m.sections[w - 1].(body := b)])
  }

  function Label(m: Meta, w: nat): string
    requires IsPlace(m, w)
  {
    if w == 0 then "Abstract" else if m.sections[w - 1].title == "" then "(untitled)" else m.sections[w - 1].title
  }

  lemma SameBodies(a: Meta, b: Meta)
    requires Skeleton(a, b) && forall w: nat :: IsPlace(a, w) ==> Body(a, w) == Body(b, w)
    ensures a == b
  {
    assert a.abs.Some? ==> IsPlace(a, 0) && Body(a, 0) == Body(b, 0);
    forall i | 0 <= i < |a.sections| ensures a.sections[i] == b.sections[i] {
      assert IsPlace(a, i + 1) && Body(a, i + 1) == Body(b, i + 1);
    }
    assert a.sections == b.sections;
  }

  /******* Targets and counts *******/

  datatype Scope = Everywhere | Only(title: string)

  predicate InScope(m: Meta, sc: Scope, w: nat)
    requires IsPlace(m, w)
  {
    match sc
    case Everywhere => true
    case Only(title) => Label(m, w) == title || (Lower(title) == "abstract" && Label(m, w) == "Abstract")
  }

  // The places in scope below n, in the order the paper lists them.
  function Targets(m: Meta, sc: Scope, n: nat): (r: seq<nat>)
    ensures forall w <- r :: IsPlace(m, w)
  {
    if n == 0 then []
    else if IsPlace(m, n - 1) && InScope(m, sc, n - 1) then Targets(m, sc, n - 1) + [n - 1]
    else Targets(m, sc, n - 1)
  }

  predicate Increasing(ts: seq<nat>) {
    forall i, j :: 0 <= i < j < |ts| ==> ts[i] < ts[j]
  }

  // The list names the places in scope, each once.
  ghost predicate Names(ts: seq<nat>, m: Meta, sc: Scope, n: nat) {
    && Increasing(ts)
    && forall w: nat :: w in ts <==> w < n && IsPlace(m, w) && InScope(m, sc, w)
  }

  lemma NamesAdd(ts: seq<nat>, m: Meta, sc: Scope, n: nat)
    requires Names(ts, m, sc, n) && IsPlace(m, n) && InScope(m, sc, n)
    ensures Names(ts + [n], m, sc, n + 1)
  {
    forall i | 0 <= i < |ts| ensures ts[i] < n { assert ts[i] in ts; }
    forall w: nat ensures w in ts + [n] <==> w in ts || w == n {}
  }

  lemma NamesSkip(ts: seq<nat>, m: Meta, sc: Scope, n: nat)
    requires Names(ts, m, sc, n) && !(IsPlace(m, n) && InScope(m, sc, n))
    ensures Names(ts, m, sc, n + 1)
  {
  }

  lemma NamesNext(below: seq<nat>, ts: seq<nat>, m: Meta, sc: Scope, n: nat)
    requires Names(below, m, sc, n)
    requires ts == if IsPlace(m, n) && InScope(m, sc, n) then below + [n] else below
    ensures Names(ts, m, sc, n + 1)
  {
    if IsPlace(m, n) && InScope(m, sc, n) {
      NamesAdd(below, m, sc, n);
    } else {
      NamesSkip(below, m, sc, n);
    }
  }

  lemma {:induction false} TargetsName(m: Meta, sc: Scope, n: nat)
    ensures Names(Targets(m, sc, n), m, sc, n)
  {
    if n > 0 {
      TargetsName(m, sc, n - 1);
      NamesNext(Targets(m, sc, n - 1), Targets(m, sc, n), m, sc, n - 1);
    }
  }

  function Width(m: Meta): nat {
    |m.sections| + 1
  }

  function Total(m: Meta, ts: seq<nat>, count: string -> nat): nat
    requires forall w <- ts :: IsPlace(m, w)
  {
    if ts == [] then 0 else Total(m, ts[..|ts| - 1], count) + count(Body(m, ts[|ts| - 1]))
  }

  /** Every body in scope changed by f; everything else as it was. */
  function MapBodies(m: Meta, sc: Scope, f: string -> string): (r: Meta)
    ensures Skeleton(m, r)
    ensures forall w: nat :: IsPlace(m, w) ==> Body(r, w) == if InScope(m, sc, w) then f(Body(m, w)) else Body(m, w)
  {
    Meta(m.title,
         if m.abs.Some? && InScope(m, sc, 0) then Some(f(m.abs.value)) else m.abs,
         seq(|m.sections|, i requires 0 <= i < |m.sections| =>
           if InScope(m, sc, i + 1) then m.sections[i].(body := f(m.sections[i].body)) else m.sections[i]),
         m.references)
  }

  function Counter(o: string): string -> nat
    requires o != ""
  {
    (b: string) => Count(b, o)
  }

  function Replacer(o: string, n: string): string -> string
    requires o != ""
  {
    (b: string) => ReplaceAll(b, o, n)
  }

  /******* Rendering paper.md *******/

  function Digits(n: nat): string {
    if n < 10 then ["0123456789"[n]] else Digits(n / 10) + ["0123456789"[n % 10]]
  }

  function SectionParts(s: Section): seq<string> {
    ["", "## " + s.title, "", s.body]
  }

  function AllSectionParts(ss: seq<Section>): seq<string> {
    if ss == [] then [] else AllSectionParts(ss[..|ss| - 1]) + SectionParts(ss[|ss| - 1])
  }

  function ReferenceLine(n: nat, ref: string): string {
    Digits(n) + ". " + ref
  }

  function ReferenceParts(refs: seq<string>): seq<string> {
    if refs == [] then [] else ReferenceParts(refs[..|refs| - 1]) + [ReferenceLine(|refs|, refs[|refs| - 1])]
  }

  function Head(m: Meta): seq<string> {
    ["# " + (if m.title == "" then "Paper" else m.title), "", "## Abstract", ""]
  }

  function AbstractOf(m: Meta): string {
    if m.abs.Some? then m.abs.value else ""
  }

  function Foot(m: Meta): seq<string> {
    if m.references == [] then [] else ["", "## References", ""] + ReferenceParts(m.references)
  }

  function Parts(m: Meta): (r: seq<string>)
    ensures r != []
  {
    Head(m) + [AbstractOf(m)] + AllSectionParts(m.sections) + Foot(m)
  }

  function Render(m: Meta): string {
    Join(Parts(m), "\n") + "\n"
  }

  // Each part on a line of its own, behind what stands before.
  function Lines(parts: seq<string>): string {
    if parts == [] then "" else "\n" + parts[0] + Lines(parts[1..])
  }

  lemma {:induction false} JoinIsLines(parts: seq<string>)
    requires parts != []
    ensures Join(parts, "\n") == parts[0] + Lines(parts[1..])
    decreases |parts|
  {
    if |parts| > 1 {
      JoinIsLines(parts[1..]);
      assert parts[0] + "\n" + (parts[1..][0] + Lines(parts[1..][1..])) == parts[0] + ("\n" + parts[1..][0] + Lines(parts[1..][1..]));
    } else {
      assert parts[0] + "" == parts[0];
    }
  }

  lemma {:induction false} LinesAppend(a: seq<string>, b: seq<string>)
    ensures Lines(a + b) == Lines(a) + Lines(b)
    decreases |a|
  {
    if a == [] {
      assert a + b == b;
    } else {
      assert (a + b)[1..] == a[1..] + b;
      LinesAppend(a[1..], b);
    }
  }

  function TitleLine(m: Meta): string {
    "# " + (if m.title == "" then "Paper" else m.title)
  }

  /** The text of the sections, of the references, and of a paper as a whole. */
  function SectionsText(ss: seq<Section>): string {
    if ss == [] then ""
    else SectionsText(ss[..|ss| - 1]) + ("\n\n## " + ss[|ss| - 1].title + "\n\n" + ss[|ss| - 1].body)
  }

  function ReferencesText(refs: seq<string>): string {
    if refs == [] then "" else ReferencesText(refs[..|refs| - 1]) + ("\n" + Digits(|refs|) + ". " + refs[|refs| - 1])
  }

  function Document(m: Meta): string {
    TitleLine(m)
    + ("\n\n## Abstract\n\n" + (if m.abs.Some? then m.abs.value else ""))
    + SectionsText(m.sections)
    + (if m.references == [] then "" else "\n\n## References\n" + ReferencesText(m.references))
    + "\n"
  }

  lemma LinesOfSection(s: Section)
    ensures Lines(SectionParts(s)) == "\n\n## " + s.title + "\n\n" + s.body
  {
    var p := SectionParts(s);
    assert p[1..] == [p[1], p[2], p[3]] && p[1..][1..] == [p[2], p[3]] && p[1..][1..][1..] == [p[3]] && p[1..][1..][1..][1..] == [];
    assert Lines([p[3]]) == "\n" + s.body;
    assert Lines([p[2], p[3]]) == "\n" + ("\n" + s.body);
    assert Lines([p[1], p[2], p[3]]) == "\n" + ("## " + s.title) + ("\n" + ("\n" + s.body));
  }

  lemma {:induction false} LinesOfSections(ss: seq<Section>)
    ensures Lines(AllSectionParts(ss)) == SectionsText(ss)
  {
    if ss != [] {
      LinesOfSections(ss[..|ss| - 1]);
      LinesAppend(AllSectionParts(ss[..|ss| - 1]), SectionParts(ss[|ss| - 1]));
      LinesOfSection(ss[|ss| - 1]);
    }
  }

  lemma LinesOfOne(p: string)
    ensures Lines([p]) == "\n" + p
  {
    assert [p][1..] == [];
  }

  lemma {:induction false} LinesOfReferences(refs: seq<string>)
    ensures Lines(ReferenceParts(refs)) == ReferencesText(refs)
  {
    if refs != [] {
      var n := |refs| - 1;
      LinesOfReferences(refs[..n]);
      LinesAppend(ReferenceParts(refs[..n]), [ReferenceLine(|refs|, refs[n])]);
      LinesOfOne(ReferenceLine(|refs|, refs[n]));
      assert "\n" + ReferenceLine(|refs|, refs[n]) == "\n" + Digits(|refs|) + ". " + refs[n];
    }
  }

  lemma LinesOfThree(a: string, b: string, c: string)
    ensures Lines([a, b, c]) == "\n" + a + ("\n" + b + ("\n" + c))
  {
    assert [a, b, c][1..] == [b, c] && [b, c][1..] == [c];
    LinesOfOne(c);
  }

  lemma LinesOfFoot(m: Meta)
    ensures Lines(Foot(m)) == if m.references == [] then "" else "\n\n## References\n" + ReferencesText(m.references)
  {
    if m.references != [] {
      LinesAppend(["", "## References", ""], ReferenceParts(m.references));
      LinesOfThree("", "## References", "");
      LinesOfReferences(m.references);
    }
  }

  lemma LinesOfAbstract(text: string)
    ensures Lines(["", "## Abstract", "", text]) == "\n\n## Abstract\n\n" + text
  {
    assert ["", "## Abstract", "", text] == ["", "## Abstract", ""] + [text];
    LinesAppend(["", "## Abstract", ""], [text]);
    LinesOfThree("", "## Abstract", "");
    LinesOfOne(text);
  }

  lemma LinesOfParts(a: seq<string>, b: seq<string>, c: seq<string>)
    ensures Lines(a + b + c) == Lines(a) + Lines(b) + Lines(c)
  {
    LinesAppend(a + b, c);
    LinesAppend(a, b);
  }

  lemma FourAlike(a: string, b: string, c: string, d: string)
    ensures a + (b + c + d) == a + b + c + d
  {
  }

  lemma JoinOfParts(first: string, a: seq<string>, b: seq<string>, c: seq<string>)
    ensures Join([first] + a + b + c, "\n") == first + Lines(a) + Lines(b) + Lines(c)
  {
    var rest := a + b + c;
    assert [first] + a + b + c == [first] + rest;
    assert ([first] + rest)[1..] == rest;
    JoinIsLines([first] + rest);
    LinesOfParts(a, b, c);
    FourAlike(first, Lines(a), Lines(b), Lines(c));
  }

  /** paper.md is the document: title, abstract, each section under its heading, and the references by number. */
  lemma RenderIsDocument(m: Meta)
    ensures Render(m) == Document(m)
  {
    var a := ["", "## Abstract", "", AbstractOf(m)];
    assert Head(m) + [AbstractOf(m)] == [TitleLine(m)] + a;
    JoinOfParts(TitleLine(m), a, AllSectionParts(m.sections), Foot(m));
    LinesOfAbstract(AbstractOf(m));
    LinesOfSections(m.sections);
    LinesOfFoot(m);
  }

  /** The number a row of digits stands for. */
  function ValueOf(s: string): int {
    if s == "" then 0 else 10 * ValueOf(s[..|s| - 1]) + (s[|s| - 1] as int - '0' as int)
  }

  /** A reference's digits are those of its number, without leading zeros. */
  lemma {:induction false} DigitsSayTheNumber(n: nat)
    ensures ValueOf(Digits(n)) == n && Digits(n) != ""
    ensures n > 0 ==> Digits(n)[0] != '0'
  {
    var last := "0123456789"[n % 10];
    assert last as int - '0' as int == n % 10;
    if n < 10 {
      assert [last][..0] == "";
    } else {
      DigitsSayTheNumber(n / 10);
      assert Digits(n)[..|Digits(n)| - 1] == Digits(n / 10);
    }
  }

  method AddReferences(above: seq<string>, refs: seq<string>) returns (parts: seq<string>)
    ensures parts == above + (["", "## References", ""] + ReferenceParts(refs))
  {
    parts := above + ["", "## References", ""];
    ghost var listed := parts;
    for i := 0 to |refs|
      invariant parts == listed + ReferenceParts(refs[..i])
    {
      assert refs[..i + 1][..i] == refs[..i];
      parts := parts + [ReferenceLine(i + 1, refs[i])];
    }
    assert refs[..|refs|] == refs;
  }

  method RenderPaperMd(m: Meta) returns (md: string)
    ensures md == Render(m)
  {
    var parts := Head(m) + [AbstractOf(m)];
    ghost var start := parts;
    for i := 0 to |m.sections|
      invariant parts == start + AllSectionParts(m.sections[..i])
    {
      assert m.sections[..i + 1][..i] == m.sections[..i];
      parts := parts + SectionParts(m.sections[i]);
    }
    assert m.sections[..|m.sections|] == m.sections;
    assert parts + [] == parts;
    if m.references != [] {
      parts := AddReferences(parts, m.references);
    }
    md := Join(parts, "\n") + "\n";
  }

  /******* The tools *******/

  datatype Arg = Missing | NotString | Str(s: string)

  datatype Refusal = MissingOldText | MissingNewText | Noop | BadSectionTitle | UnknownSection | NoMatch | NotUnique(total: nat) | MissingTitle | MissingBody

  datatype Reply = Refused(why: Refusal) | Done(total: nat)

  /** The shared paper, and the two files on disk. */
  datatype State = State(meta: Meta, savedMeta: Meta, paperMd: string)

  datatype Call =
    | EditSection(sectionTitle: Arg, newBody: Arg)
    | Surgical(oldText: Arg, newText: Arg, replaceAll: bool, section: Arg)

  function Save(m: Meta): State {
    State(m, m, Render(m))
  }

  function ScopeOf(section: Arg): Scope {
    if section.Str? then Only(section.s) else Everywhere
  }

  /** Why a surgical edit is refused, if it is. */
  function SurgicalReply(m: Meta, c: Call): Reply
    requires c.Surgical?
  {
    if !c.oldText.Str? || c.oldText.s == "" then Refused(MissingOldText)
    else if !c.newText.Str? then Refused(MissingNewText)
    else if c.oldText == c.newText then Refused(Noop)
    else if c.section.NotString? || c.section == Str("") then Refused(BadSectionTitle)
    else
      var ts := Targets(m, ScopeOf(c.section), Width(m));
      var total := Total(m, ts, Counter(c.oldText.s));
      if c.section.Str? && ts == [] then Refused(UnknownSection)
      else if total == 0 then Refused(NoMatch)
      else if total > 1 && !c.replaceAll then Refused(NotUnique(total))
      else Done(total)
  }

  // The first section with this very title.
  function FindSection(m: Meta, title: string, from: nat): (r: Option<nat>)
    requires from <= |m.sections|
    ensures r.Some? ==> from <= r.value < |m.sections| && m.sections[r.value].title == title
    ensures r.Some? ==> forall i :: from <= i < r.value ==> m.sections[i].title != title
    ensures r.None? ==> forall i :: from <= i < |m.sections| ==> m.sections[i].title != title
    decreases |m.sections| - from
  {
    if from == |m.sections| then None
    else if m.sections[from].title == title then Some(from)
    else FindSection(m, title, from + 1)
  }

  function EditReply(m: Meta, c: Call): Reply
    requires c.EditSection?
  {
    if !c.sectionTitle.Str? || c.sectionTitle.s == "" then Refused(MissingTitle)
    else if !c.newBody.Str? then Refused(MissingBody)
    else if c.sectionTitle.s in {"Abstract", "abstract"} then Done(1)
    else if FindSection(m, c.sectionTitle.s, 0).None? then Refused(UnknownSection)
    else Done(1)
  }

  function ReplyTo(m: Meta, c: Call): Reply {
    if c.Surgical? then SurgicalReply(m, c) else EditReply(m, c)
  }

  // The paper after an accepted call.
  function Edited(m: Meta, c: Call): Meta
    requires ReplyTo(m, c).Done?
  {
    match c
    case Surgical(o, n, _, section) => MapBodies(m, ScopeOf(section), Replacer(o.s, n.s))
    case EditSection(t, b) =>
      if t.s in {"Abstract", "abstract"} then m.(abs := Some(b.s))
      else SetBody(m, FindSection(m, t.s, 0).value + 1, b.s)
  }

  function Apply(s: State, c: Call): State {
    if ReplyTo(s.meta, c).Done? then Save(Edited(s.meta, c)) else s
  }

  datatype Hit = Hit(count: nat, place: nat, body: string)

  predicate HitOk(m: Meta, h: Hit, count: string -> nat) {
    IsPlace(m, h.place) && h.body == Body(m, h.place) && h.count == count(h.body) && h.count > 0
  }

  method FindHits(m: Meta, ts: seq<nat>, count: string -> nat) returns (hits: seq<Hit>, total: nat)
    requires forall w <- ts :: IsPlace(m, w)
    ensures total == Total(m, ts, count)
    ensures forall h <- hits :: HitOk(m, h, count) && h.count <= total && h.place in ts
    ensures forall w <- ts :: count(Body(m, w)) > 0 ==> Hit(count(Body(m, w)), w, Body(m, w)) in hits
  {
    hits, total := [], 0;
    for i := 0 to |ts|
      invariant total == Total(m, ts[..i], count)
      invariant forall h <- hits :: HitOk(m, h, count) && h.count <= total && h.place in ts
      invariant forall k :: 0 <= k < i && count(Body(m, ts[k])) > 0 ==>
        Hit(count(Body(m, ts[k])), ts[k], Body(m, ts[k])) in hits
    {
      assert ts[..i + 1][..i] == ts[..i];
      var body := Body(m, ts[i]);
      var c := count(body);
      if c > 0 {
        hits := hits + [Hit(c, ts[i], body)];
        total := total + c;
      }
    }
    assert ts[..|ts|] == ts;
  }

  // The paper with each hit's stored body rewritten in its place.
  function RewriteHits(m: Meta, hits: seq<Hit>, count: string -> nat, f: string -> string): (r: Meta)
    requires forall h <- hits :: HitOk(m, h, count)
    ensures Skeleton(m, r)
  {
    if hits == [] then m
    else
      var h := hits[|hits| - 1];
      assert HitOk(m, h, count);
      SetBody(RewriteHits(m, hits[..|hits| - 1], count, f), h.place, f(h.body))
  }

  method NewBody(body: string, o: string, n: string, replaceAll: bool) returns (b: string)
    requires o != "" && (replaceAll || Count(body, o) == 1)
    ensures b == ReplaceAll(body, o, n)
  {
    if replaceAll {
      b := ReplaceAll(body, o, n);
    } else {
      OneReplaced(body, o, n);
      var i := Find(body, o, 0).value;
      b := body[..i] + n + body[i + |o|..];
    }
  }

  method Rewrite(m: Meta, hits: seq<Hit>, o: string, n: string, replaceAll: bool) returns (r: Meta)
    requires o != "" && forall h <- hits :: HitOk(m, h, Counter(o)) && (replaceAll || h.count == 1)
    ensures r == RewriteHits(m, hits, Counter(o), Replacer(o, n))
  {
    r := m;
    for k := 0 to |hits|
      invariant r == RewriteHits(m, hits[..k], Counter(o), Replacer(o, n))
    {
      var h := hits[k];
      assert hits[..k + 1][..k] == hits[..k];
      assert HitOk(m, h, Counter(o));
      var newBody := NewBody(h.body, o, n, replaceAll);
      r := SetBody(r, h.place, newBody);
    }
    assert hits[..|hits|] == hits;
  }

  function PlacesOf(hits: seq<Hit>): set<nat> {
    set h <- hits :: h.place
  }

  lemma PlacesGrow(before: seq<Hit>, h: Hit)
    ensures PlacesOf(before + [h]) == PlacesOf(before) + {h.place}
  {
    forall p | p in PlacesOf(before) ensures p in PlacesOf(before + [h]) {
      var g :| g in before && g.place == p;
      assert g in before + [h];
    }
    assert h in before + [h];
  }

  lemma {:induction false} RewrittenBody(m: Meta, hits: seq<Hit>, count: string -> nat, f: string -> string, w: nat)
    requires (forall h <- hits :: HitOk(m, h, count)) && IsPlace(m, w)
    ensures Body(RewriteHits(m, hits, count, f), w) == if w in PlacesOf(hits) then f(Body(m, w)) else Body(m, w)
    decreases |hits|
  {
    if hits != [] {
      var before, h := hits[..|hits| - 1], hits[|hits| - 1];
      assert HitOk(m, h, count);
      PlacesGrow(before, h);
      assert hits == before + [h];
      RewrittenBody(m, before, count, f, w);
    }
  }

  // The hits found are enough when f changes no body without one.
  lemma RewriteIsMap(m: Meta, sc: Scope, ts: seq<nat>, hits: seq<Hit>, count: string -> nat, f: string -> string)
    requires Names(ts, m, sc, Width(m))
    requires forall h <- hits :: HitOk(m, h, count) && h.place in ts
    requires forall w <- ts :: count(Body(m, w)) > 0 ==> Hit(count(Body(m, w)), w, Body(m, w)) in hits
    requires forall b :: count(b) == 0 ==> f(b) == b
    ensures RewriteHits(m, hits, count, f) == MapBodies(m, sc, f)
  {
    var r, e := RewriteHits(m, hits, count, f), MapBodies(m, sc, f);
    forall w: nat | IsPlace(m, w) ensures Body(r, w) == Body(e, w) {
      RewrittenBody(m, hits, count, f, w);
      if w in ts && count(Body(m, w)) > 0 {
        assert Hit(count(Body(m, w)), w, Body(m, w)).place in PlacesOf(hits);
      }
    }
    SameBodies(r, e);
  }

  lemma UncountedStays(o: string, n: string)
    requires o != ""
    ensures forall b :: Counter(o)(b) == 0 ==> Replacer(o, n)(b) == b
  {
    forall b | Counter(o)(b) == 0 ensures Replacer(o, n)(b) == b {
      NoneLeft(b, o, n);
    }
  }

  /** All the checks of a surgical edit, and where it will write. */
  method Plan(m: Meta, oldText: Arg, newText: Arg, replaceAll: bool, section: Arg) returns (reply: Reply, hits: seq<Hit>)
    ensures reply == SurgicalReply(m, Surgical(oldText, newText, replaceAll, section))
    ensures reply.Done? ==> forall h <- hits :: HitOk(m, h, Counter(oldText.s)) && (replaceAll || h.count == 1)
    ensures reply.Done? ==> RewriteHits(m, hits, Counter(oldText.s), Replacer(oldText.s, newText.s)) == MapBodies(m, ScopeOf(section), Replacer(oldText.s, newText.s))
  {
    hits := [];
    if !oldText.Str? || oldText.s == "" { return Refused(MissingOldText), hits; }
    if !newText.Str? { return Refused(MissingNewText), hits; }
    if oldText.s == newText.s { return Refused(Noop), hits; }
    if section.NotString? || section == Str("") { return Refused(BadSectionTitle), hits; }
    var sc := ScopeOf(section);
    var ts := Targets(m, sc, Width(m));
    if section.Str? && ts == [] { return Refused(UnknownSection), hits; }
    var total;
    hits, total := FindHits(m, ts, Counter(oldText.s));
    if total == 0 { return Refused(NoMatch), hits; }
    if total > 1 && !replaceAll { return Refused(NotUnique(total)), hits; }
    UncountedStays(oldText.s, newText.s);
    TargetsName(m, sc, Width(m));
    RewriteIsMap(m, sc, ts, hits, Counter(oldText.s), Replacer(oldText.s, newText.s));
    reply := Done(total);
  }

  class Editor {
    var meta: Meta
    var savedMeta: Meta
    var paperMd: string

    ghost function View(): State
      reads this
    {
      State(meta, savedMeta, paperMd)
    }

    constructor (m: Meta, saved: Meta, md: string)
      ensures View() == State(m, saved, md)
    {
      meta, savedMeta, paperMd := m, saved, md;
    }

    method WritePaperArtifacts()
      modifies this
      ensures View() == Save(old(meta))
    {
      savedMeta := meta;
      paperMd := RenderPaperMd(meta);
    }

    method EditSection(sectionTitle: Arg, newBody: Arg) returns (reply: Reply)
      modifies this
      ensures reply == ReplyTo(old(meta), Call.EditSection(sectionTitle, newBody))
      ensures View() == Apply(old(View()), Call.EditSection(sectionTitle, newBody))
      ensures if reply.Done? then meta == Edited(old(meta), Call.EditSection(sectionTitle, newBody)) else View() == old(View())
    {
      if !sectionTitle.Str? || sectionTitle.s == "" { return Refused(MissingTitle); }
      if !newBody.Str? { return Refused(MissingBody); }
      if sectionTitle.s == "Abstract" || sectionTitle.s == "abstract" {
        meta := meta.(abs := Some(newBody.s));
        WritePaperArtifacts();
        return Done(1);
      }
      var found := FindSection(meta, sectionTitle.s, 0);
      if found.None? { return Refused(UnknownSection); }
      var i := found.value;
      meta := meta.(sections := meta.sections[i := meta.sections[i].(body := newBody.s)]);
      WritePaperArtifacts();
      reply := Done(1);
    }

    method Surgical(oldText: Arg, newText: Arg, replaceAll: bool, section: Arg) returns (reply: Reply)
      modifies this
      ensures reply == ReplyTo(old(meta), Call.Surgical(oldText, newText, replaceAll, section))
      ensures View() == Apply(old(View()), Call.Surgical(oldText, newText, replaceAll, section))
      ensures if reply.Done? then meta == Edited(old(meta), Call.Surgical(oldText, newText, replaceAll, section)) else View() == old(View())
    {
      var hits;
      reply, hits := Plan(meta, oldText, newText, replaceAll, section);
      if reply.Done? {
        meta := Rewrite(meta, hits, oldText.s, newText.s, replaceAll);
        WritePaperArtifacts();
      }
    }
  }

  /******* Runs of calls *******/

  function Exec(s: State, cs: seq<Call>): State {
    if cs == [] then s else Apply(Exec(s, cs[..|cs| - 1]), cs[|cs| - 1])
  }

  function Accepted(s: State, cs: seq<Call>): nat {
    if cs == [] then 0
    else
      var before := cs[..|cs| - 1];
      Accepted(s, before) + (if ReplyTo(Exec(s, before).meta, cs[|cs| - 1]).Done? then 1 else 0)
  }

  /** Over any calls to both tools: once one has been accepted both files show the paper in memory, and until
      then nothing has changed. */
  lemma {:induction false} FilesFollowMemory(s: State, cs: seq<Call>)
    ensures var t := Exec(s, cs);
            if Accepted(s, cs) == 0 then t == s else t.savedMeta == t.meta && t.paperMd == Render(t.meta)
  {
    if cs != [] {
      FilesFollowMemory(s, cs[..|cs| - 1]);
    }
  }

  /******* What one section edit does *******/

  lemma FindSectionIsFirst(m: Meta, title: string, from: nat, k: nat)
    requires from <= k < |m.sections| && m.sections[k].title == title
    requires forall i :: from <= i < k ==> m.sections[i].title != title
    ensures FindSection(m, title, from) == Some(k)
  {
  }

  function EditedPlace(m: Meta, c: Call): nat
    requires c.EditSection? && EditReply(m, c).Done?
  {
    if c.sectionTitle.s in {"Abstract", "abstract"} then 0 else FindSection(m, c.sectionTitle.s, 0).value + 1
  }

  /** An accepted section edit is overwritten by the next one to the same title, and writing the old body back
      restores the paper: it touches one body, the abstract or the first section of that title. */
  lemma SectionEditsOverwrite(m: Meta, c: Call, later: Call)
    requires c.EditSection? && later.EditSection? && EditReply(m, c).Done?
    requires later.sectionTitle == c.sectionTitle && later.newBody.Str?
    ensures var w := EditedPlace(m, c);
            && EditReply(Edited(m, c), later).Done?
            && Edited(Edited(m, c), later) == Edited(m, later)
            && (IsPlace(m, w) && later.newBody.s == Body(m, w) ==> Edited(Edited(m, c), later) == m)
            && forall v: nat :: IsPlace(m, v) && v != w ==> IsPlace(Edited(m, c), v) && Body(Edited(m, c), v) == Body(m, v)
  {
    var t := c.sectionTitle.s;
    var r := Edited(m, c);
    if t !in {"Abstract", "abstract"} {
      var k := FindSection(m, t, 0).value;
      FindSectionIsFirst(r, t, 0, k);
      assert r.sections[k := r.sections[k].(body := later.newBody.s)] == m.sections[k := m.sections[k].(body := later.newBody.s)];
      if later.newBody.s == m.sections[k].body {
        assert m.sections[k := m.sections[k].(body := later.newBody.s)] == m.sections;
      }
    }
  }

  /******* What one surgical edit does *******/

  lemma {:induction false} TotalZero(m: Meta, ts: seq<nat>, count: string -> nat)
    requires (forall v <- ts :: IsPlace(m, v)) && Total(m, ts, count) == 0
    ensures forall v <- ts :: count(Body(m, v)) == 0
    decreases |ts|
  {
    if ts != [] {
      var n := |ts| - 1;
      TotalZero(m, ts[..n], count);
      assert ts == ts[..n] + [ts[n]];
    }
  }

  lemma {:induction false} TotalOne(m: Meta, ts: seq<nat>, count: string -> nat) returns (w: nat)
    requires (forall v <- ts :: IsPlace(m, v)) && Total(m, ts, count) == 1 && Increasing(ts)
    ensures w in ts && count(Body(m, w)) == 1
    ensures forall v <- ts :: v != w ==> count(Body(m, v)) == 0
    decreases |ts|
  {
    var n := |ts| - 1;
    var before := ts[..n];
    assert ts == before + [ts[n]];
    if count(Body(m, ts[n])) == 0 {
      w := TotalOne(m, before, count);
    } else {
      w := ts[n];
      TotalZero(m, before, count);
    }
  }

  lemma OneChangesAt(m: Meta, sc: Scope, ts: seq<nat>, count: string -> nat, f: string -> string, w: nat)
    requires Names(ts, m, sc, Width(m)) && w in ts
    requires forall v <- ts :: v != w ==> count(Body(m, v)) == 0
    requires forall b :: count(b) == 0 ==> f(b) == b
    ensures MapBodies(m, sc, f) == SetBody(m, w, f(Body(m, w)))
  {
    var r, e := MapBodies(m, sc, f), SetBody(m, w, f(Body(m, w)));
    forall v: nat | IsPlace(m, v) ensures Body(r, v) == Body(e, v) {
      if v != w && InScope(m, sc, v) {
        assert v in ts;
        assert count(Body(m, v)) == 0;
      }
    }
    SameBodies(r, e);
  }

  // With a total of one, the map changes one body.
  lemma OneChanges(m: Meta, sc: Scope, ts: seq<nat>, count: string -> nat, f: string -> string) returns (w: nat)
    requires Names(ts, m, sc, Width(m)) && Total(m, ts, count) == 1
    requires forall b :: count(b) == 0 ==> f(b) == b
    ensures IsPlace(m, w) && InScope(m, sc, w) && count(Body(m, w)) == 1
    ensures MapBodies(m, sc, f) == SetBody(m, w, f(Body(m, w)))
  {
    w := TotalOne(m, ts, count);
    OneChangesAt(m, sc, ts, count, f, w);
  }

  lemma AcceptedSurgical(m: Meta, c: Call)
    requires c.Surgical? && SurgicalReply(m, c).Done?
    ensures c.oldText.Str? && c.newText.Str? && c.oldText.s != "" && c.oldText != c.newText
    ensures var total := Total(m, Targets(m, ScopeOf(c.section), Width(m)), Counter(c.oldText.s));
            total > 0 && (!c.replaceAll ==> total == 1)
    ensures Edited(m, c) == MapBodies(m, ScopeOf(c.section), Replacer(c.oldText.s, c.newText.s))
  {
  }

  // The text after its first occurrence of o, at i, has become n.
  predicate Spliced(b: string, o: string, n: string, i: nat, after: string) {
    Find(b, o, 0) == Some(i) && after == b[..i] + n + b[i + |o|..]
  }

  lemma SpliceOf(b: string, o: string, n: string) returns (i: nat)
    requires o != "" && Counter(o)(b) == 1
    ensures Spliced(b, o, n, i, Replacer(o, n)(b))
  {
    OneReplaced(b, o, n);
    i := Find(b, o, 0).value;
  }

  lemma TotalOneSplices(m: Meta, sc: Scope, o: string, n: string) returns (w: nat, i: nat, after: string)
    requires o != "" && Total(m, Targets(m, sc, Width(m)), Counter(o)) == 1
    ensures IsPlace(m, w) && InScope(m, sc, w) && Spliced(Body(m, w), o, n, i, after)
    ensures MapBodies(m, sc, Replacer(o, n)) == SetBody(m, w, after)
  {
    UncountedStays(o, n);
    TargetsName(m, sc, Width(m));
    w := OneChanges(m, sc, Targets(m, sc, Width(m)), Counter(o), Replacer(o, n));
    i := SpliceOf(Body(m, w), o, n);
    after := Replacer(o, n)(Body(m, w));
  }

  lemma ScopedBody(m: Meta, sc: Scope, f: string -> string, w: nat)
    requires IsPlace(m, w)
    ensures IsPlace(MapBodies(m, sc, f), w)
    ensures Body(MapBodies(m, sc, f), w) == if InScope(m, sc, w) then f(Body(m, w)) else Body(m, w)
  {
  }

  /** A surgical edit is accepted exactly when its texts are given and differ, its section if any is named, and the
      bodies in scope hold the old text, once unless every occurrence is to be replaced. */
  lemma AcceptedIff(m: Meta, c: Call)
    requires c.Surgical?
    ensures SurgicalReply(m, c).Done? <==>
              && c.oldText.Str? && c.oldText.s != "" && c.newText.Str? && c.newText != c.oldText
              && !c.section.NotString? && c.section != Str("")
              && var total := Total(m, Targets(m, ScopeOf(c.section), Width(m)), Counter(c.oldText.s));
                 total >= 1 && (total == 1 || c.replaceAll)
  {
  }

  /** An accepted edit limited to a section replaces in the bodies under that title, the abstract's by any case of
      its name, and leaves every other body alone. */
  lemma ScopedEdit(m: Meta, c: Call, w: nat)
    requires c.Surgical? && SurgicalReply(m, c).Done? && c.section.Str? && IsPlace(m, w)
    ensures c.oldText.s != "" && IsPlace(Edited(m, c), w)
    ensures var t := c.section.s;
            var heading := if w == 0 then "Abstract" else if m.sections[w - 1].title == "" then "(untitled)" else m.sections[w - 1].title;
            Body(Edited(m, c), w)
            == if heading == t || (heading == "Abstract" && Lower(t) == "abstract")
               then ReplaceAll(Body(m, w), c.oldText.s, c.newText.s) else Body(m, w)
  {
    AcceptedSurgical(m, c);
    ScopedBody(m, ScopeOf(c.section), Replacer(c.oldText.s, c.newText.s), w);
    assert Replacer(c.oldText.s, c.newText.s)(Body(m, w)) == ReplaceAll(Body(m, w), c.oldText.s, c.newText.s);
  }

  /** An accepted edit in unique mode rewrites one body, at the first occurrence of the old text, and no other. */
  lemma UniqueEditIsOneSplice(m: Meta, c: Call) returns (w: nat, i: nat, after: string)
    requires c.Surgical? && !c.replaceAll && SurgicalReply(m, c).Done?
    ensures IsPlace(m, w) && InScope(m, ScopeOf(c.section), w) && Spliced(Body(m, w), c.oldText.s, c.newText.s, i, after)
    ensures Edited(m, c) == SetBody(m, w, after)
  {
    AcceptedSurgical(m, c);
    w, i, after := TotalOneSplices(m, ScopeOf(c.section), c.oldText.s, c.newText.s);
  }

  /******* Undoing an edit with the tool itself *******/

  lemma {:induction false} TotalCovers(m: Meta, ts: seq<nat>, count: string -> nat, w: nat)
    requires (forall v <- ts :: IsPlace(m, v)) && w in ts
    ensures Total(m, ts, count) >= count(Body(m, w))
    decreases |ts|
  {
    var n := |ts| - 1;
    assert ts == ts[..n] + [ts[n]];
    if w != ts[n] { TotalCovers(m, ts[..n], count, w); }
  }

  lemma {:induction false} SameTargets(a: Meta, b: Meta, sc: Scope, n: nat)
    requires Skeleton(a, b)
    ensures Targets(a, sc, n) == Targets(b, sc, n)
  {
    if n > 0 {
      SameTargets(a, b, sc, n - 1);
      assert IsPlace(a, n - 1) <==> IsPlace(b, n - 1);
      if IsPlace(a, n - 1) { assert Label(a, n - 1) == Label(b, n - 1); }
    }
  }

  lemma AtSplice(b: string, o: string, n: string, i: nat, after: string)
    requires Spliced(b, o, n, i, after)
    ensures At(after, n, i)
  {
    assert after[i..i + |n|] == n;
  }

  // Splicing back at the same position restores the text.
  lemma SpliceBack(b: string, o: string, n: string, i: nat, after: string, j: nat, back: string)
    requires o != "" && n != "" && !OverlapsItself(n)
    requires Spliced(b, o, n, i, after) && Spliced(after, n, o, j, back) && Count(after, n) == 1
    ensures back == b
  {
    AtSplice(b, o, n, i, after);
    OneMeansFirst(after, n, i);
    assert after[..i] == b[..i] && after[i + |n|..] == b[i + |o|..];
    SplitAt(b, o, i);
  }

  lemma FoundIsCounted(s: string, p: string, i: nat)
    requires p != "" && At(s, p, i)
    ensures Counter(p)(s) >= 1
  {
    assert Find(s, p, 0).Some?;
  }

  lemma InTargets(m: Meta, r: Meta, sc: Scope, w: nat)
    requires IsPlace(m, w) && InScope(m, sc, w) && Skeleton(m, r)
    ensures w in Targets(r, sc, Width(r))
  {
    SameTargets(m, r, sc, Width(m));
    TargetsName(m, sc, Width(m));
  }

  lemma SwappedTotal(m: Meta, r: Meta, sc: Scope, w: nat, o: string, n: string, i: nat)
    requires n != "" && IsPlace(m, w) && InScope(m, sc, w) && Skeleton(m, r) && Spliced(Body(m, w), o, n, i, Body(r, w))
    ensures Total(r, Targets(r, sc, Width(r)), Counter(n)) >= 1
  {
    AtSplice(Body(m, w), o, n, i, Body(r, w));
    FoundIsCounted(Body(r, w), n, i);
    InTargets(m, r, sc, w);
    TotalCovers(r, Targets(r, sc, Width(r)), Counter(n), w);
  }

  lemma MapBack(m: Meta, r: Meta, sc: Scope, ts: seq<nat>, w: nat, count: string -> nat, f: string -> string)
    requires IsPlace(m, w) && IsPlace(r, w) && r == SetBody(m, w, Body(r, w))
    requires Names(ts, r, sc, Width(r)) && w in ts && count(Body(r, w)) >= 1 && Total(r, ts, count) == 1
    requires forall b :: count(b) == 0 ==> f(b) == b
    requires count(Body(r, w)) == 1 ==> f(Body(r, w)) == Body(m, w)
    ensures MapBodies(r, sc, f) == m
  {
    var v := TotalOne(r, ts, count);
    assert v == w;
    OneChangesAt(r, sc, ts, count, f, w);
    SameBodies(SetBody(r, w, Body(m, w)), m);
  }

  lemma SplicedBack(b: string, o: string, n: string, i: nat, after: string)
    requires o != "" && n != "" && !OverlapsItself(n) && Spliced(b, o, n, i, after) && Counter(n)(after) == 1
    ensures Replacer(n, o)(after) == b
  {
    var j := SpliceOf(after, n, o);
    SpliceBack(b, o, n, i, after, j, Replacer(n, o)(after));
  }

  lemma SwappedBodies(m: Meta, sc: Scope, w: nat, o: string, n: string, i: nat, after: string)
    requires o != "" && n != "" && !OverlapsItself(n)
    requires IsPlace(m, w) && InScope(m, sc, w) && Spliced(Body(m, w), o, n, i, after)
    requires var r := SetBody(m, w, after); Total(r, Targets(r, sc, Width(r)), Counter(n)) == 1
    ensures MapBodies(SetBody(m, w, after), sc, Replacer(n, o)) == m
  {
    var r := SetBody(m, w, after);
    var ts := Targets(r, sc, Width(r));
    AtSplice(Body(m, w), o, n, i, after);
    FoundIsCounted(after, n, i);
    TargetsName(r, sc, Width(r));
    assert InScope(r, sc, w);
    UncountedStays(n, o);
    if Counter(n)(after) == 1 { SplicedBack(Body(m, w), o, n, i, after); }
    MapBack(m, r, sc, ts, w, Counter(n), Replacer(n, o));
  }

  function Swapped(c: Call): Call
    requires c.Surgical?
  {
    c.(oldText := c.newText, newText := c.oldText)
  }

  /** After the edit, the call with the texts swapped finds the new text more than once or restores the paper. */
  predicate Undone(m: Meta, c: Call)
    requires c.Surgical? && SurgicalReply(m, c).Done?
  {
    var r := Edited(m, c);
    match SurgicalReply(r, Swapped(c))
    case Done(_) => Edited(r, Swapped(c)) == m
    case Refused(why) => why.NotUnique?
  }

  lemma SwappedReply(m: Meta, r: Meta, c: Call)
    requires c.Surgical? && !c.replaceAll && SurgicalReply(m, c).Done? && c.newText.s != ""
    requires Total(r, Targets(r, ScopeOf(c.section), Width(r)), Counter(c.newText.s)) >= 1
    ensures var back := c.(oldText := c.newText, newText := c.oldText);
            var total := Total(r, Targets(r, ScopeOf(c.section), Width(r)), Counter(c.newText.s));
            && SurgicalReply(r, back) == (if total == 1 then Done(1) else Refused(NotUnique(total)))
            && (total == 1 ==> Edited(r, back) == MapBodies(r, ScopeOf(c.section), Replacer(c.newText.s, c.oldText.s)))
  {
    AcceptedSurgical(m, c);
  }

  /** After an accepted edit in unique mode whose new text is not empty and does not overlap itself, the same
      call with the texts swapped either finds the new text more than once or restores the paper exactly. */
  lemma SwappedCallUndoes(m: Meta, c: Call)
    requires c.Surgical? && !c.replaceAll && SurgicalReply(m, c).Done?
    requires c.newText.s != "" && !OverlapsItself(c.newText.s)
    ensures Undone(m, c)
  {
    AcceptedSurgical(m, c);
    var o, n, sc := c.oldText.s, c.newText.s, ScopeOf(c.section);
    var w, i, after := UniqueEditIsOneSplice(m, c);
    var r := SetBody(m, w, after);
    SwappedTotal(m, r, sc, w, o, n, i);
    if Total(r, Targets(r, sc, Width(r)), Counter(n)) == 1 {
      SwappedBodies(m, sc, w, o, n, i, after);
    }
    SwappedReply(m, r, c);
  }

  // A paper that is only an abstract, and a call over all of it.
  function OnlyAbstract(b: string): Meta {
    Meta("", Some(b), [], [])
  }

  function Everything(o: string, n: string): Call {
    Surgical(Str(o), Str(n), false, Missing)
  }

  lemma OneTarget(b: string, count: string -> nat, f: string -> string)
    ensures var m := OnlyAbstract(b);
            && Targets(m, Everywhere, Width(m)) == [0]
            && Total(m, [0], count) == count(b)
            && MapBodies(m, Everywhere, f) == OnlyAbstract(f(b))
  {
    var m := OnlyAbstract(b);
    assert Targets(m, Everywhere, 0) == [];
    assert [0][..0] == [] && Body(m, 0) == b;
  }

  lemma AbstractEdit(b: string, o: string, n: string)
    requires o != "" && o != n && Counter(o)(b) == 1
    ensures SurgicalReply(OnlyAbstract(b), Everything(o, n)) == Done(1)
    ensures Edited(OnlyAbstract(b), Everything(o, n)) == OnlyAbstract(Replacer(o, n)(b))
  {
    OneTarget(b, Counter(o), Replacer(o, n));
  }

  // A text that occurs once behind any k characters: k times one letter, then another.
  function Tall(k: nat): string {
    seq(k, _ => 'a') + "b"
  }

  lemma TallNotBefore(front: string, j: nat)
    requires j < |front|
    ensures !At(front + Tall(|front|), Tall(|front|), j)
  {
    var o := Tall(|front|);
    var s := front + o;
    assert s[j..j + |o|][|front|] == s[j + |front|] == o[j];
  }

  lemma TallIsFound(front: string)
    ensures Find(front + Tall(|front|), Tall(|front|), 0) == Some(|front|)
    ensures Counter(Tall(|front|))(front + Tall(|front|)) == 1
  {
    forall j: nat | j < |front| ensures !At(front + Tall(|front|), Tall(|front|), j) { TallNotBefore(front, j); }
    OneAtEnd(front, Tall(|front|));
  }

  lemma OverlapIsSpliced(n: string, k: nat, o: string)
    requires Overlaps(n, k)
    ensures Counter(n)(n[..k] + n) == 1 && Replacer(n, o)(n[..k] + n) == o + (n[..k] + n)[|n|..]
  {
    var s := n[..k] + n;
    OverlapCountsOnce(n, k);
    OneReplaced(s, n, o);
    assert Find(s, n, 0) == Some(0);
    assert s[..0] + o == o;
  }

  lemma TallBecomes(front: string, n: string)
    ensures Replacer(Tall(|front|), n)(front + Tall(|front|)) == front + n
  {
    var o := Tall(|front|);
    var s := front + o;
    TallIsFound(front);
    OneReplaced(s, o, n);
    assert s[..|front|] == front && s[|front| + |o|..] == "";
    assert front + n + "" == front + n;
  }

  lemma TallInFront(front: string, rest: string)
    requires front != ""
    ensures Tall(|front|) + rest != front + Tall(|front|)
  {
    var k := |front|;
    assert (Tall(k) + rest)[k] == 'b' && (front + Tall(k))[k] == 'a';
  }

  lemma TallOverlapsNot(k: nat, j: nat)
    ensures !Overlaps(Tall(k), j)
  {
    var o := Tall(k);
    if 0 < j < |o| {
      assert o[j..][k - j] == 'b' && o[..|o| - j][k - j] == 'a';
    }
  }

  /** A text that overlaps itself: the paper whose edit to it the swapped call accepts and does not undo. */
  lemma OverlapIsNotUndone(n: string, k: nat)
    requires Overlaps(n, k)
    ensures var m, c := OnlyAbstract(n[..k] + Tall(k)), Everything(Tall(k), n);
            SurgicalReply(m, c).Done? && !Undone(m, c)
  {
    var front := n[..k];
    var o := Tall(k);
    TallOverlapsNot(k, k);
    TallIsFound(front);
    TallBecomes(front, n);
    AbstractEdit(front + o, o, n);
    OverlapIsSpliced(n, k, o);
    AbstractEdit(front + n, n, o);
    TallInFront(front, (front + n)[|n|..]);
  }

  lemma DeletionIsNotUndone()
    ensures var m, c := OnlyAbstract("" + Tall(0)), Everything(Tall(0), "");
            SurgicalReply(m, c).Done? && !Undone(m, c)
  {
    TallIsFound("");
    AbstractEdit("" + Tall(0), Tall(0), "");
  }

  ghost predicate AlwaysUndone(n: string) {
    forall m: Meta, c: Call ::
      c.Surgical? && !c.replaceAll && c.newText == Str(n) && SurgicalReply(m, c).Done? ==> Undone(m, c)
  }

  /** Unique edits to a new text can always be undone by the swapped call, unless that finds more than one
      occurrence, exactly when the text is not empty and does not overlap itself. */
  lemma SwappedCallUndoesIff(n: string)
    ensures AlwaysUndone(n) <==> n != "" && !OverlapsItself(n)
  {
    if n == "" {
      DeletionIsNotUndone();
    } else if OverlapsItself(n) {
      var k :| Overlaps(n, k);
      OverlapIsNotUndone(n, k);
    } else {
      forall m: Meta, c: Call | c.Surgical? && !c.replaceAll && c.newText == Str(n) && SurgicalReply(m, c).Done? ensures Undone(m, c) {
        SwappedCallUndoes(m, c);
      }
    }
  }

  /******* Lengths *******/

  function Length(b: string): nat {
    |b|
  }

  function Times(a: int, d: int): int {
    a * d
  }

  lemma Distribute(a: int, b: int, d: int)
    ensures Times(a + b, d) == Times(a, d) + Times(b, d)
  {
  }

  lemma {:induction false} LengthsGrow(m: Meta, r: Meta, ts: seq<nat>, count: string -> nat, f: string -> string, d: int)
    requires forall b :: Length(f(b)) == Length(b) + Times(count(b), d)
    requires forall w <- ts :: IsPlace(m, w) && IsPlace(r, w) && Body(r, w) == f(Body(m, w))
    ensures Total(r, ts, Length) == Total(m, ts, Length) + Times(Total(m, ts, count), d)
    decreases |ts|
  {
    if ts == [] {
      Distribute(0, 0, d);
    } else {
      var before, w := ts[..|ts| - 1], ts[|ts| - 1];
      assert w in ts;
      LengthsGrow(m, r, before, count, f, d);
      Distribute(Total(m, before, count), count(Body(m, w)), d);
    }
  }

  lemma LengthOfReplaced(o: string, n: string, d: int)
    requires o != "" && d == |n| - |o|
    ensures forall b :: Length(Replacer(o, n)(b)) == Length(b) + Times(Counter(o)(b), d)
  {
    forall b ensures Length(Replacer(o, n)(b)) == Length(b) + Times(Counter(o)(b), d) {
      ReplaceLength(b, o, n, d);
    }
  }

  /** An accepted edit makes exactly the counted replacements: the bodies in scope grow by that many times the
      difference of the texts. */
  lemma EditGrowsByCount(m: Meta, c: Call, d: int)
    requires c.Surgical? && SurgicalReply(m, c).Done? && d == |c.newText.s| - |c.oldText.s|
    ensures var ts := Targets(m, ScopeOf(c.section), Width(m));
            && (forall w <- ts :: IsPlace(Edited(m, c), w))
            && Total(Edited(m, c), ts, Length) == Total(m, ts, Length) + Times(SurgicalReply(m, c).total, d)
  {
    AcceptedSurgical(m, c);
    var sc := ScopeOf(c.section);
    TargetsName(m, sc, Width(m));
    LengthOfReplaced(c.oldText.s, c.newText.s, d);
    LengthsGrow(m, Edited(m, c), Targets(m, sc, Width(m)), Counter(c.oldText.s), Replacer(c.oldText.s, c.newText.s), d);
  }

  /******* paper.md changes where the body changes *******/

  // The rendered text before and after the parts around a body.
  function Before(parts: seq<string>, sep: string): string {
    if parts == [] then "" else parts[0] + sep + Before(parts[1..], sep)
  }

  function Behind(parts: seq<string>, sep: string): string {
    if parts == [] then "" else sep + Join(parts, sep)
  }

  lemma {:induction false} JoinAround(a: seq<string>, b: string, c: seq<string>, sep: string)
    ensures Join(a + [b] + c, sep) == Before(a, sep) + b + Behind(c, sep)
    decreases |a|
  {
    if a == [] {
      assert a + [b] + c == [b] + c;
      if c != [] { JoinCons(b, c, sep); }
    } else {
      assert a + [b] + c == [a[0]] + (a[1..] + [b] + c);
      JoinCons(a[0], a[1..] + [b] + c, sep);
      JoinAround(a[1..], b, c, sep);
    }
  }

  lemma {:induction false} SectionPartsAppend(a: seq<Section>, b: seq<Section>)
    ensures AllSectionParts(a + b) == AllSectionParts(a) + AllSectionParts(b)
    decreases |b|
  {
    if b == [] {
      assert a + b == a;
    } else {
      assert (a + b)[..|a + b| - 1] == a + b[..|b| - 1];
      SectionPartsAppend(a, b[..|b| - 1]);
    }
  }

  lemma OneSection(s: Section)
    ensures AllSectionParts([s]) == ["", "## " + s.title, ""] + [s.body]
  {
    assert [s][..0] == [];
  }

  function PartsAbove(m: Meta, w: nat): seq<string>
    requires IsPlace(m, w)
  {
    if w == 0 then Head(m)
    else Head(m) + [AbstractOf(m)] + AllSectionParts(m.sections[..w - 1]) + ["", "## " + m.sections[w - 1].title, ""]
  }

  function PartsBelow(m: Meta, w: nat): seq<string>
    requires IsPlace(m, w)
  {
    AllSectionParts(m.sections[w..]) + Foot(m)
  }

  lemma SectionPartsAround(upper: seq<Section>, s: Section, lower: seq<Section>)
    ensures AllSectionParts(upper + [s] + lower)
         == AllSectionParts(upper) + ["", "## " + s.title, ""] + [s.body] + AllSectionParts(lower)
  {
    SectionPartsAppend(upper + [s], lower);
    SectionPartsAppend(upper, [s]);
    OneSection(s);
    assert AllSectionParts(upper) + (["", "## " + s.title, ""] + [s.body])
        == AllSectionParts(upper) + ["", "## " + s.title, ""] + [s.body];
  }

  lemma RegroupParts(a: seq<string>, b: seq<string>, c: seq<string>, d: seq<string>, e: seq<string>, f: seq<string>)
    ensures a + (b + c + d + e) + f == (a + b + c) + d + (e + f)
  {
  }

  lemma PartsAroundSection(m: Meta, w: nat, b: string, s: Section)
    requires 0 < w <= |m.sections| && s == m.sections[w - 1].(body := b)
    ensures Parts(SetBody(m, w, b)) == PartsAbove(m, w) + [b] + PartsBelow(m, w)
  {
    var r := SetBody(m, w, b);
    var upper, lower := m.sections[..w - 1], m.sections[w..];
    assert r.sections == upper + [s] + lower;
    SectionPartsAround(upper, s, lower);
    RegroupParts(Head(m) + [AbstractOf(m)], AllSectionParts(upper), ["", "## " + s.title, ""], [b], AllSectionParts(lower), Foot(m));
  }

  lemma PartsAround(m: Meta, w: nat, b: string)
    requires IsPlace(m, w)
    ensures Parts(SetBody(m, w, b)) == PartsAbove(m, w) + [b] + PartsBelow(m, w)
  {
    if w == 0 {
      assert m.sections[0..] == m.sections;
      assert Head(m) + [b] + AllSectionParts(m.sections) + Foot(m) == Head(m) + [b] + (AllSectionParts(m.sections) + Foot(m));
    } else {
      PartsAroundSection(m, w, b, m.sections[w - 1].(body := b));
    }
  }

  lemma RenderAround(m: Meta, w: nat, b: string)
    requires IsPlace(m, w)
    ensures Render(SetBody(m, w, b)) == Before(PartsAbove(m, w), "\n") + b + (Behind(PartsBelow(m, w), "\n") + "\n")
  {
    PartsAround(m, w, b);
    JoinAround(PartsAbove(m, w), b, PartsBelow(m, w), "\n");
  }

  lemma Regroup(a: string, b: string, c: string, d: string, e: string)
    ensures a + (b + c + d) + e == (a + b) + c + (d + e)
  {
  }

  lemma SpliceInside(a: string, b: string, o: string, n: string, i: nat, after: string, z: string) returns (pre: string, post: string)
    requires Spliced(b, o, n, i, after)
    ensures a + b + z == pre + o + post && a + after + z == pre + n + post
  {
    pre, post := a + b[..i], b[i + |o|..] + z;
    SplitAt(b, o, i);
    Regroup(a, b[..i], o, b[i + |o|..], z);
    Regroup(a, b[..i], n, b[i + |o|..], z);
  }
  /** And paper.md changes by that same one splice, and nowhere else. */
  lemma UniqueEditSplicesPaperMd(m: Meta, c: Call) returns (pre: string, post: string)
    requires c.Surgical? && !c.replaceAll && SurgicalReply(m, c).Done?
    ensures Render(m) == pre + c.oldText.s + post
    ensures Render(Edited(m, c)) == pre + c.newText.s + post
  {
    var w, i, after := UniqueEditIsOneSplice(m, c);
    var b, o, n := Body(m, w), c.oldText.s, c.newText.s;
    pre, post := SpliceInside(Before(PartsAbove(m, w), "\n"), b, o, n, i, after, Behind(PartsBelow(m, w), "\n") + "\n");
    RenderAround(m, w, after);
    RenderAround(m, w, b);
    SameBodies(SetBody(m, w, b), m);
  }
}
