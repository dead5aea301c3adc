/**
 The browser's run store: token deltas batched per animation frame, and kernel output kept to its tail.
 */
module RunStore {
  import opened Wrappers

  /******* State *******/

  datatype Stream = Stream(text: string, model: Option<string>, updatedAt: string)

  datatype Pending = Pending(delta: string, model: Option<string>, ts: string)

  datatype Cell = Cell(stdout: string, stderr: string)

  /** `frames` counts the flush callbacks the browser still has to call. */
  datatype Store = Store(
    tokens: map<string, Stream>,
    pending: map<string, Pending>,
    scheduled: bool,
    frames: nat,
    cells: map<int, Cell>)

  datatype Event =
    | Token(agent: string, delta: string, model: Option<string>, ts: string)
    | StageStart(agent: string, ts: string)
    | Output(cell: int, isStderr: bool, text: string)
    | Frame
    | Reset

  const MAX_STREAM_CHARS: nat := 32000
  const NOTE: string := "[\U{2026}truncated to last 32000 chars\U{2026}]\n"

  function Or(m: Option<string>, otherwise: Option<string>): Option<string> {
    if m.Some? then m else otherwise
  }

  function StreamOf(tokens: map<string, Stream>, k: string): Stream {
    if k in tokens then tokens[k] else Stream("", None, "")
  }

  function CellOf(cells: map<int, Cell>, k: int): Cell {
    if k in cells then cells[k] else Cell("", "")
  }

  /** All of a text while it is short, else a note and its last part. */
  function KeepTail(s: string, note: string, max: nat): string {
    if |s| <= max then s else note + s[|s| - max..]
  }

  function Clip(s: string): string {
    KeepTail(s, NOTE, MAX_STREAM_CHARS)
  }

  function Queue(p: Pending, delta: string, model: Option<string>, ts: string): Pending {
    Pending(p.delta + delta, if model.Some? && model.value != "" then model else p.model, ts)
  }

  function Absorb(s: Stream, p: Pending): Stream {
    Stream(s.text + p.delta, Or(p.model, s.model), p.ts)
  }

  function AppendTo(c: Cell, isStderr: bool, text: string): Cell {
    if isStderr then c.(stderr := Clip(c.stderr + text)) else c.(stdout := Clip(c.stdout + text))
  }

  // The streams after the queued entries of the given agents are taken in.
  function Merged(tokens: map<string, Stream>, pending: map<string, Pending>, done: set<string>): map<string, Stream>
    requires done <= pending.Keys
  {
    map k | k in tokens.Keys + done :: if k in done then Absorb(StreamOf(tokens, k), pending[k]) else tokens[k]
  }

  function Flushed(s: Store): Store
    requires s.frames > 0
  {
    s.(frames := s.frames - 1, scheduled := false, pending := map[], tokens := Merged(s.tokens, s.pending, s.pending.Keys))
  }

  /** What each event does to the store. */
  function Step(s: Store, e: Event): Store {
    match e
    case Token(k, delta, model, ts) =>
      if delta == "" then s
      else
        var p := if k in s.pending then Queue(s.pending[k], delta, model, ts) else Pending(delta, model, ts);
        s.(pending := s.pending[k := p], scheduled := true, frames := if s.scheduled then s.frames else s.frames + 1)
    case StageStart(k, ts) =>
      s.(pending := s.pending - {k}, tokens := s.tokens[k := Stream("", StreamOf(s.tokens, k).model, ts)])
    case Output(cell, isStderr, text) =>
      if text == "" then s else s.(cells := s.cells[cell := AppendTo(CellOf(s.cells, cell), isStderr, text)])
    case Frame =>
      if s.frames == 0 then s else Flushed(s)
    case Reset => s.(tokens := map[], pending := map[], cells := map[])
  }

  lemma MergeNone(tokens: map<string, Stream>, pending: map<string, Pending>)
    ensures Merged(tokens, pending, {}) == tokens
  {
  }

  lemma MergeOne(tokens: map<string, Stream>, pending: map<string, Pending>, done: set<string>, k: string, m: map<string, Stream>, next: Stream)
    requires done <= pending.Keys && k in pending && k !in done
    requires m == Merged(tokens, pending, done) && next == Absorb(StreamOf(m, k), pending[k])
    ensures m[k := next] == Merged(tokens, pending, done + {k})
  {
  }

  /******* The store's actions *******/

  // A set in two parts.
  predicate Part(done: set<string>, left: set<string>, all: set<string>) {
    done + left == all && done !! left
  }

  lemma MovePart(done: set<string>, left: set<string>, all: set<string>, k: string)
    requires Part(done, left, all) && k in left
    ensures Part(done + {k}, left - {k}, all) && k in all && k !in done && |left - {k}| < |left|
  {
  }

  method Drain(tokens: map<string, Stream>, pending: map<string, Pending>) returns (t: map<string, Stream>)
    ensures t == Merged(tokens, pending, pending.Keys)
  {
    t := tokens;
    ghost var done := {};
    var left := pending.Keys;
    MergeNone(tokens, pending);
    while left != {}
      invariant Part(done, left, pending.Keys)
      invariant done <= pending.Keys && t == Merged(tokens, pending, done)
      decreases |left|
    {
      var k :| k in left;
      MovePart(done, left, pending.Keys, k);
      MergeOne(tokens, pending, done, k, t, Absorb(StreamOf(t, k), pending[k]));
      t := t[k := Absorb(StreamOf(t, k), pending[k])];
      left, done := left - {k}, done + {k};
    }
  }

  class RunStore {
    var tokens: map<string, Stream>
    var pending: map<string, Pending>
    var scheduled: bool
    var frames: nat
    var cells: map<int, Cell>

    ghost function View(): Store
      reads this
    {
      Store(tokens, pending, scheduled, frames, cells)
    }

    constructor ()
      ensures View() == Store(map[], map[], false, 0, map[])
    {
      tokens, pending, scheduled, frames, cells := map[], map[], false, 0, map[];
    }

    method OnToken(agent: string, delta: string, model: Option<string>, ts: string)
      modifies this
      ensures View() == Step(old(View()), Token(agent, delta, model, ts))
    {
      if delta == "" { return; }
      if agent in pending {
        var p := pending[agent];
        p := p.(delta := p.delta + delta);
        if model.Some? && model.value != "" { p := p.(model := model); }
        p := p.(ts := ts);
        pending := pending[agent := p];
      } else {
        pending := pending[agent := Pending(delta, model, ts)];
      }
      if !scheduled {
        scheduled := true;
        frames := frames + 1;
      }
    }

    method OnFrame()
      requires frames > 0
      modifies this
      ensures View() == Step(old(View()), Frame)
    {
      frames := frames - 1;
      scheduled := false;
      MergeNone(tokens, pending);
      if |pending| > 0 {
        tokens := Drain(tokens, pending);
        pending := map[];
      }
    }

    method OnStageStart(agent: string, ts: string)
      modifies this
      ensures View() == Step(old(View()), StageStart(agent, ts))
    {
      pending := pending - {agent};
      tokens := tokens[agent := Stream("", if agent in tokens then tokens[agent].model else None, ts)];
    }

    method OnKernelOutput(cell: int, isStderr: bool, text: string)
      modifies this
      ensures View() == Step(old(View()), Output(cell, isStderr, text))
    {
      if text == "" { return; }
      var c := if cell in cells then cells[cell] else Cell("", "");
      if isStderr {
        c := c.(stderr := Clip(c.stderr + text));
      } else {
        c := c.(stdout := Clip(c.stdout + text));
      }
      cells := cells[cell := c];
    }

    method DoReset()
      modifies this
      ensures View() == Step(old(View()), Reset)
    {
      pending := map[];
      tokens := map[];
      cells := map[];
    }
  }

  /******* The simple form: no batching, no clipping *******/

  datatype Simple = Simple(streams: map<string, Stream>, output: map<int, Cell>)

  function SimpleStep(s: Simple, e: Event): Simple {
    match e
    case Token(k, delta, model, ts) =>
      if delta == "" then s
      else
        var last := if k in s.streams then s.streams[k] else Stream("", None, "");
        s.(streams := s.streams[k := Stream(last.text + delta, if model.Some? then model else last.model, ts)])
    case StageStart(k, ts) =>
      s.(streams := s.streams[k := Stream("", if k in s.streams then s.streams[k].model else None, ts)])
    case Output(cell, isStderr, text) =>
      var c := if cell in s.output then s.output[cell] else Cell("", "");
      if text == "" then s
      else s.(output := s.output[cell := if isStderr then c.(stderr := c.stderr + text) else c.(stdout := c.stdout + text)])
    case Frame => s
    case Reset => Simple(map[], map[])
  }

  function Exec(s: Store, es: seq<Event>): Store {
    if es == [] then s else Step(Exec(s, es[..|es| - 1]), es[|es| - 1])
  }

  function SimpleExec(s: Simple, es: seq<Event>): Simple {
    if es == [] then s else SimpleStep(SimpleExec(s, es[..|es| - 1]), es[|es| - 1])
  }

  predicate Fresh(s: Store) {
    s.tokens == map[] && s.pending == map[] && !s.scheduled && s.frames == 0 && s.cells == map[]
  }

  /******* Refinement *******/

  // What the reader will see of k once the queue is flushed.
  function Shown(s: Store, k: string): Stream {
    if k in s.pending then Absorb(StreamOf(s.tokens, k), s.pending[k]) else StreamOf(s.tokens, k)
  }

  predicate SameText(a: Stream, b: Stream) {
    a.text == b.text && a.updatedAt == b.updatedAt
  }

  ghost predicate StreamsRefine(s: Store, n: Simple) {
    && s.tokens.Keys + s.pending.Keys == n.streams.Keys
    && forall k :: k in n.streams ==> SameText(Shown(s, k), n.streams[k])
  }

  predicate FlushQueued(s: Store) {
    && s.frames == (if s.scheduled then 1 else 0)
    && (s.pending != map[] ==> s.scheduled)
    && (forall k <- s.pending :: s.pending[k].delta != "")
  }

  /** Up to 32000 characters a stream is its whole history, beyond them a note and the last 32000. */
  lemma ClipIs(history: string)
    ensures |history| <= 32000 ==> Clip(history) == history
    ensures |history| > 32000 ==>
      Clip(history) == "[\U{2026}truncated to last 32000 chars\U{2026}]\n" + history[|history| - 32000..]
  {
  }

  predicate CellsRefine(s: Store, n: Simple) {
    && s.cells.Keys == n.output.Keys
    && forall k :: k in s.cells ==> s.cells[k] == Cell(Clip(n.output[k].stdout), Clip(n.output[k].stderr))
  }

  // A last part reaching no further back than b does not see what stands before it.
  lemma LastOf(a: string, b: string, max: nat)
    requires max <= |b|
    ensures (a + b)[|a + b| - max..] == b[|b| - max..]
  {
  }

  lemma KeepLong(a: string, b: string, note: string, max: nat)
    requires max <= |b| && (|a| > 0 || |b| > max || note == "")
    ensures KeepTail(a + b, note, max) == (if |a + b| > max then note else "") + b[|b| - max..]
  {
    LastOf(a, b, max);
  }

  lemma Regroup(a: string, b: string, c: string)
    ensures a + b + c == a + (b + c)
  {
  }

  /** Clipping as the text grows keeps what clipping the whole text at once keeps. */
  lemma KeepTailStep(history: string, delta: string, note: string, max: nat)
    requires note != ""
    ensures KeepTail(KeepTail(history, note, max) + delta, note, max) == KeepTail(history + delta, note, max)
  {
    if |history| > max {
      var front, tail := history[..|history| - max], history[|history| - max..];
      KeepLong(note, tail + delta, note, max);
      KeepLong(front, tail + delta, note, max);
      Regroup(note, tail, delta);
      Regroup(front, tail, delta);
      assert front + tail == history;
    }
  }

  lemma CellStep(s: Store, n: Simple, e: Event)
    requires CellsRefine(s, n)
    ensures CellsRefine(Step(s, e), SimpleStep(n, e))
  {
    if e.Output? && e.text != "" {
      KeepTailStep(CellOf(n.output, e.cell).stdout, e.text, NOTE, MAX_STREAM_CHARS);
      KeepTailStep(CellOf(n.output, e.cell).stderr, e.text, NOTE, MAX_STREAM_CHARS);
    }
  }

  lemma TokenStep(s: Store, n: Simple, e: Event)
    requires e.Token? && StreamsRefine(s, n)
    ensures StreamsRefine(Step(s, e), SimpleStep(n, e))
  {
    var t := Step(s, e);
    var m := SimpleStep(n, e);
    if e.delta != "" {
      assert t.tokens == s.tokens;
      forall k | k in m.streams ensures SameText(Shown(t, k), m.streams[k]) {
        if k == e.agent {
          assert Shown(t, k).text == Shown(s, k).text + e.delta;
        }
      }
    }
  }

  lemma FrameStep(s: Store, n: Simple)
    requires StreamsRefine(s, n) && FlushQueued(s)
    ensures StreamsRefine(Step(s, Frame), n)
    ensures Step(s, Frame).pending == map[]
  {
    assert forall k :: k in n.streams ==> Shown(Step(s, Frame), k) == Shown(s, k);
  }

  lemma StageStep(s: Store, n: Simple, agent: string, ts: string)
    requires StreamsRefine(s, n)
    ensures StreamsRefine(Step(s, StageStart(agent, ts)), SimpleStep(n, StageStart(agent, ts)))
  {
    var t := Step(s, StageStart(agent, ts));
    assert t.tokens.Keys + t.pending.Keys == s.tokens.Keys + s.pending.Keys + {agent};
    forall k | k in n.streams && k != agent ensures Shown(t, k) == Shown(s, k) {
      assert k in t.pending <==> k in s.pending;
    }
    assert Shown(t, agent) == t.tokens[agent];
  }

  lemma StreamStep(s: Store, n: Simple, e: Event)
    requires StreamsRefine(s, n) && FlushQueued(s)
    ensures StreamsRefine(Step(s, e), SimpleStep(n, e))
  {
    match e
    case Token(_, _, _, _) => TokenStep(s, n, e);
    case Frame => FrameStep(s, n);
    case StageStart(_, _) => StageStep(s, n, e.agent, e.ts);
    case Output(_, _, _) =>
      assert forall k :: Shown(Step(s, e), k) == Shown(s, k);
    case Reset =>
  }

  lemma QueueStep(s: Store, e: Event)
    requires FlushQueued(s)
    ensures FlushQueued(Step(s, e))
  {
  }

  /** After any events and frames in any order: the shown text of every agent plus its queued delta is the
      unbatched text since its last stage start, one flush is queued while anything waits, and every cell
      stream is its full history or a note and that history's last part. */
  lemma {:induction false} StoreRefines(s: Store, es: seq<Event>)
    requires Fresh(s)
    ensures StreamsRefine(Exec(s, es), SimpleExec(Simple(map[], map[]), es))
    ensures FlushQueued(Exec(s, es))
    ensures CellsRefine(Exec(s, es), SimpleExec(Simple(map[], map[]), es))
  {
    if es != [] {
      var before := es[..|es| - 1];
      var e := es[|es| - 1];
      StoreRefines(s, before);
      var a, b := Exec(s, before), SimpleExec(Simple(map[], map[]), before);
      StreamStep(a, b, e);
      QueueStep(a, e);
      CellStep(a, b, e);
    }
  }

  /** Once the queued frame has run, the displayed texts are exactly the unbatched ones. */
  lemma FrameShowsAll(s: Store, es: seq<Event>, k: string)
    requires Fresh(s)
    ensures var shown := Step(Exec(s, es), Frame).tokens;
            var simple := SimpleExec(Simple(map[], map[]), es).streams;
            && shown.Keys == simple.Keys
            && (k in simple ==> SameText(shown[k], simple[k]))
  {
    StoreRefines(s, es);
    FrameStep(Exec(s, es), SimpleExec(Simple(map[], map[]), es));
  }

  /******* Where batching is visible: the model name *******/

  ghost predicate ModelsAgree(s: Store, n: Simple) {
    forall k :: Shown(s, k).model == StreamOf(n.streams, k).model
  }

  /** The step loses a model name: a stage starts while another name is still queued, or an empty name
      joins a queue that shows something else. */
  predicate Diverges(s: Store, e: Event) {
    match e
    case StageStart(k, _) =>
      k in s.pending && s.pending[k].model.Some? && s.pending[k].model != StreamOf(s.tokens, k).model
    case Token(k, delta, model, _) =>
      delta != "" && k in s.pending && model == Some("") && Shown(s, k).model != Some("")
    case _ => false
  }

  lemma TokenModel(s: Store, n: Simple, e: Event)
    requires e.Token? && ModelsAgree(s, n)
    ensures ModelsAgree(Step(s, e), SimpleStep(n, e)) <==> !Diverges(s, e)
  {
    var t, m := Step(s, e), SimpleStep(n, e);
    assert forall k :: k != e.agent ==> Shown(t, k) == Shown(s, k) && StreamOf(m.streams, k) == StreamOf(n.streams, k);
    assert Shown(s, e.agent).model == StreamOf(n.streams, e.agent).model;
    assert ModelsAgree(t, m) <==> Shown(t, e.agent).model == StreamOf(m.streams, e.agent).model;
  }

  lemma StageModel(s: Store, n: Simple, e: Event)
    requires e.StageStart? && ModelsAgree(s, n)
    ensures ModelsAgree(Step(s, e), SimpleStep(n, e)) <==> !Diverges(s, e)
  {
    var t, m := Step(s, e), SimpleStep(n, e);
    assert forall k :: k != e.agent ==> Shown(t, k) == Shown(s, k) && StreamOf(m.streams, k) == StreamOf(n.streams, k);
    assert Shown(s, e.agent).model == StreamOf(n.streams, e.agent).model;
    assert ModelsAgree(t, m) <==> Shown(t, e.agent).model == StreamOf(m.streams, e.agent).model;
  }

  /** Batched and unbatched model names stay the same through a step exactly when it does not diverge. */
  lemma ModelsAgreeIff(s: Store, n: Simple, e: Event)
    requires ModelsAgree(s, n)
    ensures ModelsAgree(Step(s, e), SimpleStep(n, e)) <==> !Diverges(s, e)
  {
    match e
    case Token(_, _, _, _) => TokenModel(s, n, e);
    case StageStart(_, _) => StageModel(s, n, e);
    case Frame =>
      assert forall k :: Shown(Step(s, e), k).model == Shown(s, k).model;
    case Output(_, _, _) =>
      assert forall k :: Shown(Step(s, e), k) == Shown(s, k);
    case Reset =>
  }

  ghost predicate ModelsAgreeAfter(s: Store, es: seq<Event>, n: nat)
    requires n <= |es|
  {
    ModelsAgree(Exec(s, es[..n]), SimpleExec(Simple(map[], map[]), es[..n]))
  }

  predicate DivergesAt(s: Store, es: seq<Event>, i: nat)
    requires i < |es|
  {
    Diverges(Exec(s, es[..i]), es[i])
  }

  lemma AgreeOneMore(s: Store, es: seq<Event>, i: nat)
    requires i < |es| && ModelsAgreeAfter(s, es, i)
    ensures ModelsAgreeAfter(s, es, i + 1) <==> !DivergesAt(s, es, i)
  {
    assert es[..i + 1][..i] == es[..i];
    ModelsAgreeIff(Exec(s, es[..i]), SimpleExec(Simple(map[], map[]), es[..i]), es[i]);
  }

  lemma {:induction false} AgreeWhileNoneDiverges(s: Store, es: seq<Event>, n: nat)
    requires Fresh(s) && n <= |es| && forall i :: 0 <= i < n ==> !DivergesAt(s, es, i)
    ensures ModelsAgreeAfter(s, es, n)
  {
    if n > 0 {
      AgreeWhileNoneDiverges(s, es, n - 1);
      AgreeOneMore(s, es, n - 1);
    }
  }

  /** Over any run: the displayed model names, queued ones included, are the unbatched ones after every event
      exactly when no event of the run diverges. */
  lemma ModelsAlwaysAgreeIff(s: Store, es: seq<Event>)
    requires Fresh(s)
    ensures (forall n :: 0 <= n <= |es| ==> ModelsAgreeAfter(s, es, n)) <==> (forall i :: 0 <= i < |es| ==> !DivergesAt(s, es, i))
  {
    if forall n :: 0 <= n <= |es| ==> ModelsAgreeAfter(s, es, n) {
      forall i | 0 <= i < |es| ensures !DivergesAt(s, es, i) {
        assert ModelsAgreeAfter(s, es, i) && ModelsAgreeAfter(s, es, i + 1);
        AgreeOneMore(s, es, i);
      }
    }
    if forall i :: 0 <= i < |es| ==> !DivergesAt(s, es, i) {
      forall n | 0 <= n <= |es| ensures ModelsAgreeAfter(s, es, n) {
        AgreeWhileNoneDiverges(s, es, n);
      }
    }
  }

  /** A name that arrives and is followed by a stage start before the next frame is lost. */
  lemma QueuedModelIsLost(s: Store, k: string, name: string)
    requires Fresh(s) && name != ""
    ensures var es := [Token(k, "x", Some(name), "t1"), StageStart(k, "t2")];
            && Shown(Exec(s, es), k).model == None
            && StreamOf(SimpleExec(Simple(map[], map[]), es).streams, k).model == Some(name)
  {
    var es := [Token(k, "x", Some(name), "t1"), StageStart(k, "t2")];
    assert es[..1] == [es[0]] && es[..1][..0] == [];
    assert Exec(s, es[..1]) == Step(s, es[0]);
    assert SimpleExec(Simple(map[], map[]), es[..1]) == SimpleStep(Simple(map[], map[]), es[0]);
  }
}
