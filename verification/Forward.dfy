/**
 Forwarding a provider's stream: the adapter that turns server-sent events into chunks, and the unfold that
 passes them on, fans tokens out and records the cost at the end.
 */
module Forward {
  import opened Wrappers
  import opened Text
  import opened Router

  datatype Usage = Usage(prompt: nat, completion: nat)

  const NO_USAGE: Usage := Usage(0, 0)

  datatype Chunk = Chunk(delta: string, usage: Option<Usage>, raw: string)

  // What the event stream brings: an event's data, or a transport error.
  datatype Event = Data(text: string) | Broken(why: string)

  type Item = Result<Chunk>

  /** The parser of one frame is a parameter. */
  type Parser = string -> Item

  /******* The adapter *******/

  /** Everything the adapter will yield from here on: it ends at `[DONE]`, at the end of the events, and after
      its first error. */
  function Items(events: seq<Event>, parse: Parser): seq<Item> {
    if events == [] then []
    else
      match events[0]
      case Broken(why) => [Err(Network("sse error: " + why))]
      case Data(text) =>
        if Trim(text) == "[DONE]" then []
        else if parse(text).Err? then [parse(text)]
        else [parse(text)] + Items(events[1..], parse)
  }

  datatype Adapter = Adapter(events: seq<Event>, done: bool, ended: bool)

  function Left(a: Adapter, parse: Parser): seq<Item> {
    if a.done || a.ended then [] else Items(a.events, parse)
  }

  class OpenAIStream {
    var events: seq<Event>
    var done: bool
    var ended: bool
    const parse: Parser

    ghost function View(): Adapter
      reads this
    {
      Adapter(events, done, ended)
    }

    constructor (es: seq<Event>, p: Parser)
      ensures View() == Adapter(es, false, false) && parse == p
    {
      events, done, ended, parse := es, false, false, p;
    }

    // An unfold must not be polled again once it has ended.
    method Next() returns (item: Option<Item>)
      requires !ended
      modifies this
      ensures var was := old(Left(View(), parse));
              && item == (if was == [] then None else Some(was[0]))
              && Left(View(), parse) == (if was == [] then [] else was[1..])
              && (ended <==> item.None?)
    {
      if done { ended := true; return None; }
      if events == [] { ended := true; return None; }
      var event := events[0];
      events := events[1..];
      match event
      case Broken(why) =>
        done := true;
        item := Some(Err(Network("sse error: " + why)));
      case Data(text) =>
        if Trim(text) == "[DONE]" { ended := true; return None; }
        var parsed := parse(text);
        if parsed.Err? { done := true; }
        item := Some(parsed);
    }
  }

  /** Only the last item can be an error. */
  lemma {:induction false} ErrorsEndItems(events: seq<Event>, parse: Parser, i: nat)
    requires i < |Items(events, parse)| && Items(events, parse)[i].Err?
    ensures i == |Items(events, parse)| - 1
  {
    if i > 0 { ErrorsEndItems(events[1..], parse, i - 1); }
  }

  /******* The forwarder *******/

  datatype Frame = ChunkFrame(raw: string) | ErrorFrame(error: ProviderError) | DoneFrame

  datatype Cost = Cost(model: string, usage: Usage)

  /** The frames sent, the tokens handed to the run's event stream, and the cost-recording attempts. */
  datatype Sent = Sent(frames: seq<Frame>, tokens: seq<string>, costs: seq<Cost>)

  /******* One poll, and any number of polls *******/

  datatype Forwarding = Forwarding(items: seq<Item>, usage: Option<Usage>, doneSent: bool, tokens: seq<string>, costs: seq<Cost>)

  function Begin(items: seq<Item>): Forwarding {
    Forwarding(items, None, false, [], [])
  }

  function Later(u: Option<Usage>, c: Chunk): Option<Usage> {
    if c.usage.Some? then c.usage else u
  }

  function TokenOf(c: Chunk, hasRun: bool): seq<string> {
    if hasRun && c.delta != "" then [c.delta] else []
  }

  function CostOf(u: Option<Usage>, model: string): Cost {
    Cost(model, if u.Some? then u.value else NO_USAGE)
  }

  // The cost is recorded, but not yet the end mark sent.
  function Recorded(f: Forwarding, model: string): Forwarding {
    f.(costs := f.costs + [CostOf(f.usage, model)])
  }

  function Polled(f: Forwarding, hasRun: bool, model: string): (Forwarding, Option<Frame>) {
    if f.doneSent then (f, None)
    else if f.items == [] then
      (Recorded(f, model).(doneSent := true), Some(DoneFrame))
    else
      match f.items[0]
      case Ok(c) =>
        (f.(items := f.items[1..], usage := Later(f.usage, c), tokens := f.tokens + TokenOf(c, hasRun)), Some(ChunkFrame(c.raw)))
      case Err(e) => (f.(items := [], doneSent := true), Some(ErrorFrame(e)))
  }

  /** A poll that the client abandons. It can wait in two places: for the upstream, with nothing done yet, and for
      the cost to be recorded, once the upstream has ended. */
  function Abandoned(f: Forwarding, model: string): Forwarding {
    if !f.doneSent && f.items == [] then Recorded(f, model) else f
  }

  // The state and the frames sent after n polls; the client may stop polling at any time.
  function PollN(f: Forwarding, hasRun: bool, model: string, n: nat): (Forwarding, seq<Frame>) {
    if n == 0 then (f, [])
    else
      var (g, frames) := PollN(f, hasRun, model, n - 1);
      var (h, frame) := Polled(g, hasRun, model);
      (h, if frame.Some? then frames + [frame.value] else frames)
  }

  // The client polls n times and goes away, in the middle of one more poll or between polls.
  function Visit(items: seq<Item>, hasRun: bool, model: string, n: nat, midPoll: bool): (Forwarding, seq<Frame>) {
    var (f, frames) := PollN(Begin(items), hasRun, model, n);
    (if midPoll then Abandoned(f, model) else f, frames)
  }

  class ForwardStream {
    const upstream: OpenAIStream
    const hasRun: bool
    const servedModel: string
    var usage: Option<Usage>
    var doneSent: bool
    var costFinalized: bool
    var tokens: seq<string>
    var costs: seq<Cost>

    constructor (up: OpenAIStream, run: bool, model: string)
      requires !up.ended
      ensures upstream == up && hasRun == run && servedModel == model
      ensures usage == None && !doneSent && !costFinalized && tokens == [] && costs == []
    {
      upstream, hasRun, servedModel := up, run, model;
      usage, doneSent, costFinalized, tokens, costs := None, false, false, [], [];
    }

    ghost function View(): Forwarding
      reads this, upstream
    {
      Forwarding(if doneSent then [] else Left(upstream.View(), upstream.parse), usage, doneSent, tokens, costs)
    }

    ghost predicate Valid()
      reads this, upstream
    {
      (!doneSent ==> !upstream.ended) && (costFinalized ==> doneSent)
    }

    method Poll() returns (frame: Option<Frame>)
      requires Valid()
      modifies this, upstream
      ensures Valid()
      ensures (View(), frame) == Polled(old(View()), hasRun, servedModel)
    {
      if doneSent { return None; }
      var next := upstream.Next();
      match next
      case Some(Ok(chunk)) =>
        if chunk.usage.Some? { usage := chunk.usage; }
        assert tokens + [] == tokens;
        if hasRun && chunk.delta != "" { tokens := tokens + [chunk.delta]; }
        frame := Some(ChunkFrame(chunk.raw));
      case Some(Err(e)) =>
        doneSent := true;
        frame := Some(ErrorFrame(e));
      case None =>
        FinalizeCost();
        doneSent := true;
        frame := Some(DoneFrame);
    }

    method FinalizeCost()
      modifies this
      ensures costFinalized && usage == old(usage) && doneSent == old(doneSent) && tokens == old(tokens)
      ensures costs == if old(costFinalized) then old(costs) else old(costs) + [CostOf(usage, servedModel)]
    {
      if !costFinalized {
        costFinalized := true;
        costs := costs + [CostOf(usage, servedModel)];
      }
    }

    // A last poll, dropped while it waits; the stream is not polled again.
    method Abandon()
      requires Valid()
      modifies this, upstream
      ensures costs == Abandoned(old(View()), servedModel).costs && tokens == old(tokens)
    {
      if doneSent { return; }
      var next := upstream.Next();
      if next.None? { FinalizeCost(); }
    }
  }

  /******* The whole output, read off the items *******/

  function Chunks(items: seq<Item>): seq<Chunk> {
    if items == [] || items[0].Err? then [] else [items[0].value] + Chunks(items[1..])
  }

  function RawFrames(cs: seq<Chunk>): seq<Frame> {
    seq(|cs|, i requires 0 <= i < |cs| => ChunkFrame(cs[i].raw))
  }

  // The frame after the chunks: the first error, or the end mark.
  function LastFrame(items: seq<Item>): Frame {
    var k := |Chunks(items)|;
    if k < |items| && items[k].Err? then ErrorFrame(items[k].error) else DoneFrame
  }

  function UsageOf(cs: seq<Chunk>): Option<Usage> {
    if cs == [] then None else Later(UsageOf(cs[..|cs| - 1]), cs[|cs| - 1])
  }

  function TokensOf(cs: seq<Chunk>, hasRun: bool): seq<string> {
    if cs == [] then [] else TokensOf(cs[..|cs| - 1], hasRun) + TokenOf(cs[|cs| - 1], hasRun)
  }

  lemma {:induction false} ChunksAreItems(items: seq<Item>)
    ensures var cs := Chunks(items);
            && |cs| <= |items|
            && (forall i :: 0 <= i < |cs| ==> items[i] == Ok(cs[i]))
            && (|cs| < |items| ==> items[|cs|].Err?)
  {
    if items != [] && items[0].Ok? { ChunksAreItems(items[1..]); }
  }

  // After n polls that gave chunks only.
  predicate Midway(f: Forwarding, items: seq<Item>, hasRun: bool, n: nat)
    requires n <= |Chunks(items)|
  {
    && n <= |items| && f.items == items[n..] && !f.doneSent
    && f.usage == UsageOf(Chunks(items)[..n])
    && f.tokens == TokensOf(Chunks(items)[..n], hasRun)
    && f.costs == []
  }

  lemma {:induction false} ChunkPolls(items: seq<Item>, hasRun: bool, model: string, n: nat)
    requires n <= |Chunks(items)|
    ensures var (f, frames) := PollN(Begin(items), hasRun, model, n);
            Midway(f, items, hasRun, n) && frames == RawFrames(Chunks(items)[..n])
  {
    var cs := Chunks(items);
    ChunksAreItems(items);
    if n == 0 {
      assert items[0..] == items;
    } else {
      ChunkPolls(items, hasRun, model, n - 1);
      assert cs[..n][..n - 1] == cs[..n - 1];
      assert items[n - 1..][0] == items[n - 1] && items[n - 1..][1..] == items[n..];
      assert RawFrames(cs[..n]) == RawFrames(cs[..n - 1]) + [ChunkFrame(cs[n - 1].raw)];
    }
  }

  // After the last frame nothing more happens.
  predicate Closed(f: Forwarding, items: seq<Item>, hasRun: bool, model: string) {
    var cs := Chunks(items);
    && f.doneSent
    && f.tokens == TokensOf(cs, hasRun)
    && f.costs == (if LastFrame(items) == DoneFrame
                   then [CostOf(UsageOf(cs), model)] else [])
  }

  lemma {:induction false} FinalPolls(items: seq<Item>, hasRun: bool, model: string, n: nat)
    requires n > |Chunks(items)|
    ensures var (f, frames) := PollN(Begin(items), hasRun, model, n);
            Closed(f, items, hasRun, model) && frames == RawFrames(Chunks(items)) + [LastFrame(items)]
  {
    var cs := Chunks(items);
    ChunksAreItems(items);
    if n == |cs| + 1 {
      ChunkPolls(items, hasRun, model, |cs|);
      assert cs[..|cs|] == cs;
      assert |cs| < |items| ==> items[|cs|..][0] == items[|cs|];
    } else {
      FinalPolls(items, hasRun, model, n - 1);
    }
  }

  /** All that can ever be sent: the chunks in order, then one error or one end mark. */
  function FullOutput(items: seq<Item>): seq<Frame> {
    RawFrames(Chunks(items)) + [LastFrame(items)]
  }

  function Shorter(a: nat, b: nat): nat {
    if a <= b then a else b
  }

  /** However often the client polls and wherever it goes away: what it got is a prefix of that output, the tokens
      fanned out are those of the chunks it got, and one cost has been recorded exactly when a stream that ends
      cleanly has been read to its end. So a cost without an end mark means that the client went away while the
      cost was being recorded. */
  lemma AnyVisit(items: seq<Item>, hasRun: bool, model: string, n: nat, midPoll: bool)
    ensures var (f, frames) := Visit(items, hasRun, model, n, midPoll);
            var cs := Chunks(items);
            var clean := LastFrame(items) == DoneFrame;
            && frames == FullOutput(items)[..Shorter(n, |cs| + 1)]
            && f.tokens == TokensOf(cs[..Shorter(n, |cs|)], hasRun)
            && (DoneFrame in frames <==> clean && n > |cs|)
            && f.costs == (if clean && (n > |cs| || (n == |cs| && midPoll)) then [CostOf(UsageOf(cs), model)] else [])
  {
    var cs := Chunks(items);
    ChunksAreItems(items);
    if n <= |cs| {
      ChunkPolls(items, hasRun, model, n);
      assert RawFrames(cs[..n]) == FullOutput(items)[..n];
      assert n == |cs| ==> cs[..n] == cs;
    } else {
      FinalPolls(items, hasRun, model, n);
      assert FullOutput(items)[..|cs| + 1] == FullOutput(items);
      assert FullOutput(items)[|cs|] == LastFrame(items);
      assert cs[..|cs|] == cs;
    }
  }

  lemma EndMarkTrims()
    ensures Trim("[DONE]") == "[DONE]"
  {
  }

  /** A connection that ends without the end mark cannot be told from one that sent it: either way the client is
      sent `[DONE]` after the same chunks, and the same cost is recorded. */
  lemma {:induction false} EndMarkMakesNoDifference(events: seq<Event>, parse: Parser)
    ensures Items(events + [Data("[DONE]")], parse) == Items(events, parse)
  {
    if events == [] {
      EndMarkTrims();
    } else {
      assert (events + [Data("[DONE]")])[1..] == events[1..] + [Data("[DONE]")];
      EndMarkMakesNoDifference(events[1..], parse);
    }
  }

  /******* The whole streaming path *******/

  type Opener = string -> Result<seq<Event>>

  datatype Served = Refused(error: ProviderError) | Stream(model: string, end: Forwarding, frames: seq<Frame>)

  function StreamPath(ps: seq<Provider>, primary: string, fallback: seq<string>, open: Opener, parse: Parser, hasRun: bool, polls: nat, midPoll: bool): Served {
    match Found(open, Servable(ps, Chain(primary, fallback)), primary)
    case Err(e) => Refused(e)
    case Ok((model, events)) =>
      var (f, frames) := Visit(Items(events, parse), hasRun, model, polls, midPoll);
      Stream(model, f, frames)
  }

  method PollMany(events: seq<Event>, parse: Parser, hasRun: bool, model: string, polls: nat, midPoll: bool) returns (sent: Sent)
    ensures var (f, frames) := Visit(Items(events, parse), hasRun, model, polls, midPoll);
            sent == Sent(frames, f.tokens, f.costs)
  {
    var up := new OpenAIStream(events, parse);
    var fw := new ForwardStream(up, hasRun, model);
    var frames := [];
    for i := 0 to polls
      invariant fw.Valid() && fw.upstream == up && fw.hasRun == hasRun && fw.servedModel == model
      invariant fresh(up) && fresh(fw)
      invariant (fw.View(), frames) == PollN(Begin(Items(events, parse)), hasRun, model, i)
    {
      var frame := fw.Poll();
      if frame.Some? { frames := frames + [frame.value]; }
    }
    if midPoll { fw.Abandon(); }
    sent := Sent(frames, fw.tokens, fw.costs);
  }

  /** The request served for a client that polls this many times, and may leave in the middle of one more poll. */
  method ServeStream(ps: seq<Provider>, primary: string, fallback: seq<string>, open: Opener, parse: Parser, hasRun: bool, polls: nat, midPoll: bool)
    returns (error: Option<ProviderError>, sent: Sent, tried: seq<string>)
    ensures match StreamPath(ps, primary, fallback, open, parse, hasRun, polls, midPoll)
            case Refused(e) => error == Some(e) && sent == Sent([], [], [])
            case Stream(_, f, frames) => error == None && sent == Sent(frames, f.tokens, f.costs)
    ensures tried == Tried(open, Servable(ps, Chain(primary, fallback)))
  {
    var r;
    r, tried := WithFallback(ps, primary, fallback, open);
    match r
    case Err(e) => return Some(e), Sent([], [], []), tried;
    case Ok((model, events)) =>
      sent := PollMany(events, parse, hasRun, model, polls, midPoll);
      error := None;
  }

  predicate SentBy(f: Forwarding, frames: seq<Frame>, items: seq<Item>, model: string, polls: nat) {
    && frames == FullOutput(items)[..Shorter(polls, |Chunks(items)| + 1)]
    && |f.costs| <= 1 && (forall c <- f.costs :: c.model == model)
  }

  lemma VisitSends(items: seq<Item>, hasRun: bool, model: string, polls: nat, midPoll: bool)
    ensures var (f, frames) := Visit(items, hasRun, model, polls, midPoll);
            SentBy(f, frames, items, model, polls)
  {
    AnyVisit(items, hasRun, model, polls, midPoll);
  }

  /** Once a stream has opened no other model is tried: the frames and any cost are those of the last model
      tried, and every model before it failed in a retryable way. */
  lemma OneModelServes(ps: seq<Provider>, primary: string, fallback: seq<string>, open: Opener, parse: Parser, hasRun: bool, polls: nat, midPoll: bool)
    ensures var served := StreamPath(ps, primary, fallback, open, parse, hasRun, polls, midPoll);
            var tried := Tried(open, Servable(ps, Chain(primary, fallback)));
            && Distinct(tried)
            && (served.Stream? ==>
                  && tried != [] && served.model == tried[|tried| - 1] && open(served.model).Ok?
                  && (forall j :: 0 <= j < |tried| - 1 ==> GoesOn(open, tried[j]))
                  && SentBy(served.end, served.frames, Items(open(served.model).value, parse), served.model, polls))
  {
    EachModelOnce(ps, primary, fallback, open);
    match Found(open, Servable(ps, Chain(primary, fallback)), primary)
    case Err(_) =>
    case Ok((model, events)) => VisitSends(Items(events, parse), hasRun, model, polls, midPoll);
  }

  /******* What the client gets, read off the events *******/

  predicate IsChunk(e: Event, parse: Parser) {
    e.Data? && Trim(e.text) != "[DONE]" && parse(e.text).Ok?
  }

  // The first n events are chunks, and the next one, if there is one, is not.
  predicate ChunksEndAt(events: seq<Event>, parse: Parser, n: nat) {
    && n <= |events|
    && (forall i :: 0 <= i < n ==> IsChunk(events[i], parse))
    && (n < |events| ==> !IsChunk(events[n], parse))
  }

  // The error an event ends the stream with, if it is one.
  function ErrorIn(e: Event, parse: Parser): Option<ProviderError> {
    match e
    case Broken(why) => Some(Network("sse error: " + why))
    case Data(text) =>
      if Trim(text) != "[DONE]" && parse(text).Err? then Some(parse(text).error) else None
  }

  function ErrorAfter(events: seq<Event>, parse: Parser, n: nat): Option<ProviderError> {
    if n < |events| then ErrorIn(events[n], parse) else None
  }

  lemma {:induction false} ChunksEndSomewhere(events: seq<Event>, parse: Parser) returns (n: nat)
    ensures ChunksEndAt(events, parse, n)
  {
    if events == [] || !IsChunk(events[0], parse) {
      n := 0;
    } else {
      n := ChunksEndSomewhere(events[1..], parse);
      n := n + 1;
      assert forall i :: 1 <= i < n ==> events[i] == events[1..][i - 1];
    }
  }

  /** The adapter yields the parse of each event up to the first that is no chunk, and then its error if it is one. */
  lemma {:induction false} ItemsUpToEnd(events: seq<Event>, parse: Parser, n: nat)
    requires ChunksEndAt(events, parse, n)
    ensures var items := Items(events, parse);
            var error := ErrorAfter(events, parse, n);
            && |items| == n + (if error.Some? then 1 else 0)
            && (forall i :: 0 <= i < n ==> items[i] == parse(events[i].text))
            && (error.Some? ==> items[n] == Err(error.value))
  {
    if n > 0 {
      var rest := events[1..];
      assert IsChunk(events[0], parse);
      assert forall i :: 0 <= i < |rest| ==> rest[i] == events[i + 1];
      ItemsUpToEnd(rest, parse, n - 1);
      assert Items(events, parse) == [parse(events[0].text)] + Items(rest, parse);
    }
  }

  lemma ChunksOfItems(items: seq<Item>, n: nat)
    requires n <= |items| && (forall i :: 0 <= i < n ==> items[i].Ok?) && (n < |items| ==> items[n].Err?)
    ensures |Chunks(items)| == n && forall i :: 0 <= i < n ==> Chunks(items)[i] == items[i].value
  {
    ChunksAreItems(items);
  }

  lemma OutputUpToEnd(events: seq<Event>, parse: Parser, n: nat)
    requires ChunksEndAt(events, parse, n)
    ensures var items := Items(events, parse);
            var error := ErrorAfter(events, parse, n);
            && |Chunks(items)| == n
            && (forall i :: 0 <= i < n ==> Ok(Chunks(items)[i]) == parse(events[i].text))
            && LastFrame(items) == if error.Some? then ErrorFrame(error.value) else DoneFrame
  {
    ItemsUpToEnd(events, parse, n);
    ChunksOfItems(Items(events, parse), n);
    forall i | 0 <= i < n ensures Ok(Chunks(Items(events, parse))[i]) == parse(events[i].text) {
      assert IsChunk(events[i], parse);
    }
  }

  // The chunks the first k events parse to.
  function EventChunks(events: seq<Event>, parse: Parser, k: nat): seq<Chunk>
    requires k <= |events| && forall i :: 0 <= i < k ==> IsChunk(events[i], parse)
  {
    seq(k, i requires 0 <= i < k && IsChunk(events[i], parse) => parse(events[i].text).value)
  }

  /** What was sent after this many polls of a stream whose first n events are chunks: the i-th event's chunk as the
      i-th frame, then the next event's error or the end mark, and nothing more; and those chunks' tokens. */
  predicate SentFromEvents(f: Forwarding, frames: seq<Frame>, events: seq<Event>, parse: Parser, hasRun: bool, polls: nat, n: nat)
    requires ChunksEndAt(events, parse, n)
  {
    var error := ErrorAfter(events, parse, n);
    var cs := EventChunks(events, parse, Shorter(polls, n));
    && |frames| == Shorter(polls, n + 1)
    && (forall i :: 0 <= i < |cs| ==> frames[i] == ChunkFrame(cs[i].raw))
    && (n < polls ==> frames[n] == if error.Some? then ErrorFrame(error.value) else DoneFrame)
    && f.tokens == TokensOf(cs, hasRun)
  }

  lemma ChunksOfEvents(events: seq<Event>, parse: Parser, n: nat, k: nat)
    requires ChunksEndAt(events, parse, n) && k <= n
    ensures |Chunks(Items(events, parse))| == n && Chunks(Items(events, parse))[..k] == EventChunks(events, parse, k)
  {
    OutputUpToEnd(events, parse, n);
    forall i | 0 <= i < k ensures Chunks(Items(events, parse))[i] == EventChunks(events, parse, k)[i] {
      assert IsChunk(events[i], parse);
    }
  }

  lemma PrefixOfOutput(items: seq<Item>, polls: nat)
    ensures var cs := Chunks(items);
            var frames := FullOutput(items)[..Shorter(polls, |cs| + 1)];
            && |frames| == Shorter(polls, |cs| + 1)
            && (forall i :: 0 <= i < Shorter(polls, |cs|) ==> frames[i] == ChunkFrame(cs[..Shorter(polls, |cs|)][i].raw))
            && (|cs| < polls ==> frames[|cs|] == LastFrame(items))
  {
  }

  lemma VisitFrames(items: seq<Item>, hasRun: bool, model: string, polls: nat, midPoll: bool)
    ensures var (f, frames) := Visit(items, hasRun, model, polls, midPoll);
            var cs := Chunks(items);
            var got := cs[..Shorter(polls, |cs|)];
            && |frames| == Shorter(polls, |cs| + 1)
            && (forall i :: 0 <= i < |got| ==> frames[i] == ChunkFrame(got[i].raw))
            && (|cs| < polls ==> frames[|cs|] == LastFrame(items))
            && f.tokens == TokensOf(got, hasRun)
  {
    PrefixOfOutput(items, polls);
    AnyVisit(items, hasRun, model, polls, midPoll);
  }

  lemma VisitSendsEvents(events: seq<Event>, parse: Parser, hasRun: bool, model: string, polls: nat, midPoll: bool, n: nat)
    requires ChunksEndAt(events, parse, n)
    ensures var (f, frames) := Visit(Items(events, parse), hasRun, model, polls, midPoll);
            SentFromEvents(f, frames, events, parse, hasRun, polls, n)
  {
    OutputUpToEnd(events, parse, n);
    ChunksOfEvents(events, parse, n, Shorter(polls, n));
    VisitFrames(Items(events, parse), hasRun, model, polls, midPoll);
  }

  /** Whenever a stream is served, what the client gets is read off the events of the model that served it. */
  lemma FramesOfEvents(ps: seq<Provider>, primary: string, fallback: seq<string>, open: Opener, parse: Parser,
      hasRun: bool, polls: nat, midPoll: bool) returns (n: nat)
    ensures var served := StreamPath(ps, primary, fallback, open, parse, hasRun, polls, midPoll);
            served.Stream? ==>
              && open(served.model).Ok? && ChunksEndAt(open(served.model).value, parse, n)
              && SentFromEvents(served.end, served.frames, open(served.model).value, parse, hasRun, polls, n)
  {
    n := 0;
    OneModelServes(ps, primary, fallback, open, parse, hasRun, polls, midPoll);
    match Found(open, Servable(ps, Chain(primary, fallback)), primary)
    case Err(_) =>
    case Ok((model, events)) =>
      n := ChunksEndSomewhere(events, parse);
      VisitSendsEvents(events, parse, hasRun, model, polls, midPoll, n);
  }

  function Deltas(cs: seq<Chunk>): seq<string> {
    seq(|cs|, i requires 0 <= i < |cs| => cs[i].delta)
  }

  /** With a run the tokens are the chunks' text in order, without empty pieces; without one there are none. */
  lemma {:induction false} TokensAreTheText(cs: seq<Chunk>, hasRun: bool)
    ensures "" !in TokensOf(cs, hasRun)
    ensures hasRun ==> Concat(TokensOf(cs, hasRun)) == Concat(Deltas(cs)) && |TokensOf(cs, hasRun)| <= |cs|
    ensures !hasRun ==> TokensOf(cs, hasRun) == []
  {
    if cs != [] {
      var before, c := cs[..|cs| - 1], cs[|cs| - 1];
      TokensAreTheText(before, hasRun);
      assert Deltas(cs) == Deltas(before) + [c.delta];
      ConcatPush(Deltas(before), c.delta);
      if hasRun && c.delta != "" {
        ConcatPush(TokensOf(before, hasRun), c.delta);
      } else {
        assert TokensOf(cs, hasRun) == TokensOf(before, hasRun);
        assert Concat(Deltas(before)) + "" == Concat(Deltas(before));
      }
    }
  }

  /** The usage that is charged is the last one any chunk carried, and nothing if none did. */
  lemma {:induction false} UsageIsTheLast(cs: seq<Chunk>)
    ensures UsageOf(cs).None? <==> forall i :: 0 <= i < |cs| ==> cs[i].usage.None?
    ensures UsageOf(cs).None? ==> forall model :: CostOf(UsageOf(cs), model) == Cost(model, Usage(0, 0))
    ensures UsageOf(cs).Some? ==>
      exists i :: 0 <= i < |cs| && cs[i].usage == UsageOf(cs) && forall j :: i < j < |cs| ==> cs[j].usage.None?
  {
    if cs != [] {
      var n := |cs| - 1;
      UsageIsTheLast(cs[..n]);
      if cs[n].usage.None? && UsageOf(cs[..n]).Some? {
        var i :| 0 <= i < n && cs[..n][i].usage == UsageOf(cs[..n]) && forall j :: i < j < n ==> cs[..n][j].usage.None?;
        assert cs[i].usage == UsageOf(cs);
        assert forall j :: i < j < n ==> cs[j] == cs[..n][j];
      }
    }
  }
}
