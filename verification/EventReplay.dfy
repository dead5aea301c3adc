/**
 The per-run event stream and its replay over WebSocket reconnects.

 Producers draw a sequence number (INCR) and append the event (XADD) in two separate
 round trips. A gateway session rescans the stream from its start and forwards what lies
 above the `last_seq` of the client's hello. The browser keeps one high-water mark.
 The module models all of this as one machine whose steps interleave freely, and proves
 what every run of it keeps.
 */
module EventReplay {
  import opened Wrappers

  datatype Event = Event(num: nat, done: bool)

  /******* The browser client (ws.ts) *******/

  // The backoff table holds three delays, so a fourth failure in a row gives up.
  const BACKOFFS: seq<nat> := [500, 1500, 5000]
  const NORMAL_CLOSURE: nat := 1000
  const ABNORMAL_CLOSURE: nat := 1006

  datatype Client = Client(lastSeq: nat, attempts: nat, closedByUser: bool, terminal: bool)

  function OnOpened(c: Client): Client {
    c.(attempts := 0)
  }

  function OnEventArrived(c: Client, e: Event): Client {
    c.(lastSeq := if e.num > c.lastSeq then e.num else c.lastSeq,
       terminal := c.terminal || e.done)
  }

  predicate WillRetry(c: Client, code: nat) {
    !c.closedByUser && !c.terminal && code != NORMAL_CLOSURE && c.attempts < |BACKOFFS|
  }

  function OnClosed(c: Client, code: nat): Client {
    if WillRetry(c, code) then c.(attempts := c.attempts + 1) else c
  }

  // The client after k closures in a row with this code.
  function ClosedTimes(c: Client, code: nat, k: nat): Client {
    if k == 0 then c else OnClosed(ClosedTimes(c, code, k - 1), code)
  }

  /** Three closures in a row after an open are each followed by a dial, with growing delays, and a fourth is not;
      a clean one is followed by none. */
  lemma {:induction false} RetriesThreeTimes(c: Client, code: nat, k: nat)
    requires !c.closedByUser && !c.terminal && code != 1000
    ensures var d := ClosedTimes(OnOpened(c), code, k);
      && d.attempts == (if k < 3 then k else 3)
      && d == OnOpened(c).(attempts := d.attempts)
      && (WillRetry(d, code) <==> k < 3) && !WillRetry(d, 1000)
      && (k < 3 ==> BACKOFFS[d.attempts] == if k == 0 then 500 else if k == 1 then 1500 else 5000)
  {
    if k > 0 { RetriesThreeTimes(c, code, k - 1); }
  }

  /** The client object. Each callback is tied to the value-level function the machine below uses. */
  class RunWsClient {
    var lastSeq: nat
    var attempts: nat
    var closedByUser: bool
    var terminal: bool
    var connected: bool

    function View(): Client
      reads this
    {
      Client(lastSeq, attempts, closedByUser, terminal)
    }

    constructor ()
      ensures View() == Client(0, 0, false, false) && !connected
    {
      lastSeq, attempts, closedByUser, terminal, connected := 0, 0, false, false, false;
    }

    method Connect() returns (dialled: bool)
      modifies this`connected
      ensures dialled == !(closedByUser || terminal)
      ensures connected == (old(connected) || dialled)
    {
      if closedByUser || terminal { return false; }
      connected := true;
      return true;
    }

    method OnOpen() returns (helloSeq: nat)
      modifies this`attempts
      ensures View() == OnOpened(old(View())) && helloSeq == lastSeq
    {
      attempts := 0;
      helloSeq := lastSeq;
    }

    /** `parsed` is None when the frame is not an agent event; such a frame is ignored. */
    method OnMessage(parsed: Option<Event>) returns (handed: Option<Event>)
      modifies this`lastSeq, this`terminal
      ensures handed == parsed
      ensures View() == if parsed.Some? then OnEventArrived(old(View()), parsed.value) else old(View())
    {
      if parsed.None? { return None; }
      var e := parsed.value;
      if e.num > lastSeq { lastSeq := e.num; }
      if e.done { terminal := true; }
      handed := Some(e);
    }

    method OnClose(code: nat) returns (retryAfter: Option<nat>)
      modifies this`attempts, this`connected
      ensures !connected && View() == OnClosed(old(View()), code)
      ensures retryAfter == if WillRetry(old(View()), code) then Some(BACKOFFS[old(attempts)]) else None
    {
      connected := false;
      if closedByUser || terminal { return None; }
      if code == NORMAL_CLOSURE { return None; }
      if attempts >= |BACKOFFS| { return None; }
      var delay := BACKOFFS[attempts];
      attempts := attempts + 1;
      retryAfter := Some(delay);
    }

    method Close()
      modifies this`closedByUser, this`connected
      ensures View() == old(View()).(closedByUser := true) && !connected
    {
      closedByUser := true;
      connected := false;
    }
  }

  /******* One gateway session (ws_run.rs) *******/

  // A frame carries the stream position of its event: the entry id Redis gave it.
  datatype Frame = Data(pos: nat) | CloseNormal

  // The session read log[next..end) in its last XREAD; `base` is a history variable: how
  // many events the client had been handed when the session started.
  datatype Session = Session(lastSeq: nat, next: nat, end: nat, running: bool, wire: seq<Frame>, base: nat)

  const READ_COUNT: nat := 64

  /** One turn of the inner loop: the cursor advances regardless of the filter. */
  function ForwardOne(s: Session, e: Event): Session {
    var s' := s.(next := s.next + 1);
    if e.num <= s.lastSeq then s'
    else if e.done then s'.(wire := s.wire + [Data(s.next), CloseNormal], running := false)
    else s'.(wire := s.wire + [Data(s.next)])
  }

  function ForwardAll(s: Session, batch: seq<Event>): Session
    decreases |batch|
  {
    if batch == [] || !s.running then s else ForwardAll(ForwardOne(s, batch[0]), batch[1..])
  }

  /** The loop over one XREAD reply, as the handler runs it. */
  method ForwardBatch(s: Session, batch: seq<Event>) returns (s': Session)
    requires s.running
    ensures s' == ForwardAll(s, batch)
  {
    var cursor, wire := s.next, s.wire;
    var i := 0;
    while i < |batch|
      invariant 0 <= i <= |batch|
      invariant ForwardAll(s, batch) == ForwardAll(s.(next := cursor, wire := wire), batch[i..])
    {
      var e := batch[i];
      assert batch[i..][0] == e && batch[i..][1..] == batch[i + 1..];
      var at := cursor;
      cursor := cursor + 1;
      i := i + 1;
      if e.num <= s.lastSeq { continue; }
      wire := wire + [Data(at)];
      if e.done {
        wire := wire + [CloseNormal];
        return s.(next := cursor, wire := wire, running := false);
      }
    }
    s' := s.(next := cursor, wire := wire);
  }

  /******* The whole machine *******/

  datatype Link = Idle(retry: bool) | Connecting | Open(session: Session)

  // `log` keeps every entry ever appended; Redis has forgotten log[..trimmed]. `delivered`
  // lists, in order, the stream positions of the events handed to `onEvent`.
  datatype State = State(counter: nat, pending: map<nat, bool>, log: seq<Event>, trimmed: nat,
                         client: Client, link: Link, delivered: seq<nat>)

  datatype Step =
    | Incr(done: bool)
    | Xadd(num: nat)
    | Abandon(num: nat)
    | Trim(upTo: nat)
    | Connect
    | Refused
    | Opened(helloSeen: bool)
    | Read(hi: nat)
    | Forward
    | SessionEnds
    | Arrive
    | Drop
    | UserClose

  const INIT: State := State(0, map[], [], 0, Client(0, 0, false, false), Idle(true), [])

  function Max(a: nat, b: nat): nat { if a >= b then a else b }

  predicate Enabled(s: State, st: Step) {
    match st
    case Incr(_) => true
    case Xadd(n) => n in s.pending
    case Abandon(n) => n in s.pending
    // Hypothesis carried by the model: trimming never reaches an undelivered entry.
    case Trim(k) => s.trimmed <= k <= |s.log| && forall p: nat :: p < k ==> p in s.delivered
    case Connect => s.link == Idle(true) && !s.client.closedByUser && !s.client.terminal
    case Refused => s.link.Connecting?
    case Opened(_) => s.link.Connecting?
    case Read(hi) =>
      s.link.Open? && s.link.session.running && s.link.session.next == s.link.session.end
      && var lo := Max(s.link.session.next, s.trimmed);
      lo < hi <= |s.log| && hi - lo <= READ_COUNT
    case Forward =>
      s.link.Open? && s.link.session.running
      && s.link.session.next < s.link.session.end && s.link.session.next < |s.log|
    case SessionEnds => s.link.Open? && s.link.session.running
    case Arrive =>
      s.link.Open? && s.link.session.wire != []
      && (s.link.session.wire[0].Data? ==> s.link.session.wire[0].pos < |s.log|)
    case Drop => s.link.Open?
    case UserClose => true
  }

  function Hangup(s: State, code: nat): State {
    s.(link := Idle(WillRetry(s.client, code)), client := OnClosed(s.client, code))
  }

  function Do(s: State, st: Step): State
    requires Enabled(s, st)
  {
    match st
    case Incr(done) => s.(counter := s.counter + 1, pending := s.pending[s.counter + 1 := done])
    case Xadd(n) => s.(pending := s.pending - {n}, log := s.log + [Event(n, s.pending[n])])
    case Abandon(n) => s.(pending := s.pending - {n})
    case Trim(k) => s.(trimmed := k)
    case Connect => s.(link := Connecting)
    case Refused => Hangup(s, ABNORMAL_CLOSURE)
    case Opened(helloSeen) =>
      s.(client := OnOpened(s.client),
         link := Open(Session(if helloSeen then s.client.lastSeq else 0, 0, 0, true, [], |s.delivered|)))
    case Read(hi) =>
      s.(link := Open(s.link.session.(next := Max(s.link.session.next, s.trimmed), end := hi)))
    case Forward => s.(link := Open(ForwardOne(s.link.session, s.log[s.link.session.next])))
    case SessionEnds => s.(link := Open(s.link.session.(running := false)))
    case Arrive =>
      var wire := s.link.session.wire;
      if wire[0].CloseNormal? then Hangup(s, NORMAL_CLOSURE)
      else s.(delivered := s.delivered + [wire[0].pos],
              client := OnEventArrived(s.client, s.log[wire[0].pos]),
              link := Open(s.link.session.(wire := wire[1..])))
    case Drop => Hangup(s, ABNORMAL_CLOSURE)
    case UserClose => s.(client := s.client.(closedByUser := true), link := Idle(false))
  }

  /** The state after a run, or None when some step of it was not enabled. */
  function Exec(steps: seq<Step>): Option<State>
    decreases |steps|
  {
    if steps == [] then Some(INIT)
    else
      var before := Exec(steps[..|steps| - 1]);
      var st := steps[|steps| - 1];
      if before.Some? && Enabled(before.value, st) then Some(Do(before.value, st)) else None
  }

  // Hypothesis carried by the theorems: every hello reaches the gateway inside its window.
  predicate HelloHonoured(steps: seq<Step>) {
    forall i :: 0 <= i < |steps| && steps[i].Opened? ==> steps[i].helloSeen
  }

  predicate Grounded(s: State) {
    forall i :: 0 <= i < |s.delivered| ==> s.delivered[i] < |s.log|
  }

  function Delivered(s: State): (events: seq<Event>)
    requires Grounded(s)
  {
    seq(|s.delivered|, i requires 0 <= i < |s.delivered| => s.log[s.delivered[i]])
  }

  /** Some higher-numbered event stands before position p in the stream. */
  ghost predicate Overtaken(log: seq<Event>, p: nat)
    requires p < |log|
  {
    exists r: nat :: r < p && log[r].num > log[p].num
  }

  predicate StreamInSeqOrder(log: seq<Event>) {
    forall i, j :: 0 <= i < j < |log| ==> log[i].num < log[j].num
  }

  /** All Forward steps the session can take on what it has read. */
  function Drain(s: State): State
    decreases if s.link.Open? then s.link.session.end - s.link.session.next else 0
  {
    if Enabled(s, Forward) then Drain(Do(s, Forward)) else s
  }

  /** The handler's loop over a reply and the machine's single Forward steps agree. */
  lemma {:induction false} DrainIsTheLoop(s: State)
    requires s.link.Open? && s.link.session.next <= s.link.session.end <= |s.log|
    ensures Drain(s) == s.(link := Open(ForwardAll(s.link.session, s.log[s.link.session.next..s.link.session.end])))
    decreases s.link.session.end - s.link.session.next
  {
    var ses := s.link.session;
    if Enabled(s, Forward) {
      var batch := s.log[ses.next..ses.end];
      assert batch[0] == s.log[ses.next] && batch[1..] == s.log[ses.next + 1..ses.end];
      DrainIsTheLoop(Do(s, Forward));
    }
  }

  /******* Invariants *******/

  ghost predicate SequenceInv(s: State) {
    && (forall n :: n in s.pending ==> 1 <= n <= s.counter)
    && (forall i :: 0 <= i < |s.log| ==> 1 <= s.log[i].num <= s.counter && s.log[i].num !in s.pending)
    && (forall i, j :: 0 <= i < j < |s.log| ==> s.log[i].num != s.log[j].num)
  }

  ghost predicate ClientInv(s: State)
    requires Grounded(s)
  {
    && (forall i :: 0 <= i < |s.delivered| ==> s.log[s.delivered[i]].num <= s.client.lastSeq)
    && (s.client.lastSeq > 0 ==> exists i :: 0 <= i < |s.delivered| && s.log[s.delivered[i]].num == s.client.lastSeq)
    && (forall i :: 0 <= i < |s.delivered| - 1 ==> !s.log[s.delivered[i]].done)
    && (s.client.terminal <==> s.delivered != [] && s.log[s.delivered[|s.delivered| - 1]].done)
    && (s.link.Connecting? ==> !s.client.terminal)
    && s.trimmed <= |s.log|
    && (forall p: nat :: p < s.trimmed ==> p in s.delivered)
  }

  // Of two deliveries the later is further on in the stream, or has the higher number.
  ghost predicate OrderInv(s: State)
    requires Grounded(s)
  {
    forall i, j :: 0 <= i < j < |s.delivered| ==>
      s.delivered[i] < s.delivered[j] || s.log[s.delivered[i]].num < s.log[s.delivered[j]].num
  }

  // What the session's high-water mark stands for: the greatest number delivered before it.
  ghost predicate MarkInv(s: State)
    requires Grounded(s)
  {
    s.link.Open? ==>
      var ses := s.link.session;
      && ses.base <= |s.delivered|
      && ses.lastSeq <= s.client.lastSeq
      && (forall i :: 0 <= i < ses.base ==> s.log[s.delivered[i]].num <= ses.lastSeq)
      && (ses.lastSeq > 0 ==> exists i :: 0 <= i < ses.base && s.log[s.delivered[i]].num == ses.lastSeq)
  }

  // What this session sent is above the mark and behind the cursor, in stream order.
  ghost predicate WireInv(s: State)
    requires Grounded(s)
  {
    s.link.Open? ==>
      var ses := s.link.session;
      && ses.next <= ses.end <= |s.log|
      && (forall i :: ses.base <= i < |s.delivered| ==>
            s.delivered[i] < ses.next && s.log[s.delivered[i]].num > ses.lastSeq)
      && (forall k :: 0 <= k < |ses.wire| && ses.wire[k].Data? ==>
            ses.wire[k].pos < ses.next && s.log[ses.wire[k].pos].num > ses.lastSeq)
      && (forall i, k :: ses.base <= i < |s.delivered| && 0 <= k < |ses.wire| && ses.wire[k].Data? ==>
            s.delivered[i] < ses.wire[k].pos)
      && (forall k, l :: 0 <= k < l < |ses.wire| && ses.wire[k].Data? && ses.wire[l].Data? ==>
            ses.wire[k].pos < ses.wire[l].pos)
  }

  // A done event ends the session: it is the last event delivered or on the wire.
  ghost predicate DoneInv(s: State) {
    s.link.Open? ==>
      var ses := s.link.session;
      && (s.client.terminal ==> forall k :: 0 <= k < |ses.wire| ==> ses.wire[k].CloseNormal?)
      && (forall k, l :: 0 <= k < l < |ses.wire| && ses.wire[l].Data? ==>
            ses.wire[k].Data? && ses.wire[k].pos < |s.log| && !s.log[ses.wire[k].pos].done)
      && (ses.running ==> !s.client.terminal)
      && (ses.running ==> forall k :: 0 <= k < |ses.wire| ==>
            ses.wire[k].Data? && ses.wire[k].pos < |s.log| && !s.log[ses.wire[k].pos].done)
  }

  ghost predicate OnWire(s: State, p: nat) {
    s.link.Open? && Data(p) in s.link.session.wire
  }

  /** The session's cursor has passed the entry, which was not handed over and is not on its way. */
  ghost predicate Lost(s: State, p: nat) {
    s.link.Open? && p < s.link.session.next && p !in s.delivered && !OnWire(s, p)
  }

  // What the cursor passed, or what stands before a delivered entry, is delivered, on the
  // wire, or overtaken.
  ghost predicate LossInv(s: State)
    requires Grounded(s)
  {
    && (forall p: nat, i :: 0 <= i < |s.delivered| && p < s.delivered[i] ==>
          p in s.delivered || Overtaken(s.log, p))
    && (s.link.Open? && s.link.session.next <= |s.log| ==>
          forall p: nat :: p < s.link.session.next ==>
            p in s.delivered || OnWire(s, p) || Overtaken(s.log, p))
  }

  ghost predicate Inv(s: State) {
    SequenceInv(s) && Grounded(s) && ClientInv(s) && OrderInv(s) && MarkInv(s) && WireInv(s) && DoneInv(s) && LossInv(s)
  }

  lemma SequenceKept(s: State, st: Step)
    requires SequenceInv(s) && Enabled(s, st)
    ensures SequenceInv(Do(s, st))
    ensures s.log <= Do(s, st).log
  {
  }

  lemma ClientKeptArrive(s: State)
    requires Grounded(s) && ClientInv(s) && DoneInv(s)
    requires Enabled(s, Arrive) && s.link.session.wire[0].Data?
    ensures Grounded(Do(s, Arrive)) && ClientInv(Do(s, Arrive))
  {
    var s', n := Do(s, Arrive), |s.delivered|;
    assert s'.delivered[n] == s.link.session.wire[0].pos;
    assert forall i :: 0 <= i < n ==> s'.delivered[i] == s.delivered[i];
    if s.log[s'.delivered[n]].num > s.client.lastSeq {
      assert s'.log[s'.delivered[n]].num == s'.client.lastSeq;
    } else if s.client.lastSeq > 0 {
      var i :| 0 <= i < n && s.log[s.delivered[i]].num == s.client.lastSeq;
      assert s'.log[s'.delivered[i]].num == s'.client.lastSeq;
    }
    forall p: nat | p < s.trimmed ensures p in s'.delivered {
      assert p in s.delivered;
    }
  }

  lemma ClientKept(s: State, st: Step)
    requires Grounded(s) && ClientInv(s) && DoneInv(s) && Enabled(s, st)
    ensures Grounded(Do(s, st)) && ClientInv(Do(s, st))
  {
    if st.Arrive? && s.link.session.wire[0].Data? {
      ClientKeptArrive(s);
    }
  }

  lemma OrderKept(s: State, st: Step)
    requires Grounded(s) && OrderInv(s) && MarkInv(s) && WireInv(s) && Enabled(s, st)
    ensures Grounded(Do(s, st)) && OrderInv(Do(s, st))
  {
    if st.Arrive? && s.link.session.wire[0].Data? {
      var s', n := Do(s, st), |s.delivered|;
      forall i | 0 <= i < n
        ensures s'.delivered[i] < s'.delivered[n] || s.log[s'.delivered[i]].num < s.log[s'.delivered[n]].num
      {
        assert s'.delivered[i] == s.delivered[i];
      }
    }
  }

  lemma MarkKept(s: State, st: Step)
    requires Grounded(s) && ClientInv(s) && MarkInv(s) && Enabled(s, st) && (st.Opened? ==> st.helloSeen)
    ensures Grounded(Do(s, st)) && MarkInv(Do(s, st))
  {
    if s.link.Open? && Do(s, st).link.Open? && s.link.session.lastSeq > 0 {
      var ses, s' := s.link.session, Do(s, st);
      var i :| 0 <= i < ses.base && s.log[s.delivered[i]].num == ses.lastSeq;
      assert s'.log[s'.delivered[i]].num == ses.lastSeq;
    }
  }

  // The steps that leave the session's frames and the delivered positions alone.
  lemma WireKeptElsewhere(s: State, st: Step)
    requires Grounded(s) && ClientInv(s) && WireInv(s) && Enabled(s, st)
    requires !st.Opened? && !st.Forward? && !st.Arrive?
    ensures Grounded(Do(s, st)) && WireInv(Do(s, st))
  {
  }

  lemma WireKeptForward(s: State)
    requires Grounded(s) && WireInv(s) && Enabled(s, Forward)
    ensures Grounded(Do(s, Forward)) && WireInv(Do(s, Forward))
  {
    var ses, s' := s.link.session, Do(s, Forward);
    var wire' := s'.link.session.wire;
    if s.log[ses.next].num > ses.lastSeq {
      forall k | 0 <= k < |wire'| && wire'[k].Data?
        ensures k <= |ses.wire|
        ensures wire'[k] == if k < |ses.wire| then ses.wire[k] else Data(ses.next)
      {
      }
    }
  }

  lemma WireKeptArrive(s: State)
    requires Grounded(s) && WireInv(s) && Enabled(s, Arrive) && s.link.session.wire[0].Data?
    ensures Grounded(Do(s, Arrive)) && WireInv(Do(s, Arrive))
  {
    var ses, ses' := s.link.session, Do(s, Arrive).link.session;
    assert forall k :: 0 <= k < |ses'.wire| ==> ses'.wire[k] == ses.wire[k + 1];
  }

  lemma WireKept(s: State, st: Step)
    requires Grounded(s) && ClientInv(s) && WireInv(s) && Enabled(s, st)
    ensures Grounded(Do(s, st)) && WireInv(Do(s, st))
  {
    match st
    case Forward => WireKeptForward(s);
    case Arrive => if s.link.session.wire[0].Data? { WireKeptArrive(s); }
    case Opened(_) => assert Do(s, st).link.session.wire == [];
    case _ => WireKeptElsewhere(s, st);
  }

  lemma DoneKeptForward(s: State)
    requires Grounded(s) && ClientInv(s) && WireInv(s) && DoneInv(s) && Enabled(s, Forward)
    ensures DoneInv(Do(s, Forward))
  {
    var ses, s' := s.link.session, Do(s, Forward);
    var wire' := s'.link.session.wire;
    if s.log[ses.next].num > ses.lastSeq {
      assert forall k :: 0 <= k < |ses.wire| ==> wire'[k] == ses.wire[k];
      assert wire'[|ses.wire|] == Data(ses.next);
    }
  }

  lemma DoneKeptArrive(s: State)
    requires Grounded(s) && ClientInv(s) && DoneInv(s)
    requires Enabled(s, Arrive) && s.link.session.wire[0].Data?
    ensures DoneInv(Do(s, Arrive))
  {
    var ses, wire' := s.link.session, Do(s, Arrive).link.session.wire;
    assert forall k :: 0 <= k < |wire'| ==> wire'[k] == ses.wire[k + 1];
    if s.log[ses.wire[0].pos].done {
      forall k | 0 <= k < |wire'| ensures wire'[k].CloseNormal? {
        assert ses.wire[0].pos < |s.log|;
      }
    }
  }

  lemma DoneKept(s: State, st: Step)
    requires Grounded(s) && ClientInv(s) && WireInv(s) && DoneInv(s) && Enabled(s, st)
    ensures DoneInv(Do(s, st))
  {
    if st.Forward? {
      DoneKeptForward(s);
    } else if st.Arrive? && s.link.session.wire[0].Data? {
      DoneKeptArrive(s);
    } else if st.Xadd? && s.link.Open? {
      var log' := Do(s, st).log;
      assert forall p :: 0 <= p < |s.log| ==> log'[p] == s.log[p];
    }
  }

  lemma OvertakenForever(log: seq<Event>, log': seq<Event>, p: nat)
    requires p < |log| && log <= log' && Overtaken(log, p)
    ensures Overtaken(log', p)
  {
    var r: nat :| r < p && log[r].num > log[p].num;
    assert log'[r].num > log'[p].num;
  }

  // A skipped entry lies at or under the mark the session was opened with. The entry that
  // set the mark was delivered, so it either stands before the skipped one or is itself,
  // or the skipped one was settled when that entry was delivered.
  lemma SkippedIsSettled(s: State)
    requires SequenceInv(s) && Grounded(s) && MarkInv(s) && LossInv(s) && Enabled(s, Forward)
    requires s.log[s.link.session.next].num <= s.link.session.lastSeq
    ensures s.link.session.next in s.delivered || Overtaken(s.log, s.link.session.next)
  {
    var ses := s.link.session;
    var i :| 0 <= i < ses.base && s.log[s.delivered[i]].num == ses.lastSeq;
    var q := s.delivered[i];
    if q < ses.next && s.log[ses.next].num < ses.lastSeq {
      assert s.log[q].num > s.log[ses.next].num;
    }
  }

  lemma LossKeptForward(s: State)
    requires SequenceInv(s) && Grounded(s) && MarkInv(s) && LossInv(s) && Enabled(s, Forward)
    ensures Grounded(Do(s, Forward)) && LossInv(Do(s, Forward))
  {
    var ses, s' := s.link.session, Do(s, Forward);
    forall p: nat | p < s'.link.session.next
      ensures p in s'.delivered || OnWire(s', p) || Overtaken(s'.log, p)
    {
      if p == ses.next {
        if s.log[p].num <= ses.lastSeq {
          SkippedIsSettled(s);
        } else {
          assert s'.link.session.wire[|ses.wire|] == Data(p);
        }
      }
    }
  }

  lemma LossKeptArrive(s: State)
    requires Grounded(s) && WireInv(s) && LossInv(s) && Enabled(s, Arrive) && s.link.session.wire[0].Data?
    ensures Grounded(Do(s, Arrive)) && LossInv(Do(s, Arrive))
  {
    var ses, s' := s.link.session, Do(s, Arrive);
    var q := ses.wire[0].pos;
    assert s'.delivered[|s.delivered|] == q;
    forall p: nat | p < ses.next
      ensures p in s'.delivered || OnWire(s', p) || Overtaken(s'.log, p)
      ensures p < q ==> p in s'.delivered || Overtaken(s'.log, p)
    {
      if p in s.delivered {
        assert p in s'.delivered;
      } else if OnWire(s, p) {
        var k :| 0 <= k < |ses.wire| && ses.wire[k] == Data(p);
        if k > 0 { assert s'.link.session.wire[k - 1] == Data(p); }
      }
    }
  }

  lemma LossKeptElsewhere(s: State, st: Step)
    requires Grounded(s) && ClientInv(s) && LossInv(s) && Enabled(s, st)
    requires !st.Forward? && !st.Arrive? && !st.Xadd?
    ensures Grounded(Do(s, st)) && LossInv(Do(s, st))
  {
  }

  lemma LossKept(s: State, st: Step)
    requires Inv(s) && Enabled(s, st)
    ensures Grounded(Do(s, st)) && LossInv(Do(s, st))
  {
    match st
    case Forward => LossKeptForward(s);
    case Arrive => if s.link.session.wire[0].Data? { LossKeptArrive(s); }
    case Xadd(_) =>
      var log' := Do(s, st).log;
      forall p: nat | p < |s.log| && Overtaken(s.log, p) ensures Overtaken(log', p) {
        OvertakenForever(s.log, log', p);
      }
    case _ => LossKeptElsewhere(s, st);
  }

  lemma InvKept(s: State, st: Step)
    requires Inv(s) && Enabled(s, st) && (st.Opened? ==> st.helloSeen)
    ensures Inv(Do(s, st))
  {
    SequenceKept(s, st);
    ClientKept(s, st);
    OrderKept(s, st);
    MarkKept(s, st);
    WireKept(s, st);
    DoneKept(s, st);
    LossKept(s, st);
  }

  lemma {:induction false} InvAlways(steps: seq<Step>)
    requires Exec(steps).Some? && HelloHonoured(steps)
    ensures Inv(Exec(steps).value)
    decreases |steps|
  {
    if steps != [] {
      var n := |steps| - 1;
      InvAlways(steps[..n]);
      InvKept(Exec(steps[..n]).value, steps[n]);
    }
  }

  /******* Theorems over every run *******/

  /** Replay is at most once, and nothing follows a delivered done event. */
  lemma AtMostOnce(steps: seq<Step>)
    requires Exec(steps).Some? && HelloHonoured(steps)
    ensures var s := Exec(steps).value;
      && Grounded(s)
      && (forall i, j :: 0 <= i < j < |s.log| ==> s.log[i].num != s.log[j].num)
      && (forall i, j :: 0 <= i < j < |s.delivered| ==> Delivered(s)[i].num != Delivered(s)[j].num)
      && (forall i :: 0 <= i < |s.delivered| - 1 ==> !Delivered(s)[i].done)
  {
    InvAlways(steps);
  }

  lemma DoneIsFinalStep(s: State, st: Step)
    requires Inv(s) && s.client.terminal && Enabled(s, st)
    ensures Do(s, st).delivered == s.delivered && Do(s, st).client.terminal
    ensures !st.Connect?
  {
  }

  /** From a delivered done event to the end of any run nothing is handed over and the browser never dials again. */
  lemma {:induction false} DoneIsFinal(steps: seq<Step>, n: nat)
    requires Exec(steps).Some? && HelloHonoured(steps)
    requires n <= |steps| && Exec(steps[..n]).Some? && Exec(steps[..n]).value.client.terminal
    ensures Exec(steps).value.delivered == Exec(steps[..n]).value.delivered && Exec(steps).value.client.terminal
    ensures forall i :: n <= i < |steps| ==> !steps[i].Connect?
    decreases |steps|
  {
    if n == |steps| {
      assert steps[..n] == steps;
    } else {
      var before, st := steps[..|steps| - 1], steps[|steps| - 1];
      var t := Exec(before).value;
      assert before[..n] == steps[..n] && steps == before + [st];
      DoneIsFinal(before, n);
      InvAlways(before);
      DoneIsFinalStep(t, st);
    }
  }

  /** An entry the cursor passed without delivering it comes after a higher-numbered one. */
  lemma LossNeedsOvertaking(steps: seq<Step>, p: nat)
    requires Exec(steps).Some? && HelloHonoured(steps)
    requires Lost(Exec(steps).value, p)
    ensures p < |Exec(steps).value.log| && Overtaken(Exec(steps).value.log, p)
  {
    InvAlways(steps);
  }

  lemma {:induction false} InOrderPositions(s: State, n: nat)
    requires Grounded(s) && OrderInv(s) && LossInv(s) && StreamInSeqOrder(s.log) && n <= |s.delivered|
    ensures forall i :: 0 <= i < n ==> s.delivered[i] == i
  {
    if n > 0 {
      InOrderPositions(s, n - 1);
      var d, q := s.delivered, s.delivered[n - 1];
      assert n - 1 <= q by {
        if n >= 2 { assert d[n - 2] < q; }
      }
      assert n - 1 in d || n - 1 >= q;
      if n - 1 in d {
        var j :| 0 <= j < |d| && d[j] == n - 1;
        assert j >= n - 1;
        assert d[j] >= q;
      }
    }
  }

  lemma InOrderState(s: State)
    requires Inv(s) && StreamInSeqOrder(s.log)
    ensures Delivered(s) <= s.log
    ensures s.link.Open? && s.link.session.next == |s.log| && s.link.session.wire == [] ==> Delivered(s) == s.log
  {
    var n, m := |s.delivered|, |s.log|;
    InOrderPositions(s, n);
    if n > 0 { assert s.delivered[n - 1] == n - 1; }
    assert n <= m;
    if s.link.Open? && s.link.session.next == m && s.link.session.wire == [] && m > 0 {
      assert m - 1 in s.delivered;
    }
    assert Delivered(s) == s.log[..n];
  }

  /** When the stream stands in seq order, what was delivered is a prefix of it, across any
      number of drops and reconnects, and a session that has caught up has delivered it all. */
  lemma InOrderDeliversPrefix(steps: seq<Step>)
    requires Exec(steps).Some? && HelloHonoured(steps)
    requires StreamInSeqOrder(Exec(steps).value.log)
    ensures var s := Exec(steps).value;
      && Grounded(s) && Delivered(s) <= s.log
      && (s.link.Open? && s.link.session.next == |s.log| && s.link.session.wire == [] ==> Delivered(s) == s.log)
  {
    InvAlways(steps);
    InOrderState(Exec(steps).value);
  }

  /******* What is lost stays lost *******/

  // A done event that was sent stands right behind the cursor, and so does one that was handed over.
  ghost predicate StopInv(s: State)
    requires Grounded(s)
  {
    s.link.Open? ==>
      && (forall p: nat :: OnWire(s, p) && p < |s.log| && s.log[p].done ==> s.link.session.next == p + 1)
      && (s.client.terminal ==> s.delivered != [] && s.link.session.next == s.delivered[|s.delivered| - 1] + 1)
  }

  // The cursor passes an entry because it was sent, because it is known to be delivered, or because of the mark.
  ghost predicate PassedInv(s: State) {
    s.link.Open? && s.link.session.next <= |s.log| ==>
      forall p: nat :: p < s.link.session.next ==>
        p in s.delivered || OnWire(s, p) || s.log[p].num <= s.link.session.lastSeq
  }

  lemma SentOnForward(s: State, p: nat)
    requires Enabled(s, Forward)
    ensures OnWire(Do(s, Forward), p) <==>
      OnWire(s, p) || (p == s.link.session.next && s.log[p].num > s.link.session.lastSeq)
  {
    var ses, wire' := s.link.session, Do(s, Forward).link.session.wire;
    if s.log[ses.next].num > ses.lastSeq {
      assert wire' == ses.wire + [Data(ses.next)] + wire'[|ses.wire| + 1..];
    }
  }

  lemma SentOnArrive(s: State, p: nat)
    requires Enabled(s, Arrive) && s.link.session.wire[0].Data?
    ensures OnWire(Do(s, Arrive), p) ==> OnWire(s, p)
    ensures OnWire(s, p) ==> OnWire(Do(s, Arrive), p) || p in Do(s, Arrive).delivered
    ensures p in s.delivered ==> p in Do(s, Arrive).delivered
  {
    var wire := s.link.session.wire;
    assert wire == [wire[0]] + wire[1..];
    assert Do(s, Arrive).delivered[|s.delivered|] == wire[0].pos;
  }

  lemma NoDoneOnWire(s: State, p: nat)
    requires DoneInv(s) && OnWire(s, p) && s.link.session.running
    ensures p < |s.log| && !s.log[p].done
  {
    var k :| 0 <= k < |s.link.session.wire| && s.link.session.wire[k] == Data(p);
    assert s.link.session.wire[k].pos == p;
  }

  lemma StopKeptForward(s: State)
    requires Grounded(s) && WireInv(s) && DoneInv(s) && StopInv(s) && Enabled(s, Forward)
    ensures StopInv(Do(s, Forward))
  {
    forall p: nat | OnWire(Do(s, Forward), p) && s.log[p].done ensures p == s.link.session.next {
      SentOnForward(s, p);
      if OnWire(s, p) { NoDoneOnWire(s, p); }
    }
  }

  lemma StopKeptArrive(s: State)
    requires Grounded(s) && WireInv(s) && DoneInv(s) && StopInv(s) && Enabled(s, Arrive) && s.link.session.wire[0].Data?
    ensures Grounded(Do(s, Arrive)) && StopInv(Do(s, Arrive))
  {
    var q := s.link.session.wire[0].pos;
    assert OnWire(s, q);
    forall p: nat | OnWire(Do(s, Arrive), p) ensures OnWire(s, p) { SentOnArrive(s, p); }
    assert !s.client.terminal;
  }

  lemma StopKeptXadd(s: State, n: nat)
    requires Grounded(s) && WireInv(s) && StopInv(s) && Enabled(s, Xadd(n))
    ensures Grounded(Do(s, Xadd(n))) && StopInv(Do(s, Xadd(n)))
  {
    assert forall p: nat :: OnWire(Do(s, Xadd(n)), p) ==> OnWire(s, p) && p < |s.log|;
  }

  lemma StopKeptElsewhere(s: State, st: Step)
    requires Grounded(s) && ClientInv(s) && DoneInv(s) && StopInv(s) && Enabled(s, st)
    requires !st.Forward? && !st.Arrive? && !st.Xadd?
    ensures Grounded(Do(s, st)) && StopInv(Do(s, st))
  {
    if st.Read? {
      forall p: nat | OnWire(s, p) ensures p < |s.log| && !s.log[p].done { NoDoneOnWire(s, p); }
    }
  }

  lemma StopKept(s: State, st: Step)
    requires Grounded(s) && ClientInv(s) && WireInv(s) && DoneInv(s) && StopInv(s) && Enabled(s, st)
    ensures Grounded(Do(s, st)) && StopInv(Do(s, st))
  {
    match st
    case Forward => StopKeptForward(s);
    case Arrive => if s.link.session.wire[0].Data? { StopKeptArrive(s); }
    case Xadd(n) => StopKeptXadd(s, n);
    case _ => StopKeptElsewhere(s, st);
  }

  lemma PassedKeptForward(s: State)
    requires PassedInv(s) && Enabled(s, Forward)
    ensures PassedInv(Do(s, Forward))
  {
    var s' := Do(s, Forward);
    forall p: nat | p < s'.link.session.next
      ensures p in s'.delivered || OnWire(s', p) || s'.log[p].num <= s'.link.session.lastSeq
    {
      SentOnForward(s, p);
    }
  }

  lemma PassedKeptArrive(s: State)
    requires PassedInv(s) && Enabled(s, Arrive) && s.link.session.wire[0].Data?
    ensures PassedInv(Do(s, Arrive))
  {
    forall p: nat | p < s.link.session.next
      ensures OnWire(s, p) || p in s.delivered ==> p in Do(s, Arrive).delivered || OnWire(Do(s, Arrive), p)
    {
      SentOnArrive(s, p);
    }
  }

  lemma PassedKept(s: State, st: Step)
    requires Grounded(s) && ClientInv(s) && WireInv(s) && PassedInv(s) && Enabled(s, st)
    ensures PassedInv(Do(s, st))
  {
    match st
    case Forward => PassedKeptForward(s);
    case Arrive => if s.link.session.wire[0].Data? { PassedKeptArrive(s); }
    case _ =>
  }

  ghost predicate FullInv(s: State) {
    Inv(s) && StopInv(s) && PassedInv(s)
  }

  lemma FullInvKept(s: State, st: Step)
    requires FullInv(s) && Enabled(s, st) && (st.Opened? ==> st.helloSeen)
    ensures FullInv(Do(s, st))
  {
    InvKept(s, st);
    StopKept(s, st);
    PassedKept(s, st);
  }

  lemma {:induction false} FullInvAlways(steps: seq<Step>)
    requires Exec(steps).Some? && HelloHonoured(steps)
    ensures FullInv(Exec(steps).value)
    decreases |steps|
  {
    if steps != [] {
      var n := |steps| - 1;
      FullInvAlways(steps[..n]);
      FullInvKept(Exec(steps[..n]).value, steps[n]);
    }
  }

  // Not handed over, not on its way, and at or below every mark to come.
  ghost predicate Settled(s: State, p: nat) {
    && p < |s.log| && p !in s.delivered && !OnWire(s, p)
    && s.log[p].num <= s.client.lastSeq
    && (s.link.Open? ==> p < s.link.session.next || s.log[p].num <= s.link.session.lastSeq)
  }

  lemma SettledKept(s: State, st: Step, p: nat)
    requires Inv(s) && Settled(s, p) && Enabled(s, st) && (st.Opened? ==> st.helloSeen)
    ensures Settled(Do(s, st), p)
  {
  }

  lemma {:induction false} SettledAlways(steps: seq<Step>, n: nat, p: nat)
    requires Exec(steps).Some? && HelloHonoured(steps) && n <= |steps| && Exec(steps[..n]).Some?
    requires Lost(Exec(steps[..n]).value, p)
    ensures Settled(Exec(steps).value, p)
    decreases |steps|
  {
    if n == |steps| {
      assert steps[..n] == steps;
      FullInvAlways(steps);
    } else {
      var before := steps[..|steps| - 1];
      assert before[..n] == steps[..n];
      SettledAlways(before, n, p);
      InvAlways(before);
      SettledKept(Exec(before).value, steps[|steps| - 1], p);
    }
  }

  /** What is lost stays lost: no honoured continuation hands it over. */
  lemma LostForever(steps: seq<Step>, n: nat, p: nat)
    requires Exec(steps).Some? && HelloHonoured(steps)
    requires n <= |steps| && Exec(steps[..n]).Some? && Lost(Exec(steps[..n]).value, p)
    ensures p !in Exec(steps).value.delivered && !OnWire(Exec(steps).value, p)
  {
    SettledAlways(steps, n, p);
  }

  /******* The ordering hypothesis is exact: every overtaken entry can be lost *******/

  ghost predicate Reaches(steps: seq<Step>, s: State) {
    Exec(steps) == Some(s) && HelloHonoured(steps)
  }

  lemma Then(steps: seq<Step>, s: State, st: Step) returns (more: seq<Step>, s': State)
    requires Exec(steps) == Some(s) && Enabled(s, st)
    ensures more == steps + [st] && s' == Do(s, st) && Exec(more) == Some(s')
  {
    more, s' := steps + [st], Do(s, st);
    assert more[..|more| - 1] == steps;
  }

  lemma Extend(steps: seq<Step>, s: State, st: Step) returns (more: seq<Step>)
    requires Reaches(steps, s) && Enabled(s, st) && (st.Opened? ==> st.helloSeen)
    ensures Reaches(more, Do(s, st))
  {
    var s';
    more, s' := Then(steps, s, st);
  }

  // A stream the producers can write: distinct positive numbers.
  ghost predicate Writable(log: seq<Event>) {
    && (forall i :: 0 <= i < |log| ==> log[i].num >= 1)
    && (forall i, j :: 0 <= i < j < |log| ==> log[i].num != log[j].num)
  }

  // The first i events are in the stream; the others have their number and wait for XADD.
  ghost predicate Fed(s: State, log: seq<Event>, i: nat) {
    && i <= |log| && s.log == log[..i] && s.trimmed == 0
    && forall j :: i <= j < |log| ==> log[j].num in s.pending && s.pending[log[j].num] == log[j].done
  }

  lemma {:induction false} DrawNumbers(log: seq<Event>, n: nat) returns (steps: seq<Step>, s: State)
    requires Writable(log)
    ensures Reaches(steps, s)
    ensures s.counter == n && s.log == [] && s.trimmed == 0 && s.delivered == []
    ensures s.client == INIT.client && s.link == INIT.link
    ensures forall j :: 0 <= j < |log| && log[j].num <= n ==>
              log[j].num in s.pending && s.pending[log[j].num] == log[j].done
  {
    if n == 0 {
      steps, s := [], INIT;
    } else {
      steps, s := DrawNumbers(log, n - 1);
      var st := Incr(exists j :: 0 <= j < |log| && log[j].num == n && log[j].done);
      steps := Extend(steps, s, st);
      s := Do(s, st);
    }
  }

  lemma {:induction false} Feed(steps: seq<Step>, s: State, log: seq<Event>, i: nat, upTo: nat)
    returns (more: seq<Step>, s': State)
    requires Writable(log) && Reaches(steps, s) && Fed(s, log, i) && i <= upTo <= |log|
    ensures Reaches(more, s') && Fed(s', log, upTo)
    ensures s'.client == s.client && s'.link == s.link && s'.delivered == s.delivered
    decreases upTo - i
  {
    if i == upTo {
      more, s' := steps, s;
    } else {
      more := Extend(steps, s, Xadd(log[i].num));
      s' := Do(s, Xadd(log[i].num));
      assert s'.log == log[..i + 1];
      more, s' := Feed(more, s', log, i + 1, upTo);
    }
  }

  lemma Dial(steps: seq<Step>, s: State) returns (more: seq<Step>, s': State)
    requires Reaches(steps, s) && Enabled(s, Connect)
    ensures Reaches(more, s')
    ensures s' == s.(client := OnOpened(s.client),
                     link := Open(Session(s.client.lastSeq, 0, 0, true, [], |s.delivered|)))
  {
    more := Extend(steps, s, Connect);
    more := Extend(more, Do(s, Connect), Opened(true));
    s' := Do(Do(s, Connect), Opened(true));
  }

  // A fresh session whose mark is at or above the first k numbers passes over all k entries.
  lemma {:induction false} PassOver(steps: seq<Step>, s: State, k: nat) returns (more: seq<Step>, s': State)
    requires Reaches(steps, s) && s.trimmed == 0 && k <= |s.log|
    requires s.link.Open? && s.link.session == Session(s.client.lastSeq, 0, 0, true, [], |s.delivered|)
    requires forall i :: 0 <= i < k ==> s.log[i].num <= s.client.lastSeq
    ensures Reaches(more, s') && s' == s.(link := Open(s.link.session.(next := k, end := k)))
  {
    if k == 0 {
      more, s' := steps, s;
    } else {
      more, s' := PassOver(steps, s, k - 1);
      more := Extend(more, s', Read(k));
      s' := Do(s', Read(k));
      more := Extend(more, s', Forward);
      s' := Do(s', Forward);
    }
  }

  // The entry at k, above the mark, is handed over.
  lemma DeliverAbove(steps: seq<Step>, s: State, k: nat) returns (more: seq<Step>, s': State)
    requires Reaches(steps, s) && s.trimmed == 0 && k < |s.log|
    requires s.link == Open(Session(s.client.lastSeq, k, k, true, [], |s.delivered|))
    requires s.log[k].num > s.client.lastSeq && !s.log[k].done
    ensures Reaches(more, s') && s' == s.(delivered := s.delivered + [k], client := OnEventArrived(s.client, s.log[k]),
              link := Open(Session(s.client.lastSeq, k + 1, k + 1, true, [], |s.delivered|)))
  {
    more := Extend(steps, s, Read(k + 1));
    s' := Do(s, Read(k + 1));
    more := Extend(more, s', Forward);
    s' := Do(s', Forward);
    assert s'.link.session.wire == [Data(k)] && [Data(k)][1..] == [];
    more := Extend(more, s', Arrive);
    s' := Do(s', Arrive);
  }

  // The connection drops and is dialled again.
  lemma Redial(steps: seq<Step>, s: State) returns (more: seq<Step>, s': State)
    requires Reaches(steps, s) && s.link.Open? && s.client == Client(s.client.lastSeq, 0, false, false)
    ensures Reaches(more, s') && s' == s.(link := Open(Session(s.client.lastSeq, 0, 0, true, [], |s.delivered|)))
  {
    more := Extend(steps, s, Drop);
    s' := Do(s, Drop);
    more, s' := Dial(more, s');
  }

  // A fresh session over the whole stream whose mark is at or above the first k numbers, all of it below k.
  ghost predicate Climbed(s: State, log: seq<Event>, k: nat) {
    && s.log == log && s.trimmed == 0 && k <= |log|
    && s.client == Client(s.client.lastSeq, 0, false, false)
    && s.link == Open(Session(s.client.lastSeq, 0, 0, true, [], |s.delivered|))
    && (forall i :: 0 <= i < k ==> log[i].num <= s.client.lastSeq)
    && (forall q :: q in s.delivered ==> q < k)
  }

  lemma DoneUnderMark(log: seq<Event>, d: nat, mark: nat)
    requires d < |log| && (forall i :: 0 <= i < d ==> log[i].num <= mark) && (log[d].done ==> Overtaken(log, d))
    ensures log[d].done ==> log[d].num <= mark
  {
    if log[d].done {
      var r: nat :| r < d && log[r].num > log[d].num;
    }
  }

  lemma ClimbOne(steps: seq<Step>, s: State, log: seq<Event>, k: nat) returns (more: seq<Step>, s': State)
    requires Reaches(steps, s) && Climbed(s, log, k) && k < |log| && (log[k].done ==> Overtaken(log, k))
    ensures Reaches(more, s') && Climbed(s', log, k + 1)
  {
    more, s' := steps, s;
    if log[k].num > s.client.lastSeq {
      DoneUnderMark(log, k, s.client.lastSeq);
      more, s' := PassOver(more, s', k);
      more, s' := DeliverAbove(more, s', k);
      more, s' := Redial(more, s');
    }
  }

  lemma {:induction false} Climb(steps: seq<Step>, s: State, log: seq<Event>, k: nat) returns (more: seq<Step>, s': State)
    requires Reaches(steps, s) && Climbed(s, log, 0) && k <= |log|
    requires forall d: nat :: d < k && log[d].done ==> Overtaken(log, d)
    ensures Reaches(more, s') && Climbed(s', log, k)
    decreases k
  {
    if k == 0 {
      more, s' := steps, s;
    } else {
      more, s' := Climb(steps, s, log, k - 1);
      more, s' := ClimbOne(more, s', log, k - 1);
    }
  }

  ghost function MaxNum(log: seq<Event>): (m: nat)
    ensures forall i :: 0 <= i < |log| ==> log[i].num <= m
  {
    if log == [] then 0 else Max(MaxNum(log[..|log| - 1]), log[|log| - 1].num)
  }

  /** Some honoured run over exactly this stream loses the entry at p. */
  ghost predicate CanBeLost(log: seq<Event>, p: nat) {
    exists steps, s :: Reaches(steps, s) && s.log == log && Lost(s, p)
  }

  ghost predicate DonesOvertaken(log: seq<Event>, p: nat)
    requires p <= |log|
  {
    forall d: nat :: d < p && log[d].done ==> Overtaken(log, d)
  }

  // The whole stream written and the first session open, with nothing read.
  lemma Foot(log: seq<Event>) returns (steps: seq<Step>, s: State)
    requires Writable(log)
    ensures Reaches(steps, s) && Climbed(s, log, 0)
  {
    steps, s := DrawNumbers(log, MaxNum(log));
    steps, s := Feed(steps, s, log, 0, |log|);
    assert log[..|log|] == log;
    steps, s := Dial(steps, s);
  }

  lemma OvertakenIsLost(log: seq<Event>, p: nat) returns (steps: seq<Step>, s: State)
    requires Writable(log) && p < |log| && Overtaken(log, p) && DonesOvertaken(log, p)
    ensures Reaches(steps, s) && s.log == log && Lost(s, p) && !s.client.terminal
  {
    steps, s := Foot(log);
    steps, s := Climb(steps, s, log, p);
    var r: nat :| r < p && log[r].num > log[p].num;
    assert log[r].num <= s.client.lastSeq;
    steps, s := PassOver(steps, s, p + 1);
  }

  lemma SentDoneStops(s: State, d: nat)
    requires Grounded(s) && ClientInv(s) && StopInv(s) && s.link.Open? && d < |s.log| && s.log[d].done && (d in s.delivered || OnWire(s, d))
    ensures s.link.session.next == d + 1
  {
    if d in s.delivered {
      var i :| 0 <= i < |s.delivered| && s.delivered[i] == d;
      assert s.log[s.delivered[i]].done;
    }
  }

  lemma LostAfterNoDone(steps: seq<Step>, p: nat)
    requires Exec(steps).Some? && HelloHonoured(steps) && Lost(Exec(steps).value, p)
    ensures p < |Exec(steps).value.log| && DonesOvertaken(Exec(steps).value.log, p)
  {
    var s := Exec(steps).value;
    FullInvAlways(steps);
    forall d: nat | d < p && s.log[d].done ensures Overtaken(s.log, d) {
      assert d in s.delivered || OnWire(s, d) || Overtaken(s.log, d);
      if d in s.delivered || OnWire(s, d) { SentDoneStops(s, d); }
    }
  }

  /** For any stream the producers can write: an entry can be lost exactly when a higher number stands before it
      and before every `done` that precedes it. This covers the loss of `done` itself. */
  lemma LostIffOvertaken(log: seq<Event>, p: nat)
    requires Writable(log) && p < |log|
    ensures CanBeLost(log, p) <==> Overtaken(log, p) && DonesOvertaken(log, p)
  {
    if Overtaken(log, p) && DonesOvertaken(log, p) {
      var steps, s := OvertakenIsLost(log, p);
    }
    if CanBeLost(log, p) {
      var steps, s :| Reaches(steps, s) && s.log == log && Lost(s, p);
      LossNeedsOvertaking(steps, p);
      LostAfterNoDone(steps, p);
    }
  }

  /******* When a hello is missed *******/

  // What every run keeps, honoured or not.
  ghost predicate WeakInv(s: State) {
    && SequenceInv(s) && Grounded(s) && ClientInv(s) && WireInv(s) && DoneInv(s)
    && (s.link == Idle(true) ==> !s.client.terminal)
    && (s.link != Idle(false) ==> !s.client.closedByUser)
    && (s.link.Open? ==> s.client.attempts == 0)
  }

  lemma WeakInvKept(s: State, st: Step)
    requires WeakInv(s) && Enabled(s, st)
    ensures WeakInv(Do(s, st))
  {
    SequenceKept(s, st);
    ClientKept(s, st);
    WireKept(s, st);
    DoneKept(s, st);
  }

  lemma {:induction false} WeakInvAlways(steps: seq<Step>)
    requires Exec(steps).Some?
    ensures WeakInv(Exec(steps).value)
    decreases |steps|
  {
    if steps != [] {
      var n := |steps| - 1;
      WeakInvAlways(steps[..n]);
      WeakInvKept(Exec(steps[..n]).value, steps[n]);
    }
  }

  /** The entry was handed over and can be read again before any `done`, by a client that will dial again. */
  ghost predicate Repeatable(s: State, q: nat) {
    && q in s.delivered && s.trimmed <= q < |s.log|
    && !s.client.terminal && s.link != Idle(false)
    && forall d: nat :: s.trimmed <= d < q ==> !s.log[d].done
  }

  // One entry read, forwarded and received by a session whose hello was missed.
  lemma DeliverNext(steps: seq<Step>, s: State, j: nat, k: nat) returns (more: seq<Step>, s': State)
    requires Exec(steps) == Some(s) && k < |s.log| && 1 <= s.log[k].num && !s.log[k].done
    requires s.link.Open? && s.link.session == Session(0, j, j, true, [], s.link.session.base) && Max(j, s.trimmed) == k
    ensures steps <= more && Exec(more) == Some(s')
    ensures s' == s.(link := Open(Session(0, k + 1, k + 1, true, [], s.link.session.base)),
                     delivered := s.delivered + [k], client := OnEventArrived(s.client, s.log[k]))
  {
    more, s' := Then(steps, s, Read(k + 1));
    more, s' := Then(more, s', Forward);
    assert s'.link.session.wire == [Data(k)] && [Data(k)][1..] == [];
    more, s' := Then(more, s', Arrive);
  }

  // From s0, a session whose hello was missed has handed over what is left below n, and nothing else has changed.
  ghost predicate HandedUpTo(s0: State, s: State, n: nat) {
    var j := if n == s0.trimmed then 0 else n;
    && s.log == s0.log && s.trimmed == s0.trimmed <= n <= |s.log|
    && s.link.Open? && s.link.session == Session(0, j, j, true, [], s.link.session.base)
    && s0.delivered <= s.delivered
    && (n > s0.trimmed ==> s0.delivered < s.delivered && s.delivered[|s.delivered| - 1] == n - 1)
  }

  lemma HandOneMore(steps: seq<Step>, s0: State, s: State, n: nat) returns (more: seq<Step>, s': State)
    requires Exec(steps) == Some(s) && HandedUpTo(s0, s, n) && n < |s.log| && 1 <= s.log[n].num && !s.log[n].done
    ensures steps <= more && Exec(more) == Some(s') && HandedUpTo(s0, s', n + 1)
  {
    more, s' := DeliverNext(steps, s, s.link.session.next, n);
  }

  lemma {:induction false} DeliverUpTo(steps: seq<Step>, s0: State, n: nat) returns (more: seq<Step>, s: State)
    requires Exec(steps) == Some(s0) && HandedUpTo(s0, s0, s0.trimmed) && s0.trimmed <= n <= |s0.log|
    requires forall d: nat :: s0.trimmed <= d < n ==> 1 <= s0.log[d].num && !s0.log[d].done
    ensures steps <= more && Exec(more) == Some(s) && HandedUpTo(s0, s, n)
    decreases n
  {
    if n == s0.trimmed {
      more, s := steps, s0;
    } else {
      var part, s1 := DeliverUpTo(steps, s0, n - 1);
      more, s := HandOneMore(part, s0, s1, n - 1);
    }
  }

  lemma MissHello(steps: seq<Step>, s: State) returns (more: seq<Step>, s': State)
    requires Exec(steps) == Some(s) && WeakInv(s) && !s.client.terminal && s.link != Idle(false)
    ensures steps <= more && Exec(more) == Some(s')
    ensures s' == s.(client := s'.client, link := Open(Session(0, 0, 0, true, [], |s.delivered|)))
  {
    more, s' := steps, s;
    if s'.link.Open? { more, s' := Then(more, s', Drop); }
    if s'.link.Idle? { more, s' := Then(more, s', Connect); }
    more, s' := Then(more, s', Opened(false));
  }

  // Some continuation, whose hellos may be missed, hands the entry over again.
  ghost predicate ComesAgain(steps: seq<Step>, s: State, q: nat) {
    exists more, s' :: steps <= more && Exec(more) == Some(s') && s.delivered <= s'.delivered && q in s'.delivered[|s.delivered|..]
  }

  lemma LastComesAgain(steps: seq<Step>, s: State, q: nat, more: seq<Step>, s': State)
    requires steps <= more && Exec(more) == Some(s') && s.delivered < s'.delivered && s'.delivered[|s'.delivered| - 1] == q
    ensures ComesAgain(steps, s, q)
  {
    assert s'.delivered[|s.delivered|..][|s'.delivered| - 1 - |s.delivered|] == q;
  }

  // Up to a repeatable entry every entry left is above mark 0 and no done.
  lemma LeftIsPlain(s: State, q: nat)
    requires WeakInv(s) && Repeatable(s, q)
    ensures forall d: nat :: s.trimmed <= d <= q ==> 1 <= s.log[d].num && !s.log[d].done
  {
    var i :| 0 <= i < |s.delivered| && s.delivered[i] == q;
    assert !s.log[s.delivered[i]].done;
  }

  lemma RepeatableComesAgain(steps: seq<Step>, s: State, q: nat)
    requires Exec(steps) == Some(s) && WeakInv(s) && Repeatable(s, q)
    ensures ComesAgain(steps, s, q)
  {
    LeftIsPlain(s, q);
    var more, s1 := MissHello(steps, s);
    assert s1.log == s.log && s1.trimmed == s.trimmed && s1.delivered == s.delivered;
    var all, s2 := DeliverUpTo(more, s1, q + 1);
    LastComesAgain(steps, s, q, all, s2);
  }

  // The wall no reading passes on its way to q: trimming, or an undelivered done event at d.
  ghost predicate Walled(s: State, q: nat, d: nat) {
    q < s.trimmed || (s.trimmed <= d < q && d < |s.log| && s.log[d].done && d !in s.delivered)
  }

  ghost predicate SessionMisses(s: State, q: nat, d: nat)
    requires s.link.Open? && q < |s.log|
  {
    var ses := s.link.session;
    || q < ses.next || s.log[q].num <= ses.lastSeq || !ses.running
    || (ses.next == ses.end && q < s.trimmed)
    || (s.trimmed <= d < q && ses.next <= d && ses.lastSeq == 0)
  }

  // Nothing from here on hands q over.
  ghost predicate Past(s: State, q: nat, d: nat) {
    && q < |s.log| && !OnWire(s, q) && s.log[q].num <= s.client.lastSeq
    && (s.client.terminal || s.link == Idle(false)
        || (Walled(s, q, d) && (s.link.Open? ==> SessionMisses(s, q, d))))
  }

  lemma PastKeptForward(s: State, q: nat, d: nat)
    requires WeakInv(s) && Past(s, q, d) && Enabled(s, Forward)
    ensures Past(Do(s, Forward), q, d)
  {
    SentOnForward(s, q);
  }

  lemma PastKeptArrive(s: State, q: nat, d: nat)
    requires WeakInv(s) && Past(s, q, d) && Enabled(s, Arrive)
    ensures Past(Do(s, Arrive), q, d)
    ensures s.delivered <= Do(s, Arrive).delivered && q !in Do(s, Arrive).delivered[|s.delivered|..]
  {
    if s.link.session.wire[0].Data? {
      SentOnArrive(s, q);
      var p := s.link.session.wire[0].pos;
      assert OnWire(s, p);
      assert Do(s, Arrive).delivered[|s.delivered|..] == [p];
    }
  }

  lemma PastKept(s: State, st: Step, q: nat, d: nat)
    requires WeakInv(s) && Past(s, q, d) && Enabled(s, st)
    ensures Past(Do(s, st), q, d)
    ensures s.delivered <= Do(s, st).delivered && q !in Do(s, st).delivered[|s.delivered|..]
  {
    match st
    case Forward => PastKeptForward(s, q, d);
    case Arrive => PastKeptArrive(s, q, d);
    case _ =>
  }

  lemma {:induction false} PastAlways(steps: seq<Step>, s: State, q: nat, d: nat, more: seq<Step>)
    requires Exec(steps) == Some(s) && Past(s, q, d) && steps <= more && Exec(more).Some?
    ensures Past(Exec(more).value, q, d)
    ensures s.delivered <= Exec(more).value.delivered && q !in Exec(more).value.delivered[|s.delivered|..]
    decreases |more|
  {
    if |more| == |steps| {
      assert more == steps;
    } else {
      var before := more[..|more| - 1];
      var t := Exec(before).value;
      PastAlways(steps, s, q, d, before);
      WeakInvAlways(before);
      PastKept(t, more[|more| - 1], q, d);
      var t' := Exec(more).value;
      assert t'.delivered[|s.delivered|..] == t.delivered[|s.delivered|..] + t'.delivered[|t.delivered|..];
    }
  }

  // In an honoured state, an entry handed over is past unless it is repeatable.
  lemma UnrepeatableIsPast(s: State, q: nat) returns (d: nat)
    requires Inv(s) && q in s.delivered && !Repeatable(s, q)
    ensures Past(s, q, d)
  {
    var i :| 0 <= i < |s.delivered| && s.delivered[i] == q;
    d := 0;
    if !s.client.terminal && s.link != Idle(false) && s.trimmed <= q {
      d :| s.trimmed <= d < q && s.log[d].done;
      assert forall k :: 0 <= k < |s.delivered| ==> !s.log[s.delivered[k]].done;
    }
  }

  /** After any honoured run: an event that was handed over can be handed over again, by a client whose next hello
      is missed, exactly when it has not been trimmed, no `done` stands before it in what is left of the stream,
      and the client is neither terminal nor done dialling. */
  lemma MissedHelloRepeatsIff(steps: seq<Step>, s: State, q: nat)
    requires Exec(steps) == Some(s) && HelloHonoured(steps) && q in s.delivered
    ensures ComesAgain(steps, s, q) <==> Repeatable(s, q)
  {
    if Repeatable(s, q) {
      WeakInvAlways(steps);
      RepeatableComesAgain(steps, s, q);
    } else {
      InvAlways(steps);
      var d := UnrepeatableIsPast(s, q);
      forall more, s' | steps <= more && Exec(more) == Some(s')
        ensures s.delivered <= s'.delivered && q !in s'.delivered[|s.delivered|..]
      {
        PastAlways(steps, s, q, d, more);
      }
    }
  }

  /** The hello hypothesis is needed: a run in which an event arrives twice. */
  lemma MissedHelloRepeats() returns (steps: seq<Step>, s: State)
    ensures Exec(steps) == Some(s) && s.delivered == [0, 0] && !s.client.terminal
  {
    steps, s := Then([], INIT, Incr(false));
    steps, s := Then(steps, s, Xadd(1));
    steps, s := Then(steps, s, Connect);
    steps, s := Then(steps, s, Opened(true));
    steps, s := DeliverNext(steps, s, 0, 0);
    steps, s := Then(steps, s, Drop);
    steps, s := Then(steps, s, Connect);
    steps, s := Then(steps, s, Opened(false));
    steps, s := DeliverNext(steps, s, 0, 0);
  }
}
