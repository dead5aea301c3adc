/**
 The prompt-cache key and the provider body it stands for.

 A non-streaming request is answered from the cache when its key is present. The module
 proves when two requests share a key, what that says about the bodies that would have been
 sent to the provider, and that over any history of the cache a hit answers an equivalent
 call.
 */
module CacheKey {
  import opened Wrappers
  import opened Json

  // A 32-bit float read from a JSON number: a magnitude too large for it becomes infinite.
  datatype F32 = Finite(value: real) | Infinite(negative: bool)

  datatype Message = Message(role: string, content: string, name: Option<string>, cacheBreakpoint: bool)

  datatype Request = Request(
    model: string,
    messages: seq<Message>,
    temperature: Option<F32>,
    maxTokens: Option<nat>,
    stream: bool,
    responseFormat: Option<Value>,
    effort: Option<string>)

  /** What deserialization can produce: an explicit null response_format reads as absent. */
  predicate FromWire(r: Request) {
    r.responseFormat.Some? ==> r.responseFormat.value != Null && WellFormed(r.responseFormat.value)
  }

  predicate Overflowed(r: Request) {
    r.temperature.Some? && r.temperature.value.Infinite?
  }

  predicate NoUsableTemperature(r: Request) {
    r.temperature.None? || Overflowed(r)
  }

  // JSON has no infinity; the serializer writes null.
  function F32Json(t: F32): Value {
    match t
    case Finite(v) => Num(Float(v))
    case Infinite(_) => Null
  }

  function Named(m: Message): seq<Field> {
    [Field("role", Str(m.role)), Field("content", Str(m.content))]
    + (if m.name.Some? then [Field("name", Str(m.name.value))] else [])
  }

  /******* The key *******/

  function KeyMessage(m: Message): Value {
    Obj(Named(m))
  }

  function KeyMessages(ms: seq<Message>): seq<Value> {
    seq(|ms|, i requires 0 <= i < |ms| => KeyMessage(ms[i]))
  }

  function KeyJson(r: Request): Value {
    Obj([
      Field("model", Str(r.model)),
      Field("messages", Arr(KeyMessages(r.messages))),
      Field("temperature", if r.temperature.Some? then F32Json(r.temperature.value) else Null),
      Field("max_tokens", if r.maxTokens.Some? then Num(Int(r.maxTokens.value)) else Null),
      Field("response_format", if r.responseFormat.Some? then Canon(r.responseFormat.value) else Null),
      Field("reasoning_effort", if r.effort.Some? then Str(r.effort.value) else Null)
    ])
  }

  function Key(hash: Value -> string, r: Request): string {
    hash(KeyJson(r))
  }

  /******* The provider body *******/

  const EPHEMERAL: Value := Obj([Field("type", Str("ephemeral"))])

  function BodyMessage(m: Message): Value {
    Obj(Named(m) + (if m.cacheBreakpoint then [Field("cache_control", EPHEMERAL)] else []))
  }

  function BodyMessages(ms: seq<Message>): seq<Value> {
    seq(|ms|, i requires 0 <= i < |ms| => BodyMessage(ms[i]))
  }

  predicate EffortSent(r: Request) {
    r.effort.Some? && r.effort.value in ["low", "medium", "high"]
  }

  // The fields before response_format, response_format itself, and the reasoning fields.
  function Head(r: Request, stream: bool): seq<Field> {
    [Field("model", Str(r.model)), Field("messages", Arr(BodyMessages(r.messages))), Field("stream", Bool(stream))]
    + (if r.temperature.Some? then [Field("temperature", F32Json(r.temperature.value))] else [])
    + (if r.maxTokens.Some? then [Field("max_tokens", Num(Int(r.maxTokens.value)))] else [])
  }

  function Format(r: Request): seq<Field> {
    if r.responseFormat.Some? then [Field("response_format", r.responseFormat.value)] else []
  }

  function Tail(r: Request, stream: bool): seq<Field> {
    (if stream then [Field("stream_options", Obj([Field("include_usage", Bool(true))]))] else [])
    + (if EffortSent(r)
       then [Field("reasoning_effort", Str(r.effort.value)), Field("reasoning", Obj([Field("effort", Str(r.effort.value))]))]
       else [])
  }

  function Body(r: Request, stream: bool): seq<Field> {
    Head(r, stream) + Format(r) + Tail(r, stream)
  }

  /******* What a body says *******/

  /** The value of the first field with this key. */
  function Get(fields: seq<Field>, key: string): Option<Value> {
    if fields == [] then None
    else if fields[0].key == key then Some(fields[0].val)
    else Get(fields[1..], key)
  }

  function Keys(fields: seq<Field>): set<string> {
    set f <- fields :: f.key
  }

  predicate OneValueEach(fields: seq<Field>) {
    forall i, j :: 0 <= i < j < |fields| ==> fields[i].key != fields[j].key
  }

  lemma {:induction false} GetAppend(a: seq<Field>, b: seq<Field>, key: string)
    ensures Get(a + b, key) == if Get(a, key).Some? then Get(a, key) else Get(b, key)
  {
    if a == [] {
      assert a + b == b;
    } else {
      assert (a + b)[1..] == a[1..] + b;
      GetAppend(a[1..], b, key);
    }
  }

  lemma GetOne(f: Field, key: string)
    ensures Get([f], key) == if f.key == key then Some(f.val) else None
  {
    assert [f][1..] == [];
  }

  lemma GetTwo(f: Field, g: Field, key: string)
    ensures Get([f, g], key) == if f.key == key then Some(f.val) else if g.key == key then Some(g.val) else None
  {
    assert [f, g] == [f] + [g];
    GetAppend([f], [g], key);
    GetOne(f, key);
    GetOne(g, key);
  }

  lemma OneValueAppend(a: seq<Field>, b: seq<Field>)
    requires OneValueEach(a) && OneValueEach(b) && Keys(a) !! Keys(b)
    ensures OneValueEach(a + b) && Keys(a + b) == Keys(a) + Keys(b)
  {
    forall i, j | 0 <= i < |a| && 0 <= j < |b| ensures a[i].key != b[j].key {
      assert a[i].key in Keys(a) && b[j].key in Keys(b);
    }
    forall k | k in Keys(a) + Keys(b) ensures k in Keys(a + b) {
      if k in Keys(a) {
        var f :| f in a && f.key == k;
        assert f in a + b;
      } else {
        var f :| f in b && f.key == k;
        assert f in a + b;
      }
    }
  }

  function Opt(v: Option<string>): Option<Value> {
    if v.Some? then Some(Str(v.value)) else None
  }

  /** The object says what the message says, under the provider's names, and nothing else. */
  predicate SaysMessage(v: Value, m: Message) {
    && v.Obj? && OneValueEach(v.fields)
    && Get(v.fields, "role") == Some(Str(m.role))
    && Get(v.fields, "content") == Some(Str(m.content))
    && Get(v.fields, "name") == Opt(m.name)
    && Get(v.fields, "cache_control") == (if m.cacheBreakpoint then Some(Obj([Field("type", Str("ephemeral"))])) else None)
    && Keys(v.fields) <= {"role", "content", "name", "cache_control"}
  }

  lemma MessageGets(m: Message, key: string)
    ensures Get(BodyMessage(m).fields, key)
         == if key == "role" then Some(Str(m.role))
            else if key == "content" then Some(Str(m.content))
            else if key == "name" then Opt(m.name)
            else if key == "cache_control" && m.cacheBreakpoint then Some(EPHEMERAL)
            else None
  {
    var first := [Field("role", Str(m.role)), Field("content", Str(m.content))];
    var name := if m.name.Some? then [Field("name", Str(m.name.value))] else [];
    var mark := if m.cacheBreakpoint then [Field("cache_control", EPHEMERAL)] else [];
    assert BodyMessage(m).fields == first + name + mark;
    GetAppend(first + name, mark, key);
    GetAppend(first, name, key);
    GetTwo(first[0], first[1], key);
    if m.name.Some? { GetOne(name[0], key); }
    if m.cacheBreakpoint { GetOne(mark[0], key); }
  }

  lemma MessageReadsBack(m: Message)
    ensures SaysMessage(BodyMessage(m), m)
  {
    MessageGets(m, "role");
    MessageGets(m, "content");
    MessageGets(m, "name");
    MessageGets(m, "cache_control");
  }

  predicate SaysEffort(b: seq<Field>, effort: Option<string>) {
    if effort in {Some("low"), Some("medium"), Some("high")} then
      && Get(b, "reasoning_effort") == Some(Str(effort.value))
      && Get(b, "reasoning") == Some(Obj([Field("effort", Str(effort.value))]))
    else
      Get(b, "reasoning_effort") == None && Get(b, "reasoning") == None
  }

  predicate SaysMessages(v: Option<Value>, ms: seq<Message>) {
    && v.Some? && v.value.Arr? && |v.value.items| == |ms|
    && forall i :: 0 <= i < |ms| ==> SaysMessage(v.value.items[i], ms[i])
  }

  /** The body says what the request says, each thing under the provider's name for it and only if the request has
      it, and nothing else. */
  predicate SaysRequest(b: seq<Field>, r: Request, stream: bool) {
    && OneValueEach(b)
    && Get(b, "model") == Some(Str(r.model))
    && Get(b, "stream") == Some(Bool(stream))
    && Get(b, "temperature") == (match r.temperature
                                 case None => None
                                 case Some(Finite(t)) => Some(Num(Float(t)))
                                 case Some(Infinite(_)) => Some(Null))
    && Get(b, "max_tokens") == (if r.maxTokens.Some? then Some(Num(Int(r.maxTokens.value))) else None)
    && Get(b, "response_format") == r.responseFormat
    && Get(b, "stream_options") == (if stream then Some(Obj([Field("include_usage", Bool(true))])) else None)
    && SaysEffort(b, r.effort)
    && SaysMessages(Get(b, "messages"), r.messages)
    && Keys(b) <= {"model", "messages", "stream", "temperature", "max_tokens", "response_format", "stream_options",
                   "reasoning_effort", "reasoning"}
  }

  lemma HeadGets(r: Request, stream: bool, key: string)
    ensures Get(Head(r, stream), key)
         == if key == "model" then Some(Str(r.model))
            else if key == "messages" then Some(Arr(BodyMessages(r.messages)))
            else if key == "stream" then Some(Bool(stream))
            else if key == "temperature" && r.temperature.Some? then Some(F32Json(r.temperature.value))
            else if key == "max_tokens" && r.maxTokens.Some? then Some(Num(Int(r.maxTokens.value)))
            else None
  {
    var model, messages, s := Field("model", Str(r.model)), Field("messages", Arr(BodyMessages(r.messages))), Field("stream", Bool(stream));
    var t := if r.temperature.Some? then [Field("temperature", F32Json(r.temperature.value))] else [];
    var m := if r.maxTokens.Some? then [Field("max_tokens", Num(Int(r.maxTokens.value)))] else [];
    assert Head(r, stream) == [model, messages] + [s] + t + m;
    GetAppend([model, messages] + [s] + t, m, key);
    GetAppend([model, messages] + [s], t, key);
    GetAppend([model, messages], [s], key);
    GetTwo(model, messages, key);
    GetOne(s, key);
    if r.temperature.Some? { GetOne(t[0], key); }
    if r.maxTokens.Some? { GetOne(m[0], key); }
  }

  lemma TailGets(r: Request, stream: bool, key: string)
    ensures Get(Tail(r, stream), key)
         == if key == "stream_options" && stream then Some(Obj([Field("include_usage", Bool(true))]))
            else if key == "reasoning_effort" && EffortSent(r) then Some(Str(r.effort.value))
            else if key == "reasoning" && EffortSent(r) then Some(Obj([Field("effort", Str(r.effort.value))]))
            else None
  {
    var o := if stream then [Field("stream_options", Obj([Field("include_usage", Bool(true))]))] else [];
    var e := if EffortSent(r)
             then [Field("reasoning_effort", Str(r.effort.value)), Field("reasoning", Obj([Field("effort", Str(r.effort.value))]))]
             else [];
    assert Tail(r, stream) == o + e;
    GetAppend(o, e, key);
    if stream { GetOne(o[0], key); }
    if EffortSent(r) { GetTwo(e[0], e[1], key); }
  }

  lemma BodyGets(r: Request, stream: bool, key: string)
    ensures Get(Body(r, stream), key)
         == if Get(Head(r, stream), key).Some? then Get(Head(r, stream), key)
            else if key == "response_format" && r.responseFormat.Some? then r.responseFormat
            else Get(Tail(r, stream), key)
  {
    HeadGets(r, stream, key);
    GetAppend(Head(r, stream) + Format(r), Tail(r, stream), key);
    GetAppend(Head(r, stream), Format(r), key);
    if r.responseFormat.Some? { GetOne(Format(r)[0], key); }
  }

  lemma HeadKeys(r: Request, stream: bool)
    ensures OneValueEach(Head(r, stream)) && Keys(Head(r, stream)) <= {"model", "messages", "stream", "temperature", "max_tokens"}
  {
  }

  lemma TailKeys(r: Request, stream: bool)
    ensures OneValueEach(Tail(r, stream)) && Keys(Tail(r, stream)) <= {"stream_options", "reasoning_effort", "reasoning"}
  {
  }

  lemma BodyKeys(r: Request, stream: bool)
    ensures OneValueEach(Body(r, stream))
    ensures Keys(Body(r, stream)) <= {"model", "messages", "stream", "temperature", "max_tokens", "response_format",
                                      "stream_options", "reasoning_effort", "reasoning"}
  {
    var h, f, t := Head(r, stream), Format(r), Tail(r, stream);
    HeadKeys(r, stream);
    TailKeys(r, stream);
    assert OneValueEach(f) && Keys(f) <= {"response_format"};
    OneValueAppend(h, f);
    OneValueAppend(h + f, t);
  }

  lemma EffortReadsBack(r: Request, stream: bool)
    ensures SaysEffort(Body(r, stream), r.effort)
  {
    BodyGets(r, stream, "reasoning_effort");
    BodyGets(r, stream, "reasoning");
    HeadGets(r, stream, "reasoning_effort");
    HeadGets(r, stream, "reasoning");
    TailGets(r, stream, "reasoning_effort");
    TailGets(r, stream, "reasoning");
  }

  lemma MessagesReadBack(r: Request, stream: bool)
    ensures SaysMessages(Get(Body(r, stream), "messages"), r.messages)
  {
    BodyGets(r, stream, "messages");
    HeadGets(r, stream, "messages");
    forall i | 0 <= i < |r.messages| ensures SaysMessage(BodyMessages(r.messages)[i], r.messages[i]) {
      MessageReadsBack(r.messages[i]);
    }
  }

  lemma PlainReadsBack(r: Request, stream: bool, key: string)
    requires key in {"model", "stream", "temperature", "max_tokens", "response_format", "stream_options"}
    ensures Get(Body(r, stream), key)
         == if key == "model" then Some(Str(r.model))
            else if key == "stream" then Some(Bool(stream))
            else if key == "temperature" then (if r.temperature.Some? then Some(F32Json(r.temperature.value)) else None)
            else if key == "max_tokens" then (if r.maxTokens.Some? then Some(Num(Int(r.maxTokens.value))) else None)
            else if key == "response_format" then r.responseFormat
            else (if stream then Some(Obj([Field("include_usage", Bool(true))])) else None)
  {
    BodyGets(r, stream, key);
    HeadGets(r, stream, key);
    TailGets(r, stream, key);
  }

  /** Every body can be read back: it says everything the request says and nothing it does not. */
  lemma BodyReadsBack(r: Request, stream: bool)
    ensures SaysRequest(Body(r, stream), r, stream)
  {
    BodyKeys(r, stream);
    PlainReadsBack(r, stream, "model");
    PlainReadsBack(r, stream, "stream");
    PlainReadsBack(r, stream, "temperature");
    PlainReadsBack(r, stream, "max_tokens");
    PlainReadsBack(r, stream, "response_format");
    PlainReadsBack(r, stream, "stream_options");
    EffortReadsBack(r, stream);
    MessagesReadBack(r, stream);
  }

  /******* Building it *******/

  method BuildMessages(ms: seq<Message>) returns (messages: seq<Value>)
    ensures messages == BodyMessages(ms)
    ensures forall i :: 0 <= i < |ms| ==> SaysMessage(messages[i], ms[i])
  {
    messages := [];
    for i := 0 to |ms|
      invariant |messages| == i
      invariant forall k :: 0 <= k < i ==> messages[k] == BodyMessage(ms[k])
    {
      var obj := [Field("role", Str(ms[i].role)), Field("content", Str(ms[i].content))];
      if ms[i].name.Some? { obj := obj + [Field("name", Str(ms[i].name.value))]; }
      if ms[i].cacheBreakpoint { obj := obj + [Field("cache_control", EPHEMERAL)]; }
      assert Obj(obj) == BodyMessage(ms[i]);
      messages := messages + [Obj(obj)];
    }
    forall i | 0 <= i < |ms| ensures SaysMessage(messages[i], ms[i]) { MessageReadsBack(ms[i]); }
  }

  /** The builder fills the body field by field. */
  method FillBody(r: Request, stream: bool, messages: seq<Value>) returns (body: seq<Field>)
    requires messages == BodyMessages(r.messages)
    ensures body == Body(r, stream)
  {
    body := [Field("model", Str(r.model)), Field("messages", Arr(messages)), Field("stream", Bool(stream))];
    if r.temperature.Some? { body := body + [Field("temperature", F32Json(r.temperature.value))]; }
    if r.maxTokens.Some? { body := body + [Field("max_tokens", Num(Int(r.maxTokens.value)))]; }
    assert body == Head(r, stream);
    if r.responseFormat.Some? { body := body + [Field("response_format", r.responseFormat.value)]; }
    assert body == Head(r, stream) + Format(r);
    ghost var before := body;
    if stream { body := body + [Field("stream_options", Obj([Field("include_usage", Bool(true))]))]; }
    if r.effort.Some? && r.effort.value in ["low", "medium", "high"] {
      body := body + [Field("reasoning_effort", Str(r.effort.value))];
      body := body + [Field("reasoning", Obj([Field("effort", Str(r.effort.value))]))];
    }
    assert body == before + Tail(r, stream);
  }

  method BuildBody(r: Request, stream: bool) returns (body: seq<Field>)
    ensures body == Body(r, stream) && SaysRequest(body, r, stream)
  {
    var messages := BuildMessages(r.messages);
    body := FillBody(r, stream, messages);
    BodyReadsBack(r, stream);
  }

  /******* Equivalent calls *******/

  function Unmarked(m: Message): Message {
    m.(cacheBreakpoint := false)
  }

  function UnmarkedRequest(r: Request): Request {
    r.(messages := seq(|r.messages|, i requires 0 <= i < |r.messages| => Unmarked(r.messages[i])))
  }

  ghost predicate SameFormat(a: Option<Value>, b: Option<Value>) {
    if a.Some? && b.Some? then Equiv(a.value, b.value) else a == b
  }

  /** Two bodies alike field by field, in order, except for key order inside response_format. */
  ghost predicate SameBody(x: seq<Field>, y: seq<Field>) {
    && |x| == |y|
    && forall i :: 0 <= i < |x| ==>
         x[i].key == y[i].key && if x[i].key == "response_format" then Equiv(x[i].val, y[i].val) else x[i].val == y[i].val
  }

  /** What a request asks of the provider, with the cache_control marker left out. */
  function Asked(r: Request): seq<Field> {
    Body(UnmarkedRequest(r), false)
  }

  /** The fields that decide the key, with response_format up to key order. */
  ghost predicate SameCall(a: Request, b: Request) {
    && a.model == b.model
    && UnmarkedRequest(a).messages == UnmarkedRequest(b).messages
    && (a.temperature == b.temperature || (NoUsableTemperature(a) && NoUsableTemperature(b)))
    && a.maxTokens == b.maxTokens
    && SameFormat(a.responseFormat, b.responseFormat)
    && a.effort == b.effort
  }

  lemma NamedInjective(a: Message, b: Message)
    ensures Named(a) == Named(b) <==> Unmarked(a) == Unmarked(b)
  {
    var x, y := Named(a), Named(b);
    if x == y {
      assert x[0] == y[0] && x[1] == y[1];
      if a.name.Some? { assert x[2] == y[2]; }
    }
  }

  lemma KeyMessagesInjective(a: Request, b: Request)
    ensures KeyMessages(a.messages) == KeyMessages(b.messages) <==>
            UnmarkedRequest(a).messages == UnmarkedRequest(b).messages
  {
    var x, y := KeyMessages(a.messages), KeyMessages(b.messages);
    var p, q := UnmarkedRequest(a).messages, UnmarkedRequest(b).messages;
    assert |x| == |p| && |y| == |q|;
    if |x| == |y| {
      forall i | 0 <= i < |x| ensures x[i] == y[i] <==> p[i] == q[i] {
        NamedInjective(a.messages[i], b.messages[i]);
      }
    }
  }

  lemma CanonNotNull(v: Value)
    ensures Canon(v) == Null <==> v == Null
  {
  }

  /** The hash maps the two requests' different key texts to one digest. */
  predicate Collide(hash: Value -> string, a: Request, b: Request) {
    KeyJson(a) != KeyJson(b) && hash(KeyJson(a)) == hash(KeyJson(b))
  }

  lemma SameTextIffSameCall(a: Request, b: Request)
    requires FromWire(a) && FromWire(b)
    ensures KeyJson(a) == KeyJson(b) <==> SameCall(a, b)
  {
    KeyMessagesInjective(a, b);
    if a.responseFormat.Some? { CanonNotNull(a.responseFormat.value); }
    if b.responseFormat.Some? { CanonNotNull(b.responseFormat.value); }
    if a.responseFormat.Some? && b.responseFormat.Some? {
      CanonIsCompleteNormalForm(a.responseFormat.value, b.responseFormat.value);
    }
    var x, y := KeyJson(a).fields, KeyJson(b).fields;
    if x == y {
      assert forall i :: 0 <= i < 6 ==> x[i] == y[i];
      assert x[0].val == y[0].val && x[1].val == y[1].val && x[2].val == y[2].val;
      assert x[3].val == y[3].val && x[4].val == y[4].val && x[5].val == y[5].val;
    }
  }

  /** For any hash, two requests share a key exactly when they are the same call or the hash collides on them. */
  lemma SameKeyIffSameCall(hash: Value -> string, a: Request, b: Request)
    requires FromWire(a) && FromWire(b)
    ensures Key(hash, a) == Key(hash, b) <==> SameCall(a, b) || Collide(hash, a, b)
  {
    SameTextIffSameCall(a, b);
  }

  lemma PlainKeys(r: Request, stream: bool)
    ensures forall f :: f in Head(r, stream) || f in Tail(r, stream) ==> f.key != "response_format"
  {
  }

  lemma SameBodyAround(x: seq<Field>, f: seq<Field>, g: seq<Field>, y: seq<Field>)
    requires SameBody(f, g) && forall z :: z in x || z in y ==> z.key != "response_format"
    ensures SameBody(x + f + y, x + g + y)
  {
  }

  /** Cache soundness. Two requests with one key, on which the hash does not collide, ask the provider for the
      same thing, exactly unless one of them carries a temperature too large for 32 bits and the other does not:
      the key holds null for both, but one body has `"temperature": null` and the other no
      temperature at all. */
  lemma SameKeySameBody(hash: Value -> string, a: Request, b: Request)
    requires FromWire(a) && FromWire(b) && Key(hash, a) == Key(hash, b) && !Collide(hash, a, b)
    ensures SameBody(Asked(a), Asked(b)) <==> (Overflowed(a) <==> Overflowed(b))
  {
    SameKeyIffSameCall(hash, a, b);
    var p, q := UnmarkedRequest(a), UnmarkedRequest(b);
    if Overflowed(a) <==> Overflowed(b) {
      assert Head(p, false) == Head(q, false) && Tail(p, false) == Tail(q, false);
      assert SameBody(Format(p), Format(q));
      PlainKeys(p, false);
      SameBodyAround(Head(p, false), Format(p), Format(q), Tail(p, false));
    } else {
      assert |Head(p, false)| != |Head(q, false)| && |Format(p)| == |Format(q)| && Tail(p, false) == Tail(q, false);
    }
  }

  /** The two requests of that exception, concretely. */
  lemma OverflowSharesKey(hash: Value -> string)
    ensures var a := Request("m", [], Some(Infinite(false)), None, false, None, None);
      var b := a.(temperature := None);
      Key(hash, a) == Key(hash, b) && |Asked(a)| != |Asked(b)|
  {
  }

  /******* The cache over time *******/

  /** What happens to the cache. A lookup that finds nothing, or whose read fails, asks the provider, whose answer
      comes with it; the write of that answer is a step of its own, which may come late, behind the writes of
      other misses, or never. */
  datatype Happening =
    | Lookup(r: Request, readOk: bool, answer: string)
    | Write(r: Request, answer: string)
    | Expiry(key: string)

  datatype Entry = Entry(origin: Request, answer: string)

  // The stored entries, and the answers still to be written.
  datatype Cache = Cache(stored: map<string, Entry>, unwritten: multiset<Entry>)

  predicate Hits(hash: Value -> string, c: Cache, h: Happening) {
    h.Lookup? && h.readOk && Key(hash, h.r) in c.stored
  }

  predicate Misses(hash: Value -> string, c: Cache, h: Happening) {
    h.Lookup? && !Hits(hash, c, h)
  }

  function Then(hash: Value -> string, c: Cache, h: Happening): Cache {
    match h
    case Lookup(r, _, answer) =>
      if Hits(hash, c, h) then c else c.(unwritten := c.unwritten + multiset{Entry(r, answer)})
    case Write(r, answer) =>
      var e := Entry(r, answer);
      if e in c.unwritten then Cache(c.stored[Key(hash, r) := e], c.unwritten - multiset{e}) else c
    case Expiry(k) => c.(stored := c.stored - {k})
  }

  function CacheAfter(hash: Value -> string, past: seq<Happening>): Cache {
    if past == [] then Cache(map[], multiset{})
    else Then(hash, CacheAfter(hash, past[..|past| - 1]), past[|past| - 1])
  }

  /** The entry is the provider's answer to the lookup at i, which missed. */
  predicate BornAt(hash: Value -> string, past: seq<Happening>, e: Entry, i: nat) {
    i < |past| && Misses(hash, CacheAfter(hash, past[..i]), past[i]) && e == Entry(past[i].r, past[i].answer)
  }

  lemma BornBefore(hash: Value -> string, past: seq<Happening>, n: nat, e: Entry, i: nat)
    requires n <= |past| && BornAt(hash, past[..n], e, i)
    ensures BornAt(hash, past, e, i)
  {
    assert past[..n][..i] == past[..i];
  }

  lemma {:induction false} AnswersHaveBirths(hash: Value -> string, past: seq<Happening>, e: Entry) returns (i: nat)
    requires var c := CacheAfter(hash, past);
      e in c.unwritten || exists k :: k in c.stored && c.stored[k] == e
    ensures BornAt(hash, past, e, i)
    decreases |past|
  {
    var n := |past| - 1;
    var c, h := CacheAfter(hash, past[..n]), past[n];
    if e in c.unwritten || exists k :: k in c.stored && c.stored[k] == e {
      i := AnswersHaveBirths(hash, past[..n], e);
      BornBefore(hash, past, n, e, i);
    } else {
      i := n;
    }
  }

  lemma {:induction false} StoredUnderOwnKey(hash: Value -> string, past: seq<Happening>, k: string)
    requires k in CacheAfter(hash, past).stored
    ensures Key(hash, CacheAfter(hash, past).stored[k].origin) == k
    decreases |past|
  {
    var n := |past| - 1;
    if k in CacheAfter(hash, past[..n]).stored { StoredUnderOwnKey(hash, past[..n], k); }
  }

  /** Over any history, with failed reads, failed and reordered writes, concurrent misses and expiries: what the
      cache holds for a request is the provider's answer to an earlier miss, and that was the same call unless the
      hash collides on the two. */
  lemma HitsAnswerTheSameCall(hash: Value -> string, past: seq<Happening>, r: Request) returns (i: nat)
    requires FromWire(r) && forall h <- past :: h.Lookup? ==> FromWire(h.r)
    requires Key(hash, r) in CacheAfter(hash, past).stored
    ensures BornAt(hash, past, CacheAfter(hash, past).stored[Key(hash, r)], i)
    ensures var q := past[i].r;
      Collide(hash, q, r) || (SameCall(q, r) && (SameBody(Asked(q), Asked(r)) <==> (Overflowed(q) <==> Overflowed(r))))
  {
    var k := Key(hash, r);
    i := AnswersHaveBirths(hash, past, CacheAfter(hash, past).stored[k]);
    StoredUnderOwnKey(hash, past, k);
    SameKeyIffSameCall(hash, past[i].r, r);
    if !Collide(hash, past[i].r, r) { SameKeySameBody(hash, past[i].r, r); }
  }
}
