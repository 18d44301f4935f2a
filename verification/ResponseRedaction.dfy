/** The middleware that redacts JSON responses, its buffering path and its identity fast path. */
module ResponseRedaction {
  import opened Options
  import opened ContentTypes
  import opened Positions
  import opened Redaction
  import opened Texts

  // ----- JSON text -----

  /** `json.loads`, the `json.dumps` of the middleware, and the compact one of `JSONResponse.render`. */
  datatype Codec = Codec(loads: Bytes -> Option<Json>, dumps: Json -> Bytes, render: Json -> Bytes)

  /** No object repeats a key, at any depth: what Python dictionaries guarantee. */
  ghost predicate UniqueKeys(v: Json)
    decreases v, 1
  {
    match v
    case Obj(fields) =>
      && (forall i, j :: 0 <= i < j < |fields| ==> fields[i].key != fields[j].key)
      && (forall i :: 0 <= i < |fields| ==> UniqueKeys(fields[i].value))
    case Arr(items) => forall i :: 0 <= i < |items| ==> UniqueKeys(items[i])
    case _ => true
  }

  ghost predicate RoundTrips(codec: Codec) {
    && (forall v :: UniqueKeys(v) ==> codec.loads(codec.dumps(v)) == Some(v) && codec.loads(codec.render(v)) == Some(v))
    && (forall raw :: codec.loads(raw).Some? ==> UniqueKeys(codec.loads(raw).value))
  }

  lemma {:induction false} RedactKeepsKeys(rules: Rules, v: Json, flags: Flags)
    requires UniqueKeys(v)
    ensures UniqueKeys(Redact(rules, v, flags))
    decreases v, 1
  {
    match v {
      case Obj(fields) =>
        RedactKeepsFields(rules, fields);
        FieldsKeepKeys(rules, fields);
        var r := RedactFields(rules, fields);
        forall i, j | 0 <= i < j < |r| ensures r[i].key != r[j].key {
          assert SameField(rules, fields[i], r[i]) && SameField(rules, fields[j], r[j]);
        }
      case Arr(items) => ItemsKeepKeys(rules, items, flags);
      case _ =>
    }
  }

  lemma {:induction false} ItemsKeepKeys(rules: Rules, items: seq<Json>, flags: Flags)
    requires forall i :: 0 <= i < |items| ==> UniqueKeys(items[i])
    ensures forall i :: 0 <= i < |RedactItems(rules, items, flags)| ==> UniqueKeys(RedactItems(rules, items, flags)[i])
    decreases items, 0
  {
    if items != [] {
      RedactKeepsKeys(rules, items[0], flags);
      ItemsKeepKeys(rules, items[1..], flags);
    }
  }

  ghost predicate UniqueValues(fields: seq<Field>) {
    forall i :: 0 <= i < |fields| ==> UniqueKeys(fields[i].value)
  }

  lemma {:induction false} FieldsKeepKeys(rules: Rules, fields: seq<Field>)
    requires UniqueValues(fields)
    ensures UniqueValues(RedactFields(rules, fields))
    decreases fields, 0
  {
    if fields != [] {
      var f, tail := fields[0], fields[1..];
      RedactKeepsKeys(rules, f.value, rules.flags(f.key));
      FieldsKeepKeys(rules, tail);
      var r, rest := RedactFields(rules, fields), RedactFields(rules, tail);
      assert UniqueKeys(r[0].value);
      forall i | 0 < i < |r| ensures UniqueKeys(r[i].value) {
        assert r[i] == rest[i - 1];
      }
    }
  }

  // ----- Messages -----

  /** A Python `bytes` object: which one it is, and what it holds. */
  datatype Object = Object(id: nat, data: Bytes)

  datatype Message = Start(headers: seq<Header>) | Body(chunk: Object, more: bool) | Other(kind: string)

  datatype Sent = SentStart(headers: seq<Header>) | SentBody(data: Bytes, more: bool) | SentOther(kind: string)

  function Forward(m: Message): Sent {
    match m
    case Start(headers) => SentStart(headers)
    case Body(chunk, more) => SentBody(chunk.data, more)
    case Other(kind) => SentOther(kind)
  }

  function ForwardAll(ms: seq<Message>): seq<Sent> {
    if ms == [] then [] else ForwardAll(ms[..|ms| - 1]) + [Forward(ms[|ms| - 1])]
  }

  function Decimal(n: nat): Bytes {
    if n < 10 then ["0123456789"[n]] else Decimal(n / 10) + ["0123456789"[n % 10]]
  }

  const CONTENT_LENGTH := "content-length"

  predicate IsLength(name: Bytes) { Lower(name) == CONTENT_LENGTH }

  function WithoutLength(headers: seq<Header>): seq<Header> {
    if headers == [] then []
    else
      (if IsLength(headers[0].name) then [] else [headers[0]]) + WithoutLength(headers[1..])
  }

  // ----- One request -----

  /** The rules, the codec, and the bodies rendered, already redacted, while the request is handled. */
  datatype Env = Env(rules: Rules, codec: Codec, rendered: seq<Object>)

  predicate WasRendered(env: Env, chunk: Object) {
    exists i :: 0 <= i < |env.rendered| && env.rendered[i].id == chunk.id
  }

  datatype State = State(start: Option<seq<Header>>, body: Bytes, passing: bool, out: seq<Sent>)

  const IDLE := State(None, "", false, [])

  /**
   * `_try_redact_json_body` and the choice after it: a body that is JSON null is sent as it came, like one that is not
   * JSON.
   */
  function Rewritten(env: Env, raw: Bytes): Bytes {
    var parsed := env.codec.loads(raw);
    if parsed == None || RedactBody(env.rules, parsed.value) == Null then raw
    else env.codec.dumps(RedactBody(env.rules, parsed.value))
  }

  /** `_emit_redacted`. */
  function Emitted(env: Env, start: Option<seq<Header>>, raw: Bytes): seq<Sent> {
    if start == None then [SentBody(raw, false)]
    else
      var data := Rewritten(env, raw);
      [SentStart(WithoutLength(start.value) + [Header(CONTENT_LENGTH, Decimal(|data|))]), SentBody(data, false)]
  }

  /** What `capture` does with one message. */
  function Capture(env: Env, s: State, m: Message): State {
    match m
    case Start(headers) =>
      if CarriesJson(headers) then s.(start := Some(headers))
      else s.(passing := true, out := s.out + [Forward(m)])
    case Other(_) => s.(out := s.out + [Forward(m)])
    case Body(chunk, more) =>
      if s.passing then s.(out := s.out + [Forward(m)])
      else if s.body == "" && !more && WasRendered(env, chunk) then
        s.(out := s.out + (if s.start == None then [] else [SentStart(s.start.value)]) + [Forward(m)])
      else if more then s.(body := s.body + chunk.data)
      else s.(body := s.body + chunk.data, out := s.out + Emitted(env, s.start, s.body + chunk.data))
  }

  function Run(env: Env, s: State, ms: seq<Message>): State {
    if ms == [] then s else Capture(env, Run(env, s, ms[..|ms| - 1]), ms[|ms| - 1])
  }

  /** The closure, as an object that updates its variables message by message. */
  class Responder {
    const env: Env
    var startMessage: Option<seq<Header>>
    var body: Bytes
    var passingThrough: bool
    var out: seq<Sent>

    constructor (env: Env)
      ensures this.env == env && Now() == IDLE
    {
      this.env := env;
      startMessage, body, passingThrough, out := None, "", false, [];
    }

    function Now(): State
      reads this
    {
      State(startMessage, body, passingThrough, out)
    }

    method CaptureMessage(m: Message)
      modifies this
      ensures Now() == Capture(env, old(Now()), m)
    {
      if m.Start? {
        if CarriesJson(m.headers) {
          startMessage := Some(m.headers);
          return;
        }
        passingThrough := true;
        out := out + [Forward(m)];
        return;
      }
      if m.Other? || passingThrough {
        out := out + [Forward(m)];
        return;
      }
      if body == "" && !m.more && WasRendered(env, m.chunk) {
        if startMessage.Some? {
          out := out + [SentStart(startMessage.value)];
        }
        out := out + [Forward(m)];
        return;
      }
      body := body + m.chunk.data;
      if m.more {
        return;
      }
      out := out + Emitted(env, startMessage, body);
    }
  }

  // ----- Rendering inside the scope -----

  datatype PyKey = StrKey(s: string) | OtherKey(id: nat)

  datatype Entry = Entry(key: PyKey, value: Python)

  /** What a route hands the response class; anything the JSON shapes do not cover is some other object. */
  datatype Python =
    | PyNone
    | PyBool(b: bool)
    | PyInt(i: int)
    | PyFloat(bits: nat)
    | PyStr(s: string)
    | PyList(items: seq<Python>)
    | PyTuple(items: seq<Python>)
    | PyDict(entries: seq<Entry>)
    | PyObject(id: nat)

  /** `_json_shaped`. */
  predicate JsonShaped(p: Python) {
    match p
    case PyDict(entries) => forall i :: 0 <= i < |entries| ==> entries[i].key.StrKey? && JsonShaped(entries[i].value)
    case PyList(items) => forall i :: 0 <= i < |items| ==> JsonShaped(items[i])
    case PyTuple(_) => false
    case PyObject(_) => false
    case _ => true
  }

  /** A JSON-shaped value, read as the JSON value it is. */
  function AsJson(p: Python): Json
    requires JsonShaped(p)
  {
    match p
    case PyNone => Null
    case PyBool(b) => Bool(b)
    case PyInt(i) => Int(i)
    case PyFloat(bits) => Float(bits)
    case PyStr(s) => Str(s)
    case PyList(items) => Arr(seq(|items|, i requires 0 <= i < |items| => AsJson(items[i])))
    case PyDict(entries) =>
      Obj(seq(|entries|, i requires 0 <= i < |entries| => Field(entries[i].key.s, AsJson(entries[i].value))))
  }

  /** Dictionaries hold each key once. */
  ghost predicate DistinctKeys(p: Python) {
    match p
    case PyDict(entries) =>
      && (forall i, j :: 0 <= i < j < |entries| ==> entries[i].key != entries[j].key)
      && (forall i :: 0 <= i < |entries| ==> DistinctKeys(entries[i].value))
    case PyList(items) => forall i :: 0 <= i < |items| ==> DistinctKeys(items[i])
    case _ => true
  }

  lemma {:induction false} ShapedHasUniqueKeys(p: Python)
    requires JsonShaped(p) && DistinctKeys(p)
    ensures UniqueKeys(AsJson(p))
  {
    match p {
      case PyDict(entries) =>
        forall i | 0 <= i < |entries| ensures UniqueKeys(AsJson(entries[i].value)) {
          ShapedHasUniqueKeys(entries[i].value);
        }
      case PyList(items) =>
        forall i | 0 <= i < |items| ensures UniqueKeys(AsJson(items[i])) {
          ShapedHasUniqueKeys(items[i]);
        }
      case _ =>
    }
  }

  /** A JSON value as the Python value `json.loads` makes of it. */
  function AsPython(v: Json): Python {
    match v
    case Null => PyNone
    case Bool(b) => PyBool(b)
    case Int(i) => PyInt(i)
    case Float(bits) => PyFloat(bits)
    case Str(s) => PyStr(s)
    case Arr(items) => PyList(seq(|items|, i requires 0 <= i < |items| => AsPython(items[i])))
    case Obj(fields) =>
      PyDict(seq(|fields|, i requires 0 <= i < |fields| => Entry(StrKey(fields[i].key), AsPython(fields[i].value))))
  }

  lemma {:induction false} PythonIsShaped(v: Json)
    ensures JsonShaped(AsPython(v)) && AsJson(AsPython(v)) == v
  {
    match v {
      case Obj(fields) =>
        forall i | 0 <= i < |fields|
          ensures JsonShaped(AsPython(fields[i].value)) && AsJson(AsPython(fields[i].value)) == fields[i].value
        {
          PythonIsShaped(fields[i].value);
        }
        assert AsJson(AsPython(v)).fields == fields;
      case Arr(items) =>
        forall i | 0 <= i < |items| ensures JsonShaped(AsPython(items[i])) && AsJson(AsPython(items[i])) == items[i] {
          PythonIsShaped(items[i]);
        }
        assert AsJson(AsPython(v)).items == items;
      case _ =>
    }
  }

  /** The JSON value a route's content stands for: itself if it has that shape, else what its plain rendering says. */
  function Meant(codec: Codec, plain: Python -> Option<Bytes>, content: Python): Option<Json> {
    if JsonShaped(content) then Some(AsJson(content))
    else if plain(content).Some? then codec.loads(plain(content).value)
    else None
  }

  lemma {:induction false} MeantIsPlain(codec: Codec, plain: Python -> Option<Bytes>, content: Python)
    requires RoundTrips(codec) && PlainBytes(codec, plain, content) && DistinctKeys(content)
    ensures var value := Meant(codec, plain, content);
            && (value.Some? ==> UniqueKeys(value.value))
            && (plain(content).Some? ==> value.Some? && value == codec.loads(plain(content).value))
  {
    if JsonShaped(content) { ShapedHasUniqueKeys(content); }
  }

  /**
   * `JSONResponse.render` of a value: an error, or on JSON shapes the compact encoder, on others any bytes that parse.
   */
  ghost predicate RendersPlainly(codec: Codec, plain: Python -> Option<Bytes>) {
    forall p :: PlainBytes(codec, plain, p)
  }

  ghost predicate PlainBytes(codec: Codec, plain: Python -> Option<Bytes>, p: Python) {
    && (JsonShaped(p) && plain(p).Some? ==> plain(p).value == codec.render(AsJson(p)))
    && (plain(p).Some? ==> codec.loads(plain(p).value).Some?)
  }

  /** An object the response class recorded: the compact rendering of a redacted value. */
  ghost predicate IsRedacted(rules: Rules, codec: Codec, o: Object) {
    exists v :: UniqueKeys(v) && o.data == codec.render(RedactBody(rules, v))
  }

  /** `RenderedRedactionScope`, with the response class rendering into it. */
  class RenderScope {
    const rules: Rules
    const codec: Codec
    var rendered: seq<Object>
    var nextId: nat

    constructor (rules: Rules, codec: Codec)
      ensures this.rules == rules && this.codec == codec && rendered == [] && Valid()
    {
      this.rules, this.codec := rules, codec;
      rendered, nextId := [], 0;
    }

    ghost predicate Valid()
      reads this
    {
      forall i :: 0 <= i < |rendered| ==> rendered[i].id < nextId && IsRedacted(rules, codec, rendered[i])
    }

    /**
     * `RedactedJSONResponse.render`: whichever branch is taken, the bytes parse to the redaction of what the plain
     * rendering would have parsed to, if there is one, and the scope recognises this very object. It fails exactly when
     * a value of another shape has no plain rendering, or the redacted value has none.
     */
    method Render(plain: Python -> Option<Bytes>, content: Python) returns (body: Option<Object>)
      requires Valid() && RoundTrips(codec) && RendersPlainly(codec, plain) && DistinctKeys(content)
      modifies this
      ensures Valid()
      ensures body.Some? <==>
        var value := Meant(codec, plain, content);
        value.Some? && plain(AsPython(RedactBody(rules, value.value))).Some?
      ensures body.None? ==> rendered == old(rendered)
      ensures body.Some? ==> body.value.id >= old(nextId) && rendered == old(rendered) + [body.value]
      ensures body.Some? ==>
        codec.loads(body.value.data) == Some(RedactBody(rules, Meant(codec, plain, content).value))
      ensures plain(content).Some? ==>
        codec.loads(plain(content).value).Some? && Meant(codec, plain, content) == codec.loads(plain(content).value)
    {
      assert PlainBytes(codec, plain, content);
      MeantIsPlain(codec, plain, content);
      var value;
      if JsonShaped(content) {
        value := AsJson(content);
      } else {
        var bytes := plain(content);
        if bytes.None? {
          return None;
        }
        value := codec.loads(bytes.value).value;
      }
      var bytes := plain(AsPython(RedactBody(rules, value)));
      if bytes.None? {
        return None;
      }
      PythonIsShaped(RedactBody(rules, value));
      assert PlainBytes(codec, plain, AsPython(RedactBody(rules, value)));
      RedactKeepsKeys(rules, value, FREE_TEXT);
      var fresh' := Object(nextId, bytes.value);
      assert IsRedacted(rules, codec, fresh');
      rendered, nextId := rendered + [fresh'], nextId + 1;
      body := Some(fresh');
    }
  }

  // ----- Whole responses -----

  predicate OnlyOthers(ms: seq<Message>) {
    ms == [] || (ms[|ms| - 1].Other? && OnlyOthers(ms[..|ms| - 1]))
  }

  /** No start message, and no body message that ends the response. */
  predicate StillOpen(ms: seq<Message>) {
    ms == [] ||
    (var m := ms[|ms| - 1]; (m.Other? || (m.Body? && m.more)) && StillOpen(ms[..|ms| - 1]))
  }

  function Chunks(ms: seq<Message>): Bytes {
    if ms == [] then ""
    else Chunks(ms[..|ms| - 1]) + (if ms[|ms| - 1].Body? then ms[|ms| - 1].chunk.data else "")
  }

  function OthersSent(ms: seq<Message>): seq<Sent> {
    if ms == [] then []
    else OthersSent(ms[..|ms| - 1]) + (if ms[|ms| - 1].Other? then [Forward(ms[|ms| - 1])] else [])
  }

  /** One response as the application sends it: a start, chunks, a last chunk, and other messages anywhere. */
  datatype Response = Response(
    before: seq<Message>, headers: seq<Header>, middle: seq<Message>, last: Object, after: seq<Message>)
  {
    ghost predicate Ordered() {
      OnlyOthers(before) && StillOpen(middle) && OnlyOthers(after)
    }

    function Messages(): seq<Message> {
      before + [Start(headers)] + middle + [Body(last, false)] + after
    }

    /** All the bytes the application produced. */
    function Produced(): Bytes { Chunks(middle) + last.data }
  }

  lemma {:induction false} RunAppend(env: Env, s: State, a: seq<Message>, b: seq<Message>)
    ensures Run(env, s, a + b) == Run(env, Run(env, s, a), b)
    decreases |b|
  {
    if b == [] {
      assert a + b == a;
    } else {
      var front := b[..|b| - 1];
      assert (a + b)[..|a + b| - 1] == a + front;
      RunAppend(env, s, a, front);
    }
  }

  lemma {:induction false} ForwardAppend(a: seq<Message>, b: seq<Message>)
    ensures ForwardAll(a + b) == ForwardAll(a) + ForwardAll(b)
    decreases |b|
  {
    if b == [] {
      assert a + b == a;
    } else {
      var front := b[..|b| - 1];
      assert (a + b)[..|a + b| - 1] == a + front;
      ForwardAppend(a, front);
    }
  }

  lemma {:induction false} OthersPass(env: Env, s: State, ms: seq<Message>)
    requires OnlyOthers(ms)
    ensures Run(env, s, ms) == s.(out := s.out + ForwardAll(ms))
    decreases |ms|
  {
    if ms == [] {
      assert s.out + [] == s.out;
    } else {
      var front := ms[..|ms| - 1];
      OthersPass(env, s, front);
      assert s.out + ForwardAll(front) + [Forward(ms[|ms| - 1])] == s.out + ForwardAll(ms);
    }
  }

  lemma {:induction false} PassingForwards(env: Env, s: State, ms: seq<Message>)
    requires s.passing && StillOpen(ms)
    ensures Run(env, s, ms) == s.(out := s.out + ForwardAll(ms))
    decreases |ms|
  {
    if ms == [] {
      assert s.out + [] == s.out;
    } else {
      var front := ms[..|ms| - 1];
      PassingForwards(env, s, front);
      assert s.out + ForwardAll(front) + [Forward(ms[|ms| - 1])] == s.out + ForwardAll(ms);
    }
  }

  lemma {:induction false} BufferingCollects(env: Env, s: State, ms: seq<Message>)
    requires !s.passing && StillOpen(ms)
    ensures Run(env, s, ms) == s.(body := s.body + Chunks(ms), out := s.out + OthersSent(ms))
    decreases |ms|
  {
    if ms == [] {
      assert s.out + [] == s.out && s.body + "" == s.body;
    } else {
      var front, m := ms[..|ms| - 1], ms[|ms| - 1];
      BufferingCollects(env, s, front);
      if m.Other? {
        assert s.body + Chunks(front) == s.body + Chunks(ms);
        assert s.out + OthersSent(front) + [Forward(m)] == s.out + OthersSent(ms);
      } else {
        assert s.body + Chunks(front) + m.chunk.data == s.body + Chunks(ms);
        assert s.out + OthersSent(front) == s.out + OthersSent(ms);
      }
    }
  }

  lemma RunOne(env: Env, s: State, m: Message)
    ensures Run(env, s, [m]) == Capture(env, s, m)
  {
    assert [m][..0] == [];
    assert Run(env, s, []) == s;
  }

  /** The run of a whole response, one stretch of messages at a time. */
  lemma {:induction false} RunResponse(env: Env, r: Response)
    ensures Run(env, IDLE, r.Messages()) ==
            Run(env, Capture(env, Run(env, Capture(env, Run(env, IDLE, r.before), Start(r.headers)), r.middle),
                             Body(r.last, false)), r.after)
  {
    var s0 := Run(env, IDLE, r.before);
    RunAppend(env, IDLE, r.before, [Start(r.headers)]);
    RunOne(env, s0, Start(r.headers));
    RunAppend(env, IDLE, r.before + [Start(r.headers)], r.middle);
    var s2 := Run(env, IDLE, r.before + [Start(r.headers)] + r.middle);
    RunAppend(env, IDLE, r.before + [Start(r.headers)] + r.middle, [Body(r.last, false)]);
    RunOne(env, s2, Body(r.last, false));
    RunAppend(env, IDLE, r.before + [Start(r.headers)] + r.middle + [Body(r.last, false)], r.after);
  }

  lemma {:induction false} ForwardResponse(r: Response)
    ensures ForwardAll(r.Messages()) ==
            ForwardAll(r.before) + [SentStart(r.headers)] + ForwardAll(r.middle) + [SentBody(r.last.data, false)] +
            ForwardAll(r.after)
  {
    ForwardOne(Start(r.headers));
    ForwardOne(Body(r.last, false));
    ForwardAppend(r.before, [Start(r.headers)]);
    ForwardAppend(r.before + [Start(r.headers)], r.middle);
    ForwardAppend(r.before + [Start(r.headers)] + r.middle, [Body(r.last, false)]);
    ForwardAppend(r.before + [Start(r.headers)] + r.middle + [Body(r.last, false)], r.after);
  }

  lemma ForwardOne(m: Message)
    ensures ForwardAll([m]) == [Forward(m)]
  {
    assert [m][..0] == [];
  }

  /** A response whose first content type is of no JSON media type leaves message by message as it was sent. */
  lemma {:induction false} OtherMediaUntouched(env: Env, r: Response)
    requires r.Ordered() && !DeclaresJson(r.headers)
    ensures Run(env, IDLE, r.Messages()).out == ForwardAll(r.Messages())
  {
    CarriesJsonExactly(r.headers);
    RunResponse(env, r);
    ForwardResponse(r);
    OthersPass(env, IDLE, r.before);
    var s0 := Run(env, IDLE, r.before);
    var s1 := Capture(env, s0, Start(r.headers));
    PassingForwards(env, s1, r.middle);
    var s2 := Run(env, s1, r.middle);
    var s3 := Capture(env, s2, Body(r.last, false));
    assert s3.out ==
           ForwardAll(r.before) + [SentStart(r.headers)] + ForwardAll(r.middle) + [SentBody(r.last.data, false)];
    OthersPass(env, s3, r.after);
  }

  /** What a redaction scope guarantees of the objects it recognises, when objects with one identity are one object. */
  ghost predicate Sound(env: Env, r: Response) {
    && TextSettles(env.rules)
    && RoundTrips(env.codec)
    && (forall i :: 0 <= i < |env.rendered| ==> Genuine(env, r.last, env.rendered[i]))
  }

  ghost predicate Genuine(env: Env, last: Object, o: Object) {
    IsRedacted(env.rules, env.codec, o) && (o.id == last.id ==> o == last)
  }

  /**
   * The bytes that leave say what the redaction of the bytes that came in says; bytes that are not JSON leave as they
   * came.
   */
  ghost predicate RightBytes(env: Env, produced: Bytes, data: Bytes) {
    match env.codec.loads(produced)
    case None => data == produced
    case Some(v) => env.codec.loads(data) == Some(RedactBody(env.rules, v))
  }

  lemma {:induction false} RewrittenIsRight(env: Env, raw: Bytes)
    requires RoundTrips(env.codec)
    ensures RightBytes(env, raw, Rewritten(env, raw))
  {
    var parsed := env.codec.loads(raw);
    if parsed.Some? {
      RedactKeepsKeys(env.rules, parsed.value, FREE_TEXT);
    }
  }

  lemma {:induction false} RecognisedIsRight(env: Env, r: Response)
    requires Sound(env, r) && WasRendered(env, r.last)
    ensures RightBytes(env, r.last.data, r.last.data)
  {
    var i :| 0 <= i < |env.rendered| && env.rendered[i].id == r.last.id;
    assert Genuine(env, r.last, env.rendered[i]);
    var v :| UniqueKeys(v) && r.last.data == env.codec.render(RedactBody(env.rules, v));
    RedactKeepsKeys(env.rules, v, FREE_TEXT);
    RedactTwice(env.rules, v, FREE_TEXT);
  }

  /** The headers that say nothing of the length, by position. */
  ghost function OfOtherName(headers: seq<Header>): nat -> bool {
    (i: nat) => i < |headers| && Lower(headers[i].name) != "content-length"
  }

  lemma {:induction false} OthersSnoc(headers: seq<Header>, h: Header)
    ensures WithoutLength(headers + [h]) == WithoutLength(headers) + if IsLength(h.name) then [] else [h]
  {
    if headers == [] {
      assert headers + [h] == [h] && [h][1..] == [];
    } else {
      assert (headers + [h])[1..] == headers[1..] + [h];
      OthersSnoc(headers[1..], h);
    }
  }

  lemma {:induction false} OthersAt(headers: seq<Header>, n: nat) returns (at: seq<nat>)
    requires n <= |headers|
    ensures KeptBy(headers, n, OfOtherName(headers), WithoutLength(headers[..n]), at)
    decreases n
  {
    if n == 0 {
      at := [];
    } else {
      at := OthersAt(headers, n - 1);
      var kept := WithoutLength(headers[..n - 1]);
      KeptMore(headers, n, OfOtherName(headers), kept, at);
      OthersSnoc(headers[..n - 1], headers[n - 1]);
      assert headers[..n] == headers[..n - 1] + [headers[n - 1]];
      if IsLength(headers[n - 1].name) {
        assert WithoutLength(headers[..n]) == kept + [] == kept;
      } else {
        assert WithoutLength(headers[..n]) == kept + [headers[n - 1]];
        at := at + [n - 1];
      }
    }
  }

  /** Dropping the lengths keeps every other header, in its place. */
  lemma {:induction false} OthersKept(headers: seq<Header>)
    ensures Keeps(headers, OfOtherName(headers), WithoutLength(headers))
  {
    var at := OthersAt(headers, |headers|);
    assert headers[..|headers|] == headers;
  }

  /** All headers but the lengths, in their order, and behind them one length that reads as n. */
  ghost predicate LengthOnlyChanged(before: seq<Header>, after: seq<Header>, n: nat) {
    exists length :: Declared(before, after, length, n)
  }

  ghost predicate Declared(before: seq<Header>, after: seq<Header>, length: Bytes, n: nat) {
    && after != [] && after[|after| - 1] == Header("content-length", length) && Number(length) == n
    && Keeps(before, OfOtherName(before), after[..|after| - 1])
  }

  /** What a reader of the header makes of the number. */
  function Number(s: Bytes): int {
    if s == "" then 0 else 10 * Number(s[..|s| - 1]) + (s[|s| - 1] as int - '0' as int)
  }

  lemma {:induction false} DecimalReadsBack(n: nat)
    ensures Number(Decimal(n)) == n
  {
    if n < 10 {
      assert Decimal(n)[..0] == "";
      DigitReadsBack(n);
    } else {
      DecimalReadsBack(n / 10);
      DigitReadsBack(n % 10);
      assert Decimal(n)[..|Decimal(n)| - 1] == Decimal(n / 10);
    }
  }

  lemma DigitReadsBack(d: nat)
    requires d < 10
    ensures "0123456789"[d] as int - '0' as int == d
  {
  }

  /** The path a JSON response takes: recognised when its only bytes are an object the scope rendered. */
  predicate TakesFastPath(env: Env, r: Response) { Chunks(r.middle) == "" && WasRendered(env, r.last) }

  /**
   * Every ordered JSON response leaves as one start and one body, whichever path it takes; other messages keep their
   * order.
   */
  lemma {:induction false} JsonLeavesWhole(env: Env, r: Response) returns (headers: seq<Header>, data: Bytes)
    requires r.Ordered() && DeclaresJson(r.headers)
    ensures Run(env, IDLE, r.Messages()).out ==
            ForwardAll(r.before) + OthersSent(r.middle) + [SentStart(headers), SentBody(data, false)] +
            ForwardAll(r.after)
    ensures data == if TakesFastPath(env, r) then r.Produced() else Rewritten(env, r.Produced())
    ensures headers == if TakesFastPath(env, r) then r.headers
                       else WithoutLength(r.headers) + [Header(CONTENT_LENGTH, Decimal(|data|))]
  {
    CarriesJsonExactly(r.headers);
    RunResponse(env, r);
    OthersPass(env, IDLE, r.before);
    var s1 := Capture(env, Run(env, IDLE, r.before), Start(r.headers));
    BufferingCollects(env, s1, r.middle);
    var s2 := Run(env, s1, r.middle);
    assert s2.body == Chunks(r.middle);
    assert s2.out == ForwardAll(r.before) + OthersSent(r.middle);
    OthersPass(env, Capture(env, s2, Body(r.last, false)), r.after);
    if TakesFastPath(env, r) {
      headers, data := r.headers, r.last.data;
      assert r.Produced() == data;
    } else {
      data := Rewritten(env, r.Produced());
      headers := WithoutLength(r.headers) + [Header(CONTENT_LENGTH, Decimal(|data|))];
    }
  }

  /**
   * Every ordered JSON response leaves as one start and one body, whichever path it took: the body parses to
   * the redaction of what the application produced; either start and bytes are exactly the application's own,
   * or the start declares one length, the length of the bytes sent.
   */
  lemma {:induction false} JsonIsRedacted(env: Env, r: Response) returns (headers: seq<Header>, data: Bytes)
    requires r.Ordered() && DeclaresJson(r.headers) && Sound(env, r)
    ensures Run(env, IDLE, r.Messages()).out ==
            ForwardAll(r.before) + OthersSent(r.middle) + [SentStart(headers), SentBody(data, false)] +
            ForwardAll(r.after)
    ensures RightBytes(env, r.Produced(), data)
    ensures (headers == r.headers && data == r.Produced()) || LengthOnlyChanged(r.headers, headers, |data|)
  {
    headers, data := JsonLeavesWhole(env, r);
    if TakesFastPath(env, r) {
      RecognisedIsRight(env, r);
      assert r.Produced() == r.last.data;
    } else {
      RewrittenIsRight(env, r.Produced());
      OthersKept(r.headers);
      DecimalReadsBack(|data|);
      assert Declared(r.headers, headers, Decimal(|data|), |data|);
    }
  }

  // ----- What the client reads -----

  /** The body a client puts together. */
  function BodyBytes(out: seq<Sent>): Bytes {
    if out == [] then ""
    else BodyBytes(out[..|out| - 1]) + (if out[|out| - 1].SentBody? then out[|out| - 1].data else "")
  }

  lemma {:induction false} BodyBytesAppend(a: seq<Sent>, b: seq<Sent>)
    ensures BodyBytes(a + b) == BodyBytes(a) + BodyBytes(b)
    decreases |b|
  {
    if b == [] {
      assert a + b == a;
    } else {
      assert (a + b)[..|a + b| - 1] == a + b[..|b| - 1];
      BodyBytesAppend(a, b[..|b| - 1]);
    }
  }

  lemma {:induction false} OthersHaveNoBytes(ms: seq<Message>)
    ensures OnlyOthers(ms) ==> BodyBytes(ForwardAll(ms)) == ""
    ensures BodyBytes(OthersSent(ms)) == ""
    decreases |ms|
  {
    if ms != [] {
      var front := ms[..|ms| - 1];
      OthersHaveNoBytes(front);
      var last := Forward(ms[|ms| - 1]);
      assert (ForwardAll(front) + [last])[..|ForwardAll(front)|] == ForwardAll(front);
      assert (OthersSent(front) + [last])[..|OthersSent(front)|] == OthersSent(front);
      if !ms[|ms| - 1].Other? { assert OthersSent(ms) == OthersSent(front); }
    }
  }

  lemma PairBytes(headers: seq<Header>, data: Bytes)
    ensures BodyBytes([SentStart(headers), SentBody(data, false)]) == data
  {
    var pair := [SentStart(headers), SentBody(data, false)];
    assert pair[..1] == [SentStart(headers)] && pair[..1][..0] == [];
    assert BodyBytes(pair[..1]) == BodyBytes([]) + "";
  }

  lemma {:induction false} OneBody(x: seq<Sent>, y: seq<Sent>, pair: seq<Sent>, z: seq<Sent>)
    requires BodyBytes(x) == "" && BodyBytes(y) == "" && BodyBytes(z) == ""
    ensures BodyBytes(x + y + pair + z) == BodyBytes(pair)
  {
    BodyBytesAppend(x, y);
    BodyBytesAppend(x + y, pair);
    BodyBytesAppend(x + y + pair, z);
  }

  /** The client of a JSON response reads the one body sent. */
  lemma {:induction false} ClientReads(env: Env, r: Response)
    requires r.Ordered() && DeclaresJson(r.headers)
    ensures BodyBytes(Run(env, IDLE, r.Messages()).out) ==
            if TakesFastPath(env, r) then r.Produced() else Rewritten(env, r.Produced())
  {
    var headers, data := JsonLeavesWhole(env, r);
    OthersHaveNoBytes(r.before);
    OthersHaveNoBytes(r.middle);
    OthersHaveNoBytes(r.after);
    PairBytes(headers, data);
    var sent := [SentStart(headers), SentBody(data, false)];
    OneBody(ForwardAll(r.before), OthersSent(r.middle), sent, ForwardAll(r.after));
  }

  /** The same response, carrying the rendering of a redacted value, once recognised by its scope and once not. */
  ghost predicate PathsAgree(rules: Rules, codec: Codec, r: Response, id: nat, v: Json) {
    var o := Object(id, codec.render(RedactBody(rules, v)));
    var sent := r.(last := o).Messages();
    codec.loads(BodyBytes(Run(Env(rules, codec, [o]), IDLE, sent).out)) ==
    codec.loads(BodyBytes(Run(Env(rules, codec, []), IDLE, sent).out))
  }

  lemma {:induction false} AgreeWhenSettled(rules: Rules, codec: Codec, r: Response, id: nat, v: Json)
    requires RoundTrips(codec) && r.Ordered() && DeclaresJson(r.headers) && Chunks(r.middle) == "" && UniqueKeys(v)
    ensures PathsAgree(rules, codec, r, id, v) <==> RedactBody(rules, RedactBody(rules, v)) == RedactBody(rules, v)
  {
    var o := Object(id, codec.render(RedactBody(rules, v)));
    var fast, slow, q := Env(rules, codec, [o]), Env(rules, codec, []), r.(last := o);
    RedactKeepsKeys(rules, v, FREE_TEXT);
    assert fast.rendered[0].id == q.last.id;
    assert WasRendered(fast, q.last);
    ClientReads(fast, q);
    ClientReads(slow, q);
    assert q.Produced() == o.data;
    RewrittenIsRight(slow, o.data);
  }

  /**
   * Whatever else is sent around it, a rendered body reads the same on the fast and on the buffering path, for every
   * value, if and only if `redact_text` settles: the one applies the redactor once, the other to its own output.
   */
  lemma {:induction false} PathsAgreeExactly(rules: Rules, codec: Codec, r: Response, id: nat)
    requires RoundTrips(codec) && r.Ordered() && DeclaresJson(r.headers) && Chunks(r.middle) == ""
    ensures (forall v :: UniqueKeys(v) ==> PathsAgree(rules, codec, r, id, v)) <==> TextSettles(rules)
  {
    if TextSettles(rules) {
      forall v | UniqueKeys(v) ensures PathsAgree(rules, codec, r, id, v) {
        RedactTwice(rules, v, FREE_TEXT);
        AgreeWhenSettled(rules, codec, r, id, v);
      }
    } else {
      var s, flags :| InUse(rules, flags) && rules.text(rules.text(s, flags), flags) != rules.text(s, flags);
      var body := UnsettledBody(rules, s, flags);
      assert UniqueKeys(body) by { if body.Obj? { assert UniqueKeys(body.fields[0].value); } }
      AgreeWhenSettled(rules, codec, r, id, body);
      assert !PathsAgree(rules, codec, r, id, body);
    }
  }

  lemma {:induction false} ValueReachesClient(env: Env, r: Response, v: Json)
    requires r.Ordered() && DeclaresJson(r.headers) && Sound(env, r)
    requires env.codec.loads(r.Produced()) == Some(v) || env.codec.loads(r.Produced()) == Some(RedactBody(env.rules, v))
    ensures env.codec.loads(BodyBytes(Run(env, IDLE, r.Messages()).out)) == Some(RedactBody(env.rules, v))
  {
    ClientReads(env, r);
    RedactTwice(env.rules, v, FREE_TEXT);
    if TakesFastPath(env, r) {
      RecognisedIsRight(env, r);
      assert r.Produced() == r.last.data;
    } else {
      RewrittenIsRight(env, r.Produced());
    }
  }

  /**
   * From a route's value to the client: whether the response class rendered it or the route rendered it itself, and
   * on whichever path it left, the client parses the redaction of the value it stands for.
   */
  lemma {:induction false} ContentReachesClientRedacted(
      env: Env, plain: Python -> Option<Bytes>, content: Python, r: Response)
    requires r.Ordered() && DeclaresJson(r.headers) && Sound(env, r)
    requires RendersPlainly(env.codec, plain) && DistinctKeys(content) && Meant(env.codec, plain, content).Some?
    requires var v := Meant(env.codec, plain, content).value;
             plain(content) == Some(r.Produced()) || env.codec.loads(r.Produced()) == Some(RedactBody(env.rules, v))
    ensures env.codec.loads(BodyBytes(Run(env, IDLE, r.Messages()).out)) ==
            Some(RedactBody(env.rules, Meant(env.codec, plain, content).value))
  {
    var v := Meant(env.codec, plain, content).value;
    assert PlainBytes(env.codec, plain, content);
    MeantIsPlain(env.codec, plain, content);
    ValueReachesClient(env, r, v);
  }

  // ----- By what is declared -----

  /**
   * A response that declares `application/json`, with or without parameters, or any other JSON media type, is redacted
   * for the client on whichever path it takes.
   */
  lemma {:induction false} DeclaredJsonIsRedacted(env: Env, r: Response, i: int, media: Bytes, parameters: Bytes)
    requires r.Ordered() && Sound(env, r) && TypeAt(r.headers, i, media, parameters)
    requires media in {"application/json", "application/problem+json"}
    ensures RightBytes(env, r.Produced(), BodyBytes(Run(env, IDLE, r.Messages()).out))
  {
    JsonTypes();
    PlainlyDeclared(r.headers, i, media, parameters);
    JsonReachesClientRight(env, r);
  }

  /** So is one that declares no content type at all. */
  lemma {:induction false} UndeclaredIsRedacted(env: Env, r: Response)
    requires r.Ordered() && Sound(env, r) && NoType(r.headers)
    ensures RightBytes(env, r.Produced(), BodyBytes(Run(env, IDLE, r.Messages()).out))
  {
    JsonReachesClientRight(env, r);
  }

  /** A download or an event stream leaves as it was sent. */
  lemma {:induction false} StreamsLeaveAsSent(env: Env, r: Response, i: int, media: Bytes, parameters: Bytes)
    requires r.Ordered() && TypeAt(r.headers, i, media, parameters)
    requires media in {"application/octet-stream", "text/event-stream"}
    ensures Run(env, IDLE, r.Messages()).out == ForwardAll(r.Messages())
  {
    StreamTypes();
    PlainlyDeclared(r.headers, i, media, parameters);
    OtherMediaUntouched(env, r);
  }

  lemma {:induction false} JsonReachesClientRight(env: Env, r: Response)
    requires r.Ordered() && Sound(env, r) && DeclaresJson(r.headers)
    ensures RightBytes(env, r.Produced(), BodyBytes(Run(env, IDLE, r.Messages()).out))
  {
    ClientReads(env, r);
    if TakesFastPath(env, r) {
      RecognisedIsRight(env, r);
      assert r.Produced() == r.last.data;
    } else {
      RewrittenIsRight(env, r.Produced());
    }
  }
}
