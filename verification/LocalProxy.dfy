/** The client's side of proxied requests: frames of many requests arrive interleaved on one ordered channel and
    are reassembled per request. */
module LocalProxies {
  import opened Protocol
  import opened Streaming

  const STREAM_BUFFER_LIMIT: nat := 50 * 1024 * 1024

  datatype StreamingRequest = StreamingRequest(verb: string, path: string, headers: seq<Header>, body: Bytes)

  /** One request handed to the local service. */
  datatype Call = Call(id: Uuid, verb: string, path: string, headers: seq<Header>, body: Bytes)

  /** Open streams, calls made so far, and whether the session has failed. */
  datatype Client = Client(streams: map<Uuid, StreamingRequest>, calls: seq<Call>, failed: bool)

  const FRESH: Client := Client(map[], [], false)

  function Fail(c: Client): Client {
    c.(failed := true)
  }

  /** One frame on an HTTP tunnel. A failed session handles no further frame. */
  function Receive(c: Client, m: Message): Client {
    if c.failed then c
    else if !Validate(m, DEFAULT_MAX_BODY_SIZE) then Fail(c)
    else match m
      case HttpRequest(id, verb, path, headers, body) => c.(calls := c.calls + [Call(id, verb, path, headers, body)])
      case HttpRequestStart(id, verb, path, headers, _) =>
        c.(streams := c.streams[id := StreamingRequest(verb, path, headers, [])])
      case HttpRequestChunk(id, data, _) =>
        if id !in c.streams then Fail(c)
        else
          var s := c.streams[id];
          if |s.body| + |data| > STREAM_BUFFER_LIMIT then Fail(c)
          else c.(streams := c.streams[id := s.(body := s.body + data)])
      case HttpRequestEnd(id) =>
        if id !in c.streams then c
        else
          var s := c.streams[id];
          c.(streams := c.streams - {id}, calls := c.calls + [Call(id, s.verb, s.path, s.headers, s.body)])
      case Disconnect => Fail(c)
      case Error(_) => Fail(c)
      case _ => c
  }

  function ReceiveAll(frames: seq<Message>): Client {
    if frames == [] then FRESH else Receive(ReceiveAll(frames[..|frames| - 1]), frames[|frames| - 1])
  }

  /** Frames too large to be decoded. */
  predicate Oversize(m: Message) {
    || (m.HttpRequest? && |m.body| > 10_485_760)
    || (m.HttpResponse? && |m.body| > 10_485_760)
    || (m.HttpRequestChunk? && |m.data| > 10_485_760)
    || (m.TcpData? && |m.data| > 10_485_760)
  }

  /** What ends a session: a disconnect, an error, a frame too large, a chunk of no open stream, and a chunk with which
      its stream would hold more than 50 MiB. Nothing else changes then; and a frame of no request changes nothing. */
  lemma FailsExactly(c: Client, m: Message)
    requires !c.failed
    ensures Receive(c, m).failed <==>
              || m.Disconnect? || m.Error? || Oversize(m)
              || (m.HttpRequestChunk? && (m.id in c.streams ==> |c.streams[m.id].body| + |m.data| > 52_428_800))
    ensures Receive(c, m).failed ==> Receive(c, m) == c.(failed := true)
    ensures Receive(c, m) == c
              <== !Oversize(m) && (m.HttpResponse? || m.TcpConnect? || m.TcpConnectAck? || m.TcpData? || m.TcpClose?
                                   || m.Unsupported? || (m.HttpRequestEnd? && m.id !in c.streams))
  {
  }

  lemma FailureIsFinal(c: Client, m: Message)
    requires c.failed
    ensures Receive(c, m) == c
  {
  }

  /** A start begins its stream afresh, whatever was open under its id. */
  lemma StartsAfresh(c: Client, m: Message)
    requires m.HttpRequestStart? && !c.failed
    ensures Receive(c, m) == Receive(c.(streams := c.streams - {m.id}), m)
    ensures m.id in Receive(c, m).streams && Receive(c, m).streams[m.id].body == []
  {
    var s := Receive(c, m).streams[m.id];
    assert c.streams[m.id := s] == (c.streams - {m.id})[m.id := s];
  }

  // ---- one request's share of the channel ----

  function Owner(m: Message): Option<Uuid> {
    match m
    case HttpRequest(id, _, _, _, _) => Some(id)
    case HttpRequestStart(id, _, _, _, _) => Some(id)
    case HttpRequestChunk(id, _, _) => Some(id)
    case HttpRequestEnd(id) => Some(id)
    case _ => None
  }

  function Project(frames: seq<Message>, id: Uuid): seq<Message> {
    if frames == [] then [] else
      Project(frames[..|frames| - 1], id)
      + if Owner(frames[|frames| - 1]) == Some(id) then [frames[|frames| - 1]] else []
  }

  function CallsFor(calls: seq<Call>, id: Uuid): seq<Call> {
    if calls == [] then [] else
      CallsFor(calls[..|calls| - 1], id) + if calls[|calls| - 1].id == id then [calls[|calls| - 1]] else []
  }

  /** Frames that belong to no request and end no session. */
  predicate Harmless(m: Message) {
    Owner(m) == None && !m.Disconnect? && !m.Error? && Validate(m, DEFAULT_MAX_BODY_SIZE)
  }

  /** For request `id` the two clients are the same. */
  ghost predicate SameFor(a: Client, b: Client, id: Uuid) {
    && (id in a.streams <==> id in b.streams)
    && (id in a.streams ==> a.streams[id] == b.streams[id])
    && CallsFor(a.calls, id) == CallsFor(b.calls, id)
  }

  lemma CallsForSnoc(calls: seq<Call>, x: Call, id: Uuid)
    ensures CallsFor(calls + [x], id) == CallsFor(calls, id) + if x.id == id then [x] else []
  {
    assert (calls + [x])[..|calls|] == calls;
  }

  lemma CallShape(c: Client, m: Message)
    ensures var c' := Receive(c, m);
      c'.calls == c.calls || exists x: Call :: c'.calls == c.calls + [x] && Owner(m) == Some(x.id)
  {
  }

  lemma AtMostOneCall(c: Client, m: Message, id: Uuid)
    ensures var c' := Receive(c, m);
      || c'.calls == c.calls
      || (|c'.calls| == |c.calls| + 1 && c'.calls[..|c.calls|] == c.calls && Some(c'.calls[|c.calls|].id) == Owner(m)
          && CallsFor(c'.calls, id) ==
               CallsFor(c.calls, id) + if Owner(m) == Some(id) then [c'.calls[|c.calls|]] else [])
  {
    CallShape(c, m);
    var calls' := Receive(c, m).calls;
    if calls' != c.calls {
      var x: Call :| calls' == c.calls + [x] && Owner(m) == Some(x.id);
      CallsForSnoc(c.calls, x, id);
    }
  }

  /** What a frame does for one request depends only on that request's part of the state. */
  lemma ReceiveSameFor(a: Client, b: Client, m: Message, id: Uuid)
    requires !a.failed && !b.failed && SameFor(a, b, id) && Owner(m) == Some(id)
    ensures Receive(a, m).failed == Receive(b, m).failed
    ensures SameFor(Receive(a, m), Receive(b, m), id)
  {
    AtMostOneCall(a, m, id);
    AtMostOneCall(b, m, id);
  }

  /** A frame of another request, or of none, leaves this one alone. */
  lemma ReceiveOther(a: Client, m: Message, id: Uuid)
    requires Owner(m) != Some(id)
    ensures SameFor(Receive(a, m), a, id)
  {
    AtMostOneCall(a, m, id);
  }

  /** The share of one request decides what the client holds and calls for it, whatever it is interleaved with. */
  lemma {:induction false} Independent(frames: seq<Message>, id: Uuid)
    requires !ReceiveAll(frames).failed
    ensures !ReceiveAll(Project(frames, id)).failed
    ensures SameFor(ReceiveAll(frames), ReceiveAll(Project(frames, id)), id)
  {
    if frames != [] {
      var front, m := frames[..|frames| - 1], frames[|frames| - 1];
      Independent(front, id);
      if Owner(m) == Some(id) {
        assert Project(frames, id)[..|Project(frames, id)| - 1] == Project(front, id);
        ReceiveSameFor(ReceiveAll(front), ReceiveAll(Project(front, id)), m, id);
      } else {
        assert Project(frames, id) == Project(front, id);
        ReceiveOther(ReceiveAll(front), m, id);
      }
    }
  }

  /** If the client fails on frames that end no session by themselves, then it fails on one request's share alone. */
  lemma {:induction false} FailureHasOwner(frames: seq<Message>) returns (id: Uuid)
    requires ReceiveAll(frames).failed
    requires forall m :: m in frames ==> Owner(m).Some? || Harmless(m)
    ensures ReceiveAll(Project(frames, id)).failed
    ensures exists m :: m in frames && Owner(m) == Some(id)
  {
    var front, m := frames[..|frames| - 1], frames[|frames| - 1];
    if ReceiveAll(front).failed {
      id := FailureHasOwner(front);
      StillFailed(front, m, id);
      var w :| w in front && Owner(w) == Some(id);
      assert w in frames;
      assert front + [m] == frames;
    } else {
      assert m in frames;
      id := Owner(m).value;
      Independent(front, id);
      assert Project(frames, id)[..|Project(frames, id)| - 1] == Project(front, id);
      ReceiveSameFor(ReceiveAll(front), ReceiveAll(Project(front, id)), m, id);
    }
  }

  lemma StillFailed(front: seq<Message>, m: Message, id: Uuid)
    requires ReceiveAll(Project(front, id)).failed
    ensures ReceiveAll(Project(front + [m], id)).failed
  {
    assert (front + [m])[..|front|] == front;
    if Owner(m) == Some(id) {
      var p := Project(front, id) + [m];
      assert p[..|p| - 1] == Project(front, id);
      assert Project(front + [m], id) == p;
    } else {
      assert Project(front + [m], id) == Project(front, id);
    }
  }

  // ---- the share of a relayed request ----

  function OwnCall(id: Uuid, req: Request): Call {
    Call(id, req.parts.verb, ForwardedPath(req.parts), VisibleHeaders(req.parts.headers), BodyBytes(req.body.frames))
  }

  /** The call is the request itself: its method, its address, its printable headers in order and the bytes of its
      body. */
  ghost predicate IsRequest(x: Call, id: Uuid, req: Request) {
    && x.id == id && x.verb == req.parts.verb && Addressed(req.parts, x.path)
    && Forwarded(req.parts.headers, x.headers) && x.body == BodyBytes(req.body.frames)
  }

  ghost predicate CalledOnce(calls: seq<Call>, id: Uuid, req: Request) {
    |calls| == 1 && IsRequest(calls[0], id, req)
  }

  lemma OwnCallExact(x: Call, id: Uuid, req: Request)
    ensures IsRequest(x, id, req) <==> x == OwnCall(id, req)
  {
    VisibleHeadersExact(req.parts.headers, x.headers);
  }

  lemma OwnCallOnce(calls: seq<Call>, id: Uuid, req: Request)
    ensures CalledOnce(calls, id, req) <==> calls == [OwnCall(id, req)]
  {
    OwnCallExact(OwnCall(id, req), id, req);
    if calls != [] {
      OwnCallExact(calls[0], id, req);
    }
  }

  /** Bytes a share asks the client to buffer. */
  function StreamedSize(share: seq<Message>): nat {
    if share == [] then 0 else
      var m := share[|share| - 1];
      StreamedSize(share[..|share| - 1]) + if m.HttpRequestChunk? then |m.data| else 0
  }

  /** A share is complete when its last frame, the end of a stream or a whole request, has arrived. */
  predicate Complete(share: seq<Message>) {
    share != [] && (share[|share| - 1].HttpRequestEnd? || share[|share| - 1].HttpRequest?)
  }

  /** The frames of a streamed request by position. */
  lemma StreamScriptAt(id: Uuid, req: Request, cfg: StreamingConfig, j: nat)
    requires cfg.chunkSize > 0 && j < |StreamScript(id, req, cfg)|
    ensures var payloads, m := Payloads(req.body.frames, cfg, 0), StreamScript(id, req, cfg)[j];
      && (j == 0 ==> m == StartFrame(id, req.parts))
      && (1 <= j <= |payloads| ==> m == HttpRequestChunk(id, payloads[j - 1], (j - 1) % U32))
      && (j > |payloads| ==> m == HttpRequestEnd(id) && j == |payloads| + 1 && Stop(req.body.frames, cfg, 0) == Finished)
  {
    NumberedAt(id, Payloads(req.body.frames, cfg, 0), 0, if j > 0 then j - 1 else 0);
  }

  function Seen(payloads: seq<Bytes>, j: nat): Bytes {
    Concat(payloads[..if j == 0 then 0 else if j <= |payloads| + 1 then j - 1 else |payloads|])
  }

  /** The client after the first `j` frames of a streamed request, when its buffer limit was not met. */
  function Expected(id: Uuid, req: Request, payloads: seq<Bytes>, j: nat): Client {
    var p := req.parts;
    if j == 0 then FRESH
    else if j <= |payloads| + 1 then
      Client(map[id := StreamingRequest(p.verb, ForwardedPath(p), VisibleHeaders(p.headers), Seen(payloads, j))], [], false)
    else Client(map[], [Call(id, p.verb, ForwardedPath(p), VisibleHeaders(p.headers), Seen(payloads, j))], false)
  }

  lemma SeenStep(payloads: seq<Bytes>, j: nat)
    requires 2 <= j <= |payloads| + 1
    ensures Seen(payloads, j) == Seen(payloads, j - 1) + payloads[j - 2]
  {
    assert payloads[..j - 1][..j - 2] == payloads[..j - 2];
  }

  /** The j-th frame takes the client from what `j - 1` frames left to what `j` frames leave, or fails it. */
  lemma StreamStep(id: Uuid, req: Request, payloads: seq<Bytes>, j: nat, m: Message)
    requires 1 <= j <= |payloads| + 2 && |Seen(payloads, j - 1)| <= STREAM_BUFFER_LIMIT
    requires j == 1 ==> m == StartFrame(id, req.parts)
    requires 2 <= j <= |payloads| + 1 ==>
               m == HttpRequestChunk(id, payloads[j - 2], (j - 2) % U32) && |payloads[j - 2]| <= DEFAULT_MAX_BODY_SIZE
    requires j == |payloads| + 2 ==> m == HttpRequestEnd(id)
    ensures var c := Receive(Expected(id, req, payloads, j - 1), m);
      && (c.failed <==> |Seen(payloads, j)| > STREAM_BUFFER_LIMIT)
      && (!c.failed ==> c == Expected(id, req, payloads, j))
  {
    if 2 <= j <= |payloads| + 1 {
      SeenStep(payloads, j);
    } else if j == |payloads| + 2 {
      var streams := Expected(id, req, payloads, j - 1).streams;
      assert streams - {id} == map[];
    }
  }

  /** The j-th frame of the script, as `StreamStep` wants it, and the first `j` frames cut before it. */
  lemma StreamFrame(id: Uuid, req: Request, cfg: StreamingConfig, j: nat) returns (m: Message)
    requires 0 < cfg.chunkSize <= DEFAULT_MAX_BODY_SIZE && 1 <= j <= |StreamScript(id, req, cfg)|
    ensures var payloads, script := Payloads(req.body.frames, cfg, 0), StreamScript(id, req, cfg);
      && j <= |payloads| + 2
      && script[..j][..j - 1] == script[..j - 1] && script[..j][j - 1] == m
      && (j == 1 ==> m == StartFrame(id, req.parts))
      && (2 <= j <= |payloads| + 1 ==>
            m == HttpRequestChunk(id, payloads[j - 2], (j - 2) % U32) && |payloads[j - 2]| <= DEFAULT_MAX_BODY_SIZE)
      && (j == |payloads| + 2 ==> m == HttpRequestEnd(id))
  {
    var payloads := Payloads(req.body.frames, cfg, 0);
    m := StreamScript(id, req, cfg)[j - 1];
    StreamScriptAt(id, req, cfg, j - 1);
    PayloadsExact(req.body.frames, cfg, 0);
    if 2 <= j <= |payloads| + 1 {
      assert payloads[j - 2] in payloads;
    }
  }

  lemma {:induction false} StreamSized(id: Uuid, req: Request, cfg: StreamingConfig, j: nat)
    requires 0 < cfg.chunkSize <= DEFAULT_MAX_BODY_SIZE && j <= |StreamScript(id, req, cfg)|
    ensures StreamedSize(StreamScript(id, req, cfg)[..j]) == |Seen(Payloads(req.body.frames, cfg, 0), j)|
  {
    if j > 0 {
      StreamSized(id, req, cfg, j - 1);
      var m := StreamFrame(id, req, cfg, j);
      if 2 <= j <= |Payloads(req.body.frames, cfg, 0)| + 1 {
        SeenStep(Payloads(req.body.frames, cfg, 0), j);
      }
    }
  }

  lemma {:induction false} StreamReceived(id: Uuid, req: Request, cfg: StreamingConfig, j: nat)
    requires 0 < cfg.chunkSize <= DEFAULT_MAX_BODY_SIZE && j <= |StreamScript(id, req, cfg)|
    ensures var payloads, share := Payloads(req.body.frames, cfg, 0), StreamScript(id, req, cfg)[..j];
      && (ReceiveAll(share).failed <==> |Seen(payloads, j)| > STREAM_BUFFER_LIMIT)
      && (!ReceiveAll(share).failed ==> ReceiveAll(share) == Expected(id, req, payloads, j))
  {
    if j > 0 {
      StreamReceived(id, req, cfg, j - 1);
      var m := StreamFrame(id, req, cfg, j);
      var payloads, share := Payloads(req.body.frames, cfg, 0), StreamScript(id, req, cfg)[..j];
      assert ReceiveAll(share) == Receive(ReceiveAll(share[..j - 1]), m);
      if |Seen(payloads, j - 1)| <= STREAM_BUFFER_LIMIT {
        StreamStep(id, req, payloads, j, m);
      } else if 2 <= j <= |payloads| + 1 {
        SeenStep(payloads, j);
      }
    }
  }

  /** What a client makes of any prefix of a relayed request, streamed or buffered: it fails exactly when it was
      asked to buffer too much; otherwise it calls the local service once, with the request's own method, path,
      headers and body, if the prefix is complete, and not at all if it is not. */
  lemma ShareOutcome(id: Uuid, req: Request, cfg: StreamingConfig, limit: nat, share: seq<Message>)
    requires 0 < cfg.chunkSize <= DEFAULT_MAX_BODY_SIZE
    requires share <= Script(id, req, cfg, limit)
    ensures ReceiveAll(share).failed <==> StreamedSize(share) > STREAM_BUFFER_LIMIT
    ensures !ReceiveAll(share).failed ==>
              if Complete(share) then CalledOnce(ReceiveAll(share).calls, id, req) else ReceiveAll(share).calls == []
  {
    OwnCallOnce(ReceiveAll(share).calls, id, req);
    if ShouldStream(cfg, req.parts.contentLength, req.body.upper) {
      StreamReceived(id, req, cfg, |share|);
      StreamSized(id, req, cfg, |share|);
      assert share == StreamScript(id, req, cfg)[..|share|];
      if share != [] {
        StreamScriptAt(id, req, cfg, |share| - 1);
        PayloadsExact(req.body.frames, cfg, 0);
        var payloads := Payloads(req.body.frames, cfg, 0);
        assert payloads[..|payloads|] == payloads;
      }
    } else if share != [] {
      CollectExact(req.body, limit);
      assert share == [BufferedFrame(id, req.parts, Collect(req.body, limit).body)];
      assert share[..0] == [];
    }
  }

  lemma OneCallFor(x: Call, id: Uuid)
    ensures CallsFor([x], id) == if x.id == id then [x] else []
  {
    assert [x][..0] == [];
  }

  // ---- any interleaving ----

  /** The frames received so far: those of each request are a prefix of what the relay sends for it, in order, and
      the others are harmless. A request whose sender stopped midway contributes a shorter prefix. */
  ghost predicate Interleaves(frames: seq<Message>, requests: map<Uuid, Request>, cfg: StreamingConfig, limit: nat) {
    && 0 < cfg.chunkSize <= DEFAULT_MAX_BODY_SIZE
    && (forall m :: m in frames ==> Harmless(m) || (Owner(m).Some? && Owner(m).value in requests))
    && (forall id :: id in requests ==> Project(frames, id) <= Script(id, requests[id], cfg, limit))
  }

  /** For every set of requests and every interleaving of their frames: the client fails exactly when some stream
      outgrows its buffer, and while it has not failed every complete request has been handed to the local service
      exactly once, as itself, and no incomplete one has. */
  lemma RequestsReassemble(frames: seq<Message>, requests: map<Uuid, Request>, cfg: StreamingConfig, limit: nat)
    requires Interleaves(frames, requests, cfg, limit)
    ensures ReceiveAll(frames).failed <==>
              exists id :: id in requests && StreamedSize(Project(frames, id)) > STREAM_BUFFER_LIMIT
    ensures !ReceiveAll(frames).failed ==> forall id :: id in requests ==>
              var calls := CallsFor(ReceiveAll(frames).calls, id);
              if Complete(Project(frames, id)) then CalledOnce(calls, id, requests[id]) else calls == []
  {
    if ReceiveAll(frames).failed {
      var id := FailureHasOwner(frames);
      ShareOutcome(id, requests[id], cfg, limit, Project(frames, id));
    } else {
      forall id | id in requests
        ensures StreamedSize(Project(frames, id)) <= STREAM_BUFFER_LIMIT
        ensures var calls := CallsFor(ReceiveAll(frames).calls, id);
          if Complete(Project(frames, id)) then CalledOnce(calls, id, requests[id]) else calls == []
      {
        Independent(frames, id);
        ShareOutcome(id, requests[id], cfg, limit, Project(frames, id));
        OwnCallOnce(ReceiveAll(Project(frames, id)).calls, id, requests[id]);
        OwnCallOnce(CallsFor(ReceiveAll(frames).calls, id), id, requests[id]);
        OneCallFor(OwnCall(id, requests[id]), id);
      }
    }
  }

  lemma InterleavesFront(frames: seq<Message>, requests: map<Uuid, Request>, cfg: StreamingConfig, limit: nat)
    requires frames != [] && Interleaves(frames, requests, cfg, limit)
    ensures Interleaves(frames[..|frames| - 1], requests, cfg, limit)
  {
    forall id | id in requests ensures Project(frames[..|frames| - 1], id) <= Script(id, requests[id], cfg, limit) {
      assert Project(frames[..|frames| - 1], id) <= Project(frames, id);
    }
  }

  lemma FailureCallsNothing(c: Client, m: Message)
    requires Receive(c, m).failed
    ensures Receive(c, m).calls == c.calls
  {
  }

  /** Failed session or not: the local service never sees anything but complete requests, each at most once, as
      themselves. */
  lemma {:induction false} OnlyOwnCalls(frames: seq<Message>, requests: map<Uuid, Request>, cfg: StreamingConfig,
                                        limit: nat, id: Uuid)
    requires Interleaves(frames, requests, cfg, limit) && id in requests
    ensures var calls := CallsFor(ReceiveAll(frames).calls, id);
      calls == [] || (CalledOnce(calls, id, requests[id]) && Complete(Project(frames, id)))
  {
    if !ReceiveAll(frames).failed {
      RequestsReassemble(frames, requests, cfg, limit);
    } else {
      var front := frames[..|frames| - 1];
      FailureCallsNothing(ReceiveAll(front), frames[|frames| - 1]);
      InterleavesFront(frames, requests, cfg, limit);
      OnlyOwnCalls(front, requests, cfg, limit, id);
      if Complete(Project(front, id)) {
        assert Project(front, id) <= Project(frames, id);
        CompleteIsLast(id, requests[id], cfg, limit, Project(front, id), Project(frames, id));
      }
    }
  }

  /** Nothing follows a complete share. */
  lemma CompleteIsLast(id: Uuid, req: Request, cfg: StreamingConfig, limit: nat, share: seq<Message>, longer: seq<Message>)
    requires cfg.chunkSize > 0 && Complete(share) && share <= longer <= Script(id, req, cfg, limit)
    ensures longer == share
  {
    if ShouldStream(cfg, req.parts.contentLength, req.body.upper) {
      StreamScriptAt(id, req, cfg, |share| - 1);
      assert StreamScript(id, req, cfg)[|share| - 1] == share[|share| - 1];
      if |longer| > |share| {
        StreamScriptAt(id, req, cfg, |longer| - 1);
        assert false;
      }
    }
  }

  /** The streaming threshold is invisible: a request within the limits of both forms reaches the local service as
      the same single call under any two configurations. */
  lemma ThresholdTransparent(id: Uuid, req: Request, a: StreamingConfig, b: StreamingConfig, limit: nat)
    requires 0 < a.chunkSize <= DEFAULT_MAX_BODY_SIZE && 0 < b.chunkSize <= DEFAULT_MAX_BODY_SIZE
    requires Unbroken(req.body.frames) && (req.body.upper.Some? ==> req.body.upper.value <= limit)
    requires var size := |BodyBytes(req.body.frames)|;
      size <= limit && size <= DEFAULT_MAX_BODY_SIZE && size <= a.maxBody && size <= b.maxBody
    ensures ReceiveAll(Script(id, req, a, limit)) == ReceiveAll(Script(id, req, b, limit))
    ensures var c := ReceiveAll(Script(id, req, a, limit));
      c.streams == map[] && !c.failed && CalledOnce(c.calls, id, req)
  {
    WholeScript(id, req, a, limit);
    WholeScript(id, req, b, limit);
    OwnCallOnce(ReceiveAll(Script(id, req, a, limit)).calls, id, req);
    OwnCallOnce(ReceiveAll(Script(id, req, b, limit)).calls, id, req);
  }

  lemma WholeScript(id: Uuid, req: Request, cfg: StreamingConfig, limit: nat)
    requires 0 < cfg.chunkSize <= DEFAULT_MAX_BODY_SIZE
    requires Unbroken(req.body.frames) && (req.body.upper.Some? ==> req.body.upper.value <= limit)
    requires var size := |BodyBytes(req.body.frames)|;
      size <= limit && size <= DEFAULT_MAX_BODY_SIZE && size <= cfg.maxBody
    ensures var c := ReceiveAll(Script(id, req, cfg, limit));
      c.streams == map[] && !c.failed && CalledOnce(c.calls, id, req)
  {
    OwnCallOnce(ReceiveAll(Script(id, req, cfg, limit)).calls, id, req);
    if ShouldStream(cfg, req.parts.contentLength, req.body.upper) {
      WholeStream(id, req, cfg);
    } else {
      CollectExact(req.body, limit);
      var frame := BufferedFrame(id, req.parts, BodyBytes(req.body.frames));
      assert [frame][..0] == [];
    }
  }

  lemma WholeStream(id: Uuid, req: Request, cfg: StreamingConfig)
    requires 0 < cfg.chunkSize <= DEFAULT_MAX_BODY_SIZE && Unbroken(req.body.frames)
    requires var size := |BodyBytes(req.body.frames)|; size <= DEFAULT_MAX_BODY_SIZE && size <= cfg.maxBody
    ensures ReceiveAll(StreamScript(id, req, cfg)) == Client(map[], [OwnCall(id, req)], false)
  {
    StopExact(req.body.frames, cfg, 0);
    PayloadsExact(req.body.frames, cfg, 0);
    var script, payloads := StreamScript(id, req, cfg), Payloads(req.body.frames, cfg, 0);
    NumberedAt(id, payloads, 0, 0);
    StreamReceived(id, req, cfg, |script|);
    assert script[..|script|] == script && payloads[..|payloads|] == payloads;
  }

  // ---- in place ----

  class LocalProxy {
    var pendingStreams: map<Uuid, StreamingRequest>
    var calls: seq<Call>
    var failed: bool

    ghost function View(): Client
      reads this
    {
      Client(pendingStreams, calls, failed)
    }

    constructor ()
      ensures View() == FRESH
    {
      pendingStreams, calls, failed := map[], [], false;
    }

    method BeginStreamingRequest(id: Uuid, verb: string, path: string, headers: seq<Header>)
      modifies this`pendingStreams
      ensures pendingStreams == old(pendingStreams)[id := StreamingRequest(verb, path, headers, [])]
    {
      pendingStreams := pendingStreams[id := StreamingRequest(verb, path, headers, [])];
    }

    method PushStreamingChunk(id: Uuid, data: Bytes) returns (ok: bool)
      modifies this`pendingStreams
      ensures ok == (id in old(pendingStreams) && |old(pendingStreams)[id].body| + |data| <= STREAM_BUFFER_LIMIT)
      ensures ok ==>
        pendingStreams == old(pendingStreams)[id := old(pendingStreams)[id].(body := old(pendingStreams)[id].body + data)]
      ensures !ok ==> pendingStreams == old(pendingStreams)
    {
      if id !in pendingStreams {
        return false;
      }
      var entry := pendingStreams[id];
      if |entry.body| + |data| > STREAM_BUFFER_LIMIT {
        return false;
      }
      pendingStreams := pendingStreams[id := entry.(body := entry.body + data)];
      return true;
    }

    method FinishStreamingRequest(id: Uuid) returns (request: Option<StreamingRequest>)
      modifies this`pendingStreams
      ensures request == if id in old(pendingStreams) then Some(old(pendingStreams)[id]) else None
      ensures pendingStreams == old(pendingStreams) - {id}
    {
      if id !in pendingStreams {
        return None;
      }
      request := Some(pendingStreams[id]);
      pendingStreams := pendingStreams - {id};
    }

    /** One frame of the session loop on an HTTP tunnel. */
    method HandleFrame(m: Message)
      modifies this
      ensures View() == Receive(old(View()), m)
    {
      if failed {
        return;
      }
      if !Validate(m, DEFAULT_MAX_BODY_SIZE) {
        failed := true;
        return;
      }
      match m {
        case HttpRequest(id, verb, path, headers, body) => calls := calls + [Call(id, verb, path, headers, body)];
        case HttpRequestStart(id, verb, path, headers, _) => BeginStreamingRequest(id, verb, path, headers);
        case HttpRequestChunk(id, data, _) =>
          var ok := PushStreamingChunk(id, data);
          failed := !ok;
        case HttpRequestEnd(id) =>
          var request := FinishStreamingRequest(id);
          if request.Some? {
            var r := request.value;
            calls := calls + [Call(id, r.verb, r.path, r.headers, r.body)];
          } else {
            assert pendingStreams == old(pendingStreams);
          }
        case Disconnect => failed := true;
        case Error(_) => failed := true;
        case _ =>
      }
    }
  }
}
