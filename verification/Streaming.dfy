/** The relay's side of one proxied request: streamed in chunks or buffered into one frame. */
module Streaming {
  import opened Protocol

  /** `to_str` fails on a header value that is not visible ASCII; such headers are not forwarded. */
  datatype HeaderValue = Visible(text: string) | Unprintable

  datatype Parts = Parts(verb: string, path: string, pathAndQuery: Option<string>, headers: seq<(string, HeaderValue)>,
                         contentLength: Option<nat>)

  datatype BodyFrame = Data(bytes: Bytes) | Trailers | Broken

  /** The frames a body will yield, and the upper bound it announces. */
  datatype Body = Body(frames: seq<BodyFrame>, upper: Option<nat>)

  datatype Request = Request(parts: Parts, body: Body)

  datatype StreamingConfig = StreamingConfig(enabled: bool, threshold: nat, chunkSize: nat, maxBody: nat)

  function VisibleHeaders(headers: seq<(string, HeaderValue)>): seq<Header> {
    if headers == [] then [] else
      (match headers[0].1 case Visible(text) => [(headers[0].0, text)] case Unprintable => [])
      + VisibleHeaders(headers[1..])
  }

  function Printables(headers: seq<(string, HeaderValue)>): nat {
    if headers == [] then 0 else (if headers[0].1.Visible? then 1 else 0) + Printables(headers[1..])
  }

  /** `out` holds the printable headers in order: each stands, name and value, where the number of printable headers
      before it says, and nothing else is there. */
  ghost predicate Forwarded(headers: seq<(string, HeaderValue)>, out: seq<Header>) {
    && |out| == Printables(headers)
    && forall i: nat :: i < |headers| && headers[i].1.Visible? ==>
         Printables(headers[..i]) < |out| && out[Printables(headers[..i])] == (headers[i].0, headers[i].1.text)
  }

  /** The first header stands first if it is printable; the others follow as if it were not there. */
  lemma ForwardedStep(headers: seq<(string, HeaderValue)>, out: seq<Header>)
    requires headers != []
    ensures Forwarded(headers, out) <==>
              if headers[0].1.Visible? then
                out != [] && out[0] == (headers[0].0, headers[0].1.text) && Forwarded(headers[1..], out[1..])
              else Forwarded(headers[1..], out)
  {
    var n, rest := (if headers[0].1.Visible? then 1 else 0), headers[1..];
    forall i: nat | i < |rest| ensures Printables(headers[..i + 1]) == n + Printables(rest[..i]) {
      assert headers[..i + 1][1..] == rest[..i];
    }
    assert Printables(headers[..0]) == 0;
    if |out| >= n && Forwarded(rest, out[n..]) && (n == 1 ==> out[0] == (headers[0].0, headers[0].1.text)) {
      forall i: nat | i < |headers| && headers[i].1.Visible?
        ensures Printables(headers[..i]) < |out| && out[Printables(headers[..i])] == (headers[i].0, headers[i].1.text)
      {
        if i > 0 {
          var k := Printables(rest[..i - 1]);
          assert rest[i - 1] == headers[i] && k < |out[n..]| && out[n..][k] == out[n + k];
        }
      }
    }
    if Forwarded(headers, out) {
      forall i: nat | i < |rest| && rest[i].1.Visible?
        ensures Printables(rest[..i]) < |out[n..]| && out[n..][Printables(rest[..i])] == (rest[i].0, rest[i].1.text)
      {
        assert headers[i + 1] == rest[i] && Printables(headers[..i + 1]) == n + Printables(rest[..i]);
      }
    }
  }

  lemma {:induction false} VisibleHeadersExact(headers: seq<(string, HeaderValue)>, out: seq<Header>)
    ensures Forwarded(headers, out) <==> out == VisibleHeaders(headers)
  {
    if headers != [] {
      ForwardedStep(headers, out);
      if headers[0].1.Visible? {
        VisibleHeadersExact(headers[1..], if out == [] then [] else out[1..]);
        if out != [] {
          assert out == [out[0]] + out[1..];
        }
      } else {
        VisibleHeadersExact(headers[1..], out);
      }
    }
  }

  function ForwardedPath(parts: Parts): string {
    if parts.pathAndQuery.Some? then parts.pathAndQuery.value else parts.path
  }

  /** The address a request is forwarded to: its path and query where it has them, else the bare path. */
  predicate Addressed(parts: Parts, path: string) {
    match parts.pathAndQuery
    case Some(pathAndQuery) => path == pathAndQuery
    case None => path == parts.path
  }

  function ShouldStream(cfg: StreamingConfig, contentLength: Option<nat>, upper: Option<nat>): bool {
    cfg.enabled &&
    if contentLength.Some? then contentLength.value >= cfg.threshold
    else upper.Some? && upper.value >= cfg.threshold
  }

  // ---- bytes ----

  function Concat(datas: seq<Bytes>): Bytes {
    if datas == [] then [] else Concat(datas[..|datas| - 1]) + datas[|datas| - 1]
  }

  function BodyBytes(frames: seq<BodyFrame>): Bytes {
    if frames == [] then [] else
      (if frames[0].Data? then frames[0].bytes else []) + BodyBytes(frames[1..])
  }

  predicate Unbroken(frames: seq<BodyFrame>) {
    forall f :: f in frames ==> !f.Broken?
  }

  /** `slice::chunks`: pieces of `n` bytes, the last one possibly shorter. */
  function Chunks(data: Bytes, n: nat): seq<Bytes>
    requires n > 0
  {
    if data == [] then [] else if |data| <= n then [data] else [data[..n]] + Chunks(data[n..], n)
  }

  lemma {:induction false} ConcatAppend(a: seq<Bytes>, b: seq<Bytes>)
    ensures Concat(a + b) == Concat(a) + Concat(b)
  {
    if b == [] {
      assert a + b == a;
    } else {
      ConcatAppend(a, b[..|b| - 1]);
      assert (a + b)[..|a + b| - 1] == a + b[..|b| - 1];
    }
  }

  lemma ConcatFront(first: Bytes, rest: seq<Bytes>)
    ensures Concat([first] + rest) == first + Concat(rest)
  {
    ConcatAppend([first], rest);
    assert Concat([first]) == Concat([]) + first;
  }

  lemma {:induction false} ChunksConcat(data: Bytes, n: nat)
    requires n > 0
    ensures Concat(Chunks(data, n)) == data
  {
    if 0 < |data| <= n {
      ConcatFront(data, []);
      assert [data] + [] == [data];
    } else if data != [] {
      ChunksConcat(data[n..], n);
      ConcatFront(data[..n], Chunks(data[n..], n));
    }
  }

  lemma {:induction false} ChunksSized(data: Bytes, n: nat)
    requires n > 0
    ensures forall c :: c in Chunks(data, n) ==> 1 <= |c| <= n
  {
    if |data| > n {
      ChunksSized(data[n..], n);
    }
  }

  /** Every piece but the last is full. */
  lemma {:induction false} ChunksFull(data: Bytes, n: nat, k: nat)
    requires n > 0
    ensures k + 1 < |Chunks(data, n)| ==> |Chunks(data, n)[k]| == n
  {
    if |data| > n && k > 0 {
      ChunksFull(data[n..], n, k - 1);
    }
  }

  lemma {:induction false} BodyBytesAppend(a: seq<BodyFrame>, b: seq<BodyFrame>)
    ensures BodyBytes(a + b) == BodyBytes(a) + BodyBytes(b)
  {
    if a == [] {
      assert a + b == b;
    } else {
      BodyBytesAppend(a[1..], b);
      assert (a + b)[1..] == a[1..] + b;
    }
  }

  /** The bytes of a body: those of its data frames, one frame after the other. */
  lemma BodyBytesExact(a: seq<BodyFrame>, f: BodyFrame, b: seq<BodyFrame>)
    ensures BodyBytes(a + [f] + b) == BodyBytes(a) + (if f.Data? then f.bytes else []) + BodyBytes(b)
    ensures BodyBytes([]) == []
  {
    BodyBytesAppend(a + [f], b);
    BodyBytesAppend(a, [f]);
  }

  // ---- the streamed form ----

  datatype End = Finished | TooLarge(size: nat) | BodyError | WriterClosed

  /** `saturating_add` on a 64-bit size. */
  function Saturate(n: nat): nat {
    if n < U64 then n else U64 - 1
  }

  /** The chunk payloads sent before the body ends, breaks or grows too large. */
  function Payloads(frames: seq<BodyFrame>, cfg: StreamingConfig, total: nat): seq<Bytes>
    requires cfg.chunkSize > 0
  {
    if frames == [] || frames[0].Broken? then []
    else if frames[0].Trailers? then Payloads(frames[1..], cfg, total)
    else
      var total' := Saturate(total + |frames[0].bytes|);
      if total' > cfg.maxBody then []
      else Chunks(frames[0].bytes, cfg.chunkSize) + Payloads(frames[1..], cfg, total')
  }

  function Stop(frames: seq<BodyFrame>, cfg: StreamingConfig, total: nat): End {
    if frames == [] then Finished
    else if frames[0].Broken? then BodyError
    else if frames[0].Trailers? then Stop(frames[1..], cfg, total)
    else
      var total' := Saturate(total + |frames[0].bytes|);
      if total' > cfg.maxBody then TooLarge(total') else Stop(frames[1..], cfg, total')
  }

  function StartFrame(id: Uuid, parts: Parts): Message {
    HttpRequestStart(id, parts.verb, ForwardedPath(parts), VisibleHeaders(parts.headers), parts.contentLength)
  }

  /** `wrapping_add(1)` on 32 bits. */
  function Next(sequence: nat): nat {
    if sequence + 1 < U32 then sequence + 1 else 0
  }

  function Advance(sequence: nat, n: nat): nat
    decreases n
  {
    if n == 0 then sequence else Advance(Next(sequence), n - 1)
  }

  /** The frames of some payloads, numbered on from `first`. */
  function Numbered(id: Uuid, payloads: seq<Bytes>, first: nat): seq<Message>
    decreases payloads
  {
    if payloads == [] then [] else
      [HttpRequestChunk(id, payloads[0], first)] + Numbered(id, payloads[1..], Next(first))
  }

  lemma {:induction false} AdvanceIs(first: nat, k: nat)
    requires first < U32
    ensures Advance(first, k) == (first + k) % U32
    decreases k
  {
    if k > 0 {
      AdvanceIs(Next(first), k - 1);
      assert Next(first) == first + 1 || Next(first) == first + 1 - U32;
    }
  }

  lemma {:induction false} NumberedFrom(id: Uuid, payloads: seq<Bytes>, first: nat, k: nat)
    ensures |Numbered(id, payloads, first)| == |payloads|
    ensures k < |payloads| ==> Numbered(id, payloads, first)[k] == HttpRequestChunk(id, payloads[k], Advance(first, k))
    decreases payloads
  {
    if payloads != [] {
      NumberedFrom(id, payloads[1..], Next(first), if k > 0 then k - 1 else 0);
    }
  }

  /** One frame per payload, in order; the k-th carries sequence `first + k` modulo 2^32. */
  lemma NumberedAt(id: Uuid, payloads: seq<Bytes>, first: nat, k: nat)
    requires first < U32
    ensures |Numbered(id, payloads, first)| == |payloads|
    ensures k < |payloads| ==> Numbered(id, payloads, first)[k] == HttpRequestChunk(id, payloads[k], (first + k) % U32)
  {
    NumberedFrom(id, payloads, first, k);
    AdvanceIs(first, k);
  }

  lemma {:induction false} NumberedAppend(id: Uuid, a: seq<Bytes>, b: seq<Bytes>, first: nat)
    ensures Numbered(id, a + b, first) == Numbered(id, a, first) + Numbered(id, b, Advance(first, |a|))
    decreases a
  {
    if a == [] {
      assert a + b == b;
    } else {
      NumberedAppend(id, a[1..], b, Next(first));
      assert (a + b)[0] == a[0] && (a + b)[1..] == a[1..] + b;
      Regroup([HttpRequestChunk(id, a[0], first)], Numbered(id, a[1..], Next(first)), Numbered(id, b, Advance(first, |a|)));
    }
  }

  lemma Regroup(a: seq<Message>, b: seq<Message>, c: seq<Message>)
    ensures a + (b + c) == a + b + c
  {
  }

  /** What is still to be sent for the remaining body frames. */
  function Remainder(id: Uuid, frames: seq<BodyFrame>, cfg: StreamingConfig, total: nat, sequence: nat): seq<Message>
    requires cfg.chunkSize > 0
  {
    Numbered(id, Payloads(frames, cfg, total), sequence)
    + if Stop(frames, cfg, total) == Finished then [HttpRequestEnd(id)] else []
  }

  /** Everything the streamer sends for one request when the writer stays open. */
  function StreamScript(id: Uuid, req: Request, cfg: StreamingConfig): seq<Message>
    requires cfg.chunkSize > 0
  {
    [StartFrame(id, req.parts)] + Remainder(id, req.body.frames, cfg, 0, 0)
  }

  /** A size within the cap. Totals are counted in 64 bits and stick at the largest, which no cap is below. */
  predicate Fits(size: nat, cfg: StreamingConfig) {
    size <= cfg.maxBody || cfg.maxBody >= 0xFFFF_FFFF_FFFF_FFFF
  }

  /** The streamer finishes exactly when the body neither breaks nor exceeds the cap. */
  lemma {:induction false} StopExact(frames: seq<BodyFrame>, cfg: StreamingConfig, total: nat)
    requires total < U64 && total <= cfg.maxBody
    ensures Stop(frames, cfg, total) == Finished <==> Unbroken(frames) && Fits(total + |BodyBytes(frames)|, cfg)
  {
    if frames != [] && !frames[0].Broken? {
      StopRest(frames);
      var total' := Saturate(total + if frames[0].Data? then |frames[0].bytes| else 0);
      if total' <= cfg.maxBody {
        StopExact(frames[1..], cfg, total');
      }
    }
  }

  /** The `i`-th frame is what stops a body that starts at `from`: the first that breaks, or the first with which the
      size no longer fits. */
  ghost predicate StopsAt(frames: seq<BodyFrame>, cfg: StreamingConfig, from: nat, i: nat) {
    && i < |frames| && Unbroken(frames[..i]) && Fits(from + |BodyBytes(frames[..i])|, cfg)
    && (frames[i].Broken? || !Fits(from + |BodyBytes(frames[..i + 1])|, cfg))
  }

  /** A frame that is not the one to stop leaves the same stop one frame nearer. */
  lemma StopsLater(frames: seq<BodyFrame>, cfg: StreamingConfig, from: nat, i: nat)
    requires from < U64 && from <= cfg.maxBody && StopsAt(frames, cfg, from, i) && i > 0
    ensures var size := if frames[0].Data? then |frames[0].bytes| else 0;
      && !frames[0].Broken? && Saturate(from + size) <= cfg.maxBody
      && StopsAt(frames[1..], cfg, Saturate(from + size), i - 1)
      && BodyBytes(frames[..i]) == (if frames[0].Data? then frames[0].bytes else []) + BodyBytes(frames[1..][..i - 1])
      && |BodyBytes(frames[..i + 1])| == size + |BodyBytes(frames[1..][..i])|
  {
    var rest := frames[1..];
    assert frames[..i][0] == frames[0] && frames[0] in frames[..i];
    assert frames[..i][1..] == rest[..i - 1] && frames[..i + 1][1..] == rest[..i];
    StopRest(frames[..i]);
    StopRest(frames[..i + 1]);
  }

  lemma {:induction false} StopIs(frames: seq<BodyFrame>, cfg: StreamingConfig, total: nat, i: nat)
    requires total < U64 && total <= cfg.maxBody && StopsAt(frames, cfg, total, i)
    ensures Stop(frames, cfg, total) ==
              if frames[i].Broken? then BodyError else TooLarge(Saturate(total + |BodyBytes(frames[..i + 1])|))
  {
    if i > 0 {
      StopsLater(frames, cfg, total, i);
      StopIs(frames[1..], cfg, Saturate(total + if frames[0].Data? then |frames[0].bytes| else 0), i - 1);
    } else if !frames[0].Broken? {
      assert frames[..1][1..] == [];
      StopRest(frames[..1]);
    }
  }

  lemma {:induction false} SentUntil(frames: seq<BodyFrame>, cfg: StreamingConfig, total: nat, i: nat)
    requires total < U64 && total <= cfg.maxBody && cfg.chunkSize > 0 && StopsAt(frames, cfg, total, i)
    ensures Concat(Payloads(frames, cfg, total)) == BodyBytes(frames[..i])
  {
    if i > 0 {
      StopsLater(frames, cfg, total, i);
      var total' := Saturate(total + if frames[0].Data? then |frames[0].bytes| else 0);
      SentUntil(frames[1..], cfg, total', i - 1);
      if frames[0].Data? {
        ChunksConcat(frames[0].bytes, cfg.chunkSize);
        ConcatAppend(Chunks(frames[0].bytes, cfg.chunkSize), Payloads(frames[1..], cfg, total'));
      }
    } else if !frames[0].Broken? {
      assert frames[..1][1..] == [];
      StopRest(frames[..1]);
    }
  }

  /** A body stops at its first failing frame: a broken one is reported as such, a large one with the size counted so
      far. All that came before has been sent by then, and nothing else. */
  lemma StopReports(frames: seq<BodyFrame>, cfg: StreamingConfig, total: nat, i: nat)
    requires total < U64 && total <= cfg.maxBody && cfg.chunkSize > 0
    ensures StopsAt(frames, cfg, total, i) ==>
              && Stop(frames, cfg, total) ==
                   (if frames[i].Broken? then BodyError
                    else if total + |BodyBytes(frames[..i + 1])| < U64 then TooLarge(total + |BodyBytes(frames[..i + 1])|)
                    else TooLarge(0xFFFF_FFFF_FFFF_FFFF))
              && Concat(Payloads(frames, cfg, total)) == BodyBytes(frames[..i])
  {
    if StopsAt(frames, cfg, total, i) {
      StopIs(frames, cfg, total, i);
      SentUntil(frames, cfg, total, i);
    }
  }

  lemma StopRest(frames: seq<BodyFrame>)
    requires frames != [] && !frames[0].Broken?
    ensures Unbroken(frames) <==> Unbroken(frames[1..])
    ensures |BodyBytes(frames)| == (if frames[0].Data? then |frames[0].bytes| else 0) + |BodyBytes(frames[1..])|
  {
    assert frames == [frames[0]] + frames[1..];
  }

  /** The payloads are non-empty pieces of the body in order, and the whole body when the streamer finishes. */
  lemma {:induction false} PayloadsExact(frames: seq<BodyFrame>, cfg: StreamingConfig, total: nat)
    requires cfg.chunkSize > 0
    ensures Concat(Payloads(frames, cfg, total)) <= BodyBytes(frames)
    ensures Stop(frames, cfg, total) == Finished ==> Concat(Payloads(frames, cfg, total)) == BodyBytes(frames)
    ensures forall p :: p in Payloads(frames, cfg, total) ==> 1 <= |p| <= cfg.chunkSize
  {
    if frames != [] && !frames[0].Broken? {
      if frames[0].Trailers? {
        PayloadsExact(frames[1..], cfg, total);
      } else {
        var total' := Saturate(total + |frames[0].bytes|);
        if total' <= cfg.maxBody {
          PayloadsExact(frames[1..], cfg, total');
          ChunksConcat(frames[0].bytes, cfg.chunkSize);
          ChunksSized(frames[0].bytes, cfg.chunkSize);
          ConcatAppend(Chunks(frames[0].bytes, cfg.chunkSize), Payloads(frames[1..], cfg, total'));
        }
      }
    }
  }

  // ---- the buffered form ----

  datatype Collected = Got(body: Bytes) | Rejected(size: nat) | CollectError

  function CollectFrom(frames: seq<BodyFrame>, limit: nat, sofar: Bytes): Collected {
    if frames == [] then Got(sofar)
    else if frames[0].Broken? then CollectError
    else if frames[0].Trailers? then CollectFrom(frames[1..], limit, sofar)
    else if |sofar| + |frames[0].bytes| > limit then Rejected(|sofar| + |frames[0].bytes|)
    else CollectFrom(frames[1..], limit, sofar + frames[0].bytes)
  }

  function Collect(body: Body, limit: nat): Collected {
    if body.upper.Some? && body.upper.value > limit then Rejected(body.upper.value)
    else CollectFrom(body.frames, limit, [])
  }

  lemma {:induction false} CollectFromExact(frames: seq<BodyFrame>, limit: nat, sofar: Bytes)
    requires |sofar| <= limit
    ensures CollectFrom(frames, limit, sofar).Got? <==> Unbroken(frames) && |sofar| + |BodyBytes(frames)| <= limit
    ensures CollectFrom(frames, limit, sofar).Got? ==> CollectFrom(frames, limit, sofar).body == sofar + BodyBytes(frames)
  {
    if frames != [] && !frames[0].Broken? {
      if frames[0].Trailers? {
        CollectFromExact(frames[1..], limit, sofar);
      } else if |sofar| + |frames[0].bytes| <= limit {
        CollectFromExact(frames[1..], limit, sofar + frames[0].bytes);
      }
    }
  }

  /** A body is collected exactly when its announced and its actual size are within the limit, and then whole. */
  lemma CollectExact(body: Body, limit: nat)
    ensures Collect(body, limit).Got? <==>
              (body.upper.Some? ==> body.upper.value <= limit) && Unbroken(body.frames) && |BodyBytes(body.frames)| <= limit
    ensures Collect(body, limit).Got? ==> Collect(body, limit).body == BodyBytes(body.frames)
  {
    CollectFromExact(body.frames, limit, []);
  }

  lemma {:induction false} CollectFromReports(frames: seq<BodyFrame>, limit: nat, sofar: Bytes, i: nat)
    requires i < |frames| && Unbroken(frames[..i]) && |sofar| + |BodyBytes(frames[..i])| <= limit
    requires frames[i].Broken? || |sofar| + |BodyBytes(frames[..i + 1])| > limit
    ensures CollectFrom(frames, limit, sofar) ==
              if frames[i].Broken? then CollectError else Rejected(|sofar| + |BodyBytes(frames[..i + 1])|)
  {
    if i == 0 {
      assert frames[..1][1..] == [];
    } else {
      var rest := frames[1..];
      assert frames[0] in frames[..i];
      assert frames[..i][1..] == rest[..i - 1] && frames[..i + 1][1..] == rest[..i];
      StopRest(frames[..i]);
      StopRest(frames[..i + 1]);
      CollectFromReports(rest, limit, if frames[0].Data? then sofar + frames[0].bytes else sofar, i - 1);
    }
  }

  /** A body that announces too much is rejected with what it announced, unread. Any other is refused at its first
      failing frame: a broken one as such, one that brings too much with the size it brings. */
  lemma CollectReports(body: Body, limit: nat, i: nat)
    ensures body.upper.Some? && body.upper.value > limit ==> Collect(body, limit) == Rejected(body.upper.value)
    ensures && (body.upper.Some? ==> body.upper.value <= limit)
            && i < |body.frames| && Unbroken(body.frames[..i]) && |BodyBytes(body.frames[..i])| <= limit ==>
              && (body.frames[i].Broken? ==> Collect(body, limit) == CollectError)
              && (!body.frames[i].Broken? && |BodyBytes(body.frames[..i + 1])| > limit ==>
                    Collect(body, limit) == Rejected(|BodyBytes(body.frames[..i + 1])|))
  {
    if && i < |body.frames| && Unbroken(body.frames[..i]) && |BodyBytes(body.frames[..i])| <= limit
       && (body.frames[i].Broken? || |BodyBytes(body.frames[..i + 1])| > limit)
    {
      CollectFromReports(body.frames, limit, [], i);
    }
  }

  function BufferedFrame(id: Uuid, parts: Parts, body: Bytes): Message {
    HttpRequest(id, parts.verb, ForwardedPath(parts), VisibleHeaders(parts.headers), body)
  }

  /** What the relay puts on the wire for one request, in either form; a frame over the message limit never
      leaves the writer. */
  function Script(id: Uuid, req: Request, cfg: StreamingConfig, limit: nat): seq<Message>
    requires cfg.chunkSize > 0
  {
    if ShouldStream(cfg, req.parts.contentLength, req.body.upper) then StreamScript(id, req, cfg)
    else match Collect(req.body, limit)
         case Got(body) => if |body| <= DEFAULT_MAX_BODY_SIZE then [BufferedFrame(id, req.parts, body)] else []
         case _ => []
  }

  /** The form of a request: streamed exactly when streaming is on and its declared length, or the upper bound of a
      body without one, reaches the threshold; the first frame then carries the declared length. */
  lemma FormExact(id: Uuid, req: Request, cfg: StreamingConfig, limit: nat)
    requires cfg.chunkSize > 0
    ensures var script, declared := Script(id, req, cfg, limit), req.parts.contentLength;
      && ((script != [] && script[0].HttpRequestStart?) <==>
            && cfg.enabled
            && exists n :: n >= cfg.threshold && (declared == Some(n) || (declared == None && req.body.upper == Some(n))))
      && (script != [] && script[0].HttpRequestStart? ==>
            && script[0].id == id && script[0].verb == req.parts.verb && script[0].contentLength == declared
            && Addressed(req.parts, script[0].path) && Forwarded(req.parts.headers, script[0].headers))
  {
    VisibleHeadersExact(req.parts.headers, VisibleHeaders(req.parts.headers));
    var bound := if req.parts.contentLength.Some? then req.parts.contentLength else req.body.upper;
    if bound.Some? && bound.value >= cfg.threshold {
      var n := bound.value;
      assert n >= cfg.threshold;
    }
  }

  /** A request that is not streamed is one whole frame, sent exactly when its body can be collected and fits one. */
  lemma BufferedExact(id: Uuid, req: Request, cfg: StreamingConfig, limit: nat)
    requires cfg.chunkSize > 0
    ensures var script := Script(id, req, cfg, limit);
      script == [] || script[0].HttpRequestStart? || (|script| == 1 && script[0].HttpRequest?)
    ensures !ShouldStream(cfg, req.parts.contentLength, req.body.upper) ==>
              (Script(id, req, cfg, limit) != [] <==>
                 && (req.body.upper.Some? ==> req.body.upper.value <= limit) && Unbroken(req.body.frames)
                 && |BodyBytes(req.body.frames)| <= limit && |BodyBytes(req.body.frames)| <= 10_485_760)
  {
    CollectExact(req.body, limit);
  }

  // ---- in place ----

  /** The tunnel's outgoing queue; the writer closes after accepting `room` frames. */
  class Outbox {
    const room: nat
    var sent: seq<Message>

    constructor (room: nat)
      ensures sent == [] && this.room == room
    {
      this.room, sent := room, [];
    }

    method Send(m: Message) returns (ok: bool)
      modifies this
      ensures ok == (|old(sent)| < room)
      ensures sent == if ok then old(sent) + [m] else old(sent)
    {
      if |sent| >= room {
        return false;
      }
      sent := sent + [m];
      return true;
    }
  }

  lemma ChunksStep(data: Bytes, n: nat)
    requires n > 0 && data != []
    ensures var size := if |data| <= n then |data| else n;
      Chunks(data, n) == [data[..size]] + Chunks(data[size..], n)
  {
    if |data| <= n {
      assert data[..|data|] == data && data[|data|..] == [];
    }
  }

  /** A data frame contributes its chunks, then the rest follows. */
  lemma RemainderStep(id: Uuid, frames: seq<BodyFrame>, cfg: StreamingConfig, total: nat, sequence: nat)
    requires cfg.chunkSize > 0 && frames != [] && frames[0].Data?
    requires Saturate(total + |frames[0].bytes|) <= cfg.maxBody
    ensures var chunks := Chunks(frames[0].bytes, cfg.chunkSize);
      Remainder(id, frames, cfg, total, sequence) == Numbered(id, chunks, sequence)
        + Remainder(id, frames[1..], cfg, Saturate(total + |frames[0].bytes|), Advance(sequence, |chunks|))
  {
    var total' := Saturate(total + |frames[0].bytes|);
    NumberedAppend(id, Chunks(frames[0].bytes, cfg.chunkSize), Payloads(frames[1..], cfg, total'), sequence);
  }

  /** What a queue with this much room takes of some frames: as many of the first as fit. */
  function Cut(frames: seq<Message>, room: nat): (r: seq<Message>)
    ensures r <= frames && |r| <= room && (|r| == |frames| || |r| == room)
  {
    if |frames| <= room then frames else frames[..room]
  }

  /** Send the chunks of one data frame, numbering on from `first`. */
  method SendChunks(outbox: Outbox, id: Uuid, data: Bytes, chunkSize: nat, first: nat)
    returns (ok: bool, sequence: nat)
    requires chunkSize > 0 && |outbox.sent| <= outbox.room
    modifies outbox
    ensures var all := old(outbox.sent) + Numbered(id, Chunks(data, chunkSize), first);
      && outbox.sent == Cut(all, outbox.room) && ok == (|all| <= outbox.room)
      && (ok ==> sequence == Advance(first, |Chunks(data, chunkSize)|))
  {
    ghost var all := outbox.sent + Numbered(id, Chunks(data, chunkSize), first);
    var rest := data;
    sequence := first;
    while rest != []
      invariant |outbox.sent| <= outbox.room
      invariant outbox.sent + Numbered(id, Chunks(rest, chunkSize), sequence) == all
      invariant Advance(first, |Chunks(data, chunkSize)|) == Advance(sequence, |Chunks(rest, chunkSize)|)
      decreases |rest|
    {
      ChunksStep(rest, chunkSize);
      var size := if |rest| <= chunkSize then |rest| else chunkSize;
      ok := outbox.Send(HttpRequestChunk(id, rest[..size], sequence));
      if !ok {
        return false, sequence;
      }
      rest := rest[size..];
      sequence := Next(sequence);
    }
    ok := true;
  }

  /** Send the chunks of every data frame of a body, then the end frame. */
  method SendBody(outbox: Outbox, id: Uuid, frames: seq<BodyFrame>, cfg: StreamingConfig) returns (end: End)
    requires cfg.chunkSize > 0 && |outbox.sent| <= outbox.room
    modifies outbox
    ensures var all := old(outbox.sent) + Remainder(id, frames, cfg, 0, 0);
      && outbox.sent == Cut(all, outbox.room)
      && end == if |all| <= outbox.room then Stop(frames, cfg, 0) else WriterClosed
  {
    var rest := frames;
    ghost var all := outbox.sent + Remainder(id, frames, cfg, 0, 0);
    var ok;
    var total: nat, sequence: nat := 0, 0;
    while rest != []
      invariant |outbox.sent| <= outbox.room
      invariant outbox.sent + Remainder(id, rest, cfg, total, sequence) == all
      invariant Stop(frames, cfg, 0) == Stop(rest, cfg, total)
      decreases |rest|
    {
      var frame := rest[0];
      if frame.Broken? {
        return BodyError;
      }
      if frame.Data? {
        ghost var from := total;
        total := Saturate(total + |frame.bytes|);
        if total > cfg.maxBody {
          return TooLarge(total);
        }
        RemainderStep(id, rest, cfg, from, sequence);
        ok, sequence := SendChunks(outbox, id, frame.bytes, cfg.chunkSize, sequence);
        if !ok {
          return WriterClosed;
        }
      }
      rest := rest[1..];
    }
    ok := outbox.Send(HttpRequestEnd(id));
    end := if ok then Finished else WriterClosed;
  }

  /** Send the start frame, each chunk of each data frame, and the end frame. The queue receives the request's
      script up to its room, whatever stops the body. */
  method StreamRequest(outbox: Outbox, id: Uuid, req: Request, cfg: StreamingConfig) returns (end: End)
    requires cfg.chunkSize > 0 && |outbox.sent| <= outbox.room
    modifies outbox
    ensures var all := old(outbox.sent) + StreamScript(id, req, cfg);
      && outbox.sent == Cut(all, outbox.room)
      && end == if |all| <= outbox.room then Stop(req.body.frames, cfg, 0) else WriterClosed
  {
    ghost var all := outbox.sent + StreamScript(id, req, cfg);
    var ok := outbox.Send(StartFrame(id, req.parts));
    if !ok {
      return WriterClosed;
    }
    assert all == outbox.sent + Remainder(id, req.body.frames, cfg, 0, 0);
    end := SendBody(outbox, id, req.body.frames, cfg);
  }

  method CollectBody(body: Body, limit: nat) returns (r: Collected)
    ensures r == Collect(body, limit)
  {
    if body.upper.Some? && body.upper.value > limit {
      return Rejected(body.upper.value);
    }
    var collected: Bytes := [];
    for i := 0 to |body.frames|
      invariant CollectFrom(body.frames, limit, []) == CollectFrom(body.frames[i..], limit, collected)
    {
      var frame := body.frames[i];
      if frame.Broken? {
        return CollectError;
      }
      if frame.Data? {
        if |collected| + |frame.bytes| > limit {
          return Rejected(|collected| + |frame.bytes|);
        }
        collected := collected + frame.bytes;
      }
    }
    return Got(collected);
  }
}
