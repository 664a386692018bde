/** Several tunnels over one websocket: the client routes each request's frames to the context chosen at its start. */
module MultiClients {
  import opened Protocol
  import opened Text
  import opened Names
  import opened Streaming
  import opened LocalProxies

  /** One tunnel of the session; only an HTTP context holds streams. */
  datatype Context = Context(tunnelId: Uuid, protocol: TunnelProtocol, streams: map<Uuid, StreamingRequest>)

  datatype Manager = Manager(
    contexts: map<Uuid, Context>, subdomains: map<string, Uuid>, httpRequests: map<Uuid, Uuid>,
    tcpConnections: map<Uuid, Uuid>, calls: seq<(Uuid, Call)>, failed: bool)

  const EMPTY: Manager := Manager(map[], map[], map[], map[], [], false)

  /** What the environment settles for one frame: the contexts an iteration would find first, and whether a TCP
      payload reached its connection. */
  datatype Choice = Choice(http: Option<Uuid>, tcp: Option<Uuid>, written: bool)

  /** The iteration finds some context of the protocol whenever there is one. */
  ghost predicate Finds(contexts: map<Uuid, Context>, protocol: TunnelProtocol, found: Option<Uuid>) {
    match found
    case Some(t) => t in contexts && contexts[t].protocol == protocol
    case None => forall t :: t in contexts ==> contexts[t].protocol != protocol
  }

  ghost predicate Valid(m: Manager, choice: Choice) {
    Finds(m.contexts, Http, choice.http) && Finds(m.contexts, Tcp, choice.tcp)
  }

  function HostHeader(headers: seq<Header>): Option<string> {
    if headers == [] then None
    else if Lower(headers[0].0) == "host" then Some(headers[0].1)
    else HostHeader(headers[1..])
  }

  /** Header `i` is the first of that name, in any capitals. */
  predicate FirstHost(headers: seq<Header>, i: nat) {
    && i < |headers| && Lower(headers[i].0) == "host"
    && forall k :: 0 <= k < i ==> Lower(headers[k].0) != "host"
  }

  lemma {:induction false} HostHeaderIs(headers: seq<Header>, i: nat)
    requires FirstHost(headers, i)
    ensures HostHeader(headers) == Some(headers[i].1)
  {
    if i > 0 {
      assert FirstHost(headers[1..], i - 1);
      HostHeaderIs(headers[1..], i - 1);
    }
  }

  lemma {:induction false} HostHeaderFound(headers: seq<Header>) returns (i: nat)
    requires HostHeader(headers).Some?
    ensures FirstHost(headers, i)
  {
    i := 0;
    if Lower(headers[0].0) != "host" {
      var k := HostHeaderFound(headers[1..]);
      i := k + 1;
      forall j | 0 <= j < i ensures Lower(headers[j].0) != "host" {
        assert j > 0 ==> headers[j] == headers[1..][j - 1];
      }
    }
  }

  /** The host is the value of the first header of that name, and there is none exactly when no header has it. */
  lemma HostHeaderExact(headers: seq<Header>, host: string)
    ensures HostHeader(headers) == Some(host) <==> exists i: nat :: FirstHost(headers, i) && headers[i].1 == host
    ensures HostHeader(headers) == None <==> forall i :: 0 <= i < |headers| ==> Lower(headers[i].0) != "host"
  {
    if HostHeader(headers).Some? {
      var i := HostHeaderFound(headers);
      assert FirstHost(headers, i);
    }
    forall i: nat | FirstHost(headers, i) ensures HostHeader(headers) == Some(headers[i].1) {
      HostHeaderIs(headers, i);
    }
    if HostHeader(headers) == None {
      NoHost(headers);
    }
  }

  lemma {:induction false} NoHost(headers: seq<Header>)
    requires HostHeader(headers) == None
    ensures forall i :: 0 <= i < |headers| ==> Lower(headers[i].0) != "host"
  {
    if headers != [] {
      NoHost(headers[1..]);
      forall i | 0 <= i < |headers| ensures Lower(headers[i].0) != "host" {
        assert i > 0 ==> headers[i] == headers[1..][i - 1];
      }
    }
  }

  function ContextByHeaders(m: Manager, headers: seq<Header>, fallback: Option<Uuid>): Option<Uuid> {
    var host := HostHeader(headers);
    if host.Some? && FirstLabel(host.value) in m.subdomains then
      var t := m.subdomains[FirstLabel(host.value)];
      if t in m.contexts then Some(t) else None
    else fallback
  }

  /** The HTTP context, if any, that a new request goes to. */
  function Route(m: Manager, headers: seq<Header>, fallback: Option<Uuid>): Option<Uuid> {
    match ContextByHeaders(m, headers, fallback)
    case Some(t) => if t in m.contexts && m.contexts[t].protocol == Http then Some(t) else None
    case None => None
  }

  /** The HTTP context, if any, that an open request was tracked to. */
  function Tracked(m: Manager, id: Uuid): Option<Uuid> {
    if id in m.httpRequests && m.httpRequests[id] in m.contexts && m.contexts[m.httpRequests[id]].protocol == Http
    then Some(m.httpRequests[id]) else None
  }

  function PutStream(m: Manager, t: Uuid, id: Uuid, s: StreamingRequest): Manager
    requires t in m.contexts
  {
    var ctx := m.contexts[t];
    m.(contexts := m.contexts[t := ctx.(streams := ctx.streams[id := s])])
  }

  function TakeStream(m: Manager, t: Uuid, id: Uuid): Manager
    requires t in m.contexts
  {
    var ctx := m.contexts[t];
    m.(contexts := m.contexts[t := ctx.(streams := ctx.streams - {id})])
  }

  function RegisterContext(m: Manager, t: Uuid, subdomain: string, protocol: TunnelProtocol): Manager {
    m.(contexts := m.contexts[t := Context(t, protocol, map[])], subdomains := m.subdomains[Lower(subdomain) := t])
  }

  function Handle(m: Manager, frame: Message, choice: Choice): Manager {
    if m.failed then m
    else if !Validate(frame, DEFAULT_MAX_BODY_SIZE) then m.(failed := true)
    else match frame
      case HttpRequest(id, verb, path, headers, body) =>
        (match Route(m, headers, choice.http)
         case Some(t) => m.(calls := m.calls + [(t, Call(id, verb, path, headers, body))])
         case None => m)
      case HttpRequestStart(id, verb, path, headers, _) =>
        (match Route(m, headers, choice.http)
         case Some(t) =>
           PutStream(m, t, id, StreamingRequest(verb, path, headers, [])).(httpRequests := m.httpRequests[id := t])
         case None => m)
      case HttpRequestChunk(id, data, _) =>
        (match Tracked(m, id)
         case Some(t) =>
           if id !in m.contexts[t].streams then m.(failed := true)
           else
             var s := m.contexts[t].streams[id];
             if |s.body| + |data| > STREAM_BUFFER_LIMIT then m.(failed := true)
             else PutStream(m, t, id, s.(body := s.body + data))
         case None => m)
      case HttpRequestEnd(id) =>
        var m' := (match Tracked(m, id)
          case Some(t) =>
            if id !in m.contexts[t].streams then m
            else
              var s := m.contexts[t].streams[id];
              TakeStream(m, t, id).(calls := m.calls + [(t, Call(id, s.verb, s.path, s.headers, s.body))])
          case None => m);
        m'.(httpRequests := m.httpRequests - {id})
      case TcpConnect(c, _) =>
        if choice.tcp.Some? then m.(tcpConnections := m.tcpConnections[c := choice.tcp.value]) else m
      case TcpData(c, _, _) =>
        if c in m.tcpConnections && m.tcpConnections[c] in m.contexts && !choice.written then m.(failed := true) else m
      case TcpClose(c, _) => m.(tcpConnections := m.tcpConnections - {c})
      case Disconnect => m.(failed := true)
      case Error(_) => m.(failed := true)
      case _ => m
  }

  /** What ends a session of several tunnels: what ends a single one, where a chunk belongs to the HTTP tunnel its
      request was tracked to, and TCP data that did not reach its connection. Nothing else changes then. */
  lemma FailsExactly(m: Manager, frame: Message, choice: Choice)
    requires !m.failed
    ensures Handle(m, frame, choice).failed <==>
              || frame.Disconnect? || frame.Error? || Oversize(frame)
              || (&& frame.HttpRequestChunk? && frame.id in m.httpRequests && m.httpRequests[frame.id] in m.contexts
                  && var ctx := m.contexts[m.httpRequests[frame.id]];
                     && ctx.protocol == Http
                     && (frame.id in ctx.streams ==> |ctx.streams[frame.id].body| + |frame.data| > 52_428_800))
              || (&& frame.TcpData? && frame.connectionId in m.tcpConnections
                  && m.tcpConnections[frame.connectionId] in m.contexts && !choice.written)
    ensures Handle(m, frame, choice).failed ==> Handle(m, frame, choice) == m.(failed := true)
  {
  }

  lemma FailureIsFinal(m: Manager, frame: Message, choice: Choice)
    requires m.failed
    ensures Handle(m, frame, choice) == m
  {
  }

  datatype Event = Register(t: Uuid, subdomain: string, protocol: TunnelProtocol) | Frame(frame: Message, choice: Choice)

  /** Tunnel ids are fresh, and a stream never starts under an id that is still open. */
  ghost predicate Enabled(m: Manager, e: Event) {
    match e
    case Register(t, _, _) => t !in m.contexts
    case Frame(frame, choice) => Valid(m, choice) && (frame.HttpRequestStart? ==> frame.id !in m.httpRequests)
  }

  function Apply(m: Manager, e: Event): Manager {
    match e
    case Register(t, subdomain, protocol) => RegisterContext(m, t, subdomain, protocol)
    case Frame(frame, choice) => Handle(m, frame, choice)
  }

  function Run(m: Manager, events: seq<Event>): Manager {
    if events == [] then m else Apply(Run(m, events[..|events| - 1]), events[|events| - 1])
  }

  ghost predicate Legal(m: Manager, events: seq<Event>) {
    events == [] || (Legal(m, events[..|events| - 1]) && Enabled(Run(m, events[..|events| - 1]), events[|events| - 1]))
  }

  // ---- the index and the open streams agree ----

  ghost predicate Open(m: Manager, t: Uuid, id: Uuid) {
    t in m.contexts && m.contexts[t].protocol == Http && id in m.contexts[t].streams
  }

  ghost predicate IndexAt(m: Manager, id: Uuid, t: Uuid) {
    (id in m.httpRequests && m.httpRequests[id] == t) <==> Open(m, t, id)
  }

  /** Contexts are filed under their ids, subdomains name existing ones, and only HTTP contexts hold streams. */
  ghost predicate ContextsOk(m: Manager) {
    && (forall s :: s in m.subdomains ==> m.subdomains[s] in m.contexts)
    && (forall t :: t in m.contexts ==> m.contexts[t].tunnelId == t)
    && (forall t :: t in m.contexts && m.contexts[t].protocol == Tcp ==> m.contexts[t].streams == map[])
  }

  ghost predicate IndexMatches(m: Manager) {
    ContextsOk(m) && forall id, t :: IndexAt(m, id, t)
  }

  lemma PutOpens(m: Manager, t: Uuid, id: Uuid, s: StreamingRequest, u: Uuid, k: Uuid)
    requires t in m.contexts && m.contexts[t].protocol == Http
    ensures Open(PutStream(m, t, id, s), u, k) <==> Open(m, u, k) || (u == t && k == id)
  {
  }

  lemma TakeCloses(m: Manager, t: Uuid, id: Uuid, u: Uuid, k: Uuid)
    requires t in m.contexts && m.contexts[t].protocol == Http
    ensures Open(TakeStream(m, t, id), u, k) <==> Open(m, u, k) && !(u == t && k == id)
  {
  }

  lemma StartMatches(m: Manager, frame: Message, choice: Choice, k: Uuid, u: Uuid)
    requires frame.HttpRequestStart? && frame.id !in m.httpRequests
    requires IndexAt(m, k, u) && IndexAt(m, frame.id, u)
    ensures IndexAt(Handle(m, frame, choice), k, u)
  {
    if !m.failed && Route(m, frame.headers, choice.http).Some? {
      PutOpens(m, Route(m, frame.headers, choice.http).value, frame.id,
               StreamingRequest(frame.verb, frame.path, frame.headers, []), u, k);
    }
  }

  lemma ChunkMatches(m: Manager, frame: Message, choice: Choice, k: Uuid, u: Uuid)
    requires frame.HttpRequestChunk? && IndexAt(m, k, u)
    ensures IndexAt(Handle(m, frame, choice), k, u)
  {
    var t := Tracked(m, frame.id);
    if t.Some? && frame.id in m.contexts[t.value].streams {
      var s := m.contexts[t.value].streams[frame.id];
      PutOpens(m, t.value, frame.id, s.(body := s.body + frame.data), u, k);
    }
  }

  lemma EndMatches(m: Manager, frame: Message, choice: Choice, k: Uuid, u: Uuid)
    requires frame.HttpRequestEnd? && IndexAt(m, k, u)
    ensures IndexAt(Handle(m, frame, choice), k, u)
  {
    var t := Tracked(m, frame.id);
    if t.Some? && frame.id in m.contexts[t.value].streams {
      TakeCloses(m, t.value, frame.id, u, k);
    }
  }

  lemma HandleContexts(m: Manager, frame: Message, choice: Choice)
    requires ContextsOk(m)
    ensures ContextsOk(Handle(m, frame, choice))
  {
  }

  lemma ApplyMatches(m: Manager, e: Event)
    requires IndexMatches(m) && Enabled(m, e)
    ensures IndexMatches(Apply(m, e))
  {
    forall k, u ensures IndexAt(Apply(m, e), k, u) {
      assert IndexAt(m, k, u);
      if e.Frame? {
        if e.frame.HttpRequestStart? {
          assert IndexAt(m, e.frame.id, u);
          StartMatches(m, e.frame, e.choice, k, u);
        } else if e.frame.HttpRequestChunk? {
          ChunkMatches(m, e.frame, e.choice, k, u);
        } else if e.frame.HttpRequestEnd? {
          EndMatches(m, e.frame, e.choice, k, u);
        }
      }
    }
    if e.Frame? {
      HandleContexts(m, e.frame, e.choice);
    }
  }

  /** Over every run, the request index sends an id to a tunnel exactly when that tunnel's proxy holds an open stream
      for it; so no id is open in two tunnels. */
  lemma {:induction false} RunMatches(events: seq<Event>)
    requires Legal(EMPTY, events)
    ensures IndexMatches(Run(EMPTY, events))
    ensures var m := Run(EMPTY, events); forall id, t, u :: Open(m, t, id) && Open(m, u, id) ==> t == u
  {
    if events != [] {
      RunMatches(events[..|events| - 1]);
      ApplyMatches(Run(EMPTY, events[..|events| - 1]), events[|events| - 1]);
    }
    var m := Run(EMPTY, events);
    forall id, t, u | Open(m, t, id) && Open(m, u, id) ensures t == u {
      assert IndexAt(m, id, t) && IndexAt(m, id, u);
    }
  }

  // ---- what the indices hold, read off the events ----

  /** Event `i` reaches a session that has not failed by then. */
  ghost predicate Reaches(events: seq<Event>, i: nat) {
    i < |events| && !Run(EMPTY, events[..i]).failed
  }

  /** The event opens connection `c` in the TCP tunnel `t` that the lookup found. */
  predicate Opens(e: Event, c: Uuid, t: Uuid) {
    e.Frame? && e.frame.TcpConnect? && e.frame.connectionId == c && e.choice.tcp == Some(t)
  }

  /** The event opens connection `c` anew, or closes it. */
  predicate Reindexes(e: Event, c: Uuid) {
    e.Frame? && ((e.frame.TcpConnect? && e.frame.connectionId == c && e.choice.tcp.Some?)
                 || (e.frame.TcpClose? && e.frame.connectionId == c))
  }

  /** The last event to reach the session about connection `c` opened it in `t`. */
  ghost predicate LastOpened(events: seq<Event>, i: nat, c: Uuid, t: Uuid) {
    && Reaches(events, i) && Opens(events[i], c, t)
    && forall j: nat :: i < j && Reaches(events, j) ==> !Reindexes(events[j], c)
  }

  lemma ReachesFront(front: seq<Event>, e: Event, i: nat)
    requires i < |front|
    ensures Reaches(front + [e], i) <==> Reaches(front, i)
  {
    assert (front + [e])[..i] == front[..i];
  }

  lemma TcpIndexStep(m: Manager, e: Event, c: Uuid)
    ensures var before, after := m.tcpConnections, Apply(m, e).tcpConnections;
      if m.failed || !Reindexes(e, c) then (c in after <==> c in before) && (c in after ==> after[c] == before[c])
      else (c in after <==> e.frame.TcpConnect?) && (c in after ==> e.choice.tcp == Some(after[c]))
  {
  }

  lemma LastOpenedStep(front: seq<Event>, e: Event, i: nat, c: Uuid, t: Uuid)
    requires i <= |front|
    ensures LastOpened(front + [e], i, c, t) <==>
              if i == |front| then !Run(EMPTY, front).failed && Opens(e, c, t)
              else LastOpened(front, i, c, t) && (Run(EMPTY, front).failed || !Reindexes(e, c))
  {
    var events := front + [e];
    assert events[..|front|] == front;
    forall j: nat | j < |front| ensures Reaches(events, j) <==> Reaches(front, j) {
      ReachesFront(front, e, j);
    }
    assert forall j: nat :: j < |front| ==> events[j] == front[j];
    assert Reaches(events, |front|) <==> !Run(EMPTY, front).failed;
  }

  /** A connection is indexed to a tunnel exactly when the last frame about it to reach the living session was its
      connect, with that tunnel found. */
  lemma {:induction false} TcpIndexExact(events: seq<Event>, c: Uuid, t: Uuid)
    ensures var index := Run(EMPTY, events).tcpConnections;
      c in index && index[c] == t <==> exists i: nat :: LastOpened(events, i, c, t)
  {
    if events != [] {
      var front, e := events[..|events| - 1], events[|events| - 1];
      assert events == front + [e];
      var m := Run(EMPTY, front);
      TcpIndexExact(front, c, t);
      TcpIndexStep(m, e, c);
      forall i: nat | i <= |front|
        ensures LastOpened(events, i, c, t) <==>
                  if i == |front| then !m.failed && Opens(e, c, t)
                  else LastOpened(front, i, c, t) && (m.failed || !Reindexes(e, c))
      {
        LastOpenedStep(front, e, i, c, t);
      }
      if !m.failed && Opens(e, c, t) {
        assert LastOpened(events, |front|, c, t);
      } else if exists i: nat :: LastOpened(front, i, c, t) {
        var i: nat :| LastOpened(front, i, c, t);
        assert LastOpened(events, i, c, t) <==> m.failed || !Reindexes(e, c);
      }
    }
  }

  /** The last registration under a label, in any capitals, was that of `t`. */
  ghost predicate LastNamed(events: seq<Event>, i: nat, name: string, t: Uuid) {
    && i < |events| && events[i].Register? && Lower(events[i].subdomain) == name && events[i].t == t
    && forall j :: i < j < |events| && events[j].Register? ==> Lower(events[j].subdomain) != name
  }

  /** A label stands for the tunnel last registered under it. */
  lemma {:induction false} LabelIndexExact(events: seq<Event>, name: string, t: Uuid)
    ensures var index := Run(EMPTY, events).subdomains;
      name in index && index[name] == t <==> exists i: nat :: LastNamed(events, i, name, t)
  {
    if events != [] {
      var front, e := events[..|events| - 1], events[|events| - 1];
      LabelIndexExact(front, name, t);
      if e.Frame? {
        FramesKeepLabels(Run(EMPTY, front), e.frame, e.choice);
      }
      if e.Register? && Lower(e.subdomain) == name {
        assert e.t == t ==> LastNamed(events, |front|, name, t);
      } else {
        forall i: nat ensures LastNamed(events, i, name, t) <==> LastNamed(front, i, name, t) {
        }
      }
    }
  }

  /** A tunnel of this protocol was registered. */
  ghost predicate Granted(events: seq<Event>, t: Uuid, protocol: TunnelProtocol) {
    exists i :: 0 <= i < |events| && events[i].Register? && events[i].t == t && events[i].protocol == protocol
  }

  lemma FrameKeepsTunnel(m: Manager, frame: Message, choice: Choice, t: Uuid)
    ensures var contexts := Handle(m, frame, choice).contexts;
      (t in contexts <==> t in m.contexts) && (t in contexts ==> contexts[t].protocol == m.contexts[t].protocol)
  {
  }

  /** How one event changes tunnels, calls and the connection index: tunnels stay and are added by registration, a call
      is made in an HTTP tunnel, a connection is indexed to a TCP tunnel. */
  ghost predicate TunnelStep(m: Manager, m': Manager, e: Event, t: Uuid) {
    && (t in m.contexts ==> t in m'.contexts && m'.contexts[t].protocol == m.contexts[t].protocol)
    && (t in m'.contexts && t !in m.contexts ==> e.Register? && e.t == t && e.protocol == m'.contexts[t].protocol)
  }

  ghost predicate CallStep(m: Manager, m': Manager) {
    || m'.calls == m.calls
    || (&& |m'.calls| == |m.calls| + 1 && m'.calls[..|m.calls|] == m.calls
        && m'.calls[|m.calls|].0 in m.contexts && m.contexts[m'.calls[|m.calls|].0].protocol == Http)
  }

  ghost predicate IndexStep(m: Manager, m': Manager, c: Uuid) {
    c in m'.tcpConnections ==>
      || (c in m.tcpConnections && m.tcpConnections[c] == m'.tcpConnections[c])
      || (m'.tcpConnections[c] in m.contexts && m.contexts[m'.tcpConnections[c]].protocol == Tcp)
  }

  lemma EventTunnel(m: Manager, e: Event, t: Uuid)
    requires Enabled(m, e)
    ensures TunnelStep(m, Apply(m, e), e, t)
  {
    if e.Frame? {
      FrameKeepsTunnel(m, e.frame, e.choice, t);
    }
  }

  lemma EventCall(m: Manager, e: Event)
    requires Enabled(m, e)
    ensures CallStep(m, Apply(m, e))
  {
  }

  lemma EventIndex(m: Manager, e: Event, c: Uuid)
    requires Enabled(m, e)
    ensures IndexStep(m, Apply(m, e), c)
  {
  }

  /** Tunnels are registered ones, requests were called in HTTP tunnels, and connections are indexed to TCP tunnels. */
  ghost predicate ProtocolsKept(m: Manager, events: seq<Event>) {
    && (forall t :: t in m.contexts ==> Granted(events, t, m.contexts[t].protocol))
    && (forall i :: 0 <= i < |m.calls| ==> m.calls[i].0 in m.contexts && m.contexts[m.calls[i].0].protocol == Http)
    && (forall c :: c in m.tcpConnections ==>
          m.tcpConnections[c] in m.contexts && m.contexts[m.tcpConnections[c]].protocol == Tcp)
  }

  lemma GrantedStep(front: seq<Event>, e: Event, t: Uuid, protocol: TunnelProtocol)
    requires Granted(front, t, protocol) || (e.Register? && e.t == t && e.protocol == protocol)
    ensures Granted(front + [e], t, protocol)
  {
    if Granted(front, t, protocol) {
      var i :| 0 <= i < |front| && front[i].Register? && front[i].t == t && front[i].protocol == protocol;
      assert (front + [e])[i] == front[i];
    } else {
      assert (front + [e])[|front|] == e;
    }
  }

  lemma ProtocolsStep(m: Manager, m': Manager, front: seq<Event>, e: Event)
    requires ProtocolsKept(m, front) && CallStep(m, m')
    requires forall t :: TunnelStep(m, m', e, t)
    requires forall c :: IndexStep(m, m', c)
    ensures ProtocolsKept(m', front + [e])
  {
    forall t | t in m'.contexts ensures Granted(front + [e], t, m'.contexts[t].protocol) {
      assert TunnelStep(m, m', e, t);
      GrantedStep(front, e, t, m'.contexts[t].protocol);
    }
    forall i | 0 <= i < |m'.calls| ensures m'.calls[i].0 in m'.contexts && m'.contexts[m'.calls[i].0].protocol == Http {
      assert TunnelStep(m, m', e, m'.calls[i].0);
      assert i < |m.calls| ==> m'.calls[i] == m'.calls[..|m.calls|][i] == m.calls[i];
    }
    forall c | c in m'.tcpConnections
      ensures m'.tcpConnections[c] in m'.contexts && m'.contexts[m'.tcpConnections[c]].protocol == Tcp
    {
      assert IndexStep(m, m', c) && TunnelStep(m, m', e, m'.tcpConnections[c]);
    }
  }

  /** Over every run: requests are called in registered HTTP tunnels only, and connections are indexed to registered
      TCP tunnels only. */
  lemma {:induction false} RunProtocols(events: seq<Event>)
    requires Legal(EMPTY, events)
    ensures ProtocolsKept(Run(EMPTY, events), events)
  {
    if events != [] {
      var front, e := events[..|events| - 1], events[|events| - 1];
      RunProtocols(front);
      var m, m' := Run(EMPTY, front), Run(EMPTY, events);
      forall t ensures TunnelStep(m, m', e, t) && IndexStep(m, m', t) {
        EventTunnel(m, e, t);
        EventIndex(m, e, t);
      }
      EventCall(m, e);
      ProtocolsStep(m, m', front, e);
      assert front + [e] == events;
    }
  }

  // ---- the context chosen at the start ----

  ghost predicate LeavesOpen(e: Event, id: Uuid) {
    match e
    case Register(_, _, _) => true
    case Frame(frame, _) => frame != HttpRequestEnd(id)
  }

  function Payload(e: Event, id: Uuid): Bytes {
    if e.Frame? && e.frame.HttpRequestChunk? && e.frame.id == id then e.frame.data else []
  }

  function PayloadOf(events: seq<Event>, id: Uuid): Bytes {
    if events == [] then [] else PayloadOf(events[..|events| - 1], id) + Payload(events[|events| - 1], id)
  }

  /** Stream `id` is open in context `t` with body `body`, and tracked there. */
  ghost predicate Holding(m: Manager, t: Uuid, id: Uuid, s: StreamingRequest) {
    Open(m, t, id) && m.contexts[t].streams[id] == s && id in m.httpRequests && m.httpRequests[id] == t
  }

  lemma OwnChunk(n: Manager, frame: Message, choice: Choice, t: Uuid, id: Uuid, s: StreamingRequest)
    requires Holding(n, t, id, s) && frame.HttpRequestChunk? && frame.id == id && !Handle(n, frame, choice).failed
    ensures Holding(Handle(n, frame, choice), t, id, s.(body := s.body + frame.data))
  {
  }

  /** Frames of other streams pass by, whichever context they touch. */
  lemma OtherStream(n: Manager, frame: Message, choice: Choice, t: Uuid, id: Uuid, s: StreamingRequest)
    requires Holding(n, t, id, s)
    requires (frame.HttpRequestStart? || frame.HttpRequestChunk? || frame.HttpRequestEnd?) && frame.id != id
    ensures Holding(Handle(n, frame, choice), t, id, s)
  {
  }

  lemma OtherEvent(n: Manager, e: Event, t: Uuid, id: Uuid, s: StreamingRequest)
    requires Holding(n, t, id, s) && Enabled(n, e)
    requires e.Frame? ==> !(e.frame.HttpRequestStart? || e.frame.HttpRequestChunk? || e.frame.HttpRequestEnd?)
    ensures Holding(Apply(n, e), t, id, s)
  {
  }

  lemma ChunkStep(n: Manager, e: Event, t: Uuid, id: Uuid, s: StreamingRequest)
    requires Holding(n, t, id, s) && Enabled(n, e) && LeavesOpen(e, id) && !Apply(n, e).failed
    ensures Holding(Apply(n, e), t, id, s.(body := s.body + Payload(e, id)))
  {
    assert s.(body := s.body + []) == s;
    if e.Frame? && (e.frame.HttpRequestStart? || e.frame.HttpRequestChunk? || e.frame.HttpRequestEnd?) {
      if e.frame.id != id {
        OtherStream(n, e.frame, e.choice, t, id, s);
      } else if e.frame.HttpRequestChunk? {
        OwnChunk(n, e.frame, e.choice, t, id, s);
      }
    } else {
      OtherEvent(n, e, t, id, s);
    }
  }

  /** Until its end arrives, an open stream stays in the context it was opened in, and every chunk received under its
      id is appended there. */
  lemma {:induction false} ChunksReachStart(m: Manager, events: seq<Event>, t: Uuid, id: Uuid, s: StreamingRequest)
    requires Holding(m, t, id, s) && Legal(m, events) && !Run(m, events).failed
    requires forall e :: e in events ==> LeavesOpen(e, id)
    ensures Holding(Run(m, events), t, id, s.(body := s.body + PayloadOf(events, id)))
  {
    if events == [] {
      assert s.body + [] == s.body;
    } else {
      var front, e := events[..|events| - 1], events[|events| - 1];
      FailureLasts(Run(m, front), e);
      ChunksReachStart(m, front, t, id, s);
      assert e in events;
      BodyStep(Run(m, front), e, t, id, s, PayloadOf(front, id));
    }
  }

  lemma BodyStep(n: Manager, e: Event, t: Uuid, id: Uuid, s: StreamingRequest, sofar: Bytes)
    requires Holding(n, t, id, s.(body := s.body + sofar)) && Enabled(n, e) && LeavesOpen(e, id) && !Apply(n, e).failed
    ensures Holding(Apply(n, e), t, id, s.(body := s.body + (sofar + Payload(e, id))))
  {
    ChunkStep(n, e, t, id, s.(body := s.body + sofar));
    assert s.body + sofar + Payload(e, id) == s.body + (sofar + Payload(e, id));
  }

  lemma FailureLasts(m: Manager, e: Event)
    ensures m.failed ==> Apply(m, e).failed
  {
  }

  lemma StartHolds(m: Manager, start: Message, choice: Choice, t: Uuid)
    requires !m.failed && start.HttpRequestStart? && Route(m, start.headers, choice.http) == Some(t)
    ensures Holding(Handle(m, start, choice), t, start.id, StreamingRequest(start.verb, start.path, start.headers, []))
  {
  }

  lemma EndCalls(m: Manager, t: Uuid, id: Uuid, s: StreamingRequest, choice: Choice)
    requires Holding(m, t, id, s) && !m.failed
    ensures var m' := Handle(m, HttpRequestEnd(id), choice);
      m'.calls == m.calls + [(t, Call(id, s.verb, s.path, s.headers, s.body))] && id !in m'.httpRequests && !m'.failed
  {
  }

  /** A stream started in context `t` is called in context `t`, with the parts of its start and all its chunks. */
  lemma CallInChosenContext(m: Manager, start: Message, choice: Choice, events: seq<Event>, end: Choice, t: Uuid)
    requires !m.failed && start.HttpRequestStart? && Route(m, start.headers, choice.http) == Some(t)
    requires var begun := Handle(m, start, choice);
      && Legal(begun, events) && !Run(begun, events).failed
      && forall e :: e in events ==> LeavesOpen(e, start.id)
    ensures var before := Run(Handle(m, start, choice), events);
      var after := Handle(before, HttpRequestEnd(start.id), end);
      && after.calls ==
           before.calls + [(t, Call(start.id, start.verb, start.path, start.headers, PayloadOf(events, start.id)))]
      && !after.failed && start.id !in after.httpRequests
  {
    var s := StreamingRequest(start.verb, start.path, start.headers, []);
    StartHolds(m, start, choice, t);
    ChunksReachStart(Handle(m, start, choice), events, t, start.id, s);
    var payload := PayloadOf(events, start.id);
    assert s.body + payload == payload;
    EndCalls(Run(Handle(m, start, choice), events), t, start.id, s.(body := payload), end);
  }

  /** Headers whose first host reads as a registered label. */
  ghost predicate Addresses(m: Manager, headers: seq<Header>, name: string) {
    exists i: nat :: FirstHost(headers, i) && FirstLabel(headers[i].1) == name && name in m.subdomains
  }

  /** Where a request goes: if its first Host header reads as a registered label, to the tunnel of that label and to
      no other; if it does not, or there is no such header, to the HTTP tunnel the lookup falls back to. A TCP tunnel
      takes no request. */
  lemma RouteExact(m: Manager, headers: seq<Header>, fallback: Option<Uuid>, t: Uuid, name: string)
    ensures Addresses(m, headers, name) ==>
              (Route(m, headers, fallback) == Some(t) <==>
                 m.subdomains[name] == t && t in m.contexts && m.contexts[t].protocol == Http)
    ensures (forall x :: !Addresses(m, headers, x)) ==>
              (Route(m, headers, fallback) == Some(t) <==>
                 fallback == Some(t) && t in m.contexts && m.contexts[t].protocol == Http)
  {
    if Addresses(m, headers, name) {
      var i: nat :| FirstHost(headers, i) && FirstLabel(headers[i].1) == name && name in m.subdomains;
      HostHeaderIs(headers, i);
    } else if HostHeader(headers).Some? {
      var i := HostHeaderFound(headers);
      HostHeaderIs(headers, i);
      assert FirstLabel(headers[i].1) in m.subdomains ==> Addresses(m, headers, FirstLabel(headers[i].1));
    }
  }

  /** Whatever Host header the relay resolved to a label, the client routes to the tunnel registered under it. */
  lemma RoutesToLabel(m: Manager, headers: seq<Header>, fallback: Option<Uuid>, h: nat, domain: string,
                      name: string, t: Uuid)
    requires FirstHost(headers, h)
    requires Resolve(Some(headers[h].1), domain) == Resolved(name) && ValidLabel(name)
    requires name in m.subdomains && m.subdomains[name] == t
    requires t in m.contexts && m.contexts[t].protocol == Http
    ensures Route(m, headers, fallback) == Some(t)
  {
    HostHeaderIs(headers, h);
    LookupsAgree(headers[h].1, domain, name);
  }

  /** Registering a granted label makes it the key of its tunnel until the same label is registered again. */
  lemma RegisteredUnderLabel(m: Manager, t: Uuid, name: string, protocol: TunnelProtocol)
    requires ValidLabel(name)
    ensures RegisterContext(m, t, name, protocol).subdomains == m.subdomains[name := t]
  {
    assert Lower(name) == name by {
      assert forall i :: 0 <= i < |name| ==> name[i] in name;
    }
  }

  // ---- several contexts together behave as one client ----

  function Untagged(calls: seq<(Uuid, Call)>): seq<Call> {
    seq(|calls|, i requires 0 <= i < |calls| => calls[i].1)
  }

  ghost predicate SimAt(m: Manager, c: Client, id: Uuid) {
    && (id in c.streams <==> id in m.httpRequests)
    && (id in c.streams ==> Open(m, m.httpRequests[id], id) && m.contexts[m.httpRequests[id]].streams[id] == c.streams[id])
  }

  /** The open streams of all contexts are those of one client, and so are the calls. */
  ghost predicate Sim(m: Manager, c: Client) {
    && m.failed == c.failed && Untagged(m.calls) == c.calls
    && forall id :: SimAt(m, c, id)
  }

  /** Traffic of proxied requests: their own frames, and frames every client ignores. */
  predicate RequestTraffic(frame: Message) {
    Owner(frame).Some? || frame.Unsupported?
  }

  ghost predicate RoutedFrame(m: Manager, frame: Message, choice: Choice) {
    && RequestTraffic(frame)
    && (frame.HttpRequestStart? || frame.HttpRequest? ==> Route(m, frame.headers, choice.http).Some?)
    && (frame.HttpRequestStart? ==> frame.id !in m.httpRequests)
  }

  lemma SimStart(m: Manager, c: Client, frame: Message, choice: Choice, k: Uuid)
    requires SimAt(m, c, k) && !m.failed && !c.failed && frame.HttpRequestStart? && RoutedFrame(m, frame, choice)
    requires forall t :: IndexAt(m, k, t)
    ensures SimAt(Handle(m, frame, choice), Receive(c, frame), k)
  {
  }

  lemma SimChunk(m: Manager, c: Client, frame: Message, choice: Choice, k: Uuid)
    requires frame.HttpRequestChunk? && SimAt(m, c, k) && SimAt(m, c, frame.id) && !m.failed && !c.failed
    requires !Receive(c, frame).failed
    ensures !Handle(m, frame, choice).failed
    ensures SimAt(Handle(m, frame, choice), Receive(c, frame), k)
  {
  }

  lemma SimEnd(m: Manager, c: Client, frame: Message, choice: Choice, k: Uuid)
    requires frame.HttpRequestEnd? && SimAt(m, c, k) && SimAt(m, c, frame.id) && !m.failed && !c.failed
    requires forall t :: IndexAt(m, frame.id, t)
    ensures SimAt(Handle(m, frame, choice), Receive(c, frame), k)
  {
  }

  lemma SimCalls(m: Manager, c: Client, frame: Message, choice: Choice)
    requires Sim(m, c) && IndexMatches(m) && !c.failed && RoutedFrame(m, frame, choice)
    requires !Receive(c, frame).failed
    ensures Untagged(Handle(m, frame, choice).calls) == Receive(c, frame).calls
  {
    forall x: (Uuid, Call) ensures Untagged(m.calls + [x]) == c.calls + [x.1] {
      assert Untagged(m.calls + [x]) == Untagged(m.calls) + [x.1];
    }
    if frame.HttpRequestEnd? || frame.HttpRequestChunk? {
      assert SimAt(m, c, frame.id);
    }
  }

  lemma SimStep(m: Manager, c: Client, frame: Message, choice: Choice)
    requires Sim(m, c) && IndexMatches(m) && !c.failed && RoutedFrame(m, frame, choice)
    requires !Receive(c, frame).failed
    ensures Sim(Handle(m, frame, choice), Receive(c, frame))
  {
    SimCalls(m, c, frame, choice);
    assert Owner(frame).Some? ==> SimAt(m, c, Owner(frame).value);
    forall k ensures SimAt(Handle(m, frame, choice), Receive(c, frame), k) {
      assert SimAt(m, c, k);
      if frame.HttpRequestStart? {
        assert forall t :: IndexAt(m, k, t);
        SimStart(m, c, frame, choice, k);
      } else if frame.HttpRequestChunk? {
        SimChunk(m, c, frame, choice, k);
      } else if frame.HttpRequestEnd? {
        assert forall t :: IndexAt(m, frame.id, t);
        SimEnd(m, c, frame, choice, k);
      }
    }
    if frame.HttpRequestChunk? {
      SimChunk(m, c, frame, choice, frame.id);
    }
  }

  function FramesOf(events: seq<Event>): seq<Message>
    requires forall e :: e in events ==> e.Frame?
  {
    seq(|events|, i requires 0 <= i < |events| => assert events[i] in events; events[i].frame)
  }

  /** Every request that starts finds an HTTP context. */
  ghost predicate Routed(m: Manager, events: seq<Event>) {
    events == [] ||
    var front, e := events[..|events| - 1], events[|events| - 1];
    && Routed(m, front) && e.Frame? && Valid(Run(m, front), e.choice) && RequestTraffic(e.frame)
    && (e.frame.HttpRequestStart? || e.frame.HttpRequest? ==>
          Route(Run(m, front), e.frame.headers, e.choice.http).Some?)
  }

  /** A manager that has registered its tunnels and received nothing yet. */
  ghost predicate Ready(m: Manager) {
    IndexMatches(m) && !m.failed && m.calls == [] && m.httpRequests == map[]
  }

  /** In any interleaving a request's start finds its id closed. */
  lemma StartIsFresh(frames: seq<Message>, requests: map<Uuid, Request>, cfg: StreamingConfig, limit: nat)
    requires frames != [] && Interleaves(frames, requests, cfg, limit)
    requires frames[|frames| - 1].HttpRequestStart? && !ReceiveAll(frames[..|frames| - 1]).failed
    ensures frames[|frames| - 1].id !in ReceiveAll(frames[..|frames| - 1]).streams
  {
    var front, m := frames[..|frames| - 1], frames[|frames| - 1];
    var id := m.id;
    assert m in frames;
    var share := Project(frames, id);
    assert share == Project(front, id) + [m];
    var script := Script(id, requests[id], cfg, limit);
    assert script[|share| - 1] == m;
    if ShouldStream(cfg, requests[id].parts.contentLength, requests[id].body.upper) {
      StreamScriptAt(id, requests[id], cfg, |share| - 1);
    }
    assert Project(front, id) == [];
    Independent(front, id);
  }

  /** In any interleaving a chunk finds its stream open, as long as the client has not failed. */
  lemma ChunkIsOpen(frames: seq<Message>, requests: map<Uuid, Request>, cfg: StreamingConfig, limit: nat)
    requires frames != [] && Interleaves(frames, requests, cfg, limit)
    requires frames[|frames| - 1].HttpRequestChunk? && !ReceiveAll(frames[..|frames| - 1]).failed
    ensures frames[|frames| - 1].id in ReceiveAll(frames[..|frames| - 1]).streams
  {
    var front, m := frames[..|frames| - 1], frames[|frames| - 1];
    var id := m.id;
    assert m in frames;
    var share, req := Project(frames, id), requests[id];
    assert share == Project(front, id) + [m];
    var script := Script(id, req, cfg, limit);
    var j := |share| - 1;
    assert script[j] == m && ShouldStream(cfg, req.parts.contentLength, req.body.upper);
    StreamScriptAt(id, req, cfg, j);
    assert Project(front, id) == script[..j];
    Independent(front, id);
    StreamReceived(id, req, cfg, j);
  }

  /** A chunk that overflows one client overflows the context that holds its stream. */
  lemma SimFails(m: Manager, c: Client, frame: Message, choice: Choice)
    requires Sim(m, c) && !c.failed && Receive(c, frame).failed && RequestTraffic(frame)
    requires frame.HttpRequestChunk? ==> frame.id in c.streams
    ensures Sim(Handle(m, frame, choice), Receive(c, frame)) && Handle(m, frame, choice) == m.(failed := true)
  {
    var m', c' := Handle(m, frame, choice), Receive(c, frame);
    if frame.HttpRequestChunk? {
      assert SimAt(m, c, frame.id);
    }
    assert m' == m.(failed := true) && c' == c.(failed := true);
    forall k ensures SimAt(m', c', k) {
      assert SimAt(m, c, k);
    }
  }

  lemma FailedMatches(m: Manager)
    requires IndexMatches(m)
    ensures IndexMatches(m.(failed := true))
  {
    forall id, t ensures IndexAt(m.(failed := true), id, t) {
      assert IndexAt(m, id, t);
    }
  }

  /** The multi client refines the single one: over any interleaving of routed requests it fails exactly when one
      client would, that is when some stream outgrows its buffer, and its calls are the same. */
  lemma MultiReassembles(m: Manager, events: seq<Event>, requests: map<Uuid, Request>, cfg: StreamingConfig, limit: nat)
    requires Ready(m) && Routed(m, events) && forall e :: e in events ==> e.Frame?
    requires Interleaves(FramesOf(events), requests, cfg, limit)
    ensures Sim(Run(m, events), ReceiveAll(FramesOf(events))) && IndexMatches(Run(m, events))
    ensures Run(m, events).failed <==>
              exists id :: id in requests && StreamedSize(Project(FramesOf(events), id)) > STREAM_BUFFER_LIMIT
    ensures !Run(m, events).failed ==> forall id :: id in requests ==>
              var calls := CallsFor(Untagged(Run(m, events).calls), id);
              if Complete(Project(FramesOf(events), id)) then CalledOnce(calls, id, requests[id]) else calls == []
  {
    RequestsReassemble(FramesOf(events), requests, cfg, limit);
    MultiSimulates(m, events, requests, cfg, limit);
  }

  lemma {:induction false} MultiSimulates(m: Manager, events: seq<Event>, requests: map<Uuid, Request>,
                                          cfg: StreamingConfig, limit: nat)
    requires Ready(m) && Routed(m, events) && forall e :: e in events ==> e.Frame?
    requires Interleaves(FramesOf(events), requests, cfg, limit)
    ensures Sim(Run(m, events), ReceiveAll(FramesOf(events))) && IndexMatches(Run(m, events))
  {
    if events == [] {
      ReadySim(m);
    } else {
      var frames := FramesOf(events);
      var front, e := events[..|events| - 1], events[|events| - 1];
      assert FramesOf(front) == frames[..|frames| - 1] && frames[|frames| - 1] == e.frame;
      InterleavesFront(frames, requests, cfg, limit);
      MultiSimulates(m, front, requests, cfg, limit);
      MultiStep(m, front, e, frames, requests, cfg, limit);
    }
  }

  lemma MultiStep(m: Manager, front: seq<Event>, e: Event, frames: seq<Message>, requests: map<Uuid, Request>,
                  cfg: StreamingConfig, limit: nat)
    requires frames != [] && e.Frame? && e.frame == frames[|frames| - 1] && Interleaves(frames, requests, cfg, limit)
    requires var n, c := Run(m, front), ReceiveAll(frames[..|frames| - 1]);
      && Sim(n, c) && IndexMatches(n) && Valid(n, e.choice) && RequestTraffic(e.frame)
      && (e.frame.HttpRequestStart? || e.frame.HttpRequest? ==> Route(n, e.frame.headers, e.choice.http).Some?)
    ensures var n' := Handle(Run(m, front), e.frame, e.choice); Sim(n', ReceiveAll(frames)) && IndexMatches(n')
  {
    var n, c := Run(m, front), ReceiveAll(frames[..|frames| - 1]);
    if !c.failed {
      if e.frame.HttpRequestChunk? {
        ChunkIsOpen(frames, requests, cfg, limit);
      }
      if Receive(c, e.frame).failed {
        SimFails(n, c, e.frame, e.choice);
        FailedMatches(n);
      } else {
        if e.frame.HttpRequestStart? {
          StartIsFresh(frames, requests, cfg, limit);
          assert SimAt(n, c, e.frame.id);
        }
        SimStep(n, c, e.frame, e.choice);
        ApplyMatches(n, e);
      }
    }
  }

  // ---- each call in the tunnel of its host ----

  /** If the headers name a registered label, this is its tunnel. */
  predicate RightTunnel(m: Manager, t: Uuid, headers: seq<Header>) {
    var host := HostHeader(headers);
    host.Some? && FirstLabel(host.value) in m.subdomains ==> m.subdomains[FirstLabel(host.value)] == t
  }

  ghost predicate CallsPlaced(m: Manager) {
    forall i :: 0 <= i < |m.calls| ==> RightTunnel(m, m.calls[i].0, m.calls[i].1.headers)
  }

  ghost predicate StreamsPlaced(m: Manager) {
    forall t, id :: Open(m, t, id) ==> RightTunnel(m, t, m.contexts[t].streams[id].headers)
  }

  lemma FramesKeepLabels(m: Manager, frame: Message, choice: Choice)
    ensures Handle(m, frame, choice).subdomains == m.subdomains
  {
  }

  lemma StreamsPlacedStep(m: Manager, frame: Message, choice: Choice, t: Uuid, id: Uuid)
    requires StreamsPlaced(m) && Open(Handle(m, frame, choice), t, id)
    ensures RightTunnel(m, t, Handle(m, frame, choice).contexts[t].streams[id].headers)
  {
    if Open(m, t, id) {
      assert RightTunnel(m, t, m.contexts[t].streams[id].headers);
    }
  }

  lemma CallsPlacedStep(m: Manager, frame: Message, choice: Choice)
    requires StreamsPlaced(m) && CallsPlaced(m)
    ensures var calls := Handle(m, frame, choice).calls;
      forall i :: 0 <= i < |calls| ==> RightTunnel(m, calls[i].0, calls[i].1.headers)
  {
    if frame.HttpRequestEnd? && Tracked(m, frame.id).Some? {
      assert Open(m, Tracked(m, frame.id).value, frame.id) || frame.id !in m.contexts[Tracked(m, frame.id).value].streams;
    }
  }

  lemma {:induction false} RunPlaced(m: Manager, events: seq<Event>)
    requires StreamsPlaced(m) && CallsPlaced(m) && forall e :: e in events ==> e.Frame?
    ensures var n := Run(m, events); n.subdomains == m.subdomains && StreamsPlaced(n) && CallsPlaced(n)
  {
    if events != [] {
      var front, e := events[..|events| - 1], events[|events| - 1];
      RunPlaced(m, front);
      var n := Run(m, front);
      assert e in events;
      FramesKeepLabels(n, e.frame, e.choice);
      CallsPlacedStep(n, e.frame, e.choice);
      forall t, id | Open(Run(m, events), t, id)
        ensures RightTunnel(Run(m, events), t, Run(m, events).contexts[t].streams[id].headers)
      {
        StreamsPlacedStep(n, e.frame, e.choice, t, id);
      }
    }
  }

  lemma {:induction false} CallsForMember(calls: seq<Call>, i: nat)
    requires i < |calls|
    ensures calls[i] in CallsFor(calls, calls[i].id)
  {
    if i < |calls| - 1 {
      CallsForMember(calls[..|calls| - 1], i);
    }
  }

  /** Every call in the log sits in the tunnel its host was resolved to: whatever first Host header of a call the relay
      resolves to a registered label, the call was made in the tunnel registered under that label, as the request it
      belongs to, and that request was called once, in no other tunnel. */
  lemma EachInItsTunnel(m: Manager, events: seq<Event>, requests: map<Uuid, Request>, cfg: StreamingConfig, limit: nat,
                        i: nat, h: nat, domain: string, name: string)
    requires Ready(m) && Routed(m, events) && forall e :: e in events ==> e.Frame?
    requires Interleaves(FramesOf(events), requests, cfg, limit) && i < |Run(m, events).calls|
    requires Run(m, events).calls[i].1.id in requests
    requires var headers := Run(m, events).calls[i].1.headers;
      FirstHost(headers, h) && Resolve(Some(headers[h].1), domain) == Resolved(name)
    requires ValidLabel(name) && name in m.subdomains
    ensures var (t, x) := Run(m, events).calls[i];
      && t == m.subdomains[name] && IsRequest(x, x.id, requests[x.id])
      && CallsFor(Untagged(Run(m, events).calls), x.id) == [x]
      && Complete(Project(FramesOf(events), x.id))
  {
    var x := Run(m, events).calls[i].1;
    LoggedIsOwn(m, events, requests, cfg, limit, i);
    LoggedIsPlaced(m, events, i);
    HostHeaderIs(x.headers, h);
    LookupsAgree(x.headers[h].1, domain, name);
  }

  lemma LoggedIsPlaced(m: Manager, events: seq<Event>, i: nat)
    requires Ready(m) && (forall e :: e in events ==> e.Frame?) && i < |Run(m, events).calls|
    ensures RightTunnel(m, Run(m, events).calls[i].0, Run(m, events).calls[i].1.headers)
  {
    ReadyPlaced(m);
    RunPlaced(m, events);
  }

  lemma LoggedIsOwn(m: Manager, events: seq<Event>, requests: map<Uuid, Request>, cfg: StreamingConfig, limit: nat, i: nat)
    requires Ready(m) && Routed(m, events) && forall e :: e in events ==> e.Frame?
    requires Interleaves(FramesOf(events), requests, cfg, limit) && i < |Run(m, events).calls|
    requires Run(m, events).calls[i].1.id in requests
    ensures var x := Run(m, events).calls[i].1;
      && IsRequest(x, x.id, requests[x.id]) && CallsFor(Untagged(Run(m, events).calls), x.id) == [x]
      && Complete(Project(FramesOf(events), x.id))
  {
    var x := Run(m, events).calls[i].1;
    LogIsOneClients(m, events, requests, cfg, limit);
    OnlyOwnCalls(FramesOf(events), requests, cfg, limit, x.id);
    OnlyMember(Untagged(Run(m, events).calls), i, requests[x.id]);
  }

  lemma LogIsOneClients(m: Manager, events: seq<Event>, requests: map<Uuid, Request>, cfg: StreamingConfig, limit: nat)
    requires Ready(m) && Routed(m, events) && forall e :: e in events ==> e.Frame?
    requires Interleaves(FramesOf(events), requests, cfg, limit)
    ensures Untagged(Run(m, events).calls) == ReceiveAll(FramesOf(events)).calls
  {
    MultiReassembles(m, events, requests, cfg, limit);
  }

  lemma OnlyMember(calls: seq<Call>, i: nat, req: Request)
    requires i < |calls|
    requires CallsFor(calls, calls[i].id) == [] || CalledOnce(CallsFor(calls, calls[i].id), calls[i].id, req)
    ensures CallsFor(calls, calls[i].id) == [calls[i]] && IsRequest(calls[i], calls[i].id, req)
  {
    CallsForMember(calls, i);
    OneMember(CallsFor(calls, calls[i].id), calls[i]);
  }

  lemma OneMember(calls: seq<Call>, x: Call)
    requires |calls| <= 1 && x in calls
    ensures calls == [x]
  {
  }

  lemma ReadyPlaced(m: Manager)
    requires Ready(m)
    ensures StreamsPlaced(m) && CallsPlaced(m)
  {
    forall t, id ensures !Open(m, t, id) {
      assert IndexAt(m, id, t);
    }
  }

  lemma ReadySim(m: Manager)
    requires Ready(m)
    ensures Sim(m, FRESH)
  {
  }

  // ---- in place ----

  class MultiTunnelManager {
    var contexts: map<Uuid, Context>
    var subdomains: map<string, Uuid>
    var httpRequests: map<Uuid, Uuid>
    var tcpConnections: map<Uuid, Uuid>
    var calls: seq<(Uuid, Call)>
    var failed: bool

    ghost function View(): Manager
      reads this
    {
      Manager(contexts, subdomains, httpRequests, tcpConnections, calls, failed)
    }

    constructor ()
      ensures View() == EMPTY
    {
      contexts, subdomains, httpRequests, tcpConnections, calls, failed := map[], map[], map[], map[], [], false;
    }

    method Register(t: Uuid, subdomain: string, protocol: TunnelProtocol)
      modifies this`contexts, this`subdomains
      ensures View() == RegisterContext(old(View()), t, subdomain, protocol)
    {
      subdomains := subdomains[Lower(subdomain) := t];
      contexts := contexts[t := Context(t, protocol, map[])];
    }

    method HttpContextByHeaders(headers: seq<Header>, fallback: Option<Uuid>) returns (t: Option<Uuid>)
      ensures t == ContextByHeaders(View(), headers, fallback)
    {
      var host := HostHeader(headers);
      if host.Some? {
        var name := FirstLabel(host.value);
        if name in subdomains {
          return if subdomains[name] in contexts then Some(subdomains[name]) else None;
        }
      }
      return fallback;
    }

    method SetStream(t: Uuid, id: Uuid, s: StreamingRequest)
      requires t in contexts
      modifies this`contexts
      ensures View() == PutStream(old(View()), t, id, s)
    {
      contexts := contexts[t := contexts[t].(streams := contexts[t].streams[id := s])];
    }

    method Push(id: Uuid, data: Bytes)
      requires !failed && Validate(HttpRequestChunk(id, data, 0), DEFAULT_MAX_BODY_SIZE)
      modifies this
      ensures forall n, choice :: View() == Handle(old(View()), HttpRequestChunk(id, data, n), choice)
    {
      if id in httpRequests && httpRequests[id] in contexts && contexts[httpRequests[id]].protocol == Http {
        var t := httpRequests[id];
        if id !in contexts[t].streams || |contexts[t].streams[id].body| + |data| > STREAM_BUFFER_LIMIT {
          failed := true;
        } else {
          var s := contexts[t].streams[id];
          SetStream(t, id, s.(body := s.body + data));
        }
      }
    }

    method Finish(id: Uuid)
      requires !failed
      modifies this
      ensures forall choice :: View() == Handle(old(View()), HttpRequestEnd(id), choice)
    {
      if id in httpRequests && httpRequests[id] in contexts && contexts[httpRequests[id]].protocol == Http {
        var t := httpRequests[id];
        if id in contexts[t].streams {
          var s := contexts[t].streams[id];
          contexts := contexts[t := contexts[t].(streams := contexts[t].streams - {id})];
          calls := calls + [(t, Call(id, s.verb, s.path, s.headers, s.body))];
        }
      }
      httpRequests := httpRequests - {id};
    }

    method HandleFrame(frame: Message, choice: Choice)
      modifies this
      ensures View() == Handle(old(View()), frame, choice)
    {
      if failed {
        return;
      }
      if !Validate(frame, DEFAULT_MAX_BODY_SIZE) {
        failed := true;
        return;
      }
      match frame {
        case HttpRequest(id, verb, path, headers, body) =>
          var t := HttpContextByHeaders(headers, choice.http);
          if t.Some? && t.value in contexts && contexts[t.value].protocol == Http {
            calls := calls + [(t.value, Call(id, verb, path, headers, body))];
          }
        case HttpRequestStart(id, verb, path, headers, _) =>
          var t := HttpContextByHeaders(headers, choice.http);
          if t.Some? && t.value in contexts && contexts[t.value].protocol == Http {
            SetStream(t.value, id, StreamingRequest(verb, path, headers, []));
            httpRequests := httpRequests[id := t.value];
          }
        case HttpRequestChunk(id, data, _) => Push(id, data);
        case HttpRequestEnd(id) => Finish(id);
        case TcpConnect(c, _) =>
          if choice.tcp.Some? {
            tcpConnections := tcpConnections[c := choice.tcp.value];
          }
        case TcpData(c, _, _) =>
          if c in tcpConnections && tcpConnections[c] in contexts && !choice.written {
            failed := true;
          }
        case TcpClose(c, _) => tcpConnections := tcpConnections - {c};
        case Disconnect => failed := true;
        case Error(_) => failed := true;
        case _ =>
      }
    }
  }
}
