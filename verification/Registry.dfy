/** The tunnel registry and the session that owns one of its entries: each method runs alone. */
module Registries {
  import opened Protocol
  import opened Counting
  import opened PendingOps
  import opened PendingStores
  import opened Names
  import opened Text

  /** A hash of an API key; only equality matters. */
  type KeyHash = nat

  datatype Tunnel = Tunnel(id: Uuid, subdomain: string, protocol: TunnelProtocol, keyHash: Option<KeyHash>)

  /** A limit of zero is switched off. */
  datatype Limits = Limits(maxTunnels: nat, maxTunnelsPerKey: nat)

  datatype Refusal = CapacityExceeded | SubdomainTaken | InvalidSubdomain

  type Registry = map<string, Tunnel>

  function OfKey(h: KeyHash): Tunnel -> bool {
    (t: Tunnel) => t.keyHash == Some(h)
  }

  function WithId(id: Uuid): Tunnel -> bool {
    (t: Tunnel) => t.id == id
  }

  // ---- whole methods on values ----

  ghost function RefusalOf(lim: Limits, reg: Registry, t: Tunnel): Option<Refusal> {
    if lim.maxTunnels > 0 && |reg| >= lim.maxTunnels then Some(CapacityExceeded)
    else if lim.maxTunnelsPerKey > 0 && t.keyHash.Some? && Count(reg, OfKey(t.keyHash.value)) >= lim.maxTunnelsPerKey
    then Some(CapacityExceeded)
    else if t.subdomain in reg then Some(SubdomainTaken)
    else None
  }

  datatype Allocation = Granted(subdomain: string) | Refused(why: Refusal)

  /** `samples` are the random texts drawn when the client names no subdomain. */
  function Allocate(reg: Registry, desired: Option<string>, samples: seq<string>): Allocation {
    match desired
    case Some(raw) =>
      (match SanitizeSubdomain(raw)
       case None => Refused(InvalidSubdomain)
       case Some(s) => if s in reg then Refused(SubdomainTaken) else Granted(s))
    case None => FirstFree(reg, samples)
  }

  function FirstFree(reg: Registry, samples: seq<string>): Allocation {
    if samples == [] then Refused(CapacityExceeded)
    else if Lower(samples[0]) !in reg then Granted(Lower(samples[0]))
    else FirstFree(reg, samples[1..])
  }

  /** The random source: five texts of eight alphanumerics. */
  ghost predicate RandomSamples(samples: seq<string>) {
    |samples| == 5 && forall s :: s in samples ==> |s| == 8 && forall c :: c in s ==> IsAlphanumeric(c)
  }

  /** Every subdomain handed out is a registrable label that no tunnel holds. */
  lemma AllocateGrants(reg: Registry, desired: Option<string>, samples: seq<string>)
    requires RandomSamples(samples)
    ensures Allocate(reg, desired, samples).Granted? ==>
      ValidLabel(Allocate(reg, desired, samples).subdomain) && Allocate(reg, desired, samples).subdomain !in reg
  {
    match desired
    case Some(raw) =>
      if SanitizeSubdomain(raw).Some? {
        SanitizeExact(raw, SanitizeSubdomain(raw).value);
      }
    case None => FirstFreeGrants(reg, samples);
  }

  lemma {:induction false} FirstFreeGrants(reg: Registry, samples: seq<string>)
    requires forall s :: s in samples ==> |s| == 8 && forall c :: c in s ==> IsAlphanumeric(c)
    ensures FirstFree(reg, samples).Granted? ==>
      ValidLabel(FirstFree(reg, samples).subdomain) && FirstFree(reg, samples).subdomain !in reg
  {
    if samples != [] {
      RandomLabelValid(samples[0]);
      FirstFreeGrants(reg, samples[1..]);
    }
  }

  // ---- runs ----

  /** Registry and pending store together, with every tunnel id ever used. */
  datatype Relay = Relay(tunnels: Registry, core: Core, usedIds: set<Uuid>)

  datatype Event =
    | Connect(id: Uuid, desired: Option<string>, samples: seq<string>, protocol: TunnelProtocol, keyHash: Option<KeyHash>)
    | Remove(subdomain: string)
    | Disconnect(id: Uuid, order: seq<Uuid>)
    | SessionEnd(tunnel: Tunnel, order: seq<Uuid>)
    | Pending(event: PendingStores.Event)

  ghost predicate Enabled(r: Relay, e: Event) {
    match e
    case Connect(id, _, samples, _, _) => id !in r.usedIds && RandomSamples(samples)
    case Remove(_) => true
    case Disconnect(id, order) => PendingStores.Enabled(r.core, Close(id, order))
    case SessionEnd(t, order) => PendingStores.Enabled(r.core, Close(t.id, order))
    case Pending(event) => PendingStores.Enabled(r.core, event)
  }

  /** Allocate, then register. */
  ghost function ConnectTunnel(lim: Limits, r: Relay, e: Event): Relay
    requires e.Connect?
  {
    match Allocate(r.tunnels, e.desired, e.samples)
    case Refused(_) => r
    case Granted(s) =>
      var t := Tunnel(e.id, s, e.protocol, e.keyHash);
      if RefusalOf(lim, r.tunnels, t).Some? then r
      else r.(tunnels := r.tunnels[s := t], usedIds := r.usedIds + {e.id})
  }

  /** The entry whose tunnel has this id leaves the registry, and its pending requests are answered. */
  ghost function DisconnectTunnel(r: Relay, id: Uuid, order: seq<Uuid>): Relay {
    var keys := Matching(r.tunnels, WithId(id));
    if keys == {} then r else
      var key :| key in keys;
      r.(tunnels := r.tunnels - {key}, core := Settle(r.core, order, ByClose(id)))
  }

  /** What a session does on its way out: answer its pending requests, then remove its name. */
  function EndSession(r: Relay, t: Tunnel, order: seq<Uuid>): Relay {
    r.(tunnels := r.tunnels - {t.subdomain}, core := Settle(r.core, order, ByClose(t.id)))
  }

  ghost function Apply(cfg: Config, lim: Limits, r: Relay, e: Event): Relay {
    match e
    case Connect(_, _, _, _, _) => ConnectTunnel(lim, r, e)
    case Remove(s) => r.(tunnels := r.tunnels - {s})
    case Disconnect(id, order) => DisconnectTunnel(r, id, order)
    case SessionEnd(t, order) => EndSession(r, t, order)
    case Pending(event) => r.(core := PendingStores.Apply(cfg, r.core, event))
  }

  ghost function Run(cfg: Config, lim: Limits, events: seq<Event>): Relay {
    if events == [] then Relay(map[], START, {})
    else Apply(cfg, lim, Run(cfg, lim, events[..|events| - 1]), events[|events| - 1])
  }

  ghost predicate Legal(cfg: Config, lim: Limits, events: seq<Event>) {
    events == [] ||
    (Legal(cfg, lim, events[..|events| - 1]) && Enabled(Run(cfg, lim, events[..|events| - 1]), events[|events| - 1]))
  }

  // ---- what every reachable relay satisfies ----

  ghost predicate KeyedBySubdomain(reg: Registry) {
    forall s :: s in reg ==> reg[s].subdomain == s && ValidLabel(s)
  }

  ghost predicate DistinctIds(reg: Registry) {
    forall s, u :: s in reg && u in reg && reg[s].id == reg[u].id ==> s == u
  }

  ghost predicate WithinTunnelLimits(lim: Limits, reg: Registry) {
    && (lim.maxTunnels > 0 ==> |reg| <= lim.maxTunnels)
    && (lim.maxTunnelsPerKey > 0 ==> forall h: KeyHash :: Count(reg, OfKey(h)) <= lim.maxTunnelsPerKey)
  }

  ghost predicate GoodRegistry(lim: Limits, reg: Registry, usedIds: set<Uuid>) {
    && KeyedBySubdomain(reg) && DistinctIds(reg) && WithinTunnelLimits(lim, reg)
    && forall s :: s in reg ==> reg[s].id in usedIds
  }

  lemma ConnectGood(lim: Limits, r: Relay, e: Event)
    requires GoodRegistry(lim, r.tunnels, r.usedIds) && Enabled(r, e) && e.Connect?
    ensures GoodRegistry(lim, ConnectTunnel(lim, r, e).tunnels, ConnectTunnel(lim, r, e).usedIds)
  {
    AllocateGrants(r.tunnels, e.desired, e.samples);
    match Allocate(r.tunnels, e.desired, e.samples)
    case Refused(_) =>
    case Granted(s) =>
      var t := Tunnel(e.id, s, e.protocol, e.keyHash);
      if RefusalOf(lim, r.tunnels, t).None? {
        SizeUpdate(r.tunnels, s, t);
        forall h: KeyHash | lim.maxTunnelsPerKey > 0 ensures Count(r.tunnels[s := t], OfKey(h)) <= lim.maxTunnelsPerKey {
          CountUpdate(r.tunnels, s, t, OfKey(h));
        }
      }
  }

  lemma ShrinkGood(lim: Limits, reg: Registry, usedIds: set<Uuid>, key: string)
    requires GoodRegistry(lim, reg, usedIds)
    ensures GoodRegistry(lim, reg - {key}, usedIds)
  {
    SizeRemove(reg, key);
    forall h: KeyHash | lim.maxTunnelsPerKey > 0 ensures Count(reg - {key}, OfKey(h)) <= lim.maxTunnelsPerKey {
      CountRemove(reg, key, OfKey(h));
    }
  }

  /** Every reachable relay keys its tunnels by their labels, never repeats an id, keeps within both tunnel
      limits, and keeps every promise of the pending store. */
  lemma {:induction false} RunGood(cfg: Config, lim: Limits, events: seq<Event>)
    requires Legal(cfg, lim, events)
    ensures GoodRegistry(lim, Run(cfg, lim, events).tunnels, Run(cfg, lim, events).usedIds)
    ensures Good(cfg, Run(cfg, lim, events).core)
  {
    if events == [] {
      FreshStart(cfg);
      forall h: KeyHash ensures Count<string, Tunnel>(map[], OfKey(h)) == 0 {
        CountEmpty<string, Tunnel>(OfKey(h));
      }
    } else {
      RunGood(cfg, lim, events[..|events| - 1]);
      var r, e := Run(cfg, lim, events[..|events| - 1]), events[|events| - 1];
      StepGood(cfg, lim, r, e);
    }
  }

  lemma StepGood(cfg: Config, lim: Limits, r: Relay, e: Event)
    requires GoodRegistry(lim, r.tunnels, r.usedIds) && Good(cfg, r.core) && Enabled(r, e)
    ensures GoodRegistry(lim, Apply(cfg, lim, r, e).tunnels, Apply(cfg, lim, r, e).usedIds)
    ensures Good(cfg, Apply(cfg, lim, r, e).core)
  {
    match e
    case Connect(_, _, _, _, _) => ConnectGood(lim, r, e);
    case Remove(s) => ShrinkGood(lim, r.tunnels, r.usedIds, s);
    case Disconnect(id, order) =>
      ApplyGood(cfg, r.core, Close(id, order));
      forall key { ShrinkGood(lim, r.tunnels, r.usedIds, key); }
    case SessionEnd(t, order) =>
      ApplyGood(cfg, r.core, Close(t.id, order));
      ShrinkGood(lim, r.tunnels, r.usedIds, t.subdomain);
    case Pending(event) => ApplyGood(cfg, r.core, event);
  }

  // ---- entering and leaving the registry ----

  lemma {:induction false} FirstFreeExact(reg: Registry, samples: seq<string>)
    ensures FirstFree(reg, samples).Granted? <==> exists i :: 0 <= i < |samples| && Lower(samples[i]) !in reg
  {
    if samples != [] && Lower(samples[0]) in reg {
      FirstFreeExact(reg, samples[1..]);
      if FirstFree(reg, samples).Granted? {
        var i :| 0 <= i < |samples[1..]| && Lower(samples[1..][i]) !in reg;
        assert samples[i + 1] == samples[1..][i];
      }
      forall i | 0 <= i < |samples| && Lower(samples[i]) !in reg ensures FirstFree(reg, samples).Granted? {
        assert samples[1..][i - 1] == samples[i];
      }
    }
  }

  /** Sample `i` is the first that is free. */
  ghost predicate IsFirstFree(reg: Registry, samples: seq<string>, i: nat) {
    i < |samples| && Lower(samples[i]) !in reg && forall j :: 0 <= j < i ==> Lower(samples[j]) in reg
  }

  lemma {:induction false} FirstFreeIs(reg: Registry, samples: seq<string>, i: nat)
    requires IsFirstFree(reg, samples, i)
    ensures FirstFree(reg, samples) == Granted(Lower(samples[i]))
  {
    if i > 0 {
      assert forall j :: 0 <= j < i - 1 ==> samples[1..][j] == samples[j + 1];
      FirstFreeIs(reg, samples[1..], i - 1);
    }
  }

  /** Neither limit refuses one more tunnel of this key. */
  ghost predicate Room(lim: Limits, reg: Registry, keyHash: Option<KeyHash>) {
    && (lim.maxTunnels > 0 ==> |reg| < lim.maxTunnels)
    && (lim.maxTunnelsPerKey > 0 && keyHash.Some? ==> Count(reg, OfKey(keyHash.value)) < lim.maxTunnelsPerKey)
  }

  /** The client's wish, reduced to label characters, is a free label; or, without one, a random label is free. */
  ghost predicate NameFree(reg: Registry, desired: Option<string>, samples: seq<string>) {
    match desired
    case Some(raw) => ValidLabel(Filter(Lower(raw))) && Filter(Lower(raw)) !in reg
    case None => exists i :: 0 <= i < |samples| && Lower(samples[i]) !in reg
  }

  /** The tunnel of this connect event is registered under `name`, and nothing else changed. */
  ghost predicate RegisteredAs(r: Relay, r': Relay, e: Event, name: string)
    requires e.Connect?
  {
    && name !in r.tunnels && ValidLabel(name) && (e.desired.Some? ==> name == Filter(Lower(e.desired.value)))
    && r' == r.(tunnels := r.tunnels[name := Tunnel(e.id, name, e.protocol, e.keyHash)], usedIds := r.usedIds + {e.id})
  }

  /** A client is registered exactly when both limits leave room and a name for it is free, and then under one. */
  lemma ConnectExact(lim: Limits, r: Relay, e: Event)
    requires Enabled(r, e) && e.Connect?
    ensures ConnectTunnel(lim, r, e) != r <==>
              Room(lim, r.tunnels, e.keyHash) && NameFree(r.tunnels, e.desired, e.samples)
    ensures ConnectTunnel(lim, r, e) != r ==> exists name :: RegisteredAs(r, ConnectTunnel(lim, r, e), e, name)
  {
    AllocateExact(r.tunnels, e.desired, e.samples);
    if ConnectTunnel(lim, r, e) != r {
      assert RegisteredAs(r, ConnectTunnel(lim, r, e), e, Allocate(r.tunnels, e.desired, e.samples).subdomain);
    }
  }

  /** A name is handed out exactly when one is free, and then it is a free label: the wished one if there is a wish, else
      the first free sample. */
  lemma AllocateExact(reg: Registry, desired: Option<string>, samples: seq<string>)
    requires RandomSamples(samples)
    ensures Allocate(reg, desired, samples).Granted? <==> NameFree(reg, desired, samples)
    ensures Allocate(reg, desired, samples).Granted? ==>
              var name := Allocate(reg, desired, samples).subdomain;
              name !in reg && ValidLabel(name) && (desired.Some? ==> name == Filter(Lower(desired.value)))
    ensures forall i: nat :: desired.None? && IsFirstFree(reg, samples, i) ==>
              Allocate(reg, desired, samples) == Granted(Lower(samples[i]))
  {
    AllocateGrants(reg, desired, samples);
    match desired
    case Some(raw) =>
      SanitizeExact(raw, Filter(Lower(raw)));
      if SanitizeSubdomain(raw).Some? {
        SanitizeExact(raw, SanitizeSubdomain(raw).value);
      }
    case None =>
      FirstFreeExact(reg, samples);
      forall i: nat | IsFirstFree(reg, samples, i) ensures FirstFree(reg, samples) == Granted(Lower(samples[i])) {
        FirstFreeIs(reg, samples, i);
      }
  }

  /** A removed name can be granted to the next client that wishes for it, and nobody else is touched by the removal. */
  lemma RemovedNameIsFree(cfg: Config, lim: Limits, r: Relay, s: string)
    requires ValidLabel(s)
    ensures var r' := Apply(cfg, lim, r, Remove(s));
      && Allocate(r'.tunnels, Some(s), []) == Granted(s)
      && (forall name :: name != s ==> (name in r'.tunnels <==> name in r.tunnels))
      && (forall name :: name in r'.tunnels ==> r'.tunnels[name] == r.tunnels[name]) && r'.core == r.core
  {
    SanitizeFixesLabels(s);
  }

  /** Disconnecting a registered tunnel removes its entry alone and answers its pending requests alone, each with
      a 502; every other entry, request and count stays. */
  lemma DisconnectExact(cfg: Config, lim: Limits, r: Relay, s: string, order: seq<Uuid>)
    requires GoodRegistry(lim, r.tunnels, r.usedIds) && Good(cfg, r.core)
    requires s in r.tunnels && Enabled(r, Event.Disconnect(r.tunnels[s].id, order))
    ensures var id := r.tunnels[s].id;
      var r' := Apply(cfg, lim, r, Event.Disconnect(id, order));
      && r'.tunnels == r.tunnels - {s}
      && r'.core.store.requests == r.core.store.requests - Matching(r.core.store.requests, OnTunnel(id))
      && r'.core.store.perTunnel == r.core.store.perTunnel - {id}
      && r'.core.replies == r.core.replies + Each(order, ByClose(id))
  {
    assert s in Matching(r.tunnels, WithId(r.tunnels[s].id));
    CloseExact(cfg, r.core, r.tunnels[s].id, order);
  }

  /** A session that ends cleanly leaves no pending request and no registry entry of its tunnel behind; it spares
      every other tunnel exactly when its name was not taken over by one. */
  lemma SessionEndSparesOthers(cfg: Config, lim: Limits, r: Relay, t: Tunnel, order: seq<Uuid>)
    requires GoodRegistry(lim, r.tunnels, r.usedIds) && Good(cfg, r.core) && Enabled(r, SessionEnd(t, order))
    requires forall s :: s in r.tunnels && r.tunnels[s].id == t.id ==> r.tunnels[s] == t
    ensures var r' := Apply(cfg, lim, r, SessionEnd(t, order));
      && Count(r'.core.store.requests, OnTunnel(t.id)) == 0
      && (forall s :: s in r'.tunnels ==> r'.tunnels[s].id != t.id)
      && ((forall s :: s in r.tunnels && r.tunnels[s].id != t.id ==> s in r'.tunnels)
          <==> (t.subdomain in r.tunnels ==> r.tunnels[t.subdomain].id == t.id))
  {
    CloseExact(cfg, r.core, t.id, order);
  }

  /** The takeover does happen: a tunnel is disconnected by an administrator, its name is granted again, and the
      first session's end removes the second tunnel, which no event ever named. */
  lemma ReusedNameLosesNewTunnel(cfg: Config, lim: Limits, samples: seq<string>) returns (events: seq<Event>)
    requires RandomSamples(samples)
    ensures Legal(cfg, lim, events) && |events| == 4
    ensures Run(cfg, lim, events[..3]).tunnels == map["x" := Tunnel(2, "x", Http, None)]
    ensures events[3] == SessionEnd(Tunnel(1, "x", Http, None), [])
    ensures Run(cfg, lim, events).tunnels == map[]
  {
    var first, second := Tunnel(1, "x", Http, None), Tunnel(2, "x", Http, None);
    var e0, e1 := Connect(1, Some("x"), samples, Http, None), Event.Disconnect(1, []);
    var e2, e3 := Connect(2, Some("x"), samples, Http, None), SessionEnd(first, []);
    NothingToClose(1);
    ConnectAsX(cfg, lim, 1, samples, {});
    DisconnectX(cfg, lim, first, {1});
    ConnectAsX(cfg, lim, 2, samples, {1});
    var p1, p2 := [] + [e0], [] + [e0] + [e1];
    var p3 := p2 + [e2];
    RunExtend(cfg, lim, [], e0);
    RunExtend(cfg, lim, p1, e1);
    RunExtend(cfg, lim, p2, e2);
    RunExtend(cfg, lim, p3, e3);
    assert {} + {1} == {1};
    assert Run(cfg, lim, p3) == Relay(map["x" := second], START, {1} + {2});
    events := p3 + [e3];
    assert events[..3] == p3;
    assert EndSession(Run(cfg, lim, p3), first, []).tunnels == map[];
  }

  lemma ConnectAsX(cfg: Config, lim: Limits, id: Uuid, samples: seq<string>, usedIds: set<Uuid>)
    ensures Apply(cfg, lim, Relay(map[], START, usedIds), Connect(id, Some("x"), samples, Http, None))
         == Relay(map["x" := Tunnel(id, "x", Http, None)], START, usedIds + {id})
  {
    SanitizeFixesLabels("x");
  }

  lemma DisconnectX(cfg: Config, lim: Limits, t: Tunnel, usedIds: set<Uuid>)
    requires t.subdomain == "x"
    ensures Apply(cfg, lim, Relay(map["x" := t], START, usedIds), Event.Disconnect(t.id, [])) == Relay(map[], START, usedIds)
  {
    var reg: Registry := map["x" := t];
    assert Matching(reg, WithId(t.id)) == {"x"};
    assert reg - {"x"} == map[];
    NothingToClose(t.id);
  }

  lemma NothingToClose(id: Uuid)
    ensures PendingStores.Enabled(START, Close(id, [])) && Settle(START, [], ByClose(id)) == START
  {
    assert Matching(START.store.requests, OnTunnel(id)) == {};
  }

  lemma RunExtend(cfg: Config, lim: Limits, events: seq<Event>, e: Event)
    ensures Run(cfg, lim, events + [e]) == Apply(cfg, lim, Run(cfg, lim, events), e)
    ensures Legal(cfg, lim, events + [e]) <==> Legal(cfg, lim, events) && Enabled(Run(cfg, lim, events), e)
  {
    assert (events + [e])[..|events|] == events;
  }

  // ---- a session ----

  /** One websocket item as the relay's session loop sees it; `written` says whether a TCP payload reached its
      local connection. */
  datatype Inbound =
    | Binary(message: Message, written: bool)
    | Malformed
    | Ping
    | CloseFrame
    | OtherFrame
    | ReadError

  datatype Exit = Ended | Aborted

  /** The responses a session delivers before it ends, and how it ends. */
  function Session(frames: seq<Inbound>): (seq<Message>, Exit) {
    if frames == [] then ([], Ended) else
      match frames[0]
      case Malformed => ([], Aborted)
      case ReadError => ([], Aborted)
      case CloseFrame => ([], Ended)
      case Ping => Session(frames[1..])
      case OtherFrame => Session(frames[1..])
      case Binary(m, written) =>
        if m.Disconnect? || m.Error? then ([], Ended)
        else if m.TcpData? && !written then ([], Aborted)
        else var (rest, exit) := Session(frames[1..]);
             (if m.HttpResponse? then [m] + rest else rest, exit)
  }

  function DeliverAll(c: Core, responses: seq<Message>): Core
    decreases responses
  {
    if responses == [] then c else DeliverAll(Deliver(c, responses[0]), responses[1..])
  }

  // ---- how a session ends, and what it delivers ----

  /** The socket closes, or the client says goodbye or reports an error. */
  predicate Parts(f: Inbound) {
    f.CloseFrame? || (f.Binary? && (f.message.Disconnect? || f.message.Error?))
  }

  /** The frame cannot be read or decoded, or its payload does not reach its connection. */
  predicate Fails(f: Inbound) {
    f.Malformed? || f.ReadError? || (f.Binary? && f.message.TcpData? && !f.written)
  }

  /** A session is aborted, and so skips its cleanup, exactly when a frame fails before any frame parts. */
  lemma {:induction false} SessionExit(frames: seq<Inbound>)
    ensures Session(frames).1 == Aborted <==>
              exists i :: 0 <= i < |frames| && Fails(frames[i]) && forall j :: 0 <= j < i ==> !Parts(frames[j])
  {
    if frames != [] && !Parts(frames[0]) && !Fails(frames[0]) {
      var rest := frames[1..];
      SessionExit(rest);
      assert forall i :: 0 <= i < |rest| ==> rest[i] == frames[i + 1];
      if Session(rest).1 == Aborted {
        var i :| 0 <= i < |rest| && Fails(rest[i]) && forall j :: 0 <= j < i ==> !Parts(rest[j]);
        assert Fails(frames[i + 1]) && forall j :: 0 <= j < i + 1 ==> !Parts(frames[j]);
      }
      forall i | 0 <= i < |frames| && Fails(frames[i]) && forall j :: 0 <= j < i ==> !Parts(frames[j])
        ensures Session(rest).1 == Aborted
      {
        assert Fails(rest[i - 1]) && forall j :: 0 <= j < i - 1 ==> !Parts(rest[j]);
      }
    }
  }

  /** The first frame that parts or fails, or the length if there is none. */
  function EndsAt(frames: seq<Inbound>): (e: nat)
    ensures e <= |frames| && (forall j :: 0 <= j < e ==> !Parts(frames[j]) && !Fails(frames[j]))
    ensures e < |frames| ==> Parts(frames[e]) || Fails(frames[e])
  {
    if frames == [] || Parts(frames[0]) || Fails(frames[0]) then 0 else 1 + EndsAt(frames[1..])
  }

  /** The HTTP responses among some frames, in order. */
  function Responses(frames: seq<Inbound>): seq<Message> {
    if frames == [] then [] else
      (if frames[0].Binary? && frames[0].message.HttpResponse? then [frames[0].message] else []) + Responses(frames[1..])
  }

  /** A session delivers exactly the responses before the first frame that ends it, in order. */
  lemma {:induction false} SessionDelivers(frames: seq<Inbound>)
    ensures Session(frames).0 == Responses(frames[..EndsAt(frames)])
  {
    if frames != [] && !Parts(frames[0]) && !Fails(frames[0]) {
      SessionDelivers(frames[1..]);
      var heard := frames[..EndsAt(frames)];
      assert heard[0] == frames[0] && heard[1..] == frames[1..][..EndsAt(frames[1..])];
    }
  }

  lemma {:induction false} ResponsesOnly(frames: seq<Inbound>)
    ensures forall m :: m in Responses(frames) ==> m.HttpResponse?
  {
    if frames != [] {
      ResponsesOnly(frames[1..]);
    }
  }

  lemma DeliverStep(cfg: Config, c: Core, m: Message, k: Uuid)
    requires Good(cfg, c) && m.HttpResponse?
    ensures var d := Deliver(c, m);
      && Good(cfg, d) && c.replies <= d.replies
      && (k !in c.store.requests || m.id == k ==> k !in d.store.requests)
      && (k in c.store.requests && m.id == k ==> Reply(k, m, ByClient(m)) in d.replies)
      && (k in c.store.requests && m.id != k ==> k in d.store.requests && d.store.requests[k] == c.store.requests[k])
  {
    FulfilExact(cfg, c, m);
    FulfilGood(cfg, c, Fulfil(m));
    if k in c.store.requests && m.id == k {
      assert Deliver(c, m).replies[|c.replies|] == Reply(k, m, ByClient(m));
    }
  }

  /** Delivering takes no answer back and brings no request back. */
  lemma {:induction false} DeliverKeeps(cfg: Config, c: Core, responses: seq<Message>, k: Uuid)
    requires Good(cfg, c) && k !in c.store.requests && forall m :: m in responses ==> m.HttpResponse?
    ensures var c' := DeliverAll(c, responses); Good(cfg, c') && c.replies <= c'.replies && k !in c'.store.requests
    decreases responses
  {
    if responses != [] {
      DeliverStep(cfg, c, responses[0], k);
      DeliverKeeps(cfg, Deliver(c, responses[0]), responses[1..], k);
    }
  }

  /** Message `i` is the first response for this request. */
  predicate FirstAt(responses: seq<Message>, i: nat, k: Uuid) {
    && i < |responses| && responses[i].HttpResponse? && responses[i].id == k
    && forall j :: 0 <= j < i && responses[j].HttpResponse? ==> responses[j].id != k
  }

  function FirstFor(responses: seq<Message>, k: Uuid): Option<Message> {
    if responses == [] then None
    else if responses[0].HttpResponse? && responses[0].id == k then Some(responses[0])
    else FirstFor(responses[1..], k)
  }

  lemma {:induction false} FirstForExact(responses: seq<Message>, k: Uuid, i: nat)
    ensures FirstAt(responses, i, k) ==> FirstFor(responses, k) == Some(responses[i])
    ensures (forall m :: m in responses && m.HttpResponse? ==> m.id != k) ==> FirstFor(responses, k) == None
  {
    if responses != [] {
      var rest := responses[1..];
      assert forall j :: 0 <= j < |rest| ==> rest[j] == responses[j + 1];
      if i > 0 {
        FirstForExact(rest, k, i - 1);
        assert FirstAt(responses, i, k) ==> FirstAt(rest, i - 1, k);
      } else {
        FirstForExact(rest, k, 0);
      }
    }
  }

  /** Whatever responses arrive in a row, a pending request is answered with the first one that carries its id and is
      then no longer pending; one that none is for stays pending. */
  lemma {:induction false} DeliverAllExact(cfg: Config, c: Core, responses: seq<Message>, k: Uuid)
    requires Good(cfg, c) && k in c.store.requests && forall m :: m in responses ==> m.HttpResponse?
    ensures var c', first := DeliverAll(c, responses), FirstFor(responses, k);
      && Good(cfg, c') && c.replies <= c'.replies
      && (first.Some? ==> k !in c'.store.requests && Reply(k, first.value, ByClient(first.value)) in c'.replies)
      && (first.None? ==> k in c'.store.requests && c'.store.requests[k] == c.store.requests[k])
    decreases responses
  {
    if responses != [] {
      var m, rest := responses[0], responses[1..];
      DeliverStep(cfg, c, m, k);
      if m.id == k {
        DeliverKeeps(cfg, Deliver(c, m), rest, k);
      } else {
        DeliverAllExact(cfg, Deliver(c, m), rest, k);
      }
    }
  }

  /** A pending request is answered by the session with the first response heard for it, and by nothing else; if none
      is heard it stays pending, for the cleanup or the sweeper. */
  lemma SessionAnswers(cfg: Config, c: Core, frames: seq<Inbound>, k: Uuid, i: nat)
    requires Good(cfg, c) && k in c.store.requests
    ensures var heard := Responses(frames[..EndsAt(frames)]);
      var c' := DeliverAll(c, Session(frames).0);
      && Good(cfg, c') && OneReplyEach(c'.replies)
      && (FirstAt(heard, i, k) ==>
            k !in c'.store.requests && Reply(k, heard[i], ByClient(heard[i])) in c'.replies)
      && ((forall m :: m in heard && m.HttpResponse? ==> m.id != k) ==>
            k in c'.store.requests && !Answered(c'.replies, k))
  {
    var heard := Responses(frames[..EndsAt(frames)]);
    SessionDelivers(frames);
    ResponsesOnly(frames[..EndsAt(frames)]);
    DeliverAllExact(cfg, c, heard, k);
    FirstForExact(heard, k, i);
    var c' := DeliverAll(c, heard);
    assert k in c'.store.requests ==> k in c'.registered;
  }

  // ---- refusals ----

  /** Which refusal a registration gets: capacity while either limit is reached, the name only after that. */
  lemma RefusalExact(lim: Limits, reg: Registry, t: Tunnel)
    ensures RefusalOf(lim, reg, t) == Some(CapacityExceeded) <==> !Room(lim, reg, t.keyHash)
    ensures RefusalOf(lim, reg, t) == Some(SubdomainTaken) <==> Room(lim, reg, t.keyHash) && t.subdomain in reg
    ensures RefusalOf(lim, reg, t) == None <==> Room(lim, reg, t.keyHash) && t.subdomain !in reg
  {
  }

  /** Which refusal an allocation gets. */
  lemma AllocateRefuses(reg: Registry, desired: Option<string>, samples: seq<string>)
    requires RandomSamples(samples) && Allocate(reg, desired, samples).Refused?
    ensures Allocate(reg, desired, samples).why ==
      if desired.None? then CapacityExceeded
      else if ValidLabel(Filter(Lower(desired.value))) then SubdomainTaken
      else InvalidSubdomain
    ensures desired.None? ==> forall i :: 0 <= i < |samples| ==> Lower(samples[i]) in reg
    ensures desired.Some? && ValidLabel(Filter(Lower(desired.value))) ==> Filter(Lower(desired.value)) in reg
  {
    match desired
    case Some(raw) =>
      SanitizeExact(raw, Filter(Lower(raw)));
      if SanitizeSubdomain(raw).Some? {
        SanitizeExact(raw, SanitizeSubdomain(raw).value);
      }
    case None =>
      FirstFreeExact(reg, samples);
      FirstFreeRefuses(reg, samples);
  }

  lemma {:induction false} FirstFreeRefuses(reg: Registry, samples: seq<string>)
    ensures FirstFree(reg, samples).Refused? ==> FirstFree(reg, samples).why == CapacityExceeded
  {
    if samples != [] {
      FirstFreeRefuses(reg, samples[1..]);
    }
  }

  /** Disconnecting an id no tunnel has changes nothing. */
  lemma DisconnectUnknown(r: Relay, id: Uuid, order: seq<Uuid>)
    requires forall s :: s in r.tunnels ==> r.tunnels[s].id != id
    ensures DisconnectTunnel(r, id, order) == r
  {
    assert Matching(r.tunnels, WithId(id)) == {};
  }

  // ---- the manager in place ----

  class TunnelManager {
    const limits: Limits
    const config: Config
    const store: PendingStore
    var tunnels: map<string, Tunnel>
    ghost var usedIds: set<Uuid>

    ghost function View(): Relay
      reads this, store
    {
      Relay(tunnels, store.View(), usedIds)
    }

    constructor (limits: Limits, config: Config)
      ensures View() == Relay(map[], START, {}) && this.limits == limits && this.config == config && fresh(store)
    {
      this.limits, this.config, tunnels, usedIds := limits, config, map[], {};
      store := new PendingStore();
    }

    method CountTunnelsForKey(h: KeyHash) returns (n: nat)
      ensures n == Count(tunnels, OfKey(h))
    {
      n := 0;
      var rest := tunnels.Keys;
      ghost var seen: set<string> := {};
      while rest != {}
        invariant rest <= tunnels.Keys
        invariant seen == Matching(tunnels, OfKey(h)) - rest && n == |seen|
      {
        var s :| s in rest;
        rest := rest - {s};
        if tunnels[s].keyHash == Some(h) {
          seen := seen + {s};
          n := n + 1;
        }
      }
    }

    method AllocateSubdomain(desired: Option<string>, samples: seq<string>) returns (a: Allocation)
      requires RandomSamples(samples)
      ensures a == Allocate(tunnels, desired, samples)
    {
      if desired.Some? {
        var sanitized := SanitizeSubdomain(desired.value);
        if sanitized.None? {
          return Refused(InvalidSubdomain);
        }
        if sanitized.value in tunnels {
          return Refused(SubdomainTaken);
        }
        return Granted(sanitized.value);
      }
      for i := 0 to 5
        invariant FirstFree(tunnels, samples) == FirstFree(tunnels, samples[i..])
      {
        var candidate := Lower(samples[i]);
        if candidate !in tunnels {
          return Granted(candidate);
        }
      }
      return Refused(CapacityExceeded);
    }

    method RegisterTunnel(t: Tunnel) returns (refusal: Option<Refusal>)
      modifies this`tunnels, this`usedIds
      ensures refusal == RefusalOf(limits, old(tunnels), t)
      ensures tunnels == if refusal.None? then old(tunnels)[t.subdomain := t] else old(tunnels)
      ensures usedIds == if refusal.None? then old(usedIds) + {t.id} else old(usedIds)
    {
      if limits.maxTunnels > 0 && |tunnels| >= limits.maxTunnels {
        return Some(CapacityExceeded);
      }
      if limits.maxTunnelsPerKey > 0 && t.keyHash.Some? {
        var perKey := CountTunnelsForKey(t.keyHash.value);
        if perKey >= limits.maxTunnelsPerKey {
          return Some(CapacityExceeded);
        }
      }
      if t.subdomain in tunnels {
        return Some(SubdomainTaken);
      }
      tunnels := tunnels[t.subdomain := t];
      usedIds := usedIds + {t.id};
      return None;
    }

    method RemoveName(subdomain: string)
      modifies this`tunnels
      ensures tunnels == old(tunnels) - {subdomain}
    {
      tunnels := tunnels - {subdomain};
    }

    method Disconnect(id: Uuid) returns (done: bool, ghost order: seq<Uuid>)
      requires DistinctIds(tunnels)
      modifies this`tunnels, store
      ensures done <==> exists s :: s in old(tunnels) && old(tunnels)[s].id == id
      ensures done ==> PendingStores.Enabled(old(store.View()), Close(id, order))
      ensures View() == DisconnectTunnel(old(View()), id, order)
    {
      order := [];
      var rest := tunnels.Keys;
      while rest != {}
        invariant rest <= tunnels.Keys
        invariant forall s :: s in tunnels && s !in rest ==> tunnels[s].id != id
      {
        var s :| s in rest;
        rest := rest - {s};
        if tunnels[s].id == id {
          assert Matching(tunnels, WithId(id)) == {s};
          RemoveName(s);
          order := store.CloseTunnel(id);
          return true, order;
        }
      }
      assert Matching(tunnels, WithId(id)) == {};
      return false, order;
    }

    /** The session of tunnel `t`: deliver responses until the socket closes, the client leaves or something
        fails; only the first two clean up. */
    method HandleSession(t: Tunnel, frames: seq<Inbound>) returns (exit: Exit, ghost order: seq<Uuid>)
      modifies this`tunnels, store
      ensures exit == Session(frames).1
      ensures var delivered := old(View()).(core := DeliverAll(old(View()).core, Session(frames).0));
        if exit == Aborted then View() == delivered
        else PendingStores.Enabled(delivered.core, Close(t.id, order)) && View() == EndSession(delivered, t, order)
    {
      exit, order := Ended, [];
      ghost var target := DeliverAll(store.View(), Session(frames).0);
      for i := 0 to |frames|
        invariant tunnels == old(tunnels) && usedIds == old(usedIds)
        invariant Session(frames).1 == Session(frames[i..]).1
        invariant target == DeliverAll(store.View(), Session(frames[i..]).0)
      {
        assert frames[i..][0] == frames[i] && frames[i..][1..] == frames[i + 1..];
        match frames[i] {
          case Malformed => return Aborted, order;
          case ReadError => return Aborted, order;
          case CloseFrame => break;
          case Ping =>
          case OtherFrame =>
          case Binary(m, written) =>
            if m.Disconnect? || m.Error? {
              break;
            } else if m.TcpData? && !written {
              return Aborted, order;
            } else if m.HttpResponse? {
              store.Fulfill(m);
            }
        }
      }
      order := store.CloseTunnel(t.id);
      RemoveName(t.subdomain);
    }
  }
}
