/** Interleavings that show which exact counts do not survive concurrency. */
module InterleavingWitnesses {
  import opened Protocol
  import C = Counting
  import opened PendingOps
  import opened Interleavings

  lemma Then(cfg: Config, n: nat, events: seq<Event>, s: State, e: Event) returns (s': State)
    requires Run(cfg, n, events) == Some(s) && Enabled(n, s, e)
    ensures s' == Step(cfg, n, s, e)
    ensures Run(cfg, n, events + [e]) == Some(s')
  {
    s' := Step(cfg, n, s, e);
    assert (events + [e])[..|events|] == events;
  }

  function Request(id: Uuid, t: Uuid): Pending {
    Pending(id, 0, 0, id, t)
  }

  function Response(id: Uuid): Message {
    HttpResponse(id, 200, [], [])
  }

  lemma NobodyRegistering(s: State)
    requires forall tid :: tid in s.threads ==> !Registering()(s.threads[tid])
    ensures C.Count(s.threads, Registering()) == 0
  {
    assert C.Matching(s.threads, Registering()) == {};
  }

  /** A step that only moves its own thread on. */
  lemma Moves(cfg: Config, n: nat, events: seq<Event>, s: State, e: Event, next: Thread) returns (s': State)
    requires Run(cfg, n, events) == Some(s) && Enabled(n, s, e) && Step(cfg, n, s, e) == Put(s, e.tid, next)
    ensures Run(cfg, n, events + [e]) == Some(s') && s' == Put(s, e.tid, next)
  {
    s' := Then(cfg, n, events, s, e);
  }

  lemma Spawns(cfg: Config, n: nat, events: seq<Event>, s: State, tid: Tid, p: Pending) returns (s': State)
    requires Run(cfg, n, events) == Some(s) && tid !in s.threads && C.Count(s.threads, Registering()) < n
    requires p.requestId !in s.used && p.sender == p.requestId
    ensures Run(cfg, n, events + [SpawnRegister(tid, p)]) == Some(s')
    ensures s' == Put(s, tid, Checking(p)).(used := s.used + {p.requestId})
  {
    s' := Then(cfg, n, events, s, SpawnRegister(tid, p));
  }

  /** One registration, admitted by both checks. */
  lemma RegisterAdmitted(cfg: Config, n: nat, events: seq<Event>, s: State, tid: Tid, p: Pending)
    returns (events': seq<Event>, s': State)
    requires Run(cfg, n, events) == Some(s) && tid !in s.threads && C.Count(s.threads, Registering()) < n
    requires p.requestId !in s.used && p.sender == p.requestId
    requires |s.store.requests| < cfg.maxGlobal && CountForTunnel(s.store, p.tunnelId) < cfg.maxPerTunnel
    ensures Run(cfg, n, events') == Some(s')
    ensures s' == s.(threads := s.threads[tid := Inserting(p)], used := s.used + {p.requestId})
  {
    s' := Spawns(cfg, n, events, s, tid, p);
    events' := events + [SpawnRegister(tid, p)];
    s' := Moves(cfg, n, events', s', ReadLen(tid), Counting(p));
    events' := events' + [ReadLen(tid)];
    C.Overwrite(s.threads, tid, Checking(p), Counting(p));
    s' := Moves(cfg, n, events', s', ReadCount(tid), Inserting(p));
    events' := events' + [ReadCount(tid)];
    C.Overwrite(s.threads, tid, Counting(p), Inserting(p));
  }

  lemma Inserts(cfg: Config, n: nat, events: seq<Event>, s: State, tid: Tid, p: Pending) returns (s': State)
    requires Run(cfg, n, events) == Some(s) && tid in s.threads && s.threads[tid] == Inserting(p)
    ensures Run(cfg, n, events + [Insert(tid)]) == Some(s')
    ensures s'.store == PutRequest(s.store, p) && s'.threads == s.threads[tid := Gauging(p)]
    ensures s'.used == s.used && s'.replies == s.replies
  {
    s' := Then(cfg, n, events, s, Insert(tid));
  }

  /** The same registration up to and including its insert. */
  lemma RegisterToInsert(cfg: Config, n: nat, events: seq<Event>, s: State, tid: Tid, p: Pending)
    returns (events': seq<Event>, s': State)
    requires Run(cfg, n, events) == Some(s) && tid !in s.threads && C.Count(s.threads, Registering()) < n
    requires p.requestId !in s.used && p.sender == p.requestId
    requires |s.store.requests| < cfg.maxGlobal && CountForTunnel(s.store, p.tunnelId) < cfg.maxPerTunnel
    ensures Run(cfg, n, events') == Some(s')
    ensures s'.store == PutRequest(s.store, p) && s'.threads == s.threads[tid := Gauging(p)]
    ensures s'.used == s.used + {p.requestId} && s'.replies == s.replies
  {
    events', s' := RegisterAdmitted(cfg, n, events, s, tid, p);
    s' := Inserts(cfg, n, events', s', tid, p);
    events' := events' + [Insert(tid)];
    C.Overwrite(s.threads, tid, Inserting(p), Gauging(p));
  }

  /** The rest of that registration. */
  lemma RegisterCounts(cfg: Config, n: nat, events: seq<Event>, s: State, tid: Tid, p: Pending)
    returns (events': seq<Event>, s': State)
    requires Run(cfg, n, events) == Some(s) && tid in s.threads && s.threads[tid] == Gauging(p)
    ensures Run(cfg, n, events') == Some(s')
    ensures s' == s.(store := IncIndex(IncGauge(s.store), p.tunnelId), threads := s.threads - {tid})
  {
    s' := Then(cfg, n, events, s, AddGauge(tid));
    events' := events + [AddGauge(tid)];
    s' := Then(cfg, n, events', s', AddIndex(tid));
    events' := events' + [AddIndex(tid)];
    assert s'.threads == s.threads - {tid};
  }

  function Taking(id: Uuid, hand: Hand): Thread {
    Removing(ByClient(Response(id)), [], hand, [], 0)
  }

  /** A response takes its request out of the map. */
  lemma FulfilTakes(cfg: Config, events: seq<Event>, s: State, tid: Tid, id: Uuid)
    returns (events': seq<Event>, s': State)
    requires Run(cfg, 1, events) == Some(s) && tid !in s.threads && id in s.store.requests
    ensures Run(cfg, 1, events') == Some(s')
    ensures s'.store == TakeRequest(s.store, id) && s'.used == s.used && s'.replies == s.replies
    ensures s'.threads == s.threads[tid := Taking(id, Holding(s.store.requests[id], TheGauge))]
  {
    s' := Then(cfg, 1, events, s, SpawnFulfil(tid, Response(id)));
    events' := events + [SpawnFulfil(tid, Response(id))];
    s' := Then(cfg, 1, events', s', Take(tid));
    events' := events' + [Take(tid)];
    assert s'.threads[tid] == Taking(id, Holding(s.store.requests[id], TheGauge));
  }

  /** It settles gauge and index. */
  lemma FulfilSettles(cfg: Config, events: seq<Event>, s: State, tid: Tid, id: Uuid, p: Pending)
    returns (events': seq<Event>, s': State)
    requires Run(cfg, 1, events) == Some(s) && tid in s.threads && s.threads[tid] == Taking(id, Holding(p, TheGauge))
    ensures Run(cfg, 1, events') == Some(s')
    ensures s'.store == DecIndex(DecGauge(s.store), p.tunnelId) && s'.used == s.used && s'.replies == s.replies
    ensures s'.threads ==
      s.threads[tid := Taking(id, Holding(p, if EntryAtZero(s'.store, p.tunnelId) then TheEntry else Nothing))]
  {
    s' := Then(cfg, 1, events, s, SubGauge(tid));
    events' := events + [SubGauge(tid)];
    s' := Then(cfg, 1, events', s', SubIndex(tid));
    events' := events' + [SubIndex(tid)];
  }

  lemma FulfilDrops(cfg: Config, events: seq<Event>, s: State, tid: Tid, id: Uuid, p: Pending)
    returns (events': seq<Event>, s': State)
    requires Run(cfg, 1, events) == Some(s) && tid in s.threads && s.threads[tid] == Taking(id, Holding(p, TheEntry))
    ensures Run(cfg, 1, events') == Some(s')
    ensures s'.store == DropIndex(s.store, p.tunnelId) && s'.used == s.used && s'.replies == s.replies
    ensures s'.threads == s.threads[tid := Taking(id, Holding(p, Nothing))]
  {
    s' := Then(cfg, 1, events, s, DropEntry(tid));
    events' := events + [DropEntry(tid)];
  }

  /** The response answers and returns. */
  lemma FulfilAnswers(cfg: Config, events: seq<Event>, s: State, tid: Tid, id: Uuid, p: Pending)
    returns (events': seq<Event>, s': State)
    requires Run(cfg, 1, events) == Some(s) && tid in s.threads
    requires s.threads[tid] == Taking(id, Holding(p, Nothing))
    ensures Run(cfg, 1, events') == Some(s')
    ensures s'.store == s.store && s'.used == s.used && s'.threads == s.threads - {tid}
    ensures s'.replies == s.replies + [Answer(p, ByClient(Response(id)))]
  {
    s' := Then(cfg, 1, events, s, Deliver(tid));
    events' := events + [Deliver(tid)];
    s' := Then(cfg, 1, events', s', Finish(tid));
    events' := events' + [Finish(tid)];
    assert s'.threads == s.threads - {tid};
  }

  /** The response takes request 1 before its registration counted it, and settles: both decrements find zero. */
  lemma SettledEarly(cfg: Config) returns (events: seq<Event>, s: State)
    requires cfg.maxGlobal >= 1 && cfg.maxPerTunnel >= 1
    ensures Run(cfg, 1, events) == Some(s)
    ensures s.store == EMPTY
    ensures s.threads == map[0 := Gauging(Request(1, 7)), 1 := Taking(1, Holding(Request(1, 7), Nothing))]
  {
    var p;
    p, s := Request(1, 7), START;
    NobodyRegistering(s);
    events, s := RegisterToInsert(cfg, 1, [], s, 0, p);
    events, s := FulfilTakes(cfg, events, s, 1, 1);
    assert s.store == EMPTY;
    events, s := FulfilSettles(cfg, events, s, 1, 1, p);
  }

  /** A response that overtakes its request's bookkeeping leaves one count behind for good: nothing is pending and
      nothing runs, yet gauge and index both say one, and a tunnel limited to one request is full. */
  lemma CountsCanStick(cfg: Config) returns (events: seq<Event>)
    requires cfg.maxGlobal >= 1 && cfg.maxPerTunnel == 1
    ensures Run(cfg, 1, events).Some?
    ensures var s := Run(cfg, 1, events).value;
      && s.threads == map[] && s.store.requests == map[]
      && s.store.gauge == 1 && CountForTunnel(s.store, 7) == cfg.maxPerTunnel
  {
    var s;
    events, s := SettledEarly(cfg);
    events, s := FulfilAnswers(cfg, events, s, 1, 1, Request(1, 7));
    assert s.threads == map[0 := Gauging(Request(1, 7))];
    events, s := RegisterCounts(cfg, 1, events, s, 0, Request(1, 7));
  }

  /** One request registered on tunnel 7, nothing running. */
  lemma OneRegistered(cfg: Config) returns (events: seq<Event>, s: State)
    requires cfg.maxGlobal >= 1 && cfg.maxPerTunnel >= 1
    ensures Run(cfg, 1, events) == Some(s)
    ensures s.store == Store(map[1 := Request(1, 7)], map[7 := 1], 1, 0)
    ensures s.threads == map[] && s.used == {1} && s.replies == []
  {
    NobodyRegistering(START);
    events, s := RegisterToInsert(cfg, 1, [], START, 0, Request(1, 7));
    events, s := RegisterCounts(cfg, 1, events, s, 0, Request(1, 7));
    assert s.threads == map[];
  }

  /** The response to that request stands between decrementing the index and removing its entry. */
  lemma EntryAboutToGo(cfg: Config) returns (events: seq<Event>, s: State)
    requires cfg.maxGlobal >= 1 && cfg.maxPerTunnel >= 1
    ensures Run(cfg, 1, events) == Some(s)
    ensures s.store == Store(map[], map[7 := 0], 0, 0)
    ensures s.threads == map[1 := Taking(1, Holding(Request(1, 7), TheEntry))] && s.used == {1}
  {
    events, s := OneRegistered(cfg);
    events, s := FulfilTakes(cfg, events, s, 1, 1);
    events, s := FulfilSettles(cfg, events, s, 1, 1, Request(1, 7));
  }

  /** A second registration is counted in that entry. */
  lemma CountAdded(cfg: Config) returns (events: seq<Event>, s: State)
    requires cfg.maxGlobal >= 1 && cfg.maxPerTunnel >= 1
    ensures Run(cfg, 1, events) == Some(s)
    ensures s.store == Store(map[2 := Request(2, 7)], map[7 := 1], 1, 0)
    ensures s.threads == map[1 := Taking(1, Holding(Request(1, 7), TheEntry))] && s.used == {1, 2}
  {
    events, s := EntryAboutToGo(cfg);
    NobodyRegistering(s);
    assert {1} + {2} == {1, 2};
    var q, closing := Request(2, 7), Taking(1, Holding(Request(1, 7), TheEntry));
    events, s := RegisterToInsert(cfg, 1, events, s, 0, q);
    assert s.store == Store(map[2 := q], map[7 := 0], 0, 0);
    assert s.threads == map[1 := closing, 0 := Gauging(q)];
    events, s := CountInserted(cfg, events, s, q, closing);
  }

  lemma IncrementOne(s: Store, t: Uuid)
    requires t in s.perTunnel
    ensures IncIndex(s, t).perTunnel == s.perTunnel[t := s.perTunnel[t] + 1]
  {
  }

  lemma CountInserted(cfg: Config, events: seq<Event>, s: State, q: Pending, closing: Thread)
    returns (events': seq<Event>, s': State)
    requires Run(cfg, 1, events) == Some(s) && q.tunnelId == 7
    requires s.store == Store(map[2 := q], map[7 := 0], 0, 0) && s.threads == map[1 := closing, 0 := Gauging(q)]
    ensures Run(cfg, 1, events') == Some(s')
    ensures s'.store == Store(map[2 := q], map[7 := 1], 1, 0) && s'.threads == map[1 := closing] && s'.used == s.used
  {
    events', s' := RegisterCounts(cfg, 1, events, s, 0, q);
    assert s.store.perTunnel.Keys == {7} && s.store.perTunnel[7] == 0;
    IncrementOne(IncGauge(s.store), 7);
    assert s'.store.perTunnel.Keys == {7} && s'.store.perTunnel[7] == 1;
    assert s'.threads == map[1 := closing];
  }

  /** The entry goes, and the count with it. */
  lemma CountDiscarded(cfg: Config) returns (events: seq<Event>, s: State)
    requires cfg.maxGlobal >= 1 && cfg.maxPerTunnel >= 1
    ensures Run(cfg, 1, events) == Some(s)
    ensures s.store == Store(map[2 := Request(2, 7)], map[], 1, 0)
    ensures s.threads == map[1 := Taking(1, Holding(Request(1, 7), Nothing))] && s.used == {1, 2}
  {
    events, s := CountAdded(cfg);
    events, s := FulfilDrops(cfg, events, s, 1, 1, Request(1, 7));
    assert s.store.perTunnel == map[];
  }

  /** Removing an index entry after it reached zero can discard a count added in between: with registrations made
      strictly one at a time, a tunnel limited to one request still gets two. */
  lemma TunnelLimitCanBreak(cfg: Config) returns (events: seq<Event>)
    requires cfg.maxGlobal >= 2 && cfg.maxPerTunnel == 1
    ensures Run(cfg, 1, events).Some?
    ensures C.Count(Run(cfg, 1, events).value.store.requests, OnTunnel(7)) == cfg.maxPerTunnel + 1
  {
    var s;
    events, s := CountDiscarded(cfg);
    NobodyRegistering(s);
    events, s := RegisterToInsert(cfg, 1, events, s, 2, Request(3, 7));
    assert s.store.requests == map[2 := Request(2, 7), 3 := Request(3, 7)];
    assert C.Matching(s.store.requests, OnTunnel(7)) == {2, 3};
  }

  /** A sweep that has collected request 1. */
  const SWEEPING: Thread := Removing(BySweep(0), [1], Empty, [], 1)

  lemma Collected(cfg: Config) returns (events: seq<Event>, s: State)
    requires cfg.maxGlobal >= 1 && cfg.maxPerTunnel >= 1
    ensures Run(cfg, 1, events) == Some(s)
    ensures s.store == Store(map[1 := Request(1, 7)], map[7 := 1], 1, 0)
    ensures s.threads == map[2 := SWEEPING] && s.replies == []
  {
    events, s := OneRegistered(cfg);
    events, s := SweepCollects(cfg, events, s, 2, 1);
  }

  /** Its response takes the request first. */
  lemma CollectedThenTaken(cfg: Config) returns (events: seq<Event>, s: State)
    requires cfg.maxGlobal >= 1 && cfg.maxPerTunnel >= 1
    ensures Run(cfg, 1, events) == Some(s)
    ensures s.store == Store(map[], map[7 := 0], 0, 0) && s.replies == []
    ensures s.threads == map[2 := SWEEPING, 1 := Taking(1, Holding(Request(1, 7), TheEntry))]
  {
    events, s := Collected(cfg);
    events, s := FulfilTakes(cfg, events, s, 1, 1);
    events, s := FulfilSettles(cfg, events, s, 1, 1, Request(1, 7));
  }

  lemma AnsweredMeanwhile(cfg: Config) returns (events: seq<Event>, s: State)
    requires cfg.maxGlobal >= 1 && cfg.maxPerTunnel >= 1
    ensures Run(cfg, 1, events) == Some(s)
    ensures s.store.requests == map[] && s.store.expiredTotal == 0
    ensures s.threads == map[2 := SWEEPING] && s.replies == [Answer(Request(1, 7), ByClient(Response(1)))]
  {
    events, s := CollectedThenTaken(cfg);
    events, s := FulfilDrops(cfg, events, s, 1, 1, Request(1, 7));
    events, s := FulfilAnswers(cfg, events, s, 1, 1, Request(1, 7));
    assert s.threads == map[2 := SWEEPING];
  }

  /** A sweeper counts the ids it collected, not the requests it answered: one that loses its only id to a
      response still counts one expiry, and no request was ever answered 504. */
  lemma ExpiryCanOvercount(cfg: Config) returns (events: seq<Event>)
    requires cfg.maxGlobal >= 1 && cfg.maxPerTunnel >= 1
    ensures Run(cfg, 1, events).Some?
    ensures var s := Run(cfg, 1, events).value;
      s.threads == map[] && s.store.expiredTotal == 1 && s.replies == [Answer(Request(1, 7), ByClient(Response(1)))]
  {
    var s;
    events, s := AnsweredMeanwhile(cfg);
    events, s := SweepMisses(cfg, events, s, 2, 1);
    assert s.threads == map[];
  }

  /** A sweep collects one expired id. */
  lemma SweepCollects(cfg: Config, events: seq<Event>, s: State, tid: Tid, id: Uuid)
    returns (events': seq<Event>, s': State)
    requires Run(cfg, 1, events) == Some(s) && tid !in s.threads
    requires id in s.store.requests && s.store.requests[id].deadline == 0
    requires forall k :: k in s.store.requests && s.store.requests[k].deadline == 0 ==> k == id
    ensures Run(cfg, 1, events') == Some(s')
    ensures s'.store == s.store && s'.used == s.used && s'.replies == s.replies
    ensures s'.threads == s.threads[tid := Removing(BySweep(0), [id], Empty, [], 1)]
  {
    s' := Then(cfg, 1, events, s, SpawnCollect(tid, BySweep(0)));
    events' := events + [SpawnCollect(tid, BySweep(0))];
    s' := Moves(cfg, 1, events', s', Collect(tid, id), Collecting(BySweep(0), [] + [id]));
    events' := events' + [Collect(tid, id)];
    assert [] + [id] == [id];
    C.Overwrite(s.threads, tid, Collecting(BySweep(0), []), Collecting(BySweep(0), [id]));
    s' := Moves(cfg, 1, events', s', EndCollect(tid), Removing(BySweep(0), [id], Empty, [], 1));
    events' := events' + [EndCollect(tid)];
    C.Overwrite(s.threads, tid, Collecting(BySweep(0), [id]), Removing(BySweep(0), [id], Empty, [], 1));
  }

  /** It finds the id gone, and returns. */
  lemma SweepMisses(cfg: Config, events: seq<Event>, s: State, tid: Tid, id: Uuid)
    returns (events': seq<Event>, s': State)
    requires Run(cfg, 1, events) == Some(s) && tid in s.threads && id !in s.store.requests
    requires s.threads[tid] == Removing(BySweep(0), [id], Empty, [], 1)
    ensures Run(cfg, 1, events') == Some(s')
    ensures s'.store == AddExpired(s.store, 1) && s'.replies == s.replies && s'.threads == s.threads - {tid}
  {
    s' := Then(cfg, 1, events, s, Take(tid));
    events' := events + [Take(tid)];
    s' := Then(cfg, 1, events', s', Finish(tid));
    events' := events' + [Finish(tid)];
    assert s'.threads == s.threads - {tid};
  }

  // ---- the global bound is reached ----

  /** Request `id` on a tunnel of its own. */
  function Own(id: nat): Pending {
    Request(id, id)
  }

  /** `k` requests registered one after the other, nothing running; ids and tunnels from `k` on are unused. */
  lemma {:induction false} Fill(cfg: Config, n: nat, k: nat) returns (events: seq<Event>, s: State)
    requires n >= 1 && cfg.maxPerTunnel >= 1 && k <= cfg.maxGlobal
    ensures Run(cfg, n, events) == Some(s) && s.threads == map[] && |s.store.requests| == k
    ensures forall id :: id in s.store.requests || id in s.store.perTunnel || id in s.used ==> id < k
  {
    if k == 0 {
      events, s := [], START;
    } else {
      events, s := Fill(cfg, n, k - 1);
      C.CountEmpty<Tid, Thread>(Registering());
      var requests := s.store.requests;
      C.SizeUpdate(requests, k - 1, Own(k - 1));
      events, s := RegisterToInsert(cfg, n, events, s, 0, Own(k - 1));
      events, s := RegisterCounts(cfg, n, events, s, 0, Own(k - 1));
      assert s.threads == map[];
    }
  }

  /** Admitted registrations, one for each id from `base` on. */
  function Admitted(base: nat, k: nat): map<Tid, Thread> {
    map tid | base <= tid < base + k :: Inserting(Own(tid))
  }

  lemma {:induction false} AdmittedGrows(base: nat, k: nat)
    ensures Admitted(base, k)[base + k := Inserting(Own(base + k))] == Admitted(base, k + 1)
    ensures |Admitted(base, k)| == k
  {
    if k == 0 {
      assert Admitted(base, 0) == map[];
    } else {
      AdmittedGrows(base, k - 1);
      C.SizeUpdate(Admitted(base, k - 1), base + k - 1, Inserting(Own(base + k - 1)));
    }
  }

  /** `base` requests pending and `k` registrations admitted; ids and tunnels further on are unused. */
  ghost predicate Crowded(s: State, base: nat, k: nat) {
    && |s.store.requests| == base && s.threads == Admitted(base, k)
    && (forall id :: id in s.store.requests || id in s.store.perTunnel ==> id < base)
    && (forall id :: id in s.used ==> id < base + k)
  }

  lemma OneMore(s: State, base: nat, k: nat) returns (after: State)
    requires Crowded(s, base, k)
    ensures var tid := base + k;
      && tid !in s.threads && tid !in s.used && CountForTunnel(s.store, tid) == 0
      && C.Count(s.threads, Registering()) <= k
      && after == s.(threads := s.threads[tid := Inserting(Own(tid))], used := s.used + {tid})
    ensures Crowded(after, base, k + 1)
  {
    var tid := base + k;
    AdmittedGrows(base, k);
    C.CountAtMostSize(s.threads, Registering());
    after := s.(threads := s.threads[tid := Inserting(Own(tid))], used := s.used + {tid});
  }

  lemma AdmitOwn(cfg: Config, n: nat, events: seq<Event>, s: State, id: nat, after: State) returns (events': seq<Event>)
    requires Run(cfg, n, events) == Some(s) && id !in s.threads && id !in s.used
    requires C.Count(s.threads, Registering()) < n && CountForTunnel(s.store, id) == 0
    requires |s.store.requests| < cfg.maxGlobal && cfg.maxPerTunnel >= 1
    requires after == s.(threads := s.threads[id := Inserting(Own(id))], used := s.used + {id})
    ensures Run(cfg, n, events') == Some(after)
  {
    var s';
    events', s' := RegisterAdmitted(cfg, n, events, s, id, Own(id));
  }

  /** `k` more registrations, all admitted before any of them inserts. */
  lemma {:induction false} Crowd(cfg: Config, n: nat, k: nat) returns (events: seq<Event>, s: State)
    requires 1 <= cfg.maxGlobal && cfg.maxPerTunnel >= 1 && k <= n && n >= 1
    ensures Run(cfg, n, events) == Some(s) && Crowded(s, cfg.maxGlobal - 1, k)
  {
    var base := cfg.maxGlobal - 1;
    if k == 0 {
      events, s := Fill(cfg, n, base);
      assert s.threads == Admitted(base, 0);
    } else {
      events, s := Crowd(cfg, n, k - 1);
      var after := OneMore(s, base, k - 1);
      events := AdmitOwn(cfg, n, events, s, base + k - 1, after);
      s := after;
    }
  }

  /** The first `k` of them insert. */
  lemma {:induction false} Rush(cfg: Config, n: nat, k: nat) returns (events: seq<Event>, s: State)
    requires 1 <= cfg.maxGlobal && cfg.maxPerTunnel >= 1 && k <= n && n >= 1
    ensures var base := cfg.maxGlobal - 1;
      && Run(cfg, n, events) == Some(s) && |s.store.requests| == base + k
      && (forall id :: id in s.store.requests ==> id < base + k)
      && (forall tid :: base + k <= tid < base + n ==> tid in s.threads && s.threads[tid] == Inserting(Own(tid)))
  {
    var base := cfg.maxGlobal - 1;
    if k == 0 {
      events, s := Crowd(cfg, n, n);
    } else {
      events, s := Rush(cfg, n, k - 1);
      var tid := base + k - 1;
      C.SizeUpdate(s.store.requests, tid, Own(tid));
      var s' := Inserts(cfg, n, events, s, tid, Own(tid));
      events, s := events + [Insert(tid)], s';
    }
  }

  /** With n registrations in flight the map can hold exactly n - 1 requests more than its limit. */
  lemma GlobalBoundIsReached(cfg: Config, n: nat) returns (events: seq<Event>)
    requires cfg.maxGlobal >= 1 && cfg.maxPerTunnel >= 1 && n >= 1
    ensures Run(cfg, n, events).Some?
    ensures |Run(cfg, n, events).value.store.requests| == cfg.maxGlobal + n - 1
  {
    var s;
    events, s := Rush(cfg, n, n);
  }
}
