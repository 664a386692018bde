/** The pending-request store under concurrency: every operation on a shared map or counter is one step, and
    the steps of any number of registrations, responses, closings and sweeps interleave arbitrarily. */
module Interleavings {
  import opened Protocol
  import opened Counting
  import opened PendingOps

  type Tid = nat

  /** What a remover has still to do for the request it just took. */
  datatype Owes = TheGauge | TheIndex | TheEntry | Nothing

  datatype Hand = Empty | Holding(p: Pending, owes: Owes)

  datatype Thread =
    | Checking(p: Pending)    // has not read the size of the map
    | Counting(p: Pending)    // admitted globally, has not read the tunnel's count
    | Inserting(p: Pending)   // admitted, has not inserted
    | Gauging(p: Pending)     // inserted, has not incremented the gauge
    | Indexing(p: Pending)    // has not incremented the index
    | Collecting(cause: Answerer, todo: seq<Uuid>)
    | Removing(cause: Answerer, todo: seq<Uuid>, hand: Hand, drained: seq<Pending>, collected: nat)

  /** Where a registered request is. */
  datatype Place = InMap | With(tid: Tid) | Done

  /** Updates of the counters that took no effect. */
  datatype Losses = Losses(
    saturated: nat,            // gauge decrements that found zero
    skipped: multiset<Uuid>,   // index decrements that found no count
    dropped: multiset<Uuid>)   // counts discarded with an entry

  /** Shared store, running methods, the log of sends, and what each walk over the map is looking for; the rest is
      history: the requests registered and where each is, the ids in use, and the updates lost. */
  datatype State = State(
    store: Store, threads: map<Tid, Thread>, replies: seq<Reply>, due: map<Tid, set<Uuid>>,
    registered: map<Uuid, Pending>, place: map<Uuid, Place>, used: set<Uuid>, lost: Losses)

  const START: State := State(EMPTY, map[], [], map[], map[], map[], {}, Losses(0, multiset{}, multiset{}))

  datatype Event =
    | SpawnRegister(tid: Tid, p: Pending)
    | ReadLen(tid: Tid)
    | ReadCount(tid: Tid)
    | Insert(tid: Tid)
    | AddGauge(tid: Tid)
    | AddIndex(tid: Tid)
    | SpawnFulfil(tid: Tid, response: Message)
    | SpawnCollect(tid: Tid, cause: Answerer)
    | Collect(tid: Tid, id: Uuid)
    | EndCollect(tid: Tid)
    | Take(tid: Tid)
    | SubGauge(tid: Tid)
    | SubIndex(tid: Tid)
    | DropEntry(tid: Tid)
    | Deliver(tid: Tid)
    | Flush(tid: Tid)
    | Finish(tid: Tid)

  function Registering(): Thread -> bool {
    (th: Thread) => th.Checking? || th.Counting? || th.Inserting? || th.Gauging? || th.Indexing?
  }

  predicate Holds(th: Thread, owes: Owes) {
    th.Removing? && th.hand.Holding? && th.hand.owes == owes
  }

  /** The pending requests a walk over the map is looking for. */
  ghost function Due(s: State, cause: Answerer): set<Uuid> {
    set k | k in s.store.requests && MayAnswer(s.store.requests[k], cause)
  }

  /** At most `n` registrations are ever in flight; request ids are fresh. A walk over the map may or may not meet
      what is inserted meanwhile, but meets what stays in the map throughout. */
  ghost predicate Enabled(n: nat, s: State, e: Event) {
    match e
    case SpawnRegister(tid, p) =>
      tid !in s.threads && Count(s.threads, Registering()) < n
      && p.requestId !in s.used && p.sender == p.requestId
    case ReadLen(tid) => tid in s.threads && s.threads[tid].Checking?
    case ReadCount(tid) => tid in s.threads && s.threads[tid].Counting?
    case Insert(tid) => tid in s.threads && s.threads[tid].Inserting?
    case AddGauge(tid) => tid in s.threads && s.threads[tid].Gauging?
    case AddIndex(tid) => tid in s.threads && s.threads[tid].Indexing?
    case SpawnFulfil(tid, response) => tid !in s.threads && response.HttpResponse?
    case SpawnCollect(tid, cause) => tid !in s.threads && !cause.ByClient?
    case Collect(tid, id) =>
      tid in s.threads && s.threads[tid].Collecting? && id in s.store.requests
      && MayAnswer(s.store.requests[id], s.threads[tid].cause)
    case EndCollect(tid) =>
      tid in s.threads && s.threads[tid].Collecting?
      && (tid in s.due ==> forall k :: k in s.due[tid] && k in s.store.requests ==> k in s.threads[tid].todo)
    case Take(tid) =>
      tid in s.threads && s.threads[tid].Removing? && s.threads[tid].hand == Empty && s.threads[tid].todo != []
    case SubGauge(tid) => tid in s.threads && Holds(s.threads[tid], TheGauge)
    case SubIndex(tid) => tid in s.threads && Holds(s.threads[tid], TheIndex)
    case DropEntry(tid) => tid in s.threads && Holds(s.threads[tid], TheEntry)
    case Deliver(tid) => tid in s.threads && Holds(s.threads[tid], Nothing)
    case Flush(tid) =>
      tid in s.threads && s.threads[tid].Removing? && s.threads[tid].hand == Empty && s.threads[tid].todo == []
      && s.threads[tid].drained != []
    case Finish(tid) =>
      tid in s.threads && s.threads[tid].Removing? && s.threads[tid].hand == Empty && s.threads[tid].todo == []
      && s.threads[tid].drained == []
  }

  function Put(s: State, tid: Tid, th: Thread): State {
    s.(threads := s.threads[tid := th])
  }

  function End(s: State, tid: Tid): State {
    s.(threads := s.threads - {tid})
  }

  /** Send the answer for `p` on its channel. */
  function Send(s: State, p: Pending, cause: Answerer): State {
    s.(replies := s.replies + [Answer(p, cause)], place := s.place[p.sender := Done])
  }

  predicate OfRegistration(e: Event) {
    e.SpawnRegister? || e.ReadLen? || e.ReadCount? || e.Insert? || e.AddGauge? || e.AddIndex?
  }

  /** The steps of `register_pending_request`. */
  ghost function RegistrationStep(cfg: Config, n: nat, s: State, e: Event): State
    requires Enabled(n, s, e) && OfRegistration(e)
  {
    var tid := e.tid;
    match e
    case SpawnRegister(_, p) => Put(s, tid, Checking(p)).(used := s.used + {p.requestId})
    case ReadLen(_) =>
      if |s.store.requests| >= cfg.maxGlobal then End(s, tid) else Put(s, tid, Counting(s.threads[tid].p))
    case ReadCount(_) =>
      var p := s.threads[tid].p;
      if CountForTunnel(s.store, p.tunnelId) >= cfg.maxPerTunnel then End(s, tid) else Put(s, tid, Inserting(p))
    case Insert(_) =>
      var p := s.threads[tid].p;
      Put(s, tid, Gauging(p)).(store := PutRequest(s.store, p),
        registered := s.registered[p.requestId := p], place := s.place[p.requestId := InMap])
    case AddGauge(_) => Put(s, tid, Indexing(s.threads[tid].p)).(store := IncGauge(s.store))
    case AddIndex(_) => End(s, tid).(store := IncIndex(s.store, s.threads[tid].p.tunnelId))
  }

  /** The steps of responses, closings and sweeps. */
  ghost function RemovalStep(n: nat, s: State, e: Event): State
    requires Enabled(n, s, e) && !OfRegistration(e)
  {
    var tid := e.tid;
    match e
    case SpawnFulfil(_, response) => Put(s, tid, Removing(ByClient(response), [response.id], Empty, [], 0))
    case SpawnCollect(_, cause) => Put(s, tid, Collecting(cause, [])).(due := s.due[tid := Due(s, cause)])
    case Collect(_, id) => Put(s, tid, s.threads[tid].(todo := s.threads[tid].todo + [id]))
    case EndCollect(_) =>
      var th := s.threads[tid];
      Put(s, tid, Removing(th.cause, th.todo, Empty, [], |th.todo|))
    case Take(_) =>
      var th := s.threads[tid];
      var id, rest := th.todo[0], th.todo[1..];
      if id in s.store.requests then
        Put(s, tid, th.(todo := rest, hand := Holding(s.store.requests[id], TheGauge)))
          .(store := TakeRequest(s.store, id), place := s.place[id := With(tid)])
      else Put(s, tid, th.(todo := rest))
    case SubGauge(_) =>
      var th := s.threads[tid];
      Put(s, tid, th.(hand := Holding(th.hand.p, TheIndex)))
        .(store := DecGauge(s.store), lost := s.lost.(saturated := s.lost.saturated + if s.store.gauge == 0 then 1 else 0))
    case SubIndex(_) =>
      var th := s.threads[tid];
      var t := th.hand.p.tunnelId;
      var store' := DecIndex(s.store, t);
      Put(s, tid, th.(hand := Holding(th.hand.p, if EntryAtZero(store', t) then TheEntry else Nothing)))
        .(store := store',
          lost := if CountForTunnel(s.store, t) == 0 then s.lost.(skipped := s.lost.skipped + multiset{t}) else s.lost)
    case DropEntry(_) =>
      var th := s.threads[tid];
      var t := th.hand.p.tunnelId;
      Put(s, tid, th.(hand := Holding(th.hand.p, Nothing)))
        .(store := DropIndex(s.store, t), lost := s.lost.(dropped := s.lost.dropped[t := s.lost.dropped[t] + CountForTunnel(s.store, t)]))
    case Deliver(_) =>
      var th := s.threads[tid];
      if th.cause.ByClose? then Put(s, tid, th.(hand := Empty, drained := th.drained + [th.hand.p]))
      else Send(Put(s, tid, th.(hand := Empty)), th.hand.p, th.cause)
    case Flush(_) =>
      var th := s.threads[tid];
      Send(Put(s, tid, th.(drained := th.drained[1..])), th.drained[0], th.cause)
    case Finish(_) =>
      var th := s.threads[tid];
      End(s, tid).(store := if th.cause.BySweep? then AddExpired(s.store, th.collected) else s.store)
  }

  ghost function Step(cfg: Config, n: nat, s: State, e: Event): State
    requires Enabled(n, s, e)
  {
    if OfRegistration(e) then RegistrationStep(cfg, n, s, e) else RemovalStep(n, s, e)
  }

  /** `s'` follows `s` by event `e`. */
  ghost predicate Next(cfg: Config, n: nat, s: State, e: Event, s': State) {
    Enabled(n, s, e) && s' == Step(cfg, n, s, e)
  }

  /** The state after a run, if every event was enabled when it happened. */
  ghost function Run(cfg: Config, n: nat, events: seq<Event>): Option<State> {
    if events == [] then Some(START) else
      match Run(cfg, n, events[..|events| - 1])
      case None => None
      case Some(s) =>
        var e := events[|events| - 1];
        if Enabled(n, s, e) then Some(Step(cfg, n, s, e)) else None
  }

  /** A step changes at most its own thread. */
  lemma OneThread(cfg: Config, n: nat, s: State, e: Event, s': State)
    requires Next(cfg, n, s, e, s')
    ensures
      if e.tid in s'.threads then s'.threads == s.threads[e.tid := s'.threads[e.tid]]
      else s'.threads == s.threads - {e.tid}
  {
    if OfRegistration(e) {
      OneThreadRegisters(cfg, n, s, e, s');
    } else {
      OneThreadRemoves(cfg, n, s, e, s');
    }
  }

  lemma OneThreadRegisters(cfg: Config, n: nat, s: State, e: Event, s': State)
    requires Next(cfg, n, s, e, s') && OfRegistration(e)
    ensures
      if e.tid in s'.threads then s'.threads == s.threads[e.tid := s'.threads[e.tid]]
      else s'.threads == s.threads - {e.tid}
  {
  }

  lemma OneThreadRemoves(cfg: Config, n: nat, s: State, e: Event, s': State)
    requires Next(cfg, n, s, e, s') && !OfRegistration(e)
    ensures
      if e.tid in s'.threads then s'.threads == s.threads[e.tid := s'.threads[e.tid]]
      else s'.threads == s.threads - {e.tid}
  {
  }

  // ---- answer safety: every request is in one place ----

  ghost predicate BeforeInsert(th: Thread) {
    th.Checking? || th.Counting? || th.Inserting?
  }

  /** A thread has `k` in hand or among its drained requests. */
  ghost predicate Has(th: Thread, k: Uuid) {
    th.Removing? && ((th.hand.Holding? && th.hand.p.requestId == k) || exists p :: p in th.drained && p.requestId == k)
  }

  ghost predicate TodoOk(registered: map<Uuid, Pending>, cause: Answerer, k: Uuid) {
    match cause
    case ByClient(response) => response.HttpResponse? && k == response.id
    case _ => k in registered && MayAnswer(registered[k], cause)
  }

  /** A request held by thread `tid`: unchanged since its registration, and the thread may answer it. */
  ghost predicate HeldOk(s: State, tid: Tid, p: Pending, cause: Answerer) {
    && p.requestId in s.registered && s.registered[p.requestId] == p
    && p.requestId in s.place && s.place[p.requestId] == With(tid)
    && MayAnswer(p, cause)
  }

  ghost predicate ThreadOk(s: State, tid: Tid, th: Thread) {
    match th
    case Collecting(cause, todo) => !cause.ByClient? && forall k :: k in todo ==> TodoOk(s.registered, cause, k)
    case Removing(cause, todo, hand, drained, _) =>
      && (forall k :: k in todo ==> TodoOk(s.registered, cause, k))
      && (hand.Holding? ==> HeldOk(s, tid, hand.p, cause))
      && (forall p :: p in drained ==> HeldOk(s, tid, p, cause))
      && (forall i, j :: 0 <= i < j < |drained| ==> drained[i].requestId != drained[j].requestId)
      && (hand.Holding? ==> forall p :: p in drained ==> p.requestId != hand.p.requestId)
    case Gauging(_) => true
    case Indexing(_) => true
    case _ => th.p.sender == th.p.requestId && th.p.requestId in s.used && th.p.requestId !in s.registered
  }

  ghost predicate ThreadsOk(s: State) {
    && (forall tid :: tid in s.threads ==> ThreadOk(s, tid, s.threads[tid]))
    && (forall a, b :: a in s.threads && b in s.threads && a != b
          && BeforeInsert(s.threads[a]) && BeforeInsert(s.threads[b])
          ==> s.threads[a].p.requestId != s.threads[b].p.requestId)
  }

  ghost predicate PlacesOk(s: State) {
    && s.place.Keys == s.registered.Keys && s.registered.Keys <= s.used
    && (forall k :: k in s.registered ==> s.registered[k].requestId == k && s.registered[k].sender == k)
    && (forall k :: k in s.store.requests ==>
          k in s.registered && s.registered[k] == s.store.requests[k] && s.place[k] == InMap)
    && (forall k :: k in s.place && s.place[k] == InMap ==> k in s.store.requests)
    && (forall k :: k in s.place && s.place[k].With? ==>
          s.place[k].tid in s.threads && Has(s.threads[s.place[k].tid], k))
  }

  ghost predicate RepliesOk(s: State) {
    && (forall r :: r in s.replies ==> Justified(s.registered, r) && r.channel in s.place && s.place[r.channel] == Done)
    && OneReplyEach(s.replies)
    && (forall k :: k in s.place && s.place[k] == Done ==> Answered(s.replies, k))
  }

  ghost predicate Safe(s: State) {
    ThreadsOk(s) && PlacesOk(s) && RepliesOk(s)
  }

  /** A step that only changes what its own thread has left to do. */
  ghost predicate LocalChange(s: State, s': State, tid: Tid) {
    && s'.store.requests == s.store.requests && s'.registered == s.registered && s'.place == s.place
    && s'.replies == s.replies && s.used <= s'.used
    && s'.threads - {tid} == s.threads - {tid}
    && (tid in s'.threads ==> ThreadOk(s', tid, s'.threads[tid]))
    && (forall k :: tid in s.threads && Has(s.threads[tid], k) ==> tid in s'.threads && Has(s'.threads[tid], k))
    && (tid in s'.threads && BeforeInsert(s'.threads[tid]) ==>
          var id := s'.threads[tid].p.requestId;
          id !in s.used || (tid in s.threads && BeforeInsert(s.threads[tid]) && id == s.threads[tid].p.requestId))
  }

  lemma LocalSafe(s: State, s': State, tid: Tid)
    requires Safe(s) && LocalChange(s, s', tid)
    ensures Safe(s')
  {
    forall a | a in s'.threads ensures ThreadOk(s', a, s'.threads[a]) {
      if a != tid {
        assert a in s'.threads - {tid};
        assert s'.threads[a] == s.threads[a];
        assert ThreadOk(s, a, s.threads[a]);
      }
    }
    forall a, b | a in s'.threads && b in s'.threads && a != b
          && BeforeInsert(s'.threads[a]) && BeforeInsert(s'.threads[b])
      ensures s'.threads[a].p.requestId != s'.threads[b].p.requestId
    {
      assert a != tid ==> a in s'.threads - {tid} && s'.threads[a] == s.threads[a] && ThreadOk(s, a, s.threads[a]);
      assert b != tid ==> b in s'.threads - {tid} && s'.threads[b] == s.threads[b] && ThreadOk(s, b, s.threads[b]);
    }
    forall k | k in s'.place && s'.place[k].With?
      ensures s'.place[k].tid in s'.threads && Has(s'.threads[s'.place[k].tid], k)
    {
      if s.place[k].tid != tid {
        assert s.place[k].tid in s.threads - {tid};
      }
    }
  }

  lemma OtherThreadOk(s: State, s': State, a: Tid, tid: Tid)
    requires a in s.threads && a != tid && ThreadOk(s, a, s.threads[a])
    requires forall k :: k in s.registered ==> k in s'.registered && s'.registered[k] == s.registered[k]
    requires forall k :: k in s.place && s.place[k] == With(a) ==> k in s'.place && s'.place[k] == With(a)
    requires s.used <= s'.used
    requires BeforeInsert(s.threads[a]) ==> s.threads[a].p.requestId !in s'.registered
    ensures ThreadOk(s', a, s.threads[a])
  {
  }

  /** A request that enters the map, or leaves it for a thread, answers nothing. */
  lemma PlaceReplies(s: State, s': State, k: Uuid, place: Place)
    requires RepliesOk(s) && s'.replies == s.replies && s'.place == s.place[k := place] && place != Done
    requires k in s.place ==> s.place[k] != Done
    requires forall j :: j in s.registered && j in s.place ==> j in s'.registered && s'.registered[j] == s.registered[j]
    ensures RepliesOk(s')
  {
    forall r | r in s'.replies ensures Justified(s'.registered, r) && r.channel in s'.place && s'.place[r.channel] == Done {
      assert Justified(s.registered, r);
    }
  }

  lemma InsertThreads(cfg: Config, n: nat, s: State, tid: Tid, s': State)
    requires ThreadsOk(s) && Next(cfg, n, s, Insert(tid), s') && s.registered.Keys == s.place.Keys
    ensures ThreadsOk(s')
  {
    assert ThreadOk(s, tid, s.threads[tid]);
    forall a | a in s'.threads ensures ThreadOk(s', a, s'.threads[a]) {
      if a != tid {
        OtherThreadOk(s, s', a, tid);
      }
    }
  }

  lemma InsertPlaces(cfg: Config, n: nat, s: State, tid: Tid, s': State)
    requires PlacesOk(s) && Next(cfg, n, s, Insert(tid), s') && ThreadOk(s, tid, s.threads[tid])
    ensures PlacesOk(s')
  {
    forall k | k in s'.place && s'.place[k].With?
      ensures s'.place[k].tid in s'.threads && Has(s'.threads[s'.place[k].tid], k)
    {
      assert k in s.place && s.place[k] == s'.place[k];
    }
  }

  lemma InsertSafe(cfg: Config, n: nat, s: State, tid: Tid, s': State)
    requires Safe(s) && Next(cfg, n, s, Insert(tid), s')
    ensures Safe(s')
  {
    assert ThreadOk(s, tid, s.threads[tid]);
    InsertThreads(cfg, n, s, tid, s');
    InsertPlaces(cfg, n, s, tid, s');
    PlaceReplies(s, s', s.threads[tid].p.requestId, InMap);
  }

  lemma TakeThreads(cfg: Config, n: nat, s: State, tid: Tid, s': State)
    requires ThreadsOk(s) && Next(cfg, n, s, Take(tid), s')
    requires var id := s.threads[tid].todo[0];
      && id in s.store.requests && id in s.registered && s.registered[id] == s.store.requests[id]
      && s.registered[id].requestId == id && id in s.place && s.place[id] == InMap
    ensures ThreadsOk(s')
  {
    var th := s.threads[tid];
    assert ThreadOk(s, tid, th);
    forall a | a in s'.threads ensures ThreadOk(s', a, s'.threads[a]) {
      if a != tid {
        OtherThreadOk(s, s', a, tid);
      } else {
        TakenThreadOk(s, s', tid);
      }
    }
  }

  /** The thread that took a request holds it, and may answer it. */
  lemma TakenThreadOk(s: State, s': State, tid: Tid)
    requires tid in s.threads && ThreadOk(s, tid, s.threads[tid])
    requires s.threads[tid].Removing? && s.threads[tid].hand == Empty && s.threads[tid].todo != []
    requires var id := s.threads[tid].todo[0];
      && id in s.registered && s.registered[id].requestId == id && id in s.place && s.place[id] == InMap
      && s'.registered == s.registered && s'.place == s.place[id := With(tid)]
    ensures var th := s.threads[tid];
      ThreadOk(s', tid, th.(todo := th.todo[1..], hand := Holding(s.registered[th.todo[0]], TheGauge)))
  {
    var th := s.threads[tid];
    assert TodoOk(s.registered, th.cause, th.todo[0]);
    assert forall q :: q in th.drained ==> HeldOk(s, tid, q, th.cause) && q.requestId != th.todo[0];
    assert forall k :: k in th.todo[1..] ==> k in th.todo;
  }

  lemma TakePlaces(cfg: Config, n: nat, s: State, tid: Tid, s': State)
    requires PlacesOk(s) && Next(cfg, n, s, Take(tid), s')
    requires s.threads[tid].todo[0] in s.store.requests
    ensures PlacesOk(s')
  {
    var th := s.threads[tid];
    var id := th.todo[0];
    assert s.registered[id] == s.store.requests[id];
    forall k | k in s'.place && s'.place[k].With?
      ensures s'.place[k].tid in s'.threads && Has(s'.threads[s'.place[k].tid], k)
    {
      if k != id {
        assert Has(s.threads[s.place[k].tid], k);
      }
    }
  }

  lemma TakeSafe(cfg: Config, n: nat, s: State, tid: Tid, s': State)
    requires Safe(s) && Next(cfg, n, s, Take(tid), s')
    requires s.threads[tid].todo[0] in s.store.requests
    ensures Safe(s')
  {
    assert s.registered[s.threads[tid].todo[0]] == s.store.requests[s.threads[tid].todo[0]];
    TakeThreads(cfg, n, s, tid, s');
    TakePlaces(cfg, n, s, tid, s');
    PlaceReplies(s, s', s.threads[tid].todo[0], With(tid));
  }

  lemma SendThreads(s: State, tid: Tid, th': Thread, p: Pending, s': State)
    requires ThreadsOk(s) && tid in s.threads && th'.Removing?
    requires ThreadOk(s, tid, th') && !Has(th', p.requestId) && p.requestId in s.place && s.place[p.requestId] == With(tid)
    requires s'.threads == s.threads[tid := th'] && s'.place == s.place[p.requestId := Done]
    requires s'.registered == s.registered && s'.used == s.used
    ensures ThreadsOk(s')
  {
    forall a | a in s'.threads ensures ThreadOk(s', a, s'.threads[a]) {
      if a != tid {
        OtherThreadOk(s, s', a, tid);
      } else {
        assert forall q :: q in th'.drained ==> q.requestId != p.requestId;
      }
    }
  }

  /** Releasing a held request by sending its answer. */
  lemma SendSafe(s: State, tid: Tid, th': Thread, p: Pending, s': State)
    requires Safe(s) && tid in s.threads && s.threads[tid].Removing? && th'.Removing?
    requires HeldOk(s, tid, p, s.threads[tid].cause)
    requires ThreadOk(s, tid, th') && !Has(th', p.requestId)
    requires forall k :: Has(s.threads[tid], k) && k != p.requestId ==> Has(th', k)
    requires s' == Send(Put(s, tid, th'), p, s.threads[tid].cause)
    ensures Safe(s')
  {
    assert p.sender == p.requestId;
    SendThreads(s, tid, th', p, s');
    SendPlaces(s, tid, th', p);
    SendReplies(s, s', p, s.threads[tid].cause);
  }

  lemma SendPlaces(s: State, tid: Tid, th': Thread, p: Pending)
    requires PlacesOk(s) && tid in s.threads
    requires p.requestId in s.registered && s.registered[p.requestId] == p && s.place[p.requestId] == With(tid)
    requires forall k :: Has(s.threads[tid], k) && k != p.requestId ==> Has(th', k)
    ensures PlacesOk(Send(Put(s, tid, th'), p, s.threads[tid].cause)) || !s.threads[tid].Removing?
  {
    if s.threads[tid].Removing? {
      var s' := Send(Put(s, tid, th'), p, s.threads[tid].cause);
      forall k | k in s'.place && s'.place[k].With?
        ensures s'.place[k].tid in s'.threads && Has(s'.threads[s'.place[k].tid], k)
      {
        assert k != p.requestId && s.place[k] == s'.place[k];
      }
    }
  }

  lemma SendReplies(s: State, s': State, p: Pending, cause: Answerer)
    requires PlacesOk(s) && RepliesOk(s)
    requires p.requestId in s.registered && s.registered[p.requestId] == p && s.place[p.requestId].With?
    requires MayAnswer(p, cause)
    requires s'.replies == s.replies + [Answer(p, cause)] && s'.registered == s.registered
    requires s'.place == s.place[p.sender := Done]
    ensures RepliesOk(s')
  {
    var r := Answer(p, cause);
    assert Justified(s.registered, r) && r.channel == p.requestId;
    forall i, j | 0 <= i < j < |s'.replies| ensures s'.replies[i].channel != s'.replies[j].channel {
      if j == |s.replies| {
        assert s.replies[i] in s.replies;
      }
    }
    forall k | k in s'.place && s'.place[k] == Done ensures Answered(s'.replies, k) {
      if k == p.requestId {
        assert s'.replies[|s.replies|].channel == k;
      } else {
        var i :| 0 <= i < |s.replies| && s.replies[i].channel == k;
        assert s'.replies[i].channel == k;
      }
    }
  }

  /** A request drained by a closing stays with its thread. */
  lemma DrainLocal(cfg: Config, n: nat, s: State, tid: Tid, s': State)
    requires Next(cfg, n, s, Deliver(tid), s') && ThreadOk(s, tid, s.threads[tid]) && s.threads[tid].cause.ByClose?
    ensures LocalChange(s, s', tid)
  {
    var th := s.threads[tid];
    var th' := s'.threads[tid];
    assert th.hand.p in th'.drained;
    forall k | Has(th, k) ensures Has(th', k) {
      if k != th.hand.p.requestId {
        var p :| p in th.drained && p.requestId == k;
        assert p in th'.drained;
      }
    }
    assert s'.threads - {tid} == s.threads - {tid};
  }

  lemma AnswerSafe(cfg: Config, n: nat, s: State, tid: Tid, s': State)
    requires Safe(s) && Next(cfg, n, s, Deliver(tid), s') && !s.threads[tid].cause.ByClose?
    ensures Safe(s')
  {
    assert ThreadOk(s, tid, s.threads[tid]);
    SendSafe(s, tid, s.threads[tid].(hand := Empty), s.threads[tid].hand.p, s');
  }

  /** A closing that gives up its first drained request still holds the others, and only those. */
  lemma FlushedThread(s: State, tid: Tid, th: Thread)
    requires ThreadOk(s, tid, th) && th.Removing? && th.hand == Empty && th.drained != []
    ensures var th', p := th.(drained := th.drained[1..]), th.drained[0];
      && ThreadOk(s, tid, th') && HeldOk(s, tid, p, th.cause) && !Has(th', p.requestId)
      && forall k :: Has(th, k) && k != p.requestId ==> Has(th', k)
  {
    var th', p := th.(drained := th.drained[1..]), th.drained[0];
    assert forall q :: q in th'.drained ==> q in th.drained;
    forall k | Has(th, k) && k != p.requestId ensures Has(th', k) {
      var q :| q in th.drained && q.requestId == k;
      assert q in th'.drained;
    }
  }

  lemma FlushSafe(cfg: Config, n: nat, s: State, tid: Tid, s': State)
    requires Safe(s) && Next(cfg, n, s, Flush(tid), s')
    ensures Safe(s')
  {
    var th := s.threads[tid];
    assert ThreadOk(s, tid, th);
    FlushedThread(s, tid, th);
    SendSafe(s, tid, th.(drained := th.drained[1..]), th.drained[0], s');
  }

  /** Steps of a registration, other than the insert, move no request. */
  lemma RegistrationLocal(cfg: Config, n: nat, s: State, e: Event, s': State)
    requires Next(cfg, n, s, e, s') && (e.tid in s.threads ==> ThreadOk(s, e.tid, s.threads[e.tid]))
    requires e.SpawnRegister? ==> e.p.requestId !in s.registered
    requires e.SpawnRegister? || e.ReadLen? || e.ReadCount? || e.AddGauge? || e.AddIndex?
    ensures LocalChange(s, s', e.tid)
  {
    assert s'.threads - {e.tid} == s.threads - {e.tid};
  }

  /** Starting a removal, choosing its ids and ending it move no request. */
  lemma CollectionLocal(cfg: Config, n: nat, s: State, e: Event, s': State)
    requires Next(cfg, n, s, e, s') && (e.tid in s.threads ==> ThreadOk(s, e.tid, s.threads[e.tid]))
    requires e.Collect? ==> e.id in s.registered && s.registered[e.id] == s.store.requests[e.id]
    requires e.SpawnFulfil? || e.SpawnCollect? || e.Collect? || e.EndCollect? || e.Finish?
    ensures LocalChange(s, s', e.tid)
  {
    assert s'.threads - {e.tid} == s.threads - {e.tid};
  }

  /** Settling the counters for a request in hand moves no request. */
  lemma CountersLocal(cfg: Config, n: nat, s: State, e: Event, s': State)
    requires Next(cfg, n, s, e, s') && (e.tid in s.threads ==> ThreadOk(s, e.tid, s.threads[e.tid]))
    requires e.SubGauge? || e.SubIndex? || e.DropEntry?
    ensures LocalChange(s, s', e.tid)
  {
    assert s'.threads - {e.tid} == s.threads - {e.tid};
  }

  /** Finding an id gone moves no request. */
  lemma MissLocal(cfg: Config, n: nat, s: State, tid: Tid, s': State)
    requires Next(cfg, n, s, Take(tid), s') && ThreadOk(s, tid, s.threads[tid])
    requires s.threads[tid].todo[0] !in s.store.requests
    ensures LocalChange(s, s', tid)
  {
    assert forall k :: k in s.threads[tid].todo[1..] ==> k in s.threads[tid].todo;
    assert s'.threads - {tid} == s.threads - {tid};
  }

  lemma StepLocal(cfg: Config, n: nat, s: State, e: Event, s': State)
    requires Safe(s) && Next(cfg, n, s, e, s')
    requires !e.Insert? && !e.Flush? && (e.Deliver? ==> s.threads[e.tid].cause.ByClose?)
    requires e.Take? ==> s.threads[e.tid].todo[0] !in s.store.requests
    ensures LocalChange(s, s', e.tid)
  {
    assert e.tid in s.threads ==> ThreadOk(s, e.tid, s.threads[e.tid]);
    if e.Deliver? {
      DrainLocal(cfg, n, s, e.tid, s');
    } else if e.SubGauge? || e.SubIndex? || e.DropEntry? {
      CountersLocal(cfg, n, s, e, s');
    } else if e.Take? {
      MissLocal(cfg, n, s, e.tid, s');
    } else if e.SpawnFulfil? || e.SpawnCollect? || e.Collect? || e.EndCollect? || e.Finish? {
      CollectionLocal(cfg, n, s, e, s');
    } else {
      RegistrationLocal(cfg, n, s, e, s');
    }
  }

  lemma StepSafe(cfg: Config, n: nat, s: State, e: Event, s': State)
    requires Safe(s) && Next(cfg, n, s, e, s')
    ensures Safe(s')
  {
    if e.Insert? {
      InsertSafe(cfg, n, s, e.tid, s');
    } else if e.Take? && s.threads[e.tid].todo[0] in s.store.requests {
      TakeSafe(cfg, n, s, e.tid, s');
    } else if e.Deliver? && !s.threads[e.tid].cause.ByClose? {
      AnswerSafe(cfg, n, s, e.tid, s');
    } else if e.Flush? {
      FlushSafe(cfg, n, s, e.tid, s');
    } else {
      StepLocal(cfg, n, s, e, s');
      LocalSafe(s, s', e.tid);
    }
  }

  lemma {:induction false} RunSafe(cfg: Config, n: nat, events: seq<Event>)
    ensures Run(cfg, n, events).Some? ==> Safe(Run(cfg, n, events).value)
  {
    if events != [] {
      var front := Run(cfg, n, events[..|events| - 1]);
      RunSafe(cfg, n, events[..|events| - 1]);
      if front.Some? && Enabled(n, front.value, events[|events| - 1]) {
        StepSafe(cfg, n, front.value, events[|events| - 1], Step(cfg, n, front.value, events[|events| - 1]));
      }
    }
  }

  ghost predicate IsPending(s: State, k: Uuid) {
    k in s.store.requests
  }

  ghost predicate HeldBy(s: State, k: Uuid, tid: Tid) {
    tid in s.threads && Has(s.threads[tid], k)
  }

  /** Under every interleaving each registered request is pending, in the hands of one remover, or answered once:
      always one of the three, never two; and every answer is justified. */
  lemma OnePlaceEach(cfg: Config, n: nat, events: seq<Event>, k: Uuid)
    requires Run(cfg, n, events).Some?
    requires k in Run(cfg, n, events).value.registered
    ensures var s := Run(cfg, n, events).value;
      && (IsPending(s, k) || Answered(s.replies, k) || exists tid :: HeldBy(s, k, tid))
      && !(IsPending(s, k) && Answered(s.replies, k))
      && (forall tid :: HeldBy(s, k, tid) ==> !IsPending(s, k) && !Answered(s.replies, k))
      && (forall a, b :: HeldBy(s, k, a) && HeldBy(s, k, b) ==> a == b)
      && OneReplyEach(s.replies)
      && (forall r :: r in s.replies ==> Justified(s.registered, r))
  {
    RunSafe(cfg, n, events);
    var s := Run(cfg, n, events).value;
    forall tid | HeldBy(s, k, tid) ensures s.place[k] == With(tid) {
      assert ThreadOk(s, tid, s.threads[tid]);
    }
    if s.place[k].With? {
      assert HeldBy(s, k, s.place[k].tid);
    }
  }

  /** Once every method has returned, each registered request is either pending or answered, exactly once. */
  lemma QuiescentAnswered(cfg: Config, n: nat, events: seq<Event>, k: Uuid)
    requires Run(cfg, n, events).Some? && Run(cfg, n, events).value.threads == map[]
    requires k in Run(cfg, n, events).value.registered
    ensures var s := Run(cfg, n, events).value; IsPending(s, k) <==> !Answered(s.replies, k)
  {
    OnePlaceEach(cfg, n, events, k);
  }
}
