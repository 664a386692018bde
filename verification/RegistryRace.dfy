/** Concurrent registrations and disconnections of tunnels: each check, the insert, the search by id and the removal
    by name are separate steps. */
module RegistryRaces {
  import opened Protocol
  import opened Text
  import C = Counting
  import opened Registries

  type Tid = nat

  datatype Stage =
    | Arrived(t: Tunnel)      // has not read the number of tunnels
    | PastTotal(t: Tunnel)    // has not checked its key
    | PastKey(t: Tunnel)      // has not looked up its name
    | PastName(t: Tunnel)     // admitted, has not inserted

  /** A disconnection that found its tunnel under a name and has not removed that name. */
  datatype Found = Found(id: Uuid, name: string)

  /** `usedIds` and `closed` are history: the ids of every registration begun, and for every disconnection that removed
      an entry the id it was asked for and the id of the tunnel it closed. */
  datatype State = State(
    tunnels: Registry, stages: map<Tid, Stage>, finds: map<Tid, Found>, usedIds: set<Uuid>, closed: seq<(Uuid, Uuid)>)

  const START: State := State(map[], map[], map[], {}, [])

  /** The per-key count walks the map while it changes, so its verdict is left open. */
  datatype Event =
    | Begin(tid: Tid, t: Tunnel)
    | ReadTotal(tid: Tid)
    | CheckKey(tid: Tid, admitted: bool)
    | CheckName(tid: Tid)
    | Insert(tid: Tid)
    | RemoveName(subdomain: string)
    | FindTunnel(tid: Tid, id: Uuid, name: string)
    | RemoveFound(tid: Tid)

  ghost predicate Enabled(n: nat, s: State, e: Event) {
    match e
    case Begin(tid, t) => tid !in s.stages && |s.stages| < n && t.id !in s.usedIds
    case ReadTotal(tid) => tid in s.stages && s.stages[tid].Arrived?
    case CheckKey(tid, _) => tid in s.stages && s.stages[tid].PastTotal?
    case CheckName(tid) => tid in s.stages && s.stages[tid].PastKey?
    case Insert(tid) => tid in s.stages && s.stages[tid].PastName?
    case RemoveName(_) => true
    case FindTunnel(tid, id, name) => tid !in s.finds && name in s.tunnels && s.tunnels[name].id == id
    case RemoveFound(tid) => tid in s.finds
  }

  function Go(s: State, tid: Tid, admitted: bool, next: Stage): State {
    s.(stages := if admitted then s.stages[tid := next] else s.stages - {tid})
  }

  ghost function Step(lim: Limits, n: nat, s: State, e: Event): State
    requires Enabled(n, s, e)
  {
    match e
    case Begin(tid, t) => s.(stages := s.stages[tid := Arrived(t)], usedIds := s.usedIds + {t.id})
    case ReadTotal(tid) =>
      Go(s, tid, lim.maxTunnels == 0 || |s.tunnels| < lim.maxTunnels, PastTotal(s.stages[tid].t))
    case CheckKey(tid, admitted) => Go(s, tid, admitted, PastKey(s.stages[tid].t))
    case CheckName(tid) => Go(s, tid, s.stages[tid].t.subdomain !in s.tunnels, PastName(s.stages[tid].t))
    case Insert(tid) =>
      var t := s.stages[tid].t;
      s.(tunnels := s.tunnels[t.subdomain := t], stages := s.stages - {tid})
    case RemoveName(name) => s.(tunnels := s.tunnels - {name})
    case FindTunnel(tid, id, name) => s.(finds := s.finds[tid := Found(id, name)])
    case RemoveFound(tid) =>
      var f := s.finds[tid];
      s.(tunnels := s.tunnels - {f.name}, finds := s.finds - {tid},
         closed := if f.name in s.tunnels then s.closed + [(f.id, s.tunnels[f.name].id)] else s.closed)
  }

  ghost function Run(lim: Limits, n: nat, events: seq<Event>): Option<State> {
    if events == [] then Some(START) else
      match Run(lim, n, events[..|events| - 1])
      case None => None
      case Some(s) =>
        var e := events[|events| - 1];
        if Enabled(n, s, e) then Some(Step(lim, n, s, e)) else None
  }

  function Admitted(): Stage -> bool {
    (st: Stage) => !st.Arrived?
  }

  ghost predicate Bounded(lim: Limits, n: nat, s: State) {
    && |s.stages| <= n
    && (lim.maxTunnels > 0 ==> |s.tunnels| + C.Count(s.stages, Admitted()) <= lim.maxTunnels + n - 1)
  }

  /** Tunnel ids are never shared: not between entries, not between registrations, not across. */
  ghost predicate IdsApart(s: State) {
    && (forall k :: k in s.tunnels ==> s.tunnels[k].subdomain == k && s.tunnels[k].id in s.usedIds)
    && (forall k, l :: k in s.tunnels && l in s.tunnels && s.tunnels[k].id == s.tunnels[l].id ==> k == l)
    && (forall a :: a in s.stages ==> s.stages[a].t.id in s.usedIds)
    && (forall a, b :: a in s.stages && b in s.stages && s.stages[a].t.id == s.stages[b].t.id ==> a == b)
    && (forall a, k :: a in s.stages && k in s.tunnels ==> s.stages[a].t.id != s.tunnels[k].id)
    && (forall a, f :: a in s.stages && f in s.finds ==> s.stages[a].t.id != s.finds[f].id)
    && (forall f :: f in s.finds ==> s.finds[f].id in s.usedIds)
  }

  /** A registration goes on exactly when it passes the check it makes, as the same tunnel; a refused one leaves no
      trace, and no check touches the registry or another registration. */
  lemma ChecksExact(lim: Limits, n: nat, s: State, e: Event)
    requires Enabled(n, s, e) && (e.ReadTotal? || e.CheckKey? || e.CheckName?)
    ensures var s' := Step(lim, n, s, e);
      && (e.tid in s'.stages <==>
            && (e.ReadTotal? && lim.maxTunnels > 0 ==> |s.tunnels| < lim.maxTunnels)
            && (e.CheckKey? ==> e.admitted)
            && (e.CheckName? ==> s.stages[e.tid].t.subdomain !in s.tunnels))
      && (e.tid in s'.stages ==> s'.stages[e.tid].t == s.stages[e.tid].t)
      && s'.stages - {e.tid} == s.stages - {e.tid} && s'.(stages := s.stages) == s
  {
  }

  lemma InsertBounded(lim: Limits, n: nat, s: State, tid: Tid)
    requires Bounded(lim, n, s) && Enabled(n, s, Insert(tid))
    ensures Bounded(lim, n, Step(lim, n, s, Insert(tid)))
  {
    C.SizeRemove(s.stages, tid);
    C.CountRemove(s.stages, tid, Admitted());
    C.SizeUpdate(s.tunnels, s.stages[tid].t.subdomain, s.stages[tid].t);
  }

  lemma CheckBounded(lim: Limits, n: nat, s: State, e: Event)
    requires Bounded(lim, n, s) && Enabled(n, s, e)
    requires e.Begin? || e.ReadTotal? || e.CheckKey? || e.CheckName?
    ensures Bounded(lim, n, Step(lim, n, s, e))
  {
    var s' := Step(lim, n, s, e);
    if e.tid in s'.stages {
      C.SizeUpdate(s.stages, e.tid, s'.stages[e.tid]);
      C.CountUpdate(s.stages, e.tid, s'.stages[e.tid], Admitted());
    } else {
      C.SizeRemove(s.stages, e.tid);
      C.CountRemove(s.stages, e.tid, Admitted());
    }
    C.CountAtMostSize(s'.stages, Admitted());
  }

  lemma BoundedStep(lim: Limits, n: nat, s: State, e: Event)
    requires Bounded(lim, n, s) && Enabled(n, s, e)
    ensures Bounded(lim, n, Step(lim, n, s, e))
  {
    if e.Insert? {
      InsertBounded(lim, n, s, e.tid);
    } else if e.RemoveName? {
      C.SizeRemove(s.tunnels, e.subdomain);
    } else if e.RemoveFound? {
      C.SizeRemove(s.tunnels, s.finds[e.tid].name);
    } else if !e.FindTunnel? {
      CheckBounded(lim, n, s, e);
    }
  }

  lemma IdsApartInsert(lim: Limits, n: nat, s: State, tid: Tid)
    requires IdsApart(s) && Enabled(n, s, Insert(tid))
    ensures IdsApart(Step(lim, n, s, Insert(tid)))
  {
  }

  lemma IdsApartBegin(lim: Limits, n: nat, s: State, tid: Tid, t: Tunnel)
    requires IdsApart(s) && Enabled(n, s, Begin(tid, t))
    ensures IdsApart(Step(lim, n, s, Begin(tid, t)))
  {
  }

  lemma IdsApartFind(lim: Limits, n: nat, s: State, e: Event)
    requires IdsApart(s) && Enabled(n, s, e) && (e.FindTunnel? || e.RemoveFound? || e.RemoveName?)
    ensures IdsApart(Step(lim, n, s, e))
  {
  }

  lemma IdsApartStep(lim: Limits, n: nat, s: State, e: Event)
    requires IdsApart(s) && Enabled(n, s, e)
    ensures IdsApart(Step(lim, n, s, e))
  {
    if e.Insert? {
      IdsApartInsert(lim, n, s, e.tid);
    } else if e.Begin? {
      IdsApartBegin(lim, n, s, e.tid, e.t);
    } else if e.FindTunnel? || e.RemoveFound? || e.RemoveName? {
      IdsApartFind(lim, n, s, e);
    }
  }

  /** With at most n registrations in flight the live tunnels never exceed the limit by more than n - 1, every
      entry keeps its own name, and no id is ever shared, whatever the interleaving. */
  lemma {:induction false} TunnelsBounded(lim: Limits, n: nat, events: seq<Event>)
    requires n >= 1 && Run(lim, n, events).Some?
    ensures var s := Run(lim, n, events).value;
      && Bounded(lim, n, s) && IdsApart(s)
      && (lim.maxTunnels > 0 ==> |s.tunnels| <= lim.maxTunnels + n - 1)
  {
    if events == [] {
      C.CountEmpty<Tid, Stage>(Admitted());
    } else {
      var s, e := Run(lim, n, events[..|events| - 1]).value, events[|events| - 1];
      TunnelsBounded(lim, n, events[..|events| - 1]);
      BoundedStep(lim, n, s, e);
      IdsApartStep(lim, n, s, e);
    }
  }

  // ---- exactly when a name is taken over ----

  ghost predicate InsertsName(lim: Limits, n: nat, front: seq<Event>, e: Event, name: string) {
    match Run(lim, n, front)
    case None => false
    case Some(s) => e.Insert? && e.tid in s.stages && s.stages[e.tid].t.subdomain == name
  }

  ghost predicate RemovesName(lim: Limits, n: nat, front: seq<Event>, e: Event, name: string) {
    match Run(lim, n, front)
    case None => false
    case Some(s) => e == RemoveName(name) || (e.RemoveFound? && e.tid in s.finds && s.finds[e.tid].name == name)
  }

  /** Since the last `mark` a registration has inserted the name, and nothing has removed it again. */
  ghost predicate TakenSince(lim: Limits, n: nat, events: seq<Event>, mark: Event, name: string) {
    events != [] &&
    var front, e := events[..|events| - 1], events[|events| - 1];
    e != mark &&
    (InsertsName(lim, n, front, e, name)
     || (!RemovesName(lim, n, front, e, name) && TakenSince(lim, n, front, mark, name)))
  }

  /** A step leaves an entry alone unless it inserts or removes its name. */
  lemma NameStep(lim: Limits, n: nat, s: State, e: Event, name: string)
    requires Enabled(n, s, e)
    ensures var s' := Step(lim, n, s, e);
      if e.Insert? && s.stages[e.tid].t.subdomain == name then
        name in s'.tunnels && s'.tunnels[name] == s.stages[e.tid].t
      else if e == RemoveName(name) || (e.RemoveFound? && s.finds[e.tid].name == name) then name !in s'.tunnels
      else (name in s'.tunnels <==> name in s.tunnels) && (name in s.tunnels ==> s'.tunnels[name] == s.tunnels[name])
  {
  }

  lemma AdmittedStep(lim: Limits, n: nat, s: State, e: Event, tid: Tid)
    requires Enabled(n, s, e)
    requires var s' := Step(lim, n, s, e); tid in s'.stages && s'.stages[tid].PastName? && e != CheckName(tid)
    ensures tid in s.stages && s.stages[tid] == Step(lim, n, s, e).stages[tid] && !(e.Insert? && e.tid == tid)
  {
  }

  /** An admitted registration would replace a live tunnel exactly when another one has inserted its name since it
      was checked, and that entry was not removed. */
  lemma {:induction false} ReplacesExactly(lim: Limits, n: nat, events: seq<Event>, tid: Tid)
    requires Run(lim, n, events).Some?
    requires var s := Run(lim, n, events).value; tid in s.stages && s.stages[tid].PastName?
    ensures var s := Run(lim, n, events).value;
      var name := s.stages[tid].t.subdomain;
      name in s.tunnels <==> TakenSince(lim, n, events, CheckName(tid), name)
  {
    if events != [] {
      var front, e := events[..|events| - 1], events[|events| - 1];
      var s := Run(lim, n, front).value;
      if e != CheckName(tid) {
        AdmittedStep(lim, n, s, e, tid);
        ReplacesExactly(lim, n, front, tid);
        NameStep(lim, n, s, e, s.stages[tid].t.subdomain);
      }
    }
  }

  /** Registrations made one at a time never replace a live tunnel. */
  lemma {:induction false} SerialNeverReplaces(lim: Limits, events: seq<Event>, tid: Tid)
    requires Run(lim, 1, events).Some?
    requires var s := Run(lim, 1, events).value; tid in s.stages && s.stages[tid].PastName?
    ensures var s := Run(lim, 1, events).value; s.stages[tid].t.subdomain !in s.tunnels
  {
    if events != [] {
      var front, e := events[..|events| - 1], events[|events| - 1];
      var s := Run(lim, 1, front).value;
      if e != CheckName(tid) {
        AdmittedStep(lim, 1, s, e, tid);
        SerialNeverReplaces(lim, front, tid);
        NameStep(lim, 1, s, e, s.stages[tid].t.subdomain);
        OnlyOne(lim, front, tid, e);
      }
    }
  }

  lemma OnlyOne(lim: Limits, events: seq<Event>, tid: Tid, e: Event)
    requires Run(lim, 1, events).Some? && tid in Run(lim, 1, events).value.stages
    requires e.Insert? ==> Enabled(1, Run(lim, 1, events).value, e)
    ensures e.Insert? ==> e.tid == tid
  {
    TunnelsBounded(lim, 1, events);
    var s := Run(lim, 1, events).value;
    if e.Insert? && e.tid != tid {
      C.SubsetSize({tid, e.tid}, s.stages.Keys);
    }
  }

  lemma FoundStep(lim: Limits, n: nat, s: State, e: Event, tid: Tid)
    requires Enabled(n, s, e) && tid in Step(lim, n, s, e).finds
    ensures tid in s.finds ==> Step(lim, n, s, e).finds[tid] == s.finds[tid] && !(e.RemoveFound? && e.tid == tid)
    ensures tid !in s.finds ==>
      e == FindTunnel(tid, Step(lim, n, s, e).finds[tid].id, Step(lim, n, s, e).finds[tid].name)
  {
  }

  /** A disconnection that has found its tunnel would close another one exactly when a registration has inserted the
      name since, and that entry was not removed. */
  lemma {:induction false} ClosesOtherExactly(lim: Limits, n: nat, events: seq<Event>, tid: Tid)
    requires n >= 1 && Run(lim, n, events).Some? && tid in Run(lim, n, events).value.finds
    ensures var s := Run(lim, n, events).value;
      var f := s.finds[tid];
      (f.name in s.tunnels && s.tunnels[f.name].id != f.id)
      <==> TakenSince(lim, n, events, FindTunnel(tid, f.id, f.name), f.name)
  {
    if events != [] {
      var front, e := events[..|events| - 1], events[|events| - 1];
      var s := Run(lim, n, front).value;
      FoundStep(lim, n, s, e, tid);
      if tid in s.finds {
        ClosesOtherExactly(lim, n, front, tid);
        NameStep(lim, n, s, e, s.finds[tid].name);
        TunnelsBounded(lim, n, front);
      }
    }
  }

  // ---- witnesses ----

  /** Tunnel `i` of a family with names of their own. */
  function Named(name: nat -> string, i: nat): Tunnel {
    Tunnel(i, name(i), Http, None)
  }

  ghost predicate Apart(name: nat -> string) {
    forall i, j :: name(i) == name(j) ==> i == j
  }

  lemma Then(lim: Limits, n: nat, events: seq<Event>, s: State, e: Event) returns (s': State)
    requires Run(lim, n, events) == Some(s) && Enabled(n, s, e)
    ensures s' == Step(lim, n, s, e)
    ensures Run(lim, n, events + [e]) == Some(s')
  {
    s' := Step(lim, n, s, e);
    assert (events + [e])[..|events|] == events;
  }

  /** The checks of one registration, all passed. */
  function Checks(tid: Tid, t: Tunnel): seq<Event> {
    [Begin(tid, t), ReadTotal(tid), CheckKey(tid, true), CheckName(tid)]
  }

  /** A registration that has reached `stage`, all else unchanged. */
  function At(s: State, tid: Tid, t: Tunnel, stage: Stage): State {
    s.(stages := s.stages[tid := stage], usedIds := s.usedIds + {t.id})
  }

  lemma PassTotal(lim: Limits, n: nat, events: seq<Event>, s: State, tid: Tid, t: Tunnel)
    requires Run(lim, n, events) == Some(At(s, tid, t, Arrived(t)))
    requires lim.maxTunnels > 0 ==> |s.tunnels| < lim.maxTunnels
    ensures Run(lim, n, events + [ReadTotal(tid)]) == Some(At(s, tid, t, PastTotal(t)))
  {
    var s' := Then(lim, n, events, At(s, tid, t, Arrived(t)), ReadTotal(tid));
    C.Overwrite(s.stages, tid, Arrived(t), PastTotal(t));
  }

  lemma PassKey(lim: Limits, n: nat, events: seq<Event>, s: State, tid: Tid, t: Tunnel)
    requires Run(lim, n, events) == Some(At(s, tid, t, PastTotal(t)))
    ensures Run(lim, n, events + [CheckKey(tid, true)]) == Some(At(s, tid, t, PastKey(t)))
  {
    var s' := Then(lim, n, events, At(s, tid, t, PastTotal(t)), CheckKey(tid, true));
    C.Overwrite(s.stages, tid, PastTotal(t), PastKey(t));
  }

  lemma PassName(lim: Limits, n: nat, events: seq<Event>, s: State, tid: Tid, t: Tunnel)
    requires Run(lim, n, events) == Some(At(s, tid, t, PastKey(t))) && t.subdomain !in s.tunnels
    ensures Run(lim, n, events + [CheckName(tid)]) == Some(At(s, tid, t, PastName(t)))
  {
    var s' := Then(lim, n, events, At(s, tid, t, PastKey(t)), CheckName(tid));
    C.Overwrite(s.stages, tid, PastKey(t), PastName(t));
  }

  /** One registration up to its insert. */
  lemma UpToName(lim: Limits, n: nat, events: seq<Event>, s: State, tid: Tid, t: Tunnel)
    returns (events': seq<Event>, s': State)
    requires Run(lim, n, events) == Some(s) && Enabled(n, s, Begin(tid, t))
    requires (lim.maxTunnels > 0 ==> |s.tunnels| < lim.maxTunnels) && t.subdomain !in s.tunnels
    ensures Run(lim, n, events') == Some(s')
    ensures events' == events + Checks(tid, t)
    ensures s' == At(s, tid, t, PastName(t))
  {
    var s0 := Then(lim, n, events, s, Begin(tid, t));
    PassTotal(lim, n, events + [Begin(tid, t)], s, tid, t);
    PassKey(lim, n, events + [Begin(tid, t)] + [ReadTotal(tid)], s, tid, t);
    PassName(lim, n, events + [Begin(tid, t)] + [ReadTotal(tid)] + [CheckKey(tid, true)], s, tid, t);
    events' := events + [Begin(tid, t)] + [ReadTotal(tid)] + [CheckKey(tid, true)] + [CheckName(tid)];
    s' := At(s, tid, t, PastName(t));
  }

  /** Whatever the limits, two registrations of one name can both be admitted; the second silently replaces the
      first. */
  lemma NameCanBeGrantedTwice(lim: Limits, n: nat, name: string, protocol: TunnelProtocol) returns (events: seq<Event>)
    requires n >= 2
    ensures Run(lim, n, events).Some?
    ensures var a, b := Tunnel(1, name, protocol, None), Tunnel(2, name, protocol, None);
      && events == Checks(0, a) + Checks(1, b) + [Insert(0), Insert(1)]
      && Run(lim, n, events).value.tunnels == map[name := b]
  {
    var a, b := Tunnel(1, name, protocol, None), Tunnel(2, name, protocol, None);
    var s;
    events, s := UpToName(lim, n, [], START, 0, a);
    assert |s.stages| == 1;
    events, s := UpToName(lim, n, events, s, 1, b);
    assert [] + Checks(0, a) == Checks(0, a);
    events := InsertBoth(lim, n, events, s, a, b);
  }

  lemma InsertBoth(lim: Limits, n: nat, events: seq<Event>, s: State, a: Tunnel, b: Tunnel) returns (events': seq<Event>)
    requires Run(lim, n, events) == Some(s) && a.subdomain == b.subdomain && s.tunnels == map[]
    requires 0 in s.stages && s.stages[0] == PastName(a) && 1 in s.stages && s.stages[1] == PastName(b)
    ensures events' == events + [Insert(0), Insert(1)]
    ensures Run(lim, n, events').Some? && Run(lim, n, events').value.tunnels == map[b.subdomain := b]
  {
    var s' := Then(lim, n, events, s, Insert(0));
    s' := Then(lim, n, events + [Insert(0)], s', Insert(1));
    events' := events + [Insert(0)] + [Insert(1)];
    assert events' == events + [Insert(0), Insert(1)];
    assert s'.tunnels == map[b.subdomain := b];
  }

  /** Tunnel `i` inserts; the names further on stay free. */
  lemma InsertNext(name: nat -> string, lim: Limits, n: nat, events: seq<Event>, s: State, i: nat) returns (s': State)
    requires Apart(name) && Run(lim, n, events) == Some(s) && i in s.stages && s.stages[i] == PastName(Named(name, i))
    requires forall j :: j >= i ==> name(j) !in s.tunnels
    ensures Run(lim, n, events + [Insert(i)]) == Some(s')
    ensures |s'.tunnels| == |s.tunnels| + 1 && s'.stages == s.stages - {i} && s'.usedIds == s.usedIds
    ensures forall j :: j > i ==> name(j) !in s'.tunnels
  {
    s' := Then(lim, n, events, s, Insert(i));
    C.SizeUpdate(s.tunnels, name(i), Named(name, i));
  }

  /** `k` tunnels registered one after the other. */
  lemma {:induction false} Fill(name: nat -> string, lim: Limits, n: nat, k: nat) returns (events: seq<Event>, s: State)
    requires Apart(name) && n >= 1 && k < lim.maxTunnels
    ensures Run(lim, n, events) == Some(s) && s.stages == map[] && |s.tunnels| == k
    ensures forall j :: j >= k ==> name(j) !in s.tunnels && j !in s.usedIds
  {
    if k == 0 {
      events, s := [], START;
    } else {
      events, s := Fill(name, lim, n, k - 1);
      events, s := UpToName(lim, n, events, s, k - 1, Named(name, k - 1));
      s := InsertNext(name, lim, n, events, s, k - 1);
      events := events + [Insert(k - 1)];
      assert s.stages == map[];
    }
  }

  /** Admitted registrations, one for each id from `base` on. */
  ghost function Queue(name: nat -> string, base: nat, k: nat): map<Tid, Stage> {
    map tid | base <= tid < base + k :: PastName(Named(name, tid))
  }

  lemma QueueNext(name: nat -> string, base: nat, k: nat)
    ensures Queue(name, base, k)[base + k := PastName(Named(name, base + k))] == Queue(name, base, k + 1)
  {
  }

  lemma {:induction false} QueueGrows(name: nat -> string, base: nat, k: nat)
    ensures Queue(name, base, k)[base + k := PastName(Named(name, base + k))] == Queue(name, base, k + 1)
    ensures |Queue(name, base, k)| == k
  {
    if k == 0 {
      assert Queue(name, base, 0) == map[];
    } else {
      QueueGrows(name, base, k - 1);
      C.SizeUpdate(Queue(name, base, k - 1), base + k - 1, PastName(Named(name, base + k - 1)));
    }
    QueueNext(name, base, k);
  }

  /** `base` tunnels live and `k` registrations admitted; ids and names further on are unused. */
  ghost predicate Crowded(name: nat -> string, s: State, base: nat, k: nat) {
    && |s.tunnels| == base && s.stages == Queue(name, base, k)
    && (forall j: nat :: j >= base ==> name(j) !in s.tunnels)
    && (forall j: nat :: j >= base + k ==> j !in s.usedIds)
  }

  lemma OneMore(name: nat -> string, s: State, base: nat, k: nat) returns (after: State)
    requires Crowded(name, s, base, k)
    ensures after == At(s, base + k, Named(name, base + k), PastName(Named(name, base + k)))
    ensures Crowded(name, after, base, k + 1) && base + k !in s.stages && |s.stages| == k
  {
    QueueGrows(name, base, k);
    after := At(s, base + k, Named(name, base + k), PastName(Named(name, base + k)));
  }

  lemma AdmitNamed(name: nat -> string, lim: Limits, n: nat, events: seq<Event>, s: State, i: nat, after: State)
    returns (events': seq<Event>)
    requires Run(lim, n, events) == Some(s) && |s.stages| < n && |s.tunnels| < lim.maxTunnels
    requires i !in s.stages && i !in s.usedIds && name(i) !in s.tunnels
    requires after == At(s, i, Named(name, i), PastName(Named(name, i)))
    ensures Run(lim, n, events') == Some(after)
  {
    var s';
    events', s' := UpToName(lim, n, events, s, i, Named(name, i));
  }

  lemma CrowdStart(name: nat -> string, lim: Limits, n: nat) returns (events: seq<Event>, s: State)
    requires Apart(name) && n >= 1 && lim.maxTunnels >= 1
    ensures Run(lim, n, events) == Some(s) && Crowded(name, s, lim.maxTunnels - 1, 0)
  {
    events, s := Fill(name, lim, n, lim.maxTunnels - 1);
    assert s.stages == Queue(name, lim.maxTunnels - 1, 0);
  }

  /** `k` more registrations, all admitted before any of them inserts. */
  lemma {:induction false} Crowd(name: nat -> string, lim: Limits, n: nat, k: nat) returns (events: seq<Event>, s: State)
    requires Apart(name) && n >= 1 && lim.maxTunnels >= 1 && k <= n
    ensures Run(lim, n, events) == Some(s) && Crowded(name, s, lim.maxTunnels - 1, k)
  {
    var base := lim.maxTunnels - 1;
    if k == 0 {
      events, s := CrowdStart(name, lim, n);
    } else {
      events, s := Crowd(name, lim, n, k - 1);
      var after := OneMore(name, s, base, k - 1);
      events := AdmitNamed(name, lim, n, events, s, base + k - 1, after);
      s := after;
    }
  }

  /** The first `k` of them insert. */
  lemma {:induction false} Rush(name: nat -> string, lim: Limits, n: nat, k: nat) returns (events: seq<Event>, s: State)
    requires Apart(name) && n >= 1 && lim.maxTunnels >= 1 && k <= n
    ensures var base := lim.maxTunnels - 1;
      && Run(lim, n, events) == Some(s) && |s.tunnels| == base + k
      && (forall j :: j >= base + k ==> name(j) !in s.tunnels)
      && (forall j :: base + k <= j < base + n ==> j in s.stages && s.stages[j] == PastName(Named(name, j)))
  {
    var base := lim.maxTunnels - 1;
    if k == 0 {
      events, s := Crowd(name, lim, n, n);
    } else {
      events, s := Rush(name, lim, n, k - 1);
      s := InsertNext(name, lim, n, events, s, base + k - 1);
      events := events + [Insert(base + k - 1)];
    }
  }

  /** With n registrations in flight there can be exactly n - 1 live tunnels more than the limit. */
  lemma TunnelBoundIsReached(lim: Limits, n: nat) returns (events: seq<Event>)
    requires lim.maxTunnels >= 1 && n >= 1
    ensures Run(lim, n, events).Some?
    ensures |Run(lim, n, events).value.tunnels| == lim.maxTunnels + n - 1
  {
    var s;
    forall i: nat, j: nat | Digits(i) == Digits(j) ensures i == j {
      DigitsRoundTrip(i);
      DigitsRoundTrip(j);
    }
    events, s := Rush((i: nat) => Digits(i), lim, n, n);
  }

  /** Asked to disconnect tunnel 1, the relay can close tunnel 2: between the search by id and the removal by name the
      name was removed and granted again. */
  lemma WrongTunnelCanClose(lim: Limits, name: string, protocol: TunnelProtocol) returns (events: seq<Event>)
    ensures Run(lim, 1, events).Some? && Run(lim, 1, events).value.closed == [(1, 2)]
  {
    var a, b := Tunnel(1, name, protocol, None), Tunnel(2, name, protocol, None);
    var s;
    events, s := UpToName(lim, 1, [], START, 0, a);
    s := Then(lim, 1, events, s, Insert(0));
    events := events + [Insert(0)];
    s := Then(lim, 1, events, s, FindTunnel(0, 1, name));
    events := events + [FindTunnel(0, 1, name)];
    s := Then(lim, 1, events, s, RemoveName(name));
    events := events + [RemoveName(name)];
    events := GrantAgain(lim, events, s, name, b);
  }

  lemma GrantAgain(lim: Limits, events: seq<Event>, s: State, name: string, b: Tunnel) returns (events': seq<Event>)
    requires Run(lim, 1, events) == Some(s) && s.tunnels == map[] && s.stages == map[] && s.closed == []
    requires s.finds == map[0 := Found(1, name)] && b.id == 2 && b.subdomain == name && 2 !in s.usedIds
    ensures Run(lim, 1, events').Some? && Run(lim, 1, events').value.closed == [(1, 2)]
  {
    var s';
    events', s' := UpToName(lim, 1, events, s, 0, b);
    s' := Then(lim, 1, events', s', Insert(0));
    events' := events' + [Insert(0)];
    s' := Then(lim, 1, events', s', RemoveFound(0));
    events' := events' + [RemoveFound(0)];
  }
}
