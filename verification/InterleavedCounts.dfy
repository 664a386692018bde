/** What the gauge, the per-tunnel index and the limits still mean when every operation interleaves. */
module InterleavedCounts {
  import opened Protocol
  import C = Counting
  import opened PendingOps
  import opened Interleavings

  // ---- who still owes what ----

  function OwesGaugeUp(): Thread -> bool {
    (th: Thread) => th.Gauging?
  }

  function OwesGaugeDown(): Thread -> bool {
    (th: Thread) => Holds(th, TheGauge)
  }

  function OwesIndexUp(t: Uuid): Thread -> bool {
    (th: Thread) => (th.Gauging? || th.Indexing?) && th.p.tunnelId == t
  }

  function OwesIndexDown(t: Uuid): Thread -> bool {
    (th: Thread) => (Holds(th, TheGauge) || Holds(th, TheIndex)) && th.hand.p.tunnelId == t
  }

  function PastGlobalCheck(): Thread -> bool {
    (th: Thread) => th.Counting? || th.Inserting?
  }

  function PastTunnelCheck(t: Uuid): Thread -> bool {
    (th: Thread) => th.Inserting? && th.p.tunnelId == t
  }

  // ---- the ledgers ----

  /** The gauge differs from the map size by the updates still owed and by the decrements lost at zero. */
  ghost predicate GaugeLedger(s: State) {
    s.store.gauge + C.Count(s.threads, OwesGaugeUp())
      == |s.store.requests| + C.Count(s.threads, OwesGaugeDown()) + s.lost.saturated
  }

  /** The index differs from the true count by the updates still owed, the decrements that found nothing, and the
      counts thrown away with an entry. */
  ghost predicate IndexLedger(s: State, t: Uuid) {
    CountForTunnel(s.store, t) + C.Count(s.threads, OwesIndexUp(t)) + s.lost.dropped[t]
      == C.Count(s.store.requests, OnTunnel(t)) + C.Count(s.threads, OwesIndexDown(t)) + s.lost.skipped[t]
  }

  ghost predicate GlobalBound(cfg: Config, n: nat, s: State) {
    && C.Count(s.threads, Registering()) <= n
    && |s.store.requests| + C.Count(s.threads, PastGlobalCheck()) <= cfg.maxGlobal + n - 1
  }

  ghost predicate TunnelBound(cfg: Config, n: nat, s: State, t: Uuid) {
    C.Count(s.store.requests, OnTunnel(t)) + C.Count(s.threads, PastTunnelCheck(t))
      <= cfg.maxPerTunnel + n - 1 + s.lost.dropped[t]
  }

  /** The effect of one step on the number of threads satisfying `p`. */
  lemma StepCount(cfg: Config, n: nat, s: State, e: Event, s': State, p: Thread -> bool)
    requires Next(cfg, n, s, e, s')
    ensures C.Count(s'.threads, p) == C.Count(s.threads, p)
        - C.Bit(e.tid in s.threads && p(s.threads[e.tid]))
        + C.Bit(e.tid in s'.threads && p(s'.threads[e.tid]))
  {
    OneThread(cfg, n, s, e, s');
    if e.tid in s'.threads {
      C.CountUpdate(s.threads, e.tid, s'.threads[e.tid], p);
    } else {
      C.CountRemove(s.threads, e.tid, p);
    }
  }

  ghost predicate InsertsFresh(s: State, e: Event) {
    e.Insert? ==> e.tid in s.threads && s.threads[e.tid].Inserting? && s.threads[e.tid].p.requestId !in s.store.requests
  }

  /** The request a step puts into, or takes out of, the map. */
  ghost predicate Inserts(s: State, e: Event, t: Uuid)
    requires e.Insert? ==> e.tid in s.threads && s.threads[e.tid].Inserting?
  {
    e.Insert? && s.threads[e.tid].p.tunnelId == t
  }

  ghost predicate Takes(n: nat, s: State, e: Event)
    requires Enabled(n, s, e)
  {
    e.Take? && s.threads[e.tid].todo[0] in s.store.requests
  }

  ghost predicate TakesFrom(n: nat, s: State, e: Event, t: Uuid)
    requires Enabled(n, s, e)
  {
    Takes(n, s, e) && s.store.requests[s.threads[e.tid].todo[0]].tunnelId == t
  }

  /** The effect of one step on the request map. */
  lemma StepMap(cfg: Config, n: nat, s: State, e: Event, s': State)
    requires Next(cfg, n, s, e, s')
    ensures s'.store.requests ==
      if e.Insert? then s.store.requests[s.threads[e.tid].p.requestId := s.threads[e.tid].p]
      else if Takes(n, s, e) then s.store.requests - {s.threads[e.tid].todo[0]}
      else s.store.requests
  {
  }

  /** Its effect on the size of the map. */
  lemma StepSize(cfg: Config, n: nat, s: State, e: Event, s': State)
    requires Next(cfg, n, s, e, s') && InsertsFresh(s, e)
    ensures |s'.store.requests| == |s.store.requests| + C.Bit(e.Insert?) - C.Bit(Takes(n, s, e))
  {
    StepMap(cfg, n, s, e, s');
    if e.Insert? {
      C.SizeUpdate(s.store.requests, s.threads[e.tid].p.requestId, s.threads[e.tid].p);
    } else if Takes(n, s, e) {
      C.SizeRemove(s.store.requests, s.threads[e.tid].todo[0]);
    }
  }

  /** Its effect on one tunnel's number of requests. */
  lemma StepRequests(cfg: Config, n: nat, s: State, e: Event, s': State, t: Uuid)
    requires Next(cfg, n, s, e, s') && InsertsFresh(s, e)
    ensures C.Count(s'.store.requests, OnTunnel(t)) == C.Count(s.store.requests, OnTunnel(t))
              + C.Bit(Inserts(s, e, t)) - C.Bit(TakesFrom(n, s, e, t))
  {
    StepMap(cfg, n, s, e, s');
    if e.Insert? {
      C.CountUpdate(s.store.requests, s.threads[e.tid].p.requestId, s.threads[e.tid].p, OnTunnel(t));
    } else if Takes(n, s, e) {
      C.CountRemove(s.store.requests, s.threads[e.tid].todo[0], OnTunnel(t));
    }
  }

  // ---- who owes what after a step ----

  lemma GaugeUps(cfg: Config, n: nat, s: State, e: Event, s': State)
    requires Next(cfg, n, s, e, s')
    ensures C.Count(s'.threads, OwesGaugeUp())
         == C.Count(s.threads, OwesGaugeUp()) + C.Bit(e.Insert?) - C.Bit(e.AddGauge?)
  {
    StepCount(cfg, n, s, e, s', OwesGaugeUp());
  }

  lemma GaugeDowns(cfg: Config, n: nat, s: State, e: Event, s': State)
    requires Next(cfg, n, s, e, s')
    ensures C.Count(s'.threads, OwesGaugeDown())
         == C.Count(s.threads, OwesGaugeDown()) + C.Bit(Takes(n, s, e)) - C.Bit(e.SubGauge?)
  {
    StepCount(cfg, n, s, e, s', OwesGaugeDown());
  }

  lemma IndexUps(cfg: Config, n: nat, s: State, e: Event, s': State, t: Uuid)
    requires Next(cfg, n, s, e, s')
    ensures C.Count(s'.threads, OwesIndexUp(t)) == C.Count(s.threads, OwesIndexUp(t))
              + C.Bit(Inserts(s, e, t)) - C.Bit(e.AddIndex? && s.threads[e.tid].p.tunnelId == t)
  {
    StepCount(cfg, n, s, e, s', OwesIndexUp(t));
  }

  lemma IndexDowns(cfg: Config, n: nat, s: State, e: Event, s': State, t: Uuid)
    requires Next(cfg, n, s, e, s')
    ensures C.Count(s'.threads, OwesIndexDown(t)) == C.Count(s.threads, OwesIndexDown(t))
              + C.Bit(TakesFrom(n, s, e, t)) - C.Bit(e.SubIndex? && s.threads[e.tid].hand.p.tunnelId == t)
  {
    StepCount(cfg, n, s, e, s', OwesIndexDown(t));
  }

  lemma GaugeMoves(cfg: Config, n: nat, s: State, e: Event, s': State)
    requires Next(cfg, n, s, e, s')
    ensures s'.store.gauge == s.store.gauge + C.Bit(e.AddGauge?) - C.Bit(e.SubGauge? && s.store.gauge > 0)
    ensures s'.lost.saturated == s.lost.saturated + C.Bit(e.SubGauge? && s.store.gauge == 0)
  {
  }

  predicate TouchesIndex(e: Event) {
    e.AddIndex? || e.SubIndex? || e.DropEntry?
  }

  lemma IndexRests(cfg: Config, n: nat, s: State, e: Event, s': State)
    requires Next(cfg, n, s, e, s') && !TouchesIndex(e)
    ensures s'.store.perTunnel == s.store.perTunnel
    ensures s'.lost.dropped == s.lost.dropped && s'.lost.skipped == s.lost.skipped
  {
  }

  lemma IndexMoves(cfg: Config, n: nat, s: State, e: Event, s': State, t: Uuid)
    requires Next(cfg, n, s, e, s')
    ensures CountForTunnel(s'.store, t) + s'.lost.dropped[t] - s'.lost.skipped[t]
         == CountForTunnel(s.store, t) + s.lost.dropped[t] - s.lost.skipped[t]
              + C.Bit(e.AddIndex? && s.threads[e.tid].p.tunnelId == t)
              - C.Bit(e.SubIndex? && s.threads[e.tid].hand.p.tunnelId == t)
  {
    if !TouchesIndex(e) {
      IndexRests(cfg, n, s, e, s');
    }
  }

  lemma GaugeStep(cfg: Config, n: nat, s: State, e: Event, s': State)
    requires Next(cfg, n, s, e, s') && InsertsFresh(s, e) && GaugeLedger(s)
    ensures GaugeLedger(s')
  {
    GaugeUps(cfg, n, s, e, s');
    GaugeDowns(cfg, n, s, e, s');
    GaugeMoves(cfg, n, s, e, s');
    StepSize(cfg, n, s, e, s');
  }

  lemma IndexStep(cfg: Config, n: nat, s: State, e: Event, s': State, t: Uuid)
    requires Next(cfg, n, s, e, s') && InsertsFresh(s, e) && IndexLedger(s, t)
    ensures IndexLedger(s', t)
  {
    IndexUps(cfg, n, s, e, s', t);
    IndexDowns(cfg, n, s, e, s', t);
    IndexMoves(cfg, n, s, e, s', t);
    StepRequests(cfg, n, s, e, s', t);
  }

  lemma RegistrationsBounded(cfg: Config, n: nat, s: State, e: Event, s': State)
    requires Next(cfg, n, s, e, s') && C.Count(s.threads, Registering()) <= n
    ensures C.Count(s'.threads, Registering()) <= n
  {
    StepCount(cfg, n, s, e, s', Registering());
  }

  /** A registration passes the global check, and leaves the checked part by its insert or by the second check. */
  lemma GlobalChecks(cfg: Config, n: nat, s: State, e: Event, s': State)
    requires Next(cfg, n, s, e, s')
    ensures C.Count(s'.threads, PastGlobalCheck()) == C.Count(s.threads, PastGlobalCheck())
              + C.Bit(e.ReadLen? && |s.store.requests| < cfg.maxGlobal) - C.Bit(e.Insert?)
              - C.Bit(e.ReadCount? && e.tid !in s'.threads)
  {
    StepCount(cfg, n, s, e, s', PastGlobalCheck());
  }

  lemma GlobalStep(cfg: Config, n: nat, s: State, e: Event, s': State)
    requires Next(cfg, n, s, e, s') && InsertsFresh(s, e) && GlobalBound(cfg, n, s)
    ensures GlobalBound(cfg, n, s')
  {
    RegistrationsBounded(cfg, n, s, e, s');
    GlobalChecks(cfg, n, s, e, s');
    StepSize(cfg, n, s, e, s');
    C.CountMonotone(s'.threads, PastGlobalCheck(), Registering());
  }

  ghost predicate Admits(cfg: Config, n: nat, s: State, e: Event, t: Uuid)
    requires Enabled(n, s, e)
  {
    e.ReadCount? && s.threads[e.tid].p.tunnelId == t && CountForTunnel(s.store, t) < cfg.maxPerTunnel
  }

  lemma TunnelChecks(cfg: Config, n: nat, s: State, e: Event, s': State, t: Uuid)
    requires Next(cfg, n, s, e, s')
    ensures C.Count(s'.threads, PastTunnelCheck(t))
         == C.Count(s.threads, PastTunnelCheck(t)) + C.Bit(Admits(cfg, n, s, e, t)) - C.Bit(Inserts(s, e, t))
  {
    StepCount(cfg, n, s, e, s', PastTunnelCheck(t));
  }

  lemma DroppedGrows(cfg: Config, n: nat, s: State, e: Event, s': State, t: Uuid)
    requires Next(cfg, n, s, e, s')
    ensures s.lost.dropped[t] <= s'.lost.dropped[t]
    ensures e.ReadCount? ==> s'.lost == s.lost
  {
  }

  lemma TunnelStep(cfg: Config, n: nat, s: State, e: Event, s': State, t: Uuid)
    requires Next(cfg, n, s, e, s') && InsertsFresh(s, e)
    requires C.Count(s'.threads, Registering()) <= n && IndexLedger(s, t) && TunnelBound(cfg, n, s, t)
    ensures TunnelBound(cfg, n, s', t)
  {
    TunnelChecks(cfg, n, s, e, s', t);
    DroppedGrows(cfg, n, s, e, s', t);
    StepRequests(cfg, n, s, e, s', t);
    if e.ReadCount? {
      IndexUps(cfg, n, s, e, s', t);
      RegistrationsSplit(s', t);
    }
  }

  /** Registrations past the tunnel check and registrations yet to be indexed are different registrations. */
  lemma RegistrationsSplit(s: State, t: Uuid)
    ensures C.Count(s.threads, PastTunnelCheck(t)) + C.Count(s.threads, OwesIndexUp(t)) <= C.Count(s.threads, Registering())
  {
    var a, b := C.Matching(s.threads, PastTunnelCheck(t)), C.Matching(s.threads, OwesIndexUp(t));
    assert a !! b;
    assert |a + b| == |a| + |b|;
    C.SubsetSize(a + b, C.Matching(s.threads, Registering()));
  }

  /** For every run with at most n registrations in flight: both ledgers balance and both limits hold up to what
      the race between checking and inserting can add. */
  lemma {:induction false} RunCounts(cfg: Config, n: nat, events: seq<Event>, t: Uuid)
    requires n >= 1 && Run(cfg, n, events).Some?
    ensures var s := Run(cfg, n, events).value;
      GaugeLedger(s) && IndexLedger(s, t) && GlobalBound(cfg, n, s) && TunnelBound(cfg, n, s, t)
  {
    if events == [] {
      StartCounts(cfg, n, t);
    } else {
      var s, e := Run(cfg, n, events[..|events| - 1]).value, events[|events| - 1];
      RunCounts(cfg, n, events[..|events| - 1], t);
      RunSafe(cfg, n, events[..|events| - 1]);
      SafeInsertsFresh(n, s, e);
      var s' := Step(cfg, n, s, e);
      GaugeStep(cfg, n, s, e, s');
      IndexStep(cfg, n, s, e, s', t);
      GlobalStep(cfg, n, s, e, s');
      TunnelStep(cfg, n, s, e, s', t);
    }
  }

  lemma SafeInsertsFresh(n: nat, s: State, e: Event)
    requires Safe(s) && Enabled(n, s, e)
    ensures InsertsFresh(s, e)
  {
    assert e.tid in s.threads ==> ThreadOk(s, e.tid, s.threads[e.tid]);
  }

  lemma StartCounts(cfg: Config, n: nat, t: Uuid)
    requires n >= 1
    ensures GaugeLedger(START) && IndexLedger(START, t) && GlobalBound(cfg, n, START) && TunnelBound(cfg, n, START, t)
  {
    forall p: Thread -> bool { C.CountEmpty<Tid, Thread>(p); }
    C.CountEmpty<Uuid, Pending>(OnTunnel(t));
  }

  /** The gauge never undercounts, whatever its saturating decrement loses. */
  lemma GaugeNeverUndercounts(cfg: Config, n: nat, events: seq<Event>)
    requires n >= 1 && Run(cfg, n, events).Some?
    ensures var s := Run(cfg, n, events).value;
      s.store.gauge + C.Count(s.threads, OwesGaugeUp()) >= |s.store.requests| + C.Count(s.threads, OwesGaugeDown())
  {
    RunCounts(cfg, n, events, 0);
  }

  /** Pending requests never exceed the global limit by more than the other registrations in flight; those of one
      tunnel, by that and the counts discarded with its index entry. */
  lemma PendingBounded(cfg: Config, n: nat, events: seq<Event>, t: Uuid)
    requires n >= 1 && Run(cfg, n, events).Some?
    ensures var s := Run(cfg, n, events).value;
      && |s.store.requests| <= cfg.maxGlobal + n - 1
      && C.Count(s.store.requests, OnTunnel(t)) <= cfg.maxPerTunnel + n - 1 + s.lost.dropped[t]
  {
    RunCounts(cfg, n, events, t);
  }

  /** When no method is running, the index is off by exactly what was skipped and dropped, the gauge by exactly
      what saturated. */
  lemma QuiescentDrift(cfg: Config, n: nat, events: seq<Event>, t: Uuid)
    requires n >= 1 && Run(cfg, n, events).Some? && Run(cfg, n, events).value.threads == map[]
    ensures var s := Run(cfg, n, events).value;
      && s.store.gauge == |s.store.requests| + s.lost.saturated
      && CountForTunnel(s.store, t) == C.Count(s.store.requests, OnTunnel(t)) + s.lost.skipped[t] - s.lost.dropped[t]
  {
    RunCounts(cfg, n, events, t);
    forall p: Thread -> bool { C.CountEmpty<Tid, Thread>(p); }
  }
}
