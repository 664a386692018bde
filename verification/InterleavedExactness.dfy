/** When the gauge and the index stay exact although everything interleaves. */
module InterleavedExactness {
  import opened Protocol
  import C = Counting
  import opened PendingOps
  import opened Interleavings
  import opened InterleavedCounts

  // ---- exactly which steps lose something ----

  /** A gauge decrement overtakes: every pending and every removed request is still waiting to be counted. */
  ghost predicate GaugeOvertaken(n: nat, s: State, e: Event)
    requires Enabled(n, s, e)
  {
    e.SubGauge? && C.Count(s.threads, OwesGaugeUp()) == |s.store.requests| + C.Count(s.threads, OwesGaugeDown())
  }

  /** An index decrement of the tunnel overtakes in the same way, or its entry is removed although more of its
      requests are pending or being removed than wait to be counted. */
  ghost predicate IndexOvertaken(n: nat, s: State, e: Event, t: Uuid)
    requires Enabled(n, s, e)
  {
    var present := C.Count(s.store.requests, OnTunnel(t)) + C.Count(s.threads, OwesIndexDown(t));
    || (e.SubIndex? && s.threads[e.tid].hand.p.tunnelId == t && C.Count(s.threads, OwesIndexUp(t)) == present)
    || (e.DropEntry? && s.threads[e.tid].hand.p.tunnelId == t && C.Count(s.threads, OwesIndexUp(t)) < present)
  }

  ghost predicate GaugeOvertakenAt(cfg: Config, n: nat, events: seq<Event>, i: nat)
    requires i < |events|
  {
    match Run(cfg, n, events[..i])
    case None => false
    case Some(s) => Enabled(n, s, events[i]) && GaugeOvertaken(n, s, events[i])
  }

  ghost predicate IndexOvertakenAt(cfg: Config, n: nat, events: seq<Event>, i: nat, t: Uuid)
    requires i < |events|
  {
    match Run(cfg, n, events[..i])
    case None => false
    case Some(s) => Enabled(n, s, events[i]) && IndexOvertaken(n, s, events[i], t)
  }

  /** What the index of a tunnel has lost. */
  predicate IndexWhole(s: State, t: Uuid) {
    s.lost.skipped[t] == 0 && s.lost.dropped[t] == 0
  }

  lemma LossStep(cfg: Config, n: nat, s: State, e: Event, s': State, t: Uuid)
    requires Next(cfg, n, s, e, s')
    ensures s'.lost.skipped[t] == s.lost.skipped[t]
              + C.Bit(e.SubIndex? && s.threads[e.tid].hand.p.tunnelId == t && CountForTunnel(s.store, t) == 0)
    ensures s'.lost.dropped[t] == s.lost.dropped[t]
              + if e.DropEntry? && s.threads[e.tid].hand.p.tunnelId == t then CountForTunnel(s.store, t) else 0
  {
    if !TouchesIndex(e) {
      IndexRests(cfg, n, s, e, s');
    }
  }

  /** The first loss happens at an overtaking step and nowhere else. */
  lemma FirstLoss(cfg: Config, n: nat, s: State, e: Event, s': State, t: Uuid)
    requires Next(cfg, n, s, e, s') && GaugeLedger(s) && IndexLedger(s, t)
    ensures s.lost.saturated == 0 ==> (s'.lost.saturated == 0 <==> !GaugeOvertaken(n, s, e))
    ensures s.lost.saturated > 0 ==> s'.lost.saturated > 0
    ensures IndexWhole(s, t) ==> (IndexWhole(s', t) <==> !IndexOvertaken(n, s, e, t))
    ensures !IndexWhole(s, t) ==> !IndexWhole(s', t)
  {
    GaugeMoves(cfg, n, s, e, s');
    LossStep(cfg, n, s, e, s', t);
  }

  ghost predicate GaugeNever(cfg: Config, n: nat, events: seq<Event>) {
    events != [] ==>
      GaugeNever(cfg, n, events[..|events| - 1]) && !GaugeOvertakenAt(cfg, n, events, |events| - 1)
  }

  ghost predicate IndexNever(cfg: Config, n: nat, events: seq<Event>, t: Uuid) {
    events != [] ==>
      IndexNever(cfg, n, events[..|events| - 1], t) && !IndexOvertakenAt(cfg, n, events, |events| - 1, t)
  }

  lemma {:induction false} GaugeNeverAt(cfg: Config, n: nat, events: seq<Event>)
    ensures GaugeNever(cfg, n, events) <==> forall i :: 0 <= i < |events| ==> !GaugeOvertakenAt(cfg, n, events, i)
  {
    if events != [] {
      var front := events[..|events| - 1];
      GaugeNeverAt(cfg, n, front);
      forall i | 0 <= i < |front| ensures GaugeOvertakenAt(cfg, n, front, i) == GaugeOvertakenAt(cfg, n, events, i) {
        assert front[..i] == events[..i];
      }
    }
  }

  lemma {:induction false} IndexNeverAt(cfg: Config, n: nat, events: seq<Event>, t: Uuid)
    ensures IndexNever(cfg, n, events, t) <==> forall i :: 0 <= i < |events| ==> !IndexOvertakenAt(cfg, n, events, i, t)
  {
    if events != [] {
      var front := events[..|events| - 1];
      IndexNeverAt(cfg, n, front, t);
      forall i | 0 <= i < |front| ensures IndexOvertakenAt(cfg, n, front, i, t) == IndexOvertakenAt(cfg, n, events, i, t) {
        assert front[..i] == events[..i];
      }
    }
  }

  lemma {:induction false} LossesExact(cfg: Config, n: nat, events: seq<Event>, t: Uuid)
    requires n >= 1 && Run(cfg, n, events).Some?
    ensures var s := Run(cfg, n, events).value;
      (s.lost.saturated == 0 <==> GaugeNever(cfg, n, events)) && (IndexWhole(s, t) <==> IndexNever(cfg, n, events, t))
  {
    if events != [] {
      var front, e := events[..|events| - 1], events[|events| - 1];
      LossesExact(cfg, n, front, t);
      RunCounts(cfg, n, front, t);
      var s := Run(cfg, n, front).value;
      FirstLoss(cfg, n, s, e, Step(cfg, n, s, e), t);
    }
  }

  /** Under every interleaving the gauge has lost nothing exactly when no decrement of it ever overtook, and the index
      of a tunnel has lost nothing exactly when none of its decrements and entry removals ever did. */
  lemma NothingLostExactly(cfg: Config, n: nat, events: seq<Event>, t: Uuid)
    requires n >= 1 && Run(cfg, n, events).Some?
    ensures var s := Run(cfg, n, events).value;
      && (s.lost.saturated == 0 <==> forall i :: 0 <= i < |events| ==> !GaugeOvertakenAt(cfg, n, events, i))
      && (IndexWhole(s, t) <==> forall i :: 0 <= i < |events| ==> !IndexOvertakenAt(cfg, n, events, i, t))
  {
    LossesExact(cfg, n, events, t);
    GaugeNeverAt(cfg, n, events);
    IndexNeverAt(cfg, n, events, t);
  }

  /** When no method is running the gauge is exact if and only if no decrement ever overtook; a tunnel's index is
      exact if none of its decrements and entry removals ever did. */
  lemma QuiescentExact(cfg: Config, n: nat, events: seq<Event>, t: Uuid)
    requires n >= 1 && Run(cfg, n, events).Some? && Run(cfg, n, events).value.threads == map[]
    ensures var s := Run(cfg, n, events).value;
      && (s.store.gauge == |s.store.requests|
          <==> forall i :: 0 <= i < |events| ==> !GaugeOvertakenAt(cfg, n, events, i))
      && ((forall i :: 0 <= i < |events| ==> !IndexOvertakenAt(cfg, n, events, i, t))
          ==> CountForTunnel(s.store, t) == C.Count(s.store.requests, OnTunnel(t)))
  {
    NothingLostExactly(cfg, n, events, t);
    QuiescentDrift(cfg, n, events, t);
  }

  // ---- a discipline under which nothing is lost ----

  predicate Uncounted(th: Thread) {
    th.Gauging? || th.Indexing?
  }

  /** No removal takes a request whose registration is still counting it, and no registration is counted in an index
      entry that is about to be removed. */
  ghost predicate Orderly(n: nat, s: State, e: Event)
    requires Enabled(n, s, e)
  {
    && (Takes(n, s, e) ==> forall tid :: tid in s.threads && Uncounted(s.threads[tid]) ==>
          s.threads[tid].p.requestId != s.threads[e.tid].todo[0])
    && (e.AddIndex? ==> forall tid :: tid in s.threads && Holds(s.threads[tid], TheEntry) ==>
          s.threads[tid].hand.p.tunnelId != s.threads[e.tid].p.tunnelId)
  }

  ghost predicate OrderlyRun(cfg: Config, n: nat, events: seq<Event>) {
    events == [] ||
    var front := events[..|events| - 1];
    && OrderlyRun(cfg, n, front)
    && (Run(cfg, n, front).Some? && Enabled(n, Run(cfg, n, front).value, events[|events| - 1])
        ==> Orderly(n, Run(cfg, n, front).value, events[|events| - 1]))
  }

  /** Every registration that still counts has its own request in the map. */
  ghost predicate CountingOwn(s: State) {
    && (forall a :: a in s.threads && Uncounted(s.threads[a]) ==>
          s.threads[a].p.requestId in s.store.requests && s.store.requests[s.threads[a].p.requestId] == s.threads[a].p)
    && (forall a, b | a in s.threads && b in s.threads && Uncounted(s.threads[a]) && Uncounted(s.threads[b]) ::
          s.threads[a].p.requestId == s.threads[b].p.requestId ==> a == b)
  }

  /** An entry about to be removed is still at zero. */
  ghost predicate EntriesZero(s: State) {
    forall a :: a in s.threads && Holds(s.threads[a], TheEntry) ==> CountForTunnel(s.store, s.threads[a].hand.p.tunnelId) == 0
  }

  function IdOf(): Thread -> Uuid {
    (th: Thread) => if th.Collecting? || th.Removing? then 0 else th.p.requestId
  }

  lemma UncountedFit(s: State, t: Uuid)
    requires CountingOwn(s)
    ensures C.Count(s.threads, OwesGaugeUp()) <= |s.store.requests|
    ensures C.Count(s.threads, OwesIndexUp(t)) <= C.Count(s.store.requests, OnTunnel(t))
  {
    C.CountNamed(s.threads, OwesGaugeUp(), IdOf(), s.store.requests.Keys);
    C.CountNamed(s.threads, OwesIndexUp(t), IdOf(), C.Matching(s.store.requests, OnTunnel(t)));
  }

  lemma OneOwes(s: State, p: Thread -> bool, tid: Tid)
    requires tid in s.threads && p(s.threads[tid])
    ensures C.Count(s.threads, p) >= 1
  {
    C.CountRemove(s.threads, tid, p);
  }

  // ---- the discipline is kept by every orderly step ----

  lemma UncountedStep(cfg: Config, n: nat, s: State, e: Event, s': State)
    requires Next(cfg, n, s, e, s')
    ensures e.tid in s'.threads && Uncounted(s'.threads[e.tid]) ==>
              e.tid in s.threads && (e.Insert? || Uncounted(s.threads[e.tid]))
              && s'.threads[e.tid].p == s.threads[e.tid].p
  {
    if !OfRegistration(e) {
      RemovalsCounted(cfg, n, s, e, s');
    }
  }

  lemma RemovalsCounted(cfg: Config, n: nat, s: State, e: Event, s': State)
    requires Next(cfg, n, s, e, s') && !OfRegistration(e)
    ensures e.tid in s'.threads ==> !Uncounted(s'.threads[e.tid])
  {
  }

  lemma CountingOwnStep(cfg: Config, n: nat, s: State, e: Event, s': State)
    requires Next(cfg, n, s, e, s') && InsertsFresh(s, e) && Orderly(n, s, e) && CountingOwn(s)
    ensures CountingOwn(s')
  {
    OneThread(cfg, n, s, e, s');
    StepMap(cfg, n, s, e, s');
    UncountedStep(cfg, n, s, e, s');
  }

  lemma EntryHolders(cfg: Config, n: nat, s: State, e: Event, s': State)
    requires Next(cfg, n, s, e, s')
    ensures e.tid in s'.threads && Holds(s'.threads[e.tid], TheEntry) ==>
              e.SubIndex? && CountForTunnel(s'.store, s'.threads[e.tid].hand.p.tunnelId) == 0
  {
    if !e.SubIndex? {
      NoEntry(cfg, n, s, e, s');
    }
  }

  lemma NoEntry(cfg: Config, n: nat, s: State, e: Event, s': State)
    requires Next(cfg, n, s, e, s') && !e.SubIndex?
    ensures e.tid in s'.threads ==> !Holds(s'.threads[e.tid], TheEntry)
  {
  }

  lemma IndexRises(cfg: Config, n: nat, s: State, e: Event, s': State, t: Uuid)
    requires Next(cfg, n, s, e, s')
    ensures CountForTunnel(s'.store, t) > CountForTunnel(s.store, t) ==> e.AddIndex? && s.threads[e.tid].p.tunnelId == t
  {
    if !TouchesIndex(e) {
      IndexRests(cfg, n, s, e, s');
    }
  }

  lemma EntriesZeroStep(cfg: Config, n: nat, s: State, e: Event, s': State)
    requires Next(cfg, n, s, e, s') && Orderly(n, s, e) && EntriesZero(s)
    ensures EntriesZero(s')
  {
    OneThread(cfg, n, s, e, s');
    EntryHolders(cfg, n, s, e, s');
    forall a | a in s'.threads && Holds(s'.threads[a], TheEntry)
      ensures CountForTunnel(s'.store, s'.threads[a].hand.p.tunnelId) == 0
    {
      if a != e.tid {
        IndexRises(cfg, n, s, e, s', s.threads[a].hand.p.tunnelId);
      }
    }
  }

  lemma NothingLost(cfg: Config, n: nat, s: State, e: Event, s': State, t: Uuid)
    requires Next(cfg, n, s, e, s') && GaugeLedger(s) && IndexLedger(s, t)
    requires CountingOwn(s) && EntriesZero(s) && s.lost.saturated == 0 && IndexWhole(s, t)
    ensures s'.lost.saturated == 0 && IndexWhole(s', t)
  {
    UncountedFit(s, t);
    GaugeMoves(cfg, n, s, e, s');
    LossStep(cfg, n, s, e, s', t);
    if e.SubGauge? {
      OneOwes(s, OwesGaugeDown(), e.tid);
    } else if e.SubIndex? && s.threads[e.tid].hand.p.tunnelId == t {
      OneOwes(s, OwesIndexDown(t), e.tid);
    }
  }

  /** In an orderly run nothing is ever lost. */
  lemma {:induction false} OrderlyLosesNothing(cfg: Config, n: nat, events: seq<Event>, t: Uuid)
    requires n >= 1 && Run(cfg, n, events).Some? && OrderlyRun(cfg, n, events)
    ensures var s := Run(cfg, n, events).value;
      CountingOwn(s) && EntriesZero(s) && s.lost.saturated == 0 && IndexWhole(s, t)
  {
    if events != [] {
      var front, e := events[..|events| - 1], events[|events| - 1];
      OrderlyLosesNothing(cfg, n, front, t);
      RunCounts(cfg, n, front, t);
      RunSafe(cfg, n, front);
      var s := Run(cfg, n, front).value;
      SafeInsertsFresh(n, s, e);
      var s' := Step(cfg, n, s, e);
      CountingOwnStep(cfg, n, s, e, s');
      EntriesZeroStep(cfg, n, s, e, s');
      NothingLost(cfg, n, s, e, s', t);
    }
  }

  /** Orderly runs: gauge and index are exact whenever no method is running, and no tunnel ever passes its limit by
      more than the other registrations in flight. */
  lemma OrderlyExact(cfg: Config, n: nat, events: seq<Event>, t: Uuid)
    requires n >= 1 && Run(cfg, n, events).Some? && OrderlyRun(cfg, n, events)
    ensures var s := Run(cfg, n, events).value;
      && C.Count(s.store.requests, OnTunnel(t)) <= cfg.maxPerTunnel + n - 1
      && (s.threads == map[] ==>
            s.store.gauge == |s.store.requests| && CountForTunnel(s.store, t) == C.Count(s.store.requests, OnTunnel(t)))
  {
    OrderlyLosesNothing(cfg, n, events, t);
    PendingBounded(cfg, n, events, t);
    if Run(cfg, n, events).value.threads == map[] {
      QuiescentDrift(cfg, n, events, t);
    }
  }
}
