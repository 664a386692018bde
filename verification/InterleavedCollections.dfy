/** What a closing or a sweep has achieved when it returns, whatever ran beside it. */
module InterleavedCollections {
  import opened Protocol
  import opened PendingOps
  import opened Interleavings
  import opened InterleavedCounts

  /** A walk that is still going knows what it is looking for; one that is over has it on its list. */
  ghost predicate DueAt(s: State, tid: Tid) {
    tid in s.threads ==>
      match s.threads[tid]
      case Collecting(_, _) => tid in s.due && s.due[tid] <= s.registered.Keys
      case Removing(cause, todo, _, _, _) =>
        !cause.ByClient? ==>
          && tid in s.due && s.due[tid] <= s.registered.Keys
          && forall k :: k in s.due[tid] && k in s.store.requests ==> k in todo
      case _ => true
  }

  /** Only fresh requests enter the map. */
  ghost predicate NoReturn(s: State, s': State) {
    && s.registered.Keys <= s'.registered.Keys
    && forall k :: k in s'.store.requests ==> k in s.store.requests || k !in s.registered
  }

  lemma StepNoReturn(cfg: Config, n: nat, s: State, e: Event, s': State)
    requires Safe(s) && Next(cfg, n, s, e, s')
    ensures NoReturn(s, s')
  {
    assert e.Insert? ==> ThreadOk(s, e.tid, s.threads[e.tid]);
    StoreShrinks(cfg, n, s, e, s');
  }

  lemma StoreShrinks(cfg: Config, n: nat, s: State, e: Event, s': State)
    requires Next(cfg, n, s, e, s')
    ensures e.Insert? ==> s'.store.requests.Keys == s.store.requests.Keys + {s.threads[e.tid].p.requestId}
                          && s'.registered.Keys == s.registered.Keys + {s.threads[e.tid].p.requestId}
    ensures !e.Insert? ==> s'.store.requests.Keys <= s.store.requests.Keys && s'.registered == s.registered
  {
    StepMap(cfg, n, s, e, s');
    RegisteredStep(cfg, n, s, e, s');
  }

  lemma RegisteredStep(cfg: Config, n: nat, s: State, e: Event, s': State)
    requires Next(cfg, n, s, e, s')
    ensures s'.registered ==
      if e.Insert? then s.registered[s.threads[e.tid].p.requestId := s.threads[e.tid].p] else s.registered
  {
  }

  lemma DueStep(cfg: Config, n: nat, s: State, e: Event, s': State)
    requires Next(cfg, n, s, e, s')
    ensures s'.due == if e.SpawnCollect? then s.due[e.tid := Due(s, e.cause)] else s.due
  {
  }

  lemma OtherDue(cfg: Config, n: nat, s: State, e: Event, s': State, tid: Tid)
    requires Next(cfg, n, s, e, s') && NoReturn(s, s') && tid != e.tid && DueAt(s, tid)
    ensures DueAt(s', tid)
  {
    OneThread(cfg, n, s, e, s');
    StoreShrinks(cfg, n, s, e, s');
    DueStep(cfg, n, s, e, s');
    assert tid in s'.threads <==> tid in s.threads;
    assert tid in s.threads ==> s'.threads[tid] == s.threads[tid];
  }

  predicate ChangesList(e: Event) {
    e.SpawnFulfil? || e.SpawnCollect? || e.EndCollect? || e.Take?
  }

  /** Any other step leaves what its removal has to do as it was. */
  lemma ListKept(cfg: Config, n: nat, s: State, e: Event, s': State)
    requires Next(cfg, n, s, e, s') && !ChangesList(e) && e.tid in s'.threads
    ensures s'.threads[e.tid].Removing? ==>
              e.tid in s.threads && s.threads[e.tid].Removing?
              && s.threads[e.tid].cause == s'.threads[e.tid].cause && s.threads[e.tid].todo == s'.threads[e.tid].todo
    ensures s'.threads[e.tid].Collecting? ==> e.tid in s.threads && s.threads[e.tid].Collecting?
  {
  }

  lemma ListChanged(cfg: Config, n: nat, s: State, e: Event, s': State)
    requires Next(cfg, n, s, e, s') && ChangesList(e) && DueAt(s, e.tid)
    requires s.store.requests.Keys <= s.registered.Keys
    ensures DueAt(s', e.tid)
  {
    if e.Take? {
      var todo := s.threads[e.tid].todo;
      assert forall k :: k in todo ==> k == todo[0] || k in todo[1..];
    }
  }

  lemma OwnDue(cfg: Config, n: nat, s: State, e: Event, s': State)
    requires Next(cfg, n, s, e, s') && NoReturn(s, s') && DueAt(s, e.tid)
    requires s.store.requests.Keys <= s.registered.Keys
    ensures DueAt(s', e.tid)
  {
    if ChangesList(e) {
      ListChanged(cfg, n, s, e, s');
    } else if e.tid in s'.threads {
      ListKept(cfg, n, s, e, s');
      StoreShrinks(cfg, n, s, e, s');
      DueStep(cfg, n, s, e, s');
    }
  }

  lemma {:induction false} RunDue(cfg: Config, n: nat, events: seq<Event>)
    requires Run(cfg, n, events).Some?
    ensures forall tid :: DueAt(Run(cfg, n, events).value, tid)
  {
    if events != [] {
      var front, e := events[..|events| - 1], events[|events| - 1];
      RunDue(cfg, n, front);
      RunSafe(cfg, n, front);
      var s := Run(cfg, n, front).value;
      var s' := Step(cfg, n, s, e);
      StepNoReturn(cfg, n, s, e, s');
      OwnDue(cfg, n, s, e, s');
      forall tid ensures DueAt(s', tid) {
        if tid != e.tid {
          OtherDue(cfg, n, s, e, s', tid);
        }
      }
    }
  }

  /** What a walk looks for is fixed when it starts. */
  lemma {:induction false} DueFixed(cfg: Config, n: nat, start: seq<Event>, tid: Tid, cause: Answerer, later: seq<Event>)
    requires Run(cfg, n, start + [SpawnCollect(tid, cause)] + later).Some?
    requires forall e :: e in later ==> !(e.SpawnCollect? && e.tid == tid)
    ensures Run(cfg, n, start).Some?
    ensures var s := Run(cfg, n, start + [SpawnCollect(tid, cause)] + later).value;
      tid in s.due && s.due[tid] == Due(Run(cfg, n, start).value, cause)
  {
    var events := start + [SpawnCollect(tid, cause)] + later;
    var front, e := events[..|events| - 1], events[|events| - 1];
    var s := Run(cfg, n, front).value;
    DueStep(cfg, n, s, e, Step(cfg, n, s, e));
    if later == [] {
      assert front == start;
    } else {
      assert front == start + [SpawnCollect(tid, cause)] + later[..|later| - 1];
      assert e in later;
      DueFixed(cfg, n, start, tid, cause, later[..|later| - 1]);
    }
  }

  /** A closing or a sweep that is about to return has left nothing behind: every request it could see pending when
      it started, and may answer, has been answered, or is in the hands of another remover. */
  lemma WalkLeavesNone(cfg: Config, n: nat, start: seq<Event>, tid: Tid, cause: Answerer, later: seq<Event>, k: Uuid)
    requires Run(cfg, n, start + [SpawnCollect(tid, cause)] + later).Some?
    requires forall e :: e in later ==> !(e.SpawnCollect? && e.tid == tid)
    requires var s := Run(cfg, n, start + [SpawnCollect(tid, cause)] + later).value;
      Enabled(n, s, Finish(tid)) && !s.threads[tid].cause.ByClient?
    requires Run(cfg, n, start).Some? && k in Due(Run(cfg, n, start).value, cause)
    ensures var s := Run(cfg, n, start + [SpawnCollect(tid, cause)] + later).value;
      !IsPending(s, k) && (Answered(s.replies, k) || exists other :: other != tid && HeldBy(s, k, other))
  {
    var events := start + [SpawnCollect(tid, cause)] + later;
    var s := Run(cfg, n, events).value;
    DueFixed(cfg, n, start, tid, cause, later);
    RunDue(cfg, n, events);
    assert DueAt(s, tid);
    OnePlaceEach(cfg, n, events, k);
  }
}
