/** What the expiry counter still means when sweeps interleave with everything else. */
module InterleavedExpiry {
  import opened Protocol
  import C = Counting
  import opened PendingOps
  import opened Interleavings

  predicate Sweeps(th: Thread) {
    th.Removing? && th.cause.BySweep?
  }

  /** How many of its collected ids a sweep is done with. */
  function Handled(): Thread -> int {
    (th: Thread) => if Sweeps(th) then th.collected - |th.todo| - (if th.hand.Holding? then 1 else 0) else 0
  }

  /** A sweep finds a collected id gone. */
  ghost predicate Misses(n: nat, s: State, e: Event)
    requires Enabled(n, s, e)
  {
    e.Take? && Sweeps(s.threads[e.tid]) && s.threads[e.tid].todo[0] !in s.store.requests
  }

  ghost predicate MissesAt(cfg: Config, n: nat, events: seq<Event>, i: nat)
    requires i < |events|
  {
    match Run(cfg, n, events[..i])
    case None => false
    case Some(s) => Enabled(n, s, events[i]) && Misses(n, s, events[i])
  }

  /** How often a run's sweeps found an id gone. */
  ghost function Missed(cfg: Config, n: nat, events: seq<Event>): nat {
    if events == [] then 0
    else Missed(cfg, n, events[..|events| - 1]) + C.Bit(MissesAt(cfg, n, events, |events| - 1))
  }

  /** Only closings put requests aside. */
  ghost predicate Undrained(s: State) {
    forall tid :: tid in s.threads && Sweeps(s.threads[tid]) ==> s.threads[tid].drained == []
  }

  ghost predicate ExpiryLedger(s: State, missed: nat) {
    s.store.expiredTotal + C.Sum(s.threads, Handled()) == SweepReplies(s.replies) + missed
  }

  lemma UndrainedStep(cfg: Config, n: nat, s: State, e: Event, s': State)
    requires Next(cfg, n, s, e, s') && Undrained(s)
    ensures Undrained(s')
  {
    OneThread(cfg, n, s, e, s');
    forall tid | tid in s'.threads && Sweeps(s'.threads[tid]) ensures s'.threads[tid].drained == [] {
      if tid == e.tid {
        OwnDrained(cfg, n, s, e, s');
      }
    }
  }

  lemma OwnDrained(cfg: Config, n: nat, s: State, e: Event, s': State)
    requires Next(cfg, n, s, e, s') && e.tid in s'.threads && Sweeps(s'.threads[e.tid])
    requires e.tid in s.threads && Sweeps(s.threads[e.tid]) ==> s.threads[e.tid].drained == []
    ensures s'.threads[e.tid].drained == []
  {
    if !e.Deliver? && !e.Flush? {
      DrainedKept(cfg, n, s, e, s');
    }
  }

  lemma DrainedKept(cfg: Config, n: nat, s: State, e: Event, s': State)
    requires Next(cfg, n, s, e, s') && !e.Deliver? && !e.Flush?
    requires e.tid in s'.threads && s'.threads[e.tid].Removing?
    ensures var th' := s'.threads[e.tid];
      th'.drained == [] || (e.tid in s.threads && s.threads[e.tid].Removing? && s.threads[e.tid].cause == th'.cause
                            && s.threads[e.tid].drained == th'.drained)
  {
  }

  lemma ThreadHandled(cfg: Config, n: nat, s: State, e: Event, s': State)
    requires Next(cfg, n, s, e, s')
    ensures C.Sum(s'.threads, Handled()) == C.Sum(s.threads, Handled())
              - (if e.tid in s.threads then Handled()(s.threads[e.tid]) else 0)
              + (if e.tid in s'.threads then Handled()(s'.threads[e.tid]) else 0)
  {
    OneThread(cfg, n, s, e, s');
    if e.tid in s'.threads {
      C.SumUpdate(s.threads, e.tid, s'.threads[e.tid], Handled());
    } else {
      C.SumRemove(s.threads, e.tid, Handled());
    }
  }

  /** The collected ids a finishing sweep reports. */
  ghost function Reported(n: nat, s: State, e: Event): nat
    requires Enabled(n, s, e)
  {
    if e.Finish? && Sweeps(s.threads[e.tid]) then s.threads[e.tid].collected else 0
  }

  ghost predicate Answers504(n: nat, s: State, e: Event)
    requires Enabled(n, s, e)
  {
    e.Deliver? && Sweeps(s.threads[e.tid])
  }

  /** A step of a removal moves at most one id from undone to done. */
  lemma HandledStep(cfg: Config, n: nat, s: State, e: Event, s': State)
    requires Next(cfg, n, s, e, s')
    ensures C.Sum(s'.threads, Handled()) == C.Sum(s.threads, Handled())
              + C.Bit(Misses(n, s, e)) + C.Bit(Answers504(n, s, e)) - Reported(n, s, e)
  {
    ThreadHandled(cfg, n, s, e, s');
    if OfRegistration(e) {
      RegistersNoSweep(cfg, n, s, e, s');
    }
  }

  lemma RegistersNoSweep(cfg: Config, n: nat, s: State, e: Event, s': State)
    requires Next(cfg, n, s, e, s') && OfRegistration(e)
    ensures e.tid in s.threads ==> !Sweeps(s.threads[e.tid])
    ensures e.tid in s'.threads ==> !Sweeps(s'.threads[e.tid])
  {
  }

  lemma ExpiredStep(cfg: Config, n: nat, s: State, e: Event, s': State)
    requires Next(cfg, n, s, e, s')
    ensures s'.store.expiredTotal == s.store.expiredTotal + Reported(n, s, e)
  {
  }

  lemma SweepRepliesSnoc(replies: seq<Reply>, r: Reply)
    ensures SweepReplies(replies + [r]) == SweepReplies(replies) + C.Bit(r.cause.BySweep?)
  {
    assert (replies + [r])[..|replies|] == replies;
  }

  lemma RepliesStep(cfg: Config, n: nat, s: State, e: Event, s': State)
    requires Next(cfg, n, s, e, s') && Undrained(s)
    ensures SweepReplies(s'.replies) == SweepReplies(s.replies) + C.Bit(Answers504(n, s, e))
  {
    if e.Deliver? && !s.threads[e.tid].cause.ByClose? {
      SweepRepliesSnoc(s.replies, Answer(s.threads[e.tid].hand.p, s.threads[e.tid].cause));
    } else if e.Flush? {
      SweepRepliesSnoc(s.replies, Answer(s.threads[e.tid].drained[0], s.threads[e.tid].cause));
    } else {
      Silent(cfg, n, s, e, s');
    }
  }

  lemma Silent(cfg: Config, n: nat, s: State, e: Event, s': State)
    requires Next(cfg, n, s, e, s') && !e.Flush? && (e.Deliver? ==> s.threads[e.tid].cause.ByClose?)
    ensures s'.replies == s.replies
  {
  }

  lemma {:induction false} RunExpiry(cfg: Config, n: nat, events: seq<Event>)
    requires Run(cfg, n, events).Some?
    ensures var s := Run(cfg, n, events).value; Undrained(s) && ExpiryLedger(s, Missed(cfg, n, events))
  {
    if events != [] {
      var front, e := events[..|events| - 1], events[|events| - 1];
      RunExpiry(cfg, n, front);
      var s := Run(cfg, n, front).value;
      var s' := Step(cfg, n, s, e);
      UndrainedStep(cfg, n, s, e, s');
      HandledStep(cfg, n, s, e, s');
      ExpiredStep(cfg, n, s, e, s');
      RepliesStep(cfg, n, s, e, s');
    } else {
      C.SumZero<Tid, Thread>(map[], Handled());
    }
  }

  lemma {:induction false} MissedNever(cfg: Config, n: nat, events: seq<Event>)
    ensures Missed(cfg, n, events) == 0 <==> forall i :: 0 <= i < |events| ==> !MissesAt(cfg, n, events, i)
  {
    if events != [] {
      var front := events[..|events| - 1];
      MissedNever(cfg, n, front);
      forall i | 0 <= i < |front| ensures MissesAt(cfg, n, front, i) == MissesAt(cfg, n, events, i) {
        assert front[..i] == events[..i];
      }
    }
  }

  /** No sweep is between collecting and reporting. */
  ghost predicate SweepsIdle(s: State) {
    forall tid :: tid in s.threads ==> !Sweeps(s.threads[tid])
  }

  /** Under every interleaving, whenever no sweep is at work, `expired_total` is the number of 504 answers and of the
      collected ids sweeps found gone: never below the answers, and equal to them exactly when no sweep ever found
      an id gone. */
  lemma ExpiryExact(cfg: Config, n: nat, events: seq<Event>)
    requires Run(cfg, n, events).Some? && SweepsIdle(Run(cfg, n, events).value)
    ensures var s := Run(cfg, n, events).value;
      && s.store.expiredTotal == SweepReplies(s.replies) + Missed(cfg, n, events)
      && s.store.expiredTotal >= SweepReplies(s.replies)
      && (s.store.expiredTotal == SweepReplies(s.replies)
          <==> forall i :: 0 <= i < |events| ==> !MissesAt(cfg, n, events, i))
  {
    RunExpiry(cfg, n, events);
    C.SumZero(Run(cfg, n, events).value.threads, Handled());
    MissedNever(cfg, n, events);
  }

  /** An id a sweep finds gone was taken by someone else since it was collected: another remover holds its request,
      or the request is already answered. */
  lemma MissedWasTaken(cfg: Config, n: nat, events: seq<Event>, e: Event)
    requires Run(cfg, n, events).Some? && Enabled(n, Run(cfg, n, events).value, e)
    requires Misses(n, Run(cfg, n, events).value, e)
    ensures var s := Run(cfg, n, events).value;
      var k := s.threads[e.tid].todo[0];
      && k in s.registered && s.registered[k].deadline <= s.threads[e.tid].cause.now
      && (Answered(s.replies, k) || exists tid :: tid != e.tid && HeldBy(s, k, tid))
  {
    RunSafe(cfg, n, events);
    var s := Run(cfg, n, events).value;
    var th := s.threads[e.tid];
    assert ThreadOk(s, e.tid, th);
    assert TodoOk(s.registered, th.cause, th.todo[0]);
    OnePlaceEach(cfg, n, events, th.todo[0]);
    RunExpiry(cfg, n, events);
  }
}
