/** Nothing is revoked or delivered for free: over every interleaving of any number of workers, a
    row becomes REVOKED only after its provider was called and answered, and DELIVERED only if
    that happened to it or to a row of the same member, provider and action. */
module OutboxOrigins {
  import opened Wrappers
  import opened Outbox
  import opened OutboxLeases
  import opened OutboxSafety
  import opened OutboxSiblings

  /** The step calls the provider for this row, with the row's own member and provider, and the
      provider answers. */
  predicate Answered(s: System, e: Event, id: Id)
    requires Enabled(s, e)
  {
    && e.Begin? && e.outcome.Through?
    && var calls := Next(s, e).calls;
       |calls| == |s.calls| + 1 && calls[..|s.calls|] == s.calls
       && calls[|s.calls|].entry.id == id && id in s.rows && SameWork(s.rows[id], calls[|s.calls|].entry)
  }

  /** At some step of the run this happened. */
  ghost predicate WasAnswered(s: System, es: seq<Event>, id: Id)
    requires Trace(s, es)
    decreases |es|
  {
    es != [] && (WasAnswered(s, es[..|es| - 1], id) || Answered(Run(s, es[..|es| - 1]), es[|es| - 1], id))
  }

  /** The ids whose revocation is accounted for: revoked from the start, or answered since. */
  ghost predicate Earned(s0: System, s: System, e: Event, earned: set<Id>, earned': set<Id>)
    requires Enabled(s, e)
  {
    earned <= earned' && forall i :: i in s.rows && Answered(s, e, i) ==> i in earned'
  }

  predicate PointEarned(at: Point, earned: set<Id>) {
    at.Checkpoint? || at.Finalizing? || at.Releasing? || (at.Recording? && at.retry == Revoked) ==> at.entry.id in earned
  }

  predicate WorkerEarned(worker: Worker, earned: set<Id>) {
    && (forall k :: 0 <= k < |worker.queue| && worker.queue[k].status == Revoked ==> worker.queue[k].id in earned)
    && PointEarned(worker.at, earned)
    && (worker.at.Recording? ==> worker.at.retry == Pending || worker.at.retry == Revoked)
  }

  predicate RowEarned(row: Row, i: Id, earned: set<Id>) {
    row.status == Revoked || row.status == FinalizeFailed ==> i in earned
  }

  /** A row DELIVERED since the start has an earned row of its own work. */
  predicate DeliveryEarned(s0: System, s: System, i: Id, earned: set<Id>)
    requires i in s.rows
  {
    s.rows[i].status == Delivered && !(i in s0.rows && s0.rows[i].status == Delivered) ==>
      exists j :: j in s.rows && j in earned && JobOf(s.rows[j]) == JobOf(s.rows[i])
  }

  predicate AllEarned(s0: System, s: System, earned: set<Id>) {
    && s.revoked <= earned
    && (forall i :: i in s.rows ==> RowEarned(s.rows[i], i, earned))
    && (forall w :: w in s.workers ==> WorkerEarned(s.workers[w], earned))
    && (forall i :: i in s.rows ==> DeliveryEarned(s0, s, i, earned))
  }

  // ------------------------------------------------------------------ one step

  /** A turn that gets to the provider, or finds the row revoked, earns what it goes on to. */
  lemma BeginEarns(s: System, e: Event, earned: set<Id>, earned': set<Id>)
    requires WellFormed(s) && Enabled(s, e) && e.Begin? && Earned(s, s, e, earned, earned')
    requires WorkerEarned(s.workers[e.w], earned) && forall i :: i in s.rows ==> RowEarned(s.rows[i], i, earned)
    ensures PointEarned(PointAfter(s, e), earned')
    ensures PointAfter(s, e).Recording? ==> PointAfter(s, e).retry == Pending || PointAfter(s, e).retry == Revoked
    ensures var x := s.workers[e.w].queue[0]; x.id in s.rows && RowEarned(RowAfter(s, e, x.id), x.id, earned')
  {
    ActingEntry(s, e, e.w);
    hide WellFormed;
    var x := s.workers[e.w].queue[0];
    NextIs(s, e);
    assert RowEarned(s.rows[x.id], x.id, earned);
    if NewCalls(s, e) != [] && e.outcome.Through? {
      assert s.calls + NewCalls(s, e) == Next(s, e).calls;
      assert Answered(s, e, x.id);
    }
    hide Next;
  }

  lemma PointStaysEarned(s: System, e: Event, earned: set<Id>)
    requires Enabled(s, e) && Actor(e).Some? && !e.Begin? && WorkerEarned(s.workers[e.w], earned)
    ensures PointEarned(PointAfter(s, e), earned)
    ensures PointAfter(s, e).Recording? ==> PointAfter(s, e).retry == Pending || PointAfter(s, e).retry == Revoked
  {
    hide Finishes;
  }

  lemma RowStaysEarned(s: System, e: Event, i: Id, earned: set<Id>)
    requires WellFormed(s) && Enabled(s, e) && i in s.rows && RowEarned(s.rows[i], i, earned)
    requires Actor(e).Some? ==> WorkerEarned(s.workers[e.w], earned)
    requires e.Begin? ==> s.workers[e.w].queue[0].id != i
    ensures RowEarned(RowAfter(s, e, i), i, earned)
  {
    hide Finishes;
    hide Check;
  }

  lemma ClaimStaysEarned(s: System, e: Event, earned: set<Id>)
    requires Enabled(s, e) && e.Claim? && forall i :: i in s.rows ==> RowEarned(s.rows[i], i, earned)
    ensures WorkerEarned(Next(s, e).workers[e.w], earned)
  {
    ClaimedQueue(s, e);
    forall k | 0 <= k < |e.batch| ensures Next(s, e).rows[e.batch[k]].status == s.rows[e.batch[k]].status {
      RowAfterStep(s, e, e.batch[k]);
    }
    hide Next;
  }

  lemma EarnedMore(worker: Worker, earned: set<Id>, earned': set<Id>)
    requires WorkerEarned(worker, earned) && earned <= earned'
    ensures WorkerEarned(worker, earned')
  {
  }

  lemma WorkerStep(s0: System, s: System, e: Event, w: Token, earned: set<Id>, earned': set<Id>)
    requires WellFormed(s) && Enabled(s, e) && AllEarned(s0, s, earned) && Earned(s0, s, e, earned, earned') && w in Next(s, e).workers
    ensures WorkerEarned(Next(s, e).workers[w], earned')
  {
    hide RowEarned;
    hide PointEarned;
    if e == Spawn(w) {
      hide DeliveryEarned;
      NothingEarned(earned');
    } else if Actor(e) != Some(w) {
      OthersUnmoved(s, e, w);
      EarnedMore(s.workers[w], earned, earned');
    } else if e.Claim? {
      ClaimStaysEarned(s, e, earned);
      EarnedMore(Next(s, e).workers[w], earned, earned');
    } else {
      ActorStep(s, e, earned, earned');
    }
  }

  lemma NothingEarned(earned: set<Id>)
    ensures WorkerEarned(Worker([], Ready), earned)
  {
  }

  lemma ActorStep(s: System, e: Event, earned: set<Id>, earned': set<Id>)
    requires WellFormed(s) && Enabled(s, e) && Actor(e).Some? && !e.Claim? && Earned(s, s, e, earned, earned')
    requires WorkerEarned(s.workers[e.w], earned) && forall i :: i in s.rows ==> RowEarned(s.rows[i], i, earned)
    ensures e.w in Next(s, e).workers && WorkerEarned(Next(s, e).workers[e.w], earned')
  {
    hide PointEarned;
    hide RowEarned;
    var worker, worker' := s.workers[e.w], Next(s, e).workers[e.w];
    if e.Begin? {
      BeginEarns(s, e, earned, earned');
      hide Answered;
      forall k | 0 <= k < |worker'.queue| && worker'.queue[k].status == Revoked ensures worker'.queue[k].id in earned' {
        assert worker'.queue[k] == worker.queue[k + 1];
      }
    } else {
      PointStaysEarned(s, e, earned);
      PointMore(PointAfter(s, e), earned, earned');
    }
  }

  lemma PointMore(at: Point, earned: set<Id>, earned': set<Id>)
    requires PointEarned(at, earned) && earned <= earned'
    ensures PointEarned(at, earned')
  {
  }

  lemma RowStep(s0: System, s: System, e: Event, i: Id, earned: set<Id>, earned': set<Id>)
    requires WellFormed(s) && Enabled(s, e) && AllEarned(s0, s, earned) && Earned(s0, s, e, earned, earned') && i in Next(s, e).rows
    ensures RowEarned(Next(s, e).rows[i], i, earned')
  {
    hide Answered;
    hide DeliveryEarned;
    if i !in s.rows {
      NewRowIsPending(s, e, i);
    } else {
      RowAfterStep(s, e, i);
      hide Next;
      if e.Begin? && s.workers[e.w].queue[0].id == i {
        BeginEarns(s, e, earned, earned');
      } else {
        RowStaysEarned(s, e, i, earned);
      }
    }
  }

  /** A row becomes DELIVERED by the finalization of an earned row of its work. */
  lemma DeliveredBy(s: System, e: Event, i: Id, earned: set<Id>)
    requires WellFormed(s) && Enabled(s, e) && i in s.rows && (Actor(e).Some? ==> WorkerEarned(s.workers[e.w], earned))
    requires RowAfter(s, e, i).status == Delivered && s.rows[i].status != Delivered
    ensures exists j :: j in s.rows && j in earned && JobOf(s.rows[j]) == JobOf(s.rows[i])
  {
    hide Check;
    assert e.Finalize?;
    ActingEntry(s, e, e.w);
    var j := s.workers[e.w].at.entry.id;
    assert j in s.rows && j in earned;
  }

  lemma JobsPersist(s: System, e: Event)
    requires Enabled(s, e)
    ensures forall i :: i in s.rows ==> i in Next(s, e).rows && JobOf(Next(s, e).rows[i]) == JobOf(s.rows[i])
  {
    RowsPersist(s, e);
  }

  lemma DeliveryStep(s0: System, s: System, e: Event, i: Id, earned: set<Id>, earned': set<Id>)
    requires WellFormed(s) && Enabled(s, e) && AllEarned(s0, s, earned) && earned <= earned' && i in Next(s, e).rows
    requires s0.rows.Keys <= s.rows.Keys
    ensures DeliveryEarned(s0, Next(s, e), i, earned')
  {
    hide Next;
    hide Enabled;
    hide RowEarned;
    hide WorkerEarned;
    hide WellFormed;
    hide RowAfter;
    hide JobOf;
    if i !in s.rows {
      NewRowIsPending(s, e, i);
    } else if Next(s, e).rows[i].status == Delivered && !(i in s0.rows && s0.rows[i].status == Delivered) {
      JobsPersist(s, e);
      RowAfterStep(s, e, i);
      if s.rows[i].status != Delivered {
        if Actor(e).Some? { ActorIsThere(s, e); }
        DeliveredBy(s, e, i, earned);
      } else {
        assert DeliveryEarned(s0, s, i, earned);
      }
      var j :| j in s.rows && j in earned && JobOf(s.rows[j]) == JobOf(s.rows[i]);
      assert j in Next(s, e).rows && j in earned';
    }
  }

  lemma ActorIsThere(s: System, e: Event)
    requires Enabled(s, e) && Actor(e).Some?
    ensures e.w in s.workers
  {
  }

  lemma EarnedStep(s0: System, s: System, e: Event, earned: set<Id>, earned': set<Id>)
    requires WellFormed(s) && Enabled(s, e) && AllEarned(s0, s, earned) && Earned(s0, s, e, earned, earned')
    requires s0.rows.Keys <= s.rows.Keys
    ensures AllEarned(s0, Next(s, e), earned') && s0.rows.Keys <= Next(s, e).rows.Keys
  {
    var t := Next(s, e);
    RowsPersist(s, e);
    NextIs(s, e);
    hide Next;
    hide Enabled;
    hide RowEarned;
    hide WorkerEarned;
    hide DeliveryEarned;
    hide Answered;
    forall i | i in t.rows ensures RowEarned(t.rows[i], i, earned') && DeliveryEarned(s0, t, i, earned') {
      RowStep(s0, s, e, i, earned, earned');
      DeliveryStep(s0, s, e, i, earned, earned');
    }
    forall w | w in t.workers ensures WorkerEarned(t.workers[w], earned') {
      WorkerStep(s0, s, e, w, earned, earned');
    }
    RevokedAreEarned(t, earned');
  }

  lemma RevokedAreEarned(t: System, earned: set<Id>)
    requires forall i :: i in t.rows ==> RowEarned(t.rows[i], i, earned)
    ensures RevokedIds(t.rows) <= earned
  {
  }

  // ------------------------------------------------------------------- all runs

  ghost function AnsweredIds(s: System, es: seq<Event>): set<Id>
    requires Trace(s, es)
  {
    set i | i in Run(s, es).rows && WasAnswered(s, es, i)
  }

  lemma {:induction false} EarnedRun(s: System, es: seq<Event>)
    requires Init(s) && Trace(s, es)
    ensures AllEarned(s, Run(s, es), s.revoked + AnsweredIds(s, es)) && s.rows.Keys <= Run(s, es).rows.Keys
    decreases |es|
  {
    hide Next;
    hide Enabled;
    hide Answered;
    hide AllEarned;
    if es == [] {
      EarnedStart(s, s.revoked + AnsweredIds(s, es));
    } else {
      var front, last := es[..|es| - 1], es[|es| - 1];
      var t := Run(s, front);
      EarnedRun(s, front);
      RunIsWellFormed(s, front);
      RowsPersist(t, last);
      var earned, earned' := s.revoked + AnsweredIds(s, front), s.revoked + AnsweredIds(s, es);
      assert Earned(s, t, last, earned, earned');
      EarnedStep(s, t, last, earned, earned');
    }
  }

  lemma EarnedStart(s: System, earned: set<Id>)
    requires Init(s) && s.revoked <= earned
    ensures AllEarned(s, s, earned)
  {
  }

  /** Whatever was REVOKED in a run, by any number of workers and through crashes, lost writes and
      retries, was so at the start or has had its provider called and answering before. */
  lemma RevokedWasAnswered(s: System, es: seq<Event>, id: Id)
    requires Init(s) && Trace(s, es)
    requires id in Run(s, es).revoked && id !in s.revoked
    ensures WasAnswered(s, es, id)
  {
    EarnedRun(s, es);
  }

  /** And whatever was DELIVERED in it has the same said of itself, or of a row of the same
      member, provider and action. */
  lemma DeliveredWasAnswered(s: System, es: seq<Event>, id: Id)
    requires Init(s) && Trace(s, es)
    requires id in Run(s, es).rows && Run(s, es).rows[id].status == Delivered && !(id in s.rows && s.rows[id].status == Delivered)
    ensures exists j :: j in Run(s, es).rows && (j in s.revoked || WasAnswered(s, es, j)) && JobOf(Run(s, es).rows[j]) == JobOf(Run(s, es).rows[id])
  {
    EarnedRun(s, es);
    assert DeliveryEarned(s, Run(s, es), id, s.revoked + AnsweredIds(s, es));
  }
}
