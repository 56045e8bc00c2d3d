/** Queuing with a guard: what a check before the insert, beyond the schema's key on PENDING
    rows, would be worth. */
module OutboxGuards {
  import opened Wrappers
  import opened Outbox
  import opened OutboxLeases
  import opened OutboxSafety
  import opened OutboxBudget
  import opened OutboxSiblings

  // -------------------------------------------------- no second open row is queued

  /** A row of the job is queued while another one is open. */
  predicate QueuesBeside(s: System, e: Event, job: Job) {
    e.Enqueue? && JobOf(e.row) == job && exists i :: i in s.rows && IsOpen(s.rows[i].status) && JobOf(s.rows[i]) == job
  }

  /** Whenever a row of the job is queued, none is open. */
  ghost predicate Guarded(s: System, es: seq<Event>, job: Job)
    requires Trace(s, es)
    decreases |es|
  {
    es == [] || (Guarded(s, es[..|es| - 1], job) && !QueuesBeside(Run(s, es[..|es| - 1]), es[|es| - 1], job))
  }

  predicate MayBeOf(s: System, i: Id, job: Job) {
    i in s.rows ==> JobOf(s.rows[i]) == job
  }

  predicate Held(s: System, i: Id) {
    ReleasedOnly(s, i) && forall w :: w in s.workers ==> HoldsRow(s, w, s.workers[w], i)
  }

  /** The lone worker holds every row of the job that it has in hand. */
  ghost predicate JobHeld(s: System, job: Job) {
    forall i: Id :: MayBeOf(s, i, job) ==> Held(s, i)
  }

  /** A closed row is not opened again. */
  lemma ClosedStays(s: System, e: Event, i: Id)
    requires Enabled(s, e) && Smooth(e) && i in s.rows && !IsOpen(s.rows[i].status)
    requires forall w :: w in s.workers ==> HoldsRow(s, w, s.workers[w], i)
    ensures !IsOpen(RowAfter(s, e, i).status)
  {
    hide Finishes;
    hide HoldsQueued;
  }

  lemma OneOpenStep(s: System, e: Event, job: Job)
    requires Enabled(s, e) && Smooth(e) && OneOpen(s.rows, job) && JobHeld(s, job) && !QueuesBeside(s, e, job)
    ensures OneOpen(Next(s, e).rows, job)
  {
    hide Next;
    hide Enabled;
    hide HoldsRow;
    hide ReleasedOnly;
    RowsPersist(s, e);
    var rows' := Next(s, e).rows;
    forall i | i in rows' && IsOpen(rows'[i].status) && JobOf(rows'[i]) == job
      ensures if i in s.rows then IsOpen(s.rows[i].status) && JobOf(s.rows[i]) == job else e.Enqueue? && i == e.id && e.row == rows'[i]
    {
      if i in s.rows {
        RowAfterStep(s, e, i);
        assert MayBeOf(s, i, job) && Held(s, i);
        if !IsOpen(s.rows[i].status) { ClosedStays(s, e, i); }
      } else {
        NewRowIsQueued(s, e, i);
      }
    }
  }

  lemma NewRowIsQueued(s: System, e: Event, i: Id)
    requires Enabled(s, e) && i !in s.rows && i in Next(s, e).rows
    ensures e.Enqueue? && i == e.id && Next(s, e).rows[i] == e.row
  {
  }

  lemma HeldStep(s: System, e: Event, job: Job, i: Id)
    requires WellFormed(s) && LoneSafe(s) && Alone(s) && Enabled(s, e) && Smooth(e)
    requires OneOpen(s.rows, job) && AllReadTrue(s, job) && JobHeld(s, job) && MayBeOf(Next(s, e), i, job)
    ensures Held(Next(s, e), i)
  {
    hide Next;
    hide Enabled;
    hide OneOpen;
    hide AllReadTrue;
    hide ReleasedOnly;
    hide HoldsRow;
    RowsPersist(s, e);
    assert MayBeOf(s, i, job) && Held(s, i);
    if i in s.rows {
      NoStray(s, e, i);
    }
    ReleasedStep(s, e, i);
    HandsStep(s, e, i);
  }

  lemma GuardedStep(s: System, e: Event, job: Job)
    requires WellFormed(s) && LoneSafe(s) && Alone(s) && Enabled(s, e) && Smooth(e) && !QueuesBeside(s, e, job)
    requires OneOpen(s.rows, job) && AllReadTrue(s, job) && JobHeld(s, job)
    ensures OneOpen(Next(s, e).rows, job) && AllReadTrue(Next(s, e), job) && JobHeld(Next(s, e), job)
  {
    hide Next;
    hide Enabled;
    hide Held;
    hide AllReadTrue;
    hide OneOpen;
    hide LoneSafe;
    hide WellFormed;
    OneOpenStep(s, e, job);
    AllReadTrueStep(s, e, job);
    forall i: Id | MayBeOf(Next(s, e), i, job) ensures Held(Next(s, e), i) {
      HeldStep(s, e, job, i);
    }
  }

  lemma {:induction false} GuardedRun(s: System, es: seq<Event>, job: Job)
    requires Init(s) && Trace(s, es) && AloneThroughout(s, es) && EveryEvent(es, e => Smooth(e)) && Guarded(s, es, job) && OneOpen(s.rows, job)
    ensures OneOpen(Run(s, es).rows, job) && AllReadTrue(Run(s, es), job) && JobHeld(Run(s, es), job)
    ensures OneOpenThroughout(s, es, job)
    decreases |es|
  {
    hide Next;
    hide Enabled;
    hide OneOpen;
    hide QueuesBeside;
    if es != [] {
      var front, last := es[..|es| - 1], es[|es| - 1];
      assert forall k :: 0 <= k < |front| ==> front[k] == es[k];
      assert Smooth(last);
      GuardedRun(s, front, job);
      LoneRunIsSafe(s, front);
      GuardedStep(Run(s, front), last, job);
    }
  }

  /** When no two rows of a job are open at the start and none is queued while one is open, a
      lone worker whose bookkeeping writes succeed never has one delivered behind its back. */
  lemma GuardedNeverStrays(s: System, es: seq<Event>, id: Id, job: Job)
    requires Init(s) && Trace(s, es) && AloneThroughout(s, es) && EveryEvent(es, e => Smooth(e)) && Guarded(s, es, job) && OneOpen(s.rows, job)
    requires MayBeOf(Run(s, es), id, job)
    ensures NeverStrays(s, es, id)
  {
    GuardedRun(s, es, job);
    OneOpenNeverStrays(s, es, id, job);
  }

  // ------------------------------------------- no second undelivered deletion is queued

  /** At most one row of the job is not DELIVERED. */
  predicate OneUndelivered(rows: map<Id, Row>, job: Job) {
    forall i, j :: i in rows && j in rows && rows[i].status != Delivered && rows[j].status != Delivered && JobOf(rows[i]) == job && JobOf(rows[j]) == job ==> i == j
  }

  /** A deletion is queued while another one for the member and provider is not DELIVERED. */
  predicate QueuesUnfinished(s: System, e: Event) {
    && e.Enqueue? && e.row.action == AccountDelete
    && exists i :: i in s.rows && s.rows[i].status != Delivered && JobOf(s.rows[i]) == JobOf(e.row)
  }

  ghost predicate DeletionsGuarded(s: System, es: seq<Event>)
    requires Trace(s, es)
    decreases |es|
  {
    es == [] || (DeletionsGuarded(s, es[..|es| - 1]) && !QueuesUnfinished(Run(s, es[..|es| - 1]), es[|es| - 1]))
  }

  /** While the worker has the row in hand and has not finalized it, it is not DELIVERED. */
  predicate HandUndelivered(s: System, worker: Worker, i: Id) {
    i in s.rows && s.rows[i].status == Delivered ==>
      && (forall k :: 0 <= k < |worker.queue| ==> worker.queue[k].id != i)
      && (!worker.at.Ready? && worker.at.entry.id == i ==> worker.at.Releasing?)
  }

  predicate Unfinished(s: System, i: Id) {
    ReleasedOnly(s, i) && forall w :: w in s.workers ==> HandUndelivered(s, s.workers[w], i)
  }

  predicate JobUnfinished(s: System, job: Job) {
    forall i: Id :: i in s.rows && JobOf(s.rows[i]) == job ==> Unfinished(s, i)
  }

  /** The job's rows are finalized one at a time. */
  lemma NoSecondDelivery(s: System, e: Event, job: Job, i: Id)
    requires WellFormed(s) && Enabled(s, e) && OneUndelivered(s.rows, job) && JobUnfinished(s, job) && i in s.rows && JobOf(s.rows[i]) == job
    ensures !FinalizesSibling(s, e, i)
  {
    hide Check;
    if e.Finalize? {
      ActingEntry(s, e, e.w);
      var x := s.workers[e.w].at.entry;
      assert x.id in s.rows && JobOf(s.rows[x.id]) == job ==> HandUndelivered(s, s.workers[e.w], x.id);
    }
  }

  /** A DELIVERED row of the job stays so. */
  lemma DeliveredStays(s: System, e: Event, i: Id)
    requires Enabled(s, e) && i in s.rows && s.rows[i].status == Delivered && Unfinished(s, i)
    ensures RowAfter(s, e, i).status == Delivered
  {
    hide Finishes;
    hide ReleasedOnly;
    assert Actor(e).Some? ==> HandUndelivered(s, s.workers[e.w], i);
  }

  lemma OneUndeliveredStep(s: System, e: Event, job: Job)
    requires Enabled(s, e) && OneUndelivered(s.rows, job) && JobUnfinished(s, job) && job.2 == AccountDelete && !QueuesUnfinished(s, e)
    ensures OneUndelivered(Next(s, e).rows, job)
  {
    hide Next;
    hide Enabled;
    hide Unfinished;
    RowsPersist(s, e);
    var rows' := Next(s, e).rows;
    forall i | i in rows' && rows'[i].status != Delivered && JobOf(rows'[i]) == job
      ensures if i in s.rows then s.rows[i].status != Delivered && JobOf(s.rows[i]) == job else e.Enqueue? && i == e.id && e.row == rows'[i]
    {
      if i in s.rows {
        RowAfterStep(s, e, i);
        if s.rows[i].status == Delivered { DeliveredStays(s, e, i); }
      } else {
        NewRowIsQueued(s, e, i);
      }
    }
  }

  /** The worker's own step: what it leaves in hand is not DELIVERED, save what it releases. */
  lemma ActorUndelivered(s: System, e: Event, i: Id)
    requires WellFormed(s) && LoneSafe(s) && Alone(s) && Enabled(s, e) && !Leaks(e) && Actor(e).Some? && !e.Claim?
    requires i in s.rows && HandUndelivered(s, s.workers[e.w], i) && !FinalizesSibling(s, e, i) && i in Next(s, e).rows
    ensures e.w in Next(s, e).workers && HandUndelivered(Next(s, e), Next(s, e).workers[e.w], i)
  {
    hide FinalizesSibling;
    hide Next;
    hide WorkersAfter;
    RowAfterStep(s, e, i);
    ActorGoesOn(s, e);
    ActingEntry(s, e, e.w);
    if RowAfter(s, e, i).status == Delivered && s.rows[i].status != Delivered {
      NowDelivered(s, e, i);
      NextIs(s, e);
      LeavesForRelease(s, e, e.w, i);
    }
    hide LoneSafe;
    hide WellFormed;
    hide RowAfter;
    hide Enabled;
  }

  /** What the worker has in hand after its step. */
  lemma ActorGoesOn(s: System, e: Event)
    requires Enabled(s, e) && Actor(e).Some? && !e.Claim?
    ensures e.w in Next(s, e).workers
    ensures var worker, worker' := s.workers[e.w], Next(s, e).workers[e.w];
            && worker'.queue == (if e.Begin? then worker.queue[1..] else worker.queue) && (e.Begin? ==> worker.queue != [])
            && (worker'.at.Ready? || worker'.at.entry == Acting(s, e))
            && (!e.Begin? ==> !worker.at.Ready? && (worker.at.Releasing? ==> worker'.at.Ready?))
  {
    hide Check;
  }

  lemma ClaimUndelivered(s: System, e: Event, i: Id)
    requires Enabled(s, e) && e.Claim? && i in s.rows && ReleasedOnly(s, i) && i in Next(s, e).rows
    ensures HandUndelivered(Next(s, e), Next(s, e).workers[e.w], i)
  {
    ClaimedQueue(s, e);
    RowAfterStep(s, e, i);
    hide Next;
  }

  lemma UnfinishedStep(s: System, e: Event, job: Job, i: Id)
    requires WellFormed(s) && LoneSafe(s) && Alone(s) && Enabled(s, e) && !Leaks(e)
    requires OneUndelivered(s.rows, job) && JobUnfinished(s, job) && i in s.rows && JobOf(s.rows[i]) == job
    ensures i in Next(s, e).rows && Unfinished(Next(s, e), i)
  {
    hide HandUndelivered;
    hide ReleasedOnly;
    hide FinalizesSibling;
    NoSecondDelivery(s, e, job, i);
    ReleasedStep(s, e, i);
    RowsPersist(s, e);
    hide Next;
    hide Enabled;
    hide LoneSafe;
    hide WellFormed;
    var s' := Next(s, e);
    forall w | w in s'.workers ensures HandUndelivered(s', s'.workers[w], i) {
      WasThere(s, e, w);
      if e == Spawn(w) {
        NothingUndelivered(s', i);
      } else if e.Claim? {
        ClaimUndelivered(s, e, i);
      } else if Actor(e).Some? {
        ActorUndelivered(s, e, i);
      } else {
        OthersUndelivered(s, e, w, i);
      }
    }
  }

  lemma WasThere(s: System, e: Event, w: Token)
    requires Enabled(s, e) && Alone(s) && w in Next(s, e).workers
    ensures if e == Spawn(w) then Next(s, e).workers[w] == Worker([], Ready) else w in s.workers && (Actor(e).Some? ==> w == e.w)
  {
  }

  lemma NothingUndelivered(s: System, i: Id)
    ensures HandUndelivered(s, Worker([], Ready), i)
  {
  }

  lemma OthersUndelivered(s: System, e: Event, w: Token, i: Id)
    requires WellFormed(s) && LoneSafe(s) && Enabled(s, e) && Actor(e) == None && e != Spawn(w)
    requires i in s.rows && w in s.workers && w in Next(s, e).workers && HandUndelivered(s, s.workers[w], i)
    ensures HandUndelivered(Next(s, e), Next(s, e).workers[w], i)
  {
    OthersUnmoved(s, e, w);
    RowAfterStep(s, e, i);
    hide Next;
    if RowAfter(s, e, i).status == Delivered && s.rows[i].status != Delivered {
      NowDelivered(s, e, i);
    }
  }

  lemma JobUnfinishedStep(s: System, e: Event, job: Job)
    requires WellFormed(s) && LoneSafe(s) && Alone(s) && Enabled(s, e) && !Leaks(e) && !QueuesUnfinished(s, e) && job.2 == AccountDelete
    requires OneUndelivered(s.rows, job) && JobUnfinished(s, job)
    ensures OneUndelivered(Next(s, e).rows, job) && JobUnfinished(Next(s, e), job)
  {
    hide OneUndelivered;
    hide Unfinished;
    hide LoneSafe;
    hide WellFormed;
    hide Next;
    hide Enabled;
    OneUndeliveredStep(s, e, job);
    RowsPersist(s, e);
    forall i: Id | i in Next(s, e).rows && JobOf(Next(s, e).rows[i]) == job ensures Unfinished(Next(s, e), i) {
      if i in s.rows {
        UnfinishedStep(s, e, job, i);
      } else {
        NewIsUnfinished(s, e, i);
      }
    }
  }

  lemma NewIsUnfinished(s: System, e: Event, i: Id)
    requires Enabled(s, e) && i !in s.rows && i in Next(s, e).rows
    ensures Unfinished(Next(s, e), i)
  {
    NewRowIsPending(s, e, i);
    hide Next;
  }

  lemma {:induction false} UnfinishedRun(s: System, es: seq<Event>, job: Job)
    requires Init(s) && Trace(s, es) && AloneThroughout(s, es) && EveryEvent(es, e => !Leaks(e)) && DeletionsGuarded(s, es)
    requires job.2 == AccountDelete && OneUndelivered(s.rows, job)
    ensures OneUndelivered(Run(s, es).rows, job) && JobUnfinished(Run(s, es), job)
    decreases |es|
  {
    hide Next;
    hide Enabled;
    hide OneUndelivered;
    hide QueuesUnfinished;
    if es != [] {
      var front, last := es[..|es| - 1], es[|es| - 1];
      assert forall k :: 0 <= k < |front| ==> front[k] == es[k];
      assert !Leaks(last);
      UnfinishedRun(s, front, job);
      LoneRunIsSafe(s, front);
      JobUnfinishedStep(Run(s, front), last, job);
    }
  }

  /** Only deletions and disconnects are ever finalized. */
  lemma UnsupportedNeverStrays(s: System, e: Event, i: Id)
    requires Enabled(s, e) && i in s.rows && s.rows[i].action == Unsupported
    ensures !Strays(s, e, i)
  {
    hide Check;
  }

  /** When each member and provider has at most one undelivered deletion at the start, and none is
      queued while one is undelivered, no REVOKED row is delivered behind its worker's back,
      whatever crashes, is lost or is retried by the operator. */
  lemma {:induction false} GuardedNeverStraysRevoked(s: System, es: seq<Event>)
    requires Init(s) && Trace(s, es) && AloneThroughout(s, es) && EveryEvent(es, e => !Leaks(e)) && DeletionsGuarded(s, es)
    requires forall job: Job :: job.2 == AccountDelete ==> OneUndelivered(s.rows, job)
    ensures NeverStraysRevoked(s, es)
    decreases |es|
  {
    hide Next;
    hide Enabled;
    hide OneUndelivered;
    hide JobUnfinished;
    hide QueuesUnfinished;
    if es != [] {
      var front, last := es[..|es| - 1], es[|es| - 1];
      var t := Run(s, front);
      assert forall k :: 0 <= k < |front| ==> front[k] == es[k];
      GuardedNeverStraysRevoked(s, front);
      RunIsWellFormed(s, front);
      forall i | i in t.rows && t.rows[i].action != Disconnect ensures !Strays(t, last, i) {
        if t.rows[i].action == Unsupported {
          UnsupportedNeverStrays(t, last, i);
        } else {
          UnfinishedRun(s, front, JobOf(t.rows[i]));
          NoSecondDelivery(t, last, JobOf(t.rows[i]), i);
        }
      }
    }
  }
}
