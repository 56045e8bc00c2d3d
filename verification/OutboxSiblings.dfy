/** Several rows for one piece of work: as long as no two of them are open together, none is
    delivered behind its worker's back, however many closed ones are kept for audit. */
module OutboxSiblings {
  import opened Outbox
  import opened OutboxLeases
  import opened OutboxSafety
  import opened OutboxBudget

  // ------------------------------------------- one open row of a job at a time

  type Job = (int, string, Action)

  function JobOf(row: Row): Job {
    (row.user, row.provider, row.action)
  }

  function EntryJob(x: Entry): Job {
    (x.user, x.provider, x.action)
  }

  /** At most one open row of the job; any number of closed ones may be kept beside it. */
  predicate OneOpen(rows: map<Id, Row>, job: Job) {
    forall i, j :: i in rows && j in rows && IsOpen(rows[i].status) && IsOpen(rows[j].status) && JobOf(rows[i]) == job && JobOf(rows[j]) == job ==> i == j
  }

  ghost predicate OneOpenThroughout(s: System, es: seq<Event>, job: Job)
    requires Trace(s, es)
    decreases |es|
  {
    OneOpen(Run(s, es).rows, job) && (es == [] || OneOpenThroughout(s, es[..|es| - 1], job))
  }

  predicate IsRevoked(s: System, x: Entry) {
    x.id in s.rows && s.rows[x.id].status == Revoked
  }

  /** What the lone worker takes for REVOKED is REVOKED still. */
  predicate ReadsTrue(s: System, worker: Worker, job: Job) {
    && (forall k :: 0 <= k < |worker.queue| && EntryJob(worker.queue[k]) == job && worker.queue[k].status == Revoked ==> IsRevoked(s, worker.queue[k]))
    && (worker.at.Finalizing? && EntryJob(worker.at.entry) == job ==> IsRevoked(s, worker.at.entry))
  }

  predicate AllReadTrue(s: System, job: Job) {
    job.2 != Disconnect ==> forall w :: w in s.workers ==> ReadsTrue(s, s.workers[w], job)
  }

  /** A finalization that gets through has an open row of its own. */
  lemma FinalizedIsOpen(s: System, e: Event, job: Job)
    requires WellFormed(s) && Enabled(s, e) && AllReadTrue(s, job)
    requires e.Finalize? && Finishes(s, e.w) && EntryJob(s.workers[e.w].at.entry) == job
    ensures var x := s.workers[e.w].at.entry; x.id in s.rows && IsOpen(s.rows[x.id].status) && JobOf(s.rows[x.id]) == job
  {
    ActingEntry(s, e, e.w);
    assert job.2 != Disconnect ==> ReadsTrue(s, s.workers[e.w], job);
  }

  lemma NoStray(s: System, e: Event, id: Id)
    requires WellFormed(s) && Enabled(s, e) && id in s.rows && OneOpen(s.rows, JobOf(s.rows[id])) && AllReadTrue(s, JobOf(s.rows[id]))
    ensures !Strays(s, e, id)
  {
    if Strays(s, e, id) {
      FinalizedIsOpen(s, e, JobOf(s.rows[id]));
      assert false;
    }
  }

  /** A REVOKED row the worker is not dealing with stays REVOKED. */
  lemma OtherStaysRevoked(s: System, e: Event, x: Entry)
    requires WellFormed(s) && Enabled(s, e) && IsRevoked(s, x) && JobOf(s.rows[x.id]) == EntryJob(x)
    requires OneOpen(s.rows, EntryJob(x)) && AllReadTrue(s, EntryJob(x))
    requires Actor(e).Some? && !e.Claim? ==> Acting(s, e).id != x.id
    ensures IsRevoked(Next(s, e), x)
  {
    RowAfterStep(s, e, x.id);
    hide Next;
    hide Check;
    if e.Finalize? && Finishes(s, e.w) && EntryJob(s.workers[e.w].at.entry) == EntryJob(x) {
      FinalizedIsOpen(s, e, EntryJob(x));
      assert false;
    }
    hide WellFormed;
    hide AllReadTrue;
  }

  /** Where the worker's own step leads to a finalization, its row is REVOKED. */
  lemma ActorReadsTrue(s: System, e: Event, job: Job)
    requires WellFormed(s) && Enabled(s, e) && Actor(e).Some? && !e.Claim? && job.2 != Disconnect
    requires ReadsTrue(s, s.workers[e.w], job) && PointAfter(s, e).Finalizing? && EntryJob(PointAfter(s, e).entry) == job
    ensures IsRevoked(Next(s, e), PointAfter(s, e).entry)
  {
    ActingEntry(s, e, e.w);
    hide WellFormed;
    RowAfterStep(s, e, Acting(s, e).id);
    hide Next;
  }

  lemma ReadsTrueStep(s: System, e: Event, job: Job, w: Token)
    requires WellFormed(s) && Enabled(s, e) && Alone(s) && OneOpen(s.rows, job) && AllReadTrue(s, job) && job.2 != Disconnect
    requires w in s.workers && w in Next(s, e).workers && !e.Claim? && e != Spawn(w)
    ensures ReadsTrue(Next(s, e), Next(s, e).workers[w], job)
  {
    hide Next;
    hide IsRevoked;
    hide OneOpen;
    hide PointAfter;
    NextIs(s, e);
    QueueStep(s, e, w);
    assert ReadsTrue(s, s.workers[w], job) && WorkerOk(s, w, s.workers[w]);
    var s', d := Next(s, e), if e.Begin? then 1 else 0;
    var queue, queue' := s.workers[w].queue, s'.workers[w].queue;
    if Actor(e).Some? { ActingEntry(s, e, w); } else { OthersUnmoved(s, e, w); }
    forall k | 0 <= k < |queue'| && EntryJob(queue'[k]) == job && queue'[k].status == Revoked ensures IsRevoked(s', queue'[k]) {
      assert queue'[k] == queue[k + d];
      QueuedMatches(s, w, k + d);
      OtherStaysRevoked(s, e, queue[k + d]);
    }
    if s'.workers[w].at.Finalizing? && EntryJob(s'.workers[w].at.entry) == job {
      if Actor(e).Some? {
        ActorReadsTrue(s, e, job);
      } else {
        assert Matches(s, w, InHand(s.workers[w])[0]);
        OtherStaysRevoked(s, e, s.workers[w].at.entry);
      }
    }
  }

  lemma QueuedMatches(s: System, w: Token, k: nat)
    requires WellFormed(s) && w in s.workers && k < |s.workers[w].queue|
    ensures Matches(s, w, s.workers[w].queue[k])
  {
    var hand := InHand(s.workers[w]);
    var d := if s.workers[w].at.Ready? then 0 else 1;
    assert hand[k + d] == s.workers[w].queue[k];
    assert WorkerOk(s, w, s.workers[w]);
  }

  lemma ClaimReadsTrue(s: System, e: Event, job: Job)
    requires Enabled(s, e) && e.Claim?
    ensures ReadsTrue(Next(s, e), Next(s, e).workers[e.w], job)
  {
    ClaimedQueue(s, e);
    hide Next;
    hide Enabled;
  }

  lemma AllReadTrueStep(s: System, e: Event, job: Job)
    requires WellFormed(s) && Enabled(s, e) && Alone(s) && OneOpen(s.rows, job) && AllReadTrue(s, job)
    ensures AllReadTrue(Next(s, e), job)
  {
    hide ReadsTrue;
    hide OneOpen;
    if job.2 != Disconnect {
      forall w | w in Next(s, e).workers ensures ReadsTrue(Next(s, e), Next(s, e).workers[w], job) {
        if e == Spawn(w) {
          NewReadsTrue(Next(s, e), job);
        } else if e.Claim? {
          ClaimReadsTrue(s, e, job);
        } else {
          ReadsTrueStep(s, e, job, w);
        }
      }
    }
  }

  lemma NewReadsTrue(s: System, job: Job)
    ensures ReadsTrue(s, Worker([], Ready), job)
  {
  }

  lemma {:induction false} ReadTrueRun(s: System, es: seq<Event>, job: Job)
    requires Init(s) && Trace(s, es) && AloneThroughout(s, es) && OneOpenThroughout(s, es, job)
    ensures AllReadTrue(Run(s, es), job)
    decreases |es|
  {
    hide Next;
    hide Enabled;
    hide OneOpen;
    hide ReadsTrue;
    if es != [] {
      var front := es[..|es| - 1];
      ReadTrueRun(s, front, job);
      RunIsWellFormed(s, front);
      AllReadTrueStep(Run(s, front), es[|es| - 1], job);
    }
  }

  /** As long as no two rows of its job are open together, however many closed ones are kept, a
      row is never delivered behind its lone worker's back. */
  lemma {:induction false} OneOpenNeverStrays(s: System, es: seq<Event>, id: Id, job: Job)
    requires Init(s) && Trace(s, es) && AloneThroughout(s, es) && OneOpenThroughout(s, es, job)
    requires id in Run(s, es).rows ==> JobOf(Run(s, es).rows[id]) == job
    ensures NeverStrays(s, es, id)
    decreases |es|
  {
    hide Next;
    hide Enabled;
    hide OneOpen;
    hide AllReadTrue;
    if es != [] {
      var front, last := es[..|es| - 1], es[|es| - 1];
      var t := Run(s, front);
      RowsPersist(t, last);
      OneOpenNeverStrays(s, front, id, job);
      if id in t.rows {
        ReadTrueRun(s, front, job);
        RunIsWellFormed(s, front);
        NoStray(t, last, id);
      }
    }
  }

  /** And while this holds of every job but disconnects, no REVOKED row is either, so that
      `NeverCalledAgain` applies. */
  lemma {:induction false} OneOpenNeverStraysRevoked(s: System, es: seq<Event>)
    requires Init(s) && Trace(s, es) && AloneThroughout(s, es)
    requires forall job: Job :: job.2 != Disconnect ==> OneOpenThroughout(s, es, job)
    ensures NeverStraysRevoked(s, es)
    decreases |es|
  {
    hide Next;
    hide Enabled;
    hide OneOpen;
    hide Strays;
    hide AllReadTrue;
    if es != [] {
      var front, last := es[..|es| - 1], es[|es| - 1];
      var t := Run(s, front);
      forall job: Job | job.2 != Disconnect ensures OneOpenThroughout(s, front, job) {
        assert OneOpenThroughout(s, es, job);
      }
      OneOpenNeverStraysRevoked(s, front);
      RunIsWellFormed(s, front);
      forall i | i in t.rows && t.rows[i].action != Disconnect ensures !Strays(t, last, i) {
        ReadTrueRun(s, front, JobOf(t.rows[i]));
        NoStray(t, last, i);
      }
    }
  }
}
