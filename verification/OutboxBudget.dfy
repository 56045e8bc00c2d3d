/** The attempt cap of the revocation outbox: how often a row can be taken up, and how often
    its provider can be called, before it is DELIVERED or given up. */
module OutboxBudget {
  import opened Wrappers
  import opened Outbox
  import opened OutboxLeases
  import opened OutboxSafety

  /** The worker neither dies nor loses a write of its own bookkeeping, and the operator does
      not start the row over.  The provider, the checkpoint and the finalization may still fail. */
  predicate Smooth(e: Event) {
    !e.Crash? && !e.RetrySocial? && !Leaks(e) && (e.Record? ==> e.written)
  }

  function StartAttempts(s0: System, id: Id): int {
    if id in s0.rows then s0.rows[id].attempts else 0
  }

  /** A row that was open at the start, or queued since. */
  predicate Tracked(s0: System, id: Id) {
    id in s0.rows ==> IsOpen(s0.rows[id].status) && 0 <= s0.rows[id].attempts < MAX_ATTEMPT
  }

  /** The entry a worker's step is about. */
  function Acting(s: System, e: Event): Entry
    requires Enabled(s, e) && Actor(e).Some? && !e.Claim?
  {
    if e.Begin? then s.workers[e.w].queue[0] else s.workers[e.w].at.entry
  }

  /** The worker drops the row because its claim, or the link, is no longer as it should be:
      the turn ends and no attempt is counted. */
  predicate Expires(s: System, e: Event, id: Id)
    requires Enabled(s, e)
  {
    && (e.Begin? || e.Finalize?) && Acting(s, e).id == id && Acting(s, e).action == Disconnect
    && if e.Begin? then !e.outcome.TxFailed? && Check(s, e.w, Acting(s, e)) == Expired
       else e.reached && !Finishes(s, e.w)
  }

  function Expirations(s: System, es: seq<Event>, id: Id): nat
    requires Trace(s, es)
    decreases |es|
  {
    if es == [] then 0
    else Expirations(s, es[..|es| - 1], id) + (if Expires(Run(s, es[..|es| - 1]), es[|es| - 1], id) then 1 else 0)
  }

  predicate BusyIn(workers: map<Token, Worker>, id: Id) {
    exists w :: w in workers && !workers[w].at.Ready? && workers[w].at.entry.id == id
  }

  // ------------------------------------------------------------ invariants

  predicate HoldsOpen(s: System, w: Token, x: Entry) {
    x.id in s.rows && s.rows[x.id].claim == Some(w) && IsOpen(s.rows[x.id].status)
  }

  /** The worker holds the claim of the row while it has it in hand: open while waiting or
      under way, DELIVERED only when it is about to be released. */
  predicate HoldsQueued(s: System, w: Token, queue: seq<Entry>, id: Id) {
    forall k :: 0 <= k < |queue| && queue[k].id == id ==> HoldsOpen(s, w, queue[k])
  }

  predicate HoldsAt(s: System, w: Token, at: Point, id: Id) {
    !at.Ready? && at.entry.id == id ==>
      if at.Releasing? then id in s.rows && s.rows[id].status == Delivered && s.rows[id].claim == Some(w) else HoldsOpen(s, w, at.entry)
  }

  predicate HoldsRow(s: System, w: Token, worker: Worker, id: Id) {
    HoldsQueued(s, w, worker.queue, id) && HoldsAt(s, w, worker.at, id)
  }

  /** Every begun turn has been paid for with an attempt, except the one under way and those
      that were dropped. */
  predicate RowBudget(s0: System, s: System, id: Id, dropped: nat) {
    var turns := s.handled[id] + StartAttempts(s0, id);
    if id !in s.rows then turns == 0
    else if IsOpen(s.rows[id].status) then
      0 <= s.rows[id].attempts < MAX_ATTEMPT && turns <= s.rows[id].attempts + dropped + (if BusyIn(s.workers, id) then 1 else 0)
    else turns <= MAX_ATTEMPT + dropped
  }

  predicate Budget(s0: System, s: System, id: Id, dropped: nat) {
    && s0.rows.Keys <= s.rows.Keys
    && (forall w :: w in s.workers ==> HoldsRow(s, w, s.workers[w], id))
    && ReleasedOnly(s, id)
    && RowBudget(s0, s, id, dropped)
  }

  // --------------------------------------------------------- holding the row

  /** A step on another row, or of nobody, leaves a held row held. */
  lemma HeldRowKeeps(s: System, e: Event, w: Token, x: Entry)
    requires WellFormed(s) && Enabled(s, e) && Smooth(e) && !Strays(s, e, x.id)
    requires w in s.workers && HoldsOpen(s, w, x) && (Actor(e).Some? ==> e.w == w)
    requires Actor(e).Some? && !e.Claim? ==> Acting(s, e).id != x.id
    ensures HoldsOpen(Next(s, e), w, x)
  {
    hide Next;
    hide Check;
    RowAfterStep(s, e, x.id);
    if Actor(e).Some? && !e.Claim? {
      ActingEntry(s, e, e.w);
    }
    hide WellFormed;
  }

  lemma HoldsClaimed(s: System, e: Event, id: Id)
    requires WellFormed(s) && Enabled(s, e) && e.Claim? && LoneSafe(s) && ReleasedOnly(s, id)
    ensures HoldsRow(Next(s, e), e.w, Next(s, e).workers[e.w], id)
  {
    ClaimedQueue(s, e);
    hide Next;
    hide WellFormed;
    var s' := Next(s, e);
    var queue := s'.workers[e.w].queue;
    forall k | 0 <= k < |queue| && queue[k].id == id ensures HoldsOpen(s', e.w, queue[k]) {
      RowAfterStep(s, e, id);
      assert RowKeepsRevoked(s, id);
    }
  }

  lemma HoldsQueuedStep(s: System, e: Event, w: Token, id: Id)
    requires WellFormed(s) && Enabled(s, e) && Smooth(e) && !Strays(s, e, id)
    requires w in s.workers && w in Next(s, e).workers && HoldsRow(s, w, s.workers[w], id) && !e.Claim? && e != Spawn(w) && (Actor(e).Some? ==> e.w == w)
    ensures HoldsQueued(Next(s, e), w, Next(s, e).workers[w].queue, id)
  {
    hide Next;
    hide Strays;
    hide HoldsOpen;
    hide WorkerOk;
    hide WellFormed;
    var queue, queue' := s.workers[w].queue, Next(s, e).workers[w].queue;
    var d := if e.Begin? then 1 else 0;
    QueueStep(s, e, w);
    if Actor(e).Some? {
      ActingEntry(s, e, w);
    }
    forall k | 0 <= k < |queue'| && queue'[k].id == id ensures HoldsOpen(Next(s, e), w, queue'[k]) {
      assert queue'[k] == queue[k + d];
      HeldRowKeeps(s, e, w, queue[k + d]);
    }
  }

  lemma DeliveredKeeps(s: System, e: Event, i: Id)
    requires Enabled(s, e) && Actor(e) == None && i in s.rows && s.rows[i].status == Delivered
    ensures i in Next(s, e).rows && Next(s, e).rows[i] == s.rows[i]
  {
    hide Next;
    RowAfterStep(s, e, i);
  }

  /** The entry under way stays held until it is released. */
  lemma HoldsAtStep(s: System, e: Event, w: Token, id: Id)
    requires WellFormed(s) && Enabled(s, e) && Smooth(e) && !Strays(s, e, id)
    requires w in s.workers && w in Next(s, e).workers && HoldsRow(s, w, s.workers[w], id) && !e.Claim? && e != Spawn(w) && (Actor(e).Some? ==> e.w == w)
    ensures HoldsAt(Next(s, e), w, Next(s, e).workers[w].at, id)
  {
    hide Next;
    hide Strays;
    if Actor(e) == None {
      OthersUnmoved(s, e, w);
      var at := s.workers[w].at;
      if !at.Ready? && at.entry.id == id {
        if at.Releasing? {
          DeliveredKeeps(s, e, id);
        } else {
          HeldRowKeeps(s, e, w, at.entry);
        }
      }
    } else {
      ActingEntry(s, e, w);
      NextIs(s, e);
      if Acting(s, e).id == id {
        HoldsActor(s, e);
      } else {
        PointIsActing(s, e);
      }
    }
  }

  lemma PointIsActing(s: System, e: Event)
    requires Enabled(s, e) && Actor(e).Some? && !e.Claim?
    ensures PointAfter(s, e).Ready? || PointAfter(s, e).entry == Acting(s, e)
  {
    hide Check;
  }

  lemma HoldsActor(s: System, e: Event)
    requires Enabled(s, e) && Smooth(e) && Actor(e).Some? && !e.Claim? && HoldsRow(s, e.w, s.workers[e.w], Acting(s, e).id)
    requires Matches(s, e.w, Acting(s, e))
    ensures HoldsAt(Next(s, e), e.w, PointAfter(s, e), Acting(s, e).id)
  {
    hide Next;
    hide Check;
    var x := Acting(s, e);
    RowAfterStep(s, e, x.id);
    if e.Begin? {
      assert HoldsOpen(s, e.w, x);
    }
  }

  // ----------------------------------------------------------- counting turns

  /** A step of the worker on the row itself: the turn goes on, is paid for with an attempt,
      is dropped, or the row is closed. */
  lemma OwnTurn(s: System, e: Event, id: Id)
    requires WellFormed(s) && Enabled(s, e) && Smooth(e) && Alone(s) && LoneSafe(s) && id in s.rows
    requires Actor(e).Some? && !e.Claim? && Acting(s, e).id == id && HoldsRow(s, e.w, s.workers[e.w], id)
    ensures var r, r' := s.rows[id], RowAfter(s, e, id);
            && (BusyIn(s.workers, id) <==> !e.Begin?)
            && (e.Begin? ==> IsOpen(r.status) && IsOpen(r'.status) && r'.attempts == r.attempts && (BusyIn(WorkersAfter(s, e), id) || Expires(s, e, id)))
            && (!e.Begin? && IsOpen(r'.status) ==>
                  && IsOpen(r.status)
                  && (((BusyIn(WorkersAfter(s, e), id) || Expires(s, e, id)) && r'.attempts == r.attempts) || r'.attempts == r.attempts + 1 < MAX_ATTEMPT))
  {
    hide WellFormed;
    hide Untouched;
    hide HarmlessFailure;
    hide RowsKeepRevoked;
    hide Check;
    ActingEntry(s, e, e.w);
    assert LoneWorkerOk(s, s.workers[e.w]);
    assert !WorkersAfter(s, e)[e.w].at.Ready? && WorkersAfter(s, e)[e.w].at.entry.id == id ==> BusyIn(WorkersAfter(s, e), id);
    if e.Record? {
      RecordTurn(s, e, id);
    }
  }

  lemma RecordTurn(s: System, e: Event, id: Id)
    requires Enabled(s, e) && e.Record? && e.written && s.workers[e.w].at.entry.id == id
    requires Matches(s, e.w, s.workers[e.w].at.entry) && HoldsAt(s, e.w, s.workers[e.w].at, id)
    ensures IsOpen(s.rows[id].status)
    ensures RowAfter(s, e, id).attempts == s.rows[id].attempts + 1
    ensures IsOpen(RowAfter(s, e, id).status) ==> RowAfter(s, e, id).attempts < MAX_ATTEMPT
  {
  }

  /** A step of the worker on another row. */
  lemma OtherTurn(s: System, e: Event, id: Id)
    requires Enabled(s, e) && Alone(s) && id in s.rows && Actor(e).Some? && !e.Claim? && Acting(s, e).id != id
    ensures !BusyIn(s.workers, id) && !BusyIn(WorkersAfter(s, e), id)
    ensures IsOpen(RowAfter(s, e, id).status) ==> RowAfter(s, e, id) == s.rows[id]
  {
    hide Check;
    hide Finishes;
  }

  /** A step that is not the worker's, or a claim. */
  lemma IdleTurn(s: System, e: Event, id: Id)
    requires Enabled(s, e) && Smooth(e) && id in s.rows && (Actor(e) == None || e.Claim?)
    ensures RowAfter(s, e, id).status == s.rows[id].status && RowAfter(s, e, id).attempts == s.rows[id].attempts
  {
    hide Check;
    hide Finishes;
  }

  lemma BusyOnlyActor(s: System, e: Event, id: Id)
    requires Enabled(s, e) && !e.Crash? && (Actor(e) == None || e.Claim?) && WellFormed(s)
    ensures BusyIn(WorkersAfter(s, e), id) <==> BusyIn(s.workers, id)
  {
    if BusyIn(s.workers, id) {
      var w :| w in s.workers && !s.workers[w].at.Ready? && s.workers[w].at.entry.id == id;
      assert w in s.used by { assert WorkerOk(s, w, s.workers[w]); }
      assert WorkersAfter(s, e)[w] == s.workers[w];
    }
    if BusyIn(WorkersAfter(s, e), id) {
      var w :| w in WorkersAfter(s, e) && !WorkersAfter(s, e)[w].at.Ready? && WorkersAfter(s, e)[w].at.entry.id == id;
      assert s.workers[w] == WorkersAfter(s, e)[w];
    }
  }

  lemma RowBudgetStep(s0: System, s: System, e: Event, id: Id, dropped: nat)
    requires WellFormed(s) && Enabled(s, e) && Smooth(e) && Alone(s) && LoneSafe(s) && Budget(s0, s, id, dropped) && id in s.rows
    ensures RowBudget(s0, Next(s, e), id, dropped + (if Expires(s, e, id) then 1 else 0))
  {
    hide Next;
    hide LoneSafe;
    hide WellFormed;
    hide WorkersAfter;
    hide RowAfter;
    hide ReleasedOnly;
    hide HoldsQueued;
    hide HoldsAt;
    RowAfterStep(s, e, id);
    NextIs(s, e);
    if Actor(e).Some? && !e.Claim? {
      if Acting(s, e).id == id {
        assert HoldsRow(s, e.w, s.workers[e.w], id);
        OwnTurn(s, e, id);
      } else {
        OtherTurn(s, e, id);
      }
    } else {
      BusyOnlyActor(s, e, id);
      IdleTurn(s, e, id);
    }
  }

  lemma NewRowBudget(s0: System, s: System, e: Event, id: Id, dropped: nat)
    requires WellFormed(s) && Enabled(s, e) && Budget(s0, s, id, dropped) && id !in s.rows
    ensures RowBudget(s0, Next(s, e), id, dropped)
  {
    NextIs(s, e);
    if e.Begin? { ActingEntry(s, e, e.w); }
    if id in Next(s, e).rows { NewRowIsPending(s, e, id); }
    hide Next;
  }

  lemma HandsStep(s: System, e: Event, id: Id)
    requires WellFormed(s) && Enabled(s, e) && Smooth(e) && !Strays(s, e, id) && Alone(s) && LoneSafe(s)
    requires ReleasedOnly(s, id) && forall w :: w in s.workers ==> HoldsRow(s, w, s.workers[w], id)
    ensures forall w :: w in Next(s, e).workers ==> HoldsRow(Next(s, e), w, Next(s, e).workers[w], id)
  {
    hide LoneSafe;
    hide HoldsQueued;
    hide HoldsAt;
    forall w | w in Next(s, e).workers ensures HoldsRow(Next(s, e), w, Next(s, e).workers[w], id) {
      if e == Spawn(w) {
        NothingInHand(s, e, w, id);
      } else {
        assert w in s.workers && (Actor(e).Some? ==> e.w == w);
        if e.Claim? {
          HoldsClaimed(s, e, id);
        } else {
          HoldsQueuedStep(s, e, w, id);
          HoldsAtStep(s, e, w, id);
        }
      }
    }
  }

  lemma NothingInHand(s: System, e: Event, w: Token, id: Id)
    requires Enabled(s, e) && e == Spawn(w)
    ensures w in Next(s, e).workers && HoldsRow(Next(s, e), w, Next(s, e).workers[w], id)
  {
  }

  lemma BudgetStep(s0: System, s: System, e: Event, id: Id, dropped: nat)
    requires WellFormed(s) && Enabled(s, e) && Smooth(e) && !Strays(s, e, id) && Alone(s) && LoneSafe(s) && Budget(s0, s, id, dropped)
    ensures Budget(s0, Next(s, e), id, dropped + (if Expires(s, e, id) then 1 else 0))
  {
    hide Next;
    hide Enabled;
    hide HoldsRow;
    hide RowBudget;
    RowsPersist(s, e);
    HandsStep(s, e, id);
    ReleasedStep(s, e, id);
    if id in s.rows {
      RowBudgetStep(s0, s, e, id, dropped);
    } else {
      NewRowBudget(s0, s, e, id, dropped);
      NotInHand(s, e, id);
    }
  }

  lemma NotInHand(s: System, e: Event, id: Id)
    requires WellFormed(s) && Enabled(s, e) && id !in s.rows
    ensures !Expires(s, e, id)
  {
    if e.Begin? || e.Finalize? { ActingEntry(s, e, e.w); }
  }

  lemma BudgetStart(s: System, id: Id)
    requires Init(s) && Tracked(s, id)
    ensures Budget(s, s, id, 0)
  {
  }

  lemma {:induction false} BudgetRun(s: System, es: seq<Event>, id: Id)
    requires Init(s) && Trace(s, es) && AloneThroughout(s, es) && Tracked(s, id)
    requires NeverStrays(s, es, id) && EveryEvent(es, e => Smooth(e))
    ensures Budget(s, Run(s, es), id, Expirations(s, es, id))
    decreases |es|
  {
    hide Next;
    hide Enabled;
    hide Budget;
    hide Expires;
    hide Strays;
    BudgetStart(s, id);
    if es != [] {
      var front, last := es[..|es| - 1], es[|es| - 1];
      assert forall k :: 0 <= k < |front| ==> front[k] == es[k];
      BudgetRun(s, front, id);
      LoneRunIsSafe(s, front);
      BudgetStep(s, Run(s, front), last, id, Expirations(s, front, id));
    }
  }

  /** Every row is taken up at most ten times, less the attempts it started with, before it is
      DELIVERED or given up, unless the finalization of another row delivers it while the
      worker holds it; turns that were dropped as expired come on top. */
  lemma AtMostTenTurns(s: System, es: seq<Event>, id: Id)
    requires Init(s) && Trace(s, es) && AloneThroughout(s, es) && Tracked(s, id)
    requires NeverStrays(s, es, id) && EveryEvent(es, e => Smooth(e))
    ensures Run(s, es).handled[id] <= MAX_ATTEMPT - StartAttempts(s, id) + Expirations(s, es, id)
  {
    hide Trace;
    hide Run;
    hide Budget;
    BudgetRun(s, es, id);
    BudgetBound(s, Run(s, es), id, Expirations(s, es, id));
  }

  lemma BudgetBound(s0: System, s: System, id: Id, dropped: nat)
    requires Budget(s0, s, id, dropped)
    ensures s.handled[id] <= MAX_ATTEMPT - StartAttempts(s0, id) + dropped
  {
    hide HoldsRow;
    hide ReleasedOnly;
    hide BusyIn;
  }

  lemma {:induction false} OnlyDisconnectIsDropped(s: System, es: seq<Event>, id: Id)
    requires Init(s) && Trace(s, es) && id in Run(s, es).rows && Run(s, es).rows[id].action != Disconnect
    ensures Expirations(s, es, id) == 0
    decreases |es|
  {
    hide Next;
    hide Enabled;
    hide Expires;
    if es != [] {
      var front, last := es[..|es| - 1], es[|es| - 1];
      var t := Run(s, front);
      RowsPersist(t, last);
      RunIsWellFormed(s, front);
      if id in t.rows {
        OnlyDisconnectIsDropped(s, front, id);
        KeptTurn(t, last, id);
      } else {
        NeverThere(s, front, id);
        NotInHand(t, last, id);
      }
    }
  }

  lemma KeptTurn(s: System, e: Event, id: Id)
    requires WellFormed(s) && Enabled(s, e) && id in s.rows && s.rows[id].action != Disconnect
    ensures !Expires(s, e, id)
  {
    if e.Begin? || e.Finalize? { ActingEntry(s, e, e.w); }
  }

  lemma {:induction false} NeverThere(s: System, es: seq<Event>, id: Id)
    requires Init(s) && Trace(s, es) && id !in Run(s, es).rows
    ensures Expirations(s, es, id) == 0
    decreases |es|
  {
    hide Next;
    hide Enabled;
    hide Expires;
    if es != [] {
      var front, last := es[..|es| - 1], es[|es| - 1];
      RowsPersist(Run(s, front), last);
      RunIsWellFormed(s, front);
      NeverThere(s, front, id);
      NotInHand(Run(s, front), last, id);
    }
  }
}
