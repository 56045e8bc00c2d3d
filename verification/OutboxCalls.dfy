/** How often the provider of one row can be called: at most ten times, dropped turns or not. */
module OutboxCalls {
  import opened Wrappers
  import opened Outbox
  import opened OutboxLeases
  import opened OutboxSafety
  import opened OutboxBudget

  function CallsFor(calls: seq<Call>, id: Id): nat {
    if calls == [] then 0
    else CallsFor(calls[..|calls| - 1], id) + (if calls[|calls| - 1].entry.id == id then 1 else 0)
  }

  /** A worker is past the provider with this row, or about to record a failure that was not
      one of the transaction itself. */
  predicate Past(at: Point, id: Id) {
    !at.Ready? && at.entry.id == id && !(at.Recording? && at.early)
  }

  predicate SpentIn(workers: map<Token, Worker>, id: Id) {
    exists w :: w in workers && Past(workers[w].at, id)
  }

  /** One call may be unpaid: the one whose success is on record, or whose outcome still is to
      be recorded. */
  predicate CallBudget(s0: System, s: System, id: Id) {
    var paid := CallsFor(s.calls, id) + StartAttempts(s0, id);
    if id !in s.rows then paid == 0
    else if IsOpen(s.rows[id].status) then
      paid <= s.rows[id].attempts + (if s.rows[id].status == Revoked || SpentIn(s.workers, id) then 1 else 0)
    else paid <= MAX_ATTEMPT
  }

  /** A DISCONNECT row being finalized is REVOKED, and one about to be released DELIVERED. */
  predicate FinalizesRevoked(s: System, id: Id) {
    forall w :: w in s.workers ==> PointFits(s, s.workers[w].at, id)
  }

  predicate PointFits(s: System, at: Point, id: Id) {
    (at.Finalizing? || at.Releasing?) && at.entry.id == id && at.entry.action == Disconnect ==>
      id in s.rows && s.rows[id].status == if at.Finalizing? then Revoked else Delivered
  }

  /** The worker holds the claim of the row while it has it in hand. */
  predicate ClaimHeld(s: System, id: Id) {
    forall w :: w in s.workers ==> HandHeld(s, w, InHand(s.workers[w]), id)
  }

  predicate HandHeld(s: System, w: Token, hand: seq<Entry>, id: Id) {
    forall k :: 0 <= k < |hand| && hand[k].id == id ==> id in s.rows && s.rows[id].claim == Some(w)
  }

  predicate AttemptsOk(s: System, id: Id) {
    id in s.rows && (IsOpen(s.rows[id].status) || s.rows[id].status == Delivered) ==> 0 <= s.rows[id].attempts < MAX_ATTEMPT
  }

  predicate Calls(s0: System, s: System, id: Id) {
    CallBudget(s0, s, id) && FinalizesRevoked(s, id) && ClaimHeld(s, id) && AttemptsOk(s, id)
  }

  /** What more is known when the row is not a DISCONNECT row: it is open while in hand. */
  predicate InHandIsOpen(s: System, id: Id) {
    id in s.rows && s.rows[id].action != Disconnect ==> forall w :: w in s.workers ==> HoldsRow(s, w, s.workers[w], id)
  }

  // ------------------------------------------------------ holding the claim

  lemma KeepsClaim(s: System, e: Event, id: Id)
    requires Enabled(s, e) && Smooth(e) && id in s.rows && !e.Claim?
    requires e.Record? || e.Release? ==> s.workers[e.w].at.entry.id != id
    ensures RowAfter(s, e, id).claim == s.rows[id].claim
  {
    hide Check;
    hide Finishes;
  }

  lemma ClaimHeldAt(s: System, e: Event, id: Id, w: Token)
    requires WellFormed(s) && Enabled(s, e) && Smooth(e) && Alone(s) && ClaimHeld(s, id) && !e.Claim? && e != Spawn(w)
    requires w in s.workers && w in Next(s, e).workers
    ensures HandHeld(Next(s, e), w, InHand(Next(s, e).workers[w]), id)
  {
    HandAfterStep(s, e, w);
    assert HandHeld(s, w, InHand(s.workers[w]), id);
    if e.Record? || e.Release? {
      assert e.w == w;
      WorkerAfterStep(s, e, w);
      LeavesHand(s, e);
    }
    assert WorkerOk(s, w, s.workers[w]);
    hide Next;
    hide WellFormed;
    hide ClaimHeld;
    var hand, hand' := InHand(s.workers[w]), InHand(Next(s, e).workers[w]);
    forall k | 0 <= k < |hand'| && hand'[k].id == id ensures id in Next(s, e).rows && Next(s, e).rows[id].claim == Some(w) {
      var d := if e.Record? || e.Release? then 1 else if hand' == hand then 0 else 1;
      assert hand'[k] == hand[k + d];
      RowAfterStep(s, e, id);
      KeepsClaim(s, e, id);
    }
  }

  lemma LeavesHand(s: System, e: Event)
    requires Enabled(s, e) && (e.Record? || e.Release?)
    ensures InHand(Next(s, e).workers[e.w]) == InHand(s.workers[e.w])[1..] && InHand(s.workers[e.w])[0] == s.workers[e.w].at.entry
  {
  }

  lemma ClaimHeldStep(s: System, e: Event, id: Id)
    requires WellFormed(s) && Enabled(s, e) && Smooth(e) && Alone(s) && ClaimHeld(s, id)
    ensures ClaimHeld(Next(s, e), id)
  {
    forall w | w in Next(s, e).workers ensures HandHeld(Next(s, e), w, InHand(Next(s, e).workers[w]), id) {
      if e == Spawn(w) {
        assert InHand(Worker([], Ready)) == [];
      } else if e.Claim? {
        ClaimedHand(s, e, id);
      } else {
        ClaimHeldAt(s, e, id, w);
      }
    }
  }

  lemma ClaimedHand(s: System, e: Event, id: Id)
    requires Enabled(s, e) && e.Claim?
    ensures HandHeld(Next(s, e), e.w, InHand(Next(s, e).workers[e.w]), id)
  {
    ClaimedQueue(s, e);
    hide Next;
    hide Enabled;
    var worker := Next(s, e).workers[e.w];
    assert InHand(worker) == worker.queue;
  }

  lemma AttemptsStep(s: System, e: Event, id: Id)
    requires WellFormed(s) && Enabled(s, e) && Smooth(e) && LoneSafe(s) && ClaimHeld(s, id) && AttemptsOk(s, id)
    ensures AttemptsOk(Next(s, e), id)
  {
    if id in s.rows {
      RowAfterStep(s, e, id);
      AttemptsOfRow(s, e, id);
      hide Next;
    } else if id in Next(s, e).rows {
      NewRowIsPending(s, e, id);
    }
  }

  lemma AttemptsOfRow(s: System, e: Event, id: Id)
    requires WellFormed(s) && Enabled(s, e) && Smooth(e) && LoneSafe(s) && ClaimHeld(s, id) && AttemptsOk(s, id) && id in s.rows
    ensures var r := RowAfter(s, e, id); IsOpen(r.status) || r.status == Delivered ==> 0 <= r.attempts < MAX_ATTEMPT
  {
    hide Check;
    hide Finishes;
    assert RowKeepsRevoked(s, id);
    if Actor(e).Some? && !e.Claim? {
      ActingEntry(s, e, e.w);
      ActingIsFirst(s, e);
      assert HandHeld(s, e.w, InHand(s.workers[e.w]), id);
      assert LoneWorkerOk(s, s.workers[e.w]);
    }
    hide WellFormed;
    hide Untouched;
  }

  lemma ActingIsFirst(s: System, e: Event)
    requires Enabled(s, e) && Actor(e).Some? && !e.Claim?
    ensures |InHand(s.workers[e.w])| > 0 && InHand(s.workers[e.w])[0] == Acting(s, e)
  {
  }

  // ------------------------------------------------------------ counting calls

  lemma CallsForAppend(calls: seq<Call>, more: seq<Call>, id: Id)
    requires |more| <= 1
    ensures CallsFor(calls + more, id) == CallsFor(calls, id) + (if |more| == 1 && more[0].entry.id == id then 1 else 0)
  {
    if more == [] {
      assert calls + more == calls;
    } else {
      assert (calls + more)[..|calls|] == calls;
    }
  }

  /** A step of the worker on the row: what it adds to the calls is covered. */
  lemma OwnCall(s: System, e: Event, id: Id)
    requires WellFormed(s) && Enabled(s, e) && Smooth(e) && Alone(s) && LoneSafe(s) && id in s.rows && FinalizesRevoked(s, id)
    requires Actor(e).Some? && !e.Claim? && Acting(s, e).id == id && s.rows[id].claim == Some(e.w)
    requires s.rows[id].action != Disconnect ==> HoldsRow(s, e.w, s.workers[e.w], id)
    ensures var r, r' := s.rows[id], RowAfter(s, e, id);
            var spent, spent' := SpentIn(s.workers, id), SpentIn(WorkersAfter(s, e), id);
            && |NewCalls(s, e)| <= 1
            && (NewCalls(s, e) != [] ==>
                  && e.Begin? && r.status == Pending && !spent && NewCalls(s, e)[0].entry.id == id
                  && IsOpen(r'.status) && r'.attempts == r.attempts && (r'.status == Revoked || spent'))
            && (NewCalls(s, e) == [] && IsOpen(r'.status) ==>
                  && IsOpen(r.status)
                  && (r'.attempts == r.attempts + 1 || (r'.attempts == r.attempts && ((r.status == Revoked || spent) ==> r'.status == Revoked || spent'))))
  {
    hide Untouched;
    hide HarmlessFailure;
    assert RowKeepsRevoked(s, id);
    hide RowsKeepRevoked;
    ActingEntry(s, e, e.w);
    assert LoneWorkerOk(s, s.workers[e.w]);
    assert WorkerOk(s, e.w, s.workers[e.w]) && PointFits(s, s.workers[e.w].at, id);
    hide WellFormed;
    var at' := WorkersAfter(s, e)[e.w].at;
    assert Past(at', id) ==> SpentIn(WorkersAfter(s, e), id);
    assert SpentIn(s.workers, id) ==> Past(s.workers[e.w].at, id);
    if e.Begin? {
      assert Acting(s, e).action != Disconnect ==> HoldsOpen(s, e.w, Acting(s, e));
      BeginCall(s, e, id);
    } else if e.Record? && IsOpen(s.rows[id].status) {
      RecordTurn(s, e, id);
    }
  }

  lemma BeginCall(s: System, e: Event, id: Id)
    requires Enabled(s, e) && e.Begin? && Acting(s, e).id == id && Matches(s, e.w, Acting(s, e))
    requires Acting(s, e).action == Disconnect || (Untouched(s, Acting(s, e)) && HoldsOpen(s, e.w, Acting(s, e)))
    ensures var r, r', at' := s.rows[id], RowAfter(s, e, id), PointAfter(s, e);
            && |NewCalls(s, e)| <= 1 && (IsOpen(r'.status) <==> IsOpen(r.status)) && r'.attempts == r.attempts
            && (NewCalls(s, e) != [] ==> r.status == Pending && NewCalls(s, e)[0].entry.id == id && (r'.status == Revoked || Past(at', id)))
            && (r.status == Revoked ==> r'.status == Revoked)
  {
  }

  lemma OtherCall(s: System, e: Event, id: Id)
    requires Enabled(s, e) && Alone(s) && Actor(e).Some? && !e.Claim? && Acting(s, e).id != id
    ensures |NewCalls(s, e)| <= 1 && (NewCalls(s, e) != [] ==> NewCalls(s, e)[0].entry.id != id)
    ensures !SpentIn(s.workers, id)
  {
    hide Check;
  }

  lemma SpentOnlyActor(s: System, e: Event, id: Id)
    requires Enabled(s, e) && !e.Crash? && (Actor(e) == None || e.Claim?) && WellFormed(s)
    ensures SpentIn(s.workers, id) ==> SpentIn(WorkersAfter(s, e), id)
    ensures NewCalls(s, e) == []
  {
    if SpentIn(s.workers, id) {
      var w :| w in s.workers && Past(s.workers[w].at, id);
      assert w in s.used by { assert WorkerOk(s, w, s.workers[w]); }
      assert WorkersAfter(s, e)[w] == s.workers[w];
    }
  }

  lemma CallBudgetStep(s0: System, s: System, e: Event, id: Id)
    requires WellFormed(s) && Enabled(s, e) && Smooth(e) && Alone(s) && LoneSafe(s) && InHandIsOpen(s, id) && Calls(s0, s, id) && id in s.rows
    ensures CallBudget(s0, Next(s, e), id)
  {
    hide Next;
    hide LoneSafe;
    hide WellFormed;
    hide WorkersAfter;
    hide RowAfter;
    hide NewCalls;
    hide CallsFor;
    hide FinalizesRevoked;
    hide HoldsRow;
    RowAfterStep(s, e, id);
    NextIs(s, e);
    if Actor(e).Some? && !e.Claim? {
      if Acting(s, e).id == id {
        ActingIsFirst(s, e);
        assert HandHeld(s, e.w, InHand(s.workers[e.w]), id);
        OwnCall(s, e, id);
      } else {
        OtherTurn(s, e, id);
        OtherCall(s, e, id);
      }
    } else {
      SpentOnlyActor(s, e, id);
      IdleTurn(s, e, id);
    }
    CallsForAppend(s.calls, NewCalls(s, e), id);
  }

  lemma NewRowCalls(s0: System, s: System, e: Event, id: Id)
    requires WellFormed(s) && Enabled(s, e) && CallBudget(s0, s, id) && id !in s.rows
    ensures CallBudget(s0, Next(s, e), id)
  {
    NextIs(s, e);
    if e.Begin? { ActingEntry(s, e, e.w); }
    CallsForAppend(s.calls, NewCalls(s, e), id);
    if id in Next(s, e).rows { NewRowIsPending(s, e, id); }
    hide Next;
  }

  lemma FinalizingStep(s: System, e: Event, id: Id)
    requires WellFormed(s) && Enabled(s, e) && Smooth(e) && Alone(s) && FinalizesRevoked(s, id)
    ensures FinalizesRevoked(Next(s, e), id)
  {
    hide PointFits;
    forall w | w in Next(s, e).workers ensures PointFits(Next(s, e), Next(s, e).workers[w].at, id) {
      if e == Spawn(w) {
        NothingFits(Next(s, e), id);
      } else {
        FinalizingStepAt(s, e, id, w);
      }
    }
  }

  lemma NothingFits(s: System, id: Id)
    ensures PointFits(s, Ready, id)
  {
  }

  lemma FinalizingStepAt(s: System, e: Event, id: Id, w: Token)
    requires WellFormed(s) && Enabled(s, e) && Smooth(e) && Alone(s) && FinalizesRevoked(s, id)
    requires w in s.workers && w in Next(s, e).workers && e != Spawn(w)
    ensures PointFits(Next(s, e), Next(s, e).workers[w].at, id)
  {
    hide Next;
    NextIs(s, e);
    if Actor(e) == Some(w) {
      if e.Claim? {
        NothingFits(Next(s, e), id);
      } else {
        ActingEntry(s, e, w);
        PointIsActing(s, e);
        assert WorkerOk(s, w, s.workers[w]);
        hide WellFormed;
        if Acting(s, e).id == id && Acting(s, e).action == Disconnect {
          RowAfterStep(s, e, id);
          PointFitsRow(s, e, id);
        }
      }
    } else {
      OthersUnmoved(s, e, w);
      assert Actor(e) == None && PointFits(s, s.workers[w].at, id);
      if id in s.rows {
        RowAfterStep(s, e, id);
        IdleTurn(s, e, id);
      }
    }
  }

  lemma PointFitsRow(s: System, e: Event, id: Id)
    requires Enabled(s, e) && Smooth(e) && Actor(e).Some? && !e.Claim? && Acting(s, e).id == id && Acting(s, e).action == Disconnect && id in s.rows
    requires s.workers[e.w].at.Checkpoint? ==> s.workers[e.w].at.entry.action != Disconnect
    requires SameWork(s.rows[id], Acting(s, e))
    ensures PointAfter(s, e).Finalizing? ==> RowAfter(s, e, id).status == Revoked
    ensures PointAfter(s, e).Releasing? ==> RowAfter(s, e, id).status == Delivered
  {
  }

  lemma CallsStep(s0: System, s: System, e: Event, id: Id)
    requires WellFormed(s) && Enabled(s, e) && Smooth(e) && Alone(s) && LoneSafe(s) && InHandIsOpen(s, id) && Calls(s0, s, id)
    ensures Calls(s0, Next(s, e), id)
  {
    hide Next;
    hide Enabled;
    hide CallBudget;
    hide FinalizesRevoked;
    hide ClaimHeld;
    hide AttemptsOk;
    hide LoneSafe;
    FinalizingStep(s, e, id);
    ClaimHeldStep(s, e, id);
    AttemptsStep(s, e, id);
    if id in s.rows {
      CallBudgetStep(s0, s, e, id);
    } else {
      NewRowCalls(s0, s, e, id);
    }
  }

  lemma {:induction false} CallsRun(s: System, es: seq<Event>, id: Id)
    requires Init(s) && Trace(s, es) && AloneThroughout(s, es) && Tracked(s, id) && EveryEvent(es, e => Smooth(e))
    requires NeverStrays(s, es, id) || (id in Run(s, es).rows && Run(s, es).rows[id].action == Disconnect)
    ensures Calls(s, Run(s, es), id)
    decreases |es|
  {
    hide Next;
    hide Enabled;
    hide Budget;
    hide Calls;
    hide Strays;
    CallsStart(s, id);
    if es != [] {
      var front, last := es[..|es| - 1], es[|es| - 1];
      assert forall k :: 0 <= k < |front| ==> front[k] == es[k];
      var t := Run(s, front);
      RowsPersist(t, last);
      LoneRunIsSafe(s, front);
      if NeverStrays(s, front, id) {
        CallsRun(s, front, id);
        BudgetRun(s, front, id);
        OpenByBudget(s, t, id, Expirations(s, front, id));
        CallsStep(s, t, last, id);
      } else {
        StrayedIsThere(s, front, id);
        CallsRun(s, front, id);
        CallsStep(s, t, last, id);
      }
    }
  }

  lemma OpenByBudget(s0: System, s: System, id: Id, dropped: nat)
    requires Budget(s0, s, id, dropped)
    ensures InHandIsOpen(s, id)
  {
  }

  /** What strayed was a row already. */
  lemma {:induction false} StrayedIsThere(s: System, es: seq<Event>, id: Id)
    requires Trace(s, es) && !NeverStrays(s, es, id)
    ensures id in Run(s, es).rows
    decreases |es|
  {
    hide Next;
    hide Enabled;
    if es != [] {
      var front, last := es[..|es| - 1], es[|es| - 1];
      RowsPersist(Run(s, front), last);
      if !NeverStrays(s, front, id) {
        StrayedIsThere(s, front, id);
      }
    }
  }

  lemma CallsStart(s: System, id: Id)
    requires Init(s) && Tracked(s, id)
    ensures Calls(s, s, id)
  {
  }

  /** A lone worker whose bookkeeping writes succeed calls the provider of a row at most ten
      times in all, less the attempts the row started with: of any DISCONNECT row, and of any
      other row that no finalization of another row delivers while the worker holds it. */
  lemma AtMostTenCalls(s: System, es: seq<Event>, id: Id)
    requires Init(s) && Trace(s, es) && AloneThroughout(s, es) && Tracked(s, id) && EveryEvent(es, e => Smooth(e))
    requires NeverStrays(s, es, id) || (id in Run(s, es).rows && Run(s, es).rows[id].action == Disconnect)
    ensures CallsFor(Run(s, es).calls, id) <= MAX_ATTEMPT - StartAttempts(s, id)
  {
    hide Trace;
    hide Run;
    hide Calls;
    CallsRun(s, es, id);
    CallsBound(s, Run(s, es), id);
  }

  lemma CallsBound(s0: System, s: System, id: Id)
    requires Calls(s0, s, id)
    ensures CallsFor(s.calls, id) <= MAX_ATTEMPT - StartAttempts(s0, id)
  {
    hide CallsFor;
    hide ClaimHeld;
    hide FinalizesRevoked;
    hide SpentIn;
  }
}
