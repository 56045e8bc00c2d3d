/** What the outbox never does, over whole runs: send a revoked credential to its provider
    again, forget that it was revoked, or retry a row for ever. */
module OutboxSafety {
  import opened Wrappers
  import opened Outbox
  import opened OutboxLeases

  /** Once REVOKED, a row may be finalized or given up, never made PENDING or FAILED again. */
  predicate StaysRevoked(status: Status) {
    status == Revoked || status == Delivered || status == FinalizeFailed
  }

  predicate EveryEvent(es: seq<Event>, p: Event -> bool) {
    forall k :: 0 <= k < |es| ==> p(es[k])
  }

  predicate Alone(s: System) {
    forall v, w :: v in s.workers && w in s.workers ==> v == w
  }

  /** At no point of the run are two workers alive; a crashed one may be replaced. */
  ghost predicate AloneThroughout(s: System, es: seq<Event>)
    requires Trace(s, es)
    decreases |es|
  {
    Alone(Run(s, es)) && (es == [] || AloneThroughout(s, es[..|es| - 1]))
  }

  // ------------------------------------- one worker, ACCOUNT_DELETE rows

  /** What a lone worker knows of an entry it has not begun, or is about to checkpoint. */
  predicate Untouched(s: System, x: Entry) {
    && (x.status == Pending || x.status == Revoked || x.status == Delivered)
    && x.id in s.rows
    && (x.status == Pending ==> x.id !in s.revoked && (s.rows[x.id].status == Pending || s.rows[x.id].status == Delivered))
    && (x.status == Delivered ==> s.rows[x.id].status == Delivered)
  }

  /** A failure about to be recorded as PENDING does not concern a revoked row, or the row is
      DELIVERED and the write will pass it by. */
  predicate HarmlessFailure(s: System, x: Entry) {
    x.id in s.rows && (s.rows[x.id].status == Delivered || (s.rows[x.id].status == Pending && x.id !in s.revoked))
  }

  predicate LoneWorkerOk(s: System, worker: Worker) {
    && (forall k :: 0 <= k < |worker.queue| && worker.queue[k].action != Disconnect ==> Untouched(s, worker.queue[k]))
    && (worker.at.Recording? && worker.at.retry == Pending && worker.at.entry.action != Disconnect ==> HarmlessFailure(s, worker.at.entry))
    && (worker.at.Recording? ==> worker.at.retry == Pending || worker.at.retry == Revoked)
  }

  predicate RowKeepsRevoked(s: System, i: Id) {
    i in s.rows ==>
      && (s.rows[i].claim.Some? ==> s.rows[i].status != Failed && s.rows[i].status != FinalizeFailed)
      && (s.rows[i].action != Disconnect && i in s.revoked ==> StaysRevoked(s.rows[i].status))
  }

  predicate RowsKeepRevoked(s: System) {
    forall i :: i in s.rows ==> RowKeepsRevoked(s, i)
  }

  /** A call was made for a row already revoked only if the entry was read as DELIVERED. */
  predicate CallOk(c: Call) {
    c.entry.action != Disconnect && c.again ==> c.entry.status == Delivered
  }

  predicate LoneSafe(s: System) {
    && RowsKeepRevoked(s)
    && (forall w :: w in s.workers ==> LoneWorkerOk(s, s.workers[w]))
    && (forall c :: c in s.calls ==> CallOk(c))
  }

  /** The acting entry is in hand, matches its row, and is not waiting in the queue. */
  lemma ActingEntry(s: System, e: Event, w: Token)
    requires WellFormed(s) && Enabled(s, e) && Actor(e) == Some(w) && !e.Claim?
    ensures var worker := s.workers[w];
            var x := if e.Begin? then worker.queue[0] else worker.at.entry;
            && Matches(s, w, x)
            && (forall k :: (if e.Begin? then 1 else 0) <= k < |worker.queue| ==> worker.queue[k].id != x.id)
  {
    var hand := InHand(s.workers[w]);
    assert Matches(s, w, hand[0]);
    forall k | (if e.Begin? then 1 else 0) <= k < |s.workers[w].queue|
      ensures s.workers[w].queue[k].id != hand[0].id
    {
      var j := if e.Begin? then k else k + 1;
      assert hand[j] == s.workers[w].queue[k];
    }
  }

  /** No step but the worker's own checkpoint or failure record makes a row REVOKED, so an
      entry it has not come to yet stays as it was. */
  lemma UntouchedSurvives(s: System, e: Event, x: Entry)
    requires WellFormed(s) && Enabled(s, e) && RowsKeepRevoked(s) && Untouched(s, x) && x.action != Disconnect
    requires Actor(e).Some? && !e.Claim? ==>
      (if e.Begin? then s.workers[e.w].queue[0] else s.workers[e.w].at.entry).id != x.id
    ensures Untouched(Next(s, e), x)
  {
    hide Next;
    hide RowsAfter;
    hide WorkersAfter;
    hide NewCalls;
    hide WellFormed;
    RowAfterStep(s, e, x.id);
    NextIs(s, e);
    assert RowKeepsRevoked(s, x.id);
  }

  lemma HarmlessSurvives(s: System, e: Event, x: Entry)
    requires WellFormed(s) && Enabled(s, e) && RowsKeepRevoked(s) && HarmlessFailure(s, x) && x.action != Disconnect
    requires Actor(e).Some? ==> e.Claim?
    ensures HarmlessFailure(Next(s, e), x)
  {
  }

  lemma RowsKeepRevokedStep(s: System, e: Event)
    requires WellFormed(s) && Enabled(s, e) && LoneSafe(s)
    ensures RowsKeepRevoked(Next(s, e))
  {
    forall i | i in Next(s, e).rows ensures RowKeepsRevoked(Next(s, e), i) {
      if i in s.rows {
        OneRowKeepsRevoked(s, e, i);
      }
    }
  }

  lemma OneRowKeepsRevoked(s: System, e: Event, i: Id)
    requires WellFormed(s) && Enabled(s, e) && LoneSafe(s) && i in s.rows
    ensures RowKeepsRevoked(Next(s, e), i)
  {
    hide Next;
    hide RowsAfter;
    hide WorkersAfter;
    hide NewCalls;
    RowAfterStep(s, e, i);
    NextIs(s, e);
    assert RowKeepsRevoked(s, i);
    if e.Record? {
      ActingEntry(s, e, e.w);
      assert LoneWorkerOk(s, s.workers[e.w]);
    }
  }

  lemma LoneWorkerStep(s: System, e: Event, w: Token)
    requires WellFormed(s) && Enabled(s, e) && LoneSafe(s) && w in Next(s, e).workers
    requires Alone(s) && Actor(e).Some? ==> w == e.w
    requires Alone(s)
    ensures LoneWorkerOk(Next(s, e), Next(s, e).workers[w])
  {
    var s' := Next(s, e);
    if e == Spawn(w) {
    } else if e.Claim? {
      LoneClaimStep(s, e);
    } else {
      hide LoneSafe;
      LoneActorStep(s, e, w);
    }
  }

  lemma LoneClaimStep(s: System, e: Event)
    requires WellFormed(s) && Enabled(s, e) && LoneSafe(s) && e.Claim?
    ensures LoneWorkerOk(Next(s, e), Next(s, e).workers[e.w])
  {
    ClaimedQueue(s, e);
    hide Next;
    var s' := Next(s, e);
    var queue := s'.workers[e.w].queue;
    forall k | 0 <= k < |queue| && queue[k].action != Disconnect ensures Untouched(s', queue[k]) {
      var i := e.batch[k];
      assert i in e.batch;
      RowAfterStep(s, e, i);
      NextIs(s, e);
      hide RowsAfter;
      hide WorkersAfter;
      assert RowKeepsRevoked(s, i);
    }
  }

  /** The batch a claim reads: rows it holds, as they are. */
  lemma ClaimedQueue(s: System, e: Event)
    requires Enabled(s, e) && e.Claim?
    ensures var s' := Next(s, e);
            && s'.workers[e.w].at == Ready && |s'.workers[e.w].queue| == |e.batch|
            && forall k :: 0 <= k < |e.batch| ==>
                 && e.batch[k] in s'.rows && e.batch[k] in s.rows && s'.rows[e.batch[k]].claim == Some(e.w)
                 && s'.workers[e.w].queue[k] == Snapshot(s'.rows, e.batch[k])
  {
    assert forall k :: 0 <= k < |e.batch| ==> e.batch[k] in e.batch;
  }


  lemma LoneActorStep(s: System, e: Event, w: Token)
    requires WellFormed(s) && Enabled(s, e) && LoneSafe(s) && w in s.workers && w in Next(s, e).workers
    requires !e.Claim? && (Actor(e).Some? ==> w == e.w) && e != Spawn(w)
    ensures LoneWorkerOk(Next(s, e), Next(s, e).workers[w])
  {
    hide Next;
    hide WellFormed;
    hide Untouched;
    hide HarmlessFailure;
    var s' := Next(s, e);
    var worker, worker' := s.workers[w], s'.workers[w];
    var d := if e.Begin? then 1 else 0;
    LonePointStep(s, e, w);
    QueueStep(s, e, w);
    assert LoneWorkerOk(s, worker);
    if Actor(e).Some? {
      ActingEntry(s, e, w);
    }
    forall k | 0 <= k < |worker'.queue| && worker'.queue[k].action != Disconnect
      ensures Untouched(s', worker'.queue[k])
    {
      assert worker'.queue[k] == worker.queue[k + d];
      UntouchedSurvives(s, e, worker.queue[k + d]);
    }
  }

  lemma QueueStep(s: System, e: Event, w: Token)
    requires WellFormed(s) && Enabled(s, e) && w in s.workers && w in Next(s, e).workers
    requires !e.Claim? && (Actor(e).Some? ==> w == e.w) && e != Spawn(w)
    ensures Next(s, e).workers[w].queue == if e.Begin? then s.workers[w].queue[1..] else s.workers[w].queue
    ensures e.Begin? ==> s.workers[w].queue != []
  {
    hide Next;
    hide WellFormed;
    if Actor(e) == None {
      OthersUnmoved(s, e, w);
    } else if e.Begin? {
      WorkerAfterBegin(s, w, e.outcome);
    } else {
      WorkerAfterStep(s, e, w);
    }
  }

  /** A failure that is about to be recorded as PENDING is a harmless one. */
  lemma LonePointStep(s: System, e: Event, w: Token)
    requires WellFormed(s) && Enabled(s, e) && LoneSafe(s) && w in s.workers && w in Next(s, e).workers
    requires !e.Claim? && (Actor(e).Some? ==> w == e.w) && e != Spawn(w)
    ensures var at := Next(s, e).workers[w].at;
            at.Recording? ==> (at.retry == Pending || at.retry == Revoked) && (at.retry == Pending && at.entry.action != Disconnect ==> HarmlessFailure(Next(s, e), at.entry))
  {
    hide Next;
    assert LoneWorkerOk(s, s.workers[w]);
    if Actor(e) == None {
      OthersUnmoved(s, e, w);
      var at := s.workers[w].at;
      if at.Recording? && at.retry == Pending && at.entry.action != Disconnect {
        HarmlessSurvives(s, e, at.entry);
      }
    } else {
      NextIs(s, e);
      assert Next(s, e).workers[w].at == PointAfter(s, e);
      if e.Begin? {
        hide WellFormed;
        hide RowsKeepRevoked;
        BeginIsHarmless(s, w, e.outcome);
      }
    }
  }

  lemma BeginIsHarmless(s: System, w: Token, outcome: Outcome)
    requires Enabled(s, Begin(w, outcome)) && LoneWorkerOk(s, s.workers[w])
    ensures var at := PointAfter(s, Begin(w, outcome));
            at.Recording? && at.retry == Pending && at.entry.action != Disconnect ==> HarmlessFailure(Next(s, Begin(w, outcome)), at.entry)
    ensures var at := PointAfter(s, Begin(w, outcome)); at.Recording? ==> at.retry == Pending || at.retry == Revoked
  {
    hide Check;
    assert Untouched(s, s.workers[w].queue[0]) || s.workers[w].queue[0].action == Disconnect;
  }

  lemma LoneSafeStep(s: System, e: Event)
    requires WellFormed(s) && Enabled(s, e) && LoneSafe(s) && Alone(s)
    ensures LoneSafe(Next(s, e))
  {
    RowsKeepRevokedStep(s, e);
    forall w | w in Next(s, e).workers ensures LoneWorkerOk(Next(s, e), Next(s, e).workers[w]) {
      LoneWorkerStep(s, e, w);
    }
  }

  lemma {:induction false} LoneRunIsSafe(s: System, es: seq<Event>)
    requires Init(s) && Trace(s, es) && AloneThroughout(s, es)
    ensures LoneSafe(Run(s, es)) && WellFormed(Run(s, es))
    decreases |es|
  {
    RunIsWellFormed(s, es);
    if es != [] {
      var front := es[..|es| - 1];
      LoneRunIsSafe(s, front);
      LoneSafeStep(Run(s, front), es[|es| - 1]);
    }
  }

  /** One worker, restarted as often as it crashes, with provider failures, failed writes and
      operator retries in between: a row that was ever REVOKED never becomes PENDING or FAILED
      again, and the provider is called for it again exactly when the claim handed the row back
      after it was DELIVERED. */
  lemma RevokedStaysRevoked(s: System, es: seq<Event>, id: Id)
    requires Init(s) && Trace(s, es) && AloneThroughout(s, es)
    requires id in Run(s, es).rows && Run(s, es).rows[id].action != Disconnect && id in Run(s, es).revoked
    ensures StaysRevoked(Run(s, es).rows[id].status)
    ensures forall w, outcome ::
      Enabled(Run(s, es), Begin(w, outcome)) && Run(s, es).workers[w].queue[0].id == id && (outcome.CallFailed? || outcome.Through?) ==>
        (NewCalls(Run(s, es), Begin(w, outcome)) != [] <==> Run(s, es).workers[w].queue[0].status == Delivered)
  {
    LoneRunIsSafe(s, es);
    var t := Run(s, es);
    forall w, outcome | Enabled(t, Begin(w, outcome)) && t.workers[w].queue[0].id == id && (outcome.CallFailed? || outcome.Through?)
      ensures NewCalls(t, Begin(w, outcome)) != [] <==> t.workers[w].queue[0].status == Delivered
    {
      ActingEntry(t, Begin(w, outcome), w);
      assert LoneWorkerOk(t, t.workers[w]);
    }
  }

  // ------------------------------------------- when DELIVERED rows come back

  /** A write that leaves a DELIVERED row claimed: a release that did not happen, or a
      finalization that took effect and was reported as failed. */
  predicate Leaks(e: Event) {
    (e.Release? && !e.written) || (e.Finalize? && e.written && !e.acked)
  }

  /** A finalization delivers another open row of the same member, provider and action while a
      live worker holds that row: the worker does not learn of it, and the row stays claimed. */
  predicate Strays(s: System, e: Event, id: Id)
    requires Enabled(s, e)
  {
    id in s.rows && FinalizesSibling(s, e, id) && s.rows[id].claim.Some? && s.rows[id].claim.value in s.workers
  }

  /** Never in the run does this happen to the row. */
  ghost predicate NeverStrays(s: System, es: seq<Event>, id: Id)
    requires Trace(s, es)
    decreases |es|
  {
    es == [] || (NeverStrays(s, es[..|es| - 1], id) && !Strays(Run(s, es[..|es| - 1]), es[|es| - 1], id))
  }

  /** A live worker's claim on the DELIVERED row is about to be released. */
  predicate ReleasedOnly(s: System, id: Id) {
    forall w :: w in s.workers && id in s.rows && s.rows[id].status == Delivered && s.rows[id].claim == Some(w) ==>
      s.workers[w].at.Releasing? && s.workers[w].at.entry.id == id
  }

  /** A live worker's claim on a row that was revoked and is DELIVERED is about to be released,
      and nothing in its queue was read as DELIVERED after it had been revoked. */
  predicate NoLeak(s: System) {
    && (forall i :: i in s.rows && s.rows[i].action != Disconnect && i in s.revoked ==> ReleasedOnly(s, i))
    && (forall w, k :: w in s.workers && 0 <= k < |s.workers[w].queue| && s.workers[w].queue[k].action != Disconnect && s.workers[w].queue[k].status == Delivered ==>
          s.workers[w].queue[k].id !in s.revoked)
    && (forall c :: c in s.calls && c.entry.action != Disconnect ==> !c.again)
  }

  lemma ReleasedStep(s: System, e: Event, id: Id)
    requires LoneSafe(s) && WellFormed(s) && Enabled(s, e) && Alone(s) && !Leaks(e) && !Strays(s, e, id) && ReleasedOnly(s, id)
    ensures ReleasedOnly(Next(s, e), id)
  {
    forall w | w in Next(s, e).workers && id in Next(s, e).rows && Next(s, e).rows[id].status == Delivered && Next(s, e).rows[id].claim == Some(w)
      ensures Next(s, e).workers[w].at.Releasing? && Next(s, e).workers[w].at.entry.id == id
    {
      ReleasedStepAt(s, e, id, w);
    }
  }

  lemma ReleasedStepAt(s: System, e: Event, id: Id, w: Token)
    requires LoneSafe(s) && WellFormed(s) && Enabled(s, e) && Alone(s) && !Leaks(e) && !Strays(s, e, id) && ReleasedOnly(s, id)
    requires w in Next(s, e).workers && id in Next(s, e).rows && Next(s, e).rows[id].status == Delivered && Next(s, e).rows[id].claim == Some(w)
    ensures Next(s, e).workers[w].at.Releasing? && Next(s, e).workers[w].at.entry.id == id
  {
    if id !in s.rows {
      NewRowIsPending(s, e, id);
      assert false;
    }
    hide Next;
    hide LoneSafe;
    hide ReleasedOnly;
    hide FinalizesSibling;
    RowAfterStep(s, e, id);
    NextIs(s, e);
    HolderWasThere(s, e, w, id);
    if s.rows[id].status != Delivered {
      NowDelivered(s, e, id);
      LeavesForRelease(s, e, w, id);
    } else {
      StaysDelivered(s, e, w, id);
    }
  }

  lemma NowDelivered(s: System, e: Event, id: Id)
    requires WellFormed(s) && Enabled(s, e) && LoneSafe(s) && id in s.rows
    requires RowAfter(s, e, id).status == Delivered && s.rows[id].status != Delivered
    ensures e.Finalize? && e.written && Finishes(s, e.w) && s.workers[e.w].at.entry.action != Unsupported
    ensures s.workers[e.w].at.entry.id == id || FinalizesSibling(s, e, id)
    ensures RowAfter(s, e, id).claim == s.rows[id].claim
  {
    hide Untouched;
    hide HarmlessFailure;
    hide Check;
    assert e.Record? ==> LoneWorkerOk(s, s.workers[e.w]);
  }

  lemma LeavesForRelease(s: System, e: Event, w: Token, id: Id)
    requires Enabled(s, e) && Alone(s) && !Leaks(e) && w in s.workers && w in WorkersAfter(s, e)
    requires e.Finalize? && e.written && s.workers[e.w].at.entry.id == id && Finishes(s, e.w) && s.workers[e.w].at.entry.action != Unsupported
    ensures WorkersAfter(s, e)[w].at.Releasing? && WorkersAfter(s, e)[w].at.entry.id == id
  {
    hide Check;
    assert w == e.w && e.acked;
    assert WorkersAfter(s, e)[e.w] == Worker(QueueAfter(s, e), PointAfter(s, e));
  }

  lemma StaysDelivered(s: System, e: Event, w: Token, id: Id)
    requires WellFormed(s) && Enabled(s, e) && !Leaks(e) && ReleasedOnly(s, id)
    requires w in WorkersAfter(s, e) && id in s.rows && s.rows[id].status == Delivered
    requires RowAfter(s, e, id).status == Delivered && RowAfter(s, e, id).claim == Some(w) && w in s.workers
    ensures WorkersAfter(s, e)[w].at.Releasing? && WorkersAfter(s, e)[w].at.entry.id == id
  {
    hide Check;
    hide Finishes;
    assert w in s.used by { assert WorkerOk(s, w, s.workers[w]); }
    hide WellFormed;
    assert s.rows[id].claim == Some(w);
    assert s.workers[w].at.Releasing?;
  }

  lemma HolderWasThere(s: System, e: Event, w: Token, i: Id)
    requires WellFormed(s) && Enabled(s, e) && w in WorkersAfter(s, e) && i in s.rows && RowAfter(s, e, i).claim == Some(w)
    ensures w in s.workers
  {
    hide Check;
    hide Finishes;
  }

  lemma NoLeakQueue(s: System, e: Event, w: Token, k: nat)
    requires WellFormed(s) && Enabled(s, e) && LoneSafe(s) && NoLeak(s) && Alone(s)
    requires w in Next(s, e).workers && k < |Next(s, e).workers[w].queue|
    requires var x := Next(s, e).workers[w].queue[k]; x.action != Disconnect && x.status == Delivered && Untouched(Next(s, e), x)
    ensures Next(s, e).workers[w].queue[k].id !in Next(s, e).revoked
  {
    hide LoneSafe;
    hide WellFormed;
    NextIs(s, e);
    var x := Next(s, e).workers[w].queue[k];
    if e.Claim? && w == e.w {
      ClaimedQueue(s, e);
      RowAfterStep(s, e, x.id);
      assert x.id in s.revoked ==> ReleasedOnly(s, x.id);
      hide Next;
    } else if e.Begin? && w == e.w {
      assert x == s.workers[w].queue[k + 1];
    }
  }

  lemma NewCallsAreFirst(s: System, e: Event)
    requires Enabled(s, e) && LoneSafe(s) && NoLeak(s)
    ensures forall c :: c in NewCalls(s, e) && c.entry.action != Disconnect ==> !c.again
  {
    if e.Begin? { assert LoneWorkerOk(s, s.workers[e.w]); }
  }

  lemma NoLeakStep(s: System, e: Event)
    requires WellFormed(s) && Enabled(s, e) && LoneSafe(s) && NoLeak(s) && Alone(s) && !Leaks(e) && !StraysRevoked(s, e)
    ensures NoLeak(Next(s, e))
  {
    hide Strays;
    var s' := Next(s, e);
    LoneSafeStep(s, e);
    RowsPersist(s, e);
    NextIs(s, e);
    NewCallsAreFirst(s, e);
    hide Next;
    hide Enabled;
    hide LoneSafe;
    forall i | i in s'.rows && s'.rows[i].action != Disconnect && i in s'.revoked ensures ReleasedOnly(s', i) {
      if i in s.revoked {
        ReleasedStep(s, e, i);
      }
    }
    forall w, k | w in s'.workers && 0 <= k < |s'.workers[w].queue| && s'.workers[w].queue[k].action != Disconnect && s'.workers[w].queue[k].status == Delivered
      ensures s'.workers[w].queue[k].id !in s'.revoked
    {
      QueuedIsUntouched(s', w, k);
      NoLeakQueue(s, e, w, k);
    }
  }

  lemma QueuedIsUntouched(s: System, w: Token, k: nat)
    requires LoneSafe(s) && w in s.workers && k < |s.workers[w].queue| && s.workers[w].queue[k].action != Disconnect
    ensures Untouched(s, s.workers[w].queue[k])
  {
    assert LoneWorkerOk(s, s.workers[w]);
  }

  /** Such a delivery of a row that is already REVOKED. */
  ghost predicate StraysRevoked(s: System, e: Event)
    requires Enabled(s, e)
  {
    exists i :: i in s.rows && i in s.revoked && s.rows[i].action != Disconnect && Strays(s, e, i)
  }

  ghost predicate NeverStraysRevoked(s: System, es: seq<Event>)
    requires Trace(s, es)
    decreases |es|
  {
    es == [] || (NeverStraysRevoked(s, es[..|es| - 1]) && !StraysRevoked(Run(s, es[..|es| - 1]), es[|es| - 1]))
  }

  lemma {:induction false} NoLeakRun(s: System, es: seq<Event>)
    requires Init(s) && Trace(s, es) && AloneThroughout(s, es) && EveryEvent(es, e => !Leaks(e)) && NeverStraysRevoked(s, es)
    ensures NoLeak(Run(s, es))
    decreases |es|
  {
    hide Next;
    hide Enabled;
    hide StraysRevoked;
    NoLeakStart(s);
    if es != [] {
      var front, last := es[..|es| - 1], es[|es| - 1];
      assert EveryEvent(front, e => !Leaks(e)) by {
        assert forall k :: 0 <= k < |front| ==> front[k] == es[k];
      }
      NoLeakRun(s, front);
      LoneRunIsSafe(s, front);
      NoLeakStep(Run(s, front), last);
    }
  }

  lemma NoLeakStart(s: System)
    requires Init(s)
    ensures NoLeak(s)
  {
  }

  /** Hence, without such a write, and unless a finalization delivers a REVOKED row that the
      worker holds, the provider is never called for a row once it has been durably REVOKED. */
  lemma NeverCalledAgain(s: System, es: seq<Event>)
    requires Init(s) && Trace(s, es) && AloneThroughout(s, es) && EveryEvent(es, e => !Leaks(e)) && NeverStraysRevoked(s, es)
    ensures forall c :: c in Run(s, es).calls && c.entry.action != Disconnect ==> !c.again
  {
    NoLeakRun(s, es);
  }

  // ------------------------------------- any number of workers, DISCONNECT

  /** A failure before the row was read, recorded as PENDING on a row that is REVOKED. */
  predicate Demotes(s: System, e: Event)
    requires Enabled(s, e)
  {
    && e.Record? && e.written
    && var at := s.workers[e.w].at;
       && at.entry.action == Disconnect && at.retry == Pending && at.early
       && at.entry.id in s.rows && s.rows[at.entry.id].status == Revoked && s.rows[at.entry.id].claim == Some(e.w)
  }

  predicate DisconnectRowOk(s: System, i: Id)
    requires i in s.rows
  {
    && (s.rows[i].claim.Some? ==> s.rows[i].status != Failed && s.rows[i].status != FinalizeFailed)
    && (s.rows[i].action == Disconnect && i in s.revoked ==> StaysRevoked(s.rows[i].status))
  }

  predicate DisconnectSafe(s: System) {
    && (forall i :: i in s.rows ==> DisconnectRowOk(s, i))
    && (forall w :: w in s.workers ==> DisconnectPointOk(s, w, s.workers[w].at))
    && (forall c :: c in s.calls && c.entry.action == Disconnect ==> !c.again)
  }

  predicate DisconnectPointOk(s: System, w: Token, at: Point) {
    at.Recording? && at.entry.action == Disconnect ==>
      && (at.retry == Pending || at.retry == Revoked)
      && (at.retry == Pending && !at.early && at.entry.id in s.rows && s.rows[at.entry.id].claim == Some(w) ==>
            s.rows[at.entry.id].status == Pending || s.rows[at.entry.id].status == Delivered)
  }

  /** In any state with these invariants, a step takes a revoked DISCONNECT row back exactly
      when it is such a failure record. */
  lemma TakenBackIff(s: System, e: Event, id: Id)
    requires WellFormed(s) && Enabled(s, e) && DisconnectSafe(s)
    requires id in s.rows && s.rows[id].action == Disconnect && id in s.revoked
    ensures id in Next(s, e).rows
    ensures !StaysRevoked(Next(s, e).rows[id].status) <==> Demotes(s, e) && s.workers[e.w].at.entry.id == id
  {
    hide Next;
    hide RowsAfter;
    hide Check;
    RowAfterStep(s, e, id);
    if Actor(e).Some? && !e.Claim? {
      ActingEntry(s, e, e.w);
      assert DisconnectPointOk(s, e.w, s.workers[e.w].at);
    }
  }

  /** While the claim stays with `w`, nobody else makes its row REVOKED. */
  lemma HeldRowStays(s: System, e: Event, w: Token, x: Entry)
    requires WellFormed(s) && Enabled(s, e) && Matches(s, w, x) && x.action == Disconnect && Actor(e) != Some(w)
    requires s.rows[x.id].claim == Some(w) ==> s.rows[x.id].status == Pending || s.rows[x.id].status == Delivered
    ensures var row := Next(s, e).rows[x.id];
            row.claim == Some(w) ==> row.status == Pending || row.status == Delivered
  {
    RowAfterStep(s, e, x.id);
    hide Next;
    if Actor(e).Some? && !e.Claim? {
      ActingEntry(s, e, e.w);
    }
  }

  lemma ActorPointOk(s: System, e: Event)
    requires WellFormed(s) && Enabled(s, e) && Actor(e).Some?
    ensures DisconnectPointOk(Next(s, e), e.w, PointAfter(s, e))
  {
    var at := PointAfter(s, e);
    if at.Recording? && at.retry == Pending && !at.early && at.entry.action == Disconnect {
      assert e.Begin?;
      ActingEntry(s, e, e.w);
      RowAfterStep(s, e, at.entry.id);
    }
  }

  lemma DisconnectPointStep(s: System, e: Event, w: Token)
    requires WellFormed(s) && Enabled(s, e) && DisconnectSafe(s) && w in Next(s, e).workers
    ensures DisconnectPointOk(Next(s, e), w, Next(s, e).workers[w].at)
  {
    hide RowsAfter;
    if Actor(e) == Some(w) {
      ActorPointOk(s, e);
    } else if e != Spawn(w) {
      var at := s.workers[w].at;
      assert DisconnectPointOk(s, w, at);
      if at.Recording? && at.entry.action == Disconnect && at.retry == Pending && !at.early {
        assert InHand(s.workers[w])[0] == at.entry;
        assert Matches(s, w, at.entry);
        HeldRowStays(s, e, w, at.entry);
      }
    }
  }

  lemma DisconnectRowStep(s: System, e: Event, i: Id)
    requires WellFormed(s) && Enabled(s, e) && DisconnectSafe(s) && !Demotes(s, e) && i in Next(s, e).rows
    ensures DisconnectRowOk(Next(s, e), i)
  {
    if i in s.rows {
      OldDisconnectRow(s, e, i);
    } else {
      NewRowIsPending(s, e, i);
    }
  }

  lemma NewRowIsPending(s: System, e: Event, i: Id)
    requires Enabled(s, e) && i !in s.rows && i in Next(s, e).rows
    ensures e.Enqueue? && Next(s, e).rows[i] == e.row && e.row.status == Pending && e.row.claim == None && e.row.attempts == 0
    ensures WellFormed(s) ==> i !in Next(s, e).revoked
  {
  }

  lemma OldDisconnectRow(s: System, e: Event, i: Id)
    requires WellFormed(s) && Enabled(s, e) && DisconnectSafe(s) && !Demotes(s, e) && i in s.rows
    ensures i in Next(s, e).rows && DisconnectRowOk(Next(s, e), i)
  {
    hide Next;
    hide RowsAfter;
    hide WorkersAfter;
    hide NewCalls;
    hide Check;
    RowAfterStep(s, e, i);
    NextIs(s, e);
    assert DisconnectRowOk(s, i);
    if s.rows[i].action == Disconnect && i in s.revoked {
      TakenBackIff(s, e, i);
    } else {
      FailedIsReleased(s, e, i);
    }
  }

  /** A row that was given up has no claim. */
  lemma FailedIsReleased(s: System, e: Event, i: Id)
    requires Enabled(s, e) && i in s.rows && DisconnectRowOk(s, i)
    ensures RowAfter(s, e, i).claim.Some? ==> RowAfter(s, e, i).status != Failed && RowAfter(s, e, i).status != FinalizeFailed
  {
    hide Check;
    hide Finishes;
  }

  lemma DisconnectCalls(s: System, e: Event)
    requires WellFormed(s) && Enabled(s, e) && DisconnectSafe(s)
    ensures forall c :: c in NewCalls(s, e) && c.entry.action == Disconnect ==> !c.again
  {
    if e.Begin? {
      ActingEntry(s, e, e.w);
      assert DisconnectRowOk(s, s.workers[e.w].queue[0].id);
    }
  }

  lemma DisconnectSafeStep(s: System, e: Event)
    requires WellFormed(s) && Enabled(s, e) && DisconnectSafe(s) && !Demotes(s, e)
    ensures DisconnectSafe(Next(s, e))
  {
    hide RowsAfter;
    hide WorkersAfter;
    DisconnectCalls(s, e);
    forall i | i in Next(s, e).rows ensures DisconnectRowOk(Next(s, e), i) {
      DisconnectRowStep(s, e, i);
    }
    forall w | w in Next(s, e).workers ensures DisconnectPointOk(Next(s, e), w, Next(s, e).workers[w].at) {
      DisconnectPointStep(s, e, w);
    }
  }

  ghost predicate NeverDemotes(s: System, es: seq<Event>)
    requires Trace(s, es)
    decreases |es|
  {
    es == [] || (NeverDemotes(s, es[..|es| - 1]) && !Demotes(Run(s, es[..|es| - 1]), es[|es| - 1]))
  }

  /** Any number of workers, any interleaving: unless a worker records such a failure, a
      revoked DISCONNECT row stays revoked and is never sent to the provider again. */
  lemma {:induction false} DisconnectRunIsSafe(s: System, es: seq<Event>)
    requires Init(s) && Trace(s, es) && NeverDemotes(s, es)
    ensures DisconnectSafe(Run(s, es))
    decreases |es|
  {
    if es != [] {
      var front := es[..|es| - 1];
      DisconnectRunIsSafe(s, front);
      RunIsWellFormed(s, front);
      DisconnectSafeStep(Run(s, front), es[|es| - 1]);
    }
  }
}
