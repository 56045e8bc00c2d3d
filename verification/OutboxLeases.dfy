/** Leases of the revocation outbox, over every interleaving of any number of workers. */
module OutboxLeases {
  import opened Wrappers
  import opened Outbox

  // ------------------------------------------------ entries and their rows

  /** The entries a worker has in hand: the one being processed and those waiting. */
  function InHand(worker: Worker): seq<Entry> {
    (if worker.at.Ready? then [] else [worker.at.entry]) + worker.queue
  }

  /** An entry agrees with its row on everything that never changes; and as long as the
      worker keeps the claim, on the attempt count too. */
  predicate Matches(s: System, w: Token, e: Entry) {
    && e.id in s.rows && SameWork(s.rows[e.id], e)
    && (s.rows[e.id].claim == Some(w) ==> s.rows[e.id].attempts == e.attempts)
  }

  predicate WorkerOk(s: System, w: Token, worker: Worker) {
    && w in s.used
    && (worker.at.Checkpoint? ==> worker.at.entry.action != Disconnect)
    && (forall k :: 0 <= k < |InHand(worker)| ==> Matches(s, w, InHand(worker)[k]))
    && (forall j, k :: 0 <= j < k < |InHand(worker)| ==> InHand(worker)[j].id != InHand(worker)[k].id)
  }

  predicate WellFormed(s: System) {
    && s.revoked <= s.rows.Keys
    && (forall i :: i in s.rows && s.rows[i].claim.Some? ==> s.rows[i].claim.value in s.used)
    && (forall w :: w in s.workers ==> WorkerOk(s, w, s.workers[w]))
  }

  /** A change of rows that an entry in hand survives: rows stay, keep their work, and a row
      still claimed by `w` keeps its attempt count and was claimed by `w` before. */
  ghost predicate Tame(rows: map<Id, Row>, rows': map<Id, Row>, w: Token) {
    && (forall i :: i in rows ==>
          && i in rows'
          && (rows'[i].user, rows'[i].provider, rows'[i].action) == (rows[i].user, rows[i].provider, rows[i].action)
          && (rows'[i].claim == Some(w) ==> rows[i].claim == Some(w) && rows'[i].attempts == rows[i].attempts))
  }

  /** What a step does to one row. */
  function RowAfter(s: System, e: Event, i: Id): Row
    requires Enabled(s, e) && i in s.rows
  {
    var r := s.rows[i];
    match e
    case Claim(w, ids, _) => if i in ids then r.(claim := Some(w), updatedAt := s.now) else r
    case Begin(w, outcome) =>
      var x := s.workers[w].queue[0];
      if x.id == i && x.action == Disconnect && outcome.Through? && outcome.written && Check(s, w, x) == MayRevoke
      then r.(status := Revoked, updatedAt := s.now) else r
    case MarkRevoked(w, written, _) =>
      if written && s.workers[w].at.entry.id == i then r.(status := Revoked, updatedAt := s.now) else r
    case Finalize(w, _, written, _) =>
      if written && Finishes(s, w) && SameWork(r, s.workers[w].at.entry) && IsOpen(r.status)
      then r.(status := Delivered, updatedAt := s.now) else r
    case Record(w, written) =>
      var at := s.workers[w].at;
      if written && at.entry.id == i && r.status != Delivered && r.claim == Some(w) then FailedRow(r, at.entry, at.retry, s.now) else r
    case Release(w, written) =>
      if written && s.workers[w].at.entry.id == i && r.claim == Some(w) then r.(claim := None, updatedAt := s.now) else r
    case RetrySocial(user) => RetryRows(map[i := r], user, s.now)[i]
    case _ => r
  }

  lemma RowAfterStep(s: System, e: Event, i: Id)
    requires Enabled(s, e) && i in s.rows
    ensures i in Next(s, e).rows && Next(s, e).rows[i] == RowAfter(s, e, i)
  {
  }

  /** Rows are never deleted here and never change whose work they are. */
  lemma RowsPersist(s: System, e: Event)
    requires Enabled(s, e)
    ensures s.rows.Keys <= Next(s, e).rows.Keys
    ensures forall i :: i in s.rows ==>
      (Next(s, e).rows[i].user, Next(s, e).rows[i].provider, Next(s, e).rows[i].action) == (s.rows[i].user, s.rows[i].provider, s.rows[i].action)
  {
    hide Next;
    hide Enabled;
    hide Finishes;
    hide Check;
    forall i | i in s.rows
      ensures i in Next(s, e).rows
      ensures (Next(s, e).rows[i].user, Next(s, e).rows[i].provider, Next(s, e).rows[i].action) == (s.rows[i].user, s.rows[i].provider, s.rows[i].action)
    {
      RowAfterStep(s, e, i);
      SameOwner(s, e, i);
    }
  }

  lemma SameOwner(s: System, e: Event, i: Id)
    requires Enabled(s, e) && i in s.rows
    ensures var r, r' := s.rows[i], RowAfter(s, e, i); (r'.user, r'.provider, r'.action) == (r.user, r.provider, r.action)
  {
    hide Finishes;
    hide Check;
  }

  /** The parts of the next state that are not rows. */
  lemma NextIs(s: System, e: Event)
    requires Enabled(s, e)
    ensures var s' := Next(s, e);
            && s'.workers == WorkersAfter(s, e) && s'.calls == s.calls + NewCalls(s, e)
            && s'.revoked == s.revoked + RevokedIds(s'.rows)
            && s'.handled == (if e.Begin? then s.handled + multiset{s.workers[e.w].queue[0].id} else s.handled)
  {
  }

  lemma MatchesSurvives(s: System, s': System, w: Token, e: Entry)
    requires Matches(s, w, e) && Tame(s.rows, s'.rows, w)
    ensures Matches(s', w, e)
  {
  }

  lemma WorkerSurvives(s: System, s': System, w: Token, worker: Worker, worker': Worker)
    requires WorkerOk(s, w, worker) && Tame(s.rows, s'.rows, w) && s.used <= s'.used
    requires worker'.at.Checkpoint? ==> worker'.at.entry.action != Disconnect
    requires InHand(worker') == InHand(worker) || (InHand(worker) != [] && InHand(worker') == InHand(worker)[1..])
    ensures WorkerOk(s', w, worker')
  {
    var d := if InHand(worker') == InHand(worker) then 0 else 1;
    forall k | 0 <= k < |InHand(worker')| ensures Matches(s', w, InHand(worker')[k]) {
      assert InHand(worker')[k] == InHand(worker)[k + d];
      MatchesSurvives(s, s', w, InHand(worker)[k + d]);
    }
  }

  lemma TameClaim(rows: map<Id, Row>, w: Token, v: Token, ids: set<Id>, now: int)
    requires w != v
    ensures Tame(rows, ClaimRows(rows, ids, v, now), w)
  {
  }

  lemma TameRevoked(rows: map<Id, Row>, w: Token, id: Id, now: int)
    ensures Tame(rows, SetRevoked(rows, id, now), w)
  {
  }

  lemma TameDeliver(rows: map<Id, Row>, w: Token, e: Entry, now: int)
    ensures Tame(rows, Deliver(rows, e, now), w)
  {
  }

  lemma TameFailed(rows: map<Id, Row>, w: Token, v: Token, e: Entry, retry: Status, now: int)
    ensures Tame(rows, MarkFailed(rows, v, e, retry, now), w)
  {
  }

  lemma TameSucceeded(rows: map<Id, Row>, w: Token, v: Token, id: Id, now: int)
    ensures Tame(rows, MarkSucceeded(rows, v, id, now), w)
  {
  }

  lemma TameRetry(rows: map<Id, Row>, w: Token, user: int, now: int)
    ensures Tame(rows, RetryRows(rows, user, now), w)
  {
  }

  /** Every step but a claim is tame for every worker; a claim is tame for all others. */
  lemma StepIsTame(s: System, e: Event, w: Token)
    requires Enabled(s, e)
    requires e.Claim? ==> w != e.w
    ensures Tame(s.rows, Next(s, e).rows, w)
  {
    match e
    case Claim(v, ids, _) => TameClaim(s.rows, w, v, ids, s.now);
    case Begin(v, _) => TameRevoked(s.rows, w, s.workers[v].queue[0].id, s.now);
    case MarkRevoked(v, _, _) => TameRevoked(s.rows, w, s.workers[v].at.entry.id, s.now);
    case Finalize(v, _, _, _) => TameDeliver(s.rows, w, s.workers[v].at.entry, s.now);
    case Record(v, _) => TameFailed(s.rows, w, v, s.workers[v].at.entry, s.workers[v].at.retry, s.now);
    case Release(v, _) => TameSucceeded(s.rows, w, v, s.workers[v].at.entry.id, s.now);
    case RetrySocial(user) => TameRetry(s.rows, w, user, s.now);
    case _ =>
  }

  lemma WorkerAfterBegin(s: System, w: Token, outcome: Outcome)
    requires Enabled(s, Begin(w, outcome))
    ensures var worker, worker' := s.workers[w], Next(s, Begin(w, outcome)).workers[w];
            && worker'.queue == worker.queue[1..] && (worker'.at.Ready? || worker'.at.entry == worker.queue[0])
            && (worker'.at.Checkpoint? ==> worker'.at.entry.action != Disconnect)
  {
  }

  lemma WorkerAfterStep(s: System, e: Event, w: Token)
    requires Enabled(s, e) && !e.Begin? && !e.Claim? && Actor(e) == Some(w)
    ensures var worker, worker' := s.workers[w], Next(s, e).workers[w];
            && worker'.queue == worker.queue && !worker.at.Ready? && (worker'.at.Ready? || worker'.at.entry == worker.at.entry)
            && !worker'.at.Checkpoint?
  {
  }

  lemma OthersUnmoved(s: System, e: Event, w: Token)
    requires Enabled(s, e) && w in s.workers && w in Next(s, e).workers && Actor(e) != Some(w) && e != Spawn(w)
    ensures Next(s, e).workers[w] == s.workers[w]
  {
  }

  lemma HandAfterStep(s: System, e: Event, w: Token)
    requires Enabled(s, e) && w in s.workers && w in Next(s, e).workers && !e.Claim? && e != Spawn(w)
    ensures var hand, hand' := InHand(s.workers[w]), InHand(Next(s, e).workers[w]);
            hand' == hand || (hand != [] && hand' == hand[1..])
    ensures var worker' := Next(s, e).workers[w];
            worker'.at.Checkpoint? ==> worker'.at.entry.action != Disconnect || worker' == s.workers[w]
  {
    var worker, worker' := s.workers[w], Next(s, e).workers[w];
    if Actor(e) != Some(w) {
      OthersUnmoved(s, e, w);
    } else if e.Begin? {
      WorkerAfterBegin(s, w, e.outcome);
      assert worker.queue == [worker.queue[0]] + worker.queue[1..];
    } else {
      WorkerAfterStep(s, e, w);
      assert InHand(worker)[1..] == worker.queue;
    }
  }

  lemma ClaimerIsOk(s: System, e: Event)
    requires WellFormed(s) && Enabled(s, e) && e.Claim?
    ensures WorkerOk(Next(s, e), e.w, Next(s, e).workers[e.w])
  {
    var s' := Next(s, e);
    var hand := InHand(s'.workers[e.w]);
    assert hand == QueueAfter(s, e);
    forall k | 0 <= k < |hand| ensures Matches(s', e.w, hand[k]) {
      assert hand[k] == Snapshot(s'.rows, e.batch[k]);
    }
  }

  lemma ClaimKeepsWellFormed(s: System, e: Event)
    requires WellFormed(s) && Enabled(s, e) && e.Claim?
    ensures WellFormed(Next(s, e))
  {
    ClaimsAreUsed(s, e);
    forall w | w in Next(s, e).workers ensures WorkerOk(Next(s, e), w, Next(s, e).workers[w]) {
      if w == e.w {
        ClaimerIsOk(s, e);
      } else {
        StepIsTame(s, e, w);
        WorkerSurvives(s, Next(s, e), w, s.workers[w], Next(s, e).workers[w]);
      }
    }
  }

  lemma ClaimsAreUsed(s: System, e: Event)
    requires WellFormed(s) && Enabled(s, e)
    ensures forall i :: i in Next(s, e).rows && Next(s, e).rows[i].claim.Some? ==> Next(s, e).rows[i].claim.value in Next(s, e).used
  {
    forall i | i in Next(s, e).rows && Next(s, e).rows[i].claim.Some?
      ensures Next(s, e).rows[i].claim.value in Next(s, e).used
    {
      if i in s.rows && !(e.Claim? && i in e.ids) {
        var w := Next(s, e).rows[i].claim.value;
        if !(e.Claim? && w == e.w) {
          StepIsTame(s, e, w);
        }
      }
    }
  }

  lemma StepKeepsWellFormed(s: System, e: Event)
    requires WellFormed(s) && Enabled(s, e)
    ensures WellFormed(Next(s, e))
  {
    var s' := Next(s, e);
    ClaimsAreUsed(s, e);
    if e.Claim? {
      ClaimKeepsWellFormed(s, e);
    } else {
      forall w | w in s'.workers ensures WorkerOk(s', w, s'.workers[w]) {
        WorkerKeepsOk(s, e, w);
      }
    }
  }

  lemma WorkerKeepsOk(s: System, e: Event, w: Token)
    requires WellFormed(s) && Enabled(s, e) && !e.Claim? && w in Next(s, e).workers
    ensures WorkerOk(Next(s, e), w, Next(s, e).workers[w])
  {
    if e == Spawn(w) {
      assert InHand(Worker([], Ready)) == [];
    } else {
      assert w in s.workers && s.used <= Next(s, e).used;
      StepIsTame(s, e, w);
      HandAfterStep(s, e, w);
      WorkerSurvives(s, Next(s, e), w, s.workers[w], Next(s, e).workers[w]);
    }
  }

  lemma {:induction false} RunIsWellFormed(s: System, es: seq<Event>)
    requires Init(s) && Trace(s, es)
    ensures WellFormed(Run(s, es))
    decreases |es|
  {
    if es != [] {
      RunIsWellFormed(s, es[..|es| - 1]);
      StepKeepsWellFormed(Run(s, es[..|es| - 1]), es[|es| - 1]);
    }
  }

  // --------------------------------------------- who writes, who calls

  /** `w` is finalizing another open row for the same member and provider. */
  predicate FinalizesSibling(s: System, e: Event, id: Id)
    requires id in s.rows && Enabled(s, e)
  {
    && e.Finalize? && e.written && Finishes(s, e.w)
    && s.workers[e.w].at.entry.id != id
    && SameWork(s.rows[id], s.workers[e.w].at.entry) && IsOpen(s.rows[id].status)
  }

  /** A step of a worker that does not hold the claim of a DISCONNECT row changes the row in
      exactly two cases: it claims it when it is due and free or stale, or it finalizes
      another open row of the same member and provider. */
  lemma OnlyHolderWrites(s: System, e: Event, id: Id)
    requires WellFormed(s) && Enabled(s, e) && id in s.rows && s.rows[id].action == Disconnect
    requires Actor(e) == None || s.rows[id].claim != Some(Actor(e).value)
    ensures Next(s, e).rows[id] != s.rows[id] ==> Actor(e).Some?
    ensures Next(s, e).rows[id] != s.rows[id] <==> (e.Claim? && id in e.ids) || FinalizesSibling(s, e, id)
    ensures e.Claim? && id in e.ids ==> Claimable(s.rows[id], s.now) && Next(s, e).rows[id] == s.rows[id].(claim := Some(e.w), updatedAt := s.now)
  {
    hide Next;
    RowAfterStep(s, e, id);
    if Actor(e).Some? && !e.Claim? {
      var worker := s.workers[e.w];
      var entry := if e.Begin? then worker.queue[0] else worker.at.entry;
      assert entry in InHand(worker) by {
        if e.Begin? { assert InHand(worker) == worker.queue; } else { assert InHand(worker)[0] == entry; }
      }
      assert Matches(s, e.w, entry);
    }
  }

  /** A DISCONNECT call in the log was made by the holder of the row's claim, on a row that
      was PENDING at that moment, while the link was being disconnected. */
  predicate HeldCall(c: Call) {
    c.entry.action == Disconnect ==> c.seen.claim == Some(c.worker) && c.seen.status == Pending && c.link == Disconnecting
  }

  lemma {:induction false} CallsAreHeld(s: System, es: seq<Event>)
    requires Init(s) && Trace(s, es)
    ensures forall c :: c in Run(s, es).calls ==> HeldCall(c)
    decreases |es|
  {
    if es != [] {
      var before := Run(s, es[..|es| - 1]);
      CallsAreHeld(s, es[..|es| - 1]);
    }
  }

  predicate OneOpenEach(rows: map<Id, Row>) {
    forall i, j :: i in rows && j in rows && i != j && rows[i].action == Disconnect && IsOpen(rows[i].status) && IsOpen(rows[j].status) ==>
      (rows[i].user, rows[i].provider, rows[i].action) != (rows[j].user, rows[j].provider, rows[j].action)
  }

  /** With at most one open DISCONNECT row per member and provider, a worker that lost the
      claim of a row leaves it unchanged and does not call the provider for it. */
  lemma LostClaimLeavesRow(s: System, e: Event, id: Id)
    requires WellFormed(s) && Enabled(s, e) && OneOpenEach(s.rows)
    requires id in s.rows && s.rows[id].action == Disconnect
    requires Actor(e).Some? && !e.Claim? && s.rows[id].claim != Some(Actor(e).value)
    ensures Next(s, e).rows[id] == s.rows[id]
    ensures forall c :: c in NewCalls(s, e) ==> c.entry.id != id
  {
    OnlyHolderWrites(s, e, id);
    if e.Finalize? {
      var entry := s.workers[e.w].at.entry;
      assert InHand(s.workers[e.w])[0] == entry;
      assert Matches(s, e.w, entry);
    }
    if e.Begin? && s.workers[e.w].queue[0].id == id {
      assert InHand(s.workers[e.w])[0] == s.workers[e.w].queue[0];
      assert Matches(s, e.w, s.workers[e.w].queue[0]);
    }
  }

  // ------------------------------------------------------------ leases

  lemma TimeGoesOn(s: System, e: Event, id: Id)
    requires Enabled(s, e) && id in s.rows
    ensures s.now <= Next(s, e).now && id in Next(s, e).rows
    ensures Next(s, e).rows[id].updatedAt == s.rows[id].updatedAt || Next(s, e).rows[id].updatedAt == s.now
  {
  }

  /** How a claim on a row can change hands in one step. */
  lemma ClaimChanges(s: System, e: Event, id: Id)
    requires Enabled(s, e) && id in s.rows
    ensures id in Next(s, e).rows
    ensures var row, row' := s.rows[id], Next(s, e).rows[id];
            row'.claim == row.claim || row'.claim == None || (e.Claim? && row'.claim == Some(e.w) && Claimable(row, s.now))
  {
  }

  /** What is known of a lease as a run goes on. */
  ghost predicate LeaseState(s: System, es: seq<Event>, id: Id, w: Token)
    requires Trace(s, es) && id in s.rows
  {
    var t := Run(s, es);
    && id in t.rows
    && ((t.rows[id].claim == Some(w) && t.rows[id].updatedAt >= s.rows[id].updatedAt)
        || t.now >= s.rows[id].updatedAt + STALE_AFTER
        || exists k :: 0 <= k <= |es| && FreeAt(s, es, id, k))
  }

  ghost predicate FreeAt(s: System, es: seq<Event>, id: Id, k: nat)
    requires Trace(s, es)
    decreases |es|
  {
    if k >= |es| then k == |es| && id in Run(s, es).rows && Run(s, es).rows[id].claim == None
    else FreeAt(s, es[..|es| - 1], id, k)
  }

  /** A worker keeps its claim until it gives it up or the stale window has passed since the
      row was last updated as of `s`. */
  lemma {:induction false} LeaseRespected(s: System, es: seq<Event>, id: Id, w: Token)
    requires Trace(s, es) && id in s.rows && s.rows[id].claim == Some(w) && s.rows[id].updatedAt <= s.now
    ensures LeaseState(s, es, id, w)
    decreases |es|
  {
    if es == [] {
    } else {
      var front, last := es[..|es| - 1], es[|es| - 1];
      LeaseRespected(s, front, id, w);
      var before := Run(s, front);
      NowGrows(s, front);
      TimeGoesOn(before, last, id);
      ClaimChanges(before, last, id);
      if k :| 0 <= k <= |front| && FreeAt(s, front, id, k) {
        assert FreeAt(s, es, id, k);
      } else if Run(s, es).rows[id].claim == None {
        assert FreeAt(s, es, id, |es|);
      }
    }
  }

  /** Whatever changes a row stamps it with the time of the change. */
  lemma TouchStamps(s: System, e: Event, id: Id)
    requires Enabled(s, e) && id in s.rows
    ensures RowAfter(s, e, id) == s.rows[id] || RowAfter(s, e, id).updatedAt == s.now
  {
    hide Check;
    hide Finishes;
  }

  lemma {:induction false} TouchedSince(s: System, es: seq<Event>, id: Id)
    requires Trace(s, es) && id in s.rows
    ensures id in Run(s, es).rows
    ensures Run(s, es).rows[id] == s.rows[id] || Run(s, es).rows[id].updatedAt >= s.now
    decreases |es|
  {
    hide Next;
    hide Enabled;
    hide RowAfter;
    if es != [] {
      var front, last := es[..|es| - 1], es[|es| - 1];
      TouchedSince(s, front, id);
      NowGrows(s, front);
      RowAfterStep(Run(s, front), last, id);
      TouchStamps(Run(s, front), last, id);
    }
  }

  /** A worker takes a row over from another only if nobody has touched the row for the whole
      stale window: at any earlier point of the run within the window before the takeover, the
      row was just what it is at the takeover. */
  lemma TakeoverAfterSilence(s: System, es: seq<Event>, e: Event, id: Id)
    requires Trace(s, es) && id in s.rows && Enabled(Run(s, es), e) && e.Claim? && id in e.ids
    requires s.now > Run(s, es).now - STALE_AFTER
    ensures id in Run(s, es).rows
    ensures Run(s, es).rows[id].claim.Some? ==> Run(s, es).rows[id] == s.rows[id]
  {
    TouchedSince(s, es, id);
  }

  lemma {:induction false} NowGrows(s: System, es: seq<Event>)
    requires Trace(s, es)
    ensures s.now <= Run(s, es).now
    decreases |es|
  {
    if es != [] {
      NowGrows(s, es[..|es| - 1]);
    }
  }
}
