/** The exact conditions, readable from the table, under which the attempt cap bounds turns and
    provider calls and no revoked deletion is sent to its provider again. */
module OutboxExact {
  import opened Wrappers
  import opened Outbox
  import opened OutboxLeases
  import opened OutboxSafety
  import opened OutboxBudget
  import opened OutboxCalls
  import opened OutboxStrays
  import opened OutboxSiblings
  import opened OutboxGuards

  // ------------------------------------------------- two open rows in one batch

  lemma {:induction false} TokenBound(used: set<Token>) returns (n: nat)
    ensures forall w :: w in used ==> w < n
  {
    if used == {} {
      n := 0;
    } else {
      var v :| v in used;
      var m := TokenBound(used - {v});
      n := if v < m then m else v + 1;
      assert forall w :: w in used ==> w == v || w in used - {v};
    }
  }

  predicate LinkFits(s: System, row: Row) {
    row.action == Disconnect ==> LinkOf(s, row.user, row.provider) == Disconnecting
  }

  /** The lone worker holds two open rows of one job that can be finalized. */
  predicate BothHeld(s: System, w: Token, i: Id, j: Id) {
    && s.workers.Keys == {w} && i != j && i in s.rows && j in s.rows
    && JobOf(s.rows[i]) == JobOf(s.rows[j]) && s.rows[j].action != Unsupported && LinkFits(s, s.rows[j])
    && IsOpen(s.rows[i].status) && s.rows[i].claim == Some(w)
    && IsOpen(s.rows[j].status) && s.rows[j].claim == Some(w)
  }

  lemma OneWorker(s: System, w: Token)
    requires s.workers.Keys == {w}
    ensures Alone(s)
  {
    forall u, v | u in s.workers && v in s.workers ensures u == v {
      assert u in s.workers.Keys && v in s.workers.Keys;
    }
  }

  /** A claim of two rows that are due, read in the order `a`, `b`. */
  lemma ClaimsBoth(s: System, w: Token, a: Id, b: Id)
    requires s.workers == map[w := Worker([], Ready)] && a != b && a in s.rows && b in s.rows
    requires Claimable(s.rows[a], s.now) && Claimable(s.rows[b], s.now) && s.rows[b].action != Unsupported
    requires JobOf(s.rows[a]) == JobOf(s.rows[b]) && LinkFits(s, s.rows[b])
    ensures var e := Claim(w, {a, b}, [a, b]);
            && Enabled(s, e) && var t := Next(s, e);
            && BothHeld(t, w, a, b) && BothHeld(t, w, b, a)
            && t.workers[w] == Worker([Snapshot(t.rows, a), Snapshot(t.rows, b)], Ready)
            && JobOf(t.rows[a]) == JobOf(s.rows[a])
  {
    MayClaimBoth(s, w, a, b);
    var e := Claim(w, {a, b}, [a, b]);
    ClaimedQueue(s, e);
    RowAfterStep(s, e, a);
    RowAfterStep(s, e, b);
    SameLinks(s, e);
    var t := Next(s, e);
    assert t.workers.Keys == {w};
    hide Next;
    hide Enabled;
    assert t.workers[w].queue == [Snapshot(t.rows, a), Snapshot(t.rows, b)];
  }

  lemma MayClaimBoth(s: System, w: Token, a: Id, b: Id)
    requires s.workers == map[w := Worker([], Ready)] && a != b && a in s.rows && b in s.rows
    requires Claimable(s.rows[a], s.now) && Claimable(s.rows[b], s.now)
    ensures Enabled(s, Claim(w, {a, b}, [a, b]))
  {
    assert |{a, b}| == 2;
  }

  lemma SameLinks(s: System, e: Event)
    requires Enabled(s, e) && (Actor(e).Some? ==> !e.Finalize? || !e.written) && !e.SetLink?
    ensures Next(s, e).links == s.links
  {
  }

  // ----------------------------------------- from there to the stray delivery

  lemma FirstBegins(s: System, w: Token, i: Id, j: Id)
    requires BothHeld(s, w, i, j) && s.workers[w].at == Ready && s.workers[w].queue != [] && s.workers[w].queue[0] == Snapshot(s.rows, j)
    ensures var e := Begin(w, Through(true, true));
            && Enabled(s, e) && var t := Next(s, e);
            && BothHeld(t, w, i, j) && t.rows[i] == s.rows[i] && t.workers[w].queue == s.workers[w].queue[1..]
            && (t.workers[w].at.Checkpoint? || t.workers[w].at.Finalizing?) && t.workers[w].at.entry == s.workers[w].queue[0]
            && (t.workers[w].at.Finalizing? ==> t.rows[j].status == Revoked)
  {
    var e := Begin(w, Through(true, true));
    RowAfterStep(s, e, i);
    RowAfterStep(s, e, j);
    NextIs(s, e);
    SameLinks(s, e);
    assert Next(s, e).workers.Keys == {w};
    hide Next;
  }

  lemma FirstRevoked(s: System, w: Token, i: Id, j: Id, acked: bool)
    requires BothHeld(s, w, i, j) && s.workers[w].at.Checkpoint? && s.workers[w].at.entry.id == j
    ensures var e := MarkRevoked(w, true, acked);
            && Enabled(s, e) && var t := Next(s, e);
            && BothHeld(t, w, i, j) && t.rows[i] == s.rows[i] && t.rows[j].status == Revoked && t.workers[w].queue == s.workers[w].queue
            && t.workers[w].at == if acked then Finalizing(s.workers[w].at.entry) else Recording(s.workers[w].at.entry, Revoked, false)
  {
    var e := MarkRevoked(w, true, acked);
    RowAfterStep(s, e, i);
    RowAfterStep(s, e, j);
    NextIs(s, e);
    SameLinks(s, e);
    assert Next(s, e).workers.Keys == {w};
    hide Next;
  }

  lemma SecondStrays(s: System, w: Token, i: Id, j: Id)
    requires BothHeld(s, w, i, j) && s.workers[w].at.Finalizing? && s.rows[j].status == Revoked
    requires s.workers[w].at.entry.id == j && SameWork(s.rows[j], s.workers[w].at.entry)
    ensures var e := Finalize(w, true, true, true); Enabled(s, e) && Strays(s, e, i) && Smooth(e) && !Expires(s, e, i)
  {
    assert w in s.workers.Keys;
  }

  /** The worker finalizes the first row and with it the second. */
  lemma ToStray(s: System, w: Token, i: Id, j: Id) returns (t: System)
    requires BothHeld(s, w, i, j) && s.workers[w].at == Ready && s.workers[w].queue != [] && s.workers[w].queue[0] == Snapshot(s.rows, j)
    ensures Leads(s, t, i) && s.revoked <= t.revoked && i in t.rows && t.rows[i] == s.rows[i]
    ensures Enabled(t, Finalize(w, true, true, true)) && Strays(t, Finalize(w, true, true, true), i) && Alone(t) && !Expires(t, Finalize(w, true, true, true), i)
  {
    hide Leads;
    hide Strays;
    hide Next;
    hide Check;
    OneWorker(s, w);
    LeadsHere(s, i);
    FirstBegins(s, w, i, j);
    var e := Begin(w, Through(true, true));
    NextIs(s, e);
    t := Next(s, e);
    OneWorker(t, w);
    LeadsStep(s, s, i, e);
    if t.workers[w].at.Checkpoint? {
      FirstRevoked(t, w, i, j, true);
      e := MarkRevoked(w, true, true);
      NextIs(t, e);
      OneWorker(Next(t, e), w);
      LeadsStep(s, t, i, e);
      t := Next(t, e);
    }
    SecondStrays(t, w, i, j);
  }

  // ---------------------------------------------------- any number of turns

  function Max(a: int, b: int): int {
    if a < b then b else a
  }

  /** Time passes until both rows are due and no old claim is in the way. */
  lemma Waits(s: System, i: Id, j: Id)
    requires Init(s) && i in s.rows && j in s.rows && IsOpen(s.rows[i].status) && IsOpen(s.rows[j].status)
    ensures exists time :: s.now <= time && Claimable(s.rows[i], time) && Claimable(s.rows[j], time)
  {
    var due := Max(Max(s.rows[i].nextAttempt, s.rows[j].nextAttempt), s.now);
    var time := Max(due, Max(s.rows[i].updatedAt, s.rows[j].updatedAt) + STALE_AFTER);
    assert s.now <= time && Claimable(s.rows[i], time) && Claimable(s.rows[j], time);
  }

  lemma Ticked(s: System, time: int)
    requires s.workers == map[] && s.now <= time
    ensures var e := Tick(time);
            Enabled(s, e) && Next(s, e).rows == s.rows && Next(s, e).workers == map[] && Next(s, e).now == time && Next(s, e).used == s.used && Alone(Next(s, e))
  {
  }

  lemma Spawned(s: System, w: Token)
    requires s.workers == map[] && w !in s.used
    ensures var e := Spawn(w);
            Enabled(s, e) && Next(s, e).rows == s.rows && Next(s, e).workers == map[w := Worker([], Ready)] && Next(s, e).now == s.now && Alone(Next(s, e))
  {
  }

  lemma Linked(s: System, row: Row)
    ensures var e := SetLink(row.user, row.provider, Disconnecting);
            Enabled(s, e) && Next(s, e).rows == s.rows && Next(s, e).workers == s.workers && Next(s, e).now == s.now && LinkFits(Next(s, e), row)
  {
  }

  lemma NotActing(s: System, e: Event, id: Id)
    requires Enabled(s, e) && (Actor(e) == None || e.Claim?) && !e.Crash? && !e.RetrySocial?
    ensures Smooth(e) && !Expires(s, e, id)
  {
  }

  /** From two open rows of a job to a worker that has both in its batch. */
  lemma TakesBoth(s: System, i: Id, j: Id) returns (w: Token, t: System)
    requires Init(s) && i != j && i in s.rows && j in s.rows && JobOf(s.rows[i]) == JobOf(s.rows[j]) && s.rows[j].action != Unsupported
    requires IsOpen(s.rows[i].status) && IsOpen(s.rows[j].status)
    ensures Leads(s, t, i) && BothHeld(t, w, i, j) && BothHeld(t, w, j, i) && JobOf(t.rows[i]) == JobOf(s.rows[i])
    ensures t.workers[w] == Worker([Snapshot(t.rows, j), Snapshot(t.rows, i)], Ready)
  {
    hide Leads;
    hide Next;
    hide Enabled;
    hide Smooth;
    hide Expires;
    Waits(s, i, j);
    var time :| s.now <= time && Claimable(s.rows[i], time) && Claimable(s.rows[j], time);
    LeadsHere(s, i);
    Ticked(s, time);
    t := Goes(s, s, Tick(time), i);
    var n := TokenBound(t.used);
    w := n;
    Spawned(t, w);
    t := Goes(s, t, Spawn(w), i);
    Linked(t, s.rows[j]);
    OneWorker(Next(t, SetLink(s.rows[j].user, s.rows[j].provider, Disconnecting)), w);
    t := Goes(s, t, SetLink(s.rows[j].user, s.rows[j].provider, Disconnecting), i);
    ClaimsBoth(t, w, j, i);
    OneWorker(Next(t, Claim(w, {j, i}, [j, i])), w);
    t := Goes(s, t, Claim(w, {j, i}, [j, i]), i);
  }

  lemma Goes(s: System, t: System, e: Event, id: Id) returns (t': System)
    requires Leads(s, t, id) && Enabled(t, e) && (Actor(e) == None || e.Claim?) && !e.Crash? && !e.RetrySocial? && !e.Enqueue?
    requires Alone(Next(t, e))
    ensures t' == Next(t, e) && Leads(s, t', id)
  {
    NotActing(t, e, id);
    LeadsStep(s, t, id, e);
    t' := Next(t, e);
  }

  /** Two open rows of a job: without anything being queued, the second is taken up any number
      of times, and called as often unless it is a DISCONNECT row. */
  lemma OpenSiblingsUnbounded(s: System, i: Id, j: Id, n: nat) returns (es: seq<Event>)
    requires Init(s) && i != j && i in s.rows && j in s.rows && JobOf(s.rows[i]) == JobOf(s.rows[j]) && s.rows[j].action != Unsupported
    requires IsOpen(s.rows[i].status) && IsOpen(s.rows[j].status)
    ensures SmoothRun(s, es) && Unqueued(es) && Expirations(s, es, i) == 0 && Run(s, es).handled[i] >= n
    ensures s.rows[i].action != Disconnect ==> CallsFor(Run(s, es).calls, i) >= n
  {
    hide Leads;
    hide Next;
    hide Enabled;
    hide CallsFor;
    hide Expires;
    var w, t := TakesBoth(s, i, j);
    var u := ToStray(t, w, i, j);
    LeadsLeads(s, t, u, i);
    var e := Finalize(w, true, true, true);
    StraySticks(u, e, i);
    OneWorker(Next(u, e), w);
    LeadsStep(s, u, i, e);
    var v := AfterStray(Next(u, e), w, i, n);
    LeadsLeads(s, Next(u, e), v, i);
    es := RunOf(s, v, i);
  }

  lemma RunOf(s: System, t: System, id: Id) returns (es: seq<Event>)
    requires Leads(s, t, id)
    ensures SmoothRun(s, es) && Run(s, es) == t && Unqueued(es) && Expirations(s, es, id) == 0
  {
    es :| SmoothRun(s, es) && Run(s, es) == t && Unqueued(es) && Expirations(s, es, id) == 0;
  }

  // ------------------------------------------------------------ exact bounds

  lemma {:induction false} UnqueuedIsGuarded(s: System, es: seq<Event>, job: Job)
    requires Trace(s, es) && Unqueued(es)
    ensures Guarded(s, es, job) && DeletionsGuarded(s, es)
    decreases |es|
  {
    hide Next;
    hide Enabled;
    if es != [] {
      var front := es[..|es| - 1];
      assert forall k :: 0 <= k < |front| ==> front[k] == es[k];
      UnqueuedIsGuarded(s, front, job);
    }
  }

  /** Runs of a lone worker whose bookkeeping writes succeed, in which no row of the job is
      queued while one is open. */
  ghost predicate GuardedSmoothRun(s: System, es: seq<Event>, job: Job) {
    SmoothRun(s, es) && Guarded(s, es, job)
  }

  predicate NoOtherOpen(rows: map<Id, Row>, id: Id)
    requires id in rows
  {
    forall j :: j in rows && j != id && JobOf(rows[j]) == JobOf(rows[id]) ==> !IsOpen(rows[j].status)
  }

  lemma {:induction false} UnsupportedRun(s: System, es: seq<Event>, id: Id)
    requires Trace(s, es) && id in s.rows && s.rows[id].action == Unsupported
    ensures NeverStrays(s, es, id) && id in Run(s, es).rows && Run(s, es).rows[id].action == Unsupported
    decreases |es|
  {
    hide Next;
    hide Enabled;
    hide Strays;
    if es != [] {
      var front, last := es[..|es| - 1], es[|es| - 1];
      UnsupportedRun(s, front, id);
      RowsPersist(Run(s, front), last);
      UnsupportedNeverStrays(Run(s, front), last, id);
    }
  }

  lemma {:induction false} SameJob(s: System, es: seq<Event>, id: Id)
    requires Trace(s, es) && id in s.rows
    ensures id in Run(s, es).rows && JobOf(Run(s, es).rows[id]) == JobOf(s.rows[id])
    decreases |es|
  {
    hide Next;
    hide Enabled;
    if es != [] {
      SameJob(s, es[..|es| - 1], id);
      RowsPersist(Run(s, es[..|es| - 1]), es[|es| - 1]);
    }
  }

  /** The row is alone, or cannot be finalized: it is never delivered behind its worker's back. */
  lemma AloneNeverStrays(s: System, es: seq<Event>, id: Id)
    requires Init(s) && Tracked(s, id) && id in s.rows && GuardedSmoothRun(s, es, JobOf(s.rows[id]))
    requires s.rows[id].action == Unsupported || NoOtherOpen(s.rows, id)
    ensures NeverStrays(s, es, id)
  {
    hide Trace;
    hide Run;
    if s.rows[id].action == Unsupported {
      UnsupportedRun(s, es, id);
    } else {
      SameJob(s, es, id);
      assert OneOpen(s.rows, JobOf(s.rows[id]));
      GuardedNeverStrays(s, es, id, JobOf(s.rows[id]));
    }
  }

  lemma OtherIsUnbounded(s: System, id: Id) returns (es: seq<Event>)
    requires Init(s) && id in s.rows && IsOpen(s.rows[id].status) && s.rows[id].action != Unsupported && !NoOtherOpen(s.rows, id)
    ensures GuardedSmoothRun(s, es, JobOf(s.rows[id])) && Run(s, es).handled[id] > MAX_ATTEMPT + Expirations(s, es, id)
    ensures s.rows[id].action != Disconnect ==> CallsFor(Run(s, es).calls, id) > MAX_ATTEMPT
  {
    hide Trace;
    hide Run;
    hide Guarded;
    hide CallsFor;
    var j :| j in s.rows && j != id && JobOf(s.rows[j]) == JobOf(s.rows[id]) && IsOpen(s.rows[j].status);
    es := OpenSiblingsUnbounded(s, id, j, MAX_ATTEMPT + 1);
    UnqueuedIsGuarded(s, es, JobOf(s.rows[id]));
  }

  /** When no row of the job is queued while one is open, a row is taken up at most ten times,
      less its attempts so far and beside the turns dropped as expired, in all such runs, if and
      only if no other row of its job is open, or its action is one that is never finalized. */
  lemma TurnsAreBoundedIff(s: System, id: Id)
    requires Init(s) && Tracked(s, id) && id in s.rows
    ensures (forall es :: GuardedSmoothRun(s, es, JobOf(s.rows[id])) ==> Run(s, es).handled[id] <= MAX_ATTEMPT - StartAttempts(s, id) + Expirations(s, es, id))
       <==> s.rows[id].action == Unsupported || NoOtherOpen(s.rows, id)
  {
    hide Trace;
    hide Run;
    hide Guarded;
    hide NeverStrays;
    hide NoOtherOpen;
    var job := JobOf(s.rows[id]);
    if s.rows[id].action == Unsupported || NoOtherOpen(s.rows, id) {
      forall es | GuardedSmoothRun(s, es, job) ensures Run(s, es).handled[id] <= MAX_ATTEMPT - StartAttempts(s, id) + Expirations(s, es, id) {
        AloneNeverStrays(s, es, id);
        AtMostTenTurns(s, es, id);
      }
    } else {
      var es := OtherIsUnbounded(s, id);
      assert GuardedSmoothRun(s, es, job);
    }
  }

  /** And its provider is called at most that often in all such runs if and only if no other row
      of its job is open, or the row is not a deletion. */
  lemma CallsAreBoundedIff(s: System, id: Id)
    requires Init(s) && Tracked(s, id) && id in s.rows
    ensures (forall es :: GuardedSmoothRun(s, es, JobOf(s.rows[id])) ==> CallsFor(Run(s, es).calls, id) <= MAX_ATTEMPT - StartAttempts(s, id))
       <==> s.rows[id].action != AccountDelete || NoOtherOpen(s.rows, id)
  {
    hide Trace;
    hide Run;
    hide Guarded;
    hide NeverStrays;
    hide NoOtherOpen;
    hide CallsFor;
    var job := JobOf(s.rows[id]);
    if s.rows[id].action != AccountDelete || NoOtherOpen(s.rows, id) {
      forall es | GuardedSmoothRun(s, es, job) ensures CallsFor(Run(s, es).calls, id) <= MAX_ATTEMPT - StartAttempts(s, id) {
        SameJob(s, es, id);
        if s.rows[id].action != Disconnect { AloneNeverStrays(s, es, id); }
        AtMostTenCalls(s, es, id);
      }
    } else {
      var es := OtherIsUnbounded(s, id);
      assert GuardedSmoothRun(s, es, job);
    }
  }

  lemma Queued(s: System, id: Id, new_: Id) returns (e: Event)
    requires Init(s) && id in s.rows && s.rows[id].status == Revoked && NoOtherOpen(s.rows, id) && new_ !in s.rows
    ensures e.Enqueue? && Enabled(s, e) && Init(Next(s, e)) && Alone(Next(s, e)) && !Expires(s, e, id)
    ensures Next(s, e).rows == s.rows[new_ := e.row] && e.row.status == Pending && JobOf(e.row) == JobOf(s.rows[id])
  {
    var row := s.rows[id];
    e := Enqueue(new_, Row(row.user, row.provider, row.action, Pending, None, s.now, 0, s.now));
  }

  /** The schema's key is not guard enough: it lets a deletion be queued beside a REVOKED one, and
      then the provider of that one can be called any number of times. */
  lemma KeyIsNoGuard(s: System, id: Id, n: nat) returns (es: seq<Event>)
    requires Init(s) && id in s.rows && s.rows[id].action == AccountDelete && s.rows[id].status == Revoked && NoOtherOpen(s.rows, id)
    ensures SmoothRun(s, es) && CallsFor(Run(s, es).calls, id) >= n
  {
    hide Next;
    hide Enabled;
    hide Run;
    hide CallsFor;
    hide Expires;
    var j := TokenBound(s.rows.Keys);
    assert j !in s.rows.Keys;
    var e := Queued(s, id, j);
    var t := Next(s, e);
    assert Alone(s);
    RunNothing(s);
    Lengthened(s, [], id, e);
    var fs := OpenSiblingsUnbounded(t, id, j, n);
    var front := [] + [e];
    Joined(s, front, fs, id);
    es := front + fs;
    assert forall k :: 0 <= k < |es| ==> es[k] == if k < 1 then e else fs[k - 1];
  }

  lemma RunNothing(s: System)
    requires Alone(s)
    ensures SmoothRun(s, []) && Run(s, []) == s
  {
  }

  // --------------------------------------------------- exactly when it is called again

  /** Runs of a lone worker that lose no release and no result of a finalization, in which no
      deletion is queued while another one of the member and provider is undelivered. */
  ghost predicate GuardedSealedRun(s: System, es: seq<Event>) {
    SealedRun(s, es) && DeletionsGuarded(s, es)
  }

  /** Some such run, with nothing queued at all. */
  ghost predicate Gets(s: System, t: System) {
    exists es :: SealedRun(s, es) && Run(s, es) == t && Unqueued(es)
  }

  lemma GetsHere(s: System)
    requires Alone(s)
    ensures Gets(s, s)
  {
    assert SealedRun(s, []) && Run(s, []) == s && Unqueued([]);
  }

  lemma SealedLonger(s: System, es: seq<Event>, e: Event)
    requires SealedRun(s, es) && Enabled(Run(s, es), e) && !Leaks(e) && Alone(Next(Run(s, es), e))
    ensures SealedRun(s, es + [e]) && Run(s, es + [e]) == Next(Run(s, es), e)
  {
    hide Next;
    hide Enabled;
    hide Leaks;
    hide Alone;
    var more := es + [e];
    assert more[..|more| - 1] == es && more[|more| - 1] == e;
    assert forall k :: 0 <= k < |es| ==> more[k] == es[k];
  }

  lemma GetsOn(s: System, t: System, e: Event)
    requires Gets(s, t) && Enabled(t, e) && !Leaks(e) && !e.Enqueue? && Alone(Next(t, e))
    ensures Gets(s, Next(t, e))
  {
    hide Trace;
    hide Run;
    hide Next;
    hide AloneThroughout;
    hide EveryEvent;
    hide Leaks;
    hide Alone;
    var es :| SealedRun(s, es) && Run(s, es) == t && Unqueued(es);
    SealedLonger(s, es, e);
    assert Unqueued(es + [e]);
  }

  lemma GetsThen(s: System, t: System, u: System, id: Id)
    requires Gets(s, t) && Leads(t, u, id)
    ensures Gets(s, u)
  {
    hide Run;
    hide Trace;
    hide AloneThroughout;
    hide Leads;
    hide Leaks;
    var es :| SealedRun(s, es) && Run(s, es) == t && Unqueued(es);
    var fs := SealedOn(s, es, u, id);
    assert Unqueued(es + fs);
  }

  /** The operator's retry makes every undelivered deletion of the member open and due. */
  lemma Retried(s: System, i: Id, j: Id)
    requires s.workers == map[] && i in s.rows && j in s.rows && JobOf(s.rows[i]) == JobOf(s.rows[j]) && s.rows[i].action == AccountDelete
    requires s.rows[i].status != Delivered && s.rows[j].status != Delivered
    ensures var e := RetrySocial(s.rows[i].user);
            && Enabled(s, e) && var t := Next(s, e);
            && t.workers == map[] && t.used == s.used && i in t.rows && j in t.rows && Alone(t)
            && Claimable(t.rows[i], t.now) && Claimable(t.rows[j], t.now)
            && JobOf(t.rows[i]) == JobOf(s.rows[i]) && JobOf(t.rows[j]) == JobOf(s.rows[j])
  {
  }

  /** A turn that fails after the checkpoint, and whose failure record is lost. */
  lemma FailsFinalizing(s: System, w: Token, i: Id, j: Id)
    requires BothHeld(s, w, j, i) && s.workers[w].at.Finalizing? && s.workers[w].at.entry.id == i
    ensures var e := Finalize(w, false, false, false);
            && Enabled(s, e) && Next(s, e).rows == s.rows && Next(s, e).links == s.links && Next(s, e).workers.Keys == {w}
            && Next(s, e).workers[w] == Worker(s.workers[w].queue, Recording(s.workers[w].at.entry, Revoked, false))
  {
    assert w in s.workers.Keys;
  }

  lemma RecordIsLost(s: System, w: Token)
    requires s.workers.Keys == {w} && s.workers[w].at.Recording?
    ensures var e := Record(w, false);
            && Enabled(s, e) && Next(s, e).rows == s.rows && Next(s, e).links == s.links && Next(s, e).workers.Keys == {w}
            && Next(s, e).workers[w] == Worker(s.workers[w].queue, Ready)
  {
    assert w in s.workers.Keys;
  }

  /** The first row of the batch ends up REVOKED and still claimed. */
  lemma LeavesRevoked(s: System, t: System, w: Token, i: Id, j: Id) returns (u: System)
    requires Gets(s, t) && BothHeld(t, w, i, j) && BothHeld(t, w, j, i) && t.rows[i].action == AccountDelete
    requires t.workers[w] == Worker([Snapshot(t.rows, i), Snapshot(t.rows, j)], Ready)
    ensures Gets(s, u) && BothHeld(u, w, i, j) && i in u.revoked && u.rows[i].action == AccountDelete
    ensures u.workers[w] == Worker([Snapshot(u.rows, j)], Ready)
  {
    hide Gets;
    hide Next;
    hide Enabled;
    FirstBegins(t, w, j, i);
    var e := Begin(w, Through(true, true));
    RowsPersist(t, e);
    u := Next(t, e);
    OneWorker(u, w);
    GetsOn(s, t, e);
    if u.workers[w].at.Checkpoint? {
      FirstRevoked(u, w, j, i, false);
      e := MarkRevoked(w, true, false);
    } else {
      FailsFinalizing(u, w, i, j);
      e := Finalize(w, false, false, false);
    }
    RowsPersist(u, e);
    OneWorker(Next(u, e), w);
    GetsOn(s, u, e);
    u := Next(u, e);
    RecordIsLost(u, w);
    e := Record(w, false);
    NextIs(u, e);
    OneWorker(Next(u, e), w);
    GetsOn(s, u, e);
    u := Next(u, e);
  }

  /** Two undelivered deletions get into one batch, if need be after the operator's retry. */
  lemma TakesUndelivered(s: System, i: Id, j: Id) returns (w: Token, t: System)
    requires Init(s) && i != j && i in s.rows && j in s.rows && JobOf(s.rows[i]) == JobOf(s.rows[j]) && s.rows[i].action == AccountDelete
    requires s.rows[i].status != Delivered && s.rows[j].status != Delivered
    ensures Gets(s, t) && BothHeld(t, w, i, j) && BothHeld(t, w, j, i) && t.rows[i].action == AccountDelete
    ensures t.workers[w] == Worker([Snapshot(t.rows, i), Snapshot(t.rows, j)], Ready)
  {
    hide Gets;
    hide Next;
    hide Enabled;
    GetsHere(s);
    if IsOpen(s.rows[i].status) && IsOpen(s.rows[j].status) {
      w, t := TakesBoth(s, j, i);
      GetsThen(s, s, t, j);
    } else {
      Retried(s, i, j);
      var e := RetrySocial(s.rows[i].user);
      GetsOn(s, s, e);
      t := Next(s, e);
      w := TokenBound(t.used);
      Spawned(t, w);
      GetsOn(s, t, Spawn(w));
      t := Next(t, Spawn(w));
      ClaimsBoth(t, w, i, j);
      e := Claim(w, {i, j}, [i, j]);
      OneWorker(Next(t, e), w);
      GetsOn(s, t, e);
      t := Next(t, e);
    }
  }

  /** Two undelivered deletions of a member and provider: without anything being queued, a
      revoked one is called again. */
  lemma UndeliveredSiblingsCalledAgain(s: System, i: Id, j: Id) returns (es: seq<Event>)
    requires Init(s) && i != j && i in s.rows && j in s.rows && JobOf(s.rows[i]) == JobOf(s.rows[j]) && s.rows[i].action == AccountDelete
    requires s.rows[i].status != Delivered && s.rows[j].status != Delivered
    ensures GuardedSealedRun(s, es) && CalledAgain(Run(s, es))
  {
    hide Gets;
    hide Leads;
    hide Next;
    hide Enabled;
    hide Expires;
    hide CallsFor;
    hide CalledAgain;
    var w, t := TakesUndelivered(s, i, j);
    t := LeavesRevoked(s, t, w, i, j);
    var u := ToStray(t, w, i, j);
    GetsThen(s, t, u, i);
    var e := Finalize(w, true, true, true);
    StraySticks(u, e, i);
    OneWorker(Next(u, e), w);
    GetsOn(s, u, e);
    var v := AfterStray(Next(u, e), w, i, 1);
    GetsThen(s, Next(u, e), v, i);
    es := GuardedRunOf(s, v);
  }

  lemma GuardedRunOf(s: System, t: System) returns (es: seq<Event>)
    requires Gets(s, t)
    ensures GuardedSealedRun(s, es) && Run(s, es) == t
  {
    es :| SealedRun(s, es) && Run(s, es) == t && Unqueued(es);
    UnqueuedIsGuarded(s, es, (0, "", AccountDelete));
  }

  predicate TwoUndelivered(rows: map<Id, Row>) {
    exists i, j :: i in rows && j in rows && i != j && rows[i].action == AccountDelete && JobOf(rows[i]) == JobOf(rows[j])
      && rows[i].status != Delivered && rows[j].status != Delivered
  }

  /** When no deletion is queued beside an undelivered one and no release or result of a
      finalization is lost, a provider can be called for a revoked row again if and only if two
      undelivered deletions of one member and provider are in the table to begin with. */
  lemma CalledAgainIff(s: System)
    requires Init(s)
    ensures (exists es :: GuardedSealedRun(s, es) && CalledAgain(Run(s, es))) <==> TwoUndelivered(s.rows)
  {
    hide Trace;
    hide Run;
    hide DeletionsGuarded;
    hide NeverStraysRevoked;
    if TwoUndelivered(s.rows) {
      var i, j :| i in s.rows && j in s.rows && i != j && s.rows[i].action == AccountDelete && JobOf(s.rows[i]) == JobOf(s.rows[j])
        && s.rows[i].status != Delivered && s.rows[j].status != Delivered;
      var es := UndeliveredSiblingsCalledAgain(s, i, j);
    } else {
      assert forall job: Job :: job.2 == AccountDelete ==> OneUndelivered(s.rows, job);
      forall es | GuardedSealedRun(s, es) ensures !CalledAgain(Run(s, es)) {
        GuardedNeverStraysRevoked(s, es);
        NeverCalledAgain(s, es);
      }
    }
  }
}
