/** What follows once a finalization has delivered another row that the worker holds: turns and
    provider calls without end, and a call for a row that was revoked. */
module OutboxStrays {
  import opened Wrappers
  import opened Outbox
  import opened OutboxLeases
  import opened OutboxSafety
  import opened OutboxBudget
  import opened OutboxCalls

  // ------------------------------------------------------------ joining runs

  ghost predicate SmoothRun(s: System, es: seq<Event>) {
    Trace(s, es) && AloneThroughout(s, es) && EveryEvent(es, e => Smooth(e))
  }

  ghost predicate SealedRun(s: System, es: seq<Event>) {
    Trace(s, es) && AloneThroughout(s, es) && EveryEvent(es, e => !Leaks(e))
  }

  lemma {:induction false} Joined(s: System, es: seq<Event>, fs: seq<Event>, id: Id)
    requires Trace(s, es) && AloneThroughout(s, es) && Trace(Run(s, es), fs) && AloneThroughout(Run(s, es), fs)
    ensures Trace(s, es + fs) && Run(s, es + fs) == Run(Run(s, es), fs) && AloneThroughout(s, es + fs)
    ensures Expirations(s, es + fs, id) == Expirations(s, es, id) + Expirations(Run(s, es), fs, id)
    decreases |fs|
  {
    hide Next;
    hide Enabled;
    hide Expires;
    hide Alone;
    var all := es + fs;
    if fs == [] {
      assert all == es;
    } else {
      var front := fs[..|fs| - 1];
      Joined(s, es, front, id);
      assert all[..|all| - 1] == es + front && all[|all| - 1] == fs[|fs| - 1];
    }
  }

  // ------------------------------------------- a DELIVERED row in the worker's hands

  /** The lone worker `w` holds the row, and the row is DELIVERED. */
  predicate Stuck(s: System, w: Token, id: Id) {
    s.workers.Keys == {w} && id in s.rows && s.rows[id].status == Delivered && s.rows[id].claim == Some(w)
  }

  /** The way of failing that is never taken for an expired claim. */
  function Fails(x: Entry): Outcome {
    if x.action == Disconnect then TxFailed else CallFailed
  }

  /** Steps by which a worker gets rid of what it has in hand without success, and claims the
      stuck row once more. */
  predicate Idles(s: System, e: Event, w: Token, id: Id) {
    && Enabled(s, e)
    && match e
       case Begin(v, outcome) => v == w && outcome == Fails(s.workers[w].queue[0])
       case Finalize(v, reached, _, _) => v == w && !reached
       case Record(v, written) => v == w && written
       case Release(v, written) => v == w && written && s.workers[w].at.entry.id != id
       case Claim(v, ids, batch) => v == w && ids == {} && batch == [id]
       case _ => false
  }

  /** The row stayed as it was and was taken up `n` more times, with as many calls unless it
      is a DISCONNECT row. */
  ghost predicate Later(s: System, t: System, w: Token, id: Id, n: nat) {
    && Stuck(s, w, id) && Stuck(t, w, id) && t.rows[id] == s.rows[id] && s.revoked <= t.revoked
    && t.handled[id] >= s.handled[id] + n
    && CallsFor(t.calls, id) >= CallsFor(s.calls, id) + (if s.rows[id].action == Disconnect then 0 else n)
    && (n >= 1 && s.rows[id].action != Disconnect && id in s.revoked ==> CalledAgain(t))
    && (CalledAgain(s) ==> CalledAgain(t))
  }

  ghost predicate CalledAgain(s: System) {
    exists c :: c in s.calls && c.entry.action != Disconnect && c.again
  }

  predicate Unqueued(es: seq<Event>) {
    forall k :: 0 <= k < |es| ==> !es[k].Enqueue?
  }

  /** A smooth run in which no row is queued and none of the row's turns is dropped. */
  ghost predicate Leads(s: System, t: System, id: Id) {
    exists fs :: SmoothRun(s, fs) && Run(s, fs) == t && Unqueued(fs) && Expirations(s, fs, id) == 0
  }

  lemma LeadsHere(s: System, id: Id)
    requires Alone(s)
    ensures Leads(s, s, id)
  {
    assert SmoothRun(s, []) && Run(s, []) == s && Unqueued([]) && Expirations(s, [], id) == 0;
  }

  lemma LeadsStep(s: System, t: System, id: Id, e: Event)
    requires Leads(s, t, id) && Enabled(t, e) && Smooth(e) && !e.Enqueue? && !Expires(t, e, id) && Alone(Next(t, e))
    ensures Leads(s, Next(t, e), id)
  {
    hide Trace;
    hide Run;
    hide Next;
    hide AloneThroughout;
    hide EveryEvent;
    hide Smooth;
    hide Expires;
    hide Alone;
    var fs :| SmoothRun(s, fs) && Run(s, fs) == t && Unqueued(fs) && Expirations(s, fs, id) == 0;
    Lengthened(s, fs, id, e);
    assert Unqueued(fs + [e]);
  }

  lemma StuckIsAlone(s: System, w: Token, id: Id)
    requires Stuck(s, w, id)
    ensures Alone(s)
  {
    forall u, v | u in s.workers && v in s.workers ensures u == v {
      assert u in s.workers.Keys && v in s.workers.Keys;
    }
  }

  lemma Lengthened(s: System, fs: seq<Event>, id: Id, e: Event)
    requires SmoothRun(s, fs) && Enabled(Run(s, fs), e) && Smooth(e) && !Expires(Run(s, fs), e, id) && Alone(Next(Run(s, fs), e))
    ensures SmoothRun(s, fs + [e]) && Run(s, fs + [e]) == Next(Run(s, fs), e) && Expirations(s, fs + [e], id) == Expirations(s, fs, id)
  {
    hide Next;
    hide Enabled;
    hide Smooth;
    hide Expires;
    hide Alone;
    var more := fs + [e];
    assert more[..|more| - 1] == fs && more[|more| - 1] == e;
    assert forall k :: 0 <= k < |fs| ==> more[k] == fs[k];
  }

  lemma LeadsOn(s: System, t: System, id: Id, e: Event, w: Token)
    requires Leads(s, t, id) && Stuck(t, w, id) && Idles(t, e, w, id)
    ensures Leads(s, Next(t, e), id) && Later(t, Next(t, e), w, id, 0)
  {
    hide Next;
    hide Smooth;
    hide Expires;
    hide Leads;
    IdleStep(t, e, w, id);
    StuckIsAlone(Next(t, e), w, id);
    LeadsStep(s, t, id, e);
  }

  lemma IdleStep(s: System, e: Event, w: Token, id: Id)
    requires Stuck(s, w, id) && Idles(s, e, w, id)
    ensures Later(s, Next(s, e), w, id, 0) && Smooth(e) && !Expires(s, e, id)
  {
    IdleRow(s, e, w, id);
    RowAfterStep(s, e, id);
    NextIs(s, e);
    hide Next;
    hide RowAfter;
    CallsForAppend(s.calls, NewCalls(s, e), id);
    hide NewCalls;
    hide CallsFor;
    if CalledAgain(s) {
      var c :| c in s.calls && c.entry.action != Disconnect && c.again;
      assert c in Next(s, e).calls;
    }
  }

  lemma IdleRow(s: System, e: Event, w: Token, id: Id)
    requires Stuck(s, w, id) && Idles(s, e, w, id)
    ensures RowAfter(s, e, id) == s.rows[id] && WorkersAfter(s, e).Keys == {w} && |NewCalls(s, e)| <= 1 && Smooth(e) && !Expires(s, e, id)
  {
    assert w in s.workers.Keys;
    assert s.workers[w := Worker(QueueAfter(s, e), PointAfter(s, e))].Keys == {w};
    hide Check;
  }

  lemma LaterLater(s: System, t: System, u: System, w: Token, id: Id, m: nat, n: nat)
    requires Later(s, t, w, id, m) && Later(t, u, w, id, n)
    ensures Later(s, u, w, id, m + n)
  {
    hide CalledAgain;
    hide CallsFor;
  }

  // ----------------------------------------------------------- one turn, any turns

  lemma TurnBegins(s: System, w: Token, id: Id)
    requires Stuck(s, w, id) && s.workers[w].at == Ready && s.workers[w].queue != []
    ensures var x := s.workers[w].queue[0];
            var e := Begin(w, Fails(x));
            && Idles(s, e, w, id)
            && Next(s, e).workers[w].queue == s.workers[w].queue[1..]
            && Next(s, e).workers[w].at == if x.action != Disconnect && x.status == Revoked then Finalizing(x) else Recording(x, Pending, x.action == Disconnect)
  {
    hide Check;
  }

  /** Taking up the stuck row, as it was read, makes a call that nothing will count. */
  lemma TurnCalls(s: System, w: Token, id: Id)
    requires Stuck(s, w, id) && s.workers[w].at == Ready && s.workers[w].queue != [] && s.workers[w].queue[0] == Snapshot(s.rows, id)
    ensures var e := Begin(w, Fails(s.workers[w].queue[0])); Idles(s, e, w, id) && Later(s, Next(s, e), w, id, 1)
  {
    var x := s.workers[w].queue[0];
    var e := Begin(w, Fails(x));
    TurnBegins(s, w, id);
    IdleStep(s, e, w, id);
    NextIs(s, e);
    hide Next;
    hide Check;
    CallsForAppend(s.calls, NewCalls(s, e), id);
    hide CallsFor;
    if x.action != Disconnect && id in s.revoked {
      assert NewCalls(s, e)[0] in Next(s, e).calls;
    }
  }

  lemma TurnFinalizes(s: System, w: Token, id: Id)
    requires Stuck(s, w, id) && s.workers[w].at.Finalizing?
    ensures var e := Finalize(w, false, false, false);
            Idles(s, e, w, id) && Next(s, e).workers[w] == Worker(s.workers[w].queue, Recording(s.workers[w].at.entry, Revoked, false))
  {
  }

  lemma TurnRecords(s: System, w: Token, id: Id)
    requires Stuck(s, w, id) && s.workers[w].at.Recording?
    ensures Idles(s, Record(w, true), w, id) && Next(s, Record(w, true)).workers[w] == Worker(s.workers[w].queue, Ready)
  {
  }

  lemma Turn(s: System, w: Token, id: Id) returns (t: System)
    requires Stuck(s, w, id) && s.workers[w].at == Ready && s.workers[w].queue != []
    ensures Leads(s, t, id) && Later(s, t, w, id, if s.workers[w].queue[0] == Snapshot(s.rows, id) then 1 else 0)
    ensures w in t.workers && t.workers[w] == Worker(s.workers[w].queue[1..], Ready)
  {
    hide Next;
    hide Idles;
    hide Leads;
    hide CallsFor;
    hide CalledAgain;
    var x := s.workers[w].queue[0];
    var n := if x == Snapshot(s.rows, id) then 1 else 0;
    StuckIsAlone(s, w, id);
    LeadsHere(s, id);
    TurnBegins(s, w, id);
    LeadsOn(s, s, id, Begin(w, Fails(x)), w);
    if x == Snapshot(s.rows, id) { TurnCalls(s, w, id); }
    t := Next(s, Begin(w, Fails(x)));
    if t.workers[w].at.Finalizing? {
      TurnFinalizes(t, w, id);
      var e := Finalize(w, false, false, false);
      LeadsOn(s, t, id, e, w);
      LaterLater(s, t, Next(t, e), w, id, n, 0);
      t := Next(t, e);
    }
    TurnRecords(t, w, id);
    LeadsOn(s, t, id, Record(w, true), w);
    LaterLater(s, t, Next(t, Record(w, true)), w, id, n, 0);
    t := Next(t, Record(w, true));
  }

  lemma LeadsLeads(s: System, t: System, u: System, id: Id)
    requires Leads(s, t, id) && Leads(t, u, id)
    ensures Leads(s, u, id)
  {
    hide Next;
    hide Enabled;
    hide Smooth;
    var es :| SmoothRun(s, es) && Run(s, es) == t && Unqueued(es) && Expirations(s, es, id) == 0;
    var fs :| SmoothRun(t, fs) && Run(t, fs) == u && Unqueued(fs) && Expirations(t, fs, id) == 0;
    Joined(s, es, fs, id);
    assert forall k :: 0 <= k < |es + fs| ==> (es + fs)[k] == if k < |es| then es[k] else fs[k - |es|];
    assert Unqueued(es + fs);
    assert SmoothRun(s, es + fs);
  }

  /** The worker fails its way through the rest of its batch. */
  lemma {:induction false} Drained(s: System, w: Token, id: Id) returns (t: System)
    requires Stuck(s, w, id) && s.workers[w].at == Ready
    ensures Leads(s, t, id) && Later(s, t, w, id, 0) && w in t.workers && t.workers[w] == Worker([], Ready)
    decreases |s.workers[w].queue|
  {
    hide Leads;
    hide CallsFor;
    hide CalledAgain;
    if s.workers[w].queue == [] {
      StuckIsAlone(s, w, id);
      LeadsHere(s, id);
      t := s;
    } else {
      var m := Turn(s, w, id);
      t := Drained(m, w, id);
      LeadsLeads(s, m, t, id);
      LaterLater(s, m, t, w, id, 0, 0);
    }
  }

  /** The claim's second statement hands the row back, DELIVERED as it is. */
  lemma TurnClaims(s: System, w: Token, id: Id)
    requires Stuck(s, w, id) && s.workers[w] == Worker([], Ready)
    ensures var e := Claim(w, {}, [id]);
            && Idles(s, e, w, id) && Next(s, e).workers[w] == Worker([Snapshot(s.rows, id)], Ready)
            && Next(s, e).rows == s.rows
  {
    var e := Claim(w, {}, [id]);
    assert ClaimRows(s.rows, {}, w, s.now) == s.rows;
    assert QueueAfter(s, e) == [Snapshot(s.rows, id)];
  }

  /** And it does so any number of times, with nothing to count the attempts. */
  lemma {:induction false} AgainAndAgain(s: System, w: Token, id: Id, n: nat) returns (t: System)
    requires Stuck(s, w, id) && s.workers[w] == Worker([], Ready)
    ensures Leads(s, t, id) && Later(s, t, w, id, n) && w in t.workers && t.workers[w] == Worker([], Ready)
  {
    hide Leads;
    hide CallsFor;
    hide CalledAgain;
    hide Next;
    hide Idles;
    StuckIsAlone(s, w, id);
    LeadsHere(s, id);
    if n == 0 {
      t := s;
    } else {
      var r := AgainAndAgain(s, w, id, n - 1);
      TurnClaims(r, w, id);
      var e := Claim(w, {}, [id]);
      LeadsOn(s, r, id, e, w);
      LaterLater(s, r, Next(r, e), w, id, n - 1, 0);
      t := Turn(Next(r, e), w, id);
      LeadsLeads(s, Next(r, e), t, id);
      LaterLater(s, Next(r, e), t, w, id, n - 1, 1);
    }
  }

  // ------------------------------------------------------- after the stray delivery

  lemma StraySticks(s: System, e: Event, id: Id)
    requires Enabled(s, e) && Alone(s) && !Leaks(e) && Strays(s, e, id)
    ensures e.Finalize? && Stuck(Next(s, e), e.w, id) && Next(s, e).rows[id].action == s.rows[id].action && s.revoked <= Next(s, e).revoked
    ensures Next(s, e).workers[e.w].at.Releasing? && Next(s, e).workers[e.w].at.entry.id != id
  {
    RowAfterStep(s, e, id);
    NextIs(s, e);
    hide Check;
    assert s.rows[id].claim == Some(e.w);
    forall v | v in WorkersAfter(s, e) ensures v == e.w { assert v in s.workers; }
    assert WorkersAfter(s, e).Keys == {e.w};
  }

  lemma TurnReleases(s: System, w: Token, id: Id)
    requires Stuck(s, w, id) && s.workers[w].at.Releasing? && s.workers[w].at.entry.id != id
    ensures Idles(s, Release(w, true), w, id) && Next(s, Release(w, true)).workers[w] == Worker(s.workers[w].queue, Ready)
  {
  }

  lemma AfterStray(s: System, w: Token, id: Id, n: nat) returns (t: System)
    requires Stuck(s, w, id) && s.workers[w].at.Releasing? && s.workers[w].at.entry.id != id
    ensures Leads(s, t, id) && Later(s, t, w, id, n)
  {
    hide Leads;
    hide CallsFor;
    hide CalledAgain;
    hide Next;
    hide Idles;
    StuckIsAlone(s, w, id);
    LeadsHere(s, id);
    TurnReleases(s, w, id);
    var e := Release(w, true);
    LeadsOn(s, s, id, e, w);
    var m := Drained(Next(s, e), w, id);
    LeadsLeads(s, Next(s, e), m, id);
    LaterLater(s, Next(s, e), m, w, id, 0, 0);
    t := AgainAndAgain(m, w, id, n);
    LeadsLeads(s, m, t, id);
    LaterLater(s, m, t, w, id, 0, n);
  }

  /** The last step of the run delivers the row behind the worker's back. */
  ghost predicate EndsAstray(s: System, es: seq<Event>, id: Id)
    requires Trace(s, es)
  {
    es != [] && Strays(Run(s, es[..|es| - 1]), es[|es| - 1], id)
  }

  /** Once the row has been delivered behind the worker's back, the run can go on with any number
      of turns, and as many calls unless it is a DISCONNECT row, and nothing new is queued. */
  lemma StrayedRun(s: System, es: seq<Event>, id: Id, n: nat) returns (fs: seq<Event>)
    requires SmoothRun(s, es) && EndsAstray(s, es, id)
    ensures SmoothRun(s, es + fs) && Unqueued(fs) && id in Run(s, es).rows
    ensures Run(s, es + fs).handled[id] >= n + Expirations(s, es + fs, id)
    ensures Run(s, es).rows[id].action != Disconnect ==> CallsFor(Run(s, es + fs).calls, id) >= n
  {
    hide Next;
    hide Enabled;
    hide Strays;
    hide CallsFor;
    hide Leaks;
    hide Leads;
    hide CalledAgain;
    var front, last := es[..|es| - 1], es[|es| - 1];
    assert Smooth(last) && AloneThroughout(s, front);
    StraySticks(Run(s, front), last, id);
    var u := AfterStray(Run(s, es), last.w, id, n + Expirations(s, es, id));
    fs := Continued(s, es, u, id);
  }

  lemma Continued(s: System, es: seq<Event>, u: System, id: Id) returns (fs: seq<Event>)
    requires SmoothRun(s, es) && Leads(Run(s, es), u, id)
    ensures SmoothRun(s, es + fs) && Run(s, es + fs) == u && Unqueued(fs) && Expirations(s, es + fs, id) == Expirations(s, es, id)
  {
    hide Next;
    hide Enabled;
    hide Smooth;
    hide Run;
    fs :| SmoothRun(Run(s, es), fs) && Run(Run(s, es), fs) == u && Unqueued(fs) && Expirations(Run(s, es), fs, id) == 0;
    Joined(s, es, fs, id);
    var all := es + fs;
    assert forall k :: 0 <= k < |all| ==> all[k] == if k < |es| then es[k] else fs[k - |es|];
  }

  /** Once a REVOKED row has been delivered behind the worker's back, the run can go on with a
      call for it, and nothing new is queued. */
  lemma StrayedIsCalledAgain(s: System, es: seq<Event>, id: Id) returns (fs: seq<Event>)
    requires SealedRun(s, es) && EndsAstray(s, es, id) && id in Run(s, es).revoked && id in Run(s, es).rows && Run(s, es).rows[id].action != Disconnect
    ensures SealedRun(s, es + fs) && Unqueued(fs) && CalledAgain(Run(s, es + fs))
  {
    hide Next;
    hide Enabled;
    hide Strays;
    hide CallsFor;
    hide Leaks;
    hide Leads;
    hide CalledAgain;
    var front, last := es[..|es| - 1], es[|es| - 1];
    assert !Leaks(last) && AloneThroughout(s, front);
    StraySticks(Run(s, front), last, id);
    var u := AfterStray(Run(s, es), last.w, id, 1);
    fs := SealedOn(s, es, u, id);
  }

  lemma SealedOn(s: System, es: seq<Event>, u: System, id: Id) returns (fs: seq<Event>)
    requires SealedRun(s, es) && Leads(Run(s, es), u, id)
    ensures SealedRun(s, es + fs) && Run(s, es + fs) == u && Unqueued(fs)
  {
    hide Next;
    hide Enabled;
    hide Leaks;
    hide Run;
    fs :| SmoothRun(Run(s, es), fs) && Run(Run(s, es), fs) == u && Unqueued(fs) && Expirations(Run(s, es), fs, id) == 0;
    Joined(s, es, fs, id);
    var all := es + fs;
    assert forall k :: 0 <= k < |all| ==> all[k] == if k < |es| then es[k] else fs[k - |es|];
  }
}
