/** Runs that show where the outbox does call a provider again, or without end, takes a row up
    without counting it, or writes without a claim. */
module OutboxWitnesses {
  import opened Wrappers
  import opened Outbox
  import opened OutboxLeases
  import opened OutboxSafety
  import opened OutboxBudget
  import opened OutboxCalls
  import opened OutboxStrays
  import Backoff

  lemma Extend(s: System, es: seq<Event>, e: Event)
    requires Trace(s, es) && Enabled(Run(s, es), e)
    ensures Trace(s, es + [e]) && Run(s, es + [e]) == Next(Run(s, es), e)
  {
    var more := es + [e];
    assert more[..|more| - 1] == es && more[|more| - 1] == e;
  }

  // ------------------------------------------- one worker, one row, one token

  const W: Token := 7

  function RowIs(action: Action, status: Status, claim: Option<Token>): Row {
    Row(1, "KAKAO", action, status, claim, 0, 0, 0)
  }

  function EntryIs(action: Action, status: Status): Entry {
    Entry(0, 1, "KAKAO", action, status, 0)
  }

  function Turns(n: nat): multiset<Id> {
    var none: multiset<Id> := multiset{};
    none[0 := n]
  }

  /** Everything happens at time zero. */
  function One(row: Row, link: Link, at: Point, queue: seq<Entry>, calls: seq<Call>, revoked: set<Id>, turns: nat): System {
    System(map[0 := row], map[(1, "KAKAO") := link], map[W := Worker(queue, at)], 0, {W}, calls, revoked, Turns(turns))
  }

  function Fresh(action: Action, link: Link): System {
    System(map[0 := RowIs(action, Pending, None)], map[(1, "KAKAO") := link], map[], 0, {}, [], {}, multiset{})
  }

  lemma Spawned(action: Action, link: Link)
    ensures Enabled(Fresh(action, link), Spawn(W))
    ensures Next(Fresh(action, link), Spawn(W)) == One(RowIs(action, Pending, None), link, Ready, [], [], {}, 0)
  {
    assert RevokedIds(Fresh(action, link).rows) == {};
    var none: multiset<Id> := multiset{};
    assert none[0 := 0] == none;
  }

  lemma MayClaim(s: System, row: Row)
    requires s.rows == map[0 := row] && W in s.workers && s.workers[W] == Worker([], Ready) && Claimable(row, s.now)
    ensures Enabled(s, Claim(W, {0}, [0]))
    ensures ClaimRows(s.rows, {0}, W, s.now) == map[0 := row.(claim := Some(W), updatedAt := s.now)]
  {
    assert |{0}| == 1;
  }

  /** Claiming the one row there is. */
  lemma ClaimOne(s: System, row: Row)
    requires s.rows == map[0 := row] && W in s.workers && s.workers[W] == Worker([], Ready) && Claimable(row, s.now)
    requires row.status == Revoked ==> 0 in s.revoked
    ensures Enabled(s, Claim(W, {0}, [0]))
    ensures var row' := row.(claim := Some(W), updatedAt := s.now);
            var entry := Entry(0, row.user, row.provider, row.action, row.status, row.attempts);
            Next(s, Claim(W, {0}, [0])) == s.(rows := map[0 := row'], workers := s.workers[W := Worker([entry], Ready)])
  {
    MayClaim(s, row);
    hide Enabled;
    hide ClaimRows;
    var e := Claim(W, {0}, [0]);
    var row' := row.(claim := Some(W), updatedAt := s.now);
    assert QueueAfter(s, e) == [Entry(0, row.user, row.provider, row.action, row.status, row.attempts)];
    assert s.calls + [] == s.calls;
    assert RevokedIds(map[0 := row']) <= s.revoked;
    assert s.revoked + RevokedIds(map[0 := row']) == s.revoked;
  }

  lemma Claimed(action: Action, status: Status, link: Link, calls: seq<Call>, revoked: set<Id>, turns: nat)
    requires IsOpen(status) && (status == Revoked ==> 0 in revoked)
    ensures var s := One(RowIs(action, status, None), link, Ready, [], calls, revoked, turns);
            && Enabled(s, Claim(W, {0}, [0]))
            && Next(s, Claim(W, {0}, [0])) == One(RowIs(action, status, Some(W)), link, Ready, [EntryIs(action, status)], calls, revoked, turns)
  {
    hide Enabled;
    hide Next;
    var s := One(RowIs(action, status, None), link, Ready, [], calls, revoked, turns);
    ClaimOne(s, RowIs(action, status, None));
    assert s.workers[W := Worker([EntryIs(action, status)], Ready)] == map[W := Worker([EntryIs(action, status)], Ready)];
  }

  // ------------------------------------------------ a release that gets lost

  function CallOf(seen: Row, entry: Entry, link: Link, again: bool): Call {
    Call(W, entry, seen, link, again)
  }

  lemma Called(status: Status, link: Link, calls: seq<Call>, revoked: set<Id>, turns: nat)
    requires status == Pending || (status == Delivered && 0 in revoked)
    ensures var row, entry := RowIs(AccountDelete, status, Some(W)), EntryIs(AccountDelete, status);
            var s := One(row, link, Ready, [entry], calls, revoked, turns);
            var e := Begin(W, Through(true, true));
            && Enabled(s, e)
            && Next(s, e) == One(row, link, Checkpoint(entry), [], calls + [CallOf(row, entry, link, 0 in revoked)], revoked, turns + 1)
  {
    var row, entry := RowIs(AccountDelete, status, Some(W)), EntryIs(AccountDelete, status);
    var s := One(row, link, Ready, [entry], calls, revoked, turns);
    assert s.links[(1, "KAKAO")] == link;
    assert s.revoked + RevokedIds(s.rows) == revoked;
    assert [entry][1..] == [];
  }

  lemma Checkpointed(link: Link, calls: seq<Call>, turns: nat)
    ensures var entry := EntryIs(AccountDelete, Pending);
            var s := One(RowIs(AccountDelete, Pending, Some(W)), link, Checkpoint(entry), [], calls, {}, turns);
            var e := MarkRevoked(W, true, true);
            Enabled(s, e) && Next(s, e) == One(RowIs(AccountDelete, Revoked, Some(W)), link, Finalizing(entry), [], calls, {0}, turns)
  {
    var entry := EntryIs(AccountDelete, Pending);
    var s := One(RowIs(AccountDelete, Pending, Some(W)), link, Checkpoint(entry), [], calls, {}, turns);
    assert SetRevoked(s.rows, 0, 0) == map[0 := RowIs(AccountDelete, Revoked, Some(W))];
    assert RevokedIds(SetRevoked(s.rows, 0, 0)) == {0};
    assert calls + [] == calls;
  }

  lemma Finalized(link: Link, calls: seq<Call>, turns: nat)
    ensures var entry := EntryIs(AccountDelete, Pending);
            var s := One(RowIs(AccountDelete, Revoked, Some(W)), link, Finalizing(entry), [], calls, {0}, turns);
            var e := Finalize(W, true, true, true);
            Enabled(s, e) && Next(s, e) == One(RowIs(AccountDelete, Delivered, Some(W)), link, Releasing(entry), [], calls, {0}, turns)
  {
    var entry := EntryIs(AccountDelete, Pending);
    var s := One(RowIs(AccountDelete, Revoked, Some(W)), link, Finalizing(entry), [], calls, {0}, turns);
    assert Deliver(s.rows, entry, 0) == map[0 := RowIs(AccountDelete, Delivered, Some(W))];
    assert RevokedIds(Deliver(s.rows, entry, 0)) == {};
    assert calls + [] == calls;
  }

  lemma ReleaseLost(link: Link, calls: seq<Call>, turns: nat)
    ensures var entry, row := EntryIs(AccountDelete, Pending), RowIs(AccountDelete, Delivered, Some(W));
            var s := One(row, link, Releasing(entry), [], calls, {0}, turns);
            Enabled(s, Release(W, false)) && Next(s, Release(W, false)) == One(row, link, Ready, [], calls, {0}, turns)
  {
    assert calls + [] == calls;
  }

  /** The claim's second statement selects by token alone, so the row comes back. */
  lemma HandedBack(link: Link, calls: seq<Call>, turns: nat)
    ensures var row := RowIs(AccountDelete, Delivered, Some(W));
            var s := One(row, link, Ready, [], calls, {0}, turns);
            var e := Claim(W, {}, [0]);
            Enabled(s, e) && Next(s, e) == One(row, link, Ready, [EntryIs(AccountDelete, Delivered)], calls, {0}, turns)
  {
    var s := One(RowIs(AccountDelete, Delivered, Some(W)), link, Ready, [], calls, {0}, turns);
    var e := Claim(W, {}, [0]);
    assert ClaimRows(s.rows, {}, W, 0) == s.rows;
    assert QueueAfter(s, e) == [EntryIs(AccountDelete, Delivered)];
    assert calls + [] == calls;
  }

  /** Some run of a lone worker leads from `s` to `t`. */
  ghost predicate LeadsTo(s: System, t: System) {
    exists es :: Trace(s, es) && Run(s, es) == t && AloneThroughout(s, es)
  }

  lemma Here(s: System)
    requires Alone(s)
    ensures LeadsTo(s, s)
  {
    assert Trace(s, []) && Run(s, []) == s && AloneThroughout(s, []);
  }

  lemma Further(s: System, t: System, e: Event, t': System)
    requires LeadsTo(s, t) && Enabled(t, e) && Next(t, e) == t' && Alone(t')
    ensures LeadsTo(s, t')
  {
    hide Enabled;
    hide Next;
    var es :| Trace(s, es) && Run(s, es) == t && AloneThroughout(s, es);
    Extend(s, es, e);
    var more := es + [e];
    assert more[..|more| - 1] == es;
    assert Trace(s, more) && Run(s, more) == t' && AloneThroughout(s, more);
  }

  lemma OneIsAlone(row: Row, link: Link, at: Point, queue: seq<Entry>, calls: seq<Call>, revoked: set<Id>, turns: nat)
    ensures Alone(One(row, link, at, queue, calls, revoked, turns))
  {
  }

  /** To the row DELIVERED and its release lost. */
  lemma ToLostRelease(link: Link)
    ensures var c := CallOf(RowIs(AccountDelete, Pending, Some(W)), EntryIs(AccountDelete, Pending), link, false);
            LeadsTo(Fresh(AccountDelete, link), One(RowIs(AccountDelete, Delivered, Some(W)), link, Ready, [], [c], {0}, 1))
  {
    hide Enabled;
    hide Next;
    hide LeadsTo;
    hide Alone;
    var s := Fresh(AccountDelete, link);
    var entry, held := EntryIs(AccountDelete, Pending), RowIs(AccountDelete, Pending, Some(W));
    var gone := RowIs(AccountDelete, Delivered, Some(W));
    var c := CallOf(held, entry, link, false);
    FreshIsAlone(AccountDelete, link);
    Here(s);
    Spawned(AccountDelete, link);
    var t1 := One(RowIs(AccountDelete, Pending, None), link, Ready, [], [], {}, 0);
    OneIsAlone(RowIs(AccountDelete, Pending, None), link, Ready, [], [], {}, 0);
    Further(s, s, Spawn(W), t1);
    Claimed(AccountDelete, Pending, link, [], {}, 0);
    var t2 := One(held, link, Ready, [entry], [], {}, 0);
    OneIsAlone(held, link, Ready, [entry], [], {}, 0);
    Further(s, t1, Claim(W, {0}, [0]), t2);
    Called(Pending, link, [], {}, 0);
    assert [] + [c] == [c];
    var t3 := One(held, link, Checkpoint(entry), [], [c], {}, 1);
    OneIsAlone(held, link, Checkpoint(entry), [], [c], {}, 1);
    Further(s, t2, Begin(W, Through(true, true)), t3);
    Checkpointed(link, [c], 1);
    var t4 := One(RowIs(AccountDelete, Revoked, Some(W)), link, Finalizing(entry), [], [c], {0}, 1);
    OneIsAlone(RowIs(AccountDelete, Revoked, Some(W)), link, Finalizing(entry), [], [c], {0}, 1);
    Further(s, t3, MarkRevoked(W, true, true), t4);
    Finalized(link, [c], 1);
    var t5 := One(gone, link, Releasing(entry), [], [c], {0}, 1);
    OneIsAlone(gone, link, Releasing(entry), [], [c], {0}, 1);
    Further(s, t4, Finalize(W, true, true, true), t5);
    ReleaseLost(link, [c], 1);
    OneIsAlone(gone, link, Ready, [], [c], {0}, 1);
    Further(s, t5, Release(W, false), One(gone, link, Ready, [], [c], {0}, 1));
  }

  lemma FreshIsAlone(action: Action, link: Link)
    ensures Alone(Fresh(action, link)) && Init(Fresh(action, link))
  {
  }

  /** One worker, one row, and every write but one release in order: the provider is called
      for a row that had been REVOKED and even DELIVERED. */
  lemma LostReleaseCallsAgain(link: Link) returns (es: seq<Event>)
    ensures var s := Fresh(AccountDelete, link);
            && Init(s) && Trace(s, es) && AloneThroughout(s, es) && Run(s, es).rows.Keys == {0}
            && exists c :: c in Run(s, es).calls && c.entry.action == AccountDelete && c.again
  {
    hide Enabled;
    hide Next;
    hide Alone;
    var s := Fresh(AccountDelete, link);
    var entry, gone := EntryIs(AccountDelete, Delivered), RowIs(AccountDelete, Delivered, Some(W));
    var c := CallOf(RowIs(AccountDelete, Pending, Some(W)), EntryIs(AccountDelete, Pending), link, false);
    var c' := CallOf(gone, entry, link, true);
    FreshIsAlone(AccountDelete, link);
    ToLostRelease(link);
    HandedBack(link, [c], 1);
    var t := One(gone, link, Ready, [entry], [c], {0}, 1);
    OneIsAlone(gone, link, Ready, [entry], [c], {0}, 1);
    Further(s, One(gone, link, Ready, [], [c], {0}, 1), Claim(W, {}, [0]), t);
    Called(Delivered, link, [c], {0}, 1);
    var t' := One(gone, link, Checkpoint(entry), [], [c] + [c'], {0}, 2);
    OneIsAlone(gone, link, Checkpoint(entry), [], [c] + [c'], {0}, 2);
    Further(s, t, Begin(W, Through(true, true)), t');
    es :| Trace(s, es) && Run(s, es) == t' && AloneThroughout(s, es);
    assert t'.calls[1] == c' && c' in t'.calls;
  }

  // ------------------------------------- a failure recorded on a revoked row

  function Failing(row: Row, link: Link, now: int, at: Point, queue: seq<Entry>, calls: seq<Call>, turns: nat): System {
    System(map[0 := row], map[(1, "KAKAO") := link], map[W := Worker(queue, at)], now, {W}, calls, {0}, Turns(turns))
  }

  /** The row that was revoked before, taken back to PENDING by a failed transaction. */
  function TakenBack(claim: Option<Token>, updated: int): Row {
    Row(1, "KAKAO", Disconnect, Pending, claim, updated, 1, Backoff.BackoffDuration(1, Backoff.ToMinimum))
  }

  lemma TransactionFails()
    ensures var row, entry := RowIs(Disconnect, Revoked, Some(W)), EntryIs(Disconnect, Revoked);
            var s, e := Failing(row, Disconnecting, 0, Ready, [entry], [], 0), Begin(W, TxFailed);
            Enabled(s, e) && Next(s, e) == Failing(row, Disconnecting, 0, Recording(entry, Pending, true), [], [], 1)
  {
    var row, entry := RowIs(Disconnect, Revoked, Some(W)), EntryIs(Disconnect, Revoked);
    var s := Failing(row, Disconnecting, 0, Ready, [entry], [], 0);
    assert [entry][1..] == [];
    assert RevokedIds(s.rows) == {0};
  }

  lemma FailureRecorded()
    ensures var entry := EntryIs(Disconnect, Revoked);
            var s, e := Failing(RowIs(Disconnect, Revoked, Some(W)), Disconnecting, 0, Recording(entry, Pending, true), [], [], 1), Record(W, true);
            && Enabled(s, e) && Demotes(s, e)
            && Next(s, e) == Failing(TakenBack(None, 0), Disconnecting, 0, Ready, [], [], 1)
  {
    hide Backoff.BackoffDuration;
    var entry := EntryIs(Disconnect, Revoked);
    var s := Failing(RowIs(Disconnect, Revoked, Some(W)), Disconnecting, 0, Recording(entry, Pending, true), [], [], 1);
    assert MarkFailed(s.rows, W, entry, Pending, 0) == map[0 := TakenBack(None, 0)];
    assert RevokedIds(MarkFailed(s.rows, W, entry, Pending, 0)) == {};
  }

  /** Once it is due again the row is claimed as PENDING. */
  lemma ClaimedOnceMore(due: int)
    requires due == Backoff.BackoffDuration(1, Backoff.ToMinimum)
    ensures var s, e := Failing(TakenBack(None, 0), Disconnecting, due, Ready, [], [], 1), Claim(W, {0}, [0]);
            && Enabled(s, e)
            && Next(s, e) == Failing(TakenBack(Some(W), due), Disconnecting, due, Ready, [Entry(0, 1, "KAKAO", Disconnect, Pending, 1)], [], 1)
  {
    hide Enabled;
    hide Next;
    hide Backoff.BackoffDuration;
    var entry := Entry(0, 1, "KAKAO", Disconnect, Pending, 1);
    var s := Failing(TakenBack(None, 0), Disconnecting, due, Ready, [], [], 1);
    ClaimOne(s, TakenBack(None, 0));
    assert s.workers[W := Worker([entry], Ready)] == map[W := Worker([entry], Ready)];
  }

  /** And its provider is called. */
  lemma CalledOnceMore(due: int)
    ensures var row, entry := TakenBack(Some(W), due), Entry(0, 1, "KAKAO", Disconnect, Pending, 1);
            var s, e := Failing(row, Disconnecting, due, Ready, [entry], [], 1), Begin(W, CallFailed);
            && Enabled(s, e) && Next(s, e).calls == [CallOf(row, entry, Disconnecting, true)]
            && Next(s, e).workers.Keys == {W}
  {
    hide Backoff.BackoffDuration;
    var row, entry := TakenBack(Some(W), due), Entry(0, 1, "KAKAO", Disconnect, Pending, 1);
    var s := Failing(row, Disconnecting, due, Ready, [entry], [], 1);
    assert s.links[(1, "KAKAO")] == Disconnecting;
    assert Check(s, W, entry) == MayRevoke;
  }

  function RevokedBefore(): System {
    System(map[0 := RowIs(Disconnect, Revoked, None)], map[(1, "KAKAO") := Disconnecting], map[], 0, {}, [], {0}, multiset{})
  }

  lemma StartsRevoked()
    ensures var s := RevokedBefore();
            && Init(s) && Alone(s) && Enabled(s, Spawn(W))
            && Next(s, Spawn(W)) == Failing(RowIs(Disconnect, Revoked, None), Disconnecting, 0, Ready, [], [], 0)
  {
    var s := RevokedBefore();
    assert s.rows[0].status == Revoked;
    assert RevokedIds(s.rows) == {0};
    var none: multiset<Id> := multiset{};
    assert none[0 := 0] == none;
    assert s.workers[W := Worker([], Ready)] == map[W := Worker([], Ready)];
  }

  lemma Ticked(due: int)
    requires 0 <= due
    ensures var s := Failing(TakenBack(None, 0), Disconnecting, 0, Ready, [], [], 1);
            Enabled(s, Tick(due)) && Next(s, Tick(due)) == s.(now := due)
  {
    hide Backoff.BackoffDuration;
    var s := Failing(TakenBack(None, 0), Disconnecting, 0, Ready, [], [], 1);
    assert RevokedIds(s.rows) == {};
    assert s.calls + [] == s.calls;
  }

  lemma FailingIsAlone(s: System)
    requires s.workers.Keys == {W}
    ensures Alone(s)
  {
    forall v, w | v in s.workers && w in s.workers ensures v == w {
      assert v in s.workers.Keys && w in s.workers.Keys;
    }
  }

  /** One worker, no crash: a DISCONNECT row that was REVOKED is taken back by a transaction
      that failed before it read the row, and its provider is called again. */
  lemma FailedTransactionCallsAgain()
    ensures exists t, e :: LeadsTo(RevokedBefore(), t) && Enabled(t, e) && exists c :: c in NewCalls(t, e) && c.entry.action == Disconnect && c.again
  {
    hide Enabled;
    hide Next;
    hide LeadsTo;
    hide Alone;
    hide Demotes;
    var s := RevokedBefore();
    var held, entry := RowIs(Disconnect, Revoked, Some(W)), EntryIs(Disconnect, Revoked);
    var due := Backoff.BackoffDuration(1, Backoff.ToMinimum);
    Backoff.BackoffGrows(1, 1, Backoff.ToMinimum);
    hide Backoff.BackoffDuration;
    StartsRevoked();
    Here(s);
    var t1 := Failing(RowIs(Disconnect, Revoked, None), Disconnecting, 0, Ready, [], [], 0);
    FailingIsAlone(t1);
    Further(s, s, Spawn(W), t1);
    Claimed(Disconnect, Revoked, Disconnecting, [], {0}, 0);
    var t2 := Failing(held, Disconnecting, 0, Ready, [entry], [], 0);
    FailingIsAlone(t2);
    Further(s, t1, Claim(W, {0}, [0]), t2);
    TransactionFails();
    var t3 := Failing(held, Disconnecting, 0, Recording(entry, Pending, true), [], [], 1);
    FailingIsAlone(t3);
    Further(s, t2, Begin(W, TxFailed), t3);
    FailureRecorded();
    var t4 := Failing(TakenBack(None, 0), Disconnecting, 0, Ready, [], [], 1);
    FailingIsAlone(t4);
    Further(s, t3, Record(W, true), t4);
    LastLap(s, due);
  }

  lemma LastLap(s: System, due: int)
    requires due == Backoff.BackoffDuration(1, Backoff.ToMinimum) && 0 <= due
    requires LeadsTo(s, Failing(TakenBack(None, 0), Disconnecting, 0, Ready, [], [], 1))
    ensures exists t, e :: LeadsTo(s, t) && Enabled(t, e) && exists c :: c in NewCalls(t, e) && c.entry.action == Disconnect && c.again
  {
    hide Enabled;
    hide Next;
    hide LeadsTo;
    hide Alone;
    hide Backoff.BackoffDuration;
    var t4 := Failing(TakenBack(None, 0), Disconnecting, 0, Ready, [], [], 1);
    Ticked(due);
    var t5 := Failing(TakenBack(None, 0), Disconnecting, due, Ready, [], [], 1);
    FailingIsAlone(t5);
    Further(s, t4, Tick(due), t5);
    ClaimedOnceMore(due);
    var row, entry := TakenBack(Some(W), due), Entry(0, 1, "KAKAO", Disconnect, Pending, 1);
    var t6 := Failing(row, Disconnecting, due, Ready, [entry], [], 1);
    FailingIsAlone(t6);
    Further(s, t5, Claim(W, {0}, [0]), t6);
    CalledOnceMore(due);
    NextIs(t6, Begin(W, CallFailed));
    var c := CallOf(row, entry, Disconnecting, true);
    assert [] + NewCalls(t6, Begin(W, CallFailed)) == NewCalls(t6, Begin(W, CallFailed));
    assert c in NewCalls(t6, Begin(W, CallFailed));
  }

  // ------------------------------------------ a row written without its claim

  /** Some run leads from `s` to `t`, with any number of workers. */
  ghost predicate Reaches(s: System, t: System) {
    exists es :: Trace(s, es) && Run(s, es) == t
  }

  lemma ReachesNext(s: System, t: System, e: Event, t': System)
    requires Reaches(s, t) && Enabled(t, e) && Next(t, e) == t'
    ensures Reaches(s, t')
  {
    hide Enabled;
    hide Next;
    var es :| Trace(s, es) && Run(s, es) == t;
    Extend(s, es, e);
  }

  const V: Token := 8

  /** A revoked row, perhaps a second one for the same link, and perhaps two workers. */
  function Pair(rows: map<Id, Row>, workers: map<Token, Worker>, used: set<Token>, turns: nat): System {
    System(rows, map[(1, "KAKAO") := Disconnecting], workers, 0, used, [], {0}, Turns(turns))
  }

  const IDLE := Worker([], Ready)

  lemma PairSpawns(rows: map<Id, Row>, workers: map<Token, Worker>, used: set<Token>, w: Token)
    requires w !in used && RevokedIds(rows) <= {0}
    ensures var s := Pair(rows, workers, used, 0);
            Enabled(s, Spawn(w)) && Next(s, Spawn(w)) == Pair(rows, workers[w := IDLE], used + {w}, 0)
  {
    var s := Pair(rows, workers, used, 0);
    assert s.revoked + RevokedIds(rows) == {0};
    assert s.calls + [] == s.calls;
  }

  lemma PairClaims(rows: map<Id, Row>, workers: map<Token, Worker>, used: set<Token>, w: Token, id: Id)
    requires w in workers && workers[w] == IDLE && id in rows && IsOpen(rows[id].status) && rows[id].nextAttempt <= 0 && rows[id].claim == None
    requires rows[id].updatedAt == 0 && RevokedIds(rows) <= {0}
    ensures var s, e := Pair(rows, workers, used, 0), Claim(w, {id}, [id]);
            var rows' := rows[id := rows[id].(claim := Some(w))];
            Enabled(s, e) && Next(s, e) == Pair(rows', workers[w := Worker([Snapshot(rows, id)], Ready)], used, 0)
  {
    var s, e := Pair(rows, workers, used, 0), Claim(w, {id}, [id]);
    var rows' := rows[id := rows[id].(claim := Some(w))];
    assert |{id}| == 1;
    assert ClaimRows(rows, {id}, w, 0) == rows';
    assert QueueAfter(s, e) == [Snapshot(rows, id)];
    assert RevokedIds(rows') <= {0} by {
      forall i | i in RevokedIds(rows') ensures i == 0 { assert i in RevokedIds(rows); }
    }
    assert s.revoked + RevokedIds(rows') == {0};
    assert s.calls + [] == s.calls;
  }

  lemma PairEnqueues(row: Row, workers: map<Token, Worker>, used: set<Token>)
    requires row.status == Revoked
    ensures var s, new_ := Pair(map[0 := row], workers, used, 0), RowIs(Disconnect, Pending, None);
            Enabled(s, Enqueue(1, new_)) && Next(s, Enqueue(1, new_)) == Pair(map[0 := row, 1 := new_], workers, used, 0)
  {
    var s, new_ := Pair(map[0 := row], workers, used, 0), RowIs(Disconnect, Pending, None);
    assert s.rows[1 := new_] == map[0 := row, 1 := new_];
    assert RevokedIds(map[0 := row, 1 := new_]) == {0};
    assert s.calls + [] == s.calls;
  }

  lemma PairBegins(other: Row, rest: Worker, used: set<Token>)
    requires other.status == Pending
    ensures var mine, entry := RowIs(Disconnect, Revoked, Some(W)), EntryIs(Disconnect, Revoked);
            var s, e := Pair(map[0 := mine, 1 := other], map[W := Worker([entry], Ready), V := rest], used, 0), Begin(W, Through(true, true));
            Enabled(s, e) && Next(s, e) == Pair(map[0 := mine, 1 := other], map[W := Worker([], Finalizing(entry)), V := rest], used, 1)
  {
    var mine, entry := RowIs(Disconnect, Revoked, Some(W)), EntryIs(Disconnect, Revoked);
    var s := Pair(map[0 := mine, 1 := other], map[W := Worker([entry], Ready), V := rest], used, 0);
    assert s.links[(1, "KAKAO")] == Disconnecting;
    assert Check(s, W, entry) == AlreadyRevoked;
    assert [entry][1..] == [];
    assert RevokedIds(s.rows) == {0};
    assert s.workers[W := Worker([], Finalizing(entry))] == map[W := Worker([], Finalizing(entry)), V := rest];
  }

  /** Two open rows for one link: the revoked one is being finalized, the other one is held by
      another worker. */
  function TwoOpenRows(): System {
    Pair(map[0 := RowIs(Disconnect, Revoked, Some(W)), 1 := RowIs(Disconnect, Pending, Some(V))],
         map[W := Worker([], Finalizing(EntryIs(Disconnect, Revoked))), V := Worker([Entry(1, 1, "KAKAO", Disconnect, Pending, 0)], Ready)],
         {W, V}, 1)
  }

  lemma ToTwoWorkers(s: System)
    requires s == RevokedBefore()
    ensures Reaches(s, Pair(map[0 := RowIs(Disconnect, Revoked, None)], map[W := IDLE, V := IDLE], {W, V}, 0))
  {
    hide Enabled;
    hide Next;
    var rows := map[0 := RowIs(Disconnect, Revoked, None)];
    var none: multiset<Id> := multiset{};
    assert none[0 := 0] == none;
    assert s == Pair(rows, map[], {}, 0);
    assert Trace(s, []) && Run(s, []) == s;
    assert RevokedIds(rows) <= {0};
    PairSpawns(rows, map[], {}, W);
    ReachesNext(s, s, Spawn(W), Pair(rows, map[][W := IDLE], {} + {W}, 0));
    PairSpawns(rows, map[W := IDLE], {W}, V);
    assert map[][W := IDLE] == map[W := IDLE] && {} + {W} == {W} && map[W := IDLE][V := IDLE] == map[W := IDLE, V := IDLE] && {W} + {V} == {W, V};
    ReachesNext(s, Pair(rows, map[W := IDLE], {W}, 0), Spawn(V), Pair(rows, map[W := IDLE, V := IDLE], {W, V}, 0));
  }

  lemma ToTwoOpenRows()
    ensures Reaches(RevokedBefore(), TwoOpenRows())
  {
    hide Enabled;
    hide Next;
    hide Reaches;
    var s := RevokedBefore();
    ToTwoWorkers(s);
    var free, mine, entry := RowIs(Disconnect, Revoked, None), RowIs(Disconnect, Revoked, Some(W)), EntryIs(Disconnect, Revoked);
    var fresh_, theirs, other := RowIs(Disconnect, Pending, None), RowIs(Disconnect, Pending, Some(V)), Entry(1, 1, "KAKAO", Disconnect, Pending, 0);
    var both := map[W := IDLE, V := IDLE];
    assert RevokedIds(map[0 := free]) <= {0} && RevokedIds(map[0 := mine, 1 := fresh_]) <= {0};
    PairClaims(map[0 := free], both, {W, V}, W, 0);
    assert map[0 := free][0 := free.(claim := Some(W))] == map[0 := mine];
    var busy := map[W := Worker([entry], Ready), V := IDLE];
    assert both[W := Worker([entry], Ready)] == busy;
    ReachesNext(s, Pair(map[0 := free], both, {W, V}, 0), Claim(W, {0}, [0]), Pair(map[0 := mine], busy, {W, V}, 0));
    PairEnqueues(mine, busy, {W, V});
    ReachesNext(s, Pair(map[0 := mine], busy, {W, V}, 0), Enqueue(1, fresh_), Pair(map[0 := mine, 1 := fresh_], busy, {W, V}, 0));
    PairClaims(map[0 := mine, 1 := fresh_], busy, {W, V}, V, 1);
    var rest := Worker([other], Ready);
    assert map[0 := mine, 1 := fresh_][1 := fresh_.(claim := Some(V))] == map[0 := mine, 1 := theirs];
    assert busy[V := rest] == map[W := Worker([entry], Ready), V := rest];
    ReachesNext(s, Pair(map[0 := mine, 1 := fresh_], busy, {W, V}, 0), Claim(V, {1}, [1]),
                Pair(map[0 := mine, 1 := theirs], map[W := Worker([entry], Ready), V := rest], {W, V}, 0));
    PairBegins(theirs, rest, {W, V});
    ReachesNext(s, Pair(map[0 := mine, 1 := theirs], map[W := Worker([entry], Ready), V := rest], {W, V}, 0), Begin(W, Through(true, true)), TwoOpenRows());
  }

  /** A run of two workers, with a second disconnect queued after the first was revoked, in
      which the finalization of one row delivers the other while another worker holds it. */
  lemma SiblingIsDelivered()
    ensures var t, e := TwoOpenRows(), Finalize(W, true, true, true);
            && Init(RevokedBefore()) && Reaches(RevokedBefore(), t)
            && Enabled(t, e) && 1 in t.rows && t.rows[1].claim == Some(V) && FinalizesSibling(t, e, 1)
            && 1 in Next(t, e).rows && Next(t, e).rows[1].status == Delivered
  {
    StartsRevoked();
    ToTwoOpenRows();
    var t := TwoOpenRows();
    assert t.links[(1, "KAKAO")] == Disconnecting;
    assert Check(t, W, EntryIs(Disconnect, Revoked)) == AlreadyRevoked;
  }

  // ----------------------------------------------- turns that are never paid for

  /** Some smooth run of a lone worker leads from `s` to `t`. */
  ghost predicate LeadsSmoothly(s: System, t: System) {
    exists es :: Trace(s, es) && Run(s, es) == t && AloneThroughout(s, es) && EveryEvent(es, e => Smooth(e))
  }

  lemma SmoothlyFurther(s: System, t: System, e: Event, t': System)
    requires LeadsSmoothly(s, t) && Enabled(t, e) && Next(t, e) == t' && Alone(t') && Smooth(e)
    ensures LeadsSmoothly(s, t')
  {
    hide Enabled;
    hide Next;
    hide Smooth;
    var es :| Trace(s, es) && Run(s, es) == t && AloneThroughout(s, es) && EveryEvent(es, e => Smooth(e));
    Extend(s, es, e);
    var more := es + [e];
    assert more[..|more| - 1] == es;
    assert EveryEvent(more, e => Smooth(e)) by {
      forall k | 0 <= k < |more| ensures Smooth(more[k]) {
        if k < |es| { assert more[k] == es[k]; }
      }
    }
    assert Trace(s, more) && Run(s, more) == t' && AloneThroughout(s, more);
  }

  lemma KeptInBatch(turns: nat)
    ensures var row := RowIs(Disconnect, Pending, Some(W));
            var s := One(row, OtherLink, Ready, [], [], {}, turns);
            Enabled(s, Claim(W, {}, [0])) && Next(s, Claim(W, {}, [0])) == One(row, OtherLink, Ready, [EntryIs(Disconnect, Pending)], [], {}, turns)
  {
    var s := One(RowIs(Disconnect, Pending, Some(W)), OtherLink, Ready, [], [], {}, turns);
    assert ClaimRows(s.rows, {}, W, 0) == s.rows;
    assert QueueAfter(s, Claim(W, {}, [0])) == [EntryIs(Disconnect, Pending)];
    assert RevokedIds(s.rows) == {};
  }

  lemma Dropped(turns: nat)
    ensures var row, entry := RowIs(Disconnect, Pending, Some(W)), EntryIs(Disconnect, Pending);
            var s, e := One(row, OtherLink, Ready, [entry], [], {}, turns), Begin(W, Refused);
            Enabled(s, e) && Expires(s, e, 0) && Next(s, e) == One(row, OtherLink, Ready, [], [], {}, turns + 1)
  {
    var row, entry := RowIs(Disconnect, Pending, Some(W)), EntryIs(Disconnect, Pending);
    var s := One(row, OtherLink, Ready, [entry], [], {}, turns);
    assert s.links[(1, "KAKAO")] == OtherLink;
    assert Check(s, W, entry) == Expired;
    assert [entry][1..] == [];
    assert RevokedIds(s.rows) == {};
  }

  lemma ToFirstClaim()
    ensures LeadsSmoothly(Fresh(Disconnect, OtherLink), One(RowIs(Disconnect, Pending, Some(W)), OtherLink, Ready, [EntryIs(Disconnect, Pending)], [], {}, 0))
  {
    hide Enabled;
    hide Next;
    hide Alone;
    var s := Fresh(Disconnect, OtherLink);
    FreshIsAlone(Disconnect, OtherLink);
    assert Trace(s, []) && Run(s, []) == s && AloneThroughout(s, []) && EveryEvent([], e => Smooth(e));
    hide LeadsSmoothly;
    Spawned(Disconnect, OtherLink);
    var t := One(RowIs(Disconnect, Pending, None), OtherLink, Ready, [], [], {}, 0);
    OneIsAlone(RowIs(Disconnect, Pending, None), OtherLink, Ready, [], [], {}, 0);
    SmoothlyFurther(s, s, Spawn(W), t);
    Claimed(Disconnect, Pending, OtherLink, [], {}, 0);
    OneIsAlone(RowIs(Disconnect, Pending, Some(W)), OtherLink, Ready, [EntryIs(Disconnect, Pending)], [], {}, 0);
    SmoothlyFurther(s, t, Claim(W, {0}, [0]), One(RowIs(Disconnect, Pending, Some(W)), OtherLink, Ready, [EntryIs(Disconnect, Pending)], [], {}, 0));
  }

  /** A DISCONNECT row whose link was reactivated is taken up any number of times: it stays
      claimed and PENDING, and no attempt is ever counted. */
  lemma {:induction false} DroppedForEver(n: nat)
    requires n >= 1
    ensures LeadsSmoothly(Fresh(Disconnect, OtherLink), One(RowIs(Disconnect, Pending, Some(W)), OtherLink, Ready, [], [], {}, n))
  {
    hide Enabled;
    hide Next;
    hide Alone;
    hide LeadsSmoothly;
    hide Expires;
    var s, row, entry := Fresh(Disconnect, OtherLink), RowIs(Disconnect, Pending, Some(W)), EntryIs(Disconnect, Pending);
    if n == 1 {
      ToFirstClaim();
    } else {
      DroppedForEver(n - 1);
      KeptInBatch(n - 1);
      OneIsAlone(row, OtherLink, Ready, [entry], [], {}, n - 1);
      SmoothlyFurther(s, One(row, OtherLink, Ready, [], [], {}, n - 1), Claim(W, {}, [0]), One(row, OtherLink, Ready, [entry], [], {}, n - 1));
    }
    Dropped(n - 1);
    OneIsAlone(row, OtherLink, Ready, [], [], {}, n);
    SmoothlyFurther(s, One(row, OtherLink, Ready, [entry], [], {}, n - 1), Begin(W, Refused), One(row, OtherLink, Ready, [], [], {}, n));
  }

  // --------------------------------------- two rows of one deletion in one batch

  /** A deletion that was queued twice: the first row is REVOKED, the second one open too. */
  function Twins(other: Status, claim: Option<Token>, workers: map<Token, Worker>, used: set<Token>, turns: nat): System {
    System(map[0 := RowIs(AccountDelete, Revoked, claim), 1 := RowIs(AccountDelete, other, claim)], map[], workers, 0, used, [],
           if other == Revoked then {0, 1} else {0}, Turns(turns))
  }

  function TwinsAtRest(other: Status): System {
    Twins(other, None, map[], {}, 0)
  }

  function TwinEntry(other: Status): Entry {
    Entry(1, 1, "KAKAO", AccountDelete, other, 0)
  }

  lemma TwinsStart(other: Status)
    requires IsOpen(other)
    ensures Init(TwinsAtRest(other)) && SmoothRun(TwinsAtRest(other), [])
  {
    var s := TwinsAtRest(other);
    var none: multiset<Id> := multiset{};
    assert none[0 := 0] == none;
    assert s.revoked == set i | i in s.rows && (s.rows[i].status == Revoked || s.rows[i].status == FinalizeFailed);
    assert Alone(s);
  }

  lemma TwinsRevoked(other: Status, claim: Option<Token>)
    requires IsOpen(other)
    ensures var s := Twins(other, claim, map[], {}, 0); RevokedIds(s.rows) == s.revoked
  {
  }

  lemma TwinsSpawn(other: Status)
    requires IsOpen(other)
    ensures var s, e := TwinsAtRest(other), Spawn(W);
            Enabled(s, e) && Next(s, e) == Twins(other, None, map[W := IDLE], {W}, 0)
  {
    TwinsRevoked(other, None);
    assert TwinsAtRest(other).workers[W := IDLE] == map[W := IDLE];
  }

  lemma TwinsMayClaim(other: Status)
    requires IsOpen(other)
    ensures var s := Twins(other, None, map[W := IDLE], {W}, 0);
            Enabled(s, Claim(W, {0, 1}, [0, 1])) && ClaimRows(s.rows, {0, 1}, W, 0) == Twins(other, Some(W), map[], {}, 0).rows
  {
    assert |{0, 1}| == 2;
  }

  lemma TwinsClaimed(other: Status)
    requires IsOpen(other)
    ensures var s, e := Twins(other, None, map[W := IDLE], {W}, 0), Claim(W, {0, 1}, [0, 1]);
            Enabled(s, e) && Next(s, e) == Twins(other, Some(W), map[W := Worker([EntryIs(AccountDelete, Revoked), TwinEntry(other)], Ready)], {W}, 0)
  {
    TwinsMayClaim(other);
    TwinsRevoked(other, Some(W));
    hide Enabled;
    hide ClaimRows;
    hide RevokedIds;
    var s, e := Twins(other, None, map[W := IDLE], {W}, 0), Claim(W, {0, 1}, [0, 1]);
    assert QueueAfter(s, e) == [EntryIs(AccountDelete, Revoked), TwinEntry(other)];
  }

  lemma TwinsBegin(other: Status)
    requires IsOpen(other)
    ensures var s := Twins(other, Some(W), map[W := Worker([EntryIs(AccountDelete, Revoked), TwinEntry(other)], Ready)], {W}, 0);
            var e := Begin(W, Through(true, true));
            && Enabled(s, e) && !Expires(s, e, 1)
            && Next(s, e) == Twins(other, Some(W), map[W := Worker([TwinEntry(other)], Finalizing(EntryIs(AccountDelete, Revoked)))], {W}, 1)
  {
    var s := Twins(other, Some(W), map[W := Worker([EntryIs(AccountDelete, Revoked), TwinEntry(other)], Ready)], {W}, 0);
    TwinsRevoked(other, Some(W));
    assert [EntryIs(AccountDelete, Revoked), TwinEntry(other)][1..] == [TwinEntry(other)];
    assert Turns(0) + multiset{0} == Turns(1);
  }

  /** Finalizing the first row delivers the second, which the same worker has in its queue. */
  lemma TwinsFinalize(other: Status)
    requires IsOpen(other)
    ensures var s := Twins(other, Some(W), map[W := Worker([TwinEntry(other)], Finalizing(EntryIs(AccountDelete, Revoked)))], {W}, 1);
            var e := Finalize(W, true, true, true);
            && Enabled(s, e) && Strays(s, e, 1) && !Expires(s, e, 1) && Alone(Next(s, e))
            && (other == Revoked ==> 1 in Next(s, e).revoked)
  {
  }

  lemma TwinsAreAlone(other: Status, claim: Option<Token>, worker: Worker, turns: nat)
    ensures Alone(Twins(other, claim, map[W := worker], {W}, turns))
  {
  }

  lemma TwinsFinalizing(other: Status) returns (es: seq<Event>)
    requires IsOpen(other)
    ensures var s := TwinsAtRest(other);
            && SmoothRun(s, es)
            && Run(s, es) == Twins(other, Some(W), map[W := Worker([TwinEntry(other)], Finalizing(EntryIs(AccountDelete, Revoked)))], {W}, 1)
  {
    hide Enabled;
    hide Next;
    hide Alone;
    hide Run;
    hide Trace;
    hide AloneThroughout;
    hide EveryEvent;
    hide Check;
    hide Twins;
    var s, mine := TwinsAtRest(other), EntryIs(AccountDelete, Revoked);
    TwinsStart(other);
    RunNothing(s);
    TwinsSpawn(other);
    TwinsAreAlone(other, None, IDLE, 0);
    Lengthened(s, [], 1, Spawn(W));
    TwinsClaimed(other);
    TwinsAreAlone(other, Some(W), Worker([mine, TwinEntry(other)], Ready), 0);
    var e1 := [] + [Spawn(W)];
    Lengthened(s, e1, 1, Claim(W, {0, 1}, [0, 1]));
    TwinsBegin(other);
    TwinsAreAlone(other, Some(W), Worker([TwinEntry(other)], Finalizing(mine)), 1);
    var e2 := e1 + [Claim(W, {0, 1}, [0, 1])];
    Lengthened(s, e2, 1, Begin(W, Through(true, true)));
    es := e2 + [Begin(W, Through(true, true))];
  }

  lemma TwinsStray(other: Status) returns (es: seq<Event>)
    requires IsOpen(other)
    ensures var s := TwinsAtRest(other);
            && Init(s) && SmoothRun(s, es) && EndsAstray(s, es, 1)
            && 1 in Run(s, es).rows && Run(s, es).rows[1].action == AccountDelete
            && (other == Revoked ==> 1 in Run(s, es).revoked)
  {
    hide Enabled;
    hide Next;
    hide Alone;
    hide Strays;
    hide Expires;
    hide Init;
    hide Run;
    var s, last := TwinsAtRest(other), Finalize(W, true, true, true);
    TwinsStart(other);
    var front := TwinsFinalizing(other);
    TwinsFinalize(other);
    Lengthened(s, front, 1, last);
    es := front + [last];
    assert es[..|es| - 1] == front;
    RowsPersist(Run(s, front), last);
  }

  lemma RunNothing(s: System)
    ensures Trace(s, []) && Run(s, []) == s
  {
  }

  /** So the provider of the second row is called any number of times, with no write lost. */
  lemma SiblingCalledForEver(n: nat) returns (es: seq<Event>)
    ensures var s := TwinsAtRest(Pending);
            Init(s) && Tracked(s, 1) && SmoothRun(s, es) && CallsFor(Run(s, es).calls, 1) >= n
  {
    hide Run;
    hide EndsAstray;
    var front := TwinsStray(Pending);
    var more := StrayedRun(TwinsAtRest(Pending), front, 1, n);
    es := front + more;
  }

  /** And if it had been REVOKED before, it is called again although no write leaks. */
  lemma SiblingCalledAgain() returns (es: seq<Event>)
    ensures var s := TwinsAtRest(Revoked);
            Init(s) && SealedRun(s, es) && CalledAgain(Run(s, es))
  {
    hide Run;
    hide EndsAstray;
    var front := TwinsStray(Revoked);
    assert SealedRun(TwinsAtRest(Revoked), front);
    var more := StrayedIsCalledAgain(TwinsAtRest(Revoked), front, 1);
    es := front + more;
  }
}
