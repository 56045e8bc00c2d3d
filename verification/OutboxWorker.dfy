/** The worker of backend/internal/job/social_revocation_worker.go as it runs: its branches and
    local flags against a shared database, where other workers, the operator and the clock may
    act before every statement.  Each path through it is a run of the step system, so what is
    proved of runs holds of the program. */
module OutboxWorker {
  import opened Wrappers
  import opened Outbox
  import opened OutboxLeases

  datatype Error = NoError | ClaimExpired | Other

  /** The shared state, with the events that led to it. */
  class Database {
    var sys: System
    ghost const start: System
    ghost var log: seq<Event>

    constructor (s: System)
      requires Init(s)
      ensures Valid() && sys == s && log == []
    {
      sys, start, log := s, s, [];
    }

    ghost predicate Valid()
      reads this
    {
      Init(start) && Trace(start, log) && Run(start, log) == sys
    }

    /** The worker `w` is here, with these entries waiting. */
    predicate At(w: Token, queue: seq<Entry>, at: Point)
      reads this
    {
      w in sys.workers && sys.workers[w] == Worker(queue, at)
    }

    method Do(e: Event)
      requires Valid() && Enabled(sys, e)
      modifies this
      ensures Valid() && sys == Next(old(sys), e) && log == old(log) + [e]
    {
      hide Next;
      hide Enabled;
      ghost var more := log + [e];
      assert more[..|more| - 1] == log && more[|more| - 1] == e;
      sys := Next(sys, e);
      log := log + [e];
    }

    /** Anything the others do in the meantime; a crash of `w` itself ends its program, so it
        is not among them. */
    method Meanwhile(w: Token)
      requires Valid() && w in sys.workers
      modifies this
      ensures Valid() && w in sys.workers && sys.workers[w] == old(sys.workers[w])
      ensures old(log) <= log
    {
      var n: int := *;
      if n < 0 { n := 0; }
      for k := 0 to n
        invariant Valid() && w in sys.workers && sys.workers[w] == old(sys.workers[w])
        invariant old(log) <= log
      {
        var e: Event := *;
        if Enabled(sys, e) && Actor(e) != Some(w) && e != Spawn(w) && e != Crash(w) {
          OtherKeeps(sys, e, w);
          Do(e);
        }
      }
    }

    // ------------------------------------------------- repository methods

    method ClaimDue(w: Token) returns (entries: seq<Entry>)
      requires Valid() && At(w, [], Ready)
      modifies this
      ensures Valid() && At(w, entries, Ready) && old(log) <= log
    {
      Meanwhile(w);
      var ids: set<Id> := *;
      var batch: seq<Id> := *;
      if !Enabled(sys, Claim(w, ids, batch)) {
        ids, batch := {}, [];
      }
      entries := QueueAfter(sys, Claim(w, ids, batch));
      Do(Claim(w, ids, batch));
    }

    /** `RevokeClaimedSocialDisconnect`: the check under the row lock, the callback, and the
        commit. */
    method RevokeClaimedDisconnect(w: Token, entry: Entry, rest: seq<Entry>) returns (revoked: bool, err: Error, ghost early: bool)
      requires Valid() && At(w, [entry] + rest, Ready) && entry.action == Disconnect
      modifies this
      ensures Valid() && old(log) <= log
      ensures err == NoError ==> At(w, rest, Finalizing(entry))
      ensures err == ClaimExpired ==> At(w, rest, Ready)
      ensures err == Other ==> At(w, rest, Recording(entry, if revoked then Revoked else Pending, early))
    {
      hide Trace;
      hide Run;
      hide Init;
      hide Check;
      early := false;
      Meanwhile(w);
      var outcome: Outcome := *;
      assert ([entry] + rest)[0] == entry && ([entry] + rest)[1..] == rest;
      if !Enabled(sys, Begin(w, outcome)) { outcome := TxFailed; }
      var verdict := Check(sys, w, entry);
      Do(Begin(w, outcome));
      if outcome.TxFailed? {
        return false, Other, true;
      }
      match verdict {
        case Expired => return false, ClaimExpired, early;
        case AlreadyRevoked => return true, if outcome.acked then NoError else Other, early;
        case MayRevoke =>
          if !outcome.Through? { return false, Other, early; }
          return true, if outcome.acked then NoError else Other, early;
      }
    }

    /** An entry read as REVOKED goes straight to its finalization. */
    method SkipProvider(w: Token, entry: Entry, rest: seq<Entry>)
      requires Valid() && At(w, [entry] + rest, Ready) && entry.action != Disconnect && entry.status == Revoked
      modifies this
      ensures Valid() && old(log) <= log && At(w, rest, Finalizing(entry))
    {
      assert ([entry] + rest)[0] == entry && ([entry] + rest)[1..] == rest;
      Do(Begin(w, Through(true, true)));
    }

    /** The credential and the provider; nothing is written. */
    method CallProvider(w: Token, entry: Entry, rest: seq<Entry>) returns (err: Error)
      requires Valid() && At(w, [entry] + rest, Ready) && entry.action != Disconnect && entry.status != Revoked
      modifies this
      ensures Valid() && old(log) <= log && err != ClaimExpired
      ensures At(w, rest, if err == NoError then Checkpoint(entry) else Recording(entry, Pending, false))
      ensures log != [] && log[|log| - 1].Begin? && log[|log| - 1].w == w && (err == NoError <==> log[|log| - 1].outcome.Through?)
      ensures err == NoError ==> sys.calls != [] && sys.calls[|sys.calls| - 1].worker == w && sys.calls[|sys.calls| - 1].entry == entry
    {
      Meanwhile(w);
      assert ([entry] + rest)[0] == entry && ([entry] + rest)[1..] == rest;
      RunIsWellFormed(start, log);
      FirstIsThere(sys, w);
      var outcome: Outcome := *;
      if !Enabled(sys, Begin(w, outcome)) { outcome := Refused; }
      Do(Begin(w, outcome));
      return if outcome.Through? then NoError else Other;
    }

    method MarkRevokedRow(w: Token, entry: Entry, rest: seq<Entry>) returns (err: Error)
      requires Valid() && At(w, rest, Checkpoint(entry))
      modifies this
      ensures Valid() && old(log) <= log && err != ClaimExpired
      ensures At(w, rest, if err == NoError then Finalizing(entry) else Recording(entry, Revoked, false))
    {
      Meanwhile(w);
      var written: bool := *;
      var acked: bool := *;
      Do(MarkRevoked(w, written || acked, acked));
      return if acked then NoError else Other;
    }

    method FinalizeRow(w: Token, entry: Entry, rest: seq<Entry>) returns (err: Error)
      requires Valid() && At(w, rest, Finalizing(entry))
      modifies this
      ensures Valid() && old(log) <= log
      ensures err == NoError ==> At(w, rest, Releasing(entry))
      ensures err == ClaimExpired ==> At(w, rest, Ready)
      ensures err == Other ==> At(w, rest, Recording(entry, Revoked, false))
    {
      hide Trace;
      hide Run;
      hide Init;
      hide Check;
      Meanwhile(w);
      var reached: bool := *;
      var written: bool := *;
      var acked: bool := *;
      var e := Finalize(w, reached || written || acked, written || acked, acked);
      var passes := Finishes(sys, w);
      Do(e);
      if entry.action == Unsupported || !e.reached { return Other; }
      if !passes { return ClaimExpired; }
      return if acked then NoError else Other;
    }

    method MarkSucceededRow(w: Token, entry: Entry, rest: seq<Entry>) returns (err: Error)
      requires Valid() && At(w, rest, Releasing(entry))
      modifies this
      ensures Valid() && old(log) <= log && At(w, rest, Ready)
    {
      Meanwhile(w);
      var written: bool := *;
      Do(Release(w, written));
      return if written then NoError else Other;
    }

    method MarkFailedRow(w: Token, entry: Entry, retry: Status, ghost early: bool, rest: seq<Entry>) returns (err: Error)
      requires Valid() && At(w, rest, Recording(entry, retry, early))
      modifies this
      ensures Valid() && old(log) <= log && At(w, rest, Ready)
    {
      Meanwhile(w);
      var written: bool := *;
      Do(Record(w, written));
      return if written then NoError else Other;
    }
  }

  lemma FirstIsThere(s: System, w: Token)
    requires WellFormed(s) && w in s.workers && s.workers[w].at == Ready && s.workers[w].queue != []
    ensures s.workers[w].queue[0].id in s.rows
  {
    assert InHand(s.workers[w])[0] == s.workers[w].queue[0];
    assert WorkerOk(s, w, s.workers[w]);
  }

  lemma OtherKeeps(s: System, e: Event, w: Token)
    requires Enabled(s, e) && w in s.workers && Actor(e) != Some(w) && e != Spawn(w) && e != Crash(w)
    ensures w in Next(s, e).workers && Next(s, e).workers[w] == s.workers[w]
  {
  }

  // ---------------------------------------------------------- the worker

  class SocialRevocationWorker {
    const db: Database
    const claimToken: Token

    constructor (database: Database, token: Token)
      requires database.Valid() && token !in database.sys.used
      modifies database
      ensures db == database && claimToken == token && db.Valid() && db.At(claimToken, [], Ready)
    {
      db, claimToken := database, token;
      new;
      database.Do(Spawn(token));
    }

    method RecordFailure(entry: Entry, retry: Status, ghost early: bool, rest: seq<Entry>)
      requires db.Valid() && db.At(claimToken, rest, Recording(entry, retry, early))
      modifies db
      ensures db.Valid() && db.At(claimToken, rest, Ready) && old(db.log) <= db.log
    {
      var err := db.MarkFailedRow(claimToken, entry, retry, early, rest);
    }

    /** Whatever the provider and the database answer, the entry is done with and every
        statement on the way was one the step system allows at that point. */
    method ProcessEntry(entry: Entry, rest: seq<Entry>)
      requires db.Valid() && db.At(claimToken, [entry] + rest, Ready)
      modifies db
      ensures db.Valid() && db.At(claimToken, rest, Ready) && old(db.log) <= db.log
    {
      hide Trace;
      hide Run;
      hide Init;
      var alreadyRevoked := entry.status == Revoked;
      if entry.action == Disconnect {
        var revoked, err;
        ghost var early;
        revoked, err, early := db.RevokeClaimedDisconnect(claimToken, entry, rest);
        if err == ClaimExpired { return; }
        if err != NoError {
          var retry := Pending;
          if revoked { retry := Revoked; }
          RecordFailure(entry, retry, early, rest);
          return;
        }
        alreadyRevoked := true;
      } else if alreadyRevoked {
        db.SkipProvider(claimToken, entry, rest);
      }
      if !alreadyRevoked {
        var err := db.CallProvider(claimToken, entry, rest);
        if err != NoError {
          RecordFailure(entry, Pending, false, rest);
          return;
        }
        err := db.MarkRevokedRow(claimToken, entry, rest);
        if err != NoError {
          RecordFailure(entry, Revoked, false, rest);
          return;
        }
      }
      var err := db.FinalizeRow(claimToken, entry, rest);
      if err != NoError {
        if err == ClaimExpired { return; }
        RecordFailure(entry, Revoked, false, rest);
        return;
      }
      err := db.MarkSucceededRow(claimToken, entry, rest);
    }

    method ProcessDue()
      requires db.Valid() && db.At(claimToken, [], Ready)
      modifies db
      ensures db.Valid() && db.At(claimToken, [], Ready) && old(db.log) <= db.log
      ensures WellFormed(db.sys) && forall c :: c in db.sys.calls ==> HeldCall(c)
    {
      hide Trace;
      hide Run;
      hide Init;
      var entries := db.ClaimDue(claimToken);
      for k := 0 to |entries|
        invariant db.Valid() && db.At(claimToken, entries[k..], Ready) && old(db.log) <= db.log
      {
        assert entries[k..] == [entries[k]] + entries[k + 1..];
        ProcessEntry(entries[k], entries[k + 1..]);
      }
      CallsAreHeld(db.start, db.log);
      RunIsWellFormed(db.start, db.log);
    }
  }
}
