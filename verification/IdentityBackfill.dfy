/** The audited run around the canonical inserts: one transaction, a run row and a journal
    (backend/cmd/backfill/identity_backfill.go and identity_update.go).

    Any statement may fail; one that reports an error outside the transaction may still have
    taken effect.  A process that dies is the case in which every later statement fails
    without effect.  Nothing else writes these tables during a run.
  */
module IdentityBackfill {
  import opened Wrappers
  import opened IdentityTransform
  import opened IdentityTables

  type RunId = string

  datatype RunStatus = Applying | Applied | RunFailed
  datatype FailureCode = SourceConflicts | ExecutionFailed

  /** The fingerprint is a digest of the member count and the largest account number. */
  datatype Run = Run(status: RunStatus, fingerprint: (nat, int), conflicts: nat, failure: Option<FailureCode>)

  datatype StepKey = AccountStates | PasswordIdentities | SocialIdentities
  datatype StepStatus = Started | StepApplied

  datatype Store = Store(tables: Tables, runs: map<RunId, Run>, journal: map<(RunId, StepKey), StepStatus>)

  datatype Write = Inserted | DuplicateKey | Broken

  datatype Error = NoRunRow | NoTransaction | ExecutionError | RollbackError | Unmarked | Conflicts(count: nat) | CommitUnknown

  // ------------------------------------------------------------ statements

  function WithRun(s: Store, run: RunId, fingerprint: (nat, int)): Store {
    s.(runs := s.runs[run := Run(Applying, fingerprint, 0, None)])
  }

  /** Both final updates name the status they start from, so a run that is no longer APPLYING
      stays as it is. */
  predicate IsApplying(s: Store, run: RunId) {
    run in s.runs && s.runs[run].status == Applying
  }

  function MarkedApplied(s: Store, run: RunId, fingerprint: (nat, int)): Store {
    if IsApplying(s, run) then s.(runs := s.runs[run := Run(Applied, fingerprint, 0, None)]) else s
  }

  function MarkedFailed(s: Store, run: RunId, conflicts: nat, code: FailureCode): Store {
    if IsApplying(s, run) then s.(runs := s.runs[run := s.runs[run].(status := RunFailed, conflicts := conflicts, failure := Some(code))]) else s
  }

  function StepStarted(s: Store, run: RunId, key: StepKey): Store {
    s.(journal := s.journal[(run, key) := Started])
  }

  function StepDone(s: Store, run: RunId, key: StepKey): Store {
    if (run, key) in s.journal && s.journal[(run, key)] == Started then s.(journal := s.journal[(run, key) := StepApplied]) else s
  }

  class Database {
    /** What is committed, what the open transaction sees, and the identity counter, which no
        rollback turns back. */
    var store: Store
    var tx: Option<Store>
    var nextId: nat

    constructor (tables: Tables, next: nat)
      requires Consistent(tables, next)
      ensures store == Store(tables, map[], map[]) && tx == None && nextId == next && Ok()
    {
      store, tx, nextId := Store(tables, map[], map[]), None, next;
    }

    ghost predicate Ok()
      reads this
    {
      Consistent(store.tables, nextId)
    }

    /** What the next statement sees. */
    function View(): Store
      reads this
    {
      if tx.Some? then tx.value else store
    }

    method SetView(s: Store)
      modifies this
      ensures View() == s && tx.Some? == old(tx.Some?) && nextId == old(nextId)
      ensures tx.Some? ==> store == old(store)
    {
      if tx.Some? { tx := Some(s); } else { store := s; }
    }

    method Begin() returns (ok: bool)
      requires tx == None
      modifies this
      ensures store == old(store) && nextId == old(nextId)
      ensures tx == if ok then Some(store) else None
    {
      ok := *;
      if ok { tx := Some(store); }
    }

    /** A rollback that reports an error has dropped its connection, and the server discards
        the transaction all the same. */
    method Rollback() returns (ok: bool)
      modifies this
      ensures store == old(store) && nextId == old(nextId) && tx == None
    {
      tx := None;
      ok := *;
    }

    method Commit() returns (ok: bool)
      requires tx.Some?
      modifies this
      ensures nextId == old(nextId) && tx == None
      ensures store == old(tx).value || (!ok && store == old(store))
    {
      ok := *;
      var written: bool := *;
      if ok || written { store := tx.value; }
      tx := None;
    }

    method InsertRun(run: RunId, fingerprint: (nat, int)) returns (ok: bool)
      modifies this
      ensures tx.Some? == old(tx.Some?) && nextId == old(nextId) && (tx.Some? ==> store == old(store))
      ensures View() == old(View()) || (run !in old(View()).runs && View() == WithRun(old(View()), run, fingerprint))
      ensures ok ==> run !in old(View()).runs && View() == WithRun(old(View()), run, fingerprint)
    {
      ok := *;
      var written: bool := *;
      if run in View().runs {
        ok := false;
      } else if ok || written {
        SetView(WithRun(View(), run, fingerprint));
      }
    }

    method MarkApplied(run: RunId, fingerprint: (nat, int)) returns (ok: bool)
      modifies this
      ensures tx.Some? == old(tx.Some?) && nextId == old(nextId) && (tx.Some? ==> store == old(store))
      ensures View() == old(View()) || View() == MarkedApplied(old(View()), run, fingerprint)
      ensures ok ==> IsApplying(old(View()), run) && View() == MarkedApplied(old(View()), run, fingerprint)
    {
      ok := *;
      var written: bool := *;
      if !IsApplying(View(), run) {
        ok := false;
      } else if ok || written {
        SetView(MarkedApplied(View(), run, fingerprint));
      }
    }

    method MarkFailed(run: RunId, conflicts: nat, code: FailureCode) returns (ok: bool)
      modifies this
      ensures tx.Some? == old(tx.Some?) && nextId == old(nextId) && (tx.Some? ==> store == old(store))
      ensures View() == old(View()) || View() == MarkedFailed(old(View()), run, conflicts, code)
      ensures ok ==> IsApplying(old(View()), run) && View() == MarkedFailed(old(View()), run, conflicts, code)
    {
      ok := *;
      var written: bool := *;
      if !IsApplying(View(), run) {
        ok := false;
      } else if ok || written {
        SetView(MarkedFailed(View(), run, conflicts, code));
      }
    }

    method StartStep(run: RunId, key: StepKey) returns (ok: bool)
      requires tx.Some?
      modifies this
      ensures tx.Some? && store == old(store) && nextId == old(nextId)
      ensures ok ==> (run, key) !in old(tx).value.journal && tx.value == StepStarted(old(tx).value, run, key)
    {
      ok := *;
      if (run, key) in tx.value.journal {
        ok := false;
      } else if ok {
        tx := Some(StepStarted(tx.value, run, key));
      }
    }

    method ApplyStep(run: RunId, key: StepKey) returns (ok: bool)
      requires tx.Some?
      modifies this
      ensures tx.Some? && store == old(store) && nextId == old(nextId)
      ensures ok ==> tx.value == StepDone(old(tx).value, run, key)
    {
      ok := *;
      if (run, key) !in tx.value.journal || tx.value.journal[(run, key)] != Started {
        ok := false;
      } else if ok {
        tx := Some(StepDone(tx.value, run, key));
      }
    }

    method InsertAccountState(m: Member) returns (r: Write)
      requires tx.Some?
      modifies this
      ensures tx.Some? && store == old(store) && nextId == old(nextId)
      ensures r == DuplicateKey ==> m.account in old(tx).value.tables.states && tx == old(tx)
      ensures var t := old(tx).value;
              r == Inserted ==>
                && m.account !in t.tables.states
                && tx.value == t.(tables := t.tables.(states := t.tables.states[m.account := MapAccountStatus(m.status)]))
    {
      var broken: bool := *;
      var t := tx.value;
      if broken { return Broken; }
      if m.account in t.tables.states { return DuplicateKey; }
      tx := Some(t.(tables := t.tables.(states := t.tables.states[m.account := MapAccountStatus(m.status)])));
      return Inserted;
    }

    /** An identity row takes the next number; a refused one uses it up as well. */
    method InsertIdentity(account: int, provider: Provider, subject: string, email: Option<string>, status: IdentityStatus, verified: bool)
      returns (r: Write, id: nat)
      requires tx.Some?
      modifies this
      ensures tx.Some? && store == old(store) && nextId >= old(nextId)
      ensures r == DuplicateKey ==>
                Duplicate(old(tx).value.tables.identities, provider, subject, email) && tx == old(tx) && nextId == old(nextId) + 1
      ensures var t := old(tx).value;
              r == Inserted ==>
                && !Duplicate(t.tables.identities, provider, subject, email) && nextId == old(nextId) + 1 && id == old(nextId)
                && tx.value == t.(tables := t.tables.(identities := t.tables.identities + [Identity(id, account, provider, subject, email, status, verified)]))
    {
      var broken: bool := *;
      var t := tx.value;
      id := nextId;
      if broken { return Broken, id; }
      nextId := nextId + 1;
      if Duplicate(t.tables.identities, provider, subject, email) { return DuplicateKey, id; }
      tx := Some(t.(tables := t.tables.(identities := t.tables.identities + [Identity(id, account, provider, subject, email, status, verified)])));
      return Inserted, id;
    }

    method InsertCredential(id: nat, hash: string) returns (r: Write)
      requires tx.Some?
      modifies this
      ensures tx.Some? && store == old(store) && nextId == old(nextId)
      ensures r == DuplicateKey ==> id in old(tx).value.tables.credentials && tx == old(tx)
      ensures var t := old(tx).value;
              r == Inserted ==>
                && id !in t.tables.credentials
                && tx.value == t.(tables := t.tables.(credentials := t.tables.credentials[id := hash]))
    {
      var broken: bool := *;
      var t := tx.value;
      if broken { return Broken; }
      if id in t.tables.credentials { return DuplicateKey; }
      tx := Some(t.(tables := t.tables.(credentials := t.tables.credentials[id := hash])));
      return Inserted;
    }
  }

  // -------------------------------------------------------- the three loops

  /** The transaction's view as the specification's progress. */
  ghost function At(db: Database, stats: Stats): Progress
    reads db
    requires db.tx.Some?
  {
    Progress(db.tx.value.tables, db.nextId, stats)
  }

  function Counted(stats: Stats): Stats {
    stats.(conflicts := stats.conflicts + 1)
  }

  lemma PrefixStep<T>(s: seq<T>, k: nat)
    requires k < |s|
    ensures s[..k + 1][..k] == s[..k] && s[..k + 1][k] == s[k]
  {
  }

  method BackfillAccountStates(db: Database, run: RunId, members: seq<Member>, before: Stats) returns (stats: Stats, ok: bool)
    requires db.tx.Some?
    modifies db
    ensures db.tx.Some? && db.store == old(db.store) && db.nextId >= old(db.nextId)
    ensures ok ==> At(db, stats) == AfterAccounts(old(At(db, before)), members)
    ensures ok ==> (run, AccountStates) !in old(db.tx).value.journal
    ensures ok ==> db.tx.value.runs == old(db.tx).value.runs && db.tx.value.journal == old(db.tx).value.journal[(run, AccountStates) := StepApplied]
  {
    stats := before;
    ok := db.StartStep(run, AccountStates);
    if !ok { return; }
    for k := 0 to |members|
      invariant db.tx.Some? && db.store == old(db.store) && db.nextId >= old(db.nextId)
      invariant At(db, stats) == AfterAccounts(old(At(db, before)), members[..k])
      invariant db.tx.value.runs == old(db.tx).value.runs && db.tx.value.journal == old(db.tx).value.journal[(run, AccountStates) := Started]
    {
      PrefixStep(members, k);
      var r := db.InsertAccountState(members[k]);
      match r {
        case DuplicateKey => stats := Counted(stats);
        case Broken => ok := false; return;
        case Inserted => stats := stats.(states := stats.states + 1);
      }
    }
    assert members[..|members|] == members;
    ok := db.ApplyStep(run, AccountStates);
  }

  method BackfillPassword(db: Database, m: Member, before: Stats) returns (stats: Stats, ok: bool)
    requires db.tx.Some?
    modifies db
    ensures db.tx.Some? && db.store == old(db.store) && db.nextId >= old(db.nextId)
    ensures ok ==> At(db, stats) == PasswordStep(old(At(db, before)), m)
    ensures ok ==> db.tx.value.runs == old(db.tx).value.runs && db.tx.value.journal == old(db.tx).value.journal
  {
    hide MapAccountStatus;
    hide HasPassword;
    hide IsKey;
    hide IsNativeHash;
    hide NormalizedEmail;
    hide IsValidEmail;
    hide Duplicate;
    stats, ok := before, true;
    if MapAccountStatus(m.status).status == Withdrawn { return; }
    if !HasPassword(m.hash) { return; }
    var validName := IsValidIdentityKey(m.username);
    if !validName { stats := Counted(stats); return; }
    if !IsNativeHash(m.hash) { stats := Counted(stats); return; }
    var email := NormalizedEmail(m.email);
    if !IsValidEmail(email) { stats := Counted(stats); return; }
    var r, id := db.InsertIdentity(m.account, LocalUsername, m.username, email, Enabled, true);
    if r == DuplicateKey { stats := Counted(stats); return; }
    if r == Broken { ok := false; return; }
    stats := stats.(identities := stats.identities + 1);
    r := db.InsertCredential(id, m.hash);
    if r == DuplicateKey { stats := Counted(stats); return; }
    if r == Broken { ok := false; return; }
    stats := stats.(credentials := stats.credentials + 1);
  }

  method BackfillPasswordIdentities(db: Database, run: RunId, members: seq<Member>, before: Stats) returns (stats: Stats, ok: bool)
    requires db.tx.Some?
    modifies db
    ensures db.tx.Some? && db.store == old(db.store) && db.nextId >= old(db.nextId)
    ensures ok ==> At(db, stats) == AfterPasswords(old(At(db, before)), members)
    ensures ok ==> db.tx.value.runs == old(db.tx).value.runs && db.tx.value.journal == old(db.tx).value.journal[(run, PasswordIdentities) := StepApplied]
  {
    stats := before;
    ok := db.StartStep(run, PasswordIdentities);
    if !ok { return; }
    for k := 0 to |members|
      invariant db.tx.Some? && db.store == old(db.store) && db.nextId >= old(db.nextId)
      invariant At(db, stats) == AfterPasswords(old(At(db, before)), members[..k])
      invariant db.tx.value.runs == old(db.tx).value.runs && db.tx.value.journal == old(db.tx).value.journal[(run, PasswordIdentities) := Started]
    {
      PrefixStep(members, k);
      stats, ok := BackfillPassword(db, members[k], stats);
      if !ok { return; }
    }
    assert members[..|members|] == members;
    ok := db.ApplyStep(run, PasswordIdentities);
  }

  method BackfillLink(db: Database, accounts: set<int>, l: SocialLink, before: Stats) returns (stats: Stats, ok: bool)
    requires db.tx.Some?
    modifies db
    ensures db.tx.Some? && db.store == old(db.store) && db.nextId >= old(db.nextId)
    ensures ok ==> At(db, stats) == LinkStep(accounts, old(At(db, before)), l)
    ensures ok ==> db.tx.value.runs == old(db.tx).value.runs && db.tx.value.journal == old(db.tx).value.journal
  {
    hide MapProvider;
    hide MapSocialStatus;
    hide IsKey;
    hide Duplicate;
    stats, ok := before, true;
    if l.account !in accounts { stats := Counted(stats); return; }
    var provider := MapProvider(l.gate);
    if provider.None? { stats := Counted(stats); return; }
    var validSubject := IsValidIdentityKey(l.subject);
    if !validSubject { stats := Counted(stats); return; }
    var status := MapSocialStatus(l.status);
    if status.None? { stats := Counted(stats); return; }
    var r, id := db.InsertIdentity(l.account, provider.value, l.subject, None, status.value, false);
    if r == DuplicateKey { stats := Counted(stats); return; }
    if r == Broken { ok := false; return; }
    stats := stats.(social := stats.social + 1);
  }

  method BackfillSocialIdentities(db: Database, run: RunId, members: seq<Member>, links: seq<SocialLink>, before: Stats)
    returns (stats: Stats, ok: bool)
    requires db.tx.Some?
    modifies db
    ensures db.tx.Some? && db.store == old(db.store) && db.nextId >= old(db.nextId)
    ensures ok ==> At(db, stats) == AfterLinks(Accounts(members), old(At(db, before)), links)
    ensures ok ==> db.tx.value.runs == old(db.tx).value.runs && db.tx.value.journal == old(db.tx).value.journal[(run, SocialIdentities) := StepApplied]
  {
    stats := before;
    ok := db.StartStep(run, SocialIdentities);
    if !ok { return; }
    var accounts := Accounts(members);
    for k := 0 to |links|
      invariant db.tx.Some? && db.store == old(db.store) && db.nextId >= old(db.nextId)
      invariant At(db, stats) == AfterLinks(accounts, old(At(db, before)), links[..k])
      invariant db.tx.value.runs == old(db.tx).value.runs && db.tx.value.journal == old(db.tx).value.journal[(run, SocialIdentities) := Started]
    {
      PrefixStep(links, k);
      stats, ok := BackfillLink(db, accounts, links[k], stats);
      if !ok { return; }
    }
    assert links[..|links|] == links;
    ok := db.ApplyStep(run, SocialIdentities);
  }

  /** The journal with the three steps of a run applied. */
  function Journaled(journal: map<(RunId, StepKey), StepStatus>, run: RunId): map<(RunId, StepKey), StepStatus> {
    journal[(run, AccountStates) := StepApplied][(run, PasswordIdentities) := StepApplied][(run, SocialIdentities) := StepApplied]
  }

  method ExecuteBackfill(db: Database, run: RunId, src: Source) returns (stats: Stats, ok: bool)
    requires db.tx.Some?
    modifies db
    ensures db.tx.Some? && db.store == old(db.store) && db.nextId >= old(db.nextId)
    ensures ok ==> At(db, stats) == Execute(old(db.tx).value.tables, old(db.nextId), src)
    ensures ok ==> db.tx.value.runs == old(db.tx).value.runs && db.tx.value.journal == Journaled(old(db.tx).value.journal, run)
  {
    stats := Start(db.tx.value.tables, db.nextId, src).stats;
    stats, ok := BackfillAccountStates(db, run, src.members, stats);
    if !ok { return; }
    stats, ok := BackfillPasswordIdentities(db, run, src.members, stats);
    if !ok { return; }
    stats, ok := BackfillSocialIdentities(db, run, src.members, src.links, stats);
  }

  // ------------------------------------------------------- the two entries

  predicate SaysApplied(s: Store, run: RunId) {
    run in s.runs && s.runs[run].status == Applied
  }

  /** What one apply may do to what is committed: an existing run row is left alone; a run
      that came to be APPLIED found no conflict, put in exactly what the three loops
      specify and journaled its steps; any other leaves the canonical rows as they were. */
  ghost predicate ApplyEffect(s: Store, nextId: nat, run: RunId, src: Source, s': Store, nextId': nat) {
    && nextId <= nextId'
    && (forall r :: r in s.runs ==> r in s'.runs && s'.runs[r] == s.runs[r])
    && (forall r :: r in s'.runs && r !in s.runs ==> r == run)
    && (run !in s.runs && SaysApplied(s', run) ==>
          && Execute(s.tables, nextId, src).stats.conflicts == 0
          && Progress(s'.tables, nextId', Execute(s.tables, nextId, src).stats) == Execute(s.tables, nextId, src)
          && s'.journal == Journaled(s.journal, run))
    && (!(run !in s.runs && SaysApplied(s', run)) ==> s'.tables == s.tables && s'.journal == s.journal)
  }

  method FailRun(db: Database, run: RunId, conflicts: nat) returns (ok: bool)
    requires db.tx == None
    modifies db
    ensures db.tx == None && db.nextId == old(db.nextId)
    ensures db.store == old(db.store) || db.store == MarkedFailed(old(db.store), run, conflicts, ExecutionFailed)
  {
    ok := db.MarkFailed(run, conflicts, ExecutionFailed);
  }

  lemma EffectIsConsistent(s: Store, nextId: nat, run: RunId, src: Source, s': Store, nextId': nat)
    requires Consistent(s.tables, nextId) && ApplyEffect(s, nextId, run, src, s', nextId')
    ensures Consistent(s'.tables, nextId')
  {
    hide Execute;
    hide Consistent;
    CountersAddUp(s.tables, nextId, src);
    ConsistentLater(s.tables, nextId, nextId');
  }

  lemma ConsistentLater(t: Tables, nextId: nat, nextId': nat)
    requires Consistent(t, nextId) && nextId <= nextId'
    ensures Consistent(t, nextId')
  {
  }

  lemma UnappliedEffect(s: Store, nextId: nat, run: RunId, src: Source, fp: (nat, int), conflicts: nat, code: FailureCode, s': Store, nextId': nat)
    requires nextId <= nextId'
    requires s' == s || (run !in s.runs && (s' == WithRun(s, run, fp) || s' == MarkedFailed(WithRun(s, run, fp), run, conflicts, code)))
    requires Consistent(s.tables, nextId)
    ensures ApplyEffect(s, nextId, run, src, s', nextId') && Consistent(s'.tables, nextId')
    ensures !(run !in s.runs && SaysApplied(s', run))
  {
    hide Execute;
    hide Consistent;
    ConsistentLater(s.tables, nextId, nextId');
  }

  lemma AppliedEffect(s: Store, nextId: nat, run: RunId, src: Source, fp: (nat, int), s': Store)
    requires run !in s.runs && Execute(s.tables, nextId, src).stats.conflicts == 0
    requires var q := Execute(s.tables, nextId, src);
             && nextId <= q.nextId
             && s' == MarkedApplied(WithRun(s, run, fp).(tables := q.tables, journal := Journaled(s.journal, run)), run, fp)
    requires Consistent(s.tables, nextId)
    ensures ApplyEffect(s, nextId, run, src, s', Execute(s.tables, nextId, src).nextId)
    ensures SaysApplied(s', run) && Consistent(s'.tables, Execute(s.tables, nextId, src).nextId)
  {
    hide Execute;
    hide Consistent;
    hide Journaled;
    hide Holders;
    CountersAddUp(s.tables, nextId, src);
  }

  /** The run row tells of the conflicts and nothing was applied. */
  predicate SaysConflicts(s: Store, run: RunId, count: nat) {
    run in s.runs && s.runs[run].status == RunFailed && s.runs[run].conflicts == count && s.runs[run].failure == Some(SourceConflicts)
  }

  method Apply(db: Database, run: RunId, src: Source) returns (stats: Stats, err: Option<Error>)
    requires db.Ok() && db.tx == None
    modifies db
    ensures db.Ok() && db.tx == None && ApplyEffect(old(db.store), old(db.nextId), run, src, db.store, db.nextId)
    ensures run !in old(db.store).runs && SaysApplied(db.store, run) ==> err == None || err == Some(CommitUnknown)
    ensures err == None ==> run !in old(db.store).runs && SaysApplied(db.store, run)
    ensures err == None || err.value.Conflicts? ==> stats == Execute(old(db.store).tables, old(db.nextId), src).stats
    ensures err.Some? && err.value.Conflicts? ==> err.value.count == stats.conflicts > 0 && SaysConflicts(db.store, run, stats.conflicts)
  {
    hide Execute;
    hide Consistent;
    hide ApplyEffect;
    hide Journaled;
    ghost var s, n := db.store, db.nextId;
    stats := Start(db.store.tables, db.nextId, Source([], [])).stats;
    var count, maxAccount := SourceSummary(src.members);
    var fp := (count, maxAccount);
    var ok := db.InsertRun(run, fp);
    if !ok {
      UnappliedEffect(s, n, run, src, fp, 0, ExecutionFailed, db.store, db.nextId);
      return stats, Some(NoRunRow);
    }
    ok := db.Begin();
    if !ok {
      ok := FailRun(db, run, 0);
      UnappliedEffect(s, n, run, src, fp, 0, ExecutionFailed, db.store, db.nextId);
      return stats, Some(NoTransaction);
    }
    stats, ok := ExecuteBackfill(db, run, src);
    if !ok {
      ok := db.Rollback();
      ok := FailRun(db, run, stats.conflicts);
      UnappliedEffect(s, n, run, src, fp, stats.conflicts, ExecutionFailed, db.store, db.nextId);
      return stats, Some(ExecutionError);
    }
    if stats.conflicts > 0 {
      ok := db.Rollback();
      if !ok {
        UnappliedEffect(s, n, run, src, fp, 0, SourceConflicts, db.store, db.nextId);
        return stats, Some(RollbackError);
      }
      ok := db.MarkFailed(run, stats.conflicts, SourceConflicts);
      UnappliedEffect(s, n, run, src, fp, stats.conflicts, SourceConflicts, db.store, db.nextId);
      return stats, Some(if ok then Conflicts(stats.conflicts) else Unmarked);
    }
    ok := db.MarkApplied(run, fp);
    if !ok {
      ok := db.Rollback();
      ok := FailRun(db, run, 0);
      UnappliedEffect(s, n, run, src, fp, 0, ExecutionFailed, db.store, db.nextId);
      return stats, Some(ExecutionError);
    }
    AppliedEffect(s, n, run, src, fp, db.tx.value);
    UnappliedEffect(s, n, run, src, fp, 0, ExecutionFailed, db.store, db.nextId);
    ok := db.Commit();
    return stats, if ok then None else Some(CommitUnknown);
  }

  /** A dry run leaves everything committed as it was and, when it gets to the end, reports
      the figures of an apply.  The identity numbers it used are not given back. */
  method DryRun(db: Database, run: RunId, src: Source) returns (stats: Stats, err: Option<Error>)
    requires db.Ok() && db.tx == None
    modifies db
    ensures db.tx == None && db.store == old(db.store) && db.nextId >= old(db.nextId)
    ensures err == None || (err.value.Conflicts? && err.value.count == stats.conflicts > 0) ==>
              && stats == Execute(db.store.tables, old(db.nextId), src).stats
              && db.nextId == Execute(db.store.tables, old(db.nextId), src).nextId
    ensures err == None ==> stats.conflicts == 0
  {
    hide Execute;
    hide Consistent;
    stats := Start(db.store.tables, db.nextId, Source([], [])).stats;
    var ok := db.Begin();
    if !ok { return stats, Some(NoTransaction); }
    var count, maxAccount := SourceSummary(src.members);
    ok := db.InsertRun(run, (count, maxAccount));
    if !ok {
      ok := db.Rollback();
      return stats, Some(NoRunRow);
    }
    stats, ok := ExecuteBackfill(db, run, src);
    if !ok {
      ok := db.Rollback();
      return stats, Some(ExecutionError);
    }
    ok := db.Rollback();
    if !ok { return stats, Some(RollbackError); }
    return stats, if stats.conflicts > 0 then Some(Conflicts(stats.conflicts)) else None;
  }
}
