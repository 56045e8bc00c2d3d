/** Weekly backups and the daily prune, deploy/backup_rotation.py.

    A directory listing is a map from names to entries.  The time written in a name, when
    there is one, is read by `at`; otherwise the modification time counts.  File contents stand
    for their own checksums.  Every command may fail; a failing removal may already have deleted
    part of a directory.
  */
module BackupRotation {
  import opened Wrappers

  const DAY := 86_400
  const RETENTION := 28 * DAY
  const DUMP := "database.sql.gz"
  const CHECKSUMS := "data-checksums.json"

  datatype Content = Bytes(data: seq<int>) | Sums(sums: map<string, Content>)
  datatype Entry = Dir(mtime: int, files: map<string, Content>) | File(mtime: int)

  /** A file the prune looks at only by name and age. */
  datatype Aged = Aged(mtime: int, expires: bool)

  /** BACKUP_ROOT, and the release data, legacy dumps and logs the prune also covers.
      `expires` says that the name (or the file type) makes the retention period apply. */
  datatype Store = Store(backups: map<string, Entry>, releases: map<string, Aged>, dumps: map<string, Aged>, logs: map<string, Aged>)

  type Clock = string -> Option<int>

  function CreatedAt(at: Clock, name: string, entry: Entry): int {
    match at(name) case Some(t) => t case None => entry.mtime
  }

  predicate HasSuffix(name: string, suffix: string) {
    |name| >= |suffix| && name[|name| - |suffix|..] == suffix
  }

  predicate IsPartial(name: string) {
    HasSuffix(name, ".partial")
  }

  predicate IsComplete(name: string, entry: Entry) {
    entry.Dir? && !IsPartial(name) && DUMP in entry.files
  }

  function Complete(backups: map<string, Entry>): set<string> {
    set n | n in backups && IsComplete(n, backups[n])
  }

  /** A complete backup with the latest time; with equal times the listing order decides. */
  predicate IsNewest(at: Clock, backups: map<string, Entry>, n: string) {
    n in Complete(backups) &&
    forall m :: m in Complete(backups) ==> CreatedAt(at, m, backups[m]) <= CreatedAt(at, n, backups[n])
  }

  // ------------------------------------------------------------- pruning

  function Doomed(at: Clock, backups: map<string, Entry>, newest: Option<string>, now: int): (names: set<string>)
  {
    set n | n in backups &&
      if IsPartial(n) then CreatedAt(at, n, backups[n]) < now - DAY
      else IsComplete(n, backups[n]) && Some(n) != newest && CreatedAt(at, n, backups[n]) < now - RETENTION
  }

  function Expired(files: map<string, Aged>, now: int): set<string> {
    set n | n in files && files[n].expires && files[n].mtime < now - RETENTION
  }

  function Kept<T>(entries: map<string, T>, gone: set<string>): map<string, T> {
    map n | n in entries && n !in gone :: entries[n]
  }

  predicate NewestChoice(at: Clock, backups: map<string, Entry>, newest: Option<string>) {
    match newest
    case Some(n) => IsNewest(at, backups, n)
    case None => Complete(backups) == {}
  }

  function Pruned(at: Clock, s: Store, newest: Option<string>, now: int): Store {
    Store(Kept(s.backups, Doomed(at, s.backups, newest, now)), Kept(s.releases, Expired(s.releases, now)),
          Kept(s.dumps, Expired(s.dumps, now)), Kept(s.logs, Expired(s.logs, now)))
  }

  /** A prune that ran to its end. */
  ghost predicate PruneDone(at: Clock, s: Store, s': Store, now: int) {
    exists newest :: NewestChoice(at, s.backups, newest) && s' == Pruned(at, s, newest, now)
  }

  /** A prune that may have stopped anywhere: only doomed entries can differ. */
  ghost predicate PruneStopped(at: Clock, s: Store, s': Store, now: int) {
    exists newest :: NewestChoice(at, s.backups, newest) && OnlyDoomedChanged(at, s.backups, s'.backups, newest, now)
  }

  ghost predicate OnlyDoomedChanged(at: Clock, b: map<string, Entry>, b': map<string, Entry>, newest: Option<string>, now: int) {
    && b'.Keys <= b.Keys
    && forall n :: n in b && n !in Doomed(at, b, newest, now) ==> n in b' && b'[n] == b[n]
  }

  // -------------------------------------------------------------- weekly

  function GzFiles(files: map<string, Content>): map<string, Content> {
    map n | n in files && HasSuffix(n, ".gz") :: files[n]
  }

  /** A backup whose dump is not empty and whose checksum file matches its archives. */
  predicate Verified(entry: Entry) {
    && entry.Dir? && DUMP in entry.files && entry.files[DUMP].Bytes? && entry.files[DUMP].data != []
    && CHECKSUMS in entry.files && entry.files[CHECKSUMS] == Sums(GzFiles(entry.files))
  }

  /** What a weekly run can leave behind, finished or not: it never touches another entry,
      its unfinished work is not a complete backup, and what it publishes is verified. */
  ghost predicate WeeklyStep(s: Store, s': Store, dest: string, ok: bool)
  {
    var work := dest + ".partial";
    && s'.releases == s.releases && s'.dumps == s.dumps && s'.logs == s.logs
    && (forall n :: n != work && n != dest ==> (n in s.backups <==> n in s'.backups) && (n in s.backups ==> s'.backups[n] == s.backups[n]))
    && (ok ==> work !in s'.backups && dest in s'.backups && Verified(s'.backups[dest]))
    && (!ok ==> (dest in s.backups <==> dest in s'.backups) && (dest in s.backups ==> s'.backups[dest] == s.backups[dest]))
    && (ok && dest in s.backups ==> !IsComplete(dest, s.backups[dest]))
  }

  // ------------------------------------------------------------ all runs

  datatype Run = Weekly(dest: string, ok: bool) | Prune(now: int, done: bool)

  ghost predicate RunStep(at: Clock, s: Store, run: Run, s': Store) {
    match run
    case Weekly(dest, ok) => !IsPartial(dest) && WeeklyStep(s, s', dest, ok)
    case Prune(now, done) => if done then PruneDone(at, s, s', now) else PruneStopped(at, s, s', now)
  }

  ghost predicate History(at: Clock, states: seq<Store>, runs: seq<Run>) {
    |states| == |runs| + 1 && forall k :: 0 <= k < |runs| ==> RunStep(at, states[k], runs[k], states[k + 1])
  }

  lemma NewestIsKept(at: Clock, s: Store, s': Store, now: int)
    requires PruneDone(at, s, s', now) || PruneStopped(at, s, s', now)
    requires Complete(s.backups) != {}
    ensures exists n :: IsNewest(at, s.backups, n) && n in s'.backups && s'.backups[n] == s.backups[n]
  {
    if PruneDone(at, s, s', now) {
      var newest :| NewestChoice(at, s.backups, newest) && s' == Pruned(at, s, newest, now);
      assert newest.Some? && newest.value !in Doomed(at, s.backups, newest, now);
    } else {
      var newest :| NewestChoice(at, s.backups, newest) && OnlyDoomedChanged(at, s.backups, s'.backups, newest, now);
      assert newest.Some? && newest.value !in Doomed(at, s.backups, newest, now);
    }
  }

  lemma StepKeepsABackup(at: Clock, s: Store, run: Run, s': Store)
    requires RunStep(at, s, run, s') && Complete(s.backups) != {}
    ensures Complete(s'.backups) != {}
  {
    match run
    case Weekly(dest, ok) =>
      var n :| n in Complete(s.backups);
      assert n != dest + ".partial" by {
        assert HasSuffix(dest + ".partial", ".partial");
      }
      assert n in Complete(s'.backups);
    case Prune(now, done) =>
      NewestIsKept(at, s, s', now);
      var n :| IsNewest(at, s.backups, n) && n in s'.backups && s'.backups[n] == s.backups[n];
      assert n in Complete(s'.backups);
  }

  /** Once a complete backup exists, one exists ever after, however the runs go. */
  lemma {:induction false} ABackupAlwaysRemains(at: Clock, states: seq<Store>, runs: seq<Run>, i: nat, j: nat)
    requires History(at, states, runs) && i <= j < |states|
    requires Complete(states[i].backups) != {}
    ensures Complete(states[j].backups) != {}
    decreases j - i
  {
    if i < j {
      ABackupAlwaysRemains(at, states, runs, i, j - 1);
      StepKeepsABackup(at, states[j - 1], runs[j - 1], states[j]);
    }
  }

  /** The k-th run was a prune that stopped half way, and this complete backup was one of those
      it was removing. */
  ghost predicate TornIn(at: Clock, states: seq<Store>, runs: seq<Run>, k: nat, n: string)
    requires k < |runs| && |states| == |runs| + 1
  {
    && runs[k].Prune? && !runs[k].done
    && n in Complete(states[k].backups) && CreatedAt(at, n, states[k].backups[n]) < runs[k].now - RETENTION
  }

  lemma StepOrigin(at: Clock, s: Store, run: Run, s': Store, n: string)
    requires RunStep(at, s, run, s') && n in Complete(s'.backups)
    ensures || (n in s.backups && s.backups[n] == s'.backups[n])
            || Verified(s'.backups[n])
            || (run.Prune? && !run.done && n in Complete(s.backups) && CreatedAt(at, n, s.backups[n]) < run.now - RETENTION)
  {
    if run.Weekly? {
      assert HasSuffix(run.dest + ".partial", ".partial");
    }
  }

  /** Over every sequence of runs, finished or not: a complete backup that was not complete at
      the start is verified, unless a prune that stopped half way had begun to remove it. */
  lemma {:induction false} NewBackupsAreVerified(at: Clock, states: seq<Store>, runs: seq<Run>, j: nat, n: string)
    requires History(at, states, runs) && j < |states|
    requires n in Complete(states[j].backups) && n !in Complete(states[0].backups)
    ensures Verified(states[j].backups[n]) || exists k :: 0 <= k < j && TornIn(at, states, runs, k, n)
  {
    hide Verified;
    if j > 0 {
      var prev := j - 1;
      var s, s' := states[prev], states[j];
      assert RunStep(at, s, runs[prev], s');
      StepOrigin(at, s, runs[prev], s', n);
      hide RunStep;
      if n in s.backups && s.backups[n] == s'.backups[n] {
        NewBackupsAreVerified(at, states, runs, prev, n);
        if !Verified(s'.backups[n]) {
          var k :| 0 <= k < prev && TornIn(at, states, runs, k, n);
        }
      } else if !Verified(s'.backups[n]) {
        assert TornIn(at, states, runs, prev, n);
      }
    }
  }

  // ---------------------------------------------- the newest backup is a good one

  /** Times come from the names, and no two complete backups have the same. */
  predicate Stamped(at: Clock, backups: map<string, Entry>) {
    && (forall n :: n in Complete(backups) ==> at(n).Some?)
    && (forall m, n :: m in Complete(backups) && n in Complete(backups) && m != n ==> at(m) != at(n))
  }

  predicate GoodNewest(at: Clock, backups: map<string, Entry>, n: string) {
    IsNewest(at, backups, n) && Verified(backups[n])
  }

  lemma PruneKeepsNewest(at: Clock, s: Store, s': Store, now: int, n: string)
    requires PruneDone(at, s, s', now) || PruneStopped(at, s, s', now)
    requires Stamped(at, s.backups) && Stamped(at, s'.backups) && IsNewest(at, s.backups, n)
    ensures n in s'.backups && s'.backups[n] == s.backups[n] && IsNewest(at, s'.backups, n)
  {
    hide IsPartial;
    hide RETENTION;
    var newest: Option<string>;
    if PruneDone(at, s, s', now) {
      newest :| NewestChoice(at, s.backups, newest) && s' == Pruned(at, s, newest, now);
    } else {
      newest :| NewestChoice(at, s.backups, newest) && OnlyDoomedChanged(at, s.backups, s'.backups, newest, now);
    }
    OnlyOneNewest(at, s.backups, n, newest);
    assert n !in Doomed(at, s.backups, newest, now);
    forall m | m in Complete(s'.backups) ensures CreatedAt(at, m, s'.backups[m]) <= CreatedAt(at, n, s'.backups[n]) {
      WasThere(at, s, s', newest, now, m);
    }
  }

  lemma OnlyOneNewest(at: Clock, backups: map<string, Entry>, n: string, newest: Option<string>)
    requires Stamped(at, backups) && IsNewest(at, backups, n) && NewestChoice(at, backups, newest)
    ensures newest == Some(n)
  {
    hide IsComplete;
    assert n in Complete(backups);
    assert forall m :: m in Complete(backups) && m != n ==> at(m) != at(n);
  }

  /** A name read from a stamp keeps its time, and a complete backup after a prune was a
      complete one before. */
  lemma WasThere(at: Clock, s: Store, s': Store, newest: Option<string>, now: int, m: string)
    requires s' == Pruned(at, s, newest, now) || OnlyDoomedChanged(at, s.backups, s'.backups, newest, now)
    requires m in Complete(s'.backups) && Stamped(at, s'.backups)
    ensures m in Complete(s.backups) && CreatedAt(at, m, s'.backups[m]) == CreatedAt(at, m, s.backups[m])
  {
  }

  lemma StepKeepsGoodNewest(at: Clock, s: Store, run: Run, s': Store, n: string)
    requires RunStep(at, s, run, s') && Stamped(at, s.backups) && Stamped(at, s'.backups) && GoodNewest(at, s.backups, n)
    ensures exists m :: GoodNewest(at, s'.backups, m)
  {
    match run
    case Prune(now, done) =>
      PruneKeepsNewest(at, s, s', now, n);
      assert GoodNewest(at, s'.backups, n);
    case Weekly(dest, ok) =>
      WeeklyKeepsGoodNewest(at, s, s', dest, ok, n);
  }

  lemma WeeklyKeepsGoodNewest(at: Clock, s: Store, s': Store, dest: string, ok: bool, n: string)
    requires !IsPartial(dest) && WeeklyStep(s, s', dest, ok) && GoodNewest(at, s.backups, n)
    ensures exists m :: GoodNewest(at, s'.backups, m)
  {
    var work := dest + ".partial";
    assert IsPartial(work) by { assert HasSuffix(work, ".partial"); }
    assert n != work && n in Complete(s'.backups) && s'.backups[n] == s.backups[n];
    hide IsPartial;
    forall m | m in Complete(s'.backups) && (m != dest || !ok) ensures m in Complete(s.backups) && s'.backups[m] == s.backups[m] {
      assert m != work;
    }
    hide Verified;
    if ok && dest in Complete(s'.backups) && CreatedAt(at, n, s'.backups[n]) <= CreatedAt(at, dest, s'.backups[dest]) {
      assert GoodNewest(at, s'.backups, dest);
    } else {
      assert GoodNewest(at, s'.backups, n);
    }
  }

  /** Over every sequence of runs, each failing anywhere: once the newest complete backup is
      verified, the newest complete backup is verified ever after, when times come from names. */
  lemma {:induction false} NewestStaysVerified(at: Clock, states: seq<Store>, runs: seq<Run>, i: nat, j: nat)
    requires History(at, states, runs) && i <= j < |states|
    requires forall k :: 0 <= k < |states| ==> Stamped(at, states[k].backups)
    requires exists n :: GoodNewest(at, states[i].backups, n)
    ensures exists n :: GoodNewest(at, states[j].backups, n)
    decreases j - i
  {
    hide RunStep;
    hide GoodNewest;
    hide Stamped;
    if i < j {
      NewestStaysVerified(at, states, runs, i, j - 1);
      var n :| GoodNewest(at, states[j - 1].backups, n);
      assert RunStep(at, states[j - 1], runs[j - 1], states[j]);
      StepKeepsGoodNewest(at, states[j - 1], runs[j - 1], states[j], n);
    }
  }

  // ------------------------------------------------------- a torn removal

  const OLD_NAME := "a"
  const NEW_NAME := "b"

  function GoodFiles(): map<string, Content> {
    map[DUMP := Bytes([1]), CHECKSUMS := Sums(map[DUMP := Bytes([1])])]
  }

  /** The same directory without its checksum file. */
  function TornFiles(): map<string, Content> {
    map[DUMP := Bytes([1])]
  }

  function TwoBackups(oldTime: int, files: map<string, Content>): Store {
    Store(map[OLD_NAME := Dir(oldTime, files), NEW_NAME := Dir(100, GoodFiles())], map[], map[], map[])
  }

  lemma TwoBackupsAre(oldTime: int, files: map<string, Content>)
    requires DUMP in files
    ensures Complete(TwoBackups(oldTime, files).backups) == {OLD_NAME, NEW_NAME} && OLD_NAME != NEW_NAME
  {
    assert OLD_NAME[0] == 'a' && NEW_NAME[0] == 'b';
    assert !IsPartial(OLD_NAME) && !IsPartial(NEW_NAME);
  }

  lemma FilesFacts()
    ensures DUMP != CHECKSUMS && Verified(Dir(0, GoodFiles())) && Verified(Dir(100, GoodFiles())) && !Verified(Dir(200, TornFiles()))
  {
    assert DUMP[1] == 'a' && |DUMP| == 15 && |CHECKSUMS| == 19;
    assert HasSuffix(DUMP, ".gz");
    assert !HasSuffix(CHECKSUMS, ".gz") by { assert CHECKSUMS[18] == 'n' && ".gz"[2] == 'z'; }
    assert GzFiles(GoodFiles()) == map[DUMP := Bytes([1])];
  }

  /** A prune that stops half way through the older of two verified backups can leave it
      complete and not verified; and where no name has a stamp, the directory's new
      modification time makes it the newest. */
  lemma TornBackupWitness(now: int)
    requires now == 200 + RETENTION
    ensures var at: Clock := name => None;
            var s, s' := TwoBackups(0, GoodFiles()), TwoBackups(200, TornFiles());
            && GoodNewest(at, s.backups, NEW_NAME) && Verified(s.backups[OLD_NAME])
            && RunStep(at, s, Prune(now, false), s')
            && IsNewest(at, s'.backups, OLD_NAME) && !Verified(s'.backups[OLD_NAME])
  {
    var at: Clock := name => None;
    var s, s' := TwoBackups(0, GoodFiles()), TwoBackups(200, TornFiles());
    FilesFacts();
    TwoBackupsAre(0, GoodFiles());
    TwoBackupsAre(200, TornFiles());
    hide Verified;
    hide IsPartial;
    hide IsComplete;
    assert IsNewest(at, s.backups, NEW_NAME);
    TornStep(now);
  }

  lemma TornStep(now: int)
    requires now == 200 + RETENTION
    ensures var at: Clock := name => None;
            PruneStopped(at, TwoBackups(0, GoodFiles()), TwoBackups(200, TornFiles()), now)
  {
    var at: Clock := name => None;
    var s, s' := TwoBackups(0, GoodFiles()), TwoBackups(200, TornFiles());
    FilesFacts();
    TwoBackupsAre(0, GoodFiles());
    assert IsNewest(at, s.backups, NEW_NAME);
    assert OLD_NAME in Complete(s.backups);
    assert !IsPartial(OLD_NAME);
    assert OLD_NAME in Doomed(at, s.backups, Some(NEW_NAME), now);
    assert NewestChoice(at, s.backups, Some(NEW_NAME)) && OnlyDoomedChanged(at, s.backups, s'.backups, Some(NEW_NAME), now);
  }

  // ----------------------------------------------- what a finished prune means

  ghost predicate OldestData(at: Clock, s: Store, t: int) {
    && DataAt(at, s, t)
    && forall u :: DataAt(at, s, u) ==> t <= u
  }

  /** `t` is the age of some backup data: a complete backup, release data or a legacy dump. */
  ghost predicate DataAt(at: Clock, s: Store, t: int) {
    || (exists n :: n in Complete(s.backups) && CreatedAt(at, n, s.backups[n]) == t)
    || (exists n :: n in s.releases && s.releases[n].expires && s.releases[n].mtime == t)
    || (exists n :: n in s.dumps && s.dumps[n].expires && s.dumps[n].mtime == t)
  }

  /** Overdue data after a prune can only be the newest backup itself, and then nothing else
      is left but it. */
  lemma OverdueOnlyWhenNewest(at: Clock, s: Store, s': Store, now: int, t: int)
    requires PruneDone(at, s, s', now) && OldestData(at, s', t) && t < now - RETENTION
    ensures exists n :: IsNewest(at, s'.backups, n) && CreatedAt(at, n, s'.backups[n]) == t && Complete(s'.backups) == {n}
  {
    var newest :| NewestChoice(at, s.backups, newest) && s' == Pruned(at, s, newest, now);
    var n :| n in Complete(s'.backups) && CreatedAt(at, n, s'.backups[n]) == t;
    assert n in Complete(s.backups);
    assert newest == Some(n) by {
      assert n !in Doomed(at, s.backups, newest, now);
    }
    forall m | m in Complete(s'.backups) ensures m == n {
      assert m in Complete(s.backups) && m !in Doomed(at, s.backups, newest, now);
    }
    assert Complete(s'.backups) == {n};
    assert IsNewest(at, s'.backups, n);
  }

  /** What is left after a prune is not doomed at the same time, whichever way ties fall. */
  lemma NothingDoomedTwice(at: Clock, b: map<string, Entry>, newest: Option<string>, newest': Option<string>, now: int)
    requires NewestChoice(at, b, newest) && NewestChoice(at, Kept(b, Doomed(at, b, newest, now)), newest')
    ensures var b' := Kept(b, Doomed(at, b, newest, now)); forall n :: n in b' ==> n !in Doomed(at, b', newest', now)
  {
    hide IsPartial;
    hide IsComplete;
    var b' := Kept(b, Doomed(at, b, newest, now));
    forall n | n in b' ensures n !in Doomed(at, b', newest', now) {
      assert n !in Doomed(at, b, newest, now);
      if n in Complete(b') && CreatedAt(at, n, b'[n]) < now - RETENTION {
        var m := newest'.value;
        assert newest == Some(n) && m in Complete(b);
        assert m !in Doomed(at, b, newest, now);
        assert m == n;
      }
    }
  }

  /** A second prune at the same time finds nothing to remove. */
  lemma SecondPruneRemovesNothing(at: Clock, s: Store, s': Store, s'': Store, now: int)
    requires PruneDone(at, s, s', now) && PruneDone(at, s', s'', now)
    ensures s'' == s'
  {
    var newest :| NewestChoice(at, s.backups, newest) && s' == Pruned(at, s, newest, now);
    var newest' :| NewestChoice(at, s'.backups, newest') && s'' == Pruned(at, s', newest', now);
    hide NewestChoice;
    hide Doomed;
    hide Kept;
    hide Expired;
    NothingDoomedTwice(at, s.backups, newest, newest', now);
    NoneGone(s'.backups, Doomed(at, s'.backups, newest', now));
    KeptTwice(s.releases, now);
    KeptTwice(s.dumps, now);
    KeptTwice(s.logs, now);
  }

  lemma NoneGone<T>(entries: map<string, T>, gone: set<string>)
    requires forall n :: n in entries ==> n !in gone
    ensures Kept(entries, gone) == entries
  {
  }

  lemma KeptTwice(files: map<string, Aged>, now: int)
    ensures var kept := Kept(files, Expired(files, now)); Kept(kept, Expired(kept, now)) == kept
  {
    NoneGone(Kept(files, Expired(files, now)), Expired(Kept(files, Expired(files, now)), now));
  }

  // ------------------------------------------------------- ages in plain seconds

  /** A complete backup whose name says a time no more than 28 days before any of the prunes is
      there at the end, unchanged, whatever runs and wherever they fail. */
  lemma {:induction false} YoungSurvives(at: Clock, states: seq<Store>, runs: seq<Run>, i: nat, j: nat, n: string, time: int)
    requires History(at, states, runs) && i <= j < |states|
    requires n in Complete(states[i].backups) && at(n) == Some(time)
    requires forall k :: i <= k < j && runs[k].Prune? ==> runs[k].now - 28 * 24 * 60 * 60 <= time
    ensures n in Complete(states[j].backups) && states[j].backups[n] == states[i].backups[n]
    decreases j - i
  {
    if i < j {
      YoungSurvives(at, states, runs, i, j - 1, n, time);
      assert RunStep(at, states[j - 1], runs[j - 1], states[j]);
      YoungSurvivesStep(at, states[j - 1], runs[j - 1], states[j], n, time);
    }
  }

  lemma YoungSurvivesStep(at: Clock, s: Store, run: Run, s': Store, n: string, time: int)
    requires RunStep(at, s, run, s') && n in Complete(s.backups) && at(n) == Some(time)
    requires run.Prune? ==> run.now - 28 * 24 * 60 * 60 <= time
    ensures n in Complete(s'.backups) && s'.backups[n] == s.backups[n]
  {
    match run
    case Weekly(dest, ok) =>
      assert HasSuffix(dest + ".partial", ".partial");
    case Prune(now, done) =>
      if done {
        var newest :| NewestChoice(at, s.backups, newest) && s' == Pruned(at, s, newest, now);
        assert n !in Doomed(at, s.backups, newest, now);
      } else {
        var newest :| NewestChoice(at, s.backups, newest) && OnlyDoomedChanged(at, s.backups, s'.backups, newest, now);
        assert n !in Doomed(at, s.backups, newest, now);
      }
  }

  /** And one whose name says more than 28 days, while another one says a later time, is gone
      after a prune that finished. */
  lemma OldIsRemoved(at: Clock, s: Store, s': Store, now: int, n: string, time: int, m: string, later: int)
    requires PruneDone(at, s, s', now)
    requires n in Complete(s.backups) && at(n) == Some(time) && time < now - 28 * 24 * 60 * 60
    requires m in Complete(s.backups) && at(m) == Some(later) && time < later
    ensures n !in s'.backups
  {
    var newest :| NewestChoice(at, s.backups, newest) && s' == Pruned(at, s, newest, now);
    assert CreatedAt(at, m, s.backups[m]) == later && CreatedAt(at, n, s.backups[n]) == time;
    assert newest != Some(n);
  }
}
