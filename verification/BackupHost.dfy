/** The rotation script as it changes the backup host step by step: `weekly`, `prune` and the
    command line of deploy/backup_rotation.py, with a failure possible at every command. */
module BackupHost {
  import opened Wrappers
  import opened BackupRotation

  datatype Area = Backups | Releases | Dumps | Logs
  datatype Item = Item(area: Area, name: string)

  /** What a prune removes, or in a dry run announces. */
  ghost predicate Announced(at: Clock, s: Store, newest: Option<string>, now: int, item: Item) {
    match item.area
    case Backups => item.name in Doomed(at, s.backups, newest, now)
    case Releases => item.name in Expired(s.releases, now)
    case Dumps => item.name in Expired(s.dumps, now)
    case Logs => item.name in Expired(s.logs, now)
  }

  function Time(at: Clock, backups: map<string, Entry>, n: string): int
    requires n in backups
  {
    CreatedAt(at, n, backups[n])
  }

  /** Distinct entries in the order of their times. */
  ghost predicate Sorted(at: Clock, backups: map<string, Entry>, dirs: seq<string>) {
    && (forall k :: 0 <= k < |dirs| ==> dirs[k] in backups)
    && (forall i, j :: 0 <= i < j < |dirs| ==> dirs[i] != dirs[j] && Time(at, backups, dirs[i]) <= Time(at, backups, dirs[j]))
  }

  function Inserted(dirs: seq<string>, n: string, i: nat): seq<string>
    requires i <= |dirs|
  {
    dirs[..i] + [n] + dirs[i..]
  }

  lemma InsertedPasses(dirs: seq<string>, n: string, i: nat)
    requires i <= |dirs|
    ensures Passed(Inserted(dirs, n, i)) == Passed(dirs) + {n}
  {
    var out := Inserted(dirs, n, i);
    forall x | x in dirs ensures x in out {
      var k :| 0 <= k < |dirs| && dirs[k] == x;
      assert out[if k < i then k else k + 1] == x;
    }
    assert out[i] == n;
  }

  /** What stands at a place of the longer list. */
  lemma InsertedAt(dirs: seq<string>, n: string, i: nat, j: nat)
    requires i <= |dirs| && j < |dirs| + 1
    ensures |Inserted(dirs, n, i)| == |dirs| + 1
    ensures Inserted(dirs, n, i)[j] == if j < i then dirs[j] else if j == i then n else dirs[j - 1]
  {
  }

  lemma InsertKeepsSorted(at: Clock, backups: map<string, Entry>, dirs: seq<string>, n: string, i: nat)
    requires Sorted(at, backups, dirs) && n in backups && n !in dirs && i <= |dirs|
    requires i > 0 ==> Time(at, backups, dirs[i - 1]) <= Time(at, backups, n)
    requires i < |dirs| ==> Time(at, backups, n) < Time(at, backups, dirs[i])
    ensures Sorted(at, backups, Inserted(dirs, n, i))
  {
    hide CreatedAt;
    hide Time;
    hide Inserted;
    var out := Inserted(dirs, n, i);
    forall j | 0 <= j < |dirs| + 1 ensures |out| == |dirs| + 1 && out[j] in backups {
      InsertedAt(dirs, n, i, j);
    }
    InsertedAt(dirs, n, i, 0);
    forall j, k | 0 <= j < k < |out| ensures out[j] != out[k] && Time(at, backups, out[j]) <= Time(at, backups, out[k]) {
      InsertedAt(dirs, n, i, j);
      InsertedAt(dirs, n, i, k);
    }
  }

  /** Where a new entry goes in a sorted list. */
  method PlaceFor(at: Clock, backups: map<string, Entry>, dirs: seq<string>, n: string) returns (i: nat)
    requires Sorted(at, backups, dirs) && n in backups
    ensures i <= |dirs|
    ensures i > 0 ==> Time(at, backups, dirs[i - 1]) <= Time(at, backups, n)
    ensures i < |dirs| ==> Time(at, backups, n) < Time(at, backups, dirs[i])
  {
    hide CreatedAt;
    hide Time;
    i := |dirs|;
    while i > 0 && Time(at, backups, dirs[i - 1]) > Time(at, backups, n)
      invariant 0 <= i <= |dirs|
      invariant i < |dirs| ==> Time(at, backups, n) < Time(at, backups, dirs[i])
    {
      i := i - 1;
    }
  }

  method CompleteBackups(at: Clock, backups: map<string, Entry>) returns (dirs: seq<string>)
    ensures Sorted(at, backups, dirs) && Passed(dirs) == Complete(backups)
  {
    hide CreatedAt;
    hide IsComplete;
    hide Time;
    hide Sorted;
    hide Inserted;
    EmptyIsSorted(at, backups);
    dirs := [];
    var rest := Complete(backups);
    while rest != {}
      invariant Sorted(at, backups, dirs) && rest <= Complete(backups)
      invariant Passed(dirs) == Complete(backups) - rest
      decreases |rest|
    {
      var n :| n in rest;
      var i := PlaceFor(at, backups, dirs, n);
      assert n !in Passed(dirs);
      InsertKeepsSorted(at, backups, dirs, n, i);
      InsertedPasses(dirs, n, i);
      dirs := Inserted(dirs, n, i);
      rest := rest - {n};
    }
  }

  lemma EmptyIsSorted(at: Clock, backups: map<string, Entry>)
    ensures Sorted(at, backups, []) && Passed([]) == {}
  {
  }

  lemma LastIsNewest(at: Clock, backups: map<string, Entry>, dirs: seq<string>)
    requires Sorted(at, backups, dirs) && Passed(dirs) == Complete(backups)
    ensures NewestChoice(at, backups, if dirs == [] then None else Some(dirs[|dirs| - 1]))
  {
    if dirs != [] {
      var last := dirs[|dirs| - 1];
      assert last in Passed(dirs);
      forall m | m in Complete(backups) ensures CreatedAt(at, m, backups[m]) <= CreatedAt(at, last, backups[last]) {
        assert m in Passed(dirs);
        var k :| 0 <= k < |dirs| && dirs[k] == m;
        assert k == |dirs| - 1 || Time(at, backups, dirs[k]) <= Time(at, backups, last);
      }
    } else {
      assert Passed(dirs) == {};
    }
  }

  lemma KeptWithout<T>(entries: map<string, T>, gone: set<string>, n: string)
    ensures Kept(entries, gone) - {n} == Kept(entries, gone + {n})
  {
  }

  lemma OneLess(all: set<string>, todo: set<string>, n: string)
    requires n in todo
    ensures all - (todo - {n}) == (all - todo) + (if n in all then {n} else {})
  {
  }

  function StalePartials(at: Clock, backups: map<string, Entry>, now: int): set<string> {
    set n | n in backups && IsPartial(n) && CreatedAt(at, n, backups[n]) < now - DAY
  }

  /** Removing complete backups leaves the fate of the partial ones as it was. */
  lemma PartialsUntouched(at: Clock, was: map<string, Entry>, kept: map<string, Entry>, newest: Option<string>, now: int)
    requires kept == was || kept == Kept(was, Complete(was) * Doomed(at, was, newest, now))
    ensures StalePartials(at, kept, now) == StalePartials(at, was, now)
    ensures Doomed(at, was, newest, now) == (Complete(was) * Doomed(at, was, newest, now)) + StalePartials(at, was, now)
    ensures Doomed(at, kept, newest, now) <= Doomed(at, was, newest, now)
  {
  }

  lemma StaleAreDoomed(at: Clock, backups: map<string, Entry>, newest: Option<string>, now: int)
    ensures StalePartials(at, backups, now) <= Doomed(at, backups, newest, now)
  {
  }

  lemma KeptOnlyDoomed(at: Clock, was: map<string, Entry>, gone: set<string>, newest: Option<string>, now: int)
    requires gone <= Doomed(at, was, newest, now)
    ensures OnlyDoomedChanged(at, was, Kept(was, gone), newest, now)
  {
    hide Doomed;
  }

  /** A removal that failed half way has touched its own entry only. */
  lemma TornOnlyDoomed(at: Clock, was: map<string, Entry>, gone: set<string>, newest: Option<string>, now: int, n: string, b: map<string, Entry>)
    requires gone <= Doomed(at, was, newest, now) && n in Doomed(at, was, newest, now)
    requires b.Keys == Kept(was, gone).Keys && forall m :: m in b && m != n ==> b[m] == Kept(was, gone)[m]
    ensures OnlyDoomedChanged(at, was, b, newest, now)
  {
    hide Doomed;
  }

  lemma NothingYet(was: map<string, Entry>)
    ensures Kept(was, {}) == was && Names([], Backups, {})
  {
  }

  lemma StaleArePartial(at: Clock, was: map<string, Entry>, now: int)
    ensures forall n :: n in StalePartials(at, was, now) ==> n in was && IsPartial(n)
  {
  }

  lemma IsStale(at: Clock, was: map<string, Entry>, now: int, n: string)
    requires n in was && IsPartial(n)
    ensures n in StalePartials(at, was, now) <==> CreatedAt(at, n, was[n]) < now - DAY
  {
  }

  /** The list names exactly these entries of this area. */
  ghost predicate Names(removed: seq<Item>, area: Area, gone: set<string>) {
    forall item :: item in removed <==> item.area == area && item.name in gone
  }

  lemma NamesMore(removed: seq<Item>, area: Area, gone: set<string>, n: string)
    requires Names(removed, area, gone)
    ensures Names(removed + [Item(area, n)], area, gone + {n})
  {
  }

  lemma KeptHas<T>(entries: map<string, T>, gone: set<string>, n: string)
    ensures n in entries && n !in gone ==> n in Kept(entries, gone)
  {
  }

  /** Unlinks the expired files of one listing; `ok` is false when an unlink failed. */
  method PruneFiles(files: map<string, Aged>, area: Area, now: int, dryRun: bool, removed0: seq<Item>)
    returns (left: map<string, Aged>, removed: seq<Item>, ok: bool)
    ensures removed0 <= removed
    ensures dryRun ==> ok && left == files
    ensures ok && !dryRun ==> left == Kept(files, Expired(files, now))
    ensures ok ==> Adds(removed0, removed, area, Expired(files, now))
  {
    hide Kept;
    hide Expired;
    hide Adds;
    AddsNothing(removed0, area);
    left, removed, ok := files, removed0, true;
    var todo := files.Keys;
    ghost var expired := Expired(files, now);
    ExpiredAre(files, now);
    ghost var gone: set<string> := {};
    assert expired - todo == {};
    NoneGone(files, {});
    while todo != {}
      invariant todo <= files.Keys && removed0 <= removed && gone == expired - todo
      invariant left == if dryRun then files else Kept(files, gone)
      invariant Adds(removed0, removed, area, gone)
      decreases |todo|
    {
      var n :| n in todo;
      OneLess(expired, todo, n);
      KeptWithout(files, gone, n);
      todo := todo - {n};
      if files[n].expires && files[n].mtime < now - RETENTION {
        AddsMore(removed0, removed, area, gone, n);
        removed := removed + [Item(area, n)];
        if !dryRun {
          var unlinked: bool := *;
          if !unlinked {
            return left, removed, false;
          }
          left := left - {n};
        }
        gone := gone + {n};
      }
    }
    assert expired - todo == expired;
  }

  lemma ExpiredAre(files: map<string, Aged>, now: int)
    ensures forall n :: n in Expired(files, now) <==> n in files && files[n].expires && files[n].mtime < now - RETENTION
  {
  }

  /** The longer list has these entries of this area besides those of the shorter. */
  ghost predicate Adds(before: seq<Item>, after: seq<Item>, area: Area, gone: set<string>) {
    forall item :: item in after <==> item in before || (item.area == area && item.name in gone)
  }

  lemma AddsNothing(before: seq<Item>, area: Area)
    ensures Adds(before, before, area, {})
  {
  }

  lemma AddsMore(before: seq<Item>, after: seq<Item>, area: Area, gone: set<string>, n: string)
    requires Adds(before, after, area, gone)
    ensures Adds(before, after + [Item(area, n)], area, gone + {n})
  {
  }

  class Host {
    const at: Clock
    var store: Store

    constructor (at: Clock, store: Store)
      ensures this.at == at && this.store == store
    {
      this.at, this.store := at, store;
    }

    /** rmtree or unlink of one entry of the backup directory.  A failing removal of a
        directory may have deleted any of its files, and then changed its time. */
    method RemoveBackup(n: string) returns (ok: bool)
      requires n in store.backups
      modifies this`store
      ensures ok ==> store == old(store).(backups := old(store).backups - {n})
      ensures !ok ==> store == old(store).(backups := store.backups) && store.backups.Keys == old(store).backups.Keys
      ensures !ok ==> forall m :: m in store.backups && m != n ==> store.backups[m] == old(store).backups[m]
    {
      ok := *;
      if ok {
        store := store.(backups := store.backups - {n});
      } else {
        var entry := store.backups[n];
        if entry.Dir? {
          var lost: set<string> := *;
          var touched: int := *;
          entry := Dir(touched, entry.files - lost);
        }
        store := store.(backups := store.backups[n := entry]);
      }
    }

    /** The loop over the complete backups, oldest first. */
    method PruneComplete(backups: seq<string>, newest: Option<string>, now: int, dryRun: bool) returns (removed: seq<Item>, ok: bool)
      requires Sorted(at, store.backups, backups) && Passed(backups) == Complete(store.backups)
      modifies this`store
      ensures dryRun ==> ok && store == old(store)
      ensures store == old(store).(backups := store.backups)
      ensures OnlyDoomedChanged(at, old(store).backups, store.backups, newest, now)
      ensures var gone := Complete(old(store).backups) * Doomed(at, old(store).backups, newest, now);
              ok ==> (dryRun || store.backups == Kept(old(store).backups, gone)) && Names(removed, Backups, gone)
    {
      hide Kept;
      hide OnlyDoomedChanged;
      hide Names;
      hide IsPartial;
      removed, ok := [], true;
      var was := store.backups;
      ghost var doomed := Doomed(at, was, newest, now);
      ghost var gone: set<string> := {};
      NothingYet(was);
      for k := 0 to |backups|
        invariant gone == Passed(backups[..k]) * doomed
        invariant store == old(store).(backups := if dryRun then was else Kept(was, gone))
        invariant Names(removed, Backups, gone)
      {
        var backup := backups[k];
        assert Passed(backups[..k + 1]) == Passed(backups[..k]) + {backup} by {
          assert backups[..k + 1] == backups[..k] + [backup];
        }
        assert backup in Passed(backups) && backup !in gone;
        KeptWithout(was, gone, backup);
        KeptHas(was, gone, backup);
        if Some(backup) != newest && CreatedAt(at, backup, was[backup]) < now - RETENTION {
          NamesMore(removed, Backups, gone, backup);
          removed := removed + [Item(Backups, backup)];
          if !dryRun {
            ok := RemoveBackup(backup);
            if !ok {
              TornOnlyDoomed(at, was, gone, newest, now, backup, store.backups);
              return;
            }
          }
          gone := gone + {backup};
        }
      }
      KeptOnlyDoomed(at, was, gone, newest, now);
      KeptOnlyDoomed(at, was, {}, newest, now);
      assert backups[..|backups|] == backups;
    }

    /** The loop over unfinished backups more than a day old. */
    method PrunePartials(newest: Option<string>, now: int, dryRun: bool) returns (removed: seq<Item>, ok: bool)
      modifies this`store
      ensures dryRun ==> ok && store == old(store)
      ensures store == old(store).(backups := store.backups)
      ensures OnlyDoomedChanged(at, old(store).backups, store.backups, newest, now)
      ensures var gone := StalePartials(at, old(store).backups, now);
              ok ==> (dryRun || store.backups == Kept(old(store).backups, gone)) && Names(removed, Backups, gone)
    {
      hide Doomed;
      hide Kept;
      hide CreatedAt;
      hide IsPartial;
      hide OnlyDoomedChanged;
      hide Names;
      hide StalePartials;
      removed, ok := [], true;
      var was := store.backups;
      var partials := set n | n in was && IsPartial(n);
      ghost var stale := StalePartials(at, was, now);
      ghost var gone: set<string> := {};
      NothingYet(was);
      StaleAreDoomed(at, was, newest, now);
      StaleArePartial(at, was, now);
      assert stale - partials == {};
      while partials != {}
        invariant forall n :: n in partials ==> n in was && IsPartial(n)
        invariant gone == stale - partials
        invariant store == old(store).(backups := if dryRun then was else Kept(was, gone))
        invariant Names(removed, Backups, gone)
        decreases |partials|
      {
        var partial :| partial in partials;
        OneLess(stale, partials, partial);
        KeptWithout(was, gone, partial);
        KeptHas(was, gone, partial);
        IsStale(at, was, now, partial);
        partials := partials - {partial};
        if CreatedAt(at, partial, was[partial]) < now - DAY {
          NamesMore(removed, Backups, gone, partial);
          removed := removed + [Item(Backups, partial)];
          if !dryRun {
            ok := RemoveBackup(partial);
            if !ok {
              TornOnlyDoomed(at, was, gone, newest, now, partial, store.backups);
              return;
            }
          }
          gone := gone + {partial};
        }
      }
      assert stale - partials == stale;
      KeptOnlyDoomed(at, was, gone, newest, now);
      KeptOnlyDoomed(at, was, {}, newest, now);
    }

    method PruneBackups(now: int, dryRun: bool) returns (removed: seq<Item>, ok: bool, newest: Option<string>)
      modifies this`store
      ensures NewestChoice(at, old(store).backups, newest)
      ensures store == old(store).(backups := store.backups)
      ensures dryRun ==> ok && store == old(store)
      ensures OnlyDoomedChanged(at, old(store).backups, store.backups, newest, now)
      ensures ok && !dryRun ==> store.backups == Kept(old(store).backups, Doomed(at, old(store).backups, newest, now))
      ensures ok ==> forall item :: item in removed <==> item.area == Backups && item.name in Doomed(at, old(store).backups, newest, now)
    {
      var was := store.backups;
      var backups := CompleteBackups(at, was);
      newest := if backups == [] then None else Some(backups[|backups| - 1]);
      LastIsNewest(at, was, backups);
      removed, ok := PruneComplete(backups, newest, now, dryRun);
      if !ok { return; }
      ghost var kept := store.backups;
      PartialsUntouched(at, was, kept, newest, now);
      var more;
      more, ok := PrunePartials(newest, now, dryRun);
      removed := removed + more;
    }

    method Prune(now: int, dryRun: bool) returns (removed: seq<Item>, ok: bool)
      modifies this`store
      ensures dryRun ==> ok && store == old(store)
      ensures !dryRun ==> if ok then PruneDone(at, old(store), store, now) else PruneStopped(at, old(store), store, now)
      ensures ok ==> exists newest :: NewestChoice(at, old(store).backups, newest)
                       && (forall item :: item in removed <==> Announced(at, old(store), newest, now, item))
                       && (!dryRun ==> store == Pruned(at, old(store), newest, now))
    {
      var newest;
      removed, ok, newest := PruneBackups(now, dryRun);
      if !ok { return; }
      var left;
      left, removed, ok := PruneFiles(store.releases, Releases, now, dryRun, removed);
      store := store.(releases := left);
      if !ok { return; }
      left, removed, ok := PruneFiles(store.dumps, Dumps, now, dryRun, removed);
      store := store.(dumps := left);
      if !ok { return; }
      left, removed, ok := PruneFiles(store.logs, Logs, now, dryRun, removed);
      store := store.(logs := left);
    }

    /** Builds `<dest>.partial` and renames it at the very end. */
    method Weekly(dest: string) returns (ok: bool)
      modifies this`store
      ensures WeeklyStep(old(store), store, dest, ok)
    {
      var work := dest + ".partial";
      ok := *;                                             // the service environment
      if !ok { return; }
      ok := *;                                             // mkdir
      if !ok || work in store.backups { return false; }
      var mtime: int := *;
      var files: map<string, Content> := map[];
      var data: seq<int> := *;                             // the dump, perhaps cut short
      files := files[DUMP := Bytes(data)];
      store := store.(backups := store.backups[work := Dir(mtime, files)]);
      ok := *;                                             // the dump commands
      if !ok || data == [] { return false; }
      var index := 0;
      while index < 2
        invariant DUMP in files && files[DUMP] == Bytes(data)
        invariant store == old(store).(backups := old(store).backups[work := Dir(mtime, files)])
      {
        var exists_: bool := *;
        if exists_ {
          var archive: seq<int> := *;
          files := files[(if index == 0 then "uploads-0.tar.gz" else "uploads-1.tar.gz") := Bytes(archive)];
          store := store.(backups := store.backups[work := Dir(mtime, files)]);
          ok := *;
          if !ok { return; }
        }
        index := index + 1;
      }
      ok := *;                                             // the checksum file
      if !ok { return; }
      ghost var archives := GzFiles(files);
      files := files[CHECKSUMS := Sums(GzFiles(files))];
      assert GzFiles(files) == archives;
      store := store.(backups := store.backups[work := Dir(mtime, files)]);
      ok := *;                                             // rename fails onto a file or a non-empty directory
      if !ok || (dest in store.backups && (store.backups[dest].File? || store.backups[dest].files != map[])) {
        return false;
      }
      store := store.(backups := (store.backups - {work})[dest := Dir(mtime, files)]);
    }

    /** The command line: `weekly` is followed by a prune, and is not when it failed.  A prune
        that only announces what it would remove is no step at all. */
    method RunCommand(c: Command) returns (ok: bool, ghost states: seq<Store>, ghost runs: seq<BackupRotation.Run>)
      requires c.weekly.Some? ==> !IsPartial(c.weekly.value)
      modifies this`store
      ensures History(at, states, runs) && states[0] == old(store) && states[|runs|] == store
      ensures exists published :: runs == StepsOf(c, published, ok)
      ensures Complete(old(store).backups) != {} ==> Complete(store.backups) != {}
      ensures ok && c.weekly.Some? ==> Complete(store.backups) != {}
    {
      hide RunStep;
      hide Complete;
      states, runs := [store], [];
      ghost var published := true;
      if c.weekly.Some? {
        ok := Weekly(c.weekly.value);
        published := ok;
        WeeklyIsStep(at, old(store), store, c.weekly.value, ok);
        states, runs := [old(store), store], [BackupRotation.Run.Weekly(c.weekly.value, ok)];
        if !ok {
          assert runs == StepsOf(c, published, ok);
          return;
        }
      }
      ghost var before := store;
      var removed;
      removed, ok := Prune(c.now, c.dryRun);
      if !c.dryRun {
        PruneIsStep(at, before, store, c.now, ok);
        states, runs := states + [store], runs + [BackupRotation.Run.Prune(c.now, ok)];
      }
      assert runs == StepsOf(c, published, ok);
    }

    /** Any list of commands, whether they fail or not, is a history of runs. */
    method RunCommands(commands: seq<Command>) returns (ghost states: seq<Store>, ghost runs: seq<BackupRotation.Run>)
      requires forall k :: 0 <= k < |commands| && commands[k].weekly.Some? ==> !IsPartial(commands[k].weekly.value)
      modifies this`store
      ensures History(at, states, runs) && states[0] == old(store) && states[|runs|] == store
      ensures Complete(old(store).backups) != {} ==> Complete(store.backups) != {}
    {
      hide RunStep;
      hide Complete;
      states, runs := [store], [];
      for k := 0 to |commands|
        invariant History(at, states, runs) && states[0] == old(store) && states[|runs|] == store
        invariant Complete(old(store).backups) != {} ==> Complete(store.backups) != {}
      {
        var ok;
        ghost var more, steps;
        ok, more, steps := RunCommand(commands[k]);
        HistoryGoesOn(at, states, runs, more, steps);
        states, runs := states + more[1..], runs + steps;
      }
    }
  }

  /** One invocation: a weekly backup to a directory of that name, if asked for, and a prune. */
  datatype Command = Command(weekly: Option<string>, now: int, dryRun: bool)

  /** The runs a command consists of, by how they ended. */
  function StepsOf(c: Command, published: bool, ok: bool): seq<BackupRotation.Run> {
    (if c.weekly.Some? then [BackupRotation.Run.Weekly(c.weekly.value, published)] else [])
    + (if c.dryRun || (c.weekly.Some? && !published) then [] else [BackupRotation.Run.Prune(c.now, ok)])
  }

  lemma WeeklyIsStep(at: Clock, s: Store, s': Store, dest: string, ok: bool)
    requires !IsPartial(dest) && WeeklyStep(s, s', dest, ok)
    ensures RunStep(at, s, BackupRotation.Run.Weekly(dest, ok), s')
    ensures Complete(s.backups) != {} ==> Complete(s'.backups) != {}
    ensures ok ==> Complete(s'.backups) != {}
  {
    if Complete(s.backups) != {} { StepKeepsABackup(at, s, BackupRotation.Run.Weekly(dest, ok), s'); }
    if ok { assert dest in Complete(s'.backups); }
  }

  lemma PruneIsStep(at: Clock, s: Store, s': Store, now: int, ok: bool)
    requires if ok then PruneDone(at, s, s', now) else PruneStopped(at, s, s', now)
    ensures RunStep(at, s, BackupRotation.Run.Prune(now, ok), s')
    ensures Complete(s.backups) != {} ==> Complete(s'.backups) != {}
  {
    if Complete(s.backups) != {} { StepKeepsABackup(at, s, BackupRotation.Run.Prune(now, ok), s'); }
  }

  lemma HistoryGoesOn(at: Clock, states: seq<Store>, runs: seq<BackupRotation.Run>, more: seq<Store>, steps: seq<BackupRotation.Run>)
    requires History(at, states, runs) && History(at, more, steps) && states[|runs|] == more[0]
    ensures var all, both := states + more[1..], runs + steps;
            History(at, all, both) && all[0] == states[0] && all[|both|] == more[|steps|]
  {
    hide RunStep;
    var all, both := states + more[1..], runs + steps;
    forall k | 0 <= k < |both| ensures RunStep(at, all[k], both[k], all[k + 1]) {
      if k >= |runs| {
        var j := k - |runs|;
        assert all[k] == more[j] && all[k + 1] == more[j + 1] && both[k] == steps[j];
      }
    }
  }

  ghost function Passed(names: seq<string>): set<string> {
    set n | n in names
  }
}
