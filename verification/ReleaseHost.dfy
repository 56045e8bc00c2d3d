/** The production host as the release script sees it (deploy/remote_release.py): files, the
    backend service with the environment it was started with, and Apache.  Every command may
    fail, and one that fails may have done part of its work. */
module ReleaseHost {
  import opened Wrappers
  import opened FileTree

  /** What `set_rollout` is asked for. */
  datatype Rollout = Rollout(enabled: bool, testUser: int, retention: bool)

  /** The text of a file.  The two texts that systemd reads are kept as what they say. */
  datatype Content = Bytes(text: string) | RolloutText(rollout: Rollout) | OverrideText

  /** A gate variable: `true`, `false`, or missing or anything else. */
  datatype Flag = On | Off | Other

  /** The test user variable: the decimal text of a number, another text Python reads as that
      number, a text it cannot read, or missing. */
  datatype UserText = Decimal(n: int) | Loose(n: int) | Unreadable | Absent

  datatype Env = Env(requests: Flag, worker: Flag, retention: Flag, testUser: UserText)

  datatype Process = Process(env: Env, binary: Content)

  type Files = Tree<Content>

  const ROLLOUT_ENV: Path := ["app", "backend", "release-rollout.env"]
  const ROLLOUT_UNIT: Path := ["etc", "systemd", "system", "alumni-backend.service.d", "90-release-rollout.conf"]
  const HTTPD_CONFIG: Path := ["etc", "httpd", "conf.d", "alumni.conf"]
  const ADMIN_HTTPD_CONFIG: Path := ["etc", "httpd", "conf.d", "alumni_admin.conf"]
  const SERVER: Path := ["app", "backend", "server"]
  const BACKFILL: Path := ["app", "backend", "backfill"]

  const PAUSED := Rollout(false, 0, false)

  function FlagOf(b: bool): Flag {
    if b then On else Off
  }

  function EnvOf(r: Rollout): Env {
    Env(FlagOf(r.enabled), FlagOf(r.enabled), FlagOf(r.retention), Decimal(r.testUser))
  }

  /** What a rollout comes to in a process, when another drop-in may have the last word. */
  function LiveEnv(shadow: Option<Env>, r: Rollout): Env {
    if shadow.Some? then shadow.value else EnvOf(r)
  }

  function Parent(p: Path): Path
    requires p != []
  {
    p[..|p| - 1]
  }

  function FileOf(c: Content): Files {
    map[[] := File(c)]
  }

  /** Nothing that was there is gone or different. */
  ghost predicate Extends(t: Files, t': Files) {
    forall q :: q in t ==> q in t' && t'[q] == t[q]
  }

  /** Only missing directories down to `d` were made. */
  ghost predicate OnlyDirs(t: Files, t': Files, d: Path) {
    Extends(t, t') && forall p :: d <= p ==> OnlyAt(t, t', {p})
  }

  /** The name an installed file is copied to before it takes its place. */
  function Staged(p: Path): Path
    requires p != []
  {
    Parent(p) + [p[|p| - 1] + ".release-new"]
  }

  predicate SaysRollout(t: Files) {
    IsFile(t, ROLLOUT_ENV) && t[ROLLOUT_ENV].content.RolloutText?
  }

  function RolloutOf(t: Files): Rollout
    requires SaysRollout(t)
  {
    t[ROLLOUT_ENV].content.rollout
  }

  predicate SaysOverride(t: Files) {
    IsFile(t, ROLLOUT_UNIT) && t[ROLLOUT_UNIT].content == OverrideText
  }

  datatype Record = Record(path: Path, backup: Path, there: bool)

  /** One round of `restore`: clear the path, then copy the saved tree back. */
  function RestoreOne(t: Files, r: Record): Files
    requires r.path != []
  {
    var cleared := Graft(t, r.path, map[]);
    if !r.there then cleared
    else var ready := MakeDirs(cleared, Parent(r.path));
         Graft(ready, r.path, SubTree(ready, r.backup))
  }

  function RestoreAll(t: Files, records: seq<Record>): Files
    requires forall k :: 0 <= k < |records| ==> records[k].path != []
    decreases |records|
  {
    if records == [] then t
    else RestoreAll(RestoreOne(t, records[|records| - 1]), records[..|records| - 1])
  }

  class Host {
    var files: Files
    /** Every state the files went through. */
    ghost var seen: seq<Files>
    /** The drop-in was there at the last daemon-reload. */
    var inForce: bool
    var backend: Option<Process>
    var apache: bool
    /** The gates that another drop-in, read after ours, sets itself. */
    const shadow: Option<Env>

    constructor (tree: Files, loaded: bool, process: Option<Process>, web: bool, other: Option<Env>)
      requires Rooted(tree)
      ensures files == tree && inForce == loaded && backend == process && apache == web && shadow == other && seen == []
    {
      files, inForce, backend, apache, shadow, seen := tree, loaded, process, web, other, [];
    }

    // ------------------------------------------------------------- files

    method Become(t: Files)
      modifies this`files, this`seen
      ensures files == t && seen == old(seen) + [t]
    {
      files := t;
      seen := seen + [t];
    }

    method MkDirs(d: Path) returns (ok: bool)
      requires Rooted(files)
      modifies this`files, this`seen
      ensures Rooted(files) && OnlyDirs(old(files), files, d)
      ensures ok ==> Clear(old(files), d) && files == MakeDirs(old(files), d)
      ensures seen == old(seen) + [files]
    {
      hide OnlyAt;
      hide MakeDirs;
      hide Rooted;
      ok := *;
      var k: nat := *;
      if ok { k := |d|; }
      assert d[..|d|] == d;
      ghost var t := files;
      if 0 <= k <= |d| && Clear(files, d[..k]) {
        Become(MakeDirs(files, d[..k]));
        MakeDirsIsRooted(t, d[..k]);
        DirsAreFramed(t, d, d[..k]);
        DirsExtend(t, d[..k]);
      } else {
        ok := false;
        Become(files);
        OnlyAtSame(files);
      }
    }

    /** A directory that must be new. */
    method MkDir(p: Path) returns (ok: bool)
      requires Rooted(files) && p != []
      modifies this`files, this`seen
      ensures Rooted(files) && OnlyAt(old(files), files, {p})
      ensures ok ==> p !in old(files) && files == Graft(old(files), p, map[[] := Dir])
    {
      hide OnlyAt;
      hide Graft;
      ghost var t := files;
      OnlyAtSame(t);
      ok := *;
      if p in files || !IsDir(files, Parent(p)) { return false; }
      if ok {
        OnlyAtGraft(t, p, map[[] := Dir]);
        Become(Graft(files, p, map[[] := Dir]));
      }
    }

    /** Writing a file, which may stop half way. */
    method PutFile(p: Path, c: Content) returns (ok: bool)
      requires Rooted(files) && p != []
      modifies this`files, this`seen
      ensures Rooted(files) && OnlyAt(old(files), files, {p})
      ensures ok ==> IsDir(old(files), Parent(p)) && files == Graft(old(files), p, FileOf(c))
      ensures IsDir(old(files), p) ==> !ok && files == old(files) && seen == old(seen)
      ensures old(seen) <= seen && forall k :: |old(seen)| <= k < |seen| ==> OnlyAt(old(files), seen[k], {p})
    {
      hide OnlyAt;
      hide Graft;
      hide Rooted;
      ghost var t := files;
      OnlyAtSame(t);
      ok := *;
      if !IsDir(files, Parent(p)) || IsDir(files, p) { return false; }
      var some: Content := *;
      var begun: bool := *;
      PutIsFramed(t, p, some);
      PutIsFramed(t, p, c);
      if begun || ok { Become(Graft(files, p, FileOf(some))); }
      GraftTwice(t, p, FileOf(some), FileOf(c));
      if ok { Become(Graft(files, p, FileOf(c))); }
    }

    /** A file replaced as a whole, by way of a temporary one beside it. */
    method PutWhole(p: Path, c: Content) returns (ok: bool)
      requires Rooted(files) && p != []
      modifies this`files, this`seen
      ensures Rooted(files) && OnlyAt(old(files), files, {p})
      ensures files == old(files) || files == Graft(old(files), p, FileOf(c))
      ensures ok ==> files == Graft(old(files), p, FileOf(c))
    {
      hide OnlyAt;
      hide Graft;
      hide Rooted;
      OnlyAtSame(files);
      ok := *;
      var done: bool := *;
      if !IsDir(files, Parent(p)) || IsDir(files, p) { return false; }
      PutIsFramed(files, p, c);
      if ok || done { Become(Graft(files, p, FileOf(c))); }
    }

    method Rename(from: Path, to: Path) returns (ok: bool)
      requires Rooted(files) && from != [] && to != [] && Parent(from) == Parent(to) && from != to
      modifies this`files, this`seen
      ensures Rooted(files) && OnlyAt(old(files), files, {from, to})
      ensures ok ==> IsFile(old(files), from) && !IsDir(old(files), to)
      ensures ok ==> files == Graft(Graft(old(files), from, map[]), to, map[[] := old(files)[from]])
      ensures !ok ==> files == old(files)
      ensures seen == if ok then old(seen) + [files] else old(seen)
    {
      hide OnlyAt;
      hide Graft;
      ghost var t := files;
      OnlyAtSame(t);
      ok := *;
      if !IsFile(files, from) || IsDir(files, to) { ok := false; }
      if ok {
        RenameIsFramed(t, from, to);
        Become(Graft(Graft(files, from, map[]), to, map[[] := files[from]]));
      } else {
        OnlyAtMore(t, t, {}, {from, to});
      }
    }

    /** The first half of an installation: a complete copy under the staging name.  When there
        is nothing to copy, or a directory has that name, only directories were made. */
    method StageFile(src: Path, dst: Path) returns (ok: bool)
      requires Rooted(files) && dst != []
      modifies this`files, this`seen
      ensures Rooted(files) && OnlyAt(old(files), files, {Staged(dst)})
      ensures ok ==> Clear(old(files), Parent(dst)) && IsFile(old(files), src) && !IsDir(old(files), Staged(dst))
      ensures ok ==> files == StagedCopy(old(files), dst, old(files)[src].content)
      ensures old(seen) <= seen && forall k :: |old(seen)| <= k < |seen| ==> OnlyAt(old(files), seen[k], {Staged(dst)})
      ensures NothingStaged(old(files), src, dst) ==> OnlyDirs(old(files), files, Parent(dst))
      ensures NothingStaged(old(files), src, dst) ==> forall k :: |old(seen)| <= k < |seen| ==> OnlyDirs(old(files), seen[k], Parent(dst))
    {
      hide OnlyAt;
      hide Graft;
      hide Rooted;
      hide MakeDirs;
      hide Clear;
      hide Extends;
      StagedIsApart(dst);
      ghost var t := files;
      ok := MkDirs(Parent(dst));
      assert OnlyAt(t, files, {Staged(dst)}) by { assert Parent(dst) <= Staged(dst); }
      if !ok { return; }
      ghost var t1 := files;
      DirsKeepFile(t, Parent(dst), src);
      DirsKeepFile(t, Parent(dst), Staged(dst));
      if !IsFile(files, src) { return false; }
      ok := PutFile(Staged(dst), files[src].content);
      StagingFrames(t, t1, dst);
      if !ok { return; }
      ok := *;
    }

    /** A copy under a staging name, then a rename: the old file stays until the new one is
        complete.  All states on the way differ at the staging name only. */
    method InstallFile(src: Path, dst: Path) returns (ok: bool)
      requires Rooted(files) && dst != []
      modifies this`files, this`seen
      ensures Rooted(files) && OnlyAt(old(files), files, {Staged(dst), dst})
      ensures !ok ==> OnlyAt(old(files), files, {Staged(dst)})
      ensures ok ==> IsFile(old(files), src) && SubTree(files, dst) == FileOf(old(files)[src].content) && SubTree(files, Staged(dst)) == map[]
      ensures ok ==> !IsDir(old(files), Staged(dst)) && !IsDir(old(files), dst)
      ensures ok ==> files == Placement(MakeDirs(old(files), Parent(dst)), dst, old(files)[src].content)
      ensures NothingStaged(old(files), src, dst) ==> OnlyDirs(old(files), files, Parent(dst))
      ensures old(seen) <= seen
      ensures forall k :: |old(seen)| <= k < |seen| ==> OnlyAt(old(files), seen[k], {Staged(dst)}) || (ok && seen[k] == files)
      ensures NothingStaged(old(files), src, dst) ==> forall k :: |old(seen)| <= k < |seen| ==> OnlyDirs(old(files), seen[k], Parent(dst))
    {
      hide OnlyAt;
      hide Graft;
      hide Rooted;
      hide MakeDirs;
      hide Clear;
      hide OnlyDirs;
      hide SubTree;
      StagedIsApart(dst);
      ghost var t := files;
      ok := StageFile(src, dst);
      OnlyAtMore(t, files, {Staged(dst)}, {Staged(dst), dst});
      if !ok { return; }
      ghost var t2 := files;
      StagedIsFile(t, dst, t[src].content);
      ok := Rename(Staged(dst), dst);
      InstallFrames(t, t2, files, dst);
      if ok {
        InstalledAt(t, dst, t[src].content);
      }
    }

    // ---------------------------------------------------------- services

    /** A backend started now gets the gates of a drop-in that has the last word, or else those
        of the rollout file if our drop-in is in force. */
    predicate Gets(env: Env)
      reads this
    {
      shadow.Some? || (inForce && SaysRollout(files)) ==> env == LiveEnv(shadow, if SaysRollout(files) then RolloutOf(files) else PAUSED)
    }

    /** A process started from the installed binary. */
    predicate Started(p: Process)
      reads this
    {
      IsFile(files, SERVER) && p.binary == files[SERVER].content && Gets(p.env)
    }

    method StopBackend() returns (ok: bool)
      modifies this`backend
      ensures backend == None || (!ok && backend == old(backend))
    {
      ok := *;
      var stopped: bool := *;
      if ok || stopped { backend := None; }
    }

    /** Starting a unit that runs already does nothing. */
    method StartBackend() returns (ok: bool)
      modifies this`backend
      ensures ok ==> backend.Some?
      ensures old(backend).Some? ==> backend == old(backend)
      ensures old(backend).None? && backend.Some? ==> Started(backend.value)
    {
      ok := *;
      if backend.Some? || !IsFile(files, SERVER) || (inForce && !IsFile(files, ROLLOUT_ENV)) {
        return ok && backend.Some?;
      }
      var env: Env := *;
      if inForce && SaysRollout(files) { env := EnvOf(RolloutOf(files)); }
      if shadow.Some? { env := shadow.value; }
      var up: bool := *;
      if ok || up { backend := Some(Process(env, files[SERVER].content)); }
    }

    method RestartBackend() returns (ok: bool)
      modifies this`backend
      ensures ok ==> backend.Some? && Started(backend.value)
      ensures !ok ==> backend == None || backend == old(backend) || Started(backend.value)
    {
      ok := StopBackend();
      if ok { ok := StartBackend(); }
    }

    method SwitchApache(on: bool) returns (ok: bool)
      modifies this`apache
      ensures apache == on || (!ok && apache == old(apache))
    {
      ok := *;
      var done: bool := *;
      if ok || done { apache := on; }
    }

    method DaemonReload() returns (ok: bool)
      modifies this`inForce
      ensures ok ==> inForce == SaysOverride(files)
    {
      ok := *;
      var done: bool := *;
      if ok || done { inForce := SaysOverride(files); }
    }

    /** The environment of the running process; reading it may fail, and fails when there is
        no process. */
    method ProcessEnvironment() returns (env: Option<Env>)
      ensures env.Some? ==> backend.Some? && env.value == backend.value.env
    {
      var readable: bool := *;
      return if readable && backend.Some? then Some(backend.value.env) else None;
    }

    /** The rollout file, the drop-in, and a daemon-reload. */
    method SetRollout(r: Rollout) returns (ok: bool)
      requires Rooted(files)
      modifies this`files, this`seen, this`inForce
      ensures Rooted(files) && OnlyAt(old(files), files, {ROLLOUT_ENV, ROLLOUT_UNIT})
      ensures ok ==> SaysRollout(files) && RolloutOf(files) == r && SaysOverride(files) && inForce
      ensures r.testUser != 0 && r.retention ==> !ok && files == old(files) && inForce == old(inForce)
    {
      hide OnlyAt;
      hide Graft;
      hide Rooted;
      hide MakeDirs;
      hide Clear;
      hide SaysOverride;
      hide SaysRollout;
      RolloutPathsApart();
      OnlyAtSame(files);
      if r.testUser != 0 && r.retention { return false; }
      ghost var t := files;
      ok := MkDirs(Parent(ROLLOUT_ENV));
      RolloutFrames(t, t, files, ROLLOUT_ENV);
      if !ok { return; }
      ghost var t1 := files;
      ok := PutWhole(ROLLOUT_ENV, RolloutText(r));
      RolloutFrames(t, t1, files, ROLLOUT_ENV);
      if !ok { return; }
      ghost var t2 := files;
      PutSays(t1, r);
      var moded: bool := *;
      if !moded { return false; }
      ok := MkDirs(Parent(ROLLOUT_UNIT));
      RolloutFrames(t, t2, files, ROLLOUT_UNIT);
      if !ok { return; }
      ghost var t3 := files;
      ok := PutWhole(ROLLOUT_UNIT, OverrideText);
      RolloutFrames(t, t3, files, ROLLOUT_UNIT);
      if !ok { return; }
      ok := DaemonReload();
      RolloutKept(t2, t3, files);
      PutOverride(t3);
    }
  }

  // ------------------------------------------------------- frames of commands

  /** A copy under the staging name, in its directory. */
  function StagedCopy(t: Files, dst: Path, c: Content): Files
    requires dst != []
  {
    Graft(MakeDirs(t, Parent(dst)), Staged(dst), FileOf(c))
  }

  /** An installed file: nothing at the staging name and the contents in their place. */
  function Placement(t: Files, dst: Path, c: Content): Files
    requires dst != []
  {
    Graft(Graft(t, Staged(dst), map[]), dst, FileOf(c))
  }

  /** There is no source to copy, or a directory has the staging name. */
  predicate NothingStaged(t: Files, src: Path, dst: Path)
    requires dst != []
  {
    !IsFile(t, src) || IsDir(t, Staged(dst))
  }

  lemma DirsKeepFile(t: Files, d: Path, p: Path)
    ensures IsFile(MakeDirs(t, d), p) <==> IsFile(t, p)
    ensures p in t ==> p in MakeDirs(t, d) && MakeDirs(t, d)[p] == t[p]
  {
    MakeDirsAt(t, d, p);
  }

  lemma GraftTwice(t: Files, p: Path, a: Files, b: Files)
    ensures Graft(Graft(t, p, a), p, b) == Graft(t, p, b)
  {
    forall q ensures var twice, once := Graft(Graft(t, p, a), p, b), Graft(t, p, b);
      (q in twice <==> q in once) && (q in once ==> twice[q] == once[q])
    {
      GraftAt(t, p, a, q);
      GraftAt(t, p, b, q);
      GraftAt(Graft(t, p, a), p, b, q);
    }
  }

  lemma PlacementIs(t: Files, dst: Path, c: Content)
    requires dst != []
    ensures SubTree(Placement(t, dst, c), dst) == FileOf(c) && SubTree(Placement(t, dst, c), Staged(dst)) == map[]
  {
    hide SubTree;
    hide Graft;
    StagedIsApart(dst);
    var cleared := Graft(t, Staged(dst), map[]);
    SubTreeOfGraft(t, Staged(dst), map[]);
    SubTreeOfGraft(cleared, dst, FileOf(c));
    SubTreeApart(cleared, dst, FileOf(c), Staged(dst));
  }

  lemma StagedIsFile(t: Files, dst: Path, c: Content)
    requires dst != []
    ensures IsFile(StagedCopy(t, dst, c), Staged(dst)) && StagedCopy(t, dst, c)[Staged(dst)] == File(c)
    ensures IsDir(t, dst) ==> IsDir(StagedCopy(t, dst, c), dst)
  {
    hide Graft;
    hide MakeDirs;
    var t1 := MakeDirs(t, Parent(dst));
    GraftedFile(t1, Staged(dst), c);
    StagedIsApart(dst);
    GraftAt(t1, Staged(dst), FileOf(c), dst);
    DirsKeepFile(t, Parent(dst), dst);
  }

  /** Staging a copy and renaming it leaves the copy at its place and no staging file. */
  lemma InstalledAt(t: Files, dst: Path, c: Content)
    requires dst != []
    ensures var t2 := StagedCopy(t, dst, c);
            Graft(Graft(t2, Staged(dst), map[]), dst, FileOf(c)) == Placement(MakeDirs(t, Parent(dst)), dst, c)
    ensures SubTree(Placement(MakeDirs(t, Parent(dst)), dst, c), dst) == FileOf(c)
    ensures SubTree(Placement(MakeDirs(t, Parent(dst)), dst, c), Staged(dst)) == map[]
  {
    hide SubTree;
    hide Graft;
    hide MakeDirs;
    GraftTwice(MakeDirs(t, Parent(dst)), Staged(dst), FileOf(c), map[]);
    PlacementIs(MakeDirs(t, Parent(dst)), dst, c);
  }

  lemma StagedIsApart(p: Path)
    requires p != []
    ensures Apart(p, Staged(p)) && Staged(p) != [] && Parent(Staged(p)) == Parent(p) && |Staged(p)| == |p|
  {
    var q := Staged(p);
    assert |q[|q| - 1]| != |p[|p| - 1]|;
    assert Parent(q) == Parent(p);
  }

  lemma GraftedFile(t: Files, p: Path, c: Content)
    ensures IsFile(Graft(t, p, FileOf(c)), p) && Graft(t, p, FileOf(c))[p] == File(c)
  {
    GraftAt(t, p, FileOf(c), p);
    assert p[|p|..] == [];
  }

  lemma SubTreeAtRoot(t: Files, p: Path)
    ensures [] in SubTree(t, p) <==> p in t
    ensures p in t ==> SubTree(t, p)[[]] == t[p]
  {
    assert p + [] == p;
  }

  lemma OnlyAtSame(t: Files)
    ensures forall ps :: OnlyAt(t, t, ps)
  {
  }

  lemma OnlyAtMore(t: Files, t': Files, ps: set<Path>, more: set<Path>)
    requires OnlyAt(t, t', ps) && ps <= more
    ensures OnlyAt(t, t', more)
  {
  }

  lemma DirsExtend(t: Files, d: Path)
    ensures Extends(t, MakeDirs(t, d))
  {
    forall q | q in t ensures q in MakeDirs(t, d) && MakeDirs(t, d)[q] == t[q] {
      MakeDirsAt(t, d, q);
    }
  }

  lemma DirsAreFramed(t: Files, d: Path, d': Path)
    requires d' <= d && Clear(t, d')
    ensures forall p :: d <= p ==> OnlyAt(t, MakeDirs(t, d'), {p})
  {
    forall p | d <= p ensures OnlyAt(t, MakeDirs(t, d'), {p}) {
      OnlyAtDirs(t, p, d');
    }
  }

  lemma PutIsFramed(t: Files, p: Path, c: Content)
    requires Rooted(t) && p != [] && IsDir(t, Parent(p))
    ensures Rooted(Graft(t, p, FileOf(c))) && OnlyAt(t, Graft(t, p, FileOf(c)), {p})
  {
    OnlyAtGraft(t, p, FileOf(c));
  }

  lemma StagingFrames(t: Files, t1: Files, dst: Path)
    requires dst != [] && OnlyAt(t, t1, {Staged(dst)})
    ensures forall t2 :: OnlyAt(t1, t2, {Staged(dst)}) ==> OnlyAt(t, t2, {Staged(dst)})
  {
    forall t2 | OnlyAt(t1, t2, {Staged(dst)}) ensures OnlyAt(t, t2, {Staged(dst)}) {
      OnlyAtTrans(t, t1, t2, {Staged(dst)}, {Staged(dst)});
      assert {Staged(dst)} + {Staged(dst)} == {Staged(dst)};
    }
  }

  lemma InstallFrames(t: Files, t2: Files, t3: Files, dst: Path)
    requires dst != [] && OnlyAt(t, t2, {Staged(dst)}) && OnlyAt(t2, t3, {Staged(dst), dst})
    ensures OnlyAt(t, t3, {Staged(dst), dst})
  {
    OnlyAtTrans(t, t2, t3, {Staged(dst)}, {Staged(dst), dst});
    assert {Staged(dst)} + {Staged(dst), dst} == {Staged(dst), dst};
  }

  lemma DifferAt(p: Path, q: Path, k: nat)
    requires k < |p| && k < |q| && p[k] != q[k]
    ensures Apart(p, q)
  {
  }

  lemma RolloutPathsApart()
    ensures Apart(ROLLOUT_ENV, ROLLOUT_UNIT)
  {
    assert ROLLOUT_ENV[0][0] == 'a' && ROLLOUT_UNIT[0][0] == 'e';
    DifferAt(ROLLOUT_ENV, ROLLOUT_UNIT, 0);
  }

  lemma RolloutFrames(t: Files, t1: Files, t2: Files, p: Path)
    requires p == ROLLOUT_ENV || p == ROLLOUT_UNIT
    requires OnlyAt(t, t1, {ROLLOUT_ENV, ROLLOUT_UNIT}) && OnlyAt(t1, t2, {p})
    ensures OnlyAt(t, t2, {ROLLOUT_ENV, ROLLOUT_UNIT})
  {
    OnlyAtTrans(t, t1, t2, {ROLLOUT_ENV, ROLLOUT_UNIT}, {p});
    assert {ROLLOUT_ENV, ROLLOUT_UNIT} + {p} == {ROLLOUT_ENV, ROLLOUT_UNIT};
  }

  lemma PutSays(t: Files, r: Rollout)
    ensures var t' := Graft(t, ROLLOUT_ENV, FileOf(RolloutText(r))); SaysRollout(t') && RolloutOf(t') == r
  {
    GraftedFile(t, ROLLOUT_ENV, RolloutText(r));
  }

  lemma PutOverride(t: Files)
    ensures SaysOverride(Graft(t, ROLLOUT_UNIT, FileOf(OverrideText)))
  {
    GraftedFile(t, ROLLOUT_UNIT, OverrideText);
  }

  lemma StaysAt(t: Files, t': Files, p: Path, q: Path)
    requires OnlyAt(t, t', {p}) && Apart(p, q) && q in t
    ensures q in t' && t'[q] == t[q]
  {
  }

  lemma ApartStays(t: Files, t': Files, p: Path, q: Path)
    requires OnlyAt(t, t', {p}) && Apart(p, q)
    ensures SubTree(t', q) == SubTree(t, q)
  {
  }

  lemma RolloutKept(t2: Files, t3: Files, t4: Files)
    requires SaysRollout(t2) && OnlyAt(t2, t3, {ROLLOUT_UNIT}) && OnlyAt(t3, t4, {ROLLOUT_UNIT})
    ensures SaysRollout(t4) && RolloutOf(t4) == RolloutOf(t2)
  {
    hide OnlyAt;
    RolloutPathsApart();
    StaysAt(t2, t3, ROLLOUT_UNIT, ROLLOUT_ENV);
    StaysAt(t3, t4, ROLLOUT_UNIT, ROLLOUT_ENV);
  }

  lemma RenameIsFramed(t: Files, from: Path, to: Path)
    requires Rooted(t) && from != [] && to != [] && Parent(from) == Parent(to) && from != to && IsFile(t, from)
    ensures var t' := Graft(Graft(t, from, map[]), to, map[[] := t[from]]);
            Rooted(t') && OnlyAt(t, t', {from, to})
  {
    var t1 := Graft(t, from, map[]);
    OnlyAtGraft(t, from, map[]);
    GraftAt(t, from, map[], Parent(to));
    OnlyAtGraft(t1, to, map[[] := t[from]]);
    OnlyAtTrans(t, t1, Graft(t1, to, map[[] := t[from]]), {from}, {to});
    assert {from} + {to} == {from, to};
  }
}
