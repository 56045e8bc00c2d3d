/** `install_web` of deploy/remote_release.py: assets first, the page that names them last. */
module WebInstall {
  import opened FileTree
  import opened ReleaseHost
  import opened WebOrder
  import opened Wrappers

  /** The places an installation of `rs` writes to. */
  function Footprint(dest: Path, rs: set<Path>): set<Path>
    requires forall r :: r in rs ==> r != []
  {
    (set r | r in rs :: dest + r) + (set r | r in rs :: dest + Staged(r))
  }

  /** Whatever was there before and is not written to is there unchanged. */
  ghost predicate Keeps(t0: Files, t: Files, ps: set<Path>) {
    forall q :: q in t0 && (forall p :: p in ps ==> !(p <= q)) ==> q in t && t[q] == t0[q]
  }

  /** A finished installation: the directories were made, which changed no place of a file, and
      then the assets were installed in some order, and the page. */
  ghost predicate Finished(src: Files, t0: Files, t: Files, dest: Path) {
    exists made, order :: FinishedBy(src, t0, t, dest, made, order)
  }

  ghost predicate FinishedBy(src: Files, t0: Files, t: Files, dest: Path, made: Files, order: seq<Path>) {
    && DirsOnly(src, t0, made, dest) && Ready(src, made, dest) && Lists(order, Assets(src))
    && InstallSeq(made, src, dest, order + [INDEX]) == Some(t)
  }

  ghost predicate DirsOnly(src: Files, t0: Files, made: Files, dest: Path) {
    Extends(t0, made) && forall s :: s in FilesIn(src) ==> SubTree(made, dest + s) == SubTree(t0, dest + s)
  }

  /** What holds of every state the files pass through, whatever the source: what is not
      written to stays, and the page is the old one until the installation is finished. */
  ghost predicate Orderly(src: Files, t0: Files, t: Files, dest: Path) {
    && Keeps(t0, t, Footprint(dest, ToInstall(src)))
    && (IsFile(src, INDEX) ==> SubTree(t, dest + INDEX) == SubTree(t0, dest + INDEX) || Finished(src, t0, t, dest))
  }

  // --------------------------------------------------------- what that means

  lemma FinishedAt(src: Files, t0: Files, t: Files, dest: Path, made: Files, order: seq<Path>)
    requires Graftable(src) && FinishedBy(src, t0, t, dest, made, order)
    ensures At(src, t0, t, dest, order + [INDEX]) && INDEX in FilesIn(src) && !Blocked(src)
  {
    hide Graftable;
    hide Ready;
    hide SubTree;
    var rs := order + [INDEX];
    SeqAt(src, made, dest, rs);
    assert rs[|order|] == INDEX;
    NotBlocked(src, rs, order);
    forall s | s in FilesIn(src) ensures FileAt(src, t0, t, dest, rs, s) {
      assert FileAt(src, made, t, dest, rs, s);
    }
  }

  /** Hence, for a source without a clash or with a blocked name, the page is last in every
      state; and no other source can promise it. */
  lemma OrderlyIsPageLast(src: Files, t0: Files, t: Files, dest: Path)
    requires Graftable(src) && IsFile(src, INDEX) && Orderly(src, t0, t, dest) && (!Clashes(src) || Blocked(src))
    ensures PageLast(src, t0, t, dest)
  {
    hide Graftable;
    hide SubTree;
    hide Clashes;
    hide Blocked;
    hide FinishedBy;
    if SubTree(t, dest + INDEX) != SubTree(t0, dest + INDEX) {
      var made, order :| FinishedBy(src, t0, t, dest, made, order);
      FinishedAt(src, t0, t, dest, made, order);
      OrderLists(src, t0, t, dest, made, order);
      NoClashAllPlaced(src, t0, t, dest, order);
    }
  }

  lemma OrderLists(src: Files, t0: Files, t: Files, dest: Path, made: Files, order: seq<Path>)
    requires FinishedBy(src, t0, t, dest, made, order)
    ensures Lists(order, Assets(src))
  {
  }

  // ------------------------------------------------- one state to the next

  lemma KeepsOn(t0: Files, t: Files, t': Files, ps: set<Path>, qs: set<Path>)
    requires Keeps(t0, t, ps) && (Extends(t, t') || OnlyAt(t, t', qs)) && qs <= ps
    ensures Keeps(t0, t', ps)
  {
  }

  /** Making a directory of the source changes no place of a source file. */
  lemma DirStepAt(src: Files, t: Files, t': Files, dest: Path, d: Path, s: Path)
    requires Graftable(src) && (d == [] || d in Dirs(src)) && s in FilesIn(src) && OnlyDirs(t, t', dest + d)
    ensures SubTree(t', dest + s) == SubTree(t, dest + s)
  {
    hide SubTree;
    hide Graftable;
    hide OnlyAt;
    if d <= s {
      StagedIsApart(s);
      PrefixUnder(dest, d, Staged(s));
      assert d != s && |d| < |s|;
      assert d == s[..|d|] == Parent(s)[..|d|] == Staged(s)[..|d|];
      ApartUnder(dest, Staged(s), s);
      ApartStays(t, t', dest + Staged(s), dest + s);
    } else {
      FilesApart(src, s, d);
      ApartUnder(dest, d, s);
      ApartStays(t, t', dest + d, dest + s);
    }
  }

  /** A state on the way: the directories are made and `rs` are installed. */
  ghost predicate Going(src: Files, t0: Files, made: Files, t: Files, dest: Path, rs: seq<Path>) {
    && DirsOnly(src, t0, made, dest) && Ready(src, made, dest) && InstallSeq(made, src, dest, rs) == Some(t)
    && Keeps(t0, t, Footprint(dest, ToInstall(src)))
  }

  lemma GoingPage(src: Files, t0: Files, made: Files, t: Files, dest: Path, rs: seq<Path>)
    requires Graftable(src) && Going(src, t0, made, t, dest, rs) && INDEX !in rs && IsFile(src, INDEX)
    ensures SubTree(t, dest + INDEX) == SubTree(t0, dest + INDEX)
  {
    hide Graftable;
    hide Ready;
    hide SubTree;
    hide Keeps;
    SeqAt(src, made, dest, rs);
    assert Last(INDEX) == "index.html";
    PageUntouched(src, made, t, dest, rs, INDEX);
  }

  lemma ReadyIn(src: Files, t0: Files, made: Files, t: Files, dest: Path, rs: seq<Path>)
    requires Graftable(src) && Going(src, t0, made, t, dest, rs)
    ensures Ready(src, t, dest)
  {
    hide Graftable;
    hide Ready;
    hide Keeps;
    SeqAt(src, made, dest, rs);
  }

  /** A state while `r` is being staged keeps the page, too. */
  lemma StagingIsOrderly(src: Files, t0: Files, made: Files, t: Files, t': Files, dest: Path, rs: seq<Path>, r: Path)
    requires Graftable(src) && Going(src, t0, made, t, dest, rs) && INDEX !in rs && r in ToInstall(src)
    requires OnlyAt(t, t', {dest + Staged(r)})
    requires r !in FilesIn(src) || Staged(r) in Dirs(src) ==> OnlyDirs(t, t', dest + Parent(r))
    ensures Orderly(src, t0, t', dest)
  {
    hide Graftable;
    hide SubTree;
    hide Finished;
    KeepsOn(t0, t, t', Footprint(dest, ToInstall(src)), {dest + Staged(r)});
    if IsFile(src, INDEX) {
      GoingPage(src, t0, made, t, dest, rs);
      hide Going;
      hide Keeps;
      StagedIsNoPage(r);
      if r !in FilesIn(src) || Staged(r) in Dirs(src) {
        ParentIsDir(src, r);
        DirStepAt(src, t, t', dest, Parent(r), INDEX);
      } else {
        StagedFromFile(src, r, INDEX);
        ApartUnder(dest, Staged(r), INDEX);
        ApartStays(t, t', dest + Staged(r), dest + INDEX);
      }
    }
  }

  lemma ParentIsDir(src: Files, r: Path)
    requires Graftable(src) && r in ToInstall(src) && r != []
    ensures Parent(r) == [] || Parent(r) in Dirs(src)
  {
  }

  /** Nothing changed that lies apart from `dest`. */
  ghost predicate OnlyUnder(t: Files, t': Files, dest: Path) {
    forall q :: Apart(q, dest) ==> SubTree(t', q) == SubTree(t, q)
  }

  lemma StaysUnder(t: Files, t1: Files, t2: Files, dest: Path, ps: set<Path>)
    requires OnlyUnder(t, t1, dest) && OnlyAt(t1, t2, ps) && forall p :: p in ps ==> dest <= p
    ensures OnlyUnder(t, t2, dest)
  {
    hide SubTree;
    forall q | Apart(q, dest) ensures SubTree(t2, q) == SubTree(t, q) {
      forall p | p in ps ensures Apart(p, q) {
        assert p == dest + p[|dest|..];
        ApartBelow(q, dest, p[|dest|..]);
      }
    }
  }

  /** The rename that puts `r` in its place. */
  lemma PlacingStep(src: Files, t0: Files, made: Files, t: Files, t': Files, dest: Path, rs: seq<Path>, r: Path)
    requires Graftable(src) && Going(src, t0, made, t, dest, rs) && r in ToInstall(src) && r in FilesIn(src)
    requires !IsDir(t, Staged(dest + r)) && !IsDir(t, dest + r) && t' == Placement(MakeDirs(t, Parent(dest + r)), dest + r, src[r].content)
    requires OnlyAt(t, t', {Staged(dest + r), dest + r})
    ensures Going(src, t0, made, t', dest, rs + [r])
  {
    hide Graftable;
    hide Placement;
    hide DirsOnly;
    hide Ready;
    hide Keeps;
    hide OnlyAt;
    hide InstallAt;
    ReadyIn(src, t0, made, t, dest, rs);
    InstallsAt(src, t, dest, r);
    StagedUnder(dest, r);
    assert (rs + [r])[..|rs + [r]| - 1] == rs;
    KeepsOn(t0, t, t', Footprint(dest, ToInstall(src)), {dest + Staged(r), dest + r});
  }

  lemma InstallsAt(src: Files, t: Files, dest: Path, r: Path)
    requires Graftable(src) && Ready(src, t, dest) && r in ToInstall(src) && r in FilesIn(src)
    requires !IsDir(t, Staged(dest + r)) && !IsDir(t, dest + r)
    ensures InstallAt(t, src, dest, r) == Some(Placement(MakeDirs(t, Parent(dest + r)), dest + r, src[r].content))
  {
    ParentIsDir(src, r);
    hide Graftable;
    hide Placement;
    hide Rooted;
    assert Parent(dest + r) == dest + Parent(r);
    assert dest + [] == dest;
    assert IsDir(t, Parent(dest + r));
    assert MakeDirs(t, Parent(dest + r)) == t;
  }

  lemma GoingIsOrderly(src: Files, t0: Files, made: Files, t: Files, dest: Path, rs: seq<Path>)
    requires Graftable(src) && Going(src, t0, made, t, dest, rs) && (INDEX !in rs || Finished(src, t0, t, dest))
    ensures Orderly(src, t0, t, dest)
  {
    if INDEX !in rs && IsFile(src, INDEX) {
      GoingPage(src, t0, made, t, dest, rs);
    }
  }

  lemma GoingFinished(src: Files, t0: Files, made: Files, t: Files, dest: Path, order: seq<Path>)
    requires Going(src, t0, made, t, dest, order + [INDEX]) && Lists(order, Assets(src))
    ensures Finished(src, t0, t, dest)
  {
    assert FinishedBy(src, t0, t, dest, made, order);
  }

  // ------------------------------------------------------------ the method

  lemma Before(t: Files, source: Path, dest: Path, r: Path, t0: Files, made: Files, src: Files, rs: seq<Path>)
    requires SubTree(t, source) == src && Graftable(src) && Going(src, t0, made, t, dest, rs) && r in ToInstall(src)
    ensures r != [] && dest + r != [] && Staged(dest + r) == dest + Staged(r) && Parent(dest + r) == dest + Parent(r)
    ensures r !in FilesIn(src) || Staged(r) in Dirs(src) ==> NothingStaged(t, source + r, dest + r)
    ensures IsFile(t, source + r) ==> r in FilesIn(src) && src[r].content == t[source + r].content
  {
    hide Graftable;
    hide SubTree;
    hide Rooted;
    ReadyIn(src, t0, made, t, dest, rs);
    StagedUnder(dest, r);
    SubTreeHas(t, source, r);
    hide Going;
    hide Staged;
    assert Parent(dest + r) == dest + Parent(r);
  }

  /** One file goes to its place; the page when all assets have. */
  method InstallOne(h: Host, source: Path, dest: Path, r: Path, ghost t0: Files, ghost made: Files, ghost src: Files, ghost rs: seq<Path>)
    returns (ok: bool)
    requires Rooted(h.files) && Apart(source, dest) && SubTree(h.files, source) == src && Graftable(src)
    requires Going(src, t0, made, h.files, dest, rs) && r in ToInstall(src) && INDEX !in rs && (r == INDEX ==> Lists(rs, Assets(src)))
    modifies h`files, h`seen
    ensures Rooted(h.files) && SubTree(h.files, source) == src && OnlyUnder(old(h.files), h.files, dest)
    ensures ok ==> r in FilesIn(src) && Going(src, t0, made, h.files, dest, rs + [r])
    ensures old(h.seen) <= h.seen && forall k :: |old(h.seen)| <= k < |h.seen| ==> Orderly(src, t0, h.seen[k], dest)
  {
    hide SubTree;
    hide OnlyAt;
    hide Rooted;
    hide Going;
    hide Orderly;
    hide Graftable;
    hide Placement;
    hide OnlyDirs;
    hide Staged;
    hide Parent;
    hide NothingStaged;
    hide FilesIn;
    hide Dirs;
    hide ToInstall;
    hide IsFile;
    ghost var t := h.files;
    Before(t, source, dest, r, t0, made, src, rs);
    ok := h.InstallFile(source + r, dest + r);
    assert dest <= dest + Staged(r) && dest <= dest + r;
    StaysUnder(t, t, h.files, dest, {dest + Staged(r), dest + r});
    if ok {
      PlacingStep(src, t0, made, t, h.files, dest, rs, r);
      if r == INDEX { GoingFinished(src, t0, made, h.files, dest, rs); }
      GoingIsOrderly(src, t0, made, h.files, dest, rs + [r]);
    }
    forall k | |old(h.seen)| <= k < |h.seen| ensures Orderly(src, t0, h.seen[k], dest) {
      if OnlyAt(t, h.seen[k], {dest + Staged(r)}) {
        StagingIsOrderly(src, t0, made, t, h.seen[k], dest, rs, r);
      }
    }
  }

  /** A state while directories are being made. */
  ghost predicate Making(src: Files, t0: Files, t: Files, dest: Path) {
    Keeps(t0, t, Footprint(dest, ToInstall(src))) && DirsOnly(src, t0, t, dest)
  }

  lemma MakingStep(src: Files, t0: Files, t: Files, t': Files, dest: Path, d: Path)
    requires Graftable(src) && Making(src, t0, t, dest) && (d == [] || d in Dirs(src)) && OnlyDirs(t, t', dest + d)
    ensures Making(src, t0, t', dest) && Orderly(src, t0, t', dest)
  {
    hide Graftable;
    hide SubTree;
    KeepsOn(t0, t, t', Footprint(dest, ToInstall(src)), {});
    forall s | s in FilesIn(src) ensures SubTree(t', dest + s) == SubTree(t0, dest + s) {
      DirStepAt(src, t, t', dest, d, s);
    }
    hide OnlyAt;
    assert IsFile(src, INDEX) ==> INDEX in FilesIn(src);
  }

  lemma MakingStart(src: Files, t0: Files, dest: Path)
    ensures Making(src, t0, t0, dest)
  {
  }

  lemma DirsStay(t: Files, t': Files, dest: Path, made: set<Path>)
    requires Extends(t, t') && forall d :: d in made ==> IsDir(t, dest + d)
    ensures forall d :: d in made ==> IsDir(t', dest + d)
    ensures IsDir(t, dest) ==> IsDir(t', dest)
  {
  }

  method InstallDirs(h: Host, source: Path, dest: Path, ghost t0: Files) returns (ok: bool)
    requires Rooted(h.files) && Apart(source, dest) && Graftable(SubTree(h.files, source)) && Making(SubTree(h.files, source), t0, h.files, dest)
    requires IsDir(h.files, dest)
    modifies h`files, h`seen
    ensures Rooted(h.files) && SubTree(h.files, source) == SubTree(old(h.files), source) && OnlyUnder(old(h.files), h.files, dest)
    ensures ok ==> Going(SubTree(h.files, source), t0, h.files, h.files, dest, [])
    ensures old(h.seen) <= h.seen
    ensures forall k :: |old(h.seen)| <= k < |h.seen| ==> Orderly(SubTree(old(h.files), source), t0, h.seen[k], dest)
  {
    hide SubTree;
    hide OnlyAt;
    hide Rooted;
    hide Making;
    hide Orderly;
    hide Graftable;
    hide OnlyUnder;
    hide Extends;
    ok := true;
    var src := SubTree(h.files, source);
    var todo := Dirs(src);
    UnderSelf(h.files, dest);
    while todo != {}
      invariant todo <= Dirs(src) && Rooted(h.files) && SubTree(h.files, source) == src && Making(src, t0, h.files, dest)
      invariant IsDir(h.files, dest) && forall d :: d in Dirs(src) - todo ==> IsDir(h.files, dest + d)
      invariant OnlyUnder(old(h.files), h.files, dest)
      invariant old(h.seen) <= h.seen && forall k :: |old(h.seen)| <= k < |h.seen| ==> Orderly(src, t0, h.seen[k], dest)
      decreases |todo|
    {
      var d :| d in todo;
      ghost var t := h.files;
      ok := h.MkDirs(dest + d);
      MakingStep(src, t0, t, h.files, dest, d);
      assert OnlyAt(t, h.files, {dest + d});
      StaysUnder(old(h.files), t, h.files, dest, {dest + d});
      UnderKeepsSource(old(h.files), h.files, source, dest);
      if !ok { return; }
      DirsStay(t, h.files, dest, Dirs(src) - todo);
      MakeDirsIsRooted(t, dest + d);
      todo := todo - {d};
    }
    MakingDone(src, t0, h.files, dest);
  }

  lemma UnderSelf(t: Files, dest: Path)
    ensures OnlyUnder(t, t, dest)
  {
  }

  lemma UnderKeepsSource(t: Files, t': Files, source: Path, dest: Path)
    requires OnlyUnder(t, t', dest) && Apart(source, dest)
    ensures SubTree(t', source) == SubTree(t, source)
  {
  }

  lemma MakingDone(src: Files, t0: Files, t: Files, dest: Path)
    requires Making(src, t0, t, dest) && Rooted(t) && IsDir(t, dest) && forall d :: d in Dirs(src) ==> IsDir(t, dest + d)
    ensures Going(src, t0, t, t, dest, [])
  {
  }

  method InstallAssets(h: Host, source: Path, dest: Path, ghost t0: Files, ghost made: Files) returns (ok: bool, ghost order: seq<Path>)
    requires Rooted(h.files) && Apart(source, dest) && Graftable(SubTree(h.files, source))
    requires Going(SubTree(h.files, source), t0, made, h.files, dest, [])
    modifies h`files, h`seen
    ensures Rooted(h.files) && SubTree(h.files, source) == SubTree(old(h.files), source) && OnlyUnder(old(h.files), h.files, dest)
    ensures ok ==> Lists(order, Assets(SubTree(h.files, source))) && Going(SubTree(h.files, source), t0, made, h.files, dest, order)
    ensures old(h.seen) <= h.seen
    ensures forall k :: |old(h.seen)| <= k < |h.seen| ==> Orderly(SubTree(old(h.files), source), t0, h.seen[k], dest)
  {
    hide SubTree;
    hide OnlyAt;
    hide Rooted;
    hide Going;
    hide Orderly;
    hide Graftable;
    hide OnlyUnder;
    ok, order := true, [];
    var src := SubTree(h.files, source);
    var todo := Assets(src);
    IndexIsNoAsset(src);
    UnderSelf(h.files, dest);
    while todo != {}
      invariant todo <= Assets(src) && Rooted(h.files) && SubTree(h.files, source) == src && Going(src, t0, made, h.files, dest, order)
      invariant Lists(order, Assets(src) - todo)
      invariant OnlyUnder(old(h.files), h.files, dest)
      invariant old(h.seen) <= h.seen && forall k :: |old(h.seen)| <= k < |h.seen| ==> Orderly(src, t0, h.seen[k], dest)
      decreases |todo|
    {
      var r :| r in todo;
      ghost var t := h.files;
      ok := InstallOne(h, source, dest, r, t0, made, src, order);
      UnderTrans(old(h.files), t, h.files, dest);
      if !ok { return; }
      OneMoreListed(order, Assets(src) - todo, r);
      assert Assets(src) - todo + {r} == Assets(src) - (todo - {r});
      todo := todo - {r};
      order := order + [r];
    }
    assert Assets(src) - {} == Assets(src);
  }

  lemma UnderTrans(t: Files, t1: Files, t2: Files, dest: Path)
    requires OnlyUnder(t, t1, dest) && OnlyUnder(t1, t2, dest)
    ensures OnlyUnder(t, t2, dest)
  {
  }

  lemma OneMoreListed(order: seq<Path>, s: set<Path>, r: Path)
    requires Lists(order, s) && r !in s
    ensures Lists(order + [r], s + {r})
  {
    forall i | 0 <= i < |order| ensures order[i] != r {
      assert order[i] in order;
    }
  }

  lemma IndexIsNoAsset(src: Files)
    ensures INDEX !in Assets(src)
  {
    assert Last(INDEX) == "index.html";
  }

  method InstallWeb(h: Host, source: Path, dest: Path) returns (ok: bool)
    requires Rooted(h.files) && Apart(source, dest)
    modifies h`files, h`seen
    ensures Rooted(h.files) && SubTree(h.files, source) == SubTree(old(h.files), source) && OnlyUnder(old(h.files), h.files, dest)
    ensures var src := SubTree(old(h.files), source);
            && old(h.seen) <= h.seen
            && (forall k :: |old(h.seen)| <= k < |h.seen| ==> Orderly(src, old(h.files), h.seen[k], dest))
            && (ok ==> Finished(src, old(h.files), h.files, dest))
  {
    hide SubTree;
    hide OnlyAt;
    hide Rooted;
    hide Going;
    hide Making;
    hide Orderly;
    hide Graftable;
    hide OnlyUnder;
    ghost var t0 := h.files;
    ghost var src := SubTree(h.files, source);
    MakingStart(src, t0, dest);
    SubTreeGraftable(t0, source);
    UnderSelf(t0, dest);
    ok := h.MkDirs(dest);
    assert dest + [] == dest;
    MakingStep(src, t0, t0, h.files, dest, []);
    assert OnlyAt(t0, h.files, {dest});
    StaysUnder(t0, t0, h.files, dest, {dest});
    UnderKeepsSource(t0, h.files, source, dest);
    if !ok { return; }
    MakeDirsIsRooted(t0, dest);
    ghost var t1 := h.files;
    ok := InstallDirs(h, source, dest, t0);
    UnderTrans(t0, t1, h.files, dest);
    if !ok { return; }
    ghost var made := h.files;
    ghost var order;
    ok, order := InstallAssets(h, source, dest, t0, made);
    UnderTrans(t0, made, h.files, dest);
    if !ok { return; }
    IndexIsNoAsset(src);
    ghost var t2 := h.files;
    ok := InstallOne(h, source, dest, INDEX, t0, made, src, order);
    UnderTrans(t0, t2, h.files, dest);
    if ok {
      GoingFinished(src, t0, made, h.files, dest, order);
    }
  }
}
