/** What `install_web` of deploy/remote_release.py does to a web directory, file by file, for
    every source and every order in which its files may come. */
module WebOrder {
  import opened Wrappers
  import opened FileTree
  import opened ReleaseHost

  const INDEX: Path := ["index.html"]

  function Last(r: Path): string
    requires r != []
  {
    r[|r| - 1]
  }

  predicate IsAsset(src: Files, r: Path) {
    r in src && src[r].File? && r != [] && Last(r) != "index.html"
  }

  /** The files installed before the page: all but those called index.html, at any depth. */
  function Assets(src: Files): set<Path> {
    set r | r in src && IsAsset(src, r)
  }

  function Dirs(src: Files): set<Path> {
    set r | r in src && src[r].Dir? && r != []
  }

  function FilesIn(src: Files): set<Path> {
    set r | r in src && src[r].File? && r != []
  }

  function ToInstall(src: Files): set<Path> {
    Assets(src) + {INDEX}
  }

  /** The new file `r` is in place. */
  predicate Placed(src: Files, t: Files, dest: Path, r: Path)
    requires r in src && src[r].File?
  {
    SubTree(t, dest + r) == FileOf(src[r].content)
  }

  predicate AllPlaced(src: Files, t: Files, dest: Path) {
    forall r :: r in Assets(src) ==> Placed(src, t, dest, r)
  }

  /** The page is still the old one, unless every asset it can name is in place. */
  predicate PageLast(src: Files, t0: Files, t: Files, dest: Path) {
    SubTree(t, dest + INDEX) == SubTree(t0, dest + INDEX) || AllPlaced(src, t, dest)
  }

  /** An asset has the staging name of another file to install. */
  predicate Clashes(src: Files) {
    exists r :: r in ToInstall(src) && r != [] && Staged(r) in Assets(src)
  }

  /** A directory has the staging name of a file to install, which can then not be staged. */
  predicate Blocked(src: Files) {
    exists r :: r in ToInstall(src) && r != [] && Staged(r) in Dirs(src)
  }

  // ------------------------------------------------------ installing in order

  /** The files after `r` was installed, or nothing if a directory is in the way. */
  function InstallAt(t: Files, src: Files, dest: Path, r: Path): Option<Files> {
    var dst := dest + r;
    if r !in FilesIn(src) || !IsDir(t, Parent(dst)) || IsDir(t, Staged(dst)) || IsDir(t, dst) then None
    else Some(Placement(t, dst, src[r].content))
  }

  function InstallSeq(t: Files, src: Files, dest: Path, rs: seq<Path>): Option<Files> {
    if rs == [] then Some(t)
    else
      var front := InstallSeq(t, src, dest, rs[..|rs| - 1]);
      if front.None? then None else InstallAt(front.value, src, dest, rs[|rs| - 1])
  }

  /** Each element once, in some order. */
  ghost predicate Lists(rs: seq<Path>, s: set<Path>) {
    && (forall r :: r in rs <==> r in s)
    && (forall i, j :: 0 <= i < j < |rs| ==> rs[i] != rs[j])
  }

  /** The directories of the source have been made below `dest`. */
  predicate Ready(src: Files, t: Files, dest: Path) {
    Rooted(t) && IsDir(t, dest) && forall d :: d in Dirs(src) ==> IsDir(t, dest + d)
  }

  /** The place of `s` was used for staging after `s` itself was put there, if ever it was. */
  predicate Hit(rs: seq<Path>, s: Path) {
    exists j :: 0 <= j < |rs| && rs[j] != [] && Staged(rs[j]) == s && s !in rs[j..]
  }

  /** What is at the place of a source file after `rs` were installed: nothing if it served
      for staging since, its new contents if it was installed, and else what was there. */
  ghost predicate FileAt(src: Files, t0: Files, t: Files, dest: Path, rs: seq<Path>, s: Path)
    requires s in FilesIn(src)
  {
    if Hit(rs, s) then SubTree(t, dest + s) == map[]
    else if s in rs then Placed(src, t, dest, s)
    else SubTree(t, dest + s) == SubTree(t0, dest + s)
  }

  ghost predicate At(src: Files, t0: Files, t: Files, dest: Path, rs: seq<Path>) {
    forall s :: s in FilesIn(src) ==> FileAt(src, t0, t, dest, rs, s)
  }

  // ------------------------------------------------------------------- paths

  lemma StagedUnder(dest: Path, r: Path)
    requires r != []
    ensures Staged(dest + r) == dest + Staged(r)
  {
    assert (dest + r)[..|dest + r| - 1] == dest + r[..|r| - 1];
  }

  lemma PrefixUnder(dest: Path, a: Path, b: Path)
    ensures dest + a <= dest + b <==> a <= b
  {
    assert (dest + a)[|dest|..] == a && (dest + b)[|dest|..] == b;
    if a <= b { assert dest + b == dest + a + b[|a|..]; }
  }

  lemma ApartUnder(dest: Path, a: Path, b: Path)
    ensures Apart(dest + a, dest + b) <==> Apart(a, b)
  {
    PrefixUnder(dest, a, b);
    PrefixUnder(dest, b, a);
  }

  lemma ApartBelow(source: Path, dest: Path, r: Path)
    requires Apart(source, dest)
    ensures Apart(dest + r, source)
  {
    LongerPrefix(dest, r, source);
    if source <= dest + r { PrefixesCompare(source, dest, dest + r); }
  }

  lemma {:induction false} FileHasNothingBelow(src: Files, r: Path, s: Path)
    requires Graftable(src) && IsFile(src, r) && r <= s && r != s
    ensures s !in src
    decreases |s|
  {
    if s in src {
      var parent := s[..|s| - 1];
      assert IsDir(src, parent);
      FileHasNothingBelow(src, r, parent);
    }
  }

  /** Two different files of one tree lie apart, and no directory lies below a file. */
  lemma FilesApart(src: Files, r: Path, s: Path)
    requires Graftable(src) && IsFile(src, r) && s in src && r != s
    ensures !(r <= s) && (IsFile(src, s) ==> Apart(r, s))
  {
    if r <= s { FileHasNothingBelow(src, r, s); }
    if IsFile(src, s) && s <= r { FileHasNothingBelow(src, s, r); }
  }

  /** A staging name is never called index.html. */
  lemma StagedIsNoPage(r: Path)
    requires r != []
    ensures Staged(r) != [] && Last(Staged(r)) != "index.html" && Staged(r) != INDEX && Staged(r) != r
  {
    var name := Last(Staged(r));
    assert name == r[|r| - 1] + ".release-new" && |name| >= 12 && |"index.html"| == 10;
    StagedIsApart(r);
  }

  /** Where a staging name is no directory of the source, it lies apart from every other file. */
  lemma StagedFromFile(src: Files, r: Path, s: Path)
    requires Graftable(src) && r in FilesIn(src) && s in FilesIn(src) && Staged(r) !in Dirs(src) && s != Staged(r)
    ensures Apart(Staged(r), s)
  {
    hide Graftable;
    StagedIsApart(r);
    if Staged(r) <= s {
      assert Staged(r) == s[..|Staged(r)|];
      PrefixIsDir(src, s, |Staged(r)|);
    }
    if s <= Staged(r) {
      assert s == Staged(r)[..|s|] == r[..|s|];
      FileHasNothingBelow(src, s, r);
    }
  }

  lemma StagedFromDir(src: Files, r: Path, d: Path)
    requires Graftable(src) && r in FilesIn(src) && d in Dirs(src) && Staged(r) !in Dirs(src)
    ensures !(Staged(r) <= d) && !(r <= d)
  {
    hide Graftable;
    FilesApart(src, r, d);
    StagedIsApart(r);
    if Staged(r) <= d {
      assert Staged(r) != d && Staged(r) == d[..|Staged(r)|];
      PrefixIsDir(src, d, |Staged(r)|);
    }
  }

  // ------------------------------------------------------------ one installation

  lemma PlacementApart(t: Files, dst: Path, c: Content, q: Path)
    requires dst != [] && Apart(Staged(dst), q) && Apart(dst, q)
    ensures SubTree(Placement(t, dst, c), q) == SubTree(t, q)
  {
    hide SubTree;
    hide Graft;
    SubTreeApart(t, Staged(dst), map[], q);
    SubTreeApart(Graft(t, Staged(dst), map[]), dst, FileOf(c), q);
  }

  lemma PlacementAt(t: Files, dst: Path, c: Content, q: Path)
    requires dst != []
    ensures !(Staged(dst) <= q) && !(dst <= q) && q in t ==> q in Placement(t, dst, c) && Placement(t, dst, c)[q] == t[q]
    ensures IsDir(Placement(t, dst, c), q) ==> IsDir(t, q)
  {
    hide Graft;
    GraftAt(t, Staged(dst), map[], q);
    GraftAt(Graft(t, Staged(dst), map[]), dst, FileOf(c), q);
  }

  lemma PlacementIsRooted(t: Files, dst: Path, c: Content)
    requires Rooted(t) && dst != [] && IsDir(t, Parent(dst))
    ensures Rooted(Placement(t, dst, c))
  {
    hide Graft;
    hide Rooted;
    StagedIsApart(dst);
    GraftIsRooted(t, Staged(dst), map[]);
    GraftAt(t, Staged(dst), map[], Parent(dst));
    GraftIsRooted(Graft(t, Staged(dst), map[]), dst, FileOf(c));
  }

  lemma HitStep(rs: seq<Path>, r: Path, s: Path)
    requires r != []
    ensures Hit(rs + [r], s) <==> s != r && (Hit(rs, s) || Staged(r) == s)
  {
    hide Staged;
    var more := rs + [r];
    assert more[|rs|] == r && more[|rs|..] == [r];
    forall j | 0 <= j < |rs| ensures s !in more[j..] <==> s !in rs[j..] && s != r {
      assert more[j..] == rs[j..] + [r];
    }
    assert forall j :: 0 <= j < |rs| ==> more[j] == rs[j];
    StagedIsNoPage(r);
    if Hit(rs, s) && s != r {
      var j :| 0 <= j < |rs| && rs[j] != [] && Staged(rs[j]) == s && s !in rs[j..];
      assert more[j] == rs[j] && s !in more[j..];
    }
    if Staged(r) == s && s != r {
      assert s !in more[|rs|..];
    }
  }

  lemma ReadyStep(src: Files, t: Files, dest: Path, r: Path)
    requires Graftable(src) && Ready(src, t, dest) && InstallAt(t, src, dest, r).Some?
    ensures Ready(src, InstallAt(t, src, dest, r).value, dest) && Staged(r) !in Dirs(src)
  {
    hide Graftable;
    hide Rooted;
    hide Placement;
    var dst := dest + r;
    StagedUnder(dest, r);
    PlacementIsRooted(t, dst, src[r].content);
    PlacementAt(t, dst, src[r].content, dest);
    assert !(dst <= dest) && !(Staged(dst) <= dest);
    forall d | d in Dirs(src) ensures IsDir(Placement(t, dst, src[r].content), dest + d) {
      StagedFromDir(src, r, d);
      PrefixUnder(dest, Staged(r), d);
      PrefixUnder(dest, r, d);
      PlacementAt(t, dst, src[r].content, dest + d);
    }
  }

  lemma FileStep(src: Files, t0: Files, t: Files, dest: Path, rs: seq<Path>, r: Path, s: Path)
    requires Graftable(src) && r in FilesIn(src) && s in FilesIn(src) && Staged(r) !in Dirs(src) && FileAt(src, t0, t, dest, rs, s)
    ensures FileAt(src, t0, Placement(t, dest + r, src[r].content), dest, rs + [r], s)
  {
    hide Graftable;
    hide SubTree;
    hide Hit;
    hide Placement;
    var dst := dest + r;
    StagedUnder(dest, r);
    HitStep(rs, r, s);
    PlacementIs(t, dst, src[r].content);
    assert s in rs + [r] <==> s in rs || s == r;
    if s != r && s != Staged(r) {
      StagedFromFile(src, r, s);
      ApartUnder(dest, Staged(r), s);
      FilesApart(src, r, s);
      ApartUnder(dest, r, s);
      PlacementApart(t, dst, src[r].content, dest + s);
    }
  }

  /** After any sequence of installations that succeeded, every place of a source file is
      known exactly. */
  lemma {:induction false} SeqAt(src: Files, t: Files, dest: Path, rs: seq<Path>)
    requires Graftable(src) && Ready(src, t, dest) && InstallSeq(t, src, dest, rs).Some?
    ensures At(src, t, InstallSeq(t, src, dest, rs).value, dest, rs) && Ready(src, InstallSeq(t, src, dest, rs).value, dest)
    ensures forall k :: 0 <= k < |rs| ==> rs[k] in FilesIn(src) && Staged(rs[k]) !in Dirs(src)
    decreases |rs|
  {
    hide Graftable;
    hide Ready;
    hide Placement;
    hide FileAt;
    if rs == [] {
      StartAt(src, t, dest);
    } else {
      var front, r := rs[..|rs| - 1], rs[|rs| - 1];
      assert rs == front + [r];
      SeqAt(src, t, dest, front);
      var v := InstallSeq(t, src, dest, front).value;
      ReadyStep(src, v, dest, r);
      forall s | s in FilesIn(src) ensures FileAt(src, t, InstallSeq(t, src, dest, rs).value, dest, rs, s) {
        FileStep(src, t, v, dest, front, r, s);
      }
    }
  }

  lemma StartAt(src: Files, t: Files, dest: Path)
    ensures At(src, t, t, dest, [])
  {
  }

  // ---------------------------------------------------------- pages come last

  /** As long as the page is not installed, nothing touches it, nor any page below. */
  lemma PageUntouched(src: Files, t0: Files, t: Files, dest: Path, rs: seq<Path>, s: Path)
    requires At(src, t0, t, dest, rs) && s in FilesIn(src) && Last(s) == "index.html" && s !in rs
    ensures SubTree(t, dest + s) == SubTree(t0, dest + s)
  {
    hide SubTree;
    forall j | 0 <= j < |rs| && rs[j] != [] ensures Staged(rs[j]) != s {
      StagedIsNoPage(rs[j]);
    }
    assert !Hit(rs, s);
    assert FileAt(src, t0, t, dest, rs, s);
  }

  /** After a run that succeeded an asset is in place if and only if its place did not serve
      for staging after it was installed. */
  lemma PlacedIff(src: Files, t0: Files, t: Files, dest: Path, rs: seq<Path>, s: Path)
    requires At(src, t0, t, dest, rs) && s in FilesIn(src) && s in rs
    ensures Placed(src, t, dest, s) <==> !Hit(rs, s)
  {
    hide SubTree;
    hide Hit;
    assert FileAt(src, t0, t, dest, rs, s);
    assert [] in FileOf(src[s].content);
  }

  lemma NoClashNoHit(src: Files, rs: seq<Path>, s: Path)
    requires !Clashes(src) && s in Assets(src) && forall k :: 0 <= k < |rs| ==> rs[k] in ToInstall(src)
    ensures !Hit(rs, s)
  {
    hide Assets;
  }

  /** For a source without a clash, a run that succeeded has every asset in place. */
  lemma NoClashAllPlaced(src: Files, t0: Files, t: Files, dest: Path, order: seq<Path>)
    requires At(src, t0, t, dest, order + [INDEX]) && Lists(order, Assets(src)) && !Clashes(src)
    ensures AllPlaced(src, t, dest)
  {
    hide SubTree;
    hide At;
    hide Clashes;
    forall s | s in Assets(src) ensures Placed(src, t, dest, s) {
      assert s in order + [INDEX];
      RunIsToInstall(src, order);
      NoClashNoHit(src, order + [INDEX], s);
      PlacedIff(src, t0, t, dest, order + [INDEX], s);
    }
  }

  lemma RunIsToInstall(src: Files, order: seq<Path>)
    requires Lists(order, Assets(src))
    ensures forall k :: 0 <= k < |order + [INDEX]| ==> (order + [INDEX])[k] in ToInstall(src)
    ensures INDEX !in order
  {
    assert Last(INDEX) == "index.html";
    forall k | 0 <= k < |order| ensures order[k] in Assets(src) {
      assert order[k] in order;
    }
  }

  /** A state of a run: the first `k` of the assets in their order and the page. */
  function RunState(src: Files, t: Files, dest: Path, order: seq<Path>, k: nat): Option<Files>
    requires k <= |order| + 1
  {
    InstallSeq(t, src, dest, (order + [INDEX])[..k])
  }

  /** Whatever the destination and the order, every state of a run keeps the page for last. */
  ghost predicate AlwaysPageLast(src: Files) {
    forall t, dest, order, k: nat ::
      Ready(src, t, dest) && Lists(order, Assets(src)) && k <= |order| + 1 && RunState(src, t, dest, order, k).Some? ==>
        PageLast(src, t, RunState(src, t, dest, order, k).value, dest)
  }

  lemma RunKeepsPageLast(src: Files, t: Files, dest: Path, order: seq<Path>, k: nat)
    requires Graftable(src) && IsFile(src, INDEX) && (!Clashes(src) || Blocked(src))
    requires Ready(src, t, dest) && Lists(order, Assets(src)) && k <= |order| + 1 && RunState(src, t, dest, order, k).Some?
    ensures PageLast(src, t, RunState(src, t, dest, order, k).value, dest)
  {
    hide Graftable;
    hide Ready;
    hide SubTree;
    hide InstallSeq;
    hide Clashes;
    hide At;
    var rs := (order + [INDEX])[..k];
    SeqAt(src, t, dest, rs);
    RunIsToInstall(src, order);
    var v := RunState(src, t, dest, order, k).value;
    assert Last(INDEX) == "index.html";
    if k <= |order| {
      assert rs == order[..k];
      assert INDEX !in rs;
      PageUntouched(src, t, v, dest, rs, INDEX);
    } else {
      assert rs == order + [INDEX];
      NotBlocked(src, rs, order);
      NoClashAllPlaced(src, t, v, dest, order);
    }
  }

  lemma NotBlocked(src: Files, rs: seq<Path>, order: seq<Path>)
    requires rs == order + [INDEX] && Lists(order, Assets(src)) && forall k :: 0 <= k < |rs| ==> rs[k] in FilesIn(src) && Staged(rs[k]) !in Dirs(src)
    ensures !Blocked(src)
  {
    forall r | r in ToInstall(src) && r != [] ensures Staged(r) !in Dirs(src) {
      assert r in rs;
    }
  }

  // ------------------------------------------------------------- and when not

  /** A destination that has the directories of the source and nothing else. */
  ghost predicate Fresh(src: Files, t: Files, dest: Path) {
    Ready(src, t, dest) && forall r :: r != [] && dest + r in t ==> r in Dirs(src)
  }

  /** Without a blocked name, a run into a fresh destination succeeds in every order. */
  lemma {:induction false} FreshRunSucceeds(src: Files, t: Files, dest: Path, rs: seq<Path>)
    requires Graftable(src) && Fresh(src, t, dest) && !Blocked(src)
    requires forall k :: 0 <= k < |rs| ==> rs[k] in ToInstall(src) && rs[k] in FilesIn(src)
    ensures InstallSeq(t, src, dest, rs).Some? && Ready(src, InstallSeq(t, src, dest, rs).value, dest)
    ensures forall q :: IsDir(InstallSeq(t, src, dest, rs).value, q) ==> IsDir(t, q)
    decreases |rs|
  {
    hide Graftable;
    hide Ready;
    hide Placement;
    hide Blocked;
    if rs != [] {
      var front, r := rs[..|rs| - 1], rs[|rs| - 1];
      FreshRunSucceeds(src, t, dest, front);
      var v := InstallSeq(t, src, dest, front).value;
      NothingInTheWay(src, t, v, dest, r);
      ReadyStep(src, v, dest, r);
      forall q | IsDir(InstallSeq(t, src, dest, rs).value, q) ensures IsDir(t, q) {
        PlacementAt(v, dest + r, src[r].content, q);
      }
    }
  }

  lemma NothingInTheWay(src: Files, t: Files, v: Files, dest: Path, r: Path)
    requires Graftable(src) && Fresh(src, t, dest) && Ready(src, v, dest) && !Blocked(src) && r in ToInstall(src) && r in FilesIn(src)
    requires forall q :: IsDir(v, q) ==> IsDir(t, q)
    ensures InstallAt(v, src, dest, r).Some?
  {
    hide Rooted;
    StagedUnder(dest, r);
    StagedIsNoPage(r);
    assert Parent(dest + r) == dest + Parent(r);
    if Parent(r) == [] {
      assert dest + Parent(r) == dest;
    } else {
      assert IsDir(src, Parent(r));
    }
  }

  /** A fresh destination for any source. */
  lemma FreshPlace(src: Files) returns (t: Files, dest: Path)
    requires Graftable(src) && IsFile(src, INDEX)
    ensures Fresh(src, t, dest)
  {
    dest := ["www"];
    var dirs: Files := map r | r in src && src[r].Dir? :: src[r];
    assert INDEX in src && INDEX != [];
    assert Graftable(dirs) by {
      forall r | r in dirs && r != [] ensures [] in dirs && dirs[[]].Dir? && IsDir(dirs, r[..|r| - 1]) {
        assert r in src && IsDir(src, r[..|r| - 1]);
      }
    }
    var base: Files := map[[] := Dir];
    assert dest[..|dest| - 1] == [];
    t := Graft(base, dest, dirs);
    GraftIsRooted(base, dest, dirs);
    forall r ensures dest + r in t <==> r in dirs
      ensures r in dirs ==> t[dest + r] == dirs[r]
    {
      GraftAt(base, dest, dirs, dest + r);
      assert (dest + r)[|dest|..] == r;
    }
    assert dest + [] == dest;
  }

  lemma {:induction false} SomeOrder(s: set<Path>) returns (rs: seq<Path>)
    ensures Lists(rs, s)
    decreases |s|
  {
    if s == {} {
      rs := [];
    } else {
      var x :| x in s;
      var rest := SomeOrder(s - {x});
      rs := [x] + rest;
    }
  }

  /** A listing that begins with `a`. */
  lemma OrderFrom(s: set<Path>, a: Path) returns (rs: seq<Path>)
    requires a in s
    ensures Lists(rs, s) && rs != [] && rs[0] == a
  {
    var rest := SomeOrder(s - {a});
    rs := [a] + rest;
  }

  lemma HitFromStart(rs: seq<Path>, a: Path, r: Path)
    requires rs != [] && rs[0] == a && (forall i, j :: 0 <= i < j < |rs| ==> rs[i] != rs[j]) && r in rs && r != [] && Staged(r) == a
    ensures Hit(rs, a)
  {
    hide Staged;
    StagedIsNoPage(r);
    var j :| 0 <= j < |rs| && rs[j] == r;
    assert a !in rs[j..];
  }

  /** A clash lets some order end with the page in place and an asset missing. */
  lemma ClashShows(src: Files)
    requires Graftable(src) && IsFile(src, INDEX) && Clashes(src) && !Blocked(src)
    ensures !AlwaysPageLast(src)
  {
    hide Graftable;
    hide Ready;
    hide InstallSeq;
    hide Blocked;
    hide SubTree;
    hide Hit;
    var r :| r in ToInstall(src) && r != [] && Staged(r) in Assets(src);
    var a := Staged(r);
    var t, dest := FreshPlace(src);
    var order := OrderFrom(Assets(src), a);
    var rs := order + [INDEX];
    RunIsToInstall(src, order);
    DistinctRun(src, order);
    FreshRunSucceeds(src, t, dest, rs);
    var k := |order| + 1;
    assert rs[..k] == rs;
    var v := RunState(src, t, dest, order, k).value;
    SeqAt(src, t, dest, rs);
    assert r in rs;
    HitFromStart(rs, a, r);
    PlacedIff(src, t, v, dest, rs, a);
    PageIsNew(src, t, v, dest, rs);
    assert !PageLast(src, t, v, dest);
  }

  lemma DistinctRun(src: Files, order: seq<Path>)
    requires Lists(order, Assets(src))
    ensures var rs := order + [INDEX]; forall i, j :: 0 <= i < j < |rs| ==> rs[i] != rs[j]
    ensures IsFile(src, INDEX) ==> forall k :: 0 <= k < |order + [INDEX]| ==> (order + [INDEX])[k] in FilesIn(src)
  {
    RunIsToInstall(src, order);
  }

  lemma PageIsNew(src: Files, t: Files, v: Files, dest: Path, rs: seq<Path>)
    requires Fresh(src, t, dest) && At(src, t, v, dest, rs) && INDEX in FilesIn(src) && INDEX in rs
    ensures Placed(src, v, dest, INDEX) && SubTree(v, dest + INDEX) != SubTree(t, dest + INDEX)
  {
    forall j | 0 <= j < |rs| && rs[j] != [] ensures Staged(rs[j]) != INDEX {
      StagedIsNoPage(rs[j]);
    }
    assert !Hit(rs, INDEX);
    PlacedIff(src, t, v, dest, rs, INDEX);
    SubTreeAtRoot(t, dest + INDEX);
    assert INDEX !in Dirs(src);
    assert [] in FileOf(src[INDEX].content);
  }

  /** The new page is there only if every other new file is, at every point of every run, if
      and only if no asset has the staging name of another file to install, or a directory has
      such a name and no run ever gets to the page. */
  lemma PageLastIff(src: Files)
    requires Graftable(src) && IsFile(src, INDEX)
    ensures AlwaysPageLast(src) <==> !Clashes(src) || Blocked(src)
  {
    hide Graftable;
    hide Ready;
    hide PageLast;
    hide RunState;
    hide Clashes;
    hide Blocked;
    if !Clashes(src) || Blocked(src) {
      forall t, dest, order, k: nat | Ready(src, t, dest) && Lists(order, Assets(src)) && k <= |order| + 1 && RunState(src, t, dest, order, k).Some?
        ensures PageLast(src, t, RunState(src, t, dest, order, k).value, dest)
      {
        RunKeepsPageLast(src, t, dest, order, k);
      }
    } else {
      ClashShows(src);
    }
  }

  // ------------------------------------------------------------ concrete cases

  /** The source has the file, and it is in place or not. */
  predicate InPlace(src: Files, t: Files, dest: Path, r: Path) {
    r in FilesIn(src) && Placed(src, t, dest, r)
  }

  predicate Missing(src: Files, t: Files, dest: Path, r: Path) {
    r in FilesIn(src) && !Placed(src, t, dest, r)
  }

  const STAGED_PAGE: Path := ["index.html.release-new"]

  /** A page and an asset beside it. */
  function Beside(page: Path, a: Content, asset: Path, b: Content): Files {
    map[[] := Dir, page := File(a), asset := File(b)]
  }

  lemma BesideIs(page: Path, a: Content, asset: Path, b: Content)
    requires |page| == 1 && |asset| == 1 && page != asset && Last(page) == "index.html" && Last(asset) != "index.html"
    ensures var src := Beside(page, a, asset, b); Graftable(src) && IsFile(src, page) && Assets(src) == {asset} && Dirs(src) == {}
  {
    var src := Beside(page, a, asset, b);
    assert page[..0] == [] && asset[..0] == [];
    forall r | r in src && r != [] ensures IsDir(src, r[..|r| - 1]) {
      assert r == page || r == asset;
    }
  }

  function StagedPageSource(page: Content, asset: Content): Files {
    Beside(INDEX, page, STAGED_PAGE, asset)
  }

  lemma StagedPageFacts(page: Content, asset: Content)
    ensures var src := StagedPageSource(page, asset);
            Graftable(src) && IsFile(src, INDEX) && Assets(src) == {STAGED_PAGE} && Dirs(src) == {} && Staged(INDEX) == STAGED_PAGE
  {
    hide Graftable;
    hide Assets;
    hide Dirs;
    hide Beside;
    assert Last(INDEX) == "index.html" && |Last(STAGED_PAGE)| == 22 && |"index.html"| == 10;
    assert "index.html" + ".release-new" == "index.html.release-new";
    BesideIs(INDEX, page, STAGED_PAGE, asset);
  }

  lemma StagedPageClashes(page: Content, asset: Content)
    ensures var src := StagedPageSource(page, asset); Clashes(src) && !Blocked(src)
  {
    StagedPageFacts(page, asset);
    hide StagedPageSource;
    var src := StagedPageSource(page, asset);
    assert INDEX in ToInstall(src) && INDEX != [] && Staged(INDEX) in Assets(src);
  }

  /** A source with index.html and index.html.release-new: the installation succeeds, the page
      is new, and the asset is gone. */
  lemma StagedPageWitness(page: Content, asset: Content)
    ensures var src := StagedPageSource(page, asset);
            && Clashes(src) && !Blocked(src) && !AlwaysPageLast(src)
            && exists t, dest, v :: Fresh(src, t, dest) && InstallSeq(t, src, dest, [STAGED_PAGE, INDEX]) == Some(v)
                 && InPlace(src, v, dest, INDEX) && Missing(src, v, dest, STAGED_PAGE)
  {
    StagedPageFacts(page, asset);
    hide InstallSeq;
    hide SubTree;
    hide Ready;
    hide Graftable;
    hide Clashes;
    hide Blocked;
    hide AlwaysPageLast;
    hide StagedPageSource;
    hide Staged;
    var src := StagedPageSource(page, asset);
    StagedPageClashes(page, asset);
    PageLastIff(src);
    var t, dest := FreshPlace(src);
    var rs := [STAGED_PAGE, INDEX];
    assert STAGED_PAGE in Assets(src);
    FreshRunSucceeds(src, t, dest, rs);
    SeqAt(src, t, dest, rs);
    var v := InstallSeq(t, src, dest, rs).value;
    assert rs[1] == INDEX && INDEX in rs && rs[0] == STAGED_PAGE;
    StagedIsNoPage(INDEX);
    HitFromStart(rs, STAGED_PAGE, INDEX);
    PlacedIff(src, t, v, dest, rs, STAGED_PAGE);
    PageIsNew(src, t, v, dest, rs);
  }

  // ------------------------------------------------- what is not installed

  predicate IsNestedPage(r: Path) {
    r != [] && r != INDEX && Last(r) == "index.html"
  }

  /** A source file called index.html below the top is never installed: after a run that
      succeeded its place holds what it held before. */
  lemma NestedPagesAreSkipped(src: Files, t0: Files, t: Files, dest: Path, order: seq<Path>, r: Path)
    requires At(src, t0, t, dest, order + [INDEX]) && Lists(order, Assets(src)) && r in FilesIn(src) && IsNestedPage(r)
    ensures SubTree(t, dest + r) == SubTree(t0, dest + r)
  {
    hide SubTree;
    assert r !in Assets(src) && r !in order;
    PageUntouched(src, t0, t, dest, order + [INDEX], r);
  }

  /** So a run that succeeded put every source file in place exactly when no asset's place
      served for staging after it, and each nested page was there with its new contents. */
  lemma CompleteIff(src: Files, t0: Files, t: Files, dest: Path, order: seq<Path>)
    requires At(src, t0, t, dest, order + [INDEX]) && Lists(order, Assets(src)) && IsFile(src, INDEX)
    ensures (forall r :: r in FilesIn(src) ==> Placed(src, t, dest, r))
       <==> (forall r :: r in Assets(src) ==> !Hit(order + [INDEX], r)) && (forall r :: r in FilesIn(src) && IsNestedPage(r) ==> Placed(src, t0, dest, r))
  {
    hide SubTree;
    hide Hit;
    hide At;
    var rs := order + [INDEX];
    PageIsNoHit(rs);
    forall r | r in FilesIn(src) && !IsNestedPage(r) ensures Placed(src, t, dest, r) <==> !Hit(rs, r) {
      assert Last(INDEX) == "index.html";
      assert r in Assets(src) || r == INDEX;
      assert r in rs;
      PlacedIff(src, t0, t, dest, rs, r);
    }
    forall r | r in FilesIn(src) && IsNestedPage(r) ensures Placed(src, t, dest, r) <==> Placed(src, t0, dest, r) {
      NestedPagesAreSkipped(src, t0, t, dest, order, r);
    }
  }

  lemma PageIsNoHit(rs: seq<Path>)
    ensures !Hit(rs, INDEX)
  {
    forall j | 0 <= j < |rs| && rs[j] != [] ensures Staged(rs[j]) != INDEX {
      StagedIsNoPage(rs[j]);
    }
  }

  const NESTED: Path := ["help", "index.html"]

  /** A page, and another one in a directory beside it. */
  function Below(page: Path, a: Content, dir: Path, nested: Path, b: Content): Files {
    map[[] := Dir, page := File(a), dir := Dir, nested := File(b)]
  }

  lemma BelowIs(page: Path, a: Content, dir: Path, nested: Path, b: Content)
    requires |page| == 1 && |dir| == 1 && |nested| == 2 && page != dir && nested[..1] == dir
    requires Last(page) == "index.html" && Last(nested) == "index.html"
    ensures var src := Below(page, a, dir, nested, b);
            Graftable(src) && IsFile(src, page) && IsFile(src, nested) && Assets(src) == {} && Dirs(src) == {dir}
  {
    var src := Below(page, a, dir, nested, b);
    assert page[..0] == [] && dir[..0] == [];
    forall r | r in src && r != [] ensures IsDir(src, r[..|r| - 1]) {
      assert r == page || r == dir || r == nested;
    }
  }

  const HELP: Path := ["help"]

  function NestedSource(page: Content, help: Content): Files {
    Below(INDEX, page, HELP, NESTED, help)
  }

  /** A page and another one below it: the installation succeeds and the second is missing. */
  lemma NestedPageWitness(page: Content, help: Content)
    ensures var src := NestedSource(page, help);
            exists t, dest, v :: Fresh(src, t, dest) && InstallSeq(t, src, dest, [INDEX]) == Some(v)
              && InPlace(src, v, dest, INDEX) && Missing(src, v, dest, NESTED)
  {
    hide InstallSeq;
    hide SubTree;
    hide Ready;
    var src := NestedSource(page, help);
    NestedFacts(page, help);
    var t, dest := FreshPlace(src);
    var rs := [INDEX];
    FreshRunSucceeds(src, t, dest, rs);
    SeqAt(src, t, dest, rs);
    var v := InstallSeq(t, src, dest, rs).value;
    assert rs[0] == INDEX && INDEX in rs;
    PageIsNew(src, t, v, dest, rs);
    var order: seq<Path> := [];
    assert order + [INDEX] == rs;
    NestedPagesAreSkipped(src, t, v, dest, order, NESTED);
    SubTreeAtRoot(t, dest + NESTED);
    assert [] in FileOf(help);
  }

  lemma NestedFacts(page: Content, help: Content)
    ensures var src := NestedSource(page, help);
            && Graftable(src) && IsFile(src, INDEX) && Assets(src) == {} && !Blocked(src)
            && NESTED in FilesIn(src) && NESTED !in Dirs(src) && IsNestedPage(NESTED)
  {
    hide Graftable;
    hide Assets;
    hide Dirs;
    hide Below;
    assert Last(NESTED) == "index.html" && Last(INDEX) == "index.html" && NESTED[..1] == HELP && INDEX[0][0] == 'i' && HELP[0][0] == 'h';
    BelowIs(INDEX, page, HELP, NESTED, help);
    assert |Staged(INDEX)[0]| == 22 && |HELP[0]| == 4;
    hide Staged;
    var src := NestedSource(page, help);
    forall r | r in ToInstall(src) && r != [] ensures Staged(r) !in Dirs(src) {
      assert r == INDEX;
    }
  }
}
