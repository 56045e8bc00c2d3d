/** `snapshot` and `restore` of deploy/remote_release.py: whatever happened to the targets in
    between, restoring gives each its earlier existence and contents. */
module ReleaseSnapshot {
  import opened FileTree
  import opened ReleaseHost

  function Digits(n: nat): (s: string)
    ensures |s| >= 1
  {
    var last := [('0' as int + n % 10) as char];
    if n < 10 then last else Digits(n / 10) + last
  }

  function ItemName(k: nat): string {
    "item-" + Digits(k)
  }

  function Item(backup: Path, k: nat): Path {
    backup + [ItemName(k)]
  }

  lemma {:induction false} DigitsInjective(m: nat, n: nat)
    requires Digits(m) == Digits(n)
    ensures m == n
  {
    assert Digits(m)[|Digits(m)| - 1] == Digits(n)[|Digits(n)| - 1];
    if m >= 10 && n >= 10 {
      var a, b := Digits(m / 10), Digits(n / 10);
      assert Digits(m)[..|Digits(m)| - 1] == a && Digits(n)[..|Digits(n)| - 1] == b;
      DigitsInjective(m / 10, n / 10);
    }
  }

  lemma ItemsApart(backup: Path, j: nat, k: nat)
    requires j != k
    ensures Apart(Item(backup, j), Item(backup, k))
  {
    if ItemName(j) == ItemName(k) {
      assert ItemName(j)[5..] == Digits(j) && ItemName(k)[5..] == Digits(k);
      DigitsInjective(j, k);
    }
    DifferAt(Item(backup, j), Item(backup, k), |backup|);
  }

  lemma FrameAbove(t: Files, t': Files, p: Path, above: Path)
    requires OnlyAt(t, t', {p}) && above <= p
    ensures OnlyAt(t, t', {above})
  {
    forall q | Apart(above, q) ensures Apart(p, q) {
      if q <= p { PrefixesCompare(above, q, p); }
    }
  }

  /** A record holds what was at its path in `t0`, by way of the copy in `t`. */
  predicate Saved(t0: Files, t: Files, r: Record) {
    && r.path != []
    && r.there == (r.path in t0)
    && (r.there ==> SubTree(t, r.backup) == SubTree(t0, r.path))
  }

  method Snapshot(h: Host, path: Path, backup: Path, records: seq<Record>) returns (ok: bool, out: seq<Record>)
    requires Rooted(h.files) && path != [] && IsDir(h.files, backup)
    requires Item(backup, |records|) !in h.files
    modifies h`files, h`seen
    ensures Rooted(h.files) && OnlyAt(old(h.files), h.files, {Item(backup, |records|)})
    ensures ok ==> out == records + [Record(path, Item(backup, |records|), path in old(h.files))]
    ensures ok ==> Saved(old(h.files), h.files, out[|records|])
  {
    hide OnlyAt;
    hide Rooted;
    hide Graft;
    hide SubTree;
    out := records;
    var target := Item(backup, |records|);
    assert target[..|target| - 1] == backup;
    ghost var t := h.files;
    OnlyAtSame(t);
    var record := Record(path, target, path in h.files);
    ok := *;
    if record.there {
      var partial: Files := *;
      var begun: bool := *;
      SubTreeGraftable(t, path);
      if ok {
        CopyIsFramed(t, target, SubTree(t, path));
        h.Become(Graft(h.files, target, SubTree(h.files, path)));
        SubTreeOfGraft(t, target, SubTree(t, path));
      } else if begun && Graftable(partial) {
        CopyIsFramed(t, target, partial);
        h.Become(Graft(h.files, target, partial));
      }
    }
    if ok { out := records + [record]; }
  }

  lemma CopyIsFramed(t: Files, target: Path, sub: Files)
    requires Rooted(t) && target != [] && IsDir(t, target[..|target| - 1]) && Graftable(sub)
    ensures Rooted(Graft(t, target, sub)) && OnlyAt(t, Graft(t, target, sub), {target})
  {
    OnlyAtGraft(t, target, sub);
  }

  // ------------------------------------------------------------ all targets

  predicate AllSaved(t0: Files, t: Files, backup: Path, targets: seq<Path>, records: seq<Record>) {
    && |records| <= |targets|
    && forall k :: 0 <= k < |records| ==> records[k].path == targets[k] && records[k].backup == Item(backup, k) && Saved(t0, t, records[k])
  }

  /** Targets are outside the backup directory. */
  predicate Outside(backup: Path, targets: seq<Path>) {
    forall k :: 0 <= k < |targets| ==> targets[k] != [] && Apart(backup, targets[k])
  }

  lemma SavedLater(t0: Files, t: Files, t': Files, backup: Path, records: seq<Record>, k: nat, n: nat)
    requires k < n && k < |records| && records[k].backup == Item(backup, k) && Saved(t0, t, records[k])
    requires OnlyAt(t, t', {Item(backup, n)})
    ensures Saved(t0, t', records[k])
  {
    hide Item;
    hide SubTree;
    ItemsApart(backup, k, n);
  }

  lemma SavedFrom(t0: Files, t: Files, t': Files, backup: Path, r: Record)
    requires OnlyAt(t0, t, {backup}) && Apart(backup, r.path) && Saved(t, t', r)
    ensures Saved(t0, t', r)
  {
    hide OnlyAt;
    hide SubTree;
    SubTreeAtRoot(t0, r.path);
    SubTreeAtRoot(t, r.path);
    ApartStays(t0, t, backup, r.path);
  }

  lemma SaveStep(t0: Files, t: Files, t': Files, backup: Path, targets: seq<Path>, records: seq<Record>, r: Record)
    requires AllSaved(t0, t, backup, targets, records) && |records| < |targets| && Outside(backup, targets)
    requires OnlyAt(t0, t, {backup}) && OnlyAt(t, t', {Item(backup, |records|)})
    requires r.path == targets[|records|] && r.backup == Item(backup, |records|) && Saved(t, t', r)
    ensures AllSaved(t0, t', backup, targets, records + [r]) && OnlyAt(t0, t', {backup})
  {
    hide OnlyAt;
    hide Saved;
    SavedFrom(t0, t, t', backup, r);
    forall k | 0 <= k < |records| ensures Saved(t0, t', records[k]) {
      SavedLater(t0, t, t', backup, records, k, |records|);
    }
    FrameAbove(t, t', Item(backup, |records|), backup);
    OnlyAtTrans(t0, t, t', {backup}, {backup});
    assert {backup} + {backup} == {backup};
  }

  /** The items not written yet are not there. */
  ghost predicate NoItemsFrom(t: Files, backup: Path, n: nat) {
    forall k: nat :: n <= k ==> Item(backup, k) !in t
  }

  lemma ItemsStillMissing(t: Files, t': Files, backup: Path, n: nat)
    requires NoItemsFrom(t, backup, n) && OnlyAt(t, t', {Item(backup, n)})
    ensures NoItemsFrom(t', backup, n + 1)
  {
    hide Item;
    hide SubTree;
    forall k: nat | n + 1 <= k ensures Item(backup, k) !in t' {
      ItemsApart(backup, n, k);
      SubTreeAtRoot(t, Item(backup, k));
      SubTreeAtRoot(t', Item(backup, k));
    }
  }

  lemma BackupStays(t: Files, t': Files, backup: Path, n: nat)
    requires IsDir(t, backup) && OnlyAt(t, t', {Item(backup, n)})
    ensures IsDir(t', backup)
  {
    assert !(Item(backup, n) <= backup);
  }

  method SnapshotAll(h: Host, targets: seq<Path>, backup: Path) returns (ok: bool, records: seq<Record>)
    requires Rooted(h.files) && IsDir(h.files, backup) && Outside(backup, targets) && NoItemsFrom(h.files, backup, 0)
    modifies h`files, h`seen
    ensures Rooted(h.files) && OnlyAt(old(h.files), h.files, {backup})
    ensures ok ==> |records| == |targets| && AllSaved(old(h.files), h.files, backup, targets, records)
  {
    hide OnlyAt;
    hide Rooted;
    hide Saved;
    hide IsDir;
    hide NoItemsFrom;
    ok, records := true, [];
    OnlyAtSame(h.files);
    ghost var t0 := h.files;
    for k := 0 to |targets|
      invariant |records| == k && Rooted(h.files) && IsDir(h.files, backup)
      invariant AllSaved(t0, h.files, backup, targets, records)
      invariant OnlyAt(t0, h.files, {backup}) && NoItemsFrom(h.files, backup, k)
    {
      ghost var t := h.files;
      FirstItemMissing(t, backup, k);
      var out;
      ok, out := Snapshot(h, targets[k], backup, records);
      FrameAbove(t, h.files, Item(backup, k), backup);
      OnlyAtTrans(t0, t, h.files, {backup}, {backup});
      assert {backup} + {backup} == {backup};
      if !ok { return; }
      SaveStep(t0, t, h.files, backup, targets, records, out[k]);
      ItemsStillMissing(t, h.files, backup, k);
      BackupStays(t, h.files, backup, k);
      records := out;
    }
  }

  lemma FirstItemMissing(t: Files, backup: Path, k: nat)
    requires NoItemsFrom(t, backup, k)
    ensures Item(backup, k) !in t
  {
  }

  // ---------------------------------------------------------------- restore

  /** The paths being restored lie apart from the copies, and two of them are the same or
      apart. */
  predicate Separate(records: seq<Record>) {
    && (forall k :: 0 <= k < |records| ==> records[k].path != [])
    && (forall j, k :: 0 <= j < |records| && 0 <= k < |records| ==> Apart(records[j].path, records[k].backup))
    && (forall j, k :: 0 <= j < |records| && 0 <= k < |records| ==>
          records[j].path == records[k].path || Apart(records[j].path, records[k].path))
  }

  lemma RestoreOneGives(t0: Files, t: Files, r: Record)
    requires Saved(t0, t, r) && Apart(r.path, r.backup) && Rooted(t0)
    ensures SubTree(RestoreOne(t, r), r.path) == SubTree(t0, r.path)
  {
    hide Graft;
    hide Rooted;
    var cleared := Graft(t, r.path, map[]);
    SubTreeOfGraft(t, r.path, map[]);
    if r.there {
      var ready := MakeDirs(cleared, Parent(r.path));
      SubTreeApart(t, r.path, map[], r.backup);
      NotAbove(r.backup, r.path);
      MakeDirsApart(cleared, Parent(r.path), r.backup);
      SubTreeOfGraft(ready, r.path, SubTree(ready, r.backup));
    } else {
      MissingIsEmpty(t0, r.path);
    }
  }

  lemma NotAbove(q: Path, p: Path)
    requires p != [] && Apart(q, p)
    ensures !(q <= Parent(p))
  {
  }

  lemma RestoreOneLeaves(t: Files, r: Record, q: Path)
    requires r.path != [] && Apart(r.path, q)
    ensures SubTree(RestoreOne(t, r), q) == SubTree(t, q)
  {
    hide Graft;
    hide SubTree;
    var cleared := Graft(t, r.path, map[]);
    SubTreeApart(t, r.path, map[], q);
    if r.there {
      var ready := MakeDirs(cleared, Parent(r.path));
      NotAbove(q, r.path);
      MakeDirsApart(cleared, Parent(r.path), q);
      SubTreeApart(ready, r.path, SubTree(ready, r.backup), q);
    }
  }

  /** Restoring leaves alone what lies apart from every recorded path. */
  lemma {:induction false} RestoreLeaves(t: Files, records: seq<Record>, q: Path)
    requires forall k :: 0 <= k < |records| ==> records[k].path != [] && Apart(records[k].path, q)
    ensures SubTree(RestoreAll(t, records), q) == SubTree(t, q)
    decreases |records|
  {
    hide RestoreOne;
    hide SubTree;
    if records != [] {
      var last := records[|records| - 1];
      RestoreOneLeaves(t, last, q);
      RestoreLeaves(RestoreOne(t, last), records[..|records| - 1], q);
    }
  }

  lemma SavedAfterOne(t0: Files, t: Files, r: Record, other: Record)
    requires r.path != [] && Saved(t0, t, other) && Apart(r.path, other.backup)
    ensures Saved(t0, RestoreOne(t, r), other)
  {
    hide SubTree;
    hide RestoreOne;
    RestoreOneLeaves(t, r, other.backup);
  }

  /** Whatever became of the targets: after restoring, each recorded path has exactly the
      existence and contents it had when it was recorded. */
  lemma {:induction false} RestoreGivesBack(t0: Files, t: Files, records: seq<Record>, k: nat)
    requires Rooted(t0) && Separate(records) && k < |records|
    requires forall j :: 0 <= j < |records| ==> Saved(t0, t, records[j])
    ensures SubTree(RestoreAll(t, records), records[k].path) == SubTree(t0, records[k].path)
    decreases |records|
  {
    hide RestoreOne;
    hide SubTree;
    hide Rooted;
    hide Saved;
    var front, last := records[..|records| - 1], records[|records| - 1];
    var t1 := RestoreOne(t, last);
    assert k < |front| ==> front[k].path == records[k].path;
    if j :| 0 <= j < |front| && front[j].path == records[k].path {
      forall i | 0 <= i < |front| ensures Saved(t0, t1, front[i]) {
        SavedAfterOne(t0, t, last, front[i]);
      }
      RestoreGivesBack(t0, t1, front, j);
    } else {
      assert Apart(last.path, last.backup) by { assert Apart(records[k].path, records[k].backup); }
      RestoreOneGives(t0, t, last);
      forall i | 0 <= i < |front| ensures front[i].path != [] && Apart(front[i].path, last.path) {
        assert front[i] == records[i];
      }
      RestoreLeaves(t1, front, last.path);
    }
  }

  /** The saved tree is copied to a place that has been cleared and has its directory. */
  method CopyBack(h: Host, saved: Path, path: Path) returns (ok: bool)
    requires Rooted(h.files) && path != [] && IsDir(h.files, Parent(path))
    modifies h`files, h`seen
    ensures Rooted(h.files) && OnlyAt(old(h.files), h.files, {path})
    ensures ok ==> h.files == Graft(old(h.files), path, SubTree(old(h.files), saved))
  {
    hide OnlyAt;
    hide Rooted;
    hide Graft;
    hide SubTree;
    ghost var t := h.files;
    OnlyAtSame(t);
    if saved !in h.files { return false; }
    SubTreeGraftable(t, saved);
    CopyIsFramed(t, path, SubTree(t, saved));
    var partial: Files := *;
    ok := *;
    if ok {
      h.Become(Graft(h.files, path, SubTree(h.files, saved)));
    } else if Graftable(partial) {
      CopyIsFramed(t, path, partial);
      h.Become(Graft(h.files, path, partial));
    }
  }

  method RestorePath(h: Host, r: Record) returns (ok: bool)
    requires Rooted(h.files) && r.path != [] && Apart(r.path, r.backup)
    modifies h`files, h`seen
    ensures Rooted(h.files) && OnlyAt(old(h.files), h.files, {r.path})
    ensures ok ==> h.files == RestoreOne(old(h.files), r)
  {
    hide OnlyAt;
    hide Rooted;
    hide Graft;
    hide SubTree;
    hide MakeDirs;
    hide Clear;
    ghost var t := h.files;
    ok := Remove(h, r.path);
    if !ok || !r.there { return; }
    ghost var t1 := h.files;
    ok := h.MkDirs(Parent(r.path));
    SamePathTwice(t, t1, h.files, r.path);
    if !ok { return; }
    MakeDirsIsRooted(t1, Parent(r.path));
    ghost var t2 := h.files;
    ok := CopyBack(h, r.backup, r.path);
    SamePathTwice(t, t2, h.files, r.path);
  }

  lemma SamePathTwice(t: Files, t1: Files, t2: Files, p: Path)
    requires OnlyAt(t, t1, {p})
    ensures OnlyAt(t1, t2, {p}) ==> OnlyAt(t, t2, {p})
  {
    if OnlyAt(t1, t2, {p}) {
      OnlyAtTrans(t, t1, t2, {p}, {p});
      assert {p} + {p} == {p};
    }
  }

  /** A directory with all its contents, or a file, or nothing at all. */
  method Remove(h: Host, p: Path) returns (ok: bool)
    requires Rooted(h.files) && p != []
    modifies h`files, h`seen
    ensures Rooted(h.files) && OnlyAt(old(h.files), h.files, {p})
    ensures ok ==> h.files == Graft(old(h.files), p, map[])
  {
    hide OnlyAt;
    hide Graft;
    ghost var t := h.files;
    OnlyAtSame(t);
    if p !in h.files {
      GraftNothing(t, p);
      return true;
    }
    ok := *;
    var left: Files := *;
    if ok { left := map[]; }
    if Graftable(left) {
      CopyIsFramed(t, p, left);
      h.Become(Graft(h.files, p, left));
    }
  }

  /** Nothing changed that lies apart from every recorded path. */
  ghost predicate LeavesApart(t: Files, t': Files, records: seq<Record>) {
    forall q :: ApartFromAll(records, q) ==> SubTree(t', q) == SubTree(t, q)
  }

  predicate ApartFromAll(records: seq<Record>, q: Path) {
    forall k :: 0 <= k < |records| ==> Apart(records[k].path, q)
  }

  lemma LeavesOneMore(t: Files, t1: Files, t2: Files, records: seq<Record>, n: nat)
    requires n < |records| && LeavesApart(t, t1, records) && OnlyAt(t1, t2, {records[n].path})
    ensures LeavesApart(t, t2, records)
  {
    hide SubTree;
    hide OnlyAt;
    forall q | ApartFromAll(records, q) ensures SubTree(t2, q) == SubTree(t, q) {
      ApartStays(t1, t2, records[n].path, q);
    }
  }

  method Restore(h: Host, records: seq<Record>) returns (ok: bool)
    requires Rooted(h.files) && Separate(records)
    modifies h`files, h`seen
    ensures Rooted(h.files)
    ensures ok ==> h.files == RestoreAll(old(h.files), records)
    ensures LeavesApart(old(h.files), h.files, records)
  {
    hide OnlyAt;
    hide Rooted;
    hide RestoreOne;
    hide SubTree;
    ok := true;
    ghost var t := h.files;
    assert records[..|records|] == records;
    for n := |records| downto 0
      invariant Rooted(h.files)
      invariant RestoreAll(h.files, records[..n]) == RestoreAll(t, records)
      invariant LeavesApart(t, h.files, records)
    {
      ghost var t1 := h.files;
      assert Apart(records[n].path, records[n].backup);
      assert records[..n + 1][..n] == records[..n] && records[..n + 1][n] == records[n];
      ok := RestorePath(h, records[n]);
      LeavesOneMore(t, t1, h.files, records, n);
      if !ok { return; }
    }
  }
}
