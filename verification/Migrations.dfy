/** Pending migrations and their journal (deploy/remote_release.py).  A digest is taken to be
    as good as the text it digests. */
module Migrations {
  import opened Wrappers

  type Name = string

  /** A file of the payload, or a row of the history with the digest of such a file. */
  datatype Script = Script(name: Name, body: string)

  // ----------------------------------------------------------- filename order

  /** Python's order on names: by code point, a prefix first. */
  predicate NameLess(a: Name, b: Name) {
    if a == "" then b != ""
    else b != "" && (if a[0] != b[0] then a[0] < b[0] else NameLess(a[1..], b[1..]))
  }

  function Insert(s: Script, sorted: seq<Script>): seq<Script> {
    if sorted == [] || NameLess(s.name, sorted[0].name) then [s] + sorted else [sorted[0]] + Insert(s, sorted[1..])
  }

  /** `sorted(...)` over a directory. */
  function Sort(scripts: seq<Script>): seq<Script> {
    if scripts == [] then [] else Insert(scripts[0], Sort(scripts[1..]))
  }

  lemma {:induction false} NameLessTotal(a: Name, b: Name)
    ensures a == b || NameLess(a, b) || NameLess(b, a)
    ensures NameLess(a, b) ==> a != b && !NameLess(b, a)
  {
    if a != "" && b != "" && a[0] == b[0] {
      NameLessTotal(a[1..], b[1..]);
      assert a == [a[0]] + a[1..] && b == [b[0]] + b[1..];
    }
  }

  lemma {:induction false} NameLessTrans(a: Name, b: Name, c: Name)
    requires NameLess(a, b) && NameLess(b, c)
    ensures NameLess(a, c)
  {
    if a != "" && a[0] == b[0] && b[0] == c[0] {
      NameLessTrans(a[1..], b[1..], c[1..]);
    }
  }

  predicate Ascending(scripts: seq<Script>) {
    forall i, j :: 0 <= i < j < |scripts| ==> NameLess(scripts[i].name, scripts[j].name)
  }

  lemma {:induction false} InsertIs(s: Script, sorted: seq<Script>)
    requires Ascending(sorted) && forall k :: 0 <= k < |sorted| ==> sorted[k].name != s.name
    ensures Ascending(Insert(s, sorted)) && multiset(Insert(s, sorted)) == multiset(sorted) + multiset{s}
    decreases |sorted|
  {
    hide NameLess;
    if sorted == [] {
    } else if NameLess(s.name, sorted[0].name) {
      forall k | 1 <= k < |sorted| ensures NameLess(s.name, sorted[k].name) {
        NameLessTrans(s.name, sorted[0].name, sorted[k].name);
      }
    } else {
      var x, rest := sorted[0], sorted[1..];
      assert sorted == [x] + rest;
      NameLessTotal(x.name, s.name);
      InsertIs(s, rest);
      var more := Insert(s, rest);
      forall k | 0 <= k < |more| ensures NameLess(x.name, more[k].name) {
        assert more[k] in multiset(more);
        assert more[k] in rest || more[k] == s;
      }
    }
  }

  /** Sorting a directory, whose names differ, gives the same files in filename order. */
  lemma {:induction false} SortIs(scripts: seq<Script>)
    requires Distinct(scripts)
    ensures Ascending(Sort(scripts)) && multiset(Sort(scripts)) == multiset(scripts) && Distinct(Sort(scripts))
    decreases |scripts|
  {
    if scripts != [] {
      var s, rest := scripts[0], scripts[1..];
      assert scripts == [s] + rest;
      SortIs(rest);
      forall k | 0 <= k < |Sort(rest)| ensures Sort(rest)[k].name != s.name {
        assert Sort(rest)[k] in multiset(Sort(rest));
        var j :| 0 <= j < |rest| && rest[j] == Sort(rest)[k];
        assert scripts[0].name != scripts[j + 1].name;
      }
      InsertIs(s, Sort(rest));
      AscendingIsDistinct(Sort(scripts));
    }
  }

  lemma AscendingIsDistinct(scripts: seq<Script>)
    requires Ascending(scripts)
    ensures Distinct(scripts)
  {
    hide NameLess;
    forall i, j | 0 <= i < j < |scripts| ensures scripts[i].name != scripts[j].name {
      NameLessTotal(scripts[i].name, scripts[j].name);
    }
  }

  // ------------------------------------------------------ what is pending

  predicate IsDigit(c: char) {
    '0' <= c <= '9'
  }

  predicate IsWordChar(c: char) {
    IsDigit(c) || 'a' <= c <= 'z' || 'A' <= c <= 'Z' || c == '_'
  }

  predicate ValidName(name: Name) {
    && |name| > 8 && IsDigit(name[0]) && IsDigit(name[1]) && IsDigit(name[2]) && name[3] == '_'
    && (forall k :: 4 <= k < |name| - 4 ==> IsWordChar(name[k]))
    && name[|name| - 4..] == ".sql"
  }

  function Names(scripts: seq<Script>): set<Name> {
    set k | 0 <= k < |scripts| :: scripts[k].name
  }

  predicate Distinct(scripts: seq<Script>) {
    forall i, j :: 0 <= i < j < |scripts| ==> scripts[i].name != scripts[j].name
  }

  /** The rows of the payload the history does not name, in the payload's order. */
  function Unrecorded(payload: seq<Script>, history: seq<Script>): seq<Script> {
    if payload == [] then []
    else Unrecorded(payload[..|payload| - 1], history)
         + (if payload[|payload| - 1].name in Names(history) then [] else [payload[|payload| - 1]])
  }

  predicate AgreesOn(history: seq<Script>, s: Script) {
    ValidName(s.name) && (s.name in Names(history) ==> s in history)
  }

  /** The candidate is one the history can go on from. */
  predicate Compatible(payload: seq<Script>, history: seq<Script>) {
    && (forall k :: 0 <= k < |payload| ==> AgreesOn(history, payload[k]))
    && Names(history) <= Names(payload)
  }

  /** `listing` is the migrations directory in whatever order it is read. */
  method Pending(listing: seq<Script>, history: seq<Script>, backend: bool, minimum: Name) returns (pending: Option<seq<Script>>)
    requires Distinct(history)
    ensures pending.Some? <==> Compatible(Sort(listing), history) && (backend || minimum in Names(history))
    ensures pending.Some? ==> pending.value == if backend then Unrecorded(Sort(listing), history) else []
  {
    hide Sort;
    var payload := Sort(listing);
    var found := [];
    for k := 0 to |payload|
      invariant forall j :: 0 <= j < k ==> AgreesOn(history, payload[j])
      invariant found == Unrecorded(payload[..k], history)
    {
      var s := payload[k];
      assert payload[..k + 1][..k] == payload[..k];
      if !ValidName(s.name) { return None; }
      if s.name in Names(history) {
        var j :| 0 <= j < |history| && history[j].name == s.name;
        if history[j].body != s.body {
          assert s !in history;
          return None;
        }
        assert s == history[j];
      } else {
        found := found + [s];
      }
    }
    assert payload[..|payload|] == payload;
    if !(Names(history) <= Names(payload)) { return None; }
    if !backend && minimum !in Names(history) { return None; }
    return Some(if backend then found else []);
  }

  // -------------------------------------------------------------- applying

  /** What one attempt at a list of scripts comes to: the first `done` are recorded, and one
      more may have been executed without being recorded. */
  datatype Progress = Progress(done: nat, tried: nat)

  predicate Reached(scripts: seq<Script>, p: Progress) {
    p.done <= p.tried <= p.done + 1 && p.tried <= |scripts|
  }

  function NamesOf(scripts: seq<Script>): seq<Name> {
    seq(|scripts|, k requires 0 <= k < |scripts| => scripts[k].name)
  }

  class Database {
    var history: seq<Script>
    /** The names of the scripts that were handed to the server, in order. */
    var executed: seq<Name>

    constructor (rows: seq<Script>)
      ensures history == rows && executed == []
    {
      history, executed := rows, [];
    }

    method Execute(s: Script) returns (ok: bool)
      modifies this`executed
      ensures executed == old(executed) + [s.name] || (!ok && executed == old(executed))
    {
      ok := *;
      var begun: bool := *;
      if ok || begun { executed := executed + [s.name]; }
    }

    method Record(s: Script) returns (ok: bool)
      modifies this`history
      ensures history == old(history) + [s] || (!ok && history == old(history))
    {
      ok := *;
      var written: bool := *;
      if ok || written { history := history + [s]; }
    }

    method ApplyMigrations(scripts: seq<Script>) returns (ok: bool, ghost p: Progress)
      modifies this
      ensures Reached(scripts, p)
      ensures history == old(history) + scripts[..p.done] && executed == old(executed) + NamesOf(scripts[..p.tried])
      ensures ok ==> p == Progress(|scripts|, |scripts|)
    {
      ok, p := true, Progress(0, 0);
      for k := 0 to |scripts|
        invariant p == Progress(k, k)
        invariant history == old(history) + scripts[..k] && executed == old(executed) + NamesOf(scripts[..k])
      {
        NamesOfPrefix(scripts, k);
        ok := Execute(scripts[k]);
        if executed != old(executed) + NamesOf(scripts[..k]) { p := Progress(k, k + 1); }
        if !ok { return; }
        ok := Record(scripts[k]);
        if history != old(history) + scripts[..k] { p := Progress(k + 1, k + 1); }
        if !ok { return; }
      }
      assert scripts[..|scripts|] == scripts;
    }
  }

  lemma NamesOfPrefix(scripts: seq<Script>, k: nat)
    requires k < |scripts|
    ensures scripts[..k + 1] == scripts[..k] + [scripts[k]]
    ensures NamesOf(scripts[..k + 1]) == NamesOf(scripts[..k]) + [scripts[k].name]
  {
  }

  // --------------------------------------------------------- many attempts

  datatype State = State(history: seq<Script>, executed: seq<Name>)

  /** One deployment: refused when the payload is not compatible, and otherwise an attempt at
      what is pending. */
  datatype Attempt = Refused | Attempted(p: Progress)

  predicate IsAttempt(payload: seq<Script>, s: State, a: Attempt, s': State) {
    match a
    case Refused => s' == s
    case Attempted(p) =>
      var pending := Unrecorded(payload, s.history);
      && Compatible(payload, s.history) && Reached(pending, p)
      && s' == State(s.history + pending[..p.done], s.executed + NamesOf(pending[..p.tried]))
  }

  predicate Runs(payload: seq<Script>, states: seq<State>, attempts: seq<Attempt>) {
    && |states| == |attempts| + 1 && Distinct(states[0].history)
    && forall k :: 0 <= k < |attempts| ==> IsAttempt(payload, states[k], attempts[k], states[k + 1])
  }

  lemma {:induction false} UnrecordedIs(payload: seq<Script>, history: seq<Script>, s: Script)
    ensures s in Unrecorded(payload, history) <==> s in payload && s.name !in Names(history)
    decreases |payload|
  {
    if payload != [] {
      UnrecordedIs(payload[..|payload| - 1], history, s);
      assert payload == payload[..|payload| - 1] + [payload[|payload| - 1]];
    }
  }

  lemma {:induction false} UnrecordedAscends(payload: seq<Script>, history: seq<Script>)
    requires Ascending(payload)
    ensures Ascending(Unrecorded(payload, history))
    decreases |payload|
  {
    hide NameLess;
    if payload != [] {
      var front, last := payload[..|payload| - 1], payload[|payload| - 1];
      UnrecordedAscends(front, history);
      var rest := Unrecorded(front, history);
      forall i | 0 <= i < |rest| ensures NameLess(rest[i].name, last.name) {
        UnrecordedIs(front, history, rest[i]);
      }
    }
  }

  /** In whatever order the directory is read, what a run executes is a beginning of the
      unrecorded files in filename order. */
  lemma PendingInFilenameOrder(listing: seq<Script>, history: seq<Script>, s: Script)
    requires Distinct(listing)
    ensures Ascending(Unrecorded(Sort(listing), history))
    ensures s in Unrecorded(Sort(listing), history) <==> s in listing && s.name !in Names(history)
  {
    SortIs(listing);
    UnrecordedAscends(Sort(listing), history);
    UnrecordedIs(Sort(listing), history, s);
    assert s in multiset(Sort(listing)) <==> s in multiset(listing);
  }

  lemma {:induction false} UnrecordedDistinct(payload: seq<Script>, history: seq<Script>)
    requires Distinct(payload)
    ensures Distinct(Unrecorded(payload, history))
    decreases |payload|
  {
    if payload != [] {
      var front, last := payload[..|payload| - 1], payload[|payload| - 1];
      UnrecordedDistinct(front, history);
      var rest := Unrecorded(front, history);
      forall i | 0 <= i < |rest| ensures rest[i].name != last.name {
        UnrecordedIs(front, history, rest[i]);
      }
    }
  }

  lemma AttemptKeepsDistinct(payload: seq<Script>, s: State, a: Attempt, s': State)
    requires Distinct(payload) && Distinct(s.history) && IsAttempt(payload, s, a, s')
    ensures Distinct(s'.history)
  {
    if a.Attempted? {
      var pending := Unrecorded(payload, s.history);
      UnrecordedDistinct(payload, s.history);
      forall i, j | 0 <= i < |s.history| && 0 <= j < |pending| ensures s.history[i].name != pending[j].name {
        UnrecordedIs(payload, s.history, pending[j]);
        assert s.history[i].name in Names(s.history);
      }
    }
  }

  /** Over any sequence of deployments of one payload, each able to stop anywhere: a migration
      is recorded at most once, and what a run records is the payload's file. */
  lemma {:induction false} RecordedOnce(payload: seq<Script>, states: seq<State>, attempts: seq<Attempt>, n: nat)
    requires Distinct(payload) && Runs(payload, states, attempts) && n <= |attempts|
    ensures Distinct(states[n].history) && states[0].history <= states[n].history
    ensures forall s :: s in states[n].history ==> s in states[0].history || s in payload
  {
    if n > 0 {
      RecordedOnce(payload, states, attempts, n - 1);
      var a := attempts[n - 1];
      assert IsAttempt(payload, states[n - 1], a, states[n]);
      AttemptKeepsDistinct(payload, states[n - 1], a, states[n]);
      if a.Attempted? {
        var pending := Unrecorded(payload, states[n - 1].history);
        forall s | s in pending[..a.p.done] ensures s in payload {
          assert s in pending;
          UnrecordedIs(payload, states[n - 1].history, s);
        }
      }
    }
  }

  function Times(names: seq<Name>, name: Name): nat {
    multiset(names)[name]
  }

  /** The run executed this migration and stopped before it was recorded. */
  predicate StoppedOn(payload: seq<Script>, s: State, a: Attempt, name: Name) {
    a.Attempted? && a.p.tried == a.p.done + 1 && a.p.tried <= |Unrecorded(payload, s.history)|
    && Unrecorded(payload, s.history)[a.p.done].name == name
  }

  function Stops(payload: seq<Script>, states: seq<State>, attempts: seq<Attempt>, name: Name, n: nat): nat
    requires |states| == |attempts| + 1 && n <= |attempts|
  {
    if n == 0 then 0
    else Stops(payload, states, attempts, name, n - 1) + (if StoppedOn(payload, states[n - 1], attempts[n - 1], name) then 1 else 0)
  }

  function IsRecorded(history: seq<Script>, name: Name): nat {
    if name in Names(history) then 1 else 0
  }

  lemma {:induction false} TimesInPrefix(scripts: seq<Script>, k: nat, name: Name)
    requires Distinct(scripts) && k <= |scripts|
    ensures Times(NamesOf(scripts[..k]), name) == IsRecorded(scripts[..k], name)
    decreases k
  {
    if k > 0 {
      TimesInPrefix(scripts, k - 1, name);
      NamesOfPrefix(scripts, k - 1);
      NamesAppend(scripts[..k - 1], [scripts[k - 1]]);
      if name in Names(scripts[..k - 1]) {
        var j :| 0 <= j < k - 1 && scripts[..k - 1][j].name == name;
        assert scripts[j].name != scripts[k - 1].name;
      }
    }
  }

  lemma NamesAppend(a: seq<Script>, b: seq<Script>)
    ensures Names(a + b) == Names(a) + Names(b)
  {
    forall n | n in Names(b) ensures n in Names(a + b) {
      var k :| 0 <= k < |b| && b[k].name == n;
      assert (a + b)[|a| + k] == b[k];
    }
    forall n | n in Names(a) ensures n in Names(a + b) {
      var k :| 0 <= k < |a| && a[k].name == n;
      assert (a + b)[k] == a[k];
    }
  }

  lemma TimesAppend(a: seq<Name>, b: seq<Name>, name: Name)
    ensures Times(a + b, name) == Times(a, name) + Times(b, name)
  {
  }

  lemma RecordedAppend(payload: seq<Script>, history: seq<Script>, done: nat, name: Name)
    requires done <= |Unrecorded(payload, history)|
    ensures var more := Unrecorded(payload, history)[..done];
            IsRecorded(history + more, name) == IsRecorded(history, name) + IsRecorded(more, name)
  {
    var pending := Unrecorded(payload, history);
    NamesAppend(history, pending[..done]);
    if name in Names(pending[..done]) {
      var j :| 0 <= j < done && pending[..done][j].name == name;
      UnrecordedIs(payload, history, pending[j]);
    }
  }

  lemma AttemptCounts(payload: seq<Script>, s: State, a: Attempt, s': State, name: Name)
    requires Distinct(payload) && Distinct(s.history) && IsAttempt(payload, s, a, s')
    ensures Times(s'.executed, name) - Times(s.executed, name)
            == IsRecorded(s'.history, name) - IsRecorded(s.history, name) + (if StoppedOn(payload, s, a, name) then 1 else 0)
  {
    hide Unrecorded;
    hide IsRecorded;
    hide NamesOf;
    hide Compatible;
    hide Distinct;
    if a.Attempted? {
      var pending := Unrecorded(payload, s.history);
      UnrecordedDistinct(payload, s.history);
      TimesInPrefix(pending, a.p.done, name);
      RecordedAppend(payload, s.history, a.p.done, name);
      TimesAppend(s.executed, NamesOf(pending[..a.p.tried]), name);
      if a.p.tried > a.p.done {
        NamesOfPrefix(pending, a.p.done);
        TimesAppend(NamesOf(pending[..a.p.done]), [pending[a.p.done].name], name);
      }
    }
  }

  /** Executions are conserved: over all runs a migration was executed once if it got recorded
      meanwhile, and once more for every run that stopped on it; for no other reason. */
  lemma {:induction false} ExecutionsAccounted(payload: seq<Script>, states: seq<State>, attempts: seq<Attempt>, name: Name, n: nat)
    requires Distinct(payload) && Runs(payload, states, attempts) && n <= |attempts|
    ensures Times(states[n].executed, name) - Times(states[0].executed, name)
            == IsRecorded(states[n].history, name) - IsRecorded(states[0].history, name) + Stops(payload, states, attempts, name, n)
  {
    if n > 0 {
      ExecutionsAccounted(payload, states, attempts, name, n - 1);
      RecordedOnce(payload, states, attempts, n - 1);
      assert IsAttempt(payload, states[n - 1], attempts[n - 1], states[n]);
      AttemptCounts(payload, states[n - 1], attempts[n - 1], states[n], name);
    }
  }

  /** A run that gets through leaves the history naming exactly the files of the payload. */
  lemma CompleteRunMatchesPayload(payload: seq<Script>, s: State, s': State)
    requires Distinct(payload) && Distinct(s.history)
    requires var n := |Unrecorded(payload, s.history)|; IsAttempt(payload, s, Attempted(Progress(n, n)), s')
    ensures forall x :: x in s'.history <==> x in payload
    ensures Distinct(s'.history) && |s'.history| == |payload|
  {
    var pending := Unrecorded(payload, s.history);
    assert pending[..|pending|] == pending;
    AttemptKeepsDistinct(payload, s, Attempted(Progress(|pending|, |pending|)), s');
    forall x ensures x in s'.history <==> x in payload {
      UnrecordedIs(payload, s.history, x);
      if x in payload {
        var k :| 0 <= k < |payload| && payload[k] == x;
        assert AgreesOn(s.history, payload[k]);
      } else if x in s.history {
        HistoryInPayload(payload, s.history, x);
      }
    }
    SameSize(payload, s'.history);
  }

  lemma HistoryInPayload(payload: seq<Script>, history: seq<Script>, x: Script)
    requires Compatible(payload, history) && Distinct(history) && x in history
    ensures x in payload
  {
    var i :| 0 <= i < |history| && history[i] == x;
    assert x.name in Names(history);
    var k :| 0 <= k < |payload| && payload[k].name == x.name;
    assert AgreesOn(history, payload[k]);
    var j :| 0 <= j < |history| && history[j] == payload[k];
    assert i == j;
  }

  lemma SameSize(a: seq<Script>, b: seq<Script>)
    requires Distinct(a) && Distinct(b) && forall x :: x in a <==> x in b
    ensures |a| == |b|
  {
    ElementsCount(a);
    ElementsCount(b);
    assert (set x | x in a) == (set x | x in b);
  }

  lemma {:induction false} ElementsCount(a: seq<Script>)
    requires Distinct(a)
    ensures |set x | x in a| == |a|
    decreases |a|
  {
    if a != [] {
      var front, last := a[..|a| - 1], a[|a| - 1];
      ElementsCount(front);
      assert (set x | x in a) == (set x | x in front) + {last};
      assert last !in front;
    }
  }
}
