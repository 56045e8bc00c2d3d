/** Activation, pause and retention changes (deploy/remote_release.py), the dispatch of its
    command line, and what any sequence of operations does to the running gates. */
module ReleaseRollout {
  import opened Wrappers
  import opened FileTree
  import opened ReleaseHost
  import opened ReleaseDeploy
  import opened ReleaseTransaction
  import Migrations

  /** `Returned` without an error; `LeftAlone`: an error before the first change; `Failed` with
      the cleanup commands done; `Unclean`: a cleanup command failed as well. */
  datatype Ended = Returned | LeftAlone | Failed | Unclean

  /** The gates of the running process are exactly those asked for. */
  method VerifyRollout(h: Host, r: Rollout) returns (ok: bool)
    ensures ok ==> h.backend.Some? && h.backend.value.env == EnvOf(r)
  {
    var current := h.ProcessEnvironment();
    return current.Some? && current.value == EnvOf(r);
  }

  /** What `change_rollout` is really asked for: with both switched off it is the emergency
      pause, which resets the test user as well. */
  function Asked(enabled: bool, testUser: int, retention: bool): Rollout {
    if !enabled && !retention then PAUSED else Rollout(enabled, testUser, retention)
  }

  method Pause(h: Host) returns (e: Ended)
    requires Rooted(h.files)
    modifies h`files, h`seen, h`inForce, h`backend
    ensures Rooted(h.files) && e != LeftAlone
    ensures e == Returned ==> h.backend.Some? && h.backend.value.env == EnvOf(PAUSED) && SaysRollout(h.files) && RolloutOf(h.files) == PAUSED
    ensures e == Failed ==> h.backend == None
  {
    hide OnlyAt;
    hide Rooted;
    var stopped := h.StopBackend();
    var ok := h.SetRollout(PAUSED);
    ok := ok && stopped;
    if ok { ok := h.StartBackend(); }
    if ok { ok := VerifyRollout(h, PAUSED); }
    if ok { return Returned; }
    ok := h.StopBackend();
    return if ok then Failed else Unclean;
  }

  method ChangeRollout(h: Host, m: Manifest, enabled: bool, testUser: int, retention: bool) returns (e: Ended)
    requires Rooted(h.files)
    modifies h`files, h`seen, h`inForce, h`backend
    ensures Rooted(h.files)
    ensures e == Returned ==> h.backend.Some? && h.backend.value.env == EnvOf(Asked(enabled, testUser, retention))
    ensures e == Returned ==> SaysRollout(h.files) && RolloutOf(h.files) == Asked(enabled, testUser, retention)
    ensures e == Returned ==> testUser == 0 || !retention
    ensures e == LeftAlone ==> h.backend == old(h.backend) && h.files == old(h.files) && h.inForce == old(h.inForce)
    ensures e == Failed ==> h.backend == None
  {
    hide OnlyAt;
    hide Rooted;
    if testUser != 0 && retention { return LeftAlone; }
    if !enabled && !retention {
      e := Pause(h);
      return;
    }
    var verified: bool := *;
    if !verified { return LeftAlone; }
    if "backend/server" !in m.files || !IsFile(h.files, SERVER) || h.files[SERVER].content != m.files["backend/server"] {
      return LeftAlone;
    }
    var env := h.ProcessEnvironment();
    if env.None? { return LeftAlone; }
    var valid: bool := *;
    if !valid { return LeftAlone; }
    var ask := Rollout(enabled, testUser, retention);
    var ok := h.SetRollout(ask);
    if ok { ok := h.RestartBackend(); }
    if ok { ok := *; }
    if ok { ok := VerifyRollout(h, ask); }
    if ok { return Returned; }
    var paused := h.SetRollout(PAUSED);
    ok := h.StopBackend();
    return if ok then Failed else Unclean;
  }

  // ------------------------------------------------------------- dispatch

  datatype Op =
    | DeployRelease(root: Path, manifest: Manifest, scripts: seq<Migrations.Script>, applySchema: bool)
    | ActivateTestUser(manifest: Manifest, user: int)
    | ActivateAllUsers(manifest: Manifest)
    | PauseErasure(manifest: Manifest)
    | SetRetention(manifest: Manifest, on: bool)

  predicate ChangesBackend(op: Op) {
    op.DeployRelease? ==> HasBackend(op.manifest)
  }

  function UserOf(t: UserText): Option<int> {
    match t
    case Decimal(n) => Some(n)
    case Loose(n) => Some(n)
    case Absent => Some(0)
    case Unreadable => None
  }

  /** The running gates are what an operation that returned was asked for. */
  predicate AsAsked(op: Op, before: Option<Process>, env: Env) {
    match op
    case DeployRelease(_, m, _, _) => HasBackend(m) ==> GatesOff(env)
    case ActivateTestUser(_, user) => user > 0 && env == EnvOf(Rollout(true, user, false))
    case ActivateAllUsers(_) => env == EnvOf(Rollout(true, 0, false))
    case PauseErasure(_) => env == EnvOf(PAUSED)
    case SetRetention(_, on) =>
      && before.Some? && env.retention == FlagOf(on)
      && (env.requests == On <==> before.value.env.requests == On)
      && (env.worker == On <==> before.value.env.worker == On)
      && (before.value.env.requests == On ==> UserOf(before.value.env.testUser) == UserOf(env.testUser))
  }

  /** What one operation may do to the running backend. */
  predicate GateStep(op: Op, shadow: Option<Env>, before: Option<Process>, e: Ended, after: Option<Process>) {
    && (!ChangesBackend(op) || e == LeftAlone ==> after == before)
    && (ChangesBackend(op) && e == Returned ==> after.Some? && AsAsked(op, before, after.value.env))
    && (ChangesBackend(op) && e == Failed ==> after == None || after.value.env == LiveEnv(shadow, PAUSED))
  }

  method ChangeRetention(h: Host, m: Manifest, on: bool) returns (e: Ended)
    requires Rooted(h.files)
    modifies h`files, h`seen, h`inForce, h`backend
    ensures Rooted(h.files) && GateStep(SetRetention(m, on), h.shadow, old(h.backend), e, h.backend)
  {
    hide Rooted;
    var current := h.ProcessEnvironment();
    if current.None? { return LeftAlone; }
    var enabled := current.value.requests == On;
    if enabled != (current.value.worker == On) { return LeftAlone; }
    var user := UserOf(current.value.testUser);
    if user.None? { return LeftAlone; }
    e := ChangeRollout(h, m, enabled, user.value, on);
  }

  /** What an operation did to the migration journal: one attempt at its payload, if it is a
      deployment of the backend, and else nothing. */
  ghost predicate JournalStep(op: Op, s: Migrations.State, s': Migrations.State) {
    if op.DeployRelease? && HasBackend(op.manifest) then Advances(op.scripts, s, s', false) else s' == s
  }

  /** The release directory is one, and a directory lists each migration once. */
  predicate ValidOp(op: Op) {
    op.DeployRelease? ==> IsReleaseDir(op.root) && Migrations.Distinct(op.scripts)
  }

  method DeployOp(h: Host, db: Migrations.Database, op: Op) returns (e: Ended)
    requires Rooted(h.files) && Migrations.Distinct(db.history) && op.DeployRelease? && ValidOp(op)
    modifies h, db
    ensures Rooted(h.files) && Migrations.Distinct(db.history)
    ensures GateStep(op, h.shadow, old(h.backend), e, h.backend) && JournalStep(op, old(StateOf(db)), StateOf(db))
  {
    hide Rooted;
    hide Targets;
    hide Done;
    hide TargetsBack;
    hide Advances;
    hide Migrations.Distinct;
    ghost var s := StateOf(db);
    var r := Deploy(h, db, op.root, op.manifest, op.scripts, op.applySchema);
    if HasBackend(op.manifest) {
      AdvanceWeakens(op.scripts, s, StateOf(db), r == Deployed);
    }
    match r {
      case Deployed => return Returned;
      case Refused => return LeftAlone;
      case RolledBack => return Failed;
      case Stuck => return Unclean;
    }
  }

  method RunOp(h: Host, db: Migrations.Database, op: Op) returns (e: Ended)
    requires Rooted(h.files) && Migrations.Distinct(db.history) && ValidOp(op)
    modifies h, db
    ensures Rooted(h.files) && Migrations.Distinct(db.history)
    ensures GateStep(op, h.shadow, old(h.backend), e, h.backend) && JournalStep(op, old(StateOf(db)), StateOf(db))
  {
    hide Rooted;
    hide Migrations.Distinct;
    match op {
      case DeployRelease(_, _, _, _) => e := DeployOp(h, db, op);
      case ActivateTestUser(m, user) =>
        if user <= 0 { return LeftAlone; }
        e := ChangeRollout(h, m, true, user, false);
      case ActivateAllUsers(m) => e := ChangeRollout(h, m, true, 0, false);
      case PauseErasure(m) => e := ChangeRollout(h, m, false, 0, false);
      case SetRetention(m, on) => e := ChangeRetention(h, m, on);
    }
  }

  // -------------------------------------------------- sequences of operations

  datatype Step = Step(op: Op, ended: Ended)

  /** The backend as it was before the first step and after each. */
  predicate GateRun(shadow: Option<Env>, backends: seq<Option<Process>>, steps: seq<Step>) {
    && |backends| == |steps| + 1
    && forall k :: 0 <= k < |steps| ==> Follows(shadow, backends[k], steps[k], backends[k + 1])
  }

  predicate Follows(shadow: Option<Env>, before: Option<Process>, step: Step, after: Option<Process>) {
    GateStep(step.op, shadow, before, step.ended, after)
  }

  /** From step `i` on nothing changed the backend, and no operation on it returned. */
  predicate Untouched(backends: seq<Option<Process>>, steps: seq<Step>, i: nat, n: nat)
    requires |backends| == |steps| + 1 && i <= n <= |steps|
  {
    forall k :: i <= k < n ==> Passes(backends[k], steps[k], backends[k + 1])
  }

  predicate Passes(before: Option<Process>, step: Step, after: Option<Process>) {
    after == before && !(ChangesBackend(step.op) && step.ended == Returned)
  }

  /** Step `j` returned, having been asked for these gates, and nothing since touched the backend. */
  predicate Granted(backends: seq<Option<Process>>, steps: seq<Step>, j: nat, n: nat)
    requires |backends| == |steps| + 1 && j < n <= |steps|
  {
    && steps[j].ended == Returned && ChangesBackend(steps[j].op)
    && backends[j + 1].Some? && AsAsked(steps[j].op, backends[j], backends[j + 1].value.env)
    && Untouched(backends, steps, j + 1, n)
  }

  /** Over every sequence of operations whose cleanup commands succeed: the backend is as it
      was found and was never touched; or down; or paused as far as our drop-in decides; or it
      runs exactly the gates that the last operation to return was asked for, untouched since.
      A failed operation never leaves an older, enabled state behind. */
  lemma {:induction false} GatesAreAsAsked(shadow: Option<Env>, backends: seq<Option<Process>>, steps: seq<Step>, n: nat)
    requires GateRun(shadow, backends, steps) && n <= |steps|
    requires forall k :: 0 <= k < |steps| ==> steps[k].ended != Unclean
    ensures Untouched(backends, steps, 0, n) || backends[n] == None || backends[n].value.env == LiveEnv(shadow, PAUSED)
         || exists j :: 0 <= j < n && Granted(backends, steps, j, n)
  {
    if n > 0 {
      var step, prev := steps[n - 1], n - 1;
      assert Follows(shadow, backends[prev], step, backends[n]);
      if ChangesBackend(step.op) && step.ended == Returned {
        assert Granted(backends, steps, prev, n);
      } else {
        GatesAreAsAsked(shadow, backends, steps, prev);
        if backends[n] == backends[prev] {
          if j :| 0 <= j < prev && Granted(backends, steps, j, prev) {
            assert Granted(backends, steps, j, n);
          }
        }
      }
    }
  }

  /** In particular, unless another drop-in itself turns erasure on, no sequence of deploys and
      failures re-enables it after a pause. */
  lemma {:induction false} PauseHolds(shadow: Option<Env>, backends: seq<Option<Process>>, steps: seq<Step>, i: nat, n: nat)
    requires GateRun(shadow, backends, steps) && i < n <= |steps|
    requires LiveEnv(shadow, PAUSED).requests != On && LiveEnv(shadow, PAUSED).worker != On
    requires steps[i] == Step(PauseErasure(steps[i].op.manifest), Returned)
    requires forall k :: 0 <= k < |steps| ==> steps[k].ended != Unclean
    requires forall k :: i < k < n && steps[k].ended == Returned ==> steps[k].op.DeployRelease? || steps[k].op.PauseErasure? || steps[k].op.SetRetention?
    ensures backends[n] == None || (backends[n].value.env.requests != On && backends[n].value.env.worker != On)
    decreases n
  {
    var step := steps[n - 1];
    assert Follows(shadow, backends[n - 1], step, backends[n]);
    if n - 1 > i {
      PauseHolds(shadow, backends, steps, i, n - 1);
    }
  }

  // ------------------------------------------------------ the program, repeated

  /** Every deployment of the backend is of this payload. */
  predicate OnePayload(ops: seq<Op>, listing: seq<Migrations.Script>) {
    forall k :: 0 <= k < |ops| ==> (ops[k].DeployRelease? && HasBackend(ops[k].manifest) ==> ops[k].scripts == listing)
  }

  /** The attempt an operation made at the payload. */
  lemma AttemptOf(op: Op, listing: seq<Migrations.Script>, s: Migrations.State, s': Migrations.State) returns (a: Migrations.Attempt)
    requires JournalStep(op, s, s')
    ensures (op.DeployRelease? && HasBackend(op.manifest) ==> op.scripts == listing) ==> Migrations.IsAttempt(Migrations.Sort(listing), s, a, s')
  {
    hide Migrations.Sort;
    a := Migrations.Refused;
    if op.DeployRelease? && HasBackend(op.manifest) {
      a :| Migrations.IsAttempt(Migrations.Sort(op.scripts), s, a, s');
    } else {
      assert Migrations.IsAttempt(Migrations.Sort(listing), s, Migrations.Refused, s');
    }
  }

  lemma GateRunMore(shadow: Option<Env>, backends: seq<Option<Process>>, steps: seq<Step>, step: Step, after: Option<Process>)
    requires GateRun(shadow, backends, steps) && GateStep(step.op, shadow, backends[|steps|], step.ended, after)
    ensures GateRun(shadow, backends + [after], steps + [step])
  {
    hide GateStep;
    var more, all := backends + [after], steps + [step];
    forall k | 0 <= k < |all| ensures Follows(shadow, more[k], all[k], more[k + 1]) {
      if k < |steps| {
        assert Follows(shadow, backends[k], steps[k], backends[k + 1]);
      }
    }
  }

  lemma RunsMore(payload: seq<Migrations.Script>, states: seq<Migrations.State>, attempts: seq<Migrations.Attempt>, a: Migrations.Attempt, s: Migrations.State)
    requires Migrations.Runs(payload, states, attempts) && Migrations.IsAttempt(payload, states[|attempts|], a, s)
    ensures Migrations.Runs(payload, states + [s], attempts + [a])
  {
    hide Migrations.IsAttempt;
    hide Migrations.Distinct;
    var more, all := states + [s], attempts + [a];
    forall k | 0 <= k < |all| ensures Migrations.IsAttempt(payload, more[k], all[k], more[k + 1]) {
      if k < |attempts| {
        assert Migrations.IsAttempt(payload, states[k], attempts[k], states[k + 1]);
      }
    }
  }

  /** Any list of operations, one after the other, whatever each comes to: the backends it goes
      through are a run of the gates, and the journal's states a run of the migrations when
      all deployments are of one payload. */
  method RunAll(h: Host, db: Migrations.Database, ops: seq<Op>, ghost listing: seq<Migrations.Script>)
    returns (steps: seq<Step>, ghost backends: seq<Option<Process>>, ghost states: seq<Migrations.State>, ghost attempts: seq<Migrations.Attempt>)
    requires Rooted(h.files) && Migrations.Distinct(db.history) && forall k :: 0 <= k < |ops| ==> ValidOp(ops[k])
    modifies h, db
    ensures |steps| == |ops| && forall k :: 0 <= k < |ops| ==> steps[k].op == ops[k]
    ensures GateRun(h.shadow, backends, steps) && backends[0] == old(h.backend) && backends[|ops|] == h.backend
    ensures |states| == |attempts| + 1 == |ops| + 1 && states[0] == old(StateOf(db)) && states[|ops|] == StateOf(db)
    ensures OnePayload(ops, listing) ==> Migrations.Runs(Migrations.Sort(listing), states, attempts)
  {
    hide Rooted;
    hide GateStep;
    hide JournalStep;
    hide Migrations.IsAttempt;
    hide Migrations.Sort;
    hide ValidOp;
    steps, backends, states, attempts := [], [h.backend], [StateOf(db)], [];
    for k := 0 to |ops|
      invariant Rooted(h.files) && Migrations.Distinct(db.history)
      invariant |steps| == k && forall i :: 0 <= i < k ==> steps[i].op == ops[i]
      invariant GateRun(h.shadow, backends, steps) && backends[0] == old(h.backend) && backends[k] == h.backend
      invariant |states| == |attempts| + 1 == k + 1 && states[0] == old(StateOf(db)) && states[k] == StateOf(db)
      invariant OnePayload(ops, listing) ==> Migrations.Runs(Migrations.Sort(listing), states, attempts)
    {
      var e := RunOp(h, db, ops[k]);
      GateRunMore(h.shadow, backends, steps, Step(ops[k], e), h.backend);
      ghost var a := AttemptOf(ops[k], listing, states[k], StateOf(db));
      if OnePayload(ops, listing) {
        RunsMore(Migrations.Sort(listing), states, attempts, a, StateOf(db));
      }
      steps := steps + [Step(ops[k], e)];
      backends := backends + [h.backend];
      states := states + [StateOf(db)];
      attempts := attempts + [a];
    }
  }
}
