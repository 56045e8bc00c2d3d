/** Any sequence of backfill runs, dry or not, each ending in any way. */
module IdentityHistory {
  import opened Wrappers
  import opened IdentityTransform
  import opened IdentityTables
  import opened IdentityBackfill

  /** Two starting points that differ only in the identity counter and the numbers given out. */
  ghost predicate Alike(p: Progress, q: Progress) {
    && Consistent(p.tables, p.nextId) && Consistent(q.tables, q.nextId)
    && p.stats == q.stats && p.tables.states == q.tables.states
    && Subjects(p.tables.identities) == Subjects(q.tables.identities) && Emails(p.tables.identities) == Emails(q.tables.identities)
  }

  lemma AlikePassword(p: Progress, q: Progress, m: Member)
    requires Alike(p, q)
    ensures Alike(PasswordStep(p, m), PasswordStep(q, m))
  {
    hide Consistent;
    hide Subjects;
    hide Emails;
    hide IsHolder;
    hide ValidHolder;
    hide NormalizedEmail;
    hide Canon;
    hide Ids;
    hide Grown;
    PasswordStepKeeps(p, m);
    PasswordStepKeeps(q, m);
    FreshHasNoCredential(p.tables, p.nextId);
    FreshHasNoCredential(q.tables, q.nextId);
    SubjectsAppend(p.tables.identities, PasswordRow(p.nextId, m));
    SubjectsAppend(q.tables.identities, PasswordRow(q.nextId, m));
  }

  lemma {:induction false} AlikePasswords(p: Progress, q: Progress, ms: seq<Member>)
    requires Alike(p, q)
    ensures Alike(AfterPasswords(p, ms), AfterPasswords(q, ms))
    decreases |ms|
  {
    hide Alike;
    if ms != [] {
      AlikePasswords(p, q, ms[..|ms| - 1]);
      AlikePassword(AfterPasswords(p, ms[..|ms| - 1]), AfterPasswords(q, ms[..|ms| - 1]), ms[|ms| - 1]);
    }
  }

  lemma AlikeLink(accounts: set<int>, p: Progress, q: Progress, l: SocialLink)
    requires Alike(p, q)
    ensures Alike(LinkStep(accounts, p, l), LinkStep(accounts, q, l))
  {
    hide Consistent;
    hide Subjects;
    hide Emails;
    hide MapProvider;
    hide MapSocialStatus;
    hide IsKey;
    hide Canon;
    hide Ids;
    hide GrownByLinks;
    LinkStepKeeps(accounts, p, l);
    LinkStepKeeps(accounts, q, l);
    if Mapped(l) {
      SubjectsAppend(p.tables.identities, LinkRow(p.nextId, l));
      SubjectsAppend(q.tables.identities, LinkRow(q.nextId, l));
    }
  }

  lemma {:induction false} AlikeLinks(accounts: set<int>, p: Progress, q: Progress, ls: seq<SocialLink>)
    requires Alike(p, q)
    ensures Alike(AfterLinks(accounts, p, ls), AfterLinks(accounts, q, ls))
    decreases |ls|
  {
    hide Alike;
    if ls != [] {
      AlikeLinks(accounts, p, q, ls[..|ls| - 1]);
      AlikeLink(accounts, AfterLinks(accounts, p, ls[..|ls| - 1]), AfterLinks(accounts, q, ls[..|ls| - 1]), ls[|ls| - 1]);
    }
  }

  lemma {:induction false} AlikeAccounts(p: Progress, q: Progress, ms: seq<Member>)
    requires Alike(p, q)
    ensures Alike(AfterAccounts(p, ms), AfterAccounts(q, ms))
    decreases |ms|
  {
    if ms != [] {
      AlikeAccounts(p, q, ms[..|ms| - 1]);
    }
  }

  /** The figures depend on the rows only: numbers used up by earlier attempts, such as a dry
      run, do not change what a later run from the same rows reports. */
  lemma StatsIgnoreNumbers(t: Tables, n: nat, n': nat, src: Source)
    requires Consistent(t, n) && Consistent(t, n')
    ensures Execute(t, n, src).stats == Execute(t, n', src).stats
  {
    var p, q := Start(t, n, src), Start(t, n', src);
    assert Alike(p, q);
    AlikeAccounts(p, q, src.members);
    AlikePasswords(AfterAccounts(p, src.members), AfterAccounts(q, src.members), src.members);
    AlikeLinks(Accounts(src.members),
               AfterPasswords(AfterAccounts(p, src.members), src.members), AfterPasswords(AfterAccounts(q, src.members), src.members), src.links);
  }

  // ---------------------------------------------------- sequences of runs

  datatype Op = Applies(run: RunId, src: Source) | DryRuns(src: Source)

  datatype Moment = Moment(store: Store, nextId: nat)

  ghost predicate Step(a: Moment, op: Op, b: Moment) {
    match op
    case Applies(run, src) => ApplyEffect(a.store, a.nextId, run, src, b.store, b.nextId)
    case DryRuns(_) => b.store == a.store && a.nextId <= b.nextId
  }

  ghost predicate History(hs: seq<Moment>, ops: seq<Op>) {
    && |hs| == |ops| + 1 && Consistent(hs[0].store.tables, hs[0].nextId)
    && forall k :: 0 <= k < |ops| ==> Step(hs[k], ops[k], hs[k + 1])
  }

  lemma {:induction false} HistoryIsConsistent(hs: seq<Moment>, ops: seq<Op>, k: nat)
    requires History(hs, ops) && k <= |ops|
    ensures Consistent(hs[k].store.tables, hs[k].nextId)
  {
    hide ApplyEffect;
    if k > 0 {
      HistoryIsConsistent(hs, ops, k - 1);
      var a, b := hs[k - 1], hs[k];
      assert Step(a, ops[k - 1], b);
      if ops[k - 1].Applies? {
        EffectIsConsistent(a.store, a.nextId, ops[k - 1].run, ops[k - 1].src, b.store, b.nextId);
      }
    }
  }

  /** The k-th run is an apply that committed. */
  ghost predicate Took(hs: seq<Moment>, ops: seq<Op>, k: nat)
    requires History(hs, ops) && k < |ops|
  {
    ops[k].Applies? && ops[k].run !in hs[k].store.runs && SaysApplied(hs[k + 1].store, ops[k].run)
  }

  /** A run row, whatever its status, is never changed by a later run: FAILED never overwrites
      APPLIED, nor the other way round. */
  lemma {:induction false} RunRowsStay(hs: seq<Moment>, ops: seq<Op>, i: nat, j: nat, run: RunId)
    requires History(hs, ops) && i <= j <= |ops| && run in hs[i].store.runs
    ensures run in hs[j].store.runs && hs[j].store.runs[run] == hs[i].store.runs[run]
    decreases j
  {
    hide Execute;
    if i < j {
      RunRowsStay(hs, ops, i, j - 1, run);
      assert Step(hs[j - 1], ops[j - 1], hs[j]);
    }
  }

  /** A committed apply adds the states of its members, and none of them was there. */
  lemma TookAdds(hs: seq<Moment>, ops: seq<Op>, k: nat)
    requires History(hs, ops) && k < |ops| && Took(hs, ops, k)
    ensures var src := ops[k].src;
            && hs[k].store.tables.states.Keys !! Accounts(src.members)
            && hs[k + 1].store.tables.states.Keys == hs[k].store.tables.states.Keys + Accounts(src.members)
            && CleanSource(hs[k].store.tables, src)
            && IsImage(hs[k].store.tables, hs[k].nextId, src, hs[k + 1].store.tables)
  {
    hide Execute;
    hide Consistent;
    hide CleanHolders;
    hide CleanLinks;
    hide CredentialsOf;
    hide PasswordImage;
    hide LinkImage;
    HistoryIsConsistent(hs, ops, k);
    var a, src := hs[k], ops[k].src;
    assert Step(a, ops[k], hs[k + 1]);
    NoConflictIffClean(a.store.tables, a.nextId, src);
    CleanGivesImage(a.store.tables, a.nextId, src);
    forall x | x in Accounts(src.members) ensures x !in a.store.tables.states {
      var j :| 0 <= j < |src.members| && src.members[j].account == x;
      assert AccountOk(a.store.tables, src.members, j);
    }
  }

  /** Any other run leaves the canonical rows alone. */
  lemma NotTookLeaves(hs: seq<Moment>, ops: seq<Op>, k: nat)
    requires History(hs, ops) && k < |ops| && !Took(hs, ops, k)
    ensures hs[k + 1].store.tables == hs[k].store.tables && hs[k + 1].store.journal == hs[k].store.journal
  {
    hide Execute;
    assert Step(hs[k], ops[k], hs[k + 1]);
  }

  // ------------------------------------------------ what committed runs bring in

  /** The states of the members; a later one would replace an earlier one. */
  function StatesFrom(ms: seq<Member>): map<int, AccountState> {
    if ms == [] then map[]
    else StatesFrom(ms[..|ms| - 1])[ms[|ms| - 1].account := MapAccountStatus(ms[|ms| - 1].status)]
  }

  /** The `n` numbers from `nextId` on. */
  function Numbers(nextId: nat, n: nat): (s: set<nat>)
    ensures forall i :: i in s <==> nextId <= i < nextId + n
  {
    if n == 0 then {} else Numbers(nextId, n - 1) + {nextId + (n - 1)}
  }

  function HashesFrom(nextId: nat, holders: seq<Member>): map<nat, string> {
    map i | i in Numbers(nextId, |holders|) :: holders[i - nextId].hash
  }

  function IdentitiesFrom(nextId: nat, src: Source): seq<Identity> {
    PasswordImage(nextId, src.members)
    + (if AllMapped(src.links) then LinkImage(nextId + |Holders(src.members)|, src.links) else [])
  }

  /** The rows a source comes to, numbered from `nextId`. */
  function ImageOf(nextId: nat, src: Source): Tables {
    Tables(StatesFrom(src.members), IdentitiesFrom(nextId, src), HashesFrom(nextId, Holders(src.members)))
  }

  function Plus(a: Tables, b: Tables): Tables {
    Tables(a.states + b.states, a.identities + b.identities, a.credentials + b.credentials)
  }

  const NO_ROWS := Tables(map[], [], map[])

  lemma PlusTwice(a: Tables, b: Tables, c: Tables)
    ensures Plus(Plus(a, b), c) == Plus(a, Plus(b, c))
  {
    assert (a.states + b.states) + c.states == a.states + (b.states + c.states);
    assert (a.identities + b.identities) + c.identities == a.identities + (b.identities + c.identities);
    assert (a.credentials + b.credentials) + c.credentials == a.credentials + (b.credentials + c.credentials);
  }

  lemma PlusNothing(a: Tables)
    ensures Plus(a, NO_ROWS) == a
  {
    assert a.states + map[] == a.states && a.identities + [] == a.identities && a.credentials + map[] == a.credentials;
  }

  lemma {:induction false} StatesFromAre(ms: seq<Member>)
    ensures StatesFrom(ms).Keys == Accounts(ms)
    ensures forall a :: a in StatesFrom(ms) ==> exists k :: 0 <= k < |ms| && ms[k].account == a && StatesFrom(ms)[a] == MapAccountStatus(ms[k].status)
    decreases |ms|
  {
    hide MapAccountStatus;
    if ms != [] {
      var front, last := ms[..|ms| - 1], ms[|ms| - 1];
      StatesFromAre(front);
      AccountsOf(ms);
      forall a | a in StatesFrom(ms)
        ensures exists k :: 0 <= k < |ms| && ms[k].account == a && StatesFrom(ms)[a] == MapAccountStatus(ms[k].status)
      {
        if a == last.account {
          assert ms[|ms| - 1].account == a;
        } else {
          var k :| 0 <= k < |front| && front[k].account == a && StatesFrom(front)[a] == MapAccountStatus(front[k].status);
          assert ms[k] == front[k];
        }
      }
    }
  }

  lemma StatesAdd(was: map<int, AccountState>, ms: seq<Member>, all: map<int, AccountState>)
    requires StatesOf(was, ms, all)
    ensures all == was + StatesFrom(ms)
  {
    hide MapAccountStatus;
    hide StatesFrom;
    StatesFromAre(ms);
    var sum := was + StatesFrom(ms);
    forall a | a in all ensures a in sum && sum[a] == all[a] {
      if a in StatesFrom(ms) {
        var k :| 0 <= k < |ms| && ms[k].account == a && StatesFrom(ms)[a] == MapAccountStatus(ms[k].status);
      }
    }
    assert sum.Keys == all.Keys;
  }

  lemma CredentialsAdd(was: map<nat, string>, nextId: nat, holders: seq<Member>, all: map<nat, string>)
    requires CredentialsOf(was, nextId, holders, all)
    ensures all == was + HashesFrom(nextId, holders)
  {
    var sum := was + HashesFrom(nextId, holders);
    forall i | i in all ensures i in sum && sum[i] == all[i] {
    }
    assert sum.Keys == all.Keys;
  }

  lemma ImageAdds(t: Tables, nextId: nat, src: Source, t': Tables)
    requires IsImage(t, nextId, src, t')
    ensures t' == Plus(t, ImageOf(nextId, src))
  {
    hide StatesOf;
    hide CredentialsOf;
    hide PasswordImage;
    hide LinkImage;
    hide Holders;
    hide StatesFrom;
    hide HashesFrom;
    StatesAdd(t.states, src.members, t'.states);
    CredentialsAdd(t.credentials, nextId, Holders(src.members), t'.credentials);
    assert t'.identities == t.identities + IdentitiesFrom(nextId, src);
  }

  /** All rows that committed runs brought in. */
  ghost function Brought(hs: seq<Moment>, ops: seq<Op>, n: nat): Tables
    requires History(hs, ops) && n <= |ops|
  {
    if n == 0 then NO_ROWS
    else Plus(Brought(hs, ops, n - 1), if Took(hs, ops, n - 1) then ImageOf(hs[n - 1].nextId, ops[n - 1].src) else NO_ROWS)
  }

  /** At every moment the account states, the identities and the credentials are those of the
      start and the images of the runs whose row says APPLIED, no more and no less. */
  lemma {:induction false} RowsPresentIffApplied(hs: seq<Moment>, ops: seq<Op>, n: nat)
    requires History(hs, ops) && n <= |ops|
    ensures hs[n].store.tables == Plus(hs[0].store.tables, Brought(hs, ops, n))
  {
    hide Step;
    hide Consistent;
    hide IsImage;
    hide CleanSource;
    hide Accounts;
    hide Took;
    hide Plus;
    hide ImageOf;
    var t := hs[0].store.tables;
    PlusNothing(t);
    if n > 0 {
      RowsPresentIffApplied(hs, ops, n - 1);
      var more := if Took(hs, ops, n - 1) then ImageOf(hs[n - 1].nextId, ops[n - 1].src) else NO_ROWS;
      PlusTwice(t, Brought(hs, ops, n - 1), more);
      if Took(hs, ops, n - 1) {
        TookAdds(hs, ops, n - 1);
        ImageAdds(hs[n - 1].store.tables, hs[n - 1].nextId, ops[n - 1].src, hs[n].store.tables);
      } else {
        NotTookLeaves(hs, ops, n - 1);
        PlusNothing(hs[n - 1].store.tables);
      }
    }
  }

  lemma {:induction false} BroughtStays(hs: seq<Moment>, ops: seq<Op>, i: nat, n: nat)
    requires History(hs, ops) && i < n <= |ops| && Took(hs, ops, i)
    ensures Accounts(ops[i].src.members) <= Brought(hs, ops, n).states.Keys
    decreases n
  {
    hide Accounts;
    hide Consistent;
    hide Took;
    hide Step;
    hide StatesFrom;
    hide IdentitiesFrom;
    hide HashesFrom;
    if i < n - 1 {
      BroughtStays(hs, ops, i, n - 1);
    } else {
      StatesFromAre(ops[i].src.members);
    }
  }

  /** After an APPLIED run, a run that shares a member with it conflicts and changes nothing;
      so no member is brought in twice, by however many runs. */
  lemma AppliedOnce(hs: seq<Moment>, ops: seq<Op>, i: nat, j: nat)
    requires History(hs, ops) && i < j < |ops| && Took(hs, ops, i) && ops[j].Applies?
    requires Accounts(ops[i].src.members) * Accounts(ops[j].src.members) != {}
    ensures Execute(hs[j].store.tables, hs[j].nextId, ops[j].src).stats.conflicts > 0
    ensures !Took(hs, ops, j) && hs[j + 1].store.tables == hs[j].store.tables
  {
    hide Execute;
    BroughtStays(hs, ops, i, j);
    RowsPresentIffApplied(hs, ops, j);
    HistoryIsConsistent(hs, ops, j);
    var x :| x in Accounts(ops[i].src.members) * Accounts(ops[j].src.members);
    var k :| 0 <= k < |ops[j].src.members| && ops[j].src.members[k].account == x;
    KnownAccountConflicts(hs[j].store.tables, hs[j].nextId, ops[j].src, k);
    if Took(hs, ops, j) {
      TookAdds(hs, ops, j);
    } else {
      NotTookLeaves(hs, ops, j);
    }
  }

  // ---------------------------------------------------- numbers that are used up

  /** One member without a password and one link. */
  function OneLink(): Source {
    Source([Member(1, "", "", "", "CCC")], [SocialLink(1, "KT", "x", "Y")])
  }

  lemma OneLinkIsMapped()
    ensures var l := OneLink().links[0]; MapProvider(l.gate) == Some(Kakao) && MapSocialStatus(l.status) == Some(Enabled) && IsKey(l.subject)
    ensures !IsHolder(OneLink().members[0])
  {
    assert TrimLeft("KT") == "KT" && TrimRight("KT") == "KT" && ToUpper("KT") == "KT";
    assert TrimLeft("Y") == "Y" && TrimRight("Y") == "Y" && ToUpper("Y") == "Y";
    assert TrimLeft("x") == "x" && TrimRight("x") == "x";
    assert TrimSpace("") == "";
  }

  /** A run that is rolled back, such as a dry run, of one link into empty tables reports no
      conflict and has used up a number. */
  lemma NumberIsUsedUp(nextId: nat)
    ensures Execute(EMPTY, nextId, OneLink()).stats.conflicts == 0
    ensures Execute(EMPTY, nextId, OneLink()).nextId == nextId + 1
  {
    hide Execute;
    OneLinkIsMapped();
    var src := OneLink();
    hide IsHolder;
    hide MapProvider;
    hide MapSocialStatus;
    hide IsKey;
    assert src.members[0].account == 1 && 1 in Accounts(src.members);
    assert Acceptable(src);
    ZeroConflictsFromEmpty(nextId, src);
    CleanIffAcceptable(src);
    CleanGivesImage(EMPTY, nextId, src);
    assert src.members[..0] == [] && Holders(src.members) == [];
  }

  // ------------------------------------------------------ from empty tables

  /** What a source must be like, in terms of the source alone: distinct accounts; password
      holders that are valid, readable and distinct in username and e-mail; valid links of
      known accounts, distinct in provider and subject. */
  predicate Acceptable(src: Source) {
    && (forall i, j :: 0 <= i < j < |src.members| ==> src.members[i].account != src.members[j].account)
    && (forall j :: 0 <= j < |src.members| && IsHolder(src.members[j]) ==> ValidHolder(src.members[j]))
    && (forall i, j :: 0 <= i < j < |src.members| && IsHolder(src.members[i]) && IsHolder(src.members[j]) ==>
          && Canon(src.members[i].username) != Canon(src.members[j].username)
          && (NormalizedEmail(src.members[i].email) == NormalizedEmail(src.members[j].email) ==> NormalizedEmail(src.members[i].email).None?))
    && (forall j :: 0 <= j < |src.links| ==> ValidLink(Accounts(src.members), src.links[j]))
    && (forall i, j :: 0 <= i < j < |src.links| ==>
          (MapProvider(src.links[i].gate), Canon(src.links[i].subject)) != (MapProvider(src.links[j].gate), Canon(src.links[j].subject)))
  }

  const EMPTY := NO_ROWS

  lemma EmailIsCanonical(raw: string)
    ensures NormalizedEmail(raw).Some? ==> Canon(NormalizedEmail(raw).value) == NormalizedEmail(raw).value
  {
    if NormalizedEmail(raw).Some? {
      EmailIsNormal(raw);
    }
  }

  lemma HolderOkEmpty(ms: seq<Member>, j: nat)
    requires j < |ms|
    ensures HolderOk(EMPTY, ms, j) <==>
      (IsHolder(ms[j]) ==>
         && ValidHolder(ms[j])
         && forall i :: 0 <= i < j && IsHolder(ms[i]) ==>
              && Canon(ms[i].username) != Canon(ms[j].username)
              && (NormalizedEmail(ms[i].email) == NormalizedEmail(ms[j].email) ==> NormalizedEmail(ms[i].email).None?))
  {
    hide NormalizedEmail;
    hide IsHolder;
    hide ValidHolder;
    hide Canon;
    forall i | 0 <= i < |ms| ensures NormalizedEmail(ms[i].email).Some? ==> Canon(NormalizedEmail(ms[i].email).value) == NormalizedEmail(ms[i].email).value {
      EmailIsCanonical(ms[i].email);
    }
  }

  lemma CleanIffAcceptable(src: Source)
    ensures CleanSource(EMPTY, src) <==> Acceptable(src)
  {
    hide NormalizedEmail;
    hide IsHolder;
    hide ValidHolder;
    hide ValidLink;
    hide MapProvider;
    hide Canon;
    hide Accounts;
    assert CleanAccounts(EMPTY, src.members) <==>
           forall i, j :: 0 <= i < j < |src.members| ==> src.members[i].account != src.members[j].account by {
      assert forall j :: 0 <= j < |src.members| ==>
        (AccountOk(EMPTY, src.members, j) <==> forall i :: 0 <= i < j ==> src.members[i].account != src.members[j].account);
    }
    assert CleanLinks(EMPTY, Accounts(src.members), src.links) <==>
           (forall j :: 0 <= j < |src.links| ==> ValidLink(Accounts(src.members), src.links[j]))
           && (forall i, j :: 0 <= i < j < |src.links| ==>
                 (MapProvider(src.links[i].gate), Canon(src.links[i].subject)) != (MapProvider(src.links[j].gate), Canon(src.links[j].subject))) by {
      LinksOkEmpty(src);
    }
    hide LinkOk;
    hide AccountOk;
    hide HolderOk;
    forall j | 0 <= j < |src.members|
      ensures HolderOk(EMPTY, src.members, j) <==>
        (IsHolder(src.members[j]) ==>
           && ValidHolder(src.members[j])
           && forall i :: 0 <= i < j && IsHolder(src.members[i]) ==>
                && Canon(src.members[i].username) != Canon(src.members[j].username)
                && (NormalizedEmail(src.members[i].email) == NormalizedEmail(src.members[j].email) ==> NormalizedEmail(src.members[i].email).None?))
    {
      HolderOkEmpty(src.members, j);
    }
  }

  lemma LinksOkEmpty(src: Source)
    ensures CleanLinks(EMPTY, Accounts(src.members), src.links) <==>
      (forall j :: 0 <= j < |src.links| ==> ValidLink(Accounts(src.members), src.links[j]))
      && (forall i, j :: 0 <= i < j < |src.links| ==>
            (MapProvider(src.links[i].gate), Canon(src.links[i].subject)) != (MapProvider(src.links[j].gate), Canon(src.links[j].subject)))
  {
    hide MapProvider;
    hide MapSocialStatus;
    hide IsKey;
    hide Canon;
    hide Accounts;
    var accounts := Accounts(src.members);
    assert forall j :: 0 <= j < |src.links| ==>
      (LinkOk(EMPTY, accounts, src.links, j) <==>
         ValidLink(accounts, src.links[j])
         && forall i :: 0 <= i < j ==>
              (MapProvider(src.links[i].gate), Canon(src.links[i].subject)) != (MapProvider(src.links[j].gate), Canon(src.links[j].subject)));
    hide LinkOk;
    hide ValidLink;
  }

  /** Starting from empty tables, the loops report zero conflicts exactly when the source is
      acceptable; then the tables are its direct image and the counters its sizes. */
  lemma ZeroConflictsFromEmpty(nextId: nat, src: Source)
    ensures Execute(EMPTY, nextId, src).stats.conflicts == 0 <==> Acceptable(src)
    ensures var h := |Holders(src.members)|;
            Acceptable(src) ==>
              && Execute(EMPTY, nextId, src).stats == Stats(|src.members|, |src.links|, |src.members|, h, h, |src.links|, 0)
              && IsImage(EMPTY, nextId, src, Execute(EMPTY, nextId, src).tables)
  {
    hide Execute;
    hide CleanSource;
    hide Acceptable;
    NoConflictIffClean(EMPTY, nextId, src);
    CleanIffAcceptable(src);
    if Acceptable(src) {
      CleanGivesImage(EMPTY, nextId, src);
    }
  }
}
