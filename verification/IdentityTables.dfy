/** The canonical identity tables under their unique keys (migration 041) and what the three
    insert-and-continue loops of backend/cmd/backfill/identity_backfill.go make of a source. */
module IdentityTables {
  import opened Wrappers
  import opened IdentityTransform

  datatype Identity = Identity(id: nat, account: int, provider: Provider, subject: string,
                               email: Option<string>, status: IdentityStatus, verified: bool)

  datatype Tables = Tables(states: map<int, AccountState>, identities: seq<Identity>, credentials: map<nat, string>)

  datatype Stats = Stats(members: nat, links: nat, states: nat, identities: nat, credentials: nat, social: nat, conflicts: nat)

  /** `nextId` is the identity counter: a refused insert uses a number up and a rollback does
      not give any back. */
  datatype Progress = Progress(tables: Tables, nextId: nat, stats: Stats)

  datatype Source = Source(members: seq<Member>, links: seq<SocialLink>)

  // ------------------------------------------------------------ unique keys

  /** ascii_bin compares with trailing blanks ignored. */
  function Canon(s: string): string {
    if s != [] && s[|s| - 1] == ' ' then Canon(s[..|s| - 1]) else s
  }

  function Subjects(ids: seq<Identity>): set<(Provider, string)> {
    set k | 0 <= k < |ids| :: (ids[k].provider, Canon(ids[k].subject))
  }

  function Emails(ids: seq<Identity>): set<string> {
    set k | 0 <= k < |ids| && ids[k].email.Some? :: Canon(ids[k].email.value)
  }

  function Ids(ids: seq<Identity>): set<nat> {
    set k | 0 <= k < |ids| :: ids[k].id
  }

  predicate EmailTaken(ids: seq<Identity>, email: Option<string>) {
    email.Some? && Canon(email.value) in Emails(ids)
  }

  predicate Duplicate(ids: seq<Identity>, provider: Provider, subject: string, email: Option<string>) {
    (provider, Canon(subject)) in Subjects(ids) || EmailTaken(ids, email)
  }

  /** What the keys of the schema guarantee of any stored tables. */
  predicate Consistent(t: Tables, nextId: nat) {
    && (forall k :: 0 <= k < |t.identities| ==> t.identities[k].id < nextId)
    && (forall j, k :: 0 <= j < k < |t.identities| ==> t.identities[j].id != t.identities[k].id)
    && (forall j, k :: 0 <= j < k < |t.identities| ==>
          (t.identities[j].provider, Canon(t.identities[j].subject)) != (t.identities[k].provider, Canon(t.identities[k].subject)))
    && (forall j, k :: 0 <= j < k < |t.identities| && t.identities[j].email.Some? && t.identities[k].email.Some? ==>
          Canon(t.identities[j].email.value) != Canon(t.identities[k].email.value))
    && t.credentials.Keys <= Ids(t.identities)
  }

  // ---------------------------------------------------------- the three steps

  function Conflict(p: Progress): Progress {
    p.(stats := p.stats.(conflicts := p.stats.conflicts + 1))
  }

  function AccountStep(p: Progress, m: Member): Progress {
    if m.account in p.tables.states then Conflict(p)
    else p.(tables := p.tables.(states := p.tables.states[m.account := MapAccountStatus(m.status)]),
            stats := p.stats.(states := p.stats.states + 1))
  }

  /** The members whose password moves: not withdrawn, and with something in the hash field. */
  predicate IsHolder(m: Member) {
    MapAccountStatus(m.status).status != Withdrawn && HasPassword(m.hash)
  }

  predicate ValidHolder(m: Member) {
    IsKey(m.username) && IsNativeHash(m.hash) && IsValidEmail(NormalizedEmail(m.email))
  }

  function PasswordRow(id: nat, m: Member): Identity {
    Identity(id, m.account, LocalUsername, m.username, NormalizedEmail(m.email), Enabled, true)
  }

  function PasswordStep(p: Progress, m: Member): Progress {
    if !IsHolder(m) then p
    else if !ValidHolder(m) then Conflict(p)
    else if Duplicate(p.tables.identities, LocalUsername, m.username, NormalizedEmail(m.email)) then
      Conflict(p).(nextId := p.nextId + 1)
    else
      var q := p.(tables := p.tables.(identities := p.tables.identities + [PasswordRow(p.nextId, m)]),
                  nextId := p.nextId + 1, stats := p.stats.(identities := p.stats.identities + 1));
      if p.nextId in q.tables.credentials then Conflict(q)
      else q.(tables := q.tables.(credentials := q.tables.credentials[p.nextId := m.hash]),
              stats := q.stats.(credentials := q.stats.credentials + 1))
  }

  predicate ValidLink(accounts: set<int>, l: SocialLink) {
    l.account in accounts && Mapped(l) && IsKey(l.subject)
  }

  predicate Mapped(l: SocialLink) {
    MapProvider(l.gate).Some? && MapSocialStatus(l.status).Some?
  }

  function LinkRow(id: nat, l: SocialLink): Identity
    requires Mapped(l)
  {
    Identity(id, l.account, MapProvider(l.gate).value, l.subject, None, MapSocialStatus(l.status).value, false)
  }

  function LinkStep(accounts: set<int>, p: Progress, l: SocialLink): Progress {
    if !ValidLink(accounts, l) then Conflict(p)
    else if Duplicate(p.tables.identities, MapProvider(l.gate).value, l.subject, None) then Conflict(p).(nextId := p.nextId + 1)
    else p.(tables := p.tables.(identities := p.tables.identities + [LinkRow(p.nextId, l)]),
            nextId := p.nextId + 1, stats := p.stats.(social := p.stats.social + 1))
  }

  function AfterAccounts(p: Progress, ms: seq<Member>): Progress {
    if ms == [] then p else AccountStep(AfterAccounts(p, ms[..|ms| - 1]), ms[|ms| - 1])
  }

  function AfterPasswords(p: Progress, ms: seq<Member>): Progress {
    if ms == [] then p else PasswordStep(AfterPasswords(p, ms[..|ms| - 1]), ms[|ms| - 1])
  }

  function AfterLinks(accounts: set<int>, p: Progress, ls: seq<SocialLink>): Progress {
    if ls == [] then p else LinkStep(accounts, AfterLinks(accounts, p, ls[..|ls| - 1]), ls[|ls| - 1])
  }

  function Accounts(ms: seq<Member>): set<int> {
    set k | 0 <= k < |ms| :: ms[k].account
  }

  function Start(t: Tables, nextId: nat, src: Source): Progress {
    Progress(t, nextId, Stats(|src.members|, |src.links|, 0, 0, 0, 0, 0))
  }

  function Execute(t: Tables, nextId: nat, src: Source): Progress {
    AfterLinks(Accounts(src.members), AfterPasswords(AfterAccounts(Start(t, nextId, src), src.members), src.members), src.links)
  }

  // --------------------------------------- what makes a source free of conflicts

  predicate AccountOk(t: Tables, ms: seq<Member>, j: nat)
    requires j < |ms|
  {
    ms[j].account !in t.states && forall i :: 0 <= i < j ==> ms[i].account != ms[j].account
  }

  predicate HolderOk(t: Tables, ms: seq<Member>, j: nat)
    requires j < |ms|
  {
    IsHolder(ms[j]) ==>
      && ValidHolder(ms[j])
      && !Duplicate(t.identities, LocalUsername, ms[j].username, NormalizedEmail(ms[j].email))
      && forall i :: 0 <= i < j && IsHolder(ms[i]) ==>
           && Canon(ms[i].username) != Canon(ms[j].username)
           && (NormalizedEmail(ms[i].email).Some? && NormalizedEmail(ms[j].email).Some? ==>
                 Canon(NormalizedEmail(ms[i].email).value) != Canon(NormalizedEmail(ms[j].email).value))
  }

  predicate LinkOk(t: Tables, accounts: set<int>, ls: seq<SocialLink>, j: nat)
    requires j < |ls|
  {
    && ValidLink(accounts, ls[j])
    && (MapProvider(ls[j].gate).value, Canon(ls[j].subject)) !in Subjects(t.identities)
    && forall i :: 0 <= i < j ==> (MapProvider(ls[i].gate), Canon(ls[i].subject)) != (MapProvider(ls[j].gate), Canon(ls[j].subject))
  }

  predicate CleanAccounts(t: Tables, ms: seq<Member>) {
    forall j :: 0 <= j < |ms| ==> AccountOk(t, ms, j)
  }

  predicate CleanHolders(t: Tables, ms: seq<Member>) {
    forall j :: 0 <= j < |ms| ==> HolderOk(t, ms, j)
  }

  predicate CleanLinks(t: Tables, accounts: set<int>, ls: seq<SocialLink>) {
    forall j :: 0 <= j < |ls| ==> LinkOk(t, accounts, ls, j)
  }

  /** Distinct new accounts; valid, distinct usernames and e-mails among the password holders;
      valid, distinct links of known accounts; and none of it in the tables yet. */
  predicate CleanSource(t: Tables, src: Source) {
    CleanAccounts(t, src.members) && CleanHolders(t, src.members) && CleanLinks(t, Accounts(src.members), src.links)
  }

  function Holders(ms: seq<Member>): seq<Member> {
    if ms == [] then []
    else Holders(ms[..|ms| - 1]) + (if IsHolder(ms[|ms| - 1]) then [ms[|ms| - 1]] else [])
  }

  // -------------------------------------------------------- counters add up

  /** The rows of the first step are counted once each: created or in conflict. */
  lemma {:induction false} AccountsCounted(p: Progress, ms: seq<Member>)
    ensures var s, s' := p.stats, AfterAccounts(p, ms).stats;
            && s'.states + s'.conflicts == s.states + s.conflicts + |ms| && s.conflicts <= s'.conflicts
            && s' == s.(states := s'.states, conflicts := s'.conflicts)
    ensures AfterAccounts(p, ms).tables == p.tables.(states := AfterAccounts(p, ms).tables.states) && AfterAccounts(p, ms).nextId == p.nextId
    ensures AfterAccounts(p, ms).tables.states.Keys == p.tables.states.Keys + Accounts(ms)
    ensures |AfterAccounts(p, ms).tables.states| == |p.tables.states| + (AfterAccounts(p, ms).stats.states - p.stats.states)
    ensures forall a :: a in p.tables.states ==> AfterAccounts(p, ms).tables.states[a] == p.tables.states[a]
    decreases |ms|
  {
    if ms != [] {
      AccountsCounted(p, ms[..|ms| - 1]);
      AccountsOf(ms);
    }
  }

  lemma AccountsOf(ms: seq<Member>)
    requires ms != []
    ensures Accounts(ms) == Accounts(ms[..|ms| - 1]) + {ms[|ms| - 1].account}
  {
    var front := ms[..|ms| - 1];
    forall a | a in Accounts(ms) ensures a in Accounts(front) + {ms[|ms| - 1].account} {
      var k :| 0 <= k < |ms| && ms[k].account == a;
      if k < |ms| - 1 { assert front[k] == ms[k]; }
    }
    forall a | a in Accounts(front) ensures a in Accounts(ms) {
      var k :| 0 <= k < |front| && front[k].account == a;
      assert ms[k] == front[k];
    }
  }

  /** A number not used yet has no credential. */
  lemma FreshHasNoCredential(t: Tables, nextId: nat)
    requires Consistent(t, nextId)
    ensures nextId !in t.credentials && nextId !in Ids(t.identities)
  {
  }

  lemma SubjectsAppend(ids: seq<Identity>, x: Identity)
    ensures Subjects(ids + [x]) == Subjects(ids) + {(x.provider, Canon(x.subject))}
    ensures Emails(ids + [x]) == Emails(ids) + (if x.email.Some? then {Canon(x.email.value)} else {})
    ensures Ids(ids + [x]) == Ids(ids) + {x.id}
  {
    var more := ids + [x];
    forall k | 0 <= k < |ids|
      ensures (ids[k].provider, Canon(ids[k].subject)) in Subjects(more)
      ensures ids[k].email.Some? ==> Canon(ids[k].email.value) in Emails(more)
      ensures ids[k].id in Ids(more)
    {
      assert more[k] == ids[k];
    }
    assert more[|ids|] == x;
  }

  lemma AppendKeepsConsistent(t: Tables, nextId: nat, x: Identity)
    requires Consistent(t, nextId) && x.id == nextId && !Duplicate(t.identities, x.provider, x.subject, x.email)
    ensures Consistent(t.(identities := t.identities + [x]), nextId + 1)
    ensures nextId !in t.credentials
  {
    SubjectsAppend(t.identities, x);
  }

  /** Identities and credentials grew by the same number of rows, the one counted for both. */
  predicate Grown(p: Progress, q: Progress) {
    && q.stats == p.stats.(identities := q.stats.identities, credentials := q.stats.credentials, conflicts := q.stats.conflicts)
    && q.tables.states == p.tables.states && p.tables.identities <= q.tables.identities
    && |q.tables.identities| - |p.tables.identities| == q.stats.identities - p.stats.identities
    && |q.tables.credentials| - |p.tables.credentials| == q.stats.credentials - p.stats.credentials
    && q.stats.identities - p.stats.identities == q.stats.credentials - p.stats.credentials
  }

  /** A step on consistent tables keeps them so, and the credential insert never finds its
      row taken: one credential comes with every password identity. */
  lemma PasswordStepKeeps(p: Progress, m: Member)
    requires Consistent(p.tables, p.nextId)
    ensures var q := PasswordStep(p, m);
            && Consistent(q.tables, q.nextId) && p.nextId <= q.nextId
            && q.stats.identities + q.stats.conflicts == p.stats.identities + p.stats.conflicts + (if IsHolder(m) then 1 else 0)
            && p.stats.conflicts <= q.stats.conflicts
            && Grown(p, q)
  {
    if IsHolder(m) && ValidHolder(m) && !Duplicate(p.tables.identities, LocalUsername, m.username, NormalizedEmail(m.email)) {
      var x := PasswordRow(p.nextId, m);
      AppendKeepsConsistent(p.tables, p.nextId, x);
      SubjectsAppend(p.tables.identities, x);
    }
  }

  lemma {:induction false} PasswordsCounted(p: Progress, ms: seq<Member>)
    requires Consistent(p.tables, p.nextId)
    ensures var s, s' := p.stats, AfterPasswords(p, ms).stats;
            s'.identities + s'.conflicts == s.identities + s.conflicts + |Holders(ms)| && s.conflicts <= s'.conflicts
    ensures var q := AfterPasswords(p, ms);
            Consistent(q.tables, q.nextId) && p.nextId <= q.nextId && Grown(p, q)
    decreases |ms|
  {
    hide PasswordStep;
    hide Consistent;
    hide IsHolder;
    if ms != [] {
      PasswordsCounted(p, ms[..|ms| - 1]);
      PasswordStepKeeps(AfterPasswords(p, ms[..|ms| - 1]), ms[|ms| - 1]);
    }
  }

  predicate GrownByLinks(p: Progress, q: Progress) {
    && q.stats == p.stats.(social := q.stats.social, conflicts := q.stats.conflicts)
    && q.tables.states == p.tables.states && q.tables.credentials == p.tables.credentials
    && p.tables.identities <= q.tables.identities
    && |q.tables.identities| - |p.tables.identities| == q.stats.social - p.stats.social
  }

  lemma LinkStepKeeps(accounts: set<int>, p: Progress, l: SocialLink)
    requires Consistent(p.tables, p.nextId)
    ensures var q := LinkStep(accounts, p, l);
            && Consistent(q.tables, q.nextId) && p.nextId <= q.nextId
            && q.stats.social + q.stats.conflicts == p.stats.social + p.stats.conflicts + 1 && p.stats.conflicts <= q.stats.conflicts
            && GrownByLinks(p, q)
  {
    if ValidLink(accounts, l) && !Duplicate(p.tables.identities, MapProvider(l.gate).value, l.subject, None) {
      AppendKeepsConsistent(p.tables, p.nextId, LinkRow(p.nextId, l));
    }
  }

  lemma {:induction false} LinksCounted(accounts: set<int>, p: Progress, ls: seq<SocialLink>)
    requires Consistent(p.tables, p.nextId)
    ensures var s, s' := p.stats, AfterLinks(accounts, p, ls).stats;
            s'.social + s'.conflicts == s.social + s.conflicts + |ls| && s.conflicts <= s'.conflicts
    ensures var q := AfterLinks(accounts, p, ls);
            Consistent(q.tables, q.nextId) && p.nextId <= q.nextId && GrownByLinks(p, q)
    decreases |ls|
  {
    hide LinkStep;
    hide Consistent;
    if ls != [] {
      LinksCounted(accounts, p, ls[..|ls| - 1]);
      LinkStepKeeps(accounts, AfterLinks(accounts, p, ls[..|ls| - 1]), ls[|ls| - 1]);
    }
  }

  /** Every scanned row is accounted for, whatever the source and the tables: a member row is
      an account state or a conflict, a password holder an identity with its credential or a
      conflict, a link an identity or a conflict; and the tables grew by just those rows. */
  lemma CountersAddUp(t: Tables, nextId: nat, src: Source)
    requires Consistent(t, nextId)
    ensures var q := Execute(t, nextId, src);
            && q.stats.members == |src.members| && q.stats.links == |src.links|
            && q.stats.states + q.stats.identities + q.stats.social + q.stats.conflicts
               == |src.members| + |Holders(src.members)| + |src.links|
            && q.stats.credentials == q.stats.identities
            && |q.tables.states| == |t.states| + q.stats.states
            && |q.tables.identities| == |t.identities| + q.stats.identities + q.stats.social
            && |q.tables.credentials| == |t.credentials| + q.stats.credentials
            && t.identities <= q.tables.identities
            && Consistent(q.tables, q.nextId) && nextId <= q.nextId
  {
    var p0 := Start(t, nextId, src);
    var p1 := AfterAccounts(p0, src.members);
    AccountsCounted(p0, src.members);
    PasswordsCounted(p1, src.members);
    LinksCounted(Accounts(src.members), AfterPasswords(p1, src.members), src.links);
  }

  // ------------------------------------------- zero conflicts, exactly when

  lemma CleanAccountsFront(t: Tables, ms: seq<Member>)
    requires ms != []
    ensures var front := ms[..|ms| - 1];
            CleanAccounts(t, ms) <==> CleanAccounts(t, front) && ms[|ms| - 1].account !in t.states.Keys + Accounts(front)
  {
    var front := ms[..|ms| - 1];
    assert forall j :: 0 <= j < |front| ==> AccountOk(t, ms, j) == AccountOk(t, front, j);
    assert AccountOk(t, ms, |front|) <==> ms[|ms| - 1].account !in t.states.Keys + Accounts(front) by {
      assert forall i :: 0 <= i < |front| ==> front[i] == ms[i];
    }
    hide AccountOk;
  }

  lemma {:induction false} AccountsClean(p: Progress, ms: seq<Member>)
    ensures AfterAccounts(p, ms).stats.conflicts == p.stats.conflicts <==> CleanAccounts(p.tables, ms)
    decreases |ms|
  {
    if ms != [] {
      AccountsClean(p, ms[..|ms| - 1]);
      AccountsCounted(p, ms[..|ms| - 1]);
      CleanAccountsFront(p.tables, ms);
    }
  }

  function HolderSubjects(ms: seq<Member>): set<(Provider, string)> {
    set i | 0 <= i < |ms| && IsHolder(ms[i]) :: (LocalUsername, Canon(ms[i].username))
  }

  function HolderEmails(ms: seq<Member>): set<string> {
    set i | 0 <= i < |ms| && IsHolder(ms[i]) && NormalizedEmail(ms[i].email).Some? :: Canon(NormalizedEmail(ms[i].email).value)
  }

  lemma HolderKeysOf(ms: seq<Member>)
    requires ms != []
    ensures var front, m := ms[..|ms| - 1], ms[|ms| - 1];
            && HolderSubjects(ms) == HolderSubjects(front) + (if IsHolder(m) then {(LocalUsername, Canon(m.username))} else {})
            && HolderEmails(ms) == HolderEmails(front)
                 + (if IsHolder(m) && NormalizedEmail(m.email).Some? then {Canon(NormalizedEmail(m.email).value)} else {})
  {
    var front := ms[..|ms| - 1];
    assert forall i :: 0 <= i < |front| ==> front[i] == ms[i];
    assert ms == front + [ms[|ms| - 1]];
  }

  lemma HolderOkLast(t: Tables, ms: seq<Member>)
    requires ms != []
    ensures var front, m := ms[..|ms| - 1], ms[|ms| - 1];
            HolderOk(t, ms, |ms| - 1) <==>
              (IsHolder(m) ==>
                 && ValidHolder(m)
                 && (LocalUsername, Canon(m.username)) !in Subjects(t.identities) + HolderSubjects(front)
                 && (NormalizedEmail(m.email).Some? ==> Canon(NormalizedEmail(m.email).value) !in Emails(t.identities) + HolderEmails(front)))
  {
    var front := ms[..|ms| - 1];
    assert forall i :: 0 <= i < |front| ==> front[i] == ms[i];
  }

  lemma CleanHoldersFront(t: Tables, ms: seq<Member>)
    requires ms != []
    ensures CleanHolders(t, ms) <==> CleanHolders(t, ms[..|ms| - 1]) && HolderOk(t, ms, |ms| - 1)
  {
    hide IsHolder;
    hide ValidHolder;
    hide Duplicate;
    hide NormalizedEmail;
    hide Canon;
    var front := ms[..|ms| - 1];
    assert forall i :: 0 <= i < |front| ==> front[i] == ms[i];
    assert forall j :: 0 <= j < |front| ==> HolderOk(t, ms, j) == HolderOk(t, front, j);
    hide HolderOk;
  }

  function PasswordImage(nextId: nat, ms: seq<Member>): seq<Identity> {
    var holders := Holders(ms);
    seq(|holders|, k requires 0 <= k < |holders| => PasswordRow(nextId + k, holders[k]))
  }

  /** The keys taken after a prefix without conflicts. */
  predicate KeysAfter(p: Progress, q: Progress, ms: seq<Member>) {
    && Subjects(q.tables.identities) == Subjects(p.tables.identities) + HolderSubjects(ms)
    && Emails(q.tables.identities) == Emails(p.tables.identities) + HolderEmails(ms)
  }

  lemma PasswordStepClean(p: Progress, q: Progress, front: seq<Member>, m: Member)
    requires Consistent(q.tables, q.nextId) && KeysAfter(p, q, front)
    ensures PasswordStep(q, m).stats.conflicts == q.stats.conflicts <==> HolderOk(p.tables, front + [m], |front|)
    ensures HolderOk(p.tables, front + [m], |front|) ==> KeysAfter(p, PasswordStep(q, m), front + [m])
  {
    var ms := front + [m];
    hide Consistent;
    hide HolderOk;
    hide HolderSubjects;
    hide HolderEmails;
    hide Subjects;
    hide Emails;
    hide IsHolder;
    hide ValidHolder;
    hide NormalizedEmail;
    hide Canon;
    hide Ids;
    assert ms[..|ms| - 1] == front;
    HolderOkLast(p.tables, ms);
    HolderKeysOf(ms);
    FreshHasNoCredential(q.tables, q.nextId);
    SubjectsAppend(q.tables.identities, PasswordRow(q.nextId, m));
  }

  lemma {:induction false} PasswordsClean(p: Progress, ms: seq<Member>)
    requires Consistent(p.tables, p.nextId)
    ensures AfterPasswords(p, ms).stats.conflicts == p.stats.conflicts <==> CleanHolders(p.tables, ms)
    ensures CleanHolders(p.tables, ms) ==> KeysAfter(p, AfterPasswords(p, ms), ms)
    decreases |ms|
  {
    hide PasswordStep;
    hide Consistent;
    hide IsHolder;
    hide HolderOk;
    hide CleanHolders;
    PasswordsCleanStart(p);
    if ms != [] {
      var front, m := ms[..|ms| - 1], ms[|ms| - 1];
      assert ms == front + [m];
      PasswordsClean(p, front);
      PasswordsCounted(p, front);
      PasswordStepKeeps(AfterPasswords(p, front), m);
      CleanHoldersFront(p.tables, ms);
      if CleanHolders(p.tables, front) {
        PasswordStepClean(p, AfterPasswords(p, front), front, m);
      }
    }
  }

  lemma PasswordsCleanStart(p: Progress)
    ensures CleanHolders(p.tables, []) && KeysAfter(p, p, [])
  {
    assert HolderSubjects([]) == {} && HolderEmails([]) == {};
  }

  /** The credentials that were there, and one with its hash for each password holder. */
  predicate CredentialsOf(was: map<nat, string>, nextId: nat, holders: seq<Member>, all: map<nat, string>) {
    && (forall i :: i in all ==> i in was || nextId <= i < nextId + |holders|)
    && (forall i :: i in was ==> i in all && all[i] == was[i])
    && (forall k :: nextId <= k < nextId + |holders| ==> k in all && all[k] == holders[k - nextId].hash)
  }

  lemma PasswordImageStep(q: Progress, m: Member)
    requires Consistent(q.tables, q.nextId) && IsHolder(m) && PasswordStep(q, m).stats.conflicts == q.stats.conflicts
    ensures PasswordStep(q, m).tables.identities == q.tables.identities + [PasswordRow(q.nextId, m)]
    ensures PasswordStep(q, m).tables.credentials == q.tables.credentials[q.nextId := m.hash]
    ensures PasswordStep(q, m).nextId == q.nextId + 1
  {
  }

  lemma PasswordImageOf(nextId: nat, front: seq<Member>, m: Member)
    ensures var h := Holders(front + [m]);
            var image := PasswordImage(nextId, front + [m]);
            if IsHolder(m) then h == Holders(front) + [m] && image == PasswordImage(nextId, front) + [PasswordRow(nextId + |Holders(front)|, m)]
            else h == Holders(front) && image == PasswordImage(nextId, front)
  {
    hide IsHolder;
    hide PasswordRow;
    assert (front + [m])[..|front + [m]| - 1] == front;
    assert Holders(front) + [] == Holders(front);
  }

  predicate IsAppended(was: seq<Identity>, more: seq<Identity>, all: seq<Identity>) {
    all == was + more
  }

  lemma AppendOneMore(was: seq<Identity>, more: seq<Identity>, all: seq<Identity>, x: Identity)
    requires IsAppended(was, more, all)
    ensures IsAppended(was, more + [x], all + [x])
  {
  }

  lemma NothingAppended(p: Progress)
    ensures Holders([]) == []
    ensures IsAppended(p.tables.identities, PasswordImage(p.nextId, []), p.tables.identities)
    ensures AllMapped([]) && IsAppended(p.tables.identities, LinkImage(p.nextId, []), p.tables.identities)
    ensures CredentialsOf(p.tables.credentials, p.nextId, Holders([]), p.tables.credentials)
  {
  }

  /** Without conflicts the password rows are the direct image of the holders, in order. */
  lemma {:induction false} PasswordsAreImage(p: Progress, ms: seq<Member>)
    requires Consistent(p.tables, p.nextId) && CleanHolders(p.tables, ms)
    ensures var q := AfterPasswords(p, ms);
            && q.nextId == p.nextId + |Holders(ms)|
            && IsAppended(p.tables.identities, PasswordImage(p.nextId, ms), q.tables.identities)
            && CredentialsOf(p.tables.credentials, p.nextId, Holders(ms), q.tables.credentials)
    decreases |ms|
  {
    hide PasswordStep;
    hide IsHolder;
    hide HolderOk;
    hide CleanHolders;
    hide Consistent;
    hide PasswordImage;
    hide IsAppended;
    hide CredentialsOf;
    hide KeysAfter;
    hide Holders;
    NothingAppended(p);
    if ms != [] {
      var front, m := ms[..|ms| - 1], ms[|ms| - 1];
      assert ms == front + [m];
      CleanHoldersFront(p.tables, ms);
      PasswordsAreImage(p, front);
      PasswordsClean(p, front);
      PasswordsCounted(p, front);
      var q := AfterPasswords(p, front);
      PasswordStepClean(p, q, front, m);
      PasswordImageOf(p.nextId, front, m);
      PasswordStepOther(q, m);
      if IsHolder(m) {
        PasswordImageStep(q, m);
        NewCredential(p, q, front, m);
        AppendOneMore(p.tables.identities, PasswordImage(p.nextId, front), q.tables.identities, PasswordRow(q.nextId, m));
      }
    }
  }

  lemma PasswordStepOther(q: Progress, m: Member)
    ensures !IsHolder(m) ==> PasswordStep(q, m) == q
  {
  }

  lemma NewCredential(p: Progress, q: Progress, front: seq<Member>, m: Member)
    requires Consistent(p.tables, p.nextId) && Consistent(q.tables, q.nextId) && q.nextId == p.nextId + |Holders(front)|
    requires CredentialsOf(p.tables.credentials, p.nextId, Holders(front), q.tables.credentials)
    ensures CredentialsOf(p.tables.credentials, p.nextId, Holders(front) + [m], q.tables.credentials[q.nextId := m.hash])
  {
    hide Holders;
    FreshHasNoCredential(q.tables, q.nextId);
  }

  function LinkSubjects(ls: seq<SocialLink>): set<(Provider, string)> {
    set i | 0 <= i < |ls| && MapProvider(ls[i].gate).Some? :: (MapProvider(ls[i].gate).value, Canon(ls[i].subject))
  }

  lemma CleanLinksFront(t: Tables, accounts: set<int>, ls: seq<SocialLink>)
    requires ls != []
    ensures CleanLinks(t, accounts, ls) <==> CleanLinks(t, accounts, ls[..|ls| - 1]) && LinkOk(t, accounts, ls, |ls| - 1)
    ensures var front, l := ls[..|ls| - 1], ls[|ls| - 1];
            && (LinkOk(t, accounts, ls, |ls| - 1) <==>
                  ValidLink(accounts, l) && (MapProvider(l.gate).value, Canon(l.subject)) !in Subjects(t.identities) + LinkSubjects(front))
            && (MapProvider(l.gate).Some? ==> LinkSubjects(ls) == LinkSubjects(front) + {(MapProvider(l.gate).value, Canon(l.subject))})
  {
    var front := ls[..|ls| - 1];
    assert forall i :: 0 <= i < |front| ==> front[i] == ls[i];
    assert forall j :: 0 <= j < |front| ==> LinkOk(t, accounts, ls, j) == LinkOk(t, accounts, front, j);
    assert ls == front + [ls[|ls| - 1]];
  }

  function LinkImage(nextId: nat, ls: seq<SocialLink>): seq<Identity>
    requires AllMapped(ls)
  {
    seq(|ls|, k requires 0 <= k < |ls| => LinkRow(nextId + k, ls[k]))
  }

  predicate AllMapped(ls: seq<SocialLink>) {
    forall k :: 0 <= k < |ls| ==> Mapped(ls[k])
  }

  lemma LinkImageOf(nextId: nat, ls: seq<SocialLink>)
    requires ls != [] && AllMapped(ls[..|ls| - 1]) && Mapped(ls[|ls| - 1])
    ensures AllMapped(ls)
    ensures LinkImage(nextId, ls) == LinkImage(nextId, ls[..|ls| - 1]) + [LinkRow(nextId + (|ls| - 1), ls[|ls| - 1])]
  {
    hide Mapped;
    var front := ls[..|ls| - 1];
    assert ls == front + [ls[|ls| - 1]];
  }

  lemma LinkStepClean(accounts: set<int>, t: Tables, q: Progress, ls: seq<SocialLink>)
    requires ls != [] && Subjects(q.tables.identities) == Subjects(t.identities) + LinkSubjects(ls[..|ls| - 1])
    ensures var l := ls[|ls| - 1]; var q' := LinkStep(accounts, q, l);
            && (q'.stats.conflicts == q.stats.conflicts <==> LinkOk(t, accounts, ls, |ls| - 1))
            && (LinkOk(t, accounts, ls, |ls| - 1) ==>
                  && Subjects(q'.tables.identities) == Subjects(t.identities) + LinkSubjects(ls)
                  && Mapped(l) && q'.nextId == q.nextId + 1 && q'.tables.identities == q.tables.identities + [LinkRow(q.nextId, l)])
  {
    CleanLinksFront(t, accounts, ls);
    if Mapped(ls[|ls| - 1]) {
      SubjectsAppend(q.tables.identities, LinkRow(q.nextId, ls[|ls| - 1]));
    }
  }

  lemma {:induction false} LinksClean(accounts: set<int>, p: Progress, ls: seq<SocialLink>)
    requires Consistent(p.tables, p.nextId)
    ensures AfterLinks(accounts, p, ls).stats.conflicts == p.stats.conflicts <==> CleanLinks(p.tables, accounts, ls)
    ensures CleanLinks(p.tables, accounts, ls) ==>
              Subjects(AfterLinks(accounts, p, ls).tables.identities) == Subjects(p.tables.identities) + LinkSubjects(ls)
    decreases |ls|
  {
    hide LinkStep;
    hide LinkOk;
    hide Consistent;
    hide Subjects;
    if ls == [] {
      assert LinkSubjects(ls) == {};
    } else {
      hide LinkSubjects;
      var front, l := ls[..|ls| - 1], ls[|ls| - 1];
      LinksClean(accounts, p, front);
      LinksCounted(accounts, p, front);
      CleanLinksFront(p.tables, accounts, ls);
      hide CleanLinks;
      var q := AfterLinks(accounts, p, front);
      LinkStepKeeps(accounts, q, l);
      if CleanLinks(p.tables, accounts, front) {
        LinkStepClean(accounts, p.tables, q, ls);
      }
    }
  }

  /** Without conflicts the link rows are the direct image of the links, in order. */
  lemma {:induction false} LinksAreImage(accounts: set<int>, p: Progress, ls: seq<SocialLink>)
    requires Consistent(p.tables, p.nextId) && CleanLinks(p.tables, accounts, ls)
    ensures AllMapped(ls)
    ensures var q := AfterLinks(accounts, p, ls);
            q.nextId == p.nextId + |ls| && IsAppended(p.tables.identities, LinkImage(p.nextId, ls), q.tables.identities)
    decreases |ls|
  {
    hide LinkStep;
    hide LinkOk;
    hide Consistent;
    hide Subjects;
    hide CleanLinks;
    hide IsAppended;
    hide LinkImage;
    hide LinkRow;
    hide Mapped;
    hide AllMapped;
    hide LinkSubjects;
    NothingAppended(p);
    if ls != [] {
      var front, l := ls[..|ls| - 1], ls[|ls| - 1];
      CleanLinksFront(p.tables, accounts, ls);
      LinksAreImage(accounts, p, front);
      LinksClean(accounts, p, front);
      var q := AfterLinks(accounts, p, front);
      LinkStepClean(accounts, p.tables, q, ls);
      LinkImageOf(p.nextId, ls);
      AppendOneMore(p.tables.identities, LinkImage(p.nextId, front), q.tables.identities, LinkRow(q.nextId, l));
    }
  }

  predicate StatesOf(was: map<int, AccountState>, ms: seq<Member>, all: map<int, AccountState>) {
    && all.Keys == was.Keys + Accounts(ms)
    && (forall a :: a in was ==> a in all && all[a] == was[a])
    && (forall k :: 0 <= k < |ms| ==> ms[k].account in all && all[ms[k].account] == MapAccountStatus(ms[k].status))
  }

  /** The rows a run leaves: those that were there and the direct image of the source. */
  predicate IsImage(t: Tables, nextId: nat, src: Source, t': Tables) {
    && StatesOf(t.states, src.members, t'.states)
    && CredentialsOf(t.credentials, nextId, Holders(src.members), t'.credentials)
    && AllMapped(src.links)
    && t'.identities == t.identities + PasswordImage(nextId, src.members) + LinkImage(nextId + |Holders(src.members)|, src.links)
  }

  lemma {:induction false} StatesAreImage(p: Progress, ms: seq<Member>)
    requires CleanAccounts(p.tables, ms)
    ensures StatesOf(p.tables.states, ms, AfterAccounts(p, ms).tables.states)
    decreases |ms|
  {
    hide MapAccountStatus;
    hide CleanAccounts;
    if ms != [] {
      var front, m := ms[..|ms| - 1], ms[|ms| - 1];
      assert ms == front + [m];
      CleanAccountsFront(p.tables, ms);
      StatesAreImage(p, front);
      StatesOfStep(p.tables.states, front, m, AfterAccounts(p, front).tables.states);
    }
  }

  lemma StatesOfStep(was: map<int, AccountState>, front: seq<Member>, m: Member, all: map<int, AccountState>)
    requires StatesOf(was, front, all) && m.account !in was.Keys + Accounts(front)
    ensures StatesOf(was, front + [m], all[m.account := MapAccountStatus(m.status)])
  {
    hide MapAccountStatus;
    var ms := front + [m];
    assert ms[..|ms| - 1] == front;
    AccountsOf(ms);
    assert forall k :: 0 <= k < |front| ==> ms[k] == front[k] && front[k].account in Accounts(front);
  }

  /** The password rows do not get in the way of the links: their provider is another one. */
  lemma LinkOkAfterPasswords(p: Progress, ms: seq<Member>, accounts: set<int>, ls: seq<SocialLink>)
    requires Consistent(p.tables, p.nextId) && CleanHolders(p.tables, ms)
    ensures CleanLinks(AfterPasswords(p, ms).tables, accounts, ls) <==> CleanLinks(p.tables, accounts, ls)
  {
    PasswordsClean(p, ms);
    var q := AfterPasswords(p, ms);
    forall j | 0 <= j < |ls| ensures LinkOk(q.tables, accounts, ls, j) <==> LinkOk(p.tables, accounts, ls, j) {
      assert MapProvider(ls[j].gate) != Some(LocalUsername);
    }
  }

  /** Over any tables, a run reports no conflict exactly when the source is clean. */
  lemma NoConflictIffClean(t: Tables, nextId: nat, src: Source)
    requires Consistent(t, nextId)
    ensures Execute(t, nextId, src).stats.conflicts == 0 <==> CleanSource(t, src)
  {
    hide Consistent;
    hide CleanAccounts;
    hide CleanHolders;
    hide CleanLinks;
    hide AfterAccounts;
    hide AfterPasswords;
    hide AfterLinks;
    hide Accounts;
    FirstStep(t, nextId, src);
    var p1 := AfterAccounts(Start(t, nextId, src), src.members);
    var p2 := AfterPasswords(p1, src.members);
    PasswordsCounted(p1, src.members);
    PasswordsClean(p1, src.members);
    LinksCounted(Accounts(src.members), p2, src.links);
    LinksClean(Accounts(src.members), p2, src.links);
    if CleanHolders(p1.tables, src.members) {
      LinkOkAfterPasswords(p1, src.members, Accounts(src.members), src.links);
    }
  }

  lemma HoldersOfSame(t: Tables, t': Tables, ms: seq<Member>)
    requires t.identities == t'.identities
    ensures CleanHolders(t, ms) <==> CleanHolders(t', ms)
  {
    assert forall j :: 0 <= j < |ms| ==> HolderOk(t, ms, j) == HolderOk(t', ms, j);
  }

  lemma LinksOfSame(t: Tables, t': Tables, accounts: set<int>, ls: seq<SocialLink>)
    requires t.identities == t'.identities
    ensures CleanLinks(t, accounts, ls) <==> CleanLinks(t', accounts, ls)
  {
    assert forall j :: 0 <= j < |ls| ==> LinkOk(t, accounts, ls, j) == LinkOk(t', accounts, ls, j);
  }

  lemma FirstStep(t: Tables, nextId: nat, src: Source)
    requires Consistent(t, nextId)
    ensures var p := AfterAccounts(Start(t, nextId, src), src.members);
            && Consistent(p.tables, p.nextId) && p.nextId == nextId
            && p.tables.identities == t.identities && p.tables.credentials == t.credentials
            && (CleanHolders(p.tables, src.members) <==> CleanHolders(t, src.members))
            && (CleanLinks(p.tables, Accounts(src.members), src.links) <==> CleanLinks(t, Accounts(src.members), src.links))
            && p.stats.states + p.stats.conflicts == |src.members| && p.stats == Start(t, nextId, src).stats.(states := p.stats.states, conflicts := p.stats.conflicts)
            && (p.stats.conflicts == 0 <==> CleanAccounts(t, src.members))
  {
    var p0 := Start(t, nextId, src);
    AccountsCounted(p0, src.members);
    AccountsClean(p0, src.members);
    hide HolderOk;
    hide LinkOk;
    hide CleanAccounts;
    var p := AfterAccounts(p0, src.members);
    HoldersOfSame(t, p.tables, src.members);
    LinksOfSame(t, p.tables, Accounts(src.members), src.links);
  }

  lemma CleanStats(t: Tables, nextId: nat, src: Source)
    requires Consistent(t, nextId) && CleanSource(t, src)
    ensures var h := |Holders(src.members)|;
            Execute(t, nextId, src).stats == Stats(|src.members|, |src.links|, |src.members|, h, h, |src.links|, 0)
  {
    hide Consistent;
    hide CleanSource;
    hide AfterAccounts;
    hide AfterPasswords;
    hide AfterLinks;
    hide Holders;
    hide CleanHolders;
    hide CleanLinks;
    hide CleanAccounts;
    NoConflictIffClean(t, nextId, src);
    FirstStep(t, nextId, src);
    var p1 := AfterAccounts(Start(t, nextId, src), src.members);
    PasswordsCounted(p1, src.members);
    LinksCounted(Accounts(src.members), AfterPasswords(p1, src.members), src.links);
  }

  /** And then the tables are the direct image of the source and the counters are its sizes. */
  lemma CleanGivesImage(t: Tables, nextId: nat, src: Source)
    requires Consistent(t, nextId) && CleanSource(t, src)
    ensures var h := |Holders(src.members)|;
            Execute(t, nextId, src).stats == Stats(|src.members|, |src.links|, |src.members|, h, h, |src.links|, 0)
    ensures IsImage(t, nextId, src, Execute(t, nextId, src).tables)
    ensures Execute(t, nextId, src).nextId == nextId + |Holders(src.members)| + |src.links|
  {
    hide Consistent;
    hide StatesOf;
    hide CredentialsOf;
    hide CleanAccounts;
    hide CleanHolders;
    hide CleanLinks;
    hide PasswordImage;
    hide LinkImage;
    hide AllMapped;
    hide AfterAccounts;
    hide AfterPasswords;
    hide AfterLinks;
    hide Holders;
    hide Accounts;
    CleanStats(t, nextId, src);
    FirstStep(t, nextId, src);
    StatesAreImage(Start(t, nextId, src), src.members);
    var p1 := AfterAccounts(Start(t, nextId, src), src.members);
    var p2 := AfterPasswords(p1, src.members);
    PasswordsCounted(p1, src.members);
    LinksCounted(Accounts(src.members), p2, src.links);
    PasswordsAreImage(p1, src.members);
    LinkOkAfterPasswords(p1, src.members, Accounts(src.members), src.links);
    LinksAreImage(Accounts(src.members), p2, src.links);
  }

  /** A member whose account state exists already makes any further run conflict. */
  lemma KnownAccountConflicts(t: Tables, nextId: nat, src: Source, k: nat)
    requires Consistent(t, nextId) && k < |src.members| && src.members[k].account in t.states
    ensures Execute(t, nextId, src).stats.conflicts > 0
  {
    NoConflictIffClean(t, nextId, src);
    assert !AccountOk(t, src.members, k);
  }
}
