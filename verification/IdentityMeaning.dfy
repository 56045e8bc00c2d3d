/** What the backfill makes of the legacy columns, told from their raw text: which accounts are
    active, whose password becomes an identity, and what a link turns into. */
module IdentityMeaning {
  import opened Wrappers
  import opened IdentityTransform
  import opened IdentityTables

  // ------------------------------------------------------------ reading a code

  /** Only blanks between these places. */
  predicate BlankBetween(text: string, a: nat, b: nat)
    requires b <= |text|
  {
    forall k :: a <= k < b ==> IsSpace(text[k])
  }

  predicate AllBlank(text: string) {
    BlankBetween(text, 0, |text|)
  }

  /** The letter in either case, or the one other character whose capital it is. */
  predicate LetterFits(c: char, letter: char)
    requires 'A' <= letter <= 'Z'
  {
    c == letter || c == letter + 32 as char || (letter == 'I' && c == '\U{0131}') || (letter == 'S' && c == '\U{017F}')
  }

  predicate Capitals(word: string) {
    word != "" && forall k :: 0 <= k < |word| ==> 'A' <= word[k] <= 'Z'
  }

  predicate SpellsAt(text: string, word: string, i: nat)
    requires Capitals(word)
  {
    && i + |word| <= |text| && BlankBetween(text, 0, i) && BlankBetween(text, i + |word|, |text|)
    && forall k :: 0 <= k < |word| ==> LetterFits(text[i + k], word[k])
  }

  /** The text is the word, up to case and blanks around it. */
  predicate Spells(text: string, word: string)
    requires Capitals(word)
  {
    exists i :: 0 <= i <= |text| && SpellsAt(text, word, i)
  }

  lemma {:induction false} TrimLeftDrops(text: string) returns (i: nat)
    ensures i <= |text| && TrimLeft(text) == text[i..] && BlankBetween(text, 0, i)
    ensures i < |text| ==> !IsSpace(text[i])
  {
    hide IsSpace;
    if text != "" && IsSpace(text[0]) {
      var tail := text[1..];
      var j := TrimLeftDrops(tail);
      i := j + 1;
      assert tail[j..] == text[i..];
      assert forall k :: 0 < k < |text| ==> text[k] == tail[k - 1];
    } else {
      i := 0;
    }
  }

  lemma {:induction false} TrimRightDrops(text: string) returns (j: nat)
    ensures j <= |text| && TrimRight(text) == text[..j] && BlankBetween(text, j, |text|)
    ensures j > 0 ==> !IsSpace(text[j - 1])
  {
    hide IsSpace;
    if text != "" && IsSpace(text[|text| - 1]) {
      var front := text[..|text| - 1];
      j := TrimRightDrops(front);
      assert front[..j] == text[..j];
      assert forall k :: 0 <= k < |front| ==> text[k] == front[k];
    } else {
      j := |text|;
      assert text[..j] == text;
    }
  }

  /** Trimming takes the blanks away from either end, and nothing else. */
  lemma TrimIs(text: string) returns (i: nat, j: nat)
    ensures i <= j <= |text| && TrimSpace(text) == text[i..j] && BlankBetween(text, 0, i) && BlankBetween(text, j, |text|)
    ensures i < j ==> !IsSpace(text[i]) && !IsSpace(text[j - 1])
  {
    hide IsSpace;
    i := TrimLeftDrops(text);
    var rest := text[i..];
    var n := TrimRightDrops(rest);
    j := i + n;
    assert rest[..n] == text[i..j];
    assert forall k :: i <= k < |text| ==> text[k] == rest[k - i];
  }

  lemma TrimIsUnique(text: string, i: nat, j: nat)
    requires i < j <= |text| && BlankBetween(text, 0, i) && BlankBetween(text, j, |text|) && !IsSpace(text[i]) && !IsSpace(text[j - 1])
    ensures TrimSpace(text) == text[i..j]
  {
    hide IsSpace;
    var a, b := TrimIs(text);
    hide TrimSpace;
    assert a == i;
    assert b == j;
  }

  lemma UpperFits(c: char, letter: char)
    requires 'A' <= letter <= 'Z'
    ensures UpperChar(c) == letter <==> LetterFits(c, letter)
    ensures LetterFits(c, letter) ==> !IsSpace(c)
  {
  }

  /** The test the code makes: trimmed and in capitals, the text is the word. */
  lemma SpellsIff(text: string, word: string)
    requires Capitals(word)
    ensures ToUpper(TrimSpace(text)) == word <==> Spells(text, word)
  {
    if ToUpper(TrimSpace(text)) == word { SpelledOut(text, word); }
    if Spells(text, word) { ReadAs(text, word); }
  }

  lemma SpelledOut(text: string, word: string)
    requires Capitals(word) && ToUpper(TrimSpace(text)) == word
    ensures Spells(text, word)
  {
    hide UpperChar;
    hide LetterFits;
    hide IsSpace;
    var i, j := TrimIs(text);
    hide TrimSpace;
    assert |text[i..j]| == |word|;
    forall k | 0 <= k < |word| ensures LetterFits(text[i + k], word[k]) {
      assert ToUpper(text[i..j])[k] == word[k];
      UpperFits(text[i + k], word[k]);
    }
    assert SpellsAt(text, word, i);
  }

  lemma ReadAs(text: string, word: string)
    requires Capitals(word) && Spells(text, word)
    ensures ToUpper(TrimSpace(text)) == word
  {
    hide UpperChar;
    hide LetterFits;
    hide IsSpace;
    hide TrimSpace;
    var i :| 0 <= i <= |text| && SpellsAt(text, word, i);
    var j := i + |word|;
    forall k | 0 <= k < |word| ensures UpperChar(text[i..j][k]) == word[k] && !IsSpace(text[i + k]) {
      UpperFits(text[i + k], word[k]);
    }
    assert text[j - 1] == text[i + (|word| - 1)] && text[i] == text[i + 0];
    TrimIsUnique(text, i, j);
  }

  lemma BlankIff(text: string)
    ensures TrimSpace(text) == "" <==> AllBlank(text)
  {
    hide IsSpace;
    var i, j := TrimIs(text);
    hide TrimSpace;
    assert |text[i..j]| == j - i;
  }

  // ------------------------------------------------------------ what is meant

  predicate SaysWithdrawn(status: string) {
    Spells(status, "AAA")
  }

  predicate SaysActive(status: string) {
    Spells(status, "BAA") || Spells(status, "BBB") || Spells(status, "CCC") || Spells(status, "ZZZ")
  }

  /** Withdrawn for AAA, active for the four codes that may log in, suspended for all else, and
      the time of the one or the other is recorded. */
  predicate StateMeans(status: string, state: AccountState) {
    && (state.status == Withdrawn <==> SaysWithdrawn(status)) && (state.status == Active <==> SaysActive(status))
    && (state.withdrawnAt <==> SaysWithdrawn(status)) && (state.suspendedAt <==> !SaysWithdrawn(status) && !SaysActive(status))
  }

  lemma StatusMeans(status: string)
    ensures StateMeans(status, MapAccountStatus(status))
  {
    hide Spells;
    hide ToUpper;
    hide TrimSpace;
    SpellsIff(status, "AAA");
    SpellsIff(status, "BAA");
    SpellsIff(status, "BBB");
    SpellsIff(status, "CCC");
    SpellsIff(status, "ZZZ");
    assert "AAA"[0] != "BAA"[0] && "AAA"[0] != "BBB"[0] && "AAA"[0] != "CCC"[0] && "AAA"[0] != "ZZZ"[0];
  }

  /** The character in lower case; two that are not ASCII have an ASCII lower case. */
  predicate LowerOf(c: char, d: char) {
    if 'A' <= c <= 'Z' then d == c + 32 as char else if c == '\U{212A}' then d == 'k' else if c == '\U{0130}' then d == 'i' else d == c
  }

  /** No e-mail for a blank one, and otherwise what is between the blanks, in lower case. */
  predicate EmailMeans(raw: string, email: Option<string>) {
    match email
    case None => AllBlank(raw)
    case Some(e) => exists i, j :: 0 <= i < j <= |raw| && EmailFrom(raw, e, i, j)
  }

  predicate EmailFrom(raw: string, e: string, i: nat, j: nat)
    requires i < j <= |raw|
  {
    && BlankBetween(raw, 0, i) && BlankBetween(raw, j, |raw|) && !IsSpace(raw[i]) && !IsSpace(raw[j - 1])
    && |e| == j - i && forall k :: 0 <= k < |e| ==> LowerOf(raw[i + k], e[k])
  }

  lemma EmailIsMeant(raw: string)
    ensures EmailMeans(raw, NormalizedEmail(raw))
  {
    hide IsSpace;
    hide TrimSpace;
    BlankIff(raw);
    var i, j := TrimIs(raw);
    if NormalizedEmail(raw).Some? {
      assert EmailFrom(raw, NormalizedEmail(raw).value, i, j);
    }
  }

  /** An asterisk and forty hexadecimal digits. */
  predicate NativeHash(hash: string) {
    |hash| == 41 && hash[0] == '*' && forall k :: 1 <= k < |hash| ==> hash[k] in "0123456789abcdefABCDEF"
  }

  /** Not blank, at most 255 characters, all of them ASCII. */
  predicate UsableKey(key: string) {
    !AllBlank(key) && |key| <= 255 && forall k :: 0 <= k < |key| ==> key[k] < 128 as char
  }

  /** The identity and the credential are this member's: account, name, e-mail and hash. */
  predicate CarriesPassword(x: Identity, credentials: map<nat, string>, m: Member) {
    && x.account == m.account && x.provider == LocalUsername && x.subject == m.username && EmailMeans(m.email, x.email)
    && x.status == Enabled && x.verified && x.id in credentials && credentials[x.id] == m.hash
    && !SaysWithdrawn(m.status) && NativeHash(m.hash) && UsableKey(m.username)
  }

  predicate SaysEnabled(status: string) {
    Spells(status, "Y") || Spells(status, "ACTIVE")
  }

  predicate SaysDisabled(status: string) {
    Spells(status, "N") || Spells(status, "INACTIVE")
  }

  /** The identity is this link's. */
  predicate CarriesLink(x: Identity, l: SocialLink) {
    && x.account == l.account && x.subject == l.subject && x.email == None && !x.verified && UsableKey(l.subject)
    && (if Spells(l.gate, "KT") then x.provider == Kakao else x.provider == Apple && Spells(l.gate, "AP"))
    && (if SaysEnabled(l.status) then x.status == Enabled else x.status == Disabled && SaysDisabled(l.status))
  }

  lemma KeyIsUsable(key: string)
    ensures IsKey(key) <==> UsableKey(key)
  {
    hide TrimSpace;
    hide AllBlank;
    BlankIff(key);
  }

  lemma HashIsNative(hash: string)
    ensures IsNativeHash(hash) ==> NativeHash(hash)
  {
  }

  lemma HolderMeans(m: Member)
    ensures IsHolder(m) <==> !SaysWithdrawn(m.status) && !AllBlank(m.hash)
  {
    hide MapAccountStatus;
    hide TrimSpace;
    hide AllBlank;
    hide SaysWithdrawn;
    hide SaysActive;
    StatusMeans(m.status);
    BlankIff(m.hash);
  }

  lemma PasswordRowMeans(id: nat, m: Member, credentials: map<nat, string>)
    requires IsHolder(m) && ValidHolder(m) && id in credentials && credentials[id] == m.hash
    ensures CarriesPassword(PasswordRow(id, m), credentials, m)
  {
    hide IsHolder;
    hide IsKey;
    hide UsableKey;
    hide IsNativeHash;
    hide NativeHash;
    hide NormalizedEmail;
    hide EmailMeans;
    hide SaysWithdrawn;
    hide AllBlank;
    HolderMeans(m);
    KeyIsUsable(m.username);
    HashIsNative(m.hash);
    EmailIsMeant(m.email);
  }

  lemma GateMeans(gate: string)
    ensures MapProvider(gate) == if Spells(gate, "KT") then Some(Kakao) else if Spells(gate, "AP") then Some(Apple) else None
  {
    hide Spells;
    hide ToUpper;
    hide TrimSpace;
    SpellsIff(gate, "KT");
    SpellsIff(gate, "AP");
  }

  lemma LinkStatusMeans(status: string)
    ensures MapSocialStatus(status) == if SaysEnabled(status) then Some(Enabled) else if SaysDisabled(status) then Some(Disabled) else None
  {
    hide Spells;
    hide ToUpper;
    hide TrimSpace;
    SpellsIff(status, "Y");
    SpellsIff(status, "ACTIVE");
    SpellsIff(status, "N");
    SpellsIff(status, "INACTIVE");
  }

  lemma LinkRowMeans(id: nat, l: SocialLink)
    requires Mapped(l) && IsKey(l.subject)
    ensures CarriesLink(LinkRow(id, l), l)
  {
    hide MapProvider;
    hide MapSocialStatus;
    hide Spells;
    hide SaysEnabled;
    hide SaysDisabled;
    hide IsKey;
    hide UsableKey;
    KeyIsUsable(l.subject);
    GateMeans(l.gate);
    LinkStatusMeans(l.status);
  }

  // ------------------------------------------------------------- any tables

  /** The first member of its account. */
  predicate FirstOfAccount(ms: seq<Member>, j: nat)
    requires j < |ms|
  {
    forall i :: 0 <= i < j ==> ms[i].account != ms[j].account
  }

  lemma {:induction false} StatesMean(p: Progress, ms: seq<Member>, j: nat)
    requires j < |ms| && FirstOfAccount(ms, j) && ms[j].account !in p.tables.states
    ensures ms[j].account in AfterAccounts(p, ms).tables.states
    ensures StateMeans(ms[j].status, AfterAccounts(p, ms).tables.states[ms[j].account])
    decreases |ms|
  {
    hide MapAccountStatus;
    hide StateMeans;
    hide AfterAccounts;
    hide Accounts;
    var front, m := ms[..|ms| - 1], ms[|ms| - 1];
    AccountsCounted(p, front);
    LastAccount(p, ms);
    if j < |front| {
      assert front[j] == ms[j] && FirstOfAccount(front, j);
      StatesMean(p, front, j);
    } else {
      StatusMeans(m.status);
      NotAmong(front, m.account);
    }
  }

  lemma LastAccount(p: Progress, ms: seq<Member>)
    requires ms != []
    ensures var before, m := AfterAccounts(p, ms[..|ms| - 1]).tables.states, ms[|ms| - 1];
            AfterAccounts(p, ms).tables.states == if m.account in before then before else before[m.account := MapAccountStatus(m.status)]
  {
    hide MapAccountStatus;
  }

  lemma NotAmong(ms: seq<Member>, account: int)
    requires forall i :: 0 <= i < |ms| ==> ms[i].account != account
    ensures account !in Accounts(ms)
  {
  }

  predicate SomeMember(x: Identity, credentials: map<nat, string>, ms: seq<Member>) {
    exists j :: 0 <= j < |ms| && CarriesPassword(x, credentials, ms[j])
  }

  /** Everything from here on was added for one of these members. */
  predicate PasswordsFrom(n: nat, t: Tables, ms: seq<Member>) {
    forall k :: n <= k < |t.identities| ==> SomeMember(t.identities[k], t.credentials, ms)
  }

  /** A step adds the row of its member, if anything, and leaves the credentials there were. */
  lemma StepMeans(q: Progress, m: Member)
    requires Consistent(q.tables, q.nextId)
    ensures var t, t' := q.tables, PasswordStep(q, m).tables;
            && (forall id :: id in t.credentials ==> id in t'.credentials && t'.credentials[id] == t.credentials[id])
            && (t'.identities == t.identities
                || (|t'.identities| == |t.identities| + 1 && t'.identities[..|t.identities|] == t.identities
                    && CarriesPassword(t'.identities[|t.identities|], t'.credentials, m)))
  {
    hide IsHolder;
    hide ValidHolder;
    hide CarriesPassword;
    hide Duplicate;
    hide PasswordRow;
    FreshHasNoCredential(q.tables, q.nextId);
    hide Consistent;
    var t' := PasswordStep(q, m).tables;
    if t'.identities != q.tables.identities {
      PasswordRowMeans(q.nextId, m, t'.credentials);
    }
  }

  lemma KeepsMember(x: Identity, credentials: map<nat, string>, more: map<nat, string>, ms: seq<Member>, m: Member)
    requires SomeMember(x, credentials, ms) && forall id :: id in credentials ==> id in more && more[id] == credentials[id]
    ensures SomeMember(x, more, ms + [m])
  {
    hide SaysWithdrawn;
    hide NativeHash;
    hide UsableKey;
    hide EmailMeans;
    var j :| 0 <= j < |ms| && CarriesPassword(x, credentials, ms[j]);
    assert (ms + [m])[j] == ms[j];
    assert CarriesPassword(x, more, (ms + [m])[j]);
  }

  lemma {:induction false} PasswordsMean(p: Progress, ms: seq<Member>)
    requires Consistent(p.tables, p.nextId)
    ensures PasswordsFrom(|p.tables.identities|, AfterPasswords(p, ms).tables, ms)
    decreases |ms|
  {
    hide PasswordStep;
    hide Consistent;
    hide SomeMember;
    hide CarriesPassword;
    if ms != [] {
      var front, m := ms[..|ms| - 1], ms[|ms| - 1];
      assert ms == front + [m];
      var q := AfterPasswords(p, front);
      hide AfterPasswords;
      hide PasswordsFrom;
      PasswordsMean(p, front);
      PasswordsCounted(p, front);
      StepMeans(q, m);
      MembersKept(|p.tables.identities|, q.tables, PasswordStep(q, m).tables, front, m);
      PasswordsLast(p, ms);
    }
  }

  lemma PasswordsLast(p: Progress, ms: seq<Member>)
    requires ms != []
    ensures AfterPasswords(p, ms) == PasswordStep(AfterPasswords(p, ms[..|ms| - 1]), ms[|ms| - 1])
  {
    hide PasswordStep;
  }

  lemma MembersKept(n: nat, t: Tables, t': Tables, front: seq<Member>, m: Member)
    requires PasswordsFrom(n, t, front) && n <= |t.identities|
    requires forall id :: id in t.credentials ==> id in t'.credentials && t'.credentials[id] == t.credentials[id]
    requires t'.identities == t.identities
      || (|t'.identities| == |t.identities| + 1 && t'.identities[..|t.identities|] == t.identities && CarriesPassword(t'.identities[|t.identities|], t'.credentials, m))
    ensures PasswordsFrom(n, t', front + [m])
  {
    hide SomeMember;
    hide CarriesPassword;
    forall k | n <= k < |t'.identities| ensures SomeMember(t'.identities[k], t'.credentials, front + [m]) {
      if k < |t.identities| {
        assert t'.identities[k] == t.identities[k];
        KeepsMember(t.identities[k], t.credentials, t'.credentials, front, m);
      } else {
        LastMember(t'.identities[k], t'.credentials, front + [m]);
      }
    }
  }

  lemma LastMember(x: Identity, credentials: map<nat, string>, ms: seq<Member>)
    requires ms != [] && CarriesPassword(x, credentials, ms[|ms| - 1])
    ensures SomeMember(x, credentials, ms)
  {
    hide CarriesPassword;
  }

  predicate SomeLink(x: Identity, ls: seq<SocialLink>) {
    exists j :: 0 <= j < |ls| && CarriesLink(x, ls[j])
  }

  lemma LinkStepMeans(accounts: set<int>, q: Progress, l: SocialLink)
    ensures var t, t' := q.tables, LinkStep(accounts, q, l).tables;
            && t'.credentials == t.credentials && t'.states == t.states
            && (t'.identities == t.identities
                || (|t'.identities| == |t.identities| + 1 && t'.identities[..|t.identities|] == t.identities
                    && CarriesLink(t'.identities[|t.identities|], l)))
  {
    hide Duplicate;
    hide Mapped;
    hide LinkRow;
    hide IsKey;
    hide CarriesLink;
    if ValidLink(accounts, l) { LinkRowMeans(q.nextId, l); }
  }

  lemma {:induction false} LinksMean(accounts: set<int>, p: Progress, ls: seq<SocialLink>)
    ensures var t, t' := p.tables, AfterLinks(accounts, p, ls).tables;
            && t'.credentials == t.credentials && t'.states == t.states && t.identities <= t'.identities
            && forall k :: |t.identities| <= k < |t'.identities| ==> SomeLink(t'.identities[k], ls)
    decreases |ls|
  {
    hide LinkStep;
    hide CarriesLink;
    hide SomeLink;
    if ls != [] {
      var front, l := ls[..|ls| - 1], ls[|ls| - 1];
      var q := AfterLinks(accounts, p, front);
      LinksMean(accounts, p, front);
      LinkStepMeans(accounts, q, l);
      var t, t' := q.tables, LinkStep(accounts, q, l).tables;
      forall k | |p.tables.identities| <= k < |t'.identities| ensures SomeLink(t'.identities[k], ls) {
        if k < |t.identities| { assert t'.identities[k] == t.identities[k]; }
        OneMoreLink(t'.identities[k], front, ls);
      }
    }
  }

  lemma OneMoreLink(x: Identity, front: seq<SocialLink>, ls: seq<SocialLink>)
    requires ls != [] && front == ls[..|ls| - 1] && (SomeLink(x, front) || CarriesLink(x, ls[|ls| - 1]))
    ensures SomeLink(x, ls)
  {
    hide CarriesLink;
    if SomeLink(x, front) {
      var j :| 0 <= j < |front| && CarriesLink(x, front[j]);
      assert ls[j] == front[j];
    }
  }

  /** Whatever the tables and the source: every new account state is what the status text of the
      first member of the account says; every new identity is either a password identity with
      the account, name, e-mail and hash of one member, whose status does not say withdrawn, or
      that of one link, as its texts say. */
  lemma RowsMean(t: Tables, nextId: nat, src: Source)
    requires Consistent(t, nextId)
    ensures var t' := Execute(t, nextId, src).tables;
            && (forall j :: 0 <= j < |src.members| && FirstOfAccount(src.members, j) && src.members[j].account !in t.states ==>
                  src.members[j].account in t'.states && StateMeans(src.members[j].status, t'.states[src.members[j].account]))
            && t.identities <= t'.identities
            && forall k :: |t.identities| <= k < |t'.identities| ==>
                 SomeMember(t'.identities[k], t'.credentials, src.members) || SomeLink(t'.identities[k], src.links)
  {
    hide Consistent;
    hide StateMeans;
    hide SomeMember;
    hide SomeLink;
    hide AfterAccounts;
    hide AfterPasswords;
    hide AfterLinks;
    hide Accounts;
    FirstStep(t, nextId, src);
    var p1 := AfterAccounts(Start(t, nextId, src), src.members);
    var p2 := AfterPasswords(p1, src.members);
    PasswordsCounted(p1, src.members);
    PasswordsMean(p1, src.members);
    LinksMean(Accounts(src.members), p2, src.links);
    forall j | 0 <= j < |src.members| && FirstOfAccount(src.members, j) && src.members[j].account !in t.states
      ensures src.members[j].account in p1.tables.states && StateMeans(src.members[j].status, p1.tables.states[src.members[j].account])
    {
      StatesMean(Start(t, nextId, src), src.members, j);
    }
    var t2, t' := p2.tables, Execute(t, nextId, src).tables;
    forall k | |t.identities| <= k < |t'.identities|
      ensures SomeMember(t'.identities[k], t'.credentials, src.members) || SomeLink(t'.identities[k], src.links)
    {
      if k < |t2.identities| {
        assert t'.identities[k] == t2.identities[k];
      }
    }
  }

  /** So a member all of whose rows say withdrawn is withdrawn, and gets no password login. */
  lemma WithdrawnStaysOut(t: Tables, nextId: nat, src: Source, account: int)
    requires Consistent(t, nextId) && account !in t.states && account in Accounts(src.members)
    requires forall j :: 0 <= j < |src.members| && src.members[j].account == account ==> SaysWithdrawn(src.members[j].status)
    ensures var t' := Execute(t, nextId, src).tables;
            && account in t'.states && t'.states[account].status == Withdrawn
            && forall k :: |t.identities| <= k < |t'.identities| && t'.identities[k].account == account ==> t'.identities[k].provider != LocalUsername
  {
    hide Consistent;
    hide SaysWithdrawn;
    hide SaysActive;
    hide Execute;
    hide EmailMeans;
    hide NativeHash;
    hide UsableKey;
    hide Spells;
    hide SaysEnabled;
    hide SaysDisabled;
    RowsMean(t, nextId, src);
    var j := FirstMember(src.members, account);
    assert StateMeans(src.members[j].status, Execute(t, nextId, src).tables.states[account]);
  }

  lemma {:induction false} FirstMember(ms: seq<Member>, account: int) returns (j: nat)
    requires account in Accounts(ms)
    ensures j < |ms| && ms[j].account == account && FirstOfAccount(ms, j)
    decreases |ms|
  {
    var front := ms[..|ms| - 1];
    AccountsOf(ms);
    if account in Accounts(front) {
      j := FirstMember(front, account);
      assert forall i :: 0 <= i < |front| ==> front[i] == ms[i];
    } else {
      j := |ms| - 1;
      forall i | 0 <= i < j ensures ms[i].account != account {
        assert front[i].account in Accounts(front);
      }
    }
  }

  // ------------------------------------------------------------- nothing left out

  lemma {:induction false} HolderListed(ms: seq<Member>, j: nat) returns (k: nat)
    requires j < |ms| && IsHolder(ms[j])
    ensures k < |Holders(ms)| && Holders(ms)[k] == ms[j]
    decreases |ms|
  {
    hide IsHolder;
    if j == |ms| - 1 {
      k := |Holders(ms)| - 1;
    } else {
      k := HolderListed(ms[..|ms| - 1], j);
    }
  }

  /** One of the rows from here on, with its credential, is the member's. */
  predicate MemberIsIn(n: nat, t: Tables, m: Member) {
    exists k :: n <= k < |t.identities| && CarriesPassword(t.identities[k], t.credentials, m)
  }

  predicate LinkIsIn(n: nat, t: Tables, l: SocialLink) {
    exists k :: n <= k < |t.identities| && CarriesLink(t.identities[k], l)
  }

  /** Without conflicts, everyone whose status does not say withdrawn and whose hash is not blank
      has a password identity with it, and every link its identity. */
  lemma CleanLeavesNobodyOut(t: Tables, nextId: nat, src: Source)
    requires Consistent(t, nextId) && Execute(t, nextId, src).stats.conflicts == 0
    ensures var t' := Execute(t, nextId, src).tables;
            && (forall j :: 0 <= j < |src.members| && !SaysWithdrawn(src.members[j].status) && !AllBlank(src.members[j].hash) ==>
                  MemberIsIn(|t.identities|, t', src.members[j]))
            && (forall j :: 0 <= j < |src.links| ==>
                  LinkIsIn(|t.identities|, t', src.links[j]))
  {
    hide Consistent;
    hide Execute;
    hide CleanSource;
    hide IsImage;
    hide SaysWithdrawn;
    hide AllBlank;
    hide MemberIsIn;
    hide LinkIsIn;
    NoConflictIffClean(t, nextId, src);
    CleanGivesImage(t, nextId, src);
    var t' := Execute(t, nextId, src).tables;
    forall j | 0 <= j < |src.members| && !SaysWithdrawn(src.members[j].status) && !AllBlank(src.members[j].hash)
      ensures MemberIsIn(|t.identities|, t', src.members[j])
    {
      HolderIsThere(t, nextId, src, t', j);
    }
    forall j | 0 <= j < |src.links|
      ensures LinkIsIn(|t.identities|, t', src.links[j])
    {
      LinkIsThere(t, nextId, src, t', j);
    }
  }

  lemma HolderIsThere(t: Tables, nextId: nat, src: Source, t': Tables, j: nat)
    requires CleanSource(t, src) && IsImage(t, nextId, src, t') && j < |src.members|
    requires !SaysWithdrawn(src.members[j].status) && !AllBlank(src.members[j].hash)
    ensures MemberIsIn(|t.identities|, t', src.members[j])
  {
    hide SaysWithdrawn;
    hide AllBlank;
    hide CarriesPassword;
    hide CleanAccounts;
    hide CleanLinks;
    hide LinkImage;
    hide AllMapped;
    hide StatesOf;
    hide Holders;
    hide IsHolder;
    hide ValidHolder;
    hide PasswordRow;
    var m := src.members[j];
    HolderMeans(m);
    assert HolderOk(t, src.members, j);
    hide HolderOk;
    var h := HolderListed(src.members, j);
    var k := |t.identities| + h;
    assert t'.identities[k] == PasswordImage(nextId, src.members)[h];
    PasswordRowMeans(nextId + h, m, t'.credentials);
    assert CarriesPassword(t'.identities[k], t'.credentials, m);
  }

  lemma LinkIsThere(t: Tables, nextId: nat, src: Source, t': Tables, j: nat)
    requires CleanSource(t, src) && IsImage(t, nextId, src, t') && j < |src.links|
    ensures LinkIsIn(|t.identities|, t', src.links[j])
  {
    hide CarriesLink;
    hide CleanAccounts;
    hide CleanHolders;
    hide PasswordImage;
    hide StatesOf;
    hide CredentialsOf;
    hide Mapped;
    hide LinkRow;
    hide IsKey;
    assert LinkOk(t, Accounts(src.members), src.links, j);
    hide LinkOk;
    var h := |PasswordImage(nextId, src.members)|;
    var k := |t.identities| + h + j;
    assert t'.identities[k] == LinkImage(nextId + |Holders(src.members)|, src.links)[j];
    LinkRowMeans(nextId + |Holders(src.members)| + j, src.links[j]);
    assert CarriesLink(t'.identities[k], src.links[j]);
  }
}
