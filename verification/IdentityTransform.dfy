/** The mappings from legacy member data to canonical identity values
    (backend/cmd/backfill/identity_transform.go).

    Text is a sequence of code points.  Only letters whose other case is ASCII are folded:
    the rest never reach a table, because a key that is not ASCII is refused.
  */
module IdentityTransform {
  import opened Wrappers

  const MAX_KEY_BYTES := 255

  datatype AccountStatus = Active | Suspended | Withdrawn
  datatype Provider = LocalUsername | Kakao | Apple
  datatype IdentityStatus = Enabled | Disabled

  datatype AccountState = AccountState(status: AccountStatus, suspendedAt: bool, withdrawnAt: bool)

  datatype Member = Member(account: int, username: string, email: string, hash: string, status: string)
  datatype SocialLink = SocialLink(account: int, gate: string, subject: string, status: string)

  predicate IsSpace(c: char) {
    || '\t' <= c <= '\r' || c == ' ' || c == '\U{0085}' || c == '\U{00A0}' || c == '\U{1680}'
    || '\U{2000}' <= c <= '\U{200A}' || c == '\U{2028}' || c == '\U{2029}' || c == '\U{202F}'
    || c == '\U{205F}' || c == '\U{3000}'
  }

  function TrimLeft(s: string): string {
    if s != [] && IsSpace(s[0]) then TrimLeft(s[1..]) else s
  }

  function TrimRight(s: string): string {
    if s != [] && IsSpace(s[|s| - 1]) then TrimRight(s[..|s| - 1]) else s
  }

  function TrimSpace(s: string): string {
    TrimRight(TrimLeft(s))
  }

  function UpperChar(c: char): char {
    if 'a' <= c <= 'z' then c - 32 as char
    else if c == '\U{0131}' then 'I'
    else if c == '\U{017F}' then 'S'
    else c
  }

  function LowerChar(c: char): char {
    if 'A' <= c <= 'Z' then c + 32 as char
    else if c == '\U{212A}' then 'k'
    else if c == '\U{0130}' then 'i'
    else c
  }

  function ToUpper(s: string): string {
    seq(|s|, k requires 0 <= k < |s| => UpperChar(s[k]))
  }

  function ToLower(s: string): string {
    seq(|s|, k requires 0 <= k < |s| => LowerChar(s[k]))
  }

  function MapAccountStatus(status: string): AccountState {
    var key := ToUpper(TrimSpace(status));
    if key == "BAA" || key == "BBB" || key == "CCC" || key == "ZZZ" then AccountState(Active, false, false)
    else if key == "AAA" then AccountState(Withdrawn, false, true)
    else AccountState(Suspended, true, false)
  }

  function MapProvider(gate: string): Option<Provider> {
    var key := ToUpper(TrimSpace(gate));
    if key == "KT" then Some(Kakao) else if key == "AP" then Some(Apple) else None
  }

  function MapSocialStatus(status: string): Option<IdentityStatus> {
    var key := ToUpper(TrimSpace(status));
    if key == "Y" || key == "ACTIVE" then Some(Enabled)
    else if key == "N" || key == "INACTIVE" then Some(Disabled)
    else None
  }

  function NormalizedEmail(raw: string): Option<string> {
    var email := ToLower(TrimSpace(raw));
    if email == "" then None else Some(email)
  }

  predicate HasPassword(hash: string) {
    TrimSpace(hash) != ""
  }

  predicate IsHexDigit(c: char) {
    '0' <= c <= '9' || 'a' <= c <= 'f' || 'A' <= c <= 'F'
  }

  predicate IsNativeHash(hash: string) {
    |hash| == 41 && hash[0] == '*' && forall k :: 1 <= k < |hash| ==> IsHexDigit(hash[k])
  }

  predicate IsAscii(s: string) {
    forall k :: 0 <= k < |s| ==> s[k] <= '\U{007F}'
  }

  predicate IsKey(value: string) {
    TrimSpace(value) != "" && |value| <= MAX_KEY_BYTES && IsAscii(value)
  }

  predicate IsValidEmail(email: Option<string>) {
    email.None? || IsKey(email.value)
  }

  method IsValidIdentityKey(value: string) returns (valid: bool)
    ensures valid == IsKey(value)
  {
    if TrimSpace(value) == "" || |value| > MAX_KEY_BYTES {
      return false;
    }
    for k := 0 to |value|
      invariant forall j :: 0 <= j < k ==> value[j] <= '\U{007F}'
    {
      if value[k] > '\U{007F}' {
        return false;
      }
    }
    return true;
  }

  /** The largest account number, or zero when there is no positive one. */
  method SourceSummary(members: seq<Member>) returns (count: nat, maxAccount: int)
    ensures count == |members|
    ensures forall i :: 0 <= i < |members| ==> members[i].account <= maxAccount
    ensures 0 <= maxAccount
    ensures maxAccount == 0 || exists i :: 0 <= i < |members| && members[i].account == maxAccount
  {
    maxAccount := 0;
    for k := 0 to |members|
      invariant 0 <= maxAccount && forall i :: 0 <= i < k ==> members[i].account <= maxAccount
      invariant maxAccount == 0 || exists i :: 0 <= i < k && members[i].account == maxAccount
    {
      if members[k].account > maxAccount {
        maxAccount := members[k].account;
      }
    }
    return |members|, maxAccount;
  }

  // ------------------------------------------------------- normal e-mails

  predicate Trimmed(s: string) {
    s != [] ==> !IsSpace(s[0]) && !IsSpace(s[|s| - 1])
  }

  lemma {:induction false} TrimLeftStarts(s: string)
    ensures TrimLeft(s) != [] ==> !IsSpace(TrimLeft(s)[0])
  {
    if s != [] && IsSpace(s[0]) {
      TrimLeftStarts(s[1..]);
    }
  }

  lemma {:induction false} TrimRightEnds(s: string)
    ensures TrimRight(s) <= s && (TrimRight(s) != [] ==> !IsSpace(TrimRight(s)[|TrimRight(s)| - 1]))
  {
    if s != [] && IsSpace(s[|s| - 1]) {
      TrimRightEnds(s[..|s| - 1]);
    }
  }

  lemma TrimSpaceTrims(s: string)
    ensures Trimmed(TrimSpace(s))
  {
    TrimLeftStarts(s);
    TrimRightEnds(TrimLeft(s));
  }

  /** A normalized e-mail is its own normal form and has no blank at either end, so the
      padding rule of the unique key never identifies two different ones. */
  lemma EmailIsNormal(raw: string)
    requires NormalizedEmail(raw).Some?
    ensures Trimmed(NormalizedEmail(raw).value)
    ensures NormalizedEmail(NormalizedEmail(raw).value) == NormalizedEmail(raw)
  {
    TrimSpaceTrims(raw);
    var email := NormalizedEmail(raw).value;
    assert Trimmed(email);
    assert TrimSpace(email) == email;
    assert ToLower(email) == email;
  }
}
