/** The social revocation outbox as a step system: the worker of
    backend/internal/job/social_revocation_worker.go against the statements of
    backend/internal/repository/social_revocation_repo.go.

    Any number of workers run at once.  A step is one statement or one transaction, so a
    crash, another worker or the operator can come between any two steps of a worker.  Time
    is in nanoseconds and there is one clock.
  */
module Outbox {
  import opened Wrappers
  import Backoff

  const BATCH_SIZE := 20
  const MAX_ATTEMPT := 10
  const STALE_AFTER := 300_000_000_000

  type Id = nat
  type Token = nat

  datatype Action = Disconnect | AccountDelete | Unsupported
  datatype Status = Pending | Revoked | Delivered | Failed | FinalizeFailed

  /** NMS_STATUS of the member's link to the provider; `NoLink` when there is no row. */
  datatype Link = NoLink | Disconnecting | FinalizePending | OtherLink

  datatype Row = Row(user: int, provider: string, action: Action, status: Status,
                     claim: Option<Token>, updatedAt: int, attempts: int, nextAttempt: int)

  /** A row as a worker read it when it claimed its batch. */
  datatype Entry = Entry(id: Id, user: int, provider: string, action: Action, status: Status, attempts: int)

  /** Where a worker stands inside `processEntry`; `early` marks a failure that came before
      the row's status had been read. */
  datatype Point =
    | Ready
    | Checkpoint(entry: Entry)
    | Finalizing(entry: Entry)
    | Recording(entry: Entry, retry: Status, early: bool)
    | Releasing(entry: Entry)

  datatype Worker = Worker(queue: seq<Entry>, at: Point)

  /** A provider call with what held when it was made; `again` says that the row had already
      been durably REVOKED. */
  datatype Call = Call(worker: Token, entry: Entry, seen: Row, link: Link, again: bool)

  /** `used`, `calls`, `revoked` and `handled` are history: the tokens ever given out, the
      provider calls, the rows that were ever REVOKED, and how often each row was taken up. */
  datatype System = System(rows: map<Id, Row>, links: map<(int, string), Link>, workers: map<Token, Worker>, now: int,
                           used: set<Token>, calls: seq<Call>, revoked: set<Id>, handled: multiset<Id>)

  /** How the revocation of an entry went.  `Through` is a transaction, or a call, that got to
      its end; `written` says the commit took effect and `acked` that it was reported so. */
  datatype Outcome = TxFailed | Refused | CallFailed | Through(written: bool, acked: bool)

  datatype Event =
    | Claim(w: Token, ids: set<Id>, batch: seq<Id>)
    | Begin(w: Token, outcome: Outcome)
    | MarkRevoked(w: Token, written: bool, acked: bool)
    | Finalize(w: Token, reached: bool, written: bool, acked: bool)
    | Record(w: Token, written: bool)
    | Release(w: Token, written: bool)
    | Spawn(w: Token)
    | Crash(w: Token)
    | Tick(time: int)
    | Enqueue(id: Id, row: Row)
    | SetLink(user: int, provider: string, link: Link)
    | RetrySocial(user: int)

  predicate IsOpen(status: Status) {
    status == Pending || status == Revoked
  }

  // ------------------------------------------------- repository statements

  predicate Claimable(row: Row, now: int) {
    && IsOpen(row.status)
    && row.nextAttempt <= now
    && (row.claim == None || row.updatedAt <= now - STALE_AFTER)
  }

  function ClaimRows(rows: map<Id, Row>, ids: set<Id>, w: Token, now: int): map<Id, Row> {
    map i | i in rows :: if i in ids then rows[i].(claim := Some(w), updatedAt := now) else rows[i]
  }

  function LinkOf(s: System, user: int, provider: string): Link {
    if (user, provider) in s.links then s.links[(user, provider)] else NoLink
  }

  datatype Verdict = Expired | AlreadyRevoked | MayRevoke

  /** `lockClaimedDisconnect` and the two tests after it: the row must be open and still
      claimed by `w`, and the link must be on its way out. */
  function Check(s: System, w: Token, e: Entry): Verdict {
    if e.id !in s.rows then Expired
    else
      var row := s.rows[e.id];
      var link := LinkOf(s, e.user, e.provider);
      if row.claim != Some(w) || !IsOpen(row.status) || link == OtherLink then Expired
      else if row.status == Revoked then AlreadyRevoked
      else if link != Disconnecting then Expired
      else MayRevoke
  }

  function SetRevoked(rows: map<Id, Row>, id: Id, now: int): map<Id, Row> {
    if id in rows then rows[id := rows[id].(status := Revoked, updatedAt := now)] else rows
  }

  predicate SameWork(row: Row, e: Entry) {
    row.user == e.user && row.provider == e.provider && row.action == e.action
  }

  /** The last statement of either finalization: every open row for the same member, provider
      and action becomes DELIVERED. */
  function Deliver(rows: map<Id, Row>, e: Entry, now: int): map<Id, Row> {
    map i | i in rows ::
      if SameWork(rows[i], e) && IsOpen(rows[i].status) then rows[i].(status := Delivered, updatedAt := now) else rows[i]
  }

  function FailedRow(row: Row, e: Entry, retry: Status, now: int): Row {
    var attempts := e.attempts + 1;
    var status := if attempts < MAX_ATTEMPT then retry else if retry == Revoked then FinalizeFailed else Failed;
    row.(status := status, claim := None, attempts := attempts,
         nextAttempt := now + Backoff.BackoffDuration(attempts, Backoff.ToMinimum), updatedAt := now)
  }

  /** `MarkSocialRevocationFailed`: only the claim holder's row, and never a DELIVERED one. */
  function MarkFailed(rows: map<Id, Row>, w: Token, e: Entry, retry: Status, now: int): map<Id, Row> {
    if e.id in rows && rows[e.id].status != Delivered && rows[e.id].claim == Some(w) then
      rows[e.id := FailedRow(rows[e.id], e, retry, now)]
    else rows
  }

  function MarkSucceeded(rows: map<Id, Row>, w: Token, id: Id, now: int): map<Id, Row> {
    if id in rows && rows[id].claim == Some(w) then rows[id := rows[id].(claim := None, updatedAt := now)] else rows
  }

  /** The operator's retry of a member's account deletion. */
  function RetryRows(rows: map<Id, Row>, user: int, now: int): map<Id, Row> {
    map i | i in rows ::
      var row := rows[i];
      if row.user == user && row.action == AccountDelete && row.status != Delivered then
        row.(attempts := if row.status == Failed || row.status == FinalizeFailed then 0 else row.attempts,
             status := if row.status == FinalizeFailed || row.status == Revoked then Revoked else Pending,
             claim := None, nextAttempt := now, updatedAt := now)
      else row
  }

  // ------------------------------------------------------------- one step

  function Snapshot(rows: map<Id, Row>, id: Id): Entry
    requires id in rows
  {
    var r := rows[id];
    Entry(id, r.user, r.provider, r.action, r.status, r.attempts)
  }

  /** The worker whose step it is, if it is a worker's. */
  function Actor(e: Event): Option<Token> {
    match e
    case Claim(w, _, _) => Some(w)
    case Begin(w, _) => Some(w)
    case MarkRevoked(w, _, _) => Some(w)
    case Finalize(w, _, _, _) => Some(w)
    case Record(w, _) => Some(w)
    case Release(w, _) => Some(w)
    case _ => None
  }

  predicate Distinct(ids: seq<Id>) {
    forall i, j :: 0 <= i < j < |ids| ==> ids[i] != ids[j]
  }

  predicate Enabled(s: System, e: Event) {
    match e
    case Claim(w, ids, batch) =>
      && w in s.workers && s.workers[w] == Worker([], Ready)
      && |ids| <= BATCH_SIZE
      && (forall i :: i in ids ==> i in s.rows && Claimable(s.rows[i], s.now))
      && Distinct(batch)
      && (forall i :: i in batch ==> i in s.rows && ClaimRows(s.rows, ids, w, s.now)[i].claim == Some(w))
    case Begin(w, outcome) =>
      && w in s.workers && s.workers[w].at == Ready && s.workers[w].queue != []
      && (outcome.Through? && outcome.acked ==> outcome.written)
      && var entry := s.workers[w].queue[0];
         if entry.action == Disconnect then Check(s, w, entry) == AlreadyRevoked ==> outcome.TxFailed? || outcome.Through?
         else !outcome.TxFailed?
    case MarkRevoked(w, written, acked) => w in s.workers && s.workers[w].at.Checkpoint? && (acked ==> written)
    case Finalize(w, reached, written, acked) =>
      w in s.workers && s.workers[w].at.Finalizing? && (acked ==> written) && (written ==> reached)
    case Record(w, _) => w in s.workers && s.workers[w].at.Recording?
    case Release(w, _) => w in s.workers && s.workers[w].at.Releasing?
    case Spawn(w) => w !in s.used
    case Crash(w) => w in s.workers
    case Tick(time) => s.now <= time
    case Enqueue(id, row) =>
      && id !in s.rows && row.status == Pending && row.claim == None && row.attempts == 0
      && forall i :: i in s.rows && s.rows[i].status == Pending ==>
           (s.rows[i].user, s.rows[i].provider, s.rows[i].action) != (row.user, row.provider, row.action)
    case SetLink(_, _, _) => true
    case RetrySocial(_) => true
  }

  /** The rows after a step, statement by statement. */
  function RowsAfter(s: System, e: Event): map<Id, Row>
    requires Enabled(s, e)
  {
    match e
    case Claim(w, ids, _) => ClaimRows(s.rows, ids, w, s.now)
    case Begin(w, outcome) =>
      var entry := s.workers[w].queue[0];
      if entry.action == Disconnect && outcome.Through? && outcome.written && Check(s, w, entry) == MayRevoke
      then SetRevoked(s.rows, entry.id, s.now) else s.rows
    case MarkRevoked(w, written, _) => if written then SetRevoked(s.rows, s.workers[w].at.entry.id, s.now) else s.rows
    case Finalize(w, _, written, _) => if written && Finishes(s, w) then Deliver(s.rows, s.workers[w].at.entry, s.now) else s.rows
    case Record(w, written) =>
      var at := s.workers[w].at;
      if written then MarkFailed(s.rows, w, at.entry, at.retry, s.now) else s.rows
    case Release(w, written) => if written then MarkSucceeded(s.rows, w, s.workers[w].at.entry.id, s.now) else s.rows
    case Enqueue(id, row) => s.rows[id := row]
    case RetrySocial(user) => RetryRows(s.rows, user, s.now)
    case _ => s.rows
  }

  /** The finalization transaction gets past its own checks. */
  predicate Finishes(s: System, w: Token)
    requires w in s.workers && s.workers[w].at.Finalizing?
  {
    var e := s.workers[w].at.entry;
    e.action == AccountDelete || (e.action == Disconnect && Check(s, w, e) == AlreadyRevoked)
  }

  /** Where the acting worker goes from here. */
  function PointAfter(s: System, e: Event): Point
    requires Enabled(s, e) && Actor(e).Some?
  {
    var worker := s.workers[e.w];
    match e
    case Claim(_, _, _) => Ready
    case Begin(w, outcome) => PointAfterBegin(s, w, worker.queue[0], outcome)
    case MarkRevoked(_, _, acked) => if acked then Finalizing(worker.at.entry) else Recording(worker.at.entry, Revoked, false)
    case Finalize(w, reached, _, acked) =>
      var entry := worker.at.entry;
      if entry.action == Unsupported || !reached then Recording(entry, Revoked, false)
      else if !Finishes(s, w) then Ready
      else if acked then Releasing(entry)
      else Recording(entry, Revoked, false)
    case _ => Ready
  }

  function PointAfterBegin(s: System, w: Token, entry: Entry, outcome: Outcome): Point {
    if entry.action == Disconnect then
      if outcome.TxFailed? then Recording(entry, Pending, true)
      else
        match Check(s, w, entry)
        case Expired => Ready
        case AlreadyRevoked => if outcome.Through? && outcome.acked then Finalizing(entry) else Recording(entry, Revoked, false)
        case MayRevoke =>
          if !outcome.Through? then Recording(entry, Pending, false)
          else if outcome.acked then Finalizing(entry)
          else Recording(entry, Revoked, false)
    else if entry.status == Revoked then Finalizing(entry)
    else if outcome.Through? then Checkpoint(entry)
    else Recording(entry, Pending, false)
  }

  /** The provider is called for a DISCONNECT entry only when the check under the row lock
      allows it, and for any other entry unless it was read as REVOKED. */
  predicate CallsProvider(s: System, w: Token, entry: Entry, outcome: Outcome) {
    && entry.id in s.rows && (outcome.CallFailed? || outcome.Through?)
    && if entry.action == Disconnect then Check(s, w, entry) == MayRevoke else entry.status != Revoked
  }

  function NewCalls(s: System, e: Event): seq<Call>
    requires Enabled(s, e)
  {
    if !e.Begin? then []
    else
      var entry := s.workers[e.w].queue[0];
      if CallsProvider(s, e.w, entry, e.outcome)
      then [Call(e.w, entry, s.rows[entry.id], LinkOf(s, entry.user, entry.provider), entry.id in s.revoked)] else []
  }

  function QueueAfter(s: System, e: Event): seq<Entry>
    requires Enabled(s, e) && Actor(e).Some?
  {
    match e
    case Claim(w, ids, batch) =>
      var rows := ClaimRows(s.rows, ids, w, s.now);
      seq(|batch|, k requires 0 <= k < |batch| => Snapshot(rows, batch[k]))
    case Begin(w, _) => s.workers[w].queue[1..]
    case _ => s.workers[e.w].queue
  }

  function WorkersAfter(s: System, e: Event): map<Token, Worker>
    requires Enabled(s, e)
  {
    match e
    case Spawn(w) => s.workers[w := Worker([], Ready)]
    case Crash(w) => s.workers - {w}
    case _ => if Actor(e).Some? then s.workers[e.w := Worker(QueueAfter(s, e), PointAfter(s, e))] else s.workers
  }

  /** Finalizing a DISCONNECT row deletes the link. */
  function LinksAfter(s: System, e: Event): map<(int, string), Link>
    requires Enabled(s, e)
  {
    if e.SetLink? then s.links[(e.user, e.provider) := e.link]
    else if e.Finalize? && e.written && Finishes(s, e.w) && s.workers[e.w].at.entry.action == Disconnect then
      s.links - {(s.workers[e.w].at.entry.user, s.workers[e.w].at.entry.provider)}
    else s.links
  }

  function RevokedIds(rows: map<Id, Row>): set<Id> {
    set i | i in rows && rows[i].status == Revoked
  }

  function Next(s: System, e: Event): System
    requires Enabled(s, e)
  {
    System(
      RowsAfter(s, e), LinksAfter(s, e), WorkersAfter(s, e),
      if e.Tick? then e.time else s.now,
      if e.Spawn? then s.used + {e.w} else s.used,
      s.calls + NewCalls(s, e),
      s.revoked + RevokedIds(RowsAfter(s, e)),
      if e.Begin? then s.handled + multiset{s.workers[e.w].queue[0].id} else s.handled)
  }

  // ---------------------------------------------------------------- runs

  predicate Trace(s: System, es: seq<Event>)
    decreases |es|, 0
  {
    es == [] || (Trace(s, es[..|es| - 1]) && Enabled(Run(s, es[..|es| - 1]), es[|es| - 1]))
  }

  function Run(s: System, es: seq<Event>): System
    requires Trace(s, es)
    decreases |es|, 1
  {
    if es == [] then s else Next(Run(s, es[..|es| - 1]), es[|es| - 1])
  }

  /** No worker is running, nothing has happened yet, and a claim left over from an earlier
      process is one of `used`, on a row the worker still had in hand. */
  predicate Init(s: System) {
    && s.workers == map[] && s.calls == [] && s.handled == multiset{}
    && (forall i :: i in s.rows && s.rows[i].claim.Some? ==>
          s.rows[i].claim.value in s.used && s.rows[i].status != Failed && s.rows[i].status != FinalizeFailed)
    && s.revoked == set i | i in s.rows && (s.rows[i].status == Revoked || s.rows[i].status == FinalizeFailed)
  }
}
