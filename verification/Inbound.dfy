/**
 The durable log of provider notifications: `inbound_events`, its dedup indexes and its lease.

 Time is a count of nanoseconds. A claim token is a number drawn fresh for each claim.
 */
module Inbound {
  import opened Leases
  import opened Text
  import opened Wrappers

  const SECOND := 1_000_000_000
  const MAX_ERROR := 2048

  // The columns that never change after the insert.
  datatype Notification = Notification(
    gateway: string, providerEventId: string, hash: string, eventType: string, reference: string, parsed: string)

  datatype Status = Pending | Processing | Applied | Failed | Dead

  datatype Row = Row(
    note: Notification,
    account: string,
    status: Status,
    attempts: nat,
    token: Option<nat>,
    claimedUntil: Option<int>,
    availableAt: int,
    createdAt: int,
    lastError: string)

  type Table = map<nat, Row>

  // ----- Dedup -----

  /** What makes two notifications the same: the provider's own event id when it has one, and the hash of
      the payload otherwise. */
  datatype Identity =
    | ByProvider(gateway: string, providerEventId: string, eventType: string)
    | ByPayload(gateway: string, hash: string, eventType: string, reference: string)

  function IdentityOf(n: Notification): Identity {
    if n.providerEventId != "" then ByProvider(n.gateway, n.providerEventId, n.eventType)
    else ByPayload(n.gateway, n.hash, n.eventType, n.reference)
  }

  // The two partial unique indexes, each of which covers only part of the rows.
  predicate CollidesOnProvider(a: Notification, b: Notification) {
    && a.providerEventId != "" && b.providerEventId != ""
    && a.gateway == b.gateway && a.providerEventId == b.providerEventId && a.eventType == b.eventType
  }

  predicate CollidesOnPayload(a: Notification, b: Notification) {
    && a.providerEventId == "" && b.providerEventId == ""
    && a.gateway == b.gateway && a.hash == b.hash && a.eventType == b.eventType && a.reference == b.reference
  }

  predicate Conflicts(t: Table, n: Notification) {
    exists id :: id in t && (CollidesOnProvider(t[id].note, n) || CollidesOnPayload(t[id].note, n))
  }

  // The WHERE clause of the duplicate lookup. With a provider id it does not ask for a non-empty column.
  predicate LooksUp(n: Notification, row: Notification) {
    if n.providerEventId != "" then
      row.gateway == n.gateway && row.providerEventId == n.providerEventId && row.eventType == n.eventType
    else
      && row.gateway == n.gateway && row.hash == n.hash && row.eventType == n.eventType
      && row.reference == n.reference && row.providerEventId == ""
  }

  // What the unique indexes guarantee of every table.
  ghost predicate Unique(t: Table) {
    forall id, other :: id in t && other in t && IdentityOf(t[id].note) == IdentityOf(t[other].note) ==> id == other
  }

  /** An insert that hits either index always leaves exactly one row for the lookup to find, and an
      insert that hits none is looked up by nobody; so the lookup never comes back empty-handed. */
  lemma ConflictIsFoundOnce(t: Table, n: Notification)
    requires Unique(t)
    ensures Conflicts(t, n) <==> exists id :: id in t && LooksUp(n, t[id].note)
    ensures forall id, other :: id in t && other in t && LooksUp(n, t[id].note) && LooksUp(n, t[other].note)
                                ==> id == other
    ensures forall id :: id in t && LooksUp(n, t[id].note) ==> IdentityOf(t[id].note) == IdentityOf(n)
  {
    forall id | id in t
      ensures LooksUp(n, t[id].note)
              <==> CollidesOnProvider(t[id].note, n) || CollidesOnPayload(t[id].note, n)
      ensures LooksUp(n, t[id].note) <==> IdentityOf(t[id].note) == IdentityOf(n)
    {
    }
  }

  // ----- Statements -----

  function Inserted(n: Notification, account: string, token: nat, now: int): Row {
    Row(n, account, Processing, 1, Some(token), Some(now + 30 * SECOND), now, now, "")
  }

  predicate Due(row: Row, gateway: string, now: int) {
    && row.note.gateway == gateway
    && (((row.status.Pending? || row.status.Failed?) && row.availableAt <= now)
        || (row.status.Processing? && row.claimedUntil.Some? && row.claimedUntil.value < now))
  }

  function Leased(row: Row, token: nat, leaseSeconds: nat, now: int): Row {
    row.(status := Processing, attempts := row.attempts + 1, token := Some(token),
         claimedUntil := Some(now + leaseSeconds * SECOND))
  }

  // The row a completion may touch. Only the token is asked for; the deadline is not looked at.
  predicate Holds(t: Table, id: nat, token: nat) {
    id in t && t[id].status.Processing? && t[id].token == Some(token)
  }

  // How a claim ends: applied, or failed with an error and a jitter draw for the retry delay.
  datatype Verdict = Success | Failure(error: string, jitter: Option<nat>)

  function Resolved(row: Row, account: string, verdict: Verdict, maxAttempts: nat, now: int): Row {
    var row := row.(account := if account == "" then row.account else account, token := None, claimedUntil := None);
    match verdict
    case Success => row.(status := Applied, lastError := "")
    case Failure(error, jitter) =>
      if row.attempts >= maxAttempts then row.(status := Dead, lastError := Bounded(error), availableAt := now)
      else row.(status := Failed, lastError := Bounded(error), availableAt := now + Delay(row.attempts, jitter))
  }

  function Complete(t: Table, id: nat, token: nat, account: string, verdict: Verdict, maxAttempts: nat, now: int): Table {
    if Holds(t, id, token) then t[id := Resolved(t[id], account, verdict, maxAttempts, now)] else t
  }

  function Bounded(message: string): string {
    var trimmed := TrimSpace(message);
    if |trimmed| > MAX_ERROR then trimmed[..MAX_ERROR] else trimmed
  }

  /** A message is kept without the space around it, and cut at 2048 characters. */
  lemma BoundedIsPrefix(message: string)
    ensures Bounded(message) <= TrimSpace(message) && |Bounded(message)| <= 2048
    ensures |TrimSpace(message)| <= 2048 ==> Bounded(message) == TrimSpace(message)
    ensures |TrimSpace(message)| > 2048 ==> |Bounded(message)| == 2048
  {
  }

  // ----- Retry delay -----

  function Pow2(n: nat): nat {
    if n == 0 then 1 else 2 * Pow2(n - 1)
  }

  function Base(attempts: int): int {
    var n := if attempts < 1 then 1 else if attempts > 8 then 8 else attempts;
    var base := Pow2(n - 1) * SECOND;
    if base > 300 * SECOND then 300 * SECOND else base
  }

  // `jitter` is the draw from 0..400, or nothing when the random source fails.
  function Delay(attempts: int, jitter: Option<nat>): int {
    match jitter
    case None => Base(attempts)
    case Some(j) => Base(attempts) * (800 + j) / 1000
  }

  lemma PowersOfTwo()
    ensures Pow2(0) == 1 && Pow2(1) == 2 && Pow2(2) == 4 && Pow2(3) == 8
    ensures Pow2(4) == 16 && Pow2(5) == 32 && Pow2(6) == 64 && Pow2(7) == 128
  {
    assert Pow2(3) == 8;
    assert Pow2(5) == 32;
    assert Pow2(7) == 128;
  }

  lemma BaseIsPower(attempts: nat)
    requires 1 <= attempts <= 8
    ensures Base(attempts) == Pow2(attempts - 1) * SECOND
    ensures attempts < 8 ==> Base(attempts + 1) == 2 * Base(attempts)
    ensures Base(attempts) >= SECOND
  {
    PowersOfTwo();
  }

  /** For the attempts that are retried, the delay lies within 80% and 120% of 2^(attempts-1) seconds
      whatever the jitter; the five-minute clamp is never reached. */
  lemma DelayBounds(attempts: nat, jitter: Option<nat>)
    requires 1 <= attempts <= 8 && (jitter.Some? ==> jitter.value <= 400)
    ensures 8 * Pow2(attempts - 1) * SECOND <= 10 * Delay(attempts, jitter) <= 12 * Pow2(attempts - 1) * SECOND
  {
    BaseIsPower(attempts);
    if jitter.Some? {
      ScaledBounds(Pow2(attempts - 1) * 1_000_000, Base(attempts), jitter.value);
    }
  }

  lemma Products(unit: nat, j: nat)
    requires j <= 400
    ensures 800 * unit <= unit * (800 + j) <= 1200 * unit
    ensures (1000 * unit) * (800 + j) == 1000 * (unit * (800 + j))
  {
  }

  lemma ScaledBounds(unit: nat, base: int, j: nat)
    requires base == 1000 * unit && j <= 400
    ensures 8 * base <= 10 * (base * (800 + j) / 1000) <= 12 * base
  {
    Products(unit, j);
    var product := unit * (800 + j);
    assert 1000 * product / 1000 == product;
  }

  // Whatever the count of attempts: it is taken between one and eight.
  lemma DelayIsWithin(attempts: int, jitter: Option<nat>)
    requires jitter.Some? ==> jitter.value <= 400
    ensures WithinFifth(Delay(attempts, jitter), attempts)
  {
    DelayBounds(if attempts < 1 then 1 else if attempts > 8 then 8 else attempts, jitter);
  }

  // At least 80% and at most 120% of 1, 2, 4, … or 128 seconds.
  predicate WithinFifth(delay: int, attempts: int) {
    var seconds := Pow2(if attempts < 1 then 0 else if attempts > 8 then 7 else attempts - 1);
    8 * seconds * 1_000_000_000 <= 10 * delay <= 12 * seconds * 1_000_000_000
  }

  /** A later attempt always waits longer, whatever the two jitters. */
  lemma DelaysIncrease(attempts: nat, jitter: Option<nat>, nextJitter: Option<nat>)
    requires 1 <= attempts < 8
    requires (jitter.Some? ==> jitter.value <= 400) && (nextJitter.Some? ==> nextJitter.value <= 400)
    ensures Delay(attempts, jitter) < Delay(attempts + 1, nextJitter)
  {
    DelayBounds(attempts, jitter);
    DelayBounds(attempts + 1, nextJitter);
    BaseIsPower(attempts);
    BaseIsPower(attempts + 1);
  }

  lemma DelayIsPositive(attempts: int, jitter: Option<nat>)
    requires jitter.Some? ==> jitter.value <= 400
    ensures Delay(attempts, jitter) > 0
  {
    var n := if attempts < 1 then 1 else if attempts > 8 then 8 else attempts;
    DelayBounds(n, jitter);
    BaseIsPower(n);
  }

  // ----- The store -----

  // The order in which due rows are taken: oldest first, then by id.
  function Older(t: Table): (nat, nat) -> bool {
    (id: nat, other: nat) =>
      id in t && other in t
      && (t[id].createdAt < t[other].createdAt || (t[id].createdAt == t[other].createdAt && id <= other))
  }

  // Every other one was created later, or at the same time under a larger id.
  ghost predicate IsOldest(t: Table, ids: set<nat>, id: nat) {
    id in t && forall other :: other in ids && other != id ==>
                                 other in t && (t[id].createdAt < t[other].createdAt
                                                || (t[id].createdAt == t[other].createdAt && id < other))
  }

  lemma DueAreOrdered(t: Table, ids: set<nat>)
    requires ids <= t.Keys
    ensures IsOrder(ids, Older(t))
  {
  }

  function DueIds(t: Table, gateway: string, now: int): set<nat> {
    set id | id in t && Due(t[id], gateway, now)
  }

  // A row whose claim has been completed: applied, or dead at the limit, or failed and due for a retry within a
  // fifth of the delay for its attempts.
  predicate Completed(before: Row, after: Row, account: string, verdict: Verdict, maxAttempts: int, now: int) {
    && after.note == before.note && after.attempts == before.attempts && after.createdAt == before.createdAt
    && after.token.None? && after.claimedUntil.None?
    && after.account == (if account == "" then before.account else account)
    && (verdict.Success? ==> after.status.Applied? && after.lastError == "" && after.availableAt == before.availableAt)
    && (verdict.Failure? ==> after.lastError == Bounded(verdict.error))
    && (verdict.Failure? && before.attempts >= maxAttempts ==> after.status.Dead? && after.availableAt == now)
    && (verdict.Failure? && before.attempts < maxAttempts ==>
          after.status.Failed?
          && (verdict.jitter.None? || verdict.jitter.value <= 400 ==> WithinFifth(after.availableAt - now, after.attempts)))
  }

  lemma ResolvedIsCompleted(row: Row, account: string, verdict: Verdict, maxAttempts: nat, now: int)
    ensures Completed(row, Resolved(row, account, verdict, maxAttempts, now), account, verdict, maxAttempts, now)
  {
    if verdict.Failure? && (verdict.jitter.Some? ==> verdict.jitter.value <= 400) {
      DelayIsWithin(row.attempts, verdict.jitter);
    }
  }

  datatype Error = ClaimLost | BadArgument

  class InboundStore {
    var rows: Table
    var nextId: nat
    var nextToken: nat

    ghost predicate Valid()
      reads this
    {
      Unique(rows) && forall id :: id in rows ==> id < nextId
    }

    constructor ()
      ensures Valid() && rows == map[] && nextId == 0 && nextToken == 0
    {
      rows, nextId, nextToken := map[], 0, 0;
    }

    /** Inserts the notification as claimed, or hands back the row that is already there. */
    method ClaimInbound(n: Notification, account: string, now: int) returns (id: nat, owned: bool)
      requires Valid()
      modifies this
      ensures Valid() && nextToken == old(nextToken) + 1
      ensures owned <==> forall other :: other in old(rows) ==> IdentityOf(old(rows)[other].note) != IdentityOf(n)
      ensures owned ==> id == old(nextId) && nextId == id + 1
                        && rows == old(rows)[id := Inserted(n, account, old(nextToken), now)]
                        && rows[id] == Row(n, account, Processing, 1, Some(old(nextToken)), Some(now + 30_000_000_000), now, now, "")
      ensures !owned ==> rows == old(rows) && nextId == old(nextId)
                         && id in rows && IdentityOf(rows[id].note) == IdentityOf(n)
    {
      ConflictIsFoundOnce(rows, n);
      var token := nextToken;
      nextToken := nextToken + 1;
      if exists other | other in rows :: CollidesOnProvider(rows[other].note, n) || CollidesOnPayload(rows[other].note, n) {
        id :| id in rows && LooksUp(n, rows[id].note);
        return id, false;
      }
      assert !Conflicts(rows, n);
      forall other | other in rows
        ensures IdentityOf(rows[other].note) != IdentityOf(n)
      {
        assert !CollidesOnProvider(rows[other].note, n) && !CollidesOnPayload(rows[other].note, n);
      }
      id := nextId;
      nextId := nextId + 1;
      rows := rows[id := Inserted(n, account, token, now)];
      return id, true;
    }

    method CompleteInbound(id: nat, token: nat, account: string, verdict: Verdict, maxAttempts: int, now: int)
      returns (error: Option<Error>)
      modifies this`rows
      ensures maxAttempts < 1 ==> error == Some(BadArgument) && rows == old(rows)
      ensures maxAttempts >= 1 ==> rows == Complete(old(rows), id, token, account, verdict, maxAttempts, now)
      ensures maxAttempts >= 1 ==> error == if Holds(old(rows), id, token) then None else Some(ClaimLost)
      ensures maxAttempts >= 1 ==>
                if id in old(rows) && old(rows)[id].status.Processing? && old(rows)[id].token == Some(token) then
                  id in rows && rows == old(rows)[id := rows[id]]
                  && Completed(old(rows)[id], rows[id], account, verdict, maxAttempts, now)
                else rows == old(rows)
    {
      if maxAttempts < 1 {
        return Some(BadArgument);
      }
      if !(id in rows && rows[id].status.Processing? && rows[id].token == Some(token)) {
        return Some(ClaimLost);
      }
      ResolvedIsCompleted(rows[id], account, verdict, maxAttempts, now);
      var row := rows[id].(token := None, claimedUntil := None);
      if account != "" {
        row := row.(account := account);
      }
      match verdict {
        case Success =>
          row := row.(status := Applied, lastError := "");
        case Failure(message, jitter) =>
          var dead := row.attempts >= maxAttempts;
          var retryAt := now;
          if !dead {
            var delay := RetryDelay(row.attempts, jitter);
            retryAt := retryAt + delay;
          }
          row := row.(status := if dead then Dead else Failed, lastError := Bounded(message), availableAt := retryAt);
      }
      rows := rows[id := row];
      return None;
    }

    method FirstOf(due: set<nat>) returns (first: nat)
      requires due != {} && due <= rows.Keys
      ensures IsFirst(due, Older(rows), first) && IsOldest(rows, due, first)
    {
      DueAreOrdered(rows, due);
      FirstIsThere(due, Older(rows));
      first :| first in due && forall other :: other in due ==> Older(rows)(first, other);
    }

    /** Leases the first due row that no other transaction has locked. */
    method ReclaimStuckInbound(gateway: string, leaseSeconds: int, now: int, locked: set<nat>)
      returns (id: Option<nat>, error: Option<Error>)
      modifies this
      ensures error.Some? <==> leaseSeconds < 1 || leaseSeconds > 3600
      ensures error.Some? || DueIds(old(rows), gateway, now) <= locked ==>
                id.None? && rows == old(rows)
      ensures nextId == old(nextId)
      ensures error.None? && !(DueIds(old(rows), gateway, now) <= locked) ==>
                && id.Some? && nextToken == old(nextToken) + 1
                && IsFirst(DueIds(old(rows), gateway, now) - locked, Older(old(rows)), id.value)
                && IsOldest(old(rows), DueIds(old(rows), gateway, now) - locked, id.value)
                && rows == old(rows)[id.value := Leased(old(rows)[id.value], old(nextToken), leaseSeconds, now)]
    {
      if leaseSeconds < 1 || leaseSeconds > 3600 {
        return None, Some(BadArgument);
      }
      var token := nextToken;
      nextToken := nextToken + 1;
      var due := DueIds(rows, gateway, now) - locked;
      if due == {} {
        assert forall d :: d in DueIds(rows, gateway, now) && d !in locked ==> d in due;
        return None, None;
      }
      var first := FirstOf(due);
      var row := rows[first];
      rows := rows[first := row.(status := Processing, attempts := row.attempts + 1, token := Some(token),
                                 claimedUntil := Some(now + leaseSeconds * SECOND))];
      return Some(first), None;
    }
  }

  /** The delay before the next attempt: the exponential base, clamped on both sides, then jittered. */
  method RetryDelay(attempts: int, jitter: Option<nat>) returns (delay: int)
    ensures delay == Delay(attempts, jitter)
  {
    var n := attempts;
    if n < 1 {
      n := 1;
    }
    if n > 8 {
      n := 8;
    }
    var base := Pow2(n - 1) * SECOND;
    if base > 300 * SECOND {
      base := 300 * SECOND;
    }
    match jitter
    case None => return base;
    case Some(j) => return base * (800 + j) / 1000;
  }
}

/**
 The lease protocol over any number of workers, crashes and expired leases. A worker that crashes or
 stalls simply issues no event, or issues its completion late; completions may carry any token.
 */
module InboundProtocol {
  import opened Wrappers
  import opened Inbound
  import opened Leases

  datatype Event =
    | Ingest(note: Notification, account: string, now: int)
    | Reclaim(id: nat, gateway: string, leaseSeconds: nat, now: int)
    | Finish(id: nat, token: nat, account: string, verdict: Verdict, now: int)

  // Token n is the one drawn for the n-th claim, so `claims[n]` is the row it was drawn for. `done`
  // lists the tokens whose completion took effect, `failures` counts the failed ones per row.
  datatype State = State(table: Table, nextId: nat, claims: seq<nat>, done: seq<nat>, failures: map<nat, nat>)

  const INIT := State(map[], 0, [], [], map[])

  function FailureCount(s: State, id: nat): nat {
    if id in s.failures then s.failures[id] else 0
  }

  function Ingested(s: State, note: Notification, account: string, now: int): State {
    if Conflicts(s.table, note) then s
    else s.(table := s.table[s.nextId := Inserted(note, account, |s.claims|, now)],
            nextId := s.nextId + 1,
            claims := s.claims + [s.nextId])
  }

  function Reclaimed(s: State, id: nat, gateway: string, leaseSeconds: nat, now: int): State {
    if id in s.table && Due(s.table[id], gateway, now) then
      s.(table := s.table[id := Leased(s.table[id], |s.claims|, leaseSeconds, now)], claims := s.claims + [id])
    else s
  }

  function Finished(s: State, id: nat, token: nat, account: string, verdict: Verdict, max: nat, now: int): State {
    if Holds(s.table, id, token) then
      s.(table := Complete(s.table, id, token, account, verdict, max, now),
         done := s.done + [token],
         failures := if verdict.Failure? then s.failures[id := FailureCount(s, id) + 1] else s.failures)
    else s
  }

  function Step(s: State, e: Event, max: nat): State {
    match e
    case Ingest(note, account, now) => Ingested(s, note, account, now)
    case Reclaim(id, gateway, leaseSeconds, now) => Reclaimed(s, id, gateway, leaseSeconds, now)
    case Finish(id, token, account, verdict, now) => Finished(s, id, token, account, verdict, max, now)
  }

  function Exec(events: seq<Event>, max: nat): State {
    if events == [] then INIT else Step(Exec(events[..|events| - 1], max), events[|events| - 1], max)
  }

  predicate Terminal(status: Status) {
    status.Applied? || status.Dead?
  }

  // Every row has been claimed, by its insert.
  ghost predicate Fenced(s: State, id: nat)
    requires id in s.table
  {
    var row, latest := s.table[id], Latest(s.claims, id);
    latest.Some? && IsFenced(row.status.Processing?, row.token, row.claimedUntil, latest, s.done)
  }

  // Each recorded failure used up an attempt of its own, and none was recorded after the last allowed.
  ghost predicate WithinBudget(s: State, id: nat, max: nat)
    requires id in s.table
  {
    var row := s.table[id];
    var failures := FailureCount(s, id);
    match row.status
    case Processing => failures < row.attempts && failures < max
    case Failed => failures <= row.attempts < max
    case Dead => failures <= max && row.attempts >= max
    case Pending => failures <= row.attempts && failures < max
    case Applied => failures < max
  }

  ghost predicate Inv(s: State, max: nat) {
    && (forall id :: id in s.table ==> id < s.nextId && Fenced(s, id) && WithinBudget(s, id, max))
    && (forall id :: id in s.failures ==> id in s.table)
    && AreKept(s.claims, s.done, s.table.Keys)
  }

  lemma IngestKeepsInv(s: State, note: Notification, account: string, now: int, max: nat)
    requires Inv(s, max) && max >= 1
    ensures Inv(Ingested(s, note, account, now), max)
  {
    if !Conflicts(s.table, note) {
      var s' := Ingested(s, note, account, now);
      LatestAfterClaim(s.claims, s.nextId, s.nextId);
      assert s.nextId !in s.failures && |s.claims| !in s.done;
      forall id | id in s.table
        ensures Fenced(s', id) && WithinBudget(s', id, max)
      {
        LatestAfterClaim(s.claims, s.nextId, id);
        assert Fenced(s, id) && WithinBudget(s, id, max);
      }
      assert Fenced(s', s.nextId) && WithinBudget(s', s.nextId, max);
    }
  }

  lemma ReclaimKeepsInv(s: State, id: nat, gateway: string, leaseSeconds: nat, now: int, max: nat)
    requires Inv(s, max)
    ensures Inv(Reclaimed(s, id, gateway, leaseSeconds, now), max)
  {
    var s' := Reclaimed(s, id, gateway, leaseSeconds, now);
    if id in s.table && Due(s.table[id], gateway, now) {
      forall other | other in s'.table
        ensures Fenced(s', other) && WithinBudget(s', other, max)
      {
        ReclaimKeepsRow(s, id, gateway, leaseSeconds, now, max, other);
      }
    }
  }

  lemma ReclaimKeepsRow(s: State, id: nat, gateway: string, leaseSeconds: nat, now: int, max: nat, other: nat)
    requires Inv(s, max) && id in s.table && Due(s.table[id], gateway, now) && other in s.table
    ensures var s' := Reclaimed(s, id, gateway, leaseSeconds, now);
            other in s'.table && Fenced(s', other) && WithinBudget(s', other, max)
  {
    LatestAfterClaim(s.claims, id, other);
    assert Fenced(s, other) && WithinBudget(s, other, max);
  }

  // A completion hands the row's token in and records at most one failure.
  lemma SettledKeepsInv(s: State, s': State, id: nat, row: Row, failed: bool, max: nat)
    requires Inv(s, max) && id in s.table && s.table[id].status.Processing? && s.table[id].token.Some?
    requires s'.table == s.table[id := row] && s'.nextId == s.nextId && s'.claims == s.claims
    requires s'.done == s.done + [s.table[id].token.value]
    requires s'.failures == if failed then s.failures[id := FailureCount(s, id) + 1] else s.failures
    requires row.token.None? && row.claimedUntil.None? && row.attempts == s.table[id].attempts
    requires row.status == if !failed then Applied else if row.attempts >= max then Dead else Failed
    ensures Inv(s', max)
  {
    assert Fenced(s, id) && WithinBudget(s, id, max);
    forall other | other in s'.table
      ensures Fenced(s', other) && WithinBudget(s', other, max)
    {
      assert Fenced(s, other) && WithinBudget(s, other, max);
      assert other != id ==> s.claims[Latest(s.claims, other).value] != s.claims[s.table[id].token.value];
    }
  }

  lemma ResolvedRow(row: Row, account: string, verdict: Verdict, max: nat, now: int)
    ensures var row' := Resolved(row, account, verdict, max, now);
            && row'.token.None? && row'.claimedUntil.None? && row'.attempts == row.attempts
            && row'.status == if verdict.Success? then Applied else if row.attempts >= max then Dead else Failed
  {
  }

  lemma FinishKeepsInv(s: State, id: nat, token: nat, account: string, verdict: Verdict, now: int, max: nat)
    requires Inv(s, max)
    ensures Inv(Finished(s, id, token, account, verdict, max, now), max)
  {
    if Holds(s.table, id, token) {
      ResolvedRow(s.table[id], account, verdict, max, now);
      SettledKeepsInv(s, Finished(s, id, token, account, verdict, max, now), id,
                      Resolved(s.table[id], account, verdict, max, now), verdict.Failure?, max);
    }
  }

  lemma StepKeepsInv(s: State, e: Event, max: nat)
    requires Inv(s, max) && max >= 1
    ensures Inv(Step(s, e, max), max)
  {
    match e
    case Ingest(note, account, now) => IngestKeepsInv(s, note, account, now, max);
    case Reclaim(id, gateway, leaseSeconds, now) => ReclaimKeepsInv(s, id, gateway, leaseSeconds, now, max);
    case Finish(id, token, account, verdict, now) => FinishKeepsInv(s, id, token, account, verdict, now, max);
  }

  lemma {:induction false} ExecKeepsInv(events: seq<Event>, max: nat)
    requires max >= 1
    ensures Inv(Exec(events, max), max)
  {
    if events != [] {
      ExecKeepsInv(events[..|events| - 1], max);
      StepKeepsInv(Exec(events[..|events| - 1], max), events[|events| - 1], max);
    }
  }

  /** Fencing: in every reachable state a completion takes effect if and only if it carries the token of
      the row's latest claim and that claim has not completed before; otherwise nothing changes. */
  lemma CompletionTakesEffectIff(events: seq<Event>, max: nat, id: nat, token: nat, account: string, verdict: Verdict, now: int)
    requires max >= 1
    ensures var s := Exec(events, max);
            var s' := Step(s, Finish(id, token, account, verdict, now), max);
            && (s'.table != s.table <==> Latest(s.claims, id) == Some(token) && token !in s.done)
            && (s'.table == s.table ==> s' == s)
            && (s'.table != s.table ==> s'.table - {id} == s.table - {id} && s'.done == s.done + [token])
  {
    ExecKeepsInv(events, max);
    var s := Exec(events, max);
    if id in s.table {
      assert Fenced(s, id);
      if Holds(s.table, id, token) {
        assert Resolved(s.table[id], account, verdict, max, now).token.None?;
        assert Step(s, Finish(id, token, account, verdict, now), max).table[id].token != s.table[id].token;
      }
    }
  }

  /** Each claim completes at most once. */
  lemma ClaimsCompleteOnce(events: seq<Event>, max: nat, m: nat, n: nat)
    requires max >= 1 && m < n < |Exec(events, max).done|
    ensures Exec(events, max).done[m] != Exec(events, max).done[n]
  {
    ExecKeepsInv(events, max);
  }

  /** In every reachable state a row is in progress exactly while it holds a token and a deadline, no row
      has recorded more than `max` failures, and the two failure statuses tell on which side of `max`
      the attempts are. */
  lemma FailuresAreBounded(events: seq<Event>, max: nat, id: nat)
    requires max >= 1 && id in Exec(events, max).table
    ensures var s := Exec(events, max);
            var row := s.table[id];
            && FailureCount(s, id) <= max
            && (row.status.Failed? ==> row.attempts < max)
            && (row.status.Dead? ==> row.attempts >= max)
            && (row.status.Processing? <==> row.token.Some?)
            && (row.status.Processing? <==> row.claimedUntil.Some?)
  {
    ExecKeepsInv(events, max);
    assert Fenced(Exec(events, max), id) && WithinBudget(Exec(events, max), id, max);
  }

  lemma StepKeepsTerminal(s: State, e: Event, max: nat, id: nat)
    requires Inv(s, max) && id in s.table && Terminal(s.table[id].status)
    ensures id in Step(s, e, max).table && Step(s, e, max).table[id] == s.table[id]
  {
    assert id < s.nextId;
  }

  /** An applied or dead row is never changed again, by any continuation of any run. */
  lemma {:induction false} TerminalRowsStay(events: seq<Event>, more: seq<Event>, max: nat, id: nat)
    requires max >= 1 && id in Exec(events, max).table && Terminal(Exec(events, max).table[id].status)
    ensures id in Exec(events + more, max).table
    ensures Exec(events + more, max).table[id] == Exec(events, max).table[id]
  {
    if more == [] {
      assert events + more == events;
    } else {
      var init := more[..|more| - 1];
      assert (events + more)[..|events + more| - 1] == events + init;
      TerminalRowsStay(events, init, max, id);
      ExecKeepsInv(events + init, max);
      var s := Exec(events + init, max);
      assert Exec(events + more, max) == Step(s, more[|more| - 1], max);
      StepKeepsTerminal(s, more[|more| - 1], max, id);
    }
  }

  /** No two rows ever stand for the same notification. */
  lemma {:induction false} IdentitiesStayUnique(events: seq<Event>, max: nat)
    requires max >= 1
    ensures Unique(Exec(events, max).table)
  {
    if events != [] {
      var s := Exec(events[..|events| - 1], max);
      IdentitiesStayUnique(events[..|events| - 1], max);
      match events[|events| - 1]
      case Ingest(note, account, now) =>
        ConflictIsFoundOnce(s.table, note);
        NoConflictNoTwin(s.table, note);
      case Reclaim(_, _, _, _) =>
      case Finish(_, _, _, _, _) =>
    }
  }

  lemma NoConflictNoTwin(t: Table, note: Notification)
    ensures Conflicts(t, note) <==> exists id :: id in t && IdentityOf(t[id].note) == IdentityOf(note)
  {
    forall id | id in t
      ensures IdentityOf(t[id].note) == IdentityOf(note)
              <==> CollidesOnProvider(t[id].note, note) || CollidesOnPayload(t[id].note, note)
    {
    }
  }

  // ----- Rows come due again -----

  /** Which rows are due, in every reachable state: one that failed or is pending from its own time on, one in
      progress strictly after its deadline, and an applied or dead one never; each for its own gateway only.
      So a row that is neither applied nor dead is due from some time on. A reclaim leases exactly a due row. */
  lemma DueExactly(events: seq<Event>, max: nat, id: nat, gateway: string, leaseSeconds: nat, now: int)
    requires max >= 1 && id in Exec(events, max).table
    ensures var s := Exec(events, max);
            var row, due := s.table[id], id in DueIds(s.table, gateway, now);
            && (row.note.gateway != gateway ==> !due)
            && (row.note.gateway == gateway ==>
                  && (row.status.Pending? || row.status.Failed? ==> (due <==> row.availableAt <= now))
                  && (row.status.Processing? ==> row.claimedUntil.Some? && (due <==> row.claimedUntil.value < now))
                  && (row.status.Applied? || row.status.Dead? ==> !due))
            && Step(s, Reclaim(id, gateway, leaseSeconds, now), max).table
               == (if due then s.table[id := IsLeasedAnew(row, |s.claims|, now + leaseSeconds * 1_000_000_000)] else s.table)
  {
    ExecKeepsInv(events, max);
    assert Fenced(Exec(events, max), id);
  }

  function IsLeasedAnew(row: Row, token: nat, deadline: int): Row {
    Row(row.note, row.account, Processing, row.attempts + 1, Some(token), Some(deadline), row.availableAt, row.createdAt,
        row.lastError)
  }

  predicate IsAbout(e: Event, id: nat) {
    !e.Ingest? && e.id == id
  }

  ghost predicate LeavesAlone(events: seq<Event>, id: nat) {
    forall i :: 0 <= i < |events| ==> !IsAbout(events[i], id)
  }

  lemma OthersLeaveAlone(s: State, e: Event, max: nat, id: nat)
    requires id in s.table && id < s.nextId && !IsAbout(e, id)
    ensures id in Step(s, e, max).table && Step(s, e, max).table[id] == s.table[id]
  {
  }

  lemma {:induction false} RowStays(events: seq<Event>, more: seq<Event>, max: nat, id: nat)
    requires max >= 1 && id in Exec(events, max).table && LeavesAlone(more, id)
    ensures id in Exec(events + more, max).table && Exec(events + more, max).table[id] == Exec(events, max).table[id]
  {
    if more == [] {
      assert events + more == events;
    } else {
      var init, last := more[..|more| - 1], more[|more| - 1];
      assert (events + more)[..|events + more| - 1] == events + init;
      RowStays(events, init, max, id);
      ExecKeepsInv(events + init, max);
      OthersLeaveAlone(Exec(events + init, max), last, max, id);
    }
  }

  /** A recorded failure is retried: below the limit the row is not due before 80% of 2^(n-1) seconds have
      passed, and is due once 120% have, until somebody leases it; at the limit it is dead. */
  lemma FailureIsRetried(
    events: seq<Event>, max: nat, id: nat, token: nat, account: string, error: string, jitter: Option<nat>, at: int,
    more: seq<Event>, now: int)
    requires max >= 1 && (jitter.Some? ==> jitter.value <= 400)
    requires Latest(Exec(events, max).claims, id) == Some(token) && token !in Exec(events, max).done
    requires LeavesAlone(more, id)
    ensures id in Exec(events, max).table
    ensures var n, s := Exec(events, max).table[id].attempts,
                        Exec(events + [Finish(id, token, account, Failure(error, jitter), at)] + more, max);
            && id in s.table
            && var due := id in DueIds(s.table, s.table[id].note.gateway, now);
               var seconds := Pow2(if n < 1 then 0 else if n > 8 then 7 else n - 1);
               && (n >= max ==> s.table[id].status.Dead? && !due)
               && (n < max && 10 * (now - at) < 8 * seconds * 1_000_000_000 ==> !due)
               && (n < max && 10 * (now - at) >= 12 * seconds * 1_000_000_000 ==> due)
  {
    var s, e := Exec(events, max), Finish(id, token, account, Failure(error, jitter), at);
    ExecKeepsInv(events, max);
    LatestIsKnown(s, id);
    assert Fenced(s, id) && WithinBudget(s, id, max);
    assert (events + [e])[..|events|] == events;
    RowStays(events + [e], more, max, id);
    DueExactly(events + [e] + more, max, id, s.table[id].note.gateway, 1, now);
    DelayIsWithin(s.table[id].attempts, jitter);
  }

  lemma LatestIsKnown(s: State, id: nat)
    requires AreKept(s.claims, s.done, s.table.Keys) && Latest(s.claims, id).Some?
    ensures id in s.table
  {
    assert s.claims[Latest(s.claims, id).value] in s.table.Keys;
  }

  /** A notification that is claimed and then forgotten is due again strictly after half a minute. */
  lemma ForgottenIsReclaimed(
    events: seq<Event>, max: nat, note: Notification, account: string, at: int, more: seq<Event>, now: int)
    requires max >= 1 && LeavesAlone(more, Exec(events, max).nextId)
    requires forall id :: id in Exec(events, max).table ==> IdentityOf(Exec(events, max).table[id].note) != IdentityOf(note)
    ensures var id, s := Exec(events, max).nextId, Exec(events + [Ingest(note, account, at)] + more, max);
            && id in s.table && s.table[id].note == note && s.table[id].account == account
            && s.table[id].attempts == 1 && s.table[id].createdAt == at
            && (id in DueIds(s.table, note.gateway, now) <==> now > at + 30 * 1_000_000_000)
  {
    var s, e := Exec(events, max), Ingest(note, account, at);
    NoConflictNoTwin(s.table, note);
    assert (events + [e])[..|events|] == events;
    RowStays(events + [e], more, max, s.nextId);
    DueExactly(events + [e] + more, max, s.nextId, note.gateway, 1, now);
  }
}
