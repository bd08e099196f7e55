/**
 The transactional outbox: `outbound_events`, leased by the deliverer. Time is in unix seconds.
 */
module Outbound {
  import opened Leases
  import opened Wrappers
  import Inbound

  datatype Status = Pending | InFlight | Delivered | Failed | Dead

  // The columns that never change after the insert.
  datatype Event = Event(eventType: string, reference: string, payload: string)

  datatype Row = Row(
    event: Event,
    status: Status,
    attempts: nat,
    maxAttempts: nat,
    nextAttemptAt: int,
    token: Option<nat>,
    claimedUntil: Option<int>,
    lastError: string,
    created: int)

  type Table = map<string, Row>

  function Queued(event: Event, maxAttempts: int, nextAttemptAt: int, created: int): Row {
    Row(event, Pending, 0, if maxAttempts <= 0 then 5 else maxAttempts, nextAttemptAt, None, None, "", created)
  }

  // A pending row is due whatever its next_attempt_at says.
  predicate Due(row: Row, now: int) {
    || row.status.Pending?
    || (row.status.Failed? && row.nextAttemptAt <= now)
    || (row.status.InFlight? && row.claimedUntil.Some? && row.claimedUntil.value < now)
  }

  function Leased(row: Row, token: nat, leaseSeconds: nat, now: int): Row {
    row.(status := InFlight, attempts := row.attempts + 1, token := Some(token), claimedUntil := Some(now + leaseSeconds))
  }

  predicate Holds(t: Table, id: string, token: nat) {
    id in t && t[id].status.InFlight? && t[id].token == Some(token)
  }

  datatype Verdict = Success | Failure(error: string, nextAttempt: int)

  function Resolved(row: Row, verdict: Verdict, maxAttempts: nat, now: int): Row {
    var row := row.(token := None, claimedUntil := None);
    match verdict
    case Success => row.(status := Delivered, lastError := "", nextAttemptAt := now)
    case Failure(error, nextAttempt) =>
      row.(status := if row.attempts >= maxAttempts then Dead else Failed,
           lastError := Inbound.Bounded(error), nextAttemptAt := nextAttempt)
  }

  function Complete(t: Table, id: string, token: nat, verdict: Verdict, maxAttempts: nat, now: int): Table {
    if Holds(t, id, token) then t[id := Resolved(t[id], verdict, maxAttempts, now)] else t
  }

  predicate Replayable(t: Table, id: string) {
    id in t && (t[id].status.Delivered? || t[id].status.Failed?)
  }

  function Replay(t: Table, id: string, now: int): Table {
    if Replayable(t, id) then
      t[id := t[id].(status := Pending, nextAttemptAt := now, token := None, claimedUntil := None)]
    else t
  }

  // ----- The store -----

  // Due rows are taken by next_attempt_at, then by creation; ties are broken arbitrarily.
  function Earlier(t: Table): (string, string) -> bool {
    (id: string, other: string) =>
      id in t && other in t
      && (t[id].nextAttemptAt < t[other].nextAttemptAt
          || (t[id].nextAttemptAt == t[other].nextAttemptAt && t[id].created <= t[other].created))
  }

  // No other one has its next attempt earlier, or at the same time and was created earlier.
  ghost predicate IsEarliest(t: Table, ids: set<string>, id: string) {
    id in t && forall other :: other in ids ==>
                                 other in t && (t[id].nextAttemptAt < t[other].nextAttemptAt
                                                || (t[id].nextAttemptAt == t[other].nextAttemptAt && t[id].created <= t[other].created))
  }

  lemma DueAreOrdered(t: Table, ids: set<string>)
    requires ids <= t.Keys
    ensures IsOrder(ids, Earlier(t))
  {
  }

  function DueIds(t: Table, now: int): set<string> {
    set id | id in t && Due(t[id], now)
  }

  // A row whose claim has been completed: delivered, or dead at the limit, or failed until its next attempt.
  predicate Completed(before: Row, after: Row, verdict: Verdict, maxAttempts: int, now: int) {
    && after.event == before.event && after.attempts == before.attempts && after.maxAttempts == before.maxAttempts
    && after.created == before.created && after.token.None? && after.claimedUntil.None?
    && (verdict.Success? ==> after.status.Delivered? && after.lastError == "" && after.nextAttemptAt == now)
    && (verdict.Failure? ==> after.lastError == Inbound.Bounded(verdict.error) && after.nextAttemptAt == verdict.nextAttempt)
    && (verdict.Failure? ==> after.status == if before.attempts >= maxAttempts then Dead else Failed)
  }

  datatype Error = ClaimLost | BadArgument | NotFound

  class OutboundStore {
    var rows: Table
    var nextToken: nat

    constructor ()
      ensures rows == map[] && nextToken == 0
    {
      rows, nextToken := map[], 0;
    }

    // Inserting is idempotent on the event id.
    method EnqueueOutbound(id: string, event: Event, maxAttempts: int, nextAttemptAt: Option<int>, created: int, now: int)
      modifies this`rows
      ensures rows == if id in old(rows) then old(rows)
                      else old(rows)[id := Row(event, Pending, 0, if maxAttempts <= 0 then 5 else maxAttempts,
                                               if nextAttemptAt.Some? then nextAttemptAt.value else now, None, None, "",
                                               created)]
    {
      var max := maxAttempts;
      if max <= 0 {
        max := 5;
      }
      var next := now;
      if nextAttemptAt.Some? {
        next := nextAttemptAt.value;
      }
      if id !in rows {
        rows := rows[id := Row(event, Pending, 0, max, next, None, None, "", created)];
      }
    }

    method FirstOf(due: set<string>) returns (first: string)
      requires due != {} && due <= rows.Keys
      ensures IsFirst(due, Earlier(rows), first) && IsEarliest(rows, due, first)
    {
      DueAreOrdered(rows, due);
      FirstIsThere(due, Earlier(rows));
      first :| first in due && forall other :: other in due ==> Earlier(rows)(first, other);
    }

    /** Leases the first due row that no other transaction has locked. */
    method LeaseDueOutbound(leaseSeconds: int, now: int, locked: set<string>)
      returns (id: Option<string>, error: Option<Error>)
      modifies this
      ensures error.Some? <==> leaseSeconds < 1 || leaseSeconds > 3600
      ensures error.Some? || DueIds(old(rows), now) <= locked ==> id.None? && rows == old(rows)
      ensures error.None? && !(DueIds(old(rows), now) <= locked) ==>
                && id.Some? && nextToken == old(nextToken) + 1
                && IsFirst(DueIds(old(rows), now) - locked, Earlier(old(rows)), id.value)
                && IsEarliest(old(rows), DueIds(old(rows), now) - locked, id.value)
                && rows == old(rows)[id.value := Leased(old(rows)[id.value], old(nextToken), leaseSeconds, now)]
    {
      if leaseSeconds < 1 || leaseSeconds > 3600 {
        return None, Some(BadArgument);
      }
      var token := nextToken;
      nextToken := nextToken + 1;
      var due := DueIds(rows, now) - locked;
      if due == {} {
        assert forall d :: d in DueIds(rows, now) && d !in locked ==> d in due;
        return None, None;
      }
      var first := FirstOf(due);
      var row := rows[first];
      rows := rows[first := row.(status := InFlight, attempts := row.attempts + 1, token := Some(token),
                                 claimedUntil := Some(now + leaseSeconds))];
      return Some(first), None;
    }

    method CompleteOutbound(id: string, token: nat, verdict: Verdict, maxAttempts: int, now: int)
      returns (error: Option<Error>)
      modifies this`rows
      ensures maxAttempts < 1 ==> error == Some(BadArgument) && rows == old(rows)
      ensures maxAttempts >= 1 ==> rows == Complete(old(rows), id, token, verdict, maxAttempts, now)
      ensures maxAttempts >= 1 ==> error == if Holds(old(rows), id, token) then None else Some(ClaimLost)
      ensures maxAttempts >= 1 ==>
                if id in old(rows) && old(rows)[id].status.InFlight? && old(rows)[id].token == Some(token) then
                  id in rows && rows == old(rows)[id := rows[id]] && Completed(old(rows)[id], rows[id], verdict, maxAttempts, now)
                else rows == old(rows)
    {
      if maxAttempts < 1 {
        return Some(BadArgument);
      }
      if !(id in rows && rows[id].token == Some(token) && rows[id].status.InFlight?) {
        return Some(ClaimLost);
      }
      var row := rows[id].(token := None, claimedUntil := None);
      match verdict {
        case Success =>
          row := row.(status := Delivered, lastError := "", nextAttemptAt := now);
        case Failure(message, nextAttempt) =>
          var dead := row.attempts >= maxAttempts;
          row := row.(status := if dead then Dead else Failed, lastError := Inbound.Bounded(message), nextAttemptAt := nextAttempt);
      }
      rows := rows[id := row];
      return None;
    }

    method ReplayOutbound(id: string, now: int) returns (error: Option<Error>)
      modifies this`rows
      ensures rows == Replay(old(rows), id, now)
      ensures id in old(rows) && (old(rows)[id].status.Delivered? || old(rows)[id].status.Failed?) ==>
                var row := old(rows)[id];
                rows == old(rows)[id := Row(row.event, Pending, row.attempts, row.maxAttempts, now, None, None, row.lastError,
                                            row.created)]
      ensures error == if Replayable(old(rows), id) then None else Some(NotFound)
    {
      if !(id in rows && (rows[id].status.Delivered? || rows[id].status.Failed?)) {
        return Some(NotFound);
      }
      rows := rows[id := rows[id].(status := Pending, nextAttemptAt := now, token := None, claimedUntil := None)];
      return None;
    }
  }
}

/** The outbox lease over any number of deliverers, crashes, expired leases and manual replays. */
module OutboundProtocol {
  import opened Wrappers
  import opened Leases
  import O = Outbound

  datatype Event =
    | Enqueue(id: string, event: O.Event, maxAttempts: int, nextAttemptAt: int, created: int)
    | Lease(id: string, leaseSeconds: nat, now: int)
    | Finish(id: string, token: nat, verdict: O.Verdict, now: int)
    | Replay(id: string, now: int)

  datatype State = State(table: O.Table, claims: seq<string>, done: seq<nat>, failures: map<string, nat>)

  const INIT := State(map[], [], [], map[])

  function FailureCount(s: State, id: string): nat {
    if id in s.failures then s.failures[id] else 0
  }

  function Enqueued(s: State, id: string, event: O.Event, maxAttempts: int, next: int, created: int): State {
    if id in s.table then s else s.(table := s.table[id := O.Queued(event, maxAttempts, next, created)])
  }

  function Claimed(s: State, id: string, leaseSeconds: nat, now: int): State {
    if id in s.table && O.Due(s.table[id], now) then
      s.(table := s.table[id := O.Leased(s.table[id], |s.claims|, leaseSeconds, now)], claims := s.claims + [id])
    else s
  }

  // The deliverer passes the row's own limit.
  function Finished(s: State, id: string, token: nat, verdict: O.Verdict, now: int): State {
    if O.Holds(s.table, id, token) then
      s.(table := O.Complete(s.table, id, token, verdict, s.table[id].maxAttempts, now),
         done := s.done + [token],
         failures := if verdict.Failure? then s.failures[id := FailureCount(s, id) + 1] else s.failures)
    else s
  }

  function Step(s: State, e: Event): State {
    match e
    case Enqueue(id, event, maxAttempts, next, created) => Enqueued(s, id, event, maxAttempts, next, created)
    case Lease(id, leaseSeconds, now) => Claimed(s, id, leaseSeconds, now)
    case Finish(id, token, verdict, now) => Finished(s, id, token, verdict, now)
    case Replay(id, now) => s.(table := O.Replay(s.table, id, now))
  }

  function Exec(events: seq<Event>): State {
    if events == [] then INIT else Step(Exec(events[..|events| - 1]), events[|events| - 1])
  }

  ghost predicate Fenced(s: State, id: string)
    requires id in s.table
  {
    var row := s.table[id];
    IsFenced(row.status.InFlight?, row.token, row.claimedUntil, Latest(s.claims, id), s.done)
  }

  ghost predicate WithinBudget(s: State, id: string)
    requires id in s.table
  {
    var row := s.table[id];
    var failures := FailureCount(s, id);
    && row.maxAttempts >= 1
    && match row.status
       case Pending => failures <= row.attempts && failures < row.maxAttempts
       case InFlight => failures < row.attempts && failures < row.maxAttempts
       case Delivered => failures <= row.attempts && failures < row.maxAttempts
       case Failed => failures <= row.attempts < row.maxAttempts
       case Dead => failures <= row.maxAttempts <= row.attempts
  }

  ghost predicate Inv(s: State) {
    && (forall id :: id in s.table ==> Fenced(s, id) && WithinBudget(s, id))
    && (forall id :: id in s.failures ==> id in s.table)
    && AreKept(s.claims, s.done, s.table.Keys)
  }

  lemma EnqueueKeepsInv(s: State, id: string, event: O.Event, maxAttempts: int, next: int, created: int)
    requires Inv(s)
    ensures Inv(Enqueued(s, id, event, maxAttempts, next, created))
  {
    if id !in s.table {
      var s' := Enqueued(s, id, event, maxAttempts, next, created);
      assert Latest(s.claims, id).None?;
      forall other | other in s.table
        ensures Fenced(s', other) && WithinBudget(s', other)
      {
        assert Fenced(s, other) && WithinBudget(s, other);
      }
      assert Fenced(s', id) && WithinBudget(s', id);
    }
  }

  lemma LeaseKeepsInv(s: State, id: string, leaseSeconds: nat, now: int)
    requires Inv(s)
    ensures Inv(Claimed(s, id, leaseSeconds, now))
  {
    var s' := Claimed(s, id, leaseSeconds, now);
    if id in s.table && O.Due(s.table[id], now) {
      forall other | other in s'.table
        ensures Fenced(s', other) && WithinBudget(s', other)
      {
        LatestAfterClaim(s.claims, id, other);
        assert Fenced(s, other) && WithinBudget(s, other);
      }
    }
  }

  // A completion hands the row's token in and records at most one failure.
  lemma SettledKeepsInv(s: State, s': State, id: string, row: O.Row, failed: bool)
    requires Inv(s) && id in s.table && s.table[id].status.InFlight? && s.table[id].token.Some?
    requires s'.table == s.table[id := row] && s'.claims == s.claims
    requires s'.done == s.done + [s.table[id].token.value]
    requires s'.failures == if failed then s.failures[id := FailureCount(s, id) + 1] else s.failures
    requires row.token.None? && row.claimedUntil.None?
    requires row.attempts == s.table[id].attempts && row.maxAttempts == s.table[id].maxAttempts
    requires row.status == if !failed then O.Delivered else if row.attempts >= row.maxAttempts then O.Dead else O.Failed
    ensures Inv(s')
  {
    assert Fenced(s, id) && WithinBudget(s, id);
    forall other | other in s'.table
      ensures Fenced(s', other) && WithinBudget(s', other)
    {
      assert Fenced(s, other) && WithinBudget(s, other);
      assert other != id && Latest(s.claims, other).Some? ==>
          s.claims[Latest(s.claims, other).value] != s.claims[s.table[id].token.value];
    }
  }

  lemma FinishKeepsInv(s: State, id: string, token: nat, verdict: O.Verdict, now: int)
    requires Inv(s)
    ensures Inv(Finished(s, id, token, verdict, now))
  {
    if O.Holds(s.table, id, token) {
      var s' := Finished(s, id, token, verdict, now);
      SettledKeepsInv(s, s', id, s'.table[id], verdict.Failure?);
    }
  }

  lemma ReplayKeepsInv(s: State, id: string, now: int)
    requires Inv(s)
    ensures Inv(s.(table := O.Replay(s.table, id, now)))
  {
    var s' := s.(table := O.Replay(s.table, id, now));
    forall other | other in s'.table
      ensures Fenced(s', other) && WithinBudget(s', other)
    {
      assert Fenced(s, other) && WithinBudget(s, other);
    }
  }

  lemma StepKeepsInv(s: State, e: Event)
    requires Inv(s)
    ensures Inv(Step(s, e))
  {
    match e
    case Enqueue(id, event, maxAttempts, next, created) => EnqueueKeepsInv(s, id, event, maxAttempts, next, created);
    case Lease(id, leaseSeconds, now) => LeaseKeepsInv(s, id, leaseSeconds, now);
    case Finish(id, token, verdict, now) => FinishKeepsInv(s, id, token, verdict, now);
    case Replay(id, now) => ReplayKeepsInv(s, id, now);
  }

  lemma {:induction false} ExecKeepsInv(events: seq<Event>)
    ensures Inv(Exec(events))
  {
    if events != [] {
      ExecKeepsInv(events[..|events| - 1]);
      StepKeepsInv(Exec(events[..|events| - 1]), events[|events| - 1]);
    }
  }

  /** Fencing, with replays: a completion takes effect if and only if it carries the token of the row's
      latest claim and that claim has not completed before; otherwise nothing changes. */
  lemma CompletionTakesEffectIff(events: seq<Event>, id: string, token: nat, verdict: O.Verdict, now: int)
    ensures var s := Exec(events);
            var s' := Step(s, Finish(id, token, verdict, now));
            && (s'.table != s.table <==> Latest(s.claims, id) == Some(token) && token !in s.done)
            && (s'.table == s.table ==> s' == s)
            && (s'.table != s.table ==> s'.table - {id} == s.table - {id} && s'.done == s.done + [token])
  {
    ExecKeepsInv(events);
    var s := Exec(events);
    if id in s.table {
      assert Fenced(s, id);
      if O.Holds(s.table, id, token) {
        assert Step(s, Finish(id, token, verdict, now)).table[id].token != s.table[id].token;
      }
    } else {
      assert Latest(s.claims, id).None?;
    }
  }

  /** Each claim completes at most once. */
  lemma ClaimsCompleteOnce(events: seq<Event>, m: nat, n: nat)
    requires m < n < |Exec(events).done|
    ensures Exec(events).done[m] != Exec(events).done[n]
  {
    ExecKeepsInv(events);
  }

  /** Whatever crashes and replays happen, a row records at most its own limit of failed deliveries; it is
      dead only once its attempts reach the limit and merely failed only below it; and it holds a token
      and a deadline exactly while it is in flight. */
  lemma FailuresAreBounded(events: seq<Event>, id: string)
    requires id in Exec(events).table
    ensures var s := Exec(events);
            var row := s.table[id];
            && FailureCount(s, id) <= row.maxAttempts
            && (row.status.Failed? ==> row.attempts < row.maxAttempts)
            && (row.status.Dead? ==> row.attempts >= row.maxAttempts)
            && (row.status.InFlight? <==> row.token.Some?)
            && (row.status.InFlight? <==> row.claimedUntil.Some?)
  {
    ExecKeepsInv(events);
    assert Fenced(Exec(events), id) && WithinBudget(Exec(events), id);
  }

  /** A dead row is never changed again. */
  lemma {:induction false} DeadRowsStay(events: seq<Event>, more: seq<Event>, id: string)
    requires id in Exec(events).table && Exec(events).table[id].status.Dead?
    ensures id in Exec(events + more).table
    ensures Exec(events + more).table[id] == Exec(events).table[id]
  {
    if more == [] {
      assert events + more == events;
    } else {
      var init := more[..|more| - 1];
      assert (events + more)[..|events + more| - 1] == events + init;
      DeadRowsStay(events, init, id);
    }
  }

  lemma StepKeepsHeldRow(s: State, e: Event, id: string, token: nat)
    requires id in Step(s, e).table && Step(s, e).table[id].token == Some(token) && token < |s.claims|
    ensures id in s.table && s.table[id] == Step(s, e).table[id]
    ensures |s.claims| <= |Step(s, e).claims|
  {
  }

  lemma {:induction false} ClaimsGrow(events: seq<Event>, more: seq<Event>)
    ensures |Exec(events).claims| <= |Exec(events + more).claims|
  {
    if more == [] {
      assert events + more == events;
    } else {
      assert (events + more)[..|events + more| - 1] == events + more[..|more| - 1];
      ClaimsGrow(events, more[..|more| - 1]);
    }
  }

  /** A completion reads the attempts in one statement and writes in another. If the second one still
      finds the token, the row it finds is the very row the first one read, whatever ran in between. */
  lemma {:induction false} TokenPinsRow(events: seq<Event>, more: seq<Event>, id: string, token: nat)
    requires id in Exec(events).table && Exec(events).table[id].token == Some(token)
    requires id in Exec(events + more).table && Exec(events + more).table[id].token == Some(token)
    ensures Exec(events + more).table[id] == Exec(events).table[id]
  {
    if more == [] {
      assert events + more == events;
    } else {
      var init := more[..|more| - 1];
      assert (events + more)[..|events + more| - 1] == events + init;
      ExecKeepsInv(events);
      assert Fenced(Exec(events), id);
      ClaimsGrow(events, init);
      StepKeepsHeldRow(Exec(events + init), more[|more| - 1], id, token);
      TokenPinsRow(events, init, id, token);
    }
  }

  // ----- Rows come due again -----

  /** Which rows are due, in every reachable state: a pending one at once, one that failed from its own time
      on, one in flight strictly after its deadline, and a delivered or dead one never. A lease takes exactly
      a due row. */
  lemma DueExactly(events: seq<Event>, id: string, leaseSeconds: nat, now: int)
    requires id in Exec(events).table
    ensures var s := Exec(events);
            var row, due := s.table[id], id in O.DueIds(s.table, now);
            && (row.status.Pending? ==> due)
            && (row.status.Failed? ==> (due <==> row.nextAttemptAt <= now))
            && (row.status.InFlight? ==> row.claimedUntil.Some? && (due <==> row.claimedUntil.value < now))
            && (row.status.Delivered? || row.status.Dead? ==> !due)
            && Step(s, Lease(id, leaseSeconds, now)).table
               == (if due then s.table[id := LeasedAnew(row, |s.claims|, now + leaseSeconds)] else s.table)
  {
    ExecKeepsInv(events);
    assert Fenced(Exec(events), id);
  }

  function LeasedAnew(row: O.Row, token: nat, deadline: int): O.Row {
    O.Row(row.event, O.InFlight, row.attempts + 1, row.maxAttempts, row.nextAttemptAt, Some(token), Some(deadline),
          row.lastError, row.created)
  }

  ghost predicate LeavesAlone(events: seq<Event>, id: string) {
    forall i :: 0 <= i < |events| ==> events[i].Enqueue? || events[i].id != id
  }

  lemma {:induction false} RowStays(events: seq<Event>, more: seq<Event>, id: string)
    requires id in Exec(events).table && LeavesAlone(more, id)
    ensures id in Exec(events + more).table && Exec(events + more).table[id] == Exec(events).table[id]
  {
    if more == [] {
      assert events + more == events;
    } else {
      var init := more[..|more| - 1];
      assert (events + more)[..|events + more| - 1] == events + init;
      RowStays(events, init, id);
    }
  }

  /** A recorded failure is retried from the time given for it, until somebody leases or replays the row, or
      the row is dead at its own limit. */
  lemma FailureIsRetried(
    events: seq<Event>, id: string, token: nat, error: string, nextAttempt: int, at: int, more: seq<Event>, now: int)
    requires Latest(Exec(events).claims, id) == Some(token) && token !in Exec(events).done
    requires LeavesAlone(more, id)
    ensures id in Exec(events).table
    ensures var row, s := Exec(events).table[id], Exec(events + [Finish(id, token, O.Failure(error, nextAttempt), at)] + more);
            && id in s.table
            && var due := id in O.DueIds(s.table, now);
               && (row.attempts >= row.maxAttempts ==> s.table[id].status.Dead? && !due)
               && (row.attempts < row.maxAttempts ==> (due <==> nextAttempt <= now))
  {
    var s, e := Exec(events), Finish(id, token, O.Failure(error, nextAttempt), at);
    ExecKeepsInv(events);
    assert s.claims[token] in s.table.Keys;
    assert Fenced(s, id) && WithinBudget(s, id);
    assert (events + [e])[..|events|] == events;
    RowStays(events + [e], more, id);
    DueExactly(events + [e] + more, id, 1, now);
  }

  /** An event that is queued is due at once, under the limit it was given or five, and one that is replayed
      is due again at once, with the attempts it had. */
  lemma QueuedIsDue(events: seq<Event>, id: string, event: O.Event, maxAttempts: int, next: int, created: int, now: int)
    requires id !in Exec(events).table
    ensures var s := Step(Exec(events), Enqueue(id, event, maxAttempts, next, created));
            && id in s.table && id in O.DueIds(s.table, now) && s.table[id].event == event && s.table[id].attempts == 0
            && s.table[id].maxAttempts == (if maxAttempts <= 0 then 5 else maxAttempts)
            && s.table[id].nextAttemptAt == next && s.table[id].created == created
  {
  }

  lemma ReplayedIsDueIff(events: seq<Event>, id: string, at: int, now: int)
    requires id in Exec(events).table
    ensures var row, s := Exec(events).table[id], Step(Exec(events), Replay(id, at));
            && (row.status.Delivered? || row.status.Failed? ==>
                  id in O.DueIds(s.table, now) && s.table[id].attempts == row.attempts && s.table[id].event == row.event)
            && (!row.status.Delivered? && !row.status.Failed? ==> s.table == Exec(events).table)
  {
  }
}
