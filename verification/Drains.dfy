/** The two workers on the durable tables, each draining what is due in one pass. A pass sees one instant. */
module Drains {
  import Dedup
  import opened PaymentEvents
  import opened Leases
  import opened PaymentStores
  import opened Wrappers
  import D = Deliverer
  import I = Inbound
  import O = Outbound

  const LEASE_SECONDS := 30
  const MAX_ATTEMPTS := Dedup.MAX_ATTEMPTS

  // One round: the event posted, whether the merchant accepted it, and whether its completion landed.
  datatype Posting = Posting(id: string, accepted: bool, lands: bool)

  // A row that came out of its round: claimed once more, not due any longer, and with the status that the
  // merchant's answer gives it, or still in flight if its completion was lost. A refused one waits for its
  // next attempt for half a minute, two, ten or thirty minutes, a lost one for its lease to run out. The limit
  // of attempts is the row's own, or else the deliverer's.
  predicate Posted(before: O.Row, after: O.Row, p: Posting, maxAttempts: nat, now: int) {
    && after.attempts == before.attempts + 1 && after.event == before.event && !O.Due(after, now)
    && after.maxAttempts == before.maxAttempts && after.created == before.created
    && after.status == (if !p.lands then O.InFlight
                        else if p.accepted then O.Delivered
                        else if after.attempts >= (if before.maxAttempts > 0 then before.maxAttempts else maxAttempts) then O.Dead
                        else O.Failed)
    && (after.status.Failed? ==> after.nextAttemptAt == now + (if after.attempts == 1 then 30
                                                              else if after.attempts == 2 then 120
                                                              else if after.attempts == 3 then 600 else 1800))
    && (after.status.InFlight? ==> after.claimedUntil == Some(now + 30))
  }

  // What one round does: it takes the first due event and touches no other row.
  ghost predicate IsPosting(rows: O.Table, rows': O.Table, p: Posting, maxAttempts: nat, now: int) {
    && p.id in rows && p.id in rows' && rows' == rows[p.id := rows'[p.id]]
    && IsFirst(O.DueIds(rows, now), O.Earlier(rows), p.id)
    && Posted(rows[p.id], rows'[p.id], p, maxAttempts, now)
  }

  function PostedIds(postings: seq<Posting>): seq<string> {
    seq(|postings|, i requires 0 <= i < |postings| => postings[i].id)
  }

  ghost predicate PostingsDone(before: O.Table, after: O.Table, postings: seq<Posting>, maxAttempts: nat, now: int) {
    forall k :: 0 <= k < |postings| ==>
                  && postings[k].id in before && postings[k].id in after
                  && Posted(before[postings[k].id], after[postings[k].id], postings[k], maxAttempts, now)
  }

  // The rows done are not due any more, the other due rows are still due and untouched.
  ghost predicate QueueStands(rows0: O.Table, rows: O.Table, done: set<string>, now: int) {
    && rows.Keys == rows0.Keys && done <= O.DueIds(rows0, now)
    && (forall id :: id in rows0 && id !in done ==> rows[id] == rows0[id])
    && O.DueIds(rows, now) == O.DueIds(rows0, now) - done
  }

  lemma QueueAfterPosting(rows0: O.Table, rows: O.Table, rows': O.Table, id: string, done: set<string>, now: int)
    requires QueueStands(rows0, rows, done, now) && id in O.DueIds(rows, now)
    requires id in rows' && rows' == rows[id := rows'[id]] && !O.Due(rows'[id], now)
    ensures QueueStands(rows0, rows', done + {id}, now)
    ensures id in O.DueIds(rows0, now) - done && rows[id] == rows0[id]
  {
    assert O.DueIds(rows', now) == O.DueIds(rows, now) - {id};
  }

  // Where a pass stands: the events of its rounds were posted in order, each row ended as its round says, and
  // every other row is as before; `done` are the ids posted.
  ghost predicate PassStands(
    rows0: O.Table, rows: O.Table, postings: seq<Posting>, done: set<string>, maxAttempts: nat, now: int)
  {
    && QueueStands(rows0, rows, done, now)
    && InTurn(PostedIds(postings), O.DueIds(rows0, now), done, O.Earlier(rows0))
    && PostingsDone(rows0, rows, postings, maxAttempts, now)
  }

  lemma PostingInTurn(
    rows0: O.Table, rows: O.Table, postings: seq<Posting>, p: Posting, done: set<string>, now: int)
    requires QueueStands(rows0, rows, done, now) && IsFirst(O.DueIds(rows, now), O.Earlier(rows), p.id)
    requires InTurn(PostedIds(postings), O.DueIds(rows0, now), done, O.Earlier(rows0))
    ensures InTurn(PostedIds(postings + [p]), O.DueIds(rows0, now), done + {p.id}, O.Earlier(rows0))
  {
    forall other | other in O.DueIds(rows0, now) && other !in done
      ensures O.Earlier(rows0)(p.id, other)
    {
      assert other in O.DueIds(rows, now) && O.Earlier(rows)(p.id, other);
    }
    NextInTurn(PostedIds(postings), p.id, O.DueIds(rows0, now), done, O.Earlier(rows0));
    assert PostedIds(postings + [p]) == PostedIds(postings) + [p.id];
  }

  lemma PostingKeepsStanding(
    rows0: O.Table, rows: O.Table, rows': O.Table, postings: seq<Posting>, p: Posting, done: set<string>,
    maxAttempts: nat, now: int)
    requires PassStands(rows0, rows, postings, done, maxAttempts, now) && IsPosting(rows, rows', p, maxAttempts, now)
    ensures PassStands(rows0, rows', postings + [p], done + {p.id}, maxAttempts, now)
    ensures p.id in O.DueIds(rows0, now) - done
    ensures rows[p.id] == rows0[p.id]
  {
    QueueAfterPosting(rows0, rows, rows', p.id, done, now);
    PostingInTurn(rows0, rows, postings, p, done, now);
    PostingIsDone(rows0, rows, rows', postings, p, done, maxAttempts, now);
  }

  // The postings before this one are about other rows.
  lemma PostingIsDone(
    rows0: O.Table, rows: O.Table, rows': O.Table, postings: seq<Posting>, p: Posting, done: set<string>,
    maxAttempts: nat, now: int)
    requires PostingsDone(rows0, rows, postings, maxAttempts, now) && forall id :: id in PostedIds(postings) ==> id in done
    requires p.id in rows0 && p.id !in done && p.id in rows' && rows' == rows[p.id := rows'[p.id]]
    requires Posted(rows0[p.id], rows'[p.id], p, maxAttempts, now)
    ensures PostingsDone(rows0, rows', postings + [p], maxAttempts, now)
  {
    forall k | 0 <= k < |postings|
      ensures postings[k].id != p.id
    {
      assert PostedIds(postings)[k] in done;
    }
  }

  // Leases one due event, posts it and completes it, unless the completion is lost.
  method DeliverNext(outbound: O.OutboundStore, endpoint: D.Endpoint, lands: bool, now: int, maxAttempts: nat)
    returns (id: Option<string>, ghost posting: Posting)
    requires maxAttempts >= 1
    modifies outbound, endpoint
    ensures id.None? <==> O.DueIds(old(outbound.rows), now) == {}
    ensures id.None? ==> outbound.rows == old(outbound.rows) && endpoint.posted == old(endpoint.posted)
    ensures id.Some? ==>
              && posting == Posting(id.value, endpoint.answers(|old(endpoint.posted)|).ok, lands)
              && IsPosting(old(outbound.rows), outbound.rows, posting, maxAttempts, now)
              && endpoint.posted == old(endpoint.posted) + [old(outbound.rows)[id.value].event.payload]
  {
    posting := Posting("", false, false);
    var token := outbound.nextToken;
    var error: Option<O.Error>;
    id, error := outbound.LeaseDueOutbound(LEASE_SECONDS, now, {});
    assert O.DueIds(old(outbound.rows), now) - {} == O.DueIds(old(outbound.rows), now);
    if id.None? {
      return;
    }
    var leased := outbound.rows[id.value];
    var ok, message := endpoint.Post(leased.event.payload);
    var next := D.DefaultBackoff(leased.attempts, now);
    D.RetriesAreAt(leased.attempts, now);
    if lands {
      var limit := maxAttempts;
      if leased.maxAttempts > 0 {
        limit := leased.maxAttempts;
      }
      var verdict := if ok then O.Success else O.Failure(message, next);
      error := outbound.CompleteOutbound(id.value, token, verdict, limit, now);
    }
    posting := Posting(id.value, ok, lands);
  }

  // The k-th posting of a pass was the k-th post to the endpoint since `first`, of its own event's payload,
  // and got the answer and the completion of that round.
  ghost predicate AreAnswered(
    rows: O.Table, postings: seq<Posting>, posted: seq<string>, first: nat, answers: nat -> D.Answer, lands: nat -> bool)
  {
    && |posted| == first + |postings|
    && forall k :: 0 <= k < |postings| ==>
                     && postings[k].id in rows && posted[first + k] == rows[postings[k].id].event.payload
                     && postings[k].accepted == answers(first + k).ok && postings[k].lands == lands(k)
  }

  lemma AnsweredGoesOn(
    rows: O.Table, postings: seq<Posting>, p: Posting, posted: seq<string>, first: nat, answers: nat -> D.Answer,
    lands: nat -> bool)
    requires AreAnswered(rows, postings, posted, first, answers, lands) && p.id in rows
    requires p.accepted == answers(|posted|).ok && p.lands == lands(|postings|)
    ensures AreAnswered(rows, postings + [p], posted + [rows[p.id].event.payload], first, answers, lands)
  {
  }

  lemma NothingLeft<T>(due: set<T>, done: set<T>)
    requires done <= due && due - done == {}
    ensures done == due
  {
    assert due == (due - done) + done;
  }

  // Where a pass stands, and what its rounds have met.
  ghost predicate PassMet(
    rows0: O.Table, rows: O.Table, postings: seq<Posting>, done: set<string>, maxAttempts: nat, now: int,
    posted: seq<string>, first: nat, answers: nat -> D.Answer, lands: nat -> bool)
  {
    && PassStands(rows0, rows, postings, done, maxAttempts, now)
    && AreAnswered(rows0, postings, posted, first, answers, lands)
  }

  // One more round of the pass, if anything is due.
  method DeliverAnother(
    outbound: O.OutboundStore, endpoint: D.Endpoint, lands: nat -> bool, n: nat, now: int, maxAttempts: nat,
    ghost rows0: O.Table, ghost postings: seq<Posting>, ghost done: set<string>, ghost first: nat)
    returns (more: bool, ghost postings': seq<Posting>, ghost done': set<string>)
    requires maxAttempts >= 1 && n == |postings|
    requires PassMet(rows0, outbound.rows, postings, done, maxAttempts, now, endpoint.posted, first, endpoint.answers, lands)
    modifies outbound, endpoint
    ensures PassMet(rows0, outbound.rows, postings', done', maxAttempts, now, endpoint.posted, first, endpoint.answers, lands)
    ensures old(endpoint.posted) <= endpoint.posted
    ensures if more then |postings'| == n + 1 && done < done' <= O.DueIds(rows0, now)
            else postings' == postings && done' == done == O.DueIds(rows0, now)
  {
    ghost var rows, posted := outbound.rows, endpoint.posted;
    var id;
    ghost var p;
    id, p := DeliverNext(outbound, endpoint, lands(n), now, maxAttempts);
    more, postings', done' := id.Some?, postings, done;
    if more {
      PostingKeepsStanding(rows0, rows, outbound.rows, postings, p, done, maxAttempts, now);
      AnsweredGoesOn(rows0, postings, p, posted, first, endpoint.answers, lands);
      postings', done' := postings + [p], done + {p.id};
    } else {
      NothingLeft(O.DueIds(rows0, now), done);
    }
  }

  /** The deliverer's pass: every due event is posted exactly once, in the order of the queue, then nothing is
      due and the pass ends, whatever the merchant answers, and even if a completion is lost. Each row ends as
      the answer to its own event says, and every other row stays as it is. `lands` says which completions
      reach the table. */
  method DeliverOnceDurable(
    outbound: O.OutboundStore, endpoint: D.Endpoint, lands: nat -> bool, now: int, maxAttempts: nat)
    returns (n: nat, ghost postings: seq<Posting>)
    requires maxAttempts >= 1
    modifies outbound, endpoint
    ensures n == |postings| == |O.DueIds(old(outbound.rows), now)|
    ensures PassStands(old(outbound.rows), outbound.rows, postings, O.DueIds(old(outbound.rows), now), maxAttempts, now)
    ensures AreAnswered(old(outbound.rows), postings, endpoint.posted, |old(endpoint.posted)|, endpoint.answers, lands)
    ensures old(endpoint.posted) <= endpoint.posted
  {
    ghost var rows0, posted0 := outbound.rows, endpoint.posted;
    ghost var done: set<string> := {};
    n, postings := 0, [];
    assert O.DueIds(rows0, now) - done == O.DueIds(rows0, now);
    while true
      invariant n == |postings| && done <= O.DueIds(rows0, now) && posted0 <= endpoint.posted
      invariant PassMet(rows0, outbound.rows, postings, done, maxAttempts, now, endpoint.posted, |posted0|,
                        endpoint.answers, lands)
      decreases O.DueIds(rows0, now) - done
    {
      var more: bool;
      ghost var before := done;
      more, postings, done := DeliverAnother(outbound, endpoint, lands, n, now, maxAttempts, rows0, postings, done, |posted0|);
      if !more {
        DistinctAreCounted(PostedIds(postings), done);
        return;
      }
      assert O.DueIds(rows0, now) - done < O.DueIds(rows0, now) - before;
      n := n + 1;
    }
  }

  // ----- The reconciler -----

  // One round: the notification reclaimed, the course of its statements, and whether its completion landed.
  datatype Round = Round(id: nat, script: seq<Fate>, lands: bool)

  // What re-applying the events outside any transaction does, in a given course.
  function Reapplied(db: Db, events: seq<Event>, script: seq<Fate>): Work {
    Run(Work(db, Begin(false, events)), script)
  }

  type Parser = string -> seq<Event>

  function EventsOf(rows: I.Table, parse: Parser, id: nat): seq<Event> {
    if id in rows then parse(rows[id].note.parsed) else []
  }

  function AfterRounds(db: Db, rows: I.Table, parse: Parser, rounds: seq<Round>): Db {
    if rounds == [] then db
    else
      var last := rounds[|rounds| - 1];
      Reapplied(AfterRounds(db, rows, parse, rounds[..|rounds| - 1]), EventsOf(rows, parse, last.id), last.script).db
  }

  // The payload had no events, or some status change was reported as failed.
  predicate Fails(db: Db, rows: I.Table, parse: Parser, rounds: seq<Round>, k: nat)
    requires k < |rounds|
  {
    var events := EventsOf(rows, parse, rounds[k].id);
    events == [] || Reapplied(AfterRounds(db, rows, parse, rounds[..k]), events, rounds[k].script).h.failed
  }

  // A reclaimed row after its round: claimed once more, not due any longer, and with the status that the
  // outcome gives it, or still in progress if its completion was lost. A failed one waits for its retry for
  // 1, 2, 4, … or 64 seconds, give or take a fifth, a lost one for its lease to run out.
  predicate Ends(before: I.Row, after: I.Row, failed: bool, lands: bool, gateway: string, now: int) {
    after.attempts == before.attempts + 1 && Completes(before, after, failed, lands, gateway, now)
  }

  predicate Completes(before: I.Row, after: I.Row, failed: bool, lands: bool, gateway: string, now: int) {
    && after.note == before.note && after.account == before.account && after.createdAt == before.createdAt
    && !I.Due(after, gateway, now)
    && after.status == (if !lands then I.Processing
                        else if !failed then I.Applied
                        else if after.attempts >= 8 then I.Dead else I.Failed)
    && (after.status.Failed? ==> I.WithinFifth(after.availableAt - now, after.attempts))
    && (after.status.Processing? ==> after.claimedUntil == Some(now + 30 * 1_000_000_000))
  }

  // Re-applies the stored events outside any transaction, each statement on its own. Where none fails, all of
  // them take effect in turn.
  method Reapply(payments: PaymentStore, events: seq<Event>) returns (failed: bool)
    requires payments.Idle()
    modifies payments
    ensures payments.Idle() && old(payments.moves) <= payments.moves
    ensures var w := Reapplied(old(payments.db), events, payments.Met(old(payments.moves), payments.moves));
            w.db == payments.db && w.h.failed == failed && w.h.todo == [] && w.h.rest == []
    ensures payments.AllLanded(old(payments.moves)) ==> !failed && AppliedInTurn(old(payments.db), events, payments.db)
  {
    var stuck: bool;
    ghost var h;
    failed, stuck, h := payments.ApplyInboundEvents(events);
  }

  // Reclaims one due notification, re-applies its events, and completes it unless that transaction is lost.
  method ReconcileNext(
    inbound: I.InboundStore, payments: PaymentStore, gateway: string, parse: Parser, lands: bool, now: int)
    returns (id: Option<nat>, ghost round: Round)
    requires payments.Idle()
    modifies inbound, payments
    ensures payments.Idle() && old(payments.moves) <= payments.moves
    ensures id.None? <==> I.DueIds(old(inbound.rows), gateway, now) == {}
    ensures id.None? ==> inbound.rows == old(inbound.rows) && payments.db == old(payments.db)
                         && payments.moves == old(payments.moves)
    ensures id.Some? ==>
              && round == Round(id.value, payments.Met(old(payments.moves), payments.moves), lands)
              && IsRound(old(inbound.rows), inbound.rows, old(payments.db), payments.db, parse, round, gateway, now)
  {
    round := Round(0, [], false);
    var token := inbound.nextToken;
    var error: Option<I.Error>;
    id, error := inbound.ReclaimStuckInbound(gateway, LEASE_SECONDS, now, {});
    assert I.DueIds(inbound.rows, gateway, now) - {} == I.DueIds(inbound.rows, gateway, now);
    assert I.DueIds(old(inbound.rows), gateway, now) - {} == I.DueIds(old(inbound.rows), gateway, now);
    if id.None? {
      return;
    }
    var events := parse(inbound.rows[id.value].note.parsed);
    var unapplied := ReapplyParsed(payments, events);
    CompleteNext(inbound, id.value, token, if events == [] then "unparseable stored payload" else "apply failed",
                 unapplied, lands, gateway, now);
    round := Round(id.value, payments.Met(old(payments.moves), payments.moves), lands);
  }

  // A payload without events counts as one that could not be applied.
  method ReapplyParsed(payments: PaymentStore, events: seq<Event>) returns (unapplied: bool)
    requires payments.Idle()
    modifies payments
    ensures payments.Idle() && old(payments.moves) <= payments.moves
    ensures var w := Reapplied(old(payments.db), events, payments.Met(old(payments.moves), payments.moves));
            w.db == payments.db && unapplied == (events == [] || w.h.failed) && w.h.todo == [] && w.h.rest == []
  {
    unapplied := true;
    if events != [] {
      unapplied := Reapply(payments, events);
    }
  }

  // Completes the reclaimed row, unless that transaction is lost.
  method CompleteNext(
    inbound: I.InboundStore, id: nat, token: nat, message: string, failed: bool, lands: bool, gateway: string, now: int)
    requires I.Holds(inbound.rows, id, token) && !I.Due(inbound.rows[id], gateway, now)
    requires inbound.rows[id].claimedUntil == Some(now + 30 * 1_000_000_000)
    modifies inbound
    ensures id in inbound.rows && inbound.rows == old(inbound.rows)[id := inbound.rows[id]]
    ensures inbound.rows[id].attempts == old(inbound.rows)[id].attempts
    ensures Completes(old(inbound.rows)[id], inbound.rows[id], failed, lands, gateway, now)
  {
    if !lands {
      return;
    }
    var row := inbound.rows[id];
    var jitter: nat :| jitter <= 400;
    I.DelayIsPositive(row.attempts, Some(jitter));
    I.DelayIsWithin(row.attempts, Some(jitter));
    var verdict := if failed then I.Failure(message, Some(jitter)) else I.Success;
    var error := inbound.CompleteInbound(id, token, row.account, verdict, MAX_ATTEMPTS, now);
  }

  function RoundIds(rounds: seq<Round>): seq<nat> {
    seq(|rounds|, i requires 0 <= i < |rounds| => rounds[i].id)
  }

  // The rounds done so far have each run to the end of their events and left their row as `Ends` says.
  ghost predicate RoundsDone(
    rows: I.Table, after: I.Table, db: Db, parse: Parser, rounds: seq<Round>, gateway: string, now: int)
  {
    forall k :: 0 <= k < |rounds| ==>
                  && rounds[k].id in rows && rounds[k].id in after
                  && Ends(rows[rounds[k].id], after[rounds[k].id], Fails(db, rows, parse, rounds, k), rounds[k].lands, gateway, now)
                  && RunsOut(AfterRounds(db, rows, parse, rounds[..k]), EventsOf(rows, parse, rounds[k].id), rounds[k].script)
  }

  predicate RunsOut(db: Db, events: seq<Event>, script: seq<Fate>) {
    var h := Reapplied(db, events, script).h;
    h.todo == [] && h.rest == []
  }

  // The rows of the rounds are done, the other due rows are still due and untouched.
  ghost predicate FrameStands(rows0: I.Table, rows: I.Table, done: set<nat>, gateway: string, now: int) {
    && rows.Keys == rows0.Keys && done <= I.DueIds(rows0, gateway, now)
    && (forall id :: id in rows0 && id !in done ==> rows[id] == rows0[id])
    && I.DueIds(rows, gateway, now) == I.DueIds(rows0, gateway, now) - done
  }

  // Where a pass stands after some rounds.
  ghost predicate Stands(
    rows0: I.Table, rows: I.Table, db0: Db, db: Db, parse: Parser, rounds: seq<Round>, done: set<nat>,
    gateway: string, now: int)
  {
    && FrameStands(rows0, rows, done, gateway, now)
    && InTurn(RoundIds(rounds), I.DueIds(rows0, gateway, now), done, I.Older(rows0))
    && RoundsDone(rows0, rows, db0, parse, rounds, gateway, now)
    && db == AfterRounds(db0, rows0, parse, rounds)
  }

  // What one round does.
  ghost predicate IsRound(
    rows: I.Table, rows': I.Table, db: Db, db': Db, parse: Parser, round: Round, gateway: string, now: int)
  {
    && round.id in rows && round.id in rows' && rows' == rows[round.id := rows'[round.id]]
    && IsFirst(I.DueIds(rows, gateway, now), I.Older(rows), round.id)
    && HasRun(rows[round.id], rows'[round.id], db, db', parse, round, gateway, now)
  }

  // The events of the row were re-applied to the last, and the row ends accordingly.
  predicate HasRun(row: I.Row, row': I.Row, db: Db, db': Db, parse: Parser, round: Round, gateway: string, now: int) {
    var events := parse(row.note.parsed);
    var w := Reapplied(db, events, round.script);
    && w.db == db' && w.h.todo == [] && w.h.rest == []
    && Ends(row, row', events == [] || w.h.failed, round.lands, gateway, now)
  }

  lemma FrameAfterRound(rows0: I.Table, rows: I.Table, rows': I.Table, id: nat, done: set<nat>, gateway: string, now: int)
    requires FrameStands(rows0, rows, done, gateway, now) && id in I.DueIds(rows, gateway, now)
    requires id in rows' && rows' == rows[id := rows'[id]] && !I.Due(rows'[id], gateway, now)
    ensures FrameStands(rows0, rows', done + {id}, gateway, now)
    ensures id in I.DueIds(rows0, gateway, now) - done && rows[id] == rows0[id]
  {
    assert I.DueIds(rows', gateway, now) == I.DueIds(rows, gateway, now) - {id};
  }

  // The first of the due rows is before the others in the table as it was.
  lemma FirstIsBefore(rows0: I.Table, rows: I.Table, id: nat, other: nat, done: set<nat>, gateway: string, now: int)
    requires FrameStands(rows0, rows, done, gateway, now) && IsFirst(I.DueIds(rows, gateway, now), I.Older(rows), id)
    requires other in I.DueIds(rows0, gateway, now) && other !in done
    ensures I.Older(rows0)(id, other)
  {
    assert other in I.DueIds(rows, gateway, now);
    assert I.Older(rows)(id, other);
  }

  lemma RoundIsNext(rounds: seq<Round>, round: Round, due: set<nat>, done: set<nat>, before: (nat, nat) -> bool)
    requires InTurn(RoundIds(rounds), due, done, before) && round.id in due && round.id !in done
    requires forall other :: other in due && other !in done ==> before(round.id, other)
    ensures InTurn(RoundIds(rounds + [round]), due, done + {round.id}, before)
  {
    NextInTurn(RoundIds(rounds), round.id, due, done, before);
    assert RoundIds(rounds + [round]) == RoundIds(rounds) + [round.id];
  }

  lemma RoundInTurn(
    rows0: I.Table, rows: I.Table, rounds: seq<Round>, round: Round, done: set<nat>, gateway: string, now: int)
    requires FrameStands(rows0, rows, done, gateway, now)
    requires round.id in I.DueIds(rows0, gateway, now) - done
    requires InTurn(RoundIds(rounds), I.DueIds(rows0, gateway, now), done, I.Older(rows0))
    requires IsFirst(I.DueIds(rows, gateway, now), I.Older(rows), round.id)
    ensures InTurn(RoundIds(rounds + [round]), I.DueIds(rows0, gateway, now), done + {round.id}, I.Older(rows0))
  {
    var due, before := I.DueIds(rows0, gateway, now), I.Older(rows0);
    forall other | other in due && other !in done
      ensures before(round.id, other)
    {
      FirstIsBefore(rows0, rows, round.id, other, done, gateway, now);
    }
    RoundIsNext(rounds, round, due, done, before);
  }

  lemma RoundKeepsStanding(
    rows0: I.Table, rows: I.Table, rows': I.Table, db0: Db, db: Db, db': Db, parse: Parser, rounds: seq<Round>,
    round: Round, done: set<nat>, gateway: string, now: int)
    requires Stands(rows0, rows, db0, db, parse, rounds, done, gateway, now)
    requires IsRound(rows, rows', db, db', parse, round, gateway, now)
    ensures Stands(rows0, rows', db0, db', parse, rounds + [round], done + {round.id}, gateway, now)
    ensures round.id in I.DueIds(rows0, gateway, now) - done
  {
    FrameAfterRound(rows0, rows, rows', round.id, done, gateway, now);
    RoundInTurn(rows0, rows, rounds, round, done, gateway, now);
    RoundsAfterRound(rows0, rows, rows', db0, db, db', parse, rounds, round, done, gateway, now);
  }

  lemma RoundsAfterRound(
    rows0: I.Table, rows: I.Table, rows': I.Table, db0: Db, db: Db, db': Db, parse: Parser, rounds: seq<Round>,
    round: Round, done: set<nat>, gateway: string, now: int)
    requires round.id in rows0 && round.id in rows' && rows' == rows[round.id := rows'[round.id]] && round.id !in done
    requires HasRun(rows0[round.id], rows'[round.id], db, db', parse, round, gateway, now)
    requires db == AfterRounds(db0, rows0, parse, rounds)
    requires RoundsDone(rows0, rows, db0, parse, rounds, gateway, now) && forall id :: id in RoundIds(rounds) ==> id in done
    ensures RoundsDone(rows0, rows', db0, parse, rounds + [round], gateway, now)
    ensures db' == AfterRounds(db0, rows0, parse, rounds + [round])
  {
    OthersWereBefore(rounds, round.id, done);
    RoundIsDone(rows0, rows, rows', db0, parse, rounds, round, gateway, now);
    assert (rounds + [round])[..|rounds|] == rounds;
  }

  lemma OthersWereBefore(rounds: seq<Round>, id: nat, done: set<nat>)
    requires id !in done && forall other :: other in RoundIds(rounds) ==> other in done
    ensures forall k :: 0 <= k < |rounds| ==> rounds[k].id != id
  {
    forall k | 0 <= k < |rounds|
      ensures rounds[k].id != id
    {
      assert RoundIds(rounds)[k] == rounds[k].id;
    }
  }

  lemma EachRoundCounts(
    rows0: I.Table, rows: I.Table, db0: Db, db: Db, parse: Parser, rounds: seq<Round>, gateway: string, now: int)
    requires Stands(rows0, rows, db0, db, parse, rounds, I.DueIds(rows0, gateway, now), gateway, now)
    ensures |rounds| == |I.DueIds(rows0, gateway, now)|
  {
    DistinctAreCounted(RoundIds(rounds), I.DueIds(rows0, gateway, now));
  }

  // The courses of the rounds, one after the other.
  function Scripts(rounds: seq<Round>): seq<Fate> {
    if rounds == [] then [] else Scripts(rounds[..|rounds| - 1]) + rounds[|rounds| - 1].script
  }

  // The rounds have met this course of statements, and these fates of their completions.
  ghost predicate HaveMet(rounds: seq<Round>, course: seq<Fate>, lands: nat -> bool) {
    Scripts(rounds) == course && forall k :: 0 <= k < |rounds| ==> rounds[k].lands == lands(k)
  }

  lemma MeetsMore(rounds: seq<Round>, round: Round, course: seq<Fate>, lands: nat -> bool)
    requires HaveMet(rounds, course, lands) && round.lands == lands(|rounds|)
    ensures HaveMet(rounds + [round], course + round.script, lands)
  {
    assert (rounds + [round])[..|rounds|] == rounds;
  }

  // Where a pass stands, and what its rounds have met.
  ghost predicate StandsAndMet(
    rows0: I.Table, rows: I.Table, db0: Db, db: Db, parse: Parser, rounds: seq<Round>, done: set<nat>, course: seq<Fate>,
    lands: nat -> bool, gateway: string, now: int)
  {
    Stands(rows0, rows, db0, db, parse, rounds, done, gateway, now) && HaveMet(rounds, course, lands)
  }

  lemma RoundGoesOn(
    rows0: I.Table, rows: I.Table, rows': I.Table, db0: Db, db: Db, db': Db, parse: Parser, rounds: seq<Round>,
    round: Round, done: set<nat>, course: seq<Fate>, course': seq<Fate>, lands: nat -> bool, gateway: string, now: int)
    requires StandsAndMet(rows0, rows, db0, db, parse, rounds, done, course, lands, gateway, now)
    requires IsRound(rows, rows', db, db', parse, round, gateway, now) && round.lands == lands(|rounds|)
    requires course' == course + round.script
    ensures StandsAndMet(rows0, rows', db0, db', parse, rounds + [round], done + {round.id}, course', lands, gateway, now)
    ensures done < done + {round.id} <= I.DueIds(rows0, gateway, now)
  {
    RoundKeepsStanding(rows0, rows, rows', db0, db, db', parse, rounds, round, done, gateway, now);
    MeetsMore(rounds, round, course, lands);
    OneMoreDone(I.DueIds(rows0, gateway, now), done, round.id);
  }

  lemma OneMoreDone<T>(due: set<T>, done: set<T>, id: T)
    requires id in due - done && done <= due
    ensures done < done + {id} <= due
  {
  }

  lemma EndsWhenNothingIsDue(
    rows0: I.Table, rows: I.Table, db0: Db, db: Db, parse: Parser, rounds: seq<Round>, done: set<nat>, course: seq<Fate>,
    lands: nat -> bool, gateway: string, now: int)
    requires StandsAndMet(rows0, rows, db0, db, parse, rounds, done, course, lands, gateway, now)
    requires I.DueIds(rows, gateway, now) == {}
    ensures done == I.DueIds(rows0, gateway, now)
  {
    NothingLeft(I.DueIds(rows0, gateway, now), done);
  }

  // One more round of the pass, if anything is due.
  method ReconcileAnother(
    inbound: I.InboundStore, payments: PaymentStore, gateway: string, parse: Parser, lands: nat -> bool, n: nat, now: int,
    ghost rows0: I.Table, ghost db0: Db, ghost first: nat, ghost rounds: seq<Round>, ghost done: set<nat>)
    returns (more: bool, ghost rounds': seq<Round>, ghost done': set<nat>)
    requires payments.Idle() && n == |rounds| && first <= payments.moves
    requires StandsAndMet(rows0, inbound.rows, db0, payments.db, parse, rounds, done, payments.Met(first, payments.moves),
                          lands, gateway, now)
    modifies inbound, payments
    ensures payments.Idle() && old(payments.moves) <= payments.moves
    ensures StandsAndMet(rows0, inbound.rows, db0, payments.db, parse, rounds', done', payments.Met(first, payments.moves),
                         lands, gateway, now)
    ensures if more then |rounds'| == n + 1 && done < done' <= I.DueIds(rows0, gateway, now)
            else rounds' == rounds && done' == done == I.DueIds(rows0, gateway, now)
  {
    ghost var rows, db, mid := inbound.rows, payments.db, payments.moves;
    var id;
    ghost var round;
    id, round := ReconcileNext(inbound, payments, gateway, parse, lands(n), now);
    more, rounds', done' := id.Some?, rounds, done;
    if more {
      payments.MetSplits(first, mid, payments.moves);
      RoundGoesOn(rows0, rows, inbound.rows, db0, db, payments.db, parse, rounds, round, done, payments.Met(first, mid),
                  payments.Met(first, payments.moves), lands, gateway, now);
      rounds', done' := rounds + [round], done + {round.id};
    } else {
      EndsWhenNothingIsDue(rows0, rows, db0, db, parse, rounds, done, payments.Met(first, mid), lands, gateway, now);
    }
  }

  /** The reconciler's pass: every due notification is reclaimed exactly once, oldest first, then nothing is
      due and the pass ends, whatever its payload, whichever statements fail, and even if a completion is
      lost. Each row ends as the outcome of its own events says, every other row stays as it is, and the
      payments see the events of the due notifications in that order and nothing else. `lands` says which
      completions reach the table. */
  method RunOnce(
    inbound: I.InboundStore, payments: PaymentStore, gateway: string, parse: Parser, lands: nat -> bool, now: int)
    returns (n: nat, ghost rounds: seq<Round>)
    requires payments.Idle()
    modifies inbound, payments
    ensures payments.Idle() && n == |rounds| == |I.DueIds(old(inbound.rows), gateway, now)|
    ensures Stands(old(inbound.rows), inbound.rows, old(payments.db), payments.db, parse, rounds,
                   I.DueIds(old(inbound.rows), gateway, now), gateway, now)
    ensures old(payments.moves) <= payments.moves
            && HaveMet(rounds, payments.Met(old(payments.moves), payments.moves), lands)
  {
    ghost var rows0, db0, first := inbound.rows, payments.db, payments.moves;
    ghost var done: set<nat> := {};
    n, rounds := 0, [];
    NothingDoneYet(rows0, db0, parse, gateway, now);
    assert payments.Met(first, first) == [];
    while true
      invariant payments.Idle() && n == |rounds| && done <= I.DueIds(rows0, gateway, now) && first <= payments.moves
      invariant StandsAndMet(rows0, inbound.rows, db0, payments.db, parse, rounds, done, payments.Met(first, payments.moves),
                             lands, gateway, now)
      decreases I.DueIds(rows0, gateway, now) - done
    {
      var more: bool;
      ghost var before := done;
      more, rounds, done := ReconcileAnother(inbound, payments, gateway, parse, lands, n, now, rows0, db0, first, rounds, done);
      if !more {
        EachRoundCounts(rows0, inbound.rows, db0, payments.db, parse, rounds, gateway, now);
        return;
      }
      assert I.DueIds(rows0, gateway, now) - done < I.DueIds(rows0, gateway, now) - before;
      n := n + 1;
    }
  }

  lemma NothingDoneYet(rows: I.Table, db: Db, parse: Parser, gateway: string, now: int)
    ensures Stands(rows, rows, db, db, parse, [], {}, gateway, now)
  {
    assert I.DueIds(rows, gateway, now) - {} == I.DueIds(rows, gateway, now);
  }

  // The rounds before this one are about other rows and end as before.
  lemma RoundIsDone(
    rows0: I.Table, rows: I.Table, rows': I.Table, db: Db, parse: Parser, rounds: seq<Round>, round: Round,
    gateway: string, now: int)
    requires RoundsDone(rows0, rows, db, parse, rounds, gateway, now)
    requires round.id in rows0 && round.id in rows' && rows.Keys <= rows'.Keys
    requires forall k :: 0 <= k < |rounds| ==> rows'[rounds[k].id] == rows[rounds[k].id]
    requires var events, before := EventsOf(rows0, parse, round.id), AfterRounds(db, rows0, parse, rounds);
             && Ends(rows0[round.id], rows'[round.id], events == [] || Reapplied(before, events, round.script).h.failed,
                     round.lands, gateway, now)
             && RunsOut(before, events, round.script)
    ensures RoundsDone(rows0, rows', db, parse, rounds + [round], gateway, now)
  {
    var all := rounds + [round];
    assert all[..|rounds|] == rounds;
    forall k | 0 <= k < |all|
      ensures all[k].id in rows0 && all[k].id in rows'
      ensures Ends(rows0[all[k].id], rows'[all[k].id], Fails(db, rows0, parse, all, k), all[k].lands, gateway, now)
      ensures RunsOut(AfterRounds(db, rows0, parse, all[..k]), EventsOf(rows0, parse, all[k].id), all[k].script)
    {
      if k < |rounds| {
        assert all[k] == rounds[k] && all[..k] == rounds[..k];
      }
    }
  }

  // The events of the rounds, one notification after the other.
  function EventsInOrder(rows: I.Table, parse: Parser, rounds: seq<Round>): seq<Event> {
    if rounds == [] then []
    else EventsInOrder(rows, parse, rounds[..|rounds| - 1]) + EventsOf(rows, parse, rounds[|rounds| - 1].id)
  }

  lemma RunsOutIsApplyAll(db: Db, events: seq<Event>, script: seq<Fate>)
    requires AllLand(script) && RunsOut(db, events, script)
    ensures Reapplied(db, events, script).db == ApplyAll(db, events)
  {
    AllLandIsApplyAll(db, false, events, script);
    var w := Reapplied(db, events, script);
    if !w.h.phase.Done? {
      StaysOutside(Work(db, Begin(false, events)), script);
      var k: nat :| OnTrack(db, events, w, k);
      assert events[..k] == events;
    }
  }

  lemma {:induction false} StaysOutside(w: Work, script: seq<Fate>)
    ensures Run(w, script).h.inTx == w.h.inTx
  {
    if script != [] {
      StaysOutside(w, script[..|script| - 1]);
    }
  }

  lemma FirstRoundsAreDone(
    rows: I.Table, after: I.Table, db: Db, parse: Parser, rounds: seq<Round>, n: nat, gateway: string, now: int)
    requires RoundsDone(rows, after, db, parse, rounds, gateway, now) && n <= |rounds|
    ensures RoundsDone(rows, after, db, parse, rounds[..n], gateway, now)
  {
    forall k | 0 <= k < n
      ensures rounds[..k] == rounds[..n][..k] && rounds[k] == rounds[..n][k]
    {
    }
  }

  lemma {:induction false} UndisturbedRoundsApplyAll(
    rows: I.Table, after: I.Table, db: Db, parse: Parser, rounds: seq<Round>, gateway: string, now: int)
    requires RoundsDone(rows, after, db, parse, rounds, gateway, now)
    requires forall k :: 0 <= k < |rounds| ==> AllLand(rounds[k].script)
    ensures AfterRounds(db, rows, parse, rounds) == ApplyAll(db, EventsInOrder(rows, parse, rounds))
  {
    if rounds != [] {
      var n := |rounds| - 1;
      var init, events := rounds[..n], EventsOf(rows, parse, rounds[n].id);
      FirstRoundsAreDone(rows, after, db, parse, rounds, n, gateway, now);
      UndisturbedRoundsApplyAll(rows, after, db, parse, init, gateway, now);
      assert RunsOut(AfterRounds(db, rows, parse, init), events, rounds[n].script);
      RunsOutIsApplyAll(AfterRounds(db, rows, parse, init), events, rounds[n].script);
      ApplyAllAppend(db, EventsInOrder(rows, parse, init), events);
    }
  }

  lemma {:induction false} ScriptsLand(rounds: seq<Round>, k: nat)
    requires AllLand(Scripts(rounds)) && k < |rounds|
    ensures AllLand(rounds[k].script)
  {
    var n := |rounds| - 1;
    var init, last := Scripts(rounds[..n]), rounds[n].script;
    forall i | 0 <= i < |last|
      ensures last[i].Lands?
    {
      assert (init + last)[|init| + i] == last[i];
    }
    if k < n {
      forall i | 0 <= i < |init|
        ensures init[i].Lands?
      {
        assert (init + last)[i] == init[i];
      }
      ScriptsLand(rounds[..n], k);
    }
  }

  // Each row is applied, unless its payload had no events or its completion was lost.
  ghost predicate EachIsApplied(rows: I.Table, after: I.Table, parse: Parser, rounds: seq<Round>) {
    forall k :: 0 <= k < |rounds| ==>
                  rounds[k].id in after
                  && (rounds[k].lands && EventsOf(rows, parse, rounds[k].id) != [] ==> after[rounds[k].id].status.Applied?)
  }

  /** A pass in which every statement succeeds has applied the events of all due notifications in turn, oldest
      notification first, and each of their rows is applied, unless its payload had no events or its
      completion was lost. */
  lemma UndisturbedPassAppliesAll(
    rows: I.Table, after: I.Table, db: Db, db': Db, parse: Parser, rounds: seq<Round>, done: set<nat>, gateway: string, now: int)
    requires Stands(rows, after, db, db', parse, rounds, done, gateway, now) && AllLand(Scripts(rounds))
    ensures AppliedInTurn(db, EventsInOrder(rows, parse, rounds), db')
    ensures EachIsApplied(rows, after, parse, rounds)
  {
    forall k | 0 <= k < |rounds|
      ensures AllLand(rounds[k].script)
    {
      ScriptsLand(rounds, k);
    }
    UndisturbedRoundsApplyAll(rows, after, db, parse, rounds, gateway, now);
    ApplyAllInTurn(db, EventsInOrder(rows, parse, rounds));
    forall k | 0 <= k < |rounds|
      ensures rounds[k].id in after
      ensures rounds[k].lands && EventsOf(rows, parse, rounds[k].id) != [] ==> after[rounds[k].id].status.Applied?
    {
      AllLandNoneFails(AfterRounds(db, rows, parse, rounds[..k]), false, EventsOf(rows, parse, rounds[k].id), rounds[k].script);
    }
  }
}
