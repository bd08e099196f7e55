/** The in-process delivery queue and the loop that drains it. Times are unix seconds. */
module Deliverer {
  import opened Leases
  import opened Wrappers

  datatype Status = Pending | InFlight | Delivered | Failed

  datatype Delivery = Delivery(payload: string, status: Status, attempts: nat, nextAttemptAt: int, lastError: string)

  type Queue = map<string, Delivery>

  predicate Due(d: Delivery, now: int) {
    d.status.Pending? && d.nextAttemptAt <= now
  }

  function DueIds(q: Queue, now: int): set<string> {
    set id | id in q && Due(q[id], now)
  }

  // How the server enqueues an event.
  function Fresh(payload: string): Delivery {
    Delivery(payload, Pending, 0, 0, "")
  }

  function Leased(d: Delivery): Delivery {
    d.(status := InFlight, attempts := d.attempts + 1)
  }

  function Resolved(d: Delivery, delivered: bool, error: string, nextAttempt: int, maxAttempts: int): Delivery {
    var d := d.(lastError := error);
    if delivered then d.(status := Delivered, nextAttemptAt := 0)
    else if d.attempts >= maxAttempts then d.(status := Failed)
    else d.(status := Pending, nextAttemptAt := nextAttempt)
  }

  // ----- The order of ids -----

  // Lexicographic order, as strings are sorted.
  predicate AtMost(a: string, b: string) {
    a == "" || (b != "" && (a[0] < b[0] || (a[0] == b[0] && AtMost(a[1..], b[1..]))))
  }

  lemma {:induction false} AtMostIsTotal(a: string, b: string)
    ensures AtMost(a, b) || AtMost(b, a)
    ensures AtMost(a, b) && AtMost(b, a) ==> a == b
  {
    if a != "" && b != "" {
      AtMostIsTotal(a[1..], b[1..]);
      assert a == [a[0]] + a[1..] && b == [b[0]] + b[1..];
    }
  }

  lemma {:induction false} AtMostIsTransitive(a: string, b: string, c: string)
    requires AtMost(a, b) && AtMost(b, c)
    ensures AtMost(a, c)
  {
    if a != "" && a[0] == b[0] && b[0] == c[0] {
      AtMostIsTransitive(a[1..], b[1..], c[1..]);
    }
  }

  // The strings share their first `i` characters, and then the first one ends or has the smaller character.
  predicate ComesBeforeAt(a: string, b: string, i: nat) {
    i <= |a| && i <= |b| && a[..i] == b[..i] && (i == |a| || (i < |b| && a[i] < b[i]))
  }

  /** The order of strings is the lexicographic one. */
  lemma {:induction false} AtMostIsLexicographic(a: string, b: string)
    ensures AtMost(a, b) <==> exists i: nat :: ComesBeforeAt(a, b, i)
  {
    if a == "" {
      assert ComesBeforeAt(a, b, 0);
    } else if b != "" {
      AtMostIsLexicographic(a[1..], b[1..]);
      if a[0] == b[0] && AtMost(a[1..], b[1..]) {
        var i: nat :| ComesBeforeAt(a[1..], b[1..], i);
        assert a[..i + 1] == [a[0]] + a[1..][..i] && b[..i + 1] == [b[0]] + b[1..][..i];
        assert ComesBeforeAt(a, b, i + 1);
      } else if a[0] < b[0] {
        assert ComesBeforeAt(a, b, 0);
      } else {
        forall i: nat
          ensures !ComesBeforeAt(a, b, i)
        {
          if ComesBeforeAt(a, b, i) {
            assert i > 0 && a[..i][0] == a[0] && b[..i][0] == b[0];
            assert a[1..][..i - 1] == a[..i][1..] && b[1..][..i - 1] == b[..i][1..];
            assert ComesBeforeAt(a[1..], b[1..], i - 1);
          }
        }
      }
    }
  }

  lemma StringsAreOrdered(ids: set<string>)
    ensures IsOrder(ids, AtMost)
  {
    forall a, b | a in ids && b in ids
      ensures AtMost(a, b) || AtMost(b, a)
    {
      AtMostIsTotal(a, b);
    }
    forall a, b, c | a in ids && b in ids && c in ids && AtMost(a, b) && AtMost(b, c)
      ensures AtMost(a, c)
    {
      AtMostIsTransitive(a, b, c);
    }
  }

  // ----- The measure -----

  // How many more times a delivery may come out of the queue: once, plus once for each attempt left.
  function Weight(d: Delivery, maxAttempts: int): nat {
    if !d.status.Pending? then 0
    else if d.attempts >= maxAttempts then 1
    else 1 + (maxAttempts - d.attempts)
  }

  // The sum of a measure over some of the deliveries.
  ghost function Total(q: Queue, ids: set<string>, measure: Delivery -> nat): nat
    requires ids <= q.Keys
  {
    if ids == {} then 0
    else
      var id :| id in ids;
      measure(q[id]) + Total(q, ids - {id}, measure)
  }

  function WeightWithin(maxAttempts: int): Delivery -> nat {
    (d: Delivery) => Weight(d, maxAttempts)
  }

  function AttemptsOf(): Delivery -> nat {
    (d: Delivery) => d.attempts
  }

  // The work left in the queue, and the attempts made so far.
  ghost function Work(q: Queue, maxAttempts: int): nat {
    Total(q, q.Keys, WeightWithin(maxAttempts))
  }

  ghost function Attempts(q: Queue): nat {
    Total(q, q.Keys, AttemptsOf())
  }

  lemma {:induction false} TotalSplits(q: Queue, ids: set<string>, id: string, measure: Delivery -> nat)
    requires ids <= q.Keys && id in ids
    ensures Total(q, ids, measure) == measure(q[id]) + Total(q, ids - {id}, measure)
  {
    var first :| first in ids && Total(q, ids, measure) == measure(q[first]) + Total(q, ids - {first}, measure);
    if first != id {
      TotalSplits(q, ids - {first}, id, measure);
      TotalSplits(q, ids - {id}, first, measure);
      assert ids - {first} - {id} == ids - {id} - {first};
    }
  }

  lemma {:induction false} TotalOfSame(q: Queue, q': Queue, ids: set<string>, measure: Delivery -> nat)
    requires ids <= q.Keys && ids <= q'.Keys && forall id :: id in ids ==> q'[id] == q[id]
    ensures Total(q', ids, measure) == Total(q, ids, measure)
  {
    if ids != {} {
      var id :| id in ids;
      TotalSplits(q, ids, id, measure);
      TotalSplits(q', ids, id, measure);
      TotalOfSame(q, q', ids - {id}, measure);
    }
  }

  lemma TotalAfterUpdate(q: Queue, id: string, d: Delivery, measure: Delivery -> nat)
    requires id in q
    ensures var q' := q[id := d]; Total(q', q'.Keys, measure) == Total(q, q.Keys, measure) - measure(q[id]) + measure(d)
  {
    var q' := q[id := d];
    assert q'.Keys == q.Keys;
    TotalSplits(q, q.Keys, id, measure);
    TotalSplits(q', q'.Keys, id, measure);
    TotalOfSame(q, q', q.Keys - {id}, measure);
  }

  /** Whatever the merchant answers and whenever the retry is due, one lease and completion of a pending
      delivery makes one attempt and leaves less work in the queue. */
  lemma RoundDecreasesWork(q: Queue, id: string, delivered: bool, error: string, nextAttempt: int, maxAttempts: int)
    requires id in q && q[id].status.Pending?
    ensures var q' := RoundOn(q, id, delivered, error, nextAttempt, maxAttempts);
            Work(q', maxAttempts) < Work(q, maxAttempts) && Attempts(q') == Attempts(q) + 1
  {
    var d := Resolved(Leased(q[id]), delivered, error, nextAttempt, maxAttempts);
    TotalAfterUpdate(q, id, d, WeightWithin(maxAttempts));
    TotalAfterUpdate(q, id, d, AttemptsOf());
  }

  // No delivery was attempted more often than allowed, and one that waits has an attempt left. The first
  // attempt is always made, even for a limit of zero.
  ghost predicate WithinLimit(q: Queue, maxAttempts: int) {
    forall id :: id in q ==>
                   && (q[id].attempts <= maxAttempts || q[id].attempts <= 1)
                   && (q[id].status.Pending? ==> q[id].attempts < maxAttempts || q[id].attempts == 0)
  }

  // How a drain changes a delivery: attempted never, or some times and then resolved each time.
  ghost predicate Drained(before: Delivery, after: Delivery, now: int) {
    && after.payload == before.payload
    && after.attempts >= before.attempts
    && (after.attempts == before.attempts ==> after == before)
    && (after.attempts > before.attempts ==> Due(before, now) && !after.status.InFlight?)
  }

  function RoundOn(q: Queue, id: string, delivered: bool, error: string, nextAttempt: int, maxAttempts: int): Queue
    requires id in q
  {
    q[id := Resolved(Leased(q[id]), delivered, error, nextAttempt, maxAttempts)]
  }

  ghost predicate AllDrained(q0: Queue, q: Queue, now: int) {
    q.Keys == q0.Keys && forall id :: id in q0 ==> Drained(q0[id], q[id], now)
  }

  // A due delivery was due from the start, or has been attempted since.
  lemma RoundKeepsDrained(q0: Queue, q: Queue, id: string, delivered: bool, error: string, next: int, maxAttempts: int, now: int)
    requires AllDrained(q0, q, now) && id in q && Due(q[id], now)
    ensures AllDrained(q0, RoundOn(q, id, delivered, error, next, maxAttempts), now)
  {
    assert Drained(q0[id], q[id], now);
  }

  lemma RoundKeepsLimit(q: Queue, id: string, delivered: bool, error: string, next: int, maxAttempts: int)
    requires WithinLimit(q, maxAttempts) && id in q && q[id].status.Pending?
    ensures WithinLimit(RoundOn(q, id, delivered, error, next, maxAttempts), maxAttempts)
  {
  }

  class DeliveryQueue {
    var webhooks: Queue

    constructor ()
      ensures webhooks == map[]
    {
      webhooks := map[];
    }

    // Stores the delivery as it is given; one without a status is pending.
    method EnqueueWebhook(id: string, d: Delivery, status: Option<Status>)
      modifies this
      ensures webhooks == old(webhooks)[id := d.(status := if status.Some? then status.value else Pending)]
    {
      var stored := d;
      match status {
        case Some(given) => stored := stored.(status := given);
        case None => stored := stored.(status := Pending);
      }
      webhooks := webhooks[id := stored];
    }

    /** Takes the due delivery with the least id. */
    method LeaseDueWebhook(now: int) returns (id: Option<string>)
      modifies this
      ensures id.None? <==> DueIds(old(webhooks), now) == {}
      ensures id.None? ==> webhooks == old(webhooks)
      ensures id.Some? ==> && IsFirst(DueIds(old(webhooks), now), AtMost, id.value)
                           && webhooks == old(webhooks)[id.value := Leased(old(webhooks)[id.value])]
    {
      var due := DueIds(webhooks, now);
      if due == {} {
        return None;
      }
      StringsAreOrdered(due);
      FirstIsThere(due, AtMost);
      var least :| least in due && forall other :: other in due ==> AtMost(least, other);
      webhooks := webhooks[least := webhooks[least].(status := InFlight, attempts := webhooks[least].attempts + 1)];
      return Some(least);
    }

    method CompleteWebhook(id: string, delivered: bool, error: string, nextAttempt: int, maxAttempts: int)
      modifies this
      ensures webhooks == if id in old(webhooks)
                          then old(webhooks)[id := Resolved(old(webhooks)[id], delivered, error, nextAttempt, maxAttempts)]
                          else old(webhooks)
    {
      if id !in webhooks {
        return;
      }
      var d := webhooks[id].(lastError := error);
      if delivered {
        d := d.(status := Delivered, nextAttemptAt := 0);
      } else if d.attempts >= maxAttempts {
        d := d.(status := Failed);
      } else {
        d := d.(status := Pending, nextAttemptAt := nextAttempt);
      }
      webhooks := webhooks[id := d];
    }
  }

  // ----- The merchant -----

  datatype Answer = Answer(ok: bool, error: string)

  // The merchant's endpoint: `answers` says what it answers, post by post, and `posted` is what it was sent.
  class Endpoint {
    const answers: nat -> Answer
    var posted: seq<string>

    constructor (answers: nat -> Answer)
      ensures this.answers == answers && posted == []
    {
      this.answers, posted := answers, [];
    }

    method Post(payload: string) returns (ok: bool, error: string)
      modifies this
      ensures posted == old(posted) + [payload] && Answer(ok, error) == answers(|old(posted)|)
    {
      var answer := answers(|posted|);
      ok, error := answer.ok, answer.error;
      posted := posted + [payload];
    }
  }

  // A delivery after one more attempt: delivered if the merchant accepted it, failed for good at the limit,
  // and otherwise pending again until the given time.
  predicate Attempted(before: Delivery, after: Delivery, answer: Answer, next: int, maxAttempts: int) {
    && after.payload == before.payload && after.attempts == before.attempts + 1 && after.lastError == answer.error
    && (answer.ok ==> after.status.Delivered? && after.nextAttemptAt == 0)
    && (!answer.ok && after.attempts >= maxAttempts ==> after.status.Failed? && after.nextAttemptAt == before.nextAttemptAt)
    && (!answer.ok && after.attempts < maxAttempts ==> after.status.Pending? && after.nextAttemptAt == next)
  }

  // One round: the due delivery with the least id is posted, and has the outcome of the answer.
  ghost predicate IsRoundOf(
    q: Queue, q': Queue, id: string, payload: string, answer: Answer, backoff: (int, int) -> int, maxAttempts: int, now: int)
  {
    && IsFirst(DueIds(q, now), AtMost, id) && id in q' && q' == q[id := q'[id]] && q[id].payload == payload
    && Attempted(q[id], q'[id], answer, backoff(q[id].attempts + 1, now), maxAttempts)
  }

  ghost predicate IsRound(
    q: Queue, q': Queue, payload: string, answer: Answer, backoff: (int, int) -> int, maxAttempts: int, now: int)
  {
    exists id :: IsRoundOf(q, q', id, payload, answer, backoff, maxAttempts, now)
  }

  // The rounds of a drain: the k-th of them made the k-th post since `first`, and got its answer.
  ghost predicate AreRounds(
    history: seq<Queue>, posted: seq<string>, first: nat, answers: nat -> Answer, backoff: (int, int) -> int,
    maxAttempts: int, now: int)
  {
    && |history| > 0 && |posted| == first + |history| - 1
    && forall k :: 0 <= k < |history| - 1 ==>
                     IsRound(history[k], history[k + 1], posted[first + k], answers(first + k), backoff, maxAttempts, now)
  }

  lemma RoundsGoOn(
    history: seq<Queue>, q: Queue, posted: seq<string>, payload: string, first: nat, answers: nat -> Answer,
    backoff: (int, int) -> int, maxAttempts: int, now: int)
    requires AreRounds(history, posted, first, answers, backoff, maxAttempts, now)
    requires IsRound(history[|history| - 1], q, payload, answers(|posted|), backoff, maxAttempts, now)
    ensures AreRounds(history + [q], posted + [payload], first, answers, backoff, maxAttempts, now)
  {
    var history', posted' := history + [q], posted + [payload];
    forall k | 0 <= k < |history|
      ensures IsRound(history'[k], history'[k + 1], posted'[first + k], answers(first + k), backoff, maxAttempts, now)
    {
      if k < |history| - 1 {
        assert history'[k] == history[k] && history'[k + 1] == history[k + 1] && posted'[first + k] == posted[first + k];
      }
    }
  }

  // Leases one due delivery, posts it, and stores what came of it.
  method DeliverDue(queue: DeliveryQueue, endpoint: Endpoint, now: int, backoff: (int, int) -> int, maxAttempts: int)
    returns (id: Option<string>, ghost payload: string)
    modifies queue, endpoint
    ensures id.None? <==> DueIds(old(queue.webhooks), now) == {}
    ensures id.None? ==> queue.webhooks == old(queue.webhooks) && endpoint.posted == old(endpoint.posted)
    ensures id.Some? ==>
              && endpoint.posted == old(endpoint.posted) + [payload]
              && IsRoundOf(old(queue.webhooks), queue.webhooks, id.value, payload, endpoint.answers(|old(endpoint.posted)|),
                           backoff, maxAttempts, now)
  {
    ghost var q := queue.webhooks;
    payload := "";
    id := queue.LeaseDueWebhook(now);
    if id.None? {
      return;
    }
    var leased := queue.webhooks[id.value];
    payload := leased.payload;
    var ok, error := endpoint.Post(leased.payload);
    queue.CompleteWebhook(id.value, ok, error, backoff(leased.attempts, now), maxAttempts);
    assert Attempted(q[id.value], queue.webhooks[id.value], Answer(ok, error), backoff(leased.attempts, now), maxAttempts);
  }

  // Where a drain stands after `n` rounds.
  ghost predicate DrainStands(q0: Queue, q: Queue, history: seq<Queue>, n: nat, maxAttempts: int, now: int) {
    && AllDrained(q0, q, now) && (WithinLimit(q0, maxAttempts) ==> WithinLimit(q, maxAttempts))
    && n == Attempts(q) - Attempts(q0) && n + Work(q, maxAttempts) <= Work(q0, maxAttempts)
    && |history| == n + 1 && history[0] == q0 && history[n] == q
  }

  lemma RoundKeepsStanding(
    q0: Queue, q: Queue, q': Queue, history: seq<Queue>, n: nat, id: string, payload: string, answer: Answer,
    backoff: (int, int) -> int, maxAttempts: int, now: int)
    requires DrainStands(q0, q, history, n, maxAttempts, now)
    requires IsRoundOf(q, q', id, payload, answer, backoff, maxAttempts, now)
    ensures DrainStands(q0, q', history + [q'], n + 1, maxAttempts, now) && Work(q', maxAttempts) < Work(q, maxAttempts)
  {
    var next := backoff(q[id].attempts + 1, now);
    assert q'[id] == Resolved(Leased(q[id]), answer.ok, answer.error, next, maxAttempts);
    assert q' == RoundOn(q, id, answer.ok, answer.error, next, maxAttempts);
    RoundDecreasesWork(q, id, answer.ok, answer.error, next, maxAttempts);
    RoundKeepsDrained(q0, q, id, answer.ok, answer.error, next, maxAttempts, now);
    if WithinLimit(q, maxAttempts) {
      RoundKeepsLimit(q, id, answer.ok, answer.error, next, maxAttempts);
    }
  }

  // One round of the drain, if anything is due.
  method DeliverAnother(
    queue: DeliveryQueue, endpoint: Endpoint, now: int, backoff: (int, int) -> int, maxAttempts: int,
    ghost q0: Queue, ghost history: seq<Queue>, ghost n: nat, ghost first: nat)
    returns (more: bool, ghost history': seq<Queue>)
    requires DrainStands(q0, queue.webhooks, history, n, maxAttempts, now)
    requires AreRounds(history, endpoint.posted, first, endpoint.answers, backoff, maxAttempts, now)
    modifies queue, endpoint
    ensures !more ==> queue.webhooks == old(queue.webhooks) && history' == history && endpoint.posted == old(endpoint.posted)
    ensures !more <==> DueIds(old(queue.webhooks), now) == {}
    ensures more ==> DrainStands(q0, queue.webhooks, history', n + 1, maxAttempts, now)
    ensures more ==> Work(queue.webhooks, maxAttempts) < Work(old(queue.webhooks), maxAttempts)
    ensures AreRounds(history', endpoint.posted, first, endpoint.answers, backoff, maxAttempts, now)
    ensures old(endpoint.posted) <= endpoint.posted
  {
    ghost var q, posted, answer := queue.webhooks, endpoint.posted, endpoint.answers(|endpoint.posted|);
    var id;
    ghost var payload;
    id, payload := DeliverDue(queue, endpoint, now, backoff, maxAttempts);
    more, history' := id.Some?, history;
    if more {
      RoundsGoOn(history, queue.webhooks, posted, payload, first, endpoint.answers, backoff, maxAttempts, now);
      RoundKeepsStanding(q0, q, queue.webhooks, history, n, id.value, payload, answer, backoff, maxAttempts, now);
      history' := history + [queue.webhooks];
    }
  }

  /** One drain of the queue. It ends for every backoff and every pattern of answers, an immediate retry
      of everything included; it leaves nothing due, keeps every delivery within the limit, and returns
      the number of attempts it made, which is bounded by the work it found. Each attempt posts the payload of
      the due delivery with the least id and stores what came of that post. */
  method DeliverOnce(queue: DeliveryQueue, endpoint: Endpoint, now: int, backoff: (int, int) -> int, maxAttempts: int)
    returns (n: nat, ghost history: seq<Queue>)
    modifies queue, endpoint
    ensures DueIds(queue.webhooks, now) == {}
    ensures AllDrained(old(queue.webhooks), queue.webhooks, now)
    ensures WithinLimit(old(queue.webhooks), maxAttempts) ==> WithinLimit(queue.webhooks, maxAttempts)
    ensures n == Attempts(queue.webhooks) - Attempts(old(queue.webhooks))
    ensures n + Work(queue.webhooks, maxAttempts) <= Work(old(queue.webhooks), maxAttempts)
    ensures |history| == n + 1 && history[0] == old(queue.webhooks) && history[n] == queue.webhooks
    ensures old(endpoint.posted) <= endpoint.posted
    ensures AreRounds(history, endpoint.posted, |old(endpoint.posted)|, endpoint.answers, backoff, maxAttempts, now)
  {
    ghost var q0, posted0 := queue.webhooks, endpoint.posted;
    n, history := 0, [q0];
    while true
      invariant DrainStands(q0, queue.webhooks, history, n, maxAttempts, now)
      invariant posted0 <= endpoint.posted
      invariant AreRounds(history, endpoint.posted, |posted0|, endpoint.answers, backoff, maxAttempts, now)
      decreases Work(queue.webhooks, maxAttempts)
    {
      var more: bool;
      more, history := DeliverAnother(queue, endpoint, now, backoff, maxAttempts, q0, history, n, |posted0|);
      if !more {
        return;
      }
      n := n + 1;
    }
  }

  // The time of the next attempt after the given one failed.
  function DefaultBackoff(attempts: int, now: int): int {
    var delays := [0, 30, 120, 600, 1800];
    now + delays[if attempts < 0 then 0 else if attempts >= 5 then 4 else attempts]
  }

  /** Attempts are counted from one when a delivery fails, so the zero delay is never used: every retry is
      at least half a minute away, and later attempts never wait less. */
  lemma RetriesAreLater(attempts: int, later: int, now: int)
    requires 1 <= attempts <= later
    ensures now + 30 <= DefaultBackoff(attempts, now) <= DefaultBackoff(later, now) <= now + 1800
  {
  }

  /** The times themselves: half a minute, two, ten and thirty minutes after the attempts made so far. */
  lemma RetriesAreAt(attempts: int, now: int)
    ensures DefaultBackoff(attempts, now)
            == now + (if attempts <= 0 then 0 else if attempts == 1 then 30 else if attempts == 2 then 120
                      else if attempts == 3 then 600 else 1800)
  {
  }

  // ----- The life of a delivery -----

  // Any number of deliverers lease and complete in any order, late and repeated completions included.
  datatype Step =
    | Enqueue(id: string, payload: string)
    | Lease(id: string, now: int)
    | Complete(id: string, delivered: bool, error: string, nextAttempt: int)

  function Next(q: Queue, step: Step, maxAttempts: int): Queue {
    match step
    case Enqueue(id, payload) => q[id := Fresh(payload)]
    case Lease(id, now) => if id in q && Due(q[id], now) then q[id := Leased(q[id])] else q
    case Complete(id, delivered, error, nextAttempt) =>
      if id in q then q[id := Resolved(q[id], delivered, error, nextAttempt, maxAttempts)] else q
  }

  function Exec(steps: seq<Step>, maxAttempts: int): Queue {
    if steps == [] then map[] else Next(Exec(steps[..|steps| - 1], maxAttempts), steps[|steps| - 1], maxAttempts)
  }

  /** Over its whole life no delivery is attempted more often than the limit allows, whatever interleaving of
      enqueues, leases and completions; only the first attempt is always made. */
  lemma {:induction false} AttemptsAreBounded(steps: seq<Step>, maxAttempts: int)
    ensures WithinLimit(Exec(steps, maxAttempts), maxAttempts)
  {
    if steps != [] {
      AttemptsAreBounded(steps[..|steps| - 1], maxAttempts);
    }
  }

  // Nothing of this is about the delivery.
  ghost predicate LeavesAlone(steps: seq<Step>, id: string) {
    forall i :: 0 <= i < |steps| ==> steps[i].id != id
  }

  lemma {:induction false} DeliveryStays(steps: seq<Step>, more: seq<Step>, maxAttempts: int, id: string)
    requires id in Exec(steps, maxAttempts) && LeavesAlone(more, id)
    ensures id in Exec(steps + more, maxAttempts)
    ensures Exec(steps + more, maxAttempts)[id] == Exec(steps, maxAttempts)[id]
  {
    if more == [] {
      assert steps + more == steps;
    } else {
      var init := more[..|more| - 1];
      assert (steps + more)[..|steps + more| - 1] == steps + init;
      DeliveryStays(steps, init, maxAttempts, id);
    }
  }

  /** A queued event is due at once, a leased one is not due, and one that was answered is due again exactly if
      it was refused below the limit, from the time given for its retry on. */
  lemma DueExactly(steps: seq<Step>, last: Step, more: seq<Step>, maxAttempts: int, now: int)
    requires last.Enqueue? || last.id in Exec(steps, maxAttempts)
    requires LeavesAlone(more, last.id)
    ensures var before, q := Exec(steps, maxAttempts), Exec(steps + [last] + more, maxAttempts);
            var due := last.id in DueIds(q, now);
            && last.id in q
            && (last.Enqueue? ==> q[last.id].payload == last.payload && q[last.id].attempts == 0 && (now >= 0 ==> due))
            && (last.Lease? && last.id in DueIds(before, last.now) ==>
                  !due && q[last.id].attempts == before[last.id].attempts + 1)
            && (last.Complete? ==>
                  (due <==> !last.delivered && before[last.id].attempts < maxAttempts && last.nextAttempt <= now))
  {
    assert (steps + [last])[..|steps|] == steps;
    DeliveryStays(steps + [last], more, maxAttempts, last.id);
  }
}
