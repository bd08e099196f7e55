/** Applying provider notifications about one-time payments to the in-process store. */
module Notifications {
  import opened Indexes
  import opened Memory
  import opened Statuses
  import opened Wrappers

  datatype Event = Event(eventType: string, reference: string, status: string)

  // The intent a reference names: by its own id, else by the gateway's reference.
  function Resolve(b: Book, reference: string): Option<Intent> {
    var own := Get(b.intents, reference);
    if own.Some? then own else Lookup(b.intents, reference)
  }

  function Applied(pi: Intent, ev: Event): Intent {
    pi.(status := ev.status,
        failure := if ev.eventType == FAILED_EVENT then FAILURE_TEXT
                   else if ev.status == SUCCEEDED then ""
                   else pi.failure)
  }

  function AfterChange(b: Book, pi: Intent, ev: Event): Book {
    var b1 := Enqueue(PutIntent(b, Applied(pi, ev)), Queued(ev.eventType, pi.id, ev.status));
    var session := Lookup(b1.sessions, pi.id);
    if ev.status == SUCCEEDED && session.Some? then
      var done := session.value.(status := "complete", paymentStatus := "paid");
      Enqueue(PutSession(b1, done), Queued("checkout.session.completed", done.id, done.status))
    else b1
  }

  function AfterEvent(b: Book, ev: Event): Book {
    var pi := Resolve(b, ev.reference);
    if pi.None? || pi.value.status == ev.status then b else AfterChange(b, pi.value, ev)
  }

  function AfterAll(b: Book, events: seq<Event>): Book {
    if events == [] then b else AfterEvent(AfterAll(b, events[..|events| - 1]), events[|events| - 1])
  }

  // One intent has got a new status and its event is queued; a success also completes the session of the
  // intent, and queues the session's event.
  ghost predicate StatusMoved(b: Book, b': Book, pi: Intent, ev: Event) {
    var session := Lookup(b.sessions, pi.id);
    && b'.intents.rows
       == b.intents.rows[
            pi.id := pi.(status := ev.status,
                         failure := if ev.eventType == "payment_intent.payment_failed" then FAILURE_TEXT
                                    else if ev.status == "succeeded" then "" else pi.failure)]
    && (if ev.status == "succeeded" && session.Some? then
          && b'.sessions.rows
             == b.sessions.rows[session.value.id := session.value.(status := "complete", paymentStatus := "paid")]
          && b'.queue == b.queue + [Queued(ev.eventType, pi.id, ev.status),
                                    Queued("checkout.session.completed", session.value.id, "complete")]
        else b'.sessions == b.sessions && b'.queue == b.queue + [Queued(ev.eventType, pi.id, ev.status)])
    && b'.subscriptions == b.subscriptions && b'.invoices == b.invoices
  }

  // What an event does to the tables: it is about the intent with that id, or else the one with that gateway
  // reference, and does nothing for an unknown one or one that has the status already.
  ghost predicate EventTaken(b: Book, b': Book, ev: Event) {
    var own, other := Get(b.intents, ev.reference), Lookup(b.intents, ev.reference);
    if own.None? && other.None? then b' == b
    else
      var pi := if own.Some? then own.value else other.value;
      if pi.status == ev.status then b' == b else StatusMoved(b, b', pi, ev)
  }

  lemma AfterEventIsTaken(b: Book, ev: Event)
    ensures EventTaken(b, AfterEvent(b, ev), ev)
  {
  }

  method ProcessEvent(m: MemoryStore, ev: Event)
    modifies m
    ensures m.Value() == AfterEvent(old(m.Value()), ev)
    ensures EventTaken(old(m.Value()), m.Value(), ev)
  {
    AfterEventIsTaken(m.Value(), ev);
    var found := m.GetIntent(ev.reference);
    if found.None? {
      found := m.GetByGatewayReference(ev.reference);
      if found.None? {
        return;
      }
    }
    var pi := found.value;
    if pi.status == ev.status {
      return;
    }
    pi := pi.(status := ev.status);
    if ev.eventType == FAILED_EVENT {
      pi := pi.(failure := FAILURE_TEXT);
    } else if ev.status == SUCCEEDED {
      pi := pi.(failure := "");
    }
    m.StoreIntent(pi);
    m.EnqueueEvent(ev.eventType, pi.id, pi.status);
    if ev.status == SUCCEEDED {
      var session := m.GetSessionByPaymentIntent(pi.id);
      if session.Some? {
        var done := session.value.(status := "complete", paymentStatus := "paid");
        m.StoreSession(done);
        m.EnqueueEvent("checkout.session.completed", done.id, done.status);
      }
    }
  }

  // ----- Idempotence -----

  function GatewayReferenceOf(): Intent -> string {
    (pi: Intent) => pi.gatewayReference
  }

  // Each intent is stored under its id, and gateway references are unique.
  ghost predicate WellKept(b: Book) {
    && (forall id :: id in b.intents.rows ==> b.intents.rows[id].id == id)
    && Agrees(b.intents, GatewayReferenceOf())
  }

  function Target(b: Book, ev: Event): Option<string> {
    match Resolve(b, ev.reference)
    case None => None
    case Some(pi) => Some(pi.id)
  }

  // The event finds nothing to do.
  predicate Quiet(b: Book, ev: Event) {
    Resolve(b, ev.reference).None? || Resolve(b, ev.reference).value.status == ev.status
  }

  lemma EventKeepsTargets(b: Book, ev: Event, other: Event)
    requires WellKept(b)
    ensures WellKept(AfterEvent(b, ev))
    ensures Target(AfterEvent(b, ev), other) == Target(b, other)
    ensures Target(b, other).Some? ==> Target(b, other).value in b.intents.rows
  {
    if !Quiet(b, ev) {
      var pi := Resolve(b, ev.reference).value;
      PutKeepsAgreementIff(b.intents, GatewayReferenceOf(), pi.id, Applied(pi, ev));
      assert AfterEvent(b, ev).intents == Put(b.intents, pi.id, pi.gatewayReference, Applied(pi, ev));
      assert AfterEvent(b, ev).intents.index == b.intents.index;
    }
  }

  lemma {:induction false} AllKeepTargets(b: Book, events: seq<Event>, other: Event)
    requires WellKept(b)
    ensures WellKept(AfterAll(b, events))
    ensures Target(AfterAll(b, events), other) == Target(b, other)
  {
    if events != [] {
      AllKeepTargets(b, events[..|events| - 1], other);
      EventKeepsTargets(AfterAll(b, events[..|events| - 1]), events[|events| - 1], other);
    }
  }

  // An event either changes nothing, or queues something, changes the status of its own intent to its
  // own status and no other intent's status.
  lemma EventEffect(b: Book, ev: Event)
    requires WellKept(b)
    ensures Quiet(b, ev) ==> AfterEvent(b, ev) == b
    ensures !Quiet(b, ev) ==> |AfterEvent(b, ev).queue| > |b.queue|
    ensures Target(b, ev).Some? ==> AfterEvent(b, ev).intents.rows[Target(b, ev).value].status == ev.status
    ensures forall id :: id in b.intents.rows && Target(b, ev) != Some(id) ==>
                           AfterEvent(b, ev).intents.rows[id] == b.intents.rows[id]
  {
    EventKeepsTargets(b, ev, ev);
  }

  // After the whole list, the intent of one of its events has the status of one of its events: of the
  // last one about it.
  lemma {:induction false} StatusComesFromEvents(b: Book, events: seq<Event>, i: nat) returns (k: nat)
    requires WellKept(b) && i < |events| && Target(b, events[i]).Some?
    ensures k < |events| && Target(b, events[k]) == Target(b, events[i])
    ensures var id := Target(b, events[i]).value;
            var rows := AfterAll(b, events).intents.rows;
            id in rows && rows[id].status == events[k].status
  {
    var n := |events| - 1;
    var init, last := events[..n], events[n];
    AllKeepTargets(b, init, last);
    AllKeepTargets(b, init, events[i]);
    EventKeepsTargets(AfterAll(b, init), last, events[i]);
    EventEffect(AfterAll(b, init), last);
    if Target(b, last) == Target(b, events[i]) {
      k := n;
    } else {
      k := StatusComesFromEvents(b, init, i);
    }
  }

  lemma {:induction false} QuietListChangesNothing(b: Book, events: seq<Event>)
    requires WellKept(b) && forall i :: 0 <= i < |events| ==> Quiet(b, events[i])
    ensures AfterAll(b, events) == b
  {
    if events != [] {
      QuietListChangesNothing(b, events[..|events| - 1]);
      EventEffect(b, events[|events| - 1]);
    }
  }

  lemma {:induction false} UnchangedListIsQuiet(b: Book, events: seq<Event>)
    requires WellKept(b)
    ensures |AfterAll(b, events).queue| >= |b.queue|
    ensures |AfterAll(b, events).queue| == |b.queue| ==>
              AfterAll(b, events) == b && forall i :: 0 <= i < |events| ==> Quiet(b, events[i])
  {
    if events != [] {
      var n := |events| - 1;
      UnchangedListIsQuiet(b, events[..n]);
      AllKeepTargets(b, events[..n], events[n]);
      EventEffect(AfterAll(b, events[..n]), events[n]);
      if |AfterAll(b, events).queue| == |b.queue| {
        forall i | 0 <= i < |events|
          ensures Quiet(b, events[i])
        {
          assert i < n ==> events[..n][i] == events[i];
        }
      }
    }
  }

  // Events about the same intent carry the same status; distinct intents are the simplest case.
  ghost predicate Consistent(b: Book, events: seq<Event>) {
    forall i, j :: 0 <= i < |events| && 0 <= j < |events| && Target(b, events[i]).Some?
                   && Target(b, events[i]) == Target(b, events[j])
                   ==> events[i].status == events[j].status
  }

  lemma TargetIsResolved(b: Book, ev: Event)
    requires WellKept(b) && Target(b, ev).Some?
    ensures var id := Target(b, ev).value;
            id in b.intents.rows && (Quiet(b, ev) <==> b.intents.rows[id].status == ev.status)
  {
    EventKeepsTargets(b, ev, ev);
  }

  lemma ConsistentIsQuiet(b: Book, events: seq<Event>, i: nat)
    requires WellKept(b) && Consistent(b, events) && i < |events|
    ensures Quiet(AfterAll(b, events), events[i])
  {
    AllKeepTargets(b, events, events[i]);
    if Target(b, events[i]).Some? {
      var k := StatusComesFromEvents(b, events, i);
      TargetIsResolved(AfterAll(b, events), events[i]);
    }
  }

  lemma QuietIsConsistent(b: Book, events: seq<Event>, i: nat, j: nat)
    requires WellKept(b) && i < |events| && j < |events|
    requires Target(b, events[i]).Some? && Target(b, events[i]) == Target(b, events[j])
    requires Quiet(b, events[i]) && Quiet(b, events[j])
    ensures events[i].status == events[j].status
  {
    TargetIsResolved(b, events[i]);
    TargetIsResolved(b, events[j]);
  }

  /** Applying a list of events a second time changes nothing and queues nothing, session completions
      included, if and only if no two of its events give the same intent different statuses. */
  lemma SecondApplicationIsQuietIff(b: Book, events: seq<Event>)
    requires WellKept(b)
    ensures AfterAll(AfterAll(b, events), events) == AfterAll(b, events) <==> Consistent(b, events)
  {
    var once := AfterAll(b, events);
    AllKeepTargets(b, events, Event("", "", ""));
    if Consistent(b, events) {
      forall i | 0 <= i < |events|
        ensures Quiet(once, events[i])
      {
        ConsistentIsQuiet(b, events, i);
      }
      QuietListChangesNothing(once, events);
    }
    if AfterAll(once, events) == once {
      UnchangedListIsQuiet(once, events);
      forall i, j | 0 <= i < |events| && 0 <= j < |events| && Target(b, events[i]).Some?
                    && Target(b, events[i]) == Target(b, events[j])
        ensures events[i].status == events[j].status
      {
        AllKeepTargets(b, events, events[i]);
        AllKeepTargets(b, events, events[j]);
        QuietIsConsistent(once, events, i, j);
      }
    }
  }

  /** Events about distinct intents are consistent, so a re-sent batch of them is a no-op. */
  lemma DistinctIntentsAreConsistent(b: Book, events: seq<Event>)
    requires WellKept(b)
    requires forall i, j :: 0 <= i < j < |events| && Target(b, events[i]).Some? ==>
                              Target(b, events[i]) != Target(b, events[j])
    ensures AfterAll(AfterAll(b, events), events) == AfterAll(b, events)
  {
    SecondApplicationIsQuietIff(b, events);
  }

  /** Without that condition it fails: a batch that reports one intent as paid and then as canceled starts
      over every time it is sent. */
  lemma ConflictingBatchStartsOver()
    ensures var b := PutIntent(EMPTY_BOOK, Intent("pi", "acc", 100, "requires_action", "", "gw"));
            var events := [Event("payment_intent.succeeded", "pi", SUCCEEDED), Event(FAILED_EVENT, "gw", CANCELED)];
            WellKept(b) && AfterAll(AfterAll(b, events), events) != AfterAll(b, events)
  {
    var b := PutIntent(EMPTY_BOOK, Intent("pi", "acc", 100, "requires_action", "", "gw"));
    var events := [Event("payment_intent.succeeded", "pi", SUCCEEDED), Event(FAILED_EVENT, "gw", CANCELED)];
    assert WellKept(b);
    assert Target(b, events[0]) == Some("pi") && Target(b, events[1]) == Some("pi");
    SecondApplicationIsQuietIff(b, events);
  }
}

/** The router of the in-process path, which hands each event of a notification to its handler. */
module Dispatch {
  import opened Memory
  import opened Subscriptions
  import N = Notifications

  datatype Notice =
    | OneTime(event: N.Event)
    | SavedCard(authIntent: string, answer: Registration)
    | Charged(gatewayId: string, reference: string, amount: int, freshId: string)

  function Dispatched(b: Book, notice: Notice): Book {
    match notice
    case OneTime(event) => N.AfterEvent(b, event)
    case SavedCard(authIntent, answer) => Activate(b, authIntent, answer, ALL_LAND)
    case Charged(gatewayId, reference, amount, freshId) => Cycle(b, gatewayId, reference, amount, freshId, ALL_LAND)
  }

  function DispatchedAll(b: Book, notices: seq<Notice>): Book {
    if notices == [] then b else Dispatched(DispatchedAll(b, notices[..|notices| - 1]), notices[|notices| - 1])
  }

  // Each notice has had the effect of its kind on the tables.
  ghost predicate NoticeTaken(b: Book, b': Book, notice: Notice) {
    && (notice.OneTime? ==> N.EventTaken(b, b', notice.event))
    && (notice.SavedCard? ==> SavedCardTaken(b, b', notice.authIntent, notice.answer))
    && (notice.Charged? ==> CycleTaken(b, b', notice.gatewayId, notice.reference, notice.amount, notice.freshId))
  }

  ghost predicate TakenBetween(books: seq<Book>, notices: seq<Notice>) {
    |books| == |notices| + 1 && forall k :: 0 <= k < |notices| ==> NoticeTaken(books[k], books[k + 1], notices[k])
  }

  ghost predicate TakenInTurn(b: Book, b': Book, notices: seq<Notice>) {
    exists books: seq<Book> :: TakenBetween(books, notices) && books[0] == b && books[|notices|] == b'
  }

  lemma DispatchedIsTaken(b: Book, notice: Notice)
    ensures NoticeTaken(b, Dispatched(b, notice), notice)
  {
    match notice
    case OneTime(event) => N.AfterEventIsTaken(b, event);
    case SavedCard(authIntent, answer) => ActivateIsTaken(b, authIntent, answer);
    case Charged(gatewayId, reference, amount, freshId) => CycleIsTaken(b, gatewayId, reference, amount, freshId);
  }

  lemma DispatchedInTurn(b: Book, notices: seq<Notice>)
    ensures TakenInTurn(b, DispatchedAll(b, notices), notices)
  {
    var books := seq(|notices| + 1, k requires 0 <= k <= |notices| => DispatchedAll(b, notices[..k]));
    forall k | 0 <= k < |notices|
      ensures NoticeTaken(books[k], books[k + 1], notices[k])
    {
      assert notices[..k + 1][..k] == notices[..k];
      DispatchedIsTaken(books[k], notices[k]);
    }
    assert notices[..|notices|] == notices && notices[..0] == [];
    assert TakenBetween(books, notices);
  }

  /** The loop over the notices of a notification: each is handed to the handler of its kind, in turn. */
  method DispatchAll(m: MemoryStore, notices: seq<Notice>)
    modifies m
    ensures m.Value() == DispatchedAll(old(m.Value()), notices)
    ensures TakenInTurn(old(m.Value()), m.Value(), notices)
  {
    DispatchedInTurn(m.Value(), notices);
    for i := 0 to |notices|
      invariant m.Value() == DispatchedAll(old(m.Value()), notices[..i])
    {
      assert notices[..i + 1][..i] == notices[..i];
      match notices[i]
      case OneTime(event) => N.ProcessEvent(m, event);
      case SavedCard(authIntent, answer) => ActivateSubscription(m, authIntent, answer);
      case Charged(gatewayId, reference, amount, freshId) =>
        RecordSubscriptionCycle(m, gatewayId, reference, amount, freshId);
    }
    assert notices[..|notices|] == notices;
  }

  function OneTimes(events: seq<N.Event>): seq<Notice> {
    if events == [] then [] else OneTimes(events[..|events| - 1]) + [OneTime(events[|events| - 1])]
  }

  lemma {:induction false} OneTimesAreAfterAll(b: Book, events: seq<N.Event>)
    ensures DispatchedAll(b, OneTimes(events)) == N.AfterAll(b, events)
  {
    if events != [] {
      OneTimesAreAfterAll(b, events[..|events| - 1]);
      assert OneTimes(events)[..|OneTimes(events)| - 1] == OneTimes(events[..|events| - 1]);
    }
  }

  /** A notification of one-time payments about distinct intents that is dispatched a second time changes
      nothing and queues nothing. */
  lemma ResentBatchIsQuiet(b: Book, events: seq<N.Event>)
    requires N.WellKept(b)
    requires forall i, j :: 0 <= i < j < |events| && N.Target(b, events[i]).Some? ==>
                              N.Target(b, events[i]) != N.Target(b, events[j])
    ensures var once := DispatchedAll(b, OneTimes(events)); DispatchedAll(once, OneTimes(events)) == once
  {
    OneTimesAreAfterAll(b, events);
    OneTimesAreAfterAll(N.AfterAll(b, events), events);
    N.DistinctIntentsAreConsistent(b, events);
  }
}
