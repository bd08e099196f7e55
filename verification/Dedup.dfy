/**
 The webhook handler: a notification is claimed, applied and completed in one transaction, so that a
 duplicate, however often it is delivered and whatever failed before, is applied once.
 */
module Dedup {
  import opened Inbound
  import opened PaymentEvents
  import opened PaymentLocks
  import opened PaymentStores
  import opened Statuses
  import opened Wrappers

  const MAX_ATTEMPTS := 8

  // One arrival of a notification, with the course that its statements take. A course that ends before the
  // commit is a process that died.
  datatype Delivery = Delivery(note: Notification, events: seq<Event>, script: seq<Fate>)

  datatype State = State(seen: set<Identity>, db: Db)

  function Worked(db: Db, d: Delivery): Work {
    Run(Work(db, Begin(true, d.events)), d.script)
  }

  predicate Commits(db: Db, d: Delivery) {
    Worked(db, d).h.phase == Done(true)
  }

  function Deliver(s: State, d: Delivery): State {
    if IdentityOf(d.note) in s.seen then s
    else State(if Commits(s.db, d) then s.seen + {IdentityOf(d.note)} else s.seen, Worked(s.db, d).db)
  }

  function DeliverAll(s: State, ds: seq<Delivery>): State {
    if ds == [] then s else Deliver(DeliverAll(s, ds[..|ds| - 1]), ds[|ds| - 1])
  }

  // ----- Duplicates -----

  // The deliveries whose notification had not been committed before.
  function Unseen(s: State, ds: seq<Delivery>): seq<Delivery> {
    if ds == [] then []
    else
      var before, last := Unseen(s, ds[..|ds| - 1]), ds[|ds| - 1];
      if IdentityOf(last.note) in DeliverAll(s, ds[..|ds| - 1]).seen then before else before + [last]
  }

  // Those among them that commit.
  function FirstOnes(s: State, ds: seq<Delivery>): seq<Delivery> {
    if ds == [] then []
    else
      var before, mid, last := FirstOnes(s, ds[..|ds| - 1]), DeliverAll(s, ds[..|ds| - 1]), ds[|ds| - 1];
      if IdentityOf(last.note) !in mid.seen && Commits(mid.db, last) then before + [last] else before
  }

  function Identities(ds: seq<Delivery>): set<Identity> {
    set i | 0 <= i < |ds| :: IdentityOf(ds[i].note)
  }

  lemma DeliverAppend(s: State, ds: seq<Delivery>, d: Delivery)
    ensures DeliverAll(s, ds + [d]) == Deliver(DeliverAll(s, ds), d)
  {
    assert (ds + [d])[..|ds|] == ds;
  }

  /** A delivery of a notification that was committed before changes nothing at all, whatever its course:
      leaving all of them out gives the same state. */
  lemma {:induction false} DuplicatesAreDropped(s: State, ds: seq<Delivery>)
    ensures DeliverAll(s, Unseen(s, ds)) == DeliverAll(s, ds)
  {
    if ds != [] {
      var init, last := ds[..|ds| - 1], ds[|ds| - 1];
      DuplicatesAreDropped(s, init);
      if IdentityOf(last.note) !in DeliverAll(s, init).seen {
        DeliverAppend(s, Unseen(s, init), last);
      }
    }
  }

  lemma IdentitiesAppend(ds: seq<Delivery>, d: Delivery)
    ensures Identities(ds + [d]) == Identities(ds) + {IdentityOf(d.note)}
  {
    forall x | x in Identities(ds) + {IdentityOf(d.note)}
      ensures x in Identities(ds + [d])
    {
      if x in Identities(ds) {
        var i :| 0 <= i < |ds| && IdentityOf(ds[i].note) == x;
        assert (ds + [d])[i] == ds[i];
      } else {
        assert (ds + [d])[|ds|] == d;
      }
    }
    forall x | x in Identities(ds + [d])
      ensures x in Identities(ds) + {IdentityOf(d.note)}
    {
      var i :| 0 <= i < |ds + [d]| && IdentityOf((ds + [d])[i].note) == x;
      assert i < |ds| ==> (ds + [d])[i] == ds[i];
    }
  }

  lemma {:induction false} SeenAreFirstOnes(s: State, ds: seq<Delivery>)
    ensures DeliverAll(s, ds).seen == s.seen + Identities(FirstOnes(s, ds))
  {
    if ds != [] {
      SeenAreFirstOnes(s, ds[..|ds| - 1]);
      IdentitiesAppend(FirstOnes(s, ds[..|ds| - 1]), ds[|ds| - 1]);
    }
  }

  /** No notification is committed twice: those that are have pairwise distinct identities. */
  lemma {:induction false} FirstOnesAreDistinct(s: State, ds: seq<Delivery>, i: nat, j: nat)
    requires i < j < |FirstOnes(s, ds)|
    ensures IdentityOf(FirstOnes(s, ds)[i].note) != IdentityOf(FirstOnes(s, ds)[j].note)
  {
    var before := FirstOnes(s, ds[..|ds| - 1]);
    if j < |before| {
      FirstOnesAreDistinct(s, ds[..|ds| - 1], i, j);
    } else {
      SeenAreFirstOnes(s, ds[..|ds| - 1]);
      assert IdentityOf(before[i].note) in Identities(before);
    }
  }

  // ----- What an aborted delivery leaves behind -----

  // Everything but the completed sessions, which are written outside every transaction.
  function Forget(db: Db): Db {
    db.(completed := {})
  }

  // The event writes something outside its transaction that was not there before: it marks an authorization
  // intent as paid, or it stores a registered schedule.
  predicate Marks(db: Db, ev: Event) {
    && ev.SavedCard? && ev.reference in db.awaiting
    && (ev.registers || (ev.reference in db.intents && db.intents[ev.reference] != Intent(SUCCEEDED, "")))
  }

  // A statement outside the transaction that writes what is already there.
  predicate IsVain(db: Db, st: Stmt) {
    match st
    case PutIntent(id, intent) => id in db.intents && db.intents[id] == intent
    case PutSubscription(_, _) => false
    case _ => true
  }

  ghost predicate LeavesNothing(db: Db, w: Work) {
    && (w.h.phase != Done(true) ==> Forget(w.db) == Forget(db))
    && w.h.inTx && NonePool(w.h.pending)
    && (forall i :: 0 <= i < |w.h.todo| ==> IsVain(db, w.h.todo[i]))
    && (forall i :: 0 <= i < |w.h.rest| ==> !Marks(db, w.h.rest[i]))
  }

  lemma {:induction false} PendingKeepsKeys(db: Db, ws: seq<Stmt>)
    requires NonePool(ws)
    ensures WrittenAll(db, ws).intents.Keys == db.intents.Keys && WrittenAll(db, ws).awaiting == db.awaiting
  {
    if ws != [] {
      PendingKeepsKeys(db, ws[..|ws| - 1]);
    }
  }

  lemma VainStatements(db: Db, view: Db, ev: Event)
    requires view.intents.Keys == db.intents.Keys && view.awaiting == db.awaiting && !Marks(db, ev)
    ensures forall i :: 0 <= i < |StatementsFor(view, ev)| ==> IsVain(db, StatementsFor(view, ev)[i])
  {
  }

  lemma VainWrite(db: Db, db': Db, st: Stmt)
    requires Forget(db') == Forget(db) && OnPool(st) && IsVain(db, st)
    ensures Forget(Written(db', st)) == Forget(db)
  {
    if st.PutIntent? {
      assert db.intents[st.id := st.intent] == db.intents;
    }
  }

  lemma StatementLeavesNothing(db: Db, w: Work, fate: Fate)
    requires LeavesNothing(db, w) && !w.h.phase.Done? && w.h.todo != []
    ensures LeavesNothing(db, Advance(w, fate))
  {
    WrittenOne(w.db, w.h.todo[0]);
    if OnPool(w.h.todo[0]) {
      VainWrite(db, w.db, w.h.todo[0]);
    }
  }

  lemma MoveLeavesNothing(db: Db, w: Work, fate: Fate)
    requires LeavesNothing(db, w)
    ensures LeavesNothing(db, Advance(w, fate))
  {
    if !w.h.phase.Done? {
      if w.h.todo != [] {
        StatementLeavesNothing(db, w, fate);
      } else if w.h.rest != [] {
        PendingKeepsKeys(w.db, w.h.pending);
        VainStatements(db, View(w), w.h.rest[0]);
      }
    }
  }

  lemma {:induction false} UnmarkedLeavesNothing(db: Db, events: seq<Event>, script: seq<Fate>)
    requires forall i :: 0 <= i < |events| ==> !Marks(db, events[i])
    ensures LeavesNothing(db, Run(Work(db, Begin(true, events)), script))
  {
    if script != [] {
      UnmarkedLeavesNothing(db, events, script[..|script| - 1]);
      MoveLeavesNothing(db, Run(Work(db, Begin(true, events)), script[..|script| - 1]), script[|script| - 1]);
    }
  }

  // The first `k` events are passed over because their lookup fails.
  function AllMiss(k: nat): seq<Fate> {
    if k == 0 then [] else AllMiss(k - 1) + [Misses]
  }

  lemma MissMove(db: Db, rest: seq<Event>)
    requires rest != []
    ensures Advance(Work(db, Begin(true, rest)), Misses) == Work(db, Begin(true, rest[1..]))
  {
  }

  lemma {:induction false} MissedEvents(db: Db, events: seq<Event>, k: nat)
    requires k <= |events|
    ensures Run(Work(db, Begin(true, events)), AllMiss(k)) == Work(db, Begin(true, events[k..]))
  {
    if k == 0 {
      assert events[0..] == events;
    } else {
      MissedEvents(db, events, k - 1);
      RunStep(Work(db, Begin(true, events)), AllMiss(k - 1), Misses);
      MissMove(db, events[k - 1..]);
      assert events[k - 1..][1..] == events[k..];
    }
  }

  lemma ReachedEvent(db: Db, events: seq<Event>, k: nat)
    requires k < |events|
    ensures Run(Work(db, Begin(true, events)), AllMiss(k) + [Lands])
            == Work(db, Handler(true, events[k..][1..], StatementsFor(db, events[k]), [], false, false, Applying))
  {
    MissedEvents(db, events, k);
    RunStep(Work(db, Begin(true, events)), AllMiss(k), Lands);
  }

  // The next statement runs outside the transaction, which is still open.
  lemma PoolMove(w: Work)
    requires w.h.phase.Applying? && w.h.todo != [] && OnPool(w.h.todo[0]) && w.h.pending == []
    ensures Advance(w, Lands) == Work(Written(w.db, w.h.todo[0]), w.h.(todo := w.h.todo[1..]))
  {
    WrittenOne(w.db, w.h.todo[0]);
  }

  lemma MarkedStatements(db: Db, ev: Event)
    requires Marks(db, ev)
    ensures var todo := StatementsFor(db, ev);
            && todo != [] && OnPool(todo[0])
            && (Forget(Written(db, todo[0])) != Forget(db)
                || (|todo| == 2 && todo[1] == PutSubscription(ev.reference, true) && Written(db, todo[0]) == db))
  {
    var todo := StatementsFor(db, ev);
    if todo[0].PutIntent? && db.intents[ev.reference] == Intent(SUCCEEDED, "") {
      assert db.intents[ev.reference := Intent(SUCCEEDED, "")] == db.intents;
    } else if todo[0].PutIntent? {
      assert Written(db, todo[0]).intents[ev.reference] != db.intents[ev.reference];
    } else {
      assert ev.reference in db.awaiting && ev.reference !in Written(db, todo[0]).awaiting;
    }
  }

  // A course that reaches the event, runs its first statements and then dies.
  lemma MarkedLeavesSomething(db: Db, events: seq<Event>, k: nat) returns (script: seq<Fate>)
    requires k < |events| && Marks(db, events[k])
    ensures var w := Run(Work(db, Begin(true, events)), script);
            !w.h.phase.Done? && Forget(w.db) != Forget(db)
  {
    var w0, todo := Work(db, Begin(true, events)), StatementsFor(db, events[k]);
    var h := Handler(true, events[k..][1..], todo, [], false, false, Applying);
    ReachedEvent(db, events, k);
    MarkedStatements(db, events[k]);
    script := AllMiss(k) + [Lands] + [Lands];
    PoolMove(Work(db, h));
    RunStep(w0, AllMiss(k) + [Lands], Lands);
    if Forget(Written(db, todo[0])) == Forget(db) {
      PoolMove(Work(db, h.(todo := todo[1..])));
      assert events[k].reference !in Written(db, todo[1]).awaiting;
      RunStep(w0, script, Lands);
      script := script + [Lands];
    }
  }

  /** The exact condition: a delivery that does not commit leaves nothing behind but completed sessions,
      wherever it breaks off, if and only if none of its events marks something outside the transaction. */
  lemma AbortIsCleanIff(db: Db, note: Notification, events: seq<Event>)
    ensures (forall script :: !Commits(db, Delivery(note, events, script)) ==>
                                Forget(Worked(db, Delivery(note, events, script)).db) == Forget(db))
            <==> forall i :: 0 <= i < |events| ==> !Marks(db, events[i])
  {
    if forall i :: 0 <= i < |events| ==> !Marks(db, events[i]) {
      forall script | !Commits(db, Delivery(note, events, script))
        ensures Forget(Worked(db, Delivery(note, events, script)).db) == Forget(db)
      {
        UnmarkedLeavesNothing(db, events, script);
      }
    } else {
      var i :| 0 <= i < |events| && Marks(db, events[i]);
      var script := MarkedLeavesSomething(db, events, i);
      assert !Commits(db, Delivery(note, events, script));
    }
  }

  // ----- The refinement -----

  function EventsOf(ds: seq<Delivery>): seq<Event> {
    if ds == [] then [] else EventsOf(ds[..|ds| - 1]) + ds[|ds| - 1].events
  }

  // Of the deliveries that are not duplicates, those that commit have succeeded in every statement, and the
  // others have nothing to mark.
  ghost predicate Sound(s: State, ds: seq<Delivery>) {
    ds == []
    || var mid, last := DeliverAll(s, ds[..|ds| - 1]), ds[|ds| - 1];
       && Sound(s, ds[..|ds| - 1])
       && (IdentityOf(last.note) !in mid.seen ==>
             if Commits(mid.db, last) then AllLand(last.script)
             else forall i :: 0 <= i < |last.events| ==> !Marks(mid.db, last.events[i]))
  }

  // Two stores that differ in the completed sessions only.
  predicate Alike(a: Db, b: Db) {
    a == b.(completed := a.completed)
  }

  lemma StatementKeepsAlike(a: Db, b: Db, st: Stmt)
    requires Alike(a, b)
    ensures Alike(Written(a, st), Written(b, st))
  {
  }

  lemma {:induction false} StatementsKeepAlike(a: Db, b: Db, ws: seq<Stmt>)
    requires Alike(a, b)
    ensures Alike(WrittenAll(a, ws), WrittenAll(b, ws))
  {
    if ws != [] {
      StatementsKeepAlike(a, b, ws[..|ws| - 1]);
      StatementKeepsAlike(WrittenAll(a, ws[..|ws| - 1]), WrittenAll(b, ws[..|ws| - 1]), ws[|ws| - 1]);
    }
  }

  lemma AlikeAskTheSame(a: Db, b: Db, ev: Event)
    requires Alike(a, b)
    ensures StatementsFor(a, ev) == StatementsFor(b, ev)
  {
  }

  // Applying events does not depend on which sessions are completed.
  lemma {:induction false} CompletedIsNotRead(a: Db, b: Db, events: seq<Event>)
    requires Alike(a, b)
    ensures Alike(ApplyAll(a, events), ApplyAll(b, events))
  {
    if events != [] {
      var n := |events| - 1;
      CompletedIsNotRead(a, b, events[..n]);
      var a', b' := ApplyAll(a, events[..n]), ApplyAll(b, events[..n]);
      AlikeAskTheSame(a', b', events[n]);
      StatementsKeepAlike(a', b', StatementsFor(b', events[n]));
    }
  }

  lemma CommittedIsApplyAll(db: Db, d: Delivery)
    requires Commits(db, d) && AllLand(d.script)
    ensures Worked(db, d).db == ApplyAll(db, d.events)
  {
    AllLandIsApplyAll(db, true, d.events, d.script);
  }

  lemma DeliveryRefines(s: State, direct: Db, d: Delivery)
    requires Forget(s.db) == Forget(direct) && IdentityOf(d.note) !in s.seen && Commits(s.db, d) && AllLand(d.script)
    ensures Forget(Deliver(s, d).db) == Forget(ApplyAll(direct, d.events))
  {
    CommittedIsApplyAll(s.db, d);
    CompletedIsNotRead(s.db, direct, d.events);
  }

  /** The refinement: a sequence of deliveries, with duplicates and aborted transactions anywhere, leaves the
      same intents, transitions, queued events and awaiting subscriptions as applying, once each and in
      order, the events of the first committed delivery of every notification. */
  lemma {:induction false} DuplicatesChangeNothing(s: State, ds: seq<Delivery>)
    requires Sound(s, ds)
    ensures Forget(DeliverAll(s, ds).db) == Forget(ApplyAll(s.db, EventsOf(FirstOnes(s, ds))))
  {
    if ds != [] {
      var init, last := ds[..|ds| - 1], ds[|ds| - 1];
      var before, mid := FirstOnes(s, init), DeliverAll(s, init);
      DuplicatesChangeNothing(s, init);
      if IdentityOf(last.note) !in mid.seen {
        if Commits(mid.db, last) {
          DeliveryRefines(mid, ApplyAll(s.db, EventsOf(before)), last);
          assert (before + [last])[..|before|] == before;
          ApplyAllAppend(s.db, EventsOf(before), last.events);
        } else {
          UnmarkedLeavesNothing(mid.db, last.events, last.script);
        }
      }
    }
  }

  // ----- The handler -----

  ghost function Seen(rows: Inbound.Table): set<Identity> {
    set id | id in rows :: IdentityOf(rows[id].note)
  }

  lemma SeenAfterInsert(rows: Inbound.Table, id: nat, row: Row)
    requires id !in rows
    ensures Seen(rows[id := row]) == Seen(rows) + {IdentityOf(row.note)}
  {
    var rows' := rows[id := row];
    forall x | x in Seen(rows) + {IdentityOf(row.note)}
      ensures x in Seen(rows')
    {
      if x in Seen(rows) {
        var other :| other in rows && IdentityOf(rows[other].note) == x;
        assert other in rows' && rows'[other] == rows[other];
      } else {
        assert id in rows';
      }
    }
  }

  // A row that was not there before, for this notification, and applied.
  ghost predicate IsApplied(before: Inbound.Table, after: Inbound.Table, note: Notification) {
    exists id :: id in after && id !in before && after[id].note == note && after[id].status.Applied?
  }

  /** The handler itself. It reads and writes the dedup log and the payments in one transaction, and leaves
      the row of a committed notification in its final status. A new notification whose lookups and statements
      all succeed has its events applied in turn and its row marked so, unless it waits for itself. */
  method HandleWebhook(
    inbound: InboundStore, payments: PaymentStore, note: Notification, events: seq<Event>, account: string, now: int)
    requires inbound.Valid() && payments.Idle()
    modifies inbound, payments
    ensures inbound.Valid() && payments.Idle() && old(payments.moves) <= payments.moves
    ensures State(Seen(inbound.rows), payments.db)
            == Deliver(State(Seen(old(inbound.rows)), old(payments.db)),
                       Delivery(note, events, payments.Met(old(payments.moves), payments.moves)))
    ensures forall id :: id in inbound.rows && id !in old(inbound.rows) ==> inbound.rows[id].status.Applied?
    ensures forall id :: id in old(inbound.rows) ==> id in inbound.rows && inbound.rows[id] == old(inbound.rows)[id]
    ensures && payments.AllLanded(old(payments.moves)) && !WaitsForItself(old(payments.db), events)
            && (forall id :: id in old(inbound.rows) ==> IdentityOf(old(inbound.rows)[id].note) != IdentityOf(note))
            ==> && AppliedInTurn(old(payments.db), events, payments.db)
                && IsApplied(old(inbound.rows), inbound.rows, note)
  {
    var savedRows, token := inbound.rows, inbound.nextToken;
    var id, owned := inbound.ClaimInbound(note, account, now);
    if !owned {
      assert IdentityOf(inbound.rows[id].note) in Seen(inbound.rows);
      return;
    }
    assert IdentityOf(note) !in Seen(savedRows);
    var committed := ApplyInTransaction(payments, note, events);
    if committed {
      var error := inbound.CompleteInbound(id, token, account, Success, MAX_ATTEMPTS, now);
      assert inbound.rows == savedRows[id := inbound.rows[id]];
      assert inbound.rows[id].note == note;
      SeenAfterInsert(savedRows, id, inbound.rows[id]);
    } else {
      // The row goes, the id drawn for it does not come back.
      inbound.rows := savedRows;
    }
  }

  // The transaction around the events: it commits only if no statement has failed. A handler that waits for
  // its own lock is killed in the end.
  method ApplyInTransaction(payments: PaymentStore, ghost note: Notification, events: seq<Event>)
    returns (committed: bool)
    requires payments.Idle()
    modifies payments
    ensures payments.Idle() && old(payments.moves) <= payments.moves
    ensures var d := Delivery(note, events, payments.Met(old(payments.moves), payments.moves));
            payments.db == Worked(old(payments.db), d).db && committed == Commits(old(payments.db), d)
    ensures payments.AllLanded(old(payments.moves)) && !WaitsForItself(old(payments.db), events) ==>
              committed && AppliedInTurn(old(payments.db), events, payments.db)
  {
    ghost var w0, first := Work(payments.db, Begin(true, events)), payments.moves;
    payments.BeginTx();
    var failed, stuck: bool;
    ghost var h;
    failed, stuck, h := payments.ApplyInboundEvents(events);
    committed := EndOf(payments, stuck, w0, first, h);
  }

  // Such a handler has met the course so far, and is at the end of its events or stuck.
  ghost predicate AtTheEnd(payments: PaymentStore, stuck: bool, w0: Work, first: nat, h: Handler)
    reads payments
  {
    && payments.Went(w0, first, h) && payments.inTx
    && if stuck then h.todo != [] && Blocked(h, h.todo[0]) else h.todo == [] && h.rest == []
  }

  method EndOf(payments: PaymentStore, stuck: bool, ghost w0: Work, ghost first: nat, ghost h: Handler)
    returns (committed: bool)
    requires AtTheEnd(payments, stuck, w0, first, h)
    modifies payments
    ensures payments.Idle() && first <= old(payments.moves) <= payments.moves
    ensures var w := Run(w0, payments.Met(first, payments.moves));
            payments.db == w.db && (committed <==> w.h.phase == Done(true))
    ensures payments.AllLanded(old(payments.moves)) && !stuck && !old(payments.broken) ==>
              committed && payments.db == WrittenAll(old(payments.db), old(payments.pending))
  {
    ghost var w1, mid := Work(payments.db, h), payments.moves;
    if stuck {
      payments.EndTx(false);
      return false;
    }
    committed := CompleteAndCommit(payments, h);
    payments.MoveOn(w0, w1, Advanced(payments, w1, mid), first, mid, payments.moves);
  }

  ghost function Advanced(payments: PaymentStore, w: Work, first: nat): Work
    requires first <= payments.moves
    reads payments
  {
    Run(w, payments.Met(first, payments.moves))
  }

  // The notification is completed and the transaction committed, or rolled back.
  method CompleteAndCommit(payments: PaymentStore, ghost h: Handler) returns (committed: bool)
    requires payments.Serves(h) && payments.inTx && h.todo == [] && h.rest == []
    modifies payments
    ensures payments.Idle() && old(payments.moves) <= payments.moves
    ensures var w := Advanced(payments, Work(old(payments.db), h), old(payments.moves));
            payments.db == w.db && w.h.phase == Done(committed)
    ensures payments.AllLanded(old(payments.moves)) && !h.broken ==>
              committed && payments.db == WrittenAll(old(payments.db), h.pending)
  {
    ghost var w, first := Work(payments.db, h), payments.moves;
    payments.OneMove(w, first);
    var completes := payments.Try();
    if payments.broken || !completes.Lands? {
      payments.EndTx(false);
      return false;
    }
    ghost var w1, mid := Advance(w, payments.course(first)), payments.moves;
    payments.OneMove(w1, mid);
    var commits := payments.Try();
    payments.MoveOn(w, w1, Advance(w1, payments.course(mid)), first, mid, payments.moves);
    committed := !commits.Fails?;
    payments.EndTx(committed);
  }
}
