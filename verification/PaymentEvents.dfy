/**
 Applying provider events to the durable store, one SQL statement at a time.

 A webhook applies the events of a notification inside one transaction, the reconciler applies them
 outside of any. Either way a statement may fail, and the process may die between any two. Some statements
 ignore the transaction and commit on their own: those that complete a checkout session, and those of the
 subscription branch, which also marks the authorization intent of a subscription as paid.
 */
module PaymentEvents {
  import opened Statuses
  import opened Wrappers

  datatype Intent = Intent(status: string, failure: string)

  datatype Reason = Inbound(eventType: string) | Create | ProviderFailed

  datatype Transition = Transition(intent: string, fromStatus: string, toStatus: string, reason: Reason)

  datatype Out = PaymentOut(eventType: string, intent: string, status: string) | SessionOut(session: string)

  // `refs` says which intent a gateway reference belongs to, `sessionOf` which checkout session an intent
  // was created for. `awaiting` are the authorization intents of subscriptions without a schedule.
  datatype Db = Db(
    intents: map<string, Intent>,
    transitions: seq<Transition>,
    outbox: seq<Out>,
    completed: set<string>,
    awaiting: set<string>,
    refs: map<string, string>,
    sessionOf: map<string, string>)

  // A charge of a later billing cycle touches neither intents nor transitions nor payment events.
  datatype Event =
    | Payment(eventType: string, reference: string, status: string)
    | SavedCard(reference: string, registers: bool)
    | Cycle

  // ----- Statements -----

  datatype Stmt =
    | SetStatus(id: string, intent: Intent)
    | Record(row: Transition)
    | Queue(out: Out)
    | PutIntent(id: string, intent: Intent)
    | PutSubscription(authIntent: string, registered: bool)
    | CompleteSession(session: string)

  // These run on a connection of their own and commit at once, whatever transaction is open.
  predicate OnPool(st: Stmt) {
    st.PutIntent? || st.PutSubscription? || st.CompleteSession?
  }

  function Written(db: Db, st: Stmt): Db {
    match st
    case SetStatus(id, intent) => if id in db.intents then db.(intents := db.intents[id := intent]) else db
    case Record(row) => db.(transitions := db.transitions + [row])
    case Queue(out) => db.(outbox := db.outbox + [out])
    case PutIntent(id, intent) => db.(intents := db.intents[id := intent])
    case PutSubscription(authIntent, registered) =>
      db.(awaiting := if registered then db.awaiting - {authIntent} else db.awaiting + {authIntent})
    case CompleteSession(session) => db.(completed := db.completed + {session})
  }

  function WrittenAll(db: Db, ws: seq<Stmt>): Db {
    if ws == [] then db else Written(WrittenAll(db, ws[..|ws| - 1]), ws[|ws| - 1])
  }

  lemma {:induction false} WrittenAppend(db: Db, first: seq<Stmt>, rest: seq<Stmt>)
    ensures WrittenAll(db, first + rest) == WrittenAll(WrittenAll(db, first), rest)
  {
    if rest == [] {
      assert first + rest == first;
    } else {
      assert (first + rest)[..|first + rest| - 1] == first + rest[..|rest| - 1];
      WrittenAppend(db, first, rest[..|rest| - 1]);
    }
  }

  lemma WrittenOne(db: Db, st: Stmt)
    ensures WrittenAll(db, [st]) == Written(db, st)
  {
    assert [st][..0] == [];
  }

  lemma WrittenCons(db: Db, ws: seq<Stmt>)
    requires ws != []
    ensures WrittenAll(db, ws) == WrittenAll(Written(db, ws[0]), ws[1..])
  {
    assert ws == [ws[0]] + ws[1..];
    WrittenAppend(db, [ws[0]], ws[1..]);
    WrittenOne(db, ws[0]);
  }

  // ----- What an event asks for -----

  function Resolve(db: Db, reference: string): Option<string> {
    if reference in db.intents then Some(reference)
    else if reference in db.refs && db.refs[reference] in db.intents then Some(db.refs[reference])
    else None
  }

  // The intent whose status a payment event changes, if it changes one.
  function Changed(db: Db, reference: string, status: string): Option<string> {
    var id := Resolve(db, reference);
    if id.Some? && db.intents[id.value].status != status then id else None
  }

  function WithStatus(pi: Intent, eventType: string, status: string): Intent {
    Intent(status, if eventType == FAILED_EVENT then FAILURE_TEXT else if status == SUCCEEDED then "" else pi.failure)
  }

  function PaymentStatements(db: Db, id: string, eventType: string, status: string): seq<Stmt>
    requires id in db.intents
  {
    [SetStatus(id, WithStatus(db.intents[id], eventType, status)),
     Record(Transition(id, db.intents[id].status, status, Inbound(eventType))),
     Queue(PaymentOut(eventType, id, status))]
    + if status == SUCCEEDED && id in db.sessionOf then SessionStatements(db.sessionOf[id]) else []
  }

  function SessionStatements(session: string): seq<Stmt> {
    [CompleteSession(session), Queue(SessionOut(session))]
  }

  function StatementsFor(db: Db, ev: Event): seq<Stmt> {
    match ev
    case Payment(eventType, reference, status) =>
      var id := Changed(db, reference, status);
      if id.None? then [] else PaymentStatements(db, id.value, eventType, status)
    case SavedCard(reference, registers) =>
      if reference !in db.awaiting then []
      else (if reference in db.intents then [PutIntent(reference, Intent(SUCCEEDED, ""))] else [])
           + (if registers then [PutSubscription(reference, true)] else [])
    case Cycle => []
  }

  /** An event all of whose statements land, and a list of such events. */
  function Apply(db: Db, ev: Event): Db {
    WrittenAll(db, StatementsFor(db, ev))
  }

  function ApplyAll(db: Db, events: seq<Event>): Db {
    if events == [] then db else Apply(ApplyAll(db, events[..|events| - 1]), events[|events| - 1])
  }

  lemma {:induction false} ApplyAllAppend(db: Db, first: seq<Event>, rest: seq<Event>)
    ensures ApplyAll(db, first + rest) == ApplyAll(ApplyAll(db, first), rest)
  {
    if rest == [] {
      assert first + rest == first;
    } else {
      assert (first + rest)[..|first + rest| - 1] == first + rest[..|rest| - 1];
      ApplyAllAppend(db, first, rest[..|rest| - 1]);
    }
  }

  // ----- A handler at work -----

  // How one statement or read goes. `Misses` is a statement that took effect but was reported as failed;
  // for a read it is the lookup of the intent that fails, which the program takes for an unknown order.
  datatype Fate = Lands | Fails | Misses

  datatype Phase = Applying | Sealed | Done(committed: bool)

  // `rest` are the events still to be read, `todo` the statements the current event still has to run,
  // `pending` what the open transaction has written, and `broken` whether a statement of it has failed,
  // after which the database refuses all others. A transaction is sealed once its notification is completed.
  datatype Handler = Handler(
    inTx: bool, rest: seq<Event>, todo: seq<Stmt>, pending: seq<Stmt>, broken: bool, failed: bool, phase: Phase)

  datatype Work = Work(db: Db, h: Handler)

  function Begin(inTx: bool, events: seq<Event>): Handler {
    Handler(inTx, events, [], [], false, false, Applying)
  }

  // What the handler sees: the committed tables and its own writes.
  function View(w: Work): Db {
    WrittenAll(w.db, w.h.pending)
  }

  // The row is locked by the handler's own transaction, so a second connection waits for it in vain.
  predicate Blocked(h: Handler, st: Stmt) {
    st.PutIntent? && exists i :: 0 <= i < |h.pending| && h.pending[i].SetStatus? && h.pending[i].id == st.id
  }

  // The statements that reach the committed tables in the next move.
  function Landing(w: Work, fate: Fate): seq<Stmt> {
    var h := w.h;
    if h.phase.Done? then []
    else if h.todo != [] then
      var st := h.todo[0];
      if fate.Fails? || Blocked(h, st) || (h.inTx && !OnPool(st)) then [] else [st]
    else if h.rest == [] && h.inTx && h.phase.Sealed? && !fate.Fails? then h.pending
    else []
  }

  // A status change that is reported as failed ends the event; every other failure is ignored.
  function Refused(h: Handler, st: Stmt): Handler
    requires h.todo != []
  {
    if st.SetStatus? then h.(todo := [], failed := true) else h.(todo := h.todo[1..])
  }

  function AfterStmt(h: Handler, fate: Fate): Handler
    requires h.todo != []
  {
    var st := h.todo[0];
    if Blocked(h, st) then h
    else if OnPool(st) then h.(todo := h.todo[1..])
    else if h.inTx && !h.broken && fate.Lands? then h.(todo := h.todo[1..], pending := h.pending + [st])
    else if h.inTx then Refused(h.(broken := true), st)
    else if fate.Lands? then h.(todo := h.todo[1..])
    else Refused(h, st)
  }

  // Lookups go through the pool; the status is then read in the transaction, if there is one.
  function AfterRead(w: Work, fate: Fate): Handler
    requires w.h.rest != []
  {
    var ev, h := w.h.rest[0], w.h.(rest := w.h.rest[1..]);
    if ev.Payment? && h.inTx && (h.broken || fate.Fails?) then h.(broken := true)
    else if fate.Lands? then h.(todo := StatementsFor(View(w), ev))
    else h
  }

  // The notification is completed and the transaction committed; a broken transaction can only roll back.
  function AfterEnd(h: Handler, fate: Fate): Handler {
    if !h.inTx then h.(phase := Done(true))
    else if h.phase.Sealed? then h.(phase := Done(!fate.Fails?), pending := [])
    else if h.broken || !fate.Lands? then h.(phase := Done(false), pending := [])
    else h.(phase := Sealed)
  }

  function Advance(w: Work, fate: Fate): Work {
    var h := w.h;
    Work(WrittenAll(w.db, Landing(w, fate)),
         if h.phase.Done? then h
         else if h.todo != [] then AfterStmt(h, fate)
         else if h.rest != [] then AfterRead(w, fate)
         else AfterEnd(h, fate))
  }

  function Run(w: Work, script: seq<Fate>): Work {
    if script == [] then w else Advance(Run(w, script[..|script| - 1]), script[|script| - 1])
  }

  lemma {:induction false} RunAppend(w: Work, first: seq<Fate>, rest: seq<Fate>)
    ensures Run(w, first + rest) == Run(Run(w, first), rest)
  {
    if rest == [] {
      assert first + rest == first;
    } else {
      assert (first + rest)[..|first + rest| - 1] == first + rest[..|rest| - 1];
      RunAppend(w, first, rest[..|rest| - 1]);
    }
  }

  lemma RunStep(w: Work, script: seq<Fate>, fate: Fate)
    ensures Run(w, script + [fate]) == Advance(Run(w, script), fate)
  {
    assert (script + [fate])[..|script|] == script;
  }

  // ----- When everything lands -----

  ghost predicate AllLand(script: seq<Fate>) {
    forall i :: 0 <= i < |script| ==> script[i].Lands?
  }

  // No statement of these changes the status of the row that `st` writes.
  ghost predicate Clear(st: Stmt, ws: seq<Stmt>) {
    st.PutIntent? ==> forall i :: 0 <= i < |ws| && ws[i].SetStatus? ==> ws[i].id != st.id
  }

  ghost predicate NonePool(ws: seq<Stmt>) {
    forall i :: 0 <= i < |ws| ==> !OnPool(ws[i])
  }

  // What commits at once may as well have been written after what the transaction wrote before.
  lemma {:induction false} PoolCommutes(db: Db, st: Stmt, ws: seq<Stmt>)
    requires OnPool(st) && NonePool(ws) && Clear(st, ws)
    ensures WrittenAll(Written(db, st), ws) == Written(WrittenAll(db, ws), st)
  {
    if ws != [] {
      var n := |ws| - 1;
      PoolCommutes(db, st, ws[..n]);
      CommuteOne(WrittenAll(db, ws[..n]), st, ws[n]);
    }
  }

  lemma CommuteOne(db: Db, st: Stmt, w: Stmt)
    requires OnPool(st) && !OnPool(w) && (st.PutIntent? && w.SetStatus? ==> w.id != st.id)
    ensures Written(Written(db, st), w) == Written(Written(db, w), st)
  {
    if st.PutIntent? && w.SetStatus? && w.id in db.intents {
      assert db.intents[st.id := st.intent][w.id := w.intent] == db.intents[w.id := w.intent][st.id := st.intent];
    }
  }

  // The handler has read the first `k` events, and what it sees with its remaining statements is their effect.
  ghost predicate OnTrack(db: Db, events: seq<Event>, w: Work, k: nat) {
    && k <= |events| && w.h.rest == events[k..] && !w.h.broken && NonePool(w.h.pending)
    && (!w.h.inTx ==> w.h.pending == [])
    && WrittenAll(View(w), w.h.todo) == ApplyAll(db, events[..k])
  }

  lemma StatementOnTrack(db: Db, events: seq<Event>, w: Work, k: nat)
    requires OnTrack(db, events, w, k) && w.h.phase.Applying? && w.h.todo != []
    ensures OnTrack(db, events, Advance(w, Lands), k) && Advance(w, Lands).h.phase.Applying?
  {
    var st := w.h.todo[0];
    if !Blocked(w.h, st) {
      var w' := Advance(w, Lands);
      WrittenCons(View(w), w.h.todo);
      WrittenOne(w.db, st);
      if OnPool(st) {
        PoolCommutes(w.db, st, w.h.pending);
      } else if w.h.inTx {
        WrittenAppend(w.db, w.h.pending, [st]);
        WrittenOne(View(w), st);
      }
      assert View(w') == Written(View(w), st);
    }
  }

  lemma ReadOnTrack(db: Db, events: seq<Event>, w: Work, k: nat)
    requires OnTrack(db, events, w, k) && w.h.phase.Applying? && w.h.todo == [] && w.h.rest != []
    ensures OnTrack(db, events, Advance(w, Lands), k + 1) && Advance(w, Lands).h.phase.Applying?
  {
    assert events[..k + 1][..k] == events[..k];
    assert events[..k + 1][k] == events[k] == w.h.rest[0];
  }

  // At any moment of an undisturbed run: on track, or finished with everything applied.
  ghost predicate Undisturbed(db: Db, events: seq<Event>, w: Work) {
    if w.h.phase.Done? then w.h.phase.committed && w.db == ApplyAll(db, events)
    else (exists k :: OnTrack(db, events, w, k)) && (w.h.phase.Sealed? ==> w.h.inTx && w.h.todo == [] && w.h.rest == [])
  }

  lemma EndOnTrack(db: Db, events: seq<Event>, w: Work, k: nat)
    requires OnTrack(db, events, w, k) && w.h.todo == [] && w.h.rest == [] && !w.h.phase.Done?
    requires w.h.phase.Sealed? ==> w.h.inTx
    ensures Undisturbed(db, events, Advance(w, Lands))
  {
    assert events[..k] == events;
    if w.h.inTx && w.h.phase.Applying? {
      assert OnTrack(db, events, Advance(w, Lands), k);
    }
  }

  lemma StepUndisturbed(db: Db, events: seq<Event>, w: Work)
    requires Undisturbed(db, events, w)
    ensures Undisturbed(db, events, Advance(w, Lands))
  {
    if !w.h.phase.Done? {
      var k :| OnTrack(db, events, w, k);
      if w.h.todo != [] {
        StatementOnTrack(db, events, w, k);
      } else if w.h.rest != [] {
        ReadOnTrack(db, events, w, k);
      } else {
        EndOnTrack(db, events, w, k);
      }
    }
  }

  lemma BeginOnTrack(db: Db, inTx: bool, events: seq<Event>)
    ensures Undisturbed(db, events, Work(db, Begin(inTx, events)))
  {
    assert events[0..] == events && events[..0] == [];
    assert OnTrack(db, events, Work(db, Begin(inTx, events)), 0);
  }

  /** Where every statement and read succeeds, a handler that finishes has the effect of its events one
      after the other, inside a transaction as well as outside; until then it is on the way to it. */
  lemma {:induction false} AllLandIsApplyAll(db: Db, inTx: bool, events: seq<Event>, script: seq<Fate>)
    requires AllLand(script)
    ensures Undisturbed(db, events, Run(Work(db, Begin(inTx, events)), script))
  {
    if script == [] {
      BeginOnTrack(db, inTx, events);
    } else {
      AllLandIsApplyAll(db, inTx, events, script[..|script| - 1]);
      StepUndisturbed(db, events, Run(Work(db, Begin(inTx, events)), script[..|script| - 1]));
    }
  }

  // Nor is any status change reported as failed then.
  lemma {:induction false} AllLandNoneFails(db: Db, inTx: bool, events: seq<Event>, script: seq<Fate>)
    requires AllLand(script)
    ensures !Run(Work(db, Begin(inTx, events)), script).h.failed
  {
    if script != [] {
      var init := script[..|script| - 1];
      AllLandNoneFails(db, inTx, events, init);
      AllLandIsApplyAll(db, inTx, events, init);
      LandingIsNoFailure(Run(Work(db, Begin(inTx, events)), init));
    }
  }

  lemma LandingIsNoFailure(w: Work)
    requires w.h.phase.Done? || !w.h.broken
    ensures Advance(w, Lands).h.failed == w.h.failed
  {
  }

  // ----- When something fails inside the transaction -----

  // A read or a statement of the transaction fails, or its completion or its commit does. Lookups and statements
  // that use a connection of their own do not count.
  predicate FailsInside(h: Handler, fate: Fate) {
    h.inTx && !h.phase.Done?
    && if h.todo != [] then !OnPool(h.todo[0]) && !fate.Lands?
       else if h.rest != [] then h.rest[0].Payment? && fate.Fails?
       else if h.phase.Applying? then !fate.Lands?
       else fate.Fails?
  }

  // The transaction has been or can only be rolled back.
  predicate IsDoomed(h: Handler) {
    h.inTx && (h.phase == Done(false) || (h.phase.Applying? && h.broken))
  }

  lemma FailureDooms(w: Work, fate: Fate)
    requires FailsInside(w.h, fate) && (w.h.phase.Sealed? ==> w.h.todo == [] && w.h.rest == [])
    ensures IsDoomed(Advance(w, fate).h)
  {
  }

  lemma DoomedStays(w: Work, fate: Fate)
    requires IsDoomed(w.h)
    ensures IsDoomed(Advance(w, fate).h)
  {
  }

  lemma {:induction false} SealedIsAtTheEnd(w: Work, script: seq<Fate>)
    requires w.h.phase.Applying?
    ensures var h := Run(w, script).h; h.phase.Sealed? ==> h.todo == [] && h.rest == []
  {
    if script != [] {
      SealedIsAtTheEnd(w, script[..|script| - 1]);
    }
  }

  /** Once a read or a statement of the transaction has failed, ignored or not, it does not commit. */
  lemma {:induction false} FailureAborts(db: Db, events: seq<Event>, before: seq<Fate>, fate: Fate, more: seq<Fate>)
    requires FailsInside(Run(Work(db, Begin(true, events)), before).h, fate)
    ensures Run(Work(db, Begin(true, events)), before + [fate] + more).h.phase != Done(true)
    ensures IsDoomed(Run(Work(db, Begin(true, events)), before + [fate] + more).h)
  {
    var w0 := Work(db, Begin(true, events));
    if more == [] {
      assert before + [fate] + more == before + [fate];
      RunStep(w0, before, fate);
      SealedIsAtTheEnd(w0, before);
      FailureDooms(Run(w0, before), fate);
    } else {
      var init, last := more[..|more| - 1], more[|more| - 1];
      assert before + [fate] + more == before + [fate] + init + [last];
      FailureAborts(db, events, before, fate, init);
      RunStep(w0, before + [fate] + init, last);
      DoomedStays(Run(w0, before + [fate] + init), last);
    }
  }

  // ----- The same on the tables -----

  // The reference is an intent's id, or else the gateway reference it goes by.
  predicate Names(db: Db, reference: string, id: string) {
    && id in db.intents
    && (reference == id || (reference !in db.intents && reference in db.refs && db.refs[reference] == id))
  }

  // One intent has got a new status, its transition is recorded, and its event is queued; a success also
  // completes the session the intent was created for, and queues the session's event.
  ghost predicate StatusMoved(db: Db, id: string, eventType: string, status: string, db': Db)
    requires id in db.intents
  {
    var pi := db.intents[id];
    var pays := status == "succeeded" && id in db.sessionOf;
    && id in db'.intents && db'.intents == db.intents[id := db'.intents[id]]
    && db'.intents[id].status == status
    && db'.intents[id].failure == (if eventType == "payment_intent.payment_failed" then FAILURE_TEXT
                                   else if status == "succeeded" then "" else pi.failure)
    && db'.transitions == db.transitions + [Transition(id, pi.status, status, Inbound(eventType))]
    && db'.outbox == db.outbox + [PaymentOut(eventType, id, status)] + (if pays then [SessionOut(db.sessionOf[id])] else [])
    && db'.completed == db.completed + (if pays then {db.sessionOf[id]} else {})
    && db'.awaiting == db.awaiting && db'.refs == db.refs && db'.sessionOf == db.sessionOf
  }

  // A payment event moves the status of the intent it names, unless it has that status already.
  ghost predicate PaymentApplied(db: Db, eventType: string, reference: string, status: string, db': Db) {
    && (forall id :: Names(db, reference, id) && db.intents[id].status != status ==>
                       StatusMoved(db, id, eventType, status, db'))
    && ((forall id :: Names(db, reference, id) ==> db.intents[id].status == status) ==> db' == db)
  }

  // A saved card marks the authorization intent of a subscription that awaits its schedule as paid, and the
  // subscription does not await it any more if the gateway has registered one.
  ghost predicate SavedCardApplied(db: Db, reference: string, registers: bool, db': Db) {
    if reference !in db.awaiting then db' == db
    else
      db' == db.(intents := if reference in db.intents then db.intents[reference := Intent("succeeded", "")] else db.intents,
                 awaiting := if registers then db.awaiting - {reference} else db.awaiting)
  }

  ghost predicate Applied(db: Db, ev: Event, db': Db) {
    && (ev.Payment? ==> PaymentApplied(db, ev.eventType, ev.reference, ev.status, db'))
    && (ev.SavedCard? ==> SavedCardApplied(db, ev.reference, ev.registers, db'))
    && (ev.Cycle? ==> db' == db)
  }

  // The events have been applied one after the other, each to the tables that the one before left.
  ghost predicate AppliedInTurn(db: Db, events: seq<Event>, db': Db) {
    exists dbs: seq<Db> :: AppliedBetween(dbs, events) && dbs[0] == db && dbs[|events|] == db'
  }

  ghost predicate AppliedBetween(dbs: seq<Db>, events: seq<Event>) {
    |dbs| == |events| + 1 && forall k :: 0 <= k < |events| ==> Applied(dbs[k], events[k], dbs[k + 1])
  }

  lemma WrittenTwo(db: Db, first: Stmt, second: Stmt)
    ensures WrittenAll(db, [first, second]) == Written(Written(db, first), second)
  {
    assert [first] + [second] == [first, second];
    WrittenAppend(db, [first], [second]);
    WrittenOne(db, first);
    WrittenOne(Written(db, first), second);
  }

  lemma WrittenThree(db: Db, first: Stmt, second: Stmt, third: Stmt)
    ensures WrittenAll(db, [first, second, third]) == Written(Written(Written(db, first), second), third)
  {
    assert [first, second] + [third] == [first, second, third];
    WrittenAppend(db, [first, second], [third]);
    WrittenTwo(db, first, second);
    WrittenOne(Written(Written(db, first), second), third);
  }

  // The three statements of every change of status.
  function Moved(db: Db, id: string, eventType: string, status: string): Db
    requires id in db.intents
  {
    Written(Written(Written(db, SetStatus(id, WithStatus(db.intents[id], eventType, status))),
                    Record(Transition(id, db.intents[id].status, status, Inbound(eventType)))),
            Queue(PaymentOut(eventType, id, status)))
  }

  lemma PaymentMoves(db: Db, id: string, eventType: string, status: string)
    requires id in db.intents
    ensures WrittenAll(db, PaymentStatements(db, id, eventType, status))
            == if status == SUCCEEDED && id in db.sessionOf then
                 Written(Written(Moved(db, id, eventType, status), CompleteSession(db.sessionOf[id])),
                         Queue(SessionOut(db.sessionOf[id])))
               else Moved(db, id, eventType, status)
  {
    var change := SetStatus(id, WithStatus(db.intents[id], eventType, status));
    var record := Record(Transition(id, db.intents[id].status, status, Inbound(eventType)));
    var queue := Queue(PaymentOut(eventType, id, status));
    WrittenThree(db, change, record, queue);
    if status == SUCCEEDED && id in db.sessionOf {
      WrittenAppend(db, [change, record, queue], SessionStatements(db.sessionOf[id]));
      WrittenTwo(Moved(db, id, eventType, status), CompleteSession(db.sessionOf[id]), Queue(SessionOut(db.sessionOf[id])));
    } else {
      assert PaymentStatements(db, id, eventType, status) == [change, record, queue];
    }
  }

  lemma StatementsMoveStatus(db: Db, id: string, eventType: string, status: string)
    requires id in db.intents
    ensures StatusMoved(db, id, eventType, status, WrittenAll(db, PaymentStatements(db, id, eventType, status)))
  {
    PaymentMoves(db, id, eventType, status);
  }

  lemma SavedCardIsApplied(db: Db, reference: string, registers: bool)
    ensures SavedCardApplied(db, reference, registers, Apply(db, SavedCard(reference, registers)))
  {
    var put, store := PutIntent(reference, Intent(SUCCEEDED, "")), PutSubscription(reference, true);
    WrittenOne(db, put);
    WrittenOne(db, store);
    WrittenTwo(db, put, store);
    assert [put] + [store] == [put, store] && [put] + [] == [put] && [] + [store] == [store];
  }

  /** What each event does to the tables when all of it lands. */
  lemma ApplyIsApplied(db: Db, ev: Event)
    ensures Applied(db, ev, Apply(db, ev))
  {
    if ev.Payment? {
      var id := Changed(db, ev.reference, ev.status);
      if id.Some? {
        StatementsMoveStatus(db, id.value, ev.eventType, ev.status);
      }
    } else if ev.SavedCard? {
      SavedCardIsApplied(db, ev.reference, ev.registers);
    }
  }

  lemma ApplyAllInTurn(db: Db, events: seq<Event>)
    ensures AppliedInTurn(db, events, ApplyAll(db, events))
  {
    var dbs := seq(|events| + 1, k requires 0 <= k <= |events| => ApplyAll(db, events[..k]));
    forall k | 0 <= k < |events|
      ensures Applied(dbs[k], events[k], dbs[k + 1])
    {
      assert events[..k + 1][..k] == events[..k];
      ApplyIsApplied(dbs[k], events[k]);
    }
    assert events[..|events|] == events && events[..0] == [];
    assert AppliedBetween(dbs, events);
  }
}
