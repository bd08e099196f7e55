/**
 What a handler that applies provider events keeps at every statement: inside a transaction, what it has
 written and will still write for an intent is, change by change, one status, one transition and one event.
 */
module PaymentHandler {
  import opened PaymentEvents
  import opened Statuses
  import opened Wrappers

  // A change of status: from, to.
  type Change = (string, string)

  // ----- Statements, intent by intent -----

  // The status changes that the statements make to the intent, one after the other, in these tables.
  function ChangesOf(db: Db, ws: seq<Stmt>, id: string): seq<Change> {
    if ws == [] then []
    else
      var n := |ws| - 1;
      var before, st := ChangesOf(db, ws[..n], id), ws[n];
      var intents := WrittenAll(db, ws[..n]).intents;
      if st.SetStatus? && st.id == id && id in intents && intents[id].status != st.intent.status then
        before + [(intents[id].status, st.intent.status)]
      else before
  }

  predicate IsRowOf(row: Transition, id: string) {
    row.intent == id && row.reason.Inbound?
  }

  // The inbound transitions and the payment events of the intent among the statements.
  function RowsOf(ws: seq<Stmt>, id: string): seq<Change> {
    if ws == [] then []
    else
      var n := |ws| - 1;
      RowsOf(ws[..n], id)
      + if ws[n].Record? && IsRowOf(ws[n].row, id) then [(ws[n].row.fromStatus, ws[n].row.toStatus)] else []
  }

  predicate IsOutOf(out: Out, id: string) {
    out.PaymentOut? && out.intent == id
  }

  function OutsOf(ws: seq<Stmt>, id: string): seq<string> {
    if ws == [] then []
    else
      var n := |ws| - 1;
      OutsOf(ws[..n], id) + if ws[n].Queue? && IsOutOf(ws[n].out, id) then [ws[n].out.status] else []
  }

  // The same, of the tables.
  function InboundRows(rows: seq<Transition>, id: string): seq<Change> {
    if rows == [] then []
    else
      var n := |rows| - 1;
      InboundRows(rows[..n], id) + if IsRowOf(rows[n], id) then [(rows[n].fromStatus, rows[n].toStatus)] else []
  }

  function PaymentOuts(outbox: seq<Out>, id: string): seq<string> {
    if outbox == [] then []
    else
      var n := |outbox| - 1;
      PaymentOuts(outbox[..n], id) + if IsOutOf(outbox[n], id) then [outbox[n].status] else []
  }

  function Tos(changes: seq<Change>): seq<string> {
    if changes == [] then [] else Tos(changes[..|changes| - 1]) + [changes[|changes| - 1].1]
  }

  lemma TosAppend(changes: seq<Change>, c: Change)
    ensures Tos(changes + [c]) == Tos(changes) + [c.1]
  {
    assert (changes + [c])[..|changes|] == changes;
  }

  lemma {:induction false} TosConcat(first: seq<Change>, rest: seq<Change>)
    ensures Tos(first + rest) == Tos(first) + Tos(rest)
    ensures |Tos(first)| == |first|
  {
    if rest == [] {
      assert first + rest == first;
      if first != [] {
        TosConcat(first[..|first| - 1], []);
        assert first[..|first| - 1] + [] == first[..|first| - 1];
      }
    } else {
      assert (first + rest)[..|first + rest| - 1] == first + rest[..|rest| - 1];
      TosConcat(first, rest[..|rest| - 1]);
    }
  }

  lemma StmtsAppend(db: Db, ws: seq<Stmt>, st: Stmt, id: string)
    ensures RowsOf(ws + [st], id)
            == RowsOf(ws, id) + if st.Record? && IsRowOf(st.row, id) then [(st.row.fromStatus, st.row.toStatus)] else []
    ensures OutsOf(ws + [st], id) == OutsOf(ws, id) + if st.Queue? && IsOutOf(st.out, id) then [st.out.status] else []
    ensures var intents := WrittenAll(db, ws).intents;
            ChangesOf(db, ws + [st], id)
            == ChangesOf(db, ws, id)
               + if st.SetStatus? && st.id == id && id in intents && intents[id].status != st.intent.status
                 then [(intents[id].status, st.intent.status)] else []
  {
    assert (ws + [st])[..|ws|] == ws;
  }

  lemma TablesGrowByOne(db: Db, st: Stmt, id: string)
    ensures InboundRows(Written(db, st).transitions, id)
            == InboundRows(db.transitions, id)
               + if st.Record? && IsRowOf(st.row, id) then [(st.row.fromStatus, st.row.toStatus)] else []
    ensures PaymentOuts(Written(db, st).outbox, id)
            == PaymentOuts(db.outbox, id) + if st.Queue? && IsOutOf(st.out, id) then [st.out.status] else []
  {
    if st.Record? {
      assert (db.transitions + [st.row])[..|db.transitions|] == db.transitions;
    }
    if st.Queue? {
      assert (db.outbox + [st.out])[..|db.outbox|] == db.outbox;
    }
  }

  // What the statements add to the tables.
  lemma {:induction false} TablesGrow(db: Db, ws: seq<Stmt>, id: string)
    ensures InboundRows(WrittenAll(db, ws).transitions, id) == InboundRows(db.transitions, id) + RowsOf(ws, id)
    ensures PaymentOuts(WrittenAll(db, ws).outbox, id) == PaymentOuts(db.outbox, id) + OutsOf(ws, id)
  {
    if ws != [] {
      TablesGrow(db, ws[..|ws| - 1], id);
      TablesGrowByOne(WrittenAll(db, ws[..|ws| - 1]), ws[|ws| - 1], id);
    }
  }

  function LastTo(changes: seq<Change>, status: string): string {
    if changes == [] then status else changes[|changes| - 1].1
  }

  // The changes account for the status: the last one says where it is, and without one it has not moved.
  lemma {:induction false} ChangesLeadToStatus(db: Db, ws: seq<Stmt>, id: string)
    requires NonePool(ws) && id in db.intents
    ensures id in WrittenAll(db, ws).intents
    ensures WrittenAll(db, ws).intents[id].status == LastTo(ChangesOf(db, ws, id), db.intents[id].status)
  {
    if ws != [] {
      ChangesLeadToStatus(db, ws[..|ws| - 1], id);
    }
  }

  lemma {:induction false} KeysStay(db: Db, ws: seq<Stmt>)
    requires NonePool(ws)
    ensures WrittenAll(db, ws).intents.Keys == db.intents.Keys
  {
    if ws != [] {
      KeysStay(db, ws[..|ws| - 1]);
    }
  }

  lemma {:induction false} UnwrittenHasNoChange(db: Db, ws: seq<Stmt>, id: string)
    requires forall i :: 0 <= i < |ws| && ws[i].SetStatus? ==> ws[i].id != id
    ensures ChangesOf(db, ws, id) == []
  {
    if ws != [] {
      UnwrittenHasNoChange(db, ws[..|ws| - 1], id);
    }
  }

  // What is committed at once, to rows that the transaction has not locked, does not alter its changes.
  lemma {:induction false} PoolKeepsChanges(db: Db, st: Stmt, ws: seq<Stmt>, id: string)
    requires OnPool(st) && NonePool(ws) && Clear(st, ws)
    ensures ChangesOf(Written(db, st), ws, id) == ChangesOf(db, ws, id)
  {
    if st.PutIntent? && st.id == id {
      UnwrittenHasNoChange(db, ws, id);
      UnwrittenHasNoChange(Written(db, st), ws, id);
    } else if ws != [] {
      var n := |ws| - 1;
      PoolKeepsChanges(db, st, ws[..n], id);
      PoolCommutes(db, st, ws[..n]);
    }
  }

  // One status change, one transition, one payment event: the same changes, in the same order.
  ghost predicate Matched(db: Db, ws: seq<Stmt>, id: string) {
    RowsOf(ws, id) == ChangesOf(db, ws, id) && OutsOf(ws, id) == Tos(ChangesOf(db, ws, id))
  }

  // ----- What the handler has still to do -----

  predicate IsSessionTail(todo: seq<Stmt>) {
    || todo == []
    || (|todo| == 1 && todo[0].Queue? && todo[0].out.SessionOut?)
    || (|todo| == 2 && todo[0].CompleteSession? && todo[1].Queue? && todo[1].out.SessionOut?)
  }

  // The event of a change, before the statements of its session.
  predicate IsEventTail(todo: seq<Stmt>, id: string, to: string) {
    && |todo| >= 1 && todo[0].Queue? && IsOutOf(todo[0].out, id) && todo[0].out.status == to
    && IsSessionTail(todo[1..])
  }

  predicate IsRowTail(todo: seq<Stmt>, id: string, from: string, to: string) {
    && |todo| >= 2 && todo[0].Record? && IsRowOf(todo[0].row, id)
    && todo[0].row.fromStatus == from && todo[0].row.toStatus == to && from != to
    && IsEventTail(todo[1..], id, to)
  }

  // What is left of a payment event: the change itself, its transition, its event, or those of the session.
  predicate IsPaymentTail(db: Db, todo: seq<Stmt>) {
    || IsSessionTail(todo)
    || (todo[0].Queue? && todo[0].out.PaymentOut? && todo[0].out.intent in db.intents
        && IsEventTail(todo, todo[0].out.intent, todo[0].out.status))
    || (todo[0].Record? && todo[0].row.intent in db.intents
        && IsRowTail(todo, todo[0].row.intent, todo[0].row.fromStatus, todo[0].row.toStatus))
    || (todo[0].SetStatus? && todo[0].id in db.intents
        && IsRowTail(todo[1..], todo[0].id, db.intents[todo[0].id].status, todo[0].intent.status))
  }

  predicate IsCardTail(db: Db, todo: seq<Stmt>) {
    || todo == []
    || (|todo| == 1 && todo[0].PutSubscription?)
    || (1 <= |todo| <= 2 && todo[0].PutIntent? && todo[0].id in db.intents && todo[0].intent.status == SUCCEEDED
        && (|todo| == 2 ==> todo[1].PutSubscription?))
  }

  // The statements that still go through the transaction.
  function Due(todo: seq<Stmt>): seq<Stmt> {
    if todo == [] then [] else if OnPool(todo[0]) then Due(todo[1..]) else [todo[0]] + Due(todo[1..])
  }

  // Each intent with a pending status change is locked.
  ghost predicate HandlerInv(w: Work) {
    && NonePool(w.h.pending)
    && (!w.h.inTx ==> w.h.pending == [] && !w.h.broken)
    && (w.h.todo != [] ==> w.h.phase.Applying?)
    && (w.h.phase.Sealed? ==> w.h.inTx && !w.h.broken && w.h.rest == [])
    && (IsPaymentTail(View(w), w.h.todo) || IsCardTail(View(w), w.h.todo))
    && (w.h.inTx && !w.h.broken ==> forall id :: Matched(w.db, w.h.pending + Due(w.h.todo), id))
  }

  lemma DueCons(st: Stmt, todo: seq<Stmt>)
    ensures Due([st] + todo) == if OnPool(st) then Due(todo) else [st] + Due(todo)
  {
    assert ([st] + todo)[1..] == todo;
  }

  lemma DueOfSession(session: string)
    ensures Due(SessionStatements(session)) == [Queue(SessionOut(session))]
  {
    var st, out := CompleteSession(session), Queue(SessionOut(session));
    assert SessionStatements(session) == [st] + ([out] + []);
    DueCons(st, [out] + []);
    DueCons(out, []);
  }

  lemma PaymentDue(db: Db, id: string, eventType: string, status: string)
    requires id in db.intents
    ensures var todo := PaymentStatements(db, id, eventType, status);
            Due(todo) == [todo[0], todo[1], todo[2]]
                         + if status == SUCCEEDED && id in db.sessionOf then [Queue(SessionOut(db.sessionOf[id]))] else []
  {
    var todo := PaymentStatements(db, id, eventType, status);
    var tail := todo[3..];
    if status == SUCCEEDED && id in db.sessionOf {
      DueOfSession(db.sessionOf[id]);
    }
    assert todo == [todo[0]] + ([todo[1]] + ([todo[2]] + tail));
    DueCons(todo[0], [todo[1]] + ([todo[2]] + tail));
    DueCons(todo[1], [todo[2]] + tail);
    DueCons(todo[2], tail);
  }

  lemma ChangeAppends(db: Db, ws: seq<Stmt>, it: string, intent: Intent, row: Transition, out: Out, id: string)
    requires it in WrittenAll(db, ws).intents && WrittenAll(db, ws).intents[it].status != intent.status
    requires IsRowOf(row, it) && row.toStatus == intent.status && row.fromStatus == WrittenAll(db, ws).intents[it].status
    requires IsOutOf(out, it) && out.status == intent.status
    ensures var ws' := ws + [SetStatus(it, intent)] + [Record(row)] + [Queue(out)];
            var more := if it == id then [(row.fromStatus, row.toStatus)] else [];
            && ChangesOf(db, ws', id) == ChangesOf(db, ws, id) + more
            && RowsOf(ws', id) == RowsOf(ws, id) + more
            && OutsOf(ws', id) == OutsOf(ws, id) + if it == id then [row.toStatus] else []
  {
    StmtsAppend(db, ws, SetStatus(it, intent), id);
    StmtsAppend(db, ws + [SetStatus(it, intent)], Record(row), id);
    StmtsAppend(db, ws + [SetStatus(it, intent)] + [Record(row)], Queue(out), id);
  }

  // A change with its transition and its event, and possibly the event of a session after it.
  lemma ChangeIsMatched(db: Db, ws: seq<Stmt>, it: string, intent: Intent, row: Transition, out: Out, session: seq<Stmt>, id: string)
    requires Matched(db, ws, id)
    requires it in WrittenAll(db, ws).intents && WrittenAll(db, ws).intents[it].status != intent.status
    requires IsRowOf(row, it) && row.toStatus == intent.status && row.fromStatus == WrittenAll(db, ws).intents[it].status
    requires IsOutOf(out, it) && out.status == intent.status
    requires |session| <= 1 && forall i :: 0 <= i < |session| ==> session[i].Queue? && session[i].out.SessionOut?
    ensures Matched(db, ws + ([SetStatus(it, intent), Record(row), Queue(out)] + session), id)
  {
    var ws' := ws + [SetStatus(it, intent)] + [Record(row)] + [Queue(out)];
    ChangeAppends(db, ws, it, intent, row, out, id);
    MatchedWithMore(db, ws, ws', if it == id then [(row.fromStatus, row.toStatus)] else [], id);
    SessionKeepsMatched(db, ws', session, id);
    InFour(ws, SetStatus(it, intent), Record(row), Queue(out), session);
  }

  lemma InFour(ws: seq<Stmt>, a: Stmt, b: Stmt, c: Stmt, more: seq<Stmt>)
    ensures ws + ([a, b, c] + more) == ws + [a] + [b] + [c] + more
  {
  }

  lemma MatchedWithMore(db: Db, ws: seq<Stmt>, ws': seq<Stmt>, more: seq<Change>, id: string)
    requires Matched(db, ws, id) && |more| <= 1
    requires ChangesOf(db, ws', id) == ChangesOf(db, ws, id) + more && RowsOf(ws', id) == RowsOf(ws, id) + more
    requires OutsOf(ws', id) == OutsOf(ws, id) + if more == [] then [] else [more[0].1]
    ensures Matched(db, ws', id)
  {
    var changes := ChangesOf(db, ws, id);
    if more == [] {
      assert changes + more == changes;
    } else {
      TosAppend(changes, more[0]);
      assert changes + more == changes + [more[0]];
    }
  }

  lemma SessionKeepsMatched(db: Db, ws: seq<Stmt>, session: seq<Stmt>, id: string)
    requires Matched(db, ws, id)
    requires |session| <= 1 && forall i :: 0 <= i < |session| ==> session[i].Queue? && session[i].out.SessionOut?
    ensures Matched(db, ws + session, id)
  {
    if session == [] {
      assert ws + session == ws;
    } else {
      StmtsAppend(db, ws, session[0], id);
      assert session == [session[0]];
    }
  }

  // A payment event asks for a matched change.
  lemma PaymentIsMatched(db: Db, ws: seq<Stmt>, eventType: string, reference: string, status: string, id: string)
    requires Matched(db, ws, id)
    ensures Matched(db, ws + Due(StatementsFor(WrittenAll(db, ws), Payment(eventType, reference, status))), id)
  {
    var view := WrittenAll(db, ws);
    var changed := Changed(view, reference, status);
    if changed.None? {
      assert ws + [] == ws;
    } else {
      var it := changed.value;
      PaymentDue(view, it, eventType, status);
      var session := if status == SUCCEEDED && it in view.sessionOf then [Queue(SessionOut(view.sessionOf[it]))] else [];
      ChangeIsMatched(db, ws, it, WithStatus(view.intents[it], eventType, status),
                      Transition(it, view.intents[it].status, status, Inbound(eventType)), PaymentOut(eventType, it, status),
                      session, id);
    }
  }

  lemma StatementsHaveShape(db: Db, ev: Event)
    ensures IsPaymentTail(db, StatementsFor(db, ev)) || IsCardTail(db, StatementsFor(db, ev))
    ensures !ev.Payment? ==> Due(StatementsFor(db, ev)) == []
  {
    var todo := StatementsFor(db, ev);
    match ev
    case Payment(eventType, reference, status) =>
      var id := Changed(db, reference, status);
      if id.Some? {
        var tail := if status == SUCCEEDED && id.value in db.sessionOf then SessionStatements(db.sessionOf[id.value]) else [];
        assert todo[1..][1..][1..] == tail;
      }
    case SavedCard(reference, registers) =>
      if todo != [] {
        assert Due(todo) == Due(todo[1..]);
        assert |todo| == 2 ==> todo[1..] == [todo[1]];
        assert Due(todo[1..]) == [];
      }
    case Cycle =>
  }

  lemma {:induction false} DueIsNotPool(todo: seq<Stmt>)
    ensures NonePool(Due(todo))
  {
    if todo != [] {
      DueIsNotPool(todo[1..]);
    }
  }

  // ----- Each move keeps the invariant -----

  lemma PoolStatementKeepsInv(w: Work, fate: Fate)
    requires HandlerInv(w) && w.h.todo != [] && OnPool(w.h.todo[0]) && !Blocked(w.h, w.h.todo[0])
    ensures HandlerInv(Advance(w, fate))
  {
    var st, w' := w.h.todo[0], Advance(w, fate);
    WrittenOne(w.db, st);
    assert w.h.todo == [st] + w.h.todo[1..];
    DueCons(st, w.h.todo[1..]);
    KeysStay(w.db, w.h.pending);
    KeysStay(w'.db, w.h.pending);
    assert st.PutIntent? ==> Due(w.h.todo[1..]) == [] by {
      if |w.h.todo| == 2 {
        assert w.h.todo[1..] == [w.h.todo[1]] + [];
        DueCons(w.h.todo[1], []);
      }
    }
    if w.h.inTx && !w.h.broken && w'.db != w.db {
      var ws := w.h.pending + Due(w.h.todo[1..]);
      DueIsNotPool(w.h.todo[1..]);
      forall id
        ensures Matched(w'.db, ws, id)
      {
        assert Matched(w.db, ws, id);
        PoolKeepsChanges(w.db, st, ws, id);
      }
    }
  }

  lemma OwnTailKeepsShape(w: Work, fate: Fate)
    requires HandlerInv(w) && w.h.todo != [] && !OnPool(w.h.todo[0])
    ensures IsPaymentTail(View(Advance(w, fate)), w.h.todo[1..])
  {
    OwnStatementSeen(w, fate);
    KeysOnlyGrow(View(w), [w.h.todo[0]]);
    TailKeepsShape(View(w), w.h.todo, View(Advance(w, fate)));
  }

  lemma OwnStatementKeepsInv(w: Work, fate: Fate)
    requires HandlerInv(w) && w.h.todo != [] && !OnPool(w.h.todo[0])
    ensures HandlerInv(Advance(w, fate))
  {
    OwnTailKeepsShape(w, fate);
    if w.h.inTx && !w.h.broken && fate.Lands? {
      PendingKeepsInv(w);
    }
  }

  lemma PendingKeepsInv(w: Work)
    requires HandlerInv(w) && w.h.todo != [] && !OnPool(w.h.todo[0]) && w.h.inTx && !w.h.broken
    ensures HandlerInv(Advance(w, Lands))
  {
    OwnTailKeepsShape(w, Lands);
    PendingMoves(w);
  }

  // A statement of the transaction moves from what is left to what is written.
  lemma PendingMoves(w: Work)
    requires !w.h.phase.Done? && w.h.todo != [] && !OnPool(w.h.todo[0]) && w.h.inTx && !w.h.broken
    ensures var w' := Advance(w, Lands);
            && w' == Work(w.db, w.h.(todo := w.h.todo[1..], pending := w.h.pending + [w.h.todo[0]]))
            && w'.h.pending + Due(w'.h.todo) == w.h.pending + Due(w.h.todo)
  {
    var st, tail := w.h.todo[0], w.h.todo[1..];
    assert w.h.todo == [st] + tail;
    DueCons(st, tail);
    assert w.h.pending + [st] + Due(tail) == w.h.pending + ([st] + Due(tail));
  }

  // A statement through the context is seen by the handler, or has no effect at all.
  lemma OwnStatementSeen(w: Work, fate: Fate)
    requires w.h.phase.Applying? && w.h.todo != [] && !OnPool(w.h.todo[0]) && (!w.h.inTx ==> w.h.pending == [])
    ensures View(Advance(w, fate)) == View(w) || View(Advance(w, fate)) == WrittenAll(View(w), [w.h.todo[0]])
  {
    var st := w.h.todo[0];
    WrittenAppend(w.db, w.h.pending, [st]);
    assert WrittenAll(w.db, []) == w.db;
  }

  lemma TailKeepsShape(db: Db, todo: seq<Stmt>, db': Db)
    requires todo != [] && IsPaymentTail(db, todo) && !OnPool(todo[0]) && db.intents.Keys <= db'.intents.Keys
    ensures IsPaymentTail(db', todo[1..])
  {
  }

  lemma ReadKeepsInv(w: Work, fate: Fate)
    requires HandlerInv(w) && w.h.phase.Applying? && w.h.todo == [] && w.h.rest != []
    ensures HandlerInv(Advance(w, fate))
  {
    var ev, w' := w.h.rest[0], Advance(w, fate);
    StatementsHaveShape(View(w), ev);
    if w'.h.inTx && !w'.h.broken {
      assert w.h.pending + Due([]) == w.h.pending;
      forall id
        ensures Matched(w'.db, w'.h.pending + Due(w'.h.todo), id)
      {
        assert Matched(w.db, w.h.pending + Due(w.h.todo), id);
        if ev.Payment? {
          PaymentIsMatched(w.db, w.h.pending, ev.eventType, ev.reference, ev.status, id);
        }
      }
    }
  }

  lemma EndKeepsInv(w: Work, fate: Fate)
    requires HandlerInv(w) && !w.h.phase.Done? && w.h.todo == [] && w.h.rest == []
    ensures HandlerInv(Advance(w, fate))
  {
    var w' := Advance(w, fate);
    if w'.h.phase.Done? && w'.h.inTx {
      assert w'.h.pending + Due(w'.h.todo) == [];
    }
  }

  lemma AdvanceKeepsInv(w: Work, fate: Fate)
    requires HandlerInv(w)
    ensures HandlerInv(Advance(w, fate))
  {
    if !w.h.phase.Done? {
      if w.h.todo == [] {
        if w.h.rest != [] && w.h.phase.Applying? {
          ReadKeepsInv(w, fate);
        } else if w.h.rest == [] {
          EndKeepsInv(w, fate);
        }
      } else if !OnPool(w.h.todo[0]) {
        OwnStatementKeepsInv(w, fate);
      } else if !Blocked(w.h, w.h.todo[0]) {
        PoolStatementKeepsInv(w, fate);
      }
    }
  }

  lemma BeginHasInv(db: Db, inTx: bool, events: seq<Event>)
    ensures HandlerInv(Work(db, Begin(inTx, events)))
  {
  }

  // The rows and events that are on their way belong to stored intents.
  predicate IsKnown(intents: map<string, Intent>, st: Stmt) {
    && (st.Record? ==> st.row.intent in intents && st.row.reason.Inbound?)
    && (st.Queue? && st.out.PaymentOut? ==> st.out.intent in intents)
  }

  ghost predicate AllKnown(w: Work) {
    && (forall i :: 0 <= i < |w.h.pending| ==> IsKnown(w.db.intents, w.h.pending[i]))
    && (forall i :: 0 <= i < |w.h.todo| ==> IsKnown(w.db.intents, w.h.todo[i]))
  }

  lemma StatementsAreKnown(db: Db, ev: Event)
    ensures forall i :: 0 <= i < |StatementsFor(db, ev)| ==> IsKnown(db.intents, StatementsFor(db, ev)[i])
  {
  }

  lemma {:induction false} KeysOnlyGrow(db: Db, ws: seq<Stmt>)
    ensures db.intents.Keys <= WrittenAll(db, ws).intents.Keys
  {
    if ws != [] {
      KeysOnlyGrow(db, ws[..|ws| - 1]);
    }
  }

  // Between reads, statements only move from what is left to what is written.
  lemma StatementGoesOn(h: Handler, fate: Fate)
    requires h.todo != []
    ensures var h' := AfterStmt(h, fate);
            && (h'.todo == h.todo || h'.todo == [] || h'.todo == h.todo[1..])
            && (h'.pending == h.pending || h'.pending == h.pending + [h.todo[0]])
  {
  }

  lemma EndKeepsOrDrops(h: Handler, fate: Fate)
    ensures AfterEnd(h, fate).todo == h.todo && (AfterEnd(h, fate).pending == h.pending || AfterEnd(h, fate).pending == [])
  {
  }

  lemma ReadKeepsPending(w: Work, fate: Fate)
    requires w.h.rest != []
    ensures AfterRead(w, fate).pending == w.h.pending
  {
  }

  lemma StatementsGoOn(w: Work, fate: Fate)
    requires w.h.todo != [] || Advance(w, fate).h.todo == []
    ensures var h := Advance(w, fate).h;
            && (h.todo == w.h.todo || h.todo == [] || (w.h.todo != [] && h.todo == w.h.todo[1..]))
            && (h.pending == w.h.pending || h.pending == [] || (w.h.todo != [] && h.pending == w.h.pending + [w.h.todo[0]]))
  {
    if w.h.todo != [] {
      StatementGoesOn(w.h, fate);
    } else if w.h.rest != [] {
      ReadKeepsPending(w, fate);
    } else {
      EndKeepsOrDrops(w.h, fate);
    }
  }

  lemma AdvanceKeepsKnown(w: Work, fate: Fate)
    requires HandlerInv(w) && AllKnown(w)
    ensures AllKnown(Advance(w, fate))
  {
    var w' := Advance(w, fate);
    KeysOnlyGrow(w.db, Landing(w, fate));
    if w'.h.todo != [] && w.h.todo == [] {
      ReadIsKnown(w, fate);
    } else {
      StatementsGoOn(w, fate);
    }
  }

  lemma ReadIsKnown(w: Work, fate: Fate)
    requires HandlerInv(w) && AllKnown(w) && w.h.todo == [] && Advance(w, fate).h.todo != []
    ensures AllKnown(Advance(w, fate))
  {
    KeysStay(w.db, w.h.pending);
    StatementsAreKnown(View(w), w.h.rest[0]);
  }

  // ----- What a handler outside any transaction still owes -----

  // The statements of an event whose status change has already landed.
  function Owed(h: Handler): seq<Stmt> {
    if h.inTx || h.todo == [] || h.todo[0].SetStatus? then [] else h.todo
  }

  lemma {:induction false} PartsConcat(first: seq<Stmt>, rest: seq<Stmt>, id: string)
    ensures RowsOf(first + rest, id) == RowsOf(first, id) + RowsOf(rest, id)
    ensures OutsOf(first + rest, id) == OutsOf(first, id) + OutsOf(rest, id)
  {
    if rest == [] {
      assert first + rest == first;
    } else {
      assert (first + rest)[..|first + rest| - 1] == first + rest[..|rest| - 1];
      PartsConcat(first, rest[..|rest| - 1], id);
    }
  }

  lemma PartsOfOne(st: Stmt, id: string)
    ensures RowsOf([st], id) == if st.Record? && IsRowOf(st.row, id) then [(st.row.fromStatus, st.row.toStatus)] else []
    ensures OutsOf([st], id) == if st.Queue? && IsOutOf(st.out, id) then [st.out.status] else []
  {
    assert [st][..0] == [];
  }

  lemma PartsCons(todo: seq<Stmt>, id: string)
    requires todo != []
    ensures RowsOf(todo, id) == RowsOf([todo[0]], id) + RowsOf(todo[1..], id)
    ensures OutsOf(todo, id) == OutsOf([todo[0]], id) + OutsOf(todo[1..], id)
  {
    assert todo == [todo[0]] + todo[1..];
    PartsConcat([todo[0]], todo[1..], id);
  }

  lemma SessionTailParts(todo: seq<Stmt>, id: string)
    requires IsSessionTail(todo)
    ensures RowsOf(todo, id) == [] && OutsOf(todo, id) == []
  {
    if todo != [] {
      PartsCons(todo, id);
      PartsOfOne(todo[0], id);
      if |todo| == 2 {
        PartsOfOne(todo[1], id);
        assert todo[1..] == [todo[1]];
      }
    }
  }

  lemma EventTailParts(todo: seq<Stmt>, it: string, to: string, id: string)
    requires IsEventTail(todo, it, to)
    ensures RowsOf(todo, id) == [] && OutsOf(todo, id) == if id == it then [to] else []
  {
    PartsCons(todo, id);
    PartsOfOne(todo[0], id);
    SessionTailParts(todo[1..], id);
  }

  lemma RowTailParts(todo: seq<Stmt>, it: string, from: string, to: string, id: string)
    requires IsRowTail(todo, it, from, to)
    ensures RowsOf(todo, id) == (if id == it then [(from, to)] else [])
    ensures OutsOf(todo, id) == if id == it then [to] else []
  {
    PartsCons(todo, id);
    PartsOfOne(todo[0], id);
    EventTailParts(todo[1..], it, to, id);
  }

  lemma CardTailParts(db: Db, todo: seq<Stmt>, id: string)
    requires IsCardTail(db, todo)
    ensures RowsOf(todo, id) == [] && OutsOf(todo, id) == []
  {
    if todo != [] {
      PartsCons(todo, id);
      PartsOfOne(todo[0], id);
      if |todo| == 2 {
        PartsOfOne(todo[1], id);
        assert todo[1..] == [todo[1]];
      }
    }
  }

  // Which statement comes next outside a transaction, and what is owed before and after it.
  datatype Head = Changing(it: string, from: string, to: string)
                | Recording(it: string, from: string, to: string)
                | Announcing(it: string, to: string)
                | Other

  function HeadOf(db: Db, todo: seq<Stmt>): Head {
    if todo == [] then Other
    else
      match todo[0]
      case SetStatus(id, intent) => if id in db.intents then Changing(id, db.intents[id].status, intent.status) else Other
      case Record(row) => Recording(row.intent, row.fromStatus, row.toStatus)
      case Queue(out) => if out.PaymentOut? then Announcing(out.intent, out.status) else Other
      case _ => Other
  }

  lemma OwedParts(w: Work, id: string)
    requires HandlerInv(w) && !w.h.inTx
    ensures var owed := Owed(w.h);
            match HeadOf(w.db, w.h.todo)
            case Changing(it, from, to) =>
              RowsOf(owed, id) == [] && OutsOf(owed, id) == [] && from != to && IsRowTail(w.h.todo[1..], it, from, to)
            case Recording(it, from, to) =>
              && RowsOf(owed, id) == (if id == it then [(from, to)] else [])
              && OutsOf(owed, id) == (if id == it then [to] else [])
              && from != to && IsEventTail(w.h.todo[1..], it, to)
            case Announcing(it, to) =>
              && RowsOf(owed, id) == [] && OutsOf(owed, id) == (if id == it then [to] else [])
              && IsSessionTail(w.h.todo[1..])
            case Other => RowsOf(owed, id) == [] && OutsOf(owed, id) == []
  {
    var todo := w.h.todo;
    if todo != [] {
      if IsCardTail(w.db, todo) {
        CardTailParts(w.db, todo, id);
      } else if IsSessionTail(todo) {
        SessionTailParts(todo, id);
      } else if todo[0].Queue? {
        EventTailParts(todo, todo[0].out.intent, todo[0].out.status, id);
      } else if todo[0].Record? {
        RowTailParts(todo, todo[0].row.intent, todo[0].row.fromStatus, todo[0].row.toStatus, id);
      }
    }
  }

  // Outside a transaction every statement is over once it has run.
  lemma AutoTodo(w: Work, fate: Fate)
    requires HandlerInv(w) && !w.h.inTx && w.h.todo != []
    ensures var h := Advance(w, fate).h;
            !h.inTx && h.todo == if w.h.todo[0].SetStatus? && !fate.Lands? then [] else w.h.todo[1..]
  {
  }

  lemma ReadOwesNothing(db: Db, ev: Event, id: string)
    ensures var todo := StatementsFor(db, ev);
            todo != [] && !todo[0].SetStatus? ==> RowsOf(todo, id) == [] && OutsOf(todo, id) == []
  {
    if StatementsFor(db, ev) != [] && !StatementsFor(db, ev)[0].SetStatus? {
      StatementsHaveShape(db, ev);
      CardTailParts(db, StatementsFor(db, ev), id);
    }
  }

  // What is owed once the next statement of a handler outside any transaction has run.
  lemma OwedAfter(w: Work, fate: Fate, id: string)
    requires HandlerInv(w) && !w.h.inTx && !w.h.phase.Done?
    ensures var owed := Owed(Advance(w, fate).h);
            match HeadOf(w.db, w.h.todo)
            case Changing(it, from, to) =>
              && RowsOf(owed, id) == (if fate.Lands? && id == it then [(from, to)] else [])
              && OutsOf(owed, id) == (if fate.Lands? && id == it then [to] else [])
            case Recording(it, from, to) =>
              RowsOf(owed, id) == [] && OutsOf(owed, id) == (if id == it then [to] else [])
            case Announcing(it, to) => RowsOf(owed, id) == [] && OutsOf(owed, id) == []
            case Other => RowsOf(owed, id) == [] && OutsOf(owed, id) == []
  {
    if w.h.todo == [] {
      if w.h.rest != [] {
        ReadOwesNothing(View(w), w.h.rest[0], id);
      }
    } else {
      AutoTodo(w, fate);
      OwedOfTail(w, fate, Advance(w, fate).h, id);
    }
  }

  lemma OwedOfTail(w: Work, fate: Fate, h: Handler, id: string)
    requires HandlerInv(w) && !w.h.inTx && w.h.todo != [] && !h.inTx
    requires h.todo == if w.h.todo[0].SetStatus? && !fate.Lands? then [] else w.h.todo[1..]
    ensures match HeadOf(w.db, w.h.todo)
            case Changing(it, from, to) =>
              && RowsOf(Owed(h), id) == (if fate.Lands? && id == it then [(from, to)] else [])
              && OutsOf(Owed(h), id) == (if fate.Lands? && id == it then [to] else [])
            case Recording(it, from, to) =>
              RowsOf(Owed(h), id) == [] && OutsOf(Owed(h), id) == (if id == it then [to] else [])
            case Announcing(it, to) => RowsOf(Owed(h), id) == [] && OutsOf(Owed(h), id) == []
            case Other => RowsOf(Owed(h), id) == [] && OutsOf(Owed(h), id) == []
  {
    HeadShape(w.db, w.h.todo);
    match HeadOf(w.db, w.h.todo) {
      case Changing(it, from, to) => RowTailParts(w.h.todo[1..], it, from, to, id);
      case Recording(it, from, to) => EventTailParts(w.h.todo[1..], it, to, id);
      case Announcing(it, to) => SessionTailParts(w.h.todo[1..], id);
      case Other => OtherTailParts(w.db, w.h.todo, id);
    }
  }

  lemma OtherTailParts(db: Db, todo: seq<Stmt>, id: string)
    requires todo != [] && (IsPaymentTail(db, todo) || IsCardTail(db, todo)) && HeadOf(db, todo).Other?
    ensures RowsOf(todo[1..], id) == [] && OutsOf(todo[1..], id) == []
    ensures todo[1..] != [] ==> !todo[1].SetStatus?
  {
    if IsSessionTail(todo) {
      SessionTailParts(todo[1..], id);
    } else {
      CardTailParts(db, todo[1..], id);
    }
  }

  // What reaches the tables in a move outside any transaction.
  lemma LandingParts(w: Work, fate: Fate, id: string)
    requires HandlerInv(w) && !w.h.inTx
    ensures var ws := Landing(w, fate);
            var head := HeadOf(w.db, w.h.todo);
            && ChangesOf(w.db, ws, id) == (if head.Changing? && !fate.Fails? && head.it == id then [(head.from, head.to)] else [])
            && RowsOf(ws, id) == (if head.Recording? && !fate.Fails? && head.it == id then [(head.from, head.to)] else [])
            && OutsOf(ws, id) == (if head.Announcing? && !fate.Fails? && head.it == id then [head.to] else [])
  {
    HeadShape(w.db, w.h.todo);
    if Landing(w, fate) != [] {
      PartsOfOne(w.h.todo[0], id);
      ChangesOfOne(w.db, w.h.todo[0], id);
    }
  }

  lemma ChangesOfOne(db: Db, st: Stmt, id: string)
    ensures ChangesOf(db, [st], id)
            == if st.SetStatus? && st.id == id && id in db.intents && db.intents[id].status != st.intent.status
               then [(db.intents[id].status, st.intent.status)] else []
  {
    assert [st][..0] == [];
  }

  // What the invariant says of the next statement and of those behind it.
  lemma HeadShape(db: Db, todo: seq<Stmt>)
    requires IsPaymentTail(db, todo) || IsCardTail(db, todo)
    ensures match HeadOf(db, todo)
            case Changing(it, from, to) => from != to && IsRowTail(todo[1..], it, from, to)
            case Recording(it, from, to) => from != to && IsEventTail(todo[1..], it, to) && todo[0].row.reason.Inbound?
            case Announcing(it, to) => IsSessionTail(todo[1..])
            case Other => todo != [] ==> !todo[0].SetStatus? && !todo[0].Record? && !(todo[0].Queue? && todo[0].out.PaymentOut?)
  {
  }
}
