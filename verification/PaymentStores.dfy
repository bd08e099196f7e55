/** The durable store as its callers see it: statements go to the open transaction, or commit on their own. */
module PaymentStores {
  import opened PaymentEvents
  import opened PaymentLocks
  import opened Statuses
  import opened Wrappers

  // `course` says how each statement and each lookup goes, in the order in which the program makes them;
  // the program only learns of it. `moves` counts those made so far.
  class PaymentStore {
    const course: nat -> Fate
    var moves: nat
    var db: Db
    var inTx: bool
    var pending: seq<Stmt>
    var broken: bool

    // The handler is working on this store.
    ghost predicate Serves(h: Handler)
      reads this
    {
      h.inTx == inTx && h.pending == pending && h.broken == broken && h.phase.Applying?
    }

    ghost predicate Idle()
      reads this
    {
      !inTx && pending == [] && !broken
    }

    // The part of the course between two moves.
    ghost function Met(first: nat, last: nat): (fates: seq<Fate>)
      requires first <= last
      ensures |fates| == last - first && forall i :: 0 <= i < |fates| ==> fates[i] == course(first + i)
    {
      seq(last - first, i requires 0 <= i => course(first + i))
    }

    // No statement and no lookup since then has failed.
    ghost predicate AllLanded(from: nat)
      reads this
    {
      forall i :: from <= i < moves ==> course(i).Lands?
    }

    // The handler has gone from `w0` to where it is now in the moves since `from`.
    ghost predicate Went(w0: Work, from: nat, h: Handler)
      reads this
    {
      from <= moves && Work(db, h) == Run(w0, Met(from, moves)) && Serves(h)
    }

    constructor (db: Db, course: nat -> Fate)
      ensures this.db == db && this.course == course && moves == 0 && Idle()
    {
      this.db, this.course, moves := db, course, 0;
      inTx, pending, broken := false, [], false;
    }

    lemma OneMove(w0: Work, first: nat)
      ensures Run(w0, Met(first, first + 1)) == Advance(w0, course(first))
    {
      assert Met(first, first + 1) == [] + [course(first)];
      RunStep(w0, [], course(first));
    }

    lemma MetSplits(first: nat, mid: nat, last: nat)
      requires first <= mid <= last
      ensures Met(first, last) == Met(first, mid) + Met(mid, last)
    {
    }

    lemma MoveOn(w0: Work, w1: Work, w2: Work, first: nat, mid: nat, last: nat)
      requires first <= mid <= last && w1 == Run(w0, Met(first, mid)) && w2 == Run(w1, Met(mid, last))
      ensures w2 == Run(w0, Met(first, last))
    {
      MetSplits(first, mid, last);
      RunAppend(w0, Met(first, mid), Met(mid, last));
    }

    method BeginTx()
      requires Idle()
      modifies this
      ensures db == old(db) && moves == old(moves) && inTx && pending == [] && !broken
    {
      inTx := true;
    }

    // Commits what the transaction has written, all of it or none.
    method EndTx(commits: bool)
      requires inTx
      modifies this
      ensures Idle() && moves == old(moves) && db == if commits then WrittenAll(old(db), old(pending)) else old(db)
    {
      if commits {
        db := WrittenAll(db, pending);
      }
      inTx, pending, broken := false, [], false;
    }

    // How the next statement or lookup goes.
    method Try() returns (fate: Fate)
      modifies this`moves
      ensures fate == course(old(moves)) && moves == old(moves) + 1
    {
      fate := course(moves);
      moves := moves + 1;
    }

    /** A short transaction of a request handler. */
    method Write(ws: seq<Stmt>)
      requires Idle()
      modifies this
      ensures Idle() && moves == old(moves) && db == WrittenAll(old(db), ws)
    {
      db := WrittenAll(db, ws);
    }

    /** Runs one statement, which may fail: on a connection of its own, in the transaction, or without one. */
    method Execute(st: Stmt, ghost h: Handler) returns (ok: bool, ghost h': Handler)
      requires Serves(h) && h.todo != [] && h.todo[0] == st && !Blocked(h, st)
      modifies this
      ensures Went(Work(old(db), h), old(moves), h') && inTx == old(inTx)
      ensures h'.rest == h.rest && h'.failed == (h.failed || (st.SetStatus? && !ok))
      ensures h'.todo == if st.SetStatus? && !ok then [] else h.todo[1..]
      ensures !old(inTx) && old(pending) == [] ==> pending == []
      ensures (old(broken) ==> broken) && (!old(inTx) ==> broken == old(broken)) && (inTx && st.SetStatus? && !ok ==> broken)
    {
      WrittenOne(db, st);
      OneMove(Work(db, h), moves);
      h' := AfterStmt(h, course(moves));
      var fate := Try();
      if OnPool(st) {
        ok := !fate.Fails?;
        if ok {
          db := Written(db, st);
        }
      } else if inTx {
        ok := fate.Lands? && !broken;
        if ok {
          pending := pending + [st];
        } else {
          broken := true;
        }
      } else {
        ok := fate.Lands?;
        if !fate.Fails? {
          db := Written(db, st);
        }
      }
    }

    // The statements of a payment event, once the intent has been read.
    method RunPayment(view: Db, id: string, eventType: string, status: string, ghost h0: Handler)
      returns (ok: bool, ghost h: Handler)
      requires Serves(h0) && id in view.intents && h0.todo == PaymentStatements(view, id, eventType, status)
      requires !inTx ==> pending == []
      modifies this
      ensures Went(Work(old(db), h0), old(moves), h) && inTx == old(inTx)
      ensures h.todo == [] && h.rest == h0.rest && h.failed == (h0.failed || !ok)
      ensures (!inTx ==> pending == []) && (old(broken) ==> broken) && (!old(inTx) ==> broken == old(broken)) && (inTx && !ok ==> broken)
    {
      ok, h := Execute(SetStatus(id, WithStatus(view.intents[id], eventType, status)), h0);
      if !ok {
        return;
      }
      ghost var mid, w1 := moves, Work(db, h);
      h := Announce(view, id, eventType, status, h);
      MoveOn(Work(old(db), h0), w1, Work(db, h), old(moves), mid, moves);
    }

    // What follows a change of status: its transition, its event, and those of the session it pays for.
    method Announce(view: Db, id: string, eventType: string, status: string, ghost h0: Handler) returns (ghost h: Handler)
      requires Serves(h0) && id in view.intents && h0.todo == PaymentStatements(view, id, eventType, status)[1..]
      modifies this
      ensures Went(Work(old(db), h0), old(moves), h) && inTx == old(inTx)
      ensures h.todo == [] && h.rest == h0.rest && h.failed == h0.failed
      ensures (!old(inTx) && old(pending) == [] ==> pending == []) && (old(broken) ==> broken)
              && (!old(inTx) ==> broken == old(broken))
    {
      ghost var w0, first := Work(db, h0), moves;
      var ignored;
      ignored, h := Execute(Record(Transition(id, view.intents[id].status, status, Inbound(eventType))), h0);
      ghost var mid, w1 := moves, Work(db, h);
      ignored, h := Execute(Queue(PaymentOut(eventType, id, status)), h);
      MoveOn(w0, w1, Work(db, h), first, mid, moves);
      if status == SUCCEEDED && id in view.sessionOf {
        assert h.todo == SessionStatements(view.sessionOf[id]);
        mid, w1 := moves, Work(db, h);
        h := RunSession(view.sessionOf[id], h);
        MoveOn(w0, w1, Work(db, h), first, mid, moves);
      }
    }

    method RunSession(session: string, ghost h0: Handler) returns (ghost h: Handler)
      requires Serves(h0) && h0.todo == SessionStatements(session)
      modifies this
      ensures Went(Work(old(db), h0), old(moves), h) && inTx == old(inTx)
      ensures h.todo == [] && h.rest == h0.rest && h.failed == h0.failed
      ensures (!old(inTx) && old(pending) == [] ==> pending == []) && (old(broken) ==> broken) && (!old(inTx) ==> broken == old(broken))
    {
      ghost var w0, first := Work(db, h0), moves;
      var ignored;
      ignored, h := Execute(CompleteSession(session), h0);
      ghost var mid, w1 := moves, Work(db, h);
      ignored, h := Execute(Queue(SessionOut(session)), h);
      MoveOn(w0, w1, Work(db, h), first, mid, moves);
    }

    method ApplyPayment(ev: Event, ghost h0: Handler) returns (ok: bool, ghost h: Handler)
      requires Serves(h0) && h0.todo == [] && h0.rest != [] && h0.rest[0] == ev && ev.Payment?
      requires !inTx ==> pending == []
      modifies this
      ensures Went(Work(old(db), h0), old(moves), h) && inTx == old(inTx)
      ensures h.todo == [] && h.rest == h0.rest[1..] && h.failed == (h0.failed || !ok)
      ensures (!inTx ==> pending == []) && (old(broken) ==> broken) && (!old(inTx) ==> broken == old(broken)) && (inTx && !ok ==> broken)
    {
      ghost var w0, first := Work(db, h0), moves;
      OneMove(w0, first);
      ok, h := true, AfterRead(w0, course(first));
      var fate := Try();
      if inTx && (broken || fate.Fails?) {
        broken := true;
        return;
      }
      if !fate.Lands? {
        return;
      }
      var view := WrittenAll(db, pending);
      var found := Resolve(view, ev.reference);
      if found.None? || view.intents[found.value].status == ev.status {
        return;
      }
      ghost var mid, w1 := moves, Work(db, h);
      ok, h := RunPayment(view, found.value, ev.eventType, ev.status, h);
      MoveOn(w0, w1, Work(db, h), first, mid, moves);
    }

    // `stuck` is a handler that waits for a row that its own transaction has locked.
    method ApplySavedCard(ev: Event, ghost h0: Handler) returns (stuck: bool, ghost h: Handler)
      requires Serves(h0) && h0.todo == [] && h0.rest != [] && h0.rest[0] == ev && ev.SavedCard?
      requires !inTx ==> pending == []
      modifies this
      ensures Went(Work(old(db), h0), old(moves), h) && inTx == old(inTx)
      ensures h.rest == h0.rest[1..] && h.failed == h0.failed
      ensures if stuck then inTx && h.todo != [] && Blocked(h, h.todo[0]) else h.todo == []
      ensures (!inTx ==> pending == []) && (old(broken) ==> broken) && (!old(inTx) ==> broken == old(broken))
    {
      ghost var w0, first := Work(db, h0), moves;
      OneMove(w0, first);
      stuck, h := false, AfterRead(w0, course(first));
      var fate := Try();
      var view := WrittenAll(db, pending);
      if !fate.Lands? || ev.reference !in view.awaiting {
        return;
      }
      stuck := ev.reference in view.intents && HasLocked(ev.reference);
      if stuck {
        return;
      }
      ghost var mid, w1 := moves, Work(db, h);
      h := MarkAndRegister(ev.reference, ev.reference in view.intents, ev.registers, h);
      MoveOn(w0, w1, Work(db, h), first, mid, moves);
    }

    // The open transaction has set the status of this intent, and holds the lock of its row.
    predicate HasLocked(id: string)
      reads this
    {
      exists i | 0 <= i < |pending| :: pending[i].SetStatus? && pending[i].id == id
    }

    // Marks the authorization intent as paid, if it is stored, and stores the registration, if there is one.
    method MarkAndRegister(reference: string, marks: bool, registers: bool, ghost h0: Handler) returns (ghost h: Handler)
      requires Serves(h0) && (!inTx ==> pending == [])
      requires h0.todo == (if marks then [PutIntent(reference, Intent(SUCCEEDED, ""))] else [])
                          + (if registers then [PutSubscription(reference, true)] else [])
      requires marks ==> !Blocked(h0, h0.todo[0])
      modifies this
      ensures Went(Work(old(db), h0), old(moves), h) && inTx == old(inTx)
      ensures h.todo == [] && h.rest == h0.rest && h.failed == h0.failed
      ensures (!inTx ==> pending == []) && (old(broken) ==> broken) && (!old(inTx) ==> broken == old(broken))
    {
      ghost var w0, first := Work(db, h0), moves;
      h := h0;
      assert Met(first, first) == [];
      var ignored;
      if marks {
        ignored, h := Execute(PutIntent(reference, Intent(SUCCEEDED, "")), h);
      }
      if registers {
        ghost var mid, w1 := moves, Work(db, h);
        ignored, h := Execute(PutSubscription(reference, true), h);
        MoveOn(w0, w1, Work(db, h), first, mid, moves);
      }
    }

    /** Applies one event, as the course lets it. */
    method ApplyInboundEvent(ev: Event, ghost h0: Handler) returns (ok: bool, stuck: bool, ghost h: Handler)
      requires Serves(h0) && h0.todo == [] && h0.rest != [] && h0.rest[0] == ev && (!inTx ==> pending == [])
      modifies this
      ensures Went(Work(old(db), h0), old(moves), h) && inTx == old(inTx)
      ensures h.rest == h0.rest[1..] && h.failed == (h0.failed || !ok)
      ensures if stuck then inTx && h.todo != [] && Blocked(h, h.todo[0]) else h.todo == []
      ensures (!inTx ==> pending == []) && (old(broken) ==> broken) && (!old(inTx) ==> broken == old(broken)) && (inTx && !ok ==> broken)
    {
      ok, stuck := true, false;
      match ev
      case Payment(_, _, _) => ok, h := ApplyPayment(ev, h0);
      case SavedCard(_, _) => stuck, h := ApplySavedCard(ev, h0);
      case Cycle =>
        OneMove(Work(db, h0), moves);
        h := AfterRead(Work(db, h0), course(moves));
        var ignored := Try();
    }

    /** The loop over the events of a notification. Where no statement and no lookup fails, every event takes
        its effect in turn, on the tables as the handler sees them, unless the handler waits for itself. */
    method ApplyInboundEvents(events: seq<Event>) returns (failed: bool, stuck: bool, ghost h: Handler)
      requires pending == [] && !broken
      modifies this
      ensures Went(Work(old(db), Begin(old(inTx), events)), old(moves), h) && inTx == old(inTx)
      ensures failed == h.failed && (inTx && failed ==> broken) && (!inTx ==> Idle())
      ensures if stuck then inTx && h.todo != [] && Blocked(h, h.todo[0]) else h.todo == [] && h.rest == []
      ensures AllLanded(old(moves)) ==>
                && !failed && (stuck <==> inTx && WaitsForItself(old(db), events))
                && (!stuck ==> !broken && AppliedInTurn(old(db), events, WrittenAll(db, pending)))
    {
      ghost var w0, first := Work(db, Begin(inTx, events)), moves;
      failed, stuck, h := LoopOver(events);
      if AllLanded(first) {
        AllLandNoneFails(w0.db, inTx, events, Met(first, moves));
        EventsLandOrWait(w0.db, inTx, events, Met(first, moves));
        ApplyAllInTurn(w0.db, events);
      }
    }

    method LoopOver(events: seq<Event>) returns (failed: bool, stuck: bool, ghost h: Handler)
      requires pending == [] && !broken
      modifies this
      ensures Went(Work(old(db), Begin(old(inTx), events)), old(moves), h) && inTx == old(inTx)
      ensures failed == h.failed && (inTx && failed ==> broken) && (!inTx ==> Idle())
      ensures if stuck then inTx && h.todo != [] && Blocked(h, h.todo[0]) else h.todo == [] && h.rest == []
    {
      ghost var w0, first := Work(db, Begin(inTx, events)), moves;
      failed, stuck, h := false, false, w0.h;
      assert events[0..] == events;
      for i := 0 to |events|
        invariant Went(w0, first, h) && inTx == old(inTx) && failed == h.failed
        invariant h.todo == [] && h.rest == events[i..] && (!inTx ==> Idle()) && (inTx && failed ==> broken)
      {
        var ok;
        ghost var mid, w1 := moves, Work(db, h);
        ok, stuck, h := ApplyInboundEvent(events[i], h);
        MoveOn(w0, w1, Work(db, h), first, mid, moves);
        failed := failed || !ok;
        if stuck {
          return;
        }
      }
    }
  }
}
