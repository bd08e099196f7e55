/**
 A handler that applies events inside a transaction can wait for itself: a saved card marks its intent as
 paid over a connection of its own, while the transaction may hold the lock of that row. Here: every other
 handler ends, and exactly which lists of events wait.
 */
module PaymentLocks {
  import opened PaymentEvents
  import opened Statuses
  import opened Wrappers

  // The next statement waits for the handler's own transaction, which waits for the handler.
  predicate Stuck(h: Handler) {
    !h.phase.Done? && h.todo != [] && Blocked(h, h.todo[0])
  }

  // An event has at most five statements, and its reading is a move too.
  function Left(h: Handler): nat {
    if h.phase.Done? then 0 else 6 * |h.rest| + |h.todo| + if h.phase.Sealed? then 1 else 2
  }

  lemma MoveIsProgress(w: Work, fate: Fate)
    ensures w.h.phase.Done? ==> Advance(w, fate).h == w.h
    ensures Stuck(w.h) ==> Advance(w, fate).h == w.h
    ensures !w.h.phase.Done? && !Stuck(w.h) ==> Left(Advance(w, fate).h) < Left(w.h)
  {
    if !w.h.phase.Done? && w.h.todo == [] && w.h.rest != [] {
      FewStatements(View(w), w.h.rest[0]);
    }
  }

  lemma FewStatements(db: Db, ev: Event)
    ensures |StatementsFor(db, ev)| <= 5
  {
  }

  lemma {:induction false} RunsDown(w: Work, script: seq<Fate>)
    ensures var h := Run(w, script).h; h.phase.Done? || Stuck(h) || Left(h) + |script| <= Left(w.h)
  {
    if script != [] {
      RunsDown(w, script[..|script| - 1]);
      MoveIsProgress(Run(w, script[..|script| - 1]), script[|script| - 1]);
    }
  }

  /** Whatever fails, after six moves for each event and two more a handler has ended or waits for itself. */
  lemma EndsOrWaits(db: Db, inTx: bool, events: seq<Event>, script: seq<Fate>)
    requires |script| >= 6 * |events| + 2
    ensures var h := Run(Work(db, Begin(inTx, events)), script).h; h.phase.Done? <==> !Stuck(h)
  {
    assert Left(Begin(inTx, events)) == 6 * |events| + 2;
    RunsDown(Work(db, Begin(inTx, events)), script);
  }

  // ----- Which lists of events wait -----

  // The tables that event `k` finds when every statement lands.
  function Before(db: Db, events: seq<Event>, k: nat): Db
    requires k <= |events|
  {
    ApplyAll(db, events[..k])
  }

  function StatementsOf(db: Db, events: seq<Event>, k: nat): seq<Stmt>
    requires k < |events|
  {
    StatementsFor(Before(db, events, k), events[k])
  }

  // Event `i` changes the status of this intent.
  predicate Changes(db: Db, events: seq<Event>, i: nat, id: string)
    requires i < |events|
  {
    events[i].Payment? && Changed(Before(db, events, i), events[i].reference, events[i].status) == Some(id)
  }

  // Event `j` is the saved card of a subscription that still awaits its schedule, for this intent.
  predicate Marks(db: Db, events: seq<Event>, j: nat, id: string)
    requires j < |events|
  {
    events[j].SavedCard? && events[j].reference == id && id in Before(db, events, j).awaiting
  }

  // A payment event changes the status of the authorization intent that a later saved card marks as paid.
  ghost predicate WaitsForItself(db: Db, events: seq<Event>) {
    exists i, j, id :: 0 <= i < j < |events| && Changes(db, events, i, id) && Marks(db, events, j, id)
  }

  ghost predicate Sets(ws: seq<Stmt>, id: string) {
    exists p :: 0 <= p < |ws| && ws[p].SetStatus? && ws[p].id == id
  }

  predicate Puts(ws: seq<Stmt>, id: string) {
    ws != [] && ws[0].PutIntent? && ws[0].id == id
  }

  // The statements of each event, when every statement lands.
  ghost predicate IsPlan(db: Db, events: seq<Event>, plan: seq<seq<Stmt>>) {
    |plan| == |events| && forall k :: 0 <= k < |plan| ==> plan[k] == StatementsOf(db, events, k)
  }

  // Only the first statement of an event puts an intent.
  ghost predicate PutsComeFirst(plan: seq<seq<Stmt>>) {
    forall k, p :: 0 <= k < |plan| && 0 < p < |plan[k]| ==> !plan[k][p].PutIntent?
  }

  ghost predicate SetBefore(plan: seq<seq<Stmt>>, k: nat, id: string)
    requires k <= |plan|
  {
    exists i :: 0 <= i < k && Sets(plan[i], id)
  }

  ghost predicate NoneWaits(plan: seq<seq<Stmt>>, n: nat)
    requires n <= |plan|
  {
    forall j, id :: 0 <= j < n && Puts(plan[j], id) ==> !SetBefore(plan, j, id)
  }

  // ----- The plan and the events -----

  lemma OnlyFirstSets(db: Db, id: string, eventType: string, status: string)
    requires id in db.intents
    ensures var ws := PaymentStatements(db, id, eventType, status);
            ws[0].SetStatus? && ws[0].id == id && forall p :: 0 < p < |ws| ==> !ws[p].SetStatus?
  {
  }

  lemma PaymentSets(db: Db, id: string, eventType: string, status: string, other: string)
    requires id in db.intents
    ensures Sets(PaymentStatements(db, id, eventType, status), other) <==> other == id
  {
    OnlyFirstSets(db, id, eventType, status);
    var ws := PaymentStatements(db, id, eventType, status);
    if Sets(ws, other) {
      var p :| 0 <= p < |ws| && ws[p].SetStatus? && ws[p].id == other;
      assert p == 0;
    }
  }

  lemma StatementsSet(db: Db, events: seq<Event>, k: nat, id: string)
    requires k < |events|
    ensures Sets(StatementsOf(db, events, k), id) <==> Changes(db, events, k, id)
  {
    var db', ev := Before(db, events, k), events[k];
    if ev.Payment? && Changed(db', ev.reference, ev.status).Some? {
      PaymentSets(db', Changed(db', ev.reference, ev.status).value, ev.eventType, ev.status, id);
    }
  }

  lemma StatementsPut(db: Db, ev: Event, id: string)
    ensures Puts(StatementsFor(db, ev), id) <==> ev.SavedCard? && ev.reference == id && id in db.awaiting && id in db.intents
    ensures forall p :: 0 < p < |StatementsFor(db, ev)| ==> !StatementsFor(db, ev)[p].PutIntent?
  {
  }

  lemma {:induction false} WrittenKeepsIntents(db: Db, ws: seq<Stmt>, id: string)
    requires id in db.intents
    ensures id in WrittenAll(db, ws).intents
  {
    if ws != [] {
      WrittenKeepsIntents(db, ws[..|ws| - 1], id);
    }
  }

  lemma {:induction false} EventsKeepIntents(db: Db, events: seq<Event>, id: string)
    requires id in db.intents
    ensures id in ApplyAll(db, events).intents
  {
    if events != [] {
      var before := ApplyAll(db, events[..|events| - 1]);
      EventsKeepIntents(db, events[..|events| - 1], id);
      WrittenKeepsIntents(before, StatementsFor(before, events[|events| - 1]), id);
    }
  }

  lemma IntentsStay(db: Db, events: seq<Event>, i: nat, k: nat, id: string)
    requires i <= k <= |events| && id in Before(db, events, i).intents
    ensures id in Before(db, events, k).intents
  {
    assert events[..i] + events[i..k] == events[..k];
    ApplyAllAppend(db, events[..i], events[i..k]);
    EventsKeepIntents(Before(db, events, i), events[i..k], id);
  }

  lemma PlanWaits(db: Db, events: seq<Event>, plan: seq<seq<Stmt>>)
    requires IsPlan(db, events, plan) && !NoneWaits(plan, |plan|)
    ensures WaitsForItself(db, events)
  {
    var j, id :| 0 <= j < |plan| && Puts(plan[j], id) && SetBefore(plan, j, id);
    var i :| 0 <= i < j && Sets(plan[i], id);
    StatementsPut(Before(db, events, j), events[j], id);
    StatementsSet(db, events, i, id);
    assert Changes(db, events, i, id) && Marks(db, events, j, id);
  }

  lemma WaitingIsPlanned(db: Db, events: seq<Event>, plan: seq<seq<Stmt>>)
    requires IsPlan(db, events, plan) && WaitsForItself(db, events)
    ensures !NoneWaits(plan, |plan|)
  {
    var i, j, id :| 0 <= i < j < |events| && Changes(db, events, i, id) && Marks(db, events, j, id);
    StatementsSet(db, events, i, id);
    IntentsStay(db, events, i, j, id);
    StatementsPut(Before(db, events, j), events[j], id);
    assert Sets(plan[i], id) && Puts(plan[j], id);
    assert SetBefore(plan, j, id);
  }

  lemma PlanPutsFirst(db: Db, events: seq<Event>, plan: seq<seq<Stmt>>)
    requires IsPlan(db, events, plan)
    ensures PutsComeFirst(plan)
  {
    forall k, p | 0 <= k < |plan| && 0 < p < |plan[k]|
      ensures !plan[k][p].PutIntent?
    {
      StatementsPut(Before(db, events, k), events[k], "");
    }
  }

  // ----- The locks along an undisturbed run -----

  // How many statements of the event that was read last have run.
  function Ran(plan: seq<seq<Stmt>>, h: Handler, n: nat): int
    requires 0 < n <= |plan|
  {
    |plan[n - 1]| - |h.todo|
  }

  // The transaction has locked the rows that the events read so far have set by now.
  ghost predicate Holds(plan: seq<seq<Stmt>>, h: Handler, n: nat) {
    && 0 < n <= |plan| && 0 <= Ran(plan, h, n) && h.todo == plan[n - 1][Ran(plan, h, n)..]
    && forall id :: Sets(h.pending, id) <==> SetBefore(plan, n - 1, id) || Sets(plan[n - 1][..Ran(plan, h, n)], id)
  }

  // After `n` events no event has waited; the one read last has not if any statement of it has run.
  ghost predicate Tracked(plan: seq<seq<Stmt>>, h: Handler, n: nat) {
    if n == 0 then h.todo == [] && h.pending == []
    else Holds(plan, h, n) && NoneWaits(plan, if Ran(plan, h, n) > 0 then n else n - 1)
  }

  lemma BlockedIff(h: Handler, st: Stmt)
    ensures Blocked(h, st) <==> st.PutIntent? && Sets(h.pending, st.id)
  {
  }

  lemma FirstStatementDoesNotWait(plan: seq<seq<Stmt>>, h: Handler, n: nat)
    requires Holds(plan, h, n) && NoneWaits(plan, n - 1) && Ran(plan, h, n) == 0
    requires h.todo != [] ==> !Blocked(h, h.todo[0])
    ensures NoneWaits(plan, n)
  {
    assert h.todo == plan[n - 1];
    if h.todo != [] {
      BlockedIff(h, h.todo[0]);
    }
  }

  lemma SetsOneMore(ws: seq<Stmt>, st: Stmt, id: string)
    ensures Sets(ws + [st], id) <==> Sets(ws, id) || (st.SetStatus? && st.id == id)
  {
    if Sets(ws, id) {
      var p :| 0 <= p < |ws| && ws[p].SetStatus? && ws[p].id == id;
      assert (ws + [st])[p].SetStatus?;
    }
    assert (ws + [st])[|ws|] == st;
  }

  lemma StatementHolds(plan: seq<seq<Stmt>>, h: Handler, h': Handler, n: nat)
    requires Holds(plan, h, n) && h.todo != [] && h'.todo == h.todo[1..]
    requires h'.pending == if OnPool(h.todo[0]) then h.pending else h.pending + [h.todo[0]]
    ensures Holds(plan, h', n)
  {
    var ws, r := plan[n - 1], Ran(plan, h, n);
    assert h.todo[0] == ws[r] && ws[..r + 1] == ws[..r] + [ws[r]];
    forall id
      ensures Sets(h'.pending, id) <==> SetBefore(plan, n - 1, id) || Sets(ws[..r + 1], id)
    {
      SetsOneMore(ws[..r], ws[r], id);
      SetsOneMore(h.pending, ws[r], id);
    }
  }

  lemma StatementTracked(plan: seq<seq<Stmt>>, h: Handler, n: nat)
    requires Tracked(plan, h, n) && h.todo != [] && !Blocked(h, h.todo[0]) && h.inTx && !h.broken
    ensures Tracked(plan, AfterStmt(h, Lands), n)
  {
    StatementHolds(plan, h, AfterStmt(h, Lands), n);
    if Ran(plan, h, n) == 0 {
      FirstStatementDoesNotWait(plan, h, n);
    }
  }

  // With nothing left of the events read so far, none of them has waited.
  lemma NothingWaited(plan: seq<seq<Stmt>>, h: Handler, n: nat)
    requires Tracked(plan, h, n) && h.todo == [] && n <= |plan|
    ensures NoneWaits(plan, n)
  {
    if n > 0 && Ran(plan, h, n) == 0 {
      FirstStatementDoesNotWait(plan, h, n);
    }
  }

  lemma ReadTracked(plan: seq<seq<Stmt>>, h: Handler, h': Handler, n: nat)
    requires Tracked(plan, h, n) && h.todo == [] && n < |plan|
    requires h'.todo == plan[n] && h'.pending == h.pending
    ensures Tracked(plan, h', n + 1)
  {
    NothingWaited(plan, h, n);
    forall id
      ensures Sets(h'.pending, id) <==> SetBefore(plan, n, id)
    {
      if n > 0 {
        assert plan[n - 1][..Ran(plan, h, n)] == plan[n - 1];
        SetBeforeNext(plan, n - 1, id);
      }
    }
  }

  lemma SetBeforeNext(plan: seq<seq<Stmt>>, k: nat, id: string)
    requires k < |plan|
    ensures SetBefore(plan, k + 1, id) <==> SetBefore(plan, k, id) || Sets(plan[k], id)
  {
  }

  lemma StuckWaits(plan: seq<seq<Stmt>>, h: Handler, n: nat)
    requires PutsComeFirst(plan) && n <= |plan| && Tracked(plan, h, n) && Stuck(h)
    ensures !NoneWaits(plan, |plan|)
  {
    BlockedIff(h, h.todo[0]);
    assert h.todo[0] == plan[n - 1][Ran(plan, h, n)];
    assert Puts(plan[n - 1], h.todo[0].id);
  }

  ghost predicate IsAt(db: Db, events: seq<Event>, plan: seq<seq<Stmt>>, w: Work, n: nat) {
    w.h.inTx && OnTrack(db, events, w, n) && Tracked(plan, w.h, n)
  }

  // Waiting at some event, or through with all of them.
  ghost predicate Accounted(db: Db, events: seq<Event>, plan: seq<seq<Stmt>>, w: Work) {
    if w.h.phase.Applying? then exists n :: IsAt(db, events, plan, w, n)
    else NoneWaits(plan, |plan|) && (w.h.phase.Sealed? ==> w.h.todo == [] && w.h.rest == [])
  }

  lemma StatementIsAt(db: Db, events: seq<Event>, plan: seq<seq<Stmt>>, w: Work, n: nat)
    requires IsAt(db, events, plan, w, n) && w.h.phase.Applying? && w.h.todo != []
    ensures IsAt(db, events, plan, Advance(w, Lands), n) && Advance(w, Lands).h.phase.Applying?
  {
    StatementOnTrack(db, events, w, n);
    if !Blocked(w.h, w.h.todo[0]) {
      StatementTracked(plan, w.h, n);
    }
  }

  lemma ReadIsAt(db: Db, events: seq<Event>, plan: seq<seq<Stmt>>, w: Work, n: nat)
    requires IsPlan(db, events, plan) && IsAt(db, events, plan, w, n)
    requires w.h.phase.Applying? && w.h.todo == [] && w.h.rest != []
    ensures IsAt(db, events, plan, Advance(w, Lands), n + 1) && Advance(w, Lands).h.phase.Applying?
  {
    ReadOnTrack(db, events, w, n);
    assert Advance(w, Lands).h.todo == StatementsOf(db, events, n);
    ReadTracked(plan, w.h, Advance(w, Lands).h, n);
  }

  lemma EndIsAccounted(db: Db, events: seq<Event>, plan: seq<seq<Stmt>>, w: Work, n: nat)
    requires IsPlan(db, events, plan) && IsAt(db, events, plan, w, n)
    requires w.h.phase.Applying? && w.h.todo == [] && w.h.rest == []
    ensures Accounted(db, events, plan, Advance(w, Lands))
  {
    NothingWaited(plan, w.h, n);
  }

  lemma StepAccounted(db: Db, events: seq<Event>, plan: seq<seq<Stmt>>, w: Work)
    requires IsPlan(db, events, plan) && Accounted(db, events, plan, w)
    ensures Accounted(db, events, plan, Advance(w, Lands))
  {
    if w.h.phase.Applying? {
      var n: nat :| IsAt(db, events, plan, w, n);
      if w.h.todo != [] {
        StatementIsAt(db, events, plan, w, n);
      } else if w.h.rest != [] {
        ReadIsAt(db, events, plan, w, n);
      } else {
        EndIsAccounted(db, events, plan, w, n);
      }
    }
  }

  lemma {:induction false} RunAccounted(db: Db, events: seq<Event>, plan: seq<seq<Stmt>>, script: seq<Fate>)
    requires AllLand(script) && IsPlan(db, events, plan)
    ensures Accounted(db, events, plan, Run(Work(db, Begin(true, events)), script))
  {
    if script == [] {
      assert events[0..] == events && events[..0] == [];
      var w := Work(db, Begin(true, events));
      assert IsAt(db, events, plan, w, 0);
    } else {
      RunAccounted(db, events, plan, script[..|script| - 1]);
      StepAccounted(db, events, plan, Run(Work(db, Begin(true, events)), script[..|script| - 1]));
    }
  }

  lemma StuckIff(db: Db, events: seq<Event>, script: seq<Fate>)
    requires AllLand(script)
    ensures var h := Run(Work(db, Begin(true, events)), script).h;
            && (Stuck(h) ==> WaitsForItself(db, events))
            && (h.phase.Done? || (h.todo == [] && h.rest == []) ==> !WaitsForItself(db, events))
  {
    var plan := seq(|events|, k requires 0 <= k < |events| => StatementsOf(db, events, k));
    var w := Run(Work(db, Begin(true, events)), script);
    RunAccounted(db, events, plan, script);
    if w.h.phase.Applying? {
      var n: nat :| IsAt(db, events, plan, w, n);
      if Stuck(w.h) {
        PlanPutsFirst(db, events, plan);
        StuckWaits(plan, w.h, n);
        PlanWaits(db, events, plan);
      } else if w.h.todo == [] && w.h.rest == [] {
        NothingWaited(plan, w.h, n);
        NoPlanNoWaiting(db, events, plan);
      }
    } else {
      NoPlanNoWaiting(db, events, plan);
    }
  }

  lemma NoPlanNoWaiting(db: Db, events: seq<Event>, plan: seq<seq<Stmt>>)
    requires IsPlan(db, events, plan) && NoneWaits(plan, |plan|)
    ensures !WaitsForItself(db, events)
  {
    if WaitsForItself(db, events) {
      WaitingIsPlanned(db, events, plan);
    }
  }

  lemma {:induction false} PlainNeverWaits(w: Work, script: seq<Fate>)
    requires !w.h.inTx && w.h.pending == []
    ensures var h := Run(w, script).h; !h.inTx && h.pending == []
  {
    if script != [] {
      PlainNeverWaits(w, script[..|script| - 1]);
    }
  }

  /** Where every statement and read succeeds, a handler ends with all its events applied, unless it runs in a
      transaction and a payment event changes the status of the intent that a later saved card marks as
      paid; then, and only then, it waits for itself. */
  lemma EndsUnlessItWaits(db: Db, inTx: bool, events: seq<Event>, script: seq<Fate>)
    requires AllLand(script) && |script| >= 6 * |events| + 2
    ensures var w := Run(Work(db, Begin(inTx, events)), script);
            if inTx && WaitsForItself(db, events) then Stuck(w.h)
            else w.h.phase == Done(true) && w.db == ApplyAll(db, events)
  {
    var w := Run(Work(db, Begin(inTx, events)), script);
    EndsOrWaits(db, inTx, events, script);
    AllLandIsApplyAll(db, inTx, events, script);
    if inTx {
      StuckIff(db, events, script);
    } else {
      PlainNeverWaits(Work(db, Begin(inTx, events)), script);
    }
  }

  /** A notification of a single event never waits for itself. */
  lemma SingleEventEnds(db: Db, inTx: bool, ev: Event, script: seq<Fate>)
    requires AllLand(script) && |script| >= 8
    ensures var w := Run(Work(db, Begin(inTx, [ev])), script); w.h.phase == Done(true) && w.db == Apply(db, ev)
  {
    EndsUnlessItWaits(db, inTx, [ev], script);
    assert [ev][..0] == [];
  }

  /** It is reachable: one notification reports a new status of an authorization intent and its saved card. */
  lemma StatusThenSavedCardWaits(db: Db, eventType: string, id: string, status: string, registers: bool, script: seq<Fate>)
    requires id in db.intents && db.intents[id].status != status && id in db.awaiting
    requires AllLand(script) && |script| >= 14
    ensures Stuck(Run(Work(db, Begin(true, [Payment(eventType, id, status), SavedCard(id, registers)])), script).h)
  {
    var first, second := Payment(eventType, id, status), SavedCard(id, registers);
    assert [first, second][..1] == [first] && [first, second][..0] == [] && [first][..0] == [];
    PaymentKeepsAwaiting(db, first);
    assert Changes(db, [first, second], 0, id) && Marks(db, [first, second], 1, id);
    EndsUnlessItWaits(db, true, [first, second], script);
  }

  lemma {:induction false} WrittenKeepsAwaiting(db: Db, ws: seq<Stmt>)
    requires forall p :: 0 <= p < |ws| ==> !ws[p].PutSubscription?
    ensures WrittenAll(db, ws).awaiting == db.awaiting
  {
    if ws != [] {
      WrittenKeepsAwaiting(db, ws[..|ws| - 1]);
    }
  }

  lemma PaymentKeepsAwaiting(db: Db, ev: Event)
    requires ev.Payment?
    ensures Apply(db, ev).awaiting == db.awaiting
  {
    WrittenKeepsAwaiting(db, StatementsFor(db, ev));
  }

  /** The same for a handler that has come to the end of its events, or can go no further, before its
      transaction ends: it waits for itself exactly for such events, and sees all of them applied otherwise. */
  lemma EventsLandOrWait(db: Db, inTx: bool, events: seq<Event>, script: seq<Fate>)
    requires AllLand(script)
    requires var h := Run(Work(db, Begin(inTx, events)), script).h;
             h.phase.Applying? && (Stuck(h) || (h.todo == [] && h.rest == []))
    ensures var w := Run(Work(db, Begin(inTx, events)), script);
            && (Stuck(w.h) <==> inTx && WaitsForItself(db, events))
            && (!Stuck(w.h) ==> View(w) == ApplyAll(db, events) && !w.h.broken)
  {
    var w := Run(Work(db, Begin(inTx, events)), script);
    AllLandIsApplyAll(db, inTx, events, script);
    var k: nat :| OnTrack(db, events, w, k);
    assert w.h.rest == [] ==> events[..k] == events;
    if inTx {
      StuckIff(db, events, script);
    } else {
      PlainNeverWaits(Work(db, Begin(inTx, events)), script);
    }
  }
}
