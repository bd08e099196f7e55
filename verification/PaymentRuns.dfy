/**
 Any serial run over the payment tables: webhook transactions and re-applications by the reconciler, each
 broken off at any statement, the two writes around the provider call that creates an intent, the intents
 of checkouts and subscriptions, and confirmations, which write back a row they read some time before.
 */
module PaymentRuns {
  import opened PaymentEvents
  import opened PaymentHandler
  import opened PaymentLocks
  import opened PaymentStores
  import opened Statuses
  import opened Wrappers

  datatype Outcome = Rejected | Accepted(status: string)

  datatype Snapshot = Snapshot(id: string, intent: Intent)

  datatype Step =
    | Receive(events: seq<Event>)
    | Reclaim(events: seq<Event>)
    | Advance(fate: Fate)
    | Die
    | CreateBegin(id: string)
    | CreateSettle(id: string, outcome: Outcome)
    | Checkout(id: string, status: string)
    | Subscribe(id: string)
    | ConfirmRead(id: string)
    | ConfirmWrite(read: nat)

  // `handler` is the one at work, if any; `held` are the rows that confirmations hold in memory; `born`
  // remembers the status each intent was first stored with.
  datatype State = State(db: Db, handler: Option<Handler>, held: seq<Snapshot>, born: map<string, string>)

  ghost predicate Starts(s: State) {
    && s.db.intents == map[] && s.db.transitions == [] && s.db.outbox == []
    && s.handler.None? && s.held == [] && s.born == map[]
  }

  // The status a create ends with, and what it writes then. It does not look at the stored status, which
  // may have moved on.
  function SettledStatus(outcome: Outcome): string {
    if outcome.Rejected? then CANCELED else outcome.status
  }

  function SettleStatements(id: string, outcome: Outcome): seq<Stmt> {
    var row := Transition(id, REQUIRES_PAYMENT_METHOD, SettledStatus(outcome),
                          if outcome.Rejected? then ProviderFailed else Create);
    match outcome
    case Rejected => [SetStatus(id, Intent(CANCELED, PROVIDER_FAILED)), Record(row)]
    case Accepted(status) => [PutIntent(id, Intent(status, "")), Record(row)]
  }

  // The statements that reach the committed tables in a step. While a handler is at work all others wait.
  function Effects(s: State, step: Step): seq<Stmt> {
    if step.Advance? then
      if s.handler.Some? then Landing(Work(s.db, s.handler.value), step.fate) else []
    else if s.handler.Some? then []
    else
      match step
      case CreateBegin(id) => [PutIntent(id, Intent(REQUIRES_PAYMENT_METHOD, ""))]
      case CreateSettle(id, outcome) => if id in s.db.intents then SettleStatements(id, outcome) else []
      case Checkout(id, status) => if id in s.db.intents then [] else [PutIntent(id, Intent(status, ""))]
      case Subscribe(id) =>
        if id in s.db.intents then [] else [PutIntent(id, Intent(REQUIRES_ACTION, "")), PutSubscription(id, false)]
      case ConfirmWrite(read) => if read < |s.held| then [PutIntent(s.held[read].id, s.held[read].intent)] else []
      case _ => []
  }

  function HandlerAfter(s: State, step: Step): Option<Handler> {
    match step
    case Receive(events) => if s.handler.None? then Some(Begin(true, events)) else s.handler
    case Reclaim(events) => if s.handler.None? then Some(Begin(false, events)) else s.handler
    case Advance(fate) =>
      if s.handler.None? then None
      else
        var h := PaymentEvents.Advance(Work(s.db, s.handler.value), fate).h;
        if h.phase.Done? then None else Some(h)
    case Die => None
    case _ => s.handler
  }

  function Next(s: State, step: Step): State {
    var db := WrittenAll(s.db, Effects(s, step));
    State(db, HandlerAfter(s, step),
          if step.ConfirmRead? && step.id in s.db.intents then s.held + [Snapshot(step.id, s.db.intents[step.id])]
          else s.held,
          map id | id in db.intents :: if id in s.born then s.born[id] else db.intents[id].status)
  }

  function Exec(s: State, steps: seq<Step>): State {
    if steps == [] then s else Next(Exec(s, steps[..|steps| - 1]), steps[|steps| - 1])
  }

  // ----- What the steps do -----

  // The outcome of a create is stored over whatever status the intent has, with the create's transition.
  ghost predicate CreateSettled(db: Db, id: string, outcome: Outcome, db': Db) {
    if id !in db.intents then db' == db
    else if outcome.Accepted? then
      db' == db.(intents := db.intents[id := Intent(outcome.status, "")],
                 transitions := db.transitions + [Transition(id, "requires_payment_method", outcome.status, Create)])
    else
      db' == db.(intents := db.intents[id := Intent("canceled", "provider request failed")],
                 transitions := db.transitions + [Transition(id, "requires_payment_method", "canceled", ProviderFailed)])
  }

  // An intent under a new id is stored with the status; a known id is left alone.
  ghost function WithNew(intents: map<string, Intent>, id: string, status: string): map<string, Intent> {
    if id in intents then intents else intents[id := Intent(status, "")]
  }

  lemma CreateIsSettled(db: Db, id: string, outcome: Outcome)
    requires id in db.intents
    ensures CreateSettled(db, id, outcome, WrittenAll(db, SettleStatements(id, outcome)))
  {
    var ws := SettleStatements(id, outcome);
    assert ws == [ws[0], ws[1]];
    WrittenTwo(db, ws[0], ws[1]);
  }

  // What a step that is no handler's makes of the tables when no handler is at work.
  ghost predicate IsWritten(s: State, step: Step, db': Db) {
    match step
    case CreateBegin(id) => db' == s.db.(intents := s.db.intents[id := Intent("requires_payment_method", "")])
    case CreateSettle(id, outcome) => CreateSettled(s.db, id, outcome, db')
    case Checkout(id, status) => db' == s.db.(intents := WithNew(s.db.intents, id, status))
    case Subscribe(id) =>
      db' == s.db.(intents := WithNew(s.db.intents, id, "requires_action"),
                   awaiting := if id in s.db.intents then s.db.awaiting else s.db.awaiting + {id})
    case ConfirmWrite(read) =>
      if read < |s.held| then db' == s.db.(intents := s.db.intents[s.held[read].id := s.held[read].intent])
      else db' == s.db
    case _ => db' == s.db
  }

  lemma WriteIsWritten(s: State, step: Step)
    requires s.handler.None? && !step.Advance?
    ensures IsWritten(s, step, WrittenAll(s.db, Effects(s, step)))
  {
    var ws := Effects(s, step);
    if step.CreateSettle? && step.id in s.db.intents {
      CreateIsSettled(s.db, step.id, step.outcome);
    } else if |ws| == 2 {
      WrittenTwo(s.db, ws[0], ws[1]);
      assert ws == [ws[0], ws[1]];
    } else if |ws| == 1 {
      WrittenOne(s.db, ws[0]);
      assert ws == [ws[0]];
    }
  }

  /** The steps that are no handler's, on the tables; while a handler is at work they wait. A confirmation reads
      the row it will write back, and a process that dies leaves no handler. */
  lemma OtherStepsWrite(s: State, step: Step)
    requires !step.Advance?
    ensures if s.handler.Some? then Next(s, step).db == s.db else IsWritten(s, step, Next(s, step).db)
    ensures step.Die? ==> Next(s, step).handler.None?
    ensures Next(s, step).held
            == s.held + (if step.ConfirmRead? && step.id in s.db.intents then [Snapshot(step.id, s.db.intents[step.id])] else [])
  {
    if s.handler.None? {
      WriteIsWritten(s, step);
    }
  }

  function Moves(script: seq<Fate>): seq<Step> {
    seq(|script|, i requires 0 <= i < |script| => Step.Advance(script[i]))
  }

  // A run whose handler has come as far as `w`.
  ghost predicate IsAt(s: State, w: Work) {
    s.db == w.db && s.handler == if w.h.phase.Done? then None else Some(w.h)
  }

  lemma MoveIsAt(s: State, w: Work, fate: Fate)
    requires IsAt(s, w)
    ensures IsAt(Next(s, Step.Advance(fate)), PaymentEvents.Advance(w, fate))
  {
    if w.h.phase.Done? {
      assert Landing(w, fate) == [];
    }
  }

  lemma {:induction false} HandlerRuns(s: State, w: Work, script: seq<Fate>)
    requires IsAt(s, w)
    ensures IsAt(Exec(s, Moves(script)), Run(w, script))
  {
    if script != [] {
      var init, fate := script[..|script| - 1], script[|script| - 1];
      assert Moves(script)[..|script| - 1] == Moves(init);
      HandlerRuns(s, w, init);
      MoveIsAt(Exec(s, Moves(init)), Run(w, init), fate);
    }
  }

  // A notification starts a handler in a transaction, a re-application one without.
  function Start(inTx: bool, events: seq<Event>): Step {
    if inTx then Receive(events) else Reclaim(events)
  }

  /** Between other steps a handler runs as it does alone, whatever the fates of its statements. */
  lemma StartRuns(s: State, inTx: bool, events: seq<Event>, script: seq<Fate>)
    requires s.handler.None?
    ensures IsAt(Exec(s, [Start(inTx, events)] + Moves(script)), Run(Work(s.db, Begin(inTx, events)), script))
  {
    ExecAppend(s, [Start(inTx, events)], Moves(script));
    ExecOne(s, Start(inTx, events));
    HandlerRuns(Next(s, Start(inTx, events)), Work(s.db, Begin(inTx, events)), script);
  }

  /** Where every statement lands, a notification, or its re-application, has ended with every event in effect on
      the tables in turn, unless it is in a transaction and waits for itself. */
  lemma UndisturbedHandlerApplies(s: State, inTx: bool, events: seq<Event>, script: seq<Fate>)
    requires s.handler.None? && AllLand(script) && |script| >= 6 * |events| + 2
    requires !(inTx && WaitsForItself(s.db, events))
    ensures var s' := Exec(s, [Start(inTx, events)] + Moves(script));
            s'.handler.None? && AppliedInTurn(s.db, events, s'.db)
  {
    StartRuns(s, inTx, events, script);
    EndsUnlessItWaits(s.db, inTx, events, script);
    ApplyAllInTurn(s.db, events);
  }

  // ----- What every reachable state keeps -----

  ghost predicate Inv(s: State) {
    && (s.handler.Some? ==>
          var w := Work(s.db, s.handler.value); HandlerInv(w) && AllKnown(w) && !w.h.phase.Done?)
    && s.born.Keys == s.db.intents.Keys
    && (forall i :: 0 <= i < |s.held| ==> s.held[i].id in s.db.intents)
    && TablesKnown(s.db)
  }

  // A statement about an intent that is stored by then.
  predicate IsAbout(intents: map<string, Intent>, st: Stmt) {
    (st.Record? ==> st.row.intent in intents) && (st.Queue? && st.out.PaymentOut? ==> st.out.intent in intents)
  }

  ghost predicate TablesKnown(db: Db) {
    && (forall i :: 0 <= i < |db.transitions| ==> db.transitions[i].intent in db.intents)
    && (forall i :: 0 <= i < |db.outbox| && db.outbox[i].PaymentOut? ==> db.outbox[i].intent in db.intents)
  }

  lemma WriteKeepsTablesKnown(db: Db, st: Stmt)
    requires TablesKnown(db) && IsAbout(db.intents, st)
    ensures TablesKnown(Written(db, st))
  {
  }

  lemma {:induction false} WritesKeepTablesKnown(db: Db, ws: seq<Stmt>)
    requires TablesKnown(db) && forall i :: 0 <= i < |ws| ==> IsAbout(db.intents, ws[i])
    ensures TablesKnown(WrittenAll(db, ws))
  {
    if ws != [] {
      var mid := WrittenAll(db, ws[..|ws| - 1]);
      WritesKeepTablesKnown(db, ws[..|ws| - 1]);
      KeysOnlyGrow(db, ws[..|ws| - 1]);
      assert IsAbout(mid.intents, ws[|ws| - 1]);
      WriteKeepsTablesKnown(mid, ws[|ws| - 1]);
    }
  }

  lemma EffectsAreKnown(s: State, step: Step)
    requires Inv(s)
    ensures forall i :: 0 <= i < |Effects(s, step)| ==> IsAbout(s.db.intents, Effects(s, step)[i])
  {
  }

  lemma HandlerKeepsInv(s: State, step: Step)
    requires Inv(s)
    ensures var s' := Next(s, step);
            s'.handler.Some? ==>
              var w := Work(s'.db, s'.handler.value); HandlerInv(w) && AllKnown(w) && !w.h.phase.Done?
  {
    if step.Advance? && s.handler.Some? {
      AdvanceKeepsInv(Work(s.db, s.handler.value), step.fate);
      AdvanceKeepsKnown(Work(s.db, s.handler.value), step.fate);
    } else if (step.Receive? || step.Reclaim?) && s.handler.None? {
      BeginHasInv(s.db, step.Receive?, step.events);
    }
  }

  lemma StepKeepsInv(s: State, step: Step)
    requires Inv(s)
    ensures Inv(Next(s, step))
  {
    HandlerKeepsInv(s, step);
    EffectsAreKnown(s, step);
    WritesKeepTablesKnown(s.db, Effects(s, step));
    KeysOnlyGrow(s.db, Effects(s, step));
  }

  lemma {:induction false} ExecKeepsInv(s: State, steps: seq<Step>)
    requires Inv(s)
    ensures Inv(Exec(s, steps))
  {
    if steps != [] {
      ExecKeepsInv(s, steps[..|steps| - 1]);
      StepKeepsInv(Exec(s, steps[..|steps| - 1]), steps[|steps| - 1]);
    }
  }

  // ----- Changes, transitions and payment events -----

  // The status changes that provider events made to the committed row of an intent, as the statements that
  // reached the table found it and left it.
  function StatusChanges(s: State, steps: seq<Step>, id: string): seq<Change> {
    if steps == [] then []
    else
      var before, step := Exec(s, steps[..|steps| - 1]), steps[|steps| - 1];
      StatusChanges(s, steps[..|steps| - 1], id) + InboundChanges(before, step, id)
  }

  predicate InTransaction(s: State) {
    s.handler.Some? ==> s.handler.value.inTx
  }

  lemma {:induction false} NothingInbound(ws: seq<Stmt>, id: string)
    requires forall i :: 0 <= i < |ws| ==> !ws[i].Queue? && (ws[i].Record? ==> !ws[i].row.reason.Inbound?)
    ensures RowsOf(ws, id) == [] && OutsOf(ws, id) == []
  {
    if ws != [] {
      NothingInbound(ws[..|ws| - 1], id);
    }
  }

  // Effects that are no provider event's leave the inbound rows and the payment events alone.
  lemma OthersAddNothing(s: State, step: Step, id: string)
    requires !step.Advance?
    ensures RowsOf(Effects(s, step), id) == [] && OutsOf(Effects(s, step), id) == []
  {
    NothingInbound(Effects(s, step), id);
  }

  lemma PoolStatementIsMatched(db: Db, st: Stmt, id: string)
    requires OnPool(st)
    ensures Matched(db, [st], id)
  {
    PartsOfOne(st, id);
    ChangesOfOne(db, st, id);
  }

  lemma CommitIsMatched(w: Work, id: string)
    requires HandlerInv(w) && w.h.inTx && !w.h.broken && w.h.todo == []
    ensures Matched(w.db, w.h.pending, id)
  {
    assert w.h.pending + Due(w.h.todo) == w.h.pending;
    assert Matched(w.db, w.h.pending + Due(w.h.todo), id);
  }

  // Inside a transaction only its commit changes anything by a status statement, and then it is matched.
  lemma TransactionIsMatched(w: Work, fate: Fate, id: string)
    requires HandlerInv(w) && w.h.inTx
    ensures Matched(w.db, Landing(w, fate), id)
  {
    if Landing(w, fate) != [] {
      if w.h.todo != [] {
        PoolStatementIsMatched(w.db, w.h.todo[0], id);
      } else {
        CommitIsMatched(w, id);
      }
    }
  }

  // The changes a step makes by status statements of provider events.
  function InboundChanges(s: State, step: Step, id: string): seq<Change> {
    if step.Advance? then ChangesOf(s.db, Effects(s, step), id) else []
  }

  lemma StepIsAtomic(s: State, step: Step, id: string)
    requires Inv(s) && InTransaction(s)
    ensures RowsOf(Effects(s, step), id) == InboundChanges(s, step, id)
    ensures OutsOf(Effects(s, step), id) == Tos(InboundChanges(s, step, id))
  {
    if !step.Advance? {
      OthersAddNothing(s, step, id);
    } else if s.handler.Some? {
      TransactionIsMatched(Work(s.db, s.handler.value), step.fate, id);
    }
  }

  lemma {:induction false} StaysInTransaction(s: State, steps: seq<Step>)
    requires Starts(s) && forall i :: 0 <= i < |steps| ==> !steps[i].Reclaim?
    ensures InTransaction(Exec(s, steps))
  {
    if steps != [] {
      StaysInTransaction(s, steps[..|steps| - 1]);
    }
  }

  /** On the transactional path, whatever fails, aborts or dies at any statement: the inbound transitions of
      an intent are exactly the changes that status statements made to its committed row, in order, and its
      payment events carry exactly the statuses it was changed to. */
  lemma {:induction false} OutboxIsAtomic(s: State, steps: seq<Step>, id: string)
    requires Starts(s) && forall i :: 0 <= i < |steps| ==> !steps[i].Reclaim?
    ensures InboundRows(Exec(s, steps).db.transitions, id) == StatusChanges(s, steps, id)
    ensures PaymentOuts(Exec(s, steps).db.outbox, id) == Tos(StatusChanges(s, steps, id))
  {
    if steps != [] {
      var init, step := steps[..|steps| - 1], steps[|steps| - 1];
      var before := Exec(s, init);
      OutboxIsAtomic(s, init, id);
      ExecKeepsInv(s, init);
      StaysInTransaction(s, init);
      StepIsAtomic(before, step, id);
      TablesGrow(before.db, Effects(before, step), id);
      TosConcat(StatusChanges(s, init, id), InboundChanges(before, step, id));
    }
  }

  // ----- With the reconciler -----

  // The statements that a re-applied event still has to run after its status change.
  function OwedBy(s: State): seq<Stmt> {
    if s.handler.None? then [] else Owed(s.handler.value)
  }

  // A handler outside any transaction, and the statement it runs next.
  predicate Reapplies(s: State) {
    s.handler.Some? && !s.handler.value.inTx
  }

  function NextHead(s: State): Head
    requires s.handler.Some?
  {
    HeadOf(s.db, s.handler.value.todo)
  }

  lemma DoneOwesNothing(w: Work, fate: Fate)
    requires HandlerInv(w) && !w.h.phase.Done? && PaymentEvents.Advance(w, fate).h.phase.Done?
    ensures PaymentEvents.Advance(w, fate).h.todo == []
  {
  }

  lemma OwedByAfter(s: State, fate: Fate)
    requires Inv(s) && s.handler.Some?
    ensures OwedBy(Next(s, Advance(fate))) == Owed(PaymentEvents.Advance(Work(s.db, s.handler.value), fate).h)
  {
    var w := Work(s.db, s.handler.value);
    if PaymentEvents.Advance(w, fate).h.phase.Done? {
      DoneOwesNothing(w, fate);
    }
  }

  // What one statement of a re-applied event adds to the rows and events of an intent, and what is owed
  // before and after it.
  ghost predicate IsReapplied(
    head: Head, fate: Fate, id: string, changes: seq<Change>, rows: seq<Change>, owed: seq<Change>, owed': seq<Change>)
  {
    && (head.Changing? || head.Recording? ==> head.from != head.to)
    && changes == (if head.Changing? && !fate.Fails? && head.it == id then [(head.from, head.to)] else [])
    && rows == (if head.Recording? && !fate.Fails? && head.it == id then [(head.from, head.to)] else [])
    && owed == (if head.Recording? && head.it == id then [(head.from, head.to)] else [])
    && owed' == (if head.Changing? && fate.Lands? && head.it == id then [(head.from, head.to)] else [])
  }

  ghost predicate IsReannounced(
    head: Head, fate: Fate, id: string, changes: seq<Change>, outs: seq<string>, owed: seq<string>, owed': seq<string>)
  {
    && (head.Changing? || head.Recording? ==> head.from != head.to)
    && changes == (if head.Changing? && !fate.Fails? && head.it == id then [(head.from, head.to)] else [])
    && outs == (if head.Announcing? && !fate.Fails? && head.it == id then [head.to] else [])
    && owed == (if (head.Recording? || head.Announcing?) && head.it == id then [head.to] else [])
    && owed' == (if ((head.Changing? && fate.Lands?) || head.Recording?) && head.it == id then [head.to] else [])
  }

  lemma ReappliedFacts(s: State, fate: Fate, id: string)
    requires Inv(s) && Reapplies(s)
    ensures var ws, s' := Effects(s, Advance(fate)), Next(s, Advance(fate));
            && IsReapplied(NextHead(s), fate, id, ChangesOf(s.db, ws, id), RowsOf(ws, id), RowsOf(OwedBy(s), id),
                           RowsOf(OwedBy(s'), id))
            && IsReannounced(NextHead(s), fate, id, ChangesOf(s.db, ws, id), OutsOf(ws, id), OutsOf(OwedBy(s), id),
                             OutsOf(OwedBy(s'), id))
  {
    var w := Work(s.db, s.handler.value);
    OwedParts(w, id);
    LandingParts(w, fate, id);
    OwedAfter(w, fate, id);
    OwedByAfter(s, fate);
  }

  // Rows and events never outrun the changes, not even with those that are still owed.
  ghost predicate OnlyLoses(s: State, step: Step, id: string) {
    var ws, owed, owed' := Effects(s, step), OwedBy(s), OwedBy(Next(s, step));
    && |RowsOf(ws, id)| + |RowsOf(owed', id)| <= |InboundChanges(s, step, id)| + |RowsOf(owed, id)|
    && |OutsOf(ws, id)| + |OutsOf(owed', id)| <= |InboundChanges(s, step, id)| + |OutsOf(owed, id)|
  }

  lemma TransactionOnlyLoses(s: State, step: Step, id: string)
    requires Inv(s) && InTransaction(s)
    ensures OnlyLoses(s, step, id)
  {
    StepIsAtomic(s, step, id);
    TosConcat(InboundChanges(s, step, id), []);
    BeginOwesNothing(s, step, id);
  }

  lemma BeginOwesNothing(s: State, step: Step, id: string)
    requires InTransaction(s)
    ensures OwedBy(s) == [] && OwedBy(Next(s, step)) == []
  {
  }

  lemma StepOnlyLoses(s: State, step: Step, id: string)
    requires Inv(s)
    ensures OnlyLoses(s, step, id)
  {
    if InTransaction(s) {
      TransactionOnlyLoses(s, step, id);
    } else if step.Advance? {
      ReappliedFacts(s, step.fate, id);
    } else {
      OthersAddNothing(s, step, id);
      WaitingFacts(s, step);
    }
  }

  lemma {:induction false} RunOnlyLoses(s: State, steps: seq<Step>, id: string)
    requires Starts(s)
    ensures var s' := Exec(s, steps);
            var changes := StatusChanges(s, steps, id);
            && |InboundRows(s'.db.transitions, id)| + |RowsOf(OwedBy(s'), id)| <= |changes|
            && |PaymentOuts(s'.db.outbox, id)| + |OutsOf(OwedBy(s'), id)| <= |changes|
  {
    if steps != [] {
      var init, step := steps[..|steps| - 1], steps[|steps| - 1];
      var before := Exec(s, init);
      RunOnlyLoses(s, init, id);
      ExecKeepsInv(s, init);
      StepOnlyLoses(before, step, id);
      TablesGrow(before.db, Effects(before, step), id);
    }
  }

  /** With the reconciler in the run, transitions and payment events may be missing but are never too many. */
  lemma ReconcilerOnlyLoses(s: State, steps: seq<Step>, id: string)
    requires Starts(s)
    ensures |InboundRows(Exec(s, steps).db.transitions, id)| <= |StatusChanges(s, steps, id)|
    ensures |PaymentOuts(Exec(s, steps).db.outbox, id)| <= |StatusChanges(s, steps, id)|
  {
    RunOnlyLoses(s, steps, id);
  }

  // ----- Silent writes -----

  function StatusOf(s: State, id: string): string
    requires id in s.db.intents
  {
    s.db.intents[id].status
  }

  // The next statement marks this authorization intent as paid, on a connection of its own.
  predicate MarksPaid(s: State, fate: Fate, id: string) {
    && s.handler.Some? && s.handler.value.todo != [] && !fate.Fails?
    && var st := s.handler.value.todo[0];
       st.PutIntent? && st.id == id && !Blocked(s.handler.value, st)
  }

  lemma MarkedAsPaid(s: State, fate: Fate, id: string)
    requires Inv(s) && MarksPaid(s, fate, id)
    ensures id in s.db.intents && Effects(s, Advance(fate)) == [PutIntent(id, s.handler.value.todo[0].intent)]
    ensures s.handler.value.todo[0].intent.status == SUCCEEDED
  {
    KeysStay(s.db, s.handler.value.pending);
  }

  // Every other move of a handler changes the status of an intent by status statements only.
  lemma UnmarkedMoves(s: State, fate: Fate, id: string)
    requires Inv(s) && s.handler.Some? && id in s.db.intents && !MarksPaid(s, fate, id)
    ensures var db' := Next(s, Advance(fate)).db;
            && id in db'.intents
            && db'.intents[id].status == LastTo(ChangesOf(s.db, Effects(s, Advance(fate)), id), StatusOf(s, id))
  {
    var ws := Effects(s, Advance(fate));
    if NonePool(ws) {
      ChangesLeadToStatus(s.db, ws, id);
    } else {
      var st := s.handler.value.todo[0];
      assert ws == [st];
      WrittenOne(s.db, st);
      assert [st] == [] + [st];
      StmtsAppend(s.db, [], st, id);
    }
  }

  /** The exact exception to the outbox: a move of a webhook handler changes the committed status of an
      intent without a transition and without a payment event if and only if it marks an authorization
      intent as paid that was not. This write is committed whatever becomes of the transaction. */
  lemma OnlySavedCardsAreSilent(s: State, steps: seq<Step>, fate: Fate, id: string)
    requires Starts(s) && forall i :: 0 <= i < |steps| ==> !steps[i].Reclaim?
    requires id in Exec(s, steps).db.intents && Exec(s, steps).handler.Some?
    ensures var before := Exec(s, steps);
            var after := Next(before, Advance(fate));
            && id in after.db.intents
            && (StatusOf(after, id) != StatusOf(before, id)
                && InboundRows(after.db.transitions, id) == InboundRows(before.db.transitions, id)
                && PaymentOuts(after.db.outbox, id) == PaymentOuts(before.db.outbox, id)
                <==> MarksPaid(before, fate, id) && StatusOf(before, id) != SUCCEEDED)
  {
    var before := Exec(s, steps);
    ExecKeepsInv(s, steps);
    StaysInTransaction(s, steps);
    StepIsAtomic(before, Advance(fate), id);
    TablesGrow(before.db, Effects(before, Advance(fate)), id);
    if MarksPaid(before, fate, id) {
      MarkedAsPaid(before, fate, id);
      WrittenOne(before.db, Effects(before, Advance(fate))[0]);
      PartsOfOne(Effects(before, Advance(fate))[0], id);
    } else {
      UnmarkedMoves(before, fate, id);
    }
  }

  // ----- The history of an intent -----

  // The status an intent's transitions lead to, from the one it was stored with.
  function Folded(rows: seq<Transition>, id: string, first: string): string {
    if rows == [] then first
    else if rows[|rows| - 1].intent == id then rows[|rows| - 1].toStatus
    else Folded(rows[..|rows| - 1], id, first)
  }

  lemma FoldedAppend(rows: seq<Transition>, row: Transition, id: string, first: string)
    ensures Folded(rows + [row], id, first) == if row.intent == id then row.toStatus else Folded(rows, id, first)
  {
    assert (rows + [row])[..|rows|] == rows;
  }

  lemma {:induction false} UntouchedFold(rows: seq<Transition>, id: string, first: string)
    requires forall i :: 0 <= i < |rows| ==> rows[i].intent != id
    ensures Folded(rows, id, first) == first
  {
    if rows != [] {
      UntouchedFold(rows[..|rows| - 1], id, first);
    }
  }

  lemma FoldedStep(db: Db, st: Stmt, id: string, first: string)
    ensures Folded(Written(db, st).transitions, id, first)
            == if st.Record? && st.row.intent == id then st.row.toStatus else Folded(db.transitions, id, first)
  {
    if st.Record? {
      FoldedAppend(db.transitions, st.row, id, first);
    }
  }

  lemma LastOfRows(ws: seq<Stmt>, id: string, first: string)
    requires ws != []
    ensures var st := ws[|ws| - 1];
            LastTo(RowsOf(ws, id), first)
            == if st.Record? && IsRowOf(st.row, id) then st.row.toStatus else LastTo(RowsOf(ws[..|ws| - 1], id), first)
  {
  }

  lemma {:induction false} FoldedAfter(db: Db, ws: seq<Stmt>, id: string, first: string)
    requires forall i :: 0 <= i < |ws| && ws[i].Record? ==> ws[i].row.reason.Inbound?
    ensures Folded(WrittenAll(db, ws).transitions, id, first)
            == LastTo(RowsOf(ws, id), Folded(db.transitions, id, first))
  {
    if ws != [] {
      var n := |ws| - 1;
      FoldedAfter(db, ws[..n], id, first);
      FoldedStep(WrittenAll(db, ws[..n]), ws[n], id, first);
      LastOfRows(ws, id, Folded(db.transitions, id, first));
    }
  }

  predicate Explains(folded: string, owed: seq<Change>, status: string) {
    if owed == [] then status == folded else owed[0] == (folded, status)
  }

  // The transitions of an intent explain its stored status. A change that a re-applied event has just made
  // is explained by the transition that the event writes next.
  ghost predicate Explained(s: State, id: string) {
    id in s.db.intents ==>
      id in s.born && Explains(Folded(s.db.transitions, id, s.born[id]), RowsOf(OwedBy(s), id), StatusOf(s, id))
  }

  // The ways in which a status changes without a transition: an authorization intent is marked as paid, a
  // re-applied event changes the status and then loses its transition, a create begins over an intent that
  // has moved on, and a confirmation writes back a status that is not the stored one any more.
  predicate ChangesSilently(s: State, step: Step, id: string) {
    id in s.db.intents
    && match step
       case Advance(fate) =>
         || (MarksPaid(s, fate, id) && StatusOf(s, id) != SUCCEEDED)
         || (Reapplies(s) && NextHead(s).Changing? && NextHead(s).it == id && fate.Misses?)
         || (Reapplies(s) && NextHead(s).Recording? && NextHead(s).it == id && fate.Fails?)
       case Die => Reapplies(s) && NextHead(s).Recording? && NextHead(s).it == id
       case CreateBegin(begun) => s.handler.None? && begun == id && StatusOf(s, id) != REQUIRES_PAYMENT_METHOD
       case ConfirmWrite(read) =>
         && s.handler.None? && read < |s.held| && s.held[read].id == id
         && StatusOf(s, id) != s.held[read].intent.status
       case _ => false
  }

  lemma MoveFacts(s: State, fate: Fate, id: string)
    requires Inv(s) && s.handler.Some? && id in s.db.intents && !MarksPaid(s, fate, id)
    ensures var s', ws := Next(s, Advance(fate)), Effects(s, Advance(fate));
            && id in s'.db.intents && id in s'.born && s'.born[id] == s.born[id]
            && StatusOf(s', id) == LastTo(ChangesOf(s.db, ws, id), StatusOf(s, id))
            && Folded(s'.db.transitions, id, s.born[id])
               == LastTo(RowsOf(ws, id), Folded(s.db.transitions, id, s.born[id]))
  {
    UnmarkedMoves(s, fate, id);
    FoldedAfter(s.db, Effects(s, Advance(fate)), id, s.born[id]);
  }

  lemma ReappliedExplainsIff(
    head: Head, fate: Fate, id: string, changes: seq<Change>, rows: seq<Change>, owed: seq<Change>, owed': seq<Change>,
    folded: string, status: string)
    requires IsReapplied(head, fate, id, changes, rows, owed, owed') && Explains(folded, owed, status)
    requires head.Changing? && head.it == id ==> head.from == status
    ensures Explains(LastTo(rows, folded), owed', LastTo(changes, status))
            <==> !((head.Changing? && head.it == id && fate.Misses?) || (head.Recording? && head.it == id && fate.Fails?))
  {
  }

  // A step of a re-applied event, by what it adds to the state.
  lemma ReappliedStepExplainsIff(
    s: State, s': State, fate: Fate, id: string, head: Head, changes: seq<Change>, rows: seq<Change>)
    requires id in s.db.intents && Explained(s, id)
    requires id in s'.db.intents && id in s'.born && s'.born[id] == s.born[id]
    requires IsReapplied(head, fate, id, changes, rows, RowsOf(OwedBy(s), id), RowsOf(OwedBy(s'), id))
    requires head.Changing? && head.it == id ==> head.from == StatusOf(s, id)
    requires StatusOf(s', id) == LastTo(changes, StatusOf(s, id))
    requires Folded(s'.db.transitions, id, s.born[id]) == LastTo(rows, Folded(s.db.transitions, id, s.born[id]))
    ensures Explained(s', id)
            <==> !((head.Changing? && head.it == id && fate.Misses?) || (head.Recording? && head.it == id && fate.Fails?))
  {
    ReappliedExplainsIff(head, fate, id, changes, rows, RowsOf(OwedBy(s), id), RowsOf(OwedBy(s'), id),
                         Folded(s.db.transitions, id, s.born[id]), StatusOf(s, id));
  }

  lemma HeadStartsAtStatus(s: State, id: string)
    requires s.handler.Some? && NextHead(s).Changing? && NextHead(s).it == id
    ensures NextHead(s).from == StatusOf(s, id)
  {
  }

  lemma ReapplyKeepsExplainedIff(s: State, fate: Fate, id: string)
    requires Inv(s) && Reapplies(s) && id in s.db.intents && Explained(s, id) && !MarksPaid(s, fate, id)
    ensures Explained(Next(s, Advance(fate)), id) <==> !ChangesSilently(s, Advance(fate), id)
  {
    var ws, head := Effects(s, Advance(fate)), NextHead(s);
    MoveFacts(s, fate, id);
    ReappliedFacts(s, fate, id);
    if head.Changing? && head.it == id {
      HeadStartsAtStatus(s, id);
    }
    ReappliedStepExplainsIff(s, Next(s, Advance(fate)), fate, id, head, ChangesOf(s.db, ws, id), RowsOf(ws, id));
  }

  // A move of a handler, apart from marking the intent as paid.
  lemma TransactionKeepsExplained(s: State, fate: Fate, id: string)
    requires Inv(s) && s.handler.Some? && s.handler.value.inTx
    requires id in s.db.intents && Explained(s, id) && !MarksPaid(s, fate, id)
    ensures Explained(Next(s, Advance(fate)), id)
  {
    MoveFacts(s, fate, id);
    StepIsAtomic(s, Advance(fate), id);
    BeginOwesNothing(s, Advance(fate), id);
  }

  lemma MoveKeepsExplainedIff(s: State, fate: Fate, id: string)
    requires Inv(s) && s.handler.Some? && id in s.db.intents && Explained(s, id) && !MarksPaid(s, fate, id)
    ensures Explained(Next(s, Advance(fate)), id) <==> !ChangesSilently(s, Advance(fate), id)
  {
    if s.handler.value.inTx {
      TransactionKeepsExplained(s, fate, id);
    } else {
      ReapplyKeepsExplainedIff(s, fate, id);
    }
  }

  // Marking an intent as paid changes nothing else, and no event owes anything around it.
  lemma MarkFacts(s: State, fate: Fate, id: string)
    requires Inv(s) && MarksPaid(s, fate, id)
    ensures var s' := Next(s, Advance(fate));
            && id in s.db.intents && s'.born == s.born
            && s'.db == s.db.(intents := s.db.intents[id := s.handler.value.todo[0].intent])
            && s.handler.value.todo[0].intent.status == SUCCEEDED
            && RowsOf(OwedBy(s), id) == RowsOf(OwedBy(s'), id) == []
            && OutsOf(OwedBy(s), id) == OutsOf(OwedBy(s'), id) == []
  {
    MarkedAsPaid(s, fate, id);
    WrittenOne(s.db, s.handler.value.todo[0]);
    AdvanceAddsNoIntent(s, fate);
    if Reapplies(s) {
      ReappliedFacts(s, fate, id);
    }
  }

  lemma MarkKeepsExplainedIff(s: State, fate: Fate, id: string)
    requires Inv(s) && Explained(s, id) && MarksPaid(s, fate, id)
    ensures Explained(Next(s, Advance(fate)), id) <==> !ChangesSilently(s, Advance(fate), id)
  {
    MarkFacts(s, fate, id);
    MarkIsNoStatement(s, fate, id);
  }

  lemma MarkIsNoStatement(s: State, fate: Fate, id: string)
    requires Inv(s) && MarksPaid(s, fate, id)
    ensures NextHead(s).Other?
  {
  }

  // An upsert of an intent outside the handlers.
  lemma PutKeepsExplainedIff(s: State, s': State, it: string, intent: Intent, id: string)
    requires Inv(s) && Explained(s, id) && OwedBy(s) == OwedBy(s') == []
    requires s'.db.intents == s.db.intents[it := intent] && s'.db.transitions == s.db.transitions
    requires forall k :: k in s'.db.intents ==> k in s'.born && s'.born[k] == if k in s.born then s.born[k] else s'.db.intents[k].status
    ensures Explained(s', id) <==> !(it == id && id in s.db.intents && StatusOf(s, id) != intent.status)
  {
    if id !in s.db.intents && id in s'.db.intents {
      UntouchedFold(s.db.transitions, id, s'.born[id]);
    }
  }

  lemma SettleWrites(s: State, it: string, outcome: Outcome)
    requires s.handler.None? && it in s.db.intents
    ensures var db' := Next(s, CreateSettle(it, outcome)).db;
            && db'.outbox == s.db.outbox && db'.intents.Keys == s.db.intents.Keys
            && db'.transitions == s.db.transitions + [SettleStatements(it, outcome)[1].row]
            && (forall id :: id in s.db.intents ==>
                               db'.intents[id].status == if id == it then SettledStatus(outcome) else StatusOf(s, id))
  {
    var ws := SettleStatements(it, outcome);
    assert ws == [ws[0]] + [ws[1]];
    WrittenAppend(s.db, [ws[0]], [ws[1]]);
    WrittenOne(s.db, ws[0]);
    WrittenOne(Written(s.db, ws[0]), ws[1]);
  }

  lemma SettleKeepsExplained(s: State, it: string, outcome: Outcome, id: string)
    requires Inv(s) && Explained(s, id) && s.handler.None? && it in s.db.intents
    ensures Explained(Next(s, CreateSettle(it, outcome)), id)
  {
    SettleWrites(s, it, outcome);
    if id in s.born {
      FoldedAppend(s.db.transitions, SettleStatements(it, outcome)[1].row, id, s.born[id]);
    }
  }

  // What the other steps write first, if they write anything: an upsert of one intent.
  lemma PutEffects(s: State, step: Step)
    requires !step.Advance? && !step.CreateSettle? && Effects(s, step) != []
    ensures var st, db' := Effects(s, step)[0], Next(s, step).db;
            && st.PutIntent? && db'.intents == s.db.intents[st.id := st.intent]
            && db'.transitions == s.db.transitions && db'.outbox == s.db.outbox
  {
    var ws := Effects(s, step);
    WrittenOne(s.db, ws[0]);
    if |ws| == 2 {
      assert ws == [ws[0]] + [ws[1]];
      WrittenAppend(s.db, [ws[0]], [ws[1]]);
      WrittenOne(Written(s.db, ws[0]), ws[1]);
    }
  }

  lemma CreateKeepsExplainedIff(s: State, step: Step, id: string)
    requires Inv(s) && Explained(s, id) && s.handler.None? && !step.Advance?
    ensures Explained(Next(s, step), id) <==> !ChangesSilently(s, step, id)
  {
    if step.CreateSettle? {
      if step.id in s.db.intents {
        SettleKeepsExplained(s, step.id, step.outcome, id);
      }
    } else if Effects(s, step) != [] {
      PutEffects(s, step);
      PutKeepsExplainedIff(s, Next(s, step), Effects(s, step)[0].id, Effects(s, step)[0].intent, id);
    }
  }

  /** The exact condition: where the transitions explain an intent's status, a step keeps them doing so if
      and only if it is not one of the silent changes. */
  lemma StepKeepsExplainedIff(s: State, step: Step, id: string)
    requires Inv(s) && Explained(s, id)
    ensures Explained(Next(s, step), id) <==> !ChangesSilently(s, step, id)
  {
    if step.Advance? && s.handler.Some? && id in s.db.intents {
      if MarksPaid(s, step.fate, id) {
        MarkKeepsExplainedIff(s, step.fate, id);
      } else {
        MoveKeepsExplainedIff(s, step.fate, id);
      }
    } else if step.Advance? {
      AdvanceAddsNoIntent(s, step.fate);
    } else if s.handler.None? {
      CreateKeepsExplainedIff(s, step, id);
    } else {
      WaitingKeepsExplainedIff(s, step, id);
    }
  }

  lemma AdvanceAddsNoIntent(s: State, fate: Fate)
    requires Inv(s)
    ensures Next(s, Advance(fate)).db.intents.Keys == s.db.intents.Keys
    ensures s.handler.None? ==> Next(s, Advance(fate)) == s.(born := Next(s, Advance(fate)).born)
    ensures Next(s, Advance(fate)).born == s.born
  {
    var ws := Effects(s, Advance(fate));
    if NonePool(ws) {
      KeysStay(s.db, ws);
    } else {
      KeysStay(s.db, s.handler.value.pending);
      WrittenOne(s.db, ws[0]);
    }
  }

  // While a handler is at work, every other step waits; only the process may die.
  lemma WaitingFacts(s: State, step: Step)
    requires Inv(s) && s.handler.Some? && !step.Advance?
    ensures var s' := Next(s, step);
            && s'.db == s.db && s'.born == s.born
            && s'.handler == if step.Die? then None else s.handler
  {
  }

  lemma WaitingKeepsExplainedIff(s: State, step: Step, id: string)
    requires Inv(s) && Explained(s, id) && s.handler.Some? && !step.Advance?
    ensures Explained(Next(s, step), id) <==> !ChangesSilently(s, step, id)
  {
    WaitingFacts(s, step);
    if Reapplies(s) {
      ReappliedFacts(s, Lands, id);
    }
  }

  ghost predicate NeverSilent(s: State, steps: seq<Step>, id: string) {
    steps == []
    || (NeverSilent(s, steps[..|steps| - 1], id)
        && !ChangesSilently(Exec(s, steps[..|steps| - 1]), steps[|steps| - 1], id))
  }

  /** Over any run without a silent change of an intent, folding its transitions explains its stored status. */
  lemma {:induction false} TransitionsExplainStatus(s: State, steps: seq<Step>, id: string)
    requires Starts(s) && NeverSilent(s, steps, id)
    ensures Explained(Exec(s, steps), id)
  {
    if steps != [] {
      ExecKeepsInv(s, steps[..|steps| - 1]);
      TransitionsExplainStatus(s, steps[..|steps| - 1], id);
      StepKeepsExplainedIff(Exec(s, steps[..|steps| - 1]), steps[|steps| - 1], id);
    }
  }

  // ----- What the merchant was told -----

  predicate Tells(told: seq<string>, owed: seq<string>, status: string) {
    && told != []
    && var last := told[|told| - 1];
       if owed == [] then last == status else owed[0] == status && last != status
  }

  // The last payment event of an intent carries its stored status. A change that a re-applied event has just
  // made is carried by the event it queues next.
  ghost predicate Announced(s: State, id: string) {
    id in s.db.intents && Tells(PaymentOuts(s.db.outbox, id), OutsOf(OwedBy(s), id), StatusOf(s, id))
  }

  // The ways in which a status leaves the last payment event behind: those that are silent for the
  // transitions too, a payment event that is lost, and a create that ends with another status.
  predicate ChangesUntold(s: State, step: Step, id: string) {
    id in s.db.intents
    && match step
       case Advance(fate) =>
         || (MarksPaid(s, fate, id) && StatusOf(s, id) != SUCCEEDED)
         || (Reapplies(s) && NextHead(s).Changing? && NextHead(s).it == id && fate.Misses?)
         || (Reapplies(s) && NextHead(s).Announcing? && NextHead(s).it == id && fate.Fails?)
       case Die =>
         Reapplies(s) && (NextHead(s).Recording? || NextHead(s).Announcing?) && NextHead(s).it == id
       case CreateBegin(begun) => s.handler.None? && begun == id && StatusOf(s, id) != REQUIRES_PAYMENT_METHOD
       case CreateSettle(settled, outcome) =>
         s.handler.None? && settled == id && StatusOf(s, id) != SettledStatus(outcome)
       case ConfirmWrite(read) =>
         && s.handler.None? && read < |s.held| && s.held[read].id == id
         && StatusOf(s, id) != s.held[read].intent.status
       case _ => false
  }

  lemma ReannouncedTellsIff(
    head: Head, fate: Fate, id: string, changes: seq<Change>, outs: seq<string>, owed: seq<string>, owed': seq<string>,
    told: seq<string>, status: string)
    requires IsReannounced(head, fate, id, changes, outs, owed, owed') && Tells(told, owed, status)
    requires head.Changing? && head.it == id ==> head.from == status
    ensures Tells(told + outs, owed', LastTo(changes, status))
            <==> !((head.Changing? && head.it == id && fate.Misses?) || (head.Announcing? && head.it == id && fate.Fails?))
  {
  }

  lemma TransactionTells(told: seq<string>, changes: seq<Change>, status: string)
    requires Tells(told, [], status)
    ensures Tells(told + Tos(changes), [], LastTo(changes, status))
  {
    if changes == [] {
      assert told + Tos(changes) == told;
    } else {
      var n := |changes| - 1;
      assert told + Tos(changes) == (told + Tos(changes[..n])) + [changes[n].1];
    }
  }

  lemma AnnouncedFacts(s: State, fate: Fate, id: string)
    requires Inv(s) && s.handler.Some? && id in s.db.intents && !MarksPaid(s, fate, id)
    ensures var s', ws := Next(s, Advance(fate)), Effects(s, Advance(fate));
            && id in s'.db.intents
            && StatusOf(s', id) == LastTo(ChangesOf(s.db, ws, id), StatusOf(s, id))
            && PaymentOuts(s'.db.outbox, id) == PaymentOuts(s.db.outbox, id) + OutsOf(ws, id)
  {
    UnmarkedMoves(s, fate, id);
    TablesGrow(s.db, Effects(s, Advance(fate)), id);
  }

  // A step of a re-applied event, by what it adds to the state.
  lemma ReappliedStepTellsIff(
    s: State, s': State, fate: Fate, id: string, head: Head, changes: seq<Change>, outs: seq<string>)
    requires Announced(s, id) && id in s'.db.intents
    requires IsReannounced(head, fate, id, changes, outs, OutsOf(OwedBy(s), id), OutsOf(OwedBy(s'), id))
    requires head.Changing? && head.it == id ==> head.from == StatusOf(s, id)
    requires StatusOf(s', id) == LastTo(changes, StatusOf(s, id))
    requires PaymentOuts(s'.db.outbox, id) == PaymentOuts(s.db.outbox, id) + outs
    ensures Announced(s', id)
            <==> !((head.Changing? && head.it == id && fate.Misses?) || (head.Announcing? && head.it == id && fate.Fails?))
  {
    ReannouncedTellsIff(head, fate, id, changes, outs, OutsOf(OwedBy(s), id), OutsOf(OwedBy(s'), id),
                        PaymentOuts(s.db.outbox, id), StatusOf(s, id));
  }

  lemma ReapplyKeepsAnnouncedIff(s: State, fate: Fate, id: string)
    requires Inv(s) && Reapplies(s) && Announced(s, id) && !MarksPaid(s, fate, id)
    ensures Announced(Next(s, Advance(fate)), id) <==> !ChangesUntold(s, Advance(fate), id)
  {
    var ws := Effects(s, Advance(fate));
    AnnouncedFacts(s, fate, id);
    ReappliedFacts(s, fate, id);
    if NextHead(s).Changing? && NextHead(s).it == id {
      HeadStartsAtStatus(s, id);
    }
    ReappliedStepTellsIff(s, Next(s, Advance(fate)), fate, id, NextHead(s), ChangesOf(s.db, ws, id), OutsOf(ws, id));
  }

  lemma MoveKeepsAnnouncedIff(s: State, fate: Fate, id: string)
    requires Inv(s) && s.handler.Some? && Announced(s, id) && !MarksPaid(s, fate, id)
    ensures Announced(Next(s, Advance(fate)), id) <==> !ChangesUntold(s, Advance(fate), id)
  {
    if s.handler.value.inTx {
      AnnouncedFacts(s, fate, id);
      StepIsAtomic(s, Advance(fate), id);
      TransactionTells(PaymentOuts(s.db.outbox, id), ChangesOf(s.db, Effects(s, Advance(fate)), id), StatusOf(s, id));
    } else {
      ReapplyKeepsAnnouncedIff(s, fate, id);
    }
  }

  lemma MarkKeepsAnnouncedIff(s: State, fate: Fate, id: string)
    requires Inv(s) && Announced(s, id) && MarksPaid(s, fate, id)
    ensures Announced(Next(s, Advance(fate)), id) <==> !ChangesUntold(s, Advance(fate), id)
  {
    MarkFacts(s, fate, id);
    MarkIsNoStatement(s, fate, id);
  }

  lemma CreateKeepsAnnouncedIff(s: State, step: Step, id: string)
    requires Inv(s) && Announced(s, id) && s.handler.None? && !step.Advance?
    ensures Announced(Next(s, step), id) <==> !ChangesUntold(s, step, id)
  {
    if step.CreateSettle? {
      if step.id in s.db.intents {
        SettleWrites(s, step.id, step.outcome);
      }
    } else if Effects(s, step) != [] {
      PutEffects(s, step);
    }
  }

  lemma OwesAnEventIff(s: State, id: string)
    requires Inv(s) && s.handler.Some?
    ensures OutsOf(OwedBy(s), id) != []
            <==> Reapplies(s) && (NextHead(s).Recording? || NextHead(s).Announcing?) && NextHead(s).it == id
  {
    if Reapplies(s) {
      ReappliedFacts(s, Lands, id);
    } else {
      BeginOwesNothing(s, Die, id);
    }
  }

  lemma WaitingKeepsAnnouncedIff(s: State, step: Step, id: string)
    requires Inv(s) && Announced(s, id) && s.handler.Some? && !step.Advance?
    ensures Announced(Next(s, step), id) <==> !ChangesUntold(s, step, id)
  {
    WaitingFacts(s, step);
    OwesAnEventIff(s, id);
    if step.Die? {
      assert OwedBy(Next(s, step)) == [];
    } else {
      assert OwedBy(Next(s, step)) == OwedBy(s);
    }
  }

  /** The exact condition: where an intent's last payment event carries its stored status, a step keeps that
      so if and only if it is not one of the untold changes. */
  lemma StepKeepsAnnouncedIff(s: State, step: Step, id: string)
    requires Inv(s) && Announced(s, id)
    ensures Announced(Next(s, step), id) <==> !ChangesUntold(s, step, id)
  {
    if step.Advance? && s.handler.Some? {
      if MarksPaid(s, step.fate, id) {
        MarkKeepsAnnouncedIff(s, step.fate, id);
      } else {
        MoveKeepsAnnouncedIff(s, step.fate, id);
      }
    } else if step.Advance? {
      AdvanceAddsNoIntent(s, step.fate);
    } else if s.handler.None? {
      CreateKeepsAnnouncedIff(s, step, id);
    } else {
      WaitingKeepsAnnouncedIff(s, step, id);
    }
  }

  ghost predicate NeverUntold(s: State, steps: seq<Step>, id: string) {
    steps == []
    || (NeverUntold(s, steps[..|steps| - 1], id)
        && !ChangesUntold(Exec(s, steps[..|steps| - 1]), steps[|steps| - 1], id))
  }

  lemma {:induction false} RunKeepsAnnounced(s: State, steps: seq<Step>, id: string)
    requires Inv(s) && Announced(s, id) && NeverUntold(s, steps, id)
    ensures Announced(Exec(s, steps), id)
  {
    if steps != [] {
      ExecKeepsInv(s, steps[..|steps| - 1]);
      RunKeepsAnnounced(s, steps[..|steps| - 1], id);
      StepKeepsAnnouncedIff(Exec(s, steps[..|steps| - 1]), steps[|steps| - 1], id);
    }
  }

  /** A status that a payment event has announced is kept, or followed by another event, in every
      continuation of every run that has no untold change of the intent. */
  lemma AnnouncedStatusIsKept(s: State, before: seq<Step>, after: seq<Step>, id: string)
    requires Starts(s) && Announced(Exec(s, before), id) && NeverUntold(Exec(s, before), after, id)
    ensures Announced(Exec(Exec(s, before), after), id)
  {
    ExecKeepsInv(s, before);
    RunKeepsAnnounced(Exec(s, before), after, id);
  }

  // ----- Runs that fail -----

  // A webhook that reports one payment as succeeded: it reads the event, runs three statements, completes
  // the notification and commits.
  function PaidWebhook(id: string): seq<Step> {
    [Receive([PaidEvent(id)])] + [Advance(Lands)] + THREE_MOVES + TWO_MOVES
  }

  const THREE_MOVES := [Advance(Lands)] + [Advance(Lands)] + [Advance(Lands)]

  const TWO_MOVES := [Advance(Lands)] + [Advance(Lands)]

  function PaidEvent(id: string): Event {
    Payment("payment_intent.succeeded", id, SUCCEEDED)
  }

  function PaidStatements(db: Db, id: string): seq<Stmt>
    requires id in db.intents
  {
    [SetStatus(id, Intent(SUCCEEDED, "")), Record(Transition(id, db.intents[id].status, SUCCEEDED, Inbound("payment_intent.succeeded"))),
     Queue(PaymentOut("payment_intent.succeeded", id, SUCCEEDED))]
  }

  lemma ExecStep(s: State, steps: seq<Step>, step: Step)
    ensures Exec(s, steps + [step]) == Next(Exec(s, steps), step)
  {
    assert (steps + [step])[..|steps|] == steps;
  }

  lemma {:induction false} ExecAppend(s: State, first: seq<Step>, rest: seq<Step>)
    ensures Exec(s, first + rest) == Exec(Exec(s, first), rest)
  {
    if rest == [] {
      assert first + rest == first;
    } else {
      assert (first + rest)[..|first + rest| - 1] == first + rest[..|rest| - 1];
      ExecAppend(s, first, rest[..|rest| - 1]);
    }
  }

  lemma ExecOne(s: State, step: Step)
    ensures Exec(s, [step]) == Next(s, step)
  {
    assert [step][..0] == [];
  }

  // One move of a transaction that only changes its handler.
  lemma QuietMove(s: State, h: Handler, h': Handler)
    requires s.handler == Some(h) && s.born.Keys == s.db.intents.Keys
    requires Landing(Work(s.db, h), Lands) == [] && PaymentEvents.Advance(Work(s.db, h), Lands).h == h' && !h'.phase.Done?
    ensures Next(s, Advance(Lands)) == s.(handler := Some(h'))
  {
    assert s.born == map id | id in s.db.intents :: if id in s.born then s.born[id] else s.db.intents[id].status;
  }

  lemma PaidWebhookReads(s: State, id: string)
    requires s.handler.None? && id in s.db.intents && StatusOf(s, id) != SUCCEEDED && id !in s.db.sessionOf
    requires s.born.Keys == s.db.intents.Keys
    ensures Exec(s, [Receive([PaidEvent(id)])] + [Advance(Lands)])
            == s.(handler := Some(Handler(true, [], PaidStatements(s.db, id), [], false, false, Applying)))
  {
    var s1 := Next(s, Receive([PaidEvent(id)]));
    assert s.born == map k | k in s.db.intents :: if k in s.born then s.born[k] else s.db.intents[k].status;
    ExecOne(s, Receive([PaidEvent(id)]));
    ExecStep(s, [Receive([PaidEvent(id)])], Advance(Lands));
    QuietMove(s1, Begin(true, [PaidEvent(id)]), Handler(true, [], PaidStatements(s.db, id), [], false, false, Applying));
  }

  lemma PaidWebhookWrites(s: State, h: Handler)
    requires s.handler == Some(h) && s.born.Keys == s.db.intents.Keys && h.inTx && !h.broken && h.phase.Applying?
    requires |h.todo| == 3 && NonePool(h.todo) && h.pending == []
    ensures Exec(s, THREE_MOVES) == s.(handler := Some(h.(todo := [], pending := h.todo)))
  {
    var todo := h.todo;
    var h1, h2 := h.(todo := todo[1..], pending := [todo[0]]), h.(todo := todo[2..], pending := [todo[0]] + [todo[1]]);
    assert [] + [todo[0]] == [todo[0]] && todo[1..][0] == todo[1] && todo[1..][1..] == todo[2..];
    assert todo[2..][0] == todo[2] && todo[2..][1..] == [] && [todo[0]] + [todo[1]] + [todo[2]] == todo;
    ExecOne(s, Advance(Lands));
    QuietMove(s, h, h1);
    ExecStep(s, [Advance(Lands)], Advance(Lands));
    QuietMove(s.(handler := Some(h1)), h1, h2);
    ExecStep(s, [Advance(Lands)] + [Advance(Lands)], Advance(Lands));
    QuietMove(s.(handler := Some(h2)), h2, h.(todo := [], pending := todo));
  }

  lemma PaidWebhookCommits(s: State, h: Handler, id: string)
    requires id in s.db.intents && s.born.Keys == s.db.intents.Keys && s.handler.None?
    requires h.inTx && !h.broken && h.phase.Applying? && h.todo == [] && h.rest == [] && h.pending == PaidStatements(s.db, id)
    ensures Exec(s.(handler := Some(h)), TWO_MOVES) == s.(db := WrittenAll(s.db, h.pending))
  {
    var s1, db' := s.(handler := Some(h)), WrittenAll(s.db, h.pending);
    ExecOne(s1, Advance(Lands));
    QuietMove(s1, h, h.(phase := Sealed));
    ExecStep(s1, [Advance(Lands)], Advance(Lands));
    KeysStay(s.db, h.pending);
    assert s.born == map k | k in db'.intents :: if k in s.born then s.born[k] else db'.intents[k].status;
  }

  lemma PaidWebhookRuns(s: State, id: string)
    requires s.handler.None? && id in s.db.intents && StatusOf(s, id) != SUCCEEDED && id !in s.db.sessionOf
    requires s.born.Keys == s.db.intents.Keys
    ensures Exec(s, PaidWebhook(id)) == s.(db := WrittenAll(s.db, PaidStatements(s.db, id)))
  {
    var h := Handler(true, [], PaidStatements(s.db, id), [], false, false, Applying);
    PaidWebhookReads(s, id);
    ExecAppend(s, [Receive([PaidEvent(id)])] + [Advance(Lands)], THREE_MOVES);
    PaidWebhookWrites(s.(handler := Some(h)), h);
    ExecAppend(s, [Receive([PaidEvent(id)])] + [Advance(Lands)] + THREE_MOVES, TWO_MOVES);
    PaidWebhookCommits(s, h.(todo := [], pending := h.todo), id);
  }

  lemma PaidIsTold(db: Db, id: string)
    requires id in db.intents
    ensures var db' := WrittenAll(db, PaidStatements(db, id));
            && db'.intents == db.intents[id := Intent(SUCCEEDED, "")]
            && PaymentOuts(db'.outbox, id) == PaymentOuts(db.outbox, id) + [SUCCEEDED]
  {
    var ws := PaidStatements(db, id);
    assert ws == [ws[0]] + [ws[1]] + [ws[2]];
    WrittenAppend(db, [ws[0]] + [ws[1]], [ws[2]]);
    WrittenAppend(db, [ws[0]], [ws[1]]);
    WrittenOne(db, ws[0]);
    WrittenOne(Written(db, ws[0]), ws[1]);
    var mid := Written(Written(db, ws[0]), ws[1]);
    WrittenOne(mid, ws[2]);
    assert (mid.outbox + [ws[2].out])[..|mid.outbox|] == mid.outbox;
  }

  lemma Begun(s: State, id: string)
    requires Starts(s)
    ensures var s' := Next(s, CreateBegin(id));
            && s'.db == s.db.(intents := map[id := Intent(REQUIRES_PAYMENT_METHOD, "")])
            && s'.handler.None? && s'.born == map[id := REQUIRES_PAYMENT_METHOD]
  {
    WrittenOne(s.db, PutIntent(id, Intent(REQUIRES_PAYMENT_METHOD, "")));
  }

  lemma PaidWhileCreating(s: State, id: string)
    requires Starts(s) && id !in s.db.sessionOf
    ensures var paid := Exec(s, [CreateBegin(id)] + PaidWebhook(id));
            && paid.handler.None? && id in paid.db.intents && StatusOf(paid, id) == SUCCEEDED
            && PaymentOuts(paid.db.outbox, id) == [SUCCEEDED]
  {
    var begun := Next(s, CreateBegin(id));
    ExecOne(s, CreateBegin(id));
    Begun(s, id);
    ExecAppend(s, [CreateBegin(id)], PaidWebhook(id));
    PaidWebhookRuns(begun, id);
    PaidIsTold(begun.db, id);
  }

  /** A success that a webhook reported while the create was still waiting for the provider is announced,
      and is put back to whatever the provider call answered; the merchant is not told. */
  lemma CreateOverwritesSuccess(s: State, id: string, status: string)
    requires Starts(s) && id !in s.db.sessionOf && status != SUCCEEDED
    ensures var paid := Exec(s, [CreateBegin(id)] + PaidWebhook(id));
            var after := Next(paid, CreateSettle(id, Accepted(status)));
            && Announced(paid, id) && StatusOf(paid, id) == SUCCEEDED
            && id in after.db.intents && StatusOf(after, id) == status && !Announced(after, id)
  {
    PaidWhileCreating(s, id);
    SettleWrites(Exec(s, [CreateBegin(id)] + PaidWebhook(id)), id, Accepted(status));
  }

  lemma Subscribed(s: State, id: string)
    requires Starts(s)
    ensures var s' := Next(s, Subscribe(id));
            && s'.db == s.db.(intents := map[id := Intent(REQUIRES_ACTION, "")], awaiting := s.db.awaiting + {id})
            && s'.handler.None? && s'.born == map[id := REQUIRES_ACTION]
  {
    var ws := [PutIntent(id, Intent(REQUIRES_ACTION, "")), PutSubscription(id, false)];
    assert ws == [ws[0]] + [ws[1]];
    WrittenAppend(s.db, [ws[0]], [ws[1]]);
    WrittenOne(s.db, ws[0]);
    WrittenOne(Written(s.db, ws[0]), ws[1]);
  }

  // The subscription's webhook reads its event and writes the intent; then the process dies.
  function SavedCardDies(id: string): seq<Step> {
    [Receive([SavedCard(id, true)])] + [Advance(Lands)] + [Advance(Lands)] + [Die]
  }

  lemma SavedCardReads(s: State, id: string)
    requires s.handler.None? && id in s.db.intents && id in s.db.awaiting && s.born.Keys == s.db.intents.Keys
    ensures Exec(s, [Receive([SavedCard(id, true)])] + [Advance(Lands)])
            == s.(handler := Some(Handler(true, [], [PutIntent(id, Intent(SUCCEEDED, ""))] + [PutSubscription(id, true)],
                                          [], false, false, Applying)))
  {
    var steps := [Receive([SavedCard(id, true)])];
    var put := PutIntent(id, Intent(SUCCEEDED, ""));
    var h := Handler(true, [], [put] + [PutSubscription(id, true)], [], false, false, Applying);
    assert s.born == map k | k in s.db.intents :: if k in s.born then s.born[k] else s.db.intents[k].status;
    ExecOne(s, steps[0]);
    assert Next(s, steps[0]) == s.(handler := Some(Begin(true, [SavedCard(id, true)])));
    ExecStep(s, steps, Advance(Lands));
    QuietMove(Next(s, steps[0]), Begin(true, [SavedCard(id, true)]), h);
  }

  lemma SavedCardRuns(s: State, id: string)
    requires s.handler.None? && id in s.db.intents && id in s.db.awaiting && s.born.Keys == s.db.intents.Keys
    ensures Exec(s, SavedCardDies(id)) == s.(db := s.db.(intents := s.db.intents[id := Intent(SUCCEEDED, "")]))
  {
    var steps := [Receive([SavedCard(id, true)])] + [Advance(Lands)];
    var h := Handler(true, [], [PutIntent(id, Intent(SUCCEEDED, ""))] + [PutSubscription(id, true)], [], false, false, Applying);
    SavedCardReads(s, id);
    ExecStep(s, steps, Advance(Lands));
    SavedCardPuts(s, h, id);
    ExecStep(s, steps + [Advance(Lands)], Die);
    var db' := s.db.(intents := s.db.intents[id := Intent(SUCCEEDED, "")]);
    assert s.born == map k | k in db'.intents :: if k in s.born then s.born[k] else db'.intents[k].status;
  }

  lemma SavedCardPuts(s: State, h: Handler, id: string)
    requires id in s.db.intents && s.born.Keys == s.db.intents.Keys && h.inTx && h.pending == [] && h.phase.Applying?
    requires h.todo != [] && h.todo[0] == PutIntent(id, Intent(SUCCEEDED, ""))
    ensures Next(s.(handler := Some(h)), Advance(Lands))
            == s.(db := s.db.(intents := s.db.intents[id := Intent(SUCCEEDED, "")]), handler := Some(h.(todo := h.todo[1..])))
  {
    var db' := s.db.(intents := s.db.intents[id := Intent(SUCCEEDED, "")]);
    WrittenOne(s.db, h.todo[0]);
    assert s.born == map k | k in db'.intents :: if k in s.born then s.born[k] else db'.intents[k].status;
  }

  /** A saved card marks the authorization intent as paid with neither a transition nor a payment event, and
      the write stays although the process dies before the transaction commits. */
  lemma SavedCardIsSilent(s: State, id: string)
    requires Starts(s)
    ensures var s' := Exec(s, [Subscribe(id)] + SavedCardDies(id));
            && id in s'.db.intents && StatusOf(s', id) == SUCCEEDED && s'.db.transitions == [] && s'.db.outbox == []
            && s'.handler.None? && !Explained(s', id)
  {
    ExecAppend(s, [Subscribe(id)], SavedCardDies(id));
    ExecOne(s, Subscribe(id));
    Subscribed(s, id);
    SavedCardRuns(Next(s, Subscribe(id)), id);
  }

  /** Creating an intent, run without interference: the started intent is stored before the provider is
      called, its outcome and the transition after. */
  method CreatePaymentIntent(store: PaymentStore, id: string, outcome: Outcome) returns (httpStatus: int)
    requires store.Idle()
    modifies store
    ensures store.Idle()
    ensures var s := State(old(store.db), None, [], map[]);
            store.db == Next(Next(s, CreateBegin(id)), CreateSettle(id, outcome)).db
    ensures httpStatus == if outcome.Accepted? then 200 else 502
    ensures store.db
            == if outcome.Accepted? then
                 old(store.db).(intents := old(store.db.intents)[id := Intent(outcome.status, "")],
                                transitions := old(store.db.transitions)
                                               + [Transition(id, "requires_payment_method", outcome.status, Create)])
               else
                 old(store.db).(intents := old(store.db.intents)[id := Intent("canceled", "provider request failed")],
                                transitions := old(store.db.transitions)
                                               + [Transition(id, "requires_payment_method", "canceled", ProviderFailed)])
  {
    store.Write([PutIntent(id, Intent(REQUIRES_PAYMENT_METHOD, ""))]);
    WrittenOne(old(store.db), PutIntent(id, Intent(REQUIRES_PAYMENT_METHOD, "")));
    match outcome
    case Rejected =>
      WrittenTwo(store.db, SetStatus(id, Intent(CANCELED, PROVIDER_FAILED)),
                 Record(Transition(id, REQUIRES_PAYMENT_METHOD, CANCELED, ProviderFailed)));
      store.Write([SetStatus(id, Intent(CANCELED, PROVIDER_FAILED)),
                   Record(Transition(id, REQUIRES_PAYMENT_METHOD, CANCELED, ProviderFailed))]);
      return 502;
    case Accepted(status) =>
      WrittenTwo(store.db, PutIntent(id, Intent(status, "")), Record(Transition(id, REQUIRES_PAYMENT_METHOD, status, Create)));
      store.Write([PutIntent(id, Intent(status, "")), Record(Transition(id, REQUIRES_PAYMENT_METHOD, status, Create))]);
      return 200;
  }
}
