/**
 Refund rows and the reservation of a refund against a payment.

 The refunds table is the sequence of its rows in insertion order; `id` is its primary key. Payment
 amounts are fixed. A status is free text, because the final write stores whatever the provider said.
 */
module Refunds {
  import opened Wrappers

  datatype Payment = Payment(account: string, amount: nat)

  datatype Refund = Refund(id: string, account: string, payment: string, amount: int, currency: string, status: string)

  type Payments = map<string, Payment>

  type Table = seq<Refund>

  datatype Error = NotFound | PayloadMismatch | ExceedsPayment

  // A reservation and a completed refund both use up the payment.
  predicate Counts(status: string) {
    status == "pending" || status == "succeeded"
  }

  // The position of the row with this id.
  function Find(rows: Table, id: string): (at: Option<nat>)
    ensures at.Some? ==> at.value < |rows| && rows[at.value].id == id
    ensures at.None? ==> forall i :: 0 <= i < |rows| ==> rows[i].id != id
  {
    if rows == [] then None
    else if rows[|rows| - 1].id == id then Some(|rows| - 1)
    else Find(rows[..|rows| - 1], id)
  }

  // INSERT … ON CONFLICT (id) DO UPDATE SET status: the amount of an existing row never changes.
  function Upsert(rows: Table, rf: Refund): Table {
    var at := Find(rows, rf.id);
    if at.Some? then rows[at.value := rows[at.value].(status := rf.status)] else rows + [rf]
  }

  function CountedAmount(row: Refund, account: string, payment: string): int {
    if row.account == account && row.payment == payment && Counts(row.status) then row.amount else 0
  }

  // SUM(amount_minor) over the payment's pending and succeeded refunds.
  function Reserved(rows: Table, account: string, payment: string): int {
    if rows == [] then 0
    else Reserved(rows[..|rows| - 1], account, payment) + CountedAmount(rows[|rows| - 1], account, payment)
  }

  predicate Paid(payments: Payments, account: string, payment: string) {
    payment in payments && payments[payment].account == account
  }

  function PaidAmount(payments: Payments, account: string, payment: string): int {
    if Paid(payments, account, payment) then payments[payment].amount else 0
  }

  function Remaining(payments: Payments, rows: Table, account: string, payment: string): int {
    PaidAmount(payments, account, payment) - Reserved(rows, account, payment)
  }

  predicate Resumes(rows: Table, rf: Refund) {
    var at := Find(rows, rf.id);
    at.Some? && rows[at.value].account == rf.account
  }

  predicate Fits(asked: Refund, row: Refund) {
    asked.payment == row.payment && asked.currency == row.currency && (asked.amount == 0 || asked.amount == row.amount)
  }

  datatype Outcome = Outcome(error: Option<Error>, rf: Refund, rows: Table)

  /** The whole effect of a reservation: the outcome, the command as the caller sees it afterwards, and
      the table. A failed row is put back to pending without another look at the balance. */
  function Reserve(payments: Payments, rows: Table, rf: Refund): Outcome {
    if !Paid(payments, rf.account, rf.payment) then Outcome(Some(NotFound), rf, rows)
    else if Resumes(rows, rf) then
      var row := rows[Find(rows, rf.id).value];
      if !Fits(rf, row) then Outcome(Some(PayloadMismatch), rf, rows)
      else if row.status == "failed" then
        var resumed := rf.(amount := row.amount, status := "pending");
        Outcome(None, resumed, Upsert(rows, resumed))
      else Outcome(None, rf.(amount := row.amount, status := row.status), rows)
    else
      var remaining := Remaining(payments, rows, rf.account, rf.payment);
      var amount := if rf.amount == 0 then remaining else rf.amount;
      if amount <= 0 || amount > remaining then Outcome(Some(ExceedsPayment), rf.(amount := amount), rows)
      else
        var reserved := rf.(amount := amount, status := "pending");
        Outcome(None, reserved, Upsert(rows, reserved))
  }

  // The refund a handler is working on: the store fills in its amount and its status.
  class RefundCommand {
    const id: string
    const account: string
    const payment: string
    const currency: string
    var amount: int
    var status: string

    constructor (id: string, account: string, payment: string, amount: int, currency: string)
      ensures this.id == id && this.account == account && this.payment == payment && this.currency == currency
      ensures this.amount == amount && status == "pending"
    {
      this.id, this.account, this.payment, this.currency := id, account, payment, currency;
      this.amount, status := amount, "pending";
    }

    function Value(): Refund
      reads this
    {
      Refund(id, account, payment, amount, currency, status)
    }
  }

  class RefundStore {
    const payments: Payments
    var rows: Table

    constructor (payments: Payments)
      ensures this.payments == payments && rows == []
    {
      this.payments := payments;
      rows := [];
    }

    method WriteRefund(rf: RefundCommand)
      modifies this
      ensures rows == Upsert(old(rows), rf.Value())
    {
      var at := Find(rows, rf.id);
      match at
      case Some(i) => rows := rows[i := rows[i].(status := rf.status)];
      case None => rows := rows + [rf.Value()];
    }

    method ReserveRefund(rf: RefundCommand) returns (error: Option<Error>)
      modifies this, rf
      ensures Outcome(error, rf.Value(), rows) == Reserve(payments, old(rows), old(rf.Value()))
    {
      if rf.payment !in payments || payments[rf.payment].account != rf.account {
        return Some(NotFound);
      }
      var at := Find(rows, rf.id);
      if at.Some? && rows[at.value].account == rf.account {
        var existing := rows[at.value];
        if existing.payment != rf.payment || existing.currency != rf.currency
           || (rf.amount != 0 && rf.amount != existing.amount) {
          return Some(PayloadMismatch);
        }
        rf.amount := existing.amount;
        rf.status := existing.status;
        if existing.status == "failed" {
          rf.status := "pending";
          WriteRefund(rf);
        }
        return None;
      }
      var remaining := payments[rf.payment].amount - Reserved(rows, rf.account, rf.payment);
      if rf.amount == 0 {
        rf.amount := remaining;
      }
      if rf.amount <= 0 || rf.amount > remaining {
        return Some(ExceedsPayment);
      }
      rf.status := "pending";
      WriteRefund(rf);
      return None;
    }
  }

  /** A request for no amount, on an id not seen before, reserves exactly what is left of the payment,
      and is refused exactly when nothing is left. */
  lemma ZeroAmountReservesRemainder(payments: Payments, rows: Table, rf: Refund)
    requires rf.amount == 0 && Paid(payments, rf.account, rf.payment) && Find(rows, rf.id).None?
    ensures var left := Remaining(payments, rows, rf.account, rf.payment);
            var o := Reserve(payments, rows, rf);
            && (o.error.None? <==> left > 0)
            && (o.error.None? ==> o.rf.amount == left
                                  && Remaining(payments, o.rows, rf.account, rf.payment) == 0)
  {
    var o := Reserve(payments, rows, rf);
    if o.error.None? {
      UpsertMovesBalance(rows, o.rf, rf.account, rf.payment);
    }
  }

  /** A new id is reserved exactly if the payment is the account's and has that much left, and takes it. */
  lemma NewRefundIsReservedIff(payments: Payments, rows: Table, rf: Refund)
    requires rf.amount != 0 && Find(rows, rf.id).None?
    ensures var o := Reserve(payments, rows, rf);
            var paid := rf.payment in payments && payments[rf.payment].account == rf.account;
            && (o.error.None? <==> paid && 0 < rf.amount <= payments[rf.payment].amount - Reserved(rows, rf.account, rf.payment))
            && (o.error.None? ==>
                  o.rows == rows + [rf.(status := "pending")] && o.rf == rf.(status := "pending")
                  && Reserved(o.rows, rf.account, rf.payment) == Reserved(rows, rf.account, rf.payment) + rf.amount)
            && (o.error.Some? ==> o.rows == rows && o.error == Some(if paid then ExceedsPayment else NotFound))
  {
    assert (rows + [rf.(status := "pending")])[..|rows|] == rows;
  }

  /** Reserving again under the same id neither reserves twice nor depends on the balance: while the row
      is not failed the table stays as it is and the caller gets the stored amount and status back. */
  lemma ReservingTwiceReservesOnce(payments: Payments, rows: Table, rf: Refund)
    requires Reserve(payments, rows, rf).error.None?
    ensures var o := Reserve(payments, rows, rf); Reserve(payments, o.rows, rf) == o
  {
    var o := Reserve(payments, rows, rf);
    var at := Find(rows, rf.id);
    if at.Some? {
      var row := rows[at.value];
      FindAfterUpdate(rows, rf.id, o.rf);
      if row.account != rf.account {
        ReservedAfterUpdate(rows, at.value, row.(status := o.rf.status), rf.account, rf.payment);
      }
    }
  }

  lemma {:induction false} FindAfterUpdate(rows: Table, id: string, rf: Refund)
    requires Find(rows, id).Some?
    ensures var i := Find(rows, id).value; Find(rows[i := rows[i].(status := rf.status)], id) == Some(i)
  {
    var i := Find(rows, id).value;
    var rows' := rows[i := rows[i].(status := rf.status)];
    if i < |rows| - 1 {
      FindAfterUpdate(rows[..|rows| - 1], id, rf);
      assert rows'[..|rows| - 1] == rows[..|rows| - 1][i := rows[i].(status := rf.status)];
    }
  }

  // ----- Ledger moves -----

  // How a write moves money between the counted and the uncounted refunds of a payment.
  datatype Kind = Reserving | Reviving | Releasing

  datatype Move = Move(kind: Kind, account: string, payment: string, amount: int)

  function UpsertMoves(rows: Table, rf: Refund): seq<Move> {
    match Find(rows, rf.id)
    case None => if Counts(rf.status) then [Move(Reserving, rf.account, rf.payment, rf.amount)] else []
    case Some(i) =>
      var row := rows[i];
      if !Counts(row.status) && Counts(rf.status) then [Move(Reviving, row.account, row.payment, row.amount)]
      else if Counts(row.status) && !Counts(rf.status) then [Move(Releasing, row.account, row.payment, row.amount)]
      else []
  }

  function Total(moves: seq<Move>, kind: Kind, account: string, payment: string): int {
    if moves == [] then 0
    else
      var m := moves[|moves| - 1];
      Total(moves[..|moves| - 1], kind, account, payment)
      + if m.kind == kind && m.account == account && m.payment == payment then m.amount else 0
  }

  function Net(moves: seq<Move>, account: string, payment: string): int {
    Total(moves, Reserving, account, payment) + Total(moves, Reviving, account, payment)
    - Total(moves, Releasing, account, payment)
  }

  lemma {:induction false} TotalAppend(moves: seq<Move>, more: seq<Move>, kind: Kind, account: string, payment: string)
    ensures Total(moves + more, kind, account, payment)
            == Total(moves, kind, account, payment) + Total(more, kind, account, payment)
  {
    if more == [] {
      assert moves + more == moves;
    } else {
      assert (moves + more)[..|moves + more| - 1] == moves + more[..|more| - 1];
      TotalAppend(moves, more[..|more| - 1], kind, account, payment);
    }
  }

  lemma {:induction false} ReservedAfterUpdate(rows: Table, i: nat, row: Refund, account: string, payment: string)
    requires i < |rows|
    ensures Reserved(rows[i := row], account, payment)
            == Reserved(rows, account, payment)
               - CountedAmount(rows[i], account, payment) + CountedAmount(row, account, payment)
  {
    var last := |rows| - 1;
    if i == last {
      assert rows[i := row][..last] == rows[..last];
    } else {
      assert rows[i := row][..last] == rows[..last][i := row];
      ReservedAfterUpdate(rows[..last], i, row, account, payment);
    }
  }

  lemma NetOfOne(m: Move, account: string, payment: string)
    ensures Net([m], account, payment)
            == if m.account != account || m.payment != payment then 0
               else if m.kind.Releasing? then -m.amount
               else m.amount
  {
    TotalOfOne(m, Reserving, account, payment);
    TotalOfOne(m, Reviving, account, payment);
    TotalOfOne(m, Releasing, account, payment);
  }

  lemma TotalOfOne(m: Move, kind: Kind, account: string, payment: string)
    ensures Total([m], kind, account, payment)
            == if m.kind == kind && m.account == account && m.payment == payment then m.amount else 0
  {
    assert [m][..0] == [];
  }

  /** A write changes what is reserved on any payment by exactly the moves it stands for. */
  lemma UpsertMovesBalance(rows: Table, rf: Refund, account: string, payment: string)
    ensures Reserved(Upsert(rows, rf), account, payment)
            == Reserved(rows, account, payment) + Net(UpsertMoves(rows, rf), account, payment)
  {
    var moves := UpsertMoves(rows, rf);
    if |moves| == 1 {
      NetOfOne(moves[0], account, payment);
      assert moves == [moves[0]];
    }
    match Find(rows, rf.id)
    case None =>
      assert Upsert(rows, rf) == rows + [rf] && (rows + [rf])[..|rows|] == rows;
    case Some(i) => ReservedAfterUpdate(rows, i, rows[i].(status := rf.status), account, payment);
  }
}

/**
 Every interleaving of refund handlers: reserve, call the provider, write the outcome. Two handlers may
 work on the same refund id at once, because a recovered idempotency claim resumes its reservation.
 */
module RefundProtocol {
  import opened Wrappers
  import opened Refunds

  datatype Provider = Rejected | Reported(status: string)

  datatype Event =
    | Begin(rf: Refund)
    | Settle(run: nat, answer: Provider)
    | Crash(run: nat)

  // `runs` holds the commands that wait for the provider; `moves` is the history of the ledger.
  datatype State = State(rows: Table, runs: map<nat, Refund>, nextRun: nat, moves: seq<Move>)

  const INIT := State([], map[], 0, [])

  // The status written once the provider has answered; an empty one means success.
  function FinalStatus(answer: Provider): string {
    match answer
    case Rejected => "failed"
    case Reported(status) => if status == "" then "succeeded" else status
  }

  // The row a step writes, if it writes one.
  function Written(payments: Payments, s: State, e: Event): Option<Refund> {
    match e
    case Begin(rf) =>
      var o := Reserve(payments, s.rows, rf);
      if o.error.None? then Some(o.rf) else None
    case Settle(run, answer) =>
      if run in s.runs then Some(s.runs[run].(status := FinalStatus(answer))) else None
    case Crash(run) => None
  }

  function Step(payments: Payments, s: State, e: Event): State {
    match e
    case Begin(rf) =>
      var o := Reserve(payments, s.rows, rf);
      if o.error.Some? then s
      else
        var s' := s.(rows := o.rows, moves := s.moves + UpsertMoves(s.rows, o.rf));
        if o.rf.status == "succeeded" then s'
        else s'.(runs := s.runs[s.nextRun := o.rf], nextRun := s.nextRun + 1)
    case Settle(run, answer) =>
      if run !in s.runs then s
      else
        var rf := s.runs[run].(status := FinalStatus(answer));
        s.(rows := Upsert(s.rows, rf), runs := s.runs - {run}, moves := s.moves + UpsertMoves(s.rows, rf))
    case Crash(run) => s.(runs := s.runs - {run})
  }

  function Exec(payments: Payments, events: seq<Event>): State {
    if events == [] then INIT
    else Step(payments, Exec(payments, events[..|events| - 1]), events[|events| - 1])
  }

  // A command in flight has its row; rows are never removed.
  ghost predicate Rooted(s: State) {
    forall run :: run in s.runs ==> Find(s.rows, s.runs[run].id).Some?
  }

  ghost predicate Balanced(s: State, account: string, payment: string) {
    Reserved(s.rows, account, payment) == Net(s.moves, account, payment)
  }

  ghost predicate Covered(payments: Payments, s: State, account: string, payment: string) {
    Reserved(s.rows, account, payment)
    <= PaidAmount(payments, account, payment) + Total(s.moves, Reviving, account, payment)
  }

  lemma {:induction false} UpsertKeepsRows(rows: Table, rf: Refund, id: string)
    ensures Find(rows, id).Some? || id == rf.id ==> Find(Upsert(rows, rf), id).Some?
  {
    if Find(rows, id).Some? {
      assert Upsert(rows, rf)[Find(rows, id).value].id == id;
    } else if id == rf.id {
      assert Upsert(rows, rf)[|rows|].id == id;
    }
  }

  // A run in flight was in flight before, or works on the row that the step wrote.
  lemma RunsAfterStep(payments: Payments, s: State, e: Event, run: nat)
    requires run in Step(payments, s, e).runs
    ensures var rf := Step(payments, s, e).runs[run];
            || (run in s.runs && s.runs[run] == rf)
            || (Written(payments, s, e).Some? && Written(payments, s, e).value.id == rf.id)
  {
  }

  lemma RowsAfterStep(payments: Payments, s: State, e: Event, id: string)
    ensures var written := Written(payments, s, e);
            Find(s.rows, id).Some? || (written.Some? && written.value.id == id) ==>
              Find(Step(payments, s, e).rows, id).Some?
  {
    if Written(payments, s, e).Some? {
      StepWrites(payments, s, e);
      UpsertKeepsRows(s.rows, Written(payments, s, e).value, id);
    } else {
      StepWritesNothing(payments, s, e);
    }
  }

  lemma StepKeepsRooted(payments: Payments, s: State, e: Event)
    requires Rooted(s)
    ensures Rooted(Step(payments, s, e))
  {
    var s' := Step(payments, s, e);
    forall run | run in s'.runs
      ensures Find(s'.rows, s'.runs[run].id).Some?
    {
      RunsAfterStep(payments, s, e, run);
      RowsAfterStep(payments, s, e, s'.runs[run].id);
    }
  }

  // What a step does to the table and to the history, for a step that writes.
  lemma StepWrites(payments: Payments, s: State, e: Event)
    requires Written(payments, s, e).Some?
    ensures var w := Written(payments, s, e).value;
            var s' := Step(payments, s, e);
            && s'.moves == s.moves + UpsertMoves(s.rows, w)
            && s'.rows == Upsert(s.rows, w)
  {
    if e.Begin? && Resumes(s.rows, e.rf) {
      var i := Find(s.rows, e.rf.id).value;
      assert s.rows[i := s.rows[i].(status := s.rows[i].status)] == s.rows;
    }
  }

  // A row is inserted only by a reservation, which leaves the payment covered.
  lemma InsertFits(payments: Payments, s: State, e: Event)
    requires Rooted(s) && Written(payments, s, e).Some?
    requires Find(s.rows, Written(payments, s, e).value.id).None?
    ensures var w := Written(payments, s, e).value;
            Counts(w.status) && 0 < w.amount <= Remaining(payments, s.rows, w.account, w.payment)
  {
  }

  // The totals after a write are those before plus the moves of the write.
  lemma TotalsAfterWrite(s: State, w: Refund, account: string, payment: string)
    ensures var moves := UpsertMoves(s.rows, w);
            && Net(s.moves + moves, account, payment) == Net(s.moves, account, payment) + Net(moves, account, payment)
            && Total(s.moves + moves, Reviving, account, payment)
               == Total(s.moves, Reviving, account, payment) + Total(moves, Reviving, account, payment)
  {
    var moves := UpsertMoves(s.rows, w);
    TotalAppend(s.moves, moves, Reserving, account, payment);
    TotalAppend(s.moves, moves, Reviving, account, payment);
    TotalAppend(s.moves, moves, Releasing, account, payment);
  }

  // A new row uses up no more than what is left.
  lemma InsertKeepsCovered(payments: Payments, s: State, w: Refund, account: string, payment: string)
    requires Covered(payments, s, account, payment) && Total(s.moves, Reviving, account, payment) >= 0
    requires Find(s.rows, w.id).None? && Counts(w.status) && 0 < w.amount <= Remaining(payments, s.rows, w.account, w.payment)
    ensures Reserved(Upsert(s.rows, w), account, payment)
            <= PaidAmount(payments, account, payment) + Total(s.moves, Reviving, account, payment)
    ensures Total(UpsertMoves(s.rows, w), Reviving, account, payment) == 0
  {
    assert (s.rows + [w])[..|s.rows|] == s.rows;
    TotalOfOne(UpsertMoves(s.rows, w)[0], Reviving, account, payment);
  }

  // A write over a row adds no more than it revives.
  lemma UpdateKeepsCovered(payments: Payments, s: State, w: Refund, account: string, payment: string)
    requires Covered(payments, s, account, payment) && Find(s.rows, w.id).Some? && NonNegative(s.rows)
    ensures Reserved(Upsert(s.rows, w), account, payment)
            <= PaidAmount(payments, account, payment) + Total(s.moves, Reviving, account, payment)
               + Total(UpsertMoves(s.rows, w), Reviving, account, payment)
  {
    var i, moves := Find(s.rows, w.id).value, UpsertMoves(s.rows, w);
    ReservedAfterUpdate(s.rows, i, s.rows[i].(status := w.status), account, payment);
    if |moves| == 1 {
      assert moves == [moves[0]];
      TotalOfOne(moves[0], Reviving, account, payment);
    }
  }

  lemma StepKeepsLedger(payments: Payments, s: State, e: Event, account: string, payment: string)
    requires Rooted(s) && Balanced(s, account, payment) && Covered(payments, s, account, payment) && NonNegative(s.rows)
    requires Total(s.moves, Reviving, account, payment) >= 0
    ensures Balanced(Step(payments, s, e), account, payment)
    ensures Covered(payments, Step(payments, s, e), account, payment)
  {
    var written := Written(payments, s, e);
    if written.None? {
      StepWritesNothing(payments, s, e);
    } else {
      StepWrites(payments, s, e);
      TotalsAfterWrite(s, written.value, account, payment);
      UpsertMovesBalance(s.rows, written.value, account, payment);
      if Find(s.rows, written.value.id).None? {
        InsertFits(payments, s, e);
        InsertKeepsCovered(payments, s, written.value, account, payment);
      } else {
        UpdateKeepsCovered(payments, s, written.value, account, payment);
      }
    }
  }

  ghost predicate NonNegative(rows: Table) {
    forall i :: 0 <= i < |rows| ==> rows[i].amount >= 0
  }

  lemma StepKeepsNonNegative(payments: Payments, s: State, e: Event, account: string, payment: string)
    requires Rooted(s) && NonNegative(s.rows) && Total(s.moves, Reviving, account, payment) >= 0
    ensures NonNegative(Step(payments, s, e).rows)
    ensures Total(Step(payments, s, e).moves, Reviving, account, payment) >= 0
  {
    if Written(payments, s, e).Some? {
      var w := Written(payments, s, e).value;
      StepWrites(payments, s, e);
      TotalAppend(s.moves, UpsertMoves(s.rows, w), Reviving, account, payment);
      RevivedIsNonNegative(s.rows, w, account, payment);
      if Find(s.rows, w.id).None? {
        InsertFits(payments, s, e);
      }
      UpsertKeepsNonNegative(s.rows, w);
    } else {
      StepWritesNothing(payments, s, e);
    }
  }

  lemma StepWritesNothing(payments: Payments, s: State, e: Event)
    requires Written(payments, s, e).None?
    ensures Step(payments, s, e).rows == s.rows && Step(payments, s, e).moves == s.moves
  {
  }

  lemma UpsertKeepsNonNegative(rows: Table, rf: Refund)
    requires NonNegative(rows) && (Find(rows, rf.id).None? ==> rf.amount >= 0)
    ensures NonNegative(Upsert(rows, rf))
  {
  }

  lemma RevivedIsNonNegative(rows: Table, rf: Refund, account: string, payment: string)
    requires NonNegative(rows)
    ensures Total(UpsertMoves(rows, rf), Reviving, account, payment) >= 0
  {
    var moves := UpsertMoves(rows, rf);
    if |moves| == 1 {
      TotalOfOne(moves[0], Reviving, account, payment);
      assert moves == [moves[0]];
    }
  }

  /** Conservation: in every run and for every payment, what is pending or succeeded is what was ever
      reserved, plus what was revived, minus what was released; and it is at most the amount paid plus
      what was revived. */
  lemma {:induction false} RefundsConserve(payments: Payments, events: seq<Event>, account: string, payment: string)
    ensures var s := Exec(payments, events);
            && Reserved(s.rows, account, payment) == Net(s.moves, account, payment)
            && Reserved(s.rows, account, payment)
               <= PaidAmount(payments, account, payment) + Total(s.moves, Reviving, account, payment)
            && Rooted(s) && NonNegative(s.rows) && Total(s.moves, Reviving, account, payment) >= 0
  {
    if events != [] {
      var before := events[..|events| - 1];
      var s, e := Exec(payments, before), events[|events| - 1];
      RefundsConserve(payments, before, account, payment);
      StepKeepsRooted(payments, s, e);
      StepKeepsNonNegative(payments, s, e, account, payment);
      StepKeepsLedger(payments, s, e, account, payment);
    }
  }

  /** With no revival on a payment, its refunds never exceed what was paid. */
  lemma WithoutRevivalNoExcess(payments: Payments, events: seq<Event>, account: string, payment: string)
    requires forall i :: 0 <= i < |Exec(payments, events).moves| ==> !Exec(payments, events).moves[i].kind.Reviving?
    ensures Reserved(Exec(payments, events).rows, account, payment) <= PaidAmount(payments, account, payment)
  {
    RefundsConserve(payments, events, account, payment);
    NoMovesNoTotal(Exec(payments, events).moves, account, payment);
  }

  lemma {:induction false} NoMovesNoTotal(moves: seq<Move>, account: string, payment: string)
    requires forall i :: 0 <= i < |moves| ==> !moves[i].kind.Reviving?
    ensures Total(moves, Reviving, account, payment) == 0
  {
    if moves != [] {
      NoMovesNoTotal(moves[..|moves| - 1], account, payment);
    }
  }

  // The write puts an uncounted row of this payment back among the counted, beyond what is left.
  predicate RevivesBeyond(payments: Payments, rows: Table, w: Refund, account: string, payment: string) {
    var at := Find(rows, w.id);
    && at.Some? && rows[at.value].account == account && rows[at.value].payment == payment
    && !Counts(rows[at.value].status) && Counts(w.status)
    && rows[at.value].amount > Remaining(payments, rows, account, payment)
  }

  lemma UpsertExceedsIff(payments: Payments, rows: Table, w: Refund, account: string, payment: string)
    requires Remaining(payments, rows, account, payment) >= 0
    requires Find(rows, w.id).None? ==> 0 < w.amount <= Remaining(payments, rows, w.account, w.payment)
    requires NonNegative(rows)
    ensures Remaining(payments, Upsert(rows, w), account, payment) < 0
            <==> RevivesBeyond(payments, rows, w, account, payment)
  {
    match Find(rows, w.id)
    case None => assert (rows + [w])[..|rows|] == rows;
    case Some(i) => ReservedAfterUpdate(rows, i, rows[i].(status := w.status), account, payment);
  }

  /** The exact condition under which a payment that was covered stops being so: a step that revives a
      row for more than the remainder, and no other step. */
  lemma ExceedsIffRevivedBeyond(payments: Payments, events: seq<Event>, e: Event, account: string, payment: string)
    requires Remaining(payments, Exec(payments, events).rows, account, payment) >= 0
    ensures var s := Exec(payments, events);
            var w := Written(payments, s, e);
            Remaining(payments, Step(payments, s, e).rows, account, payment) < 0
            <==> w.Some? && RevivesBeyond(payments, s.rows, w.value, account, payment)
  {
    var s := Exec(payments, events);
    RefundsConserve(payments, events, account, payment);
    if Written(payments, s, e).Some? {
      var w := Written(payments, s, e).value;
      StepWrites(payments, s, e);
      if Find(s.rows, w.id).None? {
        InsertFits(payments, s, e);
      }
      UpsertExceedsIff(payments, s.rows, w, account, payment);
    }
  }

  /** It is reachable: a refund fails, its money is reserved by another one, and a retry of the first
      revives it, so that twice the payment is reserved. */
  lemma RevivalCanExceed(amount: nat)
    requires amount > 0
    ensures var payments := map["pi" := Payment("acc", amount)];
            var first := Refund("re_1", "acc", "pi", amount, "idr", "pending");
            var second := Refund("re_2", "acc", "pi", amount, "idr", "pending");
            var events := [Begin(first), Settle(0, Rejected), Begin(second), Begin(first)];
            Reserved(Exec(payments, events).rows, "acc", "pi") == 2 * amount
  {
    var payments := map["pi" := Payment("acc", amount)];
    var first := Refund("re_1", "acc", "pi", amount, "idr", "pending");
    var second := Refund("re_2", "acc", "pi", amount, "idr", "pending");
    var e0, e1, e2, e3 := Begin(first), Settle(0, Rejected), Begin(second), Begin(first);
    assert [e0, e1, e2, e3][..3] == [e0, e1, e2] && [e0, e1, e2][..2] == [e0, e1];
    assert [e0, e1][..1] == [e0] && [e0][..0] == [];
    var failed := first.(status := "failed");
    assert Exec(payments, [e0]).rows == [first];
    assert Exec(payments, [e0, e1]).rows == [failed];
    assert [failed, second][..1] == [failed] && [failed][..0] == [];
    assert Find([failed], "re_2").None?;
    assert Exec(payments, [e0, e1, e2]).rows == [failed, second];
    assert Find([failed, second], "re_1") == Some(0);
    assert Exec(payments, [e0, e1, e2, e3]).rows == [first, second];
    assert [first, second][..1] == [first] && [first][..0] == [];
  }

  // The status that is stored for an answer: what the provider said, where saying nothing means success.
  predicate IsOutcome(answer: Provider, status: string) {
    && (answer.Rejected? ==> status == "failed")
    && (answer.Reported? && answer.status == "" ==> status == "succeeded")
    && (answer.Reported? && answer.status != "" ==> status == answer.status)
  }

  // A refund that the provider has carried out, or is about to.
  predicate IsTaken(answer: Provider) {
    answer.Reported? && answer.status in {"", "succeeded", "pending"}
  }

  // The refund's row has the outcome, every other row is as before, and the refund uses up its amount of the
  // payment exactly if it is taken.
  predicate IsSettled(rows: Table, rows': Table, id: string, answer: Provider) {
    && Find(rows, id).Some? && Find(rows', id) == Find(rows, id)
    && var at := Find(rows, id).value;
       && rows' == rows[at := rows[at].(status := rows'[at].status)] && IsOutcome(answer, rows'[at].status)
       && var row := rows[at];
          Reserved(rows', row.account, row.payment)
          == Reserved(rows, row.account, row.payment)
             - (if row.status in {"pending", "succeeded"} then row.amount else 0)
             + (if IsTaken(answer) then row.amount else 0)
  }

  lemma UpsertSettles(rows: Table, rf: Refund, answer: Provider)
    requires Find(rows, rf.id).Some? && rf.status == FinalStatus(answer)
    ensures IsSettled(rows, Upsert(rows, rf), rf.id, answer)
  {
    var at := Find(rows, rf.id).value;
    FindAfterUpdate(rows, rf.id, rf);
    ReservedAfterUpdate(rows, at, rows[at].(status := rf.status), rows[at].account, rows[at].payment);
  }

  /** In every run, the answer of the provider settles the refund: its outcome is stored, and the money stays
      taken exactly if the provider has taken it. */
  lemma AnswersSettle(payments: Payments, events: seq<Event>, run: nat, answer: Provider)
    requires run in Exec(payments, events).runs
    ensures var s := Exec(payments, events);
            IsSettled(s.rows, Step(payments, s, Settle(run, answer)).rows, s.runs[run].id, answer)
  {
    var s := Exec(payments, events);
    RefundsConserve(payments, events, "", "");
    UpsertSettles(s.rows, s.runs[run].(status := FinalStatus(answer)), answer);
  }

  // A new refund, from its reservation to its outcome, takes what it reserved or nothing.
  lemma NewRefundTakes(payments: Payments, rows: Table, rf: Refund, rows': Table, answer: Provider)
    requires Find(rows, rf.id).None? && Reserve(payments, rows, rf).error.None?
    requires IsSettled(Reserve(payments, rows, rf).rows, rows', rf.id, answer)
    ensures Remaining(payments, rows', rf.account, rf.payment)
            == Remaining(payments, rows, rf.account, rf.payment)
               - if IsTaken(answer) then Reserve(payments, rows, rf).rf.amount else 0
  {
    var reserved := Reserve(payments, rows, rf).rf;
    assert (rows + [reserved])[..|rows|] == rows;
    NewIsLast(rows, reserved);
  }

  lemma NewIsLast(rows: Table, rf: Refund)
    ensures Find(rows + [rf], rf.id) == Some(|rows|)
  {
  }

  // The write of the outcome, and the status code that goes with it.
  method Conclude(store: RefundStore, rf: RefundCommand, answer: Provider) returns (httpStatus: int)
    modifies store, rf
    ensures rf.amount == old(rf.amount)
    ensures store.rows == Upsert(old(store.rows), old(rf.Value()).(status := FinalStatus(answer)))
    ensures httpStatus == if answer.Rejected? then 400 else 200
  {
    match answer
    case Rejected =>
      rf.status := "failed";
      store.WriteRefund(rf);
      return 400;
    case Reported(status) =>
      rf.status := if status == "" then "succeeded" else status;
      store.WriteRefund(rf);
      return 200;
  }

  /** The handler, run without interference, for any provider answer: it is the reservation followed by
      the write of the outcome, and a refund that already succeeded is not sent to the provider again. */
  method CreateRefund(store: RefundStore, rf: RefundCommand, answer: Provider) returns (httpStatus: int)
    modifies store, rf
    ensures var s := State(old(store.rows), map[], 0, []);
            var reserved := Step(store.payments, s, Begin(old(rf.Value())));
            && store.rows == Step(store.payments, reserved, Settle(0, answer)).rows
            && (httpStatus == 500 <==>
                  var error := Reserve(store.payments, s.rows, old(rf.Value())).error;
                  error == Some(NotFound) || error == Some(PayloadMismatch))
            && (httpStatus == 200 ==> Find(store.rows, rf.id).Some?)
    ensures var o := Reserve(store.payments, old(store.rows), old(rf.Value()));
            o.error.None? ==>
              if o.rf.status == "succeeded" then httpStatus == 200 && store.rows == old(store.rows)
              else httpStatus == (if answer.Rejected? then 400 else 200) && IsSettled(o.rows, store.rows, rf.id, answer)
    ensures Find(old(store.rows), rf.id).None? ==>
              Remaining(store.payments, store.rows, rf.account, rf.payment)
              == Remaining(store.payments, old(store.rows), rf.account, rf.payment)
                 - if httpStatus == 200 && IsTaken(answer) then rf.amount else 0
  {
    ghost var before := store.rows;
    ghost var asked := rf.Value();
    var error := store.ReserveRefund(rf);
    if error.Some? {
      return if error.value.ExceedsPayment? then 400 else 500;
    }
    StepKeepsRooted(store.payments, State(before, map[], 0, []), Begin(asked));
    UpsertKeepsRows(before, rf.Value(), rf.id);
    if rf.status == "succeeded" {
      assert Resumes(before, asked);
      return 200;
    }
    UpsertSettles(store.rows, rf.Value().(status := FinalStatus(answer)), answer);
    if Find(before, rf.id).None? {
      NewRefundTakes(store.payments, before, asked, Upsert(store.rows, rf.Value().(status := FinalStatus(answer))), answer);
    }
    httpStatus := Conclude(store, rf, answer);
  }
}
