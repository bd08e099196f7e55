/**
 Request idempotency: the `idempotency_records` table and its three statements.

 A row is created by the first claim of an (account, operation, key). A claim carries a 30 second lease
 but no owner token, so a caller whose lease has run out may still try to complete or fail the row.
 */
module Idempotency {
  import opened Wrappers

  const LEASE_SECONDS := 30

  // The UNIQUE columns of the table.
  datatype Key = Key(account: string, operation: string, key: string)

  datatype Response = Response(status: int, body: string)

  // `Processing` holds the nullable processing_expires_at column.
  datatype Phase = Processing(expires: Option<int>) | Completed(response: Response) | Failed

  datatype Record = Record(hash: string, phase: Phase)

  type Table = map<Key, Record>

  datatype Claim = Owned | Replay(response: Response) | PayloadMismatch | InProgress

  predicate Reclaimable(phase: Phase, appNow: int) {
    match phase
    case Failed => true
    case Processing(expires) => expires.None? || expires.value < appNow
    case Completed(_) => false
  }

  function Started(hash: string, dbNow: int): Record {
    Record(hash, Processing(Some(dbNow + LEASE_SECONDS)))
  }

  /** What a claim answers. A different request body is refused before the row's phase is looked at. */
  function ClaimAnswer(t: Table, k: Key, hash: string, appNow: int): Claim {
    if k !in t then Owned
    else if t[k].hash != hash then PayloadMismatch
    else if t[k].phase.Completed? then Replay(t[k].phase.response)
    else if Reclaimable(t[k].phase, appNow) then Owned
    else InProgress
  }

  function AfterClaim(t: Table, k: Key, hash: string, dbNow: int, appNow: int): Table {
    if ClaimAnswer(t, k, hash, appNow).Owned? then t[k := Started(hash, dbNow)] else t
  }

  predicate InFlight(t: Table, k: Key) {
    k in t && t[k].phase.Processing?
  }

  function AfterComplete(t: Table, k: Key, response: Response): Table {
    if InFlight(t, k) then t[k := t[k].(phase := Completed(response))] else t
  }

  function AfterFail(t: Table, k: Key): Table {
    if InFlight(t, k) then t[k := t[k].(phase := Failed)] else t
  }

  class IdempotencyStore {
    var records: Table

    constructor ()
      ensures records == map[]
    {
      records := map[];
    }

    /** INSERT … ON CONFLICT DO NOTHING, then the locked read of the row that was there before. The
        database stamps the lease with its own clock; expiry is judged by the caller's. */
    method ClaimIdempotency(k: Key, hash: string, dbNow: int, appNow: int) returns (claim: Claim)
      modifies this
      ensures claim == ClaimAnswer(old(records), k, hash, appNow)
      ensures records == AfterClaim(old(records), k, hash, dbNow, appNow)
    {
      if k !in records {
        records := records[k := Record(hash, Processing(Some(dbNow + LEASE_SECONDS)))];
        return Owned;
      }
      var row := records[k];
      if row.hash != hash {
        return PayloadMismatch;
      }
      match row.phase
      case Completed(response) =>
        return Replay(response);
      case Failed =>
        records := records[k := row.(phase := Processing(Some(dbNow + LEASE_SECONDS)))];
        return Owned;
      case Processing(expires) =>
        if expires.None? || expires.value < appNow {
          records := records[k := row.(phase := Processing(Some(dbNow + LEASE_SECONDS)))];
          return Owned;
        }
        return InProgress;
    }

    /** Only a row that is still processing is completed; `ok` is false when none was. */
    method CompleteIdempotency(k: Key, response: Response) returns (ok: bool)
      modifies this
      ensures ok <==> InFlight(old(records), k)
      ensures records == AfterComplete(old(records), k, response)
    {
      ok := k in records && records[k].phase.Processing?;
      if ok {
        records := records[k := records[k].(phase := Completed(response))];
      }
    }

    method FailIdempotency(k: Key)
      modifies this
      ensures records == AfterFail(old(records), k)
    {
      if k in records && records[k].phase.Processing? {
        records := records[k := records[k].(phase := Failed)];
      }
    }
  }
}

/**
 Every interleaving of clients, handler runs, crashes, lost commits and expired leases around the
 idempotency middleware. One event is one atomic step; `Exec` runs any sequence of them.
 */
module IdempotencyProtocol {
  import opened Wrappers
  import opened Idempotency

  // A handler run that owns a claim and has not finalized yet.
  datatype Run = Run(key: Key, hash: string, lease: int)

  datatype Source = FromRun | FromReplay | FromMiddleware

  datatype Answer = Answer(key: Key, hash: string, response: Response, source: Source)

  // What becomes of the finalizing transaction and of the reply that follows it.
  datatype Fate =
    | Acknowledged                      // committed, reply sent
    | CommitError(committed: bool)      // the store reported an error; the commit may still have landed
    | Died(committed: bool)             // the process died before replying

  datatype Event =
    | Arrive(key: Key, hash: string, dbNow: int)
    | Finish(run: nat, response: Response, fate: Fate)
    | Crash(run: nat)
    | Tick(now: int)

  // `completions` lists the keys in the order in which a completion took effect.
  datatype State = State(
    table: Table,
    runs: map<nat, Run>,
    nextRun: nat,
    answers: seq<Answer>,
    completions: seq<Key>,
    now: int)

  const INIT := State(map[], map[], 0, [], [], 0)

  const CONFLICT_409 := Response(409, "conflict")
  const ERROR_500 := Response(500, "api_error")

  function Say(s: State, a: Answer): State {
    s.(answers := s.answers + [a])
  }

  function Arrival(s: State, key: Key, hash: string, dbNow: int): State {
    var s' := s.(table := AfterClaim(s.table, key, hash, dbNow, s.now));
    match ClaimAnswer(s.table, key, hash, s.now)
    case Owned =>
      s'.(runs := s.runs[s.nextRun := Run(key, hash, dbNow + LEASE_SECONDS)], nextRun := s.nextRun + 1)
    case Replay(response) => Say(s', Answer(key, hash, response, FromReplay))
    case PayloadMismatch => Say(s', Answer(key, hash, CONFLICT_409, FromMiddleware))
    case InProgress => Say(s', Answer(key, hash, CONFLICT_409, FromMiddleware))
  }

  // The finalizing transaction alone: a status of 500 or more fails the row, anything else completes it.
  function Finalized(s: State, run: Run, response: Response): State {
    if response.status >= 500 then s.(table := AfterFail(s.table, run.key))
    else if InFlight(s.table, run.key) then
      s.(table := AfterComplete(s.table, run.key, response), completions := s.completions + [run.key])
    else s
  }

  predicate FinalizeSucceeds(s: State, run: Run, response: Response) {
    response.status >= 500 || InFlight(s.table, run.key)
  }

  function Finishing(s: State, id: nat, response: Response, fate: Fate): State
    requires id in s.runs
  {
    var run := s.runs[id];
    var left := s.(runs := s.runs - {id});
    var error := Answer(run.key, run.hash, ERROR_500, FromMiddleware);
    if !FinalizeSucceeds(s, run, response) then
      (if fate.Died? then left else Say(left, error))
    else
      match fate
      case Acknowledged => Say(Finalized(left, run, response), Answer(run.key, run.hash, response, FromRun))
      case CommitError(committed) => Say(if committed then Finalized(left, run, response) else left, error)
      case Died(committed) => if committed then Finalized(left, run, response) else left
  }

  function Step(s: State, e: Event): State {
    match e
    case Arrive(key, hash, dbNow) => Arrival(s, key, hash, dbNow)
    case Finish(id, response, fate) => if id in s.runs then Finishing(s, id, response, fate) else s
    case Crash(id) => s.(runs := s.runs - {id})
    case Tick(now) => if now >= s.now then s.(now := now) else s
  }

  function Exec(s: State, events: seq<Event>): State {
    if events == [] then s else Step(Exec(s, events[..|events| - 1]), events[|events| - 1])
  }

  // An answer that tells the client what the command did: below 500 from a run, or replayed.
  predicate Definite(a: Answer) {
    (a.source.FromRun? && a.response.status < 500) || a.source.FromReplay?
  }

  ghost predicate Agreement(s: State) {
    forall i, j :: 0 <= i < |s.answers| && 0 <= j < |s.answers|
                   && Definite(s.answers[i]) && Definite(s.answers[j]) && s.answers[i].key == s.answers[j].key
                   ==> s.answers[i].response == s.answers[j].response && s.answers[i].hash == s.answers[j].hash
  }

  // A definite answer repeats the completed row; a run works on the row's request body.
  predicate Backed(t: Table, a: Answer) {
    a.key in t && t[a.key] == Record(a.hash, Completed(a.response))
  }

  predicate Entitled(t: Table, run: Run) {
    run.key in t && t[run.key].hash == run.hash
  }

  ghost predicate CompletionsMatch(t: Table, done: seq<Key>) {
    && (forall i, j :: 0 <= i < j < |done| ==> done[i] != done[j])
    && (forall k :: k in done <==> k in t && t[k].phase.Completed?)
  }

  ghost predicate Inv(s: State) {
    && (forall i :: 0 <= i < |s.answers| && Definite(s.answers[i]) ==> Backed(s.table, s.answers[i]))
    && (forall id :: id in s.runs ==> Entitled(s.table, s.runs[id]))
    && CompletionsMatch(s.table, s.completions)
  }

  // Rows are never dropped, never change their request body, and never leave `completed`.
  ghost predicate Grows(t: Table, t': Table) {
    forall k :: k in t ==> k in t' && t'[k].hash == t[k].hash && (t[k].phase.Completed? ==> t'[k] == t[k])
  }

  lemma StepGrows(s: State, e: Event)
    ensures Grows(s.table, Step(s, e).table)
  {
    match e
    case Arrive(key, hash, dbNow) =>
    case Finish(id, response, fate) =>
      if id in s.runs {
        FinalizeGrows(s, s.runs[id], response);
      }
    case Crash(id) =>
    case Tick(now) =>
  }

  lemma FinalizeGrows(s: State, run: Run, response: Response)
    ensures Grows(s.table, Finalized(s, run, response).table)
  {
  }

  lemma GrowthKeepsBacking(s: State, t': Table)
    requires Inv(s) && Grows(s.table, t')
    ensures forall i :: 0 <= i < |s.answers| && Definite(s.answers[i]) ==> Backed(t', s.answers[i])
    ensures forall id :: id in s.runs ==> Entitled(t', s.runs[id])
  {
  }

  lemma StepKeepsCompletions(s: State, e: Event)
    requires CompletionsMatch(s.table, s.completions)
    ensures CompletionsMatch(Step(s, e).table, Step(s, e).completions)
  {
    match e
    case Arrive(key, hash, dbNow) =>
    case Finish(id, response, fate) =>
      if id in s.runs {
        FinalizeKeepsCompletions(s, s.runs[id], response);
      }
    case Crash(id) =>
    case Tick(now) =>
  }

  lemma FinalizeKeepsCompletions(s: State, run: Run, response: Response)
    requires CompletionsMatch(s.table, s.completions)
    ensures CompletionsMatch(Finalized(s, run, response).table, Finalized(s, run, response).completions)
  {
  }

  lemma StepBacksAnswer(s: State, e: Event)
    requires forall id :: id in s.runs ==> Entitled(s.table, s.runs[id])
    ensures var s' := Step(s, e);
            s'.answers == s.answers
            || exists a :: s'.answers == s.answers + [a] && (Definite(a) ==> Backed(s'.table, a))
  {
    match e
    case Arrive(key, hash, dbNow) =>
    case Finish(id, response, fate) =>
      if id in s.runs {
        assert Entitled(s.table, s.runs[id]);
      }
    case Crash(id) =>
    case Tick(now) =>
  }

  lemma StepKeepsRuns(s: State, e: Event)
    ensures var s' := Step(s, e);
            forall id :: id in s'.runs ==> (id in s.runs && s'.runs[id] == s.runs[id]) || Entitled(s'.table, s'.runs[id])
  {
  }

  lemma StepKeepsInv(s: State, e: Event)
    requires Inv(s)
    ensures Inv(Step(s, e))
  {
    var s' := Step(s, e);
    StepGrows(s, e);
    GrowthKeepsBacking(s, s'.table);
    StepKeepsCompletions(s, e);
    StepKeepsRuns(s, e);
    StepBacksAnswer(s, e);
    assert forall i :: 0 <= i < |s.answers| ==> s'.answers[i] == s.answers[i];
    StepBackingExtends(s, s');
  }

  lemma StepBackingExtends(s: State, s': State)
    requires forall i :: 0 <= i < |s.answers| && Definite(s.answers[i]) ==> Backed(s'.table, s.answers[i])
    requires s'.answers == s.answers
             || exists a :: s'.answers == s.answers + [a] && (Definite(a) ==> Backed(s'.table, a))
    ensures forall i :: 0 <= i < |s'.answers| && Definite(s'.answers[i]) ==> Backed(s'.table, s'.answers[i])
  {
  }

  lemma {:induction false} ExecKeepsInv(s: State, events: seq<Event>)
    requires Inv(s)
    ensures Inv(Exec(s, events))
  {
    if events != [] {
      ExecKeepsInv(s, events[..|events| - 1]);
      StepKeepsInv(Exec(s, events[..|events| - 1]), events[|events| - 1]);
    }
  }

  /** In every run, all definite answers for one key are the same response to the same request body,
      and no key is ever completed twice. */
  lemma AnswersAgree(events: seq<Event>)
    ensures Agreement(Exec(INIT, events))
    ensures var done := Exec(INIT, events).completions; forall i, j :: 0 <= i < j < |done| ==> done[i] != done[j]
  {
    ExecKeepsInv(INIT, events);
  }

  lemma {:induction false} ExecAppend(s: State, first: seq<Event>, rest: seq<Event>)
    ensures Exec(s, first + rest) == Exec(Exec(s, first), rest)
  {
    if rest == [] {
      assert first + rest == first;
    } else {
      assert (first + rest)[..|first + rest| - 1] == first + rest[..|rest| - 1];
      ExecAppend(s, first, rest[..|rest| - 1]);
    }
  }

  lemma {:induction false} ExecGrows(s: State, events: seq<Event>)
    ensures Grows(s.table, Exec(s, events).table)
  {
    if events != [] {
      ExecGrows(s, events[..|events| - 1]);
      StepGrows(Exec(s, events[..|events| - 1]), events[|events| - 1]);
    }
  }

  /** Once a definite answer went out, every later request for the same key and body that reaches the
      claim is answered by replaying exactly that response, whatever happened in between. */
  lemma AnswerIsFinal(before: seq<Event>, after: seq<Event>, n: nat, dbNow: int)
    requires n < |Exec(INIT, before).answers| && Definite(Exec(INIT, before).answers[n])
    ensures var a := Exec(INIT, before).answers[n];
            var late := Exec(INIT, before + after);
            Step(late, Arrive(a.key, a.hash, dbNow)) == Say(late, Answer(a.key, a.hash, a.response, FromReplay))
  {
    ExecKeepsInv(INIT, before);
    ExecAppend(INIT, before, after);
    var s := Exec(INIT, before);
    ExecGrows(s, after);
    assert Backed(s.table, s.answers[n]);
  }

  // ----- Retries -----

  // A request for this key and body; it is answered at once, or starts a run.
  predicate Asks(e: Event, key: Key, hash: string) {
    e.Arrive? && e.key == key && e.hash == hash
  }

  ghost predicate NoneAsks(events: seq<Event>, key: Key, hash: string) {
    forall i :: 0 <= i < |events| ==> !Asks(events[i], key, hash)
  }

  // A new run for this key and body, with a lease of half a minute.
  ghost predicate StartsRun(s: State, s': State, key: Key, hash: string, dbNow: int) {
    && s.nextRun !in s.runs
    && s'.runs == s.runs[s.nextRun := Run(key, hash, dbNow + 30)] && s'.nextRun == s.nextRun + 1 && s'.answers == s.answers
  }

  // Run numbers are not used twice.
  ghost predicate Numbered(s: State) {
    forall id :: id in s.runs ==> id < s.nextRun
  }

  lemma {:induction false} ExecIsNumbered(events: seq<Event>)
    ensures Numbered(Exec(INIT, events))
  {
    if events != [] {
      ExecIsNumbered(events[..|events| - 1]);
    }
  }

  /** A key that was never asked for starts a run. */
  lemma {:induction false} FirstRequestRuns(events: seq<Event>, key: Key, hash: string, dbNow: int)
    requires forall i, other :: 0 <= i < |events| ==> !Asks(events[i], key, other)
    ensures StartsRun(Exec(INIT, events), Step(Exec(INIT, events), Arrive(key, hash, dbNow)), key, hash, dbNow)
  {
    ExecIsNumbered(events);
    ExecKeepsInv(INIT, events);
    NeverAskedIsUnknown(events, key);
  }

  lemma {:induction false} NeverAskedIsUnknown(events: seq<Event>, key: Key)
    requires forall i, other :: 0 <= i < |events| ==> !Asks(events[i], key, other)
    ensures key !in Exec(INIT, events).table
  {
    if events != [] {
      var init, last := events[..|events| - 1], events[|events| - 1];
      NeverAskedIsUnknown(init, key);
      assert last.Arrive? ==> !Asks(last, key, last.hash);
    }
  }

  /** A run that ends with a status of 500 or more is answered with what it produced, whatever has become of its
      row; a stale one that ends below is answered with an error and leaves the row as it is. */
  lemma StaleRunsAnswer(events: seq<Event>, id: nat, response: Response)
    requires id in Exec(INIT, events).runs
    requires response.status >= 500 || !IsPending(Exec(INIT, events), id)
    ensures var s := Exec(INIT, events);
            var s', run := Step(s, Finish(id, response, Acknowledged)), s.runs[id];
            && s'.answers == s.answers + [if response.status >= 500 then Answer(run.key, run.hash, response, FromRun)
                                          else Answer(run.key, run.hash, Response(500, "api_error"), FromMiddleware)]
            && (!IsPending(s, id) ==> s'.table == s.table)
  {
  }

  // The row of a key and body whose last run has failed.
  predicate IsFailed(t: Table, key: Key, hash: string) {
    key in t && t[key] == Record(hash, Failed)
  }

  lemma {:induction false} FailedStays(s: State, events: seq<Event>, key: Key, hash: string)
    requires IsFailed(s.table, key, hash) && NoneAsks(events, key, hash)
    ensures IsFailed(Exec(s, events).table, key, hash)
  {
    if events != [] {
      var init, last := events[..|events| - 1], events[|events| - 1];
      FailedStays(s, init, key, hash);
      assert !Asks(last, key, hash);
    }
  }

  // The run's row is in progress.
  predicate IsPending(s: State, id: nat) {
    id in s.runs && s.runs[id].key in s.table && s.table[s.runs[id].key].phase.Processing?
  }

  lemma FailureIsStored(events: seq<Event>, id: nat, response: Response, fate: Fate)
    requires IsPending(Exec(INIT, events), id) && response.status >= 500
    requires fate.Acknowledged? || fate.committed
    ensures var s := Exec(INIT, events);
            IsFailed(Step(s, Finish(id, response, fate)).table, s.runs[id].key, s.runs[id].hash)
  {
    ExecKeepsInv(INIT, events);
    assert Entitled(Exec(INIT, events).table, Exec(INIT, events).runs[id]);
  }

  /** A failed run does not block its key: once a run has ended with a status of 500 or more while its row was
      in progress, the next request for that key and body runs the command again, whatever happens in between
      and whatever the clocks say. */
  lemma FailedKeyRunsAgain(before: seq<Event>, id: nat, response: Response, fate: Fate, between: seq<Event>, dbNow: int)
    requires var s := Exec(INIT, before);
             && IsPending(s, id) && response.status >= 500
             && (fate.Acknowledged? || fate.committed)
             && NoneAsks(between, s.runs[id].key, s.runs[id].hash)
    ensures var run := Exec(INIT, before).runs[id];
            var s := Exec(INIT, before + [Finish(id, response, fate)] + between);
            StartsRun(s, Step(s, Arrive(run.key, run.hash, dbNow)), run.key, run.hash, dbNow)
  {
    var run, e := Exec(INIT, before).runs[id], Finish(id, response, fate);
    FailureIsStored(before, id, response, fate);
    assert (before + [e])[..|before|] == before;
    ExecAppend(INIT, before + [e], between);
    FailedStays(Exec(INIT, before + [e]), between, run.key, run.hash);
    ExecIsNumbered(before + [e] + between);
  }

  // Nobody has finished the last run for this key and body, whose lease ends at `lease`.
  predicate IsLeasedUntil(t: Table, key: Key, hash: string, lease: int) {
    key in t && t[key] == Record(hash, Processing(Some(lease)))
  }

  // Only a run of the key can take its row out of progress, and only a request for it can lease it anew.
  ghost predicate NoneTouches(s: State, events: seq<Event>, key: Key, hash: string) {
    forall i :: 0 <= i < |events| ==>
                  && !Asks(events[i], key, hash)
                  && (events[i].Finish? ==> !IsRunOf(Exec(s, events[..i]), events[i].run, key))
  }

  predicate IsRunOf(s: State, id: nat, key: Key) {
    id in s.runs && s.runs[id].key == key
  }

  lemma {:induction false} LeaseStays(s: State, events: seq<Event>, key: Key, hash: string, lease: int)
    requires IsLeasedUntil(s.table, key, hash, lease) && NoneTouches(s, events, key, hash)
    ensures IsLeasedUntil(Exec(s, events).table, key, hash, lease)
  {
    if events != [] {
      var n := |events| - 1;
      forall i | 0 <= i < n
        ensures events[..n][i] == events[i] && events[..n][..i] == events[..i]
      {
      }
      LeaseStays(s, events[..n], key, hash, lease);
      assert !Asks(events[n], key, hash);
    }
  }

  /** Nor does a run that never ends: while the row is leased to it, a request for the key and body strictly
      after the lease runs the command again, and one within the lease is refused. */
  lemma CrashedKeyRunsAgainIff(before: seq<Event>, key: Key, hash: string, dbNow: int, between: seq<Event>, retryDb: int)
    requires StartsRun(Exec(INIT, before), Exec(INIT, before + [Arrive(key, hash, dbNow)]), key, hash, dbNow)
    requires NoneTouches(Exec(INIT, before + [Arrive(key, hash, dbNow)]), between, key, hash)
    ensures var s := Exec(INIT, before + [Arrive(key, hash, dbNow)] + between);
            var s' := Step(s, Arrive(key, hash, retryDb));
            if s.now > dbNow + 30 then StartsRun(s, s', key, hash, retryDb)
            else s' == Say(s, Answer(key, hash, CONFLICT_409, FromMiddleware))
  {
    var e := Arrive(key, hash, dbNow);
    assert (before + [e])[..|before|] == before;
    ExecAppend(INIT, before + [e], between);
    LeaseStays(Exec(INIT, before + [e]), between, key, hash, dbNow + 30);
    ExecIsNumbered(before + [e] + between);
  }

  // ----- Exclusion -----

  // No handler run has outlived its own lease.
  ghost predicate Timely(s: State) {
    forall id :: id in s.runs ==> s.now <= s.runs[id].lease
  }

  ghost predicate AlwaysTimely(s: State, events: seq<Event>) {
    Timely(Exec(s, events)) && (events == [] || AlwaysTimely(s, events[..|events| - 1]))
  }

  ghost predicate Exclusive(s: State) {
    forall id, other :: id in s.runs && other in s.runs && s.runs[id].key == s.runs[other].key ==> id == other
  }

  // Each run in flight is the one its row is leased to.
  ghost predicate Leased(s: State) {
    && (forall id :: id in s.runs ==> id < s.nextRun && HoldsLease(s.table, s.runs[id]))
    && Exclusive(s)
  }

  predicate HoldsLease(t: Table, run: Run) {
    run.key in t && t[run.key] == Record(run.hash, Processing(Some(run.lease)))
  }

  lemma ArrivalKeepsLeased(s: State, key: Key, hash: string, dbNow: int)
    requires Leased(s) && Timely(s)
    ensures Leased(Arrival(s, key, hash, dbNow))
  {
    if ClaimAnswer(s.table, key, hash, s.now).Owned? {
      forall id | id in s.runs
        ensures s.runs[id].key != key
      {
        assert HoldsLease(s.table, s.runs[id]);
      }
      var s' := Arrival(s, key, hash, dbNow);
      assert HoldsLease(s'.table, s'.runs[s.nextRun]);
    }
  }

  lemma FinishingKeepsLeased(s: State, id: nat, response: Response, fate: Fate)
    requires Leased(s) && id in s.runs
    ensures Leased(Finishing(s, id, response, fate))
  {
    var s' := Finishing(s, id, response, fate);
    assert s'.runs == s.runs - {id};
    forall other | other in s'.runs
      ensures HoldsLease(s'.table, s'.runs[other])
    {
      assert s.runs[other].key != s.runs[id].key;
    }
  }

  lemma StepKeepsLeased(s: State, e: Event)
    requires Leased(s) && Timely(s)
    ensures Leased(Step(s, e))
  {
    match e
    case Arrive(key, hash, dbNow) => ArrivalKeepsLeased(s, key, hash, dbNow);
    case Finish(id, response, fate) => if id in s.runs { FinishingKeepsLeased(s, id, response, fate); }
    case Crash(id) =>
    case Tick(now) =>
  }

  /** If every run finalizes (or dies) within its own lease, no key ever has two runs in flight, and a
      run that finalizes is never told that its claim is gone. */
  lemma {:induction false} TimelyRunsExclude(events: seq<Event>)
    requires AlwaysTimely(INIT, events)
    ensures Exclusive(Exec(INIT, events))
    ensures var s := Exec(INIT, events);
            forall id, response :: id in s.runs ==> FinalizeSucceeds(s, s.runs[id], response)
    ensures Leased(Exec(INIT, events))
  {
    if events != [] {
      TimelyRunsExclude(events[..|events| - 1]);
      StepKeepsLeased(Exec(INIT, events[..|events| - 1]), events[|events| - 1]);
    }
    var s := Exec(INIT, events);
    forall id, response | id in s.runs
      ensures FinalizeSucceeds(s, s.runs[id], response)
    {
      assert HoldsLease(s.table, s.runs[id]);
    }
  }

  /** Then the client of a run that ends is told what the run produced, and a run that ends below 500 completes
      the key. */
  lemma TimelyRunsAnswer(events: seq<Event>, id: nat, response: Response)
    requires AlwaysTimely(INIT, events) && id in Exec(INIT, events).runs
    ensures var s := Exec(INIT, events);
            var s' := Step(s, Finish(id, response, Acknowledged));
            && s'.answers == s.answers + [Answer(s.runs[id].key, s.runs[id].hash, response, FromRun)]
            && (response.status < 500 ==>
                  s'.table == s.table[s.runs[id].key := Record(s.runs[id].hash, Completed(response))])
  {
    TimelyRunsExclude(events);
    assert HoldsLease(Exec(INIT, events).table, Exec(INIT, events).runs[id]);
  }

  /** The exact condition: while one run holds the row, another request is given the claim as well if
      and only if it carries the same body and arrives strictly after the run's lease. */
  lemma SecondOwnerIff(s: State, id: nat, hash: string, dbNow: int)
    requires Leased(s) && id in s.runs
    ensures !Exclusive(Step(s, Arrive(s.runs[id].key, hash, dbNow)))
            <==> hash == s.runs[id].hash && s.runs[id].lease < s.now
  {
    var key := s.runs[id].key;
    assert HoldsLease(s.table, s.runs[id]);
    var s' := Step(s, Arrive(key, hash, dbNow));
    if ClaimAnswer(s.table, key, hash, s.now).Owned? {
      assert s'.runs[id].key == s'.runs[s.nextRun].key;
    } else {
      assert s'.runs == s.runs;
    }
  }

  /** Such an overlap is reachable, and the later completion is then refused, not merged. */
  lemma StaleOwnerOverlaps(k: Key, hash: string, first: Response, second: Response)
    requires first.status < 500 && second.status < 500
    ensures var s := Exec(INIT, [Arrive(k, hash, 0), Tick(31), Arrive(k, hash, 31)]);
            && !Exclusive(s)
            && Step(Step(s, Finish(0, first, Acknowledged)), Finish(1, second, Acknowledged)).answers
               == [Answer(k, hash, first, FromRun), Answer(k, hash, ERROR_500, FromMiddleware)]
  {
    var e0, e1, e2 := Arrive(k, hash, 0), Tick(31), Arrive(k, hash, 31);
    assert [e0, e1, e2][..2] == [e0, e1] && [e0, e1][..1] == [e0] && [e0][..0] == [];
    var s1 := Step(INIT, e0);
    assert Exec(INIT, [e0]) == s1;
    var s2 := Step(s1, e1);
    assert Exec(INIT, [e0, e1]) == s2;
    var s3 := Step(s2, e2);
    assert Exec(INIT, [e0, e1, e2]) == s3;
    assert s3.runs[0].key == s3.runs[1].key;
  }

  /** The middleware itself, run without interference: claim, run the handler, finalize, reply. It is
      the arrival followed by an acknowledged finish. */
  method Serve(store: IdempotencyStore, k: Key, hash: string, produced: Response, dbNow: int, appNow: int)
    returns (reply: Response)
    modifies store
    ensures var s := State(old(store.records), map[], 0, [], [], appNow);
            var s' := Step(Step(s, Arrive(k, hash, dbNow)), Finish(0, produced, Acknowledged));
            store.records == s'.table && |s'.answers| == 1 && s'.answers[0].response == reply
  {
    var claim := store.ClaimIdempotency(k, hash, dbNow, appNow);
    match claim
    case PayloadMismatch => return CONFLICT_409;
    case InProgress => return CONFLICT_409;
    case Replay(response) => return response;
    case Owned =>
      if produced.status >= 500 {
        store.FailIdempotency(k);
      } else {
        var ok := store.CompleteIdempotency(k, produced);
        if !ok {
          return ERROR_500;
        }
      }
      return produced;
  }
}
