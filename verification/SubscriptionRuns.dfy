/** What any sequence of billing steps keeps, and exactly which steps break what it should. */
module SubscriptionRuns {
  import opened Indexes
  import opened Memory
  import opened Statuses
  import opened SubscriptionSteps
  import opened Subscriptions
  import opened Wrappers

  // ----- Counting the steps of a run -----

  // How many steps of a run satisfy `p` in the state they find.
  function Times(events: seq<Event>, p: (State, Event) -> bool): nat {
    if events == [] then 0
    else
      var init := events[..|events| - 1];
      Times(init, p) + if p(Exec(init), events[|events| - 1]) then 1 else 0
  }

  lemma ExecStep(events: seq<Event>, e: Event)
    ensures Exec(events + [e]) == Step(Exec(events), e)
  {
    assert (events + [e])[..|events|] == events;
  }

  // ----- Registrations -----

  // A save-card notification for this subscription, which is found, and the gateway does not refuse.
  predicate IsSavedCardOf(s: State, e: Event, id: string) {
    && e.SaveCard? && e.fates.findSubscription && !e.answer.Refused? && AnswerIsFresh(s, e.answer)
    && id in s.book.subscriptions.rows && s.book.subscriptions.rows[id].authIntent == e.authIntent
  }

  // The gateway registers a schedule for this subscription.
  predicate Registers(s: State, e: Event, id: string) {
    IsSavedCardOf(s, e, id) && s.book.subscriptions.rows[id].gatewayId == ""
  }

  // It does, and the store learns of it: its answer arrives, and the write of the subscription succeeds.
  predicate Activates(s: State, e: Event, id: string) {
    Registers(s, e, id) && e.answer.Registered? && e.fates.putSubscription
  }

  function Registering(id: string): (State, Event) -> bool {
    (s: State, e: Event) => Registers(s, e, id)
  }

  // A registration that the store does not learn of.
  function Losing(id: string): (State, Event) -> bool {
    (s: State, e: Event) => Registers(s, e, id) && !Activates(s, e, id)
  }

  lemma RegistersIff(s: State, e: Event, id: string)
    requires Inv(s)
    ensures Registers(s, e, id) && e.answer.Registered? <==> ToActivate(s, e).Some? && ToActivate(s, e).value.id == id
    ensures Registers(s, e, id) && e.answer.Registered? ==> ToActivate(s, e) == Some(s.book.subscriptions.rows[id])
  {
    if ToActivate(s, e).Some? {
      TargetIsStored(s, e);
    }
    if Registers(s, e, id) {
      assert SubscriptionOk(s, id, s.book.subscriptions.rows[id]);
      assert Lookup(ByAuth(s.book.subscriptions), e.authIntent) == Some(s.book.subscriptions.rows[id]);
    }
  }

  lemma StepGivesScheduleIff(s: State, e: Event, id: string)
    requires Inv(s)
    ensures HasSchedule(Step(s, e).book, id)
            <==> HasSchedule(s.book, id) || Activates(s, e, id)
  {
    StepDoes(s, e);
    RegistersIff(s, e, id);
    ScheduleIsStoredIff(s, e, Step(s, e), id);
  }

  /** The gateway registers a subscription once for every registration that the store did not learn of, and
      once more if a gateway id is stored; so at most once where no answer is lost and no such write fails. */
  lemma {:induction false} RegisteredOncePlusLost(events: seq<Event>, id: string)
    ensures Times(events, Registering(id))
            == Times(events, Losing(id)) + if HasSchedule(Exec(events).book, id) then 1 else 0
  {
    if events != [] {
      var init, last := events[..|events| - 1], events[|events| - 1];
      RegisteredOncePlusLost(init, id);
      ExecKeepsInv(init);
      StepGivesScheduleIff(Exec(init), last, id);
    }
  }

  /** The exact condition for a further registration: the store learned of none of the earlier ones. */
  lemma RegistersAgainIff(events: seq<Event>, e: Event, id: string)
    requires IsSavedCardOf(Exec(events), e, id)
    ensures Registers(Exec(events), e, id) <==> Times(events, Registering(id)) == Times(events, Losing(id))
  {
    RegisteredOncePlusLost(events, id);
  }

  // ----- The first invoice -----

  predicate IsPaid(b: Book, invoice: string) {
    invoice in b.invoices.rows && b.invoices.rows[invoice].status == PAID
  }

  // A step gets as far as paying this invoice: the first one of an activation, or the one of a new cycle.
  predicate Settles(s: State, e: Event, invoice: string) {
    || (ToActivate(s, e).Some? && ToActivate(s, e).value.latestInvoice == invoice
        && e.fates.findInvoice && invoice in s.book.invoices.rows)
    || (ToCharge(s, e).Some? && e.freshId == invoice)
  }

  predicate Pays(s: State, e: Event, invoice: string) {
    Settles(s, e, invoice) && e.fates.putInvoice
  }

  predicate Announces(s: State, e: Event, invoice: string) {
    Settles(s, e, invoice) && e.fates.queueInvoice
  }

  lemma SettlesIff(s: State, e: Event, invoice: string)
    requires InvoicesOk(s)
    ensures Settles(s, e, invoice) <==> !e.Create? && InvoiceToPut(s, e).Some? && InvoiceToPut(s, e).value.id == invoice
    ensures InvoiceToPut(s, e).Some? ==> (InvoiceToPut(s, e).value.status == PAID <==> !e.Create?)
  {
  }

  lemma StepPaysIff(s: State, e: Event, invoice: string)
    requires Inv(s)
    ensures IsPaid(Step(s, e).book, invoice) <==> IsPaid(s.book, invoice) || Pays(s, e, invoice)
  {
    StepDoes(s, e);
    SettlesIff(s, e, invoice);
    if InvoiceToPut(s, e).Some? {
      InvoiceIsNewOrPaid(s, e, Step(s, e));
    }
  }

  lemma StepKeepsFirstInvoice(s: State, e: Event, id: string)
    requires Inv(s) && id in s.book.subscriptions.rows
    ensures id in Step(s, e).book.subscriptions.rows
    ensures Step(s, e).book.subscriptions.rows[id].latestInvoice == s.book.subscriptions.rows[id].latestInvoice
  {
    StepDoes(s, e);
    if SubscriptionPut(s, e).Some? {
      PutIsNewOrUpdate(s, e, Step(s, e));
      assert SubscriptionOk(s, id, s.book.subscriptions.rows[id]);
    }
  }

  // Nothing but its own activation pays the first invoice of a subscription.
  lemma OnlyActivationPaysFirst(s: State, e: Event, id: string)
    requires Inv(s) && id in s.book.subscriptions.rows && Settles(s, e, s.book.subscriptions.rows[id].latestInvoice)
    ensures Registers(s, e, id)
  {
    assert SubscriptionOk(s, id, s.book.subscriptions.rows[id]);
    if ToActivate(s, e).Some? {
      TargetIsStored(s, e);
    }
    RegistersIff(s, e, id);
  }

  predicate FirstInvoicePaid(b: Book, id: string) {
    HasSchedule(b, id) ==> IsPaid(b, b.subscriptions.rows[id].latestInvoice)
  }

  // The activation is stored, but its first invoice is neither paid by now nor paid by this step, because it
  // is missing, cannot be read, or cannot be written.
  predicate LeavesUnpaid(s: State, e: Event, id: string) {
    && Activates(s, e, id)
    && var invoice := s.book.subscriptions.rows[id].latestInvoice;
       && !IsPaid(s.book, invoice)
       && !(invoice in s.book.invoices.rows && e.fates.findInvoice && e.fates.putInvoice)
  }

  function LeavingUnpaid(id: string): (State, Event) -> bool {
    (s: State, e: Event) => LeavesUnpaid(s, e, id)
  }

  lemma StepKeepsFirstPaidIff(s: State, e: Event, id: string)
    requires Inv(s)
    ensures FirstInvoicePaid(Step(s, e).book, id) <==> FirstInvoicePaid(s.book, id) && !LeavesUnpaid(s, e, id)
  {
    StepGivesScheduleIff(s, e, id);
    if id in s.book.subscriptions.rows {
      var invoice := s.book.subscriptions.rows[id].latestInvoice;
      StepKeepsFirstInvoice(s, e, id);
      StepPaysIff(s, e, invoice);
      RegistersIff(s, e, id);
      if Settles(s, e, invoice) {
        OnlyActivationPaysFirst(s, e, id);
      }
    }
  }

  /** An active subscription has a gateway id, and its first invoice is paid exactly if no activation of it
      was stored without the invoice being paid. */
  lemma ActiveMeansPaidIff(events: seq<Event>, id: string)
    requires id in Exec(events).book.subscriptions.rows && Exec(events).book.subscriptions.rows[id].status == ACTIVE
    ensures var b := Exec(events).book;
            && b.subscriptions.rows[id].gatewayId != ""
            && (IsPaid(b, b.subscriptions.rows[id].latestInvoice) <==> Times(events, LeavingUnpaid(id)) == 0)
  {
    ExecKeepsInv(events);
    assert SubscriptionOk(Exec(events), id, Exec(events).book.subscriptions.rows[id]);
    FirstInvoicePaidIff(events, id);
  }

  lemma {:induction false} FirstInvoicePaidIff(events: seq<Event>, id: string)
    ensures FirstInvoicePaid(Exec(events).book, id) <==> Times(events, LeavingUnpaid(id)) == 0
  {
    if events != [] {
      var init, last := events[..|events| - 1], events[|events| - 1];
      FirstInvoicePaidIff(init, id);
      ExecKeepsInv(init);
      StepKeepsFirstPaidIff(Exec(init), last, id);
    }
  }

  /** A first invoice that is unpaid when its subscription has a schedule stays unpaid for good, in every
      continuation of the run. */
  lemma {:induction false} UnpaidForGood(events: seq<Event>, more: seq<Event>, id: string)
    requires HasSchedule(Exec(events).book, id) && !FirstInvoicePaid(Exec(events).book, id)
    ensures var b, b' := Exec(events).book, Exec(events + more).book;
            && HasSchedule(b', id) && !FirstInvoicePaid(b', id)
            && b'.subscriptions.rows[id].latestInvoice == b.subscriptions.rows[id].latestInvoice
  {
    if more == [] {
      assert events + more == events;
    } else {
      var init, last := more[..|more| - 1], more[|more| - 1];
      assert events + more == events + init + [last];
      UnpaidForGood(events, init, id);
      ExecStep(events + init, last);
      ExecKeepsInv(events + init);
      StepKeepsFirstInvoice(Exec(events + init), last, id);
      StepGivesScheduleIff(Exec(events + init), last, id);
      StepKeepsFirstPaidIff(Exec(events + init), last, id);
    }
  }

  // ----- Payment events -----

  function Announcing(invoice: string): (State, Event) -> bool {
    (s: State, e: Event) => Announces(s, e, invoice)
  }

  function Paying(invoice: string): (State, Event) -> bool {
    (s: State, e: Event) => Pays(s, e, invoice)
  }

  lemma StepQueues(s: State, e: Event, invoice: string)
    requires Inv(s)
    ensures PaidEvents(Step(s, e).book.queue, invoice)
            == PaidEvents(s.book.queue, invoice) + if Announces(s, e, invoice) then 1 else 0
  {
    StepDoes(s, e);
    SettlesIff(s, e, invoice);
  }

  /** An invoice has as many payment events as steps settled it with the event landing, and it is paid
      exactly if one settled it with the invoice landing. */
  lemma {:induction false} EventsAreAnnounced(events: seq<Event>, invoice: string)
    ensures PaidEvents(Exec(events).book.queue, invoice) == Times(events, Announcing(invoice))
    ensures IsPaid(Exec(events).book, invoice) <==> Times(events, Paying(invoice)) > 0
  {
    if events != [] {
      var init, last := events[..|events| - 1], events[|events| - 1];
      EventsAreAnnounced(init, invoice);
      ExecKeepsInv(init);
      StepQueues(Exec(init), last, invoice);
      StepPaysIff(Exec(init), last, invoice);
    }
  }

  // A paid invoice has one payment event, any other has none.
  predicate OneEventIfPaid(b: Book, invoice: string) {
    PaidEvents(b.queue, invoice) == if IsPaid(b, invoice) then 1 else 0
  }

  // An unpaid invoice gets only one of status and event, or a paid one a second event.
  predicate IsUneven(s: State, e: Event, invoice: string) {
    if IsPaid(s.book, invoice) then Announces(s, e, invoice) else Pays(s, e, invoice) != Announces(s, e, invoice)
  }

  /** The exact condition for a step to keep one event for a paid invoice and none for any other. */
  lemma StepKeepsOneEventIff(events: seq<Event>, e: Event, invoice: string)
    requires OneEventIfPaid(Exec(events).book, invoice)
    ensures OneEventIfPaid(Step(Exec(events), e).book, invoice) <==> !IsUneven(Exec(events), e, invoice)
  {
    ExecKeepsInv(events);
    StepQueues(Exec(events), e, invoice);
    StepPaysIff(Exec(events), e, invoice);
  }

  // ----- References -----

  predicate IsRecorded(b: Book, reference: string) {
    exists id :: id in b.invoices.rows && b.invoices.rows[id].intent == reference
  }

  predicate ReferencesUnique(b: Book) {
    forall i, j :: i in b.invoices.rows && j in b.invoices.rows && i != j ==>
                     b.invoices.rows[i].intent == "" || b.invoices.rows[i].intent != b.invoices.rows[j].intent
  }

  // A cycle is recorded although its reference is recorded already, because the lookup of the reference fails.
  predicate RecordsAgain(s: State, e: Event) {
    ToCharge(s, e).Some? && IsRecorded(s.book, e.reference) && !e.fates.findInvoice && e.fates.putInvoice
  }

  function RecordingAgain(): (State, Event) -> bool {
    (s: State, e: Event) => RecordsAgain(s, e)
  }

  lemma RecordedIff(s: State, reference: string)
    requires Inv(s) && reference != ""
    ensures IsRecorded(s.book, reference) <==> Lookup(s.book.invoices, reference).Some?
  {
    if IsRecorded(s.book, reference) {
      var id :| id in s.book.invoices.rows && s.book.invoices.rows[id].intent == reference;
    }
  }

  // An invoice keeps its reference for good.
  lemma StepKeepsReference(s: State, e: Event, id: string)
    requires Inv(s) && id in s.book.invoices.rows
    ensures id in Step(s, e).book.invoices.rows
    ensures Step(s, e).book.invoices.rows[id].intent == s.book.invoices.rows[id].intent
  {
    StepDoes(s, e);
    if InvoiceToPut(s, e).Some? {
      InvoiceIsNewOrPaid(s, e, Step(s, e));
    }
  }

  // A new invoice has a reference of its own, unless the step records one again.
  lemma AddedReference(s: State, e: Event)
    requires Inv(s) && InvoiceToPut(s, e).Some? && !e.SaveCard?
    ensures InvoiceToPut(s, e).value.intent != ""
    ensures IsRecorded(s.book, InvoiceToPut(s, e).value.intent) && e.fates.putInvoice ==> RecordsAgain(s, e)
  {
    RecordedIff(s, InvoiceToPut(s, e).value.intent);
  }

  lemma RepeatedStaysRepeated(s: State, e: Event)
    requires Inv(s) && ReferencesUnique(Step(s, e).book)
    ensures ReferencesUnique(s.book)
  {
    forall i, j | i in s.book.invoices.rows && j in s.book.invoices.rows && i != j
      ensures s.book.invoices.rows[i].intent == "" || s.book.invoices.rows[i].intent != s.book.invoices.rows[j].intent
    {
      StepKeepsReference(s, e, i);
      StepKeepsReference(s, e, j);
    }
  }

  lemma RecordingAgainRepeats(s: State, e: Event)
    requires Inv(s) && RecordsAgain(s, e)
    ensures !ReferencesUnique(Step(s, e).book)
  {
    var id :| id in s.book.invoices.rows && s.book.invoices.rows[id].intent == e.reference;
    StepDoes(s, e);
    StepKeepsReference(s, e, id);
    assert e.freshId in Step(s, e).book.invoices.rows;
  }

  lemma OtherwiseStaysUnique(s: State, e: Event)
    requires Inv(s) && ReferencesUnique(s.book) && !RecordsAgain(s, e)
    ensures ReferencesUnique(Step(s, e).book)
  {
    StepDoes(s, e);
    if InvoicePut(s, e).Some? {
      InvoiceIsNewOrPaid(s, e, Step(s, e));
      if !e.SaveCard? {
        AddedReference(s, e);
      }
    }
  }

  lemma StepKeepsUniqueIff(s: State, e: Event)
    requires Inv(s)
    ensures ReferencesUnique(Step(s, e).book) <==> ReferencesUnique(s.book) && !RecordsAgain(s, e)
  {
    if RecordsAgain(s, e) {
      RecordingAgainRepeats(s, e);
    } else if ReferencesUnique(s.book) {
      OtherwiseStaysUnique(s, e);
    } else if ReferencesUnique(Step(s, e).book) {
      RepeatedStaysRepeated(s, e);
    }
  }

  /** Each payment reference has at most one invoice, exactly if no step of the run recorded a recorded
      reference again; and that takes a failed lookup of the reference. */
  lemma {:induction false} OneInvoicePerReferenceIff(events: seq<Event>)
    ensures ReferencesUnique(Exec(events).book) <==> Times(events, RecordingAgain()) == 0
  {
    if events != [] {
      var init, last := events[..|events| - 1], events[|events| - 1];
      OneInvoicePerReferenceIff(init);
      ExecKeepsInv(init);
      StepKeepsUniqueIff(Exec(init), last);
    }
  }

  // ----- Canceled subscriptions -----

  /** The exact condition: in every reachable state, a step takes a canceled subscription out of its status if
      and only if it is a save-card notification that activates it, for which it must have no schedule yet. The
      guard of activation does not look at `canceled`. */
  lemma CanceledReopensIff(events: seq<Event>, e: Event, id: string)
    requires id in Exec(events).book.subscriptions.rows && Exec(events).book.subscriptions.rows[id].status == CANCELED
    ensures var s, rows := Exec(events), Step(Exec(events), e).book.subscriptions.rows;
            && id in rows
            && (rows[id].status != CANCELED <==> Activates(s, e, id))
  {
    var s := Exec(events);
    ExecKeepsInv(events);
    StepDoes(s, e);
    RegistersIff(s, e, id);
    assert SubscriptionOk(s, id, s.book.subscriptions.rows[id]);
    if SubscriptionPut(s, e).Some? {
      PutIsNewOrUpdate(s, e, Step(s, e));
    }
  }

  // ----- Runs that fall short -----

  const IDS := Ids("sub", "pi", "in")

  const CREATED := [Create(IDS, "acc", 100, "", ALL_LAND)]

  function Card(gatewayId: string, fates: Fates): Event {
    SaveCard("pi", Registered(gatewayId, 0), fates)
  }

  lemma CreatedRun()
    ensures var s := Exec(CREATED);
            && s.book.subscriptions.rows == map["sub" := NewSubscription(IDS, "acc", 100)]
            && s.book.subscriptions.byAuth == map["pi" := "sub"] && s.book.subscriptions.byGateway == map[]
            && s.book.invoices.rows == map["in" := NewInvoice(IDS, "acc", 100)]
            && s.book.invoices.index == map["pi" := "in"]
            && (forall id :: PaidEvents(s.book.queue, id) == 0)
            && s.drawn == {"sub", "pi", "in"} && s.schedules == {}
  {
    assert CREATED[..0] == [];
    StepDoes(INIT, CREATED[0]);
  }

  /** It is reachable: created, canceled while still incomplete, and activated by a late notification. */
  lemma CanceledCanStillActivate(gatewayId: string, now: int)
    requires gatewayId != ""
    ensures var canceled := Exec(CREATED + [Delete("acc", "sub", false, now, ALL_LAND)]);
            var late := Exec(CREATED + [Delete("acc", "sub", false, now, ALL_LAND)] + [Card(gatewayId, ALL_LAND)]);
            && "sub" in canceled.book.subscriptions.rows && canceled.book.subscriptions.rows["sub"].status == CANCELED
            && "sub" in late.book.subscriptions.rows && late.book.subscriptions.rows["sub"].status != CANCELED
  {
    CreatedRun();
    var delete, card := Delete("acc", "sub", false, now, ALL_LAND), Card(gatewayId, ALL_LAND);
    ExecStep(CREATED, delete);
    ExecStep(CREATED + [delete], card);
    StepDoes(Exec(CREATED), delete);
    CanceledReopensIff(CREATED + [delete], card, "sub");
  }

  /** It is reachable: the process dies between the stored activation and the first invoice. */
  lemma ActivationCanBeCutShort(gatewayId: string)
    requires gatewayId != ""
    ensures var dies := Fates(true, true, false, true, true, false, false, false);
            var s := Exec(CREATED + [Card(gatewayId, dies)]);
            && "sub" in s.book.subscriptions.rows && s.book.subscriptions.rows["sub"].status == ACTIVE
            && "in" in s.book.invoices.rows && s.book.invoices.rows["in"].status == OPEN
            && PaidEvents(s.book.queue, "in") == 0
  {
    var card := Card(gatewayId, Fates(true, true, false, true, true, false, false, false));
    CreatedRun();
    ExecStep(CREATED, card);
    StepDoes(Exec(CREATED), card);
  }

  /** It is reachable: the write of the first invoice fails, so that the subscription is active, its invoice
      open, and the event of its payment queued. */
  lemma OpenInvoiceIsAnnounced(gatewayId: string)
    requires gatewayId != ""
    ensures var s := Exec(CREATED + [Card(gatewayId, ALL_LAND.(putInvoice := false))]);
            && "sub" in s.book.subscriptions.rows && s.book.subscriptions.rows["sub"].status == ACTIVE
            && "in" in s.book.invoices.rows && s.book.invoices.rows["in"].status == OPEN
            && PaidEvents(s.book.queue, "in") == 1
  {
    var card := Card(gatewayId, ALL_LAND.(putInvoice := false));
    CreatedRun();
    ExecStep(CREATED, card);
    StepDoes(Exec(CREATED), card);
  }

  /** It is reachable: the write of the activated subscription fails while the handler goes on. The next
      notification registers a second schedule and queues a second event for the one paid invoice. */
  lemma LostWriteRegistersAgain(first: string, second: string)
    requires first != "" && second != "" && first != second
    ensures var events := CREATED + [Card(first, ALL_LAND.(putSubscription := false))] + [Card(second, ALL_LAND)];
            && Times(events, Registering("sub")) == 2
            && PaidEvents(Exec(events).book.queue, "in") == 2 && IsPaid(Exec(events).book, "in")
  {
    var card, again := Card(first, ALL_LAND.(putSubscription := false)), Card(second, ALL_LAND);
    CreatedRun();
    ExecStep(CREATED, card);
    StepDoes(Exec(CREATED), card);
    ExecStep(CREATED + [card], again);
    StepDoes(Exec(CREATED + [card]), again);
    TimesStep(CREATED, card, Registering("sub"));
    TimesStep(CREATED + [card], again, Registering("sub"));
    assert CREATED[..0] == [];
  }

  lemma TimesStep(events: seq<Event>, e: Event, p: (State, Event) -> bool)
    ensures Times(events + [e], p) == Times(events, p) + if p(Exec(events), e) then 1 else 0
  {
    assert (events + [e])[..|events|] == events;
  }

  lemma ActivatedRun(gatewayId: string)
    requires gatewayId != ""
    ensures var s := Exec(CREATED + [Card(gatewayId, ALL_LAND)]);
            && Lookup(ByGateway(s.book.subscriptions), gatewayId).Some?
            && s.book.invoices.index == map["pi" := "in"] && s.drawn == {"sub", "pi", "in"}
            && (forall id :: id != "in" ==> id !in s.book.invoices.rows && PaidEvents(s.book.queue, id) == 0)
  {
    var s, card := Exec(CREATED), Card(gatewayId, ALL_LAND);
    CreatedRun();
    ExecStep(CREATED, card);
    StepDoes(s, card);
    assert InvoicePut(s, card) == Some(s.book.invoices.rows["in"].(status := PAID));
    assert SubscriptionPut(s, card) == Some(Activated(NewSubscription(IDS, "acc", 100), gatewayId, 0));
  }

  // A cycle that is taken for a new one, with everything it writes.
  lemma ChargedRun(s: State, e: Event)
    requires ToCharge(s, e).Some? && e.fates.putInvoice && e.fates.queueInvoice && PaidEvents(s.book.queue, e.freshId) == 0
    ensures var b := Step(s, e).book;
            && b.subscriptions == s.book.subscriptions
            && IsPaid(b, e.freshId) && b.invoices.rows[e.freshId].intent == e.reference && PaidEvents(b.queue, e.freshId) == 1
            && (forall id :: id != e.freshId ==> PaidEvents(b.queue, id) == PaidEvents(s.book.queue, id))
            && (forall id :: id != e.freshId && id in s.book.invoices.rows ==>
                               id in b.invoices.rows && b.invoices.rows[id] == s.book.invoices.rows[id])
            && Step(s, e).drawn == s.drawn + {e.freshId}
  {
    StepDoes(s, e);
  }

  lemma ChargedOnce(gatewayId: string, reference: string, first: string)
    requires gatewayId != "" && reference != "" && reference != "pi" && first !in {"sub", "pi", "in"}
    ensures var s := Exec(CREATED + [Card(gatewayId, ALL_LAND)] + [Charge(gatewayId, reference, 0, first, ALL_LAND)]);
            && Lookup(ByGateway(s.book.subscriptions), gatewayId).Some?
            && IsPaid(s.book, first) && s.book.invoices.rows[first].intent == reference
            && PaidEvents(s.book.queue, first) == 1 && s.drawn == {"sub", "pi", "in"} + {first}
            && (forall id :: id != "in" && id != first ==> PaidEvents(s.book.queue, id) == 0)
  {
    var events, charge := CREATED + [Card(gatewayId, ALL_LAND)], Charge(gatewayId, reference, 0, first, ALL_LAND);
    ActivatedRun(gatewayId);
    ChargedRun(Exec(events), charge);
    ExecStep(events, charge);
  }

  /** It is reachable: the lookup of a recorded reference fails, and the repeated notification of one billing
      cycle writes a second paid invoice with a second event. */
  lemma LostLookupRecordsAgain(gatewayId: string, reference: string, first: string, second: string)
    requires gatewayId != "" && reference != "" && reference != "pi"
    requires first != second && first !in {"sub", "pi", "in"} && second !in {"sub", "pi", "in"}
    ensures var events := CREATED + [Card(gatewayId, ALL_LAND)] + [Charge(gatewayId, reference, 0, first, ALL_LAND)]
                          + [Charge(gatewayId, reference, 0, second, ALL_LAND.(findInvoice := false))];
            var b := Exec(events).book;
            && IsPaid(b, first) && b.invoices.rows[first].intent == reference && PaidEvents(b.queue, first) == 1
            && IsPaid(b, second) && b.invoices.rows[second].intent == reference && PaidEvents(b.queue, second) == 1
  {
    var events := CREATED + [Card(gatewayId, ALL_LAND)] + [Charge(gatewayId, reference, 0, first, ALL_LAND)];
    var again := Charge(gatewayId, reference, 0, second, ALL_LAND.(findInvoice := false));
    ChargedOnce(gatewayId, reference, first);
    ChargedRun(Exec(events), again);
    ExecStep(events, again);
  }
}
