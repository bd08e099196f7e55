/**
 The steps of recurring billing: create, save-card, cycle and cancel, in which any lookup and any write may
 fail and the process may die at any point. Ids the program draws at random are fresh, and so are the gateway
 ids of newly registered schedules.
 */
module SubscriptionSteps {
  import opened Indexes
  import opened Memory
  import opened Statuses
  import opened Subscriptions
  import opened Wrappers

  datatype Event =
    | Create(ids: Ids, account: string, amount: int, gatewayReference: string, fates: Fates)
    | SaveCard(authIntent: string, answer: Registration, fates: Fates)
    | Charge(gatewayId: string, reference: string, amount: int, freshId: string, fates: Fates)
    | Delete(account: string, id: string, gatewayAccepts: bool, now: int, fates: Fates)

  // `drawn` are the ids drawn so far, `schedules` the gateway ids given out so far.
  datatype State = State(book: Book, drawn: set<string>, schedules: set<string>)

  const INIT := State(EMPTY_BOOK, {}, {})

  predicate CreateIsFresh(s: State, ids: Ids) {
    && ids.subscription !in s.drawn && ids.intent !in s.drawn && ids.invoice !in s.drawn
    && ids.intent != "" && ids.intent !in s.book.invoices.index
  }

  predicate AnswerIsFresh(s: State, answer: Registration) {
    answer.Registered? ==> answer.gatewayId != "" && answer.gatewayId !in s.schedules
  }

  // The subscription that a save-card notification activates, if any.
  function Target(b: Book, authIntent: string, fates: Fates): Option<Subscription> {
    var sub := Found(Lookup(ByAuth(b.subscriptions), authIntent), fates.findSubscription);
    if sub.Some? && Registrable(sub.value) then sub else None
  }

  function SaveCardStep(s: State, authIntent: string, answer: Registration, fates: Fates): State {
    var s1 := s.(book := Activate(s.book, authIntent, answer, fates));
    var target := Target(s.book, authIntent, fates);
    if target.None? || !answer.Registered? then s1 else s1.(schedules := s.schedules + {answer.gatewayId})
  }

  function Step(s: State, e: Event): State {
    match e
    case Create(ids, account, amount, gatewayReference, fates) =>
      if CreateIsFresh(s, ids) then
        s.(book := Created(s.book, ids, account, amount, gatewayReference, fates), drawn := s.drawn + DrawnBy(e))
      else s
    case SaveCard(authIntent, answer, fates) =>
      if AnswerIsFresh(s, answer) then SaveCardStep(s, authIntent, answer, fates) else s
    case Charge(gatewayId, reference, amount, freshId, fates) =>
      if reference != "" && freshId !in s.drawn then
        s.(book := Cycle(s.book, gatewayId, reference, amount, freshId, fates), drawn := s.drawn + DrawnBy(e))
      else s
    case Delete(account, id, gatewayAccepts, now, fates) =>
      s.(book := Cancel(s.book, account, id, gatewayAccepts, now, fates))
  }

  function DrawnBy(e: Event): set<string> {
    if e.Create? then {e.ids.subscription, e.ids.intent, e.ids.invoice}
    else if e.Charge? then {e.freshId}
    else {}
  }

  function Exec(events: seq<Event>): State {
    if events == [] then INIT else Step(Exec(events[..|events| - 1]), events[|events| - 1])
  }

  // How many payment events an invoice has in the queue.
  function PaidEvents(queue: seq<Queued>, id: string): nat {
    if queue == [] then 0
    else
      var last := queue[|queue| - 1];
      PaidEvents(queue[..|queue| - 1], id) + if last.eventType == PAYMENT_SUCCEEDED && last.reference == id then 1 else 0
  }

  lemma PaidEventsAppend(queue: seq<Queued>, q: Queued, id: string)
    ensures PaidEvents(queue + [q], id)
            == PaidEvents(queue, id) + if q.eventType == PAYMENT_SUCCEEDED && q.reference == id then 1 else 0
  {
    assert (queue + [q])[..|queue|] == queue;
  }

  // ----- What a step writes -----

  // The subscription that is activated in this step, because the gateway answers with its new schedule.
  function ToActivate(s: State, e: Event): Option<Subscription> {
    if e.SaveCard? && e.answer.Registered? && AnswerIsFresh(s, e.answer) then Target(s.book, e.authIntent, e.fates)
    else None
  }

  // The subscription whose new billing cycle is recorded in this step.
  function ToCharge(s: State, e: Event): Option<Subscription> {
    if e.Charge? && e.reference != "" && e.freshId !in s.drawn
       && Found(Lookup(s.book.invoices, e.reference), e.fates.findInvoice).None? then
      Found(Lookup(ByGateway(s.book.subscriptions), e.gatewayId), e.fates.findSubscription)
    else None
  }

  function SubscriptionToPut(s: State, e: Event): Option<Subscription> {
    match e
    case Create(ids, account, amount, _, _) =>
      if CreateIsFresh(s, ids) then Some(NewSubscription(ids, account, amount)) else None
    case SaveCard(_, answer, _) =>
      var sub := ToActivate(s, e);
      if sub.Some? then Some(Activated(sub.value, answer.gatewayId, answer.periodEnd)) else None
    case Charge(_, _, _, _, _) => None
    case Delete(account, id, gatewayAccepts, now, fates) =>
      var sub := Cancelable(s.book, account, id, gatewayAccepts, fates);
      if sub.Some? then Some(CanceledAt(sub.value, now)) else None
  }

  function InvoiceToPut(s: State, e: Event): Option<Invoice> {
    match e
    case Create(ids, account, amount, _, _) =>
      if CreateIsFresh(s, ids) then Some(NewInvoice(ids, account, amount)) else None
    case SaveCard(_, _, fates) =>
      var sub := ToActivate(s, e);
      if sub.None? then None
      else
        var invoice := Found(Get(s.book.invoices, sub.value.latestInvoice), fates.findInvoice);
        if invoice.Some? then Some(invoice.value.(status := PAID)) else None
    case Charge(_, reference, amount, freshId, _) =>
      var sub := ToCharge(s, e);
      if sub.Some? then Some(CycleInvoice(sub.value, freshId, reference, amount)) else None
    case Delete(_, _, _, _, _) => None
  }

  // A new authorization intent, or one that a saved card marks as paid, whatever the gateway then answers.
  function IntentToPut(s: State, e: Event): Option<Intent> {
    match e
    case Create(ids, account, amount, gatewayReference, _) =>
      if CreateIsFresh(s, ids) then Some(Intent(ids.intent, account, amount, "requires_action", "", gatewayReference)) else None
    case SaveCard(authIntent, answer, fates) =>
      if !AnswerIsFresh(s, answer) || Target(s.book, authIntent, fates).None? then None
      else
        var pi := Found(Get(s.book.intents, authIntent), fates.findIntent);
        if pi.Some? then Some(pi.value.(status := "succeeded", failure := "")) else None
    case Charge(_, _, _, _, _) => None
    case Delete(_, _, _, _, _) => None
  }

  function IntentPut(s: State, e: Event): Option<Intent> {
    Found(IntentToPut(s, e), e.fates.putIntent)
  }

  // The events that are queued, in order.
  function QueuedBy(s: State, e: Event): seq<Queued> {
    var about := if SubscriptionToPut(s, e).None? || !e.fates.queueSubscription then "" else SubscriptionToPut(s, e).value.id;
    var told := SubscriptionToPut(s, e).Some? && e.fates.queueSubscription;
    (if told && e.Create? then [Queued("customer.subscription.created", about, "incomplete")]
     else if told && e.Delete? then [Queued("customer.subscription.deleted", about, "canceled")]
     else if told && InvoiceToPut(s, e).Some? then [Queued("customer.subscription.updated", about, "active")]
     else [])
    + (if Announced(s, e).Some? then [Queued("invoice.payment_succeeded", Announced(s, e).value, "paid")] else [])
  }

  function WithIntent(t: Table<Intent>, pi: Option<Intent>): Table<Intent> {
    if pi.None? then t else Put(t, pi.value.id, pi.value.gatewayReference, pi.value)
  }

  function SubscriptionPut(s: State, e: Event): Option<Subscription> {
    Found(SubscriptionToPut(s, e), e.fates.putSubscription)
  }

  function InvoicePut(s: State, e: Event): Option<Invoice> {
    Found(InvoiceToPut(s, e), e.fates.putInvoice)
  }

  // The invoice that gets a payment event in this step.
  function Announced(s: State, e: Event): Option<string> {
    if e.Create? || !e.fates.queueInvoice || InvoiceToPut(s, e).None? then None
    else Some(InvoiceToPut(s, e).value.id)
  }

  function WithSubscription(t: SubscriptionTable, sub: Option<Subscription>): SubscriptionTable {
    if sub.None? then t else PutSub(t, sub.value)
  }

  function WithInvoice(t: Table<Invoice>, invoice: Option<Invoice>): Table<Invoice> {
    if invoice.None? then t else Put(t, invoice.value.id, invoice.value.intent, invoice.value)
  }

  // The tables are those before with these rows put, and one payment event is queued or none.
  ghost predicate Writes(b: Book, b': Book, sub: Option<Subscription>, invoice: Option<Invoice>, announced: Option<string>) {
    && b'.subscriptions == WithSubscription(b.subscriptions, sub)
    && b'.invoices == WithInvoice(b.invoices, invoice)
    && forall id :: PaidEvents(b'.queue, id) == PaidEvents(b.queue, id) + if announced == Some(id) then 1 else 0
  }

  // Whatever the step puts under a drawn id or a new gateway id, the id is on record from then on.
  ghost predicate DrawsIds(s: State, e: Event, s': State) {
    && s.drawn <= s'.drawn && (SubscriptionToPut(s, e).Some? || InvoiceToPut(s, e).Some? ==> DrawnBy(e) <= s'.drawn)
    && s.schedules <= s'.schedules && (ToActivate(s, e).Some? ==> e.answer.gatewayId in s'.schedules)
  }

  ghost predicate Does(s: State, e: Event, s': State) {
    && Writes(s.book, s'.book, SubscriptionPut(s, e), InvoicePut(s, e), Announced(s, e))
    && DrawsIds(s, e, s')
  }

  // An event about a subscription is no payment event.
  lemma QueueSubscriptionEvent(b: Book, q: Queued, lands: bool)
    requires q.eventType != PAYMENT_SUCCEEDED
    ensures forall id :: PaidEvents((if lands then b.queue + [q] else b.queue), id) == PaidEvents(b.queue, id)
  {
    forall id
      ensures PaidEvents(b.queue + [q], id) == PaidEvents(b.queue, id)
    {
      PaidEventsAppend(b.queue, q, id);
    }
  }

  lemma QueuePaymentEvent(queue: seq<Queued>, invoice: string, lands: bool)
    ensures var q := Queued(PAYMENT_SUCCEEDED, invoice, PAID);
            forall id :: PaidEvents((if lands then queue + [q] else queue), id)
                         == PaidEvents(queue, id) + if lands && invoice == id then 1 else 0
  {
    forall id
      ensures PaidEvents(queue + [Queued(PAYMENT_SUCCEEDED, invoice, PAID)], id)
              == PaidEvents(queue, id) + if invoice == id then 1 else 0
    {
      PaidEventsAppend(queue, Queued(PAYMENT_SUCCEEDED, invoice, PAID), id);
    }
  }

  lemma CreatedWrites(b: Book, ids: Ids, account: string, amount: int, gatewayReference: string, fates: Fates)
    ensures Writes(b, Created(b, ids, account, amount, gatewayReference, fates),
                   Found(Some(NewSubscription(ids, account, amount)), fates.putSubscription),
                   Found(Some(NewInvoice(ids, account, amount)), fates.putInvoice), None)
  {
    QueueSubscriptionEvent(b, Queued("customer.subscription.created", ids.subscription, INCOMPLETE), fates.queueSubscription);
  }

  lemma CycleWrites(b: Book, sub: Subscription, gatewayId: string, reference: string, amount: int, id: string, fates: Fates)
    requires Found(Lookup(ByGateway(b.subscriptions), gatewayId), fates.findSubscription) == Some(sub)
    requires Found(Lookup(b.invoices, reference), fates.findInvoice).None?
    ensures Writes(b, Cycle(b, gatewayId, reference, amount, id, fates), None,
                   Found(Some(CycleInvoice(sub, id, reference, amount)), fates.putInvoice), Found(Some(id), fates.queueInvoice))
  {
    QueuePaymentEvent(b.queue, id, fates.queueInvoice);
  }

  lemma CancelWrites(b: Book, account: string, id: string, gatewayAccepts: bool, now: int, fates: Fates)
    requires Cancelable(b, account, id, gatewayAccepts, fates).Some?
    ensures var sub := Cancelable(b, account, id, gatewayAccepts, fates).value;
            Writes(b, Cancel(b, account, id, gatewayAccepts, now, fates),
                   Found(Some(CanceledAt(sub, now)), fates.putSubscription), None, None)
  {
    var sub := Cancelable(b, account, id, gatewayAccepts, fates).value;
    QueueSubscriptionEvent(b, Queued("customer.subscription.deleted", sub.id, CANCELED), fates.queueSubscription);
  }

  lemma ChargeTouchesIntents(b: Book, intent: string, fates: Fates)
    ensures ChargeSucceeded(b, intent, fates) == b.(intents := ChargeSucceeded(b, intent, fates).intents)
  {
  }

  // The first invoice and the two events, from the registration on.
  lemma SettlementWrites(b: Book, active: Subscription, invoice: Invoice, fates: Fates)
    requires Found(Get(b.invoices, active.latestInvoice), fates.findInvoice) == Some(invoice)
    ensures Writes(b, SettleFirstInvoice(b, active, fates), None,
                   Found(Some(invoice.(status := PAID)), fates.putInvoice), Found(Some(invoice.id), fates.queueInvoice))
  {
    var updated := Queued("customer.subscription.updated", active.id, active.status);
    QueueSubscriptionEvent(b, updated, fates.queueSubscription);
    QueuePaymentEvent(if fates.queueSubscription then b.queue + [updated] else b.queue, invoice.id, fates.queueInvoice);
  }

  // The handler's book right after the registration, before the first invoice is read.
  function Stored(b: Book, authIntent: string, active: Subscription, fates: Fates): Book {
    var b1 := ChargeSucceeded(b, authIntent, fates);
    if fates.putSubscription then PutSubscription(b1, active) else b1
  }

  lemma StoredWrites(b: Book, authIntent: string, active: Subscription, fates: Fates)
    ensures Writes(b, Stored(b, authIntent, active, fates), Found(Some(active), fates.putSubscription), None, None)
  {
    ChargeTouchesIntents(b, authIntent, fates);
  }

  lemma ActivateStored(s: State, e: Event)
    requires ToActivate(s, e).Some?
    ensures var active := SubscriptionToPut(s, e).value;
            Step(s, e).book == SettleFirstInvoice(Stored(s.book, e.authIntent, active, e.fates), active, e.fates)
  {
  }

  // ----- Each step does that -----

  lemma CreateDoes(s: State, e: Event)
    requires e.Create?
    ensures Does(s, e, Step(s, e))
  {
    if CreateIsFresh(s, e.ids) {
      CreatedWrites(s.book, e.ids, e.account, e.amount, e.gatewayReference, e.fates);
    }
  }

  lemma ChargeDoes(s: State, e: Event)
    requires e.Charge?
    ensures Does(s, e, Step(s, e))
  {
    if ToCharge(s, e).Some? {
      CycleWrites(s.book, ToCharge(s, e).value, e.gatewayId, e.reference, e.amount, e.freshId, e.fates);
    }
  }

  lemma DeleteDoes(s: State, e: Event)
    requires e.Delete?
    ensures Does(s, e, Step(s, e))
  {
    if Cancelable(s.book, e.account, e.id, e.gatewayAccepts, e.fates).Some? {
      CancelWrites(s.book, e.account, e.id, e.gatewayAccepts, e.now, e.fates);
    }
  }

  lemma RegistrationWrites(s: State, e: Event)
    requires ToActivate(s, e).Some?
    ensures Writes(s.book, Step(s, e).book, SubscriptionPut(s, e), InvoicePut(s, e), Announced(s, e))
  {
    var active := SubscriptionToPut(s, e).value;
    var b := Stored(s.book, e.authIntent, active, e.fates);
    ActivateStored(s, e);
    StoredWrites(s.book, e.authIntent, active, e.fates);
    var invoice := Found(Get(b.invoices, active.latestInvoice), e.fates.findInvoice);
    if invoice.Some? {
      SettlementWrites(b, active, invoice.value, e.fates);
    }
  }

  lemma RegistrationDraws(s: State, e: Event)
    requires ToActivate(s, e).Some?
    ensures DrawsIds(s, e, Step(s, e))
  {
  }

  lemma NoRegistrationDoes(s: State, e: Event)
    requires e.SaveCard? && ToActivate(s, e).None?
    ensures Does(s, e, Step(s, e))
  {
    ChargeTouchesIntents(s.book, e.authIntent, e.fates);
  }

  lemma SettlementLeavesIntents(b: Book, active: Subscription, fates: Fates)
    ensures SettleFirstInvoice(b, active, fates).intents == b.intents
  {
  }

  lemma StepPutsIntent(s: State, e: Event)
    ensures Step(s, e).book.intents == WithIntent(s.book.intents, IntentPut(s, e))
  {
    if ToActivate(s, e).Some? {
      var active := SubscriptionToPut(s, e).value;
      ActivateStored(s, e);
      SettlementLeavesIntents(Stored(s.book, e.authIntent, active, e.fates), active, e.fates);
    }
  }

  lemma StepQueuesEvents(s: State, e: Event)
    ensures Step(s, e).book.queue == s.book.queue + QueuedBy(s, e)
  {
    if ToActivate(s, e).Some? {
      ActivationQueues(s, e);
    } else if e.SaveCard? {
      ChargeTouchesIntents(s.book, e.authIntent, e.fates);
    }
  }

  lemma ActivationQueues(s: State, e: Event)
    requires ToActivate(s, e).Some?
    ensures Step(s, e).book.queue == s.book.queue + QueuedBy(s, e)
  {
    ActivateStored(s, e);
    ChargeTouchesIntents(s.book, e.authIntent, e.fates);
  }

  lemma StepDoes(s: State, e: Event)
    ensures Does(s, e, Step(s, e))
  {
    match e
    case Create(_, _, _, _, _) => CreateDoes(s, e);
    case Charge(_, _, _, _, _) => ChargeDoes(s, e);
    case Delete(_, _, _, _, _) => DeleteDoes(s, e);
    case SaveCard(_, _, _) =>
      if ToActivate(s, e).Some? {
        RegistrationWrites(s, e);
        RegistrationDraws(s, e);
      } else {
        NoRegistrationDoes(s, e);
      }
  }

  lemma StepPutsRows(s: State, e: Event)
    ensures Step(s, e).book.subscriptions == WithSubscription(s.book.subscriptions, SubscriptionPut(s, e))
    ensures Step(s, e).book.invoices == WithInvoice(s.book.invoices, InvoicePut(s, e))
  {
    StepDoes(s, e);
  }

  /** Whatever fails, a step puts at most one intent, one subscription and one invoice, and queues at most one
      event about the subscription and one about a payment; nothing else changes. */
  lemma StepWrites(s: State, e: Event)
    ensures var b, b' := s.book, Step(s, e).book;
            && b'.intents == WithIntent(b.intents, IntentPut(s, e))
            && b'.subscriptions == WithSubscription(b.subscriptions, SubscriptionPut(s, e))
            && b'.invoices == WithInvoice(b.invoices, InvoicePut(s, e))
            && b'.queue == b.queue + QueuedBy(s, e)
  {
    StepPutsRows(s, e);
    StepPutsIntent(s, e);
    StepQueuesEvents(s, e);
  }

  // ----- What every run keeps -----

  function AuthIntentOf(): Subscription -> string {
    (s: Subscription) => s.authIntent
  }

  function GatewayIdOf(): Subscription -> string {
    (s: Subscription) => s.gatewayId
  }

  // A reference is found exactly if some invoice has it, and what is found has it; it need not be unique.
  ghost predicate Covers(t: Table<Invoice>) {
    && (forall id :: id in t.rows && t.rows[id].intent != "" ==> t.rows[id].intent in t.index)
    && (forall ref :: ref in t.index ==> ref != "" && t.index[ref] in t.rows && t.rows[t.index[ref]].intent == ref)
    && (forall id :: id in t.rows ==> t.rows[id].id == id)
  }

  ghost predicate IndexesAgree(t: SubscriptionTable) {
    Agrees(ByAuth(t), AuthIntentOf()) && Agrees(ByGateway(t), GatewayIdOf())
  }

  predicate SubscriptionOk(s: State, id: string, sub: Subscription) {
    && sub.id == id && sub.authIntent != ""
    && id in s.drawn && sub.authIntent in s.drawn && sub.latestInvoice in s.drawn
    && (sub.gatewayId != "" ==> sub.gatewayId in s.schedules)
    && (sub.status == ACTIVE ==> sub.gatewayId != "")
  }

  ghost predicate SubscriptionsOk(s: State) {
    && (forall id :: id in s.book.subscriptions.rows ==> SubscriptionOk(s, id, s.book.subscriptions.rows[id]))
    && (forall i, j :: i in s.book.subscriptions.rows && j in s.book.subscriptions.rows && i != j ==>
                         s.book.subscriptions.rows[i].latestInvoice != s.book.subscriptions.rows[j].latestInvoice)
  }

  predicate HasSchedule(b: Book, id: string) {
    id in b.subscriptions.rows && b.subscriptions.rows[id].gatewayId != ""
  }

  ghost predicate InvoicesOk(s: State) {
    Covers(s.book.invoices) && forall id :: id !in s.drawn ==> id !in s.book.invoices.rows && PaidEvents(s.book.queue, id) == 0
  }

  ghost predicate Inv(s: State) {
    IndexesAgree(s.book.subscriptions) && SubscriptionsOk(s) && InvoicesOk(s)
  }

  lemma TargetIsStored(s: State, e: Event)
    requires IndexesAgree(s.book.subscriptions) && SubscriptionsOk(s) && ToActivate(s, e).Some?
    ensures var sub := ToActivate(s, e).value;
            && sub.id in s.book.subscriptions.rows && s.book.subscriptions.rows[sub.id] == sub
            && sub.authIntent == e.authIntent && Registrable(sub)
  {
  }

  // A subscription is put for the first time, under fresh ids.
  ghost predicate IsNew(s: State, s': State, sub: Subscription) {
    && sub.id !in s.drawn && sub.authIntent !in s.drawn && sub.latestInvoice !in s.drawn
    && sub.id in s'.drawn && sub.authIntent in s'.drawn && sub.latestInvoice in s'.drawn
    && sub.authIntent != "" && sub.gatewayId == "" && sub.status == INCOMPLETE
  }

  // A stored subscription is put again: its links stay, and its gateway id is set at most once, to a new one.
  ghost predicate IsUpdate(s: State, s': State, sub: Subscription) {
    && sub.id in s.book.subscriptions.rows
    && var was := s.book.subscriptions.rows[sub.id];
       && sub.authIntent == was.authIntent && sub.latestInvoice == was.latestInvoice
       && (sub.gatewayId == was.gatewayId
           || (was.gatewayId == "" && sub.gatewayId !in s.schedules && sub.gatewayId in s'.schedules))
       && (sub.status == ACTIVE ==> sub.gatewayId != "")
  }

  lemma PutIsNewOrUpdate(s: State, e: Event, s': State)
    requires IndexesAgree(s.book.subscriptions) && SubscriptionsOk(s) && DrawsIds(s, e, s') && SubscriptionPut(s, e).Some?
    ensures IsNew(s, s', SubscriptionPut(s, e).value) || IsUpdate(s, s', SubscriptionPut(s, e).value)
  {
    if e.SaveCard? {
      TargetIsStored(s, e);
    }
  }

  lemma PutFitsIndexes(s: State, s': State, sub: Subscription)
    requires IndexesAgree(s.book.subscriptions) && SubscriptionsOk(s) && (IsNew(s, s', sub) || IsUpdate(s, s', sub))
    ensures FitsIndex(ByAuth(s.book.subscriptions), AuthIntentOf(), sub.id, sub)
    ensures FitsIndex(ByGateway(s.book.subscriptions), GatewayIdOf(), sub.id, sub)
  {
    forall other | other in s.book.subscriptions.rows && other != sub.id
      ensures s.book.subscriptions.rows[other].authIntent != sub.authIntent
      ensures sub.gatewayId != "" ==> s.book.subscriptions.rows[other].gatewayId != sub.gatewayId
    {
      assert SubscriptionOk(s, other, s.book.subscriptions.rows[other]);
    }
  }

  lemma PutKeepsIndexes(s: State, s': State, sub: Subscription)
    requires IndexesAgree(s.book.subscriptions) && SubscriptionsOk(s) && (IsNew(s, s', sub) || IsUpdate(s, s', sub))
    ensures IndexesAgree(PutSub(s.book.subscriptions, sub))
  {
    var t := s.book.subscriptions;
    PutFitsIndexes(s, s', sub);
    PutKeepsAgreementIff(ByAuth(t), AuthIntentOf(), sub.id, sub);
    PutKeepsAgreementIff(ByGateway(t), GatewayIdOf(), sub.id, sub);
    assert ByAuth(PutSub(t, sub)) == Put(ByAuth(t), sub.id, sub.authIntent, sub);
    assert ByGateway(PutSub(t, sub)) == Put(ByGateway(t), sub.id, sub.gatewayId, sub);
  }

  lemma PutKeepsSubscriptions(s: State, s': State, sub: Subscription)
    requires SubscriptionsOk(s) && (IsNew(s, s', sub) || IsUpdate(s, s', sub))
    requires s.drawn <= s'.drawn && s.schedules <= s'.schedules
    requires s'.book.subscriptions.rows == s.book.subscriptions.rows[sub.id := sub]
    ensures SubscriptionsOk(s')
  {
    var rows, rows' := s.book.subscriptions.rows, s'.book.subscriptions.rows;
    forall id | id in rows'
      ensures SubscriptionOk(s', id, rows'[id])
      ensures id != sub.id ==> rows'[id].latestInvoice != sub.latestInvoice
    {
      if id in rows {
        assert SubscriptionOk(s, id, rows[id]);
      }
    }
  }

  lemma SameSubscriptionsStayOk(s: State, s': State)
    requires SubscriptionsOk(s) && s.drawn <= s'.drawn && s.schedules <= s'.schedules
    requires s'.book.subscriptions == s.book.subscriptions
    ensures SubscriptionsOk(s')
  {
    forall id | id in s'.book.subscriptions.rows
      ensures SubscriptionOk(s', id, s'.book.subscriptions.rows[id])
    {
      assert SubscriptionOk(s, id, s.book.subscriptions.rows[id]);
    }
  }

  lemma StepKeepsSubscriptions(s: State, e: Event, s': State)
    requires IndexesAgree(s.book.subscriptions) && SubscriptionsOk(s) && Does(s, e, s')
    ensures IndexesAgree(s'.book.subscriptions) && SubscriptionsOk(s')
  {
    if SubscriptionPut(s, e).Some? {
      PutIsNewOrUpdate(s, e, s');
      PutKeepsIndexes(s, s', SubscriptionPut(s, e).value);
      PutKeepsSubscriptions(s, s', SubscriptionPut(s, e).value);
    } else {
      SameSubscriptionsStayOk(s, s');
    }
  }

  // A subscription gets a schedule exactly if it is activated and stored.
  lemma ScheduleIsStoredIff(s: State, e: Event, s': State, id: string)
    requires IndexesAgree(s.book.subscriptions) && SubscriptionsOk(s) && Does(s, e, s')
    ensures var activates := ToActivate(s, e).Some? && ToActivate(s, e).value.id == id;
            && (activates ==> !HasSchedule(s.book, id))
            && (HasSchedule(s'.book, id) <==> HasSchedule(s.book, id) || (activates && e.fates.putSubscription))
  {
    if ToActivate(s, e).Some? {
      TargetIsStored(s, e);
    }
    if SubscriptionPut(s, e).Some? {
      PutIsNewOrUpdate(s, e, s');
      assert SubscriptionPut(s, e).value.id in s.book.subscriptions.rows ==>
          SubscriptionOk(s, SubscriptionPut(s, e).value.id, s.book.subscriptions.rows[SubscriptionPut(s, e).value.id]);
    }
  }

  // An invoice is put under a fresh id, or is a stored one that is now paid.
  lemma InvoiceIsNewOrPaid(s: State, e: Event, s': State)
    requires InvoicesOk(s) && DrawsIds(s, e, s') && InvoiceToPut(s, e).Some?
    ensures var invoice := InvoiceToPut(s, e).value;
            && (if e.SaveCard? then
                  invoice.id in s.book.invoices.rows && invoice == s.book.invoices.rows[invoice.id].(status := PAID)
                else invoice.id !in s.drawn && invoice.id in s'.drawn && invoice.intent != "")
  {
  }

  lemma PutKeepsCovering(t: Table<Invoice>, invoice: Invoice)
    requires Covers(t) && (invoice.id in t.rows ==> t.rows[invoice.id].intent == invoice.intent)
    ensures Covers(Put(t, invoice.id, invoice.intent, invoice))
  {
  }

  lemma StepKeepsInvoices(s: State, e: Event, s': State)
    requires InvoicesOk(s) && Does(s, e, s')
    ensures InvoicesOk(s')
  {
    if InvoiceToPut(s, e).Some? {
      InvoiceIsNewOrPaid(s, e, s');
      PutKeepsCovering(s.book.invoices, InvoiceToPut(s, e).value);
    }
  }

  lemma StepKeepsInv(s: State, e: Event)
    requires Inv(s)
    ensures Inv(Step(s, e))
  {
    StepDoes(s, e);
    StepKeepsSubscriptions(s, e, Step(s, e));
    StepKeepsInvoices(s, e, Step(s, e));
  }

  lemma {:induction false} ExecKeepsInv(events: seq<Event>)
    ensures Inv(Exec(events))
  {
    if events != [] {
      ExecKeepsInv(events[..|events| - 1]);
      StepKeepsInv(Exec(events[..|events| - 1]), events[|events| - 1]);
    }
  }
}
