/**
 Recurring billing: subscriptions, their first invoice, the invoices of their cycles, and the events
 queued for them. The gateway runs the clock; every step here reacts to a request or to a notification.
 */
module Subscriptions {
  import opened Indexes
  import opened Memory
  import opened Statuses
  import opened Wrappers

  // How the call that registers the recurring schedule ends. When it is unheard the gateway has registered
  // the schedule, but the program only sees the call fail.
  datatype Registration = Refused | Unheard | Registered(gatewayId: string, periodEnd: int)

  // Which lookups and writes of a handler succeed. The handlers ignore the errors of all of these writes,
  // and take a lookup that fails for a row that is not there. A process that dies is one whose remaining
  // lookups and writes all fail. On the in-process store none fails, on the database each may.
  datatype Fates = Fates(
    findSubscription: bool, findIntent: bool, findInvoice: bool,
    putIntent: bool, putSubscription: bool, putInvoice: bool,
    queueSubscription: bool, queueInvoice: bool)

  const ALL_LAND := Fates(true, true, true, true, true, true, true, true)

  function Found<R>(r: Option<R>, finds: bool): Option<R> {
    if finds then r else None
  }

  // The ids that are drawn for a new subscription, its authorization intent and its first invoice.
  datatype Ids = Ids(subscription: string, intent: string, invoice: string)

  function NewIntent(ids: Ids, account: string, amount: int, gatewayReference: string): Intent {
    Intent(ids.intent, account, amount, REQUIRES_ACTION, "", gatewayReference)
  }

  function NewSubscription(ids: Ids, account: string, amount: int): Subscription {
    Subscription(ids.subscription, account, INCOMPLETE, "", ids.intent, ids.invoice, amount, 0, 0)
  }

  function NewInvoice(ids: Ids, account: string, amount: int): Invoice {
    Invoice(ids.invoice, account, ids.subscription, ids.intent, amount, OPEN, "subscription_create")
  }

  function Created(b: Book, ids: Ids, account: string, amount: int, gatewayReference: string, fates: Fates): Book {
    var b1 := if fates.putIntent then PutIntent(b, NewIntent(ids, account, amount, gatewayReference)) else b;
    var b2 := if fates.putSubscription then PutSubscription(b1, NewSubscription(ids, account, amount)) else b1;
    var b3 := if fates.putInvoice then PutInvoice(b2, NewInvoice(ids, account, amount)) else b2;
    if fates.queueSubscription then Enqueue(b3, Queued("customer.subscription.created", ids.subscription, INCOMPLETE))
    else b3
  }

  // The guard of activation: no schedule registered yet.
  predicate Registrable(sub: Subscription) {
    sub.gatewayId == "" && sub.status != ACTIVE
  }

  function ChargeSucceeded(b: Book, intent: string, fates: Fates): Book {
    match Found(Get(b.intents, intent), fates.findIntent)
    case None => b
    case Some(pi) => if fates.putIntent then PutIntent(b, pi.(status := "succeeded", failure := "")) else b
  }

  function Activated(sub: Subscription, gatewayId: string, periodEnd: int): Subscription {
    sub.(status := ACTIVE, gatewayId := gatewayId, periodEnd := if periodEnd != 0 then periodEnd else sub.periodEnd)
  }

  function Activate(b: Book, authIntent: string, answer: Registration, fates: Fates): Book {
    match Found(Lookup(ByAuth(b.subscriptions), authIntent), fates.findSubscription)
    case None => b
    case Some(sub) =>
      if !Registrable(sub) then b
      else
        var b1 := ChargeSucceeded(b, authIntent, fates);
        match answer
        case Refused => b1
        case Unheard => b1
        case Registered(gatewayId, periodEnd) =>
          var active := Activated(sub, gatewayId, periodEnd);
          SettleFirstInvoice(if fates.putSubscription then PutSubscription(b1, active) else b1, active, fates)
  }

  function SettleFirstInvoice(b: Book, sub: Subscription, fates: Fates): Book {
    match Found(Get(b.invoices, sub.latestInvoice), fates.findInvoice)
    case None => b
    case Some(invoice) =>
      var b1 := if fates.putInvoice then PutInvoice(b, invoice.(status := PAID)) else b;
      var b2 := if fates.queueSubscription then Enqueue(b1, Queued("customer.subscription.updated", sub.id, sub.status))
                else b1;
      if fates.queueInvoice then Enqueue(b2, Queued(PAYMENT_SUCCEEDED, invoice.id, PAID)) else b2
  }

  function CycleInvoice(sub: Subscription, id: string, reference: string, amount: int): Invoice {
    Invoice(id, sub.account, sub.id, reference, if amount == 0 then sub.amount else amount, PAID, "subscription_cycle")
  }

  function Cycle(b: Book, gatewayId: string, reference: string, amount: int, id: string, fates: Fates): Book {
    match Found(Lookup(ByGateway(b.subscriptions), gatewayId), fates.findSubscription)
    case None => b
    case Some(sub) =>
      if Found(Lookup(b.invoices, reference), fates.findInvoice).Some? then b
      else
        var b1 := if fates.putInvoice then PutInvoice(b, CycleInvoice(sub, id, reference, amount)) else b;
        if fates.queueInvoice then Enqueue(b1, Queued(PAYMENT_SUCCEEDED, id, PAID)) else b1
  }

  // The subscription that a request may cancel: its own account's, and the gateway agrees if it has a schedule.
  function Cancelable(b: Book, account: string, id: string, gatewayAccepts: bool, fates: Fates): Option<Subscription> {
    match Found(Get(ByGateway(b.subscriptions), id), fates.findSubscription)
    case None => None
    case Some(sub) => if sub.account != account || (sub.gatewayId != "" && !gatewayAccepts) then None else Some(sub)
  }

  function CanceledAt(sub: Subscription, now: int): Subscription {
    sub.(status := CANCELED, canceledAt := now)
  }

  function Cancel(b: Book, account: string, id: string, gatewayAccepts: bool, now: int, fates: Fates): Book {
    match Cancelable(b, account, id, gatewayAccepts, fates)
    case None => b
    case Some(sub) =>
      var b1 := if fates.putSubscription then PutSubscription(b, CanceledAt(sub, now)) else b;
      if fates.queueSubscription then Enqueue(b1, Queued("customer.subscription.deleted", sub.id, CANCELED)) else b1
  }

  // ----- The handlers -----

  /** An incomplete subscription, its open first invoice, and the intent that authorizes the charges. */
  method BuildSubscription(m: MemoryStore, ids: Ids, account: string, amount: int, gatewayReference: string)
    modifies m
    ensures m.Value() == Created(old(m.Value()), ids, account, amount, gatewayReference, ALL_LAND)
    ensures m.intents == old(m.intents)[ids.intent := Intent(ids.intent, account, amount, "requires_action", "", gatewayReference)]
    ensures m.subscriptions == old(m.subscriptions)[
              ids.subscription := Subscription(ids.subscription, account, "incomplete", "", ids.intent, ids.invoice, amount, 0, 0)]
    ensures m.invoices == old(m.invoices)[
              ids.invoice := Invoice(ids.invoice, account, ids.subscription, ids.intent, amount, "open", "subscription_create")]
    ensures m.queue == old(m.queue) + [Queued("customer.subscription.created", ids.subscription, "incomplete")]
  {
    m.StoreIntent(Intent(ids.intent, account, amount, REQUIRES_ACTION, "", gatewayReference));
    var sub := Subscription(ids.subscription, account, INCOMPLETE, "", ids.intent, "", amount, 0, 0);
    var invoice := Invoice(ids.invoice, account, sub.id, ids.intent, amount, OPEN, "subscription_create");
    sub := sub.(latestInvoice := invoice.id);
    m.StoreSubscription(sub);
    m.StoreInvoice(invoice);
    m.EnqueueEvent("customer.subscription.created", sub.id, sub.status);
  }

  // The charge of the authorization is marked as paid, if its intent is stored.
  predicate IsCharged(before: map<string, Intent>, after: map<string, Intent>, authIntent: string) {
    if authIntent !in before then after == before
    else var pi := before[authIntent]; after == before[pi.id := pi.(status := "succeeded", failure := "")]
  }

  // The subscription is active under its new schedule; its first invoice is paid and both events are queued, if
  // the invoice is stored.
  ghost predicate IsActivated(before: Book, after: Book, sub: Subscription, gatewayId: string, periodEnd: int) {
    && after.subscriptions.rows
       == before.subscriptions.rows[sub.id := sub.(status := "active", gatewayId := gatewayId,
                                                   periodEnd := if periodEnd != 0 then periodEnd else sub.periodEnd)]
    && if sub.latestInvoice !in before.invoices.rows then after.invoices == before.invoices && after.queue == before.queue
       else
         var invoice := before.invoices.rows[sub.latestInvoice];
         && after.invoices.rows == before.invoices.rows[invoice.id := invoice.(status := "paid")]
         && after.queue == before.queue + [Queued("customer.subscription.updated", sub.id, "active"),
                                           Queued("invoice.payment_succeeded", invoice.id, "paid")]
  }

  // What a save-card notification does to the tables where nothing fails.
  ghost predicate SavedCardTaken(b: Book, b': Book, authIntent: string, answer: Registration) {
    var found := Lookup(ByAuth(b.subscriptions), authIntent);
    if found.None? || found.value.gatewayId != "" || found.value.status == "active" then b' == b
    else
      && IsCharged(b.intents.rows, b'.intents.rows, authIntent) && b'.sessions == b.sessions
      && if answer.Registered? then IsActivated(b, b', found.value, answer.gatewayId, answer.periodEnd)
         else b' == b.(intents := b'.intents)
  }

  // What a notification of a billing cycle does to them.
  ghost predicate CycleTaken(b: Book, b': Book, gatewayId: string, reference: string, amount: int, freshId: string) {
    var found := Lookup(ByGateway(b.subscriptions), gatewayId);
    if found.None? || Lookup(b.invoices, reference).Some? then b' == b
    else
      var sub := found.value;
      && b'.invoices.rows == b.invoices.rows[
           freshId := Invoice(freshId, sub.account, sub.id, reference, if amount == 0 then sub.amount else amount, "paid",
                              "subscription_cycle")]
      && b'.queue == b.queue + [Queued("invoice.payment_succeeded", freshId, "paid")]
      && b'.subscriptions == b.subscriptions && b'.intents == b.intents && b'.sessions == b.sessions
  }

  lemma SettledOnTables(b: Book, sub: Subscription)
    ensures var b' := SettleFirstInvoice(b, sub, ALL_LAND);
            && b'.intents == b.intents && b'.sessions == b.sessions && b'.subscriptions == b.subscriptions
            && if sub.latestInvoice !in b.invoices.rows then b'.invoices == b.invoices && b'.queue == b.queue
               else
                 var invoice := b.invoices.rows[sub.latestInvoice];
                 && b'.invoices.rows == b.invoices.rows[invoice.id := invoice.(status := "paid")]
                 && b'.queue == b.queue + [Queued("customer.subscription.updated", sub.id, sub.status),
                                           Queued("invoice.payment_succeeded", invoice.id, "paid")]
  {
  }

  lemma ActivateIsTaken(b: Book, authIntent: string, answer: Registration)
    ensures SavedCardTaken(b, Activate(b, authIntent, answer, ALL_LAND), authIntent, answer)
  {
    var found := Lookup(ByAuth(b.subscriptions), authIntent);
    if found.Some? && Registrable(found.value) && answer.Registered? {
      var active := Activated(found.value, answer.gatewayId, answer.periodEnd);
      SettledOnTables(PutSubscription(ChargeSucceeded(b, authIntent, ALL_LAND), active), active);
    }
  }

  lemma CycleIsTaken(b: Book, gatewayId: string, reference: string, amount: int, freshId: string)
    ensures CycleTaken(b, Cycle(b, gatewayId, reference, amount, freshId, ALL_LAND), gatewayId, reference, amount, freshId)
  {
  }

  method ActivateSubscription(m: MemoryStore, authIntent: string, answer: Registration)
    modifies m
    ensures m.Value() == Activate(old(m.Value()), authIntent, answer, ALL_LAND)
    ensures SavedCardTaken(old(m.Value()), m.Value(), authIntent, answer)
  {
    ActivateIsTaken(m.Value(), authIntent, answer);
    var found := m.GetSubscriptionByAuthPI(authIntent);
    if found.None? {
      return;
    }
    var sub := found.value;
    if sub.gatewayId != "" || sub.status == ACTIVE {
      return;
    }
    var pi := m.GetIntent(authIntent);
    if pi.Some? {
      m.StoreIntent(pi.value.(status := "succeeded", failure := ""));
    }
    assert m.Value() == ChargeSucceeded(old(m.Value()), authIntent, ALL_LAND);
    if !answer.Registered? {
      return;
    }
    sub := sub.(status := ACTIVE, gatewayId := answer.gatewayId);
    if answer.periodEnd != 0 {
      sub := sub.(periodEnd := answer.periodEnd);
    }
    assert sub == Activated(found.value, answer.gatewayId, answer.periodEnd);
    m.StoreSubscription(sub);
    var invoice := m.GetInvoice(sub.latestInvoice);
    if invoice.None? {
      return;
    }
    m.StoreInvoice(invoice.value.(status := PAID));
    m.EnqueueEvent("customer.subscription.updated", sub.id, sub.status);
    m.EnqueueEvent(PAYMENT_SUCCEEDED, invoice.value.id, PAID);
  }

  method RecordSubscriptionCycle(m: MemoryStore, gatewayId: string, reference: string, amount: int, freshId: string)
    modifies m
    ensures m.Value() == Cycle(old(m.Value()), gatewayId, reference, amount, freshId, ALL_LAND)
    ensures CycleTaken(old(m.Value()), m.Value(), gatewayId, reference, amount, freshId)
  {
    CycleIsTaken(m.Value(), gatewayId, reference, amount, freshId);
    var found := m.GetSubscriptionByGatewayID(gatewayId);
    if found.None? {
      return;
    }
    var recorded := m.GetInvoiceByPI(reference);
    if recorded.Some? {
      return;
    }
    var sub, charged := found.value, amount;
    if charged == 0 {
      charged := sub.amount;
    }
    m.StoreInvoice(Invoice(freshId, sub.account, sub.id, reference, charged, PAID, "subscription_cycle"));
    m.EnqueueEvent(PAYMENT_SUCCEEDED, freshId, PAID);
  }

  method CancelSubscription(m: MemoryStore, account: string, id: string, gatewayAccepts: bool, now: int)
    returns (httpStatus: int)
    modifies m
    ensures m.Value() == Cancel(old(m.Value()), account, id, gatewayAccepts, now, ALL_LAND)
    ensures if id !in old(m.subscriptions) || old(m.subscriptions)[id].account != account then
              httpStatus == 404 && m.Value() == old(m.Value())
            else if old(m.subscriptions)[id].gatewayId != "" && !gatewayAccepts then
              httpStatus == 502 && m.Value() == old(m.Value())
            else
              var sub := old(m.subscriptions)[id];
              && httpStatus == 200 && m.subscriptions == old(m.subscriptions)[sub.id := sub.(status := "canceled", canceledAt := now)]
              && m.queue == old(m.queue) + [Queued("customer.subscription.deleted", sub.id, "canceled")]
              && m.invoices == old(m.invoices) && m.intents == old(m.intents)
    ensures httpStatus == 200 <==> |m.Value().queue| > |old(m.Value()).queue|
  {
    var found := m.GetSubscription(id);
    if found.None? || found.value.account != account {
      return 404;
    }
    var sub := found.value;
    if sub.gatewayId != "" && !gatewayAccepts {
      return 502;
    }
    sub := sub.(status := CANCELED, canceledAt := now);
    m.StoreSubscription(sub);
    m.EnqueueEvent("customer.subscription.deleted", sub.id, sub.status);
    return 200;
  }
}

