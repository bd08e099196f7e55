/** The in-process store: primary maps, their secondary index maps, and the queue of outbound events. */
module Memory {
  import opened Indexes
  import opened Wrappers

  datatype Intent = Intent(id: string, account: string, amount: int, status: string, failure: string, gatewayReference: string)

  datatype Session = Session(id: string, intent: string, status: string, paymentStatus: string)

  datatype Subscription = Subscription(
    id: string, account: string, status: string, gatewayId: string, authIntent: string,
    latestInvoice: string, amount: int, periodEnd: int, canceledAt: int)

  datatype Invoice = Invoice(
    id: string, account: string, subscription: string, intent: string, amount: int, status: string, reason: string)

  // An outbound event with the status its serialized object carries.
  datatype Queued = Queued(eventType: string, reference: string, status: string)

  datatype SubscriptionTable = SubscriptionTable(
    rows: map<string, Subscription>, byGateway: map<string, string>, byAuth: map<string, string>)

  // The subscriptions as seen through one of their two indexes.
  function ByGateway(t: SubscriptionTable): Table<Subscription> {
    Table(t.rows, t.byGateway)
  }

  function ByAuth(t: SubscriptionTable): Table<Subscription> {
    Table(t.rows, t.byAuth)
  }

  function PutSub(t: SubscriptionTable, s: Subscription): SubscriptionTable {
    SubscriptionTable(t.rows[s.id := s],
                      Put(ByGateway(t), s.id, s.gatewayId, s).index,
                      Put(ByAuth(t), s.id, s.authIntent, s).index)
  }

  // The value of the whole store.
  datatype Book = Book(
    intents: Table<Intent>,
    sessions: Table<Session>,
    subscriptions: SubscriptionTable,
    invoices: Table<Invoice>,
    queue: seq<Queued>)

  const EMPTY_BOOK := Book(Table(map[], map[]), Table(map[], map[]), SubscriptionTable(map[], map[], map[]),
                          Table(map[], map[]), [])

  function PutIntent(b: Book, pi: Intent): Book {
    b.(intents := Put(b.intents, pi.id, pi.gatewayReference, pi))
  }

  function PutSession(b: Book, s: Session): Book {
    b.(sessions := Put(b.sessions, s.id, s.intent, s))
  }

  function PutSubscription(b: Book, s: Subscription): Book {
    b.(subscriptions := PutSub(b.subscriptions, s))
  }

  function PutInvoice(b: Book, i: Invoice): Book {
    b.(invoices := Put(b.invoices, i.id, i.intent, i))
  }

  function Enqueue(b: Book, q: Queued): Book {
    b.(queue := b.queue + [q])
  }

  class MemoryStore {
    var intents: map<string, Intent>
    var gwRefIndex: map<string, string>
    var sessions: map<string, Session>
    var sessionByPI: map<string, string>
    var subscriptions: map<string, Subscription>
    var subByGwID: map<string, string>
    var subByAuthPI: map<string, string>
    var invoices: map<string, Invoice>
    var invoiceByPI: map<string, string>
    var queue: seq<Queued>

    constructor ()
      ensures Value() == EMPTY_BOOK
    {
      intents, gwRefIndex, sessions, sessionByPI := map[], map[], map[], map[];
      subscriptions, subByGwID, subByAuthPI := map[], map[], map[];
      invoices, invoiceByPI, queue := map[], map[], [];
    }

    function Value(): Book
      reads this
    {
      Book(Table(intents, gwRefIndex), Table(sessions, sessionByPI),
           SubscriptionTable(subscriptions, subByGwID, subByAuthPI), Table(invoices, invoiceByPI), queue)
    }

    method StoreIntent(pi: Intent)
      modifies this
      ensures Value() == PutIntent(old(Value()), pi)
    {
      intents := intents[pi.id := pi];
      if pi.gatewayReference != "" {
        gwRefIndex := gwRefIndex[pi.gatewayReference := pi.id];
      }
    }

    method GetIntent(id: string) returns (r: Option<Intent>)
      ensures r == Get(Value().intents, id)
    {
      return if id in intents then Some(intents[id]) else None;
    }

    method GetByGatewayReference(ref: string) returns (r: Option<Intent>)
      ensures r == Lookup(Value().intents, ref)
    {
      if ref !in gwRefIndex || gwRefIndex[ref] !in intents {
        return None;
      }
      return Some(intents[gwRefIndex[ref]]);
    }

    method StoreSession(s: Session)
      modifies this
      ensures Value() == PutSession(old(Value()), s)
    {
      sessions := sessions[s.id := s];
      if s.intent != "" {
        sessionByPI := sessionByPI[s.intent := s.id];
      }
    }

    method GetSessionByPaymentIntent(pi: string) returns (r: Option<Session>)
      ensures r == Lookup(Value().sessions, pi)
    {
      if pi !in sessionByPI || sessionByPI[pi] !in sessions {
        return None;
      }
      return Some(sessions[sessionByPI[pi]]);
    }

    method StoreSubscription(s: Subscription)
      modifies this
      ensures Value() == PutSubscription(old(Value()), s)
    {
      subscriptions := subscriptions[s.id := s];
      if s.gatewayId != "" {
        subByGwID := subByGwID[s.gatewayId := s.id];
      }
      if s.authIntent != "" {
        subByAuthPI := subByAuthPI[s.authIntent := s.id];
      }
    }

    method GetSubscription(id: string) returns (r: Option<Subscription>)
      ensures r == Get(ByGateway(Value().subscriptions), id)
    {
      return if id in subscriptions then Some(subscriptions[id]) else None;
    }

    method GetSubscriptionByGatewayID(gateway: string) returns (r: Option<Subscription>)
      ensures r == Lookup(ByGateway(Value().subscriptions), gateway)
    {
      if gateway !in subByGwID || subByGwID[gateway] !in subscriptions {
        return None;
      }
      return Some(subscriptions[subByGwID[gateway]]);
    }

    method GetSubscriptionByAuthPI(pi: string) returns (r: Option<Subscription>)
      ensures r == Lookup(ByAuth(Value().subscriptions), pi)
    {
      if pi !in subByAuthPI || subByAuthPI[pi] !in subscriptions {
        return None;
      }
      return Some(subscriptions[subByAuthPI[pi]]);
    }

    method StoreInvoice(i: Invoice)
      modifies this
      ensures Value() == PutInvoice(old(Value()), i)
    {
      invoices := invoices[i.id := i];
      if i.intent != "" {
        invoiceByPI := invoiceByPI[i.intent := i.id];
      }
    }

    method GetInvoice(id: string) returns (r: Option<Invoice>)
      ensures r == Get(Value().invoices, id)
    {
      return if id in invoices then Some(invoices[id]) else None;
    }

    method GetInvoiceByPI(pi: string) returns (r: Option<Invoice>)
      ensures r == Lookup(Value().invoices, pi)
    {
      if pi !in invoiceByPI || invoiceByPI[pi] !in invoices {
        return None;
      }
      return Some(invoices[invoiceByPI[pi]]);
    }

    method EnqueueEvent(eventType: string, reference: string, status: string)
      modifies this
      ensures Value() == Enqueue(old(Value()), Queued(eventType, reference, status))
    {
      queue := queue + [Queued(eventType, reference, status)];
    }
  }
}
