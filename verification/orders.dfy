/**
 * The order store of api/index.js (`ordersData`) and the two operations that act
 * on it, create-order and verify-payment, as pure transitions from a store to a
 * response and a new store. The payment gateway, the HMAC and the clock are
 * parameters.
 */
module Orders {
  import opened Wrappers
  import Seqs
  import opened Courses
  import Decimal
  import Signature

  /** The only currency the service charges in. */
  const Currency: string := "INR"

  /** The venture tag every order carries in its notes. */
  const Venture: string := "Glitch"

  datatype Status = Created | Paid

  /** The customer fields of a create-order request body. */
  datatype Customer = Customer(name: string, email: string, contact: string)

  /** The `notes` sent to the gateway; the stored record spreads them in as well. */
  datatype Notes = Notes(
    product: string,
    productName: string,
    downloadLink: string,
    customerName: string,
    customerEmail: string,
    customerContact: string,
    venture: string)

  /** One entry of the order store; `amount` is in paise. */
  datatype Order = Order(
    orderId: string,
    status: Status,
    notes: Notes,
    amount: int,
    currency: string,
    createdAt: string,
    paymentId: Option<string>,
    paidAt: Option<string>)

  type Store = seq<Order>

  /** The order options handed to the gateway. */
  datatype OrderRequest = OrderRequest(amount: int, currency: string, receipt: string, notes: Notes)

  /** The order object the gateway answers with; the gateway keeps the notes it was sent. */
  datatype GatewayOrder = GatewayOrder(id: string, amount: int, currency: string, receipt: string, notes: Notes)

  datatype GatewayReply = Minted(order: GatewayOrder) | GatewayFailed

  /** The gateway's order-creation call. */
  type Gateway = OrderRequest -> GatewayReply

  /** The body of a verify-payment request. */
  datatype Callback = Callback(orderId: string, paymentId: string, signature: string)

  /** What the handler answers, one variant per JSON body it can send. */
  datatype Response =
    | NotesList(courses: seq<Listing>)
    | InvalidCourse
    | GatewayEcho(order: GatewayOrder)
    | OrderCreated(orderId: string, amount: int, currency: string, receipt: string)
    | InternalError
    | VerificationFailed
    | OrderNotFound
    | PaymentOk(orderId: string, paymentId: string, downloadLink: string, productName: string)

  /** The HTTP status each response is sent with. */
  function HttpStatus(r: Response): (code: int)
    ensures code == 400 <==> r == InvalidCourse || r == VerificationFailed
    ensures code == 404 <==> r == OrderNotFound
    ensures code == 500 <==> r == InternalError
    ensures code == 200 <==> r.NotesList? || r.GatewayEcho? || r.OrderCreated? || r.PaymentOk?
  {
    match r
    case NotesList(_) => 200
    case InvalidCourse => 400
    case GatewayEcho(_) => 200
    case OrderCreated(_, _, _, _) => 200
    case InternalError => 500
    case VerificationFailed => 400
    case OrderNotFound => 404
    case PaymentOk(_, _, _, _) => 200
  }

  /** The download link a response body carries, if it carries one. */
  function DownloadLinkOf(r: Response): Option<string> {
    match r
    case GatewayEcho(o) => Some(o.notes.downloadLink)
    case PaymentOk(_, _, link, _) => Some(link)
    case _ => None
  }

  // ---------------------------------------------------------------------------
  // Create order

  /** The options create-order sends to the gateway for `course` chosen under id `id`. */
  function OrderOptions(id: string, course: Course, customer: Customer, nowMillis: nat): (r: OrderRequest)
    ensures r.amount == course.price * 100
    ensures r.currency == Currency
    ensures |r.receipt| > 6 && r.receipt[..6] == "order_"
    ensures Decimal.AllDigits(r.receipt[6..]) && Decimal.Value(r.receipt[6..]) == nowMillis
    ensures |r.receipt| == 7 || r.receipt[6] != '0'
    ensures r.notes.product == id && r.notes.venture == Venture
    ensures r.notes.productName == course.name && r.notes.downloadLink == course.downloadLink
    ensures r.notes.customerName == customer.name
    ensures r.notes.customerEmail == customer.email
    ensures r.notes.customerContact == customer.contact
  {
    OrderRequest(
      course.price * 100, Currency, Decimal.Receipt(nowMillis),
      Notes(id, course.name, course.downloadLink, customer.name, customer.email, customer.contact, Venture))
  }

  /** The record pushed after the gateway minted `order` for `options`. */
  function NewRecord(order: GatewayOrder, options: OrderRequest, createdAt: string): Order {
    Order(order.id, Created, options.notes, options.amount, Currency, createdAt, None, None)
  }

  /**
   * Create order with the response restricted to what checkout needs
   * (id, amount, currency, receipt); see CreateOrderAsWritten for the
   * response the handler actually sends.
   */
  function CreateOrder(catalog: Catalog, store: Store, selected: string, customer: Customer,
                       nowMillis: nat, createdAt: string, gateway: Gateway): (r: (Response, Store))
    ensures r.0 == InvalidCourse <==> Lookup(catalog, selected).None?
    ensures r.0 == InvalidCourse ==> r.1 == store
    ensures Lookup(catalog, selected).Some?
            && gateway(OrderOptions(selected, Lookup(catalog, selected).value, customer, nowMillis)).GatewayFailed?
            ==> r == (InternalError, store)
    ensures r.1 == store || (|r.1| == |store| + 1 && r.1[..|store|] == store)
    ensures r.0.OrderCreated? <==> r.1 != store
    ensures Lookup(catalog, selected).Some?
            && gateway(OrderOptions(selected, Lookup(catalog, selected).value, customer, nowMillis)).Minted?
            ==> r.0.OrderCreated? && |r.1| == |store| + 1
    ensures r.1 != store ==>
      && Lookup(catalog, selected).Some?
      && var course := Lookup(catalog, selected).value;
         var reply := gateway(OrderOptions(selected, course, customer, nowMillis));
         var o := r.1[|store|];
         && reply.Minted?
         && o.orderId == reply.order.id == r.0.orderId
         && o.status == Created
         && o.amount == course.price * 100
         && o.currency == Currency
         && o.notes == OrderOptions(selected, course, customer, nowMillis).notes
         && o.notes.product == selected
         && o.notes.venture == Venture
         && o.notes.productName == course.name
         && o.notes.downloadLink == course.downloadLink
         && o.notes.customerName == customer.name
         && o.notes.customerEmail == customer.email
         && o.notes.customerContact == customer.contact
         && o.createdAt == createdAt
         && o.paymentId.None? && o.paidAt.None?
    ensures DownloadLinkOf(r.0).None?
  {
    match Lookup(catalog, selected)
    case None => (InvalidCourse, store)
    case Some(course) =>
      var options := OrderOptions(selected, course, customer, nowMillis);
      match gateway(options)
      case GatewayFailed => (InternalError, store)
      case Minted(order) =>
        (OrderCreated(order.id, order.amount, order.currency, order.receipt),
         store + [NewRecord(order, options, createdAt)])
  }

  /** The corrected check turns away "constructor" before the gateway is asked. */
  lemma CreateRejectsPrototypeName(store: Store, customer: Customer, nowMillis: nat,
                                   createdAt: string, gateway: Gateway)
    ensures CreateOrder(Glitch, store, "constructor", customer, nowMillis, createdAt, gateway)
            == (InvalidCourse, store)
  {
    assert Lookup(Glitch, "constructor").None? by {
      AsWrittenGuardAdmitsConstructor(Glitch[0].1);
    }
  }

  /** Create order answers 400, 500 or 200 exactly on its three outcomes. */
  lemma CreateOrderStatus(catalog: Catalog, store: Store, selected: string, customer: Customer,
                          nowMillis: nat, createdAt: string, gateway: Gateway)
    ensures var r := CreateOrder(catalog, store, selected, customer, nowMillis, createdAt, gateway);
            && (HttpStatus(r.0) == 400 <==> Lookup(catalog, selected).None?)
            && (HttpStatus(r.0) == 500 <==>
                  Lookup(catalog, selected).Some?
                  && gateway(OrderOptions(selected, Lookup(catalog, selected).value, customer, nowMillis)).GatewayFailed?)
            && (HttpStatus(r.0) == 200 <==> r.1 != store)
  {
  }

  /**
   * Create order as the handler is written: the guard is `LookupAsWritten`, so a name
   * inherited from `Object.prototype` reaches the gateway with `inherited` as its
   * course, and a successful call answers with the gateway's order object verbatim.
   */
  function CreateOrderAsWritten(catalog: Catalog, store: Store, selected: string, customer: Customer,
                                nowMillis: nat, createdAt: string, gateway: Gateway,
                                inherited: Course): (r: (Response, Store))
    ensures r.0 == InvalidCourse <==> LookupAsWritten(catalog, selected, inherited).None?
    ensures r.1 == store || (|r.1| == |store| + 1 && r.1[..|store|] == store)
    ensures r.0.GatewayEcho? <==> r.1 != store
    ensures r.0.GatewayEcho? ==>
      && LookupAsWritten(catalog, selected, inherited).Some?
      && var options := OrderOptions(selected, LookupAsWritten(catalog, selected, inherited).value,
                                     customer, nowMillis);
         && gateway(options) == Minted(r.0.order)
         && r.1[|store|] == NewRecord(r.0.order, options, createdAt)
    ensures LookupAsWritten(catalog, selected, inherited).Some? ==>
      var options := OrderOptions(selected, LookupAsWritten(catalog, selected, inherited).value,
                                  customer, nowMillis);
      && (gateway(options).GatewayFailed? ==> r == (InternalError, store))
      && (gateway(options).Minted? ==>
            r == (GatewayEcho(gateway(options).order),
                  store + [NewRecord(gateway(options).order, options, createdAt)]))
    ensures Lookup(catalog, selected).Some? || selected !in ObjectPrototypeNames ==>
      && r.1 == CreateOrder(catalog, store, selected, customer, nowMillis, createdAt, gateway).1
      && (!r.0.GatewayEcho? ==>
            r.0 == CreateOrder(catalog, store, selected, customer, nowMillis, createdAt, gateway).0)
  {
    match LookupAsWritten(catalog, selected, inherited)
    case None => (InvalidCourse, store)
    case Some(course) =>
      var options := OrderOptions(selected, course, customer, nowMillis);
      match gateway(options)
      case GatewayFailed => (InternalError, store)
      case Minted(order) => (GatewayEcho(order), store + [NewRecord(order, options, createdAt)])
  }

  /**
   * With a gateway that returns the notes it was sent, the handler as written hands
   * the course's download link to a caller who has not paid: the new record is
   * still `Created`.
   */
  lemma AsWrittenCreateLeaksDownloadLink(catalog: Catalog, store: Store, selected: string,
                                         customer: Customer, nowMillis: nat, createdAt: string,
                                         gateway: Gateway, inherited: Course)
    requires Lookup(catalog, selected).Some?
    requires var options := OrderOptions(selected, Lookup(catalog, selected).value, customer, nowMillis);
             gateway(options).Minted? && gateway(options).order.notes == options.notes
    ensures var r := CreateOrderAsWritten(catalog, store, selected, customer, nowMillis, createdAt,
                                          gateway, inherited);
            && DownloadLinkOf(r.0) == Some(Lookup(catalog, selected).value.downloadLink)
            && |r.1| == |store| + 1
            && r.1[|store|].status == Created
  {
  }

  /**
   * The handler as written sends "constructor" to the gateway; when the gateway mints
   * an order, a record for a product that is not in the catalog is stored.
   */
  lemma AsWrittenCreateStoresPrototypeName(store: Store, customer: Customer, nowMillis: nat,
                                           createdAt: string, gateway: Gateway, inherited: Course)
    requires gateway(OrderOptions("constructor", inherited, customer, nowMillis)).Minted?
    ensures var r := CreateOrderAsWritten(Glitch, store, "constructor", customer, nowMillis, createdAt,
                                          gateway, inherited);
            && r.0.GatewayEcho?
            && |r.1| == |store| + 1
            && r.1[|store|].notes.product == "constructor"
            && !Priced(Glitch, r.1[|store|])
  {
    AsWrittenGuardAdmitsConstructor(inherited);
  }

  // ---------------------------------------------------------------------------
  // Verify payment

  /** `ordersData.find(o => o.order_id === orderId)`: the first record with that id. */
  function OrderIndex(store: Store, orderId: string): (r: Option<nat>)
    ensures r.Some? ==> r.value < |store| && store[r.value].orderId == orderId
    ensures r.Some? ==> forall j :: 0 <= j < r.value ==> store[j].orderId != orderId
    ensures r.None? <==> forall j :: 0 <= j < |store| ==> store[j].orderId != orderId
  {
    Seqs.FindFirst(store, (o: Order) => o.orderId == orderId)
  }

  /** Two records agree on everything fixed at creation time. */
  predicate SameCreation(a: Order, b: Order) {
    && a.orderId == b.orderId
    && a.notes == b.notes
    && a.amount == b.amount
    && a.currency == b.currency
    && a.createdAt == b.createdAt
  }

  /** The paid transition of one record. */
  function MarkPaid(o: Order, paymentId: string, paidAt: string): (p: Order)
    ensures SameCreation(o, p)
    ensures p.status == Paid && p.paymentId == Some(paymentId) && p.paidAt == Some(paidAt)
  {
    o.(status := Paid, paymentId := Some(paymentId), paidAt := Some(paidAt))
  }

  /** Verify payment: check the signature, find the order, mark it paid, release its link. */
  function VerifyPayment(store: Store, cb: Callback, hmac: Signature.Hmac, secret: string,
                         paidAt: string): (r: (Response, Store))
    ensures r.0 == VerificationFailed
            <==> cb.signature != Signature.GatewaySignature(hmac, secret, cb.orderId, cb.paymentId)
    ensures r.0 == VerificationFailed ==> r.1 == store
    ensures r.0 == OrderNotFound
            <==> && cb.signature == Signature.GatewaySignature(hmac, secret, cb.orderId, cb.paymentId)
                 && forall j :: 0 <= j < |store| ==> store[j].orderId != cb.orderId
    ensures r.0 == OrderNotFound ==> r.1 == store
    ensures r.0.PaymentOk? || r.0 == VerificationFailed || r.0 == OrderNotFound
    ensures |r.1| == |store|
    ensures r.0.PaymentOk? ==>
      && OrderIndex(store, cb.orderId).Some?
      && var i := OrderIndex(store, cb.orderId).value;
         && SameCreation(store[i], r.1[i])
         && r.1[i].status == Paid
         && r.1[i].paymentId == Some(cb.paymentId)
         && r.1[i].paidAt == Some(paidAt)
         && (forall j :: 0 <= j < |store| && j != i ==> r.1[j] == store[j])
         && r.0 == PaymentOk(cb.orderId, cb.paymentId, store[i].notes.downloadLink, store[i].notes.productName)
  {
    if !Signature.VerifySignature(hmac, secret, cb.orderId, cb.paymentId, cb.signature) then
      (VerificationFailed, store)
    else match OrderIndex(store, cb.orderId)
      case None => (OrderNotFound, store)
      case Some(i) =>
        var order := store[i];
        (PaymentOk(cb.orderId, cb.paymentId, order.notes.downloadLink, order.notes.productName),
         store[i := MarkPaid(order, cb.paymentId, paidAt)])
  }

  /** Verify payment answers 400, 404 or 200 exactly on its three outcomes. */
  lemma VerifyPaymentStatus(store: Store, cb: Callback, hmac: Signature.Hmac, secret: string, paidAt: string)
    ensures var r := VerifyPayment(store, cb, hmac, secret, paidAt);
            var signed := cb.signature == Signature.GatewaySignature(hmac, secret, cb.orderId, cb.paymentId);
            && (HttpStatus(r.0) == 400 <==> !signed)
            && (HttpStatus(r.0) == 404 <==> signed && OrderIndex(store, cb.orderId).None?)
            && (HttpStatus(r.0) == 200 <==> signed && OrderIndex(store, cb.orderId).Some?)
  {
  }

  /** Stores whose records carry the same order ids in the same places. */
  predicate SameIds(s: Store, t: Store) {
    |s| == |t| && forall j :: 0 <= j < |s| ==> s[j].orderId == t[j].orderId
  }

  /** The first-match search only looks at order ids. */
  lemma OrderIndexOnlyReadsIds(s: Store, t: Store, orderId: string)
    requires SameIds(s, t)
    ensures OrderIndex(s, orderId) == OrderIndex(t, orderId)
  {
  }

  /**
   * No guard on the current status: repeating a verified callback succeeds again
   * with the same answer and rewrites `paid_at` (and `payment_id`) on the same record.
   */
  lemma RepeatVerifySucceedsAgain(store: Store, cb: Callback, hmac: Signature.Hmac, secret: string,
                                  t1: string, t2: string)
    requires VerifyPayment(store, cb, hmac, secret, t1).0.PaymentOk?
    ensures var (r1, s1) := VerifyPayment(store, cb, hmac, secret, t1);
            var (r2, s2) := VerifyPayment(s1, cb, hmac, secret, t2);
            var i := OrderIndex(store, cb.orderId).value;
            && r2 == r1
            && |s2| == |s1|
            && s2[i] == s1[i].(paidAt := Some(t2))
            && (forall j :: 0 <= j < |s1| && j != i ==> s2[j] == s1[j])
  {
    var (r1, s1) := VerifyPayment(store, cb, hmac, secret, t1);
    OrderIndexOnlyReadsIds(store, s1, cb.orderId);
  }

  /** No two records share an order id. */
  predicate UniqueIds(s: Store) {
    forall i, j :: 0 <= i < j < |s| ==> s[i].orderId != s[j].orderId
  }

  /** A record whose status and payment fields agree: paid exactly when both are set. */
  predicate WellFormed(o: Order) {
    && (o.status == Created <==> o.paymentId.None?)
    && (o.paymentId.None? <==> o.paidAt.None?)
  }

  predicate AllWellFormed(s: Store) {
    forall i :: 0 <= i < |s| ==> WellFormed(s[i])
  }

  /** A record's amount and currency are those its course's price dictates. */
  predicate Priced(catalog: Catalog, o: Order) {
    && Lookup(catalog, o.notes.product).Some?
    && o.amount == Lookup(catalog, o.notes.product).value.price * 100
    && o.currency == Currency
  }

  predicate AllPriced(catalog: Catalog, s: Store) {
    forall i :: 0 <= i < |s| ==> Priced(catalog, s[i])
  }

  /** When the gateway mints an id the store does not hold yet, ids stay unique. */
  lemma CreateKeepsIdsUnique(catalog: Catalog, store: Store, selected: string, customer: Customer,
                             nowMillis: nat, createdAt: string, gateway: Gateway)
    requires UniqueIds(store)
    requires forall req: OrderRequest :: gateway(req).Minted? ==>
               forall j :: 0 <= j < |store| ==> store[j].orderId != gateway(req).order.id
    ensures UniqueIds(CreateOrder(catalog, store, selected, customer, nowMillis, createdAt, gateway).1)
  {
    var r := CreateOrder(catalog, store, selected, customer, nowMillis, createdAt, gateway);
    if r.1 != store {
      var options := OrderOptions(selected, Lookup(catalog, selected).value, customer, nowMillis);
      assert r.1[|store|].orderId == gateway(options).order.id;
      forall i, j | 0 <= i < j < |r.1|
        ensures r.1[i].orderId != r.1[j].orderId
      {
        if j < |store| {
          assert r.1[i] == store[i] && r.1[j] == store[j];
        } else {
          assert r.1[i] == store[i];
        }
      }
    }
  }
}
