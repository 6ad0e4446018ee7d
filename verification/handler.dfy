/**
 * The request handler of api/index.js restricted to its three routes, and runs of
 * it over a sequence of requests: the lifecycle invariants of the order store.
 */
module Handler {
  import opened Wrappers
  import opened Courses
  import opened Orders
  import Signature

  datatype Request =
    | GetNotes
    | CreateOrderRequest(selectedNote: string, customer: Customer)
    | VerifyPaymentRequest(callback: Callback)

  /**
   * What one request sees of the world outside the store: the catalog, the gateway,
   * the keyed hash and its secret, and the clock (milliseconds and ISO text).
   */
  datatype Env = Env(
    catalog: Catalog,
    gateway: Gateway,
    hmac: Signature.Hmac,
    secret: string,
    nowMillis: nat,
    now: string)

  /** `t` is a later state of `s`: nothing removed, creation data fixed, paid stays paid. */
  predicate Evolves(s: Store, t: Store) {
    && |s| <= |t|
    && forall i :: 0 <= i < |s| ==>
         && SameCreation(s[i], t[i])
         && (s[i].status == Paid ==> t[i].status == Paid)
  }

  lemma EvolvesTransitive(s: Store, t: Store, u: Store)
    requires Evolves(s, t) && Evolves(t, u)
    ensures Evolves(s, u)
  {
  }

  /** One request against the store; the create route answers with the restricted response. */
  function Handle(store: Store, req: Request, env: Env): (r: (Response, Store))
    ensures Evolves(store, r.1)
    ensures req.GetNotes? ==> r == (NotesList(Listings(env.catalog)), store)
    ensures DownloadLinkOf(r.0).Some? ==>
      && req.VerifyPaymentRequest?
      && req.callback.signature
         == Signature.GatewaySignature(env.hmac, env.secret, req.callback.orderId, req.callback.paymentId)
      && exists i :: 0 <= i < |r.1|
           && r.1[i].orderId == req.callback.orderId
           && r.1[i].status == Paid
           && DownloadLinkOf(r.0) == Some(r.1[i].notes.downloadLink)
    ensures AllWellFormed(store) ==> AllWellFormed(r.1)
    ensures AllPriced(env.catalog, store) ==> AllPriced(env.catalog, r.1)
  {
    match req
    case GetNotes => (NotesList(Listings(env.catalog)), store)
    case CreateOrderRequest(selected, customer) =>
      CreateOrder(env.catalog, store, selected, customer, env.nowMillis, env.now, env.gateway)
    case VerifyPaymentRequest(cb) =>
      VerifyPayment(store, cb, env.hmac, env.secret, env.now)
  }

  /** The store after handling `steps` in order. */
  function Run(store: Store, steps: seq<(Request, Env)>): Store
    decreases |steps|
  {
    if |steps| == 0 then store else Run(Handle(store, steps[0].0, steps[0].1).1, steps[1..])
  }

  /** Over any run, records are only appended, never lose creation data, and never leave `Paid`. */
  lemma {:induction false} RunEvolves(store: Store, steps: seq<(Request, Env)>)
    ensures Evolves(store, Run(store, steps))
    decreases |steps|
  {
    if |steps| > 0 {
      var next := Handle(store, steps[0].0, steps[0].1).1;
      RunEvolves(next, steps[1..]);
      EvolvesTransitive(store, next, Run(store, steps));
    }
  }

  /** Over any run, a record is paid exactly when its payment id and paid time are set. */
  lemma {:induction false} RunKeepsRecordsWellFormed(store: Store, steps: seq<(Request, Env)>)
    requires AllWellFormed(store)
    ensures AllWellFormed(Run(store, steps))
    decreases |steps|
  {
    if |steps| > 0 {
      RunKeepsRecordsWellFormed(Handle(store, steps[0].0, steps[0].1).1, steps[1..]);
    }
  }

  /** Under one catalog, every record's amount stays its course price in paise, in INR. */
  lemma {:induction false} RunKeepsAmountsPriced(catalog: Catalog, store: Store, steps: seq<(Request, Env)>)
    requires forall k :: 0 <= k < |steps| ==> steps[k].1.catalog == catalog
    requires AllPriced(catalog, store)
    ensures AllPriced(catalog, Run(store, steps))
    decreases |steps|
  {
    if |steps| > 0 {
      assert steps[0].1.catalog == catalog;
      RunKeepsAmountsPriced(catalog, Handle(store, steps[0].0, steps[0].1).1, steps[1..]);
    }
  }

  /**
   * The link a paid customer receives is the one captured at creation, whatever
   * catalog the verify request runs under.
   */
  lemma SnapshotOutlivesCatalogChange(store: Store, selected: string, customer: Customer,
                                      env1: Env, env2: Env, paymentId: string)
    requires Lookup(env1.catalog, selected).Some?
    requires var reply := env1.gateway(OrderOptions(selected, Lookup(env1.catalog, selected).value,
                                                    customer, env1.nowMillis));
             && reply.Minted?
             && forall j :: 0 <= j < |store| ==> store[j].orderId != reply.order.id
    ensures var (r1, s1) := Handle(store, CreateOrderRequest(selected, customer), env1);
            var sig := Signature.GatewaySignature(env2.hmac, env2.secret, r1.orderId, paymentId);
            var (r2, s2) := Handle(s1, VerifyPaymentRequest(Callback(r1.orderId, paymentId, sig)), env2);
            r2 == PaymentOk(r1.orderId, paymentId,
                            Lookup(env1.catalog, selected).value.downloadLink,
                            Lookup(env1.catalog, selected).value.name)
  {
    var (r1, s1) := Handle(store, CreateOrderRequest(selected, customer), env1);
    var sig := Signature.GatewaySignature(env2.hmac, env2.secret, r1.orderId, paymentId);
    assert forall j :: 0 <= j < |store| ==> s1[j] == store[j];
    assert OrderIndex(s1, r1.orderId) == Some(|store|);
  }

  /** A gateway that mints order `id` for every request and keeps what it was sent. */
  function MintingGateway(id: string): Gateway {
    (req: OrderRequest) => Minted(GatewayOrder(id, req.amount, req.currency, req.receipt, req.notes))
  }

  /** Creating an "andrew_tate" order (79 rupees) on an empty store records 7900 paise. */
  lemma CreateScenario(hmac: Signature.Hmac, secret: string, t1: string)
    ensures
      var env := Env(Glitch, MintingGateway("order_1"), hmac, secret, 0, t1);
      var s1 := Handle([], CreateOrderRequest("andrew_tate", Customer("A", "a@x.com", "999")), env).1;
      && |s1| == 1
      && s1[0].orderId == "order_1" && s1[0].amount == 7900 && s1[0].status == Created
      && s1[0].notes.downloadLink == Glitch[1].1.downloadLink
      && s1[0].notes.productName == "Andrew Tate Courses"
  {
    AndrewTateListed();
  }

  /**
   * Paying for that order: the signed callback releases the course's link and name;
   * the same callback again answers the same and only rewrites the paid time.
   */
  lemma PayScenario(hmac: Signature.Hmac, secret: string, t1: string, t2: string)
    ensures
      var env := Env(Glitch, MintingGateway("order_1"), hmac, secret, 0, t1);
      var s1 := Handle([], CreateOrderRequest("andrew_tate", Customer("A", "a@x.com", "999")), env).1;
      var sig := Signature.GatewaySignature(hmac, secret, "order_1", "pay_1");
      var cb := VerifyPaymentRequest(Callback("order_1", "pay_1", sig));
      var (r2, s2) := Handle(s1, cb, env);
      var (r3, s3) := Handle(s2, cb, env.(now := t2));
      && r2 == PaymentOk("order_1", "pay_1", Glitch[1].1.downloadLink, "Andrew Tate Courses")
      && s2[0].status == Paid && s2[0].paymentId == Some("pay_1") && s2[0].paidAt == Some(t1)
      && r3 == r2
      && s3[0] == s2[0].(paidAt := Some(t2))
  {
    var env := Env(Glitch, MintingGateway("order_1"), hmac, secret, 0, t1);
    var s1 := Handle([], CreateOrderRequest("andrew_tate", Customer("A", "a@x.com", "999")), env).1;
    CreateScenario(hmac, secret, t1);
    PayFromStore(s1, hmac, secret, t1, t2);
  }

  /** The paying half of the scenario, for any store holding just that order. */
  lemma PayFromStore(s1: Store, hmac: Signature.Hmac, secret: string, t1: string, t2: string)
    requires |s1| == 1 && s1[0].orderId == "order_1"
    requires s1[0].notes.downloadLink == Glitch[1].1.downloadLink
    requires s1[0].notes.productName == "Andrew Tate Courses"
    ensures
      var env := Env(Glitch, MintingGateway("order_1"), hmac, secret, 0, t1);
      var sig := Signature.GatewaySignature(hmac, secret, "order_1", "pay_1");
      var cb := VerifyPaymentRequest(Callback("order_1", "pay_1", sig));
      var (r2, s2) := Handle(s1, cb, env);
      var (r3, s3) := Handle(s2, cb, env.(now := t2));
      && r2 == PaymentOk("order_1", "pay_1", Glitch[1].1.downloadLink, "Andrew Tate Courses")
      && s2[0].status == Paid && s2[0].paymentId == Some("pay_1") && s2[0].paidAt == Some(t1)
      && r3 == r2
      && s3[0] == s2[0].(paidAt := Some(t2))
  {
    var cb := Callback("order_1", "pay_1", Signature.GatewaySignature(hmac, secret, "order_1", "pay_1"));
    assert OrderIndex(s1, "order_1") == Some(0);
    RepeatVerifySucceedsAgain(s1, cb, hmac, secret, t1, t2);
  }

  /**
   * The create route as the handler is written keeps every store invariant, and for
   * any id that is not an `Object.prototype` name its store is the one `Handle`
   * produces, so the run lemmas cover it too.
   */
  lemma AsWrittenCreateStep(store: Store, selected: string, customer: Customer, env: Env, inherited: Course)
    ensures var r := CreateOrderAsWritten(env.catalog, store, selected, customer, env.nowMillis, env.now,
                                          env.gateway, inherited);
            && Evolves(store, r.1)
            && (AllWellFormed(store) ==> AllWellFormed(r.1))
            && (selected !in ObjectPrototypeNames ==>
                  r.1 == Handle(store, CreateOrderRequest(selected, customer), env).1)
  {
    var r := CreateOrderAsWritten(env.catalog, store, selected, customer, env.nowMillis, env.now,
                                  env.gateway, inherited);
    if r.1 != store {
      assert forall i :: 0 <= i < |store| ==> r.1[i] == store[i];
    }
  }

  lemma AndrewTateListed()
    ensures Lookup(Glitch, "andrew_tate") == Some(Glitch[1].1)
    ensures Glitch[1].1.price == 79 && Glitch[1].1.name == "Andrew Tate Courses"
  {
    GlitchWellFormed();
    LookupFindsEntry(Glitch, 1);
  }
}
