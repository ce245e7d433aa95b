/** What each transaction of the cloud API does to the database: the whole new database and the
    reply, or the unchanged database and an error. A run is a sequence of transactions. */
module Handlers {
  import opened Wrappers
  import opened Text
  import opened Tables

  datatype Configured = UseManual | UseStripe | UseAlipay | UseWechatPay | UseUnknown(name: string)

  datatype Config = Config(
    payment: Configured,
    stripeAmount: int, stripeCurrency: string,
    wechatAmount: int, wechatCurrency: string,
    wechatAppId: Option<string>, wechatMchId: Option<string>,
    testAccess: bool, testDays: u16, testDevices: u8,
    signingKey: bool, issuer: string, audience: string)

  /** The outcome of a transaction: the committed (or rolled back) database and the reply. */
  datatype Outcome<+T> = Outcome(db: Db, result: Result<T>)

  /** Commit on success; dropping the transaction on an early error restores the database. */
  function Commit<T>(db: Db, body: Result<(Db, T)>): Outcome<T> {
    if body.Ok? then Outcome(body.value.0, Ok(body.value.1)) else Outcome(db, Err(body.error))
  }

  /** The random id and code of a card key generated for one request. */
  datatype NewKey = NewKey(id: KeyId, code: Code)

  // --- Orders ---

  datatype Plan = Plan(code: string, amount: int, currency: string)

  function PlanDefinition(cfg: Config, requested: Option<string>): Result<Plan> {
    var code := if requested.Some? && !Blank(requested.value) then Trim(requested.value) else STANDARD_PLAN;
    if code != STANDARD_PLAN then Err(BadRequest)
    else if cfg.payment.UseWechatPay? then
      Ok(Plan(STANDARD_PLAN, cfg.wechatAmount, AsciiUpper(Trim(cfg.wechatCurrency))))
    else
      Ok(Plan(STANDARD_PLAN, cfg.stripeAmount, AsciiLower(Trim(cfg.stripeCurrency))))
  }

  function OrderProvider(configured: Configured): Result<Provider> {
    match configured
    case UseManual => Ok(Manual)
    case UseStripe => Ok(Stripe)
    case UseWechatPay => Ok(WechatPay)
    case UseAlipay => Err(ServiceUnavailable)
    case UseUnknown(_) => Err(ServiceUnavailable)
  }

  function NewOrder(user: UserId, plan: Plan, provider: Provider, reference: string): Order {
    Order(user, plan.code, if provider.Manual? then PendingManual else PendingProvider, provider,
          reference, plan.amount, plan.currency, None, None, None, None)
  }

  function CreateOrderBody(cfg: Config, db: Db, user: UserId, requested: Option<string>, o: OrderId,
                           reference: string): Result<(Db, Order)> {
    var plan :- PlanDefinition(cfg, requested);
    var provider :- OrderProvider(cfg.payment);
    var row := NewOrder(user, plan, provider, reference);
    var db1 :- InsertOrder(db, o, row);
    Ok((db1, row))
  }

  function CreateOrder(cfg: Config, db: Db, user: UserId, requested: Option<string>, o: OrderId,
                       reference: string): Outcome<Order> {
    Commit(db, CreateOrderBody(cfg, db, user, requested, o, reference))
  }

  function AttachBody(db: Db, o: OrderId, session: string): Result<(Db, ())> {
    var db1 :- AttachCheckoutSession(db, o, session);
    Ok((db1, ()))
  }

  // --- Manual confirmation ---

  /** The 30-day, one-device key of a manually confirmed order, ready to be redeemed. */
  function ManualKey(plan: string, o: OrderId, code: Code): CardKey {
    CardKey(Some(o), plan, code, 30, 1, Available, None, None)
  }

  function ConfirmBody(db: Db, o: OrderId, key: NewKey, at: Time): Result<(Db, Code)> {
    var db1 :- ConfirmPendingOrder(db, o, at);
    var db2 :- InsertCardKey(db1, key.id, ManualKey(db1.orders[o].plan, o, key.code));
    Ok((db2, key.code))
  }

  function ConfirmOrder(db: Db, o: OrderId, key: NewKey, at: Time): Outcome<Code> {
    Commit(db, ConfirmBody(db, o, key, at))
  }

  /** An order `WHERE payment_reference = $1` may find. */
  ghost function OrderByReference(db: Db, reference: string): (found: Option<OrderId>)
    ensures found.Some? ==> found.value in db.orders && db.orders[found.value].reference == reference
    ensures found.None? ==> !ReferenceTaken(db.orders, reference)
  {
    if ReferenceTaken(db.orders, reference) then
      var o :| o in db.orders && db.orders[o].reference == reference;
      Some(o)
    else None
  }

  ghost function ConfirmByReference(db: Db, reference: string, key: NewKey, at: Time): Outcome<Code> {
    var found := OrderByReference(db, reference);
    if found.None? then Outcome(db, Err(NotFound)) else ConfirmOrder(db, found.value, key, at)
  }

  // --- Paid orders ---

  function FulfillmentTerms(plan: string): Result<(u16, u8)> {
    if plan == STANDARD_PLAN then Ok((30, 1)) else Err(BadRequest)
  }

  /** What fulfilling a paid order creates besides its own ids. */
  datatype Grant = Grant(key: NewKey, ent: EntId, at: Time)

  function NewEntitlement(user: UserId, plan: string, source: KeyId, at: Time, days: u16): Entitlement {
    Entitlement(user, plan, source, DEFAULT_FEATURES, at + days * DAY, None)
  }

  /** Insert a key, redeem it for `user` and insert the entitlement it buys. */
  function GrantKey(db: Db, key: CardKey, user: UserId, grant: Grant): Result<Db> {
    var db1 :- InsertCardKey(db, grant.key.id, key);
    var db2 :- MarkCardKeyRedeemed(db1, grant.key.id, user, grant.at);
    InsertEntitlement(db2, grant.ent, NewEntitlement(user, key.plan, grant.key.id, grant.at, key.days))
  }

  function Provision(db: Db, o: OrderId, order: Order, grant: Grant): Result<Db> {
    var terms :- FulfillmentTerms(order.plan);
    GrantKey(db, CardKey(Some(o), order.plan, grant.key.code, terms.0, terms.1, Available, None, None),
             order.user, grant)
  }

  /** Confirm a pending provider order and provision it. */
  function Settle(db: Db, o: OrderId, order: Order, intent: Option<string>, paidAt: Time, grant: Grant): Result<Db> {
    var db1 :- ConfirmProviderOrder(db, o, intent, paidAt);
    Provision(db1, o, order, grant)
  }

  /** Record nothing but the event, for deliveries that ask for no fulfilment. */
  function Ignore(db: Db, key: EventKey, kind: string): Outcome<bool> {
    var r := InsertPaymentEvent(db, key, PaymentEvent(kind, None));
    if r.Ok? then Outcome(r.value.0, Ok(false)) else Outcome(db, Err(r.error))
  }

  /** An order id as text: a UUID, or something that does not parse as one. */
  datatype RawId = Unparsable | Parsed(id: OrderId)

  datatype StripeSession = StripeSession(
    id: string, paymentStatus: Option<string>, metadataOrder: Option<RawId>, clientReference: Option<RawId>,
    amountTotal: Option<int>, currency: Option<string>, intent: Option<string>)

  datatype StripeDelivery = StripeDelivery(
    event: string, kind: string, session: StripeSession, paidAt: Time, grant: Grant)

  predicate IsCheckoutKind(kind: string) {
    kind == "checkout.session.completed" || kind == "checkout.session.async_payment_succeeded"
  }

  predicate StripePaid(d: StripeDelivery) {
    IsCheckoutKind(d.kind) && d.session.paymentStatus == Some("paid")
  }

  /** The metadata entry wins over the client reference even when it does not parse. */
  function SessionOrderId(session: StripeSession): Result<OrderId> {
    var raw := if session.metadataOrder.Some? then session.metadataOrder else session.clientReference;
    if raw.None? || raw.value.Unparsable? then Err(BadRequest) else Ok(raw.value.id)
  }

  predicate SessionMatches(session: StripeSession, order: Order) {
    && order.provider.Stripe?
    && order.session == Some(session.id)
    && session.amountTotal == Some(order.amount)
    && session.currency.Some? && AsciiLower(session.currency.value) == order.currency
  }

  function StripeKey(d: StripeDelivery): EventKey {
    EventKey(Stripe, d.event)
  }

  function StripeBody(db: Db, d: StripeDelivery, o: OrderId): Result<(Db, bool)> {
    var (db1, inserted) :- InsertPaymentEvent(db, StripeKey(d), PaymentEvent(d.kind, Some(o)));
    if !inserted then Ok((db1, false))
    else if o !in db1.orders then Err(NotFound)
    else
      var order := db1.orders[o];
      var _ :- Need(SessionMatches(d.session, order), BadRequest);
      if order.status.Confirmed? then Ok((db1, false))
      else if !order.status.PendingProvider? then Err(Conflict)
      else
        var db2 :- Settle(db1, o, order, d.session.intent, d.paidAt, d.grant);
        Ok((db2, true))
  }

  function StripeWebhook(db: Db, d: StripeDelivery): Outcome<bool> {
    if !StripePaid(d) then Ignore(db, StripeKey(d), d.kind)
    else
      var id := SessionOrderId(d.session);
      if id.Err? then Outcome(db, Err(id.error)) else Commit(db, StripeBody(db, d, id.value))
  }

  datatype WechatTransaction = WechatTransaction(
    appId: string, mchId: string, tradeType: Option<string>, tradeState: string, outTradeNo: string,
    transactionId: Option<string>, total: int, currency: Option<string>, successTime: Option<Time>)

  datatype WechatDelivery = WechatDelivery(
    event: string, kind: string, transaction: WechatTransaction, receivedAt: Time, grant: Grant)

  predicate WechatPaid(d: WechatDelivery) {
    d.kind == "TRANSACTION.SUCCESS" && d.transaction.tradeState == "SUCCESS"
  }

  function RequiredConfig(value: Option<string>): Result<string> {
    if value.None? || Blank(value.value) then Err(ServiceUnavailable) else Ok(value.value)
  }

  predicate TransactionFits(t: WechatTransaction, order: Order) {
    && t.tradeType == Some("NATIVE")
    && order.provider.WechatPay?
    && order.reference == t.outTradeNo
    && t.total == order.amount
    && AsciiUpper(t.currency.GetOr("CNY")) == AsciiUpper(order.currency)
  }

  function CheckTransaction(cfg: Config, t: WechatTransaction, order: Order): Result<()> {
    var appId :- RequiredConfig(cfg.wechatAppId);
    var mchId :- RequiredConfig(cfg.wechatMchId);
    Need(t.appId == appId && t.mchId == mchId && TransactionFits(t, order), BadRequest)
  }

  /** `WHERE payment_provider = $1 AND payment_reference = $2`. */
  ghost function ProviderOrder(db: Db, provider: Provider, reference: string): (found: Option<OrderId>)
    ensures found.Some? ==> found.value in db.orders && db.orders[found.value].provider == provider
                            && db.orders[found.value].reference == reference
    ensures found.None? ==> forall o | o in db.orders ::
                              db.orders[o].reference == reference ==> db.orders[o].provider != provider
  {
    if exists o | o in db.orders :: db.orders[o].provider == provider && db.orders[o].reference == reference then
      var o :| o in db.orders && db.orders[o].provider == provider && db.orders[o].reference == reference;
      Some(o)
    else None
  }

  function WechatKey(d: WechatDelivery): EventKey {
    EventKey(WechatPay, d.event)
  }

  function WechatBody(cfg: Config, db: Db, d: WechatDelivery, o: OrderId, order: Order): Result<(Db, bool)> {
    var _ :- CheckTransaction(cfg, d.transaction, order);
    var (db1, inserted) :- InsertPaymentEvent(db, WechatKey(d), PaymentEvent(d.kind, Some(o)));
    if !inserted || order.status.Confirmed? then Ok((db1, false))
    else if !order.status.PendingProvider? then Err(Conflict)
    else
      var paidAt := d.transaction.successTime.GetOr(d.receivedAt);
      var intent := d.transaction.transactionId.GetOr(d.transaction.outTradeNo);
      var db2 :- Settle(db1, o, order, Some(intent), paidAt, d.grant);
      Ok((db2, true))
  }

  ghost function WechatWebhook(cfg: Config, db: Db, d: WechatDelivery): Outcome<bool> {
    if !WechatPaid(d) then Ignore(db, WechatKey(d), d.kind)
    else
      var found := ProviderOrder(db, WechatPay, d.transaction.outTradeNo);
      if found.None? then Outcome(db, Err(NotFound))
      else Commit(db, WechatBody(cfg, db, d, found.value, db.orders[found.value]))
  }

  // --- Card keys ---

  function CheckLimits(days: u16, devices: u8): Result<()> {
    Need(days != 0 && devices != 0, BadRequest)
  }

  /** What a request to generate keys asks for, and the ids its keys draw. */
  datatype KeyRequest = KeyRequest(
    count: nat, plan: Option<string>, days: Option<u16>, devices: Option<u8>, draw: nat -> NewKey)

  function KeyCount(count: nat): nat {
    if count < 1 then 1 else if count > 50 then 50 else count
  }

  function FreeKey(request: KeyRequest, code: Code): CardKey {
    CardKey(None, request.plan.GetOr(STANDARD_PLAN), code, request.days.GetOr(30), request.devices.GetOr(1),
            Available, None, None)
  }

  /** Insert the first `n` keys of the request, in order. */
  function InsertFreeKeys(db: Db, request: KeyRequest, n: nat): Result<Db> {
    if n == 0 then Ok(db)
    else
      var db1 :- InsertFreeKeys(db, request, n - 1);
      InsertCardKey(db1, request.draw(n - 1).id, FreeKey(request, request.draw(n - 1).code))
  }

  function CreateKeysBody(db: Db, request: KeyRequest): Result<(Db, seq<Code>)> {
    var _ :- CheckLimits(request.days.GetOr(30), request.devices.GetOr(1));
    var n := KeyCount(request.count);
    var db1 :- InsertFreeKeys(db, request, n);
    Ok((db1, seq(n, i requires 0 <= i < n => request.draw(i).code)))
  }

  /** The key `WHERE code_fingerprint = $1` may find. */
  ghost function KeyByCode(db: Db, code: Code): (found: Option<KeyId>)
    ensures found.Some? ==> found.value in db.keys && db.keys[found.value].code == code
    ensures found.None? ==> !CodeTaken(db.keys, code)
  {
    if CodeTaken(db.keys, code) then
      var k :| k in db.keys && db.keys[k].code == code;
      Some(k)
    else None
  }

  function RedeemBody(db: Db, user: UserId, k: KeyId, key: CardKey, e: EntId, at: Time): Result<(Db, Entitlement)> {
    var _ :- Need(key.status.Available?, Conflict);
    var row := NewEntitlement(user, key.plan, k, at, key.days);
    var db1 :- MarkCardKeyRedeemed(db, k, user, at);
    var db2 :- InsertEntitlement(db1, e, row);
    Ok((db2, row))
  }

  ghost function Redeem(db: Db, user: UserId, code: Code, e: EntId, at: Time): Outcome<Entitlement> {
    var found := KeyByCode(db, code);
    if found.None? then Outcome(db, Err(NotFound))
    else Commit(db, RedeemBody(db, user, found.value, db.keys[found.value], e, at))
  }

  /** A standard-plan entitlement with every feature and at least `devices` devices. */
  predicate HasFullAccess(db: Db, user: UserId, devices: u8, now: Time) {
    exists e | e in db.ents ::
      && Usable(db, user, now, e)
      && db.ents[e].plan == STANDARD_PLAN
      && db.keys[db.ents[e].source].maxDevices >= devices
      && forall f | f in DEFAULT_FEATURES :: f in db.ents[e].features
  }

  function TestKey(cfg: Config, code: Code): CardKey {
    CardKey(None, STANDARD_PLAN, code, cfg.testDays, cfg.testDevices, Available, None, None)
  }

  function GrantTestBody(cfg: Config, db: Db, user: UserId, now: Time, grant: Grant): Result<(Db, ())> {
    if HasFullAccess(db, user, cfg.testDevices, now) then Ok((db, ()))
    else
      var db1 :- GrantKey(db, TestKey(cfg, grant.key.code), user, grant);
      Ok((db1, ()))
  }

  /** `cfg.testAccess` is whether any test identities are configured, `allowlisted` whether they
      name this user. */
  function GrantTestAccess(cfg: Config, db: Db, user: UserId, allowlisted: bool, now: Time, grant: Grant): Outcome<()> {
    if !cfg.testAccess then Outcome(db, Ok(()))
    else if user !in db.users then Outcome(db, Err(Unauthorized))
    else if !allowlisted then Outcome(db, Ok(()))
    else Commit(db, GrantTestBody(cfg, db, user, now, grant))
  }

  // --- Devices and leases ---

  predicate AllowsNewActivation(active: nat, maxDevices: u8) {
    active < maxDevices
  }

  predicate AllowsActiveFleet(active: nat, maxDevices: u8) {
    active <= maxDevices
  }

  /** `limit` is the row the entitlement query returned, if any. */
  function ActivateBody(db: Db, user: UserId, name: string, fingerprint: string, limit: Option<EntId>,
                        now: Time): Result<(Db, Device)> {
    var _ :- Need(user in db.users, Unauthorized);
    var _ :- Need(limit.Some? && limit.value in db.ents && db.ents[limit.value].source in db.keys, Forbidden);
    var key := DeviceKey(user, fingerprint);
    var _ :- Need(
      || (key in db.devices && db.devices[key].status.Active?)
      || AllowsNewActivation(|ActiveDevices(db.devices, user)|, db.keys[db.ents[limit.value].source].maxDevices),
      Forbidden);
    var row := Device(Derived(user, fingerprint), name, Active, now, Some(now));
    var db1 :- UpsertDevice(db, key, row);
    Ok((db1, db1.devices[key]))
  }

  function Activate(db: Db, user: UserId, name: string, fingerprint: string, limit: Option<EntId>,
                    now: Time): Outcome<Device> {
    if Blank(name) || Blank(fingerprint) then Outcome(db, Err(BadRequest))
    else Commit(db, ActivateBody(db, user, name, fingerprint, limit, now))
  }

  datatype Lease = Lease(
    leaseId: int, user: UserId, device: DeviceId, ent: EntId, features: seq<Feature>,
    issuedAt: Time, expiresAt: Time)

  function NewLease(leaseId: int, user: UserId, device: DeviceId, e: EntId, row: Entitlement, now: Time): Lease {
    var requested := now + DAY;
    Lease(leaseId, user, device, e, row.features, now,
          if requested <= row.expiresAt then requested else row.expiresAt)
  }

  /** A lease request with the successive readings of the clock and the rows the two
      entitlement queries returned. */
  datatype LeaseRequest = LeaseRequest(
    user: UserId, device: DeviceId, leaseId: int,
    pickAt: Time, pick: Option<EntId>, limitAt: Time, limit: Option<EntId>, touchAt: Time, issueAt: Time)

  predicate IsActiveDevice(db: Db, user: UserId, id: DeviceId, key: DeviceKey) {
    && key in db.devices && key.user == user
    && db.devices[key].id == id && db.devices[key].status.Active?
  }

  ghost function ActiveDevice(db: Db, user: UserId, id: DeviceId): (found: Option<DeviceKey>)
    ensures found.Some? ==> IsActiveDevice(db, user, id, found.value)
    ensures found.None? ==> forall key | key in db.devices :: !IsActiveDevice(db, user, id, key)
  {
    if exists key | key in db.devices :: IsActiveDevice(db, user, id, key) then
      var key :| key in db.devices && IsActiveDevice(db, user, id, key);
      Some(key)
    else None
  }

  ghost function LeaseBody(db: Db, r: LeaseRequest): Result<(Db, Lease)> {
    var found := ActiveDevice(db, r.user, r.device);
    var _ :- Need(found.Some?, NotFound);
    var _ :- Need(r.pick.Some? && r.pick.value in db.ents, Forbidden);
    var _ :- Need(r.limit.Some? && r.limit.value in db.ents && db.ents[r.limit.value].source in db.keys, Forbidden);
    var _ :- Need(AllowsActiveFleet(|ActiveDevices(db.devices, r.user)|,
                                    db.keys[db.ents[r.limit.value].source].maxDevices), Forbidden);
    Ok((TouchDevice(db, found.value, r.touchAt),
        NewLease(r.leaseId, r.user, r.device, r.pick.value, db.ents[r.pick.value], r.issueAt)))
  }

  /** Signing comes after the commit, so a missing key loses the lease but keeps the update. */
  ghost function IssueLease(cfg: Config, db: Db, r: LeaseRequest): Outcome<Lease> {
    var out := Commit(db, LeaseBody(db, r));
    if out.result.Ok? && !cfg.signingKey then Outcome(out.db, Err(ServiceUnavailable)) else out
  }

  function RevokeBody(db: Db, e: EntId, at: Time): Result<(Db, ())> {
    var db1 :- RevokeEntitlement(db, e, at);
    Ok((db1, ()))
  }

  // --- Runs ---

  datatype Tx =
    | AddUser(user: UserId)
    | PlaceOrder(user: UserId, plan: Option<string>, order: OrderId, reference: string)
    | AttachSession(order: OrderId, session: string)
    | ConfirmById(order: OrderId, key: NewKey, at: Time)
    | ConfirmByRef(reference: string, key: NewKey, at: Time)
    | StripeEvent(stripe: StripeDelivery)
    | WechatEvent(wechat: WechatDelivery)
    | CreateKeys(request: KeyRequest)
    | RedeemCode(user: UserId, code: Code, ent: EntId, at: Time)
    | EnsureTestAccess(user: UserId, allowlisted: bool, at: Time, grant: Grant)
    | ActivateDevice(user: UserId, name: string, fingerprint: string, queryAt: Time, limit: Option<EntId>, at: Time)
    | RequestLease(lease: LeaseRequest)
    | Revoke(ent: EntId, at: Time)
    | Dropped  // the connection failed before the commit

  datatype Reply =
    | Done
    | OrderPlaced(order: Order)
    | KeyIssued(code: Code)
    | Processed(fulfilled: bool)
    | KeysIssued(codes: seq<Code>)
    | Granted(entitlement: Entitlement)
    | DeviceReady(device: Device)
    | LeaseGranted(lease: Lease)

  function Map<T, U>(out: Outcome<T>, f: T -> U): Outcome<U> {
    Outcome(out.db, if out.result.Ok? then Ok(f(out.result.value)) else Err(out.result.error))
  }

  /** The row a best-entitlement query returned: a best row, or none when no row qualifies. */
  predicate QueryAnswer(db: Db, user: UserId, now: Time, answer: Option<EntId>) {
    if answer.Some? then IsBest(db, user, now, answer.value) else !AnyUsable(db, user, now)
  }

  /** Rows and clock readings a database could really have produced. */
  predicate Possible(db: Db, tx: Tx) {
    match tx
    case ActivateDevice(user, _, _, queryAt, limit, _) => QueryAnswer(db, user, queryAt, limit)
    case RequestLease(r) =>
      && r.pickAt <= r.limitAt <= r.touchAt <= r.issueAt
      && QueryAnswer(db, r.user, r.pickAt, r.pick) && QueryAnswer(db, r.user, r.limitAt, r.limit)
    case _ => true
  }

  ghost function Step(cfg: Config, db: Db, tx: Tx): Outcome<Reply>
    requires Possible(db, tx)
  {
    match tx
    case AddUser(u) => Outcome(db.(users := db.users + {u}), Ok(Done))
    case PlaceOrder(u, plan, o, reference) => Map(CreateOrder(cfg, db, u, plan, o, reference), r => OrderPlaced(r))
    case AttachSession(o, s) => Map(Commit(db, AttachBody(db, o, s)), _ => Done)
    case ConfirmById(o, key, at) => Map(ConfirmOrder(db, o, key, at), c => KeyIssued(c))
    case ConfirmByRef(reference, key, at) => Map(ConfirmByReference(db, reference, key, at), c => KeyIssued(c))
    case StripeEvent(d) => Map(StripeWebhook(db, d), b => Processed(b))
    case WechatEvent(d) => Map(WechatWebhook(cfg, db, d), b => Processed(b))
    case CreateKeys(request) => Map(Commit(db, CreateKeysBody(db, request)), cs => KeysIssued(cs))
    case RedeemCode(u, code, e, at) => Map(Redeem(db, u, code, e, at), e => Granted(e))
    case EnsureTestAccess(u, listed, at, grant) => Map(GrantTestAccess(cfg, db, u, listed, at, grant), _ => Done)
    case ActivateDevice(u, name, fp, _, limit, at) => Map(Activate(db, u, name, fp, limit, at), d => DeviceReady(d))
    case RequestLease(r) => Map(IssueLease(cfg, db, r), l => LeaseGranted(l))
    case Revoke(e, at) => Map(Commit(db, RevokeBody(db, e, at)), _ => Done)
    case Dropped => Outcome(db, Err(Internal))
  }

  /** Every transaction of the run is possible where it happens. */
  ghost predicate PossibleRun(cfg: Config, db: Db, txs: seq<Tx>)
    decreases |txs|
  {
    txs == [] || (Possible(db, txs[0]) && PossibleRun(cfg, Step(cfg, db, txs[0]).db, txs[1..]))
  }

  /** The database a run leaves behind. */
  ghost function Run(cfg: Config, db: Db, txs: seq<Tx>): Db
    requires PossibleRun(cfg, db, txs)
    decreases |txs|
  {
    if txs == [] then db else Run(cfg, Step(cfg, db, txs[0]).db, txs[1..])
  }
}
