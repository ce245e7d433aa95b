/** What transactions leave alone: the shape of every webhook delivery, and what rows keep for
    as long as the database lives. */
module Endurance {
  import opened Wrappers
  import opened Text
  import opened Tables
  import opened Handlers

  // --- Deliveries ---

  /** What every delivery carrying event `key` does besides fulfilling an order: an error undoes
      everything, any other answer has the event recorded, a recorded event stops the delivery,
      and unless the answer is `true` nothing but the event is written. */
  ghost predicate DeliveryShape(db: Db, key: EventKey, out: Outcome<bool>) {
    && (out.result.Err? ==> out.db == db)
    && (out.result.Ok? ==> key in out.db.events)
    && (key in db.events ==> out.db == db && out.result != Ok(true))
    && (forall other | other != key || other in db.events ::
          (other in out.db.events <==> other in db.events)
          && (other in db.events ==> out.db.events[other] == db.events[other]))
    && (out.result != Ok(true) ==> out.db == db.(events := out.db.events))
    && out.db.users == db.users && out.db.devices == db.devices
  }

  lemma SettleLeaves(db: Db, o: OrderId, order: Order, intent: Option<string>, paidAt: Time, grant: Grant)
    requires Settle(db, o, order, intent, paidAt, grant).Ok?
    ensures var db' := Settle(db, o, order, intent, paidAt, grant).value;
            db' == db.(orders := db'.orders, keys := db'.keys, ents := db'.ents)
  {
  }

  lemma StripeBodyShape(db: Db, d: StripeDelivery, o: OrderId)
    ensures DeliveryShape(db, StripeKey(d), Commit(db, StripeBody(db, d, o)))
  {
    hide Settle, SessionMatches;
    var body := StripeBody(db, d, o);
    if body.Ok? && body.value.1 {
      var db1 := InsertPaymentEvent(db, StripeKey(d), PaymentEvent(d.kind, Some(o))).value.0;
      SettleLeaves(db1, o, db.orders[o], d.session.intent, d.paidAt, d.grant);
    }
  }

  lemma IgnoredShape(db: Db, key: EventKey, kind: string)
    ensures DeliveryShape(db, key, Ignore(db, key, kind))
  {
  }

  lemma StripeShape(db: Db, d: StripeDelivery)
    ensures DeliveryShape(db, StripeKey(d), StripeWebhook(db, d))
  {
    hide DeliveryShape, StripeBody, Ignore, StripePaid;
    var id := SessionOrderId(d.session);
    if !StripePaid(d) {
      IgnoredShape(db, StripeKey(d), d.kind);
    } else if id.Ok? {
      StripeBodyShape(db, d, id.value);
    } else {
      NothingDone(db, StripeKey(d), id.error);
    }
  }

  lemma NothingDone(db: Db, key: EventKey, error: ApiError)
    ensures DeliveryShape(db, key, Outcome(db, Err(error)))
  {
  }

  lemma WechatBodyShape(cfg: Config, db: Db, d: WechatDelivery, o: OrderId)
    requires o in db.orders
    ensures DeliveryShape(db, WechatKey(d), Commit(db, WechatBody(cfg, db, d, o, db.orders[o])))
  {
    hide Settle, CheckTransaction;
    var body := WechatBody(cfg, db, d, o, db.orders[o]);
    if body.Ok? && body.value.1 {
      var db1 := InsertPaymentEvent(db, WechatKey(d), PaymentEvent(d.kind, Some(o))).value.0;
      var paidAt := d.transaction.successTime.GetOr(d.receivedAt);
      var intent := d.transaction.transactionId.GetOr(d.transaction.outTradeNo);
      SettleLeaves(db1, o, db.orders[o], Some(intent), paidAt, d.grant);
    }
  }

  lemma WechatShape(cfg: Config, db: Db, d: WechatDelivery)
    ensures DeliveryShape(db, WechatKey(d), WechatWebhook(cfg, db, d))
  {
    hide DeliveryShape, WechatBody, Ignore, WechatPaid;
    var found := ProviderOrder(db, WechatPay, d.transaction.outTradeNo);
    if !WechatPaid(d) {
      IgnoredShape(db, WechatKey(d), d.kind);
    } else if found.Some? {
      WechatBodyShape(cfg, db, d, found.value);
    } else {
      NothingDone(db, WechatKey(d), NotFound);
    }
  }

  // --- Rows ---

  /** What never changes about an order once it is placed. */
  predicate SameTerms(a: Order, b: Order) {
    && a.user == b.user && a.plan == b.plan && a.provider == b.provider
    && a.amount == b.amount && a.currency == b.currency
  }

  predicate OrderEndures(a: Order, b: Order) {
    SameTerms(a, b) && (a.status.Confirmed? ==> b == a)
  }

  /** A key changes at most by being redeemed, once. */
  predicate KeyEndures(a: CardKey, b: CardKey) {
    || a == b
    || (&& a.status.Available?
        && b == a.(status := Redeemed, redeemedBy := b.redeemedBy, redeemedAt := b.redeemedAt))
  }

  predicate EntitlementEndures(a: Entitlement, b: Entitlement) {
    b == a.(revokedAt := b.revokedAt) && (a.revokedAt.Some? ==> b.revokedAt.Some?)
  }

  /** A device is renamed and seen again, never retired. */
  predicate DeviceEndures(a: Device, b: Device) {
    a.id == b.id && a.activatedAt == b.activatedAt && (a.status.Active? ==> b.status.Active?)
  }

  /** No row of `db` is missing from `db'`, and each keeps what its kind of row keeps. */
  predicate Endures(db: Db, db': Db) {
    && db.users <= db'.users
    && (forall o | o in db.orders :: o in db'.orders && OrderEndures(db.orders[o], db'.orders[o]))
    && (forall v | v in db.events :: v in db'.events && db'.events[v] == db.events[v])
    && (forall k | k in db.keys :: k in db'.keys && KeyEndures(db.keys[k], db'.keys[k]))
    && (forall e | e in db.ents :: e in db'.ents && EntitlementEndures(db.ents[e], db'.ents[e]))
    && (forall key | key in db.devices :: key in db'.devices && DeviceEndures(db.devices[key], db'.devices[key]))
  }

  lemma Reflexive(db: Db)
    ensures Endures(db, db)
  {
  }

  lemma GrantKeyEndures(db: Db, key: CardKey, user: UserId, grant: Grant)
    requires GrantKey(db, key, user, grant).Ok?
    ensures Endures(db, GrantKey(db, key, user, grant).value)
  {
  }

  lemma SettleEndures(db: Db, o: OrderId, order: Order, intent: Option<string>, paidAt: Time, grant: Grant)
    requires Settle(db, o, order, intent, paidAt, grant).Ok?
    ensures Endures(db, Settle(db, o, order, intent, paidAt, grant).value)
  {
    hide GrantKey;
    var terms := FulfillmentTerms(order.plan).value;
    GrantKeyEndures(ConfirmProviderOrder(db, o, intent, paidAt).value,
                    CardKey(Some(o), order.plan, grant.key.code, terms.0, terms.1, Available, None, None),
                    order.user, grant);
  }

  lemma StripeEndures(db: Db, d: StripeDelivery)
    ensures Endures(db, StripeWebhook(db, d).db)
  {
    hide Settle;
    StripeShape(db, d);
    if StripeWebhook(db, d).result == Ok(true) {
      var o := SessionOrderId(d.session).value;
      var db1 := InsertPaymentEvent(db, StripeKey(d), PaymentEvent(d.kind, Some(o))).value.0;
      SettleEndures(db1, o, db.orders[o], d.session.intent, d.paidAt, d.grant);
    }
  }

  lemma WechatEndures(cfg: Config, db: Db, d: WechatDelivery)
    ensures Endures(db, WechatWebhook(cfg, db, d).db)
  {
    hide Settle, CheckTransaction;
    WechatShape(cfg, db, d);
    if WechatWebhook(cfg, db, d).result == Ok(true) {
      var o := ProviderOrder(db, WechatPay, d.transaction.outTradeNo).value;
      var db1 := InsertPaymentEvent(db, WechatKey(d), PaymentEvent(d.kind, Some(o))).value.0;
      var paidAt := d.transaction.successTime.GetOr(d.receivedAt);
      var intent := d.transaction.transactionId.GetOr(d.transaction.outTradeNo);
      SettleEndures(db1, o, db.orders[o], Some(intent), paidAt, d.grant);
    }
  }

  /** Generating keys touches the keys table only, and no existing key. */
  lemma {:induction false} FreeKeysOnly(db: Db, request: KeyRequest, n: nat)
    requires InsertFreeKeys(db, request, n).Ok?
    ensures var db' := InsertFreeKeys(db, request, n).value;
            db' == db.(keys := db'.keys) && forall k | k in db.keys :: k in db'.keys && db'.keys[k] == db.keys[k]
  {
    if n > 0 {
      FreeKeysOnly(db, request, n - 1);
    }
  }

  lemma FreeKeysEndure(db: Db, request: KeyRequest, n: nat)
    requires InsertFreeKeys(db, request, n).Ok?
    ensures Endures(db, InsertFreeKeys(db, request, n).value)
  {
    FreeKeysOnly(db, request, n);
  }

  lemma AddUserEndures(db: Db, user: UserId)
    ensures Endures(db, db.(users := db.users + {user}))
  {
  }

  lemma RevokeEndures(db: Db, e: EntId, at: Time)
    requires RevokeEntitlement(db, e, at).Ok?
    ensures Endures(db, RevokeEntitlement(db, e, at).value)
  {
  }

  lemma PlaceEndures(cfg: Config, db: Db, user: UserId, plan: Option<string>, o: OrderId, reference: string)
    ensures Endures(db, CreateOrder(cfg, db, user, plan, o, reference).db)
  {
  }

  lemma AttachEndures(db: Db, o: OrderId, session: string)
    ensures Endures(db, Commit(db, AttachBody(db, o, session)).db)
  {
  }

  lemma ConfirmEndures(db: Db, o: OrderId, key: NewKey, at: Time)
    ensures Endures(db, ConfirmOrder(db, o, key, at).db)
  {
  }

  lemma RedeemEndures(db: Db, user: UserId, code: Code, e: EntId, at: Time)
    ensures Endures(db, Redeem(db, user, code, e, at).db)
  {
  }

  lemma GrantTestEndures(cfg: Config, db: Db, user: UserId, listed: bool, at: Time, grant: Grant)
    ensures Endures(db, GrantTestAccess(cfg, db, user, listed, at, grant).db)
  {
    hide GrantKey;
    if GrantKey(db, TestKey(cfg, grant.key.code), user, grant).Ok? {
      GrantKeyEndures(db, TestKey(cfg, grant.key.code), user, grant);
    }
  }

  lemma UpsertEndures(db: Db, key: DeviceKey, row: Device)
    requires row.status.Active? && UpsertDevice(db, key, row).Ok?
    ensures Endures(db, UpsertDevice(db, key, row).value)
  {
  }

  lemma ActivateEndures(db: Db, user: UserId, name: string, fingerprint: string, limit: Option<EntId>, at: Time)
    ensures Endures(db, Activate(db, user, name, fingerprint, limit, at).db)
  {
    hide Endures, UpsertDevice, Blank, ActiveDevices;
    Reflexive(db);
    if ActivateBody(db, user, name, fingerprint, limit, at).Ok? {
      UpsertEndures(db, DeviceKey(user, fingerprint), Device(Derived(user, fingerprint), name, Active, at, Some(at)));
    }
  }

  lemma LeaseEndures(cfg: Config, db: Db, r: LeaseRequest)
    ensures Endures(db, IssueLease(cfg, db, r).db)
  {
  }

  /** Whatever a transaction does, no row is lost, Confirmed orders are final, redeemed keys stay
      redeemed by the same user, no entitlement comes back from revocation and no active device
      is retired. */
  lemma StepEndures(cfg: Config, db: Db, tx: Tx)
    requires Possible(db, tx)
    ensures Endures(db, Step(cfg, db, tx).db)
  {
    hide Endures, StripeWebhook, WechatWebhook, InsertFreeKeys, CreateOrder, AttachBody, ConfirmOrder, Redeem,
      GrantTestAccess, Activate, IssueLease, RevokeEntitlement;
    Reflexive(db);
    match tx
    case AddUser(u) => AddUserEndures(db, u);
    case PlaceOrder(u, plan, o, reference) => PlaceEndures(cfg, db, u, plan, o, reference);
    case AttachSession(o, s) => AttachEndures(db, o, s);
    case ConfirmById(o, key, at) => ConfirmEndures(db, o, key, at);
    case ConfirmByRef(reference, key, at) =>
      var found := OrderByReference(db, reference);
      if found.Some? { ConfirmEndures(db, found.value, key, at); }
    case StripeEvent(d) => StripeEndures(db, d);
    case WechatEvent(d) => WechatEndures(cfg, db, d);
    case CreateKeys(request) =>
      if CreateKeysBody(db, request).Ok? { FreeKeysEndure(db, request, KeyCount(request.count)); }
    case RedeemCode(u, code, e, at) => RedeemEndures(db, u, code, e, at);
    case EnsureTestAccess(u, listed, at, grant) => GrantTestEndures(cfg, db, u, listed, at, grant);
    case ActivateDevice(u, name, fp, _, limit, at) => ActivateEndures(db, u, name, fp, limit, at);
    case RequestLease(r) => LeaseEndures(cfg, db, r);
    case Revoke(e, at) => if RevokeEntitlement(db, e, at).Ok? { RevokeEndures(db, e, at); }
    case Dropped =>
  }

  lemma EnduresThrough(a: Db, b: Db, c: Db)
    requires Endures(a, b) && Endures(b, c)
    ensures Endures(a, c)
  {
  }

  lemma {:induction false} RunEndures(cfg: Config, db: Db, txs: seq<Tx>)
    requires PossibleRun(cfg, db, txs)
    ensures Endures(db, Run(cfg, db, txs))
    decreases |txs|
  {
    if txs != [] {
      hide Step, Endures, Possible;
      var next := Step(cfg, db, txs[0]).db;
      StepEndures(cfg, db, txs[0]);
      RunEndures(cfg, next, txs[1..]);
      EnduresThrough(db, next, Run(cfg, db, txs));
    } else {
      assert Endures(db, db);
    }
  }
}
