/** Payments over whole runs: exactly-once fulfilment, conservation of money, and replay. */
module Payments {
  import opened Wrappers
  import opened Text
  import opened Tables
  import opened Handlers
  import opened Integrity
  import opened Endurance
  import opened Steps

  // --- What a delivery is about ---

  /** The `(provider, event_id)` a webhook delivery carries. */
  function DeliveryKey(tx: Tx): Option<EventKey> {
    match tx
    case StripeEvent(d) => Some(StripeKey(d))
    case WechatEvent(d) => Some(WechatKey(d))
    case _ => None
  }

  /** The order a delivery names. */
  ghost function NamedOrder(db: Db, tx: Tx): Option<OrderId> {
    match tx
    case StripeEvent(d) => (var id := SessionOrderId(d.session); if id.Ok? then Some(id.value) else None)
    case WechatEvent(d) => ProviderOrder(db, WechatPay, d.transaction.outTradeNo)
    case _ => None
  }

  /** The amount a delivery reports as paid. */
  function ReportedAmount(tx: Tx): int {
    match tx
    case StripeEvent(d) => d.session.amountTotal.GetOr(0)
    case WechatEvent(d) => d.transaction.total
    case _ => 0
  }

  function GrantOf(tx: Tx): Option<Grant> {
    match tx
    case StripeEvent(d) => Some(d.grant)
    case WechatEvent(d) => Some(d.grant)
    case _ => None
  }

  /** The delivery answers `processed: true`. */
  ghost predicate Fulfils(cfg: Config, db: Db, tx: Tx)
    requires Possible(db, tx)
  {
    Step(cfg, db, tx).result == Ok(Processed(true))
  }

  predicate IsPaidProviderOrder(order: Order) {
    order.status.Confirmed? && !order.provider.Manual?
  }

  predicate Settled(orders: map<OrderId, Order>, o: OrderId) {
    o in orders && IsPaidProviderOrder(orders[o])
  }

  /** `processed: true` means exactly this: a pending order of the delivery's provider whose
      amount is the reported one becomes Confirmed, one new key for it is redeemed by its user,
      one new entitlement of 30 days starts, the event is recorded, and nothing else changes. */
  ghost predicate FulfilsExactly(db: Db, tx: Tx, db': Db) {
    && NamedOrder(db, tx).Some? && DeliveryKey(tx).Some? && GrantOf(tx).Some?
    && var o := NamedOrder(db, tx).value; var grant := GrantOf(tx).value;
    && o in db.orders && db.orders[o].status.PendingProvider? && !db.orders[o].provider.Manual?
    && db.orders[o].amount == ReportedAmount(tx)
    && db.orders[o].provider == DeliveryKey(tx).value.provider
    && o in db'.orders && db'.orders == db.orders[o := db'.orders[o]]
    && db'.orders[o] == db.orders[o].(status := Confirmed, intent := db'.orders[o].intent,
                                      paidAt := db'.orders[o].paidAt, confirmedAt := db'.orders[o].paidAt)
    && grant.key.id !in db.keys
    && db'.keys == db.keys[grant.key.id := CardKey(Some(o), STANDARD_PLAN, grant.key.code, 30, 1, Redeemed,
                                                   Some(db.orders[o].user), Some(grant.at))]
    && grant.ent !in db.ents
    && db'.ents == db.ents[grant.ent := Entitlement(db.orders[o].user, STANDARD_PLAN, grant.key.id, DEFAULT_FEATURES,
                                                    grant.at + 30 * DAY, None)]
    && DeliveryKey(tx).value !in db.events
    && DeliveryKey(tx).value in db'.events && db'.events[DeliveryKey(tx).value].order == Some(o)
    && db'.events == db.events[DeliveryKey(tx).value := db'.events[DeliveryKey(tx).value]]
    && db'.users == db.users && db'.devices == db.devices
  }

  /** What provisioning adds when it succeeds. */
  lemma ProvisionEffect(db: Db, o: OrderId, order: Order, grant: Grant)
    requires Provision(db, o, order, grant).Ok?
    ensures order.plan == STANDARD_PLAN && grant.key.id !in db.keys && grant.ent !in db.ents
    ensures Provision(db, o, order, grant).value == db.(
              keys := db.keys[grant.key.id := CardKey(Some(o), STANDARD_PLAN, grant.key.code, 30, 1, Redeemed,
                                                      Some(order.user), Some(grant.at))],
              ents := db.ents[grant.ent := Entitlement(order.user, STANDARD_PLAN, grant.key.id, DEFAULT_FEATURES,
                                                       grant.at + 30 * DAY, None)])
  {
    var key := CardKey(Some(o), STANDARD_PLAN, grant.key.code, 30, 1, Available, None, None);
    var db1 := InsertCardKey(db, grant.key.id, key).value;
    var db2 := MarkCardKeyRedeemed(db1, grant.key.id, order.user, grant.at).value;
    assert db2.keys == db.keys[grant.key.id := key.(status := Redeemed, redeemedBy := Some(order.user),
                                                    redeemedAt := Some(grant.at))];
  }

  lemma StripeEffect(cfg: Config, db: Db, d: StripeDelivery)
    requires Inv(db) && StripeWebhook(db, d).result == Ok(true)
    ensures FulfilsExactly(db, StripeEvent(d), StripeWebhook(db, d).db)
  {
    hide Provision, Inv;
    var o := SessionOrderId(d.session).value;
    var db1 := InsertPaymentEvent(db, StripeKey(d), PaymentEvent(d.kind, Some(o))).value.0;
    var db2 := ConfirmProviderOrder(db1, o, d.session.intent, d.paidAt).value;
    ProvisionEffect(db2, o, db.orders[o], d.grant);
  }

  lemma WechatEffect(cfg: Config, db: Db, d: WechatDelivery)
    requires Inv(db) && WechatWebhook(cfg, db, d).result == Ok(true)
    ensures FulfilsExactly(db, WechatEvent(d), WechatWebhook(cfg, db, d).db)
  {
    hide Provision, Inv;
    var o := ProviderOrder(db, WechatPay, d.transaction.outTradeNo).value;
    var db1 := InsertPaymentEvent(db, WechatKey(d), PaymentEvent(d.kind, Some(o))).value.0;
    var paidAt := d.transaction.successTime.GetOr(d.receivedAt);
    var intent := d.transaction.transactionId.GetOr(d.transaction.outTradeNo);
    var db2 := ConfirmProviderOrder(db1, o, Some(intent), paidAt).value;
    ProvisionEffect(db2, o, db.orders[o], d.grant);
  }

  lemma PaidDeliveryEffect(cfg: Config, db: Db, tx: Tx)
    requires Inv(db) && Possible(db, tx) && Fulfils(cfg, db, tx)
    ensures FulfilsExactly(db, tx, Step(cfg, db, tx).db)
  {
    match tx {
      case StripeEvent(d) => StripeEffect(cfg, db, d);
      case WechatEvent(d) => WechatEffect(cfg, db, d);
      case _ => assert false;
    }
  }

  /** How one transaction may change the orders table: at most one row `o` becomes `row`. */
  ghost predicate OrdersChange(cfg: Config, db: Db, tx: Tx, o: OrderId, row: Order)
    requires Possible(db, tx)
  {
    var orders := Step(cfg, db, tx).db.orders;
    || orders == db.orders
    || (&& orders == db.orders[o := row]
        && (o in db.orders ==> SameTerms(db.orders[o], row) && !db.orders[o].status.Confirmed?)
        && (o !in db.orders ==> tx.PlaceOrder? && !row.status.Confirmed?)
        && (IsPaidProviderOrder(row) ==> Fulfils(cfg, db, tx) && NamedOrder(db, tx) == Some(o)))
  }

  /** A delivery that does not answer `true` leaves the orders alone. */
  lemma DeliveryOrders(cfg: Config, db: Db, tx: Tx)
    requires Possible(db, tx) && DeliveryKey(tx).Some? && !Fulfils(cfg, db, tx)
    ensures Step(cfg, db, tx).db.orders == db.orders
  {
    hide StripeWebhook, WechatWebhook;
    match tx {
      case StripeEvent(d) => StripeShape(db, d);
      case WechatEvent(d) => WechatShape(cfg, db, d);
      case _ => assert false;
    }
  }

  /** The order a transaction concerns, or any order for one that concerns none. */
  ghost function Concerned(db: Db, tx: Tx): OrderId {
    match tx
    case PlaceOrder(_, _, id, _) => id
    case AttachSession(id, _) => id
    case ConfirmById(id, _, _) => id
    case ConfirmByRef(reference, _, _) => OrderByReference(db, reference).GetOr(0)
    case _ => NamedOrder(db, tx).GetOr(0)
  }

  lemma StepOrders(cfg: Config, db: Db, tx: Tx) returns (o: OrderId, row: Order)
    requires Inv(db) && Possible(db, tx)
    ensures OrdersChange(cfg, db, tx, o, row)
    ensures Fulfils(cfg, db, tx) ==> && NamedOrder(db, tx) == Some(o) && o in db.orders && !Settled(db.orders, o)
                                     && Step(cfg, db, tx).db.orders == db.orders[o := row]
                                     && IsPaidProviderOrder(row) && row.amount == ReportedAmount(tx)
  {
    hide StripeWebhook, WechatWebhook, CreateOrder, AttachBody, ConfirmOrder, Redeem, GrantTestAccess,
      Activate, IssueLease;
    var orders := Step(cfg, db, tx).db.orders;
    o := Concerned(db, tx);
    row := if o in orders then orders[o] else Order(0, "", Cancelled, Manual, "", 0, "", None, None, None, None);
    if DeliveryKey(tx).Some? {
      if Fulfils(cfg, db, tx) { PaidDeliveryEffect(cfg, db, tx); } else { DeliveryOrders(cfg, db, tx); }
    } else {
      match tx {
        case PlaceOrder(u, plan, id, reference) => PlaceOrders(cfg, db, u, plan, id, reference);
        case ConfirmById(id, key, at) => ConfirmOrders(db, id, key, at);
        case ConfirmByRef(reference, key, at) => ConfirmOrders(db, o, key, at);
        case CreateKeys(request) =>
          if CreateKeysBody(db, request).Ok? { FreeKeysOnly(db, request, KeyCount(request.count)); }
        case AttachSession(id, session) => AttachOrders(db, id, session);
        case _ => OtherTablesOnly(cfg, db, tx);
      }
    }
  }

  lemma PlaceOrders(cfg: Config, db: Db, user: UserId, plan: Option<string>, o: OrderId, reference: string)
    ensures var orders := CreateOrder(cfg, db, user, plan, o, reference).db.orders;
            orders == db.orders
            || (o in orders && orders == db.orders[o := orders[o]] && o !in db.orders && !orders[o].status.Confirmed?)
  {
  }

  lemma AttachOrders(db: Db, o: OrderId, session: string)
    ensures var orders := Commit(db, AttachBody(db, o, session)).db.orders;
            orders == db.orders
            || (&& o in db.orders && o in orders && orders == db.orders[o := orders[o]]
                && SameTerms(db.orders[o], orders[o])
                && db.orders[o].status.PendingProvider? && orders[o].status.PendingProvider?)
  {
  }

  lemma ConfirmOrders(db: Db, o: OrderId, key: NewKey, at: Time)
    requires Inv(db)
    ensures var orders := ConfirmOrder(db, o, key, at).db.orders;
            orders == db.orders
            || (&& o in db.orders && o in orders && orders == db.orders[o := orders[o]]
                && db.orders[o].status.PendingManual? && db.orders[o].provider.Manual?
                && SameTerms(db.orders[o], orders[o]))
  {
  }

  /** Grants, redemptions, activations, leases, revocations and new users leave the orders alone. */
  lemma OtherTablesOnly(cfg: Config, db: Db, tx: Tx)
    requires Possible(db, tx)
    requires tx.EnsureTestAccess? || tx.RedeemCode? || tx.ActivateDevice? || tx.RequestLease? || tx.Revoke?
             || tx.AddUser? || tx.Dropped?
    ensures Step(cfg, db, tx).db.orders == db.orders
  {
    hide HasFullAccess, ActiveDevices, Blank, NewEntitlement, NewLease;
  }

  // --- Exactly once ---

  /** How many deliveries of the run answer `processed: true` for the order. */
  ghost function Fulfilments(cfg: Config, db: Db, txs: seq<Tx>, o: OrderId): nat
    requires PossibleRun(cfg, db, txs)
    decreases |txs|
  {
    if txs == [] then 0
    else (if Fulfils(cfg, db, txs[0]) && NamedOrder(db, txs[0]) == Some(o) then 1 else 0)
         + Fulfilments(cfg, Step(cfg, db, txs[0]).db, txs[1..], o)
  }

  function Bit(b: bool): nat {
    if b then 1 else 0
  }

  lemma StepSettles(cfg: Config, db: Db, tx: Tx, o: OrderId)
    requires Inv(db) && Possible(db, tx)
    ensures Bit(Settled(Step(cfg, db, tx).db.orders, o))
         == Bit(Settled(db.orders, o)) + Bit(Fulfils(cfg, db, tx) && NamedOrder(db, tx) == Some(o))
  {
    hide Step;
    var p, row := StepOrders(cfg, db, tx);
  }

  /** No doubled and no lost payment: an order is a settled provider order at the end of a run
      exactly if it was one before or one single delivery of the run answered `true` for it. */
  lemma {:induction false} ExactlyOnce(cfg: Config, db: Db, txs: seq<Tx>, o: OrderId)
    requires Inv(db) && PossibleRun(cfg, db, txs)
    ensures Bit(Settled(db.orders, o)) + Fulfilments(cfg, db, txs, o) == Bit(Settled(Run(cfg, db, txs).orders, o))
    ensures Fulfilments(cfg, db, txs, o) <= 1
    decreases |txs|
  {
    if txs != [] {
      StepSettles(cfg, db, txs[0], o);
      StepKeeps(cfg, db, txs[0]);
      ExactlyOnce(cfg, Step(cfg, db, txs[0]).db, txs[1..], o);
    }
  }

  // --- Money ---

  function Weight(order: Order): int {
    if IsPaidProviderOrder(order) then order.amount else 0
  }

  /** The sum of the amounts of all Confirmed provider orders. */
  ghost function Revenue(orders: map<OrderId, Order>): int
    decreases |orders|
  {
    if exists o :: o in orders then
      var o :| o in orders;
      Weight(orders[o]) + Revenue(orders - {o})
    else 0
  }

  /** The sum does not depend on the order in which rows are added up. */
  lemma {:induction false} RevenueSplits(orders: map<OrderId, Order>, o: OrderId)
    requires o in orders
    ensures Revenue(orders) == Weight(orders[o]) + Revenue(orders - {o})
    decreases |orders|
  {
    var p :| p in orders && Revenue(orders) == Weight(orders[p]) + Revenue(orders - {p});
    if p != o {
      RevenueSplits(orders - {p}, o);
      RevenueSplits(orders - {o}, p);
      assert orders - {p} - {o} == orders - {o} - {p};
    }
  }

  lemma RevenueUpdate(orders: map<OrderId, Order>, o: OrderId, row: Order)
    ensures Revenue(orders[o := row])
         == Revenue(orders) + Weight(row) - (if o in orders then Weight(orders[o]) else 0)
  {
    RevenueSplits(orders[o := row], o);
    assert orders[o := row] - {o} == orders - {o};
    if o in orders {
      RevenueSplits(orders, o);
    } else {
      assert orders - {o} == orders;
    }
  }

  /** What the deliveries that answered `true` reported as paid. */
  ghost function Collected(cfg: Config, db: Db, txs: seq<Tx>): int
    requires PossibleRun(cfg, db, txs)
    decreases |txs|
  {
    if txs == [] then 0
    else (if Fulfils(cfg, db, txs[0]) then ReportedAmount(txs[0]) else 0)
         + Collected(cfg, Step(cfg, db, txs[0]).db, txs[1..])
  }

  lemma StepCollects(cfg: Config, db: Db, tx: Tx)
    requires Inv(db) && Possible(db, tx)
    ensures Revenue(Step(cfg, db, tx).db.orders)
         == Revenue(db.orders) + (if Fulfils(cfg, db, tx) then ReportedAmount(tx) else 0)
  {
    hide Step;
    var o, row := StepOrders(cfg, db, tx);
    RevenueUpdate(db.orders, o, row);
  }

  /** Money conservation: over any run the books grow by exactly what was collected. */
  lemma {:induction false} MoneyConserved(cfg: Config, db: Db, txs: seq<Tx>)
    requires Inv(db) && PossibleRun(cfg, db, txs)
    ensures Revenue(Run(cfg, db, txs).orders) == Revenue(db.orders) + Collected(cfg, db, txs)
    decreases |txs|
  {
    if txs != [] {
      StepCollects(cfg, db, txs[0]);
      StepKeeps(cfg, db, txs[0]);
      MoneyConserved(cfg, Step(cfg, db, txs[0]).db, txs[1..]);
    }
  }
}
