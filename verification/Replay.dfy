/** What a repeated, failed or timely webhook delivery does, and the counts the table
    correspondences imply. */
module Replay {
  import opened Wrappers
  import opened Text
  import opened Tables
  import opened Handlers
  import opened Integrity
  import opened Endurance
  import opened Steps
  import opened Payments

  predicate Recorded(db: Db, tx: Tx) {
    DeliveryKey(tx).Some? && DeliveryKey(tx).value in db.events
  }

  /** A delivery whose event is already recorded changes nothing and fulfils nothing. */
  lemma RecordedIsIdle(cfg: Config, db: Db, tx: Tx)
    requires Possible(db, tx) && Recorded(db, tx)
    ensures Step(cfg, db, tx).db == db && !Fulfils(cfg, db, tx)
  {
    hide StripeWebhook, WechatWebhook;
    match tx {
      case StripeEvent(d) => StripeShape(db, d);
      case WechatEvent(d) => WechatShape(cfg, db, d);
      case _ => assert false;
    }
  }

  /** A delivery that answers without an error has its event recorded afterwards; one that
      errors leaves the database as it was. */
  lemma AnsweredIsRecorded(cfg: Config, db: Db, tx: Tx)
    requires Possible(db, tx) && DeliveryKey(tx).Some?
    ensures Step(cfg, db, tx).result.Ok? ==> Recorded(Step(cfg, db, tx).db, tx)
    ensures Step(cfg, db, tx).result.Err? ==> Step(cfg, db, tx).db == db
  {
    hide StripeWebhook, WechatWebhook;
    match tx {
      case StripeEvent(d) => StripeShape(db, d);
      case WechatEvent(d) => WechatShape(cfg, db, d);
      case _ => assert false;
    }
  }

  /** The run with every delivery removed whose event is recorded by the time it arrives. */
  ghost function WithoutReplays(cfg: Config, db: Db, txs: seq<Tx>): seq<Tx>
    requires PossibleRun(cfg, db, txs)
    decreases |txs|
  {
    if txs == [] then []
    else if Recorded(db, txs[0]) then WithoutReplays(cfg, Step(cfg, db, txs[0]).db, txs[1..])
    else [txs[0]] + WithoutReplays(cfg, Step(cfg, db, txs[0]).db, txs[1..])
  }

  /** Dropping all replays leaves a possible run with the same final database and collections. */
  lemma {:induction false} ReplaysAreInvisible(cfg: Config, db: Db, txs: seq<Tx>)
    requires PossibleRun(cfg, db, txs)
    ensures var rest := WithoutReplays(cfg, db, txs);
            && PossibleRun(cfg, db, rest) && Run(cfg, db, rest) == Run(cfg, db, txs)
            && Collected(cfg, db, rest) == Collected(cfg, db, txs)
    decreases |txs|
  {
    if txs != [] {
      var next := Step(cfg, db, txs[0]).db;
      ReplaysAreInvisible(cfg, next, txs[1..]);
      if Recorded(db, txs[0]) {
        RecordedIsIdle(cfg, db, txs[0]);
      } else {
        var rest := [txs[0]] + WithoutReplays(cfg, next, txs[1..]);
        assert rest[1..] == WithoutReplays(cfg, next, txs[1..]);
      }
    }
  }

  /** Once answered without an error, an event may be delivered again at any later point, with
      any contents, and leaves the database of that point as it is. */
  lemma RedeliveryIsIdle(cfg: Config, db: Db, first: Tx, between: seq<Tx>, again: Tx)
    requires Possible(db, first) && Step(cfg, db, first).result.Ok?
    requires DeliveryKey(first).Some? && DeliveryKey(again) == DeliveryKey(first)
    requires PossibleRun(cfg, Step(cfg, db, first).db, between)
    ensures var last := Run(cfg, Step(cfg, db, first).db, between);
            Possible(last, again) && Step(cfg, last, again).db == last && !Fulfils(cfg, last, again)
  {
    AnsweredIsRecorded(cfg, db, first);
    RunEndures(cfg, Step(cfg, db, first).db, between);
    RecordedIsIdle(cfg, Run(cfg, Step(cfg, db, first).db, between), again);
  }

  // --- Progress ---

  /** The ids a grant draws are new. */
  predicate FreshGrant(db: Db, grant: Grant) {
    grant.key.id !in db.keys && !CodeTaken(db.keys, grant.key.code) && grant.ent !in db.ents
  }

  /** In a sound database, provisioning a pending order with fresh ids cannot fail. */
  lemma ProvisionSucceeds(db: Db, o: OrderId, confirmed: Order, grant: Grant, events: map<EventKey, PaymentEvent>)
    requires Inv(db) && FreshGrant(db, grant)
    requires o in db.orders && !IsConfirmed(db.orders, o)
    ensures Provision(db.(events := events, orders := db.orders[o := confirmed]), o, db.orders[o], grant).Ok?
  {
    var db1 := db.(events := events, orders := db.orders[o := confirmed]);
    var key := CardKey(Some(o), STANDARD_PLAN, grant.key.code, 30, 1, Available, None, None);
    assert !OrderHasKey(db1.keys, o);
    assert InsertCardKey(db1, grant.key.id, key).Ok?;
    assert !KeyHasEntitlement(db1.ents, grant.key.id);
  }

  /** Some id or code the grant draws is already in use. */
  predicate Collides(db: Db, grant: Grant) {
    grant.key.id in db.keys || grant.ent in db.ents || exists k | k in db.keys :: db.keys[k].code == grant.key.code
  }

  /** Granting a new key to a user adds the redeemed key and its entitlement, or fails internally
      because something the grant draws is taken. */
  lemma GrantExactly(db: Db, key: CardKey, user: UserId, grant: Grant)
    requires user in db.users && key.status.Available? && key.days > 0 && key.maxDevices > 0
    requires key.order.Some? ==> key.order.value in db.orders && !OrderHasKey(db.keys, key.order.value)
    requires key.code == grant.key.code
    requires grant.key.id !in db.keys ==> !KeyHasEntitlement(db.ents, grant.key.id)
    ensures GrantKey(db, key, user, grant) ==
              if Collides(db, grant) then Err(Internal)
              else Ok(db.(keys := db.keys[grant.key.id := key.(status := Redeemed, redeemedBy := Some(user),
                                                               redeemedAt := Some(grant.at))],
                          ents := db.ents[grant.ent := Entitlement(user, key.plan, grant.key.id, DEFAULT_FEATURES,
                                                                   grant.at + key.days * 86400, None)]))
  {
    CodeTakenIs(db.keys, grant.key.code);
    hide OrderHasKey, CodeTaken, KeyHasEntitlement;
    if InsertCardKey(db, grant.key.id, key).Ok? {
      var db1 := InsertCardKey(db, grant.key.id, key).value;
      var db2 := MarkCardKeyRedeemed(db1, grant.key.id, user, grant.at).value;
      assert db2.keys == db.keys[grant.key.id := key.(status := Redeemed, redeemedBy := Some(user),
                                                      redeemedAt := Some(grant.at))];
    }
  }

  lemma CodeTakenIs(keys: map<KeyId, CardKey>, code: Code)
    ensures CodeTaken(keys, code) <==> exists k | k in keys :: keys[k].code == code
  {
  }

  lemma PendingPaysOff(db: Db, d: StripeDelivery, o: OrderId)
    requires Inv(db) && FreshGrant(db, d.grant) && StripePaid(d) && SessionOrderId(d.session) == Ok(o)
    requires StripeKey(d) !in db.events
    requires o in db.orders && db.orders[o].status.PendingProvider? && SessionMatches(d.session, db.orders[o])
    ensures StripeWebhook(db, d).result == Ok(true)
  {
    var confirmed := db.orders[o].(status := Confirmed, intent := d.session.intent,
                                   paidAt := Some(d.paidAt), confirmedAt := Some(d.paidAt));
    ProvisionSucceeds(db, o, confirmed, d.grant, db.events[StripeKey(d) := PaymentEvent(d.kind, Some(o))]);
  }

  /** An error is not the end: a payment announced before its session is attached to the order
      is refused, changes nothing, and the very same delivery succeeds once it is attached. */
  lemma RefusedThenPaid(db: Db, o: OrderId, d: StripeDelivery)
    requires Inv(db) && FreshGrant(db, d.grant) && StripePaid(d) && SessionOrderId(d.session) == Ok(o)
    requires StripeKey(d) !in db.events
    requires o in db.orders && db.orders[o].session.None? && AttachBody(db, o, d.session.id).Ok?
    requires SessionMatches(d.session, db.orders[o].(session := Some(d.session.id)))
    ensures StripeWebhook(db, d) == Outcome(db, Err(BadRequest))
    ensures StripeWebhook(AttachBody(db, o, d.session.id).value.0, d).result == Ok(true)
  {
    hide Inv, StripeWebhook;
    EarlyIsRefused(db, o, d);
    AttachKeeps(db, o, d.session.id);
    PendingPaysOff(AttachBody(db, o, d.session.id).value.0, d, o);
  }

  lemma EarlyIsRefused(db: Db, o: OrderId, d: StripeDelivery)
    requires StripePaid(d) && SessionOrderId(d.session) == Ok(o) && StripeKey(d) !in db.events
    requires o in db.orders && db.orders[o].session.None?
    ensures StripeWebhook(db, d) == Outcome(db, Err(BadRequest))
  {
  }

  /** Progress, exactly: a Stripe delivery with fresh ids answers `true` if and only if it is a
      paid, unrecorded announcement matching an order still awaiting its payment. */
  lemma StripeProgress(db: Db, d: StripeDelivery)
    requires Inv(db) && FreshGrant(db, d.grant)
    ensures StripeWebhook(db, d).result == Ok(true) <==>
              && (d.kind == "checkout.session.completed" || d.kind == "checkout.session.async_payment_succeeded")
              && d.session.paymentStatus == Some("paid") && EventKey(Stripe, d.event) !in db.events
              && var raw := if d.session.metadataOrder.Some? then d.session.metadataOrder
                            else d.session.clientReference;
              raw.Some? && raw.value.Parsed? && raw.value.id in db.orders
              && var order := db.orders[raw.value.id];
              && order.status == PendingProvider && order.provider == Stripe
              && order.session == Some(d.session.id) && d.session.amountTotal == Some(order.amount)
              && d.session.currency.Some? && AsciiLower(d.session.currency.value) == order.currency
    ensures d.session.paymentStatus != Some("paid") ==>
              && StripeWebhook(db, d).result == Ok(false)
              && StripeWebhook(db, d).db == db.(events := StripeWebhook(db, d).db.events)
    ensures StripeWebhook(db, d).result != Err(Conflict)
  {
    var id := SessionOrderId(d.session);
    if StripePaid(d) && StripeKey(d) !in db.events && id.Ok? && id.value in db.orders
       && SessionMatches(d.session, db.orders[id.value]) && db.orders[id.value].status.PendingProvider? {
      PendingPaysOff(db, d, id.value);
    }
  }

  /** The "order not found" answer never happens: recording an event for an unknown order breaks
      the foreign key first. */
  lemma StripeNeverNotFound(db: Db, d: StripeDelivery)
    ensures StripeWebhook(db, d).result != Err(NotFound)
  {
    var id := SessionOrderId(d.session);
    if StripePaid(d) && id.Ok? {
      StripeBodyNeverNotFound(db, d, id.value);
    }
  }

  lemma StripeBodyNeverNotFound(db: Db, d: StripeDelivery, o: OrderId)
    ensures StripeBody(db, d, o) != Err(NotFound)
  {
    hide SessionMatches, OrderHasKey, CodeTaken, KeyHasEntitlement;
  }

  /** With fresh ids a Stripe delivery fails internally exactly if it is a paid, unrecorded
      announcement for an order that does not exist. */
  lemma UnknownOrderExactly(db: Db, d: StripeDelivery)
    requires Inv(db) && FreshGrant(db, d.grant)
    ensures StripeWebhook(db, d).result == Err(Internal) <==>
              && (d.kind == "checkout.session.completed" || d.kind == "checkout.session.async_payment_succeeded")
              && d.session.paymentStatus == Some("paid") && EventKey(Stripe, d.event) !in db.events
              && var raw := if d.session.metadataOrder.Some? then d.session.metadataOrder
                            else d.session.clientReference;
              raw.Some? && raw.value.Parsed? && raw.value.id !in db.orders
  {
    hide Inv;
    var id := SessionOrderId(d.session);
    if StripePaid(d) && StripeKey(d) !in db.events && id.Ok? && id.value in db.orders
       && SessionMatches(d.session, db.orders[id.value]) && db.orders[id.value].status.PendingProvider? {
      PendingPaysOff(db, d, id.value);
    }
  }

  /** The same for WeChat Pay, whose order is found by its reference. */
  lemma WechatProgress(cfg: Config, db: Db, d: WechatDelivery)
    requires Inv(db) && FreshGrant(db, d.grant)
    ensures WechatWebhook(cfg, db, d).result == Ok(true) <==>
              && d.kind == "TRANSACTION.SUCCESS" && d.transaction.tradeState == "SUCCESS"
              && EventKey(WechatPay, d.event) !in db.events
              && cfg.wechatAppId == Some(d.transaction.appId) && Trim(d.transaction.appId) != ""
              && cfg.wechatMchId == Some(d.transaction.mchId) && Trim(d.transaction.mchId) != ""
              && d.transaction.tradeType == Some("NATIVE")
              && exists o | o in db.orders :: var order := db.orders[o];
                   && order.reference == d.transaction.outTradeNo && order.status == PendingProvider
                   && order.provider == WechatPay && d.transaction.total == order.amount
                   && AsciiUpper(d.transaction.currency.GetOr("CNY")) == AsciiUpper(order.currency)
    ensures WechatWebhook(cfg, db, d).result != Err(Conflict)
  {
    var found := ProviderOrder(db, WechatPay, d.transaction.outTradeNo);
    if WechatPaid(d) && WechatKey(d) !in db.events && found.Some?
       && CheckTransaction(cfg, d.transaction, db.orders[found.value]).Ok?
       && db.orders[found.value].status.PendingProvider? {
      var o := found.value;
      var paidAt := d.transaction.successTime.GetOr(d.receivedAt);
      var intent := d.transaction.transactionId.GetOr(d.transaction.outTradeNo);
      var confirmed := db.orders[o].(status := Confirmed, intent := Some(intent),
                                     paidAt := Some(paidAt), confirmedAt := Some(paidAt));
      ProvisionSucceeds(db, o, confirmed, d.grant, db.events[WechatKey(d) := PaymentEvent(d.kind, Some(o))]);
    }
  }

  /** Manual confirmation with a fresh key succeeds exactly on orders awaiting manual payment: the
      order becomes Confirmed at that time, one available key for 30 days and one device is added
      for it, and nothing else changes. The conflict is never that the order already has a key. */
  lemma ManualProgress(db: Db, o: OrderId, key: NewKey, at: Time)
    requires Inv(db) && key.id !in db.keys && !CodeTaken(db.keys, key.code)
    ensures ConfirmOrder(db, o, key, at) ==
              if o !in db.orders then Outcome(db, Err(NotFound))
              else if !db.orders[o].status.PendingManual? then Outcome(db, Err(Conflict))
              else Outcome(db.(
                     orders := db.orders[o := db.orders[o].(status := Confirmed, paidAt := Some(at),
                                                            confirmedAt := Some(at))],
                     keys := db.keys[key.id := CardKey(Some(o), STANDARD_PLAN, key.code, 30, 1, Available,
                                                       None, None)]),
                   Ok(key.code))
  {
    hide CodeTaken;
    if o in db.orders && db.orders[o].status.PendingManual? {
      assert OrderOk(db.users, db.orders[o]);
      NoKeyYet(db, o);
    }
  }

  lemma NoKeyYet(db: Db, o: OrderId)
    requires Inv(db) && !IsConfirmed(db.orders, o)
    ensures !OrderHasKey(db.keys, o)
  {
  }

  /** An unredeemed key has no entitlement. */
  lemma NoEntitlementYet(db: Db, k: KeyId)
    requires Inv(db) && (k in db.keys ==> db.keys[k].redeemedBy.None?)
    ensures !KeyHasEntitlement(db.ents, k)
  {
  }

  /** Redeeming with a fresh entitlement id succeeds exactly on available codes, for any user:
      the key is the user's from then on, the entitlement lasts as many days as the key says,
      and nothing else changes. */
  lemma RedeemProgress(db: Db, user: UserId, code: Code, e: EntId, at: Time)
    requires Inv(db) && user in db.users && e !in db.ents
    ensures Redeem(db, user, code, e, at).result.Ok? <==>
              exists k | k in db.keys :: db.keys[k].code == code && db.keys[k].status.Available?
    ensures forall k | k in db.keys && db.keys[k].code == code && db.keys[k].status.Available? ::
              Redeem(db, user, code, e, at).db == db.(
                keys := db.keys[k := db.keys[k].(status := Redeemed, redeemedBy := Some(user), redeemedAt := Some(at))],
                ents := db.ents[e := Entitlement(user, db.keys[k].plan, k, DEFAULT_FEATURES,
                                                 at + db.keys[k].days * DAY, None)])
  {
    var found := KeyByCode(db, code);
    if found.Some? && db.keys[found.value].status.Available? {
      assert KeyOk(db.keys[found.value]);
      NoEntitlementYet(db, found.value);
    }
  }

  /** Key `i` of a request stands in `keys` and was not there before. */
  predicate DrawnAt(before: map<KeyId, CardKey>, keys: map<KeyId, CardKey>, request: KeyRequest, i: nat) {
    var key := request.draw(i);
    key.id !in before && key.id in keys && keys[key.id] == FreeKey(request, key.code)
  }

  ghost predicate Drawn(before: map<KeyId, CardKey>, keys: map<KeyId, CardKey>, request: KeyRequest, n: nat) {
    |keys| == |before| + n && forall i: nat | i < n :: DrawnAt(before, keys, request, i)
  }

  lemma DrawnGrows(before: map<KeyId, CardKey>, keys: map<KeyId, CardKey>, request: KeyRequest, n: nat)
    requires Drawn(before, keys, request, n) && request.draw(n).id !in keys
    requires forall k | k in before :: k in keys
    ensures Drawn(before, keys[request.draw(n).id := FreeKey(request, request.draw(n).code)], request, n + 1)
  {
    hide FreeKey, DrawnAt;
    var key := request.draw(n);
    var row := FreeKey(request, key.code);
    OneKeyMore(keys, key.id, row);
    LastDrawn(before, keys, request, n);
    var grown := keys[key.id := row];
    forall i: nat | i < n ensures DrawnAt(before, grown, request, i) {
      StillDrawn(before, keys, request, i, key.id, row);
    }
  }

  lemma OneKeyMore(keys: map<KeyId, CardKey>, k: KeyId, row: CardKey)
    requires k !in keys
    ensures |keys[k := row]| == |keys| + 1
  {
    var grown := keys[k := row];
    assert grown.Keys == keys.Keys + {k};
    assert |grown| == |grown.Keys| && |keys| == |keys.Keys|;
  }

  lemma StillDrawn(before: map<KeyId, CardKey>, keys: map<KeyId, CardKey>, request: KeyRequest, i: nat, k: KeyId,
                   row: CardKey)
    requires DrawnAt(before, keys, request, i) && k !in keys
    ensures DrawnAt(before, keys[k := row], request, i)
  {
    hide FreeKey;
  }

  lemma LastDrawn(before: map<KeyId, CardKey>, keys: map<KeyId, CardKey>, request: KeyRequest, n: nat)
    requires request.draw(n).id !in before
    ensures DrawnAt(before, keys[request.draw(n).id := FreeKey(request, request.draw(n).code)], request, n)
  {
    hide FreeKey;
  }

  lemma {:induction false} DrawnKeysStand(db: Db, request: KeyRequest, n: nat)
    requires InsertFreeKeys(db, request, n).Ok?
    ensures Drawn(db.keys, InsertFreeKeys(db, request, n).value.keys, request, n)
  {
    hide Drawn, FreeKey, OrderHasKey, CodeTaken;
    if n > 0 {
      DrawnKeysStand(db, request, n - 1);
      FreeKeysOnly(db, request, n - 1);
      DrawnGrows(db.keys, InsertFreeKeys(db, request, n - 1).value.keys, request, n - 1);
    } else {
      NoneDrawn(db.keys, request);
    }
  }

  lemma NoneDrawn(keys: map<KeyId, CardKey>, request: KeyRequest)
    ensures Drawn(keys, keys, request, 0)
  {
  }

  /** A request for keys adds as many as asked for, from one to fifty, or none; every code it
      returns can be redeemed by any user for as many days as were asked for. */
  lemma CodesAreGood(db: Db, request: KeyRequest, code: Code, user: UserId, e: EntId, at: Time)
    requires Inv(db) && CreateKeysBody(db, request).Ok? && user in db.users && e !in db.ents
    ensures var (db', codes) := CreateKeysBody(db, request).value;
            && 1 <= |codes| <= 50 && (1 <= request.count <= 50 ==> |codes| == request.count)
            && |db'.keys| == |db.keys| + |codes|
            && (code in codes ==>
                  && Redeem(db', user, code, e, at).result.Ok?
                  && Redeem(db', user, code, e, at).db.ents[e].expiresAt == at + request.days.GetOr(30) * DAY)
  {
    hide Inv, Redeem, InsertFreeKeys;
    var n := KeyCount(request.count);
    var db' := CreateKeysBody(db, request).value.0;
    DrawnKeysStand(db, request, n);
    FreeKeysOnly(db, request, n);
    CreateKeysKeeps(db, request);
    if code in CreateKeysBody(db, request).value.1 {
      var i :| 0 <= i < n && request.draw(i).code == code;
      var k := request.draw(i).id;
      assert DrawnAt(db.keys, db'.keys, request, i);
      assert k in db'.keys && db'.keys[k].code == code && db'.keys[k].status.Available?;
      RedeemProgress(db', user, code, e, at);
    }
  }

  // --- One to one ---

  /** Sets related by a one-to-one correspondence have the same size. */
  lemma {:induction false} SameSize<A, B>(a: set<A>, b: set<B>, f: map<A, B>)
    requires f.Keys == a
    requires forall x | x in a :: f[x] in b
    requires forall x, y | x in a && y in a && f[x] == f[y] :: x == y
    requires forall v | v in b :: exists x | x in a :: f[x] == v
    ensures |a| == |b|
  {
    if a != {} {
      var x :| x in a;
      var g := f - {x};
      forall v | v in b - {f[x]} ensures exists y | y in a - {x} :: g[y] == v {
        var y :| y in a && f[y] == v;
        assert y in a - {x} && g[y] == v;
      }
      SameSize(a - {x}, b - {f[x]}, g);
    } else {
      assert b == {};
    }
  }

  lemma OrderKeysCount(keys: map<KeyId, CardKey>, orders: map<OrderId, Order>)
    requires KeysMatchOrders(keys, orders)
    ensures |set k | k in keys && keys[k].order.Some?| == |set o | o in orders && IsConfirmed(orders, o)|
  {
    var a := set k | k in keys && keys[k].order.Some?;
    var b := set o | o in orders && IsConfirmed(orders, o);
    var orderOf := map k | k in a :: keys[k].order.value;
    forall o | o in b ensures exists k | k in a :: orderOf[k] == o {
      var k :| k in keys && keys[k].order == Some(o);
      assert k in a && orderOf[k] == o;
    }
    forall k | k in a ensures orderOf[k] in b {
      assert IsConfirmed(orders, keys[k].order.value);
    }
    forall k, l | k in a && l in a && orderOf[k] == orderOf[l] ensures k == l {
      assert keys[k].order == keys[l].order;
    }
    SameSize(a, b, orderOf);
  }

  lemma EntitlementsCount(ents: map<EntId, Entitlement>, keys: map<KeyId, CardKey>)
    requires EntitlementsMatchKeys(ents, keys)
    ensures |ents| == |set k | k in keys && keys[k].redeemedBy.Some?|
  {
    var b := set k | k in keys && keys[k].redeemedBy.Some?;
    var sourceOf := map e | e in ents.Keys :: ents[e].source;
    forall k | k in b ensures exists e | e in ents.Keys :: sourceOf[e] == k {
      var e :| e in ents && ents[e].source == k;
      assert e in ents.Keys && sourceOf[e] == k;
    }
    forall e | e in ents.Keys ensures sourceOf[e] in b {
      assert EntitlementOk(keys, ents[e]);
    }
    forall e, f | e in ents.Keys && f in ents.Keys && sourceOf[e] == sourceOf[f] ensures e == f {
      assert ents[e].source == ents[f].source;
    }
    SameSize(ents.Keys, b, sourceOf);
  }

  /** After any run there are as many Confirmed orders as keys carrying an order id, and as many
      entitlements as redeemed keys; `key.order` and `entitlement.source` are the bijections. */
  lemma TablesCorrespond(cfg: Config, txs: seq<Tx>)
    requires PossibleRun(cfg, EMPTY, txs)
    ensures var db := Run(cfg, EMPTY, txs);
            && |set k | k in db.keys && db.keys[k].order.Some?| == |set o | o in db.orders && IsConfirmed(db.orders, o)|
            && |db.ents| == |set k | k in db.keys && db.keys[k].status.Redeemed?|
  {
    EmptyIsSound();
    RunKeeps(cfg, EMPTY, txs);
    var db := Run(cfg, EMPTY, txs);
    OrderKeysCount(db.keys, db.orders);
    EntitlementsCount(db.ents, db.keys);
    forall k | k in db.keys ensures db.keys[k].redeemedBy.Some? <==> db.keys[k].status.Redeemed? {
      assert KeyOk(db.keys[k]);
    }
    assert (set k | k in db.keys && db.keys[k].redeemedBy.Some?)
        == (set k | k in db.keys && db.keys[k].status.Redeemed?);
  }

  /** After any run: Confirmed orders and keys naming an order correspond one to one, and so do
      Redeemed keys and entitlements, each entitlement being its redeemer's; the key of an order
      paid through a provider is redeemed by the order's own user; and every recorded event that
      names an order names a Confirmed one of its own provider. */
  lemma TablesMatch(cfg: Config, txs: seq<Tx>)
    requires PossibleRun(cfg, EMPTY, txs)
    ensures var db := Run(cfg, EMPTY, txs);
            && (forall k | k in db.keys && db.keys[k].order.Some? :: var o := db.keys[k].order.value;
                  && o in db.orders && db.orders[o].status == Confirmed
                  && (db.orders[o].provider != Manual ==> db.keys[k].redeemedBy == Some(db.orders[o].user)))
            && (forall k, l | k in db.keys && l in db.keys && db.keys[k].order.Some? ::
                  db.keys[k].order == db.keys[l].order ==> k == l)
            && (forall o | o in db.orders && db.orders[o].status == Confirmed ::
                  exists k | k in db.keys :: db.keys[k].order == Some(o))
            && (forall e | e in db.ents :: var k := db.ents[e].source;
                  k in db.keys && db.keys[k].status == Redeemed && db.keys[k].redeemedBy == Some(db.ents[e].user))
            && (forall e, f | e in db.ents && f in db.ents :: db.ents[e].source == db.ents[f].source ==> e == f)
            && (forall k | k in db.keys && db.keys[k].status == Redeemed ::
                  exists e | e in db.ents :: db.ents[e].source == k)
            && (forall v | v in db.events && db.events[v].order.Some? :: var o := db.events[v].order.value;
                  o in db.orders && db.orders[o].status == Confirmed && db.orders[o].provider == v.provider)
  {
    EmptyIsSound();
    RunKeeps(cfg, EMPTY, txs);
    MatchesWritten(Run(cfg, EMPTY, txs));
  }

  lemma MatchesWritten(db: Db)
    requires Inv(db)
    ensures forall k | k in db.keys && db.keys[k].order.Some? :: var o := db.keys[k].order.value;
              && o in db.orders && db.orders[o].status == Confirmed
              && (db.orders[o].provider != Manual ==> db.keys[k].redeemedBy == Some(db.orders[o].user))
    ensures forall o | o in db.orders && db.orders[o].status == Confirmed ::
              exists k | k in db.keys :: db.keys[k].order == Some(o)
    ensures forall e | e in db.ents :: var k := db.ents[e].source;
              k in db.keys && db.keys[k].status == Redeemed && db.keys[k].redeemedBy == Some(db.ents[e].user)
    ensures forall k | k in db.keys && db.keys[k].status == Redeemed ::
              exists e | e in db.ents :: db.ents[e].source == k
  {
    forall o | o in db.orders && db.orders[o].status == Confirmed
      ensures exists k | k in db.keys :: db.keys[k].order == Some(o)
    {
      assert IsConfirmed(db.orders, o) && OrderHasKey(db.keys, o);
    }
    forall e | e in db.ents
      ensures var k := db.ents[e].source;
              k in db.keys && db.keys[k].status == Redeemed && db.keys[k].redeemedBy == Some(db.ents[e].user)
    {
      assert EntitlementOk(db.keys, db.ents[e]) && KeyOk(db.keys[db.ents[e].source]);
    }
    forall k | k in db.keys && db.keys[k].status == Redeemed ensures exists e | e in db.ents :: db.ents[e].source == k {
      assert KeyOk(db.keys[k]) && KeyHasEntitlement(db.ents, k);
    }
  }
}
