/** The invariant that ties the licensing tables together, and the proof that every
    transaction keeps it. */
module Integrity {
  import opened Wrappers
  import opened Text
  import opened Tables
  import opened Handlers

  ghost predicate OrderOk(users: set<UserId>, order: Order) {
    && order.user in users
    && order.plan == STANDARD_PLAN
    && order.amount >= 0 && CurrencyCheck(order.currency)
    && !order.provider.Alipay?
    && !order.status.Cancelled?
    && (order.status.PendingManual? ==> order.provider.Manual?)
    && (order.status.PendingProvider? ==> !order.provider.Manual?)
  }

  ghost predicate OrdersOk(users: set<UserId>, orders: map<OrderId, Order>) {
    && (forall o | o in orders :: OrderOk(users, orders[o]))
    && (forall o, p | o in orders && p in orders && orders[o].reference == orders[p].reference :: o == p)
    && (forall o, p | o in orders && p in orders && orders[o].session.Some?
                      && orders[o].session == orders[p].session :: o == p)
  }

  predicate IsConfirmed(orders: map<OrderId, Order>, o: OrderId) {
    o in orders && orders[o].status.Confirmed?
  }

  /** Card keys carrying an order id and Confirmed orders correspond one to one. */
  ghost predicate KeysMatchOrders(keys: map<KeyId, CardKey>, orders: map<OrderId, Order>) {
    && (forall k | k in keys && keys[k].order.Some? ::
          && IsConfirmed(orders, keys[k].order.value)
          && keys[k].plan == STANDARD_PLAN && keys[k].days == 30 && keys[k].maxDevices == 1)
    && (forall k, l | k in keys && l in keys && keys[k].order.Some? && keys[k].order == keys[l].order :: k == l)
    && (forall o | IsConfirmed(orders, o) :: OrderHasKey(keys, o))
  }

  ghost predicate KeyOk(key: CardKey) {
    && key.days > 0 && key.maxDevices > 0 && !key.status.Withdrawn?
    && (key.status.Redeemed? <==> key.redeemedBy.Some?)
  }

  /** Codes identify keys, limits are positive, and a key names its redeemer exactly when redeemed. */
  ghost predicate KeysOk(keys: map<KeyId, CardKey>) {
    && (forall k, l | k in keys && l in keys && keys[k].code == keys[l].code :: k == l)
    && (forall k | k in keys :: KeyOk(keys[k]))
  }

  ghost predicate EntitlementOk(keys: map<KeyId, CardKey>, ent: Entitlement) {
    && ent.source in keys
    && keys[ent.source].redeemedBy == Some(ent.user)
    && ent.plan == keys[ent.source].plan
    && ent.features == DEFAULT_FEATURES
  }

  /** Redeemed keys and entitlements correspond one to one, user for user. */
  ghost predicate EntitlementsMatchKeys(ents: map<EntId, Entitlement>, keys: map<KeyId, CardKey>) {
    && (forall e | e in ents :: EntitlementOk(keys, ents[e]))
    && (forall e, f | e in ents && f in ents && ents[e].source == ents[f].source :: e == f)
    && (forall k | k in keys && keys[k].redeemedBy.Some? :: KeyHasEntitlement(ents, k))
  }

  /** A provider-paid order's key is redeemed by the order's own user. */
  ghost predicate PaidKeysBelong(keys: map<KeyId, CardKey>, orders: map<OrderId, Order>) {
    forall k | k in keys && keys[k].order.Some? && keys[k].order.value in orders ::
      var order := orders[keys[k].order.value];
      !order.provider.Manual? ==> keys[k].redeemedBy == Some(order.user)
  }

  /** An event naming an order names a Confirmed order of the same provider. */
  ghost predicate EventsSettled(events: map<EventKey, PaymentEvent>, orders: map<OrderId, Order>) {
    forall v | v in events && events[v].order.Some? ::
      var o := events[v].order.value;
      IsConfirmed(orders, o) && orders[o].provider == v.provider && !v.provider.Manual?
  }

  /** Entitlement `e` of the user allows at least the user's active devices. */
  ghost predicate Covers(db: Db, user: UserId, e: EntId) {
    && e in db.ents && db.ents[e].user == user && db.ents[e].source in db.keys
    && |ActiveDevices(db.devices, user)| <= db.keys[db.ents[e].source].maxDevices
  }

  /** The device bound: some entitlement ever granted to the user covers the active devices. */
  ghost predicate Bounded(db: Db, user: UserId) {
    ActiveDevices(db.devices, user) == {} || exists e :: Covers(db, user, e)
  }

  ghost predicate DevicesBounded(db: Db) {
    forall user :: Bounded(db, user)
  }

  /** `devices.id` is the table's primary key. */
  ghost predicate DeviceIdsUnique(devices: map<DeviceKey, Device>) {
    forall a, b | a in devices && b in devices && devices[a].id == devices[b].id :: a == b
  }

  /** Everything except the ownership of paid keys, which holds between statements too. */
  ghost predicate Core(db: Db) {
    && OrdersOk(db.users, db.orders) && KeysMatchOrders(db.keys, db.orders) && KeysOk(db.keys)
    && EntitlementsMatchKeys(db.ents, db.keys) && EventsSettled(db.events, db.orders)
    && DevicesBounded(db) && DeviceIdsUnique(db.devices)
  }

  ghost predicate Inv(db: Db) {
    Core(db) && PaidKeysBelong(db.keys, db.orders)
  }

  /** The devices and the limits of all entitlements being unchanged keeps the bound. */
  lemma BoundKept(db: Db, db': Db)
    requires DevicesBounded(db)
    requires db'.devices == db.devices
    requires forall e | e in db.ents && db.ents[e].source in db.keys ::
               && e in db'.ents && db'.ents[e].user == db.ents[e].user && db'.ents[e].source == db.ents[e].source
               && db.ents[e].source in db'.keys
               && db'.keys[db.ents[e].source].maxDevices == db.keys[db.ents[e].source].maxDevices
    ensures DevicesBounded(db')
  {
    forall user ensures Bounded(db', user) {
      assert Bounded(db, user);
      if ActiveDevices(db.devices, user) != {} {
        var e :| Covers(db, user, e);
        assert Covers(db', user, e);
      }
    }
  }

  // --- Single statements ---

  lemma AddUserKeeps(db: Db, user: UserId)
    requires Inv(db)
    ensures Inv(db.(users := db.users + {user}))
  {
    BoundKept(db, db.(users := db.users + {user}));
  }

  /** Replacing or adding an order that was not and is not Confirmed. */
  lemma PendingOrderKeeps(db: Db, o: OrderId, row: Order)
    requires Inv(db) && !IsConfirmed(db.orders, o) && !row.status.Confirmed?
    requires OrdersOk(db.users, db.orders[o := row])
    ensures Inv(db.(orders := db.orders[o := row]))
  {
    var orders := db.orders[o := row];
    BoundKept(db, db.(orders := orders));
    assert forall p | IsConfirmed(orders, p) :: IsConfirmed(db.orders, p);
    assert forall p | IsConfirmed(db.orders, p) :: IsConfirmed(orders, p) && orders[p] == db.orders[p];
  }

  lemma InsertOrderKeeps(db: Db, o: OrderId, row: Order)
    requires Inv(db) && InsertOrder(db, o, row).Ok?
    requires OrderOk(db.users, row) && !row.status.Confirmed? && row.session.None?
    ensures Inv(InsertOrder(db, o, row).value)
  {
    PendingOrderKeeps(db, o, row);
  }

  lemma AttachKeeps(db: Db, o: OrderId, session: string)
    requires Inv(db) && AttachCheckoutSession(db, o, session).Ok?
    ensures Inv(AttachCheckoutSession(db, o, session).value)
  {
    var row := db.orders[o].(session := Some(session), reference := session);
    var others := db.orders - {o};
    forall p | p in db.orders && p != o
      ensures db.orders[p].reference != session && db.orders[p].session != Some(session)
    {
      assert p in others && others[p] == db.orders[p];
    }
    PendingOrderKeeps(db, o, row);
  }

  /** An unrecorded event may name no order, or a Confirmed order of its own provider. */
  lemma EventKeeps(db: Db, key: EventKey, row: PaymentEvent)
    requires Inv(db) && InsertPaymentEvent(db, key, row).Ok?
    requires row.order.Some? ==> IsConfirmed(db.orders, row.order.value)
                                 && db.orders[row.order.value].provider == key.provider && !key.provider.Manual?
    ensures Inv(InsertPaymentEvent(db, key, row).value.0)
  {
    BoundKept(db, InsertPaymentEvent(db, key, row).value.0);
  }

  /** Adding a key, or redeeming one, never loses the key of an order. */
  lemma OrderKeysStay(keys: map<KeyId, CardKey>, keys': map<KeyId, CardKey>, o: OrderId)
    requires OrderHasKey(keys, o)
    requires forall k | k in keys :: k in keys' && keys'[k].order == keys[k].order
    ensures OrderHasKey(keys', o)
  {
    var k :| k in keys && keys[k].order == Some(o);
    assert k in keys' && keys'[k].order == Some(o);
  }

  /** Adding an entitlement, or revoking one, never loses the entitlement of a key. */
  lemma KeyEntitlementsStay(ents: map<EntId, Entitlement>, ents': map<EntId, Entitlement>, k: KeyId)
    requires KeyHasEntitlement(ents, k)
    requires forall e | e in ents :: e in ents' && ents'[e].source == ents[e].source
    ensures KeyHasEntitlement(ents', k)
  {
    var e :| e in ents && ents[e].source == k;
    assert e in ents' && ents'[e].source == k;
  }

  lemma FreeKeyKeeps(db: Db, k: KeyId, row: CardKey)
    requires Core(db) && InsertCardKey(db, k, row).Ok?
    requires row.order.None? && row.status.Available? && row.redeemedBy.None?
    ensures Core(InsertCardKey(db, k, row).value)
    ensures PaidKeysBelong(db.keys, db.orders) ==> Inv(InsertCardKey(db, k, row).value)
  {
    var db' := InsertCardKey(db, k, row).value;
    BoundKept(db, db');
    forall o | IsConfirmed(db'.orders, o) ensures OrderHasKey(db'.keys, o) {
      OrderKeysStay(db.keys, db'.keys, o);
    }
  }

  /** Confirming a pending order together with inserting its key keeps the tables matched. */
  lemma FulfilKeeps(db: Db, o: OrderId, confirmed: Order, k: KeyId, row: CardKey)
    requires Core(db) && o in db.orders && !IsConfirmed(db.orders, o)
    requires confirmed == db.orders[o].(status := Confirmed, intent := confirmed.intent,
                                        paidAt := confirmed.paidAt, confirmedAt := confirmed.confirmedAt)
    requires InsertCardKey(db.(orders := db.orders[o := confirmed]), k, row).Ok?
    requires row.order == Some(o) && row.status.Available? && row.redeemedBy.None?
    requires row.plan == STANDARD_PLAN && row.days == 30 && row.maxDevices == 1
    ensures Core(InsertCardKey(db.(orders := db.orders[o := confirmed]), k, row).value)
  {
    var orders := db.orders[o := confirmed];
    var keys := db.keys[k := row];
    BoundKept(db, db.(orders := orders, keys := keys));
    ConfirmedGrows(db.orders, o, confirmed);
    forall p | IsConfirmed(orders, p) ensures OrderHasKey(keys, p) {
      if p == o {
        assert k in keys && keys[k].order == Some(p);
      } else {
        OrderKeysStay(db.keys, keys, p);
      }
    }
    assert KeysMatchOrders(keys, orders);
    assert EventsSettled(db.events, orders);
  }

  lemma ConfirmedGrows(orders: map<OrderId, Order>, o: OrderId, confirmed: Order)
    requires o in orders && !IsConfirmed(orders, o) && confirmed.status.Confirmed?
    ensures forall p :: IsConfirmed(orders[o := confirmed], p) <==> IsConfirmed(orders, p) || p == o
    ensures forall p | IsConfirmed(orders, p) :: orders[o := confirmed][p] == orders[p]
  {
  }

  /** Marking an available key redeemed together with inserting its entitlement. */
  lemma RedeemKeeps(db: Db, k: KeyId, user: UserId, at: Time, e: EntId, row: Entitlement)
    requires Core(db) && MarkCardKeyRedeemed(db, k, user, at).Ok?
    requires InsertEntitlement(MarkCardKeyRedeemed(db, k, user, at).value, e, row).Ok?
    requires row.user == user && row.source == k && row.plan == db.keys[k].plan && row.features == DEFAULT_FEATURES
    ensures Core(InsertEntitlement(MarkCardKeyRedeemed(db, k, user, at).value, e, row).value)
  {
    var db' := InsertEntitlement(MarkCardKeyRedeemed(db, k, user, at).value, e, row).value;
    BoundKept(db, db');
    forall o | IsConfirmed(db'.orders, o) ensures OrderHasKey(db'.keys, o) {
      OrderKeysStay(db.keys, db'.keys, o);
    }
    forall l | l in db'.keys && db'.keys[l].redeemedBy.Some? ensures KeyHasEntitlement(db'.ents, l) {
      if l == k {
        assert e in db'.ents && db'.ents[e].source == l;
      } else {
        KeyEntitlementsStay(db.ents, db'.ents, l);
      }
    }
    assert EntitlementsMatchKeys(db'.ents, db'.keys);
    assert KeysMatchOrders(db'.keys, db'.orders);
  }

  lemma RevokeKeeps(db: Db, e: EntId, at: Time)
    requires Inv(db) && RevokeEntitlement(db, e, at).Ok?
    ensures Inv(RevokeEntitlement(db, e, at).value)
  {
    var db' := RevokeEntitlement(db, e, at).value;
    BoundKept(db, db');
    forall k | k in db'.keys && db'.keys[k].redeemedBy.Some? ensures KeyHasEntitlement(db'.ents, k) {
      KeyEntitlementsStay(db.ents, db'.ents, k);
    }
  }

  /** Changing devices touches no other table. */
  lemma DevicesKeep(db: Db, devices: map<DeviceKey, Device>)
    requires Inv(db) && DevicesBounded(db.(devices := devices)) && DeviceIdsUnique(devices)
    ensures Inv(db.(devices := devices))
  {
  }

  /** Activating one device adds at most that device to the user's active set. */
  lemma UpsertCounts(db: Db, key: DeviceKey, row: Device)
    requires UpsertDevice(db, key, row).Ok? && row.status.Active?
    ensures var devices := UpsertDevice(db, key, row).value.devices;
            && ActiveDevices(devices, key.user) == ActiveDevices(db.devices, key.user) + {key}
            && forall user | user != key.user :: ActiveDevices(devices, user) == ActiveDevices(db.devices, user)
  {
  }

  /** Upserting keeps ids unique: a new row's id is checked, an old row keeps its own. */
  lemma UpsertIds(db: Db, key: DeviceKey, row: Device)
    requires DeviceIdsUnique(db.devices) && UpsertDevice(db, key, row).Ok?
    ensures DeviceIdsUnique(UpsertDevice(db, key, row).value.devices)
  {
    if key !in db.devices {
      assert forall other | other in db.devices :: other != key && db.devices[other].id != row.id;
    }
  }

  /** Activating a device keeps the bound when the device was active already or some
      entitlement of the user leaves room for one more. */
  lemma UpsertBounded(db: Db, key: DeviceKey, row: Device, e: EntId)
    requires DevicesBounded(db) && UpsertDevice(db, key, row).Ok? && row.status.Active?
    requires || key in ActiveDevices(db.devices, key.user)
             || (&& e in db.ents && db.ents[e].user == key.user && db.ents[e].source in db.keys
                 && |ActiveDevices(db.devices, key.user)| < db.keys[db.ents[e].source].maxDevices)
    ensures DevicesBounded(UpsertDevice(db, key, row).value)
  {
    var db' := UpsertDevice(db, key, row).value;
    UpsertCounts(db, key, row);
    forall u ensures Bounded(db', u) {
      assert Bounded(db, u);
      if u == key.user && key !in ActiveDevices(db.devices, u) {
        assert Covers(db', u, e);
      } else {
        assert ActiveDevices(db'.devices, u) == ActiveDevices(db.devices, u);
        if ActiveDevices(db.devices, u) != {} {
          var f :| Covers(db, u, f);
          assert Covers(db', u, f);
        }
      }
    }
  }
}
