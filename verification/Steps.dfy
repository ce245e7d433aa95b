/** Every transaction, committed or rolled back, keeps the licensing invariant; so does every run. */
module Steps {
  import opened Wrappers
  import opened Text
  import opened Tables
  import opened Handlers
  import opened Integrity

  lemma EmptyIsSound()
    ensures Inv(EMPTY)
  {
    forall user ensures Bounded(EMPTY, user) {
      assert ActiveDevices(EMPTY.devices, user) == {};
    }
  }

  lemma CreateOrderKeeps(cfg: Config, db: Db, user: UserId, requested: Option<string>, o: OrderId, reference: string)
    requires Inv(db)
    ensures Inv(CreateOrder(cfg, db, user, requested, o, reference).db)
  {
    var body := CreateOrderBody(cfg, db, user, requested, o, reference);
    if body.Ok? {
      var row := NewOrder(user, PlanDefinition(cfg, requested).value, OrderProvider(cfg.payment).value, reference);
      InsertOrderKeeps(db, o, row);
    }
  }

  lemma ConfirmOrderKeeps(db: Db, o: OrderId, key: NewKey, at: Time)
    requires Inv(db)
    ensures Inv(ConfirmOrder(db, o, key, at).db)
  {
    if ConfirmBody(db, o, key, at).Ok? {
      var confirmed := db.orders[o].(status := Confirmed, paidAt := Some(at), confirmedAt := Some(at));
      FulfilKeeps(db, o, confirmed, key.id, ManualKey(STANDARD_PLAN, o, key.code));
    }
  }

  /** Redeeming a key inside a grant: the key is new, so only the grant's own key changes hands. */
  lemma GrantKeyKeeps(db: Db, key: CardKey, user: UserId, grant: Grant)
    requires InsertCardKey(db, grant.key.id, key).Ok? && Core(InsertCardKey(db, grant.key.id, key).value)
    requires key.status.Available? && GrantKey(db, key, user, grant).Ok?
    ensures Core(GrantKey(db, key, user, grant).value)
    ensures GrantKey(db, key, user, grant).value == db.(
              keys := db.keys[grant.key.id := key.(status := Redeemed, redeemedBy := Some(user),
                                                   redeemedAt := Some(grant.at))],
              ents := db.ents[grant.ent := NewEntitlement(user, key.plan, grant.key.id, grant.at, key.days)])
  {
    var db1 := InsertCardKey(db, grant.key.id, key).value;
    RedeemKeeps(db1, grant.key.id, user, grant.at, grant.ent,
                NewEntitlement(user, key.plan, grant.key.id, grant.at, key.days));
  }

  /** Confirming a provider order and provisioning it, the order's paid state being `confirmed`. */
  lemma ProvisionKeeps(db: Db, o: OrderId, confirmed: Order, grant: Grant)
    requires Inv(db) && o in db.orders && !IsConfirmed(db.orders, o)
    requires confirmed == db.orders[o].(status := Confirmed, intent := confirmed.intent,
                                        paidAt := confirmed.paidAt, confirmedAt := confirmed.confirmedAt)
    requires Provision(db.(orders := db.orders[o := confirmed]), o, db.orders[o], grant).Ok?
    ensures Inv(Provision(db.(orders := db.orders[o := confirmed]), o, db.orders[o], grant).value)
    ensures var db' := Provision(db.(orders := db.orders[o := confirmed]), o, db.orders[o], grant).value;
            IsConfirmed(db'.orders, o) && db'.orders == db.orders[o := confirmed] && db'.events == db.events
  {
    var db1 := db.(orders := db.orders[o := confirmed]);
    var user := db.orders[o].user;
    var key := CardKey(Some(o), STANDARD_PLAN, grant.key.code, 30, 1, Available, None, None);
    FulfilKeeps(db, o, confirmed, grant.key.id, key);
    GrantKeyKeeps(db1, key, user, grant);
    ConfirmedGrows(db.orders, o, confirmed);
    assert forall k | k in db.keys && db.keys[k].order.Some? :: db.keys[k].order.value != o;
  }

  lemma IgnoreKeeps(db: Db, key: EventKey, kind: string)
    requires Inv(db)
    ensures Inv(Ignore(db, key, kind).db)
  {
    EventKeeps(db, key, PaymentEvent(kind, None));
  }

  /** Settling an order and then recording its event is the same as recording it first. */
  lemma SettleThenRecord(db: Db, key: EventKey, row: PaymentEvent, o: OrderId, confirmed: Order, grant: Grant)
    requires key !in db.events && o in db.orders
    ensures var plain := Provision(db.(orders := db.orders[o := confirmed]), o, db.orders[o], grant);
            var recorded := Provision(db.(events := db.events[key := row], orders := db.orders[o := confirmed]),
                                      o, db.orders[o], grant);
            && plain.Ok? == recorded.Ok?
            && (plain.Ok? ==> recorded.value == plain.value.(events := db.events[key := row]))
            && (plain.Err? ==> recorded.error == plain.error)
  {
  }

  lemma SettleKeeps(db: Db, key: EventKey, kind: string, o: OrderId, confirmed: Order, grant: Grant)
    requires Inv(db) && key !in db.events
    requires o in db.orders && !IsConfirmed(db.orders, o) && !db.orders[o].provider.Manual?
    requires db.orders[o].provider == key.provider
    requires confirmed == db.orders[o].(status := Confirmed, intent := confirmed.intent,
                                        paidAt := confirmed.paidAt, confirmedAt := confirmed.confirmedAt)
    requires Provision(db.(events := db.events[key := PaymentEvent(kind, Some(o))],
                           orders := db.orders[o := confirmed]), o, db.orders[o], grant).Ok?
    ensures Inv(Provision(db.(events := db.events[key := PaymentEvent(kind, Some(o))],
                              orders := db.orders[o := confirmed]), o, db.orders[o], grant).value)
  {
    SettleThenRecord(db, key, PaymentEvent(kind, Some(o)), o, confirmed, grant);
    ProvisionKeeps(db, o, confirmed, grant);
    var db' := Provision(db.(orders := db.orders[o := confirmed]), o, db.orders[o], grant).value;
    EventKeeps(db', key, PaymentEvent(kind, Some(o)));
  }

  lemma StripeKeeps(db: Db, d: StripeDelivery)
    requires Inv(db)
    ensures Inv(StripeWebhook(db, d).db)
  {
    var id := SessionOrderId(d.session);
    if !StripePaid(d) {
      IgnoreKeeps(db, StripeKey(d), d.kind);
    } else if id.Ok? && StripeBody(db, d, id.value).Ok? && StripeKey(d) !in db.events {
      var o := id.value;
      if db.orders[o].status.Confirmed? {
        EventKeeps(db, StripeKey(d), PaymentEvent(d.kind, Some(o)));
      } else {
        var confirmed := db.orders[o].(status := Confirmed, intent := d.session.intent,
                                       paidAt := Some(d.paidAt), confirmedAt := Some(d.paidAt));
        SettleKeeps(db, StripeKey(d), d.kind, o, confirmed, d.grant);
      }
    }
  }

  lemma WechatKeeps(cfg: Config, db: Db, d: WechatDelivery)
    requires Inv(db)
    ensures Inv(WechatWebhook(cfg, db, d).db)
  {
    var found := ProviderOrder(db, WechatPay, d.transaction.outTradeNo);
    if !WechatPaid(d) {
      IgnoreKeeps(db, WechatKey(d), d.kind);
    } else if found.Some? && WechatBody(cfg, db, d, found.value, db.orders[found.value]).Ok?
              && WechatKey(d) !in db.events {
      var o := found.value;
      if db.orders[o].status.Confirmed? {
        EventKeeps(db, WechatKey(d), PaymentEvent(d.kind, Some(o)));
      } else {
        var paidAt := d.transaction.successTime.GetOr(d.receivedAt);
        var intent := d.transaction.transactionId.GetOr(d.transaction.outTradeNo);
        var confirmed := db.orders[o].(status := Confirmed, intent := Some(intent),
                                       paidAt := Some(paidAt), confirmedAt := Some(paidAt));
        SettleKeeps(db, WechatKey(d), d.kind, o, confirmed, d.grant);
      }
    }
  }

  lemma {:induction false} FreeKeysKeep(db: Db, request: KeyRequest, n: nat)
    requires Inv(db) && InsertFreeKeys(db, request, n).Ok?
    ensures Inv(InsertFreeKeys(db, request, n).value)
  {
    if n > 0 {
      FreeKeysKeep(db, request, n - 1);
      FreeKeyKeeps(InsertFreeKeys(db, request, n - 1).value, request.draw(n - 1).id,
                   FreeKey(request, request.draw(n - 1).code));
    }
  }

  lemma CreateKeysKeeps(db: Db, request: KeyRequest)
    requires Inv(db)
    ensures Inv(Commit(db, CreateKeysBody(db, request)).db)
  {
    if CreateKeysBody(db, request).Ok? {
      FreeKeysKeep(db, request, KeyCount(request.count));
    }
  }

  lemma RedeemCodeKeeps(db: Db, user: UserId, code: Code, e: EntId, at: Time)
    requires Inv(db)
    ensures Inv(Redeem(db, user, code, e, at).db)
  {
    var found := KeyByCode(db, code);
    if found.Some? && RedeemBody(db, user, found.value, db.keys[found.value], e, at).Ok? {
      var key := db.keys[found.value];
      RedeemKeeps(db, found.value, user, at, e, NewEntitlement(user, key.plan, found.value, at, key.days));
    }
  }

  lemma GrantTestKeeps(cfg: Config, db: Db, user: UserId, allowlisted: bool, now: Time, grant: Grant)
    requires Inv(db)
    ensures Inv(GrantTestAccess(cfg, db, user, allowlisted, now, grant).db)
  {
    if GrantTestBody(cfg, db, user, now, grant).Ok? && !HasFullAccess(db, user, cfg.testDevices, now) {
      FreeKeyKeeps(db, grant.key.id, TestKey(cfg, grant.key.code));
      GrantKeyKeeps(db, TestKey(cfg, grant.key.code), user, grant);
    }
  }

  lemma ActivateKeeps(db: Db, user: UserId, name: string, fingerprint: string, limit: Option<EntId>, queryAt: Time,
                      now: Time)
    requires Inv(db) && QueryAnswer(db, user, queryAt, limit)
    ensures Inv(Activate(db, user, name, fingerprint, limit, now).db)
  {
    if !Blank(name) && !Blank(fingerprint) && ActivateBody(db, user, name, fingerprint, limit, now).Ok? {
      var key := DeviceKey(user, fingerprint);
      var row := Device(Derived(user, fingerprint), name, Active, now, Some(now));
      UpsertIds(db, key, row);
      UpsertBounded(db, key, row, limit.value);
      DevicesKeep(db, UpsertDevice(db, key, row).value.devices);
    }
  }

  lemma LeaseKeeps(cfg: Config, db: Db, r: LeaseRequest)
    requires Inv(db)
    ensures Inv(IssueLease(cfg, db, r).db)
  {
    if LeaseBody(db, r).Ok? {
      var db' := LeaseBody(db, r).value.0;
      forall u ensures Bounded(db', u) {
        assert Bounded(db, u);
        assert ActiveDevices(db'.devices, u) == ActiveDevices(db.devices, u);
        if ActiveDevices(db.devices, u) != {} {
          var e :| Covers(db, u, e);
          assert Covers(db', u, e);
        }
      }
      DevicesKeep(db, db'.devices);
    }
  }

  /** One transaction keeps the invariant, whether it commits, is rejected or is dropped. */
  lemma StepKeeps(cfg: Config, db: Db, tx: Tx)
    requires Inv(db) && Possible(db, tx)
    ensures Inv(Step(cfg, db, tx).db)
  {
    match tx
    case AddUser(u) => AddUserKeeps(db, u);
    case PlaceOrder(u, plan, o, reference) => CreateOrderKeeps(cfg, db, u, plan, o, reference);
    case AttachSession(o, s) => if AttachBody(db, o, s).Ok? { AttachKeeps(db, o, s); }
    case ConfirmById(o, key, at) => ConfirmOrderKeeps(db, o, key, at);
    case ConfirmByRef(reference, key, at) =>
      var found := OrderByReference(db, reference);
      if found.Some? { ConfirmOrderKeeps(db, found.value, key, at); }
    case StripeEvent(d) => StripeKeeps(db, d);
    case WechatEvent(d) => WechatKeeps(cfg, db, d);
    case CreateKeys(request) => CreateKeysKeeps(db, request);
    case RedeemCode(u, code, e, at) => RedeemCodeKeeps(db, u, code, e, at);
    case EnsureTestAccess(u, listed, at, grant) => GrantTestKeeps(cfg, db, u, listed, at, grant);
    case ActivateDevice(u, name, fp, queryAt, limit, at) => ActivateKeeps(db, u, name, fp, limit, queryAt, at);
    case RequestLease(r) => LeaseKeeps(cfg, db, r);
    case Revoke(e, at) => if RevokeBody(db, e, at).Ok? { RevokeKeeps(db, e, at); }
    case Dropped =>
  }

  /** Every database a run reaches from a sound one is sound, the empty database being sound. */
  lemma {:induction false} RunKeeps(cfg: Config, db: Db, txs: seq<Tx>)
    requires Inv(db) && PossibleRun(cfg, db, txs)
    ensures Inv(Run(cfg, db, txs))
    decreases |txs|
  {
    if txs != [] {
      StepKeeps(cfg, db, txs[0]);
      RunKeeps(cfg, Step(cfg, db, txs[0]).db, txs[1..]);
    }
  }
}
