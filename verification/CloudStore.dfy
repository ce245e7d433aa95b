/** The cloud API's handlers as they run: statement by statement on the tables, leaving early
    on an error and rolling the tables back. Each is proved to have exactly the outcome that
    `Handlers` gives it, and so to keep the tables sound. */
module CloudStore {
  import opened Wrappers
  import opened Text
  import opened Tables
  import opened Integrity
  import opened Steps
  import H = Handlers
  import Leases

  /** The outcome of a statement: the new tables and a value, or the old tables and an error. */
  ghost predicate Applied<T(!new)>(spec: Result<(Db, T)>, before: Db, after: Db, r: Result<T>) {
    match spec
    case Ok(pair) => after == pair.0 && r == Ok(pair.1)
    case Err(error) => after == before && r == Err(error)
  }

  ghost predicate Executed(spec: Result<Db>, before: Db, after: Db, r: Result<()>) {
    match spec
    case Ok(db) => after == db && r == Ok(())
    case Err(error) => after == before && r == Err(error)
  }

  /** The outcome of a transaction body: on an error the tables may be half changed. */
  ghost predicate Attempted<T(!new)>(spec: Result<(Db, T)>, after: Db, r: Result<T>) {
    match spec
    case Ok(pair) => after == pair.0 && r == Ok(pair.1)
    case Err(error) => r == Err(error)
  }

  ghost predicate AttemptedDb(spec: Result<Db>, after: Db, r: Result<()>) {
    match spec
    case Ok(db) => after == db && r == Ok(())
    case Err(error) => r == Err(error)
  }

  class Store {
    var users: set<UserId>
    var orders: map<OrderId, Order>
    var events: map<EventKey, PaymentEvent>
    var keys: map<KeyId, CardKey>
    var ents: map<EntId, Entitlement>
    var devices: map<DeviceKey, Device>

    function Contents(): Db
      reads this
    {
      Db(users, orders, events, keys, ents, devices)
    }

    ghost predicate Valid()
      reads this
    {
      Inv(Contents())
    }

    constructor ()
      ensures Valid() && Contents() == EMPTY
    {
      users, orders, events, keys, ents, devices := {}, map[], map[], map[], map[], map[];
      new;
      EmptyIsSound();
    }

    /** Dropping an open transaction. */
    method Rollback(saved: Db)
      modifies this
      ensures Contents() == saved
    {
      users, orders, events := saved.users, saved.orders, saved.events;
      keys, ents, devices := saved.keys, saved.ents, saved.devices;
    }

    // --- Statements ---

    method InsertPaymentEvent(key: EventKey, row: PaymentEvent) returns (r: Result<bool>)
      modifies this
      ensures Applied(Tables.InsertPaymentEvent(old(Contents()), key, row), old(Contents()), Contents(), r)
    {
      if key in events {
        return Ok(false);
      }
      if row.order.Some? && row.order.value !in orders {
        return Err(Internal);
      }
      events := events[key := row];
      return Ok(true);
    }

    method ConfirmProviderOrder(o: OrderId, intent: Option<string>, paidAt: Time) returns (r: Result<()>)
      modifies this
      ensures Executed(Tables.ConfirmProviderOrder(old(Contents()), o, intent, paidAt), old(Contents()), Contents(), r)
    {
      if o !in orders || !orders[o].status.PendingProvider? {
        return Err(Conflict);
      }
      orders := orders[o := orders[o].(status := Confirmed, intent := intent,
                                       paidAt := Some(paidAt), confirmedAt := Some(paidAt))];
      return Ok(());
    }

    method ConfirmPendingOrder(o: OrderId, at: Time) returns (r: Result<()>)
      modifies this
      ensures Executed(Tables.ConfirmPendingOrder(old(Contents()), o, at), old(Contents()), Contents(), r)
    {
      if o in orders && orders[o].status.PendingManual? {
        orders := orders[o := orders[o].(status := Confirmed, paidAt := Some(at), confirmedAt := Some(at))];
        return Ok(());
      }
      return Err(if o in orders then Conflict else NotFound);
    }

    method InsertCardKey(k: KeyId, row: CardKey) returns (r: Result<()>)
      modifies this
      ensures Executed(Tables.InsertCardKey(old(Contents()), k, row), old(Contents()), Contents(), r)
    {
      if row.days == 0 || row.maxDevices == 0 || k in keys {
        return Err(Internal);
      }
      if row.order.Some? && OrderHasKey(keys, row.order.value) {
        return Err(Conflict);
      }
      if CodeTaken(keys, row.code) || (row.order.Some? && row.order.value !in orders) {
        return Err(Internal);
      }
      keys := keys[k := row];
      return Ok(());
    }

    method MarkCardKeyRedeemed(k: KeyId, user: UserId, at: Time) returns (r: Result<()>)
      modifies this
      ensures Executed(Tables.MarkCardKeyRedeemed(old(Contents()), k, user, at), old(Contents()), Contents(), r)
    {
      if k !in keys || !keys[k].status.Available? {
        return Err(Conflict);
      }
      if user !in users {
        return Err(Internal);
      }
      keys := keys[k := keys[k].(status := Redeemed, redeemedBy := Some(user), redeemedAt := Some(at))];
      return Ok(());
    }

    method InsertEntitlement(e: EntId, row: Entitlement) returns (r: Result<()>)
      modifies this
      ensures Executed(Tables.InsertEntitlement(old(Contents()), e, row), old(Contents()), Contents(), r)
    {
      if e in ents {
        return Err(Internal);
      }
      if KeyHasEntitlement(ents, row.source) {
        return Err(Conflict);
      }
      if row.source !in keys || row.user !in users {
        return Err(Internal);
      }
      ents := ents[e := row];
      return Ok(());
    }

    method UpsertDevice(key: DeviceKey, row: Device) returns (r: Result<()>)
      modifies this
      ensures Executed(Tables.UpsertDevice(old(Contents()), key, row), old(Contents()), Contents(), r)
    {
      if key in devices {
        devices := devices[key := devices[key].(name := row.name, status := Active, lastSeen := row.lastSeen)];
      } else if key.user !in users || DeviceIdTaken(devices, key, row.id) {
        return Err(Internal);
      } else {
        devices := devices[key := row];
      }
      return Ok(());
    }

    /** The best usable entitlement at `now`, ties broken either way. */
    method BestEntitlement(user: UserId, now: Time) returns (found: Option<EntId>)
      ensures H.QueryAnswer(Contents(), user, now, found)
    {
      if e :| e in ents && IsBest(Contents(), user, now, e) {
        return Some(e);
      }
      if AnyUsable(Contents(), user, now) {
        Leases.BestExists(Contents(), user, now);
        assert false;
      }
      return None;
    }

    // --- Orders ---

    method CreateOrder(cfg: H.Config, user: UserId, requested: Option<string>, o: OrderId, reference: string)
      returns (r: Result<Order>)
      requires Valid()
      modifies this
      ensures Valid()
      ensures H.Outcome(Contents(), r) == H.CreateOrder(cfg, old(Contents()), user, requested, o, reference)
    {
      CreateOrderKeeps(cfg, Contents(), user, requested, o, reference);
      var plan :- H.PlanDefinition(cfg, requested);
      var provider :- H.OrderProvider(cfg.payment);
      var row := H.NewOrder(user, plan, provider, reference);
      if row.amount < 0 || !CurrencyCheck(row.currency) || o in orders
         || ReferenceTaken(orders, reference) || user !in users {
        return Err(Internal);
      }
      orders := orders[o := row];
      return Ok(row);
    }

    method AttachCheckoutSession(o: OrderId, session: string) returns (r: Result<()>)
      requires Valid()
      modifies this
      ensures Valid()
      ensures H.Outcome(Contents(), r) == H.Commit(old(Contents()), H.AttachBody(old(Contents()), o, session))
    {
      if o !in orders || !orders[o].status.PendingProvider? {
        return Err(Conflict);
      }
      var others := orders - {o};
      if ReferenceTaken(others, session) || SessionTaken(others, session) {
        return Err(Internal);
      }
      AttachKeeps(Contents(), o, session);
      orders := orders[o := orders[o].(session := Some(session), reference := session)];
      return Ok(());
    }

    method ConfirmAndIssue(o: OrderId, key: H.NewKey, at: Time) returns (r: Result<Code>)
      modifies this
      ensures Attempted(H.ConfirmBody(old(Contents()), o, key, at), Contents(), r)
    {
      var _ :- ConfirmPendingOrder(o, at);
      var _ :- InsertCardKey(key.id, H.ManualKey(orders[o].plan, o, key.code));
      return Ok(key.code);
    }

    method ConfirmOrder(o: OrderId, key: H.NewKey, at: Time) returns (r: Result<Code>)
      requires Valid()
      modifies this
      ensures Valid()
      ensures H.Outcome(Contents(), r) == H.ConfirmOrder(old(Contents()), o, key, at)
    {
      var saved := Contents();
      ConfirmOrderKeeps(saved, o, key, at);
      r := ConfirmAndIssue(o, key, at);
      if r.Err? {
        Rollback(saved);
      }
    }

    method ConfirmOrderByReference(reference: string, key: H.NewKey, at: Time) returns (r: Result<Code>)
      requires Valid()
      modifies this
      ensures Valid()
      ensures H.Outcome(Contents(), r) == H.ConfirmByReference(old(Contents()), reference, key, at)
    {
      if o :| o in orders && orders[o].reference == reference {
        assert H.OrderByReference(Contents(), reference) == Some(o);
        r := ConfirmOrder(o, key, at);
      } else {
        r := Err(NotFound);
      }
    }

    // --- Webhooks ---

    /** Insert a key, redeem it and insert its entitlement: three statements. */
    method GrantKey(key: CardKey, user: UserId, grant: H.Grant) returns (r: Result<()>)
      modifies this
      ensures AttemptedDb(H.GrantKey(old(Contents()), key, user, grant), Contents(), r)
    {
      var _ :- InsertCardKey(grant.key.id, key);
      var _ :- MarkCardKeyRedeemed(grant.key.id, user, grant.at);
      r := InsertEntitlement(grant.ent, H.NewEntitlement(user, key.plan, grant.key.id, grant.at, key.days));
    }

    method ProvisionPaidOrder(o: OrderId, order: Order, grant: H.Grant) returns (r: Result<()>)
      modifies this
      ensures AttemptedDb(H.Provision(old(Contents()), o, order, grant), Contents(), r)
    {
      var terms :- H.FulfillmentTerms(order.plan);
      r := GrantKey(CardKey(Some(o), order.plan, grant.key.code, terms.0, terms.1, Available, None, None),
                    order.user, grant);
    }

    method Settle(o: OrderId, order: Order, intent: Option<string>, paidAt: Time, grant: H.Grant)
      returns (r: Result<()>)
      modifies this
      ensures AttemptedDb(H.Settle(old(Contents()), o, order, intent, paidAt, grant), Contents(), r)
    {
      var _ :- ConfirmProviderOrder(o, intent, paidAt);
      r := ProvisionPaidOrder(o, order, grant);
    }

    method RecordIgnored(key: EventKey, kind: string) returns (r: Result<bool>)
      requires Valid()
      modifies this
      ensures Valid()
      ensures H.Outcome(Contents(), r) == H.Ignore(old(Contents()), key, kind)
    {
      IgnoreKeeps(Contents(), key, kind);
      var inserted := InsertPaymentEvent(key, PaymentEvent(kind, None));
      r := if inserted.Ok? then Ok(false) else Err(inserted.error);
    }

    method FulfillCheckout(d: H.StripeDelivery, o: OrderId) returns (r: Result<bool>)
      modifies this
      ensures Attempted(H.StripeBody(old(Contents()), d, o), Contents(), r)
    {
      var inserted :- InsertPaymentEvent(H.StripeKey(d), PaymentEvent(d.kind, Some(o)));
      if !inserted {
        return Ok(false);
      }
      if o !in orders {
        return Err(NotFound);
      }
      var order := orders[o];
      var _ :- Need(H.SessionMatches(d.session, order), BadRequest);
      if order.status.Confirmed? {
        return Ok(false);
      }
      if !order.status.PendingProvider? {
        return Err(Conflict);
      }
      var _ :- Settle(o, order, d.session.intent, d.paidAt, d.grant);
      return Ok(true);
    }

    method StripeWebhook(d: H.StripeDelivery) returns (r: Result<bool>)
      requires Valid()
      modifies this
      ensures Valid()
      ensures H.Outcome(Contents(), r) == H.StripeWebhook(old(Contents()), d)
    {
      var saved := Contents();
      StripeKeeps(saved, d);
      if !H.StripePaid(d) {
        r := RecordIgnored(H.StripeKey(d), d.kind);
        return;
      }
      var o :- H.SessionOrderId(d.session);
      r := FulfillCheckout(d, o);
      if r.Err? {
        Rollback(saved);
      }
    }

    method SettleTransaction(cfg: H.Config, d: H.WechatDelivery, o: OrderId, order: Order) returns (r: Result<bool>)
      modifies this
      ensures Attempted(H.WechatBody(cfg, old(Contents()), d, o, order), Contents(), r)
    {
      var _ :- H.CheckTransaction(cfg, d.transaction, order);
      var inserted :- InsertPaymentEvent(H.WechatKey(d), PaymentEvent(d.kind, Some(o)));
      if !inserted || order.status.Confirmed? {
        return Ok(false);
      }
      if !order.status.PendingProvider? {
        return Err(Conflict);
      }
      var paidAt := d.transaction.successTime.GetOr(d.receivedAt);
      var intent := d.transaction.transactionId.GetOr(d.transaction.outTradeNo);
      var _ :- Settle(o, order, Some(intent), paidAt, d.grant);
      return Ok(true);
    }

    method WechatWebhook(cfg: H.Config, d: H.WechatDelivery) returns (r: Result<bool>)
      requires Valid()
      modifies this
      ensures Valid()
      ensures H.Outcome(Contents(), r) == H.WechatWebhook(cfg, old(Contents()), d)
    {
      var saved := Contents();
      WechatKeeps(cfg, saved, d);
      if !H.WechatPaid(d) {
        r := RecordIgnored(H.WechatKey(d), d.kind);
      } else if o :| o in orders && orders[o].provider == WechatPay && orders[o].reference == d.transaction.outTradeNo {
        assert H.ProviderOrder(saved, WechatPay, d.transaction.outTradeNo) == Some(o);
        r := SettleTransaction(cfg, d, o, orders[o]);
        if r.Err? {
          Rollback(saved);
        }
      } else {
        r := Err(NotFound);
      }
    }

    // --- Card keys and entitlements ---

    method InsertKeys(request: H.KeyRequest) returns (r: Result<seq<Code>>)
      modifies this
      ensures Attempted(H.CreateKeysBody(old(Contents()), request), Contents(), r)
    {
      var _ :- H.CheckLimits(request.days.GetOr(30), request.devices.GetOr(1));
      var n := H.KeyCount(request.count);
      var codes := [];
      for i := 0 to n
        invariant H.InsertFreeKeys(old(Contents()), request, i) == Ok(Contents())
        invariant codes == seq(i, j requires 0 <= j < i => request.draw(j).code)
      {
        ghost var before := Contents();
        var key := request.draw(i);
        var inserted := InsertCardKey(key.id, H.FreeKey(request, key.code));
        if inserted.Err? {
          FailureStays(old(Contents()), request, i + 1, n);
          return Err(inserted.error);
        }
        codes := codes + [key.code];
      }
      return Ok(codes);
    }

    /** Once one key fails to insert, so does the whole request, with the same error. */
    static lemma {:induction false} FailureStays(db: Db, request: H.KeyRequest, i: nat, n: nat)
      requires i <= n && H.InsertFreeKeys(db, request, i).Err?
      ensures H.InsertFreeKeys(db, request, n) == H.InsertFreeKeys(db, request, i)
      decreases n
    {
      if i < n {
        FailureStays(db, request, i, n - 1);
      }
    }

    method CreateCardKeys(request: H.KeyRequest) returns (r: Result<seq<Code>>)
      requires Valid()
      modifies this
      ensures Valid()
      ensures H.Outcome(Contents(), r) == H.Commit(old(Contents()), H.CreateKeysBody(old(Contents()), request))
    {
      var saved := Contents();
      CreateKeysKeeps(saved, request);
      r := InsertKeys(request);
      if r.Err? {
        Rollback(saved);
      }
    }

    method RedeemKey(user: UserId, k: KeyId, e: EntId, at: Time) returns (r: Result<Entitlement>)
      requires k in keys
      modifies this
      ensures Attempted(H.RedeemBody(old(Contents()), user, k, old(keys[k]), e, at), Contents(), r)
    {
      var card := keys[k];
      var _ :- Need(card.status.Available?, Conflict);
      var row := H.NewEntitlement(user, card.plan, k, at, card.days);
      var _ :- MarkCardKeyRedeemed(k, user, at);
      var _ :- InsertEntitlement(e, row);
      return Ok(row);
    }

    method RedeemCardKey(user: UserId, code: Code, e: EntId, at: Time) returns (r: Result<Entitlement>)
      requires Valid()
      modifies this
      ensures Valid()
      ensures H.Outcome(Contents(), r) == H.Redeem(old(Contents()), user, code, e, at)
    {
      var saved := Contents();
      RedeemCodeKeeps(saved, user, code, e, at);
      if k :| k in keys && keys[k].code == code {
        assert H.KeyByCode(saved, code) == Some(k);
        r := RedeemKey(user, k, e, at);
        if r.Err? {
          Rollback(saved);
        }
      } else {
        r := Err(NotFound);
      }
    }

    method EnsureTestAccess(cfg: H.Config, user: UserId, allowlisted: bool, now: Time, grant: H.Grant)
      returns (r: Result<()>)
      requires Valid()
      modifies this
      ensures Valid()
      ensures H.Outcome(Contents(), r) == H.GrantTestAccess(cfg, old(Contents()), user, allowlisted, now, grant)
    {
      var saved := Contents();
      GrantTestKeeps(cfg, saved, user, allowlisted, now, grant);
      if !cfg.testAccess {
        return Ok(());
      }
      if user !in users {
        return Err(Unauthorized);
      }
      if !allowlisted || H.HasFullAccess(Contents(), user, cfg.testDevices, now) {
        return Ok(());
      }
      r := GrantKey(H.TestKey(cfg, grant.key.code), user, grant);
      if r.Err? {
        Rollback(saved);
      }
    }

    method RevokeEntitlement(e: EntId, at: Time) returns (r: Result<()>)
      requires Valid()
      modifies this
      ensures Valid()
      ensures H.Outcome(Contents(), r) == H.Commit(old(Contents()), H.RevokeBody(old(Contents()), e, at))
    {
      if e !in ents {
        return Err(NotFound);
      }
      RevokeKeeps(Contents(), e, at);
      ents := ents[e := ents[e].(revokedAt := Some(at))];
      return Ok(());
    }

    // --- Devices and leases ---

    /** `limit` is the row the entitlement query returned, when the handler got that far. */
    method Activate(user: UserId, name: string, fingerprint: string, queryAt: Time, now: Time)
      returns (r: Result<Device>, ghost limit: Option<EntId>)
      requires Valid()
      modifies this
      ensures Valid()
      ensures H.QueryAnswer(old(Contents()), user, queryAt, limit)
      ensures H.Outcome(Contents(), r) == H.Activate(old(Contents()), user, name, fingerprint, limit, now)
    {
      var best := BestEntitlement(user, queryAt);
      limit := best;
      ActivateKeeps(Contents(), user, name, fingerprint, limit, queryAt, now);
      if Blank(name) || Blank(fingerprint) {
        return Err(BadRequest), limit;
      }
      if user !in users {
        return Err(Unauthorized), limit;
      }
      if best.None? {
        return Err(Forbidden), limit;
      }
      var key := DeviceKey(user, fingerprint);
      if !(key in devices && devices[key].status.Active?) {
        if !H.AllowsNewActivation(|ActiveDevices(devices, user)|, keys[ents[best.value].source].maxDevices) {
          return Err(Forbidden), limit;
        }
      }
      var upserted := UpsertDevice(key, Device(Derived(user, fingerprint), name, Active, now, Some(now)));
      if upserted.Err? {
        return Err(upserted.error), limit;
      }
      return Ok(devices[key]), limit;
    }

    /** The activation handler: test access is granted in a transaction of its own, which stays
        committed when the activation is then refused. */
    method ActivateDevice(cfg: H.Config, user: UserId, allowlisted: bool, grantAt: Time, grant: H.Grant,
                          name: string, fingerprint: string, queryAt: Time, now: Time)
      returns (r: Result<Device>, ghost limit: Option<EntId>)
      requires Valid()
      modifies this
      ensures Valid()
      ensures var first := H.GrantTestAccess(cfg, old(Contents()), user, allowlisted, grantAt, grant);
              if first.result.Err? then H.Outcome(Contents(), r) == H.Outcome(old(Contents()), Err(first.result.error))
              else && H.QueryAnswer(first.db, user, queryAt, limit)
                   && H.Outcome(Contents(), r) == H.Activate(first.db, user, name, fingerprint, limit, now)
    {
      limit := None;
      var granted := EnsureTestAccess(cfg, user, allowlisted, grantAt, grant);
      if granted.Err? {
        return Err(granted.error), limit;
      }
      r, limit := Activate(user, name, fingerprint, queryAt, now);
    }

    /** `request` names user, device and the clock readings; the rows are the queries' answers. */
    method GrantLease(cfg: H.Config, request: H.LeaseRequest)
      returns (r: Result<H.Lease>, ghost made: H.LeaseRequest)
      requires Valid() && request.pickAt <= request.limitAt <= request.touchAt <= request.issueAt
      modifies this
      ensures Valid()
      ensures made == request.(pick := made.pick, limit := made.limit)
      ensures H.Possible(old(Contents()), H.RequestLease(made))
      ensures H.Outcome(Contents(), r) == H.IssueLease(cfg, old(Contents()), made)
    {
      var pick := BestEntitlement(request.user, request.pickAt);
      var limit := BestEntitlement(request.user, request.limitAt);
      made := request.(pick := pick, limit := limit);
      LeaseKeeps(cfg, Contents(), made);
      if key :| key in devices && H.IsActiveDevice(Contents(), request.user, request.device, key) {
        assert H.ActiveDevice(Contents(), request.user, request.device) == Some(key);
        if pick.None? || limit.None? {
          return Err(Forbidden), made;
        }
        if !H.AllowsActiveFleet(|ActiveDevices(devices, request.user)|, keys[ents[limit.value].source].maxDevices) {
          return Err(Forbidden), made;
        }
        var lease := H.NewLease(request.leaseId, request.user, request.device, pick.value, ents[pick.value],
                                request.issueAt);
        devices := devices[key := devices[key].(lastSeen := Some(request.touchAt))];
        return if cfg.signingKey then Ok(lease) else Err(ServiceUnavailable), made;
      } else {
        return Err(NotFound), made;
      }
    }

    /** The lease handler: like activation it grants test access first, in a transaction of its
        own. */
    method IssueLease(cfg: H.Config, allowlisted: bool, grantAt: Time, grant: H.Grant, request: H.LeaseRequest)
      returns (r: Result<H.Lease>, ghost made: H.LeaseRequest)
      requires Valid() && request.pickAt <= request.limitAt <= request.touchAt <= request.issueAt
      modifies this
      ensures Valid()
      ensures var first := H.GrantTestAccess(cfg, old(Contents()), request.user, allowlisted, grantAt, grant);
              if first.result.Err? then H.Outcome(Contents(), r) == H.Outcome(old(Contents()), Err(first.result.error))
              else && made == request.(pick := made.pick, limit := made.limit)
                   && H.Possible(first.db, H.RequestLease(made))
                   && H.Outcome(Contents(), r) == H.IssueLease(cfg, first.db, made)
    {
      made := request;
      var granted := EnsureTestAccess(cfg, request.user, allowlisted, grantAt, grant);
      if granted.Err? {
        return Err(granted.error), made;
      }
      r, made := GrantLease(cfg, request);
    }
  }
}
