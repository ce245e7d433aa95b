/** The whole outcome of every transaction on a sound database, written out row by row and value
    by value: what a caller may rely on without knowing any statement or check of the handlers. */
module Outcomes {
  import opened Wrappers
  import opened Text
  import opened Tables
  import opened Handlers
  import opened Integrity
  import opened Replay
  import opened Leases
  import OrderEntry

  // --- Payments ---

  /** The database once order `o` is paid, its key redeemed and its entitlement started. */
  function Paid(db: Db, event: EventKey, kind: string, o: OrderId, intent: Option<string>, paidAt: Time,
                grant: Grant): Db
    requires o in db.orders
  {
    db.(events := db.events[event := PaymentEvent(kind, Some(o))],
        orders := db.orders[o := db.orders[o].(status := Confirmed, intent := intent, paidAt := Some(paidAt),
                                               confirmedAt := Some(paidAt))],
        keys := db.keys[grant.key.id := CardKey(Some(o), "standard_30d", grant.key.code, 30, 1, Redeemed,
                                                Some(db.orders[o].user), Some(grant.at))],
        ents := db.ents[grant.ent := Entitlement(db.orders[o].user, "standard_30d", grant.key.id,
                                                 [OzonRead, OzonWriteMock, DraftImport1688Mock, OpenClawBridge,
                                                  LocalApproval],
                                                 grant.at + 30 * 86400, None)])
  }

  function Recorded(db: Db, event: EventKey, row: PaymentEvent): Db {
    db.(events := if event in db.events then db.events else db.events[event := row])
  }

  /** What a Stripe delivery comes to. */
  function StripeOutcome(db: Db, d: StripeDelivery): Outcome<bool> {
    var event := EventKey(Stripe, d.event);
    var raw := if d.session.metadataOrder.Some? then d.session.metadataOrder else d.session.clientReference;
    if (d.kind != "checkout.session.completed" && d.kind != "checkout.session.async_payment_succeeded")
       || d.session.paymentStatus != Some("paid") then
      Outcome(Recorded(db, event, PaymentEvent(d.kind, None)), Ok(false))
    else if raw == None || raw == Some(Unparsable) then Outcome(db, Err(BadRequest))
    else if event in db.events then Outcome(db, Ok(false))
    else
      var o := raw.value.id;
      if o !in db.orders then Outcome(db, Err(Internal))
      else
        var order := db.orders[o];
        if order.provider != Stripe || order.session != Some(d.session.id)
           || d.session.amountTotal != Some(order.amount)
           || d.session.currency == None || AsciiLower(d.session.currency.value) != order.currency then
          Outcome(db, Err(BadRequest))
        else if order.status == Confirmed then
          Outcome(Recorded(db, event, PaymentEvent(d.kind, Some(o))), Ok(false))
        else if Collides(db, d.grant) then Outcome(db, Err(Internal))
        else Outcome(Paid(db, event, d.kind, o, d.session.intent, d.paidAt, d.grant), Ok(true))
  }

  /** What a WeChat Pay delivery comes to, given the order its reference finds, if any. */
  function WechatOutcome(cfg: Config, db: Db, d: WechatDelivery, found: Option<OrderId>): Outcome<bool>
    requires found.Some? ==> found.value in db.orders
  {
    var event, t := EventKey(WechatPay, d.event), d.transaction;
    if d.kind != "TRANSACTION.SUCCESS" || t.tradeState != "SUCCESS" then
      Outcome(Recorded(db, event, PaymentEvent(d.kind, None)), Ok(false))
    else if found.None? then Outcome(db, Err(NotFound))
    else
      var o := found.value;
      var order := db.orders[o];
      if cfg.wechatAppId == None || Trim(cfg.wechatAppId.value) == ""
         || cfg.wechatMchId == None || Trim(cfg.wechatMchId.value) == "" then
        Outcome(db, Err(ServiceUnavailable))
      else if Some(t.appId) != cfg.wechatAppId || Some(t.mchId) != cfg.wechatMchId
              || t.tradeType != Some("NATIVE") || t.total != order.amount
              || AsciiUpper(if t.currency.Some? then t.currency.value else "CNY") != AsciiUpper(order.currency) then
        Outcome(db, Err(BadRequest))
      else if event in db.events then Outcome(db, Ok(false))
      else if order.status == Confirmed then Outcome(Recorded(db, event, PaymentEvent(d.kind, Some(o))), Ok(false))
      else if Collides(db, d.grant) then Outcome(db, Err(Internal))
      else
        var intent := if t.transactionId.Some? then t.transactionId.value else t.outTradeNo;
        var paidAt := if t.successTime.Some? then t.successTime.value else d.receivedAt;
        Outcome(Paid(db, event, d.kind, o, Some(intent), paidAt, d.grant), Ok(true))
  }

  /** Settling a pending order after its event is recorded. */
  lemma SettleExactly(db: Db, event: EventKey, kind: string, o: OrderId, intent: Option<string>, paidAt: Time,
                      grant: Grant)
    requires Inv(db) && event !in db.events && o in db.orders && db.orders[o].status.PendingProvider?
    ensures var recorded := db.(events := db.events[event := PaymentEvent(kind, Some(o))]);
            Settle(recorded, o, db.orders[o], intent, paidAt, grant)
            == if Collides(db, grant) then Err(Internal) else Ok(Paid(db, event, kind, o, intent, paidAt, grant))
  {
    hide OrderHasKey, CodeTaken, KeyHasEntitlement, GrantKey, Collides;
    assert OrderOk(db.users, db.orders[o]);
    NoKeyYet(db, o);
    if grant.key.id !in db.keys {
      NoEntitlementYet(db, grant.key.id);
    }
    hide Inv;
    var recorded := db.(events := db.events[event := PaymentEvent(kind, Some(o))]);
    var confirmed := ConfirmProviderOrder(recorded, o, intent, paidAt).value;
    CollidesAlike(db, confirmed, grant);
    GrantExactly(confirmed, CardKey(Some(o), STANDARD_PLAN, grant.key.code, 30, 1, Available, None, None),
                 db.orders[o].user, grant);
  }

  lemma CollidesAlike(db: Db, db': Db, grant: Grant)
    requires db'.keys == db.keys && db'.ents == db.ents
    ensures Collides(db', grant) <==> Collides(db, grant)
  {
  }

  lemma StripeExactly(db: Db, d: StripeDelivery)
    requires Inv(db)
    ensures StripeWebhook(db, d) == StripeOutcome(db, d)
  {
    hide Settle, Paid, Collides;
    var id := SessionOrderId(d.session);
    if StripePaid(d) && id.Ok? && StripeKey(d) !in db.events && id.value in db.orders {
      assert OrderOk(db.users, db.orders[id.value]);
      if db.orders[id.value].status.PendingProvider? {
        SettleExactly(db, StripeKey(d), d.kind, id.value, d.session.intent, d.paidAt, d.grant);
      }
    }
  }

  lemma WechatExactly(cfg: Config, db: Db, d: WechatDelivery)
    requires Inv(db)
    ensures forall o | o in db.orders && db.orders[o].provider == WechatPay
                       && db.orders[o].reference == d.transaction.outTradeNo ::
              WechatWebhook(cfg, db, d) == WechatOutcome(cfg, db, d, Some(o))
    ensures (forall o | o in db.orders :: db.orders[o].provider == WechatPay ==>
               db.orders[o].reference != d.transaction.outTradeNo) ==>
              WechatWebhook(cfg, db, d) == WechatOutcome(cfg, db, d, None)
  {
    var found := ProviderOrder(db, WechatPay, d.transaction.outTradeNo);
    if WechatPaid(d) && found.Some? {
      WechatBodyExactly(cfg, db, d, found.value);
    }
    hide WechatBody, Inv;
    WechatIgnoredExactly(cfg, db, d, found);
    hide WechatOutcome, Ignore;
    assert found.Some? ==> forall o | o in db.orders && db.orders[o].provider == WechatPay
                                      && db.orders[o].reference == d.transaction.outTradeNo :: o == found.value by {
      OneReference(db);
    }
  }

  lemma OneReference(db: Db)
    requires Inv(db)
    ensures forall o, p | o in db.orders && p in db.orders ::
              db.orders[o].reference == db.orders[p].reference ==> o == p
  {
  }

  /** An unpaid transaction only records its event, and a paid one without an order is refused. */
  lemma WechatIgnoredExactly(cfg: Config, db: Db, d: WechatDelivery, found: Option<OrderId>)
    requires found.Some? ==> found.value in db.orders
    ensures !WechatPaid(d) ==> WechatWebhook(cfg, db, d) == WechatOutcome(cfg, db, d, found)
    ensures WechatPaid(d) ==> WechatOutcome(cfg, db, d, None) == Outcome(db, Err(NotFound))
  {
    hide WechatBody, Paid, Collides;
  }

  /** The checks on a transaction whose reference found the order. */
  lemma TransactionExactly(cfg: Config, t: WechatTransaction, order: Order)
    requires order.provider == WechatPay && order.reference == t.outTradeNo
    ensures CheckTransaction(cfg, t, order) ==
              if cfg.wechatAppId == None || Trim(cfg.wechatAppId.value) == ""
                 || cfg.wechatMchId == None || Trim(cfg.wechatMchId.value) == "" then Err(ServiceUnavailable)
              else if Some(t.appId) != cfg.wechatAppId || Some(t.mchId) != cfg.wechatMchId
                      || t.tradeType != Some("NATIVE") || t.total != order.amount
                      || AsciiUpper(if t.currency.Some? then t.currency.value else "CNY")
                         != AsciiUpper(order.currency) then
                Err(BadRequest)
              else Ok(())
  {
    hide Trim, AsciiUpper;
  }

  lemma WechatBodyExactly(cfg: Config, db: Db, d: WechatDelivery, o: OrderId)
    requires Inv(db) && WechatPaid(d) && o in db.orders && db.orders[o].provider == WechatPay
    requires db.orders[o].reference == d.transaction.outTradeNo
    ensures Commit(db, WechatBody(cfg, db, d, o, db.orders[o])) == WechatOutcome(cfg, db, d, Some(o))
  {
    hide Inv, Settle, Paid, Collides, CheckTransaction, Trim, AsciiUpper;
    TransactionExactly(cfg, d.transaction, db.orders[o]);
    PendingOrConfirmed(db, o);
    if WechatKey(d) !in db.events && db.orders[o].status.PendingProvider? {
      var paidAt := d.transaction.successTime.GetOr(d.receivedAt);
      var intent := d.transaction.transactionId.GetOr(d.transaction.outTradeNo);
      SettleExactly(db, WechatKey(d), d.kind, o, Some(intent), paidAt, d.grant);
    }
  }

  lemma PendingOrConfirmed(db: Db, o: OrderId)
    requires Inv(db) && o in db.orders && !db.orders[o].provider.Manual?
    ensures db.orders[o].status.PendingProvider? || db.orders[o].status.Confirmed?
  {
    assert OrderOk(db.users, db.orders[o]);
  }

  // --- Orders ---

  /** Placing an order. Under WeChat Pay no order passes the schema's currency check. */
  function PlaceOutcome(cfg: Config, db: Db, user: UserId, requested: Option<string>, o: OrderId, reference: string)
    : Outcome<Order>
  {
    var currency := Trim(cfg.stripeCurrency);
    if requested.Some? && Trim(requested.value) != "" && Trim(requested.value) != "standard_30d" then
      Outcome(db, Err(BadRequest))
    else if cfg.payment.UseAlipay? || cfg.payment.UseUnknown? then Outcome(db, Err(ServiceUnavailable))
    else if cfg.payment.UseWechatPay? || cfg.stripeAmount < 0
            || |currency| != 3 || (exists c | c in currency :: !('a' <= c <= 'z' || 'A' <= c <= 'Z'))
            || o in db.orders || (exists p | p in db.orders :: db.orders[p].reference == reference)
            || user !in db.users then
      Outcome(db, Err(Internal))
    else
      var manual := cfg.payment.UseManual?;
      var row := Order(user, "standard_30d", if manual then PendingManual else PendingProvider,
                       if manual then Manual else Stripe, reference, cfg.stripeAmount, AsciiLower(currency),
                       None, None, None, None);
      Outcome(db.(orders := db.orders[o := row]), Ok(row))
  }

  lemma CurrencyLetters(s: string)
    ensures CurrencyCheck(AsciiLower(s)) <==> |s| == 3 && forall c | c in s :: 'a' <= c <= 'z' || 'A' <= c <= 'Z'
  {
    var lower := AsciiLower(s);
    assert forall i | 0 <= i < |s| :: s[i] in s && lower[i] in lower && lower[i] == LowerChar(s[i]);
    assert forall c | c in lower :: exists i | 0 <= i < |s| :: c == LowerChar(s[i]);
  }

  lemma PlaceExactly(cfg: Config, db: Db, user: UserId, requested: Option<string>, o: OrderId, reference: string)
    ensures CreateOrder(cfg, db, user, requested, o, reference) == PlaceOutcome(cfg, db, user, requested, o, reference)
  {
    OrderEntry.UpperFailsCheck(Trim(cfg.wechatCurrency));
    CurrencyLetters(Trim(cfg.stripeCurrency));
    hide CurrencyCheck, AsciiUpper, AsciiLower, Trim;
  }

  /** Attaching a checkout session to an order. */
  function AttachOutcome(db: Db, o: OrderId, session: string): Outcome<()> {
    if o !in db.orders || db.orders[o].status != PendingProvider then Outcome(db, Err(Conflict))
    else if exists p | p in db.orders ::
              p != o && (db.orders[p].reference == session || db.orders[p].session == Some(session)) then
      Outcome(db, Err(Internal))
    else
      Outcome(db.(orders := db.orders[o := db.orders[o].(session := Some(session), reference := session)]), Ok(()))
  }

  lemma AttachExactly(db: Db, o: OrderId, session: string)
    ensures Commit(db, AttachBody(db, o, session)) == AttachOutcome(db, o, session)
  {
    var others := db.orders - {o};
    assert forall p | p in db.orders && p != o :: p in others && others[p] == db.orders[p];
    assert forall p | p in others :: p in db.orders && p != o && others[p] == db.orders[p];
  }

  /** Manually confirming an order. */
  function ConfirmOutcome(db: Db, o: OrderId, key: NewKey, at: Time): Outcome<Code> {
    if o !in db.orders then Outcome(db, Err(NotFound))
    else if db.orders[o].status != PendingManual then Outcome(db, Err(Conflict))
    else if key.id in db.keys || exists k | k in db.keys :: db.keys[k].code == key.code then Outcome(db, Err(Internal))
    else
      Outcome(db.(orders := db.orders[o := db.orders[o].(status := Confirmed, paidAt := Some(at),
                                                         confirmedAt := Some(at))],
                  keys := db.keys[key.id := CardKey(Some(o), "standard_30d", key.code, 30, 1, Available, None, None)]),
              Ok(key.code))
  }

  lemma ConfirmExactly(db: Db, o: OrderId, key: NewKey, at: Time)
    requires Inv(db)
    ensures ConfirmOrder(db, o, key, at) == ConfirmOutcome(db, o, key, at)
  {
    hide CodeTaken, OrderHasKey;
    CodeTakenIs(db.keys, key.code);
    if o in db.orders && db.orders[o].status.PendingManual? {
      assert OrderOk(db.users, db.orders[o]);
      NoKeyYet(db, o);
    }
  }

  /** Confirming by payment reference confirms the order carrying it, if any does. */
  lemma ConfirmByReferenceExactly(db: Db, reference: string, key: NewKey, at: Time)
    requires Inv(db)
    ensures forall o | o in db.orders && db.orders[o].reference == reference ::
              ConfirmByReference(db, reference, key, at) == ConfirmOutcome(db, o, key, at)
    ensures (forall o | o in db.orders :: db.orders[o].reference != reference) ==>
              ConfirmByReference(db, reference, key, at) == Outcome(db, Err(NotFound))
  {
    var found := OrderByReference(db, reference);
    if found.Some? {
      ConfirmExactly(db, found.value, key, at);
    }
    hide ConfirmOrder, ConfirmOutcome;
  }

  // --- Card keys ---

  /** Redeeming the key with a given code, found or not. */
  function RedeemOutcome(db: Db, user: UserId, found: Option<KeyId>, e: EntId, at: Time): Outcome<Entitlement>
    requires found.Some? ==> found.value in db.keys
  {
    if found.None? then Outcome(db, Err(NotFound))
    else
      var k := found.value;
      var key := db.keys[k];
      if key.status != Available then Outcome(db, Err(Conflict))
      else if user !in db.users || e in db.ents then Outcome(db, Err(Internal))
      else
        var row := Entitlement(user, key.plan, k,
                               [OzonRead, OzonWriteMock, DraftImport1688Mock, OpenClawBridge, LocalApproval],
                               at + key.days * 86400, None);
        Outcome(db.(keys := db.keys[k := key.(status := Redeemed, redeemedBy := Some(user), redeemedAt := Some(at))],
                    ents := db.ents[e := row]), Ok(row))
  }

  lemma RedeemExactly(db: Db, user: UserId, code: Code, e: EntId, at: Time)
    requires Inv(db)
    ensures forall k | k in db.keys && db.keys[k].code == code ::
              Redeem(db, user, code, e, at) == RedeemOutcome(db, user, Some(k), e, at)
    ensures (forall k | k in db.keys :: db.keys[k].code != code) ==>
              Redeem(db, user, code, e, at) == RedeemOutcome(db, user, None, e, at)
  {
    var found := KeyByCode(db, code);
    if found.Some? && db.keys[found.value].status.Available? {
      assert KeyOk(db.keys[found.value]);
      NoEntitlementYet(db, found.value);
    }
    hide KeyHasEntitlement;
  }

  /** The row a request asks each of its keys to be. */
  function AskedFor(request: KeyRequest, code: Code): CardKey {
    CardKey(None, if request.plan.Some? then request.plan.value else "standard_30d", code,
            if request.days.Some? then request.days.value else 30,
            if request.devices.Some? then request.devices.value else 1, Available, None, None)
  }

  /** The first `n` ids and codes the request draws are new and distinct. */
  ghost predicate DrawsApart(db: Db, request: KeyRequest, n: nat) {
    && (forall i: nat | i < n :: DrawsNew(db, request, i))
    && (forall i: nat, j: nat | i < j < n :: DrawsDiffer(request, i, j))
  }

  ghost predicate DrawsNew(db: Db, request: KeyRequest, i: nat) {
    request.draw(i).id !in db.keys && forall k | k in db.keys :: db.keys[k].code != request.draw(i).code
  }

  predicate DrawsDiffer(request: KeyRequest, i: nat, j: nat) {
    request.draw(i).id != request.draw(j).id && request.draw(i).code != request.draw(j).code
  }

  /** The old keys and the first `n` asked for, and no others. */
  ghost predicate KeysAfter(db: Db, request: KeyRequest, n: nat, keys: map<KeyId, CardKey>) {
    && (forall k | k in keys :: k in db.keys || exists i: nat :: i < n && DrawnAs(request, i, k))
    && (forall k | k in db.keys :: k in keys && keys[k] == db.keys[k])
    && (forall i: nat | i < n :: StandsAsAsked(keys, request, i))
  }

  predicate DrawnAs(request: KeyRequest, i: nat, k: KeyId) {
    request.draw(i).id == k
  }

  lemma NextDrawFits(db: Db, request: KeyRequest, n: nat, keys: map<KeyId, CardKey>)
    requires KeysAfter(db, request, n, keys)
    ensures request.draw(n).id !in keys && !CodeTaken(keys, request.draw(n).code) <==>
              DrawsNew(db, request, n) && forall i: nat | i < n :: DrawsDiffer(request, i, n)
  {
    var key := request.draw(n);
    if key.id !in keys && !CodeTaken(keys, key.code) {
      forall i: nat | i < n ensures DrawsDiffer(request, i, n) {
        assert StandsAsAsked(keys, request, i);
      }
    } else {
      var k :| k in keys && (k == key.id || keys[k].code == key.code);
      if k in db.keys {
        assert !DrawsNew(db, request, n);
      } else {
        var i: nat :| i < n && DrawnAs(request, i, k);
        assert StandsAsAsked(keys, request, i);
        assert !DrawsDiffer(request, i, n);
      }
    }
  }

  lemma KeysGrow(db: Db, request: KeyRequest, n: nat, keys: map<KeyId, CardKey>)
    requires KeysAfter(db, request, n, keys) && request.draw(n).id !in keys
    ensures KeysAfter(db, request, n + 1, keys[request.draw(n).id := AskedFor(request, request.draw(n).code)])
  {
    var grown := keys[request.draw(n).id := AskedFor(request, request.draw(n).code)];
    hide AskedFor;
    assert DrawnAs(request, n, request.draw(n).id);
    forall k | k in grown ensures k in db.keys || exists i: nat :: i < n + 1 && DrawnAs(request, i, k) {
      if k in keys && k !in db.keys {
        var i: nat :| i < n && DrawnAs(request, i, k);
        assert i < n + 1 && DrawnAs(request, i, k);
      }
    }
    forall i: nat | i < n + 1 ensures StandsAsAsked(grown, request, i) {
      assert i < n ==> StandsAsAsked(keys, request, i);
    }
  }

  lemma ApartGrows(db: Db, request: KeyRequest, n: nat)
    ensures DrawsApart(db, request, n + 1) <==>
              && DrawsApart(db, request, n) && DrawsNew(db, request, n)
              && forall i: nat | i < n :: DrawsDiffer(request, i, n)
  {
    hide DrawsNew, DrawsDiffer;
  }

  lemma {:induction false} InsertsExactly(db: Db, request: KeyRequest, n: nat)
    requires request.days != Some(0) && request.devices != Some(0)
    ensures InsertFreeKeys(db, request, n).Ok? <==> DrawsApart(db, request, n)
    ensures InsertFreeKeys(db, request, n).Err? ==> InsertFreeKeys(db, request, n).error == Internal
    ensures InsertFreeKeys(db, request, n).Ok? ==>
              var after := InsertFreeKeys(db, request, n).value;
              after == db.(keys := after.keys) && KeysAfter(db, request, n, after.keys)
  {
    hide KeysAfter, DrawsApart, DrawsNew, DrawsDiffer, CodeTaken;
    if n > 0 {
      var m := n - 1;
      InsertsExactly(db, request, m);
      ApartGrows(db, request, m);
      if InsertFreeKeys(db, request, m).Ok? {
        var before := InsertFreeKeys(db, request, m).value;
        NextDrawFits(db, request, m, before.keys);
        if request.draw(m).id !in before.keys {
          KeysGrow(db, request, m, before.keys);
        }
      }
    } else {
      NothingDrawn(db, request);
    }
  }

  lemma NothingDrawn(db: Db, request: KeyRequest)
    ensures KeysAfter(db, request, 0, db.keys) && DrawsApart(db, request, 0)
  {
  }

  /** A request for keys fails on a zero duration or device limit, or internally when the ids and
      codes it draws are not all new and distinct, and then changes nothing. Otherwise it adds as
      many keys as asked for, at least one and at most fifty, each as asked for, and answers with
      their codes in order. */
  lemma CreateKeysExactly(db: Db, request: KeyRequest)
    ensures var n := if request.count == 0 then 1 else if request.count > 50 then 50 else request.count;
            var out := Commit(db, CreateKeysBody(db, request));
            if request.days == Some(0) || request.devices == Some(0) then out == Outcome(db, Err(BadRequest))
            else if !DrawsApart(db, request, n) then out == Outcome(db, Err(Internal))
            else
              && out.db == db.(keys := out.db.keys) && KeysAfter(db, request, n, out.db.keys)
              && out.result.Ok? && |out.result.value| == n
              && forall i: nat | i < n :: out.result.value[i] == request.draw(i).code
  {
    hide KeysAfter, DrawsApart, InsertFreeKeys;
    if request.days != Some(0) && request.devices != Some(0) {
      InsertsExactly(db, request, KeyCount(request.count));
    }
  }

  predicate StandsAsAsked(keys: map<KeyId, CardKey>, request: KeyRequest, i: nat) {
    request.draw(i).id in keys && keys[request.draw(i).id] == AskedFor(request, request.draw(i).code)
  }

  // --- Entitlements ---

  /** Revoking an entitlement, as a transaction. */
  lemma RevokeExactly(cfg: Config, db: Db, e: EntId, at: Time)
    ensures Step(cfg, db, Revoke(e, at)) ==
              if e in db.ents then Outcome(db.(ents := db.ents[e := db.ents[e].(revokedAt := Some(at))]), Ok(Done))
              else Outcome(db, Err(NotFound))
  {
  }

  /** After a revocation that found its entitlement, no later request of the run is granted a
      lease on it. */
  lemma RevokedForGood(cfg: Config, db: Db, txs: seq<Tx>, i: nat, j: nat, e: EntId, at: Time, lease: Lease)
    requires PossibleRun(cfg, db, txs) && i < j < |txs| && txs[i] == Revoke(e, at)
    requires e in StateAt(cfg, db, txs, i).ents
    requires Grants(cfg, StateAt(cfg, db, txs, j), txs[j], lease)
    ensures lease.ent != e
    decreases i
  {
    hide Grants;
    if i == 0 {
      RevokeExactly(cfg, db, e, at);
      hide Step;
      RevokedGrantsNothing(cfg, Step(cfg, db, txs[0]).db, txs[1..], j - 1, e, lease);
    } else {
      hide Step;
      RevokedForGood(cfg, Step(cfg, db, txs[0]).db, txs[1..], i - 1, j - 1, e, at, lease);
    }
  }

  /** The user already has what test access would give. */
  ghost predicate HasAll(db: Db, user: UserId, devices: u8, now: Time) {
    exists e | e in db.ents ::
      var ent := db.ents[e];
      && ent.user == user && ent.plan == "standard_30d" && ent.revokedAt == None && ent.expiresAt > now
      && ent.source in db.keys && db.keys[ent.source].maxDevices >= devices
  }

  /** Granting test access. */
  ghost function TestAccessOutcome(cfg: Config, db: Db, user: UserId, allowlisted: bool, now: Time, grant: Grant)
    : Outcome<()>
  {
    if !cfg.testAccess then Outcome(db, Ok(()))
    else if user !in db.users then Outcome(db, Err(Unauthorized))
    else if !allowlisted || HasAll(db, user, cfg.testDevices, now) then Outcome(db, Ok(()))
    else if cfg.testDays == 0 || cfg.testDevices == 0 || Collides(db, grant) then Outcome(db, Err(Internal))
    else
      Outcome(db.(keys := db.keys[grant.key.id := CardKey(None, "standard_30d", grant.key.code, cfg.testDays,
                                                          cfg.testDevices, Redeemed, Some(user), Some(grant.at))],
                  ents := db.ents[grant.ent := Entitlement(user, "standard_30d", grant.key.id,
                                                           [OzonRead, OzonWriteMock, DraftImport1688Mock,
                                                            OpenClawBridge, LocalApproval],
                                                           grant.at + cfg.testDays * 86400, None)]), Ok(()))
  }

  lemma TestAccessExactly(cfg: Config, db: Db, user: UserId, allowlisted: bool, now: Time, grant: Grant)
    requires Inv(db)
    ensures GrantTestAccess(cfg, db, user, allowlisted, now, grant)
         == TestAccessOutcome(cfg, db, user, allowlisted, now, grant)
  {
    assert HasFullAccess(db, user, cfg.testDevices, now) <==> HasAll(db, user, cfg.testDevices, now) by {
      assert forall e | e in db.ents :: EntitlementOk(db.keys, db.ents[e]);
    }
    hide HasFullAccess, HasAll, KeyHasEntitlement;
    if grant.key.id !in db.keys {
      NoEntitlementYet(db, grant.key.id);
    }
    hide Inv;
    if user in db.users && cfg.testDays > 0 && cfg.testDevices > 0 {
      GrantExactly(db, TestKey(cfg, grant.key.code), user, grant);
    }
  }

  // --- Devices and leases ---

  /** The entitlement is the user's, not revoked, and still running at `now`. */
  predicate Runs(db: Db, user: UserId, now: Time, e: EntId) {
    && e in db.ents && db.ents[e].user == user && db.ents[e].revokedAt == None && db.ents[e].expiresAt > now
    && db.ents[e].source in db.keys
  }

  /** Some such entitlement allows `n` devices. */
  ghost predicate RoomFor(db: Db, user: UserId, now: Time, n: nat) {
    exists e :: Runs(db, user, now, e) && db.keys[db.ents[e].source].maxDevices >= n
  }

  lemma RoomIsAllowed(db: Db, user: UserId, now: Time, n: nat)
    ensures RoomFor(db, user, now, n) <==> Allowed(db, user, now, n)
    ensures RoomFor(db, user, now, 0) <==> AnyUsable(db, user, now)
  {
    assert forall e :: Runs(db, user, now, e) <==> Usable(db, user, now, e);
  }

  /** Activating a device. */
  ghost function ActivateOutcome(db: Db, user: UserId, name: string, fingerprint: string, queryAt: Time, now: Time)
    : Outcome<Device>
  {
    var key := DeviceKey(user, fingerprint);
    var active := set k | k in db.devices && k.user == user && db.devices[k].status == Active;
    if Trim(name) == "" || Trim(fingerprint) == "" then Outcome(db, Err(BadRequest))
    else if user !in db.users then Outcome(db, Err(Unauthorized))
    else if !RoomFor(db, user, queryAt, if key in active then 0 else |active| + 1) then Outcome(db, Err(Forbidden))
    else
      var row := if key in db.devices then db.devices[key].(name := name, status := Active, lastSeen := Some(now))
                 else Device(Derived(user, fingerprint), name, Active, now, Some(now));
      Outcome(db.(devices := db.devices[key := row]), Ok(row))
  }

  lemma ActivateExactly(db: Db, user: UserId, name: string, fingerprint: string, limit: Option<EntId>, queryAt: Time,
                        now: Time)
    requires Inv(db) && DevicesDerived(db.devices) && QueryAnswer(db, user, queryAt, limit)
    ensures Activate(db, user, name, fingerprint, limit, now)
         == ActivateOutcome(db, user, name, fingerprint, queryAt, now)
  {
    var key := DeviceKey(user, fingerprint);
    var active := set k | k in db.devices && k.user == user && db.devices[k].status == Active;
    assert active == ActiveDevices(db.devices, user);
    var n := if key in active then 0 else |active| + 1;
    RoomIsAllowed(db, user, queryAt, n);
    BestDecides(db, user, queryAt, limit, n);
    hide Inv, Allowed, RoomFor, AnyUsable, DeviceIdTaken;
    if user in db.users {
      DerivedUpserts(db, user, fingerprint, name, now);
    }
  }

  /** The entitlement a lease is issued on: of those running, one allowing the most devices, and
      of those the one running longest. */
  ghost predicate Chosen(db: Db, user: UserId, now: Time, e: EntId) {
    && Runs(db, user, now, e)
    && forall x | x in db.ents && Runs(db, user, now, x) ::
         var most, other := db.keys[db.ents[e].source].maxDevices, db.keys[db.ents[x].source].maxDevices;
         other < most || (other == most && db.ents[x].expiresAt <= db.ents[e].expiresAt)
  }

  lemma BestIsChosen(db: Db, user: UserId, now: Time, e: EntId)
    requires Inv(db)
    ensures IsBest(db, user, now, e) <==> Chosen(db, user, now, e)
  {
    assert forall x | x in db.ents :: EntitlementOk(db.keys, db.ents[x]);
    assert forall x :: Runs(db, user, now, x) <==> Usable(db, user, now, x);
  }

  /** Issuing a lease for the device row `key`, if any is the user's active one with that id, on
      entitlement `e`, if any is chosen. */
  ghost function LeaseOutcome(cfg: Config, db: Db, r: LeaseRequest, key: Option<DeviceKey>, e: Option<EntId>)
    : Outcome<Lease>
    requires key.Some? ==> key.value in db.devices
    requires e.Some? ==> e.value in db.ents
  {
    var active := set k | k in db.devices && k.user == r.user && db.devices[k].status == Active;
    if key.None? then Outcome(db, Err(NotFound))
    else if e.None? || !RoomFor(db, r.user, r.limitAt, |active|) then Outcome(db, Err(Forbidden))
    else
      var ent := db.ents[e.value];
      var tomorrow := r.issueAt + 24 * 3600;
      var lease := Lease(r.leaseId, r.user, r.device, e.value, ent.features, r.issueAt,
                         if tomorrow <= ent.expiresAt then tomorrow else ent.expiresAt);
      Outcome(db.(devices := db.devices[key.value := db.devices[key.value].(lastSeen := Some(r.touchAt))]),
              if cfg.signingKey then Ok(lease) else Err(ServiceUnavailable))
  }

  predicate IsTheDevice(db: Db, r: LeaseRequest, key: DeviceKey) {
    key in db.devices && key.user == r.user && db.devices[key].id == r.device && db.devices[key].status == Active
  }

  lemma LeaseExactly(cfg: Config, db: Db, r: LeaseRequest)
    requires Inv(db) && Possible(db, RequestLease(r))
    ensures r.pick.Some? ==> Chosen(db, r.user, r.pickAt, r.pick.value)
    ensures r.pick.None? ==> forall e :: !Runs(db, r.user, r.pickAt, e)
    ensures forall key :: IsTheDevice(db, r, key) ==>
              IssueLease(cfg, db, r) == LeaseOutcome(cfg, db, r, Some(key), r.pick)
    ensures (forall key :: !IsTheDevice(db, r, key)) ==>
              IssueLease(cfg, db, r) == LeaseOutcome(cfg, db, r, None, r.pick)
  {
    var active := set k | k in db.devices && k.user == r.user && db.devices[k].status == Active;
    assert active == ActiveDevices(db.devices, r.user);
    RoomIsAllowed(db, r.user, r.limitAt, |active|);
    RoomIsAllowed(db, r.user, r.pickAt, 0);
    BestDecides(db, r.user, r.limitAt, r.limit, |active|);
    if r.pick.Some? {
      BestIsChosen(db, r.user, r.pickAt, r.pick.value);
    } else {
      assert forall e :: Runs(db, r.user, r.pickAt, e) ==> Usable(db, r.user, r.pickAt, e);
    }
    hide Allowed, RoomFor, AnyUsable, ActiveDevices, IsBest, Chosen;
    var found := ActiveDevice(db, r.user, r.device);
    if found.Some? {
      assert IsTheDevice(db, r, found.value);
    }
  }

  // --- All transactions ---

  /** The reply of a transaction, given its value. */
  predicate Replies<T(==)>(step: Outcome<Reply>, out: Outcome<T>, f: T -> Reply) {
    step.db == out.db && step.result == if out.result.Ok? then Ok(f(out.result.value)) else Err(out.result.error)
  }

  /** Every transaction of a run does what is written above for it. */
  lemma StepExactly(cfg: Config, db: Db, tx: Tx)
    requires Inv(db) && DevicesDerived(db.devices) && Possible(db, tx)
    ensures match tx
            case AddUser(u) => Step(cfg, db, tx) == Outcome(db.(users := db.users + {u}), Ok(Done))
            case PlaceOrder(u, plan, o, reference) =>
              Replies(Step(cfg, db, tx), PlaceOutcome(cfg, db, u, plan, o, reference), r => OrderPlaced(r))
            case AttachSession(o, session) => Replies(Step(cfg, db, tx), AttachOutcome(db, o, session), _ => Done)
            case ConfirmById(o, key, at) =>
              Replies(Step(cfg, db, tx), ConfirmOutcome(db, o, key, at), c => KeyIssued(c))
            case ConfirmByRef(reference, key, at) =>
              forall o | o in db.orders && db.orders[o].reference == reference ::
                Replies(Step(cfg, db, tx), ConfirmOutcome(db, o, key, at), c => KeyIssued(c))
            case StripeEvent(d) => Replies(Step(cfg, db, tx), StripeOutcome(db, d), b => Processed(b))
            case WechatEvent(d) =>
              forall o | o in db.orders && db.orders[o].provider == WechatPay
                         && db.orders[o].reference == d.transaction.outTradeNo ::
                Replies(Step(cfg, db, tx), WechatOutcome(cfg, db, d, Some(o)), b => Processed(b))
            case CreateKeys(request) =>
              Replies(Step(cfg, db, tx), Commit(db, CreateKeysBody(db, request)), cs => KeysIssued(cs))
            case RedeemCode(u, code, e, at) =>
              forall k | k in db.keys && db.keys[k].code == code ::
                Replies(Step(cfg, db, tx), RedeemOutcome(db, u, Some(k), e, at), r => Granted(r))
            case EnsureTestAccess(u, listed, at, grant) =>
              Replies(Step(cfg, db, tx), TestAccessOutcome(cfg, db, u, listed, at, grant), _ => Done)
            case ActivateDevice(u, name, fp, queryAt, _, at) =>
              Replies(Step(cfg, db, tx), ActivateOutcome(db, u, name, fp, queryAt, at), d => DeviceReady(d))
            case RequestLease(r) =>
              forall key | IsTheDevice(db, r, key) ::
                Replies(Step(cfg, db, tx), LeaseOutcome(cfg, db, r, Some(key), r.pick), l => LeaseGranted(l))
            case Revoke(e, at) =>
              Step(cfg, db, tx) ==
                if e in db.ents then Outcome(db.(ents := db.ents[e := db.ents[e].(revokedAt := Some(at))]), Ok(Done))
                else Outcome(db, Err(NotFound))
            case Dropped => Step(cfg, db, tx) == Outcome(db, Err(Internal))
  {
    hide Inv, CreateOrder, PlaceOutcome, AttachOutcome, AttachBody, ConfirmOrder, ConfirmByReference, ConfirmOutcome,
      StripeWebhook, StripeOutcome, WechatWebhook, WechatOutcome, Redeem, RedeemOutcome, GrantTestAccess,
      TestAccessOutcome, Activate, ActivateOutcome, IssueLease, LeaseOutcome, CreateKeysBody, DevicesDerived;
    match tx
    case PlaceOrder(u, plan, o, reference) => PlaceExactly(cfg, db, u, plan, o, reference);
    case AttachSession(o, session) => AttachExactly(db, o, session);
    case ConfirmById(o, key, at) => ConfirmExactly(db, o, key, at);
    case ConfirmByRef(reference, key, at) => ConfirmByReferenceExactly(db, reference, key, at);
    case StripeEvent(d) => StripeExactly(db, d);
    case WechatEvent(d) => WechatExactly(cfg, db, d);
    case RedeemCode(u, code, e, at) => RedeemExactly(db, u, code, e, at);
    case EnsureTestAccess(u, listed, at, grant) => TestAccessExactly(cfg, db, u, listed, at, grant);
    case ActivateDevice(u, name, fp, queryAt, limit, at) => ActivateExactly(db, u, name, fp, limit, queryAt, at);
    case RequestLease(r) => LeaseExactly(cfg, db, r);
    case _ =>
  }
}
