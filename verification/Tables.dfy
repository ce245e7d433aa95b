/** The licensing database: one map per table, the constraints the migrations declare, and
    every SQL statement of the cloud API as a function from a database to a new one. */
module Tables {
  import opened Wrappers
  import opened Text

  type UserId = int
  type OrderId = int
  type KeyId = int
  type EntId = int
  type Time = int
  type Code = string
  type u8 = n: int | 0 <= n < 0x100
  type u16 = n: int | 0 <= n < 0x1_0000

  const DAY: int := 86400
  const STANDARD_PLAN: string := "standard_30d"

  datatype OrderStatus = PendingManual | PendingProvider | Confirmed | Cancelled
  datatype Provider = Manual | Stripe | Alipay | WechatPay
  datatype KeyStatus = Available | Redeemed | Withdrawn
  datatype DeviceStatus = Active | Retired
  datatype Feature = OzonRead | OzonWriteMock | DraftImport1688Mock | OpenClawBridge | LocalApproval

  const DEFAULT_FEATURES: seq<Feature> :=
    [OzonRead, OzonWriteMock, DraftImport1688Mock, OpenClawBridge, LocalApproval]

  datatype Order = Order(
    user: UserId, plan: string, status: OrderStatus, provider: Provider, reference: string,
    amount: int, currency: string, session: Option<string>, intent: Option<string>,
    paidAt: Option<Time>, confirmedAt: Option<Time>)

  /** A card key. The code stands for both its Argon2 hash and its SHA-256 fingerprint, which
      are treated as injective. */
  datatype CardKey = CardKey(
    order: Option<OrderId>, plan: string, code: Code, days: u16, maxDevices: u8,
    status: KeyStatus, redeemedBy: Option<UserId>, redeemedAt: Option<Time>)

  datatype Entitlement = Entitlement(
    user: UserId, plan: string, source: KeyId, features: seq<Feature>,
    expiresAt: Time, revokedAt: Option<Time>)

  /** `Derived` is the UUIDv5 of user and fingerprint, taken as injective; `Legacy` is a random
      id such as rows carried before ids were derived. */
  datatype DeviceId = Derived(user: UserId, fingerprint: string) | Legacy(n: int)

  /** Keyed by user and fingerprint hash, the hash being represented by the fingerprint. */
  datatype DeviceKey = DeviceKey(user: UserId, fingerprint: string)
  datatype Device = Device(
    id: DeviceId, name: string, status: DeviceStatus, activatedAt: Time, lastSeen: Option<Time>)

  datatype EventKey = EventKey(provider: Provider, id: string)
  datatype PaymentEvent = PaymentEvent(kind: string, order: Option<OrderId>)

  datatype Db = Db(
    users: set<UserId>,
    orders: map<OrderId, Order>,
    events: map<EventKey, PaymentEvent>,
    keys: map<KeyId, CardKey>,
    ents: map<EntId, Entitlement>,
    devices: map<DeviceKey, Device>)

  const EMPTY: Db := Db({}, map[], map[], map[], map[], map[])

  /** `^[a-z]{3}$`, the pattern of `orders_currency_check`. */
  predicate CurrencyCheck(currency: string) {
    |currency| == 3 && forall c | c in currency :: 'a' <= c <= 'z'
  }

  predicate ReferenceTaken(orders: map<OrderId, Order>, reference: string) {
    exists o | o in orders :: orders[o].reference == reference
  }

  predicate SessionTaken(orders: map<OrderId, Order>, session: string) {
    exists o | o in orders :: orders[o].session == Some(session)
  }

  predicate CodeTaken(keys: map<KeyId, CardKey>, code: Code) {
    exists k | k in keys :: keys[k].code == code
  }

  predicate OrderHasKey(keys: map<KeyId, CardKey>, o: OrderId) {
    exists k | k in keys :: keys[k].order == Some(o)
  }

  predicate KeyHasEntitlement(ents: map<EntId, Entitlement>, k: KeyId) {
    exists e | e in ents :: ents[e].source == k
  }

  function InsertOrder(db: Db, o: OrderId, row: Order): Result<Db> {
    if row.amount < 0 || !CurrencyCheck(row.currency) || o in db.orders
       || ReferenceTaken(db.orders, row.reference) || row.user !in db.users
    then Err(Internal)
    else Ok(db.(orders := db.orders[o := row]))
  }

  function AttachCheckoutSession(db: Db, o: OrderId, session: string): Result<Db> {
    if o !in db.orders || !db.orders[o].status.PendingProvider? then Err(Conflict)
    else
      var others := db.orders - {o};
      if ReferenceTaken(others, session) || SessionTaken(others, session) then Err(Internal)
      else Ok(db.(orders := db.orders[o := db.orders[o].(session := Some(session), reference := session)]))
  }

  function ConfirmPendingOrder(db: Db, o: OrderId, at: Time): Result<Db> {
    if o !in db.orders then Err(NotFound)
    else if !db.orders[o].status.PendingManual? then Err(Conflict)
    else Ok(db.(orders := db.orders[o := db.orders[o].(
                  status := Confirmed, paidAt := Some(at), confirmedAt := Some(at))]))
  }

  function ConfirmProviderOrder(db: Db, o: OrderId, intent: Option<string>, paidAt: Time): Result<Db> {
    if o !in db.orders || !db.orders[o].status.PendingProvider? then Err(Conflict)
    else Ok(db.(orders := db.orders[o := db.orders[o].(
                  status := Confirmed, intent := intent,
                  paidAt := Some(paidAt), confirmedAt := Some(paidAt))]))
  }

  /** `ON CONFLICT (provider, event_id) DO NOTHING`; the flag is `rows_affected() > 0`. A row
      naming an order that does not exist breaks the foreign key. */
  function InsertPaymentEvent(db: Db, key: EventKey, row: PaymentEvent): Result<(Db, bool)> {
    if key in db.events then Ok((db, false))
    else if row.order.Some? && row.order.value !in db.orders then Err(Internal)
    else Ok((db.(events := db.events[key := row]), true))
  }

  /** Only a violation of `uq_card_keys_order_id` is reported as a conflict. */
  function InsertCardKey(db: Db, k: KeyId, row: CardKey): Result<Db> {
    if row.days == 0 || row.maxDevices == 0 || k in db.keys then Err(Internal)
    else if row.order.Some? && OrderHasKey(db.keys, row.order.value) then Err(Conflict)
    else if CodeTaken(db.keys, row.code) then Err(Internal)
    else if row.order.Some? && row.order.value !in db.orders then Err(Internal)
    else Ok(db.(keys := db.keys[k := row]))
  }

  function MarkCardKeyRedeemed(db: Db, k: KeyId, user: UserId, at: Time): Result<Db> {
    if k !in db.keys || !db.keys[k].status.Available? then Err(Conflict)
    else if user !in db.users then Err(Internal)
    else Ok(db.(keys := db.keys[k := db.keys[k].(
                  status := Redeemed, redeemedBy := Some(user), redeemedAt := Some(at))]))
  }

  /** Only a violation of `uq_entitlements_source_card_key` is reported as a conflict. */
  function InsertEntitlement(db: Db, e: EntId, row: Entitlement): Result<Db> {
    if e in db.ents then Err(Internal)
    else if KeyHasEntitlement(db.ents, row.source) then Err(Conflict)
    else if row.source !in db.keys || row.user !in db.users then Err(Internal)
    else Ok(db.(ents := db.ents[e := row]))
  }

  function RevokeEntitlement(db: Db, e: EntId, at: Time): Result<Db> {
    if e !in db.ents then Err(NotFound)
    else Ok(db.(ents := db.ents[e := db.ents[e].(revokedAt := Some(at))]))
  }

  predicate DeviceIdTaken(devices: map<DeviceKey, Device>, key: DeviceKey, id: DeviceId) {
    exists other | other in devices :: other != key && devices[other].id == id
  }

  /** `ON CONFLICT ON CONSTRAINT uq_devices_user_fingerprint DO UPDATE`: an existing row keeps
      its id and activation time. */
  function UpsertDevice(db: Db, key: DeviceKey, row: Device): Result<Db> {
    if key in db.devices then
      Ok(db.(devices := db.devices[key := db.devices[key].(
               name := row.name, status := Active, lastSeen := row.lastSeen)]))
    else if key.user !in db.users || DeviceIdTaken(db.devices, key, row.id) then Err(Internal)
    else Ok(db.(devices := db.devices[key := row]))
  }

  function TouchDevice(db: Db, key: DeviceKey, at: Time): Db {
    if key !in db.devices then db
    else db.(devices := db.devices[key := db.devices[key].(lastSeen := Some(at))])
  }

  /** The devices `COUNT(*) ... status = 'active'` counts for a user. */
  function ActiveDevices(devices: map<DeviceKey, Device>, user: UserId): set<DeviceKey> {
    set key | key in devices && key.user == user && devices[key].status.Active?
  }

  /** The rows both "best entitlement" queries filter: joined with their card key, not revoked
      and not yet expired. */
  predicate Usable(db: Db, user: UserId, now: Time, e: EntId) {
    && e in db.ents && db.ents[e].source in db.keys
    && db.ents[e].user == user && db.ents[e].revokedAt.None? && db.ents[e].expiresAt > now
  }

  /** `ORDER BY cardinality(features) DESC, max_devices DESC, expires_at DESC`. */
  predicate RanksAtLeast(db: Db, a: EntId, b: EntId)
    requires a in db.ents && db.ents[a].source in db.keys
    requires b in db.ents && db.ents[b].source in db.keys
  {
    var fa, fb := |db.ents[a].features|, |db.ents[b].features|;
    var da, d := db.keys[db.ents[a].source].maxDevices, db.keys[db.ents[b].source].maxDevices;
    fa > fb || (fa == fb && (da > d || (da == d && db.ents[a].expiresAt >= db.ents[b].expiresAt)))
  }

  /** `e` is a row `LIMIT 1` may return. */
  predicate IsBest(db: Db, user: UserId, now: Time, e: EntId) {
    Usable(db, user, now, e) && forall x | x in db.ents && Usable(db, user, now, x) :: RanksAtLeast(db, e, x)
  }

  predicate AnyUsable(db: Db, user: UserId, now: Time) {
    exists e | e in db.ents :: Usable(db, user, now, e)
  }
}
