/** Paid deliveries statement by statement. Any number of them run at once under READ COMMITTED:
    each sees committed rows and its own, buffers what it writes until its commit, and waits for
    the row and index locks of the others. Every interleaving amounts to the committed
    transactions run one after another, so what is proved of whole transactions carries over. */
module Interleaving {
  import opened Wrappers
  import opened Tables
  import opened Handlers
  import opened Integrity
  import opened Endurance
  import opened Steps
  import opened Payments
  import opened Replay

  // --- One delivery ---

  datatype Statement = RecordEvent | LockOrder | ConfirmRow | AddKey | RedeemKey | AddEntitlement

  const LENGTH: nat := 6

  type Position = n: nat | n <= LENGTH

  /** The delivery's statements in order. Stripe's handler records the event before it locks the
      order, WeChat's the other way round. */
  function StatementAt(tx: Tx, i: nat): Statement
    requires i < LENGTH
  {
    if i == 0 then (if tx.StripeEvent? then RecordEvent else LockOrder)
    else if i == 1 then (if tx.StripeEvent? then LockOrder else RecordEvent)
    else if i == 2 then ConfirmRow
    else if i == 3 then AddKey
    else if i == 4 then RedeemKey
    else AddEntitlement
  }

  /** Rows a transaction has written and not yet committed. */
  datatype Writes = Writes(events: map<EventKey, PaymentEvent>, orders: map<OrderId, Order>,
                           keys: map<KeyId, CardKey>, ents: map<EntId, Entitlement>)

  const NOTHING: Writes := Writes(map[], map[], map[], map[])

  /** What a transaction with these writes sees, and what its commit makes of the database. */
  function Seen(db: Db, w: Writes): Db {
    db.(events := db.events + w.events, orders := db.orders + w.orders, keys := db.keys + w.keys,
        ents := db.ents + w.ents)
  }

  /** A paid delivery on its way: `order` is the order it names, `done` statements are executed. */
  datatype Local = Local(tx: Tx, order: OrderId, done: Position, writes: Writes)

  predicate IsPaidDelivery(tx: Tx, o: OrderId) {
    match tx
    case StripeEvent(d) => StripePaid(d) && SessionOrderId(d.session) == Ok(o)
    case WechatEvent(d) => WechatPaid(d)
    case _ => false
  }

  function KeyOf(tx: Tx): EventKey {
    DeliveryKey(tx).GetOr(EventKey(Manual, ""))
  }

  function KindOf(tx: Tx): string {
    match tx case StripeEvent(d) => d.kind case WechatEvent(d) => d.kind case _ => ""
  }

  function GrantFor(tx: Tx): Grant {
    GrantOf(tx).GetOr(Grant(NewKey(0, ""), 0, 0))
  }

  function IntentOf(tx: Tx): Option<string> {
    match tx
    case StripeEvent(d) => d.session.intent
    case WechatEvent(d) => Some(d.transaction.transactionId.GetOr(d.transaction.outTradeNo))
    case _ => None
  }

  function PaidAtOf(tx: Tx): Time {
    match tx
    case StripeEvent(d) => d.paidAt
    case WechatEvent(d) => d.transaction.successTime.GetOr(d.receivedAt)
    case _ => 0
  }

  /** The checks made on the locked order row. */
  predicate Fits(cfg: Config, tx: Tx, order: Order) {
    match tx
    case StripeEvent(d) => SessionMatches(d.session, order)
    case WechatEvent(d) => CheckTransaction(cfg, d.transaction, order).Ok?
    case _ => false
  }

  // Each statement reads the committed database together with the writes so far, and adds the
  // row it writes to them.

  function ExecRecord(tx: Tx, o: OrderId, db: Db, w: Writes): Result<Writes> {
    var row := PaymentEvent(KindOf(tx), Some(o));
    var (_, inserted) :- InsertPaymentEvent(Seen(db, w), KeyOf(tx), row);
    var _ :- Need(inserted, Conflict);
    Ok(w.(events := w.events[KeyOf(tx) := row]))
  }

  function ExecLock(cfg: Config, tx: Tx, o: OrderId, db: Db, w: Writes): Result<Writes> {
    var view := Seen(db, w);
    var _ :- Need(o in view.orders && Fits(cfg, tx, view.orders[o]), BadRequest);
    Ok(w)
  }

  function ExecConfirm(tx: Tx, o: OrderId, db: Db, w: Writes): Result<Writes> {
    var after :- ConfirmProviderOrder(Seen(db, w), o, IntentOf(tx), PaidAtOf(tx));
    Ok(w.(orders := w.orders[o := after.orders[o]]))
  }

  /** The order as the confirmation returned it. */
  function PaidOrder(o: OrderId, db: Db, w: Writes): Result<Order> {
    var orders := Seen(db, w).orders;
    if o in orders then Ok(orders[o]) else Err(NotFound)
  }

  /** The key the plan's terms make of an order. */
  function KeyFor(o: OrderId, order: Order, code: Code): (r: Result<CardKey>)
    ensures r.Ok? ==> r.value.order == Some(o) && r.value.code == code && r.value.status.Available?
  {
    var terms :- FulfillmentTerms(order.plan);
    Ok(CardKey(Some(o), order.plan, code, terms.0, terms.1, Available, None, None))
  }

  /** The entitlement that key is redeemed for. */
  function EntitlementFor(order: Order, grant: Grant): (r: Result<Entitlement>)
    ensures r.Ok? ==> r.value.source == grant.key.id && r.value.user == order.user
  {
    var terms :- FulfillmentTerms(order.plan);
    Ok(NewEntitlement(order.user, order.plan, grant.key.id, grant.at, terms.0))
  }

  function ExecAddKey(tx: Tx, o: OrderId, db: Db, w: Writes): Result<Writes> {
    var key := GrantFor(tx).key;
    var order :- PaidOrder(o, db, w);
    var row :- KeyFor(o, order, key.code);
    var _ :- InsertCardKey(Seen(db, w), key.id, row);
    Ok(w.(keys := w.keys[key.id := row]))
  }

  function ExecRedeem(tx: Tx, o: OrderId, db: Db, w: Writes): Result<Writes> {
    var grant := GrantFor(tx);
    var order :- PaidOrder(o, db, w);
    var after :- MarkCardKeyRedeemed(Seen(db, w), grant.key.id, order.user, grant.at);
    Ok(w.(keys := w.keys[grant.key.id := after.keys[grant.key.id]]))
  }

  function ExecEntitle(tx: Tx, o: OrderId, db: Db, w: Writes): Result<Writes> {
    var grant := GrantFor(tx);
    var order :- PaidOrder(o, db, w);
    var row :- EntitlementFor(order, grant);
    var _ :- InsertEntitlement(Seen(db, w), grant.ent, row);
    Ok(w.(ents := w.ents[grant.ent := row]))
  }

  function Exec(cfg: Config, tx: Tx, o: OrderId, db: Db, w: Writes, s: Statement): Result<Writes> {
    match s
    case RecordEvent => ExecRecord(tx, o, db, w)
    case LockOrder => ExecLock(cfg, tx, o, db, w)
    case ConfirmRow => ExecConfirm(tx, o, db, w)
    case AddKey => ExecAddKey(tx, o, db, w)
    case RedeemKey => ExecRedeem(tx, o, db, w)
    case AddEntitlement => ExecEntitle(tx, o, db, w)
  }

  /** The writes of the first `n` statements, all executed against the one database `db`. */
  function Replayed(cfg: Config, tx: Tx, o: OrderId, db: Db, n: Position): Result<Writes>
  {
    if n == 0 then Ok(NOTHING)
    else
      var w :- Replayed(cfg, tx, o, db, n - 1);
      Exec(cfg, tx, o, db, w, StatementAt(tx, n - 1))
  }

  // --- Locks ---

  datatype Lock = EventLock(event: EventKey) | OrderLock(order: OrderId) | KeyLock(key: KeyId) | CodeLock(code: Code)
                | EntLock(ent: EntId)

  /** What a statement locks until the end of its transaction: rows, and unique index entries. */
  function Claims(tx: Tx, o: OrderId, s: Statement): set<Lock> {
    match s
    case RecordEvent => {EventLock(KeyOf(tx))}
    case LockOrder => {OrderLock(o)}
    case AddKey => {KeyLock(GrantFor(tx).key.id), CodeLock(GrantFor(tx).key.code)}
    case AddEntitlement => {EntLock(GrantFor(tx).ent)}
    case _ => {}
  }

  function Held(tx: Tx, o: OrderId, n: Position): set<Lock>
  {
    if n == 0 then {} else Held(tx, o, n - 1) + Claims(tx, o, StatementAt(tx, n - 1))
  }

  /** The two databases agree on everything behind a lock. */
  predicate Untouched(db: Db, db': Db, lock: Lock) {
    match lock
    case EventLock(k) => k in db.events <==> k in db'.events
    case OrderLock(o) =>
      && (o in db.orders <==> o in db'.orders) && (o in db.orders ==> db'.orders[o] == db.orders[o])
      && (OrderHasKey(db.keys, o) <==> OrderHasKey(db'.keys, o))
    case KeyLock(k) =>
      && (k in db.keys <==> k in db'.keys)
      && (KeyHasEntitlement(db.ents, k) <==> KeyHasEntitlement(db'.ents, k))
    case CodeLock(c) => CodeTaken(db.keys, c) <==> CodeTaken(db'.keys, c)
    case EntLock(e) => e in db.ents <==> e in db'.ents
  }

  // --- Many deliveries ---

  /** The committed database and the deliveries on their way, with two histories: the
      transactions in the order of their commits, and the orders answered `processed: true`. */
  datatype World = World(db: Db, active: map<int, Local>, log: seq<Tx>, paid: seq<OrderId>)

  datatype Action =
    | Begin(id: int, tx: Tx, order: OrderId)
    | Advance(id: int)
    | Finish(id: int)
    | Abort(id: int)       // a crash, a lost connection, a deadlock's victim
    | Whole(other: Tx)     // any other transaction, without interruption

  function Holds(t: Local): set<Lock> {
    Held(t.tx, t.order, t.done)
  }

  /** Some other delivery holds one of the locks. */
  predicate Waits(w: World, id: int, locks: set<Lock>) {
    exists other | other in w.active :: other != id && !(Holds(w.active[other]) !! locks)
  }

  function Without(w: World, id: int): World {
    w.(active := w.active - {id})
  }

  /** Commit: the buffered rows become visible at once. */
  function Committed(w: World, id: int, answer: bool): World
    requires id in w.active
  {
    var t := w.active[id];
    World(Seen(w.db, t.writes), w.active - {id}, w.log + [t.tx], if answer then w.paid + [t.order] else w.paid)
  }

  /** The next statement of a delivery, or its early end. */
  function Advanced(cfg: Config, w: World, id: int): World
    requires id in w.active && w.active[id].done < LENGTH
  {
    var t := w.active[id];
    var s := StatementAt(t.tx, t.done);
    var view := Seen(w.db, t.writes);
    if Waits(w, id, Claims(t.tx, t.order, s)) then w
    else if s.RecordEvent? && KeyOf(t.tx) in view.events then Committed(w, id, false)
    else if s.ConfirmRow? && t.order in view.orders && view.orders[t.order].status.Confirmed? then
      Committed(w, id, false)
    else
      var r := Exec(cfg, t.tx, t.order, w.db, t.writes, s);
      if r.Err? then Without(w, id) else w.(active := w.active[id := t.(done := t.done + 1, writes := r.value)])
  }

  ghost predicate RespectsLocks(w: World, db': Db) {
    forall id, lock | id in w.active && lock in Holds(w.active[id]) :: Untouched(w.db, db', lock)
  }

  /** An action that is not enabled leaves the world as it is. */
  ghost function Act(cfg: Config, w: World, a: Action): World {
    match a
    case Begin(id, tx, o) =>
      if id !in w.active && IsPaidDelivery(tx, o) then w.(active := w.active[id := Local(tx, o, 0, NOTHING)]) else w
    case Advance(id) =>
      if id in w.active && w.active[id].done < LENGTH then Advanced(cfg, w, id) else w
    case Finish(id) =>
      if id in w.active && w.active[id].done == LENGTH then Committed(w, id, true) else w
    case Abort(id) => Without(w, id)
    case Whole(tx) =>
      if Possible(w.db, tx) && RespectsLocks(w, Step(cfg, w.db, tx).db) then
        World(Step(cfg, w.db, tx).db, w.active, w.log + [tx],
              if Fulfils(cfg, w.db, tx) && NamedOrder(w.db, tx).Some? then w.paid + [NamedOrder(w.db, tx).value]
              else w.paid)
      else w
  }

  ghost function After(cfg: Config, w: World, actions: seq<Action>): World
    decreases |actions|
  {
    if actions == [] then w else After(cfg, Act(cfg, w, actions[0]), actions[1..])
  }

  // --- What one delivery writes and relies on ---

  lemma {:induction false} HeldGrows(tx: Tx, o: OrderId, m: Position, n: Position)
    requires m <= n
    ensures Held(tx, o, m) <= Held(tx, o, n)
  {
    if m < n {
      HeldGrows(tx, o, m, n - 1);
    }
  }

  /** The locks by position: event and order after two statements, the key after four. */
  lemma HeldBy(tx: Tx, o: OrderId, n: Position)
    ensures HasRecorded(tx, n) ==> EventLock(KeyOf(tx)) in Held(tx, o, n)
    ensures n >= 2 ==> OrderLock(o) in Held(tx, o, n)
    ensures n >= 4 ==> KeyLock(GrantFor(tx).key.id) in Held(tx, o, n)
    ensures n >= 4 ==> CodeLock(GrantFor(tx).key.code) in Held(tx, o, n)
    ensures n == 6 ==> EntLock(GrantFor(tx).ent) in Held(tx, o, n)
  {
    assert n == 1 ==> Held(tx, o, 1) == Held(tx, o, 0) + Claims(tx, o, StatementAt(tx, 0));
    if n >= 2 {
      HeldGrows(tx, o, 2, n);
      assert Held(tx, o, 2) == Held(tx, o, 1) + Claims(tx, o, StatementAt(tx, 1));
      assert Held(tx, o, 1) == Held(tx, o, 0) + Claims(tx, o, StatementAt(tx, 0));
    }
    if n >= 4 {
      HeldGrows(tx, o, 4, n);
      assert StatementAt(tx, 3) == AddKey;
    }
    assert StatementAt(tx, 5) == AddEntitlement;
  }

  predicate HasRecorded(tx: Tx, n: Position) {
    n >= 2 || (n == 1 && StatementAt(tx, 0).RecordEvent?)
  }

  /** At most one row per table is written, at a fixed position, and keys and entitlements are new. */
  ghost predicate Shape(tx: Tx, o: OrderId, db: Db, n: Position, w: Writes) {
    var grant := GrantFor(tx);
    && w.events.Keys == (if HasRecorded(tx, n) then {KeyOf(tx)} else {})
    && (n <= 2 ==> w.orders == map[]) && (n <= 3 ==> w.keys == map[]) && (n <= 5 ==> w.ents == map[])
    && (n >= 2 ==> o in db.orders)
    && (n >= 3 ==> w.orders.Keys == {o})
    && (n >= 4 ==> && w.keys.Keys == {grant.key.id} && grant.key.id !in db.keys
                   && w.keys[grant.key.id].order == Some(o) && w.keys[grant.key.id].code == grant.key.code)
    && (n == 6 ==> w.ents.Keys == {grant.ent} && grant.ent !in db.ents && w.ents[grant.ent].source == grant.key.id)
  }

  lemma NothingShape(tx: Tx, o: OrderId, db: Db)
    ensures Shape(tx, o, db, 0, NOTHING)
  {
  }

  lemma {:induction false} WritesShape(cfg: Config, tx: Tx, o: OrderId, db: Db, n: Position)
    requires Replayed(cfg, tx, o, db, n).Ok?
    ensures Shape(tx, o, db, n, Replayed(cfg, tx, o, db, n).value)
  {
    hide Exec, Shape, StatementAt;
    if n > 0 {
      WritesShape(cfg, tx, o, db, n - 1);
      OneMoreWrite(cfg, tx, o, db, n, Replayed(cfg, tx, o, db, n - 1).value);
    } else {
      NothingShape(tx, o, db);
    }
  }

  lemma RecordShape(tx: Tx, o: OrderId, db: Db, w: Writes)
    requires ExecRecord(tx, o, db, w).Ok?
    ensures var w' := ExecRecord(tx, o, db, w).value;
            w' == w.(events := w'.events) && w'.events.Keys == w.events.Keys + {KeyOf(tx)}
    ensures w.orders == map[] ==> o in db.orders
  {
  }

  lemma AddKeyShape(tx: Tx, o: OrderId, db: Db, w: Writes)
    requires ExecAddKey(tx, o, db, w).Ok?
    ensures var w', key := ExecAddKey(tx, o, db, w).value, GrantFor(tx).key;
            && w' == w.(keys := w'.keys) && w'.keys.Keys == w.keys.Keys + {key.id}
            && key.id !in db.keys && w'.keys[key.id].order == Some(o) && w'.keys[key.id].code == key.code
  {
    hide GrantFor, KeyFor, OrderHasKey, CodeTaken;
  }

  lemma RedeemShape(tx: Tx, o: OrderId, db: Db, w: Writes)
    requires ExecRedeem(tx, o, db, w).Ok? && GrantFor(tx).key.id in w.keys
    ensures var w', k := ExecRedeem(tx, o, db, w).value, GrantFor(tx).key.id;
            && w' == w.(keys := w'.keys) && w'.keys.Keys == w.keys.Keys
            && w'.keys[k].order == w.keys[k].order && w'.keys[k].code == w.keys[k].code
  {
    hide GrantFor;
  }

  lemma EntitleShape(tx: Tx, o: OrderId, db: Db, w: Writes)
    requires ExecEntitle(tx, o, db, w).Ok?
    ensures var w', grant := ExecEntitle(tx, o, db, w).value, GrantFor(tx);
            && w' == w.(ents := w'.ents) && w'.ents.Keys == w.ents.Keys + {grant.ent}
            && grant.ent !in db.ents && w'.ents[grant.ent].source == grant.key.id
  {
    hide GrantFor, EntitlementFor, KeyHasEntitlement;
  }

  lemma OneMoreWrite(cfg: Config, tx: Tx, o: OrderId, db: Db, n: Position, w: Writes)
    requires n > 0 && Shape(tx, o, db, n - 1, w) && Exec(cfg, tx, o, db, w, StatementAt(tx, n - 1)).Ok?
    ensures Shape(tx, o, db, n, Exec(cfg, tx, o, db, w, StatementAt(tx, n - 1)).value)
  {
    hide ExecRecord, ExecLock, ExecConfirm, ExecAddKey, ExecRedeem, ExecEntitle, GrantFor, KeyOf;
    if n <= 3 {
      match StatementAt(tx, n - 1) {
        case RecordEvent => RecordShape(tx, o, db, w);
        case LockOrder => LockShape(cfg, tx, o, db, w);
        case ConfirmRow => ConfirmShape(tx, o, db, w);
      }
    } else {
      LateWrite(cfg, tx, o, db, n, w);
    }
  }

  lemma LateWrite(cfg: Config, tx: Tx, o: OrderId, db: Db, n: Position, w: Writes)
    requires n > 3 && Shape(tx, o, db, n - 1, w) && Exec(cfg, tx, o, db, w, StatementAt(tx, n - 1)).Ok?
    ensures Shape(tx, o, db, n, Exec(cfg, tx, o, db, w, StatementAt(tx, n - 1)).value)
  {
    hide ExecRecord, ExecLock, ExecConfirm, ExecAddKey, ExecRedeem, ExecEntitle, GrantFor, KeyOf;
    match StatementAt(tx, n - 1)
    case AddKey => AddKeyShape(tx, o, db, w);
    case RedeemKey => RedeemShape(tx, o, db, w);
    case AddEntitlement => EntitleShape(tx, o, db, w);
  }

  lemma LockShape(cfg: Config, tx: Tx, o: OrderId, db: Db, w: Writes)
    requires ExecLock(cfg, tx, o, db, w).Ok?
    ensures ExecLock(cfg, tx, o, db, w) == Ok(w) && (w.orders == map[] ==> o in db.orders)
  {
    hide Fits;
  }

  lemma ConfirmShape(tx: Tx, o: OrderId, db: Db, w: Writes)
    requires ExecConfirm(tx, o, db, w).Ok?
    ensures var w' := ExecConfirm(tx, o, db, w).value;
            w' == w.(orders := w'.orders) && w'.orders.Keys == w.orders.Keys + {o}
  {
    hide IntentOf, PaidAtOf;
  }

  /** The buffer touches what is behind the lock. */
  predicate Touches(tx: Tx, o: OrderId, w: Writes, lock: Lock) {
    match lock
    case EventLock(k) => k in w.events
    case OrderLock(p) => p in w.orders || (p == o && w.keys != map[])
    case KeyLock(k) => k in w.keys || (k == GrantFor(tx).key.id && w.ents != map[])
    case CodeLock(c) => c == GrantFor(tx).key.code && w.keys != map[]
    case EntLock(e) => e in w.ents
  }

  /** The buffer's keys and entitlements are all new, and all of this delivery's making. */
  lemma ShapeParts(tx: Tx, o: OrderId, db: Db, n: Position, w: Writes)
    requires Shape(tx, o, db, n, w)
    ensures db.keys.Keys !! w.keys.Keys && db.ents.Keys !! w.ents.Keys
    ensures forall k | k in w.keys :: w.keys[k].order == Some(o) && w.keys[k].code == GrantFor(tx).key.code
    ensures forall e | e in w.ents :: w.ents[e].source == GrantFor(tx).key.id
  {
    hide GrantFor, KeyOf;
  }

  lemma BufferLeaves(tx: Tx, o: OrderId, db: Db, n: Position, w: Writes, lock: Lock)
    requires Shape(tx, o, db, n, w) && !Touches(tx, o, w, lock)
    ensures Untouched(db, Seen(db, w), lock)
  {
    hide Shape, GrantFor, OrderHasKey, CodeTaken, KeyHasEntitlement;
    ShapeParts(tx, o, db, n, w);
    if lock.OrderLock? || lock.CodeLock? {
      KeysBeside(db.keys, w.keys, o, GrantFor(tx).key.code);
    } else if lock.KeyLock? {
      EntsBeside(db.ents, w.ents, GrantFor(tx).key.id);
    }
  }

  /** A commit changes nothing behind a lock the transaction does not hold. */
  lemma CommitLeaves(cfg: Config, tx: Tx, o: OrderId, db: Db, n: Position, lock: Lock)
    requires Replayed(cfg, tx, o, db, n).Ok? && lock !in Held(tx, o, n)
    ensures Untouched(db, Seen(db, Replayed(cfg, tx, o, db, n).value), lock)
  {
    hide Replayed, Held, GrantFor, KeyOf, Untouched, Seen;
    WritesShape(cfg, tx, o, db, n);
    HeldBy(tx, o, n);
    BufferLeaves(tx, o, db, n, Replayed(cfg, tx, o, db, n).value, lock);
  }

  /** Adding new keys of one order and code concerns no other order and no other code. */
  lemma KeysBeside(keys: map<KeyId, CardKey>, more: map<KeyId, CardKey>, o: OrderId, code: Code)
    requires keys.Keys !! more.Keys
    requires forall k | k in more :: more[k].order == Some(o) && more[k].code == code
    ensures forall p :: p != o || more == map[] ==> (OrderHasKey(keys, p) <==> OrderHasKey(keys + more, p))
    ensures forall c :: c != code || more == map[] ==> (CodeTaken(keys, c) <==> CodeTaken(keys + more, c))
  {
    assert forall k | k in keys :: k in keys + more && (keys + more)[k] == keys[k];
    assert forall k | k in more :: k in keys + more && (keys + more)[k] == more[k];
  }

  lemma EntsBeside(ents: map<EntId, Entitlement>, more: map<EntId, Entitlement>, source: KeyId)
    requires ents.Keys !! more.Keys && forall e | e in more :: more[e].source == source
    ensures forall k :: k != source || more == map[] ==>
              (KeyHasEntitlement(ents, k) <==> KeyHasEntitlement(ents + more, k))
  {
    assert forall e | e in ents :: e in ents + more && (ents + more)[e] == ents[e];
    assert forall e | e in more :: e in ents + more && (ents + more)[e] == more[e];
  }

  /** `db'` may stand in for `db` under the first `n` statements. */
  ghost predicate Alike(tx: Tx, o: OrderId, db: Db, db': Db, n: Position) {
    && db.users <= db'.users && db.orders.Keys <= db'.orders.Keys
    && forall lock | lock in Held(tx, o, n) :: Untouched(db, db', lock)
  }

  lemma RecordStable(tx: Tx, o: OrderId, db: Db, db': Db, w: Writes)
    requires ExecRecord(tx, o, db, w).Ok? && db.orders.Keys <= db'.orders.Keys
    requires Untouched(db, db', EventLock(KeyOf(tx)))
    ensures ExecRecord(tx, o, db', w) == ExecRecord(tx, o, db, w)
  {
    hide KeyOf, KindOf;
  }

  lemma SeenParts(db: Db, w: Writes, k: KeyId)
    ensures Seen(db, w).users == db.users
    ensures w.keys == map[] ==> Seen(db, w).keys == db.keys
    ensures w.ents == map[] ==> Seen(db, w).ents == db.ents
    ensures k in w.keys ==> k in Seen(db, w).keys
  {
  }

  lemma OrderStable(cfg: Config, tx: Tx, o: OrderId, db: Db, db': Db, w: Writes)
    requires Untouched(db, db', OrderLock(o))
    ensures PaidOrder(o, db', w) == PaidOrder(o, db, w)
    ensures PaidOrder(o, db, w).Ok? ==> o in Seen(db, w).orders && o in Seen(db', w).orders
    ensures ExecLock(cfg, tx, o, db', w) == ExecLock(cfg, tx, o, db, w)
  {
    hide Fits, OrderHasKey;
  }

  lemma ConfirmStable(tx: Tx, o: OrderId, db: Db, db': Db, w: Writes)
    requires Untouched(db, db', OrderLock(o))
    ensures ExecConfirm(tx, o, db', w) == ExecConfirm(tx, o, db, w)
  {
    hide IntentOf, PaidAtOf, OrderHasKey;
  }

  lemma InsertKeyAlike(a: Db, b: Db, k: KeyId, row: CardKey)
    requires row.order.Some? && (k in a.keys <==> k in b.keys)
    requires (OrderHasKey(a.keys, row.order.value) <==> OrderHasKey(b.keys, row.order.value))
    requires (CodeTaken(a.keys, row.code) <==> CodeTaken(b.keys, row.code))
    requires row.order.value in a.orders && row.order.value in b.orders
    ensures InsertCardKey(a, k, row).Ok? <==> InsertCardKey(b, k, row).Ok?
  {
    hide OrderHasKey, CodeTaken;
  }

  lemma AddKeyStable(cfg: Config, tx: Tx, o: OrderId, db: Db, db': Db, w: Writes)
    requires ExecAddKey(tx, o, db, w).Ok? && w.keys == map[]
    requires Untouched(db, db', OrderLock(o)) && Untouched(db, db', KeyLock(GrantFor(tx).key.id))
    requires Untouched(db, db', CodeLock(GrantFor(tx).key.code))
    ensures ExecAddKey(tx, o, db', w) == ExecAddKey(tx, o, db, w)
  {
    hide Seen, GrantFor, KeyFor, OrderHasKey, CodeTaken, InsertCardKey, PaidOrder;
    SeenParts(db, w, GrantFor(tx).key.id);
    SeenParts(db', w, GrantFor(tx).key.id);
    OrderStable(cfg, tx, o, db, db', w);
    var key := GrantFor(tx).key;
    InsertKeyAlike(Seen(db, w), Seen(db', w), key.id, KeyFor(o, PaidOrder(o, db, w).value, key.code).value);
  }

  lemma RedeemStable(cfg: Config, tx: Tx, o: OrderId, db: Db, db': Db, w: Writes)
    requires ExecRedeem(tx, o, db, w).Ok? && GrantFor(tx).key.id in w.keys
    requires Untouched(db, db', OrderLock(o)) && db.users <= db'.users
    ensures ExecRedeem(tx, o, db', w) == ExecRedeem(tx, o, db, w)
  {
    hide GrantFor, PaidOrder;
    OrderStable(cfg, tx, o, db, db', w);
  }

  lemma InsertEntAlike(a: Db, b: Db, e: EntId, row: Entitlement)
    requires (e in a.ents <==> e in b.ents)
    requires (KeyHasEntitlement(a.ents, row.source) <==> KeyHasEntitlement(b.ents, row.source))
    requires InsertEntitlement(a, e, row).Ok? && row.source in b.keys && a.users <= b.users
    ensures InsertEntitlement(b, e, row).Ok?
  {
    hide KeyHasEntitlement;
  }

  lemma EntitleStable(cfg: Config, tx: Tx, o: OrderId, db: Db, db': Db, w: Writes)
    requires ExecEntitle(tx, o, db, w).Ok? && w.ents == map[] && GrantFor(tx).key.id in w.keys
    requires Untouched(db, db', OrderLock(o)) && Untouched(db, db', KeyLock(GrantFor(tx).key.id))
    requires Untouched(db, db', EntLock(GrantFor(tx).ent)) && db.users <= db'.users
    ensures ExecEntitle(tx, o, db', w) == ExecEntitle(tx, o, db, w)
  {
    var grant := GrantFor(tx);
    hide Seen, GrantFor, EntitlementFor, KeyHasEntitlement, PaidOrder, InsertEntitlement;
    SeenParts(db, w, grant.key.id);
    SeenParts(db', w, grant.key.id);
    OrderStable(cfg, tx, o, db, db', w);
    var row := EntitlementFor(PaidOrder(o, db, w).value, grant).value;
    InsertEntAlike(Seen(db, w), Seen(db', w), grant.ent, row);
  }

  lemma ExecStable(cfg: Config, tx: Tx, o: OrderId, db: Db, db': Db, n: Position, w: Writes)
    requires n > 0 && Alike(tx, o, db, db', n) && Shape(tx, o, db, n - 1, w)
    requires Exec(cfg, tx, o, db, w, StatementAt(tx, n - 1)).Ok?
    ensures Exec(cfg, tx, o, db', w, StatementAt(tx, n - 1)) == Exec(cfg, tx, o, db, w, StatementAt(tx, n - 1))
  {
    hide ExecRecord, ExecLock, ExecConfirm, ExecAddKey, ExecRedeem, ExecEntitle, GrantFor, KeyOf, Untouched;
    HeldBy(tx, o, n);
    match StatementAt(tx, n - 1)
    case RecordEvent => RecordStable(tx, o, db, db', w);
    case LockOrder => OrderStable(cfg, tx, o, db, db', w);
    case ConfirmRow => ConfirmStable(tx, o, db, db', w);
    case AddKey => AddKeyStable(cfg, tx, o, db, db', w);
    case RedeemKey => RedeemStable(cfg, tx, o, db, db', w);
    case AddEntitlement => EntitleStable(cfg, tx, o, db, db', w);
  }

  /** What a delivery has done so far it could equally have done against any database that
      differs only where it holds no lock. */
  lemma {:induction false} Stable(cfg: Config, tx: Tx, o: OrderId, db: Db, db': Db, n: Position)
    requires Alike(tx, o, db, db', n) && Replayed(cfg, tx, o, db, n).Ok?
    ensures Replayed(cfg, tx, o, db', n) == Replayed(cfg, tx, o, db, n)
  {
    hide Alike, Exec, Shape, StatementAt;
    if n > 0 {
      AlikeEarlier(tx, o, db, db', n);
      Stable(cfg, tx, o, db, db', n - 1);
      WritesShape(cfg, tx, o, db, n - 1);
      ExecStable(cfg, tx, o, db, db', n, Replayed(cfg, tx, o, db, n - 1).value);
    }
  }

  lemma AlikeEarlier(tx: Tx, o: OrderId, db: Db, db': Db, n: Position)
    requires n > 0 && Alike(tx, o, db, db', n)
    ensures Alike(tx, o, db, db', n - 1)
  {
    hide Untouched;
    HeldGrows(tx, o, n - 1, n);
  }

  // --- One delivery alone is the whole transaction ---

  lemma RecordSeen(tx: Tx, o: OrderId, db: Db, w: Writes)
    requires ExecRecord(tx, o, db, w).Ok?
    ensures InsertPaymentEvent(Seen(db, w), KeyOf(tx), PaymentEvent(KindOf(tx), Some(o)))
         == Ok((Seen(db, ExecRecord(tx, o, db, w).value), true))
  {
    hide KeyOf, KindOf;
    var w' := ExecRecord(tx, o, db, w).value;
    assert Seen(db, w').events == Seen(db, w).events[KeyOf(tx) := PaymentEvent(KindOf(tx), Some(o))];
  }

  lemma ConfirmSeen(tx: Tx, o: OrderId, db: Db, w: Writes)
    requires ExecConfirm(tx, o, db, w).Ok?
    ensures ConfirmProviderOrder(Seen(db, w), o, IntentOf(tx), PaidAtOf(tx))
         == Ok(Seen(db, ExecConfirm(tx, o, db, w).value))
  {
    hide IntentOf, PaidAtOf;
    var w' := ExecConfirm(tx, o, db, w).value;
    assert Seen(db, w').orders == Seen(db, w).orders[o := w'.orders[o]];
  }

  lemma AddKeySeen(tx: Tx, o: OrderId, db: Db, w: Writes)
    requires ExecAddKey(tx, o, db, w).Ok?
    ensures var view, key := Seen(db, w), GrantFor(tx).key;
            && o in view.orders && KeyFor(o, view.orders[o], key.code).Ok?
            && InsertCardKey(view, key.id, KeyFor(o, view.orders[o], key.code).value)
               == Ok(Seen(db, ExecAddKey(tx, o, db, w).value))
            && ExecAddKey(tx, o, db, w).value.orders == w.orders
  {
    hide GrantFor, CodeTaken, OrderHasKey, KeyFor;
    var w' := ExecAddKey(tx, o, db, w).value;
    var k := GrantFor(tx).key.id;
    assert Seen(db, w').keys == Seen(db, w).keys[k := w'.keys[k]];
  }

  lemma RedeemSeen(tx: Tx, o: OrderId, db: Db, w: Writes)
    requires ExecRedeem(tx, o, db, w).Ok?
    ensures var view, grant := Seen(db, w), GrantFor(tx);
            && o in view.orders
            && MarkCardKeyRedeemed(view, grant.key.id, view.orders[o].user, grant.at)
               == Ok(Seen(db, ExecRedeem(tx, o, db, w).value))
            && ExecRedeem(tx, o, db, w).value.orders == w.orders
  {
    hide GrantFor;
    var w' := ExecRedeem(tx, o, db, w).value;
    var k := GrantFor(tx).key.id;
    assert Seen(db, w').keys == Seen(db, w).keys[k := w'.keys[k]];
  }

  lemma EntitleSeen(tx: Tx, o: OrderId, db: Db, w: Writes)
    requires ExecEntitle(tx, o, db, w).Ok?
    ensures var view, grant := Seen(db, w), GrantFor(tx);
            && o in view.orders && EntitlementFor(view.orders[o], grant).Ok?
            && InsertEntitlement(view, grant.ent, EntitlementFor(view.orders[o], grant).value)
               == Ok(Seen(db, ExecEntitle(tx, o, db, w).value))
  {
    hide GrantFor, KeyHasEntitlement, EntitlementFor;
    var w' := ExecEntitle(tx, o, db, w).value;
    var e := GrantFor(tx).ent;
    assert Seen(db, w').ents == Seen(db, w).ents[e := w'.ents[e]];
  }

  /** The last three statements are the provisioning of the order. */
  lemma ProvisionSeen(tx: Tx, o: OrderId, db: Db, w: Writes, order: Order)
    requires ExecAddKey(tx, o, db, w).Ok?
    requires var w1 := ExecAddKey(tx, o, db, w).value;
             ExecRedeem(tx, o, db, w1).Ok? && ExecEntitle(tx, o, db, ExecRedeem(tx, o, db, w1).value).Ok?
    requires o in Seen(db, w).orders ==> SameTerms(Seen(db, w).orders[o], order)
    ensures var w1 := ExecAddKey(tx, o, db, w).value;
            Provision(Seen(db, w), o, order, GrantFor(tx))
            == Ok(Seen(db, ExecEntitle(tx, o, db, ExecRedeem(tx, o, db, w1).value).value))
  {
    hide GrantFor, FulfillmentTerms, InsertCardKey, MarkCardKeyRedeemed, InsertEntitlement, NewEntitlement,
      ExecAddKey, ExecRedeem, ExecEntitle;
    var w1 := ExecAddKey(tx, o, db, w).value;
    AddKeySeen(tx, o, db, w);
    RedeemSeen(tx, o, db, w1);
    EntitleSeen(tx, o, db, ExecRedeem(tx, o, db, w1).value);
  }

  /** After two statements the event is recorded and the order is locked and checked. */
  lemma TwoDone(cfg: Config, tx: Tx, o: OrderId, db: Db)
    requires Replayed(cfg, tx, o, db, 2).Ok?
    ensures var w := Replayed(cfg, tx, o, db, 2).value;
            && InsertPaymentEvent(db, KeyOf(tx), PaymentEvent(KindOf(tx), Some(o))) == Ok((Seen(db, w), true))
            && o in db.orders && Fits(cfg, tx, db.orders[o]) && Seen(db, w).orders == db.orders
  {
    hide KeyOf, KindOf, Fits, ExecRecord;
    assert Seen(db, NOTHING) == db;
    assert Replayed(cfg, tx, o, db, 0) == Ok(NOTHING);
    var w1 := Replayed(cfg, tx, o, db, 1).value;
    RecordSeen(tx, o, db, NOTHING);
    RecordOnly(tx, o, db, NOTHING);
    assert Replayed(cfg, tx, o, db, 1) == Exec(cfg, tx, o, db, NOTHING, StatementAt(tx, 0));
    assert Replayed(cfg, tx, o, db, 2) == Exec(cfg, tx, o, db, w1, StatementAt(tx, 1));
  }

  lemma RecordOnly(tx: Tx, o: OrderId, db: Db, w: Writes)
    requires ExecRecord(tx, o, db, w).Ok?
    ensures ExecRecord(tx, o, db, w).value.orders == w.orders
  {
  }

  /** The fulfilment of a checked order, all six statements done. */
  lemma SixDone(cfg: Config, tx: Tx, o: OrderId, db: Db)
    requires Replayed(cfg, tx, o, db, 6).Ok?
    ensures Replayed(cfg, tx, o, db, 2).Ok?
    ensures var w2, w6 := Replayed(cfg, tx, o, db, 2).value, Replayed(cfg, tx, o, db, 6).value;
            && o in Seen(db, w2).orders && Seen(db, w2).orders[o].status.PendingProvider?
            && Settle(Seen(db, w2), o, Seen(db, w2).orders[o], IntentOf(tx), PaidAtOf(tx), GrantFor(tx))
               == Ok(Seen(db, w6))
  {
    hide IntentOf, PaidAtOf, GrantFor, Exec, Provision;
    assert Replayed(cfg, tx, o, db, 5).Ok? && Replayed(cfg, tx, o, db, 4).Ok? && Replayed(cfg, tx, o, db, 3).Ok?;
    var w2 := Replayed(cfg, tx, o, db, 2).value;
    FulfilSeen(cfg, tx, o, db, w2);
  }

  lemma FulfilSeen(cfg: Config, tx: Tx, o: OrderId, db: Db, w: Writes)
    requires Exec(cfg, tx, o, db, w, ConfirmRow).Ok?
    requires var w1 := Exec(cfg, tx, o, db, w, ConfirmRow).value;
             && Exec(cfg, tx, o, db, w1, AddKey).Ok?
             && var w2 := Exec(cfg, tx, o, db, w1, AddKey).value;
             && Exec(cfg, tx, o, db, w2, RedeemKey).Ok?
             && Exec(cfg, tx, o, db, Exec(cfg, tx, o, db, w2, RedeemKey).value, AddEntitlement).Ok?
    ensures var w1 := Exec(cfg, tx, o, db, w, ConfirmRow).value;
            var w2 := Exec(cfg, tx, o, db, w1, AddKey).value;
            var w4 := Exec(cfg, tx, o, db, Exec(cfg, tx, o, db, w2, RedeemKey).value, AddEntitlement).value;
            && o in Seen(db, w).orders && Seen(db, w).orders[o].status.PendingProvider?
            && Settle(Seen(db, w), o, Seen(db, w).orders[o], IntentOf(tx), PaidAtOf(tx), GrantFor(tx))
               == Ok(Seen(db, w4))
  {
    hide IntentOf, PaidAtOf, GrantFor, ExecConfirm, ExecAddKey, ExecRedeem, ExecEntitle, Provision, Seen;
    ConfirmSeen(tx, o, db, w);
    ProvisionSeen(tx, o, db, ExecConfirm(tx, o, db, w).value, Seen(db, w).orders[o]);
  }

  lemma StripeIsWhole(cfg: Config, d: StripeDelivery, o: OrderId, db: Db)
    requires IsPaidDelivery(StripeEvent(d), o) && Replayed(cfg, StripeEvent(d), o, db, 2).Ok?
    ensures var tx := StripeEvent(d);
            && (Replayed(cfg, tx, o, db, 6).Ok? ==>
                  StripeWebhook(db, d) == Outcome(Seen(db, Replayed(cfg, tx, o, db, 6).value), Ok(true)))
            && (o in db.orders && db.orders[o].status.Confirmed? ==>
                  StripeWebhook(db, d) == Outcome(Seen(db, Replayed(cfg, tx, o, db, 2).value), Ok(false)))
  {
    hide Settle, SessionMatches, Replayed, InsertPaymentEvent;
    var tx := StripeEvent(d);
    TwoDone(cfg, tx, o, db);
    if Replayed(cfg, tx, o, db, 6).Ok? {
      SixDone(cfg, tx, o, db);
    }
  }

  lemma WechatIsWhole(cfg: Config, d: WechatDelivery, o: OrderId, db: Db)
    requires IsPaidDelivery(WechatEvent(d), o) && Replayed(cfg, WechatEvent(d), o, db, 2).Ok?
    requires ProviderOrder(db, WechatPay, d.transaction.outTradeNo) == Some(o)
    ensures var tx := WechatEvent(d);
            && (Replayed(cfg, tx, o, db, 6).Ok? ==>
                  WechatWebhook(cfg, db, d) == Outcome(Seen(db, Replayed(cfg, tx, o, db, 6).value), Ok(true)))
            && (o in db.orders && db.orders[o].status.Confirmed? ==>
                  WechatWebhook(cfg, db, d) == Outcome(Seen(db, Replayed(cfg, tx, o, db, 2).value), Ok(false)))
  {
    hide Settle, CheckTransaction, Replayed, InsertPaymentEvent;
    var tx := WechatEvent(d);
    TwoDone(cfg, tx, o, db);
    if Replayed(cfg, tx, o, db, 6).Ok? {
      SixDone(cfg, tx, o, db);
    }
  }

  /** The order a fitting WeChat transaction names is the only one its reference finds. */
  lemma NamesOrder(cfg: Config, db: Db, tx: Tx, o: OrderId)
    requires Inv(db) && IsPaidDelivery(tx, o) && o in db.orders && Fits(cfg, tx, db.orders[o])
    ensures NamedOrder(db, tx) == Some(o)
  {
  }

  /** Past the lock nothing can go wrong any more: once the event is recorded and the order
      locked and found pending, a delivery with fresh ids executes all its statements. */
  lemma PastTheLock(cfg: Config, tx: Tx, o: OrderId, db: Db)
    requires Inv(db) && Replayed(cfg, tx, o, db, 2).Ok? && FreshGrant(db, GrantFor(tx))
    requires o in db.orders && db.orders[o].status.PendingProvider?
    ensures Replayed(cfg, tx, o, db, 6).Ok?
  {
    hide Inv, GrantFor, ExecRecord, ExecLock, ExecConfirm, ExecAddKey, ExecRedeem, ExecEntitle, PlanIntact;
    WritesShape(cfg, tx, o, db, 2);
    var w := Replayed(cfg, tx, o, db, 2).value;
    ConfirmSucceeds(tx, o, db, w);
    var w3 := ExecConfirm(tx, o, db, w).value;
    AddKeySucceeds(tx, o, db, w3);
    var w4 := ExecAddKey(tx, o, db, w3).value;
    PlanStays(o, db, w3, w4);
    RedeemSucceeds(tx, o, db, w4);
    var w5 := ExecRedeem(tx, o, db, w4).value;
    PlanStays(o, db, w4, w5);
    EntitleSucceeds(tx, o, db, w5);
    LastFour(cfg, tx, o, db, w);
  }

  lemma PlanStays(o: OrderId, db: Db, w: Writes, w': Writes)
    requires PlanIntact(o, db, w) && w'.orders == w.orders
    ensures PlanIntact(o, db, w')
  {
  }

  lemma LastFour(cfg: Config, tx: Tx, o: OrderId, db: Db, w: Writes)
    requires Replayed(cfg, tx, o, db, 2) == Ok(w)
    requires ExecConfirm(tx, o, db, w).Ok?
    requires var w3 := ExecConfirm(tx, o, db, w).value;
             && ExecAddKey(tx, o, db, w3).Ok?
             && var w4 := ExecAddKey(tx, o, db, w3).value;
             ExecRedeem(tx, o, db, w4).Ok? && ExecEntitle(tx, o, db, ExecRedeem(tx, o, db, w4).value).Ok?
    ensures Replayed(cfg, tx, o, db, 6).Ok?
  {
    hide ExecRecord, ExecLock, ExecConfirm, ExecAddKey, ExecRedeem, ExecEntitle;
    var w3 := ExecConfirm(tx, o, db, w).value;
    assert Replayed(cfg, tx, o, db, 3) == Ok(w3);
    var w4 := ExecAddKey(tx, o, db, w3).value;
    assert Replayed(cfg, tx, o, db, 4) == Ok(w4);
    assert Replayed(cfg, tx, o, db, 5) == ExecRedeem(tx, o, db, w4);
  }

  /** The order's row as it is or as the delivery has confirmed it. */
  predicate PlanIntact(o: OrderId, db: Db, w: Writes) {
    o in db.orders && o in Seen(db, w).orders && SameTerms(db.orders[o], Seen(db, w).orders[o])
  }

  lemma ConfirmSucceeds(tx: Tx, o: OrderId, db: Db, w: Writes)
    requires w.orders == map[] && o in db.orders && db.orders[o].status.PendingProvider?
    ensures ExecConfirm(tx, o, db, w).Ok?
    ensures var w' := ExecConfirm(tx, o, db, w).value; w' == w.(orders := w'.orders) && PlanIntact(o, db, w')
  {
    hide IntentOf, PaidAtOf;
    assert Seen(db, w).orders == db.orders;
    assert ExecConfirm(tx, o, db, w).Ok?;
    ConfirmSeen(tx, o, db, w);
    hide Seen;
  }

  lemma AddKeySucceeds(tx: Tx, o: OrderId, db: Db, w: Writes)
    requires Inv(db) && FreshGrant(db, GrantFor(tx)) && w.keys == map[]
    requires PlanIntact(o, db, w) && !IsConfirmed(db.orders, o)
    ensures ExecAddKey(tx, o, db, w).Ok?
    ensures var w', k := ExecAddKey(tx, o, db, w).value, GrantFor(tx).key.id;
            w' == w.(keys := w'.keys) && k in w'.keys && w'.keys[k].status.Available?
  {
    hide GrantFor, CodeTaken, OrderHasKey;
    assert Seen(db, w).keys == db.keys;
    assert OrderOk(db.users, db.orders[o]);
    NoKeyYet(db, o);
  }

  lemma RedeemSucceeds(tx: Tx, o: OrderId, db: Db, w: Writes)
    requires Inv(db) && PlanIntact(o, db, w)
    requires GrantFor(tx).key.id in w.keys && w.keys[GrantFor(tx).key.id].status.Available?
    ensures ExecRedeem(tx, o, db, w).Ok?
    ensures var w' := ExecRedeem(tx, o, db, w).value;
            w' == w.(keys := w'.keys) && GrantFor(tx).key.id in w'.keys
  {
    hide GrantFor;
    assert OrderOk(db.users, db.orders[o]);
  }

  lemma EntitleSucceeds(tx: Tx, o: OrderId, db: Db, w: Writes)
    requires Inv(db) && FreshGrant(db, GrantFor(tx)) && w.ents == map[]
    requires PlanIntact(o, db, w) && GrantFor(tx).key.id in w.keys
    ensures ExecEntitle(tx, o, db, w).Ok?
  {
    hide GrantFor, KeyHasEntitlement;
    assert Seen(db, w).ents == db.ents;
    assert OrderOk(db.users, db.orders[o]);
    NoEntitlementYet(db, GrantFor(tx).key.id);
  }

  // --- Every interleaving is a run ---

  ghost predicate LocalOk(cfg: Config, db: Db, t: Local) {
    IsPaidDelivery(t.tx, t.order) && Replayed(cfg, t.tx, t.order, db, t.done) == Ok(t.writes)
  }

  ghost predicate Exclusive(active: map<int, Local>) {
    forall i, j | i in active && j in active && i != j :: Holds(active[i]) !! Holds(active[j])
  }

  /** The commits, in order, are a possible run ending in the present database, and an order has
      been answered `true` as often as that run fulfils it. */
  ghost predicate History(cfg: Config, start: Db, w: World) {
    && PossibleRun(cfg, start, w.log) && Run(cfg, start, w.log) == w.db
    && forall o :: multiset(w.paid)[o] == Fulfilments(cfg, start, w.log, o)
  }

  ghost predicate Serial(cfg: Config, start: Db, w: World) {
    && Inv(w.db) && History(cfg, start, w)
    && (forall id | id in w.active :: LocalOk(cfg, w.db, w.active[id]))
    && Exclusive(w.active)
  }

  lemma {:induction false} RunAppends(cfg: Config, db: Db, txs: seq<Tx>, tx: Tx, o: OrderId)
    requires PossibleRun(cfg, db, txs) && Possible(Run(cfg, db, txs), tx)
    ensures PossibleRun(cfg, db, txs + [tx])
    ensures Run(cfg, db, txs + [tx]) == Step(cfg, Run(cfg, db, txs), tx).db
    ensures var last := Run(cfg, db, txs);
            Fulfilments(cfg, db, txs + [tx], o)
            == Fulfilments(cfg, db, txs, o) + Bit(Fulfils(cfg, last, tx) && NamedOrder(last, tx) == Some(o))
    decreases |txs|
  {
    hide Step, Possible, NamedOrder, Fulfils;
    if txs == [] {
      assert [tx][1..] == [] && txs + [tx] == [tx];
    } else {
      assert (txs + [tx])[1..] == txs[1..] + [tx];
      RunAppends(cfg, Step(cfg, db, txs[0]).db, txs[1..], tx, o);
    }
  }

  lemma HistoryGrows(cfg: Config, start: Db, w: World, tx: Tx, w': World)
    requires History(cfg, start, w) && Possible(w.db, tx)
    requires w'.db == Step(cfg, w.db, tx).db && w'.log == w.log + [tx]
    requires Fulfils(cfg, w.db, tx) ==> NamedOrder(w.db, tx).Some? && w'.paid == w.paid + [NamedOrder(w.db, tx).value]
    requires !Fulfils(cfg, w.db, tx) ==> w'.paid == w.paid
    ensures History(cfg, start, w')
  {
    hide Step, Possible, NamedOrder, Fulfils;
    RunAppends(cfg, start, w.log, tx, 0);
    forall o ensures multiset(w'.paid)[o] == Fulfilments(cfg, start, w'.log, o) {
      RunAppends(cfg, start, w.log, tx, o);
    }
  }

  /** A delivery on its way survives whatever else is committed behind no lock of its own. */
  lemma LocalStays(cfg: Config, db: Db, db': Db, t: Local)
    requires LocalOk(cfg, db, t) && Endures(db, db')
    requires forall lock | lock in Holds(t) :: Untouched(db, db', lock)
    ensures LocalOk(cfg, db', t)
  {
    hide Untouched, Replayed;
    assert forall o | o in db.orders :: o in db'.orders;
    assert Alike(t.tx, t.order, db, db', t.done) by {
      HoldsIs(t);
    }
    Stable(cfg, t.tx, t.order, db, db', t.done);
  }

  lemma CommitKeeps(cfg: Config, start: Db, w: World, id: int, answer: bool)
    requires Serial(cfg, start, w) && id in w.active
    requires var t := w.active[id];
             && Possible(w.db, t.tx) && Step(cfg, w.db, t.tx).db == Seen(w.db, t.writes)
             && (answer <==> Fulfils(cfg, w.db, t.tx)) && (answer ==> NamedOrder(w.db, t.tx) == Some(t.order))
    ensures Serial(cfg, start, Committed(w, id, answer))
  {
    hide Step, Possible, NamedOrder, Fulfils, Seen, Holds, Held, Endures, Untouched, Inv, Replayed, History;
    var t, w' := w.active[id], Committed(w, id, answer);
    StepKeeps(cfg, w.db, t.tx);
    StepEndures(cfg, w.db, t.tx);
    HistoryGrows(cfg, start, w, t.tx, w');
    forall other | other in w'.active ensures LocalOk(cfg, w'.db, w'.active[other]) {
      forall lock | lock in Holds(w.active[other]) ensures Untouched(w.db, w'.db, lock) {
        HoldsIs(t);
        CommitLeaves(cfg, t.tx, t.order, w.db, t.done, lock);
      }
      LocalStays(cfg, w.db, w'.db, w.active[other]);
    }
  }

  /** Beginning, advancing or giving up one delivery without a commit. */
  lemma ActiveKeeps(cfg: Config, start: Db, w: World, active: map<int, Local>)
    requires Serial(cfg, start, w) && Exclusive(active)
    requires forall id | id in active :: LocalOk(cfg, w.db, active[id])
    ensures Serial(cfg, start, w.(active := active))
  {
  }

  lemma HoldsIs(t: Local)
    ensures Holds(t) == Held(t.tx, t.order, t.done)
  {
  }

  lemma WholeKeeps(cfg: Config, start: Db, w: World, tx: Tx)
    requires Serial(cfg, start, w)
    ensures Serial(cfg, start, Act(cfg, w, Whole(tx)))
  {
    hide Step, NamedOrder, Holds, Endures, Untouched, Inv, Replayed, History;
    if Possible(w.db, tx) && RespectsLocks(w, Step(cfg, w.db, tx).db) {
      var w' := Act(cfg, w, Whole(tx));
      StepKeeps(cfg, w.db, tx);
      StepEndures(cfg, w.db, tx);
      if Fulfils(cfg, w.db, tx) {
        FulfilsNames(cfg, w.db, tx);
      }
      HistoryGrows(cfg, start, w, tx, w');
      forall id | id in w'.active ensures LocalOk(cfg, w'.db, w'.active[id]) {
        LocalStays(cfg, w.db, w'.db, w.active[id]);
      }
    }
  }

  lemma FulfilsNames(cfg: Config, db: Db, tx: Tx)
    requires Inv(db) && Possible(db, tx) && Fulfils(cfg, db, tx)
    ensures NamedOrder(db, tx).Some?
  {
    PaidDeliveryEffect(cfg, db, tx);
  }

  /** With all six statements done, the transaction as a whole answers `true` and leaves what
      the commit leaves; with the order found Confirmed after two, it answers `false`. */
  lemma DeliveryIsWhole(cfg: Config, db: Db, t: Local)
    requires Inv(db) && LocalOk(cfg, db, t)
    requires t.done == 6 || (t.done == 2 && t.order in db.orders && db.orders[t.order].status.Confirmed?)
    ensures Possible(db, t.tx)
    ensures Step(cfg, db, t.tx) == Outcome(Seen(db, t.writes), Ok(Processed(t.done == 6)))
    ensures NamedOrder(db, t.tx) == Some(t.order)
  {
    hide Replayed, Fits, Seen, StripeWebhook, WechatWebhook, Inv;
    if t.done == 6 {
      SixDone(cfg, t.tx, t.order, db);
    }
    TwoDone(cfg, t.tx, t.order, db);
    NamesOrder(cfg, db, t.tx, t.order);
    match t.tx
    case StripeEvent(d) => StripeIsWhole(cfg, d, t.order, db);
    case WechatEvent(d) => WechatIsWhole(cfg, d, t.order, db);
  }

  /** Before its event is recorded a delivery has written nothing. */
  lemma NothingYet(cfg: Config, tx: Tx, o: OrderId, db: Db, n: Position)
    requires n < LENGTH && StatementAt(tx, n) == RecordEvent && Replayed(cfg, tx, o, db, n).Ok?
    ensures Replayed(cfg, tx, o, db, n) == Ok(NOTHING)
  {
    if n == 1 {
      assert Replayed(cfg, tx, o, db, 1) == Exec(cfg, tx, o, db, NOTHING, StatementAt(tx, 0));
    }
  }

  lemma AdvanceKeeps(cfg: Config, start: Db, w: World, id: int)
    requires Serial(cfg, start, w) && id in w.active && w.active[id].done < LENGTH
    ensures Serial(cfg, start, Advanced(cfg, w, id))
  {
    hide Step, NamedOrder, Inv, History, Exec, IsPaidDelivery, Exclusive, Waits;
    var t := w.active[id];
    var s := StatementAt(t.tx, t.done);
    var view := Seen(w.db, t.writes);
    if Waits(w, id, Claims(t.tx, t.order, s)) {
    } else if s.RecordEvent? && KeyOf(t.tx) in view.events {
      NothingYet(cfg, t.tx, t.order, w.db, t.done);
      assert view == w.db;
      IdleIsWhole(cfg, w.db, t);
      CommitKeeps(cfg, start, w, id, false);
    } else if s.ConfirmRow? && t.order in view.orders && view.orders[t.order].status.Confirmed? {
      TwoDone(cfg, t.tx, t.order, w.db);
      DeliveryIsWhole(cfg, w.db, t);
      CommitKeeps(cfg, start, w, id, false);
    } else {
      StatementKeeps(cfg, start, w, id);
    }
  }

  lemma StatementKeeps(cfg: Config, start: Db, w: World, id: int)
    requires Serial(cfg, start, w) && id in w.active && w.active[id].done < LENGTH
    requires var t := w.active[id]; !Waits(w, id, Claims(t.tx, t.order, StatementAt(t.tx, t.done)))
    ensures var t := w.active[id];
            var r := Exec(cfg, t.tx, t.order, w.db, t.writes, StatementAt(t.tx, t.done));
            Serial(cfg, start, if r.Err? then Without(w, id)
                               else w.(active := w.active[id := t.(done := t.done + 1, writes := r.value)]))
  {
    hide Inv, History, Exec, IsPaidDelivery, Claims, StatementAt;
    var t := w.active[id];
    var s := StatementAt(t.tx, t.done);
    var r := Exec(cfg, t.tx, t.order, w.db, t.writes, s);
    assert Replayed(cfg, t.tx, t.order, w.db, t.done + 1) == r;
    assert Held(t.tx, t.order, t.done + 1) == Held(t.tx, t.order, t.done) + Claims(t.tx, t.order, s);
    ActiveKeeps(cfg, start, w, if r.Err? then w.active - {id}
                               else w.active[id := t.(done := t.done + 1, writes := r.value)]);
  }

  lemma IdleIsWhole(cfg: Config, db: Db, t: Local)
    requires IsPaidDelivery(t.tx, t.order) && KeyOf(t.tx) in db.events
    ensures Possible(db, t.tx) && Step(cfg, db, t.tx).db == db && !Fulfils(cfg, db, t.tx)
  {
    RecordedIsIdle(cfg, db, t.tx);
  }

  lemma ActKeeps(cfg: Config, start: Db, w: World, a: Action)
    requires Serial(cfg, start, w)
    ensures Serial(cfg, start, Act(cfg, w, a))
  {
    hide Step, NamedOrder, Inv, History, Advanced, IsPaidDelivery;
    match a
    case Begin(id, tx, o) => ActiveKeeps(cfg, start, w, Act(cfg, w, a).active);
    case Advance(id) =>
      if id in w.active && w.active[id].done < LENGTH { AdvanceKeeps(cfg, start, w, id); }
    case Finish(id) =>
      if id in w.active && w.active[id].done == LENGTH {
        DeliveryIsWhole(cfg, w.db, w.active[id]);
        CommitKeeps(cfg, start, w, id, true);
      }
    case Abort(id) => ActiveKeeps(cfg, start, w, Act(cfg, w, a).active);
    case Whole(tx) => WholeKeeps(cfg, start, w, tx);
  }

  lemma {:induction false} ActionsKeep(cfg: Config, start: Db, w: World, actions: seq<Action>)
    requires Serial(cfg, start, w)
    ensures Serial(cfg, start, After(cfg, w, actions))
    decreases |actions|
  {
    hide Act, Serial;
    if actions != [] {
      ActKeeps(cfg, start, w, actions[0]);
      ActionsKeep(cfg, start, Act(cfg, w, actions[0]), actions[1..]);
    }
  }

  lemma StartIsSerial(cfg: Config, start: Db)
    requires Inv(start)
    ensures Serial(cfg, start, World(start, map[], [], []))
  {
  }

  /** Serializability: from any sound database, whatever statements of whatever deliveries
      interleave, with crashes at any point, the committed database is the one the committed
      transactions produce one after another in the order of their commits. So it is sound, no
      order is answered `true` twice, and the books hold what was collected. */
  lemma EveryInterleavingIsARun(cfg: Config, start: Db, actions: seq<Action>)
    requires Inv(start)
    ensures var last := After(cfg, World(start, map[], [], []), actions);
            && Inv(last.db)
            && PossibleRun(cfg, start, last.log) && last.db == Run(cfg, start, last.log)
            && (forall o :: multiset(last.paid)[o] == Fulfilments(cfg, start, last.log, o) <= 1)
            && Revenue(last.db.orders) == Revenue(start.orders) + Collected(cfg, start, last.log)
  {
    hide Step, Inv, Revenue;
    StartIsSerial(cfg, start);
    ActionsKeep(cfg, start, World(start, map[], [], []), actions);
    var log := After(cfg, World(start, map[], [], []), actions).log;
    MoneyConserved(cfg, start, log);
    forall o ensures Fulfilments(cfg, start, log, o) <= 1 {
      ExactlyOnce(cfg, start, log, o);
    }
  }

  // --- Progress ---

  lemma {:induction false} HeldWithin(tx: Tx, o: OrderId, n: Position)
    ensures Held(tx, o, n) <= {EventLock(KeyOf(tx)), OrderLock(o), KeyLock(GrantFor(tx).key.id),
                               CodeLock(GrantFor(tx).key.code), EntLock(GrantFor(tx).ent)}
  {
    if n > 0 {
      HeldWithin(tx, o, n - 1);
    }
  }

  /** Two deliveries have nothing in common: another event, another order, other ids and codes. */
  predicate Strangers(a: Local, b: Local) {
    && KeyOf(a.tx) != KeyOf(b.tx) && a.order != b.order
    && GrantFor(a.tx).key.id != GrantFor(b.tx).key.id && GrantFor(a.tx).key.code != GrantFor(b.tx).key.code
    && GrantFor(a.tx).ent != GrantFor(b.tx).ent
  }

  /** A delivery never waits for strangers. */
  lemma StrangersDoNotWait(w: World, id: int, s: Statement)
    requires id in w.active
    requires forall other | other in w.active && other != id :: Strangers(w.active[id], w.active[other])
    ensures !Waits(w, id, Claims(w.active[id].tx, w.active[id].order, s))
  {
    hide KeyOf, GrantFor;
    var t := w.active[id];
    forall other | other in w.active && other != id ensures Holds(w.active[other]) !! Claims(t.tx, t.order, s) {
      HeldWithin(w.active[other].tx, w.active[other].order, w.active[other].done);
    }
  }

  /** A delivery that matches a pending order, its event unrecorded and its ids new, executes its
      first two statements. */
  lemma FirstTwo(cfg: Config, tx: Tx, o: OrderId, db: Db)
    requires IsPaidDelivery(tx, o) && KeyOf(tx) !in db.events && o in db.orders && Fits(cfg, tx, db.orders[o])
    ensures Replayed(cfg, tx, o, db, 2).Ok?
  {
    hide Fits, KeyOf, KindOf, IsPaidDelivery;
    assert Replayed(cfg, tx, o, db, 1) == Exec(cfg, tx, o, db, NOTHING, StatementAt(tx, 0));
    var w1 := Replayed(cfg, tx, o, db, 1).value;
    assert Replayed(cfg, tx, o, db, 2) == Exec(cfg, tx, o, db, w1, StatementAt(tx, 1));
  }

  /** Other deliveries may be anywhere on their way. */
  ghost predicate Matches(cfg: Config, db: Db, tx: Tx, o: OrderId) {
    && IsPaidDelivery(tx, o) && KeyOf(tx) !in db.events && FreshGrant(db, GrantFor(tx))
    && o in db.orders && Fits(cfg, tx, db.orders[o]) && db.orders[o].status.PendingProvider?
  }

  lemma {:induction false} ReplayedEarlier(cfg: Config, tx: Tx, o: OrderId, db: Db, n: Position, m: Position)
    requires m <= n && Replayed(cfg, tx, o, db, n).Ok?
    ensures Replayed(cfg, tx, o, db, m).Ok?
  {
    hide Exec, StatementAt;
    if m < n {
      ReplayedEarlier(cfg, tx, o, db, n - 1, m);
    }
  }

  /** Among strangers a matching delivery advances with every statement. */
  lemma AdvancesAmongStrangers(cfg: Config, w: World, id: int)
    requires Inv(w.db) && id in w.active && LocalOk(cfg, w.db, w.active[id]) && w.active[id].done < LENGTH
    requires Matches(cfg, w.db, w.active[id].tx, w.active[id].order)
    requires forall other | other in w.active && other != id :: Strangers(w.active[id], w.active[other])
    ensures var t := w.active[id]; var w' := Act(cfg, w, Advance(id));
            && id in w'.active && w'.active[id].done == t.done + 1 && w' == w.(active := w'.active)
            && w'.active[id].tx == t.tx && w'.active[id].order == t.order && LocalOk(cfg, w.db, w'.active[id])
            && w'.active == w.active[id := w'.active[id]]
  {
    hide Waits, Claims, Exec, IsPaidDelivery, Inv, Strangers, Matches, StatementAt, Replayed, Seen, KeyOf;
    var t := w.active[id];
    StrangersDoNotWait(w, id, StatementAt(t.tx, t.done));
    NextStatement(cfg, t.tx, t.order, w.db, t.done);
    NoEarlyEnd(cfg, t.tx, t.order, w.db, t.done);
  }

  lemma NextStatement(cfg: Config, tx: Tx, o: OrderId, db: Db, n: Position)
    requires Inv(db) && Matches(cfg, db, tx, o) && n < LENGTH
    ensures Replayed(cfg, tx, o, db, n).Ok?
    ensures Exec(cfg, tx, o, db, Replayed(cfg, tx, o, db, n).value, StatementAt(tx, n)).Ok?
    ensures Replayed(cfg, tx, o, db, n + 1)
         == Exec(cfg, tx, o, db, Replayed(cfg, tx, o, db, n).value, StatementAt(tx, n))
  {
    hide Exec, Inv, Fits, FreshGrant, KeyOf, GrantFor, IsPaidDelivery, StatementAt;
    FirstTwo(cfg, tx, o, db);
    PastTheLock(cfg, tx, o, db);
    ReplayedEarlier(cfg, tx, o, db, 6, n + 1);
    ReplayedEarlier(cfg, tx, o, db, 6, n);
  }

  /** A matching delivery neither finds its event recorded nor its order Confirmed. */
  lemma NoEarlyEnd(cfg: Config, tx: Tx, o: OrderId, db: Db, n: Position)
    requires Matches(cfg, db, tx, o) && n < LENGTH && Replayed(cfg, tx, o, db, n).Ok?
    ensures var view := Seen(db, Replayed(cfg, tx, o, db, n).value);
            && (StatementAt(tx, n).RecordEvent? ==> KeyOf(tx) !in view.events)
            && (StatementAt(tx, n).ConfirmRow? ==> o in view.orders && !view.orders[o].status.Confirmed?)
  {
    hide Exec, Replayed, Fits, FreshGrant, KeyOf, GrantFor, IsPaidDelivery;
    WritesShape(cfg, tx, o, db, n);
  }

  /** So six statements and a commit settle its order, whatever strangers are under way. */
  lemma SettlesAmongStrangers(cfg: Config, w: World, id: int, n: nat)
    requires Inv(w.db) && id in w.active && LocalOk(cfg, w.db, w.active[id]) && n == LENGTH - w.active[id].done
    requires Matches(cfg, w.db, w.active[id].tx, w.active[id].order)
    requires forall other | other in w.active && other != id :: Strangers(w.active[id], w.active[other])
    ensures var t := w.active[id];
            var last := After(cfg, w, seq(n, _ => Advance(id)) + [Finish(id)]);
            && last.paid == w.paid + [t.order] && last.log == w.log + [t.tx] && last.active == w.active - {id}
            && last.db == Step(cfg, w.db, t.tx).db && Fulfils(cfg, w.db, t.tx)
    decreases n
  {
    hide Step, Inv, LocalOk, Matches, Act, Strangers, Fulfils;
    var actions := seq(n, _ => Advance(id)) + [Finish(id)];
    if n == 0 {
      FinishSettles(cfg, w, id);
      assert actions == [Finish(id)] && actions[1..] == [];
    } else {
      AdvancesAmongStrangers(cfg, w, id);
      var w' := Act(cfg, w, Advance(id));
      assert actions[0] == Advance(id) && actions[1..] == seq(n - 1, _ => Advance(id)) + [Finish(id)];
      forall other | other in w'.active && other != id ensures Strangers(w'.active[id], w'.active[other]) {
        StillStrangers(w.active[id], w'.active[id], w.active[other]);
      }
      SettlesAmongStrangers(cfg, w', id, n - 1);
      assert w'.active - {id} == w.active - {id};
    }
  }

  lemma StillStrangers(a: Local, a': Local, b: Local)
    requires Strangers(a, b) && a'.tx == a.tx && a'.order == a.order
    ensures Strangers(a', b)
  {
  }

  lemma FinishSettles(cfg: Config, w: World, id: int)
    requires Inv(w.db) && id in w.active && LocalOk(cfg, w.db, w.active[id]) && w.active[id].done == LENGTH
    ensures var t := w.active[id]; var last := Act(cfg, w, Finish(id));
            && last.paid == w.paid + [t.order] && last.log == w.log + [t.tx] && last.active == w.active - {id}
            && last.db == Step(cfg, w.db, t.tx).db && Fulfils(cfg, w.db, t.tx)
  {
    DeliveryIsWhole(cfg, w.db, w.active[id]);
    hide Step, Inv, LocalOk;
  }

  /** With no delivery under way every possible transaction takes place. */
  lemma WholeAlone(cfg: Config, w: World, tx: Tx)
    requires w.active == map[] && Possible(w.db, tx)
    ensures var w' := Act(cfg, w, Whole(tx)); w'.db == Step(cfg, w.db, tx).db && w'.log == w.log + [tx]
  {
    hide Step;
  }
}
