/** Entitlement leases end to end: issued and signed by the cloud, checked by the local node.
    Signatures are ideal: one verifies exactly if the cloud signed that very payload. */
module Leases {
  import opened Wrappers
  import opened Text
  import opened Tables
  import opened Handlers
  import opened Integrity
  import opened Steps
  import Replay
  import opened Endurance

  // --- The two best-entitlement queries ---

  predicate Joined(db: Db, e: EntId) {
    e in db.ents && db.ents[e].source in db.keys
  }

  /** Some element of a set of joined rows holding `any` ranks at least all others. */
  lemma {:induction false} TopExists(db: Db, s: set<EntId>, any: EntId) returns (top: EntId)
    requires any in s && forall e | e in s :: Joined(db, e)
    ensures top in s && Joined(db, top) && forall e | e in s :: Joined(db, e) && RanksAtLeast(db, top, e)
  {
    top := any;
    if other :| other in s - {any} {
      var rest := TopExists(db, s - {any}, other);
      if RanksAtLeast(db, rest, any) {
        top := rest;
      }
      forall e | e in s ensures RanksAtLeast(db, top, e) {
        assert e == any || e in s - {any};
        assert e in s - {any} ==> RanksAtLeast(db, rest, e);
      }
    } else {
      forall e | e in s ensures e == any {
        assert e !in s - {any};
      }
    }
  }

  /** A best row exists whenever any row qualifies, so the queries always have an answer. */
  lemma BestExists(db: Db, user: UserId, now: Time)
    requires AnyUsable(db, user, now)
    ensures exists e :: IsBest(db, user, now, e)
  {
    var s := set e | e in db.ents && Usable(db, user, now, e);
    var any :| any in db.ents && Usable(db, user, now, any);
    var top := TopExists(db, s, any);
    assert IsBest(db, user, now, top);
  }

  /** However ties are broken, all answers agree on the limit, the feature count and the expiry. */
  lemma BestAgree(db: Db, user: UserId, now: Time, e: EntId, f: EntId)
    requires IsBest(db, user, now, e) && IsBest(db, user, now, f)
    ensures db.keys[db.ents[e].source].maxDevices == db.keys[db.ents[f].source].maxDevices
    ensures |db.ents[e].features| == |db.ents[f].features| && db.ents[e].expiresAt == db.ents[f].expiresAt
  {
    assert RanksAtLeast(db, e, f) && RanksAtLeast(db, f, e);
  }

  // --- Issuing ---

  /** The transaction answers with this lease. */
  ghost predicate Grants(cfg: Config, db: Db, tx: Tx, lease: Lease) {
    Possible(db, tx) && tx.RequestLease? && Step(cfg, db, tx).result == Ok(LeaseGranted(lease))
  }

  /** What holds at the moment a lease is granted: the requesting user's device is active under
      the lease's device id, the lease's entitlement is the user's, usable, and allows at least
      all of the user's active devices, and the lease lasts 24 hours or as long as it, if shorter. */
  ghost predicate WellGranted(db: Db, r: LeaseRequest, lease: Lease) {
    && lease.user == r.user && lease.device == r.device
    && lease.leaseId == r.leaseId && lease.issuedAt == r.issueAt
    && Usable(db, lease.user, r.pickAt, lease.ent)
    && lease.expiresAt == (var tomorrow := lease.issuedAt + 24 * 3600;
                           if tomorrow <= db.ents[lease.ent].expiresAt then tomorrow
                           else db.ents[lease.ent].expiresAt)
    && lease.features == DEFAULT_FEATURES
    && (exists key :: IsActiveDevice(db, lease.user, lease.device, key))
    && |ActiveDevices(db.devices, lease.user)| <= db.keys[db.ents[lease.ent].source].maxDevices
  }

  /** The device limit is read by a second query at a later time, yet the lease's own
      entitlement satisfies it: rows usable later are usable earlier. */
  lemma GrantedWell(cfg: Config, db: Db, tx: Tx, lease: Lease)
    requires Inv(db) && Grants(cfg, db, tx, lease)
    ensures WellGranted(db, tx.lease, lease)
  {
    var r := tx.lease;
    var pick, limit := r.pick.value, r.limit.value;
    assert Usable(db, r.user, r.pickAt, limit);
    assert RanksAtLeast(db, pick, limit);
    assert EntitlementOk(db.keys, db.ents[pick]) && EntitlementOk(db.keys, db.ents[limit]);
    assert IsActiveDevice(db, lease.user, lease.device, ActiveDevice(db, r.user, r.device).value);
  }

  // --- Device ids ---

  /** Every device row carries the id derived from its user and fingerprint. */
  ghost predicate DevicesDerived(devices: map<DeviceKey, Device>) {
    forall key | key in devices :: devices[key].id == Derived(key.user, key.fingerprint)
  }

  lemma OrderDevices(cfg: Config, db: Db, tx: Tx)
    requires Possible(db, tx) && (tx.PlaceOrder? || tx.ConfirmById? || tx.ConfirmByRef?)
    ensures Step(cfg, db, tx).db.devices == db.devices
  {
  }

  /** Only activations and leases touch the devices table. */
  lemma DevicesStay(cfg: Config, db: Db, tx: Tx)
    requires Possible(db, tx) && !tx.ActivateDevice? && !tx.RequestLease?
    ensures Step(cfg, db, tx).db.devices == db.devices
  {
    hide StripeWebhook, WechatWebhook, CreateOrder, ConfirmOrder, HasFullAccess;
    if tx.PlaceOrder? || tx.ConfirmById? || tx.ConfirmByRef? { OrderDevices(cfg, db, tx); }
    match tx {
      case CreateKeys(request) =>
        if CreateKeysBody(db, request).Ok? { FreeKeysOnly(db, request, KeyCount(request.count)); }
      case StripeEvent(d) => StripeShape(db, d);
      case WechatEvent(d) => WechatShape(cfg, db, d);
      case _ =>
    }
  }

  lemma ActivateDerives(db: Db, user: UserId, name: string, fingerprint: string, limit: Option<EntId>, now: Time)
    requires DevicesDerived(db.devices)
    ensures DevicesDerived(Activate(db, user, name, fingerprint, limit, now).db.devices)
  {
  }

  lemma LeaseDerives(cfg: Config, db: Db, r: LeaseRequest)
    requires DevicesDerived(db.devices)
    ensures DevicesDerived(IssueLease(cfg, db, r).db.devices)
  {
  }

  lemma StepDerives(cfg: Config, db: Db, tx: Tx)
    requires Possible(db, tx) && DevicesDerived(db.devices)
    ensures DevicesDerived(Step(cfg, db, tx).db.devices)
  {
    match tx {
      case ActivateDevice(u, name, fp, _, limit, at) => ActivateDerives(db, u, name, fp, limit, at);
      case RequestLease(r) => LeaseDerives(cfg, db, r);
      case _ => DevicesStay(cfg, db, tx);
    }
  }

  /** Activating a fingerprint yields the id derived from it, unless the row is older than that
      scheme: then the old id stays, whatever it is. */
  lemma ActivatedId(db: Db, user: UserId, name: string, fingerprint: string, limit: Option<EntId>, now: Time)
    requires Activate(db, user, name, fingerprint, limit, now).result.Ok?
    ensures var key := DeviceKey(user, fingerprint);
            Activate(db, user, name, fingerprint, limit, now).result.value.id ==
              if key in db.devices then db.devices[key].id else Derived(user, fingerprint)
  {
  }

  // --- Who gets what ---

  /** All entitlements carry the same features, so the best row allows the most devices. */
  lemma BestAllowsMost(db: Db, user: UserId, now: Time, best: EntId, e: EntId)
    requires Inv(db) && IsBest(db, user, now, best) && Usable(db, user, now, e)
    ensures db.keys[db.ents[e].source].maxDevices <= db.keys[db.ents[best].source].maxDevices
  {
    assert EntitlementOk(db.keys, db.ents[best]) && EntitlementOk(db.keys, db.ents[e]);
    assert RanksAtLeast(db, best, e);
  }

  /** Some usable entitlement of the user allows `n` devices. */
  ghost predicate Allowed(db: Db, user: UserId, now: Time, n: nat) {
    exists e :: Usable(db, user, now, e) && n <= db.keys[db.ents[e].source].maxDevices
  }

  lemma BestDecides(db: Db, user: UserId, now: Time, answer: Option<EntId>, n: nat)
    requires Inv(db) && QueryAnswer(db, user, now, answer)
    ensures Allowed(db, user, now, n) <==> answer.Some? && n <= db.keys[db.ents[answer.value].source].maxDevices
  {
    if e :| Usable(db, user, now, e) && n <= db.keys[db.ents[e].source].maxDevices {
      assert e in db.ents && Usable(db, user, now, e);
      BestAllowsMost(db, user, now, answer.value, e);
    }
  }

  /** A device is activated if and only if it has a name and a fingerprint, the user exists, and
      some usable entitlement allows it: any will do for a device that is active already, one
      with room for another otherwise. Exactly that device then joins the active ones. */
  lemma ActivatedExactly(db: Db, user: UserId, name: string, fingerprint: string, limit: Option<EntId>, queryAt: Time,
                         now: Time)
    requires Inv(db) && DevicesDerived(db.devices) && QueryAnswer(db, user, queryAt, limit)
    ensures var active, key := ActiveDevices(db.devices, user), DeviceKey(user, fingerprint);
            Activate(db, user, name, fingerprint, limit, now).result.Ok? <==>
              && !Blank(name) && !Blank(fingerprint) && user in db.users
              && Allowed(db, user, queryAt, if key in active then 0 else |active| + 1)
    ensures Activate(db, user, name, fingerprint, limit, now).result.Ok? ==>
              ActiveDevices(Activate(db, user, name, fingerprint, limit, now).db.devices, user)
              == ActiveDevices(db.devices, user) + {DeviceKey(user, fingerprint)}
  {
    hide UpsertDevice, Inv, Allowed, DevicesDerived, Blank;
    var active, key := ActiveDevices(db.devices, user), DeviceKey(user, fingerprint);
    BestDecides(db, user, queryAt, limit, if key in active then 0 else |active| + 1);
    if user in db.users {
      DerivedUpserts(db, user, fingerprint, name, now);
      UpsertCounts(db, key, Device(Derived(user, fingerprint), name, Active, now, Some(now)));
    }
  }

  /** With derived ids throughout, no other row can hold the new device's id. */
  lemma DerivedUpserts(db: Db, user: UserId, fingerprint: string, name: string, now: Time)
    requires DevicesDerived(db.devices) && user in db.users
    ensures UpsertDevice(db, DeviceKey(user, fingerprint),
                         Device(Derived(user, fingerprint), name, Active, now, Some(now))).Ok?
  {
  }

  /** A lease is issued if and only if the device is an active one of the user, some entitlement
      is usable at the first query, at the second one some usable entitlement allows all active
      devices, and the cloud can sign. */
  lemma IssuedExactly(cfg: Config, db: Db, r: LeaseRequest)
    requires Inv(db) && Possible(db, RequestLease(r))
    ensures IssueLease(cfg, db, r).result.Ok? <==>
              && (exists key :: IsActiveDevice(db, r.user, r.device, key))
              && AnyUsable(db, r.user, r.pickAt)
              && Allowed(db, r.user, r.limitAt, |ActiveDevices(db.devices, r.user)|)
              && cfg.signingKey
  {
    BestDecides(db, r.user, r.limitAt, r.limit, |ActiveDevices(db.devices, r.user)|);
    hide Inv, Allowed, ActiveDevices, TouchDevice, NewLease;
  }

  // --- The two lease queries apart ---

  /** Other handlers may commit between the query that picks the lease's entitlement (in `db`)
      and the one that reads the limit (in `db'`). The second limit is then within the first
      exactly if no entitlement granted in between allows more devices than the picked one. */
  lemma LimitSurvivesExactly(db: Db, db': Db, user: UserId, pickAt: Time, pick: EntId, limitAt: Time, limit: EntId)
    requires Inv(db) && Inv(db') && Endures(db, db') && pickAt <= limitAt
    requires IsBest(db, user, pickAt, pick) && IsBest(db', user, limitAt, limit)
    ensures var picked := db.keys[db.ents[pick].source].maxDevices;
            db'.keys[db'.ents[limit].source].maxDevices <= picked <==>
              forall e | Usable(db', user, limitAt, e) && e !in db.ents ::
                db'.keys[db'.ents[e].source].maxDevices <= picked
  {
    var picked := db.keys[db.ents[pick].source].maxDevices;
    forall e | Usable(db', user, limitAt, e)
      ensures db'.keys[db'.ents[e].source].maxDevices <= db'.keys[db'.ents[limit].source].maxDevices
    {
      BestAllowsMost(db', user, limitAt, limit, e);
    }
    if limit in db.ents {
      assert EntitlementOk(db.keys, db.ents[limit]);
      assert Usable(db, user, pickAt, limit);
      BestAllowsMost(db, user, pickAt, pick, limit);
    }
  }

  lemma ActivateTouchesDevices(db: Db, user: UserId, name: string, fingerprint: string, limit: Option<EntId>, now: Time)
    ensures var db' := Activate(db, user, name, fingerprint, limit, now).db; db' == db.(devices := db'.devices)
  {
    hide ActiveDevices, Blank;
  }

  /** The failing side is not empty: redeeming a larger key and activating one more device
      between the two queries lets the check pass with more active devices than the picked
      entitlement, and so the lease's, allows. */
  lemma GrantBetweenQueries(db: Db, user: UserId, pickAt: Time, pick: EntId, k: KeyId, e: EntId, name: string,
                            fingerprint: string, limit: Option<EntId>, at: Time, limitAt: Time)
    requires Inv(db) && DevicesDerived(db.devices) && user in db.users && IsBest(db, user, pickAt, pick)
    requires k in db.keys && db.keys[k].status.Available? && e !in db.ents
    requires var n := |ActiveDevices(db.devices, user)|;
             db.keys[db.ents[pick].source].maxDevices == n < db.keys[k].maxDevices
    requires !Blank(name) && !Blank(fingerprint) && DeviceKey(user, fingerprint) !in ActiveDevices(db.devices, user)
    requires pickAt <= at <= limitAt < at + db.keys[k].days * DAY
    requires var redeemed := Redeem(db, user, db.keys[k].code, e, at).db;
             QueryAnswer(redeemed, user, at, limit)
    ensures var redeemed := Redeem(db, user, db.keys[k].code, e, at).db;
            var db' := Activate(redeemed, user, name, fingerprint, limit, at).db;
            && |ActiveDevices(db'.devices, user)| > db.keys[db.ents[pick].source].maxDevices
            && Allowed(db', user, limitAt, |ActiveDevices(db'.devices, user)|)
  {
    hide Redeem, Activate, Inv, QueryAnswer, ActiveDevices, Blank, IsBest;
    var redeemed := Redeem(db, user, db.keys[k].code, e, at).db;
    Replay.RedeemProgress(db, user, db.keys[k].code, e, at);
    RedeemCodeKeeps(db, user, db.keys[k].code, e, at);
    assert Usable(redeemed, user, at, e) && Usable(redeemed, user, limitAt, e);
    ActivatedExactly(redeemed, user, name, fingerprint, limit, at, at);
    ActivateTouchesDevices(redeemed, user, name, fingerprint, limit, at);
    var db' := Activate(redeemed, user, name, fingerprint, limit, at).db;
    assert Usable(db', user, limitAt, e);
  }

  /** Granting test access gives an allow-listed user full access, and granting it again, with
      whatever ids, changes nothing. */
  lemma TestAccessOnce(cfg: Config, db: Db, user: UserId, now: Time, grant: Grant, again: Grant)
    requires Inv(db) && cfg.testAccess && user in db.users && cfg.testDays > 0 && cfg.testDevices > 0
    requires grant.key.id !in db.keys && !CodeTaken(db.keys, grant.key.code) && grant.ent !in db.ents && now <= grant.at
    ensures var first := GrantTestAccess(cfg, db, user, true, now, grant);
            && first.result.Ok? && HasFullAccess(first.db, user, cfg.testDevices, now)
            && GrantTestAccess(cfg, first.db, user, true, now, again) == Outcome(first.db, Ok(()))
  {
    if !HasFullAccess(db, user, cfg.testDevices, now) {
      var key := TestKey(cfg, grant.key.code);
      Replay.NoEntitlementYet(db, grant.key.id);
      Replay.GrantExactly(db, key, user, grant);
      var db' := GrantKey(db, key, user, grant).value;
      assert Usable(db', user, now, grant.ent);
    }
  }

  /** Test access has a transaction of its own: a refused activation or lease request leaves the
      database as that transaction left it, which is changed exactly if access was granted. */
  lemma RefusalKeepsAccess(cfg: Config, db: Db, user: UserId, listed: bool, now: Time, grant: Grant)
    requires Inv(db) && user in db.users && cfg.testDays > 0 && cfg.testDevices > 0
    requires grant.key.id !in db.keys && !CodeTaken(db.keys, grant.key.code) && grant.ent !in db.ents
    ensures var first := GrantTestAccess(cfg, db, user, listed, now, grant);
            && first.result.Ok?
            && (first.db != db <==> cfg.testAccess && listed && !HasFullAccess(db, user, cfg.testDevices, now))
            && (forall name, fp, limit, at | Activate(first.db, user, name, fp, limit, at).result.Err? ::
                  Activate(first.db, user, name, fp, limit, at).db == first.db)
            && (forall r | cfg.signingKey && IssueLease(cfg, first.db, r).result.Err? ::
                  IssueLease(cfg, first.db, r).db == first.db)
  {
    if cfg.testAccess && listed && !HasFullAccess(db, user, cfg.testDevices, now) {
      Replay.NoEntitlementYet(db, grant.key.id);
      Replay.GrantExactly(db, TestKey(cfg, grant.key.code), user, grant);
      assert GrantKey(db, TestKey(cfg, grant.key.code), user, grant).value.keys != db.keys;
    }
    hide Inv, HasFullAccess, GrantKey, ActivateBody, LeaseBody;
  }

  /** Without a signing key a request that would be granted answers "service unavailable", and
      its one write, the device's last-seen time, stays; any other request is unaffected. */
  lemma KeylessRequestTouches(cfg: Config, db: Db, r: LeaseRequest)
    requires !cfg.signingKey
    ensures var keyed, keyless := IssueLease(cfg.(signingKey := true), db, r), IssueLease(cfg, db, r);
            && keyless == Outcome(keyed.db, Err(if keyed.result.Ok? then ServiceUnavailable else keyed.result.error))
            && (keyless.result == Err(ServiceUnavailable) <==> keyed.result.Ok?)
            && (if keyed.result.Ok? then
                  exists key | key in db.devices :: IsActiveDevice(db, r.user, r.device, key)
                    && keyless.db == db.(devices := db.devices[key := db.devices[key].(lastSeen := Some(r.touchAt))])
                else keyless.db == db)
  {
    hide ActiveDevices, NewLease;
    if LeaseBody(db, r).Ok? {
      var key := ActiveDevice(db, r.user, r.device).value;
      assert key in db.devices && IsActiveDevice(db, r.user, r.device, key);
    }
  }

  // --- Signing and verification ---

  datatype Payload = Payload(issuer: string, audience: string, claims: Lease)
  datatype SignatureValue = Genuine(payload: Payload) | Garbage
  datatype Signature = Signature(alg: string, kid: string, issuer: string, audience: string, value: SignatureValue)
  datatype SignedLease = SignedLease(lease: Lease, signature: Option<Signature>)

  /** What the cloud hands out for a granted lease. */
  function Sign(cfg: Config, kid: string, lease: Lease): SignedLease {
    SignedLease(lease, Some(Signature("RS256", kid, cfg.issuer, cfg.audience,
                                      Genuine(Payload(cfg.issuer, cfg.audience, lease)))))
  }

  /** The database after the first `i` transactions of a run. */
  ghost function StateAt(cfg: Config, db: Db, txs: seq<Tx>, i: nat): Db
    requires PossibleRun(cfg, db, txs) && i <= |txs|
    decreases i
  {
    if i == 0 then db else StateAt(cfg, Step(cfg, db, txs[0]).db, txs[1..], i - 1)
  }

  /** What the cloud signs in answering one transaction. */
  ghost function SignedBy(cfg: Config, db: Db, tx: Tx): set<Payload>
    requires Possible(db, tx)
  {
    var result := Step(cfg, db, tx).result;
    if result.Ok? && result.value.LeaseGranted? then {Payload(cfg.issuer, cfg.audience, result.value.lease)} else {}
  }

  /** The payloads the cloud signs in the course of a run. */
  ghost function SignedIn(cfg: Config, db: Db, txs: seq<Tx>): set<Payload>
    requires PossibleRun(cfg, db, txs)
    decreases |txs|
  {
    if txs == [] then {} else SignedBy(cfg, db, txs[0]) + SignedIn(cfg, Step(cfg, db, txs[0]).db, txs[1..])
  }

  lemma SignedByGrants(cfg: Config, db: Db, tx: Tx, payload: Payload)
    requires Possible(db, tx)
    ensures payload in SignedBy(cfg, db, tx) <==>
              payload.issuer == cfg.issuer && payload.audience == cfg.audience && Grants(cfg, db, tx, payload.claims)
  {
  }

  datatype NodeConfig = NodeConfig(realOzon: bool, allowUnsigned: bool, hasKey: bool, issuer: string, audience: string)

  /** `signed` is what has been signed under the node's public key. */
  predicate SignatureVerifies(node: NodeConfig, signed: set<Payload>, l: SignedLease) {
    if l.signature.None? then node.allowUnsigned
    else
      var s := l.signature.value;
      && s.alg == "RS256" && s.issuer == node.issuer && s.audience == node.audience && node.hasKey
      && var payload := Payload(s.issuer, s.audience, l.lease);
      s.value == Genuine(payload) && payload in signed
  }

  function ValidateLease(node: NodeConfig, signed: set<Payload>, l: SignedLease, feature: Feature, now: Time)
    : Result<()>
  {
    var _ :- Need(now < l.lease.expiresAt, BadRequest);
    var _ :- Need(SignatureVerifies(node, signed, l), BadRequest);
    Need(feature in l.lease.features, Forbidden)
  }

  /** The gate in front of every feature of the node; `installed` is the cached or stored lease. */
  function RequireLease(node: NodeConfig, signed: set<Payload>, installed: Option<SignedLease>, feature: Feature,
                        fingerprint: string, now: Time): Result<()> {
    if !node.realOzon && node.allowUnsigned then Ok(())
    else if installed.None? then Err(Forbidden)
    else
      var _ :- ValidateLease(node, signed, installed.value, feature, now);
      Need(installed.value.lease.device == Derived(installed.value.lease.user, fingerprint), Forbidden)
  }

  /** The next state of a run, with what every state of a run satisfies. */
  lemma NextState(cfg: Config, db: Db, tx: Tx) returns (next: Db)
    requires Inv(db) && Possible(db, tx)
    ensures next == Step(cfg, db, tx).db && Inv(next)
    ensures DevicesDerived(db.devices) ==> DevicesDerived(next.devices)
  {
    next := Step(cfg, db, tx).db;
    StepKeeps(cfg, db, tx);
    if DevicesDerived(db.devices) {
      StepDerives(cfg, db, tx);
    }
  }

  lemma {:induction false} SignedWasGranted(cfg: Config, db: Db, txs: seq<Tx>, payload: Payload) returns (i: nat)
    requires Inv(db) && PossibleRun(cfg, db, txs) && payload in SignedIn(cfg, db, txs)
    ensures i < |txs| && Inv(StateAt(cfg, db, txs, i))
    ensures Grants(cfg, StateAt(cfg, db, txs, i), txs[i], payload.claims)
    ensures payload.issuer == cfg.issuer && payload.audience == cfg.audience
    ensures DevicesDerived(db.devices) ==> DevicesDerived(StateAt(cfg, db, txs, i).devices)
    decreases |txs|
  {
    hide Step;
    if payload in SignedBy(cfg, db, txs[0]) {
      SignedByGrants(cfg, db, txs[0], payload);
      i := 0;
    } else {
      var next := NextState(cfg, db, txs[0]);
      var j := SignedWasGranted(cfg, next, txs[1..], payload);
      i := j + 1;
      assert txs[1..][j] == txs[i];
    }
  }

  /** Soundness: with unsigned leases disallowed, whatever lease is presented, a passed gate
      means the cloud granted it to that user during the run, well and less than 24 hours ago,
      for the device id derived from this very machine; and if device rows carry derived ids,
      this machine was an active device of the user then. */
  lemma AcceptedWasGranted(cfg: Config, db: Db, txs: seq<Tx>, node: NodeConfig, installed: Option<SignedLease>,
                           feature: Feature, fingerprint: string, now: Time) returns (i: nat)
    requires Inv(db) && PossibleRun(cfg, db, txs) && !node.allowUnsigned
    requires RequireLease(node, SignedIn(cfg, db, txs), installed, feature, fingerprint, now).Ok?
    ensures i < |txs| && installed.Some?
    ensures var then_ := StateAt(cfg, db, txs, i); var lease := installed.value.lease;
            && Grants(cfg, then_, txs[i], lease) && WellGranted(then_, txs[i].lease, lease)
            && feature in lease.features
            && now < lease.issuedAt + DAY && now < then_.ents[lease.ent].expiresAt
            && lease.device == Derived(lease.user, fingerprint)
            && (DevicesDerived(db.devices) ==>
                  DeviceKey(lease.user, fingerprint) in ActiveDevices(then_.devices, lease.user))
  {
    var lease := installed.value.lease;
    i := SignedWasGranted(cfg, db, txs, Payload(node.issuer, node.audience, lease));
    var then_ := StateAt(cfg, db, txs, i);
    GrantedWell(cfg, then_, txs[i], lease);
    var key :| IsActiveDevice(then_, lease.user, lease.device, key);
  }

  lemma {:induction false} GrantedIsSigned(cfg: Config, db: Db, txs: seq<Tx>, i: nat, lease: Lease)
    requires PossibleRun(cfg, db, txs) && i < |txs| && Grants(cfg, StateAt(cfg, db, txs, i), txs[i], lease)
    ensures Payload(cfg.issuer, cfg.audience, lease) in SignedIn(cfg, db, txs)
    decreases i
  {
    if i == 0 {
      SignedByGrants(cfg, db, txs[0], Payload(cfg.issuer, cfg.audience, lease));
    } else {
      GrantedIsSigned(cfg, Step(cfg, db, txs[0]).db, txs[1..], i - 1, lease);
    }
  }

  lemma {:induction false} StateInvariants(cfg: Config, db: Db, txs: seq<Tx>, i: nat)
    requires Inv(db) && DevicesDerived(db.devices) && PossibleRun(cfg, db, txs) && i <= |txs|
    ensures Inv(StateAt(cfg, db, txs, i)) && DevicesDerived(StateAt(cfg, db, txs, i).devices)
    decreases i
  {
    hide Step;
    if i > 0 {
      var next := NextState(cfg, db, txs[0]);
      StateInvariants(cfg, next, txs[1..], i - 1);
    }
  }

  // --- What runs add up to ---

  /** The device bound over whole runs: through expiry, revocation and reactivation, a user's
      active devices never outnumber the limit of some entitlement ever granted to the user;
      no active device is ever retired and no entitlement ever forgotten or given another limit. */
  lemma DeviceBound(cfg: Config, db: Db, txs: seq<Tx>, user: UserId)
    requires Inv(db) && PossibleRun(cfg, db, txs)
    ensures var last := Run(cfg, db, txs);
            && (ActiveDevices(last.devices, user) == {} || exists e :: Covers(last, user, e))
            && ActiveDevices(db.devices, user) <= ActiveDevices(last.devices, user)
            && (forall e | e in db.ents :: e in last.ents && last.ents[e].user == db.ents[e].user
                                           && last.ents[e].source == db.ents[e].source)
            && (forall k | k in db.keys :: k in last.keys && last.keys[k].maxDevices == db.keys[k].maxDevices)
  {
    RunKeeps(cfg, db, txs);
    RunEndures(cfg, db, txs);
    assert Bounded(Run(cfg, db, txs), user);
  }

  lemma {:induction false} StateEndures(cfg: Config, db: Db, txs: seq<Tx>, i: nat)
    requires PossibleRun(cfg, db, txs) && i <= |txs|
    ensures Endures(db, StateAt(cfg, db, txs, i))
    decreases i
  {
    hide Step, Endures;
    if i == 0 {
      Reflexive(db);
    } else {
      var next := Step(cfg, db, txs[0]).db;
      StepEndures(cfg, db, txs[0]);
      StateEndures(cfg, next, txs[1..], i - 1);
      EnduresThrough(db, next, StateAt(cfg, db, txs, i));
    }
  }

  lemma GrantedUnrevoked(cfg: Config, db: Db, tx: Tx, lease: Lease)
    requires Grants(cfg, db, tx, lease)
    ensures lease.ent in db.ents && db.ents[lease.ent].revokedAt.None?
  {
  }

  /** A revoked entitlement grants no lease at any later point of any run. */
  lemma RevokedGrantsNothing(cfg: Config, db: Db, txs: seq<Tx>, i: nat, e: EntId, lease: Lease)
    requires PossibleRun(cfg, db, txs) && i < |txs|
    requires e in db.ents && db.ents[e].revokedAt.Some?
    requires Grants(cfg, StateAt(cfg, db, txs, i), txs[i], lease)
    ensures lease.ent != e
  {
    hide Step;
    StateEndures(cfg, db, txs, i);
    GrantedUnrevoked(cfg, StateAt(cfg, db, txs, i), txs[i], lease);
  }

  /** Some request of the run was answered with this lease. */
  ghost predicate GrantedIn(cfg: Config, db: Db, txs: seq<Tx>, lease: Lease)
    requires PossibleRun(cfg, db, txs)
  {
    exists i: nat | i < |txs| :: Grants(cfg, StateAt(cfg, db, txs, i), txs[i], lease)
  }

  /** The gate exactly, whatever is presented: with unsigned leases disallowed it opens if and only
      if the run granted that very lease, the cloud's unaltered signature is on it, both sides are
      configured alike, the lease has not expired and it is for this machine. */
  lemma GateExactly(cfg: Config, db: Db, txs: seq<Tx>, node: NodeConfig, installed: Option<SignedLease>,
                    feature: Feature, fingerprint: string, now: Time)
    requires Inv(db) && PossibleRun(cfg, db, txs) && !node.allowUnsigned
    ensures RequireLease(node, SignedIn(cfg, db, txs), installed, feature, fingerprint, now).Ok? <==>
              && node.hasKey && node.issuer == cfg.issuer && node.audience == cfg.audience && installed.Some?
              && var lease := installed.value.lease;
              && (exists kid :: installed.value.signature ==
                    Some(Signature("RS256", kid, cfg.issuer, cfg.audience,
                                   Genuine(Payload(cfg.issuer, cfg.audience, lease)))))
              && GrantedIn(cfg, db, txs, lease)
              && now < lease.expiresAt && lease.device == Derived(lease.user, fingerprint)
  {
    hide Step, Inv;
    EveryFeature(feature);
    if installed.Some? {
      var lease := installed.value.lease;
      var payload := Payload(cfg.issuer, cfg.audience, lease);
      if installed.value.signature.Some? {
        var s := installed.value.signature.value;
        assert s == Signature(s.alg, s.kid, s.issuer, s.audience, s.value);
        SignedPayloads(cfg, db, txs, Payload(s.issuer, s.audience, lease));
      }
      if payload in SignedIn(cfg, db, txs) {
        var i := SignedWasGranted(cfg, db, txs, payload);
        GrantedWell(cfg, StateAt(cfg, db, txs, i), txs[i], lease);
      } else if i: nat :| i < |txs| && Grants(cfg, StateAt(cfg, db, txs, i), txs[i], lease) {
        GrantedIsSigned(cfg, db, txs, i, lease);
      }
    }
  }

  lemma SignedPayloads(cfg: Config, db: Db, txs: seq<Tx>, payload: Payload)
    requires Inv(db) && PossibleRun(cfg, db, txs)
    ensures payload in SignedIn(cfg, db, txs) ==> payload.issuer == cfg.issuer && payload.audience == cfg.audience
  {
    if payload in SignedIn(cfg, db, txs) {
      var i := SignedWasGranted(cfg, db, txs, payload);
    }
  }

  /** Where unsigned leases are allowed: without the real shop the gate always opens; with it an
      unsigned lease needs the feature, the machine and time left. */
  lemma UnsignedGateExactly(node: NodeConfig, signed: set<Payload>, installed: Option<SignedLease>, feature: Feature,
                            fingerprint: string, now: Time)
    requires node.allowUnsigned && (installed.Some? ==> installed.value.signature.None?)
    ensures RequireLease(node, signed, installed, feature, fingerprint, now).Ok? <==>
              || !node.realOzon
              || (&& installed.Some? && now < installed.value.lease.expiresAt
                  && feature in installed.value.lease.features
                  && installed.value.lease.device == Derived(installed.value.lease.user, fingerprint))
  {
  }

  lemma EveryFeature(feature: Feature)
    ensures feature in DEFAULT_FEATURES
  {
    assert DEFAULT_FEATURES[0] == OzonRead && DEFAULT_FEATURES[1] == OzonWriteMock
           && DEFAULT_FEATURES[2] == DraftImport1688Mock && DEFAULT_FEATURES[3] == OpenClawBridge
           && DEFAULT_FEATURES[4] == LocalApproval;
  }

  /** Completeness: a lease granted anywhere in a run from an empty device table is for some
      active device of the user, and passes the gate on that device's fingerprint at a given
      time exactly until it expires, for every feature and whatever is revoked meanwhile. */
  lemma GrantedIsAccepted(cfg: Config, db: Db, txs: seq<Tx>, i: nat, lease: Lease, kid: string, node: NodeConfig,
                          feature: Feature, now: Time) returns (fingerprint: string)
    requires Inv(db) && db.devices == map[] && PossibleRun(cfg, db, txs)
    requires i < |txs| && Grants(cfg, StateAt(cfg, db, txs, i), txs[i], lease)
    requires node.hasKey && node.issuer == cfg.issuer && node.audience == cfg.audience && !node.allowUnsigned
    ensures DeviceKey(lease.user, fingerprint) in ActiveDevices(StateAt(cfg, db, txs, i).devices, lease.user)
    ensures RequireLease(node, SignedIn(cfg, db, txs), Some(Sign(cfg, kid, lease)), feature, fingerprint, now).Ok? <==>
              now < lease.expiresAt
    ensures var ents := StateAt(cfg, db, txs, i).ents;
            && lease.ent in ents && lease.issuedAt == txs[i].lease.issueAt
            && (now < lease.expiresAt <==> now < lease.issuedAt + 24 * 3600 && now < ents[lease.ent].expiresAt)
  {
    hide Step;
    StateInvariants(cfg, db, txs, i);
    var then_ := StateAt(cfg, db, txs, i);
    GrantedWell(cfg, then_, txs[i], lease);
    var key :| IsActiveDevice(then_, lease.user, lease.device, key);
    fingerprint := key.fingerprint;
    GateExactly(cfg, db, txs, node, Some(Sign(cfg, kid, lease)), feature, fingerprint, now);
  }

  /** Why the device table had to be emptied when ids became derived: a lease for a row that
      kept a random id is rejected on every machine, under whatever signature. */
  lemma LegacyDeviceLocksOut(cfg: Config, db: Db, txs: seq<Tx>, node: NodeConfig, l: SignedLease, feature: Feature,
                             fingerprint: string, now: Time)
    requires PossibleRun(cfg, db, txs) && !node.allowUnsigned && l.lease.device.Legacy?
    ensures RequireLease(node, SignedIn(cfg, db, txs), Some(l), feature, fingerprint, now).Err?
  {
  }
}
