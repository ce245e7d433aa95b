/** Which orders can be placed at all. The schema admits lower-case currencies only, while
    WeChat Pay orders carry an upper-case one. */
module OrderEntry {
  import opened Wrappers
  import opened Text
  import opened Tables
  import opened Handlers
  import opened Integrity
  import opened Steps
  import opened Payments

  /** An upper-cased text never passes the schema's currency check. */
  lemma UpperFailsCheck(s: string)
    ensures !CurrencyCheck(AsciiUpper(s))
  {
    var u := AsciiUpper(s);
    if |u| == 3 {
      assert u[0] == UpperChar(s[0]) && u[0] in u;
    }
  }

  /** Whether the request's plan is the one plan there is. */
  predicate AsksStandardPlan(requested: Option<string>) {
    requested.Some? && !Blank(requested.value) ==> Trim(requested.value) == STANDARD_PLAN
  }

  /** An order is placed exactly when manual or Stripe payments are configured with a
      non-negative amount and a three-letter currency, the plan is the standard one, the user
      exists and the id and reference are new. WeChat Pay is not among the cases. */
  lemma PlacedExactly(cfg: Config, db: Db, user: UserId, requested: Option<string>, o: OrderId, reference: string)
    ensures CreateOrder(cfg, db, user, requested, o, reference).result.Ok? <==>
              && AsksStandardPlan(requested)
              && (cfg.payment.UseManual? || cfg.payment.UseStripe?)
              && cfg.stripeAmount >= 0 && CurrencyCheck(AsciiLower(Trim(cfg.stripeCurrency)))
              && user in db.users && o !in db.orders && !ReferenceTaken(db.orders, reference)
  {
    UpperFailsCheck(Trim(cfg.wechatCurrency));
  }

  /** A request under a WeChat Pay configuration that passes every check made before the insert
      (the configuration check demands exactly this currency) fails with an internal error. */
  lemma WechatOrderRefused(cfg: Config, db: Db, user: UserId, o: OrderId, reference: string)
    requires cfg.payment.UseWechatPay? && AsciiUpper(Trim(cfg.wechatCurrency)) == "CNY" && cfg.wechatAmount > 0
    ensures CreateOrder(cfg, db, user, None, o, reference) == Outcome(db, Err(Internal))
  {
    UpperFailsCheck(Trim(cfg.wechatCurrency));
  }

  predicate NoWechatOrders(db: Db) {
    forall o | o in db.orders :: !db.orders[o].provider.WechatPay?
  }

  lemma StepAddsNoWechatOrder(cfg: Config, db: Db, tx: Tx)
    requires Inv(db) && Possible(db, tx) && NoWechatOrders(db)
    ensures NoWechatOrders(Step(cfg, db, tx).db)
  {
    hide StripeWebhook, WechatWebhook, ConfirmOrder, Redeem, GrantTestAccess, Activate, IssueLease;
    var o, row := StepOrders(cfg, db, tx);
    if tx.PlaceOrder? {
      PlacedExactly(cfg, db, tx.user, tx.plan, tx.order, tx.reference);
    }
  }

  /** No run adds a WeChat Pay order, so paid WeChat deliveries are all answered "not found". */
  lemma {:induction false} WechatOrdersNeverAppear(cfg: Config, db: Db, txs: seq<Tx>, d: WechatDelivery)
    requires Inv(db) && PossibleRun(cfg, db, txs) && NoWechatOrders(db)
    ensures NoWechatOrders(Run(cfg, db, txs))
    ensures WechatPaid(d) ==> WechatWebhook(cfg, Run(cfg, db, txs), d).result == Err(NotFound)
    decreases |txs|
  {
    if txs != [] {
      hide Step;
      StepAddsNoWechatOrder(cfg, db, txs[0]);
      StepKeeps(cfg, db, txs[0]);
      WechatOrdersNeverAppear(cfg, Step(cfg, db, txs[0]).db, txs[1..], d);
    }
  }
}
