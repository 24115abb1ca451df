/**
 * The plan synchroniser: billing-provider webhook events become set-to-value writes of
 * plan, status and period end on the shared entitlement table.
 */
module Billing {
  import opened Wrappers
  import opened Entitlements

  type CustomerId = string
  type Email = string

  /** The webhook events the handler distinguishes; every other type is `Other`. */
  datatype Event =
    | CheckoutCompleted(metadataUserId: Option<string>, clientReferenceId: Option<string>)
    | SubscriptionUpdated(customer: CustomerId, subscriptionStatus: string, currentPeriodEnd: int)
    | SubscriptionDeleted(customer: CustomerId)
    | Other(eventType: string)

  /** One upsert the handler asks of the entitlement table. `periodEnd == None` is the
      source's `undefined`: an update leaves the stored value alone, a create stores null. */
  datatype PlanWrite = PlanWrite(user: UserId, plan: Plan, status: EntitlementStatus, periodEnd: Option<Timestamp>)

  /** Stripe reports `current_period_end` in seconds; a `Date` is built from milliseconds. */
  const MS_PER_SECOND: int := 1000

  /** A JavaScript string that is present and non-empty, i.e. truthy. */
  predicate Truthy(s: Option<string>)
  {
    s.Some? && s.value != ""
  }

  /** `session.metadata?.userId || session.client_reference_id`, then `if (userId)`. */
  function CheckoutUser(metadataUserId: Option<string>, clientReferenceId: Option<string>): (u: Option<UserId>)
    ensures u.Some? <==> Truthy(metadataUserId) || Truthy(clientReferenceId)
    ensures Truthy(metadataUserId) ==> u == metadataUserId
    ensures !Truthy(metadataUserId) && Truthy(clientReferenceId) ==> u == clientReferenceId
  {
    if Truthy(metadataUserId) then metadataUserId
    else if Truthy(clientReferenceId) then clientReferenceId
    else None
  }

  /** The application user behind a billing customer: the customer's email (when it has a
      non-empty one), then the user registered with that email. */
  function CustomerUser(customer: CustomerId, emails: map<CustomerId, Email>, users: map<Email, UserId>): (u: Option<UserId>)
    ensures u.Some? <==> customer in emails && emails[customer] != "" && emails[customer] in users
    ensures u.Some? ==> u.value == users[emails[customer]]
  {
    if customer in emails && emails[customer] != "" && emails[customer] in users then
      Some(users[emails[customer]])
    else
      None
  }

  /** The write handleWebhook performs for an event, or None when it performs none. */
  function WriteFor(ev: Event, emails: map<CustomerId, Email>, users: map<Email, UserId>): (w: Option<PlanWrite>)
    ensures ev.Other? ==> w == None
    ensures ev.CheckoutCompleted? ==>
              (w.Some? <==> CheckoutUser(ev.metadataUserId, ev.clientReferenceId).Some?) &&
              (w.Some? ==> w.value == PlanWrite(CheckoutUser(ev.metadataUserId, ev.clientReferenceId).value,
                                                PRO, ACTIVE, None))
    ensures ev.SubscriptionUpdated? ==>
              (w.Some? <==> CustomerUser(ev.customer, emails, users).Some?) &&
              (w.Some? ==> w.value.user == CustomerUser(ev.customer, emails, users).value &&
                           (w.value.plan == PRO <==> ev.subscriptionStatus == "active") &&
                           (w.value.status == ACTIVE <==> ev.subscriptionStatus == "active") &&
                           w.value.periodEnd == Some(ev.currentPeriodEnd * MS_PER_SECOND))
    ensures ev.SubscriptionDeleted? ==>
              (w.Some? <==> CustomerUser(ev.customer, emails, users).Some?) &&
              (w.Some? ==> w.value == PlanWrite(CustomerUser(ev.customer, emails, users).value,
                                                FREE, INACTIVE, None))
  {
    match ev
    case CheckoutCompleted(meta, ref) =>
      (match CheckoutUser(meta, ref)
       case Some(u) => Some(PlanWrite(u, PRO, ACTIVE, None))
       case None => None)
    case SubscriptionUpdated(customer, subStatus, periodEndSeconds) =>
      (match CustomerUser(customer, emails, users)
       case Some(u) =>
         var isActive := subStatus == "active";
         Some(PlanWrite(u, if isActive then PRO else FREE, if isActive then ACTIVE else INACTIVE,
                        Some(periodEndSeconds * MS_PER_SECOND)))
       case None => None)
    case SubscriptionDeleted(customer) =>
      (match CustomerUser(customer, emails, users)
       case Some(u) => Some(PlanWrite(u, FREE, INACTIVE, None))
       case None => None)
    case Other(_) => None
  }

  /** updateEntitlement's upsert: plan, status and (when given) period end are set; the
      usage fields of an existing record are untouched; a missing record is created. */
  function Upsert(records: map<UserId, Entitlement>, w: PlanWrite): (r: map<UserId, Entitlement>)
    ensures r.Keys == records.Keys + {w.user}
    ensures forall u :: u in records && u != w.user ==> r[u] == records[u]
    ensures r[w.user].plan == w.plan && r[w.user].status == w.status
    ensures w.user in records ==> r[w.user].usageCount == records[w.user].usageCount &&
                                  r[w.user].lastUsageDate == records[w.user].lastUsageDate
    ensures w.user !in records ==> r[w.user].usageCount == 0 && r[w.user].lastUsageDate == None
    ensures r[w.user].periodEnd == (if w.periodEnd.Some? then w.periodEnd
                                    else if w.user in records then records[w.user].periodEnd
                                    else None)
  {
    if w.user in records then
      var e := records[w.user];
      records[w.user := e.(plan := w.plan, status := w.status,
                           periodEnd := if w.periodEnd.Some? then w.periodEnd else e.periodEnd)]
    else
      records[w.user := Entitlement(w.plan, w.status, 0, None, w.periodEnd)]
  }

  /** The table after handleWebhook has processed one event. */
  function ApplyEvent(records: map<UserId, Entitlement>, ev: Event,
                      emails: map<CustomerId, Email>, users: map<Email, UserId>): (r: map<UserId, Entitlement>)
    ensures WriteFor(ev, emails, users).None? ==> r == records
    ensures forall u :: u in records ==> u in r && r[u].usageCount == records[u].usageCount &&
                                         r[u].lastUsageDate == records[u].lastUsageDate
    ensures forall u :: u in r && u !in records ==> r[u].usageCount == 0 && r[u].lastUsageDate == None
  {
    match WriteFor(ev, emails, users)
    case None => records
    case Some(w) => Upsert(records, w)
  }

  /** updateEntitlement against the shared table. */
  method UpdateEntitlement(store: EntitlementStore, user: UserId, plan: Plan, status: EntitlementStatus,
                           periodEnd: Option<Timestamp>)
    modifies store
    ensures store.records == Upsert(old(store.records), PlanWrite(user, plan, status, periodEnd))
  {
    if user in store.records {
      var e := store.records[user];
      var end := if periodEnd.Some? then periodEnd else e.periodEnd;
      store.records := store.records[user := e.(plan := plan, status := status, periodEnd := end)];
    } else {
      store.records := store.records[user := Entitlement(plan, status, 0, None, periodEnd)];
    }
  }

  /** handleWebhook: one branch per handled event type; the customer-to-email lookup
      (`customers.retrieve`) and the email-to-user lookup are the maps `emails` and `users`. */
  method HandleWebhook(store: EntitlementStore, ev: Event,
                       emails: map<CustomerId, Email>, users: map<Email, UserId>)
    modifies store
    ensures store.records == ApplyEvent(old(store.records), ev, emails, users)
  {
    match ev {
      case CheckoutCompleted(meta, ref) =>
        var userId := if Truthy(meta) then meta else ref;
        if Truthy(userId) {
          UpdateEntitlement(store, userId.value, PRO, ACTIVE, None);
        }
      case SubscriptionUpdated(customer, subStatus, periodEndSeconds) =>
        if customer in emails && emails[customer] != "" {
          var email := emails[customer];
          if email in users {
            var isActive := subStatus == "active";
            UpdateEntitlement(store, users[email], if isActive then PRO else FREE,
                              if isActive then ACTIVE else INACTIVE,
                              Some(periodEndSeconds * MS_PER_SECOND));
          }
        }
      case SubscriptionDeleted(customer) =>
        if customer in emails && emails[customer] != "" {
          var email := emails[customer];
          if email in users {
            UpdateEntitlement(store, users[email], FREE, INACTIVE, None);
          }
        }
      case Other(_) =>
    }
  }

  /** Writing the same values twice gives the table writing them once gives. */
  lemma UpsertIdempotent(records: map<UserId, Entitlement>, w: PlanWrite)
    ensures Upsert(Upsert(records, w), w) == Upsert(records, w)
  {
    var once := Upsert(records, w);
    var twice := Upsert(once, w);
    assert twice.Keys == once.Keys;
    assert twice[w.user] == once[w.user];
  }

  /** At-least-once delivery is harmless: handling an event a second time changes nothing. */
  lemma RedeliveryIsHarmless(records: map<UserId, Entitlement>, ev: Event,
                             emails: map<CustomerId, Email>, users: map<Email, UserId>)
    ensures ApplyEvent(ApplyEvent(records, ev, emails, users), ev, emails, users)
         == ApplyEvent(records, ev, emails, users)
  {
    match WriteFor(ev, emails, users)
    case None =>
    case Some(w) => UpsertIdempotent(records, w);
  }

  /** A checkout completion makes the user PRO and ACTIVE but keeps any period end already
      stored, because the handler passes no period end. */
  lemma CheckoutKeepsPeriodEnd(records: map<UserId, Entitlement>, user: UserId, ref: Option<string>,
                               emails: map<CustomerId, Email>, users: map<Email, UserId>)
    requires user != "" && user in records
    ensures var r := ApplyEvent(records, CheckoutCompleted(Some(user), ref), emails, users);
            r[user].plan == PRO && r[user].status == ACTIVE &&
            r[user].periodEnd == records[user].periodEnd
  {
  }

  /** A PRO user's calls stamp today's date without touching the counter, and a downgrade
      keeps the counter too; so a PRO user whose counter is at the free limit and who is
      downgraded later that day gets no free admission for the rest of the day. */
  lemma DowngradeInheritsStaleCounter(records: map<UserId, Entitlement>, user: UserId, customer: CustomerId,
                                      emails: map<CustomerId, Email>, users: map<Email, UserId>,
                                      morning: Timestamp, evening: Timestamp)
    requires user in records && records[user].plan == PRO
    requires records[user].usageCount >= MAX_FREE_DAILY_ACTIONS
    requires CustomerUser(customer, emails, users) == Some(user)
    requires UtcDay(morning) == UtcDay(evening)
    ensures Admit(records[user], morning).0
    ensures var stamped := records[user := Admit(records[user], morning).1];
            var downgraded := ApplyEvent(stamped, SubscriptionDeleted(customer), emails, users);
            downgraded[user].plan == FREE && !Admit(downgraded[user], evening).0
  {
  }
}
