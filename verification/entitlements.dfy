/**
 * The daily-quota entitlement tracker: one record per user holding the plan, the
 * subscription status and a usage counter that is reset lazily, by comparing the UTC day
 * of the last recorded use with the UTC day of "now".
 */
module Entitlements {
  import opened Wrappers

  type UserId = string

  /** A point in time as a JavaScript `Date` holds it: milliseconds since the Unix epoch. */
  type Timestamp = int

  /** A UTC calendar day, numbered from 1970-01-01 (day 0). */
  type Day = int

  const MS_PER_DAY: int := 86_400_000

  /** Free-plan admissions per UTC day; also the `limit` every status report carries. */
  const MAX_FREE_DAILY_ACTIONS: nat := 5

  datatype Plan = FREE | PRO

  datatype EntitlementStatus = ACTIVE | INACTIVE

  /** One row of the entitlement table. `usageCount` counts for today only when
      `lastUsageDate` falls on today's UTC day. */
  datatype Entitlement = Entitlement(
    plan: Plan,
    status: EntitlementStatus,
    usageCount: nat,
    lastUsageDate: Option<Timestamp>,
    periodEnd: Option<Timestamp>)

  /** `remaining` is either the string 'UNLIMITED' or a number in the source. */
  datatype Remaining = Unlimited | Left(n: nat)

  /** What getStatus returns. */
  datatype UsageReport = UsageReport(plan: Plan, usageCount: nat, remaining: Remaining, limit: nat)

  /** The calendar day that `toISOString().split('T')[0]` names for instant `t`. */
  function UtcDay(t: Timestamp): (d: Day)
    ensures d * MS_PER_DAY <= t < (d + 1) * MS_PER_DAY
  {
    t / MS_PER_DAY
  }

  /** The record getStatus creates for a user who has none: FREE, ACTIVE, nothing used. */
  function DefaultEntitlement(): Entitlement
  {
    Entitlement(FREE, ACTIVE, 0, None, None)
  }

  /** True when the stored counter belongs to `today`. */
  predicate UsedOn(e: Entitlement, today: Day)
  {
    e.lastUsageDate.Some? && UtcDay(e.lastUsageDate.value) == today
  }

  /** Today's usage as the tracker sees it: the stored counter if it was last written
      today, and zero otherwise (the lazy reset). */
  function UsageOn(e: Entitlement, today: Day): (u: nat)
    ensures u <= e.usageCount
    ensures !UsedOn(e, today) ==> u == 0
  {
    if UsedOn(e, today) then e.usageCount else 0
  }

  /** The status report getStatus computes from a record and today's day. */
  function Report(e: Entitlement, today: Day): (r: UsageReport)
    ensures r.plan == e.plan && r.limit == MAX_FREE_DAILY_ACTIONS
    ensures r.usageCount == UsageOn(e, today)
    ensures !UsedOn(e, today) ==> r.usageCount == 0
    ensures r.remaining.Unlimited? <==> e.plan == PRO
    ensures r.remaining.Left? ==> r.remaining.n <= MAX_FREE_DAILY_ACTIONS
    ensures r.remaining.Left? ==> (r.remaining.n > 0 <==> r.usageCount < MAX_FREE_DAILY_ACTIONS)
    ensures r.remaining.Left? && r.usageCount <= MAX_FREE_DAILY_ACTIONS ==>
              r.remaining.n + r.usageCount == MAX_FREE_DAILY_ACTIONS
  {
    if !UsedOn(e, today) then
      UsageReport(e.plan, 0,
                  if e.plan == PRO then Unlimited else Left(MAX_FREE_DAILY_ACTIONS),
                  MAX_FREE_DAILY_ACTIONS)
    else
      var left := MAX_FREE_DAILY_ACTIONS - e.usageCount;
      UsageReport(e.plan, e.usageCount,
                  if e.plan == PRO then Unlimited else Left(if left > 0 then left else 0),
                  MAX_FREE_DAILY_ACTIONS)
  }

  /** The table after getStatus has made sure `user` has a record. */
  function WithRecord(records: map<UserId, Entitlement>, user: UserId): (r: map<UserId, Entitlement>)
    ensures user in r
    ensures user in records ==> r == records
    ensures user !in records ==> r[user] == DefaultEntitlement() && r.Keys == records.Keys + {user}
    ensures forall u :: u in records ==> u in r && r[u] == records[u]
  {
    if user in records then records else records[user := DefaultEntitlement()]
  }

  /** The admission decision of checkAndIncrementUsage and the record it leaves behind,
      given the record getStatus found or created and the instant of the call. */
  function Admit(e: Entitlement, now: Timestamp): (r: (bool, Entitlement))
    ensures r.1.plan == e.plan && r.1.status == e.status && r.1.periodEnd == e.periodEnd
    ensures r.0 <==> e.plan == PRO || UsageOn(e, UtcDay(now)) < MAX_FREE_DAILY_ACTIONS
    ensures !r.0 ==> r.1 == e
    ensures e.plan == PRO ==> r.1.usageCount == e.usageCount
    ensures r.0 ==> r.1.lastUsageDate == Some(now)
    ensures e.plan == FREE && r.0 ==> r.1.usageCount == UsageOn(e, UtcDay(now)) + 1
  {
    var today := UtcDay(now);
    var status := Report(e, today);
    if status.plan == PRO then
      (true, e.(lastUsageDate := Some(now)))
    else if status.remaining.Left? && status.remaining.n <= 0 then
      (false, e)
    else if !UsedOn(e, today) then
      (true, e.(usageCount := 1, lastUsageDate := Some(now)))
    else
      (true, e.(usageCount := e.usageCount + 1, lastUsageDate := Some(now)))
  }

  /** The table of entitlement records, keyed by user, shared with the plan synchroniser. */
  class EntitlementStore {
    var records: map<UserId, Entitlement>

    constructor ()
      ensures records == map[]
    {
      records := map[];
    }

    /** getStatus: create the default record if missing, then report with the lazy reset.
        The reset is only reported: the stored counter is not written. */
    method GetStatus(user: UserId, now: Timestamp) returns (report: UsageReport)
      modifies this
      ensures records == WithRecord(old(records), user)
      ensures report == Report(records[user], UtcDay(now))
    {
      if user !in records {
        records := records[user := DefaultEntitlement()];
      }
      report := Report(records[user], UtcDay(now));
    }

    /** checkAndIncrementUsage: the admission decision, with its write to the caller's record. */
    method CheckAndIncrementUsage(user: UserId, now: Timestamp) returns (admitted: bool)
      modifies this
      ensures var before := WithRecord(old(records), user);
              admitted == Admit(before[user], now).0 &&
              records == before[user := Admit(before[user], now).1]
    {
      var status := GetStatus(user, now);
      if status.plan == PRO {
        // a PRO call stamps the day and leaves the counter alone
        records := records[user := records[user].(lastUsageDate := Some(now))];
        return true;
      }
      if status.remaining.Left? && status.remaining.n <= 0 {
        return false;
      }
      var today := UtcDay(now);
      // the re-read always finds the record GetStatus guarantees, so the source's
      // "return false if missing" guard never fires
      var e := records[user];
      if !UsedOn(e, today) {
        records := records[user := e.(usageCount := 1, lastUsageDate := Some(now))];
      } else {
        records := records[user := e.(usageCount := e.usageCount + 1, lastUsageDate := Some(now))];
      }
      return true;
    }
  }

  /** The effect of a series of sequential admission calls on one record. */
  datatype Tally = Tally(admitted: nat, last: Entitlement)

  /** Sequential admission calls on one record: how many were admitted, and the final record. */
  function Run(e: Entitlement, calls: seq<Timestamp>): Tally
    decreases |calls|
  {
    if calls == [] then Tally(0, e)
    else
      var step := Admit(e, calls[0]);
      var rest := Run(step.1, calls[1..]);
      Tally((if step.0 then 1 else 0) + rest.admitted, rest.last)
  }

  predicate AllOnDay(calls: seq<Timestamp>, day: Day)
  {
    forall i :: 0 <= i < |calls| ==> UtcDay(calls[i]) == day
  }

  /** Within one UTC day, a FREE user is admitted at most as many times as the quota has
      left that day, the plan and status are never written, and the usage seen by the
      tracker never goes down. */
  lemma {:induction false} FreeAdmissionsBoundedPerDay(e: Entitlement, calls: seq<Timestamp>, day: Day)
    requires e.plan == FREE
    requires AllOnDay(calls, day)
    ensures Run(e, calls).last.plan == FREE && Run(e, calls).last.status == e.status
    ensures UsageOn(e, day) >= MAX_FREE_DAILY_ACTIONS ==> Run(e, calls).admitted == 0
    ensures UsageOn(e, day) < MAX_FREE_DAILY_ACTIONS ==>
              Run(e, calls).admitted <= MAX_FREE_DAILY_ACTIONS - UsageOn(e, day)
    ensures Run(e, calls).admitted <= MAX_FREE_DAILY_ACTIONS
    decreases |calls|
  {
    if calls != [] {
      var step := Admit(e, calls[0]);
      assert AllOnDay(calls[1..], day) by {
        forall i | 0 <= i < |calls[1..]| ensures UtcDay(calls[1..][i]) == day {
          assert calls[1..][i] == calls[i + 1];
        }
      }
      FreeAdmissionsBoundedPerDay(step.1, calls[1..], day);
    }
  }

  /** While the quota is not exhausted, every same-day call of a FREE user is admitted and
      adds exactly one to the day's usage. */
  lemma {:induction false} FreeAdmittedUntilLimit(e: Entitlement, calls: seq<Timestamp>, day: Day)
    requires e.plan == FREE
    requires AllOnDay(calls, day)
    requires UsageOn(e, day) + |calls| <= MAX_FREE_DAILY_ACTIONS
    ensures Run(e, calls).admitted == |calls|
    ensures UsageOn(Run(e, calls).last, day) == UsageOn(e, day) + |calls|
    ensures Run(e, calls).last.plan == FREE
    decreases |calls|
  {
    if calls != [] {
      var step := Admit(e, calls[0]);
      assert UsageOn(step.1, day) == UsageOn(e, day) + 1;
      assert AllOnDay(calls[1..], day) by {
        forall i | 0 <= i < |calls[1..]| ensures UtcDay(calls[1..][i]) == day {
          assert calls[1..][i] == calls[i + 1];
        }
      }
      FreeAdmittedUntilLimit(step.1, calls[1..], day);
    }
  }

  /** A FREE user who has not used the service today is admitted five times, and the sixth
      call on the same UTC day is refused. */
  lemma SixthSameDayCallRefused(e: Entitlement, calls: seq<Timestamp>, sixth: Timestamp)
    requires e.plan == FREE && !UsedOn(e, UtcDay(sixth))
    requires |calls| == MAX_FREE_DAILY_ACTIONS && AllOnDay(calls, UtcDay(sixth))
    ensures Run(e, calls).admitted == MAX_FREE_DAILY_ACTIONS
    ensures !Admit(Run(e, calls).last, sixth).0
  {
    FreeAdmittedUntilLimit(e, calls, UtcDay(sixth));
  }
}
