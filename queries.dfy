/**
  The dashboard statistics of the CRM: eight counters derived from the four
  collections (leads, deals, activities, calendar events) and a reference time
  `now`, in milliseconds.

  The lemmas characterise the result independently of how it is computed:
  the counters of empty collections are zero, and adding one record of any
  kind changes exactly the counters that record belongs to, by exactly its
  count or amount. Beside that come the index-set meaning of each count,
  the split of the pipeline total into won and open value, and the fact that
  a won lead and the won deal made from it are both in the won total.
*/
module Queries {
  import opened CrmTypes
  import opened ArrayOps

  /** The eight counters shown on the dashboard. */
  datatype DashboardStats = DashboardStats(
    totalLeads: nat,
    newLeadsThisWeek: nat,
    totalDeals: nat,
    totalPipelineValue: int,
    wonDeals: nat,
    wonValue: int,
    activitiesThisWeek: nat,
    upcomingEvents: nat)

  /** Seven days in milliseconds: 604800000. */
  const WeekMillis: int := 7 * 24 * 60 * 60 * 1000

  /** A lead created strictly after `weekAgo`. */
  function CreatedAfter(weekAgo: int): Lead -> bool
  {
    (l: Lead) => l.createdAt > weekAgo
  }

  /** An activity logged strictly after `weekAgo`. */
  function LoggedAfter(weekAgo: int): Activity -> bool
  {
    (a: Activity) => a.createdAt > weekAgo
  }

  /** An event starting strictly after `now`. */
  function StartsAfter(now: int): CalendarEvent -> bool
  {
    (e: CalendarEvent) => e.startTime > now
  }

  function IsWonLead(l: Lead): bool
  {
    l.status == LeadStatus.Won
  }

  function IsWonDeal(d: Deal): bool
  {
    d.stage == DealStage.Won
  }

  function DealAmount(d: Deal): int
  {
    d.value
  }

  /**
    A lead's amount, read as `estimated_value || 0`: a missing value and a
    zero value are both falsy and count as 0, any other value counts as itself.
  */
  function LeadAmount(l: Lead): int
  {
    match l.estimatedValue
    case None => 0
    case Some(v) => if v == 0 then 0 else v
  }

  /** The aggregation of `getDashboardStats` once the four collections are fetched. */
  function GetDashboardStats(
    leads: seq<Lead>, deals: seq<Deal>, activities: seq<Activity>, events: seq<CalendarEvent>, now: int
  ): (r: DashboardStats)
    ensures r.totalLeads == |leads| && r.totalDeals == |deals|
    ensures r.newLeadsThisWeek <= r.totalLeads && r.wonDeals <= r.totalDeals
    ensures r.activitiesThisWeek <= |activities| && r.upcomingEvents <= |events|
  {
    var weekAgo := now - WeekMillis;
    var wonDeals := Filter(deals, IsWonDeal);
    var wonLeads := Filter(leads, IsWonLead);
    var totalDealsValue := SumBy(deals, DealAmount);
    var totalLeadsValue := SumBy(leads, LeadAmount);
    var wonDealsValue := SumBy(wonDeals, DealAmount);
    var wonLeadsValue := SumBy(wonLeads, LeadAmount);
    DashboardStats(
      |leads|,
      |Filter(leads, CreatedAfter(weekAgo))|,
      |deals|,
      totalDealsValue + totalLeadsValue,
      |wonDeals|,
      wonDealsValue + wonLeadsValue,
      |Filter(activities, LoggedAfter(weekAgo))|,
      |Filter(events, StartsAfter(now))|)
  }

  /** With nothing loaded, every counter is zero. */
  lemma EmptyCollectionsGiveZeroStats(now: int)
    ensures GetDashboardStats([], [], [], [], now) == DashboardStats(0, 0, 0, 0, 0, 0, 0, 0)
  {
  }

  /**
    One more lead adds one to the lead count, one to the new-this-week count
    exactly when it was created strictly inside the trailing week, its amount
    to the pipeline total, and its amount to the won total exactly when its
    status is won. The other counters do not change.
  */
  lemma AddingLead(
    leads: seq<Lead>, deals: seq<Deal>, activities: seq<Activity>, events: seq<CalendarEvent>, now: int, l: Lead)
    ensures var r := GetDashboardStats(leads, deals, activities, events, now);
      GetDashboardStats(leads + [l], deals, activities, events, now)
      == r.(totalLeads := r.totalLeads + 1,
            newLeadsThisWeek := r.newLeadsThisWeek + (if l.createdAt > now - WeekMillis then 1 else 0),
            totalPipelineValue := r.totalPipelineValue + LeadAmount(l),
            wonValue := r.wonValue + (if l.status == LeadStatus.Won then LeadAmount(l) else 0))
  {
    FilterSnoc(leads, l, CreatedAfter(now - WeekMillis));
    SumBySnoc(leads, l, LeadAmount);
    FilteredSumSnoc(leads, l, IsWonLead, LeadAmount);
  }

  /**
    One more deal adds one to the deal count and its value to the pipeline
    total; when its stage is won it also adds one to the won-deal count and
    its value to the won total. Which lead it references plays no part.
  */
  lemma AddingDeal(
    leads: seq<Lead>, deals: seq<Deal>, activities: seq<Activity>, events: seq<CalendarEvent>, now: int, d: Deal)
    ensures var r := GetDashboardStats(leads, deals, activities, events, now);
      GetDashboardStats(leads, deals + [d], activities, events, now)
      == r.(totalDeals := r.totalDeals + 1,
            totalPipelineValue := r.totalPipelineValue + d.value,
            wonDeals := r.wonDeals + (if d.stage == DealStage.Won then 1 else 0),
            wonValue := r.wonValue + (if d.stage == DealStage.Won then d.value else 0))
  {
    SumBySnoc(deals, d, DealAmount);
    FilteredSumSnoc(deals, d, IsWonDeal, DealAmount);
  }

  /**
    One more activity adds one to the activities-this-week count exactly when
    it was logged strictly after `now - WeekMillis`; nothing else changes.
  */
  lemma AddingActivity(
    leads: seq<Lead>, deals: seq<Deal>, activities: seq<Activity>, events: seq<CalendarEvent>, now: int, a: Activity)
    ensures var r := GetDashboardStats(leads, deals, activities, events, now);
      GetDashboardStats(leads, deals, activities + [a], events, now)
      == r.(activitiesThisWeek := r.activitiesThisWeek + (if a.createdAt > now - WeekMillis then 1 else 0))
  {
    FilterSnoc(activities, a, LoggedAfter(now - WeekMillis));
  }

  /**
    One more calendar event adds one to the upcoming count exactly when it
    starts strictly after `now`; nothing else changes.
  */
  lemma AddingEvent(
    leads: seq<Lead>, deals: seq<Deal>, activities: seq<Activity>, events: seq<CalendarEvent>, now: int, e: CalendarEvent)
    ensures var r := GetDashboardStats(leads, deals, activities, events, now);
      GetDashboardStats(leads, deals, activities, events + [e], now)
      == r.(upcomingEvents := r.upcomingEvents + (if e.startTime > now then 1 else 0))
  {
    FilterSnoc(events, e, StartsAfter(now));
  }

  /**
    The new-this-week count is the number of leads created strictly after
    `now - WeekMillis`; a lead created exactly at that instant is not counted.
  */
  lemma NewLeadsThisWeekCountsRecentLeads(
    leads: seq<Lead>, deals: seq<Deal>, activities: seq<Activity>, events: seq<CalendarEvent>, now: int)
    ensures GetDashboardStats(leads, deals, activities, events, now).newLeadsThisWeek
         == |set i: nat | i < |leads| && leads[i].createdAt > now - WeekMillis|
  {
    var p := CreatedAfter(now - WeekMillis);
    FilterLengthIsCount(leads, p);
    assert IndicesWhere(leads, p) == set i: nat | i < |leads| && leads[i].createdAt > now - WeekMillis;
  }

  /** The won-deal count is the number of deals whose stage is won. */
  lemma WonDealsCountsWonStage(
    leads: seq<Lead>, deals: seq<Deal>, activities: seq<Activity>, events: seq<CalendarEvent>, now: int)
    ensures GetDashboardStats(leads, deals, activities, events, now).wonDeals
         == |set i: nat | i < |deals| && deals[i].stage == DealStage.Won|
  {
    FilterLengthIsCount(deals, IsWonDeal);
    assert IndicesWhere(deals, IsWonDeal) == set i: nat | i < |deals| && deals[i].stage == DealStage.Won;
  }

  /**
    The activities-this-week count is the number of activities logged strictly
    after `now - WeekMillis`; one logged exactly at that instant is not counted.
  */
  lemma ActivitiesThisWeekCountsRecentActivities(
    leads: seq<Lead>, deals: seq<Deal>, activities: seq<Activity>, events: seq<CalendarEvent>, now: int)
    ensures GetDashboardStats(leads, deals, activities, events, now).activitiesThisWeek
         == |set i: nat | i < |activities| && activities[i].createdAt > now - WeekMillis|
  {
    var p := LoggedAfter(now - WeekMillis);
    FilterLengthIsCount(activities, p);
    assert IndicesWhere(activities, p) == set i: nat | i < |activities| && activities[i].createdAt > now - WeekMillis;
  }

  /**
    The upcoming count is the number of events starting strictly after `now`;
    an event starting exactly at `now` is not upcoming.
  */
  lemma UpcomingEventsCountsLaterStarts(
    leads: seq<Lead>, deals: seq<Deal>, activities: seq<Activity>, events: seq<CalendarEvent>, now: int)
    ensures GetDashboardStats(leads, deals, activities, events, now).upcomingEvents
         == |set i: nat | i < |events| && events[i].startTime > now|
  {
    var p := StartsAfter(now);
    FilterLengthIsCount(events, p);
    assert IndicesWhere(events, p) == set i: nat | i < |events| && events[i].startTime > now;
  }

  /**
    The pipeline total is the won total plus the value of the deals not won
    and the amounts of the leads not won: each won filter picks a part of the
    collection the pipeline total sums.
  */
  lemma PipelineSplitsIntoWonAndOpen(
    leads: seq<Lead>, deals: seq<Deal>, activities: seq<Activity>, events: seq<CalendarEvent>, now: int)
    ensures var r := GetDashboardStats(leads, deals, activities, events, now);
      r.totalPipelineValue
      == r.wonValue + SumBy(Filter(deals, Not(IsWonDeal)), DealAmount) + SumBy(Filter(leads, Not(IsWonLead)), LeadAmount)
  {
    SumByPartition(deals, IsWonDeal, DealAmount);
    SumByPartition(leads, IsWonLead, LeadAmount);
  }

  /** When no deal value and no estimated value is negative, the won total never exceeds the pipeline total. */
  lemma WonValueAtMostPipelineValue(
    leads: seq<Lead>, deals: seq<Deal>, activities: seq<Activity>, events: seq<CalendarEvent>, now: int)
    requires forall i :: 0 <= i < |deals| ==> deals[i].value >= 0
    requires forall i :: 0 <= i < |leads| ==> leads[i].estimatedValue.Some? ==> leads[i].estimatedValue.value >= 0
    ensures var r := GetDashboardStats(leads, deals, activities, events, now);
      r.wonValue <= r.totalPipelineValue
  {
    FilteredSumAtMostSum(deals, IsWonDeal, DealAmount);
    FilteredSumAtMostSum(leads, IsWonLead, LeadAmount);
  }

  /**
    A won lead and a won deal that references it are both added to the won
    total: the amount is counted once for the lead and once for the deal.
  */
  lemma WonValueCountsLinkedLeadAndDealTwice(
    leads: seq<Lead>, deals: seq<Deal>, activities: seq<Activity>, events: seq<CalendarEvent>, now: int,
    l: Lead, d: Deal, v: int)
    requires l.status == LeadStatus.Won && l.estimatedValue == Some(v)
    requires d.stage == DealStage.Won && d.leadId == l.id && d.value == v
    ensures GetDashboardStats(leads + [l], deals + [d], activities, events, now).wonValue
         == GetDashboardStats(leads, deals, activities, events, now).wonValue + 2 * v
  {
    AddingLead(leads, deals, activities, events, now, l);
    AddingDeal(leads + [l], deals, activities, events, now, d);
  }
}
