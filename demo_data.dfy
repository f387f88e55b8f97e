/**
  The demo fixture used when no database is configured, as a concrete input
  to the dashboard aggregation. Timestamps are the fixture's ISO-8601 texts
  converted to milliseconds since the Unix epoch (UTC).

  Its hand-written dashboard figures agree with the aggregation on the plain
  counts, but its pipeline and won totals are deal-only sums, and no single
  reference time gives all three of its time-window counts at once.
*/
module DemoData {
  import opened CrmTypes
  import opened ArrayOps
  import opened Queries

  const DemoLeads: seq<Lead> := [
    Lead("lead-1", LeadStatus.Qualified, Some(85000), 1771581600000),   // 2026-02-20T10:00:00Z
    Lead("lead-2", LeadStatus.Proposal, Some(120000), 1771405200000),   // 2026-02-18T09:00:00Z
    Lead("lead-3", LeadStatus.New, Some(45000), 1771941600000),         // 2026-02-24T14:00:00Z
    Lead("lead-4", LeadStatus.Contacted, Some(67000), 1771488000000),   // 2026-02-19T08:00:00Z
    Lead("lead-5", LeadStatus.Won, Some(95000), 1770714000000),         // 2026-02-10T09:00:00Z
    Lead("lead-6", LeadStatus.New, Some(52000), 1772006400000)          // 2026-02-25T08:00:00Z
  ]

  const DemoDeals: seq<Deal> := [
    Deal("lead-1", DealStage.Qualified, 85000),
    Deal("lead-2", DealStage.Proposal, 120000),
    Deal("lead-4", DealStage.Prospect, 67000),
    Deal("lead-5", DealStage.Won, 95000),
    Deal("lead-3", DealStage.Prospect, 45000)
  ]

  const DemoActivities: seq<Activity> := [
    Activity(1771941600000),   // 2026-02-24T14:00:00Z
    Activity(1771754400000),   // 2026-02-22T10:00:00Z
    Activity(1771840800000),   // 2026-02-23T10:00:00Z
    Activity(1771948800000),   // 2026-02-24T16:00:00Z
    Activity(1772006400000),   // 2026-02-25T08:00:00Z
    Activity(1772010000000)    // 2026-02-25T09:00:00Z
  ]

  const DemoCalendarEvents: seq<CalendarEvent> := [
    CalendarEvent(1772200800000),   // 2026-02-27T14:00:00Z
    CalendarEvent(1772096400000),   // 2026-02-26T09:00:00Z
    CalendarEvent(1772276400000),   // 2026-02-28T11:00:00Z
    CalendarEvent(1772272800000),   // 2026-02-28T10:00:00Z
    CalendarEvent(1772550000000),   // 2026-03-03T15:00:00Z
    CalendarEvent(1772370000000)    // 2026-03-01T13:00:00Z
  ]

  /** The fixture's hand-written dashboard figures. */
  const DemoDashboardStats: DashboardStats := DashboardStats(6, 2, 5, 412000, 1, 95000, 4, 5)

  function DemoStats(now: int): DashboardStats
  {
    GetDashboardStats(DemoLeads, DemoDeals, DemoActivities, DemoCalendarEvents, now)
  }

  /** At any reference time the fixture gives 6 leads, 5 deals and 1 won deal, as its hand-written figures say. */
  lemma DemoCountsMatchFixture(now: int)
    ensures DemoStats(now).totalLeads == DemoDashboardStats.totalLeads == 6
    ensures DemoStats(now).totalDeals == DemoDashboardStats.totalDeals == 5
    ensures DemoStats(now).wonDeals == DemoDashboardStats.wonDeals == 1
  {
  }

  lemma DemoDealValueSum()
    ensures SumBy(DemoDeals, DealAmount) == 412000
  {
    var d := DemoDeals;
    assert SumBy(d[..1], DealAmount) == 85000 by { assert d[..1][..0] == []; }
    assert SumBy(d[..2], DealAmount) == 205000 by { assert d[..2][..1] == d[..1]; }
    assert SumBy(d[..3], DealAmount) == 272000 by { assert d[..3][..2] == d[..2]; }
    assert SumBy(d[..4], DealAmount) == 367000 by { assert d[..4][..3] == d[..3]; }
    assert d[..5][..4] == d[..4] && d[..5] == d;
  }

  lemma DemoLeadAmountSum()
    ensures SumBy(DemoLeads, LeadAmount) == 464000
  {
    var l := DemoLeads;
    assert SumBy(l[..1], LeadAmount) == 85000 by { assert l[..1][..0] == []; }
    assert SumBy(l[..2], LeadAmount) == 205000 by { assert l[..2][..1] == l[..1]; }
    assert SumBy(l[..3], LeadAmount) == 250000 by { assert l[..3][..2] == l[..2]; }
    assert SumBy(l[..4], LeadAmount) == 317000 by { assert l[..4][..3] == l[..3]; }
    assert SumBy(l[..5], LeadAmount) == 412000 by { assert l[..5][..4] == l[..4]; }
    assert l[..6][..5] == l[..5] && l[..6] == l;
  }

  /** The only won deal is deal-4, and it was made from lead-5. */
  lemma DemoWonDeal()
    ensures Filter(DemoDeals, IsWonDeal) == [DemoDeals[3]]
    ensures DemoDeals[3].leadId == DemoLeads[4].id
    ensures SumBy(Filter(DemoDeals, IsWonDeal), DealAmount) == 95000
  {
    FilterOneMatch(DemoDeals, 3, IsWonDeal);
    assert [DemoDeals[3]][..0] == [];
  }

  /** The only won lead is lead-5. */
  lemma DemoWonLead()
    ensures Filter(DemoLeads, IsWonLead) == [DemoLeads[4]]
    ensures SumBy(Filter(DemoLeads, IsWonLead), LeadAmount) == 95000
  {
    FilterOneMatch(DemoLeads, 4, IsWonLead);
    assert [DemoLeads[4]][..0] == [];
  }

  /**
    On the fixture the aggregation gives a pipeline total of 876000 and a won
    total of 190000, while the hand-written 412000 and 95000 are the sums over
    deals alone. The won total holds 95000 twice: lead-5 is won, and so is
    deal-4, which was made from lead-5.
  */
  lemma DemoTotalsDisagreeWithFixture(now: int)
    ensures DemoStats(now).totalPipelineValue == 876000 != DemoDashboardStats.totalPipelineValue
    ensures DemoStats(now).wonValue == 190000 != DemoDashboardStats.wonValue
    ensures SumBy(DemoDeals, DealAmount) == DemoDashboardStats.totalPipelineValue
    ensures SumBy(Filter(DemoDeals, IsWonDeal), DealAmount) == DemoDashboardStats.wonValue
  {
    DemoDealValueSum();
    DemoLeadAmountSum();
    DemoWonDeal();
    DemoWonLead();
  }

  /**
    No reference time gives the fixture's 2 new leads, 4 activities this week
    and 5 upcoming events together: 5 upcoming events need `now` before the
    2026-02-27T14:00Z event, while 4 recent activities need the week to start
    after the 2026-02-22T10:00Z activity, that is `now` no earlier than
    2026-03-01T10:00Z.
  */
  lemma NoReferenceTimeGivesFixtureWindowCounts(now: int)
    ensures var r := DemoStats(now);
      !(r.newLeadsThisWeek == 2 && r.activitiesThisWeek == 4 && r.upcomingEvents == 5)
  {
  }
}
