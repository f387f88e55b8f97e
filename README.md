# Dashboard statistics of the sales CRM

This project models the dashboard aggregation of a small sales CRM. The CRM
tracks leads, deals in a pipeline, an activity log and calendar events. Once
`getDashboardStats` has fetched the four collections, it derives eight
counters from them and from the current time `now`:

- the lead count and the deal count;
- the leads created in the trailing 7 days;
- the pipeline total: every deal value plus every lead's estimated value;
- the won-deal count, and the won total: won deal values plus won lead amounts;
- the activities logged in the trailing 7 days;
- the events starting after `now`.

The model is written with functions and lemmas, because the source computes
these counters with `filter`, `reduce` and `.length` only.

- `array_ops.dfy` (module `ArrayOps`) models the two array operations.
  `Filter` is `Array.prototype.filter`. `SumBy` is `reduce((sum, x) => sum + f(x), 0)`,
  a left fold. The file also proves lemmas about concatenation, counting and partitioning.
- `crm_types.dfy` (module `CrmTypes`) holds the lead-status and deal-stage
  enumerations and the record fields the aggregation reads. Timestamps are
  integer milliseconds since the Unix epoch. Money is an integer. A lead's
  estimated value is optional, because a stored null or missing value is possible.
  The lead identifier and the deal's lead reference are kept as well. The
  aggregation does not read them, but they are needed to state the double count below.
- `queries.dfy` (module `Queries`) defines `GetDashboardStats` and its lemmas.
  The lemmas `EmptyCollectionsGiveZeroStats`, `AddingLead`, `AddingDeal`,
  `AddingActivity` and `AddingEvent` determine every counter for every input.
  They do this without reference to the function body: they give the result
  for empty collections and say how each added record changes each counter.
  Further lemmas give each count as the size of an index set, split the
  pipeline total into won and open value, and bound the won total.
- `demo_data.dfy` (module `DemoData`) encodes the demo fixture as a concrete input.

The "this week" window is strict: a record is counted when its timestamp is
greater than `now - 604800000`. A record created exactly at that instant is
not counted. Likewise, an event is upcoming only when it starts strictly after `now`.

The won total filters lead status and deal stage independently. A won lead
and a won deal made from that lead both add to it. `WonValueCountsLinkedLeadAndDealTwice`
proves this in general. `DemoTotalsDisagreeWithFixture` shows it on the demo data:
lead-5 and deal-4 put 95000 into the won total twice.

The demo fixture's hand-written dashboard figures agree with the formula only
on the plain counts. Its pipeline and won totals (412000 and 95000) are sums
over deals alone. The formula gives 876000 and 190000. The fixture's three
time-window counts (2 new leads, 4 activities, 5 upcoming events) cannot all
hold at a single `now`.

Nothing in the record types (src/lib/types.ts:14, 27) or in the aggregation
keeps lead estimated values and deal values non-negative, although the
application treats them as amounts of money. The model therefore accepts any
integer, and only `WonValueAtMostPipelineValue` assumes non-negative amounts,
as a precondition.

## Model

| member | source | states |
|---|---|---|
| `ArrayOps.Filter` | src/lib/supabase/queries.ts:169 | `filter` never returns more elements than it was given |
| `ArrayOps.SumBy` | src/lib/supabase/queries.ts:173-174 | the `reduce` sum of non-negative terms is non-negative |
| `ArrayOps.FilterKeepsExactly` | src/lib/supabase/queries.ts:170-171 | an element is in the filtered array if and only if it is in the input and satisfies the predicate |
| `ArrayOps.FilterLengthIsCount` | src/lib/supabase/queries.ts:169 | `.length` of a filtered array equals the number of indices whose element satisfies the predicate |
| `ArrayOps.SumByAppend` | src/lib/supabase/queries.ts:173 | the `reduce` sum of a concatenation is the sum of the two parts |
| `ArrayOps.SumByPartition` | src/lib/supabase/queries.ts:173-179 | the sum over the elements that satisfy a predicate plus the sum over those that do not equals the sum over all |
| `ArrayOps.FilteredSumAtMostSum` | src/lib/supabase/queries.ts:173-179 | with no negative term, the sum over a filtered array is at most the sum over the whole |
| `Queries.GetDashboardStats` | src/lib/supabase/queries.ts:166-193 | totalLeads and totalDeals are the collection sizes; newLeadsThisWeek ≤ totalLeads, wonDeals ≤ totalDeals, activitiesThisWeek and upcomingEvents at most their collection sizes |
| `Queries.EmptyCollectionsGiveZeroStats` | src/lib/supabase/queries.ts:184-193 | with all four collections empty, every counter is 0 |
| `Queries.AddingLead` | src/lib/supabase/queries.ts:169-179 | one more lead adds 1 to totalLeads; adds 1 to newLeadsThisWeek if and only if created after now − 604800000; adds its amount (missing or 0 counted as 0) to totalPipelineValue; adds it to wonValue if and only if its status is won; leaves the other counters unchanged |
| `Queries.AddingDeal` | src/lib/supabase/queries.ts:170-179 | one more deal adds 1 to totalDeals and its value to totalPipelineValue; if and only if its stage is won it also adds 1 to wonDeals and its value to wonValue; the lead it references has no effect; the other counters are unchanged |
| `Queries.AddingActivity` | src/lib/supabase/queries.ts:181 | one more activity adds 1 to activitiesThisWeek if and only if it was created strictly after now − 604800000; nothing else changes |
| `Queries.AddingEvent` | src/lib/supabase/queries.ts:182 | one more event adds 1 to upcomingEvents if and only if it starts strictly after now; nothing else changes |
| `Queries.NewLeadsThisWeekCountsRecentLeads` | src/lib/supabase/queries.ts:167-169 | newLeadsThisWeek is the number of leads whose created_at is strictly greater than now − 604800000 |
| `Queries.WonDealsCountsWonStage` | src/lib/supabase/queries.ts:170 | wonDeals is the number of deals whose stage is won |
| `Queries.ActivitiesThisWeekCountsRecentActivities` | src/lib/supabase/queries.ts:181 | activitiesThisWeek is the number of activities whose created_at is strictly greater than now − 604800000 |
| `Queries.UpcomingEventsCountsLaterStarts` | src/lib/supabase/queries.ts:182 | upcomingEvents is the number of events whose start_time is strictly greater than now |
| `Queries.PipelineSplitsIntoWonAndOpen` | src/lib/supabase/queries.ts:170-179 | totalPipelineValue = wonValue + values of non-won deals + amounts of non-won leads |
| `Queries.WonValueAtMostPipelineValue` | src/lib/supabase/queries.ts:170-179 | if no deal value or estimated value is negative, wonValue ≤ totalPipelineValue |
| `Queries.WonValueCountsLinkedLeadAndDealTwice` | src/lib/supabase/queries.ts:170-179 | a won lead with amount v plus a won deal of value v that references it raise wonValue by 2·v |
| `DemoData.DemoCountsMatchFixture` | src/lib/demo-data.ts:174-183 | at every `now`, the demo data gives totalLeads 6, totalDeals 5 and wonDeals 1, as the fixture states |
| `DemoData.DemoDealValueSum` | src/lib/demo-data.ts:63-94 | the demo deal values sum to 412000 |
| `DemoData.DemoLeadAmountSum` | src/lib/demo-data.ts:6-61 | the demo lead estimated values sum to 464000 |
| `DemoData.DemoWonDeal` | src/lib/demo-data.ts:82-87 | deal-4 is the only won deal; it references lead-5 and contributes 95000 |
| `DemoData.DemoWonLead` | src/lib/demo-data.ts:43-51 | lead-5 is the only won lead and contributes 95000 |
| `DemoData.DemoTotalsDisagreeWithFixture` | src/lib/demo-data.ts:174-183 | on the demo data the formula gives totalPipelineValue 876000 and wonValue 190000, not the fixture's 412000 and 95000, which are the deal-only sums |
| `DemoData.NoReferenceTimeGivesFixtureWindowCounts` | src/lib/demo-data.ts:174-183 | no `now` gives newLeadsThisWeek 2, activitiesThisWeek 4 and upcomingEvents 5 together on the demo data |

## Left out

- The `Promise.all` fetch of the four collections (src/lib/supabase/queries.ts:159-164) is asynchronous database I/O. The model takes the four collections and `now` as parameters, and reading the clock becomes the `now` parameter.
- The create, read, update and delete functions for leads, deals, activities, calendar events and profiles (src/lib/supabase/queries.ts:7-155, 197-206) are not modelled. They are network calls to a database client that is not part of this model. That covers their "Not authenticated" errors and the ordering the database performs.
- Date parsing (`new Date(text)`) is not modelled. Timestamps are integer milliseconds. An unparseable date yields NaN in the source, and NaN compares false. That case is not modelled.
- `Number(...)` coercion and floating-point addition are not modelled. Amounts are unbounded integers, so the model ignores the rounding of very large sums in IEEE doubles, and NaN amounts.
- The application's optimistic-update, rollback and cache-invalidation protocol is not modelled. None of its code is part of this model.
- The login page, the sidebar, the layout and the dashboard page are presentation and routing. They are not part of this model. The dashboard page displays the fixture's hand-written figures rather than calling the aggregation.
