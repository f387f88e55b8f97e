/**
  The CRM entities as the dashboard aggregation sees them. Each record keeps
  only the attributes the aggregation reads, plus the lead identifier and the
  deal's reference to its lead, which the aggregation ignores but which are
  needed to state that a won lead and its won deal are both counted.

  Timestamps are integer milliseconds since the Unix epoch (the value
  `new Date(text).getTime()` yields for a well-formed ISO-8601 text); money
  amounts are integers.
*/
module CrmTypes {

  datatype Option<T> = None | Some(value: T)

  /** A lead's lifecycle position. */
  datatype LeadStatus = New | Contacted | Qualified | Proposal | Won | Lost

  /** A deal's position in the pipeline; independent of any lead's status. */
  datatype DealStage = Prospect | Qualified | Proposal | Negotiation | Won | Lost

  /**
    A lead. `estimatedValue` is `None` when the stored value is null or
    absent, which the record type does not rule out at run time.
  */
  datatype Lead = Lead(id: string, status: LeadStatus, estimatedValue: Option<int>, createdAt: int)

  /** A deal and the identifier of the lead it came from. */
  datatype Deal = Deal(leadId: string, stage: DealStage, value: int)

  /** An activity log entry; only its creation time matters here. */
  datatype Activity = Activity(createdAt: int)

  /** A calendar event; only its start time matters here. */
  datatype CalendarEvent = CalendarEvent(startTime: int)
}
