/** Where a client that reconnects resumes, and the race with retention. */
module Resumption {
  import opened EventLog

  /** The answer of Stream.FirstOffset. */
  datatype Query = First(offset: nat) | EmptyStream | QueryFailed

  /** FromFirst is stream.OffsetFirst; Refuse carries the non-empty reason. */
  datatype Decision = FromFirst | From(offset: nat) | Refuse(retry: bool, reason: Reason)

  /** The query is only made, and so only matters, when lastID is positive. */
  function ResumeOffset(query: Query, lastID: int): Decision {
    if lastID <= 0 then FromFirst
    else
      match query
      case EmptyStream => Refuse(false, Unknown)
      case QueryFailed => Refuse(true, QueryError)
      case First(first) => if first > lastID then Refuse(false, Expired) else From(lastID)
  }

  /** The second check of subscribe, after the consumer has attached, acts on one reason only. */
  predicate RecheckRefuses(query: Query, lastID: int) {
    var decision := ResumeOffset(query, lastID);
    decision.Refuse? && decision.reason == Expired
  }

  /** The offset at which a consumer that asks for `asked` really starts. */
  function StartOf(asked: nat, first: nat): nat { if asked < first then first else asked }

  /**
   The retention race. The first retained offset is f1 at the first check and f2 when the consumer
   attaches, and never decreases; q1 and q3 are the answers at the two checks. A resume that passes both
   started at lastID if the second query returned an offset, and a late start then gets the
   non-retryable error. A refusal at the first check is retryable exactly if the query failed.
   */
  lemma RetentionRace(f1: nat, f2: nat, q1: Query, q3: Query, lastID: nat)
    requires 0 < lastID && f1 <= f2 && (q1.First? ==> q1.offset == f1) && (q3.First? ==> f2 <= q3.offset)
    ensures ResumeOffset(q1, lastID) == From(lastID) && !RecheckRefuses(q3, lastID) && q3.First?
            ==> StartOf(lastID, f2) == lastID
    ensures StartOf(lastID, f2) != lastID && q3.First?
            ==> ResumeOffset(q3, lastID) == Refuse(false, Expired)
    ensures ResumeOffset(q1, lastID) != From(lastID)
            ==> ResumeOffset(q1, lastID).Refuse? && (ResumeOffset(q1, lastID).retry <==> q1.QueryFailed?)
  {
  }

  /**
   Exactly when a resumed consumer silently starts too late: retention passed lastID between the
   first check and the attachment, and the second query returned no offset.
   */
  lemma SilentGap(f1: nat, f2: nat, query: Query, lastID: nat)
    requires 0 < lastID && f1 <= f2 && (query.First? ==> f2 <= query.offset)
    ensures ResumeOffset(First(f1), lastID) == From(lastID) && !RecheckRefuses(query, lastID)
              && StartOf(lastID, f2) != lastID
            <==> f1 <= lastID < f2 && !query.First?
  {
  }
}
