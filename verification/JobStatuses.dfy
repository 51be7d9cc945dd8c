/** The job lifecycle values and the three columns that store them. */
module JobStatuses {
  import opened Basics

  datatype MediaType = Image | Audio | Video

  function MediaText(m: MediaType): string {
    match m
    case Image => "image"
    case Audio => "audio"
    case Video => "video"
  }

  datatype ErrorCode =
    | Validation | Unauthenticated | Forbidden | NotFound
    | RateLimited | ContentFilter | Upstream | Internal

  function CodeText(c: ErrorCode): string {
    match c
    case Validation => "validation"
    case Unauthenticated => "unauthenticated"
    case Forbidden => "forbidden"
    case NotFound => "not_found"
    case RateLimited => "rate_limited"
    case ContentFilter => "content_filter"
    case Upstream => "upstream"
    case Internal => "internal"
  }

  function CodeFromText(text: string): ErrorCode {
    if text == "validation" then Validation
    else if text == "unauthenticated" then Unauthenticated
    else if text == "forbidden" then Forbidden
    else if text == "not_found" then NotFound
    else if text == "rate_limited" then RateLimited
    else if text == "content_filter" then ContentFilter
    else if text == "upstream" then Upstream
    else Internal
  }

  /** The Norwegian texts a failure can carry, named after the translation constants. */
  datatype Message =
    | ErrInternal
    | ErrJobInterrupted
    | ErrQueueFull
    | ErrGenerationTimeout
    | ErrContentFilter
    | ErrRateLimited
    | ErrValidation
    | ErrUpstream
    | ErrNotDeployed
    | Text(text: string)

  datatype JobStatus =
    | Queued
    | Running
    | Succeeded
    | Failed(code: ErrorCode, message: Message)
    | Cancelled

  /** The five values the `jobs_status_valid` constraint admits. */
  datatype StatusName = QueuedName | RunningName | SucceededName | FailedName | CancelledName

  function NameOf(status: JobStatus): StatusName {
    match status
    case Queued => QueuedName
    case Running => RunningName
    case Succeeded => SucceededName
    case Failed(_, _) => FailedName
    case Cancelled => CancelledName
  }

  function StatusText(name: StatusName): string {
    match name
    case QueuedName => "queued"
    case RunningName => "running"
    case SucceededName => "succeeded"
    case FailedName => "failed"
    case CancelledName => "cancelled"
  }

  predicate Terminal(name: StatusName) {
    name.SucceededName? || name.FailedName? || name.CancelledName?
  }

  /** Position in the order queued < running < terminal. */
  function Rank(name: StatusName): nat {
    match name
    case QueuedName => 0
    case RunningName => 1
    case _ => 2
  }

  function CodeColumn(status: JobStatus): Option<string> {
    if status.Failed? then Some(CodeText(status.code)) else None
  }

  function MessageColumn(status: JobStatus): Option<Message> {
    if status.Failed? then Some(status.message) else None
  }

  /** Rebuilds a status from its columns; anything unknown degrades to a failure. */
  function FromColumns(status: string, code: Option<string>, message: Option<Message>): JobStatus {
    if status == "queued" then Queued
    else if status == "running" then Running
    else if status == "succeeded" then Succeeded
    else if status == "cancelled" then Cancelled
    else if status == "failed" then
      Failed(if code.Some? then CodeFromText(code.value) else Internal,
             if message.Some? then message.value else ErrInternal)
    else Failed(Internal, ErrInternal)
  }

  lemma CodeReadsBack(c: ErrorCode)
    ensures CodeFromText(CodeText(c)) == c
  {
    // Codes of equal length differ in their first letter.
    assert forall d: ErrorCode :: d != c ==> |CodeText(d)| != |CodeText(c)| || CodeText(d)[0] != CodeText(c)[0];
  }

  /** Reading a row back gives exactly the status that was written. */
  lemma StatusReadsBack(status: JobStatus)
    ensures FromColumns(StatusText(NameOf(status)), CodeColumn(status), MessageColumn(status)) == status
  {
    assert "queued"[0] != "failed"[0];
    assert "succeeded"[0] != "cancelled"[0];
    if status.Failed? { CodeReadsBack(status.code); }
  }

  /** A stored status never degrades: the name that comes back is the name that was stored. */
  lemma NameReadsBack(name: StatusName, code: Option<string>, message: Option<Message>)
    ensures NameOf(FromColumns(StatusText(name), code, message)) == name
  {
    assert "queued"[0] != "failed"[0];
    assert "succeeded"[0] != "cancelled"[0];
  }
}
