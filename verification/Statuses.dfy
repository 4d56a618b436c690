/** Run statuses, their persisted codes, and the HTTP answers derived from them. */
module Statuses {
  import opened Options

  datatype TaskRunStatus =
    | SubmissionFailed
    | Queued
    | InProgress
    | ErrorWillRetry
    | CompleteSuccess
    | CompleteFailure

  /** The integer persisted in `task_runs.status_code`. */
  function AsI32(status: TaskRunStatus): int {
    match status
    case SubmissionFailed => 0
    case Queued => 1
    case InProgress => 2
    case ErrorWillRetry => 3
    case CompleteSuccess => 4
    case CompleteFailure => 5
  }

  /** Decoding is the exact inverse of `AsI32`; every other integer is unknown. */
  function FromI32(code: int): (r: Option<TaskRunStatus>)
    ensures r.Some? <==> 0 <= code <= 5
    ensures forall s :: r == Some(s) <==> code == AsI32(s)
  {
    match code
    case 0 => Some(SubmissionFailed)
    case 1 => Some(Queued)
    case 2 => Some(InProgress)
    case 3 => Some(ErrorWillRetry)
    case 4 => Some(CompleteSuccess)
    case 5 => Some(CompleteFailure)
    case _ => None
  }

  /** The codes that stored rows carry. */
  lemma StoredCodes(code: int)
    ensures (FromI32(code) == Some(SubmissionFailed) <==> code == 0) && (FromI32(code) == Some(Queued) <==> code == 1)
    ensures (FromI32(code) == Some(InProgress) <==> code == 2) && (FromI32(code) == Some(ErrorWillRetry) <==> code == 3)
    ensures FromI32(code) == Some(CompleteSuccess) <==> code == 4
    ensures FromI32(code) == Some(CompleteFailure) <==> code == 5
  {
  }

  predicate IsInFlight(status: TaskRunStatus) {
    status.Queued? || status.InProgress? || status.ErrorWillRetry?
  }

  /** In-flight test on a stored code; an unknown code counts as settled. */
  predicate InFlightCode(code: int)
    ensures InFlightCode(code) <==> code == 1 || code == 2 || code == 3
  {
    match FromI32(code)
    case Some(status) => IsInFlight(status)
    case None => false
  }

  /** The response a worker route gives for a recorded outcome. */
  function HttpStatusFor(status: TaskRunStatus): (code: int)
    ensures IsSuccessCode(code) <==> status.CompleteSuccess? || status.CompleteFailure?
    ensures code == 204 <==> status.CompleteSuccess?
    ensures code == 200 <==> status.CompleteFailure?
    ensures !IsSuccessCode(code) ==> code == 500
  {
    match status
    case SubmissionFailed => 500
    case CompleteSuccess => 204
    case CompleteFailure => 200
    case ErrorWillRetry => 500
    case Queued => 500
    case InProgress => 500
  }

  /** The queue acknowledges exactly the 2xx answers. */
  predicate IsSuccessCode(code: int) {
    200 <= code < 300
  }

  predicate IsServerError(code: int) {
    500 <= code < 600
  }
}
