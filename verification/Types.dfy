/** The values the control plane stores and exchanges. */
module Types {

  /** Instants and durations share one integer scale; a backoff may be negative. */
  type Time = int

  datatype Option<+T> = None | Some(value: T)

  datatype RunStatus =
    | RunQueued | RunRunning | RunCancelling | RunCancelled | RunSucceeded | RunFailed

  datatype AttemptStatus =
    | AttemptQueued | AttemptLeased | AttemptRunning
    | AttemptSucceeded | AttemptFailed | AttemptLost | AttemptCancelled

  datatype Error =
    | ErrNotFound | ErrNoAssignment | ErrInvalidLease | ErrInvalidTransition
    | ErrRunCancelled | ErrEncoding | ErrIdempotencyConflict

  datatype RunResult = RunResult(summary: string, output: string)

  /** `needs` stands for everything node matching compares: runtime, labels, capabilities. */
  datatype Request = Request(
    tenant: string, project: string, key: string, needs: set<string>,
    maxAttempts: int, backoff: Time, timeout: Time)

  datatype Registration = Registration(id: string, offers: set<string>, capacity: int)

  datatype Attempt = Attempt(
    id: string, number: nat, status: AttemptStatus, nodeId: string, lease: string,
    leaseExpiresAt: Option<Time>, availableAt: Option<Time>,
    startedAt: Option<Time>, completedAt: Option<Time>)

  datatype Run = Run(
    id: string, tenant: string, project: string, key: string,
    status: RunStatus, attempt: Attempt, result: Option<RunResult>, error: string,
    createdAt: Time, startedAt: Option<Time>, completedAt: Option<Time>, deadlineAt: Option<Time>,
    cancelRequestedAt: Option<Time>, cancelReason: string, cancelledAt: Option<Time>)

  /** A random identifier of the server, or the digest of a producer's identity. */
  datatype EventId = Assigned | Producer(digest: string)

  /** Type and data of an event; EvFromNode carries both as the node sent them. */
  datatype EventBody =
    | EvCreated(status: RunStatus)
    | EvQueued(number: nat, availableAt: Option<Time>)
    | EvLeased(nodeId: string, expiresAt: Time)
    | EvLeaseExpired(nodeId: string)
    | EvStarted(nodeId: string)
    | EvRunStarted
    | EvLost(nodeId: string)
    | EvCancelRequested(reason: string, requestedBy: string)
    | EvAttemptCancelled(reason: string)
    | EvRunCancelled(reason: string)
    | EvAttemptSucceeded
    | EvRunSucceeded(result: RunResult)
    | EvAttemptFailed(error: string)
    | EvRunFailed(error: string)
    | EvRecorded(subject: Subject, id: string)
    | EvFromNode(kind: string, json: string)

  /** What a bookkeeping event of the server is about. */
  datatype Subject = ArtifactCreated | CapabilityRecorded | InteractionRequested | InteractionResolved

  datatype Event = Event(id: EventId, runId: string, attemptId: string, sequence: nat, body: EventBody)

  /** Event data offered by a caller: a JSON text in canonical form, or a value with no encoding. */
  datatype Payload = Json(text: string) | Unencodable

  datatype Assignment = Assignment(
    runId: string, attemptId: string, lease: string, leaseExpiresAt: Time, request: Request)

  datatype Reply<+T> = Accepted(value: T) | Rejected(error: Error)

  predicate Terminal(status: RunStatus) {
    status == RunSucceeded || status == RunFailed || status == RunCancelled
  }

  function WireName(body: EventBody): string {
    match body
    case EvCreated(_) => "run.created"
    case EvQueued(_, _) => "attempt.queued"
    case EvLeased(_, _) => "attempt.leased"
    case EvLeaseExpired(_) => "attempt.lease_expired"
    case EvStarted(_) => "attempt.started"
    case EvRunStarted => "run.started"
    case EvLost(_) => "attempt.lost"
    case EvCancelRequested(_, _) => "run.cancel_requested"
    case EvAttemptCancelled(_) => "attempt.cancelled"
    case EvRunCancelled(_) => "run.cancelled"
    case EvAttemptSucceeded => "attempt.succeeded"
    case EvRunSucceeded(_) => "run.succeeded"
    case EvAttemptFailed(_) => "attempt.failed"
    case EvRunFailed(_) => "run.failed"
    case EvRecorded(ArtifactCreated, _) => "artifact.created"
    case EvRecorded(CapabilityRecorded, _) => "capability.recorded"
    case EvRecorded(InteractionRequested, _) => "interaction.requested"
    case EvRecorded(InteractionResolved, _) => "interaction.resolved"
    case EvFromNode(kind, _) => kind
  }
}
