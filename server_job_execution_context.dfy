/** The per-attempt execution context a server worker hands to job code, and
    its cooperative cancellation check.

    The check first looks at the server's shutdown signal and, only when that
    is unset, re-reads the job's state record to confirm that this worker
    still owns the job. The two failure outcomes are kept apart: a shutdown
    means the job may be retried later, an abort means another party has
    taken the job over. */
module ServerContext {
  import opened Wrappers
  import opened Decimal
  import opened Storage

  /** Identity of the worker running the job: its server and its slot number. */
  datatype WorkerContext = WorkerContext(serverId: string, workerNumber: nat)

  /** A constructed context. Its fields are set once and never change;
      `shutdownToken` is true when server shutdown has been requested.
      `connection` stands for whatever storage holds at the moment of a
      check: the context keeps no copy of the state record, and a check after
      storage has changed is a check of `ctx.(connection := changed)`. */
  datatype Context = Context(
    jobId: string,
    connection: Connection,
    workerContext: WorkerContext,
    shutdownToken: bool)

  /** The argument-null failure of the constructor, naming the parameter. */
  datatype ArgumentNull = ArgumentNull(paramName: string)

  /** Why the ownership check decided that the job is no longer this worker's. */
  datatype AbortReason = StateMissing | NotProcessing | ServerMismatch | WorkerMismatch

  /** Result of the cancellation check: a normal return, the operation-cancelled
      failure raised on shutdown, or the job-aborted failure. */
  datatype CheckOutcome = NotCancelled | ShutdownRequested | JobAborted(reason: AbortReason)

  /** Constructs a context; a null job id, connection or worker context is
      rejected, naming the first such parameter. The shutdown token is a value
      and cannot be null. */
  function New(
    jobId: Option<string>,
    connection: Option<Connection>,
    workerContext: Option<WorkerContext>,
    shutdownToken: bool): (r: Result<Context, ArgumentNull>)
    ensures r.Success? <==> jobId.Some? && connection.Some? && workerContext.Some?
    ensures r.Success? ==>
      r.value.jobId == jobId.value && r.value.connection == connection.value &&
      r.value.workerContext == workerContext.value && r.value.shutdownToken == shutdownToken
    ensures r.Failure? ==>
      || (r.error.paramName == "jobId" && jobId.None?)
      || (r.error.paramName == "connection" && jobId.Some? && connection.None?)
      || (r.error.paramName == "workerContext" && jobId.Some? && connection.Some? && workerContext.None?)
  {
    if jobId.None? then Failure(ArgumentNull("jobId"))
    else if connection.None? then Failure(ArgumentNull("connection"))
    else if workerContext.None? then Failure(ArgumentNull("workerContext"))
    else Success(Context(jobId.value, connection.value, workerContext.value, shutdownToken))
  }

  /** Each argument that is null while the others are present is the one the
      argument-null failure names. */
  lemma NewNamesTheNullArgument(
    jobId: string, connection: Connection, workerContext: WorkerContext, shutdownToken: bool)
    ensures New(None, Some(connection), Some(workerContext), shutdownToken)
      == Failure(ArgumentNull("jobId"))
    ensures New(Some(jobId), None, Some(workerContext), shutdownToken)
      == Failure(ArgumentNull("connection"))
    ensures New(Some(jobId), Some(connection), None, shutdownToken)
      == Failure(ArgumentNull("workerContext"))
  {
  }

  /** Reference definition of ownership, independent of how the check compares:
      the record is a processing state whose owner keys name `worker`'s server
      and, in canonical decimal notation, `worker`'s slot number. */
  predicate OwnedBy(state: StateData, worker: WorkerContext) {
    state.name == ProcessingStateName
    && ServerIdKey in state.data && state.data[ServerIdKey] == worker.serverId
    && WorkerNumberKey in state.data
    && IsCanonicalDecimal(state.data[WorkerNumberKey])
    && DecimalValue(state.data[WorkerNumberKey]) == worker.workerNumber
  }

  /** The job's current record in storage shows `ctx`'s worker as its owner. */
  predicate StillOwned(ctx: Context) {
    match GetStateData(ctx.connection, ctx.jobId)
    case None => false
    case Some(state) => OwnedBy(state, ctx.workerContext)
  }

  /** The check may read storage: the stored record, if any, honours the
      storage contract for processing records. */
  predicate CanCheckOwnership(ctx: Context) {
    match GetStateData(ctx.connection, ctx.jobId)
    case None => true
    case Some(state) => NamesOwner(state)
  }

  /** ThrowIfCancellationRequested: shutdown first, then ownership in storage. */
  function ThrowIfCancellationRequested(ctx: Context): (r: CheckOutcome)
    requires ctx.shutdownToken || CanCheckOwnership(ctx)
    ensures ctx.shutdownToken ==> r == ShutdownRequested
    ensures r == ShutdownRequested ==> ctx.shutdownToken
  {
    if ctx.shutdownToken then ShutdownRequested
    else match GetStateData(ctx.connection, ctx.jobId)
      case None => JobAborted(StateMissing)
      case Some(state) =>
        if state.name != ProcessingStateName then JobAborted(NotProcessing)
        else if state.data[ServerIdKey] != ctx.workerContext.serverId then JobAborted(ServerMismatch)
        else if state.data[WorkerNumberKey] != NatToDecimal(ctx.workerContext.workerNumber) then
          JobAborted(WorkerMismatch)
        else NotCancelled
  }

  /** The check returns normally exactly when no shutdown is requested and
      storage still shows this worker as the job's owner; every other outcome
      without shutdown is a job abort. */
  lemma CheckPassesIffStillOwned(ctx: Context)
    requires ctx.shutdownToken || CanCheckOwnership(ctx)
    ensures ThrowIfCancellationRequested(ctx) == NotCancelled
      <==> !ctx.shutdownToken && StillOwned(ctx)
    ensures !ctx.shutdownToken && !StillOwned(ctx) ==> ThrowIfCancellationRequested(ctx).JobAborted?
  {
    if !ctx.shutdownToken && GetStateData(ctx.connection, ctx.jobId).Some? {
      var state := GetStateData(ctx.connection, ctx.jobId).value;
      if state.name == ProcessingStateName {
        NatToDecimalIsCanonicalNotation(ctx.workerContext.workerNumber, state.data[WorkerNumberKey]);
      }
    }
  }

  /** Without shutdown, the abort names the first ownership test that failed:
      missing record, then state name, then server id, then worker number. */
  lemma CheckAbortReason(ctx: Context)
    requires !ctx.shutdownToken && CanCheckOwnership(ctx)
    ensures GetStateData(ctx.connection, ctx.jobId).None? ==>
      ThrowIfCancellationRequested(ctx) == JobAborted(StateMissing)
    ensures GetStateData(ctx.connection, ctx.jobId).Some? ==>
      var state := GetStateData(ctx.connection, ctx.jobId).value;
      && (state.name != ProcessingStateName ==>
            ThrowIfCancellationRequested(ctx) == JobAborted(NotProcessing))
      && (state.name == ProcessingStateName && state.data[ServerIdKey] != ctx.workerContext.serverId ==>
            ThrowIfCancellationRequested(ctx) == JobAborted(ServerMismatch))
      && (state.name == ProcessingStateName && state.data[ServerIdKey] == ctx.workerContext.serverId
          && !(IsCanonicalDecimal(state.data[WorkerNumberKey])
               && DecimalValue(state.data[WorkerNumberKey]) == ctx.workerContext.workerNumber) ==>
            ThrowIfCancellationRequested(ctx) == JobAborted(WorkerMismatch))
  {
    if GetStateData(ctx.connection, ctx.jobId).Some? {
      var state := GetStateData(ctx.connection, ctx.jobId).value;
      if state.name == ProcessingStateName {
        NatToDecimalIsCanonicalNotation(ctx.workerContext.workerNumber, state.data[WorkerNumberKey]);
      }
    }
  }

  /** The check reads nothing from storage but the record of its own job: two
      contexts that agree on everything except the connection, and whose
      connections return the same record for the job, get the same outcome.
      Under shutdown the connection is not consulted at all. */
  lemma CheckReadsOnlyOwnRecord(ctx: Context, other: Connection)
    requires ctx.shutdownToken || CanCheckOwnership(ctx)
    requires ctx.shutdownToken || GetStateData(other, ctx.jobId) == GetStateData(ctx.connection, ctx.jobId)
    ensures ThrowIfCancellationRequested(ctx.(connection := other)) == ThrowIfCancellationRequested(ctx)
  {
  }

  /** At most one worker passes the check for a job: two workers that both
      find the job's current record naming them as owner are the same worker. */
  lemma OwnershipIsExclusive(ctx: Context, w: WorkerContext)
    requires CanCheckOwnership(ctx)
    requires ThrowIfCancellationRequested(ctx) == NotCancelled
    requires ThrowIfCancellationRequested(ctx.(workerContext := w)) == NotCancelled
    ensures w == ctx.workerContext
  {
    NatToDecimalInjective(w.workerNumber, ctx.workerContext.workerNumber);
  }
}
