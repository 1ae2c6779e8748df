/** The concrete scenarios of the context's test fixture: job "my-job", a
    worker (Server, 1), and a processing record that names that worker. Each
    lemma is one scenario, with the outcome the fixture expects. */
module FixtureScenarios {
  import opened Wrappers
  import opened Storage
  import opened ServerContext

  const FixtureJobId: string := "my-job"

  const FixtureWorker: WorkerContext := WorkerContext("Server", 1)

  /** The processing record of the fixture, with its owner keys overridden. */
  function ProcessingRecord(workerNumber: string, serverId: string): (state: StateData) {
    StateData(ProcessingStateName, map[WorkerNumberKey := workerNumber, ServerIdKey := serverId])
  }

  /** A context of the fixture whose storage holds `state` for the job. */
  function FixtureContext(state: StateData, shutdown: bool): (ctx: Context) {
    Context(FixtureJobId, Connection(map[FixtureJobId := state]), FixtureWorker, shutdown)
  }

  /** The context created through the constructor exposes the job id and the
      shutdown token it was given. */
  lemma ContextExposesJobIdAndShutdownToken(shutdown: bool)
    ensures
      var r := New(Some(FixtureJobId), Some(Connection(map[FixtureJobId := ProcessingRecord("1", "Server")])),
                   Some(FixtureWorker), shutdown);
      r.Success? && r.value.jobId == "my-job" && r.value.shutdownToken == shutdown
  {
  }

  /** The record names this worker and no shutdown is requested: normal return. */
  lemma DoesNotThrowOnProcessingJob()
    ensures ThrowIfCancellationRequested(FixtureContext(ProcessingRecord("1", "Server"), false)) == NotCancelled
  {
  }

  /** Shutdown requested: the operation-cancelled outcome, not a job abort,
      although the stored record still names this worker. */
  lemma ThrowsOperationCanceledOnShutdown()
    ensures ThrowIfCancellationRequested(FixtureContext(ProcessingRecord("1", "Server"), true)) == ShutdownRequested
    ensures !ThrowIfCancellationRequested(FixtureContext(ProcessingRecord("1", "Server"), true)).JobAborted?
  {
  }

  /** Storage returns no record for any job id: job aborted. */
  lemma ThrowsIfStateDataDoesNotExist()
    ensures ThrowIfCancellationRequested(Context(FixtureJobId, Connection(map[]), FixtureWorker, false)).JobAborted?
  {
  }

  /** The record is in a state other than processing: job aborted. */
  lemma ThrowsJobAbortedIfNotInProcessingState()
    ensures ThrowIfCancellationRequested(
      FixtureContext(ProcessingRecord("1", "Server").(name := "NotProcessing"), false)).JobAborted?
  {
  }

  /** The record names another server: job aborted. */
  lemma ThrowsJobAbortedIfDifferentServerId()
    ensures ThrowIfCancellationRequested(FixtureContext(ProcessingRecord("1", "AnotherServer"), false)).JobAborted?
  {
  }

  /** The record names another worker number: job aborted. */
  lemma ThrowsJobAbortedIfWorkerNumberWasChanged()
    ensures ThrowIfCancellationRequested(FixtureContext(ProcessingRecord("999", "Server"), false)).JobAborted?
  {
  }
}
