# Hangfire server job execution context — Dafny model

This project models `ServerJobExecutionContext`, the object a Hangfire server
worker creates for one attempt at running a job and hands to the job's code,
together with its cooperative cancellation check `ThrowIfCancellationRequested`.

- **Construction** takes a job id, a storage connection, the worker's context
  (server id and worker number) and the server's shutdown token. A null job id,
  connection or worker context is rejected with an argument-null failure that
  names the parameter. `JobId` and `ShutdownToken` return what was passed in.
- **The check** fails with the operation-cancelled outcome when shutdown has been
  requested, without reading storage. Otherwise it reads the job's state record
  and fails with a job-aborted outcome when the record is missing, is not in the
  `Processing` state, or names a different `ServerId` or `WorkerNumber` than the
  worker. In every other case it returns normally.

The implementation file of the context is not part of this model. Its behaviour
is taken from the test fixture `ServerJobExecutionContextFacts.cs` and proved in
general in module `ServerContext`. The fixture's eleven tests are covered as follows:
the three constructor tests by `ServerContext.NewNamesTheNullArgument`, the two
accessor tests (`ShutdownToken`, `JobId`) together by
`FixtureScenarios.ContextExposesJobIdAndShutdownToken`, and each of the six
cancellation-check tests by its own lemma in `FixtureScenarios`.

Modules:

- `Wrappers` (wrappers.dfy): `Option` stands for a nullable reference, `Result` for a call that may throw.
- `Decimal` (decimal.dfy): the decimal rendering of worker numbers. Storage keeps the
  worker number as a string (`"1"`) and the worker knows it as an integer. The module
  proves that the rendering is exactly canonical decimal notation: it reads back to
  the number, and it is the only digit string without leading zeros that does.
- `Storage` (storage.dfy): the state record (`StateData`: name plus string map), the
  `Processing` state name and owner keys, and the connection seen as a lookup from job id to record.
- `ServerContext` (server_job_execution_context.dfy): the context, its constructor, the
  check, and the lemmas that relate the check to an independent definition of ownership.
- `FixtureScenarios` (fixture_scenarios.dfy): the fixture's concrete scenarios.

## Model

| member | source | states |
|---|---|---|
| `Decimal.NatToDecimal` | tests/Hangfire.Core.Tests/Server/ServerJobExecutionContextFacts.cs:27-35 | the worker number's rendering is a non-empty digit string with no leading zero (except "0") |
| `Decimal.DecimalValueOfNatToDecimal` | tests/Hangfire.Core.Tests/Server/ServerJobExecutionContextFacts.cs:27-35 | reading back the rendering of n gives n |
| `Decimal.NatToDecimalOfDecimalValue` | tests/Hangfire.Core.Tests/Server/ServerJobExecutionContextFacts.cs:27-35 | every canonical decimal string is the rendering of the number it denotes |
| `Decimal.NatToDecimalIsCanonicalNotation` | tests/Hangfire.Core.Tests/Server/ServerJobExecutionContextFacts.cs:134-141 | a stored worker-number string equals the rendering of n if and only if it is canonical decimal notation for n |
| `Decimal.NatToDecimalInjective` | tests/Hangfire.Core.Tests/Server/ServerJobExecutionContextFacts.cs:134-141 | different worker numbers never share a rendering |
| `ServerContext.New` | tests/Hangfire.Core.Tests/Server/ServerJobExecutionContextFacts.cs:41-84 | construction succeeds if and only if job id, connection and worker context are all non-null; the context then holds exactly the given job id, connection, worker context and shutdown token; a failure names a parameter that is null, and the first null one in parameter order |
| `ServerContext.NewNamesTheNullArgument` | tests/Hangfire.Core.Tests/Server/ServerJobExecutionContextFacts.cs:41-69 | with only the job id, only the connection, or only the worker context null, the failure names "jobId", "connection" or "workerContext" respectively |
| `ServerContext.ThrowIfCancellationRequested` | tests/Hangfire.Core.Tests/Server/ServerJobExecutionContextFacts.cs:94-102 | a requested shutdown always gives the operation-cancelled outcome, whatever storage holds, and that outcome arises only from shutdown |
| `ServerContext.CheckPassesIffStillOwned` | tests/Hangfire.Core.Tests/Server/ServerJobExecutionContextFacts.cs:86-141 | the check returns normally if and only if there is no shutdown and the stored record is a Processing state naming this worker's server and, in decimal, its number; otherwise without shutdown it is a job abort |
| `ServerContext.CheckAbortReason` | tests/Hangfire.Core.Tests/Server/ServerJobExecutionContextFacts.cs:104-141 | without shutdown, a missing record, a non-Processing state, another server id, and a worker number that is not this worker's in decimal each abort the job, tested in that order |
| `ServerContext.CheckReadsOnlyOwnRecord` | tests/Hangfire.Core.Tests/Server/ServerJobExecutionContextFacts.cs:32-33 | the outcome depends on storage only through the record stored for the context's own job id, and not at all under shutdown |
| `ServerContext.OwnershipIsExclusive` | tests/Hangfire.Core.Tests/Server/ServerJobExecutionContextFacts.cs:123-141 | two workers that both pass the check against the same stored record are the same worker (same server id and same worker number), so at most one worker keeps running the job |
| `FixtureScenarios.ContextExposesJobIdAndShutdownToken` | tests/Hangfire.Core.Tests/Server/ServerJobExecutionContextFacts.cs:71-84 | the fixture's context returns job id "my-job" and the shutdown token it was given |
| `FixtureScenarios.DoesNotThrowOnProcessingJob` | tests/Hangfire.Core.Tests/Server/ServerJobExecutionContextFacts.cs:86-92 | record {Processing, WorkerNumber "1", ServerId "Server"}, worker (Server, 1), no shutdown: normal return |
| `FixtureScenarios.ThrowsOperationCanceledOnShutdown` | tests/Hangfire.Core.Tests/Server/ServerJobExecutionContextFacts.cs:94-102 | shutdown with the valid record: operation cancelled, not a job abort |
| `FixtureScenarios.ThrowsIfStateDataDoesNotExist` | tests/Hangfire.Core.Tests/Server/ServerJobExecutionContextFacts.cs:104-111 | storage returns no record for any job id: job aborted |
| `FixtureScenarios.ThrowsJobAbortedIfNotInProcessingState` | tests/Hangfire.Core.Tests/Server/ServerJobExecutionContextFacts.cs:113-121 | state name "NotProcessing": job aborted |
| `FixtureScenarios.ThrowsJobAbortedIfDifferentServerId` | tests/Hangfire.Core.Tests/Server/ServerJobExecutionContextFacts.cs:123-131 | stored ServerId "AnotherServer" against worker server "Server": job aborted |
| `FixtureScenarios.ThrowsJobAbortedIfWorkerNumberWasChanged` | tests/Hangfire.Core.Tests/Server/ServerJobExecutionContextFacts.cs:133-141 | stored WorkerNumber "999" against worker number 1: job aborted |

## Left out

- The implementation file `ServerJobExecutionContext.cs` is not part of this model; the behaviour follows the test fixture.
- `IStorageConnection` and the mocking library: the connection is modelled as the map from job id to state record that `GetStateData` answers from. A change in storage between two checks is a context with a different connection value.
- `CancellationToken`: modelled as a boolean "shutdown requested". Its thread-safe broadcast semantics are out of scope for a sequential model.
- `ServerContext.ThrowIfCancellationRequested`: requires that a Processing record carries both the `ServerId` and the `WorkerNumber` keys, because no test defines what happens when one is absent.
- `ServerContext.ThrowIfCancellationRequested`: does not model storage read failures (connectivity errors), because nothing in the fixture defines their outcome.
- `ServerContext.ThrowIfCancellationRequested`: the state name is compared exactly with "Processing"; whether the implementation ignores case is not visible.
- `ServerContext.WorkerContext`: the worker number is a `nat`; negative worker numbers, and their rendering with a minus sign, are not modelled.
- `ServerContext.New`: when several arguments are null at once, the model names the first in parameter order; the fixture only tests one null argument at a time.
- `ServerContext.CheckOutcome`: the abort reason is a refinement for diagnostics; the fixture checks only the exception type.
- The `IJobCancellationToken` and `IJobExecutionContext` interfaces through which the fixture reaches the context: the model calls the context directly.
- Repeating the check with unchanged storage gives the same outcome, because the check is a function of its inputs; no lemma states it separately.
- Invoking the user's job method with the context, and the test harness itself.
