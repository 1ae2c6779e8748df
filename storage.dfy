/** The read-only view of job storage that the execution context consumes:
    the persisted state record of a job and the connection it is read from. */
module Storage {
  import opened Wrappers

  /** The name under which the processing state is persisted. */
  const ProcessingStateName: string := "Processing"

  /** Keys of a processing state's data that name the owning worker. */
  const ServerIdKey: string := "ServerId"
  const WorkerNumberKey: string := "WorkerNumber"

  /** A job's current state record: its state name and string metadata. */
  datatype StateData = StateData(name: string, data: map<string, string>)

  /** A storage connection, seen through the one query the context makes of
      it: the state record currently stored for each job id. A job id that is
      not a key has no state record. */
  datatype Connection = Connection(states: map<string, StateData>)

  /** The state record stored for `jobId`, or None when there is none. */
  function GetStateData(connection: Connection, jobId: string): (r: Option<StateData>) {
    if jobId in connection.states then Some(connection.states[jobId]) else None
  }

  /** The storage contract for a processing record: it names its owner under
      both owner keys. Records in any other state need not. */
  predicate NamesOwner(state: StateData) {
    state.name == ProcessingStateName ==>
      ServerIdKey in state.data && WorkerNumberKey in state.data
  }
}
