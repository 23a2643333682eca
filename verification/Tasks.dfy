/** The task record that the queue stores and the CWMP session carries. */
module Tasks {
  import opened GoStrings

  datatype Status = Pending | Executing | Completed | Failed | Cancelled

  /** The distinctions the session machine makes between task types. */
  datatype Kind = Wan | AsyncDiagnostic | DiagResult | Ordinary

  datatype Task = Task(id: string, serial: string, kind: Kind, status: Status, attempts: nat)

  predicate Terminal(s: Status) {
    s == Completed || s == Failed || s == Cancelled
  }

  /** Ids of the tasks a session makes up: default parameters and the collection of diagnostic results. They are never
      enqueued, but a status write may store a record for them. */
  predicate Synthetic(id: string) {
    HasPrefix(id, "default_params_") || HasPrefix(id, "global_defaults_") || HasSuffix(id, "_collect")
  }
}
