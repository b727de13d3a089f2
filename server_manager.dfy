/** The domain types of the server-manager port: the normalised lifecycle
    state of the game server's instance and the connection record. */
module ServerManager {
  import opened Errors

  datatype ServerState =
    | PENDING
    | RUNNING
    | STOPPING
    | STOPPED
    | SHUTTING_DOWN
    | TERMINATED
    | UNKNOWN

  /** The string value of each enum member, as it appears in messages. */
  function StateName(s: ServerState): (name: string)
    ensures |name| > 0
  {
    match s
    case PENDING => "PENDING"
    case RUNNING => "RUNNING"
    case STOPPING => "STOPPING"
    case STOPPED => "STOPPED"
    case SHUTTING_DOWN => "SHUTTING_DOWN"
    case TERMINATED => "TERMINATED"
    case UNKNOWN => "UNKNOWN"
  }

  /** Distinct states have distinct names, so a message that carries the
      name of a state identifies that state. */
  lemma StateNameInjective(a: ServerState, b: ServerState)
    ensures StateName(a) == StateName(b) <==> a == b
  {
  }

  /** What a connection query returns: the state, and, only when the
      instance runs, the port and the public address (which may still be
      missing). */
  datatype ServerConnection = ServerConnection(
    state: ServerState,
    host: Option<string>,
    port: Option<string>)
}
