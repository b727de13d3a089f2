/** The stop use case: whatever `stop()` does, report only whether it
    returned normally. */
module StopServer {
  import opened Errors
  import opened ServerManager
  import Ec2

  datatype StopServerInput = StopServerInput
  datatype StopServerOutput = StopServerOutput(success: bool)

  /** execute, given what `serverManager.stop()` did: returned a state, or
      threw an error (which is logged and swallowed). */
  function Execute(input: StopServerInput, stopped: Result<ServerState>): StopServerOutput {
    match stopped
    case Ok(_) => StopServerOutput(true)
    case Err(_) => StopServerOutput(false)
  }

  /** `success` is true exactly when stop returned normally. */
  lemma SuccessIffStopReturned(input: StopServerInput, stopped: Result<ServerState>)
    ensures Execute(input, stopped).success <==> stopped.Ok?
  {
  }

  /** The returned state, the kind of error and the input are all
      discarded. */
  lemma OutcomeDetailDiscarded(i1: StopServerInput, i2: StopServerInput, r1: Result<ServerState>, r2: Result<ServerState>)
    requires r1.Ok? == r2.Ok?
    ensures Execute(i1, r1) == Execute(i2, r2)
  {
  }

  /** With the EC2 controller behind it, stop succeeds exactly when the
      state read is RUNNING and StopInstances answers with a known state
      name; a rejected stop, UNKNOWN included, reports failure. */
  lemma SuccessIffControllerStops(input: StopServerInput, statusReply: Ec2.Reply, stopReply: Ec2.Reply)
    ensures Execute(input, Ec2.StopOutcome(statusReply, stopReply)).success
      <==> Ec2.ObservedState(statusReply) == RUNNING && stopReply.Answered? && Ec2.MapInstanceState(stopReply.field).Ok?
    ensures Ec2.ObservedState(statusReply) != RUNNING ==> !Execute(input, Ec2.StopOutcome(statusReply, stopReply)).success
  {
    Ec2.StopSucceedsIff(statusReply, stopReply);
  }
}
