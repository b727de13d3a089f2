/** The start use case: whatever `start()` does, report only whether it
    returned normally. */
module StartServer {
  import opened Errors
  import opened ServerManager
  import Ec2

  datatype StartServerInput = StartServerInput
  datatype StartServerOutput = StartServerOutput(success: bool)

  /** execute, given what `serverManager.start()` did: returned a state, or
      threw an error (which is logged and swallowed). */
  function Execute(input: StartServerInput, started: Result<ServerState>): StartServerOutput {
    match started
    case Ok(_) => StartServerOutput(true)
    case Err(_) => StartServerOutput(false)
  }

  /** `success` is true exactly when start returned normally. */
  lemma SuccessIffStartReturned(input: StartServerInput, started: Result<ServerState>)
    ensures Execute(input, started).success <==> started.Ok?
  {
  }

  /** The returned state, the kind of error and the input are all
      discarded. */
  lemma OutcomeDetailDiscarded(i1: StartServerInput, i2: StartServerInput, r1: Result<ServerState>, r2: Result<ServerState>)
    requires r1.Ok? == r2.Ok?
    ensures Execute(i1, r1) == Execute(i2, r2)
  {
  }

  /** With the EC2 controller behind it, start succeeds exactly when the
      state read is STOPPED and StartInstances answers with a known state
      name; a rejected start, UNKNOWN included, reports failure. */
  lemma SuccessIffControllerStarts(input: StartServerInput, statusReply: Ec2.Reply, startReply: Ec2.Reply)
    ensures Execute(input, Ec2.StartOutcome(statusReply, startReply)).success
      <==> Ec2.ObservedState(statusReply) == STOPPED && startReply.Answered? && Ec2.MapInstanceState(startReply.field).Ok?
    ensures Ec2.ObservedState(statusReply) != STOPPED ==> !Execute(input, Ec2.StartOutcome(statusReply, startReply)).success
  {
    Ec2.StartSucceedsIff(statusReply, startReply);
  }
}
