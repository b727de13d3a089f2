/** The EC2-backed lifecycle controller of the one game-server instance:
    the table from EC2 state names to `ServerState`, the best-effort state
    read, the guarded start and stop, and the connection query.

    The EC2 SDK client is modelled by `Ec2Client`: each of the four commands
    the controller sends gets the answer the client's fields hold (a failure,
    or the one optional string the controller looks at), and a ghost log
    records every command sent, so that "no start call was issued" can be
    stated. Each controller method is tied to a pure function of those
    answers (`ObservedState`, `StartOutcome`, ...) and the lemmas below the
    class are proved about those functions. */
module Ec2 {
  import opened Errors
  import opened ServerManager

  // ---------------------------------------------------------------------
  // Case folding

  /** Lower case of one character, for the ASCII letters. */
  function LowerChar(c: char): char {
    if 'A' <= c <= 'Z' then (c as int + 32) as char else c
  }

  /** Upper case of one character, for the ASCII letters. */
  function UpperChar(c: char): char {
    if 'a' <= c <= 'z' then (c as int - 32) as char else c
  }

  /** `toLowerCase`, folding the ASCII letters and leaving every other
      character as it is. */
  function Lower(s: string): (r: string)
    ensures |r| == |s|
    ensures forall i :: 0 <= i < |s| ==> r[i] == LowerChar(s[i])
  {
    if s == [] then [] else [LowerChar(s[0])] + Lower(s[1..])
  }

  /** `toUpperCase` on the ASCII letters. */
  function Upper(s: string): (r: string)
    ensures |r| == |s|
    ensures forall i :: 0 <= i < |s| ==> r[i] == UpperChar(s[i])
  {
    if s == [] then [] else [UpperChar(s[0])] + Upper(s[1..])
  }

  // ---------------------------------------------------------------------
  // The state table

  /** The six EC2 state names the controller knows, keyed in lower case. */
  const StateMap: map<string, ServerState> :=
    map[
      "pending" := PENDING,
      "running" := RUNNING,
      "shutting-down" := SHUTTING_DOWN,
      "stopped" := STOPPED,
      "stopping" := STOPPING,
      "terminated" := TERMINATED
    ]

  /** The EC2 name of each state that EC2 reports (all but UNKNOWN). */
  function Ec2Label(s: ServerState): (key: string)
    requires s != UNKNOWN
    ensures key in StateMap && StateMap[key] == s
  {
    match s
    case PENDING => "pending"
    case RUNNING => "running"
    case SHUTTING_DOWN => "shutting-down"
    case STOPPED => "stopped"
    case STOPPING => "stopping"
    case TERMINATED => "terminated"
  }

  const StateNotFound := "Instance state not found"

  /** mapInstanceState: an absent name reads as the empty string, the name is
      lower-cased and looked up; a miss is an InternalServerError. */
  function MapInstanceState(stateName: Option<string>): (r: Result<ServerState>)
    ensures r.Ok? <==> stateName.Some? && Lower(stateName.value) in StateMap
    ensures r.Ok? ==> r.value != UNKNOWN
    ensures r.Err? ==> r.error == InternalServerError(StateNotFound)
  {
    var key := match stateName case Some(name) => Lower(name) case None => "";
    if key in StateMap then Ok(StateMap[key]) else Err(InternalServerError(StateNotFound))
  }

  // ---------------------------------------------------------------------
  // The EC2 client

  /** What EC2 answers to one command: the call fails (the SDK throws), or
      it returns the one field the controller reads, which may be absent. */
  datatype Reply = Failed | Answered(field: Option<string>)

  /** The commands the controller sends, with the parameters it sets. */
  datatype Ec2Command =
    | DescribeInstanceStatusCommand(instanceIds: seq<string>, includeAllInstances: bool)
    | StartInstancesCommand(instanceIds: seq<string>)
    | StopInstancesCommand(instanceIds: seq<string>)
    | DescribeInstancesCommand(instanceIds: seq<string>)

  class Ec2Client {
    /** `InstanceStatuses[0].InstanceState.Name` of a DescribeInstanceStatus. */
    var statusReply: Reply
    /** `StartingInstances[0].CurrentState.Name` of a StartInstances. */
    var startReply: Reply
    /** `StoppingInstances[0].CurrentState.Name` of a StopInstances. */
    var stopReply: Reply
    /** `Reservations[0].Instances[0].PublicIpAddress` of a DescribeInstances. */
    var instancesReply: Reply
    /** Every command sent so far, oldest first. */
    ghost var sent: seq<Ec2Command>

    constructor (statusReply: Reply, startReply: Reply, stopReply: Reply, instancesReply: Reply)
      ensures this.statusReply == statusReply && this.startReply == startReply
      ensures this.stopReply == stopReply && this.instancesReply == instancesReply
      ensures sent == []
    {
      this.statusReply := statusReply;
      this.startReply := startReply;
      this.stopReply := stopReply;
      this.instancesReply := instancesReply;
      sent := [];
    }

    function AnswerTo(command: Ec2Command): Reply
      reads this
    {
      match command
      case DescribeInstanceStatusCommand(_, _) => statusReply
      case StartInstancesCommand(_) => startReply
      case StopInstancesCommand(_) => stopReply
      case DescribeInstancesCommand(_) => instancesReply
    }

    /** `ec2Client.send(command)`. */
    method Send(command: Ec2Command) returns (reply: Reply)
      modifies this`sent
      ensures reply == AnswerTo(command)
      ensures sent == old(sent) + [command]
    {
      reply := AnswerTo(command);
      sent := sent + [command];
    }
  }

  // ---------------------------------------------------------------------
  // What each controller operation computes and sends

  function DescribeStatus(instanceId: string): Ec2Command {
    DescribeInstanceStatusCommand([instanceId], true)
  }

  /** getInstanceState: every failure, of the call or of the mapping,
      becomes UNKNOWN. */
  function ObservedState(statusReply: Reply): ServerState {
    match statusReply
    case Failed => UNKNOWN
    case Answered(name) =>
      match MapInstanceState(name)
      case Ok(s) => s
      case Err(_) => UNKNOWN
  }

  const StartRejected := "Server cannnot be started. State is "
  const StopRejected := "Server cannnot be stopped. State is "

  /** start and stop: read the state; unless it is `required`, fail with a
      BadRequest whose message is `rejection` followed by the state read;
      otherwise map the transition command's answer, outside any `try`. */
  function TransitionOutcome(required: ServerState, rejection: string, statusReply: Reply, commandReply: Reply)
    : Result<ServerState>
  {
    var current := ObservedState(statusReply);
    if current != required then
      Err(BadRequest(rejection + StateName(current)))
    else
      match commandReply
      case Failed => Err(Ec2ClientError)
      case Answered(name) => MapInstanceState(name)
  }

  /** The commands start and stop send: the status read, and the transition
      command only when the state read is `required`. */
  function TransitionCommands(required: ServerState, command: Ec2Command, instanceId: string, statusReply: Reply)
    : seq<Ec2Command>
  {
    [DescribeStatus(instanceId)] + if ObservedState(statusReply) == required then [command] else []
  }

  function StartOutcome(statusReply: Reply, startReply: Reply): Result<ServerState> {
    TransitionOutcome(STOPPED, StartRejected, statusReply, startReply)
  }

  function StartCommands(instanceId: string, statusReply: Reply): seq<Ec2Command> {
    TransitionCommands(STOPPED, StartInstancesCommand([instanceId]), instanceId, statusReply)
  }

  function StopOutcome(statusReply: Reply, stopReply: Reply): Result<ServerState> {
    TransitionOutcome(RUNNING, StopRejected, statusReply, stopReply)
  }

  function StopCommands(instanceId: string, statusReply: Reply): seq<Ec2Command> {
    TransitionCommands(RUNNING, StopInstancesCommand([instanceId]), instanceId, statusReply)
  }

  /** The fixed game port the connection reports. */
  const ServerPort := "25565"

  /** getConnection: only a RUNNING instance is asked for its address. */
  function ConnectionOutcome(statusReply: Reply, instancesReply: Reply): Result<ServerConnection> {
    var current := ObservedState(statusReply);
    if current != RUNNING then
      Ok(ServerConnection(current, None, None))
    else
      match instancesReply
      case Failed => Err(Ec2ClientError)
      case Answered(ip) => Ok(ServerConnection(current, ip, Some(ServerPort)))
  }

  function ConnectionCommands(instanceId: string, statusReply: Reply): seq<Ec2Command> {
    [DescribeStatus(instanceId)]
      + if ObservedState(statusReply) == RUNNING then [DescribeInstancesCommand([instanceId])] else []
  }

  // ---------------------------------------------------------------------
  // The controller

  class Ec2ServerManager {
    const instanceId: string
    const client: Ec2Client

    constructor (instanceId: string, client: Ec2Client)
      ensures this.instanceId == instanceId && this.client == client
    {
      this.instanceId := instanceId;
      this.client := client;
    }

    /** Never fails: a failed call, a missing status entry and an unmapped
        name all read as UNKNOWN. */
    method GetInstanceState() returns (state: ServerState)
      modifies client`sent
      ensures state == ObservedState(client.statusReply)
      ensures client.sent == old(client.sent) + [DescribeStatus(instanceId)]
    {
      var reply := client.Send(DescribeInstanceStatusCommand([instanceId], true));
      match reply
      case Failed =>
        state := UNKNOWN;
      case Answered(name) =>
        var mapped := MapInstanceState(name);
        state := if mapped.Ok? then mapped.value else UNKNOWN;
    }

    method Start() returns (result: Result<ServerState>)
      modifies client`sent
      ensures result == StartOutcome(client.statusReply, client.startReply)
      ensures client.sent == old(client.sent) + StartCommands(instanceId, client.statusReply)
      ensures result.Err? && result.error.BadRequest? ==> client.sent == old(client.sent) + [DescribeStatus(instanceId)]
    {
      var currentState := GetInstanceState();
      if currentState != STOPPED {
        return Err(BadRequest(StartRejected + StateName(currentState)));
      }
      var reply := client.Send(StartInstancesCommand([instanceId]));
      match reply
      case Failed =>
        result := Err(Ec2ClientError);
      case Answered(name) =>
        result := MapInstanceState(name);
    }

    method Stop() returns (result: Result<ServerState>)
      modifies client`sent
      ensures result == StopOutcome(client.statusReply, client.stopReply)
      ensures client.sent == old(client.sent) + StopCommands(instanceId, client.statusReply)
      ensures result.Err? && result.error.BadRequest? ==> client.sent == old(client.sent) + [DescribeStatus(instanceId)]
    {
      var currentState := GetInstanceState();
      if currentState != RUNNING {
        return Err(BadRequest(StopRejected + StateName(currentState)));
      }
      var reply := client.Send(StopInstancesCommand([instanceId]));
      match reply
      case Failed =>
        result := Err(Ec2ClientError);
      case Answered(name) =>
        result := MapInstanceState(name);
    }

    method GetConnection() returns (result: Result<ServerConnection>)
      modifies client`sent
      ensures result == ConnectionOutcome(client.statusReply, client.instancesReply)
      ensures client.sent == old(client.sent) + ConnectionCommands(instanceId, client.statusReply)
    {
      var currentState := GetInstanceState();
      if currentState != RUNNING {
        return Ok(ServerConnection(currentState, None, None));
      }
      var reply := client.Send(DescribeInstancesCommand([instanceId]));
      match reply
      case Failed =>
        result := Err(Ec2ClientError);
      case Answered(ip) =>
        result := Ok(ServerConnection(currentState, ip, Some(ServerPort)));
    }
  }

  // ---------------------------------------------------------------------
  // Properties of the state table

  /** Every key of the table is written with lower-case letters and '-'. */
  ghost predicate FoldedKey(key: string) {
    forall i :: 0 <= i < |key| ==> ('a' <= key[i] <= 'z' || key[i] == '-')
  }

  lemma KeysAreFolded(key: string)
    requires key in StateMap
    ensures FoldedKey(key)
  {
  }

  /** A name selects state `s` exactly when its folding is the EC2 name of
      `s`; UNKNOWN is never selected. */
  lemma MapInstanceStateIff(name: string, s: ServerState)
    ensures MapInstanceState(Some(name)) == Ok(s) <==> s != UNKNOWN && Lower(name) == Ec2Label(s)
  {
  }

  /** Case-insensitivity: any mix of upper and lower case of an EC2 name
      selects the same state as the name itself. */
  lemma {:induction false} MapInstanceStateAnyCase(s: ServerState, name: string)
    requires s != UNKNOWN
    requires |name| == |Ec2Label(s)|
    requires forall i :: 0 <= i < |name| ==> name[i] == Ec2Label(s)[i] || name[i] == UpperChar(Ec2Label(s)[i])
    ensures MapInstanceState(Some(name)) == Ok(s)
  {
    var key := Ec2Label(s);
    KeysAreFolded(key);
    forall i | 0 <= i < |name|
      ensures Lower(name)[i] == key[i]
    {
      assert 'a' <= key[i] <= 'z' || key[i] == '-';
    }
    assert Lower(name) == key;
  }

  /** The all-capitals spelling of each EC2 name selects its state. */
  lemma MapInstanceStateUpperCase(s: ServerState)
    requires s != UNKNOWN
    ensures MapInstanceState(Some(Upper(Ec2Label(s)))) == Ok(s)
  {
    MapInstanceStateAnyCase(s, Upper(Ec2Label(s)));
  }

  lemma MapInstanceStateExample()
    ensures MapInstanceState(Some("RUNNING")) == Ok(RUNNING)
    ensures MapInstanceState(Some("Shutting-Down")) == Ok(SHUTTING_DOWN)
  {
    MapInstanceStateAnyCase(RUNNING, "RUNNING");
    MapInstanceStateAnyCase(SHUTTING_DOWN, "Shutting-Down");
  }

  /** An absent name, the empty name and any name outside the table are an
      InternalServerError, never UNKNOWN. */
  lemma MapInstanceStateRejects(stateName: Option<string>)
    requires stateName.None? || stateName == Some("") || Lower(stateName.value) !in StateMap
    ensures MapInstanceState(stateName) == Err(InternalServerError(StateNotFound))
  {
  }

  // ---------------------------------------------------------------------
  // Properties of the state read

  /** The state read is UNKNOWN exactly when the call fails, the answer has
      no state name, or the name is not in the table; otherwise it is the
      state the name selects. */
  lemma ObservedStateIff(statusReply: Reply)
    ensures ObservedState(statusReply) == UNKNOWN
      <==> statusReply.Failed? || statusReply.field.None? || Lower(statusReply.field.value) !in StateMap
    ensures ObservedState(statusReply) != UNKNOWN
      ==> MapInstanceState(statusReply.field) == Ok(ObservedState(statusReply))
  {
  }

  // ---------------------------------------------------------------------
  // Properties of start and stop

  /** start is rejected with a BadRequest exactly when the state read is not
      STOPPED (UNKNOWN included); the message names that state, and only
      the status read is sent. */
  lemma StartRejectedUnlessStopped(instanceId: string, statusReply: Reply, startReply: Reply)
    ensures (StartOutcome(statusReply, startReply).Err? && StartOutcome(statusReply, startReply).error.BadRequest?)
      <==> ObservedState(statusReply) != STOPPED
    ensures ObservedState(statusReply) != STOPPED ==>
      && StartOutcome(statusReply, startReply)
           == Err(BadRequest(StartRejected + StateName(ObservedState(statusReply))))
      && StartCommands(instanceId, statusReply) == [DescribeInstanceStatusCommand([instanceId], true)]
  {
  }

  /** From STOPPED, start sends exactly one StartInstances for the instance
      and returns the state its answer names; a failed call, an absent or
      an unmapped name propagate as errors. */
  lemma StartFromStopped(instanceId: string, statusReply: Reply, startReply: Reply)
    requires ObservedState(statusReply) == STOPPED
    ensures StartCommands(instanceId, statusReply)
      == [DescribeInstanceStatusCommand([instanceId], true), StartInstancesCommand([instanceId])]
    ensures startReply.Failed? ==> StartOutcome(statusReply, startReply) == Err(Ec2ClientError)
    ensures startReply.Answered? ==> StartOutcome(statusReply, startReply) == MapInstanceState(startReply.field)
  {
  }

  /** start returns a state exactly when the state read is STOPPED and the
      StartInstances answer carries a name in the table; that state is
      never UNKNOWN. */
  lemma StartSucceedsIff(statusReply: Reply, startReply: Reply)
    ensures StartOutcome(statusReply, startReply).Ok?
      <==> ObservedState(statusReply) == STOPPED && startReply.Answered? && MapInstanceState(startReply.field).Ok?
    ensures StartOutcome(statusReply, startReply).Ok? ==> StartOutcome(statusReply, startReply).value != UNKNOWN
  {
  }

  lemma StopRejectedUnlessRunning(instanceId: string, statusReply: Reply, stopReply: Reply)
    ensures (StopOutcome(statusReply, stopReply).Err? && StopOutcome(statusReply, stopReply).error.BadRequest?)
      <==> ObservedState(statusReply) != RUNNING
    ensures ObservedState(statusReply) != RUNNING ==>
      && StopOutcome(statusReply, stopReply)
           == Err(BadRequest(StopRejected + StateName(ObservedState(statusReply))))
      && StopCommands(instanceId, statusReply) == [DescribeInstanceStatusCommand([instanceId], true)]
  {
  }

  lemma StopFromRunning(instanceId: string, statusReply: Reply, stopReply: Reply)
    requires ObservedState(statusReply) == RUNNING
    ensures StopCommands(instanceId, statusReply)
      == [DescribeInstanceStatusCommand([instanceId], true), StopInstancesCommand([instanceId])]
    ensures stopReply.Failed? ==> StopOutcome(statusReply, stopReply) == Err(Ec2ClientError)
    ensures stopReply.Answered? ==> StopOutcome(statusReply, stopReply) == MapInstanceState(stopReply.field)
  {
  }

  lemma StopSucceedsIff(statusReply: Reply, stopReply: Reply)
    ensures StopOutcome(statusReply, stopReply).Ok?
      <==> ObservedState(statusReply) == RUNNING && stopReply.Answered? && MapInstanceState(stopReply.field).Ok?
    ensures StopOutcome(statusReply, stopReply).Ok? ==> StopOutcome(statusReply, stopReply).value != UNKNOWN
  {
  }

  /** A start that succeeded into PENDING or RUNNING is followed, while EC2
      still reports that state, by a start that is rejected and sends no
      StartInstances. */
  lemma RestartBeforeStoppedRejected(
    instanceId: string, status1: Reply, reply1: Reply, status2: Reply, reply2: Reply)
    requires StartOutcome(status1, reply1).Ok?
    requires StartOutcome(status1, reply1).value in {PENDING, RUNNING}
    requires ObservedState(status2) == StartOutcome(status1, reply1).value
    ensures StartOutcome(status2, reply2).Err? && StartOutcome(status2, reply2).error.BadRequest?
    ensures StartInstancesCommand([instanceId]) !in StartCommands(instanceId, status2)
  {
  }

  // ---------------------------------------------------------------------
  // Properties of the connection query

  /** Unless the state read is RUNNING, the connection is only that state,
      and no DescribeInstances is sent. */
  lemma ConnectionWhenNotRunning(instanceId: string, statusReply: Reply, instancesReply: Reply)
    requires ObservedState(statusReply) != RUNNING
    ensures ConnectionOutcome(statusReply, instancesReply) == Ok(ServerConnection(ObservedState(statusReply), None, None))
    ensures ConnectionCommands(instanceId, statusReply) == [DescribeInstanceStatusCommand([instanceId], true)]
  {
  }

  /** When RUNNING, the connection carries port "25565" and the public IP
      EC2 reports (which may be absent); a failed DescribeInstances
      propagates. */
  lemma ConnectionWhenRunning(instanceId: string, statusReply: Reply, instancesReply: Reply)
    requires ObservedState(statusReply) == RUNNING
    ensures instancesReply.Answered? ==>
      ConnectionOutcome(statusReply, instancesReply) == Ok(ServerConnection(RUNNING, instancesReply.field, Some("25565")))
    ensures instancesReply.Failed? ==> ConnectionOutcome(statusReply, instancesReply) == Err(Ec2ClientError)
    ensures ConnectionCommands(instanceId, statusReply)
      == [DescribeInstanceStatusCommand([instanceId], true), DescribeInstancesCommand([instanceId])]
  {
  }

  /** A connection always reports the state read, and carries a host or a
      port only when that state is RUNNING. */
  lemma ConnectionEndpointOnlyWhenRunning(statusReply: Reply, instancesReply: Reply)
    requires ConnectionOutcome(statusReply, instancesReply).Ok?
    ensures ConnectionOutcome(statusReply, instancesReply).value.state == ObservedState(statusReply)
    ensures ConnectionOutcome(statusReply, instancesReply).value.host.Some?
      ==> ConnectionOutcome(statusReply, instancesReply).value.state == RUNNING
    ensures ConnectionOutcome(statusReply, instancesReply).value.port.Some?
      <==> ConnectionOutcome(statusReply, instancesReply).value.state == RUNNING
  {
  }

  lemma ConnectionExample()
    ensures ConnectionOutcome(Answered(Some("running")), Answered(Some("203.0.113.5")))
      == Ok(ServerConnection(RUNNING, Some("203.0.113.5"), Some("25565")))
  {
    MapInstanceStateAnyCase(RUNNING, "running");
  }
}
