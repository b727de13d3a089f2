/** The execute-command use case: only an OWNER may send a command to the
    game server; its output lines come back newline-joined and cut to the
    last 1024 characters.

    The command channel (`sendCommand`) is not part of this model; it is
    taken as a total function from the command to the lines it returns.
    That the channel is not consulted is stated as: the result does not
    depend on it. */
module ExecuteServerCommand {
  import opened Errors
  import opened Authorization
  import DiscordAuthorization

  datatype ExecuteServerCommandInput = ExecuteServerCommandInput(principal: Principal, command: string)
  datatype ExecuteServerCommandOutput = ExecuteServerCommandOutput(output: string)

  const MaxOutputLength := 1024

  /** `lines.join(separator)`: the lines with one separator between
      neighbours; no lines give "". */
  function Join(lines: seq<string>, separator: string): string {
    if |lines| == 0 then ""
    else if |lines| == 1 then lines[0]
    else lines[0] + separator + Join(lines[1..], separator)
  }

  /** The sum of the lengths of the lines. */
  function TotalLength(lines: seq<string>): nat {
    if lines == [] then 0 else |lines[0]| + TotalLength(lines[1..])
  }

  /** `s.slice(-1024)`: the suffix of `s` of length min(|s|, 1024). */
  function LastOutput(s: string): (r: string)
    ensures |r| == if |s| <= MaxOutputLength then |s| else MaxOutputLength
    ensures s == s[..|s| - |r|] + r
  {
    if |s| <= MaxOutputLength then s else s[|s| - MaxOutputLength..]
  }

  function Execute(auth: Auth, input: ExecuteServerCommandInput, sendCommand: string -> seq<string>)
    : Result<ExecuteServerCommandOutput>
  {
    match auth.AssertRoleOrHigher(OWNER, input.principal)
    case Fail(e) => Err(e)
    case Pass =>
      var outputLines := sendCommand(input.command);
      Ok(ExecuteServerCommandOutput(LastOutput(Join(outputLines, "\n"))))
  }

  /** The joined length is the lines' total length plus one separator
      between each pair of neighbours. */
  lemma {:induction false} JoinLength(lines: seq<string>, separator: string)
    requires lines != []
    ensures |Join(lines, separator)| == TotalLength(lines) + (|lines| - 1) * |separator|
  {
    if |lines| > 1 {
      JoinLength(lines[1..], separator);
    }
  }

  /** `n` one-character lines join to 2n - 1 characters. */
  lemma {:induction false} SingleCharLinesLength(lines: seq<string>)
    requires lines != []
    requires forall i :: 0 <= i < |lines| ==> |lines[i]| == 1
    ensures |Join(lines, "\n")| == 2 * |lines| - 1
  {
    JoinLength(lines, "\n");
    TotalLengthOfSingleChars(lines);
  }

  lemma {:induction false} TotalLengthOfSingleChars(lines: seq<string>)
    requires forall i :: 0 <= i < |lines| ==> |lines[i]| == 1
    ensures TotalLength(lines) == |lines|
  {
    if lines != [] {
      TotalLengthOfSingleChars(lines[1..]);
    }
  }

  /** Without the OWNER role the result is Forbidden, whatever the channel
      would have answered: the channel is not consulted. */
  lemma ForbiddenWithoutSending(
    auth: Auth, input: ExecuteServerCommandInput,
    sendCommand: string -> seq<string>, otherChannel: string -> seq<string>)
    requires !auth.HasRoleOrHigher(OWNER, input.principal)
    ensures Execute(auth, input, sendCommand) == Err(Forbidden(ForbiddenMessage))
    ensures Execute(auth, input, sendCommand) == Execute(auth, input, otherChannel)
  {
  }

  /** The call succeeds exactly when the principal passes the OWNER check;
      no other error can arise. */
  lemma ExecuteSucceedsIffOwner(auth: Auth, input: ExecuteServerCommandInput, sendCommand: string -> seq<string>)
    ensures Execute(auth, input, sendCommand).Ok? <==> auth.HasRoleOrHigher(OWNER, input.principal)
    ensures Execute(auth, input, sendCommand).Err? ==> Execute(auth, input, sendCommand).error == Forbidden(ForbiddenMessage)
  {
  }

  /** The output depends on the channel only through its answer to the
      command exactly as given. */
  lemma CommandForwardedUnchanged(
    auth: Auth, input: ExecuteServerCommandInput,
    sendCommand: string -> seq<string>, otherChannel: string -> seq<string>)
    requires sendCommand(input.command) == otherChannel(input.command)
    ensures Execute(auth, input, sendCommand) == Execute(auth, input, otherChannel)
  {
  }

  lemma OutputBounded(auth: Auth, input: ExecuteServerCommandInput, sendCommand: string -> seq<string>)
    requires Execute(auth, input, sendCommand).Ok?
    ensures |Execute(auth, input, sendCommand).value.output| <= MaxOutputLength
  {
  }

  /** A joined output of at most 1024 characters is returned whole. */
  lemma ShortOutputUnchanged(auth: Auth, input: ExecuteServerCommandInput, sendCommand: string -> seq<string>)
    requires auth.HasRoleOrHigher(OWNER, input.principal)
    requires |Join(sendCommand(input.command), "\n")| <= MaxOutputLength
    ensures Execute(auth, input, sendCommand) == Ok(ExecuteServerCommandOutput(Join(sendCommand(input.command), "\n")))
  {
  }

  /** A longer joined output is cut to its last 1024 characters. */
  lemma LongOutputIsSuffix(auth: Auth, input: ExecuteServerCommandInput, sendCommand: string -> seq<string>)
    requires auth.HasRoleOrHigher(OWNER, input.principal)
    requires |Join(sendCommand(input.command), "\n")| > MaxOutputLength
    ensures Execute(auth, input, sendCommand).Ok?
    ensures |Execute(auth, input, sendCommand).value.output| == MaxOutputLength
    ensures exists prefix: string ::
      Join(sendCommand(input.command), "\n") == prefix + Execute(auth, input, sendCommand).value.output
  {
    var joined := Join(sendCommand(input.command), "\n");
    var prefix := joined[..|joined| - MaxOutputLength];
    assert joined == prefix + Execute(auth, input, sendCommand).value.output;
  }

  /** No output lines give "" and no error. */
  lemma EmptyOutput(auth: Auth, input: ExecuteServerCommandInput, sendCommand: string -> seq<string>)
    requires auth.HasRoleOrHigher(OWNER, input.principal)
    requires sendCommand(input.command) == []
    ensures Execute(auth, input, sendCommand) == Ok(ExecuteServerCommandOutput(""))
  {
  }

  /** The cut counts characters, not lines: more than 512 one-character
      lines already exceed the bound, leaving exactly 1024 characters (about
      512 lines). */
  lemma TruncationCountsCharacters(auth: Auth, input: ExecuteServerCommandInput, sendCommand: string -> seq<string>)
    requires auth.HasRoleOrHigher(OWNER, input.principal)
    requires |sendCommand(input.command)| > 512
    requires forall i :: 0 <= i < |sendCommand(input.command)| ==> |sendCommand(input.command)[i]| == 1
    ensures Execute(auth, input, sendCommand).Ok?
    ensures |Execute(auth, input, sendCommand).value.output| == MaxOutputLength
  {
    SingleCharLinesLength(sendCommand(input.command));
  }

  /** Through the Discord authenticator, only the owner's ID may execute;
      a principal whose role claim is "NONE" is Forbidden before the channel
      is consulted. */
  lemma DiscordExecuteIffOwner(
    interaction: DiscordAuthorization.Interaction, command: string, sendCommand: string -> seq<string>)
    ensures Execute(
              DiscordAuthorization.DiscordAuth,
              ExecuteServerCommandInput(DiscordAuthorization.ExtractPrincipal(interaction), command),
              sendCommand).Ok?
      <==> DiscordAuthorization.UserData(interaction) == Some(DiscordAuthorization.User(DiscordAuthorization.OwnerId))
  {
    DiscordAuthorization.OwnerGateIffOwnerId(interaction);
  }

  lemma NoneClaimForbidden(auth: Auth, command: string, sendCommand: string -> seq<string>)
    ensures Execute(auth, ExecuteServerCommandInput(Principal(map[auth.claimKeys.role := "NONE"]), command), sendCommand)
      == Err(Forbidden(ForbiddenMessage))
  {
  }
}
