/** The Discord authenticator: which user sent an interaction, the fixed
    table that gives a few user IDs a role, and the principal built from
    them. */
module DiscordAuthorization {
  import opened Errors
  import opened Authorization

  /** DiscordAuth reads the claims named "ROLE" and "USER_ID". */
  const DiscordAuth := Auth(ClaimKeys(role := "ROLE", userId := "USER_ID"))

  const OwnerId := "426503936501874707"

  /** The user IDs that hold a role; every other ID holds none. */
  const UserRoleMap: map<string, Role> :=
    map[
      OwnerId := OWNER,
      "318259216429219841" := ADMIN,
      "440774318176206848" := ADMIN
    ]

  /** The parts of a Discord interaction the authenticator reads: the user
      of a direct interaction, or the member of a guild interaction. */
  datatype User = User(id: string)
  datatype GuildMember = GuildMember(user: User)
  datatype Interaction = Interaction(user: Option<User>, member: Option<GuildMember>)

  /** `user ?? member?.user`. */
  function UserData(interaction: Interaction): Option<User> {
    match interaction.user
    case Some(u) => Some(u)
    case None =>
      match interaction.member
      case Some(m) => Some(m.user)
      case None => None
  }

  function UserId(interaction: Interaction): string {
    match UserData(interaction)
    case Some(u) => u.id
    case None => ""
  }

  function ExtractPrincipal(interaction: Interaction): (p: Principal)
    ensures p.claims.Keys == {"ROLE", "USER_ID"}
  {
    var id := UserId(interaction);
    var role := if id in UserRoleMap then RoleName(UserRoleMap[id]) else "NONE";
    Principal(map["ROLE" := role, "USER_ID" := id])
  }

  /** The identity is the interaction's user, falling back to the guild
      member's user. */
  lemma UserDataFallback(interaction: Interaction)
    ensures interaction.user.Some? ==> UserData(interaction) == interaction.user
    ensures interaction.user.None? && interaction.member.Some?
      ==> UserData(interaction) == Some(interaction.member.value.user)
    ensures UserData(interaction).None? <==> interaction.user.None? && interaction.member.None?
  {
  }

  /** Exactly one ID in the table is OWNER and exactly two are ADMIN. */
  lemma RoleTableShape()
    ensures (set id | id in UserRoleMap && UserRoleMap[id] == OWNER) == {OwnerId}
    ensures |set id | id in UserRoleMap && UserRoleMap[id] == ADMIN| == 2
    ensures forall id :: id in UserRoleMap ==> UserRoleMap[id] in {OWNER, ADMIN}
  {
    var admins := set id | id in UserRoleMap && UserRoleMap[id] == ADMIN;
    assert admins == {"318259216429219841", "440774318176206848"};
  }

  /** The USER_ID claim is the user's ID, or "" when there is no user. */
  lemma UserIdClaim(interaction: Interaction)
    ensures ExtractPrincipal(interaction).claims["USER_ID"]
      == if UserData(interaction).Some? then UserData(interaction).value.id else ""
  {
  }

  /** An ID in the table gets its role; an unknown or missing ID gets
      "NONE", and with it no requirement stronger than NONE is passed. */
  lemma RoleClaimFromTable(interaction: Interaction)
    ensures UserId(interaction) in UserRoleMap
      ==> ExtractPrincipal(interaction).claims["ROLE"] == RoleName(UserRoleMap[UserId(interaction)])
    ensures UserId(interaction) !in UserRoleMap ==>
      && ExtractPrincipal(interaction).claims["ROLE"] == "NONE"
      && !DiscordAuth.HasRoleOrHigher(USER, ExtractPrincipal(interaction))
  {
  }

  /** Every ROLE written is one of the four role names under the key that
      DiscordAuth reads, so the gate's fallback to NONE never fires: the
      resolved role is the table's. */
  lemma ExtractedRoleIsRecognised(interaction: Interaction)
    ensures DiscordAuth.claimKeys.role in ExtractPrincipal(interaction).claims
    ensures ParseRole(ExtractPrincipal(interaction).claims[DiscordAuth.claimKeys.role]).Some?
    ensures DiscordAuth.PrincipalRole(ExtractPrincipal(interaction))
      == if UserId(interaction) in UserRoleMap then UserRoleMap[UserId(interaction)] else NONE
  {
    var p := ExtractPrincipal(interaction);
    var id := UserId(interaction);
    var r := if id in UserRoleMap then UserRoleMap[id] else NONE;
    ParseRoleIff(p.claims["ROLE"], r);
  }

  /** An extracted principal passes the OWNER requirement exactly when the
      interaction comes from the owner's ID. */
  lemma OwnerGateIffOwnerId(interaction: Interaction)
    ensures DiscordAuth.HasRoleOrHigher(OWNER, ExtractPrincipal(interaction))
      <==> UserData(interaction) == Some(User(OwnerId))
  {
    ExtractedRoleIsRecognised(interaction);
  }

  /** An extracted principal passes the ADMIN requirement exactly when its
      ID is in the table. */
  lemma AdminGateIffListed(interaction: Interaction)
    ensures DiscordAuth.HasRoleOrHigher(ADMIN, ExtractPrincipal(interaction))
      <==> UserData(interaction).Some? && UserData(interaction).value.id in UserRoleMap
  {
    ExtractedRoleIsRecognised(interaction);
  }
}
