/** The role hierarchy and the authorization gate: a principal's role claim
    is resolved against the four role names (anything else is NONE) and
    compared by rank with the role an action requires. */
module Authorization {
  import opened Errors

  /** OWNER is the strongest role, NONE the weakest. */
  datatype Role = OWNER | ADMIN | USER | NONE

  /** The string value of each role, the only claim values recognised. */
  function RoleName(r: Role): string {
    match r
    case OWNER => "OWNER"
    case ADMIN => "ADMIN"
    case USER => "USER"
    case NONE => "NONE"
  }

  /** `roleOrder`: a lower rank is a stronger role. */
  function RoleOrder(r: Role): nat {
    match r
    case OWNER => 0
    case ADMIN => 1
    case USER => 2
    case NONE => 3
  }

  /** `Object.keys(Role).includes(s)`, answered with the role named `s`. */
  function ParseRole(s: string): (r: Option<Role>)
    ensures r.Some? ==> RoleName(r.value) == s
    ensures r.None? ==> forall role :: RoleName(role) != s
  {
    if s == "OWNER" then Some(OWNER)
    else if s == "ADMIN" then Some(ADMIN)
    else if s == "USER" then Some(USER)
    else if s == "NONE" then Some(NONE)
    else None
  }

  /** The names of the two claims an authenticator reads. */
  datatype ClaimKeys = ClaimKeys(role: string, userId: string)

  /** A caller, known only by the claims its authenticator attached. */
  datatype Principal = Principal(claims: map<string, string>)

  const ForbiddenMessage := "Você não tem permissão para executar esta ação"

  /** `Auth`, configured with the claim keys of one authenticator. */
  datatype Auth = Auth(claimKeys: ClaimKeys) {

    /** The role claim if it names a role exactly, otherwise NONE. */
    function PrincipalRole(principal: Principal): Role {
      if claimKeys.role in principal.claims then
        ParseRole(principal.claims[claimKeys.role]).GetOr(NONE)
      else
        NONE
    }

    predicate HasRoleOrHigher(role: Role, principal: Principal) {
      RoleOrder(PrincipalRole(principal)) <= RoleOrder(role)
    }

    /** assertRoleOrHigher: throws Forbidden when the check fails and has no
        other effect. */
    function AssertRoleOrHigher(role: Role, principal: Principal): (o: Outcome)
      ensures o == Pass <==> HasRoleOrHigher(role, principal)
      ensures o.Fail? ==> o.error == Forbidden(ForbiddenMessage)
    {
      if !HasRoleOrHigher(role, principal) then Fail(Forbidden(ForbiddenMessage)) else Pass
    }
  }

  /** The rank is a bijection onto 0..3 with OWNER strongest and NONE
      weakest, so comparing ranks is a total order on roles. */
  lemma RoleOrderIsTotal(a: Role, b: Role)
    ensures RoleOrder(a) == RoleOrder(b) ==> a == b
    ensures RoleOrder(OWNER) == 0 && RoleOrder(ADMIN) == 1 && RoleOrder(USER) == 2 && RoleOrder(NONE) == 3
    ensures RoleOrder(OWNER) <= RoleOrder(a) <= RoleOrder(NONE)
  {
  }

  /** A claim value is recognised exactly when it is one of the four names,
      in that case. */
  lemma ParseRoleIff(s: string, r: Role)
    ensures ParseRole(s) == Some(r) <==> s == RoleName(r)
  {
  }

  /** The resolved role is a role other than NONE exactly when the claim
      under the configured role key is that role's name; an absent claim or
      any other value (such as "owner") resolves to NONE. */
  lemma PrincipalRoleIff(auth: Auth, principal: Principal, r: Role)
    requires r != NONE
    ensures auth.PrincipalRole(principal) == r
      <==> auth.claimKeys.role in principal.claims && principal.claims[auth.claimKeys.role] == RoleName(r)
  {
  }

  lemma UnrecognisedClaimIsNone(auth: Auth, principal: Principal)
    requires auth.claimKeys.role !in principal.claims || ParseRole(principal.claims[auth.claimKeys.role]).None?
    ensures auth.PrincipalRole(principal) == NONE
    ensures !auth.HasRoleOrHigher(USER, principal)
  {
  }

  lemma LowerCaseOwnerIsNone(auth: Auth)
    ensures auth.PrincipalRole(Principal(map[auth.claimKeys.role := "owner"])) == NONE
  {
  }

  /** Passing the OWNER requirement means holding the role claim "OWNER",
      exactly. */
  lemma OwnerRequiresOwnerClaim(auth: Auth, principal: Principal)
    ensures auth.HasRoleOrHigher(OWNER, principal)
      <==> auth.claimKeys.role in principal.claims && principal.claims[auth.claimKeys.role] == "OWNER"
  {
    PrincipalRoleIff(auth, principal, OWNER);
  }

  /** Every principal, with or without a claim, passes the NONE
      requirement. */
  lemma NoneAdmitsEveryone(auth: Auth, principal: Principal)
    ensures auth.HasRoleOrHigher(NONE, principal)
  {
  }

  /** Passing a requirement implies passing every weaker one. */
  lemma HasRoleOrHigherMonotonic(auth: Auth, stronger: Role, weaker: Role, principal: Principal)
    requires RoleOrder(stronger) <= RoleOrder(weaker)
    requires auth.HasRoleOrHigher(stronger, principal)
    ensures auth.HasRoleOrHigher(weaker, principal)
  {
  }

  /** A principal whose claim names role `r` passes exactly the
      requirements `r` and weaker. */
  lemma OwnRoleThreshold(auth: Auth, r: Role, required: Role)
    ensures auth.HasRoleOrHigher(required, Principal(map[auth.claimKeys.role := RoleName(r)]))
      <==> RoleOrder(r) <= RoleOrder(required)
  {
  }

  /** Only the claim under the configured role key is consulted. */
  lemma OnlyRoleClaimMatters(auth: Auth, p: Principal, q: Principal, role: Role)
    requires auth.claimKeys.role in p.claims <==> auth.claimKeys.role in q.claims
    requires auth.claimKeys.role in p.claims ==> p.claims[auth.claimKeys.role] == q.claims[auth.claimKeys.role]
    ensures auth.HasRoleOrHigher(role, p) == auth.HasRoleOrHigher(role, q)
  {
  }
}
