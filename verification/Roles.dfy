/**
 The role ladder, the invitation matrix, the tenancy policy of the community
 organization and the mapping between roles and seat caps.
 */
module Roles {
  import opened Common

  datatype Role = Superadmin | Admin | Professor | Student

  /** `ROLE_RANK`. */
  function Rank(role: Role): nat {
    match role
    case Superadmin => 3
    case Admin => 2
    case Professor => 1
    case Student => 0
  }

  /** `INVITABLE_ROLES`: which roles an actor of the given role may invite. */
  function Invitable(actor: Role): set<Role> {
    match actor
    case Superadmin => {Admin, Professor, Student}
    case Admin => {Professor, Student}
    case Professor => {Student}
    case Student => {}
  }

  predicate MayInvite(actor: Role, target: Role) {
    target in Invitable(actor)
  }

  /** Organizations are identified by their uuid. */
  type OrgId = string

  const COMMUNITY_ORG_ID: OrgId := "22222222-2222-2222-2222-222222222222"
  const LEGACY_ORG_ID: OrgId := "11111111-1111-1111-1111-111111111111"

  /** An account without an institution: no organization, or the community tenant. */
  predicate IsClaimableMember(org: Option<OrgId>) {
    org.None? || org.value == COMMUNITY_ORG_ID
  }

  /** The organization stamped on the rows of a user, with the legacy fallback. */
  function StampOrg(org: Option<OrgId>): OrgId {
    match org
    case None => LEGACY_ORG_ID
    case Some(o) => o
  }

  /** The three seat caps an organization may carry. */
  datatype Resource = MaxUsers | MaxProfessors | MaxStudents

  function SeatResourceFor(role: Role): Option<Resource> {
    match role
    case Professor => Some(MaxProfessors)
    case Student => Some(MaxStudents)
    case Admin => None
    case Superadmin => None
  }

  function RoleForSeatResource(resource: Resource): Option<Role> {
    match resource
    case MaxProfessors => Some(Professor)
    case MaxStudents => Some(Student)
    case MaxUsers => None
  }

  /** Whether a seat held by `role` is counted against `resource`. */
  predicate CountedBy(resource: Resource, role: Role) {
    var narrowed := RoleForSeatResource(resource);
    narrowed == None || narrowed == Some(role)
  }

  /** The caps an enforcement point charges are exactly the caps that count the role. */
  lemma ChargedIffCounted(resource: Resource, role: Role)
    ensures CountedBy(resource, role) <==> resource == MaxUsers || SeatResourceFor(role) == Some(resource)
  {
  }

  /** Nobody invites a role at or above their own, and nobody invites a superadmin. */
  lemma InvitesPointDownwards(actor: Role, target: Role)
    requires MayInvite(actor, target)
    ensures Rank(target) < Rank(actor) && target != Superadmin
  {
  }
}
