/**
Roles, capabilities and ticket read scopes (internal/domain/role.go and
internal/application/policy.go).
*/
module Policy {
  import opened Core
  import opened Tickets
  import opened Workflow

  datatype Role = UserRole | AgentRole | AdminRole | RootRole | UnknownRole

  // The capabilities over tickets; those of administration are not part of this model.
  datatype Capability = CreateTicket | EditTicket | AssignTicket | CommentPublic | CommentInternal

  predicate ValidRole(r: Role) { r != UnknownRole }

  function Capabilities(r: Role): set<Capability> {
    match r
    case UserRole => {CreateTicket, CommentPublic}
    case AgentRole => {CreateTicket, EditTicket, AssignTicket, CommentPublic, CommentInternal}
    case AdminRole => {CreateTicket, EditTicket, AssignTicket, CommentPublic, CommentInternal}
    case RootRole => {CreateTicket, EditTicket, AssignTicket, CommentPublic, CommentInternal}
    case UnknownRole => {}
  }

  // The scopes of reads.
  datatype Scope = NoScope | Owned | All | AssignedOrClaimable

  // The scope of reads: an agent also sees what waits on a claim to their desk.
  function ReadScope(r: Role): Scope {
    match r
    case UserRole => Owned
    case AgentRole => AssignedOrClaimable
    case AdminRole => All
    case RootRole => All
    case UnknownRole => NoScope
  }

  datatype User = User(id: UserId, role: Role, active: bool, service: bool)

  // The desk of a claim the run still waits on: an active run over an open
  // ticket, resting on a claim step.
  function ClaimableDesk(d: Definition, cursor: int, status: RunStatus, state: State): Option<int> {
    if status != Active || IsClosed(state) || cursor < 0 || cursor >= |d| || !IsClaim(d[cursor]) then None
    else Some(d[cursor].config.value.desk)
  }

  // The stored ticket falls inside a scope of `who` (the store's scope clause).
  predicate InScope(s: Scope, who: UserId, t: TicketRow, d: Definition, run: Run, members: int -> set<UserId>) {
    match s
    case NoScope => false
    case Owned => t.requester == Some(who)
    case All => true
    case AssignedOrClaimable =>
      || t.assignee == Some(who)
      || (var desk := ClaimableDesk(d, run.cursor, run.status, t.state); desk.Some? && who in members(desk.value))
  }

  // Who may read a ticket: its requester as a user, its holder or a member of the desk
  // its active run waits on as an agent, and every administrator.
  lemma WhoMayRead(r: Role, who: UserId, t: TicketRow, d: Definition, run: Run, members: int -> set<UserId>)
    ensures InScope(ReadScope(r), who, t, d, run, members) <==>
              match r
              case UserRole => t.requester == Some(who)
              case AgentRole =>
                || t.assignee == Some(who)
                || (&& run.status == Active && t.state in {New, InProgress} && 0 <= run.cursor < |d| && IsClaim(d[run.cursor])
                    && who in members(d[run.cursor].config.value.desk))
              case AdminRole => true
              case RootRole => true
              case UnknownRole => false
  {
  }

  // Whether `u` may open the stored ticket, as staff.
  predicate StaffCanOpen(u: User, t: TicketRow, d: Definition, run: Run, members: int -> set<UserId>) {
    && ValidRole(u.role) && u.active
    && CommentInternal in Capabilities(u.role)
    && InScope(ReadScope(u.role), u.id, t, d, run, members)
  }
}
