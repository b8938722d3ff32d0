/**
Workflow definitions, the operations a plan is made of, and the planner's
errors (internal/domain/workflow.go and the plan types of
internal/application/ports.go).

A step whose configuration is missing, or whose strategy, form actor, field
kind or type is outside the closed vocabulary, is representable: the planner
has an error branch for each.
*/
module Workflow {
  import opened Core
  import opened Tickets

  datatype Strategy = Claim | LeastLoaded | OtherStrategy
  datatype FormActor = ByRequester | ByAssignee | ByOther
  datatype FieldKind = Checkbox | ShortText | LongText | SingleSelect | OtherKind

  datatype FormField = FormField(key: string, kind: FieldKind, required: bool, options: seq<string>)
  datatype FormConfig = FormConfig(actor: FormActor, fields: seq<FormField>)
  datatype DeskConfig = DeskConfig(desk: int, strategy: Strategy)

  datatype Step =
    | AssignToDesk(config: Option<DeskConfig>)
    | Form(form: Option<FormConfig>)
    | ManualTask(instructions: Option<string>)
    | ResolveTicket
    | CloseTicket
    | UnknownStep

  type Definition = seq<Step>

  predicate IsTerminal(s: Step) { s.ResolveTicket? || s.CloseTicket? }

  predicate IsRouting(s: Step) {
    s.AssignToDesk? && s.config.Some? && s.config.value.strategy == LeastLoaded
  }

  predicate IsClaim(s: Step) {
    s.AssignToDesk? && s.config.Some? && s.config.value.strategy == Claim
  }

  // A step that waits for a person.
  predicate IsHuman(s: Step) { IsClaim(s) || s.Form? || s.ManualTask? }

  predicate WellFormedStep(s: Step) {
    match s
    case AssignToDesk(c) => c.Some? && c.value.strategy != OtherStrategy
    case Form(f) => f.Some? && f.value.actor != ByOther && |f.value.fields| > 0 &&
                    forall i :: 0 <= i < |f.value.fields| ==> f.value.fields[i].kind != OtherKind
    case ManualTask(m) => m.Some?
    case UnknownStep => false
    case _ => true
  }

  // The part of the definition's validation the planner relies on: at least one
  // step, every step well formed, and at most one terminal step, the last one.
  predicate ValidDefinition(d: Definition) {
    && |d| > 0
    && (forall i :: 0 <= i < |d| ==> WellFormedStep(d[i]))
    && (forall i :: 0 <= i < |d| - 1 ==> !IsTerminal(d[i]))
  }

  // A stored form answer, by position.
  datatype Answer = Flag(ticked: bool) | Text(text: string)

  datatype StepAction = RequesterFormDone | AssigneeFormDone | ManualTaskDone

  // The notification template of a routing step: every fact of the rows it may
  // produce except the person the transaction selects.
  datatype AssigneeTemplate = AssigneeTemplate(actor: UserId, followers: seq<UserId>, formWaitingStep: Option<nat>)

  datatype Operation =
    | FormSubmission(step: nat, answers: seq<Answer>, actor: UserId, at: Instant)
    | ClaimAssignment(step: nat, desk: int, assignee: UserId, from: Option<UserId>, at: Instant)
    | LeastLoadedAssignment(step: nat, desk: int, template: Option<AssigneeTemplate>)
    | StateTransition(step: nat, move: Move)
    | StepCompleted(step: nat, action: StepAction, actor: UserId, solution: string, at: Instant)

  datatype PlanError =
    | PositionConflict
    | InvalidInput(field: string)
    | MoveRefused(move: MoveError)
    | Forbidden

  datatype RunStatus = Active | Completed

  datatype Run = Run(cursor: int, status: RunStatus, startedAt: Instant)
}
