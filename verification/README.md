# Verification of tkt's planners and protocols

This project models the parts of the tkt help desk where a wrong step would be hard to
see, and proves what they promise. It is checked by `dafny verify dfyconfig.toml`.

- **Workflow runs.** A person's completion and every automatic step after it become one
  ordered plan (`Runner`), which means something as a whole (`PlanFacts`), is rechecked
  by the store (`PlanRecheck`) and applied under a compare-and-swap (`WorkflowRuns`);
  `PlanAuthority` says in terms of the people, desks and steps themselves who may
  complete a step and what an accepted plan rests on. `FormAnswers` is the decoding of
  form submissions, `Tickets` and `Workflow` are the entities.
- **Who is told.** `Notifications` is the batch every change uses, `NotificationFacts`
  whom its builders tell, by their roles; `PlanNotices` is what a completion decides and
  what the transaction adds once a routing step has selected its assignee;
  `PlanNoticeFacts` and `PlanNoticeResults` prove which rows are collected; `PlanAccess`
  compares the plan-time access test with the recheck of the stored result,
  `PlanStoredNotices` says how many rows are stored, `RoutingNotices` exactly which,
  `ClaimNotices` which followers hear about a claim, and `ServiceAccounts` which rows
  exist only because the snapshot's reader leaves the account kind out. `Policy` holds
  roles, capabilities and read scopes.
- **Holds.** `Holds` is each use case's read half and the store's write half;
  `HoldShift` what holds do to a deadline; `HoldProtocol` interleaves them freely, and
  `HoldRaces` says what is left of the promises when two holds start in one second or a
  write was decided on an older row.
- **MCP authorization server.** `OAuthScopes`, the store `OAuth`, single requests
  `OAuthService`, all interleavings `OAuthRuns`, which take single requests apart
  (`OAuthRequests`), and what follows `OAuthResults`, `OAuthReplay` (spent refresh
  tokens), `OAuthDeactivation` and `OAuthAccess` (what an exchange opens and what ends a
  grant). The rules are those of RFC 6749 (sections 4.1.2, 4.1.3 and 6), RFC 7636
  (section 4.6) and RFC 9700 (section 4.14.2).
- **Notification email.** `EmailOutbox`: claim, send, settle, stop, restart.
- **Algorithms.** `Mentions` and `MentionHalves`, `CatalogTree`, `Metrics`,
  `MetricsTotals`, `SearchQuery`, `DraftLock`, `Passes`, `Reminders`.

Code that changes state is a class or a method with loops, proved equal to a function or
a predicate on values; the promises are lemmas about those.

## What the code does not keep

Some promises do not hold as documented. Each is stated with the exact condition.

- The store's recheck refuses some of the planner's own plans: a terminal step directly
  behind an assignment step on a ticket that already left `new`
  (`PlanRecheck.StoreAcceptsPlan`, `PlanRecheck.ClaimThenResolveIsRefused`).
- A holder a routing step takes the ticket from is told after all when the selections go
  away from them and back and they may open the result anyway, as an administrator may;
  and `assigned` repeats for a person the selections reach twice
  (`PlanStoredNotices.ReroutedHolder`, `PlanStoredNotices.PairsRepeatOnlyByMoves`,
  `PlanStoredNotices.RoutedThriceTells`).
- With several routing steps in a row the followers are told who holds the ticket after
  the first of them that moves it, not in the end (`RoutingNotices.RoutingRows`,
  `RoutingNotices.FollowersHearFirst`).
- The workflow path tells service accounts named as requester or assignee
  (`ServiceAccounts.ServiceRowsExactly`, `ServiceAccounts.ServiceToldExactly`).
- The hold column is guarded, the rest of the row is not: a new hold or an edit decided
  on an older state undoes a concurrent resolution, and a resume, a reply or an edit a
  concurrent claim (`HoldRaces.StaleWriteIff`, `HoldRaces.StaleWriteReverts`,
  `HoldRaces.StaleWriteUndoesAResolution`, `HoldRaces.StaleReplyUndoesAClaim`). Two
  holds in the same second break the once-per-hold shift (`HoldRaces.NewHoldKeepsIff`,
  `HoldRaces.CommitmentKeptIff`, `HoldRaces.SameInstantLosesAShift`).
- Deactivating a person revokes their live grants, but an exchange that had passed its
  checks still stores one (`OAuthDeactivation.DeactivationLasts`,
  `OAuthDeactivation.DeactivatedMidExchange`).
- Overlapping hold passes can remind twice (`Reminders.RemindsAgainIff`,
  `Reminders.OverlappingPassesRemindTwice`).

The draft lock keeps its promise for every request the application issues: guarded
saves, guarded publishes, clones and the unguarded publish, in every interleaving
(`DraftLock.NothingUnreadIsOverwritten`). The store also retains an unguarded upsert
that does not move the revision; `DraftLock.UnreadIsOverwrittenIff` says what a caller
of it would break.

The two mention scans keep their promise to agree on every body without nesting, and
agree on more: `MentionHalves` says on which bodies, and for which candidates on all.

## Assumptions

- A routing step selects an arbitrary person for each step (`Selection`), within what
  the store checks about the desk.
- Instants are integers at the precision the store keeps (one second); calendars are
  arbitrary functions.
- Secrets are drawn fresh, and their digests do not collide.
- A mail failure reported as worth retrying means the message was not accepted.
- Ticket ids are bounded while a pass runs. A reminder is due no earlier than its hold
  began.
- White space, letters and digits are parameters; text is a sequence of code points.

## Model

| member | source | states |
|---|---|---|
| Tickets.Ticket.Transition | internal/domain/ticket.go:63-112 | A legal move stamps or clears the resolution and closure instants; a terminal move over a live hold, an illegal move and a reopening without a reason leave the ticket untouched |
| Tickets.Ticket.PutOnHold | internal/domain/ticket.go:124-146 | A hold begins only on an open ticket that is not held, with a reason; a refusal changes nothing |
| Tickets.Ticket.ResumeFromHold | internal/domain/ticket.go:152-166 | Ending a hold answers the instant it began |
| Tickets.MovesAre | internal/domain/ticket.go:63-112 | Edge by edge: the eight legal moves, that a hold refuses exactly the terminal ones, that only reopening a closed ticket needs a reason, and every stamp |
| Tickets.LifeKeepsCoherence | internal/domain/ticket.go:63-166 | Over any sequence of actions: the stamps tell the state and back, no terminal ticket is on hold, `new` is never re-entered, `cancelled` is final, and nothing else about the ticket changes |
| FormAnswers.Decode | internal/application/workflow_runner.go:537-619 | The submission decodes to exactly the typed answers of every field, or is refused for its first bad position, or for the first field that refuses its value |
| FormAnswers.DecodedAnswersFit | internal/adapters/sqlite/workflow_uow.go:1420-1478 | Every decoded submission passes the check the store makes before persisting it |
| FormAnswers.EncodedAnswersDecode | internal/application/workflow_runner.go:537-619 | Submitting stored answers again decodes to the same answers |
| FormAnswers.NoObjectionIff | internal/application/workflow_runner.go:537-619 | The positions are accepted if and only if each is a field's, none comes twice and none carries two values |
| FormAnswers.DecodesIff | internal/application/workflow_runner.go:537-619 | A submission decodes if and only if its positions are accepted and every field takes the value of its position |
| FormAnswers.FieldTakes | internal/application/workflow_runner.go:537-619 | Which answer every kind of field takes from a submitted value, with `FormAnswers.TrimIsInner` for what trimming removes |
| FormAnswers.TrimIsInner | internal/application/workflow_runner.go:537-619 | Trimming takes away the outer white space and nothing else |
| Runner.ApplyTerminal | internal/application/workflow_runner.go:444-493 | A terminal step's transitions and errors from every state |
| Runner.TerminalOutcomeIs | internal/application/workflow_runner.go:444-493 | State by state, what a terminal step does: refused, silent, or the moves it records and the stamps they leave |
| Runner.AdvanceAutomatics | internal/application/workflow_runner.go:502-535 | The loop is the recursive walk: routing steps, then at most one terminal step, until a step waits for a person |
| Runner.PlanInitialAutomatic | internal/application/workflow_runner.go:40-54 | The creation plan is the walk from step zero |
| Runner.PlanComplete | internal/application/workflow_runner.go:56-330 | Answers the one plan of the completion or an error, and an error only when no plan exists; a position conflict exactly when the command does not name the step the active run waits on |
| Runner.PlanOwnStep | internal/application/workflow_runner.go:96-170 | The submitted step's own operations, and an error only when it has none |
| PlanFacts.AdvanceShape | internal/application/workflow_runner.go:502-535 | Where the walk stops, and that its operations are in step order inside the steps it covered |
| PlanFacts.AdvanceEffect | internal/application/workflow_runner.go:502-535 | Replaying the walk's operations chains legally and ends with the planned state and the last selection |
| PlanFacts.CompletionKeepsPromise | internal/application/workflow_runner.go:56-330 | Every plan advances to a human step or the end; its operations replay from the snapshot through legal chained moves to the planned state, in step order inside [expected, next); with an assignment it never ends in `new`; a terminal step on the way decides the final state; unrouted, the replay reaches the planned assignee |
| PlanAuthority.HumanStepPlanned | internal/application/workflow_runner.go:56-170 | A human step has a plan if and only if the ticket is open, the actor is the person the step is for (the requester of a requester form, the assignee of an assignee form or manual task, anybody for a claim), the submission carries what the step asks for, and the walk behind it has a plan |
| PlanRecheck.Recheck | internal/adapters/sqlite/workflow_uow.go:341-483 | The store's walk over the operation groups accepts exactly the plans that agree with every persisted fact |
| PlanRecheck.WalkAcceptedExactly | internal/adapters/sqlite/workflow_uow.go:1102-1162 | When the recheck accepts an automatic walk: desks staffed, and no terminal step directly behind an assignment that leaves the state alone |
| PlanRecheck.StoreAcceptsPlan | internal/adapters/sqlite/workflow_uow.go:602-760 | On an unchanged ticket the store accepts the planner's plan if and only if the people are active, the claimant belongs to the desk, the desks are staffed, and no terminal step directly follows an assignment on a ticket that already left `new` |
| PlanRecheck.ClaimThenResolveIsRefused | internal/adapters/sqlite/workflow_uow.go:1102-1162 | A concrete claim step followed by a resolve step on an in-progress ticket: planned, and refused by the store |
| PlanRecheck.StoreAcceptsCreation | internal/adapters/sqlite/workflow_uow.go:819-909 | The same agreement for creation plans |
| PlanAuthority.AcceptedIsWarranted | internal/adapters/sqlite/workflow_uow.go:399-483 | Whatever plan the store accepts, on whatever facts: people active and the holder staff, instants from the run's start on, operations that replay from the stored ticket to the declared state, and each resting on the step, desk and person it names |
| PlanAuthority.AcceptedOnFacts | internal/adapters/sqlite/workflow_uow.go:341-397 | Whatever plan the store accepts expects exactly the stored facts; one without operations leaves a finished run alone or completes one whose last step has nothing left to do |
| PlanAuthority.AcceptedLeavesNoGap | internal/adapters/sqlite/workflow_uow.go:399-483 | The operations of an accepted plan leave no step out between the run's cursor and the declared one, and a terminal step decides the declared state |
| PlanAuthority.AcceptedCreationIsWarranted | internal/adapters/sqlite/workflow_uow.go:819-909 | The same for any accepted creation |
| PlanAuthority.StalePlanRefused | internal/adapters/sqlite/workflow_uow.go:341-397 | A completion planned on one snapshot and submitted against any stored facts is accepted only if requester, holder, pin, definition, cursor, status and state are still the snapshot's |
| PlanAuthority.PlanAcceptedIff | internal/adapters/sqlite/workflow_uow.go:602-760 | On what the planner saw, acceptance in terms of single people, desks and steps |
| WorkflowRuns.StorePersistsPlan | internal/adapters/sqlite/workflow_uow.go:1826-1884 | What the store persists is the planned ticket: state and lifecycle stamps, for every plan |
| WorkflowRuns.RunStore.ApplyWorkflowPlan | internal/adapters/sqlite/workflow_uow.go:158-276 | All or nothing: an accepted plan persists operations, state and cursor together, a refused one changes nothing |
| WorkflowRuns.SecondCompletionRefused | internal/application/workflow_runner.go:56-67 | Of two completions planned from one snapshot, the second is refused whatever it contains |
| WorkflowRuns.RunsKeepInvariant | internal/application/ports.go:260-271 | Over every run, with any other ticket changes in between: an active run waits on a human step, the completed steps are exactly the human steps passed, once each and in order, and a run is completed exactly at the end or when a terminal ticket ended it |
| WorkflowRuns.HumanStepsBound | internal/application/workflow_runner.go:172-184 | A run has fewer completions than its cursor has steps, in strictly increasing step order |
| Notifications.BatchExactly | internal/application/notifications.go:43-118 | A batch tells a person if and only if some candidate is admissible for them, then by the first one, and never twice |
| Notifications.StateChangeNotifications | internal/application/notifications.go:261-278 | The state-change builder is the batch over requester, assignee and followers, asking the requester to confirm a resolution |
| Notifications.CommentNotifications | internal/application/notifications.go:474-509 | The comment builder is the batch over mentions, named people and followers, with internal comments filtered |
| Notifications.CommentRowsAreSafe | internal/application/notifications.go:474-519 | For every comment: recipients are distinct, never the author, inactive or a service user; a mentioned person is told as mentioned only; every recipient of an internal comment may read it |
| NotificationFacts.StateChangeTells | internal/application/notifications.go:261-278 | Row by row, by the roles of the people: exactly who is told of a state change, and what |
| NotificationFacts.CommentTells | internal/application/notifications.go:474-519 | Row by row: exactly who is told of a public and of an internal comment; the requester who may open the ticket and the mentioned among them |
| PlanNotices.FormWaitingNotifications | internal/application/notification_form.go:51-75 | At most the one person the pending form waits on, with the step index |
| PlanNotices.PlanNotices | internal/application/workflow_runner.go:190-324 | The planner's rows, the conditional block and the stamped templates |
| PlanNotices.RouteAll | internal/adapters/sqlite/workflow_uow.go:1826-1983 | The rows the transaction adds while it applies the operations, with the set of people already told |
| PlanNoticeFacts.DivisionPartitions | internal/application/workflow_runner.go:238-267 | Unconditional and conditional rows together are the undivided batch, and exactly the holder's rows are conditional |
| PlanNoticeFacts.RoutedRows | internal/adapters/sqlite/workflow_uow.go:1884-1976 | Person by person: `assigned` once per move onto them, `form_waiting` once for the final selection, `assignee_changed` at most once and only for a follower nothing else tells |
| PlanStoredNotices.OpensIff | internal/adapters/sqlite/workflow_notification_access.go:64-148 | Whom the recheck inside the transaction admits: the requester, an active administrator, and an active agent who holds the ticket in the end or may claim it |
| PlanStoredNotices.PairsRepeatOnlyByMoves | internal/application/ports.go:983-1097 | Of every kind one submission stores at most one row per person, except one `assigned` for every time the routing moves the ticket onto a person who may open the result |
| RoutingNotices.StoredRowsExactly | internal/adapters/sqlite/workflow_uow.go:1826-2035 | For every plan and selection, exactly which rows are stored, each with all its fields: those of the plan but for a holder the routing takes the ticket from, and those of the routing operations, to whoever may open the result |
| RoutingNotices.RoutingRows | internal/adapters/sqlite/workflow_uow.go:1884-1976 | What each routing operation tells: the person it moves the ticket onto, the last one the person a form waits on, and the first one that moves the ticket every follower nothing else tells, with the name it selected, even when a later operation moves the ticket on |
| PlanNoticeResults.FinalHolder | internal/adapters/sqlite/workflow_uow.go:211-243 | The planner's rows, the replay and the stored row agree on who holds the ticket in the end |
| PlanStoredNotices.ReroutedHolder | internal/application/ports.go:1068-1098 | A holder the routing takes the ticket from is told nothing if and only if the selections never return to them on the way or they may not open the result; a holder it ends with gets everything held back |
| PlanStoredNotices.RoutedThriceTells | internal/adapters/sqlite/workflow_uow.go:1884-1976 | A plan the store accepts, with three routing steps in a row, that stores `assigned` twice for one agent and once for the administrator it was taken from |
| PlanNoticeResults.FormRowAnswerable | internal/application/notification_form.go:51-75 | Every `form_waiting` row names the pending form, and its recipient is somebody the planner accepts an answer from on the stored result |
| PlanNoticeResults.AtMostOneFormRow | internal/application/ports.go:1008-1015 | A submission writes at most one `form_waiting` row |
| PlanStoredNotices.RequesterFormTold | internal/application/workflow_runner.go:215-267 | When exactly the requester of a pending requester form is told; a requester rerouted as the holder is not, and then the submitted step is a routing step itself |
| PlanStoredNotices.EveryRunTellsRequester | internal/application/notification_form.go:51-75 | In every run the requester who may open the result and did not act is told that a form waits on them, and nobody else is |
| PlanAccess.FollowerRecipientsForResulting | internal/application/follow_service.go:292-316 | Exactly the followers who pass the plan-time test, in order |
| PlanAccess.FollowerTestAgrees | internal/application/follow_service.go:332-368 | The plan-time test equals the staff read scope of the stored result, unless a routing step changes whether that agent holds the ticket |
| ClaimNotices.FollowerHearsClaim | internal/application/workflow_runner.go:190-237 | When exactly a follower is told about a claim, whatever is routed behind it: they may open what the transaction leaves and the plan tells them, which it does for every follower who passes its test but the person the claim takes the ticket from while its state stays |
| ClaimNotices.FollowerHearsPlainClaim | internal/adapters/sqlite/workflow_notification_access.go:64-148 | With nothing routed behind the claim: exactly the followers who may still open the ticket as staff, but for that person |
| PlanAccess.UnroutedPlanLosesNobody | internal/adapters/sqlite/workflow_notification_access.go:64-148 | For a plan without routing the recheck inside the transaction drops no row |
| PlanAccess.FinalSelectionAdmitted | internal/adapters/sqlite/workflow_notification_access.go:110-148 | The person a routed plan ends with passes the recheck |
| ServiceAccounts.ServiceRowsExactly | internal/adapters/sqlite/workflow_run_store.go:72-95 | Leaving the account kind out adds exactly the rows to service accounts: with it the planner writes the same rows, in the same order, to everybody else |
| ServiceAccounts.ServiceToldExactly | internal/adapters/sqlite/workflow_run_store.go:60-95 | For every kind of row, when a service requester or assignee is told |
| ServiceAccounts.ServiceRowStored | internal/adapters/sqlite/workflow_notification_access.go:64-148 | When such a row is stored |
| RoutingNotices.FollowersHearFirst | internal/adapters/sqlite/workflow_uow.go:1955-1976 | A plan the store accepts that routes the ticket to three people in turn and tells a follower that the first of them holds it |
| Holds.HoldsNeverBringForward | internal/domain/sla.go:69-83 | No sequence of holds brings a deadline forward, invents or drops one, or moves one already reached |
| HoldShift.CommitmentKeepsRemaining | internal/domain/sla.go:60-83 | Warning and deadline still ahead at the pause keep their remaining working time across the hold |
| HoldShift.HoldsCostNoTime | internal/domain/sla.go:60-83 | Over any sequence of holds, the working time until the warning and until the deadline, not counting the holds, is what it was without them |
| HoldShift.HoldsKeepOrder | internal/domain/sla.go:60-83 | No sequence of holds moves the warning past the deadline |
| HoldShift.RemainingKept | internal/domain/sla.go:60-83 | On any calendar whose adding is undone by counting, the remaining time is kept unless that would bring the instant forward |
| Holds.ReplyEndsHold | internal/application/comment_service.go:150-198 | A comment ends the hold if and only if it is public and the requester's own; the state stays |
| Holds.MovesByHand | internal/application/ticket_service.go:368-449 | When exactly a move by hand is refused: no such edge, no reason for a reopening, or closing a requester's resolved ticket; a hold never refuses it |
| Holds.RequesterAnswers | internal/application/ticket_service.go:539-639 | Only the requester answers a resolution; yes closes, no takes the ticket back to work without its workflow |
| Holds.DecideMove | internal/application/ticket_service.go:368-449 | A terminal move on a held ticket ends the hold first, any other move keeps it |
| Holds.DecideExpiry | internal/application/hold_expiry.go:166-213 | The automatic close resumes, resolves and closes |
| Holds.ExpiryAlwaysCloses | internal/application/hold_expiry.go:166-213 | It applies to every open held ticket |
| Holds.TicketStore.UpdateHold | internal/adapters/sqlite/ticket_store.go:394-466 | A hold write applies only against the hold its caller read |
| Holds.TicketStore.Update | internal/adapters/sqlite/ticket_store.go:308-347 | A plain write never touches the hold, and is refused when it would make a held ticket terminal |
| Holds.TicketStore.AddComment | internal/adapters/sqlite/comment_uow.go:37-93 | A reply is stored whether or not its resume applies |
| HoldProtocol.NoPlanClosesOverHold | internal/adapters/sqlite/workflow_uow.go:399-483 | No accepted workflow plan makes a held ticket terminal |
| HoldProtocol.EveryRunIsSafe | internal/application/ports.go:93-111 | In every interleaving of read, decide, commitment read and write: no terminal ticket is on hold, each hold ends at most once, and the commitment is shifted exactly once per ended hold |
| HoldProtocol.EveryReplyIsStored | internal/adapters/sqlite/comment_uow.go:37-93 | Every comment and reply that was written is stored, whatever became of the hold it would end |
| HoldProtocol.ClosedOnlyBy | internal/application/ticket_service.go:376-383 | Whatever a use case decides, a requester's ticket is closed by nothing but the requester's yes and the automatic close, and a hold ends only by hand, by the requester's reply, by a terminal move or by the automatic close |
| HoldProtocol.TerminalEndsRun | internal/adapters/sqlite/ticket_store.go:308-347 | In every run a terminal ticket has no active workflow run, and no run starts again |
| HoldRaces.ReplyEndsHoldIff | internal/adapters/sqlite/comment_uow.go:37-93 | A reply changes anything but the comments if and only if the hold it read is still the stored one |
| HoldRaces.RunsStayFree | internal/adapters/sqlite/ticket_store.go:308-466 | No terminal ticket is ever on hold, even when two holds start at one instant |
| HoldRaces.NewHoldKeepsIff | internal/adapters/sqlite/ticket_store.go:426-438 | A new hold keeps these promises if and only if its stored instant is new |
| HoldRaces.CommitmentKept | internal/adapters/sqlite/ticket_store.go:394-466 | Whatever instants repeat, the commitment is shifted exactly once per ended hold as long as no resume writes a commitment it read before another end |
| HoldRaces.CommitmentKeptIff | internal/adapters/sqlite/ticket_store.go:421-466 | A resume keeps the commitment if and only if the one it read and the stored one shift to the same, which can fail only when another end came in between |
| HoldRaces.LateNeedsReuse | internal/adapters/sqlite/ticket_store.go:426-438 | Another end comes in between only after a hold began at an instant another hold had begun at |
| HoldRaces.SameInstantLosesAShift | internal/adapters/sqlite/ticket_store.go:421-438 | A run on a clock that never goes back, with two holds in one second, in which a shift is lost |
| HoldRaces.StaleWriteIff | internal/adapters/sqlite/ticket_store.go:126-146 | Over every run, what a write does to a terminal ticket: ending a hold or commenting leaves the state; a use case that meant to keep the state takes the ticket out of it if and only if it had read another one; a move decided on this state is legal |
| HoldRaces.StaleWriteUndoesAResolution | internal/application/ticket_service.go:461-488 | A run in which a new hold, or an edit, undoes a resolution written between its read and its write |
| HoldRaces.StaleWriteReverts | internal/adapters/sqlite/ticket_store.go:126-146 | Over every run and for every state: a write that lands reverts the state, the holder or the pinned workflow it meant to keep if and only if that changed since its read, and leaves the run where it is |
| HoldRaces.StaleReplyUndoesAClaim | internal/adapters/sqlite/comment_uow.go:37-93 | A run in which a reply decided before a claim leaves the ticket new and without a holder while the run has moved past the claim |
| OAuthScopes.ParseApiKeyScopes | internal/domain/api_key.go:18-40 | Exactly the distinct scopes named, in canonical order, or the right error |
| OAuthScopes.ParseMcpScopes | internal/application/oauth.go:398-413 | Never every ticket, never empty; nothing asked means every MCP scope |
| OAuthScopes.StoredScopesReadBack | internal/application/oauth.go:730-736 | The stored text of any scope list reads back as that list |
| OAuthScopes.FieldsAreRuns | internal/application/oauth.go:398-413 | The words of a text are exactly its maximal runs of non-space characters, in order, whatever separates them |
| OAuthScopes.ParsingUndoesJoining | internal/application/oauth.go:398-413 | The parser undoes joining on a list if and only if a grant may carry it, and then uniquely |
| OAuthScopes.ScopesWithin | internal/application/oauth.go:695-706 | Subset test |
| OAuthScopes.ScopedCapabilities | internal/application/api_access.go:347-358 | A capability is carried if and only if the role holds it and a scope allows it |
| OAuthScopes.UsableIs | internal/application/oauth.go:499-515 | Which scopes a role can use: the read scopes always, a writing one when the role holds a capability it allows |
| OAuthScopes.UsableKeepsGrantable | internal/application/oauth.go:466-475 | Consent keeps exactly the scopes the role can use, still in canonical order |
| OAuth.OAuthStore.ConsumeCode | internal/adapters/sqlite/oauth_store.go:143-184 | A code is spent once; presented again it revokes the grant it was exchanged for |
| OAuth.OAuthStore.CreateGrant | internal/adapters/sqlite/oauth_store.go:186-221 | Grant, link from the code and first pair together; nothing without the code |
| OAuth.OAuthStore.RotateRefreshToken | internal/adapters/sqlite/oauth_store.go:283-326 | Spends, prunes and stores, or revokes the grant of a token that cannot be spent |
| OAuth.OAuthStore.RevokeGrant | internal/adapters/sqlite/oauth_store.go:358-370 | Revokes only a live grant of that person |
| OAuthService.Approve | internal/application/oauth.go:460-497 | Only an active person consents; the code carries exactly the scopes their role can use, and nothing is stored when none is left |
| OAuthService.ExchangeCode | internal/application/oauth.go:588-632 | A grant exactly for an unspent code that matches; the code is spent even when the exchange fails |
| OAuthService.Refresh | internal/application/oauth.go:636-693 | A rotation if and only if the token is a spendable, unexpired one of a live grant of this client whose person is active and the request stays within the grant; a spent token revokes, any other failure changes nothing |
| OAuthService.Authenticate | internal/application/oauth.go:753-803 | Exactly when an access token acts for its person, and with which capabilities |
| OAuthRequests.ExchangeAsRequest | internal/application/oauth.go:588-632 | The steps of an exchange, with nothing in between, are possible exactly when the single request succeeds, and leave the same store |
| OAuthRequests.RefreshAsRequest | internal/application/oauth.go:636-693 | The same for a refresh |
| OAuthRequests.AuthenticateAsRequest | internal/application/oauth.go:753-803 | The same for a request with an access token |
| OAuthRequests.ConsentAsRequest | internal/application/oauth.go:460-497 | The same for a consent |
| OAuthRuns.StepKeeps | internal/application/oauth_store.go:37-52 | Every request step keeps the redemption, chain and exchange invariants |
| OAuthResults.EveryRunKeepsInvariant | internal/application/oauth.go:588-693 | The redemption, chain and exchange invariants hold in every state of every interleaving |
| OAuthResults.OneGrantPerCode | internal/application/oauth_store.go:37-43 | A code yields at most one grant |
| OAuthResults.OneUnspentRefreshToken | internal/application/oauth_store.go:48-52 | A grant has at most one spendable refresh token, the last of its chain, so rotations form one line |
| OAuthResults.CodeReplayRevokes | internal/adapters/sqlite/oauth_store.go:143-174 | Presenting a code revokes a live grant if and only if it is that grant's own code, which is never forgotten |
| OAuthReplay.TokenLasts | internal/adapters/sqlite/oauth_store.go:283-326 | Over every run a token keeps its grant and stays spent, and stays stored until a rotation within its grant drops it, expired |
| OAuthReplay.TokenReplayRevokes | internal/application/oauth.go:648-656 | A request that read a spent refresh token and replays it, whatever happened in between, leaves the grant live if and only if it was live and a rotation in between dropped the expired token; otherwise the grant is revoked for good and never used again |
| OAuthReplay.SecondRotationRevokes | internal/adapters/sqlite/oauth_store.go:294-312 | Of two rotations of one token the second spends nothing and revokes the grant for good, unless the token had expired and been dropped |
| OAuthResults.RevokedForGood | internal/application/oauth.go:753-803 | Once revoked a grant stays revoked, and no later request is let in with it; its person, client and scopes never change. A request that found the grant live before the revocation may still be served |
| OAuthResults.TokensTraceToConsent | internal/application/oauth.go:460-497 | Every stored token traces to one consent of a person the session had read as active, for the same client, redirect and challenge, redeemed in time, with the consented scopes the role could use and never every ticket, and for the consented resource |
| OAuthAccess.ExchangedTokenActs | internal/application/oauth.go:753-803 | The access token of a completed exchange acts, at every instant within an hour and whatever happened since, exactly while the consent was for this resource, the grant is live and the person active, and then with the consented person, client, scopes and resource |
| OAuthAccess.ExchangedTokenExpires | internal/application/oauth.go:588-632 | After that hour it acts no more |
| OAuthAccess.RotatedPairActs | internal/adapters/sqlite/oauth_store.go:283-326 | When exactly a rotation's new access token acts and its new refresh token can be spent |
| OAuthAccess.GrantEndsIff | internal/adapters/sqlite/oauth_store.go:143-370 | In every run a live grant ends if and only if its own code is presented again, one of its tokens is presented that cannot be spent, its own person revokes it, or that person is deactivated |
| OAuthAccess.CodeDroppedIff | internal/adapters/sqlite/oauth_store.go:110-142 | A stored code is dropped if and only if a later consent finds it expired and unused, or its client is pruned |
| OAuthDeactivation.ShutOut | internal/adapters/sqlite/migrations/0042_oauth_mcp.sql:126-132 | A deactivated person has no live grant for as long as they stay inactive, unless one of their exchanges had already passed its checks |
| OAuthDeactivation.DeactivationLasts | internal/adapters/sqlite/migrations/0042_oauth_mcp.sql:126-132 | Deactivation lasts in every continuation of a run if and only if no exchange of that person has passed its checks with its code still stored |
| OAuthDeactivation.DeactivatedMidExchange | internal/application/oauth.go:588-632 | A run in which a person is deactivated in the middle of an exchange and ends with a live grant |
| EmailOutbox.Outbox.Claim | internal/adapters/sqlite/email_outbox_store.go:231-251 | Takes exactly the candidates still pending, each once |
| EmailOutbox.Deliver | internal/application/notification_email.go:211-225 | One attempt settles its row as skipped, sent, rescheduled or failed, and only while the row is this sender's |
| EmailOutbox.FailAttempt | internal/application/notification_email.go:227-237 | A transient failure reschedules with a wait that always exists; a sixth, permanent or unknown one fails |
| EmailOutbox.StepKeeps | internal/application/notification_email.go:66-81 | Every step of any number of senders keeps one live claim per row and the attempt bounds |
| EmailOutbox.AcceptedAtMostOnce | internal/application/notification_email.go:136-237 | Over any run of passes, stops and restarts a notification is accepted at most once and asked for at most six times |
| EmailOutbox.SettledForGood | internal/adapters/sqlite/email_outbox_store.go:120-181 | A settled row never changes again |
| EmailOutbox.SettledRow | internal/application/notification_email.go:211-237 | What each outcome leaves of the row: sent, skipped, failed for good, or waiting a minute, five, fifteen, an hour or six hours |
| EmailOutbox.RetrySchedule | internal/application/notification_email.go:46-48 | In every run a row whose attempts all fail so that a retry is worth it is tried six times, each retry no earlier than its place says after the failure before it, and then has failed |
| EmailOutbox.SentIff | internal/application/notification_email.go:211-225 | In every run a row is sent if and only if it was settled after the server took the message |
| EmailOutbox.RetryableReportMustBeTrue | internal/application/notification_email.go:52-58 | The one assumption is needed: a run, honest but for one retryable report about an accepted message, that sends it twice |
| Mentions.MentionAt | internal/application/mentions.go:87-99 | The longest candidate written there, or none |
| Mentions.LongestUnique | internal/application/mentions.go:87-99 | Whatever order the candidates come in |
| Mentions.MentionedNames | internal/application/mentions.go:38-49 | Exactly the names mentioned at some @ sign |
| Mentions.SplitMentions | internal/application/mentions.go:59-81 | The spans concatenate to the body, chips are the longest mentions at their place, plain text holds no mention, and two plain texts never touch |
| Mentions.SplitUnique | internal/application/mentions.go:59-81 | There is only one such split |
| MentionHalves.NotifiedAreChipsAndNested | internal/application/mentions.go:51-58 | The notified names are exactly the chips' and those nested inside a chip |
| MentionHalves.AgreeOnBodyIff | internal/application/mentions.go:51-58 | On one body the two scans agree if and only if every nested name is some chip's too |
| MentionHalves.AgreeAlwaysIff | internal/application/mentions.go:28-58 | For a candidate list they agree on every body if and only if no candidate may begin inside another |
| MentionHalves.HalvesDiffer | internal/application/mentions.go:32-37 | A body on which they differ |
| CatalogTree.NewCatalogTree | internal/domain/catalog_tree.go:21-40 | Folders by id, and by parent when the parent exists |
| CatalogTree.Path | internal/domain/catalog_tree.go:82-96 | Terminates on any list |
| CatalogTree.PathIsChain | internal/domain/catalog_tree.go:80-96 | A path ends at its folder, each folder sits in the one before, none repeats, and it starts at the top unless the list is broken there |
| CatalogTree.VisibleFolders | internal/domain/catalog_tree.go:111-119 | On any list, the smallest parent-closed set holding every known offering folder |
| CatalogTree.VisibleMeansOffering | internal/domain/catalog_tree.go:108-119 | On a tree: a folder is visible if and only if something offered lies in its subtree |
| CatalogTree.Land | internal/domain/catalog_tree.go:125-146 | Terminates on any list |
| CatalogTree.LandingIsSafe | internal/domain/catalog_tree.go:121-146 | Landing stays visible and inside the opened folder, keeps every offer below, offers something or leaves a choice, and is idempotent |
| CatalogTree.ListIsForest | internal/domain/catalog_tree.go:9-40 | The list the database keeps is indexed as a forest |
| Metrics.AverageDuration | internal/application/ticket_metrics.go:522-536 | The floor of the exact mean, every intermediate within 64 bits although the sum need not be |
| Metrics.ResolutionHistogramWidth | internal/application/ticket_metrics.go:566-577 | The smallest 1-2-5 width needing at most seven bins, at most 20000 days, without overflow |
| Metrics.ResolutionHistogram | internal/application/ticket_metrics.go:538-564 | Each bin counts exactly its half-open range, every duration is in one bin, and the last bin is not empty |
| Metrics.Median | internal/application/ticket_metrics.go:392-398 | The middle, or the floor of the mean of the two middle ones, without overflow |
| Metrics.P90 | internal/application/ticket_metrics.go:399-399 | The smallest duration with at least n - n/10 of them at or below it |
| MetricsTotals.BuildTicketMetrics | internal/application/ticket_metrics.go:285-388 | Every number of the report counts exactly the records it is for: each age bucket, the unassigned, each workload row, each week's created and resolved, the excluded; the samples are the elapsed times of the measurable records, in order |
| MetricsTotals.WindowInWeeks | internal/application/ticket_metrics.go:288-294 | Every ticket of the window has its week in the table |
| SearchQuery.BuildTextQuery | internal/application/search_service.go:235-255 | The quoted words with content, joined |
| SearchQuery.QueryReadsBack | internal/application/search_service.go:235-255 | Any word list reads back from its expression |
| SearchQuery.SearchReadsBack | internal/application/search_service.go:235-255 | Whatever was typed, the expression reads back as exactly the typed words with content, and is empty exactly when there are none |
| DraftLock.DraftStore.SaveDraftIfRevision | internal/adapters/sqlite/workflow_store.go:128-169 | Lands only at the expected revision with existing desks, advances it, and otherwise changes nothing |
| DraftLock.DraftStore.Clone | internal/application/workflow_service.go:347-388 | Clones only into an empty draft |
| DraftLock.RevisionsGrow | internal/adapters/sqlite/workflow_store.go:297-362 | The revision never goes back and a landed write moves it |
| DraftLock.RevisionCounts | internal/adapters/sqlite/workflow_store.go:128-169 | The revision counts the guarded writes that landed and the publishes |
| DraftLock.LastWriteStands | internal/adapters/sqlite/workflow_store.go:128-169 | The draft holds the bytes of the last write, as they were given |
| DraftLock.NothingUnreadIsOverwritten | internal/application/workflow_service.go:141-154 | Among guarded saves, guarded publishes, clones and the unguarded publish, in any interleaving, a guarded write that lands replaces exactly the bytes its author read, and a clone replaces nothing |
| DraftLock.WriteLandsIff | internal/adapters/sqlite/workflow_store.go:128-169 | A guarded write lands if and only if its desks exist, no write moved the revision since its author read, and a clone read an empty draft |
| DraftLock.OneOfTwoRacersLands | internal/application/workflow_service.go:333-388 | Of two authors who read before either wrote at most one lands; of two racing clones exactly the first |
| DraftLock.UnreadIsOverwrittenIff | internal/application/workflow_service.go:186-202 | What a caller of the retained unguarded upsert would break: a landed write replaces bytes its author did not read if and only if an upsert changed them at the revision read |
| DraftLock.UpsertIsOverwritten | internal/adapters/sqlite/workflow_store.go:72-91 | A run of the store with such a caller, in which a clone lands on bytes nobody showed its author; no production code issues the upsert |
| Passes.Pass | internal/application/hold_expiry.go:98-130 | The pass ends, applies its rule once per ticket in id order, and reaches every ticket that stays a candidate, whatever changes between reads; the first failure ends it, with every such ticket before it done |
| Passes.AlertLog.AppendAlert | internal/adapters/sqlite/alert_store.go:189-212 | Check and write are one step |
| Passes.AlertsAreReportedOnce | internal/application/alerts.go:66-152 | However passes overlap: a threshold once per ticket, no-movement alerts separated by activity, every attempted condition on record |
| Reminders.RemindedAtMostOnce | internal/application/hold_expiry.go:215-242 | Passes that do not overlap remind at most once per hold, whatever replies and new holds come between |
| Reminders.WhenItReminds | internal/application/hold_expiry.go:215-242 | A pass goes on to write if and only if it finds no reminder since the hold began, and its write reminds, once, if and only if that hold is still on |
| Reminders.RemindsAgainIff | internal/adapters/sqlite/ticket_store.go:490-513 | A pass reminds a hold again if and only if another pass reminded it between the first one's read of the log and its write |
| Reminders.OverlappingPassesRemindTwice | internal/adapters/sqlite/hold_expiry_store.go:60-75 | A run of two overlapping passes that does |

## Left out

- PlanRecheck.Recheck: does not model the audit-event fields the store compares (actor names, action strings, desk and step copies), the JSON form of answers, or the canonical bytes of a definition; those are equalities of copied facts.
- Runner.PlanComplete: the error's message and catalogue key are not modelled, only which kind of error a position conflict is.
- Workflow.ValidDefinition: keeps only the part of the definition's validation the planner relies on; unique field keys and option rules are left out.
- Holds.TicketStore.Update: does not model the fields that do not take part in the protocol (title, priority, category), nor audit rows and notifications of these writes.
- HoldProtocol.EveryRunIsSafe: assumes no two holds of a ticket start at the same stored instant; without it the statement is false, and both directions are proved.
- OAuthRuns.StepKeeps: secrets stand for their digests, and code and token ids are the secrets; client registration, redirect matching, URL normalisation, the issuer response and the instance switch are left out; a request's read of the clock is one instant.
- OAuthScopes.ScopedCapabilities: covers the capabilities over tickets; those of administration, which no scope allows, are left out.
- HoldShift.HoldsCostNoTime: is about a calendar whose counting is additive and whose adding undoes it; `Holds.HoldsNeverBringForward` is about any calendar.
- OAuthService.ExchangeCode: the syntax of a presented secret is not modelled.
- EmailOutbox.AcceptedAtMostOnce: composing and rendering the message is one of the outcomes; the order in which due rows are claimed is left out, and a claimed batch is a run of single claims.
- CatalogTree.NewCatalogTree: children keep list order; the sort by name is left out, because neither paths nor landing depend on it.
- MetricsTotals.BuildTicketMetrics: labels, the order of weeks and workload rows, and the SLA attainment table are left out.
- Metrics.P90: takes the sorted durations; the library sort is left out.
- Reminders.RemindedAtMostOnce: is about one ticket; a pass's other tickets do not touch its log, and a requester nobody can reach only stops the pass at this ticket.
- Passes.Pass: a failing read of a page or of the settings is left out; a page is what the store answers at that moment; the rule applied to a ticket is the hold protocol's.
- Notifications of priority, assignment, resolution answers, holds and alerts use the same batch and are left out.
- Company sign-in, password reset, settings, desks and categories, saved replies, views, charts of the SLA attainment, HTTP handlers and the remaining stores are left out: guards and storage with easy claims.
