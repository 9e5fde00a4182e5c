# Verification of the SSH gateway's authorization core

The gateway runs operations on remote hosts for humans and for agents. An agent's operation passes a policy engine;
when the policy asks for confirmation it must be charged to something a human approved: the next action of an approved
plan, a use of a grant, or the approval itself. This project models that machinery and the algorithms it rests on, and
proves what they are for.

- `Gateway` is the authorization driver as a state machine. Any number of operations, approvers, sweeps, cleanups and
  crashes interleave; an event is one SQL statement, one immediate transaction or one call out to a host. Clock
  readings, fresh identifiers, query answers and file contents are carried by the events. `Invariants` proves what
  every event keeps, `Effects` what an event cannot change, `Origins` where a task's knowledge of the plans comes
  from, `Ledger` the theorems about every run, `Isolation` that a transaction depends on its namespace alone, and
  `Noninterference` that whole runs do.
- `Approvals`, `Grants` and `Plans` hold the rows and the effect of each statement on them. `Store` is the database as
  the services use it, a mutable class with one method per service operation. `Driver` is `resolve_operation`, profile
  management and the ApprovalApprove arm as they run on that store; it takes every statement as an event too, so its
  tables are always those of some run of the machine and the theorems of `Ledger` hold of it.
- `Policy`, `Glob` and `Paths` are the policy engine: rules, the wildcard matcher, lexical path containment.
- `Config` is the profile resolver and configuration validation; `Sessions` the session pool that depends on its
  acyclicity; `Locks` the protocol of the two service locks.
- `Redaction` removes secrets and private keys from output, and `Leaks` shows for which secrets that can fail; `Shell`
  quotes for POSIX shells; `Principal` is the identity encoding behind execution namespaces; `Types` holds requests
  and digests.

Hashing is taken to be injective, so a digest is modelled by what it is taken of, upload bytes included. A `string` is
a sequence of bytes.

What turned out not to hold, and the exact conditions under which it does:

- The wildcard matcher compares bytes before it looks at a star, so a `*` byte in the value can use up a star of the
  pattern. It agrees with "star matches any string" for every pattern exactly when the value has no `*` byte before
  its last byte (`Glob.AgreesExactly`); a match it reports is always a true one.
- So a deny rule that matches ahead of all others binds every agent under every configuration exactly when the command
  or path has no such byte inside (`Policy.DenyBindsExactly`).
- A secret is kept out of every output, in every list it can be part of, exactly when it is secure
  (`Leaks.ProtectedExactly`): it holds a whole key header; or it cannot overlap the mark written for secrets, and it
  breaks up every key header or cannot be completed by the mark written for keys. What completes it is an overlap
  whose left side has no `-----BEGIN ` on its last line. For every other secret a leak is built. For a given list
  without brackets the exact condition is `Redaction.RedactionExact`.
- A profile change asked for by an agent needs a human's approval in Cloud mode only
  (`Ledger.CloudMutationsApproved`). A self-hosted gateway makes the change an MCP client asks for without a decision
  of its own, as documented.
- An execution charged to a plan happens while the plan is executing that action exactly when no sweep between its
  claim and its run read a clock past the lease (`Ledger.LeaseDecides`). After such a sweep the plan has failed and
  the action is run all the same; there is such a run for every operation a plan can hold (`Ledger.RunsAfterLapse`).
- While an action of a plan is claimed, another request of the same task is refused, unless a newer plan of the task has
  come into force: the newest alone decides (`Ledger.BoundClaims`, `Ledger.NothingBesideClaimed`,
  `Ledger.NewerPlanRuns`).
- A delegated argument list, quoted once but read twice, survives exactly when every argument is a plain word
  (`Shell.ArgvSurvivesExactly`).
- A delegated command reaches its agent unchanged exactly when the agent's path is a plain word and neither the
  command nor a given directory is empty (`Shell.ExecArgsSurvive`); empty arguments are lost and the rest move up.
- A plan's lease outlasts its command by the intended minute exactly when the request names a timeout from one second
  to an hour, or names none and the profile's is from one second to five minutes (`Plans.LeaseCoversCommand`). A
  timeout of zero means no end, and the profile's default is ten minutes; both fall short (`Plans.LeaseFallsShort`).
- Closing a session leaves its tunnels in the table: once the session is gone none of them can be seen
  (`Sessions.SessionManager.CloseSession`).

## Model

| member | source | states |
|---|---|---|
| Ledger.NoTokenSpentTwice | src/service.rs:471-601 | in every interleaved run, two executions share a token (plan action, grant use, approval) only if neither needed one |
| Ledger.EveryExecutionAuthorized | src/service.rs:348-601 | every execution was decided and not denied by the policy under the configuration it ran with, or is a profile mutation, which rests on a human's approval or was asked for by an MCP client of a gateway not in Cloud mode; when confirmation was due it holds a token that covers exactly this operation and that an event of the run by a human stands behind |
| Ledger.CloudMutationsApproved | src/service.rs:391-416 | in Cloud mode every profile mutation that was made is the frozen request of an approval that a human's claim won, and no other execution rests on that approval |
| Ledger.EveryExecutionByRule | src/policy.rs:53-182 | under the gateway's own engine every agent execution on a host passed its profile's gates and, if there are rules, the first matching one, which truly matches |
| Ledger.IssuedByHuman | src/service.rs:664-763 | every token ever issued has a human act behind it: an approved plan, a won approval, or a use within the limit of a grant made from a won approval |
| Ledger.TokensByHumans | src/service.rs:664-763 | behind every token ever issued there is an event of the run that a human took: it approved the plan, or opened the approval, for a grant with exactly the terms the grant was made with |
| Ledger.OthersDecideNothing | src/service.rs:664-673 | approving, rejecting, revoking and cleaning up do nothing when anybody but a human asks for it, proposing nothing when a human does |
| Ledger.SingleWinner | src/approval.rs:163-193 | however reads and conditional updates race, one approval is won at most once in a run |
| Ledger.RowFrozenUntilFinish | src/approval.rs:195-252 | from the winning update to the winner's finish no claim, rejection, expiry or cleanup changes or deletes the row |
| Ledger.PlanStory | src/grant.rs:376-459 | in every run the claims of a plan are of actions 0, 1, 2, ... without repetition, each right after the previous action succeeded; completed exactly when the story is approval and then every action claimed and done |
| Ledger.SettledForever | src/grant.rs:424-459 | a failed, expired, rejected or completed plan never changes again, so a finish after a failed lease has no effect |
| Ledger.PlanRunsInOrder | src/service.rs:509-523 | executions charged to one plan occur in the order of its actions |
| Ledger.FinishedActionsRan | src/service.rs:553-580 | every action a plan has moved past was executed, as proposed, for the plan's task and namespace |
| Ledger.CompletedPlanRan | src/grant.rs:424-447 | a completed plan executed every one of its actions |
| Ledger.ClaimsAreAsProposed | src/grant.rs:398-413 | in any reachable state a claim is of the next action of the plan's own proposal event, and every file the plan uploads holds the bytes it held at that event |
| Ledger.ExecutionsAreAsProposed | src/service.rs:494-520 | every execution charged to a plan is, with all uploaded bytes at its claim, the action at its index in the event that inserted the plan; proposal, claim and run follow each other in the run, the last two by one task, and the claim read a clock within the time to live asked for and the longest allowed |
| Ledger.LeaseDecides | src/grant.rs:491-494 | at the run of a claimed action its plan is executing it, under the lease the claim took, exactly when no lease sweep between the claim and the run had a clock at or past that lease; otherwise the plan has failed |
| Ledger.RunsAfterLapse | src/service.rs:553-566 | for every agent operation a plan can hold there is a run that executes it on a plan that has failed |
| Ledger.PlanProposed | src/grant.rs:309-335 | every plan was inserted by one agent's proposal event of the run, which still gives its actions, hash, profile, task, namespace and times |
| Ledger.GrantConservation | src/grant.rs:238-274 | used_count is exactly the number of uses handed out, never above max_uses; exhausted exactly at equality; every charged execution used one of them |
| Ledger.HumanDecisionBound | src/service.rs:677-763 | one approval leads to at most one grant and at most 1 + max_uses executions in any run |
| Ledger.GrantInherits | src/grant.rs:138-171 | a grant carries its approval's profile, rule and namespace; its lifetime and uses are within the limits of the configuration the human's request was made under, and its scope is one that those limits permit for the approval's risk, each risk by its own limit; a profile mutation's approval yields none |
| Ledger.GrantOver | src/grant.rs:284-307 | a grant revoked, expired, used up or cleaned away is never active again and no further use of it is handed out |
| Ledger.ApprovalOver | src/approval.rs:195-252 | an approval rejected, expired or cleaned away before it was won is never won later and nothing ever runs on it |
| Ledger.ApprovalFiled | src/approval.rs:113-139 | every approval was filed once, by one event of the run, which gives its request, caller, namespace, task, rule, risk and the two times |
| Ledger.NoLateApproval | src/approval.rs:163-178 | a human's claim that goes through read a clock less than the configured time to live after the reading the approval was filed at |
| Ledger.LivePlanExclusive | src/service.rs:489-520 | an agent execution with a task, approvals enabled, that was not run by an approval: at its own claiming transaction, after it arrived and before it ran, either some plan of its profile, task and namespace was approved or executing and unexpired, and it is the exact next action of the newest of them, which had no action claimed; or none was and it is not charged to a plan |
| Ledger.BoundClaims | src/grant.rs:390-413 | while such a plan is there, a claim of its task leads to an execution exactly when the newest has no action claimed, its content is as proposed and the request is its next action; otherwise the task is over |
| Ledger.NothingBesideClaimed | src/grant.rs:394-397 | while an action of the newest such plan is claimed, nothing of its task runs |
| Ledger.NewerPlanRuns | src/grant.rs:390-397 | with a newer plan of the task approved, its next action is run although an action of the older plan is claimed |
| Ledger.ClaimedBeforeRun | src/service.rs:494-520 | an execution that knows of the plans read them in its own task's claim, which lies between the task's arrival with the operation and the run, the task staying all the while |
| Ledger.TaskStories | src/service.rs:471-551 | every waiting operation arrived, and what it knows of the plans comes from its own claim since |
| Ledger.FromStart | src/service.rs:471-763 | the invariant, the use counts and the execution order hold in every state any run reaches, under an unchanged policy engine |
| Invariants.StepKeeps | src/service.rs:471-763 | every event of every caller keeps the row, story, claim, token, grant and evidence invariants |
| Invariants.OperationKeeps | src/service.rs:471-601 | the events of resolve_operation and execute_enveloped keep the invariant |
| Invariants.ApproverKeeps | src/service.rs:664-763 | the events of the ApprovalApprove arm keep the invariant |
| Invariants.PlanningKeeps | src/grant.rs:309-374 | proposing, approving, rejecting and sweeping plans keep the invariant |
| Invariants.ClaimedTransactionKeeps | src/grant.rs:385-422 | a claim keeps the invariant, of the plan's own next action and with a token never issued before |
| Invariants.ChargeKeeps | src/grant.rs:238-274 | a charge keeps the invariant, with a use never issued before, for an operation the grant covers |
| Invariants.WinKeeps | src/approval.rs:178-186 | a win keeps the invariant; the approval had no winner, no execution and no grant before, and belongs to the winner after |
| Invariants.InsertGrantKeeps | src/grant.rs:138-171 | inserting the grant keeps one grant per approval, with inherited terms |
| Invariants.FinishedStory | src/grant.rs:424-459 | finishing an action moves its plan's story on by exactly one success or failure |
| Effects.StepEffect | src/service.rs:471-763 | no event gives up a claim, touches another winner's executing row, changes a settled plan or any proposal, miscounts uses, breaks the execution order, revives a dead grant or a closed approval, or runs anything but what a task was ready to run |
| Origins.StepFrom | src/service.rs:471-551 | a task's operation is the one it arrived with, and what it knows of the plans it had before or reads in its own claiming transaction |
| Isolation.ConsumeIsolated | src/grant.rs:250-274 | consuming in two databases that agree on the caller's namespace has the same outcome and the same change, and changes no other namespace's row |
| Isolation.ClaimIsolated | src/grant.rs:390-422 | the same for claiming a plan action |
| Noninterference.NoInterference | src/service.rs:268-271 | in every run an agent's own tasks, rows and executions, and what humans do with its approvals, grants and plans, are exactly those of the run without everybody else's events |
| Noninterference.StepPart | src/service.rs:471-763 | an event that is somebody else's leaves a namespace's part of the world as it is; any other does to the part alone what it does to it within the whole |
| Driver.Driver.ResolveOperation | src/service.rs:471-551 | a refused operation, and a request that is not an operation, changes nothing; one allowed with no plan to consider runs; with approvals on, a newest live plan alone decides and the operation runs exactly when it can be claimed as that plan's next action; without one it runs when allowed, and otherwise only on an eligible grant and always when one outlasts the call; what does not run becomes a pending approval exactly when the decision names a rule and the request can be filed; at most one execution, of exactly this operation; tables and history are those of a run of the machine |
| Driver.Driver.UnderPlan | src/service.rs:494-526 | a live plan decides, charging its token; without one an allowed operation runs and the rest go on to grants |
| Driver.Driver.UnderGrant | src/service.rs:521-550 | a confirmed operation runs only on an unexpired grant that suits its profile, rule, task and namespace and has uses left, and always when one outlasts the call; otherwise it becomes a pending approval of the same request, or is refused without a rule |
| Driver.Driver.ClaimPlan | src/grant.rs:376-422 | nothing is found exactly when no plan of the profile, task and namespace is approved or executing and unexpired; otherwise the newest decides, and a claimed action's lease is held; the claim on the tables is the machine's |
| Driver.Driver.ConsumeGrant | src/grant.rs:238-274 | the first candidate that can still be spent at its turn is charged, nothing exactly when there is none; a grant is used only when a suitable one is there and always when one outlasts the call, whatever the clock does; its token is the execution's, and the consumption on the tables is the machine's |
| Driver.Driver.RequestApproval | src/service.rs:537-550 | the request is filed exactly when it has a profile and its upload can be read; the row waits with the operation's request, caller, namespace, task and profile and the decision's rule and risk, for the configured time to live |
| Driver.Driver.FinishPlan | src/service.rs:567-580 | reports whether the lease was still held, and moves the plan by its success or failure only then; the finish on the tables is the machine's |
| Driver.Driver.ManageProfile | src/service.rs:348-417 | only an MCP client gets anywhere: in Cloud mode the mutation becomes a pending high-risk approval, exactly when approvals are on, and is not made; otherwise it is made once without one |
| Driver.Driver.ApproveRequest | src/service.rs:664-763 | goes through exactly when the approval can be opened with the wished grant and claimed with unchanged content; it then runs exactly when the content is still unchanged, the second decision does not deny it and a grant asked for can be made; one run at most, as frozen, charged to the approval, whose row ends executed or failed |
| Driver.Driver.Claim | src/approval.rs:163-193 | succeeds exactly when the row is claimable at its clock reading and hashes as filed; it is then executing, and the task holds it |
| Driver.Driver.DecideAgain | src/service.rs:679-762 | the frozen request runs exactly when its content is unchanged and the second decision lets it; otherwise the approval fails without a run |
| Driver.Driver.RunFrozen | src/service.rs:714-762 | what the second decision allows runs once as frozen, after its grant exactly when one was asked for and confirmation is still due |
| Driver.Driver.MintAndRun | src/service.rs:736-754 | with a grant asked for, the request runs exactly when the grant could be made |
| Driver.Driver.Mint | src/service.rs:736-741 | the grant is made exactly when the decision names a rule, the approval validates under it and has no grant yet; otherwise the approval is closed |
| Driver.Driver.Finish | src/approval.rs:204-215 | only an executing row is finished, by the task that holds it |
| Store.Store.CreateApproval | src/approval.rs:113-139 | inserts exactly one pending row, or none when there is no profile or hash; all its fields are as asked for, and it expires its time to live after the clock reading, or when a 64-bit clock ends; all other rows unchanged |
| Store.Store.ClaimApproval | src/approval.rs:163-193 | succeeds exactly when the swept row is pending, unexpired, visible and still hashes as stored; then, and only then, it is executing |
| Store.Store.RejectApproval | src/approval.rs:195-203 | rejects exactly a pending, unexpired row |
| Store.Store.FinishApproval | src/approval.rs:204-215 | only the named row can change, only its status, and exactly when it was executing: to executed or failed as the run went |
| Store.Store.CleanApprovals | src/approval.rs:217-227 | keeps, unchanged, exactly the rows being executed and those that wait and are not due, and reports how many are gone |
| Store.Store.CreateGrant | src/grant.rs:138-171 | succeeds exactly when the source validates and has no grant yet; the new row inherits from the approval, within the limit for its own risk, all else unchanged |
| Store.Store.SelectCandidates | src/grant.rs:249-262 | exactly the active, unexpired rows of the profile, rule and namespace with uses left, for the task or for any, each once, task-scoped before time-scoped and newest first |
| Store.Store.Consume | src/grant.rs:238-274 | finds nothing only when every row that suits expires before the call is over; otherwise charges one use to the first candidate still spendable at its turn; every other row is as it was or expired because it was due; keeps the row invariant |
| Store.Store.Revoke | src/grant.rs:284-296 | revokes exactly an active grant |
| Store.Store.CleanGrants | src/grant.rs:297-307 | keeps, unchanged, exactly the active rows that are not due |
| Store.Store.ProposePlan | src/grant.rs:309-335 | inserts a pending plan of the actions as they are, hashed over all of them, which expires after the time to live asked for or the longest allowed; refused exactly when the task is blank, there is no action, one is of another profile or kind, or an upload cannot be read |
| Store.Store.ExpirePlans | src/grant.rs:491-507 | row by row: a plan whose lease has run out fails, an open one that is due expires, any other stays; keeps the row invariant |
| Store.Store.ApprovePlan | src/grant.rs:354-361 | approves exactly a pending, unexpired plan |
| Store.Store.RejectPlan | src/grant.rs:362-374 | rejects exactly a pending plan |
| Store.Store.SelectNewest | src/grant.rs:390-393 | finds a newest plan of the profile, task and namespace that is approved or executing and unexpired, none exactly when there is none |
| Store.Store.ClaimPlanAction | src/grant.rs:376-422 | nothing without a task; otherwise nothing is found only when no plan of the profile, task and namespace is approved or executing and unexpired; the newest such plan is claimed exactly when no action of it is claimed, its content is as hashed and the request is its next action, and the request is refused otherwise; every row of another namespace is as it was, or failed or expired because it was due |
| Store.Store.CheckClaim | src/grant.rs:394-413 | there is nothing to claim exactly when no plan was found; a plan is claimed exactly when no action of it is, its content is as hashed and the request is its next action |
| Store.Store.FinishPlanAction | src/grant.rs:424-459 | succeeds exactly while the action's lease is held; then the plan moves on, completes or fails |
| Approvals.SweepDecidesNothing | src/approval.rs:163-203 | an earlier sweep never decides whether a later claim or rejection succeeds |
| Grants.SweepDecidesNothing | src/grant.rs:238-274 | an earlier sweep never decides what a later query finds or an update spends |
| Grants.ValidationExact | src/grant.rs:173-236 | a grant is permitted exactly for an approval in the required state with the expected rule, for a time and a number of uses within the limits, and in a scope that the limit for its own risk permits; the terms are the approval's |
| Grants.ConsumeTakesBest | src/grant.rs:238-274 | at one clock reading `consume` finds nothing exactly when no row is eligible, and otherwise takes one for the task before one for any, and the newest of those |
| Grants.AnswersDependOnNamespaceOnly | src/grant.rs:250-262 | the candidates depend on the caller's namespace only |
| Grants.ChargeDependsOnNamespaceOnly | src/grant.rs:263-274 | so does the charge, and it leaves other namespaces alone |
| Plans.ClaimBindsRequest | src/grant.rs:398-413 | a claim fixes the request to the proposed action and every uploaded byte of the plan to the proposal |
| Plans.LivePlanDecides | src/service.rs:489-520 | while a plan of the profile, task and namespace is approved or executing and unexpired, the newest is claimed, exactly when it is free, unchanged and the request is its next action, or the request is refused |
| Plans.ClaimExact | src/grant.rs:394-413 | a plan is claimed exactly when no action of it is, its content is as hashed and the request is its next action |
| Plans.ClaimDependsOnNamespaceOnly | src/grant.rs:390-418 | a claim depends on the caller's namespace only and changes no other |
| Plans.SweptPlans | src/grant.rs:491-507 | after the sweeps every executing plan is within its lease, and expiring open plans changes no later answer |
| Plans.LeaseCoversCommand | src/grant.rs:604-614 | a lease outlasts its command by a minute exactly for a named timeout from one second to an hour, or for none with the profile's from one second to five minutes |
| Plans.LeaseFallsShort | src/grant.rs:604-614 | it does not for a timeout of zero, for none under the default profile, and for an hour and a second |
| Types.PlanHashBinds | src/grant.rs:593-603 | a plan hash fixes every action and every uploaded byte |
| Types.PlanHashExists | src/grant.rs:593-603 | there is a hash exactly when every upload can be read, and the same bytes give the same hash |
| Policy.AuthorizeRequest | src/policy.rs:53-182 | the engine as it runs computes the decision the specification gives |
| Policy.TestRule | src/policy.rs:184-194 | a rule matches exactly when its operation fits and one of its patterns matches |
| Policy.CheckGates | src/policy.rs:64-103 | passes exactly when capability, command list and path roots all admit the request |
| Policy.DecideByRules | src/policy.rs:158-181 | the first matching rule decides; none matching denies |
| Policy.RuleMatchSound | src/policy.rs:184-220 | a rule that matches does so in the documented sense, and conversely for subjects without an inner star byte |
| Policy.AdmittedOnlyByRule | src/policy.rs:53-182 | an agent is admitted only through the gates and by the first matching rule, which truly matches |
| Policy.AgentAccess | src/policy.rs:53-157 | operation by operation, what an agent is not refused outright: the capability the operation needs, the command list, and the read or write roots of the path it reads or writes; tunnels by capability; no administration, shutdown or profile management |
| Policy.AgentRules | src/policy.rs:158-220 | with rules, what an agent is let do carries effect, name and risk of a rule for that operation with a pattern that matches the command or the remote path |
| Policy.DenyIsAbsolute | src/policy.rs:158-181 | a truly matching deny rule ahead of all matching others is final, for subjects without an inner star byte |
| Policy.DenyPassedOver | src/policy.rs:158-220 | for every other subject there are two sound rules, a deny rule that truly matches and an allow rule behind it, under which the engine allows |
| Policy.DenyBindsExactly | src/policy.rs:158-220 | leading deny rules bind every agent under every configuration exactly for subjects without an inner star byte |
| Glob.WildcardMatch | src/policy.rs:196-220 | the backtracking loop stays in bounds, ends, and decides the eager reading of the pattern |
| Glob.EagerImpliesMatches | src/policy.rs:196-220 | a reported match is a match under "star matches any string" |
| Glob.MatchesImpliesEager | src/policy.rs:196-220 | and every such match is reported when the value has no star byte before its last |
| Glob.AgreesExactly | src/policy.rs:201-206 | the matcher agrees with that reading for every pattern exactly for those values |
| Glob.StarRefusesStarA | src/policy.rs:201-206 | pattern `*` refuses the value `*a` |
| Paths.NormalizeRemotePath | src/policy.rs:278-295 | the loop over components computes the normal form, refused exactly for relative paths |
| Paths.ComponentsClean | src/policy.rs:278-295 | a normal form has no empty, `.` or `..` component |
| Paths.NormalIdempotent | src/policy.rs:278-295 | normalising twice changes nothing |
| Paths.UpUndoes | src/policy.rs:278-295 | wherever it stands, `..` undoes the component before it |
| Paths.UpAtRoot | src/policy.rs:278-295 | at the root `..` stays there |
| Paths.DotVanishes | src/policy.rs:278-295 | `.` and empty components vanish wherever they stand |
| Paths.CleanIsNormal | src/policy.rs:278-295 | a path without any of these is its own normal form |
| Paths.WithinIsPrefix | src/policy.rs:264-268 | the string test holds exactly when the root's components are a prefix of the path's, the root `/` included |
| Paths.RequirePath | src/policy.rs:254-276 | passes exactly when no roots are configured, or the path is absolute and its normal form inside that of an absolute root |
| Paths.ClimbingRefused | src/policy.rs:254-276 | a path that climbs out of the only root is refused, whatever it enters then |
| Config.ValidateCommon | src/config.rs:1057-1137 | accepts exactly the profiles that pass every local check |
| Config.ResolveProfileWith | src/config.rs:881-1010 | the resolver with its mutable stack computes the specification and restores the stack on success; what it resolves to has the target, the bastions or the upstream of a profile of that name, and credentials for every hop |
| Config.ResolvesExactly | src/config.rs:881-1010 | resolution succeeds exactly when the via_profile chain is finite, repeats no name, ends in a direct profile and is sound at every profile on it |
| Config.DepthBound | src/config.rs:881-900 | resolution nests at most one call deeper than there are profiles, whatever the configuration |
| Config.Validate | src/config.rs:637-681 | accepts exactly the configurations with distinct names, sound settings and every profile resolving |
| Config.AcceptedMeans | src/config.rs:637-681 | what an accepted configuration guarantees, setting by setting and profile by profile |
| Config.EnsureProfileDeletable | src/service.rs:1004-1024 | passes exactly for a known profile that is not the last and has no dependents |
| Config.DeleteRevalidatesExactly | src/service.rs:443-463 | deleting from a valid configuration leaves it valid exactly when nothing points at the profile and something remains |
| Config.CreateValidatesExactly | src/service.rs:433-442 | adding a profile leaves a valid configuration valid exactly when its name is new and it resolves |
| Sessions.OneSessionEach | src/session.rs:216-292 | a namespace and profile have at most one session |
| Sessions.SessionManager.EnsureSession | src/session.rs:216-292 | a session is had exactly from a living transport or when connecting at the end of the chain succeeds; a live session is reused, a dead one replaced or dropped, a failure leaves the profile without a session; the two maps stay inverse and sessions outside the dependency chain stay untouched |
| Sessions.SessionManager.OpenSession | src/session.rs:236-292 | a fresh session exactly when the network answers, over the transport it gave; a delegated one, refused in the Cloud runtime, shares the transport of its upstream's session |
| Sessions.UpstreamResolves | src/session.rs:257-261 | once a profile resolves, so does every profile down its chain |
| Sessions.ChainTail | src/session.rs:257-263 | the dependency chain never comes back to its start, which is why the index entry is still free after the upstream was opened |
| Sessions.SessionManager.CloseSession | src/session.rs:126-162 | removes exactly the caller's session and its index entry; its tunnels remain |
| Sessions.SessionManager.CloseAll | src/session.rs:164-176 | leaves no session and no index entry |
| Sessions.SessionManager.ReapIdleSessions | src/session.rs:187-214 | removes exactly the sessions in scope that are idle past their timeout, each at its own clock reading, with no command in flight on them and no tunnel |
| Sessions.SessionManager.PrepareExec | src/session.rs:447-494 | succeeds exactly when the profile resolves, a session is had and the agent is ready; a prepared command is counted on its session; other namespaces are untouched |
| Sessions.SessionManager.FinishExec | src/session.rs:525-530 | the count is exact, so the saturating subtraction never clamps |
| Sessions.SessionManager.OpenTunnel | src/session.rs:677-752 | succeeds exactly when the profile resolves, a session is had, it is a direct one and the port is free; a tunnel is added only then |
| Sessions.SessionManager.CloseTunnel | src/session.rs:754-792 | succeeds exactly for a tunnel whose session is alive in the caller's namespace |
| Sessions.SessionManager.EnsureAgent | src/session.rs:294-347 | marks exactly the given session ready, or changes nothing |
| Locks.ProgramsDisciplined | src/service.rs:178-213 | no task kind requests the configuration while holding either lock, or the sessions while holding them, and all release everything |
| Locks.MutationDisciplined | src/service.rs:420-469 | profile management in all its variants keeps that discipline and commits only under the write lock |
| Locks.MutationCommits | src/service.rs:420-469 | a mutation that is not refused makes its change once and no other, a deletion while it holds the sessions |
| Locks.NoDeadlock | src/service.rs:72-95 | in every reachable state with an unfinished task some task can go on |
| Locks.EveryRun | src/service.rs:420-469 | in every run: no deadlock, readers never beside a writer, and every committed configuration valid and one accepted change after the last |
| Locks.RunsEnd | src/service.rs:866-950 | without new tasks every run ends, after at most two steps for each remaining action and one for each task |
| Locks.CommitKeeps | src/service.rs:425-442 | a commit happens under the write lock and appends exactly the accepted change of the configuration current at that moment: the new profile at the end, or all profiles but the deleted one |
| Locks.NestedAccessDeadlocks | src/service.rs:204-213 | a task that asked again while holding the configuration would deadlock behind a writer |
| Redaction.RedactText | src/redaction.rs:66-71 | the fold and the scrubber compute the redaction |
| Redaction.RedactPrivateKeyBlocks | src/redaction.rs:95-122 | the in-place loop stays in bounds, ends and computes the scrubbed text |
| Redaction.ScrubIsClean | src/redaction.rs:95-122 | no header with the key words on its line is left |
| Redaction.ScrubClean | src/redaction.rs:95-122 | text without such a header is left alone |
| Redaction.ScrubIdempotent | src/redaction.rs:95-122 | a second run is the identity |
| Redaction.ScrubKeepsTheRest | src/redaction.rs:102-119 | the result is the text's pieces in order, with exactly the key blocks replaced by one mark each: from a key header through the line of the first end marker, or through all the rest |
| Redaction.ReplaceAllRemoves | src/redaction.rs:66-70 | a secret that cannot overlap the mark is gone after all replacements, whatever the other secrets are |
| Redaction.SecretNeverShown | src/redaction.rs:66-71 | no output for any text and any list contains a robust secret, with or without brackets: one clear of both marks, or clear of the first and breaking up every key header |
| Redaction.HeaderNeverShown | src/redaction.rs:95-122 | nor one that holds a whole key header itself |
| Redaction.SafeRedaction | src/redaction.rs:66-71 | for a safe list without brackets no output contains any secret |
| Redaction.RedactionExact | src/redaction.rs:66-71 | for a list without brackets: no output of any text contains a secret of it exactly when the list is safe against the two marks |
| Leaks.ProtectedExactly | src/redaction.rs:66-122 | any secret is kept out of every output in every list that can hold it exactly when it is secure: it holds a key header, or is clear of the first mark and either breaks up key headers or is not completed by the key mark |
| Leaks.MarkLeaks | src/redaction.rs:66-71 | for every secret without a key header that can overlap the mark: a list and a text whose output contains it |
| Leaks.KeyMarkLeaks | src/redaction.rs:95-122 | for every secret without a key header that the key mark can complete and that leaves key headers whole: a text whose output contains it |
| Leaks.BracketedRobust | src/redaction.rs:66-71 | a bracket alone does no harm: `a[b` is robust |
| Leaks.BlockScrubbed | src/redaction.rs:102-119 | a whole key block becomes one mark between the unchanged text around it |
| Redaction.BracketLeaks | src/redaction.rs:66-71 | a concrete list with a bracketed secret whose output contains it |
| Redaction.RedactedStrings | src/redaction.rs:73-80 | every string anywhere in a JSON value is replaced by its redaction, free of every robust secret, and the shape is kept |
| Redaction.CollectsEverything | src/redaction.rs:18-42 | exactly the non-empty values are secrets, and none is replaced before a longer one that contains it |
| Shell.ShellRoundTrip | src/ssh.rs:263-273 | reading a joined list gives back exactly its parts when they are free of NUL, and nothing otherwise |
| Shell.CommandSurvivesTwoReadings | src/session.rs:1105-1123 | a delegated command, quoted twice, arrives unchanged after two readings, whatever it contains |
| Shell.ArgvFirstReading | src/session.rs:1090-1103 | the first reading of a delegated argument list is exact |
| Shell.ArgvSurvivesExactly | src/session.rs:1090-1103 | the second reading gives the list back exactly when every argument is a plain word |
| Shell.ExecArgsSurvive | src/session.rs:447-494 | the agent call of a delegated exec survives the second reading exactly when the agent's path is a plain word and neither the command nor a given directory is empty |
| Shell.ExecArgsRead | src/session.rs:460-476 | the agent reads from its arguments exactly the directory, seconds, command and assignments of the call |
| Shell.Base64RoundTrip | src/session.rs:462-475 | decoding undoes encoding for every string of bytes |
| Shell.EmptyArgumentsVanish | src/session.rs:1090-1103 | in the second reading empty arguments are lost and the others move up |
| Shell.DelegateBaseTokens | src/session.rs:1135-1155 | the fixed options first and the host last; the user given exactly when not blank, the port exactly when not 22, in digits that read back as it |
| Principals.Preimage | src/principal.rs:37-50 | the hasher is fed the five length-prefixed strings in order |
| Principals.DecodeEncode | src/principal.rs:46-47 | the encoding can be read back uniquely |
| Principals.NamespaceSeparates | src/principal.rs:37-50 | two principals share a namespace text exactly when caller type, tenant, resource, subject and client agree, an absent one read as empty |

## Left out

- SSH connections, host keys, TCP forwarding and the remote agent script: a call to a host succeeds or fails.
- HTTP, OAuth, MCP schemas, IPC, the daemon's lifecycle and the command line: plumbing without authorization state.
- SQLite itself, database errors, migration, JSON encoding and SHA-256: statements are atomic, digests injective, identifiers fresh.
- Audit events, summaries, display JSON and reasons: no effect on the state. Error values carry no message detail.
- Unicode: text is bytes, and the blank tests see ASCII white space only.
- Future cancellation, and the tunnels of replaced sessions: the program does not maintain a relation between tunnels and sessions, and none is claimed.
- IP range classification of targets: a flat case table.
- The policy check of each action when a plan is proposed: the machine accepts proposals without it; the check when an action runs is modelled.
- What agents share besides the tables (hosts, transports, timing): `Noninterference` is about authorization.
- Sweeps in the state machine are events of their own that can happen at any time, which allows every interleaving of the original and more.
- Configuration changes by other processes: `Locks` covers the mutations of one process, which the original protects from others by a file hash.
- Driver.Driver.ResolveOperation: runs one operation without interleaving; interleaving is `Gateway`'s, built from the same statements. The lease is therefore always still held when the driver finishes a plan action.
- Sessions.SessionManager.ReapIdleSessions: safety per session only: a delegated session may be busy on the transport of an idle upstream session that is reaped.
- Redaction.RedactionExact: a list with brackets has no exact condition of its own, since one secret can break up another's remains; each of its secrets has one in `Leaks.ProtectedExactly`.
- Driver.Driver.ManageProfile: that the new profile is acceptable, or the old one deletable, was checked before; those checks and the write are `Config`'s and `Locks`'s, and the configuration is the one the mode was read from.
- Ledger.LivePlanExclusive: executions run by a human's approval are excluded; the program does not consult the plans for them.
- Redaction.CollectsEverything: which credential values are collected from a configuration is a parameter.
- Shell.ShellRoundTrip: the reader covers quoting, escapes, blanks and word splitting; text that uses an operator, expansion or pattern unquoted has no reading, and assignment words and reserved words are read as ordinary words.
- Principals.NamespaceSeparates: strings longer than a 64-bit length can say are excluded.
- Policy.AuthorizeRequest: the individual read-only and administrative requests are grouped by how the policy treats them.
