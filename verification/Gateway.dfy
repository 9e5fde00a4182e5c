/**
 * The authorization driver as a state machine. Any number of operations, approvers, sweeps and cleanups interleave;
 * each event below is one SQL statement, one immediate transaction, or one call out to a host. Clock readings, fresh
 * identifiers, query answers and file contents are carried by the events; an event whose guard fails changes nothing.
 */
module Gateway {
  import opened Types
  import opened Config
  import opened Policy
  import A = Approvals
  import G = Grants
  import P = Plans

  type TaskId = nat

  // One operation on a host, as `resolve_operation` or an approver is about to run it.
  datatype Op = Op(caller: Caller, session: string, taskId: Option<string>, request: Request, cfg: AppConfig) {
    /** Only agents are partitioned; a human's rows carry no namespace. */
    function Namespace(): Option<string> {
      if caller.EnforcesAgentPolicy() then Some(session) else None
    }
    function Profile(): string {
      RequestProfile(request).GetOr("")
    }
  }

  // What an execution was charged to.
  datatype Token =
    | Unmetered
    | PlanToken(planId: Id, index: nat)
    | GrantToken(grantId: Id, use: nat)
    | ApprovalToken(approvalId: Id)

  // The plans a claiming transaction saw, at its clock reading.
  datatype Sight = Sight(plans: P.Table, now: Time)

  // `decision` is absent for profile mutations, which no policy rule can grant, and only for them.
  datatype Execution = Execution(op: Op, decision: Option<Decision>, token: Token, sight: Option<Sight>)

  datatype Task =
    // resolve_operation
    | AtPlan(op: Op, d: Decision)
    | AtGrant(op: Op, d: Decision, sight: Option<Sight>)
    | AtRequest(op: Op, d: Decision)
    | Ready(x: Execution)
    | Ran(token: Token)
    // the ApprovalApprove arm
    | Opened(id: Id, session: string, wish: Option<G.Wish>)
    | Selected(id: Id, session: string, wish: Option<G.Wish>, row: A.Row)
    | Won(id: Id, session: string, wish: Option<G.Wish>, row: A.Row)
    | Rehashed(id: Id, session: string, wish: Option<G.Wish>, row: A.Row)
    | Minting(id: Id, granting: G.Wish, x: Execution)
    | Inserting(id: Id, granting: G.Wish, terms: G.Terms, x: Execution)
    | Closing(id: Id)

  // Ghost records.
  datatype Fate = Held(task: TaskId) | Spent(at: nat)
  datatype Entry =
    | Proposed
    | ApprovedByHuman
    | Claimed(index: nat)
    | Done(index: nat)
    | Broke(index: nat)
    | Lapsed(index: nat)
    | Refused
    | TimedOut

  // The policy engine decides a caller's request under a configuration; None is an outright refusal.
  type Engine = (AppConfig, Caller, Request) -> Option<Decision>

  datatype World = World(
    policy: Engine,
    approvals: A.Table, grants: G.Table, plans: P.Table,
    tasks: map<TaskId, Task>,
    history: seq<Execution>,          // every execution, in order
    ledger: map<Token, Fate>,         // every token ever issued, and where it went
    requested: A.Table,               // every approval as first inserted
    claimer: map<Id, TaskId>,         // the task that won each approval
    minted: map<Id, (G.Row, G.Wish)>, // every grant as first inserted
    grantOf: map<Id, Id>,             // the grant of each approval that yielded one
    journal: map<Id, seq<Entry>>)     // every plan's story

  function Init(policy: Engine): World {
    World(policy, map[], map[], map[], map[], [], map[], map[], map[], map[], map[], map[])
  }

  datatype Event =
    // agent and human operations
    | Arrive(t: TaskId, op: Op)
    | ClaimPlan(t: TaskId, pick: Option<Id>, now: Time, leaseNow: Time, files: Files)
    | ConsumeGrant(t: TaskId, ids: seq<Id>, now: Time, ticks: seq<Time>)
    | RequestApproval(t: TaskId, id: Id, now: Time, files: Files)
    | RequestMutation(id: Id, session: string, request: Request, cfg: AppConfig, now: Time)
    | MutateProfile(t: TaskId, op: Op)
    | Execute(t: TaskId)
    | FinishPlan(t: TaskId, success: bool)
    | Crash(t: TaskId)
    // a human approving
    | Open(t: TaskId, caller: Caller, session: string, id: Id, wish: Option<G.Wish>)
    | Select(t: TaskId, now: Time, files: Files)
    | Win(t: TaskId)
    | Rehash(t: TaskId, files: Files)
    | Redecide(t: TaskId, cfg: AppConfig)
    | ValidateGrant(t: TaskId)
    | InsertGrant(t: TaskId, id: Id, now: Time)
    | FinishApproval(t: TaskId, ok: bool)
    // administration and clock
    | RejectApproval(caller: Caller, id: Id, now: Time)
    | CleanApprovals(caller: Caller)
    | SweepApprovals(now: Time)
    | RevokeGrant(caller: Caller, id: Id)
    | CleanGrants(caller: Caller)
    | SweepGrants(now: Time)
    | Propose(caller: Caller, session: string, id: Id, profile: string, planTask: string, actions: seq<Request>,
      ttl: nat, maxTtl: nat, now: Time, files: Files)
    | ApprovePlan(caller: Caller, id: Id, now: Time)
    | RejectPlan(caller: Caller, id: Id)
    | SweepLeases(now: Time)
    | SweepPlans(now: Time)

  // ---- Small updates ----

  function SetTask(w: World, t: TaskId, s: Task): World {
    w.(tasks := w.tasks[t := s])
  }

  function EndTask(w: World, t: TaskId): World {
    w.(tasks := w.tasks - {t})
  }

  /** Hand a token to a task that may now run. */
  function Issue(w: World, t: TaskId, x: Execution): World {
    w.(tasks := w.tasks[t := Ready(x)],
       ledger := if x.token.Unmetered? then w.ledger else w.ledger[x.token := Held(t)])
  }

  function Note(w: World, id: Id, e: Entry): map<Id, seq<Entry>> {
    if id in w.journal then w.journal[id := w.journal[id] + [e]] else w.journal[id := [e]]
  }

  // ---- resolve_operation ----

  /** Policy first. Deny and refusal end here; Allow runs at once unless a plan could be live for the task. */
  ghost function StepArrive(w: World, t: TaskId, op: Op): World {
    var verdict := w.policy(op.cfg, op.caller, op.request);
    if t in w.tasks || !op.request.IsOperation() || verdict.None? || verdict.value.effect.Deny? then w
    else
      var d := verdict.value;
      if d.effect.Allow? && (!op.caller.EnforcesAgentPolicy() || op.taskId.None? || !op.cfg.approvalsEnabled)
      then Issue(w, t, Execution(op, Some(d), Unmetered, None))
      else if !op.cfg.approvalsEnabled then w
      else SetTask(w, t, AtPlan(op, d))
  }

  ghost function StepClaimPlan(w: World, t: TaskId, pick: Option<Id>, now: Time, leaseNow: Time, files: Files): World {
    if !(t in w.tasks && w.tasks[t].AtPlan?) then w
    else
      var op, d := w.tasks[t].op, w.tasks[t].d;
      if !op.caller.EnforcesAgentPolicy() || op.taskId.None? then SetTask(w, t, AtGrant(op, d, None))
      else
        var q := P.Query(op.Profile(), op.taskId.value, op.Namespace());
        if !P.Newest(w.plans, q, now, pick) then w
        else
          var sight := Some(Sight(w.plans, now));
          match P.Claim(w.plans, pick, op.request, files)
          case NoPlan =>
            if d.effect.Allow? then Issue(w, t, Execution(op, Some(d), Unmetered, sight))
            else SetTask(w, t, AtGrant(op, d, sight))
          case Refused(_) => EndTask(w, t)
          case Claimed(id, index) =>
            var leaseUntil := A.SaturatingAdd(leaseNow, P.LeaseSeconds(op.request));
            var w' :=
              w.(plans := P.MarkClaimed(w.plans, id, index, leaseUntil), journal := Note(w, id, Claimed(index)));
            Issue(w', t, Execution(op, Some(d), PlanToken(id, index), sight))
  }

  function GrantQuery(op: Op, d: Decision): G.Query {
    G.Query(op.Profile(), d.ruleId.GetOr(""), op.taskId, op.Namespace())
  }

  ghost function StepConsumeGrant(w: World, t: TaskId, ids: seq<Id>, now: Time, ticks: seq<Time>): World {
    if !(t in w.tasks && w.tasks[t].AtGrant?) then w
    else
      var op, d, sight := w.tasks[t].op, w.tasks[t].d, w.tasks[t].sight;
      if d.ruleId.None? then EndTask(w, t)
      else if !G.Answers(w.grants, GrantQuery(op, d), now, ids) || |ticks| != |ids| then w
      else
        var k := G.FirstSpendable(w.grants, ids, ticks);
        if k == |ids| then SetTask(w, t, AtRequest(op, d))
        else
          var use := w.grants[ids[k]].usedCount;
          Issue(w.(grants := G.Charge(w.grants, ids[k])), t, Execution(op, Some(d), GrantToken(ids[k], use), sight))
  }

  ghost function InsertApproval(w: World, id: Id, row: Option<A.Row>): World {
    if id in w.requested || row.None? then w
    else w.(approvals := w.approvals[id := row.value], requested := w.requested[id := row.value])
  }

  ghost function StepRequestApproval(w: World, t: TaskId, id: Id, now: Time, files: Files): World {
    if !(t in w.tasks && w.tasks[t].AtRequest?) || id in w.requested then w
    else
      var op, d := w.tasks[t].op, w.tasks[t].d;
      var row :=
        A.NewRow(op.request, files, now, op.cfg.approvalTtl, op.caller, d.ruleId, d.risk, op.taskId, op.Namespace());
      EndTask(InsertApproval(w, id, row), t)
  }

  // ---- execute_mcp_profile_management ----

  /** In Cloud mode an MCP profile mutation becomes a high-risk approval without a rule. */
  ghost function StepRequestMutation(w: World, id: Id, session: string, request: Request, cfg: AppConfig,
      now: Time): World {
    if !request.ManagesProfiles() || !cfg.cloud || !cfg.approvalsEnabled then w
    else
      InsertApproval(w, id, A.NewRow(request, map[], now, cfg.approvalTtl, Mcp, None, Some(High), None, Some(session)))
  }

  /** A self-hosted gateway leaves the confirmation to the MCP client: no decision and no approval. */
  function StepMutateProfile(w: World, t: TaskId, op: Op): World {
    if t in w.tasks || !op.caller.Mcp? || !op.request.ManagesProfiles() || op.cfg.cloud then w
    else Issue(w, t, Execution(op, None, Unmetered, None))
  }

  // ---- Running ----

  /** The call out to the host enters the history, and its token is spent there. */
  function Record(w: World, x: Execution): World {
    w.(history := w.history + [x],
       ledger := if x.token.Unmetered? then w.ledger else w.ledger[x.token := Spent(|w.history|)])
  }

  function StepExecute(w: World, t: TaskId): World {
    if !(t in w.tasks && w.tasks[t].Ready?) then w
    else
      var x := w.tasks[t].x;
      var w' := Record(EndTask(w, t), x);
      if x.token.PlanToken? || x.token.ApprovalToken? then SetTask(w', t, Ran(x.token)) else w'
  }

  function StepFinishPlan(w: World, t: TaskId, success: bool): World {
    if !(t in w.tasks && w.tasks[t].Ran? && w.tasks[t].token.PlanToken?) then w
    else
      var id, index := w.tasks[t].token.planId, w.tasks[t].token.index;
      var w' := EndTask(w, t);
      if !P.LeaseHeld(w.plans, id, index) then w'
      else w'.(plans := P.Finish(w.plans, id, index, success),
        journal := Note(w, id, if success then Done(index) else Broke(index)))
  }

  // ---- The ApprovalApprove arm ----

  function StepOpen(w: World, t: TaskId, caller: Caller, session: string, id: Id, wish: Option<G.Wish>): World {
    if t in w.tasks || !caller.HumanCli? || id !in w.approvals then w
    else if w.approvals[id].request.ManagesProfiles() && wish.Some? then w
    else if wish.Some? && !wish.value.cfg.approvalsEnabled then w
    else if wish.Some? && G.ValidateSource(w.approvals, id, wish.value, A.Pending, None).Err? then w
    else SetTask(w, t, Opened(id, session, wish))
  }

  function StepSelect(w: World, t: TaskId, now: Time, files: Files): World {
    if !(t in w.tasks && w.tasks[t].Opened?) then w
    else
      var id := w.tasks[t].id;
      if A.Claimable(w.approvals, id, now, None)
        && RequestHash(w.approvals[id].request, files) == Some(w.approvals[id].hash)
      then SetTask(w, t, Selected(id, w.tasks[t].session, w.tasks[t].wish, w.approvals[id]))
      else EndTask(w, t)
  }

  function StepWin(w: World, t: TaskId): World {
    if !(t in w.tasks && w.tasks[t].Selected?) then w
    else
      var s := w.tasks[t];
      if !A.IsPending(w.approvals, s.id) then EndTask(w, t)
      else
        SetTask(w, t, Won(s.id, s.session, s.wish, s.row)).(
          approvals := A.SetStatus(w.approvals, s.id, A.Executing),
          claimer := w.claimer[s.id := t])
  }

  function StepRehash(w: World, t: TaskId, files: Files): World {
    if !(t in w.tasks && w.tasks[t].Won?) then w
    else
      var s := w.tasks[t];
      if RequestHash(s.row.request, files) != Some(s.row.hash) then SetTask(w, t, Closing(s.id))
      else SetTask(w, t, Rehashed(s.id, s.session, s.wish, s.row))
  }

  /** The frozen request, run for the requester under the configuration as it is now. */
  function FrozenOp(row: A.Row, session: string, cfg: AppConfig): Op {
    Op(row.caller, row.namespace.GetOr(session), row.taskId, row.request, cfg)
  }

  ghost function StepRedecide(w: World, t: TaskId, cfg: AppConfig): World {
    if !(t in w.tasks && w.tasks[t].Rehashed?) then w
    else
      var s := w.tasks[t];
      var op := FrozenOp(s.row, s.session, cfg);
      if s.row.request.ManagesProfiles() then Issue(w, t, Execution(op, None, ApprovalToken(s.id), None))
      else
        var verdict := w.policy(cfg, s.row.caller, s.row.request);
        if verdict.None? || verdict.value.effect.Deny? then SetTask(w, t, Closing(s.id))
        else
          var x := Execution(op, verdict, ApprovalToken(s.id), None);
          if s.wish.Some? && verdict.value.effect.Confirm? then SetTask(w, t, Minting(s.id, s.wish.value, x))
          else Issue(w, t, x)
  }

  function StepValidateGrant(w: World, t: TaskId): World {
    if !(t in w.tasks && w.tasks[t].Minting? && w.tasks[t].x.decision.Some?) then w
    else
      var s := w.tasks[t];
      var rule := s.x.decision.value.ruleId;
      if rule.None? then SetTask(w, t, Closing(s.id))
      else
        match G.ValidateSource(w.approvals, s.id, s.granting, A.Executing, rule)
        case Err(_) => SetTask(w, t, Closing(s.id))
        case Ok(terms) => SetTask(w, t, Inserting(s.id, s.granting, terms, s.x))
  }

  ghost function StepInsertGrant(w: World, t: TaskId, id: Id, now: Time): World {
    if !(t in w.tasks && w.tasks[t].Inserting?) || id in w.minted then w
    else
      var s := w.tasks[t];
      if s.id !in w.approvals || !G.SourceFree(w.grants, s.id) then SetTask(w, t, Closing(s.id))
      else
        var row := G.NewRow(s.terms, s.granting, s.id, w.approvals[s.id].namespace, now);
        Issue(w, t, s.x).(
          grants := w.grants[id := row],
          minted := w.minted[id := (row, s.granting)],
          grantOf := w.grantOf[s.id := id])
  }

  function StepFinishApproval(w: World, t: TaskId, ok: bool): World {
    if t !in w.tasks then w
    else
      match w.tasks[t]
      case Ran(ApprovalToken(id)) => EndTask(w, t).(approvals := A.Finish(w.approvals, id, ok))
      case Closing(id) => EndTask(w, t).(approvals := A.Finish(w.approvals, id, false))
      case _ => w
  }

  // ---- Plans: proposal, decision, clock ----

  ghost function StepPropose(w: World, caller: Caller, session: string, id: Id, row: Option<P.Row>): World {
    if !caller.EnforcesAgentPolicy() || id in w.plans || row.None? then w
    else w.(plans := w.plans[id := row.value], journal := w.journal[id := [Proposed]])
  }

  function StepApprovePlan(w: World, caller: Caller, id: Id, now: Time): World {
    if !caller.HumanCli? || !P.Approvable(w.plans, id, now) then w
    else w.(plans := P.Approve(w.plans, id, now), journal := Note(w, id, ApprovedByHuman))
  }

  function StepRejectPlan(w: World, caller: Caller, id: Id): World {
    if !caller.HumanCli? || !P.Rejectable(w.plans, id) then w
    else w.(plans := P.Reject(w.plans, id), journal := Note(w, id, Refused))
  }

  function StepSweepLeases(w: World, now: Time): World {
    w.(plans := P.FailOverdue(w.plans, now),
       journal := map id | id in w.journal ::
         if id in w.plans
           && P.Overdue(w.plans[id], now) then w.journal[id] + [Lapsed(w.plans[id].nextIndex)] else w.journal[id])
  }

  function StepSweepPlans(w: World, now: Time): World {
    w.(plans := P.ExpireOpen(w.plans, now),
       journal := map id | id in w.journal ::
         if id in w.plans && P.Outdated(w.plans[id], now) then w.journal[id] + [TimedOut] else w.journal[id])
  }

  // ---- The machine ----

  ghost function Step(w: World, e: Event): World {
    match e
    case Arrive(t, op) => StepArrive(w, t, op)
    case ClaimPlan(t, pick, now, leaseNow, files) => StepClaimPlan(w, t, pick, now, leaseNow, files)
    case ConsumeGrant(t, ids, now, ticks) => StepConsumeGrant(w, t, ids, now, ticks)
    case RequestApproval(t, id, now, files) => StepRequestApproval(w, t, id, now, files)
    case RequestMutation(id, session, request, cfg, now) => StepRequestMutation(w, id, session, request, cfg, now)
    case MutateProfile(t, op) => StepMutateProfile(w, t, op)
    case Execute(t) => StepExecute(w, t)
    case FinishPlan(t, success) => StepFinishPlan(w, t, success)
    case Crash(t) => EndTask(w, t)
    case Open(t, caller, session, id, wish) => StepOpen(w, t, caller, session, id, wish)
    case Select(t, now, files) => StepSelect(w, t, now, files)
    case Win(t) => StepWin(w, t)
    case Rehash(t, files) => StepRehash(w, t, files)
    case Redecide(t, cfg) => StepRedecide(w, t, cfg)
    case ValidateGrant(t) => StepValidateGrant(w, t)
    case InsertGrant(t, id, now) => StepInsertGrant(w, t, id, now)
    case FinishApproval(t, ok) => StepFinishApproval(w, t, ok)
    case RejectApproval(caller, id, now) => if caller.HumanCli? then w.(approvals := A.Reject(w.approvals, id, now))
      else w
    case CleanApprovals(caller) => if caller.HumanCli? then w.(approvals := A.Cleanup(w.approvals)) else w
    case SweepApprovals(now) => w.(approvals := A.Expire(w.approvals, now))
    case RevokeGrant(caller, id) => if caller.HumanCli? then w.(grants := G.Revoke(w.grants, id)) else w
    case CleanGrants(caller) => if caller.HumanCli? then w.(grants := G.Cleanup(w.grants)) else w
    case SweepGrants(now) => w.(grants := G.Expire(w.grants, now))
    case Propose(caller, session, id, profile, planTask, actions, ttl, maxTtl, now, files) =>
      StepPropose(w, caller, session, id, P.NewRow(profile, planTask, actions, ttl, maxTtl, now, files, Some(session)))
    case ApprovePlan(caller, id, now) => StepApprovePlan(w, caller, id, now)
    case RejectPlan(caller, id) => StepRejectPlan(w, caller, id)
    case SweepLeases(now) => StepSweepLeases(w, now)
    case SweepPlans(now) => StepSweepPlans(w, now)
  }

  ghost function Run(w: World, events: seq<Event>): World
    decreases |events|
  {
    if events == [] then w else Run(Step(w, events[0]), events[1..])
  }

  // ---- What each event is, for callers that keep Step folded ----

  lemma IsArrive(w: World, t: TaskId, op: Op)
    ensures Step(w, Arrive(t, op)) == StepArrive(w, t, op)
  {
    hide StepArrive, StepClaimPlan, StepConsumeGrant, StepRequestApproval, StepRequestMutation, StepMutateProfile,
      StepExecute, StepFinishPlan, StepOpen, StepSelect, StepWin, StepRehash, StepRedecide, StepValidateGrant,
      StepInsertGrant, StepFinishApproval, StepPropose, StepApprovePlan, StepRejectPlan, StepSweepLeases,
      StepSweepPlans;
  }

  lemma IsClaim(w: World, t: TaskId, pick: Option<Id>, now: Time, leaseNow: Time, files: Files)
    ensures Step(w, ClaimPlan(t, pick, now, leaseNow, files)) == StepClaimPlan(w, t, pick, now, leaseNow, files)
  {
    hide StepArrive, StepClaimPlan, StepConsumeGrant, StepRequestApproval, StepRequestMutation, StepMutateProfile,
      StepExecute, StepFinishPlan, StepOpen, StepSelect, StepWin, StepRehash, StepRedecide, StepValidateGrant,
      StepInsertGrant, StepFinishApproval, StepPropose, StepApprovePlan, StepRejectPlan, StepSweepLeases,
      StepSweepPlans;
  }

  lemma IsConsume(w: World, t: TaskId, ids: seq<Id>, now: Time, ticks: seq<Time>)
    ensures Step(w, ConsumeGrant(t, ids, now, ticks)) == StepConsumeGrant(w, t, ids, now, ticks)
  {
    hide StepArrive, StepClaimPlan, StepConsumeGrant, StepRequestApproval, StepRequestMutation, StepMutateProfile,
      StepExecute, StepFinishPlan, StepOpen, StepSelect, StepWin, StepRehash, StepRedecide, StepValidateGrant,
      StepInsertGrant, StepFinishApproval, StepPropose, StepApprovePlan, StepRejectPlan, StepSweepLeases,
      StepSweepPlans;
  }

  lemma IsRequest(w: World, t: TaskId, id: Id, now: Time, files: Files)
    ensures Step(w, RequestApproval(t, id, now, files)) == StepRequestApproval(w, t, id, now, files)
  {
    hide StepArrive, StepClaimPlan, StepConsumeGrant, StepRequestApproval, StepRequestMutation, StepMutateProfile,
      StepExecute, StepFinishPlan, StepOpen, StepSelect, StepWin, StepRehash, StepRedecide, StepValidateGrant,
      StepInsertGrant, StepFinishApproval, StepPropose, StepApprovePlan, StepRejectPlan, StepSweepLeases,
      StepSweepPlans;
  }

  lemma IsMutationRequest(w: World, id: Id, session: string, request: Request, cfg: AppConfig, now: Time)
    ensures Step(w, RequestMutation(id, session, request, cfg, now))
            == StepRequestMutation(w, id, session, request, cfg, now)
  {
    hide StepArrive, StepClaimPlan, StepConsumeGrant, StepRequestApproval, StepRequestMutation, StepMutateProfile,
      StepExecute, StepFinishPlan, StepOpen, StepSelect, StepWin, StepRehash, StepRedecide, StepValidateGrant,
      StepInsertGrant, StepFinishApproval, StepPropose, StepApprovePlan, StepRejectPlan, StepSweepLeases,
      StepSweepPlans;
  }

  lemma IsMutation(w: World, t: TaskId, op: Op)
    ensures Step(w, MutateProfile(t, op)) == StepMutateProfile(w, t, op)
  {
    hide StepArrive, StepClaimPlan, StepConsumeGrant, StepRequestApproval, StepRequestMutation, StepMutateProfile,
      StepExecute, StepFinishPlan, StepOpen, StepSelect, StepWin, StepRehash, StepRedecide, StepValidateGrant,
      StepInsertGrant, StepFinishApproval, StepPropose, StepApprovePlan, StepRejectPlan, StepSweepLeases,
      StepSweepPlans;
  }

  lemma IsExecute(w: World, t: TaskId)
    ensures Step(w, Execute(t)) == StepExecute(w, t)
  {
    hide StepArrive, StepClaimPlan, StepConsumeGrant, StepRequestApproval, StepRequestMutation, StepMutateProfile,
      StepExecute, StepFinishPlan, StepOpen, StepSelect, StepWin, StepRehash, StepRedecide, StepValidateGrant,
      StepInsertGrant, StepFinishApproval, StepPropose, StepApprovePlan, StepRejectPlan, StepSweepLeases,
      StepSweepPlans;
  }

  lemma IsFinish(w: World, t: TaskId, success: bool)
    ensures Step(w, FinishPlan(t, success)) == StepFinishPlan(w, t, success)
  {
    hide StepArrive, StepClaimPlan, StepConsumeGrant, StepRequestApproval, StepRequestMutation, StepMutateProfile,
      StepExecute, StepFinishPlan, StepOpen, StepSelect, StepWin, StepRehash, StepRedecide, StepValidateGrant,
      StepInsertGrant, StepFinishApproval, StepPropose, StepApprovePlan, StepRejectPlan, StepSweepLeases,
      StepSweepPlans;
  }

  lemma IsOpen(w: World, t: TaskId, caller: Caller, session: string, id: Id, wish: Option<G.Wish>)
    ensures Step(w, Open(t, caller, session, id, wish)) == StepOpen(w, t, caller, session, id, wish)
  {
    hide StepArrive, StepClaimPlan, StepConsumeGrant, StepRequestApproval, StepRequestMutation, StepMutateProfile,
      StepExecute, StepFinishPlan, StepOpen, StepSelect, StepWin, StepRehash, StepRedecide, StepValidateGrant,
      StepInsertGrant, StepFinishApproval, StepPropose, StepApprovePlan, StepRejectPlan, StepSweepLeases,
      StepSweepPlans;
  }

  lemma IsSelect(w: World, t: TaskId, now: Time, files: Files)
    ensures Step(w, Select(t, now, files)) == StepSelect(w, t, now, files)
  {
    hide StepArrive, StepClaimPlan, StepConsumeGrant, StepRequestApproval, StepRequestMutation, StepMutateProfile,
      StepExecute, StepFinishPlan, StepOpen, StepSelect, StepWin, StepRehash, StepRedecide, StepValidateGrant,
      StepInsertGrant, StepFinishApproval, StepPropose, StepApprovePlan, StepRejectPlan, StepSweepLeases,
      StepSweepPlans;
  }

  lemma IsWin(w: World, t: TaskId)
    ensures Step(w, Win(t)) == StepWin(w, t)
  {
    hide StepArrive, StepClaimPlan, StepConsumeGrant, StepRequestApproval, StepRequestMutation, StepMutateProfile,
      StepExecute, StepFinishPlan, StepOpen, StepSelect, StepWin, StepRehash, StepRedecide, StepValidateGrant,
      StepInsertGrant, StepFinishApproval, StepPropose, StepApprovePlan, StepRejectPlan, StepSweepLeases,
      StepSweepPlans;
  }

  lemma IsRehash(w: World, t: TaskId, files: Files)
    ensures Step(w, Rehash(t, files)) == StepRehash(w, t, files)
  {
    hide StepArrive, StepClaimPlan, StepConsumeGrant, StepRequestApproval, StepRequestMutation, StepMutateProfile,
      StepExecute, StepFinishPlan, StepOpen, StepSelect, StepWin, StepRehash, StepRedecide, StepValidateGrant,
      StepInsertGrant, StepFinishApproval, StepPropose, StepApprovePlan, StepRejectPlan, StepSweepLeases,
      StepSweepPlans;
  }

  lemma IsRedecide(w: World, t: TaskId, cfg: AppConfig)
    ensures Step(w, Redecide(t, cfg)) == StepRedecide(w, t, cfg)
  {
    hide StepArrive, StepClaimPlan, StepConsumeGrant, StepRequestApproval, StepRequestMutation, StepMutateProfile,
      StepExecute, StepFinishPlan, StepOpen, StepSelect, StepWin, StepRehash, StepRedecide, StepValidateGrant,
      StepInsertGrant, StepFinishApproval, StepPropose, StepApprovePlan, StepRejectPlan, StepSweepLeases,
      StepSweepPlans;
  }

  lemma IsValidate(w: World, t: TaskId)
    ensures Step(w, ValidateGrant(t)) == StepValidateGrant(w, t)
  {
    hide StepArrive, StepClaimPlan, StepConsumeGrant, StepRequestApproval, StepRequestMutation, StepMutateProfile,
      StepExecute, StepFinishPlan, StepOpen, StepSelect, StepWin, StepRehash, StepRedecide, StepValidateGrant,
      StepInsertGrant, StepFinishApproval, StepPropose, StepApprovePlan, StepRejectPlan, StepSweepLeases,
      StepSweepPlans;
  }

  lemma IsInsert(w: World, t: TaskId, id: Id, now: Time)
    ensures Step(w, InsertGrant(t, id, now)) == StepInsertGrant(w, t, id, now)
  {
    hide StepArrive, StepClaimPlan, StepConsumeGrant, StepRequestApproval, StepRequestMutation, StepMutateProfile,
      StepExecute, StepFinishPlan, StepOpen, StepSelect, StepWin, StepRehash, StepRedecide, StepValidateGrant,
      StepInsertGrant, StepFinishApproval, StepPropose, StepApprovePlan, StepRejectPlan, StepSweepLeases,
      StepSweepPlans;
  }

  lemma IsFinishApproval(w: World, t: TaskId, ok: bool)
    ensures Step(w, FinishApproval(t, ok)) == StepFinishApproval(w, t, ok)
  {
    hide StepArrive, StepClaimPlan, StepConsumeGrant, StepRequestApproval, StepRequestMutation, StepMutateProfile,
      StepExecute, StepFinishPlan, StepOpen, StepSelect, StepWin, StepRehash, StepRedecide, StepValidateGrant,
      StepInsertGrant, StepFinishApproval, StepPropose, StepApprovePlan, StepRejectPlan, StepSweepLeases,
      StepSweepPlans;
  }

  lemma IsApprovalSweep(w: World, now: Time)
    ensures Step(w, SweepApprovals(now)) == w.(approvals := A.Expire(w.approvals, now))
  {
    hide A.Expire, StepArrive, StepClaimPlan, StepConsumeGrant, StepRequestApproval, StepRequestMutation,
      StepMutateProfile, StepExecute, StepFinishPlan, StepOpen, StepSelect, StepWin, StepRehash, StepRedecide,
      StepValidateGrant, StepInsertGrant, StepFinishApproval, StepPropose, StepApprovePlan, StepRejectPlan,
      StepSweepLeases, StepSweepPlans;
  }

  lemma IsGrantSweep(w: World, now: Time)
    ensures Step(w, SweepGrants(now)) == w.(grants := G.Expire(w.grants, now))
  {
    hide G.Expire, StepArrive, StepClaimPlan, StepConsumeGrant, StepRequestApproval, StepRequestMutation,
      StepMutateProfile, StepExecute, StepFinishPlan, StepOpen, StepSelect, StepWin, StepRehash, StepRedecide,
      StepValidateGrant, StepInsertGrant, StepFinishApproval, StepPropose, StepApprovePlan, StepRejectPlan,
      StepSweepLeases, StepSweepPlans;
  }

  lemma ArePlanSweeps(w: World, now: Time)
    ensures Step(w, SweepLeases(now)) == StepSweepLeases(w, now) && Step(w, SweepPlans(now)) == StepSweepPlans(w, now)
  {
    hide StepArrive, StepClaimPlan, StepConsumeGrant, StepRequestApproval, StepRequestMutation, StepMutateProfile,
      StepExecute, StepFinishPlan, StepOpen, StepSelect, StepWin, StepRehash, StepRedecide, StepValidateGrant,
      StepInsertGrant, StepFinishApproval, StepPropose, StepApprovePlan, StepRejectPlan, StepSweepLeases,
      StepSweepPlans;
  }

  lemma IsPropose(w: World, e: Event)
    requires e.Propose?
    ensures Step(w, e)
            == StepPropose(w, e.caller, e.session, e.id,
              P.NewRow(e.profile, e.planTask, e.actions, e.ttl, e.maxTtl, e.now, e.files, Some(e.session)))
  {
    hide P.NewRow, StepArrive, StepClaimPlan, StepConsumeGrant, StepRequestApproval, StepRequestMutation,
      StepMutateProfile, StepExecute, StepFinishPlan, StepOpen, StepSelect, StepWin, StepRehash, StepRedecide,
      StepValidateGrant, StepInsertGrant, StepFinishApproval, StepPropose, StepApprovePlan, StepRejectPlan,
      StepSweepLeases, StepSweepPlans;
  }

  lemma IsApprovePlan(w: World, caller: Caller, id: Id, now: Time)
    ensures Step(w, ApprovePlan(caller, id, now)) == StepApprovePlan(w, caller, id, now)
  {
    hide StepArrive, StepClaimPlan, StepConsumeGrant, StepRequestApproval, StepRequestMutation, StepMutateProfile,
      StepExecute, StepFinishPlan, StepOpen, StepSelect, StepWin, StepRehash, StepRedecide, StepValidateGrant,
      StepInsertGrant, StepFinishApproval, StepPropose, StepApprovePlan, StepRejectPlan, StepSweepLeases,
      StepSweepPlans;
  }
}
