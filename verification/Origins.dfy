/**
 * Where each task comes from: what it has seen of the plans was there when it claimed, and it claimed after it arrived.
 */
module Origins {
  import opened Types
  import opened Config
  import opened Policy
  import opened Gateway
  import opened Invariants
  import A = Approvals
  import G = Grants
  import P = Plans

  /** What a task knows of the plans: what it saw, and the action it claimed. */
  datatype View = View(op: Op, sight: Option<Sight>, claim: Option<(Id, nat)>)

  function ViewOfRun(x: Execution): Option<View> {
    var claim := if x.token.PlanToken? then Some((x.token.planId, x.token.index)) else None;
    if x.sight.None? && claim.None? then None else Some(View(x.op, x.sight, claim))
  }

  function ViewOf(s: Task): Option<View> {
    match s
    case AtGrant(op, _, sight) => if sight.None? then None else Some(View(op, sight, None))
    case Ready(x) => ViewOfRun(x)
    case Minting(_, _, x) => ViewOfRun(x)
    case Inserting(_, _, _, x) => ViewOfRun(x)
    case _ => None
  }

  /** The approval a human has opened, and the grant wished for with it, until the task is ready to run. */
  function WishOf(s: Task): Option<(Id, Option<G.Wish>)> {
    match s
    case Opened(id, _, wish) => Some((id, wish))
    case Selected(id, _, wish, _) => Some((id, wish))
    case Won(id, _, wish, _) => Some((id, wish))
    case Rehashed(id, _, wish, _) => Some((id, wish))
    case Minting(id, granting, _) => Some((id, Some(granting)))
    case Inserting(id, granting, _, _) => Some((id, Some(granting)))
    case _ => None
  }

  function QueryOf(op: Op): P.Query {
    P.Query(op.Profile(), op.taskId.GetOr(""), op.Namespace())
  }

  /** The event is the task's own claiming transaction, and the view is what it read and claimed there. */
  ghost predicate Looks(w: World, t: TaskId, e: Event, v: View) {
    && e.ClaimPlan? && e.t == t && t in w.tasks && w.tasks[t].AtPlan? && w.tasks[t].op == v.op
    && v.op.caller.EnforcesAgentPolicy() && v.op.taskId.Some?
    && v.sight == Some(Sight(w.plans, e.now)) && P.Newest(w.plans, QueryOf(v.op), e.now, e.pick)
    && (v.claim.Some? ==>
          && e.pick == Some(v.claim.value.0)
          && P.Claim(w.plans, e.pick, v.op.request, e.files) == P.Claimed(v.claim.value.0, v.claim.value.1))
  }

  /** How a task can have come to a new state. */
  ghost predicate From(w: World, e: Event, t: TaskId, s: Task) {
    && (s.AtPlan? ==> e == Arrive(t, s.op) && t !in w.tasks)
    && (ViewOf(s).Some? ==> (t in w.tasks && ViewOf(w.tasks[t]) == ViewOf(s)) || Looks(w, t, e, ViewOf(s).value))
    && (WishOf(s).Some? ==>
          (t in w.tasks && WishOf(w.tasks[t]) == WishOf(s)) || Opens(w, t, e, WishOf(s).value))
  }

  /** The event is a human's opening of the approval. */
  predicate Opens(w: World, t: TaskId, e: Event, about: (Id, Option<G.Wish>)) {
    e.Open? && e.t == t && e.caller.HumanCli? && e.id == about.0 && e.wish == about.1 && t !in w.tasks
  }

  ghost predicate TasksFrom(w: World, w': World, e: Event) {
    forall u :: u in w'.tasks ==> (u in w.tasks && w'.tasks[u] == w.tasks[u]) || From(w, e, u, w'.tasks[u])
  }

  lemma Untouched(w: World, e: Event)
    ensures TasksFrom(w, w, e)
  {
  }

  lemma Ended(w: World, t: TaskId, e: Event)
    ensures TasksFrom(w, EndTask(w, t), e)
  {
  }

  lemma SameTasks(w: World, w1: World, w2: World, e: Event)
    requires TasksFrom(w, w1, e) && w2.tasks == w1.tasks
    ensures TasksFrom(w, w2, e)
  {
  }

  lemma Moved(w: World, t: TaskId, s: Task, e: Event)
    requires From(w, e, t, s)
    ensures TasksFrom(w, SetTask(w, t, s), e)
  {
    hide From;
  }

  lemma MovedRun(w: World, t: TaskId, x: Execution, e: Event)
    requires From(w, e, t, Ready(x))
    ensures TasksFrom(w, Issue(w, t, x), e)
  {
    hide From;
  }

  /** The task knows no more of the plans than before. */
  predicate NothingNew(w: World, t: TaskId, s: Task) {
    && !s.AtPlan? && (ViewOf(s).None? || (t in w.tasks && ViewOf(w.tasks[t]) == ViewOf(s)))
    && (WishOf(s).None? || (t in w.tasks && WishOf(w.tasks[t]) == WishOf(s)))
  }

  lemma MovedOn(w: World, t: TaskId, s: Task, e: Event)
    requires NothingNew(w, t, s)
    ensures TasksFrom(w, SetTask(w, t, s), e)
  {
    hide Looks;
    Moved(w, t, s, e);
  }

  lemma RunsOn(w: World, t: TaskId, x: Execution, e: Event)
    requires NothingNew(w, t, Ready(x))
    ensures TasksFrom(w, Issue(w, t, x), e)
  {
    hide Looks;
    MovedRun(w, t, x, e);
  }

  // ---- Event by event ----

  lemma ArriveFrom(w: World, t: TaskId, op: Op)
    ensures TasksFrom(w, StepArrive(w, t, op), Arrive(t, op))
  {
    hide TasksFrom;
    var e := Arrive(t, op);
    var verdict := w.policy(op.cfg, op.caller, op.request);
    Untouched(w, e);
    if !(t in w.tasks || !op.request.IsOperation() || verdict.None? || verdict.value.effect.Deny?) {
      RunsOn(w, t, Execution(op, Some(verdict.value), Unmetered, None), e);
      Moved(w, t, AtPlan(op, verdict.value), e);
    }
  }

  lemma ClaimPlanFrom(w: World, e: Event)
    requires e.ClaimPlan?
    ensures TasksFrom(w, StepClaimPlan(w, e.t, e.pick, e.now, e.leaseNow, e.files), e)
  {
    hide TasksFrom;
    var t := e.t;
    Untouched(w, e);
    if t in w.tasks && w.tasks[t].AtPlan? {
      var op, d := w.tasks[t].op, w.tasks[t].d;
      if !op.caller.EnforcesAgentPolicy() || op.taskId.None? {
        MovedOn(w, t, AtGrant(op, d, None), e);
      } else if P.Newest(w.plans, P.Query(op.Profile(), op.taskId.value, op.Namespace()), e.now, e.pick) {
        TransactionFrom(w, e, op, d);
      }
    }
  }

  lemma TransactionFrom(w: World, e: Event, op: Op, d: Decision)
    requires e.ClaimPlan? && e.t in w.tasks && w.tasks[e.t] == AtPlan(op, d)
    requires op.caller.EnforcesAgentPolicy() && op.taskId.Some?
    requires P.Newest(w.plans, P.Query(op.Profile(), op.taskId.value, op.Namespace()), e.now, e.pick)
    ensures TasksFrom(w, StepClaimPlan(w, e.t, e.pick, e.now, e.leaseNow, e.files), e)
  {
    hide TasksFrom, From;
    assert e.pick.Some? ==> e.pick.value in w.plans;
    var t, sight := e.t, Some(Sight(w.plans, e.now));
    match P.Claim(w.plans, e.pick, op.request, e.files)
    case NoPlan =>
      LookedFrom(w, e, op, d, None);
      MovedRun(w, t, Execution(op, Some(d), Unmetered, sight), e);
      Moved(w, t, AtGrant(op, d, sight), e);
    case Refused(_) =>
      Ended(w, t, e);
    case Claimed(id, index) =>
      P.ClaimedNext(w.plans, e.pick.value, op.request, e.files);
      LookedFrom(w, e, op, d, Some((id, index)));
      var x := Execution(op, Some(d), PlanToken(id, index), sight);
      MovedRun(w, t, x, e);
      SameTasks(w, Issue(w, t, x), StepClaimPlan(w, e.t, e.pick, e.now, e.leaseNow, e.files), e);
  }

  lemma LookedFrom(w: World, e: Event, op: Op, d: Decision, claim: Option<(Id, nat)>)
    requires e.ClaimPlan? && e.t in w.tasks && w.tasks[e.t] == AtPlan(op, d)
    requires op.caller.EnforcesAgentPolicy() && op.taskId.Some?
    requires P.Newest(w.plans, P.Query(op.Profile(), op.taskId.value, op.Namespace()), e.now, e.pick)
    requires claim.Some? ==>
               e.pick == Some(claim.value.0) && claim.value.0 in w.plans
               && P.Claim(w.plans, e.pick, op.request, e.files) == P.Claimed(claim.value.0, claim.value.1)
    ensures var sight := Some(Sight(w.plans, e.now));
            && (claim.None? ==>
               From(w, e, e.t, AtGrant(op, d, sight))
                 && From(w, e, e.t, Ready(Execution(op, Some(d), Unmetered, sight))))
            && (claim.Some? ==>
                  From(w, e, e.t, Ready(Execution(op, Some(d), PlanToken(claim.value.0, claim.value.1), sight))))
  {
    hide P.Claim, P.Newest;
  }

  lemma ConsumeGrantFrom(w: World, e: Event)
    requires e.ConsumeGrant?
    ensures TasksFrom(w, StepConsumeGrant(w, e.t, e.ids, e.now, e.ticks), e)
  {
    hide TasksFrom;
    var t := e.t;
    Untouched(w, e);
    if t in w.tasks && w.tasks[t].AtGrant? {
      var op, d, sight := w.tasks[t].op, w.tasks[t].d, w.tasks[t].sight;
      if d.ruleId.None? {
        Ended(w, t, e);
      } else if G.Answers(w.grants, GrantQuery(op, d), e.now, e.ids) && |e.ticks| == |e.ids| {
        var k := G.FirstSpendable(w.grants, e.ids, e.ticks);
        if k == |e.ids| {
          MovedOn(w, t, AtRequest(op, d), e);
        } else {
          ChargedFrom(w, t, op, d, sight, e.ids[k], e);
        }
      }
    }
  }

  lemma ChargedFrom(w: World, t: TaskId, op: Op, d: Decision, sight: Option<Sight>, id: Id, e: Event)
    requires t in w.tasks && w.tasks[t] == AtGrant(op, d, sight) && id in w.grants
    ensures var x := Execution(op, Some(d), GrantToken(id, w.grants[id].usedCount), sight);
            TasksFrom(w, Issue(w.(grants := G.Charge(w.grants, id)), t, x), e)
  {
    hide TasksFrom;
    var x := Execution(op, Some(d), GrantToken(id, w.grants[id].usedCount), sight);
    RunsOn(w, t, x, e);
    SameTasks(w, Issue(w, t, x), Issue(w.(grants := G.Charge(w.grants, id)), t, x), e);
  }

  lemma RequestFrom(w: World, e: Event)
    requires e.RequestApproval?
    ensures TasksFrom(w, StepRequestApproval(w, e.t, e.id, e.now, e.files), e)
  {
    hide TasksFrom, A.NewRow;
    Untouched(w, e);
    Ended(w, e.t, e);
    SameTasks(w, if e.t in w.tasks && w.tasks[e.t].AtRequest? && e.id !in w.requested then EndTask(w, e.t) else w,
      StepRequestApproval(w, e.t, e.id, e.now, e.files), e);
  }

  lemma MutateProfileFrom(w: World, t: TaskId, op: Op)
    ensures TasksFrom(w, StepMutateProfile(w, t, op), MutateProfile(t, op))
  {
    hide TasksFrom;
    Untouched(w, MutateProfile(t, op));
    RunsOn(w, t, Execution(op, None, Unmetered, None), MutateProfile(t, op));
  }

  lemma ExecuteFrom(w: World, t: TaskId)
    ensures TasksFrom(w, StepExecute(w, t), Execute(t))
  {
    hide TasksFrom;
    Untouched(w, Execute(t));
    if t in w.tasks && w.tasks[t].Ready? { ExecutedFrom(w, t, w.tasks[t].x); }
  }

  lemma ExecutedFrom(w: World, t: TaskId, x: Execution)
    ensures TasksFrom(w, Record(EndTask(w, t), x), Execute(t))
    ensures TasksFrom(w, SetTask(Record(EndTask(w, t), x), t, Ran(x.token)), Execute(t))
  {
    hide TasksFrom;
    Ended(w, t, Execute(t));
    SameTasks(w, EndTask(w, t), Record(EndTask(w, t), x), Execute(t));
    MovedOn(w, t, Ran(x.token), Execute(t));
    assert (w.tasks - {t})[t := Ran(x.token)] == w.tasks[t := Ran(x.token)];
    SameTasks(w, SetTask(w, t, Ran(x.token)), SetTask(Record(EndTask(w, t), x), t, Ran(x.token)), Execute(t));
  }

  lemma FinishPlanFrom(w: World, t: TaskId, success: bool)
    ensures TasksFrom(w, StepFinishPlan(w, t, success), FinishPlan(t, success))
  {
    hide TasksFrom, P.Finish, P.LeaseHeld, Note;
    var e := FinishPlan(t, success);
    Untouched(w, e);
    Ended(w, t, e);
    if t in w.tasks && w.tasks[t].Ran? && w.tasks[t].token.PlanToken? {
      SameTasks(w, EndTask(w, t), StepFinishPlan(w, t, success), e);
    }
  }

  lemma OpenFrom(w: World, e: Event)
    requires e.Open?
    ensures TasksFrom(w, StepOpen(w, e.t, e.caller, e.session, e.id, e.wish), e)
  {
    hide TasksFrom, G.ValidateSource;
    Untouched(w, e);
    if e.t !in w.tasks && e.caller.HumanCli? { Moved(w, e.t, Opened(e.id, e.session, e.wish), e); }
  }

  lemma SelectFrom(w: World, e: Event)
    requires e.Select?
    ensures TasksFrom(w, StepSelect(w, e.t, e.now, e.files), e)
  {
    hide TasksFrom, RequestHash;
    Untouched(w, e);
    Ended(w, e.t, e);
    if e.t in w.tasks && w.tasks[e.t].Opened? && w.tasks[e.t].id in w.approvals {
      var s := w.tasks[e.t];
      MovedOn(w, e.t, Selected(s.id, s.session, s.wish, w.approvals[s.id]), e);
    }
  }

  lemma WinFrom(w: World, t: TaskId)
    ensures TasksFrom(w, StepWin(w, t), Win(t))
  {
    hide TasksFrom;
    Untouched(w, Win(t));
    Ended(w, t, Win(t));
    if t in w.tasks && w.tasks[t].Selected? && A.IsPending(w.approvals, w.tasks[t].id) {
      var s := w.tasks[t];
      MovedOn(w, t, Won(s.id, s.session, s.wish, s.row), Win(t));
      SameTasks(w, SetTask(w, t, Won(s.id, s.session, s.wish, s.row)), StepWin(w, t), Win(t));
    }
  }

  lemma RehashFrom(w: World, e: Event)
    requires e.Rehash?
    ensures TasksFrom(w, StepRehash(w, e.t, e.files), e)
  {
    hide TasksFrom, RequestHash;
    Untouched(w, e);
    if e.t in w.tasks && w.tasks[e.t].Won? {
      var s := w.tasks[e.t];
      MovedOn(w, e.t, Closing(s.id), e);
      MovedOn(w, e.t, Rehashed(s.id, s.session, s.wish, s.row), e);
    }
  }

  lemma RedecideFrom(w: World, e: Event)
    requires e.Redecide?
    ensures TasksFrom(w, StepRedecide(w, e.t, e.cfg), e)
  {
    hide TasksFrom;
    Untouched(w, e);
    if e.t in w.tasks && w.tasks[e.t].Rehashed? {
      var s := w.tasks[e.t];
      var verdict := w.policy(e.cfg, s.row.caller, s.row.request);
      var x :=
        Execution(FrozenOp(s.row, s.session, e.cfg), if s.row.request.ManagesProfiles() then None
          else verdict, ApprovalToken(s.id), None);
      RunsOn(w, e.t, x, e);
      MovedOn(w, e.t, Closing(s.id), e);
      if s.wish.Some? { MovedOn(w, e.t, Minting(s.id, s.wish.value, x), e); }
    }
  }

  lemma ValidateGrantFrom(w: World, t: TaskId)
    ensures TasksFrom(w, StepValidateGrant(w, t), ValidateGrant(t))
  {
    hide TasksFrom, G.ValidateSource;
    Untouched(w, ValidateGrant(t));
    if t in w.tasks && w.tasks[t].Minting? && w.tasks[t].x.decision.Some? {
      var s := w.tasks[t];
      MovedOn(w, t, Closing(s.id), ValidateGrant(t));
      var validated := G.ValidateSource(w.approvals, s.id, s.granting, A.Executing, s.x.decision.value.ruleId);
      if validated.Ok? { MovedOn(w, t, Inserting(s.id, s.granting, validated.value, s.x), ValidateGrant(t)); }
    }
  }

  lemma InsertGrantFrom(w: World, e: Event)
    requires e.InsertGrant?
    ensures TasksFrom(w, StepInsertGrant(w, e.t, e.id, e.now), e)
  {
    hide TasksFrom, G.SourceFree, G.NewRow;
    Untouched(w, e);
    if e.t in w.tasks && w.tasks[e.t].Inserting? && e.id !in w.minted {
      var s := w.tasks[e.t];
      MovedOn(w, e.t, Closing(s.id), e);
      RunsOn(w, e.t, s.x, e);
      if s.id in w.approvals && G.SourceFree(w.grants, s.id) {
        SameTasks(w, Issue(w, e.t, s.x), StepInsertGrant(w, e.t, e.id, e.now), e);
      }
    }
  }

  lemma FinishApprovalFrom(w: World, t: TaskId, ok: bool)
    ensures TasksFrom(w, StepFinishApproval(w, t, ok), FinishApproval(t, ok))
  {
    hide TasksFrom, A.Finish;
    Untouched(w, FinishApproval(t, ok));
    if t in w.tasks && (w.tasks[t].Closing? || (w.tasks[t].Ran? && w.tasks[t].token.ApprovalToken?)) {
      ReleasedFrom(w, t, HoldsOf(w.tasks[t]).value, ok && w.tasks[t].Ran?, FinishApproval(t, ok));
    }
  }

  lemma ReleasedFrom(w: World, t: TaskId, id: Id, ok: bool, e: Event)
    ensures TasksFrom(w, EndTask(w, t).(approvals := A.Finish(w.approvals, id, ok)), e)
  {
    hide TasksFrom, A.Finish;
    Ended(w, t, e);
    SameTasks(w, EndTask(w, t), EndTask(w, t).(approvals := A.Finish(w.approvals, id, ok)), e);
  }

  // ---- Every step ----

  lemma OperationFrom(w: World, e: Event)
    requires e.Arrive? || e.ClaimPlan? || e.ConsumeGrant? || e.RequestApproval? || e.MutateProfile?
             || e.Execute? || e.FinishPlan? || e.Crash?
    ensures TasksFrom(w, Step(w, e), e)
  {
    hide TasksFrom, EndTask, StepArrive, StepClaimPlan, StepConsumeGrant, StepRequestApproval, StepRequestMutation,
      StepMutateProfile, StepExecute, StepFinishPlan, StepOpen, StepSelect, StepWin, StepRehash, StepRedecide,
      StepValidateGrant, StepInsertGrant, StepFinishApproval, StepPropose, StepApprovePlan, StepRejectPlan,
      StepSweepLeases, StepSweepPlans;
    match e
    case Arrive(t, op) => ArriveFrom(w, t, op);
    case ClaimPlan(_, _, _, _, _) => ClaimPlanFrom(w, e);
    case ConsumeGrant(_, _, _, _) => ConsumeGrantFrom(w, e);
    case RequestApproval(_, _, _, _) => RequestFrom(w, e);
    case MutateProfile(t, op) => MutateProfileFrom(w, t, op);
    case Execute(t) => ExecuteFrom(w, t);
    case FinishPlan(t, success) => FinishPlanFrom(w, t, success);
    case Crash(t) => Ended(w, t, e);
  }

  lemma ApproverFrom(w: World, e: Event)
    requires e.Open? || e.Select? || e.Win? || e.Rehash? || e.Redecide? || e.ValidateGrant? || e.InsertGrant?
             || e.FinishApproval?
    ensures TasksFrom(w, Step(w, e), e)
  {
    hide TasksFrom, StepArrive, StepClaimPlan, StepConsumeGrant, StepRequestApproval, StepRequestMutation,
      StepMutateProfile, StepExecute, StepFinishPlan, StepOpen, StepSelect, StepWin, StepRehash, StepRedecide,
      StepValidateGrant, StepInsertGrant, StepFinishApproval, StepPropose, StepApprovePlan, StepRejectPlan,
      StepSweepLeases, StepSweepPlans;
    match e
    case Open(_, _, _, _, _) => OpenFrom(w, e);
    case Select(_, _, _) => SelectFrom(w, e);
    case Win(t) => WinFrom(w, t);
    case Rehash(_, _) => RehashFrom(w, e);
    case Redecide(_, _) => RedecideFrom(w, e);
    case ValidateGrant(t) => ValidateGrantFrom(w, t);
    case InsertGrant(_, _, _) => InsertGrantFrom(w, e);
    case FinishApproval(t, ok) => FinishApprovalFrom(w, t, ok);
  }

  lemma MutationFrom(w: World, e: Event)
    requires e.RequestMutation?
    ensures TasksFrom(w, StepRequestMutation(w, e.id, e.session, e.request, e.cfg, e.now), e)
  {
    hide TasksFrom, A.NewRow;
    Untouched(w, e);
    SameTasks(w, w, StepRequestMutation(w, e.id, e.session, e.request, e.cfg, e.now), e);
  }

  lemma ProposeFrom(w: World, caller: Caller, session: string, id: Id, row: Option<P.Row>, e: Event)
    ensures TasksFrom(w, StepPropose(w, caller, session, id, row), e)
  {
    hide TasksFrom;
    Untouched(w, e);
    SameTasks(w, w, StepPropose(w, caller, session, id, row), e);
  }

  lemma ApproveFrom(w: World, caller: Caller, id: Id, now: Time, e: Event)
    ensures TasksFrom(w, StepApprovePlan(w, caller, id, now), e)
  {
    hide TasksFrom, P.Approvable, P.Approve, Note;
    Untouched(w, e);
    SameTasks(w, w, StepApprovePlan(w, caller, id, now), e);
  }

  lemma RejectFrom(w: World, caller: Caller, id: Id, e: Event)
    ensures TasksFrom(w, StepRejectPlan(w, caller, id), e)
  {
    hide TasksFrom, P.Rejectable, P.Reject, Note;
    Untouched(w, e);
    SameTasks(w, w, StepRejectPlan(w, caller, id), e);
  }

  lemma SweepsFrom(w: World, now: Time, e: Event)
    ensures TasksFrom(w, StepSweepLeases(w, now), e) && TasksFrom(w, StepSweepPlans(w, now), e)
  {
    hide TasksFrom, P.FailOverdue, P.ExpireOpen;
    Untouched(w, e);
    SameTasks(w, w, StepSweepLeases(w, now), e);
    SameTasks(w, w, StepSweepPlans(w, now), e);
  }

  lemma PlanningFrom(w: World, e: Event)
    requires e.RequestMutation? || e.Propose? || e.ApprovePlan? || e.RejectPlan? || e.SweepLeases? || e.SweepPlans?
    ensures TasksFrom(w, Step(w, e), e)
  {
    hide TasksFrom, P.NewRow, StepArrive, StepClaimPlan, StepConsumeGrant, StepRequestApproval, StepRequestMutation,
      StepMutateProfile, StepExecute, StepFinishPlan, StepOpen, StepSelect, StepWin, StepRehash, StepRedecide,
      StepValidateGrant, StepInsertGrant, StepFinishApproval, StepPropose, StepApprovePlan, StepRejectPlan,
      StepSweepLeases, StepSweepPlans;
    match e
    case RequestMutation(_, _, _, _, _) => MutationFrom(w, e);
    case Propose(caller, session, id, profile, planTask, actions, ttl, maxTtl, now, files) =>
      ProposeFrom(w, caller, session, id, P.NewRow(profile, planTask, actions, ttl, maxTtl, now, files, Some(session)),
        e);
    case ApprovePlan(caller, id, now) => ApproveFrom(w, caller, id, now, e);
    case RejectPlan(caller, id) => RejectFrom(w, caller, id, e);
    case SweepLeases(now) => SweepsFrom(w, now, e);
    case SweepPlans(now) => SweepsFrom(w, now, e);
  }

  lemma TablesFrom(w: World, approvals: A.Table, grants: G.Table, e: Event)
    ensures TasksFrom(w, w.(approvals := approvals), e) && TasksFrom(w, w.(grants := grants), e)
  {
    hide TasksFrom;
    Untouched(w, e);
    SameTasks(w, w, w.(approvals := approvals), e);
    SameTasks(w, w, w.(grants := grants), e);
  }

  lemma AdministrationFrom(w: World, e: Event)
    requires e.RejectApproval? || e.CleanApprovals? || e.SweepApprovals? || e.RevokeGrant? || e.CleanGrants?
             || e.SweepGrants?
    ensures TasksFrom(w, Step(w, e), e)
  {
    hide TasksFrom, A.Reject, A.Cleanup, A.Expire, G.Revoke, G.Cleanup, G.Expire, StepArrive, StepClaimPlan,
      StepConsumeGrant, StepRequestApproval, StepRequestMutation, StepMutateProfile, StepExecute, StepFinishPlan,
      StepOpen, StepSelect, StepWin, StepRehash, StepRedecide, StepValidateGrant, StepInsertGrant, StepFinishApproval,
      StepPropose, StepApprovePlan, StepRejectPlan, StepSweepLeases, StepSweepPlans;
    Untouched(w, e);
    match e
    case RejectApproval(_, id, now) => TablesFrom(w, A.Reject(w.approvals, id, now), map[], e);
    case CleanApprovals(_) => TablesFrom(w, A.Cleanup(w.approvals), map[], e);
    case SweepApprovals(now) => TablesFrom(w, A.Expire(w.approvals, now), map[], e);
    case RevokeGrant(_, id) => TablesFrom(w, map[], G.Revoke(w.grants, id), e);
    case CleanGrants(_) => TablesFrom(w, map[], G.Cleanup(w.grants), e);
    case SweepGrants(now) => TablesFrom(w, map[], G.Expire(w.grants, now), e);
  }

  lemma StepFrom(w: World, e: Event)
    ensures TasksFrom(w, Step(w, e), e)
  {
    hide Step, TasksFrom;
    if e.Arrive? || e.ClaimPlan? || e.ConsumeGrant? || e.RequestApproval? || e.MutateProfile? || e.Execute?
      || e.FinishPlan? || e.Crash? { OperationFrom(w, e); }
    else if e.Open? || e.Select? || e.Win? || e.Rehash? || e.Redecide? || e.ValidateGrant? || e.InsertGrant?
      || e.FinishApproval? { ApproverFrom(w, e); }
    else if e.RequestMutation? || e.Propose? || e.ApprovePlan? || e.RejectPlan? || e.SweepLeases?
      || e.SweepPlans? { PlanningFrom(w, e); }
    else { AdministrationFrom(w, e); }
  }
}
