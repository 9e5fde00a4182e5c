/**
 * Whole runs, namespace by namespace: what becomes of an agent's own tasks and rows is what would have become of them
 * had nobody else been there.
 */
module Noninterference {
  import opened Types
  import opened Config
  import opened Policy
  import opened Gateway
  import opened Invariants
  import opened Effects
  import L = Ledger
  import I = Isolation
  import A = Approvals
  import G = Grants
  import P = Plans

  // ---- A namespace's part of a world ----

  ghost predicate ApprovalsPart(t: A.Table, u: A.Table, a: string) {
    forall id :: (id in u <==> id in t && t[id].namespace == Some(a)) && (id in u ==> u[id] == t[id])
  }

  ghost predicate GrantsPart(t: G.Table, u: G.Table, a: string) {
    forall id :: (id in u <==> id in t && t[id].namespace == Some(a)) && (id in u ==> u[id] == t[id])
  }

  ghost predicate MintedPart(t: map<Id, (G.Row, G.Wish)>, u: map<Id, (G.Row, G.Wish)>, a: string) {
    forall id :: (id in u <==> id in t && t[id].0.namespace == Some(a)) && (id in u ==> u[id] == t[id])
  }

  ghost predicate PlansPart(t: P.Table, u: P.Table, a: string) {
    forall id :: (id in u <==> id in t && t[id].namespace == Some(a)) && (id in u ==> u[id] == t[id])
  }

  ghost predicate Tables(w: World, u: World, a: string) {
    && ApprovalsPart(w.approvals, u.approvals, a) && ApprovalsPart(w.requested, u.requested, a)
    && GrantsPart(w.grants, u.grants, a) && MintedPart(w.minted, u.minted, a) && PlansPart(w.plans, u.plans, a)
  }

  /** The approval that a human's task is about. */
  function Concerns(s: Task): Option<Id> {
    match s
    case Opened(id, _, _) => Some(id)
    case Selected(id, _, _, _) => Some(id)
    case Ready(_) => None
    case _ => HoldsOf(s)
  }

  ghost predicate Filed(w: World, id: Id, a: string) {
    id in w.requested && w.requested[id].namespace == Some(a)
  }

  ghost predicate Planned(w: World, id: Id, a: string) {
    id in w.plans && w.plans[id].namespace == Some(a)
  }

  /** The agent's own task, or a human's on an approval that the agent waits for. */
  ghost predicate Mine(w: World, s: Task, a: string) {
    match s
    case AtPlan(op, _) => op.Namespace() == Some(a)
    case AtGrant(op, _, _) => op.Namespace() == Some(a)
    case AtRequest(op, _) => op.Namespace() == Some(a)
    case Ready(x) => x.op.Namespace() == Some(a)
    case Ran(PlanToken(p, _)) => Planned(w, p, a)
    case _ => Concerns(s).Some? && Filed(w, Concerns(s).value, a)
  }

  ghost predicate TasksPart(w: World, u: World, a: string) {
    forall t :: (t in u.tasks <==> t in w.tasks && Mine(w, w.tasks[t], a))
                && (t in u.tasks ==> I.Erased(u.tasks[t]) == I.Erased(w.tasks[t]))
  }

  /** The executions of the agent's operations, without the record of what their claims saw. */
  function Own(history: seq<Execution>, a: string): seq<Execution> {
    if history == [] then []
    else
      var x := history[|history| - 1];
      Own(history[..|history| - 1], a) + if x.op.Namespace() == Some(a) then [x.(sight := None)] else []
  }

  /** u holds of w what belongs to the namespace, and nothing else. */
  ghost predicate Part(w: World, u: World, a: string) {
    u.policy == w.policy && Tables(w, u, a) && TasksPart(w, u, a) && Own(u.history, a) == Own(w.history, a)
  }

  // ---- The events that are not the namespace's ----

  ghost predicate OthersTask(w: World, t: TaskId, a: string) {
    t in w.tasks && !Mine(w, w.tasks[t], a)
  }

  /**
   * The event belongs to somebody else: by the task that takes it, by the row it is about, or because it meets an
   * identifier that is already somebody else's.
   */
  ghost predicate Others(w: World, e: Event, a: string) {
    match e
    case Arrive(t, op) => op.Namespace() != Some(a) || OthersTask(w, t, a)
    case MutateProfile(t, op) => op.Namespace() != Some(a) || OthersTask(w, t, a)
    case RequestApproval(t, id, _, _) => OthersTask(w, t, a) || (id in w.requested && !Filed(w, id, a))
    case RequestMutation(id, session, _, _, _) => session != a || (id in w.requested && !Filed(w, id, a))
    case Open(t, _, _, id, _) => OthersTask(w, t, a) || (id in w.approvals && w.approvals[id].namespace != Some(a))
    case InsertGrant(t, id, _) =>
      OthersTask(w, t, a) || (id in w.minted && w.minted[id].0.namespace != Some(a))
    case Propose(_, session, id, _, _, _, _, _, _, _) => session != a || (id in w.plans && !Planned(w, id, a))
    case ClaimPlan(t, _, _, _, _) => OthersTask(w, t, a)
    case ConsumeGrant(t, _, _, _) => OthersTask(w, t, a)
    case Execute(t) => OthersTask(w, t, a)
    case FinishPlan(t, _) => OthersTask(w, t, a)
    case Crash(t) => OthersTask(w, t, a)
    case Select(t, _, _) => OthersTask(w, t, a)
    case Win(t) => OthersTask(w, t, a)
    case Rehash(t, _) => OthersTask(w, t, a)
    case Redecide(t, _) => OthersTask(w, t, a)
    case ValidateGrant(t) => OthersTask(w, t, a)
    case FinishApproval(t, _) => OthersTask(w, t, a)
    case RejectApproval(_, id, _) => id in w.approvals && w.approvals[id].namespace != Some(a)
    case RevokeGrant(_, id) => id in w.grants && w.grants[id].namespace != Some(a)
    case ApprovePlan(_, id, _) => id in w.plans && !Planned(w, id, a)
    case RejectPlan(_, id) => id in w.plans && !Planned(w, id, a)
    case _ => false // sweeps and cleanups pass over all rows alike
  }

  lemma OthersOperation(w: World, t: TaskId, op: Op, a: string)
    ensures Others(w, Arrive(t, op), a) <==> op.Namespace() != Some(a) || OthersTask(w, t, a)
    ensures Others(w, MutateProfile(t, op), a) <==> op.Namespace() != Some(a) || OthersTask(w, t, a)
  {
    hide OthersTask;
  }

  lemma OthersByTask(w: World, e: Event, a: string)
    requires e.Win? || e.Redecide? || e.FinishApproval? || e.ClaimPlan?
    ensures Others(w, e, a) <==> OthersTask(w, e.t, a)
  {
    hide OthersTask, Filed, Planned;
  }

  lemma OthersRow(w: World, caller: Caller, id: Id, now: Time, a: string)
    ensures Others(w, RejectApproval(caller, id, now), a) <==>
            id in w.approvals && w.approvals[id].namespace != Some(a)
    ensures Others(w, RevokeGrant(caller, id), a) <==> id in w.grants && w.grants[id].namespace != Some(a)
  {
    hide OthersTask;
  }

  /** Sweeps and cleanups are nobody's. */
  lemma SweepsForAll(w: World, now: Time, a: string)
    ensures !Others(w, SweepLeases(now), a) && !Others(w, SweepPlans(now), a)
    ensures !Others(w, SweepApprovals(now), a) && !Others(w, SweepGrants(now), a)
  {
    hide OthersTask, Planned, Filed;
  }

  lemma CleanupsForAll(w: World, caller: Caller, a: string)
    ensures !Others(w, CleanApprovals(caller), a) && !Others(w, CleanGrants(caller), a)
  {
    hide OthersTask, Planned, Filed;
  }

  // ---- The kinds of change, on both sides and on one ----

  lemma SameMine(w: World, w': World, a: string)
    requires w'.requested == w.requested && w'.plans == w.plans
    ensures forall s {:trigger Mine(w', s, a)} :: Mine(w', s, a) <==> Mine(w, s, a)
  {
    hide Concerns;
  }

  lemma BothSet(w: World, u: World, t: TaskId, s: Task, s': Task, a: string)
    requires Part(w, u, a) && Mine(w, s, a) && I.Erased(s') == I.Erased(s)
    ensures Part(SetTask(w, t, s), SetTask(u, t, s'), a)
  {
    hide ApprovalsPart, GrantsPart, MintedPart, PlansPart, I.Erased, Mine;
    SameMine(w, SetTask(w, t, s), a);
  }

  lemma BothEnd(w: World, u: World, t: TaskId, a: string)
    requires Part(w, u, a)
    ensures Part(EndTask(w, t), EndTask(u, t), a)
  {
    hide ApprovalsPart, GrantsPart, MintedPart, PlansPart, I.Erased, Mine;
    SameMine(w, EndTask(w, t), a);
  }

  lemma OneSet(w: World, u: World, t: TaskId, s: Task, a: string)
    requires Part(w, u, a) && (t !in w.tasks || OthersTask(w, t, a)) && !Mine(w, s, a)
    ensures Part(SetTask(w, t, s), u, a)
  {
    hide ApprovalsPart, GrantsPart, MintedPart, PlansPart, I.Erased, Mine;
    SameMine(w, SetTask(w, t, s), a);
  }

  lemma OneEnd(w: World, u: World, t: TaskId, a: string)
    requires Part(w, u, a) && OthersTask(w, t, a)
    ensures Part(EndTask(w, t), u, a)
  {
    hide ApprovalsPart, GrantsPart, MintedPart, PlansPart, I.Erased, Mine;
    SameMine(w, EndTask(w, t), a);
  }

  /** What the machine records of tokens and stories decides nothing. */
  lemma Recorded(w: World, u: World, w': World, u': World, a: string)
    requires Part(w, u, a)
    requires w' == w.(ledger := w'.ledger, claimer := w'.claimer, grantOf := w'.grantOf, journal := w'.journal)
    requires u' == u.(ledger := u'.ledger, claimer := u'.claimer, grantOf := u'.grantOf, journal := u'.journal)
    ensures Part(w', u', a)
  {
    hide ApprovalsPart, GrantsPart, MintedPart, PlansPart, I.Erased;
  }

  lemma BothIssue(w: World, u: World, t: TaskId, x: Execution, x': Execution, a: string)
    requires Part(w, u, a) && x.op.Namespace() == Some(a) && x'.(sight := None) == x.(sight := None)
    ensures Part(Issue(w, t, x), Issue(u, t, x'), a)
  {
    hide Part;
    BothSet(w, u, t, Ready(x), Ready(x'), a);
    Recorded(SetTask(w, t, Ready(x)), SetTask(u, t, Ready(x')), Issue(w, t, x), Issue(u, t, x'), a);
  }

  lemma OneIssue(w: World, u: World, t: TaskId, x: Execution, a: string)
    requires Part(w, u, a) && (t !in w.tasks || OthersTask(w, t, a)) && x.op.Namespace() != Some(a)
    ensures Part(Issue(w, t, x), u, a)
  {
    hide Part;
    OneSet(w, u, t, Ready(x), a);
    Recorded(SetTask(w, t, Ready(x)), u, Issue(w, t, x), u, a);
  }

  lemma ApprovalsMove(w: World, u: World, t: A.Table, t': A.Table, a: string)
    requires Part(w, u, a) && ApprovalsPart(t, t', a)
    ensures Part(w.(approvals := t), u.(approvals := t'), a)
  {
    hide ApprovalsPart, GrantsPart, MintedPart, PlansPart, I.Erased;
  }

  lemma GrantsMove(w: World, u: World, t: G.Table, t': G.Table, a: string)
    requires Part(w, u, a) && GrantsPart(t, t', a)
    ensures Part(w.(grants := t), u.(grants := t'), a)
  {
    hide ApprovalsPart, GrantsPart, MintedPart, PlansPart, I.Erased;
  }

  lemma MintedMove(w: World, u: World, t: map<Id, (G.Row, G.Wish)>, t': map<Id, (G.Row, G.Wish)>, a: string)
    requires Part(w, u, a) && MintedPart(t, t', a)
    ensures Part(w.(minted := t), u.(minted := t'), a)
  {
    hide ApprovalsPart, GrantsPart, MintedPart, PlansPart, I.Erased;
  }

  /** Plans and approvals that a task knows of are there. */
  predicate KnownTo(w: World, s: Task) {
    && (Concerns(s).Some? ==> Concerns(s).value in w.requested)
    && (s.Ran? && s.token.PlanToken? ==> s.token.planId in w.plans)
  }

  ghost predicate Known(w: World) {
    forall t :: t in w.tasks ==> KnownTo(w, w.tasks[t])
  }

  ghost predicate NamespacesStay(t: P.Table, t': P.Table) {
    forall p :: p in t ==> p in t' && t'[p].namespace == t[p].namespace
  }

  lemma MineStays(w: World, w': World, s: Task, a: string)
    requires KnownTo(w, s) && NamespacesStay(w.plans, w'.plans)
    requires forall id :: id in w.requested ==> id in w'.requested && w'.requested[id] == w.requested[id]
    ensures Mine(w', s, a) <==> Mine(w, s, a)
  {
  }

  lemma PlansMove(w: World, u: World, t: P.Table, t': P.Table, a: string)
    requires Part(w, u, a) && Known(w) && NamespacesStay(w.plans, t) && PlansPart(t, t', a)
    ensures Part(w.(plans := t), u.(plans := t'), a)
  {
    hide ApprovalsPart, GrantsPart, MintedPart, PlansPart, I.Erased, Mine, KnownTo, NamespacesStay;
    forall x | x in w.tasks ensures Mine(w.(plans := t), w.tasks[x], a) <==> Mine(w, w.tasks[x], a) {
      MineStays(w, w.(plans := t), w.tasks[x], a);
    }
  }

  lemma RequestedMove(w: World, u: World, t: A.Table, t': A.Table, a: string)
    requires Part(w, u, a) && Known(w) && ApprovalsPart(t, t', a)
    requires forall id :: id in w.requested ==> id in t && t[id] == w.requested[id]
    ensures Part(w.(requested := t), u.(requested := t'), a)
  {
    hide ApprovalsPart, GrantsPart, MintedPart, PlansPart, I.Erased, Mine, KnownTo;
    forall x | x in w.tasks ensures Mine(w.(requested := t), w.tasks[x], a) <==> Mine(w, w.tasks[x], a) {
      MineStays(w, w.(requested := t), w.tasks[x], a);
    }
  }

  // ---- One row ----

  lemma ApprovalRow(t: A.Table, u: A.Table, id: Id, r: A.Row, a: string)
    requires ApprovalsPart(t, u, a) && (id in t ==> r.namespace == t[id].namespace)
    ensures ApprovalsPart(t[id := r], if r.namespace == Some(a) then u[id := r] else u, a)
  {
  }

  lemma GrantRow(t: G.Table, u: G.Table, id: Id, r: G.Row, a: string)
    requires GrantsPart(t, u, a) && (id in t ==> r.namespace == t[id].namespace)
    ensures GrantsPart(t[id := r], if r.namespace == Some(a) then u[id := r] else u, a)
  {
  }

  lemma PlanRow(t: P.Table, u: P.Table, id: Id, r: P.Row, a: string)
    requires PlansPart(t, u, a) && (id in t ==> r.namespace == t[id].namespace)
    ensures PlansPart(t[id := r], if r.namespace == Some(a) then u[id := r] else u, a) && NamespacesStay(t, t[id := r])
  {
  }

  /** The plans and their stories move, on both sides or on one. */
  lemma PlanMoves(w: World, u: World, id: Id, r: P.Row, journal: map<Id, seq<Entry>>, journal': map<Id, seq<Entry>>,
      a: string)
    requires Part(w, u, a) && Known(w) && (id in w.plans ==> r.namespace == w.plans[id].namespace)
    ensures r.namespace == Some(a) ==>
              Part(w.(plans := w.plans[id := r], journal := journal),
                u.(plans := u.plans[id := r], journal := journal'),
                a)
    ensures r.namespace != Some(a) ==> Part(w.(plans := w.plans[id := r], journal := journal), u, a)
  {
    PlanRow(w.plans, u.plans, id, r, a);
    var mine := r.namespace == Some(a);
    var w1 := w.(plans := w.plans[id := r]);
    var u1 := if mine then u.(plans := u.plans[id := r]) else u;
    PlansMove(w, u, w1.plans, u1.plans, a);
    assert u.(plans := u.plans) == u;
    hide Part;
    Recorded(w1, u1, w1.(journal := journal), if mine then u1.(journal := journal') else u1, a);
  }

  /** What is not somebody else's is the same on both sides. */
  lemma SameTask(w: World, u: World, t: TaskId, a: string)
    requires Part(w, u, a) && !OthersTask(w, t, a)
    ensures t in w.tasks <==> t in u.tasks
    ensures t in w.tasks ==> Mine(w, w.tasks[t], a) && I.Erased(u.tasks[t]) == I.Erased(w.tasks[t])
  {
    hide ApprovalsPart, GrantsPart, MintedPart, PlansPart, I.Erased, Mine;
  }

  lemma SamePlans(w: World, u: World, a: string)
    requires Part(w, u, a)
    ensures P.SameNamespace(w.plans, u.plans, Some(a)) && u.policy == w.policy
  {
    hide ApprovalsPart, GrantsPart, MintedPart, TasksPart;
  }

  lemma SameGrants(w: World, u: World, a: string)
    requires Part(w, u, a)
    ensures G.SameNamespace(w.grants, u.grants, Some(a))
  {
    hide ApprovalsPart, PlansPart, MintedPart, TasksPart;
  }

  // ---- Operations ----

  lemma ArrivePart(w: World, u: World, t: TaskId, op: Op, a: string)
    requires Part(w, u, a)
    ensures Part(StepArrive(w, t, op), if Others(w, Arrive(t, op), a) then u else StepArrive(u, t, op), a)
  {
    hide Others, Part, I.Erased, Issue, SetTask, Mine;
    OthersOperation(w, t, op, a);
    SamePlans(w, u, a);
    if !OthersTask(w, t, a) { SameTask(w, u, t, a); }
    var verdict := w.policy(op.cfg, op.caller, op.request);
    if !(t in w.tasks || !op.request.IsOperation() || verdict.None? || verdict.value.effect.Deny?) {
      var d := verdict.value;
      StartsPart(w, u, t, op, d, a);
    }
  }

  lemma StartsPart(w: World, u: World, t: TaskId, op: Op, d: Decision, a: string)
    requires Part(w, u, a) && t !in w.tasks
    ensures op.Namespace() == Some(a) ==>
              && Part(SetTask(w, t, AtPlan(op, d)), SetTask(u, t, AtPlan(op, d)), a)
              && Part(Issue(w, t, Execution(op, Some(d), Unmetered, None)),
                      Issue(u, t, Execution(op, Some(d), Unmetered, None)), a)
              && Part(Issue(w, t, Execution(op, None, Unmetered, None)),
                      Issue(u, t, Execution(op, None, Unmetered, None)), a)
    ensures op.Namespace() != Some(a) ==>
              && Part(SetTask(w, t, AtPlan(op, d)), u, a)
              && Part(Issue(w, t, Execution(op, Some(d), Unmetered, None)), u, a)
              && Part(Issue(w, t, Execution(op, None, Unmetered, None)), u, a)
  {
    hide Part, Issue, SetTask;
    if op.Namespace() == Some(a) {
      BothSet(w, u, t, AtPlan(op, d), AtPlan(op, d), a);
      BothIssue(w, u, t, Execution(op, Some(d), Unmetered, None), Execution(op, Some(d), Unmetered, None), a);
      BothIssue(w, u, t, Execution(op, None, Unmetered, None), Execution(op, None, Unmetered, None), a);
    } else {
      OneSet(w, u, t, AtPlan(op, d), a);
      OneIssue(w, u, t, Execution(op, Some(d), Unmetered, None), a);
      OneIssue(w, u, t, Execution(op, None, Unmetered, None), a);
    }
  }

  lemma MutateProfilePart(w: World, u: World, t: TaskId, op: Op, a: string)
    requires Part(w, u, a)
    ensures Part(StepMutateProfile(w, t, op),
              if Others(w, MutateProfile(t, op), a) then u else StepMutateProfile(u, t, op), a)
  {
    hide Others, Part, I.Erased, Issue, SetTask, Mine;
    OthersOperation(w, t, op, a);
    if !OthersTask(w, t, a) { SameTask(w, u, t, a); }
    if t !in w.tasks { StartsPart(w, u, t, op, ALLOW, a); }
  }

  lemma ClaimPlanPart(w: World, u: World, e: Event, a: string)
    requires Part(w, u, a) && Known(w) && e.ClaimPlan?
    ensures Part(StepClaimPlan(w, e.t, e.pick, e.now, e.leaseNow, e.files),
              if Others(w, e, a) then u else StepClaimPlan(u, e.t, e.pick, e.now, e.leaseNow, e.files), a)
  {
    hide Others;
    OthersByTask(w, e, a);
    var t := e.t;
    if !OthersTask(w, t, a) { SameTask(w, u, t, a); }
    if t in w.tasks && w.tasks[t].AtPlan? {
      var op, d := w.tasks[t].op, w.tasks[t].d;
      hide Part, Known, StepClaimPlan;
      var looks := op.caller.EnforcesAgentPolicy() && op.taskId.Some?
        && P.Newest(w.plans, P.Query(op.Profile(), op.taskId.value, op.Namespace()), e.now, e.pick);
      if op.Namespace() == Some(a) {
        if looks { BothClaim(w, u, e, op, d, a); } else { BothPass(w, u, e, op, d, a); }
      } else {
        if looks { OneClaims(w, u, e, op, d, a); } else { OnePasses(w, u, e, op, d, a); }
      }
    }
  }

  lemma BothPass(w: World, u: World, e: Event, op: Op, d: Decision, a: string)
    requires Part(w, u, a) && e.ClaimPlan? && op.Namespace() == Some(a)
    requires e.t in w.tasks && e.t in u.tasks && w.tasks[e.t] == AtPlan(op, d) == u.tasks[e.t]
    requires op.caller.EnforcesAgentPolicy() && op.taskId.Some? ==>
               !P.Newest(w.plans, P.Query(op.Profile(), op.taskId.value, op.Namespace()), e.now, e.pick)
    ensures Part(StepClaimPlan(w, e.t, e.pick, e.now, e.leaseNow, e.files),
              StepClaimPlan(u, e.t, e.pick, e.now, e.leaseNow, e.files), a)
  {
    SamePlans(w, u, a);
    hide Part, StepClaimPlan, P.Newest, P.SameNamespace;
    if op.taskId.Some? {
      I.NewestAgrees(w.plans, u.plans, P.Query(op.Profile(), op.taskId.value, op.Namespace()), e.now, e.pick);
    }
    I.NotLooking(w, e.t, op, d, e.pick, e.now, e.leaseNow, e.files);
    I.NotLooking(u, e.t, op, d, e.pick, e.now, e.leaseNow, e.files);
    BothSet(w, u, e.t, AtGrant(op, d, None), AtGrant(op, d, None), a);
  }

  lemma OnePasses(w: World, u: World, e: Event, op: Op, d: Decision, a: string)
    requires Part(w, u, a) && e.ClaimPlan? && op.Namespace() != Some(a) && e.t in w.tasks
             && w.tasks[e.t] == AtPlan(op, d)
    requires op.caller.EnforcesAgentPolicy() && op.taskId.Some? ==>
               !P.Newest(w.plans, P.Query(op.Profile(), op.taskId.value, op.Namespace()), e.now, e.pick)
    ensures Part(StepClaimPlan(w, e.t, e.pick, e.now, e.leaseNow, e.files), u, a)
  {
    hide Part, StepClaimPlan, P.Newest;
    I.NotLooking(w, e.t, op, d, e.pick, e.now, e.leaseNow, e.files);
    OneSet(w, u, e.t, AtGrant(op, d, None), a);
  }

  lemma SamePick(t: P.Table, u: P.Table, q: P.Query, now: Time, pick: Option<Id>, request: Request, files: Files)
    requires P.SameNamespace(t, u, q.namespace) && P.Newest(t, q, now, pick)
    ensures P.Newest(u, q, now, pick) && (pick.None? ==> P.Claim(t, pick, request, files).NoPlan?)
    ensures pick.Some? ==> pick.value in t && pick.value in u && u[pick.value] == t[pick.value]
                           && t[pick.value].namespace == q.namespace
    ensures P.Claim(t, pick, request, files) == P.Claim(u, pick, request, files)
  {
    hide RequestHash, PlanHash;
  }

  lemma BothClaim(w: World, u: World, e: Event, op: Op, d: Decision, a: string)
    requires Part(w, u, a) && Known(w) && e.ClaimPlan? && op.Namespace() == Some(a) && op.taskId.Some?
    requires e.t in w.tasks && e.t in u.tasks && w.tasks[e.t] == AtPlan(op, d) == u.tasks[e.t]
    requires op.caller.EnforcesAgentPolicy()
             && P.Newest(w.plans, P.Query(op.Profile(), op.taskId.value, op.Namespace()), e.now, e.pick)
    ensures Part(StepClaimPlan(w, e.t, e.pick, e.now, e.leaseNow, e.files),
              StepClaimPlan(u, e.t, e.pick, e.now, e.leaseNow, e.files), a)
  {
    hide Part, Known, StepClaimPlan, P.Newest, P.Claim, P.SameNamespace, Issue, SetTask, EndTask, Note;
    SamePlans(w, u, a);
    var leaseUntil := A.SaturatingAdd(e.leaseNow, P.LeaseSeconds(op.request));
    var q := P.Query(op.Profile(), op.taskId.value, op.Namespace());
    SamePick(w.plans, u.plans, q, e.now, e.pick, op.request, e.files);
    var c := P.Claim(w.plans, e.pick, op.request, e.files);
    if c.Claimed? && e.pick.Some? {
      var id := e.pick.value;
      var r := w.plans[id].(status := P.Executing, claimedIndex := Some(c.index), claimExpiresAt := Some(leaseUntil));
      I.Claimed(w, e.t, op, d, e.pick, e.now, e.leaseNow, e.files);
      I.Claimed(u, e.t, op, d, e.pick, e.now, e.leaseNow, e.files);
      var j, j' := Note(w, id, Claimed(c.index)), Note(u, id, Claimed(c.index));
      PlanMoves(w, u, id, r, j, j', a);
      BothIssue(w.(plans := w.plans[id := r], journal := j), u.(plans := u.plans[id := r], journal := j'), e.t,
        Execution(op, Some(d), PlanToken(id, c.index), Some(Sight(w.plans, e.now))),
        Execution(op, Some(d), PlanToken(id, c.index), Some(Sight(u.plans, e.now))), a);
    } else {
      I.Unclaimed(w, e.t, op, d, e.pick, e.now, e.leaseNow, e.files);
      I.Unclaimed(u, e.t, op, d, e.pick, e.now, e.leaseNow, e.files);
      var sight, sight' := Some(Sight(w.plans, e.now)), Some(Sight(u.plans, e.now));
      BothEnd(w, u, e.t, a);
      BothIssue(w, u, e.t, Execution(op, Some(d), Unmetered, sight), Execution(op, Some(d), Unmetered, sight'), a);
      BothSet(w, u, e.t, AtGrant(op, d, sight), AtGrant(op, d, sight'), a);
    }
  }

  lemma OneClaims(w: World, u: World, e: Event, op: Op, d: Decision, a: string)
    requires Part(w, u, a) && Known(w) && e.ClaimPlan? && op.Namespace() != Some(a) && op.taskId.Some?
    requires e.t in w.tasks && w.tasks[e.t] == AtPlan(op, d) && op.caller.EnforcesAgentPolicy()
             && P.Newest(w.plans, P.Query(op.Profile(), op.taskId.value, op.Namespace()), e.now, e.pick)
    ensures Part(StepClaimPlan(w, e.t, e.pick, e.now, e.leaseNow, e.files), u, a)
  {
    var leaseUntil := A.SaturatingAdd(e.leaseNow, P.LeaseSeconds(op.request));
    assert e.pick.Some? ==> e.pick.value in w.plans && w.plans[e.pick.value].namespace == op.Namespace();
    I.NothingPicked(w.plans, op.request, e.files);
    hide Part, Known, StepClaimPlan, P.Newest, P.Claim, Issue, SetTask, EndTask, Note;
    var c := P.Claim(w.plans, e.pick, op.request, e.files);
    if c.Claimed? && e.pick.Some? {
      var id := e.pick.value;
      var r := w.plans[id].(status := P.Executing, claimedIndex := Some(c.index), claimExpiresAt := Some(leaseUntil));
      I.Claimed(w, e.t, op, d, e.pick, e.now, e.leaseNow, e.files);
      var j := Note(w, id, Claimed(c.index));
      PlanMoves(w, u, id, r, j, j, a);
      OneIssue(w.(plans := w.plans[id := r], journal := j), u, e.t,
        Execution(op, Some(d), PlanToken(id, c.index), Some(Sight(w.plans, e.now))), a);
    } else {
      I.Unclaimed(w, e.t, op, d, e.pick, e.now, e.leaseNow, e.files);
      var sight := Some(Sight(w.plans, e.now));
      OneEnd(w, u, e.t, a);
      OneIssue(w, u, e.t, Execution(op, Some(d), Unmetered, sight), a);
      OneSet(w, u, e.t, AtGrant(op, d, sight), a);
    }
  }

  lemma ConsumeGrantPart(w: World, u: World, e: Event, a: string)
    requires Part(w, u, a) && e.ConsumeGrant?
    ensures Part(StepConsumeGrant(w, e.t, e.ids, e.now, e.ticks),
              if Others(w, e, a) then u else StepConsumeGrant(u, e.t, e.ids, e.now, e.ticks), a)
  {
    var t := e.t;
    if !OthersTask(w, t, a) { SameTask(w, u, t, a); }
    if t in w.tasks && w.tasks[t].AtGrant? {
      var op, d, sight := w.tasks[t].op, w.tasks[t].d, w.tasks[t].sight;
      hide Part, StepConsumeGrant, G.Answers, G.FirstSpendable;
      if op.Namespace() == Some(a) {
        BothConsume(w, u, e, op, d, sight, u.tasks[t].sight, a);
      } else {
        OneConsumes(w, u, e, op, d, sight, a);
      }
    }
  }

  lemma BothConsume(w: World, u: World, e: Event, op: Op, d: Decision, sight: Option<Sight>, sight': Option<Sight>,
      a: string)
    requires Part(w, u, a) && e.ConsumeGrant? && op.Namespace() == Some(a)
    requires e.t in w.tasks && w.tasks[e.t] == AtGrant(op, d, sight)
             && e.t in u.tasks && u.tasks[e.t] == AtGrant(op, d, sight')
    ensures Part(StepConsumeGrant(w, e.t, e.ids, e.now, e.ticks), StepConsumeGrant(u, e.t, e.ids, e.now, e.ticks), a)
  {
    var t, q := e.t, GrantQuery(op, d);
    SameGrants(w, u, a);
    G.AnswersDependOnNamespaceOnly(w.grants, u.grants, q, e.now, e.ids);
    if d.ruleId.Some? && G.Answers(w.grants, q, e.now, e.ids) && |e.ticks| == |e.ids| {
      G.ChargeDependsOnNamespaceOnly(w.grants, u.grants, q, e.now, e.ids, e.ticks);
      var k := G.FirstSpendable(w.grants, e.ids, e.ticks);
      assert k < |e.ids| ==> w.grants[e.ids[k]] == u.grants[e.ids[k]] && w.grants[e.ids[k]].namespace == Some(a);
      hide Part, StepConsumeGrant, G.Answers, G.FirstSpendable, G.SameNamespace, Issue, SetTask, G.Spend;
      if k < |e.ids| {
        I.Charged(w, t, op, d, sight, e.ids, e.now, e.ticks);
        I.Charged(u, t, op, d, sight', e.ids, e.now, e.ticks);
        BothCharge(w, u, t, op, d, sight, sight', e.ids[k], a);
      } else {
        I.Uncharged(w, t, op, d, sight, e.ids, e.now, e.ticks);
        I.Uncharged(u, t, op, d, sight', e.ids, e.now, e.ticks);
        BothSet(w, u, t, AtRequest(op, d), AtRequest(op, d), a);
      }
    } else {
      I.NotConsuming(w, t, op, d, sight, e.ids, e.now, e.ticks);
      I.NotConsuming(u, t, op, d, sight', e.ids, e.now, e.ticks);
      BothEnd(w, u, t, a);
    }
  }

  lemma Unspent(r: G.Row)
    ensures G.Spend(r).namespace == r.namespace
  {
  }

  lemma BothCharge(w: World, u: World, t: TaskId, op: Op, d: Decision, sight: Option<Sight>, sight': Option<Sight>,
      id: Id, a: string)
    requires Part(w, u, a) && id in w.grants && id in u.grants && u.grants[id] == w.grants[id]
    requires w.grants[id].namespace == Some(a) && op.Namespace() == Some(a)
    ensures var token := GrantToken(id, w.grants[id].usedCount);
            Part(Issue(w.(grants := G.Charge(w.grants, id)), t, Execution(op, Some(d), token, sight)),
                 Issue(u.(grants := G.Charge(u.grants, id)), t, Execution(op, Some(d), token, sight')), a)
  {
    Unspent(w.grants[id]);
    GrantRow(w.grants, u.grants, id, G.Spend(w.grants[id]), a);
    GrantsMove(w, u, G.Charge(w.grants, id), G.Charge(u.grants, id), a);
    hide Part, G.Spend, Issue;
    var token := GrantToken(id, w.grants[id].usedCount);
    BothIssue(w.(grants := G.Charge(w.grants, id)), u.(grants := G.Charge(u.grants, id)), t,
      Execution(op, Some(d), token, sight), Execution(op, Some(d), token, sight'), a);
  }

  lemma OneConsumes(w: World, u: World, e: Event, op: Op, d: Decision, sight: Option<Sight>, a: string)
    requires Part(w, u, a) && e.ConsumeGrant? && op.Namespace() != Some(a)
    requires e.t in w.tasks && w.tasks[e.t] == AtGrant(op, d, sight)
    ensures Part(StepConsumeGrant(w, e.t, e.ids, e.now, e.ticks), u, a)
  {
    var t, q := e.t, GrantQuery(op, d);
    if d.ruleId.Some? && G.Answers(w.grants, q, e.now, e.ids) && |e.ticks| == |e.ids| {
      var k := G.FirstSpendable(w.grants, e.ids, e.ticks);
      assert k < |e.ids| ==> e.ids[k] in w.grants && w.grants[e.ids[k]].namespace == op.Namespace();
      hide Part, StepConsumeGrant, G.Answers, G.FirstSpendable, Issue, SetTask, G.Spend;
      if k < |e.ids| {
        I.Charged(w, t, op, d, sight, e.ids, e.now, e.ticks);
        OneCharges(w, u, t, op, d, sight, e.ids[k], a);
      } else {
        I.Uncharged(w, t, op, d, sight, e.ids, e.now, e.ticks);
        OneSet(w, u, t, AtRequest(op, d), a);
      }
    } else {
      I.NotConsuming(w, t, op, d, sight, e.ids, e.now, e.ticks);
      OneEnd(w, u, t, a);
    }
  }

  lemma OneCharges(w: World, u: World, t: TaskId, op: Op, d: Decision, sight: Option<Sight>, id: Id, a: string)
    requires Part(w, u, a) && id in w.grants && w.grants[id].namespace == op.Namespace() != Some(a)
    requires t in w.tasks && w.tasks[t] == AtGrant(op, d, sight)
    ensures Part(Issue(w.(grants := G.Charge(w.grants, id)), t,
              Execution(op, Some(d), GrantToken(id, w.grants[id].usedCount), sight)), u, a)
  {
    Unspent(w.grants[id]);
    GrantRow(w.grants, u.grants, id, G.Spend(w.grants[id]), a);
    GrantsMove(w, u, G.Charge(w.grants, id), u.grants, a);
    assert u.(grants := u.grants) == u;
    hide Part, G.Spend, Issue;
    OneIssue(w.(grants := G.Charge(w.grants, id)), u, t,
      Execution(op, Some(d), GrantToken(id, w.grants[id].usedCount), sight), a);
  }

  // ---- Approvals filed ----

  lemma InsertPart(w: World, u: World, id: Id, row: Option<A.Row>, a: string)
    requires Part(w, u, a) && Known(w) && Records(w) && id !in w.requested
    ensures row.Some? && row.value.namespace != Some(a) ==> Part(InsertApproval(w, id, row), u, a)
    ensures row.None? || row.value.namespace == Some(a) ==>
              Part(InsertApproval(w, id, row), InsertApproval(u, id, row), a)
  {
    FreeToo(w, u, id, a);
    if row.Some? {
      InsertRow(w, u, id, row.value, a);
      hide Part;
      assert u.(approvals := u.approvals, requested := u.requested) == u;
    }
  }

  lemma InsertRow(w: World, u: World, id: Id, r: A.Row, a: string)
    requires Part(w, u, a) && Known(w) && Records(w) && id !in w.requested
    ensures var mine := r.namespace == Some(a);
            Part(w.(approvals := w.approvals[id := r], requested := w.requested[id := r]),
              u.(approvals := if mine then u.approvals[id := r] else u.approvals,
                 requested := if mine then u.requested[id := r] else u.requested), a)
  {
    RequestedFirst(w, id);
    hide Records, GrantsPart, MintedPart, PlansPart, TasksPart;
    ApprovalRow(w.approvals, u.approvals, id, r, a);
    ApprovalRow(w.requested, u.requested, id, r, a);
    var mine := r.namespace == Some(a);
    var w1 := w.(approvals := w.approvals[id := r]);
    var u1 := u.(approvals := if mine then u.approvals[id := r] else u.approvals);
    ApprovalsMove(w, u, w1.approvals, u1.approvals, a);
    hide Part, ApprovalsPart;
    RequestedMove(w1, u1, w.requested[id := r], if mine then u.requested[id := r] else u.requested, a);
  }

  lemma RequestApprovalPart(w: World, u: World, e: Event, a: string)
    requires Part(w, u, a) && Known(w) && Records(w) && e.RequestApproval?
    ensures Part(StepRequestApproval(w, e.t, e.id, e.now, e.files),
              if Others(w, e, a) then u else StepRequestApproval(u, e.t, e.id, e.now, e.files), a)
  {
    hide Part, Known, Records, A.NewRow, InsertApproval, EndTask;
    var t := e.t;
    if !OthersTask(w, t, a) { SameTask(w, u, t, a); }
    FreeToo(w, u, e.id, a);
    if t in w.tasks && w.tasks[t].AtRequest? && e.id !in w.requested {
      RequestedPart(w, u, e, w.tasks[t].op, w.tasks[t].d, a);
    }
  }

  lemma NewRowNamespace(request: Request, files: Files, now: Time, ttl: nat, caller: Caller, ruleId: Option<string>,
      risk: Option<Risk>, taskId: Option<string>, namespace: Option<string>)
    ensures var row := A.NewRow(request, files, now, ttl, caller, ruleId, risk, taskId, namespace);
            row.Some? ==> row.value.namespace == namespace
  {
  }

  lemma RequestedPart(w: World, u: World, e: Event, op: Op, d: Decision, a: string)
    requires Part(w, u, a) && Known(w) && Records(w) && e.RequestApproval? && e.id !in w.requested
    requires e.t in w.tasks && w.tasks[e.t] == AtRequest(op, d)
    ensures var row := A.NewRow(op.request, e.files, e.now, op.cfg.approvalTtl, op.caller, d.ruleId, d.risk, op.taskId,
              op.Namespace());
            var w' := EndTask(InsertApproval(w, e.id, row), e.t);
            Part(w', if op.Namespace() == Some(a) then EndTask(InsertApproval(u, e.id, row), e.t) else u, a)
  {
    hide Part, Known, Records, A.NewRow;
    var row := A.NewRow(op.request, e.files, e.now, op.cfg.approvalTtl, op.caller, d.ruleId, d.risk, op.taskId,
      op.Namespace());
    NewRowNamespace(op.request, e.files, e.now, op.cfg.approvalTtl, op.caller, d.ruleId, d.risk, op.taskId,
      op.Namespace());
    InsertPart(w, u, e.id, row, a);
    assert row.None? ==> InsertApproval(w, e.id, row) == w;
    assert InsertApproval(w, e.id, row).tasks == w.tasks;
    hide InsertApproval;
    if op.Namespace() == Some(a) {
      BothEnd(InsertApproval(w, e.id, row), InsertApproval(u, e.id, row), e.t, a);
    } else {
      OneEnd(InsertApproval(w, e.id, row), u, e.t, a);
    }
  }

  /** An identifier that is free, or the namespace's own, is so on both sides. */
  lemma FreeToo(w: World, u: World, id: Id, a: string)
    requires Part(w, u, a)
    ensures id !in w.requested || Filed(w, id, a) ==> (id in w.requested <==> id in u.requested)
    ensures id !in w.plans || Planned(w, id, a) ==> (id in w.plans <==> id in u.plans)
    ensures id !in w.minted || w.minted[id].0.namespace == Some(a) ==> (id in w.minted <==> id in u.minted)
  {
    hide GrantsPart, TasksPart;
  }

  lemma RequestMutationPart(w: World, u: World, e: Event, a: string)
    requires Part(w, u, a) && Known(w) && Records(w) && e.RequestMutation?
    ensures Part(StepRequestMutation(w, e.id, e.session, e.request, e.cfg, e.now),
              if Others(w, e, a) then u else StepRequestMutation(u, e.id, e.session, e.request, e.cfg, e.now), a)
  {
    FreeToo(w, u, e.id, a);
    var row := A.NewRow(e.request, map[], e.now, e.cfg.approvalTtl, Mcp, None, Some(High), None, Some(e.session));
    assert row.Some? ==> row.value.namespace == Some(e.session);
    if e.id !in w.requested { InsertPart(w, u, e.id, row, a); }
    hide Part, Known, Records, A.NewRow;
    assert row.None? ==> InsertApproval(w, e.id, row) == w && InsertApproval(u, e.id, row) == u;
  }

  // ---- Running ----

  lemma OwnLast(history: seq<Execution>, x: Execution, a: string)
    ensures Own(history + [x], a) == Own(history, a) + if x.op.Namespace() == Some(a) then [x.(sight := None)] else []
  {
    assert (history + [x])[..|history|] == history;
  }

  lemma RecordPart(w: World, u: World, x: Execution, x': Execution, a: string)
    requires Part(w, u, a) && x'.(sight := None) == x.(sight := None)
    ensures x.op.Namespace() == Some(a) ==> Part(Record(w, x), Record(u, x'), a)
    ensures x.op.Namespace() != Some(a) ==> Part(Record(w, x), u, a)
  {
    hide ApprovalsPart, GrantsPart, MintedPart, PlansPart, I.Erased, Own, Mine;
    OwnLast(w.history, x, a);
    OwnLast(u.history, x', a);
    SameMine(w, Record(w, x), a);
  }

  lemma ExecutePart(w: World, u: World, t: TaskId, a: string)
    requires Part(w, u, a) && Inv(w)
    ensures Part(StepExecute(w, t), if Others(w, Execute(t), a) then u else StepExecute(u, t), a)
  {
    hide Part, Inv, Record, EndTask, SetTask;
    if !OthersTask(w, t, a) { SameTask(w, u, t, a); }
    if t in w.tasks && w.tasks[t].Ready? {
      var x := w.tasks[t].x;
      ChargedNamespace(w, t, x, a);
      if x.op.Namespace() == Some(a) {
        BothRun(w, u, t, x, u.tasks[t].x, a);
      } else {
        OneRuns(w, u, t, x, a);
      }
    }
  }

  lemma BothRun(w: World, u: World, t: TaskId, x: Execution, x': Execution, a: string)
    requires Part(w, u, a) && x'.(sight := None) == x.(sight := None) && x.op.Namespace() == Some(a)
    requires x.token.PlanToken? || x.token.ApprovalToken? ==> Mine(w, Ran(x.token), a)
    ensures Part(Record(EndTask(w, t), x), Record(EndTask(u, t), x'), a)
    ensures x.token.PlanToken? || x.token.ApprovalToken? ==>
              Part(SetTask(Record(EndTask(w, t), x), t, Ran(x.token)),
                   SetTask(Record(EndTask(u, t), x'), t, Ran(x'.token)), a)
  {
    hide Part, Mine;
    BothEnd(w, u, t, a);
    RecordPart(EndTask(w, t), EndTask(u, t), x, x', a);
    if x.token.PlanToken? || x.token.ApprovalToken? {
      SameMine(w, Record(EndTask(w, t), x), a);
      assert Mine(Record(EndTask(w, t), x), Ran(x.token), a);
      BothSet(Record(EndTask(w, t), x), Record(EndTask(u, t), x'), t, Ran(x.token), Ran(x'.token), a);
    }
  }

  lemma OneRuns(w: World, u: World, t: TaskId, x: Execution, a: string)
    requires Part(w, u, a) && t in w.tasks && w.tasks[t] == Ready(x) && x.op.Namespace() != Some(a)
    requires !Mine(w, Ran(x.token), a)
    ensures Part(Record(EndTask(w, t), x), u, a)
    ensures Part(SetTask(Record(EndTask(w, t), x), t, Ran(x.token)), u, a)
  {
    OneEnd(w, u, t, a);
    hide Part, Mine;
    RecordPart(EndTask(w, t), u, x, x, a);
    SameMine(w, Record(EndTask(w, t), x), a);
    assert !Mine(Record(EndTask(w, t), x), Ran(x.token), a);
    OneSet(Record(EndTask(w, t), x), u, t, Ran(x.token), a);
  }

  /** What is charged to a plan or an approval is of the namespace that the plan or the approval is of. */
  lemma ChargedNamespace(w: World, t: TaskId, x: Execution, a: string)
    requires Inv(w) && t in w.tasks && w.tasks[t] == Ready(x)
    ensures x.token.PlanToken? || x.token.ApprovalToken? ==>
              (Mine(w, Ran(x.token), a) <==> x.op.Namespace() == Some(a))
    ensures x.op.Namespace() != Some(a) ==> !Mine(w, Ran(x.token), a)
  {
    hide Records, Stories, Claims, Tokens, Mints, Past;
    AboutTask(w, t);
    RequestedNamespaces(w);
  }

  lemma RequestedNamespaces(w: World)
    requires Records(w)
    ensures forall id :: id in w.requested ==>
              (w.requested[id].namespace.Some? <==> w.requested[id].caller.EnforcesAgentPolicy())
  {
  }

  lemma FinishPlanPart(w: World, u: World, t: TaskId, success: bool, a: string)
    requires Part(w, u, a) && Known(w)
    ensures Part(StepFinishPlan(w, t, success),
              if Others(w, FinishPlan(t, success), a) then u else StepFinishPlan(u, t, success), a)
  {
    hide Part, Known, Note, P.Finish, P.LeaseHeld, EndTask;
    if !OthersTask(w, t, a) { SameTask(w, u, t, a); }
    if t in w.tasks && w.tasks[t].Ran? && w.tasks[t].token.PlanToken? {
      var id, index := w.tasks[t].token.planId, w.tasks[t].token.index;
      SamePlan(w, u, t, id, a);
      if P.LeaseHeld(w.plans, id, index) {
        FinishedPart(w, u, t, id, index, success, a);
        LeaseOfOne(w.plans, u.plans, id, index);
      } else {
        LeaseOfOne(w.plans, u.plans, id, index);
        CrashPart(w, u, t, a);
      }
    }
  }

  lemma LeaseOfOne(t: P.Table, u: P.Table, id: Id, index: nat)
    requires id in t
    ensures id in u && u[id] == t[id] ==> (P.LeaseHeld(u, id, index) <==> P.LeaseHeld(t, id, index))
  {
  }

  lemma SamePlan(w: World, u: World, t: TaskId, id: Id, a: string)
    requires Part(w, u, a) && Known(w) && t in w.tasks && w.tasks[t].Ran? && w.tasks[t].token.PlanToken?
             && w.tasks[t].token.planId == id
    ensures id in w.plans && (Planned(w, id, a) ==> id in u.plans && u.plans[id] == w.plans[id])
  {
    hide ApprovalsPart, GrantsPart, MintedPart, TasksPart;
  }

  lemma FinishedPart(w: World, u: World, t: TaskId, id: Id, index: nat, success: bool, a: string)
    requires Part(w, u, a) && Known(w) && t in w.tasks && w.tasks[t] == Ran(PlanToken(id, index)) && id in w.plans
    requires P.LeaseHeld(w.plans, id, index)
    requires Planned(w, id, a) ==> id in u.plans && u.plans[id] == w.plans[id]
    ensures var e := if success then Done(index) else Broke(index);
            var w' := EndTask(w, t).(plans := P.Finish(w.plans, id, index, success), journal := Note(w, id, e));
            var u' := EndTask(u, t).(plans := P.Finish(u.plans, id, index, success), journal := Note(u, id, e));
            Part(w', if Planned(w, id, a) then u' else u, a)
  {
    hide Part, Known, Note, P.Finish, P.LeaseHeld;
    var e := if success then Done(index) else Broke(index);
    var r := FinishedRow(w.plans, u.plans, id, index, success);
    var w1 := w.(plans := w.plans[id := r], journal := Note(w, id, e));
    var u1 := u.(plans := u.plans[id := r], journal := Note(u, id, e));
    PlanMoves(w, u, id, r, w1.journal, u1.journal, a);
    if Planned(w, id, a) { BothEnd(w1, u1, t, a); } else { OneEnd(w1, u, t, a); }
  }

  lemma FinishedRow(t: P.Table, u: P.Table, id: Id, index: nat, success: bool) returns (r: P.Row)
    requires P.LeaseHeld(t, id, index)
    ensures P.Finish(t, id, index, success) == t[id := r] && r.namespace == t[id].namespace
    ensures id in u && u[id] == t[id] ==> P.Finish(u, id, index, success) == u[id := r]
  {
    r := P.Finish(t, id, index, success)[id];
  }

  lemma CrashPart(w: World, u: World, t: TaskId, a: string)
    requires Part(w, u, a)
    ensures Part(EndTask(w, t), if Others(w, Crash(t), a) then u else EndTask(u, t), a)
  {
    hide Part;
    if OthersTask(w, t, a) { OneEnd(w, u, t, a); } else { BothEnd(w, u, t, a); }
  }

  // ---- The ApprovalApprove arm ----

  /** An approval's row and its record are of one namespace, and a namespace's rows are on both sides. */
  lemma SameApproval(w: World, u: World, id: Id, a: string)
    requires Part(w, u, a) && Records(w)
    ensures id in w.approvals ==> (w.approvals[id].namespace == Some(a) <==> Filed(w, id, a))
    ensures id !in w.approvals || Filed(w, id, a) ==> (id in w.approvals <==> id in u.approvals)
    ensures id in w.approvals && Filed(w, id, a) ==> u.approvals[id] == w.approvals[id]
  {
    hide GrantsPart, MintedPart, PlansPart, TasksPart;
  }

  lemma SourceOfOne(t: A.Table, u: A.Table, id: Id, wish: G.Wish, required: A.Status, rule: Option<string>)
    requires (id in t <==> id in u) && (id in t ==> u[id] == t[id])
    ensures G.ValidateSource(u, id, wish, required, rule) == G.ValidateSource(t, id, wish, required, rule)
  {
  }

  lemma OpenPart(w: World, u: World, e: Event, a: string)
    requires Part(w, u, a) && Records(w) && e.Open?
    ensures Part(StepOpen(w, e.t, e.caller, e.session, e.id, e.wish),
              if Others(w, e, a) then u else StepOpen(u, e.t, e.caller, e.session, e.id, e.wish), a)
  {
    hide Part, Records, G.ValidateSource, SetTask, I.Erased;
    SameApproval(w, u, e.id, a);
    if !OthersTask(w, e.t, a) { SameTask(w, u, e.t, a); }
    if e.wish.Some? && e.id in w.approvals && Filed(w, e.id, a) {
      SourceOfOne(w.approvals, u.approvals, e.id, e.wish.value, A.Pending, None);
    }
    var s := Opened(e.id, e.session, e.wish);
    if e.t !in w.tasks && e.id in w.approvals {
      if Filed(w, e.id, a) { BothSet(w, u, e.t, s, s, a); } else { OneSet(w, u, e.t, s, a); }
    }
  }

  lemma ConcernsMine(w: World, s: Task, a: string)
    requires Concerns(s).Some? && !s.Ran?
    ensures Mine(w, s, a) <==> Filed(w, Concerns(s).value, a)
  {
    hide Filed;
  }

  /** A human's task moves on, on both sides or on one. */
  lemma ApproverMoves(w: World, u: World, t: TaskId, id: Id, s: Task, a: string)
    requires Part(w, u, a) && t in w.tasks && Concerns(w.tasks[t]) == Some(id) == Concerns(s) && !s.Ran?
    requires !w.tasks[t].Ran?
    ensures Filed(w, id, a) ==> t in u.tasks && u.tasks[t] == w.tasks[t]
    ensures Filed(w, id, a) ==> Part(SetTask(w, t, s), SetTask(u, t, s), a) && Part(EndTask(w, t), EndTask(u, t), a)
    ensures !Filed(w, id, a) ==> Part(SetTask(w, t, s), u, a) && Part(EndTask(w, t), u, a)
    ensures OthersTask(w, t, a) <==> !Filed(w, id, a)
  {
    ConcernsMine(w, s, a);
    ConcernsMine(w, w.tasks[t], a);
    hide Part, SetTask, EndTask, Filed, Mine;
    if Filed(w, id, a) {
      SameTask(w, u, t, a);
      BothSet(w, u, t, s, s, a);
      BothEnd(w, u, t, a);
    } else {
      OneSet(w, u, t, s, a);
      OneEnd(w, u, t, a);
    }
  }

  lemma SelectPart(w: World, u: World, e: Event, a: string)
    requires Part(w, u, a) && Records(w) && e.Select?
    ensures Part(StepSelect(w, e.t, e.now, e.files),
              if Others(w, e, a) then u else StepSelect(u, e.t, e.now, e.files), a)
  {
    hide Part, Records, RequestHash, SetTask, EndTask, Filed, Mine;
    if !OthersTask(w, e.t, a) { SameTask(w, u, e.t, a); }
    if e.t in w.tasks && w.tasks[e.t].Opened? {
      var o := w.tasks[e.t];
      SameApproval(w, u, o.id, a);
      ApproverMoves(w, u, e.t, o.id,
        if o.id in w.approvals then Selected(o.id, o.session, o.wish, w.approvals[o.id]) else o, a);
    }
  }

  lemma WinPart(w: World, u: World, t: TaskId, a: string)
    requires Part(w, u, a) && Records(w)
    ensures Part(StepWin(w, t), if Others(w, Win(t), a) then u else StepWin(u, t), a)
  {
    hide Others, Part, Records, EndTask, Filed, Mine, A.SetStatus;
    OthersByTask(w, Win(t), a);
    if !OthersTask(w, t, a) { SameTask(w, u, t, a); }
    if t in w.tasks && w.tasks[t].Selected? {
      var s := w.tasks[t];
      SameApproval(w, u, s.id, a);
      ApproverMoves(w, u, t, s.id, Won(s.id, s.session, s.wish, s.row), a);
      if A.IsPending(w.approvals, s.id) { WonPart(w, u, t, s.id, Won(s.id, s.session, s.wish, s.row), a); }
    }
  }

  lemma WonPart(w: World, u: World, t: TaskId, id: Id, won: Task, a: string)
    requires Records(w) && id in w.approvals && Part(w, u, a)
    requires Part(SetTask(w, t, won), if Filed(w, id, a) then SetTask(u, t, won) else u, a)
    ensures Filed(w, id, a) ==> id in u.approvals
    ensures var w' := SetTask(w, t, won).(
            approvals := A.SetStatus(w.approvals, id, A.Executing), claimer := w.claimer[id := t]);
            Part(w', if Filed(w, id, a) then SetTask(u, t, won).(
                   approvals := A.SetStatus(u.approvals, id, A.Executing), claimer := u.claimer[id := t]) else u, a)
  {
    hide Part, Records, Filed, A.SetStatus;
    SameApproval(w, u, id, a);
    if Filed(w, id, a) {
      BothStatus(SetTask(w, t, won), SetTask(u, t, won), id, A.Executing, t, a);
    } else {
      OneStatus(SetTask(w, t, won), u, id, A.Executing, t, a);
    }
  }

  /** An approval changes status, with or without a claim on it. */
  lemma BothStatus(w: World, u: World, id: Id, status: A.Status, t: TaskId, a: string)
    requires Part(w, u, a) && id in w.approvals && id in u.approvals && u.approvals[id] == w.approvals[id]
             && w.approvals[id].namespace == Some(a)
    ensures Part(w.(approvals := A.SetStatus(w.approvals, id, status)),
              u.(approvals := A.SetStatus(u.approvals, id, status)), a)
    ensures Part(w.(approvals := A.SetStatus(w.approvals, id, status), claimer := w.claimer[id := t]),
              u.(approvals := A.SetStatus(u.approvals, id, status), claimer := u.claimer[id := t]), a)
  {
    StatusPart(w, u, id, status, a);
    var w1 := w.(approvals := A.SetStatus(w.approvals, id, status));
    var u1 := u.(approvals := A.SetStatus(u.approvals, id, status));
    hide Part, A.SetStatus;
    Recorded(w1, u1, w1.(claimer := w.claimer[id := t]), u1.(claimer := u.claimer[id := t]), a);
  }

  lemma OneStatus(w: World, u: World, id: Id, status: A.Status, t: TaskId, a: string)
    requires Part(w, u, a) && id in w.approvals && w.approvals[id].namespace != Some(a)
    ensures Part(w.(approvals := A.SetStatus(w.approvals, id, status)), u, a)
    ensures Part(w.(approvals := A.SetStatus(w.approvals, id, status), claimer := w.claimer[id := t]), u, a)
  {
    StatusPart(w, u, id, status, a);
    var w1 := w.(approvals := A.SetStatus(w.approvals, id, status));
    hide Part, A.SetStatus;
    Recorded(w1, u, w1.(claimer := w.claimer[id := t]), u, a);
  }

  lemma StatusPart(w: World, u: World, id: Id, status: A.Status, a: string)
    requires Part(w, u, a) && id in w.approvals
    ensures w.approvals[id].namespace == Some(a) ==>
              id in u.approvals && Part(w.(approvals := A.SetStatus(w.approvals, id, status)),
                u.(approvals := A.SetStatus(u.approvals, id, status)), a)
    ensures w.approvals[id].namespace != Some(a) ==>
              Part(w.(approvals := A.SetStatus(w.approvals, id, status)), u, a)
  {
    ApprovalRow(w.approvals, u.approvals, id, w.approvals[id].(status := status), a);
    if w.approvals[id].namespace == Some(a) {
      ApprovalsMove(w, u, A.SetStatus(w.approvals, id, status), A.SetStatus(u.approvals, id, status), a);
    } else {
      ApprovalsMove(w, u, A.SetStatus(w.approvals, id, status), u.approvals, a);
      assert u.(approvals := u.approvals) == u;
    }
  }

  lemma RehashPart(w: World, u: World, e: Event, a: string)
    requires Part(w, u, a) && e.Rehash?
    ensures Part(StepRehash(w, e.t, e.files), if Others(w, e, a) then u else StepRehash(u, e.t, e.files), a)
  {
    hide Part, RequestHash, SetTask, EndTask, Filed, Mine;
    if !OthersTask(w, e.t, a) { SameTask(w, u, e.t, a); }
    if e.t in w.tasks && w.tasks[e.t].Won? {
      var s := w.tasks[e.t];
      ApproverMoves(w, u, e.t, s.id, Closing(s.id), a);
      ApproverMoves(w, u, e.t, s.id, Rehashed(s.id, s.session, s.wish, s.row), a);
    }
  }

  /** What is run for an approval is of the namespace that the approval is of. */
  lemma FrozenNamespace(w: World, id: Id, session: string, cfg: AppConfig, a: string)
    requires Records(w) && id in w.requested
    ensures FrozenOp(w.requested[id], session, cfg).Namespace() == Some(a) <==> Filed(w, id, a)
  {
    assert Requestable(w.requested[id]);
  }

  /** A human's task is ready to run what was approved. */
  lemma ApproverRuns(w: World, u: World, t: TaskId, id: Id, x: Execution, a: string)
    requires Part(w, u, a) && t in w.tasks && Concerns(w.tasks[t]) == Some(id) && !w.tasks[t].Ran?
    requires x.op.Namespace() == Some(a) <==> Filed(w, id, a)
    ensures Filed(w, id, a) ==> Part(Issue(w, t, x), Issue(u, t, x), a)
    ensures !Filed(w, id, a) ==> Part(Issue(w, t, x), u, a)
  {
    ConcernsMine(w, w.tasks[t], a);
    hide Part, Issue, Filed, Mine;
    if Filed(w, id, a) { BothIssue(w, u, t, x, x, a); } else { OneIssue(w, u, t, x, a); }
  }

  /** What the second decision leads to. */
  function Redecided(w: World, t: TaskId, s: Task, op: Op, verdict: Option<Decision>): World
    requires s.Rehashed?
  {
    if s.row.request.ManagesProfiles() then Issue(w, t, Execution(op, None, ApprovalToken(s.id), None))
    else if verdict.None? || verdict.value.effect.Deny? then SetTask(w, t, Closing(s.id))
    else
      var x := Execution(op, verdict, ApprovalToken(s.id), None);
      if s.wish.Some? && verdict.value.effect.Confirm? then SetTask(w, t, Minting(s.id, s.wish.value, x))
      else Issue(w, t, x)
  }

  lemma RedecideIs(w: World, t: TaskId, cfg: AppConfig, s: Task)
    requires t in w.tasks && w.tasks[t] == s && s.Rehashed?
    ensures StepRedecide(w, t, cfg)
            == Redecided(w, t, s, FrozenOp(s.row, s.session, cfg), w.policy(cfg, s.row.caller, s.row.request))
  {
    hide Issue, SetTask, FrozenOp;
  }

  lemma RedecideIdle(w: World, t: TaskId, cfg: AppConfig)
    requires !(t in w.tasks && w.tasks[t].Rehashed?)
    ensures StepRedecide(w, t, cfg) == w
  {
  }

  lemma RehashedNamespace(w: World, t: TaskId, s: Task, cfg: AppConfig, a: string)
    requires Records(w) && Tasks(w) && t in w.tasks && w.tasks[t] == s && s.Rehashed?
    ensures FrozenOp(s.row, s.session, cfg).Namespace() == Some(a) <==> Filed(w, s.id, a)
  {
    hide Records, Filed, FrozenOp, HolderOk, TaskToken;
    AboutTask(w, t);
    FrozenNamespace(w, s.id, s.session, cfg, a);
  }

  lemma RedecidePart(w: World, u: World, e: Event, a: string)
    requires Part(w, u, a) && Records(w) && Tasks(w) && e.Redecide?
    ensures Part(StepRedecide(w, e.t, e.cfg), if Others(w, e, a) then u else StepRedecide(u, e.t, e.cfg), a)
  {
    hide Others, Part, Records, Tasks, Redecided, Filed, Mine, FrozenOp, StepRedecide;
    OthersByTask(w, e, a);
    SamePlans(w, u, a);
    var t := e.t;
    if !OthersTask(w, t, a) { SameTask(w, u, t, a); }
    if t in w.tasks && w.tasks[t].Rehashed? {
      var s := w.tasks[t];
      RehashedNamespace(w, t, s, e.cfg, a);
      var op, verdict := FrozenOp(s.row, s.session, e.cfg), w.policy(e.cfg, s.row.caller, s.row.request);
      RedecideIs(w, t, e.cfg, s);
      RedecidedPart(w, u, t, s, op, verdict, a);
      if Filed(w, s.id, a) { RedecideIs(u, t, e.cfg, s); }
    } else {
      RedecideIdle(w, t, e.cfg);
      if !OthersTask(w, t, a) { RedecideIdle(u, t, e.cfg); }
    }
  }

  lemma RedecidedPart(w: World, u: World, t: TaskId, s: Task, op: Op, verdict: Option<Decision>, a: string)
    requires Part(w, u, a) && t in w.tasks && w.tasks[t] == s && s.Rehashed?
    requires op.Namespace() == Some(a) <==> Filed(w, s.id, a)
    ensures OthersTask(w, t, a) <==> !Filed(w, s.id, a)
    ensures Filed(w, s.id, a) ==> t in u.tasks && u.tasks[t] == s
    ensures Part(Redecided(w, t, s, op, verdict),
              if Filed(w, s.id, a) then Redecided(u, t, s, op, verdict) else u, a)
  {
    hide Part, SetTask, EndTask, Issue, Filed, Mine;
    ApproverMoves(w, u, t, s.id, Closing(s.id), a);
    ApproverRuns(w, u, t, s.id, Execution(op, None, ApprovalToken(s.id), None), a);
    var x := Execution(op, verdict, ApprovalToken(s.id), None);
    ApproverRuns(w, u, t, s.id, x, a);
    if s.wish.Some? { ApproverMoves(w, u, t, s.id, Minting(s.id, s.wish.value, x), a); }
  }

  lemma ValidateGrantPart(w: World, u: World, t: TaskId, a: string)
    requires Part(w, u, a) && Records(w)
    ensures Part(StepValidateGrant(w, t), if Others(w, ValidateGrant(t), a) then u else StepValidateGrant(u, t), a)
  {
    hide Part, Records, SetTask, EndTask, Filed, Mine, G.ValidateSource;
    if !OthersTask(w, t, a) { SameTask(w, u, t, a); }
    if t in w.tasks && w.tasks[t].Minting? && w.tasks[t].x.decision.Some? {
      var s := w.tasks[t];
      var rule := s.x.decision.value.ruleId;
      SameApproval(w, u, s.id, a);
      if Filed(w, s.id, a) { SourceOfOne(w.approvals, u.approvals, s.id, s.granting, A.Executing, rule); }
      ApproverMoves(w, u, t, s.id, Closing(s.id), a);
      var validated := G.ValidateSource(w.approvals, s.id, s.granting, A.Executing, rule);
      if validated.Ok? { ApproverMoves(w, u, t, s.id, Inserting(s.id, s.granting, validated.value, s.x), a); }
    }
  }

  /** All grants of an approval are of its namespace, so it has one on both sides or on none. */
  lemma SameSource(w: World, u: World, id: Id, a: string)
    requires Part(w, u, a) && Records(w) && Mints(w) && Filed(w, id, a)
    ensures G.SourceFree(w.grants, id) <==> G.SourceFree(u.grants, id)
  {
    hide ApprovalsPart, MintedPart, PlansPart, TasksPart, G.RowOk, G.Permitted;
    assert forall g :: g in w.grants && w.grants[g].source == id ==> w.grants[g].namespace == Some(a);
  }

  lemma MintedRow(t: map<Id, (G.Row, G.Wish)>, u: map<Id, (G.Row, G.Wish)>, id: Id, row: G.Row, wish: G.Wish, a: string)
    requires MintedPart(t, u, a) && id !in t
    ensures MintedPart(t[id := (row, wish)], if row.namespace == Some(a) then u[id := (row, wish)] else u, a)
  {
  }

  lemma GrantInserted(w: World, u: World, id: Id, row: G.Row, a: string)
    requires Part(w, u, a) && id !in w.grants
    ensures Part(w.(grants := w.grants[id := row]),
              if row.namespace == Some(a) then u.(grants := u.grants[id := row]) else u, a)
  {
    hide ApprovalsPart, GrantsPart, MintedPart, PlansPart, TasksPart, Own;
    GrantRow(w.grants, u.grants, id, row, a);
    GrantsMove(w, u, w.grants[id := row], if row.namespace == Some(a) then u.grants[id := row] else u.grants, a);
    assert u.(grants := u.grants) == u;
  }

  lemma GrantMinted(w: World, u: World, id: Id, row: G.Row, wish: G.Wish, a: string)
    requires Part(w, u, a) && id !in w.minted
    ensures Part(w.(minted := w.minted[id := (row, wish)]),
              if row.namespace == Some(a) then u.(minted := u.minted[id := (row, wish)]) else u, a)
  {
    hide ApprovalsPart, GrantsPart, MintedPart, PlansPart, TasksPart, Own;
    MintedRow(w.minted, u.minted, id, row, wish, a);
    MintedMove(w, u, w.minted[id := (row, wish)],
      if row.namespace == Some(a) then u.minted[id := (row, wish)] else u.minted, a);
    assert u.(minted := u.minted) == u;
  }

  lemma MintPart(w: World, u: World, id: Id, row: G.Row, wish: G.Wish, a: string)
    requires Part(w, u, a) && Records(w) && id !in w.minted
    ensures row.namespace == Some(a) ==> Part(Mint(w, id, row, wish), Mint(u, id, row, wish), a)
    ensures row.namespace != Some(a) ==> Part(Mint(w, id, row, wish), u, a)
  {
    hide Part, Records, Mint;
    NeverMinted(w, id);
    GrantInserted(w, u, id, row, a);
    var w1 := w.(grants := w.grants[id := row]);
    if row.namespace == Some(a) {
      var u1 := u.(grants := u.grants[id := row]);
      GrantMinted(w1, u1, id, row, wish, a);
      MintRecorded(w, u, id, row, wish, a);
    } else {
      GrantMinted(w1, u, id, row, wish, a);
      MintRecorded(w, w, id, row, wish, a);
    }
  }

  lemma MintRecorded(w: World, u: World, id: Id, row: G.Row, wish: G.Wish, a: string)
    ensures var w2 := w.(grants := w.grants[id := row], minted := w.minted[id := (row, wish)]);
            var u2 := u.(grants := u.grants[id := row], minted := u.minted[id := (row, wish)]);
            && (Part(w2, u2, a) ==> Part(Mint(w, id, row, wish), Mint(u, id, row, wish), a))
            && (forall v :: Part(w2, v, a) ==> Part(Mint(w, id, row, wish), v, a))
  {
    hide Part;
    var w2 := w.(grants := w.grants[id := row], minted := w.minted[id := (row, wish)]);
    var u2 := u.(grants := u.grants[id := row], minted := u.minted[id := (row, wish)]);
    if Part(w2, u2, a) { Recorded(w2, u2, Mint(w, id, row, wish), Mint(u, id, row, wish), a); }
    forall v | Part(w2, v, a) ensures Part(Mint(w, id, row, wish), v, a) {
      Recorded(w2, v, Mint(w, id, row, wish), v, a);
    }
  }

  lemma NeverMinted(w: World, id: Id)
    requires Records(w) && id !in w.minted
    ensures id !in w.grants
  {
  }

  lemma InsertGrantIs(w: World, t: TaskId, id: Id, now: Time, s: Task)
    requires t in w.tasks && w.tasks[t] == s && s.Inserting? && id !in w.minted
    ensures StepInsertGrant(w, t, id, now)
            == if s.id !in w.approvals || !G.SourceFree(w.grants, s.id) then SetTask(w, t, Closing(s.id))
               else Mint(Issue(w, t, s.x), id, G.NewRow(s.terms, s.granting, s.id, w.approvals[s.id].namespace, now),
                 s.granting)
  {
    hide G.SourceFree, SetTask;
  }

  lemma InsertGrantPart(w: World, u: World, e: Event, a: string)
    requires Part(w, u, a) && Inv(w) && e.InsertGrant?
    ensures Part(StepInsertGrant(w, e.t, e.id, e.now),
              if Others(w, e, a) then u else StepInsertGrant(u, e.t, e.id, e.now), a)
  {
    hide Part, Records, Stories, Claims, Tokens, Mints, Tasks, Past, SetTask, Issue, Mint, Filed, Mine, G.SourceFree,
      G.NewRow;
    var t := e.t;
    if !OthersTask(w, t, a) { SameTask(w, u, t, a); }
    FreeToo(w, u, e.id, a);
    if t in w.tasks && w.tasks[t].Inserting? && e.id !in w.minted {
      var s := w.tasks[t];
      hide StepInsertGrant;
      SameApproval(w, u, s.id, a);
      ApproverMoves(w, u, t, s.id, Closing(s.id), a);
      if s.id in w.approvals { InsertedPart(w, u, e, s, a); }
      InsertGrantIs(w, t, e.id, e.now, s);
      if Filed(w, s.id, a) {
        SameSource(w, u, s.id, a);
        if e.id !in u.minted { InsertGrantIs(u, t, e.id, e.now, s); }
      }
    }
  }

  lemma InsertingNamespace(w: World, t: TaskId, s: Task, a: string)
    requires Records(w) && Tasks(w) && t in w.tasks && w.tasks[t] == s && s.Inserting?
    ensures s.x.op.Namespace() == Some(a) <==> Filed(w, s.id, a)
  {
    hide TaskToken, HolderOk, Looked;
    AboutTask(w, t);
    assert Requestable(w.requested[s.id]);
  }

  lemma InsertedPart(w: World, u: World, e: Event, s: Task, a: string)
    requires Part(w, u, a) && Inv(w) && e.InsertGrant? && e.t in w.tasks && w.tasks[e.t] == s && s.Inserting?
    requires e.id !in w.minted && s.id in w.approvals
    ensures var row := G.NewRow(s.terms, s.granting, s.id, w.approvals[s.id].namespace, e.now);
            var w' := Mint(Issue(w, e.t, s.x), e.id, row, s.granting);
            Part(w', if Filed(w, s.id, a) then Mint(Issue(u, e.t, s.x), e.id, row, s.granting) else u, a)
  {
    hide Stories, Claims, Tokens, Mints, Tasks, Past, Part, Filed, Mint, Records;
    InsertingNamespace(w, e.t, s, a);
    SameApproval(w, u, s.id, a);
    ApproverRuns(w, u, e.t, s.id, s.x, a);
    IssuedRecords(w, e.t, s.x);
    var row := G.NewRow(s.terms, s.granting, s.id, w.approvals[s.id].namespace, e.now);
    MintPart(Issue(w, e.t, s.x), if Filed(w, s.id, a) then Issue(u, e.t, s.x) else u, e.id, row, s.granting, a);
  }

  lemma IssuedRecords(w: World, t: TaskId, x: Execution)
    requires Records(w)
    ensures Records(Issue(w, t, x)) && Issue(w, t, x).minted == w.minted
  {
  }

  lemma FinishApprovalPart(w: World, u: World, t: TaskId, ok: bool, a: string)
    requires Part(w, u, a) && Records(w)
    ensures Part(StepFinishApproval(w, t, ok),
              if Others(w, FinishApproval(t, ok), a) then u else StepFinishApproval(u, t, ok), a)
  {
    hide Others, Part, Records, EndTask, Filed, A.Finish;
    OthersByTask(w, FinishApproval(t, ok), a);
    if !OthersTask(w, t, a) { SameTask(w, u, t, a); }
    if t in w.tasks && (w.tasks[t].Closing? || (w.tasks[t].Ran? && w.tasks[t].token.ApprovalToken?)) {
      ReleasePart(w, u, t, HoldsOf(w.tasks[t]).value, ok && w.tasks[t].Ran?, a);
    }
  }

  lemma CloserMine(w: World, s: Task, id: Id, a: string)
    requires s == Closing(id) || s == Ran(ApprovalToken(id))
    ensures Mine(w, s, a) <==> Filed(w, id, a)
  {
    hide Filed;
  }

  lemma FinishTable(t: A.Table, u: A.Table, id: Id, ok: bool, mine: bool, a: string)
    requires ApprovalsPart(t, u, a) && (id in t ==> (t[id].namespace == Some(a) <==> mine))
    ensures ApprovalsPart(A.Finish(t, id, ok), if mine then A.Finish(u, id, ok) else u, a)
  {
  }

  lemma ReleasePart(w: World, u: World, t: TaskId, id: Id, ok: bool, a: string)
    requires Part(w, u, a) && Records(w) && t in w.tasks
             && (w.tasks[t] == Closing(id) || w.tasks[t] == Ran(ApprovalToken(id)))
    ensures OthersTask(w, t, a) <==> !Filed(w, id, a)
    ensures var w' := EndTask(w, t).(approvals := A.Finish(w.approvals, id, ok));
            Part(w', if Filed(w, id, a) then EndTask(u, t).(approvals := A.Finish(u.approvals, id, ok)) else u, a)
  {
    hide Part, Records, Filed, Mine, ApprovalsPart, A.Finish;
    SameApproval(w, u, id, a);
    ApprovalTables(w, u, a);
    CloserMine(w, w.tasks[t], id, a);
    var mine := Filed(w, id, a);
    if mine { BothEnd(w, u, t, a); } else { OneEnd(w, u, t, a); }
    FinishTable(w.approvals, u.approvals, id, ok, mine, a);
    var u1 := if mine then EndTask(u, t) else u;
    ApprovalsMove(EndTask(w, t), u1, A.Finish(w.approvals, id, ok),
      if mine then A.Finish(u.approvals, id, ok) else u.approvals, a);
    assert u.(approvals := u.approvals) == u;
  }

  // ---- Administration and clock ----

  lemma RejectApprovalPart(w: World, u: World, id: Id, now: Time, a: string)
    requires Part(w, u, a) && Records(w)
    ensures var w' := w.(approvals := A.Reject(w.approvals, id, now));
            var u' := u.(approvals := A.Reject(u.approvals, id, now));
            Part(w', if id in w.approvals && w.approvals[id].namespace != Some(a) then u else u', a)
  {
    hide Part, Records, A.SetStatus, Filed;
    SameApproval(w, u, id, a);
    assert w.(approvals := w.approvals) == w && u.(approvals := u.approvals) == u;
    if A.IsPending(w.approvals, id) && w.approvals[id].expiresAt > now { StatusPart(w, u, id, A.Rejected, a); }
  }

  lemma ApprovalSweepsPart(t: A.Table, u: A.Table, now: Time, a: string)
    requires ApprovalsPart(t, u, a)
    ensures ApprovalsPart(A.Cleanup(t), A.Cleanup(u), a) && ApprovalsPart(A.Expire(t, now), A.Expire(u, now), a)
  {
  }

  lemma GrantSweepsPart(t: G.Table, u: G.Table, now: Time, a: string)
    requires GrantsPart(t, u, a)
    ensures GrantsPart(G.Cleanup(t), G.Cleanup(u), a) && GrantsPart(G.Expire(t, now), G.Expire(u, now), a)
  {
  }

  lemma RevokePart(t: G.Table, u: G.Table, id: Id, a: string)
    requires GrantsPart(t, u, a)
    ensures GrantsPart(G.Revoke(t, id), if id in t && t[id].namespace != Some(a) then u else G.Revoke(u, id), a)
  {
  }

  lemma PlanSweepsPart(t: P.Table, u: P.Table, now: Time, a: string)
    requires PlansPart(t, u, a)
    ensures PlansPart(P.FailOverdue(t, now), P.FailOverdue(u, now), a) && NamespacesStay(t, P.FailOverdue(t, now))
    ensures PlansPart(P.ExpireOpen(t, now), P.ExpireOpen(u, now), a) && NamespacesStay(t, P.ExpireOpen(t, now))
  {
  }

  lemma ApprovalAdministrationPart(w: World, u: World, e: Event, a: string)
    requires Part(w, u, a) && Records(w) && (e.RejectApproval? || e.CleanApprovals? || e.SweepApprovals?)
    ensures Part(Step(w, e), if Others(w, e, a) then u else Step(u, e), a)
  {
    hide A.Reject, A.Cleanup, A.Expire, Others, Part, Records, StepArrive, StepClaimPlan, StepConsumeGrant,
      StepRequestApproval, StepRequestMutation, StepMutateProfile, StepExecute, StepFinishPlan, StepOpen, StepSelect,
      StepWin, StepRehash, StepRedecide, StepValidateGrant, StepInsertGrant, StepFinishApproval, StepPropose,
      StepApprovePlan, StepRejectPlan, StepSweepLeases, StepSweepPlans;
    ApprovalTables(w, u, a);
    match e
    case RejectApproval(caller, id, now) =>
      OthersRow(w, caller, id, now, a);
      RejectApprovalPart(w, u, id, now, a);
    case CleanApprovals(caller) =>
      CleanupsForAll(w, caller, a);
      ApprovalSweepsPart(w.approvals, u.approvals, 0, a);
      ApprovalsMove(w, u, A.Cleanup(w.approvals), A.Cleanup(u.approvals), a);
    case SweepApprovals(now) =>
      SweepsForAll(w, now, a);
      ApprovalSweepsPart(w.approvals, u.approvals, now, a);
      ApprovalsMove(w, u, A.Expire(w.approvals, now), A.Expire(u.approvals, now), a);
  }

  lemma ApprovalTables(w: World, u: World, a: string)
    requires Part(w, u, a)
    ensures ApprovalsPart(w.approvals, u.approvals, a) && GrantsPart(w.grants, u.grants, a)
  {
    hide ApprovalsPart, GrantsPart, MintedPart, PlansPart, TasksPart;
  }

  lemma GrantStep(w: World, e: Event)
    requires e.RevokeGrant? || e.CleanGrants? || e.SweepGrants?
    ensures Step(w, e) == match e
              case RevokeGrant(caller, id) => if caller.HumanCli? then w.(grants := G.Revoke(w.grants, id)) else w
              case CleanGrants(caller) => if caller.HumanCli? then w.(grants := G.Cleanup(w.grants)) else w
              case SweepGrants(now) => w.(grants := G.Expire(w.grants, now))
              case _ => w
  {
    hide G.Revoke, G.Cleanup, G.Expire, StepArrive, StepClaimPlan, StepConsumeGrant, StepRequestApproval,
      StepRequestMutation, StepMutateProfile, StepExecute, StepFinishPlan, StepOpen, StepSelect, StepWin, StepRehash,
      StepRedecide, StepValidateGrant, StepInsertGrant, StepFinishApproval, StepPropose, StepApprovePlan,
      StepRejectPlan, StepSweepLeases, StepSweepPlans;
  }

  lemma GrantAdministrationPart(w: World, u: World, e: Event, a: string)
    requires Part(w, u, a) && (e.RevokeGrant? || e.CleanGrants? || e.SweepGrants?)
    ensures Part(Step(w, e), if Others(w, e, a) then u else Step(u, e), a)
  {
    hide G.Revoke, G.Cleanup, G.Expire, Others, Part, Step;
    GrantStep(w, e);
    GrantStep(u, e);
    ApprovalTables(w, u, a);
    assert u.(grants := u.grants) == u;
    match e
    case RevokeGrant(caller, id) =>
      OthersRow(w, caller, id, 0, a);
      RevokePart(w.grants, u.grants, id, a);
      GrantsMove(w, u, G.Revoke(w.grants, id),
        if id in w.grants && w.grants[id].namespace != Some(a) then u.grants else G.Revoke(u.grants, id), a);
    case CleanGrants(caller) =>
      CleanupsForAll(w, caller, a);
      GrantSweepsPart(w.grants, u.grants, 0, a);
      GrantsMove(w, u, G.Cleanup(w.grants), G.Cleanup(u.grants), a);
    case SweepGrants(now) =>
      SweepsForAll(w, now, a);
      GrantSweepsPart(w.grants, u.grants, now, a);
      GrantsMove(w, u, G.Expire(w.grants, now), G.Expire(u.grants, now), a);
  }

  lemma ProposePart(w: World, u: World, e: Event, row: Option<P.Row>, a: string)
    requires Part(w, u, a) && Known(w) && e.Propose? && (row.Some? ==> row.value.namespace == Some(e.session))
    ensures Part(StepPropose(w, e.caller, e.session, e.id, row),
              if Others(w, e, a) then u else StepPropose(u, e.caller, e.session, e.id, row), a)
  {
    hide Part, Known;
    FreeToo(w, u, e.id, a);
    if e.id !in w.plans && row.Some? {
      PlanMoves(w, u, e.id, row.value, w.journal[e.id := [Proposed]], u.journal[e.id := [Proposed]], a);
    }
  }

  lemma PlanOnBoth(w: World, u: World, id: Id, a: string)
    requires Part(w, u, a)
    ensures Planned(w, id, a) ==> id in u.plans && u.plans[id] == w.plans[id]
    ensures id !in w.plans ==> id !in u.plans
  {
    hide ApprovalsPart, GrantsPart, MintedPart, TasksPart;
  }

  lemma ApprovePlanPart(w: World, u: World, caller: Caller, id: Id, now: Time, a: string)
    requires Part(w, u, a) && Known(w)
    ensures Part(StepApprovePlan(w, caller, id, now),
              if Others(w, ApprovePlan(caller, id, now), a) then u else StepApprovePlan(u, caller, id, now), a)
  {
    hide Part, Known, Note;
    PlanOnBoth(w, u, id, a);
    if P.Approvable(w.plans, id, now) {
      PlanMoves(w, u, id, w.plans[id].(status := P.Approved), Note(w, id, ApprovedByHuman),
        Note(u, id, ApprovedByHuman), a);
    }
  }

  lemma RejectPlanPart(w: World, u: World, caller: Caller, id: Id, a: string)
    requires Part(w, u, a) && Known(w)
    ensures Part(StepRejectPlan(w, caller, id),
              if Others(w, RejectPlan(caller, id), a) then u else StepRejectPlan(u, caller, id), a)
  {
    hide Part, Known, Note;
    PlanOnBoth(w, u, id, a);
    if P.Rejectable(w.plans, id) {
      PlanMoves(w, u, id, w.plans[id].(status := P.Rejected), Note(w, id, Refused), Note(u, id, Refused), a);
    }
  }

  lemma SweepLeasesPart(w: World, u: World, now: Time, a: string)
    requires Part(w, u, a) && Known(w)
    ensures Part(StepSweepLeases(w, now), StepSweepLeases(u, now), a)
  {
    hide P.FailOverdue, Part, PlansPart, Known, NamespacesStay;
    PlanTables(w, u, a);
    PlanSweepsPart(w.plans, u.plans, now, a);
    PlansMove(w, u, P.FailOverdue(w.plans, now), P.FailOverdue(u.plans, now), a);
    Recorded(w.(plans := P.FailOverdue(w.plans, now)), u.(plans := P.FailOverdue(u.plans, now)),
      StepSweepLeases(w, now), StepSweepLeases(u, now), a);
  }

  lemma SweepPlansPart(w: World, u: World, now: Time, a: string)
    requires Part(w, u, a) && Known(w)
    ensures Part(StepSweepPlans(w, now), StepSweepPlans(u, now), a)
  {
    hide P.ExpireOpen, Part, PlansPart, Known, NamespacesStay;
    PlanTables(w, u, a);
    PlanSweepsPart(w.plans, u.plans, now, a);
    PlansMove(w, u, P.ExpireOpen(w.plans, now), P.ExpireOpen(u.plans, now), a);
    Recorded(w.(plans := P.ExpireOpen(w.plans, now)), u.(plans := P.ExpireOpen(u.plans, now)),
      StepSweepPlans(w, now), StepSweepPlans(u, now), a);
  }

  lemma PlanTables(w: World, u: World, a: string)
    requires Part(w, u, a)
    ensures PlansPart(w.plans, u.plans, a)
  {
    hide ApprovalsPart, GrantsPart, MintedPart, PlansPart, TasksPart;
  }

  // ---- Every step ----

  lemma NewPlanNamespace(e: Event)
    requires e.Propose?
    ensures var row := P.NewRow(e.profile, e.planTask, e.actions, e.ttl, e.maxTtl, e.now, e.files, Some(e.session));
            row.Some? ==> row.value.namespace == Some(e.session)
  {
  }

  lemma PlanningPart(w: World, u: World, e: Event, a: string)
    requires Part(w, u, a) && Known(w)
    requires e.Propose? || e.ApprovePlan? || e.RejectPlan? || e.SweepLeases? || e.SweepPlans?
    ensures Part(Step(w, e), if Others(w, e, a) then u else Step(u, e), a)
  {
    hide Part, Known, Others, P.NewRow, StepArrive, StepClaimPlan, StepConsumeGrant, StepRequestApproval,
      StepRequestMutation, StepMutateProfile, StepExecute, StepFinishPlan, StepOpen, StepSelect, StepWin, StepRehash,
      StepRedecide, StepValidateGrant, StepInsertGrant, StepFinishApproval, StepPropose, StepApprovePlan,
      StepRejectPlan, StepSweepLeases, StepSweepPlans;
    match e
    case Propose(_, session, _, profile, planTask, actions, ttl, maxTtl, now, files) =>
      NewPlanNamespace(e);
      ProposePart(w, u, e, P.NewRow(profile, planTask, actions, ttl, maxTtl, now, files, Some(session)), a);
    case ApprovePlan(caller, id, now) => ApprovePlanPart(w, u, caller, id, now, a);
    case RejectPlan(caller, id) => RejectPlanPart(w, u, caller, id, a);
    case SweepLeases(now) => SweepsForAll(w, now, a); SweepLeasesPart(w, u, now, a);
    case SweepPlans(now) => SweepsForAll(w, now, a); SweepPlansPart(w, u, now, a);
  }

  lemma OperationPart(w: World, u: World, e: Event, a: string)
    requires Part(w, u, a) && Inv(w) && Known(w)
    requires e.Arrive? || e.ClaimPlan? || e.ConsumeGrant? || e.RequestApproval? || e.RequestMutation?
             || e.MutateProfile? || e.Execute? || e.FinishPlan? || e.Crash?
    ensures Part(Step(w, e), if Others(w, e, a) then u else Step(u, e), a)
  {
    hide Part, Known, Records, Stories, Claims, Tokens, Mints, Tasks, Past, Others, StepArrive, StepClaimPlan,
      StepConsumeGrant, StepRequestApproval, StepRequestMutation, StepMutateProfile, StepExecute, StepFinishPlan,
      StepOpen, StepSelect, StepWin, StepRehash, StepRedecide, StepValidateGrant, StepInsertGrant, StepFinishApproval,
      StepPropose, StepApprovePlan, StepRejectPlan, StepSweepLeases, StepSweepPlans, EndTask;
    match e
    case Arrive(t, op) => ArrivePart(w, u, t, op, a);
    case ClaimPlan(_, _, _, _, _) => ClaimPlanPart(w, u, e, a);
    case ConsumeGrant(_, _, _, _) => ConsumeGrantPart(w, u, e, a);
    case RequestApproval(_, _, _, _) => RequestApprovalPart(w, u, e, a);
    case RequestMutation(_, _, _, _, _) => RequestMutationPart(w, u, e, a);
    case MutateProfile(t, op) => MutateProfilePart(w, u, t, op, a);
    case Execute(t) => ExecutePart(w, u, t, a);
    case FinishPlan(t, success) => FinishPlanPart(w, u, t, success, a);
    case Crash(t) => CrashPart(w, u, t, a);
  }

  lemma ApproverPart(w: World, u: World, e: Event, a: string)
    requires Part(w, u, a) && Inv(w)
    requires e.Open? || e.Select? || e.Win? || e.Rehash? || e.Redecide? || e.ValidateGrant? || e.InsertGrant?
             || e.FinishApproval?
    ensures Part(Step(w, e), if Others(w, e, a) then u else Step(u, e), a)
  {
    hide Part, Records, Stories, Claims, Tokens, Mints, Tasks, Past, Others, StepArrive, StepClaimPlan,
      StepConsumeGrant, StepRequestApproval, StepRequestMutation, StepMutateProfile, StepExecute, StepFinishPlan,
      StepOpen, StepSelect, StepWin, StepRehash, StepRedecide, StepValidateGrant, StepInsertGrant, StepFinishApproval,
      StepPropose, StepApprovePlan, StepRejectPlan, StepSweepLeases, StepSweepPlans;
    match e
    case Open(_, _, _, _, _) => OpenPart(w, u, e, a);
    case Select(_, _, _) => SelectPart(w, u, e, a);
    case Win(t) => WinPart(w, u, t, a);
    case Rehash(_, _) => RehashPart(w, u, e, a);
    case Redecide(_, _) => RedecidePart(w, u, e, a);
    case ValidateGrant(t) => ValidateGrantPart(w, u, t, a);
    case InsertGrant(_, _, _) => InsertGrantPart(w, u, e, a);
    case FinishApproval(t, ok) => FinishApprovalPart(w, u, t, ok, a);
  }

  /** Whatever is known of plans and approvals is there. */
  lemma AllKnown(w: World)
    requires Inv(w) && Ordered(w)
    ensures Known(w)
  {
    hide Records, Stories, Mints, Past, DoneSpent, SpentInOrder, Justified;
    forall t | t in w.tasks ensures KnownTo(w, w.tasks[t]) {
      AboutTask(w, t);
      if w.tasks[t].Ran? && w.tasks[t].token.PlanToken? { assert Accounted(w, w.tasks[t].token); }
    }
  }

  /**
   * One event: if it is somebody else's, the namespace's part stays as it is, and otherwise it does to the part alone
   * what it does to it within the whole.
   */
  lemma StepPart(w: World, u: World, e: Event, a: string)
    requires Part(w, u, a) && Inv(w) && Ordered(w)
    ensures Part(Step(w, e), if Others(w, e, a) then u else Step(u, e), a)
  {
    hide Part, Inv, Ordered, Step, Others, Known, Records;
    AllKnown(w);
    RecordsHold(w);
    if e.RejectApproval? || e.CleanApprovals? || e.SweepApprovals? { ApprovalAdministrationPart(w, u, e, a); }
    else if e.RevokeGrant? || e.CleanGrants? || e.SweepGrants? { GrantAdministrationPart(w, u, e, a); }
    else if e.Open? || e.Select? || e.Win? || e.Rehash? || e.Redecide? || e.ValidateGrant? || e.InsertGrant?
      || e.FinishApproval? { ApproverPart(w, u, e, a); }
    else if e.Propose? || e.ApprovePlan? || e.RejectPlan? || e.SweepLeases? || e.SweepPlans? {
      PlanningPart(w, u, e, a);
    }
    else { OperationPart(w, u, e, a); }
  }

  lemma RecordsHold(w: World)
    requires Inv(w)
    ensures Records(w)
  {
    hide Stories, Claims, Tokens, Mints, Tasks, Past;
  }

  // ---- Every run ----

  /** The events of a run that are not somebody else's. */
  ghost function Purged(w: World, events: seq<Event>, a: string): seq<Event>
    decreases |events|
  {
    if events == [] then []
    else (if Others(w, events[0], a) then [] else [events[0]]) + Purged(Step(w, events[0]), events[1..], a)
  }

  lemma {:induction false} RunPart(w: World, u: World, events: seq<Event>, a: string)
    requires Part(w, u, a) && Inv(w) && Ordered(w)
    ensures Part(Run(w, events), Run(u, Purged(w, events, a)), a)
    decreases |events|
  {
    hide Part, Inv, Ordered, Step, Others, Uses, ClaimsStay, RowsStay, PlansStay, PlansFrom, HistoryFrom, GrantsStay,
      NoNewUses, ApprovalsStay, LeasesStay;
    if events != [] {
      var e, w' := events[0], Step(w, events[0]);
      StepPart(w, u, e, a);
      StepKeeps(w, e);
      StepEffect(w, e);
      RunPart(w', if Others(w, e, a) then u else Step(u, e), events[1..], a);
      var rest := Purged(w', events[1..], a);
      if Others(w, e, a) {
        assert Purged(w, events, a) == rest by { assert [] + rest == rest; }
      } else {
        assert Purged(w, events, a) == [e] + rest && ([e] + rest)[1..] == rest;
      }
    }
  }

  /**
   * In every run an agent's own tasks, rows and executions are exactly those of the run in which nobody but the agent,
   * the humans on its own rows and the clock took part.
   */
  lemma NoInterference(policy: Engine, events: seq<Event>, a: string)
    ensures Part(L.After(policy, events), L.After(policy, Purged(Init(policy), events, a)), a)
  {
    hide Inv, Ordered, Uses, Step, Purged;
    var w := Init(policy);
    assert L.After(policy, []) == w;
    L.FromStart(policy, []);
    hide Run;
    assert Part(w, w, a);
    hide Part;
    RunPart(w, w, events, a);
  }
}
