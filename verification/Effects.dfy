/** What a single step can and cannot change, beyond keeping the invariant. */
module Effects {
  import opened Types
  import opened Config
  import opened Policy
  import opened Gateway
  import opened Invariants
  import A = Approvals
  import G = Grants
  import P = Plans

  predicate Settled(s: P.Status) {
    s.Failed? || s.Expired? || s.Rejected? || s.Completed?
  }

  /** Every use number below a grant's count was issued, and no other. */
  ghost predicate Uses(grants: G.Table, ledger: map<Token, Fate>) {
    forall g, n: nat :: g in grants ==> (GrantToken(g, n) in ledger <==> n < grants[g].usedCount)
  }

  ghost predicate ClaimsStay(w: World, w': World) {
    forall id :: id in w.claimer ==> id in w'.claimer && w'.claimer[id] == w.claimer[id]
  }

  /** Only the winner's own finish touches a row that is being executed. */
  ghost predicate RowsStay(w: World, w': World, cause: Option<Event>) {
    forall id :: id in w.claimer && Finisher(cause) != Some(w.claimer[id])
                 && id in w.approvals && w.approvals[id].status.Executing? ==>
                   id in w'.approvals && w'.approvals[id] == w.approvals[id]
  }

  ghost predicate PlansStay(plans: P.Table, plans': P.Table) {
    forall id :: id in plans && Settled(plans[id].status) ==> id in plans' && plans'[id] == plans[id]
  }

  /** The event is a sweep that finds the row's lease run out. */
  predicate Lapses(cause: Option<Event>, r: P.Row) {
    cause.Some? && cause.value.SweepLeases? && P.Overdue(r, cause.value.now)
  }

  /** A claimed action that has not been run keeps its plan as it is until its lease is found to have run out. */
  ghost predicate LeasesStay(w: World, plans: P.Table, cause: Option<Event>) {
    forall p :: p in w.plans && w.plans[p].status.Executing? && !Lapses(cause, w.plans[p])
                && !IsSpent(w.ledger, PlanToken(p, w.plans[p].nextIndex)) ==>
                  p in plans && plans[p] == w.plans[p]
  }

  predicate SameProposal(r: P.Row, r': P.Row) {
    r'.actions == r.actions && r'.hash == r.hash && r'.profile == r.profile && r'.taskId == r.taskId
      && r'.namespace == r.namespace && r'.createdAt == r.createdAt && r'.expiresAt == r.expiresAt
  }

  /** The row an event proposes. */
  predicate Proposes(e: Event, p: Id, r: P.Row) {
    && e.Propose? && !e.caller.HumanCli? && e.id == p
    && r.actions == e.actions && PlanHash(e.actions, e.files) == Some(r.hash)
    && r.profile == e.profile && r.taskId == e.planTask && r.namespace == Some(e.session)
    && r.createdAt == e.now && r.expiresAt == e.now + if e.ttl <= e.maxTtl then e.ttl else e.maxTtl
  }

  /** Plans keep what was proposed, and new ones come from proposals only. */
  ghost predicate PlansFrom(plans: P.Table, plans': P.Table, cause: Option<Event>) {
    forall p :: p in plans' ==>
      (p in plans && SameProposal(plans[p], plans'[p]))
        || (p !in plans && cause.Some? && Proposes(cause.value, p, plans'[p]))
  }

  /** How long an approval waits: its time to live, cut off where a 64-bit clock ends. */
  predicate WaitsFor(r: A.Row, ttl: nat) {
    if r.createdAt + ttl < 0x1_0000_0000_0000_0000 then r.expiresAt == r.createdAt + ttl
    else r.expiresAt == 0xffff_ffff_ffff_ffff
  }

  /** The row an event files: an operation that waits for confirmation, or in Cloud mode a profile mutation. */
  predicate FilesRow(w: World, e: Event, id: Id, r: A.Row) {
    match e
    case RequestApproval(t, i, now, _) =>
      && i == id && t in w.tasks && w.tasks[t].AtRequest? && r.createdAt == now
      && var op, d := w.tasks[t].op, w.tasks[t].d;
         && WaitsFor(r, op.cfg.approvalTtl) && r.request == op.request && r.caller == op.caller
         && r.namespace == (if op.caller.HumanCli? then None else Some(op.session))
         && r.taskId == op.taskId && r.ruleId == d.ruleId && r.risk == d.risk
    case RequestMutation(i, session, request, cfg, now) =>
      && i == id && cfg.cloud && request.ManagesProfiles() && r.createdAt == now && WaitsFor(r, cfg.approvalTtl)
      && r.request == request && r.caller.Mcp? && r.namespace == Some(session) && r.ruleId.None?
      && r.risk == Some(High)
    case _ => false
  }

  /** Approvals keep what was filed, and new ones come from filing only. */
  ghost predicate RequestedFrom(w: World, requested: A.Table, cause: Option<Event>) {
    forall a :: a in requested ==>
      (a in w.requested && requested[a] == w.requested[a])
        || (a !in w.requested && cause.Some? && FilesRow(w, cause.value, a, requested[a]))
  }

  /** An approval is won by a task that had selected it. */
  ghost predicate ClaimsFrom(w: World, claimer: map<Id, TaskId>, cause: Option<Event>) {
    forall a :: a in claimer ==>
      a in w.claimer
        || (cause.Some? && cause.value.Win? && cause.value.t in w.tasks && w.tasks[cause.value.t].Selected?
            && w.tasks[cause.value.t].id == a)
  }

  /** A grant is made for a task that was about to insert it, as it was asked for. */
  ghost predicate MintedFrom(w: World, minted: map<Id, (G.Row, G.Wish)>, cause: Option<Event>) {
    forall g :: g in minted ==>
      (g in w.minted && minted[g] == w.minted[g])
        || (cause.Some? && cause.value.InsertGrant? && cause.value.t in w.tasks && w.tasks[cause.value.t].Inserting?
            && minted[g].0.source == w.tasks[cause.value.t].id && minted[g].1 == w.tasks[cause.value.t].granting)
  }

  /** A plan is approved by a human. */
  ghost predicate JournalFrom(journal: map<Id, seq<Entry>>, journal': map<Id, seq<Entry>>, cause: Option<Event>) {
    forall p :: p in journal' && ApprovedByHuman in journal'[p] ==>
      (p in journal && ApprovedByHuman in journal[p])
        || (cause.Some? && cause.value.ApprovePlan? && cause.value.caller.HumanCli? && cause.value.id == p)
  }

  /** A grant that was revoked, expired, used up or cleaned away. */
  predicate Dead(w: World, g: Id) {
    g in w.minted && !(g in w.grants && w.grants[g].status.Active?)
  }

  ghost predicate GrantsStay(w: World, w': World) {
    forall g :: Dead(w, g) ==> Dead(w', g)
  }

  ghost predicate NoNewUses(w: World, w': World) {
    forall g, n: nat :: Dead(w, g) && GrantToken(g, n) in w'.ledger ==> GrantToken(g, n) in w.ledger
  }

  /** An approval that was rejected, expired or cleaned away before anyone won it. */
  predicate Closed(w: World, a: Id) {
    a in w.requested && a !in w.claimer && !A.IsPending(w.approvals, a)
  }

  ghost predicate ApprovalsStay(w: World, w': World) {
    forall a :: Closed(w, a) ==> Closed(w', a)
  }

  predicate IsSpent(ledger: map<Token, Fate>, token: Token) {
    token in ledger && ledger[token].Spent?
  }

  ghost predicate RanSpent(tasks: map<TaskId, Task>, ledger: map<Token, Fate>) {
    forall t :: t in tasks && tasks[t].Ran? ==> IsSpent(ledger, tasks[t].token)
  }

  ghost predicate DoneSpent(plans: P.Table, ledger: map<Token, Fate>) {
    forall p, j: nat :: p in plans && j < plans[p].nextIndex ==> IsSpent(ledger, PlanToken(p, j))
  }

  ghost predicate SpentInOrder(ledger: map<Token, Fate>) {
    forall p, i: nat, j: nat :: i < j && IsSpent(ledger, PlanToken(p, i)) && IsSpent(ledger, PlanToken(p, j)) ==>
      ledger[PlanToken(p, i)].at < ledger[PlanToken(p, j)].at
  }

  /** Finished actions were executed, and the actions of a plan in the plan's order. */
  ghost predicate Ordered(w: World) {
    RanSpent(w.tasks, w.ledger) && DoneSpent(w.plans, w.ledger) && SpentInOrder(w.ledger)
  }

  /** Only what a task was ready to run enters the history. */
  ghost predicate HistoryFrom(w: World, w': World, cause: Option<Event>) {
    w'.history == w.history ||
    (cause.Some? && cause.value.Execute? && cause.value.t in w.tasks && w.tasks[cause.value.t].Ready?
     && w'.history == w.history + [w.tasks[cause.value.t].x])
  }

  ghost predicate Effect(w: World, w': World, cause: Option<Event>) {
    && w'.policy == w.policy && ClaimsStay(w, w') && RowsStay(w, w', cause) && PlansStay(w.plans, w'.plans)
    && (Uses(w.grants, w.ledger) ==> Uses(w'.grants, w'.ledger))
    && (Ordered(w) ==> Ordered(w') && LeasesStay(w, w'.plans, cause))
    && PlansFrom(w.plans, w'.plans, cause) && HistoryFrom(w, w', cause) && RequestedFrom(w, w'.requested, cause)
    && ClaimsFrom(w, w'.claimer, cause) && MintedFrom(w, w'.minted, cause)
    && JournalFrom(w.journal, w'.journal, cause)
    && GrantsStay(w, w') && NoNewUses(w, w') && ApprovalsStay(w, w')
  }

  /** The task whose finish an event is. Events that neither finish, propose nor execute are left out of account. */
  function Finisher(cause: Option<Event>): Option<TaskId> {
    if cause.Some? && cause.value.FinishApproval? then Some(cause.value.t) else None
  }

  // ---- The kinds of change a step is made of ----

  ghost predicate SameUses(ledger: map<Token, Fate>, ledger': map<Token, Fate>) {
    forall g, n: nat :: GrantToken(g, n) in ledger' <==> GrantToken(g, n) in ledger
  }

  ghost predicate SameSpending(ledger: map<Token, Fate>, ledger': map<Token, Fate>) {
    forall token :: IsSpent(ledger, token) || IsSpent(ledger', token) ==>
      token in ledger && token in ledger' && ledger[token] == ledger'[token]
  }

  ghost predicate NewTasksSpent(w: World, w': World) {
    forall t :: t in w'.tasks && w'.tasks[t].Ran? ==>
      (t in w.tasks && w'.tasks[t] == w.tasks[t]) || IsSpent(w'.ledger, w'.tasks[t].token)
  }

  /** Only tasks move, and tokens other than a grant's are issued. */
  ghost predicate Quiet(w: World, w': World) {
    && w'.policy == w.policy && w'.approvals == w.approvals && w'.claimer == w.claimer && w'.plans == w.plans
       && w'.grants == w.grants
    && w'.history == w.history && SameUses(w.ledger, w'.ledger) && SameSpending(w.ledger, w'.ledger)
       && NewTasksSpent(w, w')
    && w'.minted == w.minted && w'.requested == w.requested && w'.journal == w.journal
  }

  lemma QuietSet(w: World, t: TaskId, s: Task)
    requires s.Ran? ==> IsSpent(w.ledger, s.token)
    ensures Quiet(w, SetTask(w, t, s))
  {
  }

  lemma QuietEnd(w: World, t: TaskId)
    ensures Quiet(w, EndTask(w, t))
  {
  }

  lemma QuietIssue(w: World, t: TaskId, x: Execution)
    requires !x.token.GrantToken? && (!x.token.Unmetered? ==> x.token !in w.ledger)
    ensures Quiet(w, Issue(w, t, x))
  {
  }

  /** Claims, approvals and plans stay as they are. */
  lemma Standing(w: World, w': World, cause: Option<Event>)
    requires w'.claimer == w.claimer && w'.approvals == w.approvals && w'.requested == w.requested
             && w'.plans == w.plans && w'.journal == w.journal
    ensures ClaimsStay(w, w') && RowsStay(w, w', cause) && PlansStay(w.plans, w'.plans)
            && LeasesStay(w, w'.plans, cause) && PlansFrom(w.plans, w'.plans, cause) && ApprovalsStay(w, w')
            && RequestedFrom(w, w'.requested, cause) && ClaimsFrom(w, w'.claimer, cause)
               && JournalFrom(w.journal, w'.journal, cause)
  {
  }

  /** Grants stay as they are, and none of their uses is issued. */
  lemma Settling(w: World, w': World)
    requires w'.grants == w.grants && w'.minted == w.minted && SameUses(w.ledger, w'.ledger)
    ensures GrantsStay(w, w') && NoNewUses(w, w')
  {
  }

  lemma SameUsesKeepUses(grants: G.Table, ledger: map<Token, Fate>, ledger': map<Token, Fate>)
    requires SameUses(ledger, ledger') && Uses(grants, ledger)
    ensures Uses(grants, ledger')
  {
  }

  lemma QuietKeepsOrder(w: World, w': World)
    requires w'.plans == w.plans && SameSpending(w.ledger, w'.ledger) && NewTasksSpent(w, w') && Ordered(w)
    ensures Ordered(w')
  {
  }

  lemma SameUsesIssueNone(w: World, w1: World, w2: World)
    ensures SameUses(w.ledger, w1.ledger) && w1.grants == w.grants && w1.minted == w.minted ==> NoNewUses(w, w1)
    ensures NoNewUses(w, w1) && SameUses(w1.ledger, w2.ledger) ==> NoNewUses(w, w2)
    ensures SameUses(w.ledger, w1.ledger) && w1.grants == w.grants && w1.minted == w.minted && NoNewUses(w1, w2) ==>
            NoNewUses(w, w2)
  {
  }

  lemma NoEffect(w: World, w': World, cause: Option<Event>)
    requires Quiet(w, w')
    ensures Effect(w, w', cause)
  {
    hide Uses, SameUses, SameSpending, NewTasksSpent, NoNewUses, Ordered, ClaimsStay, RowsStay, PlansStay, LeasesStay,
      PlansFrom, RequestedFrom, ClaimsFrom, MintedFrom, JournalFrom, ApprovalsStay;
    Standing(w, w', cause);
    NothingFiled(w, cause);
    SameUsesIssueNone(w, w', w');
    if Uses(w.grants, w.ledger) { SameUsesKeepUses(w.grants, w.ledger, w'.ledger); }
    if Ordered(w) { QuietKeepsOrder(w, w'); }
  }

  lemma SameOver(w: World, w': World)
    requires Quiet(w, w')
    ensures (forall g :: Dead(w', g) <==> Dead(w, g)) && (forall a :: Closed(w', a) <==> Closed(w, a))
  {
    hide SameUses, SameSpending, NewTasksSpent;
  }

  lemma OverStays(w: World, w1: World, w2: World)
    requires Quiet(w1, w2) && GrantsStay(w, w1) && ApprovalsStay(w, w1)
    ensures GrantsStay(w, w2) && ApprovalsStay(w, w2)
  {
    SameOver(w1, w2);
    hide Dead, Closed, Quiet;
  }

  /** Tasks move after a change that leaves the plans alone. */
  lemma ThenQuiet(w: World, w1: World, w2: World, cause: Option<Event>)
    requires Effect(w, w1, cause) && w1.plans == w.plans && Quiet(w1, w2)
    ensures Effect(w, w2, cause)
  {
    hide Uses, SameUses, SameSpending, NewTasksSpent, NoNewUses, Ordered, Dead, Closed, RequestedFrom, ClaimsFrom,
      MintedFrom, JournalFrom, PlansFrom, PlansStay, LeasesStay, GrantsStay, ApprovalsStay;
    OverStays(w, w1, w2);
    SameUsesIssueNone(w, w1, w2);
    if Uses(w.grants, w.ledger) { SameUsesKeepUses(w1.grants, w1.ledger, w2.ledger); }
    if Ordered(w) { QuietKeepsOrder(w1, w2); }
  }

  /** Tasks move before a change that leaves them and the history alone. */
  lemma QuietThen(w: World, w1: World, w2: World, cause: Option<Event>)
    requires Quiet(w, w1) && Effect(w1, w2, cause) && w2.history == w1.history && w2.requested == w1.requested
             && w2.claimer == w1.claimer && w2.minted == w1.minted
    ensures Effect(w, w2, cause)
  {
    SameOver(w, w1);
    hide Uses, SameUses, SameSpending, NewTasksSpent, NoNewUses, Ordered, Dead, Closed, JournalFrom, PlansFrom,
      PlansStay, LeasesStay, RequestedFrom, ClaimsFrom, MintedFrom;
    NothingFiled(w, cause);
    SameUsesIssueNone(w, w1, w2);
    if Uses(w.grants, w.ledger) { SameUsesKeepUses(w.grants, w.ledger, w1.ledger); }
    if Ordered(w) {
      QuietKeepsOrder(w, w1);
      SameLeases(w, w1, w2.plans, cause);
    }
  }

  lemma NothingFiled(w: World, cause: Option<Event>)
    ensures RequestedFrom(w, w.requested, cause) && ClaimsFrom(w, w.claimer, cause)
            && MintedFrom(w, w.minted, cause) && JournalFrom(w.journal, w.journal, cause)
  {
    hide FilesRow;
  }

  lemma SameLeases(w: World, w1: World, plans: P.Table, cause: Option<Event>)
    requires w1.plans == w.plans && SameSpending(w.ledger, w1.ledger) && LeasesStay(w1, plans, cause)
    ensures LeasesStay(w, plans, cause)
  {
  }

  lemma ThenEnd(w: World, w1: World, t: TaskId, cause: Option<Event>)
    requires Effect(w, w1, cause)
    ensures Effect(w, EndTask(w1, t), cause)
  {
    hide Uses, DoneSpent, SpentInOrder, RequestedFrom, ClaimsFrom, MintedFrom, JournalFrom, PlansFrom, PlansStay,
      LeasesStay;
  }

  lemma ApprovalsEffect(w: World, approvals: A.Table, cause: Option<Event>)
    requires RowsStay(w, w.(approvals := approvals), cause) && forall a :: A.IsPending(approvals, a) ==>
             A.IsPending(w.approvals, a)
    ensures Effect(w, w.(approvals := approvals), cause)
  {
    hide Uses, RanSpent, DoneSpent, SpentInOrder;
  }

  /** A plan advances only past an executed action. */
  ghost predicate Advances(w: World, plans: P.Table) {
    forall p, j: nat :: p in plans && j < plans[p].nextIndex ==>
      (p in w.plans && j < w.plans[p].nextIndex) || IsSpent(w.ledger, PlanToken(p, j))
  }

  lemma AdvancesKeepDone(w: World, plans: P.Table)
    requires Advances(w, plans) && DoneSpent(w.plans, w.ledger)
    ensures DoneSpent(plans, w.ledger)
  {
  }

  lemma PlansEffect(w: World, plans: P.Table, journal: map<Id, seq<Entry>>, cause: Option<Event> := None)
    requires PlansStay(w.plans, plans) && PlansFrom(w.plans, plans, cause) && JournalFrom(w.journal, journal, cause)
    requires Ordered(w) ==> Advances(w, plans) && LeasesStay(w, plans, cause)
    ensures Effect(w, w.(plans := plans, journal := journal), cause)
  {
    hide Uses, RanSpent, DoneSpent, SpentInOrder, Advances, PlansStay, LeasesStay, PlansFrom, JournalFrom;
    if Ordered(w) { AdvancesKeepDone(w, plans); }
  }

  ghost predicate SameCounts(grants: G.Table, grants': G.Table) {
    forall g :: g in grants' ==>
      g in grants && grants'[g].usedCount == grants[g].usedCount
        && (grants'[g].status.Active? ==> grants[g].status.Active?)
  }

  lemma SameCountsKeepUses(grants: G.Table, grants': G.Table, ledger: map<Token, Fate>)
    requires SameCounts(grants, grants') && Uses(grants, ledger)
    ensures Uses(grants', ledger)
  {
  }

  lemma SameCountsKeepDead(w: World, grants: G.Table)
    requires SameCounts(w.grants, grants)
    ensures GrantsStay(w, w.(grants := grants))
  {
  }

  lemma GrantsEffect(w: World, grants: G.Table)
    requires SameCounts(w.grants, grants)
    ensures Effect(w, w.(grants := grants), None)
  {
    hide Uses, SameCounts, RanSpent, DoneSpent, SpentInOrder, GrantsStay;
    SameCountsKeepDead(w, grants);
    if Uses(w.grants, w.ledger) { SameCountsKeepUses(w.grants, grants, w.ledger); }
  }

  // ---- Event by event ----

  lemma ArriveEffect(w: World, t: TaskId, op: Op)
    ensures Effect(w, StepArrive(w, t, op), None)
  {
    hide Quiet, Effect;
    var verdict := w.policy(op.cfg, op.caller, op.request);
    QuietEnd(w, t);
    if !(t in w.tasks || !op.request.IsOperation() || verdict.None? || verdict.value.effect.Deny?) {
      QuietIssue(w, t, Execution(op, verdict, Unmetered, None));
      QuietSet(w, t, AtPlan(op, verdict.value));
      NoEffect(w, Issue(w, t, Execution(op, verdict, Unmetered, None)), None);
      NoEffect(w, SetTask(w, t, AtPlan(op, verdict.value)), None);
    }
    Unmoved(w);
  }

  lemma Unmoved(w: World, cause: Option<Event> := None)
    ensures Effect(w, w, cause)
  {
    hide Uses, Ordered;
  }

  lemma ClaimPlanEffect(w: World, t: TaskId, pick: Option<Id>, now: Time, leaseNow: Time, files: Files)
    requires Tokens(w) && Stories(w)
    ensures Effect(w, StepClaimPlan(w, t, pick, now, leaseNow, files), None)
  {
    hide Quiet, Effect;
    Unmoved(w);
    if t in w.tasks && w.tasks[t].AtPlan? {
      var op, d := w.tasks[t].op, w.tasks[t].d;
      if !op.caller.EnforcesAgentPolicy() || op.taskId.None? {
        QuietSet(w, t, AtGrant(op, d, None));
        NoEffect(w, SetTask(w, t, AtGrant(op, d, None)), None);
      } else if P.Newest(w.plans, P.Query(op.Profile(), op.taskId.value, op.Namespace()), now, pick) {
        ClaimTransactionEffect(w, t, op, d, pick, now, leaseNow, files);
      }
    }
  }

  lemma ClaimTransactionEffect(w: World, t: TaskId, op: Op, d: Decision, pick: Option<Id>, now: Time, leaseNow: Time,
      files: Files)
    requires t in w.tasks && w.tasks[t] == AtPlan(op, d) && Tokens(w) && Stories(w)
    requires op.caller.EnforcesAgentPolicy() && op.taskId.Some?
    requires P.Newest(w.plans, P.Query(op.Profile(), op.taskId.value, op.Namespace()), now, pick)
    ensures Effect(w, StepClaimPlan(w, t, pick, now, leaseNow, files), None)
  {
    hide Quiet, Effect;
    assert pick.Some? ==> pick.value in w.plans && !Settled(w.plans[pick.value].status);
    var sight := Some(Sight(w.plans, now));
    match P.Claim(w.plans, pick, op.request, files)
    case NoPlan =>
      var x := Execution(op, Some(d), Unmetered, sight);
      QuietIssue(w, t, x);
      NoEffect(w, Issue(w, t, x), None);
      QuietSet(w, t, AtGrant(op, d, sight));
      NoEffect(w, SetTask(w, t, AtGrant(op, d, sight)), None);
    case Refused(_) =>
      QuietEnd(w, t);
      NoEffect(w, EndTask(w, t), None);
    case Claimed(id, index) =>
      P.ClaimedNext(w.plans, pick.value, op.request, files);
      ClaimedTransactionEffect(w, t, Execution(op, Some(d), PlanToken(id, index), sight), id,
        A.SaturatingAdd(leaseNow, P.LeaseSeconds(op.request)));
  }

  lemma MarkStays(w: World, id: Id, leaseUntil: Time)
    requires id in w.plans && w.plans[id].status.Approved?
    ensures var plans := P.MarkClaimed(w.plans, id, w.plans[id].nextIndex, leaseUntil);
            PlansStay(w.plans, plans) && Advances(w, plans) && LeasesStay(w, plans, None)
              && PlansFrom(w.plans, plans, None)
  {
  }

  lemma ClaimedTransactionEffect(w: World, t: TaskId, x: Execution, id: Id, leaseUntil: Time)
    requires Tokens(w) && Stories(w) && id in w.plans && (w.plans[id].status.Approved? || w.plans[id].status.Executing?)
             && w.plans[id].claimedIndex.None?
    requires x.token == PlanToken(id, w.plans[id].nextIndex) && x.sight.Some? && x.sight.value.plans == w.plans
    ensures var index := w.plans[id].nextIndex;
            Effect(w,
              Issue(w.(plans := P.MarkClaimed(w.plans, id, index, leaseUntil), journal := Note(w, id, Claimed(index))),
                t, x),
              None)
  {
    var index := w.plans[id].nextIndex;
    assert P.RowOk(w.plans[id]);
    hide Quiet, Effect, Tokens, Stories, Note, PlansStay, Advances;
    ClaimedIndexIsFresh(w, id);
    QuietIssue(w, t, x);
    var w1 := Issue(w, t, x);
    var plans, journal := P.MarkClaimed(w.plans, id, index, leaseUntil), Note(w, id, Claimed(index));
    MarkStays(w1, id, leaseUntil);
    PlansEffect(w1, plans, journal);
    QuietThen(w, w1, w1.(plans := plans, journal := journal), None);
    assert Issue(w.(plans := plans, journal := journal), t, x) == w1.(plans := plans, journal := journal);
  }

  lemma ChargeCounts(grants: G.Table, ledger: map<Token, Fate>, id: Id, fate: Fate)
    requires id in grants && Uses(grants, ledger)
    ensures Uses(G.Charge(grants, id), ledger[GrantToken(id, grants[id].usedCount) := fate])
  {
  }

  lemma ChargeEffect(w: World, t: TaskId, op: Op, d: Decision, sight: Option<Sight>, id: Id)
    requires Tokens(w) && id in w.grants && w.grants[id].status.Active?
    ensures Effect(w,
            Issue(w.(grants := G.Charge(w.grants, id)), t,
              Execution(op, Some(d), GrantToken(id, w.grants[id].usedCount), sight)),
            None)
  {
    hide Uses, Ordered, Tokens, ClaimsStay, RowsStay, PlansStay, LeasesStay, PlansFrom, RequestedFrom, ClaimsFrom,
      JournalFrom, ApprovalsStay;
    var w' :=
      Issue(w.(grants := G.Charge(w.grants, id)), t,
        Execution(op, Some(d), GrantToken(id, w.grants[id].usedCount), sight));
    UnusedUse(w, id);
    Standing(w, w', None);
    if Uses(w.grants, w.ledger) { ChargeCounts(w.grants, w.ledger, id, Held(t)); }
    if Ordered(w) { QuietKeepsOrder(w, w'); }
  }

  lemma ConsumeGrantEffect(w: World, t: TaskId, ids: seq<Id>, now: Time, ticks: seq<Time>)
    requires Tokens(w)
    ensures Effect(w, StepConsumeGrant(w, t, ids, now, ticks), None)
  {
    hide Quiet, Effect, Tokens;
    Unmoved(w);
    if t in w.tasks && w.tasks[t].AtGrant? {
      var op, d, sight := w.tasks[t].op, w.tasks[t].d, w.tasks[t].sight;
      if d.ruleId.None? {
        QuietEnd(w, t);
        NoEffect(w, EndTask(w, t), None);
      } else if G.Answers(w.grants, GrantQuery(op, d), now, ids) && |ticks| == |ids| {
        var k := G.FirstSpendable(w.grants, ids, ticks);
        if k == |ids| {
          QuietSet(w, t, AtRequest(op, d));
          NoEffect(w, SetTask(w, t, AtRequest(op, d)), None);
        } else {
          ChargeEffect(w, t, op, d, sight, ids[k]);
        }
      }
    }
  }

  lemma InsertEffect(w: World, id: Id, row: Option<A.Row>, e: Event)
    requires Records(w) && (row.Some? ==> FilesRow(w, e, id, row.value))
    ensures Effect(w, InsertApproval(w, id, row), Some(e))
  {
    hide Effect, Records, FilesRow;
    Unmoved(w, Some(e));
    if id !in w.requested && row.Some? {
      RequestedFirst(w, id);
      InsertedEffect(w, id, row.value, e);
    }
  }

  lemma RequestedFirst(w: World, id: Id)
    requires Records(w) && id !in w.requested
    ensures id !in w.approvals
  {
  }

  lemma InsertedEffect(w: World, id: Id, row: A.Row, e: Event)
    requires id !in w.approvals && id !in w.requested && FilesRow(w, e, id, row)
    ensures Effect(w, w.(approvals := w.approvals[id := row], requested := w.requested[id := row]), Some(e))
  {
    hide Uses, RanSpent, DoneSpent, SpentInOrder, FilesRow;
  }

  lemma RequestFiles(w: World, e: Event, op: Op, d: Decision)
    requires e.RequestApproval? && e.t in w.tasks && w.tasks[e.t] == AtRequest(op, d)
    ensures var row := A.NewRow(op.request, e.files, e.now, op.cfg.approvalTtl, op.caller, d.ruleId, d.risk, op.taskId,
              op.Namespace());
            row.Some? ==> FilesRow(w, e, e.id, row.value)
  {
  }

  lemma MutationFiles(w: World, e: Event)
    requires e.RequestMutation? && e.request.ManagesProfiles() && e.cfg.cloud
    ensures var row :=
              A.NewRow(e.request, map[], e.now, e.cfg.approvalTtl, Mcp, None, Some(High), None, Some(e.session));
            row.Some? ==> FilesRow(w, e, e.id, row.value)
  {
  }

  lemma RequestEffect(w: World, t: TaskId, id: Id, now: Time, files: Files)
    requires Records(w)
    ensures Effect(w, StepRequestApproval(w, t, id, now, files), Some(RequestApproval(t, id, now, files)))
  {
    hide Quiet, Effect, Records, InsertApproval, A.NewRow, FilesRow;
    var e := RequestApproval(t, id, now, files);
    Unmoved(w, Some(e));
    if t in w.tasks && w.tasks[t].AtRequest? && id !in w.requested {
      var op, d := w.tasks[t].op, w.tasks[t].d;
      var row :=
        A.NewRow(op.request, files, now, op.cfg.approvalTtl, op.caller, d.ruleId, d.risk, op.taskId, op.Namespace());
      RequestFiles(w, e, op, d);
      InsertEffect(w, id, row, e);
      ThenEnd(w, InsertApproval(w, id, row), t, Some(e));
    }
  }

  lemma MutationEffect(w: World, id: Id, session: string, request: Request, cfg: AppConfig, now: Time)
    requires Records(w)
    ensures Effect(w, StepRequestMutation(w, id, session, request, cfg, now),
              Some(RequestMutation(id, session, request, cfg, now)))
  {
    hide Quiet, Effect, Records, InsertApproval, A.NewRow, FilesRow;
    var e := RequestMutation(id, session, request, cfg, now);
    Unmoved(w, Some(e));
    if request.ManagesProfiles() && cfg.cloud {
      MutationFiles(w, e);
      InsertEffect(w, id,
        A.NewRow(request, map[], now, cfg.approvalTtl, Mcp, None, Some(High), None, Some(session)), e);
    }
  }

  lemma MutateProfileEffect(w: World, t: TaskId, op: Op)
    ensures Effect(w, StepMutateProfile(w, t, op), None)
  {
    hide Quiet, Effect;
    Unmoved(w);
    QuietIssue(w, t, Execution(op, None, Unmetered, None));
    NoEffect(w, Issue(w, t, Execution(op, None, Unmetered, None)), None);
  }

  lemma RecordInOrder(w: World, x: Execution)
    requires Tokens(w) && Ordered(w) && (!x.token.Unmetered? ==> x.token in w.ledger && w.ledger[x.token].Held?)
    ensures Ordered(Record(w, x))
  {
    var w' := Record(w, x);
    if x.token.PlanToken? {
      forall i: nat | IsSpent(w.ledger, PlanToken(x.token.planId, i)) ensures i < x.token.index {
        assert Accounted(w, PlanToken(x.token.planId, i));
        assert i > x.token.index ==> IsSpent(w.ledger, x.token);
      }
    }
  }

  lemma RecordEffect(w: World, t: TaskId)
    requires Tokens(w) && Tasks(w) && t in w.tasks && w.tasks[t].Ready?
    ensures Effect(w, Record(w, w.tasks[t].x), Some(Execute(t)))
  {
    hide Tokens, Tasks, TaskEvidence, HolderOk, Uses, ClaimsStay, RowsStay, PlansStay, PlansFrom, GrantsStay, NoNewUses,
      ApprovalsStay, Ordered;
    AboutTask(w, t);
    Standing(w, Record(w, w.tasks[t].x), Some(Execute(t)));
    Settling(w, Record(w, w.tasks[t].x));
    if Uses(w.grants, w.ledger) { SameUsesKeepUses(w.grants, w.ledger, Record(w, w.tasks[t].x).ledger); }
    if Ordered(w) { RecordInOrder(w, w.tasks[t].x); }
  }

  lemma ExecutedEffect(w: World, t: TaskId, x: Execution)
    requires Tokens(w) && Tasks(w) && t in w.tasks && w.tasks[t] == Ready(x)
    ensures Effect(w, EndTask(Record(w, x), t), Some(Execute(t)))
    ensures !x.token.Unmetered? ==> Effect(w, SetTask(Record(w, x), t, Ran(x.token)), Some(Execute(t)))
  {
    hide Quiet, Effect, Tasks, Tokens;
    var w1 := Record(w, x);
    RecordEffect(w, t);
    ThenEnd(w, w1, t, Some(Execute(t)));
    if !x.token.Unmetered? {
      QuietSet(w1, t, Ran(x.token));
      ThenQuiet(w, w1, SetTask(w1, t, Ran(x.token)), Some(Execute(t)));
    }
  }

  lemma ExecuteEffect(w: World, t: TaskId)
    requires Tokens(w) && Tasks(w)
    ensures Effect(w, StepExecute(w, t), Some(Execute(t)))
  {
    hide Effect, Tasks, Tokens;
    Unmoved(w, Some(Execute(t)));
    if t in w.tasks && w.tasks[t].Ready? {
      var x := w.tasks[t].x;
      ExecutedEffect(w, t, x);
      assert Record(EndTask(w, t), x) == EndTask(Record(w, x), t);
      assert (w.tasks - {t})[t := Ran(x.token)] == w.tasks[t := Ran(x.token)];
    }
  }

  lemma FinishStays(w: World, id: Id, index: nat, success: bool)
    requires P.LeaseHeld(w.plans, id, index) && P.RowOk(w.plans[id])
    ensures var plans := P.Finish(w.plans, id, index, success);
            && PlansStay(w.plans, plans) && PlansFrom(w.plans, plans, None)
            && (IsSpent(w.ledger, PlanToken(id, index)) ==> Advances(w, plans) && LeasesStay(w, plans, None))
  {
  }

  lemma NoteFrom(w: World, id: Id, e: Entry, cause: Option<Event>)
    requires e == ApprovedByHuman ==>
               cause.Some? && cause.value.ApprovePlan? && cause.value.caller.HumanCli? && cause.value.id == id
    ensures JournalFrom(w.journal, Note(w, id, e), cause)
  {
  }

  lemma FinishPlanEffect(w: World, t: TaskId, success: bool)
    requires Stories(w)
    ensures Effect(w, StepFinishPlan(w, t, success), None)
  {
    hide Quiet, Effect, P.Finish, P.LeaseHeld, P.RowOk, PlansStay, Advances, Note, DoneSpent, SpentInOrder, JournalFrom;
    Unmoved(w);
    if t in w.tasks && w.tasks[t].Ran? && w.tasks[t].token.PlanToken? {
      var id, index := w.tasks[t].token.planId, w.tasks[t].token.index;
      QuietEnd(w, t);
      NoEffect(w, EndTask(w, t), None);
      if P.LeaseHeld(w.plans, id, index) {
        var plans, journal := P.Finish(w.plans, id, index, success),
          Note(w, id, if success then Done(index) else Broke(index));
        HeldPlan(w, id, index);
        FinishStays(w, id, index, success);
        NoteFrom(w, id, if success then Done(index) else Broke(index), None);
        PlansEffect(w, plans, journal);
        ThenEnd(w, w.(plans := plans, journal := journal), t, None);
        assert StepFinishPlan(w, t, success) == EndTask(w.(plans := plans, journal := journal), t);
      }
    }
  }

  lemma HeldPlan(w: World, id: Id, index: nat)
    requires Stories(w) && P.LeaseHeld(w.plans, id, index)
    ensures P.RowOk(w.plans[id])
  {
  }

  lemma OpenEffect(w: World, t: TaskId, caller: Caller, session: string, id: Id, wish: Option<G.Wish>)
    ensures Effect(w, StepOpen(w, t, caller, session, id, wish), None)
  {
    hide Quiet, Effect, G.ValidateSource;
    Unmoved(w);
    QuietSet(w, t, Opened(id, session, wish));
    NoEffect(w, SetTask(w, t, Opened(id, session, wish)), None);
  }

  lemma SelectEffect(w: World, t: TaskId, now: Time, files: Files)
    ensures Effect(w, StepSelect(w, t, now, files), None)
  {
    hide Quiet, Effect, RequestHash;
    Unmoved(w);
    QuietEnd(w, t);
    NoEffect(w, EndTask(w, t), None);
    if t in w.tasks && w.tasks[t].Opened? && w.tasks[t].id in w.approvals {
      var s := Selected(w.tasks[t].id, w.tasks[t].session, w.tasks[t].wish, w.approvals[w.tasks[t].id]);
      QuietSet(w, t, s);
      NoEffect(w, SetTask(w, t, s), None);
    }

  }

  lemma RehashEffect(w: World, t: TaskId, files: Files)
    ensures Effect(w, StepRehash(w, t, files), None)
  {
    hide Quiet, Effect, RequestHash;
    Unmoved(w);
    if t in w.tasks && w.tasks[t].Won? {
      var s := w.tasks[t];
      QuietSet(w, t, Closing(s.id));
      NoEffect(w, SetTask(w, t, Closing(s.id)), None);
      QuietSet(w, t, Rehashed(s.id, s.session, s.wish, s.row));
      NoEffect(w, SetTask(w, t, Rehashed(s.id, s.session, s.wish, s.row)), None);
    }
  }

  lemma WinEffect(w: World, t: TaskId)
    requires Claims(w)
    ensures Effect(w, StepWin(w, t), Some(Win(t)))
  {
    hide Quiet, Effect;
    Unmoved(w, Some(Win(t)));
    if t in w.tasks && w.tasks[t].Selected? {
      var s := w.tasks[t];
      QuietEnd(w, t);
      NoEffect(w, EndTask(w, t), Some(Win(t)));
      if A.IsPending(w.approvals, s.id) {
        var w1 := Claim(w, t, s.id);
        ClaimEffect(w, t, s.id);
        QuietSet(w1, t, Won(s.id, s.session, s.wish, s.row));
        ThenQuiet(w, w1, SetTask(w1, t, Won(s.id, s.session, s.wish, s.row)), Some(Win(t)));
        assert StepWin(w, t) == SetTask(w1, t, Won(s.id, s.session, s.wish, s.row));
      }
    }
  }

  lemma ClaimEffect(w: World, t: TaskId, id: Id)
    requires Claims(w) && A.IsPending(w.approvals, id) && t in w.tasks && w.tasks[t].Selected? && w.tasks[t].id == id
    ensures Effect(w, Claim(w, t, id), Some(Win(t)))
  {
    hide Uses, RanSpent, DoneSpent, SpentInOrder;
  }

  lemma RedecideEffect(w: World, t: TaskId, cfg: AppConfig)
    requires Tasks(w)
    ensures Effect(w, StepRedecide(w, t, cfg), None)
  {
    hide Quiet, Effect, Tasks, TaskEvidence, HolderOk;
    Unmoved(w);
    if t in w.tasks && w.tasks[t].Rehashed? {
      AboutTask(w, t);
      var s := w.tasks[t];
      var op := FrozenOp(s.row, s.session, cfg);
      var verdict := w.policy(cfg, s.row.caller, s.row.request);
      var x := Execution(op, if s.row.request.ManagesProfiles() then None else verdict, ApprovalToken(s.id), None);
      QuietIssue(w, t, x);
      NoEffect(w, Issue(w, t, x), None);
      QuietSet(w, t, Closing(s.id));
      NoEffect(w, SetTask(w, t, Closing(s.id)), None);
      if s.wish.Some? {
        QuietSet(w, t, Minting(s.id, s.wish.value, x));
        NoEffect(w, SetTask(w, t, Minting(s.id, s.wish.value, x)), None);
      }
    }
  }

  lemma ValidateGrantEffect(w: World, t: TaskId)
    ensures Effect(w, StepValidateGrant(w, t), None)
  {
    hide Quiet, Effect, G.ValidateSource;
    Unmoved(w);
    if t in w.tasks && w.tasks[t].Minting? && w.tasks[t].x.decision.Some? {
      var s := w.tasks[t];
      QuietSet(w, t, Closing(s.id));
      NoEffect(w, SetTask(w, t, Closing(s.id)), None);
      var validated := G.ValidateSource(w.approvals, s.id, s.granting, A.Executing, s.x.decision.value.ruleId);
      if validated.Ok? {
        QuietSet(w, t, Inserting(s.id, s.granting, validated.value, s.x));
        NoEffect(w, SetTask(w, t, Inserting(s.id, s.granting, validated.value, s.x)), None);
      }
    }
  }

  lemma UnmintedUnused(w: World, id: Id)
    requires Tokens(w) && id !in w.minted
    ensures forall n: nat :: GrantToken(id, n) !in w.ledger
  {
    forall n: nat ensures GrantToken(id, n) !in w.ledger {
      assert GrantToken(id, n) in w.ledger ==> Accounted(w, GrantToken(id, n));
    }
  }

  lemma NewGrantCounts(grants: G.Table, ledger: map<Token, Fate>, id: Id, row: G.Row)
    requires Uses(grants, ledger) && row.usedCount == 0 && forall n: nat :: GrantToken(id, n) !in ledger
    ensures Uses(grants[id := row], ledger)
  {
  }

  lemma MintEffect(w: World, id: Id, row: G.Row, wish: G.Wish, e: Event)
    requires Tokens(w) && id !in w.minted && row.usedCount == 0
    requires e.InsertGrant? && e.t in w.tasks && w.tasks[e.t].Inserting? && row.source == w.tasks[e.t].id
             && wish == w.tasks[e.t].granting
    ensures Effect(w, Mint(w, id, row, wish), Some(e))
  {
    hide Tokens, Uses, ClaimsStay, RowsStay, PlansStay, PlansFrom, ApprovalsStay, RanSpent, DoneSpent, SpentInOrder;
    Standing(w, Mint(w, id, row, wish), Some(e));
    UnmintedUnused(w, id);
    if Uses(w.grants, w.ledger) { NewGrantCounts(w.grants, w.ledger, id, row); }
  }

  lemma InsertGrantEffect(w: World, t: TaskId, id: Id, now: Time)
    requires Tokens(w) && Tasks(w)
    ensures Effect(w, StepInsertGrant(w, t, id, now), Some(InsertGrant(t, id, now)))
  {
    hide Quiet, Effect, Tokens, Tasks, Justified;
    var cause := Some(InsertGrant(t, id, now));
    Unmoved(w, cause);
    if t in w.tasks && w.tasks[t].Inserting? && id !in w.minted {
      var s := w.tasks[t];
      AboutTask(w, t);
      if s.id !in w.approvals || !G.SourceFree(w.grants, s.id) {
        QuietSet(w, t, Closing(s.id));
        NoEffect(w, SetTask(w, t, Closing(s.id)), cause);
      } else {
        var row := G.NewRow(s.terms, s.granting, s.id, w.approvals[s.id].namespace, now);
        MintEffect(w, id, row, s.granting, cause.value);
        var w1 := Mint(w, id, row, s.granting);
        QuietIssue(w1, t, s.x);
        ThenQuiet(w, w1, Issue(w1, t, s.x), cause);
        assert StepInsertGrant(w, t, id, now) == Issue(w1, t, s.x);
      }
    }
  }

  lemma ReleaseEffect(w: World, t: TaskId, id: Id, ok: bool, e: Event)
    requires id in w.claimer && w.claimer[id] == t && e.FinishApproval? && e.t == t
    ensures Effect(w, EndTask(w, t).(approvals := A.Finish(w.approvals, id, ok)), Some(e))
  {
    hide Quiet, Effect;
    var w1 := w.(approvals := A.Finish(w.approvals, id, ok));
    ApprovalsEffect(w, A.Finish(w.approvals, id, ok), Some(e));
    QuietEnd(w1, t);
    ThenQuiet(w, w1, EndTask(w1, t), Some(e));
  }

  lemma FinishApprovalEffect(w: World, t: TaskId, ok: bool)
    requires Tasks(w)
    ensures Effect(w, StepFinishApproval(w, t, ok), Some(FinishApproval(t, ok)))
  {
    hide Quiet, Effect, A.Finish, Tasks, TaskToken, TaskEvidence;
    Unmoved(w, Some(FinishApproval(t, ok)));
    if t in w.tasks && (w.tasks[t].Closing? || (w.tasks[t].Ran? && w.tasks[t].token.ApprovalToken?)) {
      AboutTask(w, t);
      ReleaseEffect(w, t, HoldsOf(w.tasks[t]).value, ok && w.tasks[t].Ran?, FinishApproval(t, ok));
    }
  }

  lemma ApprovalAdministrationEffect(w: World, id: Id, now: Time)
    ensures Effect(w, w.(approvals := A.Reject(w.approvals, id, now)), None)
    ensures Effect(w, w.(approvals := A.Cleanup(w.approvals)), None)
    ensures Effect(w, w.(approvals := A.Expire(w.approvals, now)), None)
  {
    hide Effect;
    ApprovalsEffect(w, A.Reject(w.approvals, id, now), None);
    ApprovalsEffect(w, A.Cleanup(w.approvals), None);
    ApprovalsEffect(w, A.Expire(w.approvals, now), None);
  }

  lemma GrantAdministrationEffect(w: World, id: Id, now: Time)
    ensures Effect(w, w.(grants := G.Revoke(w.grants, id)), None)
    ensures Effect(w, w.(grants := G.Cleanup(w.grants)), None)
    ensures Effect(w, w.(grants := G.Expire(w.grants, now)), None)
  {
    hide Effect;
    GrantsEffect(w, G.Revoke(w.grants, id));
    GrantsEffect(w, G.Cleanup(w.grants));
    GrantsEffect(w, G.Expire(w.grants, now));
  }

  lemma ProposedRow(e: Event)
    requires e.Propose?
    ensures var row := P.NewRow(e.profile, e.planTask, e.actions, e.ttl, e.maxTtl, e.now, e.files, Some(e.session));
            row.Some? && !e.caller.HumanCli? ==> row.value.nextIndex == 0 && Proposes(e, e.id, row.value)
  {
  }

  lemma ProposeEffect(w: World, e: Event, row: Option<P.Row>)
    requires e.Propose?
    requires row.Some? && !e.caller.HumanCli? ==> row.value.nextIndex == 0 && Proposes(e, e.id, row.value)
    ensures Effect(w, StepPropose(w, e.caller, e.session, e.id, row), Some(e))
  {
    hide Effect, Proposes;
    Unmoved(w, Some(e));
    if e.caller.EnforcesAgentPolicy() && e.id !in w.plans && row.Some? {
      PlansEffect(w, w.plans[e.id := row.value], w.journal[e.id := [Proposed]], Some(e));
    }
  }

  lemma ApproveStays(w: World, id: Id, now: Time, cause: Option<Event>)
    ensures var plans := P.Approve(w.plans, id, now);
            PlansStay(w.plans, plans) && Advances(w, plans) && LeasesStay(w, plans, cause)
              && PlansFrom(w.plans, plans, cause)
  {
    hide Proposes, IsSpent;
  }

  lemma RejectStays(w: World, id: Id, cause: Option<Event>)
    ensures var plans := P.Reject(w.plans, id);
            PlansStay(w.plans, plans) && Advances(w, plans) && LeasesStay(w, plans, cause)
              && PlansFrom(w.plans, plans, cause)
  {
    hide Proposes, IsSpent;
  }

  lemma ApproveEffect(w: World, caller: Caller, id: Id, now: Time)
    ensures Effect(w, StepApprovePlan(w, caller, id, now), Some(ApprovePlan(caller, id, now)))
  {
    hide Effect, PlansFrom, PlansStay, LeasesStay, JournalFrom, Advances, P.Approve, P.Approvable, Note;
    var cause := Some(ApprovePlan(caller, id, now));
    Unmoved(w, cause);
    ApproveStays(w, id, now, cause);
    if caller.HumanCli? {
      NoteFrom(w, id, ApprovedByHuman, cause);
      PlansEffect(w, P.Approve(w.plans, id, now), Note(w, id, ApprovedByHuman), cause);
    }
  }

  lemma RejectEffect(w: World, caller: Caller, id: Id)
    ensures Effect(w, StepRejectPlan(w, caller, id), None)
  {
    hide Effect, PlansFrom, PlansStay, LeasesStay, JournalFrom, Advances, P.Reject, P.Rejectable, Note;
    Unmoved(w);
    RejectStays(w, id, None);
    NoteFrom(w, id, Refused, None);
    PlansEffect(w, P.Reject(w.plans, id), Note(w, id, Refused));
  }

  lemma LeaseSweepStays(w: World, now: Time)
    ensures var plans := P.FailOverdue(w.plans, now);
            && PlansStay(w.plans, plans) && Advances(w, plans) && LeasesStay(w, plans, Some(SweepLeases(now)))
            && PlansFrom(w.plans, plans, Some(SweepLeases(now)))
  {
    hide IsSpent, Proposes;
  }

  lemma OpenSweepStays(w: World, now: Time)
    ensures var plans := P.ExpireOpen(w.plans, now);
            && PlansStay(w.plans, plans) && Advances(w, plans) && LeasesStay(w, plans, None)
            && PlansFrom(w.plans, plans, None)
  {
    hide IsSpent, Proposes;
  }

  lemma PlanSweepsEffect(w: World, now: Time)
    ensures Effect(w, StepSweepLeases(w, now), Some(SweepLeases(now))) && Effect(w, StepSweepPlans(w, now), None)
  {
    hide Effect, PlansFrom, PlansStay, LeasesStay, Advances, P.FailOverdue, P.ExpireOpen;
    LeaseSweepStays(w, now);
    OpenSweepStays(w, now);
    PlansEffect(w, P.FailOverdue(w.plans, now), StepSweepLeases(w, now).journal, Some(SweepLeases(now)));
    PlansEffect(w, P.ExpireOpen(w.plans, now), StepSweepPlans(w, now).journal);
  }

  // ---- Every step ----

  /** What only an unnamed event may do, a named one may. */
  lemma Named(w: World, e: Event)
    ensures Effect(w, Step(w, e), None) ==> Effect(w, Step(w, e), Some(e))
  {
    hide Step, Uses, Ordered, ClaimsStay, PlansStay, GrantsStay, NoNewUses, ApprovalsStay;
  }

  lemma OperationEffect(w: World, e: Event)
    requires Inv(w)
    requires e.Arrive? || e.ClaimPlan? || e.ConsumeGrant? || e.RequestApproval? || e.RequestMutation?
             || e.MutateProfile? || e.Execute? || e.FinishPlan? || e.Crash?
    ensures Effect(w, Step(w, e), Some(e))
  {
    hide Effect, Quiet, EndTask, Records, Stories, Claims, Tokens, Mints, Tasks, Past, StepArrive, StepClaimPlan,
      StepConsumeGrant, StepRequestApproval, StepRequestMutation, StepMutateProfile, StepExecute, StepFinishPlan,
      StepOpen, StepSelect, StepWin, StepRehash, StepRedecide, StepValidateGrant, StepInsertGrant, StepFinishApproval,
      StepPropose, StepApprovePlan, StepRejectPlan, StepSweepLeases, StepSweepPlans;
    Named(w, e);
    match e
    case Arrive(t, op) => ArriveEffect(w, t, op);
    case ClaimPlan(t, pick, now, leaseNow, files) => ClaimPlanEffect(w, t, pick, now, leaseNow, files);
    case ConsumeGrant(t, ids, now, ticks) => ConsumeGrantEffect(w, t, ids, now, ticks);
    case RequestApproval(t, id, now, files) => RequestEffect(w, t, id, now, files);
    case RequestMutation(id, session, request, cfg, now) => MutationEffect(w, id, session, request, cfg, now);
    case MutateProfile(t, op) => MutateProfileEffect(w, t, op);
    case Execute(t) => ExecuteEffect(w, t);
    case FinishPlan(t, success) => FinishPlanEffect(w, t, success);
    case Crash(t) => QuietEnd(w, t); NoEffect(w, EndTask(w, t), None);
  }

  lemma ApproverEffect(w: World, e: Event)
    requires Inv(w)
    requires e.Open? || e.Select? || e.Win? || e.Rehash? || e.Redecide? || e.ValidateGrant? || e.InsertGrant?
             || e.FinishApproval?
    ensures Effect(w, Step(w, e), Some(e))
  {
    hide Effect, Quiet, Records, Stories, Claims, Tokens, Mints, Tasks, Past, StepArrive, StepClaimPlan,
      StepConsumeGrant, StepRequestApproval, StepRequestMutation, StepMutateProfile, StepExecute, StepFinishPlan,
      StepOpen, StepSelect, StepWin, StepRehash, StepRedecide, StepValidateGrant, StepInsertGrant, StepFinishApproval,
      StepPropose, StepApprovePlan, StepRejectPlan, StepSweepLeases, StepSweepPlans;
    Named(w, e);
    match e
    case Open(t, caller, session, id, wish) => OpenEffect(w, t, caller, session, id, wish);
    case Select(t, now, files) => SelectEffect(w, t, now, files);
    case Win(t) => WinEffect(w, t);
    case Rehash(t, files) => RehashEffect(w, t, files);
    case Redecide(t, cfg) => RedecideEffect(w, t, cfg);
    case ValidateGrant(t) => ValidateGrantEffect(w, t);
    case InsertGrant(t, id, now) => InsertGrantEffect(w, t, id, now);
    case FinishApproval(t, ok) => FinishApprovalEffect(w, t, ok);
  }

  lemma AdministrationEffect(w: World, e: Event)
    requires e.RejectApproval? || e.CleanApprovals? || e.SweepApprovals? || e.RevokeGrant? || e.CleanGrants?
             || e.SweepGrants?
    ensures Effect(w, Step(w, e), Some(e))
  {
    hide Effect, Quiet, StepArrive, StepClaimPlan, StepConsumeGrant, StepRequestApproval, StepRequestMutation,
      StepMutateProfile, StepExecute, StepFinishPlan, StepOpen, StepSelect, StepWin, StepRehash, StepRedecide,
      StepValidateGrant, StepInsertGrant, StepFinishApproval, StepPropose, StepApprovePlan, StepRejectPlan,
      StepSweepLeases, StepSweepPlans;
    Unmoved(w);
    Named(w, e);
    match e
    case RejectApproval(_, id, now) => ApprovalAdministrationEffect(w, id, now);
    case CleanApprovals(_) => ApprovalAdministrationEffect(w, "", 0);
    case SweepApprovals(now) => ApprovalAdministrationEffect(w, "", now);
    case RevokeGrant(_, id) => GrantAdministrationEffect(w, id, 0);
    case CleanGrants(_) => GrantAdministrationEffect(w, "", 0);
    case SweepGrants(now) => GrantAdministrationEffect(w, "", now);
  }

  lemma PlanningEffect(w: World, e: Event)
    requires e.Propose? || e.ApprovePlan? || e.RejectPlan? || e.SweepLeases? || e.SweepPlans?
    ensures Effect(w, Step(w, e), Some(e))
  {
    hide Effect, Quiet, StepArrive, StepClaimPlan, StepConsumeGrant, StepRequestApproval, StepRequestMutation,
      StepMutateProfile, StepExecute, StepFinishPlan, StepOpen, StepSelect, StepWin, StepRehash, StepRedecide,
      StepValidateGrant, StepInsertGrant, StepFinishApproval, StepPropose, StepApprovePlan, StepRejectPlan,
      StepSweepLeases, StepSweepPlans;
    Named(w, e);
    match e
    case Propose(caller, session, id, profile, planTask, actions, ttl, maxTtl, now, files) =>
      ProposedRow(e);
      ProposeEffect(w, e, P.NewRow(profile, planTask, actions, ttl, maxTtl, now, files, Some(session)));
    case ApprovePlan(caller, id, now) => ApproveEffect(w, caller, id, now);
    case RejectPlan(caller, id) => RejectEffect(w, caller, id);
    case SweepLeases(now) => PlanSweepsEffect(w, now);
    case SweepPlans(now) => PlanSweepsEffect(w, now);
  }

  lemma StepEffect(w: World, e: Event)
    requires Inv(w)
    ensures Effect(w, Step(w, e), Some(e))
  {
    hide Inv, Step, Effect;
    if e.RejectApproval? || e.CleanApprovals? || e.SweepApprovals? || e.RevokeGrant? || e.CleanGrants?
      || e.SweepGrants? { AdministrationEffect(w, e); }
    else if e.Open? || e.Select? || e.Win? || e.Rehash? || e.Redecide? || e.ValidateGrant? || e.InsertGrant?
      || e.FinishApproval? { ApproverEffect(w, e); }
    else if e.Propose? || e.ApprovePlan? || e.RejectPlan? || e.SweepLeases? || e.SweepPlans? { PlanningEffect(w, e); }
    else { OperationEffect(w, e); }
  }
}
