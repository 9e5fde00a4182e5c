/** What every step of the authorization driver keeps. */
module Invariants {
  import opened Types
  import opened Config
  import opened Policy
  import opened Gateway
  import A = Approvals
  import G = Grants
  import P = Plans

  // ---- Tables against the records of what was first inserted ----

  predicate SameTerms(r: G.Row, first: G.Row) {
    r == first.(usedCount := r.usedCount, status := r.status)
  }

  /**
   * What is filed waits for a decision; agents' rows carry their namespace, humans' none; no rule
   * speaks of a profile mutation.
   */
  predicate Requestable(r: A.Row) {
    r.status.Pending? && (r.namespace.Some? <==> !r.caller.HumanCli?)
      && (r.request.ManagesProfiles() ==> r.ruleId.None?)
  }

  ghost predicate Records(w: World) {
    && (forall id :: id in w.approvals ==>
       id in w.requested && w.approvals[id] == w.requested[id].(status := w.approvals[id].status))
    && (forall id :: id in w.requested ==> Requestable(w.requested[id]))
    && (forall id :: id in w.grants ==>
       id in w.minted && G.RowOk(w.grants[id]) && SameTerms(w.grants[id], w.minted[id].0))
  }

  // ---- Plan stories ----

  /** Proposed, approved, then each of the first n actions claimed and done, in order. */
  function Progress(n: nat): (r: seq<Entry>)
    ensures |r| == 2 + 2 * n
  {
    if n == 0 then [Proposed, ApprovedByHuman] else Progress(n - 1) + [Claimed(n - 1), Done(n - 1)]
  }

  /** The only stories a plan row in each status can have. */
  predicate Tells(story: seq<Entry>, r: P.Row) {
    match r.status
    case Pending => story == [Proposed]
    case Rejected => story == [Proposed, Refused]
    case Approved => story == Progress(r.nextIndex)
    case Executing => story == Progress(r.nextIndex) + [Claimed(r.nextIndex)]
    case Completed => story == Progress(|r.actions|)
    case Failed => story == Progress(r.nextIndex) + [Claimed(r.nextIndex), Broke(r.nextIndex)]
                   || story == Progress(r.nextIndex) + [Claimed(r.nextIndex), Lapsed(r.nextIndex)]
    case Expired => story == Progress(r.nextIndex) + [TimedOut] || (r.nextIndex == 0 && story == [Proposed, TimedOut])
  }

  ghost predicate Stories(w: World) {
    && w.journal.Keys == w.plans.Keys
    && (forall id :: id in w.plans ==> P.RowOk(w.plans[id]) && Tells(w.journal[id], w.plans[id]))
  }

  // ---- Approval claims ----

  /** The approval a task has won and not yet finished. */
  function HoldsOf(s: Task): Option<Id> {
    match s
    case Won(id, _, _, _) => Some(id)
    case Rehashed(id, _, _, _) => Some(id)
    case Minting(id, _, _) => Some(id)
    case Inserting(id, _, _, _) => Some(id)
    case Closing(id) => Some(id)
    case Ready(x) => if x.token.ApprovalToken? then Some(x.token.approvalId) else None
    case Ran(token) => if token.ApprovalToken? then Some(token.approvalId) else None
    case _ => None
  }

  predicate Processed(s: A.Status) {
    s.Executing? || s.Executed? || s.Failed?
  }

  ghost predicate Claims(w: World) {
    forall id :: id in w.claimer ==> id in w.requested && (id in w.approvals ==> Processed(w.approvals[id].status))
  }

  predicate HolderOk(w: World, t: TaskId, held: Option<Id>) {
    held.Some? ==>
      && held.value in w.claimer && w.claimer[held.value] == t
      && held.value in w.approvals && w.approvals[held.value].status.Executing?
  }

  // ---- Tokens ----

  /** Still able to mint a grant and to be issued the approval's token. */
  function Undecided(s: Task): Option<Id> {
    match s
    case Won(id, _, _, _) => Some(id)
    case Rehashed(id, _, _, _) => Some(id)
    case Minting(id, _, _) => Some(id)
    case Inserting(id, _, _, _) => Some(id)
    case _ => None
  }

  predicate Accounted(w: World, token: Token) {
    match token
    case Unmetered => false
    case PlanToken(p, i) => p in w.plans
      && (i < w.plans[p].nextIndex
        || (i == w.plans[p].nextIndex && (w.plans[p].status.Executing? || w.plans[p].status.Failed?)))
    case GrantToken(g, n) => g in w.minted && w.minted[g].0.maxUses.Some? && n < w.minted[g].0.maxUses.value
      && (g in w.grants ==> n < w.grants[g].usedCount)
    case ApprovalToken(a) => a in w.claimer
  }

  ghost predicate Tokens(w: World) {
    && (forall token :: token in w.ledger ==> Accounted(w, token))
    && (forall token :: token in w.ledger && w.ledger[token].Spent? ==>
          w.ledger[token].at < |w.history| && w.history[w.ledger[token].at].token == token)
    && (forall i :: 0 <= i < |w.history| && !w.history[i].token.Unmetered? ==>
          w.history[i].token in w.ledger && w.ledger[w.history[i].token] == Spent(i))
  }

  predicate TaskToken(w: World, t: TaskId, s: Task) {
    && (s.Ready? && !s.x.token.Unmetered? ==> s.x.token in w.ledger && w.ledger[s.x.token] == Held(t))
    && (Undecided(s).Some? ==> ApprovalToken(Undecided(s).value) !in w.ledger && Undecided(s).value !in w.grantOf)
  }

  // ---- Grants and the approvals behind them ----

  /**
   * A grant carries its approval's profile, rule and namespace, within the limits of the
   * configuration it was asked for under.
   */
  predicate Inherits(r: G.Row, wish: G.Wish, source: A.Row) {
    && r.profile == source.profile && Some(r.ruleId) == source.ruleId && r.namespace == source.namespace
    && r.taskId == wish.taskId && r.expiresAt == r.createdAt + wish.ttl && 0 < wish.ttl <= wish.Limits().maxTtl
    && r.maxUses == Some(wish.maxUses.GetOr(wish.Limits().defaultMaxUses)) && r.maxUses.value > 0
    && (if r.taskId.Some? then G.Permitted(wish.Limits(), source.risk).task
       else G.Permitted(wish.Limits(), source.risk).time)
  }

  ghost predicate Mints(w: World) {
    && (forall g :: g in w.minted ==>
          var r := w.minted[g].0;
          r.source in w.claimer && r.source in w.requested && r.source in w.grantOf && w.grantOf[r.source] == g
          && Inherits(r, w.minted[g].1, w.requested[r.source]))
    && (forall a :: a in w.grantOf ==> a in w.claimer)
  }

  // ---- Evidence behind each execution ----

  ghost predicate NoLivePlan(op: Op, sight: Sight) {
    op.taskId.Some? &&
    forall id :: id in sight.plans ==>
      !P.Live(sight.plans[id], P.Query(op.Profile(), op.taskId.value, op.Namespace()), sight.now)
  }

  /** With a task and approvals enabled, an agent's request has looked at the plans. */
  predicate MustLook(op: Op) {
    op.caller.EnforcesAgentPolicy() && op.taskId.Some? && op.cfg.approvalsEnabled && !op.request.ManagesProfiles()
  }

  /** Either no plan was live, or the newest live plan's exact next action was claimed. */
  ghost predicate Looked(x: Execution) {
    x.sight.Some? && x.op.taskId.Some? &&
    match x.token
    case PlanToken(p, i) =>
      && P.Newest(x.sight.value.plans, P.Query(x.op.Profile(), x.op.taskId.value, x.op.Namespace()), x.sight.value.now,
         Some(p))
      && var r := x.sight.value.plans[p];
         i == r.nextIndex < |r.actions| && r.claimedIndex.None? && x.op.request == r.actions[i]
    case _ => NoLivePlan(x.op, x.sight.value)
  }

  predicate Decided(w: World, op: Op, d: Decision) {
    w.policy(op.cfg, op.caller, op.request) == Some(d) && !d.effect.Deny? && !op.request.ManagesProfiles()
  }

  /** Only a human's approval lets a profile be changed, except by an MCP client of a self-hosted gateway. */
  predicate MutationAllowed(x: Execution) {
    x.token.ApprovalToken? || (x.token.Unmetered? && x.op.caller.Mcp? && !x.op.cfg.cloud)
  }

  predicate FrozenAs(op: Op, row: A.Row) {
    op.request == row.request && op.caller == row.caller && op.taskId == row.taskId
      && (row.namespace.Some? ==> Some(op.session) == row.namespace)
  }

  /** The human act and the bounds behind a token. */
  predicate Covered(w: World, x: Execution) {
    match x.token
    case Unmetered => true
    case PlanToken(p, i) =>
      && p in w.plans && i < |w.plans[p].actions| && x.op.request == w.plans[p].actions[i]
      && x.op.taskId == Some(w.plans[p].taskId) && x.op.Namespace() == w.plans[p].namespace
         && x.op.Profile() == w.plans[p].profile
    case GrantToken(g, n) =>
      && g in w.minted && x.decision.Some?
      && var r := w.minted[g].0;
         r.profile == x.op.Profile() && Some(r.ruleId) == x.decision.value.ruleId && r.namespace == x.op.Namespace()
         && (r.taskId.None? || r.taskId == x.op.taskId)
    case ApprovalToken(a) => a in w.requested && FrozenAs(x.op, w.requested[a])
  }

  ghost predicate Justified(w: World, x: Execution) {
    && (match x.decision
        case None => x.op.request.ManagesProfiles() && MutationAllowed(x)
        case Some(d) => Decided(w, x.op, d) && (d.effect.Confirm? ==> !x.token.Unmetered?))
    && Covered(w, x)
    && (MustLook(x.op) && !x.token.ApprovalToken? ==> Looked(x))
  }

  ghost predicate TaskEvidence(w: World, s: Task) {
    match s
    case AtPlan(op, d) => Decided(w, op, d) && op.cfg.approvalsEnabled
    case AtGrant(op, d, sight) => Decided(w, op, d) && op.cfg.approvalsEnabled
      && (MustLook(op) ==> sight.Some? && NoLivePlan(op, sight.value))
    case AtRequest(op, d) => Decided(w, op, d)
    case Ready(x) => Justified(w, x)
    case Ran(_) => true
    case Opened(id, _, wish) => id in w.requested && (wish.Some? ==> !w.requested[id].request.ManagesProfiles())
    case Selected(id, _, wish, row) => id in w.requested && w.requested[id] == row
      && (wish.Some? ==> !row.request.ManagesProfiles())
    case Won(id, _, _, row) => id in w.requested && w.requested[id] == row
    case Rehashed(id, _, _, row) => id in w.requested && w.requested[id] == row
    case Minting(id, _, x) => x.token == ApprovalToken(id) && Justified(w, x) && x.decision.Some?
    case Inserting(id, wish, terms, x) =>
      && x.token == ApprovalToken(id) && Justified(w, x) && x.decision.Some?
      && id in w.requested && G.TermsOk(terms, wish, w.requested[id])
    case Closing(_) => true
  }

  ghost predicate TaskOk(w: World, t: TaskId, s: Task) {
    HolderOk(w, t, HoldsOf(s)) && TaskToken(w, t, s) && TaskEvidence(w, s)
  }

  ghost predicate Tasks(w: World) {
    forall t :: t in w.tasks ==> TaskOk(w, t, w.tasks[t])
  }

  ghost predicate Past(w: World) {
    forall i :: 0 <= i < |w.history| ==> Justified(w, w.history[i])
  }

  ghost predicate Inv(w: World) {
    Records(w) && Stories(w) && Claims(w) && Tokens(w) && Mints(w) && Tasks(w) && Past(w)
  }

  // ---- Evidence outlives every change of the tables ----

  predicate SamePlan(r: P.Row, r': P.Row) {
    r'.profile == r.profile && r'.taskId == r.taskId && r'.actions == r.actions && r'.hash == r.hash
      && r'.namespace == r.namespace
  }

  ghost predicate Grows(w: World, w': World) {
    && w'.policy == w.policy
    && (forall id :: id in w.requested ==> id in w'.requested && w'.requested[id] == w.requested[id])
    && (forall id :: id in w.minted ==> id in w'.minted && w'.minted[id] == w.minted[id])
    && (forall id :: id in w.plans ==> id in w'.plans && SamePlan(w.plans[id], w'.plans[id]))
  }

  lemma JustifiedStable(w: World, w': World, x: Execution)
    requires Grows(w, w') && Justified(w, x)
    ensures Justified(w', x)
  {
  }

  lemma EvidenceStable(w: World, w': World, s: Task)
    requires Grows(w, w') && TaskEvidence(w, s)
    ensures TaskEvidence(w', s)
  {
  }

  lemma PastStable(w: World, w': World)
    requires Grows(w, w') && Past(w) && w'.history == w.history
    ensures Past(w')
  {
    forall i | 0 <= i < |w'.history| ensures Justified(w', w'.history[i]) {
      JustifiedStable(w, w', w.history[i]);
    }
  }

  // ---- The kinds of change a step is made of, each keeping the invariant ----

  ghost predicate SameTables(w: World, w': World) {
    && w'.policy == w.policy && w'.approvals == w.approvals && w'.requested == w.requested && w'.grants == w.grants
       && w'.minted == w.minted
    && w'.plans == w.plans && w'.journal == w.journal && w'.claimer == w.claimer && w'.grantOf == w.grantOf
  }

  lemma TablesKept(w: World, w': World)
    requires SameTables(w, w') && Records(w) && Stories(w) && Claims(w) && Mints(w)
    ensures Records(w') && Stories(w') && Claims(w') && Mints(w')
  {
  }

  lemma TokensKept(w: World, w': World)
    requires w'.minted == w.minted && w'.grants == w.grants && w'.plans == w.plans && w'.claimer == w.claimer
    requires w'.ledger == w.ledger && w'.history == w.history && Tokens(w)
    ensures Tokens(w')
  {
  }

  /** The rows that tasks lean on while an approval is being executed. */
  ghost predicate ExecutingStay(w: World, w': World) {
    forall id :: id in w.approvals && w.approvals[id].status.Executing? ==>
      id in w'.approvals && w'.approvals[id].status.Executing?
  }

  lemma TaskKept(w: World, w': World, t: TaskId, s: Task)
    requires TaskOk(w, t, s) && Grows(w, w') && ExecutingStay(w, w')
    requires w'.ledger == w.ledger && w'.claimer == w.claimer && w'.grantOf == w.grantOf
    ensures TaskOk(w', t, s)
  {
    EvidenceStable(w, w', s);
  }

  predicate FewerTasks(w: World, w': World) {
    forall u :: u in w'.tasks ==> u in w.tasks && w'.tasks[u] == w.tasks[u]
  }

  lemma TasksKept(w: World, w': World)
    requires Tasks(w) && FewerTasks(w, w') && Grows(w, w') && ExecutingStay(w, w')
    requires w'.ledger == w.ledger && w'.claimer == w.claimer && w'.grantOf == w.grantOf
    ensures Tasks(w')
  {
    hide TaskOk;
    forall u | u in w'.tasks ensures TaskOk(w', u, w'.tasks[u]) {
      hide Grows, ExecutingStay;
      assert TaskOk(w, u, w.tasks[u]);
      TaskKept(w, w', u, w.tasks[u]);
    }
  }

  lemma TasksAfterTask(w: World, t: TaskId, s: Task)
    requires Tasks(w) && TaskOk(w, t, s)
    ensures Tasks(SetTask(w, t, s))
  {
    hide TaskOk;
    var w' := SetTask(w, t, s);
    assert Grows(w, w') && ExecutingStay(w, w');
    forall u | u in w'.tasks ensures TaskOk(w', u, w'.tasks[u]) {
      hide Grows, ExecutingStay;
      TaskKept(w, w', u, w'.tasks[u]);
    }
  }

  lemma KeptByTask(w: World, t: TaskId, s: Task)
    requires Inv(w) && TaskOk(w, t, s)
    ensures Inv(SetTask(w, t, s))
  {
    hide Records, Stories, Claims, Tokens, Mints, Tasks, Past, TaskOk;
    var w' := SetTask(w, t, s);
    TasksAfterTask(w, t, s);
    TablesKept(w, w');
    TokensKept(w, w');
    PastStable(w, w');
  }

  lemma KeptByEnd(w: World, t: TaskId)
    requires Inv(w)
    ensures Inv(EndTask(w, t))
  {
    hide Records, Stories, Claims, Tokens, Mints, Tasks, Past, TaskOk;
    var w' := EndTask(w, t);
    TasksKept(w, w');
    TablesKept(w, w');
    TokensKept(w, w');
    PastStable(w, w');
  }

  lemma TaskAfterIssue(w: World, t: TaskId, x: Execution, u: TaskId, s: Task)
    requires TaskOk(w, u, s) && u != t
    requires HolderOk(w, t, HoldsOf(Ready(x))) && (!x.token.Unmetered? ==> x.token !in w.ledger)
    ensures TaskOk(Issue(w, t, x), u, s)
  {
    EvidenceStable(w, Issue(w, t, x), s);
  }

  lemma IssuedTask(w: World, t: TaskId, x: Execution)
    requires HolderOk(w, t, HoldsOf(Ready(x))) && Justified(w, x) && (!x.token.Unmetered? ==> x.token !in w.ledger)
    ensures TaskOk(Issue(w, t, x), t, Ready(x))
  {
    hide Justified;
    JustifiedStable(w, Issue(w, t, x), x);
  }

  lemma TasksAfterIssue(w: World, t: TaskId, x: Execution)
    requires Tasks(w) && HolderOk(w, t, HoldsOf(Ready(x))) && Justified(w, x)
             && (!x.token.Unmetered? ==> x.token !in w.ledger)
    ensures Tasks(Issue(w, t, x))
  {
    hide TaskOk, Justified, HolderOk;
    var w' := Issue(w, t, x);
    forall u | u in w'.tasks ensures TaskOk(w', u, w'.tasks[u]) {
      if u != t {
        assert TaskOk(w, u, w.tasks[u]);
        TaskAfterIssue(w, t, x, u, w.tasks[u]);
      } else {
        IssuedTask(w, t, x);
      }
    }
  }

  lemma TokensAfterIssue(w: World, t: TaskId, x: Execution)
    requires Tokens(w) && (!x.token.Unmetered? ==> x.token !in w.ledger && Accounted(w, x.token))
    ensures Tokens(Issue(w, t, x))
  {
    var w' := Issue(w, t, x);
    forall token | token in w'.ledger ensures Accounted(w', token) {
      assert token != x.token ==> Accounted(w, token);
    }
  }

  lemma KeptByIssue(w: World, t: TaskId, x: Execution)
    requires Inv(w)
    requires HolderOk(w, t, HoldsOf(Ready(x))) && Justified(w, x)
    requires !x.token.Unmetered? ==> x.token !in w.ledger && Accounted(w, x.token)
    ensures Inv(Issue(w, t, x))
  {
    hide Records, Stories, Claims, Tokens, Mints, Tasks, Past, Justified, HolderOk, Accounted;
    var w' := Issue(w, t, x);
    TasksAfterIssue(w, t, x);
    TablesKept(w, w');
    TokensAfterIssue(w, t, x);
    PastStable(w, w');
  }

  /** Rows may leave Pending other than by a claim, and finished rows may go; rows being executed stay as they are. */
  predicate ApprovalMayBecome(r: A.Row, r': A.Row) {
    r' == r || (r.status.Pending? && r' == r.(status := r'.status) && (r'.status.Rejected? || r'.status.Expired?))
  }

  predicate ApprovalsMayBecome(t: A.Table, t': A.Table) {
    && t'.Keys <= t.Keys
    && (forall id :: id in t' ==> ApprovalMayBecome(t[id], t'[id]))
    && (forall id :: id in t && t[id].status.Executing? ==> id in t')
  }

  lemma RowsAfterApprovals(w: World, approvals': A.Table)
    requires Records(w) && Claims(w) && ApprovalsMayBecome(w.approvals, approvals')
    ensures Records(w.(approvals := approvals')) && Claims(w.(approvals := approvals'))
    ensures ExecutingStay(w, w.(approvals := approvals'))
  {
  }

  lemma KeptByApprovals(w: World, approvals': A.Table)
    requires Inv(w) && ApprovalsMayBecome(w.approvals, approvals')
    ensures Inv(w.(approvals := approvals'))
  {
    hide Records, Stories, Claims, Tokens, Mints, Tasks, Past, ExecutingStay, ApprovalsMayBecome;
    var w' := w.(approvals := approvals');
    RowsAfterApprovals(w, approvals');
    StoriesKept(w, w');
    MintsKept(w, w');
    TasksKept(w, w');
    TokensKept(w, w');
    PastStable(w, w');
  }

  /** Grants may change status or go, and use counts may grow. */
  predicate GrantsMayBecome(t: G.Table, t': G.Table) {
    && t'.Keys <= t.Keys
    && (forall id :: id in t' ==> G.RowOk(t'[id]) && SameTerms(t'[id], t[id]) && t'[id].usedCount >= t[id].usedCount)
  }

  lemma RowsAfterGrants(w: World, grants': G.Table)
    requires Records(w) && GrantsMayBecome(w.grants, grants')
    ensures Records(w.(grants := grants'))
  {
  }

  lemma TokensAfterGrants(w: World, grants': G.Table)
    requires Tokens(w) && GrantsMayBecome(w.grants, grants')
    ensures Tokens(w.(grants := grants'))
  {
    var w' := w.(grants := grants');
    forall token | token in w'.ledger ensures Accounted(w', token) {
      assert Accounted(w, token);
    }
  }

  lemma KeptByGrants(w: World, grants': G.Table)
    requires Inv(w) && GrantsMayBecome(w.grants, grants')
    ensures Inv(w.(grants := grants'))
  {
    hide Records, Stories, Claims, Tokens, Mints, Tasks, Past, GrantsMayBecome;
    var w' := w.(grants := grants');
    RowsAfterGrants(w, grants');
    TokensAfterGrants(w, grants');
    ClaimsKept(w, w');
    StoriesKept(w, w');
    MintsKept(w, w');
    TasksKept(w, w');
    PastStable(w, w');
  }

  /** An index that was ever claimed never becomes claimable again. */
  predicate PlanMayBecome(r: P.Row, r': P.Row) {
    && SamePlan(r, r')
    && (r'.nextIndex > r.nextIndex ||
        (r'.nextIndex == r.nextIndex
          && (r.status.Executing? || r.status.Failed? ==> r'.status.Executing? || r'.status.Failed?)))
  }

  lemma RowsAfterPlans(w: World, plans': P.Table, journal': map<Id, seq<Entry>>)
    requires Records(w) && Claims(w) && Mints(w)
    ensures var w' := w.(plans := plans', journal := journal'); Records(w') && Claims(w') && Mints(w')
  {
  }

  lemma TokensAfterPlans(w: World, plans': P.Table, journal': map<Id, seq<Entry>>)
    requires Tokens(w) && w.plans.Keys <= plans'.Keys && forall id :: id in w.plans ==>
             PlanMayBecome(w.plans[id], plans'[id])
    ensures Tokens(w.(plans := plans', journal := journal'))
  {
    var w' := w.(plans := plans', journal := journal');
    forall token | token in w'.ledger ensures Accounted(w', token) {
      assert Accounted(w, token);
    }
  }

  lemma KeptByPlans(w: World, plans': P.Table, journal': map<Id, seq<Entry>>)
    requires Inv(w)
    requires w.plans.Keys <= plans'.Keys == journal'.Keys
    requires forall id :: id in w.plans ==> PlanMayBecome(w.plans[id], plans'[id])
    requires forall id :: id in plans' ==> P.RowOk(plans'[id]) && Tells(journal'[id], plans'[id])
    ensures Inv(w.(plans := plans', journal := journal'))
  {
    var w' := w.(plans := plans', journal := journal');
    assert Stories(w');
    assert Grows(w, w');
    hide Records, Stories, Claims, Tokens, Mints, Tasks, Past, Grows;
    RowsAfterPlans(w, plans', journal');
    TokensAfterPlans(w, plans', journal');
    TasksKept(w, w');
    PastStable(w, w');
  }

  lemma StoryStep(w: World, id: Id, r: P.Row, e: Entry)
    requires Stories(w) && id in w.plans && PlanMayBecome(w.plans[id], r) && P.RowOk(r) && Tells(w.journal[id] + [e], r)
    ensures var plans', journal' := w.plans[id := r], Note(w, id, e);
            && w.plans.Keys <= plans'.Keys == journal'.Keys
            && (forall p :: p in w.plans ==> PlanMayBecome(w.plans[p], plans'[p]))
            && (forall p :: p in plans' ==> P.RowOk(plans'[p]) && Tells(journal'[p], plans'[p]))
  {
    hide P.RowOk, Tells;
  }

  /** One plan moves on, and its story with it. */
  lemma KeptByPlanStep(w: World, id: Id, r: P.Row, e: Entry)
    requires Inv(w) && id in w.plans && PlanMayBecome(w.plans[id], r) && P.RowOk(r) && Tells(w.journal[id] + [e], r)
    ensures Inv(w.(plans := w.plans[id := r], journal := Note(w, id, e)))
  {
    hide Records, Stories, Claims, Tokens, Mints, Tasks, Past, P.RowOk, Tells, PlanMayBecome;
    StoryStep(w, id, r, e);
    KeptByPlans(w, w.plans[id := r], Note(w, id, e));
  }

  /** What the invariant says about one plan. */
  lemma AboutPlan(w: World, id: Id)
    requires Inv(w) && id in w.plans
    ensures id in w.journal && P.RowOk(w.plans[id]) && Tells(w.journal[id], w.plans[id])
  {
    hide Records, Claims, Tokens, Mints, Tasks, Past;
  }

  lemma ClaimsKept(w: World, w': World)
    requires Claims(w) && w'.claimer == w.claimer && w'.requested == w.requested && w'.approvals == w.approvals
    ensures Claims(w')
  {
  }

  lemma StoriesKept(w: World, w': World)
    requires Stories(w) && w'.plans == w.plans && w'.journal == w.journal
    ensures Stories(w')
  {
  }

  lemma MintsKept(w: World, w': World)
    requires Mints(w) && w'.minted == w.minted && w'.grantOf == w.grantOf && w'.claimer == w.claimer
             && w'.requested == w.requested
    ensures Mints(w')
  {
  }

  // ---- resolve_operation ----

  lemma ArriveKeeps(w: World, t: TaskId, op: Op)
    requires Inv(w)
    ensures Inv(StepArrive(w, t, op))
  {
    hide Stories, Claims, Tokens, Mints, Tasks, Past, Records;
    var verdict := w.policy(op.cfg, op.caller, op.request);
    if !(t in w.tasks || !op.request.IsOperation() || verdict.None? || verdict.value.effect.Deny?) {
      var d := verdict.value;
      if d.effect.Allow? && !MustLook(op) {
        KeptByIssue(w, t, Execution(op, Some(d), Unmetered, None));
      } else if op.cfg.approvalsEnabled {
        KeptByTask(w, t, AtPlan(op, d));
      }
    }
  }

  lemma MutateProfileKeeps(w: World, t: TaskId, op: Op)
    requires Inv(w)
    ensures Inv(StepMutateProfile(w, t, op))
  {
    hide Inv;
    if !(t in w.tasks || !op.caller.Mcp? || !op.request.ManagesProfiles() || op.cfg.cloud) {
      KeptByIssue(w, t, Execution(op, None, Unmetered, None));
    }
  }

  /** The invariant on one task, as the events that move it use it. */
  lemma AboutTask(w: World, t: TaskId)
    requires Tasks(w) && t in w.tasks
    ensures HolderOk(w, t, HoldsOf(w.tasks[t])) && TaskToken(w, t, w.tasks[t]) && TaskEvidence(w, w.tasks[t])
  {
    assert TaskOk(w, t, w.tasks[t]);
  }

  lemma ClaimedIndexIsFresh(w: World, id: Id)
    requires Tokens(w) && Stories(w) && id in w.plans && w.plans[id].status.Approved?
    ensures PlanToken(id, w.plans[id].nextIndex) !in w.ledger
  {
    assert PlanToken(id, w.plans[id].nextIndex) in w.ledger ==> Accounted(w, PlanToken(id, w.plans[id].nextIndex));
  }

  lemma PlansAfterClaim(w: World, id: Id, leaseUntil: Time)
    requires Inv(w) && id in w.plans && w.plans[id].status.Approved?
    ensures Inv(w.(plans := P.MarkClaimed(w.plans, id, w.plans[id].nextIndex, leaseUntil),
                   journal := Note(w, id, Claimed(w.plans[id].nextIndex))))
  {
    hide Records, Stories, Claims, Tokens, Mints, Tasks, Past;
    AboutPlan(w, id);
    KeptByPlanStep(w, id, P.MarkClaimed(w.plans, id, w.plans[id].nextIndex, leaseUntil)[id],
      Claimed(w.plans[id].nextIndex));
  }

  lemma ClaimPlanKeeps(w: World, t: TaskId, pick: Option<Id>, now: Time, leaseNow: Time, files: Files)
    requires Inv(w)
    ensures Inv(StepClaimPlan(w, t, pick, now, leaseNow, files))
  {
    hide Stories, Claims, Tokens, Mints, Tasks, Past, Records;
    if t in w.tasks && w.tasks[t].AtPlan? {
      AboutTask(w, t);
      var op, d := w.tasks[t].op, w.tasks[t].d;
      if !op.caller.EnforcesAgentPolicy() || op.taskId.None? {
        KeptByTask(w, t, AtGrant(op, d, None));
      } else if P.Newest(w.plans, P.Query(op.Profile(), op.taskId.value, op.Namespace()), now, pick) {
        ClaimTransactionKeeps(w, t, op, d, pick, now, leaseNow, files);
      }
    }
  }

  lemma NothingNewest(op: Op, plans: P.Table, now: Time)
    requires op.taskId.Some? && P.Newest(plans, P.Query(op.Profile(), op.taskId.value, op.Namespace()), now, None)
    ensures NoLivePlan(op, Sight(plans, now))
  {
  }

  lemma ClaimTransactionKeeps(w: World, t: TaskId, op: Op, d: Decision, pick: Option<Id>, now: Time, leaseNow: Time,
      files: Files)
    requires Inv(w) && t in w.tasks && w.tasks[t] == AtPlan(op, d) && Decided(w, op, d) && op.cfg.approvalsEnabled
    requires op.caller.EnforcesAgentPolicy() && op.taskId.Some?
    requires P.Newest(w.plans, P.Query(op.Profile(), op.taskId.value, op.Namespace()), now, pick)
    ensures Inv(StepClaimPlan(w, t, pick, now, leaseNow, files))
  {
    hide Inv, NoLivePlan, Decided;
    assert pick.Some? ==> pick.value in w.plans;
    match P.Claim(w.plans, pick, op.request, files)
    case NoPlan =>
      NothingNewest(op, w.plans, now);
      NoPlanKeeps(w, t, op, d, Sight(w.plans, now));
    case Refused(_) => KeptByEnd(w, t);
    case Claimed(id, index) =>
      P.ClaimedNext(w.plans, pick.value, op.request, files);
      ClaimedTransactionKeeps(w, t, op, d, id, now, A.SaturatingAdd(leaseNow, P.LeaseSeconds(op.request)), files);
  }

  lemma NoPlanKeeps(w: World, t: TaskId, op: Op, d: Decision, sight: Sight)
    requires Inv(w) && Decided(w, op, d) && op.cfg.approvalsEnabled && NoLivePlan(op, sight)
    ensures d.effect.Allow? ==> Inv(Issue(w, t, Execution(op, Some(d), Unmetered, Some(sight))))
    ensures !d.effect.Allow? ==> Inv(SetTask(w, t, AtGrant(op, d, Some(sight))))
  {
    hide Inv;
    if d.effect.Allow? {
      KeptByIssue(w, t, Execution(op, Some(d), Unmetered, Some(sight)));
    } else {
      KeptByTask(w, t, AtGrant(op, d, Some(sight)));
    }
  }

  lemma ClaimedTransactionKeeps(w: World, t: TaskId, op: Op, d: Decision, id: Id, now: Time, leaseUntil: Time,
      files: Files)
    requires Inv(w) && t in w.tasks && w.tasks[t] == AtPlan(op, d) && Decided(w, op, d)
    requires op.taskId.Some? && P.Newest(w.plans, P.Query(op.Profile(), op.taskId.value, op.Namespace()), now, Some(id))
    requires P.Claim(w.plans, Some(id), op.request, files).Claimed?
    ensures var index := w.plans[id].nextIndex;
            var w1 :=
              w.(plans := P.MarkClaimed(w.plans, id, index, leaseUntil), journal := Note(w, id, Claimed(index)));
            Inv(Issue(w1, t, Execution(op, Some(d), PlanToken(id, index), Some(Sight(w.plans, now)))))
    ensures PlanToken(id, w.plans[id].nextIndex) !in w.ledger
            && op.request == w.plans[id].actions[w.plans[id].nextIndex]
  {
    var index := w.plans[id].nextIndex;
    var w1 := w.(plans := P.MarkClaimed(w.plans, id, index, leaseUntil), journal := Note(w, id, Claimed(index)));
    hide Records, Stories, Claims, Tokens, Mints, Tasks, Past;
    AboutPlan(w, id);
    assert w.plans[id].status.Approved?;
    P.ClaimedNext(w.plans, id, op.request, files);
    hide Justified, Accounted, P.Newest, P.Claim;
    ClaimedIndexIsFresh(w, id);
    PlansAfterClaim(w, id, leaseUntil);
    ClaimIsJustified(w, w1, op, d, id, now, leaseUntil, files);
    KeptByIssue(w1, t, Execution(op, Some(d), PlanToken(id, index), Some(Sight(w.plans, now))));
  }

  lemma ClaimIsJustified(w: World, w1: World, op: Op, d: Decision, id: Id, now: Time, leaseUntil: Time, files: Files)
    requires op.taskId.Some? && id in w.plans && w.plans[id].claimedIndex.None? && Decided(w, op, d)
    requires P.Newest(w.plans, P.Query(op.Profile(), op.taskId.value, op.Namespace()), now, Some(id))
    requires P.Claim(w.plans, Some(id), op.request, files).Claimed?
    requires w1
             == w.(plans := P.MarkClaimed(w.plans, id, w.plans[id].nextIndex, leaseUntil),
               journal := Note(w, id, Claimed(w.plans[id].nextIndex)))
    ensures Justified(w1, Execution(op, Some(d), PlanToken(id, w.plans[id].nextIndex), Some(Sight(w.plans, now))))
    ensures Accounted(w1, PlanToken(id, w.plans[id].nextIndex))
  {
  }

  lemma ConsumeGrantKeeps(w: World, t: TaskId, ids: seq<Id>, now: Time, ticks: seq<Time>)
    requires Inv(w)
    ensures Inv(StepConsumeGrant(w, t, ids, now, ticks))
  {
    hide Records, Stories, Claims, Tokens, Mints, Tasks, Past;
    if t in w.tasks && w.tasks[t].AtGrant? {
      AboutTask(w, t);
      hide Inv;
      var op, d, sight := w.tasks[t].op, w.tasks[t].d, w.tasks[t].sight;
      if d.ruleId.None? {
        KeptByEnd(w, t);
      } else if G.Answers(w.grants, GrantQuery(op, d), now, ids) && |ticks| == |ids| {
        var k := G.FirstSpendable(w.grants, ids, ticks);
        if k == |ids| {
          KeptByTask(w, t, AtRequest(op, d));
        } else {
          ChargeKeeps(w, t, op, d, sight, ids[k], now, ticks[k]);
        }
      }
    }
  }

  lemma ChargeKeeps(w: World, t: TaskId, op: Op, d: Decision, sight: Option<Sight>, id: Id, now: Time, tick: Time)
    requires Inv(w) && TaskEvidence(w, AtGrant(op, d, sight)) && d.ruleId.Some?
    requires id in w.grants && G.Eligible(w.grants[id], GrantQuery(op, d), now) && G.Spendable(w.grants[id], tick)
    ensures Inv(Issue(w.(grants := G.Charge(w.grants, id)), t,
            Execution(op, Some(d), GrantToken(id, w.grants[id].usedCount), sight)))
    ensures GrantToken(id, w.grants[id].usedCount) !in w.ledger
    ensures Covered(w, Execution(op, Some(d), GrantToken(id, w.grants[id].usedCount), sight))
  {
    hide Records, Stories, Claims, Tokens, Mints, Tasks, Past;
    var w1 := w.(grants := G.Charge(w.grants, id));
    var x := Execution(op, Some(d), GrantToken(id, w.grants[id].usedCount), sight);
    GrantUseIsFresh(w, id, tick);
    KeptByGrants(w, w1.grants);
    GrantIsJustified(w, op, d, sight, id, now);
    JustifiedStable(w, w1, x);
    KeptByIssue(w1, t, x);
  }

  lemma GrantIsJustified(w: World, op: Op, d: Decision, sight: Option<Sight>, id: Id, now: Time)
    requires Records(w) && TaskEvidence(w, AtGrant(op, d, sight)) && d.ruleId.Some?
    requires id in w.grants && G.Eligible(w.grants[id], GrantQuery(op, d), now)
    ensures Justified(w, Execution(op, Some(d), GrantToken(id, w.grants[id].usedCount), sight))
  {
  }

  lemma ChargeMoves(w: World, id: Id, tick: Time)
    requires Records(w) && id in w.grants && G.Spendable(w.grants[id], tick)
    ensures GrantsMayBecome(w.grants, G.Charge(w.grants, id))
    ensures id in w.minted && SameTerms(w.grants[id], w.minted[id].0) && G.RowOk(w.grants[id])
  {
  }

  lemma UnusedUse(w: World, id: Id)
    requires Tokens(w) && id in w.grants
    ensures GrantToken(id, w.grants[id].usedCount) !in w.ledger
  {
    assert GrantToken(id, w.grants[id].usedCount) in w.ledger ==> Accounted(w, GrantToken(id, w.grants[id].usedCount));
  }

  lemma MintedBounded(w: World, id: Id)
    requires Mints(w) && id in w.minted
    ensures w.minted[id].0.maxUses.Some?
  {
    hide G.Permitted;
  }

  lemma GrantUseIsFresh(w: World, id: Id, tick: Time)
    requires Records(w) && Tokens(w) && Mints(w) && id in w.grants && G.Spendable(w.grants[id], tick)
    ensures GrantToken(id, w.grants[id].usedCount) !in w.ledger
    ensures GrantsMayBecome(w.grants, G.Charge(w.grants, id))
    ensures Accounted(w.(grants := G.Charge(w.grants, id)), GrantToken(id, w.grants[id].usedCount))
  {
    hide Records, Tokens, Mints, GrantsMayBecome;
    ChargeMoves(w, id, tick);
    UnusedUse(w, id);
    MintedBounded(w, id);
  }

  lemma RecordsAfterInsert(w: World, id: Id, row: A.Row)
    requires Records(w) && id !in w.requested && Requestable(row)
    ensures Records(InsertApproval(w, id, Some(row)))
  {
    hide G.RowOk, SameTerms;
  }

  lemma InsertGrows(w: World, id: Id, row: A.Row)
    requires Records(w) && id !in w.requested
    ensures Grows(w, InsertApproval(w, id, Some(row))) && ExecutingStay(w, InsertApproval(w, id, Some(row)))
  {
    hide G.RowOk, SameTerms;
  }

  lemma ClaimsAfterInsert(w: World, id: Id, row: A.Row)
    requires Claims(w) && Mints(w) && id !in w.requested
    ensures Claims(InsertApproval(w, id, Some(row))) && Mints(InsertApproval(w, id, Some(row)))
  {
    hide Inherits, Processed;
  }

  lemma InsertApprovalKeeps(w: World, id: Id, row: Option<A.Row>)
    requires Inv(w) && (row.Some? ==> Requestable(row.value))
    ensures Inv(InsertApproval(w, id, row))
  {
    hide Records, Stories, Claims, Tokens, Mints, Tasks, Past, ExecutingStay, Grows;
    if id !in w.requested && row.Some? {
      var w' := InsertApproval(w, id, row);
      RecordsAfterInsert(w, id, row.value);
      ClaimsAfterInsert(w, id, row.value);
      InsertGrows(w, id, row.value);
      StoriesKept(w, w');
      TokensKept(w, w');
      TasksKept(w, w');
      PastStable(w, w');
    }
  }

  lemma RequestApprovalKeeps(w: World, t: TaskId, id: Id, now: Time, files: Files)
    requires Inv(w)
    ensures Inv(StepRequestApproval(w, t, id, now, files))
  {
    hide Stories, Claims, Tokens, Mints, Tasks, Past, Records;
    if t in w.tasks && w.tasks[t].AtRequest? && id !in w.requested {
      AboutTask(w, t);
      var op, d := w.tasks[t].op, w.tasks[t].d;
      var row :=
        A.NewRow(op.request, files, now, op.cfg.approvalTtl, op.caller, d.ruleId, d.risk, op.taskId, op.Namespace());
      InsertApprovalKeeps(w, id, row);
      KeptByEnd(InsertApproval(w, id, row), t);
    }
  }

  // ---- Execution and plan completion ----

  lemma TokensAfterRecord(w: World, t: TaskId, x: Execution)
    requires Tokens(w) && (!x.token.Unmetered? ==> x.token in w.ledger && w.ledger[x.token] == Held(t))
    ensures Tokens(Record(w, x))
  {
    var w' := Record(w, x);
    forall i | 0 <= i < |w'.history| && !w'.history[i].token.Unmetered?
      ensures w'.history[i].token in w'.ledger && w'.ledger[w'.history[i].token] == Spent(i)
    {
      if i < |w.history| {
        assert w.history[i].token in w.ledger && w.ledger[w.history[i].token] == Spent(i);
      }
    }
    assert forall token :: token in w'.ledger ==> token in w.ledger && Accounted(w, token);
  }

  lemma TaskAfterRecord(w: World, t: TaskId, x: Execution, u: TaskId, s: Task)
    requires TaskOk(w, u, s) && u != t
    requires !x.token.Unmetered? ==> x.token in w.ledger && w.ledger[x.token] == Held(t)
    ensures TaskOk(Record(w, x), u, s)
  {
    EvidenceStable(w, Record(w, x), s);
  }

  lemma PastAfterRecord(w: World, x: Execution)
    requires Past(w) && Justified(w, x)
    ensures Past(Record(w, x))
  {
    var w' := Record(w, x);
    forall i | 0 <= i < |w'.history| ensures Justified(w', w'.history[i]) {
      JustifiedStable(w, w', w'.history[i]);
    }
  }

  lemma KeptByRecord(w: World, t: TaskId, x: Execution)
    requires Inv(w) && t !in w.tasks && Justified(w, x)
    requires !x.token.Unmetered? ==> x.token in w.ledger && w.ledger[x.token] == Held(t)
    ensures Inv(Record(w, x))
  {
    var w' := Record(w, x);
    forall u | u in w'.tasks ensures TaskOk(w', u, w'.tasks[u]) {
      TaskAfterRecord(w, t, x, u, w.tasks[u]);
    }
    TablesKept(w, w');
    TokensAfterRecord(w, t, x);
    PastAfterRecord(w, x);
  }

  lemma ExecuteKeeps(w: World, t: TaskId)
    requires Inv(w)
    ensures Inv(StepExecute(w, t))
  {
    hide Records, Stories, Claims, Tokens, Mints, Tasks, Past;
    if t in w.tasks && w.tasks[t].Ready? {
      AboutTask(w, t);
      var x := w.tasks[t].x;
      var w1 := EndTask(w, t);
      KeptByEnd(w, t);
      JustifiedStable(w, w1, x);
      KeptByRecord(w1, t, x);
      if x.token.PlanToken? || x.token.ApprovalToken? {
        KeptByTask(Record(w1, x), t, Ran(x.token));
      }
    }
  }

  lemma FinishPlanKeeps(w: World, t: TaskId, success: bool)
    requires Inv(w)
    ensures Inv(StepFinishPlan(w, t, success))
  {
    hide Inv;
    if t in w.tasks && w.tasks[t].Ran? && w.tasks[t].token.PlanToken? {
      var id, index := w.tasks[t].token.planId, w.tasks[t].token.index;
      KeptByEnd(w, t);
      var w1 := EndTask(w, t);
      if P.LeaseHeld(w.plans, id, index) {
        AboutPlan(w1, id);
        FinishedStory(w1.journal[id], w1.plans[id], success);
        KeptByPlanStep(w1, id, P.Finish(w1.plans, id, index, success)[id], if success then Done(index)
          else Broke(index));
      }
    }
  }

  lemma FinishedStory(story: seq<Entry>, r: P.Row, success: bool)
    requires P.RowOk(r) && Tells(story, r) && r.status.Executing?
    ensures var n := r.nextIndex;
            var r' := if success
              then r.(nextIndex := n + 1, claimedIndex := None, claimExpiresAt := None,
                status := if n + 1 >= |r.actions|
                then P.Completed else P.Approved)
                      else r.(status := P.Failed, claimedIndex := None, claimExpiresAt := None);
            P.RowOk(r') && PlanMayBecome(r, r') && Tells(story + [if success then Done(n) else Broke(n)], r')
  {
    var n := r.nextIndex;
    assert Progress(n) + [Claimed(n)] + [Done(n)] == Progress(n + 1);
    assert Progress(n) + [Claimed(n)] + [Broke(n)] == Progress(n) + [Claimed(n), Broke(n)];
  }

  // ---- The ApprovalApprove arm ----

  lemma OpenKeeps(w: World, t: TaskId, caller: Caller, session: string, id: Id, wish: Option<G.Wish>)
    requires Inv(w)
    ensures Inv(StepOpen(w, t, caller, session, id, wish))
  {
    hide Stories, Claims, Tokens, Mints, Tasks, Past;
    assert id in w.approvals ==> id in w.requested && w.approvals[id].request == w.requested[id].request;
    hide Inv;
    if StepOpen(w, t, caller, session, id, wish) != w {
      KeptByTask(w, t, Opened(id, session, wish));
    }
  }

  lemma SelectKeeps(w: World, t: TaskId, now: Time, files: Files)
    requires Inv(w)
    ensures Inv(StepSelect(w, t, now, files))
  {
    hide Stories, Claims, Tokens, Mints, Tasks, Past;
    if t in w.tasks && w.tasks[t].Opened? {
      AboutTask(w, t);
      var id := w.tasks[t].id;
      assert id in w.approvals && w.approvals[id].status.Pending? ==> w.approvals[id] == w.requested[id];
      hide Inv;
      if A.Claimable(w.approvals, id, now, None)
        && RequestHash(w.approvals[id].request, files) == Some(w.approvals[id].hash) {
        KeptByTask(w, t, Selected(id, w.tasks[t].session, w.tasks[t].wish, w.approvals[id]));
      } else {
        KeptByEnd(w, t);
      }
    }
  }

  /** The winning update, before the winner's own task moves on. */
  function Claim(w: World, t: TaskId, id: Id): World
    requires id in w.approvals
  {
    w.(approvals := A.SetStatus(w.approvals, id, A.Executing), claimer := w.claimer[id := t])
  }

  lemma RowsAfterWin(w: World, t: TaskId, id: Id)
    requires Records(w) && Claims(w) && A.IsPending(w.approvals, id)
    ensures Records(Claim(w, t, id)) && Claims(Claim(w, t, id))
  {
  }

  lemma TokensAfterWin(w: World, t: TaskId, id: Id)
    requires Tokens(w) && id in w.approvals
    ensures Tokens(Claim(w, t, id))
  {
    var w' := Claim(w, t, id);
    forall token | token in w'.ledger ensures Accounted(w', token) {
      assert Accounted(w, token);
    }
  }

  lemma MintsAfterWin(w: World, t: TaskId, id: Id)
    requires Mints(w) && id in w.approvals
    ensures Mints(Claim(w, t, id))
  {
  }

  lemma TasksAfterWin(w: World, t: TaskId, id: Id)
    requires Tasks(w) && Claims(w) && A.IsPending(w.approvals, id)
    ensures Tasks(Claim(w, t, id))
  {
    var w' := Claim(w, t, id);
    forall u | u in w'.tasks ensures TaskOk(w', u, w'.tasks[u]) {
      AboutTask(w, u);
      EvidenceStable(w, w', w.tasks[u]);
    }
  }

  lemma PendingIsFresh(w: World, id: Id)
    requires Claims(w) && Tokens(w) && Mints(w) && A.IsPending(w.approvals, id)
    ensures id !in w.claimer && ApprovalToken(id) !in w.ledger && id !in w.grantOf
  {
    assert ApprovalToken(id) in w.ledger ==> Accounted(w, ApprovalToken(id));
  }

  lemma WinKeeps(w: World, t: TaskId)
    requires Inv(w)
    ensures Inv(StepWin(w, t))
    ensures t in w.tasks && w.tasks[t].Selected? && A.IsPending(w.approvals, w.tasks[t].id) ==>
              var id, w' := w.tasks[t].id, StepWin(w, t);
              && id !in w.claimer && id in w'.claimer && w'.claimer[id] == t
              && ApprovalToken(id) !in w.ledger && id !in w.grantOf
  {
    hide Records, Stories, Claims, Tokens, Mints, Tasks, Past;
    if t in w.tasks && w.tasks[t].Selected? {
      AboutTask(w, t);
      var s := w.tasks[t];
      if A.IsPending(w.approvals, s.id) {
        PendingIsFresh(w, s.id);
        ClaimKeeps(w, t, s.id);
        var w1 := Claim(w, t, s.id);
        hide Inv;
        EvidenceStable(w, w1, s);
        KeptByTask(w1, t, Won(s.id, s.session, s.wish, s.row));
        assert StepWin(w, t) == SetTask(w1, t, Won(s.id, s.session, s.wish, s.row));
      } else {
        KeptByEnd(w, t);
      }
    }
  }

  lemma ClaimKeeps(w: World, t: TaskId, id: Id)
    requires Inv(w) && A.IsPending(w.approvals, id)
    ensures var w' := Claim(w, t, id);
            Inv(w') && id in w'.claimer && w'.claimer[id] == t && ApprovalToken(id) !in w'.ledger && id !in w'.grantOf
  {
    hide Records, Stories, Claims, Tokens, Mints, Tasks, Past;
    var w' := Claim(w, t, id);
    RowsAfterWin(w, t, id);
    TokensAfterWin(w, t, id);
    MintsAfterWin(w, t, id);
    TasksAfterWin(w, t, id);
    PendingIsFresh(w, id);
    PastStable(w, w');
    StoriesKept(w, w');
  }

  lemma RehashKeeps(w: World, t: TaskId, files: Files)
    requires Inv(w)
    ensures Inv(StepRehash(w, t, files))
  {
    hide Stories, Claims, Tokens, Mints, Tasks, Past, Records;
    if t in w.tasks && w.tasks[t].Won? {
      AboutTask(w, t);
      var s := w.tasks[t];
      hide Inv;
      if RequestHash(s.row.request, files) != Some(s.row.hash) {
        KeptByTask(w, t, Closing(s.id));
      } else {
        KeptByTask(w, t, Rehashed(s.id, s.session, s.wish, s.row));
      }
    }
  }

  lemma FrozenIsJustified(w: World, a: Id, session: string, cfg: AppConfig, decision: Option<Decision>)
    requires a in w.requested
    requires var row := w.requested[a];
             if row.request.ManagesProfiles() then decision.None?
             else decision.Some? && w.policy(cfg, row.caller, row.request) == decision && !decision.value.effect.Deny?
    ensures Justified(w, Execution(FrozenOp(w.requested[a], session, cfg), decision, ApprovalToken(a), None))
  {
  }

  lemma RedecideKeeps(w: World, t: TaskId, cfg: AppConfig)
    requires Inv(w)
    ensures Inv(StepRedecide(w, t, cfg))
  {
    hide Records, Stories, Claims, Tokens, Mints, Tasks, Past;
    if t in w.tasks && w.tasks[t].Rehashed? {
      AboutTask(w, t);
      var s := w.tasks[t];
      var op := FrozenOp(s.row, s.session, cfg);
      hide Inv, Justified;
      var verdict := w.policy(cfg, s.row.caller, s.row.request);
      if s.row.request.ManagesProfiles() {
        FrozenIsJustified(w, s.id, s.session, cfg, None);
        KeptByIssue(w, t, Execution(op, None, ApprovalToken(s.id), None));
      } else if verdict.None? || verdict.value.effect.Deny? {
        KeptByTask(w, t, Closing(s.id));
      } else {
        var x := Execution(op, verdict, ApprovalToken(s.id), None);
        FrozenIsJustified(w, s.id, s.session, cfg, verdict);
        if s.wish.Some? && verdict.value.effect.Confirm? {
          KeptByTask(w, t, Minting(s.id, s.wish.value, x));
        } else {
          KeptByIssue(w, t, x);
        }
      }
    }
  }

  lemma ValidatedTerms(w: World, a: Id, wish: G.Wish, rule: Option<string>)
    requires a in w.requested && a in w.approvals && w.approvals[a] == w.requested[a].(status := A.Executing)
    ensures var r := G.ValidateSource(w.approvals, a, wish, A.Executing, rule);
            r.Ok? ==> G.TermsOk(r.value, wish, w.requested[a])
  {
    G.ValidationExact(w.approvals, a, wish, A.Executing, rule);
  }

  lemma ValidateGrantKeeps(w: World, t: TaskId)
    requires Inv(w)
    ensures Inv(StepValidateGrant(w, t))
  {
    hide Records, Stories, Claims, Tokens, Mints, Tasks, Past;
    if t in w.tasks && w.tasks[t].Minting? && w.tasks[t].x.decision.Some? {
      AboutTask(w, t);
      var s := w.tasks[t];
      ExecutingRow(w, s.id);
      var rule := s.x.decision.value.ruleId;
      ValidatedTerms(w, s.id, s.granting, rule);
      hide Inv, Justified, G.ValidateSource, G.TermsOk;
      var validated := G.ValidateSource(w.approvals, s.id, s.granting, A.Executing, rule);
      if rule.None? || validated.Err? {
        KeptByTask(w, t, Closing(s.id));
      } else {
        KeptByTask(w, t, Inserting(s.id, s.granting, validated.value, s.x));
      }
    }
  }

  /** The inserted grant, once its approval's execution has been issued. */
  function Mint(w: World, id: Id, row: G.Row, wish: G.Wish): World {
    w.(grants := w.grants[id := row], minted := w.minted[id := (row, wish)], grantOf := w.grantOf[row.source := id])
  }

  predicate Mintable(w: World, t: TaskId, id: Id, row: G.Row, wish: G.Wish) {
    && id !in w.minted && row.source !in w.grantOf && row.source in w.claimer && w.claimer[row.source] == t
    && row.source in w.requested && Inherits(row, wish, w.requested[row.source])
    && row.usedCount == 0 && row.status.Active?
    && t in w.tasks && Undecided(w.tasks[t]).None?
  }

  lemma RecordsAfterMint(w: World, t: TaskId, id: Id, row: G.Row, wish: G.Wish)
    requires Records(w) && Mintable(w, t, id, row, wish)
    ensures Records(Mint(w, id, row, wish))
  {
  }

  lemma MintsAfterMint(w: World, t: TaskId, id: Id, row: G.Row, wish: G.Wish)
    requires Mints(w) && Mintable(w, t, id, row, wish)
    ensures Mints(Mint(w, id, row, wish))
  {
    hide Inherits;
  }

  lemma TokensAfterMint(w: World, t: TaskId, id: Id, row: G.Row, wish: G.Wish)
    requires Tokens(w) && Mintable(w, t, id, row, wish)
    ensures Tokens(Mint(w, id, row, wish))
  {
    var w' := Mint(w, id, row, wish);
    forall token | token in w'.ledger ensures Accounted(w', token) {
      assert Accounted(w, token);
    }
  }

  lemma TasksAfterMint(w: World, t: TaskId, id: Id, row: G.Row, wish: G.Wish)
    requires Tasks(w) && Mintable(w, t, id, row, wish)
    ensures Tasks(Mint(w, id, row, wish))
  {
    var w' := Mint(w, id, row, wish);
    forall u | u in w'.tasks ensures TaskOk(w', u, w'.tasks[u]) {
      AboutTask(w, u);
      EvidenceStable(w, w', w.tasks[u]);
    }
  }

  lemma KeptByMint(w: World, t: TaskId, id: Id, row: G.Row, wish: G.Wish)
    requires Inv(w) && Mintable(w, t, id, row, wish)
    ensures Inv(Mint(w, id, row, wish))
  {
    hide Records, Stories, Claims, Tokens, Mints, Tasks, Past;
    var w' := Mint(w, id, row, wish);
    RecordsAfterMint(w, t, id, row, wish);
    MintsAfterMint(w, t, id, row, wish);
    ClaimsKept(w, w');
    TokensAfterMint(w, t, id, row, wish);
    TasksAfterMint(w, t, id, row, wish);
    StoriesKept(w, w');
    PastStable(w, w');
  }

  /** A row that is being executed still is the row first inserted, but for its status. */
  lemma ExecutingRow(w: World, id: Id)
    requires Records(w) && id in w.approvals && w.approvals[id].status.Executing?
    ensures id in w.requested && w.approvals[id] == w.requested[id].(status := A.Executing)
  {
  }

  lemma InsertGrantKeeps(w: World, t: TaskId, id: Id, now: Time)
    requires Inv(w)
    ensures Inv(StepInsertGrant(w, t, id, now))
  {
    hide Records, Stories, Claims, Tokens, Mints, Tasks, Past;
    if t in w.tasks && w.tasks[t].Inserting? && id !in w.minted {
      AboutTask(w, t);
      var s := w.tasks[t];
      ExecutingRow(w, s.id);
      hide Inv, Justified;
      if !G.SourceFree(w.grants, s.id) {
        KeptByTask(w, t, Closing(s.id));
      } else {
        IssuedGrantKeeps(w, t, s.id, s.granting, s.terms, s.x, id, now);
      }
    }
  }

  lemma IssuedGrantKeeps(w: World, t: TaskId, a: Id, wish: G.Wish, terms: G.Terms, x: Execution, id: Id, now: Time)
    requires Inv(w) && t in w.tasks && w.tasks[t] == Inserting(a, wish, terms, x) && id !in w.minted
    requires HolderOk(w, t, Some(a)) && x.token == ApprovalToken(a) && x.token !in w.ledger && a !in w.grantOf
             && Justified(w, x)
    requires a in w.requested && w.approvals[a] == w.requested[a].(status := A.Executing)
             && G.TermsOk(terms, wish, w.requested[a])
    ensures Inv(Mint(Issue(w, t, x), id, G.NewRow(terms, wish, a, w.approvals[a].namespace, now), wish))
  {
    hide Inv, Justified;
    KeptByIssue(w, t, x);
    KeptByMint(Issue(w, t, x), t, id, G.NewRow(terms, wish, a, w.approvals[a].namespace, now), wish);
  }

  lemma RowsAfterFinish(w: World, id: Id, ok: bool)
    requires Records(w) && Claims(w)
    ensures var w' := w.(approvals := A.Finish(w.approvals, id, ok)); Records(w') && Claims(w')
  {
  }

  lemma TasksAfterFinish(w: World, id: Id, ok: bool)
    requires Tasks(w) && forall u :: u in w.tasks ==> HoldsOf(w.tasks[u]) != Some(id)
    ensures Tasks(w.(approvals := A.Finish(w.approvals, id, ok)))
  {
    var w' := w.(approvals := A.Finish(w.approvals, id, ok));
    forall u | u in w'.tasks ensures TaskOk(w', u, w'.tasks[u]) {
      AboutTask(w, u);
      EvidenceStable(w, w', w.tasks[u]);
    }
  }

  lemma KeptByFinish(w: World, id: Id, ok: bool)
    requires Inv(w) && forall u :: u in w.tasks ==> HoldsOf(w.tasks[u]) != Some(id)
    ensures Inv(w.(approvals := A.Finish(w.approvals, id, ok)))
  {
    hide Records, Stories, Claims, Tokens, Mints, Tasks, Past;
    var w' := w.(approvals := A.Finish(w.approvals, id, ok));
    RowsAfterFinish(w, id, ok);
    TasksAfterFinish(w, id, ok);
    TokensKept(w, w');
    StoriesKept(w, w');
    PastStable(w, w');
    MintsKept(w, w');
  }

  lemma NobodyElseHolds(w: World, t: TaskId, id: Id)
    requires Tasks(w) && t in w.tasks && HoldsOf(w.tasks[t]) == Some(id)
    ensures forall u :: u in EndTask(w, t).tasks ==> HoldsOf(EndTask(w, t).tasks[u]) != Some(id)
  {
    AboutTask(w, t);
    forall u | u in EndTask(w, t).tasks ensures HoldsOf(EndTask(w, t).tasks[u]) != Some(id) {
      AboutTask(w, u);
    }
  }

  lemma ReleaseKeeps(w: World, t: TaskId, id: Id, ok: bool)
    requires Inv(w) && t in w.tasks && HoldsOf(w.tasks[t]) == Some(id)
    ensures Inv(EndTask(w, t).(approvals := A.Finish(w.approvals, id, ok)))
  {
    hide Records, Stories, Claims, Tokens, Mints, Tasks, Past;
    NobodyElseHolds(w, t, id);
    hide Inv, HoldsOf;
    KeptByEnd(w, t);
    KeptByFinish(EndTask(w, t), id, ok);
  }

  lemma FinishApprovalKeeps(w: World, t: TaskId, ok: bool)
    requires Inv(w)
    ensures Inv(StepFinishApproval(w, t, ok))
  {
    hide Inv, A.Finish;
    if t in w.tasks && (w.tasks[t].Closing? || (w.tasks[t].Ran? && w.tasks[t].token.ApprovalToken?)) {
      ReleaseKeeps(w, t, HoldsOf(w.tasks[t]).value, ok && w.tasks[t].Ran?);
    }
  }

  // ---- Plans: proposal, decision, clock ----

  lemma ProposedStories(w: World, id: Id, row: P.Row)
    requires Stories(w) && id !in w.plans && row.status.Pending? && P.RowOk(row)
    ensures var plans', journal' := w.plans[id := row], w.journal[id := [Proposed]];
            && w.plans.Keys <= plans'.Keys == journal'.Keys
            && (forall p :: p in w.plans ==> PlanMayBecome(w.plans[p], plans'[p]))
            && (forall p :: p in plans' ==> P.RowOk(plans'[p]) && Tells(journal'[p], plans'[p]))
  {
  }

  lemma ProposeKeeps(w: World, caller: Caller, session: string, id: Id, row: Option<P.Row>)
    requires Inv(w) && (row.Some? ==> row.value.status.Pending? && P.RowOk(row.value))
    ensures Inv(StepPropose(w, caller, session, id, row))
  {
    hide Records, Stories, Claims, Tokens, Mints, Tasks, Past, P.RowOk, PlanMayBecome, Tells;
    if caller.EnforcesAgentPolicy() && id !in w.plans && row.Some? {
      ProposedStories(w, id, row.value);
      KeptByPlans(w, w.plans[id := row.value], w.journal[id := [Proposed]]);
    }
  }

  lemma ApprovePlanKeeps(w: World, caller: Caller, id: Id, now: Time)
    requires Inv(w)
    ensures Inv(StepApprovePlan(w, caller, id, now))
  {
    hide Inv;
    if caller.HumanCli? && P.Approvable(w.plans, id, now) {
      AboutPlan(w, id);
      assert [Proposed] + [ApprovedByHuman] == Progress(0);
      KeptByPlanStep(w, id, P.Approve(w.plans, id, now)[id], ApprovedByHuman);
    }
  }

  lemma RejectPlanKeeps(w: World, caller: Caller, id: Id)
    requires Inv(w)
    ensures Inv(StepRejectPlan(w, caller, id))
  {
    hide Inv;
    if caller.HumanCli? && P.Rejectable(w.plans, id) {
      AboutPlan(w, id);
      assert [Proposed] + [Refused] == [Proposed, Refused];
      KeptByPlanStep(w, id, P.Reject(w.plans, id)[id], Refused);
    }
  }

  lemma LapsedStory(story: seq<Entry>, r: P.Row, now: Time)
    requires P.RowOk(r) && Tells(story, r) && P.Overdue(r, now)
    ensures var r' := r.(status := P.Failed, claimedIndex := None, claimExpiresAt := None);
            P.RowOk(r') && PlanMayBecome(r, r') && Tells(story + [Lapsed(r.nextIndex)], r')
  {
    var n := r.nextIndex;
    assert Progress(n) + [Claimed(n)] + [Lapsed(n)] == Progress(n) + [Claimed(n), Lapsed(n)];
  }

  lemma TimedOutStory(story: seq<Entry>, r: P.Row, now: Time)
    requires P.RowOk(r) && Tells(story, r) && P.Outdated(r, now)
    ensures var r' := r.(status := P.Expired);
            P.RowOk(r') && PlanMayBecome(r, r') && Tells(story + [TimedOut], r')
  {
    assert [Proposed] + [TimedOut] == [Proposed, TimedOut];
  }

  lemma JournalKeys(w: World)
    requires Inv(w)
    ensures w.journal.Keys == w.plans.Keys
  {
    hide Records, Claims, Tokens, Mints, Tasks, Past;
  }

  lemma SweepLeasesKeeps(w: World, now: Time)
    requires Inv(w)
    ensures Inv(StepSweepLeases(w, now))
  {
    hide Inv;
    JournalKeys(w);
    var w' := StepSweepLeases(w, now);
    forall id | id in w.plans
      ensures PlanMayBecome(w.plans[id], w'.plans[id]) && P.RowOk(w'.plans[id]) && Tells(w'.journal[id], w'.plans[id])
    {
      AboutPlan(w, id);
      if P.Overdue(w.plans[id], now) { LapsedStory(w.journal[id], w.plans[id], now); }
    }
    KeptByPlans(w, w'.plans, w'.journal);
  }

  lemma SweepPlansKeeps(w: World, now: Time)
    requires Inv(w)
    ensures Inv(StepSweepPlans(w, now))
  {
    hide Inv;
    JournalKeys(w);
    var w' := StepSweepPlans(w, now);
    forall id | id in w.plans
      ensures PlanMayBecome(w.plans[id], w'.plans[id]) && P.RowOk(w'.plans[id]) && Tells(w'.journal[id], w'.plans[id])
    {
      AboutPlan(w, id);
      if P.Outdated(w.plans[id], now) { TimedOutStory(w.journal[id], w.plans[id], now); }
    }
    KeptByPlans(w, w'.plans, w'.journal);
  }

  // ---- Every step, every run ----

  lemma OperationKeeps(w: World, e: Event)
    requires Inv(w)
    requires e.Arrive? || e.ClaimPlan? || e.ConsumeGrant? || e.RequestApproval? || e.RequestMutation?
             || e.MutateProfile? || e.Execute? || e.FinishPlan? || e.Crash?
    ensures Inv(Step(w, e))
  {
    hide Inv, StepArrive, StepClaimPlan, StepConsumeGrant, StepRequestApproval, StepExecute, StepFinishPlan, StepOpen,
      StepSelect, StepWin, StepRehash, StepRedecide, StepValidateGrant, StepInsertGrant, StepFinishApproval,
      StepPropose, StepApprovePlan, StepRejectPlan, StepSweepLeases, StepSweepPlans;
    match e
    case Arrive(t, op) => ArriveKeeps(w, t, op);
    case ClaimPlan(t, pick, now, leaseNow, files) => ClaimPlanKeeps(w, t, pick, now, leaseNow, files);
    case ConsumeGrant(t, ids, now, ticks) => ConsumeGrantKeeps(w, t, ids, now, ticks);
    case RequestApproval(t, id, now, files) => RequestApprovalKeeps(w, t, id, now, files);
    case RequestMutation(id, session, request, cfg, now) =>
      InsertApprovalKeeps(w, id,
        A.NewRow(request, map[], now, cfg.approvalTtl, Mcp, None, Some(High), None, Some(session)));
    case MutateProfile(t, op) => MutateProfileKeeps(w, t, op);
    case Execute(t) => ExecuteKeeps(w, t);
    case FinishPlan(t, success) => FinishPlanKeeps(w, t, success);
    case Crash(t) => KeptByEnd(w, t);
  }

  lemma ApproverKeeps(w: World, e: Event)
    requires Inv(w)
    requires e.Open? || e.Select? || e.Win? || e.Rehash? || e.Redecide? || e.ValidateGrant? || e.InsertGrant?
             || e.FinishApproval?
    ensures Inv(Step(w, e))
  {
    hide Inv, StepArrive, StepClaimPlan, StepConsumeGrant, StepRequestApproval, StepRequestMutation, StepMutateProfile,
      StepExecute, StepFinishPlan, StepOpen, StepSelect, StepWin, StepRehash, StepRedecide, StepValidateGrant,
      StepInsertGrant, StepFinishApproval, StepPropose, StepApprovePlan, StepRejectPlan, StepSweepLeases,
      StepSweepPlans;
    match e
    case Open(t, caller, session, id, wish) => OpenKeeps(w, t, caller, session, id, wish);
    case Select(t, now, files) => SelectKeeps(w, t, now, files);
    case Win(t) => WinKeeps(w, t);
    case Rehash(t, files) => RehashKeeps(w, t, files);
    case Redecide(t, cfg) => RedecideKeeps(w, t, cfg);
    case ValidateGrant(t) => ValidateGrantKeeps(w, t);
    case InsertGrant(t, id, now) => InsertGrantKeeps(w, t, id, now);
    case FinishApproval(t, ok) => FinishApprovalKeeps(w, t, ok);
  }

  lemma ApprovalMoves(t: A.Table, id: Id, now: Time)
    ensures ApprovalsMayBecome(t, A.Reject(t, id, now)) && ApprovalsMayBecome(t, A.Cleanup(t))
            && ApprovalsMayBecome(t, A.Expire(t, now))
  {
  }

  ghost predicate GrantRowsOk(t: G.Table) {
    forall g :: g in t ==> G.RowOk(t[g])
  }

  lemma RevokeMoves(t: G.Table, id: Id)
    requires GrantRowsOk(t)
    ensures GrantsMayBecome(t, G.Revoke(t, id))
  {
  }

  lemma SweepMoves(t: G.Table, now: Time)
    requires GrantRowsOk(t)
    ensures GrantsMayBecome(t, G.Cleanup(t)) && GrantsMayBecome(t, G.Expire(t, now))
  {
  }

  lemma RecordsRows(w: World)
    requires Records(w)
    ensures GrantRowsOk(w.grants)
  {
  }

  lemma ApprovalAdministrationKeeps(w: World, e: Event)
    requires Inv(w) && (e.RejectApproval? || e.CleanApprovals? || e.SweepApprovals?)
    ensures Inv(Step(w, e))
  {
    hide Inv, ApprovalsMayBecome, StepArrive, StepClaimPlan, StepConsumeGrant, StepRequestApproval, StepRequestMutation,
      StepMutateProfile, StepExecute, StepFinishPlan, StepOpen, StepSelect, StepWin, StepRehash, StepRedecide,
      StepValidateGrant, StepInsertGrant, StepFinishApproval, StepPropose, StepApprovePlan, StepRejectPlan,
      StepSweepLeases, StepSweepPlans;
    match e
    case RejectApproval(_, id, now) => ApprovalMoves(w.approvals, id, now);
      KeptByApprovals(w, A.Reject(w.approvals, id, now));
    case CleanApprovals(_) => ApprovalMoves(w.approvals, "", 0); KeptByApprovals(w, A.Cleanup(w.approvals));
    case SweepApprovals(now) => ApprovalMoves(w.approvals, "", now); KeptByApprovals(w, A.Expire(w.approvals, now));
  }

  lemma GrantAdministrationKeeps(w: World, e: Event)
    requires Inv(w) && (e.RevokeGrant? || e.CleanGrants? || e.SweepGrants?)
    ensures Inv(Step(w, e))
  {
    hide Records, Stories, Claims, Tokens, Mints, Tasks, Past, GrantsMayBecome, StepArrive, StepClaimPlan,
      StepConsumeGrant, StepRequestApproval, StepRequestMutation, StepMutateProfile, StepExecute, StepFinishPlan,
      StepOpen, StepSelect, StepWin, StepRehash, StepRedecide, StepValidateGrant, StepInsertGrant, StepFinishApproval,
      StepPropose, StepApprovePlan, StepRejectPlan, StepSweepLeases, StepSweepPlans;
    hide GrantRowsOk;
    RecordsRows(w);
    match e
    case RevokeGrant(_, id) => RevokeMoves(w.grants, id); KeptByGrants(w, G.Revoke(w.grants, id));
    case CleanGrants(_) => SweepMoves(w.grants, 0); KeptByGrants(w, G.Cleanup(w.grants));
    case SweepGrants(now) => SweepMoves(w.grants, now); KeptByGrants(w, G.Expire(w.grants, now));
  }

  lemma PlanningKeeps(w: World, e: Event)
    requires Inv(w) && (e.Propose? || e.ApprovePlan? || e.RejectPlan? || e.SweepLeases? || e.SweepPlans?)
    ensures Inv(Step(w, e))
  {
    hide Inv, StepArrive, StepClaimPlan, StepConsumeGrant, StepRequestApproval, StepRequestMutation, StepMutateProfile,
      StepExecute, StepFinishPlan, StepOpen, StepSelect, StepWin, StepRehash, StepRedecide, StepValidateGrant,
      StepInsertGrant, StepFinishApproval, StepPropose, StepApprovePlan, StepRejectPlan, StepSweepLeases,
      StepSweepPlans;
    match e
    case Propose(caller, session, id, profile, planTask, actions, ttl, maxTtl, now, files) =>
      ProposeKeeps(w, caller, session, id,
        P.NewRow(profile, planTask, actions, ttl, maxTtl, now, files, Some(session)));
    case ApprovePlan(caller, id, now) => ApprovePlanKeeps(w, caller, id, now);
    case RejectPlan(caller, id) => RejectPlanKeeps(w, caller, id);
    case SweepLeases(now) => SweepLeasesKeeps(w, now);
    case SweepPlans(now) => SweepPlansKeeps(w, now);
  }

  lemma StepKeeps(w: World, e: Event)
    requires Inv(w)
    ensures Inv(Step(w, e))
  {
    hide Inv, Step;
    if e.RejectApproval? || e.CleanApprovals? || e.SweepApprovals? { ApprovalAdministrationKeeps(w, e); }
    else if e.RevokeGrant? || e.CleanGrants? || e.SweepGrants? { GrantAdministrationKeeps(w, e); }
    else if e.Open? || e.Select? || e.Win? || e.Rehash? || e.Redecide? || e.ValidateGrant? || e.InsertGrant?
      || e.FinishApproval? { ApproverKeeps(w, e); }
    else if e.Propose? || e.ApprovePlan? || e.RejectPlan? || e.SweepLeases? || e.SweepPlans? { PlanningKeeps(w, e); }
    else { OperationKeeps(w, e); }
  }
}
