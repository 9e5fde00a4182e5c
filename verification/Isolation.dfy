/** What an agent gets does not depend on the rows of other namespaces, and leaves them as they are. */
module Isolation {
  import opened Types
  import opened Config
  import opened Policy
  import opened Gateway
  import A = Approvals
  import G = Grants
  import P = Plans

  /** A task as its agent sees it, without the record of what it saw. */
  function Erased(s: Task): Task {
    match s
    case AtGrant(op, d, _) => AtGrant(op, d, None)
    case Ready(x) => Ready(x.(sight := None))
    case _ => s
  }

  function TaskIn(w: World, t: TaskId): Option<Task> {
    if t in w.tasks then Some(Erased(w.tasks[t])) else None
  }

  ghost predicate OthersKept<Row>(t: map<Id, Row>, t': map<Id, Row>, mine: Row -> bool) {
    t'.Keys == t.Keys && forall id :: id in t && !mine(t[id]) ==> t'[id] == t[id]
  }

  lemma Charged(w: World, t: TaskId, op: Op, d: Decision, sight: Option<Sight>, ids: seq<Id>, now: Time,
      ticks: seq<Time>)
    requires t in w.tasks && w.tasks[t] == AtGrant(op, d, sight) && d.ruleId.Some?
    requires G.Answers(w.grants, GrantQuery(op, d), now, ids) && |ticks| == |ids|
             && G.FirstSpendable(w.grants, ids, ticks) < |ids|
    ensures var id := ids[G.FirstSpendable(w.grants, ids, ticks)];
            id in w.grants &&
            StepConsumeGrant(w, t, ids, now, ticks)
            == Issue(w.(grants := G.Charge(w.grants, id)), t,
              Execution(op, Some(d), GrantToken(id, w.grants[id].usedCount), sight))
  {
    hide G.Charge, Issue;
  }

  lemma Uncharged(w: World, t: TaskId, op: Op, d: Decision, sight: Option<Sight>, ids: seq<Id>, now: Time,
      ticks: seq<Time>)
    requires t in w.tasks && w.tasks[t] == AtGrant(op, d, sight) && d.ruleId.Some?
    requires G.Answers(w.grants, GrantQuery(op, d), now, ids) && |ticks| == |ids|
             && G.FirstSpendable(w.grants, ids, ticks) == |ids|
    ensures StepConsumeGrant(w, t, ids, now, ticks) == SetTask(w, t, AtRequest(op, d))
  {
    hide G.Charge, Issue, SetTask;
  }

  lemma NotConsuming(w: World, t: TaskId, op: Op, d: Decision, sight: Option<Sight>, ids: seq<Id>, now: Time,
      ticks: seq<Time>)
    requires t in w.tasks && w.tasks[t] == AtGrant(op, d, sight)
    requires d.ruleId.None? || !G.Answers(w.grants, GrantQuery(op, d), now, ids) || |ticks| != |ids|
    ensures StepConsumeGrant(w, t, ids, now, ticks) == if d.ruleId.None? then EndTask(w, t) else w
  {
    hide G.Charge, Issue, SetTask, EndTask, G.FirstSpendable;
  }

  /** Consuming a grant depends on the agent's own rows alone, and changes no others. */
  lemma ConsumeIsolated(w: World, u: World, t: TaskId, op: Op, d: Decision, sight: Option<Sight>, ids: seq<Id>,
      now: Time, ticks: seq<Time>)
    requires t in w.tasks && t in u.tasks && w.tasks[t] == AtGrant(op, d, sight) == u.tasks[t]
    requires G.SameNamespace(w.grants, u.grants, op.Namespace())
    ensures var w', u' := StepConsumeGrant(w, t, ids, now, ticks), StepConsumeGrant(u, t, ids, now, ticks);
            && TaskIn(w', t) == TaskIn(u', t) && G.SameNamespace(w'.grants, u'.grants, op.Namespace())
            && OthersKept(w.grants, w'.grants, (r: G.Row) => r.namespace == op.Namespace())
  {
    hide StepConsumeGrant, Erased, Issue, SetTask, EndTask, G.Charge;
    var q := GrantQuery(op, d);
    G.AnswersDependOnNamespaceOnly(w.grants, u.grants, q, now, ids);
    if d.ruleId.Some? && G.Answers(w.grants, q, now, ids) && |ticks| == |ids| {
      G.ChargeDependsOnNamespaceOnly(w.grants, u.grants, q, now, ids, ticks);
      if G.FirstSpendable(w.grants, ids, ticks) < |ids| {
        Charged(w, t, op, d, sight, ids, now, ticks);
        Charged(u, t, op, d, sight, ids, now, ticks);
        ChargedAlike(w, u, t, op, d, sight, ids[G.FirstSpendable(w.grants, ids, ticks)]);
      } else {
        Uncharged(w, t, op, d, sight, ids, now, ticks);
        Uncharged(u, t, op, d, sight, ids, now, ticks);
        SetAlike(w, u, t, AtRequest(op, d));
      }
    } else {
      NotConsuming(w, t, op, d, sight, ids, now, ticks);
      NotConsuming(u, t, op, d, sight, ids, now, ticks);
      SetAlike(w, u, t, w.tasks[t]);
    }
  }

  lemma SetAlike(w: World, u: World, t: TaskId, s: Task)
    ensures TaskIn(SetTask(w, t, s), t) == TaskIn(SetTask(u, t, s), t)
            && TaskIn(EndTask(w, t), t) == TaskIn(EndTask(u, t), t)
    ensures SetTask(w, t, s).grants == EndTask(w, t).grants == w.grants
            && SetTask(w, t, s).plans == EndTask(w, t).plans == w.plans
    ensures SetTask(u, t, s).grants == EndTask(u, t).grants == u.grants
            && SetTask(u, t, s).plans == EndTask(u, t).plans == u.plans
  {
    hide Erased;
  }

  lemma ChargedAlike(w: World, u: World, t: TaskId, op: Op, d: Decision, sight: Option<Sight>, id: Id)
    requires id in w.grants && id in u.grants && w.grants[id] == u.grants[id]
    ensures var x := Execution(op, Some(d), GrantToken(id, w.grants[id].usedCount), sight);
            var w', u' := Issue(w.(grants := G.Charge(w.grants, id)), t, x),
              Issue(u.(grants := G.Charge(u.grants, id)), t, x);
            && TaskIn(w', t) == TaskIn(u', t) && w'.grants == G.Charge(w.grants, id)
               && u'.grants == G.Charge(u.grants, id)
            && G.Charge(w.grants, id).Keys == w.grants.Keys
  {
    hide Erased, G.Spend;
  }

  lemma Claimed(w: World, t: TaskId, op: Op, d: Decision, pick: Option<Id>, now: Time, leaseNow: Time, files: Files)
    requires t in w.tasks && w.tasks[t] == AtPlan(op, d) && op.caller.EnforcesAgentPolicy() && op.taskId.Some?
    requires P.Newest(w.plans, P.Query(op.Profile(), op.taskId.value, op.Namespace()), now, pick)
             && P.Claim(w.plans, pick, op.request, files).Claimed?
    ensures var id, index := pick.value, P.Claim(w.plans, pick, op.request, files).index;
            pick.Some? && id in w.plans &&
            StepClaimPlan(w, t, pick, now, leaseNow, files)
            == Issue(w.(plans :=
              P.MarkClaimed(w.plans, id, index, A.SaturatingAdd(leaseNow, P.LeaseSeconds(op.request))),
                        journal := Note(w, id, Gateway.Claimed(index))),
                     t, Execution(op, Some(d), PlanToken(id, index), Some(Sight(w.plans, now))))
  {
    hide P.MarkClaimed, Note, Issue;
  }

  lemma Unclaimed(w: World, t: TaskId, op: Op, d: Decision, pick: Option<Id>, now: Time, leaseNow: Time, files: Files)
    requires t in w.tasks && w.tasks[t] == AtPlan(op, d) && op.caller.EnforcesAgentPolicy() && op.taskId.Some?
    requires P.Newest(w.plans, P.Query(op.Profile(), op.taskId.value, op.Namespace()), now, pick)
             && !P.Claim(w.plans, pick, op.request, files).Claimed?
    ensures StepClaimPlan(w, t, pick, now, leaseNow, files)
            == if P.Claim(w.plans, pick, op.request, files).Refused? then EndTask(w, t)
               else if d.effect.Allow? then Issue(w, t, Execution(op, Some(d), Unmetered, Some(Sight(w.plans, now))))
               else SetTask(w, t, AtGrant(op, d, Some(Sight(w.plans, now))))
  {
    hide P.MarkClaimed, Note, Issue, SetTask, EndTask;
  }

  lemma NotLooking(w: World, t: TaskId, op: Op, d: Decision, pick: Option<Id>, now: Time, leaseNow: Time, files: Files)
    requires t in w.tasks && w.tasks[t] == AtPlan(op, d)
    requires op.caller.EnforcesAgentPolicy() && op.taskId.Some? ==>
             !P.Newest(w.plans, P.Query(op.Profile(), op.taskId.value, op.Namespace()), now, pick)
    ensures StepClaimPlan(w, t, pick, now, leaseNow, files)
            == if op.caller.EnforcesAgentPolicy() && op.taskId.Some? then w else SetTask(w, t, AtGrant(op, d, None))
  {
    hide P.MarkClaimed, P.Claim, Note, Issue, SetTask, EndTask;
  }

  lemma LookedAlike(w: World, u: World, t: TaskId, op: Op, d: Decision, now: Time)
    ensures TaskIn(SetTask(w, t, AtGrant(op, d, Some(Sight(w.plans, now)))), t)
            == TaskIn(SetTask(u, t, AtGrant(op, d, Some(Sight(u.plans, now)))), t)
    ensures var w', u' := Issue(w, t, Execution(op, Some(d), Unmetered, Some(Sight(w.plans, now)))),
            Issue(u, t, Execution(op, Some(d), Unmetered, Some(Sight(u.plans, now))));
            TaskIn(w', t) == TaskIn(u', t) && w'.plans == w.plans && u'.plans == u.plans
  {
  }

  lemma ClaimedAlike(w: World, u: World, t: TaskId, op: Op, d: Decision, now: Time, id: Id, index: nat,
      leaseUntil: Time)
    requires id in w.plans && id in u.plans
    ensures var plans, plans' := P.MarkClaimed(w.plans, id, index, leaseUntil),
            P.MarkClaimed(u.plans, id, index, leaseUntil);
            var w' :=
              Issue(w.(plans := plans, journal := Note(w, id, Gateway.Claimed(index))), t,
                Execution(op, Some(d), PlanToken(id, index), Some(Sight(w.plans, now))));
            var u' :=
              Issue(u.(plans := plans', journal := Note(u, id, Gateway.Claimed(index))), t,
                Execution(op, Some(d), PlanToken(id, index), Some(Sight(u.plans, now))));
            && TaskIn(w', t) == TaskIn(u', t) && w'.plans == plans && u'.plans == plans' && plans.Keys == w.plans.Keys
  {
    hide Note;
  }

  /** So does claiming a plan's next action. */
  lemma ClaimIsolated(w: World, u: World, t: TaskId, op: Op, d: Decision, pick: Option<Id>, now: Time, leaseNow: Time,
      files: Files)
    requires t in w.tasks && t in u.tasks && w.tasks[t] == AtPlan(op, d) == u.tasks[t]
    requires P.SameNamespace(w.plans, u.plans, op.Namespace())
    ensures var w', u' := StepClaimPlan(w, t, pick, now, leaseNow, files),
            StepClaimPlan(u, t, pick, now, leaseNow, files);
            && TaskIn(w', t) == TaskIn(u', t) && P.SameNamespace(w'.plans, u'.plans, op.Namespace())
            && OthersKept(w.plans, w'.plans, (r: P.Row) => r.namespace == op.Namespace())
  {
    hide StepClaimPlan, Erased, Issue, SetTask, EndTask, P.MarkClaimed, P.Claim, P.Newest, Note;
    if op.caller.EnforcesAgentPolicy() && op.taskId.Some?
      && P.Newest(w.plans, P.Query(op.Profile(), op.taskId.value, op.Namespace()), now, pick) {
      TransactionIsolated(w, u, t, op, d, pick, now, leaseNow, files);
    } else {
      if op.taskId.Some? { NewestAgrees(w.plans, u.plans, P.Query(op.Profile(), op.taskId.value, op.Namespace()), now,
        pick); }
      NotLooking(w, t, op, d, pick, now, leaseNow, files);
      NotLooking(u, t, op, d, pick, now, leaseNow, files);
      SetAlike(w, u, t, AtGrant(op, d, None));
    }
  }

  lemma TransactionIsolated(w: World, u: World, t: TaskId, op: Op, d: Decision, pick: Option<Id>, now: Time,
      leaseNow: Time, files: Files)
    requires t in w.tasks && t in u.tasks && w.tasks[t] == AtPlan(op, d) == u.tasks[t]
             && op.caller.EnforcesAgentPolicy() && op.taskId.Some?
    requires P.SameNamespace(w.plans, u.plans, op.Namespace())
             && P.Newest(w.plans, P.Query(op.Profile(), op.taskId.value, op.Namespace()), now, pick)
    ensures var w', u' := StepClaimPlan(w, t, pick, now, leaseNow, files),
            StepClaimPlan(u, t, pick, now, leaseNow, files);
            && TaskIn(w', t) == TaskIn(u', t) && P.SameNamespace(w'.plans, u'.plans, op.Namespace())
            && OthersKept(w.plans, w'.plans, (r: P.Row) => r.namespace == op.Namespace())
  {
    hide StepClaimPlan, Erased, Issue, SetTask, EndTask, P.MarkClaimed, P.Claim, Note;
    var q := P.Query(op.Profile(), op.taskId.value, op.Namespace());
    var leaseUntil := A.SaturatingAdd(leaseNow, P.LeaseSeconds(op.request));
    P.ClaimDependsOnNamespaceOnly(w.plans, u.plans, q, now, pick, op.request, files, leaseUntil);
    var c := P.Claim(w.plans, pick, op.request, files);
    NothingPicked(w.plans, op.request, files);
    assert pick.Some? ==> pick.value in w.plans && pick.value in u.plans;
    hide P.Newest;
    if c.Claimed? && pick.Some? {
      P.ClaimedNext(w.plans, pick.value, op.request, files);
      Claimed(w, t, op, d, pick, now, leaseNow, files);
      Claimed(u, t, op, d, pick, now, leaseNow, files);
      ClaimedAlike(w, u, t, op, d, now, pick.value, c.index, leaseUntil);
    } else {
      Unclaimed(w, t, op, d, pick, now, leaseNow, files);
      Unclaimed(u, t, op, d, pick, now, leaseNow, files);
      LookedAlike(w, u, t, op, d, now);
      SetAlike(w, u, t, AtGrant(op, d, None));
      SetAlike(w, u, t, AtGrant(op, d, Some(Sight(w.plans, now))));
      SetAlike(w, u, t, AtGrant(op, d, Some(Sight(u.plans, now))));
    }
  }

  lemma NothingPicked(t: P.Table, request: Request, files: Files)
    ensures P.Claim(t, None, request, files).NoPlan?
  {
  }

  lemma NewestAgrees(t: P.Table, u: P.Table, q: P.Query, now: Time, pick: Option<Id>)
    requires P.SameNamespace(t, u, q.namespace)
    ensures P.Newest(t, q, now, pick) <==> P.Newest(u, q, now, pick)
  {
  }
}
