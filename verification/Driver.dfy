/**
 * `resolve_operation` and the ApprovalApprove arm as they run: on the tables of Store, statement by statement. Each
 * statement is also taken as an event of Gateway, so whatever the driver does is part of some run of that machine, and
 * what Ledger proves of every run holds of it.
 */
module Driver {
  import opened Types
  import opened Config
  import opened Policy
  import opened Gateway
  import opened Store
  import Inv = Invariants
  import L = Ledger
  import I = Isolation
  import A = Approvals
  import G = Grants
  import P = Plans

  datatype Outcome =
    | Denied(error: Error)
    | Executed(ok: bool)
    | AwaitsApproval(id: Id)
    | Failed(error: Error) // claimed, then finished as failed without running

  const POLICY_DENIED := PolicyDenied("denied")
  const NO_RULE := PolicyDenied("no rule")
  const HASH_CHANGED := Approval("request changed")
  const NOT_FOUND := Approval("not found")
  const DISABLED := Error.Config("approvals disabled")

  ghost predicate Agree(w: World, approvals: A.Table, grants: G.Table, plans: P.Table) {
    w.approvals == approvals && w.grants == grants && w.plans == plans
  }

  ghost predicate ByRules(policy: Engine) {
    forall cfg, caller, request :: policy(cfg, caller, request) == Authorize(cfg, caller, request)
  }

  predicate KeepsTask(token: Token) {
    token.PlanToken? || token.ApprovalToken?
  }

  lemma ExecutedOnce(w: World, t: TaskId, x: Execution)
    requires t in w.tasks && w.tasks[t] == Ready(x) && !KeepsTask(x.token)
    ensures StepExecute(w, t) == Record(EndTask(w, t), x)
  {
    hide Record, EndTask, SetTask;
  }

  lemma ExecutedAndHeld(w: World, t: TaskId, x: Execution)
    requires t in w.tasks && w.tasks[t] == Ready(x) && KeepsTask(x.token)
    ensures StepExecute(w, t) == SetTask(Record(EndTask(w, t), x), t, Ran(x.token))
  {
    hide Record, EndTask, SetTask;
  }

  /**
   * From w to w' only task t moved, to s, with `ran` executed on the way; the records of first insertions are the same.
   */
  ghost predicate Moved(w: World, w': World, t: TaskId, s: Option<Task>, ran: seq<Execution>) {
    && w'.history == w.history + ran && w'.requested == w.requested && w'.minted == w.minted
    && w'.tasks == match s case Some(task) => w.tasks[t := task] case None => w.tasks - {t}
  }

  lemma MovedTwice(w: World, w1: World, w2: World, t: TaskId, s1: Option<Task>, s2: Option<Task>, ran1: seq<Execution>,
      ran2: seq<Execution>)
    requires Moved(w, w1, t, s1, ran1) && Moved(w1, w2, t, s2, ran2)
    ensures Moved(w, w2, t, s2, ran1 + ran2)
  {
    assert w.history + ran1 + ran2 == w.history + (ran1 + ran2);
    match s2
    case Some(task) => assert w1.tasks[t := task] == w.tasks[t := task];
    case None => assert w1.tasks - {t} == w.tasks - {t};
  }

  lemma AfterExecution(w: World, t: TaskId, x: Execution)
    ensures var w' := Record(EndTask(w, t), x); Agree(w', w.approvals, w.grants, w.plans) && Moved(w, w', t, None, [x])
    ensures var w' := SetTask(Record(EndTask(w, t), x), t, Ran(x.token));
            Agree(w', w.approvals, w.grants, w.plans) && Moved(w, w', t, Some(Ran(x.token)), [x])
  {
    assert (w.tasks - {t})[t := Ran(x.token)] == w.tasks[t := Ran(x.token)];
  }

  lemma AfterSet(w: World, t: TaskId, s: Task)
    ensures var w' := SetTask(w, t, s); Agree(w', w.approvals, w.grants, w.plans) && Moved(w, w', t, Some(s), [])
  {
  }

  lemma AfterEnd(w: World, t: TaskId)
    ensures var w' := EndTask(w, t); Agree(w', w.approvals, w.grants, w.plans) && Moved(w, w', t, None, [])
  {
  }

  lemma AfterIssue(w: World, t: TaskId, x: Execution)
    ensures var w' := Issue(w, t, x); Agree(w', w.approvals, w.grants, w.plans) && Moved(w, w', t, Some(Ready(x)), [])
  {
  }

  /** Sweeps move no task. */
  ghost predicate Still(w: World, w': World) {
    w'.history == w.history && w'.requested == w.requested && w'.minted == w.minted && w'.tasks == w.tasks
  }

  lemma StillMoved(w: World, w1: World, w2: World, t: TaskId, s: Option<Task>, ran: seq<Execution>)
    requires Still(w, w1) && Moved(w1, w2, t, s, ran)
    ensures Moved(w, w2, t, s, ran)
  {
  }

  lemma PlansSwept(w: World, now: Time)
    ensures var w' := StepSweepPlans(StepSweepLeases(w, now), now);
            Agree(w', w.approvals, w.grants, P.ExpireOpen(P.FailOverdue(w.plans, now), now)) && Still(w, w')
  {
    hide P.ExpireOpen, P.FailOverdue;
  }

  class Driver {
    const store: Store
    ghost const policy: Engine
    ghost var trace: seq<Event>
    ghost var world: World

    /** The tables are those some run of the machine has reached. */
    ghost predicate Valid()
      reads this, store
    {
      && store.Valid() && Agree(world, store.approvals, store.grants, store.plans)
      && world == L.After(policy, trace) && ByRules(policy)
    }

    constructor ()
      ensures Valid() && fresh(store) && world.tasks == map[] && world.history == []
    {
      store := new Store();
      policy := (cfg, caller, request) => Authorize(cfg, caller, request);
      trace := [];
      world := Init((cfg, caller, request) => Authorize(cfg, caller, request));
    }

    ghost method Take(e: Event)
      requires world == L.After(policy, trace)
      modifies this`trace, this`world
      ensures trace == old(trace) + [e] && world == Step(old(world), e) && world == L.After(policy, trace)
    {
      hide Step;
      L.RunLast(Init(policy), trace, e);
      trace := trace + [e];
      world := Step(world, e);
    }

    /** The call out to the host, whose success is up to it. */
    method CallHost(t: TaskId, ghost x: Execution) returns (ok: bool)
      requires Valid() && t in world.tasks && world.tasks[t] == Ready(x)
      modifies this`trace, this`world
      ensures Valid() && Moved(old(world), world, t, if KeepsTask(x.token) then Some(Ran(x.token)) else None, [x])
    {
      hide ByRules, GrantsOk, PlansOk, Step, L.After, StepExecute, Record, EndTask, SetTask, Agree, Moved;
      ok := *;
      ghost var before := world;
      if KeepsTask(x.token) { ExecutedAndHeld(world, t, x); } else { ExecutedOnce(world, t, x); }
      AfterExecution(world, t, x);
      IsExecute(world, t);
      Take(Execute(t));
      AgreeOn(before, world, store.approvals, store.grants, store.plans);
    }

    /** Claims the next action of a live plan, if there is one for the task. */
    method ClaimPlan(t: TaskId, op: Op, d: Decision, files: Files, clock: Clock)
        returns (r: P.ClaimResult, ghost sight: Option<Sight>)
      requires Valid() && t in world.tasks && world.tasks[t] == AtPlan(op, d) && op.caller.EnforcesAgentPolicy()
      modifies this`trace, this`world, store`plans
      ensures Valid() && Moved(old(world), world, t, ClaimMoves(op, d, r, sight), [])
      ensures (sight.Some? <==> op.taskId.Some?) && (op.taskId.None? ==> r.NoPlan?)
      ensures r.Claimed? ==> P.LeaseHeld(store.plans, r.id, r.index)
      ensures r.NoPlan? <==> !HasLive(old(store.plans), op, clock)
      ensures !r.NoPlan? ==> PlanDecides(old(store.plans), op, files, clock, r.Claimed?)
    {
      hide ByRules, GrantsOk, PlansOk, Step, L.After, P.Claim, P.Newest, P.ExpireOpen, P.FailOverdue, P.MarkClaimed,
        P.LeaseHeld, StepClaimPlan, StepSweepLeases, StepSweepPlans, SetTask, EndTask, Issue, Agree, Moved, Still,
        HasLive, PlanDecides;
      ghost var before, plans := world, store.plans;
      ghost var pick;
      r, pick := store.ClaimPlanAction(op.Profile(), op.taskId, op.Namespace(), op.request, files, clock);
      sight := None;
      LiveFound(plans, op, clock, pick, files);
      if op.taskId.None? {
        I.NotLooking(world, t, op, d, None, 0, 0, files);
        AfterSet(world, t, AtGrant(op, d, None));
        IsClaim(world, t, None, 0, 0, files);
        Take(Gateway.ClaimPlan(t, None, 0, 0, files));
        AgreeOn(before, world, store.approvals, store.grants, plans);
      } else {
        AgreesPlans(before, store.approvals, store.grants, plans);
        sight := Some(Sight(P.ExpireOpen(P.FailOverdue(plans, clock(0)), clock(0)), clock(1)));
        TakeClaim(t, op, d, pick, files, clock);
      }
    }

    /** The sweep and the claim, as the machine takes them. */
    ghost method TakeClaim(t: TaskId, op: Op, d: Decision, pick: Option<Id>, files: Files, clock: Clock)
      requires world == L.After(policy, trace) && t in world.tasks && world.tasks[t] == AtPlan(op, d)
               && op.caller.EnforcesAgentPolicy() && op.taskId.Some?
      requires P.Newest(P.ExpireOpen(P.FailOverdue(world.plans, clock(0)), clock(0)),
               P.Query(op.Profile(), op.taskId.value, op.Namespace()), clock(1), pick)
      modifies this`trace, this`world
      ensures world == L.After(policy, trace)
      ensures var plans := P.ExpireOpen(P.FailOverdue(old(world).plans, clock(0)), clock(0));
              (pick.Some? ==> pick.value in plans) &&
              var r := P.Claim(plans, pick, op.request, files);
              && Moved(old(world), world, t, ClaimMoves(op, d, r, Some(Sight(plans, clock(1)))), [])
              && (r.Claimed? ==>
                 r.id in plans
                   && forall leaseUntil :: P.LeaseHeld(P.MarkClaimed(plans, r.id, r.index, leaseUntil), r.id, r.index))
              && Agree(world, old(world).approvals, old(world).grants,
                       if r.Claimed?
                         then P.MarkClaimed(plans, r.id, r.index, A.SaturatingAdd(clock(2), P.LeaseSeconds(op.request)))
                         else plans)
    {
      hide Step, L.After, P.Claim, P.Newest, P.ExpireOpen, P.FailOverdue, P.MarkClaimed, P.LeaseHeld, StepClaimPlan,
        StepSweepLeases, StepSweepPlans, Agree, Moved, Still;
      var before := world;
      PlansSwept(world, clock(0));
      ArePlanSweeps(world, clock(0));
      Take(SweepLeases(clock(0)));
      ArePlanSweeps(world, clock(0));
      Take(SweepPlans(clock(0)));
      var swept := world;
      SweptTask(before, swept, clock(0), t);
      Transaction(swept, t, op, d, pick, clock(1), clock(2), files);
      IsClaim(swept, t, pick, clock(1), clock(2), files);
      Take(Gateway.ClaimPlan(t, pick, clock(1), clock(2), files));
      StillMoved(before, swept, world, t,
        ClaimMoves(op, d, P.Claim(swept.plans, pick, op.request, files), Some(Sight(swept.plans, clock(1)))), []);
    }

    /** Charges the best eligible grant, if there is one. */
    method ConsumeGrant(t: TaskId, op: Op, d: Decision, ghost sight: Option<Sight>, clock: Clock)
        returns (used: Option<Id>, ghost x: Execution)
      requires Valid() && t in world.tasks && world.tasks[t] == AtGrant(op, d, sight) && d.ruleId.Some?
      modifies this`trace, this`world, store`grants
      ensures Valid() && Moved(old(world), world, t, Some(if used.Some? then Ready(x) else AtRequest(op, d)), [])
      ensures used.Some? ==> x.op == op && x.decision == Some(d) && x.token.GrantToken? && x.token.grantId == used.value
      ensures used.Some? ==> HasGrant(old(store.grants), op, d, clock)
      ensures LastingGrant(old(store.grants), op, d, clock) ==> used.Some?
      ensures exists ids :: Spends(old(store.grants), op, d, clock, ids, used, store.grants)
    {
      hide ByRules, GrantsOk, PlansOk, Step, L.After, G.Answers, G.FirstSpendable, G.Expire, G.Charge, StepConsumeGrant,
        SetTask, Issue, Agree, Moved, Still, HasGrant, LastingGrant;
      ghost var before, grants := world, store.grants;
      ghost var ids;
      used, ids := store.Consume(GrantQuery(op, d), clock);
      GrantFound(grants, op, d, clock, ids, used);
      assert Spends(grants, op, d, clock, ids, used, store.grants);
      AgreesPlans(before, store.approvals, grants, store.plans);
      x := TakeConsume(t, op, d, sight, ids, clock);
    }

    /** The sweep and the charge, as the machine takes them. */
    ghost method TakeConsume(t: TaskId, op: Op, d: Decision, sight: Option<Sight>, ids: seq<Id>, clock: Clock)
        returns (x: Execution)
      requires world == L.After(policy, trace) && t in world.tasks && world.tasks[t] == AtGrant(op, d, sight)
               && d.ruleId.Some?
      requires G.Answers(G.Expire(world.grants, clock(0)), GrantQuery(op, d), clock(1), ids)
      modifies this`trace, this`world
      ensures world == L.After(policy, trace)
      ensures var grants := G.Expire(old(world).grants, clock(0));
              (forall i :: 0 <= i < |ids| ==> ids[i] in grants) &&
              var k := G.FirstSpendable(grants, ids, Ticks(clock, |ids|));
              && x == Charged(grants, op, d, sight, ids, Ticks(clock, |ids|))
              && Moved(old(world), world, t, Some(if k < |ids| then Ready(x) else AtRequest(op, d)), [])
              && Agree(world, old(world).approvals, if k < |ids| then G.Charge(grants, ids[k])
                 else grants, old(world).plans)
    {
      hide Step, L.After, G.Answers, G.FirstSpendable, G.Expire, G.Charge, StepConsumeGrant, Agree, Moved, Still,
        Charged;
      var before := world;
      var ticks := Ticks(clock, |ids|);
      GrantsOnly(before, G.Expire(before.grants, clock(0)));
      IsGrantSweep(before, clock(0));
      Take(SweepGrants(clock(0)));
      var swept := world;
      Charging(swept, t, op, d, sight, ids, clock(1), ticks);
      x := Charged(swept.grants, op, d, sight, ids, ticks);
      IsConsume(swept, t, ids, clock(1), ticks);
      Take(Gateway.ConsumeGrant(t, ids, clock(1), ticks));
      StillMoved(before, swept, world, t,
        Some(if G.FirstSpendable(swept.grants, ids, ticks) < |ids| then Ready(x) else AtRequest(op, d)), []);
    }

    /** Files an approval for a human to decide. */
    method RequestApproval(t: TaskId, op: Op, d: Decision, id: Id, files: Files, now: Time)
        returns (r: Result<Id, Error>)
      requires Valid() && t in world.tasks && world.tasks[t] == AtRequest(op, d) && id !in world.requested
      modifies this`trace, this`world, store`approvals
      ensures Valid() && world.history == old(world).history && world.tasks == old(world).tasks - {t}
      ensures r.Ok? ==>
              && id in store.approvals && Waits(store.approvals[id], op) && store.approvals[id].createdAt == now
              && store.approvals[id].ruleId == d.ruleId && store.approvals[id].risk == d.risk
              && store.approvals[id].taskId == op.taskId && store.approvals[id].profile == op.Profile()
      ensures r.Ok? <==> Fileable(op.request, files)
    {
      hide ByRules, GrantsOk, PlansOk, Step, L.After, A.NewRow, StepRequestApproval, InsertApproval, EndTask;
      ghost var before := world;
      Unfiled(policy, trace, id);
      AgreesPlans(before, store.approvals, store.grants, store.plans);
      r := store.CreateApproval(id, op.request, files, now, op.cfg.approvalTtl, op.caller, d.ruleId, d.risk, op.taskId,
        op.Namespace());
      Filed(before, t, op, d, id, now, files);
      assert r.Ok? ==> store.approvals == before.approvals[id := store.approvals[id]];
      IsRequest(world, t, id, now, files);
      Take(Gateway.RequestApproval(t, id, now, files));
    }

    /** The end of `execute_enveloped` for a plan. */
    method FinishPlan(t: TaskId, id: Id, index: nat, success: bool) returns (ok: bool)
      requires Valid() && t in world.tasks && world.tasks[t] == Ran(PlanToken(id, index))
      modifies this`trace, this`world, store`plans
      ensures Valid() && Moved(old(world), world, t, None, [])
      ensures store.plans == P.Finish(old(store.plans), id, index, success)
      ensures ok <==> P.LeaseHeld(old(store.plans), id, index)
    {
      hide ByRules, GrantsOk, PlansOk, Step, L.After, P.Finish, P.LeaseHeld, StepFinishPlan, EndTask, Note, Agree,
        Moved;
      ghost var before, plans := world, store.plans;
      AgreesPlans(before, store.approvals, store.grants, plans);
      ok := store.FinishPlanAction(id, index, success);
      Finishing(before, t, id, index, success);
      IsFinish(world, t, success);
      Take(Gateway.FinishPlan(t, success));
    }

    // ---- resolve_operation ----

    /** From the claim of a plan on; the decision is not Deny. */
    method UnderPlan(t: TaskId, op: Op, d: Decision, files: Files, approvalId: Id, planClock: Clock, grantClock: Clock,
        now: Time)
        returns (o: Outcome)
      requires Valid() && t in world.tasks && world.tasks[t] == AtPlan(op, d) && op.caller.EnforcesAgentPolicy()
               && approvalId !in world.requested
      requires d.effect.Allow? ==> op.taskId.Some?
      modifies this`trace, this`world, store
      ensures Valid() && Ended(old(world), world, t, op, o)
      ensures Decides(d, op, files, HasLive(old(store.plans), op, planClock),
              HasGrant(old(store.grants), op, d, grantClock),
                      LastingGrant(old(store.grants), op, d, grantClock), o)
      ensures HasLive(old(store.plans), op, planClock) ==>
                PlanDecides(old(store.plans), op, files, planClock, o.Executed?)
                  && (o.Executed? ==> LastToken(old(world), world).PlanToken?)
    {
      hide ByRules, GrantsOk, PlansOk, Step, L.After, Agree, Ended, P.LeaseHeld, HasLive, PlanDecides, HasGrant,
        LastingGrant, Fileable;
      ghost var before := world;
      var r;
      ghost var sight;
      r, sight := ClaimPlan(t, op, d, files, planClock);
      ghost var claimed := world;
      match r
      case Refused(e) =>
        o := Denied(e);
        NothingRan(before, world, t, op, o);
      case Claimed(id, index) =>
        ghost var x := Execution(op, Some(d), PlanToken(id, index), sight);
        var ok := CallHost(t, x);
        ghost var ran := world;
        var _ := FinishPlan(t, id, index, ok);
        o := Executed(ok);
        MovedTwice(before, claimed, ran, t, Some(Ready(x)), Some(Ran(x.token)), [], [x]);
        MovedTwice(before, ran, world, t, Some(Ran(x.token)), None, [] + [x], []);
        OneRan(before, world, t, op, x, o);
      case NoPlan =>
        if d.effect.Allow? {
          ghost var x := Execution(op, Some(d), Unmetered, sight);
          var ok := CallHost(t, x);
          o := Executed(ok);
          MovedTwice(before, claimed, world, t, Some(Ready(x)), None, [], [x]);
          OneRan(before, world, t, op, x, o);
        } else {
          o := UnderGrant(t, op, d, sight, files, approvalId, grantClock, now);
          EndedLater(before, claimed, world, t, op, Some(AtGrant(op, d, sight)), o);
        }
    }

    /** From the search for a grant on; confirmation is due. */
    method UnderGrant(t: TaskId, op: Op, d: Decision, ghost sight: Option<Sight>, files: Files, approvalId: Id,
        clock: Clock, now: Time)
        returns (o: Outcome)
      requires Valid() && t in world.tasks && world.tasks[t] == AtGrant(op, d, sight) && approvalId !in world.requested
      modifies this`trace, this`world, store
      ensures Valid() && Ended(old(world), world, t, op, o)
      ensures Grants(d, op, files, HasGrant(old(store.grants), op, d, clock),
              LastingGrant(old(store.grants), op, d, clock), o)
    {
      hide ByRules, GrantsOk, PlansOk, Step, L.After, Agree, Ended, HasGrant, LastingGrant, Fileable;
      ghost var before := world;
      if d.ruleId.None? {
        WithoutRule(t, op, d, sight);
        o := Denied(NO_RULE);
        NothingRan(before, world, t, op, o);
        return;
      }
      var used;
      ghost var x;
      used, x := ConsumeGrant(t, op, d, sight, clock);
      ghost var consumed := world;
      if used.Some? {
        var ok := CallHost(t, x);
        o := Executed(ok);
        MovedTwice(before, consumed, world, t, Some(Ready(x)), None, [], [x]);
        OneRan(before, world, t, op, x, o);
      } else {
        var r := RequestApproval(t, op, d, approvalId, files, now);
        o := if r.Ok? then AwaitsApproval(approvalId) else Denied(r.error);
        AgreesPlans(world, store.approvals, store.grants, store.plans);
        FiledAtEnd(before, consumed, world, t, op, d, o);
      }
    }

    ghost method WithoutRule(t: TaskId, op: Op, d: Decision, sight: Option<Sight>)
      requires Valid() && t in world.tasks && world.tasks[t] == AtGrant(op, d, sight) && d.ruleId.None?
      modifies this`trace, this`world
      ensures Valid() && Moved(old(world), world, t, None, [])
    {
      hide ByRules, GrantsOk, PlansOk, Step, L.After, Agree, Moved, StepConsumeGrant, EndTask;
      ghost var before := world;
      I.NotConsuming(world, t, op, d, sight, [], 0, []);
      AfterEnd(world, t);
      IsConsume(world, t, [], 0, []);
      Take(Gateway.ConsumeGrant(t, [], 0, []));
      AgreeOn(before, world, store.approvals, store.grants, store.plans);
    }

    /** Policy first: what it allows runs, what it denies does not, and the rest needs a plan, a grant or a human. */
    method ResolveOperation(t: TaskId, op: Op, files: Files, approvalId: Id, planClock: Clock, grantClock: Clock,
        now: Time)
        returns (o: Outcome)
      requires Valid() && t !in world.tasks && approvalId !in world.requested
      modifies this`trace, this`world, store
      ensures Valid() && Ended(old(world), world, t, op, o)
      ensures var verdict := Authorize(op.cfg, op.caller, op.request);
              && (!op.request.IsOperation() || verdict.None? || verdict.value.effect.Deny? ==>
                    o.Denied? && world == old(world))
              && (op.request.IsOperation() && verdict.Some? && !verdict.value.effect.Deny? ==>
                    var d := verdict.value;
                    && (RunsAtOnce(op, d) ==> o.Executed?)
                    && (!RunsAtOnce(op, d) && !op.cfg.approvalsEnabled ==> o == Denied(DISABLED) && world == old(world))
                    && (!RunsAtOnce(op, d) && op.cfg.approvalsEnabled ==>
                          Decides(d, op, files, HasLive(old(store.plans), op, planClock),
                            HasGrant(old(store.grants), op, d, grantClock),
                                  LastingGrant(old(store.grants), op, d, grantClock), o))
                    && (!RunsAtOnce(op, d) && op.cfg.approvalsEnabled && HasLive(old(store.plans), op, planClock) ==>
                          PlanDecides(old(store.plans), op, files, planClock, o.Executed?)
                            && (o.Executed? ==> LastToken(old(world), world).PlanToken?)))
    {
      hide GrantsOk, PlansOk, Step, L.After, Agree, Ended, Authorize, StepArrive, HasLive, PlanDecides, HasGrant,
        LastingGrant, Decides;
      var verdict := AuthorizeRequest(op.cfg, op.caller, op.request);
      ghost var before := world;
      if !op.request.IsOperation() || verdict.None? || verdict.value.effect.Deny? {
        o := Denied(POLICY_DENIED);
        NeverStarted(world, t, op, o);
        return;
      }
      var d := verdict.value;
      var direct := RunsAtOnce(op, d);
      HumansAllowed(op.cfg, op.caller, op.request);
      if !direct && !op.cfg.approvalsEnabled {
        o := Denied(DISABLED);
        NeverStarted(world, t, op, o);
        return;
      }
      StartTask(t, op, d);
      ghost var started := world;
      if direct {
        ghost var x := Execution(op, Some(d), Unmetered, None);
        var ok := CallHost(t, x);
        o := Executed(ok);
        MovedTwice(before, started, world, t, Some(Ready(x)), None, [], [x]);
        OneRan(before, world, t, op, x, o);
      } else {
        o := UnderPlan(t, op, d, files, approvalId, planClock, grantClock, now);
        EndedLater(before, started, world, t, op, Some(AtPlan(op, d)), o);
      }
    }

    ghost method StartTask(t: TaskId, op: Op, d: Decision)
      requires Valid() && t !in world.tasks && Authorize(op.cfg, op.caller, op.request) == Some(d) && !d.effect.Deny?
      requires op.request.IsOperation() && (op.cfg.approvalsEnabled || d.effect.Allow?)
      modifies this`trace, this`world
      ensures Valid()
      ensures Moved(old(world), world, t, Some(Starts(op, d)), [])
    {
      hide GrantsOk, PlansOk, Step, L.After, Agree, Moved, Authorize, StepArrive, SetTask, Issue;
      ghost var before := world;
      SamePolicy(policy, trace);
      Arrived(world, t, op, d);
      IsArrive(world, t, op);
      AfterSet(world, t, AtPlan(op, d));
      AfterIssue(world, t, Execution(op, Some(d), Unmetered, None));
      Take(Arrive(t, op));
      AgreeOn(before, world, store.approvals, store.grants, store.plans);
    }

    // ---- execute_mcp_profile_management ----

    /**
     * The end of a profile mutation whose content was found acceptable: in Cloud mode a human is
     * asked, otherwise it is made.
     */
    method ManageProfile(t: TaskId, op: Op, approvalId: Id, now: Time) returns (o: Outcome)
      requires Valid() && op.request.ManagesProfiles() && t !in world.tasks && approvalId !in world.requested
      modifies this`trace, this`world, store`approvals
      ensures Valid() && Ended(old(world), world, t, op, o)
      ensures o.Executed? <==> op.caller.Mcp? && !op.cfg.cloud
      ensures o.AwaitsApproval? <==> op.caller.Mcp? && op.cfg.cloud && op.cfg.approvalsEnabled
      ensures o.AwaitsApproval? ==> o.id == approvalId && store.approvals[o.id].risk == Some(High)
    {
      hide ByRules, GrantsOk, PlansOk, Step, L.After, Agree, Ended;
      if !op.caller.Mcp? || (op.cfg.cloud && !op.cfg.approvalsEnabled) {
        o := Denied(if op.caller.Mcp? then DISABLED else POLICY_DENIED);
        NeverStarted(world, t, op, o);
      } else if op.cfg.cloud {
        o := FileMutation(t, op, approvalId, now);
      } else {
        o := MakeMutation(t, op);
      }
    }

    method FileMutation(t: TaskId, op: Op, id: Id, now: Time) returns (o: Outcome)
      requires Valid() && op.request.ManagesProfiles() && t !in world.tasks && id !in world.requested
      requires op.caller.Mcp? && op.cfg.cloud && op.cfg.approvalsEnabled
      modifies this`trace, this`world, store`approvals
      ensures Valid() && Ended(old(world), world, t, op, o) && o == AwaitsApproval(id)
      ensures id in store.approvals && store.approvals[id].risk == Some(High)
    {
      hide ByRules, GrantsOk, PlansOk, Step, L.After, A.NewRow, StepRequestMutation, Ended;
      ghost var before := world;
      Unfiled(policy, trace, id);
      var r := store.CreateApproval(id, op.request, map[], now, op.cfg.approvalTtl, op.caller, None, Some(High), None,
        Some(op.session));
      o := AwaitsApproval(id);
      MutationFiled(before, t, op, id, now, o);
      assert store.approvals == before.approvals[id := store.approvals[id]];
      IsMutationRequest(before, id, op.session, op.request, op.cfg, now);
      Take(RequestMutation(id, op.session, op.request, op.cfg, now));
    }

    method MakeMutation(t: TaskId, op: Op) returns (o: Outcome)
      requires Valid() && op.request.ManagesProfiles() && t !in world.tasks && op.caller.Mcp? && !op.cfg.cloud
      modifies this`trace, this`world
      ensures Valid() && Ended(old(world), world, t, op, o) && o.Executed?
    {
      hide ByRules, GrantsOk, PlansOk, Step, L.After, StepMutateProfile, Issue, Agree, Ended, Moved;
      ghost var before := world;
      ghost var x := Execution(op, None, Unmetered, None);
      AfterIssue(before, t, x);
      Mutating(before, t, op);
      IsMutation(before, t, op);
      Take(MutateProfile(t, op));
      AgreeOn(before, world, store.approvals, store.grants, store.plans);
      ghost var started := world;
      var ok := CallHost(t, x);
      o := Executed(ok);
      MovedTwice(before, started, world, t, Some(Ready(x)), None, [], [x]);
      OneRan(before, world, t, op, x, o);
    }

    // ---- The ApprovalApprove arm ----

    /** Finishes a claimed approval, after its run or instead of it. */
    method Finish(t: TaskId, id: Id, ok: bool)
      requires Valid() && t in world.tasks
               && (world.tasks[t] == Ran(ApprovalToken(id)) || (world.tasks[t] == Closing(id) && !ok))
      modifies this`trace, this`world, store`approvals
      ensures Valid() && Went(old(world), world, t, None, [])
              && store.approvals == A.Finish(old(store.approvals), id, ok)
    {
      hide ByRules, GrantsOk, PlansOk, Step, L.After, A.Finish, StepFinishApproval, EndTask, Agree, Went;
      ghost var before := world;
      AgreesPlans(before, store.approvals, store.grants, store.plans);
      store.FinishApproval(id, ok);
      Finished(before, t, id, ok);
      IsFinishApproval(before, t, ok);
      Take(FinishApproval(t, ok));
    }

    /** Runs what was approved. */
    method RunApproved(t: TaskId, id: Id, ghost x: Execution) returns (o: Outcome)
      requires Valid() && t in world.tasks && world.tasks[t] == Ready(x) && x.token == ApprovalToken(id)
      requires id in store.approvals && store.approvals[id].status.Executing?
      modifies this`trace, this`world, store`approvals
      ensures Valid() && Went(old(world), world, t, None, [x]) && o.Executed?
      ensures store.approvals
              == old(store.approvals)[id := old(store.approvals)[id].(status := if o.ok then A.Executed else A.Failed)]
    {
      hide ByRules, GrantsOk, PlansOk, Step, L.After, Agree, Went;
      ghost var before := world;
      var ok := CallHost(t, x);
      ghost var ran := world;
      Finish(t, id, ok);
      o := Executed(ok);
      MovedWent(before, ran, t, Some(Ran(x.token)), [x]);
      WentTwice(before, ran, world, t, Some(Ran(x.token)), None, [x], []);
      assert [x] + [] == [x];
    }

    method FailApproved(t: TaskId, id: Id, error: Error) returns (o: Outcome)
      requires Valid() && t in world.tasks && world.tasks[t] == Closing(id) && id in store.approvals
               && store.approvals[id].status.Executing?
      modifies this`trace, this`world, store`approvals
      ensures Valid() && Went(old(world), world, t, None, []) && o == Failed(error)
      ensures store.approvals == old(store.approvals)[id := old(store.approvals)[id].(status := A.Failed)]
    {
      hide ByRules, GrantsOk, PlansOk, Step, L.After, Agree, Went;
      Finish(t, id, false);
      o := Failed(error);
    }

    /** The claim: the row is read, checked and taken. */
    method Claim(t: TaskId, session: string, id: Id, wish: Option<G.Wish>, files: Files, clock: Clock)
        returns (r: Result<A.Row, Error>)
      requires Valid() && t in world.tasks && world.tasks[t] == Opened(id, session, wish)
      modifies this`trace, this`world, store`approvals
      ensures Valid() && Went(old(world), world, t, if r.Ok? then Some(Won(id, session, wish, r.value)) else None, [])
              && world.minted == old(world).minted
      ensures var table := A.Expire(old(store.approvals), clock(0));
              if r.Ok? then A.Claimable(table, id, clock(1), None) && r.value == table[id]
                && store.approvals == A.SetStatus(table, id, A.Executing)
              else store.approvals == table
      ensures r.Ok? <==> Takeable(old(store.approvals), id, files, clock(0), clock(1))
    {
      hide ByRules, GrantsOk, PlansOk, Step, L.After, A.Expire, A.Claimable, A.SetStatus, A.IsPending, RequestHash,
        StepSelect, StepWin, SetTask, EndTask, Agree, Went;
      ghost var before, table := world, A.Expire(store.approvals, clock(0));
      AgreesPlans(before, store.approvals, store.grants, store.plans);
      r := store.ClaimApproval(id, None, files, clock);
      TakeableSwept(before.approvals, id, files, clock(0), clock(1));
      TakeWin(t, session, id, wish, files, clock);
    }

    /** The sweep, the selecting read and the winning update, as the machine takes them. */
    ghost method TakeWin(t: TaskId, session: string, id: Id, wish: Option<G.Wish>, files: Files, clock: Clock)
      requires world == L.After(policy, trace) && t in world.tasks && world.tasks[t] == Opened(id, session, wish)
      modifies this`trace, this`world
      ensures world == L.After(policy, trace) && world.minted == old(world).minted
      ensures var table, taken := A.Expire(old(world).approvals, clock(0)),
              Takeable(old(world).approvals, id, files, clock(0), clock(1));
              && (taken ==> id in table)
              && Went(old(world), world, t, if taken then Some(Won(id, session, wish, table[id])) else None, [])
              && Agree(world, if taken then A.SetStatus(table, id, A.Executing)
                 else table, old(world).grants, old(world).plans)
    {
      hide Step, L.After, A.Expire, A.SetStatus, A.IsPending, RequestHash, StepSelect, StepWin, Agree, Went;
      var before := world;
      TakeableSwept(before.approvals, id, files, clock(0), clock(1));
      IsApprovalSweep(before, clock(0));
      Take(SweepApprovals(clock(0)));
      var swept := world;
      IsSelect(swept, t, clock(1), files);
      Selecting(swept, t, id, session, wish, clock(1), files);
      Take(Select(t, clock(1), files));
      if Takeable(before.approvals, id, files, clock(0), clock(1)) {
        var selected := world;
        IsWin(selected, t);
        Winning(before, swept, selected, t, id, session, wish, swept.approvals[id], clock(1));
        Take(Win(t));
      } else {
        SweptWent(before, swept, world, t, None);
      }
    }

    /** Makes the grant that was asked for with the approval. */
    method Mint(t: TaskId, id: Id, wish: G.Wish, ghost x: Execution, rule: Option<string>, grantId: Id, now: Time)
        returns (r: Result<G.Row, Error>)
      requires Valid() && t in world.tasks && world.tasks[t] == Minting(id, wish, x) && x.decision.Some?
               && x.decision.value.ruleId == rule
      requires id in store.approvals && grantId !in world.minted
      modifies this`trace, this`world, store`grants
      ensures Valid() && Went(old(world), world, t, Some(if r.Ok? then Ready(x) else Closing(id)), [])
      ensures r.Ok? ==> grantId in store.grants && store.grants[grantId].source == id
      ensures r.Ok? <==> Grantable(old(store.approvals), old(store.grants), id, wish, rule)
    {
      hide ByRules, GrantsOk, PlansOk, Step, L.After, G.ValidateSource, G.SourceFree, G.TermsOk, G.NewRow,
        StepValidateGrant, StepInsertGrant, Agree, Went;
      ghost var before, grants := world, store.grants;
      AgreesPlans(before, store.approvals, grants, store.plans);
      Unminted(policy, trace, grantId);
      IsValidate(before, t);
      Validating(before, t, id, wish, x);
      Take(ValidateGrant(t));
      ghost var validated := world;
      OnlyWent(before, validated, t, Some(Validated(before.approvals, id, wish, x)));
      if rule.None? {
        r := Err(NO_RULE);
      } else {
        r := store.CreateGrant(grantId, id, wish, A.Executing, rule, now);
        if G.ValidateSource(store.approvals, id, wish, A.Executing, rule).Ok? {
          IsInsert(validated, t, grantId, now);
          InsertingGrant(validated, t, id, wish, G.ValidateSource(store.approvals, id, wish, A.Executing, rule).value,
            x, grantId, now);
          Take(InsertGrant(t, grantId, now));
          WentTwice(before, validated, world, t, Some(Validated(before.approvals, id, wish, x)),
            Some(if r.Ok? then Ready(x) else Closing(id)), [], []);
        }
      }
    }

    /** From the claim to the end: the request is checked again, decided again, and run as it was frozen. */
    method DecideAgain(t: TaskId, session: string, id: Id, wish: Option<G.Wish>, row: A.Row, files: Files,
        cfg: AppConfig, grantId: Id, now: Time)
        returns (o: Outcome)
      requires Valid() && t in world.tasks && world.tasks[t] == Won(id, session, wish, row)
      requires id in store.approvals && store.approvals[id].status.Executing? && grantId !in world.minted
      modifies this`trace, this`world, store`approvals, store`grants
      ensures Valid() && Approved(old(world), world, t, id, row, o)
      ensures store.approvals == old(store.approvals)[id := old(store.approvals)[id].(status := Verdict(o))]
      ensures o.Executed? <==>
              RequestHash(row.request, files) == Some(row.hash)
                && StillRuns(old(store.approvals), old(store.grants), id, wish, row, cfg)
    {
      hide ByRules, GrantsOk, PlansOk, Step, L.After, Agree, Went, Approved, RequestHash, Authorize, StepRehash,
        StillRuns;
      ghost var before := world;
      IsRehash(world, t, files);
      Rehashing(world, t, id, session, wish, row, files);
      AgreesPlans(world, store.approvals, store.grants, store.plans);
      Take(Rehash(t, files));
      ghost var rehashed := world;
      if RequestHash(row.request, files) != Some(row.hash) {
        OnlyWent(before, rehashed, t, Some(Closing(id)));
        o := FailApproved(t, id, HASH_CHANGED);
        ApprovedWent(before, rehashed, world, t, Some(Closing(id)), id, row, o);
      } else {
        OnlyWent(before, rehashed, t, Some(Rehashed(id, session, wish, row)));
        o := RunFrozen(t, session, id, wish, row, cfg, grantId, now);
        ApprovedLater(before, rehashed, world, t, Some(Rehashed(id, session, wish, row)), id, row, o);
      }
    }

    method RunFrozen(t: TaskId, session: string, id: Id, wish: Option<G.Wish>, row: A.Row, cfg: AppConfig, grantId: Id,
        now: Time)
        returns (o: Outcome)
      requires Valid() && t in world.tasks && world.tasks[t] == Rehashed(id, session, wish, row)
      requires id in store.approvals && store.approvals[id].status.Executing? && grantId !in world.minted
      modifies this`trace, this`world, store`approvals, store`grants
      ensures Valid() && Approved(old(world), world, t, id, row, o)
      ensures store.approvals == old(store.approvals)[id := old(store.approvals)[id].(status := Verdict(o))]
      ensures o.Executed? <==> StillRuns(old(store.approvals), old(store.grants), id, wish, row, cfg)
    {
      hide GrantsOk, PlansOk, Step, L.After, Agree, Went, Approved, Authorize, StepRedecide, FrozenOp, Grantable;
      ghost var before := world;
      var verdict := AuthorizeRequest(cfg, row.caller, row.request);
      ghost var s := Redecided(verdict, id, session, wish, row, cfg);
      SamePolicy(policy, trace);
      IsRedecide(world, t, cfg);
      Redeciding(world, t, id, session, wish, row, cfg);
      AgreesPlans(world, store.approvals, store.grants, store.plans);
      Take(Redecide(t, cfg));
      ghost var redecided := world;
      OnlyWent(before, redecided, t, Some(s));
      if !row.request.ManagesProfiles() && (verdict.None? || verdict.value.effect.Deny?) {
        o := FailApproved(t, id, POLICY_DENIED);
        ApprovedWent(before, redecided, world, t, Some(s), id, row, o);
      } else if !row.request.ManagesProfiles() && wish.Some? && verdict.value.effect.Confirm? {
        o := MintAndRun(t, id, wish.value, s.x, verdict.value.ruleId, grantId, now);
        FrozenMeans(row, session, cfg, s.x);
        MintedApproved(before, redecided, world, t, s, id, row, o);
      } else {
        o := RunApproved(t, id, s.x);
        FrozenMeans(row, session, cfg, s.x);
        ApprovedRan(before, redecided, world, t, Some(s), id, row, s.x, o);
      }
    }

    method MintAndRun(t: TaskId, id: Id, wish: G.Wish, ghost x: Execution, rule: Option<string>, grantId: Id, now: Time)
        returns (o: Outcome)
      requires Valid() && t in world.tasks && world.tasks[t] == Minting(id, wish, x) && x.decision.Some?
               && x.decision.value.ruleId == rule && x.token == ApprovalToken(id)
      requires id in store.approvals && store.approvals[id].status.Executing? && grantId !in world.minted
      modifies this`trace, this`world, store`approvals, store`grants
      ensures Valid() && Went(old(world), world, t, None, if o.Executed? then [x] else []) && (o.Executed? || o.Failed?)
      ensures o.Executed? ==> grantId in store.grants && store.grants[grantId].source == id
      ensures store.approvals == old(store.approvals)[id := old(store.approvals)[id].(status := Verdict(o))]
      ensures o.Executed? <==> Grantable(old(store.approvals), old(store.grants), id, wish, rule)
    {
      hide ByRules, GrantsOk, PlansOk, Step, L.After, Agree, Grantable;
      ghost var before := world;
      var granted := Mint(t, id, wish, x, rule, grantId, now);
      ghost var minted := world;
      if granted.Err? {
        o := FailApproved(t, id, granted.error);
      } else {
        o := RunApproved(t, id, x);
      }
      WentTwice(before, minted, world, t, Some(if granted.Ok? then Ready(x) else Closing(id)), None, [], if o.Executed?
        then [x] else []);
      assert [] + [x] == [x];
    }

    /**
     * A human approves: the row is claimed, at most one grant is made, and the frozen request
     * runs or the approval fails.
     */
    method ApproveRequest(t: TaskId, session: string, id: Id, wish: Option<G.Wish>, files: Files, laterFiles: Files,
        cfg: AppConfig, grantId: Id, clock: Clock, now: Time)
        returns (o: Outcome)
      requires Valid() && t !in world.tasks && grantId !in world.minted
      modifies this`trace, this`world, store
      ensures Valid() && (o.Denied? || o.Executed? || o.Failed?)
      ensures o.Denied? ==> world.history == old(world).history && world.tasks == old(world).tasks
      ensures !o.Denied? ==>
              id in old(store.approvals) && Approved(old(world), world, t, id, old(store.approvals)[id], o)
      ensures !o.Denied? ==>
              old(store.approvals)[id].status.Pending? && id in store.approvals
                && store.approvals[id] == old(store.approvals)[id].(status := Verdict(o))
      ensures var shown := A.Expire(old(store.approvals), clock(0));
              && (!o.Denied? <==> Opens(shown, id, wish) && Takeable(shown, id, files, clock(1), clock(2)))
              && (o.Executed? <==>
                 !o.Denied? && RunsClaimed(shown, old(store.grants), id, wish, laterFiles, clock(1), cfg))
    {
      hide ByRules, GrantsOk, PlansOk, Step, L.After, Agree, Approved, G.ValidateSource, Takeable, RunsClaimed,
        A.Expire, Went, Verdict;
      ghost var before, original := world, store.approvals;
      Show(clock(0));
      if id !in store.approvals { return Denied(NOT_FOUND); }
      if store.approvals[id].request.ManagesProfiles() && wish.Some? { return Denied(POLICY_DENIED); }
      if wish.Some? {
        if !wish.value.cfg.approvalsEnabled { return Denied(DISABLED); }
        var validated := G.ValidateSource(store.approvals, id, wish.value, A.Pending, None);
        if validated.Err? { return Denied(validated.error); }
      }
      ghost var shown, table := world, store.approvals;
      OpenTask(t, session, id, wish);
      ghost var started := world;
      WentTo(shown, started, t, Opened(id, session, wish));
      o := ClaimAndRun(t, session, id, wish, files, laterFiles, cfg, grantId, n => clock(1 + n), now);
      StartedHere(shown, started, world, t, Opened(id, session, wish), o);
      if !o.Denied? {
        OnceExpired(original, clock(0), id);
        ApprovedLater(shown, started, world, t, Some(Opened(id, session, wish)), id, table[id], o);
        ApprovedSame(before, shown, world, t, id, table[id], o);
      }
    }

    /** `show`: a sweep. */
    method Show(now: Time)
      requires Valid()
      modifies this`trace, this`world, store`approvals
      ensures Valid() && store.approvals == A.Expire(old(store.approvals), now)
      ensures world.history == old(world).history && world.tasks == old(world).tasks
              && world.minted == old(world).minted
    {
      hide ByRules, GrantsOk, PlansOk, Step, L.After, Agree, A.Expire;
      AgreesPlans(world, store.approvals, store.grants, store.plans);
      store.ExpireApprovals(now);
      IsApprovalSweep(world, now);
      ApprovalsExpire(world, now);
      Take(SweepApprovals(now));
    }

    ghost method OpenTask(t: TaskId, session: string, id: Id, wish: Option<G.Wish>)
      requires Valid() && t !in world.tasks && Opens(store.approvals, id, wish)
      modifies this`trace, this`world
      ensures Valid() && Went(old(world), world, t, Some(Opened(id, session, wish)), [])
              && world.minted == old(world).minted
    {
      hide ByRules, GrantsOk, PlansOk, Step, L.After, Agree, G.ValidateSource, StepOpen, Went;
      var before := world;
      AgreesPlans(world, store.approvals, store.grants, store.plans);
      IsOpen(world, t, HumanCli, session, id, wish);
      Opening(world, t, session, id, wish);
      Take(Open(t, HumanCli, session, id, wish));
      AgreeOn(before, world, store.approvals, store.grants, store.plans);
    }

    /** Once the approval is open: claim it, decide it again, run it. */
    method ClaimAndRun(t: TaskId, session: string, id: Id, wish: Option<G.Wish>, files: Files, laterFiles: Files,
        cfg: AppConfig, grantId: Id, clock: Clock, now: Time)
        returns (o: Outcome)
      requires Valid() && t in world.tasks && world.tasks[t] == Opened(id, session, wish) && grantId !in world.minted
      modifies this`trace, this`world, store`approvals, store`grants
      ensures Valid() && (o.Denied? || o.Executed? || o.Failed?)
      ensures o.Denied? ==> Went(old(world), world, t, None, [])
      ensures !o.Denied? ==>
              id in old(store.approvals) && old(store.approvals)[id].status.Pending?
                && Approved(old(world), world, t, id, old(store.approvals)[id], o)
      ensures !o.Denied? ==>
              id in store.approvals && store.approvals[id] == old(store.approvals)[id].(status := Verdict(o))
      ensures !o.Denied? <==> Takeable(old(store.approvals), id, files, clock(0), clock(1))
      ensures o.Executed? <==>
              !o.Denied? && RunsClaimed(old(store.approvals), old(store.grants), id, wish, laterFiles, clock(0), cfg)
    {
      hide ByRules, GrantsOk, PlansOk, Step, L.After, Agree, Approved, Went, A.Expire, A.Claimable, Takeable, StillRuns,
        RequestHash;
      ghost var before, table := world, store.approvals;
      var claimed := Claim(t, session, id, wish, files, clock);
      ghost var won := world;
      if claimed.Err? {
        o := Denied(claimed.error);
      } else {
        ExpiredClaim(table, clock(0), id, clock(1));
        WentTo(before, won, t, Won(id, session, wish, claimed.value));
        o := DecideAgain(t, session, id, wish, claimed.value, laterFiles, cfg, grantId, now);
        ApprovedLater(before, won, world, t, Some(Won(id, session, wish, claimed.value)), id, claimed.value, o);
      }
    }
  }

  /** From w to w' only task t moved, to s, with `ran` executed on the way. */
  ghost predicate Went(w: World, w': World, t: TaskId, s: Option<Task>, ran: seq<Execution>) {
    && w'.history == w.history + ran
    && w'.tasks == match s case Some(task) => w.tasks[t := task] case None => w.tasks - {t}
  }

  lemma MovedWent(w: World, w': World, t: TaskId, s: Option<Task>, ran: seq<Execution>)
    requires Moved(w, w', t, s, ran)
    ensures Went(w, w', t, s, ran)
  {
  }

  lemma WentTwice(w: World, w1: World, w2: World, t: TaskId, s1: Option<Task>, s2: Option<Task>, ran1: seq<Execution>,
      ran2: seq<Execution>)
    requires Went(w, w1, t, s1, ran1) && Went(w1, w2, t, s2, ran2)
    ensures Went(w, w2, t, s2, ran1 + ran2)
  {
    assert w.history + ran1 + ran2 == w.history + (ran1 + ran2);
    match s2
    case Some(task) => assert w1.tasks[t := task] == w.tasks[t := task];
    case None => assert w1.tasks - {t} == w.tasks - {t};
  }

  ghost predicate WentOnly(w: World, w': World, t: TaskId, s: Option<Task>) {
    Agree(w', w.approvals, w.grants, w.plans) && Went(w, w', t, s, []) && w'.minted == w.minted
      && w'.requested == w.requested
  }

  lemma WentSet(w: World, t: TaskId, s: Task)
    ensures WentOnly(w, SetTask(w, t, s), t, Some(s)) && WentOnly(w, EndTask(w, t), t, None)
  {
  }

  lemma WentIssue(w: World, t: TaskId, x: Execution)
    ensures WentOnly(w, Issue(w, t, x), t, Some(Ready(x)))
  {
  }

  lemma Finished(w: World, t: TaskId, id: Id, ok: bool)
    requires t in w.tasks && (w.tasks[t] == Ran(ApprovalToken(id)) || (w.tasks[t] == Closing(id) && !ok))
    ensures var w' := StepFinishApproval(w, t, ok);
            Went(w, w', t, None, []) && Agree(w', A.Finish(w.approvals, id, ok), w.grants, w.plans)
  {
    hide A.Finish;
  }

  lemma SweptWent(w: World, w1: World, w2: World, t: TaskId, s: Option<Task>)
    requires w1 == w.(approvals := w1.approvals) && WentOnly(w1, w2, t, s)
    ensures Went(w, w2, t, s, []) && w2.minted == w.minted && Agree(w2, w1.approvals, w.grants, w.plans)
  {
  }

  lemma Selecting(w: World, t: TaskId, id: Id, session: string, wish: Option<G.Wish>, now: Time, files: Files)
    requires t in w.tasks && w.tasks[t] == Opened(id, session, wish)
    ensures var found := A.Claimable(w.approvals, id, now, None)
            && RequestHash(w.approvals[id].request, files) == Some(w.approvals[id].hash);
            WentOnly(w, StepSelect(w, t, now, files), t, if found
              then Some(Selected(id, session, wish, w.approvals[id])) else None)
  {
    hide RequestHash, SetTask, EndTask, WentOnly;
    WentSet(w, t, if A.Claimable(w.approvals, id, now, None) then Selected(id, session, wish, w.approvals[id])
      else Closing(id));
  }

  lemma Winning(w: World, w1: World, w2: World, t: TaskId, id: Id, session: string, wish: Option<G.Wish>, row: A.Row,
      now: Time)
    requires w1 == w.(approvals := w1.approvals) && A.Claimable(w1.approvals, id, now, None)
    requires WentOnly(w1, w2, t, Some(Selected(id, session, wish, row)))
    ensures var w' := StepWin(w2, t);
            Went(w, w', t, Some(Won(id, session, wish, row)), []) && w'.minted == w.minted
            && Agree(w', A.SetStatus(w1.approvals, id, A.Executing), w.grants, w.plans)
  {
  }

  // ---- What decides an approval ----

  /** An approval is there, and what the human wishes for can be had. */
  predicate Opens(approvals: A.Table, id: Id, wish: Option<G.Wish>) {
    && id in approvals && (approvals[id].request.ManagesProfiles() ==> wish.None?)
    && (wish.Some? ==>
       wish.value.cfg.approvalsEnabled && G.ValidateSource(approvals, id, wish.value, A.Pending, None).Ok?)
  }

  /** The row still waits at both clock readings, and hashes as it was filed. */
  predicate Takeable(approvals: A.Table, id: Id, files: Files, swept: Time, now: Time) {
    && id in approvals && approvals[id].status.Pending?
    && swept < approvals[id].expiresAt && now < approvals[id].expiresAt
    && RequestHash(approvals[id].request, files) == Some(approvals[id].hash)
  }

  lemma TakeableSwept(approvals: A.Table, id: Id, files: Files, swept: Time, now: Time)
    ensures var table := A.Expire(approvals, swept);
            Takeable(approvals, id, files, swept, now) <==>
              A.Claimable(table, id, now, None) && RequestHash(table[id].request, files) == Some(table[id].hash)
  {
    hide RequestHash;
  }

  ghost predicate Grantable(approvals: A.Table, grants: G.Table, id: Id, wish: G.Wish, rule: Option<string>) {
    rule.Some? && G.ValidateSource(approvals, id, wish, A.Executing, rule).Ok? && G.SourceFree(grants, id)
  }

  /**
   * The second decision does not deny the frozen request, and makes the grant that was asked for if
   * confirmation is still due.
   */
  ghost predicate StillRuns(approvals: A.Table, grants: G.Table, id: Id, wish: Option<G.Wish>, row: A.Row,
      cfg: AppConfig) {
    row.request.ManagesProfiles() ||
    var verdict := Authorize(cfg, row.caller, row.request);
    && verdict.Some? && !verdict.value.effect.Deny?
    && (wish.Some? && verdict.value.effect.Confirm? ==>
       Grantable(approvals, grants, id, wish.value, verdict.value.ruleId))
  }

  ghost predicate RunsClaimed(approvals: A.Table, grants: G.Table, id: Id, wish: Option<G.Wish>, files: Files,
      swept: Time, cfg: AppConfig) {
    var table := A.Expire(approvals, swept);
    && id in table && RequestHash(table[id].request, files) == Some(table[id].hash)
    && StillRuns(A.SetStatus(table, id, A.Executing), grants, id, wish, table[id], cfg)
  }

  // ---- What an approver leaves behind ----

  function Verdict(o: Outcome): A.Status {
    if o.Executed? && o.ok then A.Executed else A.Failed
  }

  /** The task is gone; the frozen request was run once, charged to the approval, or not at all. */
  ghost predicate Approved(w: World, w': World, t: TaskId, id: Id, row: A.Row, o: Outcome) {
    && (o.Executed? || o.Failed?) && w'.tasks == w.tasks - {t}
    && (if o.Executed? then
          |w'.history| == |w.history| + 1 && w.history <= w'.history
          && w'.history[|w.history|].token == ApprovalToken(id) && Inv.FrozenAs(w'.history[|w.history|].op, row)
        else w'.history == w.history)
  }

  lemma ApprovedWent(w: World, w1: World, w2: World, t: TaskId, s: Option<Task>, id: Id, row: A.Row, o: Outcome)
    requires Went(w, w1, t, s, []) && Went(w1, w2, t, None, []) && o.Failed?
    ensures Approved(w, w2, t, id, row, o)
  {
    assert w1.tasks - {t} == w.tasks - {t};
  }

  lemma ApprovedRan(w: World, w1: World, w2: World, t: TaskId, s: Option<Task>, id: Id, row: A.Row, x: Execution,
      o: Outcome)
    requires Went(w, w1, t, s, []) && Went(w1, w2, t, None, [x]) && o.Executed? && x.token == ApprovalToken(id)
             && Inv.FrozenAs(x.op, row)
    ensures Approved(w, w2, t, id, row, o)
  {
    assert w1.tasks - {t} == w.tasks - {t};
  }

  lemma MintedApproved(w: World, w1: World, w2: World, t: TaskId, s: Task, id: Id, row: A.Row, o: Outcome)
    requires s.Minting? && Went(w, w1, t, Some(s), []) && Went(w1, w2, t, None, if o.Executed? then [s.x] else [])
             && (o.Executed? || o.Failed?)
    requires s.x.token == ApprovalToken(id) && Inv.FrozenAs(s.x.op, row)
    ensures Approved(w, w2, t, id, row, o)
  {
    if o.Executed? { ApprovedRan(w, w1, w2, t, Some(s), id, row, s.x, o); }
      else { ApprovedWent(w, w1, w2, t, Some(s), id, row, o); }
  }

  lemma ApprovedLater(w: World, w1: World, w2: World, t: TaskId, s: Option<Task>, id: Id, row: A.Row, o: Outcome)
    requires Went(w, w1, t, s, []) && Approved(w1, w2, t, id, row, o)
    ensures Approved(w, w2, t, id, row, o)
  {
    assert w1.tasks - {t} == w.tasks - {t};
  }

  lemma ApprovedSame(w: World, w1: World, w2: World, t: TaskId, id: Id, row: A.Row, o: Outcome)
    requires w1.history == w.history && w1.tasks == w.tasks && Approved(w1, w2, t, id, row, o)
    ensures Approved(w, w2, t, id, row, o)
  {
  }

  lemma FrozenMeans(row: A.Row, session: string, cfg: AppConfig, x: Execution)
    requires x.op == FrozenOp(row, session, cfg)
    ensures Inv.FrozenAs(x.op, row)
  {
  }

  lemma OnlyWent(w: World, w': World, t: TaskId, s: Option<Task>)
    requires WentOnly(w, w', t, s)
    ensures Went(w, w', t, s, []) && w'.minted == w.minted && Agree(w', w.approvals, w.grants, w.plans)
  {
  }

  lemma Rehashing(w: World, t: TaskId, id: Id, session: string, wish: Option<G.Wish>, row: A.Row, files: Files)
    requires t in w.tasks && w.tasks[t] == Won(id, session, wish, row)
    ensures WentOnly(w, StepRehash(w, t, files), t,
                     Some(if RequestHash(row.request, files) != Some(row.hash) then Closing(id)
                       else Rehashed(id, session, wish, row)))
  {
    hide RequestHash, SetTask, WentOnly;
    WentSet(w, t, Closing(id));
    WentSet(w, t, Rehashed(id, session, wish, row));
  }

  /** Where the second decision leaves the task. */
  ghost function Redecided(verdict: Option<Decision>, id: Id, session: string, wish: Option<G.Wish>, row: A.Row,
      cfg: AppConfig): Task {
    var op := FrozenOp(row, session, cfg);
    if row.request.ManagesProfiles() then Ready(Execution(op, None, ApprovalToken(id), None))
    else if verdict.None? || verdict.value.effect.Deny? then Closing(id)
    else if wish.Some?
      && verdict.value.effect.Confirm? then Minting(id, wish.value, Execution(op, verdict, ApprovalToken(id), None))
    else Ready(Execution(op, verdict, ApprovalToken(id), None))
  }

  lemma Redeciding(w: World, t: TaskId, id: Id, session: string, wish: Option<G.Wish>, row: A.Row, cfg: AppConfig)
    requires t in w.tasks && w.tasks[t] == Rehashed(id, session, wish, row)
    ensures WentOnly(w, StepRedecide(w, t, cfg), t,
            Some(Redecided(w.policy(cfg, row.caller, row.request), id, session, wish, row, cfg)))
  {
    hide SetTask, Issue, WentOnly, FrozenOp;
    var s := Redecided(w.policy(cfg, row.caller, row.request), id, session, wish, row, cfg);
    if s.Ready? { WentIssue(w, t, s.x); } else { WentSet(w, t, s); }
  }

  ghost function Validated(approvals: A.Table, id: Id, wish: G.Wish, x: Execution): Task
    requires x.decision.Some?
  {
    var rule := x.decision.value.ruleId;
    if rule.None? then Closing(id)
    else
      match G.ValidateSource(approvals, id, wish, A.Executing, rule)
      case Err(_) => Closing(id)
      case Ok(terms) => Inserting(id, wish, terms, x)
  }

  lemma Validating(w: World, t: TaskId, id: Id, wish: G.Wish, x: Execution)
    requires t in w.tasks && w.tasks[t] == Minting(id, wish, x) && x.decision.Some?
    ensures WentOnly(w, StepValidateGrant(w, t), t, Some(Validated(w.approvals, id, wish, x)))
  {
    hide SetTask, WentOnly, G.ValidateSource;
    WentSet(w, t, Validated(w.approvals, id, wish, x));
  }

  lemma InsertingGrant(w: World, t: TaskId, id: Id, wish: G.Wish, terms: G.Terms, x: Execution, grantId: Id, now: Time)
    requires t in w.tasks && w.tasks[t] == Inserting(id, wish, terms, x) && grantId !in w.minted && id in w.approvals
    ensures var w' := StepInsertGrant(w, t, grantId, now);
            if G.SourceFree(w.grants, id) then
              Went(w, w', t, Some(Ready(x)), [])
                && Agree(w', w.approvals,
                  w.grants[grantId := G.NewRow(terms, wish, id, w.approvals[id].namespace, now)], w.plans)
            else Went(w, w', t, Some(Closing(id)), []) && Agree(w', w.approvals, w.grants, w.plans)
  {
    hide G.SourceFree, G.NewRow;
  }

  lemma Unminted(policy: Engine, trace: seq<Event>, id: Id)
    requires id !in L.After(policy, trace).minted
    ensures id !in L.After(policy, trace).grants
  {
    L.FromStart(policy, trace);
    hide L.After, Inv.Stories, Inv.Claims, Inv.Tokens, Inv.Mints, Inv.Tasks, Inv.Past;
  }

  lemma ApprovalsExpire(w: World, now: Time)
    ensures var w' := w.(approvals := A.Expire(w.approvals, now));
            Agree(w', A.Expire(w.approvals, now), w.grants, w.plans) && w'.tasks == w.tasks && w'.history == w.history
              && w'.minted == w.minted
  {
    hide A.Expire;
  }

  lemma Opening(w: World, t: TaskId, session: string, id: Id, wish: Option<G.Wish>)
    requires t !in w.tasks && id in w.approvals && (w.approvals[id].request.ManagesProfiles() ==> wish.None?)
    requires wish.Some? ==>
             wish.value.cfg.approvalsEnabled && G.ValidateSource(w.approvals, id, wish.value, A.Pending, None).Ok?
    ensures WentOnly(w, StepOpen(w, t, HumanCli, session, id, wish), t, Some(Opened(id, session, wish)))
  {
    hide SetTask, WentOnly, G.ValidateSource;
    WentSet(w, t, Opened(id, session, wish));
  }

  /** A row still claimable after a sweep was pending before it. */
  lemma ExpiredClaim(table: A.Table, at: Time, id: Id, now: Time)
    requires A.Claimable(A.Expire(table, at), id, now, None)
    ensures id in table && table[id].status.Pending? && A.Expire(table, at)[id] == table[id]
            && id in A.Expire(table, at)
  {
  }

  lemma OnceExpired(table: A.Table, at: Time, id: Id)
    requires id in A.Expire(table, at) && A.Expire(table, at)[id].status.Pending?
    ensures id in table && table[id].status.Pending? && A.Expire(table, at)[id] == table[id]
  {
  }

  lemma WentTo(w: World, w': World, t: TaskId, s: Task)
    requires Went(w, w', t, Some(s), [])
    ensures t in w'.tasks && w'.tasks[t] == s
  {
  }

  lemma StartedHere(w: World, w1: World, w2: World, t: TaskId, s: Task, o: Outcome)
    requires Went(w, w1, t, Some(s), []) && t !in w.tasks && (o.Denied? ==> Went(w1, w2, t, None, []))
    ensures o.Denied? ==> w2.history == w.history && w2.tasks == w.tasks
  {
    assert w.tasks[t := s] - {t} == w.tasks;
  }

  /** Where an operation that is not refused starts. */
  ghost function Starts(op: Op, d: Decision): Task {
    if RunsAtOnce(op, d) then Ready(Execution(op, Some(d), Unmetered, None)) else AtPlan(op, d)
  }

  lemma Arrived(w: World, t: TaskId, op: Op, d: Decision)
    requires t !in w.tasks && op.request.IsOperation() && w.policy(op.cfg, op.caller, op.request) == Some(d)
             && !d.effect.Deny? && (op.cfg.approvalsEnabled || d.effect.Allow?)
    ensures StepArrive(w, t, op) == match Starts(op, d) case Ready(x) => Issue(w, t, x) case s => SetTask(w, t, s)
  {
    hide Issue, SetTask;
  }

  lemma SamePolicy(policy: Engine, trace: seq<Event>)
    ensures L.After(policy, trace).policy == policy
  {
    hide L.After;
    L.FromStart(policy, trace);
  }

  lemma HumansAllowed(cfg: AppConfig, caller: Caller, request: Request)
    ensures !caller.EnforcesAgentPolicy() ==> Authorize(cfg, caller, request) == Some(ALLOW)
  {
  }

  // ---- What decides an operation ----

  /** Allowed, and no plan could be live for it. */
  predicate RunsAtOnce(op: Op, d: Decision) {
    d.effect.Allow? && (op.caller.HumanCli? || op.taskId.None? || !op.cfg.approvalsEnabled)
  }

  /** A plan is live for the operation, once leases and open plans are swept. */
  ghost predicate HasLive(plans: P.Table, op: Op, clock: Clock) {
    op.taskId.Some? &&
    var swept := P.ExpireOpen(P.FailOverdue(plans, clock(0)), clock(0));
    exists id :: id in swept && InForce(swept[id], P.Query(op.Profile(), op.taskId.value, Some(op.session)), clock(1))
  }

  /** A newest live plan decides: the operation runs exactly when it can be claimed as that plan's next action. */
  ghost predicate PlanDecides(plans: P.Table, op: Op, files: Files, clock: Clock, runs: bool) {
    op.taskId.Some? &&
    var swept := P.ExpireOpen(P.FailOverdue(plans, clock(0)), clock(0));
    var q := P.Query(op.Profile(), op.taskId.value, Some(op.session));
    exists id :: id in swept && InForce(swept[id], q, clock(1))
      && (forall other :: other in swept && InForce(swept[other], q, clock(1)) ==>
            swept[other].createdAt <= swept[id].createdAt)
      && (runs <==> NextAction(swept[id], op.request, files))
  }

  /** The request is what the plan has next, the plan's content is as proposed, and no action of it is claimed. */
  ghost predicate NextAction(r: P.Row, request: Request, files: Files) {
    && r.claimedIndex.None? && PlanHash(r.actions, files) == Some(r.hash)
    && r.nextIndex < |r.actions| && request == r.actions[r.nextIndex]
  }

  /** The first candidate that can still be spent at its turn is charged, and nothing when there is none. */
  ghost predicate Spends(grants: G.Table, op: Op, d: Decision, clock: Clock, ids: seq<Id>, used: Option<Id>,
      after: G.Table) {
    var swept := G.Expire(grants, clock(0));
    && G.Answers(swept, GrantQuery(op, d), clock(1), ids)
    && var k := G.FirstSpendable(swept, ids, Ticks(clock, |ids|));
       if k < |ids| then used == Some(ids[k]) && after == G.Charge(swept, ids[k]) else used == None && after == swept
  }

  /** What the operation asks of a grant: the profile, the rule that decided, the task or none, and the namespace. */
  function Asked(op: Op, d: Decision): G.Query {
    G.Query(op.Profile(), d.ruleId.GetOr(""), op.taskId, if op.caller.HumanCli? then None else Some(op.session))
  }

  /** A grant that suits the operation is there when the candidates are read. */
  ghost predicate HasGrant(grants: G.Table, op: Op, d: Decision, clock: Clock) {
    exists id :: id in grants && Suits(grants[id], Asked(op, d))
                 && clock(0) < grants[id].expiresAt && clock(1) < grants[id].expiresAt
  }

  /** ... and does not expire before the call is over. */
  ghost predicate LastingGrant(grants: G.Table, op: Op, d: Decision, clock: Clock) {
    exists id :: id in grants && Suits(grants[id], Asked(op, d)) && forall i: nat :: clock(i) < grants[id].expiresAt
  }

  predicate Fileable(request: Request, files: Files) {
    && (request.Upload? ==> request.src in files)
    && (request.Exec? || request.Read? || request.Write? || request.Upload? || request.Download? || request.TunnelOpen?
        || request.ProfileCreate? || request.ProfileDelete?)
  }

  /** A pending approval of the operation, which waits for as long as the operation's configuration says. */
  predicate Waits(r: A.Row, op: Op) {
    && r.status.Pending? && r.request == op.request && r.caller == op.caller
    && r.namespace == (if op.caller.HumanCli? then None else Some(op.session))
    && (if r.createdAt + op.cfg.approvalTtl < 0x1_0000_0000_0000_0000
        then r.expiresAt == r.createdAt + op.cfg.approvalTtl else r.expiresAt == 0xffff_ffff_ffff_ffff)
  }

  /**
   * Confirmation is due and no plan is live: a grant runs it, otherwise a human is asked; without a rule it is refused.
   */
  predicate Grants(d: Decision, op: Op, files: Files, eligible: bool, lasting: bool, o: Outcome) {
    && (o.Executed? ==> d.ruleId.Some? && eligible) && (d.ruleId.Some? && lasting ==> o.Executed?)
    && (o.AwaitsApproval? <==> d.ruleId.Some? && !o.Executed? && Fileable(op.request, files))
  }

  /** A live plan alone decides; without one an allowed operation runs, and the rest is up to the grants. */
  predicate Decides(d: Decision, op: Op, files: Files, live: bool, eligible: bool, lasting: bool, o: Outcome) {
    if live then !o.AwaitsApproval?
    else if d.effect.Allow? then o.Executed?
    else Grants(d, op, files, eligible, lasting, o)
  }

  /** What the first execution since w was charged to. */
  function LastToken(w: World, w': World): Token {
    if |w.history| < |w'.history| then w'.history[|w.history|].token else Unmetered
  }

  lemma LiveFound(plans: P.Table, op: Op, clock: Clock, pick: Option<Id>, files: Files)
    requires !op.caller.HumanCli?
    requires op.taskId.Some? ==>
               P.Newest(P.ExpireOpen(P.FailOverdue(plans, clock(0)), clock(0)),
                 P.Query(op.Profile(), op.taskId.value, op.Namespace()), clock(1), pick)
    ensures op.taskId.None? ==> !HasLive(plans, op, clock)
    ensures op.taskId.Some? ==>
              var swept := P.ExpireOpen(P.FailOverdue(plans, clock(0)), clock(0));
              (pick.Some? ==> pick.value in swept)
                && (P.Claim(swept, pick, op.request, files).NoPlan? <==> !HasLive(plans, op, clock))
              && (pick.None? ==> P.Claim(swept, pick, op.request, files).NoPlan?)
              && (pick.Some? ==> PlanDecides(plans, op, files, clock, P.Claim(swept, pick, op.request, files).Claimed?))
  {
    hide P.ExpireOpen, P.FailOverdue, RequestHash, PlanHash, P.Claim, NextAction;
    if op.taskId.Some? && pick.Some? {
      NextClaimed(P.ExpireOpen(P.FailOverdue(plans, clock(0)), clock(0)), pick.value, op.request, files);
    }
    if op.taskId.Some? { I.NothingPicked(P.ExpireOpen(P.FailOverdue(plans, clock(0)), clock(0)), op.request, files); }
  }

  lemma NextClaimed(t: P.Table, id: Id, request: Request, files: Files)
    requires id in t
    ensures P.Claim(t, Some(id), request, files).Claimed? <==> NextAction(t[id], request, files)
    ensures !P.Claim(t, Some(id), request, files).NoPlan?
  {
    P.ClaimExact(t, id, request, files);
  }

  lemma GrantFound(grants: G.Table, op: Op, d: Decision, clock: Clock, ids: seq<Id>, used: Option<Id>)
    requires used.None? ==> forall id :: id in grants && Suits(grants[id], Asked(op, d)) ==>
               exists i :: 0 <= i < 2 + |ids| && grants[id].expiresAt <= clock(i)
    requires used.Some? ==>
               used.value in grants && Suits(grants[used.value], Asked(op, d))
                 && clock(0) < grants[used.value].expiresAt && clock(1) < grants[used.value].expiresAt
    ensures used.Some? ==> HasGrant(grants, op, d, clock)
    ensures LastingGrant(grants, op, d, clock) ==> used.Some?
  {
    hide Suits;
  }

  // ---- What a whole operation leaves behind ----

  /** The task is gone; one execution of the operation itself, or none. */
  ghost predicate Ended(w: World, w': World, t: TaskId, op: Op, o: Outcome) {
    && w'.tasks == w.tasks - {t}
    && (if o.Executed? then |w'.history| == |w.history| + 1 && w.history <= w'.history
       && w'.history[|w.history|].op == op
        else w'.history == w.history)
    && (o.AwaitsApproval? ==> o.id in w'.approvals && Waits(w'.approvals[o.id], op))
  }

  lemma NeverStarted(w: World, t: TaskId, op: Op, o: Outcome)
    requires t !in w.tasks && o.Denied?
    ensures Ended(w, w, t, op, o)
  {
  }

  lemma NothingRan(w: World, w': World, t: TaskId, op: Op, o: Outcome)
    requires Moved(w, w', t, None, []) && o.Denied?
    ensures Ended(w, w', t, op, o)
  {
  }

  lemma OneRan(w: World, w': World, t: TaskId, op: Op, x: Execution, o: Outcome)
    requires x.op == op && o.Executed? && (Moved(w, w', t, None, [] + [x]) || Moved(w, w', t, None, [] + [x] + []))
    ensures Ended(w, w', t, op, o) && LastToken(w, w') == x.token
  {
    assert [] + [x] == [x] && [] + [x] + [] == [x];
  }

  lemma EndedLater(w: World, w1: World, w2: World, t: TaskId, op: Op, s: Option<Task>, o: Outcome)
    requires Moved(w, w1, t, s, []) && Ended(w1, w2, t, op, o)
    ensures Ended(w, w2, t, op, o) && LastToken(w, w2) == LastToken(w1, w2)
  {
    assert w1.tasks - {t} == w.tasks - {t};
  }

  lemma FiledAtEnd(w: World, w1: World, w2: World, t: TaskId, op: Op, d: Decision, o: Outcome)
    requires Moved(w, w1, t, Some(AtRequest(op, d)), []) && w2.history == w1.history && w2.tasks == w1.tasks - {t}
             && !o.Executed?
    requires o.AwaitsApproval? ==> o.id in w2.approvals && Waits(w2.approvals[o.id], op)
    ensures Ended(w, w2, t, op, o)
  {
    assert w1.tasks - {t} == w.tasks - {t};
  }

  lemma GrantsOnly(w: World, grants: G.Table)
    ensures Still(w, w.(grants := grants))
  {
  }

  /** What a charge executes; an uncharged attempt executes nothing. */
  ghost function Charged(grants: G.Table, op: Op, d: Decision, sight: Option<Sight>, ids: seq<Id>,
      ticks: seq<Time>): Execution {
    if |ticks| == |ids| && (forall i :: 0 <= i < |ids| ==> ids[i] in grants)
      && G.FirstSpendable(grants, ids, ticks) < |ids| then
      var id := ids[G.FirstSpendable(grants, ids, ticks)];
      Execution(op, Some(d), GrantToken(id, grants[id].usedCount), sight)
    else Execution(op, None, Unmetered, None)
  }

  /** The consuming transaction, table and task. */
  lemma Charging(w: World, t: TaskId, op: Op, d: Decision, sight: Option<Sight>, ids: seq<Id>, now: Time,
      ticks: seq<Time>)
    requires t in w.tasks && w.tasks[t] == AtGrant(op, d, sight) && d.ruleId.Some?
    requires G.Answers(w.grants, GrantQuery(op, d), now, ids) && |ticks| == |ids|
    ensures forall i :: 0 <= i < |ids| ==> ids[i] in w.grants
    ensures var w', k := StepConsumeGrant(w, t, ids, now, ticks), G.FirstSpendable(w.grants, ids, ticks);
            && Moved(w, w', t,
               Some(if k < |ids| then Ready(Charged(w.grants, op, d, sight, ids, ticks)) else AtRequest(op, d)), [])
            && Agree(w', w.approvals, if k < |ids| then G.Charge(w.grants, ids[k]) else w.grants, w.plans)
  {
    assert forall i :: 0 <= i < |ids| ==> ids[i] in w.grants;
    hide G.Answers, G.FirstSpendable, G.Charge, StepConsumeGrant, Issue, SetTask, Agree, Moved, Still;
    var k := G.FirstSpendable(w.grants, ids, ticks);
    if k < |ids| {
      I.Charged(w, t, op, d, sight, ids, now, ticks);
      var x := Charged(w.grants, op, d, sight, ids, ticks);
      var w1 := w.(grants := G.Charge(w.grants, ids[k]));
      AfterIssue(w1, t, x);
      GrantsOnly(w, w1.grants);
      StillMoved(w, w1, Issue(w1, t, x), t, Some(Ready(x)), []);
    } else {
      I.Uncharged(w, t, op, d, sight, ids, now, ticks);
      AfterSet(w, t, AtRequest(op, d));
    }
  }

  /** Filing an approval, table and task. */
  lemma Filed(w: World, t: TaskId, op: Op, d: Decision, id: Id, now: Time, files: Files)
    requires t in w.tasks && w.tasks[t] == AtRequest(op, d) && id !in w.requested
    ensures var row :=
            A.NewRow(op.request, files, now, op.cfg.approvalTtl, op.caller, d.ruleId, d.risk, op.taskId,
              op.Namespace());
            var w' := StepRequestApproval(w, t, id, now, files);
            && w'.history == w.history && w'.tasks == w.tasks - {t}
            && Agree(w', if row.Some? then w.approvals[id := row.value] else w.approvals, w.grants, w.plans)
            && (row.Some? ==> row.value.status.Pending? && row.value.request == op.request)
            && (row.Some? <==> RequestHash(op.request, files).Some? && RequestProfile(op.request).Some?)
  {
    RowShape(op, d, now, files);
    hide A.NewRow;
  }

  lemma RowShape(op: Op, d: Decision, now: Time, files: Files)
    ensures var row :=
            A.NewRow(op.request, files, now, op.cfg.approvalTtl, op.caller, d.ruleId, d.risk, op.taskId,
              op.Namespace());
            && (row.Some? ==> row.value.status.Pending? && row.value.request == op.request)
            && (row.Some? <==> RequestHash(op.request, files).Some? && RequestProfile(op.request).Some?)
  {
  }

  /** Filing a profile mutation, table and task. */
  lemma MutationFiled(w: World, t: TaskId, op: Op, id: Id, now: Time, o: Outcome)
    requires op.request.ManagesProfiles() && op.caller.Mcp? && op.cfg.cloud && op.cfg.approvalsEnabled
    requires t !in w.tasks && id !in w.requested && o == AwaitsApproval(id)
    ensures var row :=
            A.NewRow(op.request, map[], now, op.cfg.approvalTtl, Mcp, None, Some(High), None, Some(op.session));
            var w' := StepRequestMutation(w, id, op.session, op.request, op.cfg, now);
            && row.Some? && row.value.risk == Some(High)
            && Agree(w', w.approvals[id := row.value], w.grants, w.plans) && Ended(w, w', t, op, o)
  {
  }

  lemma Mutating(w: World, t: TaskId, op: Op)
    requires op.request.ManagesProfiles() && op.caller.Mcp? && !op.cfg.cloud && t !in w.tasks
    ensures StepMutateProfile(w, t, op) == Issue(w, t, Execution(op, None, Unmetered, None))
  {
    hide Issue;
  }

  /** An identifier that was never filed is not in the table. */
  lemma Unfiled(policy: Engine, trace: seq<Event>, id: Id)
    requires id !in L.After(policy, trace).requested
    ensures id !in L.After(policy, trace).approvals
  {
    L.FromStart(policy, trace);
    hide L.After, Inv.Stories, Inv.Claims, Inv.Tokens, Inv.Mints, Inv.Tasks, Inv.Past;
  }

  lemma Finishing(w: World, t: TaskId, id: Id, index: nat, success: bool)
    requires t in w.tasks && w.tasks[t] == Ran(PlanToken(id, index))
    ensures var w' := StepFinishPlan(w, t, success);
            Moved(w, w', t, None, []) && Agree(w', w.approvals, w.grants, P.Finish(w.plans, id, index, success))
  {
    hide P.LeaseHeld, EndTask, Moved, Agree, Note;
    var plans, journal := P.Finish(w.plans, id, index, success),
      Note(w, id, if success then Done(index) else Broke(index));
    AfterEnd(w, t);
    AfterPlanEnd(w, t, plans, journal);
  }

  lemma AfterPlanEnd(w: World, t: TaskId, plans: P.Table, journal: map<Id, seq<Entry>>)
    ensures var w' := EndTask(w, t).(plans := plans, journal := journal);
            Agree(w', w.approvals, w.grants, plans) && Moved(w, w', t, None, [])
  {
  }

  lemma AgreesPlans(w: World, approvals: A.Table, grants: G.Table, plans: P.Table)
    requires Agree(w, approvals, grants, plans)
    ensures w.approvals == approvals && w.grants == grants && w.plans == plans
  {
  }

  lemma SweptTask(w: World, w': World, now: Time, t: TaskId)
    requires w' == StepSweepPlans(StepSweepLeases(w, now), now)
    ensures w'.tasks == w.tasks && w'.plans == P.ExpireOpen(P.FailOverdue(w.plans, now), now)
            && w'.approvals == w.approvals && w'.grants == w.grants
  {
    hide P.ExpireOpen, P.FailOverdue;
  }

  lemma PlansOnly(w: World, plans: P.Table, journal: map<Id, seq<Entry>>)
    ensures Still(w, w.(plans := plans, journal := journal))
  {
  }

  lemma LeaseTaken(plans: P.Table, id: Id, index: nat)
    requires id in plans
    ensures forall leaseUntil :: P.LeaseHeld(P.MarkClaimed(plans, id, index, leaseUntil), id, index)
  {
  }

  /** The claiming transaction, table and task. */
  lemma Transaction(w: World, t: TaskId, op: Op, d: Decision, pick: Option<Id>, now: Time, leaseNow: Time, files: Files)
    requires t in w.tasks && w.tasks[t] == AtPlan(op, d) && op.caller.EnforcesAgentPolicy() && op.taskId.Some?
    requires P.Newest(w.plans, P.Query(op.Profile(), op.taskId.value, op.Namespace()), now, pick)
    ensures pick.Some? ==> pick.value in w.plans
    ensures var w', r := StepClaimPlan(w, t, pick, now, leaseNow, files), P.Claim(w.plans, pick, op.request, files);
            && Moved(w, w', t, ClaimMoves(op, d, r, Some(Sight(w.plans, now))), [])
            && (r.Claimed? ==>
               r.id in w.plans
                 && forall leaseUntil :: P.LeaseHeld(P.MarkClaimed(w.plans, r.id, r.index, leaseUntil), r.id, r.index))
            && Agree(w', w.approvals, w.grants,
                     if r.Claimed?
                       then P.MarkClaimed(w.plans, r.id, r.index, A.SaturatingAdd(leaseNow, P.LeaseSeconds(op.request)))
                       else w.plans)
  {
    assert pick.Some? ==> pick.value in w.plans;
    hide P.Claim, P.Newest, P.MarkClaimed, P.LeaseHeld, P.LeaseSeconds, StepClaimPlan, Issue, SetTask, EndTask, Note,
      Agree, Moved, Still;
    var sight := Some(Sight(w.plans, now));
    var r := P.Claim(w.plans, pick, op.request, files);
    I.NothingPicked(w.plans, op.request, files);
    if r.Claimed? && pick.Some? {
      I.Claimed(w, t, op, d, pick, now, leaseNow, files);
      P.ClaimedNext(w.plans, pick.value, op.request, files);
      LeaseTaken(w.plans, r.id, r.index);
      var x := Execution(op, Some(d), PlanToken(r.id, r.index), sight);
      var plans,
        journal := P.MarkClaimed(w.plans, r.id, r.index, A.SaturatingAdd(leaseNow, P.LeaseSeconds(op.request))),
        Note(w, r.id, Gateway.Claimed(r.index));
      var w1 := w.(plans := plans, journal := journal);
      AfterIssue(w1, t, x);
      PlansOnly(w, plans, journal);
      StillMoved(w, w1, Issue(w1, t, x), t, Some(Ready(x)), []);
    } else {
      I.Unclaimed(w, t, op, d, pick, now, leaseNow, files);
      AfterSet(w, t, AtGrant(op, d, sight));
      AfterEnd(w, t);
      AfterIssue(w, t, Execution(op, Some(d), Unmetered, sight));
    }
  }

  /** Where the claiming transaction leaves the task. */
  ghost function ClaimMoves(op: Op, d: Decision, r: P.ClaimResult, sight: Option<Sight>): Option<Task> {
    match r
    case NoPlan =>
      Some(if d.effect.Allow?
        && sight.Some? then Ready(Execution(op, Some(d), Unmetered, sight)) else AtGrant(op, d, sight))
    case Refused(_) => None
    case Claimed(id, index) => Some(Ready(Execution(op, Some(d), PlanToken(id, index), sight)))
  }

  lemma AgreeOn(w: World, w': World, approvals: A.Table, grants: G.Table, plans: P.Table)
    requires Agree(w, approvals, grants, plans) && Agree(w', w.approvals, w.grants, w.plans)
    ensures Agree(w', approvals, grants, plans)
  {
  }
}
