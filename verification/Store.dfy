/**
 * The authorization database as its services use it. Each method runs its statements one after another on the tables;
 * how the methods of several callers interleave is the business of Gateway, which is built from the same statements.
 * Every clock reading of the original is a parameter.
 */
module Store {
  import opened Types
  import opened Config
  import A = Approvals
  import G = Grants
  import P = Plans

  /** What the schema and the statements keep true of the tables. */
  ghost predicate GrantsOk(grants: G.Table) {
    && (forall g :: g in grants ==> G.RowOk(grants[g]))
    && (forall g, h :: g in grants && h in grants && g != h ==> grants[g].source != grants[h].source)
  }

  ghost predicate PlansOk(plans: P.Table) {
    forall p :: p in plans ==> P.RowOk(plans[p])
  }

  lemma GrantsOkAfterExpiry(grants: G.Table, now: Time)
    requires GrantsOk(grants)
    ensures GrantsOk(G.Expire(grants, now))
  {
  }

  lemma GrantsOkAfterCharge(grants: G.Table, id: Id, now: Time)
    requires GrantsOk(grants) && id in grants && G.Spendable(grants[id], now)
    ensures GrantsOk(G.Charge(grants, id))
  {
  }

  lemma GrantsOkAfterCleanup(grants: G.Table)
    requires GrantsOk(grants)
    ensures GrantsOk(G.Cleanup(grants))
  {
  }

  lemma PlansOkAfterClaim(plans: P.Table, id: Id, leaseUntil: Time)
    requires PlansOk(plans) && id in plans && plans[id].claimedIndex.None? && plans[id].nextIndex < |plans[id].actions|
    requires plans[id].status.Approved? || plans[id].status.Executing?
    ensures PlansOk(P.MarkClaimed(plans, id, plans[id].nextIndex, leaseUntil))
  {
  }

  /** What an operation needs of a grant, the time apart. */
  ghost predicate Suits(r: G.Row, q: G.Query) {
    && r.profile == q.profile && r.ruleId == q.ruleId && r.namespace == q.namespace && r.status.Active?
    && (r.taskId.None? || (q.taskId.Some? && r.taskId == q.taskId))
    && (r.maxUses.None? || r.usedCount < r.maxUses.value)
  }

  /** A plan that stands between a task and anything else it could run. */
  ghost predicate InForce(r: P.Row, q: P.Query, now: Time) {
    && r.profile == q.profile && r.taskId == q.taskId && r.namespace == q.namespace
    && (r.status.Approved? || r.status.Executing?) && now < r.expiresAt
  }

  /** A clock read several times by one call. */
  type Clock = nat -> Time

  ghost function Ticks(clock: Clock, n: nat): seq<Time> {
    seq(n, i requires 0 <= i < n => clock(2 + i))
  }

  class Store {
    var approvals: A.Table
    var grants: G.Table
    var plans: P.Table

    ghost predicate Valid()
      reads this
    {
      GrantsOk(grants) && PlansOk(plans)
    }

    constructor ()
      ensures Valid() && approvals == map[] && grants == map[] && plans == map[]
    {
      approvals, grants, plans := map[], map[], map[];
    }

    // ---- Approvals ----

    method CreateApproval(id: Id, request: Request, files: Files, now: Time, ttl: nat, caller: Caller,
                          ruleId: Option<string>, risk: Option<Risk>, taskId: Option<string>, namespace: Option<string>)
      returns (r: Result<Id, Error>)
      requires id !in approvals
      modifies this`approvals
      ensures r.Ok? <==> RequestHash(request, files).Some? && RequestProfile(request).Some?
      ensures r.Err? ==> approvals == old(approvals)
      ensures r.Ok? ==>
              r.value == id && approvals.Keys == old(approvals).Keys + {id}
                && (forall a :: a in old(approvals) ==> approvals[a] == old(approvals)[a])
      ensures r.Ok? ==>
                var row := approvals[id];
                && row.status.Pending? && row.request == request && Some(row.hash) == RequestHash(request, files)
                && Some(row.profile) == RequestProfile(request) && row.ruleId == ruleId && row.risk == risk
                && row.profile == (if request.ProfileCreate? || request.ProfileDelete? then request.name
                                   else request.profile)
                && row.caller == caller && row.taskId == taskId && row.namespace == namespace
                && row.createdAt == now && row.expiresAt <= now + ttl
                && (now + ttl < 0x1_0000_0000_0000_0000 ==> row.expiresAt == now + ttl)
                && (now + ttl >= 0x1_0000_0000_0000_0000 ==> row.expiresAt == 0xffff_ffff_ffff_ffff)
      ensures r.Ok? ==>
              Some(approvals[id]) == A.NewRow(request, files, now, ttl, caller, ruleId, risk, taskId, namespace)
    {
      var hash := RequestHash(request, files);
      if hash.None? { return Err(Approval("upload source cannot be read")); }
      var profile := RequestProfile(request);
      if profile.None? { return Err(Approval("operation has no profile")); }
      approvals :=
        approvals[id :=
          A.Row(now, A.SaturatingAdd(now, ttl), profile.value, request, hash.value, ruleId, risk, caller, taskId,
            namespace, A.Pending)];
      r := Ok(id);
    }

    method ExpireApprovals(now: Time)
      modifies this`approvals
      ensures approvals == A.Expire(old(approvals), now)
      ensures approvals.Keys == old(approvals).Keys && forall id :: id in approvals ==>
                approvals[id] == if old(approvals)[id].status.Pending? && old(approvals)[id].expiresAt <= now
                                 then old(approvals)[id].(status := A.Expired) else old(approvals)[id]
    {
      approvals := A.Expire(approvals, now);
    }

    method ClaimApproval(id: Id, namespace: Option<string>, files: Files, clock: Clock)
        returns (r: Result<A.Row, Error>)
      modifies this`approvals
      ensures var t := A.Expire(old(approvals), clock(0));
              && (r.Ok? <==>
                 A.Claimable(t, id, clock(1), namespace) && RequestHash(t[id].request, files) == Some(t[id].hash))
              && (r.Ok? ==> r.value == t[id])
              && (r.Ok? ==> t[id].status.Pending? && clock(1) < t[id].expiresAt
                            && (namespace.None? || t[id].namespace == namespace))
              && approvals == if r.Ok? then A.SetStatus(t, id, A.Executing) else t
    {
      ExpireApprovals(clock(0));
      if !A.Claimable(approvals, id, clock(1), namespace) { return Err(Approval("already processed or expired")); }
      var row := approvals[id];
      if RequestHash(row.request, files) != Some(row.hash) { return Err(Approval("request hash mismatch")); }
      approvals := approvals[id := row.(status := A.Executing)];
      r := Ok(row);
    }

    method RejectApproval(id: Id, clock: Clock) returns (ok: bool)
      modifies this`approvals
      ensures var t := A.Expire(old(approvals), clock(0));
              approvals == A.Reject(t, id, clock(1))
                && (ok <==> id in t && t[id].status.Pending? && clock(1) < t[id].expiresAt)
                && approvals == if ok then t[id := t[id].(status := A.Rejected)] else t
    {
      ExpireApprovals(clock(0));
      ok := A.IsPending(approvals, id) && approvals[id].expiresAt > clock(1);
      if ok { approvals := approvals[id := approvals[id].(status := A.Rejected)]; }
    }

    method FinishApproval(id: Id, ok: bool)
      modifies this`approvals
      ensures approvals.Keys == old(approvals).Keys && forall a :: a in approvals && a != id ==>
              approvals[a] == old(approvals)[a]
      ensures id in approvals ==>
                var before := old(approvals)[id];
                && approvals[id] == before.(status := approvals[id].status)
                && (approvals[id].status != before.status <==> before.status.Executing?)
                && (before.status.Executing? ==>
                   if ok then approvals[id].status.Executed? else approvals[id].status.Failed?)
      ensures approvals == A.Finish(old(approvals), id, ok)
    {
      if id in approvals && approvals[id].status.Executing? {
        approvals := approvals[id := approvals[id].(status := if ok then A.Executed else A.Failed)];
      }
    }

    /** Deletes exactly the rows nothing can happen to any more. */
    method CleanApprovals(now: Time) returns (removed: nat)
      modifies this`approvals
      ensures approvals == A.Cleanup(A.Expire(old(approvals), now)) && removed == |old(approvals)| - |approvals|
      ensures forall id :: id in approvals <==>
                id in old(approvals) && (old(approvals)[id].status.Executing?
                                         || (old(approvals)[id].status.Pending? && now < old(approvals)[id].expiresAt))
      ensures forall id :: id in approvals ==> approvals[id] == old(approvals)[id]
    {
      hide A.Expire, A.Cleanup;
      Lasting(approvals, now);
      SameSize(approvals, A.Expire(approvals, now));
      ExpireApprovals(now);
      removed := DeleteTerminal();
    }

    method DeleteTerminal() returns (removed: nat)
      modifies this`approvals
      ensures approvals == A.Cleanup(old(approvals)) && removed == |old(approvals)| - |approvals|
    {
      ghost var t := approvals;
      var todo := approvals.Keys;
      removed := 0;
      while todo != {}
        invariant todo <= approvals.Keys <= t.Keys && removed == |t| - |approvals|
        invariant forall id :: id in t ==> (id in approvals <==> id in todo || !A.Terminal(t[id].status))
        invariant forall id :: id in approvals ==> approvals[id] == t[id]
      {
        var id :| id in todo;
        todo := todo - {id};
        if A.Terminal(approvals[id].status) {
          approvals := approvals - {id};
          removed := removed + 1;
        }
      }
    }

    // ---- Grants ----

    method CreateGrant(id: Id, approvalId: Id, wish: G.Wish, required: A.Status, expectedRule: Option<string>,
        now: Time)
        returns (r: Result<G.Row, Error>)
      requires Valid() && id !in grants
      modifies this`grants
      ensures Valid()
      ensures r.Ok? <==>
              G.ValidateSource(approvals, approvalId, wish, required, expectedRule).Ok?
                && G.SourceFree(old(grants), approvalId)
      ensures r.Err? ==> grants == old(grants)
      ensures r.Ok? ==> grants == old(grants)[id := r.value]
                        && r.value
                           == G.NewRow(G.ValidateSource(approvals, approvalId, wish, required, expectedRule).value,
                             wish, approvalId, approvals[approvalId].namespace, now)
                        && r.value.source == approvalId && r.value.namespace == approvals[approvalId].namespace
                           && r.value.usedCount == 0 && r.value.status.Active?
                        && r.value.createdAt == now && r.value.expiresAt == now + wish.ttl
                           && r.value.taskId == wish.taskId
                        && G.TermsOk(G.Terms(r.value.profile, r.value.ruleId, r.value.maxUses.GetOr(0)), wish,
                           approvals[approvalId])
      ensures r.Ok? ==>
                var source, limits := approvals[approvalId], wish.cfg.grants;
                && source.status == required && r.value.profile == source.profile
                && Some(r.value.ruleId) == source.ruleId && 0 < wish.ttl <= limits.maxTtl
                && r.value.maxUses == Some(wish.maxUses.GetOr(limits.defaultMaxUses)) && r.value.maxUses != Some(0)
                && (source.risk == Some(Critical) ==>
                      if wish.taskId.Some? then limits.critical.task else limits.critical.time)
                && (source.risk == Some(High) ==> if wish.taskId.Some? then limits.high.task else limits.high.time)
                && (source.risk == Some(Medium) ==>
                      if wish.taskId.Some? then limits.medium.task else limits.medium.time)
                && (source.risk == Some(Low) || source.risk.None? ==>
                      if wish.taskId.Some? then limits.low.task else limits.low.time)
    {
      var validated := G.ValidateSource(approvals, approvalId, wish, required, expectedRule);
      G.ValidationExact(approvals, approvalId, wish, required, expectedRule);
      if validated.Err? { return Err(validated.error); }
      var free := IsSourceFree(approvalId);
      if !free { return Err(Approval("an approval yields one grant")); }
      var row := G.NewRow(validated.value, wish, approvalId, approvals[approvalId].namespace, now);
      grants := grants[id := row];
      r := Ok(row);
    }

    /** The unique index at work. */
    method IsSourceFree(approvalId: Id) returns (free: bool)
      ensures free <==> G.SourceFree(grants, approvalId)
    {
      var todo := grants.Keys;
      while todo != {}
        invariant todo <= grants.Keys
        invariant forall id :: id in grants && id !in todo ==> grants[id].source != approvalId
      {
        var id :| id in todo;
        if grants[id].source == approvalId { return false; }
        todo := todo - {id};
      }
      free := true;
    }

    /** The candidates of `consume`, in the order the statement asks for. */
    method SelectCandidates(q: G.Query, now: Time) returns (ids: seq<Id>)
      ensures G.Answers(grants, q, now, ids)
      ensures forall id :: id in ids ==> id in grants
      ensures forall id :: id in grants ==>
                (id in ids <==>
                   && grants[id].profile == q.profile && grants[id].ruleId == q.ruleId
                   && grants[id].namespace == q.namespace && grants[id].status.Active? && now < grants[id].expiresAt
                   && (grants[id].taskId.None? || (q.taskId.Some? && grants[id].taskId == q.taskId))
                   && (grants[id].maxUses.None? || grants[id].usedCount < grants[id].maxUses.value))
      ensures forall i, j :: 0 <= i < j < |ids| ==>
                (grants[ids[i]].taskId.Some? && grants[ids[j]].taskId.None?)
                || (grants[ids[i]].taskId.Some? == grants[ids[j]].taskId.Some?
                    && grants[ids[i]].createdAt >= grants[ids[j]].createdAt)
    {
      hide G.Eligible, G.NotAfter;
      ids := [];
      var todo := grants.Keys;
      while todo != {}
        invariant todo <= grants.Keys
        invariant forall i :: 0 <= i < |ids| ==>
                  ids[i] in grants && ids[i] !in todo && G.Eligible(grants[ids[i]], q, now)
        invariant forall id :: id in grants && G.Eligible(grants[id], q, now) ==> id in ids || id in todo
        invariant Sorted(grants, ids)
      {
        var id :| id in todo;
        todo := todo - {id};
        if G.Eligible(grants[id], q, now) {
          var k := 0;
          while k < |ids| && !G.NotAfter(grants[id], grants[ids[k]])
            invariant 0 <= k <= |ids|
            invariant forall j :: 0 <= j < k ==> G.NotAfter(grants[ids[j]], grants[id])
          {
            EitherFirst(grants[id], grants[ids[k]]);
            k := k + 1;
          }
          InsertSorted(grants, ids, k, id);
          ids := ids[..k] + [id] + ids[k..];
        }
      }
      InOrder(grants, q, now, ids);
    }

    method Consume(q: G.Query, clock: Clock) returns (used: Option<Id>, ghost ids: seq<Id>)
      requires Valid()
      modifies this`grants
      ensures Valid()
      ensures G.OthersRetired(old(grants), grants, q.namespace, clock(0))
      ensures used.None? ==> forall id :: id in old(grants) && Suits(old(grants)[id], q) ==>
                exists i :: 0 <= i < 2 + |ids| && old(grants)[id].expiresAt <= clock(i)
      ensures used.Some? ==>
                && used.value in old(grants) && Suits(old(grants)[used.value], q)
                && clock(0) < old(grants)[used.value].expiresAt && clock(1) < old(grants)[used.value].expiresAt
                && used.value in grants && grants[used.value].usedCount == old(grants)[used.value].usedCount + 1
      ensures grants.Keys == old(grants).Keys
      ensures forall id :: id in grants && used != Some(id) ==>
                grants[id] == if old(grants)[id].status.Active? && old(grants)[id].expiresAt <= clock(0)
                              then old(grants)[id].(status := G.Expired) else old(grants)[id]
      ensures var t := G.Expire(old(grants), clock(0));
              && G.Answers(t, q, clock(1), ids)
              && var k := G.FirstSpendable(t, ids, Ticks(clock, |ids|));
                 if k < |ids| then used == Some(ids[k]) && grants == G.Charge(t, ids[k])
                 else used == None && grants == t
    {
      hide GrantsOk, PlansOk, G.Expire, G.Answers, G.OthersRetired, G.FirstSpendable, G.Charge, Suits;
      ghost var before := grants;
      GrantsOkAfterExpiry(before, clock(0));
      grants := G.Expire(grants, clock(0));
      var candidates := SelectCandidates(q, clock(1));
      ids := candidates;
      Candidates(before, q, clock(0), clock(1), ids);
      used := SpendFirst(candidates, clock);
      Consumed(before, q, clock, ids, used, grants);
    }

    /** The conditional updates, one candidate after another at its own clock reading. */
    method SpendFirst(ids: seq<Id>, clock: Clock) returns (used: Option<Id>)
      requires Valid() && forall i :: 0 <= i < |ids| ==> ids[i] in grants
      modifies this`grants
      ensures Valid()
      ensures var k := G.FirstSpendable(old(grants), ids, Ticks(clock, |ids|));
              if k < |ids| then used == Some(ids[k]) && grants == G.Charge(old(grants), ids[k])
              else used == None && grants == old(grants)
    {
      hide GrantsOk, PlansOk, G.Spendable;
      ghost var t := grants;
      ghost var ticks := Ticks(clock, |ids|);
      for i := 0 to |ids|
        invariant grants == t && ticks == Ticks(clock, |ids|)
        invariant forall j :: 0 <= j < i ==> !G.Spendable(t[ids[j]], ticks[j])
      {
        if G.Spendable(grants[ids[i]], clock(2 + i)) {
          FirstIs(t, ids, ticks, i);
          GrantsOkAfterCharge(t, ids[i], clock(2 + i));
          grants := grants[ids[i] := G.Spend(grants[ids[i]])];
          return Some(ids[i]);
        }
      }
      NoneIs(t, ids, ticks);
      used := None;
    }

    method Revoke(id: Id) returns (ok: bool)
      requires Valid()
      modifies this`grants
      ensures Valid() && grants == G.Revoke(old(grants), id)
      ensures ok <==> id in old(grants) && old(grants)[id].status.Active?
      ensures grants == if ok then old(grants)[id := old(grants)[id].(status := G.Revoked)] else old(grants)
    {
      ok := id in grants && grants[id].status.Active?;
      if ok { grants := grants[id := grants[id].(status := G.Revoked)]; }
    }

    method CleanGrants(now: Time)
      requires Valid()
      modifies this`grants
      ensures Valid() && grants == G.Cleanup(G.Expire(old(grants), now))
      ensures forall id :: id in grants <==>
                id in old(grants) && old(grants)[id].status.Active? && now < old(grants)[id].expiresAt
      ensures forall id :: id in grants ==> grants[id] == old(grants)[id]
    {
      hide PlansOk, GrantsOk, G.Expire, G.Cleanup;
      GrantsOkAfterExpiry(grants, now);
      LastingGrants(grants, now);
      grants := G.Expire(grants, now);
      DeleteInactive();
    }

    method DeleteInactive()
      requires Valid()
      modifies this`grants
      ensures Valid() && grants == G.Cleanup(old(grants))
    {
      hide PlansOk, GrantsOk;
      ghost var t := grants;
      GrantsOkAfterCleanup(t);
      var todo := grants.Keys;
      while todo != {}
        invariant todo <= grants.Keys <= t.Keys
        invariant forall id :: id in t ==> (id in grants <==> id in todo || t[id].status.Active?)
        invariant forall id :: id in grants ==> grants[id] == t[id]
      {
        var id :| id in todo;
        todo := todo - {id};
        if !grants[id].status.Active? { grants := grants - {id}; }
      }
      assert grants == G.Cleanup(t);
    }

    // ---- Plans ----

    method ProposePlan(id: Id, profile: string, planTask: string, actions: seq<Request>, ttl: nat, maxTtl: nat,
        namespace: Option<string>, now: Time, files: Files)
      returns (r: Result<P.Row, Error>)
      requires Valid() && id !in plans
      modifies this`plans
      ensures Valid()
      ensures P.NewRow(profile, planTask, actions, ttl, maxTtl, now, files, namespace) == if r.Ok? then Some(r.value)
              else None
      ensures plans == if r.Ok? then old(plans)[id := r.value] else old(plans)
      ensures r.Ok? <==>
                && !Blank(planTask) && actions != [] && PlanHash(actions, files).Some?
                && forall i :: 0 <= i < |actions| ==>
                     && (actions[i].Exec? || actions[i].Read? || actions[i].Write? || actions[i].Upload?
                         || actions[i].Download?)
                     && actions[i].profile == profile
      ensures r.Ok? ==>
                && r.value.status.Pending? && r.value.nextIndex == 0 && r.value.claimedIndex.None?
                && r.value.profile == profile && r.value.taskId == planTask && r.value.actions == actions
                && Some(r.value.hash) == PlanHash(actions, files) && r.value.namespace == namespace
                && r.value.createdAt == now && r.value.expiresAt <= now + ttl && r.value.expiresAt <= now + maxTtl
                && (r.value.expiresAt == now + ttl || r.value.expiresAt == now + maxTtl)
    {
      if Blank(planTask) || actions == [] { return Err(Approval("plan requires a task and at least one action")); }
      for i := 0 to |actions|
        invariant forall j :: 0 <= j < i ==> Plannable(actions[j]) && actions[j].profile == profile
      {
        if !Plannable(actions[i])
          || actions[i].profile != profile { return Err(Approval("all plan actions must use the plan profile")); }
      }
      var hash := PlanHash(actions, files);
      if hash.None? { return Err(Approval("upload source cannot be read")); }
      var row :=
        P.Row(profile, planTask, actions, hash.value, now, now + (if ttl < maxTtl then ttl else maxTtl), P.Pending, 0,
          None, None, namespace);
      plans := plans[id := row];
      r := Ok(row);
    }

    method ExpirePlans(now: Time)
      requires Valid()
      modifies this`plans
      ensures Valid() && plans == P.ExpireOpen(P.FailOverdue(old(plans), now), now)
      ensures plans.Keys == old(plans).Keys && forall id :: id in plans ==>
                var row := old(plans)[id];
                plans[id] ==
                  if row.status.Executing? && row.claimExpiresAt.Some? && row.claimExpiresAt.value <= now
                    then row.(status := P.Failed, claimedIndex := None, claimExpiresAt := None)
                  else if (row.status.Pending? || row.status.Approved?) && row.expiresAt <= now
                    then row.(status := P.Expired)
                  else row
    {
      hide P.FailOverdue, P.ExpireOpen, PlansOk;
      SweptRows(plans, now);
      plans := P.FailOverdue(plans, now);
      plans := P.ExpireOpen(plans, now);
    }

    method ApprovePlan(id: Id, clock: Clock) returns (ok: bool)
      requires Valid()
      modifies this`plans
      ensures Valid()
      ensures var t := P.ExpireOpen(P.FailOverdue(old(plans), clock(0)), clock(0));
              && plans == P.Approve(t, id, clock(1))
              && (ok <==> id in t && t[id].status.Pending? && clock(1) < t[id].expiresAt)
              && plans == if ok then t[id := t[id].(status := P.Approved)] else t
    {
      ExpirePlans(clock(0));
      ok := P.Approvable(plans, id, clock(1));
      if ok { plans := plans[id := plans[id].(status := P.Approved)]; }
    }

    method RejectPlan(id: Id) returns (ok: bool)
      requires Valid()
      modifies this`plans
      ensures Valid() && plans == P.Reject(old(plans), id)
      ensures ok <==> id in old(plans) && old(plans)[id].status.Pending?
      ensures plans == if ok then old(plans)[id := old(plans)[id].(status := P.Rejected)] else old(plans)
    {
      ok := P.Rejectable(plans, id);
      if ok { plans := plans[id := plans[id].(status := P.Rejected)]; }
    }

    method SelectNewest(q: P.Query, now: Time) returns (pick: Option<Id>)
      ensures P.Newest(plans, q, now, pick)
      ensures pick.Some? ==> pick.value in plans && InForce(plans[pick.value], q, now)
      ensures forall id :: id in plans && InForce(plans[id], q, now) ==>
                pick.Some? && plans[id].createdAt <= plans[pick.value].createdAt
    {
      pick := None;
      var todo := plans.Keys;
      while todo != {}
        invariant todo <= plans.Keys
        invariant pick.Some? ==> pick.value in plans && P.Live(plans[pick.value], q, now)
        invariant forall id :: id in plans && id !in todo && P.Live(plans[id], q, now) ==>
                  pick.Some? && plans[id].createdAt <= plans[pick.value].createdAt
      {
        var id :| id in todo;
        todo := todo - {id};
        if P.Live(plans[id], q, now)
          && (pick.None? || plans[pick.value].createdAt < plans[id].createdAt) { pick := Some(id); }
      }
    }

    method ClaimPlanAction(profile: string, taskId: Option<string>, namespace: Option<string>, request: Request,
        files: Files, clock: Clock)
      returns (r: P.ClaimResult, ghost pick: Option<Id>)
      requires Valid()
      modifies this`plans
      ensures Valid()
      ensures taskId.None? ==> r.NoPlan? && plans == old(plans)
      ensures taskId.Some? ==>
                var t := P.ExpireOpen(P.FailOverdue(old(plans), clock(0)), clock(0));
                && (forall id :: id in t && t[id].profile == profile && Some(t[id].taskId) == taskId
                                 && t[id].namespace == namespace && (t[id].status.Approved? || t[id].status.Executing?)
                                 && clock(1) < t[id].expiresAt ==>
                                   && !r.NoPlan? && pick.Some? && pick.value in t
                                   && t[id].createdAt <= t[pick.value].createdAt)
                && (!r.NoPlan? ==>
                      && pick.Some? && pick.value in t && t[pick.value].profile == profile
                      && Some(t[pick.value].taskId) == taskId && t[pick.value].namespace == namespace
                      && (t[pick.value].status.Approved? || t[pick.value].status.Executing?)
                      && clock(1) < t[pick.value].expiresAt
                      && (t[pick.value].claimedIndex.Some? ==> r.Refused?)
                      && (r.Claimed? <==>
                            && t[pick.value].claimedIndex.None?
                            && PlanHash(t[pick.value].actions, files) == Some(t[pick.value].hash)
                            && t[pick.value].nextIndex < |t[pick.value].actions|
                            && request == t[pick.value].actions[t[pick.value].nextIndex]))
      ensures taskId.Some? ==> P.OthersRetired(old(plans), plans, namespace, clock(0))
      ensures taskId.Some? ==>
                var t := P.ExpireOpen(P.FailOverdue(old(plans), clock(0)), clock(0));
                && P.Newest(t, P.Query(profile, taskId.value, namespace), clock(1), pick)
                && r == P.Claim(t, pick, request, files) && (r.Claimed? ==> pick == Some(r.id))
                && plans == if r.Claimed?
                   then P.MarkClaimed(t, r.id, r.index, A.SaturatingAdd(clock(2), P.LeaseSeconds(request))) else t
    {
      hide GrantsOk, PlansOk, P.ExpireOpen, P.FailOverdue, P.Newest, P.Claim, P.LeaseSeconds, P.OthersRetired;
      pick := None;
      if taskId.None? { return P.NoPlan, None; }
      ghost var before := plans;
      PlansOfOthers(before, namespace, clock(0));
      ExpirePlans(clock(0));
      var found := SelectNewest(P.Query(profile, taskId.value, namespace), clock(1));
      pick := found;
      if found.Some? { Picked(plans, P.Query(profile, taskId.value, namespace), clock(1), found.value); }
      r := CheckClaim(found, request, files);
      if r.Claimed? {
        P.ClaimedNext(plans, found.value, request, files);
        var row := plans[r.id];
        var leaseUntil := A.SaturatingAdd(clock(2), P.LeaseSeconds(request));
        PlansOkAfterClaim(plans, r.id, leaseUntil);
        SweptNamespaces(before, clock(0));
        ClaimOfOthers(before, plans, namespace, clock(0), r.id, r.index, leaseUntil);
        plans :=
          plans[r.id := row.(status := P.Executing, claimedIndex := Some(r.index), claimExpiresAt := Some(leaseUntil))];
      }
    }

    /** The checks between the claiming transaction's SELECT and its UPDATE. */
    method CheckClaim(found: Option<Id>, request: Request, files: Files) returns (r: P.ClaimResult)
      requires found.Some? ==> found.value in plans
      ensures r == P.Claim(plans, found, request, files) && (r.NoPlan? <==> found.None?)
      ensures r.Claimed? <==>
              && found.Some? && plans[found.value].claimedIndex.None?
              && PlanHash(plans[found.value].actions, files) == Some(plans[found.value].hash)
              && plans[found.value].nextIndex < |plans[found.value].actions|
              && request == plans[found.value].actions[plans[found.value].nextIndex]
      ensures r.Claimed? ==> found == Some(r.id) && r.index == plans[r.id].nextIndex
    {
      if found.Some? { P.ClaimExact(plans, found.value, request, files); }
      if found.None? { return P.NoPlan; }
      var row := plans[found.value];
      if row.claimedIndex.Some? { return P.Refused(P.ALREADY_EXECUTING); }
      if PlanHash(row.actions, files) != Some(row.hash) { return P.Refused(P.HASH_MISMATCH); }
      if row.nextIndex >= |row.actions| { return P.Refused(P.NO_NEXT_ACTION); }
      var expected := RequestHash(row.actions[row.nextIndex], files);
      if expected.None? || RequestHash(request, files) != expected { return P.Refused(P.NOT_NEXT); }
      r := P.Claimed(found.value, row.nextIndex);
    }

    method FinishPlanAction(id: Id, index: nat, success: bool) returns (ok: bool)
      requires Valid()
      modifies this`plans
      ensures Valid() && plans == P.Finish(old(plans), id, index, success)
              && (ok <==> P.LeaseHeld(old(plans), id, index))
    {
      if id !in plans { return false; }
      var row := plans[id];
      assert P.RowOk(row);
      ok := row.status.Executing? && row.claimedIndex == Some(index);
      if ok {
        if success {
          var status := if index + 1 >= |row.actions| then P.Completed else P.Approved;
          plans :=
            plans[id :=
              row.(nextIndex := row.nextIndex + 1, claimedIndex := None, claimExpiresAt := None, status := status)];
        } else {
          plans := plans[id := row.(status := P.Failed, claimedIndex := None, claimExpiresAt := None)];
        }
      }
    }
  }

  /** Sweeping, and then charging any candidate, leaves the other namespaces as `consume` promises. */
  lemma Candidates(before: G.Table, q: G.Query, swept: Time, now: Time, ids: seq<Id>)
    requires G.Answers(G.Expire(before, swept), q, now, ids)
    ensures G.OthersRetired(before, G.Expire(before, swept), q.namespace, swept)
    ensures forall i :: 0 <= i < |ids| ==>
              ids[i] in G.Expire(before, swept) &&
              G.OthersRetired(before, G.Charge(G.Expire(before, swept), ids[i]), q.namespace, swept)
  {
  }

  /** The same for both sweeps of the plans and a claim of a live one. */
  lemma PlansOfOthers(before: P.Table, namespace: Option<string>, now: Time)
    ensures P.OthersRetired(before, P.ExpireOpen(P.FailOverdue(before, now), now), namespace, now)
  {
  }

  lemma ClaimOfOthers(before: P.Table, t: P.Table, namespace: Option<string>, now: Time, id: Id, index: nat,
      leaseUntil: Time)
    requires P.OthersRetired(before, t, namespace, now) && id in t && t[id].namespace == namespace && id in before
             && before[id].namespace == namespace
    ensures P.OthersRetired(before, P.MarkClaimed(t, id, index, leaseUntil), namespace, now)
  {
  }

  lemma SweptRows(before: P.Table, now: Time)
    requires PlansOk(before)
    ensures var t := P.ExpireOpen(P.FailOverdue(before, now), now);
            PlansOk(t) && t.Keys == before.Keys && forall id :: id in t ==>
              var row := before[id];
              t[id] ==
                if row.status.Executing? && row.claimExpiresAt.Some? && row.claimExpiresAt.value <= now
                  then row.(status := P.Failed, claimedIndex := None, claimExpiresAt := None)
                else if (row.status.Pending? || row.status.Approved?) && row.expiresAt <= now
                  then row.(status := P.Expired)
                else row
  {
  }

  lemma SweptNamespaces(before: P.Table, now: Time)
    ensures var t := P.ExpireOpen(P.FailOverdue(before, now), now);
            t.Keys == before.Keys && forall id :: id in t ==> t[id].namespace == before[id].namespace
  {
  }

  lemma Picked(t: P.Table, q: P.Query, now: Time, id: Id)
    requires P.Newest(t, q, now, Some(id))
    ensures id in t && t[id].namespace == q.namespace && (t[id].status.Approved? || t[id].status.Executing?)
  {
  }

  /** What the candidates are, row by row and pair by pair. */
  lemma InOrder(t: G.Table, q: G.Query, now: Time, ids: seq<Id>)
    requires G.Answers(t, q, now, ids)
    ensures forall id :: id in ids ==> id in t
    ensures forall id :: id in t ==>
              (id in ids <==>
                 && t[id].profile == q.profile && t[id].ruleId == q.ruleId && t[id].namespace == q.namespace
                 && t[id].status.Active? && now < t[id].expiresAt
                 && (t[id].taskId.None? || (q.taskId.Some? && t[id].taskId == q.taskId))
                 && (t[id].maxUses.None? || t[id].usedCount < t[id].maxUses.value))
    ensures forall i, j :: 0 <= i < j < |ids| ==>
              (t[ids[i]].taskId.Some? && t[ids[j]].taskId.None?)
              || (t[ids[i]].taskId.Some? == t[ids[j]].taskId.Some? && t[ids[i]].createdAt >= t[ids[j]].createdAt)
  {
  }

  lemma Lasting(t: A.Table, now: Time)
    ensures A.Expire(t, now).Keys == t.Keys
    ensures forall id :: id in A.Cleanup(A.Expire(t, now)) <==>
              id in t && (t[id].status.Executing? || (t[id].status.Pending? && now < t[id].expiresAt))
    ensures forall id :: id in A.Cleanup(A.Expire(t, now)) ==> A.Cleanup(A.Expire(t, now))[id] == t[id]
  {
  }

  lemma LastingGrants(t: G.Table, now: Time)
    ensures forall id :: id in G.Cleanup(G.Expire(t, now)) <==>
              id in t && t[id].status.Active? && now < t[id].expiresAt
    ensures forall id :: id in G.Cleanup(G.Expire(t, now)) ==> G.Cleanup(G.Expire(t, now))[id] == t[id]
  {
  }

  lemma SameSize(t: A.Table, t': A.Table)
    requires t.Keys == t'.Keys
    ensures |t| == |t'|
  {
    assert |t.Keys| == |t'.Keys|;
  }

  /** What the call has done to the table it found, row by row. */
  lemma Consumed(before: G.Table, q: G.Query, clock: Clock, ids: seq<Id>, used: Option<Id>, after: G.Table)
    requires G.Answers(G.Expire(before, clock(0)), q, clock(1), ids)
    requires forall i :: 0 <= i < |ids| ==> ids[i] in G.Expire(before, clock(0))
    requires var t := G.Expire(before, clock(0));
             var k := G.FirstSpendable(t, ids, Ticks(clock, |ids|));
             if k < |ids| then used == Some(ids[k]) && after == G.Charge(t, ids[k]) else used == None && after == t
    ensures used.None? ==> forall id :: id in before && Suits(before[id], q) ==>
              exists i :: 0 <= i < 2 + |ids| && before[id].expiresAt <= clock(i)
    ensures used.Some? ==>
              && used.value in before && Suits(before[used.value], q) && clock(0) < before[used.value].expiresAt
              && clock(1) < before[used.value].expiresAt
              && used.value in after && after[used.value].usedCount == before[used.value].usedCount + 1
    ensures after.Keys == before.Keys && forall id :: id in after && used != Some(id) ==>
              after[id] == if before[id].status.Active? && before[id].expiresAt <= clock(0)
                           then before[id].(status := G.Expired) else before[id]
  {
    hide G.Answers, G.FirstSpendable, G.Expire, G.Charge, G.Spendable, Suits;
    var t, k := G.Expire(before, clock(0)), G.FirstSpendable(G.Expire(before, clock(0)), ids, Ticks(clock, |ids|));
    ExpiredRows(before, clock(0));
    if k < |ids| {
      ChargedRow(before, q, clock, ids, k);
      ChargedRows(t, ids[k]);
    } else {
      NoneSpendable(t, ids, clock);
      NothingLasting(before, q, clock, ids);
    }
  }

  lemma NoneSpendable(t: G.Table, ids: seq<Id>, clock: Clock)
    requires forall i :: 0 <= i < |ids| ==> ids[i] in t
    requires G.FirstSpendable(t, ids, Ticks(clock, |ids|)) == |ids|
    ensures forall j :: 0 <= j < |ids| ==> !G.Spendable(t[ids[j]], clock(2 + j))
  {
    hide G.Spendable, G.FirstSpendable;
    forall j | 0 <= j < |ids| ensures !G.Spendable(t[ids[j]], clock(2 + j)) {
      assert Ticks(clock, |ids|)[j] == clock(2 + j);
    }
  }

  lemma ExpiredRows(t: G.Table, now: Time)
    ensures G.Expire(t, now).Keys == t.Keys && forall id :: id in t ==>
              G.Expire(t, now)[id] == if t[id].status.Active? && t[id].expiresAt <= now
                                      then t[id].(status := G.Expired) else t[id]
  {
  }

  lemma ChargedRows(t: G.Table, id: Id)
    requires id in t
    ensures var t' := G.Charge(t, id);
            && t'.Keys == t.Keys && t'[id].usedCount == t[id].usedCount + 1
            && forall other :: other in t && other != id ==> t'[other] == t[other]
  {
  }

  lemma ChargedRow(before: G.Table, q: G.Query, clock: Clock, ids: seq<Id>, k: nat)
    requires G.Answers(G.Expire(before, clock(0)), q, clock(1), ids) && k < |ids|
    ensures ids[k] in before && Suits(before[ids[k]], q)
    ensures clock(0) < before[ids[k]].expiresAt && clock(1) < before[ids[k]].expiresAt
  {
  }

  /** Where no candidate can be spent, every row that would do expires before the call is over. */
  lemma NothingLasting(before: G.Table, q: G.Query, clock: Clock, ids: seq<Id>)
    requires G.Answers(G.Expire(before, clock(0)), q, clock(1), ids)
    requires forall j :: 0 <= j < |ids| ==>
               ids[j] in G.Expire(before, clock(0)) && !G.Spendable(G.Expire(before, clock(0))[ids[j]], clock(2 + j))
    ensures forall id :: id in before && Suits(before[id], q) ==>
              exists i :: 0 <= i < 2 + |ids| && before[id].expiresAt <= clock(i)
  {
    hide G.Answers;
    forall id | id in before && Suits(before[id], q)
      ensures exists i :: 0 <= i < 2 + |ids| && before[id].expiresAt <= clock(i)
    {
      if clock(0) < before[id].expiresAt && clock(1) < before[id].expiresAt {
        Selected(before, q, clock, ids, id);
        var j :| 0 <= j < |ids| && ids[j] == id;
        assert before[id].expiresAt <= clock(2 + j);
      }
    }
  }

  lemma Selected(before: G.Table, q: G.Query, clock: Clock, ids: seq<Id>, id: Id)
    requires G.Answers(G.Expire(before, clock(0)), q, clock(1), ids)
    requires id in before && Suits(before[id], q) && clock(0) < before[id].expiresAt && clock(1) < before[id].expiresAt
    ensures id in ids && id in G.Expire(before, clock(0)) && G.Expire(before, clock(0))[id] == before[id]
  {
  }

  lemma EitherFirst(a: G.Row, b: G.Row)
    ensures G.NotAfter(a, b) || G.NotAfter(b, a)
  {
  }

  ghost predicate Sorted(t: G.Table, ids: seq<Id>)
    requires forall i :: 0 <= i < |ids| ==> ids[i] in t
  {
    forall i, j :: 0 <= i < j < |ids| ==> ids[i] != ids[j] && G.NotAfter(t[ids[i]], t[ids[j]])
  }

  lemma InsertSorted(t: G.Table, ids: seq<Id>, k: nat, id: Id)
    requires id in t && id !in ids && k <= |ids| && (forall i :: 0 <= i < |ids| ==> ids[i] in t) && Sorted(t, ids)
    requires forall j :: 0 <= j < k ==> G.NotAfter(t[ids[j]], t[id])
    requires k < |ids| ==> G.NotAfter(t[id], t[ids[k]])
    ensures var longer := ids[..k] + [id] + ids[k..];
            (forall i :: 0 <= i < |longer| ==> longer[i] in t) && Sorted(t, longer) && forall x :: x in longer <==>
              x in ids || x == id
  {
  }

  lemma NoneIs(t: G.Table, ids: seq<Id>, ticks: seq<Time>)
    requires |ids| == |ticks| && (forall i :: 0 <= i < |ids| ==> ids[i] in t)
    requires forall j :: 0 <= j < |ids| ==> !G.Spendable(t[ids[j]], ticks[j])
    ensures G.FirstSpendable(t, ids, ticks) == |ids|
  {
  }

  lemma {:induction false} FirstIs(t: G.Table, ids: seq<Id>, ticks: seq<Time>, k: nat)
    requires k < |ids| == |ticks| && (forall i :: 0 <= i < |ids| ==> ids[i] in t)
    requires (forall j :: 0 <= j < k ==> !G.Spendable(t[ids[j]], ticks[j])) && G.Spendable(t[ids[k]], ticks[k])
    ensures G.FirstSpendable(t, ids, ticks) == k
  {
  }
}
