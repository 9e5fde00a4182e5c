/** The approval_grants table: its rows and the effect of each SQL statement on them. */
module Grants {
  import opened Types
  import opened Config
  import A = Approvals

  datatype Status = Active | Exhausted | Revoked | Expired

  datatype Row = Row(profile: string, ruleId: string, taskId: Option<string>, createdAt: Time, expiresAt: Time,
                     maxUses: Option<nat>, usedCount: nat, status: Status, source: Id, namespace: Option<string>)

  type Table = map<Id, Row>

  /** What a row must satisfy between any two statements. */
  predicate RowOk(r: Row) {
    && (r.maxUses.Some? ==> r.usedCount <= r.maxUses.value)
    && (r.status.Exhausted? <==> r.maxUses.Some? && r.usedCount == r.maxUses.value)
  }

  // ---- Creating a grant from an approval ----

  // What a human asked for when approving, under the configuration the grant service was opened with.
  datatype Wish = Wish(ttl: nat, taskId: Option<string>, maxUses: Option<nat>, cfg: AppConfig) {
    function Limits(): GrantConfig {
      cfg.grants
    }
  }

  datatype Terms = Terms(profile: string, ruleId: string, maxUses: nat)

  function Permitted(limits: GrantConfig, risk: Option<Risk>): Permit {
    if risk == Some(High) then limits.high
    else if risk == Some(Critical) then limits.critical
    else if risk == Some(Medium) then limits.medium
    else limits.low
  }

  function ValidateSource(approvals: A.Table, id: Id, wish: Wish, required: A.Status,
      expectedRule: Option<string>): Result<Terms, Error> {
    if wish.ttl == 0 || wish.ttl > wish.Limits().maxTtl then Err(Approval("grant TTL out of range"))
    else if id !in approvals then Err(Approval("approval not found"))
    else
      var row := approvals[id];
      if row.status != required then Err(Approval("grant requires another approval state"))
      else if row.ruleId.None? then Err(Approval("approval has no matched rule"))
      else if expectedRule.Some? && expectedRule != row.ruleId then Err(Approval("approval rule no longer matches"))
      else
        var permit := Permitted(wish.Limits(), row.risk);
        if wish.taskId.Some? && !permit.task then Err(Approval("risk policy does not permit task grants"))
        else if wish.taskId.None? && !permit.time then Err(Approval("risk policy does not permit time grants"))
        else
          var maxUses := wish.maxUses.GetOr(wish.Limits().defaultMaxUses);
          if maxUses == 0 then Err(Approval("max uses must be greater than zero"))
          else Ok(Terms(row.profile, row.ruleId.value, maxUses))
  }

  /** What a successful validation says about the approval it was made from. */
  predicate TermsOk(terms: Terms, wish: Wish, source: A.Row) {
    && 0 < wish.ttl <= wish.Limits().maxTtl
    && terms.profile == source.profile && Some(terms.ruleId) == source.ruleId
    && terms.maxUses == wish.maxUses.GetOr(wish.Limits().defaultMaxUses) && terms.maxUses > 0
    && (if wish.taskId.Some? then Permitted(wish.Limits(), source.risk).task
       else Permitted(wish.Limits(), source.risk).time)
  }

  lemma ValidationExact(approvals: A.Table, id: Id, wish: Wish, required: A.Status, expectedRule: Option<string>)
    ensures ValidateSource(approvals, id, wish, required, expectedRule).Ok? <==>
            id in approvals && approvals[id].status == required && approvals[id].ruleId.Some?
            && (expectedRule.None? || expectedRule == approvals[id].ruleId)
            && 0 < wish.ttl <= wish.cfg.grants.maxTtl
            && (if wish.maxUses.Some? then wish.maxUses.value > 0 else wish.cfg.grants.defaultMaxUses > 0)
            && (approvals[id].risk == Some(Critical) ==>
                  if wish.taskId.Some? then wish.cfg.grants.critical.task else wish.cfg.grants.critical.time)
            && (approvals[id].risk == Some(High) ==>
                  if wish.taskId.Some? then wish.cfg.grants.high.task else wish.cfg.grants.high.time)
            && (approvals[id].risk == Some(Medium) ==>
                  if wish.taskId.Some? then wish.cfg.grants.medium.task else wish.cfg.grants.medium.time)
            && (approvals[id].risk == Some(Low) || approvals[id].risk.None? ==>
                  if wish.taskId.Some? then wish.cfg.grants.low.task else wish.cfg.grants.low.time)
    ensures var r := ValidateSource(approvals, id, wish, required, expectedRule);
            r.Ok? ==> TermsOk(r.value, wish, approvals[id])
  {
    if id in approvals {
      match approvals[id].risk
      case Some(Low) =>
      case Some(Medium) =>
      case Some(High) =>
      case Some(Critical) =>
      case None =>
    }
  }

  function NewRow(terms: Terms, wish: Wish, source: Id, namespace: Option<string>, now: Time): Row {
    Row(terms.profile, terms.ruleId, wish.taskId, now, now + wish.ttl, Some(terms.maxUses), 0, Active, source,
      namespace)
  }

  /** The unique index on created_from_approval_id. */
  predicate SourceFree(t: Table, source: Id) {
    forall id :: id in t ==> t[id].source != source
  }

  // ---- Consuming ----

  datatype Query = Query(profile: string, ruleId: string, taskId: Option<string>, namespace: Option<string>)

  predicate UsesLeft(r: Row) {
    r.maxUses.None? || r.usedCount < r.maxUses.value
  }

  /** The SELECT's WHERE clause. An absent task never equals anything in SQL. */
  predicate Eligible(r: Row, q: Query, now: Time) {
    && r.profile == q.profile && r.ruleId == q.ruleId && r.namespace == q.namespace
    && r.status.Active? && r.expiresAt > now
    && (r.taskId.None? || (q.taskId.Some? && r.taskId == q.taskId))
    && UsesLeft(r)
  }

  /** The SELECT's ORDER BY: task-scoped before time-scoped, then newest first; ties in any order. */
  predicate NotAfter(a: Row, b: Row) {
    if a.taskId.None? != b.taskId.None? then b.taskId.None? else a.createdAt >= b.createdAt
  }

  ghost predicate Answers(t: Table, q: Query, now: Time, ids: seq<Id>) {
    && (forall i :: 0 <= i < |ids| ==> ids[i] in t && Eligible(t[ids[i]], q, now))
    && (forall id :: id in t && Eligible(t[id], q, now) ==> id in ids)
    && (forall i, j :: 0 <= i < j < |ids| ==> ids[i] != ids[j] && NotAfter(t[ids[i]], t[ids[j]]))
  }

  /** The conditional UPDATE of one candidate at its own clock reading. */
  predicate Spendable(r: Row, now: Time) {
    r.status.Active? && r.expiresAt > now && UsesLeft(r)
  }

  function Spend(r: Row): Row {
    r.(usedCount := r.usedCount + 1,
       status := if r.maxUses.Some? && r.usedCount + 1 >= r.maxUses.value then Exhausted else r.status)
  }

  /** Index of the first candidate still spendable when its turn comes, or the number of candidates. */
  function FirstSpendable(t: Table, ids: seq<Id>, ticks: seq<Time>): (k: nat)
    requires |ticks| == |ids| && forall i :: 0 <= i < |ids| ==> ids[i] in t
    ensures k <= |ids|
    ensures forall i :: 0 <= i < k ==> !Spendable(t[ids[i]], ticks[i])
    ensures k < |ids| ==> Spendable(t[ids[k]], ticks[k])
  {
    if ids == [] then 0
    else if Spendable(t[ids[0]], ticks[0]) then 0
    else 1 + FirstSpendable(t, ids[1..], ticks[1..])
  }

  function Charge(t: Table, id: Id): Table
    requires id in t
  {
    t[id := Spend(t[id])]
  }

  // ---- Expiry, revocation, cleanup ----

  predicate Due(r: Row, now: Time) {
    r.status.Active? && r.expiresAt <= now
  }

  function Expire(t: Table, now: Time): Table {
    map id | id in t :: if Due(t[id], now) then t[id].(status := Expired) else t[id]
  }

  /** The rows of other namespaces are as they were, but for those retired because they were due. */
  ghost predicate OthersRetired(t: Table, t': Table, namespace: Option<string>, now: Time) {
    t'.Keys == t.Keys && forall id :: id in t && t[id].namespace != namespace ==>
      t'[id] == if Due(t[id], now) then t[id].(status := Expired) else t[id]
  }

  /** A sweep never decides what is eligible or spendable at a later clock reading. */
  lemma SweepDecidesNothing(t: Table, swept: Time, q: Query, now: Time, ids: seq<Id>)
    requires swept <= now
    ensures Answers(Expire(t, swept), q, now, ids) <==> Answers(t, q, now, ids)
    ensures forall id :: id in t ==> (Spendable(Expire(t, swept)[id], now) <==> Spendable(t[id], now))
  {
    var t' := Expire(t, swept);
    assert forall id :: id in t ==> (Eligible(t'[id], q, now) <==> Eligible(t[id], q, now));
    assert forall id, other :: id in t && other in t ==> (NotAfter(t'[id], t'[other]) <==> NotAfter(t[id], t[other]));
  }

  function Revoke(t: Table, id: Id): Table {
    if id in t && t[id].status.Active? then t[id := t[id].(status := Revoked)] else t
  }

  function Cleanup(t: Table): Table {
    map id | id in t && t[id].status.Active? :: t[id]
  }

  // ---- Isolation between namespaces ----

  ghost predicate SameNamespace(t: Table, u: Table, namespace: Option<string>) {
    && (forall id :: id in t && t[id].namespace == namespace ==> id in u && u[id] == t[id])
    && (forall id :: id in u && u[id].namespace == namespace ==> id in t && t[id] == u[id])
  }

  /** Two databases that agree on a namespace give its queries the same answers. */
  lemma AnswersDependOnNamespaceOnly(t: Table, u: Table, q: Query, now: Time, ids: seq<Id>)
    requires SameNamespace(t, u, q.namespace)
    ensures Answers(t, q, now, ids) <==> Answers(u, q, now, ids)
  {
  }

  /** ... and the same charge, which touches no other namespace. */
  lemma {:induction false} ChargeDependsOnNamespaceOnly(t: Table, u: Table, q: Query, now: Time, ids: seq<Id>,
      ticks: seq<Time>)
    requires SameNamespace(t, u, q.namespace) && Answers(t, q, now, ids) && |ticks| == |ids|
    ensures Answers(u, q, now, ids)
    ensures FirstSpendable(t, ids, ticks) == FirstSpendable(u, ids, ticks)
    ensures var k := FirstSpendable(t, ids, ticks);
            k < |ids| ==>
              && SameNamespace(Charge(t, ids[k]), Charge(u, ids[k]), q.namespace)
              && forall id :: id in t && t[id].namespace != q.namespace ==>
                 id in Charge(t, ids[k]) && Charge(t, ids[k])[id] == t[id]
  {
    SameFirst(t, u, ids, ticks);
  }

  lemma {:induction false} SameFirst(t: Table, u: Table, ids: seq<Id>, ticks: seq<Time>)
    requires |ticks| == |ids|
    requires forall i :: 0 <= i < |ids| ==> ids[i] in t && ids[i] in u && t[ids[i]] == u[ids[i]]
    ensures FirstSpendable(t, ids, ticks) == FirstSpendable(u, ids, ticks)
  {
    if ids != [] {
      SameFirst(t, u, ids[1..], ticks[1..]);
    }
  }

  /**
   * With one clock reading, `consume` finds nothing exactly when nothing is eligible, and otherwise takes the best row:
   * one for the task before one for any, and the newer before the older.
   */
  lemma ConsumeTakesBest(t: Table, q: Query, now: Time, ids: seq<Id>, ticks: seq<Time>)
    requires Answers(t, q, now, ids) && |ticks| == |ids| && forall i :: 0 <= i < |ticks| ==> ticks[i] == now
    ensures FirstSpendable(t, ids, ticks) == |ids| <==> forall id :: id in t ==> !Eligible(t[id], q, now)
    ensures var k := FirstSpendable(t, ids, ticks);
            k < |ids| ==> k == 0 && forall id :: id in t && Eligible(t[id], q, now) ==>
              (t[ids[0]].taskId.Some? && t[id].taskId.None?)
                || (t[ids[0]].taskId.Some? == t[id].taskId.Some? && t[ids[0]].createdAt >= t[id].createdAt)
  {
    if ids != [] {
      assert Eligible(t[ids[0]], q, now);
      forall id | id in t && Eligible(t[id], q, now) ensures NotAfter(t[ids[0]], t[id]) {
        var i :| 0 <= i < |ids| && ids[i] == id;
      }
    } else {
      forall id | id in t ensures !Eligible(t[id], q, now) {
        assert id !in ids;
      }
    }
  }
}
