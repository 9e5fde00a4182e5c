/** The execution_plans table: its rows and the effect of each SQL statement on them. */
module Plans {
  import opened Types
  import opened Config
  import A = Approvals

  datatype Status = Pending | Approved | Executing | Completed | Failed | Rejected | Expired

  datatype Row = Row(profile: string, taskId: string, actions: seq<Request>, hash: seq<Digest>, createdAt: Time,
                     expiresAt: Time, status: Status, nextIndex: nat, claimedIndex: Option<nat>,
                     claimExpiresAt: Option<Time>, namespace: Option<string>)

  type Table = map<Id, Row>

  /** What a row must satisfy between any two statements. */
  predicate RowOk(r: Row) {
    && r.actions != [] && r.nextIndex <= |r.actions|
    && (r.status.Executing? <==> r.claimedIndex.Some?) && (r.claimedIndex.Some? <==> r.claimExpiresAt.Some?)
    && (r.claimedIndex.Some? ==> r.claimedIndex.value == r.nextIndex)
    && (r.status.Completed? <==> r.nextIndex == |r.actions|)
    && (r.status.Pending? || r.status.Rejected? ==> r.nextIndex == 0)
  }

  const LEASE: nat := 300
  const MAX_LEASE: nat := 3660

  function LeaseSeconds(request: Request): (n: nat)
    ensures LEASE <= n <= MAX_LEASE
  {
    if request.Exec? then
      var n := A.SaturatingAdd(request.timeoutSeconds.GetOr(LEASE), 60);
      if n < LEASE then LEASE else if n > MAX_LEASE then MAX_LEASE else n
    else LEASE
  }

  /** The row `propose_plan` inserts; None when the proposal is refused. */
  function NewRow(profile: string, taskId: string, actions: seq<Request>, ttl: nat, maxTtl: nat, now: Time,
      files: Files, namespace: Option<string>): Option<Row> {
    var hash := PlanHash(actions, files);
    if Blank(taskId) || actions == []
      || (exists i :: 0 <= i < |actions| && (!Plannable(actions[i]) || actions[i].profile != profile))
      || hash.None? then None
    else Some(Row(profile, taskId, actions, hash.value, now, now + (if ttl < maxTtl then ttl else maxTtl), Pending, 0,
      None, None, namespace))
  }

  // ---- The human's decision ----

  predicate Approvable(t: Table, id: Id, now: Time) {
    id in t && t[id].status.Pending? && t[id].expiresAt > now
  }

  function Approve(t: Table, id: Id, now: Time): Table {
    if Approvable(t, id, now) then t[id := t[id].(status := Approved)] else t
  }

  predicate Rejectable(t: Table, id: Id) {
    id in t && t[id].status.Pending?
  }

  function Reject(t: Table, id: Id): Table {
    if Rejectable(t, id) then t[id := t[id].(status := Rejected)] else t
  }

  // ---- Claiming the next action ----

  datatype Query = Query(profile: string, taskId: string, namespace: Option<string>)

  predicate Live(r: Row, q: Query, now: Time) {
    && r.profile == q.profile && r.taskId == q.taskId && r.namespace == q.namespace
    && (r.status.Approved? || r.status.Executing?) && r.expiresAt > now
  }

  /** The SELECT ... ORDER BY created_at DESC LIMIT 1; among equals any row may come first. */
  ghost predicate Newest(t: Table, q: Query, now: Time, pick: Option<Id>) {
    match pick
    case None => forall id :: id in t ==> !Live(t[id], q, now)
    case Some(id) => id in t && Live(t[id], q, now) && forall other :: other in t && Live(t[other], q, now) ==>
      t[other].createdAt <= t[id].createdAt
  }

  datatype ClaimResult = NoPlan | Refused(error: Error) | Claimed(id: Id, index: nat)

  const ALREADY_EXECUTING := Approval("plan action is already executing")
  const HASH_MISMATCH := Approval("approved plan content hash mismatch")
  const NO_NEXT_ACTION := Approval("plan has no next action")
  const NOT_NEXT := PolicyDenied("request does not match the next approved plan action")

  /** The outcome of the claiming transaction once its SELECT picked a row. */
  function Claim(t: Table, pick: Option<Id>, request: Request, files: Files): ClaimResult
    requires pick.Some? ==> pick.value in t
  {
    if pick.None? then NoPlan
    else
      var r := t[pick.value];
      if r.claimedIndex.Some? then Refused(ALREADY_EXECUTING)
      else if PlanHash(r.actions, files) != Some(r.hash) then Refused(HASH_MISMATCH)
      else if r.nextIndex >= |r.actions| then Refused(NO_NEXT_ACTION)
      else
        var expected := RequestHash(r.actions[r.nextIndex], files);
        if expected.None? || RequestHash(request, files) != expected then Refused(NOT_NEXT)
        else Claimed(pick.value, r.nextIndex)
  }

  function MarkClaimed(t: Table, id: Id, index: nat, leaseUntil: Time): Table
    requires id in t
  {
    t[id := t[id].(status := Executing, claimedIndex := Some(index), claimExpiresAt := Some(leaseUntil))]
  }

  // ---- Finishing a claimed action ----

  predicate LeaseHeld(t: Table, id: Id, index: nat) {
    id in t && t[id].status.Executing? && t[id].claimedIndex == Some(index)
  }

  function Finish(t: Table, id: Id, index: nat, success: bool): Table {
    if !LeaseHeld(t, id, index) then t
    else if success then
      t[id := t[id].(nextIndex := t[id].nextIndex + 1, claimedIndex := None, claimExpiresAt := None,
                     status := if index + 1 >= |t[id].actions| then Completed else Approved)]
    else t[id := t[id].(status := Failed, claimedIndex := None, claimExpiresAt := None)]
  }

  // ---- The two sweeps of expire_plans ----

  predicate Overdue(r: Row, now: Time) {
    r.status.Executing? && r.claimExpiresAt.Some? && r.claimExpiresAt.value <= now
  }

  function FailOverdue(t: Table, now: Time): Table {
    map id | id in t :: if Overdue(t[id], now)
      then t[id].(status := Failed, claimedIndex := None, claimExpiresAt := None) else t[id]
  }

  predicate Outdated(r: Row, now: Time) {
    (r.status.Pending? || r.status.Approved?) && r.expiresAt <= now
  }

  function ExpireOpen(t: Table, now: Time): Table {
    map id | id in t :: if Outdated(t[id], now) then t[id].(status := Expired) else t[id]
  }

  /** The rows of other namespaces are as they were, but for those failed or retired because they were due. */
  ghost predicate OthersRetired(t: Table, t': Table, namespace: Option<string>, now: Time) {
    t'.Keys == t.Keys && forall id :: id in t && t[id].namespace != namespace ==>
      t'[id] == if Overdue(t[id], now) then t[id].(status := Failed, claimedIndex := None, claimExpiresAt := None)
        else if Outdated(t[id], now) then t[id].(status := Expired) else t[id]
  }

  /**
   * After both sweeps every plan still executing is within its lease, and retiring open plans changes no later answer.
   */
  lemma SweptPlans(t: Table, now: Time, q: Query, later: Time, pick: Option<Id>)
    requires now <= later && forall id :: id in t ==> RowOk(t[id])
    ensures var t' := ExpireOpen(FailOverdue(t, now), now);
            forall id :: id in t' && t'[id].status.Executing? ==>
              t'[id].claimExpiresAt.Some? && t'[id].claimExpiresAt.value > now
    ensures Newest(ExpireOpen(t, now), q, later, pick) <==> Newest(t, q, later, pick)
  {
    var t' := ExpireOpen(t, now);
    assert forall id :: id in t ==> (Live(t'[id], q, later) <==> Live(t[id], q, later));
    assert forall id :: id in t ==> t'[id].createdAt == t[id].createdAt;
  }

  /** How long a command may run: its own timeout or else its profile's, where zero means without end. */
  function Bound(request: Request, execSeconds: nat): Option<nat> {
    var seconds := if request.Exec? then request.timeoutSeconds.GetOr(execSeconds) else execSeconds;
    if seconds == 0 then None else Some(seconds)
  }

  /** The lease outlasts the command by the minute that is added for it. */
  predicate LeaseCovers(request: Request, execSeconds: nat) {
    var bound := Bound(request, execSeconds);
    bound.Some? && LeaseSeconds(request) >= bound.value + 60
  }

  /**
   * A lease covers its command exactly when the request names a timeout of at most an hour, or names none and
   * the profile's is at most five minutes; zero is never covered. Any other command can be failed by the
   * sweep while it still runs.
   */
  lemma LeaseCoversCommand(request: Request, execSeconds: nat)
    requires request.Exec?
    ensures LeaseCovers(request, execSeconds) <==>
            match request.timeoutSeconds
            case Some(t) => 0 < t <= 3600
            case None => 0 < execSeconds <= 300
  {
  }

  /** No end, the profile's default of ten minutes, and a second more than an hour. */
  lemma LeaseFallsShort(command: string)
    ensures var run := timeout => Exec("host", command, None, timeout, []);
            && !LeaseCovers(run(Some(0)), 600) && LeaseSeconds(run(Some(0))) == 300
            && !LeaseCovers(run(None), 600) && LeaseSeconds(run(None)) == 360
            && !LeaseCovers(run(Some(3601)), 600) && LeaseSeconds(run(Some(3601))) == 3660
  {
  }

  // ---- What every claim implies ----

  /** A claim binds the request to the proposed action, down to every uploaded byte of the whole plan. */
  lemma ClaimBindsRequest(t: Table, pick: Option<Id>, request: Request, files: Files, proposedFiles: Files)
    requires pick.Some? ==> pick.value in t
    requires Claim(t, pick, request, files).Claimed?
    requires PlanHash(t[pick.value].actions, proposedFiles) == Some(t[pick.value].hash)
    ensures var r := t[Claim(t, pick, request, files).id];
            && Claim(t, pick, request, files).index == r.nextIndex < |r.actions| && request == r.actions[r.nextIndex]
            && (forall i :: 0 <= i < |r.actions| && r.actions[i].Upload? ==>
                  r.actions[i].src in files && r.actions[i].src in proposedFiles
                  && files[r.actions[i].src] == proposedFiles[r.actions[i].src])
  {
    var r := t[pick.value];
    PlanHashBinds(r.actions, files, r.actions, proposedFiles);
  }

  ghost predicate SameNamespace(t: Table, u: Table, namespace: Option<string>) {
    && (forall id :: id in t && t[id].namespace == namespace ==> id in u && u[id] == t[id])
    && (forall id :: id in u && u[id].namespace == namespace ==> id in t && t[id] == u[id])
  }

  /**
   * Two databases that agree on a namespace give its claims the same outcome and the same change, which
   * touches no other namespace.
   */
  lemma ClaimDependsOnNamespaceOnly(t: Table, u: Table, q: Query, now: Time, pick: Option<Id>, request: Request,
      files: Files, leaseUntil: Time)
    requires SameNamespace(t, u, q.namespace) && Newest(t, q, now, pick)
    ensures Newest(u, q, now, pick) && Claim(t, pick, request, files) == Claim(u, pick, request, files)
    ensures var c := Claim(t, pick, request, files);
            c.Claimed? ==>
              var t' := MarkClaimed(t, c.id, c.index, leaseUntil);
              && SameNamespace(t', MarkClaimed(u, c.id, c.index, leaseUntil), q.namespace)
              && forall id :: id in t && t[id].namespace != q.namespace ==> id in t' && t'[id] == t[id]
  {
  }

  lemma DigestBinds(a: Request, fa: Files, b: Request, fb: Files)
    requires RequestHash(a, fa).Some? && RequestHash(a, fa) == RequestHash(b, fb)
    ensures a == b
  {
  }

  lemma {:induction false} EachHashed(actions: seq<Request>, files: Files, i: nat)
    requires i < |actions| && PlanHash(actions, files).Some?
    ensures RequestHash(actions[i], files).Some?
  {
    if i > 0 { EachHashed(actions[1..], files, i - 1); }
  }

  /** What is claimed, exactly: the next action of a plan whose content is as proposed and which nobody else holds. */
  lemma ClaimExact(t: Table, id: Id, request: Request, files: Files)
    requires id in t
    ensures Claim(t, Some(id), request, files).Claimed? <==>
            && t[id].claimedIndex.None? && PlanHash(t[id].actions, files) == Some(t[id].hash)
            && t[id].nextIndex < |t[id].actions| && request == t[id].actions[t[id].nextIndex]
    ensures !Claim(t, Some(id), request, files).NoPlan?
  {
    var r := t[id];
    if PlanHash(r.actions, files).Some? && r.nextIndex < |r.actions| {
      EachHashed(r.actions, files, r.nextIndex);
      hide PlanHash;
      var expected := r.actions[r.nextIndex];
      if RequestHash(request, files) == RequestHash(expected, files) { DigestBinds(request, files, expected, files); }
    }
  }

  lemma ClaimedNext(t: Table, id: Id, request: Request, files: Files)
    requires id in t && Claim(t, Some(id), request, files).Claimed?
    ensures Claim(t, Some(id), request, files) == Claimed(id, t[id].nextIndex)
    ensures t[id].claimedIndex.None? && t[id].nextIndex < |t[id].actions| && request == t[id].actions[t[id].nextIndex]
  {
    DigestBinds(request, files, t[id].actions[t[id].nextIndex], files);
  }

  /** While a plan is live, the newest one alone decides: its exact next action is claimed or the request is refused. */
  lemma LivePlanDecides(t: Table, q: Query, now: Time, pick: Option<Id>, request: Request, files: Files, live: Id)
    requires Newest(t, q, now, pick) && live in t && t[live].profile == q.profile && t[live].taskId == q.taskId
             && t[live].namespace == q.namespace && (t[live].status.Approved? || t[live].status.Executing?)
             && now < t[live].expiresAt
    ensures pick.Some? && pick.value in t && t[live].createdAt <= t[pick.value].createdAt
            && t[pick.value].taskId == q.taskId && t[pick.value].namespace == q.namespace
    ensures var c, r := Claim(t, pick, request, files), t[pick.value];
            && (c.Refused? || c == Claimed(pick.value, r.nextIndex))
            && (c.Claimed? <==>
                  r.claimedIndex.None? && PlanHash(r.actions, files) == Some(r.hash)
                  && r.nextIndex < |r.actions| && request == r.actions[r.nextIndex])
  {
    ClaimExact(t, pick.value, request, files);
  }
}
