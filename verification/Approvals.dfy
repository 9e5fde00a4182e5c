/** The approvals table: its rows and the effect of each SQL statement on them. */
module Approvals {
  import opened Types

  datatype Status = Pending | Executing | Executed | Failed | Rejected | Expired

  datatype Row = Row(createdAt: Time, expiresAt: Time, profile: string, request: Request, hash: Digest,
                     ruleId: Option<string>, risk: Option<Risk>, caller: Caller, taskId: Option<string>,
                     namespace: Option<string>, status: Status)

  type Table = map<Id, Row>

  const U64_MAX: nat := 0xffff_ffff_ffff_ffff

  function SaturatingAdd(a: nat, b: nat): nat {
    if a + b > U64_MAX then U64_MAX else a + b
  }

  /** The row `create` inserts; None when the request has no profile or its upload cannot be hashed. */
  function NewRow(request: Request, files: Files, now: Time, ttl: nat, caller: Caller, ruleId: Option<string>,
                  risk: Option<Risk>, taskId: Option<string>, namespace: Option<string>): Option<Row>
  {
    var hash := RequestHash(request, files);
    var profile := RequestProfile(request);
    if hash.None? || profile.None? then None
    else Some(Row(now, SaturatingAdd(now, ttl), profile.value, request, hash.value, ruleId, risk, caller, taskId,
      namespace, Pending))
  }

  function Expire(t: Table, now: Time): Table {
    map id | id in t :: if t[id].status.Pending? && t[id].expiresAt <= now then t[id].(status := Expired) else t[id]
  }

  /** The claiming SELECT; a service without a namespace (the human CLI) sees every row. */
  predicate Claimable(t: Table, id: Id, now: Time, namespace: Option<string>) {
    && id in t && t[id].status.Pending? && t[id].expiresAt > now
    && (namespace.None? || t[id].namespace == namespace)
  }

  /** The conditional claiming UPDATE: true when it changed a row. */
  predicate IsPending(t: Table, id: Id) {
    id in t && t[id].status.Pending?
  }

  function SetStatus(t: Table, id: Id, status: Status): Table
    requires id in t
  {
    t[id := t[id].(status := status)]
  }

  function Reject(t: Table, id: Id, now: Time): Table {
    if IsPending(t, id) && t[id].expiresAt > now then SetStatus(t, id, Rejected) else t
  }

  function Finish(t: Table, id: Id, ok: bool): Table {
    if id in t && t[id].status.Executing? then SetStatus(t, id, if ok then Executed else Failed) else t
  }

  predicate Terminal(status: Status) {
    status.Executed? || status.Failed? || status.Rejected? || status.Expired?
  }

  function Cleanup(t: Table): Table {
    map id | id in t && !Terminal(t[id].status) :: t[id]
  }

  /** A sweep never decides a later statement: claiming and rejecting check the clock themselves. */
  lemma SweepDecidesNothing(t: Table, swept: Time, id: Id, now: Time, namespace: Option<string>)
    requires swept <= now
    ensures Claimable(Expire(t, swept), id, now, namespace) <==> Claimable(t, id, now, namespace)
    ensures (Reject(Expire(t, swept), id, now) != Expire(t, swept)) <==> (Reject(t, id, now) != t)
  {
    assert IsPending(t, id) && t[id].expiresAt > now ==> Reject(t, id, now)[id].status.Rejected?;
    assert IsPending(Expire(t, swept), id) && t[id].expiresAt > now ==>
      Reject(Expire(t, swept), id, now)[id].status.Rejected?;
  }
}
