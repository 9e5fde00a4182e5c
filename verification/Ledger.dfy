/** What holds of every run of the authorization driver, however its callers, clocks and crashes interleave. */
module Ledger {
  import opened Types
  import opened Config
  import opened Policy
  import opened Gateway
  import opened Invariants
  import opened Effects
  import opened Origins
  import A = Approvals
  import G = Grants
  import P = Plans
  import I = Isolation

  /** The world a run from empty tables reaches. */
  ghost function After(policy: Engine, events: seq<Event>): World {
    Run(Init(policy), events)
  }

  // ---- Runs ----

  lemma {:induction false} RunLast(w: World, events: seq<Event>, e: Event)
    ensures Run(w, events + [e]) == Step(Run(w, events), e)
    decreases |events|
  {
    hide Step;
    if events == [] {
      assert (events + [e])[1..] == [];
      assert Run(Step(w, e), []) == Step(w, e);
    } else {
      assert (events + [e])[1..] == events[1..] + [e];
      RunLast(Step(w, events[0]), events[1..], e);
    }
  }

  lemma {:induction false} RunSplit(w: World, events: seq<Event>, k: nat)
    requires k <= |events|
    ensures Run(w, events) == Run(Run(w, events[..k]), events[k..])
    decreases |events|
  {
    hide Step;
    if k > 0 {
      assert events[..k][1..] == events[1..][..k - 1] && events[k..] == events[1..][k - 1..];
      RunSplit(Step(w, events[0]), events[1..], k - 1);
    } else {
      assert events[..0] == [] && events[0..] == events;
    }
  }

  /** What no run undoes. */
  lemma {:induction false} RunStays(w: World, events: seq<Event>)
    requires Inv(w)
    ensures var w' := Run(w, events);
            Inv(w') && w'.policy == w.policy && ClaimsStay(w, w') && PlansStay(w.plans, w'.plans)
            && (Uses(w.grants, w.ledger) ==> Uses(w'.grants, w'.ledger)) && (Ordered(w) ==> Ordered(w'))
            && GrantsStay(w, w') && NoNewUses(w, w') && ApprovalsStay(w, w')
    decreases |events|
  {
    hide Inv, Step, Uses, Ordered, RowsStay, PlansFrom, HistoryFrom;
    if events != [] {
      StepKeeps(w, events[0]);
      StepEffect(w, events[0]);
      RunStays(Step(w, events[0]), events[1..]);
    }
  }

  lemma FromStart(policy: Engine, events: seq<Event>)
    ensures var w := After(policy, events); Inv(w) && w.policy == policy && Uses(w.grants, w.ledger) && Ordered(w)
  {
    var w := Init(policy);
    assert Inv(w) && Uses(w.grants, w.ledger) && Ordered(w);
    hide Inv, Uses, Ordered;
    RunStays(w, events);
  }

  // ---- Every execution is authorized, and no token is spent twice ----

  lemma NoTokenSpentTwice(policy: Engine, events: seq<Event>, i: nat, j: nat)
    requires i < j < |After(policy, events).history|
    ensures After(policy, events).history[i].token == After(policy, events).history[j].token ==>
              After(policy, events).history[i].token.Unmetered?
  {
    FromStart(policy, events);
    hide Records, Stories, Claims, Mints, Tasks, Past, After;
  }

  /** The human decision a charged execution rests on. */
  ghost predicate HumanDecided(w: World, token: Token) {
    match token
    case Unmetered => false
    case PlanToken(p, _) => p in w.journal && ApprovedByHuman in w.journal[p]
    case GrantToken(g, n) =>
      && g in w.minted && w.minted[g].0.source in w.claimer
      && w.minted[g].0.maxUses.Some? && n < w.minted[g].0.maxUses.value
    case ApprovalToken(a) => a in w.claimer
  }

  lemma {:induction false} StartsApproved(n: nat)
    ensures Progress(n)[0] == Proposed && Progress(n)[1] == ApprovedByHuman
  {
    if n > 0 { StartsApproved(n - 1); }
  }

  lemma StoryOfClaimed(story: seq<Entry>, r: P.Row)
    requires P.RowOk(r) && Tells(story, r) && (r.nextIndex > 0 || r.status.Executing? || r.status.Failed?)
    ensures ApprovedByHuman in story
  {
    StartsApproved(r.nextIndex);
    assert story[1] == ApprovedByHuman;
  }

  lemma IssuedByHuman(w: World, token: Token)
    requires Inv(w) && token in w.ledger
    ensures HumanDecided(w, token)
  {
    hide Records, Stories, Claims, Tasks, Past, Tells, P.RowOk, Progress;
    assert Accounted(w, token);
    match token
    case Unmetered => assert false;
    case PlanToken(p, _) =>
      AboutPlan(w, p);
      StoryOfClaimed(w.journal[p], w.plans[p]);
    case GrantToken(_, _) =>
    case ApprovalToken(_) =>
  }

  /**
   * Every execution was decided and not denied, and charged to a human decision when confirmation was due. The one
   * exception is a profile mutation, which no rule speaks of: it rests on a human's approval, or on the MCP client
   * of a self-hosted gateway.
   */
  lemma EveryExecutionAuthorized(policy: Engine, events: seq<Event>, i: nat)
    requires i < |After(policy, events).history|
    ensures var w := After(policy, events);
            var x := w.history[i];
            && (match x.decision
                case Some(d) => policy(x.op.cfg, x.op.caller, x.op.request) == Some(d) && !d.effect.Deny?
                  && (d.effect.Confirm? ==> !x.token.Unmetered?)
                  && !x.op.request.ManagesProfiles()
                case None => x.op.request.ManagesProfiles() && MutationAllowed(x))
            && (!x.token.Unmetered? ==> HumanDecided(w, x.token) && HumanActed(events, w, x.token) && Covered(w, x))
  {
    var w := After(policy, events);
    FromStart(policy, events);
    hide Records, Stories, Claims, Mints, Tasks, After, Covered, HumanDecided;
    assert Justified(w, w.history[i]);
    if !w.history[i].token.Unmetered? {
      IssuedByHuman(w, w.history[i].token);
      TokensByHumans(policy, events, w.history[i].token);
    }
  }

  /** A gateway in Cloud mode changes no profile but on an approval that a human's claim won, each of them once. */
  lemma CloudMutationsApproved(policy: Engine, events: seq<Event>, i: nat)
    requires i < |After(policy, events).history|
    requires var x := After(policy, events).history[i]; x.op.request.ManagesProfiles() && x.op.cfg.cloud
    ensures var w := After(policy, events);
            var x := w.history[i];
            && x.token.ApprovalToken? && x.token.approvalId in w.claimer && x.token.approvalId in w.requested
            && FrozenAs(x.op, w.requested[x.token.approvalId])
            && forall j :: 0 <= j < |w.history| && w.history[j].token == x.token ==> j == i
  {
    hide After, FrozenAs;
    EveryExecutionAuthorized(policy, events, i);
    forall j | 0 <= j < |After(policy, events).history|
      && After(policy, events).history[j].token == After(policy, events).history[i].token ensures j == i {
      if j < i { NoTokenSpentTwice(policy, events, j, i); }
      if i < j { NoTokenSpentTwice(policy, events, i, j); }
    }
  }

  /**
   * Under the gateway's own engine: an agent's operation on a host passed its profile's gates and its first matching
   * rule, in the configuration it ran under.
   */
  lemma EveryExecutionByRule(events: seq<Event>, i: nat)
    requires i < |After(Authorize, events).history|
    ensures var x := After(Authorize, events).history[i];
            !x.op.caller.HumanCli? && Plannable(x.op.request) ==>
              && x.decision.Some? && Find(x.op.cfg.profiles, x.op.request.profile).Some?
              && var agent := Find(x.op.cfg.profiles, x.op.request.profile).value.policy;
                 GatesOpen(agent, x.op.request)
                 && (agent.rules == [] ==> x.decision.value == ALLOW)
                 && (agent.rules != [] ==> exists k :: AdmittedBy(agent.rules, x.op.request, x.decision.value, k))
  {
    hide After, Authorize, GatesOpen, AdmittedBy;
    EveryExecutionAuthorized(Authorize, events, i);
    var x := After(Authorize, events).history[i];
    if !x.op.caller.HumanCli? && Plannable(x.op.request) {
      AdmittedOnlyByRule(x.op.cfg, x.op.caller, x.op.request, x.decision.value);
    }
  }

  // ---- One winner per approval, and its row is frozen until it finishes ----

  ghost predicate Wins(w: World, e: Event, id: Id) {
    e.Win? && e.t in w.tasks && w.tasks[e.t].Selected? && w.tasks[e.t].id == id && A.IsPending(w.approvals, id)
  }

  lemma WinClaims(w: World, e: Event, id: Id)
    requires Wins(w, e, id)
    ensures var w' := Step(w, e);
            id in w'.claimer && w'.claimer[id] == e.t && id in w'.approvals
              && w'.approvals[id] == w.approvals[id].(status := A.Executing)
  {
  }

  lemma ClaimedCannotBeWon(w: World, e: Event, id: Id)
    requires Claims(w) && id in w.claimer
    ensures !Wins(w, e, id)
  {
  }

  lemma SingleWinner(policy: Engine, events: seq<Event>, i: nat, j: nat, id: Id)
    requires i < j < |events| && Wins(After(policy, events[..i]), events[i], id)
    ensures !Wins(After(policy, events[..j]), events[j], id)
  {
    hide Step, Wins, Run, RowsStay, PlansFrom, HistoryFrom, Uses, Ordered;
    var won := events[..i + 1];
    assert won == events[..i] + [events[i]];
    RunLast(Init(policy), events[..i], events[i]);
    WinClaims(After(policy, events[..i]), events[i], id);
    assert events[..j][..i + 1] == won;
    RunSplit(Init(policy), events[..j], i + 1);
    FromStart(policy, won);
    hide Inv;
    RunStays(After(policy, won), events[..j][i + 1..]);
    ClaimsHold(After(policy, events[..j]));
    ClaimedCannotBeWon(After(policy, events[..j]), events[j], id);
  }

  lemma ClaimsHold(w: World)
    requires Inv(w)
    ensures Claims(w)
  {
    hide Records, Stories, Claims, Tokens, Mints, Tasks, Past;
  }

  ghost predicate Executing(w: World, id: Id, t: TaskId) {
    id in w.claimer && w.claimer[id] == t && id in w.approvals && w.approvals[id].status.Executing?
  }

  lemma {:induction false} Frozen(w: World, events: seq<Event>, id: Id, t: TaskId)
    requires Inv(w) && Executing(w, id, t)
    requires forall e :: e in events ==> !(e.FinishApproval? && e.t == t)
    ensures Executing(Run(w, events), id, t) && Run(w, events).approvals[id] == w.approvals[id]
    decreases |events|
  {
    hide Inv, Step, Uses, Ordered, PlansFrom, HistoryFrom, PlansStay;
    if events != [] {
      assert events[0] in events && forall e :: e in events[1..] ==> e in events;
      StepKeeps(w, events[0]);
      StepEffect(w, events[0]);
      Frozen(Step(w, events[0]), events[1..], id, t);
    }
  }

  /**
   * From the winning update to the winner's own finish nothing changes or deletes the row: no other claim,
   * rejection, expiry or cleanup.
   */
  lemma RowFrozenUntilFinish(policy: Engine, events: seq<Event>, i: nat, j: nat, id: Id)
    requires i < j <= |events| && Wins(After(policy, events[..i]), events[i], id)
    requires forall k :: i < k < j ==> !(events[k].FinishApproval? && events[k].t == events[i].t)
    ensures var before, after := After(policy, events[..i]), After(policy, events[..j]);
            id in before.approvals && id in after.approvals
              && after.approvals[id] == before.approvals[id].(status := A.Executing)
  {
    hide Step, Run;
    var won := events[..i + 1];
    assert won == events[..i] + [events[i]];
    RunLast(Init(policy), events[..i], events[i]);
    WinClaims(After(policy, events[..i]), events[i], id);
    FromStart(policy, won);
    assert events[..j][..i + 1] == won;
    RunSplit(Init(policy), events[..j], i + 1);
    hide Inv, Uses, Ordered;
    var rest := events[..j][i + 1..];
    forall e | e in rest ensures !(e.FinishApproval? && e.t == events[i].t) {
      var k :| 0 <= k < |rest| && rest[k] == e;
      assert rest[k] == events[i + 1 + k];
    }
    Frozen(After(policy, won), rest, id, events[i].t);
  }

  // ---- Plans run in order ----

  /**
   * A claim of action n is entry 2 + 2n of the story, right after the previous action was done; its
   * success is the entry after.
   */
  predicate EntryInOrder(story: seq<Entry>, k: nat)
    requires k < |story|
  {
    match story[k]
    case Claimed(i) => k == 2 + 2 * i && (if i == 0 then story[1] == ApprovedByHuman else story[k - 1] == Done(i - 1))
    case Done(i) => k == 3 + 2 * i && story[k - 1] == Claimed(i)
    case _ => true
  }

  ghost predicate InOrder(story: seq<Entry>) {
    forall k :: 0 <= k < |story| ==> EntryInOrder(story, k)
  }

  lemma {:induction false} ProgressInOrder(n: nat)
    ensures InOrder(Progress(n)) && Progress(n)[1] == ApprovedByHuman
            && (n > 0 ==> Progress(n)[1 + 2 * n] == Done(n - 1))
  {
    if n > 0 {
      ProgressInOrder(n - 1);
      var story := Progress(n);
      forall k | 0 <= k < |story| ensures EntryInOrder(story, k) {
        assert k < 2 * n ==> EntryInOrder(Progress(n - 1), k);
      }
    }
  }

  lemma OneMore(story: seq<Entry>, e: Entry)
    requires InOrder(story) && EntryInOrder(story + [e], |story|)
    ensures InOrder(story + [e])
  {
    forall k | 0 <= k < |story| + 1 ensures EntryInOrder(story + [e], k) {
      assert k < |story| ==> EntryInOrder(story, k);
    }
  }

  lemma TellsInOrder(story: seq<Entry>, r: P.Row)
    requires P.RowOk(r) && Tells(story, r)
    ensures InOrder(story)
  {
    var n := r.nextIndex;
    ProgressInOrder(n);
    hide InOrder;
    var claimed := Progress(n) + [Claimed(n)];
    OneMore(Progress(n), Claimed(n));
    OneMore(Progress(n), TimedOut);
    OneMore(claimed, Broke(n));
    OneMore(claimed, Lapsed(n));
    assert claimed + [Broke(n)] == Progress(n) + [Claimed(n), Broke(n)];
    assert claimed + [Lapsed(n)] == Progress(n) + [Claimed(n), Lapsed(n)];
    ShortInOrder();
  }

  lemma ShortInOrder()
    ensures InOrder([Proposed]) && InOrder([Proposed, Refused]) && InOrder([Proposed, TimedOut])
  {
    forall k | 0 <= k < 2 ensures EntryInOrder([Proposed, Refused], k) && EntryInOrder([Proposed, TimedOut], k) {}
  }

  lemma PlanStory(policy: Engine, events: seq<Event>, p: Id)
    requires p in After(policy, events).plans
    ensures var w := After(policy, events);
            && p in w.journal && InOrder(w.journal[p])
            && (w.plans[p].status.Completed? <==> w.journal[p] == Progress(|w.plans[p].actions|))
  {
    hide After, InOrder;
    FromStart(policy, events);
    var w := After(policy, events);
    hide Inv;
    AboutPlan(w, p);
    TellsInOrder(w.journal[p], w.plans[p]);
    CompletedStory(w.journal[p], w.plans[p]);
  }

  lemma LongStory(r: P.Row, story: seq<Entry>)
    requires P.RowOk(r) && Tells(story, r) && story == Progress(|r.actions|)
    ensures r.nextIndex == |r.actions|
  {
    ProgressInOrder(|r.actions|);
    assert story[|story| - 1] == Done(|r.actions| - 1);
  }

  lemma CompletedStory(story: seq<Entry>, r: P.Row)
    requires P.RowOk(r) && Tells(story, r)
    ensures r.status.Completed? <==> story == Progress(|r.actions|)
  {
    if story == Progress(|r.actions|) { LongStory(r, story); }
  }

  /**
   * A settled plan never changes again: in particular a finish that comes after its lease was
   * failed leaves it as it is.
   */
  lemma SettledForever(policy: Engine, events: seq<Event>, k: nat, p: Id)
    requires k <= |events| && p in After(policy, events[..k]).plans
             && Settled(After(policy, events[..k]).plans[p].status)
    ensures p in After(policy, events).plans && After(policy, events).plans[p] == After(policy, events[..k]).plans[p]
  {
    hide Run, Inv, Uses, Ordered, ClaimsStay;
    RunSplit(Init(policy), events, k);
    FromStart(policy, events[..k]);
    RunStays(After(policy, events[..k]), events[k..]);
  }

  lemma SpentIsExecuted(w: World, token: Token)
    requires Tokens(w) && IsSpent(w.ledger, token)
    ensures w.ledger[token].at < |w.history| && w.history[w.ledger[token].at].token == token
  {
  }

  lemma ExecutedIsSpent(w: World, i: nat)
    requires Tokens(w) && i < |w.history| && !w.history[i].token.Unmetered?
    ensures IsSpent(w.ledger, w.history[i].token) && w.ledger[w.history[i].token].at == i
  {
  }

  /** Executions charged to one plan happen in the order of its actions. */
  lemma PlanRunsInOrder(policy: Engine, events: seq<Event>, p: Id, i: nat, j: nat)
    requires i < |After(policy, events).history| && j < |After(policy, events).history|
    requires After(policy, events).history[i].token.PlanToken? && After(policy, events).history[i].token.planId == p
    requires After(policy, events).history[j].token.PlanToken? && After(policy, events).history[j].token.planId == p
    ensures i < j <==> After(policy, events).history[i].token.index < After(policy, events).history[j].token.index
  {
    FromStart(policy, events);
    var w := After(policy, events);
    hide Records, Stories, Claims, Tokens, Mints, Tasks, Past, After, RanSpent, DoneSpent;
    ExecutedIsSpent(w, i);
    ExecutedIsSpent(w, j);
  }

  /**
   * A plan that advanced past an action has executed exactly the proposed request, under the plan's own
   * task, profile and namespace.
   */
  lemma FinishedActionsRan(policy: Engine, events: seq<Event>, p: Id, n: nat)
    requires var w := After(policy, events); p in w.plans && n < w.plans[p].nextIndex && P.RowOk(w.plans[p])
    ensures var w := After(policy, events);
            exists i :: 0 <= i < |w.history| && w.history[i].token == PlanToken(p, n)
              && w.history[i].op.request == w.plans[p].actions[n]
                        && w.history[i].op.taskId == Some(w.plans[p].taskId)
                           && w.history[i].op.Namespace() == w.plans[p].namespace
  {
    FromStart(policy, events);
    var w := After(policy, events);
    hide Records, Stories, Claims, Tokens, Mints, Tasks, After, RanSpent, SpentInOrder, P.RowOk, Looked, Decided;
    assert IsSpent(w.ledger, PlanToken(p, n));
    SpentIsExecuted(w, PlanToken(p, n));
    assert Justified(w, w.history[w.ledger[PlanToken(p, n)].at]);
  }

  /** A completed plan ran every one of its actions. */
  lemma CompletedPlanRan(policy: Engine, events: seq<Event>, p: Id, n: nat)
    requires var w := After(policy, events); p in w.plans && w.plans[p].status.Completed? && n < |w.plans[p].actions|
    ensures var w := After(policy, events);
            exists i :: 0 <= i < |w.history| && w.history[i].token == PlanToken(p, n)
              && w.history[i].op.request == w.plans[p].actions[n]
  {
    FromStart(policy, events);
    hide After, Ordered, Uses;
    AboutPlan(After(policy, events), p);
    hide Inv;
    FinishedActionsRan(policy, events, p, n);
  }

  // ---- Grants are conserved ----

  /** A grant's count is the number of its uses that were handed out, each at most once, never above its limit. */
  lemma GrantConservation(policy: Engine, events: seq<Event>, g: Id)
    requires g in After(policy, events).grants
    ensures var w := After(policy, events);
            var r := w.grants[g];
            && (forall n: nat :: GrantToken(g, n) in w.ledger <==> n < r.usedCount)
            && r.maxUses.Some? && r.usedCount <= r.maxUses.value
            && (r.status.Exhausted? <==> r.usedCount == r.maxUses.value)
            && (forall i :: 0 <= i < |w.history| ==>
                  var token := w.history[i].token;
                  token.GrantToken? && token.grantId == g ==> token.use < r.usedCount)
  {
    FromStart(policy, events);
    var w := After(policy, events);
    hide Stories, Claims, Tokens, Mints, Tasks, Past, After, Ordered;
    MintedBounded(w, g);
    forall i | 0 <= i < |w.history| && w.history[i].token.GrantToken?
      && w.history[i].token.grantId == g ensures w.history[i].token.use < w.grants[g].usedCount {
      ExecutedIsSpent(w, i);
    }
  }

  // ---- What one human decision can lead to ----

  /** The execution was charged to the approval, or to the grant made from it. */
  ghost predicate ChargedTo(w: World, token: Token, a: Id) {
    token == ApprovalToken(a)
      || (token.GrantToken? && token.grantId in w.minted && w.minted[token.grantId].0.source == a)
  }

  ghost function ChargedRuns(w: World, a: Id): set<nat> {
    set i: nat | i < |w.history| && ChargedTo(w, w.history[i].token, a)
  }

  /** Uses the approval's grant was made for; nothing without a grant. */
  function UsesGranted(w: World, a: Id): nat {
    if a in w.grantOf && w.grantOf[a] in w.minted then w.minted[w.grantOf[a]].0.maxUses.GetOr(0) else 0
  }

  /** The approval's own token first, then its grant's uses. */
  function Slot(token: Token): nat {
    if token.GrantToken? then 1 + token.use else 0
  }

  lemma {:induction false} Pigeonhole(runs: set<nat>, slot: map<nat, nat>, k: nat)
    requires runs <= slot.Keys
    requires forall i :: i in runs ==> slot[i] < k
    requires forall i, j :: i in runs && j in runs && slot[i] == slot[j] ==> i == j
    ensures |runs| <= k
    decreases k
  {
    if k == 0 {
      assert forall i :: i !in runs;
    } else if exists top :: top in runs && slot[top] == k - 1 {
      var top :| top in runs && slot[top] == k - 1;
      Pigeonhole(runs - {top}, slot, k - 1);
    } else {
      Pigeonhole(runs, slot, k - 1);
    }
  }

  lemma ChargedSlot(w: World, i: nat, a: Id)
    requires Inv(w) && i in ChargedRuns(w, a)
    ensures Slot(w.history[i].token) < 1 + UsesGranted(w, a)
    ensures w.history[i].token.GrantToken? ==> a in w.grantOf && w.history[i].token.grantId == w.grantOf[a]
  {
    hide Records, Stories, Claims, Mints, Tasks, Past;
    var token := w.history[i].token;
    assert Accounted(w, token);
    if token.GrantToken? {
      GrantOfSource(w, token.grantId);
    }
  }

  lemma GrantOfSource(w: World, g: Id)
    requires Mints(w) && g in w.minted
    ensures var a := w.minted[g].0.source; a in w.grantOf && w.grantOf[a] == g
  {
  }

  /** One approval leads to at most one grant and at most one execution of its own plus the grant's uses. */
  lemma HumanDecisionBound(policy: Engine, events: seq<Event>, a: Id)
    ensures var w := After(policy, events);
            && |ChargedRuns(w, a)| <= 1 + UsesGranted(w, a)
            && (forall g, h :: g in w.minted && h in w.minted ==>
                  (w.minted[g].0.source == a && w.minted[h].0.source == a ==> g == h))
  {
    var w := After(policy, events);
    FromStart(policy, events);
    hide Inv, After, Uses, Ordered;
    var runs := ChargedRuns(w, a);
    var slot := map i | i in runs :: Slot(w.history[i].token);
    forall i | i in runs ensures slot[i] < 1 + UsesGranted(w, a) {
      ChargedSlot(w, i, a);
    }
    forall i, j | i in runs && j in runs && slot[i] == slot[j] ensures i == j {
      ChargedSlot(w, i, a);
      ChargedSlot(w, j, a);
      DistinctTokens(w, i, j);
    }
    Pigeonhole(runs, slot, 1 + UsesGranted(w, a));
    OneGrantEach(w);
  }

  lemma DistinctTokens(w: World, i: nat, j: nat)
    requires Inv(w) && i < |w.history| && j < |w.history| && w.history[i].token == w.history[j].token
             && !w.history[i].token.Unmetered?
    ensures i == j
  {
    hide Records, Stories, Claims, Tokens, Mints, Tasks, Past;
    ExecutedIsSpent(w, i);
    ExecutedIsSpent(w, j);
  }

  lemma OneGrantEach(w: World)
    requires Inv(w)
    ensures forall g, h :: g in w.minted && h in w.minted && w.minted[g].0.source == w.minted[h].0.source ==> g == h
  {
    hide Records, Stories, Claims, Tokens, Tasks, Past, Inherits;
  }

  /**
   * A grant carries its approval's profile, rule and namespace, with lifetime and scope inside the limits
   * configured where it was asked for.
   */
  lemma GrantInherits(policy: Engine, events: seq<Event>, g: Id)
    requires g in After(policy, events).grants
    ensures var w := After(policy, events);
            var r := w.grants[g];
            && g in w.minted && r.source in w.requested
            && var source, wish, limits := w.requested[r.source], w.minted[g].1, w.minted[g].1.cfg.grants;
               && !source.request.ManagesProfiles()
               && r.profile == source.profile && Some(r.ruleId) == source.ruleId && r.namespace == source.namespace
               && r.taskId == wish.taskId && r.expiresAt == r.createdAt + wish.ttl && 0 < wish.ttl <= limits.maxTtl
               && r.maxUses == Some(wish.maxUses.GetOr(limits.defaultMaxUses)) && r.maxUses != Some(0)
               && (source.risk == Some(Critical) ==>
                     if r.taskId.Some? then limits.critical.task else limits.critical.time)
               && (source.risk == Some(High) ==> if r.taskId.Some? then limits.high.task else limits.high.time)
               && (source.risk == Some(Medium) ==> if r.taskId.Some? then limits.medium.task else limits.medium.time)
               && (source.risk == Some(Low) || source.risk.None? ==>
                     if r.taskId.Some? then limits.low.task else limits.low.time)
  {
    FromStart(policy, events);
    InheritsFrom(After(policy, events), g);
  }

  lemma InheritsFrom(w: World, g: Id)
    requires Records(w) && Mints(w) && g in w.grants
    ensures g in w.minted && w.grants[g].source in w.requested
            && Inherits(w.grants[g], w.minted[g].1, w.requested[w.grants[g].source])
            && !w.requested[w.grants[g].source].request.ManagesProfiles()
  {
    hide G.RowOk, G.Permitted;
  }

  // ---- What is over stays over ----

  /**
   * A grant once revoked, expired, used up or cleaned away is never active again, and no further use
   * of it is ever handed out.
   */
  lemma GrantOver(policy: Engine, events: seq<Event>, k: nat, g: Id)
    requires k <= |events| && Dead(After(policy, events[..k]), g)
    ensures Dead(After(policy, events), g)
    ensures forall n: nat :: GrantToken(g, n) in After(policy, events).ledger ==>
            GrantToken(g, n) in After(policy, events[..k]).ledger
  {
    hide Run, Inv, Uses, Ordered, ClaimsStay, PlansStay, ApprovalsStay, Dead;
    RunSplit(Init(policy), events, k);
    FromStart(policy, events[..k]);
    RunStays(After(policy, events[..k]), events[k..]);
  }

  /**
   * An approval rejected, expired or cleaned away before anyone won it is never won later, and nothing ever runs on it.
   */
  lemma ApprovalOver(policy: Engine, events: seq<Event>, k: nat, a: Id)
    requires k <= |events| && Closed(After(policy, events[..k]), a)
    ensures Closed(After(policy, events), a) && ApprovalToken(a) !in After(policy, events).ledger
    ensures forall i :: 0 <= i < |After(policy, events).history| ==>
            After(policy, events).history[i].token != ApprovalToken(a)
  {
    hide Run, Inv, Uses, Ordered, ClaimsStay, PlansStay, GrantsStay, NoNewUses;
    RunSplit(Init(policy), events, k);
    FromStart(policy, events[..k]);
    RunStays(After(policy, events[..k]), events[k..]);
    NothingOn(After(policy, events), a);
  }

  lemma NothingOn(w: World, a: Id)
    requires Inv(w) && a !in w.claimer
    ensures ApprovalToken(a) !in w.ledger && forall i :: 0 <= i < |w.history| ==> w.history[i].token != ApprovalToken(a)
  {
    hide Records, Stories, Claims, Mints, Tasks, Past;
    assert ApprovalToken(a) in w.ledger ==> Accounted(w, ApprovalToken(a));
  }

  // ---- Where plans, tasks and executions come from ----

  /** Event k proposed the plan, and the machine took it. */
  ghost predicate ProposedAt(policy: Engine, events: seq<Event>, k: nat, p: Id, r: P.Row) {
    && k < |events| && Proposes(events[k], p, r)
    && p !in After(policy, events[..k]).plans && p in After(policy, events[..k + 1]).plans
  }

  /** The task arrived with the operation at event a and has been there ever since. */
  ghost predicate Arrived(policy: Engine, events: seq<Event>, t: TaskId, op: Op, a: nat) {
    && a < |events| && events[a] == Arrive(t, op) && t !in After(policy, events[..a]).tasks
    && forall j :: a < j <= |events| ==> t in After(policy, events[..j]).tasks
  }

  /** The task saw, and claimed, at event k. */
  ghost predicate LookedAt(policy: Engine, events: seq<Event>, t: TaskId, v: View, k: nat) {
    k < |events| && Looks(After(policy, events[..k]), t, events[k], v)
  }

  ghost predicate LookedAfterArrival(policy: Engine, events: seq<Event>, t: TaskId, v: View) {
    exists a: nat, k: nat :: a < k && Arrived(policy, events, t, v.op, a) && LookedAt(policy, events, t, v, k)
  }

  ghost predicate Story(policy: Engine, events: seq<Event>, t: TaskId, s: Task) {
    && (s.AtPlan? ==> exists a: nat :: Arrived(policy, events, t, s.op, a))
    && (ViewOf(s).Some? ==> LookedAfterArrival(policy, events, t, ViewOf(s).value))
  }

  lemma {:induction false} PlanProposed(policy: Engine, events: seq<Event>, p: Id)
    requires p in After(policy, events).plans
    ensures exists k: nat :: ProposedAt(policy, events, k, p, After(policy, events).plans[p])
    decreases |events|
  {
    if events != [] {
      var last := |events| - 1;
      var before := After(policy, events[..last]);
      LastEffect(policy, events);
      hide After, HistoryFrom;
      var r := After(policy, events).plans[p];
      if p in before.plans {
        PlanProposed(policy, events[..last], p);
        var k: nat :| ProposedAt(policy, events[..last], k, p, before.plans[p]);
        assert events[..last][..k] == events[..k] && events[..last][..k + 1] == events[..k + 1];
        assert ProposedAt(policy, events, k, p, r);
      } else {
        assert events[..last + 1] == events;
        assert ProposedAt(policy, events, last, p, r);
      }
    }
  }

  lemma LastStep(policy: Engine, events: seq<Event>)
    requires events != []
    ensures After(policy, events) == Step(After(policy, events[..|events| - 1]), events[|events| - 1])
  {
    hide Step, Run;
    var last := |events| - 1;
    assert events == events[..last] + [events[last]];
    RunLast(Init(policy), events[..last], events[last]);
  }

  lemma LastEffect(policy: Engine, events: seq<Event>)
    requires events != []
    ensures var before, after, e := After(policy, events[..|events| - 1]), After(policy, events),
            Some(events[|events| - 1]);
            && PlansFrom(before.plans, after.plans, e) && HistoryFrom(before, after, e)
            && RequestedFrom(before, after.requested, e) && ClaimsFrom(before, after.claimer, e)
            && MintedFrom(before, after.minted, e) && JournalFrom(before.journal, after.journal, e)
  {
    hide RequestedFrom, ClaimsFrom, MintedFrom, JournalFrom;
    hide Inv, Step, Run, After, Uses, Ordered, ClaimsStay, RowsStay, PlansStay, GrantsStay, NoNewUses, ApprovalsStay,
      PlansFrom, HistoryFrom;
    var last := |events| - 1;
    LastStep(policy, events);
    FromStart(policy, events[..last]);
    StepEffect(After(policy, events[..last]), events[last]);
  }

  lemma StillArrived(policy: Engine, events: seq<Event>, t: TaskId, op: Op, a: nat)
    requires events != [] && Arrived(policy, events[..|events| - 1], t, op, a) && t in After(policy, events).tasks
    ensures Arrived(policy, events, t, op, a)
  {
    hide After;
    var last := |events| - 1;
    assert events[..last][..a] == events[..a];
    forall j | a < j <= |events| ensures t in After(policy, events[..j]).tasks {
      if j <= last { assert events[..last][..j] == events[..j]; } else { assert events[..j] == events; }
    }
  }

  lemma StillLooked(policy: Engine, events: seq<Event>, t: TaskId, v: View)
    requires events != [] && LookedAfterArrival(policy, events[..|events| - 1], t, v)
             && t in After(policy, events).tasks
    ensures LookedAfterArrival(policy, events, t, v)
  {
    hide After, Looks, Arrived;
    var before := events[..|events| - 1];
    var a: nat, k: nat :| a < k && Arrived(policy, before, t, v.op, a) && LookedAt(policy, before, t, v, k);
    assert before[..k] == events[..k];
    StillArrived(policy, events, t, v.op, a);
    assert LookedAt(policy, events, t, v, k);
  }

  /** In every run each waiting operation arrived, and what it knows of the plans it read in its own claim since. */
  lemma {:induction false} TaskStories(policy: Engine, events: seq<Event>, t: TaskId)
    requires t in After(policy, events).tasks
    ensures Story(policy, events, t, After(policy, events).tasks[t])
    decreases |events|
  {
    if events != [] {
      var last := |events| - 1;
      LastStep(policy, events);
      StepFrom(After(policy, events[..last]), events[last]);
      if t in After(policy, events[..last]).tasks { TaskStories(policy, events[..last], t); }
      hide Step, Run, After;
      NextStory(policy, events, t);
    }
  }

  lemma NextStory(policy: Engine, events: seq<Event>, t: TaskId)
    requires events != [] && t in After(policy, events).tasks
    requires var last := |events| - 1;
             var before := After(policy, events[..last]);
             && TasksFrom(before, After(policy, events), events[last])
             && (t in before.tasks ==> Story(policy, events[..last], t, before.tasks[t]))
    ensures Story(policy, events, t, After(policy, events).tasks[t])
  {
    hide After, Looks, Arrived, LookedAfterArrival;
    var last := |events| - 1;
    var before := After(policy, events[..last]);
    var s := After(policy, events).tasks[t];
    var e := events[last];
    if t in before.tasks && before.tasks[t] == s {
      KeptStory(policy, events, t, s);
    } else {
      if s.AtPlan? { JustArrived(policy, events, t, s.op); }
      if ViewOf(s).Some? {
        if t in before.tasks && ViewOf(before.tasks[t]) == ViewOf(s) {
          StillLooked(policy, events, t, ViewOf(s).value);
        } else {
          LookedIs(before, t, e, ViewOf(s).value);
          JustLooked(policy, events, t, ViewOf(s).value);
        }
      }
    }
  }

  lemma KeptStory(policy: Engine, events: seq<Event>, t: TaskId, s: Task)
    requires events != [] && t in After(policy, events).tasks && Story(policy, events[..|events| - 1], t, s)
    ensures Story(policy, events, t, s)
  {
    hide After, Arrived, LookedAfterArrival;
    if s.AtPlan? {
      var a: nat :| Arrived(policy, events[..|events| - 1], t, s.op, a);
      StillArrived(policy, events, t, s.op, a);
    }
    if ViewOf(s).Some? { StillLooked(policy, events, t, ViewOf(s).value); }
  }

  lemma JustArrived(policy: Engine, events: seq<Event>, t: TaskId, op: Op)
    requires events != [] && events[|events| - 1] == Arrive(t, op) && t in After(policy, events).tasks
    requires t !in After(policy, events[..|events| - 1]).tasks
    ensures Arrived(policy, events, t, op, |events| - 1)
  {
    hide After;
    assert events[..|events|] == events;
  }

  lemma JustLooked(policy: Engine, events: seq<Event>, t: TaskId, v: View)
    requires events != [] && t in After(policy, events).tasks
    requires var before := After(policy, events[..|events| - 1]);
             Looks(before, t, events[|events| - 1], v) && Story(policy, events[..|events| - 1], t, before.tasks[t])
    ensures LookedAfterArrival(policy, events, t, v)
  {
    hide After, Arrived;
    var last := |events| - 1;
    var a: nat :| Arrived(policy, events[..last], t, v.op, a);
    StillArrived(policy, events, t, v.op, a);
    ArrivedBefore(policy, events[..last], t, v.op, a);
    assert LookedAt(policy, events, t, v, last);
  }

  lemma ArrivedBefore(policy: Engine, events: seq<Event>, t: TaskId, op: Op, a: nat)
    requires Arrived(policy, events, t, op, a)
    ensures a < |events|
  {
  }

  /** Event l is the execution of the i-th entry of the history, by task t. */
  ghost predicate RanAt(policy: Engine, events: seq<Event>, l: nat, t: TaskId, i: nat, x: Execution) {
    l < |events| && events[l] == Execute(t) &&
    var w := After(policy, events[..l]); |w.history| == i && t in w.tasks && w.tasks[t] == Ready(x)
  }

  lemma {:induction false} EveryExecutionRan(policy: Engine, events: seq<Event>, i: nat)
    requires i < |After(policy, events).history|
    ensures exists l: nat, t :: RanAt(policy, events, l, t, i, After(policy, events).history[i])
    decreases |events|
  {
    if events != [] {
      var last := |events| - 1;
      var before := After(policy, events[..last]);
      LastEffect(policy, events);
      hide After, PlansFrom;
      var x := After(policy, events).history[i];
      if i < |before.history| {
        EveryExecutionRan(policy, events[..last], i);
        var l: nat, t :| RanAt(policy, events[..last], l, t, i, before.history[i]);
        assert events[..last][..l] == events[..l];
        assert RanAt(policy, events, l, t, i, x);
      } else {
        assert RanAt(policy, events, last, events[last].t, i, x);
      }
    }
  }

  /**
   * Execution i was claimed for at event k and executed at event l, by one task that arrived with the
   * operation before and stayed.
   */
  ghost predicate Claimant(policy: Engine, events: seq<Event>, i: nat, x: Execution, t: TaskId, a: nat, k: nat,
      l: nat) {
    && a < k < l && RanAt(policy, events, l, t, i, x) && Arrived(policy, events[..l], t, x.op, a)
    && ViewOfRun(x).Some? && LookedAt(policy, events, t, ViewOfRun(x).value, k)
  }

  /** Every execution that knows of the plans read them in its own claim, between its arrival and its run. */
  lemma ClaimedBeforeRun(policy: Engine, events: seq<Event>, i: nat)
    requires i < |After(policy, events).history| && ViewOfRun(After(policy, events).history[i]).Some?
    ensures exists t, a: nat, k: nat,
            l: nat :: Claimant(policy, events, i, After(policy, events).history[i], t, a, k, l)
  {
    hide After, Looks, Arrived;
    EveryExecutionRan(policy, events, i);
    var x := After(policy, events).history[i];
    var v := ViewOfRun(x).value;
    var l: nat, t :| RanAt(policy, events, l, t, i, x);
    TaskStories(policy, events[..l], t);
    var a: nat, k: nat :| a < k && Arrived(policy, events[..l], t, v.op, a) && LookedAt(policy, events[..l], t, v, k);
    assert events[..l][..k] == events[..k];
    assert LookedAt(policy, events, t, v, k);
    assert Claimant(policy, events, i, x, t, a, k, l);
  }

  // ---- Nothing happens without a human's act ----

  /** Event k is a human's opening of the approval, with the grant wished for. */
  predicate OpenedAt(events: seq<Event>, k: nat, a: Id, wish: Option<G.Wish>) {
    k < |events| && events[k].Open? && events[k].caller.HumanCli? && events[k].id == a && events[k].wish == wish
  }

  predicate PlanApprovedAt(events: seq<Event>, k: nat, p: Id) {
    k < |events| && events[k].ApprovePlan? && events[k].caller.HumanCli? && events[k].id == p
  }

  lemma {:induction false} WishesOpened(policy: Engine, events: seq<Event>, t: TaskId)
    requires t in After(policy, events).tasks && WishOf(After(policy, events).tasks[t]).Some?
    ensures var about := WishOf(After(policy, events).tasks[t]).value;
            exists k: nat :: OpenedAt(events, k, about.0, about.1)
    decreases |events|
  {
    if events != [] {
      var last := |events| - 1;
      var before := After(policy, events[..last]);
      LastStep(policy, events);
      StepFrom(before, events[last]);
      hide After, Step, Looks;
      var about := WishOf(After(policy, events).tasks[t]);
      if t in before.tasks && WishOf(before.tasks[t]) == about {
        WishesOpened(policy, events[..last], t);
        var k: nat :| OpenedAt(events[..last], k, about.value.0, about.value.1);
        assert OpenedAt(events, k, about.value.0, about.value.1);
      } else {
        assert OpenedAt(events, last, about.value.0, about.value.1);
      }
    }
  }

  /** Every approval that was won had been opened by a human. */
  lemma {:induction false} ClaimsOpened(policy: Engine, events: seq<Event>, a: Id)
    requires a in After(policy, events).claimer
    ensures exists k: nat, wish :: OpenedAt(events, k, a, wish)
    decreases |events|
  {
    if events != [] {
      var last := |events| - 1;
      LastEffect(policy, events);
      var before := After(policy, events[..last]);
      hide After, PlansFrom, HistoryFrom, RequestedFrom, MintedFrom, JournalFrom;
      if a in before.claimer {
        ClaimsOpened(policy, events[..last], a);
        var k: nat, wish :| OpenedAt(events[..last], k, a, wish);
        assert OpenedAt(events, k, a, wish);
      } else {
        var s := before.tasks[events[last].t];
        WishesOpened(policy, events[..last], events[last].t);
        var k: nat :| OpenedAt(events[..last], k, a, s.wish);
        assert OpenedAt(events, k, a, s.wish);
      }
    }
  }

  /** Every grant was wished for by a human, as it was made. */
  lemma {:induction false} GrantsWished(policy: Engine, events: seq<Event>, g: Id)
    requires g in After(policy, events).minted
    ensures var minted := After(policy, events).minted[g];
            exists k: nat :: OpenedAt(events, k, minted.0.source, Some(minted.1))
    decreases |events|
  {
    if events != [] {
      var last := |events| - 1;
      LastEffect(policy, events);
      var before := After(policy, events[..last]);
      hide After, PlansFrom, HistoryFrom, RequestedFrom, ClaimsFrom, JournalFrom;
      var minted := After(policy, events).minted[g];
      if g in before.minted && before.minted[g] == minted {
        GrantsWished(policy, events[..last], g);
        var k: nat :| OpenedAt(events[..last], k, minted.0.source, Some(minted.1));
        assert OpenedAt(events, k, minted.0.source, Some(minted.1));
      } else {
        WishesOpened(policy, events[..last], events[last].t);
        var k: nat :| OpenedAt(events[..last], k, minted.0.source, Some(minted.1));
        assert OpenedAt(events, k, minted.0.source, Some(minted.1));
      }
    }
  }

  lemma {:induction false} PlansApproved(policy: Engine, events: seq<Event>, p: Id)
    requires p in After(policy, events).journal && ApprovedByHuman in After(policy, events).journal[p]
    ensures exists k: nat :: PlanApprovedAt(events, k, p)
    decreases |events|
  {
    if events != [] {
      var last := |events| - 1;
      LastEffect(policy, events);
      var before := After(policy, events[..last]);
      hide After, PlansFrom, HistoryFrom, RequestedFrom, ClaimsFrom, MintedFrom;
      if p in before.journal && ApprovedByHuman in before.journal[p] {
        PlansApproved(policy, events[..last], p);
        var k: nat :| PlanApprovedAt(events[..last], k, p);
        assert PlanApprovedAt(events, k, p);
      } else {
        assert PlanApprovedAt(events, last, p);
      }
    }
  }

  /** The event of the run by which a human let the token be. */
  ghost predicate HumanActed(events: seq<Event>, w: World, token: Token) {
    match token
    case Unmetered => false
    case PlanToken(p, _) => exists k: nat :: PlanApprovedAt(events, k, p)
    case GrantToken(g, _) =>
      g in w.minted && exists k: nat :: OpenedAt(events, k, w.minted[g].0.source, Some(w.minted[g].1))
    case ApprovalToken(a) => exists k: nat, wish :: OpenedAt(events, k, a, wish)
  }

  /** Behind every token there is an event of the run that a human took: it approved the plan or opened the approval. */
  lemma TokensByHumans(policy: Engine, events: seq<Event>, token: Token)
    requires token in After(policy, events).ledger
    ensures HumanActed(events, After(policy, events), token)
  {
    FromStart(policy, events);
    IssuedByHuman(After(policy, events), token);
    hide Inv, Uses, Ordered, After;
    match token
    case Unmetered => assert false;
    case PlanToken(p, _) => PlansApproved(policy, events, p);
    case GrantToken(g, _) => GrantsWished(policy, events, g);
    case ApprovalToken(a) => ClaimsOpened(policy, events, a);
  }

  /** Nobody but a human decides on approvals, grants and plans; nobody but an agent proposes. */
  lemma OthersDecideNothing(w: World, e: Event)
    requires match e
             case Open(_, caller, _, _, _) => !caller.HumanCli?
             case RejectApproval(caller, _, _) => !caller.HumanCli?
             case CleanApprovals(caller) => !caller.HumanCli?
             case RevokeGrant(caller, _) => !caller.HumanCli?
             case CleanGrants(caller) => !caller.HumanCli?
             case ApprovePlan(caller, _, _) => !caller.HumanCli?
             case RejectPlan(caller, _) => !caller.HumanCli?
             case Propose(caller, _, _, _, _, _, _, _, _, _) => caller.HumanCli?
             case _ => false
    ensures Step(w, e) == w
  {
    hide P.NewRow, G.ValidateSource, StepArrive, StepClaimPlan, StepConsumeGrant, StepRequestApproval,
      StepRequestMutation, StepMutateProfile, StepExecute, StepFinishPlan, StepSelect, StepWin, StepRehash,
      StepRedecide, StepValidateGrant, StepInsertGrant, StepFinishApproval, StepSweepLeases, StepSweepPlans;
  }

  // ---- Approvals are filed once and wait no longer than configured ----

  /** Event m filed the approval, and the machine took it. */
  ghost predicate FiledAt(policy: Engine, events: seq<Event>, m: nat, a: Id, r: A.Row) {
    m < |events| && FilesRow(After(policy, events[..m]), events[m], a, r) && a !in After(policy, events[..m]).requested
  }

  lemma {:induction false} ApprovalFiled(policy: Engine, events: seq<Event>, a: Id)
    requires a in After(policy, events).requested
    ensures exists m: nat :: FiledAt(policy, events, m, a, After(policy, events).requested[a])
    decreases |events|
  {
    if events != [] {
      var last := |events| - 1;
      var before := After(policy, events[..last]);
      LastEffect(policy, events);
      hide After, PlansFrom, HistoryFrom, ClaimsFrom, MintedFrom, JournalFrom, FilesRow;
      var r := After(policy, events).requested[a];
      if a in before.requested {
        ApprovalFiled(policy, events[..last], a);
        var m: nat :| FiledAt(policy, events[..last], m, a, r);
        assert events[..last][..m] == events[..m];
        assert FiledAt(policy, events, m, a, r);
      } else {
        assert FiledAt(policy, events, last, a, r);
      }
    }
  }

  /** The time to live that an approval was filed with. */
  ghost function Ttl(w: World, e: Event): nat {
    match e
    case RequestApproval(t, _, _, _) => if t in w.tasks
      && w.tasks[t].AtRequest? then w.tasks[t].op.cfg.approvalTtl else 0
    case RequestMutation(_, _, _, cfg, _) => cfg.approvalTtl
    case _ => 0
  }

  /** A human's claim that succeeds reads a clock before the time to live has passed since the approval was filed. */
  lemma NoLateApproval(policy: Engine, events: seq<Event>, k: nat)
    requires k < |events| && events[k].Select? && events[k].t in After(policy, events[..k]).tasks
             && After(policy, events[..k]).tasks[events[k].t].Opened?
    requires events[k].t in After(policy, events[..k + 1]).tasks
    ensures var a := After(policy, events[..k]).tasks[events[k].t].id;
            exists m: nat, r :: m < k && FiledAt(policy, events, m, a, r)
              && events[k].now < events[m].now + Ttl(After(policy, events[..m]), events[m])
  {
    var w, e := After(policy, events[..k]), events[k];
    assert events[..k + 1][..k] == events[..k] && events[..k + 1][k] == e;
    LastStep(policy, events[..k + 1]);
    FromStart(policy, events[..k]);
    hide After, Inv, Step, Uses, Ordered;
    var a := w.tasks[e.t].id;
    SelectedInTime(w, e);
    ApprovalFiled(policy, events[..k], a);
    var r := w.requested[a];
    var m: nat :| FiledAt(policy, events[..k], m, a, r);
    assert events[..k][..m] == events[..m];
    FiledUntil(After(policy, events[..m]), events[m], a, r);
    assert FiledAt(policy, events, m, a, r);
  }

  lemma SelectedInTime(w: World, e: Event)
    requires Inv(w) && e.Select? && e.t in w.tasks && w.tasks[e.t].Opened? && e.t in Step(w, e).tasks
    ensures var a := w.tasks[e.t].id; a in w.requested && e.now < w.requested[a].expiresAt
  {
    hide Step, Inv, StepSelect;
    IsSelect(w, e.t, e.now, e.files);
    SelectedClaimable(w, e.t, e.now, e.files);
    AsRequested(w, w.tasks[e.t].id);
  }

  lemma SelectedClaimable(w: World, t: TaskId, now: Time, files: Files)
    requires t in w.tasks && w.tasks[t].Opened? && t in StepSelect(w, t, now, files).tasks
    ensures w.tasks[t].id in w.approvals && now < w.approvals[w.tasks[t].id].expiresAt
  {
    assert t !in EndTask(w, t).tasks;
    hide RequestHash, SetTask, EndTask;
  }

  lemma AsRequested(w: World, a: Id)
    requires Inv(w) && a in w.approvals
    ensures a in w.requested && w.approvals[a].expiresAt == w.requested[a].expiresAt
  {
    hide Stories, Claims, Tokens, Mints, Tasks, Past;
  }

  lemma FiledUntil(w: World, e: Event, a: Id, r: A.Row)
    requires FilesRow(w, e, a, r)
    ensures r.expiresAt <= e.now + Ttl(w, e) && (e.RequestApproval? || e.RequestMutation?)
  {
  }

  // ---- While a plan is live, agents run only its next action ----

  /** The plan stands between the agent's task and anything else the task could run. */
  ghost predicate Binds(r: P.Row, op: Op, now: Time) {
    && r.profile == op.Profile() && Some(r.taskId) == op.taskId && r.namespace == Some(op.session)
    && (r.status.Approved? || r.status.Executing?) && now < r.expiresAt
  }

  ghost predicate BindsFirst(plans: P.Table, op: Op, now: Time, id: Id) {
    && id in plans && Binds(plans[id], op, now)
    && forall other :: other in plans && Binds(plans[other], op, now) ==> plans[other].createdAt <= plans[id].createdAt
  }

  /**
   * With a plan that binds the task, the execution is the exact next action of the newest one; with none, it
   * is not charged to a plan.
   */
  ghost predicate PlansDecide(plans: P.Table, now: Time, x: Execution) {
    if exists id :: id in plans && Binds(plans[id], x.op, now) then
      && x.token.PlanToken? && BindsFirst(plans, x.op, now, x.token.planId)
      && var r := plans[x.token.planId];
         x.token.index == r.nextIndex < |r.actions| && r.claimedIndex.None? && x.op.request == r.actions[r.nextIndex]
    else !x.token.PlanToken?
  }

  /**
   * An agent's operation that names a task, with approvals enabled and not run by a human's approval, was decided by
   * the plans as they were at its own claiming transaction, after it arrived and before it ran.
   */
  lemma LivePlanExclusive(policy: Engine, events: seq<Event>, i: nat)
    requires i < |After(policy, events).history|
    requires var x := After(policy, events).history[i];
             && !x.op.caller.HumanCli? && x.op.taskId.Some? && x.op.cfg.approvalsEnabled
             && !x.op.request.ManagesProfiles() && !x.token.ApprovalToken?
    ensures var x := After(policy, events).history[i];
            exists t, a: nat, k: nat, l: nat ::
              Claimant(policy, events, i, x, t, a, k, l)
                && PlansDecide(After(policy, events[..k]).plans, events[k].now, x)
  {
    FromStart(policy, events);
    var w := After(policy, events);
    var x := w.history[i];
    assert Justified(w, x);
    SightDecides(x);
    hide Inv, After, Looks, Arrived, Looked, Justified, Uses, Ordered, P.Newest, PlansDecide;
    ClaimedBeforeRun(policy, events, i);
    var t, a: nat, k: nat, l: nat :| Claimant(policy, events, i, x, t, a, k, l);
    LookedIs(After(policy, events[..k]), t, events[k], ViewOfRun(x).value);
    assert Claimant(policy, events, i, x, t, a, k, l)
      && PlansDecide(After(policy, events[..k]).plans, events[k].now, x);
  }

  /** The event is a claim that reads the plans as the statement asks. */
  ghost predicate Claiming(w: World, e: Event, op: Op, d: Decision) {
    && e.ClaimPlan? && e.t in w.tasks && w.tasks[e.t] == AtPlan(op, d) && !op.caller.HumanCli? && op.taskId.Some?
    && (match e.pick
        case Some(id) => BindsFirst(w.plans, op, e.now, id)
        case None => forall id :: id in w.plans ==> !Binds(w.plans[id], op, e.now))
  }

  /**
   * While any plan binds the task, its claim leads to an execution exactly when the newest one has no action claimed,
   * its content is as proposed and the request is its next action; otherwise the task is over. Nothing else runs.
   */
  lemma BoundClaims(policy: Engine, events: seq<Event>, k: nat, op: Op, d: Decision, p: Id)
    requires k < |events| && Claiming(After(policy, events[..k]), events[k], op, d)
    requires p in After(policy, events[..k]).plans && Binds(After(policy, events[..k]).plans[p], op, events[k].now)
    ensures var w, w', t := After(policy, events[..k]), After(policy, events[..k + 1]), events[k].t;
            && events[k].pick.Some? && events[k].pick.value in w.plans
            && var r := w.plans[events[k].pick.value];
               && r.createdAt >= w.plans[p].createdAt
               && (t in w'.tasks <==>
                     r.claimedIndex.None? && PlanHash(r.actions, events[k].files) == Some(r.hash)
                     && r.nextIndex < |r.actions| && op.request == r.actions[r.nextIndex])
               && (t in w'.tasks ==>
                     w'.tasks[t].Ready? && w'.tasks[t].x.op == op
                     && w'.tasks[t].x.token == PlanToken(events[k].pick.value, r.nextIndex))
  {
    var w, e := After(policy, events[..k]), events[k];
    hide After, Claiming, Binds, StepClaimPlan, Step, PlanHash;
    assert events[..k + 1][..k] == events[..k] && events[..k + 1][k] == events[k];
    LastStep(policy, events[..k + 1]);
    ClaimOutcome(w, e, op, d, p);
    IsClaim(w, e.t, e.pick, e.now, e.leaseNow, e.files);
  }

  lemma ClaimOutcome(w: World, e: Event, op: Op, d: Decision, p: Id)
    requires Claiming(w, e, op, d) && p in w.plans && Binds(w.plans[p], op, e.now)
    ensures e.ClaimPlan? && e.pick.Some? && e.pick.value in w.plans
    ensures var w', r := StepClaimPlan(w, e.t, e.pick, e.now, e.leaseNow, e.files), w.plans[e.pick.value];
            && r.createdAt >= w.plans[p].createdAt
            && (e.t in w'.tasks <==>
                  r.claimedIndex.None? && PlanHash(r.actions, e.files) == Some(r.hash)
                  && r.nextIndex < |r.actions| && op.request == r.actions[r.nextIndex])
            && (e.t in w'.tasks ==>
                  w'.tasks[e.t].Ready? && w'.tasks[e.t].x.op == op
                  && w'.tasks[e.t].x.token == PlanToken(e.pick.value, r.nextIndex))
  {
    PickedNewest(w, e, op, d);
    assert e.pick.Some? && e.pick.value in w.plans && w.plans[e.pick.value].createdAt >= w.plans[p].createdAt;
    hide P.Newest, P.Claim, StepClaimPlan, PlanHash, Binds, BindsFirst, Claiming;
    P.ClaimExact(w.plans, e.pick.value, op.request, e.files);
    if P.Claim(w.plans, e.pick, op.request, e.files).Claimed? {
      ClaimRuns(w, e, op, d);
    } else {
      ClaimEnds(w, e, op, d);
    }
  }

  lemma ClaimRuns(w: World, e: Event, op: Op, d: Decision)
    requires Claiming(w, e, op, d) && e.pick.Some? && e.pick.value in w.plans
             && P.Claim(w.plans, e.pick, op.request, e.files).Claimed?
    ensures var w' := StepClaimPlan(w, e.t, e.pick, e.now, e.leaseNow, e.files);
            && e.t in w'.tasks && w'.tasks[e.t].Ready? && w'.tasks[e.t].x.op == op
            && w'.tasks[e.t].x.token == PlanToken(e.pick.value, w.plans[e.pick.value].nextIndex)
  {
    PickedNewest(w, e, op, d);
    P.ClaimedNext(w.plans, e.pick.value, op.request, e.files);
    hide P.Newest, P.Claim, StepClaimPlan, P.MarkClaimed, Note, BindsFirst;
    I.Claimed(w, e.t, op, d, e.pick, e.now, e.leaseNow, e.files);
  }

  lemma ClaimEnds(w: World, e: Event, op: Op, d: Decision)
    requires Claiming(w, e, op, d) && e.pick.Some? && e.pick.value in w.plans
             && P.Claim(w.plans, e.pick, op.request, e.files).Refused?
    ensures e.t !in StepClaimPlan(w, e.t, e.pick, e.now, e.leaseNow, e.files).tasks
  {
    PickedNewest(w, e, op, d);
    hide P.Newest, P.Claim, StepClaimPlan, BindsFirst;
    I.Unclaimed(w, e.t, op, d, e.pick, e.now, e.leaseNow, e.files);
  }

  lemma PickedNewest(w: World, e: Event, op: Op, d: Decision)
    requires Claiming(w, e, op, d)
    ensures P.Newest(w.plans, P.Query(op.Profile(), op.taskId.value, op.Namespace()), e.now, e.pick)
    ensures op.caller.EnforcesAgentPolicy()
  {
    hide P.Live, Binds;
    BindsAsAsked(w.plans, op, e.now);
  }

  /** In particular nothing of the task runs while an action of the one plan that binds it is claimed. */
  lemma NothingBesideClaimed(policy: Engine, events: seq<Event>, k: nat, op: Op, d: Decision, p: Id)
    requires k < |events| && Claiming(After(policy, events[..k]), events[k], op, d)
    requires p in After(policy, events[..k]).plans && Binds(After(policy, events[..k]).plans[p], op, events[k].now)
    requires After(policy, events[..k]).plans[p].claimedIndex.Some?
    requires forall other :: other in After(policy, events[..k]).plans && other != p
                             && Binds(After(policy, events[..k]).plans[other], op, events[k].now) ==>
                               After(policy, events[..k]).plans[other].createdAt
                               < After(policy, events[..k]).plans[p].createdAt
    ensures events[k].t !in After(policy, events[..k + 1]).tasks
  {
    hide After;
    BoundClaims(policy, events, k, op, d, p);
    assert events[k].pick == Some(p);
  }

  lemma BindsAsAsked(plans: P.Table, op: Op, now: Time)
    requires !op.caller.HumanCli? && op.taskId.Some?
    ensures forall id :: id in plans ==> (Binds(plans[id], op, now) <==> P.Live(plans[id], QueryOf(op), now))
    ensures QueryOf(op) == P.Query(op.Profile(), op.taskId.value, op.Namespace())
  {
  }

  lemma SightDecides(x: Execution)
    requires Looked(x) && !x.op.caller.HumanCli?
    ensures x.sight.Some? && ViewOfRun(x).Some? && PlansDecide(x.sight.value.plans, x.sight.value.now, x)
  {
  }

  lemma LookedIs(w: World, t: TaskId, e: Event, v: View)
    requires Looks(w, t, e, v)
    ensures e.ClaimPlan? && v.sight == Some(Sight(w.plans, e.now)) && t in w.tasks
  {
  }

  // ---- What runs on a plan is what was proposed ----

  predicate SameUploads(actions: seq<Request>, files: Files, proposed: Files) {
    forall i :: 0 <= i < |actions| && actions[i].Upload? ==>
      actions[i].src in files && actions[i].src in proposed && files[actions[i].src] == proposed[actions[i].src]
  }

  /**
   * Whenever an action of a plan is claimed, it is the proposal's next action, and every file of the plan holds the
   * bytes it held at the proposal.
   */
  lemma ClaimsAreAsProposed(policy: Engine, events: seq<Event>, pick: Id, request: Request, files: Files)
    requires pick in After(policy, events).plans
             && P.Claim(After(policy, events).plans, Some(pick), request, files).Claimed?
    ensures var r := After(policy, events).plans[pick];
            exists m: nat ::
              && ProposedAt(policy, events, m, pick, r) && r.nextIndex < |events[m].actions|
              && request == events[m].actions[r.nextIndex] && SameUploads(events[m].actions, files, events[m].files)
  {
    PlanProposed(policy, events, pick);
    hide After;
    var plans := After(policy, events).plans;
    var m: nat :| ProposedAt(policy, events, m, pick, plans[pick]);
    P.ClaimBindsRequest(plans, Some(pick), request, files, events[m].files);
    P.ClaimedNext(plans, pick, request, files);
    assert ProposedAt(policy, events, m, pick, plans[pick]) && SameUploads(events[m].actions, files, events[m].files);
  }

  /** Proposed at event m, claimed at event k: the action and every uploaded byte are the proposal's. */
  ghost predicate AsProposed(policy: Engine, events: seq<Event>, m: nat, k: nat, x: Execution)
    requires m < k < |events| && x.token.PlanToken?
  {
    var p, plans := x.token.planId, After(policy, events[..k]).plans;
    && p in plans && ProposedAt(policy, events, m, p, plans[p])
    && events[k].ClaimPlan? && events[k].pick == Some(p)
    && x.token.index < |events[m].actions| && x.op.request == events[m].actions[x.token.index]
    && SameUploads(events[m].actions, events[k].files, events[m].files)
    && events[k].now < events[m].now + events[m].ttl && events[k].now < events[m].now + events[m].maxTtl
  }

  lemma ClaimAsProposed(policy: Engine, events: seq<Event>, k: nat, x: Execution, t: TaskId)
    requires x.token.PlanToken? && ViewOfRun(x).Some? && LookedAt(policy, events, t, ViewOfRun(x).value, k)
    ensures k < |events| && exists m: nat :: m < k && AsProposed(policy, events, m, k, x)
  {
    hide After;
    var p, plans := x.token.planId, After(policy, events[..k]).plans;
    LooksClaims(After(policy, events[..k]), t, events[k], x);
    hide Looks, P.Claim;
    ClaimsAreAsProposed(policy, events[..k], p, x.op.request, events[k].files);
    var m: nat :| ProposedAt(policy, events[..k], m, p, plans[p]) && plans[p].nextIndex < |events[..k][m].actions|
                  && x.op.request == events[..k][m].actions[plans[p].nextIndex]
                  && SameUploads(events[..k][m].actions, events[k].files, events[..k][m].files);
    assert events[..k][m] == events[m] && events[..k][..m] == events[..m] && events[..k][..m + 1] == events[..m + 1];
    hide SameUploads;
    assert ProposedAt(policy, events, m, p, plans[p]);
    assert AsProposed(policy, events, m, k, x);
  }

  /** Every execution charged to a plan was claimed, between its arrival and its run, as the proposal had it. */
  lemma ExecutionsAreAsProposed(policy: Engine, events: seq<Event>, i: nat)
    requires i < |After(policy, events).history| && After(policy, events).history[i].token.PlanToken?
    ensures var x := After(policy, events).history[i];
            exists t, m: nat, a: nat, k: nat, l: nat ::
              m < k && Claimant(policy, events, i, x, t, a, k, l) && k < |events| && AsProposed(policy, events, m, k, x)
  {
    hide After, Arrived, RanAt, LookedAt;
    var x := After(policy, events).history[i];
    ClaimedBeforeRun(policy, events, i);
    var t, a: nat, k: nat, l: nat :| Claimant(policy, events, i, x, t, a, k, l);
    ClaimAsProposed(policy, events, k, x, t);
    var m: nat :| m < k && AsProposed(policy, events, m, k, x);
    assert m < k && Claimant(policy, events, i, x, t, a, k, l) && AsProposed(policy, events, m, k, x);
  }

  lemma LooksClaims(w: World, t: TaskId, e: Event, x: Execution)
    requires x.token.PlanToken? && ViewOfRun(x).Some? && Looks(w, t, e, ViewOfRun(x).value)
    ensures e.ClaimPlan? && e.pick == Some(x.token.planId) && x.token.planId in w.plans
    ensures P.Claim(w.plans, Some(x.token.planId), x.op.request, e.files).Claimed?
            && x.token.index == w.plans[x.token.planId].nextIndex && e.now < w.plans[x.token.planId].expiresAt
  {
    assert x.token.planId in w.plans;
    P.ClaimedNext(w.plans, x.token.planId, x.op.request, e.files);
  }

  // ---- What runs on a plan runs while the plan is executing it, unless a sweep came first ----

  /** The plan is executing its n-th action, under a lease. */
  ghost predicate Leased(w: World, p: Id, n: nat, leaseUntil: Time) {
    && p in w.plans && w.plans[p].status.Executing? && w.plans[p].nextIndex == n
    && w.plans[p].claimedIndex == Some(n) && w.plans[p].claimExpiresAt == Some(leaseUntil)
  }

  function LeaseUntil(e: Event, request: Request): Time
    requires e.ClaimPlan?
  {
    A.SaturatingAdd(e.leaseNow, P.LeaseSeconds(request))
  }

  predicate FindsLapsed(e: Event, leaseUntil: Time) {
    e.SweepLeases? && leaseUntil <= e.now
  }

  /** One of the events is a sweep that finds the lease run out. */
  predicate LapsedIn(events: seq<Event>, first: nat, end: nat, leaseUntil: Time) {
    exists j :: first <= j < end && j < |events| && FindsLapsed(events[j], leaseUntil)
  }

  /** Under its lease the plan is as it was claimed; once the lease was found to have run out it has failed. */
  ghost predicate LeaseTold(w: World, p: Id, n: nat, leaseUntil: Time, lapsed: bool) {
    if lapsed then p in w.plans && w.plans[p].status.Failed? else Leased(w, p, n, leaseUntil)
  }

  lemma ClaimLeases(w: World, t: TaskId, e: Event, x: Execution)
    requires x.token.PlanToken? && ViewOfRun(x).Some? && Looks(w, t, e, ViewOfRun(x).value)
    ensures e.ClaimPlan? && Leased(Step(w, e), x.token.planId, x.token.index, LeaseUntil(e, x.op.request))
  {
    LooksClaims(w, t, e, x);
    hide P.Newest, P.Claim;
    I.Claimed(w, t, x.op, w.tasks[t].d, e.pick, e.now, e.leaseNow, e.files);
  }

  lemma SpentStays(w: World, w': World, token: Token)
    requires Tokens(w) && Tokens(w') && w.history <= w'.history && IsSpent(w.ledger, token)
    ensures IsSpent(w'.ledger, token)
  {
    assert Accounted(w, token);
    hide Accounted;
    ExecutedIsSpent(w', w.ledger[token].at);
  }

  lemma UnspentBefore(w: World, e: Event, token: Token)
    requires Inv(w) && !IsSpent(Step(w, e).ledger, token)
    ensures !IsSpent(w.ledger, token)
  {
    hide Inv, Step, Ordered, Uses, ClaimsStay, RowsStay, PlansStay, LeasesStay, PlansFrom, GrantsStay, NoNewUses,
      ApprovalsStay;
    StepKeeps(w, e);
    StepEffect(w, e);
    TokensHold(w);
    TokensHold(Step(w, e));
    hide Tokens;
    if IsSpent(w.ledger, token) { SpentStays(w, Step(w, e), token); }
  }

  lemma NextLease(w: World, e: Event, p: Id, n: nat, leaseUntil: Time, lapsed: bool)
    requires Inv(w) && Ordered(w) && LeaseTold(w, p, n, leaseUntil, lapsed)
    requires !IsSpent(w.ledger, PlanToken(p, n))
    ensures LeaseTold(Step(w, e), p, n, leaseUntil, lapsed || FindsLapsed(e, leaseUntil))
  {
    hide Inv, Step, Ordered, Uses, ClaimsStay, RowsStay, PlansFrom, HistoryFrom, GrantsStay, NoNewUses, ApprovalsStay,
      IsSpent;
    StepEffect(w, e);
    if !lapsed && FindsLapsed(e, leaseUntil) { SweepFails(w, e.now, p); }
  }

  lemma TokensHold(w: World)
    requires Inv(w)
    ensures Tokens(w)
  {
    hide Records, Stories, Claims, Mints, Tasks, Past;
  }

  lemma SweepFails(w: World, now: Time, p: Id)
    requires p in w.plans && P.Overdue(w.plans[p], now)
    ensures var w' := Step(w, SweepLeases(now)); p in w'.plans && w'.plans[p].status.Failed?
  {
  }

  lemma {:induction false} LeaseRuns(policy: Engine, events: seq<Event>, first: nat, end: nat, p: Id, n: nat,
      leaseUntil: Time)
    requires first <= end <= |events| && Leased(After(policy, events[..first]), p, n, leaseUntil)
    requires !IsSpent(After(policy, events[..end]).ledger, PlanToken(p, n))
    ensures LeaseTold(After(policy, events[..end]), p, n, leaseUntil, LapsedIn(events, first, end, leaseUntil))
    decreases end
  {
    hide After, Step, Leased, Inv, Ordered, Uses, FindsLapsed, IsSpent;
    if first < end {
      var last := end - 1;
      assert events[..end][..last] == events[..last] && events[..end][last] == events[last];
      LastStep(policy, events[..end]);
      FromStart(policy, events[..last]);
      UnspentBefore(After(policy, events[..last]), events[last], PlanToken(p, n));
      LeaseRuns(policy, events, first, last, p, n, leaseUntil);
      NextLease(After(policy, events[..last]), events[last], p, n, leaseUntil,
        LapsedIn(events, first, last, leaseUntil));
    }
  }

  /**
   * The exact condition: an execution charged to a plan happens while the plan is executing that very action, under the
   * lease its claim took, if and only if no sweep of leases between the claim and the run read a clock past the lease;
   * after such a sweep the plan has failed, and the execution happens all the same.
   */
  lemma LeaseDecides(policy: Engine, events: seq<Event>, i: nat, t: TaskId, a: nat, k: nat, l: nat)
    requires i < |After(policy, events).history| && After(policy, events).history[i].token.PlanToken?
    requires Claimant(policy, events, i, After(policy, events).history[i], t, a, k, l)
    ensures var x := After(policy, events).history[i];
            && k < |events| && events[k].ClaimPlan?
            && LeaseTold(After(policy, events[..l]), x.token.planId, x.token.index, LeaseUntil(events[k], x.op.request),
                         LapsedIn(events, k + 1, l, LeaseUntil(events[k], x.op.request)))
  {
    hide After, LookedAt, RanAt, Arrived, LeaseTold, Leased, LapsedIn, LeaseUntil, IsSpent;
    var x := After(policy, events).history[i];
    ClaimLeased(policy, events, k, t, x);
    RunUnspent(policy, events, l, t, i, x);
    LeaseRuns(policy, events, k + 1, l, x.token.planId, x.token.index, LeaseUntil(events[k], x.op.request));
  }

  lemma ClaimLeased(policy: Engine, events: seq<Event>, k: nat, t: TaskId, x: Execution)
    requires x.token.PlanToken? && ViewOfRun(x).Some? && LookedAt(policy, events, t, ViewOfRun(x).value, k)
    ensures k < |events| && events[k].ClaimPlan?
    ensures Leased(After(policy, events[..k + 1]), x.token.planId, x.token.index, LeaseUntil(events[k], x.op.request))
  {
    hide After, Looks, Leased, Step, LeaseUntil;
    ClaimLeases(After(policy, events[..k]), t, events[k], x);
    assert events[..k + 1][..k] == events[..k] && events[..k + 1][k] == events[k];
    LastStep(policy, events[..k + 1]);
  }

  lemma RunUnspent(policy: Engine, events: seq<Event>, l: nat, t: TaskId, i: nat, x: Execution)
    requires RanAt(policy, events, l, t, i, x) && !x.token.Unmetered?
    ensures l <= |events| && !IsSpent(After(policy, events[..l]).ledger, x.token)
  {
    hide After, Inv, IsSpent, Ordered, Uses;
    FromStart(policy, events[..l]);
    HeldToken(After(policy, events[..l]), t, x);
  }

  lemma HeldToken(w: World, t: TaskId, x: Execution)
    requires Inv(w) && t in w.tasks && w.tasks[t] == Ready(x) && !x.token.Unmetered?
    ensures !IsSpent(w.ledger, x.token)
  {
    hide Records, Stories, Claims, Tokens, Mints, Past, TaskEvidence, HolderOk;
    AboutTask(w, t);
  }

  /** The only row of a run that proposes one action. */
  function OneAction(op: Op, files: Files, status: P.Status, leaseUntil: Option<Time>): P.Row {
    P.Row(op.Profile(), op.taskId.GetOr(""), [op.request], PlanHash([op.request], files).GetOr([]), 0, 1, status, 0,
      if leaseUntil.Some? then Some(0) else None, leaseUntil, Some(op.session))
  }

  /** The policy lets an agent run the operation under a plan, and a plan can hold it. */
  predicate FitsPlan(policy: Engine, op: Op, d: Decision, files: Files) {
    && MustLook(op) && Plannable(op.request) && RequestHash(op.request, files).Some? && !Blank(op.taskId.value)
    && policy(op.cfg, op.caller, op.request) == Some(d) && !d.effect.Deny?
  }

  lemma OneActionProposed(op: Op, d: Decision, files: Files, policy: Engine)
    requires FitsPlan(policy, op, d, files)
    ensures P.NewRow(op.Profile(), op.taskId.value, [op.request], 1, 1, 0, files, Some(op.session))
            == Some(OneAction(op, files, P.Pending, None))
    ensures PlanHash([op.request], files).Some?
  {
    hide Blank;
    var actions := [op.request];
    assert actions[1..] == [] && PlanHash(actions[1..], files) == Some([]);
    hide PlanHash;
    assert actions[0].profile == op.Profile();
    assert forall i :: 0 <= i < |actions| ==> actions[i] == op.request;
  }

  lemma OneActionApproved(w: World, p: Id, op: Op, d: Decision, files: Files)
    requires FitsPlan(w.policy, op, d, files) && w.plans == map[] && w.tasks == map[]
    ensures var row := Some(OneAction(op, files, P.Pending, None));
            var w' := StepApprovePlan(StepPropose(w, op.caller, op.session, p, row), HumanCli, p, 0);
            && w'.plans == map[p := OneAction(op, files, P.Approved, None)] && w'.tasks == map[]
            && w'.history == w.history && w'.policy == w.policy
  {
    hide Blank, Note;
    var row := OneAction(op, files, P.Pending, None);
    assert P.Approve(map[p := row], p, 0) == map[p := OneAction(op, files, P.Approved, None)];
  }

  lemma OneActionFound(p: Id, op: Op, d: Decision, files: Files, policy: Engine)
    requires FitsPlan(policy, op, d, files)
    ensures var plans := map[p := OneAction(op, files, P.Approved, None)];
            && P.Newest(plans, P.Query(op.Profile(), op.taskId.value, op.Namespace()), 0, Some(p))
            && P.Claim(plans, Some(p), op.request, files) == P.Claimed(p, 0)
  {
    hide Blank, P.NewRow;
    OneActionProposed(op, d, files, policy);
  }

  lemma OneActionClaimed(w: World, t: TaskId, p: Id, op: Op, d: Decision, files: Files)
    requires FitsPlan(w.policy, op, d, files) && w.plans == map[p := OneAction(op, files, P.Approved, None)]
             && w.tasks == map[]
    ensures var w' := StepClaimPlan(StepArrive(w, t, op), t, Some(p), 0, 0, files);
            && w'.plans == map[p := OneAction(op, files, P.Executing, Some(P.LeaseSeconds(op.request)))]
            && t in w'.tasks && w'.tasks[t].Ready? && w'.tasks[t].x.op == op && w'.tasks[t].x.token == PlanToken(p, 0)
            && w'.history == w.history
  {
    hide StepClaimPlan, StepArrive, P.LeaseSeconds, P.MarkClaimed, Note, P.Newest, P.Claim, FitsPlan, OneAction;
    OneActionTask(op, d, files, w.policy);
    OneActionFound(p, op, d, files, w.policy);
    OneActionArrives(w, t, op, d, files);
    I.Claimed(SetTask(w, t, AtPlan(op, d)), t, op, d, Some(p), 0, 0, files);
    assert P.LeaseSeconds(op.request) <= P.MAX_LEASE;
    OneActionMarked(p, op, files, P.LeaseSeconds(op.request));
  }

  lemma OneActionMarked(p: Id, op: Op, files: Files, leaseUntil: Time)
    ensures P.MarkClaimed(map[p := OneAction(op, files, P.Approved, None)], p, 0, leaseUntil)
            == map[p := OneAction(op, files, P.Executing, Some(leaseUntil))]
  {
    hide PlanHash;
  }

  lemma OneActionArrives(w: World, t: TaskId, op: Op, d: Decision, files: Files)
    requires FitsPlan(w.policy, op, d, files) && t !in w.tasks
    ensures StepArrive(w, t, op) == SetTask(w, t, AtPlan(op, d))
  {
    hide SetTask, Blank;
  }

  lemma OneActionLate(w: World, t: TaskId, p: Id, op: Op, files: Files)
    requires w.plans == map[p := OneAction(op, files, P.Executing, Some(P.LeaseSeconds(op.request)))]
    requires t in w.tasks && w.tasks[t].Ready?
    ensures var w1 := StepSweepLeases(w, P.LeaseSeconds(op.request));
            p in w1.plans && w1.plans[p].status.Failed? && StepExecute(w1, t).history == w.history + [w.tasks[t].x]
  {
    hide P.LeaseSeconds;
  }

  /** And there is such a run for every agent operation that a plan can hold. */
  lemma RunsAfterLapse(policy: Engine, t: TaskId, p: Id, op: Op, d: Decision, files: Files)
    returns (events: seq<Event>)
    requires FitsPlan(policy, op, d, files)
    ensures |events| == 6 && events[5] == Execute(t)
    ensures var w, w' := After(policy, events[..5]), After(policy, events);
            && p in w.plans && w.plans[p].status.Failed?
            && |w'.history| == 1 && w'.history[0].op == op && w'.history[0].token == PlanToken(p, 0)
  {
    hide Step, FitsPlan, StepPropose, StepApprovePlan, StepArrive, StepClaimPlan, StepSweepLeases, StepExecute,
      P.NewRow, OneAction, P.LeaseSeconds;
    var proposal := Propose(op.caller, op.session, p, op.Profile(), op.taskId.GetOr(""), [op.request], 1, 1, 0, files);
    var sweep := SweepLeases(P.LeaseSeconds(op.request));
    events := [proposal, ApprovePlan(HumanCli, p, 0), Arrive(t, op), ClaimPlan(t, Some(p), 0, 0, files), sweep,
      Execute(t)];
    var w0 := Init(policy);
    var w1 := Step(w0, events[0]);
    var w2 := Step(w1, events[1]);
    var w3 := Step(w2, events[2]);
    var w4 := Step(w3, events[3]);
    var w5 := Step(w4, events[4]);
    RunsSix(w0, events);
    OneActionTask(op, d, files, policy);
    OneActionProposed(op, d, files, policy);
    IsPropose(w0, proposal);
    IsApprovePlan(w1, HumanCli, p, 0);
    OneActionApproved(w0, p, op, d, files);
    IsArrive(w2, t, op);
    IsClaim(w3, t, Some(p), 0, 0, files);
    OneActionClaimed(w2, t, p, op, d, files);
    ArePlanSweeps(w4, P.LeaseSeconds(op.request));
    IsExecute(w5, t);
    OneActionLate(w4, t, p, op, files);
  }

  /** A newer plan lets a task run although an action of an older one is claimed. */
  lemma NewerPlanRuns(w: World, t: TaskId, p: Id, q: Id, op: Op, d: Decision, files: Files)
    requires FitsPlan(w.policy, op, d, files) && p != q && t in w.tasks && w.tasks[t] == AtPlan(op, d)
    requires w.plans == map[p := OneAction(op, files, P.Executing, Some(P.LEASE)).(expiresAt := 3),
                            q := OneAction(op, files, P.Approved, None).(createdAt := 1, expiresAt := 3)]
    ensures Binds(w.plans[p], op, 2) && w.plans[p].claimedIndex.Some?
    ensures var w' := StepClaimPlan(w, t, Some(q), 2, 2, files);
            t in w'.tasks && w'.tasks[t].Ready? && w'.tasks[t].x.token == PlanToken(q, 0)
  {
    OneActionProposed(op, d, files, w.policy);
    hide FitsPlan, PlanHash, Blank;
    OneActionTask(op, d, files, w.policy);
    var e := ClaimPlan(t, Some(q), 2, 2, files);
    assert Claiming(w, e, op, d);
    hide StepClaimPlan;
    ClaimOutcome(w, e, op, d, p);
  }

  lemma OneActionTask(op: Op, d: Decision, files: Files, policy: Engine)
    requires FitsPlan(policy, op, d, files)
    ensures op.taskId.Some? && op.caller.EnforcesAgentPolicy()
  {
  }

  lemma RunsSix(w: World, events: seq<Event>)
    requires |events| == 6
    ensures Run(w, events[..5])
            == Step(Step(Step(Step(Step(w, events[0]), events[1]), events[2]), events[3]), events[4])
    ensures Run(w, events) == Step(Run(w, events[..5]), events[5])
  {
    hide Step;
    assert events == events[..5] + [events[5]];
    RunLast(w, events[..5], events[5]);
    RunTwo(w, events[..5]);
    RunTwo(Step(Step(w, events[0]), events[1]), events[..5][2..]);
    var rest := events[..5][2..][2..];
    assert rest == [events[4]];
    var four := Step(Step(Step(Step(w, events[0]), events[1]), events[2]), events[3]);
    assert Run(four, rest) == Run(Step(four, events[4]), rest[1..]);
  }

  lemma RunTwo(w: World, events: seq<Event>)
    requires |events| >= 2
    ensures Run(w, events) == Run(Step(Step(w, events[0]), events[1]), events[2..])
  {
    hide Step;
    assert events[1..][1..] == events[2..];
  }
}
