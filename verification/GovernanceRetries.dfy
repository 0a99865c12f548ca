/**
  Requests that are cut short by a failed write and sent again with the same idempotency key:
  what becomes of their action, of their approval, and of both at a restart.
 */
module GovernanceRetries {
  import opened Options
  import opened GovernanceModel
  import opened GovernancePlans
  import opened GovernanceSafety
  import opened GovernanceRecovery
  import opened GovernanceRuns
  import opened GovernanceTheorems
  import opened GovernanceInterruptions

  /** Before its action is written a request writes approvals, decisions and notes. */
  predicate Asking(write: Write) {
    write.AddApproval? || write.AddDecision? || (write.Append? && write.event.Noted?)
  }

  predicate OnlyAsked(w: World, v: World) {
    v == w.(approvals := v.approvals, decided := v.decided, ledger := v.ledger, nextId := v.nextId)
  }

  lemma {:induction false} AskingKeeps(w: World, writes: seq<Write>, key: string)
    requires forall write :: write in writes ==> Asking(write)
    ensures OnlyAsked(w, Run(w, writes))
    ensures key in Run(w, writes).decided <==> key in w.decided || AddDecision(key) in writes
    decreases |writes|
  {
    if writes != [] {
      var init, last := writes[..|writes| - 1], writes[|writes| - 1];
      assert writes == init + [last];
      AskingKeeps(w, init, key);
      OneAskingKeeps(Run(w, init), last, key);
      hide Apply;
    }
  }

  lemma OneAskingKeeps(w: World, write: Write, key: string)
    requires Asking(write)
    ensures OnlyAsked(w, Apply(w, write))
    ensures key in Apply(w, write).decided <==> key in w.decided || write == AddDecision(key)
  {
  }

  /** How many writes come before the policy decision: one, if the action needs an approval. */
  function BeforeDecision(w: World, mandate: Mandate, name: string, key: string): nat {
    if Authorize(w, mandate, name, key) == NeedsApproval then 1 else 0
  }

  lemma AuthorizeWritesAsk(w: World, agent: string, mandate: Mandate, name: string, key: string)
    ensures var writes, n := AuthorizeWrites(w, agent, mandate, name, key), BeforeDecision(w, mandate, name, key);
            && |writes| == n + 3 && writes[n] == AddDecision(key)
            && (forall write :: write in writes ==> Asking(write))
            && (forall k :: 0 <= k < n ==> writes[k] != AddDecision(key))
  {
    hide Authorize;
  }

  /** The cut falls before the action is written. */
  lemma {:induction false} CutBeforeAction(w: World, agent: string, mandate: Mandate, name: string, key: string, budget: nat)
    requires budget <= BeforeDecision(w, mandate, name, key) + 3 && key !in w.decided
    ensures budget <= |AuthorizeWrites(w, agent, mandate, name, key)|
    ensures var v := Run(w, AuthorizeWrites(w, agent, mandate, name, key)[..budget]);
            OnlyAsked(w, v) && (key in v.decided <==> BeforeDecision(w, mandate, name, key) < budget)
  {
    var writes, n := AuthorizeWrites(w, agent, mandate, name, key), BeforeDecision(w, mandate, name, key);
    AuthorizeWritesAsk(w, agent, mandate, name, key);
    hide AuthorizeWrites, BeforeDecision;
    AskingKeeps(w, writes[..budget], key);
    if n < budget {
      assert writes[..budget][n] == AddDecision(key);
    } else {
      assert forall k :: 0 <= k < budget ==> writes[..budget][k] == writes[k] != AddDecision(key);
    }
  }

  lemma OnlyAskedKeepsAuthority(w: World, v: World, agent: string, room: nat, key: string, actor: Actor, now: int)
    requires OnlyAsked(w, v)
    ensures Governed(v, agent, now) == Governed(w, agent, now) && InRoom(v, room, agent, actor) == InRoom(w, room, agent, actor)
    ensures ActionWithKey(v, key) == ActionWithKey(w, key) && ActiveMandateAt(v, agent) == ActiveMandateAt(w, agent)
  {
  }

  /** The request is new, known to policy, and neither governed nor placed wrongly. */
  ghost predicate Requestable(w: World, room: nat, agent: string, name: string, key: string, actor: Actor, now: int) {
    && ActionWithKey(w, key) == |w.actions| && name in LABELS && Governed(w, agent, now) && InRoom(w, room, agent, actor)
  }

  lemma RequestableMeans(w: World, room: nat, agent: string, name: string, key: string, actor: Actor, now: int)
    requires Requestable(w, room, agent, name, key, actor, now)
    ensures ActionWithKey(w, key) == |w.actions| && name in LABELS && Governed(w, agent, now) && InRoom(w, room, agent, actor)
    ensures ActiveMandateAt(w, agent) < |w.mandates|
  {
    hide ActionWithKey, HasPassport, InRoom, ActiveMandateAt;
  }

  lemma {:induction false} RequestPlanUnfolds(w: World, room: nat, agent: string, name: string, key: string, actor: Actor, now: int)
    requires Requestable(w, room, agent, name, key, actor, now)
    ensures var asked := RequestWrites(w, room, agent, name, key, now);
            var rest := if Authorize(w, w.mandates[ActiveMandateAt(w, agent)], name, key) == Allowed
                        then ExecutePlan(Run(w, asked), |w.actions|, actor, now).writes else [];
            RequestActionPlan(w, room, agent, name, key, actor, now).writes == asked + rest
  {
    hide Governed, InRoom, RequestWrites, ExecutePlan, Run, Authorize;
    assert RequestWrites(w, room, agent, name, key, now) + [] == RequestWrites(w, room, agent, name, key, now);
  }

  lemma ExecutionIsBookkeeping(w: World, i: nat, actor: Actor, now: int)
    ensures forall write :: write in ExecutePlan(w, i, actor, now).writes ==> Bookkeeping(write)
  {
    hide AuthorityHolds, Sanctioned, Outcome, EvidencePack, ExecutedRecord;
  }

  lemma {:induction false} BookkeepingAddsNoAction(w: World, writes: seq<Write>)
    requires forall write :: write in writes ==> Bookkeeping(write)
    ensures |Run(w, writes).actions| == |w.actions|
    ensures forall i :: 0 <= i < |w.actions| ==> Run(w, writes).actions[i].ask == w.actions[i].ask
    decreases |writes|
  {
    if writes != [] {
      var init, last := writes[..|writes| - 1], writes[|writes| - 1];
      assert writes == init + [last];
      BookkeepingAddsNoAction(w, init);
      OneWriteAddsNoAction(Run(w, init), last);
      hide Apply;
    }
  }

  lemma OneWriteAddsNoAction(w: World, write: Write)
    requires Bookkeeping(write)
    ensures |Apply(w, write).actions| == |w.actions|
    ensures forall i :: 0 <= i < |w.actions| ==> Apply(w, write).actions[i].ask == w.actions[i].ask
  {
  }

  /** The cut falls after the action is written: the action is there, as it was asked for. */
  lemma {:induction false} CutAfterAction(w: World, room: nat, agent: string, name: string, key: string, actor: Actor, now: int, budget: nat)
    requires Inv(w) && Requestable(w, room, agent, name, key, actor, now)
    requires var asked := |RequestWrites(w, room, agent, name, key, now)|; asked <= budget <= |RequestActionPlan(w, room, agent, name, key, actor, now).writes|
    ensures var v := Run(w, RequestActionPlan(w, room, agent, name, key, actor, now).writes[..budget]);
            && |v.actions| == |w.actions| + 1
            && (forall i :: 0 <= i < |w.actions| ==> v.actions[i].ask == w.actions[i].ask)
            && var ask := v.actions[|w.actions|].ask;
               ask.room == room && ask.agent == agent && ask.name == name && ask.key == key
               && ask.decision == Authorize(w, w.mandates[ActiveMandateAt(w, agent)], name, key)
               && ask.approval == (if ask.decision == NeedsApproval then Some(w.nextId) else None)
  {
    RequestPlanUnfolds(w, room, agent, name, key, actor, now);
    RequestAddsItsAction(w, room, agent, name, key, now);
    hide Inv, Governed, InRoom, RequestWrites, AuthorizeWrites, RequestActionPlan, ExecutePlan, Run, Authorize;
    var asked := RequestWrites(w, room, agent, name, key, now);
    var u := Run(w, asked);
    var all := RequestActionPlan(w, room, agent, name, key, actor, now).writes;
    var rest := all[|asked|..];
    assert all[..budget] == asked + rest[..budget - |asked|];
    RunAppends(w, asked, rest[..budget - |asked|]);
    ExecutionIsBookkeeping(u, |w.actions|, actor, now);
    BookkeepingAddsNoAction(u, rest[..budget - |asked|]);
  }

  /** Sent again, an action that is there answers for itself. */
  lemma RepeatedRequestWritesNothing(w: World, room: nat, agent: string, name: string, key: string, actor: Actor, now: int, i: nat)
    requires i < |w.actions| && w.actions[i].ask.key == key && forall j :: 0 <= j < i ==> w.actions[j].ask.key != key
    ensures RequestActionPlan(w, room, agent, name, key, actor, now).writes == []
  {
    assert ActionWithKey(w, key) == i;
    hide Governed, InRoom, RequestWrites, ExecutePlan, Run;
  }

  lemma {:induction false} CutRequestMakes(w: World, room: nat, agent: string, name: string, key: string, actor: Actor, now: int, budget: nat)
    ensures var writes := RequestActionPlan(w, room, agent, name, key, actor, now).writes;
            Made(w, Call(RequestAction(room, agent, name, key), actor, now, budget)) == writes[..if |writes| <= budget then |writes| else budget]
  {
    hide RequestActionPlan;
    var writes := RequestActionPlan(w, room, agent, name, key, actor, now).writes;
    assert writes[..|writes|] == writes;
  }

  lemma {:induction false} ResentRuns(w: World, room: nat, agent: string, name: string, key: string, actor: Actor, now: int, budget: nat, later: int)
    ensures var v := Run(w, Made(w, Call(RequestAction(room, agent, name, key), actor, now, budget)));
            SentTwice(w, RequestAction(room, agent, name, key), actor, now, budget, later) ==
            Run(v, RequestActionPlan(v, room, agent, name, key, actor, later).writes)
  {
    hide Run, Made, RequestActionPlan;
  }

  /** A request sent once, cut after `budget` writes, and then sent again to the end. */
  function SentTwice(w: World, request: Op, actor: Actor, now: int, budget: nat, later: int): World {
    var v := Run(w, Made(w, Call(request, actor, now, budget)));
    Run(v, PlanOf(v, request, actor, later).writes)
  }

  /** The approval a request asks for, still waiting. */
  function AwaitedApproval(id: nat, agent: string, mandate: Mandate, name: string, key: string): Approval {
    Approval(id, agent, mandate.id, key, name, Awaiting)
  }

  /** The approvals that a request adds: one, if policy asks for it. */
  function Asked(w: World, agent: string, mandate: Mandate, name: string, key: string): seq<Approval> {
    if Authorize(w, mandate, name, key) == NeedsApproval then [AwaitedApproval(w.nextId, agent, mandate, name, key)] else []
  }

  predicate Deciding(write: Write) {
    write.AddDecision? || (write.Append? && write.event.Noted?)
  }

  lemma {:induction false} DecidingKeepsApprovals(w: World, writes: seq<Write>)
    requires forall write :: write in writes ==> Deciding(write)
    ensures Run(w, writes).approvals == w.approvals && Run(w, writes).nextId == w.nextId
    decreases |writes|
  {
    if writes != [] {
      var init, last := writes[..|writes| - 1], writes[|writes| - 1];
      assert writes == init + [last];
      DecidingKeepsApprovals(w, init);
      OneDecidingKeepsApprovals(Run(w, init), last);
      hide Apply;
    }
  }

  lemma OneDecidingKeepsApprovals(w: World, write: Write)
    requires Deciding(write)
    ensures Apply(w, write).approvals == w.approvals && Apply(w, write).nextId == w.nextId
  {
  }

  /** The approvals that a cut before the action leaves. */
  lemma {:induction false} CutApprovals(w: World, agent: string, mandate: Mandate, name: string, key: string, budget: nat)
    requires budget <= BeforeDecision(w, mandate, name, key) + 3
    ensures budget <= |AuthorizeWrites(w, agent, mandate, name, key)|
    ensures var v, asked := Run(w, AuthorizeWrites(w, agent, mandate, name, key)[..budget]), BeforeDecision(w, mandate, name, key) == 1 && budget >= 1;
            && v.approvals == w.approvals + (if asked then [AwaitedApproval(w.nextId, agent, mandate, name, key)] else [])
            && v.nextId == w.nextId + (if asked then 1 else 0)
  {
    var writes, rest := AuthorizeWrites(w, agent, mandate, name, key), DecisionWrites(agent, key);
    AuthorizeWritesAsk(w, agent, mandate, name, key);
    var add := AddApproval(AwaitedApproval(w.nextId, agent, mandate, name, key));
    assert forall write :: write in rest ==> Deciding(write);
    assert writes == (if Authorize(w, mandate, name, key) == NeedsApproval then [add] + rest else rest);
    assert Apply(w, add).approvals == w.approvals + [add.approval] && Apply(w, add).nextId == w.nextId + 1;
    hide AuthorizeWrites, Authorize, Apply, Run, DecisionWrites, Deciding, AwaitedApproval;
    if BeforeDecision(w, mandate, name, key) == 1 && budget >= 1 {
      assert writes[..budget] == [add] + rest[..budget - 1];
      RunAppends(w, [add], rest[..budget - 1]);
      OneRun(w, add);
      DecidingKeepsApprovals(Apply(w, add), rest[..budget - 1]);
    } else {
      if budget == 0 {
        assert writes[..0] == rest[..0];
      }
      DecidingKeepsApprovals(w, writes[..budget]);
    }
  }

  lemma {:induction false} OneRun(w: World, a: Write)
    ensures Run(w, [a]) == Apply(w, a)
  {
    hide Apply;
    assert [a][..0] == [] && Run(w, []) == w;
  }

  lemma {:induction false} RequestApprovals(w: World, room: nat, agent: string, name: string, key: string, now: int)
    requires Governed(w, agent, now)
    ensures Run(w, RequestWrites(w, room, agent, name, key, now)).approvals ==
            w.approvals + Asked(w, agent, w.mandates[ActiveMandateAt(w, agent)], name, key)
  {
    var mandate := w.mandates[ActiveMandateAt(w, agent)];
    var writes := AuthorizeWrites(w, agent, mandate, name, key);
    var add := AddAction(NewAction(w, Run(w, writes), room, agent, name, key, now));
    assert RequestWrites(w, room, agent, name, key, now) == writes + [add] && |writes| == BeforeDecision(w, mandate, name, key) + 3 by {
      AuthorizeWritesAsk(w, agent, mandate, name, key);
      hide Run, AuthorizeWrites, Governed, NewAction;
    }
    assert Apply(Run(w, writes), add).approvals == Run(w, writes).approvals by {
      hide Run, AuthorizeWrites, Governed, NewAction;
    }
    assert Asked(w, agent, mandate, name, key) ==
           if BeforeDecision(w, mandate, name, key) == 1 then [AwaitedApproval(w.nextId, agent, mandate, name, key)] else [] by {
      hide Authorize, AwaitedApproval;
    }
    hide *;
    CutApprovals(w, agent, mandate, name, key, |writes|);
    assert writes[..|writes|] == writes;
    RunAppends(w, writes, [add]);
    OneRun(Run(w, writes), add);
  }

  /** A request that runs to its end adds the approval that policy asks for. */
  lemma {:induction false} WholeRequestApprovals(w: World, room: nat, agent: string, name: string, key: string, actor: Actor, now: int)
    requires Inv(w) && Requestable(w, room, agent, name, key, actor, now)
    ensures ActiveMandateAt(w, agent) < |w.mandates|
    ensures Run(w, RequestActionPlan(w, room, agent, name, key, actor, now).writes).approvals ==
            w.approvals + Asked(w, agent, w.mandates[ActiveMandateAt(w, agent)], name, key)
  {
    RequestableMeans(w, room, agent, name, key, actor, now);
    hide *;
    var writes := RequestActionPlan(w, room, agent, name, key, actor, now).writes;
    RequestFitsPlan(w, room, agent, name, key, actor, now);
    CutAfterActionStatus(w, room, agent, name, key, actor, now, |writes|);
    assert writes[..|writes|] == writes;
    RequestApprovals(w, room, agent, name, key, now);
  }

  // ------------------------------------------------------------------ the second sending

  /** How long the request's writes are, with its action, where nothing has decided its key. */
  lemma {:induction false} AskedLength(w: World, room: nat, agent: string, name: string, key: string, now: int)
    requires key !in w.decided && Governed(w, agent, now)
    ensures var mandate := w.mandates[ActiveMandateAt(w, agent)];
            |RequestWrites(w, room, agent, name, key, now)| == BeforeDecision(w, mandate, name, key) + 4 == (if Evaluate(mandate, name) == NeedsApproval then 5 else 4)
  {
    AuthorizeWritesAsk(w, agent, w.mandates[ActiveMandateAt(w, agent)], name, key);
    hide Governed, AuthorizeWrites, Evaluate;
  }

  /** A cut before the action leaves the world but for approvals, decisions and notes; the second sending starts from there. */
  lemma {:induction false} ResentFrom(w: World, room: nat, agent: string, name: string, key: string, actor: Actor, now: int, budget: nat, later: int)
    requires Inv(w) && key !in w.decided
    requires Requestable(w, room, agent, name, key, actor, now) && Requestable(w, room, agent, name, key, actor, later)
    requires budget < |RequestWrites(w, room, agent, name, key, now)|
    ensures ActiveMandateAt(w, agent) < |w.mandates| && budget <= |AuthorizeWrites(w, agent, w.mandates[ActiveMandateAt(w, agent)], name, key)|
    ensures var mandate := w.mandates[ActiveMandateAt(w, agent)];
            var v, n := Run(w, AuthorizeWrites(w, agent, mandate, name, key)[..budget]), BeforeDecision(w, mandate, name, key);
            && Inv(v) && v.actions == w.actions && Requestable(v, room, agent, name, key, actor, later)
            && ActiveMandateAt(v, agent) == ActiveMandateAt(w, agent) && v.mandates == w.mandates
            && (key in v.decided <==> n < budget)
            && v.nextId == w.nextId + (if n == 1 && budget >= 1 then 1 else 0)
            && v.approvals == w.approvals + (if n == 1 && budget >= 1 then [AwaitedApproval(w.nextId, agent, mandate, name, key)] else [])
            && SentTwice(w, RequestAction(room, agent, name, key), actor, now, budget, later) ==
               Run(v, RequestActionPlan(v, room, agent, name, key, actor, later).writes)
  {
    RequestableMeans(w, room, agent, name, key, actor, now);
    var mandate := w.mandates[ActiveMandateAt(w, agent)];
    AskedLength(w, room, agent, name, key, now);
    CutBeforeAction(w, agent, mandate, name, key, budget);
    CutApprovals(w, agent, mandate, name, key, budget);
    CutRequestIsAuthorizing(w, room, agent, name, key, actor, now, budget);
    var v := Run(w, AuthorizeWrites(w, agent, mandate, name, key)[..budget]);
    OnlyAskedKeepsAuthority(w, v, agent, room, key, actor, later);
    CallIsLegal(w, Call(RequestAction(room, agent, name, key), actor, now, budget));
    ResentRuns(w, room, agent, name, key, actor, now, budget, later);
    hide Inv, Governed, InRoom, AuthorizeWrites, RequestWrites, RequestActionPlan, Run, Made, ActionWithKey, ActiveMandateAt, BeforeDecision, Evaluate, SentTwice, AwaitedApproval, Legal;
  }

  /** The action of a request that was cut before it was written, once the request is sent again. */
  lemma {:induction false} CutBeforeActionResent(w: World, room: nat, agent: string, name: string, key: string, actor: Actor, now: int, budget: nat, later: int)
    requires Inv(w) && key !in w.decided
    requires Requestable(w, room, agent, name, key, actor, now) && Requestable(w, room, agent, name, key, actor, later)
    requires budget < |RequestWrites(w, room, agent, name, key, now)|
    ensures ActiveMandateAt(w, agent) < |w.mandates|
    ensures var mandate := w.mandates[ActiveMandateAt(w, agent)];
            var w' := SentTwice(w, RequestAction(room, agent, name, key), actor, now, budget, later);
            var decision := if BeforeDecision(w, mandate, name, key) < budget then Denied else Evaluate(mandate, name);
            && |w'.actions| == |w.actions| + 1
            && var action := w'.actions[|w.actions|];
               && action.ask.key == key && action.ask.room == room && action.ask.agent == agent && action.ask.name == name
               && action.ask.decision == decision && action.status == StatusWhenNew(decision)
               && action.ask.approval == (if decision == NeedsApproval then Some(w.nextId + budget) else None)
  {
    hide *;
    ResentFrom(w, room, agent, name, key, actor, now, budget, later);
    SplitAtAction(w, room, agent, name, key, actor, now, budget);
    var mandate := w.mandates[ActiveMandateAt(w, agent)];
    var v := Run(w, AuthorizeWrites(w, agent, mandate, name, key)[..budget]);
    RequestableMeans(v, room, agent, name, key, actor, later);
    AuthorizeIf(v, mandate, name, key);
    RequestExecutesIff(v, room, agent, name, key, actor, later);
  }

  lemma {:induction false} CutBeforeActionAsks(w: World, room: nat, agent: string, name: string, key: string, actor: Actor, now: int, budget: nat, later: int)
    requires Inv(w) && key !in w.decided
    requires Requestable(w, room, agent, name, key, actor, now) && Requestable(w, room, agent, name, key, actor, later)
    requires budget < |RequestWrites(w, room, agent, name, key, now)|
    ensures ActiveMandateAt(w, agent) < |w.mandates|
    ensures var mandate := w.mandates[ActiveMandateAt(w, agent)];
            SentTwice(w, RequestAction(room, agent, name, key), actor, now, budget, later).approvals ==
            w.approvals
            + (if BeforeDecision(w, mandate, name, key) == 1 && budget >= 1 then [AwaitedApproval(w.nextId, agent, mandate, name, key)] else [])
            + (if BeforeDecision(w, mandate, name, key) == 1 && budget <= 1 then [AwaitedApproval(w.nextId + budget, agent, mandate, name, key)] else [])
  {
    hide *;
    ResentFrom(w, room, agent, name, key, actor, now, budget, later);
    SplitAtAction(w, room, agent, name, key, actor, now, budget);
    var mandate := w.mandates[ActiveMandateAt(w, agent)];
    var v := Run(w, AuthorizeWrites(w, agent, mandate, name, key)[..budget]);
    WholeRequestApprovals(v, room, agent, name, key, actor, later);
    AskedIff(w, v, agent, mandate, name, key);
  }

  /** A decided key is asked for no more. */
  lemma AskedIff(w: World, v: World, agent: string, mandate: Mandate, name: string, key: string)
    requires key !in w.decided
    ensures Asked(v, agent, mandate, name, key) ==
            if BeforeDecision(w, mandate, name, key) == 1 && key !in v.decided then [AwaitedApproval(v.nextId, agent, mandate, name, key)] else []
  {
    hide Evaluate, AwaitedApproval;
  }

  /** A cut before the action leaves a prefix of the policy's writes. */
  lemma {:induction false} CutRequestIsAuthorizing(w: World, room: nat, agent: string, name: string, key: string, actor: Actor, now: int, budget: nat)
    requires Requestable(w, room, agent, name, key, actor, now)
    requires budget <= |AuthorizeWrites(w, agent, w.mandates[ActiveMandateAt(w, agent)], name, key)|
    ensures Made(w, Call(RequestAction(room, agent, name, key), actor, now, budget)) ==
            AuthorizeWrites(w, agent, w.mandates[ActiveMandateAt(w, agent)], name, key)[..budget]
  {
    CutRequestMakes(w, room, agent, name, key, actor, now, budget);
    RequestPlanUnfolds(w, room, agent, name, key, actor, now);
    hide Governed, InRoom, AuthorizeWrites, RequestActionPlan, Made, Authorize, ExecutePlan;
  }

  /** An action that policy allows without approval is no export, so its execution is a commit and its event. */
  lemma {:induction false} AllowedExecutionWrites(w: World, room: nat, agent: string, name: string, key: string, actor: Actor, now: int)
    requires Inv(w) && Requestable(w, room, agent, name, key, actor, now)
    requires Authorize(w, w.mandates[ActiveMandateAt(w, agent)], name, key) == Allowed
    ensures var u := Run(w, RequestWrites(w, room, agent, name, key, now));
            && |u.actions| == |w.actions| + 1 && u.actions[|w.actions|].status == Pending
            && var writes := ExecutePlan(u, |w.actions|, actor, now).writes;
               |writes| == 2 && writes[0].Commit? && writes[0].commitAt == |w.actions| && writes[1].Append?
  {
    var u := Run(w, RequestWrites(w, room, agent, name, key, now));
    assert name in ALLOWED_ACTIONS by {
      assert MandateSound(w.mandates[ActiveMandateAt(w, agent)]) by { assert MandatesSound(w.mandates, w.nextId); }
    }
    AllowedRequestIsExecutable(w, room, agent, name, key, actor, now);
    RequestIsProper(w, room, agent, name, key, now);
    RequestAddsItsAction(w, room, agent, name, key, now);
    assert u.actions[|w.actions|].ask.name == name && u.actions[|w.actions|].status == Pending;
    hide Inv, Governed, InRoom, Run, Proper, RequestWrites, AuthorizeWrites, NewAction, Authorize, ExecutePlan, Executable;
    ProperKeeps(w, RequestWrites(w, room, agent, name, key, now));
    ExecutionPlanUnfolds(u, |w.actions|, actor, now);
    AllowedIsNoExport(name);
    hide Outcome, EvidencePack, ExecutedRecord;
  }

  lemma AllowedIsNoExport(name: string)
    requires name in ALLOWED_ACTIONS
    ensures name != "evidence_export"
  {
    assert |"inventory_report"| == 16 && |"verify_integrity"| == 16 && |"evidence_export"| == 15;
  }

  lemma {:induction false} CutExecution(u: World, writes: seq<Write>, i: nat, m: nat)
    requires i < |u.actions| && |writes| == 2 && writes[0].Commit? && writes[0].commitAt == i && writes[1].Append? && m <= 2
    ensures var v := Run(u, writes[..m]);
            && |v.actions| == |u.actions| && v.approvals == u.approvals
            && v.actions[i].status == (if m == 0 then u.actions[i].status else Executed)
  {
    assert writes[..0] == [] && writes[..1] == [writes[0]] && writes[..2] == [writes[0], writes[1]];
    OneRun(u, writes[0]);
    assert [writes[0], writes[1]][..1] == [writes[0]];
    assert Run(u, [writes[0], writes[1]]) == Apply(Run(u, [writes[0]]), writes[1]);
    assert Run(u, []) == u;
    hide Run;
  }

  /** The action of a request that was cut after it was written is what the first sending left of it. */
  lemma {:induction false} CutAfterActionStatus(w: World, room: nat, agent: string, name: string, key: string, actor: Actor, now: int, n: nat)
    requires Inv(w) && Requestable(w, room, agent, name, key, actor, now)
    requires var asked := |RequestWrites(w, room, agent, name, key, now)|; asked <= n <= |RequestActionPlan(w, room, agent, name, key, actor, now).writes|
    ensures var v := Run(w, RequestActionPlan(w, room, agent, name, key, actor, now).writes[..n]);
            var decision := Authorize(w, w.mandates[ActiveMandateAt(w, agent)], name, key);
            && |v.actions| == |w.actions| + 1
            && v.actions[|w.actions|].status ==
                 (if decision == Allowed && n == |RequestWrites(w, room, agent, name, key, now)| then Pending else StatusWhenNew(decision))
            && v.approvals == Run(w, RequestWrites(w, room, agent, name, key, now)).approvals
  {
    var asked := RequestWrites(w, room, agent, name, key, now);
    var u, all := Run(w, asked), RequestActionPlan(w, room, agent, name, key, actor, now).writes;
    var rest := all[|asked|..];
    RequestableMeans(w, room, agent, name, key, actor, now);
    hide *;
    RequestPlanUnfolds(w, room, agent, name, key, actor, now);
    AskedActionStatus(w, room, agent, name, key, now);
    assert all[..n] == asked + rest[..n - |asked|];
    RunAppends(w, asked, rest[..n - |asked|]);
    if Authorize(w, w.mandates[ActiveMandateAt(w, agent)], name, key) == Allowed {
      AllowedExecutionWrites(w, room, agent, name, key, actor, now);
      CutExecution(u, rest, |w.actions|, n - |asked|);
      ResentStatus(Allowed, 0);
    } else {
      assert rest[..n - |asked|] == [];
      NothingIsProper(u);
    }
  }

  lemma {:induction false} AskedActionStatus(w: World, room: nat, agent: string, name: string, key: string, now: int)
    requires Inv(w) && Governed(w, agent, now) && ActionWithKey(w, key) == |w.actions| && name in LABELS
    ensures var u, decision := Run(w, RequestWrites(w, room, agent, name, key, now)), Authorize(w, w.mandates[ActiveMandateAt(w, agent)], name, key);
            |u.actions| == |w.actions| + 1 && (decision != Allowed ==> u.actions[|w.actions|].status == StatusWhenNew(decision))
  {
    RequestAddsItsAction(w, room, agent, name, key, now);
    hide Inv, Governed, RequestWrites, Run, Authorize;
  }

  /** Sent again after its action was written, a request changes nothing. */
  lemma {:induction false} ResentAfterActionChangesNothing(w: World, room: nat, agent: string, name: string, key: string, actor: Actor, now: int, n: nat, later: int)
    requires Inv(w) && Requestable(w, room, agent, name, key, actor, now)
    requires var asked := |RequestWrites(w, room, agent, name, key, now)|; asked <= n <= |RequestActionPlan(w, room, agent, name, key, actor, now).writes|
    ensures var v := Run(w, RequestActionPlan(w, room, agent, name, key, actor, now).writes[..n]);
            Run(v, RequestActionPlan(v, room, agent, name, key, actor, later).writes) == v
  {
    assert forall j :: 0 <= j < |w.actions| ==> w.actions[j].ask.key != key;
    CutAfterAction(w, room, agent, name, key, actor, now, n);
    hide Inv, Requestable, RequestWrites, RequestActionPlan, Run, Evaluate, ActiveMandateAt, Authorize;
    var v := Run(w, RequestActionPlan(w, room, agent, name, key, actor, now).writes[..n]);
    RepeatedRequestWritesNothing(v, room, agent, name, key, actor, later, |w.actions|);
    NothingIsProper(v);
  }

  lemma {:induction false} CutAfterActionResent(w: World, room: nat, agent: string, name: string, key: string, actor: Actor, now: int, budget: nat, later: int)
    requires Inv(w) && key !in w.decided
    requires Requestable(w, room, agent, name, key, actor, now)
    requires budget >= |RequestWrites(w, room, agent, name, key, now)|
    ensures var mandate := w.mandates[ActiveMandateAt(w, agent)];
            var w' := SentTwice(w, RequestAction(room, agent, name, key), actor, now, budget, later);
            var decision := Evaluate(mandate, name);
            && |w'.actions| == |w.actions| + 1
            && var action := w'.actions[|w.actions|];
               && action.ask.key == key && action.ask.room == room && action.ask.agent == agent && action.ask.name == name
               && action.ask.decision == decision
               && action.status == (if decision == Allowed && budget == 4 then Pending else StatusWhenNew(decision))
               && action.ask.approval == (if decision == NeedsApproval then Some(w.nextId) else None)
  {
    RequestableMeans(w, room, agent, name, key, actor, now);
    hide *;
    AskedLength(w, room, agent, name, key, now);
    AllowedPlanIsLonger(w, room, agent, name, key, actor, now);
    RequestFitsPlan(w, room, agent, name, key, actor, now);
    var writes := RequestActionPlan(w, room, agent, name, key, actor, now).writes;
    var n := if |writes| <= budget then |writes| else budget;
    CutRequestMakes(w, room, agent, name, key, actor, now, budget);
    CutAfterAction(w, room, agent, name, key, actor, now, n);
    CutAfterActionStatus(w, room, agent, name, key, actor, now, n);
    ResentAfterActionChangesNothing(w, room, agent, name, key, actor, now, n, later);
    ResentRuns(w, room, agent, name, key, actor, now, budget, later);
    AuthorizeIf(w, w.mandates[ActiveMandateAt(w, agent)], name, key);
  }

  lemma {:induction false} CutAfterActionAsks(w: World, room: nat, agent: string, name: string, key: string, actor: Actor, now: int, budget: nat, later: int)
    requires Inv(w) && Requestable(w, room, agent, name, key, actor, now)
    requires budget >= |RequestWrites(w, room, agent, name, key, now)|
    ensures ActiveMandateAt(w, agent) < |w.mandates|
    ensures SentTwice(w, RequestAction(room, agent, name, key), actor, now, budget, later).approvals ==
            w.approvals + Asked(w, agent, w.mandates[ActiveMandateAt(w, agent)], name, key)
  {
    RequestableMeans(w, room, agent, name, key, actor, now);
    hide *;
    RequestApprovals(w, room, agent, name, key, now);
    RequestFitsPlan(w, room, agent, name, key, actor, now);
    var writes := RequestActionPlan(w, room, agent, name, key, actor, now).writes;
    var n := if |writes| <= budget then |writes| else budget;
    CutRequestMakes(w, room, agent, name, key, actor, now, budget);
    CutAfterActionStatus(w, room, agent, name, key, actor, now, n);
    ResentAfterActionChangesNothing(w, room, agent, name, key, actor, now, n, later);
    ResentRuns(w, room, agent, name, key, actor, now, budget, later);
  }

  lemma RequestFitsPlan(w: World, room: nat, agent: string, name: string, key: string, actor: Actor, now: int)
    requires Requestable(w, room, agent, name, key, actor, now)
    ensures Governed(w, agent, now)
    ensures |RequestWrites(w, room, agent, name, key, now)| <= |RequestActionPlan(w, room, agent, name, key, actor, now).writes|
  {
    RequestPlanUnfolds(w, room, agent, name, key, actor, now);
    hide *;
  }

  lemma AuthorizeIf(w: World, mandate: Mandate, name: string, key: string)
    ensures Authorize(w, mandate, name, key) == if key in w.decided then Denied else Evaluate(mandate, name)
  {
    hide Evaluate;
  }

  lemma {:induction false} AllowedPlanIsLonger(w: World, room: nat, agent: string, name: string, key: string, actor: Actor, now: int)
    requires Inv(w) && Requestable(w, room, agent, name, key, actor, now)
    ensures Authorize(w, w.mandates[ActiveMandateAt(w, agent)], name, key) == Allowed ==>
              |RequestActionPlan(w, room, agent, name, key, actor, now).writes| == |RequestWrites(w, room, agent, name, key, now)| + 2
  {
    if Authorize(w, w.mandates[ActiveMandateAt(w, agent)], name, key) == Allowed {
      AllowedExecutionWrites(w, room, agent, name, key, actor, now);
      RequestPlanUnfolds(w, room, agent, name, key, actor, now);
      hide Inv, Governed, InRoom, RequestWrites, RequestActionPlan, ExecutePlan, Run, Authorize;
    }
  }

  lemma {:induction false} SplitAtAction(w: World, room: nat, agent: string, name: string, key: string, actor: Actor, now: int, budget: nat)
    requires key !in w.decided && Requestable(w, room, agent, name, key, actor, now)
    ensures Governed(w, agent, now) && ActiveMandateAt(w, agent) < |w.mandates|
    ensures var mandate := w.mandates[ActiveMandateAt(w, agent)];
            && BeforeDecision(w, mandate, name, key) == (if Evaluate(mandate, name) == NeedsApproval then 1 else 0)
            && |RequestWrites(w, room, agent, name, key, now)| == BeforeDecision(w, mandate, name, key) + 4
  {
    RequestableMeans(w, room, agent, name, key, actor, now);
    AskedLength(w, room, agent, name, key, now);
    hide *;
  }

  /** How the action ends when its request was cut after `budget` writes and then sent again. */
  function StatusWhenResent(decision: Decision, budget: nat): ActionStatus {
    match decision
    case Denied => Turned
    case NeedsApproval => if 2 <= budget <= 4 then Turned else Pending
    case Allowed => if 1 <= budget <= 3 then Turned else if budget == 4 then Pending else Executed
  }

  /** The approval asked for last: the second one, if the cut fell right after the first. */
  function LastAsked(w: World, budget: nat): nat {
    if budget == 1 then w.nextId + 1 else w.nextId
  }

  lemma {:induction false} CountOfNew(w: World, i: nat)
    requires Inv(w) && i < |w.actions|
    ensures w.actions[i].count == if w.actions[i].status == Executed then 1 else 0
  {
    ExecutedMeansCounted(w, i);
  }

  /** Both sendings are calls of a run. */
  lemma {:induction false} SentTwiceIsSound(w: World, request: Op, actor: Actor, now: int, budget: nat, later: int)
    requires Inv(w)
    ensures Inv(SentTwice(w, request, actor, now, budget, later))
    ensures ActionsGrow(w.actions, SentTwice(w, request, actor, now, budget, later).actions)
  {
    var first := Call(request, actor, now, budget);
    var v := Run(w, Made(w, first));
    CallIsLegal(w, first);
    PlanIsProper(v, request, actor, later);
    HistoryOnlyGrows(w, Made(w, first));
    HistoryOnlyGrows(v, PlanOf(v, request, actor, later).writes);
    hide Inv, Run, Made, PlanOf, Legal;
    LegalKeeps(v, PlanOf(v, request, actor, later).writes);
  }

  /**
    A new request is cut after any number of its writes and then sent again. What becomes of
    its action depends on the cut alone. Where policy allows it: it is executed if nothing had
    been written or the execution had been committed; it is denied, as a replay of itself, if
    the cut fell between policy decision and action record; and if it fell between action
    record and commit it is left pending, since the second sending finds it and does nothing.
    Where policy asks for an approval it waits, or is denied, by the same rule; what policy
    denies is denied.
   */
  lemma {:induction false} InterruptedRequestEnds(w: World, room: nat, agent: string, name: string, key: string, actor: Actor, now: int, budget: nat, later: int)
    requires Inv(w) && key !in w.decided
    requires Requestable(w, room, agent, name, key, actor, now) && Requestable(w, room, agent, name, key, actor, later)
    ensures var decision := Evaluate(w.mandates[ActiveMandateAt(w, agent)], name);
            var w' := SentTwice(w, RequestAction(room, agent, name, key), actor, now, budget, later);
            && |w'.actions| == |w.actions| + 1
            && var action := w'.actions[|w.actions|];
               && action.ask.key == key && action.ask.room == room && action.ask.agent == agent && action.ask.name == name
               && action.status == StatusWhenResent(decision, budget)
               && action.count == (if action.status == Executed then 1 else 0)
               && action.ask.decision == (if action.status == Turned then Denied else decision)
               && action.ask.approval == (if decision == NeedsApproval && action.status == Pending then Some(LastAsked(w, budget)) else None)
  {
    hide *;
    SplitAtAction(w, room, agent, name, key, actor, now, budget);
    var decision := Evaluate(w.mandates[ActiveMandateAt(w, agent)], name);
    if budget < |RequestWrites(w, room, agent, name, key, now)| {
      CutBeforeActionResent(w, room, agent, name, key, actor, now, budget, later);
    } else {
      CutAfterActionResent(w, room, agent, name, key, actor, now, budget, later);
    }
    ResentStatus(decision, budget);
    SentTwiceIsSound(w, RequestAction(room, agent, name, key), actor, now, budget, later);
    CountOfNew(SentTwice(w, RequestAction(room, agent, name, key), actor, now, budget, later), |w.actions|);
    LastAskedIs(w, budget);
  }

  lemma ResentStatus(decision: Decision, budget: nat)
    ensures var n := if decision == NeedsApproval then 1 else 0;
            StatusWhenResent(decision, budget) ==
            if n < budget < n + 4 then Turned else if decision == Allowed && budget == 4 then Pending else StatusWhenNew(decision)
    ensures StatusWhenNew(decision) == Turned <==> decision == Denied
    ensures decision == NeedsApproval ==> StatusWhenNew(decision) == Pending
    ensures StatusWhenNew(Denied) == Turned && StatusWhenNew(Allowed) == Executed
  {
  }

  lemma LastAskedIs(w: World, budget: nat)
    ensures LastAsked(w, budget) == if budget == 1 then w.nextId + 1 else w.nextId
  {
  }

  /** A new request that policy denies on its second sending, though its mandate does not, was cut between decision and action. */
  lemma {:induction false} InterruptedRequestIsDenied(w: World, room: nat, agent: string, name: string, key: string, actor: Actor, now: int, budget: nat, later: int)
    requires Inv(w) && key !in w.decided
    requires Requestable(w, room, agent, name, key, actor, now) && Requestable(w, room, agent, name, key, actor, later)
    requires Evaluate(w.mandates[ActiveMandateAt(w, agent)], name) != Denied
    ensures var w' := SentTwice(w, RequestAction(room, agent, name, key), actor, now, budget, later);
            var n := BeforeDecision(w, w.mandates[ActiveMandateAt(w, agent)], name, key);
            |w'.actions| == |w.actions| + 1 && (w'.actions[|w.actions|].ask.decision == Denied <==> n < budget <= n + 3)
  {
    InterruptedRequestEnds(w, room, agent, name, key, actor, now, budget, later);
    hide Inv, Requestable, SentTwice, Evaluate, ActiveMandateAt;
  }

  // ------------------------------------------------------------- what waits, and for whom

  /** The approvals that the two sendings leave behind, all waiting. */
  lemma {:induction false} InterruptedRequestAsks(w: World, room: nat, agent: string, name: string, key: string, actor: Actor, now: int, budget: nat, later: int)
    requires Inv(w) && key !in w.decided
    requires Requestable(w, room, agent, name, key, actor, now) && Requestable(w, room, agent, name, key, actor, later)
    ensures var mandate := w.mandates[ActiveMandateAt(w, agent)];
            SentTwice(w, RequestAction(room, agent, name, key), actor, now, budget, later).approvals ==
            w.approvals + (if Evaluate(mandate, name) != NeedsApproval then []
                           else [AwaitedApproval(w.nextId, agent, mandate, name, key)]
                                + if budget == 1 then [AwaitedApproval(w.nextId + 1, agent, mandate, name, key)] else [])
  {
    hide *;
    SplitAtAction(w, room, agent, name, key, actor, now, budget);
    if budget < |RequestWrites(w, room, agent, name, key, now)| {
      CutBeforeActionAsks(w, room, agent, name, key, actor, now, budget, later);
    } else {
      CutAfterActionAsks(w, room, agent, name, key, actor, now, budget, later);
      AskedIff(w, w, agent, w.mandates[ActiveMandateAt(w, agent)], name, key);
    }
  }

  /** An approval whose request has an action that asks for another, or for none, is asked for by no action. */
  lemma {:induction false} OrphanIsUnknown(w: World, i: nat, j: nat)
    requires Inv(w) && i < |w.actions| && j < |w.approvals|
    requires w.actions[i].ask.key == w.approvals[j].key && w.actions[i].ask.approval != Some(w.approvals[j].id)
    ensures ActionWithApproval(w, w.approvals[j].id) == |w.actions|
  {
    hide MandatesSound, PacksSound, EventsSound, MemoriesSound, MemoryEventsSound, ActionSound;
    forall k | 0 <= k < |w.actions|
      ensures w.actions[k].ask.approval != Some(w.approvals[j].id)
    {
      assert HasItsApproval(w.actions[k], w.approvals);
    }
  }

  lemma {:induction false} RunsKeepAsks(w: World, calls: seq<Call>, i: nat, j: nat)
    requires Inv(w) && i < |w.actions| && j < |w.approvals|
    ensures var v := After(w, calls);
            && Inv(v) && i < |v.actions| && v.actions[i].ask == w.actions[i].ask
            && j < |v.approvals| && v.approvals[j].(status := w.approvals[j].status) == w.approvals[j]
  {
    RunsAreLegal(w, calls);
    hide Inv, Run, Trace, Legal;
    HistoryOnlyGrows(w, Trace(w, calls));
  }

  /** An agent stays registered. */
  lemma {:induction false} AgentsOnlyGrow(w: World, writes: seq<Write>)
    ensures w.agents <= Run(w, writes).agents
    decreases |writes|
  {
    if writes != [] {
      AgentsOnlyGrow(w, writes[..|writes| - 1]);
      OneWriteKeepsAgents(Run(w, writes[..|writes| - 1]), writes[|writes| - 1]);
      hide Apply;
    }
  }

  lemma OneWriteKeepsAgents(w: World, write: Write)
    ensures w.agents <= Apply(w, write).agents
  {
  }

  lemma {:induction false} AgentStaysRegistered(w: World, request: Op, actor: Actor, now: int, budget: nat, later: int, calls: seq<Call>, agent: string)
    requires agent in w.agents
    ensures agent in After(SentTwice(w, request, actor, now, budget, later), calls).agents
  {
    var first := Call(request, actor, now, budget);
    var v := Run(w, Made(w, first));
    AgentsOnlyGrow(w, Made(w, first));
    AgentsOnlyGrow(v, PlanOf(v, request, actor, later).writes);
    AgentsOnlyGrow(SentTwice(w, request, actor, now, budget, later), Trace(SentTwice(w, request, actor, now, budget, later), calls));
    hide Run, Made, PlanOf, Trace;
  }

  lemma RegisteredIsNotUnknown(w: World, ask: Ask, actor: Actor, now: int)
    requires ask.agent in w.agents
    ensures AuthorityCode(w, ask, actor, now) != 404
  {
    hide InRoom;
  }

  lemma ApprovalIsUnknownIff(w: World, approval: nat, approve: bool, actor: Actor, now: int)
    requires var i := ActionWithApproval(w, approval); i < |w.actions| ==> w.actions[i].ask.agent in w.agents
    ensures DecideApprovalPlan(w, approval, approve, actor, now).reply == Failed(404) <==>
            ActionWithApproval(w, approval) == |w.actions| || ApprovalAt(w, approval) == |w.approvals|
  {
    var i, j := ActionWithApproval(w, approval), ApprovalAt(w, approval);
    hide AuthorityHolds, AuthorityCode, Sanctioned, ExecutePlan, Run, Proper, Resolution, Resolved;
    if i < |w.actions| && j < |w.approvals| {
      RegisteredIsNotUnknown(w, w.actions[i].ask, actor, now);
      ExecutionIsNotUnknown(w, i, actor, now);
      if w.approvals[j].status == Awaiting {
        ResolutionIsProper(w, j, approve, w.actions[i].ask);
        ResolvedKeepsActions(w, j, approve, w.actions[i].ask);
        DecisionUnfolds(w, approval, approve, actor, now);
        ExecutionIsNotUnknown(Run(w, Resolution(j, approve, w.actions[i].ask)), i, actor, now);
      }
    }
  }

  lemma ResolvedKeepsActions(w: World, j: nat, approve: bool, ask: Ask)
    requires j < |w.approvals|
    ensures Resolved(w, j, approve, ask).actions == w.actions && Resolved(w, j, approve, ask).agents == w.agents
  {
  }

  lemma ExecutionIsNotUnknown(w: World, i: nat, actor: Actor, now: int)
    requires i < |w.actions| && w.actions[i].ask.agent in w.agents
    ensures ExecutePlan(w, i, actor, now).reply != Failed(404)
  {
    RegisteredIsNotUnknown(w, w.actions[i].ask, actor, now);
    hide AuthorityHolds, AuthorityCode, Sanctioned, Outcome, EvidencePack, ExecutedRecord;
  }

  /**
    Where policy asks for an approval, the two sendings leave one with the first new id. A human
    who decides it after any later calls is told that there is no such approval exactly if the
    first sending was cut between that approval and its action: nothing ever asks for it then.
   */
  lemma {:induction false} InterruptedApprovalIsOrphanedIff(w: World, room: nat, agent: string, name: string, key: string, actor: Actor, now: int, budget: nat, later: int,
                                                            calls: seq<Call>, approve: bool, human: Actor, time: int)
    requires Inv(w) && key !in w.decided
    requires Requestable(w, room, agent, name, key, actor, now) && Requestable(w, room, agent, name, key, actor, later)
    requires Evaluate(w.mandates[ActiveMandateAt(w, agent)], name) == NeedsApproval
    ensures var w' := SentTwice(w, RequestAction(room, agent, name, key), actor, now, budget, later);
            && |w'.approvals| > |w.approvals| && w'.approvals[|w.approvals|].id == w.nextId && w'.approvals[|w.approvals|].status == Awaiting
            && (DecideApprovalPlan(After(w', calls), w.nextId, approve, human, time).reply == Failed(404) <==> 1 <= budget <= 4)
  {
    var w' := SentTwice(w, RequestAction(room, agent, name, key), actor, now, budget, later);
    var mandate := w.mandates[ActiveMandateAt(w, agent)];
    InterruptedRequestEnds(w, room, agent, name, key, actor, now, budget, later);
    InterruptedRequestAsks(w, room, agent, name, key, actor, now, budget, later);
    RequestableMeans(w, room, agent, name, key, actor, now);
    assert AwaitedApproval(w.nextId, agent, mandate, name, key) == Approval(w.nextId, agent, mandate.id, key, name, Awaiting);
    assert agent in w.agents;
    hide *;
    ResentStatus(NeedsApproval, budget);
    LastAskedIs(w, budget);
    assert w'.approvals[|w.approvals|] == AwaitedApproval(w.nextId, agent, mandate, name, key);
    SentTwiceIsSound(w, RequestAction(room, agent, name, key), actor, now, budget, later);
    var v := After(w', calls);
    RunsKeepAsks(w', calls, |w.actions|, |w.approvals|);
    AgentStaysRegistered(w, RequestAction(room, agent, name, key), actor, now, budget, later, calls, agent);
    if 1 <= budget <= 4 {
      OrphanIsUnknown(v, |w.actions|, |w.approvals|);
    } else {
      UniqueAction(v, |w.actions|, w.nextId);
    }
    ApprovalIsUnknownIff(v, w.nextId, approve, human, time);
  }

  /** The action that waits after the second sending executes once it is approved under authority. */
  lemma {:induction false} WaitingRequestExecutesIff(w: World, room: nat, agent: string, name: string, key: string, actor: Actor, now: int, budget: nat, later: int,
                                                     human: Actor, time: int)
    requires Inv(w) && key !in w.decided
    requires Requestable(w, room, agent, name, key, actor, now) && Requestable(w, room, agent, name, key, actor, later)
    requires Evaluate(w.mandates[ActiveMandateAt(w, agent)], name) == NeedsApproval && !(2 <= budget <= 4)
    ensures var w' := SentTwice(w, RequestAction(room, agent, name, key), actor, now, budget, later);
            var w'' := Run(w', DecideApprovalPlan(w', LastAsked(w, budget), true, human, time).writes);
            && |w.actions| < |w'.actions| && |w.actions| < |w''.actions|
            && (w''.actions[|w.actions|].status == Executed <==> AuthorityHolds(w', w'.actions[|w.actions|].ask, human, time))
  {
    var w' := SentTwice(w, RequestAction(room, agent, name, key), actor, now, budget, later);
    var mandate := w.mandates[ActiveMandateAt(w, agent)];
    InterruptedRequestEnds(w, room, agent, name, key, actor, now, budget, later);
    InterruptedRequestAsks(w, room, agent, name, key, actor, now, budget, later);
    SentTwiceIsSound(w, RequestAction(room, agent, name, key), actor, now, budget, later);
    var at := if budget == 1 then |w.approvals| + 1 else |w.approvals|;
    assert w'.approvals[at] == AwaitedApproval(LastAsked(w, budget), agent, mandate, name, key);
    hide Inv, Requestable, SentTwice, Evaluate, ActiveMandateAt, ActionsGrow, DecideApprovalPlan, AuthorityHolds, Run;
    FirstApprovalExecutesIff(w', |w.actions|, at, human, time);
  }

  /** The action left pending between its record and its commit is settled by the next restart. */
  lemma {:induction false} StrandedRequestIsSettled(w: World, room: nat, agent: string, name: string, key: string, actor: Actor, now: int, later: int,
                                                    restarter: Actor, time: int)
    requires Inv(w) && key !in w.decided
    requires Requestable(w, room, agent, name, key, actor, now) && Requestable(w, room, agent, name, key, actor, later)
    requires Evaluate(w.mandates[ActiveMandateAt(w, agent)], name) == Allowed
    ensures var w' := SentTwice(w, RequestAction(room, agent, name, key), actor, now, 4, later);
            var w'' := Run(w', InitializePlan(w', restarter, time).writes);
            && |w.actions| < |w'.actions| && |w.actions| < |w''.actions| && w'.actions[|w.actions|].status == Pending
            && w''.actions[|w.actions|].status ==
                 (if AuthorityHolds(w', w'.actions[|w.actions|].ask, restarter, time) then Executed else Turned)
  {
    var w' := SentTwice(w, RequestAction(room, agent, name, key), actor, now, 4, later);
    InterruptedRequestEnds(w, room, agent, name, key, actor, now, 4, later);
    SentTwiceIsSound(w, RequestAction(room, agent, name, key), actor, now, 4, later);
    hide Inv, Requestable, SentTwice, Evaluate, ActiveMandateAt, ActionsGrow, InitializePlan, AuthorityHolds, Run;
    RestartDeniesWithoutAuthority(w', restarter, time, |w.actions|);
  }
}
