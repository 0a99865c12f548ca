/**
  What a restart makes of the actions it finds, and what may still become of one it denied:
  each as an exact condition.
 */
module GovernanceInterruptions {
  import opened Options
  import opened GovernanceModel
  import opened GovernancePlans
  import opened GovernanceSafety
  import opened GovernanceRecovery
  import opened GovernanceRuns
  import opened GovernanceTheorems

  // ------------------------------------------------------------------ which actions are touched

  predicate Touches(write: Write, i: nat) {
    (write.Commit? && write.commitAt == i) || (write.SetStatus? && write.statusAt == i)
  }

  predicate LeavesAlone(writes: seq<Write>, i: nat) {
    forall write :: write in writes ==> !Touches(write, i)
  }

  lemma OneWriteLeavesAlone(w: World, write: Write, i: nat)
    requires i < |w.actions| && !Touches(write, i)
    ensures i < |Apply(w, write).actions| && Apply(w, write).actions[i] == w.actions[i]
  {
    hide ExecutedRecord, DecidedMemory;
  }

  lemma {:induction false} UntouchedStays(w: World, writes: seq<Write>, i: nat)
    requires i < |w.actions| && LeavesAlone(writes, i)
    ensures i < |Run(w, writes).actions| && Run(w, writes).actions[i] == w.actions[i]
    decreases |writes|
  {
    if writes != [] {
      var init, last := writes[..|writes| - 1], writes[|writes| - 1];
      assert writes == init + [last];
      UntouchedStays(w, init, i);
      OneWriteLeavesAlone(Run(w, init), last, i);
      hide Apply;
    }
  }

  lemma ExecutionLeavesOthersAlone(w: World, j: nat, actor: Actor, now: int, i: nat)
    requires i != j
    ensures LeavesAlone(ExecutePlan(w, j, actor, now).writes, i)
  {
    hide AuthorityHolds, Sanctioned, Outcome, EvidencePack, ExecutedRecord;
  }

  lemma RoundLeavesOthersAlone(w: World, j: nat, actor: Actor, now: int, i: nat)
    requires i != j || (i < |w.actions| && w.actions[i].status != Pending)
    ensures LeavesAlone(RecoverPlan(w, j, actor, now).writes, i)
  {
    hide AuthorityHolds, ExecutePlan;
    if i != j {
      ExecutionLeavesOthersAlone(w, j, actor, now, i);
    }
  }

  lemma {:induction false} ThenLeavesAlone(first: Plan, second: Plan, i: nat)
    requires LeavesAlone(first.writes, i) && LeavesAlone(second.writes, i)
    ensures LeavesAlone(Then(first, second).writes, i)
  {
  }

  /** A recovery passes over what is not pending. */
  lemma {:induction false} RecoveryLeavesSettledAlone(w: World, j: nat, n: nat, actor: Actor, now: int, i: nat)
    requires i < |w.actions| && w.actions[i].status != Pending
    ensures LeavesAlone(RecoverFrom(w, j, n, actor, now).writes, i)
    decreases n - j
  {
    hide Run, RecoverPlan;
    if j < n {
      var one := RecoverPlan(w, j, actor, now);
      RoundLeavesOthersAlone(w, j, actor, now, i);
      UntouchedStays(w, one.writes, i);
      RecoveryLeavesSettledAlone(Run(w, one.writes), j + 1, n, actor, now, i);
      ThenLeavesAlone(one, RecoverFrom(Run(w, one.writes), j + 1, n, actor, now), i);
    }
  }

  lemma {:induction false} ReplayLeavesAlone(w: World, j: nat, n: nat, i: nat)
    ensures LeavesAlone(ReplayFrom(w, j, n).writes, i)
    decreases n - j
  {
    hide Run, Verifies;
    if j < n {
      ReplayLeavesAlone(Run(w, ReplayPlan(w, j).writes), j + 1, n, i);
    }
  }

  lemma RequestLeavesAlone(w: World, room: nat, agent: string, name: string, key: string, actor: Actor, now: int, i: nat)
    requires i < |w.actions|
    ensures LeavesAlone(RequestActionPlan(w, room, agent, name, key, actor, now).writes, i)
  {
    hide Run, ExecutePlan, Governed, InRoom, Authorize, NewAction;
    if Governed(w, agent, now) {
      ExecutionLeavesOthersAlone(Run(w, RequestWrites(w, room, agent, name, key, now)), |w.actions|, actor, now, i);
    }
  }

  lemma DecisionLeavesOthersAlone(w: World, approval: nat, approve: bool, actor: Actor, now: int, i: nat)
    requires i < |w.actions| && w.actions[i].ask.approval != Some(approval)
    ensures LeavesAlone(DecideApprovalPlan(w, approval, approve, actor, now).writes, i)
  {
    hide Run, ExecutePlan, AuthorityHolds;
    var j := ActionWithApproval(w, approval);
    if j < |w.actions| && ApprovalAt(w, approval) < |w.approvals| {
      var ask := w.actions[j].ask;
      var writes := [ResolveApproval(ApprovalAt(w, approval), Approved), AddDecision(ask.key), Append(Noted("HUMAN_APPROVED", ask.agent))];
      ExecutionLeavesOthersAlone(w, j, actor, now, i);
      ExecutionLeavesOthersAlone(Run(w, writes), j, actor, now, i);
    }
  }

  lemma MandatesLeaveAlone(w: World, agent: string, productBuild: bool, lifecycle: Lifecycle, now: int, i: nat)
    ensures LeavesAlone(AssignMandatePlan(w, agent, productBuild, now).writes, i) && LeavesAlone(UpdateMandatePlan(w, agent, lifecycle, now).writes, i)
  {
    hide Run, HasPassport;
  }

  /** The one operation that may touch an action that is not pending is a decision on its own approval. */
  lemma {:induction false} PlansLeaveSettledAlone(w: World, op: Op, actor: Actor, now: int, i: nat)
    requires i < |w.actions| && w.actions[i].status != Pending
    requires op.DecideApproval? ==> w.actions[i].ask.approval != Some(op.approval)
    ensures LeavesAlone(PlanOf(w, op, actor, now).writes, i)
  {
    hide AssignMandatePlan, UpdateMandatePlan, RequestActionPlan, DecideApprovalPlan, RecoverFrom, ReplayFrom, Governed, InRoom, Run, DecidedMemory;
    match op {
      case AssignMandate(agent, productBuild) => MandatesLeaveAlone(w, agent, productBuild, Suspend, now, i);
      case UpdateMandate(agent, lifecycle) => MandatesLeaveAlone(w, agent, false, lifecycle, now, i);
      case RequestAction(room, agent, name, key) => RequestLeavesAlone(w, room, agent, name, key, actor, now, i);
      case DecideApproval(approval, approve) => DecisionLeavesOthersAlone(w, approval, approve, actor, now, i);
      case Initialize =>
        RecoveryLeavesSettledAlone(w, 0, |w.actions|, actor, now, i);
        ReplayLeavesAlone(Run(w, RecoverFrom(w, 0, |w.actions|, actor, now).writes), 0, |w.actions|, i);
      case _ =>
    }
  }

  lemma {:induction false} CallLeavesSettledAlone(w: World, call: Call, i: nat)
    requires i < |w.actions| && w.actions[i].status != Pending
    requires call.op.DecideApproval? ==> w.actions[i].ask.approval != Some(call.op.approval)
    ensures var w' := Run(w, Made(w, call)); i < |w'.actions| && w'.actions[i] == w.actions[i]
  {
    PlansLeaveSettledAlone(w, call.op, call.actor, call.now, i);
    hide PlanOf, Run;
    UntouchedStays(w, Made(w, call), i);
  }

  // ------------------------------------------------------------------ what a denial may still become

  /** An action that was denied and never had an approval stays as it is in every later world. */
  lemma {:induction false} DenialWithoutApprovalIsFinal(w: World, calls: seq<Call>, i: nat)
    requires Inv(w) && i < |w.actions| && w.actions[i].status == Turned && w.actions[i].ask.approval == None
    ensures var w' := After(w, calls);
            i < |w'.actions| && w'.actions[i] == w.actions[i] && w'.actions[i].count == 0
    decreases |calls|
  {
    assert ActionSound(w.actions[i]);
    hide Inv, Made, Run;
    if calls == [] {
      NothingIsProper(w);
    } else {
      var init, last := calls[..|calls| - 1], calls[|calls| - 1];
      DenialWithoutApprovalIsFinal(w, init, i);
      CallLeavesSettledAlone(After(w, init), last, i);
      RunAppends(w, Trace(w, init), Made(After(w, init), last));
    }
  }

  lemma RejectingCommitsNothing(w: World, approval: nat, actor: Actor, now: int)
    ensures forall write :: write in DecideApprovalPlan(w, approval, false, actor, now).writes ==> !write.Commit?
  {
    hide Run, ExecutePlan, AuthorityHolds;
  }

  lemma {:induction false} NoCommitNoCount(writes: seq<Write>, i: nat)
    requires forall write :: write in writes ==> !write.Commit?
    ensures CommitCount(writes, i) == 0
  {
    if writes != [] {
      assert writes == writes[..|writes| - 1] + [writes[|writes| - 1]];
      NoCommitNoCount(writes[..|writes| - 1], i);
    }
  }

  lemma {:induction false} RejectingExecutesNothing(w: World, approval: nat, actor: Actor, now: int, i: nat)
    requires Inv(w) && i < |w.actions| && w.actions[i].count == 0
    ensures var w' := Run(w, DecideApprovalPlan(w, approval, false, actor, now).writes);
            i < |w'.actions| && w'.actions[i].status != Executed
  {
    var writes := DecideApprovalPlan(w, approval, false, actor, now).writes;
    DecideApprovalIsProper(w, approval, false, actor, now);
    RejectingCommitsNothing(w, approval, actor, now);
    NoCommitNoCount(writes, i);
    CommitsAreCounted(w, writes, i);
    HistoryOnlyGrows(w, writes);
    LegalKeeps(w, writes);
    ExecutedMeansCounted(Run(w, writes), i);
    hide Inv, Run, DecideApprovalPlan, Legal, CommitCount;
  }

  /** The call is the human approval of this very action, still open, and the authority is there. */
  predicate ApprovesWithAuthority(w: World, call: Call, i: nat)
    requires i < |w.actions|
  {
    var ask := w.actions[i].ask;
    && call.op.DecideApproval? && call.op.approve && ask.approval == Some(call.op.approval)
    && (var j := ApprovalAt(w, call.op.approval);
        j < |w.approvals| && (w.approvals[j].status == Awaiting || w.approvals[j].status == Approved))
    && AuthorityHolds(w, ask, call.actor, call.now)
  }

  /**
    What executes a denied action: of all completed calls exactly the approval of its own
    approval, while that is waiting or approved, under the action's authority. So an action
    that policy had allowed without an approval is never executed once a restart denied it.
   */
  lemma {:induction false} DeniedExecutesIff(w: World, call: Call, i: nat)
    requires Inv(w) && i < |w.actions| && w.actions[i].status == Turned && Complete(w, call)
    ensures var w' := Run(w, Made(w, call));
            i < |w'.actions| && (w'.actions[i].status == Executed <==> ApprovesWithAuthority(w, call, i))
  {
    assert w.actions[i].count == 0 by { assert ActionSound(w.actions[i]); }
    hide Inv, Run, AuthorityHolds, DecideApprovalPlan, Made, Complete, PlanOf;
    if call.op.DecideApproval? && w.actions[i].ask.approval == Some(call.op.approval) {
      CompleteDecision(w, call);
      if call.op.approve {
        ApprovalExecutesIff(w, i, call.op.approval, call.actor, call.now);
      } else {
        RejectingExecutesNothing(w, call.op.approval, call.actor, call.now, i);
      }
    } else {
      CallLeavesSettledAlone(w, call, i);
    }
  }

  lemma CompleteDecision(w: World, call: Call)
    requires Complete(w, call) && call.op.DecideApproval?
    ensures Made(w, call) == DecideApprovalPlan(w, call.op.approval, call.op.approve, call.actor, call.now).writes
  {
    hide DecideApprovalPlan;
  }

  // ------------------------------------------------------------------ what a restart makes of each action

  /** Writes that leave people, passports, mandates, rooms and approvals alone. */
  predicate Bookkeeping(write: Write) {
    write.SetStatus? || write.PutPack? || write.Commit? || write.Append?
  }

  predicate SameAuthority(w: World, v: World) {
    v == w.(actions := v.actions, ledger := v.ledger, packs := v.packs)
  }

  lemma {:induction false} BookkeepingKeepsAuthority(w: World, writes: seq<Write>)
    requires forall write :: write in writes ==> Bookkeeping(write)
    ensures SameAuthority(w, Run(w, writes))
    decreases |writes|
  {
    if writes != [] {
      var init, last := writes[..|writes| - 1], writes[|writes| - 1];
      assert writes == init + [last];
      BookkeepingKeepsAuthority(w, init);
      OneWriteKeepsAuthority(Run(w, init), last);
      hide Apply;
    }
  }

  lemma OneWriteKeepsAuthority(w: World, write: Write)
    requires Bookkeeping(write)
    ensures SameAuthority(w, Apply(w, write))
  {
    hide ExecutedRecord;
  }

  lemma RoundIsBookkeeping(w: World, i: nat, actor: Actor, now: int)
    ensures forall write :: write in RecoverPlan(w, i, actor, now).writes ==> Bookkeeping(write)
  {
    hide AuthorityHolds, Sanctioned, Outcome, EvidencePack, ExecutedRecord;
  }

  lemma SameAuthoritySameAnswer(w: World, v: World, ask: Ask, actor: Actor, now: int)
    requires SameAuthority(w, v)
    ensures AuthorityHolds(v, ask, actor, now) == AuthorityHolds(w, ask, actor, now) && Sanctioned(v, ask) == Sanctioned(w, ask)
  {
  }

  /** How the human decision on the action's approval stands. */
  function Standing(w: World, ask: Ask): ApprovalStatus
    requires ask.approval.Some? && ApprovalAt(w, ask.approval.value) < |w.approvals|
  {
    w.approvals[ApprovalAt(w, ask.approval.value)].status
  }

  /** What the world at the time of the restart says must become of an action. */
  ghost predicate Settles(w: World, action: Action, after: Action, actor: Actor, now: int) {
    if action.status != Pending then after == action
    else if Sanctioned(w, action.ask) then
      if AuthorityHolds(w, action.ask, actor, now) then after.ask == action.ask && after.status == Executed
      else after == action.(status := Turned, reason := "AUTHORITY_UNAVAILABLE_ON_RESTART")
    else
      && action.ask.approval.Some? && ApprovalAt(w, action.ask.approval.value) < |w.approvals|
      && match Standing(w, action.ask)
         case Refused => after == action.(status := Rejected)
         case Invalidated => after == action.(status := Turned)
         case Awaiting => after == action
         case Approved => false
  }

  lemma {:induction false} StatusChangeSettles(w: World, i: nat, status: ActionStatus, reason: string, told: seq<Write>)
    requires Inv(w) && i < |w.actions| && w.actions[i].status == Pending && (status == Turned || status == Rejected)
    requires told == [] || (|told| == 1 && told[0].Append? && told[0].event.Noted?)
    ensures var w' := Run(w, [SetStatus(i, status, reason)] + told);
            i < |w'.actions| && w'.actions[i] == w.actions[i].(status := status, reason := reason)
  {
    assert ActionSound(w.actions[i]);
    var change := SetStatus(i, status, reason);
    assert Ok(w, change);
    assert Apply(w, change).actions[i] == w.actions[i].(status := status, reason := reason);
    hide Inv, Ok, Run, Legal, ActionSound;
    OneWrite(w, change);
    if told == [] {
      assert [change] + told == [change];
    } else {
      assert [change] + told == [change, told[0]];
      NotingIsOk(Apply(w, change), told[0]);
      TwoWrites(w, change, told[0]);
    }
  }

  lemma {:induction false} UnsanctionedWaitsOrIsSettled(w: World, i: nat)
    requires Inv(w) && i < |w.actions| && w.actions[i].status == Pending && !Sanctioned(w, w.actions[i].ask)
    ensures var ask := w.actions[i].ask;
            ask.approval.Some? && ApprovalAt(w, ask.approval.value) < |w.approvals| && Standing(w, ask) != Approved
  {
    assert ActionSound(w.actions[i]);
    if w.actions[i].ask.approval.Some? {
      ItsApprovalIsBound(w, i);
    }
    hide Inv, Signed;
  }

  lemma SanctionedIsFound(w: World, i: nat)
    requires Inv(w) && i < |w.actions| && w.actions[i].status == Pending && Sanctioned(w, w.actions[i].ask)
    ensures var ask := w.actions[i].ask;
            || (ask.decision == Allowed && ask.approval == None)
            || (ask.approval.Some? && ApprovalAt(w, ask.approval.value) < |w.approvals| && Standing(w, ask) == Approved)
  {
    hide Inv;
  }

  /** The round of a sanctioned action that lacks its authority. */
  lemma UnauthorizedRound(w: World, i: nat, actor: Actor, now: int)
    requires Inv(w) && i < |w.actions| && w.actions[i].status == Pending
    requires Sanctioned(w, w.actions[i].ask) && !AuthorityHolds(w, w.actions[i].ask, actor, now)
    ensures RecoverPlan(w, i, actor, now).writes ==
            [SetStatus(i, Turned, "AUTHORITY_UNAVAILABLE_ON_RESTART")] + [Append(Noted("POLICY_DENIED", w.actions[i].ask.agent))]
  {
    SanctionedIsFound(w, i);
    hide Inv, AuthorityHolds, Sanctioned, ExecutePlan;
  }

  lemma UnsanctionedRound(w: World, i: nat, actor: Actor, now: int)
    requires Inv(w) && i < |w.actions| && w.actions[i].status == Pending && !Sanctioned(w, w.actions[i].ask)
    ensures var ask := w.actions[i].ask;
            ask.approval.Some? && ApprovalAt(w, ask.approval.value) < |w.approvals| && Standing(w, ask) != Approved
    ensures RecoverPlan(w, i, actor, now).writes ==
            match Standing(w, w.actions[i].ask)
            case Refused => [SetStatus(i, Rejected, w.actions[i].reason)] + []
            case Invalidated => [SetStatus(i, Turned, w.actions[i].reason)] + []
            case Awaiting => []
            case Approved => []
  {
    UnsanctionedWaitsOrIsSettled(w, i);
    assert ActionSound(w.actions[i]);
    hide Inv, AuthorityHolds, Sanctioned, ExecutePlan, Signed;
  }

  lemma {:induction false} RoundSettles(w: World, i: nat, actor: Actor, now: int)
    requires Inv(w) && i < |w.actions|
    ensures var w' := Run(w, RecoverPlan(w, i, actor, now).writes);
            i < |w'.actions| && Settles(w, w.actions[i], w'.actions[i], actor, now)
  {
    var action := w.actions[i];
    NothingIsProper(w);
    if action.status == Pending {
      assert ActionSound(action);
      hide Inv, AuthorityHolds, Sanctioned, Run, Proper, ExecutePlan, ActionSound;
      if Sanctioned(w, action.ask) {
        if AuthorityHolds(w, action.ask, actor, now) {
          ExecutionIsProper(w, i, actor, now);
          ExecutableIsRecovered(w, i, actor, now);
          ExecutionKeepsAsk(w, Run(w, ExecutePlan(w, i, actor, now).writes), i, ExecutePlan(w, i, actor, now).writes);
        } else {
          UnauthorizedRound(w, i, actor, now);
          StatusChangeSettles(w, i, Turned, "AUTHORITY_UNAVAILABLE_ON_RESTART", [Append(Noted("POLICY_DENIED", action.ask.agent))]);
        }
      } else {
        UnsanctionedRound(w, i, actor, now);
        StatusChangeSettles(w, i, Rejected, action.reason, []);
        StatusChangeSettles(w, i, Turned, action.reason, []);
        hide RecoverPlan;
      }
    }
  }

  lemma SettlesTheSame(w: World, v: World, action: Action, after: Action, actor: Actor, now: int)
    requires SameAuthority(w, v) && Settles(v, action, after, actor, now)
    ensures Settles(w, action, after, actor, now)
  {
    SameAuthoritySameAnswer(w, v, action.ask, actor, now);
    hide AuthorityHolds, Sanctioned;
  }

  /** From its own turn on an action is settled, and by the world as the restart found it. */
  lemma {:induction false} RecoverySettles(w: World, k: nat, i: nat, actor: Actor, now: int)
    requires Inv(w) && k <= |w.actions| && i < |w.actions|
    ensures var w' := Run(w, RecoverFrom(w, k, |w.actions|, actor, now).writes);
            && |w'.actions| == |w.actions|
            && (i < k ==> w'.actions[i] == w.actions[i])
            && (i >= k ==> Settles(w, w.actions[i], w'.actions[i], actor, now))
    decreases |w.actions| - k
  {
    hide Inv, Run, RecoverPlan, Proper, Settles, AuthorityHolds, Sanctioned;
    if k == |w.actions| {
      NothingIsProper(w);
    } else {
      var one := RecoverPlan(w, k, actor, now);
      var v := Run(w, one.writes);
      RecoverPlanIsProper(w, k, actor, now);
      ProperKeeps(w, one.writes);
      RoundIsBookkeeping(w, k, actor, now);
      BookkeepingKeepsAuthority(w, one.writes);
      RoundSettles(w, k, actor, now);
      RecoverFromIsProperFrom(v, k + 1, actor, now);
      ThenIsProper(w, one, RecoverFrom(v, k + 1, |w.actions|, actor, now));
      RecoverySettles(v, k + 1, i, actor, now);
      if i > k {
        SettlesTheSame(w, v, w.actions[i], Run(v, RecoverFrom(v, k + 1, |w.actions|, actor, now).writes).actions[i], actor, now);
      }
    }
  }

  /** The rest of a recovery is in order, whatever came before. */
  lemma {:induction false} RecoverFromIsProperFrom(w: World, k: nat, actor: Actor, now: int)
    requires Inv(w) && k <= |w.actions|
    ensures Proper(w, RecoverFrom(w, k, |w.actions|, actor, now).writes)
    decreases |w.actions| - k
  {
    hide Inv, Run, RecoverPlan, Proper;
    if k == |w.actions| {
      NothingIsProper(w);
    } else {
      var one := RecoverPlan(w, k, actor, now);
      RecoverPlanIsProper(w, k, actor, now);
      ProperKeeps(w, one.writes);
      RecoverFromIsProperFrom(Run(w, one.writes), k + 1, actor, now);
      ThenIsProper(w, one, RecoverFrom(Run(w, one.writes), k + 1, |w.actions|, actor, now));
    }
  }

  /**
    A whole restart, in which earlier actions execute and change their own records, still
    makes of every action exactly what the world it found says: sanctioned actions execute
    with their authority and are denied without it, refused and invalidated ones are closed,
    waiting ones wait, and whatever was settled before is not touched.
   */
  lemma {:induction false} RestartSettles(w: World, actor: Actor, now: int, i: nat)
    requires Inv(w) && i < |w.actions|
    ensures var w' := Run(w, InitializePlan(w, actor, now).writes);
            |w'.actions| == |w.actions| && Settles(w, w.actions[i], w'.actions[i], actor, now)
  {
    hide Inv, Run, RecoverFrom, ReplayFrom, Proper, Settles;
    var recovered := RecoverFrom(w, 0, |w.actions|, actor, now);
    RecoverFromIsProper(w, 0, actor, now);
    RecoverySettles(w, 0, i, actor, now);
    var v := Run(w, recovered.writes);
    ReplayFromIsProper(v, 0);
    ThenIsProper(w, recovered, ReplayFrom(v, 0, |w.actions|));
  }

  /**
    A restart denies an allowed or approved action exactly when its authority is gone at that
    moment, and executes it otherwise.
   */
  lemma {:induction false} RestartDeniesWithoutAuthority(w: World, actor: Actor, now: int, i: nat)
    requires Inv(w) && i < |w.actions| && w.actions[i].status == Pending && Sanctioned(w, w.actions[i].ask)
    ensures var w' := Run(w, InitializePlan(w, actor, now).writes);
            && i < |w'.actions|
            && (w'.actions[i].status == Turned <==> !AuthorityHolds(w, w.actions[i].ask, actor, now))
            && (w'.actions[i].status == Executed <==> AuthorityHolds(w, w.actions[i].ask, actor, now))
  {
    hide Inv, Run, InitializePlan, AuthorityHolds, Sanctioned;
    RestartSettles(w, actor, now, i);
  }
}
