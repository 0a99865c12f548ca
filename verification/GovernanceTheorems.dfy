/** What holds over every run of the governance service. */
module GovernanceTheorems {
  import opened Options
  import opened GovernanceModel
  import opened GovernancePlans
  import opened GovernanceSafety
  import opened GovernanceRecovery
  import opened GovernanceRuns

  /** One call; only the first `budget` of its writes are made. */
  datatype Call = Call(op: Op, actor: Actor, now: int, budget: nat)

  function Writes(w: World, call: Call): seq<Write> {
    PlanOf(w, call.op, call.actor, call.now).writes
  }

  predicate Complete(w: World, call: Call) {
    |Writes(w, call)| <= call.budget
  }

  function Made(w: World, call: Call): seq<Write> {
    if Complete(w, call) then Writes(w, call) else Writes(w, call)[..call.budget]
  }

  function Trace(w: World, calls: seq<Call>): seq<Write>
    decreases |calls|
  {
    if calls == [] then []
    else
      var before := Trace(w, calls[..|calls| - 1]);
      before + Made(Run(w, before), calls[|calls| - 1])
  }

  function After(w: World, calls: seq<Call>): World {
    Run(w, Trace(w, calls))
  }

  lemma {:induction false} CallIsLegal(w: World, call: Call)
    requires Inv(w)
    ensures Legal(w, Made(w, call)) && Inv(Run(w, Made(w, call)))
  {
    PlanIsProper(w, call.op, call.actor, call.now);
    if !Complete(w, call) {
      CutIsLegal(w, Writes(w, call), call.budget);
    }
    hide Inv, Legal, PlanOf;
    LegalKeeps(w, Made(w, call));
  }

  lemma {:induction false} RunsAreLegal(w: World, calls: seq<Call>)
    requires Inv(w)
    ensures Legal(w, Trace(w, calls)) && Inv(After(w, calls))
    decreases |calls|
  {
    hide Inv, Legal, Made, Run;
    if calls == [] {
      NothingIsProper(w);
    } else {
      var init, last := calls[..|calls| - 1], calls[|calls| - 1];
      RunsAreLegal(w, init);
      CallIsLegal(After(w, init), last);
      RunAppends(w, Trace(w, init), Made(After(w, init), last));
    }
  }

  lemma {:induction false} TraceAppends(w: World, calls: seq<Call>, more: seq<Call>)
    ensures After(w, calls + more) == After(After(w, calls), more)
    decreases |more|
  {
    hide Made, Legal, Inv;
    if more == [] {
      assert calls + more == calls;
    } else {
      var init, last := more[..|more| - 1], more[|more| - 1];
      assert (calls + more)[..|calls + more| - 1] == calls + init && (calls + more)[|calls + more| - 1] == last;
      TraceAppends(w, calls, init);
      RunAppends(w, Trace(w, calls + init), Made(After(w, calls + init), last));
      RunAppends(After(w, calls), Trace(After(w, calls), init), Made(After(w, calls + init), last));
    }
  }

  // -------------------------------------------------------------------------- exactly once

  /**
    Exactly once, with crashes anywhere, recovery included: over every run from an empty
    installation each action is committed at most once and has at most one audit event, and
    an event means a committed execution.
   */
  lemma {:induction false} ExactlyOnce(calls: seq<Call>, i: nat)
    requires i < |After(EMPTY, calls).actions|
    ensures var w := After(EMPTY, calls);
            var id := w.actions[i].ask.id;
            && CommitCount(Trace(EMPTY, calls), i) == w.actions[i].count <= 1
            && EventCount(w.ledger, id) <= w.actions[i].count
  {
    EmptyWorldIsSound();
    RunsAreLegal(EMPTY, calls);
    var w := After(EMPTY, calls);
    CommitsAreCounted(EMPTY, Trace(EMPTY, calls), i);
    AtMostOneExecutionEvent(EMPTY, Trace(EMPTY, calls), w.actions[i].ask.id);
    NoEventBeforeCommit(w, i);
    assert EventsSound(w.ledger, w.actions);
    EventsAreCounted(w.ledger, w.actions[i].ask.id);
    hide Inv, Legal, Run, Trace;
  }

  lemma ExecutedMeansCounted(w: World, i: nat)
    requires Inv(w) && i < |w.actions|
    ensures w.actions[i].count == if w.actions[i].status == Executed then 1 else 0
  {
    assert ActionSound(w.actions[i]);
  }

  /** After every completed restart each executed action has exactly one audit event. */
  lemma RestartRecordsEveryExecution(calls: seq<Call>, restart: Call, i: nat)
    requires restart.op == Initialize && Complete(After(EMPTY, calls), restart)
    requires i < |After(EMPTY, calls + [restart]).actions|
    ensures var w := After(EMPTY, calls + [restart]);
            EventCount(w.ledger, w.actions[i].ask.id) == w.actions[i].count
  {
    EmptyWorldIsSound();
    hide Inv, Legal, Run, InitializePlan, EventCount, ExecutionCount, CommitCount;
    RunsAreLegal(EMPTY, calls);
    RunsAreLegal(EMPTY, calls + [restart]);
    var w := After(EMPTY, calls);
    assert (calls + [restart])[..|calls|] == calls;
    RunAppends(EMPTY, Trace(EMPTY, calls), Made(w, restart));
    InitializeRepairs(w, restart.actor, restart.now);
    ExactlyOnce(calls + [restart], i);
    ExecutedMeansCounted(After(EMPTY, calls + [restart]), i);
  }

  /** An action whose execution the ledger does not tell of. */
  ghost predicate Untold(w: World, i: nat) {
    i < |w.actions| && w.actions[i].status == Executed && !HasExecutionEvent(w.ledger, w.actions[i].ask.id)
  }

  lemma {:induction false} NewlyExecutedWasCommitted(w: World, writes: seq<Write>, i: nat) returns (k: nat)
    requires Inv(w) && Legal(w, writes)
    requires ExecutionCount(w, i) == 0 && ExecutionCount(Run(w, writes), i) == 1
    ensures k < |writes| && writes[k].Commit? && writes[k].commitAt == i
    decreases |writes|
  {
    var init, last := writes[..|writes| - 1], writes[|writes| - 1];
    LegalKeeps(w, init);
    OneWriteCounts(Run(w, init), last, i);
    CountsAreAtMostOne(Run(w, init), i);
    hide Inv, Ok, Apply;
    if last.Commit? && last.commitAt == i {
      k := |writes| - 1;
    } else {
      k := NewlyExecutedWasCommitted(w, init, i);
    }
  }

  /**
    Between restarts an execution event is missing for one reason only: the call was cut
    exactly between the commit of that action and the append that was to follow it.
   */
  lemma {:induction false} MissingEventMeansCutAppend(w: World, call: Call, i: nat)
    requires Inv(w) && !Untold(w, i) && Untold(Run(w, Made(w, call)), i)
    ensures !Complete(w, call) && call.budget > 0
    ensures var writes := Writes(w, call);
            && writes[call.budget - 1].Commit? && writes[call.budget - 1].commitAt == i
            && writes[call.budget].Append? && writes[call.budget].event.ActionExecuted?
            && writes[call.budget].event.action == Run(w, Made(w, call)).actions[i].ask.id
  {
    hide Inv, Legal, Run, PlanOf, ExecutionCount;
    PlanIsProper(w, call.op, call.actor, call.now);
    CallIsLegal(w, call);
    var writes, made := Writes(w, call), Made(w, call);
    var n := if Complete(w, call) then |writes| else call.budget;
    assert made == writes[..n];
    NewlyUntold(w, made, i);
    CutAfterCommit(w, writes, n, i);
  }

  /** Where a commit is followed by its event, only a cut right after it leaves the event out. */
  lemma {:induction false} CutAfterCommit(w: World, writes: seq<Write>, n: nat, i: nat)
    requires n <= |writes| && Inv(w) && Legal(w, writes[..n]) && Paired(w, writes)
    requires ExecutionCount(w, i) == 0 && ExecutionCount(Run(w, writes[..n]), i) == 1 && Untold(Run(w, writes[..n]), i)
    ensures 0 < n < |writes| && writes[n - 1].Commit? && writes[n - 1].commitAt == i
    ensures writes[n].Append? && writes[n].event.ActionExecuted? && writes[n].event.action == Run(w, writes[..n]).actions[i].ask.id
  {
    hide Inv, Legal, Run, ExecutionCount, Ok;
    var made := writes[..n];
    var k := NewlyExecutedWasCommitted(w, made, i);
    assert writes[k] == made[k] && writes[..k] == made[..k];
    assert EventFollows(w, writes, k);
    IdStays(w, made, k, i);
    if k + 1 < n {
      assert made[k + 1] == writes[k + 1];
      AppendedEventIsThere(w, made, k + 1);
    }
  }

  lemma {:induction false} NewlyUntold(w: World, writes: seq<Write>, i: nat)
    requires Inv(w) && Legal(w, writes) && !Untold(w, i) && Untold(Run(w, writes), i)
    ensures ExecutionCount(w, i) == 0 && ExecutionCount(Run(w, writes), i) == 1
  {
    HistoryOnlyGrows(w, writes);
    LegalKeeps(w, writes);
    var v := Run(w, writes);
    assert ActionSound(v.actions[i]);
    assert i < |w.actions| ==> ActionSound(w.actions[i]);
    hide Inv, Legal, Run, Signed;
    ToldStays(w, v, i);
  }

  /** What is told stays told, so a missing event belongs to a new execution. */
  lemma ToldStays(w: World, v: World, i: nat)
    requires ActionsGrow(w.actions, v.actions) && w.ledger <= v.ledger
    requires !Untold(w, i) && Untold(v, i)
    requires i < |w.actions| ==> (w.actions[i].status == Executed ==> w.actions[i].count == 1) && w.actions[i].count <= 1
    requires i < |w.actions| ==> (w.actions[i].count == 1 ==> w.actions[i].status == Executed)
    requires v.actions[i].count == 1
    ensures ExecutionCount(w, i) == 0 && ExecutionCount(v, i) == 1
  {
    assert w.ledger == v.ledger[..|w.ledger|];
    assert forall e :: e in w.ledger ==> e in v.ledger;
  }

  lemma {:induction false} LastAppendIsLast(w: World, writes: seq<Write>)
    requires writes != [] && writes[|writes| - 1].Append?
    ensures var ledger := Run(w, writes).ledger; ledger != [] && ledger[|ledger| - 1] == writes[|writes| - 1].event
  {
  }

  lemma {:induction false} AppendedEventIsThere(w: World, writes: seq<Write>, k: nat)
    requires Inv(w) && Legal(w, writes) && k < |writes| && writes[k].Append?
    ensures writes[k].event in Run(w, writes).ledger
  {
    hide Inv, Ok, Apply, Run, Legal, ActionsGrow, ApprovalsGrow, MemoriesGrow;
    CutIsLegal(w, writes, k + 1);
    LastAppendIsLast(w, writes[..k + 1]);
    var v := Run(w, writes[..k + 1]);
    assert writes == writes[..k + 1] + writes[k + 1..];
    RunAppends(w, writes[..k + 1], writes[k + 1..]);
    LegalKeeps(w, writes[..k + 1]);
    HistoryOnlyGrows(v, writes[k + 1..]);
    assert v.ledger == Run(w, writes).ledger[..|v.ledger|];
  }

  lemma {:induction false} IdStays(w: World, writes: seq<Write>, k: nat, i: nat)
    requires Inv(w) && Legal(w, writes) && k <= |writes| && i < |Run(w, writes[..k]).actions|
    ensures i < |Run(w, writes).actions| && Run(w, writes).actions[i].ask == Run(w, writes[..k]).actions[i].ask
  {
    assert writes == writes[..k] + writes[k..];
    RunAppends(w, writes[..k], writes[k..]);
    LegalKeeps(w, writes[..k]);
    HistoryOnlyGrows(Run(w, writes[..k]), writes[k..]);
  }

  /**
    Over every run: once executed, an action record never changes again, its receipt
    verifies, its artifact hashes to the recorded hash, and recovery has nothing to refuse.
   */
  lemma ExecutedActionsNeverChange(calls: seq<Call>, more: seq<Call>, i: nat)
    requires i < |After(EMPTY, calls).actions| && After(EMPTY, calls).actions[i].status == Executed
    ensures var w, v := After(EMPTY, calls), After(EMPTY, calls + more);
            && i < |v.actions| && v.actions[i] == w.actions[i] && Verifies(v.actions[i])
            && ReplayPlan(v, i).reply == Done && PackSound(v.actions[i], v.packs)
  {
    EmptyWorldIsSound();
    RunsAreLegal(EMPTY, calls);
    RunsAreLegal(After(EMPTY, calls), more);
    TraceAppends(EMPTY, calls, more);
    hide Inv, Legal, Run, Trace, Verifies, ReplayPlan, PackSound;
    ExecutedRecordIsForever(After(EMPTY, calls), Trace(After(EMPTY, calls), more), i);
  }

  // -------------------------------------------------------------------------- authority

  /**
    On all three paths, request, decision and restart: whatever commits in a run commits
    under the action's own active authority, allowed by policy or approved by a human, and
    that sanction still stands at the end of the run.
   */
  lemma {:induction false} RunsCommitOnlySanctioned(calls: seq<Call>, k: nat)
    requires k < |Trace(EMPTY, calls)| && Trace(EMPTY, calls)[k].Commit?
    ensures var writes := Trace(EMPTY, calls);
            var v, i := Run(EMPTY, writes[..k]), writes[k].commitAt;
            && i < |v.actions|
            && AuthorityHolds(v, v.actions[i].ask, writes[k].actor, writes[k].now)
            && Sanctioned(v, v.actions[i].ask) && Sanctioned(After(EMPTY, calls), v.actions[i].ask)
  {
    EmptyWorldIsSound();
    RunsAreLegal(EMPTY, calls);
    hide Inv, Legal, Run, Trace, AuthorityHolds, Sanctioned;
    EveryCommitIsSanctioned(EMPTY, Trace(EMPTY, calls), k);
  }

  lemma ResolvingKeepsAuthority(w: World, j: nat, ask: Ask, actor: Actor, now: int)
    requires j < |w.approvals|
    ensures AuthorityHolds(Resolved(w, j, true, ask), ask, actor, now) == AuthorityHolds(w, ask, actor, now)
  {
    var v := Resolved(w, j, true, ask);
    assert v == w.(approvals := v.approvals, decided := v.decided, ledger := v.ledger);
    hide Resolved;
  }

  lemma ApprovedIsSanctioned(w: World, v: World, i: nat, j: nat)
    requires Inv(w) && i < |w.actions| && j < |w.approvals| && w.actions[i].ask.approval == Some(w.approvals[j].id)
    requires v.actions == w.actions && v.approvals == w.approvals[j := w.approvals[j].(status := Approved)]
    ensures Sanctioned(v, w.actions[i].ask)
  {
    ItsApprovalIsBound(w, i);
    assert ApprovalsSound(w.approvals, w.nextId);
    assert ApprovalAt(w, w.approvals[j].id) == j;
    assert v.approvals[j].id == w.approvals[j].id;
    assert forall k :: 0 <= k < j ==> v.approvals[k] == w.approvals[k];
    assert ApprovalAt(v, w.approvals[j].id) == j;
    hide Inv;
  }

  lemma UniqueAction(w: World, i: nat, approval: nat)
    requires Inv(w) && i < |w.actions| && w.actions[i].ask.approval == Some(approval)
    ensures ActionWithApproval(w, approval) == i
    ensures var j := ApprovalAt(w, approval); j < |w.approvals| && w.approvals[j].id == approval
  {
    ItsApprovalIsBound(w, i);
    assert ActionsSound(w.actions, w.nextId);
    assert forall k :: 0 <= k < i ==> !Collide(w.actions[k].ask, w.actions[i].ask);
    hide Inv;
  }

  /** Approving again an approval that is already resolved. */
  lemma {:induction false} SecondApprovalExecutesIff(w: World, i: nat, j: nat, actor: Actor, now: int)
    requires Inv(w) && i < |w.actions| && w.actions[i].count == 0 && j < |w.approvals|
    requires w.actions[i].ask.approval == Some(w.approvals[j].id) && w.approvals[j].status != Awaiting
    ensures var w' := Run(w, DecideApprovalPlan(w, w.approvals[j].id, true, actor, now).writes);
            && i < |w'.actions|
            && (w'.actions[i].status == Executed <==> w.approvals[j].status == Approved && AuthorityHolds(w, w.actions[i].ask, actor, now))
  {
    assert ActionSound(w.actions[i]);
    UniqueAction(w, i, w.approvals[j].id);
    assert ApprovalsSound(w.approvals, w.nextId);
    assert ApprovalAt(w, w.approvals[j].id) == j;
    NothingIsProper(w);
    if w.approvals[j].status == Approved {
      assert w.approvals[j := w.approvals[j].(status := Approved)] == w.approvals;
      ApprovedIsSanctioned(w, w, i, j);
      if AuthorityHolds(w, w.actions[i].ask, actor, now) {
        ExecutionIsProper(w, i, actor, now);
      }
    }
    hide Inv, AuthorityHolds, Run, ExecutePlan, Proper, ActionSound;
  }

  lemma {:induction false} ApprovingExecutes(w: World, i: nat, j: nat, actor: Actor, now: int)
    requires Inv(w) && i < |w.actions| && j < |w.approvals|
    requires w.actions[i].ask.approval == Some(w.approvals[j].id) && w.approvals[j].status == Awaiting
    requires AuthorityHolds(w, w.actions[i].ask, actor, now)
    ensures var ask := w.actions[i].ask;
            var resolved := Plan(Resolution(j, true, ask), Done);
            var all := Then(resolved, ExecutePlan(Run(w, resolved.writes), i, actor, now));
            && i < |Run(w, all.writes).actions| && Run(w, all.writes).actions[i].status == Executed
  {
    var ask := w.actions[i].ask;
    var v := Resolved(w, j, true, ask);
    assert v.actions == w.actions && v.approvals == w.approvals[j := w.approvals[j].(status := Approved)];
    hide Inv, AuthorityHolds, Sanctioned, Run, ExecutePlan, Proper, Resolved, Resolution;
    AwaitedActionIsOpen(w, i, j);
    ResolvingKeepsAuthority(w, j, ask, actor, now);
    ApprovedIsSanctioned(w, v, i, j);
    ResolutionIsProper(w, j, true, ask);
    ProperKeeps(w, Resolution(j, true, ask));
    ExecutionIsProper(v, i, actor, now);
    ThenIsProper(w, Plan(Resolution(j, true, ask), Done), ExecutePlan(v, i, actor, now));
  }

  lemma {:induction false} FirstApprovalExecutesIff(w: World, i: nat, j: nat, actor: Actor, now: int)
    requires Inv(w) && i < |w.actions| && j < |w.approvals|
    requires w.actions[i].ask.approval == Some(w.approvals[j].id) && w.approvals[j].status == Awaiting
    ensures var w' := Run(w, DecideApprovalPlan(w, w.approvals[j].id, true, actor, now).writes);
            && i < |w'.actions|
            && (w'.actions[i].status == Executed <==> AuthorityHolds(w, w.actions[i].ask, actor, now))
  {
    AwaitedActionIsOpen(w, i, j);
    assert ActionSound(w.actions[i]);
    UniqueAction(w, i, w.approvals[j].id);
    assert ApprovalsSound(w.approvals, w.nextId);
    assert ApprovalAt(w, w.approvals[j].id) == j;
    NothingIsProper(w);
    hide Inv, AuthorityHolds, Run, ExecutePlan, Proper, ActionSound;
    if AuthorityHolds(w, w.actions[i].ask, actor, now) {
      ApprovingExecutes(w, i, j, actor, now);
    }
  }

  /**
    Approving executes an action exactly when its approval is waiting or already approved and
    the action's authority holds. The action's own status does not matter: one that a
    restart denied is executed as well, so "denied" is not final.
   */
  lemma {:induction false} ApprovalExecutesIff(w: World, i: nat, approval: nat, actor: Actor, now: int)
    requires Inv(w) && i < |w.actions| && w.actions[i].count == 0 && w.actions[i].ask.approval == Some(approval)
    ensures ApprovalAt(w, approval) < |w.approvals|
    ensures var w' := Run(w, DecideApprovalPlan(w, approval, true, actor, now).writes);
            var status := w.approvals[ApprovalAt(w, approval)].status;
            && i < |w'.actions|
            && (w'.actions[i].status == Executed <==> (status == Awaiting || status == Approved) && AuthorityHolds(w, w.actions[i].ask, actor, now))
  {
    UniqueAction(w, i, approval);
    hide Inv, AuthorityHolds, Run, DecideApprovalPlan;
    var j := ApprovalAt(w, approval);
    if w.approvals[j].status == Awaiting {
      FirstApprovalExecutesIff(w, i, j, actor, now);
    } else {
      SecondApprovalExecutesIff(w, i, j, actor, now);
    }
  }

  /** What policy itself denied stays denied. */
  lemma PolicyDenialIsFinal(w: World, calls: seq<Call>, i: nat)
    requires Inv(w) && i < |w.actions| && w.actions[i].ask.decision == Denied
    ensures var w' := After(w, calls);
            i < |w'.actions| && w'.actions[i].status == Turned && w'.actions[i].count == 0
  {
    RunsAreLegal(w, calls);
    HistoryOnlyGrows(w, Trace(w, calls));
    assert ActionSound(After(w, calls).actions[i]);
    hide Run, Trace, Legal;
  }

  /** The mandate, the passport and the room are where they were, so the authority is. */
  lemma {:induction false} NewActionHasAuthority(w: World, v: World, room: nat, agent: string, name: string, key: string, actor: Actor, now: int)
    requires Governed(w, agent, now) && InRoom(w, room, agent, actor)
    requires Authorize(w, w.mandates[ActiveMandateAt(w, agent)], name, key) == Allowed
    requires v == w.(actions := v.actions, approvals := v.approvals, decided := v.decided, ledger := v.ledger, nextId := v.nextId)
    ensures var ask := NewAction(w, v, room, agent, name, key, now).ask;
            AuthorityHolds(v, ask, actor, now) && Sanctioned(v, ask)
  {
  }

  /** The world an allowed request leaves before its execution: its action, its key, two notes. */
  lemma {:induction false} AllowedRequestLeaves(w: World, room: nat, agent: string, name: string, key: string, now: int)
    requires Inv(w) && ActionWithKey(w, key) == |w.actions| && name in LABELS && Governed(w, agent, now)
    requires Authorize(w, w.mandates[ActiveMandateAt(w, agent)], name, key) == Allowed
    ensures var u, action := Run(w, RequestWrites(w, room, agent, name, key, now)), NewAction(w, WithDecision(w, agent, key), room, agent, name, key, now);
            u == w.(actions := w.actions + [action], decided := u.decided, ledger := u.ledger, nextId := u.nextId)
  {
    var v := WithDecision(w, agent, key);
    RequestIsProper(w, room, agent, name, key, now);
    AuthorizationIsProper(w, agent, w.mandates[ActiveMandateAt(w, agent)], name, key);
    hide Inv, Governed, Run, Proper, AuthorizeWrites, RequestWrites, Authorize, NewAction;
    var u := Apply(v, AddAction(NewAction(w, v, room, agent, name, key, now)));
    assert u == w.(actions := u.actions, decided := u.decided, ledger := u.ledger, nextId := u.nextId);
  }

  lemma {:induction false} NewActionIsOpen(w: World, v: World, u: World, room: nat, agent: string, name: string, key: string, now: int)
    requires Governed(w, agent, now)
    ensures var action := NewAction(w, v, room, agent, name, key, now);
            action.count == 0 && action.ask == NewAction(w, u, room, agent, name, key, now).ask.(id := action.ask.id)
  {
    hide Governed;
  }

  lemma {:induction false} AllowedRequestIsExecutable(w: World, room: nat, agent: string, name: string, key: string, actor: Actor, now: int)
    requires Inv(w) && ActionWithKey(w, key) == |w.actions| && name in LABELS && Governed(w, agent, now) && InRoom(w, room, agent, actor)
    requires Authorize(w, w.mandates[ActiveMandateAt(w, agent)], name, key) == Allowed
    ensures Executable(Run(w, RequestWrites(w, room, agent, name, key, now)), |w.actions|, actor, now)
  {
    var v, u := WithDecision(w, agent, key), Run(w, RequestWrites(w, room, agent, name, key, now));
    var action := NewAction(w, v, room, agent, name, key, now);
    AllowedRequestLeaves(w, room, agent, name, key, now);
    NewActionIsOpen(w, v, u, room, agent, name, key, now);
    hide Inv, Governed, InRoom, Run, RequestWrites, Authorize, WithDecision, NewAction, AuthorityHolds, Sanctioned;
    assert u.actions[|w.actions|] == action;
    NewActionHasAuthority(w, u, room, agent, name, key, actor, now);
    SameAskSameAuthority(u, NewAction(w, u, room, agent, name, key, now).ask, action.ask, actor, now);
  }

  lemma {:induction false} SameAskSameAuthority(w: World, a: Ask, b: Ask, actor: Actor, now: int)
    requires b == a.(id := b.id) && AuthorityHolds(w, a, actor, now) && Sanctioned(w, a)
    ensures AuthorityHolds(w, b, actor, now) && Sanctioned(w, b)
  {
  }

  /** How a request ends that nothing interrupts. */
  function StatusWhenNew(decision: Decision): ActionStatus {
    match decision
    case Allowed => Executed
    case NeedsApproval => Pending
    case Denied => Turned
  }

  /**
    A new request by a governed agent in its room executes, at once and by itself, exactly
    when its key was never decided and the mandate allows the action without approval.
   */
  lemma {:induction false} RequestExecutesIff(w: World, room: nat, agent: string, name: string, key: string, actor: Actor, now: int)
    requires Inv(w) && ActionWithKey(w, key) == |w.actions| && name in LABELS && Governed(w, agent, now) && InRoom(w, room, agent, actor)
    ensures var w' := Run(w, RequestActionPlan(w, room, agent, name, key, actor, now).writes);
            var mandate := w.mandates[ActiveMandateAt(w, agent)];
            && |w'.actions| == |w.actions| + 1 && w'.actions[|w.actions|].ask.key == key
            && w'.actions[|w.actions|].ask.room == room && w'.actions[|w.actions|].ask.agent == agent && w'.actions[|w.actions|].ask.name == name
            && w'.actions[|w.actions|].ask.decision == Authorize(w, mandate, name, key)
            && w'.actions[|w.actions|].ask.approval == (if Authorize(w, mandate, name, key) == NeedsApproval then Some(w.nextId) else None)
            && w'.actions[|w.actions|].status == StatusWhenNew(Authorize(w, mandate, name, key))
            && (w'.actions[|w.actions|].status == Executed <==>
                  key !in w.decided && name in mandate.allowed && name !in mandate.prohibited && name !in mandate.needApproval)
  {
    var mandate := w.mandates[ActiveMandateAt(w, agent)];
    RequestIsProper(w, room, agent, name, key, now);
    RequestAddsItsAction(w, room, agent, name, key, now);
    var asked := Plan(RequestWrites(w, room, agent, name, key, now), Done);
    var v := Run(w, asked.writes);
    assert |v.actions| == |w.actions| + 1 && v.actions[|w.actions|].ask.key == key && v.actions[|w.actions|].status != Executed;
    assert v.actions[|w.actions|].ask.room == room && v.actions[|w.actions|].ask.agent == agent && v.actions[|w.actions|].ask.name == name;
    assert v.actions[|w.actions|].ask.decision == Authorize(w, mandate, name, key);
    assert v.actions[|w.actions|].ask.approval == (if Authorize(w, mandate, name, key) == NeedsApproval then Some(w.nextId) else None);
    assert Authorize(w, mandate, name, key) != Allowed ==> v.actions[|w.actions|].status == StatusWhenNew(Authorize(w, mandate, name, key));
    hide Inv, Governed, InRoom, Run, Proper, RequestWrites, AuthorizeWrites, ExecutePlan, NewAction;
    if Authorize(w, mandate, name, key) == Allowed {
      AllowedRequestIsExecutable(w, room, agent, name, key, actor, now);
      ProperKeeps(w, asked.writes);
      ExecutionIsProper(v, |w.actions|, actor, now);
      ThenIsProper(w, asked, ExecutePlan(v, |w.actions|, actor, now));
      ExecutionKeepsAsk(v, Run(v, ExecutePlan(v, |w.actions|, actor, now).writes), |w.actions|, ExecutePlan(v, |w.actions|, actor, now).writes);
    }
  }

  lemma {:induction false} ExecutionKeepsAsk(w: World, w': World, i: nat, writes: seq<Write>)
    requires Inv(w) && Proper(w, writes) && w' == Run(w, writes) && i < |w.actions|
    ensures i < |w'.actions| && w'.actions[i].ask == w.actions[i].ask
  {
    HistoryOnlyGrows(w, writes);
    hide Inv, Run, Legal;
  }

  // ---------------------------------------------------------------------------- mandates

  /** In every run no agent has two active mandates, and the newest is the one that is enforced. */
  lemma OneAuthorityInEveryRun(calls: seq<Call>, agent: string)
    ensures var w := After(EMPTY, calls);
            && (ActiveMandateAt(w, agent) < |w.mandates| ==> AfterNewestMandate(w, agent) == ActiveMandateAt(w, agent) + 1)
            && forall i, j :: 0 <= i < |w.mandates| && 0 <= j < |w.mandates| && HeldBy(w.mandates[i], agent) && HeldBy(w.mandates[j], agent) ==> i == j
  {
    EmptyWorldIsSound();
    hide Inv, Run, Trace, Legal, ActiveMandateAt, AfterNewestMandate, HeldBy;
    RunsAreLegal(EMPTY, calls);
    OneAuthorityAtATime(After(EMPTY, calls), agent);
  }

  lemma RevokingKeepsPassport(w: World, i: nat, agent: string, now: int)
    requires i < |w.mandates|
    ensures HasPassport(Revocation(w, i), agent, now) == HasPassport(w, agent, now)
  {
    var v := Revocation(w, i);
    assert v == w.(mandates := v.mandates, approvals := v.approvals, ledger := v.ledger);
    hide Revocation;
  }

  lemma {:induction false} SomethingToReplace(w: World, agent: string, productBuild: bool, now: int)
    requires Inv(w) && HasPassport(w, agent, now) && ActiveMandateAt(w, agent) < |w.mandates|
    requires productBuild && "product_build" !in w.mandates[ActiveMandateAt(w, agent)].needApproval
    ensures Governed(Run(w, AssignMandatePlan(w, agent, productBuild, now).writes), agent, now)
  {
    hide Inv, Proper, Run, HasPassport, CreateMandatePlan, Governed, LifecyclePlan, Revocation;
    var i := ActiveMandateAt(w, agent);
    RevocationRevokes(w, i, now);
    RevokingKeepsPassport(w, i, agent, now);
    OnlyOneWasActive(w, i);
    var v := Revocation(w, i);
    CreationIsProper(v, agent, productBuild, now);
    NewMandateGoverns(v, agent, productBuild, now);
    ThenIsProper(w, LifecyclePlan(w, i, Revoke, now), CreateMandatePlan(v, agent, productBuild, now));
  }

  lemma {:induction false} NewMandateGoverns(w: World, agent: string, productBuild: bool, now: int)
    requires NoneActive(w, agent) && HasPassport(w, agent, now)
    ensures Governed(Run(w, CreateMandatePlan(w, agent, productBuild, now).writes), agent, now)
  {
    CreationIsProper(w, agent, productBuild, now);
    hide Run, CreateMandatePlan, Proper;
    var w' := WithMandate(w, NewMandate(w.nextId, agent, productBuild, now));
    assert w'.mandates[|w.mandates|].agent == agent;
    assert ActiveMandateAt(w', agent) == |w.mandates|;
  }

  /** The mandate at hand would be kept, although its time is over. */
  predicate KeepsExpired(w: World, agent: string, productBuild: bool, now: int) {
    var i := ActiveMandateAt(w, agent);
    && i < |w.mandates| && w.mandates[i].expires <= now
    && (!productBuild || "product_build" in w.mandates[i].needApproval)
  }

  /**
    Assigning a mandate leaves the agent governed exactly when its passport is in force and
    no expired mandate, still marked active, stands in the way: that one is neither replaced
    nor renewed, and assigning again does nothing either.
   */
  lemma {:induction false} AssignmentGovernsIff(w: World, agent: string, productBuild: bool, now: int)
    requires Inv(w)
    ensures Governed(Run(w, AssignMandatePlan(w, agent, productBuild, now).writes), agent, now) <==>
              HasPassport(w, agent, now) && !KeepsExpired(w, agent, productBuild, now)
  {
    var i := ActiveMandateAt(w, agent);
    NothingIsProper(w);
    if HasPassport(w, agent, now) {
      if i == |w.mandates| {
        hide Run;
        NewMandateGoverns(w, agent, productBuild, now);
      } else if productBuild && "product_build" !in w.mandates[i].needApproval {
        hide Run, AssignMandatePlan;
        SomethingToReplace(w, agent, productBuild, now);
      }
    }
    hide Inv, HasPassport, Proper;
  }
}
