/**
  Who may act, in terms of the stored lists alone: which rooms, passports, bindings and
  mandates stand behind every execution, and how everybody else is refused.
 */
module GovernanceAccess {
  import opened Options
  import opened GovernanceModel
  import opened GovernancePlans
  import opened GovernanceSafety
  import opened GovernanceRecovery
  import opened GovernanceRuns
  import opened GovernanceTheorems

  /** The room that an id names is the first of that id. */
  ghost predicate IsRoom(w: World, room: nat, r: nat) {
    r < |w.rooms| && w.rooms[r].id == room && forall j :: 0 <= j < r ==> w.rooms[j].id != room
  }

  ghost predicate IsPassport(w: World, agent: string, p: nat) {
    p < |w.passports| && w.passports[p].agent == agent && forall j :: 0 <= j < p ==> w.passports[j].agent != agent
  }

  ghost predicate IsBinding(w: World, agent: string, b: nat) {
    b < |w.bindings| && w.bindings[b].agent == agent && forall j :: 0 <= j < b ==> w.bindings[j].agent != agent
  }

  /** An active mandate of the agent; there is at most one. */
  ghost predicate IsMandate(w: World, agent: string, m: nat) {
    m < |w.mandates| && w.mandates[m].agent == agent && w.mandates[m].status == Active
  }

  /** The human takes part in the room, or is an administrator. */
  ghost predicate TakesPart(w: World, room: nat, actor: Actor) {
    exists r: nat :: IsRoom(w, room, r) && (actor.admin || actor.human in w.rooms[r].humans)
  }

  ghost predicate AgentTakesPart(w: World, room: nat, agent: string) {
    exists r: nat :: IsRoom(w, room, r) && agent in w.rooms[r].agents
  }

  /** A registered agent with its owner's passport, active and unexpired. */
  ghost predicate Owned(w: World, agent: string, p: nat, now: int) {
    && agent in w.agents && IsPassport(w, agent, p)
    && w.passports[p].active && now < w.passports[p].expires
    && exists b: nat :: IsBinding(w, agent, b) && w.bindings[b].human == w.passports[p].owner
  }

  /** ... and with an active, unexpired mandate. */
  ghost predicate InForce(w: World, agent: string, now: int) {
    && (exists p: nat :: Owned(w, agent, p, now))
    && (exists m: nat :: IsMandate(w, agent, m) && now < w.mandates[m].expires)
  }

  ghost predicate Covers(mandate: Mandate, name: string) {
    name !in mandate.prohibited && (name in mandate.allowed || name in mandate.needApproval)
  }

  /** The very passport and mandate that the action was asked for under are in force and cover it. */
  ghost predicate Authorized(w: World, ask: Ask, now: int) {
    && (exists p: nat :: Owned(w, ask.agent, p, now) && w.passports[p].id == ask.passport)
    && (exists m: nat :: IsMandate(w, ask.agent, m) && now < w.mandates[m].expires && w.mandates[m].id == ask.mandate && Covers(w.mandates[m], ask.name))
  }

  /** Policy allowed it without an approval, or its own approval was given for this very request. */
  ghost predicate Permitted(w: World, ask: Ask) {
    if ask.approval == None then ask.decision == Allowed
    else exists j :: 0 <= j < |w.approvals| && w.approvals[j] == Approval(ask.approval.value, ask.agent, ask.mandate, ask.key, ask.name, Approved)
  }

  // -------------------------------------------------------- what the lookups amount to

  lemma RoomMeans(w: World, room: nat, agent: string, actor: Actor)
    ensures InRoom(w, room, agent, actor) <==> TakesPart(w, room, actor) && AgentTakesPart(w, room, agent)
  {
    var r := RoomAt(w, room);
    if r < |w.rooms| {
      assert IsRoom(w, room, r);
    }
    assert forall k: nat :: IsRoom(w, room, k) ==> k == r;
  }

  lemma PassportMeans(w: World, agent: string, now: int)
    ensures HasPassport(w, agent, now) <==> exists p: nat :: Owned(w, agent, p, now)
    ensures HasPassport(w, agent, now) ==> Owned(w, agent, PassportAt(w, agent), now)
    ensures forall p: nat :: Owned(w, agent, p, now) ==> p == PassportAt(w, agent)
  {
    var p, b := PassportAt(w, agent), BindingAt(w, agent);
    assert forall k: nat :: IsPassport(w, agent, k) ==> k == p;
    assert forall k: nat :: IsBinding(w, agent, k) ==> k == b;
    if HasPassport(w, agent, now) {
      assert IsPassport(w, agent, p) && IsBinding(w, agent, b);
      assert Owned(w, agent, p, now);
    }
  }

  lemma MandateMeans(w: World, agent: string)
    requires Inv(w)
    ensures forall m: nat :: IsMandate(w, agent, m) <==> m < |w.mandates| && m == ActiveMandateAt(w, agent)
  {
    hide ActionsSound, ApprovalsSound, ActionsApproved, PacksSound, EventsSound, MemoriesSound, MemoryEventsSound, MandateSound;
    var i := ActiveMandateAt(w, agent);
    assert forall m: nat :: IsMandate(w, agent, m) ==> m >= i;
  }

  lemma GovernedMeans(w: World, agent: string, now: int)
    requires Inv(w)
    ensures Governed(w, agent, now) <==> InForce(w, agent, now)
  {
    hide Inv, HasPassport, Owned, IsMandate;
    PassportMeans(w, agent, now);
    MandateMeans(w, agent);
  }

  lemma {:induction false} AuthorityMeans(w: World, ask: Ask, actor: Actor, now: int)
    requires Inv(w)
    ensures AuthorityHolds(w, ask, actor, now) <==>
            Authorized(w, ask, now) && TakesPart(w, ask.room, actor) && AgentTakesPart(w, ask.room, ask.agent)
  {
    hide Inv, HasPassport, Owned, IsMandate, InRoom, TakesPart, AgentTakesPart, ActiveMandateAt, PassportAt;
    PassportMeans(w, ask.agent, now);
    MandateMeans(w, ask.agent);
    RoomMeans(w, ask.room, ask.agent, actor);
    GovernedHasItsMandate(w, ask.agent, now);
    hide InForce;
  }

  lemma GovernedHasItsMandate(w: World, agent: string, now: int)
    ensures Governed(w, agent, now) <==>
            HasPassport(w, agent, now) && ActiveMandateAt(w, agent) < |w.mandates| && now < w.mandates[ActiveMandateAt(w, agent)].expires
    ensures HasPassport(w, agent, now) ==> PassportAt(w, agent) < |w.passports|
  {
  }

  lemma SanctionMeans(w: World, ask: Ask)
    requires Inv(w)
    ensures Sanctioned(w, ask) <==> Permitted(w, ask)
  {
    hide ActionsSound, ActionsApproved, MandatesSound, PacksSound, EventsSound, MemoriesSound, MemoryEventsSound;
    if ask.approval.Some? {
      var i := ApprovalAt(w, ask.approval.value);
      if Sanctioned(w, ask) {
        assert w.approvals[i] == Approval(ask.approval.value, ask.agent, ask.mandate, ask.key, ask.name, Approved);
      }
      if Permitted(w, ask) {
        var j :| 0 <= j < |w.approvals| && w.approvals[j] == Approval(ask.approval.value, ask.agent, ask.mandate, ask.key, ask.name, Approved);
        assert i == j;
      }
    }
  }

  // -------------------------------------------------------------- whose commits they are

  /** A change of the agents, their owners, their passports or the rooms. */
  predicate Registers(write: Write) {
    write.AddAgent? || write.AddBinding? || write.AddPassport? || write.AddRoom? || write.SetHumans?
  }

  /** Made for this caller at this time, if it is a commit; and no change of who is who. */
  predicate CommittedBy(write: Write, actor: Actor, now: int) {
    (write.Commit? ==> write.actor == actor && write.now == now) && !Registers(write)
  }

  /** The operations that say who is who. */
  predicate Registering(op: Op) {
    op.Register? || op.Bind? || op.IssuePassport? || op.CreateRoom? || op.SetRoomMembers?
  }

  predicate AllBy(writes: seq<Write>, actor: Actor, now: int) {
    forall k :: 0 <= k < |writes| ==> CommittedBy(writes[k], actor, now)
  }

  lemma ExecutionIsBy(w: World, i: nat, actor: Actor, now: int)
    ensures AllBy(ExecutePlan(w, i, actor, now).writes, actor, now)
  {
    hide AuthorityHolds, AuthorityCode, Sanctioned, Outcome, EvidencePack, ExecutedRecord;
  }

  lemma ThenIsBy(first: Plan, second: Plan, actor: Actor, now: int)
    requires AllBy(first.writes, actor, now) && AllBy(second.writes, actor, now)
    ensures AllBy(Then(first, second).writes, actor, now)
  {
  }

  lemma RecoveryIsBy(w: World, i: nat, actor: Actor, now: int)
    ensures AllBy(RecoverPlan(w, i, actor, now).writes, actor, now)
  {
    ExecutionIsBy(w, i, actor, now);
    hide ExecutePlan, AuthorityHolds, ApprovalAt;
  }

  lemma {:induction false} RecoveriesAreBy(w: World, i: nat, n: nat, actor: Actor, now: int)
    ensures AllBy(RecoverFrom(w, i, n, actor, now).writes, actor, now)
    decreases n - i
  {
    hide RecoverPlan, Run, AllBy;
    if i < n {
      var one := RecoverPlan(w, i, actor, now);
      RecoveryIsBy(w, i, actor, now);
      RecoveriesAreBy(Run(w, one.writes), i + 1, n, actor, now);
      ThenIsBy(one, RecoverFrom(Run(w, one.writes), i + 1, n, actor, now), actor, now);
    } else {
      assert AllBy(NOTHING.writes, actor, now) by { NothingIsBy(actor, now); }
    }
  }

  lemma NothingIsBy(actor: Actor, now: int)
    ensures AllBy([], actor, now)
  {
  }

  lemma {:induction false} ReplaysAreBy(w: World, i: nat, n: nat, actor: Actor, now: int)
    ensures AllBy(ReplayFrom(w, i, n).writes, actor, now)
    decreases n - i
  {
    hide Run, Verifies, HasExecutionEvent;
    if i < n {
      var one := ReplayPlan(w, i);
      ReplaysAreBy(Run(w, one.writes), i + 1, n, actor, now);
      ThenIsBy(one, ReplayFrom(Run(w, one.writes), i + 1, n), actor, now);
    }
  }

  lemma {:induction false} RestartIsBy(w: World, actor: Actor, now: int)
    ensures AllBy(InitializePlan(w, actor, now).writes, actor, now)
  {
    var recovered := RecoverFrom(w, 0, |w.actions|, actor, now);
    RecoveriesAreBy(w, 0, |w.actions|, actor, now);
    ReplaysAreBy(Run(w, recovered.writes), 0, |w.actions|, actor, now);
    ThenIsBy(recovered, ReplayFrom(Run(w, recovered.writes), 0, |w.actions|), actor, now);
    hide Run, RecoverFrom, ReplayFrom, AllBy;
  }

  lemma {:induction false} RequestIsBy(w: World, room: nat, agent: string, name: string, key: string, actor: Actor, now: int)
    ensures AllBy(RequestActionPlan(w, room, agent, name, key, actor, now).writes, actor, now)
  {
    hide InRoom, HasPassport, GovernedCode, ExecutePlan, Run, NewAction, Authorize;
    if ActionWithKey(w, key) == |w.actions| && Governed(w, agent, now) {
      var asked := Plan(RequestWrites(w, room, agent, name, key, now), Done);
      assert AllBy(asked.writes, actor, now);
      ExecutionIsBy(Run(w, asked.writes), |w.actions|, actor, now);
      ThenIsBy(asked, ExecutePlan(Run(w, asked.writes), |w.actions|, actor, now), actor, now);
    }
  }

  lemma {:induction false} DecisionIsBy(w: World, approval: nat, approve: bool, actor: Actor, now: int)
    ensures AllBy(DecideApprovalPlan(w, approval, approve, actor, now).writes, actor, now)
  {
    var i, j := ActionWithApproval(w, approval), ApprovalAt(w, approval);
    hide AuthorityHolds, AuthorityCode, ExecutePlan, Run, ActionWithApproval, ApprovalAt, AllBy, Resolution, DecideApprovalPlan;
    DecisionUnfolds(w, approval, approve, actor, now);
    NothingIsBy(actor, now);
    ExecutionIsBy(w, i, actor, now);
    if i < |w.actions| && j < |w.approvals| {
      var resolved := Plan(Resolution(j, approve, w.actions[i].ask), Done);
      ResolutionIsBy(i, j, approve, w.actions[i].ask, actor, now);
      ExecutionIsBy(Run(w, resolved.writes), i, actor, now);
      ThenIsBy(resolved, ExecutePlan(Run(w, resolved.writes), i, actor, now), actor, now);
      ThenIsBy(resolved, Plan([SetStatus(i, Rejected, "APPROVAL_REJECTED")], Done), actor, now);
    }
  }

  lemma ResolutionIsBy(i: nat, j: nat, approve: bool, ask: Ask, actor: Actor, now: int)
    ensures AllBy(Resolution(j, approve, ask), actor, now) && AllBy([SetStatus(i, Rejected, "APPROVAL_REJECTED")], actor, now)
  {
  }

  /** Whatever is asked, what it commits is committed for whoever asks, at that time. */
  lemma {:induction false} PlanIsBy(w: World, op: Op, actor: Actor, now: int)
    ensures !Registering(op) ==> AllBy(PlanOf(w, op, actor, now).writes, actor, now)
    ensures Registering(op) ==> forall write :: write in PlanOf(w, op, actor, now).writes ==> !write.Commit?
  {
    hide AllBy, RegisterPlan, BindPlan, IssuePassportPlan, AssignMandatePlan, UpdateMandatePlan, CreateRoomPlan, SetRoomMembersPlan, RequestActionPlan,
         DecideApprovalPlan, ProposeMemoryPlan, ProposeBuildMemoryPlan, ReviewMemoryPlan, InitializePlan;
    match op
    case RequestAction(room, agent, name, key) => RequestIsBy(w, room, agent, name, key, actor, now);
    case DecideApproval(approval, approve) => DecisionIsBy(w, approval, approve, actor, now);
    case Initialize => RestartIsBy(w, actor, now);
    case CreateRoom(agent, name, peers) => RoomWritesCommitNothing(w, agent, name, peers, 0, {}, actor, now);
    case SetRoomMembers(room, humans) => RoomWritesCommitNothing(w, "", "", [], room, humans, actor, now);
    case Register(agent) => IdentityWritesAre(w, agent, "", now);
    case Bind(agent, human) => IdentityWritesAre(w, agent, human, now);
    case IssuePassport(agent) => IdentityWritesAre(w, agent, "", now);
    case AssignMandate(agent, productBuild) => MandatesAreBy(w, agent, productBuild, Suspend, actor, now);
    case UpdateMandate(agent, lifecycle) => MandatesAreBy(w, agent, false, lifecycle, actor, now);
    case ProposeMemory(room, agent, title, content) => ProposalsAreBy(w, room, agent, title, content, "", actor, now);
    case ProposeBuildMemory(room, agent, run, title, content) => ProposalsAreBy(w, room, agent, title, content, run, actor, now);
    case ReviewMemory(memory, approve, edited) => ReviewIsBy(w, memory, approve, edited, actor, now);
  }

  /** One change and its notes. */
  predicate NotedChange(writes: seq<Write>) {
    writes == [] || (Registers(writes[0]) && forall k :: 1 <= k < |writes| ==> writes[k].Append?)
  }

  lemma IdentityWritesAre(w: World, agent: string, human: string, now: int)
    ensures var writes := RegisterPlan(w, agent).writes;
            NotedChange(writes) && (writes != [] ==> writes[0] == AddAgent(agent) && agent !in w.agents)
    ensures var writes, i := BindPlan(w, agent, human).writes, BindingAt(w, agent);
            NotedChange(writes) && (writes != [] ==> writes[0] == AddBinding(Binding(agent, human)) && agent in w.agents && i == |w.bindings|)
    ensures var writes, i := IssuePassportPlan(w, agent, now).writes, BindingAt(w, agent);
            NotedChange(writes)
            && (writes != [] ==> i < |w.bindings| && PassportAt(w, agent) == |w.passports| && agent in w.agents
                                 && writes[0] == AddPassport(Passport(w.nextId, agent, w.bindings[i].human, true, now + 365 * 86400000)))
  {
  }

  lemma MandatesAreBy(w: World, agent: string, productBuild: bool, lifecycle: Lifecycle, actor: Actor, now: int)
    ensures AllBy(AssignMandatePlan(w, agent, productBuild, now).writes, actor, now)
    ensures AllBy(UpdateMandatePlan(w, agent, lifecycle, now).writes, actor, now)
  {
    hide HasPassport, PassportCode, Run;
  }

  lemma RoomWritesCommitNothing(w: World, agent: string, name: string, peers: seq<string>, room: nat, humans: set<string>, actor: Actor, now: int)
    ensures forall write :: write in CreateRoomPlan(w, agent, name, peers, actor, now).writes ==> !write.Commit?
    ensures forall write :: write in SetRoomMembersPlan(w, room, humans, actor).writes ==> !write.Commit?
  {
    hide Governed, GovernedCode;
  }

  lemma ProposalsAreBy(w: World, room: nat, agent: string, title: string, content: string, run: string, actor: Actor, now: int)
    ensures AllBy(ProposeMemoryPlan(w, room, agent, title, content, actor, now).writes, actor, now)
    ensures AllBy(ProposeBuildMemoryPlan(w, room, agent, run, title, content, actor, now).writes, actor, now)
  {
    hide Governed, GovernedCode, InRoom;
  }

  lemma ReviewIsBy(w: World, memory: nat, approve: bool, edited: Option<string>, actor: Actor, now: int)
    ensures AllBy(ReviewMemoryPlan(w, memory, approve, edited, actor).writes, actor, now)
  {
    hide InRoom, DecidedMemory, MemoryHash;
  }

  lemma {:induction false} CommitIsTheCallers(w: World, call: Call, k: nat)
    requires k < |Made(w, call)| && Made(w, call)[k].Commit?
    ensures Made(w, call)[k].actor == call.actor && Made(w, call)[k].now == call.now
  {
    PlanIsBy(w, call.op, call.actor, call.now);
    assert Made(w, call)[k] == Writes(w, call)[k] && Writes(w, call)[k] in Writes(w, call);
    hide PlanOf;
    assert CommittedBy(Writes(w, call)[k], call.actor, call.now);
  }

  /**
    On every path, request, decision and restart, and over every run: a call commits an
    action only while its caller is an administrator or listed in the action's room, its
    agent is listed there too and has its owner's active, unexpired passport, the very one
    the action names, and the very mandate it names is active, unexpired and covers it; and
    only what policy allowed or a human approved for this very request.
   */
  lemma {:induction false} OnlyMembersCommit(calls: seq<Call>, call: Call, k: nat)
    requires k < |Made(After(EMPTY, calls), call)| && Made(After(EMPTY, calls), call)[k].Commit?
    ensures var w := After(EMPTY, calls);
            var v, i := Run(w, Made(w, call)[..k]), Made(w, call)[k].commitAt;
            && i < |v.actions|
            && var ask := v.actions[i].ask;
               && TakesPart(v, ask.room, call.actor) && AgentTakesPart(v, ask.room, ask.agent)
               && Authorized(v, ask, call.now) && Permitted(v, ask)
  {
    hide *;
    EmptyWorldIsSound();
    RunsAreLegal(EMPTY, calls);
    var w := After(EMPTY, calls);
    var made := Made(w, call);
    CallIsLegal(w, call);
    CommitIsTheCallers(w, call, k);
    EveryCommitIsSanctioned(w, made, k);
    LegalKeeps(w, made[..k]);
    var v, i := Run(w, made[..k]), made[k].commitAt;
    AuthorityMeans(v, v.actions[i].ask, call.actor, call.now);
    SanctionMeans(v, v.actions[i].ask);
  }

  // ----------------------------------------------------------------- who is turned away

  /** The current user and the agent both belong to the room. */
  ghost predicate Together(w: World, room: nat, agent: string, actor: Actor) {
    TakesPart(w, room, actor) && AgentTakesPart(w, room, agent)
  }

  lemma CodesOfTheUngoverned(w: World, agent: string, now: int)
    ensures GovernedCode(w, agent, now) == 400 || GovernedCode(w, agent, now) == 404 || GovernedCode(w, agent, now) == 409
  {
    hide HasPassport;
  }

  lemma AuthorityCodeIs(w: World, ask: Ask, actor: Actor, now: int)
    requires Inv(w)
    ensures AuthorityCode(w, ask, actor, now) == 403 <==> InForce(w, ask.agent, now) && !Together(w, ask.room, ask.agent, actor)
    ensures !Together(w, ask.room, ask.agent, actor) ==> !AuthorityHolds(w, ask, actor, now)
  {
    GovernedMeans(w, ask.agent, now);
    RoomMeans(w, ask.room, ask.agent, actor);
    CodesOfTheUngoverned(w, ask.agent, now);
    hide Inv, Governed, InRoom, InForce, TakesPart, AgentTakesPart, GovernedCode;
  }

  lemma AuthorizedIsNotForbidden(w: World, i: nat, actor: Actor, now: int)
    requires i < |w.actions| && AuthorityHolds(w, w.actions[i].ask, actor, now)
    ensures ExecutePlan(w, i, actor, now).reply != Failed(403)
  {
    hide AuthorityHolds, AuthorityCode, Sanctioned, Outcome, EvidencePack, ExecutedRecord;
  }

  /** A new key: no action has it. */
  ghost predicate NewKey(w: World, key: string) {
    forall i :: 0 <= i < |w.actions| ==> w.actions[i].ask.key != key
  }

  predicate KnownAction(name: string) {
    name in {"inventory_report", "verify_integrity", "evidence_export", "crm_write", "purchase"}
  }

  lemma KnownActions(name: string)
    ensures name in LABELS <==> KnownAction(name)
  {
  }

  /**
    A new request is forbidden exactly if its action is known, its agent governed, and the
    current user or the agent does not belong to the room; and then nothing is written.
   */
  lemma {:induction false} RequestIsForbiddenIff(w: World, room: nat, agent: string, name: string, key: string, actor: Actor, now: int)
    requires Inv(w) && NewKey(w, key)
    ensures var plan := RequestActionPlan(w, room, agent, name, key, actor, now);
            && (plan.reply == Failed(403) <==> KnownAction(name) && InForce(w, agent, now) && !Together(w, room, agent, actor))
            && (!KnownAction(name) ==> plan == Plan([], Failed(400)))
            && (!Together(w, room, agent, actor) ==> plan.writes == [] && plan.reply.Failed?)
  {
    KnownActions(name);
    assert ActionWithKey(w, key) == |w.actions|;
    hide Inv, Governed, InRoom, InForce, Together, GovernedCode, RequestWrites, ExecutePlan, Run, Authorize, ActionWithKey, NewKey, KnownAction, LABELS;
    GovernedMeans(w, agent, now);
    TogetherMeans(w, room, agent, actor);
    CodesOfTheUngoverned(w, agent, now);
    if name in LABELS && Governed(w, agent, now) && InRoom(w, room, agent, actor) {
      LetInIsNotForbidden(w, room, agent, name, key, actor, now);
    }
  }

  lemma TogetherMeans(w: World, room: nat, agent: string, actor: Actor)
    ensures InRoom(w, room, agent, actor) <==> Together(w, room, agent, actor)
  {
    RoomMeans(w, room, agent, actor);
    hide InRoom, TakesPart, AgentTakesPart;
  }

  lemma {:induction false} LetInIsNotForbidden(w: World, room: nat, agent: string, name: string, key: string, actor: Actor, now: int)
    requires Inv(w) && ActionWithKey(w, key) == |w.actions| && name in LABELS && Governed(w, agent, now) && InRoom(w, room, agent, actor)
    ensures RequestActionPlan(w, room, agent, name, key, actor, now).reply != Failed(403)
  {
    hide Inv, Governed, InRoom, GovernedCode, RequestWrites, ExecutePlan, Run, Authorize, ActionWithKey;
    GovernedHasItsMandate(w, agent, now);
    GovernedHasOne(w, agent, now);
    if Authorize(w, w.mandates[ActiveMandateAt(w, agent)], name, key) == Allowed {
      var v := Run(w, RequestWrites(w, room, agent, name, key, now));
      AllowedRequestIsExecutable(w, room, agent, name, key, actor, now);
      AuthorizedIsNotForbidden(v, |w.actions|, actor, now);
    }
  }

  lemma GovernedHasOne(w: World, agent: string, now: int)
    requires Governed(w, agent, now)
    ensures ActiveMandateAt(w, agent) < |w.mandates|
  {
  }

  /** The decision would still change something: the approval waits, or it was given and never carried out. */
  predicate Undecided(action: Action, approval: Approval, approve: bool) {
    approval.status == Awaiting || (approve && approval.status == Approved && action.count == 0)
  }

  /**
    Deciding an action's approval is forbidden exactly if there is something left to decide,
    its agent is governed, and the human or the agent does not belong to the action's room;
    and then nothing is written.
   */
  lemma {:induction false} DecisionIsForbiddenIff(w: World, i: nat, j: nat, approve: bool, actor: Actor, now: int)
    requires Inv(w) && i < |w.actions| && j < |w.approvals| && w.actions[i].ask.approval == Some(w.approvals[j].id)
    ensures var plan, ask := DecideApprovalPlan(w, w.approvals[j].id, approve, actor, now), w.actions[i].ask;
            && (plan.reply == Failed(403) <==>
                  Undecided(w.actions[i], w.approvals[j], approve) && InForce(w, ask.agent, now) && !Together(w, ask.room, ask.agent, actor))
            && (!Together(w, ask.room, ask.agent, actor) ==> plan.writes == [])
            && (!Together(w, ask.room, ask.agent, actor) && Undecided(w.actions[i], w.approvals[j], approve) ==> plan.reply.Failed?)
  {
    UniqueAction(w, i, w.approvals[j].id);
    assert ApprovalAt(w, w.approvals[j].id) == j by {
      assert ApprovalsSound(w.approvals, w.nextId);
    }
    hide Inv, AuthorityHolds, AuthorityCode, ExecutePlan, Run, Together, InForce, ActionWithApproval, ApprovalAt;
    AuthorityCodeIs(w, w.actions[i].ask, actor, now);
    if AuthorityHolds(w, w.actions[i].ask, actor, now) {
      AuthorizedIsNotForbidden(w, i, actor, now);
      if w.approvals[j].status == Awaiting {
        FirstDecisionIsNotForbidden(w, i, j, approve, actor, now);
      }
    }
  }

  lemma {:induction false} FirstDecisionIsNotForbidden(w: World, i: nat, j: nat, approve: bool, actor: Actor, now: int)
    requires i < |w.actions| && j < |w.approvals| && w.approvals[j].status == Awaiting
    requires ActionWithApproval(w, w.approvals[j].id) == i && ApprovalAt(w, w.approvals[j].id) == j
    requires AuthorityHolds(w, w.actions[i].ask, actor, now)
    ensures DecideApprovalPlan(w, w.approvals[j].id, approve, actor, now).reply != Failed(403)
  {
    hide AuthorityHolds, AuthorityCode, ExecutePlan, Run, ActionWithApproval, ApprovalAt, Resolved, Resolution, Proper;
    ResolutionIsProper(w, j, approve, w.actions[i].ask);
    DecisionUnfolds(w, w.approvals[j].id, approve, actor, now);
    ResolvedChanges(w, j, approve, w.actions[i].ask, actor, now);
    AuthorizedIsNotForbidden(Run(w, Resolution(j, approve, w.actions[i].ask)), i, actor, now);
  }

  lemma ResolvedChanges(w: World, j: nat, approve: bool, ask: Ask, actor: Actor, now: int)
    requires j < |w.approvals|
    ensures var v := Resolved(w, j, approve, ask);
            v.actions == w.actions && AuthorityHolds(v, ask, actor, now) == AuthorityHolds(w, ask, actor, now)
  {
    var v := Resolved(w, j, approve, ask);
    assert v == w.(approvals := v.approvals, decided := v.decided, ledger := v.ledger);
    hide Resolved;
  }

  /** The same for proposing a memory, from an action or from a finished room run. */
  lemma {:induction false} ProposalIsForbiddenIff(w: World, room: nat, agent: string, title: string, content: string, run: string, actor: Actor, now: int)
    requires Inv(w)
    ensures var plan := ProposeMemoryPlan(w, room, agent, title, content, actor, now);
            && (plan.reply == Failed(403) <==> InForce(w, agent, now) && !Together(w, room, agent, actor))
            && (!Together(w, room, agent, actor) ==> plan.writes == [] && plan.reply.Failed?)
    ensures var plan := ProposeBuildMemoryPlan(w, room, agent, run, title, content, actor, now);
            && (plan.reply == Failed(403) <==> !Together(w, room, agent, actor))
            && (!Together(w, room, agent, actor) ==> plan.writes == [])
  {
    GovernedMeans(w, agent, now);
    RoomMeans(w, room, agent, actor);
    CodesOfTheUngoverned(w, agent, now);
    hide Inv, Governed, InRoom, InForce, TakesPart, AgentTakesPart, GovernedCode;
  }

  /** Reviewing a proposed memory is forbidden exactly to a named proposer and to anyone outside its room. */
  lemma {:induction false} ReviewIsForbiddenIff(w: World, i: nat, approve: bool, edited: Option<string>, actor: Actor)
    requires Inv(w) && i < |w.memories| && w.memories[i].status == Proposed
    ensures var plan, m := ReviewMemoryPlan(w, w.memories[i].id, approve, edited, actor), w.memories[i];
            && (plan.reply == Failed(403) <==> (actor.named && m.proposer == actor.human) || !Together(w, m.room, m.agent, actor))
            && (plan.writes == [] <==> plan.reply == Failed(403))
  {
    hide ActionsSound, ApprovalsSound, ActionsApproved, MandatesSound, PacksSound, EventsSound, MemoryEventsSound;
    assert MemoriesSound(w.memories, w.nextId);
    assert MemorySound(w.memories[i]);
    assert MemoryAt(w, w.memories[i].id) == i;
    RoomMeans(w, w.memories[i].room, w.memories[i].agent, actor);
    hide InRoom, TakesPart, AgentTakesPart, DecidedMemory, MemoryHash;
  }

  // ------------------------------------------------------------------ who is let in

  lemma {:induction false} RegistriesStay(w: World, writes: seq<Write>, actor: Actor, now: int)
    requires AllBy(writes, actor, now)
    ensures SameRegistries(w, Run(w, writes))
    decreases |writes|
  {
    if writes != [] {
      RegistriesStay(w, writes[..|writes| - 1], actor, now);
      assert CommittedBy(writes[|writes| - 1], actor, now);
      OneWriteKeepsRegistries(Run(w, writes[..|writes| - 1]), writes[|writes| - 1]);
      hide Apply;
    }
  }

  predicate SameRegistries(a: World, b: World) {
    a.agents == b.agents && a.bindings == b.bindings && a.passports == b.passports && a.rooms == b.rooms
  }

  lemma OneWriteKeepsRegistries(w: World, write: Write)
    requires !Registers(write)
    ensures SameRegistries(w, Apply(w, write))
  {
  }

  /** Only the first write of such an operation concerns the registries. */
  lemma {:induction false} FirstWriteCounts(w: World, writes: seq<Write>)
    requires writes != [] && NotedChange(writes)
    ensures SameRegistries(Apply(w, writes[0]), Run(w, writes))
    decreases |writes|
  {
    if |writes| > 1 {
      FirstWriteCounts(w, writes[..|writes| - 1]);
    } else {
      assert writes[..0] == [];
    }
  }

  /** Cut or not, an operation either makes its change or leaves everything as it was. */
  lemma {:induction false} ChangeIsMade(w: World, call: Call)
    requires NotedChange(Writes(w, call))
    ensures SameRegistries(w, Run(w, Made(w, call)))
            || (Writes(w, call) != [] && SameRegistries(Apply(w, Writes(w, call)[0]), Run(w, Made(w, call))))
  {
    var made := Made(w, call);
    NothingIsProper(w);
    if made != [] {
      assert made[0] == Writes(w, call)[0] && forall k :: 1 <= k < |made| ==> made[k] == Writes(w, call)[k];
      hide PlanOf, Made, Run;
      FirstWriteCounts(w, made);
    }
  }

  /** An administrator's change: one room's humans, and nothing else of it. */
  ghost predicate SetsMembers(before: World, rooms: seq<Room>, room: nat, humans: set<string>) {
    exists r: nat :: IsRoom(before, room, r) && rooms == before.rooms[r := before.rooms[r].(humans := humans)]
  }

  /** A new room: its creator is its only human, and all its agents are governed. */
  ghost predicate AddsRoom(before: World, rooms: seq<Room>, creator: string, agent: string, name: string, now: int) {
    && |rooms| == |before.rooms| + 1 && rooms[..|before.rooms|] == before.rooms
    && var room := rooms[|before.rooms|];
       room.name == name && room.humans == {creator} && agent in room.agents && forall a :: a in room.agents ==> InForce(before, a, now)
  }

  lemma {:induction false} MembersAreSet(w: World, call: Call)
    requires call.op.SetRoomMembers?
    ensures var rooms := Run(w, Made(w, call)).rooms;
            rooms == w.rooms || (call.actor.admin && SetsMembers(w, rooms, call.op.room, call.op.humans))
  {
    var i := RoomAt(w, call.op.room);
    assert NotedChange(Writes(w, call));
    ChangeIsMade(w, call);
    if Writes(w, call) != [] {
      assert IsRoom(w, call.op.room, i);
    }
    hide Run, Made;
  }

  lemma {:induction false} RoomPlanIs(w: World, agent: string, name: string, peers: seq<string>, actor: Actor, now: int)
    ensures var writes := CreateRoomPlan(w, agent, name, peers, actor, now).writes;
            var room := Room(w.nextId, name, {actor.human}, {agent} + set peer | peer in peers);
            && NotedChange(writes)
            && (writes != [] ==> writes[0] == AddRoom(room) && forall a :: a in room.agents ==> Governed(w, a, now))
  {
    hide Governed, GovernedCode;
  }

  lemma {:induction false} RoomIsAdded(w: World, call: Call)
    requires Inv(w) && call.op.CreateRoom?
    ensures var rooms := Run(w, Made(w, call)).rooms;
            rooms == w.rooms || AddsRoom(w, rooms, call.actor.human, call.op.agent, call.op.name, call.now)
  {
    var writes := Writes(w, call);
    RoomPlanIs(w, call.op.agent, call.op.name, call.op.peers, call.actor, call.now);
    hide Governed, InForce, Inv, CreateRoomPlan, Run, Made;
    ChangeIsMade(w, call);
    if writes != [] {
      forall a | a in writes[0].room.agents ensures InForce(w, a, call.now) {
        GovernedMeans(w, a, call.now);
      }
    }
  }

  /**
    What a call, cut or not, can do to the rooms: an administrator sets one room's humans, or
    a new room is added with its creator as its only human; anything else leaves them alone.
    So nobody is ever listed in a room who did not create it and was not put there by an
    administrator.
   */
  lemma {:induction false} RoomsChangeOnlySo(w: World, call: Call)
    requires Inv(w)
    ensures var rooms := Run(w, Made(w, call)).rooms;
            || rooms == w.rooms
            || (call.op.SetRoomMembers? && call.actor.admin && SetsMembers(w, rooms, call.op.room, call.op.humans))
            || (call.op.CreateRoom? && AddsRoom(w, rooms, call.actor.human, call.op.agent, call.op.name, call.now))
  {
    if call.op.SetRoomMembers? {
      MembersAreSet(w, call);
    } else if call.op.CreateRoom? {
      RoomIsAdded(w, call);
    } else {
      OthersKeepRooms(w, call);
    }
    hide Inv, Run, PlanOf, Made, SetsMembers, AddsRoom;
  }

  lemma {:induction false} OthersKeepRegistries(w: World, call: Call)
    requires !Registering(call.op)
    ensures SameRegistries(w, Run(w, Made(w, call)))
  {
    PlanIsBy(w, call.op, call.actor, call.now);
    hide PlanOf, Run, CommittedBy, SameRegistries;
    assert AllBy(Made(w, call), call.actor, call.now);
    RegistriesStay(w, Made(w, call), call.actor, call.now);
  }

  lemma {:induction false} OthersKeepRooms(w: World, call: Call)
    requires !call.op.CreateRoom? && !call.op.SetRoomMembers?
    ensures Run(w, Made(w, call)).rooms == w.rooms
  {
    if Registering(call.op) {
      IdentityWritesAre(w, call.op.agent, if call.op.Bind? then call.op.human else "", call.now);
      hide Run, Made, RegisterPlan, BindPlan, IssuePassportPlan;
      ChangeIsMade(w, call);
    } else {
      hide Run, Made, PlanOf;
      OthersKeepRegistries(w, call);
    }
  }

  // ---------------------------------------------------------------- who is who, for good

  /** One owner and one passport an agent, the passport made out to the owner. */
  ghost predicate OneIdentity(w: World) {
    && (forall i, j :: 0 <= i < j < |w.bindings| ==> w.bindings[i].agent != w.bindings[j].agent)
    && (forall i, j :: 0 <= i < j < |w.passports| ==> w.passports[i].agent != w.passports[j].agent)
    && (forall i :: 0 <= i < |w.bindings| ==> w.bindings[i].agent in w.agents)
    && (forall i :: 0 <= i < |w.passports| ==> w.passports[i].active && Binding(w.passports[i].agent, w.passports[i].owner) in w.bindings)
  }

  ghost predicate IdentityKept(a: World, b: World) {
    a.agents <= b.agents && a.bindings <= b.bindings && a.passports <= b.passports
  }

  /** A change of who is who that is in order. */
  ghost predicate InOrder(w: World, write: Write) {
    match write
    case AddBinding(binding) => binding.agent in w.agents && forall i :: 0 <= i < |w.bindings| ==> w.bindings[i].agent != binding.agent
    case AddPassport(passport) =>
      && passport.active && Binding(passport.agent, passport.owner) in w.bindings
      && forall i :: 0 <= i < |w.passports| ==> w.passports[i].agent != passport.agent
    case _ => true
  }

  lemma FirstWriteKeepsIdentity(w: World, write: Write)
    requires OneIdentity(w) && InOrder(w, write)
    ensures OneIdentity(Apply(w, write)) && IdentityKept(w, Apply(w, write))
  {
  }

  lemma {:induction false} RegisteringWritesAre(w: World, call: Call)
    requires Registering(call.op)
    ensures var writes := Writes(w, call);
            NotedChange(writes) && (writes != [] ==> InOrder(w, writes[0]))
  {
    match call.op
    case Register(agent) => IdentityWritesAre(w, agent, "", call.now);
    case Bind(agent, human) => IdentityWritesAre(w, agent, human, call.now);
    case IssuePassport(agent) => IdentityWritesAre(w, agent, "", call.now);
    case CreateRoom(agent, name, peers) => RoomPlanIs(w, agent, name, peers, call.actor, call.now);
    case SetRoomMembers(room, humans) =>
    case _ =>
    hide Governed, GovernedCode;
  }

  lemma SameRegistriesSameIdentity(a: World, b: World, c: World)
    requires SameRegistries(b, c) && OneIdentity(b) && IdentityKept(a, b)
    ensures OneIdentity(c) && IdentityKept(a, c)
  {
  }

  /** Operations of all kinds, cut or not, keep every agent's owner and passport. */
  lemma {:induction false} CallKeepsIdentity(w: World, call: Call)
    requires OneIdentity(w)
    ensures OneIdentity(Run(w, Made(w, call))) && IdentityKept(w, Run(w, Made(w, call)))
  {
    var op, w' := call.op, Run(w, Made(w, call));
    hide OneIdentity, SameRegistries, Run, Made;
    if !Registering(op) {
      OthersKeepRegistries(w, call);
      SameRegistriesSameIdentity(w, w, w');
    } else {
      RegisteringWritesAre(w, call);
      ChangeIsMade(w, call);
      if SameRegistries(w, w') {
        SameRegistriesSameIdentity(w, w, w');
      } else {
        FirstWriteKeepsIdentity(w, Writes(w, call)[0]);
        SameRegistriesSameIdentity(w, Apply(w, Writes(w, call)[0]), w');
      }
    }
  }

  /**
    Over every run: each agent has at most one owner and one passport, the passport is active
    and made out to the owner, and none of it is ever taken back.
   */
  lemma {:induction false} IdentitiesAreForGood(calls: seq<Call>, more: seq<Call>)
    ensures OneIdentity(After(EMPTY, calls)) && IdentityKept(After(EMPTY, calls), After(EMPTY, calls + more))
    decreases |calls| + |more|
  {
    if more != [] {
      var init, last := more[..|more| - 1], more[|more| - 1];
      assert (calls + more)[..|calls + more| - 1] == calls + init && (calls + more)[|calls + more| - 1] == last;
      hide OneIdentity, IdentityKept, Run, Made;
      IdentitiesAreForGood(calls, init);
      IdentitiesAreForGood(calls + init, []);
      AfterOneMore(EMPTY, calls + init, last);
      CallKeepsIdentity(After(EMPTY, calls + init), last);
      KeptTransitive(After(EMPTY, calls), After(EMPTY, calls + init), After(EMPTY, calls + more));
    } else if calls != [] {
      var init, last := calls[..|calls| - 1], calls[|calls| - 1];
      assert calls + more == calls && calls == init + [last];
      assert init + [] == init;
      hide OneIdentity, Run, Made;
      IdentitiesAreForGood(init, []);
      AfterOneMore(EMPTY, init, last);
      CallKeepsIdentity(After(EMPTY, init), last);
    } else {
      assert calls + more == [];
    }
  }

  lemma KeptTransitive(a: World, b: World, c: World)
    requires IdentityKept(a, b) && IdentityKept(b, c)
    ensures IdentityKept(a, c)
  {
  }

  lemma {:induction false} AfterOneMore(w: World, calls: seq<Call>, call: Call)
    ensures After(w, calls + [call]) == Run(After(w, calls), Made(After(w, calls), call))
  {
    assert (calls + [call])[..|calls|] == calls;
    RunAppends(w, Trace(w, calls), Made(After(w, calls), call));
    hide Made;
  }
}
