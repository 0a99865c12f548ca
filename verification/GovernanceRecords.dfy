/**
  What the governance service writes down: the results of its actions, the mandates it gives
  and takes back, and the memories it proposes and reviews, in terms of the stored lists.
 */
module GovernanceRecords {
  import opened Options
  import opened GovernanceModel
  import opened GovernancePlans
  import opened GovernanceSafety
  import opened GovernanceRecovery
  import opened GovernanceRuns
  import opened GovernanceTheorems
  import opened GovernanceAccess

  // ---------------------------------------------------------------- what an execution reports

  ghost predicate Unowned(w: World, agent: string) {
    agent in w.agents && forall i :: 0 <= i < |w.bindings| ==> w.bindings[i].agent != agent
  }

  /** The count of agents in force and of those without an owner; the length of the ledger; or all of it. */
  ghost predicate Reports(w: World, ask: Ask, human: string, now: int, result: Result) {
    if ask.name == "inventory_report" then
      && result.Inventory? && result.registered == |w.agents|
      && result.governed == |set agent | agent in w.agents && InForce(w, agent, now)|
      && result.unowned == |set agent | agent in w.agents && Unowned(w, agent)|
    else if ask.name == "verify_integrity" then result == Integrity(|w.ledger|)
    else result == Export(|w.ledger|, HashOf(PackDocument(Pack(ask, human, now, w.ledger))))
  }

  lemma OutcomeReports(w: World, ask: Ask, actor: Actor, now: int)
    requires Inv(w)
    ensures Reports(w, ask, actor.human, now, Outcome(w, ask, actor, now))
  {
    forall agent ensures Governed(w, agent, now) <==> InForce(w, agent, now) {
      GovernedMeans(w, agent, now);
    }
    hide Inv, Governed, InForce;
    assert GovernedAgents(w, now) == set agent | agent in w.agents && InForce(w, agent, now);
    assert UnownedAgents(w) == set agent | agent in w.agents && Unowned(w, agent) by {
      forall agent | agent in w.agents ensures BindingAt(w, agent) == |w.bindings| <==> Unowned(w, agent) {
        assert BindingAt(w, agent) < |w.bindings| ==> w.bindings[BindingAt(w, agent)].agent == agent;
      }
    }
  }

  /** The record of an action that was executed at this time with this result, all else as it was asked. */
  ghost predicate RecordsExecution(before: Action, after: Action, result: Result, now: int) {
    && after.ask == before.ask && after.reason == before.reason
    && after.status == Executed && after.count == 1 && after.executedAt == Some(now) && after.result == Some(result)
    && after.receipt == Some(Receipt(PLANE, HashOf(ActionDocument(after.(receipt := None)))))
  }

  /**
    Over every run each commit records, at its own time, what the stores hold at that moment:
    the agents in force and without owner, the length of the ledger, or the ledger itself,
    asked for by the caller; and an export's file is there before it.
   */
  lemma {:induction false} CommitsReport(calls: seq<Call>, call: Call, k: nat)
    requires k < |Made(After(EMPTY, calls), call)| && Made(After(EMPTY, calls), call)[k].Commit?
    ensures var w := After(EMPTY, calls);
            var v, write := Run(w, Made(w, call)[..k]), Made(w, call)[k];
            var i := write.commitAt;
            && i < |v.actions| && i < |Apply(v, write).actions|
            && Reports(v, v.actions[i].ask, call.actor.human, call.now, write.result)
            && RecordsExecution(v.actions[i], Apply(v, write).actions[i], write.result, call.now)
            && (write.result.Export? ==> v.actions[i].ask.id in v.packs && HashOf(PackDocument(v.packs[v.actions[i].ask.id])) == write.result.contentHash)
  {
    hide *;
    EmptyWorldIsSound();
    RunsAreLegal(EMPTY, calls);
    var w := After(EMPTY, calls);
    var made := Made(w, call);
    CallIsLegal(w, call);
    CommitIsTheCallers(w, call, k);
    EveryCommitIsSanctioned(w, made, k);
    LegalKeeps(w, made[..k]);
    CommitInOrderReports(Run(w, made[..k]), made[k]);
  }

  lemma CommitInOrderReports(v: World, write: Write)
    requires Inv(v) && Ok(v, write) && write.Commit?
    ensures var i := write.commitAt;
            && i < |v.actions| && i < |Apply(v, write).actions|
            && Reports(v, v.actions[i].ask, write.actor.human, write.now, write.result)
            && RecordsExecution(v.actions[i], Apply(v, write).actions[i], write.result, write.now)
            && (write.result.Export? ==> v.actions[i].ask.id in v.packs && HashOf(PackDocument(v.packs[v.actions[i].ask.id])) == write.result.contentHash)
  {
    OutcomeReports(v, v.actions[write.commitAt].ask, write.actor, write.now);
    hide Inv, AuthorityHolds, Sanctioned, Outcome, Reports;
  }

  // ---------------------------------------------------------------- owners and passports

  /** Only a registered agent gets an owner, and only once; asked again for the same one, all is well. */
  lemma {:induction false} OwnerIsAnswered(w: World, agent: string, human: string)
    ensures var plan := BindPlan(w, agent, human);
            && (agent !in w.agents ==> plan == Plan([], Failed(404)))
            && (forall b: nat :: agent in w.agents && IsBinding(w, agent, b) ==>
                  plan == Plan([], if w.bindings[b].human == human then Done else Failed(409)))
            && (agent in w.agents && (forall b: nat :: !IsBinding(w, agent, b)) ==>
                  plan.reply == Done && Run(w, plan.writes).bindings == w.bindings + [Binding(agent, human)])
  {
    var i := BindingAt(w, agent);
    assert forall b: nat :: IsBinding(w, agent, b) <==> b == i && b < |w.bindings|;
    assert i < |w.bindings| ==> IsBinding(w, agent, i);
    RunsTwo(w, AddBinding(Binding(agent, human)), Append(Noted("HUMAN_BOUND", agent)));
    hide Run;
  }

  /** A passport is for an agent with an owner, made out to that owner for a year, and only one. */
  lemma {:induction false} PassportIsIssued(w: World, agent: string, now: int)
    ensures var plan := IssuePassportPlan(w, agent, now);
            && (agent !in w.agents ==> plan == Plan([], Failed(404)))
            && (agent in w.agents && (forall b: nat :: !IsBinding(w, agent, b)) ==> plan == Plan([], Failed(400)))
            && (forall b: nat :: agent in w.agents && IsBinding(w, agent, b) ==>
                  if exists p: nat :: IsPassport(w, agent, p) then plan == Plan([], Done)
                  else plan.reply == Done
                       && Run(w, plan.writes).passports == w.passports + [Passport(w.nextId, agent, w.bindings[b].human, true, now + 365 * 86400000)])
  {
    var i, j := BindingAt(w, agent), PassportAt(w, agent);
    assert forall b: nat :: IsBinding(w, agent, b) <==> b == i && b < |w.bindings|;
    assert i < |w.bindings| ==> IsBinding(w, agent, i);
    assert forall p: nat :: IsPassport(w, agent, p) <==> p == j && p < |w.passports|;
    assert j < |w.passports| ==> IsPassport(w, agent, j);
    if i < |w.bindings| {
      RunsThree(w, AddPassport(Passport(w.nextId, agent, w.bindings[i].human, true, now + 365 * DAY)),
                Append(Noted("PASSPORT_ISSUED", agent)), Append(Noted("CLASSIFIED_MANAGED", agent)));
    }
    hide Run;
  }

  /** One room of a name for an agent: asked for again it is there, else it is made of governed agents and its creator. */
  lemma {:induction false} RoomIsMade(w: World, agent: string, name: string, peers: seq<string>, actor: Actor, now: int)
    requires Inv(w)
    ensures var plan := CreateRoomPlan(w, agent, name, peers, actor, now);
            var together := InForce(w, agent, now) && forall i :: 0 <= i < |peers| ==> InForce(w, peers[i], now);
            var there := exists i :: 0 <= i < |w.rooms| && w.rooms[i].name == name && agent in w.rooms[i].agents;
            && (plan.reply == Done <==> together)
            && (!together || there ==> plan.writes == [])
            && (together && !there ==>
                  Run(w, plan.writes).rooms == w.rooms + [Room(w.nextId, name, {actor.human}, {agent} + set peer | peer in peers)])
  {
    hide *;
    GovernedMeans(w, agent, now);
    forall i | 0 <= i < |peers| ensures Governed(w, peers[i], now) <==> InForce(w, peers[i], now) {
      GovernedMeans(w, peers[i], now);
    }
    RoomPlanMakes(w, agent, name, peers, actor, now);
  }

  lemma {:induction false} RoomPlanMakes(w: World, agent: string, name: string, peers: seq<string>, actor: Actor, now: int)
    ensures var plan := CreateRoomPlan(w, agent, name, peers, actor, now);
            var together := Governed(w, agent, now) && forall i :: 0 <= i < |peers| ==> Governed(w, peers[i], now);
            var there := exists i :: 0 <= i < |w.rooms| && w.rooms[i].name == name && agent in w.rooms[i].agents;
            && (plan.reply == Done <==> together)
            && (!together || there ==> plan.writes == [])
            && (together && !there ==>
                  Run(w, plan.writes).rooms == w.rooms + [Room(w.nextId, name, {actor.human}, {agent} + set peer | peer in peers)])
  {
    var room := Room(w.nextId, name, {actor.human}, {agent} + set peer | peer in peers);
    RunsThree(w, AddRoom(room), Append(Noted("ROOM_CREATED", agent)), Append(Noted("ROOM_JOINED", agent)));
    hide Governed, GovernedCode, Run;
    assert (exists r :: r in w.rooms && r.name == name && agent in r.agents) <==>
           exists i :: 0 <= i < |w.rooms| && w.rooms[i].name == name && agent in w.rooms[i].agents;
  }

  /** What an operation by an agent that is not governed is answered with. */
  lemma {:induction false} UngovernedIsTold(w: World, agent: string, now: int)
    requires Inv(w) && !InForce(w, agent, now)
    ensures GovernedCode(w, agent, now) ==
            if agent !in w.agents then 404
            else if !exists p: nat, b: nat :: IsPassport(w, agent, p) && IsBinding(w, agent, b) && w.passports[p].owner == w.bindings[b].human then 400
            else if exists p: nat :: Owned(w, agent, p, now) then 400
            else 409
  {
    PassportMeans(w, agent, now);
    var i, j := BindingAt(w, agent), PassportAt(w, agent);
    assert forall b: nat :: IsBinding(w, agent, b) <==> b == i && b < |w.bindings|;
    assert forall p: nat :: IsPassport(w, agent, p) <==> p == j && p < |w.passports|;
    hide Inv, HasPassport, Owned, InForce;
    if i < |w.bindings| && j < |w.passports| {
      assert IsBinding(w, agent, i) && IsPassport(w, agent, j);
    }
  }

  // ------------------------------------------------------------------------------ mandates

  /** An active mandate that is as much as is asked for. */
  ghost predicate HasEnough(w: World, agent: string, productBuild: bool) {
    exists m: nat :: IsMandate(w, agent, m) && (productBuild ==> "product_build" in w.mandates[m].needApproval)
  }

  /** Thirty days of reports and checks; exports, and product builds if asked for, by approval; no purchase, no writing to the CRM. */
  function WorkspaceMandate(id: nat, agent: string, productBuild: bool, now: int): Mandate {
    Mandate(id, agent, Active, now + 30 * 86400000, {"inventory_report", "verify_integrity"}, {"crm_write", "purchase"},
            if productBuild then {"evidence_export", "product_build"} else {"evidence_export"})
  }

  /** What waited for a human under this mandate waits no more; all else is as it was. */
  ghost predicate Withdrawn(before: seq<Approval>, after: seq<Approval>, mandate: nat) {
    |after| == |before| && forall j :: 0 <= j < |before| ==>
      after[j] == if before[j].status == Awaiting && before[j].mandate == mandate then before[j].(status := Invalidated) else before[j]
  }

  lemma {:induction false} CreationMakes(w: World, agent: string, productBuild: bool, now: int)
    ensures var w' := Run(w, CreateMandatePlan(w, agent, productBuild, now).writes);
            w'.mandates == w.mandates + [WorkspaceMandate(w.nextId, agent, productBuild, now)] && w'.approvals == w.approvals
  {
    RunsThree(w, AddMandate(NewMandate(w.nextId, agent, productBuild, now)), Append(Noted("MANDATE_CREATED", agent)), Append(Noted("MANDATE_SIGNED", agent)));
    assert NewMandate(w.nextId, agent, productBuild, now) == WorkspaceMandate(w.nextId, agent, productBuild, now);
    hide Run;
  }

  lemma {:induction false} RunsTwo(w: World, a: Write, b: Write)
    ensures Run(w, [a, b]) == Apply(Apply(w, a), b)
  {
    assert [a, b][..1] == [a] && [a][..0] == [] && Run(w, []) == w;
    hide Apply;
  }

  lemma {:induction false} RunsThree(w: World, a: Write, b: Write, c: Write)
    ensures Run(w, [a, b, c]) == Apply(Apply(Apply(w, a), b), c)
  {
    RunsTwo(w, a, b);
    assert [a, b, c][..2] == [a, b];
    hide Apply;
  }

  lemma {:induction false} RevocationMakes(w: World, i: nat, now: int)
    requires i < |w.mandates| && w.mandates[i].status != Revoked
    ensures var plan := LifecyclePlan(w, i, Revoke, now);
            var w' := Run(w, plan.writes);
            && plan.reply == Done && w'.mandates == w.mandates[i := w.mandates[i].(status := Revoked)] && w'.nextId == w.nextId
            && Withdrawn(w.approvals, w'.approvals, w.mandates[i].id)
  {
    RunsThree(w, SetMandate(i, Revoked), InvalidateApprovals(w.mandates[i].id), Append(Noted("MANDATE_REVOKED", w.mandates[i].agent)));
    hide Run;
  }

  /**
    Assigning a mandate to an agent with a passport in force changes nothing if it has enough,
    and else gives it exactly the workspace mandate, in the place of one that it revokes
    together with all that still waits under it.
   */
  lemma {:induction false} AssignmentMakes(w: World, agent: string, productBuild: bool, now: int)
    requires Inv(w) && exists p: nat :: Owned(w, agent, p, now)
    ensures var plan := AssignMandatePlan(w, agent, productBuild, now);
            var w' := Run(w, plan.writes);
            && plan.reply == Done
            && (HasEnough(w, agent, productBuild) ==> w' == w)
            && (!HasEnough(w, agent, productBuild) ==>
                  && (forall m: nat :: IsMandate(w, agent, m) ==>
                        && w'.mandates == w.mandates[m := w.mandates[m].(status := Revoked)] + [WorkspaceMandate(w.nextId, agent, productBuild, now)]
                        && Withdrawn(w.approvals, w'.approvals, w.mandates[m].id))
                  && ((forall m: nat :: !IsMandate(w, agent, m)) ==>
                        w'.mandates == w.mandates + [WorkspaceMandate(w.nextId, agent, productBuild, now)] && w'.approvals == w.approvals))
  {
    PassportMeans(w, agent, now);
    MandateMeans(w, agent);
    NothingIsProper(w);
    var i := ActiveMandateAt(w, agent);
    hide Inv, HasPassport, Owned, Run, CreateMandatePlan, Withdrawn, WorkspaceMandate, Proper;
    if i < |w.mandates| {
      assert IsMandate(w, agent, i);
      if !HasEnough(w, agent, productBuild) {
        var revoke := LifecyclePlan(w, i, Revoke, now);
        RevocationMakes(w, i, now);
        var v := Run(w, revoke.writes);
        CreationMakes(v, agent, productBuild, now);
        RunAppends(w, revoke.writes, CreateMandatePlan(v, agent, productBuild, now).writes);
      }
    } else {
      CreationMakes(w, agent, productBuild, now);
    }
  }

  ghost predicate IsNewest(w: World, agent: string, n: nat) {
    n < |w.mandates| && w.mandates[n].agent == agent && forall j :: n < j < |w.mandates| ==> w.mandates[j].agent != agent
  }

  /** Nothing undoes a revocation, and only a suspension that has not expired is undone. */
  predicate MayChange(mandate: Mandate, lifecycle: Lifecycle, now: int) {
    match lifecycle
    case Suspend => mandate.status != Revoked
    case Reactivate => mandate.status == Suspended && now < mandate.expires
    case Revoke => mandate.status != Revoked
  }

  function Changed(lifecycle: Lifecycle): MandateStatus {
    match lifecycle case Suspend => Suspended case Reactivate => Active case Revoke => Revoked
  }

  /** Suspending, reactivating and revoking change the newest mandate alone, where they may; a revocation withdraws what waits. */
  lemma {:induction false} LifecycleMakes(w: World, agent: string, lifecycle: Lifecycle, n: nat, now: int)
    requires agent in w.agents && IsNewest(w, agent, n)
    ensures var plan := UpdateMandatePlan(w, agent, lifecycle, now);
            var w' := Run(w, plan.writes);
            && (plan.reply == Done <==> MayChange(w.mandates[n], lifecycle, now))
            && (plan.reply != Done ==> plan.reply == Failed(500) && w' == w)
            && (plan.reply == Done ==>
                  && w'.mandates == w.mandates[n := w.mandates[n].(status := Changed(lifecycle))]
                  && if lifecycle == Revoke then Withdrawn(w.approvals, w'.approvals, w.mandates[n].id) else w'.approvals == w.approvals)
  {
    assert AfterNewestMandate(w, agent) == n + 1;
    NothingIsProper(w);
    hide Run, Proper, Withdrawn, AfterNewestMandate;
    match lifecycle
    case Revoke =>
      if w.mandates[n].status != Revoked {
        RevocationMakes(w, n, now);
      }
    case _ =>
      hide LifecyclePlan;
      AmendmentMakes(w, n, lifecycle, now);
  }

  lemma {:induction false} AmendmentMakes(w: World, n: nat, lifecycle: Lifecycle, now: int)
    requires n < |w.mandates| && lifecycle != Revoke
    ensures var plan := LifecyclePlan(w, n, lifecycle, now);
            var w' := Run(w, plan.writes);
            && (plan.reply == Done <==> MayChange(w.mandates[n], lifecycle, now))
            && (plan.reply != Done ==> plan == Plan([], Failed(500)))
            && (plan.reply == Done ==> w'.mandates == w.mandates[n := w.mandates[n].(status := Changed(lifecycle))] && w'.approvals == w.approvals)
  {
    RunsTwo(w, SetMandate(n, Changed(lifecycle)), Append(Noted("MANDATE_AMENDED", w.mandates[n].agent)));
    hide Run;
  }

  // ------------------------------------------------------------------------------ requests

  /** A key that an action has: sent again it changes nothing, and is refused unless it asks for the very same. */
  lemma {:induction false} ReplayIsAnswered(w: World, i: nat, room: nat, agent: string, name: string, actor: Actor, now: int)
    requires Inv(w) && i < |w.actions|
    ensures var plan, ask := RequestActionPlan(w, room, agent, name, w.actions[i].ask.key, actor, now), w.actions[i].ask;
            && plan.writes == []
            && (plan.reply == Done <==> room == ask.room && agent == ask.agent && name == ask.name)
            && (plan.reply != Done && name in LABELS ==> plan.reply == Failed(409))
  {
    assert ActionSound(w.actions[i]);
    assert forall j :: 0 <= j < i ==> !Collide(w.actions[j].ask, w.actions[i].ask);
    assert ActionWithKey(w, w.actions[i].ask.key) == i;
    hide Inv, Governed, InRoom, RequestWrites, ExecutePlan, Run;
  }

  // ------------------------------------------------------------------------------ memories

  /** The agent's latest executed action in the room. */
  ghost predicate IsLatestResult(w: World, room: nat, agent: string, i: nat) {
    && i < |w.actions| && IsResult(w.actions[i], room, agent)
    && forall j :: i < j < |w.actions| ==> !IsResult(w.actions[j], room, agent)
  }

  predicate IsResult(action: Action, room: nat, agent: string) {
    action.ask.agent == agent && action.ask.room == room && action.status == Executed
  }

  ghost predicate Proposes(w: World, w': World, room: nat, agent: string, title: string, content: string, source: Source, human: string) {
    && w'.memories == w.memories + [Memory(w.nextId, title, content, source, agent, room, human, Proposed, None, HashOf(MemoryDocument(title, content, source)))]
    && w'.ledger == w.ledger + [MemoryProposed(w.nextId, HashOf(MemoryDocument(title, content, source)))]
  }

  lemma {:induction false} ProposalMakes(w: World, room: nat, agent: string, title: string, content: string, source: Source, actor: Actor)
    ensures Proposes(w, Run(w, ProposalPlan(NewMemory(w, room, agent, title, content, source, actor)).writes), room, agent, title, content, source, actor.human)
  {
    var memory := NewMemory(w, room, agent, title, content, source, actor);
    RunsTwo(w, AddMemory(memory), Append(MemoryProposed(memory.id, memory.hash)));
    hide Run;
  }

  /** Drawn from this action, as it is given, by the current user. */
  ghost predicate ProposedFrom(w: World, plan: Plan, room: nat, agent: string, title: string, content: string, i: nat, human: string) {
    i < |w.actions| && plan.reply == Done && Proposes(w, Run(w, plan.writes), room, agent, title, content, FromAction(w.actions[i].ask.id), human)
  }

  /**
    A memory is proposed from the agent's latest executed action in the room; where there is
    no such action nothing is proposed.
   */
  lemma {:induction false} MemoryIsProposed(w: World, room: nat, agent: string, title: string, content: string, actor: Actor, now: int)
    requires Inv(w) && InForce(w, agent, now) && Together(w, room, agent, actor)
    ensures var plan := ProposeMemoryPlan(w, room, agent, title, content, actor, now);
            && (forall i: nat :: IsLatestResult(w, room, agent, i) ==> ProposedFrom(w, plan, room, agent, title, content, i, actor.human))
            && ((forall i: nat :: !IsLatestResult(w, room, agent, i)) ==> plan == Plan([], Failed(400)))
  {
    hide *;
    GovernedMeans(w, agent, now);
    TogetherMeans(w, room, agent, actor);
    LatestResultIs(w, room, agent);
    ProposalUnfolds(w, room, agent, title, content, actor, now);
    var n := LatestResult(w, room, agent);
    if n > 0 {
      assert IsLatestResult(w, room, agent, n - 1);
      DrawnFrom(w, room, agent, title, content, actor, n - 1);
    }
  }

  lemma {:induction false} DrawnFrom(w: World, room: nat, agent: string, title: string, content: string, actor: Actor, i: nat)
    requires i < |w.actions|
    ensures ProposedFrom(w, ProposalPlan(NewMemory(w, room, agent, title, content, FromAction(w.actions[i].ask.id), actor)), room, agent, title, content, i, actor.human)
  {
    ProposalMakes(w, room, agent, title, content, FromAction(w.actions[i].ask.id), actor);
    hide NewMemory, Run, Proposes;
  }

  /** One past the action a proposal is drawn from, or zero. */
  function LatestResult(w: World, room: nat, agent: string): (n: nat)
    ensures n <= |w.actions|
  {
    AfterLast(w.actions, (a: Action) => a.ask.agent == agent && a.ask.room == room && a.status == Executed && a.result.Some?)
  }

  lemma ProposalUnfolds(w: World, room: nat, agent: string, title: string, content: string, actor: Actor, now: int)
    requires Governed(w, agent, now) && InRoom(w, room, agent, actor)
    ensures var n := LatestResult(w, room, agent);
            ProposeMemoryPlan(w, room, agent, title, content, actor, now) ==
            if n == 0 then Plan([], Failed(400)) else ProposalPlan(NewMemory(w, room, agent, title, content, FromAction(w.actions[n - 1].ask.id), actor))
  {
    hide Governed, InRoom, NewMemory;
  }

  lemma LatestResultIs(w: World, room: nat, agent: string)
    requires Inv(w)
    ensures var n := LatestResult(w, room, agent);
            forall i: nat :: IsLatestResult(w, room, agent, i) <==> i + 1 == n
  {
    hide ApprovalsSound, ActionsApproved, MandatesSound, PacksSound, EventsSound, MemoriesSound, MemoryEventsSound;
    var n := LatestResult(w, room, agent);
    assert forall i :: 0 <= i < |w.actions| && w.actions[i].status == Executed ==> w.actions[i].result.Some? by {
      assert forall i :: 0 <= i < |w.actions| ==> ActionSound(w.actions[i]);
    }
    assert n > 0 ==> IsResult(w.actions[n - 1], room, agent);
    hide ActionsSound;
    assert forall i: nat :: IsLatestResult(w, room, agent, i) ==> i + 1 >= n;
  }

  /** A finished room run proposes one memory, once. */
  lemma {:induction false} BuildMemoryIsProposed(w: World, room: nat, agent: string, run: string, title: string, content: string, actor: Actor, now: int)
    requires Inv(w) && InForce(w, agent, now) && Together(w, room, agent, actor)
    ensures var plan := ProposeBuildMemoryPlan(w, room, agent, run, title, content, actor, now);
            var w' := Run(w, plan.writes);
            && plan.reply == Done
            && if exists i :: 0 <= i < |w.memories| && w.memories[i].source == FromRun(run) then w' == w
               else Proposes(w, w', room, agent, title, content, FromRun(run), actor.human)
  {
    GovernedMeans(w, agent, now);
    TogetherMeans(w, room, agent, actor);
    NothingIsProper(w);
    ProposalMakes(w, room, agent, title, content, FromRun(run), actor);
    hide Inv, Governed, InRoom, InForce, Together, Proposes, ProposalPlan, NewMemory, Run, Proper;
  }

  /**
    A review that is let through makes of the memory what the reviewer says, under the
    reviewer's name, with the edited text if there is one, hashed anew; and tells so.
   */
  lemma {:induction false} ReviewMakes(w: World, i: nat, approve: bool, edited: Option<string>, actor: Actor)
    requires Inv(w) && i < |w.memories| && w.memories[i].status == Proposed
    requires Together(w, w.memories[i].room, w.memories[i].agent, actor) && !(actor.named && w.memories[i].proposer == actor.human)
    ensures var m := w.memories[i];
            var plan := ReviewMemoryPlan(w, m.id, approve, edited, actor);
            var w' := Run(w, plan.writes);
            var text := if edited == None then m.content else edited.value;
            var hash := HashOf(MemoryDocument(m.title, text, m.source));
            && plan.reply == Done
            && w'.memories == w.memories[i := Memory(m.id, m.title, text, m.source, m.agent, m.room, m.proposer, if approve then Published else Dismissed, Some(actor.human), hash)]
            && w'.ledger == w.ledger + [MemoryReviewed(m.id, actor.human, approve, m.hash, hash),
                                        if approve then MemoryPublished(m.id, actor.human) else MemoryRejected(m.id, actor.human)]
  {
    hide *;
    ReviewPlanIs(w, i, approve, edited, actor);
    var m := w.memories[i];
    var text := if edited == None then m.content else edited.value;
    ReviewWritesMake(w, i, approve, text, actor);
  }

  function ReviewWritesFor(m: Memory, i: nat, approve: bool, text: string, actor: Actor): seq<Write> {
    [DecideMemory(i, approve, text, actor),
     Append(MemoryReviewed(m.id, actor.human, approve, m.hash, DecidedMemory(m, approve, text, actor.human).hash)),
     Append(if approve then MemoryPublished(m.id, actor.human) else MemoryRejected(m.id, actor.human))]
  }

  lemma {:induction false} ReviewWritesMake(w: World, i: nat, approve: bool, text: string, actor: Actor)
    requires i < |w.memories|
    ensures var m := w.memories[i];
            var w' := Run(w, ReviewWritesFor(m, i, approve, text, actor));
            var hash := HashOf(MemoryDocument(m.title, text, m.source));
            && w'.memories == w.memories[i := Memory(m.id, m.title, text, m.source, m.agent, m.room, m.proposer, if approve then Published else Dismissed, Some(actor.human), hash)]
            && w'.ledger == w.ledger + [MemoryReviewed(m.id, actor.human, approve, m.hash, hash),
                                        if approve then MemoryPublished(m.id, actor.human) else MemoryRejected(m.id, actor.human)]
  {
    var writes := ReviewWritesFor(w.memories[i], i, approve, text, actor);
    RunsThree(w, writes[0], writes[1], writes[2]);
    assert writes == [writes[0], writes[1], writes[2]];
    hide Run;
  }

  lemma {:induction false} ReviewPlanIs(w: World, i: nat, approve: bool, edited: Option<string>, actor: Actor)
    requires Inv(w) && i < |w.memories| && w.memories[i].status == Proposed
    requires Together(w, w.memories[i].room, w.memories[i].agent, actor) && !(actor.named && w.memories[i].proposer == actor.human)
    ensures var m := w.memories[i];
            ReviewMemoryPlan(w, m.id, approve, edited, actor) ==
            Plan(ReviewWritesFor(m, i, approve, if edited == None then m.content else edited.value, actor), Done)
  {
    hide ActionsSound, ApprovalsSound, ActionsApproved, MandatesSound, PacksSound, EventsSound, MemoryEventsSound;
    TogetherMeans(w, w.memories[i].room, w.memories[i].agent, actor);
    assert MemoriesSound(w.memories, w.nextId);
    assert MemorySound(w.memories[i]);
    assert MemoryAt(w, w.memories[i].id) == i;
    hide InRoom, Together, DecidedMemory, MemoryHash;
  }
}
