/**
  The governance service as the source runs it: stores changed in place, one durable write at
  a time, any of which may fail. Each method does exactly the writes of its plan, or a prefix
  of them when the storage gives out.
 */
module GovernanceService {
  import opened Options
  import opened GovernanceModel
  import opened GovernancePlans
  import opened GovernanceSafety
  import opened GovernanceRecovery
  import opened GovernanceRuns
  import opened GovernanceTheorems

  /** `Broken` is a write that failed; the operation stops there. */
  datatype Answer = Replied(reply: Reply) | Broken

  function Cut(writes: seq<Write>, budget: nat): seq<Write> {
    if |writes| <= budget then writes else writes[..budget]
  }

  /** From one world to another by a plan, as far as the storage let it. */
  ghost predicate Performs(w: World, budget: nat, plan: Plan, w': World, budget': nat, answer: Answer) {
    && w' == Run(w, Cut(plan.writes, budget))
    && budget' == budget - |Cut(plan.writes, budget)|
    && answer == if |plan.writes| <= budget then Replied(plan.reply) else Broken
  }

  lemma PerformsNothing(w: World, budget: nat, plan: Plan)
    requires plan.writes == []
    ensures Performs(w, budget, plan, w, budget, Replied(plan.reply))
  {
    NothingIsProper(w);
  }

  /** The first plan ends the operation, by a failed write or by an error of its own. */
  lemma PerformsFirst(w: World, budget: nat, first: Plan, second: Plan, w': World, budget': nat, answer: Answer)
    requires Performs(w, budget, first, w', budget', answer) && answer != Replied(Done)
    ensures Performs(w, budget, Then(first, second), w', budget', answer)
  {
    if answer == Broken && first.reply == Done {
      assert Cut((first.writes + second.writes), budget) == Cut(first.writes, budget);
    }
    hide Run;
  }

  lemma PerformsBoth(w: World, budget: nat, first: Plan, v: World, rest: nat, second: Plan, w': World, budget': nat, answer: Answer)
    requires Performs(w, budget, first, v, rest, Replied(Done)) && Performs(v, rest, second, w', budget', answer)
    ensures Performs(w, budget, Then(first, second), w', budget', answer)
  {
    assert v == Run(w, first.writes);
    hide Run;
    var made := Cut(second.writes, rest);
    RunAppends(w, first.writes, made);
    assert Cut(first.writes + second.writes, budget) == first.writes + made;
  }

  predicate InStateFile(write: Write) {
    match write
    case AddAgent(_) => true
    case AddBinding(_) => true
    case AddRoom(_) => true
    case SetHumans(_, _) => true
    case AddAction(_) => true
    case SetStatus(_, _, _) => true
    case Commit(_, _, _, _) => true
    case AddMemory(_) => true
    case DecideMemory(_, _, _, _) => true
    case _ => false
  }

  class Governance {
    var agents: set<string>
    var bindings: seq<Binding>
    var rooms: seq<Room>
    var actions: seq<Action>
    var memories: seq<Memory>
    var passports: seq<Passport>
    var mandates: seq<Mandate>
    var approvals: seq<Approval>
    var decided: set<string>
    var ledger: seq<Event>
    var packs: map<nat, Pack>
    var nextId: nat

    /** How many more writes the storage will take before it fails. */
    var budget: nat

    function Stores(): World
      reads this
    {
      World(agents, bindings, rooms, actions, memories, passports, mandates, approvals, decided, ledger, packs, nextId)
    }

    constructor (budget: nat)
      ensures Stores() == EMPTY && this.budget == budget && Inv(Stores())
    {
      agents, bindings, rooms, actions, memories, passports := {}, [], [], [], [], [];
      mandates, approvals, decided, ledger, packs, nextId := [], [], {}, [], map[], 0;
      this.budget := budget;
      new;
      EmptyWorldIsSound();
    }

    /** One durable write: it happens as a whole or not at all. */
    method Persist(write: Write) returns (ok: bool)
      modifies this
      ensures ok <==> old(budget) > 0
      ensures ok ==> budget == old(budget) - 1 && Stores() == Apply(old(Stores()), write)
      ensures !ok ==> budget == old(budget) && Stores() == old(Stores())
    {
      if budget == 0 {
        return false;
      }
      budget := budget - 1;
      ok := true;
      if InStateFile(write) {
        WriteStateFile(write);
      } else if write.AddPassport? || write.PutPack? || write.Append? {
        WriteElsewhere(write);
      } else {
        WriteRegistry(write);
      }
    }

    /** The state file is replaced as a whole; only one list of it differs. */
    method WriteStateFile(write: Write)
      requires InStateFile(write)
      modifies this`agents, this`bindings, this`rooms, this`actions, this`memories, this`nextId
      ensures Stores() == Apply(old(Stores()), write)
    {
      match write
      case AddAgent(agent) => agents := agents + {agent};
      case AddBinding(binding) => bindings := bindings + [binding];
      case AddRoom(room) => rooms, nextId := rooms + [room], nextId + 1;
      case SetHumans(i, humans) => if i < |rooms| { rooms := rooms[i := rooms[i].(humans := humans)]; }
      case AddAction(action) => actions, nextId := actions + [action], nextId + 1;
      case SetStatus(i, status, reason) => if i < |actions| { actions := actions[i := actions[i].(status := status, reason := reason)]; }
      case Commit(i, result, now, _) => if i < |actions| { actions := actions[i := ExecutedRecord(actions[i], result, now)]; }
      case AddMemory(memory) => memories, nextId := memories + [memory], nextId + 1;
      case DecideMemory(i, publish, content, reviewer) =>
        if i < |memories| { memories := memories[i := DecidedMemory(memories[i], publish, content, reviewer.human)]; }
    }

    /** The ledger, the artifact files and the passports. */
    method WriteElsewhere(write: Write)
      requires write.AddPassport? || write.PutPack? || write.Append?
      modifies this`passports, this`ledger, this`packs, this`nextId
      ensures Stores() == Apply(old(Stores()), write)
    {
      match write
      case AddPassport(passport) => passports, nextId := passports + [passport], nextId + 1;
      case PutPack(i, pack) => if i < |actions| { packs := packs[actions[i].ask.id := pack]; }
      case Append(event) => ledger := ledger + [event];
    }

    /** The registry of mandates, approvals and policy decisions. */
    method WriteRegistry(write: Write)
      requires !InStateFile(write) && !write.AddPassport? && !write.PutPack? && !write.Append?
      modifies this`mandates, this`approvals, this`decided, this`nextId
      ensures Stores() == Apply(old(Stores()), write)
    {
      match write
      case AddMandate(mandate) => mandates, nextId := mandates + [mandate], nextId + 1;
      case SetMandate(i, status) => if i < |mandates| { mandates := mandates[i := mandates[i].(status := status)]; }
      case InvalidateApprovals(mandate) => approvals := Invalidate(approvals, mandate);
      case AddApproval(approval) => approvals, nextId := approvals + [approval], nextId + 1;
      case ResolveApproval(i, status) => if i < |approvals| { approvals := approvals[i := approvals[i].(status := status)]; }
      case AddDecision(key) => decided := decided + {key};
    }

    /** Writes one after another, stopping at the first that fails. */
    method PersistAll(writes: seq<Write>) returns (answer: Answer)
      modifies this
      ensures Performs(old(Stores()), old(budget), Plan(writes, Done), Stores(), budget, answer)
    {
      hide Apply;
      for i := 0 to |writes|
        invariant budget == old(budget) - i && Stores() == Run(old(Stores()), writes[..i])
      {
        var ok := Persist(writes[i]);
        if !ok {
          return Broken;
        }
        assert writes[..i + 1][..i] == writes[..i] && writes[..i + 1][i] == writes[i];
      }
      assert writes[..|writes|] == writes;
      answer := Replied(Done);
    }

    method Register(agent: string) returns (answer: Answer)
      modifies this
      ensures Performs(old(Stores()), old(budget), RegisterPlan(old(Stores()), agent), Stores(), budget, answer)
    {
      hide Performs;
      if agent in agents {
        PerformsNothing(Stores(), budget, NOTHING);
        return Replied(Done);
      }
      answer := PersistAll([AddAgent(agent), Append(Noted("AGENT_REGISTERED_IN_H2A", agent))]);
    }

    method Bind(agent: string, human: string) returns (answer: Answer)
      modifies this
      ensures Performs(old(Stores()), old(budget), BindPlan(old(Stores()), agent, human), Stores(), budget, answer)
    {
      hide Performs;
      ghost var plan := BindPlan(Stores(), agent, human);
      if plan.writes == [] {
        PerformsNothing(Stores(), budget, plan);
      }
      if agent !in agents {
        return Replied(Failed(404));
      }
      var i := BindingAt(Stores(), agent);
      if i < |bindings| {
        if bindings[i].human != human {
          return Replied(Failed(409));
        }
        return Replied(Done);
      }
      answer := PersistAll([AddBinding(Binding(agent, human)), Append(Noted("HUMAN_BOUND", agent))]);
    }

    method IssuePassport(agent: string, now: int) returns (answer: Answer)
      modifies this
      ensures Performs(old(Stores()), old(budget), IssuePassportPlan(old(Stores()), agent, now), Stores(), budget, answer)
    {
      hide Performs;
      ghost var plan := IssuePassportPlan(Stores(), agent, now);
      if plan.writes == [] {
        PerformsNothing(Stores(), budget, plan);
      }
      if agent !in agents {
        return Replied(Failed(404));
      }
      var i := BindingAt(Stores(), agent);
      if i == |bindings| {
        return Replied(Failed(400));
      }
      if PassportAt(Stores(), agent) < |passports| {
        return Replied(Done);
      }
      answer := PersistAll([AddPassport(Passport(nextId, agent, bindings[i].human, true, now + 365 * DAY)),
                            Append(Noted("PASSPORT_ISSUED", agent)), Append(Noted("CLASSIFIED_MANAGED", agent))]);
    }

    method CreateRoom(agent: string, name: string, peers: seq<string>, actor: Actor, now: int) returns (answer: Answer)
      modifies this
      ensures Performs(old(Stores()), old(budget), CreateRoomPlan(old(Stores()), agent, name, peers, actor, now), Stores(), budget, answer)
    {
      hide Performs, Governed;
      ghost var plan := CreateRoomPlan(Stores(), agent, name, peers, actor, now);
      if plan.writes == [] {
        PerformsNothing(Stores(), budget, plan);
      }
      if !Governed(Stores(), agent, now) {
        return Replied(Failed(GovernedCode(Stores(), agent, now)));
      }
      var stores := Stores();
      var i := First(peers, (peer: string) => !Governed(stores, peer, now));
      if i < |peers| {
        return Replied(Failed(GovernedCode(stores, peers[i], now)));
      }
      if exists room :: room in rooms && room.name == name && agent in room.agents {
        return Replied(Done);
      }
      answer := PersistAll([AddRoom(Room(nextId, name, {actor.human}, {agent} + set peer | peer in peers)),
                            Append(Noted("ROOM_CREATED", agent)), Append(Noted("ROOM_JOINED", agent))]);
    }

    method SetRoomMembers(room: nat, humans: set<string>, actor: Actor) returns (answer: Answer)
      modifies this
      ensures Performs(old(Stores()), old(budget), SetRoomMembersPlan(old(Stores()), room, humans, actor), Stores(), budget, answer)
    {
      hide Performs;
      ghost var plan := SetRoomMembersPlan(Stores(), room, humans, actor);
      if plan.writes == [] {
        PerformsNothing(Stores(), budget, plan);
      }
      if !actor.admin {
        return Replied(Failed(403));
      }
      var i := RoomAt(Stores(), room);
      if i == |rooms| {
        return Replied(Failed(404));
      }
      answer := PersistAll([SetHumans(i, humans), Append(Noted("ROOM_JOINED", ""))]);
    }

    /** A proposal is hashed as it is stored; its id is the next one. */
    method Propose(room: nat, agent: string, title: string, content: string, source: Source, actor: Actor) returns (answer: Answer)
      modifies this
      ensures Performs(old(Stores()), old(budget), ProposalPlan(NewMemory(old(Stores()), room, agent, title, content, source, actor)), Stores(), budget, answer)
    {
      hide Performs;
      var memory := Memory(nextId, title, content, source, agent, room, actor.human, Proposed, None, HashOf(MemoryDocument(title, content, source)));
      answer := PersistAll([AddMemory(memory), Append(MemoryProposed(memory.id, memory.hash))]);
    }

    method ProposeMemory(room: nat, agent: string, title: string, content: string, actor: Actor, now: int) returns (answer: Answer)
      modifies this
      ensures Performs(old(Stores()), old(budget), ProposeMemoryPlan(old(Stores()), room, agent, title, content, actor, now), Stores(), budget, answer)
    {
      hide Performs, Governed, InRoom, ProposalPlan;
      ghost var plan := ProposeMemoryPlan(Stores(), room, agent, title, content, actor, now);
      if plan == Refuse(GovernedCode(Stores(), agent, now)) || plan == Refuse(403) || plan == Refuse(400) {
        PerformsNothing(Stores(), budget, plan);
      }
      if !Governed(Stores(), agent, now) {
        return Replied(Failed(GovernedCode(Stores(), agent, now)));
      }
      if !InRoom(Stores(), room, agent, actor) {
        return Replied(Failed(403));
      }
      var n := AfterLast(actions, (a: Action) => a.ask.agent == agent && a.ask.room == room && a.status == Executed && a.result.Some?);
      if n == 0 {
        return Replied(Failed(400));
      }
      answer := Propose(room, agent, title, content, FromAction(actions[n - 1].ask.id), actor);
    }

    method ProposeBuildMemory(room: nat, agent: string, run: string, title: string, content: string, actor: Actor, now: int) returns (answer: Answer)
      modifies this
      ensures Performs(old(Stores()), old(budget), ProposeBuildMemoryPlan(old(Stores()), room, agent, run, title, content, actor, now), Stores(), budget, answer)
    {
      hide Performs, Governed, InRoom, ProposalPlan;
      ghost var plan := ProposeBuildMemoryPlan(Stores(), room, agent, run, title, content, actor, now);
      if plan == Refuse(403) || plan == Refuse(GovernedCode(Stores(), agent, now)) || plan == NOTHING {
        PerformsNothing(Stores(), budget, plan);
      }
      if !InRoom(Stores(), room, agent, actor) {
        return Replied(Failed(403));
      }
      if !Governed(Stores(), agent, now) {
        return Replied(Failed(GovernedCode(Stores(), agent, now)));
      }
      if exists m :: m in memories && m.source == FromRun(run) {
        return Replied(Done);
      }
      answer := Propose(room, agent, title, content, FromRun(run), actor);
    }

    /**
      Any operation, by whatever storage is left: what it makes of the stores is one call of
      a run, complete or cut short, so all that is proved of runs is proved of this object.
     */
    method Serve(op: Op, actor: Actor, now: int) returns (answer: Answer)
      requires Inv(Stores())
      modifies this
      ensures Inv(Stores()) && Stores() == After(old(Stores()), [Call(op, actor, now, old(budget))])
      ensures answer == Broken <==> !Complete(old(Stores()), Call(op, actor, now, old(budget)))
      ensures answer != Broken ==> answer == Replied(PlanOf(old(Stores()), op, actor, now).reply)
    {
      hide Inv, Performs, After, Complete, RegisterPlan, BindPlan, IssuePassportPlan, AssignMandatePlan, UpdateMandatePlan, CreateRoomPlan, SetRoomMembersPlan,
           RequestActionPlan, DecideApprovalPlan, ProposeMemoryPlan, ProposeBuildMemoryPlan, ReviewMemoryPlan, InitializePlan;
      ghost var before, funds := Stores(), budget;
      match op {
        case Register(agent) => answer := Register(agent);
        case Bind(agent, human) => answer := Bind(agent, human);
        case IssuePassport(agent) => answer := IssuePassport(agent, now);
        case AssignMandate(agent, productBuild) => answer := AssignMandate(agent, productBuild, now);
        case UpdateMandate(agent, lifecycle) => answer := UpdateMandate(agent, lifecycle, now);
        case CreateRoom(agent, name, peers) => answer := CreateRoom(agent, name, peers, actor, now);
        case SetRoomMembers(room, humans) => answer := SetRoomMembers(room, humans, actor);
        case RequestAction(room, agent, name, key) => answer := RequestAction(room, agent, name, key, actor, now);
        case DecideApproval(approval, approve) => answer := DecideApproval(approval, approve, actor, now);
        case ProposeMemory(room, agent, title, content) => answer := ProposeMemory(room, agent, title, content, actor, now);
        case ProposeBuildMemory(room, agent, run, title, content) => answer := ProposeBuildMemory(room, agent, run, title, content, actor, now);
        case ReviewMemory(memory, approve, edited) => answer := ReviewMemory(memory, approve, edited, actor);
        case Initialize => answer := Restart(actor, now);
      }
      assert Performs(before, funds, PlanOf(before, op, actor, now), Stores(), budget, answer);
      PerformedIsCalled(before, op, actor, now, funds, Stores(), budget, answer);
    }

    /** The artifact, then effect and receipt in one state write, then the audit event. */
    method Execute(i: nat, actor: Actor, now: int) returns (answer: Answer)
      modifies this
      ensures Performs(old(Stores()), old(budget), ExecutePlan(old(Stores()), i, actor, now), Stores(), budget, answer)
    {
      hide AuthorityHolds, Sanctioned, Outcome, EvidencePack, Signed, Run;
      ghost var plan := ExecutePlan(Stores(), i, actor, now);
      if plan.writes == [] {
        PerformsNothing(Stores(), budget, plan);
      }
      if i >= |actions| || actions[i].count != 0 {
        return Replied(Done);
      }
      var action := actions[i];
      if !AuthorityHolds(Stores(), action.ask, actor, now) {
        return Replied(Failed(AuthorityCode(Stores(), action.ask, actor, now)));
      }
      if !Sanctioned(Stores(), action.ask) {
        return Replied(Failed(409));
      }
      if action.ask.name !in ALLOWED_ACTIONS + {"evidence_export"} {
        return Replied(Failed(409));
      }
      var result := Outcome(Stores(), action.ask, actor, now);
      var executed := ExecutedRecord(action, result, now);
      var writes := [Commit(i, result, now, actor), Append(ActionExecuted(action.ask.id, executed.receipt.value.hash, false))];
      if action.ask.name == "evidence_export" {
        writes := [PutPack(i, EvidencePack(Stores(), action.ask, actor, now))] + writes;
      }
      assert writes == plan.writes;
      answer := PersistAll(writes);
    }

    method RequestAction(room: nat, agent: string, name: string, key: string, actor: Actor, now: int) returns (answer: Answer)
      modifies this
      ensures Performs(old(Stores()), old(budget), RequestActionPlan(old(Stores()), room, agent, name, key, actor, now), Stores(), budget, answer)
    {
      hide Governed, InRoom, Authorize, ExecutePlan, RequestWrites, Performs;
      ghost var before, funds := Stores(), budget;
      ghost var plan := RequestActionPlan(before, room, agent, name, key, actor, now);
      if plan.writes == [] {
        PerformsNothing(before, budget, plan);
      }
      if name !in LABELS {
        return Replied(Failed(400));
      }
      var i := ActionWithKey(Stores(), key);
      if i < |actions| {
        var ask := actions[i].ask;
        if ask.room != room || ask.agent != agent || ask.name != name {
          return Replied(Failed(409));
        }
        return Replied(Done);
      }
      if !Governed(Stores(), agent, now) {
        return Replied(Failed(GovernedCode(Stores(), agent, now)));
      }
      if !InRoom(Stores(), room, agent, actor) {
        return Replied(Failed(403));
      }
      var at := |actions|;
      GovernedHasBoth(Stores(), agent, now);
      var mandate := mandates[ActiveMandateAt(Stores(), agent)];
      var passport := passports[PassportAt(Stores(), agent)];
      var decision := Authorize(Stores(), mandate, name, key);
      var approval := if decision == NeedsApproval then Some(nextId) else None;
      ghost var asked := Plan(RequestWrites(before, room, agent, name, key, now), Done);
      answer := Authorizing(agent, mandate, name, key, decision);
      ghost var v, rest := Stores(), budget;
      ghost var authorized := Plan(AuthorizeWrites(before, agent, mandate, name, key), Done);
      ghost var recorded := Plan([AddAction(NewAction(before, Run(before, authorized.writes), room, agent, name, key, now))], Done);
      RequestInTwoParts(before, room, agent, name, key, now);
      if answer == Replied(Done) {
        PerformedDone(before, funds, authorized, v, rest);
        var status := if decision == Denied then Turned else Pending;
        answer := PersistAll([AddAction(Action(Ask(nextId, agent, passport.id, mandate.id, room, name, decision, approval, key, now),
                                               status, "", 0, None, None, None))]);
        PerformsBoth(before, funds, authorized, v, rest, recorded, Stores(), budget, answer);
      } else {
        PerformsFirst(before, funds, authorized, recorded, Stores(), budget, answer);
      }
      if decision == Allowed {
        if answer != Replied(Done) {
          PerformsFirst(before, funds, asked, ExecutePlan(Run(before, asked.writes), at, actor, now), Stores(), budget, answer);
          return;
        }
        v, rest := Stores(), budget;
        PerformedDone(before, funds, asked, v, rest);
        answer := Execute(at, actor, now);
        PerformsBoth(before, funds, asked, v, rest, ExecutePlan(v, at, actor, now), Stores(), budget, answer);
      }
    }

    /** The policy's part of a request: the approval if one is needed, the decision, its two notes. */
    method Authorizing(agent: string, mandate: Mandate, name: string, key: string, decision: Decision) returns (answer: Answer)
      requires decision == Authorize(Stores(), mandate, name, key)
      modifies this
      ensures Performs(old(Stores()), old(budget), Plan(AuthorizeWrites(old(Stores()), agent, mandate, name, key), Done), Stores(), budget, answer)
    {
      hide Performs, Authorize;
      var writes := [AddDecision(key), Append(Noted("ACTION_REQUESTED", agent)), Append(Noted("POLICY_DECIDED", agent))];
      if decision == NeedsApproval {
        writes := [AddApproval(Approval(nextId, agent, mandate.id, key, name, Awaiting))] + writes;
      } else {
        assert [] + writes == writes;
      }
      answer := PersistAll(writes);
    }

    method DecideApproval(approval: nat, approve: bool, actor: Actor, now: int) returns (answer: Answer)
      modifies this
      ensures Performs(old(Stores()), old(budget), DecideApprovalPlan(old(Stores()), approval, approve, actor, now), Stores(), budget, answer)
    {
      hide AuthorityHolds, ExecutePlan, Performs, Run;
      ghost var before, funds := Stores(), budget;
      ghost var plan := DecideApprovalPlan(before, approval, approve, actor, now);
      if plan.writes == [] {
        PerformsNothing(before, budget, plan);
      }
      var i, j := ActionWithApproval(Stores(), approval), ApprovalAt(Stores(), approval);
      if i == |actions| || j == |approvals| {
        return Replied(Failed(404));
      }
      var ask, status := actions[i].ask, approvals[j].status;
      if status != Awaiting {
        if status != (if approve then Approved else Refused) {
          return Replied(Failed(409));
        }
        if status == Approved && actions[i].count == 0 {
          if !AuthorityHolds(Stores(), ask, actor, now) {
            return Replied(Failed(AuthorityCode(Stores(), ask, actor, now)));
          }
          answer := Execute(i, actor, now);
          return;
        }
        return Replied(Done);
      }
      if !AuthorityHolds(Stores(), ask, actor, now) {
        return Replied(Failed(AuthorityCode(Stores(), ask, actor, now)));
      }
      var writes := [ResolveApproval(j, if approve then Approved else Refused), AddDecision(ask.key),
                     Append(Noted(if approve then "HUMAN_APPROVED" else "HUMAN_REJECTED", ask.agent))];
      ghost var resolved := Plan(writes, Done);
      ghost var next := if approve then ExecutePlan(Run(before, writes), i, actor, now) else Plan([SetStatus(i, Rejected, "APPROVAL_REJECTED")], Done);
      answer := PersistAll(writes);
      if answer != Replied(Done) {
        PerformsFirst(before, funds, resolved, next, Stores(), budget, answer);
        return;
      }
      ghost var v, rest := Stores(), budget;
      PerformedDone(before, funds, resolved, v, rest);
      if approve {
        answer := Execute(i, actor, now);
      } else {
        answer := PersistAll([SetStatus(i, Rejected, "APPROVAL_REJECTED")]);
      }
      PerformsBoth(before, funds, resolved, v, rest, next, Stores(), budget, answer);
    }

    method Recover(i: nat, actor: Actor, now: int) returns (answer: Answer)
      modifies this
      ensures Performs(old(Stores()), old(budget), RecoverPlan(old(Stores()), i, actor, now), Stores(), budget, answer)
    {
      hide AuthorityHolds, ExecutePlan, Performs;
      ghost var plan := RecoverPlan(Stores(), i, actor, now);
      if plan.writes == [] {
        PerformsNothing(Stores(), budget, plan);
      }
      if i >= |actions| || actions[i].status != Pending {
        return Replied(Done);
      }
      var ask := actions[i].ask;
      var j := if ask.approval.Some? then ApprovalAt(Stores(), ask.approval.value) else |approvals|;
      var found := j < |approvals|;
      if (ask.decision == Allowed && ask.approval == None) || (found && approvals[j].status == Approved) {
        if AuthorityHolds(Stores(), ask, actor, now) {
          answer := Execute(i, actor, now);
        } else {
          answer := PersistAll([SetStatus(i, Turned, "AUTHORITY_UNAVAILABLE_ON_RESTART"), Append(Noted("POLICY_DENIED", ask.agent))]);
        }
      } else if found && approvals[j].status == Refused {
        answer := PersistAll([SetStatus(i, Rejected, actions[i].reason)]);
      } else if found && approvals[j].status == Invalidated {
        answer := PersistAll([SetStatus(i, Turned, actions[i].reason)]);
      } else {
        answer := Replied(Done);
      }
    }

    method Replay(i: nat) returns (answer: Answer)
      modifies this
      ensures Performs(old(Stores()), old(budget), ReplayPlan(old(Stores()), i), Stores(), budget, answer)
    {
      hide Performs, Verifies;
      ghost var plan := ReplayPlan(Stores(), i);
      if plan.writes == [] {
        PerformsNothing(Stores(), budget, plan);
      }
      if i >= |actions| || actions[i].status != Executed || HasExecutionEvent(ledger, actions[i].ask.id) {
        return Replied(Done);
      }
      if !Verifies(actions[i]) {
        return Replied(Failed(409));
      }
      VerifiedHasReceipt(actions[i]);
      answer := PersistAll([Append(ActionExecuted(actions[i].ask.id, actions[i].receipt.value.hash, true))]);
    }

    /** The first loop of a restart: pending actions, oldest first. */
    method RecoverPending(n: nat, actor: Actor, now: int) returns (answer: Answer)
      modifies this
      ensures Performs(old(Stores()), old(budget), RecoverFrom(old(Stores()), 0, n, actor, now), Stores(), budget, answer)
    {
      hide Performs, RecoverPlan, Run;
      ghost var before, funds := Stores(), budget;
      ghost var sofar := NOTHING;
      PerformsNothing(before, funds, sofar);
      for i := 0 to n
        invariant Performs(before, funds, sofar, Stores(), budget, Replied(Done)) && sofar.reply == Done
        invariant Then(sofar, RecoverFrom(Stores(), i, n, actor, now)) == RecoverFrom(before, 0, n, actor, now)
      {
        ghost var v, rest := Stores(), budget;
        ghost var one := RecoverPlan(v, i, actor, now);
        ghost var later := RecoverFrom(Run(v, one.writes), i + 1, n, actor, now);
        ThenAssociates(sofar, one, later);
        answer := Recover(i, actor, now);
        PerformsBoth(before, funds, sofar, v, rest, one, Stores(), budget, answer);
        if answer != Replied(Done) {
          PerformsFirst(before, funds, Then(sofar, one), later, Stores(), budget, answer);
          return;
        }
        PerformedDone(v, rest, one, Stores(), budget);
        sofar := Then(sofar, one);
      }
      answer := Replied(Done);
      assert Then(sofar, NOTHING) == sofar;
    }

    /** The second loop of a restart: executed actions whose audit event is missing. */
    method ReplayMissing(n: nat) returns (answer: Answer)
      modifies this
      ensures Performs(old(Stores()), old(budget), ReplayFrom(old(Stores()), 0, n), Stores(), budget, answer)
    {
      hide Performs, ReplayPlan, Run;
      ghost var before, funds := Stores(), budget;
      ghost var sofar := NOTHING;
      PerformsNothing(before, funds, sofar);
      for i := 0 to n
        invariant Performs(before, funds, sofar, Stores(), budget, Replied(Done)) && sofar.reply == Done
        invariant Then(sofar, ReplayFrom(Stores(), i, n)) == ReplayFrom(before, 0, n)
      {
        ghost var v, rest := Stores(), budget;
        ghost var one := ReplayPlan(v, i);
        ghost var later := ReplayFrom(Run(v, one.writes), i + 1, n);
        ThenAssociates(sofar, one, later);
        answer := Replay(i);
        PerformsBoth(before, funds, sofar, v, rest, one, Stores(), budget, answer);
        if answer != Replied(Done) {
          PerformsFirst(before, funds, Then(sofar, one), later, Stores(), budget, answer);
          return;
        }
        PerformedDone(v, rest, one, Stores(), budget);
        sofar := Then(sofar, one);
      }
      answer := Replied(Done);
      assert Then(sofar, NOTHING) == sofar;
    }

    /** A restart: with storage that holds, it always completes and leaves nothing to repair. */
    method Restart(actor: Actor, now: int) returns (answer: Answer)
      requires Inv(Stores())
      modifies this
      ensures Performs(old(Stores()), old(budget), InitializePlan(old(Stores()), actor, now), Stores(), budget, answer)
      ensures answer == Broken || answer == Replied(Done)
      ensures answer == Replied(Done) ==> Inv(Stores()) && forall i :: 0 <= i < |actions| ==> Waits(Stores(), i) && Recorded(Stores(), i)
    {
      hide Inv, Performs, RecoverFrom, ReplayFrom, Run;
      ghost var before, funds := Stores(), budget;
      var n := |actions|;
      ghost var recovered := RecoverFrom(before, 0, n, actor, now);
      ghost var later := ReplayFrom(Run(before, recovered.writes), 0, n);
      answer := RecoverPending(n, actor, now);
      if answer == Replied(Done) {
        ghost var v, rest := Stores(), budget;
        PerformedDone(before, funds, recovered, v, rest);
        answer := ReplayMissing(n);
        PerformsBoth(before, funds, recovered, v, rest, later, Stores(), budget, answer);
      } else {
        PerformsFirst(before, funds, recovered, later, Stores(), budget, answer);
      }
      RestartRepairs(before, funds, actor, now, Stores(), budget, answer);
    }

    method UpdateMandate(agent: string, lifecycle: Lifecycle, now: int) returns (answer: Answer)
      modifies this
      ensures Performs(old(Stores()), old(budget), UpdateMandatePlan(old(Stores()), agent, lifecycle, now), Stores(), budget, answer)
    {
      hide Performs;
      var n := AfterNewestMandate(Stores(), agent);
      ghost var plan := UpdateMandatePlan(Stores(), agent, lifecycle, now);
      if plan.writes == [] {
        PerformsNothing(Stores(), budget, plan);
      }
      if agent !in agents || n == 0 {
        return Replied(Failed(404));
      }
      answer := ChangeLifecycle(n - 1, lifecycle, now);
    }

    method ChangeLifecycle(i: nat, lifecycle: Lifecycle, now: int) returns (answer: Answer)
      requires i < |mandates|
      modifies this
      ensures Performs(old(Stores()), old(budget), LifecyclePlan(old(Stores()), i, lifecycle, now), Stores(), budget, answer)
    {
      hide Performs;
      ghost var plan := LifecyclePlan(Stores(), i, lifecycle, now);
      if plan.writes == [] {
        PerformsNothing(Stores(), budget, plan);
      }
      var mandate := mandates[i];
      if mandate.status == Revoked || (lifecycle == Reactivate && (mandate.status != Suspended || mandate.expires <= now)) {
        return Replied(Failed(500));
      }
      match lifecycle
      case Suspend => answer := PersistAll([SetMandate(i, Suspended), Append(Noted("MANDATE_AMENDED", mandate.agent))]);
      case Reactivate => answer := PersistAll([SetMandate(i, Active), Append(Noted("MANDATE_AMENDED", mandate.agent))]);
      case Revoke =>
        answer := PersistAll([SetMandate(i, GovernanceModel.Revoked), InvalidateApprovals(mandate.id), Append(Noted("MANDATE_REVOKED", mandate.agent))]);
    }

    method AssignMandate(agent: string, productBuild: bool, now: int) returns (answer: Answer)
      modifies this
      ensures Performs(old(Stores()), old(budget), AssignMandatePlan(old(Stores()), agent, productBuild, now), Stores(), budget, answer)
    {
      hide Performs, HasPassport, LifecyclePlan, Run;
      ghost var before, funds := Stores(), budget;
      ghost var plan := AssignMandatePlan(before, agent, productBuild, now);
      if plan.writes == [] {
        PerformsNothing(before, funds, plan);
      }
      if !HasPassport(Stores(), agent, now) {
        return Replied(Failed(PassportCode(Stores(), agent)));
      }
      var i := ActiveMandateAt(Stores(), agent);
      if i == |mandates| {
        answer := PersistAll(CreateMandatePlan(Stores(), agent, productBuild, now).writes);
        return;
      }
      if !productBuild || "product_build" in mandates[i].needApproval {
        return Replied(Done);
      }
      ghost var revoke := LifecyclePlan(before, i, Revoke, now);
      ghost var later := CreateMandatePlan(Run(before, revoke.writes), agent, productBuild, now);
      answer := ChangeLifecycle(i, Revoke, now);
      if answer != Replied(Done) {
        PerformsFirst(before, funds, revoke, later, Stores(), budget, answer);
        return;
      }
      ghost var v, rest := Stores(), budget;
      PerformedDone(before, funds, revoke, v, rest);
      answer := PersistAll(CreateMandatePlan(Stores(), agent, productBuild, now).writes);
      PerformsBoth(before, funds, revoke, v, rest, later, Stores(), budget, answer);
    }

    method ReviewMemory(memory: nat, approve: bool, edited: Option<string>, actor: Actor) returns (answer: Answer)
      modifies this
      ensures Performs(old(Stores()), old(budget), ReviewMemoryPlan(old(Stores()), memory, approve, edited, actor), Stores(), budget, answer)
    {
      hide Performs, InRoom;
      ghost var plan := ReviewMemoryPlan(Stores(), memory, approve, edited, actor);
      if plan.writes == [] {
        PerformsNothing(Stores(), budget, plan);
      }
      var i := MemoryAt(Stores(), memory);
      if i == |memories| {
        return Replied(Failed(404));
      }
      var m := memories[i];
      if m.status != Proposed {
        return Replied(Failed(409));
      }
      if actor.named && m.proposer == actor.human {
        return Replied(Failed(403));
      }
      if MemoryHash(m) != m.hash {
        return Replied(Failed(409));
      }
      if !InRoom(Stores(), m.room, m.agent, actor) {
        return Replied(Failed(403));
      }
      var text := if edited.Some? then edited.value else m.content;
      var decided := DecidedMemory(m, approve, text, actor.human);
      answer := PersistAll([DecideMemory(i, approve, text, actor),
                            Append(MemoryReviewed(memory, actor.human, approve, m.hash, decided.hash)),
                            Append(if approve then MemoryPublished(memory, actor.human) else MemoryRejected(memory, actor.human))]);
    }
  }

  lemma GovernedHasBoth(w: World, agent: string, now: int)
    requires Governed(w, agent, now)
    ensures PassportAt(w, agent) < |w.passports| && ActiveMandateAt(w, agent) < |w.mandates|
  {
  }

  lemma {:induction false} RequestInTwoParts(w: World, room: nat, agent: string, name: string, key: string, now: int)
    requires Governed(w, agent, now)
    ensures ActiveMandateAt(w, agent) < |w.mandates|
    ensures var authorized := Plan(AuthorizeWrites(w, agent, w.mandates[ActiveMandateAt(w, agent)], name, key), Done);
            Plan(RequestWrites(w, room, agent, name, key, now), Done) ==
            Then(authorized, Plan([AddAction(NewAction(w, Run(w, authorized.writes), room, agent, name, key, now))], Done))
  {
    hide AuthorizeWrites, NewAction, Run;
  }

  /** What a method makes of the stores, cut or not, is a call as the theorems know it. */
  lemma {:induction false} PerformedIsCalled(w: World, op: Op, actor: Actor, now: int, budget: nat, w': World, budget': nat, answer: Answer)
    requires Inv(w) && Performs(w, budget, PlanOf(w, op, actor, now), w', budget', answer)
    ensures var call := Call(op, actor, now, budget);
            && w' == After(w, [call]) && Inv(w')
            && (answer == Broken <==> !Complete(w, call))
            && (answer != Broken ==> answer == Replied(PlanOf(w, op, actor, now).reply))
  {
    var call := Call(op, actor, now, budget);
    CallIsLegal(w, call);
    assert Made(w, call) == Cut(PlanOf(w, op, actor, now).writes, budget);
    hide Inv, PlanOf, Run, Legal, Made;
    OneCallRuns(w, call);
  }

  lemma {:induction false} OneCallRuns(w: World, call: Call)
    ensures After(w, [call]) == Run(w, Made(w, call))
  {
    hide Made;
    assert [call][..0] == [];
    assert Trace(w, []) == [] && Run(w, []) == w;
    assert Trace(w, [call]) == [] + Made(w, call);
    assert [] + Made(w, call) == Made(w, call);
  }

  lemma VerifiedHasReceipt(action: Action)
    requires Verifies(action)
    ensures action.receipt.Some?
  {
  }

  /** A plan that was answered with success has made all its writes. */
  lemma {:induction false} PerformedDone(w: World, budget: nat, plan: Plan, w': World, budget': nat)
    requires Performs(w, budget, plan, w', budget', Replied(Done))
    ensures w' == Run(w, plan.writes) && plan.reply == Done
  {
  }

  lemma ThenAssociates(a: Plan, b: Plan, c: Plan)
    requires a.reply == Done
    ensures Then(a, Then(b, c)) == Then(Then(a, b), c)
  {
    assert a.writes + (b.writes + c.writes) == (a.writes + b.writes) + c.writes;
  }

  lemma RestartRepairs(w: World, budget: nat, actor: Actor, now: int, w': World, budget': nat, answer: Answer)
    requires Inv(w) && Performs(w, budget, InitializePlan(w, actor, now), w', budget', answer)
    ensures answer == Broken || answer == Replied(Done)
    ensures answer == Replied(Done) ==> Inv(w') && forall i :: 0 <= i < |w'.actions| ==> Waits(w', i) && Recorded(w', i)
  {
    InitializeRepairs(w, actor, now);
    hide Inv, InitializePlan, EventCount, Run;
    if answer == Replied(Done) {
      forall i | 0 <= i < |w'.actions| ensures Waits(w', i) && Recorded(w', i) {
        assert Waits(w', i);
        CountedIsThere(w'.ledger, w'.actions[i].ask.id);
      }
    }
  }

  lemma {:induction false} CountedIsThere(ledger: seq<Event>, id: nat)
    ensures EventCount(ledger, id) > 0 ==> HasExecutionEvent(ledger, id)
  {
    if ledger != [] {
      var init, last := ledger[..|ledger| - 1], ledger[|ledger| - 1];
      assert ledger == init + [last];
      CountedIsThere(init, id);
    }
  }
}
