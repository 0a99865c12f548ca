/**
  Whole runs: any calls by any actors at any times, each cut short by a crash or a failed
  write after any number of its durable writes, restarts included.
 */
module GovernanceRuns {
  import opened Options
  import opened GovernanceModel
  import opened GovernancePlans
  import opened GovernanceSafety
  import opened GovernanceRecovery

  // --------------------------------------------------------- each operation writes in order

  lemma {:induction false} OneIsProper(w: World, a: Write)
    requires Ok(w, a) && !a.Commit?
    ensures Proper(w, [a]) && Run(w, [a]) == Apply(w, a)
  {
    OneWrite(w, a);
    NoCommitIsPaired(w, [a]);
    hide Ok, Apply, Legal, Run, Paired;
  }

  lemma {:induction false} TwoAreProper(w: World, a: Write, b: Write)
    requires Ok(w, a) && Ok(Apply(w, a), b) && !a.Commit? && !b.Commit?
    ensures Proper(w, [a, b]) && Run(w, [a, b]) == Apply(Apply(w, a), b)
  {
    hide Ok, Apply, Legal, Run, Paired;
    TwoWrites(w, a, b);
    NoCommitIsPaired(w, [a, b]);
  }

  lemma {:induction false} ThreeAreProper(w: World, a: Write, b: Write, c: Write)
    requires Ok(w, a) && Ok(Apply(w, a), b) && Ok(Apply(Apply(w, a), b), c) && !a.Commit? && !b.Commit? && !c.Commit?
    ensures Proper(w, [a, b, c]) && Run(w, [a, b, c]) == Apply(Apply(Apply(w, a), b), c)
  {
    hide Ok, Apply, Legal, Run, Paired;
    ThreeWrites(w, a, b, c);
    NoCommitIsPaired(w, [a, b, c]);
  }

  predicate Note(write: Write) {
    write.Append? && write.event.Noted?
  }

  lemma NotedIsOk(w: World, write: Write)
    requires Note(write)
    ensures Ok(w, write)
  {
  }

  /** A write and one or two notes about it. */
  lemma {:induction false} NotedIsProper(w: World, a: Write, b: Write)
    requires Ok(w, a) && !a.Commit? && Note(b)
    ensures Proper(w, [a, b]) && Run(w, [a, b]) == Apply(Apply(w, a), b)
  {
    hide Ok, Apply, Proper, Run;
    NotedIsOk(Apply(w, a), b);
    TwoAreProper(w, a, b);
  }

  lemma {:induction false} TwiceNotedIsProper(w: World, a: Write, b: Write, c: Write)
    requires Ok(w, a) && !a.Commit? && Note(b) && Note(c)
    ensures Proper(w, [a, b, c]) && Run(w, [a, b, c]) == Apply(Apply(Apply(w, a), b), c)
  {
    hide Ok, Apply, Proper, Run;
    NotedIsOk(Apply(w, a), b);
    NotedIsOk(Apply(Apply(w, a), b), c);
    ThreeAreProper(w, a, b, c);
  }

  lemma IdentityPlansAreProper(w: World, agent: string, human: string, now: int)
    ensures Proper(w, RegisterPlan(w, agent).writes) && Proper(w, BindPlan(w, agent, human).writes)
    ensures Proper(w, IssuePassportPlan(w, agent, now).writes)
  {
    hide Proper;
    NothingIsProper(w);
    NotedIsProper(w, AddAgent(agent), Append(Noted("AGENT_REGISTERED_IN_H2A", agent)));
    NotedIsProper(w, AddBinding(Binding(agent, human)), Append(Noted("HUMAN_BOUND", agent)));
    var i := BindingAt(w, agent);
    if i < |w.bindings| {
      TwiceNotedIsProper(w, AddPassport(Passport(w.nextId, agent, w.bindings[i].human, true, now + 365 * DAY)),
                         Append(Noted("PASSPORT_ISSUED", agent)), Append(Noted("CLASSIFIED_MANAGED", agent)));
    }
  }

  lemma RoomPlansAreProper(w: World, agent: string, name: string, peers: seq<string>, room: nat, humans: set<string>, actor: Actor, now: int)
    ensures Proper(w, CreateRoomPlan(w, agent, name, peers, actor, now).writes)
    ensures Proper(w, SetRoomMembersPlan(w, room, humans, actor).writes)
  {
    hide Proper, Governed;
    NothingIsProper(w);
    TwiceNotedIsProper(w, AddRoom(Room(w.nextId, name, {actor.human}, {agent} + set peer | peer in peers)),
                       Append(Noted("ROOM_CREATED", agent)), Append(Noted("ROOM_JOINED", agent)));
    NotedIsProper(w, SetHumans(RoomAt(w, room), humans), Append(Noted("ROOM_JOINED", "")));
  }

  /** The world once a mandate is revoked and its waiting approvals are invalidated. */
  function Revocation(w: World, i: nat): World
    requires i < |w.mandates|
  {
    var mandate := w.mandates[i];
    w.(mandates := w.mandates[i := mandate.(status := Revoked)], approvals := Invalidate(w.approvals, mandate.id),
       ledger := w.ledger + [Noted("MANDATE_REVOKED", mandate.agent)])
  }

  lemma {:induction false} RevocationRevokes(w: World, i: nat, now: int)
    requires i < |w.mandates| && w.mandates[i].status != Revoked
    ensures var plan := LifecyclePlan(w, i, Revoke, now);
            plan.reply == Done && Proper(w, plan.writes) && Run(w, plan.writes) == Revocation(w, i)
  {
    var mandate := w.mandates[i];
    var a, b, c := SetMandate(i, Revoked), InvalidateApprovals(mandate.id), Append(Noted("MANDATE_REVOKED", mandate.agent));
    assert Ok(w, a) && Ok(Apply(w, a), b);
    assert Apply(Apply(Apply(w, a), b), c) == Revocation(w, i);
    assert LifecyclePlan(w, i, Revoke, now) == Plan([a, b, c], Done);
    hide Ok, Run, Proper, Apply, LifecyclePlan, Revocation;
    NotedIsOk(Apply(Apply(w, a), b), c);
    ThreeAreProper(w, a, b, c);
  }

  lemma LifecycleIsProper(w: World, i: nat, lifecycle: Lifecycle, now: int)
    requires i < |w.mandates| && (lifecycle == Reactivate ==> AfterNewestMandate(w, w.mandates[i].agent) == i + 1)
    ensures Proper(w, LifecyclePlan(w, i, lifecycle, now).writes)
  {
    NothingIsProper(w);
    hide Proper, Run, Apply, Revocation;
    var mandate := w.mandates[i];
    if mandate.status != Revoked {
      match lifecycle
      case Suspend => NotedIsProper(w, SetMandate(i, Suspended), Append(Noted("MANDATE_AMENDED", mandate.agent)));
      case Reactivate => NotedIsProper(w, SetMandate(i, Active), Append(Noted("MANDATE_AMENDED", mandate.agent)));
      case Revoke => RevocationRevokes(w, i, now);
    }
  }

  ghost predicate NoneActive(w: World, agent: string) {
    forall i :: 0 <= i < |w.mandates| && w.mandates[i].agent == agent ==> w.mandates[i].status != Active
  }

  function WithMandate(w: World, mandate: Mandate): World {
    w.(mandates := w.mandates + [mandate], nextId := w.nextId + 1,
       ledger := w.ledger + [Noted("MANDATE_CREATED", mandate.agent)] + [Noted("MANDATE_SIGNED", mandate.agent)])
  }

  lemma {:induction false} CreationIsProper(w: World, agent: string, productBuild: bool, now: int)
    requires NoneActive(w, agent)
    ensures Proper(w, CreateMandatePlan(w, agent, productBuild, now).writes)
    ensures Run(w, CreateMandatePlan(w, agent, productBuild, now).writes) == WithMandate(w, NewMandate(w.nextId, agent, productBuild, now))
  {
    var mandate := NewMandate(w.nextId, agent, productBuild, now);
    var a, b, c := AddMandate(mandate), Append(Noted("MANDATE_CREATED", agent)), Append(Noted("MANDATE_SIGNED", agent));
    assert Ok(w, a);
    assert Apply(Apply(Apply(w, a), b), c) == WithMandate(w, mandate);
    hide Proper, Run, Ok, Apply, WithMandate, NewMandate;
    TwiceNotedIsProper(w, a, b, c);
  }

  lemma OnlyOneWasActive(w: World, i: nat)
    requires Inv(w) && i < |w.mandates| && w.mandates[i].status == Active
    ensures NoneActive(Revocation(w, i), w.mandates[i].agent)
  {
    assert MandatesSound(w.mandates, w.nextId);
    hide Inv;
  }

  lemma AssignMandateIsProper(w: World, agent: string, productBuild: bool, now: int)
    requires Inv(w)
    ensures Proper(w, AssignMandatePlan(w, agent, productBuild, now).writes)
  {
    NothingIsProper(w);
    hide Proper, Inv, Run, HasPassport, LifecyclePlan, CreateMandatePlan, Revocation;
    var i := ActiveMandateAt(w, agent);
    if i == |w.mandates| {
      CreationIsProper(w, agent, productBuild, now);
    } else {
      RevocationRevokes(w, i, now);
      OnlyOneWasActive(w, i);
      CreationIsProper(Revocation(w, i), agent, productBuild, now);
      ThenIsProper(w, LifecyclePlan(w, i, Revoke, now), CreateMandatePlan(Revocation(w, i), agent, productBuild, now));
    }
  }

  lemma UpdateMandateIsProper(w: World, agent: string, lifecycle: Lifecycle, now: int)
    ensures Proper(w, UpdateMandatePlan(w, agent, lifecycle, now).writes)
  {
    NothingIsProper(w);
    hide Proper, LifecyclePlan;
    var n := AfterNewestMandate(w, agent);
    if n > 0 {
      LifecycleIsProper(w, n - 1, lifecycle, now);
    }
  }

  // ------------------------------------------------------------------ requests and decisions

  function DecisionWrites(agent: string, key: string): seq<Write> {
    [AddDecision(key), Append(Noted("ACTION_REQUESTED", agent)), Append(Noted("POLICY_DECIDED", agent))]
  }

  function WithDecision(w: World, agent: string, key: string): World {
    w.(decided := w.decided + {key}, ledger := w.ledger + [Noted("ACTION_REQUESTED", agent)] + [Noted("POLICY_DECIDED", agent)])
  }

  lemma {:induction false} DecisionIsProper(w: World, agent: string, key: string)
    ensures Proper(w, DecisionWrites(agent, key)) && Run(w, DecisionWrites(agent, key)) == WithDecision(w, agent, key)
  {
    assert Ok(w, AddDecision(key));
    hide Proper, Run, Ok;
    TwiceNotedIsProper(w, AddDecision(key), Append(Noted("ACTION_REQUESTED", agent)), Append(Noted("POLICY_DECIDED", agent)));
  }

  function WithApproval(w: World, approval: Approval): World {
    w.(approvals := w.approvals + [approval], nextId := w.nextId + 1)
  }

  lemma {:induction false} AuthorizationIsProper(w: World, agent: string, mandate: Mandate, name: string, key: string)
    ensures var writes := AuthorizeWrites(w, agent, mandate, name, key);
            var approval := Approval(w.nextId, agent, mandate.id, key, name, Awaiting);
            && Proper(w, writes)
            && Run(w, writes) == WithDecision(if Authorize(w, mandate, name, key) == NeedsApproval then WithApproval(w, approval) else w, agent, key)
            && Run(w, writes).actions == w.actions
  {
    var rest, add := DecisionWrites(agent, key), AddApproval(Approval(w.nextId, agent, mandate.id, key, name, Awaiting));
    assert Ok(w, add) && Apply(w, add) == WithApproval(w, add.approval);
    assert AuthorizeWrites(w, agent, mandate, name, key) == (if Authorize(w, mandate, name, key) == NeedsApproval then [add] + rest else [] + rest);
    assert [] + rest == rest;
    assert WithDecision(w, agent, key).actions == w.actions == WithDecision(WithApproval(w, add.approval), agent, key).actions;
    hide Proper, Run, Ok, Authorize, Apply, DecisionWrites, AuthorizeWrites, WithDecision, WithApproval;
    DecisionIsProper(w, agent, key);
    OneIsProper(w, add);
    DecisionIsProper(Apply(w, add), agent, key);
    ProperAppends(w, [add], rest);
  }

  /** The new action fits: its id, key and approval are its own. */
  lemma NewActionFits(w: World, v: World, room: nat, agent: string, name: string, key: string, now: int)
    requires Inv(w) && Governed(w, agent, now) && ActionWithKey(w, key) == |w.actions| && name in LABELS
    requires v.actions == w.actions && v.nextId >= w.nextId
    requires var mandate := w.mandates[ActiveMandateAt(w, agent)];
             Authorize(w, mandate, name, key) == NeedsApproval ==>
               v.nextId > w.nextId && Approval(w.nextId, agent, mandate.id, key, name, Awaiting) in v.approvals
    ensures Ok(v, AddAction(NewAction(w, v, room, agent, name, key, now)))
  {
    var action := NewAction(w, v, room, agent, name, key, now);
    assert ActionSound(action);
    forall i | 0 <= i < |v.actions| ensures !Collide(v.actions[i].ask, action.ask) {
      assert ActionSound(w.actions[i]) && w.actions[i].ask.id < w.nextId && w.actions[i].ask.key != key;
      if w.actions[i].ask.approval.Some? {
        ItsApprovalIsBound(w, i);
        assert ApprovalsSound(w.approvals, w.nextId);
      }
    }
    hide Inv, Governed;
    if action.ask.approval.Some? {
      var approval := Approval(w.nextId, agent, action.ask.mandate, key, name, Awaiting);
      var j :| 0 <= j < |v.approvals| && v.approvals[j] == approval;
      assert Bound(v.approvals[j], action.ask);
    }
  }

  lemma {:induction false} RequestIsProper(w: World, room: nat, agent: string, name: string, key: string, now: int)
    requires Inv(w) && Governed(w, agent, now) && ActionWithKey(w, key) == |w.actions| && name in LABELS
    ensures Proper(w, RequestWrites(w, room, agent, name, key, now))
    ensures var v := Run(w, AuthorizeWrites(w, agent, w.mandates[ActiveMandateAt(w, agent)], name, key));
            Run(w, RequestWrites(w, room, agent, name, key, now)) == Apply(v, AddAction(NewAction(w, v, room, agent, name, key, now)))
  {
    var mandate := w.mandates[ActiveMandateAt(w, agent)];
    var writes := AuthorizeWrites(w, agent, mandate, name, key);
    AuthorizationIsProper(w, agent, mandate, name, key);
    var v := Run(w, writes);
    hide Inv, Governed, Proper, Run, Authorize, Ok, AuthorizeWrites;
    NewActionFits(w, v, room, agent, name, key, now);
    OneIsProper(v, AddAction(NewAction(w, v, room, agent, name, key, now)));
    ProperAppends(w, writes, [AddAction(NewAction(w, v, room, agent, name, key, now))]);
  }

  lemma AddedActionIsLast(w: World, action: Action)
    ensures Apply(w, AddAction(action)).actions == w.actions + [action]
  {
  }

  /** A request adds its own action, and no other changes by it. */
  lemma {:induction false} RequestAddsItsAction(w: World, room: nat, agent: string, name: string, key: string, now: int)
    requires Inv(w) && Governed(w, agent, now) && ActionWithKey(w, key) == |w.actions| && name in LABELS
    ensures var v := Run(w, AuthorizeWrites(w, agent, w.mandates[ActiveMandateAt(w, agent)], name, key));
            Run(w, RequestWrites(w, room, agent, name, key, now)).actions == w.actions + [NewAction(w, v, room, agent, name, key, now)]
  {
    RequestIsProper(w, room, agent, name, key, now);
    AuthorizationIsProper(w, agent, w.mandates[ActiveMandateAt(w, agent)], name, key);
    hide *;
    var v := Run(w, AuthorizeWrites(w, agent, w.mandates[ActiveMandateAt(w, agent)], name, key));
    AddedActionIsLast(v, NewAction(w, v, room, agent, name, key, now));
  }

  lemma RequestActionIsProper(w: World, room: nat, agent: string, name: string, key: string, actor: Actor, now: int)
    requires Inv(w)
    ensures Proper(w, RequestActionPlan(w, room, agent, name, key, actor, now).writes)
  {
    NothingIsProper(w);
    hide Inv, Proper, Run, Authorize, RequestWrites, Governed, InRoom, ExecutePlan;
    if name in LABELS && ActionWithKey(w, key) == |w.actions| && Governed(w, agent, now) {
      var asked := Plan(RequestWrites(w, room, agent, name, key, now), Done);
      RequestIsProper(w, room, agent, name, key, now);
      var v := Run(w, asked.writes);
      ProperKeeps(w, asked.writes);
      ExecutePlanIsProper(v, |w.actions|, actor, now);
      ThenIsProper(w, asked, ExecutePlan(v, |w.actions|, actor, now));
    }
  }

  function Resolution(j: nat, approve: bool, ask: Ask): seq<Write> {
    [ResolveApproval(j, if approve then Approved else Refused), AddDecision(ask.key),
     Append(Noted(if approve then "HUMAN_APPROVED" else "HUMAN_REJECTED", ask.agent))]
  }

  /** The world once a human has decided. */
  function Resolved(w: World, j: nat, approve: bool, ask: Ask): World
    requires j < |w.approvals|
  {
    w.(approvals := w.approvals[j := w.approvals[j].(status := if approve then Approved else Refused)],
       decided := w.decided + {ask.key},
       ledger := w.ledger + [Noted(if approve then "HUMAN_APPROVED" else "HUMAN_REJECTED", ask.agent)])
  }

  lemma ResolutionApplies(w: World, j: nat, approve: bool, ask: Ask)
    requires j < |w.approvals| && w.approvals[j].status == Awaiting
    ensures var writes := Resolution(j, approve, ask);
            && Ok(w, writes[0]) && Ok(Apply(w, writes[0]), writes[1]) && Note(writes[2])
            && Apply(Apply(Apply(w, writes[0]), writes[1]), writes[2]) == Resolved(w, j, approve, ask)
  {
  }

  lemma {:induction false} ResolutionIsProper(w: World, j: nat, approve: bool, ask: Ask)
    requires j < |w.approvals| && w.approvals[j].status == Awaiting
    ensures Proper(w, Resolution(j, approve, ask)) && Run(w, Resolution(j, approve, ask)) == Resolved(w, j, approve, ask)
  {
    var writes := Resolution(j, approve, ask);
    assert |writes| == 3 && writes == [writes[0], writes[1], writes[2]] && !writes[0].Commit? && !writes[1].Commit? && !writes[2].Commit?;
    hide *;
    ResolutionApplies(w, j, approve, ask);
    NotedIsOk(Apply(Apply(w, writes[0]), writes[1]), writes[2]);
    ThreeAreProper(w, writes[0], writes[1], writes[2]);
  }

  lemma AwaitedActionIsOpen(w: World, i: nat, j: nat)
    requires Inv(w) && i < |w.actions| && j < |w.approvals| && w.approvals[j].status == Awaiting
    requires w.actions[i].ask.approval == Some(w.approvals[j].id)
    ensures w.actions[i].count == 0 && w.actions[i].ask.decision == NeedsApproval
  {
    assert ActionSound(w.actions[i]) && HasItsApproval(w.actions[i], w.approvals) && ApprovalsSound(w.approvals, w.nextId);
  }

  lemma {:induction false} DecisionUnfolds(w: World, approval: nat, approve: bool, actor: Actor, now: int)
    ensures var i, j := ActionWithApproval(w, approval), ApprovalAt(w, approval);
            var plan := DecideApprovalPlan(w, approval, approve, actor, now);
            || plan.writes == []
            || (i < |w.actions| && j < |w.approvals| && w.approvals[j].status != Awaiting && plan == ExecutePlan(w, i, actor, now))
            || (i < |w.actions| && j < |w.approvals| && w.approvals[j].status == Awaiting
                && plan == Then(Plan(Resolution(j, approve, w.actions[i].ask), Done),
                                if approve then ExecutePlan(Run(w, Resolution(j, approve, w.actions[i].ask)), i, actor, now)
                                else Plan([SetStatus(i, Rejected, "APPROVAL_REJECTED")], Done)))
  {
    hide AuthorityHolds, ExecutePlan, Run;
  }

  lemma RejectionIsProper(w: World, i: nat)
    requires i < |w.actions| && w.actions[i].count == 0 && w.actions[i].ask.decision == NeedsApproval
    ensures Proper(w, [SetStatus(i, Rejected, "APPROVAL_REJECTED")])
  {
    assert Ok(w, SetStatus(i, Rejected, "APPROVAL_REJECTED"));
    hide Ok, Proper;
    OneIsProper(w, SetStatus(i, Rejected, "APPROVAL_REJECTED"));
  }

  lemma DecideApprovalIsProper(w: World, approval: nat, approve: bool, actor: Actor, now: int)
    requires Inv(w)
    ensures Proper(w, DecideApprovalPlan(w, approval, approve, actor, now).writes)
  {
    NothingIsProper(w);
    DecisionUnfolds(w, approval, approve, actor, now);
    hide Inv, Proper, Run, ExecutePlan, DecideApprovalPlan, Resolution;
    var i, j := ActionWithApproval(w, approval), ApprovalAt(w, approval);
    if i < |w.actions| && j < |w.approvals| {
      ExecutePlanIsProper(w, i, actor, now);
      if w.approvals[j].status == Awaiting {
        var ask := w.actions[i].ask;
        var v := Resolved(w, j, approve, ask);
        ResolutionIsProper(w, j, approve, ask);
        AwaitedActionIsOpen(w, i, j);
        ProperKeeps(w, Resolution(j, approve, ask));
        ExecutePlanIsProper(v, i, actor, now);
        RejectionIsProper(v, i);
        ThenIsProper(w, Plan(Resolution(j, approve, ask), Done), ExecutePlan(v, i, actor, now));
        ThenIsProper(w, Plan(Resolution(j, approve, ask), Done), Plan([SetStatus(i, Rejected, "APPROVAL_REJECTED")], Done));
      }
    }
  }

  // ------------------------------------------------------------------------------ memory

  lemma ProposalIsProper(w: World, room: nat, agent: string, title: string, content: string, source: Source, actor: Actor)
    ensures Proper(w, ProposalPlan(NewMemory(w, room, agent, title, content, source, actor)).writes)
  {
    var memory := NewMemory(w, room, agent, title, content, source, actor);
    var event := Append(MemoryProposed(memory.id, memory.hash));
    assert Ok(w, AddMemory(memory)) && Ok(Apply(w, AddMemory(memory)), event);
    hide Ok, Proper;
    TwoAreProper(w, AddMemory(memory), event);
  }

  lemma ReviewIsProper(w: World, memory: nat, approve: bool, edited: Option<string>, actor: Actor)
    requires Inv(w)
    ensures Proper(w, ReviewMemoryPlan(w, memory, approve, edited, actor).writes)
  {
    NothingIsProper(w);
    var i := MemoryAt(w, memory);
    if i < |w.memories| && w.memories[i].status == Proposed && !(actor.named && w.memories[i].proposer == actor.human) {
      var m := w.memories[i];
      var text := if edited.Some? then edited.value else m.content;
      var decided := DecidedMemory(m, approve, text, actor.human);
      var a := DecideMemory(i, approve, text, actor);
      var b := Append(MemoryReviewed(memory, actor.human, approve, m.hash, decided.hash));
      var c := Append(if approve then MemoryPublished(memory, actor.human) else MemoryRejected(memory, actor.human));
      ReviewWritesAreOk(w, i, approve, text, actor);
      assert m.id == memory;
      hide Ok, Proper, Inv, Apply, DecidedMemory, InRoom;
      ThreeAreProper(w, a, b, c);
    }
    hide Proper, Inv, InRoom;
  }

  lemma ReviewWritesAreOk(w: World, i: nat, approve: bool, text: string, actor: Actor)
    requires i < |w.memories| && w.memories[i].status == Proposed && !(actor.named && w.memories[i].proposer == actor.human)
    ensures var m := w.memories[i];
            var a := DecideMemory(i, approve, text, actor);
            var b := Append(MemoryReviewed(m.id, actor.human, approve, m.hash, DecidedMemory(m, approve, text, actor.human).hash));
            var c := Append(if approve then MemoryPublished(m.id, actor.human) else MemoryRejected(m.id, actor.human));
            Ok(w, a) && Ok(Apply(w, a), b) && Ok(Apply(Apply(w, a), b), c)
  {
    var m := w.memories[i];
    var decided := DecidedMemory(m, approve, text, actor.human);
    var v := Apply(w, DecideMemory(i, approve, text, actor));
    assert v.memories[i] == decided && decided.id == m.id && decided.reviewer == Some(actor.human);
    assert decided.status == if approve then Published else Dismissed;
    hide DecidedMemory, MemoryHash;
  }

  lemma ProposalsAreProper(w: World, room: nat, agent: string, title: string, content: string, run: string, actor: Actor, now: int)
    ensures Proper(w, ProposeMemoryPlan(w, room, agent, title, content, actor, now).writes)
    ensures Proper(w, ProposeBuildMemoryPlan(w, room, agent, run, title, content, actor, now).writes)
  {
    NothingIsProper(w);
    hide Proper, InRoom, Governed, ProposalPlan;
    ProposalIsProper(w, room, agent, title, content, FromRun(run), actor);
    var n := AfterLast(w.actions, (a: Action) => a.ask.agent == agent && a.ask.room == room && a.status == Executed && a.result.Some?);
    if n > 0 {
      ProposalIsProper(w, room, agent, title, content, FromAction(w.actions[n - 1].ask.id), actor);
    }
  }

  /** Whatever is asked, by whomever and whenever: the writes are in order. */
  lemma PlanIsProper(w: World, op: Op, actor: Actor, now: int)
    requires Inv(w)
    ensures Proper(w, PlanOf(w, op, actor, now).writes)
  {
    hide Inv, Proper, RegisterPlan, BindPlan, IssuePassportPlan, AssignMandatePlan, UpdateMandatePlan, CreateRoomPlan, SetRoomMembersPlan,
         RequestActionPlan, DecideApprovalPlan, ProposeMemoryPlan, ProposeBuildMemoryPlan, ReviewMemoryPlan, InitializePlan;
    match op
    case Register(agent) => IdentityPlansAreProper(w, agent, "", now);
    case Bind(agent, human) => IdentityPlansAreProper(w, agent, human, now);
    case IssuePassport(agent) => IdentityPlansAreProper(w, agent, "", now);
    case AssignMandate(agent, productBuild) => AssignMandateIsProper(w, agent, productBuild, now);
    case UpdateMandate(agent, lifecycle) => UpdateMandateIsProper(w, agent, lifecycle, now);
    case CreateRoom(agent, name, peers) => RoomPlansAreProper(w, agent, name, peers, 0, {}, actor, now);
    case SetRoomMembers(room, humans) => RoomPlansAreProper(w, "", "", [], room, humans, actor, now);
    case RequestAction(room, agent, name, key) => RequestActionIsProper(w, room, agent, name, key, actor, now);
    case DecideApproval(approval, approve) => DecideApprovalIsProper(w, approval, approve, actor, now);
    case ProposeMemory(room, agent, title, content) => ProposalsAreProper(w, room, agent, title, content, "", actor, now);
    case ProposeBuildMemory(room, agent, run, title, content) => ProposalsAreProper(w, room, agent, title, content, run, actor, now);
    case ReviewMemory(memory, approve, edited) => ReviewIsProper(w, memory, approve, edited, actor);
    case Initialize => InitializeRepairs(w, actor, now);
  }
}
