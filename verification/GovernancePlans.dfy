/**
  What each operation of the governance service writes, in order. An operation reads the
  world, and a plan lists its durable writes; cutting the plan short anywhere is a crash or
  a failed write at that point.
 */
module GovernancePlans {
  import opened Options
  import opened GovernanceModel

  /** `Failed` carries the HTTP status of the error the source throws. */
  datatype Reply = Done | Failed(code: nat)
  datatype Plan = Plan(writes: seq<Write>, reply: Reply)

  datatype Lifecycle = Suspend | Reactivate | Revoke

  datatype Op =
    | Register(agent: string)
    | Bind(agent: string, human: string)
    | IssuePassport(agent: string)
    | AssignMandate(agent: string, productBuild: bool)
    | UpdateMandate(agent: string, lifecycle: Lifecycle)
    | CreateRoom(agent: string, name: string, peers: seq<string>)
    | SetRoomMembers(room: nat, humans: set<string>)
    | RequestAction(room: nat, agent: string, name: string, key: string)
    | DecideApproval(approval: nat, approve: bool)
    | ProposeMemory(room: nat, agent: string, title: string, content: string)
    | ProposeBuildMemory(room: nat, agent: string, run: string, title: string, content: string)
    | ReviewMemory(memory: nat, approve: bool, edited: Option<string>)
    | Initialize

  const DAY := 86400000
  const ALLOWED_ACTIONS := {"inventory_report", "verify_integrity"}
  const PROHIBITED_ACTIONS := {"crm_write", "purchase"}
  const LABELS := ALLOWED_ACTIONS + PROHIBITED_ACTIONS + {"evidence_export"}

  function Refuse(code: nat): Plan {
    Plan([], Failed(code))
  }

  const NOTHING := Plan([], Done)

  /** One plan after another; a failure ends the operation. */
  function Then(first: Plan, second: Plan): Plan {
    if first.reply.Failed? then first else Plan(first.writes + second.writes, second.reply)
  }

  // ------------------------------------------------------------------ identity and rooms

  function RegisterPlan(w: World, agent: string): Plan {
    if agent in w.agents then NOTHING
    else Plan([AddAgent(agent), Append(Noted("AGENT_REGISTERED_IN_H2A", agent))], Done)
  }

  function BindPlan(w: World, agent: string, human: string): Plan {
    var i := BindingAt(w, agent);
    if agent !in w.agents then Refuse(404)
    else if i < |w.bindings| then (if w.bindings[i].human != human then Refuse(409) else NOTHING)
    else Plan([AddBinding(Binding(agent, human)), Append(Noted("HUMAN_BOUND", agent))], Done)
  }

  function IssuePassportPlan(w: World, agent: string, now: int): Plan {
    var i := BindingAt(w, agent);
    if agent !in w.agents then Refuse(404)
    else if i == |w.bindings| then Refuse(400)
    else if PassportAt(w, agent) < |w.passports| then NOTHING
    else Plan([AddPassport(Passport(w.nextId, agent, w.bindings[i].human, true, now + 365 * DAY)),
               Append(Noted("PASSPORT_ISSUED", agent)), Append(Noted("CLASSIFIED_MANAGED", agent))], Done)
  }

  function CreateRoomPlan(w: World, agent: string, name: string, peers: seq<string>, actor: Actor, now: int): Plan {
    var i := First(peers, (peer: string) => !Governed(w, peer, now));
    if !Governed(w, agent, now) then Refuse(GovernedCode(w, agent, now))
    else if i < |peers| then Refuse(GovernedCode(w, peers[i], now))
    else if exists room :: room in w.rooms && room.name == name && agent in room.agents then NOTHING
    else Plan([AddRoom(Room(w.nextId, name, {actor.human}, {agent} + set peer | peer in peers)),
               Append(Noted("ROOM_CREATED", agent)), Append(Noted("ROOM_JOINED", agent))], Done)
  }

  function SetRoomMembersPlan(w: World, room: nat, humans: set<string>, actor: Actor): Plan {
    var i := RoomAt(w, room);
    if !actor.admin then Refuse(403)
    else if i == |w.rooms| then Refuse(404)
    else Plan([SetHumans(i, humans), Append(Noted("ROOM_JOINED", ""))], Done)
  }

  // ---------------------------------------------------------------------------- mandates

  /** The workspace mandate a human signs for an agent, for thirty days. */
  function NewMandate(id: nat, agent: string, productBuild: bool, now: int): Mandate {
    Mandate(id, agent, Active, now + 30 * DAY, ALLOWED_ACTIONS, PROHIBITED_ACTIONS,
            {"evidence_export"} + if productBuild then {"product_build"} else {})
  }

  /** The registry, then the approvals it invalidates, then the audit event. */
  function LifecyclePlan(w: World, i: nat, lifecycle: Lifecycle, now: int): Plan
    requires i < |w.mandates|
  {
    var mandate := w.mandates[i];
    match lifecycle
    case Suspend =>
      if mandate.status == Revoked then Refuse(500)
      else Plan([SetMandate(i, Suspended), Append(Noted("MANDATE_AMENDED", mandate.agent))], Done)
    case Reactivate =>
      if mandate.status != Suspended || mandate.expires <= now then Refuse(500)
      else Plan([SetMandate(i, Active), Append(Noted("MANDATE_AMENDED", mandate.agent))], Done)
    case Revoke =>
      if mandate.status == Revoked then Refuse(500)
      else Plan([SetMandate(i, Revoked), InvalidateApprovals(mandate.id), Append(Noted("MANDATE_REVOKED", mandate.agent))], Done)
  }

  function UpdateMandatePlan(w: World, agent: string, lifecycle: Lifecycle, now: int): Plan {
    var n := AfterNewestMandate(w, agent);
    if agent !in w.agents || n == 0 then Refuse(404) else LifecyclePlan(w, n - 1, lifecycle, now)
  }

  function CreateMandatePlan(w: World, agent: string, productBuild: bool, now: int): Plan {
    Plan([AddMandate(NewMandate(w.nextId, agent, productBuild, now)),
          Append(Noted("MANDATE_CREATED", agent)), Append(Noted("MANDATE_SIGNED", agent))], Done)
  }

  function AssignMandatePlan(w: World, agent: string, productBuild: bool, now: int): Plan {
    var i := ActiveMandateAt(w, agent);
    if !HasPassport(w, agent, now) then Refuse(PassportCode(w, agent))
    else if i == |w.mandates| then CreateMandatePlan(w, agent, productBuild, now)
    else if !productBuild || "product_build" in w.mandates[i].needApproval then NOTHING
    else
      var revoke := LifecyclePlan(w, i, Revoke, now);
      Then(revoke, CreateMandatePlan(Run(w, revoke.writes), agent, productBuild, now))
  }

  // ----------------------------------------------------------------------------- actions

  /** The policy's decision for a mandate that is active and unexpired. */
  function Evaluate(mandate: Mandate, name: string): Decision {
    if name in mandate.prohibited then Denied
    else if name in mandate.needApproval then NeedsApproval
    else if name !in mandate.allowed then Denied
    else Allowed
  }

  /** A key that was decided before is denied as a replay, whatever it asked for. */
  function Authorize(w: World, mandate: Mandate, name: string, key: string): Decision {
    if key in w.decided then Denied else Evaluate(mandate, name)
  }

  function AuthorizeWrites(w: World, agent: string, mandate: Mandate, name: string, key: string): seq<Write> {
    (if Authorize(w, mandate, name, key) == NeedsApproval then [AddApproval(Approval(w.nextId, agent, mandate.id, key, name, Awaiting))] else [])
    + [AddDecision(key), Append(Noted("ACTION_REQUESTED", agent)), Append(Noted("POLICY_DECIDED", agent))]
  }

  function NewAction(w: World, authorized: World, room: nat, agent: string, name: string, key: string, now: int): Action
    requires Governed(w, agent, now)
  {
    var mandate := w.mandates[ActiveMandateAt(w, agent)];
    var decision := Authorize(w, mandate, name, key);
    Action(
      Ask(authorized.nextId, agent, w.passports[PassportAt(w, agent)].id, mandate.id, room, name, decision,
          if decision == NeedsApproval then Some(w.nextId) else None, key, now),
      if decision == Denied then Turned else Pending, "", 0, None, None, None)
  }

  function RequestWrites(w: World, room: nat, agent: string, name: string, key: string, now: int): seq<Write>
    requires Governed(w, agent, now)
  {
    var writes := AuthorizeWrites(w, agent, w.mandates[ActiveMandateAt(w, agent)], name, key);
    writes + [AddAction(NewAction(w, Run(w, writes), room, agent, name, key, now))]
  }

  function RequestActionPlan(w: World, room: nat, agent: string, name: string, key: string, actor: Actor, now: int): Plan {
    var i := ActionWithKey(w, key);
    if name !in LABELS then Refuse(400)
    else if i < |w.actions| then
      var ask := w.actions[i].ask;
      if ask.room != room || ask.agent != agent || ask.name != name then Refuse(409) else NOTHING
    else if !Governed(w, agent, now) then Refuse(GovernedCode(w, agent, now))
    else if !InRoom(w, room, agent, actor) then Refuse(403)
    else
      var asked := Plan(RequestWrites(w, room, agent, name, key, now), Done);
      if Authorize(w, w.mandates[ActiveMandateAt(w, agent)], name, key) == Allowed
      then Then(asked, ExecutePlan(Run(w, asked.writes), |w.actions|, actor, now))
      else asked
  }

  function GovernedAgents(w: World, now: int): set<string> {
    set agent | agent in w.agents && Governed(w, agent, now)
  }

  function UnownedAgents(w: World): set<string> {
    set agent | agent in w.agents && BindingAt(w, agent) == |w.bindings|
  }

  function Outcome(w: World, ask: Ask, actor: Actor, now: int): Result {
    if ask.name == "inventory_report" then
      Inventory(|w.agents|, |GovernedAgents(w, now)|, |UnownedAgents(w)|)
    else if ask.name == "verify_integrity" then Integrity(|w.ledger|)
    else Export(|w.ledger|, HashOf(PackDocument(EvidencePack(w, ask, actor, now))))
  }

  function EvidencePack(w: World, ask: Ask, actor: Actor, now: int): Pack {
    Pack(ask, actor.human, now, w.ledger)
  }

  /** The artifact file, then effect and receipt in one state write, then the audit event. */
  function ExecutePlan(w: World, i: nat, actor: Actor, now: int): Plan {
    if i >= |w.actions| || w.actions[i].count != 0 then NOTHING
    else
      var action := w.actions[i];
      var ask := action.ask;
      if !AuthorityHolds(w, ask, actor, now) then Refuse(AuthorityCode(w, ask, actor, now))
      else if !Sanctioned(w, ask) then Refuse(409)
      else if ask.name !in ALLOWED_ACTIONS + {"evidence_export"} then Refuse(409)
      else
        var result := Outcome(w, ask, actor, now);
        var executed := ExecutedRecord(action, result, now);
        Plan((if ask.name == "evidence_export" then [PutPack(i, EvidencePack(w, ask, actor, now))] else [])
             + [Commit(i, result, now, actor), Append(ActionExecuted(ask.id, executed.receipt.value.hash, false))], Done)
  }

  function DecideApprovalPlan(w: World, approval: nat, approve: bool, actor: Actor, now: int): Plan {
    var i, j := ActionWithApproval(w, approval), ApprovalAt(w, approval);
    if i == |w.actions| || j == |w.approvals| then Refuse(404)
    else
      var ask, status := w.actions[i].ask, w.approvals[j].status;
      if status != Awaiting then
        if status != (if approve then Approved else Refused) then Refuse(409)
        else if status == Approved && w.actions[i].count == 0 then
          if !AuthorityHolds(w, ask, actor, now) then Refuse(AuthorityCode(w, ask, actor, now)) else ExecutePlan(w, i, actor, now)
        else NOTHING
      else if !AuthorityHolds(w, ask, actor, now) then Refuse(AuthorityCode(w, ask, actor, now))
      else
        var resolved := Plan([ResolveApproval(j, if approve then Approved else Refused), AddDecision(ask.key),
                              Append(Noted(if approve then "HUMAN_APPROVED" else "HUMAN_REJECTED", ask.agent))], Done);
        if approve then Then(resolved, ExecutePlan(Run(w, resolved.writes), i, actor, now))
        else Then(resolved, Plan([SetStatus(i, Rejected, "APPROVAL_REJECTED")], Done))
  }

  // ---------------------------------------------------------------------------- recovery

  predicate HasExecutionEvent(ledger: seq<Event>, action: nat) {
    exists e :: e in ledger && e.ActionExecuted? && e.action == action
  }

  /** A pending action that a crash left behind, after its decision and before its effect. */
  function RecoverPlan(w: World, i: nat, actor: Actor, now: int): Plan {
    if i >= |w.actions| || w.actions[i].status != Pending then NOTHING
    else
      var ask := w.actions[i].ask;
      var j := if ask.approval.Some? then ApprovalAt(w, ask.approval.value) else |w.approvals|;
      var found := j < |w.approvals|;
      if (ask.decision == Allowed && ask.approval == None) || (found && w.approvals[j].status == Approved) then
        if AuthorityHolds(w, ask, actor, now) then ExecutePlan(w, i, actor, now)
        else Plan([SetStatus(i, Turned, "AUTHORITY_UNAVAILABLE_ON_RESTART"), Append(Noted("POLICY_DENIED", ask.agent))], Done)
      else if found && w.approvals[j].status == Refused then Plan([SetStatus(i, Rejected, w.actions[i].reason)], Done)
      else if found && w.approvals[j].status == Invalidated then Plan([SetStatus(i, Turned, w.actions[i].reason)], Done)
      else NOTHING
  }

  function RecoverFrom(w: World, i: nat, n: nat, actor: Actor, now: int): Plan
    decreases n - i
  {
    if i >= n then NOTHING
    else
      var one := RecoverPlan(w, i, actor, now);
      Then(one, RecoverFrom(Run(w, one.writes), i + 1, n, actor, now))
  }

  /** An executed action without its audit event: replayed from its signed receipt. */
  function ReplayPlan(w: World, i: nat): Plan {
    if i >= |w.actions| || w.actions[i].status != Executed || HasExecutionEvent(w.ledger, w.actions[i].ask.id) then NOTHING
    else if !Verifies(w.actions[i]) then Refuse(409)
    else Plan([Append(ActionExecuted(w.actions[i].ask.id, w.actions[i].receipt.value.hash, true))], Done)
  }

  function ReplayFrom(w: World, i: nat, n: nat): Plan
    decreases n - i
  {
    if i >= n then NOTHING
    else
      var one := ReplayPlan(w, i);
      Then(one, ReplayFrom(Run(w, one.writes), i + 1, n))
  }

  function InitializePlan(w: World, actor: Actor, now: int): Plan {
    var recovered := RecoverFrom(w, 0, |w.actions|, actor, now);
    Then(recovered, ReplayFrom(Run(w, recovered.writes), 0, |w.actions|))
  }

  // ------------------------------------------------------------------------------ memory

  function NewMemory(w: World, room: nat, agent: string, title: string, content: string, source: Source, actor: Actor): Memory {
    Memory(w.nextId, title, content, source, agent, room, actor.human, Proposed, None, HashOf(MemoryDocument(title, content, source)))
  }

  function ProposalPlan(memory: Memory): Plan {
    Plan([AddMemory(memory), Append(MemoryProposed(memory.id, memory.hash))], Done)
  }

  function ProposeMemoryPlan(w: World, room: nat, agent: string, title: string, content: string, actor: Actor, now: int): Plan {
    var n := AfterLast(w.actions, (a: Action) => a.ask.agent == agent && a.ask.room == room && a.status == Executed && a.result.Some?);
    if !Governed(w, agent, now) then Refuse(GovernedCode(w, agent, now))
    else if !InRoom(w, room, agent, actor) then Refuse(403)
    else if n == 0 then Refuse(400)
    else ProposalPlan(NewMemory(w, room, agent, title, content, FromAction(w.actions[n - 1].ask.id), actor))
  }

  function ProposeBuildMemoryPlan(w: World, room: nat, agent: string, run: string, title: string, content: string, actor: Actor, now: int): Plan {
    if !InRoom(w, room, agent, actor) then Refuse(403)
    else if !Governed(w, agent, now) then Refuse(GovernedCode(w, agent, now))
    else if exists m :: m in w.memories && m.source == FromRun(run) then NOTHING
    else ProposalPlan(NewMemory(w, room, agent, title, content, FromRun(run), actor))
  }

  function ReviewMemoryPlan(w: World, memory: nat, approve: bool, edited: Option<string>, actor: Actor): Plan {
    var i := MemoryAt(w, memory);
    if i == |w.memories| then Refuse(404)
    else
      var m := w.memories[i];
      if m.status != Proposed then Refuse(409)
      else if actor.named && m.proposer == actor.human then Refuse(403)
      else if MemoryHash(m) != m.hash then Refuse(409)
      else if !InRoom(w, m.room, m.agent, actor) then Refuse(403)
      else
        var text := if edited.Some? then edited.value else m.content;
        var decided := DecidedMemory(m, approve, text, actor.human);
        Plan([DecideMemory(i, approve, text, actor),
              Append(MemoryReviewed(memory, actor.human, approve, m.hash, decided.hash)),
              Append(if approve then MemoryPublished(memory, actor.human) else MemoryRejected(memory, actor.human))], Done)
  }

  function PlanOf(w: World, op: Op, actor: Actor, now: int): Plan {
    match op
    case Register(agent) => RegisterPlan(w, agent)
    case Bind(agent, human) => BindPlan(w, agent, human)
    case IssuePassport(agent) => IssuePassportPlan(w, agent, now)
    case AssignMandate(agent, productBuild) => AssignMandatePlan(w, agent, productBuild, now)
    case UpdateMandate(agent, lifecycle) => UpdateMandatePlan(w, agent, lifecycle, now)
    case CreateRoom(agent, name, peers) => CreateRoomPlan(w, agent, name, peers, actor, now)
    case SetRoomMembers(room, humans) => SetRoomMembersPlan(w, room, humans, actor)
    case RequestAction(room, agent, name, key) => RequestActionPlan(w, room, agent, name, key, actor, now)
    case DecideApproval(approval, approve) => DecideApprovalPlan(w, approval, approve, actor, now)
    case ProposeMemory(room, agent, title, content) => ProposeMemoryPlan(w, room, agent, title, content, actor, now)
    case ProposeBuildMemory(room, agent, run, title, content) => ProposeBuildMemoryPlan(w, room, agent, run, title, content, actor, now)
    case ReviewMemory(memory, approve, edited) => ReviewMemoryPlan(w, memory, approve, edited, actor)
    case Initialize => InitializePlan(w, actor, now)
  }
}
