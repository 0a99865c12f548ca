/**
  The governance service's durable stores as one value, and the writes that change them. A
  crash or a failed write can fall between any two writes, so a write is the unit of change.
 */
module GovernanceModel {
  import opened Options

  datatype Actor = Actor(human: string, named: bool, admin: bool)

  datatype Passport = Passport(id: nat, agent: string, owner: string, active: bool, expires: int)
  datatype Binding = Binding(agent: string, human: string)
  datatype Room = Room(id: nat, name: string, humans: set<string>, agents: set<string>)

  datatype MandateStatus = Active | Suspended | Revoked
  datatype Mandate = Mandate(
    id: nat, agent: string, status: MandateStatus, expires: int,
    allowed: set<string>, prohibited: set<string>, needApproval: set<string>)

  datatype ApprovalStatus = Awaiting | Approved | Refused | Invalidated
  datatype Approval = Approval(id: nat, agent: string, mandate: nat, key: string, action: string, status: ApprovalStatus)

  datatype Decision = Allowed | NeedsApproval | Denied
  datatype ActionStatus = Pending | Executed | Turned | Rejected

  /** What a request fixes once and for all. */
  datatype Ask = Ask(
    id: nat, agent: string, passport: nat, mandate: nat, room: nat, name: string,
    decision: Decision, approval: Option<nat>, key: string, at: int)

  /** `Turned` is the status the source writes as "denied". */
  datatype Action = Action(
    ask: Ask, status: ActionStatus, reason: string, count: nat,
    executedAt: Option<int>, result: Option<Result>, receipt: Option<Receipt>)

  datatype Result =
    | Inventory(registered: nat, governed: nat, unowned: nat)
    | Integrity(records: nat)
    | Export(records: nat, contentHash: Hash)

  datatype Pack = Pack(ask: Ask, requestedBy: string, at: int, events: seq<Event>)

  /** Hashing canonical text is injective: a hash is its document. */
  datatype Hash = HashOf(document: Document)
  datatype Document = ActionDocument(action: Action) | PackDocument(pack: Pack) | MemoryDocument(title: string, content: string, source: Source)

  /** A signature verifies for the very document it was made for, and no other. */
  datatype Receipt = Receipt(signedBy: string, hash: Hash)

  /** A finding comes from one executed action or from one CLI run. */
  datatype Source = FromAction(action: nat) | FromRun(run: string)

  datatype MemoryStatus = Proposed | Published | Dismissed
  datatype Memory = Memory(
    id: nat, title: string, content: string, source: Source, agent: string, room: nat,
    proposer: string, status: MemoryStatus, reviewer: Option<string>, hash: Hash)

  datatype Event =
    | ActionExecuted(action: nat, receipt: Hash, recovered: bool)
    | MemoryProposed(memory: nat, proposedHash: Hash)
    | MemoryReviewed(memory: nat, human: string, approve: bool, original: Hash, reviewed: Hash)
    | MemoryPublished(memory: nat, human: string)
    | MemoryRejected(memory: nat, human: string)
    | Noted(kind: string, agent: string)

  /** The state file, the policy and approval registry, the ledger and the artifact files. */
  datatype World = World(
    agents: set<string>, bindings: seq<Binding>, rooms: seq<Room>, actions: seq<Action>, memories: seq<Memory>,
    passports: seq<Passport>, mandates: seq<Mandate>, approvals: seq<Approval>, decided: set<string>,
    ledger: seq<Event>, packs: map<nat, Pack>, nextId: nat)

  const EMPTY := World({}, [], [], [], [], [], [], [], {}, [], map[], 0)

  const PLANE := "byosync-control-plane"

  /** One durable write. Positions are those of the lists, which only ever grow. */
  datatype Write =
    | AddAgent(agent: string)
    | AddBinding(binding: Binding)
    | AddRoom(room: Room)
    | SetHumans(roomAt: nat, humans: set<string>)
    | AddPassport(passport: Passport)
    | AddMandate(mandate: Mandate)
    | SetMandate(mandateAt: nat, mandateStatus: MandateStatus)
    | InvalidateApprovals(mandateId: nat)
    | AddApproval(approval: Approval)
    | ResolveApproval(approvalAt: nat, approvalStatus: ApprovalStatus)
    | AddDecision(key: string)
    | AddAction(action: Action)
    | SetStatus(statusAt: nat, status: ActionStatus, reason: string)
    | PutPack(packAt: nat, pack: Pack)
    | Commit(commitAt: nat, result: Result, now: int, actor: Actor)
    | AddMemory(memory: Memory)
    | DecideMemory(memoryAt: nat, publish: bool, content: string, reviewer: Actor)
    | Append(event: Event)

  function Signed(action: Action): Receipt {
    Receipt(PLANE, HashOf(ActionDocument(action.(receipt := None))))
  }

  predicate Verifies(action: Action) {
    action.receipt.Some? && action.receipt.value.hash == HashOf(ActionDocument(action.(receipt := None)))
  }

  /** The executed record: effect, count and signed receipt, all in one state write. */
  function ExecutedRecord(action: Action, result: Result, now: int): Action {
    var committed := action.(status := Executed, count := 1, executedAt := Some(now), result := Some(result), receipt := None);
    committed.(receipt := Some(Signed(committed)))
  }

  function MemoryHash(memory: Memory): Hash {
    HashOf(MemoryDocument(memory.title, memory.content, memory.source))
  }

  function DecidedMemory(memory: Memory, publish: bool, content: string, reviewer: string): Memory {
    var edited := memory.(content := content, status := if publish then Published else Dismissed, reviewer := Some(reviewer));
    edited.(hash := MemoryHash(edited))
  }

  function Invalidate(approvals: seq<Approval>, mandate: nat): (r: seq<Approval>)
    ensures |r| == |approvals|
    ensures forall i :: 0 <= i < |r| ==>
      r[i] == if approvals[i].status == Awaiting && approvals[i].mandate == mandate then approvals[i].(status := Invalidated) else approvals[i]
  {
    if approvals == [] then []
    else
      var last := approvals[|approvals| - 1];
      Invalidate(approvals[..|approvals| - 1], mandate)
      + [if last.status == Awaiting && last.mandate == mandate then last.(status := Invalidated) else last]
  }

  function Apply(w: World, write: Write): World {
    match write
    case AddAgent(agent) => w.(agents := w.agents + {agent})
    case AddBinding(binding) => w.(bindings := w.bindings + [binding])
    case AddRoom(room) => w.(rooms := w.rooms + [room], nextId := w.nextId + 1)
    case SetHumans(i, humans) => if i < |w.rooms| then w.(rooms := w.rooms[i := w.rooms[i].(humans := humans)]) else w
    case AddPassport(passport) => w.(passports := w.passports + [passport], nextId := w.nextId + 1)
    case AddMandate(mandate) => w.(mandates := w.mandates + [mandate], nextId := w.nextId + 1)
    case SetMandate(i, status) => if i < |w.mandates| then w.(mandates := w.mandates[i := w.mandates[i].(status := status)]) else w
    case InvalidateApprovals(mandate) => w.(approvals := Invalidate(w.approvals, mandate))
    case AddApproval(approval) => w.(approvals := w.approvals + [approval], nextId := w.nextId + 1)
    case ResolveApproval(i, status) => if i < |w.approvals| then w.(approvals := w.approvals[i := w.approvals[i].(status := status)]) else w
    case AddDecision(key) => w.(decided := w.decided + {key})
    case AddAction(action) => w.(actions := w.actions + [action], nextId := w.nextId + 1)
    case SetStatus(i, status, reason) =>
      if i < |w.actions| then w.(actions := w.actions[i := w.actions[i].(status := status, reason := reason)]) else w
    case PutPack(i, pack) => if i < |w.actions| then w.(packs := w.packs[w.actions[i].ask.id := pack]) else w
    case Commit(i, result, now, _) =>
      if i < |w.actions| then w.(actions := w.actions[i := ExecutedRecord(w.actions[i], result, now)]) else w
    case AddMemory(memory) => w.(memories := w.memories + [memory], nextId := w.nextId + 1)
    case DecideMemory(i, publish, content, reviewer) =>
      if i < |w.memories| then w.(memories := w.memories[i := DecidedMemory(w.memories[i], publish, content, reviewer.human)]) else w
    case Append(event) => w.(ledger := w.ledger + [event])
  }

  function Run(w: World, writes: seq<Write>): World
    decreases |writes|
  {
    if writes == [] then w else Apply(Run(w, writes[..|writes| - 1]), writes[|writes| - 1])
  }

  // ------------------------------------------------------------------------- the lookups

  function PassportAt(w: World, agent: string): nat {
    First(w.passports, (p: Passport) => p.agent == agent)
  }

  function BindingAt(w: World, agent: string): nat {
    First(w.bindings, (b: Binding) => b.agent == agent)
  }

  function RoomAt(w: World, room: nat): nat {
    First(w.rooms, (r: Room) => r.id == room)
  }

  function ActiveMandateAt(w: World, agent: string): nat {
    First(w.mandates, (m: Mandate) => m.agent == agent && m.status == Active)
  }

  /** One past the newest mandate of the agent. */
  function AfterNewestMandate(w: World, agent: string): nat {
    AfterLast(w.mandates, (m: Mandate) => m.agent == agent)
  }

  function ApprovalAt(w: World, approval: nat): nat {
    First(w.approvals, (a: Approval) => a.id == approval)
  }

  function ActionWithKey(w: World, key: string): nat {
    First(w.actions, (a: Action) => a.ask.key == key)
  }

  function ActionWithApproval(w: World, approval: nat): nat {
    First(w.actions, (a: Action) => a.ask.approval == Some(approval))
  }

  function MemoryAt(w: World, memory: nat): nat {
    First(w.memories, (m: Memory) => m.id == memory)
  }

  // ----------------------------------------------------------------------- the authority

  predicate HasPassport(w: World, agent: string, now: int) {
    var p, b := PassportAt(w, agent), BindingAt(w, agent);
    && agent in w.agents
    && p < |w.passports| && b < |w.bindings|
    && w.passports[p].owner == w.bindings[b].human
    && w.passports[p].active && w.passports[p].expires > now
  }

  predicate Governed(w: World, agent: string, now: int) {
    var m := ActiveMandateAt(w, agent);
    HasPassport(w, agent, now) && m < |w.mandates| && w.mandates[m].expires > now
  }

  predicate InRoom(w: World, room: nat, agent: string, actor: Actor) {
    var r := RoomAt(w, room);
    r < |w.rooms| && agent in w.rooms[r].agents && (actor.admin || actor.human in w.rooms[r].humans)
  }

  /** The action's own passport and mandate are the active, unexpired ones, and cover it. */
  predicate AuthorityHolds(w: World, ask: Ask, actor: Actor, now: int) {
    && Governed(w, ask.agent, now)
    && InRoom(w, ask.room, ask.agent, actor)
    && w.passports[PassportAt(w, ask.agent)].id == ask.passport
    && var mandate := w.mandates[ActiveMandateAt(w, ask.agent)];
       mandate.id == ask.mandate && ask.name !in mandate.prohibited && ask.name in mandate.allowed + mandate.needApproval
  }

  /** The HTTP status of the refusal where there is no passport in force: unknown agent, no owner's passport, or an inactive one. */
  function PassportCode(w: World, agent: string): nat {
    var p, b := PassportAt(w, agent), BindingAt(w, agent);
    if agent !in w.agents then 404
    else if p == |w.passports| || b == |w.bindings| || w.passports[p].owner != w.bindings[b].human then 400
    else 409
  }

  function GovernedCode(w: World, agent: string, now: int): nat {
    if HasPassport(w, agent, now) then 400 else PassportCode(w, agent)
  }

  function AuthorityCode(w: World, ask: Ask, actor: Actor, now: int): nat {
    if !Governed(w, ask.agent, now) then GovernedCode(w, ask.agent, now)
    else if !InRoom(w, ask.room, ask.agent, actor) then 403
    else 409
  }

  predicate Bound(approval: Approval, ask: Ask) {
    && ask.approval == Some(approval.id)
    && approval.agent == ask.agent && approval.mandate == ask.mandate && approval.key == ask.key && approval.action == ask.name
  }

  /** A human approved this very request, or policy allowed it without one. */
  predicate Sanctioned(w: World, ask: Ask) {
    match ask.approval
    case None => ask.decision == Allowed
    case Some(id) =>
      var i := ApprovalAt(w, id);
      i < |w.approvals| && w.approvals[i].status == Approved && Bound(w.approvals[i], ask)
  }
}
