/**
  Room runs as a state machine. A durable change is one step, and between two of them any
  other step may come: another person's decision, a cancellation, a crash. What the source
  awaits becomes a program counter of the run's background worker.
 */
module RoomMachine {
  import opened Options
  import opened RoomFiles
  import opened PublicationTree

  type Id = nat

  datatype Output = Output(summary: string, files: seq<File>, memory: string)

  /** Hashing canonical text is injective: a hash is its document. */
  datatype Hash = RequestHash(request: Request) | OutputHash(output: Output) | FilesHash(files: seq<File>)

  datatype Assignment = Assignment(agent: string, engine: string, mandate: nat, passport: nat)

  /** The fields a request hash covers. */
  datatype Request = Request(
    id: Id, room: nat, title: string, objective: string, requester: string, at: int,
    memories: seq<nat>, assignments: seq<Assignment>)

  datatype StepStatus = Queued | Working | Done | Broken

  datatype Step = Step(assignment: Assignment, status: StepStatus, output: Option<Output>, hash: Option<Hash>)

  datatype Status = Pending | Running | Succeeded | Failed | Cancelled | Rejected | Interrupted

  /** The files' hash, who published them, and the directory they were written to. */
  datatype Publication = Publication(hash: Hash, publisher: string, disk: Tree)

  datatype Run = Run(
    id: Id, room: nat, title: string, objective: string, requester: string, at: int, memories: seq<nat>,
    steps: seq<Step>, status: Status, approver: Option<string>, publication: Option<Publication>)

  datatype Event =
    | Requested(run: Id, request: Hash, human: string)
    | Approved(run: Id, request: Hash, human: string)
    | Declined(run: Id, request: Hash, human: string)
    | StepTold(run: Id, agent: string, output: Hash)
    | Published(run: Id, files: Hash, human: string)
    | FailureTold(run: Id)

  function Assignments(steps: seq<Step>): (r: seq<Assignment>)
    ensures |r| == |steps| && forall i :: 0 <= i < |r| ==> r[i] == steps[i].assignment
  {
    seq(|steps|, i requires 0 <= i < |steps| => steps[i].assignment)
  }

  function HashOfRequest(run: Run): Hash {
    RequestHash(Request(run.id, run.room, run.title, run.objective, run.requester, run.at, run.memories, Assignments(run.steps)))
  }

  /**
    Where the background worker of a run stands. `Loop(i)` is before the abort check of step i,
    `Mark` before its authority check, `Exec` inside the external process, `Record` after the
    second abort check, `Tell` between the step's record and its audit event.
   */
  datatype Pc =
    | Start | Loop(i: nat) | Mark(i: nat) | Exec(i: nat) | Record(i: nat, out: Output) | Tell(i: nat, out: Output)
    | Final | Catch | TellFailure | Trace | Outer

  datatype Actor = Actor(human: string, named: bool)
  datatype Decision = Decision(id: Id, approve: bool, actor: Actor)

  /**
    Durable are the runs and the ledger. The rest is lost in a crash: controllers by run with
    their abort flag, background workers, requests not yet told to the ledger, and decisions
    and publications that have passed their checks but not yet made their change.
   */
  datatype State = State(
    runs: map<Id, Run>, ledger: seq<Event>, nextId: Id,
    booted: bool, active: map<Id, bool>, tasks: map<Id, Pc>,
    asking: set<Id>, deciding: set<Decision>, publishing: set<Decision>,
    clean: bool)

  const EMPTY := State(map[], [], 0, false, map[], map[], {}, {}, {}, true)

  /** A write that succeeds, one that fails without effect, one that lands but reports failure. */
  datatype Fault = Fine | Refused | Unacknowledged

  datatype Draft = Draft(room: nat, title: string, objective: string, requester: string, at: int, memories: seq<nat>, assignments: seq<Assignment>)

  /** What the environment decides in one step of a worker: access and authority, the process, the storage. */
  datatype Luck = Luck(ok: bool, result: Option<Output>, fault: Fault)

  datatype Move =
    | Ask(draft: Draft, fault: Fault)
    | TellAsk(id: Id, fault: Fault)
    | CheckDecision(decision: Decision, allowed: bool)
    | Decide(decision: Decision, append: Fault, fault: Fault)
    | Cancel(id: Id, fault: Fault)
    | Abort(id: Id)
    | Work(id: Id, luck: Luck)
    | CheckPublication(decision: Decision, allowed: bool)
    | Publish(decision: Decision, append: Fault, fault: Fault)
    | Crash
    | Boot(fault: Fault)

  // ------------------------------------------------------------------- the checks on a run

  function Fresh(id: Id, draft: Draft): Run {
    Run(id, draft.room, draft.title, draft.objective, draft.requester, draft.at, draft.memories,
        seq(|draft.assignments|, i requires 0 <= i < |draft.assignments| => Step(draft.assignments[i], Queued, None, None)),
        Pending, None, None)
  }

  predicate RequestKnown(ledger: seq<Event>, run: Run) {
    Requested(run.id, HashOfRequest(run), run.requester) in ledger
  }

  predicate ApprovalKnown(ledger: seq<Event>, run: Run) {
    run.approver.Some? && Approved(run.id, HashOfRequest(run), run.approver.value) in ledger
  }

  predicate StepKnown(ledger: seq<Event>, id: Id, step: Step) {
    && step.status == Done && step.output.Some?
    && step.hash == Some(OutputHash(step.output.value))
    && StepTold(id, step.assignment.agent, step.hash.value) in ledger
  }

  /** The integrity check that guards execution, publication and download. */
  predicate Verified(ledger: seq<Event>, run: Run, approved: bool, outputs: bool) {
    && RequestKnown(ledger, run)
    && (approved ==> ApprovalKnown(ledger, run))
    && (outputs ==> forall step :: step in run.steps ==> StepKnown(ledger, run.id, step))
  }

  function LastFiles(run: Run): seq<File> {
    if run.steps == [] || run.steps[|run.steps| - 1].output == None then [] else run.steps[|run.steps| - 1].output.value.files
  }

  /** What may be downloaded: the files by path, or None where the source refuses. */
  function Download(s: State, id: Id): Option<map<string, string>> {
    if id !in s.runs then None
    else
      var run := s.runs[id];
      if !Verified(s.ledger, run, true, true) || run.publication == None then None
      else
        var files := LastFiles(run);
        if !Valid(files) || FilesHash(files) != run.publication.value.hash
           || Published(id, run.publication.value.hash, run.publication.value.publisher) !in s.ledger then None
        else Some(Packed(files))
  }

  // --------------------------------------------------------------------------- the changes

  function WithStatus(run: Run, status: Status): Run {
    run.(status := status)
  }

  function WithStep(run: Run, i: nat, step: Step): Run {
    if i < |run.steps| then run.(steps := run.steps[i := step]) else run
  }

  function Marked(run: Run, i: nat): Run {
    if i < |run.steps| then WithStep(run, i, run.steps[i].(status := Working)) else run
  }

  function Recorded(run: Run, i: nat, out: Output): Run {
    if i < |run.steps| then WithStep(run, i, run.steps[i].(status := Done, output := Some(out), hash := Some(OutputHash(out)))) else run
  }

  /** Steps that were under way have failed. */
  function BrokenSteps(steps: seq<Step>): (r: seq<Step>)
    ensures |r| == |steps|
    ensures forall i :: 0 <= i < |r| ==> r[i] == if steps[i].status == Working then steps[i].(status := Broken) else steps[i]
  {
    seq(|steps|, i requires 0 <= i < |steps| => if steps[i].status == Working then steps[i].(status := Broken) else steps[i])
  }

  /** The inner catch: cancelled stays cancelled, an abort cancels, anything else fails. */
  function Caught(run: Run, aborted: bool): Run {
    run.(status := if run.status == Cancelled || aborted then Cancelled else Failed, steps := BrokenSteps(run.steps))
  }

  /** A durable change of one run; `fault` says whether it lands. */
  function Change(s: State, id: Id, run: Run, fault: Fault): State {
    if fault == Refused then s.(clean := false)
    else s.(runs := s.runs[id := run], clean := s.clean && fault == Fine)
  }

  function AppendEvent(s: State, event: Event, fault: Fault): State {
    if fault == Refused then s.(clean := false)
    else s.(ledger := s.ledger + [event], clean := s.clean && fault == Fine)
  }

  // ----------------------------------------------------------------------------- the moves

  function DoAsk(s: State, draft: Draft, fault: Fault): State {
    if |s.runs| >= 2000 || !(1 <= |draft.assignments| <= 4) then s
    else
      var stored := Change(s, s.nextId, Fresh(s.nextId, draft), fault);
      if fault == Fine then stored.(asking := s.asking + {s.nextId}, nextId := s.nextId + 1)
      else stored.(nextId := s.nextId + 1)
  }

  function DoTellAsk(s: State, id: Id, fault: Fault): State {
    if id !in s.asking || id !in s.runs then s
    else
      var run := s.runs[id];
      AppendEvent(s, Requested(id, HashOfRequest(run), run.requester), fault).(asking := s.asking - {id})
  }

  /** `allowed` stands for role, room membership and, for an approval, every step's authority. */
  function DoCheckDecision(s: State, d: Decision, allowed: bool): State {
    if allowed && d.id in s.runs && Verified(s.ledger, s.runs[d.id], false, false)
       && !(d.actor.named && s.runs[d.id].requester == d.actor.human)
    then s.(deciding := s.deciding + {d}) else s
  }

  function DecidedRun(run: Run, d: Decision): Run {
    run.(approver := Some(d.actor.human), status := if d.approve then Running else Rejected)
  }

  /** The controller is registered before the state is written, and stays if the write fails. */
  function DoDecide(s: State, d: Decision, append: Fault, fault: Fault): State {
    if d !in s.deciding || d.id !in s.runs then s
    else
      var run, left := s.runs[d.id], s.(deciding := s.deciding - {d});
      if run.status != Pending || (d.approve && |s.active| >= 2) then left
      else
        var event := if d.approve then Approved(d.id, HashOfRequest(run), d.actor.human) else Declined(d.id, HashOfRequest(run), d.actor.human);
        var told := AppendEvent(left, event, append);
        if append != Fine then told
        else
          var registered := if d.approve then told.(active := told.active[d.id := false]) else told;
          var changed := Change(registered, d.id, DecidedRun(run, d), fault);
          if d.approve && fault == Fine then changed.(tasks := changed.tasks[d.id := Start]) else changed
  }

  /** The abort comes with the change, whether or not its write goes through. */
  function DoCancel(s: State, id: Id, fault: Fault): State {
    if id !in s.runs || (s.runs[id].status != Pending && s.runs[id].status != Running) then s
    else
      var changed := Change(s, id, WithStatus(s.runs[id], Cancelled), fault);
      if id in s.active then changed.(active := s.active[id := true]) else changed
  }

  /** The authority monitor or a server stop aborts a controller. */
  function DoAbort(s: State, id: Id): State {
    if id in s.active then s.(active := s.active[id := true]) else s
  }

  /** One step of a worker, seen from its own run: what is written, and where the worker goes on, if it does. */
  datatype Progress = Progress(run: Run, ledger: seq<Event>, pc: Option<Pc>, clean: bool)

  function Stay(run: Run, ledger: seq<Event>, pc: Pc): Progress {
    Progress(run, ledger, Some(pc), true)
  }

  /** A durable change, and the counter after its success or failure. */
  function Write(run: Run, changed: Run, ledger: seq<Event>, fault: Fault, next: Pc, failed: Pc): Progress {
    Progress(if fault == Refused then run else changed, ledger, Some(if fault == Fine then next else failed), fault == Fine)
  }

  function Tells(run: Run, ledger: seq<Event>, event: Event, fault: Fault, next: Pc, failed: Pc): Progress {
    Progress(run, if fault == Refused then ledger else ledger + [event], Some(if fault == Fine then next else failed), fault == Fine)
  }

  function Advance(run: Run, ledger: seq<Event>, pc: Pc, aborted: bool, luck: Luck): Progress {
    match pc
    case Start =>
      if luck.fault != Fine then Progress(run, ledger, Some(Outer), false)
      else Stay(run, ledger, if Verified(ledger, run, true, false) && luck.ok then Loop(0) else Catch)
    case Loop(i) =>
      Stay(run, ledger, if i >= |run.steps| then Final else if aborted then Catch else Mark(i))
    case Mark(i) =>
      if !luck.ok then Stay(run, ledger, Catch)
      else Write(run, Marked(run, i), ledger, luck.fault, Exec(i), Catch)
    case Exec(i) =>
      if aborted || luck.result == None || !Valid(luck.result.value.files) then Stay(run, ledger, Catch)
      else Stay(run, ledger, Record(i, luck.result.value))
    case Record(i, out) =>
      if !luck.ok then Stay(run, ledger, Catch)
      else Write(run, Recorded(run, i, out), ledger, luck.fault, Tell(i, out), Catch)
    case Tell(i, out) =>
      if !luck.ok || i >= |run.steps| then Stay(run, ledger, Catch)
      else Tells(run, ledger, StepTold(run.id, run.steps[i].assignment.agent, OutputHash(out)), luck.fault, Loop(i + 1), Catch)
    case Final =>
      Write(run, if run.status == Running then WithStatus(run, Succeeded) else run, ledger, luck.fault, Trace, Catch)
    case Catch =>
      Write(run, Caught(run, aborted), ledger, luck.fault, TellFailure, Outer)
    case TellFailure =>
      Tells(run, ledger, FailureTold(run.id), luck.fault, Trace, Outer)
    case Trace =>
      if luck.fault == Fine then Progress(run, ledger, None, true) else Progress(run, ledger, Some(Outer), false)
    case Outer =>
      Progress(if luck.fault == Refused then run else WithStatus(run, Failed), ledger, None, luck.fault == Fine)
  }

  predicate Aborted(s: State, id: Id) {
    id in s.active && s.active[id]
  }

  /** When the worker is over its controller goes with it. */
  function DoWork(s: State, id: Id, luck: Luck): State {
    if id !in s.tasks || id !in s.runs then s
    else
      var p := Advance(s.runs[id], s.ledger, s.tasks[id], Aborted(s, id), luck);
      s.(runs := s.runs[id := p.run], ledger := p.ledger, clean := s.clean && p.clean,
         tasks := if p.pc.Some? then s.tasks[id := p.pc.value] else s.tasks - {id},
         active := if p.pc.Some? then s.active else s.active - {id})
  }

  function DoCheckPublication(s: State, d: Decision, allowed: bool): State {
    if allowed && d.id in s.runs && Verified(s.ledger, s.runs[d.id], true, true)
       && !(d.actor.named && s.runs[d.id].requester == d.actor.human)
    then s.(publishing := s.publishing + {d}) else s
  }

  function DoPublish(s: State, d: Decision, append: Fault, fault: Fault): State {
    if d !in s.publishing || d.id !in s.runs then s
    else
      var run, left := s.runs[d.id], s.(publishing := s.publishing - {d});
      var files := LastFiles(run);
      if run.status != Succeeded || run.publication.Some? || !Valid(files) || files == [] || !Lands(files) then left
      else
        var told := AppendEvent(left, Published(d.id, FilesHash(files), d.actor.human), append);
        if append != Fine then told
        else Change(told, d.id, run.(publication := Some(Publication(FilesHash(files), d.actor.human, Landed(files)))), fault)
  }

  function DoCrash(s: State): State {
    s.(booted := false, active := map[], tasks := map[], asking := {}, deciding := {}, publishing := {})
  }

  function InterruptAll(runs: map<Id, Run>): map<Id, Run> {
    map id | id in runs :: if runs[id].status == Running then WithStatus(runs[id], Interrupted) else runs[id]
  }

  /** A start that cannot write the state does not come up. */
  function DoBoot(s: State, fault: Fault): State {
    if s.booted then s
    else if fault == Refused then s.(clean := false)
    else s.(runs := InterruptAll(s.runs), booted := fault == Fine, clean := s.clean && fault == Fine)
  }

  function Next(s: State, move: Move): State {
    if !s.booted && !move.Boot? && !move.Crash? then s
    else
      match move
      case Ask(draft, fault) => DoAsk(s, draft, fault)
      case TellAsk(id, fault) => DoTellAsk(s, id, fault)
      case CheckDecision(d, allowed) => DoCheckDecision(s, d, allowed)
      case Decide(d, append, fault) => DoDecide(s, d, append, fault)
      case Cancel(id, fault) => DoCancel(s, id, fault)
      case Abort(id) => DoAbort(s, id)
      case Work(id, luck) => DoWork(s, id, luck)
      case CheckPublication(d, allowed) => DoCheckPublication(s, d, allowed)
      case Publish(d, append, fault) => DoPublish(s, d, append, fault)
      case Crash => DoCrash(s)
      case Boot(fault) => DoBoot(s, fault)
  }

  /** Any interleaving is a sequence of moves. */
  function After(s: State, moves: seq<Move>): State
    decreases |moves|
  {
    if moves == [] then s else Next(After(s, moves[..|moves| - 1]), moves[|moves| - 1])
  }
}
