/** The invariant of the room runtime, over every sequence of moves. */
module RoomRuns {
  import opened Options
  import opened RoomFiles
  import opened PublicationTree
  import opened RoomMachine
  import opened RoomSafety

  ghost predicate RunsSound(s: State) {
    forall id :: id in s.runs ==> RunSound(id, s.runs[id]) && Custody(s.ledger, s.runs[id])
  }

  ghost predicate TasksSound(s: State) {
    forall id :: id in s.tasks ==> id in s.runs && id in s.active && TaskSound(s.ledger, s.runs[id], s.tasks[id])
  }

  ghost predicate ChecksSound(s: State) {
    && (forall d :: d in s.deciding ==> d.id in s.runs && RequestKnown(s.ledger, s.runs[d.id]))
    && (forall id :: id in s.runs ==> id < s.nextId)
  }

  /** Never more than two controllers, and none before the server is up. */
  ghost predicate SlotsSound(s: State) {
    && |s.active| <= 2
    && (!s.booted ==> s.active == map[] && s.tasks == map[] && s.deciding == {})
  }

  /** While storage has worked, a running run has a worker that can still decide its outcome. */
  ghost predicate CleanSound(s: State) {
    s.clean && s.booted ==>
      forall id :: id in s.runs && s.runs[id].status == Running ==>
        id in s.tasks && !s.tasks[id].TellFailure? && !s.tasks[id].Trace? && !s.tasks[id].Outer?
  }

  ghost predicate Inv(s: State) {
    RunsSound(s) && TasksSound(s) && ChecksSound(s) && SlotsSound(s) && CleanSound(s)
  }

  lemma EmptyIsSound()
    ensures Inv(EMPTY)
  {
  }

  /** At most the run `id` changes, and it stays the same request; the ledger only grows. */
  ghost predicate OneRunMoves(s: State, s': State, id: Id) {
    && s.ledger <= s'.ledger && s'.nextId == s.nextId
    && s'.runs.Keys == s.runs.Keys && id in s.runs
    && (forall other :: other in s.runs && other != id ==> s'.runs[other] == s.runs[other])
    && SameRequest(s.runs[id], s'.runs[id])
    && RunSound(id, s'.runs[id]) && Custody(s'.ledger, s'.runs[id])
  }

  lemma OtherRunsStaySound(s: State, s': State, id: Id)
    requires RunsSound(s) && OneRunMoves(s, s', id)
    ensures RunsSound(s')
  {
    hide RunSound, Custody, SameRequest;
    forall other | other in s'.runs ensures RunSound(other, s'.runs[other]) && Custody(s'.ledger, s'.runs[other]) {
      if other != id {
        GrowthKeeps(s.ledger, s'.ledger, s.runs[other]);
      }
    }
  }

  lemma OtherTasksStaySound(s: State, s': State, id: Id)
    requires TasksSound(s) && OneRunMoves(s, s', id)
    requires forall other :: other in s'.tasks && other != id ==> other in s.tasks && s'.tasks[other] == s.tasks[other] && other in s'.active
    requires id in s'.tasks ==> id in s'.active && TaskSound(s'.ledger, s'.runs[id], s'.tasks[id])
    ensures TasksSound(s')
  {
    hide RunSound, Custody, SameRequest, TaskSound;
    forall other | other in s'.tasks ensures other in s'.runs && other in s'.active && TaskSound(s'.ledger, s'.runs[other], s'.tasks[other]) {
      if other != id {
        GrowthKeepsTask(s.ledger, s'.ledger, s.runs[other], s.tasks[other]);
      }
    }
  }

  lemma ChecksStaySound(s: State, s': State, id: Id)
    requires ChecksSound(s) && OneRunMoves(s, s', id) && s'.deciding <= s.deciding
    ensures ChecksSound(s')
  {
    hide RunSound, Custody, HashOfRequest;
    forall d | d in s'.deciding ensures d.id in s'.runs && RequestKnown(s'.ledger, s'.runs[d.id]) {
      GrowthKeeps(s.ledger, s'.ledger, s.runs[d.id]);
    }
  }

  // ------------------------------------------------------------------------- background work

  lemma WorkMovesOneRun(s: State, id: Id, luck: Luck)
    requires Inv(s) && id in s.tasks
    ensures id in s.runs && id in s.active
    ensures var p := Advance(s.runs[id], s.ledger, s.tasks[id], Aborted(s, id), luck);
            ProgressSound(s.runs[id], s.ledger, p) && OneRunMoves(s, DoWork(s, id, luck), id)
  {
    hide RunSound, Custody, SameRequest, TaskSound, ChecksSound, SlotsSound, CleanSound, Advance;
    assert RunSound(id, s.runs[id]) && s.runs[id].id == id by {
      RunHasItsId(s, id);
    }
    AdvanceKeeps(s.ledger, s.runs[id], s.tasks[id], Aborted(s, id), luck);
  }

  lemma RunHasItsId(s: State, id: Id)
    requires RunsSound(s) && id in s.runs
    ensures RunSound(id, s.runs[id]) && s.runs[id].id == id && Custody(s.ledger, s.runs[id])
  {
  }

  lemma MapShrinks<T>(m: map<Id, T>, id: Id)
    ensures |m - {id}| <= |m|
  {
    assert (m - {id}).Keys == m.Keys - {id};
    assert |m.Keys - {id}| <= |m.Keys|;
    assert |m - {id}| == |(m - {id}).Keys| && |m| == |m.Keys|;
  }

  /** While nothing fails, a worker that lets its run stay running can still settle it. */
  lemma CleanWorkSettles(run: Run, ledger: seq<Event>, pc: Pc, aborted: bool, luck: Luck)
    requires !pc.TellFailure? && !pc.Trace? && !pc.Outer?
    ensures var p := Advance(run, ledger, pc, aborted, luck);
            p.clean && p.run.status == Running ==> p.pc.Some? && !p.pc.value.TellFailure? && !p.pc.value.Trace? && !p.pc.value.Outer?
  {
    hide Verified, Valid, BrokenSteps;
  }

  lemma SettledStaysSettled(run: Run, ledger: seq<Event>, pc: Pc, aborted: bool, luck: Luck)
    requires pc.TellFailure? || pc.Trace? || pc.Outer?
    ensures Advance(run, ledger, pc, aborted, luck).run.status == Running ==> run.status == Running
  {
  }

  predicate Open(pc: Pc) {
    !pc.TellFailure? && !pc.Trace? && !pc.Outer?
  }

  lemma WorkKeepsClean(s: State, id: Id, luck: Luck)
    requires CleanSound(s) && id in s.tasks && id in s.runs
    ensures CleanSound(DoWork(s, id, luck))
  {
    hide Advance;
    var run, pc, s' := s.runs[id], s.tasks[id], DoWork(s, id, luck);
    var p := Advance(run, s.ledger, pc, Aborted(s, id), luck);
    if Open(pc) {
      CleanWorkSettles(run, s.ledger, pc, Aborted(s, id), luck);
    } else {
      SettledStaysSettled(run, s.ledger, pc, Aborted(s, id), luck);
    }
    if s'.clean && s'.booted {
      forall other | other in s'.runs && s'.runs[other].status == Running ensures other in s'.tasks && Open(s'.tasks[other]) {
        if other == id {
          assert p.run.status == Running && p.clean;
        } else {
          assert s.runs[other].status == Running;
        }
      }
    }
  }

  lemma WorkKeeps(s: State, id: Id, luck: Luck)
    requires Inv(s)
    ensures Inv(DoWork(s, id, luck))
  {
    if id in s.tasks && id in s.runs {
      var s' := DoWork(s, id, luck);
      WorkMovesOneRun(s, id, luck);
      WorkKeepsClean(s, id, luck);
      MapShrinks(s.active, id);
      OtherRunsStaySound(s, s', id);
      assert forall other :: other in s.tasks ==> other in s.active by { assert TasksSound(s); }
      hide RunsSound, OneRunMoves, CleanSound, TaskSound, Advance, ChecksSound;
      OtherTasksStaySound(s, s', id);
      ChecksStaySound(s, s', id);
    }
  }

  // -------------------------------------------------------------- requests and their events

  lemma FreshIsSound(id: Id, draft: Draft, ledger: seq<Event>)
    requires 1 <= |draft.assignments| <= 4
    ensures RunSound(id, Fresh(id, draft)) && Custody(ledger, Fresh(id, draft)) && Fresh(id, draft).status == Pending
  {
  }

  lemma AddingARunKeeps(s: State, run: Run, asking: set<Id>, clean: bool)
    requires Inv(s) && RunSound(s.nextId, run) && Custody(s.ledger, run) && run.status == Pending && (clean ==> s.clean)
    ensures Inv(s.(runs := s.runs[s.nextId := run], nextId := s.nextId + 1, asking := asking, clean := clean))
  {
    hide RunSound, Custody, TaskSound, RequestKnown;
    assert s.nextId !in s.runs by { assert ChecksSound(s); }
  }

  lemma SkippingAnIdKeeps(s: State)
    requires Inv(s)
    ensures Inv(s.(nextId := s.nextId + 1, clean := false))
  {
    hide RunSound, Custody, TaskSound, RequestKnown;
  }

  lemma AskKeeps(s: State, draft: Draft, fault: Fault)
    requires Inv(s)
    ensures Inv(DoAsk(s, draft, fault))
  {
    hide Inv, RunSound, Custody, Fresh;
    if |s.runs| < 2000 && 1 <= |draft.assignments| <= 4 {
      FreshIsSound(s.nextId, draft, s.ledger);
      match fault
      case Fine => AddingARunKeeps(s, Fresh(s.nextId, draft), s.asking + {s.nextId}, s.clean);
      case Refused => SkippingAnIdKeeps(s);
      case Unacknowledged => AddingARunKeeps(s, Fresh(s.nextId, draft), s.asking, false);
    }
  }

  lemma AppendMovesNothing(s: State, s': State, id: Id)
    requires RunsSound(s) && id in s.runs && s.ledger <= s'.ledger && s'.runs == s.runs && s'.nextId == s.nextId
    ensures OneRunMoves(s, s', id)
  {
    RunHasItsId(s, id);
    StandingStillIsSound(s.ledger, s.runs[id]);
    GrowthKeeps(s.ledger, s'.ledger, s.runs[id]);
    hide RunSound, Custody, SameRequest, RunsSound;
  }

  /** Whatever leaves the runs alone and tells the ledger more keeps everything. */
  lemma AppendKeeps(s: State, s': State, id: Id)
    requires Inv(s) && id in s.runs && s.ledger <= s'.ledger && s'.runs == s.runs && s'.nextId == s.nextId
    requires s'.tasks == s.tasks && s'.active == s.active && s'.deciding <= s.deciding && s'.booted == s.booted
    requires s'.clean ==> s.clean
    ensures Inv(s')
  {
    AppendMovesNothing(s, s', id);
    OtherRunsStaySound(s, s', id);
    ChecksStaySound(s, s', id);
    TasksGrow(s, s');
    hide RunsSound, OneRunMoves, TasksSound, ChecksSound;
  }

  lemma TasksGrow(s: State, s': State)
    requires TasksSound(s) && s.ledger <= s'.ledger && s'.runs == s.runs && s'.tasks == s.tasks && s'.active.Keys == s.active.Keys
    ensures TasksSound(s')
  {
    hide TaskSound;
    forall id | id in s'.tasks ensures id in s'.runs && id in s'.active && TaskSound(s'.ledger, s'.runs[id], s'.tasks[id]) {
      assert id in s'.active.Keys;
      GrowthKeepsTask(s.ledger, s'.ledger, s.runs[id], s.tasks[id]);
    }
  }

  lemma TellAskKeeps(s: State, id: Id, fault: Fault)
    requires Inv(s)
    ensures Inv(DoTellAsk(s, id, fault))
  {
    hide Inv;
    if id in s.asking && id in s.runs {
      AppendKeeps(s, DoTellAsk(s, id, fault), id);
    }
  }

  lemma ChecksKeep(s: State, d: Decision, allowed: bool)
    requires Inv(s)
    ensures s.booted ==> Inv(DoCheckDecision(s, d, allowed)) && Inv(DoCheckPublication(s, d, allowed))
  {
    hide RunSound, Custody, TaskSound, RequestKnown, StepKnown, ApprovalKnown;
  }

  // --------------------------------------------------- decisions, cancellations, publications

  /** A change of one run by anything but its worker. */
  lemma ChangeKeeps(s: State, s': State, id: Id)
    requires Inv(s) && s.booted && OneRunMoves(s, s', id) && s'.booted
    requires s'.deciding <= s.deciding && s'.active.Keys >= s.active.Keys && |s'.active| <= 2
    requires id in s'.tasks ==> id in s'.active && TaskSound(s'.ledger, s'.runs[id], s'.tasks[id])
    requires s'.tasks == s.tasks || s'.tasks == s.tasks[id := Start]
    requires s'.clean ==> s.clean && (s'.runs[id].status == Running ==> s.runs[id].status == Running || (id in s'.tasks && s'.tasks[id] == Start))
    requires s'.tasks != s.tasks ==> s.runs[id].status != Running
    ensures Inv(s')
  {
    OneRunKeepsKeys(s, s', id);
    hide RunsSound, TasksSound, ChecksSound, CleanSound, OneRunMoves, TaskSound;
    WorkersHaveControllers(s, s');
    OtherRunsStaySound(s, s', id);
    OtherTasksStaySound(s, s', id);
    ChecksStaySound(s, s', id);
    ChangeKeepsClean(s, s', id);
  }

  lemma OneRunKeepsKeys(s: State, s': State, id: Id)
    requires OneRunMoves(s, s', id)
    ensures id in s.runs && s'.runs.Keys == s.runs.Keys && forall other :: other in s.runs && other != id ==> s'.runs[other] == s.runs[other]
  {
    hide SameRequest, RunSound, Custody;
  }

  lemma WorkersHaveControllers(s: State, s': State)
    requires TasksSound(s) && s'.active.Keys >= s.active.Keys
    ensures forall other :: other in s.tasks ==> other in s'.active
  {
    hide TaskSound;
    assert forall other :: other in s.active.Keys ==> other in s'.active.Keys;
  }

  lemma ChangeKeepsClean(s: State, s': State, id: Id)
    requires CleanSound(s) && s.booted && id in s.runs && s'.runs.Keys == s.runs.Keys
    requires forall other :: other in s.runs && other != id ==> s'.runs[other] == s.runs[other]
    requires s'.tasks == s.tasks || s'.tasks == s.tasks[id := Start]
    requires s'.clean ==> s.clean && (s'.runs[id].status == Running ==> s.runs[id].status == Running || (id in s'.tasks && s'.tasks[id] == Start))
    ensures CleanSound(s')
  {
    if s'.clean && s'.booted {
      forall other | other in s'.runs && s'.runs[other].status == Running
        ensures other in s'.tasks && !s'.tasks[other].TellFailure? && !s'.tasks[other].Trace? && !s'.tasks[other].Outer?
      {
        if other == id && s.runs[id].status != Running {
          assert s'.tasks[id] == Start;
        } else {
          assert s.runs[other].status == Running;
        }
      }
    }
  }

  lemma DecisionIsSound(run: Run, ledger: seq<Event>, d: Decision)
    requires RunSound(run.id, run) && Custody(ledger, run) && run.status == Pending && RequestKnown(ledger, run) && d.id == run.id
    ensures var event := if d.approve then Approved(d.id, HashOfRequest(run), d.actor.human) else Declined(d.id, HashOfRequest(run), d.actor.human);
            var run' := DecidedRun(run, d);
            && RunSound(run.id, run') && SameRequest(run, run') && Custody(ledger + [event], run')
            && (d.approve ==> TaskSound(ledger + [event], run', Start))
  {
    var event := if d.approve then Approved(d.id, HashOfRequest(run), d.actor.human) else Declined(d.id, HashOfRequest(run), d.actor.human);
    var run' := DecidedRun(run, d);
    SameAssignmentsSameHash(run, run');
    hide HashOfRequest, StepSound;
    if d.approve {
      var i: nat :| i < |ledger| && ledger[i] == Requested(run.id, HashOfRequest(run), run.requester);
      assert ApprovedAfterRequest(ledger + [event], run', i, |ledger|);
    }
  }

  lemma SlotsAfter(active: map<Id, bool>, id: Id)
    requires |active| < 2
    ensures |active[id := false]| <= 2
  {
    assert active[id := false].Keys == active.Keys + {id};
    assert |active| == |active.Keys| && |active[id := false]| == |active[id := false].Keys|;
  }

  lemma PendingHasNoTask(s: State, id: Id)
    requires TasksSound(s) && id in s.runs && (s.runs[id].status == Pending || s.runs[id].status == Rejected)
    ensures id !in s.tasks
  {
  }

  lemma RegisteringKeeps(s: State, id: Id)
    requires Inv(s) && s.booted && |s.active| < 2
    ensures Inv(s.(active := s.active[id := false], clean := false))
  {
    SlotsAfter(s.active, id);
    hide RunSound, Custody, TaskSound, RequestKnown;
  }

  function DecisionEvent(run: Run, d: Decision): Event {
    if d.approve then Approved(d.id, HashOfRequest(run), d.actor.human) else Declined(d.id, HashOfRequest(run), d.actor.human)
  }

  /** The decision is told to the ledger; nothing else has happened yet. */
  function Announced(s: State, d: Decision, append: Fault): State
    requires d.id in s.runs
  {
    AppendEvent(s.(deciding := s.deciding - {d}), DecisionEvent(s.runs[d.id], d), append)
  }

  lemma AnnouncingKeeps(s: State, d: Decision, append: Fault)
    requires Inv(s) && d.id in s.runs
    ensures Inv(Announced(s, d, append)) && Inv(s.(deciding := s.deciding - {d}))
    ensures Announced(s, d, append).active == s.active && Announced(s, d, append).booted == s.booted && Announced(s, d, append).runs == s.runs
  {
    hide Inv, DecisionEvent;
    AppendKeeps(s, Announced(s, d, append), d.id);
    AppendKeeps(s, s.(deciding := s.deciding - {d}), d.id);
  }

  predicate Decidable(s: State, d: Decision) {
    d in s.deciding && d.id in s.runs && s.runs[d.id].status == Pending && (d.approve ==> |s.active| < 2)
  }

  lemma DecideUnfolds(s: State, d: Decision, append: Fault, fault: Fault)
    requires d in s.deciding && d.id in s.runs
    ensures !Decidable(s, d) ==> DoDecide(s, d, append, fault) == s.(deciding := s.deciding - {d})
    ensures Decidable(s, d) && append != Fine ==> DoDecide(s, d, append, fault) == Announced(s, d, append)
    ensures Decidable(s, d) && append == Fine && fault == Refused ==>
              DoDecide(s, d, append, fault) ==
              if d.approve then Announced(s, d, Fine).(active := s.active[d.id := false], clean := false) else Announced(s, d, Fine).(clean := false)
  {
    hide HashOfRequest, DecidedRun;
  }

  lemma DecideFailsKeeps(s: State, d: Decision, append: Fault, fault: Fault)
    requires Inv(s) && s.booted && d in s.deciding && d.id in s.runs
    requires !Decidable(s, d) || append != Fine || fault == Refused
    ensures Inv(DoDecide(s, d, append, fault))
  {
    hide Inv, Announced, DoDecide;
    DecideUnfolds(s, d, append, fault);
    AnnouncingKeeps(s, d, append);
    var told := Announced(s, d, append);
    if Decidable(s, d) && append == Fine {
      if d.approve {
        RegisteringKeeps(told, d.id);
      } else {
        AppendKeeps(told, told.(clean := false), d.id);
      }
    }
  }

  lemma DecideLandsShape(s: State, d: Decision, fault: Fault)
    requires Decidable(s, d) && fault != Refused
    ensures var s' := DoDecide(s, d, Fine, fault);
            && s'.booted == s.booted && s'.deciding <= s.deciding && (s'.clean ==> s.clean && fault == Fine)
            && s'.active == (if d.approve then s.active[d.id := false] else s.active)
            && s'.tasks == (if d.approve && fault == Fine then s.tasks[d.id := Start] else s.tasks)
            && s'.runs == s.runs[d.id := DecidedRun(s.runs[d.id], d)]
            && s'.ledger == s.ledger + [DecisionEvent(s.runs[d.id], d)] && s'.nextId == s.nextId
            && s'.asking == s.asking && s'.deciding == s.deciding - {d} && s'.publishing == s.publishing && s'.clean == (s.clean && fault == Fine)
  {
    hide HashOfRequest, DecidedRun;
  }

  lemma DecideMoves(s: State, d: Decision, fault: Fault)
    requires Inv(s) && Decidable(s, d) && fault != Refused
    ensures OneRunMoves(s, DoDecide(s, d, Fine, fault), d.id)
    ensures d.approve ==> TaskSound(DoDecide(s, d, Fine, fault).ledger, DecidedRun(s.runs[d.id], d), Start)
  {
    RunHasItsId(s, d.id);
    assert RequestKnown(s.ledger, s.runs[d.id]) by { assert ChecksSound(s); }
    DecisionIsSound(s.runs[d.id], s.ledger, d);
    DecideLandsShape(s, d, fault);
    hide Inv, RunSound, Custody, SameRequest, HashOfRequest, TaskSound, DecidedRun, DoDecide;
  }

  lemma DecideLandsKeeps(s: State, d: Decision, fault: Fault)
    requires Inv(s) && s.booted && Decidable(s, d) && fault != Refused
    ensures Inv(DoDecide(s, d, Fine, fault))
  {
    DecideLandsShape(s, d, fault);
    DecideMoves(s, d, fault);
    PendingHasNoTask(s, d.id);
    SlotsBound(s);
    if d.approve {
      SlotsAfter(s.active, d.id);
    }
    hide Inv, DoDecide, OneRunMoves, TaskSound, TasksSound;
    ChangeKeeps(s, DoDecide(s, d, Fine, fault), d.id);
  }

  lemma DecideKeeps(s: State, d: Decision, append: Fault, fault: Fault)
    requires Inv(s) && s.booted
    ensures Inv(DoDecide(s, d, append, fault))
  {
    hide Inv;
    if d in s.deciding && d.id in s.runs {
      hide DoDecide, Decidable;
      if !Decidable(s, d) || append != Fine || fault == Refused {
        DecideFailsKeeps(s, d, append, fault);
      } else {
        DecideLandsKeeps(s, d, fault);
      }
    }
  }

  lemma SlotsBound(s: State)
    requires Inv(s)
    ensures |s.active| <= 2
  {
  }

  lemma CancellingIsSound(run: Run, ledger: seq<Event>)
    requires RunSound(run.id, run) && Custody(ledger, run) && (run.status == Pending || run.status == Running)
    ensures RunSound(run.id, WithStatus(run, Cancelled)) && Custody(ledger, WithStatus(run, Cancelled)) && SameRequest(run, WithStatus(run, Cancelled))
    ensures forall pc :: TaskSound(ledger, run, pc) ==> TaskSound(ledger, WithStatus(run, Cancelled), pc)
  {
    StoppingKeepsCustody(ledger, run, Cancelled);
    hide SameRequest, Custody, StepSound, StepKnown;
    forall pc | TaskSound(ledger, run, pc) ensures TaskSound(ledger, WithStatus(run, Cancelled), pc) {
      SameStepsSameTask(ledger, run, WithStatus(run, Cancelled), pc);
    }
  }

  lemma SameStepsSameTask(ledger: seq<Event>, run: Run, run': Run, pc: Pc)
    requires run'.steps == run.steps && run'.id == run.id && PcSound(ledger, run, pc)
    ensures PcSound(ledger, run', pc)
  {
    hide StepKnown;
    assert forall n: nat :: Told(ledger, run, n) ==> Told(ledger, run', n);
    hide Told, QueuedFrom;
  }

  lemma AbortingKeepsSlots(active: map<Id, bool>, id: Id)
    requires id in active
    ensures |active[id := true]| == |active| && active[id := true].Keys == active.Keys
  {
    assert active[id := true].Keys == active.Keys;
    assert |active| == |active.Keys| && |active[id := true]| == |active[id := true].Keys|;
  }

  lemma AbortKeeps(s: State, id: Id)
    requires Inv(s)
    ensures Inv(DoAbort(s, id))
  {
    if id in s.active {
      AbortingKeepsSlots(s.active, id);
      var s' := DoAbort(s, id);
      TasksGrow(s, s');
      assert s.active != map[];
    }
    hide RunSound, Custody, TaskSound, RequestKnown;
  }

  lemma CancelShape(s: State, id: Id, fault: Fault)
    requires id in s.runs && (s.runs[id].status == Pending || s.runs[id].status == Running)
    ensures DoCancel(s, id, fault) ==
            s.(runs := if fault == Refused then s.runs else s.runs[id := WithStatus(s.runs[id], Cancelled)],
               active := if id in s.active then s.active[id := true] else s.active,
               clean := s.clean && fault == Fine)
  {
    hide WithStatus;
  }

  lemma CancelMoves(s: State, id: Id, fault: Fault)
    requires Inv(s) && id in s.runs && (s.runs[id].status == Pending || s.runs[id].status == Running) && fault != Refused
    ensures OneRunMoves(s, DoCancel(s, id, fault), id)
    ensures id in s.tasks ==> TaskSound(s.ledger, WithStatus(s.runs[id], Cancelled), s.tasks[id])
  {
    hide Inv, RunSound, Custody, SameRequest, TaskSound, DoCancel, WithStatus;
    InvHasTasks(s, id);
    CancellingIsSound(s.runs[id], s.ledger);
    CancelShape(s, id, fault);
  }

  lemma InvHasTasks(s: State, id: Id)
    requires Inv(s) && id in s.runs
    ensures RunSound(id, s.runs[id]) && s.runs[id].id == id && Custody(s.ledger, s.runs[id])
    ensures id in s.tasks ==> TaskSound(s.ledger, s.runs[id], s.tasks[id])
  {
    RunHasItsId(s, id);
    hide RunSound, Custody, TaskSound, ChecksSound, SlotsSound, CleanSound;
  }

  lemma CancelKeeps(s: State, id: Id, fault: Fault)
    requires Inv(s) && s.booted
    ensures Inv(DoCancel(s, id, fault))
  {
    if id in s.runs && (s.runs[id].status == Pending || s.runs[id].status == Running) {
      if id in s.active {
        AbortingKeepsSlots(s.active, id);
      }
      if fault == Refused {
        AbortKeeps(s, id);
        AppendKeeps(DoAbort(s, id), DoCancel(s, id, fault), id);
      } else {
        CancelMoves(s, id, fault);
        SlotsBound(s);
        assert id in s.tasks ==> id in s.active by { assert TasksSound(s); }
        hide Inv, OneRunMoves, TaskSound;
        ChangeKeeps(s, DoCancel(s, id, fault), id);
      }
    }
  }

  lemma PublishingKeepsSteps(run: Run, human: string)
    ensures PublishedRun(run, human).steps == run.steps && LastFiles(PublishedRun(run, human)) == LastFiles(run)
  {
    hide PlaceAll;
  }

  lemma PublishedStaysSound(run: Run, human: string)
    requires RunSound(run.id, run) && run.status == Succeeded
    ensures RunSound(run.id, PublishedRun(run, human))
  {
    PublishingKeepsSteps(run, human);
    hide StepSound, Shape, LastFiles, PlaceAll;
  }

  lemma PublishedRunIsSound(run: Run, human: string)
    requires RunSound(run.id, run) && run.status == Succeeded
    ensures RunSound(run.id, PublishedRun(run, human)) && SameRequest(run, PublishedRun(run, human))
    ensures LastFiles(PublishedRun(run, human)) == LastFiles(run)
  {
    PublishingKeepsSteps(run, human);
    PublishedStaysSound(run, human);
    hide RunSound, LastFiles, PlaceAll;
    SameAssignmentsSameHash(run, PublishedRun(run, human));
    hide HashOfRequest;
  }

  lemma PublishedStepsAreTold(ledger: seq<Event>, run: Run, human: string)
    requires Told(ledger, run, |run.steps|)
    ensures Told(ledger, PublishedRun(run, human), |PublishedRun(run, human).steps|)
  {
    hide StepKnown, LastFiles, PlaceAll;
  }

  lemma CustodyOfPublished(ledger: seq<Event>, run: Run, human: string)
    requires LastFiles(run) != [] && Lands(LastFiles(run)) && LastFiles(PublishedRun(run, human)) == LastFiles(run)
    requires Chain(ledger, PublishedRun(run, human)) && Told(ledger, PublishedRun(run, human), |PublishedRun(run, human).steps|)
    requires Published(run.id, FilesHash(LastFiles(run)), human) in ledger
    ensures Custody(ledger, PublishedRun(run, human))
  {
    hide Chain, Told, LastFiles, PlaceAll;
  }

  lemma SucceededIsInCustody(ledger: seq<Event>, run: Run)
    requires Custody(ledger, run) && run.status == Succeeded
    ensures Chain(ledger, run) && Told(ledger, run, |run.steps|)
  {
    hide Chain, Told, LastFiles, PlaceAll;
  }

  lemma PublishingIsSound(run: Run, ledger: seq<Event>, human: string)
    requires RunSound(run.id, run) && Custody(ledger, run) && run.status == Succeeded && LastFiles(run) != [] && Lands(LastFiles(run))
    ensures var event := Published(run.id, FilesHash(LastFiles(run)), human);
            RunSound(run.id, PublishedRun(run, human)) && Custody(ledger + [event], PublishedRun(run, human)) && SameRequest(run, PublishedRun(run, human))
  {
    var event := Published(run.id, FilesHash(LastFiles(run)), human);
    assert event in ledger + [event] && PublishedRun(run, human).approver == run.approver;
    hide *;
    PublishedRunIsSound(run, human);
    GrowthKeeps(ledger, ledger + [event], run);
    SucceededIsInCustody(ledger + [event], run);
    SameChain(ledger + [event], run, PublishedRun(run, human));
    PublishedStepsAreTold(ledger + [event], run, human);
    CustodyOfPublished(ledger + [event], run, human);
  }

  function PublishedRun(run: Run, human: string): Run {
    run.(publication := Some(Publication(FilesHash(LastFiles(run)), human, Landed(LastFiles(run)))))
  }

  lemma SucceededHasLateTask(s: State, id: Id)
    requires TasksSound(s) && id in s.tasks && id in s.runs && s.runs[id].status == Succeeded
    ensures !Early(s.tasks[id]) && id in s.active
  {
  }

  predicate Publishable(s: State, d: Decision) {
    && d in s.publishing && d.id in s.runs && s.runs[d.id].status == Succeeded && s.runs[d.id].publication == None
    && Valid(LastFiles(s.runs[d.id])) && LastFiles(s.runs[d.id]) != [] && Lands(LastFiles(s.runs[d.id]))
  }

  lemma PublishCases(s: State, d: Decision, append: Fault, fault: Fault)
    requires d in s.publishing && d.id in s.runs
    ensures var left := s.(publishing := s.publishing - {d});
            var told := AppendEvent(left, Published(d.id, FilesHash(LastFiles(s.runs[d.id])), d.actor.human), append);
            DoPublish(s, d, append, fault) ==
            if !Publishable(s, d) then left else if append != Fine then told else Change(told, d.id, PublishedRun(s.runs[d.id], d.actor.human), fault)
  {
    hide Valid, LastFiles, PlaceAll, AppendEvent, Change;
  }

  lemma PublishUnfolds(s: State, d: Decision, append: Fault, fault: Fault)
    requires d in s.publishing && d.id in s.runs
    ensures var s' := DoPublish(s, d, append, fault);
            && s'.booted == s.booted && s'.deciding == s.deciding && s'.tasks == s.tasks && s'.active == s.active
            && s'.nextId == s.nextId && (s'.clean ==> s.clean)
            && if Publishable(s, d) && append == Fine && fault != Refused
               then s'.runs == s.runs[d.id := PublishedRun(s.runs[d.id], d.actor.human)]
                    && s'.ledger == s.ledger + [Published(d.id, FilesHash(LastFiles(s.runs[d.id])), d.actor.human)]
               else s'.runs == s.runs && s.ledger <= s'.ledger
  {
    PublishCases(s, d, append, fault);
    hide Valid, LastFiles, PlaceAll, DoPublish, Publishable, PublishedRun;
  }

  lemma ReplacedRunMoves(s: State, s': State, id: Id, run': Run)
    requires id in s.runs && s'.runs == s.runs[id := run'] && s.ledger <= s'.ledger && s'.nextId == s.nextId
    requires SameRequest(s.runs[id], run') && RunSound(id, run') && Custody(s'.ledger, run')
    ensures OneRunMoves(s, s', id)
  {
    hide SameRequest, RunSound, Custody;
  }

  lemma PublishMoves(s: State, d: Decision, fault: Fault)
    requires Inv(s) && Publishable(s, d) && fault != Refused
    ensures OneRunMoves(s, DoPublish(s, d, Fine, fault), d.id)
    ensures DoPublish(s, d, Fine, fault).runs[d.id].status == Succeeded
  {
    var run := s.runs[d.id];
    PublishUnfolds(s, d, Fine, fault);
    assert LastFiles(run) != [] && Lands(LastFiles(run)) && run.status == Succeeded && PublishedRun(run, d.actor.human).status == Succeeded;
    RunHasItsId(s, d.id);
    hide *;
    PublishingIsSound(run, s.ledger, d.actor.human);
    ReplacedRunMoves(s, DoPublish(s, d, Fine, fault), d.id, PublishedRun(run, d.actor.human));
  }

  lemma PublishLandsKeeps(s: State, d: Decision, fault: Fault)
    requires Inv(s) && s.booted && Publishable(s, d) && fault != Refused
    ensures Inv(DoPublish(s, d, Fine, fault))
  {
    var s' := DoPublish(s, d, Fine, fault);
    PublishUnfolds(s, d, Fine, fault);
    hide Inv, DoPublish, OneRunMoves, TaskSound, PublishedRun, LastFiles, PlaceAll, Valid;
    PublishMoves(s, d, fault);
    SlotsBound(s);
    LateTaskStaysSound(s, s', d.id);
    ChangeKeeps(s, s', d.id);
  }

  lemma PublishKeeps(s: State, d: Decision, append: Fault, fault: Fault)
    requires Inv(s) && s.booted
    ensures Inv(DoPublish(s, d, append, fault))
  {
    hide Inv;
    if d in s.publishing && d.id in s.runs {
      PublishUnfolds(s, d, append, fault);
      hide DoPublish, Publishable;
      if Publishable(s, d) && append == Fine && fault != Refused {
        PublishLandsKeeps(s, d, fault);
      } else {
        AppendKeeps(s, DoPublish(s, d, append, fault), d.id);
      }
    }
  }

  lemma LateTaskStaysSound(s: State, s': State, id: Id)
    requires Inv(s) && id in s.runs && s.runs[id].status == Succeeded && id in s'.runs && s'.runs[id].status == Succeeded
    ensures id in s.tasks ==> id in s.active && TaskSound(s'.ledger, s'.runs[id], s.tasks[id])
  {
    if id in s.tasks {
      SucceededHasLateTask(s, id);
    }
    hide RunsSound, TasksSound, ChecksSound, SlotsSound, CleanSound;
  }

  // ------------------------------------------------------------------------ crash and restart

  lemma CrashKeeps(s: State)
    requires Inv(s)
    ensures Inv(DoCrash(s))
  {
    hide RunSound, Custody, TaskSound, RequestKnown;
  }

  lemma InterruptingIsSound(id: Id, run: Run, ledger: seq<Event>)
    requires RunSound(id, run) && Custody(ledger, run) && run.status == Running
    ensures RunSound(id, WithStatus(run, Interrupted)) && Custody(ledger, WithStatus(run, Interrupted))
  {
    StoppingKeepsCustody(ledger, run, Interrupted);
    hide SameRequest, Custody, StepSound;
  }

  lemma BootKeeps(s: State, fault: Fault)
    requires Inv(s)
    ensures Inv(DoBoot(s, fault))
  {
    var s' := DoBoot(s, fault);
    hide RunSound, Custody, TaskSound, RequestKnown, WithStatus;
    forall id | id in s'.runs ensures RunSound(id, s'.runs[id]) && Custody(s'.ledger, s'.runs[id]) {
      if s.runs[id].status == Running {
        InterruptingIsSound(id, s.runs[id], s.ledger);
      }
    }
    InterruptedAreNotRunning(s.runs);
  }

  lemma InterruptedAreNotRunning(runs: map<Id, Run>)
    ensures forall id :: id in runs ==> InterruptAll(runs)[id].status != Running
  {
  }

  /** Every move keeps the invariant, whatever the storage does. */
  lemma NextKeeps(s: State, move: Move)
    requires Inv(s)
    ensures Inv(Next(s, move))
  {
    hide *;
    if s.booted || move.Boot? || move.Crash? {
      NextUnfolds(s, move);
      match move
      case Ask(draft, fault) => AskKeeps(s, draft, fault);
      case TellAsk(id, fault) => TellAskKeeps(s, id, fault);
      case CheckDecision(d, allowed) => ChecksKeep(s, d, allowed);
      case Decide(d, append, fault) => DecideKeeps(s, d, append, fault);
      case Cancel(id, fault) => CancelKeeps(s, id, fault);
      case Abort(id) => AbortKeeps(s, id);
      case Work(id, luck) => WorkKeeps(s, id, luck);
      case CheckPublication(d, allowed) => ChecksKeep(s, d, allowed);
      case Publish(d, append, fault) => PublishKeeps(s, d, append, fault);
      case Crash => CrashKeeps(s);
      case Boot(fault) => BootKeeps(s, fault);
    } else {
      NextStays(s, move);
    }
  }

  lemma NextStays(s: State, move: Move)
    requires !s.booted && !move.Boot? && !move.Crash?
    ensures Next(s, move) == s
  {
  }

  lemma NextUnfolds(s: State, move: Move)
    requires s.booted || move.Boot? || move.Crash?
    ensures Next(s, move) ==
            match move
            case Ask(draft, fault) => DoAsk(s, draft, fault)
            case TellAsk(id, fault) => DoTellAsk(s, id, fault)
            case CheckDecision(d, allowed) => DoCheckDecision(s, d, allowed)
            case Decide(d, append, fault) => DoDecide(s, d, append, fault)
            case Cancel(id, fault) => DoCancel(s, id, fault)
            case Abort(id) => DoAbort(s, id)
            case Work(id, luck) => DoWork(s, id, luck)
            case CheckPublication(d, allowed) => DoCheckPublication(s, d, allowed)
            case Publish(d, append, fault) => DoPublish(s, d, append, fault)
            case Crash => DoCrash(s)
            case Boot(fault) => DoBoot(s, fault)
  {
    hide DoAsk, DoTellAsk, DoCheckDecision, DoDecide, DoCancel, DoAbort, DoWork, DoCheckPublication, DoPublish, DoCrash, DoBoot;
  }

  lemma {:induction false} AfterKeeps(s: State, moves: seq<Move>)
    requires Inv(s)
    ensures Inv(After(s, moves))
    decreases |moves|
  {
    hide Inv, Next;
    if moves != [] {
      AfterKeeps(s, moves[..|moves| - 1]);
      NextKeeps(After(s, moves[..|moves| - 1]), moves[|moves| - 1]);
    }
  }
}
