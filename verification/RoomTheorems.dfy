/** What holds of room runs in every reachable state. */
module RoomTheorems {
  import opened Options
  import opened RoomFiles
  import opened PublicationTree
  import opened RoomMachine
  import opened RoomSafety
  import opened RoomRuns

  // ------------------------------------------------------------------ what one move does to a run

  /** What happens to a run by any move that is not a step of its own worker. */
  predicate OutsideRun(run: Run, run': Run) {
    || run' == run
    || (run.status == Pending && run' == run.(approver := run'.approver, status := run'.status) && (run'.status == Running || run'.status == Rejected))
    || ((run.status == Pending || run.status == Running) && run' == WithStatus(run, Cancelled))
    || (run.status == Succeeded && run' == run.(publication := run'.publication))
    || (run.status == Running && run' == WithStatus(run, Interrupted))
  }

  /** A worker starts for a pending run only, and a controller is lost in a crash only. */
  ghost predicate Outside(s: State, s': State, move: Move, id: Id)
    requires id in s.runs
  {
    && id in s'.runs && OutsideRun(s.runs[id], s'.runs[id])
    && (id in s'.tasks ==> (id in s.tasks && s'.tasks[id] == s.tasks[id]) || (s.runs[id].status == Pending && s'.runs[id].status == Running && s'.tasks[id] == Start))
    && (id in s.active && !move.Crash? ==> id in s'.active)
    && (Aborted(s, id) && id in s'.tasks && s.runs[id].status != Pending ==> Aborted(s', id))
    && (s'.clean ==> s.clean)
    && (s'.runs[id].status == Running && s.runs[id].status != Running ==> |s.active| < 2)
    && (s'.runs[id].approver == s.runs[id].approver || ApprovedBy(s, s', move, id))
  }

  /** An approver is the actor of a decision that has passed its checks. */
  predicate ApprovedBy(s: State, s': State, move: Move, id: Id)
    requires id in s'.runs
  {
    move.Decide? && move.decision in s.deciding && move.decision.id == id && s'.runs[id].approver == Some(move.decision.actor.human)
  }

  lemma AskIsOutside(s: State, draft: Draft, fault: Fault, id: Id)
    requires id in s.runs && id < s.nextId
    ensures Outside(s, DoAsk(s, draft, fault), Ask(draft, fault), id)
  {
    hide Fresh;
  }

  lemma ToldIsOutside(s: State, other: Id, fault: Fault, id: Id)
    requires id in s.runs
    ensures Outside(s, DoTellAsk(s, other, fault), TellAsk(other, fault), id)
  {
    hide HashOfRequest;
  }

  lemma CheckedIsOutside(s: State, d: Decision, allowed: bool, id: Id)
    requires id in s.runs
    ensures Outside(s, DoCheckDecision(s, d, allowed), CheckDecision(d, allowed), id)
    ensures Outside(s, DoCheckPublication(s, d, allowed), CheckPublication(d, allowed), id)
  {
    hide Verified;
  }

  /** A decision that does not land leaves the runs and workers alone, but may leave a controller behind. */
  lemma UndecidedIsOutside(s: State, s': State, d: Decision, append: Fault, fault: Fault, id: Id)
    requires id in s.runs && s'.runs == s.runs && s'.tasks == s.tasks && (s'.clean ==> s.clean)
    requires s'.active == s.active || (d.id in s.runs && s.runs[d.id].status == Pending && s'.active == s.active[d.id := false])
    ensures Outside(s, s', Decide(d, append, fault), id)
  {
  }

  lemma LandedIsOutside(s: State, s': State, d: Decision, append: Fault, fault: Fault, id: Id)
    requires id in s.runs && Decidable(s, d) && (s'.clean ==> s.clean)
    requires s'.runs == s.runs[d.id := DecidedRun(s.runs[d.id], d)]
    requires s'.active == (if d.approve then s.active[d.id := false] else s.active)
    requires s'.tasks == s.tasks || (d.approve && s'.tasks == s.tasks[d.id := Start])
    ensures Outside(s, s', Decide(d, append, fault), id)
  {
  }

  lemma DecidedIsOutside(s: State, d: Decision, append: Fault, fault: Fault, id: Id)
    requires id in s.runs
    ensures Outside(s, DoDecide(s, d, append, fault), Decide(d, append, fault), id)
  {
    if d in s.deciding && d.id in s.runs {
      var s' := DoDecide(s, d, append, fault);
      DecideUnfolds(s, d, append, fault);
      if Decidable(s, d) && append == Fine && fault != Refused {
        DecideLandsShape(s, d, fault);
        hide DoDecide, Decidable, DecisionEvent, Outside, DecidedRun;
        LandedIsOutside(s, s', d, append, fault, id);
      } else {
        hide DoDecide, DecisionEvent, Outside;
        UndecidedIsOutside(s, s', d, append, fault, id);
      }
    } else {
      StandingIsOutside(s, Decide(d, append, fault), id);
    }
  }

  lemma CancelledIsOutside(s: State, other: Id, fault: Fault, id: Id)
    requires id in s.runs
    ensures Outside(s, DoCancel(s, other, fault), Cancel(other, fault), id)
  {
    if other in s.runs && (s.runs[other].status == Pending || s.runs[other].status == Running) {
      CancelShape(s, other, fault);
      hide DoCancel;
    }
  }

  lemma AbortedIsOutside(s: State, other: Id, id: Id)
    requires id in s.runs
    ensures Outside(s, DoAbort(s, other), Abort(other), id)
  {
  }

  lemma PublishedIsOutside(s: State, d: Decision, append: Fault, fault: Fault, id: Id)
    requires id in s.runs
    ensures Outside(s, DoPublish(s, d, append, fault), Publish(d, append, fault), id)
  {
    if d in s.publishing && d.id in s.runs {
      PublishUnfolds(s, d, append, fault);
      hide DoPublish, Valid, LastFiles, PlaceAll;
    }
  }

  lemma OtherWorkIsOutside(s: State, other: Id, luck: Luck, id: Id)
    requires id in s.runs && other != id
    ensures Outside(s, DoWork(s, other, luck), Work(other, luck), id)
  {
    hide Advance;
  }

  lemma RestartIsOutside(s: State, fault: Fault, id: Id)
    requires id in s.runs
    ensures Outside(s, DoCrash(s), Crash, id) && Outside(s, DoBoot(s, fault), Boot(fault), id)
  {
  }

  /** Every move but a step of the run's own worker is an outside one. */
  lemma MovesAreOutside(s: State, move: Move, id: Id)
    requires Inv(s) && id in s.runs && !(move.Work? && move.id == id)
    ensures Outside(s, Next(s, move), move, id)
  {
    assert id < s.nextId by { assert ChecksSound(s); }
    hide *;
    if s.booted || move.Boot? || move.Crash? {
      NextUnfolds(s, move);
      match move
      case Ask(draft, fault) => AskIsOutside(s, draft, fault, id);
      case TellAsk(other, fault) => ToldIsOutside(s, other, fault, id);
      case CheckDecision(d, allowed) => CheckedIsOutside(s, d, allowed, id);
      case Decide(d, append, fault) => DecidedIsOutside(s, d, append, fault, id);
      case Cancel(other, fault) => CancelledIsOutside(s, other, fault, id);
      case Abort(other) => AbortedIsOutside(s, other, id);
      case Work(other, luck) => OtherWorkIsOutside(s, other, luck, id);
      case CheckPublication(d, allowed) => CheckedIsOutside(s, d, allowed, id);
      case Publish(d, append, fault) => PublishedIsOutside(s, d, append, fault, id);
      case Crash => RestartIsOutside(s, Fine, id);
      case Boot(fault) => RestartIsOutside(s, fault, id);
    } else {
      NextStays(s, move);
      StandingIsOutside(s, move, id);
    }
  }

  lemma StandingIsOutside(s: State, move: Move, id: Id)
    requires id in s.runs
    ensures Outside(s, s, move, id)
  {
  }

  /** The run's own worker moves, if the move is its step and it has one. */
  predicate Works(s: State, move: Move, id: Id) {
    s.booted && move.Work? && move.id == id && id in s.tasks && id in s.runs
  }

  lemma WorkOrOutside(s: State, move: Move, id: Id)
    requires Inv(s) && id in s.runs
    ensures Works(s, move, id) || Outside(s, Next(s, move), move, id)
    ensures Works(s, move, id) ==> Next(s, move) == DoWork(s, id, move.luck) && TaskSound(s.ledger, s.runs[id], s.tasks[id])
  {
    if Works(s, move, id) {
      assert TaskSound(s.ledger, s.runs[id], s.tasks[id]) by { assert TasksSound(s); }
      hide Inv, DoWork;
    } else if move.Work? && move.id == id {
      hide Inv;
      StandingIsOutside(s, move, id);
    } else {
      hide *;
      MovesAreOutside(s, move, id);
    }
  }

  lemma OutsideKeepsRequest(run: Run, run': Run)
    requires OutsideRun(run, run')
    ensures SameRequest(run, run')
  {
    SameAssignmentsSameHash(run, run');
    hide HashOfRequest;
  }

  /** The run after a move, with its request as it was. */
  lemma NextKeepsRequest(s: State, move: Move, id: Id)
    requires Inv(s) && id in s.runs
    ensures id in Next(s, move).runs && SameRequest(s.runs[id], Next(s, move).runs[id])
  {
    WorkOrOutside(s, move, id);
    if Works(s, move, id) {
      WorkMovesOneRun(s, id, move.luck);
      hide Inv, SameRequest, Advance, ProgressSound, Next, TaskSound;
    } else {
      hide Inv, SameRequest, Next, OutsideRun;
      OutsideKeepsRequest(s.runs[id], Next(s, move).runs[id]);
    }
  }

  /** No sequence of moves changes anything that a request hash covers. */
  lemma {:induction false} RequestHashNeverChanges(s: State, moves: seq<Move>, id: Id)
    requires Inv(s) && id in s.runs
    ensures id in After(s, moves).runs
    ensures HashOfRequest(After(s, moves).runs[id]) == HashOfRequest(s.runs[id]) && After(s, moves).runs[id].requester == s.runs[id].requester
    decreases |moves|
  {
    hide Inv, Next, HashOfRequest;
    if moves != [] {
      var init, last := moves[..|moves| - 1], moves[|moves| - 1];
      RequestHashNeverChanges(s, init, id);
      AfterKeeps(s, init);
      NextKeepsRequest(After(s, init), last, id);
    }
  }

  // ------------------------------------------------------------------------------- custody

  lemma SoundRunIsVerified(ledger: seq<Event>, run: Run)
    requires Custody(ledger, run) && (run.status == Succeeded || run.publication.Some?)
    ensures Verified(ledger, run, true, true) && Chain(ledger, run)
  {
    var i: nat, j: nat :| ApprovedAfterRequest(ledger, run, i, j);
    assert ledger[i] in ledger && ledger[j] in ledger;
    hide HashOfRequest, LastFiles, PlaceAll, Valid, StepKnown;
  }

  /**
    Custody: in every reachable state a run that succeeded, or whose files were published,
    was approved by a human for exactly the hash that was requested, after it was requested;
    all its steps succeeded, and each stored output matches its hash and its audit event. So
    without tampering the integrity check before publication and download never fails.
   */
  lemma {:induction false} SucceededRunsAreInCustody(moves: seq<Move>, id: Id)
    requires id in After(EMPTY, moves).runs
    ensures var s := After(EMPTY, moves);
            var run := s.runs[id];
            run.status == Succeeded || run.publication.Some? ==>
              && Chain(s.ledger, run) && AllDone(run.steps)
              && Verified(s.ledger, run, true, true)
  {
    EmptyIsSound();
    AfterKeeps(EMPTY, moves);
    var s := After(EMPTY, moves);
    RunHasItsId(s, id);
    hide After, HashOfRequest;
    if s.runs[id].status == Succeeded || s.runs[id].publication.Some? {
      SoundRunIsVerified(s.ledger, s.runs[id]);
    }
    hide Inv, Verified, Chain, Custody;
  }

  lemma LastFilesAreValid(id: Id, run: Run)
    requires RunSound(id, run) && AllDone(run.steps)
    ensures Valid(LastFiles(run))
  {
    assert StepSound(run.steps[|run.steps| - 1]);
    hide Valid;
  }

  /** What was published is on disk, all of it and nothing else. */
  lemma {:induction false} PublishedIsOnDisk(ledger: seq<Event>, run: Run)
    requires Custody(ledger, run) && run.publication.Some? && Valid(LastFiles(run))
    ensures Lands(LastFiles(run)) && Holds(run.publication.value.disk, LastFiles(run))
  {
    assert OnDisk(run.publication.value, LastFiles(run));
    hide Custody, LastFiles, Holds, SafePath, Size;
    LandsIff(LastFiles(run));
  }

  lemma {:induction false} PublishedCanBeDownloaded(s: State, id: Id)
    requires Inv(s) && id in s.runs && s.runs[id].publication.Some?
    ensures Download(s, id) == Some(Packed(LastFiles(s.runs[id]))) && Valid(LastFiles(s.runs[id]))
    ensures Holds(s.runs[id].publication.value.disk, LastFiles(s.runs[id]))
  {
    RunHasItsId(s, id);
    hide HashOfRequest, Packed, Inv;
    SoundRunIsVerified(s.ledger, s.runs[id]);
    LastFilesAreValid(id, s.runs[id]);
    PublishedIsOnDisk(s.ledger, s.runs[id]);
    hide Verified, Chain, LastFiles, PlaceAll, Valid, StepSound, Told, Holds;
  }

  /**
    A download answers exactly for published runs, and with exactly the files of the last
    step, each under its own path, none lost; and those are the files in the directory that
    was published.
   */
  lemma {:induction false} DownloadReturnsThePublishedFiles(moves: seq<Move>, id: Id)
    requires id in After(EMPTY, moves).runs
    ensures var s := After(EMPTY, moves);
            var run := s.runs[id];
            && (Download(s, id).Some? <==> run.publication.Some?)
            && (run.publication.Some? ==>
                  && Download(s, id) == Some(Packed(LastFiles(run)))
                  && |Download(s, id).value| == |LastFiles(run)|
                  && (forall file :: file in LastFiles(run) ==> file.path in Download(s, id).value && Download(s, id).value[file.path] == file.content)
                  && Holds(run.publication.value.disk, LastFiles(run)))
  {
    hide *;
    EmptyIsSound();
    AfterKeeps(EMPTY, moves);
    var s := After(EMPTY, moves);
    if s.runs[id].publication.Some? {
      PublishedCanBeDownloaded(s, id);
      PackingIsLossless(LastFiles(s.runs[id]));
    } else {
      UnpublishedIsNotDownloaded(s, id);
    }
  }

  /** A worker has nothing left to change in steps that are all done. */
  lemma {:induction false} AdvanceKeepsDoneSteps(run: Run, ledger: seq<Event>, pc: Pc, aborted: bool, luck: Luck)
    requires RunSound(run.id, run) && TaskSound(ledger, run, pc) && AllDone(run.steps)
    ensures Advance(run, ledger, pc, aborted, luck).run.steps == run.steps
  {
    BrokenStepsAreSound(run);
    assert run.steps[0].status == Done;
    if pc.Loop? || pc.Mark? || pc.Exec? || pc.Record? {
      assert pc.i < |run.steps| ==> run.steps[pc.i].status == Done;
    }
    hide Verified, Valid, StepSound, Shape, Told, BrokenSteps;
  }

  lemma {:induction false} NextKeepsDoneSteps(s: State, move: Move, id: Id)
    requires Inv(s) && id in s.runs && AllDone(s.runs[id].steps)
    ensures id in Next(s, move).runs && Next(s, move).runs[id].steps == s.runs[id].steps
  {
    hide Inv, Next, TaskSound, Advance, RunSound, AllDone, Custody, Outside;
    WorkOrOutside(s, move, id);
    if Works(s, move, id) {
      RunHasItsSoundSteps(s, id);
      AdvanceKeepsDoneSteps(s.runs[id], s.ledger, s.tasks[id], Aborted(s, id), move.luck);
    } else {
      OutsideKeepsSteps(s, Next(s, move), move, id);
    }
  }

  lemma RunHasItsSoundSteps(s: State, id: Id)
    requires Inv(s) && id in s.runs
    ensures RunSound(s.runs[id].id, s.runs[id])
  {
    RunHasItsId(s, id);
    hide RunSound, Custody;
  }

  lemma OutsideKeepsSteps(s: State, s': State, move: Move, id: Id)
    requires id in s.runs && Outside(s, s', move, id)
    ensures id in s'.runs && s'.runs[id].steps == s.runs[id].steps
  {
  }

  lemma {:induction false} DoneStepsStay(s: State, moves: seq<Move>, id: Id)
    requires Inv(s) && id in s.runs && AllDone(s.runs[id].steps)
    ensures id in After(s, moves).runs && After(s, moves).runs[id].steps == s.runs[id].steps
    decreases |moves|
  {
    hide Inv, Next, AllDone;
    if moves != [] {
      var init, last := moves[..|moves| - 1], moves[|moves| - 1];
      DoneStepsStay(s, init, id);
      AfterKeeps(s, init);
      NextKeepsDoneSteps(After(s, init), last, id);
    }
  }

  lemma {:induction false} PublishedHasLanded(s: State, id: Id)
    requires Inv(s) && id in s.runs && s.runs[id].publication.Some?
    ensures Lands(LastFiles(s.runs[id]))
  {
    RunHasItsId(s, id);
    hide Inv, RunSound, Chain, Told, LastFiles, PlaceAll;
  }

  lemma UnpublishedIsNotDownloaded(s: State, id: Id)
    requires id in s.runs && s.runs[id].publication == None
    ensures Download(s, id) == None
  {
    hide Verified, LastFiles, PlaceAll, Valid, Packed;
  }

  lemma SameStepsSameFiles(run: Run, run': Run)
    requires run.steps == run'.steps
    ensures LastFiles(run) == LastFiles(run')
  {
  }

  lemma {:induction false} NestedDoesNotLand(s: State, id: Id)
    requires Inv(s) && id in s.runs && AllDone(s.runs[id].steps) && !NoneInside(LastFiles(s.runs[id]))
    ensures !Lands(LastFiles(s.runs[id]))
  {
    RunHasItsId(s, id);
    LastFilesAreValid(id, s.runs[id]);
    hide Inv, RunSound, Custody, LastFiles, PlaceAll, AllDone, NoneInside, SafePath, Size, Holds;
    LandsIff(LastFiles(s.runs[id]));
  }

  /**
    A run whose work is done but whose last bundle has one path inside another is never
    published, whoever tries and however often, and so never downloaded.
   */
  lemma {:induction false} NestedBundleIsNeverPublished(s: State, moves: seq<Move>, id: Id)
    requires Inv(s) && id in s.runs && AllDone(s.runs[id].steps) && !NoneInside(LastFiles(s.runs[id]))
    ensures var t := After(s, moves);
            id in t.runs && t.runs[id].steps == s.runs[id].steps && t.runs[id].publication == None && Download(t, id) == None
  {
    hide *;
    NestedDoesNotLand(s, id);
    DoneStepsStay(s, moves, id);
    AfterKeeps(s, moves);
    var t := After(s, moves);
    SameStepsSameFiles(s.runs[id], t.runs[id]);
    if t.runs[id].publication.Some? {
      PublishedHasLanded(t, id);
    }
    UnpublishedIsNotDownloaded(t, id);
  }

  // ------------------------------------------------------------------------------- statuses

  predicate Dead(run: Run) {
    run.status == Cancelled || run.status == Rejected || run.status == Failed || run.status == Interrupted
  }

  predicate Lawful(a: Status, b: Status) {
    || a == b
    || (a == Pending && (b == Running || b == Rejected || b == Cancelled))
    || (a == Running && (b == Succeeded || b == Failed || b == Cancelled || b == Interrupted))
  }

  /** With failing storage a worker may also take back its own success, or name a cancellation a failure. */
  predicate Faulty(a: Status, b: Status) {
    (a == Succeeded && (b == Failed || b == Cancelled)) || (a == Cancelled && b == Failed)
  }

  lemma AdvanceStatuses(run: Run, ledger: seq<Event>, pc: Pc, aborted: bool, luck: Luck)
    requires TaskSound(ledger, run, pc)
    ensures var run' := Advance(run, ledger, pc, aborted, luck).run;
            && (Lawful(run.status, run'.status) || Faulty(run.status, run'.status))
            && run'.publication == run.publication
            && (run'.status == Running ==> run.status == Running)
  {
    hide Verified, Valid, BrokenSteps, Told, QueuedFrom;
  }

  /**
    Every change of a status, whatever fails: `succeeded` comes from `running`, `running`
    from `pending`, and what is dead neither runs, nor succeeds, nor is published.
   */
  lemma NextStatuses(s: State, move: Move, id: Id)
    requires Inv(s) && id in s.runs && id in Next(s, move).runs
    ensures var run, run' := s.runs[id], Next(s, move).runs[id];
            && (Lawful(run.status, run'.status) || Faulty(run.status, run'.status))
            && (Dead(run) ==> run'.publication == run.publication)
  {
    hide Inv, Advance, TaskSound, Next, Outside, Lawful, Faulty;
    WorkOrOutside(s, move, id);
    if Works(s, move, id) {
      AdvanceStatuses(s.runs[id], s.ledger, s.tasks[id], Aborted(s, id), move.luck);
    } else {
      OutsideStatuses(s, Next(s, move), move, id);
    }
  }

  lemma OutsideStatuses(s: State, s': State, move: Move, id: Id)
    requires id in s.runs && Outside(s, s', move, id)
    ensures id in s'.runs && Lawful(s.runs[id].status, s'.runs[id].status)
    ensures Dead(s.runs[id]) ==> s'.runs[id].publication == s.runs[id].publication
  {
  }

  lemma {:induction false} DeadStaysDead(s: State, moves: seq<Move>, id: Id)
    requires Inv(s) && id in s.runs && Dead(s.runs[id])
    ensures id in After(s, moves).runs && Dead(After(s, moves).runs[id]) && After(s, moves).runs[id].publication == s.runs[id].publication
    decreases |moves|
  {
    hide Inv, Next;
    if moves != [] {
      var init, last := moves[..|moves| - 1], moves[|moves| - 1];
      DeadStaysDead(s, init, id);
      AfterKeeps(s, init);
      NextKeepsRequest(After(s, init), last, id);
      NextStatuses(After(s, init), last, id);
    }
  }

  // ---------------------------------------------------------------------- while storage works

  /** A worker that has not seen a failure never takes back an outcome. */
  ghost predicate CleanTask(run: Run, pc: Pc) {
    !pc.Outer? && (pc.Catch? ==> run.status == Running || run.status == Cancelled)
  }

  ghost predicate CleanTasks(s: State) {
    s.clean ==> forall id :: id in s.tasks ==> id in s.runs && CleanTask(s.runs[id], s.tasks[id])
  }

  lemma CleanAdvance(run: Run, ledger: seq<Event>, pc: Pc, aborted: bool, luck: Luck)
    requires TaskSound(ledger, run, pc) && CleanTask(run, pc) && Advance(run, ledger, pc, aborted, luck).clean
    ensures var p := Advance(run, ledger, pc, aborted, luck);
            Lawful(run.status, p.run.status) && (p.pc.Some? ==> CleanTask(p.run, p.pc.value))
  {
    hide Verified, Valid, BrokenSteps, Told, QueuedFrom;
  }

  lemma CleanNext(s: State, move: Move)
    requires Inv(s) && CleanTasks(s)
    ensures CleanTasks(Next(s, move))
  {
    var s' := Next(s, move);
    if s'.clean {
      forall id | id in s'.tasks ensures id in s'.runs && CleanTask(s'.runs[id], s'.tasks[id]) {
        CleanNextTask(s, move, id);
      }
    }
  }

  lemma AskedRunIsPending(s: State, draft: Draft, fault: Fault, id: Id)
    requires id in DoAsk(s, draft, fault).runs && id !in s.runs
    ensures DoAsk(s, draft, fault).runs[id].status == Pending
  {
  }

  /** The move leaves controllers and workers as they are, but for the abort flags. */
  predicate KeepsSlots(s: State, s': State) {
    s'.active.Keys == s.active.Keys && s'.tasks == s.tasks
  }

  /** And no run comes or goes. */
  predicate KeepsFrame(s: State, s': State) {
    KeepsSlots(s, s') && s'.runs.Keys == s.runs.Keys
  }

  lemma AskKeepsSlots(s: State, draft: Draft, fault: Fault)
    ensures KeepsSlots(s, DoAsk(s, draft, fault))
  {
    hide Fresh;
  }

  lemma TellAskKeepsFrame(s: State, id: Id, fault: Fault)
    ensures KeepsFrame(s, DoTellAsk(s, id, fault))
  {
    hide HashOfRequest;
  }

  lemma ChecksKeepFrame(s: State, d: Decision, allowed: bool)
    ensures KeepsFrame(s, DoCheckDecision(s, d, allowed)) && KeepsFrame(s, DoCheckPublication(s, d, allowed))
  {
    hide Verified;
  }

  lemma CancelKeepsFrame(s: State, id: Id, fault: Fault)
    ensures KeepsFrame(s, DoCancel(s, id, fault)) && KeepsFrame(s, DoAbort(s, id))
  {
    if id in s.runs && (s.runs[id].status == Pending || s.runs[id].status == Running) {
      CancelShape(s, id, fault);
      hide DoCancel;
    }
  }

  lemma PublishKeepsFrame(s: State, d: Decision, append: Fault, fault: Fault)
    ensures KeepsFrame(s, DoPublish(s, d, append, fault))
  {
    if d in s.publishing && d.id in s.runs {
      PublishUnfolds(s, d, append, fault);
      hide DoPublish, LastFiles, PlaceAll, Valid;
    }
  }

  lemma BootKeepsFrame(s: State, fault: Fault)
    ensures KeepsFrame(s, DoBoot(s, fault))
  {
  }

  lemma FrameKeepsSlots(s: State, s': State)
    requires KeepsFrame(s, s')
    ensures KeepsSlots(s, s') && s'.runs.Keys == s.runs.Keys
  {
  }

  lemma StandingKeepsFrame(s: State)
    ensures KeepsFrame(s, s)
  {
  }

  /** What neither decides nor works nor crashes leaves the slots alone, and what does not ask the set of runs. */
  lemma QuietMovesKeepFrame(s: State, move: Move)
    requires !move.Decide? && !move.Work? && !move.Crash? && !move.Ask?
    ensures KeepsFrame(s, Next(s, move))
  {
    hide *;
    if s.booted || move.Boot? {
      NextUnfolds(s, move);
      match move
      case TellAsk(id, fault) => TellAskKeepsFrame(s, id, fault);
      case CheckDecision(d, allowed) => ChecksKeepFrame(s, d, allowed);
      case Cancel(id, fault) => CancelKeepsFrame(s, id, fault);
      case Abort(id) => CancelKeepsFrame(s, id, Fine);
      case CheckPublication(d, allowed) => ChecksKeepFrame(s, d, allowed);
      case Publish(d, append, fault) => PublishKeepsFrame(s, d, append, fault);
      case Boot(fault) => BootKeepsFrame(s, fault);
    } else {
      NextStays(s, move);
      StandingKeepsFrame(s);
    }
  }

  lemma QuietSlots(s: State, move: Move)
    requires !move.Decide? && !move.Work? && !move.Crash?
    ensures KeepsSlots(s, Next(s, move))
  {
    hide *;
    if move.Ask? {
      if s.booted {
        NextUnfolds(s, move);
        AskKeepsSlots(s, move.draft, move.fault);
      } else {
        NextStays(s, move);
        StandingKeepsFrame(s);
        FrameKeepsSlots(s, s);
      }
    } else {
      QuietMovesKeepFrame(s, move);
      FrameKeepsSlots(s, Next(s, move));
    }
  }

  lemma DecidingKeepsRuns(s: State, d: Decision, append: Fault, fault: Fault)
    ensures DoDecide(s, d, append, fault).runs.Keys == s.runs.Keys
  {
    if d in s.deciding && d.id in s.runs {
      DecideUnfolds(s, d, append, fault);
      if Decidable(s, d) && append == Fine && fault != Refused {
        DecideLandsShape(s, d, fault);
      }
      hide DoDecide, HashOfRequest, DecisionEvent, DecidedRun;
    }
  }

  lemma WorkingKeepsRuns(s: State, id: Id, luck: Luck)
    ensures DoWork(s, id, luck).runs.Keys == s.runs.Keys && DoCrash(s).runs == s.runs
  {
    hide Advance;
  }

  lemma KeysStay(s: State, move: Move)
    requires !move.Ask?
    ensures Next(s, move).runs.Keys == s.runs.Keys
  {
    hide *;
    if !s.booted && !move.Boot? && !move.Crash? {
      NextStays(s, move);
    } else if move.Decide? {
      NextUnfolds(s, move);
      DecidingKeepsRuns(s, move.decision, move.append, move.fault);
    } else if move.Work? {
      NextUnfolds(s, move);
      WorkingKeepsRuns(s, move.id, move.luck);
    } else if move.Crash? {
      NextUnfolds(s, move);
      WorkingKeepsRuns(s, 0, Luck(true, None, Fine));
    } else {
      QuietMovesKeepFrame(s, move);
      FrameKeepsSlots(s, Next(s, move));
    }
  }

  /** A run that is new is pending. */
  lemma NewRunsArePending(s: State, move: Move, id: Id)
    requires id in Next(s, move).runs && id !in s.runs
    ensures Next(s, move).runs[id].status == Pending
  {
    if move.Ask? {
      if s.booted {
        NextUnfolds(s, move);
        hide Next, DoAsk;
        AskedRunIsPending(s, move.draft, move.fault, id);
      }
    } else {
      KeysStay(s, move);
      hide Next;
    }
  }

  lemma NewTasksHaveRuns(s: State, move: Move, id: Id)
    requires Inv(s) && id in Next(s, move).tasks
    ensures id in s.runs && id in Next(s, move).runs && Next(s, move).runs[id].status != Interrupted
  {
    NextKeeps(s, move);
    var s' := Next(s, move);
    assert id in s'.runs && TaskSound(s'.ledger, s'.runs[id], s'.tasks[id]) by { assert TasksSound(s'); }
    if id !in s.runs {
      NewRunsArePending(s, move, id);
    }
    hide Inv, Next;
  }

  lemma OutsideIsClean(s: State, s': State, move: Move, id: Id)
    requires id in s.runs && Outside(s, s', move, id) && id in s'.tasks
    requires id in s.tasks ==> CleanTask(s.runs[id], s.tasks[id])
    requires s'.runs[id].status != Interrupted
    ensures CleanTask(s'.runs[id], s'.tasks[id])
  {
  }

  lemma CleanNextTask(s: State, move: Move, id: Id)
    requires Inv(s) && CleanTasks(s) && Next(s, move).clean && id in Next(s, move).tasks
    ensures id in Next(s, move).runs && CleanTask(Next(s, move).runs[id], Next(s, move).tasks[id])
  {
    hide Inv, Next, TaskSound, Advance, Outside, CleanTask;
    NewTasksHaveRuns(s, move, id);
    WorkOrOutside(s, move, id);
    if Works(s, move, id) {
      CleanAdvance(s.runs[id], s.ledger, s.tasks[id], Aborted(s, id), move.luck);
    } else {
      OutsideWasClean(s, Next(s, move), move, id);
      OutsideIsClean(s, Next(s, move), move, id);
    }
  }

  lemma OutsideWasClean(s: State, s': State, move: Move, id: Id)
    requires id in s.runs && Outside(s, s', move, id) && s'.clean
    ensures s.clean
  {
  }

  /** While storage works only the lawful changes happen. */
  lemma CleanStatuses(s: State, move: Move, id: Id)
    requires Inv(s) && CleanTasks(s) && Next(s, move).clean && id in s.runs && id in Next(s, move).runs
    ensures Lawful(s.runs[id].status, Next(s, move).runs[id].status)
  {
    hide Inv, Next, TaskSound, Advance, Outside, Lawful, CleanTask;
    WorkOrOutside(s, move, id);
    if Works(s, move, id) {
      CleanAdvance(s.runs[id], s.ledger, s.tasks[id], Aborted(s, id), move.luck);
    } else {
      OutsideStatuses(s, Next(s, move), move, id);
    }
  }

  lemma {:induction false} CleanAfter(moves: seq<Move>)
    ensures Inv(After(EMPTY, moves)) && CleanTasks(After(EMPTY, moves))
    decreases |moves|
  {
    hide Inv, Next, CleanTasks;
    if moves == [] {
      EmptyIsSound();
      assert CleanTasks(EMPTY) by { NoTasksAreClean(); }
    } else {
      CleanAfter(moves[..|moves| - 1]);
      NextKeeps(After(EMPTY, moves[..|moves| - 1]), moves[|moves| - 1]);
      CleanNext(After(EMPTY, moves[..|moves| - 1]), moves[|moves| - 1]);
    }
  }

  lemma NoTasksAreClean()
    ensures CleanTasks(EMPTY)
  {
  }

  /** The last move of any run of moves without a storage failure is lawful for every run. */
  lemma {:induction false} WorkingStorageIsLawful(moves: seq<Move>, id: Id)
    requires moves != [] && After(EMPTY, moves).clean && id in After(EMPTY, moves[..|moves| - 1]).runs
    ensures id in After(EMPTY, moves).runs
    ensures Lawful(After(EMPTY, moves[..|moves| - 1]).runs[id].status, After(EMPTY, moves).runs[id].status)
  {
    var init := moves[..|moves| - 1];
    hide Inv, Next, CleanTasks;
    CleanAfter(init);
    NextKeepsRequest(After(EMPTY, init), moves[|moves| - 1], id);
    CleanStatuses(After(EMPTY, init), moves[|moves| - 1], id);
  }

  function RunningIds(s: State): set<Id> {
    set id | id in s.runs && s.runs[id].status == Running
  }

  lemma SubsetIsSmaller<T>(a: set<T>, b: set<T>)
    requires a <= b
    ensures |a| <= |b|
  {
    assert b == a + (b - a);
  }

  /** While storage works and the server is up, a running run holds a controller, and at most two run. */
  lemma {:induction false} AtMostTwoRun(moves: seq<Move>)
    requires After(EMPTY, moves).clean && After(EMPTY, moves).booted
    ensures var s := After(EMPTY, moves);
            RunningIds(s) <= s.active.Keys && RunningIds(s) <= s.tasks.Keys && |RunningIds(s)| <= 2
  {
    CleanAfter(moves);
    var s := After(EMPTY, moves);
    hide After;
    forall id | id in RunningIds(s) ensures id in s.active.Keys && id in s.tasks.Keys {
      assert id in s.tasks by { assert CleanSound(s); }
      assert TasksSound(s);
    }
    assert |s.active.Keys| == |s.active| <= 2;
    SubsetIsSmaller(RunningIds(s), s.active.Keys);
  }

  /** While a run is running its steps are done, then at most one is under way, then queued. */
  lemma {:induction false} RunningStepsAreInOrder(moves: seq<Move>, id: Id, k: nat)
    requires id in After(EMPTY, moves).runs && After(EMPTY, moves).runs[id].status == Running
    requires k == DonePrefix(After(EMPTY, moves).runs[id].steps)
    ensures var steps := After(EMPTY, moves).runs[id].steps;
            && (forall i :: 0 <= i < k ==> steps[i].status == Done)
            && (k < |steps| ==> steps[k].status == Queued || steps[k].status == Working)
            && (forall i :: k < i < |steps| ==> steps[i].status == Queued)
  {
    EmptyIsSound();
    AfterKeeps(EMPTY, moves);
    RunHasItsId(After(EMPTY, moves), id);
    hide After, Inv, Custody;
  }

  // --------------------------------------------------------------------------- cancellation

  /** The run is over for good, and its worker, if one is left, has been told to stop. */
  ghost predicate Stopped(s: State, id: Id) {
    id in s.runs && Dead(s.runs[id]) && (id in s.tasks ==> Aborted(s, id))
  }

  /** How many steps are recorded as succeeded, plus the one that can no longer be held back. */
  function Potential(s: State, id: Id): nat
    requires id in s.runs
  {
    DonePrefix(s.runs[id].steps) + if id in s.tasks && s.tasks[id].Record? then 1 else 0
  }

  lemma CancelStops(s: State, id: Id, fault: Fault)
    requires Inv(s) && id in s.runs && (s.runs[id].status == Pending || s.runs[id].status == Running) && fault != Refused
    ensures Stopped(DoCancel(s, id, fault), id) && DoCancel(s, id, fault).runs[id].steps == s.runs[id].steps
  {
    assert id in s.tasks ==> id in s.active by { assert TasksSound(s); }
    hide Inv;
    CancelShape(s, id, fault);
    hide DoCancel;
  }

  lemma PrefixAfterOneStep(steps: seq<Step>, i: nat, step: Step)
    requires i < |steps| && DonePrefix(steps) == i
    requires forall j :: i < j < |steps| ==> steps[j].status != Done
    ensures DonePrefix(steps[i := step]) == if step.status == Done then i + 1 else i
  {
    var steps' := steps[i := step];
    assert forall j :: 0 <= j < i ==> steps'[j] == steps[j];
    PrefixIs(steps', if step.status == Done then i + 1 else i);
  }

  lemma PrefixIs(steps: seq<Step>, i: nat)
    requires i <= |steps| && (forall j :: 0 <= j < i ==> steps[j].status == Done) && (i < |steps| ==> steps[i].status != Done)
    ensures DonePrefix(steps) == i
  {
  }

  lemma BrokenStepsSamePrefix(steps: seq<Step>)
    ensures DonePrefix(BrokenSteps(steps)) == DonePrefix(steps)
  {
    var i := DonePrefix(steps);
    PrefixIs(BrokenSteps(steps), i);
  }

  lemma StepPrefix(run: Run, ledger: seq<Event>, pc: Pc, aborted: bool, luck: Luck)
    requires RunSound(run.id, run) && TaskSound(ledger, run, pc) && (pc.Mark? || pc.Record?)
    ensures var p := Advance(run, ledger, pc, aborted, luck);
            && DonePrefix(p.run.steps) <= DonePrefix(run.steps) + (if pc.Record? then 1 else 0)
            && (p.pc.Some? ==> !p.pc.value.Record?)
  {
    var i := pc.i;
    ToldIsDone(ledger, run, i);
    PrefixIs(run.steps, i);
    hide Told, StepSound, Shape;
    PrefixAfterOneStep(run.steps, i, Marked(run, i).steps[i]);
    if pc.Record? {
      PrefixAfterOneStep(run.steps, i, Recorded(run, i, pc.out).steps[i]);
    }
    hide DonePrefix;
  }

  /** Away from the two counters that write a step, the steps stay or are marked as broken. */
  lemma QuietAdvance(run: Run, ledger: seq<Event>, pc: Pc, luck: Luck)
    requires !pc.Mark? && !pc.Record?
    ensures var p := Advance(run, ledger, pc, true, luck);
            && (p.run.steps == run.steps || p.run.steps == BrokenSteps(run.steps))
            && (p.pc.Some? ==> !p.pc.value.Record?)
  {
    hide BrokenSteps, Verified, Valid;
  }

  lemma AbortedAdvance(run: Run, ledger: seq<Event>, pc: Pc, luck: Luck)
    requires RunSound(run.id, run) && TaskSound(ledger, run, pc)
    ensures var p := Advance(run, ledger, pc, true, luck);
            && DonePrefix(p.run.steps) <= DonePrefix(run.steps) + (if pc.Record? then 1 else 0)
            && (p.pc.Some? ==> !p.pc.value.Record?)
  {
    hide *;
    if pc.Mark? || pc.Record? {
      StepPrefix(run, ledger, pc, true, luck);
    } else {
      BrokenStepsSamePrefix(run.steps);
      QuietAdvance(run, ledger, pc, luck);
    }
  }

  lemma StoppedRunsOnlyWindDown(s: State, move: Move, id: Id)
    requires Inv(s) && Stopped(s, id) && id in s.runs
    ensures id in Next(s, move).runs && Stopped(Next(s, move), id) && Potential(Next(s, move), id) <= Potential(s, id)
  {
    hide Inv, Next, TaskSound, Advance, RunSound, DonePrefix, Custody, Outside, Stopped, Potential;
    WorkOrOutside(s, move, id);
    if Works(s, move, id) {
      StoppedWorkWindsDown(s, move.luck, id);
    } else {
      StoppedOutside(s, Next(s, move), move, id);
    }
  }

  lemma StoppedOutside(s: State, s': State, move: Move, id: Id)
    requires Stopped(s, id) && Outside(s, s', move, id)
    ensures id in s.runs && id in s'.runs && Stopped(s', id) && Potential(s', id) <= Potential(s, id)
  {
    hide DonePrefix;
  }

  lemma StoppedWorkWindsDown(s: State, luck: Luck, id: Id)
    requires Inv(s) && Stopped(s, id) && id in s.tasks && TaskSound(s.ledger, s.runs[id], s.tasks[id])
    ensures Stopped(DoWork(s, id, luck), id) && Potential(DoWork(s, id, luck), id) <= Potential(s, id)
  {
    RunHasItsId(s, id);
    AbortedAdvance(s.runs[id], s.ledger, s.tasks[id], luck);
    AdvanceStatuses(s.runs[id], s.ledger, s.tasks[id], true, luck);
    hide Inv, TaskSound, Advance, RunSound, DonePrefix, Custody;
  }

  lemma {:induction false} StoppedRunsWindDown(s: State, moves: seq<Move>, id: Id)
    requires Inv(s) && Stopped(s, id)
    ensures Stopped(After(s, moves), id)
    ensures DonePrefix(After(s, moves).runs[id].steps) <= Potential(After(s, moves), id) <= Potential(s, id) <= DonePrefix(s.runs[id].steps) + 1
    decreases |moves|
  {
    hide Inv, Next, Stopped, DonePrefix;
    assert id in s.runs by { StoppedIsThere(s, id); }
    if moves != [] {
      var init, last := moves[..|moves| - 1], moves[|moves| - 1];
      StoppedRunsWindDown(s, init, id);
      AfterKeeps(s, init);
      StoppedIsThere(After(s, init), id);
      StoppedRunsOnlyWindDown(After(s, init), last, id);
    }
  }

  /**
    Bounded effect of cancellation: a cancellation that lands stops the run for good, and
    after it at most one further step is ever recorded as succeeded, and none unless the
    worker was already past the abort check.
   */
  lemma {:induction false} CancellationIsBounded(s: State, id: Id, fault: Fault, moves: seq<Move>)
    requires Inv(s) && s.booted && id in s.runs && (s.runs[id].status == Pending || s.runs[id].status == Running) && fault != Refused
    ensures var after := After(Next(s, Cancel(id, fault)), moves);
            && id in after.runs && Dead(after.runs[id])
            && DonePrefix(after.runs[id].steps) <= DonePrefix(s.runs[id].steps) + (if id in s.tasks && s.tasks[id].Record? then 1 else 0)
  {
    hide Inv, DonePrefix, DoCancel;
    NextUnfolds(s, Cancel(id, fault));
    NextKeeps(s, Cancel(id, fault));
    CancelStops(s, id, fault);
    CancelShape(s, id, fault);
    hide Next;
    StoppedRunsWindDown(DoCancel(s, id, fault), moves, id);
  }

  lemma StoppedIsThere(s: State, id: Id)
    requires Stopped(s, id)
    ensures id in s.runs
  {
  }

  // ------------------------------------------------------------------------------ lost slots

  /** A controller without a worker, which alone would delete it. */
  predicate Orphaned(s: State, id: Id) {
    id in s.active && id !in s.tasks
  }

  /** An approval that passes every check and is told, but whose state write does not succeed. */
  predicate ApprovalFails(s: State, move: Move, id: Id) {
    && move.Decide? && s.booted && move.decision.id == id && move.decision.approve && Decidable(s, move.decision)
    && move.append == Fine && move.fault != Fine
  }

  predicate ApprovalLands(s: State, move: Move, id: Id) {
    && move.Decide? && s.booted && move.decision.id == id && move.decision.approve && Decidable(s, move.decision)
    && move.append == Fine && move.fault == Fine
  }

  lemma DecidingSlots(s: State, d: Decision, append: Fault, fault: Fault)
    requires s.booted
    ensures var s', move := DoDecide(s, d, append, fault), Decide(d, append, fault);
            && s'.active == (if ApprovalFails(s, move, d.id) || ApprovalLands(s, move, d.id) then s.active[d.id := false] else s.active)
            && s'.tasks == (if ApprovalLands(s, move, d.id) then s.tasks[d.id := Start] else s.tasks)
            && (ApprovalFails(s, move, d.id) ==> !s'.clean)
  {
    if d in s.deciding && d.id in s.runs {
      DecideUnfolds(s, d, append, fault);
      if Decidable(s, d) && append == Fine && fault != Refused {
        DecideLandsShape(s, d, fault);
      }
      hide DoDecide, HashOfRequest, DecisionEvent, DecidedRun;
    }
  }

  lemma WorkingSlots(s: State, worker: Id, luck: Luck, id: Id)
    requires id in s.tasks ==> id in s.active
    ensures Orphaned(DoWork(s, worker, luck), id) == Orphaned(s, id)
  {
    hide Advance;
  }

  lemma DecidingOrphans(s: State, d: Decision, append: Fault, fault: Fault, id: Id)
    requires s.booted && (id in s.runs && s.runs[id].status == Pending ==> id !in s.tasks)
    ensures var move := Decide(d, append, fault);
            Orphaned(DoDecide(s, d, append, fault), id) <==> ApprovalFails(s, move, id) || (Orphaned(s, id) && !ApprovalLands(s, move, id))
  {
    DecidingSlots(s, d, append, fault);
    hide DoDecide;
  }

  lemma KeptSlotsOrphanNobody(s: State, s': State, id: Id)
    requires KeepsSlots(s, s')
    ensures Orphaned(s', id) == Orphaned(s, id)
  {
    assert id in s.active <==> id in s.active.Keys;
    assert id in s'.active <==> id in s'.active.Keys;
  }

  lemma WhatInvSaysOfSlots(s: State, id: Id)
    requires Inv(s)
    ensures id in s.tasks ==> id in s.active
    ensures id in s.runs && s.runs[id].status == Pending ==> id !in s.tasks
    ensures !s.booted ==> s.active == map[] && s.tasks == map[]
  {
    hide RunsSound, ChecksSound, CleanSound;
    if id in s.runs && s.runs[id].status == Pending {
      PendingHasNoTask(s, id);
    }
    hide TaskSound;
  }

  lemma OneMoveOrphans(s: State, move: Move, id: Id)
    requires Inv(s)
    ensures Orphaned(Next(s, move), id) <==> ApprovalFails(s, move, id) || (Orphaned(s, id) && !move.Crash? && !ApprovalLands(s, move, id))
  {
    WhatInvSaysOfSlots(s, id);
    hide Inv, Decidable, DoDecide, DoWork, DoAsk, DoTellAsk, DoCheckDecision, DoCancel, DoAbort, DoCheckPublication, DoPublish, DoBoot, KeepsSlots;
    if move.Crash? {
      NextUnfolds(s, move);
    } else if !s.booted && !move.Boot? {
      NextStays(s, move);
    } else if move.Decide? {
      NextUnfolds(s, move);
      DecidingOrphans(s, move.decision, move.append, move.fault, id);
    } else if move.Work? {
      NextUnfolds(s, move);
      WorkingSlots(s, move.id, move.luck, id);
    } else {
      QuietSlots(s, move);
      KeptSlotsOrphanNobody(s, Next(s, move), id);
      hide Next;
    }
  }

  /**
    The exact condition: a controller loses its worker by one kind of move only, an approval
    that is in order and told but whose state write fails, or lands and is reported as failed.
   */
  lemma OrphanedIff(s: State, move: Move, id: Id)
    requires Inv(s) && !Orphaned(s, id)
    ensures Orphaned(Next(s, move), id) <==> ApprovalFails(s, move, id)
  {
    hide Inv, Next, ApprovalFails, ApprovalLands, Orphaned;
    OneMoveOrphans(s, move, id);
  }

  /** It ends by a crash, or when the run, still pending, is approved once more and that lands. */
  lemma OrphanEndsIff(s: State, move: Move, id: Id)
    requires Inv(s) && Orphaned(s, id)
    ensures !Orphaned(Next(s, move), id) <==> move.Crash? || ApprovalLands(s, move, id)
  {
    OneMoveOrphans(s, move, id);
    hide Inv, Next, Orphaned, Decidable;
  }

  lemma FailureIsNotClean(s: State, move: Move, id: Id)
    requires ApprovalFails(s, move, id)
    ensures !Next(s, move).clean
  {
    NextUnfolds(s, move);
    DecidingSlots(s, move.decision, move.append, move.fault);
    hide Next, DoDecide;
  }

  lemma AppendingStaysUnclean(s: State, event: Event, fault: Fault)
    ensures AppendEvent(s, event, fault).clean ==> s.clean
  {
  }

  lemma DecidingStaysUnclean(s: State, d: Decision, append: Fault, fault: Fault)
    ensures DoDecide(s, d, append, fault).clean ==> s.clean
    ensures DoPublish(s, d, append, fault).clean ==> s.clean
  {
    hide HashOfRequest, DecidedRun, Valid, LastFiles, PlaceAll;
  }

  lemma UncleanStays(s: State, move: Move)
    ensures Next(s, move).clean ==> s.clean
  {
    if s.booted || move.Boot? || move.Crash? {
      NextUnfolds(s, move);
      hide Next, HashOfRequest, Verified, Valid, LastFiles, PlaceAll, Fresh, Advance, InterruptAll, DoDecide, DoPublish;
      match move
      case Decide(d, append, fault) => DecidingStaysUnclean(s, d, append, fault);
      case Publish(d, append, fault) => DecidingStaysUnclean(s, d, append, fault);
      case _ =>
    } else {
      NextStays(s, move);
      hide Next;
    }
  }

  /** So while storage works every controller has its worker, and a slot is free again when the work is over. */
  lemma {:induction false} WorkingStorageLosesNoSlot(moves: seq<Move>)
    requires After(EMPTY, moves).clean
    ensures After(EMPTY, moves).active.Keys == After(EMPTY, moves).tasks.Keys
    decreases |moves|
  {
    if moves != [] {
      var init, last := moves[..|moves| - 1], moves[|moves| - 1];
      var s := After(EMPTY, init);
      assert Inv(s) by { EmptyIsSound(); AfterKeeps(EMPTY, init); }
      hide Inv, Next;
      UncleanStays(s, last);
      WorkingStorageLosesNoSlot(init);
      var s' := Next(s, last);
      assert TasksSound(s') by { NextKeeps(s, last); TasksAreSound(s'); }
      forall id | id in s'.active ensures id in s'.tasks {
        if Orphaned(s', id) {
          OrphanedIff(s, last, id);
          FailureIsNotClean(s, last, id);
        }
      }
    }
  }

  lemma TasksAreSound(s: State)
    requires Inv(s)
    ensures TasksSound(s)
  {
    hide RunsSound, ChecksSound, SlotsSound, CleanSound, TaskSound;
  }

  /** A lost controller whose run is over: no approval can give it a worker any more. */
  ghost predicate Leaked(s: State, id: Id) {
    Orphaned(s, id) && id in s.runs && Dead(s.runs[id])
  }

  lemma LeakStays(s: State, move: Move, id: Id)
    requires Inv(s) && Leaked(s, id) && !move.Crash?
    ensures Leaked(Next(s, move), id)
  {
    hide Inv, Next, TaskSound, Advance, Outside;
    WorkOrOutside(s, move, id);
    LeakedOutside(s, Next(s, move), move, id);
  }

  lemma LeakedOutside(s: State, s': State, move: Move, id: Id)
    requires Leaked(s, id) && Outside(s, s', move, id) && !move.Crash?
    ensures Leaked(s', id)
  {
  }

  lemma {:induction false} LeakStaysThroughout(s: State, moves: seq<Move>, id: Id)
    requires Inv(s) && Leaked(s, id) && forall move :: move in moves ==> !move.Crash?
    ensures Leaked(After(s, moves), id)
    decreases |moves|
  {
    hide Inv, Next, Leaked;
    if moves != [] {
      var init, last := moves[..|moves| - 1], moves[|moves| - 1];
      assert moves == init + [last];
      LeakStaysThroughout(s, init, id);
      AfterKeeps(s, init);
      LeakStays(After(s, init), last, id);
    }
  }

  lemma FailedApprovalRemains(s: State, move: Move, id: Id)
    requires Inv(s) && ApprovalFails(s, move, id)
    ensures var after := Next(s, move);
            && Orphaned(after, id) && id in after.runs && after.booted
            && after.runs[id].status == (if move.fault == Refused then Pending else Running)
  {
    var d := move.decision;
    WhatInvSaysOfSlots(s, id);
    NextUnfolds(s, move);
    DecideUnfolds(s, d, Fine, move.fault);
    if move.fault == Unacknowledged {
      DecideLandsShape(s, d, move.fault);
    }
    hide Inv, HashOfRequest, DoDecide, DecisionEvent, Next;
  }

  lemma CancelledOrphanLeaks(s: State, id: Id)
    requires s.booted && Orphaned(s, id) && id in s.runs && (s.runs[id].status == Pending || s.runs[id].status == Running)
    ensures Leaked(Next(s, Cancel(id, Fine)), id)
  {
    NextUnfolds(s, Cancel(id, Fine));
    CancelShape(s, id, Fine);
    hide DoCancel, Next;
  }

  /**
    An approval that fails this way leaves its run pending, or running with nobody at work if
    the write landed after all; and once the run is cancelled its slot is lost through every
    later move but a crash.
   */
  lemma {:induction false} FailedApprovalLeaks(s: State, move: Move, id: Id, moves: seq<Move>)
    requires Inv(s) && ApprovalFails(s, move, id) && forall later :: later in moves ==> !later.Crash?
    ensures var after := Next(s, move);
            && Orphaned(after, id) && id in after.runs
            && after.runs[id].status == (if move.fault == Refused then Pending else Running)
            && Leaked(After(Next(after, Cancel(id, Fine)), moves), id)
  {
    hide *;
    FailedApprovalRemains(s, move, id);
    CancelledOrphanLeaks(Next(s, move), id);
    NextKeeps(s, move);
    NextKeeps(Next(s, move), Cancel(id, Fine));
    LeakStaysThroughout(Next(Next(s, move), Cancel(id, Fine)), moves, id);
  }

  lemma TwoSlotsAreAll(s: State, a: Id, b: Id)
    requires a != b && Orphaned(s, a) && Orphaned(s, b)
    ensures |s.active| >= 2
  {
    assert {a, b} <= s.active.Keys;
    SubsetIsSmaller({a, b}, s.active.Keys);
    assert |s.active| == |s.active.Keys|;
  }

  /**
    Two lost controllers, whatever has become of their runs, stop every approval until the
    server is restarted: they stay lost, and no run starts running.
   */
  lemma {:induction false} LostSlotsBlockEveryRun(s: State, moves: seq<Move>, a: Id, b: Id)
    requires Inv(s) && a != b && Orphaned(s, a) && Orphaned(s, b) && forall move :: move in moves ==> !move.Crash?
    ensures Orphaned(After(s, moves), a) && Orphaned(After(s, moves), b)
    ensures forall id :: id in After(s, moves).runs && After(s, moves).runs[id].status == Running ==> id in s.runs && s.runs[id].status == Running
    decreases |moves|
  {
    hide Inv, Next, Orphaned;
    if moves != [] {
      var init, last := moves[..|moves| - 1], moves[|moves| - 1];
      assert moves == init + [last];
      LostSlotsBlockEveryRun(s, init, a, b);
      AfterKeeps(s, init);
      var v := After(s, init);
      TwoSlotsAreAll(v, a, b);
      OrphanEndsIff(v, last, a);
      OrphanEndsIff(v, last, b);
      NoneStartsRunning(v, last);
    }
  }

  lemma NoneStartsRunning(s: State, move: Move)
    requires Inv(s) && |s.active| >= 2
    ensures forall id :: id in Next(s, move).runs && Next(s, move).runs[id].status == Running ==> id in s.runs && s.runs[id].status == Running
  {
    var s' := Next(s, move);
    hide Inv, Next, Outside, TaskSound, Advance;
    forall id | id in s'.runs && s'.runs[id].status == Running ensures id in s.runs && s.runs[id].status == Running {
      if id !in s.runs {
        NewRunsArePending(s, move, id);
      } else {
        WorkOrOutside(s, move, id);
        if Works(s, move, id) {
          AdvanceStatuses(s.runs[id], s.ledger, s.tasks[id], Aborted(s, id), move.luck);
        } else {
          RunningNeedsASlot(s, s', move, id);
        }
      }
    }
  }

  lemma RunningNeedsASlot(s: State, s': State, move: Move, id: Id)
    requires id in s.runs && Outside(s, s', move, id)
    ensures id in s'.runs && (s'.runs[id].status == Running && s.runs[id].status != Running ==> |s.active| < 2)
  {
  }

  // ------------------------------------------------------------------------------ four eyes

  /** Whoever decides a run, or has passed the checks to decide it, did not request it. */
  ghost predicate FourEyes(s: State) {
    && (forall d :: d in s.deciding && d.id in s.runs ==> d.actor.human != s.runs[d.id].requester)
    && (forall id :: id in s.runs && s.runs[id].approver.Some? ==> s.runs[id].approver.value != s.runs[id].requester)
  }

  lemma DecidingAdmitsNobody(s: State, d: Decision, append: Fault, fault: Fault)
    ensures DoDecide(s, d, append, fault).deciding <= s.deciding
  {
    if d in s.deciding && d.id in s.runs {
      DecideUnfolds(s, d, append, fault);
      if Decidable(s, d) && append == Fine && fault != Refused {
        DecideLandsShape(s, d, fault);
      }
      hide DoDecide, HashOfRequest, DecisionEvent, DecidedRun;
    }
  }

  lemma PublishingAdmitsNobody(s: State, d: Decision, append: Fault, fault: Fault)
    ensures DoPublish(s, d, append, fault).deciding == s.deciding
  {
    if d in s.publishing && d.id in s.runs {
      PublishUnfolds(s, d, append, fault);
      hide DoPublish, LastFiles, PlaceAll, Valid;
    }
  }

  lemma DecidersPassedTheCheck(s: State, move: Move, d: Decision)
    requires d in Next(s, move).deciding
    ensures d in s.deciding || (move.CheckDecision? && move.decision == d && d.id in s.runs && !(d.actor.named && s.runs[d.id].requester == d.actor.human))
  {
    if s.booted || move.Boot? || move.Crash? {
      NextUnfolds(s, move);
      hide Next, Advance, HashOfRequest, Verified, LastFiles, PlaceAll, Valid, DoDecide, DoPublish, Fresh, InterruptAll;
      match move
      case Decide(e, append, fault) => DecidingAdmitsNobody(s, e, append, fault);
      case Publish(e, append, fault) => PublishingAdmitsNobody(s, e, append, fault);
      case _ =>
    } else {
      NextStays(s, move);
      hide Next;
    }
  }

  lemma AskedRunHasNoApprover(s: State, move: Move, id: Id)
    requires id in Next(s, move).runs && id !in s.runs
    ensures Next(s, move).runs[id].approver == None
  {
    if move.Ask? {
      hide DoTellAsk, DoCheckDecision, DoDecide, DoCancel, DoAbort, DoWork, DoCheckPublication, DoPublish, DoCrash, DoBoot;
    } else {
      KeysStay(s, move);
      hide Next;
    }
  }

  lemma AdvanceKeepsApprover(run: Run, ledger: seq<Event>, pc: Pc, aborted: bool, luck: Luck)
    ensures Advance(run, ledger, pc, aborted, luck).run.approver == run.approver
  {
    hide Verified, Valid, BrokenSteps;
  }

  lemma NextKeepsApprover(s: State, move: Move, id: Id)
    requires Inv(s) && id in s.runs
    ensures id in Next(s, move).runs && Next(s, move).runs[id].requester == s.runs[id].requester
    ensures Next(s, move).runs[id].approver == s.runs[id].approver || ApprovedBy(s, Next(s, move), move, id)
  {
    hide Inv, Next, Advance, TaskSound, Outside, ApprovedBy;
    NextKeepsRequest(s, move, id);
    WorkOrOutside(s, move, id);
    if Works(s, move, id) {
      AdvanceKeepsApprover(s.runs[id], s.ledger, s.tasks[id], Aborted(s, id), move.luck);
    } else {
      OutsideKeepsApprover(s, Next(s, move), move, id);
    }
  }

  lemma OutsideKeepsApprover(s: State, s': State, move: Move, id: Id)
    requires id in s.runs && Outside(s, s', move, id)
    ensures id in s'.runs && (s'.runs[id].approver == s.runs[id].approver || ApprovedBy(s, s', move, id))
  {
  }

  lemma NamedNext(s: State, move: Move)
    requires Inv(s) && FourEyes(s) && (move.CheckDecision? ==> move.decision.actor.named)
    ensures FourEyes(Next(s, move))
  {
    var s' := Next(s, move);
    hide Inv, Next;
    forall d | d in s'.deciding && d.id in s'.runs ensures d.actor.human != s'.runs[d.id].requester {
      DecidersPassedTheCheck(s, move, d);
      if d.id in s.runs {
        NextKeepsApprover(s, move, d.id);
      } else {
        DecidersHaveRuns(s, d);
      }
    }
    forall id | id in s'.runs && s'.runs[id].approver.Some? ensures s'.runs[id].approver.value != s'.runs[id].requester {
      if id in s.runs {
        NextKeepsApprover(s, move, id);
      } else {
        AskedRunHasNoApprover(s, move, id);
      }
    }
  }

  lemma DecidersHaveRuns(s: State, d: Decision)
    requires Inv(s) && d in s.deciding
    ensures d.id in s.runs
  {
    assert ChecksSound(s);
  }

  /** Among named users nobody decides a run of their own, however decisions interleave. */
  lemma {:induction false} NamedUsersNeverDecideTheirOwn(moves: seq<Move>)
    requires forall move :: move in moves && move.CheckDecision? ==> move.decision.actor.named
    ensures Inv(After(EMPTY, moves)) && FourEyes(After(EMPTY, moves))
    decreases |moves|
  {
    hide Inv, Next;
    if moves == [] {
      EmptyIsSound();
    } else {
      var init, last := moves[..|moves| - 1], moves[|moves| - 1];
      assert moves == init + [last];
      hide FourEyes;
      NamedUsersNeverDecideTheirOwn(init);
      NextKeeps(After(EMPTY, init), last);
      NamedNext(After(EMPTY, init), last);
    }
  }
}
