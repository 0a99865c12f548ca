/** What every interleaving of room moves keeps, failing storage included. */
module RoomSafety {
  import opened Options
  import opened RoomFiles
  import opened PublicationTree
  import opened RoomMachine

  ghost predicate StepSound(step: Step) {
    if step.status == Done
    then step.output.Some? && step.hash == Some(OutputHash(step.output.value)) && Valid(step.output.value.files)
    else step.output == None && step.hash == None
  }

  /** The steps before the first that is not done. */
  function DonePrefix(steps: seq<Step>): nat {
    First(steps, (step: Step) => step.status != Done)
  }

  ghost predicate AllDone(steps: seq<Step>) {
    forall i :: 0 <= i < |steps| ==> steps[i].status == Done
  }

  ghost predicate AllQueued(steps: seq<Step>) {
    forall i :: 0 <= i < |steps| ==> steps[i].status == Queued
  }

  /** A succeeded prefix, then at most one step begun, then queued ones. */
  ghost predicate Shape(steps: seq<Step>) {
    forall i, j :: 0 <= i < j < |steps| && steps[i].status != Done ==> steps[j].status == Queued
  }

  ghost predicate RunSound(id: Id, run: Run) {
    && run.id == id && 1 <= |run.steps| <= 4
    && (forall i :: 0 <= i < |run.steps| ==> StepSound(run.steps[i]))
    && Shape(run.steps)
    && (run.status == Pending || run.status == Rejected ==> AllQueued(run.steps))
    && (run.status == Succeeded || run.publication.Some? ==> AllDone(run.steps))
    && (run.status == Running ==> forall i :: 0 <= i < |run.steps| ==> run.steps[i].status != Broken)
    && (run.publication.Some? ==> run.status == Succeeded || run.status == Failed || run.status == Cancelled)
  }

  ghost predicate ApprovedAfterRequest(ledger: seq<Event>, run: Run, i: nat, j: nat) {
    && run.approver.Some? && i < j < |ledger|
    && ledger[i] == Requested(run.id, HashOfRequest(run), run.requester)
    && ledger[j] == Approved(run.id, HashOfRequest(run), run.approver.value)
  }

  /** A human approved exactly what was requested, after it was requested. */
  ghost predicate Chain(ledger: seq<Event>, run: Run) {
    exists i: nat, j: nat :: ApprovedAfterRequest(ledger, run, i, j)
  }

  ghost predicate Told(ledger: seq<Event>, run: Run, n: nat) {
    n <= |run.steps| && forall i :: 0 <= i < n ==> StepKnown(ledger, run.id, run.steps[i])
  }

  predicate Launched(run: Run) {
    run.status == Running || run.status == Succeeded || run.publication.Some?
  }

  /** The directory of a publication is the one that all writes of the bundle leave. */
  predicate OnDisk(publication: Publication, files: seq<File>) {
    Lands(files) && publication.disk == Landed(files)
  }

  /** The chain of hashes from request over approval and outputs to publication. */
  ghost predicate Custody(ledger: seq<Event>, run: Run) {
    && (Launched(run) ==> Chain(ledger, run))
    && (run.status == Succeeded || run.publication.Some? ==> Told(ledger, run, |run.steps|))
    && (run.publication.Some? ==>
          && run.publication.value.hash == FilesHash(LastFiles(run)) && LastFiles(run) != [] && OnDisk(run.publication.value, LastFiles(run))
          && Published(run.id, run.publication.value.hash, run.publication.value.publisher) in ledger)
  }

  predicate Early(pc: Pc) {
    !pc.Catch? && !pc.TellFailure? && !pc.Trace? && !pc.Outer?
  }

  ghost predicate QueuedFrom(steps: seq<Step>, n: nat) {
    forall i :: n <= i < |steps| ==> steps[i].status == Queued
  }

  /** How far the steps are when the worker stands at `pc`. */
  ghost predicate PcSound(ledger: seq<Event>, run: Run, pc: Pc) {
    match pc
    case Start => QueuedFrom(run.steps, 0)
    case Loop(i) => Told(ledger, run, i) && QueuedFrom(run.steps, i)
    case Mark(i) => i < |run.steps| && Told(ledger, run, i) && QueuedFrom(run.steps, i)
    case Exec(i) => i < |run.steps| && Told(ledger, run, i) && run.steps[i].status == Working && QueuedFrom(run.steps, i + 1)
    case Record(i, out) => i < |run.steps| && Told(ledger, run, i) && run.steps[i].status == Working && QueuedFrom(run.steps, i + 1) && Valid(out.files)
    case Tell(i, out) => i < |run.steps| && Told(ledger, run, i) && run.steps[i].status == Done && run.steps[i].output == Some(out) && QueuedFrom(run.steps, i + 1)
    case Final => Told(ledger, run, |run.steps|)
    case _ => true
  }

  ghost predicate TaskSound(ledger: seq<Event>, run: Run, pc: Pc) {
    && PcSound(ledger, run, pc)
    && run.status != Pending && run.status != Rejected && run.status != Interrupted
    && (Early(pc) ==> (run.status == Running || run.status == Cancelled) && run.publication == None)
    && (pc.Catch? ==> run.status != Failed)
  }

  // -------------------------------------------------------------------- the ledger only grows

  lemma GrowthKeeps(ledger: seq<Event>, longer: seq<Event>, run: Run)
    requires ledger <= longer
    ensures Custody(ledger, run) ==> Custody(longer, run)
    ensures forall n: nat :: Told(ledger, run, n) ==> Told(longer, run, n)
    ensures RequestKnown(ledger, run) ==> RequestKnown(longer, run)
  {
    assert longer[..|ledger|] == ledger;
    assert forall e :: e in ledger ==> e in longer;
    if Chain(ledger, run) {
      var i: nat, j: nat :| ApprovedAfterRequest(ledger, run, i, j);
      assert ApprovedAfterRequest(longer, run, i, j);
    }
  }

  lemma GrowthKeepsTask(ledger: seq<Event>, longer: seq<Event>, run: Run, pc: Pc)
    requires ledger <= longer && TaskSound(ledger, run, pc)
    ensures TaskSound(longer, run, pc)
  {
    GrowthKeeps(ledger, longer, run);
    hide Told, Custody, QueuedFrom;
  }

  /** Nothing a request hash covers has changed. */
  ghost predicate SameRequest(run: Run, run': Run) {
    && run'.id == run.id && run'.requester == run.requester && HashOfRequest(run') == HashOfRequest(run)
    && |run'.steps| == |run.steps|
    && forall i :: 0 <= i < |run.steps| ==> run'.steps[i].assignment == run.steps[i].assignment
  }

  lemma SameAssignmentsSameHash(run: Run, run': Run)
    requires run' == run.(steps := run'.steps, status := run'.status, approver := run'.approver, publication := run'.publication)
    requires |run'.steps| == |run.steps| && forall i :: 0 <= i < |run.steps| ==> run'.steps[i].assignment == run.steps[i].assignment
    ensures SameRequest(run, run')
  {
    assert Assignments(run'.steps) == Assignments(run.steps);
  }

  lemma SameChain(ledger: seq<Event>, run: Run, run': Run)
    requires SameRequest(run, run') && run'.approver == run.approver
    ensures Chain(ledger, run) ==> Chain(ledger, run')
  {
    if Chain(ledger, run) {
      var i: nat, j: nat :| ApprovedAfterRequest(ledger, run, i, j);
      assert ApprovedAfterRequest(ledger, run', i, j);
    }
  }

  // ---------------------------------------------------------------------- one step of a worker

  /** What one step of a worker owes to the run's next state. */
  ghost predicate ProgressSound(run: Run, ledger: seq<Event>, p: Progress) {
    && RunSound(run.id, p.run) && Custody(p.ledger, p.run) && SameRequest(run, p.run)
    && p.run.approver == run.approver && ledger <= p.ledger
    && (p.pc.Some? ==> TaskSound(p.ledger, p.run, p.pc.value))
  }

  /** A run in progress whose step `i` changes; the steps before it are as they were. */
  lemma StepChangeKeeps(ledger: seq<Event>, run: Run, i: nat, step: Step)
    requires RunSound(run.id, run) && Custody(ledger, run) && (run.status == Running || run.status == Cancelled) && run.publication == None
    requires i < |run.steps| && step.assignment == run.steps[i].assignment && StepSound(step)
    requires step.status == Working || step.status == Done
    requires (forall k :: 0 <= k < i ==> run.steps[k].status == Done) && QueuedFrom(run.steps, i + 1)
    ensures var run' := WithStep(run, i, step);
            RunSound(run.id, run') && Custody(ledger, run') && SameRequest(run, run')
  {
    var run' := WithStep(run, i, step);
    SameAssignmentsSameHash(run, run');
    hide HashOfRequest, StepSound, Chain, Told;
    SameChain(ledger, run, run');
  }

  lemma PrefixStaysTold(ledger: seq<Event>, run: Run, i: nat, step: Step)
    requires Told(ledger, run, i) && i < |run.steps|
    ensures Told(ledger, WithStep(run, i, step), i)
  {
  }

  lemma ToldIsDone(ledger: seq<Event>, run: Run, n: nat)
    requires Told(ledger, run, n)
    ensures forall k :: 0 <= k < n ==> run.steps[k].status == Done
  {
  }

  lemma MarkKeeps(ledger: seq<Event>, run: Run, i: nat, aborted: bool, luck: Luck)
    requires RunSound(run.id, run) && Custody(ledger, run) && TaskSound(ledger, run, Mark(i))
    ensures ProgressSound(run, ledger, Advance(run, ledger, Mark(i), aborted, luck))
  {
    StandingStillIsSound(ledger, run);
    ToldIsDone(ledger, run, i);
    var step := run.steps[i].(status := Working);
    assert run.steps[i].status == Queued && StepSound(run.steps[i]) && StepSound(step);
    StepChangeKeeps(ledger, run, i, step);
    PrefixStaysTold(ledger, run, i, step);
    hide RunSound, Custody, SameRequest, Told, StepSound;
  }

  lemma StandingStillIsSound(ledger: seq<Event>, run: Run)
    ensures SameRequest(run, run)
  {
  }

  lemma RecordKeeps(ledger: seq<Event>, run: Run, i: nat, out: Output, aborted: bool, luck: Luck)
    requires RunSound(run.id, run) && Custody(ledger, run) && TaskSound(ledger, run, Record(i, out))
    ensures ProgressSound(run, ledger, Advance(run, ledger, Record(i, out), aborted, luck))
  {
    StandingStillIsSound(ledger, run);
    ToldIsDone(ledger, run, i);
    var step := run.steps[i].(status := Done, output := Some(out), hash := Some(OutputHash(out)));
    assert StepSound(step);
    StepChangeKeeps(ledger, run, i, step);
    RecordedIsTold(ledger, run, i, out);
    assert Recorded(run, i, out) == WithStep(run, i, step) && (run.status == Running || run.status == Cancelled);
    hide RunSound, Custody, SameRequest, TaskSound, Recorded, StepSound;
    NothingAsked(ledger, run);
  }

  lemma NothingAsked(ledger: seq<Event>, run: Run)
    requires run.status == Running || run.status == Cancelled || run.status == Succeeded
    ensures TaskSound(ledger, run, Catch)
  {
  }

  lemma RecordedIsTold(ledger: seq<Event>, run: Run, i: nat, out: Output)
    requires TaskSound(ledger, run, Record(i, out))
    ensures TaskSound(ledger, Recorded(run, i, out), Tell(i, out)) && TaskSound(ledger, Recorded(run, i, out), Catch)
  {
    PrefixStaysTold(ledger, run, i, run.steps[i].(status := Done, output := Some(out), hash := Some(OutputHash(out))));
    hide Told;
  }

  lemma ToldNext(ledger: seq<Event>, run: Run, i: nat, out: Output)
    requires RunSound(run.id, run) && TaskSound(ledger, run, Tell(i, out))
    ensures Told(ledger + [StepTold(run.id, run.steps[i].assignment.agent, OutputHash(out))], run, i + 1)
  {
    var event := StepTold(run.id, run.steps[i].assignment.agent, OutputHash(out));
    var longer := ledger + [event];
    GrowthKeeps(ledger, longer, run);
    assert StepSound(run.steps[i]);
    assert event in longer;
    assert StepKnown(longer, run.id, run.steps[i]);
    hide RunSound, Custody, SameRequest, StepSound, StepKnown;
  }

  lemma ToldTask(ledger: seq<Event>, run: Run, i: nat, out: Output)
    requires RunSound(run.id, run) && TaskSound(ledger, run, Tell(i, out))
    ensures TaskSound(ledger + [StepTold(run.id, run.steps[i].assignment.agent, OutputHash(out))], run, Loop(i + 1))
    ensures TaskSound(ledger, run, Catch) && TaskSound(ledger + [StepTold(run.id, run.steps[i].assignment.agent, OutputHash(out))], run, Catch)
  {
    ToldNext(ledger, run, i, out);
    hide RunSound, Told, StepSound;
  }

  lemma TellKeeps(ledger: seq<Event>, run: Run, i: nat, out: Output, aborted: bool, luck: Luck)
    requires RunSound(run.id, run) && Custody(ledger, run) && TaskSound(ledger, run, Tell(i, out))
    ensures ProgressSound(run, ledger, Advance(run, ledger, Tell(i, out), aborted, luck))
  {
    StandingStillIsSound(ledger, run);
    ToldTask(ledger, run, i, out);
    GrowthKeeps(ledger, ledger + [StepTold(run.id, run.steps[i].assignment.agent, OutputHash(out))], run);
    hide RunSound, Custody, SameRequest, TaskSound;
  }

  lemma FinalKeeps(ledger: seq<Event>, run: Run, aborted: bool, luck: Luck)
    requires RunSound(run.id, run) && Custody(ledger, run) && TaskSound(ledger, run, Final)
    ensures ProgressSound(run, ledger, Advance(run, ledger, Final, aborted, luck))
  {
    var run' := WithStatus(run, Succeeded);
    StandingStillIsSound(ledger, run);
    SameAssignmentsSameHash(run, run');
    ToldIsDone(ledger, run, |run.steps|);
    SameChain(ledger, run, run');
    assert Told(ledger, run', |run.steps|);
    hide HashOfRequest, StepSound, Chain, Told;
  }

  lemma BrokenStepsAreSound(run: Run)
    requires RunSound(run.id, run)
    ensures var steps := BrokenSteps(run.steps);
            && (forall i :: 0 <= i < |steps| ==> StepSound(steps[i]))
            && Shape(steps)
            && (AllDone(run.steps) ==> steps == run.steps)
            && (AllQueued(run.steps) ==> AllQueued(steps))
  {
    assert forall i :: 0 <= i < |run.steps| ==> StepSound(run.steps[i]);
  }

  lemma CaughtIsSound(run: Run, aborted: bool)
    requires RunSound(run.id, run)
    ensures RunSound(run.id, Caught(run, aborted)) && SameRequest(run, Caught(run, aborted))
  {
    var run' := Caught(run, aborted);
    BrokenStepsAreSound(run);
    SameAssignmentsSameHash(run, run');
    hide SameRequest, StepSound, Shape, AllDone, AllQueued;
  }

  /** A run that stops keeps the custody it has. */
  lemma StoppingKeepsCustody(ledger: seq<Event>, run: Run, status: Status)
    requires Custody(ledger, run) && (status == Failed || status == Cancelled || status == Interrupted)
    ensures Custody(ledger, WithStatus(run, status)) && SameRequest(run, WithStatus(run, status))
  {
    var run' := WithStatus(run, status);
    SameAssignmentsSameHash(run, run');
    SameChain(ledger, run, run');
    hide SameRequest, HashOfRequest, Chain, StepKnown;
    if run.publication.Some? {
      assert Told(ledger, run', |run.steps|) && LastFiles(run') == LastFiles(run);
    }
  }

  lemma CaughtKeepsCustody(ledger: seq<Event>, run: Run, aborted: bool)
    requires RunSound(run.id, run) && Custody(ledger, run)
    ensures Custody(ledger, Caught(run, aborted))
  {
    BrokenStepsAreSound(run);
    if run.publication.Some? {
      StoppingKeepsCustody(ledger, run, Caught(run, aborted).status);
      assert Caught(run, aborted) == WithStatus(run, Caught(run, aborted).status);
    }
    hide RunSound, Chain, Told, LastFiles, PlaceAll, StepSound, Shape, AllDone, AllQueued, SameRequest;
  }

  lemma CatchKeeps(ledger: seq<Event>, run: Run, aborted: bool, luck: Luck)
    requires RunSound(run.id, run) && Custody(ledger, run) && TaskSound(ledger, run, Catch)
    ensures ProgressSound(run, ledger, Advance(run, ledger, Catch, aborted, luck))
  {
    StandingStillIsSound(ledger, run);
    CaughtIsSound(run, aborted);
    CaughtKeepsCustody(ledger, run, aborted);
    hide RunSound, Custody, SameRequest;
  }

  lemma FailingKeeps(ledger: seq<Event>, run: Run)
    requires RunSound(run.id, run) && Custody(ledger, run) && run.status != Pending && run.status != Rejected
    ensures RunSound(run.id, WithStatus(run, Failed)) && Custody(ledger, WithStatus(run, Failed)) && SameRequest(run, WithStatus(run, Failed))
  {
    StoppingKeepsCustody(ledger, run, Failed);
    hide SameRequest, Custody, StepSound;
  }

  lemma LateKeeps(ledger: seq<Event>, run: Run, pc: Pc, aborted: bool, luck: Luck)
    requires RunSound(run.id, run) && Custody(ledger, run) && TaskSound(ledger, run, pc)
    requires pc.TellFailure? || pc.Trace? || pc.Outer?
    ensures ProgressSound(run, ledger, Advance(run, ledger, pc, aborted, luck))
  {
    StandingStillIsSound(ledger, run);
    FailingKeeps(ledger, run);
    GrowthKeeps(ledger, ledger + [FailureTold(run.id)], run);
    hide RunSound, Custody, SameRequest;
  }

  lemma QuietKeeps(ledger: seq<Event>, run: Run, pc: Pc, aborted: bool, luck: Luck)
    requires RunSound(run.id, run) && Custody(ledger, run) && TaskSound(ledger, run, pc)
    requires pc.Start? || pc.Loop? || pc.Exec?
    ensures ProgressSound(run, ledger, Advance(run, ledger, pc, aborted, luck))
  {
    StandingStillIsSound(ledger, run);
    hide RunSound, Custody, SameRequest, Verified, StepKnown;
  }

  /** Every step of a worker keeps its run sound, whatever fails. */
  lemma AdvanceKeeps(ledger: seq<Event>, run: Run, pc: Pc, aborted: bool, luck: Luck)
    requires RunSound(run.id, run) && Custody(ledger, run) && TaskSound(ledger, run, pc)
    ensures ProgressSound(run, ledger, Advance(run, ledger, pc, aborted, luck))
  {
    hide *;
    match pc
    case Mark(i) => MarkKeeps(ledger, run, i, aborted, luck);
    case Record(i, out) => RecordKeeps(ledger, run, i, out, aborted, luck);
    case Tell(i, out) => TellKeeps(ledger, run, i, out, aborted, luck);
    case Final => FinalKeeps(ledger, run, aborted, luck);
    case Catch => CatchKeeps(ledger, run, aborted, luck);
    case TellFailure => LateKeeps(ledger, run, pc, aborted, luck);
    case Trace => LateKeeps(ledger, run, pc, aborted, luck);
    case Outer => LateKeeps(ledger, run, pc, aborted, luck);
    case _ => QuietKeeps(ledger, run, pc, aborted, luck);
  }
}
