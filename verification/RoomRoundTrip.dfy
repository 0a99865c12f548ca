/**
  The way through: a requested run that nothing goes wrong for is approved, executed step by
  step, published and downloaded, and what comes out is what its last agent produced.
 */
module RoomRoundTrip {
  import opened Options
  import opened RoomFiles
  import opened PublicationTree
  import opened RoomMachine
  import opened RoomSafety
  import opened RoomRuns
  import opened RoomTheorems

  const GOOD := Luck(true, None, Fine)

  /** The moves of one step of a worker: abort check, mark, process, record, audit event. */
  function StepMoves(id: Id, out: Output): seq<Move> {
    [Work(id, GOOD), Work(id, GOOD), Work(id, Luck(true, Some(out), Fine)), Work(id, GOOD), Work(id, GOOD)]
  }

  function StepsMoves(id: Id, outs: seq<Output>): seq<Move> {
    if outs == [] then [] else StepMoves(id, outs[0]) + StepsMoves(id, outs[1..])
  }

  /** From the approval to the end of the last step. */
  function RunMoves(d: Decision, outs: seq<Output>): seq<Move> {
    [CheckDecision(d, true), Decide(d, Fine, Fine), Work(d.id, GOOD)]
    + (StepsMoves(d.id, outs) + [Work(d.id, GOOD), Work(d.id, GOOD)])
  }

  function PublishMoves(d: Decision): seq<Move> {
    [CheckPublication(d, true), Publish(d, Fine, Fine)]
  }

  lemma {:induction false} AfterAppends(s: State, first: seq<Move>, second: seq<Move>)
    ensures After(s, first + second) == After(After(s, first), second)
    decreases |second|
  {
    hide Next;
    if second == [] {
      assert first + second == first;
    } else {
      var init, all := second[..|second| - 1], first + second;
      assert all[..|all| - 1] == first + init && all[|all| - 1] == second[|second| - 1];
      AfterAppends(s, first, init);
    }
  }

  lemma {:induction false} AfterOne(s: State, a: Move)
    ensures After(s, [a]) == Next(s, a)
  {
    hide Next;
    assert [a][..0] == [] && After(s, []) == s;
  }

  lemma {:induction false} AfterFirst(s: State, a: Move, rest: seq<Move>)
    ensures After(s, [a] + rest) == After(Next(s, a), rest)
  {
    hide Next;
    AfterOne(s, a);
    AfterAppends(s, [a], rest);
  }

  /** One step of the worker while nothing fails, as the whole state sees it. */
  lemma {:induction false} WorkStep(s: State, id: Id, luck: Luck)
    requires s.booted && id in s.runs && id in s.tasks
    requires Advance(s.runs[id], s.ledger, s.tasks[id], Aborted(s, id), luck).pc.Some?
    ensures var p := Advance(s.runs[id], s.ledger, s.tasks[id], Aborted(s, id), luck);
            Next(s, Work(id, luck)) == s.(runs := s.runs[id := p.run], ledger := p.ledger, clean := s.clean && p.clean, tasks := s.tasks[id := p.pc.value])
  {
    hide Advance;
  }

  /** The worker is about to do `pc` for a running run that nobody has told to stop. */
  ghost predicate Standing(s: State, id: Id, run: Run, pc: Pc) {
    s.booted && id in s.runs && s.runs[id] == run && id in s.tasks && s.tasks[id] == pc && !Aborted(s, id)
  }

  lemma {:induction false} Goes(s: State, id: Id, run: Run, pc: Pc, luck: Luck, run': Run, pc': Pc)
    requires Standing(s, id, run, pc)
    requires Advance(run, s.ledger, pc, false, luck).pc == Some(pc') && Advance(run, s.ledger, pc, false, luck).run == run'
    ensures Standing(Next(s, Work(id, luck)), id, run', pc')
  {
    WorkStep(s, id, luck);
    hide Advance, Next;
  }

  function Worked(run: Run, i: nat, out: Output): Run {
    Recorded(Marked(run, i), i, out)
  }

  /** What each of the five moves of a step makes of the run, while nothing fails. */
  lemma {:induction false} GoodAdvances(run: Run, ledger: seq<Event>, i: nat, out: Output)
    requires i < |run.steps| && Valid(out.files)
    ensures Advance(run, ledger, Loop(i), false, GOOD) == Stay(run, ledger, Mark(i))
    ensures Advance(run, ledger, Mark(i), false, GOOD) == Stay(Marked(run, i), ledger, Exec(i))
    ensures Advance(run, ledger, Exec(i), false, Luck(true, Some(out), Fine)) == Stay(run, ledger, Record(i, out))
    ensures Advance(run, ledger, Record(i, out), false, GOOD) == Stay(Recorded(run, i, out), ledger, Tell(i, out))
    ensures Advance(run, ledger, Tell(i, out), false, GOOD).run == run
    ensures Advance(run, ledger, Tell(i, out), false, GOOD).pc == Some(Loop(i + 1))
  {
    hide Marked, Recorded, Valid;
  }

  /** Five moves later the step is recorded with its output and told, and the next one is due. */
  lemma {:induction false} OneStepSucceeds(s: State, id: Id, run: Run, i: nat, out: Output)
    requires Standing(s, id, run, Loop(i)) && i < |run.steps| && Valid(out.files)
    ensures Standing(After(s, StepMoves(id, out)), id, Worked(run, i, out), Loop(i + 1))
  {
    var marked := Marked(run, i);
    var worked := Recorded(marked, i, out);
    assert |marked.steps| == |run.steps| == |worked.steps|;
    hide Next, Standing, Marked, Recorded, Valid, Advance, After;
    var a := Next(s, Work(id, GOOD));
    GoodAdvances(run, s.ledger, i, out);
    Goes(s, id, run, Loop(i), GOOD, run, Mark(i));
    var b := Next(a, Work(id, GOOD));
    GoodAdvances(run, a.ledger, i, out);
    Goes(a, id, run, Mark(i), GOOD, marked, Exec(i));
    var c := Next(b, Work(id, Luck(true, Some(out), Fine)));
    GoodAdvances(marked, b.ledger, i, out);
    Goes(b, id, marked, Exec(i), Luck(true, Some(out), Fine), marked, Record(i, out));
    var d := Next(c, Work(id, GOOD));
    GoodAdvances(marked, c.ledger, i, out);
    Goes(c, id, marked, Record(i, out), GOOD, worked, Tell(i, out));
    GoodAdvances(worked, d.ledger, i, out);
    Goes(d, id, worked, Tell(i, out), GOOD, worked, Loop(i + 1));
    AfterFive(s, Work(id, GOOD), Work(id, GOOD), Work(id, Luck(true, Some(out), Fine)), Work(id, GOOD), Work(id, GOOD));
  }

  lemma {:induction false} AfterFive(s: State, a: Move, b: Move, c: Move, d: Move, e: Move)
    ensures After(s, [a, b, c, d, e]) == Next(Next(Next(Next(Next(s, a), b), c), d), e)
  {
    hide Next, After;
    AfterFirst(s, a, [b, c, d, e]);
    assert [a] + [b, c, d, e] == [a, b, c, d, e];
    AfterFirst(Next(s, a), b, [c, d, e]);
    assert [b] + [c, d, e] == [b, c, d, e];
    AfterFirst(Next(Next(s, a), b), c, [d, e]);
    assert [c] + [d, e] == [c, d, e];
    AfterTwo(Next(Next(Next(s, a), b), c), d, e);
  }

  lemma {:induction false} AfterTwo(s: State, a: Move, b: Move)
    ensures After(s, [a, b]) == Next(Next(s, a), b)
  {
    hide Next, After;
    AfterFirst(s, a, [b]);
    assert [a] + [b] == [a, b];
    AfterOne(Next(s, a), b);
  }

  /** The outputs of the steps from `i` on are the given ones. */
  ghost predicate Produced(run: Run, i: nat, outs: seq<Output>) {
    i + |outs| == |run.steps| && forall k :: 0 <= k < |outs| ==> run.steps[i + k].output == Some(outs[k])
  }

  /** Only step `i` differs. */
  lemma {:induction false} WorkedChangesOneStep(run: Run, i: nat, out: Output)
    requires i < |run.steps|
    ensures var run' := Worked(run, i, out);
            && run' == run.(steps := run'.steps) && |run'.steps| == |run.steps| && run'.steps[i].output == Some(out)
            && forall k :: 0 <= k < |run.steps| && k != i ==> run'.steps[k] == run.steps[k]
  {
  }

  /** The remaining steps succeed one after another, each with its own output. */
  lemma {:induction false} StepsSucceed(s: State, id: Id, run: Run, i: nat, outs: seq<Output>) returns (last: Run)
    requires Standing(s, id, run, Loop(i)) && i + |outs| == |run.steps|
    requires forall out :: out in outs ==> Valid(out.files)
    ensures Standing(After(s, StepsMoves(id, outs)), id, last, Loop(|run.steps|))
    ensures last == run.(steps := last.steps) && Produced(last, i, outs)
    ensures forall k :: 0 <= k < i ==> last.steps[k] == run.steps[k]
    decreases |outs|
  {
    hide Standing, StepMoves, Valid, Worked;
    if outs == [] {
      last := run;
    } else {
      OneStepSucceeds(s, id, run, i, outs[0]);
      WorkedChangesOneStep(run, i, outs[0]);
      AfterAppends(s, StepMoves(id, outs[0]), StepsMoves(id, outs[1..]));
      last := StepsSucceed(After(s, StepMoves(id, outs[0])), id, Worked(run, i, outs[0]), i + 1, outs[1..]);
      forall k | 0 <= k < |outs| ensures last.steps[i + k].output == Some(outs[k]) {
        if k > 0 {
          assert last.steps[i + 1 + (k - 1)].output == Some(outs[1..][k - 1]);
        }
      }
    }
  }

  /** The request is on record, the actor may decide it, and a slot is free. */
  ghost predicate Approvable(s: State, d: Decision) {
    && s.booted && d.approve && d.id in s.runs && s.runs[d.id].status == Pending && |s.active| < 2
    && RequestKnown(s.ledger, s.runs[d.id]) && !(d.actor.named && s.runs[d.id].requester == d.actor.human)
  }

  /** A request that is stored and told to the ledger is on record and waits for a decision. */
  lemma {:induction false} RequestsAreOnRecord(s: State, draft: Draft)
    requires Inv(s) && s.booted && |s.runs| < 2000 && 1 <= |draft.assignments| <= 4
    ensures var t := After(s, [Ask(draft, Fine), TellAsk(s.nextId, Fine)]);
            && t.booted && t.active == s.active && s.nextId in t.runs && t.runs[s.nextId] == Fresh(s.nextId, draft)
            && t.runs[s.nextId].status == Pending && RequestKnown(t.ledger, t.runs[s.nextId])
  {
    var run := Fresh(s.nextId, draft);
    AfterTwo(s, Ask(draft, Fine), TellAsk(s.nextId, Fine));
    assert run.status == Pending && run.id == s.nextId;
    var event := Requested(s.nextId, HashOfRequest(run), run.requester);
    assert event in s.ledger + [event];
    hide Inv, After, Fresh, HashOfRequest;
  }

  lemma {:induction false} ApprovalIsOnRecord(ledger: seq<Event>, run: Run, d: Decision)
    requires RequestKnown(ledger, run) && d.approve && d.id == run.id
    ensures Verified(ledger + [DecisionEvent(run, d)], DecidedRun(run, d), true, false)
  {
    var event := Approved(d.id, HashOfRequest(run), d.actor.human);
    assert DecisionEvent(run, d) == event && event in ledger + [event];
    SameAssignmentsSameHash(run, DecidedRun(run, d));
    hide HashOfRequest;
  }

  lemma {:induction false} CheckAdmits(s: State, d: Decision)
    requires Approvable(s, d)
    ensures Next(s, CheckDecision(d, true)) == s.(deciding := s.deciding + {d})
    ensures Decidable(s.(deciding := s.deciding + {d}), d)
  {
    hide HashOfRequest;
  }

  lemma {:induction false} ApprovalLandsOn(checked: State, d: Decision)
    requires checked.booted && d.approve && Decidable(checked, d)
    ensures var t := Next(checked, Decide(d, Fine, Fine));
            Standing(t, d.id, DecidedRun(checked.runs[d.id], d), Start) && t.ledger == checked.ledger + [DecisionEvent(checked.runs[d.id], d)]
  {
    NextUnfolds(checked, Decide(d, Fine, Fine));
    DecideLandsShape(checked, d, Fine);
    hide Next, DoDecide, DecisionEvent, DecidedRun, HashOfRequest;
  }

  lemma {:induction false} ApprovalStarts(s: State, d: Decision)
    requires Inv(s) && Approvable(s, d)
    ensures var t := After(s, [CheckDecision(d, true), Decide(d, Fine, Fine)]);
            Standing(t, d.id, DecidedRun(s.runs[d.id], d), Start) && Verified(t.ledger, DecidedRun(s.runs[d.id], d), true, false)
  {
    var run, checked := s.runs[d.id], s.(deciding := s.deciding + {d});
    RunHasItsId(s, d.id);
    assert d.approve && s.booted && RequestKnown(s.ledger, run) && checked.runs == s.runs && checked.booted;
    hide *;
    AfterTwo(s, CheckDecision(d, true), Decide(d, Fine, Fine));
    CheckAdmits(s, d);
    ApprovalLandsOn(checked, d);
    ApprovalIsOnRecord(s.ledger, run, d);
  }

  lemma {:induction false} RunMovesSplit(s: State, d: Decision, outs: seq<Output>)
    ensures var t := After(s, [CheckDecision(d, true), Decide(d, Fine, Fine)]);
            var u := After(Next(t, Work(d.id, GOOD)), StepsMoves(d.id, outs));
            After(s, RunMoves(d, outs)) == Next(Next(u, Work(d.id, GOOD)), Work(d.id, GOOD))
  {
    hide Next, After, StepsMoves;
    var start, steps, end := [CheckDecision(d, true), Decide(d, Fine, Fine)], StepsMoves(d.id, outs), [Work(d.id, GOOD), Work(d.id, GOOD)];
    assert RunMoves(d, outs) == start + ([Work(d.id, GOOD)] + (steps + end));
    AfterAppends(s, start, [Work(d.id, GOOD)] + (steps + end));
    var t := After(s, start);
    AfterFirst(t, Work(d.id, GOOD), steps + end);
    AfterAppends(Next(t, Work(d.id, GOOD)), steps, end);
    AfterTwo(After(Next(t, Work(d.id, GOOD)), steps), Work(d.id, GOOD), Work(d.id, GOOD));
  }

  lemma {:induction false} WorkBegins(s: State, id: Id, run: Run)
    requires Standing(s, id, run, Start) && Verified(s.ledger, run, true, false)
    ensures Standing(Next(s, Work(id, GOOD)), id, run, Loop(0))
  {
    hide Verified, Next, Standing;
    Goes(s, id, run, Start, GOOD, run, Loop(0));
  }

  lemma {:induction false} WorkEnds(s: State, id: Id, run: Run)
    requires Standing(s, id, run, Loop(|run.steps|)) && run.status == Running
    ensures Standing(Next(Next(s, Work(id, GOOD)), Work(id, GOOD)), id, WithStatus(run, Succeeded), Trace)
  {
    hide Next, Standing;
    Goes(s, id, run, Loop(|run.steps|), GOOD, run, Final);
    Goes(Next(s, Work(id, GOOD)), id, run, Final, GOOD, WithStatus(run, Succeeded), Trace);
  }

  /** An approved run that nothing goes wrong for succeeds, and its steps keep what its agents produced. */
  lemma {:induction false} LuckyRunSucceeds(s: State, d: Decision, outs: seq<Output>)
    requires Inv(s) && Approvable(s, d) && |outs| == |s.runs[d.id].steps| && forall out :: out in outs ==> Valid(out.files)
    ensures var t := After(s, RunMoves(d, outs));
            && t.booted && d.id in t.runs && t.runs[d.id].status == Succeeded && t.runs[d.id].publication == s.runs[d.id].publication
            && t.runs[d.id].requester == s.runs[d.id].requester && Produced(t.runs[d.id], 0, outs)
  {
    var run := DecidedRun(s.runs[d.id], d);
    assert run.status == Running && run.requester == s.runs[d.id].requester && run.publication == s.runs[d.id].publication && run.steps == s.runs[d.id].steps;
    hide Next, After, Standing, Verified, Inv, Valid, RunMoves, StepsMoves, DecidedRun, Approvable, Produced;
    ApprovalStarts(s, d);
    RunMovesSplit(s, d, outs);
    var t := After(s, [CheckDecision(d, true), Decide(d, Fine, Fine)]);
    WorkBegins(t, d.id, run);
    var last := StepsSucceed(Next(t, Work(d.id, GOOD)), d.id, run, 0, outs);
    var u := After(Next(t, Work(d.id, GOOD)), StepsMoves(d.id, outs));
    assert |last.steps| == |run.steps|;
    WorkEnds(u, d.id, last);
    StandingIs(Next(Next(u, Work(d.id, GOOD)), Work(d.id, GOOD)), d.id, WithStatus(last, Succeeded), Trace);
  }

  lemma {:induction false} StandingIs(s: State, id: Id, run: Run, pc: Pc)
    requires Standing(s, id, run, pc)
    ensures s.booted && id in s.runs && s.runs[id] == run
  {
  }

  lemma {:induction false} SucceededRunPasses(s: State, id: Id)
    requires Inv(s) && id in s.runs && s.runs[id].status == Succeeded
    ensures Verified(s.ledger, s.runs[id], true, true) && Valid(LastFiles(s.runs[id]))
  {
    hide Inv, Verified, Valid, LastFiles, PlaceAll, Chain, StepSound, StepKnown;
    RunHasItsIdIn(s, id);
    SoundRunIsVerified(s.ledger, s.runs[id]);
    LastFilesAreValid(id, s.runs[id]);
  }

  lemma {:induction false} RunHasItsIdIn(s: State, id: Id)
    requires Inv(s) && id in s.runs
    ensures RunSound(id, s.runs[id]) && Custody(s.ledger, s.runs[id])
  {
    hide RunSound, Custody;
    RunHasItsId(s, id);
  }

  lemma {:induction false} CheckPasses(s: State, d: Decision)
    requires s.booted && d.id in s.runs && Verified(s.ledger, s.runs[d.id], true, true)
    requires !(d.actor.named && s.runs[d.id].requester == d.actor.human)
    ensures Next(s, CheckPublication(d, true)) == s.(publishing := s.publishing + {d})
  {
    hide Verified;
  }

  lemma {:induction false} PublishingChanges(s: State, d: Decision)
    requires s.booted && d in s.publishing && d.id in s.runs
    ensures d.id in Next(s, Publish(d, Fine, Fine)).runs
    ensures Next(s, Publish(d, Fine, Fine)).runs[d.id] == if Publishable(s, d) then PublishedRun(s.runs[d.id], d.actor.human) else s.runs[d.id]
  {
    hide Next, DoPublish, Publishable, PublishedRun, LastFiles;
    NextUnfolds(s, Publish(d, Fine, Fine));
    PublishUnfolds(s, d, Fine, Fine);
  }

  /** A bundle that can be published: there are files, and none of their paths lies inside another. */
  predicate Deliverable(files: seq<File>) {
    files != [] && NoneInside(files)
  }

  lemma {:induction false} DeliverableIsPublishable(s: State, d: Decision)
    requires d in s.publishing && d.id in s.runs && s.runs[d.id].status == Succeeded && s.runs[d.id].publication == None
    requires Valid(LastFiles(s.runs[d.id]))
    ensures Publishable(s, d) <==> Deliverable(LastFiles(s.runs[d.id]))
  {
    hide LastFiles, PlaceAll, NoneInside, SafePath, Size;
    LandsIff(LastFiles(s.runs[d.id]));
  }

  lemma {:induction false} CheckedThenPublished(s: State, d: Decision)
    requires Inv(s) && s.booted && d.id in s.runs && s.runs[d.id].status == Succeeded && s.runs[d.id].publication == None
    requires !(d.actor.named && s.runs[d.id].requester == d.actor.human)
    ensures var t := After(s, PublishMoves(d));
            d.id in t.runs && t.runs[d.id] ==
              if Deliverable(LastFiles(s.runs[d.id])) then PublishedRun(s.runs[d.id], d.actor.human) else s.runs[d.id]
  {
    hide Inv, Verified, Valid, LastFiles, PlaceAll, After, Next, PublishedRun, Publishable, Deliverable;
    AfterTwo(s, CheckPublication(d, true), Publish(d, Fine, Fine));
    SucceededRunPasses(s, d.id);
    CheckPasses(s, d);
    DeliverableIsPublishable(s.(publishing := s.publishing + {d}), d);
    PublishingChanges(s.(publishing := s.publishing + {d}), d);
  }

  /**
    The whole way: a run with its request on record, approved by one person and published by
    another while nothing fails, can be downloaded exactly if its last agent produced files
    none of whose paths lies inside another; and the download is that bundle.
   */
  lemma {:induction false} ApprovedRunsDeliver(moves: seq<Move>, d: Decision, p: Decision, outs: seq<Output>)
    requires var s := After(EMPTY, moves);
             && Approvable(s, d) && p.id == d.id && !(p.actor.named && s.runs[d.id].requester == p.actor.human)
             && |outs| == |s.runs[d.id].steps| && outs != [] && forall out :: out in outs ==> Valid(out.files)
    ensures var files := outs[|outs| - 1].files;
            Download(After(EMPTY, moves + (RunMoves(d, outs) + PublishMoves(p))), d.id) == if Deliverable(files) then Some(Packed(files)) else None
  {
    var s := After(EMPTY, moves);
    var all := moves + (RunMoves(d, outs) + PublishMoves(p));
    EmptyIsSound();
    AfterKeeps(EMPTY, moves);
    AfterAppends(EMPTY, moves, RunMoves(d, outs) + PublishMoves(p));
    AfterAppends(s, RunMoves(d, outs), PublishMoves(p));
    PendingIsUnpublished(s, d.id);
    LuckyRunSucceeds(s, d, outs);
    var t := After(s, RunMoves(d, outs));
    AfterKeeps(s, RunMoves(d, outs));
    assert LastFiles(t.runs[d.id]) == outs[|outs| - 1].files by {
      LastFilesOf(t.runs[d.id], outs);
    }
    hide Next, After, Inv, Valid, Packed, Download, RunMoves, PublishMoves, LastFiles, PlaceAll, Approvable, Deliverable, Holds, Produced, PublishedRun;
    CheckedThenPublished(t, p);
    PublishedKeepsFiles(t.runs[d.id], p.actor.human);
    DownloadReturnsThePublishedFiles(all, d.id);
  }

  lemma {:induction false} NestedIsNotDeliverable()
    ensures Valid(NESTED) && !NoneInside(NESTED)
  {
    NestedIsValid();
    hide SafePath, Size, Split, PlaceAll, NoneInside;
    LandsIff(NESTED);
  }

  /**
    A bundle that is accepted at every step, a file beside files below its own name: with
    everything working its run succeeds, and is never published by whatever comes after.
   */
  lemma {:induction false} NestedRunSucceedsForNothing(s: State, d: Decision, outs: seq<Output>, moves: seq<Move>)
    requires Inv(s) && Approvable(s, d) && |outs| == |s.runs[d.id].steps| && outs != [] && outs[|outs| - 1].files == NESTED
    requires forall out :: out in outs ==> Valid(out.files)
    ensures var t := After(s, RunMoves(d, outs));
            && d.id in t.runs && t.runs[d.id].status == Succeeded
            && d.id in After(t, moves).runs && After(t, moves).runs[d.id].publication == None && Download(After(t, moves), d.id) == None
  {
    var t := After(s, RunMoves(d, outs));
    hide *;
    LuckyRunSucceeds(s, d, outs);
    AfterKeeps(s, RunMoves(d, outs));
    LastFilesOf(t.runs[d.id], outs);
    NestedIsNotDeliverable();
    SucceededIsDone(t, d.id);
    NestedBundleIsNeverPublished(t, moves, d.id);
  }

  lemma {:induction false} SucceededIsDone(s: State, id: Id)
    requires Inv(s) && id in s.runs && s.runs[id].status == Succeeded
    ensures AllDone(s.runs[id].steps)
  {
    RunHasItsIdIn(s, id);
    hide Inv, Custody, StepSound, Shape, AllDone;
  }

  lemma {:induction false} PublishedKeepsFiles(run: Run, human: string)
    ensures PublishedRun(run, human).publication.Some? && LastFiles(PublishedRun(run, human)) == LastFiles(run)
  {
  }

  lemma {:induction false} LastFilesOf(run: Run, outs: seq<Output>)
    requires Produced(run, 0, outs) && outs != []
    ensures LastFiles(run) == outs[|outs| - 1].files
  {
    assert run.steps[0 + (|outs| - 1)].output == Some(outs[|outs| - 1]);
  }

  lemma {:induction false} PendingIsUnpublished(s: State, id: Id)
    requires Inv(s) && id in s.runs && s.runs[id].status == Pending
    ensures s.runs[id].publication == None
  {
    RunHasItsId(s, id);
    hide Inv, Custody;
  }
}
