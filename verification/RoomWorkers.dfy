/**
  How a background worker ends when something goes wrong: what makes it stumble, and what
  becomes of its run, its steps and its slot.
 */
module RoomWorkers {
  import opened Options
  import opened RoomFiles
  import opened PublicationTree
  import opened RoomMachine
  import opened RoomSafety
  import opened RoomRuns
  import opened RoomTheorems
  import opened RoomReviewers
  import opened RoomRoundTrip

  /** Somebody approved exactly this request, and that is on record. */
  ghost predicate ApprovalOnRecord(ledger: seq<Event>, run: Run) {
    OnRecord(ledger, run) && exists human :: run.approver == Some(human) && Approved(run.id, RequestHash(Asked(run)), human) in ledger
  }

  /**
    What the worker is about to do fails: an unapproved or inaccessible run at the start; an
    abort before a step or during its process; no result, or files that are not accepted; lost
    authority before or after the process or at the audit event; or a write that is not
    acknowledged.
   */
  ghost predicate Stumbles(s: State, id: Id, luck: Luck)
    requires id in s.runs && id in s.tasks
  {
    var run := s.runs[id];
    match s.tasks[id]
    case Start => luck.fault == Fine && !(luck.ok && ApprovalOnRecord(s.ledger, run))
    case Loop(i) => i < |run.steps| && Aborted(s, id)
    case Mark(_) => !luck.ok || luck.fault != Fine
    case Exec(_) => Aborted(s, id) || luck.result == None || !Valid(luck.result.value.files)
    case Record(_, _) => !luck.ok || luck.fault != Fine
    case Tell(i, _) => !luck.ok || luck.fault != Fine || i >= |run.steps|
    case Final => luck.fault != Fine
    case _ => false
  }

  /** Where the worker goes if it does not stumble. */
  function GoesOn(run: Run, pc: Pc, luck: Luck): Pc {
    match pc
    case Start => Loop(0)
    case Loop(i) => if i < |run.steps| then Mark(i) else Final
    case Mark(i) => Exec(i)
    case Exec(i) => if luck.result.Some? then Record(i, luck.result.value) else Catch
    case Record(i, out) => Tell(i, out)
    case Tell(i, _) => Loop(i + 1)
    case _ => Trace
  }

  predicate AtWork(pc: Pc) {
    !pc.Catch? && !pc.TellFailure? && !pc.Trace? && !pc.Outer?
  }

  lemma VerifiedApproval(ledger: seq<Event>, run: Run)
    ensures Verified(ledger, run, true, false) <==> ApprovalOnRecord(ledger, run)
  {
    AskedIsHashed(run);
    VerifiedMeans(ledger, run);
    hide HashOfRequest, Asked;
  }

  /** One move of the worker: it goes on exactly if it does not stumble, and else is caught. */
  lemma {:induction false} StumblesIff(s: State, id: Id, luck: Luck)
    requires s.booted && id in s.runs && id in s.tasks && AtWork(s.tasks[id]) && (s.tasks[id].Start? ==> luck.fault == Fine)
    ensures var t := Next(s, Work(id, luck));
            && id in t.tasks && t.active == s.active && t.booted
            && t.tasks[id] == if Stumbles(s, id, luck) then Catch else GoesOn(s.runs[id], s.tasks[id], luck)
  {
    VerifiedApproval(s.ledger, s.runs[id]);
    hide Verified, ApprovalOnRecord, Valid, Marked, Recorded;
  }

  /** What the move in which it stumbles can still have done: a write may have landed after all. */
  lemma {:induction false} StumblingKeeps(s: State, id: Id, luck: Luck)
    requires s.booted && id in s.runs && id in s.tasks && AtWork(s.tasks[id]) && Stumbles(s, id, luck)
    ensures var t := Next(s, Work(id, luck));
            && t.runs.Keys == s.runs.Keys && (forall other :: other in s.runs && other != id ==> t.runs[other] == s.runs[other])
            && (t.runs[id].status == Cancelled <==> s.runs[id].status == Cancelled)
            && |t.runs[id].steps| == |s.runs[id].steps| && t.runs[id].id == s.runs[id].id
            && (luck.fault == Fine || luck.fault == Refused ==> t.runs == s.runs && t.ledger == s.ledger)
  {
    hide Verified, ApprovalOnRecord, Valid;
  }

  /** Steps under way have failed; everything else of them is as it was. */
  ghost predicate WoundUp(steps: seq<Step>, after: seq<Step>) {
    |after| == |steps| && forall i :: 0 <= i < |steps| ==>
      after[i] == if steps[i].status == Working then steps[i].(status := Broken) else steps[i]
  }

  /** Three moves from the catch to the end, while the storage holds. */
  lemma {:induction false} CatchEnds(s: State, id: Id)
    requires s.booted && id in s.runs && id in s.tasks && s.tasks[id] == Catch
    ensures var t := Next(Next(Next(s, Work(id, GOOD)), Work(id, GOOD)), Work(id, GOOD));
            var run := s.runs[id];
            && id !in t.tasks && id !in t.active && t.ledger == s.ledger + [FailureTold(run.id)]
            && t.runs.Keys == s.runs.Keys && (forall other :: other in s.runs && other != id ==> t.runs[other] == s.runs[other])
            && t.runs[id] == run.(status := if run.status == Cancelled || Aborted(s, id) then Cancelled else Failed, steps := t.runs[id].steps)
            && WoundUp(run.steps, t.runs[id].steps)
  {
    var a := Next(s, Work(id, GOOD));
    var run' := Caught(s.runs[id], Aborted(s, id));
    assert a == s.(runs := s.runs[id := run'], tasks := s.tasks[id := TellFailure]);
    var b := Next(a, Work(id, GOOD));
    assert b == a.(ledger := a.ledger + [FailureTold(run'.id)], tasks := a.tasks[id := Trace]);
    var c := Next(b, Work(id, GOOD));
    assert c == b.(tasks := b.tasks - {id}, active := b.active - {id});
  }

  /**
    Whatever a worker stumbles over, while the storage holds from then on: its run is failed,
    or cancelled if it was cancelled or aborted; no step of it is left under way; the failure
    is told; its worker and its slot are gone; and no other run is touched.
   */
  lemma {:induction false} StumblingEnds(s: State, id: Id, luck: Luck)
    requires s.booted && id in s.runs && id in s.tasks && AtWork(s.tasks[id]) && Stumbles(s, id, luck)
    ensures var u := Next(s, Work(id, luck));
            var t := After(s, [Work(id, luck), Work(id, GOOD), Work(id, GOOD), Work(id, GOOD)]);
            && id in t.runs && id !in t.tasks && id !in t.active
            && id in u.runs && WoundUp(u.runs[id].steps, t.runs[id].steps)
            && t.runs[id].status == (if s.runs[id].status == Cancelled || Aborted(s, id) then Cancelled else Failed)
            && t.ledger == u.ledger + [FailureTold(s.runs[id].id)]
            && (forall other :: other in s.runs && other != id ==> other in t.runs && t.runs[other] == s.runs[other])
  {
    StumblesIff(s, id, luck);
    StumblingKeeps(s, id, luck);
    AfterFour(s, Work(id, luck), Work(id, GOOD), Work(id, GOOD), Work(id, GOOD));
    hide Next, After, Stumbles, WoundUp;
    CatchEnds(Next(s, Work(id, luck)), id);
  }

  lemma {:induction false} AfterFour(s: State, a: Move, b: Move, c: Move, d: Move)
    ensures After(s, [a, b, c, d]) == Next(Next(Next(Next(s, a), b), c), d)
  {
    hide Next, After;
    AfterFirst(s, a, [b, c, d]);
    assert [a] + [b, c, d] == [a, b, c, d];
    AfterFirst(Next(s, a), b, [c, d]);
    assert [b] + [c, d] == [b, c, d];
    AfterTwo(Next(Next(s, a), b), c, d);
  }

  /**
    A write that is not acknowledged where nothing catches it any more, of the workspace at the
    start or in winding up, leaves the run failed, whatever it was before, and frees its slot.
   */
  lemma {:induction false} WreckedEnds(s: State, id: Id, luck: Luck)
    requires s.booted && id in s.runs && id in s.tasks && luck.fault != Fine
    requires s.tasks[id] == Start || s.tasks[id] == Catch || s.tasks[id] == TellFailure || s.tasks[id] == Trace
    ensures var t := After(s, [Work(id, luck), Work(id, GOOD)]);
            id in t.runs && t.runs[id].status == Failed && id !in t.tasks && id !in t.active
  {
    AfterTwo(s, Work(id, luck), Work(id, GOOD));
    hide Caught, Verified;
  }

  // -------------------------------------------------------------------------- the rest

  /** A crash takes workers, slots and passed checks with it, and nothing that is on disk. */
  lemma CrashForgets(s: State)
    ensures var t := Next(s, Crash);
            && t.active == map[] && t.tasks == map[] && t.asking == {} && t.deciding == {} && t.publishing == {}
            && t.runs == s.runs && t.ledger == s.ledger && !t.booted
  {
  }

  /** A start that comes up has interrupted exactly the running runs. */
  lemma BootInterrupts(s: State)
    requires !s.booted
    ensures var t := Next(s, Boot(Fine));
            && t.booted && t.ledger == s.ledger && t.runs.Keys == s.runs.Keys
            && forall id :: id in s.runs ==> t.runs[id] == if s.runs[id].status == Running then s.runs[id].(status := Interrupted) else s.runs[id]
  {
  }

  /** In any state a download answers exactly for a published bundle that is witnessed from request to publication. */
  lemma {:induction false} DownloadAnswersIff(s: State, id: Id)
    requires id in s.runs
    ensures var run := s.runs[id];
            Download(s, id).Some? <==>
              && Witnessed(s.ledger, run) && run.publication.Some? && Valid(LastFiles(run))
              && run.publication.value.hash == FilesHash(LastFiles(run))
              && Published(id, run.publication.value.hash, run.publication.value.publisher) in s.ledger
    ensures Download(s, id).Some? ==> Download(s, id) == Some(Packed(LastFiles(s.runs[id])))
  {
    VerifiedMeans(s.ledger, s.runs[id]);
    hide Verified, Witnessed, Valid, LastFiles, Packed;
  }
}
