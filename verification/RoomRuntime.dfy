/**
  The room runtime as the source runs it: a state file changed in place under a queue, a map
  of controllers, and loops over runs, steps and files. Each method does what its move of the
  state machine says, and keeps the invariant.
 */
module RoomRuntime {
  import opened Options
  import opened RoomFiles
  import opened PublicationTree
  import opened RoomMachine
  import opened RoomSafety
  import opened RoomRuns

  /** The inner catch: the status, then every step that was under way. */
  method CatchRun(run: Run, aborted: bool) returns (caught: Run)
    ensures caught == Caught(run, aborted)
  {
    var steps := run.steps;
    for i := 0 to |steps|
      invariant |steps| == |run.steps|
      invariant forall k :: 0 <= k < |steps| ==> steps[k] == if k < i then BrokenSteps(run.steps)[k] else run.steps[k]
    {
      if steps[i].status == Working {
        steps := steps[i := steps[i].(status := Broken)];
      }
    }
    assert steps == BrokenSteps(run.steps);
    caught := run.(status := if run.status == Cancelled || aborted then Cancelled else Failed, steps := steps);
  }

  /** The loop of a restart over all runs. */
  method InterruptRuns(runs: map<Id, Run>) returns (changed: map<Id, Run>)
    ensures changed == InterruptAll(runs)
  {
    changed := runs;
    var todo := runs.Keys;
    while todo != {}
      invariant todo <= runs.Keys == changed.Keys
      invariant forall id :: id in runs ==> changed[id] == if id in todo then runs[id] else InterruptAll(runs)[id]
      decreases todo
    {
      var id :| id in todo;
      if changed[id].status == Running {
        changed := changed[id := WithStatus(changed[id], Interrupted)];
      }
      todo := todo - {id};
    }
  }

  /** The integrity check: request, approval, then every step's output. */
  method VerifyRun(ledger: seq<Event>, run: Run, approved: bool, outputs: bool) returns (ok: bool)
    ensures ok <==> Verified(ledger, run, approved, outputs)
  {
    if !RequestKnown(ledger, run) {
      return false;
    }
    if approved && !ApprovalKnown(ledger, run) {
      return false;
    }
    if outputs {
      for i := 0 to |run.steps|
        invariant forall k :: 0 <= k < i ==> StepKnown(ledger, run.id, run.steps[k])
      {
        if !StepKnown(ledger, run.id, run.steps[i]) {
          assert run.steps[i] in run.steps;
          return false;
        }
      }
    }
    ok := true;
  }

  /** The bundle by path, file after file. */
  method Pack(files: seq<File>) returns (entries: map<string, string>)
    ensures entries == Packed(files)
  {
    entries := map[];
    for i := 0 to |files|
      invariant entries == Packed(files[..i])
    {
      assert files[..i + 1][..i] == files[..i];
      entries := entries[files[i].path := files[i].content];
    }
    assert files[..|files|] == files;
  }

  class RoomRuntime {
    var runs: map<Id, Run>
    var ledger: seq<Event>
    var nextId: Id
    var booted: bool
    var active: map<Id, bool>
    var tasks: map<Id, Pc>
    var asking: set<Id>
    var deciding: set<Decision>
    var publishing: set<Decision>
    var clean: bool

    function Snapshot(): State
      reads this
    {
      State(runs, ledger, nextId, booted, active, tasks, asking, deciding, publishing, clean)
    }

    ghost predicate Valid()
      reads this
    {
      Inv(Snapshot())
    }

    constructor ()
      ensures Valid() && Snapshot() == EMPTY
    {
      runs, ledger, nextId, booted, active, tasks := map[], [], 0, false, map[], map[];
      asking, deciding, publishing, clean := {}, {}, {}, true;
      new;
      EmptyIsSound();
    }

    /** The write at the end of a change. */
    method Save(id: Id, run: Run, fault: Fault) returns (ok: bool)
      modifies this`runs, this`clean
      ensures Snapshot() == Change(old(Snapshot()), id, run, fault) && (ok <==> fault == Fine)
    {
      if fault != Refused {
        runs := runs[id := run];
      }
      clean := clean && fault == Fine;
      ok := fault == Fine;
    }

    method Append(event: Event, fault: Fault) returns (ok: bool)
      modifies this`ledger, this`clean
      ensures Snapshot() == AppendEvent(old(Snapshot()), event, fault) && (ok <==> fault == Fine)
    {
      if fault != Refused {
        ledger := ledger + [event];
      }
      clean := clean && fault == Fine;
      ok := fault == Fine;
    }

    /** A restart interrupts what was running; nothing is replayed. */
    method Initialize(fault: Fault)
      requires Valid()
      modifies this
      ensures Snapshot() == DoBoot(old(Snapshot()), fault)
      ensures Valid()
    {
      hide Inv;
      BootKeeps(Snapshot(), fault);
      if booted {
        return;
      }
      var changed := InterruptRuns(runs);
      if fault != Refused {
        runs := changed;
      }
      booted, clean := fault == Fine, clean && fault == Fine;
    }

    method Request(draft: Draft, fault: Fault)
      requires Valid()
      modifies this
      ensures Snapshot() == DoAsk(old(Snapshot()), draft, fault)
      ensures Valid()
    {
      AskKeeps(Snapshot(), draft, fault);
      if |runs| >= 2000 || |draft.assignments| < 1 || |draft.assignments| > 4 {
        return;
      }
      var id := nextId;
      nextId := nextId + 1;
      var ok := Save(id, Fresh(id, draft), fault);
      if ok {
        asking := asking + {id};
      }
    }

    method Announce(d: Decision, append: Fault) returns (ok: bool)
      requires d.id in runs
      modifies this`deciding, this`ledger, this`clean
      ensures Snapshot() == Announced(old(Snapshot()), d, append) && (ok <==> append == Fine)
    {
      deciding := deciding - {d};
      ok := Append(DecisionEvent(runs[d.id], d), append);
    }

    /** The second half of a decision: still pending, a slot free, told, registered, written. */
    method Decide(d: Decision, append: Fault, fault: Fault) returns (ok: bool)
      requires Valid() && booted && d in deciding && d.id in runs
      modifies this
      ensures Snapshot() == DoDecide(old(Snapshot()), d, append, fault)
      ensures Valid()
      ensures ok <==> Decidable(old(Snapshot()), d) && append == Fine && fault == Fine
    {
      hide Inv, DoDecide, DecisionEvent, DecidedRun;
      DecideKeeps(Snapshot(), d, append, fault);
      DecideUnfolds(Snapshot(), d, append, fault);
      if Decidable(Snapshot(), d) && fault != Refused {
        DecideLandsShape(Snapshot(), d, fault);
      }
      if runs[d.id].status != Pending || (d.approve && |active| >= 2) {
        deciding := deciding - {d};
        return false;
      }
      var run := runs[d.id];
      ok := Announce(d, append);
      if !ok {
        return;
      }
      if d.approve {
        active := active[d.id := false];
      }
      ok := Save(d.id, DecidedRun(run, d), fault);
      if ok && d.approve {
        tasks := tasks[d.id := Start];
      }
    }

    method Cancel(id: Id, fault: Fault) returns (ok: bool)
      requires Valid() && booted
      modifies this
      ensures Snapshot() == DoCancel(old(Snapshot()), id, fault)
      ensures Valid()
      ensures ok ==> id in runs && runs[id].status == Cancelled && (id in active ==> active[id])
    {
      hide Inv;
      CancelKeeps(Snapshot(), id, fault);
      if id !in runs || (runs[id].status != Pending && runs[id].status != Running) {
        return false;
      }
      if id in active {
        active := active[id := true];
      }
      ok := Save(id, runs[id].(status := Cancelled), fault);
    }

    /** A step inside the try block; `next` is where the worker goes on. */
    method Try(id: Id, pc: Pc, luck: Luck) returns (next: Pc)
      requires id in runs && Early(pc)
      modifies this`runs, this`ledger, this`clean
      ensures var p := Advance(old(runs)[id], old(ledger), pc, Aborted(old(Snapshot()), id), luck);
              runs == old(runs)[id := p.run] && ledger == p.ledger && clean == (old(clean) && p.clean) && p.pc == Some(next)
    {
      hide Verified, RoomFiles.Valid, HashOfRequest, Marked, Recorded;
      var run, aborted := runs[id], id in active && active[id];
      var ok := true;
      next := Catch;
      assert runs == runs[id := run];
      match pc
      case Start =>
        if luck.fault != Fine {
          clean, next := false, Outer;
        } else {
          ok := VerifyRun(ledger, run, true, false);
          if ok && luck.ok { next := Loop(0); }
        }
      case Loop(i) =>
        if i >= |run.steps| { next := Final; } else if !aborted { next := Mark(i); }
      case Mark(i) =>
        if luck.ok {
          ok := Save(id, Marked(run, i), luck.fault);
          if ok { next := Exec(i); }
        }
      case Exec(i) =>
        if !aborted && luck.result.Some? {
          ok := ValidateFiles(luck.result.value.files);
          if ok { next := Record(i, luck.result.value); }
        }
      case Record(i, out) =>
        if luck.ok {
          ok := Save(id, Recorded(run, i, out), luck.fault);
          if ok { next := Tell(i, out); }
        }
      case Tell(i, out) =>
        if luck.ok && i < |run.steps| {
          ok := Append(StepTold(run.id, run.steps[i].assignment.agent, OutputHash(out)), luck.fault);
          if ok { next := Loop(i + 1); }
        }
      case Final =>
        ok := Save(id, if run.status == Running then WithStatus(run, Succeeded) else run, luck.fault);
        if ok { next := Trace; }
    }

    /** A step of the handlers: the inner catch, its event, the trace, the outer catch. */
    method WindDown(id: Id, pc: Pc, luck: Luck) returns (next: Option<Pc>)
      requires id in runs && !Early(pc)
      modifies this`runs, this`ledger, this`clean
      ensures var p := Advance(old(runs)[id], old(ledger), pc, Aborted(old(Snapshot()), id), luck);
              runs == old(runs)[id := p.run] && ledger == p.ledger && clean == (old(clean) && p.clean) && next == p.pc
    {
      hide Caught;
      var run, aborted := runs[id], id in active && active[id];
      assert runs == runs[id := run];
      match pc
      case Catch =>
        var caught := CatchRun(run, aborted);
        var ok := Save(id, caught, luck.fault);
        next := Some(if ok then TellFailure else Outer);
      case TellFailure =>
        var ok := Append(FailureTold(run.id), luck.fault);
        next := Some(if ok then Trace else Outer);
      case Trace =>
        if luck.fault == Fine {
          next := None;
        } else {
          clean, next := false, Some(Outer);
        }
      case Outer =>
        var ok := Save(id, WithStatus(run, Failed), luck.fault);
        next := None;
    }

    /** One step of the background worker, up to its next await; when it is over its controller goes with it. */
    method Work(id: Id, luck: Luck)
      requires Valid() && booted && id in tasks && id in runs
      modifies this
      ensures Snapshot() == DoWork(old(Snapshot()), id, luck)
      ensures Valid()
    {
      hide Inv, Advance;
      WorkKeeps(Snapshot(), id, luck);
      if Early(tasks[id]) {
        var next := Try(id, tasks[id], luck);
        tasks := tasks[id := next];
      } else {
        var next := WindDown(id, tasks[id], luck);
        if next.Some? {
          tasks := tasks[id := next.value];
        } else {
          tasks, active := tasks - {id}, active - {id};
        }
      }
    }

    /** The second half of a publication. */
    method Publish(d: Decision, append: Fault, fault: Fault) returns (ok: bool)
      requires Valid() && booted && d in publishing && d.id in runs
      modifies this
      ensures Snapshot() == DoPublish(old(Snapshot()), d, append, fault)
      ensures Valid()
    {
      hide Inv, RoomFiles.Valid, LastFiles, PlaceAll;
      PublishKeeps(Snapshot(), d, append, fault);
      var run := runs[d.id];
      var files := LastFiles(run);
      publishing := publishing - {d};
      if run.status != Succeeded || run.publication.Some? {
        return false;
      }
      ok := ValidateFiles(files);
      if !ok || files == [] {
        return;
      }
      var disk := LayOut(files);
      if disk == None {
        return false;
      }
      ok := Append(Published(d.id, FilesHash(files), d.actor.human), append);
      if ok {
        ok := Save(d.id, run.(publication := Some(Publication(FilesHash(files), d.actor.human, disk.value))), fault);
      }
    }

    /** Every check again, then the bundle. */
    method Download(id: Id) returns (bundle: Option<map<string, string>>)
      ensures bundle == RoomMachine.Download(Snapshot(), id)
    {
      hide Verified, RoomFiles.Valid;
      if id !in runs {
        return None;
      }
      var run := runs[id];
      var ok := VerifyRun(ledger, run, true, true);
      if !ok || run.publication == None {
        return None;
      }
      var files := LastFiles(run);
      ok := ValidateFiles(files);
      if !ok || FilesHash(files) != run.publication.value.hash {
        return None;
      }
      if Published(id, run.publication.value.hash, run.publication.value.publisher) !in ledger {
        return None;
      }
      var entries := Pack(files);
      bundle := Some(entries);
    }
  }
}
