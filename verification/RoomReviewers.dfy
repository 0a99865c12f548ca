/**
  Who may decide and publish room runs: the checks before either, in terms of runs and ledger
  alone, and what they come to over every interleaving.
 */
module RoomReviewers {
  import opened Options
  import opened RoomFiles
  import opened PublicationTree
  import opened RoomMachine
  import opened RoomSafety
  import opened RoomRuns
  import opened RoomTheorems

  // ------------------------------------------------------------- what the checks ask for

  /** The fields of a run that its requester vouched for. */
  function Asked(run: Run): Request {
    Request(run.id, run.room, run.title, run.objective, run.requester, run.at, run.memories,
            seq(|run.steps|, i requires 0 <= i < |run.steps| => run.steps[i].assignment))
  }

  /** The ledger holds its requester's request for exactly this run. */
  ghost predicate OnRecord(ledger: seq<Event>, run: Run) {
    exists e :: e in ledger && e == Requested(run.id, RequestHash(Asked(run)), run.requester)
  }

  /** ... its approver's approval of exactly this request, and the output of every step by its agent. */
  ghost predicate Witnessed(ledger: seq<Event>, run: Run) {
    && OnRecord(ledger, run)
    && (exists human :: run.approver == Some(human) && Approved(run.id, RequestHash(Asked(run)), human) in ledger)
    && (forall i :: 0 <= i < |run.steps| ==>
          && run.steps[i].status == Done && run.steps[i].output.Some?
          && run.steps[i].hash == Some(OutputHash(run.steps[i].output.value))
          && StepTold(run.id, run.steps[i].assignment.agent, OutputHash(run.steps[i].output.value)) in ledger)
  }

  predicate OwnRun(run: Run, actor: Actor) {
    actor.named && actor.human == run.requester
  }

  lemma AskedIsHashed(run: Run)
    ensures HashOfRequest(run) == RequestHash(Asked(run))
  {
    assert Assignments(run.steps) == Asked(run).assignments;
  }

  lemma VerifiedMeans(ledger: seq<Event>, run: Run)
    ensures Verified(ledger, run, false, false) <==> OnRecord(ledger, run)
    ensures Verified(ledger, run, true, true) <==> Witnessed(ledger, run)
  {
    AskedIsHashed(run);
    hide HashOfRequest, Asked;
    if Verified(ledger, run, true, true) {
      assert forall i :: 0 <= i < |run.steps| ==> run.steps[i] in run.steps;
      assert forall i :: 0 <= i < |run.steps| ==> StepKnown(ledger, run.id, run.steps[i]);
    }
  }

  /**
    The check before a decision lets one through exactly if the actor is allowed, the request
    is on record as it stands, and it is no named user's own; else it changes nothing.
   */
  lemma DecisionIsAdmittedIff(s: State, d: Decision, allowed: bool)
    requires s.booted
    ensures var admitted := allowed && d.id in s.runs && OnRecord(s.ledger, s.runs[d.id]) && !OwnRun(s.runs[d.id], d.actor);
            Next(s, CheckDecision(d, allowed)) == if admitted then s.(deciding := s.deciding + {d}) else s
  {
    if d.id in s.runs {
      VerifiedMeans(s.ledger, s.runs[d.id]);
    }
    hide Verified, OnRecord;
  }

  /**
    The check before a publication lets it through exactly if the actor is allowed, the run is
    witnessed from request to last output, and it is no named user's own; else it changes nothing.
   */
  lemma PublicationIsAdmittedIff(s: State, d: Decision, allowed: bool)
    requires s.booted
    ensures var admitted := allowed && d.id in s.runs && Witnessed(s.ledger, s.runs[d.id]) && !OwnRun(s.runs[d.id], d.actor);
            Next(s, CheckPublication(d, allowed)) == if admitted then s.(publishing := s.publishing + {d}) else s
  {
    if d.id in s.runs {
      VerifiedMeans(s.ledger, s.runs[d.id]);
    }
    hide Verified, Witnessed;
  }

  // ------------------------------------------------------------------ four eyes on the files

  /** Whoever published a run, or has passed the checks to publish it, did not request it. */
  ghost predicate FourEyesOnFiles(s: State) {
    && (forall d :: d in s.publishing ==> d.id in s.runs && d.actor.human != s.runs[d.id].requester)
    && (forall id :: id in s.runs && s.runs[id].publication.Some? ==> s.runs[id].publication.value.publisher != s.runs[id].requester)
  }

  /** A publisher is the actor of a publication that has passed its checks. */
  predicate PublishedBy(s: State, s': State, move: Move, id: Id)
    requires id in s'.runs
  {
    && move.Publish? && move.decision in s.publishing && move.decision.id == id
    && s'.runs[id].publication.Some? && s'.runs[id].publication.value.publisher == move.decision.actor.human
  }

  lemma DecidingPublishesNobody(s: State, d: Decision, append: Fault, fault: Fault)
    ensures DoDecide(s, d, append, fault).publishing == s.publishing
  {
    hide HashOfRequest, DecidedRun;
  }

  lemma PublishingOnlyLeaves(s: State, d: Decision, append: Fault, fault: Fault)
    ensures DoPublish(s, d, append, fault).publishing <= s.publishing
  {
    hide LastFiles, PlaceAll, Valid;
  }

  lemma PublishersPassedTheCheck(s: State, move: Move, d: Decision)
    requires d in Next(s, move).publishing
    ensures d in s.publishing || (move.CheckPublication? && move.decision == d && d.id in s.runs && !OwnRun(s.runs[d.id], d.actor))
  {
    hide Advance, HashOfRequest, Verified, LastFiles, PlaceAll, Valid, DoDecide, DoPublish, Fresh, InterruptAll;
    match move
    case Decide(e, append, fault) => DecidingPublishesNobody(s, e, append, fault);
    case Publish(e, append, fault) => PublishingOnlyLeaves(s, e, append, fault);
    case _ =>
  }

  lemma AdvanceKeepsPublication(run: Run, ledger: seq<Event>, pc: Pc, aborted: bool, luck: Luck)
    ensures Advance(run, ledger, pc, aborted, luck).run.publication == run.publication
  {
    hide Verified, Valid, BrokenSteps;
  }

  lemma DecidingKeepsPublication(s: State, d: Decision, append: Fault, fault: Fault, id: Id)
    requires id in s.runs
    ensures id in DoDecide(s, d, append, fault).runs && DoDecide(s, d, append, fault).runs[id].publication == s.runs[id].publication
  {
    hide HashOfRequest;
  }

  lemma PublishingPublishes(s: State, d: Decision, append: Fault, fault: Fault, id: Id)
    requires id in s.runs
    ensures var s' := DoPublish(s, d, append, fault);
            && id in s'.runs
            && (s'.runs[id].publication == s.runs[id].publication || PublishedBy(s, s', Publish(d, append, fault), id))
  {
    if d in s.publishing && d.id in s.runs {
      PublishUnfolds(s, d, append, fault);
      hide DoPublish, LastFiles, PlaceAll, Valid;
    }
  }

  lemma NextKeepsPublication(s: State, move: Move, id: Id)
    requires id in s.runs && id < s.nextId
    ensures id in Next(s, move).runs
    ensures Next(s, move).runs[id].publication == s.runs[id].publication || PublishedBy(s, Next(s, move), move, id)
  {
    hide Advance, HashOfRequest, Verified, DoDecide, DoPublish, Fresh;
    match move
    case Decide(d, append, fault) => DecidingKeepsPublication(s, d, append, fault, id);
    case Publish(d, append, fault) => PublishingPublishes(s, d, append, fault, id);
    case Work(other, luck) =>
      if other in s.runs && other in s.tasks {
        AdvanceKeepsPublication(s.runs[other], s.ledger, s.tasks[other], Aborted(s, other), luck);
      }
    case _ =>
  }

  lemma AskedRunIsUnpublished(s: State, move: Move, id: Id)
    requires id in Next(s, move).runs && id !in s.runs
    ensures Next(s, move).runs[id].publication == None
  {
    if move.Ask? {
      hide DoTellAsk, DoCheckDecision, DoDecide, DoCancel, DoAbort, DoWork, DoCheckPublication, DoPublish, DoCrash, DoBoot;
    } else {
      KeysStay(s, move);
      hide Next;
    }
  }

  lemma RunsHaveOldIds(s: State, id: Id)
    requires Inv(s) && id in s.runs
    ensures id < s.nextId
  {
    hide RunsSound, TasksSound, SlotsSound, CleanSound;
  }

  lemma NamedPublishersNext(s: State, move: Move)
    requires Inv(s) && FourEyesOnFiles(s) && (move.CheckPublication? ==> move.decision.actor.named)
    ensures FourEyesOnFiles(Next(s, move))
  {
    var s' := Next(s, move);
    hide Inv, Next;
    forall d | d in s'.publishing ensures d.id in s'.runs && d.actor.human != s'.runs[d.id].requester {
      PublishersPassedTheCheck(s, move, d);
      NextKeepsRequest(s, move, d.id);
    }
    forall id | id in s'.runs && s'.runs[id].publication.Some? ensures s'.runs[id].publication.value.publisher != s'.runs[id].requester {
      if id in s.runs {
        RunsHaveOldIds(s, id);
        NextKeepsPublication(s, move, id);
        NextKeepsRequest(s, move, id);
      } else {
        AskedRunIsUnpublished(s, move, id);
      }
    }
  }

  /**
    Over all moves whose publication checks are made by named users: nobody publishes a run
    of their own, however checks and publications interleave.
   */
  lemma {:induction false} NamedUsersNeverPublishTheirOwn(moves: seq<Move>)
    requires forall move :: move in moves && move.CheckPublication? ==> move.decision.actor.named
    ensures FourEyesOnFiles(After(EMPTY, moves))
    decreases |moves|
  {
    hide Inv, Next, FourEyesOnFiles;
    if moves == [] {
      EmptyHasFourEyes();
    } else {
      var init, last := moves[..|moves| - 1], moves[|moves| - 1];
      assert moves == init + [last];
      NamedUsersNeverPublishTheirOwn(init);
      EmptyIsSound();
      AfterKeeps(EMPTY, init);
      NamedPublishersNext(After(EMPTY, init), last);
    }
  }

  lemma EmptyHasFourEyes()
    ensures FourEyesOnFiles(EMPTY)
  {
  }
}
