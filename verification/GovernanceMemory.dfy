/**
  Published knowledge: what a room may feed to a run, and what a crash during a review does
  to it. The consumer is the room runtime, which asks the ledger before it trusts a memory.
 */
module GovernanceMemory {
  import opened Options
  import opened GovernanceModel
  import opened GovernancePlans
  import opened GovernanceSafety
  import opened GovernanceRecovery
  import opened GovernanceRuns
  import opened GovernanceTheorems

  function PublishedIn(memories: seq<Memory>, room: nat): seq<Memory> {
    if memories == [] then []
    else
      var last := memories[|memories| - 1];
      PublishedIn(memories[..|memories| - 1], room) + if last.room == room && last.status == Published then [last] else []
  }

  lemma {:induction false} PublishedInHolds(memories: seq<Memory>, room: nat)
    ensures forall m :: m in PublishedIn(memories, room) <==> m in memories && m.room == room && m.status == Published
  {
    if memories != [] {
      PublishedInHolds(memories[..|memories| - 1], room);
      assert memories == memories[..|memories| - 1] + [memories[|memories| - 1]];
    }
  }

  /** The ledger tells of this review, by this person, of this content, and of the publication. */
  predicate Evidenced(ledger: seq<Event>, m: Memory) {
    && m.hash == MemoryHash(m)
    && (exists e :: e in ledger && e.MemoryReviewed? && Some(e.human) == m.reviewer && e.memory == m.id && e.approve && e.reviewed == MemoryHash(m))
    && (exists e :: e in ledger && e.MemoryPublished? && Some(e.human) == m.reviewer && e.memory == m.id)
  }

  /** The published memories of the room, or None: one without its evidence refuses them all. */
  function ReviewedMemory(w: World, room: nat): Option<seq<Memory>> {
    var published := PublishedIn(w.memories, room);
    if forall m :: m in published ==> Evidenced(w.ledger, m) then Some(published) else None
  }

  /** The two review events of an approval were appended, whatever they say. */
  predicate Told(ledger: seq<Event>, id: nat) {
    && (exists e :: e in ledger && e.MemoryReviewed? && e.memory == id && e.approve)
    && (exists e :: e in ledger && e.MemoryPublished? && e.memory == id)
  }

  lemma ToldIsEvidenced(w: World, m: Memory)
    requires Inv(w) && m in w.memories && m.status == Published
    ensures Evidenced(w.ledger, m) <==> Told(w.ledger, m.id)
  {
    var i :| 0 <= i < |w.memories| && w.memories[i] == m;
    assert MemorySound(w.memories[i]) && MemoriesSound(w.memories, w.nextId) && MemoryEventsSound(w.ledger, w.memories);
    if Told(w.ledger, m.id) {
      var a :| a in w.ledger && a.MemoryReviewed? && a.memory == m.id && a.approve;
      assert MemoryEventSound(a, w.memories);
      var b :| b in w.ledger && b.MemoryPublished? && b.memory == m.id;
      assert MemoryEventSound(b, w.memories);
    }
  }

  /**
    Without tampering the integrity checks on published memory fail for one reason only: the
    room is refused exactly when some published memory lacks its review events altogether.
    Every memory that is consumed has an unedited content, its reviewer and its evidence.
   */
  lemma RoomConsumesIff(w: World, room: nat)
    requires Inv(w)
    ensures ReviewedMemory(w, room).Some? <==>
              forall m :: m in w.memories && m.room == room && m.status == Published ==> Told(w.ledger, m.id)
  {
    PublishedInHolds(w.memories, room);
    hide Inv, Evidenced, Told;
    forall m | m in w.memories && m.status == Published ensures Evidenced(w.ledger, m) <==> Told(w.ledger, m.id) {
      ToldIsEvidenced(w, m);
    }
  }

  // ------------------------------------------------------------- who writes review events

  predicate ReviewEvent(event: Event) {
    event.MemoryReviewed? || event.MemoryPublished? || event.MemoryRejected?
  }

  predicate Quiet(write: Write) {
    !write.DecideMemory? && (write.Append? ==> !ReviewEvent(write.event))
  }

  predicate AllQuiet(writes: seq<Write>) {
    forall write :: write in writes ==> Quiet(write)
  }

  lemma {:induction false} RecoveryIsQuiet(w: World, i: nat, n: nat, actor: Actor, now: int)
    ensures AllQuiet(RecoverFrom(w, i, n, actor, now).writes)
    decreases n - i
  {
    hide Run, AuthorityHolds, Sanctioned;
    if i < n {
      ExecutionIsQuiet(w, i, actor, now);
      RecoveryIsQuiet(Run(w, RecoverPlan(w, i, actor, now).writes), i + 1, n, actor, now);
    }
  }

  lemma {:induction false} ReplayIsQuiet(w: World, i: nat, n: nat)
    ensures AllQuiet(ReplayFrom(w, i, n).writes)
    decreases n - i
  {
    hide Run, Verifies;
    if i < n {
      ReplayIsQuiet(Run(w, ReplayPlan(w, i).writes), i + 1, n);
    }
  }

  lemma ExecutionIsQuiet(w: World, i: nat, actor: Actor, now: int)
    ensures AllQuiet(ExecutePlan(w, i, actor, now).writes)
  {
    hide AuthorityHolds, Sanctioned, Outcome, EvidencePack, ExecutedRecord;
  }

  lemma RequestIsQuiet(w: World, room: nat, agent: string, name: string, key: string, actor: Actor, now: int)
    ensures AllQuiet(RequestActionPlan(w, room, agent, name, key, actor, now).writes)
  {
    hide Run, ExecutePlan, Governed, InRoom, Authorize, NewAction;
    if Governed(w, agent, now) {
      ExecutionIsQuiet(Run(w, RequestWrites(w, room, agent, name, key, now)), |w.actions|, actor, now);
    }
  }

  lemma DecisionIsQuiet(w: World, approval: nat, approve: bool, actor: Actor, now: int)
    ensures AllQuiet(DecideApprovalPlan(w, approval, approve, actor, now).writes)
  {
    hide Run, ExecutePlan, AuthorityHolds;
    var i, j := ActionWithApproval(w, approval), ApprovalAt(w, approval);
    if i < |w.actions| && j < |w.approvals| {
      var ask := w.actions[i].ask;
      var writes := [ResolveApproval(j, Approved), AddDecision(ask.key), Append(Noted("HUMAN_APPROVED", ask.agent))];
      ExecutionIsQuiet(w, i, actor, now);
      ExecutionIsQuiet(Run(w, writes), i, actor, now);
    }
  }

  lemma MandatesAreQuiet(w: World, agent: string, productBuild: bool, lifecycle: Lifecycle, now: int)
    ensures AllQuiet(AssignMandatePlan(w, agent, productBuild, now).writes) && AllQuiet(UpdateMandatePlan(w, agent, lifecycle, now).writes)
  {
    hide Run, HasPassport;
  }

  /** Only a review of that memory decides it and tells of it. */
  lemma OtherPlansAreQuiet(w: World, op: Op, actor: Actor, now: int)
    requires !op.ReviewMemory?
    ensures AllQuiet(PlanOf(w, op, actor, now).writes)
  {
    hide AssignMandatePlan, UpdateMandatePlan, RequestActionPlan, DecideApprovalPlan, RecoverFrom, ReplayFrom, Governed, InRoom, Run;
    match op {
      case AssignMandate(agent, productBuild) => MandatesAreQuiet(w, agent, productBuild, Suspend, now);
      case UpdateMandate(agent, lifecycle) => MandatesAreQuiet(w, agent, false, lifecycle, now);
      case RequestAction(room, agent, name, key) => RequestIsQuiet(w, room, agent, name, key, actor, now);
      case DecideApproval(approval, approve) => DecisionIsQuiet(w, approval, approve, actor, now);
      case Initialize =>
        RecoveryIsQuiet(w, 0, |w.actions|, actor, now);
        ReplayIsQuiet(Run(w, RecoverFrom(w, 0, |w.actions|, actor, now).writes), 0, |w.actions|);
      case _ =>
    }
  }

  /** What a call may do to memories: decide one in its own name, and tell of that one. */
  predicate Reviews(w: World, call: Call, write: Write) {
    && (write.DecideMemory? ==> write.reviewer == call.actor)
    && (write.Append? && ReviewEvent(write.event) ==>
          var i := MemoryAt(w, write.event.memory); i < |w.memories| && w.memories[i].status == Proposed)
  }

  lemma ReviewPlanReviews(w: World, memory: nat, approve: bool, edited: Option<string>, call: Call, write: Write)
    requires write in ReviewMemoryPlan(w, memory, approve, edited, call.actor).writes
    ensures Reviews(w, call, write)
  {
    hide InRoom;
    var i := MemoryAt(w, memory);
    assert i < |w.memories| && w.memories[i].status == Proposed;
    hide ReviewMemoryPlan;
  }

  lemma MadeIsPlanned(w: World, call: Call)
    ensures forall write :: write in Made(w, call) ==> write in Writes(w, call)
  {
    hide PlanOf;
  }

  lemma CallReviews(w: World, call: Call)
    ensures forall write :: write in Made(w, call) ==> Reviews(w, call, write)
  {
    MadeIsPlanned(w, call);
    if call.op.ReviewMemory? {
      assert Writes(w, call) == ReviewMemoryPlan(w, call.op.memory, call.op.approve, call.op.edited, call.actor).writes;
      hide PlanOf, Made, Writes, Reviews, ReviewMemoryPlan;
      forall write | write in Made(w, call) ensures Reviews(w, call, write) {
        ReviewPlanReviews(w, call.op.memory, call.op.approve, call.op.edited, call, write);
      }
    } else {
      OtherPlansAreQuiet(w, call.op, call.actor, call.now);
      hide PlanOf, Made;
    }
  }

  // ------------------------------------------------------------------------ lost reviews

  lemma {:induction false} UntoldStaysUntold(w: World, writes: seq<Write>, id: nat)
    requires forall write :: write in writes && write.Append? && ReviewEvent(write.event) ==> write.event.memory != id
    ensures Told(Run(w, writes).ledger, id) == Told(w.ledger, id)
    decreases |writes|
  {
    if writes != [] {
      var init, last := writes[..|writes| - 1], writes[|writes| - 1];
      assert writes == init + [last];
      UntoldStaysUntold(w, init, id);
      var before := Run(w, init).ledger;
      hide Run;
      if last.Append? {
        assert forall e :: e in before + [last.event] <==> e in before || e == last.event;
      }
    }
  }

  lemma {:induction false} OneCallCannotTell(w: World, call: Call, i: nat)
    requires Inv(w) && i < |w.memories| && w.memories[i].status != Proposed
    ensures Told(Run(w, Made(w, call)).ledger, w.memories[i].id) == Told(w.ledger, w.memories[i].id)
  {
    CallReviews(w, call);
    assert MemoriesSound(w.memories, w.nextId);
    assert MemoryAt(w, w.memories[i].id) == i;
    hide Inv, Made, Told, Run;
    UntoldStaysUntold(w, Made(w, call), w.memories[i].id);
  }

  lemma {:induction false} DecidedStays(w: World, calls: seq<Call>, i: nat)
    requires Inv(w) && i < |w.memories| && w.memories[i].status != Proposed
    ensures var w' := After(w, calls);
            && i < |w'.memories| && w'.memories[i] == w.memories[i]
            && Told(w'.ledger, w.memories[i].id) == Told(w.ledger, w.memories[i].id)
    decreases |calls|
  {
    RunsAreLegal(w, calls);
    HistoryOnlyGrows(w, Trace(w, calls));
    hide Inv, Legal, Made, Told, Run;
    if calls == [] {
      NothingIsProper(w);
    } else {
      var init, last := calls[..|calls| - 1], calls[|calls| - 1];
      DecidedStays(w, init, i);
      RunsAreLegal(w, init);
      OneCallCannotTell(After(w, init), last, i);
      RunAppends(w, Trace(w, init), Made(After(w, init), last));
    }
  }

  /**
    In every run a memory's hash is the hash of its content, and one that was decided keeps
    its decision, its reviewer and its content from then on.
   */
  lemma MemoriesAreDecidedOnce(calls: seq<Call>, more: seq<Call>, i: nat)
    requires i < |After(EMPTY, calls).memories|
    ensures var m := After(EMPTY, calls).memories[i];
            && m.hash == MemoryHash(m)
            && i < |After(EMPTY, calls + more).memories|
            && (m.status != Proposed ==> After(EMPTY, calls + more).memories[i] == m)
  {
    EmptyWorldIsSound();
    RunsAreLegal(EMPTY, calls);
    RunsAreLegal(After(EMPTY, calls), more);
    HistoryOnlyGrows(After(EMPTY, calls), Trace(After(EMPTY, calls), more));
    TraceAppends(EMPTY, calls, more);
    assert MemoriesSound(After(EMPTY, calls).memories, After(EMPTY, calls).nextId);
    assert MemorySound(After(EMPTY, calls).memories[i]);
    hide Inv, Legal, Run, Trace;
  }

  /**
    A memory is decided once. If its review events were lost, they are lost for good: no run,
    restarts included, appends them, and its room is refused in every later world.
   */
  lemma LostReviewIsForever(w: World, calls: seq<Call>, i: nat)
    requires Inv(w) && i < |w.memories| && w.memories[i].status == Published && !Told(w.ledger, w.memories[i].id)
    ensures var w' := After(w, calls);
            && i < |w'.memories| && w'.memories[i] == w.memories[i]
            && ReviewedMemory(w', w.memories[i].room) == None
  {
    DecidedStays(w, calls, i);
    RunsAreLegal(w, calls);
    hide Inv, Legal, Told, ReviewedMemory, Run;
    RoomConsumesIff(After(w, calls), w.memories[i].room);
    assert After(w, calls).memories[i] in After(w, calls).memories;
  }

  /** The writes of a review that is accepted. */
  function ApprovalWrites(w: World, i: nat, edited: Option<string>, actor: Actor): seq<Write>
    requires i < |w.memories|
  {
    var m := w.memories[i];
    var text := if edited.Some? then edited.value else m.content;
    [DecideMemory(i, true, text, actor),
     Append(MemoryReviewed(m.id, actor.human, true, m.hash, DecidedMemory(m, true, text, actor.human).hash)),
     Append(MemoryPublished(m.id, actor.human))]
  }

  lemma NotYetTold(w: World, i: nat)
    requires Inv(w) && i < |w.memories| && w.memories[i].status == Proposed
    ensures forall e :: e in w.ledger && ReviewEvent(e) ==> e.memory != w.memories[i].id
  {
    assert MemoriesSound(w.memories, w.nextId) && MemoryEventsSound(w.ledger, w.memories);
    forall e | e in w.ledger && ReviewEvent(e) ensures e.memory != w.memories[i].id {
      assert MemoryEventSound(e, w.memories);
    }
  }

  lemma ReviewUnfolds(w: World, i: nat, edited: Option<string>, actor: Actor)
    requires Inv(w) && i < |w.memories| && ReviewMemoryPlan(w, w.memories[i].id, true, edited, actor).reply == Done
    ensures MemoryAt(w, w.memories[i].id) == i && w.memories[i].status == Proposed
    ensures ReviewMemoryPlan(w, w.memories[i].id, true, edited, actor).writes == ApprovalWrites(w, i, edited, actor)
  {
    assert MemoriesSound(w.memories, w.nextId);
    hide Inv, InRoom;
  }

  /** The world after the first `n` of the three writes. */
  function CutReview(w: World, i: nat, edited: Option<string>, actor: Actor, n: nat): World
    requires i < |w.memories|
  {
    var writes := ApprovalWrites(w, i, edited, actor);
    var one := Apply(w, writes[0]);
    var two := Apply(one, writes[1]);
    if n == 0 then w else if n == 1 then one else if n == 2 then two else Apply(two, writes[2])
  }

  lemma {:induction false} RunOfThree(w: World, a: Write, b: Write, c: Write)
    ensures Run(w, []) == w && Run(w, [a]) == Apply(w, a) && Run(w, [a, b]) == Apply(Apply(w, a), b)
    ensures Run(w, [a, b, c]) == Apply(Apply(Apply(w, a), b), c)
  {
    hide Apply;
    assert [a][..0] == [] && [a, b][..1] == [a] && [a, b, c][..2] == [a, b];
  }

  lemma {:induction false} CutReviewRuns(w: World, i: nat, edited: Option<string>, actor: Actor, now: int, budget: nat)
    requires Inv(w) && i < |w.memories| && ReviewMemoryPlan(w, w.memories[i].id, true, edited, actor).reply == Done
    ensures Run(w, Made(w, Call(ReviewMemory(w.memories[i].id, true, edited), actor, now, budget))) == CutReview(w, i, edited, actor, budget)
  {
    ReviewUnfolds(w, i, edited, actor);
    hide Inv, Apply, Run, ReviewMemoryPlan, DecidedMemory;
    var writes := ApprovalWrites(w, i, edited, actor);
    assert writes == [writes[0], writes[1], writes[2]];
    hide ApprovalWrites;
    assert writes[..0] == [] && writes[..1] == [writes[0]] && writes[..2] == [writes[0], writes[1]];
    RunOfThree(w, writes[0], writes[1], writes[2]);
  }

  lemma CutReviewTells(w: World, i: nat, edited: Option<string>, actor: Actor, n: nat)
    requires i < |w.memories| && forall e :: e in w.ledger && ReviewEvent(e) ==> e.memory != w.memories[i].id
    ensures Told(CutReview(w, i, edited, actor, n).ledger, w.memories[i].id) <==> n >= 3
  {
    var id, writes := w.memories[i].id, ApprovalWrites(w, i, edited, actor);
    var b, c := writes[1].event, writes[2].event;
    var two, three := CutReview(w, i, edited, actor, 2).ledger, CutReview(w, i, edited, actor, 3).ledger;
    assert two == w.ledger + [b] && three == w.ledger + [b] + [c];
    assert b in three && c in three;
    hide CutReview;
    assert !Told(w.ledger, id) && !Told(two, id) && Told(three, id);
    hide Told;
    CutReviewShape(w, i, edited, actor, n);
  }

  lemma CutReviewShape(w: World, i: nat, edited: Option<string>, actor: Actor, n: nat)
    requires i < |w.memories|
    ensures var w' := CutReview(w, i, edited, actor, n);
            && |w'.memories| == |w.memories|
            && (forall j :: 0 <= j < |w.memories| && j != i ==> w'.memories[j] == w.memories[j])
            && (n > 0 ==> w'.memories[i].status == Published && w'.memories[i].id == w.memories[i].id && w'.memories[i].room == w.memories[i].room)
            && (n == 0 ==> w' == w)
            && w.ledger <= w'.ledger
    ensures n <= 1 ==> CutReview(w, i, edited, actor, n).ledger == w.ledger
    ensures n >= 3 ==> CutReview(w, i, edited, actor, n) == CutReview(w, i, edited, actor, 3)
  {
    hide MemoryHash;
  }

  lemma OthersStayTold(w: World, w': World, i: nat)
    requires Inv(w) && i < |w.memories| == |w'.memories|
    requires forall j :: 0 <= j < |w.memories| && j != i ==> w'.memories[j] == w.memories[j]
    requires w.ledger <= w'.ledger
    requires forall m :: m in w.memories && m.room == w.memories[i].room && m.status == Published ==> Told(w.ledger, m.id)
    ensures forall j :: 0 <= j < |w'.memories| && j != i && w'.memories[j].room == w.memories[i].room && w'.memories[j].status == Published ==> Told(w'.ledger, w'.memories[j].id)
  {
    hide Inv;
    forall j | 0 <= j < |w'.memories| && j != i && w'.memories[j].room == w.memories[i].room && w'.memories[j].status == Published
      ensures Told(w'.ledger, w'.memories[j].id)
    {
      assert w.memories[j] in w.memories;
      assert forall e :: e in w.ledger ==> e in w'.ledger by {
        assert w.ledger == w'.ledger[..|w.ledger|];
      }
    }
  }

  /**
    A review cut short: the room goes on being served exactly when the review did not begin
    or came to its end; a crash after the decision and before the last event refuses it.
   */
  lemma {:induction false} CutReviewRefusesTheRoom(w: World, i: nat, edited: Option<string>, actor: Actor, now: int, budget: nat)
    requires Inv(w) && i < |w.memories|
    requires ReviewMemoryPlan(w, w.memories[i].id, true, edited, actor).reply == Done
    requires ReviewedMemory(w, w.memories[i].room).Some?
    ensures var w' := Run(w, Made(w, Call(ReviewMemory(w.memories[i].id, true, edited), actor, now, budget)));
            ReviewedMemory(w', w.memories[i].room).Some? <==> budget == 0 || budget >= 3
  {
    hide *;
    ReviewUnfolds(w, i, edited, actor);
    CallIsLegal(w, Call(ReviewMemory(w.memories[i].id, true, edited), actor, now, budget));
    CutReviewRuns(w, i, edited, actor, now, budget);
    NotYetTold(w, i);
    CutReviewTells(w, i, edited, actor, budget);
    CutReviewShape(w, i, edited, actor, budget);
    RoomConsumesIff(w, w.memories[i].room);
    var w' := CutReview(w, i, edited, actor, budget);
    RoomConsumesIff(w', w.memories[i].room);
    OthersStayTold(w, w', i);
    if 0 < budget {
      assert w'.memories[i] in w'.memories;
    }
  }

  // ---------------------------------------------------------------------------- four eyes

  ghost predicate FourEyes(w: World) {
    forall i :: 0 <= i < |w.memories| && w.memories[i].reviewer.Some? ==> w.memories[i].reviewer.value != w.memories[i].proposer
  }

  lemma {:induction false} NamedWritesKeepFourEyes(w: World, writes: seq<Write>)
    requires Inv(w) && Legal(w, writes) && FourEyes(w)
    requires forall write :: write in writes && write.DecideMemory? ==> write.reviewer.named
    ensures FourEyes(Run(w, writes))
    decreases |writes|
  {
    if writes != [] {
      var init, last := writes[..|writes| - 1], writes[|writes| - 1];
      assert writes == init + [last];
      LastIsInOrder(w, writes);
      NamedWritesKeepFourEyes(w, init);
      hide Inv, Run, Legal;
      NamedWriteKeepsFourEyes(Run(w, init), last);
    }
  }

  lemma NamedWriteKeepsFourEyes(w: World, write: Write)
    requires FourEyes(w) && Ok(w, write) && (write.DecideMemory? ==> write.reviewer.named)
    ensures FourEyes(Apply(w, write))
  {
    hide EventOk, CommitOk, MandateSound, AfterNewestMandate, ApprovalIsFree, ExecutedRecord, MemoryHash;
  }

  /** Among named users nobody reviews what they proposed themselves. */
  lemma {:induction false} NamedUsersNeverReviewTheirOwn(w: World, calls: seq<Call>)
    requires Inv(w) && FourEyes(w) && forall call :: call in calls ==> call.actor.named
    ensures FourEyes(After(w, calls))
    decreases |calls|
  {
    hide Inv, Legal, Made, Run, FourEyes;
    if calls == [] {
      NothingIsProper(w);
    } else {
      var init, last := calls[..|calls| - 1], calls[|calls| - 1];
      assert calls == init + [last];
      NamedUsersNeverReviewTheirOwn(w, init);
      RunsAreLegal(w, init);
      var v := After(w, init);
      CallIsLegal(v, last);
      CallReviews(v, last);
      NamedWritesKeepFourEyes(v, Made(v, last));
      RunAppends(w, Trace(w, init), Made(v, last));
    }
  }
}
