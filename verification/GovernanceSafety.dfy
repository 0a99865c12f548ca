/**
  When a write is in order, what all writes in order keep, and what that means over any
  sequence of them: exactly-once execution, immutable executed records, sanctioned commits.
 */
module GovernanceSafety {
  import opened Options
  import opened GovernanceModel
  import opened GovernancePlans

  // -------------------------------------------------------------------------- invariants

  /** An action is executed once, with a receipt that verifies, or not at all. */
  ghost predicate ActionSound(action: Action) {
    && (if action.status == Executed
        then action.count == 1 && action.result.Some? && action.executedAt.Some? && action.receipt == Some(Signed(action))
        else action.count == 0 && action.result == None && action.receipt == None)
    && (action.ask.approval.Some? <==> action.ask.decision == NeedsApproval)
    && (action.ask.decision == Denied ==> action.status == Turned)
    && action.ask.name in LABELS
  }

  predicate Collide(a: Ask, b: Ask) {
    a.id == b.id || a.key == b.key || (a.approval.Some? && a.approval == b.approval)
  }

  ghost predicate ActionsSound(actions: seq<Action>, nextId: nat) {
    && (forall i :: 0 <= i < |actions| ==> ActionSound(actions[i]) && actions[i].ask.id < nextId)
    && (forall i, j :: 0 <= i < j < |actions| ==> !Collide(actions[i].ask, actions[j].ask))
  }

  ghost predicate ApprovalsSound(approvals: seq<Approval>, nextId: nat) {
    && (forall i :: 0 <= i < |approvals| ==> approvals[i].id < nextId)
    && (forall i, j :: 0 <= i < j < |approvals| ==> approvals[i].id != approvals[j].id)
  }

  /** The approval an action asked for is its own, and approved by the time it has executed. */
  ghost predicate HasItsApproval(action: Action, approvals: seq<Approval>) {
    action.ask.approval.Some? ==>
      exists j :: 0 <= j < |approvals| && Bound(approvals[j], action.ask) && (action.status == Executed ==> approvals[j].status == Approved)
  }

  ghost predicate ActionsApproved(actions: seq<Action>, approvals: seq<Approval>) {
    forall i :: 0 <= i < |actions| ==> HasItsApproval(actions[i], approvals)
  }

  ghost predicate MandateSound(mandate: Mandate) {
    && mandate.allowed == ALLOWED_ACTIONS && mandate.prohibited == PROHIBITED_ACTIONS
    && mandate.needApproval <= {"evidence_export", "product_build"}
  }

  /** An active mandate is the newest of its agent, so no agent has two. */
  ghost predicate MandatesSound(mandates: seq<Mandate>, nextId: nat) {
    && (forall i :: 0 <= i < |mandates| ==> MandateSound(mandates[i]) && mandates[i].id < nextId)
    && (forall i, j :: 0 <= i < j < |mandates| ==> mandates[i].id != mandates[j].id)
    && (forall i, j :: 0 <= i < j < |mandates| && mandates[i].agent == mandates[j].agent ==> mandates[i].status != Active)
  }

  /** The exported file on disk still hashes to the recorded content hash. */
  ghost predicate PackSound(action: Action, packs: map<nat, Pack>) {
    action.result.Some? && action.result.value.Export? ==>
      action.ask.id in packs && HashOf(PackDocument(packs[action.ask.id])) == action.result.value.contentHash
  }

  ghost predicate PacksSound(actions: seq<Action>, packs: map<nat, Pack>) {
    forall i :: 0 <= i < |actions| ==> PackSound(actions[i], packs)
  }

  ghost predicate ExecutedAs(actions: seq<Action>, id: nat, receipt: Hash) {
    exists i :: 0 <= i < |actions| && actions[i].ask.id == id && actions[i].status == Executed
                && actions[i].receipt.Some? && actions[i].receipt.value.hash == receipt
  }

  /** An execution event tells of a committed execution, and no execution is told twice. */
  ghost predicate EventsSound(ledger: seq<Event>, actions: seq<Action>) {
    && (forall e :: e in ledger && e.ActionExecuted? ==> ExecutedAs(actions, e.action, e.receipt))
    && (forall i, j :: 0 <= i < j < |ledger| && ledger[i].ActionExecuted? && ledger[j].ActionExecuted? ==> ledger[i].action != ledger[j].action)
  }

  ghost predicate MemorySound(memory: Memory) {
    memory.hash == MemoryHash(memory) && (memory.status == Proposed <==> memory.reviewer == None)
  }

  ghost predicate MemoriesSound(memories: seq<Memory>, nextId: nat) {
    && (forall i :: 0 <= i < |memories| ==> MemorySound(memories[i]) && memories[i].id < nextId)
    && (forall i, j :: 0 <= i < j < |memories| ==> memories[i].id != memories[j].id)
  }

  ghost predicate DecidedAs(memories: seq<Memory>, id: nat, status: MemoryStatus, human: string) {
    exists i :: 0 <= i < |memories| && memories[i].id == id && memories[i].status == status && memories[i].reviewer == Some(human)
  }

  ghost predicate ReviewedAs(memories: seq<Memory>, id: nat, status: MemoryStatus, human: string, hash: Hash) {
    exists i :: 0 <= i < |memories| && memories[i].id == id && memories[i].status == status
                && memories[i].reviewer == Some(human) && memories[i].hash == hash
  }

  ghost predicate MemoryEventSound(event: Event, memories: seq<Memory>) {
    match event
    case MemoryReviewed(id, human, approve, _, reviewed) => ReviewedAs(memories, id, if approve then Published else Dismissed, human, reviewed)
    case MemoryPublished(id, human) => DecidedAs(memories, id, Published, human)
    case MemoryRejected(id, human) => DecidedAs(memories, id, Dismissed, human)
    case _ => true
  }

  /** A review event tells of the memory as it now stands. */
  ghost predicate MemoryEventsSound(ledger: seq<Event>, memories: seq<Memory>) {
    forall e :: e in ledger ==> MemoryEventSound(e, memories)
  }

  ghost predicate Inv(w: World) {
    && ActionsSound(w.actions, w.nextId)
    && ApprovalsSound(w.approvals, w.nextId)
    && ActionsApproved(w.actions, w.approvals)
    && MandatesSound(w.mandates, w.nextId)
    && PacksSound(w.actions, w.packs)
    && EventsSound(w.ledger, w.actions)
    && MemoriesSound(w.memories, w.nextId)
    && MemoryEventsSound(w.ledger, w.memories)
  }

  lemma EmptyWorldIsSound()
    ensures Inv(EMPTY)
  {
  }

  // ------------------------------------------------------------------------ writes in order

  ghost predicate ApprovalIsFree(w: World, ask: Ask) {
    && ask.id == w.nextId
    && (forall i :: 0 <= i < |w.actions| ==> !Collide(w.actions[i].ask, ask))
    && (ask.approval.Some? ==> exists j :: 0 <= j < |w.approvals| && Bound(w.approvals[j], ask))
  }

  ghost predicate CommitOk(w: World, i: nat, result: Result, now: int, actor: Actor) {
    && i < |w.actions| && w.actions[i].count == 0
    && AuthorityHolds(w, w.actions[i].ask, actor, now) && Sanctioned(w, w.actions[i].ask)
    && result == Outcome(w, w.actions[i].ask, actor, now)
    && (result.Export? ==> w.actions[i].ask.id in w.packs && HashOf(PackDocument(w.packs[w.actions[i].ask.id])) == result.contentHash)
  }

  ghost predicate EventOk(w: World, event: Event) {
    && (event.ActionExecuted? ==> ExecutedAs(w.actions, event.action, event.receipt) && !HasExecutionEvent(w.ledger, event.action))
    && MemoryEventSound(event, w.memories)
  }

  /** What the protocol promises of each write at the moment it is made. */
  ghost predicate Ok(w: World, write: Write) {
    match write
    case AddMandate(m) => m.id == w.nextId && MandateSound(m) && forall i :: 0 <= i < |w.mandates| && w.mandates[i].agent == m.agent ==> w.mandates[i].status != Active
    case SetMandate(i, status) =>
      i < |w.mandates| && w.mandates[i].status != Revoked
      && (status == Active ==> AfterNewestMandate(w, w.mandates[i].agent) == i + 1)
    case AddApproval(approval) => approval.id == w.nextId && approval.status == Awaiting
    case ResolveApproval(i, status) => i < |w.approvals| && w.approvals[i].status == Awaiting && (status == Approved || status == Refused)
    case AddAction(action) => ActionSound(action) && action.status != Executed && ApprovalIsFree(w, action.ask)
    case SetStatus(i, status, _) => i < |w.actions| && w.actions[i].count == 0 && w.actions[i].ask.decision != Denied && (status == Turned || status == Rejected)
    case PutPack(i, pack) => i < |w.actions| && w.actions[i].count == 0
    case Commit(i, result, now, actor) => CommitOk(w, i, result, now, actor)
    case AddMemory(memory) => memory.id == w.nextId && memory.status == Proposed && MemorySound(memory)
    case DecideMemory(i, publish, _, actor) =>
      i < |w.memories| && w.memories[i].status == Proposed && (actor.named ==> w.memories[i].proposer != actor.human)
    case Append(event) => EventOk(w, event)
    case _ => true
  }

  lemma ActionsStaySound(w: World, write: Write)
    requires Inv(w) && Ok(w, write)
    ensures ActionsSound(Apply(w, write).actions, Apply(w, write).nextId)
  {
    hide ApprovalsSound, ActionsApproved, MandatesSound, PacksSound, EventsSound, MemoriesSound, MemoryEventsSound, AuthorityHolds, MandateSound, AfterNewestMandate;
  }

  lemma ApprovalsStaySound(w: World, write: Write)
    requires Inv(w) && Ok(w, write)
    ensures ApprovalsSound(Apply(w, write).approvals, Apply(w, write).nextId)
  {
    hide ActionsSound, ActionsApproved, MandatesSound, PacksSound, EventsSound, MemoriesSound, MemoryEventsSound, CommitOk, EventOk, MandateSound, AfterNewestMandate, ActionSound, ApprovalIsFree, MemorySound;
  }

  /** An approval keeps its place and its binding; once resolved it keeps its status. */
  ghost predicate ApprovalsGrow(a: seq<Approval>, b: seq<Approval>) {
    |a| <= |b| && forall i :: 0 <= i < |a| ==> b[i].(status := a[i].status) == a[i] && (a[i].status != Awaiting ==> b[i] == a[i])
  }

  lemma ApprovalsOnlyGrow(w: World, write: Write)
    requires Ok(w, write)
    ensures ApprovalsGrow(w.approvals, Apply(w, write).approvals)
  {
    hide CommitOk, EventOk, MandateSound, AfterNewestMandate, ActionSound, ApprovalIsFree, MemorySound, ExecutedRecord, DecidedMemory;
  }

  lemma ApprovalStays(action: Action, a: seq<Approval>, b: seq<Approval>)
    requires HasItsApproval(action, a) && ApprovalsGrow(a, b)
    ensures HasItsApproval(action, b)
  {
    if action.ask.approval.Some? {
      var j :| 0 <= j < |a| && Bound(a[j], action.ask) && (action.status == Executed ==> a[j].status == Approved);
      assert Bound(b[j], action.ask);
    }
  }

  lemma CommittedActionIsApproved(w: World, i: nat, result: Result, now: int, actor: Actor)
    requires CommitOk(w, i, result, now, actor)
    ensures HasItsApproval(ExecutedRecord(w.actions[i], result, now), w.approvals)
  {
    hide AuthorityHolds;
  }

  lemma ActionsStayApproved(w: World, write: Write)
    requires Inv(w) && Ok(w, write)
    ensures ActionsApproved(Apply(w, write).actions, Apply(w, write).approvals)
  {
    ApprovalsOnlyGrow(w, write);
    var w' := Apply(w, write);
    forall i | 0 <= i < |w.actions| ensures HasItsApproval(w.actions[i], w'.approvals) {
      ApprovalStays(w.actions[i], w.approvals, w'.approvals);
    }
    if write.Commit? {
      CommittedActionIsApproved(w, write.commitAt, write.result, write.now, write.actor);
    }
    hide ActionsSound, ApprovalsSound, MandatesSound, PacksSound, EventsSound, MemoriesSound, MemoryEventsSound, CommitOk, EventOk, MandateSound, AfterNewestMandate, MemorySound;
  }

  lemma MandatesStaySound(w: World, write: Write)
    requires Inv(w) && Ok(w, write)
    ensures MandatesSound(Apply(w, write).mandates, Apply(w, write).nextId)
  {
    hide ActionsSound, ApprovalsSound, ActionsApproved, PacksSound, EventsSound, MemoriesSound, MemoryEventsSound, CommitOk, EventOk, ActionSound, ApprovalIsFree, MemorySound;
  }

  lemma PacksStaySound(w: World, write: Write)
    requires Inv(w) && Ok(w, write)
    ensures PacksSound(Apply(w, write).actions, Apply(w, write).packs)
  {
    hide ApprovalsSound, ActionsApproved, MandatesSound, EventsSound, MemoriesSound, MemoryEventsSound, EventOk, MandateSound, AfterNewestMandate, MemorySound, AuthorityHolds, Sanctioned;
  }

  /** Actions keep their place and request, and an executed one keeps everything. */
  ghost predicate ActionsGrow(a: seq<Action>, b: seq<Action>) {
    |a| <= |b| && forall i :: 0 <= i < |a| ==> b[i].ask == a[i].ask && (a[i].count != 0 ==> b[i] == a[i])
  }

  lemma ActionsOnlyGrow(w: World, write: Write)
    requires Ok(w, write)
    ensures ActionsGrow(w.actions, Apply(w, write).actions)
  {
    hide EventOk, MandateSound, AfterNewestMandate, MemorySound, AuthorityHolds, Sanctioned, ActionSound, ApprovalIsFree;
  }

  lemma ExecutionStays(a: seq<Action>, b: seq<Action>, id: nat, receipt: Hash)
    requires ExecutedAs(a, id, receipt) && ActionsGrow(a, b) && forall i :: 0 <= i < |a| ==> ActionSound(a[i])
    ensures ExecutedAs(b, id, receipt)
  {
    var i :| 0 <= i < |a| && a[i].ask.id == id && a[i].status == Executed && a[i].receipt.Some? && a[i].receipt.value.hash == receipt;
    assert b[i] == a[i];
  }

  lemma EventsStaySound(w: World, write: Write)
    requires Inv(w) && Ok(w, write)
    ensures EventsSound(Apply(w, write).ledger, Apply(w, write).actions)
  {
    ActionsOnlyGrow(w, write);
    var w' := Apply(w, write);
    forall e | e in w.ledger && e.ActionExecuted? ensures ExecutedAs(w'.actions, e.action, e.receipt) {
      ExecutionStays(w.actions, w'.actions, e.action, e.receipt);
    }
    hide ApprovalsSound, ActionsApproved, MandatesSound, PacksSound, MemoriesSound, MemoryEventsSound, ActionsSound, CommitOk, MandateSound, AfterNewestMandate, MemorySound, MemoryEventSound, ExecutedAs, ActionSound, ApprovalIsFree;
  }

  lemma MemoriesStaySound(w: World, write: Write)
    requires Inv(w) && Ok(w, write)
    ensures MemoriesSound(Apply(w, write).memories, Apply(w, write).nextId)
  {
    hide ActionsSound, ApprovalsSound, ActionsApproved, MandatesSound, PacksSound, EventsSound, MemoryEventsSound, CommitOk, EventOk, MandateSound, AfterNewestMandate, ActionSound, ApprovalIsFree;
  }

  /** A memory keeps its place, id and title, and a decided one keeps everything. */
  ghost predicate MemoriesGrow(a: seq<Memory>, b: seq<Memory>) {
    |a| <= |b| && forall i :: 0 <= i < |a| ==>
      b[i].id == a[i].id && b[i].room == a[i].room && b[i].proposer == a[i].proposer && (a[i].status != Proposed ==> b[i] == a[i])
  }

  lemma MemoriesOnlyGrow(w: World, write: Write)
    requires Ok(w, write)
    ensures MemoriesGrow(w.memories, Apply(w, write).memories)
  {
    hide CommitOk, EventOk, MandateSound, AfterNewestMandate, ActionSound, ApprovalIsFree, MemorySound, ExecutedRecord;
  }

  lemma MemoryEventStays(event: Event, a: seq<Memory>, b: seq<Memory>)
    requires MemoryEventSound(event, a) && MemoriesGrow(a, b)
    ensures MemoryEventSound(event, b)
  {
    match event
    case MemoryReviewed(id, human, approve, _, reviewed) =>
      var status := if approve then Published else Dismissed;
      var i :| 0 <= i < |a| && a[i].id == id && a[i].status == status && a[i].reviewer == Some(human) && a[i].hash == reviewed;
      assert b[i] == a[i];
    case MemoryPublished(id, human) =>
      var i :| 0 <= i < |a| && a[i].id == id && a[i].status == Published && a[i].reviewer == Some(human);
      assert b[i] == a[i];
    case MemoryRejected(id, human) =>
      var i :| 0 <= i < |a| && a[i].id == id && a[i].status == Dismissed && a[i].reviewer == Some(human);
      assert b[i] == a[i];
    case _ =>
  }

  lemma MemoryEventsStaySound(w: World, write: Write)
    requires Inv(w) && Ok(w, write)
    ensures MemoryEventsSound(Apply(w, write).ledger, Apply(w, write).memories)
  {
    MemoriesOnlyGrow(w, write);
    var w' := Apply(w, write);
    forall e | e in w.ledger ensures MemoryEventSound(e, w'.memories) {
      MemoryEventStays(e, w.memories, w'.memories);
    }
    hide ActionsSound, ApprovalsSound, ActionsApproved, MandatesSound, PacksSound, EventsSound, MemoriesSound, CommitOk, MandateSound, AfterNewestMandate, ActionSound, ApprovalIsFree, MemoryEventSound, MemorySound, ExecutedAs;
  }

  /** Every write in order keeps the invariant. */
  lemma WriteKeeps(w: World, write: Write)
    requires Inv(w) && Ok(w, write)
    ensures Inv(Apply(w, write))
  {
    ActionsStaySound(w, write);
    ApprovalsStaySound(w, write);
    ActionsStayApproved(w, write);
    MandatesStaySound(w, write);
    PacksStaySound(w, write);
    EventsStaySound(w, write);
    MemoriesStaySound(w, write);
    MemoryEventsStaySound(w, write);
    hide ActionsSound, ApprovalsSound, ActionsApproved, MandatesSound, PacksSound, EventsSound, MemoriesSound, MemoryEventsSound, Ok, Apply;
  }

  // --------------------------------------------------------------------- sequences of them

  /** Each write is in order when it is made. */
  ghost predicate Legal(w: World, writes: seq<Write>)
    decreases |writes|
  {
    writes == [] || (Legal(w, writes[..|writes| - 1]) && Ok(Run(w, writes[..|writes| - 1]), writes[|writes| - 1]))
  }

  lemma {:induction false} RunAppends(w: World, first: seq<Write>, second: seq<Write>)
    ensures Run(w, first + second) == Run(Run(w, first), second)
    ensures Legal(w, first + second) <==> Legal(w, first) && Legal(Run(w, first), second)
    decreases |second|
  {
    hide Ok, Apply;
    if second == [] {
      assert first + second == first;
    } else {
      var init, all := second[..|second| - 1], first + second;
      assert all[..|all| - 1] == first + init && all[|all| - 1] == second[|second| - 1];
      RunAppends(w, first, init);
    }
  }

  /** A crash cuts a sequence short, and what is left is in order as well. */
  lemma {:induction false} CutIsLegal(w: World, writes: seq<Write>, n: nat)
    requires Legal(w, writes) && n <= |writes|
    ensures Legal(w, writes[..n])
  {
    assert writes == writes[..n] + writes[n..];
    RunAppends(w, writes[..n], writes[n..]);
  }

  lemma {:induction false} LegalKeeps(w: World, writes: seq<Write>)
    requires Inv(w) && Legal(w, writes)
    ensures Inv(Run(w, writes))
    decreases |writes|
  {
    hide Inv, Ok, Apply;
    if writes != [] {
      LegalKeeps(w, writes[..|writes| - 1]);
      WriteKeeps(Run(w, writes[..|writes| - 1]), writes[|writes| - 1]);
    }
  }

  lemma {:induction false} HistoryOnlyGrows(w: World, writes: seq<Write>)
    requires Inv(w) && Legal(w, writes)
    ensures ActionsGrow(w.actions, Run(w, writes).actions)
    ensures ApprovalsGrow(w.approvals, Run(w, writes).approvals)
    ensures MemoriesGrow(w.memories, Run(w, writes).memories)
    ensures w.ledger <= Run(w, writes).ledger
    decreases |writes|
  {
    if writes != [] {
      var v, write := Run(w, writes[..|writes| - 1]), writes[|writes| - 1];
      HistoryOnlyGrows(w, writes[..|writes| - 1]);
      ActionsOnlyGrow(v, write);
      ApprovalsOnlyGrow(v, write);
      MemoriesOnlyGrow(v, write);
      hide Inv, Ok;
    }
  }

  function CommitCount(writes: seq<Write>, i: nat): nat {
    if writes == [] then 0
    else
      var last := writes[|writes| - 1];
      CommitCount(writes[..|writes| - 1], i) + if last.Commit? && last.commitAt == i then 1 else 0
  }

  function EventCount(ledger: seq<Event>, id: nat): nat {
    if ledger == [] then 0
    else
      var last := ledger[|ledger| - 1];
      EventCount(ledger[..|ledger| - 1], id) + if last.ActionExecuted? && last.action == id then 1 else 0
  }

  function ExecutionCount(w: World, i: nat): nat {
    if i < |w.actions| then w.actions[i].count else 0
  }

  /**
    Exactly once, crashes included: over any sequence of writes the commits of an action are
    what its execution count went up by, which is at most one.
   */
  lemma {:induction false} CommitsAreCounted(w: World, writes: seq<Write>, i: nat)
    requires Inv(w) && Legal(w, writes)
    ensures ExecutionCount(w, i) + CommitCount(writes, i) == ExecutionCount(Run(w, writes), i) <= 1
    decreases |writes|
  {
    LegalKeeps(w, writes);
    CountsAreAtMostOne(Run(w, writes), i);
    if writes != [] {
      var init := writes[..|writes| - 1];
      CommitsAreCounted(w, init, i);
      LegalKeeps(w, init);
      OneWriteCounts(Run(w, init), writes[|writes| - 1], i);
    }
  }

  lemma CountsAreAtMostOne(w: World, i: nat)
    requires Inv(w)
    ensures ExecutionCount(w, i) <= 1
  {
    if i < |w.actions| {
      assert ActionSound(w.actions[i]);
    }
  }

  lemma OneWriteCounts(w: World, write: Write, i: nat)
    requires Inv(w) && Ok(w, write)
    ensures ExecutionCount(Apply(w, write), i) == ExecutionCount(w, i) + if write.Commit? && write.commitAt == i then 1 else 0
  {
    hide Inv, EventOk, MandateSound, AfterNewestMandate, MemorySound, AuthorityHolds, Sanctioned, ApprovalIsFree;
  }

  lemma {:induction false} EventsAreCounted(ledger: seq<Event>, id: nat)
    requires forall i, j :: 0 <= i < j < |ledger| && ledger[i].ActionExecuted? && ledger[j].ActionExecuted? ==> ledger[i].action != ledger[j].action
    ensures EventCount(ledger, id) == if HasExecutionEvent(ledger, id) then 1 else 0
  {
    if ledger != [] {
      var init, last := ledger[..|ledger| - 1], ledger[|ledger| - 1];
      assert ledger == init + [last];
      EventsAreCounted(init, id);
      if HasExecutionEvent(init, id) {
        var e :| e in init && e.ActionExecuted? && e.action == id;
        var k :| 0 <= k < |init| && init[k] == e;
        assert ledger[k] == e;
      }
    }
  }

  /** At most one audit event tells of an execution, and only of a committed one. */
  lemma {:induction false} AtMostOneExecutionEvent(w: World, writes: seq<Write>, id: nat)
    requires Inv(w) && Legal(w, writes)
    ensures var v := Run(w, writes);
            && EventCount(v.ledger, id) <= 1
            && (EventCount(v.ledger, id) == 1 ==> exists i :: 0 <= i < |v.actions| && v.actions[i].ask.id == id && v.actions[i].count == 1)
  {
    LegalKeeps(w, writes);
    var v := Run(w, writes);
    assert EventsSound(v.ledger, v.actions) && ActionsSound(v.actions, v.nextId);
    EventsAreCounted(v.ledger, id);
    if HasExecutionEvent(v.ledger, id) {
      var e :| e in v.ledger && e.ActionExecuted? && e.action == id;
      var i :| 0 <= i < |v.actions| && v.actions[i].ask.id == id && v.actions[i].status == Executed
               && v.actions[i].receipt.Some? && v.actions[i].receipt.value.hash == e.receipt;
      assert ActionSound(v.actions[i]);
    }
  }

  /**
    Once executed, an action record never changes again; its receipt verifies, so recovery's
    refusal for want of a valid receipt cannot happen, and its artifact still matches.
   */
  lemma {:induction false} ExecutedRecordIsForever(w: World, writes: seq<Write>, i: nat)
    requires Inv(w) && Legal(w, writes) && i < |w.actions| && w.actions[i].status == Executed
    ensures var v := Run(w, writes);
            && i < |v.actions| && v.actions[i] == w.actions[i] && Verifies(v.actions[i])
            && ReplayPlan(v, i).reply == Done
            && PackSound(v.actions[i], v.packs)
  {
    assert ActionSound(w.actions[i]);
    HistoryOnlyGrows(w, writes);
    LegalKeeps(w, writes);
    assert PacksSound(Run(w, writes).actions, Run(w, writes).packs);
  }

  /**
    Every commit happens while the action's own passport and mandate are the active,
    unexpired ones and the request is sanctioned; and the approval that sanctioned it stays
    approved, for the same agent, mandate, key and action.
   */
  lemma {:induction false} EveryCommitIsSanctioned(w: World, writes: seq<Write>, k: nat)
    requires Inv(w) && Legal(w, writes) && k < |writes| && writes[k].Commit?
    ensures Legal(w, writes[..k]) && Ok(Run(w, writes[..k]), writes[k])
    ensures var v, i := Run(w, writes[..k]), writes[k].commitAt;
            && i < |v.actions|
            && AuthorityHolds(v, v.actions[i].ask, writes[k].actor, writes[k].now)
            && Sanctioned(v, v.actions[i].ask)
            && Sanctioned(Run(w, writes), v.actions[i].ask)
  {
    hide *;
    EachWriteIsInOrder(w, writes, k);
    var v := Run(w, writes[..k]);
    CommitInOrderIsSanctioned(v, writes[k]);
    LegalKeeps(w, writes[..k]);
    SanctionStays(v, writes[k..], v.actions[writes[k].commitAt].ask);
  }

  lemma CommitInOrderIsSanctioned(w: World, write: Write)
    requires write.Commit? && Ok(w, write)
    ensures var i := write.commitAt;
            && i < |w.actions| && AuthorityHolds(w, w.actions[i].ask, write.actor, write.now) && Sanctioned(w, w.actions[i].ask)
  {
    hide AuthorityHolds, Sanctioned;
  }

  lemma {:induction false} EachWriteIsInOrder(w: World, writes: seq<Write>, k: nat)
    requires Legal(w, writes) && k < |writes|
    ensures Legal(w, writes[..k]) && Ok(Run(w, writes[..k]), writes[k])
    ensures Legal(Run(w, writes[..k]), writes[k..]) && Run(Run(w, writes[..k]), writes[k..]) == Run(w, writes)
  {
    CutIsLegal(w, writes, k + 1);
    LastIsInOrder(w, writes[..k + 1]);
    assert writes[..k + 1][..k] == writes[..k];
    hide Ok, Apply, Legal, Run;
    assert writes == writes[..k] + writes[k..];
    RunAppends(w, writes[..k], writes[k..]);
  }

  lemma {:induction false} LastIsInOrder(w: World, writes: seq<Write>)
    requires Legal(w, writes) && writes != []
    ensures Legal(w, writes[..|writes| - 1]) && Ok(Run(w, writes[..|writes| - 1]), writes[|writes| - 1])
  {
    hide Ok, Apply;
  }

  lemma {:induction false} SanctionStays(w: World, writes: seq<Write>, ask: Ask)
    requires Inv(w) && Legal(w, writes) && Sanctioned(w, ask)
    ensures Sanctioned(Run(w, writes), ask)
  {
    LegalKeeps(w, writes);
    HistoryOnlyGrows(w, writes);
    if ask.approval.Some? {
      var v, i := Run(w, writes), ApprovalAt(w, ask.approval.value);
      assert ApprovalsSound(v.approvals, v.nextId);
      assert v.approvals[i] == w.approvals[i];
      var j := ApprovalAt(v, ask.approval.value);
      assert v.approvals[j].id == v.approvals[i].id;
    }
  }

  /** What a human rejected, or a revocation invalidated, is never executed. */
  lemma {:induction false} RejectedApprovalNeverExecutes(w: World, writes: seq<Write>, i: nat, j: nat)
    requires Inv(w) && Legal(w, writes) && j < |w.approvals| && (w.approvals[j].status == Refused || w.approvals[j].status == Invalidated)
    requires i < |Run(w, writes).actions| && Run(w, writes).actions[i].ask.approval == Some(w.approvals[j].id)
    ensures Run(w, writes).actions[i].count == 0
    ensures j < |Run(w, writes).approvals| && Run(w, writes).approvals[j] == w.approvals[j]
  {
    LegalKeeps(w, writes);
    HistoryOnlyGrows(w, writes);
    var v := Run(w, writes);
    assert ActionSound(v.actions[i]) && HasItsApproval(v.actions[i], v.approvals) && ApprovalsSound(v.approvals, v.nextId);
  }

  predicate HeldBy(mandate: Mandate, agent: string) {
    mandate.agent == agent && mandate.status == Active
  }

  /**
    No agent has two active mandates, and the mandate shown for an agent, its newest, is the one that is enforced, its first active
    one, whenever one is active.
   */
  lemma OneAuthorityAtATime(w: World, agent: string)
    requires Inv(w)
    ensures ActiveMandateAt(w, agent) < |w.mandates| ==> AfterNewestMandate(w, agent) == ActiveMandateAt(w, agent) + 1
    ensures forall i, j :: 0 <= i < |w.mandates| && 0 <= j < |w.mandates| && HeldBy(w.mandates[i], agent) && HeldBy(w.mandates[j], agent) ==> i == j
  {
    assert MandatesSound(w.mandates, w.nextId);
    var i, n := ActiveMandateAt(w, agent), AfterNewestMandate(w, agent);
    if i < |w.mandates| {
      assert n > 0 && w.mandates[n - 1].agent == agent;
    }
  }
}
