/**
  Every operation's writes are in order, so every run is, with crashes anywhere; and what
  recovery makes of a world that a crash left behind.
 */
module GovernanceRecovery {
  import opened Options
  import opened GovernanceModel
  import opened GovernancePlans
  import opened GovernanceSafety

  // --------------------------------------------------------------- short sequences in order

  lemma {:induction false} OneWrite(w: World, a: Write)
    requires Ok(w, a)
    ensures Legal(w, [a]) && Run(w, [a]) == Apply(w, a)
  {
    hide Ok, Apply;
    assert [a][..0] == [];
    assert Run(w, []) == w && Legal(w, []);
  }

  lemma {:induction false} TwoWrites(w: World, a: Write, b: Write)
    requires Ok(w, a) && Ok(Apply(w, a), b)
    ensures Legal(w, [a, b]) && Run(w, [a, b]) == Apply(Apply(w, a), b)
  {
    hide Ok, Apply;
    OneWrite(w, a);
    assert [a, b][..1] == [a];
  }

  lemma {:induction false} ThreeWrites(w: World, a: Write, b: Write, c: Write)
    requires Ok(w, a) && Ok(Apply(w, a), b) && Ok(Apply(Apply(w, a), b), c)
    ensures Legal(w, [a, b, c]) && Run(w, [a, b, c]) == Apply(Apply(Apply(w, a), b), c)
  {
    hide Ok, Apply;
    TwoWrites(w, a, b);
    assert [a, b, c][..2] == [a, b];
  }

  /** Each commit is followed at once by its audit event. */
  ghost predicate Paired(w: World, writes: seq<Write>) {
    forall k :: 0 <= k < |writes| && writes[k].Commit? ==> EventFollows(w, writes, k)
  }

  ghost predicate EventFollows(w: World, writes: seq<Write>, k: nat)
    requires k < |writes| && writes[k].Commit?
  {
    var v := Run(w, writes[..k]);
    && k + 1 < |writes| && writes[k + 1].Append? && writes[k + 1].event.ActionExecuted?
    && writes[k].commitAt < |v.actions| && writes[k + 1].event.action == v.actions[writes[k].commitAt].ask.id
  }

  /** In order, and no commit without its event to follow. */
  ghost predicate Proper(w: World, writes: seq<Write>) {
    Legal(w, writes) && Paired(w, writes)
  }

  lemma NoCommitIsPaired(w: World, writes: seq<Write>)
    requires forall k :: 0 <= k < |writes| ==> !writes[k].Commit?
    ensures Paired(w, writes)
  {
  }

  lemma {:induction false} ProperAppends(w: World, first: seq<Write>, second: seq<Write>)
    requires Proper(w, first) && Proper(Run(w, first), second)
    ensures Proper(w, first + second) && Run(w, first + second) == Run(Run(w, first), second)
  {
    RunAppends(w, first, second);
    var all := first + second;
    hide Legal, Run;
    forall k | 0 <= k < |all| && all[k].Commit? ensures EventFollows(w, all, k) {
      if k < |first| {
        assert EventFollows(w, first, k);
        assert all[..k] == first[..k];
      } else {
        assert EventFollows(Run(w, first), second, k - |first|);
        assert all[..k] == first + second[..k - |first|];
        RunAppends(w, first, second[..k - |first|]);
      }
    }
  }

  lemma {:induction false} ThenIsProper(w: World, first: Plan, second: Plan)
    requires Proper(w, first.writes) && Proper(Run(w, first.writes), second.writes)
    ensures Proper(w, Then(first, second).writes)
    ensures first.reply == Done ==> Run(w, Then(first, second).writes) == Run(Run(w, first.writes), second.writes)
  {
    ProperAppends(w, first.writes, second.writes);
    hide Proper, Run;
  }

  // -------------------------------------------------------------------------- execution

  lemma TheExecutedOne(w: World, i: nat, receipt: Hash)
    requires Inv(w) && i < |w.actions| && ExecutedAs(w.actions, w.actions[i].ask.id, receipt)
    ensures w.actions[i].status == Executed && w.actions[i].count == 1
    ensures w.actions[i].receipt.Some? && w.actions[i].receipt.value.hash == receipt
  {
    assert ActionsSound(w.actions, w.nextId);
    var j :| 0 <= j < |w.actions| && w.actions[j].ask.id == w.actions[i].ask.id && w.actions[j].status == Executed
             && w.actions[j].receipt.Some? && w.actions[j].receipt.value.hash == receipt;
    assert Collide(w.actions[i].ask, w.actions[j].ask) && Collide(w.actions[j].ask, w.actions[i].ask);
    assert i == j;
    assert ActionSound(w.actions[i]);
  }

  lemma NoEventBeforeCommit(w: World, i: nat)
    requires Inv(w) && i < |w.actions|
    ensures HasExecutionEvent(w.ledger, w.actions[i].ask.id) ==> w.actions[i].count == 1
  {
    assert EventsSound(w.ledger, w.actions);
    if HasExecutionEvent(w.ledger, w.actions[i].ask.id) {
      var e :| e in w.ledger && e.ActionExecuted? && e.action == w.actions[i].ask.id;
      TheExecutedOne(w, i, e.receipt);
    }
  }

  lemma CommittedEventIsOk(w: World, i: nat, result: Result, now: int, actor: Actor)
    requires Inv(w) && i < |w.actions| && w.actions[i].count == 0
    ensures var id, executed := w.actions[i].ask.id, ExecutedRecord(w.actions[i], result, now);
            EventOk(Apply(w, Commit(i, result, now, actor)), ActionExecuted(id, executed.receipt.value.hash, false))
  {
    NoEventBeforeCommit(w, i);
    var executed := ExecutedRecord(w.actions[i], result, now);
    var v := Apply(w, Commit(i, result, now, actor));
    hide Inv;
    assert v.actions[i] == executed && executed.ask == w.actions[i].ask && executed.status == Executed;
    assert ExecutedAs(v.actions, executed.ask.id, executed.receipt.value.hash);
  }

  /** The world once an action is committed and its event appended. */
  function Told(w: World, i: nat, executed: Action, event: Event): World
    requires i < |w.actions|
  {
    w.(actions := w.actions[i := executed], ledger := w.ledger + [event])
  }

  lemma CommitAndEventMake(w: World, i: nat, result: Result, now: int, actor: Actor)
    requires i < |w.actions|
    ensures var writes := CommitWrites(w.actions[i], i, result, actor, now);
            Apply(Apply(w, writes[0]), writes[1]) == Told(w, i, ExecutedRecord(w.actions[i], result, now), writes[1].event)
  {
    hide ExecutedRecord;
  }

  lemma CommitIsOk(w: World, i: nat, result: Result, now: int, actor: Actor)
    requires CommitOk(w, i, result, now, actor)
    ensures i < |w.actions| && w.actions[i].count == 0 && Ok(w, Commit(i, result, now, actor))
  {
    hide AuthorityHolds, Sanctioned, Outcome;
  }

  lemma CommitAndEventApply(w: World, i: nat, result: Result, now: int, actor: Actor)
    requires Inv(w) && CommitOk(w, i, result, now, actor)
    ensures var writes := CommitWrites(w.actions[i], i, result, actor, now);
            && Ok(w, writes[0]) && Ok(Apply(w, writes[0]), writes[1])
            && Apply(Apply(w, writes[0]), writes[1]) == Told(w, i, ExecutedRecord(w.actions[i], result, now), writes[1].event)
  {
    CommitIsOk(w, i, result, now, actor);
    hide Inv, CommitOk, Ok, Apply, EventOk, ExecutedRecord, Told;
    CommittedEventIsOk(w, i, result, now, actor);
    CommitAndEventMake(w, i, result, now, actor);
  }

  lemma {:induction false} CommitThenEvent(w: World, i: nat, result: Result, now: int, actor: Actor)
    requires Inv(w) && CommitOk(w, i, result, now, actor)
    ensures var writes := CommitWrites(w.actions[i], i, result, actor, now);
            && Proper(w, writes)
            && Run(w, writes) == Told(w, i, ExecutedRecord(w.actions[i], result, now), writes[1].event)
  {
    var writes := CommitWrites(w.actions[i], i, result, actor, now);
    CommitAndEventApply(w, i, result, now, actor);
    hide Inv, CommitOk, Ok, Apply, ExecutedRecord, Legal, Told;
    TwoWrites(w, writes[0], writes[1]);
    assert writes == [writes[0], writes[1]] && writes[..0] == [];
    assert Run(w, []) == w;
    hide Run;
    assert EventFollows(w, writes, 0);
  }

  function CommitWrites(action: Action, i: nat, result: Result, actor: Actor, now: int): seq<Write> {
    [Commit(i, result, now, actor), Append(ActionExecuted(action.ask.id, ExecutedRecord(action, result, now).receipt.value.hash, false))]
  }

  lemma PackFileKeepsAuthority(w: World, i: nat, pack: Pack, ask: Ask, actor: Actor, now: int)
    ensures AuthorityHolds(Apply(w, PutPack(i, pack)), ask, actor, now) == AuthorityHolds(w, ask, actor, now)
    ensures Sanctioned(Apply(w, PutPack(i, pack)), ask) == Sanctioned(w, ask)
  {
  }

  ghost predicate Executable(w: World, i: nat, actor: Actor, now: int) {
    && i < |w.actions| && w.actions[i].count == 0
    && AuthorityHolds(w, w.actions[i].ask, actor, now) && Sanctioned(w, w.actions[i].ask)
  }

  /** A governed action that policy knows always has an execution control. */
  lemma ExecutionControlExists(w: World, i: nat, actor: Actor, now: int)
    requires Inv(w) && Executable(w, i, actor, now)
    ensures w.actions[i].ask.name in ALLOWED_ACTIONS + {"evidence_export"}
  {
    assert ActionSound(w.actions[i]);
    assert MandateSound(w.mandates[ActiveMandateAt(w, w.actions[i].ask.agent)]);
    assert |"product_build"| == 13 && |"crm_write"| == 9 && |"purchase"| == 8;
    assert forall name :: name in LABELS ==> |name| != 13;
  }

  /** The ledger gains the execution event and the action its executed record; nothing else moves. */
  ghost predicate ExecutesOnly(w: World, w': World, i: nat) {
    && i < |w.actions| == |w'.actions|
    && w'.actions[i].status == Executed && HasExecutionEvent(w'.ledger, w.actions[i].ask.id)
    && (forall j :: 0 <= j < |w.actions| && j != i ==> w'.actions[j] == w.actions[j])
    && w'.approvals == w.approvals
  }

  /** The writes of an execution that goes through. */
  function ExecutionWrites(w: World, i: nat, actor: Actor, now: int): seq<Write>
    requires i < |w.actions|
  {
    var ask := w.actions[i].ask;
    (if ask.name == "evidence_export" then [PutPack(i, EvidencePack(w, ask, actor, now))] else [])
    + CommitWrites(w.actions[i], i, Outcome(w, ask, actor, now), actor, now)
  }

  lemma ExecutionPlanUnfolds(w: World, i: nat, actor: Actor, now: int)
    requires Inv(w) && Executable(w, i, actor, now)
    ensures ExecutePlan(w, i, actor, now) == Plan(ExecutionWrites(w, i, actor, now), Done)
  {
    ExecutionControlExists(w, i, actor, now);
    hide Inv, AuthorityHolds, Sanctioned, Outcome, ExecutedRecord, EvidencePack;
  }

  lemma {:induction false} CommitExecutesOnly(w: World, i: nat, result: Result, actor: Actor, now: int)
    requires Inv(w) && CommitOk(w, i, result, now, actor)
    ensures var writes := CommitWrites(w.actions[i], i, result, actor, now);
            Proper(w, writes) && ExecutesOnly(w, Run(w, writes), i)
  {
    CommitThenEvent(w, i, result, now, actor);
    var writes := CommitWrites(w.actions[i], i, result, actor, now);
    assert i < |w.actions|;
    hide Inv, CommitOk, Proper, Run;
    var ledger := w.ledger + [writes[1].event];
    assert ledger[|w.ledger|] in ledger;
  }

  lemma ExportHashesItsPack(w: World, i: nat, actor: Actor, now: int)
    requires i < |w.actions| && w.actions[i].ask.name == "evidence_export"
    ensures Outcome(w, w.actions[i].ask, actor, now) == Export(|w.ledger|, HashOf(PackDocument(EvidencePack(w, w.actions[i].ask, actor, now))))
  {
    hide Governed;
    assert |w.actions[i].ask.name| == 15 && |"inventory_report"| == 16 && |"verify_integrity"| == 16;
  }

  lemma PackThenCommit(w: World, i: nat, actor: Actor, now: int)
    requires Inv(w) && Executable(w, i, actor, now) && w.actions[i].ask.name == "evidence_export"
    ensures var put := PutPack(i, EvidencePack(w, w.actions[i].ask, actor, now));
            && Ok(w, put)
            && CommitOk(Apply(w, put), i, Outcome(w, w.actions[i].ask, actor, now), now, actor)
  {
    var ask := w.actions[i].ask;
    var pack := EvidencePack(w, ask, actor, now);
    ExportHashesItsPack(w, i, actor, now);
    PackFileKeepsAuthority(w, i, pack, ask, actor, now);
    hide Inv, AuthorityHolds, Sanctioned, Outcome, EvidencePack;
  }

  lemma ExportWrites(w: World, i: nat, actor: Actor, now: int)
    requires i < |w.actions| && w.actions[i].ask.name == "evidence_export"
    ensures var ask := w.actions[i].ask;
            var put := PutPack(i, EvidencePack(w, ask, actor, now));
            && ExecutionWrites(w, i, actor, now) == [put] + CommitWrites(w.actions[i], i, Outcome(w, ask, actor, now), actor, now)
            && Apply(w, put).actions == w.actions && Apply(w, put).approvals == w.approvals
  {
    hide Outcome, EvidencePack, ExecutedRecord;
  }

  lemma ExecutesOnlyTheSame(w: World, v: World, w': World, i: nat)
    requires v.actions == w.actions && v.approvals == w.approvals && ExecutesOnly(v, w', i)
    ensures ExecutesOnly(w, w', i)
  {
  }

  lemma {:induction false} ExportIsProper(w: World, i: nat, actor: Actor, now: int)
    requires Inv(w) && Executable(w, i, actor, now) && w.actions[i].ask.name == "evidence_export"
    ensures Proper(w, ExecutionWrites(w, i, actor, now)) && ExecutesOnly(w, Run(w, ExecutionWrites(w, i, actor, now)), i)
  {
    var ask := w.actions[i].ask;
    var put, result := PutPack(i, EvidencePack(w, ask, actor, now)), Outcome(w, ask, actor, now);
    var v, tail := Apply(w, put), CommitWrites(w.actions[i], i, result, actor, now);
    assert [put][0] == put && !put.Commit?;
    hide *;
    ExportWrites(w, i, actor, now);
    PackThenCommit(w, i, actor, now);
    WriteKeeps(w, put);
    OnePutIsProper(w, put);
    CommitExecutesOnly(v, i, result, actor, now);
    ProperAppends(w, [put], tail);
    ExecutesOnlyTheSame(w, v, Run(v, tail), i);
  }

  lemma {:induction false} OnePutIsProper(w: World, put: Write)
    requires Ok(w, put) && !put.Commit?
    ensures Proper(w, [put]) && Run(w, [put]) == Apply(w, put)
  {
    OneWrite(w, put);
    NoCommitIsPaired(w, [put]);
    hide Ok, Apply, Legal, Run, Paired;
  }

  /** An execution that policy and people allow goes through, and changes its own action alone. */
  lemma {:induction false} ExecutionIsProper(w: World, i: nat, actor: Actor, now: int)
    requires Inv(w) && Executable(w, i, actor, now)
    ensures var plan := ExecutePlan(w, i, actor, now);
            plan.reply == Done && Proper(w, plan.writes) && ExecutesOnly(w, Run(w, plan.writes), i)
  {
    ExecutionPlanUnfolds(w, i, actor, now);
    if w.actions[i].ask.name == "evidence_export" {
      ExportIsProper(w, i, actor, now);
    } else {
      var result := Outcome(w, w.actions[i].ask, actor, now);
      ExecutionControlExists(w, i, actor, now);
      assert CommitOk(w, i, result, now, actor);
      hide Inv, AuthorityHolds, Sanctioned, Proper, Run, Outcome, CommitOk;
      CommitExecutesOnly(w, i, result, actor, now);
      assert ExecutionWrites(w, i, actor, now) == CommitWrites(w.actions[i], i, result, actor, now);
    }
    hide *;
  }

  lemma {:induction false} NothingIsProper(w: World)
    ensures Proper(w, []) && Run(w, []) == w
  {
  }

  lemma ExecutePlanIsProper(w: World, i: nat, actor: Actor, now: int)
    requires Inv(w)
    ensures Proper(w, ExecutePlan(w, i, actor, now).writes)
  {
    NothingIsProper(w);
    if Executable(w, i, actor, now) {
      ExecutionIsProper(w, i, actor, now);
    }
    hide Inv, AuthorityHolds, Sanctioned, Proper, Outcome;
  }

  // ---------------------------------------------------------------------------- recovery

  lemma ItsApprovalIsBound(w: World, i: nat)
    requires Inv(w) && i < |w.actions| && w.actions[i].ask.approval.Some?
    ensures var j := ApprovalAt(w, w.actions[i].ask.approval.value);
            j < |w.approvals| && Bound(w.approvals[j], w.actions[i].ask)
  {
    var ask := w.actions[i].ask;
    assert HasItsApproval(w.actions[i], w.approvals) && ApprovalsSound(w.approvals, w.nextId);
    var j :| 0 <= j < |w.approvals| && Bound(w.approvals[j], ask);
    assert ApprovalAt(w, ask.approval.value) == j;
  }

  /** A pending action waits for a human, and for nothing else. */
  ghost predicate Waits(w: World, i: nat)
    requires i < |w.actions|
  {
    w.actions[i].status == Pending ==>
      && w.actions[i].ask.approval.Some?
      && var j := ApprovalAt(w, w.actions[i].ask.approval.value);
         j < |w.approvals| && w.approvals[j].status == Awaiting
  }

  ghost predicate Recorded(w: World, i: nat)
    requires i < |w.actions|
  {
    w.actions[i].status == Executed ==> HasExecutionEvent(w.ledger, w.actions[i].ask.id)
  }

  /** One action's status, result and event may change; everything around it stays. */
  ghost predicate TouchesOnly(w: World, w': World, i: nat) {
    && |w'.actions| == |w.actions| && w'.approvals == w.approvals
    && forall j :: 0 <= j < |w.actions| && j != i ==> w'.actions[j] == w.actions[j]
  }

  lemma {:induction false} StatusChangeIsProper(w: World, i: nat, status: ActionStatus, reason: string, told: seq<Write>)
    requires Inv(w) && i < |w.actions| && w.actions[i].status == Pending && (status == Turned || status == Rejected)
    requires told == [] || (|told| == 1 && told[0].Append? && told[0].event.Noted?)
    ensures var writes := [SetStatus(i, status, reason)] + told;
            && Proper(w, writes) && TouchesOnly(w, Run(w, writes), i) && Run(w, writes).actions[i].status == status
  {
    assert ActionSound(w.actions[i]);
    var change := SetStatus(i, status, reason);
    assert Ok(w, change);
    NoCommitIsPaired(w, [change] + told);
    hide Inv, Legal, Run, Paired, Ok, ActionSound;
    if told == [] {
      assert [change] + told == [change];
      OneWrite(w, change);
    } else {
      assert [change] + told == [change, told[0]];
      NotingIsOk(Apply(w, change), told[0]);
      TwoWrites(w, change, told[0]);
    }
  }

  lemma NotingIsOk(w: World, note: Write)
    requires note.Append? && note.event.Noted?
    ensures Ok(w, note)
  {
  }

  /** The rounds of recovery that execute nothing, case by case. */
  lemma StatusRounds(w: World, i: nat, actor: Actor, now: int)
    requires Inv(w) && i < |w.actions| && w.actions[i].status == Pending && !Executable(w, i, actor, now)
    ensures var plan := RecoverPlan(w, i, actor, now);
            || plan == Plan([SetStatus(i, Turned, "AUTHORITY_UNAVAILABLE_ON_RESTART"), Append(Noted("POLICY_DENIED", w.actions[i].ask.agent))], Done)
            || plan == Plan([SetStatus(i, Rejected, w.actions[i].reason)], Done)
            || plan == Plan([SetStatus(i, Turned, w.actions[i].reason)], Done)
            || (plan == NOTHING && Waits(w, i))
  {
    assert ActionSound(w.actions[i]);
    if w.actions[i].ask.approval.Some? {
      ItsApprovalIsBound(w, i);
    }
    hide Inv, AuthorityHolds, Signed, ExecutePlan;
  }

  lemma {:induction false} StatusRoundsAreProper(w: World, i: nat, actor: Actor, now: int)
    requires Inv(w) && i < |w.actions| && w.actions[i].status == Pending && !Executable(w, i, actor, now)
    ensures var plan := RecoverPlan(w, i, actor, now);
            && plan.reply == Done && Proper(w, plan.writes)
            && TouchesOnly(w, Run(w, plan.writes), i) && Waits(Run(w, plan.writes), i)
  {
    hide Inv, Executable, Run, Proper, RecoverPlan;
    NothingIsProper(w);
    StatusRounds(w, i, actor, now);
    var told := Append(Noted("POLICY_DENIED", w.actions[i].ask.agent));
    StatusChangeIsProper(w, i, Turned, "AUTHORITY_UNAVAILABLE_ON_RESTART", [told]);
    assert [SetStatus(i, Turned, "AUTHORITY_UNAVAILABLE_ON_RESTART")] + [told] == [SetStatus(i, Turned, "AUTHORITY_UNAVAILABLE_ON_RESTART"), told];
    StatusChangeIsProper(w, i, Rejected, w.actions[i].reason, []);
    StatusChangeIsProper(w, i, Turned, w.actions[i].reason, []);
    assert forall x: Write :: [x] + [] == [x];
  }

  lemma ExecutableIsRecovered(w: World, i: nat, actor: Actor, now: int)
    requires Inv(w) && Executable(w, i, actor, now) && w.actions[i].status == Pending
    ensures RecoverPlan(w, i, actor, now) == ExecutePlan(w, i, actor, now)
  {
    assert ActionSound(w.actions[i]);
    hide Inv, AuthorityHolds, ExecutePlan, Signed;
  }

  /** One round of recovery never fails, and leaves its action waiting at most for a human. */
  lemma {:induction false} RecoverPlanIsProper(w: World, i: nat, actor: Actor, now: int)
    requires Inv(w) && i < |w.actions|
    ensures var plan := RecoverPlan(w, i, actor, now);
            && plan.reply == Done && Proper(w, plan.writes)
            && TouchesOnly(w, Run(w, plan.writes), i) && Waits(Run(w, plan.writes), i)
  {
    NothingIsProper(w);
    if w.actions[i].status == Pending {
      if Executable(w, i, actor, now) {
        ExecutionIsProper(w, i, actor, now);
        ExecutableIsRecovered(w, i, actor, now);
        hide Inv, Executable, RecoverPlan, ExecutePlan, Proper, Run, HasExecutionEvent;
      } else {
        StatusRoundsAreProper(w, i, actor, now);
      }
    }
    hide Inv, Executable, ExecutePlan, Proper, Run, HasExecutionEvent, AuthorityHolds;
  }

  lemma {:induction false} RecoverFromIsProper(w: World, i: nat, actor: Actor, now: int)
    requires Inv(w) && i <= |w.actions| && forall j :: 0 <= j < i ==> Waits(w, j)
    ensures var plan := RecoverFrom(w, i, |w.actions|, actor, now);
            var w' := Run(w, plan.writes);
            && plan.reply == Done && Proper(w, plan.writes) && Inv(w')
            && |w'.actions| == |w.actions| && forall j :: 0 <= j < |w'.actions| ==> Waits(w', j)
    decreases |w.actions| - i
  {
    hide Inv, Run, RecoverPlan, Proper;
    if i == |w.actions| {
      NothingIsProper(w);
    } else {
      var one := RecoverPlan(w, i, actor, now);
      RecoverPlanIsProper(w, i, actor, now);
      var v := Run(w, one.writes);
      ProperKeeps(w, one.writes);
      WaitingStays(w, v, i);
      RecoverFromIsProper(v, i + 1, actor, now);
      ThenIsProper(w, one, RecoverFrom(v, i + 1, |w.actions|, actor, now));
    }
  }

  lemma WaitingStays(w: World, w': World, i: nat)
    requires TouchesOnly(w, w', i) && i < |w.actions| && (forall j :: 0 <= j < i ==> Waits(w, j)) && Waits(w', i)
    ensures forall j :: 0 <= j < i + 1 ==> Waits(w', j)
  {
    forall j | 0 <= j < i ensures Waits(w', j) {
      assert Waits(w, j);
    }
  }

  lemma {:induction false} ProperKeeps(w: World, writes: seq<Write>)
    requires Inv(w) && Proper(w, writes)
    ensures Inv(Run(w, writes))
  {
    LegalKeeps(w, writes);
  }

  lemma {:induction false} ReplayPlanIsProper(w: World, i: nat)
    requires Inv(w) && i < |w.actions|
    ensures var plan := ReplayPlan(w, i);
            && plan.reply == Done && Proper(w, plan.writes)
            && Run(w, plan.writes) == w.(ledger := Run(w, plan.writes).ledger)
            && w.ledger <= Run(w, plan.writes).ledger && Recorded(Run(w, plan.writes), i)
  {
    NothingIsProper(w);
    assert ActionSound(w.actions[i]);
    var action := w.actions[i];
    if action.status == Executed && !HasExecutionEvent(w.ledger, action.ask.id) {
      var event := ActionExecuted(action.ask.id, action.receipt.value.hash, true);
      assert ExecutedAs(w.actions, event.action, event.receipt);
      OneWrite(w, Append(event));
      NoCommitIsPaired(w, [Append(event)]);
      assert event in w.ledger + [event];
    }
    hide Inv, Legal, Paired, Run;
  }

  lemma RecordedStays(w: World, w': World, i: nat)
    requires w' == w.(ledger := w'.ledger) && w.ledger <= w'.ledger && i < |w.actions|
    requires (forall j :: 0 <= j < i ==> Recorded(w, j)) && Recorded(w', i)
    ensures forall j :: 0 <= j < i + 1 ==> Recorded(w', j)
  {
    forall j | 0 <= j < i ensures Recorded(w', j) {
      assert Recorded(w, j);
      forall e | e in w.ledger ensures e in w'.ledger {
        assert w.ledger == w'.ledger[..|w.ledger|];
      }
    }
  }

  lemma {:induction false} ReplayFromIsProper(w: World, i: nat)
    requires Inv(w) && i <= |w.actions| && forall j :: 0 <= j < i ==> Recorded(w, j)
    ensures var plan := ReplayFrom(w, i, |w.actions|);
            var w' := Run(w, plan.writes);
            && plan.reply == Done && Proper(w, plan.writes) && w' == w.(ledger := w'.ledger)
            && forall j :: 0 <= j < |w'.actions| ==> Recorded(w', j)
    decreases |w.actions| - i
  {
    hide Inv, Run, ReplayPlan, Proper, Recorded;
    if i == |w.actions| {
      NothingIsProper(w);
    } else {
      var one := ReplayPlan(w, i);
      ReplayPlanIsProper(w, i);
      var v := Run(w, one.writes);
      ProperKeeps(w, one.writes);
      RecordedStays(w, v, i);
      ReplayFromIsProper(v, i + 1);
      ThenIsProper(w, one, ReplayFrom(v, i + 1, |w.actions|));
    }
  }

  /**
    Recovery never gets stuck. From any world a run can leave, a restart completes: no
    pending action is left that waits for anything but a human, and every executed action
    has exactly one audit event.
   */
  lemma {:induction false} InitializeRepairs(w: World, actor: Actor, now: int)
    requires Inv(w)
    ensures var plan := InitializePlan(w, actor, now);
            var w' := Run(w, plan.writes);
            && plan.reply == Done && Proper(w, plan.writes) && Inv(w')
            && (forall i :: 0 <= i < |w'.actions| ==> Waits(w', i))
            && (forall i :: 0 <= i < |w'.actions| && w'.actions[i].status == Executed ==> EventCount(w'.ledger, w'.actions[i].ask.id) == 1)
  {
    var recovered := RecoverFrom(w, 0, |w.actions|, actor, now);
    RecoverFromIsProper(w, 0, actor, now);
    var v := Run(w, recovered.writes);
    ReplayFromIsProper(v, 0);
    ThenIsProper(w, recovered, ReplayFrom(v, 0, |w.actions|));
    ProperKeeps(w, InitializePlan(w, actor, now).writes);
    var w' := Run(w, InitializePlan(w, actor, now).writes);
    assert EventsSound(w'.ledger, w'.actions);
    hide Inv, Proper, Run, RecoverFrom, ReplayFrom, EventCount;
    forall i | 0 <= i < |w'.actions| && w'.actions[i].status == Executed ensures EventCount(w'.ledger, w'.actions[i].ask.id) == 1 {
      assert Recorded(w', i);
      EventsAreCounted(w'.ledger, w'.actions[i].ask.id);
    }
    forall i | 0 <= i < |w'.actions| ensures Waits(w', i) {
      assert Waits(v, i);
    }
  }
}
