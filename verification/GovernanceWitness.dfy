/** Concrete worlds for what the governance service does not promise. */
module GovernanceWitness {
  import opened Options
  import opened GovernanceModel
  import opened GovernancePlans
  import opened GovernanceSafety
  import opened GovernanceRecovery
  import opened GovernanceTheorems

  const OPERATOR := Actor("operator", false, true)

  const EXPORT_ASK := Ask(4, "agent", 0, 2, 1, "evidence_export", NeedsApproval, Some(3), "key", 0)

  /** One agent with an approved export; the passport ends at time 100, the mandate at 10. */
  function OneExport(status: ActionStatus, reason: string, mandate: MandateStatus, ledger: seq<Event>): World {
    World(
      agents := {"agent"}, bindings := [Binding("agent", "operator")], rooms := [Room(1, "room", {"operator"}, {"agent"})],
      actions := [Action(EXPORT_ASK, status, reason, 0, None, None, None)], memories := [],
      passports := [Passport(0, "agent", "operator", true, 100)],
      mandates := [Mandate(2, "agent", mandate, 10, ALLOWED_ACTIONS, PROHIBITED_ACTIONS, {"evidence_export"})],
      approvals := [Approval(3, "agent", 2, "key", "evidence_export", Approved)],
      decided := {"key"}, ledger := ledger, packs := map[], nextId := 5)
  }

  lemma OneExportIsSound(status: ActionStatus, reason: string, mandate: MandateStatus, ledger: seq<Event>)
    requires status != Executed && forall e :: e in ledger ==> e.Noted?
    ensures Inv(OneExport(status, reason, mandate, ledger))
  {
    var w := OneExport(status, reason, mandate, ledger);
    assert Bound(w.approvals[0], EXPORT_ASK);
    assert forall i :: 0 <= i < |ledger| ==> ledger[i] in ledger;
  }

  lemma ExportLookups(w: World, status: ActionStatus, reason: string, mandate: MandateStatus, ledger: seq<Event>)
    requires w == OneExport(status, reason, mandate, ledger)
    ensures PassportAt(w, "agent") == 0 && BindingAt(w, "agent") == 0 && RoomAt(w, 1) == 0
    ensures ApprovalAt(w, 3) == 0 && ActionWithApproval(w, 3) == 0 && AfterNewestMandate(w, "agent") == 1
    ensures ActiveMandateAt(w, "agent") == if mandate == Active then 0 else 1
  {
    assert w.passports[0].agent == "agent" && w.bindings[0].agent == "agent" && w.rooms[0].id == 1;
    assert w.approvals[0].id == 3 && w.actions[0].ask.approval == Some(3) && w.mandates[0].agent == "agent";
  }

  lemma ExportAuthority(w: World, status: ActionStatus, reason: string, mandate: MandateStatus, ledger: seq<Event>, now: int)
    requires w == OneExport(status, reason, mandate, ledger)
    ensures AuthorityHolds(w, EXPORT_ASK, OPERATOR, now) <==> mandate == Active && now < 10
    ensures HasPassport(w, "agent", now) <==> now < 100
    ensures Sanctioned(w, EXPORT_ASK)
  {
    ExportLookups(w, status, reason, mandate, ledger);
    assert |"evidence_export"| == 15 && |"crm_write"| == 9 && |"purchase"| == 8;
  }

  const UNAVAILABLE := "AUTHORITY_UNAVAILABLE_ON_RESTART"

  const DENIAL := [SetStatus(0, Turned, UNAVAILABLE), Append(Noted("POLICY_DENIED", "agent"))]

  lemma RestartDeniesTheExport(now: int)
    ensures RecoverPlan(OneExport(Pending, "", Suspended, []), 0, OPERATOR, now) == Plan(DENIAL, Done)
  {
    var w := OneExport(Pending, "", Suspended, []);
    ExportAuthority(w, Pending, "", Suspended, [], now);
    ExportLookups(w, Pending, "", Suspended, []);
    hide AuthorityHolds, Sanctioned;
  }

  lemma DenialWrites()
    ensures Run(OneExport(Pending, "", Suspended, []), DENIAL) == OneExport(Turned, UNAVAILABLE, Suspended, [Noted("POLICY_DENIED", "agent")])
  {
    var w := OneExport(Pending, "", Suspended, []);
    assert Ok(w, DENIAL[0]) && Ok(Apply(w, DENIAL[0]), DENIAL[1]);
    TwoWrites(w, DENIAL[0], DENIAL[1]);
    assert DENIAL == [DENIAL[0], DENIAL[1]];
  }

  lemma {:induction false} NothingToReplay(w: World)
    requires |w.actions| == 1 && w.actions[0].status != Executed
    ensures ReplayFrom(w, 0, 1) == NOTHING
  {
    assert ReplayPlan(w, 0) == NOTHING;
    NothingIsProper(w);
    hide ReplayPlan, Run;
    assert ReplayFrom(w, 1, 1) == NOTHING;
  }

  /** A restart while the mandate is suspended denies the export. */
  lemma RestartDenies(now: int)
    ensures var w := OneExport(Pending, "", Suspended, []);
            Run(w, InitializePlan(w, OPERATOR, now).writes) == OneExport(Turned, UNAVAILABLE, Suspended, [Noted("POLICY_DENIED", "agent")])
  {
    var w, w' := OneExport(Pending, "", Suspended, []), OneExport(Turned, UNAVAILABLE, Suspended, [Noted("POLICY_DENIED", "agent")]);
    assert |w.actions| == |w'.actions| == 1 && w'.actions[0].status == Turned;
    RestartDeniesTheExport(now);
    DenialWrites();
    hide Run, RecoverPlan, ReplayFrom, OneExport;
    assert RecoverFrom(w', 1, 1, OPERATOR, now) == NOTHING;
    assert DENIAL + [] == DENIAL;
    assert RecoverFrom(w, 0, 1, OPERATOR, now) == Plan(DENIAL, Done);
    NothingToReplay(w');
  }

  const REACTIVATION := [SetMandate(0, Active), Append(Noted("MANDATE_AMENDED", "agent"))]

  lemma ReactivationPlan(w: World, now: int)
    requires w == OneExport(Turned, UNAVAILABLE, Suspended, w.ledger) && now < 10
    ensures UpdateMandatePlan(w, "agent", Reactivate, now) == Plan(REACTIVATION, Done)
  {
    ExportLookups(w, Turned, UNAVAILABLE, Suspended, w.ledger);
  }

  lemma ReactivationApplies(w: World)
    requires w == OneExport(Turned, UNAVAILABLE, Suspended, w.ledger)
    ensures Apply(Apply(w, REACTIVATION[0]), REACTIVATION[1]) == OneExport(Turned, UNAVAILABLE, Active, w.ledger + [Noted("MANDATE_AMENDED", "agent")])
    ensures Ok(w, REACTIVATION[0]) && Ok(Apply(w, REACTIVATION[0]), REACTIVATION[1])
  {
    ExportLookups(w, Turned, UNAVAILABLE, Suspended, w.ledger);
  }

  lemma {:induction false} ReactivationRestores(w: World, now: int)
    requires w == OneExport(Turned, UNAVAILABLE, Suspended, w.ledger) && now < 10
    ensures Run(w, UpdateMandatePlan(w, "agent", Reactivate, now).writes) == OneExport(Turned, UNAVAILABLE, Active, w.ledger + [Noted("MANDATE_AMENDED", "agent")])
  {
    ReactivationPlan(w, now);
    ReactivationApplies(w);
    hide *;
    TwoWrites(w, REACTIVATION[0], REACTIVATION[1]);
    assert REACTIVATION == [REACTIVATION[0], REACTIVATION[1]];
  }

  lemma ApprovalStillExecutes(ledger: seq<Event>, now: int)
    requires now < 10 && forall e :: e in ledger ==> e.Noted?
    ensures var w := OneExport(Turned, UNAVAILABLE, Active, ledger);
            var w' := Run(w, DecideApprovalPlan(w, 3, true, OPERATOR, now).writes);
            |w'.actions| == 1 && w'.actions[0].status == Executed
  {
    var w := OneExport(Turned, UNAVAILABLE, Active, ledger);
    OneExportIsSound(Turned, UNAVAILABLE, Active, ledger);
    ExportAuthority(w, Turned, UNAVAILABLE, Active, ledger, now);
    ExportLookups(w, Turned, UNAVAILABLE, Active, ledger);
    assert |w.actions| == 1 && w.actions[0].ask == EXPORT_ASK && w.actions[0].count == 0 && w.approvals[0].status == Approved;
    assert DecideApprovalPlan(w, 3, true, OPERATOR, now) == ExecutePlan(w, 0, OPERATOR, now);
    hide Inv, AuthorityHolds, DecideApprovalPlan, ExecutePlan, Run, OneExport, Sanctioned;
    ExecutionIsProper(w, 0, OPERATOR, now);
  }

  /**
    "Denied" is not terminal. The human has approved, the mandate is suspended, the server
    restarts and denies the export; once the mandate is reactivated, sending the approval
    again executes it.
   */
  lemma DeniedIsNotTerminal()
    ensures Inv(OneExport(Pending, "", Suspended, []))
    ensures var w := OneExport(Pending, "", Suspended, []);
            var denied := Run(w, InitializePlan(w, OPERATOR, 1).writes);
            var restored := Run(denied, UpdateMandatePlan(denied, "agent", Reactivate, 2).writes);
            var last := Run(restored, DecideApprovalPlan(restored, 3, true, OPERATOR, 3).writes);
            && |denied.actions| == 1 && denied.actions[0].status == Turned
            && |last.actions| == 1 && last.actions[0].status == Executed
  {
    OneExportIsSound(Pending, "", Suspended, []);
    var denied := OneExport(Turned, UNAVAILABLE, Suspended, [Noted("POLICY_DENIED", "agent")]);
    assert denied.ledger == [Noted("POLICY_DENIED", "agent")] && |denied.actions| == 1 && denied.actions[0].status == Turned;
    hide Inv, InitializePlan, UpdateMandatePlan, DecideApprovalPlan, Run, OneExport;
    RestartDenies(1);
    ReactivationRestores(denied, 2);
    ApprovalStillExecutes(denied.ledger + [Noted("MANDATE_AMENDED", "agent")], 3);
  }

  /** An expired mandate that is still marked active blocks its own renewal. */
  lemma ExpiredMandateBlocksRenewal()
    ensures var w := OneExport(Turned, "", Active, []);
            && Inv(w) && HasPassport(w, "agent", 20)
            && AssignMandatePlan(w, "agent", false, 20) == NOTHING && !Governed(w, "agent", 20)
  {
    var w := OneExport(Turned, "", Active, []);
    OneExportIsSound(Turned, "", Active, []);
    ExportAuthority(w, Turned, "", Active, [], 20);
    ExportLookups(w, Turned, "", Active, []);
    hide Inv, HasPassport;
  }
}
