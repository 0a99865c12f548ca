/** Classifying an entity from its merged evidence: independent gates beside a heuristic score. */
module Classification {
  import opened EvidenceMerge
  import opened CensusModel

  datatype Grade = ConfirmedAgent | ProbableAgent | Uncertain | ProbableService | ConfirmedNonAgent

  /** `confidence` in hundredths, the precision the source rounds to. */
  datatype Verdict = Verdict(isAgent: bool, confidence: nat, grade: Grade, entityType: string)

  function One(b: bool): nat {
    if b then 1 else 0
  }

  /** The size of the intersection of the kinds with the seven behaviour kinds. */
  function Behaviours(kinds: set<string>): (n: nat)
    ensures n <= 7
  {
    One("llm_call" in kinds) + One("planning" in kinds) + One("tool_call" in kinds) +
    One("memory_access" in kinds) + One("delegation" in kinds) +
    One("autonomous_action" in kinds) + One("multi_step" in kinds)
  }

  predicate Declared(kinds: set<string>, candidates: seq<Candidate>) {
    || "a2a_card" in kinds || "agent_card" in kinds || "declared_agent" in kinds
    || "manual_registration" in kinds || "registration" in kinds
    || exists c :: c in candidates && c.registrationId != ""
  }

  predicate Decides(kinds: set<string>) {
    "planning" in kinds || "autonomous_action" in kinds || "delegation" in kinds
  }

  predicate Continues(kinds: set<string>) {
    "memory_access" in kinds || "multi_step" in kinds || "autonomous_action" in kinds || "delegation" in kinds
  }

  predicate BehavesAsAgent(kinds: set<string>) {
    "llm_call" in kinds && "tool_call" in kinds && Decides(kinds) && Continues(kinds)
  }

  function Min(a: nat, b: nat): nat {
    if a < b then a else b
  }

  /** The score alone: it reads only the set of kinds and whether anything was declared. */
  function Score(kinds: set<string>, declared: bool): nat {
    if BehavesAsAgent(kinds) then Min(97, 72 + 4 * Behaviours(kinds) + 3 * One(declared))
    else Min(69, 12 * Behaviours(kinds) + 8 * One(declared))
  }

  predicate Hinted(candidates: seq<Candidate>, hints: set<string>) {
    exists c :: c in candidates && c.entityHint in hints
  }

  function AgentType(kinds: set<string>, candidates: seq<Candidate>): string {
    if Hinted(candidates, {"multi_agent_system"}) && "delegation" in kinds then "multi_agent_system"
    else if Hinted(candidates, {"sub_agent", "dynamic_sub_agent", "dynamically_created_sub_agent"}) then "dynamic_sub_agent"
    else "autonomous_agent"
  }

  function OtherType(kinds: set<string>, candidates: seq<Candidate>): (Grade, string) {
    if Hinted(candidates, {"workflow"}) || "workflow" in kinds then (Uncertain, "workflow")
    else if "llm_call" in kinds then
      (Uncertain, if "tool_call" in kinds then "ai_enabled_application" else "llm_wrapper")
    else if (exists c :: c in candidates && "mcp" in c.protocols) || Hinted(candidates, {"mcp_server"}) then
      (ProbableService, "mcp_server")
    else if Hinted(candidates, {"api", "normal_api", "ordinary_api"}) then (ProbableService, "api")
    else if Hinted(candidates, {"service", "normal_service", "microservice", "traditional_microservice"}) then
      (ProbableService, "traditional_microservice")
    else (Uncertain, "unknown_entity")
  }

  function Classify(evidence: seq<Evidence>, candidates: seq<Candidate>): Verdict {
    var kinds := KindsOf(evidence);
    var declared := Declared(kinds, candidates);
    var score := Score(kinds, declared);
    if BehavesAsAgent(kinds) then
      Verdict(true, score, if declared && score >= 90 then ConfirmedAgent else ProbableAgent, AgentType(kinds, candidates))
    else
      var (grade, entityType) := OtherType(kinds, candidates);
      Verdict(false, score, grade, entityType)
  }

  function Assess(candidates: seq<Candidate>): Verdict {
    Classify(MergedEvidence(candidates), candidates)
  }

  /**
    Agents and everything else are separated by score for any evidence; "confirmed" means
    declared with at least four distinct behaviours; "confirmed non-agent" is never said.
   */
  lemma ScoresSeparate(evidence: seq<Evidence>, candidates: seq<Candidate>)
    ensures var v, kinds := Classify(evidence, candidates), KindsOf(evidence);
            && (v.isAgent <==> 84 <= v.confidence <= 97)
            && (!v.isAgent <==> v.confidence <= 69)
            && (v.grade == ConfirmedAgent <==> v.isAgent && Declared(kinds, candidates) && Behaviours(kinds) >= 4)
            && (v.isAgent <==> v.grade == ConfirmedAgent || v.grade == ProbableAgent)
            && v.grade != ConfirmedNonAgent
  {
    VerdictReads(evidence, candidates);
    BehavesInScore(KindsOf(evidence), Declared(KindsOf(evidence), candidates));
  }

  /** The candidates, between them, were seen to use a model and a tool, to decide and to continue. */
  ghost predicate ActsAsAgent(candidates: seq<Candidate>) {
    && Observes(candidates, "llm_call") && Observes(candidates, "tool_call")
    && (Observes(candidates, "planning") || Observes(candidates, "autonomous_action") || Observes(candidates, "delegation"))
    && (Observes(candidates, "memory_access") || Observes(candidates, "multi_step")
        || Observes(candidates, "autonomous_action") || Observes(candidates, "delegation"))
  }

  /** An entity is an agent exactly when some candidates, between them, pass all four gates. */
  lemma AgentGates(candidates: seq<Candidate>)
    ensures Assess(candidates).isAgent <==> ActsAsAgent(candidates)
  {
    KindsOfMerged(candidates);
    assert forall kind :: kind in KindsOf(MergedEvidence(candidates)) <==> Observes(candidates, kind);
  }

  const BEHAVIOUR_KINDS := ["llm_call", "planning", "tool_call", "memory_access", "delegation", "autonomous_action", "multi_step"]

  lemma {:induction false} BehaviourKindsDiffer()
    ensures |BEHAVIOUR_KINDS| == 7
    ensures forall i, j :: 0 <= i < j < 7 ==> BEHAVIOUR_KINDS[i] != BEHAVIOUR_KINDS[j]
  {
    assert |"llm_call"| == 8 && |"planning"| == 8 && "llm_call"[0] != "planning"[0];
    assert |"delegation"| == |"multi_step"| == 10 && "delegation"[0] != "multi_step"[0];
    assert |"tool_call"| == 9 && |"memory_access"| == 13 && |"autonomous_action"| == 17;
  }

  function Among(kinds: set<string>, list: seq<string>): set<string> {
    set k | k in list && k in kinds
  }

  lemma {:induction false} OneMoreAmong(kinds: set<string>, list: seq<string>, k: string)
    requires k !in list
    ensures |Among(kinds, list + [k])| == |Among(kinds, list)| + One(k in kinds)
  {
    assert Among(kinds, list + [k]) == Among(kinds, list) + (if k in kinds then {k} else {});
  }

  /** The sum of seven answers is the number of distinct behaviours among the kinds. */
  lemma {:induction false} BehavioursAreDistinctKinds(kinds: set<string>)
    ensures Behaviours(kinds) == |Among(kinds, BEHAVIOUR_KINDS)|
  {
    var list := BEHAVIOUR_KINDS;
    BehaviourKindsDiffer();
    hide Among, One;
    assert list[..7] == list && list[..0] == [];
    assert |Among(kinds, [])| == 0 by { NoneAmongNone(kinds); }
    AmongPrefix(kinds, 0);
    AmongPrefix(kinds, 1);
    AmongPrefix(kinds, 2);
    AmongPrefix(kinds, 3);
    AmongPrefix(kinds, 4);
    AmongPrefix(kinds, 5);
    AmongPrefix(kinds, 6);
  }

  lemma NoneAmongNone(kinds: set<string>)
    ensures |Among(kinds, [])| == 0
  {
  }

  lemma {:induction false} AmongPrefix(kinds: set<string>, n: nat)
    requires n < |BEHAVIOUR_KINDS|
    ensures |Among(kinds, BEHAVIOUR_KINDS[..n + 1])| == |Among(kinds, BEHAVIOUR_KINDS[..n])| + One(BEHAVIOUR_KINDS[n] in kinds)
  {
    BehaviourKindsDiffer();
    assert BEHAVIOUR_KINDS[..n + 1] == BEHAVIOUR_KINDS[..n] + [BEHAVIOUR_KINDS[n]];
    OneMoreAmong(kinds, BEHAVIOUR_KINDS[..n], BEHAVIOUR_KINDS[n]);
  }

  /** Some candidate declares the entity: by a card, a registration or a registration id. */
  ghost predicate DeclaredBy(candidates: seq<Candidate>) {
    || Observes(candidates, "a2a_card") || Observes(candidates, "agent_card") || Observes(candidates, "declared_agent")
    || Observes(candidates, "manual_registration") || Observes(candidates, "registration")
    || exists c :: c in candidates && c.registrationId != ""
  }

  ghost function BehavioursSeen(candidates: seq<Candidate>): set<string> {
    set k | k in BEHAVIOUR_KINDS && Observes(candidates, k)
  }

  /**
    "Confirmed" is said exactly of agents that some candidate declares and that the
    candidates, between them, show in at least four distinct behaviours; agents score from
    84 to 97 and everything else at most 69.
   */
  lemma {:induction false} ConfirmedIff(candidates: seq<Candidate>)
    ensures var v := Assess(candidates);
            && (v.grade == ConfirmedAgent <==> ActsAsAgent(candidates) && DeclaredBy(candidates) && |BehavioursSeen(candidates)| >= 4)
            && (v.isAgent <==> 84 <= v.confidence <= 97) && (!v.isAgent <==> v.confidence <= 69)
  {
    var kinds := KindsOf(MergedEvidence(candidates));
    KindsOfMerged(candidates);
    AgentGates(candidates);
    ScoresSeparate(MergedEvidence(candidates), candidates);
    BehavioursAreDistinctKinds(kinds);
    assert BehavioursSeen(candidates) == Among(kinds, BEHAVIOUR_KINDS);
    assert Declared(kinds, candidates) == DeclaredBy(candidates);
    hide ActsAsAgent, DeclaredBy, Declared, Behaviours, Classify, KindsOf, MergedEvidence, BehavioursSeen, Among;
  }

  /**
    The score adds up distinct behaviours and a declaration, and is cut off at 97 hundredths
    for agents and at 69 for everything else.
   */
  lemma {:induction false} ScoreAddsUp(candidates: seq<Candidate>)
    ensures var n, declared := |BehavioursSeen(candidates)|, if DeclaredBy(candidates) then 1 else 0;
            var sum := if ActsAsAgent(candidates) then 72 + 4 * n + 3 * declared else 12 * n + 8 * declared;
            var most := if ActsAsAgent(candidates) then 97 else 69;
            Assess(candidates).confidence == if sum < most then sum else most
  {
    var kinds := KindsOf(MergedEvidence(candidates));
    SeenInKinds(candidates);
    AgentGates(candidates);
    hide *;
    VerdictReads(MergedEvidence(candidates), candidates);
    AssessIs(candidates);
    BehavioursAreDistinctKinds(kinds);
    ScoreIs(kinds, Declared(kinds, candidates));
  }

  lemma AssessIs(candidates: seq<Candidate>)
    ensures Assess(candidates) == Classify(MergedEvidence(candidates), candidates)
  {
  }

  lemma ScoreIs(kinds: set<string>, declared: bool)
    ensures var n, bonus := Behaviours(kinds), if declared then 1 else 0;
            var sum := if BehavesAsAgent(kinds) then 72 + 4 * n + 3 * bonus else 12 * n + 8 * bonus;
            var most := if BehavesAsAgent(kinds) then 97 else 69;
            Score(kinds, declared) == if sum < most then sum else most
  {
    hide BehavesAsAgent, Behaviours;
  }

  /** What the candidates show between them is what their merged evidence shows. */
  lemma {:induction false} SeenInKinds(candidates: seq<Candidate>)
    ensures var kinds := KindsOf(MergedEvidence(candidates));
            BehavioursSeen(candidates) == Among(kinds, BEHAVIOUR_KINDS) && Declared(kinds, candidates) == DeclaredBy(candidates)
  {
    KindsOfMerged(candidates);
    hide KindsOf, MergedEvidence;
  }

  ghost predicate Hints(candidates: seq<Candidate>, hint: string) {
    exists c :: c in candidates && c.entityHint == hint
  }

  /** What an agent is called: a system only if it was seen to delegate, a sub-agent by its hint. */
  lemma {:induction false} AgentIsCalled(candidates: seq<Candidate>)
    requires ActsAsAgent(candidates)
    ensures var name := Assess(candidates).entityType;
            && (name == "multi_agent_system" <==> Hints(candidates, "multi_agent_system") && Observes(candidates, "delegation"))
            && (name == "dynamic_sub_agent" <==>
                  && !(Hints(candidates, "multi_agent_system") && Observes(candidates, "delegation"))
                  && (Hints(candidates, "sub_agent") || Hints(candidates, "dynamic_sub_agent") || Hints(candidates, "dynamically_created_sub_agent")))
            && (name in {"multi_agent_system", "dynamic_sub_agent", "autonomous_agent"})
  {
    AgentGates(candidates);
    KindsOfMerged(candidates);
    hide ActsAsAgent, Score, Declared, MergedEvidence, KindsOf;
    assert |"multi_agent_system"| == 18 && |"dynamic_sub_agent"| == 17 && |"autonomous_agent"| == 16;
    forall hint ensures Hints(candidates, hint) <==> Hinted(candidates, {hint}) {}
  }

  /**
    What anything else is called, and how surely: a workflow, an application or a wrapper
    around a model, a server, an interface or a service, whichever comes first.
   */
  lemma {:induction false} OthersAreCalled(candidates: seq<Candidate>)
    requires !ActsAsAgent(candidates)
    ensures var v := Assess(candidates);
            (v.grade, v.entityType) ==
            if Hints(candidates, "workflow") || Observes(candidates, "workflow") then (Uncertain, "workflow")
            else if Observes(candidates, "llm_call") && Observes(candidates, "tool_call") then (Uncertain, "ai_enabled_application")
            else if Observes(candidates, "llm_call") then (Uncertain, "llm_wrapper")
            else if Hints(candidates, "mcp_server") || exists c :: c in candidates && "mcp" in c.protocols then (ProbableService, "mcp_server")
            else if Hints(candidates, "api") || Hints(candidates, "normal_api") || Hints(candidates, "ordinary_api") then (ProbableService, "api")
            else if Hints(candidates, "service") || Hints(candidates, "normal_service") || Hints(candidates, "microservice")
                    || Hints(candidates, "traditional_microservice") then (ProbableService, "traditional_microservice")
            else (Uncertain, "unknown_entity")
  {
    AgentGates(candidates);
    KindsOfMerged(candidates);
    hide ActsAsAgent, Score, Declared, MergedEvidence, KindsOf;
  }

  lemma MoreKindsScoreNoLess(kinds: set<string>, kinds': set<string>, declared: bool, declared': bool)
    requires kinds <= kinds' && (declared ==> declared')
    ensures Score(kinds, declared) <= Score(kinds', declared')
    ensures BehavesAsAgent(kinds) ==> BehavesAsAgent(kinds')
    ensures Behaviours(kinds) <= Behaviours(kinds')
  {
    BehavesInScore(kinds, declared);
    BehavesInScore(kinds', declared');
  }

  lemma BehavesInScore(kinds: set<string>, declared: bool)
    ensures BehavesAsAgent(kinds) ==> 3 <= Behaviours(kinds) && 84 <= Score(kinds, declared) <= 97
    ensures !BehavesAsAgent(kinds) ==> Score(kinds, declared) <= 69
  {
  }

  lemma OtherTypeIsNoAgent(kinds: set<string>, candidates: seq<Candidate>)
    ensures OtherType(kinds, candidates).0 == Uncertain || OtherType(kinds, candidates).0 == ProbableService
  {
  }

  lemma VerdictReads(evidence: seq<Evidence>, candidates: seq<Candidate>)
    ensures var v, kinds := Classify(evidence, candidates), KindsOf(evidence);
            && v.isAgent == BehavesAsAgent(kinds)
            && v.confidence == Score(kinds, Declared(kinds, candidates))
            && (v.isAgent ==> v.grade == if Declared(kinds, candidates) && v.confidence >= 90 then ConfirmedAgent else ProbableAgent)
            && (!v.isAgent ==> v.grade == Uncertain || v.grade == ProbableService)
  {
    OtherTypeIsNoAgent(KindsOf(evidence), candidates);
  }

  lemma MoreCandidatesMoreKinds(fewer: seq<Candidate>, more: seq<Candidate>)
    requires forall c :: c in fewer ==> c in more
    ensures KindsOf(MergedEvidence(fewer)) <= KindsOf(MergedEvidence(more))
    ensures Declared(KindsOf(MergedEvidence(fewer)), fewer) ==> Declared(KindsOf(MergedEvidence(more)), more)
  {
    forall kind | kind in KindsOf(MergedEvidence(fewer)) ensures kind in KindsOf(MergedEvidence(more)) {
      MergedKindIsObserved(fewer, kind);
      var c :| c in fewer && kind in KindsOf(c.evidence);
      ObservedKindIsMerged(more, c, kind);
    }
  }

  /**
    Adding observations, in any number and any order, never turns an agent into a non-agent
    and never lowers confidence.
   */
  lemma ClassificationIsMonotone(fewer: seq<Candidate>, more: seq<Candidate>)
    requires forall c :: c in fewer ==> c in more
    ensures Assess(fewer).isAgent ==> Assess(more).isAgent
    ensures Assess(fewer).confidence <= Assess(more).confidence
    ensures Assess(fewer).grade == ConfirmedAgent ==> Assess(more).grade == ConfirmedAgent
  {
    MoreCandidatesMoreKinds(fewer, more);
    var kinds, kinds' := KindsOf(MergedEvidence(fewer)), KindsOf(MergedEvidence(more));
    MoreKindsScoreNoLess(kinds, kinds', Declared(kinds, fewer), Declared(kinds', more));
    VerdictReads(MergedEvidence(fewer), fewer);
    VerdictReads(MergedEvidence(more), more);
  }

  /**
    Repetition is worthless: an extra candidate that shows no new kind and brings no
    registration id changes neither the decision, nor the score, nor the grade of an agent.
   */
  lemma RepeatsChangeNothing(candidates: seq<Candidate>, extra: Candidate)
    requires forall kind :: kind in KindsOf(extra.evidence) ==> Observes(candidates, kind)
    requires extra.registrationId == ""
    ensures var v, v' := Assess(candidates), Assess(candidates + [extra]);
            v'.isAgent == v.isAgent && v'.confidence == v.confidence && (v.isAgent ==> v'.grade == v.grade)
  {
    var longer := candidates + [extra];
    MoreCandidatesMoreKinds(candidates, longer);
    var kinds, kinds' := KindsOf(MergedEvidence(candidates)), KindsOf(MergedEvidence(longer));
    forall kind | kind in kinds' ensures kind in kinds {
      MergedKindIsObserved(longer, kind);
      var c :| c in longer && kind in KindsOf(c.evidence);
      assert c in candidates || c == extra;
      assert Observes(candidates, kind);
      var c' :| c' in candidates && kind in KindsOf(c'.evidence);
      ObservedKindIsMerged(candidates, c', kind);
    }
    assert kinds == kinds';
    assert forall c :: c in longer <==> c in candidates || c == extra;
    VerdictReads(MergedEvidence(candidates), candidates);
    VerdictReads(MergedEvidence(longer), longer);
  }

  predicate ShadowEvidence(kinds: set<string>) {
    && "llm_call" in kinds && "tool_call" in kinds
    && Decides(kinds)
    && Behaviours(kinds) >= 3
  }

  /** The shadow rule re-checks the evidence although the classification already did. */
  function Shadow(registered: bool, isAgent: bool, evidence: seq<Evidence>): bool {
    if registered || !isAgent then false else ShadowEvidence(KindsOf(evidence))
  }

  /** The second computation never disagrees with the first: shadow is "unregistered agent". */
  lemma ShadowMeansUnregisteredAgent(evidence: seq<Evidence>, candidates: seq<Candidate>, registered: bool)
    ensures Shadow(registered, Classify(evidence, candidates).isAgent, evidence) <==>
              !registered && Classify(evidence, candidates).isAgent
  {
  }
}
