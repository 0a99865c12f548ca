/**
  What an entity can do, read off its observations: skills it declares, tools it was seen
  to call, and what a closed table of tools lets one infer from either.
 */
module Capabilities {
  import opened EvidenceMerge
  import opened CensusModel

  /** In the order of their names, which is the order the source lists them in. */
  datatype Basis = Declared | Inferred | Observed

  datatype Capability = Capability(name: string, basis: Basis)

  /** `score` in hundredths; 0 is never given. */
  datatype Support = Support(score: nat, proof: seq<Evidence>)

  type Found = map<Capability, Support>

  const DECLARED_SCORE := 75
  const AVAILABLE_SCORE := 50
  const CALLED_SCORE := 85
  const OBSERVED_SCORE := 90

  /** The tools the table knows, sorted. */
  const KNOWN_TOOLS := ["code_security", "email.send", "email_delivery", "github.get_repository", "github.search_code",
                        "image_classification", "image_classifier", "literature_search", "object_detection", "object_detector",
                        "paper_analysis", "paper_analyzer", "paper_search", "repository_analysis", "secret_detection",
                        "secret_scanner", "send_email"]

  /** The closed table: a tool it does not know never gives a capability. */
  function CapabilitiesOf(tool: string): seq<string> {
    if tool !in KNOWN_TOOLS then []
    else if tool == "secret_scanner" then ["code_security", "secret_detection", "security_analysis"]
    else if tool == "secret_detection" then ["secret_detection", "code_security"]
    else if tool == "github.search_code" then ["code_search", "repository_analysis"]
    else if tool == "github.get_repository" then ["repository_analysis"]
    else if tool == "paper_search" then ["literature_search"]
    else if tool == "paper_analyzer" then ["paper_analysis"]
    else if tool == "image_classifier" then ["image_classification"]
    else if tool == "object_detector" then ["object_detection"]
    else if tool == "send_email" || tool == "email.send" then ["email_delivery"]
    else [tool]
  }

  function Score(found: Found, c: Capability): nat {
    if c in found then found[c].score else 0
  }

  function Max(a: nat, b: nat): nat {
    if a < b then b else a
  }

  /** One more piece of evidence: the best score stays, and no proof is listed twice. */
  function Supported(found: Found, c: Capability, score: nat, e: Evidence): Support {
    if c !in found then Support(score, [e])
    else Support(Max(found[c].score, score), if e in found[c].proof then found[c].proof else found[c].proof + [e])
  }

  function Add(found: Found, c: Capability, score: nat, e: Evidence): Found {
    found[c := Supported(found, c, score, e)]
  }

  function AddInferred(found: Found, names: seq<string>, score: nat, e: Evidence): Found {
    if names == [] then found
    else Add(AddInferred(found, names[..|names| - 1], score, e), Capability(names[|names| - 1], Inferred), score, e)
  }

  function SkillEvidence(c: Candidate, skill: string): Evidence {
    Evidence(c.at, c.source, "declared_skill", "", skill)
  }

  function ToolEvidence(c: Candidate, tool: string): Evidence {
    Evidence(c.at, c.source, "tool_available", "", tool)
  }

  function AddSkills(found: Found, c: Candidate, skills: set<string>): Found {
    found + map key | key in (set skill | skill in skills :: Capability(skill, Declared)) ::
      Supported(found, key, DECLARED_SCORE, SkillEvidence(c, key.name))
  }

  function AddTools(found: Found, c: Candidate, tools: seq<string>): Found {
    if tools == [] then found
    else
      var sofar, tool := AddTools(found, c, tools[..|tools| - 1]), tools[|tools| - 1];
      if tool in c.tools then AddInferred(sofar, CapabilitiesOf(tool), AVAILABLE_SCORE, ToolEvidence(c, tool)) else sofar
  }

  function FromCandidates(cs: seq<Candidate>): Found {
    if cs == [] then map[]
    else
      var c := cs[|cs| - 1];
      AddTools(AddSkills(FromCandidates(cs[..|cs| - 1]), c, c.skills), c, KNOWN_TOOLS)
  }

  predicate IsToolCall(e: Evidence) {
    e.kind == "tool_call" && e.value != ""
  }

  function AddCall(found: Found, e: Evidence): Found {
    if IsToolCall(e)
    then AddInferred(Add(found, Capability("tool:" + e.value, Observed), OBSERVED_SCORE, e), CapabilitiesOf(e.value), CALLED_SCORE, e)
    else found
  }

  function FromEvidence(found: Found, evidence: seq<Evidence>): Found {
    if evidence == [] then found
    else AddCall(FromEvidence(found, evidence[..|evidence| - 1]), evidence[|evidence| - 1])
  }

  function Infer(cs: seq<Candidate>): Found {
    FromEvidence(FromCandidates(cs), MergedEvidence(cs))
  }

  // ---------------------------------------------------------------- what the capabilities mean

  ghost predicate Declares(cs: seq<Candidate>, skill: string) {
    exists c :: c in cs && skill in c.skills
  }

  ghost predicate Offers(cs: seq<Candidate>, name: string) {
    exists c, tool :: c in cs && tool in c.tools && name in CapabilitiesOf(tool)
  }

  ghost predicate Calls(evidence: seq<Evidence>, name: string) {
    exists e :: e in evidence && IsToolCall(e) && name in CapabilitiesOf(e.value)
  }

  ghost predicate CallsTool(evidence: seq<Evidence>, name: string) {
    exists e :: e in evidence && IsToolCall(e) && name == "tool:" + e.value
  }

  /** Every score is one of the four that are given, and whatever is listed has one. */
  ghost predicate Scored(found: Found) {
    forall c :: c in found ==> found[c].score > 0
  }

  lemma {:induction false} InferredScores(found: Found, names: seq<string>, score: nat, e: Evidence, c: Capability)
    ensures Score(AddInferred(found, names, score, e), c) ==
            if c.basis == Inferred && c.name in names then Max(Score(found, c), score) else Score(found, c)
    ensures Scored(found) && score > 0 ==> Scored(AddInferred(found, names, score, e))
  {
    if names != [] {
      InferredScores(found, names[..|names| - 1], score, e, c);
      assert names == names[..|names| - 1] + [names[|names| - 1]];
    }
  }

  lemma {:induction false} ToolScores(found: Found, c: Candidate, tools: seq<string>, name: string)
    requires Score(found, Capability(name, Inferred)) <= AVAILABLE_SCORE
    ensures Score(AddTools(found, c, tools), Capability(name, Inferred)) ==
            if exists tool :: tool in tools && tool in c.tools && name in CapabilitiesOf(tool) then AVAILABLE_SCORE else Score(found, Capability(name, Inferred))
    ensures forall other: Capability :: other.basis != Inferred ==> Score(AddTools(found, c, tools), other) == Score(found, other)
    ensures Scored(found) ==> Scored(AddTools(found, c, tools))
  {
    if tools != [] {
      var init, last := tools[..|tools| - 1], tools[|tools| - 1];
      ToolScores(found, c, init, name);
      assert tools == init + [last];
      hide CapabilitiesOf;
      forall other: Capability ensures other.basis != Inferred ==> Score(AddTools(found, c, tools), other) == Score(found, other) {
        InferredScores(AddTools(found, c, init), CapabilitiesOf(last), AVAILABLE_SCORE, ToolEvidence(c, last), other);
      }
      InferredScores(AddTools(found, c, init), CapabilitiesOf(last), AVAILABLE_SCORE, ToolEvidence(c, last), Capability(name, Inferred));
    }
  }

  lemma SkillScores(found: Found, c: Candidate, key: Capability)
    requires Score(found, key) <= DECLARED_SCORE
    ensures Score(AddSkills(found, c, c.skills), key) == if key.basis == Declared && key.name in c.skills then DECLARED_SCORE else Score(found, key)
    ensures Scored(found) ==> Scored(AddSkills(found, c, c.skills))
  {
    var keys := set skill | skill in c.skills :: Capability(skill, Declared);
    assert key in keys <==> key.basis == Declared && key.name in c.skills;
  }

  /** What the candidates alone give a name: its declared and its inferred score. */
  ghost predicate CandidateScores(found: Found, cs: seq<Candidate>, name: string) {
    && Score(found, Capability(name, Declared)) == (if Declares(cs, name) then DECLARED_SCORE else 0)
    && Score(found, Capability(name, Inferred)) == (if Offers(cs, name) then AVAILABLE_SCORE else 0)
    && Score(found, Capability(name, Observed)) == 0
  }

  lemma {:induction false} OneMoreCandidateScores(found: Found, cs: seq<Candidate>, c: Candidate, name: string)
    requires CandidateScores(found, cs, name) && Scored(found)
    ensures var after := AddTools(AddSkills(found, c, c.skills), c, KNOWN_TOOLS);
            CandidateScores(after, cs + [c], name) && Scored(after)
  {
    OneMoreDeclares(cs, c, name);
    OneMoreOffers(cs, c, name);
    hide AddSkills, AddTools, Declares, Offers, CapabilitiesOf, Scored;
    SkillScores(found, c, Capability(name, Declared));
    SkillScores(found, c, Capability(name, Inferred));
    SkillScores(found, c, Capability(name, Observed));
    ToolScores(AddSkills(found, c, c.skills), c, KNOWN_TOOLS, name);
  }

  lemma {:induction false} CandidatesScore(cs: seq<Candidate>, name: string)
    ensures CandidateScores(FromCandidates(cs), cs, name) && Scored(FromCandidates(cs))
  {
    if cs != [] {
      var init, c := cs[..|cs| - 1], cs[|cs| - 1];
      CandidatesScore(init, name);
      OneMoreCandidateScores(FromCandidates(init), init, c, name);
      assert cs == init + [c];
      hide CandidateScores, AddSkills, AddTools, Scored;
    }
  }

  lemma OneMoreDeclares(cs: seq<Candidate>, c: Candidate, name: string)
    ensures Declares(cs + [c], name) <==> Declares(cs, name) || name in c.skills
  {
    assert c in cs + [c];
    forall x | x in cs ensures x in cs + [c] {}
  }

  lemma OneMoreOffers(cs: seq<Candidate>, c: Candidate, name: string)
    ensures Offers(cs + [c], name) <==> Offers(cs, name) || exists tool :: tool in KNOWN_TOOLS && tool in c.tools && name in CapabilitiesOf(tool)
  {
    assert c in cs + [c];
    forall x | x in cs ensures x in cs + [c] {}
    assert forall tool :: name in CapabilitiesOf(tool) ==> tool in KNOWN_TOOLS;
    hide CapabilitiesOf;
  }

  lemma {:induction false} CallScores(found: Found, e: Evidence, name: string)
    requires Score(found, Capability(name, Inferred)) <= CALLED_SCORE && Score(found, Capability(name, Observed)) <= OBSERVED_SCORE
    ensures var after := AddCall(found, e);
            && Score(after, Capability(name, Declared)) == Score(found, Capability(name, Declared))
            && Score(after, Capability(name, Inferred)) == (if IsToolCall(e) && name in CapabilitiesOf(e.value) then CALLED_SCORE else Score(found, Capability(name, Inferred)))
            && Score(after, Capability(name, Observed)) == (if IsToolCall(e) && name == "tool:" + e.value then OBSERVED_SCORE else Score(found, Capability(name, Observed)))
            && (Scored(found) ==> Scored(after))
  {
    hide CapabilitiesOf, AddInferred;
    var added := Add(found, Capability("tool:" + e.value, Observed), OBSERVED_SCORE, e);
    InferredScores(added, CapabilitiesOf(e.value), CALLED_SCORE, e, Capability(name, Declared));
    InferredScores(added, CapabilitiesOf(e.value), CALLED_SCORE, e, Capability(name, Inferred));
    InferredScores(added, CapabilitiesOf(e.value), CALLED_SCORE, e, Capability(name, Observed));
  }

  lemma {:induction false} EvidenceScores(found: Found, cs: seq<Candidate>, evidence: seq<Evidence>, name: string)
    requires CandidateScores(found, cs, name) && Scored(found)
    ensures Scores(FromEvidence(found, evidence), cs, evidence, name)
  {
    if evidence != [] {
      var init, last := evidence[..|evidence| - 1], evidence[|evidence| - 1];
      EvidenceScores(found, cs, init, name);
      assert evidence == init + [last];
      CallScores(FromEvidence(found, init), last, name);
      OneMoreCalls(init, last, name);
      hide AddCall, Declares, Offers, Calls, CallsTool, CapabilitiesOf, IsToolCall, Scored;
    }
  }

  lemma OneMoreCalls(evidence: seq<Evidence>, e: Evidence, name: string)
    ensures Calls(evidence + [e], name) <==> Calls(evidence, name) || (IsToolCall(e) && name in CapabilitiesOf(e.value))
    ensures CallsTool(evidence + [e], name) <==> CallsTool(evidence, name) || (IsToolCall(e) && name == "tool:" + e.value)
  {
    hide CapabilitiesOf;
    assert e in evidence + [e];
    forall x | x in evidence ensures x in evidence + [e] {}
  }

  /** The score of a name on each basis, 0 where the basis is missing. */
  ghost predicate Scores(found: Found, cs: seq<Candidate>, evidence: seq<Evidence>, name: string) {
    && Score(found, Capability(name, Declared)) == (if Declares(cs, name) then DECLARED_SCORE else 0)
    && Score(found, Capability(name, Inferred)) == (if Calls(evidence, name) then CALLED_SCORE else if Offers(cs, name) then AVAILABLE_SCORE else 0)
    && Score(found, Capability(name, Observed)) == (if CallsTool(evidence, name) then OBSERVED_SCORE else 0)
    && Scored(found)
  }

  /**
    The three bases mean what they say: declared is what a candidate declares, observed is
    what a tool call shows, and inferred is what the closed table makes of a tool, with the
    higher score exactly when the tool was not only offered but called.
   */
  lemma CapabilitiesMeanWhatTheySay(cs: seq<Candidate>, name: string)
    ensures var found, evidence := Infer(cs), MergedEvidence(cs);
            && (Capability(name, Declared) in found <==> Declares(cs, name))
            && (Capability(name, Observed) in found <==> CallsTool(evidence, name))
            && (Capability(name, Inferred) in found <==> Offers(cs, name) || Calls(evidence, name))
            && (Capability(name, Declared) in found ==> found[Capability(name, Declared)].score == 75)
            && (Capability(name, Observed) in found ==> found[Capability(name, Observed)].score == 90)
            && (Capability(name, Inferred) in found ==> found[Capability(name, Inferred)].score == if Calls(evidence, name) then 85 else 50)
  {
    CandidatesScore(cs, name);
    EvidenceScores(FromCandidates(cs), cs, MergedEvidence(cs), name);
    hide FromCandidates, FromEvidence, MergedEvidence, Declares, Offers, Calls, CallsTool;
  }

  // ------------------------------------------------------------------------- what proves them

  ghost predicate Proves(found: Found, c: Capability, e: Evidence) {
    c in found && e in found[c].proof
  }

  lemma {:induction false} InferredProves(found: Found, names: seq<string>, score: nat, item: Evidence, c: Capability, e: Evidence)
    ensures Proves(AddInferred(found, names, score, item), c, e) <==>
            Proves(found, c, e) || (c.basis == Inferred && c.name in names && e == item)
  {
    if names != [] {
      InferredProves(found, names[..|names| - 1], score, item, c, e);
      assert names == names[..|names| - 1] + [names[|names| - 1]];
    }
  }

  /** A tool that the candidate offers, as evidence for what the table makes of it. */
  ghost predicate OffersAs(c: Candidate, tools: seq<string>, name: string, e: Evidence) {
    exists tool :: tool in tools && tool in c.tools && name in CapabilitiesOf(tool) && e == ToolEvidence(c, tool)
  }

  lemma {:induction false} ToolsProve(found: Found, c: Candidate, tools: seq<string>, key: Capability, e: Evidence)
    ensures Proves(AddTools(found, c, tools), key, e) <==> Proves(found, key, e) || (key.basis == Inferred && OffersAs(c, tools, key.name, e))
  {
    if tools != [] {
      var init, last := tools[..|tools| - 1], tools[|tools| - 1];
      ToolsProve(found, c, init, key, e);
      assert tools == init + [last];
      hide CapabilitiesOf, AddInferred, Proves;
      InferredProves(AddTools(found, c, init), CapabilitiesOf(last), AVAILABLE_SCORE, ToolEvidence(c, last), key, e);
    }
  }

  lemma SkillsProve(found: Found, c: Candidate, key: Capability, e: Evidence)
    ensures Proves(AddSkills(found, c, c.skills), key, e) <==>
            Proves(found, key, e) || (key.basis == Declared && key.name in c.skills && e == SkillEvidence(c, key.name))
  {
    SkillAt(found, c, c.skills, key);
    hide AddSkills, SkillEvidence;
  }

  /** What one candidate says for a capability: a skill it declares, or a tool it offers. */
  ghost predicate Says(c: Candidate, key: Capability, e: Evidence) {
    || (key.basis == Declared && key.name in c.skills && e == SkillEvidence(c, key.name))
    || (key.basis == Inferred && exists tool :: tool in c.tools && key.name in CapabilitiesOf(tool) && e == ToolEvidence(c, tool))
  }

  lemma KnownOffers(c: Candidate, key: Capability, e: Evidence)
    ensures key.basis == Inferred ==> (OffersAs(c, KNOWN_TOOLS, key.name, e) <==> Says(c, key, e))
  {
    assert forall tool :: key.name in CapabilitiesOf(tool) ==> tool in KNOWN_TOOLS;
    hide CapabilitiesOf, KNOWN_TOOLS;
  }

  lemma {:induction false} CandidatesProve(cs: seq<Candidate>, key: Capability, e: Evidence)
    ensures Proves(FromCandidates(cs), key, e) <==> exists c :: c in cs && Says(c, key, e)
  {
    if cs != [] {
      var init, c := cs[..|cs| - 1], cs[|cs| - 1];
      CandidatesProve(init, key, e);
      assert cs == init + [c];
      SkillsProve(FromCandidates(init), c, key, e);
      ToolsProve(AddSkills(FromCandidates(init), c, c.skills), c, KNOWN_TOOLS, key, e);
      KnownOffers(c, key, e);
      assert Says(c, key, e) <==> (key.basis == Declared && key.name in c.skills && e == SkillEvidence(c, key.name)) || (key.basis == Inferred && Says(c, key, e));
      hide AddSkills, AddTools, Proves, OffersAs, Says;
    }
  }

  /** What a call shows: the tool itself, and what the table makes of it. */
  ghost predicate Shows(item: Evidence, key: Capability) {
    IsToolCall(item) && ((key.basis == Observed && key.name == "tool:" + item.value) || (key.basis == Inferred && key.name in CapabilitiesOf(item.value)))
  }

  lemma {:induction false} CallProves(found: Found, item: Evidence, key: Capability, e: Evidence)
    ensures Proves(AddCall(found, item), key, e) <==> Proves(found, key, e) || (e == item && Shows(item, key))
  {
    hide CapabilitiesOf, AddInferred;
    InferredProves(Add(found, Capability("tool:" + item.value, Observed), OBSERVED_SCORE, item), CapabilitiesOf(item.value), CALLED_SCORE, item, key, e);
  }

  lemma {:induction false} CallsProve(found: Found, evidence: seq<Evidence>, key: Capability, e: Evidence)
    ensures Proves(FromEvidence(found, evidence), key, e) <==> Proves(found, key, e) || (e in evidence && Shows(e, key))
  {
    if evidence != [] {
      var init, last := evidence[..|evidence| - 1], evidence[|evidence| - 1];
      CallsProve(found, init, key, e);
      assert evidence == init + [last];
      CallProves(FromEvidence(found, init), last, key, e);
      hide AddCall, Proves, Shows;
    }
  }

  /** The proof listed with a capability is everything that shows it, and nothing else. */
  lemma {:induction false} ProofsMeanWhatTheySay(cs: seq<Candidate>, key: Capability, e: Evidence)
    ensures Proves(Infer(cs), key, e) <==> (exists c :: c in cs && Says(c, key, e)) || (e in MergedEvidence(cs) && Shows(e, key))
  {
    CandidatesProve(cs, key, e);
    CallsProve(FromCandidates(cs), MergedEvidence(cs), key, e);
    hide FromCandidates, FromEvidence, MergedEvidence, Proves, Says, Shows;
  }

  // -------------------------------------------------------------------------- the loops

  method AddEachInferred(start: Found, names: seq<string>, score: nat, e: Evidence) returns (found: Found)
    ensures found == AddInferred(start, names, score, e)
  {
    found := start;
    for i := 0 to |names|
      invariant found == AddInferred(start, names[..i], score, e)
    {
      assert names[..i + 1][..i] == names[..i];
      found := Add(found, Capability(names[i], Inferred), score, e);
    }
    assert names[..|names|] == names;
  }

  method AddEachSkill(start: Found, c: Candidate) returns (found: Found)
    ensures found == AddSkills(start, c, c.skills)
  {
    found := start;
    var todo := c.skills;
    while todo != {}
      invariant todo <= c.skills && found == AddSkills(start, c, c.skills - todo)
      decreases todo
    {
      var skill :| skill in todo;
      AddOneSkill(start, c, c.skills - todo, skill);
      assert c.skills - (todo - {skill}) == c.skills - todo + {skill};
      found := Add(found, Capability(skill, Declared), DECLARED_SCORE, SkillEvidence(c, skill));
      todo := todo - {skill};
    }
    assert c.skills - todo == c.skills;
  }

  lemma SkillAt(start: Found, c: Candidate, skills: set<string>, key: Capability)
    ensures var after, skilled := AddSkills(start, c, skills), key.basis == Declared && key.name in skills;
            && (key in after <==> key in start || skilled)
            && (key in after ==> after[key] == if skilled then Supported(start, key, DECLARED_SCORE, SkillEvidence(c, key.name)) else start[key])
  {
    hide Supported, SkillEvidence;
    assert key in (set skill | skill in skills :: Capability(skill, Declared)) <==> key.basis == Declared && key.name in skills;
  }

  /** At each capability the skill's own turn comes last. */
  lemma OneSkillAt(start: Found, c: Candidate, skills: set<string>, skill: string, other: Capability)
    requires skill !in skills
    ensures var more := AddSkills(start, c, skills + {skill});
            var added := Add(AddSkills(start, c, skills), Capability(skill, Declared), DECLARED_SCORE, SkillEvidence(c, skill));
            (other in more <==> other in added) && (other in more ==> more[other] == added[other])
  {
    var key := Capability(skill, Declared);
    SkillAt(start, c, skills, other);
    SkillAt(start, c, skills + {skill}, other);
    SkillAt(start, c, skills, key);
    hide AddSkills, SkillEvidence;
  }

  lemma AddOneSkill(start: Found, c: Candidate, skills: set<string>, skill: string)
    requires skill !in skills
    ensures AddSkills(start, c, skills + {skill}) ==
            Add(AddSkills(start, c, skills), Capability(skill, Declared), DECLARED_SCORE, SkillEvidence(c, skill))
  {
    hide AddSkills, Add, SkillEvidence;
    var more := AddSkills(start, c, skills + {skill});
    var added := Add(AddSkills(start, c, skills), Capability(skill, Declared), DECLARED_SCORE, SkillEvidence(c, skill));
    forall other: Capability ensures (other in more <==> other in added) && (other in more ==> more[other] == added[other]) {
      OneSkillAt(start, c, skills, skill, other);
    }
  }

  method AddEachTool(start: Found, c: Candidate) returns (found: Found)
    ensures found == AddTools(start, c, KNOWN_TOOLS)
  {
    hide CapabilitiesOf, AddInferred;
    found := start;
    for i := 0 to |KNOWN_TOOLS|
      invariant found == AddTools(start, c, KNOWN_TOOLS[..i])
    {
      assert KNOWN_TOOLS[..i + 1][..i] == KNOWN_TOOLS[..i];
      if KNOWN_TOOLS[i] in c.tools {
        found := AddEachInferred(found, CapabilitiesOf(KNOWN_TOOLS[i]), AVAILABLE_SCORE, ToolEvidence(c, KNOWN_TOOLS[i]));
      }
    }
    assert KNOWN_TOOLS[..|KNOWN_TOOLS|] == KNOWN_TOOLS;
  }

  /** The loop over candidates, then the loop over their merged evidence. */
  method InferCapabilities(cs: seq<Candidate>) returns (found: Found)
    ensures found == Infer(cs)
  {
    hide CapabilitiesOf, AddInferred, AddTools, AddSkills;
    found := map[];
    for i := 0 to |cs|
      invariant found == FromCandidates(cs[..i])
    {
      assert cs[..i + 1][..i] == cs[..i];
      found := AddEachSkill(found, cs[i]);
      found := AddEachTool(found, cs[i]);
    }
    assert cs[..|cs|] == cs;
    var evidence := MergedEvidence(cs);
    for i := 0 to |evidence|
      invariant found == FromEvidence(FromCandidates(cs), evidence[..i])
    {
      assert evidence[..i + 1][..i] == evidence[..i];
      var e := evidence[i];
      if IsToolCall(e) {
        found := Add(found, Capability("tool:" + e.value, Observed), OBSERVED_SCORE, e);
        found := AddEachInferred(found, CapabilitiesOf(e.value), CALLED_SCORE, e);
      }
    }
    assert evidence[..|evidence|] == evidence;
  }
}
