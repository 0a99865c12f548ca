/**
  What a record shows of an entity, in terms of its stored observations alone: whose endpoint
  and owner, which models, servers, tools and protocols, how fresh it is, how far it is trusted.
 */
module ProjectionTheorems {
  import opened Options
  import opened EvidenceMerge
  import opened CensusModel
  import opened Classification
  import opened RuntimeGrouping
  import opened RuntimeEvidence
  import opened Registry
  import opened RegistryInvariants
  import Capabilities

  // ------------------------------------------------------- the observation that speaks first

  /** Registered by hand or read off an agent card, and not from telemetry or a scan. */
  predicate Declaring(c: Candidate) {
    c.source in {"manual", "a2a"}
  }

  /**
    Of all observations that have the field, no declaring one is passed over for another kind,
    no newer one for an older of its kind, and no earlier stored one for one of the same age.
   */
  ghost predicate SpeaksFirst(cs: seq<Candidate>, i: nat, has: Candidate -> bool) {
    && i < |cs| && has(cs[i])
    && (forall j :: 0 <= j < |cs| && has(cs[j]) && Declaring(cs[j]) ==> Declaring(cs[i]))
    && (forall j :: 0 <= j < |cs| && has(cs[j]) && Declaring(cs[j]) == Declaring(cs[i]) ==> cs[j].at <= cs[i].at)
    && (forall j :: 0 <= j < i && has(cs[j]) && Declaring(cs[j]) == Declaring(cs[i]) ==> cs[j].at < cs[i].at)
  }

  function HasEndpoint(): Candidate -> bool {
    (c: Candidate) => c.endpoint.Some?
  }

  function HasOwner(): Candidate -> bool {
    (c: Candidate) => c.owner.Some?
  }

  lemma {:induction false} OneMoreSpeaks(cs: seq<Candidate>, c: Candidate, i: nat, has: Candidate -> bool)
    requires SpeaksFirst(cs, i, has)
    ensures has(c) && Preferred(c, cs[i]) ==> SpeaksFirst(cs + [c], |cs|, has)
    ensures !has(c) || !Preferred(c, cs[i]) ==> SpeaksFirst(cs + [c], i, has)
  {
    assert (cs + [c])[|cs|] == c && forall j :: 0 <= j < |cs| ==> (cs + [c])[j] == cs[j];
  }

  lemma {:induction false} OnlyOneSpeaks(cs: seq<Candidate>, c: Candidate, has: Candidate -> bool)
    requires has(c) && forall j :: 0 <= j < |cs| ==> !has(cs[j])
    ensures SpeaksFirst(cs + [c], |cs|, has)
  {
    assert (cs + [c])[|cs|] == c && forall j :: 0 <= j < |cs| ==> (cs + [c])[j] == cs[j];
  }

  lemma {:induction false} FirstOfMore(kept: seq<Candidate>, c: Candidate)
    ensures var first := FirstPreferred(kept);
            FirstPreferred(kept + [c]) == if first.Some? && !Preferred(c, first.value) then first else Some(c)
  {
    hide Preferred;
    assert (kept + [c])[..|kept|] == kept && (kept + [c])[|kept|] == c;
  }

  /** Who speaks first among the observations that have the field, if any has it. */
  ghost predicate IsFirst(cs: seq<Candidate>, first: Option<Candidate>, has: Candidate -> bool) {
    if first.None? then forall c :: c in cs ==> !has(c)
    else exists i: nat :: i < |cs| && SpeaksFirst(cs, i, has) && cs[i] == first.value
  }

  lemma {:induction false} FirstStays(cs: seq<Candidate>, c: Candidate, first: Option<Candidate>, has: Candidate -> bool)
    requires IsFirst(cs, first, has)
    ensures !has(c) ==> IsFirst(cs + [c], first, has)
    ensures has(c) ==> IsFirst(cs + [c], if first.Some? && !Preferred(c, first.value) then first else Some(c), has)
  {
    hide Preferred, SpeaksFirst;
    assert (cs + [c])[|cs|] == c && forall j :: 0 <= j < |cs| ==> (cs + [c])[j] == cs[j];
    if first.Some? {
      var i: nat :| i < |cs| && SpeaksFirst(cs, i, has) && cs[i] == first.value;
      OneMoreSpeaks(cs, c, i, has);
    } else if has(c) {
      OnlyOneSpeaks(cs, c, has);
    }
  }

  lemma {:induction false} EndpointSpeaksFirst(cs: seq<Candidate>)
    ensures IsFirst(cs, FirstPreferred(WithEndpoint(cs)), HasEndpoint())
  {
    hide Preferred, SpeaksFirst;
    if cs != [] {
      hide FirstPreferred;
      var init, last := cs[..|cs| - 1], cs[|cs| - 1];
      EndpointSpeaksFirst(init);
      assert cs == init + [last];
      FirstOfMore(WithEndpoint(init), last);
      assert WithEndpoint(init) + [] == WithEndpoint(init);
      assert HasEndpoint()(last) == last.endpoint.Some?;
      hide IsFirst;
      FirstStays(init, last, FirstPreferred(WithEndpoint(init)), HasEndpoint());
    }
  }

  lemma {:induction false} OwnerSpeaksFirst(cs: seq<Candidate>)
    ensures IsFirst(cs, FirstPreferred(WithOwner(cs)), HasOwner())
  {
    hide Preferred, SpeaksFirst;
    if cs != [] {
      hide FirstPreferred;
      var init, last := cs[..|cs| - 1], cs[|cs| - 1];
      OwnerSpeaksFirst(init);
      assert cs == init + [last];
      FirstOfMore(WithOwner(init), last);
      assert WithOwner(init) + [] == WithOwner(init);
      assert HasOwner()(last) == last.owner.Some?;
      hide IsFirst;
      FirstStays(init, last, FirstPreferred(WithOwner(init)), HasOwner());
    }
  }

  /** The endpoint shown is none, or that of the observation that speaks first. */
  ghost predicate ShowsEndpoint(cs: seq<Candidate>, endpoint: Option<Endpoint>) {
    if endpoint.None? then forall c :: c in cs ==> c.endpoint.None?
    else exists i: nat :: SpeaksFirst(cs, i, HasEndpoint()) && cs[i].endpoint == endpoint
  }

  ghost predicate ShowsOwner(cs: seq<Candidate>, owner: Option<string>) {
    if owner.None? then forall c :: c in cs ==> c.owner.None?
    else exists i: nat :: SpeaksFirst(cs, i, HasOwner()) && cs[i].owner == owner
  }

  lemma {:induction false} ObservedMeans(cs: seq<Candidate>)
    ensures ShowsEndpoint(cs, ObservedEndpoint(cs)) && ShowsOwner(cs, ObservedOwner(cs))
  {
    EndpointSpeaksFirst(cs);
    OwnerSpeaksFirst(cs);
    hide FirstPreferred, WithEndpoint, WithOwner;
    assert forall i: nat :: SpeaksFirst(cs, i, HasEndpoint()) ==> cs[i].endpoint.Some?;
    assert forall i: nat :: SpeaksFirst(cs, i, HasOwner()) ==> cs[i].owner.Some?;
  }

  // -------------------------------------------------------------- what is simply collected

  ghost predicate Says(cs: seq<Candidate>, kind: string, value: string) {
    value != "" && exists e :: e in MergedEvidence(cs) && e.kind == kind && e.value == value
  }

  lemma ModelsMean(cs: seq<Candidate>, model: string)
    ensures model in ModelsOf(cs, MergedEvidence(cs)) <==> model != "" && ((exists c :: c in cs && c.model == model) || Says(cs, "llm_call", model))
  {
    hide MergedEvidence;
  }

  /**
    Of the entity's observations: the endpoint and the owner of the one that speaks first, the
    deployment they agree on, every model named or called, and every server connected to.
   */
  ghost predicate Shows(cs: seq<Candidate>, record: Record) {
    && ShowsEndpoint(cs, record.endpoint) && ShowsOwner(cs, record.owner) && Agreed(set c | c in cs :: c.deployment, record.deployment)
    && (forall model :: model in record.models <==> model != "" && ((exists c :: c in cs && c.model == model) || Says(cs, "llm_call", model)))
    && (forall server :: server in record.mcpServers <==> Says(cs, "mcp_connection", server))
  }

  lemma {:induction false} DisplayedMeans(rows: seq<Row>, id: Id, record: Record)
    requires Displayed(rows, id, record)
    ensures Shows(CandidatesOf(rows, id), record)
  {
    var cs := CandidatesOf(rows, id);
    hide CandidatesOf, ObservedEndpoint, ObservedOwner, ConsensusText, ModelsOf, MergedEvidence, ShowsEndpoint, ShowsOwner, Agreed;
    ObservedMeans(cs);
    ConsensusTextMeans(set c | c in cs :: c.deployment);
    forall model ensures model in record.models <==> model != "" && ((exists c :: c in cs && c.model == model) || Says(cs, "llm_call", model)) {
      ModelsMean(cs, model);
    }
  }

  /** Every record of every reachable state shows what its entity's stored observations say. */
  lemma {:induction false} ReachableRecordsShow(ops: seq<Timed>, settings: Settings, id: Id)
    ensures Inv(EMPTY)
    ensures var db := After(EMPTY, ops, settings);
            id in db.entities ==> Shows(CandidatesOf(db.rows, id), db.entities[id])
  {
    EmptyRegistryIsSound();
    var db := After(EMPTY, ops, settings);
    hide After, Inv, CandidatesOf, Displayed, Shows;
    if id in db.entities {
      ReachableDisplays(db, id);
      DisplayedMeans(db.rows, id, db.entities[id]);
    }
  }

  lemma ReachableDisplays(db: Db, id: Id)
    requires Inv(db) && id in db.entities
    ensures Displayed(db.rows, id, db.entities[id])
  {
    hide KeysDistinct, OwnersExist, AlertsAgree, IdsBelowNext, DistinctIds, Coherent, Displayed, LatestIs, NoneBefore, Classified;
  }

  // ------------------------------------------------------------------ what depends on the time

  /** Not yet a full second older than the window. */
  predicate Fresh(at: int, settings: Settings, now: int) {
    now - at < (settings.window + 1) * SECOND
  }

  predicate Recent(at: int, settings: Settings, now: int) {
    now - settings.window * SECOND <= at
  }

  predicate InTheWindow(e: Evidence, settings: Settings, now: int) {
    Recent(e.at, settings, now) && e.at <= now + 300 * SECOND
  }

  /** Some telemetry is fresh, or, where there is none at all, some observation is. */
  ghost predicate ShowsActivity(cs: seq<Candidate>, active: bool, settings: Settings, now: int) {
    active <==>
      if exists c :: c in cs && c.source == "runtime" then exists c :: c in cs && c.source == "runtime" && Fresh(c.at, settings, now)
      else exists c :: c in cs && Fresh(c.at, settings, now)
  }

  /** The observation still vouches for the tool: telemetry by a call in the window, anything else by being recent. */
  ghost predicate Vouches(c: Candidate, tool: string, settings: Settings, now: int) {
    && Recent(c.at, settings, now)
    && if c.source == "runtime" then tool != "" && exists e :: e in c.evidence && e.kind == "tool_call" && e.value == tool && InTheWindow(e, settings, now)
       else tool in c.tools
  }

  /** What a stale agent or server once offered stays on display; everything else shows what is current. */
  ghost predicate ShowsTools(cs: seq<Candidate>, record: Record, settings: Settings, now: int) {
    var retained := !record.active && (record.verdict.isAgent || record.verdict.entityType == "mcp_server");
    && (forall tool :: tool in record.tools <==> exists c :: c in cs && if retained then tool in c.tools else Vouches(c, tool, settings, now))
    && (forall protocol :: protocol in record.protocols <==> exists c :: c in cs && protocol in c.protocols && (retained || Recent(c.at, settings, now)))
  }

  /** The observation as it counts now: its own fields, without what is too old. */
  ghost predicate IsCurrentView(c: Candidate, view: Candidate, settings: Settings, now: int) {
    && view == c.(evidence := view.evidence, skills := view.skills, tools := view.tools)
    && (forall e :: e in view.evidence <==> e in c.evidence && InTheWindow(e, settings, now))
    && (forall skill :: skill in view.skills <==> skill in c.skills && Recent(c.at, settings, now))
    && (forall tool :: tool in view.tools <==> Vouches(c, tool, settings, now))
  }

  /** Capabilities are inferred from all a stale agent was ever seen to do, and from current views otherwise. */
  ghost predicate ShowsCapabilities(cs: seq<Candidate>, record: Record, settings: Settings, now: int) {
    if !record.active && record.verdict.isAgent then record.capabilities == Capabilities.Infer(cs)
    else exists views: seq<Candidate> :: record.capabilities == Capabilities.Infer(views) && |views| == |cs|
           && forall i :: 0 <= i < |cs| ==> IsCurrentView(cs[i], views[i], settings, now)
  }

  /** Trust and health outlive a projection only at an unchanged endpoint, and health only while it is recent. */
  ghost predicate ShowsStanding(prior: Option<Record>, record: Record, settings: Settings, now: int) {
    var kept := prior.Some? && prior.value.endpoint == record.endpoint;
    && record.trust == (if kept then prior.value.trust else Unverified)
    && record.checkedAt == (if kept then prior.value.checkedAt else None)
    && (record.health == Stale <==> !record.active)
    && (record.active ==>
          var aged := kept && prior.value.checkedAt.Some? && now > prior.value.checkedAt.value + settings.healthTtl * SECOND;
          record.health == if kept && !aged && prior.value.health != Stale then prior.value.health else Unknown)
  }

  /** The seen interval spans the observations and never shrinks; registration is for good. */
  ghost predicate ShowsHistory(cs: seq<Candidate>, prior: Option<Record>, registered: bool, record: Record) {
    && (record.registered <==> registered || (prior.Some? && prior.value.registered))
    && (record.shadow <==> !record.registered && record.verdict.isAgent)
    && (forall c :: c in cs ==> record.firstSeen <= c.at <= record.lastSeen)
    && (prior.Some? ==> record.firstSeen <= prior.value.firstSeen)
    && ((exists c :: c in cs && c.at == record.firstSeen) || (prior.Some? && prior.value.firstSeen == record.firstSeen))
    && (exists c :: c in cs && c.at == record.lastSeen)
  }

  ghost predicate ShowsNow(cs: seq<Candidate>, prior: Option<Record>, registered: bool, record: Record, settings: Settings, now: int) {
    && ShowsActivity(cs, record.active, settings, now) && ShowsTools(cs, record, settings, now) && ShowsCapabilities(cs, record, settings, now)
    && ShowsStanding(prior, record, settings, now) && ShowsHistory(cs, prior, registered, record)
  }

  lemma {:induction false} RuntimeOfHolds(cs: seq<Candidate>)
    ensures forall c :: c in RuntimeOf(cs) <==> c in cs && c.source == "runtime"
  {
    if cs != [] {
      RuntimeOfHolds(cs[1..]);
      assert cs == [cs[0]] + cs[1..];
    }
  }

  lemma AgeIsFresh(at: int, settings: Settings, now: int)
    ensures (if now - at < 0 then 0 else (now - at) / SECOND) <= settings.window <==> Fresh(at, settings, now)
  {
    if now - at >= 0 {
      assert now - at == (now - at) / SECOND * SECOND + (now - at) % SECOND;
    }
  }

  lemma {:induction false} ActivityMeans(cs: seq<Candidate>, settings: Settings, now: int)
    requires cs != []
    ensures ShowsActivity(cs, IsActive(cs, settings, now), settings, now)
  {
    RuntimeOfHolds(cs);
    AgeIsFresh(LastActivity(cs), settings, now);
    var speaking := if RuntimeOf(cs) != [] then RuntimeOf(cs) else cs;
    assert speaking != [] && speaking[0] in speaking;
    assert IsActive(cs, settings, now) <==> Fresh(MaxAt(speaking), settings, now);
    hide RuntimeOf, MaxAt, IsActive;
    assert (exists c :: c in speaking && Fresh(c.at, settings, now)) <==> Fresh(MaxAt(speaking), settings, now);
    assert RuntimeOf(cs) != [] ==> RuntimeOf(cs)[0] in RuntimeOf(cs);
  }

  lemma CurrentToolsMean(c: Candidate, tool: string, settings: Settings, now: int)
    ensures tool in CurrentTools(c, settings, now) <==> Vouches(c, tool, settings, now)
  {
  }

  lemma {:induction false} InWindowHolds(evidence: seq<Evidence>, settings: Settings, now: int)
    ensures forall e :: e in InWindow(evidence, settings, now) <==> e in evidence && InTheWindow(e, settings, now)
  {
    if evidence != [] {
      var init, last := evidence[..|evidence| - 1], evidence[|evidence| - 1];
      InWindowHolds(init, settings, now);
      assert evidence == init + [last];
    }
  }

  lemma CurrentIsView(c: Candidate, settings: Settings, now: int)
    ensures IsCurrentView(c, Current(c, settings, now), settings, now)
  {
    InWindowHolds(c.evidence, settings, now);
    forall tool ensures tool in CurrentTools(c, settings, now) <==> Vouches(c, tool, settings, now) {
      CurrentToolsMean(c, tool, settings, now);
    }
    hide CurrentTools, Vouches, InWindow, InTheWindow;
  }

  lemma ToolMeans(cs: seq<Candidate>, tool: string, retained: bool, settings: Settings, now: int)
    ensures tool in ProjectedTools(cs, retained, settings, now) <==>
              exists c :: c in cs && if retained then tool in c.tools else Vouches(c, tool, settings, now)
  {
    hide CurrentTools, Vouches;
    if tool in ProjectedTools(cs, retained, settings, now) {
      var c :| c in cs && tool in ToolsOf(c, retained, settings, now);
      CurrentToolsMean(c, tool, settings, now);
    }
    if c :| c in cs && if retained then tool in c.tools else Vouches(c, tool, settings, now) {
      CurrentToolsMean(c, tool, settings, now);
      assert tool in ToolsOf(c, retained, settings, now);
    }
  }

  lemma ProtocolMeans(cs: seq<Candidate>, protocol: string, retained: bool, settings: Settings, now: int)
    ensures protocol in ProjectedProtocols(cs, retained, settings, now) <==>
              exists c :: c in cs && protocol in c.protocols && (retained || Recent(c.at, settings, now))
  {
    if c :| c in cs && protocol in c.protocols && (retained || Recent(c.at, settings, now)) {
      assert protocol in ProtocolsOf(c, retained, settings, now);
    }
  }

  lemma ToolsMean(cs: seq<Candidate>, record: Record, settings: Settings, now: int)
    requires var retained := !record.active && (record.verdict.isAgent || record.verdict.entityType == "mcp_server");
             record.tools == ProjectedTools(cs, retained, settings, now) && record.protocols == ProjectedProtocols(cs, retained, settings, now)
    ensures ShowsTools(cs, record, settings, now)
  {
    var retained := !record.active && (record.verdict.isAgent || record.verdict.entityType == "mcp_server");
    hide ProjectedTools, ProjectedProtocols, Vouches, Recent;
    forall tool ensures tool in record.tools <==> exists c :: c in cs && if retained then tool in c.tools else Vouches(c, tool, settings, now) {
      ToolMeans(cs, tool, retained, settings, now);
    }
    forall protocol ensures protocol in record.protocols <==> exists c :: c in cs && protocol in c.protocols && (retained || Recent(c.at, settings, now)) {
      ProtocolMeans(cs, protocol, retained, settings, now);
    }
  }

  /** All of a projection's record that depends on the time, the record before and the caller. */
  lemma {:induction false} ProjectionShows(cs: seq<Candidate>, prior: Option<Record>, registered: bool, settings: Settings, now: int)
    requires cs != []
    ensures ShowsNow(cs, prior, registered, Project(cs, prior, registered, settings, now), settings, now)
  {
    hide *;
    var record := Project(cs, prior, registered, settings, now);
    ProjectedParts(cs, prior, registered, settings, now);
    ActivityMeans(cs, settings, now);
    ToolsMean(cs, record, settings, now);
    CapabilitiesShown(cs, prior, registered, settings, now);
    StandingShown(cs, prior, registered, settings, now);
    HistoryShown(cs, prior, registered, settings, now);
    AllShown(cs, prior, registered, record, settings, now);
  }

  lemma AllShown(cs: seq<Candidate>, prior: Option<Record>, registered: bool, record: Record, settings: Settings, now: int)
    requires ShowsActivity(cs, record.active, settings, now) && ShowsTools(cs, record, settings, now) && ShowsCapabilities(cs, record, settings, now)
    requires ShowsStanding(prior, record, settings, now) && ShowsHistory(cs, prior, registered, record)
    ensures ShowsNow(cs, prior, registered, record, settings, now)
  {
    hide ShowsActivity, ShowsTools, ShowsCapabilities, ShowsStanding, ShowsHistory;
  }

  lemma {:induction false} ProjectedParts(cs: seq<Candidate>, prior: Option<Record>, registered: bool, settings: Settings, now: int)
    requires cs != []
    ensures var record := Project(cs, prior, registered, settings, now);
            var retained := !record.active && (record.verdict.isAgent || record.verdict.entityType == "mcp_server");
            && record.active == IsActive(cs, settings, now)
            && record.tools == ProjectedTools(cs, retained, settings, now) && record.protocols == ProjectedProtocols(cs, retained, settings, now)
  {
    hide Classify, MergedEvidence, Shadow, ObservedEndpoint, ObservedOwner, IsActive, CurrentOnes, ConsensusText, ModelsOf, ProjectedTools, ProjectedProtocols,
         ProjectedHealth;
  }

  lemma {:induction false} ProjectedCapabilities(cs: seq<Candidate>, prior: Option<Record>, registered: bool, settings: Settings, now: int)
    requires cs != []
    ensures var record := Project(cs, prior, registered, settings, now);
            record.capabilities == Capabilities.Infer(if !record.active && record.verdict.isAgent then cs else CurrentOnes(cs, settings, now))
  {
    hide Classify, MergedEvidence, Shadow, ObservedEndpoint, ObservedOwner, IsActive, CurrentOnes, ConsensusText, ModelsOf, ProjectedTools, ProjectedProtocols,
         ProjectedHealth;
  }

  lemma {:induction false} CapabilitiesShown(cs: seq<Candidate>, prior: Option<Record>, registered: bool, settings: Settings, now: int)
    requires cs != []
    ensures ShowsCapabilities(cs, Project(cs, prior, registered, settings, now), settings, now)
  {
    ProjectedCapabilities(cs, prior, registered, settings, now);
    hide Project, Current, IsCurrentView;
    forall i | 0 <= i < |cs| ensures IsCurrentView(cs[i], CurrentOnes(cs, settings, now)[i], settings, now) {
      CurrentIsView(cs[i], settings, now);
    }
  }

  lemma {:induction false} StandingShown(cs: seq<Candidate>, prior: Option<Record>, registered: bool, settings: Settings, now: int)
    requires cs != []
    ensures ShowsStanding(prior, Project(cs, prior, registered, settings, now), settings, now)
  {
    hide Classify, MergedEvidence, Shadow, ObservedEndpoint, ObservedOwner, IsActive, CurrentOnes, ConsensusText, ModelsOf, ProjectedTools, ProjectedProtocols;
  }

  lemma {:induction false} ProjectedTimes(cs: seq<Candidate>, prior: Option<Record>, registered: bool, settings: Settings, now: int)
    requires cs != []
    ensures var record := Project(cs, prior, registered, settings, now);
            && record.registered == (registered || (prior.Some? && prior.value.registered))
            && record.lastSeen == MaxAt(cs)
            && record.firstSeen == (if prior.Some? && prior.value.firstSeen < MinAt(cs) then prior.value.firstSeen else MinAt(cs))
            && record.verdict == Classify(MergedEvidence(cs), cs)
            && record.shadow == Shadow(record.registered, record.verdict.isAgent, MergedEvidence(cs))
  {
    hide Classify, MergedEvidence, Shadow, ObservedEndpoint, ObservedOwner, IsActive, CurrentOnes, ConsensusText, ModelsOf, ProjectedTools, ProjectedProtocols,
         ProjectedHealth, MaxAt, MinAt;
  }

  lemma {:induction false} HistoryShown(cs: seq<Candidate>, prior: Option<Record>, registered: bool, settings: Settings, now: int)
    requires cs != []
    ensures ShowsHistory(cs, prior, registered, Project(cs, prior, registered, settings, now))
  {
    hide *;
    var record := Project(cs, prior, registered, settings, now);
    ProjectedTimes(cs, prior, registered, settings, now);
    ShadowMeansUnregisteredAgent(MergedEvidence(cs), cs, record.registered);
    HistoryFrom(cs, prior, registered, record);
  }

  lemma {:induction false} HistoryFrom(cs: seq<Candidate>, prior: Option<Record>, registered: bool, record: Record)
    requires cs != [] && record.registered == (registered || (prior.Some? && prior.value.registered))
    requires record.shadow <==> !record.registered && record.verdict.isAgent
    requires record.firstSeen == (if prior.Some? && prior.value.firstSeen < MinAt(cs) then prior.value.firstSeen else MinAt(cs))
    requires record.lastSeen == MaxAt(cs)
    ensures ShowsHistory(cs, prior, registered, record)
  {
    hide MaxAt, MinAt;
    var first :| first in cs && first.at == MinAt(cs);
    var last :| last in cs && last.at == MaxAt(cs);
  }

  lemma {:induction false} UpsertProjects(db: Db, c: Candidate, registered: bool, settings: Settings, now: int)
    requires Upsert(db, c, registered, settings, now).Committed?
    ensures var db', home := Upsert(db, c, registered, settings, now).db, Home(db, c);
            && Upsertable(db.rows, c, now) && db'.rows == RowsAfter(db, c)
            && db'.entities == db.entities[home := Project(CandidatesOf(OtherRows(db.rows, c), home) + [Newest(db.rows, c)], Lookup(db.entities, home), registered, settings, now)]
  {
    hide Project, CandidatesOf, OtherRows, Newest, Home, EdgesOf, SetAlert, RowsAfter, Upsertable, Lookup;
  }

  /** The upsert writes one record, of the entity that now holds the observation's source key. */
  ghost predicate WritesOne(db: Db, db': Db, c: Candidate, id: Id) {
    && id in db'.entities
    && (exists stored :: stored in CandidatesOf(db'.rows, id) && stored.source == c.source && stored.id == c.id)
    && (forall other :: other in db'.entities && other != id ==> other in db.entities && db'.entities[other] == db.entities[other])
  }

  /** After an upsert the one record it writes shows its observations as of then. */
  lemma {:induction false} UpsertShows(db: Db, c: Candidate, registered: bool, settings: Settings, now: int)
    requires Inv(db) && Upsert(db, c, registered, settings, now).Committed?
    ensures var db' := Upsert(db, c, registered, settings, now).db;
            exists id: Id :: WritesOne(db, db', c, id)
              && ShowsNow(CandidatesOf(db'.rows, id), Lookup(db.entities, id), registered, db'.entities[id], settings, now)
  {
    hide *;
    var db', home := Upsert(db, c, registered, settings, now).db, Home(db, c);
    UpsertProjects(db, c, registered, settings, now);
    UpsertRows(db, c, now);
    UpsertGoesHome(db, c, now);
    var own := CandidatesOf(db'.rows, home);
    assert own[|own| - 1] == Newest(db.rows, c) && own[|own| - 1] in own;
    ProjectionShows(own, Lookup(db.entities, home), registered, settings, now);
    WroteOne(db, db', c, home, Newest(db.rows, c));
  }

  lemma {:induction false} WroteOne(db: Db, db': Db, c: Candidate, id: Id, stored: Candidate)
    requires stored in CandidatesOf(db'.rows, id) && SameKey(stored, c)
    requires id in db'.entities && db'.entities == db.entities[id := db'.entities[id]]
    ensures WritesOne(db, db', c, id)
  {
    hide CandidatesOf;
  }

  /** As of now in everything; but if the entity was probed, which takes an approved endpoint, its health is the answer. */
  ghost predicate ShowsRefreshed(cs: seq<Candidate>, before: Record, after: Record, answer: Option<bool>, settings: Settings, now: int) {
    && ShowsActivity(cs, after.active, settings, now) && ShowsTools(cs, after, settings, now) && ShowsCapabilities(cs, after, settings, now)
    && ShowsHistory(cs, Some(before), false, after)
    && after.trust == (if before.endpoint == after.endpoint then before.trust else Unverified)
    && if answer.Some? && after.endpoint.Some? && after.trust == Approved
       then after.checkedAt == Some(now) && after.health == if answer.value then Healthy else Unhealthy
       else ShowsStanding(Some(before), after, settings, now)
  }

  lemma {:induction false} RefreshedRecordShows(db: Db, id: Id, probe: Option<set<Id>>, settings: Settings, now: int)
    requires NoOrphans(db) && id in db.entities && CandidatesOf(db.rows, id) != []
    ensures ShowsRefreshed(CandidatesOf(db.rows, id), db.entities[id], RefreshedRecord(db, id, probe, settings, now),
                           if probe.Some? then Some(id in probe.value) else None, settings, now)
  {
    hide *;
    var before, cs := db.entities[id], CandidatesOf(db.rows, id);
    RefreshedRecordUnfolds(db, id, probe, settings, now);
    ProjectionShows(cs, Some(before), false, settings, now);
    ProbedShows(cs, before, Project(cs, Some(before), false, settings, now), RefreshedRecord(db, id, probe, settings, now),
                if probe.Some? then Some(id in probe.value) else None, settings, now);
  }

  lemma ProbedShows(cs: seq<Candidate>, before: Record, record: Record, after: Record, answer: Option<bool>, settings: Settings, now: int)
    requires ShowsNow(cs, Some(before), false, record, settings, now)
    requires after == if answer.Some? && record.endpoint.Some? && record.trust == Approved
                      then record.(health := if answer.value then Healthy else Unhealthy, checkedAt := Some(now)) else record
    ensures ShowsRefreshed(cs, before, after, answer, settings, now)
  {
    hide ShowsNow, ShowsActivity, ShowsTools, ShowsCapabilities, ShowsHistory, ShowsStanding;
    ProbeShows(cs, Some(before), record, after, settings, now);
  }

  /** After a refresh every record shows its observations as of then. */
  lemma {:induction false} RefreshShows(db: Db, id: Id, probe: Option<set<Id>>, settings: Settings, now: int)
    requires Inv(db) && id in db.entities
    ensures NoOrphans(db)
    ensures var after := Refresh(db, probe, settings, now).entities;
            id in after && ShowsRefreshed(CandidatesOf(db.rows, id), db.entities[id], after[id], if probe.Some? then Some(id in probe.value) else None, settings, now)
  {
    hide *;
    InvProjects(db, id);
    RefreshedEntity(db, id, probe, settings, now);
    RefreshedRecordShows(db, id, probe, settings, now);
  }

  lemma ProbeShowsTools(cs: seq<Candidate>, record: Record, after: Record, settings: Settings, now: int)
    requires ShowsTools(cs, record, settings, now) && after == record.(health := after.health, checkedAt := after.checkedAt)
    ensures ShowsTools(cs, after, settings, now)
  {
    hide Vouches, Recent;
  }

  lemma ProbeShowsCapabilities(cs: seq<Candidate>, record: Record, after: Record, settings: Settings, now: int)
    requires ShowsCapabilities(cs, record, settings, now) && after == record.(health := after.health, checkedAt := after.checkedAt)
    ensures ShowsCapabilities(cs, after, settings, now)
  {
    hide IsCurrentView;
  }

  lemma ProbeShowsHistory(cs: seq<Candidate>, prior: Option<Record>, record: Record, after: Record)
    requires ShowsHistory(cs, prior, false, record) && after == record.(health := after.health, checkedAt := after.checkedAt)
    ensures ShowsHistory(cs, prior, false, after)
  {
  }

  lemma ProbeShows(cs: seq<Candidate>, prior: Option<Record>, record: Record, after: Record, settings: Settings, now: int)
    requires ShowsNow(cs, prior, false, record, settings, now) && after == record.(health := after.health, checkedAt := after.checkedAt)
    ensures ShowsActivity(cs, after.active, settings, now) && ShowsTools(cs, after, settings, now) && ShowsCapabilities(cs, after, settings, now)
    ensures ShowsHistory(cs, prior, false, after)
    ensures after.trust == if prior.Some? && prior.value.endpoint == after.endpoint then prior.value.trust else Unverified
    ensures after == record ==> ShowsStanding(prior, after, settings, now)
  {
    hide ShowsTools, ShowsCapabilities, ShowsHistory, ShowsActivity;
    ProbeShowsTools(cs, record, after, settings, now);
    ProbeShowsCapabilities(cs, record, after, settings, now);
    ProbeShowsHistory(cs, prior, record, after);
  }

  // -------------------------------------------------------------------- alerts and events

  /** In every reachable state an alert repeats what its entity's record says. */
  lemma {:induction false} AlertsTell(ops: seq<Timed>, settings: Settings, id: Id)
    ensures Inv(EMPTY)
    ensures var db := After(EMPTY, ops, settings);
            id in db.alerts ==>
              && id in db.entities
              && var alert, record := db.alerts[id], db.entities[id];
                 && alert.confidence == record.verdict.confidence && alert.evidence == record.evidence && alert.capabilities == record.capabilities
                 && alert.firstSeen == record.firstSeen && alert.lastSeen == record.lastSeen
  {
    EmptyRegistryIsSound();
    var db := After(EMPTY, ops, settings);
    assert AlertsAgree(db);
    hide After, Inv;
  }

  /** The event is new: neither stored nor earlier in the batch is another of its id. */
  ghost predicate IsNewEvent(events: seq<Event>, batch: seq<Event>, i: nat) {
    && i < |batch|
    && (forall known :: known in events ==> known.id != batch[i].id)
    && (forall j :: 0 <= j < i ==> batch[j].id != batch[i].id)
  }

  lemma {:induction false} AddingMeans(events: seq<Event>, batch: seq<Event>)
    ensures forall e :: e in AddEvents(events, batch) <==> e in events || exists i: nat :: IsNewEvent(events, batch, i) && batch[i] == e
  {
    if batch != [] {
      var init, last := batch[..|batch| - 1], batch[|batch| - 1];
      AddingMeans(events, init);
      assert batch == init + [last];
      NewestIsNew(events, init, last);
      forall i: nat | i < |init| ensures IsNewEvent(events, batch, i) <==> IsNewEvent(events, init, i) {
        assert forall j :: 0 <= j <= i ==> batch[j] == init[j];
      }
      assert forall i: nat :: IsNewEvent(events, batch, i) ==> i < |init| || i == |init|;
      assert batch[|init|] == last;
    }
  }

  lemma {:induction false} NewestIsNew(events: seq<Event>, init: seq<Event>, last: Event)
    requires forall e :: e in AddEvents(events, init) <==> e in events || exists i: nat :: IsNewEvent(events, init, i) && init[i] == e
    ensures IsNewEvent(events, init + [last], |init|) <==> forall known :: known in AddEvents(events, init) ==> known.id != last.id
  {
    var batch := init + [last];
    assert forall j :: 0 <= j < |init| ==> batch[j] == init[j];
    if forall known :: known in AddEvents(events, init) ==> known.id != last.id {
      forall j | 0 <= j < |init| ensures init[j].id != last.id {
        FirstOfItsId(events, init, j);
      }
    }
  }

  /** Of the events with one id some new one comes first, unless one is stored. */
  lemma {:induction false} FirstOfItsId(events: seq<Event>, batch: seq<Event>, j: nat)
    requires j < |batch|
    ensures (exists known :: known in events && known.id == batch[j].id) || exists i: nat :: IsNewEvent(events, batch, i) && batch[i].id == batch[j].id
    decreases j
  {
    if !IsNewEvent(events, batch, j) && forall known :: known in events ==> known.id != batch[j].id {
      var k :| 0 <= k < j && batch[k].id == batch[j].id;
      FirstOfItsId(events, batch, k);
    }
  }

  lemma {:induction false} RetainMeans(events: seq<Event>, cutoff: int)
    ensures forall e :: e in Retain(events, cutoff) <==> e in events && cutoff <= e.at
  {
    if events != [] {
      RetainMeans(events[1..], cutoff);
      assert events == [events[0]] + events[1..];
    }
  }

  /**
    A batch with an event outside the window is refused as a whole; a committed one leaves
    exactly the stored and the new events that are inside the window, an event whose id is
    stored, be it that of one just expiring, not being new.
   */
  lemma {:induction false} IngestStores(db: Db, batch: seq<Event>, order: seq<Group>, settings: Settings, now: int)
    ensures var outcome := Ingest(db, batch, order, settings, now);
            outcome.Committed? ==>
              && (forall e :: e in batch ==> Recent(e.at, settings, now) && e.at <= now + 300 * SECOND)
              && forall e :: e in outcome.db.events <==>
                   Recent(e.at, settings, now) && (e in db.events || exists i: nat :: IsNewEvent(db.events, batch, i) && batch[i] == e)
  {
    AddingMeans(db.events, batch);
    RetainMeans(AddEvents(db.events, batch), now - settings.window * SECOND);
    IngestKeepsEvents(db, batch, order, settings, now);
    hide Ingest, AddEvents, Retain, IsNewEvent;
  }

  lemma {:induction false} IngestKeepsEvents(db: Db, batch: seq<Event>, order: seq<Group>, settings: Settings, now: int)
    ensures var outcome := Ingest(db, batch, order, settings, now);
            outcome.Committed? ==> outcome.db.events == EventsAfter(db, batch, settings, now) && AllInWindow(batch, settings, now)
  {
    hide RuntimeCandidates, AllEdges, EventsAfter, Upsert, UpsertAll;
    if Ingest(db, batch, order, settings, now).Committed? {
      var all := RuntimeCandidates(EventsAfter(db, batch, settings, now)).value;
      UpsertsKeepEvents(db.(events := EventsAfter(db, batch, settings, now)), Listed(order, all), settings, now);
    }
  }

  lemma {:induction false} UpsertsKeepEvents(db: Db, cs: seq<Candidate>, settings: Settings, now: int)
    ensures UpsertAll(db, cs, settings, now).Committed? ==> UpsertAll(db, cs, settings, now).db.events == db.events
  {
    hide Upsertable, RecordAfter, RowsAfter, EdgesOf, SetAlert, Home;
    if cs != [] {
      UpsertsKeepEvents(db, cs[..|cs| - 1], settings, now);
    }
  }
}
