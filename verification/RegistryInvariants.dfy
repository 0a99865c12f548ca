/** What every registry operation keeps, and what holds over every run of them. */
module RegistryInvariants {
  import opened EvidenceMerge
  import opened Options
  import opened CensusModel
  import opened Classification
  import opened RuntimeGrouping
  import opened Registry

  ghost predicate KeysDistinct(rows: seq<Row>) {
    forall i, j :: 0 <= i < j < |rows| ==> !SameKey(rows[i].candidate, rows[j].candidate)
  }

  /** Agents and everything else are told apart by their score as well. */
  predicate Separated(verdict: Verdict) {
    (verdict.isAgent <==> 84 <= verdict.confidence <= 97) && (!verdict.isAgent <==> verdict.confidence <= 69)
  }

  ghost predicate Coherent(record: Record) {
    && Separated(record.verdict)
    && (record.shadow <==> !record.registered && record.verdict.isAgent)
    && (record.health == Healthy ==> record.checkedAt.Some?)
    && (record.trust == Approved ==> record.endpoint.Some?)
  }

  ghost predicate OwnersExist(db: Db) {
    forall r :: r in db.rows ==> r.agent in db.entities
  }

  /** The entity owns observations, the latest of them at time `t`. */
  ghost predicate LatestIs(rows: seq<Row>, id: Id, t: int) {
    CandidatesOf(rows, id) != [] && t == MaxAt(CandidatesOf(rows, id))
  }

  /** No observation of the entity is older than `t`. */
  ghost predicate NoneBefore(rows: seq<Row>, id: Id, t: int) {
    forall c :: c in CandidatesOf(rows, id) ==> t <= c.at
  }

  /** Evidence and verdict are what the entity's stored observations give when classified from scratch. */
  ghost predicate Classified(rows: seq<Row>, id: Id, evidence: seq<Evidence>, verdict: Verdict) {
    evidence == MergedEvidence(CandidatesOf(rows, id)) && verdict == Assess(CandidatesOf(rows, id))
  }

  /** What a record shows of the entity beside its verdict, whatever the time. */
  ghost predicate Displayed(rows: seq<Row>, id: Id, record: Record) {
    var cs := CandidatesOf(rows, id);
    && record.endpoint == ObservedEndpoint(cs) && record.owner == ObservedOwner(cs)
    && record.deployment == ConsensusText(set c | c in cs :: c.deployment)
    && record.models == ModelsOf(cs, MergedEvidence(cs))
    && record.mcpServers == set e | e in MergedEvidence(cs) && e.kind == "mcp_connection" && e.value != "" :: e.value
  }

  /** What a record owes to the entity's observations. */
  ghost predicate Reflects(rows: seq<Row>, id: Id, record: Record) {
    && LatestIs(rows, id, record.lastSeen) && NoneBefore(rows, id, record.firstSeen)
    && Classified(rows, id, record.evidence, record.verdict) && Displayed(rows, id, record)
  }

  ghost predicate Projected(db: Db) {
    forall id :: id in db.entities ==> Coherent(db.entities[id]) && Reflects(db.rows, id, db.entities[id])
  }

  lemma {:induction false} SameRowsReflect(a: seq<Row>, b: seq<Row>, id: Id, record: Record)
    requires CandidatesOf(a, id) == CandidatesOf(b, id) && Reflects(a, id, record)
    ensures Reflects(b, id, record)
  {
    hide CandidatesOf, MaxAt, MergedEvidence, Assess;
  }

  ghost predicate AlertsAgree(db: Db) {
    db.alerts == AllAlerts(db.entities)
  }

  ghost predicate IdsBelowNext(db: Db) {
    db.edges.Keys == db.entities.Keys && forall id :: id in db.entities ==> id < db.nextId
  }

  /**
    No orphans: every entity owns an observation and every observation has an entity; a
    source key occurs once, and so does an event id; the alert table is its simple
    definition; an entity's times and flags follow from its observations.
   */
  ghost predicate Inv(db: Db) {
    KeysDistinct(db.rows) && OwnersExist(db) && Projected(db) && AlertsAgree(db) && IdsBelowNext(db) && DistinctIds(db.events)
  }

  /** Distinct source keys are distinct row keys: the joined texts differ. */
  lemma {:induction false} RowKeysAreDistinct(rows: seq<Row>)
    ensures KeysDistinct(rows) <==>
              forall i, j :: 0 <= i < j < |rows| ==> JoinKey(rows[i].candidate.source, rows[i].candidate.id) != JoinKey(rows[j].candidate.source, rows[j].candidate.id)
  {
    forall i, j | 0 <= i < j < |rows|
      ensures SameKey(rows[i].candidate, rows[j].candidate) <==>
                JoinKey(rows[i].candidate.source, rows[i].candidate.id) == JoinKey(rows[j].candidate.source, rows[j].candidate.id)
    {
      JoinKeyInjective(rows[i].candidate.source, rows[i].candidate.id, rows[j].candidate.source, rows[j].candidate.id);
    }
    hide JoinKey;
  }

  // ------------------------------------------------------------------ rows of the table

  lemma {:induction false} OtherRowsHold(rows: seq<Row>, c: Candidate)
    ensures forall r :: r in OtherRows(rows, c) <==> r in rows && !SameKey(r.candidate, c)
    ensures KeysDistinct(rows) ==> KeysDistinct(OtherRows(rows, c))
  {
    if rows != [] {
      OtherRowsHold(rows[1..], c);
      var rest := OtherRows(rows[1..], c);
      assert rows == [rows[0]] + rows[1..];
      if KeysDistinct(rows) {
        forall r | r in rest ensures !SameKey(rows[0].candidate, r.candidate) {
          assert r in rows[1..];
        }
      }
    }
  }

  lemma {:induction false} PreviousRowHolds(rows: seq<Row>, c: Candidate)
    ensures PreviousRow(rows, c).Some? ==> PreviousRow(rows, c).value in rows && SameKey(PreviousRow(rows, c).value.candidate, c)
    ensures PreviousRow(rows, c).None? ==> forall r :: r in rows ==> !SameKey(r.candidate, c)
    ensures KeysDistinct(rows) ==> forall r :: r in rows && SameKey(r.candidate, c) ==> PreviousRow(rows, c) == Some(r)
  {
    if rows != [] {
      PreviousRowHolds(rows[1..], c);
      assert rows == [rows[0]] + rows[1..];
    }
  }

  lemma {:induction false} CandidatesOfHold(rows: seq<Row>, agent: Id)
    ensures forall c :: c in CandidatesOf(rows, agent) <==> Row(agent, c) in rows
  {
    if rows != [] {
      CandidatesOfHold(rows[1..], agent);
      assert rows == [rows[0]] + rows[1..];
    }
  }

  /** Replacing a key owned by someone else leaves an entity's observations alone. */
  lemma {:induction false} OtherOwnersKeepRows(rows: seq<Row>, c: Candidate, agent: Id)
    requires forall r :: r in rows && SameKey(r.candidate, c) ==> r.agent != agent
    ensures CandidatesOf(OtherRows(rows, c), agent) == CandidatesOf(rows, agent)
  {
    if rows != [] {
      assert rows[0] in rows;
      OtherOwnersKeepRows(rows[1..], c, agent);
      CandidatesOfAppend(if SameKey(rows[0].candidate, c) then [] else [rows[0]], OtherRows(rows[1..], c), agent);
    }
  }

  lemma {:induction false} RowsNotOfHold(rows: seq<Row>, agent: Id)
    ensures forall r :: r in RowsNotOf(rows, agent) <==> r in rows && r.agent != agent
    ensures KeysDistinct(rows) ==> KeysDistinct(RowsNotOf(rows, agent))
    ensures forall other :: other != agent ==> CandidatesOf(RowsNotOf(rows, agent), other) == CandidatesOf(rows, other)
  {
    if rows != [] {
      RowsNotOfHold(rows[1..], agent);
      var rest := RowsNotOf(rows[1..], agent);
      assert rows == [rows[0]] + rows[1..];
      if KeysDistinct(rows) {
        forall r | r in rest ensures !SameKey(rows[0].candidate, r.candidate) {
          assert r in rows[1..];
        }
      }
      forall other | other != agent ensures CandidatesOf(RowsNotOf(rows, agent), other) == CandidatesOf(rows, other) {
        CandidatesOfAppend(if rows[0].agent == agent then [] else [rows[0]], rest, other);
      }
    }
  }

  lemma ResolvedOwnerHasRow(c: Candidate, rows: seq<Row>)
    requires Resolve(c, rows).Some?
    ensures exists r :: r in rows && r.agent == Resolve(c, rows).value
  {
    var agent := Resolve(c, rows).value;
    assert agent in Matches(c, rows);
  }

  // ------------------------------------------------------------------------- projection

  lemma {:induction false} ProjectionReads(cs: seq<Candidate>, prior: Option<Record>, registered: bool, settings: Settings, now: int)
    requires cs != []
    ensures var record, evidence := Project(cs, prior, registered, settings, now), MergedEvidence(cs);
            && record.evidence == evidence && record.verdict == Classify(evidence, cs)
            && record.shadow == Shadow(record.registered, record.verdict.isAgent, evidence)
            && record.endpoint == ObservedEndpoint(cs)
            && record.health == ProjectedHealth(prior, record.endpoint, IsActive(cs, settings, now), settings, now)
            && (record.health == Healthy ==> SameEndpoint(prior, record.endpoint) && prior.value.health == Healthy && record.checkedAt == prior.value.checkedAt)
            && (record.trust == Approved ==> SameEndpoint(prior, record.endpoint) && prior.value.trust == Approved)
            && record.lastSeen == MaxAt(cs)
  {
    hide Classify, MergedEvidence, Shadow, ObservedEndpoint, ObservedOwner, IsActive, CurrentOnes, ConsensusText, ModelsOf, ProjectedTools, ProjectedProtocols;
  }

  lemma {:induction false} ProjectionDisplays(rows: seq<Row>, id: Id, prior: Option<Record>, registered: bool, settings: Settings, now: int)
    requires CandidatesOf(rows, id) != []
    ensures Displayed(rows, id, Project(CandidatesOf(rows, id), prior, registered, settings, now))
  {
    hide Classify, MergedEvidence, Shadow, ObservedEndpoint, ObservedOwner, IsActive, CurrentOnes, ConsensusText, ModelsOf, ProjectedTools, ProjectedProtocols,
         CandidatesOf, ProjectedHealth;
  }

  lemma CoherentFromPrior(record: Record, prior: Option<Record>)
    requires Separated(record.verdict) && (record.shadow <==> !record.registered && record.verdict.isAgent)
    requires prior.Some? ==> Coherent(prior.value)
    requires record.health == Healthy ==> SameEndpoint(prior, record.endpoint) && prior.value.health == Healthy && record.checkedAt == prior.value.checkedAt
    requires record.trust == Approved ==> SameEndpoint(prior, record.endpoint) && prior.value.trust == Approved
    ensures Coherent(record)
  {
  }

  lemma {:induction false} ProjectionIsCoherent(cs: seq<Candidate>, prior: Option<Record>, registered: bool, settings: Settings, now: int)
    requires cs != [] && (prior.Some? ==> Coherent(prior.value))
    ensures Coherent(Project(cs, prior, registered, settings, now))
    ensures Project(cs, prior, registered, settings, now).lastSeen == MaxAt(cs)
  {
    hide Project, Classify, MergedEvidence, Shadow, ObservedEndpoint, IsActive, ProjectedHealth, Coherent, SameEndpoint, Declared;
    ProjectionReads(cs, prior, registered, settings, now);
    ScoresSeparate(MergedEvidence(cs), cs);
    ShadowMeansUnregisteredAgent(MergedEvidence(cs), cs, Project(cs, prior, registered, settings, now).registered);
    CoherentFromPrior(Project(cs, prior, registered, settings, now), prior);
  }

  /**
    A projection calls an entity healthy exactly when it was healthy before, its endpoint is
    the one that was probed, the probe is within its time to live and its evidence is active.
   */
  lemma ProjectedHealthy(cs: seq<Candidate>, prior: Option<Record>, registered: bool, settings: Settings, now: int)
    requires cs != [] && (prior.Some? ==> Coherent(prior.value))
    ensures Project(cs, prior, registered, settings, now).health == Healthy <==>
              && prior.Some? && prior.value.health == Healthy
              && prior.value.endpoint == ObservedEndpoint(cs)
              && now - prior.value.checkedAt.value <= settings.healthTtl * SECOND
              && IsActive(cs, settings, now)
  {
    hide Classify, MergedEvidence, Shadow, ObservedEndpoint, IsActive, ProjectedTools, ProjectedProtocols, ModelsOf, CurrentOnes, ConsensusText;
  }

  /** Trust survives only an unchanged endpoint, and registration is never taken back. */
  lemma ProjectionKeeps(cs: seq<Candidate>, prior: Option<Record>, registered: bool, settings: Settings, now: int)
    requires cs != []
    ensures var record := Project(cs, prior, registered, settings, now);
            && (record.trust == Approved ==> prior.Some? && prior.value.trust == Approved && prior.value.endpoint == record.endpoint)
            && (prior.Some? && prior.value.registered ==> record.registered)
            && (prior.Some? ==> record.firstSeen <= prior.value.firstSeen)
            && (forall c :: c in cs ==> record.firstSeen <= c.at <= record.lastSeen)
  {
    hide Classify, MergedEvidence, Shadow, ObservedEndpoint, IsActive, ProjectedTools, ProjectedProtocols, ModelsOf, CurrentOnes, ConsensusText;
  }

  // ------------------------------------------------------------------ what a step keeps

  ghost predicate EntityKept(before: Record, after: Record) {
    && (before.registered ==> after.registered)
    && after.firstSeen <= before.firstSeen
    && before.lastSeen <= after.lastSeen
  }

  /** A row's source key: it stays with its entity, and its observation time never goes back. */
  ghost predicate RowKeptIn(r: Row, rows: seq<Row>) {
    exists r' :: r' in rows && SameKey(r'.candidate, r.candidate) && r'.agent == r.agent && r.candidate.at <= r'.candidate.at
  }

  /** From one state to a later one; what is gone was deleted, and ids are never used again. */
  ghost predicate Progress(db: Db, db': Db) {
    && db.nextId <= db'.nextId
    && (forall id :: id in db'.entities && id !in db.entities ==> db.nextId <= id)
    && (forall id :: id in db.entities && id in db'.entities ==> EntityKept(db.entities[id], db'.entities[id]))
    && (forall r :: r in db.rows && r.agent in db'.entities ==> RowKeptIn(r, db'.rows))
  }

  lemma RowKeptTransitive(r: Row, b: Db, c: Db)
    requires RowKeptIn(r, b.rows) && Progress(b, c) && r.agent in c.entities
    ensures RowKeptIn(r, c.rows)
  {
    var r' :| r' in b.rows && SameKey(r'.candidate, r.candidate) && r'.agent == r.agent && r.candidate.at <= r'.candidate.at;
    assert RowKeptIn(r', c.rows);
    var r'' :| r'' in c.rows && SameKey(r''.candidate, r'.candidate) && r''.agent == r'.agent && r'.candidate.at <= r''.candidate.at;
  }

  lemma ProgressTransitive(a: Db, b: Db, c: Db)
    requires Inv(a) && Progress(a, b) && Progress(b, c)
    ensures Progress(a, c)
  {
    hide KeysDistinct, Projected, AlertsAgree, RowKeptIn;
    forall r | r in a.rows && r.agent in c.entities ensures RowKeptIn(r, c.rows) {
      assert r.agent in a.entities && r.agent in b.entities;
      RowKeptTransitive(r, b, c);
    }
  }

  ghost predicate ApprovedBefore(db: Db, id: Id, endpoint: Option<Endpoint>) {
    id in db.entities && db.entities[id].trust == Approved && db.entities[id].endpoint == endpoint
  }

  /** An approval now is an approval before, for the same endpoint. */
  ghost predicate ApprovalsKept(db: Db, db': Db) {
    forall id :: id in db'.entities && db'.entities[id].trust == Approved ==> ApprovedBefore(db, id, db'.entities[id].endpoint)
  }

  lemma ApprovalsKeptTransitive(a: Db, b: Db, c: Db)
    requires ApprovalsKept(a, b) && ApprovalsKept(b, c)
    ensures ApprovalsKept(a, c)
  {
  }

  // ------------------------------------------------------------------------------ upsert

  /** Where an upsert goes: a known key stays home, a new entity gets an unused id. */
  lemma UpsertGoesHome(db: Db, c: Candidate, now: int)
    requires Inv(db) && Upsertable(db.rows, c, now)
    ensures var home := Home(db, c);
            && (home in db.entities || home == db.nextId)
            && (home !in db.entities ==> CandidatesOf(db.rows, home) == [] && home == db.nextId)
            && (forall r :: r in db.rows && SameKey(r.candidate, c) ==> r.agent == home && r.candidate.at <= Newest(db.rows, c).at)
            && SameKey(Newest(db.rows, c), c)
  {
    hide AlertsAgree, Signals, Conflicts, KeysDistinct, Projected, DistinctIds;
    PreviousRowHolds(db.rows, c);
    if Resolve(Newest(db.rows, c), db.rows).Some? {
      ResolvedOwnerHasRow(Newest(db.rows, c), db.rows);
    }
    CandidatesOfHold(db.rows, db.nextId);
    assert CandidatesOf(db.rows, db.nextId) != [] ==> CandidatesOf(db.rows, db.nextId)[0] in CandidatesOf(db.rows, db.nextId);
  }

  lemma {:induction false} UpsertRows(db: Db, c: Candidate, now: int)
    requires Inv(db) && Upsertable(db.rows, c, now)
    ensures var rows, home := RowsAfter(db, c), Home(db, c);
            && KeysDistinct(rows)
            && (forall r :: r in rows <==> (r in db.rows && !SameKey(r.candidate, c)) || r == Row(home, Newest(db.rows, c)))
            && CandidatesOf(rows, home) == CandidatesOf(OtherRows(db.rows, c), home) + [Newest(db.rows, c)]
            && (forall id :: id != home ==> CandidatesOf(rows, id) == CandidatesOf(db.rows, id))
  {
    hide AlertsAgree, Projected, Upsertable, Home, Newest;
    UpsertGoesHome(db, c, now);
    OtherRowsHold(db.rows, c);
    var others, row := OtherRows(db.rows, c), Row(Home(db, c), Newest(db.rows, c));
    CandidatesOfAppend(others, [row], row.agent);
    assert CandidatesOf([row], row.agent) == [row.candidate];
    forall id | id != row.agent ensures CandidatesOf(RowsAfter(db, c), id) == CandidatesOf(db.rows, id) {
      CandidatesOfAppend(others, [row], id);
      assert CandidatesOf([row], id) == [];
      OtherOwnersKeepRows(db.rows, c, id);
    }
    forall i | 0 <= i < |others| ensures !SameKey(others[i].candidate, row.candidate) {
      assert others[i] in others;
    }
  }

  /** What the new record of an upsert owes to its observations and to the record before. */
  ghost predicate RecordFollows(db: Db, home: Id, record: Record, rows: seq<Row>) {
    && Coherent(record)
    && Reflects(rows, home, record)
    && (record.trust == Approved ==> ApprovedBefore(db, home, record.endpoint))
    && (home in db.entities ==> EntityKept(db.entities[home], record))
  }

  lemma {:induction false} PriorIsCoherent(db: Db, home: Id)
    requires Projected(db)
    ensures var prior := Lookup(db.entities, home);
            && (prior.Some? <==> home in db.entities)
            && (prior.Some? ==> prior.value == db.entities[home] && Coherent(prior.value))
  {
    hide Coherent, Reflects;
  }

  lemma {:induction false} FollowsFromRows(db: Db, home: Id, record: Record, rows: seq<Row>)
    requires CandidatesOf(rows, home) != [] && Coherent(record) && record.lastSeen == MaxAt(CandidatesOf(rows, home))
    requires Classified(rows, home, record.evidence, record.verdict) && Displayed(rows, home, record)
    requires forall c :: c in CandidatesOf(rows, home) ==> record.firstSeen <= c.at
    requires record.trust == Approved ==> ApprovedBefore(db, home, record.endpoint)
    requires home in db.entities ==> EntityKept(db.entities[home], record.(lastSeen := db.entities[home].lastSeen))
    requires home in db.entities ==> forall t :: LatestIs(rows, home, t) ==> db.entities[home].lastSeen <= t
    ensures RecordFollows(db, home, record, rows)
  {
    hide Coherent, CandidatesOf, MaxAt, Classified, Displayed;
    assert LatestIs(rows, home, record.lastSeen) && NoneBefore(rows, home, record.firstSeen);
  }

  /** Projecting an entity anew from rows of its own. */
  lemma {:induction false} ReprojectionFollows(db: Db, home: Id, registered: bool, rows: seq<Row>, settings: Settings, now: int)
    requires Projected(db) && CandidatesOf(rows, home) != []
    requires home in db.entities ==> forall t :: LatestIs(rows, home, t) ==> db.entities[home].lastSeen <= t
    ensures RecordFollows(db, home, Project(CandidatesOf(rows, home), Lookup(db.entities, home), registered, settings, now), rows)
  {
    hide Project, Coherent, Projected, CandidatesOf, MaxAt, LatestIs, RecordFollows, Classify, MergedEvidence, Displayed;
    var own := CandidatesOf(rows, home);
    var prior := Lookup(db.entities, home);
    ProjectionReads(own, prior, registered, settings, now);
    ProjectionDisplays(rows, home, prior, registered, settings, now);
    PriorIsCoherent(db, home);
    ProjectionIsCoherent(own, prior, registered, settings, now);
    ProjectionKeeps(own, prior, registered, settings, now);
    FollowsFromRows(db, home, Project(own, prior, registered, settings, now), rows);
  }

  lemma UpsertRecord(db: Db, c: Candidate, registered: bool, settings: Settings, now: int)
    requires Inv(db) && Upsertable(db.rows, c, now)
    ensures RecordFollows(db, Home(db, c), RecordAfter(db, c, registered, settings, now), RowsAfter(db, c))
  {
    UpsertRows(db, c, now);
    if Home(db, c) in db.entities {
      LastSeenNeverFalls(db, c, now);
    }
    hide Project, AlertsAgree, Upsertable, Newest, Home, KeysDistinct, OwnersExist, Projected, RecordFollows, Reflects;
    ReprojectionFollows(db, Home(db, c), registered, RowsAfter(db, c), settings, now);
  }

  lemma LastSeenNeverFalls(db: Db, c: Candidate, now: int)
    requires Inv(db) && Upsertable(db.rows, c, now) && Home(db, c) in db.entities
    ensures forall t :: LatestIs(RowsAfter(db, c), Home(db, c), t) ==> db.entities[Home(db, c)].lastSeen <= t
  {
    UpsertGoesHome(db, c, now);
    UpsertRows(db, c, now);
    var home := Home(db, c);
    hide AlertsAgree, Upsertable, Newest, Home, KeysDistinct;
    assert LatestIs(db.rows, home, db.entities[home].lastSeen);
    var before, after := CandidatesOf(db.rows, home), CandidatesOf(RowsAfter(db, c), home);
    var latest :| latest in before && latest.at == MaxAt(before);
    CandidatesOfHold(db.rows, home);
    CandidatesOfHold(RowsAfter(db, c), home);
    assert Row(home, latest) in db.rows;
    if SameKey(latest, c) {
      assert Newest(db.rows, c) in after;
    } else {
      assert Row(home, latest) in RowsAfter(db, c);
      assert latest in after;
    }
  }

  lemma AlertTableFollows(entities: map<Id, Record>, id: Id, record: Record)
    requires Coherent(record)
    ensures SetAlert(AllAlerts(entities), id, record) == AllAlerts(entities[id := record])
  {
    hide AlertOf;
  }

  /** The rows an upsert leaves, as the rest of the invariant needs them. */
  ghost predicate RowsFollow(db: Db, home: Id, rows: seq<Row>) {
    && KeysDistinct(rows)
    && (forall r :: r in rows ==> r in db.rows || r.agent == home)
    && (forall id :: id != home ==> CandidatesOf(rows, id) == CandidatesOf(db.rows, id))
    && (forall r :: r in db.rows ==> RowKeptIn(r, rows))
  }

  /** A row list that holds the other rows and a newer row for the replaced key. */
  lemma ReplacedRowsAreKept(rows: seq<Row>, rows': seq<Row>, row: Row)
    requires row in rows'
    requires forall r :: r in rows ==>
               if SameKey(r.candidate, row.candidate) then r.agent == row.agent && r.candidate.at <= row.candidate.at else r in rows'
    ensures forall r :: r in rows ==> RowKeptIn(r, rows')
  {
    forall r | r in rows ensures RowKeptIn(r, rows') {
      assert SameKey(row.candidate, r.candidate) || (r in rows' && SameKey(r.candidate, r.candidate));
    }
  }

  lemma UpsertKeepsRows(db: Db, c: Candidate, now: int)
    requires Inv(db) && Upsertable(db.rows, c, now)
    ensures forall r :: r in db.rows ==> RowKeptIn(r, RowsAfter(db, c))
  {
    UpsertGoesHome(db, c, now);
    UpsertRows(db, c, now);
    hide Inv, Upsertable, Newest, Home, RowsAfter, RowKeptIn;
    ReplacedRowsAreKept(db.rows, RowsAfter(db, c), Row(Home(db, c), Newest(db.rows, c)));
  }

  lemma UpsertRowsFollow(db: Db, c: Candidate, now: int)
    requires Inv(db) && Upsertable(db.rows, c, now)
    ensures RowsFollow(db, Home(db, c), RowsAfter(db, c))
    ensures Home(db, c) in db.entities || Home(db, c) == db.nextId
  {
    UpsertKeepsRows(db, c, now);
    UpsertGoesHome(db, c, now);
    UpsertRows(db, c, now);
    hide Inv, Upsertable, Newest, Home, RowsAfter, RowKeptIn, SameKey;
  }

  function Replaced(db: Db, home: Id, record: Record, rows: seq<Row>, edges: Edges): Db {
    db.(entities := db.entities[home := record], rows := rows, edges := db.edges[home := edges],
        alerts := SetAlert(db.alerts, home, record),
        nextId := if home == db.nextId then db.nextId + 1 else db.nextId)
  }

  lemma ReplacementProjects(db: Db, home: Id, record: Record, rows: seq<Row>, edges: Edges)
    requires Projected(db) && RowsFollow(db, home, rows) && RecordFollows(db, home, record, rows)
    ensures Projected(Replaced(db, home, record, rows, edges))
  {
    hide Coherent, SetAlert, EntityKept, KeysDistinct, RowKeptIn;
    var entities := db.entities[home := record];
    forall id | id in entities
      ensures Coherent(entities[id]) && Reflects(rows, id, entities[id])
    {
      if id != home {
        SameRowsReflect(db.rows, rows, id, entities[id]);
      }
    }
  }

  lemma ReplacementProgresses(db: Db, home: Id, record: Record, rows: seq<Row>, edges: Edges)
    requires IdsBelowNext(db) && OwnersExist(db) && RowsFollow(db, home, rows) && RecordFollows(db, home, record, rows)
    requires home in db.entities || home == db.nextId
    ensures var db' := Replaced(db, home, record, rows, edges);
            Progress(db, db') && ApprovalsKept(db, db') && OwnersExist(db') && IdsBelowNext(db')
  {
    EntityKeptReflexive();
    hide Coherent, SetAlert, EntityKept, KeysDistinct, RowKeptIn, Reflects;
  }

  /** Updating one entity and its rows as an upsert does keeps the invariant. */
  lemma ReplacementKeeps(db: Db, home: Id, record: Record, rows: seq<Row>, edges: Edges)
    requires Inv(db) && RowsFollow(db, home, rows) && RecordFollows(db, home, record, rows)
    requires home in db.entities || home == db.nextId
    ensures var db' := Replaced(db, home, record, rows, edges);
            Inv(db') && Progress(db, db') && ApprovalsKept(db, db')
  {
    AlertTableFollows(db.entities, home, record);
    ReplacementProjects(db, home, record, rows, edges);
    ReplacementProgresses(db, home, record, rows, edges);
    hide Projected, OwnersExist, IdsBelowNext, Progress, ApprovalsKept, SetAlert, AllAlerts, RowKeptIn, Coherent;
  }

  lemma EntityKeptReflexive()
    ensures forall record :: EntityKept(record, record)
  {
  }

  lemma UpsertReplaces(db: Db, db': Db, c: Candidate, registered: bool, settings: Settings, now: int)
    requires Upsert(db, c, registered, settings, now) == Committed(db')
    ensures Upsertable(db.rows, c, now)
    ensures var record, rows := RecordAfter(db, c, registered, settings, now), RowsAfter(db, c);
            db' == Replaced(db, Home(db, c), record, rows, EdgesOf(record, rows)) && db'.events == db.events
  {
    hide RecordAfter, RowsAfter, Home, EdgesOf, SetAlert, Upsertable;
  }

  /** An upsert keeps the invariant and only moves forward. */
  lemma UpsertKeeps(db: Db, db': Db, c: Candidate, registered: bool, settings: Settings, now: int)
    requires Inv(db) && Upsert(db, c, registered, settings, now) == Committed(db')
    ensures Inv(db') && Progress(db, db') && ApprovalsKept(db, db') && db'.events == db.events
  {
    hide *;
    var home, record, rows := Home(db, c), RecordAfter(db, c, registered, settings, now), RowsAfter(db, c);
    UpsertReplaces(db, db', c, registered, settings, now);
    UpsertRowsFollow(db, c, now);
    UpsertRecord(db, c, registered, settings, now);
    ReplacementKeeps(db, home, record, rows, EdgesOf(record, rows));
  }

  lemma RowsUnchangedAreKept(rows: seq<Row>)
    ensures forall r :: r in rows ==> RowKeptIn(r, rows)
  {
    forall r | r in rows ensures RowKeptIn(r, rows) {
      assert SameKey(r.candidate, r.candidate);
    }
  }

  lemma StandingStillKeeps(db: Db)
    ensures Progress(db, db) && ApprovalsKept(db, db)
  {
    RowsUnchangedAreKept(db.rows);
    hide RowKeptIn;
  }

  lemma {:induction false} UpsertAllKeeps(db: Db, db': Db, cs: seq<Candidate>, settings: Settings, now: int)
    requires Inv(db) && UpsertAll(db, cs, settings, now) == Committed(db')
    ensures Inv(db') && Progress(db, db') && ApprovalsKept(db, db') && db'.events == db.events
    decreases |cs|
  {
    hide Inv, Progress, ApprovalsKept, Upsert;
    if cs == [] {
      StandingStillKeeps(db);
    } else {
      var sofar := UpsertAll(db, cs[..|cs| - 1], settings, now).db;
      UpsertAllKeeps(db, sofar, cs[..|cs| - 1], settings, now);
      UpsertKeeps(sofar, db', cs[|cs| - 1], false, settings, now);
      ProgressTransitive(db, sofar, db');
      ApprovalsKeptTransitive(db, sofar, db');
    }
  }

  lemma {:induction false} UpsertEachKeeps(db: Db, cs: seq<Candidate>, settings: Settings, now: int)
    requires Inv(db)
    ensures var db' := UpsertEach(db, cs, settings, now);
            Inv(db') && Progress(db, db') && ApprovalsKept(db, db') && db'.events == db.events
    decreases |cs|
  {
    hide Inv, Progress, ApprovalsKept, Upsert;
    if cs == [] {
      StandingStillKeeps(db);
    } else {
      var sofar := UpsertEach(db, cs[..|cs| - 1], settings, now);
      UpsertEachKeeps(db, cs[..|cs| - 1], settings, now);
      match Upsert(sofar, cs[|cs| - 1], false, settings, now)
      case RolledBack =>
      case Committed(next) =>
        UpsertKeeps(sofar, next, cs[|cs| - 1], false, settings, now);
        ProgressTransitive(db, sofar, next);
        ApprovalsKeptTransitive(db, sofar, next);
    }
  }

  // -------------------------------------------------------------- refresh, delete, trust

  lemma ProbeKeepsRecord(db: Db, id: Id, record: Record, health: Health, checkedAt: int)
    requires RecordFollows(db, id, record, db.rows)
    ensures RecordFollows(db, id, record.(health := health, checkedAt := Some(checkedAt)), db.rows)
  {
  }

  lemma {:induction false} RefreshedRecordIs(db: Db, id: Id, probe: Option<set<Id>>, settings: Settings, now: int)
    requires id in db.entities && CandidatesOf(db.rows, id) != []
    ensures var record := Project(CandidatesOf(db.rows, id), Lookup(db.entities, id), false, settings, now);
            var refreshed := RefreshedRecord(db, id, probe, settings, now);
            || refreshed == record
            || refreshed == record.(health := Healthy, checkedAt := Some(now))
            || refreshed == record.(health := Unhealthy, checkedAt := Some(now))
  {
    hide Project;
  }

  lemma {:induction false} RefreshedRecordHolds(db: Db, id: Id, probe: Option<set<Id>>, settings: Settings, now: int)
    requires Projected(db) && id in db.entities && CandidatesOf(db.rows, id) != []
    ensures RecordFollows(db, id, RefreshedRecord(db, id, probe, settings, now), db.rows)
  {
    LatestSoFar(db, id);
    hide *;
    ReprojectionFollows(db, id, false, db.rows, settings, now);
    RefreshedRecordIs(db, id, probe, settings, now);
    var record := Project(CandidatesOf(db.rows, id), Lookup(db.entities, id), false, settings, now);
    ProbeKeepsRecord(db, id, record, Healthy, now);
    ProbeKeepsRecord(db, id, record, Unhealthy, now);
  }

  lemma {:induction false} LatestSoFar(db: Db, id: Id)
    requires Projected(db) && id in db.entities
    ensures forall t :: LatestIs(db.rows, id, t) ==> db.entities[id].lastSeen <= t
  {
    hide Coherent, NoneBefore, CandidatesOf, MaxAt;
    assert LatestIs(db.rows, id, db.entities[id].lastSeen);
  }

  lemma NoEntityIsOrphaned(db: Db)
    requires Inv(db)
    ensures NoOrphans(db)
  {
    forall id | id in db.entities ensures CandidatesOf(db.rows, id) != [] {
      assert LatestIs(db.rows, id, db.entities[id].lastSeen);
    }
  }

  lemma ShadowAlertsAreAllAlerts(entities: map<Id, Record>)
    requires forall id :: id in entities ==> Coherent(entities[id])
    ensures ShadowAlerts(entities) == AllAlerts(entities)
  {
  }

  function Rerecorded(db: Db, entities: map<Id, Record>, edges: map<Id, Edges>): Db {
    db.(entities := entities, edges := edges, alerts := ShadowAlerts(entities))
  }

  ghost predicate AllFollow(db: Db, entities: map<Id, Record>) {
    entities.Keys == db.entities.Keys && forall id :: id in entities ==> RecordFollows(db, id, entities[id], db.rows)
  }

  lemma RerecordingAgrees(db: Db, entities: map<Id, Record>, edges: map<Id, Edges>)
    requires AllFollow(db, entities)
    ensures AlertsAgree(Rerecorded(db, entities, edges)) && Projected(Rerecorded(db, entities, edges))
  {
    ShadowAlertsAreAllAlerts(entities);
    hide Coherent, Reflects, AllAlerts, ShadowAlerts, EntityKept;
  }

  lemma RerecordingProgresses(db: Db, entities: map<Id, Record>, edges: map<Id, Edges>)
    requires AllFollow(db, entities) && entities.Keys == edges.Keys && OwnersExist(db) && IdsBelowNext(db)
    ensures var db' := Rerecorded(db, entities, edges);
            Progress(db, db') && ApprovalsKept(db, db') && OwnersExist(db') && IdsBelowNext(db') && db'.rows == db.rows
  {
    RowsUnchangedAreKept(db.rows);
    hide Coherent, Reflects, ShadowAlerts, EntityKept, RowKeptIn;
  }

  /** Replacing every record as a refresh does keeps the invariant. */
  lemma RerecordingKeeps(db: Db, entities: map<Id, Record>, edges: map<Id, Edges>)
    requires Inv(db) && AllFollow(db, entities) && entities.Keys == edges.Keys
    ensures var db' := Rerecorded(db, entities, edges);
            Inv(db') && Progress(db, db') && ApprovalsKept(db, db')
  {
    RerecordingAgrees(db, entities, edges);
    RerecordingProgresses(db, entities, edges);
    hide AllFollow, AlertsAgree, Projected, KeysDistinct, OwnersExist, IdsBelowNext, Progress, ApprovalsKept, Rerecorded;
  }

  /** A refresh is a rerecording: it replaces every record, then rebuilds what hangs off them. */
  lemma RefreshRerecords(db: Db, probe: Option<set<Id>>, settings: Settings, now: int)
    requires NoOrphans(db)
    ensures var db' := Refresh(db, probe, settings, now);
            db' == Rerecorded(db, db'.entities, db'.edges) && db'.entities.Keys == db'.edges.Keys
  {
    hide RefreshedRecord, ShadowAlerts, EdgesOf, NoOrphans, Coherent;
  }

  lemma {:induction false} RefreshedEntity(db: Db, id: Id, probe: Option<set<Id>>, settings: Settings, now: int)
    requires NoOrphans(db) && id in db.entities
    ensures CandidatesOf(db.rows, id) != []
    ensures var entities := Refresh(db, probe, settings, now).entities;
            entities.Keys == db.entities.Keys && entities[id] == RefreshedRecord(db, id, probe, settings, now)
  {
    hide RefreshedRecord, ShadowAlerts, EdgesOf, AllEdges;
  }

  lemma RefreshFollows(db: Db, probe: Option<set<Id>>, settings: Settings, now: int)
    requires Projected(db) && NoOrphans(db)
    ensures AllFollow(db, Refresh(db, probe, settings, now).entities)
  {
    hide Projected, RecordFollows, RefreshedRecord, Refresh, NoOrphans;
    var entities := Refresh(db, probe, settings, now).entities;
    forall id | id in db.entities ensures entities.Keys == db.entities.Keys && RecordFollows(db, id, entities[id], db.rows) {
      RefreshedEntity(db, id, probe, settings, now);
      RefreshedRecordHolds(db, id, probe, settings, now);
    }
    RefreshKeys(db, probe, settings, now);
  }

  lemma RefreshKeys(db: Db, probe: Option<set<Id>>, settings: Settings, now: int)
    requires NoOrphans(db)
    ensures Refresh(db, probe, settings, now).entities.Keys == db.entities.Keys
  {
    hide RefreshedRecord, ShadowAlerts, EdgesOf, AllEdges, NoOrphans;
  }

  /** The invariant is all `refresh` needs: no entity's list of observations is ever empty. */
  lemma RefreshKeeps(db: Db, probe: Option<set<Id>>, settings: Settings, now: int)
    requires Inv(db)
    ensures NoOrphans(db)
    ensures var db' := Refresh(db, probe, settings, now);
            Inv(db') && Progress(db, db') && ApprovalsKept(db, db')
  {
    NoEntityIsOrphaned(db);
    RefreshRerecords(db, probe, settings, now);
    RefreshFollows(db, probe, settings, now);
    var db' := Refresh(db, probe, settings, now);
    RerecordingKeeps(db, db'.entities, db'.edges);
    hide Inv, Refresh, Progress, ApprovalsKept, Rerecorded, AllFollow;
  }

  lemma LocallyProbedIs(record: Record, handlers: set<string>, now: int)
    ensures var probed := LocallyProbed(record, handlers, now);
            || probed == record
            || probed == record.(health := Healthy, checkedAt := Some(now))
            || probed == record.(health := Unhealthy, checkedAt := Some(now))
  {
    hide TrimSlashes;
  }

  lemma StandingRecordFollows(db: Db, id: Id)
    requires Projected(db) && id in db.entities
    ensures RecordFollows(db, id, db.entities[id], db.rows)
  {
    hide Coherent, Reflects;
    EntityKeptReflexive();
  }

  lemma LocallyProbedFollows(db: Db, id: Id, handlers: set<string>, now: int)
    requires Projected(db) && id in db.entities
    ensures RecordFollows(db, id, LocallyProbed(db.entities[id], handlers, now), db.rows)
  {
    hide *;
    StandingRecordFollows(db, id);
    LocallyProbedIs(db.entities[id], handlers, now);
    ProbeKeepsRecord(db, id, db.entities[id], Healthy, now);
    ProbeKeepsRecord(db, id, db.entities[id], Unhealthy, now);
  }

  lemma {:induction false} LocallyProbedEntity(db: Db, handlers: set<string>, now: int)
    ensures var entities := ProbeLocals(db, handlers, now).entities;
            entities.Keys == db.entities.Keys && forall id :: id in db.entities ==> entities[id] == LocallyProbed(db.entities[id], handlers, now)
  {
    hide LocallyProbed;
  }

  lemma LocalProbesFollow(db: Db, handlers: set<string>, now: int)
    requires Projected(db)
    ensures AllFollow(db, ProbeLocals(db, handlers, now).entities)
  {
    hide Projected, RecordFollows, LocallyProbed, ProbeLocals;
    LocallyProbedEntity(db, handlers, now);
    var entities := ProbeLocals(db, handlers, now).entities;
    forall id | id in db.entities ensures RecordFollows(db, id, entities[id], db.rows) {
      LocallyProbedFollows(db, id, handlers, now);
    }
  }

  lemma LocalProbesRerecord(db: Db, handlers: set<string>, now: int)
    requires Projected(db) && AlertsAgree(db)
    ensures var db' := ProbeLocals(db, handlers, now); db' == Rerecorded(db, db'.entities, db.edges)
  {
    hide TrimSlashes, Reflects;
    assert forall id :: id in db.entities ==> Coherent(db.entities[id]);
  }

  /** Probing the local entities changes nothing but what it says of their health. */
  lemma ProbeLocalsKeeps(db: Db, handlers: set<string>, now: int)
    requires Inv(db)
    ensures var db' := ProbeLocals(db, handlers, now);
            Inv(db') && Progress(db, db') && ApprovalsKept(db, db')
  {
    LocalProbesRerecord(db, handlers, now);
    LocalProbesFollow(db, handlers, now);
    LocallyProbedEntity(db, handlers, now);
    var db' := ProbeLocals(db, handlers, now);
    assert db'.entities.Keys == db.edges.Keys;
    hide *;
    RerecordingKeeps(db, db'.entities, db.edges);
  }

  lemma DeletionAgrees(db: Db, id: Id)
    requires AlertsAgree(db)
    ensures AlertsAgree(Delete(db, id))
  {
    var db' := Delete(db, id);
    assert db'.alerts == AllAlerts(db'.entities);
  }

  lemma {:induction false} DeletionReflects(db: Db, id: Id, other: Id)
    requires Projected(db) && other in db.entities && other != id
    ensures Coherent(db.entities[other]) && Reflects(RowsNotOf(db.rows, id), other, db.entities[other])
  {
    hide Coherent, Reflects, KeysDistinct, RowsNotOf, CandidatesOf;
    RowsNotOfHold(db.rows, id);
    SameRowsReflect(db.rows, RowsNotOf(db.rows, id), other, db.entities[other]);
  }

  lemma DeletionProjects(db: Db, id: Id)
    requires Projected(db)
    ensures Projected(Delete(db, id))
  {
    hide Coherent, Reflects, RowsNotOf;
    forall other | other in db.entities && other != id
      ensures Coherent(db.entities[other]) && Reflects(RowsNotOf(db.rows, id), other, db.entities[other])
    {
      DeletionReflects(db, id, other);
    }
  }

  lemma DeletionProgresses(db: Db, id: Id)
    requires KeysDistinct(db.rows) && OwnersExist(db) && IdsBelowNext(db)
    ensures var db' := Delete(db, id);
            && KeysDistinct(db'.rows) && OwnersExist(db') && IdsBelowNext(db')
            && Progress(db, db') && ApprovalsKept(db, db')
            && id !in db'.entities && (forall r :: r in db'.rows ==> r.agent != id)
  {
    RowsNotOfHold(db.rows, id);
    EntityKeptReflexive();
    RowsUnchangedAreKept(Delete(db, id).rows);
    hide EntityKept, KeysDistinct, RowKeptIn;
  }

  lemma DeleteKeeps(db: Db, id: Id)
    requires Inv(db)
    ensures Inv(Delete(db, id)) && Progress(db, Delete(db, id)) && ApprovalsKept(db, Delete(db, id))
    ensures id !in Delete(db, id).entities && (forall r :: r in Delete(db, id).rows ==> r.agent != id)
  {
    DeletionAgrees(db, id);
    DeletionProjects(db, id);
    DeletionProgresses(db, id);
    hide Delete, Projected, AlertsAgree, KeysDistinct, OwnersExist, IdsBelowNext, Progress, ApprovalsKept;
  }

  lemma TrustAgrees(db: Db, db': Db, id: Id, trust: Trust, endpointAllowed: bool)
    requires AlertsAgree(db) && SetTrust(db, id, trust, endpointAllowed) == Committed(db')
    ensures AlertsAgree(db')
  {
  }

  lemma TrustProjects(db: Db, db': Db, id: Id, trust: Trust, endpointAllowed: bool)
    requires Projected(db) && SetTrust(db, id, trust, endpointAllowed) == Committed(db')
    ensures Projected(db')
  {
    hide Reflects;
    forall other | other in db'.entities ensures Coherent(db'.entities[other]) && Reflects(db'.rows, other, db'.entities[other]) {
      assert Coherent(db.entities[other]) && Reflects(db.rows, other, db.entities[other]);
      if other == id {
        TrustReflects(db.rows, id, db.entities[id], trust);
      }
    }
  }

  lemma TrustReflects(rows: seq<Row>, id: Id, record: Record, trust: Trust)
    ensures Reflects(rows, id, record.(trust := trust)) == Reflects(rows, id, record)
  {
    hide LatestIs, NoneBefore, Classified;
  }

  lemma TrustProgresses(db: Db, db': Db, id: Id, trust: Trust, endpointAllowed: bool)
    requires OwnersExist(db) && IdsBelowNext(db) && SetTrust(db, id, trust, endpointAllowed) == Committed(db')
    ensures Progress(db, db') && OwnersExist(db') && IdsBelowNext(db') && db'.rows == db.rows && db'.events == db.events
    ensures id in db.entities && db'.entities[id].endpoint == db.entities[id].endpoint
    ensures forall other :: other in db.entities && other != id ==> db'.entities[other] == db.entities[other]
  {
    EntityKeptReflexive();
    RowsUnchangedAreKept(db.rows);
    hide RowKeptIn;
  }

  lemma SetTrustKeeps(db: Db, db': Db, id: Id, trust: Trust, endpointAllowed: bool)
    requires Inv(db) && SetTrust(db, id, trust, endpointAllowed) == Committed(db')
    ensures Inv(db') && Progress(db, db')
    ensures id in db.entities && db'.entities[id].endpoint == db.entities[id].endpoint
    ensures forall other :: other in db.entities && other != id ==> db'.entities[other] == db.entities[other]
  {
    hide SetTrust, Projected, AlertsAgree, KeysDistinct, OwnersExist, IdsBelowNext, Progress;
    TrustAgrees(db, db', id, trust, endpointAllowed);
    TrustProjects(db, db', id, trust, endpointAllowed);
    TrustProgresses(db, db', id, trust, endpointAllowed);
  }

  // ---------------------------------------------------------------------------- whole runs

  datatype Op =
    | DoUpsert(candidate: Candidate, registered: bool)
    | DoDiscover(candidates: seq<Candidate>)
    | DoIngest(batch: seq<Event>, order: seq<Group>)
    | DoRefresh(probe: Option<set<Id>>)
    | DoProbeLocals(handlers: set<string>)
    | DoDelete(id: Id)
    | DoTrust(id: Id, trust: Trust, endpointAllowed: bool)

  function Settle(db: Db, outcome: Outcome): Db {
    match outcome case Committed(next) => next case RolledBack => db
  }

  /** One request at a given time; a refused transaction leaves the state as it was. */
  ghost function Step(db: Db, op: Op, settings: Settings, now: int): Db
    requires Inv(db)
  {
    match op
    case DoUpsert(c, registered) => Settle(db, Upsert(db, c, registered, settings, now))
    case DoDiscover(cs) => Discover(db, cs, settings, now)
    case DoIngest(batch, order) => Settle(db, Ingest(db, batch, order, settings, now))
    case DoRefresh(probe) => Refresh(db, probe, settings, now)
    case DoProbeLocals(handlers) => ProbeLocals(db, handlers, now)
    case DoDelete(id) => Delete(db, id)
    case DoTrust(id, trust, endpointAllowed) => Settle(db, SetTrust(db, id, trust, endpointAllowed))
  }

  lemma RegraphKeeps(before: Db, db: Db)
    requires Inv(db) && Progress(before, db) && ApprovalsKept(before, db)
    ensures Inv(Regraph(db)) && Progress(before, Regraph(db)) && ApprovalsKept(before, Regraph(db))
  {
    hide Coherent, Reflects, AllAlerts, KeysDistinct, EdgesOf, EntityKept, RowKeptIn;
  }

  lemma {:induction false} AddingKeepsIds(events: seq<Event>, batch: seq<Event>)
    requires DistinctIds(events)
    ensures DistinctIds(AddEvents(events, batch))
  {
    if batch != [] {
      AddingKeepsIds(events, batch[..|batch| - 1]);
      var sofar := AddEvents(events, batch[..|batch| - 1]);
      assert forall i :: 0 <= i < |sofar| ==> sofar[i] in sofar;
    }
  }

  lemma {:induction false} RetainingKeepsIds(events: seq<Event>, cutoff: int)
    requires DistinctIds(events)
    ensures DistinctIds(Retain(events, cutoff)) && forall e :: e in Retain(events, cutoff) ==> e in events
  {
    if events != [] {
      RetainingKeepsIds(events[1..], cutoff);
      var rest := Retain(events[1..], cutoff);
      assert events == [events[0]] + events[1..];
      forall i | 0 <= i < |rest| ensures rest[i].id != events[0].id {
        assert rest[i] in rest && rest[i] in events[1..];
      }
    }
  }

  /** The event id is the table's key, so no id is stored twice. */
  lemma {:induction false} StoredIdsStayDistinct(db: Db, batch: seq<Event>, settings: Settings, now: int)
    requires Inv(db)
    ensures DistinctIds(EventsAfter(db, batch, settings, now))
  {
    hide KeysDistinct, OwnersExist, Projected, AlertsAgree, IdsBelowNext, DistinctIds;
    AddingKeepsIds(db.events, batch);
    RetainingKeepsIds(AddEvents(db.events, batch), now - settings.window * SECOND);
  }

  /** Storing events touches nothing else. */
  lemma EventsStandApart(db: Db, events: seq<Event>, db': Db)
    requires Inv(db) && DistinctIds(events)
    ensures Inv(db.(events := events))
    ensures Progress(db.(events := events), db') ==> Progress(db, db')
    ensures ApprovalsKept(db.(events := events), db') ==> ApprovalsKept(db, db')
  {
    hide Coherent, Reflects, AllAlerts, KeysDistinct, EntityKept, RowKeptIn;
  }

  lemma IngestKeeps(db: Db, db': Db, batch: seq<Event>, order: seq<Group>, settings: Settings, now: int)
    requires Inv(db) && Ingest(db, batch, order, settings, now) == Committed(db')
    ensures Inv(db') && Progress(db, db') && ApprovalsKept(db, db')
  {
    hide Inv, Progress, ApprovalsKept, Regraph, EventsAfter, RuntimeCandidates, UpsertAll;
    var retained := EventsAfter(db, batch, settings, now);
    var start := db.(events := retained);
    var cs := Listed(order, RuntimeCandidates(retained).value);
    var next := UpsertAll(start, cs, settings, now).db;
    StoredIdsStayDistinct(db, batch, settings, now);
    EventsStandApart(db, retained, next);
    UpsertAllKeeps(start, next, cs, settings, now);
    RegraphKeeps(db, next);
  }

  lemma StepKeeps(db: Db, op: Op, settings: Settings, now: int)
    requires Inv(db)
    ensures Inv(Step(db, op, settings, now)) && Progress(db, Step(db, op, settings, now))
    ensures op.DoTrust? || ApprovalsKept(db, Step(db, op, settings, now))
  {
    hide Inv, Progress, ApprovalsKept, Upsert, UpsertEach, Refresh, ProbeLocals, Delete, SetTrust, Ingest, Regraph;
    StandingStillKeeps(db);
    match op {
      case DoUpsert(c, registered) =>
        if Upsert(db, c, registered, settings, now).Committed? {
          UpsertKeeps(db, Upsert(db, c, registered, settings, now).db, c, registered, settings, now);
        }
      case DoDiscover(cs) =>
        UpsertEachKeeps(db, cs, settings, now);
        RegraphKeeps(db, UpsertEach(db, cs, settings, now));
      case DoIngest(batch, order) =>
        if Ingest(db, batch, order, settings, now).Committed? {
          IngestKeeps(db, Ingest(db, batch, order, settings, now).db, batch, order, settings, now);
        }
      case DoRefresh(probe) =>
        RefreshKeeps(db, probe, settings, now);
      case DoProbeLocals(handlers) =>
        ProbeLocalsKeeps(db, handlers, now);
      case DoDelete(id) =>
        DeleteKeeps(db, id);
      case DoTrust(id, trust, endpointAllowed) =>
        if SetTrust(db, id, trust, endpointAllowed).Committed? {
          SetTrustKeeps(db, SetTrust(db, id, trust, endpointAllowed).db, id, trust, endpointAllowed);
        }
    }
  }

  datatype Timed = Timed(op: Op, now: int)

  /**
    The state after any operations at any times. Every sequence of them leads somewhere, and
    each state on the way keeps the invariant.
   */
  ghost function After(db: Db, ops: seq<Timed>, settings: Settings): (last: Db)
    requires Inv(db)
    ensures Inv(last) && Progress(db, last)
    decreases |ops|
  {
    hide Inv, Progress, Step;
    if ops == [] then
      StandingStillKeeps(db);
      db
    else
      StepKeeps(db, ops[0].op, settings, ops[0].now);
      var next := Step(db, ops[0].op, settings, ops[0].now);
      var last := After(next, ops[1..], settings);
      ProgressTransitive(db, next, last);
      last
  }

  lemma {:induction false} AfterAppends(db: Db, ops: seq<Timed>, more: seq<Timed>, settings: Settings)
    requires Inv(db)
    ensures After(db, ops + more, settings) == After(After(db, ops, settings), more, settings)
    decreases |ops|
  {
    hide Inv, Progress, Step;
    if ops == [] {
      assert ops + more == more;
    } else {
      assert (ops + more)[0] == ops[0] && (ops + more)[1..] == ops[1..] + more;
      StepKeeps(db, ops[0].op, settings, ops[0].now);
      AfterAppends(Step(db, ops[0].op, settings, ops[0].now), ops[1..], more, settings);
    }
  }

  lemma EmptyRegistryIsSound()
    ensures Inv(EMPTY)
  {
  }

  /**
    Over any sequence of registrations, discoveries, ingestions, refreshes, scans, deletions
    and trust decisions, from the empty registry: no entity and no observation is orphaned and
    row keys are distinct; and from any state of the run to any later one keys never move or
    vanish short of their entity's deletion, observation times never go back, registration
    never reverts, and the seen interval only widens.
   */
  lemma {:induction false} RunsKeepTheRegistry(ops: seq<Timed>, more: seq<Timed>, settings: Settings)
    ensures Inv(EMPTY)
    ensures var before, after := After(EMPTY, ops, settings), After(EMPTY, ops + more, settings);
            && NoOrphans(after) && OwnersExist(after) && Progress(before, after)
            && forall i, j :: 0 <= i < j < |after.rows| ==>
                 JoinKey(after.rows[i].candidate.source, after.rows[i].candidate.id) != JoinKey(after.rows[j].candidate.source, after.rows[j].candidate.id)
  {
    EmptyRegistryIsSound();
    AfterAppends(EMPTY, ops, more, settings);
    var after := After(EMPTY, ops + more, settings);
    NoEntityIsOrphaned(after);
    RowKeysAreDistinct(after.rows);
    hide After, Progress, KeysDistinct, Projected, AlertsAgree, JoinKey, NoOrphans;
  }

  /**
    Every reachable entity is what its stored observations make it: evidence and verdict are
    those of classifying them from scratch, the seen interval spans them, its score is on its
    own side of the gap, and it has an alert exactly if it is unregistered and they show,
    between them, an agent's behaviour.
   */
  lemma {:induction false} ReachableEntitiesReflectTheirRows(ops: seq<Timed>, settings: Settings, id: Id)
    ensures Inv(EMPTY)
    ensures var db := After(EMPTY, ops, settings);
            var cs := CandidatesOf(db.rows, id);
            && (id in db.entities ==>
                  var record := db.entities[id];
                  && cs != [] && record.evidence == MergedEvidence(cs) && record.verdict == Assess(cs) && Separated(record.verdict)
                  && record.lastSeen == MaxAt(cs) && (forall c :: c in cs ==> record.firstSeen <= c.at)
                  && (record.health == Healthy ==> record.checkedAt.Some?) && (record.trust == Approved ==> record.endpoint.Some?))
            && (id in db.alerts <==> id in db.entities && !db.entities[id].registered && ActsAsAgent(cs))
            && (id in db.alerts ==> db.alerts[id] == AlertOf(db.entities[id]))
  {
    EmptyRegistryIsSound();
    var db := After(EMPTY, ops, settings);
    var cs := CandidatesOf(db.rows, id);
    assert AlertsAgree(db) && Projected(db);
    AgentGates(cs);
    hide After, Inv, CandidatesOf, MergedEvidence, Assess, ActsAsAgent, AlertOf;
  }

  /** The entity was healthy, at the endpoint it still has, probed within the time to live, and its evidence is active. */
  ghost predicate StaysHealthy(record: Record, cs: seq<Candidate>, settings: Settings, now: int)
    requires cs != [] && Coherent(record)
  {
    && record.health == Healthy && record.endpoint == ObservedEndpoint(cs)
    && now - record.checkedAt.value <= settings.healthTtl * SECOND
    && IsActive(cs, settings, now)
  }

  lemma {:induction false} InvProjects(db: Db, id: Id)
    requires Inv(db) && id in db.entities
    ensures NoOrphans(db) && CandidatesOf(db.rows, id) != [] && Coherent(db.entities[id])
  {
    NoEntityIsOrphaned(db);
    assert Projected(db);
    hide Inv, Coherent, LatestIs, Classified, NoneBefore;
  }

  lemma {:induction false} RefreshedRecordUnfolds(db: Db, id: Id, probe: Option<set<Id>>, settings: Settings, now: int)
    requires NoOrphans(db) && id in db.entities
    ensures CandidatesOf(db.rows, id) != []
    ensures var record := Project(CandidatesOf(db.rows, id), Some(db.entities[id]), false, settings, now);
            RefreshedRecord(db, id, probe, settings, now) ==
            if probe.Some? && record.endpoint.Some? && record.trust == Approved
            then record.(health := if id in probe.value then Healthy else Unhealthy, checkedAt := Some(now)) else record
  {
    hide Project;
  }

  lemma {:induction false} RefreshedHealth(db: Db, id: Id, probe: Option<set<Id>>, settings: Settings, now: int)
    requires NoOrphans(db) && id in db.entities && CandidatesOf(db.rows, id) != [] && Coherent(db.entities[id])
    ensures var before, cs := db.entities[id], CandidatesOf(db.rows, id);
            var probed := probe.Some? && before.trust == Approved && before.endpoint == ObservedEndpoint(cs);
            RefreshedRecord(db, id, probe, settings, now).health == Healthy <==> if probed then id in probe.value else StaysHealthy(before, cs, settings, now)
  {
    var before, cs := db.entities[id], CandidatesOf(db.rows, id);
    hide NoOrphans, Project, CandidatesOf, ObservedEndpoint, IsActive, RefreshedRecord;
    RefreshedRecordUnfolds(db, id, probe, settings, now);
    ProjectedHealthy(cs, Some(before), false, settings, now);
    ProjectedTrust(cs, before, settings, now);
  }

  /**
    After a refresh an entity is called healthy exactly if it was probed and answered, or was
    not probed and stays healthy; and it is probed exactly if a probe was asked for and its
    endpoint is the one that was approved.
   */
  lemma {:induction false} RefreshSaysHealthyIff(db: Db, id: Id, probe: Option<set<Id>>, settings: Settings, now: int)
    requires Inv(db) && id in db.entities
    ensures NoOrphans(db) && CandidatesOf(db.rows, id) != [] && Coherent(db.entities[id])
    ensures var before, cs := db.entities[id], CandidatesOf(db.rows, id);
            var next := Refresh(db, probe, settings, now);
            var probed := probe.Some? && before.trust == Approved && before.endpoint == ObservedEndpoint(cs);
            && id in next.entities
            && (next.entities[id].health == Healthy <==> if probed then id in probe.value else StaysHealthy(before, cs, settings, now))
  {
    InvProjects(db, id);
    hide *;
    RefreshedEntity(db, id, probe, settings, now);
    RefreshedHealth(db, id, probe, settings, now);
  }

  lemma {:induction false} RefreshedTrust(db: Db, id: Id, probe: Option<set<Id>>, settings: Settings, now: int)
    requires NoOrphans(db) && id in db.entities && CandidatesOf(db.rows, id) != []
    ensures var before, cs, after := db.entities[id], CandidatesOf(db.rows, id), RefreshedRecord(db, id, probe, settings, now);
            after.endpoint == ObservedEndpoint(cs) && (after.trust == Approved <==> before.trust == Approved && before.endpoint == ObservedEndpoint(cs))
  {
    hide NoOrphans, Project, CandidatesOf, ObservedEndpoint, RefreshedRecord;
    RefreshedRecordUnfolds(db, id, probe, settings, now);
    ProjectedTrust(CandidatesOf(db.rows, id), db.entities[id], settings, now);
  }

  /**
    A scan refreshes with a probe and then probes the local entities again. It leaves an
    approved entity healthy exactly if its local handler is installed or, elsewhere, its
    endpoint answered, and any other exactly if that stays healthy.
   */
  lemma {:induction false} ScanSaysHealthyIff(db: Db, id: Id, answering: set<Id>, handlers: set<string>, settings: Settings, now: int, later: int)
    requires Inv(db) && id in db.entities
    ensures NoOrphans(db) && CandidatesOf(db.rows, id) != [] && Coherent(db.entities[id])
    ensures var before, cs := db.entities[id], CandidatesOf(db.rows, id);
            var next := ProbeLocals(Refresh(db, Some(answering), settings, now), handlers, later);
            && id in next.entities
            && (next.entities[id].health == Healthy <==>
                  if before.trust != Approved || before.endpoint != ObservedEndpoint(cs) then StaysHealthy(before, cs, settings, now)
                  else if LOCAL <= before.endpoint.value.text then TrimSlashes(before.endpoint.value.text[|LOCAL|..]) in handlers
                  else id in answering)
  {
    InvProjects(db, id);
    CoherentTrust(db.entities[id]);
    hide *;
    var refreshed := Refresh(db, Some(answering), settings, now);
    RefreshedEntity(db, id, Some(answering), settings, now);
    RefreshedHealth(db, id, Some(answering), settings, now);
    RefreshedTrust(db, id, Some(answering), settings, now);
    LocallyProbedEntity(refreshed, handlers, later);
    LocallyProbedHealth(refreshed.entities[id], handlers, later);
  }

  lemma CoherentTrust(record: Record)
    requires Coherent(record)
    ensures record.trust == Approved ==> record.endpoint.Some?
  {
  }

  lemma LocallyProbedHealth(record: Record, handlers: set<string>, now: int)
    ensures LocallyProbed(record, handlers, now).health == Healthy <==>
            if record.endpoint.Some? && LOCAL <= record.endpoint.value.text && record.trust == Approved
            then TrimSlashes(record.endpoint.value.text[|LOCAL|..]) in handlers else record.health == Healthy
  {
    hide TrimSlashes;
  }

  lemma ProjectedTrust(cs: seq<Candidate>, prior: Record, settings: Settings, now: int)
    requires cs != []
    ensures var record := Project(cs, Some(prior), false, settings, now);
            record.endpoint == ObservedEndpoint(cs) && (record.trust == Approved <==> prior.trust == Approved && prior.endpoint == ObservedEndpoint(cs))
  {
    hide Classify, MergedEvidence, Shadow, ObservedEndpoint, ObservedOwner, IsActive, ProjectedTools, ProjectedProtocols, ModelsOf, CurrentOnes, ConsensusText,
         ProjectedHealth;
  }

  /** Approved at the start and after each operation of the run. */
  ghost predicate StaysApproved(db: Db, ops: seq<Timed>, id: Id, settings: Settings)
    requires Inv(db)
    decreases |ops|
  {
    && id in db.entities && db.entities[id].trust == Approved
    && (if ops == [] then true
        else
          StepKeeps(db, ops[0].op, settings, ops[0].now);
          StaysApproved(Step(db, ops[0].op, settings, ops[0].now), ops[1..], id, settings))
  }

  /** One operation that leaves an approved entity approved leaves its endpoint alone. */
  lemma StepBindsApproval(db: Db, op: Op, id: Id, settings: Settings, now: int)
    requires Inv(db)
    requires var next := Step(db, op, settings, now); id in next.entities && next.entities[id].trust == Approved
    ensures id in db.entities && db.entities[id].endpoint == Step(db, op, settings, now).entities[id].endpoint
    ensures db.entities[id].trust != Approved ==>
              op.DoTrust? && op.id == id && op.trust == Approved && op.endpointAllowed && db.entities[id].endpoint.Some?
  {
    hide Inv;
    StepKeeps(db, op, settings, now);
    if op.DoTrust? && SetTrust(db, op.id, op.trust, op.endpointAllowed).Committed? {
      SetTrustKeeps(db, Step(db, op, settings, now), op.id, op.trust, op.endpointAllowed);
    }
    hide Upsert, Discover, Refresh, ProbeLocals, Delete, Ingest, Progress;
  }

  /** As long as an entity stays approved it has the endpoint it was approved with. */
  lemma {:induction false} ApprovalIsBoundToEndpoint(db: Db, ops: seq<Timed>, id: Id, settings: Settings)
    requires Inv(db) && StaysApproved(db, ops, id, settings)
    ensures var last := After(db, ops, settings);
            id in db.entities && id in last.entities && last.entities[id].endpoint == db.entities[id].endpoint
    decreases |ops|
  {
    hide Inv, Step, Progress;
    if ops != [] {
      StepKeeps(db, ops[0].op, settings, ops[0].now);
      StepBindsApproval(db, ops[0].op, id, settings, ops[0].now);
      ApprovalIsBoundToEndpoint(Step(db, ops[0].op, settings, ops[0].now), ops[1..], id, settings);
    }
  }

  // -------------------------------------------------------------------------- derived edges

  predicate Regraphs(op: Op) {
    op.DoDiscover? || op.DoIngest? || op.DoRefresh?
  }

  ghost predicate TargetExists(edge: Edge, entities: map<Id, Record>) {
    match edge
    case DelegatesTo(KnownAgent(agent)) => agent in entities
    case DependsOn(KnownAgent(agent)) => agent in entities
    case _ => true
  }

  lemma ServiceTargetExists(service: string, db: Db)
    requires OwnersExist(db)
    ensures ServiceTarget(service, db.rows).KnownAgent? ==> ServiceTarget(service, db.rows).agent in db.entities
  {
    var owners := set r | r in db.rows && r.candidate.service == service :: r.agent;
    if Consensus(owners).Some? {
      assert Consensus(owners).value in owners;
    }
  }

  lemma {:induction false} CallEdgesExist(evidence: seq<Evidence>, db: Db)
    requires OwnersExist(db)
    ensures forall edge :: edge in CallEdges(evidence, db.rows) ==> TargetExists(edge, db.entities)
  {
    if evidence != [] {
      CallEdgesExist(evidence[..|evidence| - 1], db);
      ServiceTargetExists(evidence[|evidence| - 1].value, db);
    }
  }

  lemma RecordEdgesExist(record: Record, db: Db)
    requires OwnersExist(db)
    ensures forall edge :: edge in EdgesOf(record, db.rows) ==> TargetExists(edge, db.entities)
  {
    CallEdgesExist(record.evidence, db);
    hide CallEdges, ServiceTarget;
  }

  /** The one entity whose observations bear the service's name. */
  ghost predicate HoldsAlone(agent: Id, service: string, rows: seq<Row>) {
    && (exists r :: r in rows && r.candidate.service == service)
    && (forall r :: r in rows && r.candidate.service == service ==> r.agent == agent)
  }

  /** Evidence of this kind names a service that the agent alone holds. */
  ghost predicate CallsAgent(evidence: seq<Evidence>, kind: string, agent: Id, rows: seq<Row>) {
    exists e :: e in evidence && e.kind == kind && e.value != "" && HoldsAlone(agent, e.value, rows)
  }

  lemma ResolvedMeansAlone(service: string, rows: seq<Row>, agent: Id)
    ensures ServiceTarget(service, rows) == KnownAgent(agent) <==> HoldsAlone(agent, service, rows)
  {
    var owners := set r | r in rows && r.candidate.service == service :: r.agent;
    assert Consensus(owners) == Some(agent) <==> owners == {agent} by {
      assert owners == {agent} ==> agent in owners;
    }
    if HoldsAlone(agent, service, rows) {
      var r :| r in rows && r.candidate.service == service;
      assert r.agent in owners;
      assert owners == {agent};
    }
    if owners == {agent} {
      assert agent in owners;
      forall r | r in rows && r.candidate.service == service ensures r.agent == agent {
        assert r.agent in owners;
      }
    }
  }

  lemma {:induction false} CallEdgesMean(evidence: seq<Evidence>, rows: seq<Row>, edge: Edge)
    ensures edge in CallEdges(evidence, rows) <==> exists e :: e in evidence && IsCall(e) && CallEdge(e, rows) == edge
  {
    if evidence != [] {
      var init, last := evidence[..|evidence| - 1], evidence[|evidence| - 1];
      CallEdgesMean(init, rows, edge);
      assert evidence == init + [last];
      hide CallEdge;
    }
  }

  lemma {:induction false} OnlyCallsGiveAgentEdges(record: Record, rows: seq<Row>, edge: Edge)
    requires edge.DelegatesTo? || edge.DependsOn?
    ensures edge in EdgesOf(record, rows) <==> edge in CallEdges(record.evidence, rows)
  {
    hide CallEdges, ProofOfTool, ProofOfCapability, CapabilityNames;
  }

  lemma CallEdgeMeans(e: Evidence, rows: seq<Row>, agent: Id)
    ensures IsCall(e) && CallEdge(e, rows) == DelegatesTo(KnownAgent(agent)) <==> e.kind == "delegation" && e.value != "" && HoldsAlone(agent, e.value, rows)
    ensures IsCall(e) && CallEdge(e, rows) == DependsOn(KnownAgent(agent)) <==> e.kind == "agent_call" && e.value != "" && HoldsAlone(agent, e.value, rows)
  {
    ResolvedMeansAlone(e.value, rows, agent);
    hide ServiceTarget, HoldsAlone;
    assert "delegation"[0] != "agent_call"[0];
  }

  lemma AgentEdgesMean(record: Record, rows: seq<Row>, agent: Id)
    ensures DelegatesTo(KnownAgent(agent)) in EdgesOf(record, rows) <==> CallsAgent(record.evidence, "delegation", agent, rows)
    ensures DependsOn(KnownAgent(agent)) in EdgesOf(record, rows) <==> CallsAgent(record.evidence, "agent_call", agent, rows)
  {
    OnlyCallsGiveAgentEdges(record, rows, DelegatesTo(KnownAgent(agent)));
    OnlyCallsGiveAgentEdges(record, rows, DependsOn(KnownAgent(agent)));
    CallEdgesMean(record.evidence, rows, DelegatesTo(KnownAgent(agent)));
    CallEdgesMean(record.evidence, rows, DependsOn(KnownAgent(agent)));
    hide EdgesOf, CallEdges, CallEdge, HoldsAlone, IsCall;
    forall e | e in record.evidence
      ensures IsCall(e) && CallEdge(e, rows) == DelegatesTo(KnownAgent(agent)) <==> e.kind == "delegation" && e.value != "" && HoldsAlone(agent, e.value, rows)
      ensures IsCall(e) && CallEdge(e, rows) == DependsOn(KnownAgent(agent)) <==> e.kind == "agent_call" && e.value != "" && HoldsAlone(agent, e.value, rows)
    {
      CallEdgeMeans(e, rows, agent);
    }
  }

  /** The edges of a state whose edge table was just rebuilt. */
  ghost predicate EdgesHold(db: Db) {
    && db.edges == AllEdges(db.entities, db.rows)
    && (forall id, edge :: id in db.edges && edge in db.edges[id] ==> TargetExists(edge, db.entities))
    && (forall id, agent :: id in db.entities ==>
          && (DelegatesTo(KnownAgent(agent)) in db.edges[id] <==> CallsAgent(db.entities[id].evidence, "delegation", agent, db.rows))
          && (DependsOn(KnownAgent(agent)) in db.edges[id] <==> CallsAgent(db.entities[id].evidence, "agent_call", agent, db.rows)))
  }

  lemma RebuiltEdgesHold(db: Db)
    requires OwnersExist(db) && db.edges == AllEdges(db.entities, db.rows)
    ensures EdgesHold(db)
  {
    hide EdgesOf, TargetExists, CallsAgent, OwnersExist;
    forall id | id in db.entities ensures db.edges[id] == EdgesOf(db.entities[id], db.rows) && forall edge :: edge in db.edges[id] ==> TargetExists(edge, db.entities) {
      RecordEdgesExist(db.entities[id], db);
    }
    forall id, agent | id in db.entities
      ensures DelegatesTo(KnownAgent(agent)) in db.edges[id] <==> CallsAgent(db.entities[id].evidence, "delegation", agent, db.rows)
      ensures DependsOn(KnownAgent(agent)) in db.edges[id] <==> CallsAgent(db.entities[id].evidence, "agent_call", agent, db.rows)
    {
      AgentEdgesMean(db.entities[id], db.rows, agent);
    }
  }

  lemma RegraphingRebuilds(db: Db, op: Op, settings: Settings, now: int)
    requires Inv(db) && Regraphs(op)
    requires op.DoIngest? ==> Ingest(db, op.batch, op.order, settings, now).Committed?
    ensures var next := Step(db, op, settings, now); next.edges == AllEdges(next.entities, next.rows)
  {
    hide Inv, UpsertAll, UpsertEach, AllEdges, EventsAfter, RuntimeCandidates, RefreshedRecord, ShadowAlerts, Upsert, Delete, SetTrust;
  }

  /**
    After every committed discovery, ingestion or refresh the stored edges are the ones
    computed from scratch; an edge to an agent points at an existing entity, and it is there
    exactly when the evidence calls a service whose name that entity alone bears.
   */
  lemma EdgesAgreeAfterRegraph(db: Db, op: Op, settings: Settings, now: int)
    requires Inv(db) && Regraphs(op)
    requires op.DoIngest? ==> Ingest(db, op.batch, op.order, settings, now).Committed?
    ensures EdgesHold(Step(db, op, settings, now))
  {
    StepKeeps(db, op, settings, now);
    RegraphingRebuilds(db, op, settings, now);
    hide Step, EdgesHold, Ingest, KeysDistinct, Projected, AlertsAgree, IdsBelowNext, OwnersExist, DistinctIds, Progress, ApprovalsKept;
    RebuiltEdgesHold(Step(db, op, settings, now));
  }
}
