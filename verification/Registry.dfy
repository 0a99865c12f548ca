/**
  The Census registry as one value: entities projected from observations, plus the tables
  derived from them. Every operation is a function from one committed state to the next.
 */
module Registry {
  import opened EvidenceMerge
  import opened Options
  import opened CensusModel
  import opened Classification
  import opened RuntimeGrouping
  import Capabilities

  /** Times are in microseconds; the settings are in seconds. */
  datatype Settings = Settings(window: nat, healthTtl: nat)

  const SECOND := 1000000
  const TOLERANCE := 300 * SECOND

  datatype Trust = Approved | Unverified | Blocked
  datatype Health = Healthy | Unhealthy | Unknown | Stale

  datatype Record = Record(
    endpoint: Option<Endpoint>,
    owner: Option<string>,
    deployment: string,
    capabilities: Capabilities.Found,
    tools: set<string>,
    protocols: set<string>,
    models: set<string>,
    mcpServers: set<string>,
    evidence: seq<Evidence>,
    verdict: Verdict,
    registered: bool,
    shadow: bool,
    trust: Trust,
    health: Health,
    checkedAt: Option<int>,
    firstSeen: int,
    lastSeen: int,
    active: bool)

  type Id = nat

  datatype Row = Row(agent: Id, candidate: Candidate)

  datatype Target = KnownAgent(agent: Id) | UnresolvedService(service: string)

  /** What makes a graph edge of one entity distinct: relation, target type and target. */
  datatype Edge =
    | UsesTool(tool: string)
    | HasCapability(name: string)
    | Exposes(endpoint: Endpoint)
    | OwnedBy(owner: string)
    | ObservedAt(deployment: string)
    | UsesModel(model: string)
    | UsesMcp(server: string)
    | DelegatesTo(target: Target)
    | DependsOn(target: Target)

  type Edges = map<Edge, seq<Evidence>>

  datatype Alert = Alert(confidence: nat, evidence: seq<Evidence>, capabilities: Capabilities.Found, firstSeen: int, lastSeen: int)

  datatype Db = Db(
    entities: map<Id, Record>,
    rows: seq<Row>,
    edges: map<Id, Edges>,
    alerts: map<Id, Alert>,
    events: seq<Event>,
    nextId: Id)

  const EMPTY := Db(map[], [], map[], map[], [], 0)

  predicate SameKey(a: Candidate, b: Candidate) {
    a.source == b.source && a.id == b.id
  }

  /** The rows whose key differs from the candidate's. */
  function OtherRows(rows: seq<Row>, c: Candidate): seq<Row> {
    if rows == [] then []
    else (if SameKey(rows[0].candidate, c) then [] else [rows[0]]) + OtherRows(rows[1..], c)
  }

  function CandidatesOf(rows: seq<Row>, agent: Id): seq<Candidate> {
    if rows == [] then []
    else (if rows[0].agent == agent then [rows[0].candidate] else []) + CandidatesOf(rows[1..], agent)
  }

  function PreviousRow(rows: seq<Row>, c: Candidate): Option<Row> {
    if rows == [] then None
    else if SameKey(rows[0].candidate, c) then Some(rows[0])
    else PreviousRow(rows[1..], c)
  }

  // ---------------------------------------------------------------- identity resolution

  function Lower(c: char): char {
    if 'A' <= c <= 'Z' then c - 'A' + 'a' else c
  }

  function LowerText(s: string): string {
    if s == "" then "" else [Lower(s[0])] + LowerText(s[1..])
  }

  /** Scheme and host in lower case, the scheme's own port dropped, an empty path made "/". */
  function Canonical(e: Endpoint): Endpoint {
    var scheme := LowerText(e.scheme);
    var implied := (scheme == "https" && e.port == 443) || (scheme == "http" && e.port == 80);
    Endpoint("", scheme, LowerText(e.host), if implied then 0 else e.port, if e.path == "" then "/" else e.path)
  }

  predicate Signals(c: Candidate, o: Candidate) {
    || SameKey(c, o)
    || (c.endpoint.Some? && o.endpoint.Some? && Canonical(c.endpoint.value) == Canonical(o.endpoint.value))
    || (c.namespace != "" && c.service != "" && c.deployment != ""
        && c.namespace == o.namespace && c.service == o.service && c.deployment == o.deployment)
    || (c.registrationId != "" && c.registrationId == o.registrationId)
  }

  predicate Conflicts(c: Candidate, agent: Id, rows: seq<Row>) {
    var registrations := set r | r in rows && r.agent == agent && r.candidate.registrationId != "" :: r.candidate.registrationId;
    var namespaces := set r | r in rows && r.agent == agent && r.candidate.namespace != "" :: r.candidate.namespace;
    || (c.registrationId != "" && registrations != {} && registrations != {c.registrationId})
    || (c.namespace != "" && namespaces != {} && c.namespace !in namespaces)
  }

  function Matches(c: Candidate, rows: seq<Row>): set<Id> {
    set r | r in rows && Signals(c, r.candidate) && !Conflicts(c, r.agent, rows) :: r.agent
  }

  /** The one entity the candidate belongs to, if there is exactly one. */
  function Resolve(c: Candidate, rows: seq<Row>): Option<Id> {
    Consensus(Matches(c, rows))
  }

  // ------------------------------------------------------------------------ projection

  function MaxAt(cs: seq<Candidate>): (m: int)
    requires cs != []
    ensures (forall c :: c in cs ==> c.at <= m) && exists c :: c in cs && c.at == m
  {
    if |cs| == 1 then cs[0].at
    else
      var rest := MaxAt(cs[1..]);
      assert cs == [cs[0]] + cs[1..];
      if rest < cs[0].at then cs[0].at else rest
  }

  function MinAt(cs: seq<Candidate>): (m: int)
    requires cs != []
    ensures (forall c :: c in cs ==> m <= c.at) && exists c :: c in cs && c.at == m
  {
    if |cs| == 1 then cs[0].at
    else
      var rest := MinAt(cs[1..]);
      assert cs == [cs[0]] + cs[1..];
      if cs[0].at < rest then cs[0].at else rest
  }

  predicate Declares(c: Candidate) {
    c.source == "manual" || c.source == "a2a"
  }

  /** Declarations come before telemetry, newer before older, and the first one wins a tie. */
  predicate Preferred(a: Candidate, b: Candidate) {
    (Declares(a) && !Declares(b)) || (Declares(a) == Declares(b) && a.at > b.at)
  }

  function FirstPreferred(cs: seq<Candidate>): Option<Candidate> {
    if cs == [] then None
    else
      var init := FirstPreferred(cs[..|cs| - 1]);
      var last := cs[|cs| - 1];
      if init.Some? && !Preferred(last, init.value) then init else Some(last)
  }

  function WithEndpoint(cs: seq<Candidate>): seq<Candidate> {
    if cs == [] then [] else WithEndpoint(cs[..|cs| - 1]) + (if cs[|cs| - 1].endpoint.Some? then [cs[|cs| - 1]] else [])
  }

  function WithOwner(cs: seq<Candidate>): seq<Candidate> {
    if cs == [] then [] else WithOwner(cs[..|cs| - 1]) + (if cs[|cs| - 1].owner.Some? then [cs[|cs| - 1]] else [])
  }

  function ObservedEndpoint(cs: seq<Candidate>): Option<Endpoint> {
    match FirstPreferred(WithEndpoint(cs)) case Some(c) => c.endpoint case None => None
  }

  function ObservedOwner(cs: seq<Candidate>): Option<string> {
    match FirstPreferred(WithOwner(cs)) case Some(c) => c.owner case None => None
  }

  function RuntimeOf(cs: seq<Candidate>): seq<Candidate> {
    if cs == [] then [] else (if cs[0].source == "runtime" then [cs[0]] else []) + RuntimeOf(cs[1..])
  }

  /** Telemetry decides how fresh an entity is, where there is any. */
  function LastActivity(cs: seq<Candidate>): int
    requires cs != []
  {
    if RuntimeOf(cs) != [] then MaxAt(RuntimeOf(cs)) else MaxAt(cs)
  }

  predicate IsActive(cs: seq<Candidate>, settings: Settings, now: int)
    requires cs != []
  {
    var age := now - LastActivity(cs);
    (if age < 0 then 0 else age / SECOND) <= settings.window
  }

  /** The tools a candidate still vouches for inside the window. */
  function CurrentTools(c: Candidate, settings: Settings, now: int): set<string> {
    var cutoff := now - settings.window * SECOND;
    if c.at < cutoff then {}
    else if c.source == "runtime" then
      set e | e in c.evidence && cutoff <= e.at <= now + TOLERANCE && e.kind == "tool_call" && e.value != "" :: e.value
    else c.tools
  }

  function InWindow(evidence: seq<Evidence>, settings: Settings, now: int): seq<Evidence> {
    if evidence == [] then []
    else
      var init, last := InWindow(evidence[..|evidence| - 1], settings, now), evidence[|evidence| - 1];
      if now - settings.window * SECOND <= last.at <= now + TOLERANCE then init + [last] else init
  }

  /** What is left of the candidate inside the window, for reading its capabilities. */
  function Current(c: Candidate, settings: Settings, now: int): Candidate {
    c.(evidence := InWindow(c.evidence, settings, now),
       skills := if c.at < now - settings.window * SECOND then {} else c.skills,
       tools := CurrentTools(c, settings, now))
  }

  function CurrentOnes(cs: seq<Candidate>, settings: Settings, now: int): (current: seq<Candidate>)
    ensures |current| == |cs|
    ensures forall i :: 0 <= i < |cs| ==> current[i] == Current(cs[i], settings, now)
  {
    seq(|cs|, i requires 0 <= i < |cs| => Current(cs[i], settings, now))
  }

  function CurrentProtocols(c: Candidate, settings: Settings, now: int): set<string> {
    if c.at < now - settings.window * SECOND then {} else c.protocols
  }

  function ToolsOf(c: Candidate, retained: bool, settings: Settings, now: int): set<string> {
    if retained then c.tools else CurrentTools(c, settings, now)
  }

  function ProtocolsOf(c: Candidate, retained: bool, settings: Settings, now: int): set<string> {
    if retained then c.protocols else CurrentProtocols(c, settings, now)
  }

  function ProjectedTools(cs: seq<Candidate>, retained: bool, settings: Settings, now: int): set<string> {
    set c, tool | c in cs && tool in ToolsOf(c, retained, settings, now) :: tool
  }

  function ProjectedProtocols(cs: seq<Candidate>, retained: bool, settings: Settings, now: int): set<string> {
    set c, protocol | c in cs && protocol in ProtocolsOf(c, retained, settings, now) :: protocol
  }

  function ModelsOf(cs: seq<Candidate>, evidence: seq<Evidence>): set<string> {
    (set c | c in cs && c.model != "" :: c.model)
    + (set e | e in evidence && e.kind == "llm_call" && e.value != "" :: e.value)
  }

  predicate SameEndpoint(prior: Option<Record>, endpoint: Option<Endpoint>) {
    prior.Some? && prior.value.endpoint == endpoint
  }

  /** Health carried over only for an unchanged endpoint, then aged by probe time and activity. */
  function ProjectedHealth(prior: Option<Record>, endpoint: Option<Endpoint>, active: bool, settings: Settings, now: int): Health {
    var kept := if SameEndpoint(prior, endpoint) then prior.value.health else Unknown;
    var checkedAt := if SameEndpoint(prior, endpoint) then prior.value.checkedAt else None;
    var aged := if checkedAt.Some? && now - checkedAt.value > settings.healthTtl * SECOND then Stale else kept;
    if !active then Stale else if aged == Stale then Unknown else aged
  }

  function Project(cs: seq<Candidate>, prior: Option<Record>, registered: bool, settings: Settings, now: int): Record
    requires cs != []
  {
    var evidence := MergedEvidence(cs);
    var verdict := Classify(evidence, cs);
    var endpoint := ObservedEndpoint(cs);
    var active := IsActive(cs, settings, now);
    var retained := !active && (verdict.isAgent || verdict.entityType == "mcp_server");
    var registered' := registered || (prior.Some? && prior.value.registered);
    Record(
      endpoint := endpoint,
      owner := ObservedOwner(cs),
      deployment := ConsensusText(set c | c in cs :: c.deployment),
      capabilities := Capabilities.Infer(if !active && verdict.isAgent then cs else CurrentOnes(cs, settings, now)),
      tools := ProjectedTools(cs, retained, settings, now),
      protocols := ProjectedProtocols(cs, retained, settings, now),
      models := ModelsOf(cs, evidence),
      mcpServers := set e | e in evidence && e.kind == "mcp_connection" && e.value != "" :: e.value,
      evidence := evidence,
      verdict := verdict,
      registered := registered',
      shadow := Shadow(registered', verdict.isAgent, evidence),
      trust := if SameEndpoint(prior, endpoint) then prior.value.trust else Unverified,
      health := ProjectedHealth(prior, endpoint, active, settings, now),
      checkedAt := if SameEndpoint(prior, endpoint) then prior.value.checkedAt else None,
      firstSeen := if prior.Some? && prior.value.firstSeen < MinAt(cs) then prior.value.firstSeen else MinAt(cs),
      lastSeen := MaxAt(cs),
      active := active)
  }

  // -------------------------------------------------------------------- derived tables

  /** The entities behind a service name: one means the name is resolved. */
  function ServiceTarget(service: string, rows: seq<Row>): Target {
    match Consensus(set r | r in rows && r.candidate.service == service :: r.agent)
    case Some(agent) => KnownAgent(agent)
    case None => UnresolvedService(service)
  }

  predicate IsCall(e: Evidence) {
    (e.kind == "delegation" || e.kind == "agent_call") && e.value != ""
  }

  function CallEdge(e: Evidence, rows: seq<Row>): Edge {
    var target := ServiceTarget(e.value, rows);
    if e.kind == "delegation" then DelegatesTo(target) else DependsOn(target)
  }

  /** The first call to a target is its edge's proof; later ones are dropped as used. */
  function CallEdges(evidence: seq<Evidence>, rows: seq<Row>): Edges {
    if evidence == [] then map[]
    else
      var found := CallEdges(evidence[..|evidence| - 1], rows);
      var e := evidence[|evidence| - 1];
      if IsCall(e) && CallEdge(e, rows) !in found then found[CallEdge(e, rows) := [e]] else found
  }

  function ProofOfTool(evidence: seq<Evidence>, tool: string): seq<Evidence> {
    if evidence == [] then []
    else (if evidence[0].value == tool then [evidence[0]] else []) + ProofOfTool(evidence[1..], tool)
  }

  function ToolEdges(tools: set<string>, evidence: seq<Evidence>): Edges {
    map edge | edge in (set tool | tool in tools :: UsesTool(tool)) :: ProofOfTool(evidence, edge.tool)
  }

  /** Of several bases for one name the first one listed is the edge's proof. */
  function ProofOfCapability(found: Capabilities.Found, name: string): seq<Evidence> {
    var declared := Capabilities.Capability(name, Capabilities.Declared);
    var inferred := Capabilities.Capability(name, Capabilities.Inferred);
    var observed := Capabilities.Capability(name, Capabilities.Observed);
    if declared in found then found[declared].proof
    else if inferred in found then found[inferred].proof
    else if observed in found then found[observed].proof
    else []
  }

  function CapabilityNames(found: Capabilities.Found): set<string> {
    set c | c in found :: c.name
  }

  function CapabilityEdges(names: set<string>, found: Capabilities.Found): Edges {
    map edge | edge in (set name | name in names :: HasCapability(name)) :: ProofOfCapability(found, edge.name)
  }

  function PlainEdgeSet(record: Record): set<Edge> {
    (if record.endpoint.Some? then {Exposes(record.endpoint.value)} else {})
    + (if record.owner.Some? && record.owner.value != "" then {OwnedBy(record.owner.value)} else {})
    + (if record.deployment != "" then {ObservedAt(record.deployment)} else {})
    + (set model | model in record.models :: UsesModel(model))
    + (set server | server in record.mcpServers :: UsesMcp(server))
  }

  function PlainEdges(record: Record): Edges {
    map edge | edge in PlainEdgeSet(record) :: []
  }

  /** The simple definition of an entity's edges, from its record and all observations. */
  function EdgesOf(record: Record, rows: seq<Row>): Edges {
    ToolEdges(record.tools, record.evidence) + CapabilityEdges(CapabilityNames(record.capabilities), record.capabilities)
    + PlainEdges(record) + CallEdges(record.evidence, rows)
  }

  function AllEdges(entities: map<Id, Record>, rows: seq<Row>): map<Id, Edges> {
    map id | id in entities :: EdgesOf(entities[id], rows)
  }

  function AlertOf(record: Record): Alert {
    Alert(record.verdict.confidence, record.evidence, record.capabilities, record.firstSeen, record.lastSeen)
  }

  /** The simple definition of the alert table: the unregistered agents. */
  function AllAlerts(entities: map<Id, Record>): map<Id, Alert> {
    map id | id in entities && !entities[id].registered && entities[id].verdict.isAgent :: AlertOf(entities[id])
  }

  function SetAlert(alerts: map<Id, Alert>, id: Id, record: Record): map<Id, Alert> {
    if record.shadow then alerts[id := AlertOf(record)] else alerts - {id}
  }

  // ------------------------------------------------------------------------ operations

  datatype Outcome = Committed(db: Db) | RolledBack

  /** An older snapshot of a known source key never replaces a newer one. */
  function Newest(rows: seq<Row>, c: Candidate): Candidate {
    match PreviousRow(rows, c)
    case Some(row) => if row.candidate.at > c.at then row.candidate else c
    case None => c
  }

  predicate Upsertable(rows: seq<Row>, c: Candidate, now: int) {
    && c.at <= now + TOLERANCE
    && (PreviousRow(rows, c).Some? ==> Resolve(Newest(rows, c), rows) == Some(PreviousRow(rows, c).value.agent))
  }

  function Home(db: Db, c: Candidate): Id {
    match Resolve(Newest(db.rows, c), db.rows) case Some(agent) => agent case None => db.nextId
  }

  function Lookup(entities: map<Id, Record>, id: Id): Option<Record> {
    if id in entities then Some(entities[id]) else None
  }

  function RowsAfter(db: Db, c: Candidate): seq<Row> {
    OtherRows(db.rows, c) + [Row(Home(db, c), Newest(db.rows, c))]
  }

  lemma {:induction false} CandidatesOfAppend(rows: seq<Row>, more: seq<Row>, agent: Id)
    ensures CandidatesOf(rows + more, agent) == CandidatesOf(rows, agent) + CandidatesOf(more, agent)
  {
    if rows == [] {
      assert rows + more == more;
    } else {
      var first := if rows[0].agent == agent then [rows[0].candidate] else [];
      var rest, tail := CandidatesOf(rows[1..], agent), CandidatesOf(more, agent);
      assert (rows + more)[0] == rows[0] && (rows + more)[1..] == rows[1..] + more;
      CandidatesOfAppend(rows[1..], more, agent);
      assert CandidatesOf(rows + more, agent) == first + (rest + tail);
      assert first + (rest + tail) == (first + rest) + tail;
    }
  }

  function RecordAfter(db: Db, c: Candidate, registered: bool, settings: Settings, now: int): Record {
    var home := Home(db, c);
    var own := CandidatesOf(OtherRows(db.rows, c), home) + [Newest(db.rows, c)];
    Project(own, Lookup(db.entities, home), registered, settings, now)
  }

  function Upsert(db: Db, c: Candidate, registered: bool, settings: Settings, now: int): Outcome {
    if !Upsertable(db.rows, c, now) then RolledBack
    else
      var home, record, rows := Home(db, c), RecordAfter(db, c, registered, settings, now), RowsAfter(db, c);
      Committed(db.(
        entities := db.entities[home := record],
        rows := rows,
        edges := db.edges[home := EdgesOf(record, rows)],
        alerts := SetAlert(db.alerts, home, record),
        nextId := if home == db.nextId then db.nextId + 1 else db.nextId))
  }

  /** Upserts inside one transaction: the first refusal rolls everything back. */
  function UpsertAll(db: Db, cs: seq<Candidate>, settings: Settings, now: int): Outcome {
    if cs == [] then Committed(db)
    else
      match UpsertAll(db, cs[..|cs| - 1], settings, now)
      case RolledBack => RolledBack
      case Committed(sofar) => Upsert(sofar, cs[|cs| - 1], false, settings, now)
  }

  /** Upserts each in a transaction of its own: a refused candidate is reported and skipped. */
  function UpsertEach(db: Db, cs: seq<Candidate>, settings: Settings, now: int): Db {
    if cs == [] then db
    else
      var sofar := UpsertEach(db, cs[..|cs| - 1], settings, now);
      match Upsert(sofar, cs[|cs| - 1], false, settings, now)
      case RolledBack => sofar
      case Committed(next) => next
  }

  function Regraph(db: Db): Db {
    db.(edges := AllEdges(db.entities, db.rows))
  }

  function Discover(db: Db, cs: seq<Candidate>, settings: Settings, now: int): Db {
    Regraph(UpsertEach(db, cs, settings, now))
  }

  function AddEvents(events: seq<Event>, batch: seq<Event>): seq<Event> {
    if batch == [] then events
    else
      var sofar, e := AddEvents(events, batch[..|batch| - 1]), batch[|batch| - 1];
      if exists known :: known in sofar && known.id == e.id then sofar else sofar + [e]
  }

  function Retain(events: seq<Event>, cutoff: int): seq<Event> {
    if events == [] then []
    else (if events[0].at < cutoff then [] else [events[0]]) + Retain(events[1..], cutoff)
  }

  predicate AllInWindow(batch: seq<Event>, settings: Settings, now: int) {
    forall e :: e in batch ==> now - settings.window * SECOND <= e.at <= now + TOLERANCE
  }

  function EventsAfter(db: Db, batch: seq<Event>, settings: Settings, now: int): seq<Event> {
    Retain(AddEvents(db.events, batch), now - settings.window * SECOND)
  }

  /** The candidates in the order the source visits them: any listing of the groups. */
  predicate Lists(order: seq<Group>, all: map<Group, Candidate>) {
    && (set g | g in order) == all.Keys
    && (forall i, j :: 0 <= i < j < |order| ==> order[i] != order[j])
  }

  function Listed(order: seq<Group>, all: map<Group, Candidate>): (cs: seq<Candidate>)
    requires forall g :: g in order ==> g in all
    ensures |cs| == |order| && forall i :: 0 <= i < |order| ==> cs[i] == all[order[i]]
  {
    if order == [] then [] else
      assert order[|order| - 1] in order;
      Listed(order[..|order| - 1], all) + [all[order[|order| - 1]]]
  }

  function Ingest(db: Db, batch: seq<Event>, order: seq<Group>, settings: Settings, now: int): Outcome
  {
    if !AllInWindow(batch, settings, now) then RolledBack
    else
      var retained := EventsAfter(db, batch, settings, now);
      match RuntimeCandidates(retained)
      case None => RolledBack
      case Some(all) =>
        if !Lists(order, all) then RolledBack
        else
          match UpsertAll(db.(events := retained), Listed(order, all), settings, now)
          case RolledBack => RolledBack
          case Committed(next) => Committed(Regraph(next))
  }

  /** `probe` is None for a refresh without probing, else the entities that answer. */
  function RefreshedRecord(db: Db, id: Id, probe: Option<set<Id>>, settings: Settings, now: int): Record
    requires id in db.entities && CandidatesOf(db.rows, id) != []
  {
    var record := Project(CandidatesOf(db.rows, id), Some(db.entities[id]), false, settings, now);
    if probe.Some? && record.endpoint.Some? && record.trust == Approved
    then record.(health := if id in probe.value then Healthy else Unhealthy, checkedAt := Some(now))
    else record
  }

  ghost predicate NoOrphans(db: Db) {
    forall id :: id in db.entities ==> CandidatesOf(db.rows, id) != []
  }

  /** What setting the alert of every entity leaves: an alert for each shadow record. */
  function ShadowAlerts(entities: map<Id, Record>): map<Id, Alert> {
    map id | id in entities && entities[id].shadow :: AlertOf(entities[id])
  }

  ghost function Refresh(db: Db, probe: Option<set<Id>>, settings: Settings, now: int): Db
    requires NoOrphans(db)
  {
    var entities := map id | id in db.entities :: RefreshedRecord(db, id, probe, settings, now);
    db.(entities := entities, edges := AllEdges(entities, db.rows), alerts := ShadowAlerts(entities))
  }

  const LOCAL := "local://"

  /** As `rstrip("/")`. */
  function TrimSlashes(s: string): (name: string)
    ensures name <= s && (name != "" ==> name[|name| - 1] != '/') && forall i :: |name| <= i < |s| ==> s[i] == '/'
    decreases |s|
  {
    if s != "" && s[|s| - 1] == '/' then TrimSlashes(s[..|s| - 1]) else s
  }

  /** What a scan calls the entity at a local endpoint: healthy if a handler of its name is installed. */
  function LocallyProbed(record: Record, handlers: set<string>, now: int): Record {
    if record.endpoint.Some? && LOCAL <= record.endpoint.value.text && record.trust == Approved
    then record.(health := if TrimSlashes(record.endpoint.value.text[|LOCAL|..]) in handlers then Healthy else Unhealthy, checkedAt := Some(now))
    else record
  }

  /** The scan's own writes, after its discovery and its refresh: the approved local entities. */
  function ProbeLocals(db: Db, handlers: set<string>, now: int): Db {
    db.(entities := map id | id in db.entities :: LocallyProbed(db.entities[id], handlers, now))
  }

  function RowsNotOf(rows: seq<Row>, agent: Id): seq<Row> {
    if rows == [] then []
    else (if rows[0].agent == agent then [] else [rows[0]]) + RowsNotOf(rows[1..], agent)
  }

  /** Deleting an entity cascades to its observations, edges and alert. */
  function Delete(db: Db, id: Id): Db {
    db.(entities := db.entities - {id}, rows := RowsNotOf(db.rows, id), edges := db.edges - {id}, alerts := db.alerts - {id})
  }

  /** The operator's trust decision: approval needs an observed endpoint that passes validation. */
  function SetTrust(db: Db, id: Id, trust: Trust, endpointAllowed: bool): Outcome {
    if id !in db.entities then RolledBack
    else if trust == Approved && (db.entities[id].endpoint.None? || !endpointAllowed) then RolledBack
    else Committed(db.(entities := db.entities[id := db.entities[id].(trust := trust)]))
  }
}
