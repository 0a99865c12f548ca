/**
  The Census store and the service over it, as the source runs them: tables changed in place,
  loops over candidates, events and entities, and a transaction that is undone on refusal.
  Each method is tied to the registry's function of the tables before it.
 */
module CensusService {
  import opened EvidenceMerge
  import opened Options
  import opened CensusModel
  import opened Classification
  import opened RuntimeGrouping
  import opened Registry
  import opened RegistryInvariants
  import Capabilities

  /** Any order that visits every workload once; the source sorts by the key's text. */
  method VisitOrder(all: map<Group, Candidate>) returns (order: seq<Group>)
    ensures Lists(order, all)
  {
    order := [];
    var todo := all.Keys;
    while todo != {}
      invariant todo <= all.Keys && (set g | g in order) == all.Keys - todo
      invariant forall i, j :: 0 <= i < j < |order| ==> order[i] != order[j]
      decreases todo
    {
      var g :| g in todo;
      assert g !in order by {
        assert g !in (set h | h in order);
      }
      assert (set h | h in order + [g]) == (set h | h in order) + {g};
      order := order + [g];
      todo := todo - {g};
    }
  }

  /** The relations of one record: tools, capabilities, plain relations, calls, each edge once. */
  method BuildEdges(record: Record, rows: seq<Row>) returns (used: Edges)
    ensures used == EdgesOf(record, rows)
  {
    hide ProofOfTool, ProofOfCapability, CapabilityNames, CallEdges;
    used := BuildToolEdges(record.tools, record.evidence);
    var capabilities := BuildCapabilityEdges(record.capabilities);
    used := used + capabilities + PlainEdges(record);
    used := AddCallEdges(used, record.evidence, rows);
  }

  method BuildToolEdges(tools: set<string>, evidence: seq<Evidence>) returns (used: Edges)
    ensures used == ToolEdges(tools, evidence)
  {
    used := map[];
    var todo := tools;
    while todo != {}
      invariant todo <= tools && used == ToolEdges(tools - todo, evidence)
      decreases todo
    {
      var tool :| tool in todo;
      AddToolEdge(tools - todo, tool, evidence);
      assert tools - (todo - {tool}) == tools - todo + {tool};
      used := used[UsesTool(tool) := ProofOfTool(evidence, tool)];
      todo := todo - {tool};
    }
    assert tools - todo == tools;
  }

  method BuildCapabilityEdges(found: Capabilities.Found) returns (used: Edges)
    ensures used == CapabilityEdges(CapabilityNames(found), found)
  {
    hide ProofOfCapability;
    used := map[];
    var todo := CapabilityNames(found);
    while todo != {}
      invariant todo <= CapabilityNames(found) && used == CapabilityEdges(CapabilityNames(found) - todo, found)
      decreases todo
    {
      var name :| name in todo;
      AddCapabilityEdge(CapabilityNames(found) - todo, name, found);
      assert CapabilityNames(found) - (todo - {name}) == CapabilityNames(found) - todo + {name};
      used := used[HasCapability(name) := ProofOfCapability(found, name)];
      todo := todo - {name};
    }
    assert CapabilityNames(found) - todo == CapabilityNames(found);
  }

  /** The loop over evidence: a call to a target already used is skipped. */
  method AddCallEdges(declared: Edges, evidence: seq<Evidence>, rows: seq<Row>) returns (used: Edges)
    requires forall edge :: edge in declared ==> !edge.DelegatesTo? && !edge.DependsOn?
    ensures used == declared + CallEdges(evidence, rows)
  {
    used := declared;
    for i := 0 to |evidence|
      invariant used == declared + CallEdges(evidence[..i], rows)
    {
      var e := evidence[i];
      assert evidence[..i + 1][..i] == evidence[..i] && evidence[..i + 1][i] == e;
      if IsCall(e) {
        var edge := CallEdge(e, rows);
        if edge !in used {
          used := used[edge := [e]];
        }
      }
    }
    assert evidence[..|evidence|] == evidence;
  }

  lemma {:induction false} AddToolEdge(tools: set<string>, tool: string, evidence: seq<Evidence>)
    ensures ToolEdges(tools + {tool}, evidence) == ToolEdges(tools, evidence)[UsesTool(tool) := ProofOfTool(evidence, tool)]
  {
    assert (set t | t in tools + {tool} :: UsesTool(t)) == (set t | t in tools :: UsesTool(t)) + {UsesTool(tool)};
  }

  lemma AddCapabilityEdge(names: set<string>, name: string, found: Capabilities.Found)
    ensures CapabilityEdges(names + {name}, found) == CapabilityEdges(names, found)[HasCapability(name) := ProofOfCapability(found, name)]
  {
    assert (set n | n in names + {name} :: HasCapability(n)) == (set n | n in names :: HasCapability(n)) + {HasCapability(name)};
  }

  class Census {
    var entities: map<Id, Record>
    var rows: seq<Row>
    var edges: map<Id, Edges>
    var alerts: map<Id, Alert>
    var events: seq<Event>
    var nextId: Id
    const settings: Settings

    function Tables(): Db
      reads this
    {
      Db(entities, rows, edges, alerts, events, nextId)
    }

    ghost predicate Valid()
      reads this
    {
      Inv(Tables())
    }

    constructor (settings: Settings)
      ensures Valid() && Tables() == EMPTY && this.settings == settings
    {
      this.settings := settings;
      entities, rows, edges, alerts, events, nextId := map[], [], map[], map[], [], 0;
      new;
      EmptyRegistryIsSound();
    }

    /** Leaving a transaction by an exception puts every table back. */
    method Rollback(to: Db)
      modifies this
      ensures Tables() == to
    {
      entities, rows, edges, alerts, events, nextId := to.entities, to.rows, to.edges, to.alerts, to.events, to.nextId;
    }

    method PutObservation(agent: Id, c: Candidate)
      modifies this`rows
      ensures rows == OtherRows(old(rows), c) + [Row(agent, c)]
    {
      var kept: seq<Row> := [];
      for i := 0 to |rows|
        invariant rows == old(rows)
        invariant kept == OtherRows(rows[..i], c)
      {
        assert rows[..i + 1] == rows[..i] + [rows[i]];
        OtherRowsAppend(rows[..i], rows[i], c);
        if !SameKey(rows[i].candidate, c) {
          kept := kept + [rows[i]];
        }
      }
      assert rows[..|rows|] == rows;
      rows := kept + [Row(agent, c)];
    }

    method UpdateGraph(id: Id, record: Record)
      modifies this`edges
      ensures edges == old(edges)[id := EdgesOf(record, rows)]
    {
      edges := edges - {id};
      var used := BuildEdges(record, rows);
      edges := edges[id := used];
    }

    method PutAlert(id: Id, record: Record)
      modifies this`alerts
      ensures alerts == SetAlert(old(alerts), id, record)
    {
      alerts := alerts - {id};
      if record.shadow {
        alerts := alerts[id := AlertOf(record)];
      }
    }

    method AddEvent(e: Event) returns (accepted: bool)
      modifies this`events
      ensures accepted <==> !(exists known :: known in old(events) && known.id == e.id)
      ensures events == AddEvents(old(events), [e]) == if accepted then old(events) + [e] else old(events)
    {
      assert [e][..0] == [] && AddEvents(events, []) == events;
      accepted := !(exists known :: known in events && known.id == e.id);
      if accepted {
        events := events + [e];
      }
    }

    /** One observation: kept, resolved, projected, stored; `ok` is false where the source raises. */
    method Upsert(candidate: Candidate, registered: bool, now: int) returns (ok: bool)
      requires Valid()
      modifies this
      ensures Valid()
      ensures ok <==> Registry.Upsert(old(Tables()), candidate, registered, settings, now).Committed?
      ensures Tables() == Settle(old(Tables()), Registry.Upsert(old(Tables()), candidate, registered, settings, now))
    {
      hide Inv, Project, EdgesOf, SetAlert, OtherRows, CandidatesOf, Resolve, KeysDistinct, RowsAfter, RecordAfter, Progress, ApprovalsKept, Registry.Upsert, PreviousRow;
      ghost var before := Tables();
      UpsertRefuses(before, candidate, registered, settings, now);
      if candidate.at > now + TOLERANCE {
        return false;
      }
      var c := candidate;
      var previous := PreviousRow(rows, candidate);
      PreviousRowHolds(rows, candidate);
      if previous.Some? && previous.value.candidate.at > candidate.at {
        c := previous.value.candidate;
      }
      var canonical := Resolve(c, rows);
      if previous.Some? && canonical != Some(previous.value.agent) {
        return false;
      }
      var home := match canonical case Some(agent) => agent case None => nextId;
      if home == nextId {
        nextId := nextId + 1;
      }
      var own := CandidatesOf(OtherRows(rows, c), home) + [c];
      var record := Project(own, Lookup(entities, home), registered, settings, now);
      UpsertUnfolds(before, candidate, registered, settings, now);
      entities := entities[home := record];
      PutObservation(home, c);
      UpdateGraph(home, record);
      PutAlert(home, record);
      ok := true;
      UpsertKeeps(before, Tables(), candidate, registered, settings, now);
    }

    /** Discovery: each candidate in its own transaction, then every entity's edges again. */
    method Discover(candidates: seq<Candidate>, now: int)
      requires Valid()
      modifies this
      ensures Valid()
      ensures Tables() == Registry.Discover(old(Tables()), candidates, settings, now)
    {
      for i := 0 to |candidates|
        invariant Valid()
        invariant Tables() == UpsertEach(old(Tables()), candidates[..i], settings, now)
      {
        assert candidates[..i + 1][..i] == candidates[..i];
        var ok := Upsert(candidates[i], false, now);
      }
      assert candidates[..|candidates|] == candidates;
      UpdateGraphs();
    }

    method UpdateGraphs()
      requires Valid()
      modifies this`edges
      ensures Valid() && Tables() == Regraph(old(Tables()))
    {
      StandingStillKeeps(Tables());
      hide Inv, EdgesOf, Progress, ApprovalsKept;
      RegraphKeeps(Tables(), Tables());
      InvKeepsEdgeKeys(Tables());
      var todo := entities.Keys;
      while todo != {}
        invariant todo <= entities.Keys && edges.Keys == entities.Keys
        invariant forall id :: id in entities && id !in todo ==> edges[id] == EdgesOf(entities[id], rows)
        decreases todo
      {
        var id :| id in todo;
        UpdateGraph(id, entities[id]);
        todo := todo - {id};
      }
      assert edges == AllEdges(entities, rows);
    }

    /** Ingestion: events in, expired events out, one upsert a workload, all in one transaction. */
    method Ingest(batch: seq<Event>, now: int) returns (ok: bool, order: seq<Group>)
      requires Valid()
      modifies this
      ensures Valid()
      ensures RuntimeCandidates(EventsAfter(old(Tables()), batch, settings, now)).Some? ==>
                AllInWindow(batch, settings, now) ==> Lists(order, RuntimeCandidates(EventsAfter(old(Tables()), batch, settings, now)).value)
      ensures ok <==> Registry.Ingest(old(Tables()), batch, order, settings, now).Committed?
      ensures Tables() == Settle(old(Tables()), Registry.Ingest(old(Tables()), batch, order, settings, now))
    {
      hide Inv, UpsertAll, RuntimeCandidates, EventsAfter, Regraph;
      order := [];
      if exists e :: e in batch && !(now - settings.window * SECOND <= e.at <= now + TOLERANCE) {
        return false, order;
      }
      var before := Tables();
      StoreEvents(batch, now);
      var candidates := GroupRuntimeEvents(events);
      if candidates.None? {
        Rollback(before);
        return false, order;
      }
      order := VisitOrder(candidates.value);
      ListsOnlyGroups(order, candidates.value);
      ok := UpsertInTurn(Listed(order, candidates.value), before, now);
      if ok {
        UpdateGraphs();
      }
    }

    method StoreEvents(batch: seq<Event>, now: int)
      requires Valid()
      modifies this`events
      ensures Valid() && events == EventsAfter(old(Tables()), batch, settings, now)
    {
      assert AddEvents(events, batch[..0]) == events;
      hide AddEvents, Inv, Retain, DistinctIds;
      for i := 0 to |batch|
        invariant events == AddEvents(old(events), batch[..i])
      {
        OneMoreStored(old(events), batch, i);
        var accepted := AddEvent(batch[i]);
      }
      assert batch[..|batch|] == batch;
      events := Retain(events, now - settings.window * SECOND);
      StoredIdsStayDistinct(old(Tables()), batch, settings, now);
      EventsStandApart(old(Tables()), events, Tables());
    }

    /** The candidates of a batch, one after the other; the first refusal puts everything back. */
    method UpsertInTurn(candidates: seq<Candidate>, before: Db, now: int) returns (ok: bool)
      requires Valid() && Inv(before)
      modifies this
      ensures Valid()
      ensures ok <==> UpsertAll(old(Tables()), candidates, settings, now).Committed?
      ensures ok ==> Tables() == UpsertAll(old(Tables()), candidates, settings, now).db
      ensures !ok ==> Tables() == before
    {
      hide Inv, Registry.Upsert, UpsertAll;
      ghost var start := Tables();
      NoneUpserted(start, candidates, settings, now);
      for i := 0 to |candidates|
        invariant Valid()
        invariant UpsertAll(start, candidates[..i], settings, now) == Committed(Tables())
      {
        OneMoreUpserted(start, candidates, i, settings, now);
        var fine := Upsert(candidates[i], false, now);
        if !fine {
          RefusalStays(start, candidates, i + 1, settings, now);
          Rollback(before);
          return false;
        }
      }
      assert candidates[..|candidates|] == candidates;
      ok := true;
    }

    /** One round of the refresh loop: project anew, probe if approved, store. */
    method RefreshEntity(ghost before: Db, ghost todo: set<Id>, id: Id, probe: Option<set<Id>>, now: int)
      requires NoOrphans(before) && Refreshing(before, probe, settings, now, todo, Tables()) && id in todo && id in entities
      modifies this
      ensures Refreshing(before, probe, settings, now, todo - {id}, Tables())
      ensures entities.Keys == old(entities).Keys
    {
      hide Project, EdgesOf, SetAlert, CandidatesOf, RefreshedRecord, NoOrphans, Refreshing;
      ghost var sofar := Tables();
      RefreshReads(before, probe, settings, now, todo, sofar, id);
      RefreshedRecordUnfolds(before, id, probe, settings, now);
      var record := Project(CandidatesOf(rows, id), Some(entities[id]), false, settings, now);
      if probe.Some? && record.endpoint.Some? && record.trust == Approved {
        record := record.(health := if id in probe.value then Healthy else Unhealthy, checkedAt := Some(now));
      }
      entities := entities[id := record];
      PutAlert(id, record);
      UpdateGraph(id, record);
      RefreshProceeds(before, probe, settings, now, todo, sofar, id);
    }

    /** The refresh loop; `probe` holds the entities that answer, if there is a probe. */
    method Refresh(probe: Option<set<Id>>, now: int)
      requires Valid()
      modifies this
      ensures Valid()
      ensures NoOrphans(old(Tables())) && Tables() == Registry.Refresh(old(Tables()), probe, settings, now)
    {
      ghost var before := Tables();
      RefreshKeeps(before, probe, settings, now);
      InvKeepsEdgeKeys(before);
      hide Inv, Progress, ApprovalsKept, Registry.Refresh, NoOrphans, Refreshing, Project, SetAlert, EdgesOf, RefreshedRecord, CandidatesOf;
      RefreshStarts(before, probe, settings, now);
      var todo := entities.Keys;
      while todo != {}
        invariant todo <= entities.Keys
        invariant Refreshing(before, probe, settings, now, todo, Tables())
        decreases todo
      {
        var id :| id in todo;
        RefreshEntity(before, todo, id, probe, now);
        todo := todo - {id};
      }
      RefreshUnfolds(before, probe, settings, now, Tables());
    }

    /** One round of the scan's loop: an approved local entity is told from the installed handlers. */
    method ProbeLocal(id: Id, handlers: set<string>, now: int)
      requires id in entities
      modifies this
      ensures Tables() == old(Tables()).(entities := old(entities)[id := LocallyProbed(old(entities)[id], handlers, now)])
    {
      var record := entities[id];
      LocallyProbedUnfolds(record, handlers, now);
      hide LocallyProbed, TrimSlashes;
      if record.endpoint.Some? && LOCAL <= record.endpoint.value.text && record.trust == Approved {
        var health := if TrimSlashes(record.endpoint.value.text[|LOCAL|..]) in handlers then Healthy else Unhealthy;
        record := record.(health := health, checkedAt := Some(now));
      }
      entities := entities[id := record];
    }

    /** The scan's loop over the stored records, after its refresh; `handlers` are the installed local ones. */
    method ProbeLocals(handlers: set<string>, now: int)
      requires Valid()
      modifies this
      ensures Valid() && Tables() == Registry.ProbeLocals(old(Tables()), handlers, now)
    {
      ghost var before := Tables();
      ProbeLocalsKeeps(before, handlers, now);
      hide Inv, Progress, ApprovalsKept, LocallyProbed, Registry.ProbeLocals, Probing;
      ProbingStarts(before, handlers, now);
      var todo := entities.Keys;
      while todo != {}
        invariant Probing(before, handlers, now, todo, Tables())
        decreases todo
      {
        var id :| id in todo;
        ProbingProceeds(before, handlers, now, todo, Tables(), id);
        ProbeLocal(id, handlers, now);
        todo := todo - {id};
      }
      ProbingEnds(before, handlers, now, Tables());
    }

    method DeleteEntity(id: Id) returns (found: bool)
      requires Valid()
      modifies this
      ensures Valid() && Tables() == Delete(old(Tables()), id)
      ensures found <==> id in old(entities)
    {
      DeleteKeeps(Tables(), id);
      found := id in entities;
      entities, rows, edges, alerts := entities - {id}, RowsNotOf(rows, id), edges - {id}, alerts - {id};
    }
  }

  lemma LocallyProbedUnfolds(record: Record, handlers: set<string>, now: int)
    ensures LocallyProbed(record, handlers, now) ==
            if record.endpoint.Some? && LOCAL <= record.endpoint.value.text && record.trust == Approved
            then record.(health := if TrimSlashes(record.endpoint.value.text[|LOCAL|..]) in handlers then Healthy else Unhealthy, checkedAt := Some(now))
            else record
  {
    hide TrimSlashes;
  }

  /** The entities in `todo` still await their round; the others have had it. */
  ghost predicate Probing(db: Db, handlers: set<string>, now: int, todo: set<Id>, sofar: Db) {
    && sofar == db.(entities := sofar.entities) && sofar.entities.Keys == db.entities.Keys && todo <= db.entities.Keys
    && (forall id :: id in db.entities ==>
          sofar.entities[id] == if id in todo then db.entities[id] else LocallyProbed(db.entities[id], handlers, now))
  }

  lemma ProbingStarts(db: Db, handlers: set<string>, now: int)
    ensures Probing(db, handlers, now, db.entities.Keys, db)
  {
    hide LocallyProbed;
  }

  lemma ProbingProceeds(db: Db, handlers: set<string>, now: int, todo: set<Id>, sofar: Db, id: Id)
    requires Probing(db, handlers, now, todo, sofar) && id in todo
    ensures id in sofar.entities
    ensures Probing(db, handlers, now, todo - {id}, sofar.(entities := sofar.entities[id := LocallyProbed(sofar.entities[id], handlers, now)]))
  {
    hide LocallyProbed;
  }

  lemma ProbingEnds(db: Db, handlers: set<string>, now: int, sofar: Db)
    requires Probing(db, handlers, now, {}, sofar)
    ensures sofar == Registry.ProbeLocals(db, handlers, now)
  {
    hide LocallyProbed;
  }

  lemma InvKeepsEdgeKeys(db: Db)
    requires Inv(db)
    ensures db.edges.Keys == db.entities.Keys && db.alerts.Keys <= db.entities.Keys
  {
    hide KeysDistinct, Coherent, Reflects;
  }

  /** The entity has had its round: record, edges and alert are the new ones. */
  ghost predicate HadItsRound(db: Db, probe: Option<set<Id>>, settings: Settings, now: int, sofar: Db, id: Id)
    requires id in db.entities && id in sofar.entities && id in sofar.edges
  {
    && CandidatesOf(db.rows, id) != []
    && sofar.entities[id] == RefreshedRecord(db, id, probe, settings, now)
    && sofar.edges[id] == EdgesOf(sofar.entities[id], db.rows)
    && (id in sofar.alerts <==> sofar.entities[id].shadow)
    && (id in sofar.alerts ==> sofar.alerts[id] == AlertOf(sofar.entities[id]))
  }

  /** What the refresh loop has while the entities in `todo` still wait for their round. */
  ghost predicate RefreshedSoFar(db: Db, probe: Option<set<Id>>, settings: Settings, now: int, todo: set<Id>, sofar: Db) {
    && sofar.rows == db.rows && sofar.events == db.events && sofar.nextId == db.nextId
    && sofar.entities.Keys == db.entities.Keys == sofar.edges.Keys && sofar.alerts.Keys <= sofar.entities.Keys
    && forall id :: id in sofar.entities && id !in todo ==> HadItsRound(db, probe, settings, now, sofar, id)
  }

  /** The state of the refresh loop: the waiting entities are as they were, the others have had their round. */
  ghost predicate Refreshing(db: Db, probe: Option<set<Id>>, settings: Settings, now: int, todo: set<Id>, sofar: Db) {
    && RefreshedSoFar(db, probe, settings, now, todo, sofar)
    && todo <= db.entities.Keys
    && forall id :: id in todo ==> sofar.entities[id] == db.entities[id]
  }

  lemma RefreshStarts(db: Db, probe: Option<set<Id>>, settings: Settings, now: int)
    requires db.edges.Keys == db.entities.Keys && db.alerts.Keys <= db.entities.Keys
    ensures Refreshing(db, probe, settings, now, db.entities.Keys, db)
  {
  }

  /** What a round reads is what was there before the loop. */
  lemma {:induction false} RefreshReads(db: Db, probe: Option<set<Id>>, settings: Settings, now: int, todo: set<Id>, sofar: Db, id: Id)
    requires NoOrphans(db) && Refreshing(db, probe, settings, now, todo, sofar) && id in todo
    ensures id in db.entities && id in sofar.entities && sofar.entities[id] == db.entities[id] && sofar.rows == db.rows
    ensures CandidatesOf(db.rows, id) != []
  {
    hide HadItsRound, CandidatesOf;
  }

  lemma {:induction false} RefreshProceeds(db: Db, probe: Option<set<Id>>, settings: Settings, now: int, todo: set<Id>, sofar: Db, id: Id)
    requires Refreshing(db, probe, settings, now, todo, sofar)
    requires id in todo && id in db.entities && CandidatesOf(db.rows, id) != []
    ensures var record := RefreshedRecord(db, id, probe, settings, now);
            var next := sofar.(entities := sofar.entities[id := record], alerts := SetAlert(sofar.alerts, id, record),
                               edges := sofar.edges[id := EdgesOf(record, sofar.rows)]);
            Refreshing(db, probe, settings, now, todo - {id}, next)
  {
    hide RefreshedRecord, EdgesOf, AlertOf, CandidatesOf, HadItsRound;
    var record := RefreshedRecord(db, id, probe, settings, now);
    var next := sofar.(entities := sofar.entities[id := record], alerts := SetAlert(sofar.alerts, id, record),
                       edges := sofar.edges[id := EdgesOf(record, sofar.rows)]);
    RoundOfOne(db, probe, settings, now, sofar, id);
    forall other | other in next.entities && other !in todo - {id} ensures HadItsRound(db, probe, settings, now, next, other) {
      if other != id {
        RoundOfAnother(db, probe, settings, now, sofar, next, other);
      }
    }
  }

  lemma {:induction false} RoundOfOne(db: Db, probe: Option<set<Id>>, settings: Settings, now: int, sofar: Db, id: Id)
    requires id in db.entities && CandidatesOf(db.rows, id) != [] && sofar.rows == db.rows
    ensures var record := RefreshedRecord(db, id, probe, settings, now);
            var next := sofar.(entities := sofar.entities[id := record], alerts := SetAlert(sofar.alerts, id, record),
                               edges := sofar.edges[id := EdgesOf(record, sofar.rows)]);
            HadItsRound(db, probe, settings, now, next, id)
  {
    hide RefreshedRecord, EdgesOf, AlertOf, CandidatesOf;
  }

  lemma RoundOfAnother(db: Db, probe: Option<set<Id>>, settings: Settings, now: int, sofar: Db, next: Db, other: Id)
    requires other in db.entities && other in sofar.entities && other in sofar.edges && other in next.entities && other in next.edges
    requires HadItsRound(db, probe, settings, now, sofar, other)
    requires next.entities[other] == sofar.entities[other] && next.edges[other] == sofar.edges[other]
    requires other in next.alerts <==> other in sofar.alerts
    requires other in next.alerts ==> next.alerts[other] == sofar.alerts[other]
    ensures HadItsRound(db, probe, settings, now, next, other)
  {
    hide RefreshedRecord, EdgesOf, AlertOf, CandidatesOf;
  }

  lemma {:induction false} RoundsAreTheSpec(db: Db, probe: Option<set<Id>>, settings: Settings, now: int, after: Db, id: Id)
    requires NoOrphans(db) && RefreshedSoFar(db, probe, settings, now, {}, after) && id in after.entities
    ensures id in after.edges && after.edges[id] == EdgesOf(after.entities[id], after.rows)
    ensures id in db.entities && CandidatesOf(db.rows, id) != [] && after.entities[id] == RefreshedRecord(db, id, probe, settings, now)
    ensures id in after.alerts <==> after.entities[id].shadow
    ensures id in after.alerts ==> after.alerts[id] == AlertOf(after.entities[id])
  {
    hide RefreshedRecord, EdgesOf, AlertOf, CandidatesOf, NoOrphans;
    assert HadItsRound(db, probe, settings, now, after, id);
  }

  lemma {:induction false} RoundsMakeTheTables(db: Db, probe: Option<set<Id>>, settings: Settings, now: int, after: Db)
    requires NoOrphans(db) && RefreshedSoFar(db, probe, settings, now, {}, after)
    ensures after.alerts == ShadowAlerts(after.entities) && after.edges == AllEdges(after.entities, after.rows)
  {
    hide RefreshedRecord, EdgesOf, AlertOf, CandidatesOf, HadItsRound, NoOrphans;
    forall id | id in after.entities
      ensures id in after.edges && after.edges[id] == EdgesOf(after.entities[id], after.rows)
      ensures id in after.alerts <==> after.entities[id].shadow
      ensures id in after.alerts ==> after.alerts[id] == AlertOf(after.entities[id])
    {
      RoundsAreTheSpec(db, probe, settings, now, after, id);
    }
  }

  lemma {:induction false} RoundsMakeTheEntities(db: Db, probe: Option<set<Id>>, settings: Settings, now: int, after: Db)
    requires NoOrphans(db) && RefreshedSoFar(db, probe, settings, now, {}, after)
    ensures after.entities == Refresh(db, probe, settings, now).entities
  {
    hide RefreshedRecord, AllEdges, ShadowAlerts, CandidatesOf, HadItsRound, NoOrphans;
    forall id | id in after.entities
      ensures id in db.entities && CandidatesOf(db.rows, id) != [] && after.entities[id] == RefreshedRecord(db, id, probe, settings, now)
    {
      RoundsAreTheSpec(db, probe, settings, now, after, id);
    }
  }

  /** When every entity has had its round the tables are what the registry's refresh says. */
  lemma {:induction false} RefreshUnfolds(db: Db, probe: Option<set<Id>>, settings: Settings, now: int, after: Db)
    requires NoOrphans(db) && Refreshing(db, probe, settings, now, {}, after)
    ensures after == Refresh(db, probe, settings, now)
  {
    RoundsMakeTheTables(db, probe, settings, now, after);
    RoundsMakeTheEntities(db, probe, settings, now, after);
    hide RefreshedRecord, AllEdges, ShadowAlerts, CandidatesOf, HadItsRound, NoOrphans;
  }

  lemma UpsertRefuses(db: Db, candidate: Candidate, registered: bool, settings: Settings, now: int)
    ensures !Upsertable(db.rows, candidate, now) ==> Upsert(db, candidate, registered, settings, now) == RolledBack
  {
    hide Upsertable, RecordAfter, RowsAfter, EdgesOf, SetAlert, Home;
  }

  /** The state an accepted upsert leaves, spelled out for the observation that is kept. */
  lemma UpsertUnfolds(db: Db, candidate: Candidate, registered: bool, settings: Settings, now: int)
    requires Upsertable(db.rows, candidate, now)
    ensures var c, home := Newest(db.rows, candidate), Home(db, candidate);
            var record := Project(CandidatesOf(OtherRows(db.rows, c), home) + [c], Lookup(db.entities, home), registered, settings, now);
            var rows := OtherRows(db.rows, c) + [Row(home, c)];
            Upsert(db, candidate, registered, settings, now) == Committed(Db(
              db.entities[home := record], rows, db.edges[home := EdgesOf(record, rows)], SetAlert(db.alerts, home, record),
              db.events, if home == db.nextId then db.nextId + 1 else db.nextId))
  {
    hide Project, EdgesOf, SetAlert, CandidatesOf, Resolve, Upsertable;
    PreviousRowHolds(db.rows, candidate);
    SameKeySameOthers(db.rows, Newest(db.rows, candidate), candidate);
  }

  lemma {:induction false} OtherRowsAppend(rows: seq<Row>, row: Row, c: Candidate)
    ensures OtherRows(rows + [row], c) == OtherRows(rows, c) + if SameKey(row.candidate, c) then [] else [row]
  {
    if rows == [] {
      assert [row][1..] == [];
    } else {
      assert (rows + [row])[1..] == rows[1..] + [row];
      OtherRowsAppend(rows[1..], row, c);
    }
  }

  lemma {:induction false} SameKeySameOthers(rows: seq<Row>, c: Candidate, d: Candidate)
    requires SameKey(c, d)
    ensures OtherRows(rows, c) == OtherRows(rows, d)
  {
    if rows != [] {
      SameKeySameOthers(rows[1..], c, d);
    }
  }

  lemma ListsOnlyGroups(order: seq<Group>, all: map<Group, Candidate>)
    requires Lists(order, all)
    ensures forall g :: g in order ==> g in all
  {
    forall g | g in order ensures g in all {
      assert g in (set h | h in order);
    }
  }

  lemma {:induction false} NoneUpserted(db: Db, cs: seq<Candidate>, settings: Settings, now: int)
    ensures UpsertAll(db, cs[..0], settings, now) == Committed(db)
  {
  }

  lemma {:induction false} OneMoreUpserted(db: Db, cs: seq<Candidate>, i: nat, settings: Settings, now: int)
    requires i < |cs|
    ensures UpsertAll(db, cs[..i + 1], settings, now) ==
            match UpsertAll(db, cs[..i], settings, now)
            case RolledBack => RolledBack
            case Committed(sofar) => Upsert(sofar, cs[i], false, settings, now)
  {
    hide Upsert;
    assert cs[..i + 1][..i] == cs[..i];
  }

  lemma {:induction false} OneMoreStored(events: seq<Event>, batch: seq<Event>, i: nat)
    requires i < |batch|
    ensures AddEvents(events, batch[..i + 1]) == AddEvents(AddEvents(events, batch[..i]), [batch[i]])
  {
    assert batch[..i + 1][..i] == batch[..i];
    assert [batch[i]][..0] == [];
    var sofar := AddEvents(events, batch[..i]);
    assert AddEvents(sofar, []) == sofar;
  }

  lemma {:induction false} RefusalStays(db: Db, cs: seq<Candidate>, n: nat, settings: Settings, now: int)
    requires n <= |cs| && UpsertAll(db, cs[..n], settings, now).RolledBack?
    ensures UpsertAll(db, cs, settings, now).RolledBack?
    decreases |cs|
  {
    if n < |cs| {
      assert cs[..|cs| - 1][..n] == cs[..n];
      RefusalStays(db, cs[..|cs| - 1], n, settings, now);
    } else {
      assert cs[..n] == cs;
    }
  }
}
