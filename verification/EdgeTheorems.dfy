/**
  Which edges an entity has and what proves each, in terms of its record and of all stored
  observations.
 */
module EdgeTheorems {
  import opened Options
  import opened EvidenceMerge
  import opened CensusModel
  import opened RuntimeGrouping
  import opened Registry
  import opened RegistryInvariants
  import Capabilities

  /** What a service name stands for: the entity that alone bears it, or else just the name. */
  ghost predicate StandsFor(service: string, target: Target, rows: seq<Row>) {
    match target
    case KnownAgent(agent) => HoldsAlone(agent, service, rows)
    case UnresolvedService(name) => name == service && forall agent: Id :: !HoldsAlone(agent, service, rows)
  }

  /** The item reports a call that is an edge to this target. */
  ghost predicate Reports(e: Evidence, edge: Edge, rows: seq<Row>) {
    && e.value != ""
    && match edge
       case DelegatesTo(target) => e.kind == "delegation" && StandsFor(e.value, target, rows)
       case DependsOn(target) => e.kind == "agent_call" && StandsFor(e.value, target, rows)
       case _ => false
  }

  /** The first listed item that reports the call. */
  ghost predicate FirstReport(evidence: seq<Evidence>, i: nat, edge: Edge, rows: seq<Row>) {
    i < |evidence| && Reports(evidence[i], edge, rows) && forall j :: 0 <= j < i ==> !Reports(evidence[j], edge, rows)
  }

  /** The record, or a call in its evidence, gives the entity this edge. */
  ghost predicate Gives(record: Record, rows: seq<Row>, edge: Edge) {
    match edge
    case UsesTool(tool) => tool in record.tools
    case HasCapability(name) => exists basis :: Capabilities.Capability(name, basis) in record.capabilities
    case Exposes(endpoint) => record.endpoint == Some(endpoint)
    case OwnedBy(owner) => record.owner == Some(owner) && owner != ""
    case ObservedAt(deployment) => record.deployment == deployment && deployment != ""
    case UsesModel(model) => model in record.models
    case UsesMcp(server) => server in record.mcpServers
    case _ => exists i: nat :: FirstReport(record.evidence, i, edge, rows)
  }

  /** The basis whose proof is shown: declared before inferred before observed. */
  ghost predicate ShownBasis(found: Capabilities.Found, name: string, basis: Capabilities.Basis) {
    && Capabilities.Capability(name, basis) in found
    && (basis == Capabilities.Declared || Capabilities.Capability(name, Capabilities.Declared) !in found)
    && (basis == Capabilities.Observed ==> Capabilities.Capability(name, Capabilities.Inferred) !in found)
  }

  /** What is stored with an edge to back it. */
  ghost predicate Backs(record: Record, rows: seq<Row>, edge: Edge, proof: seq<Evidence>) {
    match edge
    case UsesTool(tool) => forall e :: e in proof <==> e in record.evidence && e.value == tool
    case HasCapability(name) =>
      exists basis :: ShownBasis(record.capabilities, name, basis) && proof == record.capabilities[Capabilities.Capability(name, basis)].proof
    case DelegatesTo(_) => exists i: nat :: FirstReport(record.evidence, i, edge, rows) && proof == [record.evidence[i]]
    case DependsOn(_) => exists i: nat :: FirstReport(record.evidence, i, edge, rows) && proof == [record.evidence[i]]
    case _ => proof == []
  }

  lemma TargetMeans(service: string, rows: seq<Row>, target: Target)
    ensures ServiceTarget(service, rows) == target <==> StandsFor(service, target, rows)
  {
    hide HoldsAlone;
    forall agent: Id ensures ServiceTarget(service, rows) == KnownAgent(agent) <==> HoldsAlone(agent, service, rows) {
      ResolvedMeansAlone(service, rows, agent);
    }
    ServiceTargetIs(service, rows);
    hide ServiceTarget;
  }

  lemma ServiceTargetIs(service: string, rows: seq<Row>)
    ensures ServiceTarget(service, rows).UnresolvedService? ==> ServiceTarget(service, rows) == UnresolvedService(service)
  {
  }

  lemma CallMeans(e: Evidence, edge: Edge, rows: seq<Row>)
    ensures IsCall(e) && CallEdge(e, rows) == edge <==> Reports(e, edge, rows)
  {
    assert "delegation"[0] != "agent_call"[0];
    match edge
    case DelegatesTo(target) => TargetMeans(e.value, rows, target);
    case DependsOn(target) => TargetMeans(e.value, rows, target);
    case _ =>
    hide ServiceTarget, StandsFor;
  }

  lemma {:induction false} OneMoreReport(evidence: seq<Evidence>, e: Evidence, edge: Edge, rows: seq<Row>, i: nat)
    ensures i < |evidence| ==> (FirstReport(evidence + [e], i, edge, rows) <==> FirstReport(evidence, i, edge, rows))
    ensures (forall k: nat :: !FirstReport(evidence, k, edge, rows)) && Reports(e, edge, rows) ==> FirstReport(evidence + [e], |evidence|, edge, rows)
  {
    hide Reports;
    assert forall j :: 0 <= j < |evidence| ==> (evidence + [e])[j] == evidence[j];
    if forall k: nat :: !FirstReport(evidence, k, edge, rows) {
      NobodyReports(evidence, edge, rows);
    }
  }

  lemma {:induction false} NobodyReports(evidence: seq<Evidence>, edge: Edge, rows: seq<Row>)
    requires forall k: nat :: !FirstReport(evidence, k, edge, rows)
    ensures forall e :: e in evidence ==> !Reports(e, edge, rows)
  {
    hide Reports;
    for n := 0 to |evidence|
      invariant forall j :: 0 <= j < n ==> !Reports(evidence[j], edge, rows)
    {
      assert !FirstReport(evidence, n, edge, rows);
    }
  }

  lemma {:induction false} CallEdgesAre(evidence: seq<Evidence>, rows: seq<Row>, edge: Edge)
    ensures edge in CallEdges(evidence, rows) <==> exists i: nat :: FirstReport(evidence, i, edge, rows)
    ensures forall i: nat :: FirstReport(evidence, i, edge, rows) ==> edge in CallEdges(evidence, rows) && CallEdges(evidence, rows)[edge] == [evidence[i]]
  {
    if evidence != [] {
      var init, last := evidence[..|evidence| - 1], evidence[|evidence| - 1];
      CallEdgesAre(init, rows, edge);
      CallMeans(last, edge, rows);
      assert evidence == init + [last];
      hide CallEdge, IsCall, FirstReport, Reports;
      FirstReportsAre(init, last, rows, edge);
      forall i: nat | FirstReport(evidence, i, edge, rows) ensures edge in CallEdges(evidence, rows) && CallEdges(evidence, rows)[edge] == [evidence[i]] {
        if i < |init| {
          assert FirstReport(init, i, edge, rows);
          assert evidence[i] == init[i];
        }
      }
    }
  }

  /** With one more item the first report stays, or the new item is the first. */
  lemma {:induction false} FirstReportsAre(init: seq<Evidence>, last: Evidence, rows: seq<Row>, edge: Edge)
    ensures var first := exists k: nat :: k < |init| && FirstReport(init, k, edge, rows);
            && (first <==> exists k: nat :: FirstReport(init, k, edge, rows))
            && forall i: nat :: FirstReport(init + [last], i, edge, rows) <==>
                 if i < |init| then FirstReport(init, i, edge, rows) else i == |init| && !first && Reports(last, edge, rows)
  {
    forall i: nat
      ensures FirstReport(init + [last], i, edge, rows) <==>
                if i < |init| then FirstReport(init, i, edge, rows)
                else i == |init| && !(exists k: nat :: k < |init| && FirstReport(init, k, edge, rows)) && Reports(last, edge, rows)
    {
      OneMoreReport(init, last, edge, rows, i);
      if FirstReport(init + [last], i, edge, rows) && i == |init| {
        assert forall k :: 0 <= k < |init| ==> (init + [last])[k] == init[k];
      }
    }
  }

  lemma {:induction false} ToolProofIs(evidence: seq<Evidence>, tool: string)
    ensures forall e :: e in ProofOfTool(evidence, tool) <==> e in evidence && e.value == tool
  {
    if evidence != [] {
      ToolProofIs(evidence[1..], tool);
      assert evidence == [evidence[0]] + evidence[1..];
    }
  }

  lemma CapabilityProofIs(found: Capabilities.Found, name: string)
    ensures name in CapabilityNames(found) <==> exists basis :: Capabilities.Capability(name, basis) in found
    ensures forall basis :: ShownBasis(found, name, basis) ==> ProofOfCapability(found, name) == found[Capabilities.Capability(name, basis)].proof
    ensures name in CapabilityNames(found) ==> exists basis :: ShownBasis(found, name, basis)
  {
    if name in CapabilityNames(found) {
      var c :| c in found && c.name == name;
      assert c == Capabilities.Capability(name, c.basis);
      if Capabilities.Capability(name, Capabilities.Declared) in found {
        assert ShownBasis(found, name, Capabilities.Declared);
      } else if Capabilities.Capability(name, Capabilities.Inferred) in found {
        assert ShownBasis(found, name, Capabilities.Inferred);
      } else {
        assert c.basis != Capabilities.Declared && c.basis != Capabilities.Inferred && c.basis == Capabilities.Observed;
        assert ShownBasis(found, name, Capabilities.Observed);
      }
    }
  }

  /** Each edge comes from its own part of the record. */
  lemma {:induction false} EdgeParts(record: Record, rows: seq<Row>, edge: Edge)
    ensures var edges := EdgesOf(record, rows);
            match edge
            case UsesTool(tool) => (edge in edges <==> tool in record.tools) && (edge in edges ==> edges[edge] == ProofOfTool(record.evidence, tool))
            case HasCapability(name) =>
              (edge in edges <==> name in CapabilityNames(record.capabilities)) && (edge in edges ==> edges[edge] == ProofOfCapability(record.capabilities, name))
            case DelegatesTo(_) => (edge in edges <==> edge in CallEdges(record.evidence, rows)) && (edge in edges ==> edges[edge] == CallEdges(record.evidence, rows)[edge])
            case DependsOn(_) => (edge in edges <==> edge in CallEdges(record.evidence, rows)) && (edge in edges ==> edges[edge] == CallEdges(record.evidence, rows)[edge])
            case _ => (edge in edges <==> edge in PlainEdgeSet(record)) && (edge in edges ==> edges[edge] == [])
  {
    OnlyCalls(record.evidence, rows);
    KeysApart(record, edge);
    hide ToolEdges, CapabilityEdges, PlainEdges, PlainEdgeSet, CallEdges, ProofOfTool, ProofOfCapability, CapabilityNames;
  }

  /** Tools, capabilities and the rest have edges of their own sorts. */
  lemma {:induction false} KeysApart(record: Record, edge: Edge)
    ensures var tools := ToolEdges(record.tools, record.evidence);
            && (edge in tools <==> edge.UsesTool? && edge.tool in record.tools)
            && (edge in tools ==> tools[edge] == ProofOfTool(record.evidence, edge.tool))
    ensures var names := CapabilityNames(record.capabilities);
            var capable := CapabilityEdges(names, record.capabilities);
            && (edge in capable <==> edge.HasCapability? && edge.name in names)
            && (edge in capable ==> capable[edge] == ProofOfCapability(record.capabilities, edge.name))
    ensures var plain := PlainEdges(record);
            && (edge in plain <==> edge in PlainEdgeSet(record)) && (edge in plain ==> plain[edge] == [])
            && (edge in plain ==> !edge.UsesTool? && !edge.HasCapability? && !edge.DelegatesTo? && !edge.DependsOn?)
  {
    hide ProofOfTool, ProofOfCapability, CapabilityNames;
  }

  lemma {:induction false} OnlyCalls(evidence: seq<Evidence>, rows: seq<Row>)
    ensures forall edge :: edge in CallEdges(evidence, rows) ==> edge.DelegatesTo? || edge.DependsOn?
  {
    forall edge | edge in CallEdges(evidence, rows) ensures edge.DelegatesTo? || edge.DependsOn? {
      CallEdgesMean(evidence, rows, edge);
    }
  }

  /**
    The edges of an entity are exactly those that its record or its calls give, each backed by
    what shows it: for a tool all items that name it, for a capability the proof of its first
    basis, for a call the first item that reports it, and nothing for what is simply shown.
   */
  lemma {:induction false} EdgesAreGiven(record: Record, rows: seq<Row>, edge: Edge)
    ensures edge in EdgesOf(record, rows) <==> Gives(record, rows, edge)
    ensures edge in EdgesOf(record, rows) ==> Backs(record, rows, edge, EdgesOf(record, rows)[edge])
  {
    EdgeParts(record, rows, edge);
    hide EdgesOf, ProofOfTool, ProofOfCapability, CapabilityNames, CallEdges, FirstReport, ShownBasis;
    match edge
    case UsesTool(tool) => ToolProofIs(record.evidence, tool);
    case HasCapability(name) => CapabilityProofIs(record.capabilities, name);
    case DelegatesTo(_) => CallEdgesAre(record.evidence, rows, edge);
    case DependsOn(_) => CallEdgesAre(record.evidence, rows, edge);
    case _ =>
  }

  /** After every discovery, committed ingestion or refresh the stored edges are exactly the given ones. */
  lemma {:induction false} StoredEdgesAreGiven(db: Db, op: Op, settings: Settings, now: int, id: Id, edge: Edge)
    requires Inv(db) && Regraphs(op)
    requires op.DoIngest? ==> Ingest(db, op.batch, op.order, settings, now).Committed?
    ensures var next := Step(db, op, settings, now);
            id in next.entities ==>
              && id in next.edges
              && (edge in next.edges[id] <==> Gives(next.entities[id], next.rows, edge))
              && (edge in next.edges[id] ==> Backs(next.entities[id], next.rows, edge, next.edges[id][edge]))
  {
    hide *;
    RegraphingRebuilds(db, op, settings, now);
    var next := Step(db, op, settings, now);
    if id in next.entities {
      AllEdgesAre(next, id);
      EdgesAreGiven(next.entities[id], next.rows, edge);
    }
  }

  lemma AllEdgesAre(db: Db, id: Id)
    requires id in db.entities
    ensures id in AllEdges(db.entities, db.rows) && AllEdges(db.entities, db.rows)[id] == EdgesOf(db.entities[id], db.rows)
  {
    hide EdgesOf;
  }
}
