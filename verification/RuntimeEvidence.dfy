/**
  What a workload's candidate says of its events, field by field and item by item, for any
  list of events, retransmitted ones included.
 */
module RuntimeEvidence {
  import opened TextOrder
  import opened EvidenceMerge
  import opened Options
  import opened CensusModel
  import opened RuntimeGrouping

  // ------------------------------------------------------------------- which events count

  predicate InWorkload(e: Event, g: Group) {
    e.service == g.service && e.namespace == g.namespace && e.deployment == g.deployment
  }

  predicate SameEvent(a: Event, b: Event) {
    a.source == b.source && a.id == b.id
  }

  /** Of all the workload's events with its source and id this one is the earliest, and the first of these. */
  ghost predicate Counts(events: seq<Event>, i: nat, g: Group) {
    && i < |events| && InWorkload(events[i], g)
    && forall j :: 0 <= j < |events| && InWorkload(events[j], g) && SameEvent(events[j], events[i]) ==>
         events[i].at < events[j].at || (events[i].at == events[j].at && i <= j)
  }

  ghost predicate CountsAs(events: seq<Event>, e: Event, g: Group) {
    exists i: nat :: Counts(events, i, g) && events[i] == e
  }

  predicate NoTwins(kept: seq<Event>) {
    forall i, j :: 0 <= i < j < |kept| ==> !SameEvent(kept[i], kept[j])
  }

  lemma {:induction false} RememberMeans(kept: seq<Event>, e: Event)
    requires NoTwins(kept)
    ensures NoTwins(Remember(kept, e))
    ensures forall x :: x in Remember(kept, e) <==>
              (x in kept && !(SameEvent(x, e) && e.at < x.at)) || (x == e && forall y :: y in kept && SameEvent(y, e) ==> e.at < y.at)
  {
    if kept != [] {
      var first, rest := kept[0], kept[1..];
      assert kept == [first] + rest;
      if SameEvent(first, e) {
        assert forall y :: y in rest ==> !SameEvent(y, e);
      } else {
        RememberMeans(rest, e);
        RememberHolds(rest, e);
        var after := Remember(rest, e);
        forall k | 0 <= k < |after| ensures !SameEvent(first, after[k]) {
          assert after[k] in after;
        }
      }
    }
  }

  /** The earliest of the workload's events with the source and id of this one. */
  lemma {:induction false} EarliestCounts(events: seq<Event>, j: nat, g: Group) returns (i: nat)
    requires j < |events| && InWorkload(events[j], g)
    ensures Counts(events, i, g) && SameEvent(events[i], events[j]) && events[i].at <= events[j].at
  {
    i := j;
    for k := 0 to |events|
      invariant i < |events| && InWorkload(events[i], g) && SameEvent(events[i], events[j])
      invariant events[i].at < events[j].at || (events[i].at == events[j].at && i <= j)
      invariant forall m :: 0 <= m < k && InWorkload(events[m], g) && SameEvent(events[m], events[j]) ==>
        events[i].at < events[m].at || (events[i].at == events[m].at && i <= m)
    {
      if InWorkload(events[k], g) && SameEvent(events[k], events[j]) && (events[k].at < events[i].at || (events[k].at == events[i].at && k < i)) {
        i := k;
      }
    }
  }

  lemma {:induction false} LastCounts(events: seq<Event>, last: Event, g: Group)
    requires InWorkload(last, g)
    ensures Counts(events + [last], |events|, g) <==> forall y :: CountsAs(events, y, g) && SameEvent(y, last) ==> last.at < y.at
  {
    var all := events + [last];
    assert all[|events|] == last && forall j :: 0 <= j < |events| ==> all[j] == events[j];
    if Counts(all, |events|, g) {
      forall y | CountsAs(events, y, g) && SameEvent(y, last) ensures last.at < y.at {
        var j: nat :| Counts(events, j, g) && events[j] == y;
        assert all[j] == y;
      }
    }
    if forall y :: CountsAs(events, y, g) && SameEvent(y, last) ==> last.at < y.at {
      forall j | 0 <= j < |events| && InWorkload(all[j], g) && SameEvent(all[j], last) ensures last.at < all[j].at {
        var i := EarliestCounts(events, j, g);
        assert CountsAs(events, events[i], g);
      }
    }
  }

  lemma {:induction false} EarlierStillCounts(events: seq<Event>, last: Event, i: nat, g: Group)
    requires i < |events|
    ensures Counts(events + [last], i, g) <==>
              Counts(events, i, g) && !(InWorkload(last, g) && SameEvent(events[i], last) && last.at < events[i].at)
  {
    var all := events + [last];
    assert all[|events|] == last && forall j :: 0 <= j < |events| ==> all[j] == events[j];
  }

  lemma {:induction false} OneMoreCounts(events: seq<Event>, last: Event, x: Event, g: Group)
    ensures CountsAs(events + [last], x, g) <==>
              || (CountsAs(events, x, g) && !(InWorkload(last, g) && SameEvent(x, last) && last.at < x.at))
              || (InWorkload(last, g) && x == last && forall y :: CountsAs(events, y, g) && SameEvent(y, last) ==> last.at < y.at)
  {
    var all := events + [last];
    assert all[|events|] == last && forall j :: 0 <= j < |events| ==> all[j] == events[j];
    hide Counts;
    if i: nat :| i < |all| && Counts(all, i, g) && all[i] == x {
      if i < |events| {
        EarlierStillCounts(events, last, i, g);
      } else {
        CountedIsInWorkload(all, i, g);
        LastCounts(events, last, g);
      }
    }
    CountsInside(all, x, g);
    CountsInside(events, x, g);
    if i: nat :| i < |events| && Counts(events, i, g) && events[i] == x && !(InWorkload(last, g) && SameEvent(x, last) && last.at < x.at) {
      EarlierStillCounts(events, last, i, g);
    }
    if InWorkload(last, g) && x == last && forall y :: CountsAs(events, y, g) && SameEvent(y, last) ==> last.at < y.at {
      LastCounts(events, last, g);
    }
  }

  lemma CountedIsInWorkload(events: seq<Event>, i: nat, g: Group)
    requires Counts(events, i, g)
    ensures i < |events| && InWorkload(events[i], g)
  {
  }

  lemma CountsInside(events: seq<Event>, x: Event, g: Group)
    ensures CountsAs(events, x, g) <==> exists i: nat :: i < |events| && Counts(events, i, g) && events[i] == x
  {
  }

  lemma {:induction false} OfGroupMeans(events: seq<Event>, g: Group)
    ensures NoTwins(OfGroup(events, g))
    ensures forall x :: x in OfGroup(events, g) <==> CountsAs(events, x, g)
  {
    if events != [] {
      var init, last := events[..|events| - 1], events[|events| - 1];
      assert events == init + [last];
      OfGroupMeans(init, g);
      hide CountsAs;
      RememberMeans(OfGroup(init, g), last);
      assert GroupOf(last) == g <==> InWorkload(last, g);
      forall x ensures x in OfGroup(events, g) <==> CountsAs(events, x, g) {
        OneMoreCounts(init, last, x, g);
      }
    }
  }

  // ------------------------------------------------------------------- what an event says

  /** The text, or its first five hundred characters. */
  predicate Shortened(text: string, short: string) {
    short <= text && |short| == if |text| <= 500 then |text| else 500
  }

  /** What the event itself shows: a tool called, a model called, somebody called, or just that it happened. */
  predicate ShowsValue(e: Event, value: string) {
    && (e.kind == "tool_call" ==> value == e.tool)
    && (e.kind == "llm_call" ==> value == e.model)
    && (e.kind in {"agent_call", "delegation"} ==> value == e.target)
    && (e.kind !in {"tool_call", "llm_call", "agent_call", "delegation"} ==> value == "")
  }

  /** The evidence of one event: itself, and the provider, the location or the server that it names. */
  predicate Tells(e: Event, item: Evidence) {
    && item.at == e.at && item.source == e.source && item.eventId == e.id
    && (|| (item.kind == e.kind && ShowsValue(e, item.value))
        || (item.kind == "llm_provider" && e.kind == "llm_call" && e.provider != "" && Shortened(e.provider, item.value))
        || (item.kind == "llm_location" && e.kind == "llm_call" && item.value == e.location && e.location in {"local", "external"})
        || (item.kind == "mcp_connection" && e.kind == "tool_call" && e.mcpServer.Some? && Shortened(e.mcpServer.value.text, item.value)))
  }

  lemma EventEvidenceMeans(e: Event, item: Evidence)
    ensures item in EventEvidence(e) <==> Tells(e, item)
  {
    KindsApart();
    if item in EventEvidence(e) {
      assert item == OwnEvidence(e) || item in SideEvidence(e);
    }
    if Tells(e, item) {
      if item.kind == e.kind && ShowsValue(e, item.value) {
        assert item == OwnEvidence(e) && EventEvidence(e)[0] == item;
      } else {
        TellsOnTheSide(e, item);
        assert EventEvidence(e)[1..] == SideEvidence(e);
      }
    }
  }

  lemma TellsOnTheSide(e: Event, item: Evidence)
    requires Tells(e, item) && !(item.kind == e.kind && ShowsValue(e, item.value))
    ensures item in SideEvidence(e)
  {
    if item.kind == "llm_provider" {
      assert item == Evidence(e.at, e.source, "llm_provider", e.id, Take500(e.provider));
      assert SideEvidence(e)[0] == item;
    } else if item.kind == "llm_location" {
      assert item == Evidence(e.at, e.source, "llm_location", e.id, e.location);
      assert item in SideEvidence(e);
    } else {
      assert item == Evidence(e.at, e.source, "mcp_connection", e.id, Take500(e.mcpServer.value.text));
      assert item in SideEvidence(e);
    }
  }

  lemma KindsApart()
    ensures "tool_call" != "llm_call" && "agent_call" != "tool_call" && "delegation" != "tool_call" && "agent_call" != "llm_call" && "delegation" != "llm_call"
    ensures "agent_call" != "delegation"
  {
    assert |"tool_call"| == 9 && |"llm_call"| == 8 && |"agent_call"| == 10 && |"delegation"| == 10;
    assert "agent_call"[0] != "delegation"[0];
  }

  lemma {:induction false} EvidenceOfHolds(observations: seq<Event>)
    ensures forall item :: item in EvidenceOf(observations) <==> exists e :: e in observations && Tells(e, item)
  {
    hide Tells;
    if observations != [] {
      var init, last := observations[..|observations| - 1], observations[|observations| - 1];
      assert observations == init + [last];
      EvidenceOfHolds(init);
      EvidenceUnfolds(observations);
      hide EvidenceOf, EventEvidence;
      forall item ensures item in EventEvidence(last) <==> Tells(last, item) {
        EventEvidenceMeans(last, item);
      }
    }
  }

  predicate InTimeOrder(events: seq<Event>) {
    forall i, j :: 0 <= i < j < |events| ==> events[i].at <= events[j].at
  }

  predicate EvidenceInOrder(evidence: seq<Evidence>) {
    forall i, j :: 0 <= i < j < |evidence| ==> evidence[i].at <= evidence[j].at
  }

  lemma {:induction false} InsertKeepsTime(sorted: seq<Event>, e: Event)
    requires InTimeOrder(sorted)
    ensures InTimeOrder(InsertEvent(sorted, e))
  {
    if sorted != [] {
      var init, last := sorted[..|sorted| - 1], sorted[|sorted| - 1];
      if Earlier(e, last) {
        InsertKeepsTime(init, e);
        InsertEventHolds(init, e);
        var r := InsertEvent(init, e);
        forall i | 0 <= i < |r| ensures r[i].at <= last.at {
          assert r[i] in r;
        }
      }
    }
  }

  lemma {:induction false} SortedInTime(events: seq<Event>)
    ensures InTimeOrder(SortEvents(events))
  {
    if events != [] {
      SortedInTime(events[..|events| - 1]);
      InsertKeepsTime(SortEvents(events[..|events| - 1]), events[|events| - 1]);
    }
  }

  lemma {:induction false} EvidenceInTime(observations: seq<Event>)
    requires InTimeOrder(observations)
    ensures EvidenceInOrder(EvidenceOf(observations))
  {
    if observations != [] {
      var init, last := observations[..|observations| - 1], observations[|observations| - 1];
      EvidenceInTime(init);
      EvidenceOfHolds(init);
      EvidenceUnfolds(observations);
      hide EvidenceOf, EventEvidence, Tells;
      var before, own := EvidenceOf(init), EventEvidence(last);
      forall i | 0 <= i < |before| ensures before[i].at <= last.at {
        assert before[i] in before;
        var e :| e in init && Tells(e, before[i]);
        TellsItsTime(e, before[i]);
      }
      forall i | 0 <= i < |own| ensures own[i].at == last.at {
        EventEvidenceMeans(last, own[i]);
        TellsItsTime(last, own[i]);
      }
    }
  }

  lemma TellsItsTime(e: Event, item: Evidence)
    requires Tells(e, item)
    ensures item.at == e.at
  {
  }

  // ---------------------------------------------------------------- what a candidate says

  /** All that say anything say this; or else nothing is said, or two things are. */
  ghost predicate Agreed(said: set<string>, text: string) {
    if text != "" then text in said && forall x :: x in said ==> x == "" || x == text
    else (forall x :: x in said ==> x == "") || exists x, y :: x in said && y in said && x != y && x != "" && y != ""
  }

  lemma ConsensusTextMeans(said: set<string>)
    ensures Agreed(said, ConsensusText(said))
  {
    var named := said - {""};
    assert forall y :: y in said && y != "" ==> y in named;
    if x :| x in named && named == {x} {
      assert ConsensusText(said) == x;
    } else if named != {} {
      var x :| x in named;
      assert named != {x};
      var y :| y in named && y != x;
      assert x in said && y in said && x != "" && y != "";
    }
  }

  /** In the order of time, all that the workload's events tell, and nothing else. */
  ghost predicate HoldsEvidence(events: seq<Event>, g: Group, evidence: seq<Evidence>) {
    && EvidenceInOrder(evidence)
    && (forall item :: item in evidence <==> exists e :: CountsAs(events, e, g) && Tells(e, item))
  }

  /** Named after its workload, with nothing that telemetry does not tell. */
  predicate Bears(g: Group, c: Candidate) {
    && c.source == "runtime" && c.id == RuntimeId(g) && c.name == g.service == c.service
    && c.namespace == (if g.namespace.Some? then g.namespace.value else "") && c.deployment == (if g.deployment.Some? then g.deployment.value else "")
    && c.owner == None && c.skills == {} == c.protocols && c.registrationId == "" == c.entityHint
  }

  ghost predicate DatedBy(events: seq<Event>, g: Group, at: int) {
    (exists e :: CountsAs(events, e, g) && e.at == at) && (forall e :: CountsAs(events, e, g) ==> e.at <= at)
  }

  ghost predicate HoldsTools(events: seq<Event>, g: Group, tools: set<string>) {
    forall tool :: tool in tools <==> tool != "" && exists e :: CountsAs(events, e, g) && e.kind == "tool_call" && e.tool == tool
  }

  ghost predicate LivesAt(events: seq<Event>, g: Group, at: Option<Endpoint>) {
    forall endpoint :: at == Some(endpoint) <==>
      && (exists e :: CountsAs(events, e, g) && e.endpoint == Some(endpoint))
      && (forall e :: CountsAs(events, e, g) ==> e.endpoint == None || e.endpoint == Some(endpoint))
  }

  /** The workload's events that count, and no others, make its candidate. */
  ghost predicate Describes(events: seq<Event>, g: Group, c: Candidate) {
    && Bears(g, c) && DatedBy(events, g, c.at) && HoldsEvidence(events, g, c.evidence)
    && HoldsTools(events, g, c.tools) && LivesAt(events, g, c.endpoint) && AgreesOn(Members(events, g), c)
  }

  ghost function Members(events: seq<Event>, g: Group): set<Event> {
    set e | e in events && CountsAs(events, e, g)
  }

  ghost predicate AgreesOn(members: set<Event>, c: Candidate) {
    && Agreed(set e | e in members && e.kind == "llm_call" :: e.provider, c.provider)
    && Agreed(set e | e in members :: e.framework, c.framework)
    && Agreed(set e | e in members :: e.model, c.model)
    && Agreed(set e | e in members :: e.account, c.account)
  }

  lemma {:induction false} LatestIsLatest(events: seq<Event>)
    requires events != []
    ensures (exists e :: e in events && e.at == Latest(events)) && forall e :: e in events ==> e.at <= Latest(events)
  {
    var init, last := events[..|events| - 1], events[|events| - 1];
    assert events == init + [last];
    if |events| > 1 {
      LatestIsLatest(init);
    }
  }

  lemma {:induction false} BuildDescribes(events: seq<Event>, g: Group, observations: seq<Event>)
    requires observations != [] && InTimeOrder(observations)
    requires forall e :: e in observations <==> CountsAs(events, e, g)
    ensures Describes(events, g, Build(g, observations))
  {
    LatestIsLatest(observations);
    EvidenceHeld(events, g, observations);
    BuildAgrees(events, g, observations);
    EndpointHeld(events, g, observations);
    BuildsFrom(g, observations);
    ToolsHeld(events, g, observations);
    hide Build, CountsAs, HoldsEvidence, HoldsTools, LivesAt, Bears, Latest, EvidenceOf, InTimeOrder, AgreesOn, Members;
    assert DatedBy(events, g, Latest(observations));
  }

  lemma ToolsHeld(events: seq<Event>, g: Group, observations: seq<Event>)
    requires forall e :: e in observations <==> CountsAs(events, e, g)
    ensures HoldsTools(events, g, set e | e in observations && e.kind == "tool_call" && e.tool != "" :: e.tool)
  {
    hide CountsAs;
  }

  lemma {:induction false} EndpointHeld(events: seq<Event>, g: Group, observations: seq<Event>)
    requires observations != [] && forall e :: e in observations <==> CountsAs(events, e, g)
    ensures LivesAt(events, g, Build(g, observations).endpoint)
  {
    BuildsEndpoint(g, observations);
    hide CountsAs, Build;
  }

  lemma {:induction false} EvidenceHeld(events: seq<Event>, g: Group, observations: seq<Event>)
    requires InTimeOrder(observations) && forall e :: e in observations <==> CountsAs(events, e, g)
    ensures HoldsEvidence(events, g, EvidenceOf(observations))
  {
    EvidenceOfHolds(observations);
    EvidenceInTime(observations);
    hide CountsAs, Tells, EvidenceOf, InTimeOrder, EvidenceInOrder;
  }

  lemma {:induction false} BuildsFrom(g: Group, observations: seq<Event>)
    requires observations != []
    ensures var c := Build(g, observations);
            && Bears(g, c) && c.at == Latest(observations) && c.evidence == EvidenceOf(observations)
            && c.tools == set e | e in observations && e.kind == "tool_call" && e.tool != "" :: e.tool
  {
    hide Consensus, ConsensusText, Latest, EvidenceOf, RuntimeId;
  }

  lemma {:induction false} BuildsEndpoint(g: Group, observations: seq<Event>)
    requires observations != []
    ensures forall endpoint :: Build(g, observations).endpoint == Some(endpoint) <==>
              && (exists e :: e in observations && e.endpoint == Some(endpoint))
              && (forall e :: e in observations ==> e.endpoint == None || e.endpoint == Some(endpoint))
  {
    hide Consensus, ConsensusText, Latest, EvidenceOf;
    forall endpoint
      ensures Build(g, observations).endpoint == Some(endpoint) <==>
                && (exists e :: e in observations && e.endpoint == Some(endpoint))
                && (forall e :: e in observations ==> e.endpoint == None || e.endpoint == Some(endpoint))
    {
      ConsensusIsAgreement(observations, endpoint);
    }
  }

  lemma {:induction false} BuildAgrees(events: seq<Event>, g: Group, observations: seq<Event>)
    requires observations != [] && forall e :: e in observations <==> CountsAs(events, e, g)
    ensures AgreesOn(Members(events, g), Build(g, observations))
  {
    var members := Members(events, g);
    assert forall e :: e in observations <==> e in members by {
      assert forall e :: CountsAs(events, e, g) ==> e in events;
    }
    hide *;
    SameTexts(members, observations);
    BuildTexts(g, observations);
    ConsensusTextMeans(set e | e in members && e.kind == "llm_call" :: e.provider);
    ConsensusTextMeans(set e | e in members :: e.framework);
    ConsensusTextMeans(set e | e in members :: e.model);
    ConsensusTextMeans(set e | e in members :: e.account);
    AllAgreed(members, Build(g, observations));
  }

  lemma SameTexts(members: set<Event>, observations: seq<Event>)
    requires forall e :: e in observations <==> e in members
    ensures (set e | e in members && e.kind == "llm_call" :: e.provider) == set e | e in observations && e.kind == "llm_call" :: e.provider
    ensures (set e | e in members :: e.framework) == set e | e in observations :: e.framework
    ensures (set e | e in members :: e.model) == set e | e in observations :: e.model
    ensures (set e | e in members :: e.account) == set e | e in observations :: e.account
  {
  }

  lemma BuildTexts(g: Group, observations: seq<Event>)
    requires observations != []
    ensures var c := Build(g, observations);
            && c.provider == ConsensusText(set e | e in observations && e.kind == "llm_call" :: e.provider)
            && c.framework == ConsensusText(set e | e in observations :: e.framework)
            && c.model == ConsensusText(set e | e in observations :: e.model)
            && c.account == ConsensusText(set e | e in observations :: e.account)
  {
    hide Consensus, ConsensusText, Latest, EvidenceOf, RuntimeId;
  }

  lemma AllAgreed(members: set<Event>, c: Candidate)
    requires Agreed(set e | e in members && e.kind == "llm_call" :: e.provider, c.provider)
    requires Agreed(set e | e in members :: e.framework, c.framework)
    requires Agreed(set e | e in members :: e.model, c.model)
    requires Agreed(set e | e in members :: e.account, c.account)
    ensures AgreesOn(members, c)
  {
    hide Agreed;
  }

  /**
    An accepted list of events makes a candidate of every workload it mentions, and of no
    other; and each candidate holds, in the order of time, exactly what the workload's events
    say, a retransmitted event once, as of its earliest report.
   */
  lemma {:induction false} CandidatesDescribeTheirEvents(events: seq<Event>, g: Group)
    requires RuntimeCandidates(events).Some?
    ensures var all := RuntimeCandidates(events).value;
            && (g in all <==> exists e :: e in events && InWorkload(e, g))
            && (g in all ==> Describes(events, g, all[g]))
  {
    OfGroupMeans(events, g);
    OfGroupHolds(events, g);
    assert g in GroupsOf(events) <==> exists e :: e in events && InWorkload(e, g);
    if g in GroupsOf(events) {
      var members := OfGroup(events, g);
      SortEventsHolds(members);
      SortedInTime(members);
      hide Describes, OfGroup, SortEvents, CountsAs, Build, Fits;
      BuildDescribes(events, g, SortEvents(members));
    }
  }
}
