/**
  Turning runtime events into candidates: one candidate a workload, carrying the evidence of
  every event of that workload, whatever order the events arrived in.
 */
module RuntimeGrouping {
  import opened TextOrder
  import opened EvidenceMerge
  import opened Options
  import opened CensusModel

  /** The server an event names, with the verdict of the URL check on that text. */
  datatype Server = Server(text: string, safe: bool)

  datatype Event = Event(
    id: string,
    source: string,
    at: int,
    service: string,
    namespace: Option<string>,
    deployment: Option<string>,
    endpoint: Option<Endpoint>,
    kind: string,
    model: string,
    tool: string,
    target: string,
    provider: string,
    location: string,
    mcpServer: Option<Server>,
    framework: string,
    account: string)

  const EVENT_KINDS := {"llm_call", "tool_call", "agent_call", "delegation", "memory_access",
                        "external_api_call", "autonomous_action", "planning", "multi_step"}

  predicate WellKinded(events: seq<Event>) {
    forall e :: e in events ==> e.kind in EVENT_KINDS
  }

  datatype Group = Group(service: string, namespace: Option<string>, deployment: Option<string>)

  function GroupOf(e: Event): Group {
    Group(e.service, e.namespace, e.deployment)
  }

  /** The inner dictionary: one event for each source and id, the earliest, in order of first arrival. */
  function Remember(kept: seq<Event>, e: Event): seq<Event> {
    if kept == [] then [e]
    else if kept[0].source == e.source && kept[0].id == e.id then [if e.at < kept[0].at then e else kept[0]] + kept[1..]
    else [kept[0]] + Remember(kept[1..], e)
  }

  function OfGroup(events: seq<Event>, g: Group): seq<Event> {
    if events == [] then []
    else
      var init, last := events[..|events| - 1], events[|events| - 1];
      if GroupOf(last) == g then Remember(OfGroup(init, g), last) else OfGroup(init, g)
  }

  predicate Earlier(a: Event, b: Event) {
    a.at < b.at || (a.at == b.at && Less(a.id, b.id))
  }

  function InsertEvent(sorted: seq<Event>, e: Event): seq<Event> {
    if sorted == [] then [e]
    else
      var init, last := sorted[..|sorted| - 1], sorted[|sorted| - 1];
      if Earlier(e, last) then InsertEvent(init, e) + [last] else sorted + [e]
  }

  /** A stable sort by time and event id. */
  function SortEvents(events: seq<Event>): seq<Event> {
    if events == [] then [] else InsertEvent(SortEvents(events[..|events| - 1]), events[|events| - 1])
  }

  function Take500(s: string): string {
    if |s| <= 500 then s else s[..500]
  }

  function ValueOf(e: Event): string {
    if e.kind == "tool_call" then e.tool
    else if e.kind == "llm_call" then e.model
    else if e.kind == "agent_call" || e.kind == "delegation" then e.target
    else ""
  }

  function OwnEvidence(e: Event): Evidence {
    Evidence(e.at, e.source, e.kind, e.id, ValueOf(e))
  }

  function SideEvidence(e: Event): seq<Evidence> {
    (if e.kind == "llm_call" && e.provider != "" then [Evidence(e.at, e.source, "llm_provider", e.id, Take500(e.provider))] else [])
    + (if e.kind == "llm_call" && (e.location == "local" || e.location == "external")
       then [Evidence(e.at, e.source, "llm_location", e.id, e.location)] else [])
    + (if e.kind == "tool_call" && e.mcpServer.Some? then [Evidence(e.at, e.source, "mcp_connection", e.id, Take500(e.mcpServer.value.text))] else [])
  }

  function EventEvidence(e: Event): seq<Evidence> {
    [OwnEvidence(e)] + SideEvidence(e)
  }

  function EvidenceOf(observations: seq<Event>): seq<Evidence> {
    if observations == [] then []
    else
      var init, last := observations[..|observations| - 1], observations[|observations| - 1];
      EvidenceOf(init) + EventEvidence(last)
  }

  function Consensus<T(==)>(seen: set<T>): Option<T> {
    if exists x :: x in seen && seen == {x} then
      var x :| x in seen && seen == {x};
      Some(x)
    else None
  }

  function ConsensusText(seen: set<string>): string {
    match Consensus(seen - {""}) case Some(x) => x case None => ""
  }

  function Latest(events: seq<Event>): int
    requires events != []
  {
    var last := events[|events| - 1].at;
    if |events| == 1 then last
    else
      var rest := Latest(events[..|events| - 1]);
      if rest < last then last else rest
  }

  function OrEmpty(text: Option<string>): string {
    if text.Some? then text.value else ""
  }

  function RuntimeId(g: Group): string {
    "runtime|" + JoinKey(g.service, JoinKey(OrEmpty(g.namespace), OrEmpty(g.deployment)))
  }

  function Build(g: Group, observations: seq<Event>): Candidate
    requires observations != []
  {
    Candidate(
      source := "runtime", id := RuntimeId(g), name := g.service, at := Latest(observations),
      evidence := EvidenceOf(observations),
      endpoint := Consensus(set e | e in observations && e.endpoint.Some? :: e.endpoint.value),
      namespace := OrEmpty(g.namespace), service := g.service, deployment := OrEmpty(g.deployment),
      account := ConsensusText(set e | e in observations :: e.account),
      registrationId := "", entityHint := "",
      provider := ConsensusText(set e | e in observations && e.kind == "llm_call" :: e.provider),
      framework := ConsensusText(set e | e in observations :: e.framework),
      model := ConsensusText(set e | e in observations :: e.model),
      owner := None,
      skills := {},
      tools := set e | e in observations && e.kind == "tool_call" && e.tool != "" :: e.tool,
      protocols := {})
  }

  /** The limits the candidate contract validates; over them, construction raises. */
  predicate Fits(c: Candidate) {
    && |c.evidence| <= 2000
    && |c.tools| <= 100
    && (c.endpoint.Some? ==> |c.endpoint.value.text| <= 2048)
    && forall e :: e in c.evidence ==> |e.value| <= 500
  }

  /** A server text that is no acceptable URL raises while the evidence is gathered. */
  predicate NamesUnsafeServer(e: Event) {
    e.kind == "tool_call" && e.mcpServer.Some? && !e.mcpServer.value.safe
  }

  predicate ServersSafe(observations: seq<Event>) {
    forall e :: e in observations ==> !NamesUnsafeServer(e)
  }

  function GroupsOf(events: seq<Event>): set<Group> {
    set e | e in events :: GroupOf(e)
  }

  lemma {:induction false} RememberHolds(kept: seq<Event>, e: Event)
    ensures Remember(kept, e) != []
    ensures forall x :: x in Remember(kept, e) ==> x in kept || x == e
  {
    if kept != [] {
      RememberHolds(kept[1..], e);
    }
  }

  lemma {:induction false} OfGroupHolds(events: seq<Event>, g: Group)
    ensures g in GroupsOf(events) <==> OfGroup(events, g) != []
    ensures forall x :: x in OfGroup(events, g) ==> x in events && GroupOf(x) == g
  {
    if events != [] {
      var init, last := events[..|events| - 1], events[|events| - 1];
      OfGroupHolds(init, g);
      RememberHolds(OfGroup(init, g), last);
      assert events == init + [last];
    }
  }

  lemma {:induction false} InsertEventHolds(sorted: seq<Event>, e: Event)
    ensures |InsertEvent(sorted, e)| == |sorted| + 1
    ensures forall x :: x in InsertEvent(sorted, e) <==> x in sorted || x == e
  {
    if sorted != [] {
      var init, last := sorted[..|sorted| - 1], sorted[|sorted| - 1];
      InsertEventHolds(init, e);
      assert sorted == init + [last];
    }
  }

  lemma {:induction false} SortEventsHolds(events: seq<Event>)
    ensures |SortEvents(events)| == |events|
    ensures forall x :: x in SortEvents(events) <==> x in events
  {
    if events != [] {
      var init, last := events[..|events| - 1], events[|events| - 1];
      SortEventsHolds(init);
      InsertEventHolds(SortEvents(init), last);
      assert events == init + [last];
    }
  }

  function BuildFrom(g: Group, members: seq<Event>): Candidate
    requires members != []
  {
    SortEventsHolds(members);
    Build(g, SortEvents(members))
  }

  /** The candidate of one workload. */
  function CandidateOf(events: seq<Event>, g: Group): Candidate
    requires g in GroupsOf(events)
  {
    OfGroupHolds(events, g);
    BuildFrom(g, OfGroup(events, g))
  }

  function AllCandidates(events: seq<Event>): map<Group, Candidate> {
    map g | g in GroupsOf(events) :: CandidateOf(events, g)
  }

  /**
    All candidates by workload, or None where building one raises. The source lists them in
    the order of their group keys.
   */
  function RuntimeCandidates(events: seq<Event>): Option<map<Group, Candidate>> {
    if forall g :: g in GroupsOf(events) ==> Builds(events, g) then Some(AllCandidates(events)) else None
  }

  /** Building the candidate of this workload raises nothing. */
  predicate Builds(events: seq<Event>, g: Group)
    requires g in GroupsOf(events)
  {
    ServersSafe(OfGroup(events, g)) && Fits(CandidateOf(events, g))
  }

  predicate DistinctIds(events: seq<Event>) {
    forall i, j :: 0 <= i < j < |events| ==> events[i].id != events[j].id
  }

  lemma {:induction false} RememberNewAppends(kept: seq<Event>, e: Event)
    requires forall x :: x in kept ==> x.id != e.id
    ensures Remember(kept, e) == kept + [e]
  {
    if kept != [] {
      RememberNewAppends(kept[1..], e);
    }
  }

  /** With distinct ids nothing is a retransmission: a group holds exactly its own events. */
  lemma {:induction false} DistinctGroup(events: seq<Event>, g: Group)
    requires DistinctIds(events)
    ensures DistinctIds(OfGroup(events, g))
    ensures forall x :: x in OfGroup(events, g) <==> x in events && GroupOf(x) == g
  {
    if events != [] {
      var init, last := events[..|events| - 1], events[|events| - 1];
      DistinctGroup(init, g);
      forall x | x in OfGroup(init, g) ensures x.id != last.id {
        var i :| 0 <= i < |init| && init[i] == x;
        assert events[i] == x;
      }
      RememberNewAppends(OfGroup(init, g), last);
      assert events == init + [last];
    }
  }

  predicate StrictlySorted(events: seq<Event>) {
    forall i, j :: 0 <= i < j < |events| ==> Earlier(events[i], events[j])
  }

  lemma EarlierIsOrder(a: Event, b: Event, c: Event)
    ensures !Earlier(a, a)
    ensures Earlier(a, b) && Earlier(b, c) ==> Earlier(a, c)
    ensures a.id != b.id ==> Earlier(a, b) || Earlier(b, a)
    ensures !(Earlier(a, b) && Earlier(b, a))
  {
    LessIrreflexive(a.id);
    LessTotal(a.id, b.id);
    if Less(a.id, b.id) && Less(b.id, c.id) { LessTransitive(a.id, b.id, c.id); }
    if Less(a.id, b.id) && Less(b.id, a.id) { LessTransitive(a.id, b.id, a.id); }
  }

  lemma {:induction false} InsertKeepsSorted(sorted: seq<Event>, e: Event)
    requires StrictlySorted(sorted) && forall x :: x in sorted ==> x.id != e.id
    ensures StrictlySorted(InsertEvent(sorted, e))
  {
    if sorted != [] {
      var init, last := sorted[..|sorted| - 1], sorted[|sorted| - 1];
      if Earlier(e, last) {
        InsertKeepsSorted(init, e);
        InsertEventHolds(init, e);
        var r := InsertEvent(init, e);
        forall i | 0 <= i < |r| ensures Earlier(r[i], last) {
          assert r[i] in r;
        }
      } else {
        forall i | 0 <= i < |sorted| ensures Earlier(sorted[i], e) {
          EarlierIsOrder(sorted[i], last, e);
          EarlierIsOrder(last, e, e);
          assert last in sorted;
        }
      }
    }
  }

  lemma {:induction false} SortIsStrict(events: seq<Event>)
    requires DistinctIds(events)
    ensures StrictlySorted(SortEvents(events))
  {
    if events != [] {
      var init, last := events[..|events| - 1], events[|events| - 1];
      SortIsStrict(init);
      SortEventsHolds(init);
      forall x | x in SortEvents(init) ensures x.id != last.id {
        var i :| 0 <= i < |init| && init[i] == x;
        assert events[i] == x;
      }
      InsertKeepsSorted(SortEvents(init), last);
    }
  }

  lemma {:induction false} SortedIsUnique(a: seq<Event>, b: seq<Event>)
    requires StrictlySorted(a) && StrictlySorted(b) && (forall x :: x in a <==> x in b)
    ensures a == b
  {
    if a == [] {
      assert forall i :: 0 <= i < |b| ==> b[i] in b;
    } else {
      assert a[0] in b && b != [];
      assert b[0] in a;
      EarlierIsOrder(a[0], b[0], a[0]);
      assert a[0] == b[0];
      forall x ensures x in a[1..] <==> x in b[1..] {
        EarlierIsOrder(x, x, x);
        assert a == [a[0]] + a[1..] && b == [b[0]] + b[1..];
        if x in a[1..] { assert Earlier(a[0], x); assert x in b; }
        if x in b[1..] { assert Earlier(b[0], x); assert x in a; }
      }
      SortedIsUnique(a[1..], b[1..]);
    }
  }

  lemma SameEventsSameCandidate(events: seq<Event>, other: seq<Event>, g: Group)
    requires DistinctIds(events) && DistinctIds(other) && (forall x :: x in events <==> x in other)
    requires g in GroupsOf(events)
    ensures g in GroupsOf(other) && CandidateOf(other, g) == CandidateOf(events, g)
    ensures Builds(other, g) == Builds(events, g)
  {
    hide Fits, Build;
    DistinctGroup(events, g);
    DistinctGroup(other, g);
    var a, b := OfGroup(events, g), OfGroup(other, g);
    SortIsStrict(a);
    SortIsStrict(b);
    SortEventsHolds(a);
    SortEventsHolds(b);
    SortedIsUnique(SortEvents(a), SortEvents(b));
  }

  lemma SameEventsSameCandidates(events: seq<Event>, other: seq<Event>)
    requires DistinctIds(events) && DistinctIds(other) && (forall x :: x in events <==> x in other)
    ensures GroupsOf(other) == GroupsOf(events) && AllCandidates(other) == AllCandidates(events)
    ensures forall g :: g in GroupsOf(events) ==> Builds(other, g) == Builds(events, g)
  {
    assert GroupsOf(other) == GroupsOf(events);
    hide Builds, CandidateOf;
    forall g | g in GroupsOf(events) ensures CandidateOf(other, g) == CandidateOf(events, g) && Builds(other, g) == Builds(events, g) {
      SameEventsSameCandidate(events, other, g);
    }
  }

  /** The workloads in strict order of their key's text, whatever that text is. */
  ghost predicate ListsByText(order: seq<Group>, groups: set<Group>, text: Group -> string) {
    && (set g | g in order) == groups
    && (forall i, j :: 0 <= i < j < |order| ==> Less(text(order[i]), text(order[j])))
  }

  lemma ListingHoldsAll(a: seq<Group>, groups: set<Group>, text: Group -> string)
    requires ListsByText(a, groups, text)
    ensures forall g :: g in groups <==> g in a
  {
    forall g ensures g in groups <==> g in a {
      assert g in groups <==> g in (set h | h in a);
    }
  }

  lemma {:induction false} FirstIsLeast(a: seq<Group>, groups: set<Group>, g: Group, text: Group -> string)
    requires a != [] && ListsByText(a, groups, text) && g in groups
    ensures g == a[0] || Less(text(a[0]), text(g))
  {
    ListingHoldsAll(a, groups, text);
  }

  lemma {:induction false} ListingWithoutFirst(a: seq<Group>, groups: set<Group>, text: Group -> string)
    requires a != [] && ListsByText(a, groups, text)
    ensures ListsByText(a[1..], groups - {a[0]}, text)
  {
    LessIrreflexive(text(a[0]));
    var rest := set g | g in a[1..];
    assert a == [a[0]] + a[1..];
    forall g ensures g in rest <==> g in groups - {a[0]} {
      assert g in groups <==> g in (set h | h in a);
    }
  }

  lemma {:induction false} ListingLength(a: seq<Group>, groups: set<Group>, text: Group -> string)
    requires ListsByText(a, groups, text)
    ensures |a| == |groups|
    decreases |a|
  {
    ListingHoldsAll(a, groups, text);
    if a == [] {
      assert groups == {};
    } else {
      ListingWithoutFirst(a, groups, text);
      ListingLength(a[1..], groups - {a[0]}, text);
    }
  }

  lemma {:induction false} OneListing(a: seq<Group>, b: seq<Group>, groups: set<Group>, text: Group -> string)
    requires ListsByText(a, groups, text) && ListsByText(b, groups, text)
    ensures a == b
    decreases |a|
  {
    ListingHoldsAll(a, groups, text);
    ListingHoldsAll(b, groups, text);
    ListingLength(a, groups, text);
    ListingLength(b, groups, text);
    if a != [] {
      assert a[0] in b && b[0] in a;
      FirstIsLeast(a, groups, b[0], text);
      FirstIsLeast(b, groups, a[0], text);
      LessIrreflexive(text(a[0]));
      if Less(text(a[0]), text(b[0])) && Less(text(b[0]), text(a[0])) {
        LessTransitive(text(a[0]), text(b[0]), text(a[0]));
      }
      ListingWithoutFirst(a, groups, text);
      ListingWithoutFirst(b, groups, text);
      OneListing(a[1..], b[1..], groups - {a[0]}, text);
      assert a == [a[0]] + a[1..] && b == [b[0]] + b[1..];
    }
  }

  /**
    With distinct event ids the candidates depend on which events there are and on nothing
    else: every permutation gives the same result, refusals included, and the same list,
    in whatever text the workload keys are sorted by.
   */
  lemma GroupingIsOrderFree(events: seq<Event>, other: seq<Event>)
    requires DistinctIds(events) && DistinctIds(other) && (forall x :: x in events <==> x in other)
    ensures RuntimeCandidates(other) == RuntimeCandidates(events)
    ensures forall text: Group -> string, a, b :: ListsByText(a, GroupsOf(events), text) && ListsByText(b, GroupsOf(other), text) ==> a == b
  {
    SameEventsSameCandidates(events, other);
    hide Builds, AllCandidates, ListsByText;
    forall text: Group -> string, a, b | ListsByText(a, GroupsOf(events), text) && ListsByText(b, GroupsOf(other), text) ensures a == b {
      OneListing(a, b, GroupsOf(events), text);
    }
  }

  /** How many items of a list are an event's own evidence: its id under its own kind. */
  function OwnCount(evidence: seq<Evidence>, e: Event): nat {
    if evidence == [] then 0
    else
      var last := evidence[|evidence| - 1];
      OwnCount(evidence[..|evidence| - 1], e) + (if last.eventId == e.id && last.kind == e.kind then 1 else 0)
  }

  lemma {:induction false} OwnCountAdds(a: seq<Evidence>, b: seq<Evidence>, e: Event)
    ensures OwnCount(a + b, e) == OwnCount(a, e) + OwnCount(b, e)
  {
    if b == [] {
      assert a + b == a;
    } else {
      var init := b[..|b| - 1];
      assert (a + b)[..|a + b| - 1] == a + init;
      OwnCountAdds(a, init, e);
    }
  }

  lemma {:induction false} OwnCountZero(evidence: seq<Evidence>, e: Event)
    requires forall x :: x in evidence ==> x.eventId != e.id || x.kind != e.kind
    ensures OwnCount(evidence, e) == 0
  {
    if evidence != [] {
      assert evidence[|evidence| - 1] in evidence;
      OwnCountZero(evidence[..|evidence| - 1], e);
    }
  }

  /** Side evidence is never of an event kind, so it is never mistaken for behaviour. */
  lemma SideEvidenceIsNoEventKind(e: Event, x: Evidence)
    requires x in SideEvidence(e)
    ensures x.kind !in EVENT_KINDS && x.eventId == e.id
  {
    assert x.kind == "llm_provider" || x.kind == "llm_location" || x.kind == "mcp_connection";
    assert |"llm_provider"| == 12 && |"llm_location"| == 12 && |"mcp_connection"| == 14;
    assert forall k :: k in EVENT_KINDS && |k| == 12 ==> false;
    assert forall k :: k in EVENT_KINDS && |k| == 14 ==> false;
  }

  lemma {:induction false} OneEventCounts(last: Event, e: Event)
    requires e.kind in EVENT_KINDS && (last.id == e.id ==> last == e)
    ensures OwnCount(EventEvidence(last), e) == if last == e then 1 else 0
  {
    forall x | x in SideEvidence(last) ensures x.kind != e.kind {
      SideEvidenceIsNoEventKind(last, x);
    }
    OwnCountZero(SideEvidence(last), e);
    OwnCountAdds([OwnEvidence(last)], SideEvidence(last), e);
    assert [OwnEvidence(last)][..0] == [];
    assert OwnCount([], e) == 0;
  }

  ghost predicate CountsOnce(x: Event, e: Event) {
    OwnCount(EventEvidence(x), e) == if x == e then 1 else 0
  }

  lemma {:induction false} EvidenceCounts(observations: seq<Event>, e: Event)
    requires DistinctIds(observations)
    requires forall x :: x in observations ==> CountsOnce(x, e)
    ensures OwnCount(EvidenceOf(observations), e) == if e in observations then 1 else 0
  {
    if observations != [] {
      var init, last := observations[..|observations| - 1], observations[|observations| - 1];
      assert observations == init + [last];
      EvidenceCounts(init, e);
      OwnCountAdds(EvidenceOf(init), EventEvidence(last), e);
      assert CountsOnce(last, e);
      assert last !in init by {
        assert forall i :: 0 <= i < |init| ==> observations[i].id != last.id;
      }
    }
  }

  lemma {:induction false} GroupCountsOnce(events: seq<Event>, e: Event, g: Group)
    requires DistinctIds(events) && WellKinded(events) && e in events
    ensures OwnCount(EvidenceOf(SortEvents(OfGroup(events, g))), e) == if g == GroupOf(e) then 1 else 0
  {
    var observations := SortEvents(OfGroup(events, g));
    SortedGroup(events, g);
    forall x | x in observations ensures CountsOnce(x, e) {
      if x.id == e.id {
        SameIdSameEvent(events, x, e);
      }
      OneEventCounts(x, e);
    }
    EvidenceCounts(observations, e);
  }

  /**
    Conservation: an accepted batch of distinct events gives each event exactly one evidence
    item of its own kind, in the candidate of its own workload and in no other.
   */
  lemma {:induction false} EveryEventCountsOnce(events: seq<Event>, e: Event, g: Group)
    requires DistinctIds(events) && WellKinded(events) && e in events
    requires RuntimeCandidates(events).Some? && g in RuntimeCandidates(events).value
    ensures GroupOf(e) in RuntimeCandidates(events).value
    ensures OwnCount(RuntimeCandidates(events).value[g].evidence, e) == if g == GroupOf(e) then 1 else 0
  {
    GroupCountsOnce(events, e, g);
  }

  lemma {:induction false} SortedGroup(events: seq<Event>, g: Group)
    requires DistinctIds(events)
    ensures var observations := SortEvents(OfGroup(events, g));
            && DistinctIds(observations)
            && forall x :: x in observations <==> x in events && GroupOf(x) == g
  {
    DistinctGroup(events, g);
    SortEventsHolds(OfGroup(events, g));
    SortIsStrict(OfGroup(events, g));
    var observations := SortEvents(OfGroup(events, g));
    forall i, j | 0 <= i < j < |observations| ensures observations[i].id != observations[j].id {
      EarlierIsOrder(observations[i], observations[j], observations[i]);
      assert observations[i] in observations && observations[j] in observations;
      if observations[i].id == observations[j].id {
        SameIdSameEvent(events, observations[i], observations[j]);
      }
    }
  }

  lemma SameIdSameEvent(events: seq<Event>, x: Event, y: Event)
    requires DistinctIds(events) && x in events && y in events && x.id == y.id
    ensures x == y
  {
  }

  // ------------------------------------------------------------------ which batches are refused

  /** The evidence items an event leaves: itself, and what it says of provider, location and server. */
  function Items(e: Event): nat {
    1 + (if e.kind == "llm_call" && e.provider != "" then 1 else 0)
      + (if e.kind == "llm_call" && (e.location == "local" || e.location == "external") then 1 else 0)
      + (if e.kind == "tool_call" && e.mcpServer.Some? then 1 else 0)
  }

  function ItemCount(members: seq<Event>): nat {
    if members == [] then 0 else ItemCount(members[..|members| - 1]) + Items(members[|members| - 1])
  }

  function ToolNames(members: seq<Event>): set<string> {
    set e | e in members && e.kind == "tool_call" && e.tool != "" :: e.tool
  }

  /** Every event that names an endpoint names this one. */
  predicate AgreeOnEndpoint(members: seq<Event>, endpoint: Endpoint) {
    && (exists e :: e in members && e.endpoint == Some(endpoint))
    && (forall e :: e in members ==> e.endpoint == None || e.endpoint == Some(endpoint))
  }

  /** What the event is evidence of, the tool, the model or the callee, is more than evidence may hold. */
  predicate SaysTooMuch(e: Event) {
    || (e.kind == "tool_call" && |e.tool| > 500)
    || (e.kind == "llm_call" && |e.model| > 500)
    || ((e.kind == "agent_call" || e.kind == "delegation") && |e.target| > 500)
  }

  lemma SaysTooMuchIff(e: Event)
    ensures SaysTooMuch(e) <==> |ValueOf(e)| > 500
  {
    assert |"tool_call"| == 9 && |"llm_call"| == 8 && |"agent_call"| == 10 && |"delegation"| == 10;
  }

  /** What a workload's distinct events must not add up to. */
  ghost predicate Overloaded(members: seq<Event>) {
    || ItemCount(members) > 2000
    || |ToolNames(members)| > 100
    || (exists e :: e in members && SaysTooMuch(e))
    || (exists e :: e in members && e.kind == "tool_call" && e.mcpServer.Some? && !e.mcpServer.value.safe)
    || (exists endpoint :: AgreeOnEndpoint(members, endpoint) && |endpoint.text| > 2048)
  }

  lemma {:induction false} InsertKeepsCount(sorted: seq<Event>, e: Event)
    ensures ItemCount(InsertEvent(sorted, e)) == ItemCount(sorted) + Items(e)
  {
    hide Items;
    if sorted == [] {
      assert [e][..0] == [];
    } else {
      var init, last := sorted[..|sorted| - 1], sorted[|sorted| - 1];
      if Earlier(e, last) {
        InsertKeepsCount(init, e);
        var r := InsertEvent(init, e);
        assert (r + [last])[..|r|] == r;
      } else {
        assert (sorted + [e])[..|sorted|] == sorted;
      }
    }
  }

  lemma {:induction false} SortKeepsCount(events: seq<Event>)
    ensures ItemCount(SortEvents(events)) == ItemCount(events)
  {
    if events != [] {
      SortKeepsCount(events[..|events| - 1]);
      InsertKeepsCount(SortEvents(events[..|events| - 1]), events[|events| - 1]);
    }
  }

  lemma {:induction false} EvidenceIsCounted(observations: seq<Event>)
    ensures |EvidenceOf(observations)| == ItemCount(observations)
  {
    if observations != [] {
      EvidenceIsCounted(observations[..|observations| - 1]);
      EvidenceUnfolds(observations);
      SideValuesFit(observations[|observations| - 1]);
      hide EvidenceOf, EventEvidence, Items;
    }
  }

  ghost predicate ValuesFit(evidence: seq<Evidence>) {
    forall x :: x in evidence ==> |x.value| <= 500
  }

  lemma ValuesFitJoin(a: seq<Evidence>, e: Event)
    ensures ValuesFit(a + EventEvidence(e)) <==> ValuesFit(a) && |ValueOf(e)| <= 500
  {
    SideValuesFit(e);
    hide ValueOf, SideEvidence;
    var all := a + EventEvidence(e);
    assert all[|a|] == OwnEvidence(e);
    forall x | x in a ensures x in all {}
  }

  ghost predicate OwnValuesFit(observations: seq<Event>) {
    forall e :: e in observations ==> |ValueOf(e)| <= 500
  }

  lemma OwnValuesFitJoin(init: seq<Event>, last: Event)
    ensures OwnValuesFit(init + [last]) <==> OwnValuesFit(init) && |ValueOf(last)| <= 500
  {
    hide ValueOf;
    assert (init + [last])[|init|] == last;
    forall e | e in init ensures e in init + [last] {}
  }

  /** The side values are cut or short, so only an event's own value can be too long. */
  lemma {:induction false} LongValuesAreOwn(observations: seq<Event>)
    ensures ValuesFit(EvidenceOf(observations)) <==> OwnValuesFit(observations)
  {
    if observations != [] {
      var init, last := observations[..|observations| - 1], observations[|observations| - 1];
      LongValuesAreOwn(init);
      EvidenceUnfolds(observations);
      assert observations == init + [last];
      hide EvidenceOf, EventEvidence, ValueOf, ValuesFit, OwnValuesFit;
      ValuesFitJoin(EvidenceOf(init), last);
      OwnValuesFitJoin(init, last);
    }
  }

  lemma {:induction false} EvidenceUnfolds(observations: seq<Event>)
    requires observations != []
    ensures EvidenceOf(observations) == EvidenceOf(observations[..|observations| - 1]) + EventEvidence(observations[|observations| - 1])
  {
    hide EventEvidence;
  }

  lemma SideValuesFit(e: Event)
    ensures |EventEvidence(e)| == Items(e)
    ensures forall x :: x in SideEvidence(e) ==> |x.value| <= 500
  {
    assert |"local"| == 5 && |"external"| == 8;
  }

  lemma {:induction false} ConsensusIsAgreement(members: seq<Event>, endpoint: Endpoint)
    ensures Consensus(set e | e in members && e.endpoint.Some? :: e.endpoint.value) == Some(endpoint) <==> AgreeOnEndpoint(members, endpoint)
  {
    var seen := set e | e in members && e.endpoint.Some? :: e.endpoint.value;
    assert Consensus(seen) == Some(endpoint) <==> seen == {endpoint} by {
      assert seen == {endpoint} ==> endpoint in seen;
    }
    if AgreeOnEndpoint(members, endpoint) {
      assert seen == {endpoint};
    }
    if seen == {endpoint} {
      assert endpoint in seen;
      forall e | e in members ensures e.endpoint == None || e.endpoint == Some(endpoint) {
        assert e.endpoint.Some? ==> e.endpoint.value in seen;
      }
    }
  }

  lemma {:induction false} FitsIff(g: Group, observations: seq<Event>)
    requires observations != []
    ensures ServersSafe(observations) && Fits(Build(g, observations)) <==> !Overloaded(observations)
  {
    EvidenceIsCounted(observations);
    LongValuesAreOwn(observations);
    var endpoint := Build(g, observations).endpoint;
    if endpoint.Some? {
      ConsensusIsAgreement(observations, endpoint.value);
    }
    forall other | AgreeOnEndpoint(observations, other) ensures endpoint == Some(other) {
      ConsensusIsAgreement(observations, other);
    }
    forall e | e in observations ensures SaysTooMuch(e) <==> |ValueOf(e)| > 500 {
      SaysTooMuchIff(e);
    }
    hide ValueOf, SaysTooMuch, AgreeOnEndpoint, EvidenceOf, ItemCount, Consensus, ConsensusText, Latest;
  }

  lemma {:induction false} SameMembersSameLoad(a: seq<Event>, b: seq<Event>)
    requires (forall x :: x in a <==> x in b) && ItemCount(a) == ItemCount(b)
    ensures Overloaded(a) == Overloaded(b)
  {
    hide SaysTooMuch, ItemCount;
    assert ToolNames(a) == ToolNames(b);
    assert forall endpoint :: AgreeOnEndpoint(a, endpoint) == AgreeOnEndpoint(b, endpoint);
  }

  lemma {:induction false} BuildsIff(events: seq<Event>, g: Group)
    requires g in GroupsOf(events)
    ensures Builds(events, g) <==> !Overloaded(OfGroup(events, g))
  {
    var members := OfGroup(events, g);
    OfGroupHolds(events, g);
    SortEventsHolds(members);
    SortKeepsCount(members);
    assert ServersSafe(members) == ServersSafe(SortEvents(members));
    hide Overloaded, Fits, Build, ServersSafe, OfGroup, ItemCount, SortEvents;
    FitsIff(g, SortEvents(members));
    SameMembersSameLoad(members, SortEvents(members));
  }

  /**
    One workload can refuse the events of all: no candidate comes out of a batch exactly when
    some workload's distinct events leave more than two thousand items of evidence, name more
    than a hundred tools, or one of them carries a value over five hundred characters or an
    unacceptable server, or they agree on an endpoint of more than 2048 characters.
   */
  lemma {:induction false} BatchIsRefusedIff(events: seq<Event>)
    ensures RuntimeCandidates(events) == None <==> exists g :: g in GroupsOf(events) && Overloaded(OfGroup(events, g))
  {
    hide Builds, Overloaded, AllCandidates, OfGroup;
    forall g | g in GroupsOf(events) ensures Builds(events, g) <==> !Overloaded(OfGroup(events, g)) {
      BuildsIff(events, g);
    }
  }

  /** So more than two thousand retained events of one workload are always too many. */
  lemma {:induction false} BusyWorkloadRefusesTheBatch(events: seq<Event>, g: Group)
    requires |OfGroup(events, g)| > 2000
    ensures RuntimeCandidates(events) == None
  {
    OfGroupHolds(events, g);
    hide Overloaded, OfGroup;
    BatchIsRefusedIff(events);
    EachEventIsAnItem(OfGroup(events, g));
    assert g in GroupsOf(events) && Overloaded(OfGroup(events, g)) by { ManyItemsOverload(OfGroup(events, g)); }
  }

  lemma {:induction false} ManyItemsOverload(members: seq<Event>)
    requires ItemCount(members) > 2000
    ensures Overloaded(members)
  {
  }

  lemma {:induction false} EachEventIsAnItem(members: seq<Event>)
    ensures ItemCount(members) >= |members|
  {
    if members != [] {
      EachEventIsAnItem(members[..|members| - 1]);
    }
  }

  predicate PlainGroup(g: Group) {
    && '|' !in g.service && '|' !in OrEmpty(g.namespace)
    && g.namespace != Some("") && g.deployment != Some("")
  }

  /** Two workloads share a candidate id only through bars or empty names in their own fields. */
  lemma RuntimeIdInjective(g: Group, h: Group)
    requires PlainGroup(g) && PlainGroup(h)
    ensures RuntimeId(g) == RuntimeId(h) <==> g == h
  {
    var a := JoinKey(g.service, JoinKey(OrEmpty(g.namespace), OrEmpty(g.deployment)));
    var b := JoinKey(h.service, JoinKey(OrEmpty(h.namespace), OrEmpty(h.deployment)));
    assert RuntimeId(g)[8..] == a && RuntimeId(h)[8..] == b;
    JoinKeyInjective(g.service, JoinKey(OrEmpty(g.namespace), OrEmpty(g.deployment)),
                     h.service, JoinKey(OrEmpty(h.namespace), OrEmpty(h.deployment)));
    JoinKeyInjective(OrEmpty(g.namespace), OrEmpty(g.deployment), OrEmpty(h.namespace), OrEmpty(h.deployment));
  }

  /** Service names are free text, so distinct workloads can collide on one candidate id. */
  lemma RuntimeIdsCanCollide()
    ensures var g, h := Group("a|b", Some("c"), None), Group("a", Some("b|c"), None);
            g != h && RuntimeId(g) == RuntimeId(h)
  {
    var g, h := Group("a|b", Some("c"), None), Group("a", Some("b|c"), None);
    assert RuntimeId(g) == "runtime|a|b|c|" == RuntimeId(h);
  }

  lemma {:induction false} GroupGrows(events: seq<Event>, e: Event, g: Group)
    ensures GroupsOf(events + [e]) == GroupsOf(events) + {GroupOf(e)}
    ensures OfGroup(events + [e], g) ==
            if GroupOf(e) != g then OfGroup(events, g)
            else Remember(if g in GroupsOf(events) then OfGroup(events, g) else [], e)
  {
    assert (events + [e])[..|events|] == events;
    OfGroupHolds(events, g);
  }

  lemma {:induction false} BuildsUnfolds(events: seq<Event>, g: Group)
    requires g in GroupsOf(events)
    ensures OfGroup(events, g) != []
    ensures Builds(events, g) == (ServersSafe(OfGroup(events, g)) && Fits(BuildFrom(g, OfGroup(events, g))))
  {
    OfGroupHolds(events, g);
    hide BuildFrom, Fits, ServersSafe, OfGroup;
  }

  lemma {:induction false} GroupsBuildTheCandidates(events: seq<Event>, groups: map<Group, seq<Event>>)
    requires groups.Keys == GroupsOf(events)
    requires forall g :: g in groups ==> groups[g] == OfGroup(events, g)
    ensures forall g :: g in groups ==> groups[g] != []
    ensures (map g | g in groups :: BuildFrom(g, groups[g])) == AllCandidates(events)
    ensures (forall g :: g in groups ==> ServersSafe(groups[g]) && Fits(BuildFrom(g, groups[g]))) <==> RuntimeCandidates(events).Some?
  {
    forall g | g in groups ensures groups[g] != [] {
      OfGroupHolds(events, g);
    }
    hide BuildFrom, Fits, ServersSafe, OfGroup, Builds;
    forall g | g in groups ensures Builds(events, g) == (ServersSafe(groups[g]) && Fits(BuildFrom(g, groups[g]))) {
      BuildsUnfolds(events, g);
    }
  }

  /** The loop over events that fills the dictionary of dictionaries. */
  method FillGroups(events: seq<Event>) returns (groups: map<Group, seq<Event>>)
    ensures groups.Keys == GroupsOf(events)
    ensures forall g :: g in groups ==> groups[g] == OfGroup(events, g)
  {
    groups := map[];
    for i := 0 to |events|
      invariant groups.Keys == GroupsOf(events[..i])
      invariant forall g :: g in groups ==> groups[g] == OfGroup(events[..i], g)
    {
      var e := events[i];
      var g := GroupOf(e);
      assert events[..i + 1] == events[..i] + [e];
      GroupGrows(events[..i], e, g);
      forall h | h in GroupsOf(events[..i]) ensures h != g ==> OfGroup(events[..i + 1], h) == OfGroup(events[..i], h) {
        GroupGrows(events[..i], e, h);
      }
      groups := groups[g := Remember(if g in groups then groups[g] else [], e)];
    }
    assert events[..|events|] == events;
  }

  /** One candidate a group; the first unsafe server or exceeded limit raises. */
  method BuildAll(groups: map<Group, seq<Event>>) returns (candidates: Option<map<Group, Candidate>>)
    requires forall g :: g in groups ==> groups[g] != []
    ensures candidates.Some? <==> forall g :: g in groups ==> ServersSafe(groups[g]) && Fits(BuildFrom(g, groups[g]))
    ensures candidates.Some? ==> candidates.value == map g | g in groups :: BuildFrom(g, groups[g])
  {
    hide BuildFrom, Fits, ServersSafe;
    var built: map<Group, Candidate> := map[];
    var todo := groups.Keys;
    while todo != {}
      invariant todo <= groups.Keys && built.Keys == groups.Keys - todo
      invariant forall g :: g in built ==> built[g] == BuildFrom(g, groups[g]) && ServersSafe(groups[g]) && Fits(built[g])
      decreases todo
    {
      var g :| g in todo;
      if !ServersSafe(groups[g]) {
        return None;
      }
      var candidate := BuildFrom(g, groups[g]);
      if !Fits(candidate) {
        return None;
      }
      built := built[g := candidate];
      todo := todo - {g};
    }
    candidates := Some(built);
  }

  method GroupRuntimeEvents(events: seq<Event>) returns (candidates: Option<map<Group, Candidate>>)
    ensures candidates == RuntimeCandidates(events)
  {
    hide Builds;
    var groups := FillGroups(events);
    GroupsBuildTheCandidates(events, groups);
    candidates := BuildAll(groups);
  }
}
