/**
  The values the Census passes between its stages. A string field is "" where the source
  has None or an empty string and only ever asks for truth.
 */
module CensusModel {
  import opened Options
  import opened EvidenceMerge

  /** A URL as it was written, and what it parses to; `port` is 0 when it names none. */
  datatype Endpoint = Endpoint(text: string, scheme: string, host: string, port: nat, path: string)

  predicate PlainSource(source: string) {
    '|' !in source
  }

  /** The names that adapters give their candidates are constants, and none has a bar. */
  type SourceName = source: string | PlainSource(source) witness ""

  datatype Candidate = Candidate(
    source: SourceName,
    id: string,
    name: string,
    at: int,
    evidence: seq<Evidence>,
    endpoint: Option<Endpoint>,
    namespace: string,
    service: string,
    deployment: string,
    account: string,
    registrationId: string,
    entityHint: string,
    provider: string,
    framework: string,
    model: string,
    owner: Option<string>,
    skills: set<string>,
    tools: set<string>,
    protocols: set<string>)

  /** The `|`-joined text whose digest is a table key; the digest itself is injective. */
  function JoinKey(source: string, id: string): string {
    source + "|" + id
  }

  /**
    Two observations share a row key exactly when they share source and candidate id,
    because no source name contains a bar.
   */
  lemma {:induction false} JoinKeyInjective(source: string, id: string, source': string, id': string)
    requires PlainSource(source) && PlainSource(source')
    ensures JoinKey(source, id) == JoinKey(source', id') <==> source == source' && id == id'
  {
    var a, b := JoinKey(source, id), JoinKey(source', id');
    assert a[..|source|] == source && a[|source|] == '|' && a[|source| + 1..] == id;
    assert b[..|source'|] == source' && b[|source'|] == '|' && b[|source'| + 1..] == id';
    if |source| < |source'| {
      assert b[|source|] == source'[|source|];
    } else if |source'| < |source| {
      assert a[|source'|] == source[|source'|];
    }
  }

  /** The bar matters: with one in a source name, different keys collide. */
  lemma BarredSourcesCollide()
    ensures JoinKey("a|b", "c") == JoinKey("a", "b|c")
  {
    assert JoinKey("a|b", "c") == "a|b|c" == JoinKey("a", "b|c");
  }

  function Evidences(candidates: seq<Candidate>): (lists: seq<seq<Evidence>>)
    ensures |lists| == |candidates|
    ensures forall i :: 0 <= i < |candidates| ==> lists[i] == candidates[i].evidence
  {
    seq(|candidates|, i requires 0 <= i < |candidates| => candidates[i].evidence)
  }

  lemma {:induction false} FlattenComesFrom(lists: seq<seq<Evidence>>, x: Evidence) returns (i: nat)
    requires x in Flatten(lists)
    ensures i < |lists| && x in lists[i]
  {
    var init, last := lists[..|lists| - 1], lists[|lists| - 1];
    if x in last {
      i := |lists| - 1;
    } else {
      i := FlattenComesFrom(init, x);
    }
  }

  lemma {:induction false} FlattenIncludes(lists: seq<seq<Evidence>>, i: nat, x: Evidence)
    requires i < |lists| && x in lists[i]
    ensures x in Flatten(lists)
  {
    if i < |lists| - 1 {
      FlattenIncludes(lists[..|lists| - 1], i, x);
    }
  }

  function MergedEvidence(candidates: seq<Candidate>): seq<Evidence> {
    Merge(Flatten(Evidences(candidates)))
  }

  function KindsOf(evidence: seq<Evidence>): set<string> {
    set e | e in evidence :: e.kind
  }

  lemma ObservedKindIsMerged(candidates: seq<Candidate>, c: Candidate, kind: string)
    requires c in candidates && kind in KindsOf(c.evidence)
    ensures kind in KindsOf(MergedEvidence(candidates))
  {
    var lists := Evidences(candidates);
    var i :| 0 <= i < |candidates| && candidates[i] == c;
    var x: Evidence :| x in lists[i] && x.kind == kind;
    FlattenIncludes(lists, i, x);
    var y := MergeKeepsKind(Flatten(lists), x);
  }

  lemma MergedKindIsObserved(candidates: seq<Candidate>, kind: string)
    requires kind in KindsOf(MergedEvidence(candidates))
    ensures exists c :: c in candidates && kind in KindsOf(c.evidence)
  {
    var lists := Evidences(candidates);
    var y :| y in MergedEvidence(candidates) && y.kind == kind;
    MergeInventsNothing(Flatten(lists), y);
    var i := FlattenComesFrom(lists, y);
    assert candidates[i] in candidates && y in candidates[i].evidence;
  }

  ghost predicate Observes(candidates: seq<Candidate>, kind: string) {
    exists c :: c in candidates && kind in KindsOf(c.evidence)
  }

  /** Merging loses no kind: what is classified is what the candidates observed. */
  lemma KindsOfMerged(candidates: seq<Candidate>)
    ensures forall kind :: kind in KindsOf(MergedEvidence(candidates)) <==> Observes(candidates, kind)
  {
    forall kind ensures kind in KindsOf(MergedEvidence(candidates)) <==> Observes(candidates, kind) {
      if kind in KindsOf(MergedEvidence(candidates)) {
        MergedKindIsObserved(candidates, kind);
      }
      if Observes(candidates, kind) {
        var c :| c in candidates && kind in KindsOf(c.evidence);
        ObservedKindIsMerged(candidates, c, kind);
      }
    }
  }
}
