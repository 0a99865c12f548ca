/**
  Merging evidence: retransmissions are dropped, provenance is kept, and the result is a
  sorted list that does not depend on how the evidence was gathered.
 */
module EvidenceMerge {
  import opened TextOrder

  /** `eventId` and `value` are "" where the source has no event id or an empty value. */
  datatype Evidence = Evidence(at: int, source: string, kind: string, eventId: string, value: string)

  datatype Key =
    | ByEvent(source: string, eventId: string, kind: string)
    | ByContent(source: string, kind: string, value: string, at: int)

  function KeyOf(e: Evidence): Key {
    if e.eventId != "" then ByEvent(e.source, e.eventId, e.kind)
    else ByContent(e.source, e.kind, e.value, e.at)
  }

  type Found = map<Key, Evidence>

  /** One turn of the loop: the earliest observation of a key wins, the first one on a tie. */
  function Keep(found: Found, e: Evidence): Found {
    if KeyOf(e) !in found || e.at < found[KeyOf(e)].at then found[KeyOf(e) := e] else found
  }

  function Collect(items: seq<Evidence>): Found {
    if items == [] then map[] else Keep(Collect(items[..|items| - 1]), items[|items| - 1])
  }

  /** The sort key of the source: time, source, kind, event id, value. */
  predicate Before(a: Evidence, b: Evidence) {
    if a.at != b.at then a.at < b.at
    else if a.source != b.source then Less(a.source, b.source)
    else if a.kind != b.kind then Less(a.kind, b.kind)
    else if a.eventId != b.eventId then Less(a.eventId, b.eventId)
    else Less(a.value, b.value)
  }

  lemma BeforeIsStrictOrder(a: Evidence, b: Evidence, c: Evidence)
    ensures !Before(a, a)
    ensures Before(a, b) && Before(b, c) ==> Before(a, c)
    ensures Before(a, b) || a == b || Before(b, a)
  {
    LessIrreflexive(a.value);
    LessTotal(a.source, b.source);
    LessTotal(a.kind, b.kind);
    LessTotal(a.eventId, b.eventId);
    LessTotal(a.value, b.value);
    if Before(a, b) && Before(b, c) && a.at == b.at == c.at {
      BeforeTransitiveAtOneTime(a, b, c);
    }
  }

  lemma BeforeTransitiveAtOneTime(a: Evidence, b: Evidence, c: Evidence)
    requires a.at == b.at == c.at && Before(a, b) && Before(b, c)
    ensures Before(a, c)
  {
    TransitiveOrEqual(a.source, b.source, c.source);
    TransitiveOrEqual(a.kind, b.kind, c.kind);
    TransitiveOrEqual(a.eventId, b.eventId, c.eventId);
    TransitiveOrEqual(a.value, b.value, c.value);
  }

  lemma {:induction false} TransitiveOrEqual(a: string, b: string, c: string)
    ensures Less(a, b) && Less(b, c) ==> Less(a, c) && a != c
  {
    LessIrreflexive(a);
    if Less(a, b) && Less(b, c) {
      LessTransitive(a, b, c);
    }
  }

  predicate Sorted(items: seq<Evidence>) {
    forall i, j :: 0 <= i < j < |items| ==> Before(items[i], items[j])
  }

  predicate IsLeast(e: Evidence, s: set<Evidence>) {
    e in s && forall x :: x in s && x != e ==> Before(e, x)
  }

  lemma {:induction false} LeastExists(s: set<Evidence>) returns (least: Evidence)
    requires s != {}
    ensures IsLeast(least, s)
  {
    var e :| e in s;
    if s == {e} {
      least := e;
    } else {
      var rest := LeastExists(s - {e});
      BeforeIsStrictOrder(e, rest, e);
      least := if Before(e, rest) then e else rest;
      forall x | x in s && x != least ensures Before(least, x) {
        BeforeIsStrictOrder(e, rest, x);
      }
    }
  }

  lemma SomethingIsLeast(s: set<Evidence>)
    requires s != {}
    ensures exists e :: IsLeast(e, s)
    ensures forall x, y :: IsLeast(x, s) && IsLeast(y, s) ==> x == y
  {
    var least := LeastExists(s);
    forall x, y | IsLeast(x, s) && IsLeast(y, s) ensures x == y {
      BeforeIsStrictOrder(x, y, x);
    }
  }

  /** The sorted list of a finite set of evidence: Python's `sorted` with the sort key above. */
  function InOrder(s: set<Evidence>): (r: seq<Evidence>)
    ensures Sorted(r) && (forall x :: x in r <==> x in s)
  {
    if s == {} then [] else
      SomethingIsLeast(s);
      var e :| IsLeast(e, s);
      [e] + InOrder(s - {e})
  }

  lemma {:induction false} SortedListsAreEqual(a: seq<Evidence>, b: seq<Evidence>)
    requires Sorted(a) && Sorted(b) && (forall x :: x in a <==> x in b)
    ensures a == b
  {
    if a == [] {
      assert forall i :: 0 <= i < |b| ==> b[i] in b;
    } else {
      assert a[0] in b && b != [];
      assert b[0] in a;
      BeforeIsStrictOrder(a[0], b[0], a[0]);
      assert a[0] == b[0];
      forall x ensures x in a[1..] <==> x in b[1..] {
        BeforeIsStrictOrder(x, x, x);
        assert a == [a[0]] + a[1..] && b == [b[0]] + b[1..];
        if x in a[1..] { assert Before(a[0], x); assert x in b; }
        if x in b[1..] { assert Before(b[0], x); assert x in a; }
      }
      SortedListsAreEqual(a[1..], b[1..]);
    }
  }

  /** What the merge promises: the kept observation of every key, in order. */
  function Merge(items: seq<Evidence>): (r: seq<Evidence>)
    ensures Sorted(r) && (forall x :: x in r <==> x in Collect(items).Values)
  {
    InOrder(Collect(items).Values)
  }

  ghost predicate KeyedByItself(found: Found) {
    forall k :: k in found ==> KeyOf(found[k]) == k
  }

  lemma {:induction false} CollectKeys(items: seq<Evidence>)
    ensures KeyedByItself(Collect(items))
    ensures forall k :: k in Collect(items) ==> Collect(items)[k] in items
    ensures forall x :: x in items ==> KeyOf(x) in Collect(items) && Collect(items)[KeyOf(x)].at <= x.at
  {
    if items != [] {
      CollectKeys(items[..|items| - 1]);
      assert items == items[..|items| - 1] + [items[|items| - 1]];
    }
  }

  /** No kind of evidence is lost by the merge, and nothing is invented. */
  lemma MergeKeepsKind(items: seq<Evidence>, x: Evidence) returns (y: Evidence)
    requires x in items
    ensures y in Merge(items) && KeyOf(y) == KeyOf(x) && y.kind == x.kind && y.at <= x.at
  {
    CollectKeys(items);
    y := Collect(items)[KeyOf(x)];
    assert y in Collect(items).Values;
  }

  lemma MergeInventsNothing(items: seq<Evidence>, y: Evidence)
    requires y in Merge(items)
    ensures y in items
  {
    CollectKeys(items);
  }

  /** Two found-maps merged: the right one wins only where it is strictly earlier. */
  function Join(left: Found, right: Found): Found {
    map k | k in left.Keys + right.Keys ::
      if k !in left || (k in right && right[k].at < left[k].at) then right[k] else left[k]
  }

  lemma {:induction false} KeepAfterJoin(left: Found, right: Found, e: Evidence)
    ensures Keep(Join(left, right), e) == Join(left, Keep(right, e))
  {
  }

  lemma {:induction false} CollectIsHomomorphism(a: seq<Evidence>, b: seq<Evidence>)
    ensures Collect(a + b) == Join(Collect(a), Collect(b))
  {
    if b == [] {
      assert a + b == a;
      assert Collect(a) == Join(Collect(a), map[]);
    } else {
      var init, last := b[..|b| - 1], b[|b| - 1];
      assert (a + b)[..|a + b| - 1] == a + init;
      CollectIsHomomorphism(a, init);
      KeepAfterJoin(Collect(a), Collect(init), last);
      hide Keep, Join;
    }
  }

  /** A duplicate-free listing of a found-map collects back to that map, in any order. */
  lemma {:induction false} CollectOfListing(listing: seq<Evidence>, found: Found)
    requires KeyedByItself(found)
    requires forall x :: x in listing ==> x in found.Values
    ensures forall k :: k in Collect(listing) ==> k in found && Collect(listing)[k] == found[k]
    ensures (forall x :: x in found.Values ==> x in listing) ==> Collect(listing) == found
  {
    CollectKeys(listing);
    forall k | k in Collect(listing) ensures k in found && Collect(listing)[k] == found[k] {
      var e := Collect(listing)[k];
      assert e in found.Values;
      var k' :| k' in found && found[k'] == e;
      assert KeyOf(e) == k' == k;
    }
    if forall x :: x in found.Values ==> x in listing {
      forall k | k in found ensures k in Collect(listing) {
        assert found[k] in found.Values;
        assert found[k] in listing;
      }
      assert Collect(listing).Keys == found.Keys;
    }
  }

  lemma {:induction false} CollectOfMerge(items: seq<Evidence>)
    ensures Collect(Merge(items)) == Collect(items)
  {
    CollectKeys(items);
    CollectOfListing(Merge(items), Collect(items));
  }

  /**
    Merging two merged lists is merging all raw evidence at once, and merging again changes
    nothing: a registry may store merged evidence and go on merging.
   */
  lemma MergeIsHomomorphism(a: seq<Evidence>, b: seq<Evidence>)
    ensures Merge(Merge(a) + Merge(b)) == Merge(a + b)
    ensures Merge(Merge(a)) == Merge(a)
  {
    CollectIsHomomorphism(Merge(a), Merge(b));
    CollectIsHomomorphism(a, b);
    CollectOfMerge(a);
    CollectOfMerge(b);
    SortedListsAreEqual(Merge(Merge(a) + Merge(b)), Merge(a + b));
    SortedListsAreEqual(Merge(Merge(a)), Merge(a));
  }

  ghost predicate Earliest(items: seq<Evidence>, e: Evidence) {
    e in items && forall x :: x in items && KeyOf(x) == KeyOf(e) ==> e.at <= x.at
  }

  /** Equal keys with equal earliest times carry equal items. */
  ghost predicate TiesAgree(items: seq<Evidence>) {
    forall x, y :: Earliest(items, x) && Earliest(items, y) && KeyOf(x) == KeyOf(y) ==> x == y
  }

  lemma {:induction false} CollectIsEarliest(items: seq<Evidence>)
    ensures forall k :: k in Collect(items) ==> Earliest(items, Collect(items)[k])
  {
    CollectKeys(items);
    forall k | k in Collect(items) ensures Earliest(items, Collect(items)[k]) {
      assert KeyOf(Collect(items)[k]) == k;
    }
  }

  /** A key's winner is pinned down by the set of items alone once ties agree. */
  lemma {:induction false} CollectOfSameItems(items: seq<Evidence>, reordered: seq<Evidence>, k: Key)
    requires (forall x :: x in items <==> x in reordered) && TiesAgree(items)
    requires k in Collect(items)
    ensures k in Collect(reordered) && Collect(reordered)[k] == Collect(items)[k]
  {
    CollectKeys(items);
    CollectKeys(reordered);
    var x := Collect(items)[k];
    assert x in reordered;
    CollectIsEarliest(items);
    CollectIsEarliest(reordered);
    var y := Collect(reordered)[k];
    assert Earliest(items, x) && Earliest(items, y) && KeyOf(x) == KeyOf(y);
  }

  lemma AgreeingTiesIgnoreOrder(items: seq<Evidence>, reordered: seq<Evidence>)
    requires multiset(items) == multiset(reordered) && TiesAgree(items)
    ensures Merge(items) == Merge(reordered)
  {
    assert forall x :: x in items <==> x in multiset(items);
    assert forall x :: x in reordered <==> x in multiset(reordered);
    var found, found' := Collect(items), Collect(reordered);
    forall k | k in found ensures k in found' && found'[k] == found[k] {
      CollectOfSameItems(items, reordered, k);
    }
    forall k | k in found' ensures k in found {
      CollectKeys(items);
      CollectKeys(reordered);
    }
    assert found == found';
  }

  /** The observation put in front wins its key whenever it is among the earliest. */
  lemma {:induction false} FrontWins(e: Evidence, rest: seq<Evidence>)
    requires Earliest([e] + rest, e)
    ensures KeyOf(e) in Collect([e] + rest) && Collect([e] + rest)[KeyOf(e)] == e
  {
    if rest == [] {
      assert ([e] + rest)[..0] == [];
      assert Collect([]) == map[];
    } else {
      var init, last := rest[..|rest| - 1], rest[|rest| - 1];
      assert ([e] + rest)[..|[e] + rest| - 1] == [e] + init;
      assert forall x :: x in [e] + init ==> x in [e] + rest;
      assert last in [e] + rest;
      FrontWins(e, init);
    }
  }

  lemma BringToFront(items: seq<Evidence>, e: Evidence) returns (rest: seq<Evidence>)
    requires e in items
    ensures multiset([e] + rest) == multiset(items)
  {
    var i :| 0 <= i < |items| && items[i] == e;
    rest := items[..i] + items[i + 1..];
    assert items == items[..i] + [e] + items[i + 1..];
  }

  lemma {:induction false} DifferentWinnersShow(a: seq<Evidence>, b: seq<Evidence>, k: Key)
    requires k in Collect(a) && k in Collect(b) && Collect(a)[k] != Collect(b)[k]
    ensures Merge(a) != Merge(b)
  {
    CollectKeys(a);
    CollectKeys(b);
    var x := Collect(a)[k];
    assert x in Collect(a).Values && x in Merge(a);
    assert KeyOf(x) == k && KeyedByItself(Collect(b));
    assert x !in Collect(b).Values;
  }

  lemma DisagreeingTiesShow(items: seq<Evidence>) returns (xFirst: seq<Evidence>, yFirst: seq<Evidence>)
    requires !TiesAgree(items)
    ensures multiset(xFirst) == multiset(yFirst) == multiset(items)
    ensures Merge(xFirst) != Merge(yFirst)
  {
    var x, y :| Earliest(items, x) && Earliest(items, y) && KeyOf(x) == KeyOf(y) && x != y;
    var withoutX := BringToFront(items, x);
    var withoutY := BringToFront(items, y);
    xFirst, yFirst := [x] + withoutX, [y] + withoutY;
    assert forall z :: z in items <==> z in multiset(items);
    assert forall z :: z in xFirst <==> z in multiset(xFirst);
    assert forall z :: z in yFirst <==> z in multiset(yFirst);
    FrontWins(x, withoutX);
    FrontWins(y, withoutY);
    DifferentWinnersShow(xFirst, yFirst, KeyOf(x));
  }

  /**
    The merge is the same for every order of the evidence exactly when tied observations
    agree; and they always do where no item has an event id.
   */
  lemma OrderFreeIffTiesAgree(items: seq<Evidence>)
    ensures TiesAgree(items) <==>
            (forall other: seq<Evidence> :: multiset(other) == multiset(items) ==> Merge(other) == Merge(items))
    ensures (forall x :: x in items ==> x.eventId == "") ==> TiesAgree(items)
  {
    if forall x :: x in items ==> x.eventId == "" {
      OnlyEventIdsCanDisagree(items);
    }
    if TiesAgree(items) {
      forall other: seq<Evidence> | multiset(other) == multiset(items) ensures Merge(other) == Merge(items) {
        AgreeingTiesIgnoreOrder(items, other);
      }
    } else {
      var xFirst, yFirst := DisagreeingTiesShow(items);
    }
  }

  /** Only evidence with an event id can disagree: a key without one fixes every field. */
  lemma OnlyEventIdsCanDisagree(items: seq<Evidence>)
    requires forall x :: x in items ==> x.eventId == ""
    ensures TiesAgree(items)
  {
    forall x, y | Earliest(items, x) && Earliest(items, y) && KeyOf(x) == KeyOf(y) ensures x == y {
      assert x.eventId == y.eventId == "";
    }
  }

  /** All evidence of a list of candidates, in order. */
  function Flatten(lists: seq<seq<Evidence>>): seq<Evidence> {
    if lists == [] then [] else Flatten(lists[..|lists| - 1]) + lists[|lists| - 1]
  }

  lemma {:induction false} CollectOneMore(before: seq<Evidence>, list: seq<Evidence>, j: nat)
    requires j < |list|
    ensures Collect(before + list[..j + 1]) == Keep(Collect(before + list[..j]), list[j])
  {
    hide Keep;
    assert (before + list[..j + 1])[..|before| + j] == before + list[..j];
  }

  lemma {:induction false} FlattenOneMore(lists: seq<seq<Evidence>>, i: nat)
    requires i < |lists|
    ensures Flatten(lists[..i + 1]) == Flatten(lists[..i]) + lists[i]
  {
    assert lists[..i + 1][..i] == lists[..i];
  }

  /** The two nested loops over candidates and their evidence, then the sort. */
  method MergeEvidence(lists: seq<seq<Evidence>>) returns (merged: seq<Evidence>)
    ensures merged == Merge(Flatten(lists))
  {
    var found: Found := map[];
    assert lists[..0] == [];
    for i := 0 to |lists|
      invariant found == Collect(Flatten(lists[..i]))
    {
      ghost var before := Flatten(lists[..i]);
      FlattenOneMore(lists, i);
      assert before + lists[i][..0] == before && lists[i][..|lists[i]|] == lists[i];
      hide Keep, Collect, Flatten;
      for j := 0 to |lists[i]|
        invariant found == Collect(before + lists[i][..j])
      {
        CollectOneMore(before, lists[i], j);
        found := Keep(found, lists[i][j]);
      }
    }
    assert lists[..|lists|] == lists;
    merged := InOrder(found.Values);
  }

  // ------------------------------------------------------------ what a merged list holds

  /** The same report: of one event, or, where no event is named, of the same thing at the same time. */
  predicate SameReport(a: Evidence, b: Evidence) {
    && a.source == b.source && a.kind == b.kind && a.eventId == b.eventId
    && (a.eventId == "" ==> a.value == b.value && a.at == b.at)
  }

  /** The earliest of all its reports, and the first of these. */
  ghost predicate Prevails(items: seq<Evidence>, i: nat) {
    i < |items| && forall j :: 0 <= j < |items| && SameReport(items[j], items[i]) ==>
      items[i].at < items[j].at || (items[i].at == items[j].at && i <= j)
  }

  lemma SameReportIff(a: Evidence, b: Evidence)
    ensures SameReport(a, b) <==> KeyOf(a) == KeyOf(b)
  {
  }

  /** Each key of the dictionary holds a report that prevails. */
  lemma {:induction false} CollectedPrevails(items: seq<Evidence>, k: Key) returns (i: nat)
    requires k in Collect(items)
    ensures Prevails(items, i) && items[i] == Collect(items)[k]
  {
    var init, last := items[..|items| - 1], items[|items| - 1];
    assert items == init + [last];
    CollectKeys(init);
    forall e: Evidence ensures SameReport(e, last) <==> KeyOf(e) == KeyOf(last) {
      SameReportIff(e, last);
    }
    if k == KeyOf(last) && (k !in Collect(init) || last.at < Collect(init)[k].at) {
      i := |init|;
      hide KeyOf, SameReport, Collect;
      assert forall j :: 0 <= j < |init| ==> items[j] == init[j] && init[j] in init;
    } else {
      i := CollectedPrevails(init, k);
      forall e: Evidence ensures SameReport(e, items[i]) <==> KeyOf(e) == KeyOf(items[i]) {
        SameReportIff(e, items[i]);
      }
      hide KeyOf, SameReport;
      assert forall j :: 0 <= j < |init| ==> items[j] == init[j];
    }
  }

  lemma {:induction false} PrevailingIsCollected(items: seq<Evidence>, i: nat)
    requires Prevails(items, i)
    ensures items[i] in Collect(items).Values
  {
    CollectKeys(items);
    var k := KeyOf(items[i]);
    assert items[i] in items;
    var j := CollectedPrevails(items, k);
    SameReportIff(items[i], items[j]);
    SameReportIff(items[j], items[i]);
    assert KeyOf(Collect(items)[k]) == k;
    hide KeyOf, SameReport, Collect;
  }

  /** By time, then by source, kind, event and value, and no two the same. */
  predicate Follows(a: Evidence, b: Evidence) {
    && a.at <= b.at
    && (a.at == b.at ==> !Less(b.source, a.source))
    && (a.at == b.at && a.source == b.source ==> !Less(b.kind, a.kind))
    && (a.at == b.at && a.source == b.source && a.kind == b.kind ==> !Less(b.eventId, a.eventId))
    && (a.at == b.at && a.source == b.source && a.kind == b.kind && a.eventId == b.eventId ==> Less(a.value, b.value))
  }

  lemma BeforeFollows(a: Evidence, b: Evidence)
    requires Before(a, b)
    ensures Follows(a, b)
  {
    TransitiveOrEqual(a.source, b.source, a.source);
    TransitiveOrEqual(a.kind, b.kind, a.kind);
    TransitiveOrEqual(a.eventId, b.eventId, a.eventId);
    LessIrreflexive(a.source);
    LessIrreflexive(a.kind);
    LessIrreflexive(a.eventId);
  }

  /** A merged list is in order and holds exactly the reports that prevail, whatever was gathered from where. */
  lemma {:induction false} MergeHolds(items: seq<Evidence>)
    ensures forall e :: e in Merge(items) <==> exists i: nat :: i < |items| && Prevails(items, i) && items[i] == e
    ensures forall i, j :: 0 <= i < j < |Merge(items)| ==> Follows(Merge(items)[i], Merge(items)[j])
  {
    hide Prevails, Collect, Before, Follows;
    forall e | e in Merge(items) ensures exists i: nat :: i < |items| && Prevails(items, i) && items[i] == e {
      var k :| k in Collect(items) && Collect(items)[k] == e;
      var i := CollectedPrevails(items, k);
      PrevailingIsInside(items, i);
    }
    forall i: nat | i < |items| && Prevails(items, i) ensures items[i] in Merge(items) {
      PrevailingIsCollected(items, i);
    }
    forall i, j | 0 <= i < j < |Merge(items)| ensures Follows(Merge(items)[i], Merge(items)[j]) {
      BeforeFollows(Merge(items)[i], Merge(items)[j]);
    }
  }

  lemma PrevailingIsInside(items: seq<Evidence>, i: nat)
    requires Prevails(items, i)
    ensures i < |items|
  {
  }
}
