/**
  Sending a batch of runtime events again. The clock is the same, so nothing new should
  happen; this module proves exactly when that is so, and what goes wrong otherwise.
 */
module Reingestion {
  import opened EvidenceMerge
  import opened Options
  import opened CensusModel
  import opened Classification
  import opened RuntimeGrouping
  import opened Registry
  import opened RegistryInvariants
  import IsoTimestamp

  ghost predicate SameRows(a: seq<Row>, b: seq<Row>) {
    forall r :: r in a <==> r in b
  }

  ghost predicate DistinctKeys(cs: seq<Candidate>) {
    forall i, j :: 0 <= i < j < |cs| ==> !SameKey(cs[i], cs[j])
  }

  /** The guard of `_upsert` for a known source key: it resolves to the entity that has it. */
  predicate StaysHome(c: Candidate, rows: seq<Row>) {
    PreviousRow(rows, c).Some? && Resolve(Newest(rows, c), rows) == Some(PreviousRow(rows, c).value.agent)
  }

  /** The table holds this very observation, or a later one of the same source key. */
  ghost predicate Recorded(c: Candidate, rows: seq<Row>) {
    exists r :: r in rows && SameKey(r.candidate, c) && (r.candidate == c || r.candidate.at > c.at)
  }

  // ------------------------------------------------------------------------------ events

  lemma {:induction false} RetainHolds(events: seq<Event>, cutoff: int)
    ensures forall e :: e in Retain(events, cutoff) <==> e in events && e.at >= cutoff
    ensures (forall e :: e in events ==> e.at >= cutoff) ==> Retain(events, cutoff) == events
  {
    if events != [] {
      RetainHolds(events[1..], cutoff);
      assert events == [events[0]] + events[1..];
    }
  }

  /** The calendar: how the times at hand are written as UTC date and time. */
  ghost predicate Stamps(stamp: int -> IsoTimestamp.Utc, events: seq<Event>, cutoff: int) {
    && stamp(cutoff).Valid()
    && (forall e :: e in events ==> stamp(e.at).Valid() && (e.at < cutoff <==> IsoTimestamp.Before(stamp(e.at), stamp(cutoff))))
  }

  /** The timestamp column of the event table beside the events' own times. */
  function TimestampColumn(events: seq<Event>, stamp: int -> IsoTimestamp.Utc): seq<IsoTimestamp.Row> {
    if events == [] then []
    else [IsoTimestamp.Row(IsoTimestamp.Text(stamp(events[0].at)), stamp(events[0].at))] + TimestampColumn(events[1..], stamp)
  }

  lemma {:induction false} RetentionByTime(events: seq<Event>, cutoff: int, stamp: int -> IsoTimestamp.Utc)
    requires Stamps(stamp, events, cutoff)
    ensures IsoTimestamp.Stored(TimestampColumn(events, stamp))
    ensures IsoTimestamp.RetainByTime(TimestampColumn(events, stamp), stamp(cutoff)) == TimestampColumn(Retain(events, cutoff), stamp)
  {
    hide IsoTimestamp.Text, IsoTimestamp.Before;
    if events != [] {
      assert events[0] in events;
      RetentionByTime(events[1..], cutoff, stamp);
      var column, rest := TimestampColumn(events, stamp), TimestampColumn(events[1..], stamp);
      assert column[1..] == rest && column == [column[0]] + rest;
      var kept, first := Retain(events[1..], cutoff), events[0];
      assert ([first] + kept)[1..] == kept && [] + kept == kept;
      assert Retain(events, cutoff) == if first.at < cutoff then kept else [first] + kept;
      assert TimestampColumn([first] + kept, stamp) == [column[0]] + TimestampColumn(kept, stamp);
      assert IsoTimestamp.RetainByTime(column, stamp(cutoff)) ==
             if first.at < cutoff then IsoTimestamp.RetainByTime(rest, stamp(cutoff)) else [column[0]] + IsoTimestamp.RetainByTime(rest, stamp(cutoff));
    }
  }

  /** The registry's retention is what deleting by timestamp text leaves of the event table. */
  lemma {:induction false} RetentionIsByText(events: seq<Event>, cutoff: int, stamp: int -> IsoTimestamp.Utc)
    requires Stamps(stamp, events, cutoff)
    ensures IsoTimestamp.DeleteByText(TimestampColumn(events, stamp), IsoTimestamp.Text(stamp(cutoff))) ==
            TimestampColumn(Retain(events, cutoff), stamp)
  {
    RetentionByTime(events, cutoff, stamp);
    IsoTimestamp.TextExpiryIsTimeExpiry(TimestampColumn(events, stamp), stamp(cutoff));
  }

  predicate Knows(events: seq<Event>, id: string) {
    exists e :: e in events && e.id == id
  }

  /** Ids are the table's primary key: the first event of an id is the one that stays. */
  lemma {:induction false} AddEventsHolds(events: seq<Event>, batch: seq<Event>)
    ensures forall e :: e in AddEvents(events, batch) ==> e in events || (e in batch && !Knows(events, e.id))
    ensures forall e :: e in events ==> e in AddEvents(events, batch)
    ensures forall e :: e in batch ==> Knows(AddEvents(events, batch), e.id)
    ensures (forall e :: e in batch ==> Knows(events, e.id)) ==> AddEvents(events, batch) == events
  {
    if batch != [] {
      var init, last := batch[..|batch| - 1], batch[|batch| - 1];
      AddEventsHolds(events, init);
      assert batch == init + [last];
      var sofar := AddEvents(events, init);
      if !Knows(sofar, last.id) {
        assert last in sofar + [last];
        assert Knows(sofar + [last], last.id);
        forall e | e in sofar ensures e in sofar + [last] {}
      }
    }
  }

  /** A stored event, too old to be kept, that carries the id of an event of the batch. */
  ghost predicate ExpiredTwin(events: seq<Event>, batch: seq<Event>, cutoff: int) {
    exists e, known :: e in batch && known in events && known.id == e.id && known.at < cutoff
  }

  lemma {:induction false} RetainedStillKnows(events: seq<Event>, batch: seq<Event>, cutoff: int)
    requires (forall e :: e in batch ==> e.at >= cutoff) && !ExpiredTwin(events, batch, cutoff)
    ensures forall e :: e in batch ==> Knows(Retain(AddEvents(events, batch), cutoff), e.id)
  {
    AddEventsHolds(events, batch);
    var added := AddEvents(events, batch);
    RetainHolds(added, cutoff);
    forall e | e in batch ensures Knows(Retain(added, cutoff), e.id) {
      var known :| known in added && known.id == e.id;
      assert known.at >= cutoff;
    }
  }

  lemma {:induction false} TwinIsForgotten(events: seq<Event>, batch: seq<Event>, cutoff: int, e: Event, known: Event)
    requires e in batch && known in events && known.id == e.id && known.at < cutoff
    requires DistinctIds(events)
    ensures !Knows(Retain(AddEvents(events, batch), cutoff), e.id)
  {
    AddEventsHolds(events, batch);
    var added := AddEvents(events, batch);
    RetainHolds(added, cutoff);
    if Knows(Retain(added, cutoff), e.id) {
      var x :| x in Retain(added, cutoff) && x.id == e.id;
      assert Knows(events, x.id);
      SameIdSameEvent(events, x, known);
      assert false;
    }
  }

  lemma {:induction false} BatchIsKnownAfterwards(events: seq<Event>, batch: seq<Event>, cutoff: int)
    requires (forall e :: e in batch ==> e.at >= cutoff) && !ExpiredTwin(events, batch, cutoff)
    ensures var kept := Retain(AddEvents(events, batch), cutoff);
            AddEvents(kept, batch) == kept && Retain(kept, cutoff) == kept
  {
    var kept := Retain(AddEvents(events, batch), cutoff);
    RetainedStillKnows(events, batch, cutoff);
    AddEventsHolds(kept, batch);
    RetainHolds(AddEvents(events, batch), cutoff);
    RetainHolds(kept, cutoff);
  }

  lemma {:induction false} ForgottenBatchIsAcceptedAgain(events: seq<Event>, batch: seq<Event>, cutoff: int)
    requires ExpiredTwin(events, batch, cutoff) && DistinctIds(events)
    ensures var kept := Retain(AddEvents(events, batch), cutoff); AddEvents(kept, batch) != kept
  {
    var e, known :| e in batch && known in events && known.id == e.id && known.at < cutoff;
    TwinIsForgotten(events, batch, cutoff, e, known);
    AddEventsHolds(Retain(AddEvents(events, batch), cutoff), batch);
  }

  /**
    A batch sent again is accepted nowhere and leaves the events as they are exactly when no
    stored event that just expired carried one of its ids: such a twin first keeps the new
    event out, then goes itself, and the next sending is let in.
   */
  lemma {:induction false} ReplayAcceptsNothingIff(db: Db, batch: seq<Event>, settings: Settings, now: int)
    requires AllInWindow(batch, settings, now) && DistinctIds(db.events)
    ensures var kept := EventsAfter(db, batch, settings, now);
            AddEvents(kept, batch) == kept <==> !ExpiredTwin(db.events, batch, now - settings.window * SECOND)
    ensures var kept := EventsAfter(db, batch, settings, now);
            AddEvents(kept, batch) == kept ==> EventsAfter(db.(events := kept), batch, settings, now) == kept
  {
    var cutoff := now - settings.window * SECOND;
    if ExpiredTwin(db.events, batch, cutoff) {
      ForgottenBatchIsAcceptedAgain(db.events, batch, cutoff);
    } else {
      BatchIsKnownAfterwards(db.events, batch, cutoff);
    }
  }

  // -------------------------------------------------------------------------------- rows

  lemma ResolveSeesOnlyTheSet(c: Candidate, a: seq<Row>, b: seq<Row>)
    requires SameRows(a, b)
    ensures Resolve(c, a) == Resolve(c, b)
  {
    hide Signals, SameKey, Consensus;
    forall agent ensures Conflicts(c, agent, a) == Conflicts(c, agent, b) {
      ConflictsSeeOnlyTheSet(c, agent, a, b);
    }
    hide Conflicts;
    assert Matches(c, a) == Matches(c, b);
  }

  lemma ConflictsSeeOnlyTheSet(c: Candidate, agent: Id, a: seq<Row>, b: seq<Row>)
    requires SameRows(a, b)
    ensures Conflicts(c, agent, a) == Conflicts(c, agent, b)
  {
    assert (set r | r in a && r.agent == agent && r.candidate.registrationId != "" :: r.candidate.registrationId)
        == (set r | r in b && r.agent == agent && r.candidate.registrationId != "" :: r.candidate.registrationId);
    assert (set r | r in a && r.agent == agent && r.candidate.namespace != "" :: r.candidate.namespace)
        == (set r | r in b && r.agent == agent && r.candidate.namespace != "" :: r.candidate.namespace);
  }

  lemma {:induction false} PreviousRowSeesOnlyTheSet(c: Candidate, a: seq<Row>, b: seq<Row>)
    requires SameRows(a, b) && KeysDistinct(a) && KeysDistinct(b)
    ensures PreviousRow(a, c) == PreviousRow(b, c)
  {
    PreviousRowHolds(a, c);
    PreviousRowHolds(b, c);
    hide SameKey, KeysDistinct;
  }

  lemma StayingHomeSeesOnlyTheSet(c: Candidate, a: seq<Row>, b: seq<Row>)
    requires SameRows(a, b) && KeysDistinct(a) && KeysDistinct(b)
    ensures StaysHome(c, a) == StaysHome(c, b)
  {
    PreviousRowSeesOnlyTheSet(c, a, b);
    hide Resolve, KeysDistinct, SameRows;
    ResolveSeesOnlyTheSet(Newest(a, c), a, b);
  }

  lemma UpsertRecords(db: Db, db': Db, c: Candidate, settings: Settings, now: int)
    requires Inv(db) && Upsert(db, c, false, settings, now) == Committed(db')
    ensures Recorded(c, db'.rows)
  {
    UpsertRows(db, c, now);
    UpsertGoesHome(db, c, now);
    hide Inv, RecordAfter, EdgesOf, SetAlert, Resolve, RowsAfter;
    var row := Row(Home(db, c), Newest(db.rows, c));
    assert row in db'.rows;
  }

  lemma {:induction false} RecordedElsewhereStays(rows: seq<Row>, rows': seq<Row>, c: Candidate, d: Candidate)
    requires Recorded(d, rows) && !SameKey(c, d) && forall r :: r in rows && !SameKey(r.candidate, c) ==> r in rows'
    ensures Recorded(d, rows')
  {
    var r :| r in rows && SameKey(r.candidate, d) && (r.candidate == d || r.candidate.at > d.at);
    assert r in rows';
  }

  lemma {:induction false} UpsertKeepsRecorded(db: Db, db': Db, c: Candidate, d: Candidate, settings: Settings, now: int)
    requires Inv(db) && Upsert(db, c, false, settings, now) == Committed(db')
    requires Recorded(d, db.rows) && !SameKey(c, d)
    ensures Recorded(d, db'.rows)
  {
    hide *;
    UpsertShape(db, db', c, settings, now);
    UpsertRows(db, c, now);
    RecordedElsewhereStays(db.rows, db'.rows, c, d);
  }

  /** After a committed batch of candidates the table holds each of them. */
  lemma {:induction false} UpsertAllRecords(db: Db, db': Db, cs: seq<Candidate>, settings: Settings, now: int)
    requires Inv(db) && UpsertAll(db, cs, settings, now) == Committed(db') && DistinctKeys(cs)
    ensures forall c :: c in cs ==> Recorded(c, db'.rows) && c.at <= now + TOLERANCE
    decreases |cs|
  {
    hide Inv, Recorded, RecordAfter, RowsAfter, EdgesOf, SetAlert, Home, Newest, Resolve;
    if cs != [] {
      var init, last := cs[..|cs| - 1], cs[|cs| - 1];
      var sofar := UpsertAll(db, init, settings, now).db;
      UpsertAllRecords(db, sofar, init, settings, now);
      UpsertAllKeeps(db, sofar, init, settings, now);
      UpsertRecords(sofar, db', last, settings, now);
      forall c | c in cs ensures Recorded(c, db'.rows) && c.at <= now + TOLERANCE {
        if c != last {
          var i :| 0 <= i < |cs| && cs[i] == c;
          assert c == init[i] && !SameKey(cs[i], cs[|cs| - 1]);
          UpsertKeepsRecorded(sofar, db', last, c, settings, now);
        }
      }
    }
  }

  lemma {:induction false} RecordedIsNewest(c: Candidate, rows: seq<Row>)
    requires KeysDistinct(rows) && Recorded(c, rows)
    ensures PreviousRow(rows, c).Some? && PreviousRow(rows, c).value.candidate == Newest(rows, c)
    ensures PreviousRow(rows, c).value in rows && SameKey(PreviousRow(rows, c).value.candidate, c)
  {
    PreviousRowHolds(rows, c);
    hide KeysDistinct;
    var r :| r in rows && SameKey(r.candidate, c) && (r.candidate == c || r.candidate.at > c.at);
  }

  lemma {:induction false} NextIdIsUnused(db: Db)
    requires Inv(db)
    ensures db.nextId !in db.entities && OwnersExist(db) && IdsBelowNext(db)
  {
    hide KeysDistinct, Projected, AlertsAgree;
  }

  lemma InvHasDistinctKeys(db: Db)
    requires Inv(db)
    ensures KeysDistinct(db.rows)
  {
  }

  lemma {:induction false} ReupsertGoesHome(db: Db, c: Candidate, now: int)
    requires Inv(db) && Recorded(c, db.rows) && Upsertable(db.rows, c, now)
    ensures PreviousRow(db.rows, c) == Some(Row(Home(db, c), Newest(db.rows, c)))
    ensures Row(Home(db, c), Newest(db.rows, c)) in db.rows && Home(db, c) in db.entities
  {
    NextIdIsUnused(db);
    InvHasDistinctKeys(db);
    RecordedIsNewest(c, db.rows);
    hide Inv, Recorded, Resolve, KeysDistinct, PreviousRow;
  }

  lemma {:induction false} PutBack(rows: seq<Row>, rows': seq<Row>, row: Row, c: Candidate)
    requires row in rows && forall r :: r in rows && SameKey(r.candidate, c) ==> r == row
    requires forall r :: r in rows' <==> (r in rows && !SameKey(r.candidate, c)) || r == row
    ensures SameRows(rows', rows)
  {
    hide SameKey;
  }

  lemma {:induction false} OneRowPerKey(rows: seq<Row>, row: Row, c: Candidate)
    requires KeysDistinct(rows) && PreviousRow(rows, c) == Some(row)
    ensures forall r :: r in rows && SameKey(r.candidate, c) ==> r == row
  {
    PreviousRowHolds(rows, c);
    hide KeysDistinct, PreviousRow, SameKey;
  }

  lemma {:induction false} ReupsertKeepsRows(db: Db, c: Candidate, now: int)
    requires Inv(db) && Recorded(c, db.rows) && Upsertable(db.rows, c, now)
    ensures SameRows(RowsAfter(db, c), db.rows) && Home(db, c) in db.entities
  {
    hide *;
    var row := Row(Home(db, c), Newest(db.rows, c));
    ReupsertGoesHome(db, c, now);
    InvHasDistinctKeys(db);
    OneRowPerKey(db.rows, row, c);
    UpsertRows(db, c, now);
    PutBack(db.rows, RowsAfter(db, c), row, c);
  }

  lemma ReupsertGuard(db: Db, c: Candidate, settings: Settings, now: int)
    requires Inv(db) && Recorded(c, db.rows) && c.at <= now + TOLERANCE
    ensures Upsert(db, c, false, settings, now).Committed? <==> StaysHome(c, db.rows)
  {
    InvHasDistinctKeys(db);
    RecordedIsNewest(c, db.rows);
    hide Inv, Recorded, RecordAfter, RowsAfter, EdgesOf, SetAlert, Resolve, Newest, KeysDistinct, PreviousRow, SameKey;
  }

  lemma UpsertShape(db: Db, db': Db, c: Candidate, settings: Settings, now: int)
    requires Upsert(db, c, false, settings, now) == Committed(db')
    ensures Upsertable(db.rows, c, now)
    ensures db'.rows == RowsAfter(db, c) && db'.entities.Keys == db.entities.Keys + {Home(db, c)}
  {
    hide RecordAfter, RowsAfter, EdgesOf, SetAlert, Home, Upsertable;
  }

  /** Registration and the seen interval of an entity. */
  predicate SameStanding(a: Record, b: Record) {
    a.registered == b.registered && a.firstSeen == b.firstSeen && a.lastSeen == b.lastSeen
  }

  ghost predicate StandingsKept(db: Db, db': Db) {
    forall id :: id in db.entities ==> id in db'.entities && SameStanding(db.entities[id], db'.entities[id])
  }

  lemma {:induction false} SameRowsSameLatest(a: seq<Row>, b: seq<Row>, id: Id, s: int, t: int)
    requires SameRows(a, b) && LatestIs(a, id, s) && LatestIs(b, id, t)
    ensures s == t
  {
    CandidatesOfHold(a, id);
    CandidatesOfHold(b, id);
    var cs, ds := CandidatesOf(a, id), CandidatesOf(b, id);
    hide CandidatesOf, SameRows;
    var c :| c in cs && c.at == MaxAt(cs);
    var d :| d in ds && d.at == MaxAt(ds);
    assert SameRows(a, b) ==> Row(id, c) in b && Row(id, d) in a by {
      assert Row(id, c) in a && Row(id, d) in b;
      RowInBoth(a, b, Row(id, c));
      RowInBoth(a, b, Row(id, d));
    }
    assert c in ds && d in cs;
  }

  lemma RowInBoth(a: seq<Row>, b: seq<Row>, r: Row)
    requires SameRows(a, b)
    ensures r in a <==> r in b
  {
  }

  lemma ReprojectionStands(cs: seq<Candidate>, prior: Record, settings: Settings, now: int)
    requires cs != [] && forall c :: c in cs ==> prior.firstSeen <= c.at
    ensures var record := Project(cs, Some(prior), false, settings, now);
            record.registered == prior.registered && record.firstSeen == prior.firstSeen
  {
    hide Classify, MergedEvidence, Shadow, ObservedEndpoint, ObservedOwner, IsActive, CurrentOnes, ConsensusText, ModelsOf, ProjectedTools, ProjectedProtocols,
         ProjectedHealth, MaxAt;
  }

  lemma {:induction false} ReupsertedRecord(db: Db, db': Db, c: Candidate, settings: Settings, now: int)
    requires Upsert(db, c, false, settings, now) == Committed(db') && Home(db, c) in db.entities
    ensures var home := Home(db, c);
            && db'.entities == db.entities[home := db'.entities[home]]
            && db'.entities[home] == Project(CandidatesOf(OtherRows(db.rows, c), home) + [Newest(db.rows, c)], Some(db.entities[home]), false, settings, now)
  {
    hide Project, CandidatesOf, OtherRows, Newest, Home, EdgesOf, SetAlert, RowsAfter, Upsertable;
  }

  lemma {:induction false} OwnRowsWereThere(db: Db, c: Candidate, now: int)
    requires Inv(db) && Upsertable(db.rows, c, now) && SameRows(RowsAfter(db, c), db.rows) && Home(db, c) in db.entities
    ensures forall x :: x in CandidatesOf(OtherRows(db.rows, c), Home(db, c)) + [Newest(db.rows, c)] ==> db.entities[Home(db, c)].firstSeen <= x.at
  {
    UpsertRows(db, c, now);
    var home := Home(db, c);
    assert NoneBefore(db.rows, home, db.entities[home].firstSeen);
    hide Inv, CandidatesOf, OtherRows, Newest, Home, RowsAfter, Upsertable, SameRows, KeysDistinct;
    CandidatesOfHold(RowsAfter(db, c), home);
    CandidatesOfHold(db.rows, home);
    forall x | x in CandidatesOf(RowsAfter(db, c), home) ensures db.entities[home].firstSeen <= x.at {
      RowInBoth(RowsAfter(db, c), db.rows, Row(home, x));
    }
  }

  lemma LastSeenIsLatest(db: Db, id: Id)
    requires Inv(db) && id in db.entities
    ensures LatestIs(db.rows, id, db.entities[id].lastSeen)
  {
    hide KeysDistinct, AlertsAgree, Coherent, DistinctIds, Classified, NoneBefore;
  }

  /** The entity that the observation belongs to is the only one written, and stands as it stood. */
  lemma {:induction false} ReupsertedStanding(db: Db, db': Db, c: Candidate, settings: Settings, now: int)
    requires Inv(db) && Upsert(db, c, false, settings, now) == Committed(db')
    requires Inv(db') && SameRows(db'.rows, db.rows) && Home(db, c) in db.entities
    ensures db'.entities == db.entities[Home(db, c) := db'.entities[Home(db, c)]]
    ensures SameStanding(db.entities[Home(db, c)], db'.entities[Home(db, c)])
  {
    hide *;
    var home := Home(db, c);
    UpsertShape(db, db', c, settings, now);
    ReupsertedRecord(db, db', c, settings, now);
    LastSeenIsLatest(db, home);
    LastSeenIsLatest(db', home);
    OwnRowsWereThere(db, c, now);
    StandingFollows(db, home, CandidatesOf(OtherRows(db.rows, c), home) + [Newest(db.rows, c)], db', settings, now);
  }

  lemma {:induction false} StandingFollows(db: Db, home: Id, own: seq<Candidate>, db': Db, settings: Settings, now: int)
    requires home in db.entities && home in db'.entities && SameRows(db'.rows, db.rows)
    requires LatestIs(db.rows, home, db.entities[home].lastSeen) && LatestIs(db'.rows, home, db'.entities[home].lastSeen)
    requires own != [] && forall x :: x in own ==> db.entities[home].firstSeen <= x.at
    requires db'.entities[home] == Project(own, Some(db.entities[home]), false, settings, now)
    ensures SameStanding(db.entities[home], db'.entities[home])
  {
    hide Project, LatestIs, SameRows;
    ReprojectionStands(own, db.entities[home], settings, now);
    SameRowsSameLatest(db'.rows, db.rows, home, db'.entities[home].lastSeen, db.entities[home].lastSeen);
  }

  lemma {:induction false} ReupsertKeepsStanding(db: Db, db': Db, c: Candidate, settings: Settings, now: int)
    requires Inv(db) && Upsert(db, c, false, settings, now) == Committed(db')
    requires Inv(db') && SameRows(db'.rows, db.rows) && Home(db, c) in db.entities
    ensures StandingsKept(db, db')
  {
    hide Inv, Upsert, Home, SameRows;
    ReupsertedStanding(db, db', c, settings, now);
  }

  /** Sending one recorded observation again: refused, or nothing moves. */
  lemma ReupsertStandsStill(db: Db, c: Candidate, settings: Settings, now: int)
    requires Inv(db) && Recorded(c, db.rows) && c.at <= now + TOLERANCE
    ensures var again := Upsert(db, c, false, settings, now);
            && (again.Committed? <==> StaysHome(c, db.rows))
            && (again.Committed? ==>
                  && Inv(again.db) && SameRows(again.db.rows, db.rows) && StandingsKept(db, again.db)
                  && again.db.entities.Keys == db.entities.Keys && again.db.events == db.events)
  {
    hide Inv, Recorded, Upsert, RowsAfter, Home, Upsertable, SameRows, StaysHome, Progress, ApprovalsKept, StandingsKept;
    ReupsertGuard(db, c, settings, now);
    var again := Upsert(db, c, false, settings, now);
    if again.Committed? {
      UpsertShape(db, again.db, c, settings, now);
      ReupsertKeepsRows(db, c, now);
      UpsertKeeps(db, again.db, c, false, settings, now);
      ReupsertKeepsStanding(db, again.db, c, settings, now);
    }
  }

  lemma SameRowsStillRecorded(c: Candidate, a: seq<Row>, b: seq<Row>)
    requires SameRows(a, b) && Recorded(c, a)
    ensures Recorded(c, b)
  {
  }

  /** What sending `cs` again makes of `db`: refused, or the same rows, events, entities and standings. */
  ghost predicate StandsStill(db: Db, cs: seq<Candidate>, again: Outcome) {
    && (again.Committed? <==> forall c :: c in cs ==> StaysHome(c, db.rows))
    && (again.Committed? ==>
          && Inv(again.db) && SameRows(again.db.rows, db.rows) && StandingsKept(db, again.db)
          && again.db.entities.Keys == db.entities.Keys && again.db.events == db.events)
  }

  lemma ReupsertLast(db: Db, sofar: Db, init: seq<Candidate>, last: Candidate, settings: Settings, now: int)
    requires Inv(db) && Recorded(last, db.rows) && last.at <= now + TOLERANCE
    requires StandsStill(db, init, Committed(sofar))
    ensures StandsStill(db, init + [last], Upsert(sofar, last, false, settings, now))
  {
    hide Inv, Recorded, Upsert, StaysHome, KeysDistinct;
    SameRowsStillRecorded(last, db.rows, sofar.rows);
    InvHasDistinctKeys(db);
    InvHasDistinctKeys(sofar);
    StayingHomeSeesOnlyTheSet(last, db.rows, sofar.rows);
    ReupsertStandsStill(sofar, last, settings, now);
  }

  lemma {:induction false} ReupsertAll(db: Db, cs: seq<Candidate>, settings: Settings, now: int)
    requires Inv(db) && forall c :: c in cs ==> Recorded(c, db.rows) && c.at <= now + TOLERANCE
    ensures StandsStill(db, cs, UpsertAll(db, cs, settings, now))
    decreases |cs|
  {
    hide Inv, Recorded, Upsert, StaysHome;
    if cs != [] {
      var init, last := cs[..|cs| - 1], cs[|cs| - 1];
      assert cs == init + [last];
      ReupsertAll(db, init, settings, now);
      if UpsertAll(db, init, settings, now).Committed? {
        ReupsertLast(db, UpsertAll(db, init, settings, now).db, init, last, settings, now);
      }
    }
  }

  // -------------------------------------------------------------------------- the batch

  lemma {:induction false} ListedSame(all: map<Group, Candidate>, order: seq<Group>, again: seq<Group>)
    requires Lists(order, all) && Lists(again, all)
    requires (forall g :: g in order ==> g in all) && (forall g :: g in again ==> g in all)
    ensures forall c :: c in Listed(again, all) ==> c in Listed(order, all)
  {
    var a, b := Listed(order, all), Listed(again, all);
    forall c | c in b ensures c in a {
      var i :| 0 <= i < |b| && b[i] == c;
      assert again[i] in all.Keys;
      assert again[i] in order;
      var j :| 0 <= j < |order| && order[j] == again[i];
      assert a[j] == c;
    }
  }

  predicate ListsWorkloads(order: seq<Group>, events: seq<Event>) {
    RuntimeCandidates(events).Some? && Lists(order, RuntimeCandidates(events).value)
  }

  /** The candidates the committed batch was made of. */
  function BatchCandidates(db: Db, batch: seq<Event>, order: seq<Group>, settings: Settings, now: int): seq<Candidate> {
    match RuntimeCandidates(EventsAfter(db, batch, settings, now))
    case None => []
    case Some(all) => if Lists(order, all) then Listed(order, all) else []
  }

  lemma IngestRecords(db: Db, db': Db, batch: seq<Event>, order: seq<Group>, settings: Settings, now: int)
    requires Inv(db) && Ingest(db, batch, order, settings, now) == Committed(db')
    requires DistinctKeys(BatchCandidates(db, batch, order, settings, now))
    ensures Inv(db') && db'.events == EventsAfter(db, batch, settings, now)
    ensures forall c :: c in BatchCandidates(db, batch, order, settings, now) ==> Recorded(c, db'.rows) && c.at <= now + TOLERANCE
  {
    hide Inv, Recorded, EventsAfter, RuntimeCandidates, UpsertAll, DistinctKeys, Progress, ApprovalsKept;
    IngestKeeps(db, db', batch, order, settings, now);
    var retained := EventsAfter(db, batch, settings, now);
    var start := db.(events := retained);
    var cs := Listed(order, RuntimeCandidates(retained).value);
    StoredIdsStayDistinct(db, batch, settings, now);
    EventsStandApart(db, retained, start);
    var next := UpsertAll(start, cs, settings, now).db;
    UpsertAllKeeps(start, next, cs, settings, now);
    UpsertAllRecords(start, next, cs, settings, now);
  }

  lemma RegraphKeepsTables(next: Db)
    ensures Regraph(next).rows == next.rows && Regraph(next).entities == next.entities && Regraph(next).events == next.events
  {
    hide AllEdges;
  }

  lemma SameTablesStandStill(db: Db, cs: seq<Candidate>, next: Db, next': Db)
    requires StandsStill(db, cs, Committed(next)) && Inv(next') && next'.rows == next.rows && next'.entities == next.entities && next'.events == next.events
    ensures StandsStill(db, cs, Committed(next'))
  {
    hide Inv, StaysHome, SameRows, SameStanding;
  }

  lemma CommittedIsSound(db: Db, cs: seq<Candidate>, next: Db)
    requires StandsStill(db, cs, Committed(next))
    ensures Inv(next)
  {
    hide Inv, StaysHome, SameRows, StandingsKept;
  }

  lemma RegraphStandsStill(db: Db, cs: seq<Candidate>, again: Outcome)
    requires StandsStill(db, cs, again)
    ensures StandsStill(db, cs, match again case RolledBack => RolledBack case Committed(next) => Committed(Regraph(next)))
  {
    hide *;
    match again
    case RolledBack =>
    case Committed(next) =>
      CommittedIsSound(db, cs, next);
      StandingStillKeeps(next);
      RegraphKeeps(next, next);
      RegraphKeepsTables(next);
      SameTablesStandStill(db, cs, next, Regraph(next));
  }

  /** Sending the batch again, once the events stand still. */
  lemma {:induction false} ReingestIsReupsert(db: Db, batch: seq<Event>, order: seq<Group>, settings: Settings, now: int)
    requires AllInWindow(batch, settings, now) && EventsAfter(db, batch, settings, now) == db.events
    requires ListsWorkloads(order, db.events)
    ensures Ingest(db, batch, order, settings, now) ==
            match UpsertAll(db, Listed(order, RuntimeCandidates(db.events).value), settings, now)
            case RolledBack => RolledBack
            case Committed(next) => Committed(Regraph(next))
  {
    hide EventsAfter, RuntimeCandidates, UpsertAll, Regraph;
    assert db.(events := db.events) == db;
  }

  /**
    Sending a committed batch again at the same clock, in any listing of its workloads, is
    committed exactly when each of its candidates resolves to the entity that already holds
    its source key; and then no event is accepted, and events, observations and the set of
    entities are what they were.
   */
  lemma {:induction false} ReingestionIff(db: Db, db': Db, batch: seq<Event>, order: seq<Group>, again: seq<Group>, settings: Settings, now: int)
    requires Inv(db) && Ingest(db, batch, order, settings, now) == Committed(db')
    requires DistinctKeys(BatchCandidates(db, batch, order, settings, now))
    requires !ExpiredTwin(db.events, batch, now - settings.window * SECOND)
    requires ListsWorkloads(again, db'.events)
    ensures AddEvents(db'.events, batch) == db'.events
    ensures StandsStill(db', BatchCandidates(db, batch, order, settings, now), Ingest(db', batch, again, settings, now))
  {
    hide Inv, Recorded, Ingest, EventsAfter, AddEvents, RuntimeCandidates, BatchCandidates, ListsWorkloads, AllInWindow, DistinctIds, DistinctKeys, ExpiredTwin, StandsStill, SameKey;
    IngestRecords(db, db', batch, order, settings, now);
    CommittedBatch(db, db', batch, order, settings, now);
    assert DistinctIds(db.events) by { StoredIdsAreDistinct(db); }
    ReplayAcceptsNothingIff(db, batch, settings, now);
    EventsAfterSeesOnlyEvents(db.(events := db'.events), db', batch, settings, now);
    ReingestStandsStill(db', BatchCandidates(db, batch, order, settings, now), batch, order, again, settings, now);
  }

  lemma StoredIdsAreDistinct(db: Db)
    requires Inv(db)
    ensures DistinctIds(db.events)
  {
    hide KeysDistinct, OwnersExist, Projected, AlertsAgree, IdsBelowNext;
  }

  lemma {:induction false} CommittedBatch(db: Db, db': Db, batch: seq<Event>, order: seq<Group>, settings: Settings, now: int)
    requires Ingest(db, batch, order, settings, now) == Committed(db') && db'.events == EventsAfter(db, batch, settings, now)
    ensures AllInWindow(batch, settings, now)
    ensures ListsWorkloads(order, db'.events)
    ensures BatchCandidates(db, batch, order, settings, now) == Listed(order, RuntimeCandidates(db'.events).value)
  {
    hide EventsAfter, RuntimeCandidates, UpsertAll, Regraph;
  }

  lemma {:induction false} ReingestStandsStill(db: Db, cs: seq<Candidate>, batch: seq<Event>, order: seq<Group>, again: seq<Group>, settings: Settings, now: int)
    requires Inv(db) && forall c :: c in cs ==> Recorded(c, db.rows) && c.at <= now + TOLERANCE
    requires AllInWindow(batch, settings, now) && EventsAfter(db, batch, settings, now) == db.events
    requires ListsWorkloads(order, db.events) && ListsWorkloads(again, db.events)
    requires cs == Listed(order, RuntimeCandidates(db.events).value)
    ensures StandsStill(db, cs, Ingest(db, batch, again, settings, now))
  {
    hide Inv, Recorded, Ingest, EventsAfter, RuntimeCandidates, UpsertAll, Regraph, StandsStill, SameKey;
    var all := RuntimeCandidates(db.events).value;
    var cs' := Listed(again, all);
    ListedSame(all, order, again);
    ListedSame(all, again, order);
    hide Lists;
    ReingestIsReupsert(db, batch, again, settings, now);
    ReupsertAll(db, cs', settings, now);
    RegraphStandsStill(db, cs', UpsertAll(db, cs', settings, now));
    SameCandidatesStandStill(db, cs', cs, Ingest(db, batch, again, settings, now));
  }

  lemma SameCandidatesStandStill(db: Db, cs: seq<Candidate>, cs': seq<Candidate>, outcome: Outcome)
    requires StandsStill(db, cs, outcome) && forall c :: c in cs <==> c in cs'
    ensures StandsStill(db, cs', outcome)
  {
    hide Inv, StaysHome, SameRows;
  }

  lemma EventsAfterSeesOnlyEvents(a: Db, b: Db, batch: seq<Event>, settings: Settings, now: int)
    requires a.events == b.events
    ensures EventsAfter(a, batch, settings, now) == EventsAfter(b, batch, settings, now)
  {
  }

  /** Workload names without bars or empty parts are enough for distinct source keys. */
  lemma {:induction false} PlainWorkloadsHaveDistinctKeys(order: seq<Group>, events: seq<Event>)
    requires ListsWorkloads(order, events) && forall g :: g in order ==> PlainGroup(g)
    ensures DistinctKeys(Listed(order, RuntimeCandidates(events).value))
  {
    var all := RuntimeCandidates(events).value;
    var cs := Listed(order, all);
    hide PlainGroup, RuntimeId;
    forall i, j | 0 <= i < j < |cs| ensures !SameKey(cs[i], cs[j]) {
      assert order[i] in order && order[j] in order;
      assert cs[i].id == RuntimeId(order[i]) && cs[j].id == RuntimeId(order[j]);
      RuntimeIdInjective(order[i], order[j]);
    }
  }

  // ------------------------------------------------------------------------- the failure

  /** Two entities that the candidate resolves to equally well. */
  ghost predicate Contested(c: Candidate, rows: seq<Row>, a: Id, b: Id) {
    a != b && a in Matches(c, rows) && b in Matches(c, rows)
  }

  lemma ContestedNeverResolves(c: Candidate, rows: seq<Row>, a: Id, b: Id)
    requires Contested(c, rows, a, b)
    ensures Resolve(c, rows) == None
  {
  }

  lemma MatchSurvives(c: Candidate, rows: seq<Row>, rows': seq<Row>, agent: Id)
    requires agent in Matches(c, rows)
    requires forall r :: r in rows' && r.agent == agent <==> r in rows && r.agent == agent
    ensures agent in Matches(c, rows')
  {
    hide Signals;
    var r :| r in rows && Signals(c, r.candidate) && r.agent == agent && !Conflicts(c, agent, rows);
    assert (set r | r in rows && r.agent == agent && r.candidate.registrationId != "" :: r.candidate.registrationId)
        == (set r | r in rows' && r.agent == agent && r.candidate.registrationId != "" :: r.candidate.registrationId);
    assert (set r | r in rows && r.agent == agent && r.candidate.namespace != "" :: r.candidate.namespace)
        == (set r | r in rows' && r.agent == agent && r.candidate.namespace != "" :: r.candidate.namespace);
    assert r in rows';
  }

  lemma {:induction false} ContestedGoesToANewEntity(db: Db, c: Candidate, a: Id, b: Id, now: int)
    requires Inv(db) && c.at <= now + TOLERANCE
    requires PreviousRow(db.rows, c).None? && Contested(c, db.rows, a, b)
    ensures Upsertable(db.rows, c, now) && Newest(db.rows, c) == c
    ensures Home(db, c) == db.nextId && db.nextId !in db.entities
  {
    hide Inv, Contested, Resolve, PreviousRow;
    ContestedNeverResolves(c, db.rows, a, b);
    NextIdIsUnused(db);
  }

  lemma {:induction false} MatchedEntityExists(db: Db, c: Candidate, a: Id)
    requires OwnersExist(db) && IdsBelowNext(db) && a in Matches(c, db.rows)
    ensures a < db.nextId
  {
    hide Signals, Conflicts;
  }

  lemma {:induction false} ContestedStaysContested(db: Db, c: Candidate, a: Id, b: Id, now: int)
    requires Inv(db) && c.at <= now + TOLERANCE
    requires PreviousRow(db.rows, c).None? && Contested(c, db.rows, a, b)
    ensures Resolve(c, RowsAfter(db, c)) == None
  {
    ContestedGoesToANewEntity(db, c, a, b, now);
    NextIdIsUnused(db);
    UpsertRows(db, c, now);
    PreviousRowHolds(db.rows, c);
    MatchedEntityExists(db, c, a);
    MatchedEntityExists(db, c, b);
    hide Inv, Signals, Conflicts, RowsAfter, Resolve, PreviousRow, Upsertable, KeysDistinct, Matches;
    var rows := RowsAfter(db, c);
    assert forall r :: r in rows <==> r in db.rows || r == Row(db.nextId, c);
    MatchSurvives(c, db.rows, rows, a);
    MatchSurvives(c, db.rows, rows, b);
    ContestedNeverResolves(c, rows, a, b);
  }

  /**
    A contested observation with a new source key makes an entity of its own, and from then
    on no upsert of it is accepted: it resolves to nothing, not to the entity it made.
   */
  lemma {:induction false} ContestedLeavesHome(db: Db, c: Candidate, a: Id, b: Id, settings: Settings, now: int)
    requires Inv(db) && c.at <= now + TOLERANCE
    requires PreviousRow(db.rows, c).None? && Contested(c, db.rows, a, b)
    ensures Upsert(db, c, false, settings, now).Committed?
    ensures Home(db, c) == db.nextId && Home(db, c) !in db.entities
    ensures !StaysHome(c, RowsAfter(db, c))
  {
    ContestedGoesToANewEntity(db, c, a, b, now);
    ContestedStaysContested(db, c, a, b, now);
    UpsertRows(db, c, now);
    var rows := RowsAfter(db, c);
    assert Row(Home(db, c), c) in rows;
    PreviousRowHolds(rows, c);
    hide Inv, Contested, RecordAfter, RowsAfter, EdgesOf, SetAlert, KeysDistinct, Resolve, PreviousRow;
  }

  lemma {:induction false} OneEventOneWorkload(e: Event)
    ensures AllCandidates([e]) == map[GroupOf(e) := Build(GroupOf(e), [e])]
    ensures !NamesUnsafeServer(e) && Fits(Build(GroupOf(e), [e])) ==> RuntimeCandidates([e]) == Some(AllCandidates([e]))
    ensures Lists([GroupOf(e)], AllCandidates([e]))
  {
    var g := GroupOf(e);
    assert [e][..0] == [];
    assert OfGroup([], g) == [] && OfGroup([e], g) == [e];
    assert SortEvents([]) == [] && SortEvents([e]) == [e];
    assert GroupsOf([e]) == {g};
    assert CandidateOf([e], g) == Build(g, [e]);
    assert forall h :: h in GroupsOf([e]) ==> h == g;
    assert AllCandidates([e]).Keys == {g};
  }

  lemma {:induction false} FirstSendingCreates(db: Db, e: Event, settings: Settings, now: int)
    requires Inv(db) && db.events == [] && AllInWindow([e], settings, now) && !NamesUnsafeServer(e) && Fits(Build(GroupOf(e), [e]))
    requires Upsert(db.(events := [e]), Build(GroupOf(e), [e]), false, settings, now).Committed?
    ensures var first := Ingest(db, [e], [GroupOf(e)], settings, now);
            && first.Committed? && first.db.events == [e]
            && first.db.rows == RowsAfter(db, Build(GroupOf(e), [e]))
            && BatchCandidates(db, [e], [GroupOf(e)], settings, now) == [Build(GroupOf(e), [e])]
  {
    hide Inv, Fits, Build, RecordAfter, EdgesOf, SetAlert, RuntimeCandidates, AllCandidates;
    OneEventOneWorkload(e);
    var g, c := GroupOf(e), Build(GroupOf(e), [e]);
    assert [e][..0] == [] && [c][..0] == [] && [g][..0] == [];
    assert AddEvents([], []) == [];
    assert AddEvents([], [e]) == [e];
    RetainHolds([e], now - settings.window * SECOND);
    assert EventsAfter(db, [e], settings, now) == [e];
    assert Listed([], map[g := c]) == [];
    assert Listed([g], map[g := c]) == [c];
    var start := db.(events := [e]);
    assert UpsertAll(start, [], settings, now) == Committed(start);
    assert UpsertAll(start, [c], settings, now) == Upsert(start, c, false, settings, now);
    assert RowsAfter(start, c) == RowsAfter(db, c);
  }

  lemma OneCandidateIsDistinct(c: Candidate)
    ensures DistinctKeys([c])
  {
  }

  lemma NothingExpired(batch: seq<Event>, cutoff: int)
    ensures !ExpiredTwin([], batch, cutoff)
  {
  }

  /**
    One event of a workload that two entities both claim: its batch is committed, and the
    same batch sent again is refused.
   */
  lemma ContestedWorkloadIsRefusedNextTime(db: Db, e: Event, a: Id, b: Id, settings: Settings, now: int)
    requires Inv(db) && db.events == [] && AllInWindow([e], settings, now) && !NamesUnsafeServer(e) && Fits(Build(GroupOf(e), [e]))
    requires PreviousRow(db.rows, Build(GroupOf(e), [e])).None? && Contested(Build(GroupOf(e), [e]), db.rows, a, b)
    ensures var first := Ingest(db, [e], [GroupOf(e)], settings, now);
            first.Committed? && Ingest(first.db, [e], [GroupOf(e)], settings, now) == RolledBack
  {
    var g, c := GroupOf(e), Build(GroupOf(e), [e]);
    assert c in [c];
    hide *;
    OneEventIsListed(e);
    OneCandidateIsDistinct(c);
    NothingExpired([e], now - settings.window * SECOND);
    ContestedStart(db, e, a, b, settings, now);
    FirstSendingCreates(db, e, settings, now);
    var first := Ingest(db, [e], [g], settings, now).db;
    ReingestionIff(db, first, [e], [g], [g], settings, now);
    StrayIn(db, first, c);
    OneStrayRefusesAll(first, [c], c, Ingest(first, [e], [g], settings, now));
  }

  lemma OneEventIsListed(e: Event)
    requires !NamesUnsafeServer(e) && Fits(Build(GroupOf(e), [e]))
    ensures ListsWorkloads([GroupOf(e)], [e])
  {
    OneEventOneWorkload(e);
    hide RuntimeCandidates, Lists, Fits, Build, AllCandidates;
  }

  lemma StrayIn(db: Db, first: Db, c: Candidate)
    requires first.rows == RowsAfter(db, c) && !StaysHome(c, RowsAfter(db, c))
    ensures !StaysHome(c, first.rows)
  {
    hide StaysHome, RowsAfter;
  }

  lemma ContestedStart(db: Db, e: Event, a: Id, b: Id, settings: Settings, now: int)
    requires Inv(db) && AllInWindow([e], settings, now)
    requires PreviousRow(db.rows, Build(GroupOf(e), [e])).None? && Contested(Build(GroupOf(e), [e]), db.rows, a, b)
    ensures var c := Build(GroupOf(e), [e]);
            && Upsert(db.(events := [e]), c, false, settings, now).Committed?
            && !StaysHome(c, RowsAfter(db, c))
  {
    assert e in [e];
    assert Build(GroupOf(e), [e]).at == e.at;
    hide Inv, Fits, Build, Upsert, RowsAfter, Contested, PreviousRow, StaysHome, Progress, ApprovalsKept;
    var start := db.(events := [e]);
    EventsStandApart(db, [e], start);
    ContestedLeavesHome(start, Build(GroupOf(e), [e]), a, b, settings, now);
    SameTablesSameRows(start, db, Build(GroupOf(e), [e]));
  }

  /** One candidate that resolves elsewhere refuses the batch, whatever else is in it. */
  lemma OneStrayRefusesAll(db: Db, cs: seq<Candidate>, c: Candidate, again: Outcome)
    requires StandsStill(db, cs, again) && c in cs && !StaysHome(c, db.rows)
    ensures again == RolledBack
  {
    hide Inv, SameRows, StaysHome;
  }

  lemma SameTablesSameRows(a: Db, b: Db, c: Candidate)
    requires a.rows == b.rows && a.nextId == b.nextId
    ensures RowsAfter(a, c) == RowsAfter(b, c)
  {
  }

  // A concrete input: two registrations of one workload, then one event of it.

  function CartRegistration(registration: string): Candidate {
    Candidate(
      source := "manual", id := registration, name := "cart", at := 0, evidence := [], endpoint := None,
      namespace := "shop", service := "cart", deployment := "blue", account := "", registrationId := registration,
      entityHint := "", provider := "", framework := "", model := "", owner := None, skills := {}, tools := {}, protocols := {})
  }

  const CART_EVENT := Event(
    "e1", "otel", 0, "cart", Some("shop"), Some("blue"), None, "planning", "", "", "", "", "", None, "", "")

  function TwoCarts(settings: Settings): Db {
    Settle(OneCart(settings), Upsert(OneCart(settings), CartRegistration("r2"), true, settings, 0))
  }

  function OneCart(settings: Settings): Db {
    Settle(EMPTY, Upsert(EMPTY, CartRegistration("r1"), true, settings, 0))
  }

  lemma OneCartRows(settings: Settings)
    ensures Inv(OneCart(settings)) && OneCart(settings).rows == [Row(0, CartRegistration("r1"))]
    ensures OneCart(settings).nextId == 1 && OneCart(settings).events == []
  {
    EmptyRegistryIsSound();
    hide Inv, RecordAfter, EdgesOf, SetAlert;
    assert Matches(CartRegistration("r1"), []) == {};
    assert Upsertable([], CartRegistration("r1"), 0);
    UpsertKeeps(EMPTY, OneCart(settings), CartRegistration("r1"), true, settings, 0);
  }

  lemma RegistrationsConflict(c: Candidate, row: Row, rows: seq<Row>)
    requires row in rows && c.registrationId != "" && row.candidate.registrationId != ""
    requires c.registrationId != row.candidate.registrationId
    ensures Conflicts(c, row.agent, rows)
  {
    var registrations := set r | r in rows && r.agent == row.agent && r.candidate.registrationId != "" :: r.candidate.registrationId;
    assert row.candidate.registrationId in registrations;
    assert row.candidate.registrationId !in {c.registrationId};
  }

  lemma TwoCartsRows(settings: Settings)
    ensures Inv(TwoCarts(settings)) && TwoCarts(settings).events == []
    ensures TwoCarts(settings).rows == [Row(0, CartRegistration("r1")), Row(1, CartRegistration("r2"))]
  {
    OneCartRows(settings);
    hide Inv, RecordAfter, EdgesOf, SetAlert, OneCart, Progress, ApprovalsKept;
    var db, c := OneCart(settings), CartRegistration("r2");
    var row := db.rows[0];
    assert "r1"[1] != "r2"[1];
    assert !SameKey(row.candidate, c);
    assert c.registrationId == "r2" && row.candidate.registrationId == "r1";
    RegistrationsConflict(c, row, db.rows);
    assert Matches(c, db.rows) == {};
    assert db.rows[1..] == [];
    assert PreviousRow(db.rows, c) == None;
    assert Upsertable(db.rows, c, 0);
    assert OtherRows(db.rows, c) == [row];
    UpsertKeeps(db, TwoCarts(settings), c, true, settings, 0);
  }

  lemma {:induction false} CartIsContested(rows: seq<Row>)
    requires rows == [Row(0, CartRegistration("r1")), Row(1, CartRegistration("r2"))]
    ensures var c := Build(GroupOf(CART_EVENT), [CART_EVENT]);
            Contested(c, rows, 0, 1) && PreviousRow(rows, c).None?
  {
    var c := Build(GroupOf(CART_EVENT), [CART_EVENT]);
    assert c.namespace == "shop" && c.service == "cart" && c.deployment == "blue" && c.registrationId == "" && c.source == "runtime";
    assert rows[0] in rows && rows[1] in rows;
    assert "shop" in (set r | r in rows && r.agent == 0 && r.candidate.namespace != "" :: r.candidate.namespace);
    assert "shop" in (set r | r in rows && r.agent == 1 && r.candidate.namespace != "" :: r.candidate.namespace);
    assert "runtime"[0] != "manual"[0];
    PreviousRowHolds(rows, c);
  }

  /** So a batch that was committed can be refused when it is sent again, with nothing changed in between. */
  lemma ReingestionCanBeRefused(settings: Settings)
    ensures var db := TwoCarts(settings);
            var first := Ingest(db, [CART_EVENT], [GroupOf(CART_EVENT)], settings, 0);
            && Inv(db) && first.Committed?
            && Ingest(first.db, [CART_EVENT], [GroupOf(CART_EVENT)], settings, 0) == RolledBack
  {
    TwoCartsRows(settings);
    CartIsContested(TwoCarts(settings).rows);
    CartEventFits(settings);
    hide *;
    ContestedWorkloadIsRefusedNextTime(TwoCarts(settings), CART_EVENT, 0, 1, settings, 0);
  }

  lemma CartEventFits(settings: Settings)
    ensures AllInWindow([CART_EVENT], settings, 0)
    ensures Fits(Build(GroupOf(CART_EVENT), [CART_EVENT]))
  {
    assert [CART_EVENT][..0] == [];
    assert EvidenceOf([]) == [];
    assert EvidenceOf([CART_EVENT]) == EventEvidence(CART_EVENT);
  }
}
