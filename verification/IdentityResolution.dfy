/**
  Which observations are the same entity, in terms of what they say: addresses, workloads and
  registrations that agree, and marks that speak against it.
 */
module IdentityResolution {
  import opened Options
  import opened EvidenceMerge
  import opened CensusModel
  import opened RuntimeGrouping
  import opened Registry
  import opened RegistryInvariants

  // ------------------------------------------------------------------------- addresses

  predicate SameLetter(a: char, b: char) {
    || a == b
    || ('A' <= a <= 'Z' && a as int + 32 == b as int)
    || ('A' <= b <= 'Z' && b as int + 32 == a as int)
  }

  predicate SameLetters(a: string, b: string) {
    |a| == |b| && forall i :: 0 <= i < |a| ==> SameLetter(a[i], b[i])
  }

  /** The port a scheme implies, or 0 where it implies none. */
  function SchemePort(scheme: string): nat {
    if SameLetters(scheme, "https") then 443 else if SameLetters(scheme, "http") then 80 else 0
  }

  /** No port is the same as the scheme's own one. */
  predicate SamePort(scheme: string, a: nat, b: nat) {
    a == b || (a == 0 && b == SchemePort(scheme)) || (b == 0 && a == SchemePort(scheme))
  }

  predicate SamePath(a: string, b: string) {
    a == b || (a == "" && b == "/") || (b == "" && a == "/")
  }

  /** Two spellings of one address: letter case of scheme and host, an implied port and an empty path do not count. */
  predicate SameAddress(a: Endpoint, b: Endpoint) {
    SameLetters(a.scheme, b.scheme) && SameLetters(a.host, b.host) && SamePort(a.scheme, a.port, b.port) && SamePath(a.path, b.path)
  }

  lemma {:induction false} LowerTextIs(s: string)
    ensures |LowerText(s)| == |s| && forall i :: 0 <= i < |s| ==> LowerText(s)[i] == Lower(s[i])
  {
    if s != "" {
      LowerTextIs(s[1..]);
    }
  }

  lemma SameLetterIff(a: char, b: char)
    ensures Lower(a) == Lower(b) <==> SameLetter(a, b)
  {
  }

  lemma {:induction false} SameLettersIff(a: string, b: string)
    ensures LowerText(a) == LowerText(b) <==> SameLetters(a, b)
  {
    LowerTextIs(a);
    LowerTextIs(b);
    hide Lower, SameLetter;
    if |a| == |b| {
      forall i | 0 <= i < |a| ensures Lower(a[i]) == Lower(b[i]) <==> SameLetter(a[i], b[i]) {
        SameLetterIff(a[i], b[i]);
      }
      if LowerText(a) == LowerText(b) {
        assert forall i :: 0 <= i < |a| ==> LowerText(a)[i] == LowerText(b)[i];
      }
    }
  }

  lemma {:induction false} LowerIsItself(s: string)
    requires forall i :: 0 <= i < |s| ==> !('A' <= s[i] <= 'Z')
    ensures LowerText(s) == s
  {
    LowerTextIs(s);
  }

  lemma {:induction false} SchemePortIs(scheme: string)
    ensures SchemePort(scheme) == if LowerText(scheme) == "https" then 443 else if LowerText(scheme) == "http" then 80 else 0
  {
    SameLettersIff(scheme, "https");
    SameLettersIff(scheme, "http");
    LowerIsItself("https");
    LowerIsItself("http");
    hide LowerText, SameLetters;
  }

  /** The canonical form tells addresses apart, and nothing else. */
  lemma CanonicalMeansSameAddress(a: Endpoint, b: Endpoint)
    ensures Canonical(a) == Canonical(b) <==> SameAddress(a, b)
  {
    SameLettersIff(a.scheme, b.scheme);
    SameLettersIff(a.host, b.host);
    SchemePortIs(a.scheme);
    SchemePortIs(b.scheme);
    hide LowerText, SameLetters, SchemePort;
  }

  // ------------------------------------------------------------------------------ marks

  predicate SameSourceKey(a: Candidate, b: Candidate) {
    a.source == b.source && a.id == b.id
  }

  /** Something that both observations say of themselves is the same. */
  predicate SharesMark(c: Candidate, o: Candidate) {
    || SameSourceKey(c, o)
    || (c.endpoint.Some? && o.endpoint.Some? && SameAddress(c.endpoint.value, o.endpoint.value))
    || ("" !in [c.namespace, c.service, c.deployment] && [c.namespace, c.service, c.deployment] == [o.namespace, o.service, o.deployment])
    || (c.registrationId != "" && c.registrationId == o.registrationId)
  }

  /** The entity was registered as something else, or was seen, and never in the observation's namespace. */
  ghost predicate Contrary(c: Candidate, id: Id, rows: seq<Row>) {
    || (c.registrationId != "" && exists r :: r in rows && r.agent == id && r.candidate.registrationId != "" && r.candidate.registrationId != c.registrationId)
    || (c.namespace != "" && (exists r :: r in rows && r.agent == id && r.candidate.namespace != "")
        && forall r :: r in rows && r.agent == id ==> r.candidate.namespace != c.namespace)
  }

  /** One of the entity's observations shares a mark with this one, and none speaks against it. */
  ghost predicate Claims(c: Candidate, id: Id, rows: seq<Row>) {
    (exists r :: r in rows && r.agent == id && SharesMark(c, r.candidate)) && !Contrary(c, id, rows)
  }

  /** The only entity with a claim. */
  ghost predicate Sole(c: Candidate, id: Id, rows: seq<Row>) {
    Claims(c, id, rows) && forall other: Id :: Claims(c, other, rows) ==> other == id
  }

  lemma SignalsMeansSharesMark(c: Candidate, o: Candidate)
    ensures Signals(c, o) <==> SharesMark(c, o)
  {
    if c.endpoint.Some? && o.endpoint.Some? {
      CanonicalMeansSameAddress(c.endpoint.value, o.endpoint.value);
    }
    hide Canonical, SameAddress;
  }

  lemma ConflictsMeansContrary(c: Candidate, id: Id, rows: seq<Row>)
    ensures Conflicts(c, id, rows) <==> Contrary(c, id, rows)
  {
    var registrations := set r | r in rows && r.agent == id && r.candidate.registrationId != "" :: r.candidate.registrationId;
    var namespaces := set r | r in rows && r.agent == id && r.candidate.namespace != "" :: r.candidate.namespace;
    OtherThan(registrations, c.registrationId);
    if r :| r in rows && r.agent == id && r.candidate.registrationId != "" && r.candidate.registrationId != c.registrationId {
      assert r.candidate.registrationId in registrations;
    }
    if r :| r in rows && r.agent == id && r.candidate.namespace != "" {
      assert r.candidate.namespace in namespaces;
    }
    if c.namespace != "" && c.namespace !in namespaces && namespaces != {} {
      var x :| x in namespaces;
      forall r | r in rows && r.agent == id ensures r.candidate.namespace != c.namespace {}
    }
  }

  lemma OtherThan(seen: set<string>, x: string)
    ensures seen != {} && seen != {x} <==> exists y :: y in seen && y != x
  {
    if seen != {} && forall y :: y in seen ==> y == x {
      assert seen == {x};
    }
  }

  lemma {:induction false} MatchesAreClaims(c: Candidate, rows: seq<Row>)
    ensures forall id: Id :: id in Matches(c, rows) <==> Claims(c, id, rows)
  {
    hide Signals, Conflicts, SharesMark, Contrary;
    forall id: Id ensures id in Matches(c, rows) <==> Claims(c, id, rows) {
      ConflictsMeansContrary(c, id, rows);
      forall r | r in rows ensures Signals(c, r.candidate) <==> SharesMark(c, r.candidate) {
        SignalsMeansSharesMark(c, r.candidate);
      }
    }
  }

  lemma {:induction false} ResolveIsSole(c: Candidate, rows: seq<Row>, id: Id)
    ensures Resolve(c, rows) == Some(id) <==> Sole(c, id, rows)
  {
    MatchesAreClaims(c, rows);
    hide Claims, Matches;
    var matches := Matches(c, rows);
    if Sole(c, id, rows) {
      assert matches == {id};
    }
  }

  // ------------------------------------------------------------------------ what an upsert does

  /** The observation is stored with this entity, and the other rows are the ones there were. */
  ghost predicate StoredUnder(rows: seq<Row>, rows': seq<Row>, c: Candidate, id: Id) {
    forall r :: r in rows' <==> (r in rows && !SameSourceKey(r.candidate, c)) || r == Row(id, c)
  }

  lemma UpsertMakes(db: Db, c: Candidate, registered: bool, settings: Settings, now: int)
    ensures Upsert(db, c, registered, settings, now).Committed? <==> Upsertable(db.rows, c, now)
    ensures Upsert(db, c, registered, settings, now).Committed? ==>
              var db' := Upsert(db, c, registered, settings, now).db;
              db'.rows == RowsAfter(db, c) && db'.entities.Keys == db.entities.Keys + {Home(db, c)}
  {
    hide RecordAfter, RowsAfter, EdgesOf, SetAlert, Home, Upsertable;
  }

  lemma {:induction false} HomeOfNew(db: Db, c: Candidate)
    requires Inv(db) && PreviousRow(db.rows, c) == None
    ensures Newest(db.rows, c) == c
    ensures match Resolve(c, db.rows) case Some(agent) => Home(db, c) == agent && agent in db.entities case None => Home(db, c) == db.nextId && db.nextId !in db.entities
  {
    hide KeysDistinct, Projected, AlertsAgree, DistinctIds, Resolve;
    if Resolve(c, db.rows).Some? {
      ResolvedOwnerHasRow(c, db.rows);
    }
  }

  /** The observation is stored with the only entity that claims it, or, if there is none, with a new one. */
  ghost predicate Joins(db: Db, db': Db, c: Candidate, id: Id) {
    && StoredUnder(db.rows, db'.rows, c, id) && db'.entities.Keys == db.entities.Keys + {id}
    && (id in db.entities <==> exists home: Id :: Sole(c, home, db.rows))
    && (id in db.entities ==> Sole(c, id, db.rows))
  }

  lemma {:induction false} NewKeyIsNew(db: Db, c: Candidate, now: int)
    requires forall r :: r in db.rows ==> !SameSourceKey(r.candidate, c)
    ensures PreviousRow(db.rows, c) == None && (Upsertable(db.rows, c, now) <==> c.at <= now + 300 * SECOND)
  {
    PreviousRowHolds(db.rows, c);
    hide Resolve, Newest, PreviousRow;
  }

  lemma StoredAtHome(db: Db, c: Candidate, now: int)
    requires Inv(db) && Upsertable(db.rows, c, now)
    ensures StoredUnder(db.rows, RowsAfter(db, c), Newest(db.rows, c), Home(db, c))
  {
    hide *;
    UpsertRows(db, c, now);
    UpsertGoesHome(db, c, now);
    StoredUnderMeans(db.rows, RowsAfter(db, c), c, Newest(db.rows, c), Home(db, c));
  }

  lemma StoredUnderMeans(rows: seq<Row>, rows': seq<Row>, c: Candidate, stored: Candidate, id: Id)
    requires SameKey(stored, c)
    requires forall r :: r in rows' <==> (r in rows && !SameKey(r.candidate, c)) || r == Row(id, stored)
    ensures StoredUnder(rows, rows', stored, id)
  {
  }

  lemma {:induction false} SoleIfAny(db: Db, c: Candidate)
    ensures (exists home: Id :: Sole(c, home, db.rows)) <==> Resolve(c, db.rows).Some?
    ensures Resolve(c, db.rows).Some? ==> Sole(c, Resolve(c, db.rows).value, db.rows)
  {
    hide *;
    forall home: Id ensures Sole(c, home, db.rows) <==> Resolve(c, db.rows) == Some(home) {
      ResolveIsSole(c, db.rows, home);
    }
  }

  /**
    An observation with a new source key is stored whenever it is not from the future: with
    the only entity that has a claim to it, and with a new entity if none or several have.
   */
  lemma {:induction false} NewObservationGoesTo(db: Db, c: Candidate, registered: bool, settings: Settings, now: int)
    requires Inv(db) && forall r :: r in db.rows ==> !SameSourceKey(r.candidate, c)
    ensures Upsert(db, c, registered, settings, now).Committed? <==> c.at <= now + 300 * SECOND
    ensures c.at <= now + 300 * SECOND ==>
              var db' := Upsert(db, c, registered, settings, now).db;
              exists id: Id :: Joins(db, db', c, id)
  {
    NewKeyIsNew(db, c, now);
    HomeOfNew(db, c);
    SoleIfAny(db, c);
    UpsertMakes(db, c, registered, settings, now);
    if c.at <= now + 300 * SECOND {
      StoredAtHome(db, c, now);
      hide Inv, Upsert, Upsertable, Home, Resolve, PreviousRow, Newest, RowsAfter, Sole, StoredUnder, SameSourceKey;
      assert Joins(db, Upsert(db, c, registered, settings, now).db, c, Home(db, c));
    }
    hide *;
  }

  lemma {:induction false} HomeOfKnown(db: Db, c: Candidate, r: Row, now: int)
    requires Inv(db) && PreviousRow(db.rows, c) == Some(r)
    ensures var newest := if r.candidate.at > c.at then r.candidate else c;
            && Newest(db.rows, c) == newest
            && (Upsertable(db.rows, c, now) <==> c.at <= now + 300 * SECOND && Resolve(newest, db.rows) == Some(r.agent))
            && (Upsertable(db.rows, c, now) ==> Home(db, c) == r.agent)
  {
    hide Inv, Resolve;
  }

  /**
    An observation whose source key is stored replaces it unless the stored one is newer; it
    is refused exactly if it is from the future, or if what would be stored does not belong
    to the very entity that holds the key, and to it alone.
   */
  lemma {:induction false} KnownObservationStays(db: Db, c: Candidate, r: Row, registered: bool, settings: Settings, now: int)
    requires Inv(db) && r in db.rows && SameSourceKey(r.candidate, c)
    ensures var newest := if r.candidate.at > c.at then r.candidate else c;
            && (Upsert(db, c, registered, settings, now).Committed? <==> c.at <= now + 300 * SECOND && Sole(newest, r.agent, db.rows))
            && (Upsert(db, c, registered, settings, now).Committed? ==>
                  var db' := Upsert(db, c, registered, settings, now).db;
                  StoredUnder(db.rows, db'.rows, newest, r.agent) && db'.entities.Keys == db.entities.Keys)
  {
    hide *;
    KnownKeyIsKnown(db, c, r);
    HomeOfKnown(db, c, r, now);
    UpsertMakes(db, c, registered, settings, now);
    ResolveIsSole(if r.candidate.at > c.at then r.candidate else c, db.rows, r.agent);
    if Upsertable(db.rows, c, now) {
      StoredAtHome(db, c, now);
    }
  }

  lemma {:induction false} KnownKeyIsKnown(db: Db, c: Candidate, r: Row)
    requires Inv(db) && r in db.rows && SameSourceKey(r.candidate, c)
    ensures PreviousRow(db.rows, c) == Some(r) && r.agent in db.entities
  {
    hide Projected, AlertsAgree, IdsBelowNext, DistinctIds;
    PreviousRowHolds(db.rows, c);
    hide PreviousRow;
  }

  /**
    An observation at the address of a stored one, in whatever spelling, joins its entity,
    unless a mark speaks against it or another entity claims it as well.
   */
  lemma {:induction false} SameAddressSharesEntity(db: Db, c: Candidate, r: Row, registered: bool, settings: Settings, now: int)
    requires Inv(db) && c.at <= now + 300 * SECOND && forall o :: o in db.rows ==> !SameSourceKey(o.candidate, c)
    requires r in db.rows && c.endpoint.Some? && r.candidate.endpoint.Some? && SameAddress(c.endpoint.value, r.candidate.endpoint.value)
    requires !Contrary(c, r.agent, db.rows) && forall other: Id :: other != r.agent ==> !Claims(c, other, db.rows)
    ensures Upsert(db, c, registered, settings, now).Committed?
    ensures var db' := Upsert(db, c, registered, settings, now).db;
            Row(r.agent, c) in db'.rows && db'.entities.Keys == db.entities.Keys
  {
    hide *;
    SameAddressIsSole(db, c, r);
    OwnerIsThere(db, r);
    NewObservationGoesTo(db, c, registered, settings, now);
    var db' := Upsert(db, c, registered, settings, now).db;
    var id: Id :| Joins(db, db', c, id);
    JoinsSole(db, db', c, id, r.agent);
  }

  lemma OwnerIsThere(db: Db, r: Row)
    requires Inv(db) && r in db.rows
    ensures r.agent in db.entities
  {
    hide KeysDistinct, Projected, AlertsAgree, IdsBelowNext, DistinctIds;
  }

  lemma SameAddressIsSole(db: Db, c: Candidate, r: Row)
    requires r in db.rows && c.endpoint.Some? && r.candidate.endpoint.Some? && SameAddress(c.endpoint.value, r.candidate.endpoint.value)
    requires !Contrary(c, r.agent, db.rows) && forall other: Id :: other != r.agent ==> !Claims(c, other, db.rows)
    ensures Sole(c, r.agent, db.rows)
  {
    assert SharesMark(c, r.candidate);
    hide SharesMark, Contrary;
  }

  lemma JoinsSole(db: Db, db': Db, c: Candidate, id: Id, home: Id)
    requires Joins(db, db', c, id) && Sole(c, home, db.rows) && home in db.entities
    ensures id == home && Row(home, c) in db'.rows && db'.entities.Keys == db.entities.Keys
  {
    hide Claims;
  }

  /** One address written in four ways. */
  lemma FourSpellings()
    ensures var plain := Endpoint("https://bot.example/", "https", "bot.example", 0, "/");
            && SameAddress(plain, Endpoint("HTTPS://Bot.Example/", "HTTPS", "Bot.Example", 0, "/"))
            && SameAddress(plain, Endpoint("https://bot.example:443/", "https", "bot.example", 443, "/"))
            && SameAddress(plain, Endpoint("https://bot.example", "https", "bot.example", 0, ""))
            && !SameAddress(plain, Endpoint("https://bot.example:80/", "https", "bot.example", 80, "/"))
  {
    assert SchemePort("https") == 443;
  }
}
