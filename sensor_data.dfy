/** The sensor-reading handlers of src/convex/sensorData.ts: the index choice
    and time window of `getSensorReadings`, its newest-first sort, and the
    per-category loop of `getLatestSensorReadings`. (`addSensorReading`
    changes the store and lives on `DataStore.Store`.) */
module SensorData {
  import opened Schema
  import opened Database

  // ---------------------------------------------------------------------------
  // Index choice
  // ---------------------------------------------------------------------------

  /** The two reading indexes, with their equality prefixes filled in. */
  datatype ReadingIndex =
    | ByFieldAndType(fieldId: Id, sensorType: SensorType)
    | ByFieldAndTimestamp(fieldId: Id)

  /** `getSensorReadings` picks the index by whether a category was supplied.
      A supplied category is one of the eight non-empty literals, hence always
      truthy, so presence alone decides. */
  function ChooseIndex(fieldId: Id, sensorType: Option<SensorType>): (ix: ReadingIndex)
    ensures ix.fieldId == fieldId
    ensures ix.ByFieldAndType? <==> sensorType.Some?
    ensures ix.ByFieldAndType? ==> ix.sensorType == sensorType.value
  {
    match sensorType
    case Some(t) => ByFieldAndType(fieldId, t)
    case None => ByFieldAndTimestamp(fieldId)
  }

  /** A reading lies in the range `q.eq(...)` selects on the index. */
  predicate OnIndex(ix: ReadingIndex, r: SensorReading)
  {
    r.fieldId == ix.fieldId && (ix.ByFieldAndType? ==> r.sensorType == ix.sensorType)
  }

  /** `.withIndex(ix, ...).collect()`, listed in creation order. The timestamp
      index really lists by timestamp first; that order is not observable,
      because the handler then sorts by timestamp with a stable sort and both
      indexes break ties by creation time (see `NewerFirst`). */
  function IndexScan(db: Db, ix: ReadingIndex): (r: seq<Doc<SensorReading>>)
    requires Valid(db)
    ensures forall d :: d in r <==> Stored(db.readings, d) && OnIndex(ix, d.body)
    ensures Ascending(r)
  {
    var r := ScanAsc(db.readings, db.nextId, (rd: SensorReading) => OnIndex(ix, rd));
    assert forall d | Stored(db.readings, d) && OnIndex(ix, d.body) :: d == Doc(d.id, db.readings[d.id]);
    r
  }

  // ---------------------------------------------------------------------------
  // Time window
  // ---------------------------------------------------------------------------

  /** JavaScript truthiness of an optional number: absent and 0 are falsy. */
  predicate Truthy(bound: Option<int>)
  {
    bound.Some? && bound.value != 0
  }

  /** The window test of `getSensorReadings`: a bound takes part only when it
      is truthy, and both bounds are inclusive. */
  predicate InWindow(timestamp: int, startDate: Option<int>, endDate: Option<int>)
  {
    && (!Truthy(startDate) || startDate.value <= timestamp)
    && (!Truthy(endDate) || timestamp <= endDate.value)
  }

  /** The post-filter: applied only when some bound is truthy. */
  function ApplyWindow(s: seq<Doc<SensorReading>>, startDate: Option<int>, endDate: Option<int>): (r: seq<Doc<SensorReading>>)
    ensures forall d :: d in r <==> d in s && InWindow(d.body.timestamp, startDate, endDate)
    ensures Ascending(s) ==> Ascending(r)
  {
    if Truthy(startDate) || Truthy(endDate) then
      var keep := (rd: SensorReading) => InWindow(rd.timestamp, startDate, endDate);
      if Ascending(s) then FilterKeepsAscending(s, keep); Filter(s, keep)
      else Filter(s, keep)
    else
      s
  }

  // ---------------------------------------------------------------------------
  // Newest-first sort
  // ---------------------------------------------------------------------------

  /** The order `filtered.sort((a, b) => b.timestamp - a.timestamp)` produces:
      larger timestamps first, and, because the sort is stable and the index
      listed equal timestamps in creation order, ties oldest first. */
  predicate NewerFirst(a: Doc<SensorReading>, b: Doc<SensorReading>)
  {
    a.body.timestamp > b.body.timestamp || (a.body.timestamp == b.body.timestamp && a.id <= b.id)
  }

  predicate SortedNewestFirst(s: seq<Doc<SensorReading>>)
  {
    forall i, j | 0 <= i < j < |s| :: NewerFirst(s[i], s[j])
  }

  /** One insertion step: `d` goes before the first element it is newer than. */
  function InsertNewestFirst(d: Doc<SensorReading>, s: seq<Doc<SensorReading>>): (r: seq<Doc<SensorReading>>)
    ensures multiset(r) == multiset(s) + multiset{d}
  {
    if s == [] || NewerFirst(d, s[0]) then
      [d] + s
    else
      assert s == [s[0]] + s[1..];
      [s[0]] + InsertNewestFirst(d, s[1..])
  }

  lemma {:induction false} InsertKeepsSorted(d: Doc<SensorReading>, s: seq<Doc<SensorReading>>)
    requires SortedNewestFirst(s)
    ensures SortedNewestFirst(InsertNewestFirst(d, s))
  {
    if s != [] && !NewerFirst(d, s[0]) {
      var rest := InsertNewestFirst(d, s[1..]);
      InsertKeepsSorted(d, s[1..]);
      forall e | e in rest ensures NewerFirst(s[0], e) {
        assert e in multiset(rest);
        if e != d {
          assert e in multiset(s[1..]);
        }
      }
      var r := [s[0]] + rest;
      forall i, j | 0 <= i < j < |r| ensures NewerFirst(r[i], r[j]) {
        if i == 0 {
          assert r[j] in rest;
        }
      }
    }
  }

  /** Inserting a reading whose id the list does not hold keeps the ids distinct. */
  lemma {:induction false} InsertKeepsDistinctIds(d: Doc<SensorReading>, s: seq<Doc<SensorReading>>)
    requires DistinctIds(s)
    requires forall e | e in s :: e.id != d.id
    ensures DistinctIds(InsertNewestFirst(d, s))
  {
    var r := InsertNewestFirst(d, s);
    if s == [] || NewerFirst(d, s[0]) {
      forall i, j | 0 <= i < j < |r| ensures r[i].id != r[j].id {
        if i == 0 {
          assert r[j] == s[j - 1];
        } else {
          assert r[i] == s[i - 1] && r[j] == s[j - 1];
        }
      }
    } else {
      var rest := InsertNewestFirst(d, s[1..]);
      InsertKeepsDistinctIds(d, s[1..]);
      forall e | e in rest ensures e.id != s[0].id {
        assert e in multiset(rest);
        if e != d {
          assert e in multiset(s[1..]);
          var k :| 0 <= k < |s[1..]| && s[1..][k] == e;
          assert s[k + 1] == e;
        }
      }
      forall i, j | 0 <= i < j < |r| ensures r[i].id != r[j].id {
        if i == 0 {
          assert r[j] == rest[j - 1];
        } else {
          assert r[i] == rest[i - 1] && r[j] == rest[j - 1];
        }
      }
    }
  }

  /** Sorting never lists a reading twice when its input does not. */
  lemma {:induction false} SortKeepsDistinctIds(s: seq<Doc<SensorReading>>)
    requires DistinctIds(s)
    ensures DistinctIds(SortNewestFirst(s))
  {
    if s != [] {
      var tail := SortNewestFirst(s[1..]);
      assert DistinctIds(s[1..]) by {
        forall i, j | 0 <= i < j < |s[1..]| ensures s[1..][i].id != s[1..][j].id {
          assert s[1..][i] == s[i + 1] && s[1..][j] == s[j + 1];
        }
      }
      SortKeepsDistinctIds(s[1..]);
      forall e | e in tail ensures e.id != s[0].id {
        assert e in multiset(tail);
        assert e in multiset(s[1..]);
        var k :| 0 <= k < |s[1..]| && s[1..][k] == e;
        assert s[k + 1] == e;
      }
      InsertKeepsDistinctIds(s[0], tail);
    }
  }

  /** The sort at the end of `getSensorReadings`: a permutation of its input,
      non-increasing in timestamp. */
  function SortNewestFirst(s: seq<Doc<SensorReading>>): (r: seq<Doc<SensorReading>>)
    ensures SortedNewestFirst(r)
    ensures multiset(r) == multiset(s)
  {
    if s == [] then []
    else
      assert s == [s[0]] + s[1..];
      var sortedTail := SortNewestFirst(s[1..]);
      InsertKeepsSorted(s[0], sortedTail);
      InsertNewestFirst(s[0], sortedTail)
  }

  // ---------------------------------------------------------------------------
  // getSensorReadings
  // ---------------------------------------------------------------------------

  /** What the query asks for: a reading of the field, of the category when
      one is given, inside the window. */
  predicate Selected(r: SensorReading, fieldId: Id, sensorType: Option<SensorType>,
                     startDate: Option<int>, endDate: Option<int>)
  {
    && r.fieldId == fieldId
    && (sensorType.Some? ==> r.sensorType == sensorType.value)
    && InWindow(r.timestamp, startDate, endDate)
  }

  /** `getSensorReadings`: empty, never an error, unless the caller owns the
      field; otherwise exactly the selected readings, newest first. */
  function GetSensorReadings(db: Db, caller: Option<UserId>, fieldId: Id, sensorType: Option<SensorType>,
                             startDate: Option<int>, endDate: Option<int>): (r: seq<Doc<SensorReading>>)
    requires Valid(db)
    ensures !OwnsField(db, caller, fieldId) ==> r == []
    ensures OwnsField(db, caller, fieldId) ==>
              multiset(r) == multiset(ApplyWindow(IndexScan(db, ChooseIndex(fieldId, sensorType)), startDate, endDate))
    ensures SortedNewestFirst(r)
    ensures DistinctIds(r)
    ensures forall d :: d in r <==>
              OwnsField(db, caller, fieldId) && Stored(db.readings, d) && Selected(d.body, fieldId, sensorType, startDate, endDate)
  {
    if !OwnsField(db, caller, fieldId) then []
    else
      var readings := IndexScan(db, ChooseIndex(fieldId, sensorType));
      var filtered := ApplyWindow(readings, startDate, endDate);
      SortKeepsDistinctIds(filtered);
      var sorted := SortNewestFirst(filtered);
      assert forall d :: d in sorted <==> d in filtered by {
        forall d ensures d in sorted <==> d in filtered {
          assert d in sorted <==> d in multiset(sorted);
        }
      }
      assert forall d :: d in filtered <==>
               Stored(db.readings, d) && Selected(d.body, fieldId, sensorType, startDate, endDate);
      sorted
  }

  /** Index equivalence: a typed query returns readings of that type only, and
      the untyped query returns exactly the union of the eight typed queries
      over the same window. */
  lemma IndexEquivalence(db: Db, caller: Option<UserId>, fieldId: Id, startDate: Option<int>, endDate: Option<int>)
    requires Valid(db)
    ensures forall t, d | d in GetSensorReadings(db, caller, fieldId, Some(t), startDate, endDate) ::
              d.body.sensorType == t
    ensures forall d :: d in GetSensorReadings(db, caller, fieldId, None, startDate, endDate) <==>
              exists k | 0 <= k < |SensorTypes| :: d in GetSensorReadings(db, caller, fieldId, Some(SensorTypes[k]), startDate, endDate)
  {
    forall d | d in GetSensorReadings(db, caller, fieldId, None, startDate, endDate)
      ensures exists k | 0 <= k < |SensorTypes| :: d in GetSensorReadings(db, caller, fieldId, Some(SensorTypes[k]), startDate, endDate)
    {
      var k := Ordinal(d.body.sensorType);
      assert d in GetSensorReadings(db, caller, fieldId, Some(SensorTypes[k]), startDate, endDate);
    }
  }

  /** Filtering with two predicates that agree everywhere gives the same list. */
  lemma {:induction false} FilterCongruent(s: seq<Doc<SensorReading>>, keep1: SensorReading -> bool, keep2: SensorReading -> bool)
    requires forall rd :: keep1(rd) == keep2(rd)
    ensures Filter(s, keep1) == Filter(s, keep2)
  {
    if s != [] {
      FilterCongruent(s[1..], keep1, keep2);
    }
  }

  /** A start bound of 0 filters like no start bound. */
  lemma ZeroStartIgnored(s: seq<Doc<SensorReading>>, endDate: Option<int>)
    ensures ApplyWindow(s, Some(0), endDate) == ApplyWindow(s, None, endDate)
  {
    FilterCongruent(s, (rd: SensorReading) => InWindow(rd.timestamp, Some(0), endDate),
                       (rd: SensorReading) => InWindow(rd.timestamp, None, endDate));
  }

  /** An end bound of 0 filters like no end bound. */
  lemma ZeroEndIgnored(s: seq<Doc<SensorReading>>, startDate: Option<int>)
    ensures ApplyWindow(s, startDate, Some(0)) == ApplyWindow(s, startDate, None)
  {
    FilterCongruent(s, (rd: SensorReading) => InWindow(rd.timestamp, startDate, Some(0)),
                       (rd: SensorReading) => InWindow(rd.timestamp, startDate, None));
  }

  /** The falsy-zero quirk: a start or end bound of 0 is ignored, exactly as if
      it had not been given. */
  lemma ZeroBoundIgnored(db: Db, caller: Option<UserId>, fieldId: Id, sensorType: Option<SensorType>,
                         startDate: Option<int>, endDate: Option<int>)
    requires Valid(db)
    ensures GetSensorReadings(db, caller, fieldId, sensorType, Some(0), endDate)
         == GetSensorReadings(db, caller, fieldId, sensorType, None, endDate)
    ensures GetSensorReadings(db, caller, fieldId, sensorType, startDate, Some(0))
         == GetSensorReadings(db, caller, fieldId, sensorType, startDate, None)
  {
    var s := IndexScan(db, ChooseIndex(fieldId, sensorType));
    ZeroStartIgnored(s, endDate);
    ZeroEndIgnored(s, startDate);
  }

  // ---------------------------------------------------------------------------
  // getLatestSensorReadings
  // ---------------------------------------------------------------------------

  predicate OfFieldAndType(r: SensorReading, fieldId: Id, t: SensorType)
  {
    r.fieldId == fieldId && r.sensorType == t
  }

  /** One round of the loop: the `by_field_and_type` index with both key
      fields fixed, `.order("desc").take(1)`. Index entries with equal keys are
      ordered by creation time, so this is the most recently INSERTED reading
      of the category, which need not be the one with the largest timestamp. */
  function LatestOfType(db: Db, fieldId: Id, t: SensorType): (r: Option<Doc<SensorReading>>)
    requires Valid(db)
    ensures r.Some? <==> exists id | id in db.readings :: OfFieldAndType(db.readings[id], fieldId, t)
    ensures r.Some? ==> Stored(db.readings, r.value) && OfFieldAndType(r.value.body, fieldId, t)
    ensures r.Some? ==> forall id | id in db.readings && OfFieldAndType(db.readings[id], fieldId, t) :: id <= r.value.id
  {
    var newestFirst := ScanDesc(db.readings, db.nextId, (rd: SensorReading) => OfFieldAndType(rd, fieldId, t));
    if |newestFirst| > 0 then
      assert forall id | id in db.readings && OfFieldAndType(db.readings[id], fieldId, t) :: id <= newestFirst[0].id by {
        forall id | id in db.readings && OfFieldAndType(db.readings[id], fieldId, t) ensures id <= newestFirst[0].id {
          var d := Doc(id, db.readings[id]);
          assert d in newestFirst;
        }
      }
      Some(newestFirst[0])
    else
      None
  }

  /** `getLatestSensorReadings`: empty unless the caller owns the field;
      otherwise, for each category in the fixed list, the most recent reading
      of the field in that category, if there is one. */
  method GetLatestSensorReadings(db: Db, caller: Option<UserId>, fieldId: Id) returns (latest: seq<Doc<SensorReading>>)
    requires Valid(db)
    ensures !OwnsField(db, caller, fieldId) ==> latest == []
    ensures |latest| <= |SensorTypes|
    ensures forall i, j | 0 <= i < j < |latest| ::
              Ordinal(latest[i].body.sensorType) < Ordinal(latest[j].body.sensorType)
    ensures forall i | 0 <= i < |latest| :: latest[i].body.fieldId == fieldId &&
              LatestOfType(db, fieldId, latest[i].body.sensorType) == Some(latest[i])
    ensures OwnsField(db, caller, fieldId) ==>
              forall t | LatestOfType(db, fieldId, t).Some? :: LatestOfType(db, fieldId, t).value in latest
  {
    if !OwnsField(db, caller, fieldId) {
      return [];
    }
    latest := CollectLatest(db, fieldId);
  }

  /** The loop of `getLatestSensorReadings`: push the latest reading of each
      category in list order, skipping the categories with none. */
  method CollectLatest(db: Db, fieldId: Id) returns (latest: seq<Doc<SensorReading>>)
    requires Valid(db)
    ensures |latest| <= |SensorTypes|
    ensures forall i, j | 0 <= i < j < |latest| ::
              Ordinal(latest[i].body.sensorType) < Ordinal(latest[j].body.sensorType)
    ensures forall i | 0 <= i < |latest| :: latest[i].body.fieldId == fieldId &&
              LatestOfType(db, fieldId, latest[i].body.sensorType) == Some(latest[i])
    ensures forall t | LatestOfType(db, fieldId, t).Some? :: LatestOfType(db, fieldId, t).value in latest
  {
    latest := [];
    for k := 0 to |SensorTypes|
      invariant |latest| <= k
      invariant forall i, j | 0 <= i < j < |latest| ::
                  Ordinal(latest[i].body.sensorType) < Ordinal(latest[j].body.sensorType)
      invariant forall i | 0 <= i < |latest| :: Ordinal(latest[i].body.sensorType) < k
      invariant forall i | 0 <= i < |latest| :: latest[i].body.fieldId == fieldId &&
                  LatestOfType(db, fieldId, latest[i].body.sensorType) == Some(latest[i])
      invariant forall t | Ordinal(t) < k && LatestOfType(db, fieldId, t).Some? ::
                  LatestOfType(db, fieldId, t).value in latest
    {
      var sensorType := SensorTypes[k];
      assert Ordinal(sensorType) == k;
      var found := LatestOfType(db, fieldId, sensorType);
      ghost var before := latest;
      if found.Some? {
        latest := latest + [found.value];
      }
      forall t | Ordinal(t) < k + 1 && LatestOfType(db, fieldId, t).Some?
        ensures LatestOfType(db, fieldId, t).value in latest
      {
        if Ordinal(t) == k {
          assert t == sensorType;
        } else {
          assert LatestOfType(db, fieldId, t).value in before;
        }
      }
    }
  }

  /** "Latest" is by insertion, not by timestamp: a reading inserted after
      another one of the same category wins even when its timestamp is older. */
  lemma LatestIsNotLargestTimestamp()
    ensures var db := Db(map[], map[], map[0 := SensorReading(5, Temperature, 24.1, "C", 2000, None),
                                        1 := SensorReading(5, Temperature, 23.5, "C", 1000, None)],
                         map[], map[], map[], 2);
            && Valid(db)
            && LatestOfType(db, 5, Temperature).Some?
            && LatestOfType(db, 5, Temperature).value.body.timestamp == 1000
            && db.readings[0].timestamp > 1000
  {
    var db := Db(map[], map[], map[0 := SensorReading(5, Temperature, 24.1, "C", 2000, None),
                                    1 := SensorReading(5, Temperature, 23.5, "C", 1000, None)],
                 map[], map[], map[], 2);
    var r := LatestOfType(db, 5, Temperature);
    assert OfFieldAndType(db.readings[1], 5, Temperature);
    assert r.value.id == 1;
  }
}
