/** The document store as a value: one map per table from ids to records, the
    id counter, the index scans the handlers use, and the ownership chain
    (caller -> field -> field.farmId -> farm.ownerId == caller) that gates
    every tenant-scoped handler. */
module Database {
  import opened Schema

  /** A stored document: its id (which also orders documents by creation) and its body. */
  datatype Doc<T> = Doc(id: Id, body: T)

  datatype Db = Db(
    farms: map<Id, Farm>,
    fields: map<Id, Field>,
    readings: map<Id, SensorReading>,
    spectral: map<Id, SpectralRecord>,
    alerts: map<Id, Alert>,
    images: map<Id, PlantImage>,
    nextId: Id)

  /** Every id in use was handed out by the counter. */
  ghost predicate Valid(db: Db)
  {
    && (forall id | id in db.farms :: id < db.nextId)
    && (forall id | id in db.fields :: id < db.nextId)
    && (forall id | id in db.readings :: id < db.nextId)
    && (forall id | id in db.spectral :: id < db.nextId)
    && (forall id | id in db.alerts :: id < db.nextId)
    && (forall id | id in db.images :: id < db.nextId)
  }

  /** The parent links that the checked inserts establish: a field's farm, a
      reading's field and an image's optional field exist. Alerts are not
      linked, because `createAlert` checks nothing. */
  ghost predicate Linked(db: Db)
  {
    && (forall id | id in db.fields :: db.fields[id].farmId in db.farms)
    && (forall id | id in db.readings :: db.readings[id].fieldId in db.fields)
    && (forall id | id in db.images && db.images[id].fieldId.Some? :: db.images[id].fieldId.value in db.fields)
  }

  /** `d` is exactly what the table holds under `d.id`. */
  predicate Stored<T(==)>(m: map<Id, T>, d: Doc<T>)
  {
    d.id in m && m[d.id] == d.body
  }

  /** Ids strictly increasing: creation order. */
  predicate Ascending<T>(s: seq<Doc<T>>)
  {
    forall i, j | 0 <= i < j < |s| :: s[i].id < s[j].id
  }

  /** Ids strictly decreasing: newest first. */
  predicate Descending<T>(s: seq<Doc<T>>)
  {
    forall i, j | 0 <= i < j < |s| :: s[i].id > s[j].id
  }

  /** No document id occurs twice: each stored document is listed at most once. */
  predicate DistinctIds<T>(s: seq<Doc<T>>)
  {
    forall i, j | 0 <= i < j < |s| :: s[i].id != s[j].id
  }

  /** An index scan with every key field fixed, `.collect()`ed in index order:
      the documents with id below `n` that satisfy `keep`, oldest first. */
  function ScanAsc<T(==)>(m: map<Id, T>, n: nat, keep: T -> bool): (r: seq<Doc<T>>)
    ensures forall i | 0 <= i < |r| :: r[i].id < n && Stored(m, r[i]) && keep(r[i].body)
    ensures forall id | id < n && id in m && keep(m[id]) :: Doc(id, m[id]) in r
    ensures Ascending(r)
  {
    if n == 0 then []
    else
      var rest := ScanAsc(m, n - 1, keep);
      if n - 1 in m && keep(m[n - 1]) then rest + [Doc(n - 1, m[n - 1])] else rest
  }

  /** The same scan with `.order("desc")`: newest first. */
  function ScanDesc<T(==)>(m: map<Id, T>, n: nat, keep: T -> bool): (r: seq<Doc<T>>)
    ensures forall i | 0 <= i < |r| :: r[i].id < n && Stored(m, r[i]) && keep(r[i].body)
    ensures forall id | id < n && id in m && keep(m[id]) :: Doc(id, m[id]) in r
    ensures Descending(r)
  {
    if n == 0 then []
    else
      var rest := ScanDesc(m, n - 1, keep);
      if n - 1 in m && keep(m[n - 1]) then [Doc(n - 1, m[n - 1])] + rest else rest
  }

  /** `Array.prototype.filter`: keeps the documents whose body satisfies `keep`, in order. */
  function Filter<T(==,!new)>(s: seq<Doc<T>>, keep: T -> bool): (r: seq<Doc<T>>)
    ensures forall d :: d in r <==> d in s && keep(d.body)
  {
    if s == [] then []
    else
      var rest := Filter(s[1..], keep);
      if keep(s[0].body) then [s[0]] + rest else rest
  }

  /** Filtering a newest-first list leaves it newest first. */
  lemma {:induction false} FilterKeepsDescending<T(!new)>(s: seq<Doc<T>>, keep: T -> bool)
    requires Descending(s)
    ensures Descending(Filter(s, keep))
  {
    if s != [] {
      FilterKeepsDescending(s[1..], keep);
      var rest := Filter(s[1..], keep);
      forall j | 0 <= j < |rest| ensures s[0].id > rest[j].id {
        assert rest[j] in s[1..];
      }
    }
  }

  /** Filtering a list in creation order leaves it in creation order. */
  lemma {:induction false} FilterKeepsAscending<T(!new)>(s: seq<Doc<T>>, keep: T -> bool)
    requires Ascending(s)
    ensures Ascending(Filter(s, keep))
  {
    if s != [] {
      FilterKeepsAscending(s[1..], keep);
      var rest := Filter(s[1..], keep);
      forall j | 0 <= j < |rest| ensures s[0].id < rest[j].id {
        assert rest[j] in s[1..];
      }
    }
  }

  // ---------------------------------------------------------------------------
  // The ownership chain
  // ---------------------------------------------------------------------------

  /** The caller is signed in and owns the farm, which exists. */
  predicate OwnsFarm(db: Db, caller: Option<UserId>, farmId: Id)
  {
    caller.Some? && farmId in db.farms && db.farms[farmId].ownerId == caller.value
  }

  /** The field exists and the caller owns its parent farm. */
  predicate OwnsField(db: Db, caller: Option<UserId>, fieldId: Id)
  {
    fieldId in db.fields && OwnsFarm(db, caller, db.fields[fieldId].farmId)
  }

  // ---------------------------------------------------------------------------
  // Errors raised by the handlers that throw
  // ---------------------------------------------------------------------------

  datatype Error =
    | Unauthenticated
    | FieldNotFound
    | AlertNotFound
    | AccessDenied
    | FarmNotFoundOrAccessDenied

  /** The text each error is thrown with. */
  function Message(e: Error): (m: string)
    ensures |m| > 0
  {
    match e
    case Unauthenticated => "User must be authenticated"
    case FieldNotFound => "Field not found"
    case AlertNotFound => "Alert not found"
    case AccessDenied => "Access denied"
    case FarmNotFoundOrAccessDenied => "Farm not found or access denied"
  }

  /** No two errors share a text, so a client tells them apart by the message
      alone; in particular a missing farm and a foreign farm, which share one
      error, cannot be told apart at all. */
  lemma MessagesDistinct(e1: Error, e2: Error)
    ensures Message(e1) == Message(e2) <==> e1 == e2
  {
  }

  datatype Result<+T> = Ok(value: T) | Err(error: Error)

  /** The guard of the handlers that throw on a farm: an unauthenticated caller
      is told so; a missing farm and a farm of another tenant get one and the
      same error. */
  function CheckFarm(db: Db, caller: Option<UserId>, farmId: Id): (r: Result<Farm>)
    ensures r.Ok? <==> OwnsFarm(db, caller, farmId)
    ensures r.Ok? ==> r.value == db.farms[farmId]
    ensures r.Err? ==> r.error == (if caller.None? then Unauthenticated else FarmNotFoundOrAccessDenied)
  {
    if caller.None? then Err(Unauthenticated)
    else if farmId !in db.farms || db.farms[farmId].ownerId != caller.value then Err(FarmNotFoundOrAccessDenied)
    else Ok(db.farms[farmId])
  }

  /** The guard of the handlers that throw on a field: no caller, then a
      missing field, then a missing or foreign parent farm, in that order. */
  function CheckField(db: Db, caller: Option<UserId>, fieldId: Id): (r: Result<Field>)
    ensures r.Ok? <==> OwnsField(db, caller, fieldId)
    ensures r.Ok? ==> r.value == db.fields[fieldId]
    ensures r.Err? ==> r.error == (if caller.None? then Unauthenticated
                                   else if fieldId !in db.fields then FieldNotFound
                                   else AccessDenied)
  {
    if caller.None? then Err(Unauthenticated)
    else if fieldId !in db.fields then Err(FieldNotFound)
    else
      var field := db.fields[fieldId];
      if field.farmId !in db.farms || db.farms[field.farmId].ownerId != caller.value then Err(AccessDenied)
      else Ok(field)
  }
}
