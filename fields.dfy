/** The field queries of src/convex/fields.ts: `getFieldsByFarm` degrades to
    an empty list, `getFieldById` throws. (`createField` changes the store and
    lives on `DataStore.Store`.) */
module Fields {
  import opened Schema
  import opened Database

  /** `getFieldsByFarm`: empty unless the caller owns the farm; otherwise
      exactly the fields whose `farmId` is that farm, in the creation order of
      the `by_farm` index. */
  function GetFieldsByFarm(db: Db, caller: Option<UserId>, farmId: Id): (r: seq<Doc<Field>>)
    requires Valid(db)
    ensures !OwnsFarm(db, caller, farmId) ==> r == []
    ensures forall d :: d in r <==> OwnsFarm(db, caller, farmId) && Stored(db.fields, d) && d.body.farmId == farmId
    ensures forall d | d in r :: OwnsField(db, caller, d.id)
    ensures Ascending(r)
  {
    if !OwnsFarm(db, caller, farmId) then []
    else
      var r := ScanAsc(db.fields, db.nextId, (f: Field) => f.farmId == farmId);
      assert forall d | Stored(db.fields, d) && d.body.farmId == farmId :: d == Doc(d.id, db.fields[d.id]);
      r
  }

  /** `getFieldById`: three distinct errors, then the stored field unchanged. */
  function GetFieldById(db: Db, caller: Option<UserId>, fieldId: Id): (r: Result<Doc<Field>>)
    ensures r.Ok? <==> OwnsField(db, caller, fieldId)
    ensures r.Ok? ==> r.value == Doc(fieldId, db.fields[fieldId])
    ensures caller.None? ==> r == Err(Unauthenticated)
    ensures caller.Some? && fieldId !in db.fields ==> r == Err(FieldNotFound)
    ensures caller.Some? && fieldId in db.fields && !OwnsField(db, caller, fieldId) ==> r == Err(AccessDenied)
  {
    match CheckField(db, caller, fieldId)
    case Ok(field) => Ok(Doc(fieldId, field))
    case Err(e) => Err(e)
  }

  /** The two read styles agree on who may see a field: a field is listed for
      its farm exactly when `getFieldById` would return it. */
  lemma ListedIffReadable(db: Db, caller: Option<UserId>, fieldId: Id)
    requires Valid(db)
    requires fieldId in db.fields
    ensures Doc(fieldId, db.fields[fieldId]) in GetFieldsByFarm(db, caller, db.fields[fieldId].farmId)
        <==> GetFieldById(db, caller, fieldId).Ok?
  {
  }
}
