/** The map query of src/convex/maps.ts: an ownership-gated join of a field,
    its farm, and the field's latest spectral record. */
module Maps {
  import opened Schema
  import opened Database

  datatype MapDetails = MapDetails(
    farmBoundingBox: BoundingBox,
    fieldGeometry: seq<LatLng>,
    cropType: string,
    area: real,
    latestSpectral: Option<Doc<SpectralRecord>>)

  /** The order of the `by_field_and_date` index with the field fixed:
      capture date, then creation time. `b` comes no later than `a`. */
  predicate NotAfter(b: Doc<SpectralRecord>, a: Doc<SpectralRecord>)
  {
    b.body.captureDate < a.body.captureDate || (b.body.captureDate == a.body.captureDate && b.id <= a.id)
  }

  /** The last entry, in index order, among the field's spectral records with
      id below `n`: what `.order("desc").take(1)` returns when `n` is the counter. */
  function LatestSpectralBelow(m: map<Id, SpectralRecord>, n: nat, fieldId: Id): (r: Option<Doc<SpectralRecord>>)
    ensures r.Some? ==> r.value.id < n && Stored(m, r.value) && r.value.body.fieldId == fieldId
    ensures r.Some? ==> forall id | id < n && id in m && m[id].fieldId == fieldId :: NotAfter(Doc(id, m[id]), r.value)
    ensures r.None? ==> forall id | id < n && id in m :: m[id].fieldId != fieldId
  {
    if n == 0 then None
    else
      var rest := LatestSpectralBelow(m, n - 1, fieldId);
      if n - 1 in m && m[n - 1].fieldId == fieldId
         && (rest.None? || rest.value.body.captureDate <= m[n - 1].captureDate)
      then Some(Doc(n - 1, m[n - 1]))
      else rest
  }

  /** `getFieldMapDetails`: null unless the caller owns the field; otherwise
      the farm's bounding box, the field's own geometry, crop and area, and the
      field's spectral record with the latest capture date (among equal dates,
      the last inserted), if it has any. */
  function GetFieldMapDetails(db: Db, caller: Option<UserId>, fieldId: Id): (r: Option<MapDetails>)
    requires Valid(db)
    ensures r.Some? <==> OwnsField(db, caller, fieldId)
    ensures r.Some? ==>
              && r.value.farmBoundingBox == db.farms[db.fields[fieldId].farmId].boundingBox
              && r.value.fieldGeometry == db.fields[fieldId].geometry
              && r.value.cropType == db.fields[fieldId].cropType
              && r.value.area == db.fields[fieldId].area
    ensures r.Some? ==>
              (r.value.latestSpectral.None? <==> forall id | id in db.spectral :: db.spectral[id].fieldId != fieldId)
    ensures r.Some? && r.value.latestSpectral.Some? ==>
              var latest := r.value.latestSpectral.value;
              && Stored(db.spectral, latest)
              && latest.body.fieldId == fieldId
              && forall id | id in db.spectral && db.spectral[id].fieldId == fieldId ::
                   NotAfter(Doc(id, db.spectral[id]), latest)
  {
    if !OwnsField(db, caller, fieldId) then None
    else
      var field := db.fields[fieldId];
      var farm := db.farms[field.farmId];
      var latest := LatestSpectralBelow(db.spectral, db.nextId, fieldId);
      Some(MapDetails(farm.boundingBox, field.geometry, field.cropType, field.area, latest))
  }
}
