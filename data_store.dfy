/** The store the Convex mutation handlers write to: one table per entity,
    keyed by ids from a single monotone counter. Every mutation resolves the
    caller (passed in as `caller`, `None` when nobody is signed in), walks the
    ownership chain, and either fails with the store untouched or makes
    exactly one insert or patch. `Date.now()` is the parameter `now`. The
    queries are the functions of the other modules, applied to `Snapshot()`. */
module DataStore {
  import opened Schema
  import opened Database
  import Farms
  import Alerts
  import SensorData
  import PlantImages

  class Store {
    var farms: map<Id, Farm>
    var fields: map<Id, Field>
    var readings: map<Id, SensorReading>
    var spectral: map<Id, SpectralRecord>
    var alerts: map<Id, Alert>
    var images: map<Id, PlantImage>
    var nextId: Id

    /** The tables as one value, for the queries. */
    function Snapshot(): Db
      reads this
    {
      Db(farms, fields, readings, spectral, alerts, images, nextId)
    }

    ghost predicate Valid()
      reads this
    {
      Database.Valid(Snapshot()) && Linked(Snapshot())
    }

    constructor ()
      ensures Valid()
      ensures Snapshot() == Db(map[], map[], map[], map[], map[], map[], 0)
    {
      farms, fields, readings, spectral, alerts, images := map[], map[], map[], map[], map[], map[];
      nextId := 0;
    }

    // -------------------------------------------------------------------------
    // src/convex/farms.ts
    // -------------------------------------------------------------------------

    /** `createFarm`: any signed-in caller may create a farm, and owns it. */
    method CreateFarm(caller: Option<UserId>, input: Farms.FarmInput) returns (r: Result<Id>)
      requires Valid()
      modifies this
      ensures Valid()
      ensures r.Ok? <==> caller.Some?
      ensures r.Err? ==> r.error == Unauthenticated && Snapshot() == old(Snapshot())
      ensures r.Ok? ==> r.value == old(nextId) && r.value !in old(farms)
      ensures r.Ok? ==> Snapshot() == old(Snapshot()).(farms := old(farms)[r.value := Farms.OwnedBy(input, caller.value)],
                                                       nextId := old(nextId) + 1)
      ensures r.Ok? ==> OwnsFarm(Snapshot(), caller, r.value)
    {
      if caller.None? {
        return Err(Unauthenticated);
      }
      var id := nextId;
      farms := farms[id := Farms.OwnedBy(input, caller.value)];
      nextId := nextId + 1;
      return Ok(id);
    }

    /** `updateFarm`: only the owner may patch, and only name, crop type and
      description; the owner, location, box and area stay. */
    method UpdateFarm(caller: Option<UserId>, farmId: Id, patch: Farms.FarmPatch) returns (r: Result<()>)
      requires Valid()
      modifies this
      ensures Valid()
      ensures r.Ok? <==> OwnsFarm(old(Snapshot()), caller, farmId)
      ensures r.Err? ==> r.error == (if caller.None? then Unauthenticated else FarmNotFoundOrAccessDenied)
      ensures r.Err? ==> Snapshot() == old(Snapshot())
      ensures r.Ok? ==> Snapshot() == old(Snapshot()).(farms := old(farms)[farmId := Farms.ApplyFarmPatch(old(farms)[farmId], patch)])
      ensures r.Ok? ==> OwnsFarm(Snapshot(), caller, farmId)
    {
      var access := CheckFarm(Snapshot(), caller, farmId);
      if access.Err? {
        return Err(access.error);
      }
      farms := farms[farmId := Farms.ApplyFarmPatch(access.value, patch)];
      return Ok(());
    }

    // -------------------------------------------------------------------------
    // src/convex/fields.ts
    // -------------------------------------------------------------------------

    /** `createField`: the arguments are stored as given, under a farm the
      caller owns. */
    method CreateField(caller: Option<UserId>, field: Field) returns (r: Result<Id>)
      requires Valid()
      modifies this
      ensures Valid()
      ensures r.Ok? <==> OwnsFarm(old(Snapshot()), caller, field.farmId)
      ensures r.Err? ==> r.error == (if caller.None? then Unauthenticated else FarmNotFoundOrAccessDenied)
      ensures r.Err? ==> Snapshot() == old(Snapshot())
      ensures r.Ok? ==> r.value == old(nextId) && r.value !in old(fields)
      ensures r.Ok? ==> Snapshot() == old(Snapshot()).(fields := old(fields)[r.value := field], nextId := old(nextId) + 1)
      ensures r.Ok? ==> OwnsField(Snapshot(), caller, r.value)
    {
      var access := CheckFarm(Snapshot(), caller, field.farmId);
      if access.Err? {
        return Err(access.error);
      }
      var id := nextId;
      fields := fields[id := field];
      nextId := nextId + 1;
      return Ok(id);
    }

    // -------------------------------------------------------------------------
    // src/convex/sensorData.ts
    // -------------------------------------------------------------------------

    /** `addSensorReading`: one reading added to a field the caller owns; an
      absent or zero timestamp becomes `now`. */
    method AddSensorReading(caller: Option<UserId>, fieldId: Id, sensorType: SensorType, value: real, unit: string,
                            timestamp: Option<int>, location: Option<LatLng>, now: int) returns (r: Result<Id>)
      requires Valid()
      modifies this
      ensures Valid()
      ensures r.Ok? <==> OwnsField(old(Snapshot()), caller, fieldId)
      ensures r.Err? ==> r.error == (if caller.None? then Unauthenticated
                                     else if fieldId !in old(fields) then FieldNotFound
                                     else AccessDenied)
      ensures r.Err? ==> Snapshot() == old(Snapshot())
      ensures r.Ok? ==> r.value == old(nextId) && r.value !in old(readings)
      ensures r.Ok? ==>
                var stamped := if timestamp.None? || timestamp.value == 0 then now else timestamp.value;
                Snapshot() == old(Snapshot()).(readings := old(readings)[r.value := SensorReading(fieldId, sensorType, value, unit, stamped, location)],
                                               nextId := old(nextId) + 1)
    {
      var access := CheckField(Snapshot(), caller, fieldId);
      if access.Err? {
        return Err(access.error);
      }
      // `args.timestamp || Date.now()`
      var stamped := if SensorData.Truthy(timestamp) then timestamp.value else now;
      var id := nextId;
      readings := readings[id := SensorReading(fieldId, sensorType, value, unit, stamped, location)];
      nextId := nextId + 1;
      return Ok(id);
    }

    // -------------------------------------------------------------------------
    // src/convex/alerts.ts
    // -------------------------------------------------------------------------

    /** `createAlert`: no identity, ownership or even field-existence check;
      the new alert is active. */
    method CreateAlert(input: Alerts.AlertInput) returns (id: Id)
      requires Valid()
      modifies this
      ensures Valid()
      ensures id == old(nextId) && id !in old(alerts)
      ensures Snapshot() == old(Snapshot()).(alerts := old(alerts)[id := Alerts.NewAlert(input)], nextId := old(nextId) + 1)
      ensures Alerts.StateOf(alerts[id]) == Alerts.Active
      ensures Alerts.ResolvedKept(old(alerts), alerts)
    {
      id := nextId;
      alerts := alerts[id := Alerts.NewAlert(input)];
      nextId := nextId + 1;
    }

    /** `acknowledgeAlert`: stamps the acknowledger and time over whatever
      was there, and touches nothing else. */
    method AcknowledgeAlert(caller: Option<UserId>, alertId: Id, now: int) returns (r: Result<()>)
      requires Valid()
      modifies this
      ensures Valid()
      ensures r.Ok? <==> alertId in old(alerts) && OwnsField(old(Snapshot()), caller, old(alerts)[alertId].fieldId)
      ensures r.Err? ==> r.error == (if caller.None? then Unauthenticated
                                     else if alertId !in old(alerts) then AlertNotFound
                                     else if old(alerts)[alertId].fieldId !in old(fields) then FieldNotFound
                                     else AccessDenied)
      ensures r.Err? ==> Snapshot() == old(Snapshot())
      ensures r.Ok? ==> Snapshot() == old(Snapshot()).(alerts := old(alerts)[alertId := Alerts.Acknowledge(old(alerts)[alertId], caller.value, now)])
      ensures Alerts.ResolvedKept(old(alerts), alerts)
    {
      var access := Alerts.CheckAlert(Snapshot(), caller, alertId);
      if access.Err? {
        return Err(access.error);
      }
      alerts := alerts[alertId := Alerts.Acknowledge(access.value, caller.value, now)];
      return Ok(());
    }

    /** `resolveAlert`: marks the alert resolved at `now`, from any state, and
      keeps the acknowledger. */
    method ResolveAlert(caller: Option<UserId>, alertId: Id, now: int) returns (r: Result<()>)
      requires Valid()
      modifies this
      ensures Valid()
      ensures r.Ok? <==> alertId in old(alerts) && OwnsField(old(Snapshot()), caller, old(alerts)[alertId].fieldId)
      ensures r.Err? ==> r.error == (if caller.None? then Unauthenticated
                                     else if alertId !in old(alerts) then AlertNotFound
                                     else if old(alerts)[alertId].fieldId !in old(fields) then FieldNotFound
                                     else AccessDenied)
      ensures r.Err? ==> Snapshot() == old(Snapshot())
      ensures r.Ok? ==> Snapshot() == old(Snapshot()).(alerts := old(alerts)[alertId := Alerts.Resolve(old(alerts)[alertId], now)])
      ensures r.Ok? ==> Alerts.StateOf(alerts[alertId]) == Alerts.Resolved
      ensures Alerts.ResolvedKept(old(alerts), alerts)
    {
      var access := Alerts.CheckAlert(Snapshot(), caller, alertId);
      if access.Err? {
        return Err(access.error);
      }
      alerts := alerts[alertId := Alerts.Resolve(access.value, now)];
      return Ok(());
    }

    // -------------------------------------------------------------------------
    // src/convex/plantImages.ts
    // -------------------------------------------------------------------------

    /** `savePlantImage`: any signed-in caller may save a photo; a field, when
      named, must exist and be the caller's. */
    method SavePlantImage(caller: Option<UserId>, storageId: StorageId, fieldId: Option<Id>,
                          title: Option<string>, notes: Option<string>) returns (r: Result<Id>)
      requires Valid()
      modifies this
      ensures Valid()
      ensures r.Ok? <==> caller.Some? && (fieldId.Some? ==> OwnsField(old(Snapshot()), caller, fieldId.value))
      ensures r.Err? ==> r.error == (if caller.None? then Unauthenticated
                                     else if fieldId.value !in old(fields) then FieldNotFound
                                     else AccessDenied)
      ensures r.Err? ==> Snapshot() == old(Snapshot())
      ensures r.Ok? ==> r.value == old(nextId) && r.value !in old(images)
      ensures r.Ok? ==>
                Snapshot() == old(Snapshot()).(images := old(images)[r.value := PlantImages.NewPlantImage(caller.value, storageId, fieldId, title, notes)],
                                               nextId := old(nextId) + 1)
    {
      if caller.None? {
        return Err(Unauthenticated);
      }
      if fieldId.Some? {
        var access := CheckField(Snapshot(), caller, fieldId.value);
        if access.Err? {
          return Err(access.error);
        }
      }
      var id := nextId;
      images := images[id := PlantImages.NewPlantImage(caller.value, storageId, fieldId, title, notes)];
      nextId := nextId + 1;
      return Ok(id);
    }
  }
}
