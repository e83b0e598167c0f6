/** Tenant isolation across every field-scoped query, and the concrete
    walk-throughs of the dashboard's main flows, proved from the contracts of
    the store and the queries alone. */
module Scenarios {
  import opened Schema
  import opened Database
  import opened DataStore
  import Farms
  import Fields
  import SensorData
  import Alerts
  import PlantImages
  import Maps

  /** A caller who does not own a field (directly or through its farm) sees
      nothing of it: every degrading query is empty or null, and the throwing
      one throws. */
  lemma TenantIsolation(db: Db, caller: Option<UserId>, fieldId: Id, sensorType: Option<SensorType>,
                        startDate: Option<int>, endDate: Option<int>, includeResolved: Option<bool>,
                        storageUrl: StorageId -> Option<string>)
    requires Valid(db)
    requires !OwnsField(db, caller, fieldId)
    ensures SensorData.GetSensorReadings(db, caller, fieldId, sensorType, startDate, endDate) == []
    ensures Alerts.GetFieldAlerts(db, caller, fieldId, includeResolved) == []
    ensures PlantImages.ListForField(db, caller, fieldId, storageUrl) == []
    ensures Maps.GetFieldMapDetails(db, caller, fieldId) == None
    ensures Fields.GetFieldById(db, caller, fieldId).Err?
    ensures fieldId in db.fields ==> Fields.GetFieldsByFarm(db, caller, db.fields[fieldId].farmId) == []
  {
  }

  function SampleFarm(): Farms.FarmInput
  {
    Farms.FarmInput("F1", LatLng(40.0, -88.0), BoundingBox(40.1, 39.9, -87.9, -88.1), "corn", 120.0, None)
  }

  function SampleField(farmId: Id): Field
  {
    Field(farmId, "D1", [LatLng(40.0, -88.0)], "corn", None, None, 12.0)
  }

  /** Two temperature readings, at t=1000 and then t=2000: the latest-per-category
      query reports exactly one temperature reading, the one of value 24.1. */
  method LatestReadingScenario()
  {
    var owner: UserId := 1;
    var store := new Store();
    var farm := store.CreateFarm(Some(owner), SampleFarm());
    var field := store.CreateField(Some(owner), SampleField(farm.value));
    var first := store.AddSensorReading(Some(owner), field.value, Temperature, 23.5, "°C", Some(1000), None, 5000);
    var second := store.AddSensorReading(Some(owner), field.value, Temperature, 24.1, "°C", Some(2000), None, 5000);
    assert first.Ok? && second.Ok? && first.value < second.value;

    var db := store.Snapshot();
    var latest := SensorData.GetLatestSensorReadings(db, Some(owner), field.value);
    var temperature := SensorData.LatestOfType(db, field.value, Temperature);
    assert SensorData.OfFieldAndType(db.readings[second.value], field.value, Temperature);
    assert temperature.Some? && temperature.value.id == second.value;
    assert temperature.value in latest;
    assert forall i | 0 <= i < |latest| && latest[i].body.sensorType == Temperature ::
             latest[i] == temperature.value && latest[i].body.value == 24.1;
  }

  /** An alert is raised, acknowledged and resolved by the field's owner; the
      default listing then hides it and the inclusive listing still shows it. */
  method AlertLifecycleScenario()
  {
    var owner: UserId := 1;
    var store := new Store();
    var farm := store.CreateFarm(Some(owner), SampleFarm());
    var field := store.CreateField(Some(owner), SampleField(farm.value));
    var alertId := store.CreateAlert(Alerts.AlertInput(field.value, IrrigationNeeded, Medium, "Low moisture", "Soil is dry", None));

    var listed := Alerts.GetFieldAlerts(store.Snapshot(), Some(owner), field.value, None);
    assert Doc(alertId, store.alerts[alertId]) in listed;
    assert !store.alerts[alertId].resolved;

    var acknowledged := store.AcknowledgeAlert(Some(owner), alertId, 6000);
    assert acknowledged.Ok? && store.alerts[alertId].acknowledgedBy == Some(owner);

    var resolved := store.ResolveAlert(Some(owner), alertId, 7000);
    assert resolved.Ok? && store.alerts[alertId].resolved && store.alerts[alertId].resolvedAt == Some(7000);
    assert store.alerts[alertId].acknowledgedBy == Some(owner);

    var open := Alerts.GetFieldAlerts(store.Snapshot(), Some(owner), field.value, Some(false));
    var all := Alerts.GetFieldAlerts(store.Snapshot(), Some(owner), field.value, Some(true));
    assert Doc(alertId, store.alerts[alertId]) !in open;
    assert Doc(alertId, store.alerts[alertId]) in all;
  }

  /** Another user sees no alerts of the field and cannot acknowledge them. */
  method ForeignTenantScenario()
  {
    var owner: UserId, stranger: UserId := 1, 2;
    var store := new Store();
    var farm := store.CreateFarm(Some(owner), SampleFarm());
    var field := store.CreateField(Some(owner), SampleField(farm.value));
    var alertId := store.CreateAlert(Alerts.AlertInput(field.value, PestRisk, High, "Aphids", "Aphids spotted", None));

    var seen := Alerts.GetFieldAlerts(store.Snapshot(), Some(stranger), field.value, Some(true));
    assert seen == [];
    var before := store.Snapshot();
    var attempt := store.AcknowledgeAlert(Some(stranger), alertId, 6000);
    assert attempt == Err(AccessDenied);
    assert store.Snapshot() == before;
  }
}
