/** Record shapes, enumerations and string validators of the agricultural store
    (the tables declared in src/convex/schema.ts). Numeric payloads that the
    handlers only store (coordinates, areas, sensor values, vegetation indices)
    are kept as `real` and never computed on. */
module Schema {

  /** A document id. Ids are handed out by one monotone counter, so a larger id
      means a later insertion: the id order stands in for `_creationTime`. */
  type Id = nat

  /** A user id, as resolved by the identity provider (outside this model). */
  type UserId = nat

  /** An opaque reference into the blob store. */
  type StorageId = nat

  datatype Option<+T> = None | Some(value: T)

  // ---------------------------------------------------------------------------
  // Enumerations and their string literals
  // ---------------------------------------------------------------------------

  datatype Role = Admin | User | Member

  function RoleName(r: Role): string
  {
    match r
    case Admin => "admin"
    case User => "user"
    case Member => "member"
  }

  /** The `roleValidator` union: accepts exactly the three role literals. */
  function ParseRole(s: string): (r: Option<Role>)
    ensures forall role :: r == Some(role) <==> RoleName(role) == s
  {
    if s == "admin" then Some(Admin)
    else if s == "user" then Some(User)
    else if s == "member" then Some(Member)
    else None
  }

  /** The eight sensor categories, in the order in which `getLatestSensorReadings`
      iterates them. */
  datatype SensorType =
    | SoilMoisture | Temperature | Humidity | LeafWetness
    | Ph | Nitrogen | Phosphorus | Potassium

  const SensorTypes: seq<SensorType> :=
    [SoilMoisture, Temperature, Humidity, LeafWetness, Ph, Nitrogen, Phosphorus, Potassium]

  /** The position of a category in `SensorTypes`: every category is listed, once. */
  function Ordinal(t: SensorType): (i: nat)
    ensures i < |SensorTypes| && SensorTypes[i] == t
    ensures forall k | 0 <= k < |SensorTypes| && SensorTypes[k] == t :: k == i
  {
    match t
    case SoilMoisture => 0
    case Temperature => 1
    case Humidity => 2
    case LeafWetness => 3
    case Ph => 4
    case Nitrogen => 5
    case Phosphorus => 6
    case Potassium => 7
  }

  function SensorTypeName(t: SensorType): string
  {
    match t
    case SoilMoisture => "soil_moisture"
    case Temperature => "temperature"
    case Humidity => "humidity"
    case LeafWetness => "leaf_wetness"
    case Ph => "ph"
    case Nitrogen => "nitrogen"
    case Phosphorus => "phosphorus"
    case Potassium => "potassium"
  }

  /** The `sensorType` validator: accepts exactly the eight category literals. */
  function ParseSensorType(s: string): (r: Option<SensorType>)
    ensures forall t :: r == Some(t) <==> SensorTypeName(t) == s
  {
    if s == "soil_moisture" then Some(SoilMoisture)
    else if s == "temperature" then Some(Temperature)
    else if s == "humidity" then Some(Humidity)
    else if s == "leaf_wetness" then Some(LeafWetness)
    else if s == "ph" then Some(Ph)
    else if s == "nitrogen" then Some(Nitrogen)
    else if s == "phosphorus" then Some(Phosphorus)
    else if s == "potassium" then Some(Potassium)
    else None
  }

  datatype AlertType =
    | PestRisk | DiseaseRisk | DroughtStress | NutrientDeficiency | IrrigationNeeded | HarvestReady

  function AlertTypeName(t: AlertType): string
  {
    match t
    case PestRisk => "pest_risk"
    case DiseaseRisk => "disease_risk"
    case DroughtStress => "drought_stress"
    case NutrientDeficiency => "nutrient_deficiency"
    case IrrigationNeeded => "irrigation_needed"
    case HarvestReady => "harvest_ready"
  }

  /** The alert `type` validator: accepts exactly the six alert-type literals. */
  function ParseAlertType(s: string): (r: Option<AlertType>)
    ensures forall t :: r == Some(t) <==> AlertTypeName(t) == s
  {
    if s == "pest_risk" then Some(PestRisk)
    else if s == "disease_risk" then Some(DiseaseRisk)
    else if s == "drought_stress" then Some(DroughtStress)
    else if s == "nutrient_deficiency" then Some(NutrientDeficiency)
    else if s == "irrigation_needed" then Some(IrrigationNeeded)
    else if s == "harvest_ready" then Some(HarvestReady)
    else None
  }

  datatype Severity = Low | Medium | High | Critical

  function SeverityName(s: Severity): string
  {
    match s
    case Low => "low"
    case Medium => "medium"
    case High => "high"
    case Critical => "critical"
  }

  /** The alert `severity` validator: accepts exactly the four severity literals. */
  function ParseSeverity(s: string): (r: Option<Severity>)
    ensures forall sev :: r == Some(sev) <==> SeverityName(sev) == s
  {
    if s == "low" then Some(Low)
    else if s == "medium" then Some(Medium)
    else if s == "high" then Some(High)
    else if s == "critical" then Some(Critical)
    else None
  }

  datatype ProcessingStatus = Pending | Processing | Completed | Failed

  function ProcessingStatusName(p: ProcessingStatus): string
  {
    match p
    case Pending => "pending"
    case Processing => "processing"
    case Completed => "completed"
    case Failed => "failed"
  }

  /** The spectral `processingStatus` validator. */
  function ParseProcessingStatus(s: string): (r: Option<ProcessingStatus>)
    ensures forall p :: r == Some(p) <==> ProcessingStatusName(p) == s
  {
    if s == "pending" then Some(Pending)
    else if s == "processing" then Some(Processing)
    else if s == "completed" then Some(Completed)
    else if s == "failed" then Some(Failed)
    else None
  }

  // ---------------------------------------------------------------------------
  // Records
  // ---------------------------------------------------------------------------

  datatype LatLng = LatLng(lat: real, lng: real)

  datatype BoundingBox = BoundingBox(north: real, south: real, east: real, west: real)

  datatype Farm = Farm(
    name: string,
    ownerId: UserId,
    location: LatLng,
    boundingBox: BoundingBox,
    cropType: string,
    area: real,
    description: Option<string>)

  datatype Field = Field(
    farmId: Id,
    name: string,
    geometry: seq<LatLng>,
    cropType: string,
    plantingDate: Option<int>,
    expectedHarvest: Option<int>,
    area: real)

  /** `timestamp` is epoch milliseconds. */
  datatype SensorReading = SensorReading(
    fieldId: Id,
    sensorType: SensorType,
    value: real,
    unit: string,
    timestamp: int,
    location: Option<LatLng>)

  datatype SpectralIndices = SpectralIndices(ndvi: real, evi: real, savi: real, gndvi: real)

  datatype SpectralMetadata = SpectralMetadata(resolution: real, bands: seq<string>, cloudCover: real)

  datatype SpectralRecord = SpectralRecord(
    fieldId: Id,
    imageUrl: string,
    captureDate: int,
    indices: SpectralIndices,
    processingStatus: ProcessingStatus,
    metadata: Option<SpectralMetadata>)

  /** `resolved` is required; the acknowledgement and resolution stamps are optional. */
  datatype Alert = Alert(
    fieldId: Id,
    alertType: AlertType,
    severity: Severity,
    title: string,
    description: string,
    location: Option<LatLng>,
    acknowledgedBy: Option<UserId>,
    acknowledgedAt: Option<int>,
    resolved: bool,
    resolvedAt: Option<int>)

  /** A saved plant photo. `fieldId`, `title` and `notes` are optional attributes. */
  datatype PlantImage = PlantImage(
    userId: UserId,
    storageId: StorageId,
    status: string,
    fieldId: Option<Id>,
    title: Option<string>,
    notes: Option<string>)
}
