/** The farm handlers of src/convex/farms.ts: the record `createFarm`
    stores, the restricted patch of `updateFarm`, and the two farm queries,
    which fail in different styles. (The mutations live on `DataStore.Store`.) */
module Farms {
  import opened Schema
  import opened Database

  /** The arguments of `createFarm`. The argument validator has no `ownerId`. */
  datatype FarmInput = FarmInput(
    name: string,
    location: LatLng,
    boundingBox: BoundingBox,
    cropType: string,
    area: real,
    description: Option<string>)

  /** `{ ...args, ownerId: user._id }`: the owner is always the caller. */
  function OwnedBy(input: FarmInput, owner: UserId): (f: Farm)
    ensures f.ownerId == owner
    ensures f.name == input.name && f.location == input.location && f.boundingBox == input.boundingBox
    ensures f.cropType == input.cropType && f.area == input.area && f.description == input.description
  {
    Farm(input.name, owner, input.location, input.boundingBox, input.cropType, input.area, input.description)
  }

  /** The optional arguments of `updateFarm` other than `farmId`. */
  datatype FarmPatch = FarmPatch(name: Option<string>, cropType: Option<string>, description: Option<string>)

  function Patched<T>(current: T, update: Option<T>): T
  {
    if update.Some? then update.value else current
  }

  /** `ctx.db.patch(farmId, updates)`: a supplied attribute replaces the stored
      one, an omitted one is kept, and nothing else can be named. */
  function ApplyFarmPatch(f: Farm, p: FarmPatch): (g: Farm)
    ensures g.ownerId == f.ownerId && g.location == f.location && g.boundingBox == f.boundingBox && g.area == f.area
    ensures p.name.Some? ==> g.name == p.name.value
    ensures p.name.None? ==> g.name == f.name
    ensures p.cropType.Some? ==> g.cropType == p.cropType.value
    ensures p.cropType.None? ==> g.cropType == f.cropType
    ensures p.description.Some? ==> g.description == p.description
    ensures p.description.None? ==> g.description == f.description
  {
    f.(name := Patched(f.name, p.name),
       cropType := Patched(f.cropType, p.cropType),
       description := if p.description.Some? then p.description else f.description)
  }

  /** Applying the same patch twice is applying it once; an empty patch changes nothing. */
  lemma ApplyFarmPatchIdempotent(f: Farm, p: FarmPatch)
    ensures ApplyFarmPatch(ApplyFarmPatch(f, p), p) == ApplyFarmPatch(f, p)
    ensures ApplyFarmPatch(f, FarmPatch(None, None, None)) == f
  {
  }

  /** `getUserFarms`: empty without a caller, otherwise exactly the caller's
      farms, in the creation order of the `by_owner` index. */
  function GetUserFarms(db: Db, caller: Option<UserId>): (r: seq<Doc<Farm>>)
    requires Valid(db)
    ensures caller.None? ==> r == []
    ensures forall d :: d in r <==> caller.Some? && Stored(db.farms, d) && d.body.ownerId == caller.value
    ensures forall d | d in r :: OwnsFarm(db, caller, d.id)
    ensures Ascending(r)
  {
    if caller.None? then []
    else
      var r := ScanAsc(db.farms, db.nextId, (f: Farm) => f.ownerId == caller.value);
      assert forall d | Stored(db.farms, d) && d.body.ownerId == caller.value :: d == Doc(d.id, db.farms[d.id]);
      r
  }

  /** `getFarmById` throws instead of returning nothing. */
  function GetFarmById(db: Db, caller: Option<UserId>, farmId: Id): (r: Result<Doc<Farm>>)
    ensures r.Ok? <==> OwnsFarm(db, caller, farmId)
    ensures r.Ok? ==> r.value == Doc(farmId, db.farms[farmId])
    ensures caller.None? ==> r == Err(Unauthenticated)
    ensures caller.Some? && !OwnsFarm(db, caller, farmId) ==> r == Err(FarmNotFoundOrAccessDenied)
  {
    match CheckFarm(db, caller, farmId)
    case Ok(farm) => Ok(Doc(farmId, farm))
    case Err(e) => Err(e)
  }

  /** No existence leak: asking for a farm that does not exist and for a farm
      of another tenant give the same answer. */
  lemma GetFarmByIdHidesExistence(db: Db, user: UserId, missing: Id, foreign: Id)
    requires missing !in db.farms
    requires foreign in db.farms && db.farms[foreign].ownerId != user
    ensures GetFarmById(db, Some(user), missing) == GetFarmById(db, Some(user), foreign)
  {
  }
}
