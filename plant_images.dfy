/** The plant-photo query of src/convex/plantImages.ts. (`savePlantImage`
    changes the store and lives on `DataStore.Store`.) */
module PlantImages {
  import opened Schema
  import opened Database

  /** The status every freshly saved photo gets. */
  const Uploaded: string := "uploaded"

  /** What `savePlantImage` inserts: the caller as owner, the blob reference,
      status "uploaded", and `fieldId`, `title` and `notes` only when given. */
  function NewPlantImage(user: UserId, storageId: StorageId, fieldId: Option<Id>,
                         title: Option<string>, notes: Option<string>): (p: PlantImage)
    ensures p.userId == user && p.storageId == storageId && p.status == Uploaded
    ensures p.fieldId == fieldId && p.title == title && p.notes == notes
  {
    PlantImage(user, storageId, Uploaded, fieldId, title, notes)
  }

  /** A listed photo: the document plus the URL the blob store gives for it. */
  datatype ImageWithUrl = ImageWithUrl(doc: Doc<PlantImage>, fileUrl: Option<string>)

  /** The `docs.map(...)` step: attach to each document the URL of its blob.
      `storageUrl` stands for `ctx.storage.getUrl`, an opaque function here. */
  function WithUrls(docs: seq<Doc<PlantImage>>, storageUrl: StorageId -> Option<string>): (r: seq<ImageWithUrl>)
    ensures |r| == |docs|
    ensures forall i | 0 <= i < |r| :: r[i].doc == docs[i] && r[i].fileUrl == storageUrl(docs[i].body.storageId)
  {
    seq(|docs|, i requires 0 <= i < |docs| => ImageWithUrl(docs[i], storageUrl(docs[i].body.storageId)))
  }

  /** `listForField`: empty unless the caller owns the field; otherwise every
      photo saved against the field, newest first, each with its URL. */
  function ListForField(db: Db, caller: Option<UserId>, fieldId: Id, storageUrl: StorageId -> Option<string>)
    : (r: seq<ImageWithUrl>)
    requires Valid(db)
    ensures !OwnsField(db, caller, fieldId) ==> r == []
    ensures forall i | 0 <= i < |r| ::
              && Stored(db.images, r[i].doc)
              && r[i].doc.body.fieldId == Some(fieldId)
              && r[i].fileUrl == storageUrl(r[i].doc.body.storageId)
    ensures OwnsField(db, caller, fieldId) ==>
              forall id | id in db.images && db.images[id].fieldId == Some(fieldId) ::
                ImageWithUrl(Doc(id, db.images[id]), storageUrl(db.images[id].storageId)) in r
    ensures forall i, j | 0 <= i < j < |r| :: r[i].doc.id > r[j].doc.id
  {
    if !OwnsField(db, caller, fieldId) then []
    else
      var docs := ScanDesc(db.images, db.nextId, (p: PlantImage) => p.fieldId == Some(fieldId));
      var r := WithUrls(docs, storageUrl);
      assert forall id | id in db.images && db.images[id].fieldId == Some(fieldId) ::
               ImageWithUrl(Doc(id, db.images[id]), storageUrl(db.images[id].storageId)) in r by {
        forall id | id in db.images && db.images[id].fieldId == Some(fieldId)
          ensures ImageWithUrl(Doc(id, db.images[id]), storageUrl(db.images[id].storageId)) in r
        {
          var i :| 0 <= i < |docs| && docs[i] == Doc(id, db.images[id]);
          assert r[i] == ImageWithUrl(Doc(id, db.images[id]), storageUrl(db.images[id].storageId));
        }
      }
      r
  }
}
