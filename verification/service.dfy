/** The canvas service: it sequences calls to the metadata store, the blob store and
    the notification sink. There is no transaction across the stores, so every
    contract below says what each store holds after each step has failed or succeeded. */
module CanvasService {
  import opened Models
  import Pg = PostgresStorage
  import Blob = MinioStorage
  import Kafka = KafkaTransport

  /** Every row's whitelist is duplicate-free and leaves out the row's owner. */
  ghost predicate AllWhitelistsSound(table: map<string, Pg.Row>)
  {
    forall k :: k in table ==> Pg.WhitelistSound(table[k])
  }

  /** The canvas CreateCanvas hands to the metadata store. */
  function NewCanvas(id: string, name: string, width: Int32, height: Int32, ownerId: string, privacy: string): Canvas
  {
    Canvas(id, name, width, height, ownerId, [], privacy, [], "")
  }

  /** The read policy for images: a blob read that fails, for whatever reason,
      yields an empty image instead of an error. */
  function ImageOrEmpty(objects: map<string, Bytes>, blobDown: bool, canvasId: string): (image: Bytes)
    ensures image == [] || (!blobDown && Blob.ObjectName(canvasId) in objects)
    ensures !blobDown && Blob.ObjectName(canvasId) in objects ==> image == objects[Blob.ObjectName(canvasId)]
  {
    if !blobDown && Blob.ObjectName(canvasId) in objects then objects[Blob.ObjectName(canvasId)] else []
  }

  /** The canvas the list operations build from a metadata row and an image. */
  function FromInternal(c: InternalCanvas, image: Bytes): Canvas
  {
    Canvas(c.id, c.name, c.width, c.height, c.ownerId, c.membersIds, c.privacy, image, "")
  }

  class CanvasService {
    const meta: Pg.Storage
    const blob: Blob.MinioStorage
    const sink: Kafka.Outbox

    /** The service keeps the metadata store consistent and every whitelist sound. */
    ghost predicate Valid()
      reads meta
    {
      meta.Valid() && AllWhitelistsSound(meta.table)
    }

    constructor (meta: Pg.Storage, blob: Blob.MinioStorage, sink: Kafka.Outbox)
      requires meta.Valid() && AllWhitelistsSound(meta.table)
      ensures this.meta == meta && this.blob == blob && this.sink == sink
      ensures Valid()
    {
      this.meta := meta;
      this.blob := blob;
      this.sink := sink;
    }

    /** Creates the metadata row only: fresh ID, no members, no image. */
    method CreateCanvas(name: string, width: Int32, height: Int32, ownerId: string, privacy: string,
                        newId: string, metaDown: bool) returns (r: Result<string, Err>)
      requires Valid()
      requires IsUuid(newId)  // what uuid.New().String() produces
      modifies meta
      ensures Valid()
      ensures r.Success? <==> IsUuid(ownerId) && !metaDown && newId !in old(meta.table)
      ensures !IsUuid(ownerId) ==> r == Failure(ErrInvalidOwnerID)
      ensures IsUuid(ownerId) && metaDown ==> r == Failure(Wrapped("failed to execute insert", Unreachable))
      ensures IsUuid(ownerId) && !metaDown && newId in old(meta.table) ==> r == Failure(ErrCanvasExists)
      ensures r.Failure? ==> meta.table == old(meta.table) && meta.order == old(meta.order)
      ensures r.Success? ==>
                && r.value == newId
                && meta.table == old(meta.table)[newId := Pg.Row(name, width, height, ownerId, [], privacy, "")]
                && meta.order == old(meta.order) + [newId]
    {
      var canvas := NewCanvas(newId, name, width, height, ownerId, privacy);
      var saved := meta.Save(canvas, metaDown);
      if saved.Failure? {
        return Failure(saved.error);
      }
      return Success(saved.value);
    }

    /** Point read with the image. A failed metadata lookup yields no canvas and no error;
        a failed blob read yields an empty image. The owner is not copied. */
    method GetCanvasById(canvasId: string, metaDown: bool, blobDown: bool)
      returns (canvas: Option<Canvas>, err: Option<Err>)
      ensures err == None
      ensures canvas.Some? <==> IsUuid(canvasId) && !metaDown && canvasId in meta.table
      ensures canvas.Some? ==>
                var row := meta.table[canvasId];
                && canvas.value.id == canvasId
                && canvas.value.name == row.name
                && canvas.value.width == row.width
                && canvas.value.height == row.height
                && canvas.value.ownerId == ""
                && canvas.value.membersIds == row.membersIds
                && canvas.value.privacy == row.privacy
                && canvas.value.image == ImageOrEmpty(blob.objects, blobDown, canvasId)
                && canvas.value.imageUrl == ""
    {
      var internal := meta.GetByID(canvasId, metaDown);
      if internal.Failure? {
        return None, None;
      }
      var image := blob.GetCanvas(canvasId, blobDown);
      var canvasImage := if image.Success? then image.value else [];
      var c := internal.value;
      return Some(Canvas(c.id, c.name, c.width, c.height, "", c.membersIds, c.privacy, canvasImage, "")), None;
    }

    /** Point read without touching the blob store. */
    method GetCanvasByIdNoImage(canvasId: string, metaDown: bool)
      returns (canvas: Option<Canvas>, err: Option<Err>)
      ensures err == None
      ensures canvas.Some? <==> IsUuid(canvasId) && !metaDown && canvasId in meta.table
      ensures canvas.Some? ==>
                var row := meta.table[canvasId];
                && canvas.value.id == canvasId
                && canvas.value.name == row.name
                && canvas.value.width == row.width
                && canvas.value.height == row.height
                && canvas.value.ownerId == ""
                && canvas.value.membersIds == row.membersIds
                && canvas.value.privacy == row.privacy
                && canvas.value.image == []
                && canvas.value.imageUrl == ""
    {
      var internal := meta.GetByID(canvasId, metaDown);
      if internal.Failure? {
        return None, None;
      }
      var c := internal.value;
      return Some(Canvas(c.id, c.name, c.width, c.height, "", c.membersIds, c.privacy, [], "")), None;
    }

    /** Batch read with images: one item per row found, in row order; each item's
        image read fails on its own without failing the batch. `blobFails` holds the
        canvas IDs whose image read fails in transport during this call. */
    method GetCanvases(canvasIds: seq<string>, metaDown: bool, blobFails: set<string>) returns (r: Result<seq<Canvas>, Err>)
      requires Valid()
      ensures r.Success? <==> AllUuids(canvasIds) && !metaDown
      ensures !AllUuids(canvasIds) ==> r == Failure(Wrapped("invalid canvas UUID", UuidSyntax))
      ensures AllUuids(canvasIds) && metaDown ==> r == Failure(Wrapped("failed to get canvases", Unreachable))
      ensures r.Success? ==>
                var rows := Pg.Select(meta.table, meta.order, Pg.ByIds(canvasIds));
                && |r.value| == |rows|
                && forall j :: 0 <= j < |rows| ==>
                     r.value[j] == FromInternal(rows[j], ImageOrEmpty(blob.objects, rows[j].id in blobFails, rows[j].id))
      ensures r.Success? ==> forall j :: 0 <= j < |r.value| ==>
                r.value[j].id in canvasIds && r.value[j].id in meta.table
    {
      var internal := meta.GetByIDs(canvasIds, metaDown);
      if internal.Failure? {
        return Failure(internal.error);
      }
      var rows := internal.value;
      var canvases: seq<Canvas> := [];
      var i := 0;
      while i < |rows|
        invariant 0 <= i <= |rows|
        invariant |canvases| == i
        invariant forall j :: 0 <= j < i ==>
                    canvases[j] == FromInternal(rows[j], ImageOrEmpty(blob.objects, rows[j].id in blobFails, rows[j].id))
      {
        var image := blob.GetCanvas(rows[i].id, rows[i].id in blobFails);
        var canvasImage := if image.Success? then image.value else [];
        canvases := canvases + [FromInternal(rows[i], canvasImage)];
        i := i + 1;
      }
      assert forall j :: 0 <= j < |rows| ==> rows[j] in rows;
      return Success(canvases);
    }

    /** Batch read without images. */
    method GetCanvasesNoImage(canvasIds: seq<string>, metaDown: bool) returns (r: Result<seq<Canvas>, Err>)
      requires Valid()
      ensures r.Success? <==> AllUuids(canvasIds) && !metaDown
      ensures !AllUuids(canvasIds) ==> r == Failure(Wrapped("invalid canvas UUID", UuidSyntax))
      ensures AllUuids(canvasIds) && metaDown ==> r == Failure(Wrapped("failed to get canvases", Unreachable))
      ensures r.Success? ==>
                var rows := Pg.Select(meta.table, meta.order, Pg.ByIds(canvasIds));
                && |r.value| == |rows|
                && forall j :: 0 <= j < |rows| ==> r.value[j] == FromInternal(rows[j], [])
    {
      var internal := meta.GetByIDs(canvasIds, metaDown);
      if internal.Failure? {
        return Failure(internal.error);
      }
      var rows := internal.value;
      var canvases: seq<Canvas> := [];
      var i := 0;
      while i < |rows|
        invariant 0 <= i <= |rows|
        invariant |canvases| == i
        invariant forall j :: 0 <= j < i ==> canvases[j] == FromInternal(rows[j], [])
      {
        canvases := canvases + [FromInternal(rows[i], [])];
        i := i + 1;
      }
      return Success(canvases);
    }

    /** The canvases a user owns or is whitelisted on, without images. */
    method GetCanvasesByUserId(userId: string, metaDown: bool) returns (r: Result<seq<Canvas>, Err>)
      requires Valid()
      ensures r.Success? <==> IsUuid(userId) && !metaDown
      ensures !IsUuid(userId) ==> r == Failure(Wrapped("invalid user ID", UuidSyntax))
      ensures IsUuid(userId) && metaDown ==> r == Failure(Wrapped("query error", Unreachable))
      ensures r.Success? ==>
                var rows := Pg.Select(meta.table, meta.order, Pg.ByUser(userId));
                && |r.value| == |rows|
                && forall j :: 0 <= j < |rows| ==> r.value[j] == FromInternal(rows[j], [])
      ensures r.Success? ==> forall j :: 0 <= j < |r.value| ==>
                r.value[j].ownerId == userId || userId in r.value[j].membersIds
    {
      var internal := meta.GetCanvasesByUserId(userId, metaDown);
      if internal.Failure? {
        return Failure(internal.error);
      }
      var rows := internal.value;
      var canvases: seq<Canvas> := [];
      var i := 0;
      while i < |rows|
        invariant 0 <= i <= |rows|
        invariant |canvases| == i
        invariant forall j :: 0 <= j < i ==> canvases[j] == FromInternal(rows[j], [])
      {
        canvases := canvases + [FromInternal(rows[i], [])];
        i := i + 1;
      }
      assert forall j :: 0 <= j < |rows| ==> rows[j] in rows;
      return Success(canvases);
    }

    /** Blob first, then the locator in the row. A failed blob write leaves both
        stores as they were; a failed row update leaves the new blob behind. */
    method UploadImage(canvasId: string, image: Bytes, blobDown: bool, metaDown: bool) returns (r: Result<string, Err>)
      requires Valid()
      modifies meta, blob
      ensures Valid() && meta.order == old(meta.order)
      ensures blobDown ==>
                && r == Failure(Unreachable)
                && blob.objects == old(blob.objects)
                && meta.table == old(meta.table)
      ensures !blobDown ==> blob.objects == old(blob.objects)[Blob.ObjectName(canvasId) := image]
      ensures !blobDown && !IsUuid(canvasId) ==>
                r == Failure(Wrapped("invalid canvas UUID", UuidSyntax)) && meta.table == old(meta.table)
      ensures !blobDown && IsUuid(canvasId) && metaDown ==>
                r == Failure(Wrapped("failed to update image URL", Unreachable)) && meta.table == old(meta.table)
      ensures !blobDown && IsUuid(canvasId) && !metaDown ==>
                && r == Success(canvasId)
                && meta.table == (if canvasId in old(meta.table)
                                  then old(meta.table)[canvasId := old(meta.table)[canvasId].(image := Blob.LocatorUrl(blob.bucketName, canvasId))]
                                  else old(meta.table))
    {
      var imageUrl, err := blob.SaveCanvas(canvasId, image, blobDown);
      if err.Some? {
        return Failure(err.value);
      }
      var updated := meta.SetImageUrl(canvasId, imageUrl, metaDown);
      if updated.Failure? {
        return Failure(updated.error);
      }
      return Success(canvasId);
    }

    /** Sends one join request built from the row; neither store changes. */
    method JoinToCanvas(canvasId: string, userId: string, metaDown: bool, sinkDown: bool) returns (r: Result<string, Err>)
      modifies sink
      ensures !IsUuid(canvasId) ==> r == Failure(ErrInvalidCanvasID) && sink.sent == old(sink.sent)
      ensures IsUuid(canvasId) && metaDown ==>
                r == Failure(Wrapped("failed to get canvas", Unreachable)) && sink.sent == old(sink.sent)
      ensures IsUuid(canvasId) && !metaDown && canvasId !in meta.table ==>
                r == Failure(Wrapped("failed to get canvas", NoRows)) && sink.sent == old(sink.sent)
      ensures IsUuid(canvasId) && !metaDown && canvasId in meta.table ==>
                var row := meta.table[canvasId];
                var message := AddToWhiteListMessage(canvasId, row.name, row.ownerId, userId);
                && (sinkDown ==>
                      && r == Failure(Wrapped("failed to send verification message",
                                              Wrapped("failed to send message", Unreachable)))
                      && sink.sent == old(sink.sent))
                && (!sinkDown ==> r == Success(canvasId) && sink.sent == old(sink.sent) + [message])
    {
      var internal := meta.GetByID(canvasId, metaDown);
      if internal.Failure? {
        return Failure(internal.error);
      }
      var message := AddToWhiteListMessage(canvasId, internal.value.name, internal.value.ownerId, userId);
      var err := sink.SendAddToWhiteListMessage(message, sinkDown);
      if err.Some? {
        return Failure(Wrapped("failed to send verification message", err.value));
      }
      return Success(canvasId);
    }

    /** Whitelisting through the metadata store's conditional append. */
    method AddToWhiteList(canvasId: string, userId: string, metaDown: bool) returns (r: Result<string, Err>)
      requires Valid()
      modifies meta
      ensures Valid() && meta.order == old(meta.order)
      ensures r.Success? <==>
                IsUuid(canvasId) && IsUuid(userId) && !metaDown && canvasId in old(meta.table)
                && userId != old(meta.table)[canvasId].ownerId && userId !in old(meta.table)[canvasId].membersIds
      ensures (IsUuid(canvasId) && IsUuid(userId) && !metaDown && canvasId in old(meta.table)
                && userId == old(meta.table)[canvasId].ownerId) ==> r == Failure(ErrAddOwnerToWhiteList)
      ensures (IsUuid(canvasId) && IsUuid(userId) && !metaDown && canvasId in old(meta.table)
                && userId in old(meta.table)[canvasId].membersIds) ==>
                r == Failure(Message("user already in whitelist or canvas not found"))
      ensures r.Failure? ==> meta.table == old(meta.table)
      ensures r.Success? ==>
                && r.value == canvasId
                && meta.table == old(meta.table)[canvasId := old(meta.table)[canvasId].(
                                   membersIds := old(meta.table)[canvasId].membersIds + [userId])]
    {
      var added := meta.AddToWhiteList(canvasId, userId, metaDown);
      if added.Failure? {
        return Failure(added.error);
      }
      Pg.AppendKeepsWhitelistSound(old(meta.table)[canvasId], userId);
      return Success(canvasId);
    }

    /** Renames and re-classifies a canvas; a missing row is not an error. */
    method UpdateCanvas(canvasId: string, name: string, privacy: string, metaDown: bool) returns (r: Result<string, Err>)
      requires Valid()
      modifies meta
      ensures Valid() && meta.order == old(meta.order)
      ensures !IsUuid(canvasId) ==> r == Failure(Wrapped("invalid canvas UUID", UuidSyntax))
      ensures IsUuid(canvasId) && metaDown ==> r == Failure(Wrapped("failed to update canvas", Unreachable))
      ensures IsUuid(canvasId) && !metaDown ==> r == Success(canvasId)
      ensures r.Failure? ==> meta.table == old(meta.table)
      ensures r.Success? ==>
                meta.table == (if canvasId in old(meta.table)
                               then old(meta.table)[canvasId := old(meta.table)[canvasId].(name := name, privacy := privacy)]
                               else old(meta.table))
    {
      var id := meta.Update(canvasId, name, privacy, metaDown);
      if id.Failure? {
        return Failure(id.error);
      }
      return Success(id.value);
    }

    /** Row first, then blob. A failed row delete leaves both stores as they were;
        a failed blob delete reports an error although the row is already gone. */
    method DeleteCanvas(canvasId: string, metaDown: bool, blobDown: bool) returns (r: Result<string, Err>)
      requires Valid()
      modifies meta, blob
      ensures Valid()
      ensures !IsUuid(canvasId) ==>
                && r == Failure(Wrapped("invalid canvas UUID", UuidSyntax))
                && meta.table == old(meta.table) && meta.order == old(meta.order)
                && blob.objects == old(blob.objects)
      ensures IsUuid(canvasId) && metaDown ==>
                && r == Failure(Wrapped("failed to delete canvas", Unreachable))
                && meta.table == old(meta.table) && meta.order == old(meta.order)
                && blob.objects == old(blob.objects)
      ensures IsUuid(canvasId) && !metaDown ==>
                && meta.table == old(meta.table) - {canvasId}
                && meta.order == Pg.Without(old(meta.order), canvasId)
      ensures IsUuid(canvasId) && !metaDown && blobDown ==>
                r == Failure(Unreachable) && blob.objects == old(blob.objects)
      ensures IsUuid(canvasId) && !metaDown && !blobDown ==>
                r == Success(canvasId) && blob.objects == old(blob.objects) - {Blob.ObjectName(canvasId)}
    {
      var id := meta.Delete(canvasId, metaDown);
      if id.Failure? {
        return Failure(id.error);
      }
      var err := blob.DeleteCanvas(canvasId, blobDown);
      if err.Some? {
        return Failure(err.value);
      }
      return Success(id.value);
    }
  }
}
