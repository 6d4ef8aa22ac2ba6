/** Values shared by the storage layers, the canvas service and the gRPC handlers:
    the canvas records, the join request message, the error values and the UUID syntax. */
module Models {

  datatype Option<+T> = None | Some(value: T)

  datatype Result<+T, +E> = Success(value: T) | Failure(error: E)

  /** Go's int32, used for width and height. */
  type Int32 = x: int | -0x8000_0000 <= x < 0x8000_0000

  newtype Byte = x: int | 0 <= x < 256

  /** PNG bytes as they travel between the service and the blob store. */
  type Bytes = seq<Byte>

  /** A canvas as the service hands it to callers (the image travels as bytes). */
  datatype Canvas = Canvas(
    id: string,
    name: string,
    width: Int32,
    height: Int32,
    ownerId: string,
    membersIds: seq<string>,
    privacy: string,
    image: Bytes,
    imageUrl: string)

  /** A canvas as the metadata store returns it (the image is only a locator). */
  datatype InternalCanvas = InternalCanvas(
    id: string,
    name: string,
    width: Int32,
    height: Int32,
    ownerId: string,
    membersIds: seq<string>,
    privacy: string,
    imageUrl: string)

  /** The join request handed to the notification sink when a user asks to join. */
  datatype AddToWhiteListMessage = AddToWhiteListMessage(
    canvasId: string,
    canvasName: string,
    ownerId: string,
    userId: string)

  /** Error values. The first four are the storage sentinels; the next four are the
      causes coming from the drivers; `Message` is an error built without a cause and
      `Wrapped` is an error that prefixes a context to a cause it keeps for errors.Is. */
  datatype Err =
    | ErrCanvasExists
    | ErrInvalidOwnerID
    | ErrInvalidCanvasID
    | ErrAddOwnerToWhiteList
    | Unreachable            // a backend call failed in transport
    | NoRows                 // a single-row query found no row
    | UuidSyntax             // uuid.Parse rejected the text
    | NoSuchKey              // the object store has no such object
    | Message(text: string)
    | Wrapped(context: string, inner: Err)

  /** errors.Is: the error itself or any error it wraps equals the target. */
  predicate Is(e: Err, target: Err)
  {
    e == target || (e.Wrapped? && Is(e.inner, target))
  }

  predicate IsLowerHex(c: char)
  {
    '0' <= c <= '9' || 'a' <= c <= 'f'
  }

  /** Text that uuid.Parse accepts, restricted to the canonical form that
      uuid.UUID.String() prints: 8-4-4-4-12 lower-case hex digits. */
  predicate IsUuid(s: string)
  {
    && |s| == 36
    && (forall i :: 0 <= i < 36 ==>
          if i == 8 || i == 13 || i == 18 || i == 23 then s[i] == '-' else IsLowerHex(s[i]))
  }

  predicate AllUuids(ids: seq<string>)
  {
    forall i :: 0 <= i < |ids| ==> IsUuid(ids[i])
  }

  predicate Distinct<T(==)>(s: seq<T>)
  {
    forall i, j :: 0 <= i < j < |s| ==> s[i] != s[j]
  }

  lemma DistinctAppend<T>(s: seq<T>, x: T)
    requires Distinct(s) && x !in s
    ensures Distinct(s + [x])
  {
  }
}
