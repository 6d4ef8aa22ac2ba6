/** The gRPC handlers of the canvas API: per-request argument checks, the identity
    gate of AddToWhiteList, the mapping of service errors to status codes, and the
    loops that assemble responses from the service's results. */
module GrpcHandlers {
  import opened Models
  import Pg = PostgresStorage
  import Blob = MinioStorage
  import Svc = CanvasService

  const PrivacyPublic := "public"
  const PrivacyPrivate := "private"
  const PrivacyFriends := "friends"
  const PrivacyMessage := "canvas privacy is not included (public, private, friends)"

  /** The privacy values a request may carry. */
  predicate IsPrivacy(p: string)
  {
    p in [PrivacyPublic, PrivacyPrivate, PrivacyFriends]
  }

  datatype Code = InvalidArgument | NotFound | Internal | Unauthenticated | PermissionDenied

  /** A handler fails with a gRPC status, or passes a service error on as it is. */
  datatype RpcError = Status(code: Code, message: string) | Unwrapped(err: Err)

  /** What a handler ends with when a nil result can be dereferenced. */
  datatype Reply<T> = Ok(value: T) | Error(error: RpcError) | NilDereference

  /** A canvas as the API sends it back (without image bytes). */
  datatype CanvasMsg = CanvasMsg(
    canvasId: string,
    name: string,
    width: Int32,
    height: Int32,
    ownerId: string,
    membersIds: seq<string>,
    privacy: string)

  function ToMessage(c: Canvas): CanvasMsg
  {
    CanvasMsg(c.id, c.name, c.width, c.height, c.ownerId, c.membersIds, c.privacy)
  }

  function InvalidArg(message: string): Option<RpcError>
  {
    Some(Status(InvalidArgument, message))
  }

  const InternalError := Status(Internal, "internal error")
  const NotOwner := Status(PermissionDenied, "only the canvas owner may add members")

  /** Argument checks of CreateCanvas, in the order the handler makes them. */
  function CheckCreate(name: string, ownerId: string, privacy: string): (r: Option<RpcError>)
    ensures r.None? <==> name != "" && ownerId != "" && IsPrivacy(privacy)
    ensures r.Some? ==> r.value.Status? && r.value.code == InvalidArgument
    ensures name == "" ==> r == InvalidArg("name is required")
    ensures name != "" && ownerId == "" ==> r == InvalidArg("ownerID is required")
    ensures name != "" && ownerId != "" && !IsPrivacy(privacy) ==> r == InvalidArg(PrivacyMessage)
  {
    if name == "" then InvalidArg("name is required")
    else if ownerId == "" then InvalidArg("ownerID is required")
    else if !IsPrivacy(privacy) then InvalidArg(PrivacyMessage)
    else None
  }

  /** Service errors of CreateCanvas: a bad owner ID is the caller's mistake, the rest is internal. */
  function CreateError(e: Err): (s: RpcError)
    ensures s.Status? && (s.code == InvalidArgument || s.code == Internal)
    ensures s.code == InvalidArgument <==> Is(e, ErrInvalidOwnerID)
  {
    if Is(e, ErrInvalidOwnerID) then Status(InvalidArgument, "invalid owner UUID") else InternalError
  }

  /** Argument checks of UpdateCanvas: an ID, then the same name and privacy rules as CreateCanvas. */
  function CheckUpdate(canvasId: string, name: string, privacy: string): (r: Option<RpcError>)
    ensures r.None? <==> canvasId != "" && name != "" && IsPrivacy(privacy)
    ensures canvasId == "" ==> r == InvalidArg("canvasId is required")
    ensures canvasId != "" ==> forall ownerId :: ownerId != "" ==> r == CheckCreate(name, ownerId, privacy)
  {
    if canvasId == "" then InvalidArg("canvasId is required")
    else if name == "" then InvalidArg("name is required")
    else if !IsPrivacy(privacy) then InvalidArg(PrivacyMessage)
    else None
  }

  /** Argument checks of UploadImage. */
  function CheckUpload(canvasId: string, image: Bytes): (r: Option<RpcError>)
    ensures r.None? <==> canvasId != "" && |image| > 0
    ensures canvasId == "" ==> r == InvalidArg("canvasID is required")
    ensures canvasId != "" && |image| == 0 ==> r == InvalidArg("Image is required")
  {
    if canvasId == "" then InvalidArg("canvasID is required")
    else if |image| == 0 then InvalidArg("Image is required")
    else None
  }

  /** Argument checks shared by JoinToCanvas and AddToWhiteList. */
  function CheckMembership(canvasId: string, memberId: string): (r: Option<RpcError>)
    ensures r.None? <==> canvasId != "" && memberId != ""
    ensures canvasId == "" ==> r == InvalidArg("canvasId is required")
    ensures canvasId != "" && memberId == "" ==> r == InvalidArg("memberId is required")
  {
    if canvasId == "" then InvalidArg("canvasId is required")
    else if memberId == "" then InvalidArg("memberId is required")
    else None
  }

  /** Incoming request metadata: absent, or a map from lower-case keys to values. */
  type Metadata = Option<map<string, seq<string>>>

  function Values(md: map<string, seq<string>>, key: string): seq<string>
  {
    if key in md then md[key] else []
  }

  datatype UserInfo = UserInfo(uid: string, verified: string, ok: bool)

  /** The caller's identity: the first uid and the first verified value, if both are present. */
  function ExtractUserInfo(md: Metadata): (info: UserInfo)
    ensures info.ok <==> md.Some? && |Values(md.value, "uid")| > 0 && |Values(md.value, "verified")| > 0
    ensures info.ok ==> info.uid == Values(md.value, "uid")[0] && info.verified == Values(md.value, "verified")[0]
    ensures !info.ok ==> info.uid == "" && info.verified == ""
  {
    if md.None? then UserInfo("", "", false)
    else
      var uids := Values(md.value, "uid");
      var verifieds := Values(md.value, "verified");
      if |uids| == 0 || |verifieds| == 0 then UserInfo("", "", false)
      else UserInfo(uids[0], verifieds[0], true)
  }

  /** The identity gate of AddToWhiteList: a present, non-empty uid whose verified
      value is anything but the exact text "false". */
  function CheckAuth(md: Metadata): (r: Option<RpcError>)
    ensures var info := ExtractUserInfo(md);
            r.None? <==> info.ok && info.uid != "" && info.verified != "false"
    ensures r.Some? ==> r.value.Status? && r.value.code == Unauthenticated
    ensures var info := ExtractUserInfo(md);
            !info.ok || info.uid == "" ==> r == Some(Status(Unauthenticated, "user ID or verification info missing"))
    ensures var info := ExtractUserInfo(md);
            info.ok && info.uid != "" && info.verified == "false" ==> r == Some(Status(Unauthenticated, "user not verified"))
  {
    var info := ExtractUserInfo(md);
    if !info.ok || info.uid == "" then Some(Status(Unauthenticated, "user ID or verification info missing"))
    else if info.verified == "false" then Some(Status(Unauthenticated, "user not verified"))
    else None
  }

  /** All checks of AddToWhiteList: the identity gate comes before the argument checks. */
  function CheckAddToWhiteList(md: Metadata, canvasId: string, memberId: string): (r: Option<RpcError>)
    ensures r.None? <==> CheckAuth(md).None? && canvasId != "" && memberId != ""
    ensures CheckAuth(md).Some? ==> r.Some? && r.value.Status? && r.value.code == Unauthenticated
    ensures CheckAuth(md).None? && r.Some? ==> r.value.Status? && r.value.code == InvalidArgument
    ensures CheckAuth(md).Some? ==> r == CheckAuth(md)
    ensures CheckAuth(md).None? ==> r == CheckMembership(canvasId, memberId)
  {
    var auth := CheckAuth(md);
    if auth.Some? then auth else CheckMembership(canvasId, memberId)
  }

  /** Invariants the handlers add to the service's: every row has a name and a known privacy. */
  predicate RowsWellFormed(table: map<string, Pg.Row>)
  {
    forall k :: k in table ==> table[k].name != "" && IsPrivacy(table[k].privacy)
  }

  class CanvasServer {
    const service: Svc.CanvasService

    ghost predicate Valid()
      reads service.meta
    {
      service.Valid() && RowsWellFormed(service.meta.table)
    }

    constructor (service: Svc.CanvasService)
      requires service.Valid() && RowsWellFormed(service.meta.table)
      ensures this.service == service && Valid()
    {
      this.service := service;
    }

    method CreateCanvas(name: string, width: Int32, height: Int32, ownerId: string, privacy: string,
                        newId: string, metaDown: bool) returns (r: Result<string, RpcError>)
      requires Valid() && IsUuid(newId)
      modifies service.meta
      ensures Valid()
      ensures CheckCreate(name, ownerId, privacy).Some? ==>
                r == Failure(CheckCreate(name, ownerId, privacy).value)
                && service.meta.table == old(service.meta.table)
      ensures CheckCreate(name, ownerId, privacy).None? && !IsUuid(ownerId) ==>
                r == Failure(Status(InvalidArgument, "invalid owner UUID"))
      ensures CheckCreate(name, ownerId, privacy).None? && IsUuid(ownerId) ==>
                && (r.Success? <==> !metaDown && newId !in old(service.meta.table))
                && (r.Failure? ==> r == Failure(InternalError))
      ensures r.Failure? ==>
                service.meta.table == old(service.meta.table) && service.meta.order == old(service.meta.order)
      ensures r.Success? ==>
                && r.value == newId
                && service.meta.table == old(service.meta.table)[newId := Pg.Row(name, width, height, ownerId, [], privacy, "")]
                && service.meta.order == old(service.meta.order) + [newId]
    {
      var bad := CheckCreate(name, ownerId, privacy);
      if bad.Some? {
        return Failure(bad.value);
      }
      var created := service.CreateCanvas(name, width, height, ownerId, privacy, newId, metaDown);
      if created.Failure? {
        return Failure(CreateError(created.error));
      }
      return Success(created.value);
    }

    /** GetCanvasById as written: the nil canvas of a failed lookup is dereferenced. */
    method GetCanvasByIdAsWritten(canvasId: string, metaDown: bool) returns (r: Reply<CanvasMsg>)
      ensures canvasId == "" ==> r == Error(InvalidArg("canvasID is required").value)
      ensures canvasId != "" ==>
                (r == NilDereference <==> !(IsUuid(canvasId) && !metaDown && canvasId in service.meta.table))
      ensures canvasId != "" && r != NilDereference ==>
                var row := service.meta.table[canvasId];
                r == Ok(CanvasMsg(canvasId, row.name, row.width, row.height, "", row.membersIds, row.privacy))
    {
      if canvasId == "" {
        return Error(InvalidArg("canvasID is required").value);
      }
      var canvas, err := service.GetCanvasByIdNoImage(canvasId, metaDown);
      if err.Some? {
        return Error(InternalError);
      }
      if canvas.None? {
        return NilDereference;
      }
      return Ok(ToMessage(canvas.value));
    }

    /** GetCanvasById with a missing canvas answered by NotFound. */
    method GetCanvasById(canvasId: string, metaDown: bool) returns (r: Result<CanvasMsg, RpcError>)
      ensures canvasId == "" ==> r == Failure(InvalidArg("canvasID is required").value)
      ensures canvasId != "" ==> (r.Success? <==> IsUuid(canvasId) && !metaDown && canvasId in service.meta.table)
      ensures canvasId != "" && r.Failure? ==> r == Failure(Status(NotFound, "canvas not found"))
      ensures r.Success? ==>
                var row := service.meta.table[canvasId];
                r.value == CanvasMsg(canvasId, row.name, row.width, row.height, "", row.membersIds, row.privacy)
    {
      if canvasId == "" {
        return Failure(InvalidArg("canvasID is required").value);
      }
      var canvas, err := service.GetCanvasByIdNoImage(canvasId, metaDown);
      if err.Some? {
        return Failure(InternalError);
      }
      if canvas.None? {
        return Failure(Status(NotFound, "canvas not found"));
      }
      return Success(ToMessage(canvas.value));
    }

    /** GetImageById as written: the nil canvas of a failed lookup is dereferenced. */
    method GetImageByIdAsWritten(canvasId: string, metaDown: bool, blobDown: bool) returns (r: Reply<Bytes>)
      ensures canvasId == "" ==> r == Error(InvalidArg("canvasID is required").value)
      ensures canvasId != "" ==>
                (r == NilDereference <==> !(IsUuid(canvasId) && !metaDown && canvasId in service.meta.table))
      ensures canvasId != "" && r != NilDereference ==>
                r == Ok(Svc.ImageOrEmpty(service.blob.objects, blobDown, canvasId))
    {
      if canvasId == "" {
        return Error(InvalidArg("canvasID is required").value);
      }
      var canvas, err := service.GetCanvasById(canvasId, metaDown, blobDown);
      if err.Some? {
        return Error(InternalError);
      }
      if canvas.None? {
        return NilDereference;
      }
      return Ok(canvas.value.image);
    }

    /** GetImageById with a missing canvas answered by NotFound; a missing image is empty. */
    method GetImageById(canvasId: string, metaDown: bool, blobDown: bool) returns (r: Result<Bytes, RpcError>)
      ensures canvasId == "" ==> r == Failure(InvalidArg("canvasID is required").value)
      ensures canvasId != "" ==> (r.Success? <==> IsUuid(canvasId) && !metaDown && canvasId in service.meta.table)
      ensures canvasId != "" && r.Failure? ==> r == Failure(Status(NotFound, "canvas not found"))
      ensures r.Success? ==> r.value == Svc.ImageOrEmpty(service.blob.objects, blobDown, canvasId)
    {
      if canvasId == "" {
        return Failure(InvalidArg("canvasID is required").value);
      }
      var canvas, err := service.GetCanvasById(canvasId, metaDown, blobDown);
      if err.Some? {
        return Failure(InternalError);
      }
      if canvas.None? {
        return Failure(Status(NotFound, "canvas not found"));
      }
      return Success(canvas.value.image);
    }

    /** One image per canvas found, in the service's order; `blobFails` holds the IDs
        whose own image read fails. */
    method GetImageByIds(canvasIds: seq<string>, metaDown: bool, blobFails: set<string>) returns (r: Result<seq<Bytes>, RpcError>)
      requires Valid()
      ensures |canvasIds| == 0 ==> r == Failure(InvalidArg("canvasIDs is required").value)
      ensures |canvasIds| > 0 ==> (r.Success? <==> AllUuids(canvasIds) && !metaDown)
      ensures |canvasIds| > 0 && r.Failure? ==> r == Failure(InternalError)
      ensures r.Success? ==>
                var rows := Pg.Select(service.meta.table, service.meta.order, Pg.ByIds(canvasIds));
                && |r.value| == |rows|
                && forall j :: 0 <= j < |rows| ==>
                     r.value[j] == Svc.ImageOrEmpty(service.blob.objects, rows[j].id in blobFails, rows[j].id)
    {
      if |canvasIds| == 0 {
        return Failure(InvalidArg("canvasIDs is required").value);
      }
      var canvases := service.GetCanvases(canvasIds, metaDown, blobFails);
      if canvases.Failure? {
        return Failure(InternalError);
      }
      var images: seq<Bytes> := [];
      var i := 0;
      while i < |canvases.value|
        invariant 0 <= i <= |canvases.value|
        invariant |images| == i
        invariant forall j :: 0 <= j < i ==> images[j] == canvases.value[j].image
      {
        images := images + [canvases.value[i].image];
        i := i + 1;
      }
      return Success(images);
    }

    /** The canvases a user owns or is whitelisted on, as messages. */
    method GetCanvasesByUserId(userId: string, metaDown: bool) returns (r: Result<seq<CanvasMsg>, RpcError>)
      requires Valid()
      ensures userId == "" ==> r == Failure(InvalidArg("userID is required").value)
      ensures userId != "" ==> (r.Success? <==> IsUuid(userId) && !metaDown)
      ensures userId != "" && r.Failure? ==> r == Failure(InternalError)
      ensures r.Success? ==>
                var rows := Pg.Select(service.meta.table, service.meta.order, Pg.ByUser(userId));
                && |r.value| == |rows|
                && forall j :: 0 <= j < |rows| ==>
                     r.value[j] == CanvasMsg(rows[j].id, rows[j].name, rows[j].width, rows[j].height,
                                             rows[j].ownerId, rows[j].membersIds, rows[j].privacy)
    {
      if userId == "" {
        return Failure(InvalidArg("userID is required").value);
      }
      var canvases := service.GetCanvasesByUserId(userId, metaDown);
      if canvases.Failure? {
        return Failure(InternalError);
      }
      var messages := ToMessages(canvases.value);
      return Success(messages);
    }

    /** Canvases by ID, as messages. */
    method GetCanvases(canvasIds: seq<string>, metaDown: bool) returns (r: Result<seq<CanvasMsg>, RpcError>)
      requires Valid()
      ensures |canvasIds| == 0 ==> r == Failure(InvalidArg("canvasIDs is required").value)
      ensures |canvasIds| > 0 ==> (r.Success? <==> AllUuids(canvasIds) && !metaDown)
      ensures |canvasIds| > 0 && r.Failure? ==> r == Failure(InternalError)
      ensures r.Success? ==>
                var rows := Pg.Select(service.meta.table, service.meta.order, Pg.ByIds(canvasIds));
                && |r.value| == |rows|
                && forall j :: 0 <= j < |rows| ==>
                     r.value[j] == CanvasMsg(rows[j].id, rows[j].name, rows[j].width, rows[j].height,
                                             rows[j].ownerId, rows[j].membersIds, rows[j].privacy)
    {
      if |canvasIds| == 0 {
        return Failure(InvalidArg("canvasIDs is required").value);
      }
      var canvases := service.GetCanvasesNoImage(canvasIds, metaDown);
      if canvases.Failure? {
        return Failure(InternalError);
      }
      var messages := ToMessages(canvases.value);
      return Success(messages);
    }

    /** The response loop shared by the two list handlers. */
    static method ToMessages(canvases: seq<Canvas>) returns (messages: seq<CanvasMsg>)
      ensures |messages| == |canvases|
      ensures forall j :: 0 <= j < |canvases| ==> messages[j] == ToMessage(canvases[j])
    {
      messages := [];
      var i := 0;
      while i < |canvases|
        invariant 0 <= i <= |canvases|
        invariant |messages| == i
        invariant forall j :: 0 <= j < i ==> messages[j] == ToMessage(canvases[j])
      {
        messages := messages + [ToMessage(canvases[i])];
        i := i + 1;
      }
    }

    /** Service errors of UploadImage are passed on without a status. */
    method UploadImage(canvasId: string, image: Bytes, blobDown: bool, metaDown: bool) returns (r: Result<string, RpcError>)
      requires Valid()
      modifies service.meta, service.blob
      ensures Valid() && service.meta.order == old(service.meta.order)
      ensures CheckUpload(canvasId, image).Some? ==>
                && r == Failure(CheckUpload(canvasId, image).value)
                && service.meta.table == old(service.meta.table)
                && service.blob.objects == old(service.blob.objects)
      ensures CheckUpload(canvasId, image).None? && blobDown ==>
                && r == Failure(Unwrapped(Unreachable))
                && service.meta.table == old(service.meta.table)
                && service.blob.objects == old(service.blob.objects)
      ensures CheckUpload(canvasId, image).None? && !blobDown ==>
                && service.blob.objects == old(service.blob.objects)[Blob.ObjectName(canvasId) := image]
                && (r.Success? <==> IsUuid(canvasId) && !metaDown)
                && (!IsUuid(canvasId) ==> r == Failure(Unwrapped(Wrapped("invalid canvas UUID", UuidSyntax))))
                && (IsUuid(canvasId) && metaDown ==>
                      r == Failure(Unwrapped(Wrapped("failed to update image URL", Unreachable))))
      ensures r.Failure? ==> service.meta.table == old(service.meta.table)
      ensures r.Success? ==>
                && r.value == canvasId
                && service.meta.table == (if canvasId in old(service.meta.table)
                                          then old(service.meta.table)[canvasId := old(service.meta.table)[canvasId].(
                                                 image := Blob.LocatorUrl(service.blob.bucketName, canvasId))]
                                          else old(service.meta.table))
    {
      var bad := CheckUpload(canvasId, image);
      if bad.Some? {
        return Failure(bad.value);
      }
      var uploaded := service.UploadImage(canvasId, image, blobDown, metaDown);
      if uploaded.Failure? {
        return Failure(Unwrapped(uploaded.error));
      }
      return Success(uploaded.value);
    }

    method JoinToCanvas(canvasId: string, memberId: string, metaDown: bool, sinkDown: bool) returns (r: Result<string, RpcError>)
      modifies service.sink
      ensures CheckMembership(canvasId, memberId).Some? ==>
                r == Failure(CheckMembership(canvasId, memberId).value) && service.sink.sent == old(service.sink.sent)
      ensures CheckMembership(canvasId, memberId).None? ==>
                && (r.Success? <==> IsUuid(canvasId) && !metaDown && canvasId in service.meta.table && !sinkDown)
                && (r.Failure? ==> r == Failure(InternalError))
      ensures r.Failure? ==> service.sink.sent == old(service.sink.sent)
      ensures r.Success? ==>
                var row := service.meta.table[canvasId];
                && r.value == canvasId
                && service.sink.sent == old(service.sink.sent) + [AddToWhiteListMessage(canvasId, row.name, row.ownerId, memberId)]
    {
      var bad := CheckMembership(canvasId, memberId);
      if bad.Some? {
        return Failure(bad.value);
      }
      var joined := service.JoinToCanvas(canvasId, memberId, metaDown, sinkDown);
      if joined.Failure? {
        return Failure(InternalError);
      }
      return Success(joined.value);
    }

    /** AddToWhiteList as written: the identity gate runs before any argument check and
        any store access, but it never compares the caller with the canvas's owner, so any
        verified caller can whitelist members on any canvas. */
    method AddToWhiteListAsWritten(md: Metadata, canvasId: string, memberId: string, metaDown: bool)
      returns (r: Result<string, RpcError>)
      requires Valid()
      modifies service.meta
      ensures Valid() && service.meta.order == old(service.meta.order)
      ensures CheckAddToWhiteList(md, canvasId, memberId).Some? ==>
                r == Failure(CheckAddToWhiteList(md, canvasId, memberId).value)
      ensures CheckAuth(md).Some? ==> r.Failure? && r.error.Status? && r.error.code == Unauthenticated
      ensures CheckAddToWhiteList(md, canvasId, memberId).None? ==>
                && (r.Success? <==>
                      IsUuid(canvasId) && IsUuid(memberId) && !metaDown && canvasId in old(service.meta.table)
                      && memberId != old(service.meta.table)[canvasId].ownerId
                      && memberId !in old(service.meta.table)[canvasId].membersIds)
                && (r.Failure? ==> r == Failure(InternalError))
      ensures r.Failure? ==> service.meta.table == old(service.meta.table)
      ensures r.Success? ==>
                && CheckAddToWhiteList(md, canvasId, memberId).None?
                && r.value == canvasId
                && canvasId in old(service.meta.table)
                && memberId != old(service.meta.table)[canvasId].ownerId
                && memberId !in old(service.meta.table)[canvasId].membersIds
                && service.meta.table == old(service.meta.table)[canvasId := old(service.meta.table)[canvasId].(
                                           membersIds := old(service.meta.table)[canvasId].membersIds + [memberId])]
    {
      var bad := CheckAddToWhiteList(md, canvasId, memberId);
      if bad.Some? {
        return Failure(bad.value);
      }
      var added := service.AddToWhiteList(canvasId, memberId, metaDown);
      if added.Failure? {
        return Failure(InternalError);
      }
      return Success(added.value);
    }

    /** AddToWhiteList with the ownership rule the handler documents: after the identity
        gate and the argument checks, the caller must be the canvas's owner. The handler
        reaches storage only through the service, whose point reads leave the owner out,
        so the correction also needs an owner lookup; here it reads the row through the
        service's metadata store. */
    method AddToWhiteList(md: Metadata, canvasId: string, memberId: string, metaDown: bool)
      returns (r: Result<string, RpcError>)
      requires Valid()
      modifies service.meta
      ensures Valid() && service.meta.order == old(service.meta.order)
      ensures CheckAddToWhiteList(md, canvasId, memberId).Some? ==>
                r == Failure(CheckAddToWhiteList(md, canvasId, memberId).value)
      ensures CheckAuth(md).Some? ==> r.Failure? && r.error.Status? && r.error.code == Unauthenticated
      ensures CheckAddToWhiteList(md, canvasId, memberId).None? ==>
                && (r == Failure(NotOwner) <==>
                      IsUuid(canvasId) && !metaDown && canvasId in old(service.meta.table)
                      && ExtractUserInfo(md).uid != old(service.meta.table)[canvasId].ownerId)
                && (r.Failure? && r != Failure(NotOwner) ==> r == Failure(InternalError))
      ensures CheckAddToWhiteList(md, canvasId, memberId).None? ==>
                && (r.Success? <==>
                      IsUuid(canvasId) && IsUuid(memberId) && !metaDown && canvasId in old(service.meta.table)
                      && ExtractUserInfo(md).uid == old(service.meta.table)[canvasId].ownerId
                      && memberId != old(service.meta.table)[canvasId].ownerId
                      && memberId !in old(service.meta.table)[canvasId].membersIds)
      ensures r.Failure? ==> service.meta.table == old(service.meta.table)
      ensures r.Success? ==>
                && r.value == canvasId
                && canvasId in old(service.meta.table)
                && ExtractUserInfo(md).uid == old(service.meta.table)[canvasId].ownerId
                && service.meta.table == old(service.meta.table)[canvasId := old(service.meta.table)[canvasId].(
                                           membersIds := old(service.meta.table)[canvasId].membersIds + [memberId])]
    {
      var bad := CheckAddToWhiteList(md, canvasId, memberId);
      if bad.Some? {
        return Failure(bad.value);
      }
      var canvas := service.meta.GetByID(canvasId, metaDown);
      if canvas.Failure? {
        return Failure(InternalError);
      }
      if canvas.value.ownerId != ExtractUserInfo(md).uid {
        return Failure(NotOwner);
      }
      var added := service.AddToWhiteList(canvasId, memberId, metaDown);
      if added.Failure? {
        return Failure(InternalError);
      }
      return Success(added.value);
    }

    method UpdateCanvas(canvasId: string, name: string, privacy: string, metaDown: bool) returns (r: Result<string, RpcError>)
      requires Valid()
      modifies service.meta
      ensures Valid() && service.meta.order == old(service.meta.order)
      ensures CheckUpdate(canvasId, name, privacy).Some? ==> r == Failure(CheckUpdate(canvasId, name, privacy).value)
      ensures CheckUpdate(canvasId, name, privacy).None? ==>
                && (r.Success? <==> IsUuid(canvasId) && !metaDown)
                && (r.Failure? ==> r == Failure(InternalError))
      ensures r.Failure? ==> service.meta.table == old(service.meta.table)
      ensures r.Success? ==>
                && r.value == canvasId
                && service.meta.table == (if canvasId in old(service.meta.table)
                                          then old(service.meta.table)[canvasId := old(service.meta.table)[canvasId].(name := name, privacy := privacy)]
                                          else old(service.meta.table))
    {
      var bad := CheckUpdate(canvasId, name, privacy);
      if bad.Some? {
        return Failure(bad.value);
      }
      var updated := service.UpdateCanvas(canvasId, name, privacy, metaDown);
      if updated.Failure? {
        return Failure(InternalError);
      }
      return Success(updated.value);
    }

    method DeleteCanvas(canvasId: string, metaDown: bool, blobDown: bool) returns (r: Result<string, RpcError>)
      requires Valid()
      modifies service.meta, service.blob
      ensures Valid()
      ensures canvasId == "" ==>
                && r == Failure(InvalidArg("canvasId is required").value)
                && service.meta.table == old(service.meta.table)
                && service.meta.order == old(service.meta.order)
                && service.blob.objects == old(service.blob.objects)
      ensures canvasId != "" ==>
                && (r.Success? <==> IsUuid(canvasId) && !metaDown && !blobDown)
                && (r.Failure? ==> r == Failure(InternalError))
      ensures canvasId != "" && (!IsUuid(canvasId) || metaDown) ==>
                && service.meta.table == old(service.meta.table)
                && service.meta.order == old(service.meta.order)
                && service.blob.objects == old(service.blob.objects)
      ensures canvasId != "" && IsUuid(canvasId) && !metaDown ==>
                && service.meta.table == old(service.meta.table) - {canvasId}
                && service.meta.order == Pg.Without(old(service.meta.order), canvasId)
      ensures canvasId != "" && IsUuid(canvasId) && !metaDown && blobDown ==>
                service.blob.objects == old(service.blob.objects)
      ensures r.Success? ==>
                && r.value == canvasId
                && service.blob.objects == old(service.blob.objects) - {Blob.ObjectName(canvasId)}
    {
      if canvasId == "" {
        return Failure(InvalidArg("canvasId is required").value);
      }
      var deleted := service.DeleteCanvas(canvasId, metaDown, blobDown);
      if deleted.Failure? {
        return Failure(InternalError);
      }
      return Success(deleted.value);
    }
  }
}
