/** Client walks through the server, the service and the stores, on concrete inputs. */
module Scenarios {
  import opened Models
  import Pg = PostgresStorage
  import Blob = MinioStorage
  import Kafka = KafkaTransport
  import Svc = CanvasService
  import opened GrpcHandlers

  const OwnerId := "123e4567-e89b-12d3-a456-426614174000"
  const MemberId := "223e4567-e89b-12d3-a456-426614174000"
  const CanvasId := "323e4567-e89b-12d3-a456-426614174000"
  const OtherId := "423e4567-e89b-12d3-a456-426614174000"

  lemma OwnerIdIsUuid() ensures IsUuid(OwnerId) {}
  lemma MemberIdIsUuid() ensures IsUuid(MemberId) {}
  lemma CanvasIdIsUuid() ensures IsUuid(CanvasId) {}
  lemma OtherIdIsUuid() ensures IsUuid(OtherId) {}

  lemma SampleIdsAreUuids()
    ensures IsUuid(OwnerId) && IsUuid(MemberId) && IsUuid(CanvasId) && IsUuid(OtherId)
  {
    OwnerIdIsUuid();
    MemberIdIsUuid();
    CanvasIdIsUuid();
    OtherIdIsUuid();
  }

  /** The metadata of a verified caller. */
  function Caller(uid: string): Metadata
  {
    Some(map["uid" := [uid], "verified" := ["true"]])
  }

  method NewServer() returns (server: CanvasServer)
    ensures fresh(server) && fresh(server.service) && fresh(server.service.meta)
    ensures fresh(server.service.blob) && fresh(server.service.sink)
    ensures server.Valid()
    ensures server.service.meta.table == map[] && server.service.blob.objects == map[]
    ensures server.service.sink.sent == []
  {
    var meta := new Pg.Storage();
    var blob := new Blob.MinioStorage("canvases");
    var sink := new Kafka.Outbox();
    var service := new Svc.CanvasService(meta, blob, sink);
    server := new CanvasServer(service);
  }

  /** A lookup of a well-formed ID on an empty store reaches the nil dereference. */
  method MissingCanvasIsDereferenced() returns (canvasReply: Reply<CanvasMsg>, imageReply: Reply<Bytes>)
    ensures canvasReply == NilDereference && imageReply == NilDereference
  {
    SampleIdsAreUuids();
    var server := NewServer();
    canvasReply := server.GetCanvasByIdAsWritten(CanvasId, false);
    imageReply := server.GetImageByIdAsWritten(CanvasId, false, false);
  }

  /** The owner whitelists a member once; a repeat and the owner themself are refused. */
  method WhitelistTwice()
    returns (firstAdd: Result<string, RpcError>, secondAdd: Result<string, RpcError>,
             ownerAdd: Result<string, RpcError>)
    ensures firstAdd == Success(CanvasId)
    ensures secondAdd == Failure(InternalError)
    ensures ownerAdd == Failure(InternalError)
  {
    SampleIdsAreUuids();
    var server := NewServer();
    var created := server.CreateCanvas("sketch", 800, 600, OwnerId, PrivacyPrivate, CanvasId, false);
    assert MemberId != OwnerId by { assert MemberId[0] != OwnerId[0]; }
    var md := Caller(OwnerId);
    assert ExtractUserInfo(md).uid == OwnerId;
    firstAdd := server.AddToWhiteList(md, CanvasId, MemberId, false);
    secondAdd := server.AddToWhiteList(md, CanvasId, MemberId, false);
    ownerAdd := server.AddToWhiteList(md, CanvasId, OwnerId, false);
  }

  /** An uploaded image is what a later read returns, through the handler as written and
      through the NotFound-answering one alike. */
  method UploadThenRead(image: Bytes) returns (read: Reply<Bytes>, checkedRead: Result<Bytes, RpcError>)
    requires |image| > 0
    ensures read == Ok(image)
    ensures checkedRead == Success(image)
  {
    SampleIdsAreUuids();
    var server := NewServer();
    var created := server.CreateCanvas("sketch", 800, 600, OwnerId, PrivacyPublic, CanvasId, false);
    var uploaded := server.UploadImage(CanvasId, image, false, false);
    read := server.GetImageByIdAsWritten(CanvasId, false, false);
    checkedRead := server.GetImageById(CanvasId, false, false);
  }

  /** After a delete the service finds no canvas (and reports no error), the handler as
      written dereferences that nil canvas, and the object is gone. */
  method DeleteThenRead(image: Bytes)
    returns (deleted: Result<string, RpcError>, found: Option<Canvas>, err: Option<Err>,
             read: Reply<CanvasMsg>, blobRead: Result<Bytes, Err>)
    requires |image| > 0
    ensures deleted == Success(CanvasId)
    ensures found == None && err == None
    ensures read == NilDereference
    ensures blobRead == Failure(NoSuchKey)
  {
    SampleIdsAreUuids();
    var server := NewServer();
    var created := server.CreateCanvas("sketch", 800, 600, OwnerId, PrivacyFriends, CanvasId, false);
    var uploaded := server.UploadImage(CanvasId, image, false, false);
    deleted := server.DeleteCanvas(CanvasId, false, false);
    found, err := server.service.GetCanvasByIdNoImage(CanvasId, false);
    read := server.GetCanvasByIdAsWritten(CanvasId, false);
    blobRead := server.service.blob.GetCanvas(CanvasId, false);
  }

  /** A delete whose object removal fails leaves the object behind with the row gone and
      reports Internal; a retry finds no row, which is not an error, and removes the object. */
  method DeleteRetry(image: Bytes)
    returns (first: Result<string, RpcError>, leftOver: Result<Bytes, Err>,
             retry: Result<string, RpcError>, afterRetry: Result<Bytes, Err>)
    requires |image| > 0
    ensures first == Failure(InternalError)
    ensures leftOver == Success(image)
    ensures retry == Success(CanvasId)
    ensures afterRetry == Failure(NoSuchKey)
  {
    SampleIdsAreUuids();
    var server := NewServer();
    var created := server.CreateCanvas("sketch", 800, 600, OwnerId, PrivacyPublic, CanvasId, false);
    var uploaded := server.UploadImage(CanvasId, image, false, false);
    first := server.DeleteCanvas(CanvasId, false, true);
    assert CanvasId !in server.service.meta.table;
    leftOver := server.service.blob.GetCanvas(CanvasId, false);
    retry := server.DeleteCanvas(CanvasId, false, false);
    afterRetry := server.service.blob.GetCanvas(CanvasId, false);
  }

  /** A verified caller who does not own the canvas whitelists a third user through the
      handler as written; the owner-checked handler refuses the same request. */
  method NonOwnerWhitelists()
    returns (asWritten: Result<string, RpcError>, corrected: Result<string, RpcError>)
    ensures asWritten == Success(CanvasId)
    ensures corrected == Failure(NotOwner)
  {
    SampleIdsAreUuids();
    var server := NewServer();
    var created := server.CreateCanvas("sketch", 800, 600, OwnerId, PrivacyPrivate, CanvasId, false);
    assert OtherId != OwnerId by { assert OtherId[0] != OwnerId[0]; }
    assert MemberId != OwnerId by { assert MemberId[0] != OwnerId[0]; }
    var md := Caller(MemberId);
    assert ExtractUserInfo(md).uid == MemberId;
    asWritten := server.AddToWhiteListAsWritten(md, CanvasId, OtherId, false);
    corrected := server.AddToWhiteList(md, CanvasId, OtherId, false);
  }

  /** Put, get and remove one object of the blob store. */
  method BlobRoundTrip(canvasId: string, data: Bytes)
    returns (url: string, read: Result<Bytes, Err>, afterDelete: Result<Bytes, Err>)
    ensures url == "http://localhost:9000/canvases/" + canvasId + ".png"
    ensures read == Success(data)
    ensures afterDelete == Failure(NoSuchKey)
  {
    var bucket := new Blob.MinioStorage("canvases");
    var err;
    url, err := bucket.SaveCanvas(canvasId, data, false);
    read := bucket.GetCanvas(canvasId, false);
    err := bucket.DeleteCanvas(canvasId, false);
    afterDelete := bucket.GetCanvas(canvasId, false);
  }
}
