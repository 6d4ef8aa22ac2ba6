/** The blob store: one bucket of PNG objects keyed by "<canvas id>.png". */
module MinioStorage {
  import opened Models

  /** The object key of a canvas's image. */
  function ObjectName(canvasId: string): string
  {
    canvasId + ".png"
  }

  /** The locator SaveCanvas hands back for a canvas's image. */
  function LocatorUrl(bucketName: string, canvasId: string): string
  {
    "http://localhost:9000/" + bucketName + "/" + ObjectName(canvasId)
  }

  predicate Contains(s: string, part: string)
  {
    exists i :: 0 <= i <= |s| && part <= s[i..]
  }

  /** Distinct canvases never share an object. */
  lemma {:induction false} ObjectNameInjective(a: string, b: string)
    requires ObjectName(a) == ObjectName(b)
    ensures a == b
  {
    assert |a| == |b|;
    assert a == ObjectName(a)[..|a|];
    assert b == ObjectName(b)[..|b|];
  }

  /** The locator ends in the object key, so it names the object it points at. */
  lemma {:induction false} LocatorContainsObjectName(bucketName: string, canvasId: string)
    ensures Contains(LocatorUrl(bucketName, canvasId), ObjectName(canvasId))
    ensures Contains(LocatorUrl(bucketName, canvasId), bucketName)
  {
    var url := LocatorUrl(bucketName, canvasId);
    var prefix := "http://localhost:9000/";
    var start := |prefix| + |bucketName| + 1;
    assert ObjectName(canvasId) <= url[start..];
    assert bucketName <= url[|prefix|..];
  }

  /** Within one bucket the locator determines the canvas. */
  lemma {:induction false} LocatorInjective(bucketName: string, a: string, b: string)
    requires LocatorUrl(bucketName, a) == LocatorUrl(bucketName, b)
    ensures a == b
  {
    var n := |"http://localhost:9000/" + bucketName + "/"|;
    assert ObjectName(a) == LocatorUrl(bucketName, a)[n..];
    assert ObjectName(b) == LocatorUrl(bucketName, b)[n..];
    ObjectNameInjective(a, b);
  }

  class MinioStorage {
    const bucketName: string
    /** object key -> bytes of the configured bucket */
    var objects: map<string, Bytes>

    constructor (bucketName: string)
      ensures this.bucketName == bucketName && objects == map[]
    {
      this.bucketName := bucketName;
      objects := map[];
    }

    /** PUT of the image; the locator is returned whether or not the put succeeded. */
    method SaveCanvas(canvasId: string, imageData: Bytes, down: bool) returns (url: string, err: Option<Err>)
      modifies this
      ensures url == LocatorUrl(bucketName, canvasId)
      ensures down ==> err == Some(Unreachable) && objects == old(objects)
      ensures !down ==> err == None && objects == old(objects)[ObjectName(canvasId) := imageData]
    {
      var objectName := ObjectName(canvasId);
      if down {
        err := Some(Unreachable);
      } else {
        objects := objects[objectName := imageData];
        err := None;
      }
      url := "http://localhost:9000/" + bucketName + "/" + objectName;
    }

    /** GET of the image bytes; a missing object is an error and yields no data. */
    method GetCanvas(canvasId: string, down: bool) returns (r: Result<Bytes, Err>)
      ensures r.Success? <==> !down && ObjectName(canvasId) in objects
      ensures r.Success? ==> r.value == objects[ObjectName(canvasId)]
      ensures down ==> r == Failure(Unreachable)
      ensures !down && ObjectName(canvasId) !in objects ==> r == Failure(NoSuchKey)
    {
      var objectName := ObjectName(canvasId);
      if down {
        return Failure(Unreachable);
      }
      if objectName !in objects {
        return Failure(NoSuchKey);
      }
      return Success(objects[objectName]);
    }

    /** REMOVE of the image; removing a missing object is not an error. */
    method DeleteCanvas(canvasId: string, down: bool) returns (err: Option<Err>)
      modifies this
      ensures down ==> err == Some(Unreachable) && objects == old(objects)
      ensures !down ==> err == None && objects == old(objects) - {ObjectName(canvasId)}
    {
      var objectName := ObjectName(canvasId);
      if down {
        return Some(Unreachable);
      }
      objects := objects - {objectName};
      return None;
    }
  }
}
