/** The metadata store: the `canvases` table and the operations the Postgres-backed
    storage runs against it. The SQL engine is replaced by a map from canvas_id to
    row plus the order in which a scan meets the rows. */
module PostgresStorage {
  import opened Models

  /** One row of `canvases` without its key; created_at is not modelled. */
  datatype Row = Row(
    name: string,
    width: Int32,
    height: Int32,
    ownerId: string,
    membersIds: seq<string>,
    privacy: string,
    image: string)

  /** The row Save inserts for a canvas: its fields, and an empty image locator. */
  function NewRow(canvas: Canvas): Row
  {
    Row(canvas.name, canvas.width, canvas.height, canvas.ownerId, canvas.membersIds, canvas.privacy, "")
  }

  /** What a scanned row becomes once converted back to strings. */
  function ToInternal(id: string, row: Row): InternalCanvas
  {
    InternalCanvas(id, row.name, row.width, row.height, row.ownerId, row.membersIds, row.privacy, row.image)
  }

  /** The WHERE clauses of the two multi-row queries. */
  datatype Filter =
    | ByIds(ids: seq<string>)      // canvas_id = ANY($1)
    | ByUser(userId: string)       // owner_id = $1 OR $1 = ANY(members_ids)

  predicate Matches(f: Filter, id: string, row: Row)
  {
    match f
    case ByIds(ids) => id in ids
    case ByUser(u) => row.ownerId == u || u in row.membersIds
  }

  predicate Covers(table: map<string, Row>, order: seq<string>)
  {
    forall k :: k in order ==> k in table
  }

  /** The rows a query returns, in scan order. */
  function Select(table: map<string, Row>, order: seq<string>, f: Filter): seq<InternalCanvas>
    requires Covers(table, order)
  {
    if order == [] then []
    else
      var k := order[|order| - 1];
      Select(table, order[..|order| - 1], f)
        + (if Matches(f, k, table[k]) then [ToInternal(k, table[k])] else [])
  }

  /** Every returned row is the converted form of a matching row of the table. */
  lemma {:induction false} SelectSound(table: map<string, Row>, order: seq<string>, f: Filter)
    requires Covers(table, order)
    ensures forall c :: c in Select(table, order, f) ==>
              c.id in order && Matches(f, c.id, table[c.id]) && c == ToInternal(c.id, table[c.id])
  {
    if order != [] {
      var init := order[..|order| - 1];
      SelectSound(table, init, f);
      assert forall k :: k in init ==> k in order;
    }
  }

  /** Every matching row of the table is returned. */
  lemma {:induction false} SelectComplete(table: map<string, Row>, order: seq<string>, f: Filter)
    requires Covers(table, order)
    ensures forall k :: k in order && Matches(f, k, table[k]) ==> ToInternal(k, table[k]) in Select(table, order, f)
  {
    if order != [] {
      var init := order[..|order| - 1];
      SelectComplete(table, init, f);
      assert order == init + [order[|order| - 1]];
    }
  }

  /** A table whose scan meets each key once returns each row at most once. */
  lemma {:induction false} SelectDistinct(table: map<string, Row>, order: seq<string>, f: Filter)
    requires Covers(table, order) && Distinct(order)
    ensures forall i, j :: 0 <= i < j < |Select(table, order, f)| ==>
              Select(table, order, f)[i].id != Select(table, order, f)[j].id
  {
    if order != [] {
      var init := order[..|order| - 1];
      var k := order[|order| - 1];
      SelectDistinct(table, init, f);
      SelectSound(table, init, f);
      assert k !in init;
      var prefix := Select(table, init, f);
      forall i | 0 <= i < |prefix| ensures prefix[i].id != k {
        assert prefix[i] in prefix;
      }
      var r := Select(table, order, f);
      assert r == prefix + (if Matches(f, k, table[k]) then [ToInternal(k, table[k])] else []);
      forall i, j | 0 <= i < j < |r| ensures r[i].id != r[j].id {
        if j >= |prefix| {
          assert r[j].id == k;
          assert r[i] == prefix[i];
        } else {
          assert r[i] == prefix[i] && r[j] == prefix[j];
          assert prefix[i].id != prefix[j].id;
        }
      }
    }
  }

  /** The scan order after one key has been deleted. */
  function Without(s: seq<string>, x: string): (r: seq<string>)
    ensures forall y :: y in r <==> y in s && y != x
    ensures Distinct(s) ==> Distinct(r)
  {
    if s == [] then []
    else
      var rest := Without(s[1..], x);
      assert Distinct(s) ==> s[0] !in s[1..];
      (if s[0] == x then [] else [s[0]]) + rest
  }

  class Storage {
    /** canvas_id -> row */
    var table: map<string, Row>
    /** the order in which a sequential scan meets the rows */
    var order: seq<string>

    /** canvas_id is the primary key: the scan meets every row exactly once. */
    ghost predicate Valid()
      reads this
    {
      && Distinct(order)
      && (forall k :: k in order <==> k in table)
    }

    constructor ()
      ensures Valid() && table == map[] && order == []
    {
      table := map[];
      order := [];
    }

    /** INSERT of a new canvas: every ID is parsed before anything is written. */
    method Save(canvas: Canvas, down: bool) returns (r: Result<string, Err>)
      requires Valid()
      modifies this
      ensures Valid()
      ensures r.Success? <==>
                IsUuid(canvas.id) && IsUuid(canvas.ownerId) && AllUuids(canvas.membersIds)
                && !down && canvas.id !in old(table)
      ensures !IsUuid(canvas.id) ==> r == Failure(Wrapped("invalid canvas UUID", UuidSyntax))
      ensures IsUuid(canvas.id) && !IsUuid(canvas.ownerId) ==> r == Failure(ErrInvalidOwnerID)
      ensures IsUuid(canvas.id) && IsUuid(canvas.ownerId) && !AllUuids(canvas.membersIds) ==>
                r == Failure(Wrapped("invalid member UUID", UuidSyntax))
      ensures IsUuid(canvas.id) && IsUuid(canvas.ownerId) && AllUuids(canvas.membersIds) && down ==>
                r == Failure(Wrapped("failed to execute insert", Unreachable))
      ensures (IsUuid(canvas.id) && IsUuid(canvas.ownerId) && AllUuids(canvas.membersIds) && !down
                && canvas.id in old(table)) ==> r == Failure(ErrCanvasExists)
      ensures r.Failure? ==> table == old(table) && order == old(order)
      ensures r.Success? ==>
                && r.value == canvas.id
                && table == old(table)[canvas.id := NewRow(canvas)]
                && order == old(order) + [canvas.id]
    {
      if !IsUuid(canvas.id) {
        return Failure(Wrapped("invalid canvas UUID", UuidSyntax));
      }
      if !IsUuid(canvas.ownerId) {
        return Failure(ErrInvalidOwnerID);
      }
      var membersIds: seq<string> := [];
      var i := 0;
      while i < |canvas.membersIds|
        invariant 0 <= i <= |canvas.membersIds|
        invariant membersIds == canvas.membersIds[..i]
        invariant AllUuids(membersIds)
      {
        if !IsUuid(canvas.membersIds[i]) {
          return Failure(Wrapped("invalid member UUID", UuidSyntax));
        }
        membersIds := membersIds + [canvas.membersIds[i]];
        i := i + 1;
      }
      assert membersIds == canvas.membersIds;
      if down {
        return Failure(Wrapped("failed to execute insert", Unreachable));
      }
      if canvas.id in table {
        // unique_violation (23505) on the primary key
        return Failure(ErrCanvasExists);
      }
      table := table[canvas.id := NewRow(canvas)];
      order := order + [canvas.id];
      return Success(canvas.id);
    }

    /** The converted rows matching a filter, in scan order. */
    method Scan(f: Filter) returns (canvases: seq<InternalCanvas>)
      requires Valid()
      ensures canvases == Select(table, order, f)
      ensures forall c :: c in canvases ==>
                c.id in table && Matches(f, c.id, table[c.id]) && c == ToInternal(c.id, table[c.id])
      ensures forall k :: k in table && Matches(f, k, table[k]) ==> ToInternal(k, table[k]) in canvases
      ensures forall i, j :: 0 <= i < j < |canvases| ==> canvases[i].id != canvases[j].id
    {
      canvases := [];
      var i := 0;
      while i < |order|
        invariant 0 <= i <= |order|
        invariant Covers(table, order[..i])
        invariant canvases == Select(table, order[..i], f)
      {
        var k := order[i];
        assert order[..i + 1][..i] == order[..i];
        if Matches(f, k, table[k]) {
          canvases := canvases + [ToInternal(k, table[k])];
        }
        i := i + 1;
      }
      assert order[..i] == order;
      SelectSound(table, order, f);
      SelectComplete(table, order, f);
      SelectDistinct(table, order, f);
    }

    /** The canvases a user owns or is whitelisted on. */
    method GetCanvasesByUserId(userId: string, down: bool) returns (r: Result<seq<InternalCanvas>, Err>)
      requires Valid()
      ensures r.Success? <==> IsUuid(userId) && !down
      ensures !IsUuid(userId) ==> r == Failure(Wrapped("invalid user ID", UuidSyntax))
      ensures IsUuid(userId) && down ==> r == Failure(Wrapped("query error", Unreachable))
      ensures r.Success? ==> r.value == Select(table, order, ByUser(userId))
      ensures r.Success? ==> forall c :: c in r.value ==>
                c.id in table && c == ToInternal(c.id, table[c.id])
                && (c.ownerId == userId || userId in c.membersIds)
      ensures r.Success? ==> forall k :: k in table && (table[k].ownerId == userId || userId in table[k].membersIds) ==>
                ToInternal(k, table[k]) in r.value
    {
      if !IsUuid(userId) {
        return Failure(Wrapped("invalid user ID", UuidSyntax));
      }
      if down {
        return Failure(Wrapped("query error", Unreachable));
      }
      var canvases := Scan(ByUser(userId));
      return Success(canvases);
    }

    /** Point read by canvas_id. */
    method GetByID(canvasId: string, down: bool) returns (r: Result<InternalCanvas, Err>)
      ensures r.Success? <==> IsUuid(canvasId) && !down && canvasId in table
      ensures !IsUuid(canvasId) ==> r == Failure(ErrInvalidCanvasID)
      ensures IsUuid(canvasId) && down ==> r == Failure(Wrapped("failed to get canvas", Unreachable))
      ensures IsUuid(canvasId) && !down && canvasId !in table ==> r == Failure(Wrapped("failed to get canvas", NoRows))
      ensures r.Success? ==> r.value == ToInternal(canvasId, table[canvasId])
    {
      if !IsUuid(canvasId) {
        return Failure(ErrInvalidCanvasID);
      }
      if down {
        return Failure(Wrapped("failed to get canvas", Unreachable));
      }
      if canvasId !in table {
        return Failure(Wrapped("failed to get canvas", NoRows));
      }
      return Success(ToInternal(canvasId, table[canvasId]));
    }

    /** UPDATE of the image locator; a missing row is not an error. */
    method SetImageUrl(canvasId: string, imageUrl: string, down: bool) returns (r: Result<string, Err>)
      requires Valid()
      modifies this
      ensures Valid() && order == old(order)
      ensures !IsUuid(canvasId) ==> r == Failure(Wrapped("invalid canvas UUID", UuidSyntax))
      ensures IsUuid(canvasId) && down ==> r == Failure(Wrapped("failed to update image URL", Unreachable))
      ensures IsUuid(canvasId) && !down ==> r == Success(imageUrl)
      ensures r.Failure? ==> table == old(table)
      ensures r.Success? ==>
                table == (if canvasId in old(table)
                          then old(table)[canvasId := old(table)[canvasId].(image := imageUrl)]
                          else old(table))
    {
      if !IsUuid(canvasId) {
        return Failure(Wrapped("invalid canvas UUID", UuidSyntax));
      }
      if down {
        return Failure(Wrapped("failed to update image URL", Unreachable));
      }
      if canvasId in table {
        table := table[canvasId := table[canvasId].(image := imageUrl)];
      }
      return Success(imageUrl);
    }

    /** Multi-row read: every ID is parsed first; IDs without a row are skipped. */
    method GetByIDs(canvasIds: seq<string>, down: bool) returns (r: Result<seq<InternalCanvas>, Err>)
      requires Valid()
      ensures r.Success? <==> AllUuids(canvasIds) && !down
      ensures !AllUuids(canvasIds) ==> r == Failure(Wrapped("invalid canvas UUID", UuidSyntax))
      ensures AllUuids(canvasIds) && down ==> r == Failure(Wrapped("failed to get canvases", Unreachable))
      ensures r.Success? ==> r.value == Select(table, order, ByIds(canvasIds))
      ensures r.Success? ==> forall c :: c in r.value ==>
                c.id in canvasIds && c.id in table && c == ToInternal(c.id, table[c.id])
      ensures r.Success? ==> forall k :: k in canvasIds && k in table ==> ToInternal(k, table[k]) in r.value
      ensures r.Success? ==> forall i, j :: 0 <= i < j < |r.value| ==> r.value[i].id != r.value[j].id
    {
      var ids: seq<string> := [];
      var i := 0;
      while i < |canvasIds|
        invariant 0 <= i <= |canvasIds|
        invariant ids == canvasIds[..i]
        invariant AllUuids(ids)
      {
        if !IsUuid(canvasIds[i]) {
          return Failure(Wrapped("invalid canvas UUID", UuidSyntax));
        }
        ids := ids + [canvasIds[i]];
        i := i + 1;
      }
      assert ids == canvasIds;
      if down {
        return Failure(Wrapped("failed to get canvases", Unreachable));
      }
      var canvases := Scan(ByIds(ids));
      return Success(canvases);
    }

    /** UPDATE of name and privacy; a missing row is not an error. */
    method Update(canvasId: string, name: string, privacy: string, down: bool) returns (r: Result<string, Err>)
      requires Valid()
      modifies this
      ensures Valid() && order == old(order)
      ensures !IsUuid(canvasId) ==> r == Failure(Wrapped("invalid canvas UUID", UuidSyntax))
      ensures IsUuid(canvasId) && down ==> r == Failure(Wrapped("failed to update canvas", Unreachable))
      ensures IsUuid(canvasId) && !down ==> r == Success(canvasId)
      ensures r.Failure? ==> table == old(table)
      ensures r.Success? ==>
                table == (if canvasId in old(table)
                          then old(table)[canvasId := old(table)[canvasId].(name := name, privacy := privacy)]
                          else old(table))
    {
      if !IsUuid(canvasId) {
        return Failure(Wrapped("invalid canvas UUID", UuidSyntax));
      }
      if down {
        return Failure(Wrapped("failed to update canvas", Unreachable));
      }
      if canvasId in table {
        table := table[canvasId := table[canvasId].(name := name, privacy := privacy)];
      }
      return Success(canvasId);
    }

    /** DELETE of one row; a missing row is not an error. */
    method Delete(canvasId: string, down: bool) returns (r: Result<string, Err>)
      requires Valid()
      modifies this
      ensures Valid()
      ensures !IsUuid(canvasId) ==> r == Failure(Wrapped("invalid canvas UUID", UuidSyntax))
      ensures IsUuid(canvasId) && down ==> r == Failure(Wrapped("failed to delete canvas", Unreachable))
      ensures IsUuid(canvasId) && !down ==> r == Success(canvasId)
      ensures r.Failure? ==> table == old(table) && order == old(order)
      ensures r.Success? ==> table == old(table) - {canvasId} && order == Without(old(order), canvasId)
    {
      if !IsUuid(canvasId) {
        return Failure(Wrapped("invalid canvas UUID", UuidSyntax));
      }
      if down {
        return Failure(Wrapped("failed to delete canvas", Unreachable));
      }
      table := table - {canvasId};
      order := Without(order, canvasId);
      return Success(canvasId);
    }

    /** Whitelisting: the owner is refused, and the member is appended only when absent. */
    method AddToWhiteList(canvasId: string, userId: string, down: bool) returns (r: Result<string, Err>)
      requires Valid()
      modifies this
      ensures Valid() && order == old(order)
      ensures !IsUuid(canvasId) ==> r == Failure(Wrapped("invalid canvas ID", UuidSyntax))
      ensures IsUuid(canvasId) && !IsUuid(userId) ==> r == Failure(Wrapped("invalid user ID", UuidSyntax))
      ensures IsUuid(canvasId) && IsUuid(userId) && down ==>
                r == Failure(Wrapped("failed to get owner ID", Unreachable))
      ensures IsUuid(canvasId) && IsUuid(userId) && !down && canvasId !in old(table) ==>
                r == Failure(Wrapped("failed to get owner ID", NoRows))
      ensures IsUuid(canvasId) && IsUuid(userId) && !down && canvasId in old(table) ==>
                && (userId == old(table)[canvasId].ownerId ==> r == Failure(ErrAddOwnerToWhiteList))
                && (userId != old(table)[canvasId].ownerId && userId in old(table)[canvasId].membersIds ==>
                      r == Failure(Message("user already in whitelist or canvas not found")))
      ensures r.Success? <==>
                IsUuid(canvasId) && IsUuid(userId) && !down && canvasId in old(table)
                && userId != old(table)[canvasId].ownerId && userId !in old(table)[canvasId].membersIds
      ensures r.Failure? ==> table == old(table)
      ensures r.Success? ==>
                && r.value == canvasId
                && table == old(table)[canvasId := old(table)[canvasId].(membersIds := old(table)[canvasId].membersIds + [userId])]
    {
      if !IsUuid(canvasId) {
        return Failure(Wrapped("invalid canvas ID", UuidSyntax));
      }
      if !IsUuid(userId) {
        return Failure(Wrapped("invalid user ID", UuidSyntax));
      }
      if down {
        return Failure(Wrapped("failed to get owner ID", Unreachable));
      }
      if canvasId !in table {
        return Failure(Wrapped("failed to get owner ID", NoRows));
      }
      var ownerId := table[canvasId].ownerId;
      if userId == ownerId {
        return Failure(ErrAddOwnerToWhiteList);
      }
      // UPDATE ... SET members_ids = array_append(members_ids, $2)
      //   WHERE canvas_id = $1 AND NOT ($2 = ANY(members_ids))
      var row := table[canvasId];
      var rowsAffected := 0;
      if userId !in row.membersIds {
        table := table[canvasId := row.(membersIds := row.membersIds + [userId])];
        rowsAffected := 1;
      }
      if rowsAffected == 0 {
        return Failure(Message("user already in whitelist or canvas not found"));
      }
      return Success(canvasId);
    }
  }

  /** A row has a duplicate-free whitelist that leaves out its owner. */
  predicate WhitelistSound(row: Row)
  {
    Distinct(row.membersIds) && row.ownerId !in row.membersIds
  }

  /** The conditional append of AddToWhiteList keeps a sound whitelist sound. */
  lemma AppendKeepsWhitelistSound(row: Row, userId: string)
    requires WhitelistSound(row) && userId != row.ownerId && userId !in row.membersIds
    ensures WhitelistSound(row.(membersIds := row.membersIds + [userId]))
  {
    DistinctAppend(row.membersIds, userId);
  }
}
