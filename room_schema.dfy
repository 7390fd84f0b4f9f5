/**
 * The room schemas: creation requires a name, a player limit and a
 * privacy flag, with an optional description; the update schema makes
 * every field optional but keeps each field's rule.
 */
module RoomSchema {
  import opened Json

  predicate NameAccepted(v: Value) { v.Str? && 3 <= |v.s| <= 50 }

  /** `z.string().max(500)` */
  predicate DescriptionAccepted(v: Value) { v.Str? && |v.s| <= 500 }

  /** `z.number().int().min(2).max(8)` */
  predicate MaxPlayersAccepted(v: Value) { v.Num? && v.n.Floor as real == v.n && 2.0 <= v.n <= 8.0 }

  predicate IsPrivateAccepted(v: Value) { v.Bool? }

  /** `CreateRoomSchema` accepts `v`. */
  predicate CreateRoomAccepts(v: Value)
  {
    && v.Obj?
    && NameAccepted(Get(v, "name"))
    && (Get(v, "description") == Undefined || DescriptionAccepted(Get(v, "description")))
    && MaxPlayersAccepted(Get(v, "maxPlayers"))
    && IsPrivateAccepted(Get(v, "isPrivate"))
  }

  /** `UpdateRoomSchema`, the partial schema: each field absent or meeting its creation rule. */
  predicate UpdateRoomAccepts(v: Value)
  {
    && v.Obj?
    && (Get(v, "name") == Undefined || NameAccepted(Get(v, "name")))
    && (Get(v, "description") == Undefined || DescriptionAccepted(Get(v, "description")))
    && (Get(v, "maxPlayers") == Undefined || MaxPlayersAccepted(Get(v, "maxPlayers")))
    && (Get(v, "isPrivate") == Undefined || IsPrivateAccepted(Get(v, "isPrivate")))
  }

  /** An accepted room has a 3-50 character name, 2 to 8 players and a boolean privacy flag. */
  lemma AcceptedRoomFields(v: Value)
    requires CreateRoomAccepts(v)
    ensures 3 <= |Get(v, "name").s| <= 50
    ensures Get(v, "maxPlayers").Num? && 2.0 <= Get(v, "maxPlayers").n <= 8.0
    ensures Get(v, "maxPlayers").n.Floor as real == Get(v, "maxPlayers").n
    ensures Get(v, "description").Str? ==> |Get(v, "description").s| <= 500
    ensures Get(v, "isPrivate").Bool?
  {
  }

  /** The empty update is accepted. */
  lemma EmptyUpdateAccepted()
    ensures UpdateRoomAccepts(Obj(map[]))
  {
  }

  /** Every room body creation accepts is also a valid update. */
  lemma CreateIsUpdate(v: Value)
    requires CreateRoomAccepts(v)
    ensures UpdateRoomAccepts(v)
  {
  }

  /** An update carrying every required field is accepted exactly when creation accepts it. */
  lemma CompleteUpdateIsCreate(v: Value)
    requires v.Obj? && Get(v, "name") != Undefined && Get(v, "maxPlayers") != Undefined && Get(v, "isPrivate") != Undefined
    ensures UpdateRoomAccepts(v) <==> CreateRoomAccepts(v)
  {
  }

  /** A field present in an update must meet its creation rule: a two-character name is rejected. */
  lemma PresentFieldStillChecked(name: string)
    requires |name| < 3 || |name| > 50
    ensures !UpdateRoomAccepts(Obj(map["name" := Str(name)]))
    ensures UpdateRoomAccepts(Obj(map["name" := Str("Nouveau nom")]))
  {
  }

  /** Both privacy values are accepted; a player limit outside 2..8 is not. */
  lemma SampleRooms(p: bool, players: real)
    requires players < 2.0 || players > 8.0
    ensures CreateRoomAccepts(Obj(map["name" := Str("Donjon des Ombres"), "maxPlayers" := Num(4.0), "isPrivate" := Bool(p)]))
    ensures !CreateRoomAccepts(Obj(map["name" := Str("Donjon des Ombres"), "maxPlayers" := Num(players), "isPrivate" := Bool(p)]))
  {
    assert (4.0).Floor == 4;
  }
}
