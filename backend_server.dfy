/**
 * A backend server record as the proxy network sees it: its identity, where it
 * listens, what kind of server it is, and how many players it holds against its
 * capacity. The record is a value here; the one field the network updates in
 * place, the player count, is replaced with a record update by the dispatcher.
 */
module BackendServer {

  /** Java's `int`: the port and both player counts are 32-bit signed values. */
  newtype Int32 = x: int | -0x8000_0000 <= x < 0x8000_0000

  /** The opaque unique identifier of a server, fixed for the record's life. */
  type ServerId = string

  /** The server category; its enumeration constants are not part of this model. */
  datatype ServerType = ServerType(name: string)

  datatype Server = Server(
    id: ServerId,
    serverType: ServerType,
    host: string,
    port: Int32,
    playerCount: Int32,
    maxPlayers: Int32)
  {
    /** A server is full once its occupancy has reached its capacity. */
    predicate IsFull()
    {
      playerCount >= maxPlayers
    }
  }

  /** A server holding exactly as many players as it admits is full. */
  lemma IsFullAtCapacity(s: Server)
    requires s.playerCount == s.maxPlayers
    ensures s.IsFull()
  {
  }

  /** A server with room for one more player is not full. */
  lemma IsFullBelowCapacity(s: Server)
    requires s.playerCount < s.maxPlayers
    ensures !s.IsFull()
  {
  }

  /** Raising the player count never turns a full server back into a non-full one. */
  lemma IsFullMonotone(s: Server, count: Int32)
    requires s.IsFull() && count >= s.playerCount
    ensures s.(playerCount := count).IsFull()
  {
  }

  /** Fullness depends on the two counts only, not on type, host or port (or id). */
  lemma IsFullIgnoresOtherFields(s: Server, t: Server)
    requires s.playerCount == t.playerCount && s.maxPlayers == t.maxPlayers
    ensures s.IsFull() <==> t.IsFull()
  {
  }
}
