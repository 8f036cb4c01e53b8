/** The packet types and the payload that the server queues for its clients. */
module Protocol {

  datatype PacketType =
    | NONE | REQCONNECT | DISCONNECTED | GAME_START | PLAYER_DEAD | PLAYER_JOIN | PLAYER_SHOOT
    | GAME_END | PLAYER_RIGHT | PLAYER_LEFT | PLAYER_UP | PLAYER_DOWN
    | CREATE_ENEMY | CREATE_BOSS | CREATE_PLAYER | CREATE_BULLET
    | CHANGE | GAME_STARTED | GAME_NOT_STARTED | UI_UPDATE
    | DESTROY_PLAYER | DESTROY_ENEMY | DESTROY_BOSS | DESTROY_BULLET
    | HEARTBEAT

  /** The numeric value of each enumerator, which is also its byte on the wire. */
  function Code(kind: PacketType): nat {
    match kind
    case NONE => 0
    case REQCONNECT => 1
    case DISCONNECTED => 2
    case GAME_START => 3
    case PLAYER_DEAD => 4
    case PLAYER_JOIN => 5
    case PLAYER_SHOOT => 6
    case GAME_END => 15
    case PLAYER_RIGHT => 16
    case PLAYER_LEFT => 17
    case PLAYER_UP => 18
    case PLAYER_DOWN => 19
    case CREATE_ENEMY => 22
    case CREATE_BOSS => 23
    case CREATE_PLAYER => 24
    case CREATE_BULLET => 25
    case CHANGE => 29
    case GAME_STARTED => 30
    case GAME_NOT_STARTED => 31
    case UI_UPDATE => 34
    case DESTROY_PLAYER => 35
    case DESTROY_ENEMY => 36
    case DESTROY_BOSS => 37
    case DESTROY_BULLET => 38
    case HEARTBEAT => 99
  }

  /** The packets that say where a player is. */
  predicate PlacesPlayer(kind: PacketType) {
    kind == CREATE_PLAYER || kind == CHANGE
  }

  /** A broadcast packet before it is printed: its type and its five fields. */
  datatype Message = Message(kind: PacketType, id: int, x: real, y: real, vx: real, vy: real)
}
