/** The handlers that the network thread runs, over the server and game objects that other threads use as well. */
module PacketHandling {
  import opened Protocol
  import opened GameEngine
  import opened Clients
  import opened ServerEngine
  import opened Sessions

  class PacketHandler {
    const server: Server
    const game: Game
    var threads: seq<Thread>

    ghost function View(): Session
      reads this, server, game
    {
      Session(server.View(), game.View(), threads)
    }

    constructor (server: Server, game: Game)
      ensures this.server == server && this.game == game && threads == []
    {
      this.server, this.game, threads := server, game, [];
    }

    /** The new thread is started detached; it sets up the players when it gets to run. */
    method HandleGameStart()
      modifies this, server
      ensures View() == Sessions.HandleGameStart(old(View()))
    {
      if server.gameRunning {
        return;
      }
      server.gameRunning := true;
      var numPlayers := |server.clients|;
      server.BroadcastPacket(GAME_START, "");
      threads := threads + [Starting(numPlayers)];
    }

    method HandleGameEnd()
      modifies server, game
      ensures View() == Sessions.HandleGameEnd(old(View()))
    {
      if !server.gameRunning {
        return;
      }
      server.gameRunning := false;
      game.Stop();
    }

    method HandlePlayerAction(ep: Endpoint, code: int)
      modifies game
      ensures View() == Sessions.HandlePlayerAction(old(View()), ep, code)
    {
      if !server.gameRunning {
        return;
      }
      var playerId := server.FindClient(ep);
      if playerId.Some? {
        game.AddPlayerAction(playerId.value, code);
      }
    }

    method HandlePlayerShoot(ep: Endpoint)
      modifies game
      ensures View() == Sessions.HandlePlayerShoot(old(View()), ep)
    {
      var playerId := server.FindClient(ep);
      if playerId.Some? {
        game.SpawnBullet(playerId.value);
      }
    }

    /** The dispatch table; a packet type without a handler is only reported. */
    method HandlePacket(kind: PacketType, ep: Endpoint)
      modifies this, server, game
      ensures View() == Sessions.HandlePacket(old(View()), kind, ep)
    {
      match kind {
        case REQCONNECT => var _ := server.ReqConnectData(ep);
        case DISCONNECTED => var _ := server.DisconnectData(ep);
        case GAME_START => HandleGameStart();
        case GAME_END => HandleGameEnd();
        case PLAYER_LEFT => HandlePlayerAction(ep, 1);
        case PLAYER_RIGHT => HandlePlayerAction(ep, 2);
        case PLAYER_UP => HandlePlayerAction(ep, 3);
        case PLAYER_DOWN => HandlePlayerAction(ep, 4);
        case PLAYER_SHOOT => HandlePlayerShoot(ep);
        case HEARTBEAT => server.SendPong();
        case _ =>
      }
    }
  }
}
