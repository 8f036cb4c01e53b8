/** The server's bookkeeping: its client table, its packet numbers and its send queue. */
module ServerState {
  import opened Collections
  import opened Protocol
  import opened Wire
  import opened Clients

  /** `outbox` lists what has been handed to the socket, each datagram with its destination. */
  datatype State = State(
    table: Table,
    running: bool,
    number: int,
    queue: seq<string>,
    outbox: seq<(string, Endpoint)>
  )

  const NEW_SERVER: State := State(NO_CLIENTS, false, 0, [], [])

  /** Broadcast(createPacket(kind, data)): the packet takes the next number and waits in the queue. */
  function Queue(s: State, kind: PacketType, data: string): State {
    s.(number := s.number + 1, queue := s.queue + [Packet(kind, data, s.number + 1)])
  }

  /** send_to_client(createPacket(kind, "")): the packet takes the next number and leaves at once. */
  function Reply(s: State, kind: PacketType, ep: Endpoint): State {
    s.(number := s.number + 1, outbox := s.outbox + [(Packet(kind, "", s.number + 1), ep)])
  }

  /** reqConnectData */
  function Connect(s: State, ep: Endpoint): State {
    Reply(s.(table := Create(s.table, ep).0), if s.running then GAME_STARTED else GAME_NOT_STARTED, ep)
  }

  /** disconnectData: an unknown endpoint is answered with NONE. */
  function Disconnect(s: State, ep: Endpoint): State {
    var (t, found) := Clients.Disconnect(s.table, ep);
    if found.Some? then s.(table := t) else Reply(s, NONE, ep)
  }

  /** One message to the clients that are left, in id order. */
  function ToClients(message: string, clients: map<int, Endpoint>, left: set<int>): seq<(string, Endpoint)>
    requires left <= clients.Keys
    decreases |left|
  {
    if left == {} then []
    else
      var id := Least(left);
      [(message, clients[id])] + ToClients(message, clients, left - {id})
  }

  /** handle_send_timer: the oldest queued packet goes to every client. */
  function SendTick(s: State): State {
    if s.queue == [] then s
    else s.(queue := s.queue[1..], outbox := s.outbox + ToClients(s.queue[0], s.table.clients, s.table.clients.Keys))
  }
}

module ServerEngine {
  import opened Collections
  import opened Protocol
  import opened Numerals
  import opened Wire
  import opened Clients
  import opened ServerState

  class Server {
    var clients: map<int, Endpoint>
    var available: seq<int>
    var nbClients: int
    var gameRunning: bool
    var sequenceNumber: int
    var sendQueue: seq<string>
    var outbox: seq<(string, Endpoint)>

    function Registered(): Table
      reads this
    {
      Table(clients, available, nbClients)
    }

    function View(): State
      reads this
    {
      State(Registered(), gameRunning, sequenceNumber, sendQueue, outbox)
    }

    constructor ()
      ensures View() == NEW_SERVER
    {
      clients, available, nbClients, gameRunning := map[], [], 0, false;
      sequenceNumber, sendQueue, outbox := 0, [], [];
    }

    // ---- Packets ----

    method CreatePacket(kind: PacketType, data: string) returns (packet: string)
      modifies this`sequenceNumber
      ensures sequenceNumber == old(sequenceNumber) + 1
      ensures packet == Packet(kind, data, sequenceNumber)
    {
      var packetData := if data == "" then NO_DATA else data;
      packet := [Code(kind) as char];
      packet := packet + ";";
      ghost var head := packet;
      for i := 0 to |packetData|
        invariant packet == head + packetData[..i]
      {
        packet := packet + [packetData[i]];
      }
      assert packetData[..|packetData|] == packetData;
      packet := packet + ";";
      sequenceNumber := sequenceNumber + 1;
      packet := packet + Print(IntNumber(sequenceNumber));
    }

    method Broadcast(message: string)
      modifies this`sendQueue
      ensures sendQueue == old(sendQueue) + [message]
    {
      sendQueue := sendQueue + [message];
    }

    method SendToClient(message: string, ep: Endpoint)
      modifies this`outbox
      ensures outbox == old(outbox) + [(message, ep)]
    {
      outbox := outbox + [(message, ep)];
    }

    method BroadcastPacket(kind: PacketType, data: string)
      modifies this`sequenceNumber, this`sendQueue
      ensures View() == Queue(old(View()), kind, data)
    {
      var packet := CreatePacket(kind, data);
      Broadcast(packet);
    }

    method SendPong()
      modifies this`sequenceNumber, this`sendQueue
      ensures View() == Queue(old(View()), HEARTBEAT, "")
    {
      BroadcastPacket(HEARTBEAT, "");
    }

    // ---- Clients ----

    /** The search of createClient, disconnectData and the packet handlers. */
    method FindClient(ep: Endpoint) returns (found: Option<int>)
      ensures found == Find(Registered(), ep)
    {
      var left := clients.Keys;
      while left != {}
        invariant left <= clients.Keys
        invariant FindFrom(clients, ep, left) == Find(Registered(), ep)
        decreases left
      {
        var id := Least(left);
        if clients[id] == ep {
          return Some(id);
        }
        left := left - {id};
      }
      found := None;
    }

    method CreateClient(ep: Endpoint) returns (id: int)
      modifies this`clients, this`available, this`nbClients
      ensures (Registered(), id) == Create(old(Registered()), ep)
    {
      var found := FindClient(ep);
      if found.Some? {
        return found.value;
      }
      if available != [] {
        id := available[0];
        available := available[1..];
      } else {
        id := nbClients;
        nbClients := (nbClients + 1) % WIDTH;
      }
      if id !in clients {
        clients := clients[id := ep];
      }
    }

    method ReqConnectData(ep: Endpoint) returns (id: int)
      modifies this
      ensures View() == Connect(old(View()), ep)
      ensures id == Create(old(Registered()), ep).1
    {
      id := CreateClient(ep);
      var packet := CreatePacket(if gameRunning then GAME_STARTED else GAME_NOT_STARTED, "");
      SendToClient(packet, ep);
    }

    /** None stands for the id -1 of an unknown endpoint. */
    method DisconnectData(ep: Endpoint) returns (id: Option<int>)
      modifies this
      ensures View() == ServerState.Disconnect(old(View()), ep)
      ensures id == Clients.Disconnect(old(Registered()), ep).1
    {
      id := FindClient(ep);
      if id.Some? {
        available := available + [id.value];
        clients := clients - {id.value};
      } else {
        var packet := CreatePacket(NONE, "");
        SendToClient(packet, ep);
      }
    }

    // ---- Sending ----

    method HandleSendTimer()
      modifies this`sendQueue, this`outbox
      ensures View() == SendTick(old(View()))
    {
      if sendQueue != [] {
        var message := sendQueue[0];
        sendQueue := sendQueue[1..];
        var left := clients.Keys;
        ghost var before, all := outbox, ToClients(message, clients, clients.Keys);
        while left != {}
          invariant left <= clients.Keys
          invariant sendQueue == old(sendQueue)[1..]
          invariant outbox + ToClients(message, clients, left) == before + all
          decreases left
        {
          var id := Least(left);
          left := left - {id};
          SendToClient(message, clients[id]);
        }
        assert outbox == before + all;
      }
    }
  }
}
