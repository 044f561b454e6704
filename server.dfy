/**
 * The session server's participant registry (server.js).
 *
 * The server keeps one dictionary, `players`, keyed by socket id. Four socket
 * handlers read and update it: `joinRoom`, `playerMovement`, `chatMessage` and
 * `disconnect`. Node runs each handler to completion, so each is one atomic
 * step here. Each handler is a pure function from the old dictionary to an
 * Outcome (the new dictionary and the events it emits, each tagged with its
 * audience); the class Registry performs the same steps in place.
 */
module Server {
  import opened Wrappers

  type SocketId = string

  /** Spawn position given to every joining player (server.js:19-20). */
  const SPAWN_X: real := 400.0
  const SPAWN_Y: real := 300.0

  /** Name used when the join payload carries no name or an empty one (server.js:22). */
  const DEFAULT_NAME: string := "Guest"

  /** A participant record `{x, y, id, name, color}`. */
  datatype Player = Player(x: real, y: real, id: SocketId, name: string, color: real)

  type Roster = map<SocketId, Player>

  /** Who receives an emission: `socket.emit`, `socket.broadcast.emit` or `io.emit`. */
  datatype Audience = Sender | AllButSender | Everyone

  datatype Event =
    | CurrentPlayers(players: Roster)
    | NewPlayer(player: Player)
    | PlayerMoved(player: Player)
    | NewMessage(name: string, message: string)
    | PlayerDisconnected(id: SocketId)

  datatype Emission = Emission(audience: Audience, event: Event)

  /** The dictionary after a handler ran, and what the handler emitted, in order. */
  datatype Outcome = Outcome(players: Roster, emitted: seq<Emission>)

  /** An inbound socket event; `color` stands for the server's `Math.random() * 0xffffff`. */
  datatype Request =
    | JoinRoom(name: Option<string>, color: real)
    | PlayerMovement(x: real, y: real)
    | ChatMessage(message: string)
    | Disconnect

  /** A request together with the socket it arrived on. */
  datatype Call = Call(from: SocketId, request: Request)

  /** Every record is stored under its own id and carries a non-empty name. */
  ghost predicate WellFormed(players: Roster)
  {
    forall k :: k in players ==> players[k].id == k && players[k].name != []
  }

  /** `data.name || "Guest"`: a missing or empty name falls back to the default. */
  function DisplayName(name: Option<string>): (n: string)
    ensures n != []
    ensures name.Some? && name.value != [] ==> n == name.value
    ensures name.None? || name.value == [] ==> n == DEFAULT_NAME
  {
    match name
    case Some(s) => if s != [] then s else DEFAULT_NAME
    case None => DEFAULT_NAME
  }

  /**
   * `joinRoom`: store a fresh record at the spawn point (replacing any earlier
   * one of this socket), send the whole dictionary to the joiner and the new
   * record to everyone else.
   */
  function Join(players: Roster, id: SocketId, name: Option<string>, color: real): (r: Outcome)
    ensures r.players.Keys == players.Keys + {id}
    ensures r.players[id] == Player(SPAWN_X, SPAWN_Y, id, DisplayName(name), color)
    ensures forall k :: k in players && k != id ==> r.players[k] == players[k]
    ensures r.emitted == [Emission(Sender, CurrentPlayers(r.players)),
                          Emission(AllButSender, NewPlayer(r.players[id]))]
    ensures WellFormed(players) ==> WellFormed(r.players)
  {
    var joined := players[id := Player(SPAWN_X, SPAWN_Y, id, DisplayName(name), color)];
    Outcome(joined, [Emission(Sender, CurrentPlayers(joined)), Emission(AllButSender, NewPlayer(joined[id]))])
  }

  /**
   * `playerMovement`: a joined socket's record takes the new coordinates and
   * is broadcast to everyone else; an unknown socket changes and emits nothing.
   */
  function Move(players: Roster, id: SocketId, x: real, y: real): (r: Outcome)
    ensures id !in players ==> r == Outcome(players, [])
    ensures id in players ==>
      && r.players.Keys == players.Keys
      && r.players[id].x == x && r.players[id].y == y
      && r.players[id].id == players[id].id
      && r.players[id].name == players[id].name
      && r.players[id].color == players[id].color
      && (forall k :: k in players && k != id ==> r.players[k] == players[k])
      && r.emitted == [Emission(AllButSender, PlayerMoved(r.players[id]))]
    ensures WellFormed(players) ==> WellFormed(r.players)
  {
    if id in players then
      var moved := players[id := players[id].(x := x, y := y)];
      Outcome(moved, [Emission(AllButSender, PlayerMoved(moved[id]))])
    else
      Outcome(players, [])
  }

  /** `chatMessage`: never touches the dictionary; relays `{name, message}` to all sockets if the sender joined. */
  function Chat(players: Roster, id: SocketId, message: string): (r: Outcome)
    ensures r.players == players
    ensures id in players ==> r.emitted == [Emission(Everyone, NewMessage(players[id].name, message))]
    ensures id !in players ==> r.emitted == []
  {
    if id in players then Outcome(players, [Emission(Everyone, NewMessage(players[id].name, message))])
    else Outcome(players, [])
  }

  /** `disconnect`: delete the record and announce it to all, or do nothing if there is no record. */
  function Leave(players: Roster, id: SocketId): (r: Outcome)
    ensures r.players.Keys == players.Keys - {id}
    ensures forall k :: k in r.players ==> r.players[k] == players[k]
    ensures r.emitted == if id in players then [Emission(Everyone, PlayerDisconnected(id))] else []
    ensures WellFormed(players) ==> WellFormed(r.players)
  {
    if id in players then Outcome(players - {id}, [Emission(Everyone, PlayerDisconnected(id))])
    else Outcome(players, [])
  }

  /** Route one inbound event to its handler. */
  function Handle(players: Roster, call: Call): (r: Outcome)
    ensures WellFormed(players) ==> WellFormed(r.players)
  {
    match call.request
    case JoinRoom(name, color) => Join(players, call.from, name, color)
    case PlayerMovement(x, y) => Move(players, call.from, x, y)
    case ChatMessage(message) => Chat(players, call.from, message)
    case Disconnect => Leave(players, call.from)
  }

  /** The handlers run one after another, in arrival order; emissions are concatenated in that order. */
  function Run(players: Roster, calls: seq<Call>): Outcome
    decreases |calls|
  {
    if calls == [] then Outcome(players, [])
    else
      var first := Handle(players, calls[0]);
      var rest := Run(first.players, calls[1..]);
      Outcome(rest.players, first.emitted + rest.emitted)
  }

  /** Every sequence of handler runs keeps each record under its own id with a non-empty name. */
  lemma {:induction false} RunPreservesWellFormed(players: Roster, calls: seq<Call>)
    requires WellFormed(players)
    ensures WellFormed(Run(players, calls).players)
    decreases |calls|
  {
    if calls != [] {
      RunPreservesWellFormed(Handle(players, calls[0]).players, calls[1..]);
    }
  }

  /** A second `joinRoom` on the same socket does not fail: it replaces the record and resets the position. */
  lemma RejoinOverwrites(players: Roster, id: SocketId, x: real, y: real,
                         first: Option<string>, c1: real, second: Option<string>, c2: real)
    ensures Join(Move(Join(players, id, first, c1).players, id, x, y).players, id, second, c2)
            == Join(players, id, second, c2)
  {
    var p := Join(players, id, first, c1).players;
    var q := Move(p, id, x, y).players;
    assert Join(q, id, second, c2).players == Join(players, id, second, c2).players;
  }

  /** Joining and then disconnecting leaves a socket that was not there before without a trace. */
  lemma JoinThenLeave(players: Roster, id: SocketId, name: Option<string>, color: real)
    requires id !in players
    ensures Leave(Join(players, id, name, color).players, id)
            == Outcome(players, [Emission(Everyone, PlayerDisconnected(id))])
  {
  }

  /** A repeated `disconnect` is a no-op that emits nothing. */
  lemma LeaveIdempotent(players: Roster, id: SocketId)
    ensures Leave(Leave(players, id).players, id) == Outcome(Leave(players, id).players, [])
  {
  }

  /** How many `playerDisconnected` announcements for `id` an emission list holds. */
  function Departures(es: seq<Emission>, id: SocketId): nat
  {
    if es == [] then 0
    else (if es[0] == Emission(Everyone, PlayerDisconnected(id)) then 1 else 0) + Departures(es[1..], id)
  }

  /** How many `joinRoom` requests the socket `id` makes in a sequence of calls. */
  function Joins(calls: seq<Call>, id: SocketId): nat
  {
    if calls == [] then 0
    else (if calls[0].from == id && calls[0].request.JoinRoom? then 1 else 0) + Joins(calls[1..], id)
  }

  lemma {:induction false} DeparturesAppend(a: seq<Emission>, b: seq<Emission>, id: SocketId)
    ensures Departures(a + b, id) == Departures(a, id) + Departures(b, id)
  {
    if a != [] {
      assert (a + b)[0] == a[0] && (a + b)[1..] == a[1..] + b;
      DeparturesAppend(a[1..], b, id);
    } else {
      assert a + b == b;
    }
  }

  /** One step announces the departure of `id` at most once, and only if `id` had a record. */
  lemma HandleDepartures(players: Roster, call: Call, id: SocketId)
    ensures Departures(Handle(players, call).emitted, id) <= (if id in players then 1 else 0)
    ensures id in Handle(players, call).players && !(call.from == id && call.request.JoinRoom?)
            ==> id in players && Departures(Handle(players, call).emitted, id) == 0
  {
    var es := Handle(players, call).emitted;
    match call.request
    case JoinRoom(name, color) =>
      assert es[1..][1..] == [];
    case PlayerMovement(x, y) =>
      if call.from in players { assert es[1..] == []; }
    case ChatMessage(message) =>
      if call.from in players { assert es[1..] == []; }
    case Disconnect =>
      if call.from in players { assert es[1..] == []; }
  }

  /**
   * Idempotent removal: over any run, a socket is announced as disconnected at
   * most once per record it held, that is at most once more than the number
   * of times it joined, or once for a record present at the start.
   */
  lemma {:induction false} DeparturesBounded(players: Roster, calls: seq<Call>, id: SocketId)
    ensures Departures(Run(players, calls).emitted, id) <= (if id in players then 1 else 0) + Joins(calls, id)
    decreases |calls|
  {
    if calls != [] {
      var first := Handle(players, calls[0]);
      var rest := Run(first.players, calls[1..]);
      DeparturesAppend(first.emitted, rest.emitted, id);
      DeparturesBounded(first.players, calls[1..], id);
      HandleDepartures(players, calls[0], id);
    }
  }

  /** The server's dictionary `players`, updated in place by the four handlers. */
  class Registry {
    var players: Roster

    ghost predicate Valid()
      reads this
    {
      WellFormed(players)
    }

    constructor ()
      ensures Valid() && players == map[]
    {
      players := map[];
    }

    method JoinRoom(id: SocketId, name: Option<string>, color: real) returns (emitted: seq<Emission>)
      requires Valid()
      modifies this
      ensures Valid()
      ensures Outcome(players, emitted) == Join(old(players), id, name, color)
    {
      players := players[id := Player(SPAWN_X, SPAWN_Y, id, DisplayName(name), color)];
      emitted := [Emission(Sender, CurrentPlayers(players))];
      emitted := emitted + [Emission(AllButSender, NewPlayer(players[id]))];
    }

    method PlayerMovement(id: SocketId, x: real, y: real) returns (emitted: seq<Emission>)
      requires Valid()
      modifies this
      ensures Valid()
      ensures Outcome(players, emitted) == Move(old(players), id, x, y)
    {
      emitted := [];
      if id in players {
        players := players[id := players[id].(x := x)];
        players := players[id := players[id].(y := y)];
        emitted := [Emission(AllButSender, PlayerMoved(players[id]))];
      }
    }

    method ChatMessage(id: SocketId, message: string) returns (emitted: seq<Emission>)
      requires Valid()
      ensures Outcome(players, emitted) == Chat(players, id, message)
    {
      emitted := [];
      if id in players {
        emitted := [Emission(Everyone, NewMessage(players[id].name, message))];
      }
    }

    method Disconnect(id: SocketId) returns (emitted: seq<Emission>)
      requires Valid()
      modifies this
      ensures Valid()
      ensures Outcome(players, emitted) == Leave(old(players), id)
    {
      emitted := [];
      if id in players {
        players := players - {id};
        emitted := [Emission(Everyone, PlayerDisconnected(id))];
      }
    }
  }
}
