# Hyggen: participant registry and seating logic, modelled in Dafny

Hyggen is a small shared virtual room. A Node server (server.js) keeps a
dictionary `players` keyed by socket id and relays joins, moves, chat lines and
departures over socket.io. A Phaser client (public/game.js) builds the room
from a tile grid, numbers its chairs, moves the local player with the arrow
keys and lets it sit on a nearby free chair and stand up again.

This project models both halves:

- `server.dfy` (module `Server`): the four handlers `joinRoom`,
  `playerMovement`, `chatMessage` and `disconnect`. Each is a pure function
  from the old dictionary to an `Outcome`: the new dictionary and the events
  emitted, each tagged with its audience (`Sender` for `socket.emit`,
  `AllButSender` for `socket.broadcast.emit`, `Everyone` for `io.emit`). The
  class `Registry` holds the dictionary as a `map` field and performs the same
  steps in place. `Run` chains handlers in arrival order; Node runs each
  handler to completion, so there is no interleaving to model.
- `layout.dfy` (module `Layout`): the tile grid, the centre of each tile, and
  the row-major scan that turns tiles with code 3 into chairs.
- `client.dfy` (module `Client`): chair sprites as a class `Chair`. The map
  loader is `LoadMap`. The scene (`Scene`) holds the player's state, current
  chair and position. It has the `chairUpdate` handler, one frame of `update`,
  and `sitDown` and `standUp`. The pure function `Frame` describes one frame,
  and the lemmas about the walking/sitting behaviour are stated over it.
- `wrappers.dfy`: an `Option` type for missing payload fields.

Coordinates are `real`. The client's distance test `Distance.Between(...) < 50`
is stated exactly as "squared distance below 2500".

The code has no seat state on the server. server.js has no handler for the
client's `interact` message and never emits the `chairUpdate` event that
game.js listens for. Its player record has no seat field. There is no seat
exclusivity, no freezing of movement while seated, and no rejected or
duplicate joins. The model follows the code:

- a second `joinRoom` overwrites the record (`RejoinOverwrites`);
- an empty or missing name becomes `"Guest"` instead of being rejected;
- the server accepts movement from any joined socket;
- a chair's `occupied` flag on the client changes only through `chairUpdate`,
  so sitting does not mark the chair occupied locally.

## Model

| member | source | states |
|---|---|---|
| `Server.DisplayName` | server.js:22 | the stored name is the given name when it is present and non-empty, otherwise `"Guest"`; it is never empty |
| `Server.Join` | server.js:16-31 | after `joinRoom` the joiner's record is exactly `{400, 300, id, name, color}`, other records are unchanged, the whole dictionary (joiner included) goes to the joiner only and the new record to everyone else; the id/name invariant is kept |
| `Server.Move` | server.js:34-41 | an unknown socket changes and emits nothing; a joined one changes only its own `x` and `y` (id, name, colour and all other records unchanged) and its record is sent to all but the sender |
| `Server.Chat` | server.js:44-51 | the dictionary never changes; `{name, message}` goes to all sockets, sender included, exactly when the sender has joined |
| `Server.Leave` | server.js:54-60 | the record is deleted and `playerDisconnected` is emitted once to all if it existed; otherwise nothing happens |
| `Server.Handle` | server.js:12-61 | every handler keeps each record under its own id with a non-empty name |
| `Server.RunPreservesWellFormed` | server.js:18-21 | any sequence of handler runs keeps `players[k].id == k` (and non-empty names) for every key |
| `Server.RejoinOverwrites` | server.js:18-24 | a second `joinRoom` on the same socket, even after moving, gives the same outcome as a first join: record replaced, position reset to (400, 300) |
| `Server.JoinThenLeave` | server.js:54-60 | joining and then disconnecting restores the dictionary and emits one departure |
| `Server.LeaveIdempotent` | server.js:56-59 | a repeated `disconnect` is a no-op with no emission |
| `Server.HandleDepartures` | server.js:56-59 | one handler run announces a socket's departure at most once, and only if the socket had a record |
| `Server.DeparturesBounded` | server.js:54-60 | over any run, a socket's departure is announced at most once per record it held (once for a record present at the start, once per `joinRoom`) |
| `Server.Registry.constructor` | server.js:10 | the dictionary starts empty |
| `Server.Registry.JoinRoom` | server.js:16-31 | the in-place update and emissions equal `Join`'s and keep the invariant |
| `Server.Registry.PlayerMovement` | server.js:34-41 | the in-place update and emissions equal `Move`'s and keep the invariant |
| `Server.Registry.ChatMessage` | server.js:44-51 | emits what `Chat` emits and changes nothing |
| `Server.Registry.Disconnect` | server.js:54-60 | the deletion and emission equal `Leave`'s and keep the invariant |
| `Layout.Centre` | public/game.js:68-69 | the point (c·100 + 50, r·75 + 37.5) lies strictly inside tile (r, c) |
| `Layout.CentreUnderItsTile` | public/game.js:68-69 | the tile under a tile's centre is that tile, so distinct tiles have distinct centres |
| `Layout.RowChairsExact` | public/game.js:67-80 | a row contributes exactly its tiles with code 3, in increasing column order |
| `Layout.ChairTilesExact` | public/game.js:66-82 | the scan yields exactly the tiles with code 3, each once, in row-major order; no other code makes a chair |
| `Layout.RoomMapChairs` | public/game.js:51-82 | the given room has exactly two chairs: chair 1 at tile (4, 1) centred at (150, 337.5), chair 2 at (4, 5) centred at (550, 337.5) |
| `Client.AlphaFor` | public/game.js:141 | the opacity is 0.5 exactly when occupied and 1.0 exactly when free |
| `Client.LastEligible` | public/game.js:189-193 | the offered chair is within distance 50 and unoccupied, no later chair in group order is, and none is offered exactly when no chair qualifies |
| `Client.Arrows` | public/game.js:180-185 | x changes by −4 if left is down, else +4 if right is down, else 0; y likewise with up over down; `moved` holds exactly when the position changed |
| `Client.FrameKeepsConsistent` | public/game.js:179-202 | every frame keeps "sitting exactly when a chair is recorded", and one only sits on a chair of the group |
| `Client.SeatedIgnoresArrows` | public/game.js:199-202 | while sitting, arrow keys have no effect and x never changes; without E nothing is sent and only the stand prompt shows |
| `Client.WalkingReportsMoveIffMoved` | public/game.js:180-197 | a walking frame that does not sit down (with or without E pressed) sends one `playerMovement`, with the new position, exactly when the player moved, and nothing else |
| `Client.WalkingReportsMoveFirst` | public/game.js:180-197 | every walking frame, including one that sits down, starts with a `playerMovement` to the arrow-moved position exactly when the arrows moved the player |
| `Client.SitsOnOfferedChair` | public/game.js:189-198 | sitting happens only on the offered chair, at the position reached this frame; the player snaps onto it and the frame ends with `interact{chairId, sit}` then `playerMovement` to the chair |
| `Client.SitThenStand` | public/game.js:232-238 | standing up after sitting leaves the player walking, chairless, 40 pixels below the chair, after sending `interact{stand}` then `playerMovement` |
| `Client.OfferedChairNotNearest` | public/game.js:189-193 | the offered chair need not be the nearest: with two free chairs in range, the later one is offered |
| `Client.Chair.constructor` | public/game.js:78 | a new chair carries its id and position, is not occupied and is fully opaque |
| `Client.LoadMap` | public/game.js:64-82 | the loader creates one fresh chair per chair tile in scan order, chair i with id i + 1 at the centre of its tile, free and opaque |
| `Client.Scene.constructor` | public/game.js:62-87 | `create` loads the chairs and starts in the walking state with no chair and no player yet |
| `Client.Scene.AddPlayer` | public/game.js:206-213 | the player's container appears at the position the server sent; state and chair unchanged |
| `Client.Scene.ChairUpdate` | public/game.js:137-144 | only the chair whose id equals the parsed `chairId` changes: its flag becomes `occupied` and its opacity follows; all others keep flag and opacity |
| `Client.Scene.ClosestFree` | public/game.js:189-193 | the forward scan with an overwritten `closest` returns the chair `LastEligible` names, or null |
| `Client.Scene.SitDown` | public/game.js:224-230 | state becomes sitting, the chair is recorded, the position snaps to the chair, and `interact{chairId, sit}` then `playerMovement` are sent |
| `Client.Scene.StandUp` | public/game.js:232-238 | state becomes walking, x is kept, y grows by 40, `interact{stand}` then `playerMovement` with the new position are sent, the chair is forgotten |
| `Client.Scene.MoveByArrows` | public/game.js:180-185 | the position moves as `Arrows` says |
| `Client.Scene.Walk` | public/game.js:179-198 | the walking branch leaves exactly the state, messages and prompt that `Frame` gives |
| `Client.Scene.Sit` | public/game.js:199-202 | the sitting branch leaves exactly the state, messages and prompt that `Frame` gives |
| `Client.Scene.Update` | public/game.js:171-203 | before the player exists or while the keyboard is disabled nothing changes and the prompt is hidden; otherwise one frame behaves as `Frame` |

## Left out

- Express and socket.io plumbing (static files, `server.listen`, connection set-up, logging) is not modelled. Emissions are returned as audience-tagged events; which sockets are connected, and the delivery itself, are not modelled.
- The colour `Math.random() * 0xffffff` is a parameter of `JoinRoom`: randomness is outside the model.
- Join payloads: the name is modelled as a possibly missing string. A missing payload (`data` undefined, which makes `data.name` throw) and non-string names (numbers, `false`, `NaN`) are not modelled. A chat message is modelled as a string, and movement payloads as two numbers.
- JavaScript numbers are modelled as exact reals. Floating-point rounding of positions, and of the square root in `Phaser.Math.Distance.Between`, is not captured.
- `parseInt(data.chairId)` is modelled as an `Option<int>` argument of `ChairUpdate`, where `None` stands for `NaN`. The string parsing itself is not modelled. `data.occupied` is modelled as a boolean, so truthiness of other values is not captured.
- All Phaser rendering and asset code is not modelled: preload, images, sprites, tints, text, containers, display sizes, the other players' sprites and their handlers. The prompt is kept only as its kind and position.
- The arcade-physics collider between the player and the furniture is not modelled: it can push the player's container, and the model moves the player only by the arrow keys, `sitDown` and `standUp`.
- DOM handling is left out: the join screen, the chat log and the chat input. Focus/blur toggling of the keyboard is reduced to the `keyboardEnabled` argument of `Update`.
- `Client.Scene.AddPlayer` models only the position and existence effects of `addPlayer` from the `currentPlayers` handler; the sprite set-up is not modelled.
- The pending-press state of Phaser's `JustDown` is not modelled: `Keys.interact` is a free boolean per frame. In game.js an E press is consumed only when `JustDown` is read, which happens only while a chair is offered or while seated, so a press made while walking out of range can still sit on the first frame a chair is offered; the model covers such traces because `interact` is unconstrained, but it does not tie them to key history.
- Chair ids and positions are fixed fields: no code in game.js changes them after creation.
