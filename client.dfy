/**
 * The walking/sitting logic of the browser client (public/game.js): the
 * chairs the map loader creates, the `chairUpdate` handler, one frame of the
 * `update` loop (arrow-key movement and the chair offered for sitting),
 * `sitDown` and `standUp`. Drawing, sprites, physics and the DOM are not part
 * of this model; the socket is represented by the messages each step returns.
 */
module Client {
  import opened Wrappers
  import opened Layout

  /** Pixels per frame of arrow-key movement (public/game.js:181). */
  const SPEED: real := 4.0

  /** A chair is offered when the player is closer than this (public/game.js:192). */
  const SIT_RANGE: real := 50.0

  /** Standing up moves the player this far down (public/game.js:234). */
  const STAND_OFFSET: real := 40.0

  /** The prompts hover above the chair or the seated player (public/game.js:196, 200). */
  const SIT_PROMPT_RISE: real := 40.0
  const STAND_PROMPT_RISE: real := 60.0

  /** Chair opacity when occupied and when free (public/game.js:141). */
  const OCCUPIED_ALPHA: real := 0.5
  const FREE_ALPHA: real := 1.0

  datatype PlayerState = Walking | Sitting

  /** The keys read in one frame; `interact` stands for `JustDown` of the E key, as a free per-frame flag. */
  datatype Keys = Keys(left: bool, right: bool, up: bool, down: bool, interact: bool)

  /** What the client sends on its socket: `interact` (sit or stand) and `playerMovement`. */
  datatype ClientMessage =
    | InteractSit(chairId: int)
    | InteractStand
    | PlayerMovement(x: real, y: real)

  /** The interaction prompt after a frame: hidden, "[E] SIT" or "[E] STAND" at a position. */
  datatype Prompt = Hidden | SitPrompt(x: real, y: real) | StandPrompt(x: real, y: real)

  /** The data a chair sprite carries: id, position, `occupied` flag and opacity. */
  datatype ChairView = ChairView(id: int, x: real, y: real, occupied: bool, alpha: real)

  /** The local player: state, the id of the chair it sits on, and position. */
  datatype Avatar = Avatar(state: PlayerState, chairId: Option<int>, x: real, y: real)

  /** The position after the arrow keys of one frame, and whether any of them moved it. */
  datatype Step = Step(x: real, y: real, moved: bool)

  /** What one frame leaves behind: the new player, the messages sent in order, the prompt. */
  datatype FrameResult = FrameResult(avatar: Avatar, sent: seq<ClientMessage>, prompt: Prompt)

  /** `setAlpha(occupied ? 0.5 : 1.0)`. */
  function AlphaFor(occupied: bool): (a: real)
    ensures a == OCCUPIED_ALPHA <==> occupied
    ensures a == FREE_ALPHA <==> !occupied
  {
    if occupied then OCCUPIED_ALPHA else FREE_ALPHA
  }

  /**
   * `Phaser.Math.Distance.Between(px, py, cx, cy) < 50`, stated without the
   * square root: the squared distance is below 50 squared.
   */
  predicate Near(cx: real, cy: real, px: real, py: real)
  {
    (cx - px) * (cx - px) + (cy - py) * (cy - py) < SIT_RANGE * SIT_RANGE
  }

  /** A chair that may be offered: near the player and not marked occupied. */
  predicate Eligible(c: ChairView, px: real, py: real)
  {
    Near(c.x, c.y, px, py) && !c.occupied
  }

  /**
   * The chair offered for sitting: the LAST chair in group order that is
   * eligible (the scan overwrites `closest` at every eligible chair), or none.
   */
  function LastEligible(cs: seq<ChairView>, px: real, py: real): (r: Option<nat>)
    ensures r.Some? ==> r.value < |cs| && Eligible(cs[r.value], px, py)
    ensures r.Some? ==> forall j :: r.value < j < |cs| ==> !Eligible(cs[j], px, py)
    ensures r.None? <==> forall j :: 0 <= j < |cs| ==> !Eligible(cs[j], px, py)
    decreases |cs|
  {
    if cs == [] then None
    else if Eligible(cs[|cs| - 1], px, py) then Some(|cs| - 1)
    else LastEligible(cs[..|cs| - 1], px, py)
  }

  /**
   * Arrow-key movement of one walking frame: left wins over right and up wins
   * over down, each moving SPEED pixels; `moved` holds exactly when the
   * position changed.
   */
  function Arrows(x: real, y: real, keys: Keys): (s: Step)
    ensures s.x == x - SPEED <==> keys.left
    ensures s.x == x + SPEED <==> !keys.left && keys.right
    ensures s.x == x <==> !keys.left && !keys.right
    ensures s.y == y - SPEED <==> keys.up
    ensures s.y == y + SPEED <==> !keys.up && keys.down
    ensures s.y == y <==> !keys.up && !keys.down
    ensures s.moved <==> s.x != x || s.y != y
  {
    var nx := if keys.left then x - SPEED else if keys.right then x + SPEED else x;
    var ny := if keys.up then y - SPEED else if keys.down then y + SPEED else y;
    Step(nx, ny, keys.left || keys.right || keys.up || keys.down)
  }

  /**
   * One frame of `update` for a joined player with the keyboard enabled:
   * walking moves by the arrows, reports the move, offers the last eligible
   * chair and sits on it when E was just pressed; sitting only offers to
   * stand and stands up when E was just pressed.
   */
  function Frame(a: Avatar, keys: Keys, cs: seq<ChairView>): FrameResult
  {
    match a.state
    case Walking =>
      var step := Arrows(a.x, a.y, keys);
      var moves := if step.moved then [PlayerMovement(step.x, step.y)] else [];
      var walked := a.(x := step.x, y := step.y);
      (match LastEligible(cs, step.x, step.y)
       case None => FrameResult(walked, moves, Hidden)
       case Some(i) =>
         var c := cs[i];
         var prompt := SitPrompt(c.x, c.y - SIT_PROMPT_RISE);
         if keys.interact then
           FrameResult(Avatar(Sitting, Some(c.id), c.x, c.y),
                       moves + [InteractSit(c.id), PlayerMovement(c.x, c.y)], prompt)
         else
           FrameResult(walked, moves, prompt))
    case Sitting =>
      var prompt := StandPrompt(a.x, a.y - STAND_PROMPT_RISE);
      if keys.interact then
        FrameResult(Avatar(Walking, None, a.x, a.y + STAND_OFFSET),
                    [InteractStand, PlayerMovement(a.x, a.y + STAND_OFFSET)], prompt)
      else
        FrameResult(a, [], prompt)
  }

  /** The state and the current chair agree: sitting exactly when a chair is recorded. */
  predicate Consistent(a: Avatar)
  {
    a.state == Sitting <==> a.chairId.Some?
  }

  /** Every frame keeps the state and the recorded chair in agreement, and one only sits on a listed chair. */
  lemma FrameKeepsConsistent(a: Avatar, keys: Keys, cs: seq<ChairView>)
    requires Consistent(a)
    ensures Consistent(Frame(a, keys, cs).avatar)
    ensures a.state == Walking && Frame(a, keys, cs).avatar.state == Sitting ==>
      exists i :: 0 <= i < |cs| && Frame(a, keys, cs).avatar.chairId == Some(cs[i].id)
  {
  }

  /** While seated, the arrow keys do nothing: the frame depends on E alone and never changes x. */
  lemma SeatedIgnoresArrows(a: Avatar, keys: Keys, cs: seq<ChairView>)
    requires a.state == Sitting
    ensures Frame(a, keys, cs) == Frame(a, Keys(false, false, false, false, keys.interact), cs)
    ensures Frame(a, keys, cs).avatar.x == a.x
    ensures !keys.interact ==> Frame(a, keys, cs) == FrameResult(a, [], StandPrompt(a.x, a.y - STAND_PROMPT_RISE))
  {
  }

  /** A walking frame that does not sit down sends a `playerMovement` exactly when the position changed. */
  lemma WalkingReportsMoveIffMoved(a: Avatar, keys: Keys, cs: seq<ChairView>)
    requires a.state == Walking && Frame(a, keys, cs).avatar.state == Walking
    ensures var r := Frame(a, keys, cs);
      && (r.sent != [] <==> (r.avatar.x, r.avatar.y) != (a.x, a.y))
      && (r.sent != [] ==> r.sent == [PlayerMovement(r.avatar.x, r.avatar.y)])
  {
  }

  /**
   * Every walking frame, whether or not it sits down, opens with a
   * `playerMovement` to the arrow-moved position exactly when the arrows moved
   * the player: the movement report precedes the chair scan.
   */
  lemma WalkingReportsMoveFirst(a: Avatar, keys: Keys, cs: seq<ChairView>)
    requires a.state == Walking
    ensures var step := Arrows(a.x, a.y, keys);
      var r := Frame(a, keys, cs);
      (r.sent != [] && r.sent[0] == PlayerMovement(step.x, step.y)) <==> step.moved
  {
  }

  /**
   * Sitting only happens on the offered chair: the last eligible one at the
   * position reached this frame; it snaps the player onto it and sends
   * `interact{chairId, 'sit'}` followed by `playerMovement` to the chair.
   */
  lemma SitsOnOfferedChair(a: Avatar, keys: Keys, cs: seq<ChairView>)
    requires a.state == Walking
    requires Frame(a, keys, cs).avatar.state == Sitting
    ensures var step := Arrows(a.x, a.y, keys);
      && LastEligible(cs, step.x, step.y).Some?
      && var c := cs[LastEligible(cs, step.x, step.y).value];
      && Eligible(c, step.x, step.y)
      && Frame(a, keys, cs).avatar == Avatar(Sitting, Some(c.id), c.x, c.y)
      && Frame(a, keys, cs).sent[|Frame(a, keys, cs).sent| - 2..]
         == [InteractSit(c.id), PlayerMovement(c.x, c.y)]
  {
  }

  /**
   * Sitting down on a chair and standing up on the next frame leaves the
   * player walking, with no chair, 40 pixels below the chair.
   */
  lemma SitThenStand(a: Avatar, keys: Keys, cs: seq<ChairView>, next: Keys)
    requires a.state == Walking
    requires Frame(a, keys, cs).avatar.state == Sitting && next.interact
    ensures var sat := Frame(a, keys, cs).avatar;
      Frame(sat, next, cs)
      == FrameResult(Avatar(Walking, None, sat.x, sat.y + STAND_OFFSET),
                     [InteractStand, PlayerMovement(sat.x, sat.y + STAND_OFFSET)],
                     StandPrompt(sat.x, sat.y - STAND_PROMPT_RISE))
  {
  }

  /** The chair offered is not necessarily the nearest one: here the first chair is nearer, yet the second is offered. */
  lemma OfferedChairNotNearest()
    ensures var cs := [ChairView(1, 150.0, 337.5, false, FREE_ALPHA), ChairView(2, 190.0, 337.5, false, FREE_ALPHA)];
      && LastEligible(cs, 150.0, 337.5) == Some(1)
      && Eligible(cs[0], 150.0, 337.5)
  {
  }

  /** A chair sprite: id and position fixed at creation, `occupied` data and opacity updated in place. */
  class Chair {
    const id: int
    const x: real
    const y: real
    var occupied: bool
    var alpha: real

    constructor (id: int, x: real, y: real)
      ensures this.id == id && this.x == x && this.y == y
      ensures !occupied && alpha == FREE_ALPHA
    {
      this.id := id;
      this.x := x;
      this.y := y;
      occupied := false;
      alpha := FREE_ALPHA;
    }

    function View(): ChairView
      reads this
    {
      ChairView(id, x, y, occupied, alpha)
    }
  }

  /** Chairs as data, in group order. */
  ghost function Views(chairs: seq<Chair>): (cs: seq<ChairView>)
    reads chairs
    ensures |cs| == |chairs|
    ensures forall i :: 0 <= i < |chairs| ==> cs[i] == chairs[i].View()
  {
    seq(|chairs|, i reads chairs requires 0 <= i < |chairs| => chairs[i].View())
  }

  /**
   * The chairs the loader created for the tiles `tiles`: chair i has id i + 1,
   * stands at the centre of tile i, is free and fully opaque.
   */
  ghost predicate Loaded(chairs: seq<Chair>, tiles: seq<Tile>)
    reads chairs
  {
    && |chairs| == |tiles|
    && forall i :: 0 <= i < |chairs| ==>
      && chairs[i].id == i + 1
      && chairs[i].x == Centre(tiles[i]).x && chairs[i].y == Centre(tiles[i]).y
      && !chairs[i].occupied && chairs[i].alpha == FREE_ALPHA
  }

  /**
   * The map loader: scan the grid row by row, and create one chair per tile
   * holding code CHAIR, numbered 1, 2, ... in scan order at the tile's centre.
   */
  method LoadMap(roomMap: seq<seq<int>>) returns (chairs: seq<Chair>)
    ensures Loaded(chairs, AllChairTiles(roomMap))
    ensures forall i :: 0 <= i < |chairs| ==> fresh(chairs[i])
  {
    chairs := [];
    var chairCount := 0;
    for r := 0 to |roomMap|
      invariant Loaded(chairs, ChairTiles(roomMap, r)) && chairCount == |chairs|
      invariant forall i :: 0 <= i < |chairs| ==> fresh(chairs[i])
    {
      var row := roomMap[r];
      for c := 0 to |row|
        invariant Loaded(chairs, ChairTiles(roomMap, r) + RowChairs(row, r, c)) && chairCount == |chairs|
        invariant forall i :: 0 <= i < |chairs| ==> fresh(chairs[i])
      {
        var centre := Centre(Tile(r, c));
        if row[c] == CHAIR {
          chairCount := chairCount + 1;
          var chair := new Chair(chairCount, centre.x, centre.y);
          chairs := chairs + [chair];
        }
      }
    }
  }

  /** The client's scene: the chair group and the local player. */
  class Scene {
    var chairs: seq<Chair>
    var playerState: PlayerState
    var currentChair: Chair?
    /** Whether the player's own container exists yet (after `currentPlayers`). */
    var present: bool
    var x: real
    var y: real

    ghost predicate Valid()
      reads this, chairs
    {
      && (forall i :: 0 <= i < |chairs| ==> chairs[i].id == i + 1)
      && (forall i :: 0 <= i < |chairs| ==> chairs[i].alpha == AlphaFor(chairs[i].occupied))
      && (playerState == Sitting <==> currentChair != null)
      && (currentChair != null ==> currentChair in chairs)
    }

    /** The local player as data. */
    ghost function Me(): Avatar
      reads this
    {
      Avatar(playerState, if currentChair == null then None else Some(currentChair.id), x, y)
    }

    /** `create`: load the map and start walking, before the player has joined. */
    constructor (roomMap: seq<seq<int>>)
      ensures Valid() && Loaded(chairs, AllChairTiles(roomMap))
      ensures playerState == Walking && currentChair == null && !present
    {
      var loaded := LoadMap(roomMap);
      chairs := loaded;
      playerState := Walking;
      currentChair := null;
      present := false;
      x, y := 0.0, 0.0;
    }

    /** The own entry of `currentPlayers`: the player's container appears at the server's position. */
    method AddPlayer(px: real, py: real)
      requires Valid()
      modifies this
      ensures Valid() && chairs == old(chairs)
      ensures present && x == px && y == py
      ensures playerState == old(playerState) && currentChair == old(currentChair)
    {
      present := true;
      x, y := px, py;
    }

    /**
     * `chairUpdate`: the chair whose id equals the parsed `chairId` (None
     * stands for `NaN`, which equals no id) takes the new `occupied` flag and
     * the matching opacity; every other chair is untouched.
     */
    method ChairUpdate(chairId: Option<int>, occupied: bool)
      requires Valid()
      modifies chairs
      ensures Valid()
      ensures forall i :: 0 <= i < |chairs| ==>
        if Some(chairs[i].id) == chairId
        then chairs[i].occupied == occupied && chairs[i].alpha == AlphaFor(occupied)
        else chairs[i].occupied == old(chairs[i].occupied) && chairs[i].alpha == old(chairs[i].alpha)
      ensures chairId.Some? && 1 <= chairId.value <= |chairs| ==> chairs[chairId.value - 1].occupied == occupied
    {
      for i := 0 to |chairs|
        invariant forall j :: 0 <= j < |chairs| ==> chairs[j].alpha == AlphaFor(chairs[j].occupied)
        invariant forall j :: 0 <= j < i ==>
          if Some(chairs[j].id) == chairId
          then chairs[j].occupied == occupied && chairs[j].alpha == AlphaFor(occupied)
          else chairs[j].occupied == old(chairs[j].occupied) && chairs[j].alpha == old(chairs[j].alpha)
        invariant forall j :: i <= j < |chairs| ==>
          chairs[j].occupied == old(chairs[j].occupied) && chairs[j].alpha == old(chairs[j].alpha)
      {
        var c := chairs[i];
        if Some(c.id) == chairId {
          c.occupied := occupied;
          c.alpha := AlphaFor(occupied);
        }
      }
    }

    /** The scan for the chair to offer: the last eligible chair in group order, or null. */
    method ClosestFree(px: real, py: real) returns (closest: Chair?)
      ensures match LastEligible(Views(chairs), px, py)
        case None => closest == null
        case Some(i) => i < |chairs| && closest == chairs[i]
    {
      closest := null;
      for i := 0 to |chairs|
        invariant match LastEligible(Views(chairs)[..i], px, py)
          case None => closest == null
          case Some(j) => j < i && closest == chairs[j]
      {
        var c := chairs[i];
        assert Views(chairs)[..i + 1][..i] == Views(chairs)[..i];
        if Near(c.x, c.y, px, py) && !c.occupied {
          closest := c;
        }
      }
      assert Views(chairs)[..|chairs|] == Views(chairs);
    }

    /** `sitDown`: sit on the chair, snap onto it, send `interact` (sit) then `playerMovement`. */
    method SitDown(chair: Chair) returns (sent: seq<ClientMessage>)
      requires Valid() && chair in chairs
      modifies this
      ensures Valid() && chairs == old(chairs) && present == old(present)
      ensures playerState == Sitting && currentChair == chair
      ensures x == chair.x && y == chair.y
      ensures sent == [InteractSit(chair.id), PlayerMovement(chair.x, chair.y)]
    {
      playerState := Sitting;
      currentChair := chair;
      x, y := chair.x, chair.y;
      sent := [InteractSit(chair.id)];
      sent := sent + [PlayerMovement(chair.x, chair.y)];
    }

    /** `standUp`: walk again 40 pixels lower, send `interact` (stand) then `playerMovement`, forget the chair. */
    method StandUp() returns (sent: seq<ClientMessage>)
      requires Valid()
      modifies this
      ensures Valid() && chairs == old(chairs) && present == old(present)
      ensures playerState == Walking && currentChair == null
      ensures x == old(x) && y == old(y) + STAND_OFFSET
      ensures sent == [InteractStand, PlayerMovement(x, y)]
    {
      playerState := Walking;
      y := y + STAND_OFFSET;
      sent := [InteractStand];
      sent := sent + [PlayerMovement(x, y)];
      currentChair := null;
    }

    /** The arrow-key part of a walking frame: move by the arrows, left over right and up over down. */
    method MoveByArrows(keys: Keys) returns (moved: bool)
      requires Valid()
      modifies this
      ensures Valid() && chairs == old(chairs) && present == old(present)
      ensures playerState == old(playerState) && currentChair == old(currentChair)
      ensures Step(x, y, moved) == Arrows(old(x), old(y), keys)
    {
      moved := false;
      if keys.left {
        x := x - SPEED;
        moved := true;
      } else if keys.right {
        x := x + SPEED;
        moved := true;
      }
      if keys.up {
        y := y - SPEED;
        moved := true;
      } else if keys.down {
        y := y + SPEED;
        moved := true;
      }
    }

    /** The walking branch of `update`: arrows, the movement report, the chair scan and possibly `sitDown`. */
    method Walk(keys: Keys) returns (sent: seq<ClientMessage>, prompt: Prompt)
      requires Valid() && playerState == Walking
      modifies this
      ensures Valid() && chairs == old(chairs) && present == old(present)
      ensures FrameResult(Me(), sent, prompt) == Frame(old(Me()), keys, Views(chairs))
    {
      ghost var before := Me();
      ghost var cs := Views(chairs);
      sent, prompt := [], Hidden;
      var moved := MoveByArrows(keys);
      ghost var step := Arrows(before.x, before.y, keys);
      assert Me() == before.(x := step.x, y := step.y);
      if moved {
        sent := sent + [PlayerMovement(x, y)];
      }
      assert Views(chairs) == cs;
      var closest := ClosestFree(x, y);
      if closest != null {
        ghost var i := LastEligible(cs, x, y).value;
        assert closest.View() == cs[i];
        prompt := SitPrompt(closest.x, closest.y - SIT_PROMPT_RISE);
        if keys.interact {
          var sat := SitDown(closest);
          sent := sent + sat;
          assert Me() == Avatar(Sitting, Some(cs[i].id), cs[i].x, cs[i].y);
        }
      }
    }

    /** The sitting branch of `update`: offer to stand and, on E, `standUp`. */
    method Sit(keys: Keys) returns (sent: seq<ClientMessage>, prompt: Prompt)
      requires Valid() && playerState == Sitting
      modifies this
      ensures Valid() && chairs == old(chairs) && present == old(present)
      ensures FrameResult(Me(), sent, prompt) == Frame(old(Me()), keys, Views(chairs))
    {
      sent := [];
      prompt := StandPrompt(x, y - STAND_PROMPT_RISE);
      if keys.interact {
        var stood := StandUp();
        sent := sent + stood;
      }
    }

    /**
     * One call of `update`. Before the player exists, or while the keyboard is
     * disabled (a text field has focus), the prompt is hidden and nothing
     * else happens; otherwise the frame is the one Frame describes.
     */
    method Update(keyboardEnabled: bool, keys: Keys) returns (sent: seq<ClientMessage>, prompt: Prompt)
      requires Valid()
      modifies this
      ensures Valid() && chairs == old(chairs) && present == old(present)
      ensures FrameResult(Me(), sent, prompt)
              == if old(present) && keyboardEnabled then Frame(old(Me()), keys, Views(chairs))
                 else FrameResult(old(Me()), [], Hidden)
    {
      if !present || !keyboardEnabled {
        sent, prompt := [], Hidden;
      } else if playerState == Walking {
        sent, prompt := Walk(keys);
      } else {
        sent, prompt := Sit(keys);
      }
    }
  }
}
