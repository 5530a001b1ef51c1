/**
 * The App component of src/App.jsx as an object: its React state becomes
 * fields, the socket handlers and input handlers become methods that update
 * them, every `socket.emit` is appended to `outbox`, one frame of the motion
 * loop is `Frame`, and one frame of the renderer is `Render`, which returns
 * the coordinates it would draw.
 */
module Client {
  import opened Opt
  import opened Text
  import opened Input
  import opened Motion
  import opened Camera

  /** A player record as the server sends it. */
  datatype Player = Player(name: string, color: string, x: real, y: real, radius: real, score: int)

  /** A food item as the server sends it. */
  datatype Food = Food(x: real, y: real, radius: real, color: string)

  /** Messages the client emits to the server. */
  datatype Message = Join(name: string, color: string) | Move(x: real, y: real)

  /** A filled circle: its screen centre, radius and colour. */
  datatype Disc = Disc(center: Vec, radius: real, color: string)

  /** A player as drawn: its circle and its name label. */
  datatype Sprite = Sprite(disc: Disc, caption: string, captionAt: Vec)

  /** What one render frame draws: grid columns and rows (screen coordinates), food, players. */
  datatype Scene = Scene(columns: seq<real>, rows: seq<real>, food: seq<Disc>, players: seq<Sprite>)

  /** Every field of the component, for stating what a handler leaves alone. */
  datatype AppState = AppState(
    connected: bool, joined: bool, name: string, color: string, me: Option<Player>,
    users: seq<Player>, foods: seq<Food>, outbox: seq<Message>, last: real)

  function PlayerPos(p: Player): Vec { Vec(p.x, p.y) }

  function FoodDisc(f: Food, o: Vec): Disc {
    Disc(ToScreen(Vec(f.x, f.y), o), f.radius, f.color)
  }

  function PlayerSprite(u: Player, o: Vec): Sprite {
    Sprite(Disc(ToScreen(PlayerPos(u), o), u.radius, u.color), u.name, LabelAnchor(PlayerPos(u), u.radius, o))
  }

  /**
   * `scene` is what the renderer draws for the camera centred on `me`: the
   * grid of each axis, one disc per food item and one labelled disc per
   * player, each at its world position minus the camera offset.
   */
  predicate Depicts(scene: Scene, me: Player, users: seq<Player>, foods: seq<Food>, width: nat, height: nat)
    ensures Depicts(scene, me, users, foods, width, height) ==>
      |scene.players| == |users| && forall i :: 0 <= i < |users| ==>
        && scene.players[i].caption == users[i].name
        && scene.players[i].disc.center.x - width as real / 2.0 == users[i].x - me.x
        && scene.players[i].disc.center.y - height as real / 2.0 == users[i].y - me.y
    ensures Depicts(scene, me, users, foods, width, height) ==>
      |scene.food| == |foods| && forall i :: 0 <= i < |foods| ==>
        && scene.food[i].center.x - width as real / 2.0 == foods[i].x - me.x
        && scene.food[i].center.y - height as real / 2.0 == foods[i].y - me.y
  {
    var o := Offset(PlayerPos(me), width, height);
    && IsGrid(scene.columns, o.x, width)
    && IsGrid(scene.rows, o.y, height)
    && |scene.food| == |foods|
    && (forall i :: 0 <= i < |foods| ==> scene.food[i] == FoodDisc(foods[i], o))
    && |scene.players| == |users|
    && (forall i :: 0 <= i < |users| ==> scene.players[i] == PlayerSprite(users[i], o))
  }

  /**
   * The message `handleJoin` sends for a given name and colour: none for a
   * blank name, otherwise a join carrying the name exactly as typed.
   */
  function JoinRequest(name: string, color: string): (m: Option<Message>)
    ensures m.None? <==> AllSpace(name)
    ensures m.Some? ==> m.value.Join? && m.value.name == name && m.value.color == color
  {
    if IsBlank(name) then None else Some(Join(name, color))
  }

  /** Unlike the nickname dialog, `handleJoin` does not trim: a name typed with a leading space is sent with it. */
  lemma JoinKeepsSurroundingSpace(name: string, color: string)
    requires !AllSpace(name) && IsSpace(name[0])
    ensures JoinRequest(name, color).Some? && JoinRequest(name, color).value.name != Trim(name)
  {
    assert Trim(name) != [];
  }

  class App {
    var connected: bool
    var joined: bool
    var name: string
    var color: string
    var me: Option<Player>
    var users: seq<Player>
    var foods: seq<Food>
    /** Every `socket.emit` so far, oldest first. */
    var outbox: seq<Message>
    /** The motion loop's `last` timestamp, in milliseconds. */
    var last: real

    function State(): AppState
      reads this
    {
      AppState(connected, joined, name, color, me, users, foods, outbox, last)
    }

    /** The initial state; the random initial colour is passed in. */
    constructor (initialColor: string)
      ensures State() == AppState(false, false, "", initialColor, None, [], [], [], 0.0)
    {
      connected, joined, name, color := false, false, "", initialColor;
      me, users, foods, outbox, last := None, [], [], [], 0.0;
    }

    /** The `connect` event. */
    method OnConnect()
      modifies this
      ensures State() == old(State()).(connected := true)
    {
      connected := true;
    }

    /** The `disconnect` event: only the flag changes, a running game view is untouched. */
    method OnDisconnect()
      modifies this
      ensures State() == old(State()).(connected := false)
    {
      connected := false;
    }

    /** The `joined` event carries the server's record of the local player. */
    method OnJoined(player: Player)
      modifies this
      ensures State() == old(State()).(me := Some(player), joined := true)
    {
      me := Some(player);
      joined := true;
    }

    /** The `stateUpdate` event replaces players and food wholesale, nothing merged. */
    method OnStateUpdate(newUsers: seq<Player>, newFoods: seq<Food>)
      modifies this
      ensures State() == old(State()).(users := newUsers, foods := newFoods)
    {
      users := newUsers;
      foods := newFoods;
    }

    /** Typing in the name field. */
    method SetName(value: string)
      modifies this
      ensures State() == old(State()).(name := value)
    {
      name := value;
    }

    /** Picking a colour in the colour input. */
    method SetColor(value: string)
      modifies this
      ensures State() == old(State()).(color := value)
    {
      color := value;
    }

    /** `handleJoin`: a blank name sends nothing; otherwise `join` goes out with the untrimmed name. */
    method HandleJoin()
      modifies this
      ensures JoinRequest(name, color).None? ==> State() == old(State())
      ensures JoinRequest(name, color).Some? ==>
        State() == old(State()).(outbox := old(outbox) + [JoinRequest(name, color).value])
    {
      if IsBlank(name) {
        return;
      }
      outbox := outbox + [Join(name, color)];
    }

    /** Installing the motion loop: `last = performance.now()`, only once the player has joined. */
    method StartMotion(now: real)
      modifies this
      ensures me.Some? && joined ==> State() == old(State()).(last := now)
      ensures !(me.Some? && joined) ==> State() == old(State())
    {
      if me.None? || !joined {
        return;
      }
      last := now;
    }

    /**
     * One call of `loop(t)`: elapsed seconds since `last`, the axis signal of
     * the held keys, and, when it is not zero, the normalised step written to
     * `me` and sent as `move` with exactly the new position.
     */
    method Frame(keys: KeySet, t: real, root2: real)
      requires IsRoot2(root2)
      modifies this
      ensures !(old(me).Some? && old(joined)) ==> State() == old(State())
      ensures old(me).Some? && old(joined) ==>
        var p := old(me).value;
        var step := FrameStep(PlayerPos(p), keys.held, (t - old(last)) / 1000.0, root2);
        if step.None? then
          State() == old(State()).(last := t)
        else
          State() == old(State()).(
            last := t,
            me := Some(p.(x := step.value.x, y := step.value.y)),
            outbox := old(outbox) + [Move(step.value.x, step.value.y)])
    {
      if me.None? || !joined {
        return;
      }
      var dt := (t - last) / 1000.0;
      last := t;
      var dx, dy := AxisSignal(keys.held);
      if dx != 0 || dy != 0 {
        var u := Normalise(dx, dy, root2);
        var next := Advance(PlayerPos(me.value), u, dt);
        me := Some(me.value.(x := next.x, y := next.y));
        outbox := outbox + [Move(next.x, next.y)];
      }
    }

    /**
     * One call of `render`: nothing without a local player; otherwise the
     * grid for the camera centred on `me`, one disc per food item and one
     * labelled disc per player of the last snapshot, in snapshot order.
     */
    method Render(width: nat, height: nat) returns (scene: Option<Scene>)
      ensures me.None? <==> scene.None?
      ensures me.Some? ==> scene.Some? && Depicts(scene.value, me.value, users, foods, width, height)
    {
      if me.None? {
        return None;
      }
      var o := Offset(PlayerPos(me.value), width, height);
      var columns := GridLines(o.x, width);
      var rows := GridLines(o.y, height);
      var food: seq<Disc> := [];
      for i := 0 to |foods|
        invariant |food| == i
        invariant forall j :: 0 <= j < i ==> food[j] == FoodDisc(foods[j], o)
      {
        var f := foods[i];
        food := food + [Disc(ToScreen(Vec(f.x, f.y), o), f.radius, f.color)];
      }
      var players: seq<Sprite> := [];
      for i := 0 to |users|
        invariant |players| == i
        invariant forall j :: 0 <= j < i ==> players[j] == PlayerSprite(users[j], o)
      {
        var u := users[i];
        var at := ToScreen(PlayerPos(u), o);
        players := players + [Sprite(Disc(at, u.radius, u.color), u.name, Vec(at.x, at.y - u.radius - LabelGap))];
      }
      scene := Some(Scene(columns, rows, food, players));
    }
  }

  /** The camera keeps the local player at the centre of the viewport. */
  lemma PlayerDrawnAtCentre(me: Player, width: nat, height: nat)
    ensures PlayerSprite(me, Offset(PlayerPos(me), width, height)).disc.center
      == Vec(width as real / 2.0, height as real / 2.0)
  {
  }
}
