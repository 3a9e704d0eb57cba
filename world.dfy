/** The static scenery: walls, which block movement and sight, and the door,
    which only toggles between closed and open (it is not one of the walls,
    so it blocks nothing). */
module World {
  import opened Geometry
  import opened Cone

  datatype Wall = Wall(rect: Rect) {

    /** Wall.is_visible: the wall's centre is within range and inside the
        rat's cone. No other wall is consulted: there is no occlusion.
        `bearing(dx, dy)` stands for `degrees(atan2(dy, dx))`. */
    function IsVisible(ratX: real, ratY: real, ratAngle: real, bearing: (real, real) -> real): (r: bool)
      ensures var dx, dy := rect.CenterX() as real - ratX, rect.CenterY() as real - ratY;
        r <==> InRange(dx, dy) && exists k :: WithinTurns(bearing(dx, dy), ratAngle, k)
    {
      var dx, dy := rect.CenterX() as real - ratX, rect.CenterY() as real - ratY;
      RangeAndCone(dx, dy, bearing(dx, dy), ratAngle)
    }
  }

  class Door {
    const rect: Rect
    var isOpen: bool

    /** A door starts closed. */
    constructor (x: int, y: int, width: int, height: int)
      ensures rect == Rect(x, y, width, height) && !isOpen
    {
      rect := Rect(x, y, width, height);
      isOpen := false;
    }

    method Toggle()
      modifies this
      ensures isOpen == !old(isOpen)
    {
      isOpen := !isOpen;
    }
  }

  /** The main loop's mouse-button handler: a click inside the door's
      rectangle toggles it; any other click leaves it alone. */
  method ClickDoor(door: Door, px: int, py: int)
    modifies door
    ensures door.isOpen == if CollidePoint(door.rect, px, py) then !old(door.isOpen) else old(door.isOpen)
  {
    if CollidePoint(door.rect, px, py) {
      door.Toggle();
    }
  }

  /** Toggling twice restores the door's state. */
  method ToggleTwiceRestores(door: Door)
    modifies door
    ensures door.isOpen == old(door.isOpen)
  {
    door.Toggle();
    door.Toggle();
  }
}
