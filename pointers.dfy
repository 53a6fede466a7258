/**
 * The pointer records of the fluid simulation (`pointerPrototype`) and the
 * three updates the mouse handlers make to them.
 */
module Pointers {
  import opened Options
  import opened Colors
  import opened Aspect

  /**
   * The fields of one pointer record. The prototype's colour is the array
   * literal [30, 0, 300], which has no r/g/b fields; it is `None` here and
   * becomes `Some` on the first pointer-down.
   */
  datatype PointerState = PointerState(
    id: int,
    texcoordX: real, texcoordY: real,
    prevTexcoordX: real, prevTexcoordY: real,
    deltaX: real, deltaY: real,
    down: bool, moved: bool,
    color: Option<Rgb>)

  /** `new pointerPrototype()`. */
  const Prototype: PointerState := PointerState(-1, 0.0, 0.0, 0.0, 0.0, 0.0, 0.0, false, false, None)

  /** A pointer that is down or has an unconsumed move has been given a colour. */
  predicate Colored(s: PointerState) {
    (s.down || s.moved) ==> s.color.Some?
  }

  /**
   * updatePointerDownData: down and not moved, the position normalised with
   * y flipped, the previous position equal to it, zero deltas and a fresh
   * colour.
   */
  function Down(s: PointerState, id: int, posX: real, posY: real, canvasWidth: int, canvasHeight: int, color: Rgb): (r: PointerState)
    requires canvasWidth > 0 && canvasHeight > 0
    ensures r.id == id && r.down && !r.moved && r.color == Some(color)
    ensures r.texcoordX * canvasWidth as real == posX
    ensures (1.0 - r.texcoordY) * canvasHeight as real == posY
    ensures r.prevTexcoordX == r.texcoordX && r.prevTexcoordY == r.texcoordY
    ensures r.deltaX == 0.0 && r.deltaY == 0.0
    ensures Colored(r)
  {
    var x := posX / canvasWidth as real;
    var y := 1.0 - posY / canvasHeight as real;
    s.(id := id, down := true, moved := false, texcoordX := x, texcoordY := y,
       prevTexcoordX := x, prevTexcoordY := y, deltaX := 0.0, deltaY := 0.0, color := Some(color))
  }

  /**
   * updatePointerMoveData: the old position becomes the previous one, the
   * deltas are the aspect-corrected differences, and the pointer counts as
   * moved iff a delta is nonzero.
   */
  function Move(s: PointerState, posX: real, posY: real, canvasWidth: int, canvasHeight: int): (r: PointerState)
    requires canvasWidth > 0 && canvasHeight > 0
    ensures r.prevTexcoordX == s.texcoordX && r.prevTexcoordY == s.texcoordY
    ensures r.texcoordX * canvasWidth as real == posX
    ensures (1.0 - r.texcoordY) * canvasHeight as real == posY
    ensures r.deltaX == CorrectDeltaX(r.texcoordX - s.texcoordX, canvasWidth, canvasHeight)
    ensures r.deltaY == CorrectDeltaY(r.texcoordY - s.texcoordY, canvasWidth, canvasHeight)
    ensures r.moved <==> (r.deltaX != 0.0 || r.deltaY != 0.0)
    ensures r.id == s.id && r.down == s.down && r.color == s.color
  {
    var x := posX / canvasWidth as real;
    var y := 1.0 - posY / canvasHeight as real;
    var dx := CorrectDeltaX(x - s.texcoordX, canvasWidth, canvasHeight);
    var dy := CorrectDeltaY(y - s.texcoordY, canvasWidth, canvasHeight);
    s.(prevTexcoordX := s.texcoordX, prevTexcoordY := s.texcoordY, texcoordX := x, texcoordY := y,
       deltaX := dx, deltaY := dy, moved := Abs(dx) > 0.0 || Abs(dy) > 0.0)
  }

  /** updatePointerUpData: only `down` changes. */
  function Up(s: PointerState): (r: PointerState)
    ensures !r.down && r.(down := s.down) == s
  {
    s.(down := false)
  }

  /** A move counts as moved exactly when the normalised position changed. */
  lemma MovedIffPositionChanged(s: PointerState, posX: real, posY: real, canvasWidth: int, canvasHeight: int)
    requires canvasWidth > 0 && canvasHeight > 0
    ensures var r := Move(s, posX, posY, canvasWidth, canvasHeight);
            r.moved <==> (r.texcoordX != s.texcoordX || r.texcoordY != s.texcoordY)
  {
    var r := Move(s, posX, posY, canvasWidth, canvasHeight);
    CorrectedDeltasShrink(r.texcoordX - s.texcoordX, r.texcoordY - s.texcoordY, canvasWidth, canvasHeight);
  }

  /** A move right after a pointer-down measures its delta from the pointer-down position. */
  lemma MoveAfterDown(s: PointerState, id: int, x0: real, y0: real, x1: real, y1: real, canvasWidth: int, canvasHeight: int, color: Rgb)
    requires canvasWidth > 0 && canvasHeight > 0
    ensures var d := Down(s, id, x0, y0, canvasWidth, canvasHeight, color);
            var m := Move(d, x1, y1, canvasWidth, canvasHeight);
            && m.prevTexcoordX == d.texcoordX && m.prevTexcoordY == d.texcoordY
            && (m.moved <==> (x1 != x0 || y1 != y0))
  {
    var d := Down(s, id, x0, y0, canvasWidth, canvasHeight, color);
    MovedIffPositionChanged(d, x1, y1, canvasWidth, canvasHeight);
    DivideInjective(x1, x0, canvasWidth as real);
    DivideInjective(y1, y0, canvasHeight as real);
  }

  /** Dividing by the same positive number keeps numbers apart. */
  lemma DivideInjective(a: real, b: real, w: real)
    requires w > 0.0
    ensures a / w == b / w <==> a == b
  {
    if a / w == b / w {
      assert a == (a / w) * w && b == (b / w) * w;
    }
  }

  /** Every update keeps a down or moved pointer coloured. */
  lemma UpdatesKeepColored(s: PointerState, posX: real, posY: real, canvasWidth: int, canvasHeight: int)
    requires canvasWidth > 0 && canvasHeight > 0 && Colored(s)
    ensures Colored(Up(s))
    ensures s.down ==> Colored(Move(s, posX, posY, canvasWidth, canvasHeight))
    ensures Colored(s.(moved := false))
  {
  }

  /** One pointer record, updated in place by the mouse handlers. */
  class Pointer {
    var id: int
    var texcoordX: real
    var texcoordY: real
    var prevTexcoordX: real
    var prevTexcoordY: real
    var deltaX: real
    var deltaY: real
    var down: bool
    var moved: bool
    var color: Option<Rgb>

    ghost function State(): PointerState
      reads this
    {
      PointerState(id, texcoordX, texcoordY, prevTexcoordX, prevTexcoordY, deltaX, deltaY, down, moved, color)
    }

    /** pointerPrototype. */
    constructor ()
      ensures State() == Prototype
    {
      id := -1;
      texcoordX, texcoordY := 0.0, 0.0;
      prevTexcoordX, prevTexcoordY := 0.0, 0.0;
      deltaX, deltaY := 0.0, 0.0;
      down, moved := false, false;
      color := None;
    }

    /** updatePointerDownData; the colour is the generateColor() value the caller computed. */
    method UpdateDown(pointerId: int, posX: real, posY: real, canvasWidth: int, canvasHeight: int, c: Rgb)
      requires canvasWidth > 0 && canvasHeight > 0
      modifies this
      ensures State() == Down(old(State()), pointerId, posX, posY, canvasWidth, canvasHeight, c)
    {
      id := pointerId;
      down := true;
      moved := false;
      texcoordX := posX / canvasWidth as real;
      texcoordY := 1.0 - posY / canvasHeight as real;
      prevTexcoordX := texcoordX;
      prevTexcoordY := texcoordY;
      deltaX := 0.0;
      deltaY := 0.0;
      color := Some(c);
    }

    /** updatePointerMoveData. */
    method UpdateMove(posX: real, posY: real, canvasWidth: int, canvasHeight: int)
      requires canvasWidth > 0 && canvasHeight > 0
      modifies this
      ensures State() == Move(old(State()), posX, posY, canvasWidth, canvasHeight)
    {
      prevTexcoordX := texcoordX;
      prevTexcoordY := texcoordY;
      texcoordX := posX / canvasWidth as real;
      texcoordY := 1.0 - posY / canvasHeight as real;
      deltaX := CorrectDeltaX(texcoordX - prevTexcoordX, canvasWidth, canvasHeight);
      deltaY := CorrectDeltaY(texcoordY - prevTexcoordY, canvasWidth, canvasHeight);
      moved := Abs(deltaX) > 0.0 || Abs(deltaY) > 0.0;
    }

    /** updatePointerUpData. */
    method UpdateUp()
      modifies this
      ensures State() == Up(old(State()))
    {
      down := false;
    }
  }
}
