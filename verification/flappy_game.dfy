/** The game objects of flappy_game.py: the bird, the pipes and their collision boxes. */
module FlappyGame {

  const SCREEN_WIDTH: int := 400
  const SCREEN_HEIGHT: int := 600
  const GRAVITY: real := 0.5
  const JUMP_STRENGTH: real := -8.0
  const PIPE_SPEED: int := 3
  const PIPE_GAP: int := 130
  const BIRD_RADIUS: int := 20
  const PIPE_WIDTH: int := 60
  /** The range `random.randint(100, SCREEN_HEIGHT - 100)` draws a gap centre from. */
  const GAP_LOW: int := 100
  const GAP_HIGH: int := SCREEN_HEIGHT - 100

  /** A pygame `Rect`: integer corner and size, covering [left, left+width) x [top, top+height). */
  datatype Rect = Rect(left: int, top: int, width: int, height: int)

  /** The point (px, py) lies in the half-open box of `r`. */
  predicate Contains(r: Rect, px: int, py: int)
  {
    r.left <= px < r.left + r.width && r.top <= py < r.top + r.height
  }

  /**
   * `Rect.colliderect`: boxes with an empty side never collide; otherwise
   * the two half-open boxes overlap in both directions.
   */
  predicate Overlaps(a: Rect, b: Rect)
  {
    && 0 < a.width && 0 < a.height && 0 < b.width && 0 < b.height
    && a.left < b.left + b.width && b.left < a.left + a.width
    && a.top < b.top + b.height && b.top < a.top + a.height
  }

  /** Two boxes collide exactly when some point lies in both. */
  lemma OverlapsIffCommonPoint(a: Rect, b: Rect)
    ensures Overlaps(a, b) <==> exists px, py :: Contains(a, px, py) && Contains(b, px, py)
  {
    if Overlaps(a, b) {
      var px := if a.left < b.left then b.left else a.left;
      var py := if a.top < b.top then b.top else a.top;
      assert Contains(a, px, py) && Contains(b, px, py);
    }
  }

  /** Collision does not depend on which box asks. */
  lemma OverlapsSymmetric(a: Rect, b: Rect)
    ensures Overlaps(a, b) == Overlaps(b, a)
  {
  }

  /** The conversion pygame applies to a float coordinate: truncation toward zero. */
  function Trunc(v: real): (r: int)
    ensures 0.0 <= v ==> 0 <= r && r as real <= v < r as real + 1.0
    ensures v < 0.0 ==> r <= 0 && r as real - 1.0 < v <= r as real
  {
    if 0.0 <= v then v.Floor else -((-v).Floor)
  }

  /** The position, size and velocity of a bird at one moment, as a value. */
  datatype BirdState = BirdState(x: int, y: real, radius: int, velocity: real)

  /** A bird: `x` never changes, `y` and `velocity` follow gravity and jumps. */
  class Bird {
    var x: int
    var y: real
    var radius: int
    var velocity: real

    /** The bird's current state. */
    function State(): BirdState
      reads this
    {
      BirdState(x, y, radius, velocity)
    }

    /** `Bird(x, y)`. */
    constructor (x0: int, y0: real)
      ensures x == x0 && y == y0 && radius == BIRD_RADIUS && velocity == 0.0
    {
      x, y, radius, velocity := x0, y0, BIRD_RADIUS, 0.0;
    }

    /** `jump`: the velocity becomes the jump strength whatever it was. */
    method Jump()
      modifies this
      ensures velocity == JUMP_STRENGTH
      ensures x == old(x) && y == old(y) && radius == old(radius)
    {
      velocity := JUMP_STRENGTH;
    }

    /** `update`: gravity first accelerates the bird, then the new velocity moves it. */
    method Update()
      modifies this
      ensures velocity == old(velocity) + GRAVITY
      ensures y == old(y) + velocity
      ensures (y, velocity) == Fall(old(y), old(velocity), 1)
      ensures x == old(x) && radius == old(radius)
    {
      velocity := velocity + GRAVITY;
      y := y + velocity;
    }

    /**
     * `get_rect`: a radius-by-radius box whose top-left corner is the bird's
     * position (not centred on it), with `y` truncated to an integer.
     */
    function GetRect(): (r: Rect)
      reads this
      ensures r.left == x && r.width == radius && r.height == radius
      ensures 0.0 <= y ==> r.top as real <= y < r.top as real + 1.0
    {
      Rect(x, Trunc(y), radius, radius)
    }
  }

  /** Height and velocity after `k` calls of `update` without a jump. */
  function Fall(y: real, velocity: real, k: nat): (real, real)
  {
    if k == 0 then (y, velocity)
    else
      var (y', v') := Fall(y, velocity, k - 1);
      (y' + (v' + GRAVITY), v' + GRAVITY)
  }

  /** After `k` gravity steps the velocity has grown by k/2 and the bird has moved by k*v + k(k+1)/4. */
  lemma {:induction false} FallClosedForm(y: real, velocity: real, k: nat)
    ensures Fall(y, velocity, k).1 == velocity + GRAVITY * k as real
    ensures Fall(y, velocity, k).0 == y + velocity * k as real + 0.25 * (k * (k + 1)) as real
  {
    if k > 0 {
      FallClosedForm(y, velocity, k - 1);
      assert (k * (k + 1)) as real == ((k - 1) * k) as real + 2.0 * k as real;
      assert Fall(y, velocity, k).0 == Fall(y, velocity, k - 1).0 + velocity + GRAVITY * k as real;
    }
  }

  /** Falling `j` steps and then `k` more is falling `j + k` steps, so `k` calls of `update` give `Fall(y, velocity, k)`. */
  lemma {:induction false} FallAfter(y: real, velocity: real, j: nat, k: nat)
    ensures Fall(Fall(y, velocity, j).0, Fall(y, velocity, j).1, k) == Fall(y, velocity, j + k)
  {
    if k > 0 {
      FallAfter(y, velocity, j, k - 1);
    }
  }

  /** The geometry of a pipe at one moment, as a value. */
  datatype PipeState = PipeState(x: int, width: int, gapCenter: int, gapSize: int)

  /** A pipe: a column of width 60 with a gap of 130 around `gapCenter`. */
  class Pipe {
    var x: int
    var width: int
    var gapCenter: int
    var gapSize: int

    /** The pipe's current geometry. */
    function State(): PipeState
      reads this
    {
      PipeState(x, width, gapCenter, gapSize)
    }

    /** Every pipe the game makes keeps these dimensions. */
    ghost predicate Valid()
      reads this
    {
      width == PIPE_WIDTH && gapSize == PIPE_GAP && GAP_LOW <= gapCenter <= GAP_HIGH
    }

    /** `Pipe(x)`, with `gapDraw` the value `random.randint(100, 500)` returns. */
    constructor (x0: int, gapDraw: int)
      requires GAP_LOW <= gapDraw <= GAP_HIGH
      ensures x == x0 && width == PIPE_WIDTH && gapCenter == gapDraw && gapSize == PIPE_GAP
      ensures Valid()
    {
      x, width, gapCenter, gapSize := x0, PIPE_WIDTH, gapDraw, PIPE_GAP;
    }

    /** `update`: the pipe scrolls left by the pipe speed; nothing else changes. */
    method Update()
      modifies this
      ensures x == old(x) - PIPE_SPEED
      ensures width == old(width) && gapCenter == old(gapCenter) && gapSize == old(gapSize)
    {
      x := x - PIPE_SPEED;
    }

    /** `off_screen`: the right edge has passed strictly left of the screen's left edge. */
    function OffScreen(): (r: bool)
      reads this
      ensures r <==> x + width < 0
    {
      x < -width
    }

    /** The upper column: from the top of the screen down to the gap. */
    function TopRect(): Rect
      reads this
    {
      Rect(x, 0, width, gapCenter - gapSize / 2)
    }

    /** The lower column: from the gap down, one screen height tall. */
    function BottomRect(): Rect
      reads this
    {
      Rect(x, gapCenter + gapSize / 2, width, SCREEN_HEIGHT)
    }

    /** `collides_with(bird_rect)`: the box meets the upper or the lower column. */
    function CollidesWith(box: Rect): bool
      reads this
    {
      Overlaps(box, TopRect()) || Overlaps(box, BottomRect())
    }
  }

  /** A pipe hits a box exactly when some point of the box lies in the upper or the lower column. */
  lemma CollidesIffCommonPoint(p: Pipe, box: Rect)
    ensures p.CollidesWith(box) <==>
              exists px, py :: Contains(box, px, py) && (Contains(p.TopRect(), px, py) || Contains(p.BottomRect(), px, py))
  {
    OverlapsIffCommonPoint(box, p.TopRect());
    OverlapsIffCommonPoint(box, p.BottomRect());
  }

  /**
   * A box on the screen that shares columns with a pipe collides with it
   * exactly when it does not fit inside the gap [gapCenter-65, gapCenter+65).
   */
  lemma CollidesOutsideGap(p: Pipe, box: Rect)
    requires p.Valid()
    requires 0 < box.width && 0 < box.height && 0 <= box.top <= SCREEN_HEIGHT
    ensures p.CollidesWith(box) <==>
              (box.left < p.x + p.width && p.x < box.left + box.width &&
               !(p.gapCenter - p.gapSize / 2 <= box.top && box.top + box.height <= p.gapCenter + p.gapSize / 2))
  {
  }

  /** A pipe that is off screen can no longer hit a box that starts on the screen. */
  lemma OffScreenHarmless(p: Pipe, box: Rect)
    requires p.OffScreen() && 0 <= box.left
    ensures !p.CollidesWith(box)
  {
  }

  /** With the gap centred at 300, a 20-by-20 box at height 250 passes in any column. */
  lemma GapExample(p: Pipe, left: int)
    requires p.Valid() && p.gapCenter == 300
    ensures !p.CollidesWith(Rect(left, 250, BIRD_RADIUS, BIRD_RADIUS))
  {
    CollidesOutsideGap(p, Rect(left, 250, BIRD_RADIUS, BIRD_RADIUS));
  }
}
