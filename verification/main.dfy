/**
 * The training loop of main.py: all birds of a generation fly in one shared
 * world, each steered by its own network, and the scores they reach breed
 * the next generation.
 */
module Training {
  import opened Wrappers
  import opened NeuralNet
  import opened Genetic
  import opened FlappyGame

  const POP_SIZE: nat := 70
  const GENERATIONS: nat := 1000
  const INPUT_SIZE: nat := 5
  const HIDDEN_SIZE: nat := 6
  const OUTPUT_SIZE: nat := 1
  const ELITE_SIZE: nat := 5
  /** Every bird starts at (50, SCREEN_HEIGHT // 2). */
  const BIRD_X: int := 50
  const BIRD_Y: real := (SCREEN_HEIGHT / 2) as real
  /** A bird jumps when its network's first output exceeds this. */
  const THRESHOLD: real := 0.5

  /** No object occurs twice. */
  predicate Distinct<T(==)>(s: seq<T>)
  {
    forall i, j :: 0 <= i < j < |s| ==> s[i] != s[j]
  }

  /** Every pipe keeps the dimensions the game gives it. */
  ghost predicate PipesValid(pipes: seq<Pipe>)
    reads pipes
  {
    forall k :: 0 <= k < |pipes| ==> pipes[k].Valid()
  }

  /** The networks of a generation, all of the shape main.py builds. */
  ghost predicate Controllers(population: seq<NeuralNetwork>)
    reads population
  {
    forall k :: 0 <= k < |population| ==>
      population[k].Valid() && Shaped(population[k].Params(), INPUT_SIZE, HIDDEN_SIZE, OUTPUT_SIZE)
  }

  // ---------------------------------------------------------------------
  // Sensing
  // ---------------------------------------------------------------------

  /** The geometry of each pipe, in list order. */
  function Layout(pipes: seq<Pipe>): seq<PipeState>
    reads pipes
  {
    seq(|pipes|, k requires 0 <= k < |pipes| reads pipes => pipes[k].State())
  }

  /** The parameters of each network, in population order. */
  function Brains(population: seq<NeuralNetwork>): seq<Layers<real>>
    reads population
  {
    seq(|population|, i requires 0 <= i < |population| reads population => population[i].Params())
  }

  /** The state of each bird, in population order. */
  function Flock(birds: seq<Bird>): seq<BirdState>
    reads birds
  {
    seq(|birds|, i requires 0 <= i < |birds| reads birds => birds[i].State())
  }

  /** The index of the first pipe whose right edge is still right of `birdX`, or `|cols|` if none is. */
  function FirstAhead(cols: seq<PipeState>, birdX: int): (k: nat)
    ensures k <= |cols|
    ensures forall j :: 0 <= j < k ==> cols[j].x + cols[j].width <= birdX
    ensures k < |cols| ==> cols[k].x + cols[k].width > birdX
  {
    if |cols| == 0 then 0
    else if cols[0].x + cols[0].width > birdX then 0
    else 1 + FirstAhead(cols[1..], birdX)
  }

  /** `FirstAhead` is the only index with every pipe before it behind the bird and itself, if any, ahead. */
  lemma {:induction false} FirstAheadIs(cols: seq<PipeState>, birdX: int, k: nat)
    requires k <= |cols|
    requires forall j :: 0 <= j < k ==> cols[j].x + cols[j].width <= birdX
    requires k < |cols| ==> cols[k].x + cols[k].width > birdX
    ensures FirstAhead(cols, birdX) == k
  {
    if k > 0 {
      FirstAheadIs(cols[1..], birdX, k - 1);
    }
  }

  /** The search for `closest_pipe`: scan the pipes in list order and stop at the first one ahead. */
  method ClosestPipe(pipes: seq<Pipe>, birdX: int) returns (k: nat)
    ensures k <= |pipes|
    ensures forall j :: 0 <= j < k ==> pipes[j].x + pipes[j].width <= birdX
    ensures k < |pipes| ==> pipes[k].x + pipes[k].width > birdX
    ensures k == FirstAhead(Layout(pipes), birdX)
  {
    k := 0;
    while k < |pipes|
      invariant k <= |pipes|
      invariant forall j :: 0 <= j < k ==> pipes[j].x + pipes[j].width <= birdX
    {
      if pipes[k].x + pipes[k].width > birdX {
        FirstAheadIs(Layout(pipes), birdX, k);
        return;
      }
      k := k + 1;
    }
    FirstAheadIs(Layout(pipes), birdX, k);
  }

  /**
   * The five network inputs for a bird at (`birdX`, `birdY`) moving at
   * `velocity`, given the index `k` of its closest pipe: height, velocity,
   * the two gap edges and the distance to the pipe, each normalised.
   */
  function SensorsAt(birdX: int, birdY: real, velocity: real, cols: seq<PipeState>, k: nat): (inputs: seq<real>)
    requires k <= |cols|
    ensures |inputs| == INPUT_SIZE
  {
    var top, bottom, distance :=
      if k == |cols| then 0 else cols[k].gapCenter - cols[k].gapSize / 2,
      if k == |cols| then SCREEN_HEIGHT else cols[k].gapCenter + cols[k].gapSize / 2,
      if k == |cols| then SCREEN_WIDTH else cols[k].x - birdX;
    [birdY / SCREEN_HEIGHT as real, velocity / 10.0,
     top as real / SCREEN_HEIGHT as real, bottom as real / SCREEN_HEIGHT as real,
     distance as real / SCREEN_WIDTH as real]
  }

  /** What a bird at (`birdX`, `birdY`) moving at `velocity` senses among pipes laid out as `cols`. */
  function SensorsOf(birdX: int, birdY: real, velocity: real, cols: seq<PipeState>): (inputs: seq<real>)
    ensures |inputs| == INPUT_SIZE
  {
    SensorsAt(birdX, birdY, velocity, cols, FirstAhead(cols, birdX))
  }

  /** What bird `b` senses among `pipes`. */
  function Sensors(b: Bird, pipes: seq<Pipe>): (inputs: seq<real>)
    reads b, pipes
    ensures |inputs| == INPUT_SIZE
  {
    SensorsOf(b.x, b.y, b.velocity, Layout(pipes))
  }

  /** With no pipe ahead the last three inputs are the sentinels 0, 1 and 1. */
  lemma SensorsNoPipeAhead(b: Bird, pipes: seq<Pipe>)
    requires FirstAhead(Layout(pipes), b.x) == |pipes|
    ensures Sensors(b, pipes)[2..] == [0.0, 1.0, 1.0]
  {
    var inputs := Sensors(b, pipes);
    assert inputs[2] == 0.0 && inputs[3] == 600.0 / 600.0 && inputs[4] == 400.0 / 400.0;
  }

  /**
   * With a pipe ahead the two gap inputs lie in [0, 1], 130/600 apart, and
   * the pipe is less than one pipe width (60/400) behind the bird.
   */
  lemma SensorsPipeAhead(b: Bird, pipes: seq<Pipe>)
    requires PipesValid(pipes)
    requires FirstAhead(Layout(pipes), b.x) < |pipes|
    ensures var inputs := Sensors(b, pipes);
            && 0.0 <= inputs[2] < inputs[3] <= 1.0
            && inputs[3] - inputs[2] == PIPE_GAP as real / SCREEN_HEIGHT as real
            && inputs[4] > -(PIPE_WIDTH as real) / SCREEN_WIDTH as real
  {
    var cols := Layout(pipes);
    var k := FirstAhead(cols, b.x);
    assert pipes[k].Valid() && cols[k] == pipes[k].State();
    var top, bottom := cols[k].gapCenter - 65, cols[k].gapCenter + 65;
    assert 35 <= top && bottom <= 565 && bottom - top == 130;
    var inputs := Sensors(b, pipes);
    assert inputs[2] == top as real / 600.0 && inputs[3] == bottom as real / 600.0;
    assert inputs[3] - inputs[2] == (bottom - top) as real / 600.0;
    assert cols[k].x - b.x > -60;
    assert inputs[4] == (cols[k].x - b.x) as real / 400.0;
  }

  /** The first output of `forward` for these inputs; it exists for the shapes main.py builds. */
  function Output(p: Layers<real>, inputs: seq<real>, act: real -> real): real
    requires Shaped(p, INPUT_SIZE, HIDDEN_SIZE, OUTPUT_SIZE) && |inputs| == INPUT_SIZE
  {
    ForwardShape(p, inputs, act);
    Activations(p, inputs, act).value[0]
  }

  /**
   * With the `sigmoid` as written every output exceeds the threshold, so
   * every network jumps whatever it senses.
   */
  lemma AsWrittenAlwaysJumps(p: Layers<real>, inputs: seq<real>, exp: ExpFn)
    requires Shaped(p, INPUT_SIZE, HIDDEN_SIZE, OUTPUT_SIZE) && |inputs| == INPUT_SIZE
    ensures Output(p, inputs, SigmoidOf(exp)) > THRESHOLD
  {
    ForwardShape(p, inputs, SigmoidOf(exp));
    AsWrittenOutputsAboveOne(p, inputs, exp);
    assert Activations(p, inputs, SigmoidOf(exp)).value[0] in Activations(p, inputs, SigmoidOf(exp)).value;
  }

  /** With the logistic activation the output is a value in (0, 1), so the threshold can go either way. */
  lemma LogisticOutputInUnitInterval(p: Layers<real>, inputs: seq<real>, exp: ExpFn)
    requires Shaped(p, INPUT_SIZE, HIDDEN_SIZE, OUTPUT_SIZE) && |inputs| == INPUT_SIZE
    ensures 0.0 < Output(p, inputs, LogisticOf(exp)) < 1.0
  {
    ForwardShape(p, inputs, LogisticOf(exp));
    LogisticOutputsInUnitInterval(p, inputs, exp);
    assert Activations(p, inputs, LogisticOf(exp)).value[0] in Activations(p, inputs, LogisticOf(exp)).value;
  }

  // ---------------------------------------------------------------------
  // The phases of one tick
  // ---------------------------------------------------------------------

  /** The layout after the spawning step: a new pipe at the right edge of the screen is appended when the clock says so. */
  function Spawned(cols: seq<PipeState>, spawn: bool, gapDraw: int): seq<PipeState>
  {
    if spawn then cols + [PipeState(SCREEN_WIDTH, PIPE_WIDTH, gapDraw, PIPE_GAP)] else cols
  }

  /** The layout after every pipe has scrolled left once. */
  function Shifted(cols: seq<PipeState>): seq<PipeState>
  {
    seq(|cols|, k requires 0 <= k < |cols| => cols[k].(x := cols[k].x - PIPE_SPEED))
  }

  /** Spawning: a new pipe at the right edge of the screen when the clock says so. */
  method Spawn(pipes: seq<Pipe>, spawn: bool, gapDraw: int) returns (pipes': seq<Pipe>)
    requires GAP_LOW <= gapDraw <= GAP_HIGH
    ensures spawn ==> |pipes'| == |pipes| + 1 && pipes'[..|pipes|] == pipes && fresh(pipes'[|pipes|])
    ensures spawn ==> pipes'[|pipes|].Valid()
    ensures !spawn ==> pipes' == pipes
    ensures forall k :: 0 <= k < |pipes'| ==> pipes'[k] in pipes || fresh(pipes'[k])
    ensures Distinct(pipes) ==> Distinct(pipes')
    ensures PipesValid(pipes) ==> PipesValid(pipes')
    ensures Layout(pipes') == Spawned(Layout(pipes), spawn, gapDraw)
  {
    pipes' := pipes;
    if spawn {
      var p := new Pipe(SCREEN_WIDTH, gapDraw);
      pipes' := pipes + [p];
      assert p !in pipes;
      assert Layout(pipes')[..|pipes|] == Layout(pipes);
    }
  }

  /**
   * The velocity a bird at (`birdX`, `birdY`) moving at `velocity` has after
   * steering with parameters `p`: the jump strength when it is alive and the
   * first output for what it senses among pipes laid out as `cols` exceeds
   * the threshold, its old velocity otherwise.
   */
  function Steered(p: Layers<real>, alive: bool, birdX: int, birdY: real, velocity: real, cols: seq<PipeState>,
                   act: real -> real): real
    requires Shaped(p, INPUT_SIZE, HIDDEN_SIZE, OUTPUT_SIZE)
  {
    if alive && Output(p, SensorsOf(birdX, birdY, velocity, cols), act) > THRESHOLD then JUMP_STRENGTH else velocity
  }

  /**
   * A bird after steering and moving: an alive bird takes its steered
   * velocity plus gravity and moves by it; a dead bird stays where it is.
   */
  function Moved(p: Layers<real>, alive: bool, b: BirdState, cols: seq<PipeState>, act: real -> real): BirdState
    requires Shaped(p, INPUT_SIZE, HIDDEN_SIZE, OUTPUT_SIZE)
  {
    if alive then
      var v := Steered(p, true, b.x, b.y, b.velocity, cols, act) + GRAVITY;
      b.(y := b.y + v, velocity := v)
    else b
  }

  /** Every bird after steering and moving, the `i`-th steered by `ps[i]`. */
  function Flown(ps: seq<Layers<real>>, alive: seq<bool>, flock: seq<BirdState>, cols: seq<PipeState>, act: real -> real)
    : seq<BirdState>
    requires |ps| == |alive| == |flock|
    requires forall i :: 0 <= i < |ps| ==> Shaped(ps[i], INPUT_SIZE, HIDDEN_SIZE, OUTPUT_SIZE)
  {
    seq(|flock|, i requires 0 <= i < |flock| => Moved(ps[i], alive[i], flock[i], cols, act))
  }

  /** With the `sigmoid` as written, steering sets every alive bird's velocity to the jump strength. */
  lemma AsWrittenSteersUp(p: Layers<real>, birdX: int, birdY: real, velocity: real, cols: seq<PipeState>, exp: ExpFn)
    requires Shaped(p, INPUT_SIZE, HIDDEN_SIZE, OUTPUT_SIZE)
    ensures Steered(p, true, birdX, birdY, velocity, cols, SigmoidOf(exp)) == JUMP_STRENGTH
  {
    AsWrittenAlwaysJumps(p, SensorsOf(birdX, birdY, velocity, cols), exp);
  }

  /** An alive bird moves like one `update` from its steered velocity; a dead bird does not move at all. */
  lemma MovedFalls(p: Layers<real>, alive: bool, b: BirdState, cols: seq<PipeState>, act: real -> real)
    requires Shaped(p, INPUT_SIZE, HIDDEN_SIZE, OUTPUT_SIZE)
    ensures Moved(p, alive, b, cols, act).x == b.x && Moved(p, alive, b, cols, act).radius == b.radius
    ensures alive ==>
              (Moved(p, alive, b, cols, act).y, Moved(p, alive, b, cols, act).velocity) ==
                Fall(b.y, Steered(p, true, b.x, b.y, b.velocity, cols, act), 1)
    ensures !alive ==> Moved(p, alive, b, cols, act) == b
  {
  }

  /** With the `sigmoid` as written, every alive bird rises by 7.5 on every tick, whatever it senses. */
  lemma AsWrittenRises(p: Layers<real>, b: BirdState, cols: seq<PipeState>, exp: ExpFn)
    requires Shaped(p, INPUT_SIZE, HIDDEN_SIZE, OUTPUT_SIZE)
    ensures Moved(p, true, b, cols, SigmoidOf(exp)) == b.(y := b.y - 7.5, velocity := -7.5)
  {
    AsWrittenSteersUp(p, b.x, b.y, b.velocity, cols, exp);
  }

  /**
   * One bird of the steering loop: if it is alive it senses its closest
   * pipe, runs its network and jumps when the first output exceeds the
   * threshold.
   */
  method SteerOne(nn: NeuralNetwork, b: Bird, alive: bool, pipes: seq<Pipe>, act: real -> real)
    requires nn.Valid() && Shaped(nn.Params(), INPUT_SIZE, HIDDEN_SIZE, OUTPUT_SIZE)
    modifies b
    ensures b.x == old(b.x) && b.y == old(b.y) && b.radius == old(b.radius)
    ensures b.velocity == Steered(nn.Params(), alive, b.x, b.y, old(b.velocity), Layout(pipes), act)
  {
    if alive {
      var k := ClosestPipe(pipes, b.x);
      var inputs := SensorsAt(b.x, b.y, b.velocity, Layout(pipes), k);
      var outputs := nn.Forward(inputs, act);
      ForwardShape(nn.Params(), inputs, act);
      if outputs.value[0] > THRESHOLD {
        b.Jump();
      }
    }
  }

  /** Steering: every bird in turn, in population order. */
  method Steer(population: seq<NeuralNetwork>, birds: seq<Bird>, alive: seq<bool>, pipes: seq<Pipe>, act: real -> real)
    requires |population| == |birds| == |alive|
    requires Controllers(population) && Distinct(birds)
    modifies birds
    ensures forall i :: 0 <= i < |birds| ==>
              birds[i].x == old(birds[i].x) && birds[i].y == old(birds[i].y) && birds[i].radius == old(birds[i].radius)
    ensures forall i :: 0 <= i < |birds| ==>
              birds[i].velocity ==
                Steered(population[i].Params(), alive[i], birds[i].x, birds[i].y, old(birds[i].velocity), Layout(pipes), act)
  {
    var i := 0;
    while i < |birds|
      invariant i <= |birds|
      invariant forall j :: 0 <= j < |birds| ==>
                  birds[j].x == old(birds[j].x) && birds[j].y == old(birds[j].y) && birds[j].radius == old(birds[j].radius)
      invariant forall j :: i <= j < |birds| ==> birds[j].velocity == old(birds[j].velocity)
      invariant forall j :: 0 <= j < i ==>
                  birds[j].velocity ==
                    Steered(population[j].Params(), alive[j], birds[j].x, birds[j].y, old(birds[j].velocity), Layout(pipes), act)
    {
      SteerOne(population[i], birds[i], alive[i], pipes, act);
      i := i + 1;
    }
  }

  /** One bird of the movement loop: an alive bird falls one step and dies off the top or bottom of the screen. */
  method MoveOne(b: Bird, alive: bool) returns (survives: bool)
    modifies b
    ensures b.x == old(b.x) && b.radius == old(b.radius)
    ensures alive ==> b.velocity == old(b.velocity) + GRAVITY && b.y == old(b.y) + b.velocity
    ensures !alive ==> b.velocity == old(b.velocity) && b.y == old(b.y)
    ensures survives == (alive && 0.0 <= b.y <= SCREEN_HEIGHT as real)
  {
    survives := alive;
    if alive {
      b.Update();
      if b.y < 0.0 || b.y > SCREEN_HEIGHT as real {
        survives := false;
      }
    }
  }

  /** Moving: gravity acts on every alive bird; a bird leaving the screen vertically dies. */
  method MoveBirds(birds: seq<Bird>, alive: seq<bool>) returns (survivors: seq<bool>)
    requires |alive| == |birds| && Distinct(birds)
    modifies birds
    ensures |survivors| == |alive|
    ensures forall i :: 0 <= i < |birds| ==> birds[i].x == old(birds[i].x) && birds[i].radius == old(birds[i].radius)
    ensures forall i :: 0 <= i < |birds| && alive[i] ==>
              birds[i].velocity == old(birds[i].velocity) + GRAVITY && birds[i].y == old(birds[i].y) + birds[i].velocity
    ensures forall i :: 0 <= i < |birds| && !alive[i] ==>
              birds[i].velocity == old(birds[i].velocity) && birds[i].y == old(birds[i].y)
    ensures forall i :: 0 <= i < |birds| ==> survivors[i] == (alive[i] && 0.0 <= birds[i].y <= SCREEN_HEIGHT as real)
  {
    survivors := [];
    while |survivors| < |birds|
      invariant |survivors| <= |birds|
      invariant forall j :: 0 <= j < |birds| ==> birds[j].x == old(birds[j].x) && birds[j].radius == old(birds[j].radius)
      invariant forall j :: |survivors| <= j < |birds| ==>
                  birds[j].velocity == old(birds[j].velocity) && birds[j].y == old(birds[j].y)
      invariant forall j :: 0 <= j < |survivors| && alive[j] ==>
                  birds[j].velocity == old(birds[j].velocity) + GRAVITY && birds[j].y == old(birds[j].y) + birds[j].velocity
      invariant forall j :: 0 <= j < |survivors| && !alive[j] ==>
                  birds[j].velocity == old(birds[j].velocity) && birds[j].y == old(birds[j].y)
      invariant forall j :: 0 <= j < |survivors| ==> survivors[j] == (alive[j] && 0.0 <= birds[j].y <= SCREEN_HEIGHT as real)
    {
      var survives := MoveOne(birds[|survivors|], alive[|survivors|]);
      survivors := survivors + [survives];
    }
  }

  /** The collision loop of one pipe: every bird still alive is checked against it. */
  method CheckBirds(p: Pipe, birds: seq<Bird>, alive: seq<bool>) returns (survivors: seq<bool>)
    requires |alive| == |birds|
    ensures |survivors| == |alive|
    ensures forall i :: 0 <= i < |alive| ==> survivors[i] == (alive[i] && !p.CollidesWith(birds[i].GetRect()))
  {
    survivors := alive;
    var i := 0;
    while i < |birds|
      invariant i <= |birds| && |survivors| == |alive|
      invariant forall j :: 0 <= j < i ==> survivors[j] == (alive[j] && !p.CollidesWith(birds[j].GetRect()))
      invariant forall j :: i <= j < |alive| ==> survivors[j] == alive[j]
    {
      if survivors[i] && p.CollidesWith(birds[i].GetRect()) {
        survivors := survivors[i := false];
      }
      i := i + 1;
    }
  }

  /** The pipes that are off screen, in list order. */
  function OffScreenOnes(pipes: seq<Pipe>): seq<Pipe>
    reads pipes
  {
    if |pipes| == 0 then []
    else
      var last := pipes[|pipes| - 1];
      OffScreenOnes(pipes[..|pipes| - 1]) + (if last.OffScreen() then [last] else [])
  }

  /** `to_remove` holds exactly the off-screen pipes, each once when the pipes are distinct. */
  lemma {:induction false} OffScreenOnesExact(pipes: seq<Pipe>)
    ensures var gone := OffScreenOnes(pipes);
            && |gone| <= |pipes|
            && (forall k :: 0 <= k < |gone| ==> gone[k] in pipes && gone[k].OffScreen())
            && (forall k :: 0 <= k < |pipes| && pipes[k].OffScreen() ==> pipes[k] in gone)
            && (Distinct(pipes) ==> Distinct(gone))
  {
    if |pipes| > 0 {
      var front := pipes[..|pipes| - 1];
      var last := pipes[|pipes| - 1];
      OffScreenOnesExact(front);
      var gone := OffScreenOnes(pipes);
      assert gone == OffScreenOnes(front) + (if last.OffScreen() then [last] else []);
      forall k | 0 <= k < |pipes| && pipes[k].OffScreen()
        ensures pipes[k] in gone
      {
        if k < |pipes| - 1 {
          assert pipes[k] == front[k];
        }
      }
      if Distinct(pipes) && last.OffScreen() {
        assert last !in front;
      }
    }
  }

  /**
   * One pipe of the scrolling loop: pipe `k` moves, is checked against the
   * birds alive, and reports whether it is off screen; the other pipes stay
   * where they are.
   */
  method ScrollOne(pipes: seq<Pipe>, k: nat, birds: seq<Bird>, alive: seq<bool>) returns (survivors: seq<bool>, off: bool)
    requires k < |pipes| && |alive| == |birds| && Distinct(pipes)
    modifies pipes[k]
    ensures pipes[k].x == old(pipes[k].x) - PIPE_SPEED && pipes[k].width == old(pipes[k].width)
    ensures pipes[k].gapCenter == old(pipes[k].gapCenter) && pipes[k].gapSize == old(pipes[k].gapSize)
    ensures forall j :: 0 <= j < |pipes| && j != k ==> pipes[j].State() == old(pipes[j].State())
    ensures OffScreenOnes(pipes[..k]) == old(OffScreenOnes(pipes[..k]))
    ensures forall i, j :: 0 <= i < |birds| && 0 <= j < k ==>
              pipes[j].CollidesWith(birds[i].GetRect()) == old(pipes[j].CollidesWith(birds[i].GetRect()))
    ensures |survivors| == |alive|
    ensures forall i :: 0 <= i < |alive| ==> survivors[i] == (alive[i] && !pipes[k].CollidesWith(birds[i].GetRect()))
    ensures off == pipes[k].OffScreen()
  {
    var p := pipes[k];
    assert p !in pipes[..k];
    p.Update();
    survivors := CheckBirds(p, birds, alive);
    off := p.OffScreen();
  }

  lemma OffScreenOnesExtend(pipes: seq<Pipe>, k: nat)
    requires k < |pipes|
    ensures OffScreenOnes(pipes[..k + 1]) == OffScreenOnes(pipes[..k]) + (if pipes[k].OffScreen() then [pipes[k]] else [])
  {
    assert pipes[..k + 1][..k] == pipes[..k];
  }

  /**
   * Scrolling: each pipe in turn moves left and is then checked against every
   * bird still alive; the pipes that have left the screen are collected.
   */
  method ScrollPipes(pipes: seq<Pipe>, birds: seq<Bird>, alive: seq<bool>) returns (survivors: seq<bool>, toRemove: seq<Pipe>)
    requires |alive| == |birds| && Distinct(pipes)
    modifies pipes
    ensures forall k :: 0 <= k < |pipes| ==>
              pipes[k].x == old(pipes[k].x) - PIPE_SPEED && pipes[k].width == old(pipes[k].width) &&
              pipes[k].gapCenter == old(pipes[k].gapCenter) && pipes[k].gapSize == old(pipes[k].gapSize)
    ensures |survivors| == |alive|
    ensures forall i :: 0 <= i < |alive| ==>
              survivors[i] == (alive[i] && forall k :: 0 <= k < |pipes| ==> !pipes[k].CollidesWith(birds[i].GetRect()))
    ensures toRemove == OffScreenOnes(pipes)
  {
    survivors := alive;
    toRemove := [];
    var k := 0;
    while k < |pipes|
      invariant k <= |pipes| && |survivors| == |alive|
      invariant forall j :: 0 <= j < |pipes| ==>
                  pipes[j].x == old(pipes[j].x) - (if j < k then PIPE_SPEED else 0) && pipes[j].width == old(pipes[j].width) &&
                  pipes[j].gapCenter == old(pipes[j].gapCenter) && pipes[j].gapSize == old(pipes[j].gapSize)
      invariant forall i :: 0 <= i < |alive| ==>
                  survivors[i] == (alive[i] && forall j :: 0 <= j < k ==> !pipes[j].CollidesWith(birds[i].GetRect()))
      invariant toRemove == OffScreenOnes(pipes[..k])
    {
      var off;
      survivors, off := ScrollOne(pipes, k, birds, survivors);
      if off {
        toRemove := toRemove + [pipes[k]];
      }
      OffScreenOnesExtend(pipes, k);
      k := k + 1;
    }
    assert pipes[..k] == pipes;
  }

  /** The pipes that stay after the off-screen ones are removed. */
  function Kept(pipes: seq<Pipe>): seq<Pipe>
    reads pipes
  {
    Without(pipes, OffScreenOnes(pipes))
  }

  /** How many pipes are removed. */
  function Passed(pipes: seq<Pipe>): nat
    reads pipes
  {
    |OffScreenOnes(pipes)|
  }

  /** `list.remove(x)`: drops the first occurrence of `x` and keeps the rest in order. */
  function RemoveFirst(s: seq<Pipe>, x: Pipe): (r: seq<Pipe>)
    requires x in s
    ensures |r| == |s| - 1
    ensures multiset(r) == multiset(s) - multiset{x}
  {
    if s[0] == x then
      assert s == [x] + s[1..];
      s[1..]
    else
      assert s == [s[0]] + s[1..];
      [s[0]] + RemoveFirst(s[1..], x)
  }

  /** The pipes of `s` that are not in `gone`, in order. */
  function Without(s: seq<Pipe>, gone: seq<Pipe>): (r: seq<Pipe>)
  {
    if |s| == 0 then []
    else (if s[0] in gone then [] else [s[0]]) + Without(s[1..], gone)
  }

  /** Removing the pipes of `gone` one by one keeps exactly the pipes not in `gone`, in order. */
  lemma {:induction false} WithoutExact(s: seq<Pipe>, gone: seq<Pipe>)
    ensures forall k :: 0 <= k < |Without(s, gone)| ==> Without(s, gone)[k] in s && Without(s, gone)[k] !in gone
    ensures forall k :: 0 <= k < |s| && s[k] !in gone ==> s[k] in Without(s, gone)
    ensures Distinct(s) ==> Distinct(Without(s, gone))
  {
    if |s| > 0 {
      WithoutExact(s[1..], gone);
      var r := Without(s, gone);
      var rest := Without(s[1..], gone);
      forall k | 0 <= k < |s| && s[k] !in gone
        ensures s[k] in r
      {
        if k > 0 {
          assert s[k] == s[1..][k - 1];
        }
      }
      if Distinct(s) {
        assert Distinct(s[1..]);
        assert s[0] !in s[1..];
        assert s[0] !in rest;
      }
    }
  }

  /** With distinct pipes, removing one more pipe from the kept list is dropping it from the kept list. */
  lemma {:induction false} RemoveFirstWithout(s: seq<Pipe>, gone: seq<Pipe>, x: Pipe)
    requires Distinct(s) && x in s && x !in gone
    ensures x in Without(s, gone)
    ensures RemoveFirst(Without(s, gone), x) == Without(s, gone + [x])
  {
    var rest := Without(s[1..], gone);
    assert Distinct(s[1..]);
    if s[0] == x {
      assert Without(s, gone) == [x] + rest;
      assert s[0] !in s[1..];
      WithoutIgnores(s[1..], gone, x);
      assert Without(s, gone + [x]) == Without(s[1..], gone + [x]);
    } else {
      assert x in s[1..];
      RemoveFirstWithout(s[1..], gone, x);
      if s[0] in gone {
        assert Without(s, gone) == rest;
        assert Without(s, gone + [x]) == Without(s[1..], gone + [x]);
      } else {
        assert Without(s, gone) == [s[0]] + rest;
        assert Without(s, gone + [x]) == [s[0]] + Without(s[1..], gone + [x]);
        assert ([s[0]] + rest)[1..] == rest;
      }
    }
  }

  /** A pipe that is not in `s` does not matter to what is kept of `s`. */
  lemma {:induction false} WithoutIgnores(s: seq<Pipe>, gone: seq<Pipe>, x: Pipe)
    requires x !in s
    ensures Without(s, gone + [x]) == Without(s, gone)
  {
    if |s| > 0 {
      WithoutIgnores(s[1..], gone, x);
    }
  }

  /** The scoring loop of one removed pipe: every bird alive gains a point. */
  method Credit(alive: seq<bool>, scores: seq<int>) returns (credited: seq<int>)
    requires |scores| == |alive|
    ensures |credited| == |scores|
    ensures forall i :: 0 <= i < |scores| ==> credited[i] == scores[i] + (if alive[i] then 1 else 0)
  {
    credited := scores;
    var i := 0;
    while i < |alive|
      invariant i <= |alive| && |credited| == |scores|
      invariant forall j :: 0 <= j < |scores| ==> credited[j] == scores[j] + (if j < i && alive[j] then 1 else 0)
    {
      if alive[i] {
        credited := credited[i := credited[i] + 1];
      }
      i := i + 1;
    }
  }

  /**
   * Removing and rewarding: every pipe that went off screen is removed from
   * the list, and each removal gives every bird still alive one point.
   */
  method RemoveAndScore(pipes: seq<Pipe>, toRemove: seq<Pipe>, alive: seq<bool>, scores: seq<int>)
    returns (kept: seq<Pipe>, credited: seq<int>)
    requires |scores| == |alive| && Distinct(pipes) && Distinct(toRemove)
    requires forall k :: 0 <= k < |toRemove| ==> toRemove[k] in pipes
    ensures kept == Without(pipes, toRemove)
    ensures |credited| == |scores|
    ensures forall i :: 0 <= i < |scores| ==> credited[i] == scores[i] + (if alive[i] then |toRemove| else 0)
  {
    kept := pipes;
    credited := scores;
    var t := 0;
    WithoutNothing(pipes);
    while t < |toRemove|
      invariant t <= |toRemove|
      invariant kept == Without(pipes, toRemove[..t])
      invariant |credited| == |scores|
      invariant forall i :: 0 <= i < |scores| ==> credited[i] == scores[i] + (if alive[i] then t else 0)
    {
      DistinctFresh(toRemove, t);
      RemoveFirstWithout(pipes, toRemove[..t], toRemove[t]);
      kept := RemoveFirst(kept, toRemove[t]);
      credited := Credit(alive, credited);
      PrefixStep(toRemove, t);
      t := t + 1;
    }
    assert toRemove[..t] == toRemove;
  }

  lemma PrefixStep<T>(s: seq<T>, t: nat)
    requires t < |s|
    ensures s[..t + 1] == s[..t] + [s[t]]
  {
  }

  lemma DistinctFresh<T>(s: seq<T>, t: nat)
    requires Distinct(s) && t < |s|
    ensures s[t] !in s[..t]
  {
  }

  /** Removing nothing keeps everything. */
  lemma {:induction false} WithoutNothing(s: seq<Pipe>)
    ensures Without(s, []) == s
  {
    if |s| > 0 {
      WithoutNothing(s[1..]);
    }
  }

  // ---------------------------------------------------------------------
  // One tick, one generation, the whole training run
  // ---------------------------------------------------------------------

  /** Pipes drawn from valid pipes are valid. */
  lemma ValidAmong(some: seq<Pipe>, pipes: seq<Pipe>)
    requires PipesValid(pipes)
    requires forall k :: 0 <= k < |some| ==> some[k] in pipes
    ensures PipesValid(some)
  {
    forall k | 0 <= k < |some|
      ensures some[k].Valid()
    {
      var j :| 0 <= j < |pipes| && pipes[j] == some[k];
    }
  }

  /** The birds still flying hold the top score: no bird has more points than any survivor. */
  predicate Leaders(alive: seq<bool>, scores: seq<int>)
    requires |alive| == |scores|
  {
    forall i, j :: 0 <= i < |alive| && 0 <= j < |alive| && alive[i] ==> scores[j] <= scores[i]
  }

  /**
   * A tick in which only birds that were alive stay alive, and every bird
   * still alive gains the same number of points, keeps the survivors in the lead.
   */
  lemma LeadersKept(alive: seq<bool>, scores: seq<int>, alive': seq<bool>, scores': seq<int>, passed: nat)
    requires |alive| == |scores| == |alive'| == |scores'|
    requires forall i :: 0 <= i < |alive| && alive'[i] ==> alive[i]
    requires forall i :: 0 <= i < |alive| ==> scores'[i] == scores[i] + (if alive'[i] then passed else 0)
    requires Leaders(alive, scores)
    ensures Leaders(alive', scores')
  {
  }

  /** The steering loop and then the movement loop, with the pipes as they are after spawning. */
  method SteerAndMove(population: seq<NeuralNetwork>, birds: seq<Bird>, alive: seq<bool>, pipes: seq<Pipe>, act: real -> real)
    returns (moved: seq<bool>)
    requires |population| == |birds| == |alive|
    requires Controllers(population) && Distinct(birds)
    modifies birds
    ensures Flock(birds) == Flown(old(Brains(population)), alive, old(Flock(birds)), Layout(pipes), act)
    ensures |moved| == |alive|
    ensures forall i :: 0 <= i < |alive| ==> moved[i] == (alive[i] && 0.0 <= birds[i].y <= SCREEN_HEIGHT as real)
  {
    ghost var cols := Layout(pipes);
    Steer(population, birds, alive, pipes, act);
    assert Layout(pipes) == cols;
    moved := MoveBirds(birds, alive);
    assert Layout(pipes) == cols;
    assert forall i :: 0 <= i < |birds| ==>
             Flock(birds)[i] == Moved(population[i].Params(), alive[i], old(Flock(birds))[i], cols, act);
  }

  /** The first half of a tick: spawn a pipe if it is time, steer every alive bird, then move them. */
  method Fly(population: seq<NeuralNetwork>, birds: seq<Bird>, alive: seq<bool>, pipes: seq<Pipe>,
             spawn: bool, gapDraw: int, act: real -> real)
    returns (spawned: seq<Pipe>, moved: seq<bool>)
    requires |population| == |birds| == |alive|
    requires Controllers(population) && Distinct(birds) && Distinct(pipes) && PipesValid(pipes)
    requires GAP_LOW <= gapDraw <= GAP_HIGH
    modifies birds
    ensures !spawn ==> spawned == pipes
    ensures spawn ==> |spawned| == |pipes| + 1 && spawned[..|pipes|] == pipes && fresh(spawned[|pipes|])
    ensures Distinct(spawned) && PipesValid(spawned)
    ensures forall k :: 0 <= k < |spawned| ==> spawned[k] in pipes || fresh(spawned[k])
    ensures Layout(spawned) == Spawned(old(Layout(pipes)), spawn, gapDraw)
    ensures Flock(birds) == Flown(old(Brains(population)), alive, old(Flock(birds)), Spawned(old(Layout(pipes)), spawn, gapDraw), act)
    ensures |moved| == |alive|
    ensures forall i :: 0 <= i < |alive| ==> moved[i] == (alive[i] && 0.0 <= birds[i].y <= SCREEN_HEIGHT as real)
  {
    spawned := Spawn(pipes, spawn, gapDraw);
    moved := SteerAndMove(population, birds, alive, spawned, act);
  }

  /**
   * The second half of a tick: scroll the pipes and kill the birds they hit,
   * then remove the pipes that left the screen and reward the survivors.
   * `passed` is how many pipes were removed.
   */
  method Clear(birds: seq<Bird>, moved: seq<bool>, scores: seq<int>, spawned: seq<Pipe>)
    returns (alive': seq<bool>, scores': seq<int>, pipes': seq<Pipe>, ghost passed: nat)
    requires |birds| == |moved| == |scores|
    requires Distinct(spawned) && PipesValid(spawned)
    modifies spawned
    ensures Flock(birds) == old(Flock(birds))
    ensures forall i :: 0 <= i < |birds| ==> birds[i].y == old(birds[i].y)
    ensures Layout(spawned) == Shifted(old(Layout(spawned)))
    ensures |alive'| == |moved| && |scores'| == |scores|
    ensures forall i :: 0 <= i < |moved| ==>
              alive'[i] == (moved[i] && forall k :: 0 <= k < |spawned| ==> !spawned[k].CollidesWith(birds[i].GetRect()))
    ensures pipes' == Kept(spawned)
    ensures passed == Passed(spawned)
    ensures Distinct(pipes') && PipesValid(pipes')
    ensures forall k :: 0 <= k < |pipes'| ==> pipes'[k] in spawned
    ensures forall i :: 0 <= i < |moved| ==> scores'[i] == scores[i] + (if alive'[i] then passed else 0)
  {
    ghost var before := Layout(spawned);
    var toRemove;
    alive', toRemove := ScrollPipes(spawned, birds, moved);
    assert PipesValid(spawned);
    assert Layout(spawned) == Shifted(before);
    OffScreenOnesExact(spawned);
    pipes', scores' := RemoveAndScore(spawned, toRemove, alive', scores);
    WithoutExact(spawned, toRemove);
    ValidAmong(pipes', spawned);
    passed := |toRemove|;
  }

  /**
   * One pass of the `while running` loop: spawn, steer, move, scroll and
   * collide, remove and reward, and the test whether any bird is alive.
   * `spawned` is the pipe list after spawning, before anything is removed;
   * `passed` is how many pipes left the screen during the tick.
   */
  method Tick(population: seq<NeuralNetwork>, birds: seq<Bird>, alive: seq<bool>, scores: seq<int>, pipes: seq<Pipe>,
              spawn: bool, gapDraw: int, act: real -> real)
    returns (alive': seq<bool>, scores': seq<int>, pipes': seq<Pipe>, running: bool, ghost passed: nat,
             ghost spawned: seq<Pipe>)
    requires |population| == |birds| == |alive| == |scores|
    requires Controllers(population) && Distinct(birds) && Distinct(pipes) && PipesValid(pipes)
    requires GAP_LOW <= gapDraw <= GAP_HIGH
    modifies birds, pipes
    ensures !spawn ==> spawned == pipes
    ensures spawn ==> |spawned| == |pipes| + 1 && spawned[..|pipes|] == pipes && fresh(spawned[|pipes|])
    ensures Layout(spawned) == Shifted(Spawned(old(Layout(pipes)), spawn, gapDraw))
    ensures Flock(birds) == Flown(old(Brains(population)), alive, old(Flock(birds)), Spawned(old(Layout(pipes)), spawn, gapDraw), act)
    ensures |alive'| == |alive| && |scores'| == |scores|
    ensures forall i :: 0 <= i < |alive| ==>
              alive'[i] == (alive[i] && 0.0 <= birds[i].y <= SCREEN_HEIGHT as real &&
                            forall k :: 0 <= k < |spawned| ==> !spawned[k].CollidesWith(birds[i].GetRect()))
    ensures pipes' == Kept(spawned)
    ensures passed == Passed(spawned)
    ensures Distinct(pipes') && PipesValid(pipes')
    ensures forall k :: 0 <= k < |pipes'| ==> pipes'[k] in pipes || fresh(pipes'[k])
    ensures forall i :: 0 <= i < |alive| ==> scores'[i] == scores[i] + (if alive'[i] then passed else 0)
    ensures Leaders(alive, scores) ==> Leaders(alive', scores')
    ensures running == (true in alive')
  {
    var grown, moved := Fly(population, birds, alive, pipes, spawn, gapDraw, act);
    spawned := grown;
    alive', scores', pipes', passed := Clear(birds, moved, scores, grown);
    if Leaders(alive, scores) {
      LeadersKept(alive, scores, alive', scores', passed);
    }
    running := true in alive';
  }

  /**
   * `run_generation_in_parallel`: every network gets a bird at (50, 300),
   * all alive with score 0, and the ticks run until no bird is alive; the
   * result is one score per network, in population order.  `clock[t]` says
   * whether the spawn interval has elapsed at tick `t`, `gaps[t]` is the gap
   * the spawned pipe draws; when the ticks given run out with a bird still
   * alive there is no result.
   */
  method RunGeneration(population: seq<NeuralNetwork>, clock: seq<bool>, gaps: seq<int>, act: real -> real)
    returns (r: Option<seq<int>>)
    requires Controllers(population)
    requires |gaps| == |clock| && forall t :: 0 <= t < |gaps| ==> GAP_LOW <= gaps[t] <= GAP_HIGH
    ensures r.Some? ==> |r.value| == |population| && forall i :: 0 <= i < |r.value| ==> 0 <= r.value[i]
  {
    var birds: seq<Bird> := [];
    while |birds| < |population|
      invariant |birds| <= |population|
      invariant Distinct(birds) && forall j :: 0 <= j < |birds| ==> fresh(birds[j])
    {
      var b := new Bird(BIRD_X, BIRD_Y);
      birds := birds + [b];
    }
    var scores := seq(|population|, _ => 0);
    var alive := seq(|population|, _ => true);
    var pipes: seq<Pipe> := [];
    var running := true;
    var t := 0;
    while running && t < |clock|
      invariant t <= |clock|
      invariant |birds| == |alive| == |scores| == |population|
      invariant Distinct(birds) && forall j :: 0 <= j < |birds| ==> fresh(birds[j])
      invariant Distinct(pipes) && PipesValid(pipes) && forall k :: 0 <= k < |pipes| ==> fresh(pipes[k])
      invariant forall i :: 0 <= i < |scores| ==> 0 <= scores[i]
      invariant Leaders(alive, scores)
    {
      ghost var passed, spawned;
      alive, scores, pipes, running, passed, spawned := Tick(population, birds, alive, scores, pipes, clock[t], gaps[t], act);
      t := t + 1;
    }
    if running {
      return None;
    }
    return Some(scores);
  }

  /**
   * `main`: builds `POP_SIZE` networks of sizes 5, 6 and 1, then for each of
   * the `GENERATIONS` generations runs it and replaces it with
   * `next_generation(population, fitnesses, elite_size=5)`.
   */
  method Evolve(initDraws: seq<seq<real>>, clocks: seq<seq<bool>>, gaps: seq<seq<int>>, breeding: seq<seq<ChildDraws>>,
                act: real -> real)
    returns (r: Option<seq<NeuralNetwork>>)
    requires |initDraws| == POP_SIZE
    requires forall k :: 0 <= k < POP_SIZE ==>
               |initDraws[k]| == ParamCount(INPUT_SIZE, HIDDEN_SIZE, OUTPUT_SIZE) &&
               forall j :: 0 <= j < |initDraws[k]| ==> -1.0 <= initDraws[k][j] <= 1.0
    requires |clocks| == |gaps| == |breeding| == GENERATIONS
    requires forall g :: 0 <= g < GENERATIONS ==>
               |gaps[g]| == |clocks[g]| && forall t :: 0 <= t < |gaps[g]| ==> GAP_LOW <= gaps[g][t] <= GAP_HIGH
    requires forall g :: 0 <= g < GENERATIONS ==>
               |breeding[g]| == POP_SIZE - ELITE_SIZE &&
               forall k :: 0 <= k < |breeding[g]| ==> DrawsFit(breeding[g][k], INPUT_SIZE, HIDDEN_SIZE, OUTPUT_SIZE, POP_SIZE / 2)
    ensures r.Some? ==> |r.value| == POP_SIZE && Controllers(r.value)
  {
    var population: seq<NeuralNetwork> := [];
    while |population| < POP_SIZE
      invariant |population| <= POP_SIZE && Controllers(population)
    {
      var nn := new NeuralNetwork(INPUT_SIZE, HIDDEN_SIZE, OUTPUT_SIZE, initDraws[|population|]);
      population := population + [nn];
    }
    var gen := 0;
    while gen < GENERATIONS
      invariant gen <= GENERATIONS
      invariant |population| == POP_SIZE && Controllers(population)
    {
      var fitnesses := RunGeneration(population, clocks[gen], gaps[gen], act);
      if fitnesses.None? {
        return None;
      }
      var next := Generation(population, fitnesses.value, breeding[gen]);
      population := next;
      gen := gen + 1;
    }
    return Some(population);
  }

  /** `population = next_generation(population, fitnesses, elite_size=5)` on a full population: it never raises. */
  method Generation(population: seq<NeuralNetwork>, fitnesses: seq<int>, draws: seq<ChildDraws>)
    returns (next: seq<NeuralNetwork>)
    requires |population| == |fitnesses| == POP_SIZE && Controllers(population)
    requires |draws| == POP_SIZE - ELITE_SIZE
    requires forall k :: 0 <= k < |draws| ==> DrawsFit(draws[k], INPUT_SIZE, HIDDEN_SIZE, OUTPUT_SIZE, POP_SIZE / 2)
    ensures |next| == POP_SIZE && Controllers(next)
    ensures Snapshot(next) == Bred(Snapshot(population), fitnesses, ELITE_SIZE, draws, INPUT_SIZE, HIDDEN_SIZE, OUTPUT_SIZE).value
  {
    ghost var ps := Snapshot(population);
    assert Breedable(ps, |fitnesses|, ELITE_SIZE, draws, INPUT_SIZE, HIDDEN_SIZE, OUTPUT_SIZE);
    BredSize(ps, fitnesses, ELITE_SIZE, draws, INPUT_SIZE, HIDDEN_SIZE, OUTPUT_SIZE);
    var r := NextGeneration(population, fitnesses, ELITE_SIZE, draws, INPUT_SIZE, HIDDEN_SIZE, OUTPUT_SIZE);
    next := r.value;
    assert forall k :: 0 <= k < |next| ==> next[k].Params() == Snapshot(next)[k];
  }
}
