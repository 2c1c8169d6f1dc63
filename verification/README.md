# Flappy-bird neuroevolution, modelled in Dafny

The repository trains flappy-bird controllers by neuroevolution. Each bird is steered by a small two-layer
feedforward network (`neural_network.py`). A whole population of birds flies together in one shared
world of scrolling pipes (`flappy_game.py`, and the tick loop of `run_generation_in_parallel` in
`main.py`). The number of pipes a bird passes is its fitness. `next_generation` then keeps the fittest
networks as elites and fills the rest of the population with mutated crossover children of the
top half (`genetic_algorithm.py`). `main` repeats this for 1000 generations of 70 birds.

The model has five modules:

- `Wrappers` (`wrappers.dfy`): the `Option` and `Result` types.
- `NeuralNet` (`neural_network.dfy`):
  - the activation, both as written and corrected;
  - the parameter shapes `Layers<T>`;
  - the initial parameters built from their uniform draws;
  - `forward` as loops, proved equal to a layer-by-layer specification `Activations`;
  - the class `NeuralNetwork`, whose four parameter lists are fields.
- `Genetic` (`genetic_algorithm.py`):
  - `crossover` and `mutate` as in-place loops over the network's lists, each specified by a function on values (`Mix`, `Perturb`);
  - the stable descending sort as an insertion-sort ranking;
  - `next_generation` as a method proved equal to a value-level specification `Bred`, whose properties are separate lemmas.
- `FlappyGame` (`flappy_game.dfy`):
  - the classes `Bird` and `Pipe`;
  - pygame's `Rect` with its truncating integer conversion;
  - `colliderect`, as a strict overlap of half-open boxes.
- `Training` (`main.dfy`):
  - the six phases of one tick (spawn, steer, move, scroll and collide, remove and reward, termination test) as methods over the shared `birds`, `alive`, `scores` and `pipes`;
  - one generation's run;
  - `main`'s generation loop.

Randomness is an input everywhere:

- the `random.uniform(-1, 1)` draws of a new network are a sequence of reals in [-1, 1];
- the coins of `crossover` and the coins and offsets of `mutate` are values shaped like the network (`Layers<bool>`, `Layers<real>`);
- each child's two `random.choice` positions are part of its `ChildDraws`;
- each tick's "spawn interval elapsed" is a boolean;
- each pipe's `random.randint(100, 500)` gap centre is an integer.

`math.exp` is a parameter of type `ExpFn`, a total function whose values are all positive. Nothing
else is assumed about it.

Three behaviours of the code are easy to miss; the model follows the code:

- `sigmoid` computes `1 + exp(-x)`, not the logistic function (see Findings).
- `zip(population, fitnesses)` silently truncates to the shorter list. The model's sort, elites and
  parent pool (`Paired`, `EliteCount`, `PoolSize`) are sized accordingly.
- With `elite_size > len(population)` the elite slice is just the whole sorted list. The result still has
  `len(population)` networks when `fitnesses` has at least `len(population)` entries, because the filling loop
  never runs.

## Model

| member | source | states |
|---|---|---|
| NeuralNet.Sigmoid | neural_network.py:4-5 | the activation as written is always above 1 |
| NeuralNet.Logistic | neural_network.py:4-5 | the corrected activation lies strictly between 0 and 1 and is the reciprocal of 1 + exp(-x) |
| NeuralNet.InitialParams | neural_network.py:10-13 | a new network's `W1` is input_size x hidden_size, `b1` has hidden_size entries, `W2` is hidden_size x output_size, `b2` has output_size entries; with draws in [-1, 1] every weight and bias is in [-1, 1] |
| NeuralNet.NeuralNetwork.constructor | neural_network.py:8-13 | `__init__` stores exactly those parameters: well-shaped, all in [-1, 1] |
| NeuralNet.NeuralNetwork.Copy | genetic_algorithm.py:9 | a deep copy is a new network with equal parameters |
| NeuralNet.WeightedSumLoop | neural_network.py:20-23 | the `sum_` loop yields the weighted sum over all inputs, and raises IndexError exactly when there are more inputs than weight rows |
| NeuralNet.Neurons | neural_network.py:19-24 | one layer loop yields, for each neuron, the activation of its weighted sum plus its bias; it fails exactly when the layer is non-empty and the inputs outnumber the rows |
| NeuralNet.NeuralNetwork.Forward | neural_network.py:15-35 | `forward` returns what the layer-by-layer specification gives, with any activation, and writes no field |
| NeuralNet.ForwardShape | neural_network.py:19-35 | `forward` succeeds iff `W1` and the hidden layer are non-empty and `len(inputs) <= len(W1)`; shorter inputs are accepted; a success has one value per output neuron |
| NeuralNet.LayerNeuron | neural_network.py:19-24 | hidden neuron `h` is the activation of the weighted input sum in column `h` plus `b1[h]` |
| NeuralNet.AsWrittenOutputsAboveOne | neural_network.py:4-35 | with `sigmoid` as written every output of `forward` is above 1 |
| NeuralNet.LogisticOutputsInUnitInterval | neural_network.py:19-35 | with the corrected activation every output of `forward` lies in (0, 1) |
| Genetic.Mix | genetic_algorithm.py:4-30 | the crossover child has the parents' shape |
| Genetic.MixInherits | genetic_algorithm.py:11-27 | every entry of the crossover child is the first or the second parent's entry at the same index |
| Genetic.MixNoFlips | genetic_algorithm.py:9-27 | when no coin comes up, the child equals the first parent (the deep copy) |
| Genetic.CrossRow | genetic_algorithm.py:16-18 | the inner loop over one bias list or row overwrites exactly the entries whose coin came up |
| Genetic.CrossRows | genetic_algorithm.py:11-14 | the nested loops over a weight matrix produce the entrywise mix |
| Genetic.Crossover | genetic_algorithm.py:4-30 | `crossover` returns a new network holding the mix, shaped like `nn1`, each entry from one parent; neither parent changes |
| Genetic.Perturb | genetic_algorithm.py:32-52 | mutation keeps the shape |
| Genetic.PerturbWithin | genetic_algorithm.py:36-52 | each mutated entry is within `mutation_strength` of its old value |
| Genetic.PerturbRateZero | genetic_algorithm.py:36-52 | with `mutation_rate = 0` and coins in [0, 1) nothing changes |
| Genetic.MutateRow | genetic_algorithm.py:41-43 | the inner loop adds the offset exactly where the coin is below the rate |
| Genetic.MutateRows | genetic_algorithm.py:36-39 | the nested loops over a weight matrix perturb it entrywise |
| Genetic.Mutate | genetic_algorithm.py:32-52 | `mutate` rewrites the network in place to the perturbed parameters, keeps the shape, moves each entry by at most the strength, and changes nothing at rate 0 |
| Genetic.InsertPerm | genetic_algorithm.py:62 | inserting a position into an ordering adds exactly that position and loses none |
| Genetic.InsertHas | genetic_algorithm.py:62 | after an insertion a position is present iff it was present before or is the one inserted |
| Genetic.InsertBelow | genetic_algorithm.py:62 | insertion keeps every position below a common bound |
| Genetic.Ranking | genetic_algorithm.py:62 | the sorted order lists `m` positions, all below `m` |
| Genetic.InsertRanked | genetic_algorithm.py:62 | inserting a new position into a sorted order keeps it sorted |
| Genetic.RankingCovers | genetic_algorithm.py:62 | every paired position occurs in the sorted order |
| Genetic.RankingSorted | genetic_algorithm.py:62 | the sort is a permutation of the paired positions in strictly decreasing (fitness, earlier position first) order, i.e. a stable descending sort |
| Genetic.RankingDescending | genetic_algorithm.py:62 | fitness never rises along the sorted order and the first entry has the highest fitness |
| Genetic.Offspring | genetic_algorithm.py:71-72 | a mutated crossover child has its parents' shape |
| Genetic.OffspringChildOf | genetic_algorithm.py:71-72 | a mutated crossover child is each entry of one parent moved by at most the mutation strength |
| Genetic.BredSize | genetic_algorithm.py:64-75 | `next_generation` raises iff a child is needed and the parent slice is empty; otherwise it returns exactly `len(population)` networks of the common shape |
| Genetic.BredElites | genetic_algorithm.py:62-64 | the first `min(elite_size, len(zip))` results are unmutated copies of the networks in stable descending fitness order |
| Genetic.BredChild | genetic_algorithm.py:67-73 | each non-elite is the offspring of the two parents its draws pick within the first `len(population) // 2` sorted entries, all of the common shape |
| Genetic.BredChildren | genetic_algorithm.py:67-73 | each non-elite is a mutated crossover of two parents within the first `len(population) // 2` sorted entries |
| Genetic.Breed | genetic_algorithm.py:71-73 | one child of the filling loop is a new network holding the offspring; the parents are unchanged |
| Genetic.Newborn | genetic_algorithm.py:64-73 | each entry of the new population is a new network with the specified parameters; the old population is unchanged |
| Genetic.NextGeneration | genetic_algorithm.py:54-75 | `next_generation` fails exactly when the specification does and otherwise returns new networks whose parameters are the specification's; the input networks are untouched |
| FlappyGame.OverlapsIffCommonPoint | flappy_game.py:60 | `colliderect` holds iff the two half-open boxes share a point |
| FlappyGame.OverlapsSymmetric | flappy_game.py:60 | collision is symmetric |
| FlappyGame.Trunc | flappy_game.py:29 | the float-to-int conversion of a `Rect` coordinate truncates toward zero |
| FlappyGame.Bird.constructor | flappy_game.py:14-18 | a new bird has the given position, radius 20 and velocity 0 |
| FlappyGame.Bird.Jump | flappy_game.py:20-21 | `jump` sets velocity to -8 whatever it was, nothing else changes |
| FlappyGame.Bird.Update | flappy_game.py:23-26 | `update` adds 0.5 to the velocity first, then adds the new velocity to `y`, which is one step of `Fall`; `x` never changes |
| FlappyGame.FallAfter | flappy_game.py:23-26 | `j` calls of `update` followed by `k` more are `j + k` calls, so `k` updates from (y, v) give `Fall(y, v, k)` |
| FlappyGame.Bird.GetRect | flappy_game.py:28-29 | `get_rect` is a radius-by-radius box whose top-left corner is the bird's position, `y` truncated |
| FlappyGame.FallClosedForm | flappy_game.py:23-26 | after `k` updates without a jump, velocity is v + k/2 and height is y + k*v + k(k+1)/4 |
| FlappyGame.Pipe.constructor | flappy_game.py:32-37 | a new pipe has the given `x`, width 60, gap 130 and gap centre in [100, 500] |
| FlappyGame.Pipe.Update | flappy_game.py:39-40 | `update` decreases `x` by exactly 3 and changes nothing else |
| FlappyGame.Pipe.OffScreen | flappy_game.py:42-43 | `off_screen` holds iff the pipe's right edge is left of 0 |
| FlappyGame.CollidesIffCommonPoint | flappy_game.py:45-60 | `collides_with` holds iff the box shares a point with the upper column [x, x+60) x [0, gc-65) or the lower column [x, x+60) x [gc+65, gc+665) |
| FlappyGame.CollidesOutsideGap | flappy_game.py:45-60 | a box on the screen collides iff it shares columns with the pipe and does not fit inside the gap [gc-65, gc+65) |
| FlappyGame.OffScreenHarmless | flappy_game.py:42-60 | an off-screen pipe cannot hit a box that starts on the screen |
| FlappyGame.GapExample | flappy_game.py:45-60 | with gap centre 300, a 20x20 box at height 250 never collides |
| Training.FirstAhead | main.py:89-93 | the closest pipe is the first pipe in list order whose right edge is right of the bird, or none |
| Training.FirstAheadIs | main.py:89-93 | no other index has every pipe before it behind the bird and itself, if any, ahead |
| Training.ClosestPipe | main.py:89-93 | the search loop stops at exactly that first pipe, or past the end when no pipe is ahead |
| Training.SensorsAt | main.py:95-112 | the sensor vector has five entries |
| Training.Sensors | main.py:95-112 | the sensors of a bird have five entries |
| Training.SensorsNoPipeAhead | main.py:95-110 | with no pipe ahead the last three inputs are exactly 0, 1 and 1 |
| Training.SensorsPipeAhead | main.py:100-110 | with a pipe ahead the gap inputs lie in [0, 1] and 130/600 apart, and the distance input is above -60/400 |
| Training.AsWrittenAlwaysJumps | main.py:113-116 | with `sigmoid` as written the network's output always exceeds 0.5, so every alive bird jumps every tick |
| Training.LogisticOutputInUnitInterval | main.py:113-116 | with the corrected activation the output lies in (0, 1) |
| Training.AsWrittenSteersUp | main.py:113-117 | with `sigmoid` as written an alive bird's velocity after steering is always the jump strength -8 |
| Training.MovedFalls | main.py:120-124 | steering and moving leave a dead bird as it was and move an alive bird by one `update` from its steered velocity |
| Training.AsWrittenRises | main.py:113-124 | with `sigmoid` as written every alive bird ends each tick 7.5 higher with velocity -7.5, whatever it senses |
| Training.Spawn | main.py:74-78 | when the spawn clock fires exactly one new valid pipe is appended at x = 400 with the drawn gap centre, after the old pipes in order; otherwise the list is unchanged; distinct valid pipes stay distinct and valid |
| Training.SteerOne | main.py:84-117 | one bird is steered: its velocity becomes -8 iff it is alive and its network's first output for what it senses exceeds 0.5, and is unchanged otherwise; its position is untouched |
| Training.Steer | main.py:84-117 | every bird is steered by its own network as `SteerOne` states, with all birds sensing the same pipes; positions are untouched |
| Training.MoveOne | main.py:120-127 | an alive bird takes one gravity step and dies iff its new `y` is outside [0, 600] |
| Training.MoveBirds | main.py:120-127 | only alive birds move, and each one dies on the tick its updated `y` leaves [0, 600] |
| Training.CheckBirds | main.py:134-137 | after one pipe's test a bird is alive iff it was alive and that pipe misses its box |
| Training.OffScreenOnesExact | main.py:130-140 | `to_remove` holds exactly the off-screen pipes, each once |
| Training.ScrollOne | main.py:131-140 | one pipe moves by 3, then is checked against the birds alive, and its off-screen test is reported; every other pipe, and what the earlier pipes hit, stays the same |
| Training.ScrollPipes | main.py:130-140 | every pipe moves by 3; a bird survives iff it was alive and no moved pipe hits it; `to_remove` is the off-screen pipes in order |
| Training.RemoveFirst | main.py:152 | `list.remove` drops one occurrence and keeps the rest |
| Training.WithoutExact | main.py:151-152 | after the removals exactly the pipes not in `to_remove` are left, without duplicates |
| Training.RemoveFirstWithout | main.py:151-152 | removing one more pipe from the kept list equals not keeping it |
| Training.Credit | main.py:153-155 | each removed pipe adds 1 to the score of every bird alive and nothing to the others |
| Training.RemoveAndScore | main.py:151-155 | the pipes left are those not removed, and each bird alive gains exactly one point per removed pipe |
| Training.SteerAndMove | main.py:84-127 | after the steering loop and the movement loop every bird is as `Flown` gives it for the pipe layout, and a bird is still alive iff it was and its new `y` is in [0, 600] |
| Training.Fly | main.py:74-127 | the pipes are as after spawning (same list, or one fresh pipe appended), distinct and valid; every bird is steered and moved as `Flown` gives it from the spawned layout; a bird is still alive iff it was and its new `y` is in [0, 600] |
| Training.Clear | main.py:130-155 | every pipe moves left by 3 and the birds do not change; a bird survives iff it was alive and no moved pipe hits it; the pipes left are exactly the ones not off screen, in order; every survivor gains one point per removed pipe and no other bird scores |
| Training.Tick | main.py:60-160 | the pipes are spawned and then scrolled by 3; every bird moves as `Flown` gives it and dead birds stay put; a bird survives iff it was alive, its new `y` is in [0, 600] and no pipe hits it; the pipes kept are exactly those not off screen; each survivor gains one point per removed pipe and no other bird scores; the survivors keep the top score; `running` is false exactly when no bird is alive |
| Training.RunGeneration | main.py:41-189 | if the run ends, it returns one non-negative score per network |
| Training.Generation | main.py:218 | replacing a full population by `next_generation(population, fitnesses, elite_size=5)` never raises, keeps 70 networks of shape 5-6-1, and yields the specified parameters |
| Training.Evolve | main.py:203-218 | every generation has exactly 70 networks of shape 5-6-1 |

## Left out

- The pygame window is not modelled: surfaces, frame clock, event polling, `sys.exit`, drawing, fonts, the random colours and the alive counter (main.py:30-39, 55-58, 62-72, 162-187). They do not affect the simulation state.
- `game_loop` in flappy_game.py is not modelled: it is the interactive single-player game.
- Pipe spawning by wall-clock time (`pygame.time.get_ticks` against `PIPE_FREQUENCY`) is one boolean input per tick.
- Random draws are inputs constrained to their ranges. Distributions and probabilities (the 50/50 mix, the mutation rate as a probability) are not stated.
- Numbers are exact reals, not IEEE doubles. Rounding in the normalised sensors and in `forward`'s sums is not modelled. `math.exp` is an arbitrary positive function; its overflow error is not modelled.
- `copy.deepcopy` is a constructor copying the four parameter lists. Sequences are values, so no list can be shared.
- Training.RunGeneration: the source loops until every bird is dead. The model runs at most one tick per entry of the spawn clock it is given and returns `None` if a bird is still alive when the clock runs out. Its contract therefore states only what a finished run returns.
- Training.Evolve: returns `None` when any generation's run does not finish within its clock.
- The `print` of each generation's best fitness (main.py:215) and the run after the last generation (main.py:222-224) are not modelled.
- The network is the controller of each bird, passed its activation as a parameter. The source's `sigmoid` is `NeuralNet.SigmoidOf(exp)`.
- `next_generation` with a negative `elite_size` is not modelled: `elite_size` is a `nat`, so Python's negative slicing does not arise.
- Genetic.Crossover: parents of different shapes are excluded by its precondition. In the source they raise IndexError or silently ignore extra entries.
- FlappyGame.OverlapsIffCommonPoint: boxes of negative size never arise here and are not modelled.
- FlappyGame.Bird.GetRect: the bird's `x` is an integer in the model, because every bird starts at `x = 50` and nothing changes it.

## Findings

| source | as written | input that shows it | evidently intended | confidence | as-written member | corrected member |
|---|---|---|---|---|---|---|
| neural_network.py:5 | `1 / 1 + math.exp(-x)` parses as `(1 / 1) + exp(-x)`, which is always above 1; every hidden and output value of `forward` exceeds 1, so at main.py:116 every alive bird jumps on every tick whatever its weights | x = 0 gives 2.0, not 0.5 | the logistic function `1 / (1 + math.exp(-x))`, with values in (0, 1) | not executed | NeuralNet.Sigmoid, NeuralNet.AsWrittenOutputsAboveOne, Training.AsWrittenAlwaysJumps | NeuralNet.Logistic, NeuralNet.LogisticOutputsInUnitInterval, Training.LogisticOutputInUnitInterval |
