/**
 * The genetic operators of genetic_algorithm.py.  The random draws of
 * `random.random`, `random.uniform` and `random.choice` are oracle inputs:
 * one coin or offset per weight, shaped like the network, and one pair of
 * parent positions per child.
 */
module Genetic {
  import opened Wrappers
  import opened NeuralNet

  /** `random.choice` on an empty list raises IndexError. */
  datatype Failure = EmptyChoice

  /** The defaults of `mutate`, which `next_generation` relies on. */
  const MUTATION_RATE: real := 0.1
  const MUTATION_STRENGTH: real := 0.5

  // ---------------------------------------------------------------------------
  // Crossover

  /** Entry `j` comes from `b` when its coin came up (`random.random() < 0.5`), else from `a`. */
  function MixRow(a: seq<real>, b: seq<real>, flips: seq<bool>): seq<real>
    requires |b| == |a| && |flips| == |a|
  {
    seq(|a|, j requires 0 <= j < |a| => if flips[j] then b[j] else a[j])
  }

  function MixRows(a: seq<seq<real>>, b: seq<seq<real>>, flips: seq<seq<bool>>): seq<seq<real>>
    requires |b| == |a| && |flips| == |a|
    requires forall i :: 0 <= i < |a| ==> |b[i]| == |a[i]| && |flips[i]| == |a[i]|
  {
    seq(|a|, i requires 0 <= i < |a| => MixRow(a[i], b[i], flips[i]))
  }

  /** The child `crossover` builds from parents `a` and `b` and its coin flips. */
  function Mix(a: Layers<real>, b: Layers<real>, flips: Layers<bool>): (child: Layers<real>)
    requires WellFormed(a) && SameShape(a, b) && SameShape(a, flips)
    ensures WellFormed(child) && SameShape(a, child)
  {
    Layers(MixRows(a.W1, b.W1, flips.W1), MixRow(a.b1, b.b1, flips.b1),
           MixRows(a.W2, b.W2, flips.W2), MixRow(a.b2, b.b2, flips.b2))
  }

  /** `c` has the shape of `a` and each of its entries is `a`'s or `b`'s entry at the same place. */
  predicate Inherits(c: Layers<real>, a: Layers<real>, b: Layers<real>)
    requires WellFormed(a) && SameShape(a, b)
  {
    && SameShape(a, c)
    && (forall i, j :: 0 <= i < |c.W1| && 0 <= j < |c.W1[i]| ==> c.W1[i][j] == a.W1[i][j] || c.W1[i][j] == b.W1[i][j])
    && (forall j :: 0 <= j < |c.b1| ==> c.b1[j] == a.b1[j] || c.b1[j] == b.b1[j])
    && (forall i, j :: 0 <= i < |c.W2| && 0 <= j < |c.W2[i]| ==> c.W2[i][j] == a.W2[i][j] || c.W2[i][j] == b.W2[i][j])
    && (forall j :: 0 <= j < |c.b2| ==> c.b2[j] == a.b2[j] || c.b2[j] == b.b2[j])
  }

  /** Every entry of a crossover child is one of its parents' entries at that index. */
  lemma MixInherits(a: Layers<real>, b: Layers<real>, flips: Layers<bool>)
    requires WellFormed(a) && SameShape(a, b) && SameShape(a, flips)
    ensures Inherits(Mix(a, b, flips), a, b)
  {
  }

  /** With no coin coming up the child is a copy of the first parent. */
  lemma {:induction false} MixNoFlips(a: Layers<real>, b: Layers<real>, flips: Layers<bool>)
    requires WellFormed(a) && SameShape(a, b) && SameShape(a, flips)
    requires forall i, j :: 0 <= i < |flips.W1| && 0 <= j < |flips.W1[i]| ==> !flips.W1[i][j]
    requires forall j :: 0 <= j < |flips.b1| ==> !flips.b1[j]
    requires forall i, j :: 0 <= i < |flips.W2| && 0 <= j < |flips.W2[i]| ==> !flips.W2[i][j]
    requires forall j :: 0 <= j < |flips.b2| ==> !flips.b2[j]
    ensures Mix(a, b, flips) == a
  {
    var c := Mix(a, b, flips);
    assert c.W1 == a.W1 by {
      forall i | 0 <= i < |a.W1| ensures c.W1[i] == a.W1[i] {
        assert MixRow(a.W1[i], b.W1[i], flips.W1[i]) == a.W1[i];
      }
    }
    assert c.W2 == a.W2 by {
      forall i | 0 <= i < |a.W2| ensures c.W2[i] == a.W2[i] {
        assert MixRow(a.W2[i], b.W2[i], flips.W2[i]) == a.W2[i];
      }
    }
    assert c.b1 == a.b1;
    assert c.b2 == a.b2;
  }

  /** The `for j` loop of `crossover` over one row (or one bias list), overwriting the child's copy in place. */
  method CrossRow(a: seq<real>, b: seq<real>, flips: seq<bool>) returns (r: seq<real>)
    requires |b| == |a| && |flips| == |a|
    ensures r == MixRow(a, b, flips)
  {
    r := a;
    var j := 0;
    while j < |a|
      invariant 0 <= j <= |a| && |r| == |a|
      invariant forall k :: 0 <= k < j ==> r[k] == (if flips[k] then b[k] else a[k])
      invariant forall k :: j <= k < |a| ==> r[k] == a[k]
    {
      if flips[j] {
        r := r[j := b[j]];
      }
      j := j + 1;
    }
  }

  /** The `for i` loop of `crossover` over the rows of a weight matrix. */
  method CrossRows(a: seq<seq<real>>, b: seq<seq<real>>, flips: seq<seq<bool>>) returns (r: seq<seq<real>>)
    requires |b| == |a| && |flips| == |a|
    requires forall i :: 0 <= i < |a| ==> |b[i]| == |a[i]| && |flips[i]| == |a[i]|
    ensures r == MixRows(a, b, flips)
  {
    r := a;
    var i := 0;
    while i < |a|
      invariant 0 <= i <= |a| && |r| == |a|
      invariant forall k :: 0 <= k < i ==> r[k] == MixRow(a[k], b[k], flips[k])
      invariant forall k :: i <= k < |a| ==> r[k] == a[k]
    {
      var row := CrossRow(r[i], b[i], flips[i]);
      r := r[i := row];
      i := i + 1;
    }
  }

  /**
   * `crossover(nn1, nn2)`: the child starts as a deep copy of `nn1` and each
   * entry is overwritten by `nn2`'s where its coin came up.  Neither parent
   * is written.
   */
  method Crossover(nn1: NeuralNetwork, nn2: NeuralNetwork, flips: Layers<bool>) returns (child: NeuralNetwork)
    requires nn1.Valid() && SameShape(nn1.Params(), nn2.Params()) && SameShape(nn1.Params(), flips)
    ensures fresh(child) && child.Valid()
    ensures child.Params() == Mix(nn1.Params(), nn2.Params(), flips)
    ensures Inherits(child.Params(), nn1.Params(), nn2.Params())
    ensures nn1.Params() == old(nn1.Params()) && nn2.Params() == old(nn2.Params())
  {
    child := new NeuralNetwork.Copy(nn1);
    var w1 := CrossRows(child.W1, nn2.W1, flips.W1);
    child.W1 := w1;
    var b1 := CrossRow(child.b1, nn2.b1, flips.b1);
    child.b1 := b1;
    var w2 := CrossRows(child.W2, nn2.W2, flips.W2);
    child.W2 := w2;
    var b2 := CrossRow(child.b2, nn2.b2, flips.b2);
    child.b2 := b2;
    MixInherits(nn1.Params(), nn2.Params(), flips);
  }

  // ---------------------------------------------------------------------------
  // Mutation

  /** Entry `j` moves by `deltas[j]` when its coin is below `rate`, and stays otherwise. */
  function PerturbRow(a: seq<real>, rate: real, coins: seq<real>, deltas: seq<real>): seq<real>
    requires |coins| == |a| && |deltas| == |a|
  {
    seq(|a|, j requires 0 <= j < |a| => if coins[j] < rate then a[j] + deltas[j] else a[j])
  }

  function PerturbRows(a: seq<seq<real>>, rate: real, coins: seq<seq<real>>, deltas: seq<seq<real>>): seq<seq<real>>
    requires |coins| == |a| && |deltas| == |a|
    requires forall i :: 0 <= i < |a| ==> |coins[i]| == |a[i]| && |deltas[i]| == |a[i]|
  {
    seq(|a|, i requires 0 <= i < |a| => PerturbRow(a[i], rate, coins[i], deltas[i]))
  }

  /** The parameters after `mutate` with the given coins and offsets. */
  function Perturb(p: Layers<real>, rate: real, coins: Layers<real>, deltas: Layers<real>): (q: Layers<real>)
    requires WellFormed(p) && SameShape(p, coins) && SameShape(p, deltas)
    ensures WellFormed(q) && SameShape(p, q)
  {
    Layers(PerturbRows(p.W1, rate, coins.W1, deltas.W1), PerturbRow(p.b1, rate, coins.b1, deltas.b1),
           PerturbRows(p.W2, rate, coins.W2, deltas.W2), PerturbRow(p.b2, rate, coins.b2, deltas.b2))
  }

  /** Every entry of `q` is within `bound` of the entry of `p` at the same place. */
  predicate Near(q: Layers<real>, p: Layers<real>, bound: real)
    requires WellFormed(p) && SameShape(p, q)
  {
    && (forall i, j :: 0 <= i < |p.W1| && 0 <= j < |p.W1[i]| ==> -bound <= q.W1[i][j] - p.W1[i][j] <= bound)
    && (forall j :: 0 <= j < |p.b1| ==> -bound <= q.b1[j] - p.b1[j] <= bound)
    && (forall i, j :: 0 <= i < |p.W2| && 0 <= j < |p.W2[i]| ==> -bound <= q.W2[i][j] - p.W2[i][j] <= bound)
    && (forall j :: 0 <= j < |p.b2| ==> -bound <= q.b2[j] - p.b2[j] <= bound)
  }

  /** `mutate` keeps the shape and moves each entry by at most `mutation_strength`. */
  lemma PerturbWithin(p: Layers<real>, rate: real, strength: real, coins: Layers<real>, deltas: Layers<real>)
    requires WellFormed(p) && SameShape(p, coins) && SameShape(p, deltas)
    requires 0.0 <= strength && EntriesIn(deltas, -strength, strength)
    ensures Near(Perturb(p, rate, coins, deltas), p, strength)
  {
  }

  /** With `mutation_rate = 0` no coin from [0, 1) is below the rate, so nothing changes. */
  lemma {:induction false} PerturbRateZero(p: Layers<real>, coins: Layers<real>, deltas: Layers<real>)
    requires WellFormed(p) && SameShape(p, coins) && SameShape(p, deltas)
    requires EntriesIn(coins, 0.0, 1.0)
    ensures Perturb(p, 0.0, coins, deltas) == p
  {
    var q := Perturb(p, 0.0, coins, deltas);
    assert q.W1 == p.W1 by {
      forall i | 0 <= i < |p.W1| ensures q.W1[i] == p.W1[i] {
        assert PerturbRow(p.W1[i], 0.0, coins.W1[i], deltas.W1[i]) == p.W1[i];
      }
    }
    assert q.W2 == p.W2 by {
      forall i | 0 <= i < |p.W2| ensures q.W2[i] == p.W2[i] {
        assert PerturbRow(p.W2[i], 0.0, coins.W2[i], deltas.W2[i]) == p.W2[i];
      }
    }
    assert q.b1 == p.b1;
    assert q.b2 == p.b2;
  }

  /** The `for j` loop of `mutate` over one row (or one bias list): `+=` where the coin is below the rate. */
  method MutateRow(a: seq<real>, rate: real, coins: seq<real>, deltas: seq<real>) returns (r: seq<real>)
    requires |coins| == |a| && |deltas| == |a|
    ensures r == PerturbRow(a, rate, coins, deltas)
  {
    r := a;
    var j := 0;
    while j < |a|
      invariant 0 <= j <= |a| && |r| == |a|
      invariant forall k :: 0 <= k < j ==> r[k] == (if coins[k] < rate then a[k] + deltas[k] else a[k])
      invariant forall k :: j <= k < |a| ==> r[k] == a[k]
    {
      if coins[j] < rate {
        r := r[j := r[j] + deltas[j]];
      }
      j := j + 1;
    }
  }

  /** The `for i` loop of `mutate` over the rows of a weight matrix. */
  method MutateRows(a: seq<seq<real>>, rate: real, coins: seq<seq<real>>, deltas: seq<seq<real>>) returns (r: seq<seq<real>>)
    requires |coins| == |a| && |deltas| == |a|
    requires forall i :: 0 <= i < |a| ==> |coins[i]| == |a[i]| && |deltas[i]| == |a[i]|
    ensures r == PerturbRows(a, rate, coins, deltas)
  {
    r := a;
    var i := 0;
    while i < |a|
      invariant 0 <= i <= |a| && |r| == |a|
      invariant forall k :: 0 <= k < i ==> r[k] == PerturbRow(a[k], rate, coins[k], deltas[k])
      invariant forall k :: i <= k < |a| ==> r[k] == a[k]
    {
      var row := MutateRow(r[i], rate, coins[i], deltas[i]);
      r := r[i := row];
      i := i + 1;
    }
  }

  /**
   * `mutate(nn, mutation_rate, mutation_strength)`: rewrites `nn`'s lists in
   * place; `coins` are the `random.random()` draws and `deltas` the
   * `random.uniform(-mutation_strength, mutation_strength)` ones.
   */
  method Mutate(nn: NeuralNetwork, rate: real, strength: real, coins: Layers<real>, deltas: Layers<real>)
    requires nn.Valid() && SameShape(nn.Params(), coins) && SameShape(nn.Params(), deltas)
    requires EntriesIn(coins, 0.0, 1.0) && 0.0 <= strength && EntriesIn(deltas, -strength, strength)
    modifies nn
    ensures nn.Params() == Perturb(old(nn.Params()), rate, coins, deltas)
    ensures nn.Valid() && SameShape(old(nn.Params()), nn.Params())
    ensures Near(nn.Params(), old(nn.Params()), strength)
    ensures rate == 0.0 ==> nn.Params() == old(nn.Params())
  {
    PerturbWithin(nn.Params(), rate, strength, coins, deltas);
    if rate == 0.0 {
      PerturbRateZero(nn.Params(), coins, deltas);
    }
    var w1 := MutateRows(nn.W1, rate, coins.W1, deltas.W1);
    var b1 := MutateRow(nn.b1, rate, coins.b1, deltas.b1);
    var w2 := MutateRows(nn.W2, rate, coins.W2, deltas.W2);
    var b2 := MutateRow(nn.b2, rate, coins.b2, deltas.b2);
    nn.W1, nn.b1, nn.W2, nn.b2 := w1, b1, w2, b2;
  }

  // ---------------------------------------------------------------------------
  // Selection: `sorted(zip(population, fitnesses), key=fitness, reverse=True)`

  /**
   * Position `i` comes before position `j` in the sorted list: a higher
   * fitness first, and on equal fitness the earlier position first (Python's
   * sort is stable, also with `reverse=True`).
   */
  predicate Before(fitnesses: seq<int>, i: nat, j: nat)
    requires i < |fitnesses| && j < |fitnesses|
  {
    fitnesses[i] > fitnesses[j] || (fitnesses[i] == fitnesses[j] && i < j)
  }

  /** `order` lists positions of `fitnesses` strictly in `Before` order. */
  predicate Ranked(fitnesses: seq<int>, order: seq<nat>)
  {
    && (forall k :: 0 <= k < |order| ==> order[k] < |fitnesses|)
    && (forall a, b :: 0 <= a < b < |order| ==> Before(fitnesses, order[a], order[b]))
  }

  /** Insert position `x` before the first entry it comes before. */
  function Insert(fitnesses: seq<int>, order: seq<nat>, x: nat): (r: seq<nat>)
    requires x < |fitnesses|
    requires forall k :: 0 <= k < |order| ==> order[k] < |fitnesses|
    ensures |r| == |order| + 1
  {
    if order == [] then [x]
    else if Before(fitnesses, x, order[0]) then [x] + order
    else [order[0]] + Insert(fitnesses, order[1..], x)
  }

  /** Insertion adds exactly the one position and loses none. */
  lemma {:induction false} InsertPerm(fitnesses: seq<int>, order: seq<nat>, x: nat)
    requires x < |fitnesses|
    requires forall k :: 0 <= k < |order| ==> order[k] < |fitnesses|
    ensures multiset(Insert(fitnesses, order, x)) == multiset(order) + multiset{x}
  {
    if order != [] && !Before(fitnesses, x, order[0]) {
      InsertPerm(fitnesses, order[1..], x);
      assert order == [order[0]] + order[1..];
    }
  }

  /** A position is in the order after an insertion iff it was before or is the one inserted. */
  lemma InsertHas(fitnesses: seq<int>, order: seq<nat>, x: nat, y: nat)
    requires x < |fitnesses|
    requires forall k :: 0 <= k < |order| ==> order[k] < |fitnesses|
    ensures y in Insert(fitnesses, order, x) <==> y in order || y == x
  {
    InsertPerm(fitnesses, order, x);
    var r := Insert(fitnesses, order, x);
    assert y in r <==> y in multiset(r);
    assert y in order <==> y in multiset(order);
  }

  /** Inserting into an order of positions below `bound` a position below `bound` keeps them all below it. */
  lemma {:induction false} InsertBelow(fitnesses: seq<int>, order: seq<nat>, x: nat, bound: nat)
    requires x < |fitnesses| && x < bound
    requires forall k :: 0 <= k < |order| ==> order[k] < |fitnesses| && order[k] < bound
    ensures forall k :: 0 <= k < |order| + 1 ==> Insert(fitnesses, order, x)[k] < bound
  {
    if order != [] && !Before(fitnesses, x, order[0]) {
      InsertBelow(fitnesses, order[1..], x, bound);
    }
  }

  /** The positions `0 .. m-1` in sorted order (insertion sort). */
  function Ranking(fitnesses: seq<int>, m: nat): (order: seq<nat>)
    requires m <= |fitnesses|
    ensures |order| == m
    ensures forall k :: 0 <= k < m ==> order[k] < m
  {
    if m == 0 then []
    else
      InsertBelow(fitnesses, Ranking(fitnesses, m - 1), m - 1, m);
      Insert(fitnesses, Ranking(fitnesses, m - 1), m - 1)
  }

  lemma {:induction false} InsertRanked(fitnesses: seq<int>, order: seq<nat>, x: nat)
    requires x < |fitnesses| && x !in order
    requires Ranked(fitnesses, order)
    ensures Ranked(fitnesses, Insert(fitnesses, order, x))
  {
    if order == [] {
    } else if Before(fitnesses, x, order[0]) {
    } else {
      var rest := Insert(fitnesses, order[1..], x);
      InsertRanked(fitnesses, order[1..], x);
      var r := [order[0]] + rest;
      forall b | 0 < b < |r|
        ensures Before(fitnesses, order[0], r[b])
      {
        assert r[b] == rest[b - 1];
        InsertHas(fitnesses, order[1..], x, r[b]);
      }
    }
  }

  /** Every position `0 .. m-1` occurs in the sorted order. */
  lemma {:induction false} RankingCovers(fitnesses: seq<int>, m: nat)
    requires m <= |fitnesses|
    ensures forall j :: 0 <= j < m ==> j in Ranking(fitnesses, m)
  {
    if m > 0 {
      var prefix := Ranking(fitnesses, m - 1);
      RankingCovers(fitnesses, m - 1);
      assert Ranking(fitnesses, m) == Insert(fitnesses, prefix, m - 1);
      forall j | 0 <= j < m
        ensures j in Ranking(fitnesses, m)
      {
        InsertHas(fitnesses, prefix, m - 1, j);
      }
    }
  }

  /**
   * The sorted order is a permutation of the positions `0 .. m-1` in
   * descending fitness, equal fitnesses keeping their original order.
   */
  lemma {:induction false} RankingSorted(fitnesses: seq<int>, m: nat)
    requires m <= |fitnesses|
    ensures Ranked(fitnesses, Ranking(fitnesses, m))
    ensures forall j :: 0 <= j < m ==> j in Ranking(fitnesses, m)
  {
    RankingCovers(fitnesses, m);
    if m > 0 {
      var prefix := Ranking(fitnesses, m - 1);
      RankingSorted(fitnesses, m - 1);
      assert (m - 1) as nat !in prefix;
      InsertRanked(fitnesses, prefix, m - 1);
      assert Ranking(fitnesses, m) == Insert(fitnesses, prefix, m - 1);
    }
  }

  /** The first sorted position has the highest fitness, and fitness never rises along the order. */
  lemma RankingDescending(fitnesses: seq<int>, m: nat)
    requires m <= |fitnesses|
    ensures forall a, b :: 0 <= a < b < m ==> fitnesses[Ranking(fitnesses, m)[a]] >= fitnesses[Ranking(fitnesses, m)[b]]
    ensures 0 < m ==> forall j :: 0 <= j < m ==> fitnesses[j] <= fitnesses[Ranking(fitnesses, m)[0]]
  {
    RankingSorted(fitnesses, m);
    var order := Ranking(fitnesses, m);
    if 0 < m {
      forall j | 0 <= j < m
        ensures fitnesses[j] <= fitnesses[order[0]]
      {
        assert j in order;
        var k :| 0 <= k < m && order[k] == j;
        if k > 0 {
          assert Before(fitnesses, order[0], order[k]);
        }
      }
    }
  }

  // ---------------------------------------------------------------------------
  // next_generation

  /** The random draws that make one non-elite child. */
  datatype ChildDraws = ChildDraws(parent1: nat, parent2: nat, flips: Layers<bool>, coins: Layers<real>, deltas: Layers<real>)

  /** The draws fit networks of the given shape and parents from a slice of `pool` entries. */
  predicate DrawsFit(d: ChildDraws, inputSize: nat, hiddenSize: nat, outputSize: nat, pool: nat)
  {
    && (0 < pool ==> d.parent1 < pool && d.parent2 < pool)
    && Shaped(d.flips, inputSize, hiddenSize, outputSize)
    && Shaped(d.coins, inputSize, hiddenSize, outputSize)
    && Shaped(d.deltas, inputSize, hiddenSize, outputSize)
    && EntriesIn(d.coins, 0.0, 1.0)
    && EntriesIn(d.deltas, -MUTATION_STRENGTH, MUTATION_STRENGTH)
  }

  function Min(a: nat, b: nat): nat { if a <= b then a else b }

  /** How many pairs `zip(population, fitnesses)` makes. */
  function Paired(n: nat, fitnessCount: nat): nat { Min(n, fitnessCount) }

  /** How many elites `sorted_pop[:elite_size]` keeps. */
  function EliteCount(n: nat, fitnessCount: nat, eliteSize: nat): nat { Min(eliteSize, Paired(n, fitnessCount)) }

  /** How many entries the parent slice `sorted_pop[:len(population)//2]` has. */
  function PoolSize(n: nat, fitnessCount: nat): nat { Min(n / 2, Paired(n, fitnessCount)) }

  /** A mutated crossover child of `a` and `b`, made with draws `d`. */
  function Offspring(a: Layers<real>, b: Layers<real>, d: ChildDraws): (c: Layers<real>)
    requires WellFormed(a) && SameShape(a, b) && SameShape(a, d.flips)
    requires SameShape(a, d.coins) && SameShape(a, d.deltas)
    ensures SameShape(a, c) && WellFormed(c)
  {
    Perturb(Mix(a, b, d.flips), MUTATION_RATE, d.coins, d.deltas)
  }

  /**
   * `c` is a mutated crossover of `a` and `b`: the crossover takes each entry
   * from one of them, and mutation moves it by at most the mutation strength.
   */
  predicate ChildOf(c: Layers<real>, a: Layers<real>, b: Layers<real>, flips: Layers<bool>)
  {
    && WellFormed(a) && SameShape(a, b) && SameShape(a, flips) && SameShape(a, c)
    && Inherits(Mix(a, b, flips), a, b)
    && Near(c, Mix(a, b, flips), MUTATION_STRENGTH)
  }

  lemma OffspringChildOf(a: Layers<real>, b: Layers<real>, d: ChildDraws)
    requires WellFormed(a) && SameShape(a, b) && SameShape(a, d.flips)
    requires SameShape(a, d.coins) && SameShape(a, d.deltas)
    requires EntriesIn(d.deltas, -MUTATION_STRENGTH, MUTATION_STRENGTH)
    ensures ChildOf(Offspring(a, b, d), a, b, d.flips)
  {
    MixInherits(a, b, d.flips);
    PerturbWithin(Mix(a, b, d.flips), MUTATION_RATE, MUTATION_STRENGTH, d.coins, d.deltas);
  }

  /** What `next_generation` needs of its inputs: one network shape, and draws that fit it. */
  predicate Breedable(ps: seq<Layers<real>>, fitnessCount: nat, eliteSize: nat, draws: seq<ChildDraws>,
                      inputSize: nat, hiddenSize: nat, outputSize: nat)
  {
    && (forall k :: 0 <= k < |ps| ==> Shaped(ps[k], inputSize, hiddenSize, outputSize))
    && EliteCount(|ps|, fitnessCount, eliteSize) + |draws| >= |ps|
    && (forall k :: 0 <= k < |draws| ==>
          DrawsFit(draws[k], inputSize, hiddenSize, outputSize, PoolSize(|ps|, fitnessCount)))
  }

  /**
   * The parameters of the population `next_generation` returns: the first
   * `EliteCount` are those of the best networks in sorted order, each later
   * one is the offspring of two parents among the first `PoolSize` sorted
   * entries; an empty parent slice when a child is needed raises.
   */
  ghost function Bred(ps: seq<Layers<real>>, fitnesses: seq<int>, eliteSize: nat, draws: seq<ChildDraws>,
                      inputSize: nat, hiddenSize: nat, outputSize: nat): Result<seq<Layers<real>>, Failure>
    requires Breedable(ps, |fitnesses|, eliteSize, draws, inputSize, hiddenSize, outputSize)
  {
    var n := |ps|;
    var order := Ranking(fitnesses, Paired(n, |fitnesses|));
    if EliteCount(n, |fitnesses|, eliteSize) < n && PoolSize(n, |fitnesses|) == 0 then Err(EmptyChoice)
    else Ok(seq(n, k requires 0 <= k < n => Newcomer(ps, order, fitnesses, eliteSize, draws, inputSize, hiddenSize, outputSize, k)))
  }

  /** Entry `k` of the next generation, given the sorted order. */
  ghost function Newcomer(ps: seq<Layers<real>>, order: seq<nat>, fitnesses: seq<int>, eliteSize: nat, draws: seq<ChildDraws>,
                          inputSize: nat, hiddenSize: nat, outputSize: nat, k: nat): Layers<real>
    requires Breedable(ps, |fitnesses|, eliteSize, draws, inputSize, hiddenSize, outputSize)
    requires order == Ranking(fitnesses, Paired(|ps|, |fitnesses|))
    requires EliteCount(|ps|, |fitnesses|, eliteSize) < |ps| ==> 0 < PoolSize(|ps|, |fitnesses|)
    requires k < |ps|
  {
    var e := EliteCount(|ps|, |fitnesses|, eliteSize);
    if k < e then ps[order[k]]
    else
      var d := draws[k - e];
      Offspring(ps[order[d.parent1]], ps[order[d.parent2]], d)
  }

  /**
   * Whenever `next_generation` returns, it returns as many networks as it was
   * given, all of the common shape; it raises exactly when a child is needed
   * and the parent slice is empty.
   */
  lemma BredSize(ps: seq<Layers<real>>, fitnesses: seq<int>, eliteSize: nat, draws: seq<ChildDraws>,
                 inputSize: nat, hiddenSize: nat, outputSize: nat)
    requires Breedable(ps, |fitnesses|, eliteSize, draws, inputSize, hiddenSize, outputSize)
    ensures Bred(ps, fitnesses, eliteSize, draws, inputSize, hiddenSize, outputSize).Err? <==>
              EliteCount(|ps|, |fitnesses|, eliteSize) < |ps| && PoolSize(|ps|, |fitnesses|) == 0
    ensures Bred(ps, fitnesses, eliteSize, draws, inputSize, hiddenSize, outputSize).Ok? ==>
              var next := Bred(ps, fitnesses, eliteSize, draws, inputSize, hiddenSize, outputSize).value;
              |next| == |ps| && forall k :: 0 <= k < |next| ==> Shaped(next[k], inputSize, hiddenSize, outputSize)
  {
    var n := |ps|;
    var e := EliteCount(n, |fitnesses|, eliteSize);
    var order := Ranking(fitnesses, Paired(n, |fitnesses|));
    var r := Bred(ps, fitnesses, eliteSize, draws, inputSize, hiddenSize, outputSize);
    if r.Ok? {
      forall k | 0 <= k < n
        ensures Shaped(r.value[k], inputSize, hiddenSize, outputSize)
      {
        if e <= k {
          var d := draws[k - e];
          assert r.value[k] == Newcomer(ps, order, fitnesses, eliteSize, draws, inputSize, hiddenSize, outputSize, k);
        }
      }
    }
  }

  /**
   * The elites are unmutated copies of the networks in sorted order: the
   * first has the highest fitness, fitness never rises along them, and equal
   * fitnesses keep their population order.
   */
  lemma BredElites(ps: seq<Layers<real>>, fitnesses: seq<int>, eliteSize: nat, draws: seq<ChildDraws>,
                   inputSize: nat, hiddenSize: nat, outputSize: nat)
    requires Breedable(ps, |fitnesses|, eliteSize, draws, inputSize, hiddenSize, outputSize)
    requires Bred(ps, fitnesses, eliteSize, draws, inputSize, hiddenSize, outputSize).Ok?
    ensures var next := Bred(ps, fitnesses, eliteSize, draws, inputSize, hiddenSize, outputSize).value;
            var order := Ranking(fitnesses, Paired(|ps|, |fitnesses|));
            && Ranked(fitnesses, order)
            && (forall j :: 0 <= j < Paired(|ps|, |fitnesses|) ==> j in order)
            && (forall k :: 0 <= k < EliteCount(|ps|, |fitnesses|, eliteSize) ==> next[k] == ps[order[k]])
  {
    RankingSorted(fitnesses, Paired(|ps|, |fitnesses|));
  }

  /** Entry `k` past the elites is the offspring of the two parents its draws name within the parent slice. */
  lemma BredChild(ps: seq<Layers<real>>, fitnesses: seq<int>, eliteSize: nat, draws: seq<ChildDraws>,
                  inputSize: nat, hiddenSize: nat, outputSize: nat, k: nat)
    requires Breedable(ps, |fitnesses|, eliteSize, draws, inputSize, hiddenSize, outputSize)
    requires Bred(ps, fitnesses, eliteSize, draws, inputSize, hiddenSize, outputSize).Ok?
    requires EliteCount(|ps|, |fitnesses|, eliteSize) <= k < |ps|
    ensures var order := Ranking(fitnesses, Paired(|ps|, |fitnesses|));
            var d := draws[k - EliteCount(|ps|, |fitnesses|, eliteSize)];
            && d.parent1 < PoolSize(|ps|, |fitnesses|) && d.parent2 < PoolSize(|ps|, |fitnesses|)
            && Shaped(ps[order[d.parent1]], inputSize, hiddenSize, outputSize)
            && Shaped(ps[order[d.parent2]], inputSize, hiddenSize, outputSize)
            && Shaped(d.flips, inputSize, hiddenSize, outputSize)
            && Shaped(d.coins, inputSize, hiddenSize, outputSize)
            && Shaped(d.deltas, inputSize, hiddenSize, outputSize)
            && EntriesIn(d.deltas, -MUTATION_STRENGTH, MUTATION_STRENGTH)
            && Bred(ps, fitnesses, eliteSize, draws, inputSize, hiddenSize, outputSize).value[k]
                 == Offspring(ps[order[d.parent1]], ps[order[d.parent2]], d)
  {
    var e := EliteCount(|ps|, |fitnesses|, eliteSize);
    var order := Ranking(fitnesses, Paired(|ps|, |fitnesses|));
    var d := draws[k - e];
    assert DrawsFit(d, inputSize, hiddenSize, outputSize, PoolSize(|ps|, |fitnesses|));
    var next := Bred(ps, fitnesses, eliteSize, draws, inputSize, hiddenSize, outputSize).value;
    assert next[k] == Newcomer(ps, order, fitnesses, eliteSize, draws, inputSize, hiddenSize, outputSize, k);
  }

  /**
   * Each non-elite is a mutated crossover of two parents ranked within the
   * first `len(population) // 2`: every entry is one parent's entry moved by
   * at most the mutation strength.
   */
  lemma BredChildren(ps: seq<Layers<real>>, fitnesses: seq<int>, eliteSize: nat, draws: seq<ChildDraws>,
                     inputSize: nat, hiddenSize: nat, outputSize: nat, k: nat)
    requires Breedable(ps, |fitnesses|, eliteSize, draws, inputSize, hiddenSize, outputSize)
    requires Bred(ps, fitnesses, eliteSize, draws, inputSize, hiddenSize, outputSize).Ok?
    requires EliteCount(|ps|, |fitnesses|, eliteSize) <= k < |ps|
    ensures var next := Bred(ps, fitnesses, eliteSize, draws, inputSize, hiddenSize, outputSize).value;
            var order := Ranking(fitnesses, Paired(|ps|, |fitnesses|));
            var d := draws[k - EliteCount(|ps|, |fitnesses|, eliteSize)];
            && d.parent1 < PoolSize(|ps|, |fitnesses|) && d.parent2 < PoolSize(|ps|, |fitnesses|)
            && ChildOf(next[k], ps[order[d.parent1]], ps[order[d.parent2]], d.flips)
  {
    var order := Ranking(fitnesses, Paired(|ps|, |fitnesses|));
    var d := draws[k - EliteCount(|ps|, |fitnesses|, eliteSize)];
    BredChild(ps, fitnesses, eliteSize, draws, inputSize, hiddenSize, outputSize, k);
    OffspringChildOf(ps[order[d.parent1]], ps[order[d.parent2]], d);
  }

  /** One child of the filling loop: `mutate(crossover(parent1, parent2))`. */
  method Breed(parent1: NeuralNetwork, parent2: NeuralNetwork, d: ChildDraws) returns (child: NeuralNetwork)
    requires parent1.Valid() && SameShape(parent1.Params(), parent2.Params()) && SameShape(parent1.Params(), d.flips)
    requires SameShape(parent1.Params(), d.coins) && SameShape(parent1.Params(), d.deltas)
    requires EntriesIn(d.coins, 0.0, 1.0) && EntriesIn(d.deltas, -MUTATION_STRENGTH, MUTATION_STRENGTH)
    ensures parent1.Params() == old(parent1.Params()) && parent2.Params() == old(parent2.Params())
    ensures fresh(child) && child.Valid()
    ensures child.Params() == Offspring(parent1.Params(), parent2.Params(), d)
  {
    child := Crossover(parent1, parent2, d.flips);
    Mutate(child, MUTATION_RATE, MUTATION_STRENGTH, d.coins, d.deltas);
  }

  /** Entry `k` of the next generation: a deep copy of an elite, or a new child. */
  method Newborn(population: seq<NeuralNetwork>, fitnesses: seq<int>, eliteSize: nat, draws: seq<ChildDraws>, order: seq<nat>,
                 ghost inputSize: nat, ghost hiddenSize: nat, ghost outputSize: nat, k: nat)
    returns (child: NeuralNetwork)
    requires Breedable(Snapshot(population), |fitnesses|, eliteSize, draws, inputSize, hiddenSize, outputSize)
    requires order == Ranking(fitnesses, Paired(|population|, |fitnesses|))
    requires EliteCount(|population|, |fitnesses|, eliteSize) < |population| ==> 0 < PoolSize(|population|, |fitnesses|)
    requires k < |population|
    ensures Snapshot(population) == old(Snapshot(population))
    ensures fresh(child) && child.Valid()
    ensures child.Params() == Newcomer(Snapshot(population), order, fitnesses, eliteSize, draws, inputSize, hiddenSize, outputSize, k)
  {
    ghost var ps := Snapshot(population);
    var e := EliteCount(|population|, |fitnesses|, eliteSize);
    if k < e {
      child := new NeuralNetwork.Copy(population[order[k]]);
    } else {
      var d := draws[k - e];
      child := Breed(population[order[d.parent1]], population[order[d.parent2]], d);
    }
    assert forall j :: 0 <= j < |population| ==> population[j].Params() == ps[j];
  }

  /**
   * `next_generation(population, fitnesses, elite_size)`: copies the elites
   * (`copy.deepcopy`), then appends mutated crossover children until the new
   * list is as long as the old.  The input networks are only read, and every
   * result is a new object.
   */
  method NextGeneration(population: seq<NeuralNetwork>, fitnesses: seq<int>, eliteSize: nat, draws: seq<ChildDraws>,
                        ghost inputSize: nat, ghost hiddenSize: nat, ghost outputSize: nat)
    returns (r: Result<seq<NeuralNetwork>, Failure>)
    requires Breedable(Snapshot(population), |fitnesses|, eliteSize, draws, inputSize, hiddenSize, outputSize)
    ensures Snapshot(population) == old(Snapshot(population))
    ensures r.Err? == Bred(Snapshot(population), fitnesses, eliteSize, draws, inputSize, hiddenSize, outputSize).Err?
    ensures r.Ok? ==> Snapshot(r.value) == Bred(Snapshot(population), fitnesses, eliteSize, draws, inputSize, hiddenSize, outputSize).value
    ensures r.Ok? ==> forall k :: 0 <= k < |r.value| ==> fresh(r.value[k]) && r.value[k].Valid()
  {
    ghost var ps := Snapshot(population);
    var n := |population|;
    var e := EliteCount(n, |fitnesses|, eliteSize);
    var pool := PoolSize(n, |fitnesses|);
    var order := Ranking(fitnesses, Paired(n, |fitnesses|));
    if e < n && pool == 0 {
      // the first `random.choice` of the filling loop raises
      return Err(EmptyChoice);
    }
    BredSize(ps, fitnesses, eliteSize, draws, inputSize, hiddenSize, outputSize);
    ghost var bred := Bred(ps, fitnesses, eliteSize, draws, inputSize, hiddenSize, outputSize).value;
    var next: seq<NeuralNetwork> := [];
    while |next| < n
      invariant |next| <= n
      invariant Snapshot(population) == ps
      invariant forall k :: 0 <= k < |next| ==> fresh(next[k]) && next[k].Params() == bred[k] && next[k].Valid()
      decreases n - |next|
    {
      var child := Newborn(population, fitnesses, eliteSize, draws, order, inputSize, hiddenSize, outputSize, |next|);
      next := next + [child];
    }
    assert Snapshot(next) == bred;
    return Ok(next);
  }
}
