/**
  The tabular Q-learning agent. The value table is one flat array of reals laid
  out row-major with shape `stateSize + [actionSize]`; a state is an index tuple
  into the first `|stateSize|` dimensions. Random draws are explicit parameters.
 */
module QLearning {

  // ---------------------------------------------------------------------------
  // Table layout

  /** Number of cells of an array with the given shape. */
  function Size(dims: seq<nat>): nat
  {
    if |dims| == 0 then 1 else Size(dims[..|dims| - 1]) * dims[|dims| - 1]
  }

  /** `idx` addresses a cell of an array with shape `dims`. */
  predicate InBounds(dims: seq<nat>, idx: seq<int>) {
    |idx| == |dims| && forall k :: 0 <= k < |idx| ==> 0 <= idx[k] < dims[k]
  }

  lemma MulMonotone(a: nat, b: nat, d: nat)
    requires a <= b
    ensures a * d <= b * d
  {
  }

  /** Row-major position of `idx` in an array of shape `dims`. */
  function Flatten(dims: seq<nat>, idx: seq<int>): (r: nat)
    requires InBounds(dims, idx)
    ensures r < Size(dims)
    decreases |dims|
  {
    if |dims| == 0 then 0
    else
      var k := |dims| - 1;
      var prefix := Flatten(dims[..k], idx[..k]);
      MulMonotone(prefix + 1, Size(dims[..k]), dims[k]);
      prefix * dims[k] + idx[k]
  }

  /** A position in a row of width `d` determines both row and column. */
  lemma MixedRadixUnique(a: nat, i: nat, b: nat, j: nat, d: nat)
    requires i < d && j < d && a * d + i == b * d + j
    ensures a == b && i == j
  {
    if a < b {
      MulMonotone(a + 1, b, d);
    } else if b < a {
      MulMonotone(b + 1, a, d);
    }
  }

  /** Distinct index tuples occupy distinct cells. */
  lemma {:induction false} FlattenInjective(dims: seq<nat>, x: seq<int>, y: seq<int>)
    requires InBounds(dims, x) && InBounds(dims, y)
    requires Flatten(dims, x) == Flatten(dims, y)
    ensures x == y
  {
    if |dims| > 0 {
      var k := |dims| - 1;
      MixedRadixUnique(Flatten(dims[..k], x[..k]), x[k], Flatten(dims[..k], y[..k]), y[k], dims[k]);
      FlattenInjective(dims[..k], x[..k], y[..k]);
      assert x == x[..k] + [x[k]];
      assert y == y[..k] + [y[k]];
    }
  }

  /** The cell holding the value of `action` in `state`. */
  function Cell(dims: seq<nat>, n: nat, state: seq<int>, action: int): (c: nat)
    requires InBounds(dims, state) && 0 <= action < n
    ensures c < Size(dims + [n])
  {
    assert InBounds(dims + [n], state + [action]);
    Flatten(dims + [n], state + [action])
  }

  /** Different (state, action) pairs never share a cell. */
  lemma CellInjective(dims: seq<nat>, n: nat, s: seq<int>, a: int, t: seq<int>, b: int)
    requires InBounds(dims, s) && 0 <= a < n
    requires InBounds(dims, t) && 0 <= b < n
    requires Cell(dims, n, s, a) == Cell(dims, n, t, b)
    ensures s == t && a == b
  {
    assert InBounds(dims + [n], s + [a]);
    assert InBounds(dims + [n], t + [b]);
    FlattenInjective(dims + [n], s + [a], t + [b]);
    assert s == (s + [a])[..|s|] && t == (t + [b])[..|t|];
    assert a == (s + [a])[|s|] && b == (t + [b])[|t|];
  }

  predicate WellShaped(table: seq<real>, dims: seq<nat>, n: nat) {
    |table| == Size(dims + [n])
  }

  /** The values of all `n` actions in `state`. */
  function Row(table: seq<real>, dims: seq<nat>, n: nat, state: seq<int>): (row: seq<real>)
    requires WellShaped(table, dims, n) && InBounds(dims, state)
    ensures |row| == n
  {
    seq(n, a requires 0 <= a < n => table[Cell(dims, n, state, a)])
  }

  // ---------------------------------------------------------------------------
  // Maximum and first maximum of a row

  /** `i` holds the largest value of `row`, and every earlier position holds a
      strictly smaller one. */
  predicate IsFirstMax(row: seq<real>, i: int) {
    0 <= i < |row| &&
    (forall j :: 0 <= j < |row| ==> row[j] <= row[i]) &&
    (forall j :: 0 <= j < i ==> row[j] < row[i])
  }

  /** Scanning one more position keeps the first maximum of the prefix seen so far. */
  lemma FirstMaxExtend(row: seq<real>, i: int, a: int)
    requires 0 <= i < |row| && IsFirstMax(row[..i], a)
    ensures IsFirstMax(row[..i + 1], if row[i] > row[a] then i else a)
  {
    assert row[..i + 1][..i] == row[..i];
  }

  lemma FirstMaxUnique(row: seq<real>, i: int, k: int)
    requires IsFirstMax(row, i) && IsFirstMax(row, k)
    ensures i == k
  {
    assert row[i] <= row[k] && row[k] <= row[i];
  }

  /** Largest value of a non-empty row. */
  function Max(row: seq<real>): (m: real)
    requires |row| > 0
    ensures forall j :: 0 <= j < |row| ==> row[j] <= m
    ensures exists j :: 0 <= j < |row| && row[j] == m
  {
    if |row| == 1 then row[0]
    else
      var m' := Max(row[..|row| - 1]);
      if row[|row| - 1] > m' then row[|row| - 1] else m'
  }

  /** Scanning one more position: the maximum of the longer prefix. */
  lemma MaxExtend(row: seq<real>, i: int)
    requires 0 < i < |row|
    ensures Max(row[..i + 1]) == if row[i] > Max(row[..i]) then row[i] else Max(row[..i])
  {
    assert row[..i + 1][..i] == row[..i];
  }

  /** First index holding the largest value of a non-empty row. */
  function ArgMax(row: seq<real>): (i: nat)
    requires |row| > 0
    ensures IsFirstMax(row, i)
  {
    if |row| == 1 then 0
    else
      var i' := ArgMax(row[..|row| - 1]);
      if row[|row| - 1] > row[i'] then |row| - 1 else i'
  }

  /** The first maximum holds the maximum. */
  lemma ArgMaxHoldsMax(row: seq<real>)
    requires |row| > 0
    ensures row[ArgMax(row)] == Max(row)
  {
  }

  // ---------------------------------------------------------------------------
  // The one-step update as a function on tables

  /** The table after one Q-learning update of `(state, action)`. The best value
      of `next` is read from the table before the write, and a terminal `next`
      is not treated differently. */
  function Updated(table: seq<real>, dims: seq<nat>, n: nat, alpha: real, gamma: real,
                   state: seq<int>, action: int, reward: real, next: seq<int>): (t: seq<real>)
    requires WellShaped(table, dims, n) && InBounds(dims, state) && InBounds(dims, next)
    requires 0 <= action < n
    ensures WellShaped(t, dims, n)
  {
    var c := Cell(dims, n, state, action);
    var bestNext := Max(Row(table, dims, n, next));
    table[c := table[c] + alpha * (reward + gamma * bestNext - table[c])]
  }

  /** An update rewrites the entry of `(state, action)` and no other entry. */
  lemma UpdateFrame(table: seq<real>, dims: seq<nat>, n: nat, alpha: real, gamma: real,
                    state: seq<int>, action: int, reward: real, next: seq<int>)
    requires WellShaped(table, dims, n) && InBounds(dims, state) && InBounds(dims, next)
    requires 0 <= action < n
    ensures var t := Updated(table, dims, n, alpha, gamma, state, action, reward, next);
      WellShaped(t, dims, n) &&
      forall s, a :: InBounds(dims, s) && 0 <= a < n && (s != state || a != action) ==>
        t[Cell(dims, n, s, a)] == table[Cell(dims, n, s, a)]
  {
    var c := Cell(dims, n, state, action);
    var t := Updated(table, dims, n, alpha, gamma, state, action, reward, next);
    forall s, a | InBounds(dims, s) && 0 <= a < n && (s != state || a != action)
      ensures t[Cell(dims, n, s, a)] == table[Cell(dims, n, s, a)]
    {
      if Cell(dims, n, s, a) == c {
        CellInjective(dims, n, s, a, state, action);
      }
    }
  }

  /** The entry of `(state, action)` moves by `alpha` times the temporal
      difference, whose bootstrap term is the best value of `next` in the table
      as it was before the write. */
  lemma UpdateTarget(table: seq<real>, dims: seq<nat>, n: nat, alpha: real, gamma: real,
                     state: seq<int>, action: int, reward: real, next: seq<int>)
    requires WellShaped(table, dims, n) && InBounds(dims, state) && InBounds(dims, next)
    requires 0 <= action < n
    ensures var c := Cell(dims, n, state, action);
      var t := Updated(table, dims, n, alpha, gamma, state, action, reward, next);
      |t| == |table| &&
      t[c] == table[c] + alpha * (reward + gamma * Max(Row(table, dims, n, next)) - table[c])
  {
  }

  /** The update rule moves an estimate `x` the fraction `alpha` of the way to
      the one-step target `y`; with `alpha` in [0, 1] the new estimate lies
      between the old one and the target. */
  lemma UpdateBetweenOldAndTarget(x: real, y: real, alpha: real)
    requires 0.0 <= alpha <= 1.0
    ensures x <= y ==> x <= x + alpha * (y - x) <= y
    ensures y <= x ==> y <= x + alpha * (y - x) <= x
  {
  }

  /** An entry that already equals its one-step target is left as it is. */
  lemma UpdateFixedPoint(table: seq<real>, dims: seq<nat>, n: nat, alpha: real, gamma: real,
                         state: seq<int>, action: int, reward: real, next: seq<int>)
    requires WellShaped(table, dims, n) && InBounds(dims, state) && InBounds(dims, next)
    requires 0 <= action < n
    requires table[Cell(dims, n, state, action)] == reward + gamma * Max(Row(table, dims, n, next))
    ensures Updated(table, dims, n, alpha, gamma, state, action, reward, next) == table
  {
    var c := Cell(dims, n, state, action);
    var td := reward + gamma * Max(Row(table, dims, n, next)) - table[c];
    assert td == 0.0;
    assert alpha * td == 0.0;
    assert table[c := table[c]] == table;
  }

  // ---------------------------------------------------------------------------
  // The agent object

  class Agent {
    const stateSize: seq<nat>
    const actionSize: nat
    const alpha: real := 0.1
    const gamma: real := 0.9
    const epsilon: real := 0.2
    /** The value table, `Size(stateSize + [actionSize])` cells. */
    const q: array<real>

    predicate Valid() {
      q.Length == Size(stateSize + [actionSize])
    }

    constructor (stateSize: seq<nat>, actionSize: nat)
      ensures this.stateSize == stateSize && this.actionSize == actionSize
      ensures Valid() && fresh(q)
      ensures forall i :: 0 <= i < q.Length ==> q[i] == 0.0
    {
      this.stateSize := stateSize;
      this.actionSize := actionSize;
      q := new real[Size(stateSize + [actionSize])](_ => 0.0);
    }

    /** The first action of highest value in `state`. */
    method Greedy(state: seq<int>) returns (a: int)
      requires Valid() && actionSize > 0 && InBounds(stateSize, state)
      ensures IsFirstMax(Row(q[..], stateSize, actionSize, state), a)
    {
      ghost var row := Row(q[..], stateSize, actionSize, state);
      a := 0;
      var best := q[Cell(stateSize, actionSize, state, 0)];
      var i := 1;
      while i < actionSize
        invariant 1 <= i <= actionSize
        invariant IsFirstMax(row[..i], a) && best == row[a]
      {
        var v := q[Cell(stateSize, actionSize, state, i)];
        assert v == row[i];
        FirstMaxExtend(row, i, a);
        if v > best {
          a, best := i, v;
        }
        i := i + 1;
      }
      assert row[..i] == row;
    }

    /** The largest value stored for `state`. */
    method BestValue(state: seq<int>) returns (m: real)
      requires Valid() && actionSize > 0 && InBounds(stateSize, state)
      ensures m == Max(Row(q[..], stateSize, actionSize, state))
    {
      ghost var row := Row(q[..], stateSize, actionSize, state);
      m := q[Cell(stateSize, actionSize, state, 0)];
      var i := 1;
      while i < actionSize
        invariant 1 <= i <= actionSize
        invariant m == Max(row[..i])
      {
        var v := q[Cell(stateSize, actionSize, state, i)];
        assert v == row[i];
        MaxExtend(row, i);
        if v > m {
          m := v;
        }
        i := i + 1;
      }
      assert row[..i] == row;
    }

    /** Epsilon-greedy choice. `draw` stands for the uniform draw from [0, 1]
        and `pick` for the uniformly random action used when exploring. */
    method ChooseAction(state: seq<int>, draw: real, pick: int) returns (a: int)
      requires Valid() && actionSize > 0 && InBounds(stateSize, state)
      requires 0.0 <= draw <= 1.0
      requires 0 <= pick <= actionSize - 1
      ensures 0 <= a < actionSize
      ensures draw < epsilon ==> a == pick
      ensures draw >= epsilon ==> a == ArgMax(Row(q[..], stateSize, actionSize, state))
    {
      if draw < epsilon {
        return pick;
      }
      a := Greedy(state);
      FirstMaxUnique(Row(q[..], stateSize, actionSize, state), a, ArgMax(Row(q[..], stateSize, actionSize, state)));
    }

    /** One-step Q-learning update of the entry for `(state, action)`. */
    method Update(state: seq<int>, action: int, reward: real, nextState: seq<int>)
      requires Valid() && InBounds(stateSize, state) && InBounds(stateSize, nextState)
      requires 0 <= action < actionSize
      modifies q
      ensures q[..] == Updated(old(q[..]), stateSize, actionSize, alpha, gamma, state, action, reward, nextState)
      ensures forall s, b :: InBounds(stateSize, s) && 0 <= b < actionSize && (s != state || b != action) ==>
        q[Cell(stateSize, actionSize, s, b)] == old(q[Cell(stateSize, actionSize, s, b)])
    {
      var bestNext := BestValue(nextState);
      var c := Cell(stateSize, actionSize, state, action);
      q[c] := q[c] + alpha * (reward + gamma * bestNext - q[c]);
      UpdateFrame(old(q[..]), stateSize, actionSize, alpha, gamma, state, action, reward, nextState);
    }
  }
}
