/**
 * The part of the Keras library the stacked autoencoder relies on, reduced to its
 * discrete bookkeeping: layer objects that carry a width, an activation tag, a
 * trainable flag and weights; models that own an ordered list of such layers;
 * `compile`, which records which layers are trainable; `fit`, which replaces the
 * weight values of exactly those layers by values the model does not compute; and
 * `to_categorical`, of which only the one-hot shape is kept.
 */
module Backend {
  import opened Errors

  /** One weight array: its shape and its (opaque) values. */
  datatype Tensor = Tensor(shape: seq<int>, values: seq<real>)

  /**
   * Values chosen outside the model: the random initialiser for a new layer, or the
   * optimiser during `fit`. `draw(i, k)` gives the values of weight array `k` of the
   * layer at position `i` of a model.
   */
  type Draw = (nat, nat) -> seq<real>

  /** What kind of layer an entry of a model is, and its output width. */
  datatype LayerSpec =
    | InputSpec(dim: int)                        // keras.layers.Input(shape=(dim,))
    | DenseSpec(units: int, activation: string)  // keras.layers.Dense(units, activation=...)
  {
    function Width(): int {
      match this
      case InputSpec(dim) => dim
      case DenseSpec(units, _) => units
    }
  }

  /**
   * The weights `set_weights` accepts for a layer: none for an input layer; for a dense
   * layer fed by `fanIn` values, a `fanIn x units` kernel followed by a bias of `units`.
   */
  predicate Conforms(ws: seq<Tensor>, spec: LayerSpec, fanIn: int) {
    match spec
    case InputSpec(_) => ws == []
    case DenseSpec(units, _) => |ws| == 2 && ws[0].shape == [fanIn, units] && ws[1].shape == [units]
  }

  /** The weights a layer created at position `index` starts with, as drawn by the initialiser. */
  function Initial(spec: LayerSpec, fanIn: int, index: nat, init: Draw): (r: seq<Tensor>)
    ensures Conforms(r, spec, fanIn)
  {
    match spec
    case InputSpec(_) => []
    case DenseSpec(units, _) => [Tensor([fanIn, units], init(index, 0)), Tensor([units], init(index, 1))]
  }

  /** The weights of the layer at `index` after a `fit` that trained it: same shapes, new values. */
  function Retrained(ws: seq<Tensor>, index: nat, step: Draw): (r: seq<Tensor>)
    ensures |r| == |ws|
    ensures forall k :: 0 <= k < |ws| ==> r[k].shape == ws[k].shape && r[k].values == step(index, k)
  {
    seq(|ws|, k requires 0 <= k < |ws| => Tensor(ws[k].shape, step(index, k)))
  }

  /**
   * Python's list indexing `xs[i]` for a list of length `len`: a non-negative index
   * counts from the front, a negative one from the back; anything else is an IndexError.
   */
  function PyIndex(len: nat, i: int): (r: Option<nat>)
    ensures r.Some? <==> -(len as int) <= i < len
    ensures r.Some? ==> r.value < len && (r.value == i || r.value == len + i)
  {
    if 0 <= i < len then Some(i)
    else if -(len as int) <= i < 0 then Some(len + i)
    else None
  }

  /**
   * One layer object. Several models may hold the same layer object. The shapes of its
   * weights are fixed when it is built (by its kind, width and fan-in); what changes is
   * whether it is trainable and the values its kernel and bias hold.
   */
  class Layer {
    const spec: LayerSpec
    const fanIn: int
    var trainable: bool
    var kernel: seq<real>   // unused by an input layer, which has no weights
    var bias: seq<real>     // unused by an input layer

    /** `get_weights()`: the layer's weight arrays, which always have the shapes it accepts. */
    function Weights(): (r: seq<Tensor>)
      reads this
      ensures Conforms(r, spec, fanIn)
    {
      match spec
      case InputSpec(_) => []
      case DenseSpec(units, _) => [Tensor([fanIn, units], kernel), Tensor([units], bias)]
    }

    /** The state a layer is created in at position `index`: trainable iff dense, initial values. */
    ghost predicate Created(index: nat, init: Draw)
      reads this
    {
      trainable == spec.DenseSpec? && kernel == init(index, 0) && bias == init(index, 1)
    }

    /** A layer in its created state holds the weights the initialiser drew for it. */
    lemma CreatedWeights(index: nat, init: Draw)
      requires Created(index, init)
      ensures Weights() == Initial(spec, fanIn, index, init)
    {
    }

    /** A layer created at position `index` of a model. */
    constructor (spec: LayerSpec, fanIn: int, index: nat, init: Draw)
      ensures Created(index, init)
      ensures this.spec == spec && this.fanIn == fanIn
    {
      this.spec := spec;
      this.fanIn := fanIn;
      trainable := spec.DenseSpec?;
      kernel := init(index, 0);
      bias := init(index, 1);
    }

    /**
     * `set_weights(ws)`: a list of arrays of another count or other shapes than the
     * layer's weights is a ValueError; otherwise the layer takes their values.
     */
    method SetWeights(ws: seq<Tensor>) returns (r: Outcome)
      modifies this
      ensures r == if Conforms(ws, spec, fanIn) then Pass else Fail(ValueError)
      ensures Weights() == if r.Pass? then ws else old(Weights())
      ensures trainable == old(trainable)
    {
      if !Conforms(ws, spec, fanIn) {
        return Fail(ValueError);
      }
      if spec.DenseSpec? {
        kernel, bias := ws[0].values, ws[1].values;
      }
      r := Pass;
    }

    /** One `fit` of a model that holds this layer at `index` and trains it. */
    method Train(index: nat, step: Draw)
      modifies this
      ensures Weights() == Retrained(old(Weights()), index, step)
      ensures trainable == old(trainable)
    {
      kernel, bias := step(index, 0), step(index, 1);
      assert spec.DenseSpec? ==> Weights() == Retrained(old(Weights()), index, step);
    }
  }

  /** The kinds and widths of a list of layers. */
  function Specs(layers: seq<Layer>): (r: seq<LayerSpec>)
    ensures |r| == |layers|
    ensures forall i :: 0 <= i < |layers| ==> r[i] == layers[i].spec
  {
    seq(|layers|, i requires 0 <= i < |layers| => layers[i].spec)
  }

  /**
   * A graph built with the functional API along a single chain: position 0 is an input
   * layer and every later layer is a dense layer fed by the one before it.
   */
  predicate Chained(layers: seq<Layer>) {
    && |layers| >= 1
    && layers[0].spec.InputSpec?
    && forall i :: 1 <= i < |layers| ==>
         layers[i].spec.DenseSpec? && layers[i].fanIn == layers[i - 1].spec.Width()
  }

  /** No layer object occurs twice. */
  predicate Distinct(layers: seq<Layer>) {
    forall i, j :: 0 <= i < j < |layers| ==> layers[i] != layers[j]
  }

  /**
   * `g` is a chain of distinct layers whose kinds and widths are `specs`, each still in
   * the state it was created in at its position.
   */
  ghost predicate Grown(g: seq<Layer>, specs: seq<LayerSpec>, init: Draw)
    reads g
  {
    && Chained(g) && Distinct(g) && |g| == |specs|
    && forall i :: 0 <= i < |g| ==> g[i].spec == specs[i] && g[i].Created(i, init)
  }

  /** Appending an object not yet in a list keeps its entries distinct. */
  lemma DistinctExtend(layers: seq<Layer>, l: Layer)
    requires Distinct(layers) && l !in layers
    ensures Distinct(layers + [l])
  {
  }

  /**
   * `Dense(width, activation)(t)` where `t` is the output of the last layer of `graph`:
   * a new dense layer fed by that output; `out` is the position of the new output.
   */
  method ApplyDense(graph: seq<Layer>, width: int, activation: string, init: Draw)
    returns (graph': seq<Layer>, out: nat)
    requires Chained(graph) && Distinct(graph)
    ensures Chained(graph') && Distinct(graph')
    ensures out == |graph| && |graph'| == out + 1
    ensures forall i :: 0 <= i < out ==> graph'[i] == graph[i]
    ensures fresh(graph'[out]) && graph'[out].Created(out, init)
    ensures graph'[out].spec == DenseSpec(width, activation)
    ensures graph'[out].fanIn == graph[out - 1].spec.Width()
  {
    out := |graph|;
    var l := new Layer(DenseSpec(width, activation), graph[out - 1].spec.Width(), out, init);
    DistinctExtend(graph, l);
    graph' := graph + [l];
  }

  /** A layer table a chain can be built from: an input layer followed by dense layers. */
  predicate ChainPlan(plan: seq<LayerSpec>) {
    |plan| >= 1 && plan[0].InputSpec? && forall i :: 1 <= i < |plan| ==> plan[i].DenseSpec?
  }

  /**
   * The layer objects of a table, created in order, each fed by the one before it:
   * what `Model(input, output)` holds after the table was built with the functional API.
   */
  method Materialise(plan: seq<LayerSpec>, init: Draw) returns (layers: seq<Layer>)
    requires ChainPlan(plan)
    ensures Grown(layers, plan, init)
    ensures forall i :: 0 <= i < |layers| ==> fresh(layers[i])
  {
    var input := new Layer(plan[0], plan[0].dim, 0, init);
    layers := [input];
    for i := 1 to |plan|
      invariant |layers| == i
      invariant Chained(layers) && Distinct(layers)
      invariant forall j :: 0 <= j < i ==> layers[j].spec == plan[j]
      invariant forall j :: 0 <= j < i ==> fresh(layers[j])
      invariant forall j :: 0 <= j < i ==> layers[j].Created(j, init)
    {
      var out;
      layers, out := ApplyDense(layers, plan[i].units, plan[i].activation, init);
    }
  }

  /** A Keras model: the layers between its input and its output, in order. */
  class Network {
    const layers: seq<Layer>
    var compiled: bool
    /** The layers that were trainable when the model was last compiled. */
    var collected: set<Layer>

    /** The layer objects this model holds (possibly shared with other models). */
    ghost function Objects(): (r: set<object>)
      ensures forall i :: 0 <= i < |layers| ==> layers[i] in r
    {
      set i | 0 <= i < |layers| :: layers[i] as object
    }

    /** The layers form a chain of distinct objects; this never changes. */
    ghost predicate Valid() {
      Chained(layers) && Distinct(layers)
    }

    /** `Model(input, output)`: a model over the chain of layers from `input` to `output`. */
    constructor (layers: seq<Layer>)
      requires Chained(layers) && Distinct(layers)
      ensures Valid() && this.layers == layers
      ensures !compiled && collected == {}
    {
      this.layers := layers;
      compiled := false;
      collected := {};
    }

    /** `compile`: from now on `fit` trains the layers that are trainable at this moment. */
    method Compile()
      requires Valid()
      modifies this
      ensures compiled
      ensures forall i :: 0 <= i < |layers| ==> (layers[i] in collected <==> layers[i].trainable)
      ensures forall l :: l in collected ==> l in layers
    {
      compiled := true;
      collected := set l | l in layers && l.trainable;
    }

    /**
     * `fit`: every layer collected at compile time gets new weight values of the same
     * shapes; every other layer and every trainable flag is left alone.
     */
    method Fit(step: Draw)
      requires Valid() && compiled
      modifies layers
      ensures forall i :: 0 <= i < |layers| ==>
                layers[i].Weights() ==
                  (if layers[i] in collected then Retrained(old(layers[i].Weights()), i, step)
                   else old(layers[i].Weights()))
      ensures forall i :: 0 <= i < |layers| ==> layers[i].trainable == old(layers[i].trainable)
    {
      for i := 0 to |layers|
        invariant forall j :: 0 <= j < |layers| ==> layers[j].trainable == old(layers[j].trainable)
        invariant forall j :: 0 <= j < i ==>
                    layers[j].Weights() ==
                      (if layers[j] in collected then Retrained(old(layers[j].Weights()), j, step)
                       else old(layers[j].Weights()))
        invariant forall j :: i <= j < |layers| ==> layers[j].Weights() == old(layers[j].Weights())
      {
        if layers[i] in collected {
          layers[i].Train(i, step);
        }
      }
    }
  }

  /** The one-hot row of label `y`: `n` entries, a 1 at position `y` and 0 elsewhere. */
  function OneHot(y: nat, n: nat): (row: seq<int>)
    requires y < n
    ensures |row| == n
  {
    seq(n, j => if j == y then 1 else 0)
  }

  /**
   * `to_categorical(ys, n)`: one one-hot row of width `n` per label; a label outside
   * `[0, n)` is an IndexError. `ToCategoricalRows` states what the rows hold.
   */
  function ToCategorical(ys: seq<int>, n: nat): (r: Result<seq<seq<int>>>)
    ensures r.Failure? ==> r.error == IndexError
  {
    if ys == [] then Success([])
    else if !(0 <= ys[0] < n) then Failure(IndexError)
    else
      match ToCategorical(ys[1..], n)
      case Failure(e) => Failure(e)
      case Success(rows) => Success([OneHot(ys[0], n)] + rows)
  }

  /**
   * The encoding succeeds exactly when every label lies in `[0, n)`, and then row `i` has
   * width `n`, a 1 in column `ys[i]` and 0 everywhere else.
   */
  lemma {:induction false} ToCategoricalRows(ys: seq<int>, n: nat)
    ensures ToCategorical(ys, n).Success? <==> forall i :: 0 <= i < |ys| ==> 0 <= ys[i] < n
    ensures ToCategorical(ys, n).Success? ==>
              var rows := ToCategorical(ys, n).value;
              && |rows| == |ys|
              && (forall i :: 0 <= i < |ys| ==> |rows[i]| == n && rows[i][ys[i]] == 1)
              && (forall i, j :: 0 <= i < |ys| && 0 <= j < n && j != ys[i] ==> rows[i][j] == 0)
  {
    if ys != [] {
      ToCategoricalRows(ys[1..], n);
      if 0 <= ys[0] < n && ToCategorical(ys[1..], n).Success? {
        var rows := ToCategorical(ys, n).value;
        var rest := ToCategorical(ys[1..], n).value;
        assert rows == [OneHot(ys[0], n)] + rest;
        forall i | 1 <= i < |ys|
          ensures rows[i] == rest[i - 1] && ys[i] == ys[1..][i - 1]
        {
        }
      }
    }
  }

  function Sum(s: seq<int>): int {
    if s == [] then 0 else Sum(s[..|s| - 1]) + s[|s| - 1]
  }

  /** An indicator row of width `n` sums to 1 exactly when its marked position lies inside it. */
  lemma {:induction false} SumIndicator(n: nat, y: int)
    ensures Sum(seq(n, j => if j == y then 1 else 0)) == if 0 <= y < n then 1 else 0
  {
    var row := seq(n, j => if j == y then 1 else 0);
    if n > 0 {
      assert row[..n - 1] == seq(n - 1, j => if j == y then 1 else 0);
      SumIndicator(n - 1, y);
    }
  }

  /** Every one-hot row holds exactly one 1: its entries sum to 1. */
  lemma OneHotSumsToOne(y: nat, n: nat)
    requires y < n
    ensures Sum(OneHot(y, n)) == 1
  {
    SumIndicator(n, y);
  }
}
