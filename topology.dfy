/**
 * `DeepAutoEncoder`: the topology builder. It clamps the depth, resolves the `units`
 * argument into one width per encoder layer, and builds a chain of layers
 *
 *   position 0            the input layer, of width `input_dim`
 *   positions 1 .. n      the encoder: widths units[0], ..., units[n-1]
 *   positions n+1 .. 2n-1 the decoder's hidden layers: widths units[n-1], ..., units[1]
 *   position 2n           the sigmoid reconstruction layer, of width `input_dim`
 *
 * and addresses the layers of that chain by position to freeze, unfreeze, read and
 * overwrite them.
 */
module Topology {
  import opened Errors
  import opened Backend

  /** The `units` argument: any value that is not a Python list, or a list of widths. */
  datatype Units = Scalar(width: int) | List(widths: seq<int>)

  /** The stored depth: the requested one, raised to 1 when it is 1 or less. */
  function ClampLayers(n: int): (r: nat)
    ensures r >= 1 && r >= n
    ensures r == 1 || r == n
  {
    if n > 1 then n else 1
  }

  /** Asking for no layers, or a negative number of them, builds the same as asking for one. */
  lemma ClampFloor(n: int)
    requires n <= 1
    ensures ClampLayers(n) == ClampLayers(1) == 1
  {
  }

  /**
   * `set_units`: a scalar is repeated once per layer; a list is taken as it is when it
   * has one entry per layer and raises RuntimeError otherwise.
   */
  function ResolveUnits(n: nat, units: Units): (r: Result<seq<int>>)
    ensures units.Scalar? ==> r.Success? && |r.value| == n
    ensures units.Scalar? ==> forall i :: 0 <= i < n ==> r.value[i] == units.width
    ensures units.List? ==> (r.Success? <==> |units.widths| == n)
    ensures units.List? && r.Success? ==> r.value == units.widths
    ensures r.Failure? ==> r.error.RuntimeError?
    ensures r.Success? ==> |r.value| == n
  {
    match units
    case List(widths) =>
      if |widths| != n then Failure(RuntimeError("List of units doesn't match the number of layers."))
      else Success(widths)
    case Scalar(width) => Success(seq(n, _ => width))
  }

  /** `[units[e], units[e-1], ..., units[1]]`: the widths the loop over `range(e, 0, -1)` visits. */
  function Descending(units: seq<int>, e: nat): (r: seq<int>)
    requires e < |units|
    ensures |r| == e
  {
    if e == 0 then [] else [units[e]] + Descending(units, e - 1)
  }

  lemma {:induction false} DescendingAt(units: seq<int>, e: nat, k: nat)
    requires e < |units| && k < e
    ensures Descending(units, e)[k] == units[e - k]
  {
    if k > 0 {
      DescendingAt(units, e - 1, k - 1);
    }
  }

  /** The reverse of a sequence, defined independently of the decoder loop. */
  function Reverse(s: seq<int>): (r: seq<int>)
    ensures |r| == |s|
  {
    if s == [] then [] else Reverse(s[1..]) + [s[0]]
  }

  lemma {:induction false} ReverseAt(s: seq<int>, k: nat)
    requires k < |s|
    ensures Reverse(s)[k] == s[|s| - 1 - k]
  {
    if k < |s| - 1 {
      ReverseAt(s[1..], k);
    }
  }

  /** Entry `k` of the decoder's hidden widths is entry `k` of the reversed tail. */
  lemma {:induction false} DecoderWidthAt(units: seq<int>, k: nat)
    requires k < |units| - 1
    ensures Descending(units, |units| - 1)[k] == Reverse(units[1..])[k]
  {
    var e := |units| - 1;
    var tail := units[1..];
    assert |tail| == e;
    DescendingAt(units, e, k);
    ReverseAt(tail, k);
    assert tail[e - 1 - k] == units[e - k];
  }

  /**
   * The decoder's hidden widths are the encoder's widths reversed WITHOUT the first one:
   * the bottleneck width comes twice in a row and `units[0]` never appears.
   */
  lemma DecoderWidthsReverseTail(units: seq<int>)
    requires |units| >= 1
    ensures Descending(units, |units| - 1) == Reverse(units[1..])
  {
    var d, r := Descending(units, |units| - 1), Reverse(units[1..]);
    forall k | 0 <= k < |d|
      ensures d[k] == r[k]
    {
      DecoderWidthAt(units, k);
    }
  }

  /** Dense layers of the given widths, all with one activation. */
  function DenseLayers(widths: seq<int>, activation: string): (r: seq<LayerSpec>)
    ensures |r| == |widths|
    ensures forall i :: 0 <= i < |widths| ==> r[i] == DenseSpec(widths[i], activation)
  {
    seq(|widths|, i requires 0 <= i < |widths| => DenseSpec(widths[i], activation))
  }

  /** The layer table `DeepAutoEncoder(len(units), units, input_dim, activation)` builds. */
  function Plan(units: seq<int>, inputDim: int, activation: string): (r: seq<LayerSpec>)
    requires |units| >= 1
    ensures |r| == 2 * |units| + 1
  {
    [InputSpec(inputDim)]
      + DenseLayers(units, activation)
      + DenseLayers(Descending(units, |units| - 1), activation)
      + [DenseSpec(inputDim, "sigmoid")]
  }

  /** The positional layout of the layer table, entry by entry. */
  lemma PlanLayout(units: seq<int>, inputDim: int, activation: string)
    requires |units| >= 1
    ensures Plan(units, inputDim, activation)[0] == InputSpec(inputDim)
    ensures forall i :: 1 <= i <= |units| ==>
              Plan(units, inputDim, activation)[i] == DenseSpec(units[i - 1], activation)
    ensures forall i :: |units| < i < 2 * |units| ==>
              Plan(units, inputDim, activation)[i] == DenseSpec(units[2 * |units| - i], activation)
    ensures Plan(units, inputDim, activation)[2 * |units|] == DenseSpec(inputDim, "sigmoid")
  {
    var n := |units|;
    var p := Plan(units, inputDim, activation);
    forall i | n < i < 2 * n
      ensures p[i] == DenseSpec(units[2 * n - i], activation)
    {
      DescendingAt(units, n - 1, i - n - 1);
    }
  }

  /** A table laid out entry by entry as `PlanLayout` describes is the plan itself. */
  lemma BuiltIsPlan(units: seq<int>, inputDim: int, activation: string, table: seq<LayerSpec>)
    requires |units| >= 1 && |table| == 2 * |units| + 1
    requires table[0] == InputSpec(inputDim)
    requires forall i :: 1 <= i <= |units| ==> table[i] == DenseSpec(units[i - 1], activation)
    requires forall i :: |units| < i < 2 * |units| ==> table[i] == DenseSpec(units[2 * |units| - i], activation)
    requires table[2 * |units|] == DenseSpec(inputDim, "sigmoid")
    ensures table == Plan(units, inputDim, activation)
  {
    PlanLayout(units, inputDim, activation);
  }

  /** In a table of depth 2 or more, the first decoder layer repeats the bottleneck. */
  lemma BottleneckRepeated(units: seq<int>, inputDim: int, activation: string)
    requires |units| >= 2
    ensures Plan(units, inputDim, activation)[|units| + 1] == Plan(units, inputDim, activation)[|units|]
    ensures Plan(units, inputDim, activation)[|units| + 1] == DenseSpec(units[|units| - 1], activation)
  {
  }

  /** The one-layer table the trainer builds first: input -> u -> input. */
  lemma OneLayerPlan(u: int, inputDim: int, activation: string)
    ensures Plan([u], inputDim, activation)
         == [InputSpec(inputDim), DenseSpec(u, activation), DenseSpec(inputDim, "sigmoid")]
  {
  }

  /** The two-layer table the trainer builds: input -> u1 -> u2 -> u2 -> input. */
  lemma TwoLayerPlan(u1: int, u2: int, inputDim: int)
    ensures Plan([u1, u2], inputDim, "relu")
         == [InputSpec(inputDim), DenseSpec(u1, "relu"), DenseSpec(u2, "relu"),
             DenseSpec(u2, "relu"), DenseSpec(inputDim, "sigmoid")]
  {
  }

  /** `[lo, lo + 1, ..., hi - 1]`: the positions of consecutive layers. */
  function Span(lo: nat, hi: nat): (r: seq<nat>)
    requires lo <= hi
    ensures |r| == hi - lo
    ensures forall k :: 0 <= k < hi - lo ==> r[k] == lo + k
  {
    seq(hi - lo, k requires 0 <= k < hi - lo => lo + k)
  }

  /**
   * The topology builder. `encoderLayers` and `decoderLayers` hold symbolic outputs,
   * each named by the position in `model.layers` of the layer producing it.
   */
  class DeepAutoEncoder {
    const nLayers: nat
    const units: seq<int>
    const activation: string
    const inputDim: int
    const model: Network
    const encoderLayers: seq<nat>
    const decoderLayers: seq<nat>

    /** The layer table is the plan for `units`; this never changes. */
    ghost predicate Valid() {
      && nLayers >= 1 && |units| == nLayers
      && model.Valid()
      && Specs(model.layers) == Plan(units, inputDim, activation)
      && encoderLayers == Span(1, nLayers + 1)
      && decoderLayers == Span(nLayers, 2 * nLayers)
    }

    /** Every layer is as created: not compiled, dense layers trainable, initial weights. */
    ghost predicate Untrained(init: Draw)
      reads model, model.layers
    {
      && !model.compiled
      && forall i :: 0 <= i < |model.layers| ==> model.layers[i].Created(i, init)
    }

    /**
     * `DeepAutoEncoder(n_layers, units, input_dim, activation)`: clamps the depth,
     * resolves the units (raising RuntimeError before anything is built) and builds the
     * layer table.
     */
    static method New(nLayers: int, units: Units, inputDim: int, activation: string, init: Draw)
      returns (r: Result<DeepAutoEncoder>)
      ensures r.Success? <==> ResolveUnits(ClampLayers(nLayers), units).Success?
      ensures r.Failure? ==> r.error == ResolveUnits(ClampLayers(nLayers), units).error
      ensures r.Success? ==>
                && fresh(r.value) && fresh(r.value.model) && fresh(r.value.model.Objects())
                && r.value.Valid() && r.value.Untrained(init)
                && r.value.nLayers == ClampLayers(nLayers)
                && r.value.units == ResolveUnits(ClampLayers(nLayers), units).value
                && r.value.inputDim == inputDim && r.value.activation == activation
    {
      var n := ClampLayers(nLayers);
      match ResolveUnits(n, units)
      case Failure(e) =>
        r := Failure(e);
      case Success(widths) =>
        var ae := new DeepAutoEncoder(n, widths, inputDim, activation, init);
        r := Success(ae);
    }

    /** The build itself, once the depth and the widths are settled. */
    constructor (n: nat, widths: seq<int>, inputDim: int, activation: string, init: Draw)
      requires n >= 1 && |widths| == n
      ensures Valid() && Untrained(init)
      ensures fresh(model) && fresh(model.Objects())
      ensures nLayers == n && units == widths
      ensures this.inputDim == inputDim && this.activation == activation
    {
      nLayers := n;
      units := widths;
      this.activation := activation;
      this.inputDim := inputDim;
      var encoded, encoders := Encoder(widths, activation, [InputSpec(inputDim)]);
      var decoded, decoders := Decoder(widths, inputDim, activation, encoded);
      encoderLayers := encoders;
      decoderLayers := decoders;
      BuiltIsPlan(widths, inputDim, activation, decoded);
      var layers := Materialise(decoded, init);
      model := new Network(layers);
    }

    /**
     * `encoder(input)`: on top of the input layer, one dense layer per entry of `units`,
     * each fed by the previous one; `encoderLayers` names their outputs.
     */
    static method Encoder(units: seq<int>, activation: string, input: seq<LayerSpec>)
      returns (encoded: seq<LayerSpec>, encoderLayers: seq<nat>)
      requires |units| >= 1 && |input| == 1
      ensures |encoded| == |units| + 1 && encoded[0] == input[0]
      ensures forall i :: 1 <= i <= |units| ==> encoded[i] == DenseSpec(units[i - 1], activation)
      ensures encoderLayers == Span(1, |units| + 1)
    {
      encoded := input + [DenseSpec(units[0], activation)];
      encoderLayers := [|encoded| - 1];
      if |units| > 1 {
        for e := 1 to |units|
          invariant |encoded| == e + 1 && encoded[0] == input[0]
          invariant forall i :: 1 <= i <= e ==> encoded[i] == DenseSpec(units[i - 1], activation)
          invariant encoderLayers == Span(1, e + 1)
        {
          encoded := encoded + [DenseSpec(units[e], activation)];
          encoderLayers := encoderLayers + [|encoded| - 1];
        }
      }
    }

    /**
     * `decoder(encoded)`: dense layers of widths units[n-1] down to units[1], then the
     * sigmoid layer of width `inputDim`; `decoderLayers` names the encoder's last output
     * and the hidden decoder outputs, not the sigmoid layer's.
     */
    static method Decoder(units: seq<int>, inputDim: int, activation: string, encoded: seq<LayerSpec>)
      returns (decoded: seq<LayerSpec>, decoderLayers: seq<nat>)
      requires |units| >= 1 && |encoded| == |units| + 1
      ensures |decoded| == 2 * |units| + 1 && decoded[..|units| + 1] == encoded
      ensures forall i :: |units| < i < 2 * |units| ==> decoded[i] == DenseSpec(units[2 * |units| - i], activation)
      ensures decoded[2 * |units|] == DenseSpec(inputDim, "sigmoid")
      ensures decoderLayers == Span(|units|, 2 * |units|)
    {
      var n := |units|;
      decoded := encoded;
      decoderLayers := [|decoded| - 1];
      var e := n - 1;
      while e > 0
        invariant 0 <= e <= n - 1
        invariant |decoded| == 2 * n - e && decoded[..n + 1] == encoded
        invariant forall i :: n < i < 2 * n - e ==> decoded[i] == DenseSpec(units[2 * n - i], activation)
        invariant decoderLayers == Span(n, 2 * n - e)
      {
        decoded := decoded + [DenseSpec(units[e], activation)];
        decoderLayers := decoderLayers + [|decoded| - 1];
        e := e - 1;
      }
      decoded := decoded + [DenseSpec(inputDim, "sigmoid")];
    }

    /** `freeze_layer(index)`: only the addressed layer stops being trainable. */
    method FreezeLayer(index: int) returns (r: Outcome)
      requires Valid()
      modifies model.layers
      ensures r.Pass? <==> PyIndex(|model.layers|, index).Some?
      ensures r.Fail? ==> r.error == IndexError
      ensures forall i :: 0 <= i < |model.layers| ==>
                model.layers[i].trainable ==
                  (if PyIndex(|model.layers|, index) == Some(i) then false else old(model.layers[i].trainable))
      ensures forall i :: 0 <= i < |model.layers| ==> model.layers[i].Weights() == old(model.layers[i].Weights())
    {
      match PyIndex(|model.layers|, index)
      case None =>
        r := Fail(IndexError);
      case Some(k) =>
        model.layers[k].trainable := false;
        r := Pass;
    }

    /** `defreeze_layer(index)`: only the addressed layer becomes trainable. */
    method DefreezeLayer(index: int) returns (r: Outcome)
      requires Valid()
      modifies model.layers
      ensures r.Pass? <==> PyIndex(|model.layers|, index).Some?
      ensures r.Fail? ==> r.error == IndexError
      ensures forall i :: 0 <= i < |model.layers| ==>
                model.layers[i].trainable ==
                  (if PyIndex(|model.layers|, index) == Some(i) then true else old(model.layers[i].trainable))
      ensures forall i :: 0 <= i < |model.layers| ==> model.layers[i].Weights() == old(model.layers[i].Weights())
    {
      match PyIndex(|model.layers|, index)
      case None =>
        r := Fail(IndexError);
      case Some(k) =>
        model.layers[k].trainable := true;
        r := Pass;
    }

    /**
     * `set_layer_weights(index, weights)`: replaces only the addressed layer's weights;
     * weights of another count or shape than the layer's are a ValueError.
     */
    method SetLayerWeights(index: int, weights: seq<Tensor>) returns (r: Outcome)
      requires Valid()
      modifies model.layers
      ensures PyIndex(|model.layers|, index).None? ==> r == Fail(IndexError)
      ensures PyIndex(|model.layers|, index).Some? ==>
                var k := PyIndex(|model.layers|, index).value;
                r == if Conforms(weights, model.layers[k].spec, model.layers[k].fanIn) then Pass else Fail(ValueError)
      ensures forall i :: 0 <= i < |model.layers| ==>
                model.layers[i].Weights() ==
                  (if r.Pass? && PyIndex(|model.layers|, index) == Some(i) then weights
                   else old(model.layers[i].Weights()))
      ensures forall i :: 0 <= i < |model.layers| ==> model.layers[i].trainable == old(model.layers[i].trainable)
    {
      match PyIndex(|model.layers|, index)
      case None =>
        r := Fail(IndexError);
      case Some(k) =>
        r := model.layers[k].SetWeights(weights);
    }

    /**
     * `get_layer_weights(index)`: the addressed layer's weights, which have exactly the
     * shapes `set_layer_weights` accepts at that position.
     */
    method GetLayerWeights(index: int) returns (r: Result<seq<Tensor>>)
      requires Valid()
      ensures r.Success? <==> PyIndex(|model.layers|, index).Some?
      ensures r.Failure? ==> r.error == IndexError
      ensures r.Success? ==> r.value == model.layers[PyIndex(|model.layers|, index).value].Weights()
      ensures r.Success? ==>
                var l := model.layers[PyIndex(|model.layers|, index).value];
                Conforms(r.value, l.spec, l.fanIn)
    {
      match PyIndex(|model.layers|, index)
      case None =>
        r := Failure(IndexError);
      case Some(k) =>
        r := Success(model.layers[k].Weights());
    }
  }
}
