/**
 * `StackedAutoencoderTrain`: greedy layer-wise training in three stages.
 *
 *   1. a one-layer autoencoder is trained on the data;
 *   2. a two-layer autoencoder gets the first stage's encoder weights, freezes that
 *      layer, trains the rest and then freezes its second encoder layer too;
 *   3. a classifier is built on top of the second autoencoder's encoder, sharing its
 *      layer objects, and trained with one-hot labels.
 *
 * Each stage stores what later stages read in fields of the trainer; a stage that reads
 * a field no earlier stage assigned raises AttributeError.
 */
module Trainer {
  import opened Errors
  import opened Backend
  import opened Topology

  /** A numpy array, of which the model keeps only the shape. */
  datatype NdArray = NdArray(shape: seq<nat>)

  /** What `train_first_layer` records for the later stages. */
  datatype Session = Session(
    xTrain: NdArray, yTrain: seq<int>, xTest: NdArray, yTest: seq<int>,
    numUnits: int, inputDim: nat)

  /**
   * `train_first_layer`'s `DeepAutoEncoder(n_layers=1, ...)`, `compile` and `fit`: a
   * one-layer relu autoencoder, compiled and fitted. Only new objects are touched.
   */
  method FitFirstAutoencoder(numUnits: int, inputDim: nat, init: Draw, step: Draw) returns (ae: DeepAutoEncoder)
    ensures fresh(ae) && fresh(ae.model) && fresh(ae.model.Objects())
    ensures ae.Valid() && ae.nLayers == 1 && ae.units == [numUnits]
    ensures ae.inputDim == inputDim && ae.activation == "relu"
    ensures ae.model.compiled
    ensures ae.model.layers[0].Weights() == [] && !ae.model.layers[0].trainable
    ensures forall i :: 1 <= i < 3 ==>
              var l := ae.model.layers[i];
              l.trainable && l.Weights() == Retrained(Initial(l.spec, l.fanIn, i, init), i, step)
  {
    var built := DeepAutoEncoder.New(1, Scalar(numUnits), inputDim, "relu", init);
    assert built.Success?;
    ae := built.value;
    OneLayerPlan(numUnits, inputDim, "relu");
    ae.model.Compile();
    ae.model.Fit(step);
  }

  /**
   * `train_second_layer`'s `set_layer_weights(1, ...)` then `freeze_layer(1)`: layer 1 of
   * the fresh two-layer autoencoder gets the weights `first` and is frozen; nothing else
   * changes.
   */
  method TransplantFirst(ae: DeepAutoEncoder, first: seq<Tensor>)
    requires ae.Valid() && ae.nLayers == 2
    requires Conforms(first, ae.model.layers[1].spec, ae.model.layers[1].fanIn)
    modifies ae.model.layers
    ensures ae.Valid()
    ensures ae.model.layers[1].Weights() == first && !ae.model.layers[1].trainable
    ensures forall i :: 0 <= i < 5 && i != 1 ==>
              var l := ae.model.layers[i];
              l.Weights() == old(l.Weights()) && l.trainable == old(l.trainable)
  {
    var copied := ae.SetLayerWeights(1, first);
    assert copied.Pass?;
    var frozen := ae.FreezeLayer(1);
  }

  /**
   * `train_second_layer`'s `compile`, `fit` and `freeze_layer(2)`: compile and fit, then
   * freeze layer 2. With layer 1 frozen beforehand, fitting trains exactly the trainable
   * layers 2 to 4.
   */
  method FitInner(ae: DeepAutoEncoder, step: Draw)
    requires ae.Valid() && ae.nLayers == 2
    modifies ae.model, ae.model.layers
    ensures ae.Valid() && ae.model.compiled
    ensures forall i :: 0 <= i < 5 ==>
              var l := ae.model.layers[i];
              && (l in ae.model.collected <==> old(l.trainable))
              && l.Weights() == (if old(l.trainable) then Retrained(old(l.Weights()), i, step) else old(l.Weights()))
              && l.trainable == (old(l.trainable) && i != 2)
  {
    ae.model.Compile();
    ae.model.Fit(step);
    var frozen := ae.FreezeLayer(2);
  }

  /**
   * `train_second_layer` from `DeepAutoEncoder(n_layers=2, ...)` on: a two-layer relu
   * autoencoder whose layer 1 gets the weights `first` and is frozen before compiling, so
   * that fitting trains layers 2 to 4 only; layer 2 is frozen afterwards. Only new
   * objects are touched.
   */
  method FitSecondAutoencoder(numUnits: int, nUnits2: int, inputDim: nat, first: seq<Tensor>, init: Draw, step: Draw)
    returns (ae: DeepAutoEncoder)
    requires Conforms(first, DenseSpec(numUnits, "relu"), inputDim)
    ensures fresh(ae) && fresh(ae.model) && fresh(ae.model.Objects())
    ensures ae.Valid() && ae.nLayers == 2 && ae.units == [numUnits, nUnits2]
    ensures ae.inputDim == inputDim && ae.activation == "relu"
    ensures ae.model.compiled
    ensures ae.model.layers[1].Weights() == first && ae.model.layers[1] !in ae.model.collected
    ensures forall i :: 2 <= i < 5 ==>
              var l := ae.model.layers[i];
              l in ae.model.collected && l.Weights() == Retrained(Initial(l.spec, l.fanIn, i, init), i, step)
    ensures forall i :: 0 <= i < 5 ==> ae.model.layers[i].trainable == (i >= 3)
  {
    var built := DeepAutoEncoder.New(2, List([numUnits, nUnits2]), inputDim, "relu", init);
    assert built.Success?;
    ae := built.value;
    TwoLayerPlan(numUnits, nUnits2, inputDim);
    TransplantFirst(ae, first);
    FitInner(ae, step);
  }

  /**
   * `train_classifier`'s `Dense(n_classes, activation='softmax')` and `Model(...)`: a
   * softmax layer of `n` units on the output of `ae`'s second encoder layer, and a model
   * from `ae`'s input to it. The model holds `ae`'s input and encoder layer objects
   * themselves, not copies.
   */
  method AttachSoftmax(ae: DeepAutoEncoder, n: nat, init: Draw) returns (c: Network)
    requires ae.Valid() && ae.nLayers == 2
    ensures c.Valid() && fresh(c) && !c.compiled
    ensures |c.layers| == 4 && forall i :: 0 <= i < 3 ==> c.layers[i] == ae.model.layers[i]
    ensures fresh(c.layers[3]) && c.layers[3].Created(3, init)
    ensures c.layers[3].Weights() == Initial(c.layers[3].spec, c.layers[3].fanIn, 3, init)
    ensures c.layers[3].spec == DenseSpec(n, "softmax") && c.layers[3].fanIn == ae.units[1]
    ensures ae.model.layers[3] !in c.layers && ae.model.layers[4] !in c.layers
  {
    var shared := ae.model.layers;
    PlanLayout(ae.units, ae.inputDim, ae.activation);
    var graph, out := ApplyDense(shared[..ae.encoderLayers[1] + 1], n, "softmax", init);
    c := new Network(graph);
    c.layers[3].CreatedWeights(3, init);
  }

  /**
   * `train_classifier`'s `classifier.compile` and `classifier.fit`: the classifier is
   * compiled and fitted. It holds `ae`'s input and encoder layer objects, so those of
   * them that are trainable are trained with it; `ae`'s decoder layers are not touched.
   */
  method FitClassifier(ae: DeepAutoEncoder, n: nat, init: Draw, step: Draw) returns (c: Network)
    requires ae.Valid() && ae.nLayers == 2
    modifies ae.model.layers
    ensures ae.Valid() && c.Valid()
    ensures fresh(c) && c.compiled
    ensures |c.layers| == 4 && fresh(c.layers[3])
    ensures forall i :: 0 <= i < 3 ==> c.layers[i] == ae.model.layers[i]
    ensures c.layers[3].spec == DenseSpec(n, "softmax") && c.layers[3].fanIn == ae.units[1]
    ensures c.layers[3] in c.collected
    ensures forall l :: l in c.collected ==> l in c.layers
    ensures c.layers[3].Weights() == Retrained(Initial(c.layers[3].spec, c.layers[3].fanIn, 3, init), 3, step)
    ensures forall i :: 0 <= i < 3 ==>
              var l := ae.model.layers[i];
              && (l in c.collected <==> old(l.trainable))
              && l.trainable == old(l.trainable)
              && l.Weights() == (if old(l.trainable) then Retrained(old(l.Weights()), i, step) else old(l.Weights()))
    ensures forall i :: 3 <= i < 5 ==> unchanged(ae.model.layers[i])
  {
    c := AttachSoftmax(ae, n, init);
    c.Compile();
    c.Fit(step);
  }

  class StackedAutoencoderTrain {
    var autoencoder1: DeepAutoEncoder?
    var session: Option<Session>
    var numUnits2: Option<int>
    var autoencoder2: DeepAutoEncoder?
    var nClasses: Option<nat>
    var classesVector: Option<seq<int>>
    var yTrainEncoded: Option<seq<seq<int>>>
    var yTestEncoded: Option<seq<seq<int>>>
    var classifier: Network?

    /** The layer objects of an autoencoder that may not exist yet. */
    static function LayersOf(ae: DeepAutoEncoder?): seq<Layer> {
      if ae == null then [] else ae.model.layers
    }

    /**
     * How the stages' results hang together: each autoencoder is well formed and has
     * the depth its stage gives it, the two hold no layer object in common, and the
     * recorded session describes the first one.
     */
    static ghost predicate Linked(ae1: DeepAutoEncoder?, ae2: DeepAutoEncoder?, session: Option<Session>) {
      && (ae1 != null ==> ae1.Valid() && ae1.nLayers == 1)
      && (ae2 != null ==> ae2.Valid() && ae2.nLayers == 2)
      && (forall i, j :: 0 <= i < |LayersOf(ae1)| && 0 <= j < |LayersOf(ae2)| ==> LayersOf(ae1)[i] != LayersOf(ae2)[j])
      && (session.Some? ==>
            && ae1 != null && ae1.units == [session.value.numUnits]
            && ae1.inputDim == session.value.inputDim && ae1.activation == "relu")
    }

    ghost predicate Valid()
      reads this
    {
      Linked(autoencoder1, autoencoder2, session)
    }

    /** A trainer before any stage: no attribute is set. */
    constructor ()
      ensures Valid()
      ensures autoencoder1 == null && autoencoder2 == null && classifier == null
      ensures session.None? && numUnits2.None? && nClasses.None? && classesVector.None?
      ensures yTrainEncoded.None? && yTestEncoded.None?
    {
      autoencoder1, autoencoder2, classifier := null, null, null;
      session, numUnits2, nClasses, classesVector := None, None, None, None;
      yTrainEncoded, yTestEncoded := None, None;
    }

    /**
     * `train_first_layer`: a one-layer relu autoencoder as wide as the data's second
     * dimension, compiled and fitted; then the data and the sizes are recorded. Data with
     * fewer than two dimensions has no `shape[1]`: IndexError, before anything changes.
     */
    method TrainFirstLayer(numUnits: int, xTrain: NdArray, yTrain: seq<int>, xTest: NdArray, yTest: seq<int>,
                           init: Draw, step: Draw)
      returns (r: Outcome)
      requires Valid()
      modifies this
      ensures Valid()
      ensures r.Pass? <==> |xTrain.shape| >= 2
      ensures r.Fail? ==> r.error == IndexError && unchanged(this)
      ensures autoencoder2 == old(autoencoder2) && classifier == old(classifier) && numUnits2 == old(numUnits2)
      ensures nClasses == old(nClasses) && classesVector == old(classesVector)
      ensures yTrainEncoded == old(yTrainEncoded) && yTestEncoded == old(yTestEncoded)
      ensures r.Pass? ==>
                && session == Some(Session(xTrain, yTrain, xTest, yTest, numUnits, xTrain.shape[1]))
                && autoencoder1 != null && fresh(autoencoder1)
                && fresh(autoencoder1.model) && fresh(autoencoder1.model.Objects())
                && autoencoder1.units == [numUnits] && autoencoder1.inputDim == xTrain.shape[1]
                && autoencoder1.model.compiled
      ensures r.Pass? ==>
                var layers := autoencoder1.model.layers;
                && layers[0].Weights() == [] && !layers[0].trainable
                && forall i :: 1 <= i < 3 ==>
                     layers[i].trainable && layers[i].Weights() == Retrained(Initial(layers[i].spec, layers[i].fanIn, i, init), i, step)
    {
      if |xTrain.shape| < 2 {
        return Fail(IndexError);
      }
      var inputDim := xTrain.shape[1];
      autoencoder1 := FitFirstAutoencoder(numUnits, inputDim, init, step);
      session := Some(Session(xTrain, yTrain, xTest, yTest, numUnits, inputDim));
      r := Pass;
    }

    /**
     * `train_second_layer`: records the inner width, builds a two-layer relu autoencoder,
     * copies the first stage's trained encoder weights into its layer 1 and freezes it,
     * compiles and fits (training layers 2 to 4 only), then freezes layer 2. Without a
     * first stage there is no `num_units`: AttributeError, after the inner width is set.
     */
    method TrainSecondLayer(nUnits2: int, init: Draw, step: Draw) returns (r: Outcome)
      requires Valid()
      modifies this
      ensures Valid()
      ensures numUnits2 == Some(nUnits2)
      ensures r.Pass? <==> old(session).Some?
      ensures r.Fail? ==> r == Fail(AttributeError("num_units")) && autoencoder2 == old(autoencoder2)
      ensures autoencoder1 == old(autoencoder1) && session == old(session) && classifier == old(classifier)
      ensures nClasses == old(nClasses) && classesVector == old(classesVector)
      ensures yTrainEncoded == old(yTrainEncoded) && yTestEncoded == old(yTestEncoded)
      ensures autoencoder1 != null ==>
                forall i :: 0 <= i < |autoencoder1.model.layers| ==>
                  autoencoder1.model.layers[i].Weights() == old(autoencoder1.model.layers[i].Weights())
      ensures r.Pass? ==>
                && autoencoder2 != null && fresh(autoencoder2)
                && fresh(autoencoder2.model) && fresh(autoencoder2.model.Objects())
                && autoencoder2.activation == "relu"
                && autoencoder2.units == [session.value.numUnits, nUnits2]
                && autoencoder2.inputDim == session.value.inputDim
      ensures r.Pass? ==>
                var layers := autoencoder2.model.layers;
                && layers[1].Weights() == old(autoencoder1.model.layers[1].Weights())
                && layers[1] !in autoencoder2.model.collected
                && (forall i :: 2 <= i < 5 ==>
                      layers[i] in autoencoder2.model.collected
                      && layers[i].Weights() == Retrained(Initial(layers[i].spec, layers[i].fanIn, i, init), i, step))
                && (forall i :: 0 <= i < 5 ==> layers[i].trainable == (i >= 3))
    {
      numUnits2 := Some(nUnits2);
      if session.None? {
        return Fail(AttributeError("num_units"));
      }
      var s := session.value;
      OneLayerPlan(s.numUnits, s.inputDim, "relu");
      autoencoder2 := FitSecondAutoencoder(s.numUnits, nUnits2, s.inputDim, autoencoder1.model.layers[1].Weights(), init, step);
      r := Pass;
    }

    /**
     * `train_classifier` up to its `to_categorical` calls: records the class count and
     * list, then one-hot encodes the training labels and then the test labels. Without a
     * first stage there are no `y_train`: AttributeError; an out-of-range label is an
     * IndexError, and a failure on the test labels leaves the encoded training labels in
     * place.
     */
    method EncodeLabels(classes: seq<int>) returns (r: Outcome)
      requires Valid()
      modifies this
      ensures Valid()
      ensures nClasses == Some(|classes|) && classesVector == Some(classes)
      ensures autoencoder1 == old(autoencoder1) && autoencoder2 == old(autoencoder2)
      ensures session == old(session) && numUnits2 == old(numUnits2) && classifier == old(classifier)
      ensures r.Pass? <==>
                && session.Some?
                && ToCategorical(session.value.yTrain, |classes|).Success?
                && ToCategorical(session.value.yTest, |classes|).Success?
      ensures session.None? ==>
                r == Fail(AttributeError("y_train"))
                && yTrainEncoded == old(yTrainEncoded) && yTestEncoded == old(yTestEncoded)
      ensures session.Some? ==>
                var train := ToCategorical(session.value.yTrain, |classes|);
                var test := ToCategorical(session.value.yTest, |classes|);
                && yTrainEncoded == (if train.Success? then Some(train.value) else old(yTrainEncoded))
                && yTestEncoded == (if train.Success? && test.Success? then Some(test.value) else old(yTestEncoded))
                && (train.Failure? || test.Failure? ==> r == Fail(IndexError))
      ensures forall i :: 0 <= i < |LayersOf(autoencoder1)| ==> unchanged(LayersOf(autoencoder1)[i])
      ensures forall i :: 0 <= i < |LayersOf(autoencoder2)| ==>
                && LayersOf(autoencoder2)[i].trainable == old(LayersOf(autoencoder2)[i].trainable)
                && LayersOf(autoencoder2)[i].Weights() == old(LayersOf(autoencoder2)[i].Weights())
    {
      var n := |classes|;
      nClasses := Some(n);
      classesVector := Some(classes);
      if session.None? {
        return Fail(AttributeError("y_train"));
      }
      var s := session.value;
      var train := ToCategorical(s.yTrain, n);
      if train.Failure? {
        return Fail(train.error);
      }
      yTrainEncoded := Some(train.value);
      var test := ToCategorical(s.yTest, n);
      if test.Failure? {
        return Fail(test.error);
      }
      yTestEncoded := Some(test.value);
      r := Pass;
    }

    /**
     * `train_classifier` from its softmax `Dense` on: a softmax layer with one unit per
     * class on the second autoencoder's second encoder output, and a model from that
     * autoencoder's input to it, compiled and fitted. Without a second stage there is no
     * `autoencoder_2`: AttributeError.
     */
    method BuildClassifier(n: nat, init: Draw, step: Draw) returns (r: Outcome)
      requires Valid()
      modifies this, LayersOf(autoencoder2)
      ensures Valid()
      ensures autoencoder1 == old(autoencoder1) && autoencoder2 == old(autoencoder2)
      ensures session == old(session) && numUnits2 == old(numUnits2)
      ensures nClasses == old(nClasses) && classesVector == old(classesVector)
      ensures yTrainEncoded == old(yTrainEncoded) && yTestEncoded == old(yTestEncoded)
      ensures r.Pass? <==> autoencoder2 != null
      ensures r.Fail? ==> r == Fail(AttributeError("autoencoder_2"))
      ensures forall i :: 0 <= i < |LayersOf(autoencoder1)| ==> unchanged(LayersOf(autoencoder1)[i])
      ensures r.Fail? ==> classifier == old(classifier)
      ensures r.Pass? ==> classifier != null
      ensures r.Pass? ==>
                var layers := classifier.layers;
                var shared := autoencoder2.model.layers;
                && fresh(classifier) && classifier.compiled
                && |layers| == 4 && fresh(layers[3])
                && (forall i :: 0 <= i < 3 ==> layers[i] == shared[i])
                && layers[3].spec == DenseSpec(n, "softmax")
                && layers[3].fanIn == autoencoder2.units[1]
                && layers[3] in classifier.collected
                && (forall l :: l in classifier.collected ==> l in layers)
                && layers[3].Weights() == Retrained(Initial(layers[3].spec, layers[3].fanIn, 3, init), 3, step)
                && (forall i :: 0 <= i < 5 ==> shared[i].trainable == old(shared[i].trainable))
                && (forall i :: 0 <= i < 3 ==>
                      && (layers[i] in classifier.collected <==> old(shared[i].trainable))
                      && layers[i].Weights() ==
                           (if old(shared[i].trainable) then Retrained(old(shared[i].Weights()), i, step)
                            else old(shared[i].Weights())))
                && (forall i :: 3 <= i < 5 ==> shared[i].Weights() == old(shared[i].Weights()))
    {
      if autoencoder2 == null {
        return Fail(AttributeError("autoencoder_2"));
      }
      classifier := FitClassifier(autoencoder2, n, init, step);
      r := Pass;
    }

    /**
     * `train_classifier`: records the class count and list, one-hot encodes the training
     * and then the test labels (an out-of-range label is an IndexError), and puts a softmax
     * layer with one unit per class on the second autoencoder's second encoder output. The
     * classifier holds the autoencoder's own input and encoder layer objects, so fitting
     * it trains those of them that are still trainable, and the new softmax layer.
     */
    method TrainClassifier(classes: seq<int>, init: Draw, step: Draw) returns (r: Outcome)
      requires Valid()
      modifies this, LayersOf(autoencoder2)
      ensures Valid()
      ensures nClasses == Some(|classes|) && classesVector == Some(classes)
      ensures autoencoder1 == old(autoencoder1) && autoencoder2 == old(autoencoder2)
      ensures session == old(session) && numUnits2 == old(numUnits2)
      ensures r.Pass? <==>
                && session.Some?
                && ToCategorical(session.value.yTrain, |classes|).Success?
                && ToCategorical(session.value.yTest, |classes|).Success?
                && autoencoder2 != null
      ensures session.None? ==>
                r == Fail(AttributeError("y_train"))
                && yTrainEncoded == old(yTrainEncoded) && yTestEncoded == old(yTestEncoded)
      ensures session.Some? ==>
                var train := ToCategorical(session.value.yTrain, |classes|);
                var test := ToCategorical(session.value.yTest, |classes|);
                && yTrainEncoded == (if train.Success? then Some(train.value) else old(yTrainEncoded))
                && yTestEncoded == (if train.Success? && test.Success? then Some(test.value) else old(yTestEncoded))
                && (train.Failure? || test.Failure? ==> r == Fail(IndexError))
                && (train.Success? && test.Success? && autoencoder2 == null ==>
                      r == Fail(AttributeError("autoencoder_2")))
      ensures forall i :: 0 <= i < |LayersOf(autoencoder1)| ==> unchanged(LayersOf(autoencoder1)[i])
      ensures r.Fail? ==> classifier == old(classifier)
      ensures r.Pass? ==> classifier != null
      ensures r.Pass? ==>
                var layers := classifier.layers;
                var shared := autoencoder2.model.layers;
                && fresh(classifier) && classifier.compiled
                && |layers| == 4 && fresh(layers[3])
                && (forall i :: 0 <= i < 3 ==> layers[i] == shared[i])
                && layers[3].spec == DenseSpec(|classes|, "softmax")
                && layers[3].fanIn == autoencoder2.units[1]
                && layers[3] in classifier.collected
                && (forall l :: l in classifier.collected ==> l in layers)
                && layers[3].Weights() == Retrained(Initial(layers[3].spec, layers[3].fanIn, 3, init), 3, step)
                && (forall i :: 0 <= i < 5 ==> shared[i].trainable == old(shared[i].trainable))
                && (forall i :: 0 <= i < 3 ==>
                      && (layers[i] in classifier.collected <==> old(shared[i].trainable))
                      && layers[i].Weights() ==
                           (if old(shared[i].trainable) then Retrained(old(shared[i].Weights()), i, step)
                            else old(shared[i].Weights())))
                && (forall i :: 3 <= i < 5 ==> shared[i].Weights() == old(shared[i].Weights()))
    {
      r := EncodeLabels(classes);
      if r.Fail? {
        return;
      }
      r := BuildClassifier(|classes|, init, step);
    }
  }

  /**
   * Stages 1 and 2 run in order on a new trainer, each fit drawing its values from its
   * own parameter (`step1`, `step2`). Stage 2 cannot fail once stage 1 has run. Its
   * layer 1 was frozen before compiling, so it was not collected and still holds the
   * weights stage 1's fit gave it; its layer 2 holds the weights stage 2's fit gave it,
   * and layers 0 to 2 end frozen.
   */
  method Pretrain(numUnits: int, nUnits2: int, xTrain: NdArray, yTrain: seq<int>, xTest: NdArray,
                  yTest: seq<int>, init: Draw, step1: Draw, step2: Draw)
    returns (t: StackedAutoencoderTrain, r: Outcome)
    ensures fresh(t) && t.Valid()
    ensures r.Pass? <==> |xTrain.shape| >= 2
    ensures r.Fail? ==> r.error == IndexError
    ensures r.Pass? ==>
              && t.session == Some(Session(xTrain, yTrain, xTest, yTest, numUnits, xTrain.shape[1]))
              && t.autoencoder1 != null && t.autoencoder2 != null
              && fresh(t.autoencoder1.model.Objects()) && fresh(t.autoencoder2.model.Objects())
    ensures r.Pass? ==>
              var first := t.autoencoder1.model.layers;
              var second := t.autoencoder2.model.layers;
              && second[1].spec == DenseSpec(numUnits, "relu") && second[2].spec == DenseSpec(nUnits2, "relu")
              && (forall i :: 0 <= i < 5 ==> second[i].trainable == (i >= 3))
              && second[1] !in t.autoencoder2.model.collected
              && second[2] in t.autoencoder2.model.collected
              && second[1].Weights() == first[1].Weights()
              && first[1].Weights() == Retrained(Initial(first[1].spec, first[1].fanIn, 1, init), 1, step1)
              && second[2].Weights() == Retrained(Initial(second[2].spec, second[2].fanIn, 2, init), 2, step2)
  {
    t := new StackedAutoencoderTrain();
    r := t.TrainFirstLayer(numUnits, xTrain, yTrain, xTest, yTest, init, step1);
    if r.Fail? {
      return;
    }
    r := t.TrainSecondLayer(nUnits2, init, step2);
    TwoLayerPlan(numUnits, nUnits2, t.autoencoder2.inputDim);
  }

  /**
   * The three stages run in order on a new trainer, as a caller of the class uses it,
   * each fit drawing its values from its own parameter (`step1`, `step2`, `step3`). The
   * run fails exactly when the data has fewer than two dimensions or a label lies outside
   * the classes, and then with IndexError. When it succeeds, compiling the classifier
   * collected its softmax layer and nothing else: its input and encoder layers were
   * frozen by stage 2, so layer 1 still holds what stage 1's fit gave it, layer 2 what
   * stage 2's fit gave it, and only the softmax layer holds values of stage 3's fit.
   */
  method RunStages(numUnits: int, nUnits2: int, xTrain: NdArray, yTrain: seq<int>, xTest: NdArray,
                   yTest: seq<int>, classes: seq<int>, init: Draw, step1: Draw, step2: Draw, step3: Draw)
    returns (t: StackedAutoencoderTrain, r: Outcome)
    ensures fresh(t) && t.Valid()
    ensures r.Pass? <==>
              && |xTrain.shape| >= 2
              && ToCategorical(yTrain, |classes|).Success?
              && ToCategorical(yTest, |classes|).Success?
    ensures r.Fail? ==> r.error == IndexError
    ensures r.Pass? ==> t.autoencoder1 != null && t.classifier != null
    ensures r.Pass? ==>
              var c := t.classifier.layers;
              var first := t.autoencoder1.model.layers;
              && |c| == 4
              && t.classifier.collected == {c[3]}
              && (forall i :: 0 <= i < 3 ==> !c[i].trainable)
              && c[1].spec == DenseSpec(numUnits, "relu") && c[2].spec == DenseSpec(nUnits2, "relu")
              && c[3].spec == DenseSpec(|classes|, "softmax")
              && c[1].Weights() == first[1].Weights()
              && first[1].Weights() == Retrained(Initial(first[1].spec, first[1].fanIn, 1, init), 1, step1)
              && c[2].Weights() == Retrained(Initial(c[2].spec, c[2].fanIn, 2, init), 2, step2)
              && c[3].Weights() == Retrained(Initial(c[3].spec, c[3].fanIn, 3, init), 3, step3)
  {
    t, r := Pretrain(numUnits, nUnits2, xTrain, yTrain, xTest, yTest, init, step1, step2);
    if r.Fail? {
      return;
    }
    r := t.TrainClassifier(classes, init, step3);
    if r.Pass? {
      var c := t.classifier;
      forall l | l in c.collected
        ensures l == c.layers[3]
      {
        assert l in c.layers;
      }
    }
  }
}
