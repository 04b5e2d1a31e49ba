# Stacked autoencoder: topology and training bookkeeping

This project models the discrete bookkeeping of `StackedAutoencoder.py`, which does
greedy layer-wise pretraining of a stacked autoencoder with Keras. It proves properties
of that model.

- `DeepAutoEncoder` clamps the requested depth to at least 1. It resolves `units` into
  one width per encoder layer, raising RuntimeError on a list of the wrong length. It
  builds the chain
  `Input(input_dim) -> units[0] -> ... -> units[n-1] -> [units[n-1] -> ... -> units[1]] -> sigmoid(input_dim)`,
  where the bracketed hidden decoder part exists only for n >= 2 (for n = 1 the sigmoid
  layer follows `units[0]` directly).
  It also freezes, unfreezes, reads and overwrites layers by Python list index.
- The decoder is not a mirror image of the encoder. Its hidden widths are
  `units[n-1]` down to `units[1]`: the bottleneck width appears twice and `units[0]`
  never appears in the decoder. The model follows the code.
  `Topology.DecoderWidthsReverseTail` states that these widths are `units[1..]` reversed.
  `Topology.BottleneckRepeated` states that the bottleneck is repeated.
- `StackedAutoencoderTrain` runs three stages, each storing what later stages read:
  1. A one-layer relu autoencoder is trained on the data.
  2. A two-layer autoencoder gets stage 1's trained encoder weights in layer 1 and
     freezes that layer. It is compiled and fitted, then its layer 2 is frozen.
  3. A softmax classifier is put on the second encoder output. It shares that
     autoencoder's layer objects and is fitted with one-hot labels.

  A stage that reads an attribute no earlier stage assigned fails with AttributeError.
  Any attributes assigned before that point stay assigned.

The Keras side is reduced to what the training pipeline depends on (module `Backend`):

- A layer object has a kind and width, a fan-in, a `trainable` flag, and weights whose
  shapes are fixed when the layer is built. `set_weights` raises ValueError on a list of
  another count or other shapes.
- A model is an ordered chain of layer objects. A layer object may be held by several
  models.
- `compile` records which layers are trainable at that moment. `fit` gives exactly those
  layers new weight values of the same shapes.
- `to_categorical` is kept as its one-hot shape.

Values the program does not compute are parameters of type `Draw`:

- the random initial weights;
- the weights `fit` produces.

Modules:

- `Errors`: Python's exceptions, `Option`, `Result` and `Outcome`.
- `Backend`: layers, models, list indexing, one-hot encoding.
- `Topology`: `DeepAutoEncoder` and the pure layer table `Plan` that specifies it.
- `Trainer`: `StackedAutoencoderTrain` and the steps of its stages.

## Model

| member | source | states |
|---|---|---|
| Topology.ClampLayers | StackedAutoencoder/StackedAutoencoder.py:24 | the stored depth is at least 1 and at least the requested depth, and is either the requested depth or 1 |
| Topology.ClampFloor | StackedAutoencoder/StackedAutoencoder.py:24 | every depth of 1 or less, including 0 and negative ones, is stored as 1, the same as asking for 1, with no error |
| Topology.ResolveUnits | StackedAutoencoder/StackedAutoencoder.py:31-37 | a non-list is repeated once per layer; a list succeeds exactly when its length equals the depth and is then kept unchanged; every failure is a RuntimeError; whatever the argument, resolved units have exactly one width per layer |
| Topology.DescendingAt | StackedAutoencoder/StackedAutoencoder.py:54-56 | step k of the loop over `range(e, 0, -1)` uses width `units[e - k]` |
| Topology.DecoderWidthAt | StackedAutoencoder/StackedAutoencoder.py:54-56 | the k-th hidden decoder width is the k-th entry of `units[1..]` reversed |
| Topology.DecoderWidthsReverseTail | StackedAutoencoder/StackedAutoencoder.py:53-56 | the hidden decoder widths are `units` without its first entry, reversed |
| Topology.PlanLayout | StackedAutoencoder/StackedAutoencoder.py:39-58 | the layer table: input at 0; encoder widths `units[i-1]` at 1..n; decoder width `units[2n-i]` at n+1..2n-1; sigmoid of width `input_dim` at 2n |
| Topology.BuiltIsPlan | StackedAutoencoder/StackedAutoencoder.py:28-29 | any table laid out position by position as the encoder and decoder build it is the plan |
| Topology.BottleneckRepeated | StackedAutoencoder/StackedAutoencoder.py:54-55 | from depth 2 on, the first decoder layer has the bottleneck's width and activation, the same as the last encoder layer |
| Topology.OneLayerPlan | StackedAutoencoder/StackedAutoencoder.py:81-83 | the stage-1 table is input, one encoder layer, sigmoid output |
| Topology.TwoLayerPlan | StackedAutoencoder/StackedAutoencoder.py:104-106 | the stage-2 table is input, `num_units`, `n_units_2`, `n_units_2`, sigmoid output |
| Topology.DeepAutoEncoder.New | StackedAutoencoder/StackedAutoencoder.py:23-29 | construction succeeds exactly when the units resolve for the clamped depth; otherwise it raises that RuntimeError before any object exists; on success the model holds new layer objects laid out as the plan, uncompiled, dense layers trainable, initial weights |
| Topology.DeepAutoEncoder.constructor | StackedAutoencoder/StackedAutoencoder.py:26-29 | the build stores activation and input width, and the model's table is the plan, with each layer new and as created |
| Topology.DeepAutoEncoder.Encoder | StackedAutoencoder/StackedAutoencoder.py:39-47 | after the input, exactly one dense layer per entry of `units` in order; `encoder_layers` names positions 1..n |
| Topology.DeepAutoEncoder.Decoder | StackedAutoencoder/StackedAutoencoder.py:49-58 | the encoder part is kept; positions n+1..2n-1 have widths `units[n-1]` down to `units[1]`; one sigmoid layer of width `input_dim` ends the table; `decoder_layers` names positions n..2n-1, starting with the encoder's last output and leaving out the sigmoid layer |
| Topology.DeepAutoEncoder.FreezeLayer | StackedAutoencoder/StackedAutoencoder.py:60-61 | an index outside the Python list range is an IndexError; otherwise only the addressed layer's flag becomes false; no weights change |
| Topology.DeepAutoEncoder.DefreezeLayer | StackedAutoencoder/StackedAutoencoder.py:63-64 | an index outside the range is an IndexError; otherwise only the addressed layer's flag becomes true; no weights change |
| Topology.DeepAutoEncoder.SetLayerWeights | StackedAutoencoder/StackedAutoencoder.py:66-67 | an IndexError for a bad index; a ValueError when the count or shapes do not match the addressed layer's; otherwise only that layer now holds exactly the given weights; no flag changes |
| Topology.DeepAutoEncoder.GetLayerWeights | StackedAutoencoder/StackedAutoencoder.py:69-70 | an IndexError for a bad index; otherwise the addressed layer's current weights, which `set_layer_weights` at the same index accepts |
| Backend.PyIndex | StackedAutoencoder/StackedAutoencoder.py:61 | `layers[index]` is defined exactly for `-len <= index < len`; a negative index counts from the back |
| Backend.Layer.Weights | StackedAutoencoder/StackedAutoencoder.py:70 | `get_weights()` always has the count and shapes the layer accepts: none for the input layer, `fanIn x units` kernel and `units` bias for a dense layer |
| Backend.Layer.SetWeights | StackedAutoencoder/StackedAutoencoder.py:67 | the layer accepts exactly weights of its own count and shapes and then holds them; otherwise a ValueError and nothing changes |
| Backend.Layer.CreatedWeights | StackedAutoencoder/StackedAutoencoder.py:41 | a layer as created holds the weights drawn by the initialiser for its position |
| Backend.Layer.constructor | StackedAutoencoder/StackedAutoencoder.py:28-57 | each `Input(...)` and `Dense(...)` (also the softmax layer at line 130) gives a new layer of that kind, width and fan-in, trainable exactly when dense, holding the initialiser's values for its position |
| Backend.Layer.Train | StackedAutoencoder/StackedAutoencoder.py:89-93 | one fit of a layer it trains (here and at lines 115-119 and 134-137): the weights keep their count and shapes and take the fit's values for that position; the flag is unchanged |
| Backend.Retrained | StackedAutoencoder/StackedAutoencoder.py:89-93 | fitting keeps the number and the shapes of a layer's weights and replaces their values |
| Backend.Network.Compile | StackedAutoencoder/StackedAutoencoder.py:87 | the collected layers are exactly the model's layers that are trainable now |
| Backend.Network.Fit | StackedAutoencoder/StackedAutoencoder.py:89-93 | every collected layer gets new values of the same shapes; every other layer and every flag is unchanged |
| Backend.Network.constructor | StackedAutoencoder/StackedAutoencoder.py:29 | `Model(input, output)` (also the classifier at line 131) over a chain of distinct layers holds exactly those layer objects, in order, uncompiled and with nothing collected |
| Backend.Materialise | StackedAutoencoder/StackedAutoencoder.py:29 | the model's layers are new, distinct objects forming a chain whose kinds and widths are the table, each as created at its position |
| Backend.ApplyDense | StackedAutoencoder/StackedAutoencoder.py:130 | calling a new dense layer on the last output adds one new layer fed by it and keeps the earlier layers |
| Backend.ToCategoricalRows | StackedAutoencoder/StackedAutoencoder.py:127-128 | encoding succeeds exactly when every label lies in `[0, n)`; then there is one row per label of width n with a 1 at the label and 0 elsewhere |
| Backend.ToCategorical | StackedAutoencoder/StackedAutoencoder.py:127-128 | a failed encoding is an IndexError |
| Backend.OneHotSumsToOne | StackedAutoencoder/StackedAutoencoder.py:127 | every encoded row holds exactly one 1 (its entries sum to 1) |
| Backend.SumIndicator | StackedAutoencoder/StackedAutoencoder.py:127 | an indicator row sums to 1 exactly when the marked position lies inside it |
| Trainer.FitFirstAutoencoder | StackedAutoencoder/StackedAutoencoder.py:79-93 | a new depth-1 relu autoencoder with units `[num_units]` and the data's width, compiled; the input layer is untrainable and has no weights; layers 1 and 2 are trainable and fitted |
| Trainer.TransplantFirst | StackedAutoencoder/StackedAutoencoder.py:108-110 | layer 1 holds the given weights and is frozen; every other layer's weights and flag are unchanged |
| Trainer.FitInner | StackedAutoencoder/StackedAutoencoder.py:112-121 | exactly the layers trainable before compiling are fitted; afterwards layer 2 is frozen and no other flag changes |
| Trainer.FitSecondAutoencoder | StackedAutoencoder/StackedAutoencoder.py:104-121 | a new depth-2 relu autoencoder; layer 1 holds the given weights and was not trained; layers 2 to 4 were trained from their initial weights; afterwards only layers 3 and 4 are trainable |
| Trainer.AttachSoftmax | StackedAutoencoder/StackedAutoencoder.py:130-131 | the classifier's first three layers are the autoencoder's own input and encoder objects; a new softmax layer of n units is fed by the second encoder output; decoder layers are not in the classifier; the softmax layer holds the initialiser's weights for position 3 |
| Trainer.FitClassifier | StackedAutoencoder/StackedAutoencoder.py:130-137 | fitting the classifier trains the new softmax layer and whichever shared layers are trainable, changing the autoencoder's own layers through the sharing; its decoder layers are untouched |
| Trainer.StackedAutoencoderTrain.constructor | StackedAutoencoder/StackedAutoencoder.py:73-74 | a new trainer has none of its attributes set |
| Trainer.StackedAutoencoderTrain.TrainFirstLayer | StackedAutoencoder/StackedAutoencoder.py:76-99 | data with fewer than two dimensions is an IndexError that changes nothing; otherwise the session records the data, `num_units` and `input_dim = x_train.shape[1]`, and the first autoencoder is built from new objects, compiled and fitted as stated |
| Trainer.StackedAutoencoderTrain.TrainSecondLayer | StackedAutoencoder/StackedAutoencoder.py:101-121 | `num_units_2` is always set; without a first stage an AttributeError on `num_units`; otherwise the second autoencoder is a relu one built from new objects, its layer 1 holds stage 1's trained layer-1 weights, only layers 2 to 4 are trained, and then layers 0 to 2 are untrainable; stage 1's weights are unchanged |
| Trainer.StackedAutoencoderTrain.EncodeLabels | StackedAutoencoder/StackedAutoencoder.py:125-128 | the class count and list are set; AttributeError on `y_train` without a first stage; training labels are encoded before test labels, an out-of-range label is an IndexError, and each encoding is stored only when it succeeded; no layer of either autoencoder changes |
| Trainer.StackedAutoencoderTrain.BuildClassifier | StackedAutoencoder/StackedAutoencoder.py:130-137 | AttributeError on `autoencoder_2` without a second stage; otherwise the classifier is as FitClassifier states, compiling collected only classifier layers, the first autoencoder's layers are untouched, and no other attribute changes |
| Trainer.StackedAutoencoderTrain.TrainClassifier | StackedAutoencoder/StackedAutoencoder.py:123-137 | the whole stage: success exactly when a session exists, both label lists encode and a second stage exists; the errors come in the order Python reaches them, each keeping what was assigned before it; on success the classifier shares and trains layers as stated and compiling collected only classifier layers; the first autoencoder's layers are untouched throughout |
| Trainer.Pretrain | StackedAutoencoder/StackedAutoencoder.py:76-121 | stages 1 and 2 on a new trainer, each fit with its own values: they fail exactly when the data has fewer than two dimensions, with IndexError; otherwise the second autoencoder's layer 1 was left out of stage 2's compiled set and holds the values of stage 1's fit, its layer 2 was collected and holds the values of stage 2's fit, and only layers 3 and 4 stay trainable |
| Trainer.RunStages | StackedAutoencoder/StackedAutoencoder.py:76-137 | all three stages on a new trainer: the run fails exactly when the data has fewer than two dimensions or a label is outside the classes, with IndexError; on success compiling the classifier collected only its softmax layer; with each stage's fit giving its own values, layer 1 holds stage 1's, layer 2 stage 2's and only the softmax layer stage 3's |

## Left out

- Backend selection (`try` / bare `except`), the `mnist`, `matplotlib` and `os` imports: environment set-up with no behaviour of its own.
- Gradient descent, losses, the Adadelta optimiser, learning rate, epochs, batch sizes, shuffling and validation data: floating-point numerics inside Keras. `fit` is modelled only as giving the trainable layers new values of the same shapes, drawn from a parameter. Those values depend only on the layer's position in the fitted model, not on the values it held before, so only different parameters tell two fits apart; `Trainer.Pretrain` and `Trainer.RunStages` therefore give each stage's fit its own parameter.
- The `print` of the learning rate: console output.
- Activation functions are kept only as tags on layers.
- `predict` and `calculate_accuracy`: both only raise NotImplementedError.
- Shape checks `fit` performs on the data (for example, a row count of `y_train` that differs from that of `x_train`) are not modelled; the data is kept only as its shape and labels.
- Keras creates a dense layer's object at `Dense(...)` and builds its weights when the layer is called on its input, both inside `encoder`/`decoder`; the model first computes the table and then creates the objects in the same order (`Backend.Materialise`), which gives the same objects, positions and initial weights.
- Topology.DeepAutoEncoder.New: a negative width or a negative `input_dim` is accepted and builds a layer table here, while Keras fails when it builds an `Input` or `Dense` layer of negative size (lines 28, 41, 45, 55, 57); the kind of that error depends on the Keras backend, so it is not modelled.
- Trainer.StackedAutoencoderTrain.TrainFirstLayer: succeeds for a negative `num_units`, for the same reason as Topology.DeepAutoEncoder.New.
- Trainer.StackedAutoencoderTrain.TrainSecondLayer: succeeds for a negative `n_units_2`, for the same reason as Topology.DeepAutoEncoder.New.
- Trainer.StackedAutoencoderTrain.TrainFirstLayer: `num_units` is taken to be an integer, so stage 1's RuntimeError path is not modelled. In Python, `num_units` goes unchanged to `DeepAutoEncoder(n_layers=1, units=num_units)`, whose `set_units` accepts a list. A list whose length is not 1, such as `[32, 16]`, raises RuntimeError there, before `autoencoder_1` is assigned. A one-element list such as `[32]` passes stage 1 without error and fails only in stage 2, when Keras builds `Dense([32])`. A float width fails inside Keras, with an error whose kind depends on the backend, as for a negative width.
- Trainer.StackedAutoencoderTrain.TrainSecondLayer: `n_units_2` is taken to be an integer. A list or float value fails inside Keras when stage 2 builds its `Dense` layer, with an error whose kind depends on the backend.
- Topology.DeepAutoEncoder.FreezeLayer: the index is taken to be an integer, and the same holds for DefreezeLayer, SetLayerWeights and GetLayerWeights. In Python, a slice index selects a list of layers, which has no `trainable`, `set_weights` or `get_weights`, so it raises AttributeError. Any other non-integer index raises TypeError. Neither case is modelled.
- Backend.ToCategorical: Keras's wrap-around of negative labels and its fallback to `max(y) + 1` classes when `num_classes` is 0 (an empty `classes_vector`) are not modelled. Here a negative label is an IndexError, and so is any label when there are 0 classes. The one exception is an empty label list with 0 classes: here it encodes to no rows, while Keras raises ValueError because `np.max` of an empty array is undefined.
- Topology.DeepAutoEncoder.New: the stored `encoder_layers` and `decoder_layers` are positions in the layer table, not Keras tensors.
