# Random-forest inference kernel, modelled in Dafny

This project models the inference path of a binary-classification random forest:

- **Record projection** (`Sample::to_vec`): a 15-field measurement record is projected onto the 13 model features in a fixed order.
- **Standardisation** (`Scaler::transform`): the caller's buffer is standardised in place with per-feature `mean` and `scale`, after a length check.
- **Tree traversal** (`Tree::predict`): each decision tree, stored as parallel arrays indexed by node id, is walked from the root to a leaf. The walk compares one feature per internal node against a threshold with a tolerance of 1e-5.
- **Vote aggregation** (`Forest::predict`): the forest adds up the trees' `(no, yes)` leaf weights. Class 1 wins ties. It returns `classes[0]` or `classes[1]`.
- **Composition** (`Predictor::predict`): scale with the forest's feature count, then let the forest predict.

The model uses exact `real` numbers in place of `double`, and the tolerance is exactly 1/100000.

Files, one module per source file:

- `decision_tree.dfy` (module `DecisionTree`): `src/Tree.cpp`, including the nesting of `value` in the model file.
- `random_forest.dfy` (module `RandomForest`): `src/Forest.cpp`.
- `standard_scaler.dfy` (module `StandardScaler`): `src/Scaler.cpp`.
- `inference.dfy` (module `Inference`): `src/Predictor.cpp`.
- `sample_record.dfy` (module `SampleRecord`): `Sample::to_vec` in `src/Sample.cpp`.

How the code takes shape:

- Trees and forests are immutable values: datatypes whose fields are sequences.
- Their `Predict` methods keep the source's loops. Each loop is proved against a specification function: `LeafOf`/`Route` for a tree, `Total`/`Label` for a forest.
- `Scaler` and `Predictor` are classes. Their `Transform` and `Predict` take the caller's `array<real>` and may modify only that array.
- The source's bare `throw;` on a length mismatch ends the process. Here it is an error result (`false`, or `LengthMismatch`), and the buffer is left untouched.

Where the repository's tests or headers suggest one thing and the code does another, the model follows the code:

- The tests at tests/test_forest.cpp:38 and tests/test_forest.cpp:50 are titled "Forest throws on incorrect feature count", but `Forest::predict` (src/Forest.cpp:8-26) has no length check and the tests only pass correctly sized inputs. The model's `Predict` has no length check either. Its precondition `CanPredict` asks that `classes` has at least two entries and that every tree is well formed and names only features in range for the input.
- src/Forest.cpp:8 takes a fixed 13-element `FeatureArray`, while include/Forest.h:16 declares a `std::vector<double>`. The model takes a sequence of any length.
- include/Scaler.h:11 declares `transform` non-const, yet src/Predictor.cpp:4 calls it from `Predictor::predict`, which include/Predictor.h:18 declares const. In the model it writes only the buffer.

## Model

| member | source | states |
|---|---|---|
| `DecisionTree.GoesLeft` | src/Tree.cpp:16 | the left branch is taken exactly when the sample is below threshold + 1e-5 (at, below, or within tolerance above the threshold) |
| `DecisionTree.Next` | src/Tree.cpp:11-20 | from an internal node the walk moves to its left or its right child, whose id is larger and in range |
| `DecisionTree.LeafOf` | src/Tree.cpp:10-21 | the walk from a node of a well-formed tree ends, and ends at a leaf (`children_left == -1`) |
| `DecisionTree.Predict` | src/Tree.cpp:7-26 | the source's loop returns the value of the leaf the walk from the root reaches; feature indices are read only at internal nodes |
| `DecisionTree.PathFrom` | src/Tree.cpp:10-21 | the walk is a path: each step leaves an internal node by the branch rule, and the last node is a leaf |
| `DecisionTree.PathEndsAtLeafOf` | src/Tree.cpp:10-21 | every such path from a node ends at the same leaf, the one `LeafOf` names |
| `DecisionTree.ExactlyOneLeaf` | src/Tree.cpp:10-25 | any two traversals from the root end at one leaf, whose value is the tree's vote |
| `DecisionTree.LeafFieldsUnread` | src/Tree.cpp:10-14 | the feature index and threshold stored at leaves (the -2 sentinel) never affect routing |
| `DecisionTree.Encoded` | src/Tree.cpp:31-34 | encoding writes each pair as `[[no, yes]]`, one entry per node, in node order |
| `DecisionTree.Decoded` | src/Tree.cpp:54-61 | decoding takes `[0][0]` and `[0][1]` of every entry, keeping node count and order |
| `DecisionTree.EncodeValue` | src/Tree.cpp:28-34 | the `push_back` loop of `to_json` builds exactly the encoding |
| `DecisionTree.DecodeValue` | src/Tree.cpp:47-61 | the `push_back` loop of `from_json` builds exactly the decoding |
| `DecisionTree.EncodeDecodeRoundTrip` | src/Tree.cpp:31-61 | decode(encode(v)) == v, and every encoding can be decoded |
| `DecisionTree.DecodeEncodeRoundTrip` | src/Tree.cpp:31-61 | a file whose entries are exactly `[[a, b]]` is reproduced by decoding then encoding |
| `DecisionTree.ToleranceFixture` | tests/test_tree.cpp:29-49 | 5.0 and 5.0 + 5e-6 go left against threshold 5.0; 5.0 + 2e-5 goes right |
| `DecisionTree.MultilevelFixture` | tests/test_tree.cpp:51-85 | (100, 200, 15) reaches (5, 30), (100, 200, 5) reaches (15, 20), (30, 200, 5) reaches (25, 5) |
| `RandomForest.Votes` | src/Forest.cpp:11-12 | one vote per tree; the body maps `Route` over the trees in order |
| `RandomForest.Winner` | src/Forest.cpp:18-25 | the internal winner has at least the other class's weight, and a tie goes to class 1 |
| `RandomForest.Predict` | src/Forest.cpp:8-26 | the loop's accumulator, from (0, 0), is the element-wise sum of the trees' votes, and the result is the winner looked up in `classes` |
| `RandomForest.LabelIsMapped` | src/Forest.cpp:21-25 | the result is always `classes[0]` or `classes[1]`: `classes[1]` when yes >= no, else `classes[0]` |
| `RandomForest.RelabelKeepsDecision` | src/Forest.cpp:21-25 | replacing `classes` keeps the winning index and returns the new label for it |
| `RandomForest.EmptyForestPicksClassOne` | src/Forest.cpp:9-22 | a forest with no trees returns `classes[1]`, since 0 >= 0 |
| `RandomForest.TotalPermutation` | src/Forest.cpp:11-16 | over exact reals the vote total depends only on the multiset of trees |
| `RandomForest.ReorderKeepsLabel` | src/Forest.cpp:11-25 | reordering the trees changes neither the total nor the label |
| `RandomForest.TieFixture` | tests/test_forest.cpp:26-36 | two trees voting (100, 100) tie at (200, 200) and return 1 |
| `RandomForest.MajorityFixture` | tests/test_integration.cpp:113-157 | three trees voting (100, 0) on an all-3.0 input total (300, 0) and return 0 |
| `StandardScaler.Standardized` | src/Scaler.cpp:12-14 | the standardised vector has the length of the input |
| `StandardScaler.RestoreStandardized` | src/Scaler.cpp:13 | with nonzero scales, standardising is undone by `z * scale + mean` |
| `StandardScaler.StandardizeRestored` | src/Scaler.cpp:13 | the converse: every vector is the standardisation of its restoration |
| `StandardScaler.PositionwiseLocal` | src/Scaler.cpp:13 | position i depends only on its own old value, `mean[i]` and `scale[i]` |
| `StandardScaler.IdentityScaler` | tests/test_scaler.cpp:46-58 | mean 0 and scale 1 leave the data unchanged |
| `StandardScaler.UnitFixture` | tests/test_scaler.cpp:18-30 | mean 10k, scale 2k, data 12k give 1.0 everywhere |
| `StandardScaler.MixedSignFixture` | tests/test_scaler.cpp:124-137 | mean 50, scale 10 take 30, 40, 50, 60 to -2, -1, 0, 1 |
| `StandardScaler.Scaler.constructor` | include/Scaler.h:8-12 | the scaler holds the `scale` and `mean` it was loaded with |
| `StandardScaler.Scaler.Transform` | src/Scaler.cpp:5-15 | a wrong length fails with the buffer untouched; otherwise the same buffer holds `(old[i] - mean[i]) / scale[i]` at every position; `mean` and `scale` are never written |
| `SampleRecord.ToVec` | src/Sample.cpp:59-75 | exactly 13 values, element i being the (i+2)-th declared field: `Nep_Tb` first, `AF` last |
| `SampleRecord.ToVecIgnoresIdentifiers` | src/Sample.cpp:60-74 | `Nep_index` and `YE` never reach the feature vector |
| `SampleRecord.ToVecDeterminedByModelFields` | src/Sample.cpp:60-74 | two records give the same vector if and only if they agree on the 13 model fields |
| `Inference.PipelineOutcome` | src/Predictor.cpp:3-7 | a length mismatch, and only that, yields the error; otherwise the label is one of the two configured labels, for the standardised input |
| `Inference.Predictor.constructor` | src/Predictor.cpp:9-12 | the predictor holds the scaler and forest it was loaded with |
| `Inference.Predictor.Predict` | src/Predictor.cpp:3-7 | the scaler gets the forest's `n_features`; on a mismatch the buffer is untouched and no tree is evaluated; otherwise the buffer holds the scaled values and the result is the forest's label for them |
| `Inference.PipelineFixture` | tests/test_integration.cpp:25-78 | identity scaler, one split on feature 0 at 5.0 with leaves (10, 5)/(2, 15), and a record with `Nep_Tb` 3.0 and the rest 0 yield 0 |
| `Inference.ZeroAndTenFixture` | tests/test_helpers.cpp:78-99 | with leaves (50, 10)/(10, 50) and the identity scaler, all zeros yield 0 and all 10.0 yield 1 |

## Left out

- Floating point is not modelled. Values are exact reals, so there is no rounding, no NaN or infinity, and summation order cannot matter. The tolerance is exactly 1/100000, not the nearest double.
- `scale[i] == 0` is not modelled: in the source it produces an infinity or NaN. It is a precondition here, and only when the buffer's length matches.
- Process termination on the bare `throw;` in `Scaler::transform` and its `printf` message are not modelled. The failure is the result `false` (`Transform`) or `LengthMismatch` (`Predictor.Predict`), with nothing written.
- Malformed trees are preconditions. On a tree whose child ids or feature indices leave their range the source reads out of bounds, and on a tree with a cycle its loop (src/Tree.cpp:10-21) never terminates.
  - `WellFormed` asks that every child id is larger than its parent's id and in range. That is stronger than acyclicity, and it is enough for the walk to end. It leaves out acyclic trees numbered otherwise (for example `children_left = [2, -1, 1, -1]`, `children_right = [3, -1, 3, -1]`), which the source walks correctly. No fixture uses such a tree.
  - `Routable` asks that internal nodes only name features in range for the input.
- Malformed `value` entries (fewer than one row or two numbers) are a precondition of decoding, because the source indexes them unchecked. `from_json` appends to the tree's `value` list, which is empty for a freshly constructed tree. `DecodeValue` starts from the empty list.
- JSON parsing and serialisation of the other tree fields, the forest and the scaler go through a foreign library and are not modelled. `LoadEmbedded` is not modelled either. The constructors of `Scaler` and `Predictor` stand for the results of loading.
- `n_node_samples`, `n_estimators` and `n_classes` are carried in the datatypes but never read, as in the source.
- `Sample::from_line` (text to double via `sscanf`), `Sample::to_string` (float formatting), `src/main.cpp` (argument handling, file streams, printing) and the CSV reading helpers are not modelled: they are I/O and formatting.
- A negative `num_features` never equals a buffer length here, so it always fails. In the source the cast to `size_t` makes it a huge number, with the same outcome for any real buffer.
- Concurrency and the const-ness of methods are not modelled as such. Trees and forests are values, and `modifies` clauses name the only array that is written.
