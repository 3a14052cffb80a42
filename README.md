# interactiveml core, modelled in Dafny

This project models the core of interactiveml, a React teaching app. It has
four parts:

- **k-means clustering, twice.**
  - `KMeans` (`kmeans.dfy`) models the component that clusters a CSV on the
    columns the user selects. Its parts are centroid initialisation, nearest
    centroid assignment, mean update, the exact convergence test, inertia,
    and the loop of at most 100 rounds that records one inertia per round.
  - `Clustering` (`clustering.dfy`) models the planar demo. It generates 100
    random points in the 760 × 560 drawing area and runs the same loop on
    `{x, y}` points with `Math.hypot`. Every planar step is proved equal to
    the general step on two-column vectors.
- **Text classifier** (`text_classifier.dfy`). The labels and training texts
  are the state, held in a class. The model covers:
  - the ten-character storage format;
  - the `charCode % 256` encoding;
  - the rows fed to the network for training and for prediction;
  - the label-index targets;
  - the add, delete, train and predict handlers.
- **Image classifier** (`image_classifier.dfy`). The model covers the same
  handlers over labelled images, the 0/1 targets, and the per-label result
  list built from the network's output.
- **Quiz** (`kahoot.dfy`). It is a state machine over the current question,
  score, countdown, time-out flag and selected option, with the answer,
  retry and next handlers. The handlers are also given as pure step
  functions, so whole games can be reasoned about.

`fixpoint.dfy` holds the shape both k-means loops share: a state replaced by
its successor while a stop test on the two fails and iterations are left, with
a cost recorded per iteration. Its lemmas (how the loop stops, what it keeps,
when its costs descend) hold for any successor and cost; `KMeans` instantiates
them with the round of `kmeans`, and the results of both `kmeans` functions are
stated as exactly what that loop from the seeds computes.

`util.dfy` holds `Option`/`Result`, JavaScript's `trim` (the ECMAScript
whitespace set), and the order-preserving `filter`.

Randomness comes in as parameters:

- `picks` are the indices `Math.floor(Math.random() * n)`;
- `draws` are the `Math.random()` pairs of `generateData`;
- the image network's output is a parameter of the prediction handler.

The TensorFlow network is represented by the training set it was last
fitted on.

**What the code does at its edges.**

- **Empty cluster.** `updateCentroids` divides the sums of a cluster without
  members by a zero count, so every coordinate becomes `0/0` = NaN. The model
  represents that centroid as `Undefined`:
  - the assignment never picks it, because `NaN < minDist` is false;
  - `converged` never holds for it, not even against itself.
- **The number of clusters.** Nothing checks `k`:
  - with `k <= 0` no seed is drawn, every point keeps cluster 0, and
    `updateCentroids` throws a TypeError on `newCentroids[0]`, which the
    model returns as `Failure`;
  - with `k` larger than the number of points the seeds simply repeat.
- **Inertia.** Over exact (real) arithmetic the recorded inertia history never
  increases: each round's means lower the cost of the current assignment, and
  reassigning to the nearest mean lowers it again (`KMeans.RoundDescends`,
  `KMeans.LoopDescends`).

Two quirks of the code are also modelled:

- The label text field and the label selector write the same `currentLabel`.
  So a text or image can be added under a label that was typed but never
  added. `TextClassifier.AppendConsistent` and
  `ImageClassifier.ConsistentTargetsAllOne` state what follows: a target of
  -1, or a 0, appears only then.
- The image network has one output unit, so only the first label ever gets a
  non-zero similarity.

## Model

| member | source | states |
|---|---|---|
| KMeans.SqDist | src/components/KMeansClustering.js:81-83 | the column-by-column sum of squared differences is never negative |
| KMeans.SqDistSymmetric | src/components/KMeansClustering.js:81-83 | the distance is symmetric and zero from a point to itself |
| KMeans.Seeds | src/components/KMeansClustering.js:68-74 | k seeds, the i-th a defined centroid equal to data[picks[i]] (repeats allowed) |
| KMeans.InitializeCentroids | src/components/KMeansClustering.js:68-74 | the push loop returns exactly k centroids, each the drawn data point |
| KMeans.BestUpTo | src/components/KMeansClustering.js:78-87 | the scan's current choice, when there is one, is a defined centroid already scanned |
| KMeans.BestUpToCorrect | src/components/KMeansClustering.js:78-87 | after n centroids the scan has no choice iff all were NaN, and otherwise holds the first nearest among them |
| KMeans.Nearest | src/components/KMeansClustering.js:76-91 | with any defined centroid the chosen index names a defined centroid; otherwise it stays 0 |
| KMeans.NearestIsFirstMinimum | src/components/KMeansClustering.js:80-87 | the chosen index is exactly the lowest-indexed centroid at minimal squared distance (strict `<` keeps the first on ties) |
| KMeans.Assigned | src/components/KMeansClustering.js:76-91 | one tagged point per input point; when some centroid is defined (HasDefined), every tag names a defined centroid of the right dimension |
| KMeans.AssignClusters | src/components/KMeansClustering.js:76-91 | the nested loops keep each point, in order, and tag it with its first nearest centroid |
| KMeans.MemberCount | src/components/KMeansClustering.js:103-108 | a cluster never counts more members than there are points |
| KMeans.MemberCountPositive | src/components/KMeansClustering.js:103-108 | the count is positive iff some point carries the cluster |
| KMeans.Update | src/components/KMeansClustering.js:93-117 | exactly k centroids, each defined one of the points' dimension |
| KMeans.UpdateCentroids | src/components/KMeansClustering.js:93-117 | the in-place sums and counts, divided, give each cluster's member mean, or Undefined for a zero count |
| KMeans.Accumulate | src/components/KMeansClustering.js:94-108 | the in-place pass leaves, per cluster, the column sums and the member count of its points |
| KMeans.UpdateDefinedIffMembers | src/components/KMeansClustering.js:93-117 | a new centroid is NaN (Undefined) exactly when its cluster is empty |
| KMeans.MemberSumWithoutMembers | src/components/KMeansClustering.js:103-108 | a cluster without members sums to zero in every column (the `0` that `0 / 0` divides) |
| KMeans.MemberSumBounds | src/components/KMeansClustering.js:103-108 | a cluster's column sum lies between count·lo and count·hi when its members' column lies in [lo, hi] |
| KMeans.MeanWithinMemberBounds | src/components/KMeansClustering.js:110-116 | every coordinate of a new centroid lies within its members' range in that column |
| KMeans.UpdateCoord | src/components/KMeansClustering.js:110-116 | a cluster's new centroid is defined iff it has members, and then each coordinate is the column sum over its members divided by their count |
| KMeans.Converged | src/components/KMeansClustering.js:119-123 | when the test holds, every centroid is defined and equal to its counterpart (NaN equals nothing) |
| KMeans.ConvergedIffSame | src/components/KMeansClustering.js:119-123 | converged iff the lists are equal and none is NaN; so converged(c, c) iff no cluster of c is empty |
| KMeans.Inertia | src/components/KMeansClustering.js:125-132 | the summed squared distance to the assigned centroids is never negative |
| KMeans.InertiaIsMinimal | src/components/KMeansClustering.js:125-132 | no other assignment of the same points to defined centroids has lower inertia than the nearest-centroid one |
| KMeans.ColumnCostAtMeans | src/components/KMeansClustering.js:110-116 | in every column, the member means cost no more than any other centroids for a fixed assignment |
| KMeans.MeansMinimiseInertia | src/components/KMeansClustering.js:93-132 | for a fixed assignment the updated (mean) centroids are defined for every point and give inertia no higher than any other centroids |
| KMeans.RoundDescends | src/components/KMeansClustering.js:57-63 | the inertia of the next round is at most that of the current round |
| KMeans.RoundFrom | src/components/KMeansClustering.js:51-53 | an assignment and update from centroids with a defined one gives a round whose new centroids include a defined one |
| KMeans.Start | src/components/KMeansClustering.js:51-53 | the seeds, their nearest assignment and its mean update form a round |
| KMeans.NextRound | src/components/KMeansClustering.js:57-61 | the new centroids become current, the points are reassigned and updated, and the recorded inertia is that of the new round, non-negative and at most the previous round's |
| Fixpoint.Iter | src/components/KMeansClustering.js:56-63 | the loop records at most one cost per iteration it was allowed |
| Fixpoint.Stops | src/components/KMeansClustering.js:56-63 | nothing is recorded iff no iteration was allowed or the first test held; the loop stops with iterations left only where the test holds; the last recorded cost is that of the final state |
| Fixpoint.Keeps | src/components/KMeansClustering.js:56-63 | a property every successor keeps holds of the state the loop stops in |
| Fixpoint.Descends | src/components/KMeansClustering.js:56-63 | when successors never cost more and costs are never negative, the recorded history descends and starts at most at the start's cost |
| KMeans.FromSeeds | src/components/KMeansClustering.js:50-63 | the loop from the seeds stops at centroids a round can start from, after at most 100 iterations |
| KMeans.NextSeeded | src/components/KMeansClustering.js:58-60 | the means of the assignment against centroids with a defined one again have a defined one, one per cluster |
| KMeans.LoopSeeded | src/components/KMeansClustering.js:56-63 | the loop from centroids a round can start from stops at such centroids |
| KMeans.LoopDone | src/components/KMeansClustering.js:57 | once converged or at the cap, the loop records nothing and stays where it is |
| KMeans.LoopAppend | src/components/KMeansClustering.js:57-62 | one iteration pushes the inertia of the means' assignment and continues from the means, ending where the whole loop ends |
| KMeans.SeededSteps | src/components/KMeansClustering.js:57-62 | each iteration keeps a defined centroid, and the recorded inertia is non-negative and never raised by the next iteration |
| KMeans.LoopStops | src/components/KMeansClustering.js:57 | the loop iterates not at all iff the cap is zero or the centroids already converged, and stops before the cap only on convergence |
| KMeans.LoopLast | src/components/KMeansClustering.js:61 | the last recorded inertia is that of the assignment against the centroids the loop stops at |
| KMeans.LoopDescends | src/components/KMeansClustering.js:56-63 | the recorded inertias are non-negative and non-increasing, the first at most the seeds' inertia |
| KMeans.Iterate | src/components/KMeansClustering.js:56-63 | the while loop stops at exactly the centroids where the loop from its starting centroids with 100 iterations stops, having pushed exactly that loop's inertias |
| KMeans.Step | src/components/KMeansClustering.js:57-62 | one pass of the body pushes one inertia, and the pushed history followed by the rest of the loop is unchanged |
| KMeans.Run | src/components/KMeansClustering.js:50-66 | Failure iff k <= 0; otherwise exactly the loop from the seeds: the assignment against the centroids it stops at, their means, and every iteration's inertia; hence the points in order with tags below k, at most 100 non-increasing inertias, none iff the seeds converged, and before the cap all centroids defined with the clusters their nearest assignment |
| KMeans.Finish | src/components/KMeansClustering.js:56-65 | the state the loop leaves, returned with newCentroids, is exactly what the loop from the seeds yields |
| KMeans.ExpectedReported | src/components/KMeansClustering.js:50-66 | the clustering the loop from the seeds yields has every reported property |
| KMeans.ExpectedShape | src/components/KMeansClustering.js:50-66 | every point, in order, is tagged with a cluster below k, and the returned centroids are the clusters' means |
| KMeans.ExpectedHistory | src/components/KMeansClustering.js:56-63 | at most 100 inertias, descending, and none exactly when the seeds converged |
| KMeans.ExpectedSettled | src/components/KMeansClustering.js:56-65 | stopping before the cap means every returned centroid is defined, the clusters are their assignment, and the last inertia is that assignment's |
| Clustering.GenerateData | src/components/Clustering.js:18-24 | exactly 100 points, the i-th the scaled draw, with 0 ≤ x < 760 and 0 ≤ y < 560 |
| Clustering.InitializeCentroids | src/components/Clustering.js:46-52 | k centroids, the i-th data[picks[i]], equal to the general seeds on [x, y] |
| Clustering.Dist2 | src/components/Clustering.js:59 | the squared `hypot` is never negative and is zero at the centroid itself |
| Clustering.SqDistPlane | src/components/Clustering.js:59 | the square of hypot(dx, dy) is the general squared distance on [x, y] |
| Clustering.AssignClusters | src/components/Clustering.js:54-67 | the hypot scan gives the general first-nearest assignment |
| Clustering.UpdateCentroids | src/components/Clustering.js:69-77 | the x/y/count accumulation gives the general member means, NaN for empty clusters |
| Clustering.Accumulate | src/components/Clustering.js:70-75 | the in-place pass leaves each cluster's x sum, y sum and member count |
| Clustering.AccumulateStep | src/components/Clustering.js:71-74 | one more point changes only its own cluster's sums and count, by its coordinates and one |
| Clustering.Divide | src/components/Clustering.js:76 | dividing the sums by the counts gives the general mean update, NaN for a zero count |
| Clustering.PlanarMean | src/components/Clustering.js:76 | Undefined (`0 / 0`) iff the count is zero; otherwise the point whose coordinates times the count give back the sums |
| Clustering.PlanarMeanIsUpdate | src/components/Clustering.js:76 | a cluster's `{x / count, y / count}` is its general mean on two columns, and NaN exactly when it is empty |
| Clustering.Converged | src/components/Clustering.js:79-83 | when the test holds, every centroid is defined and equal to its counterpart |
| Clustering.ConvergedAgrees | src/components/Clustering.js:79-83 | the x/y test agrees with the general test on two columns |
| Clustering.ConvergedIffSame | src/components/Clustering.js:79-83 | converged iff the lists are equal and none is NaN |
| Clustering.Iterate | src/components/Clustering.js:35-41 | the while loop stops at exactly the centroids where the general loop on [x, y] from the same centroids stops, after as many iterations, with each point kept in order |
| Clustering.Step | src/components/Clustering.js:37-40 | one pass of the body: the new centroids become current, and the general loop from them ends where the loop from the old ones did, one iteration sooner |
| Clustering.Start | src/components/Clustering.js:31-33 | the planar seeds, assignment and update are the general ones on [x, y] and begin a round |
| Clustering.FromLoopDrawn | src/components/Clustering.js:30-44 | what the general loop from the seeds yields has every drawn property: points in order, nearest assignment against the drawn centroids, at most 100 iterations, none iff the seeds converged, and before the cap every centroid defined and the mean of its cluster |
| Clustering.Run | src/components/Clustering.js:30-44 | Failure iff k <= 0; otherwise the drawn centroids are exactly where the general loop from the same seeds stops, the clusters its assignment, and the iteration count its length, with every drawn property |
| TextClassifier.StoredText | src/components/TextClassifier.js:88-89 | exactly ten characters: the input's first ten, then spaces |
| TextClassifier.StoredTextIdempotent | src/components/TextClassifier.js:88-89 | storing a stored text changes nothing |
| TextClassifier.Code | src/components/TextClassifier.js:47 | every token lies in [0, 256) |
| TextClassifier.Encode | src/components/TextClassifier.js:47 | one token per character, each charCode mod 256 |
| TextClassifier.TrainingRow | src/components/TextClassifier.js:46-49 | defined iff the text has at most ten characters; then ten tokens, the encoding followed by zeros |
| TextClassifier.TrainingRowOfStored | src/components/TextClassifier.js:46-49 | a stored text's row is its encoding, with no zero padding |
| TextClassifier.LowerAscii | src/components/TextClassifier.js:71 | A–Z are shifted to a–z and every other character is kept |
| TextClassifier.Lower | src/components/TextClassifier.js:71 | lower-casing keeps the length and maps each character |
| TextClassifier.PaddedTokens | src/components/TextClassifier.js:72 | ten tokens: the last ten, or zeros followed by all the tokens; in-range tokens stay in range |
| TextClassifier.PaddedEncoding | src/components/TextClassifier.js:72 | the padded encoding of any string is ten tokens in [0, 256) |
| TextClassifier.PredictionRow | src/components/TextClassifier.js:71-72 | the prediction row has ten tokens in [0, 256) |
| TextClassifier.IndexOf | src/components/TextClassifier.js:53-54 | the first position of the label, -1 iff absent |
| TextClassifier.Targets | src/components/TextClassifier.js:52-54 | one target per text, the index of its label |
| TextClassifier.TargetsInRange | src/components/TextClassifier.js:52-54 | with known labels every target is a class index naming the text's label |
| TextClassifier.TrainingSetOf | src/components/TextClassifier.js:46-54 | one row per text, its training row, with the label-index targets and one class per label |
| TextClassifier.WithoutLabel | src/components/TextClassifier.js:99 | removes exactly the texts with that label, keeping the rest |
| TextClassifier.DeleteKeepsConsistent | src/components/TextClassifier.js:97-101 | deleting a label with its texts keeps every text's label among the labels |
| TextClassifier.AppendConsistent | src/components/TextClassifier.js:86-95 | adding a text keeps the labels consistent iff its label is one of them |
| TextClassifier.Classifier.constructor | src/components/TextClassifier.js:6-14 | the initial empty state |
| TextClassifier.Classifier.SetCurrentLabel | src/components/TextClassifier.js:112 | sets only currentLabel (label field and selector alike) |
| TextClassifier.Classifier.SetCurrentText | src/components/TextClassifier.js:136 | sets only currentText |
| TextClassifier.Classifier.SetInputText | src/components/TextClassifier.js:165 | sets only inputText |
| TextClassifier.Classifier.HandleAddLabel | src/components/TextClassifier.js:78-84 | a non-blank label is appended, the field cleared and the data marked changed; otherwise nothing changes |
| TextClassifier.Classifier.HandleAddText | src/components/TextClassifier.js:86-95 | with non-blank text and label, appends the stored text under the label, clears the text (not the label) and marks the data changed; otherwise nothing changes |
| TextClassifier.Classifier.HandleDeleteLabel | src/components/TextClassifier.js:97-101 | removes the label and its texts, in order, and marks the data changed |
| TextClassifier.Classifier.TrainModel | src/components/TextClassifier.js:17-67 | refuses without new data or with no text or no label; otherwise fits on the encoded texts and label indices and clears dataChanged |
| TextClassifier.Classifier.HandlePredict | src/components/TextClassifier.js:69-76 | with a network and a non-blank input, the prediction row of the trimmed, lower-cased input; otherwise nothing |
| ImageClassifier.Targets | src/components/ImageClassifier.js:68 | one target per image, 1 iff its label is among the labels, else 0 |
| ImageClassifier.ConsistentTargetsAllOne | src/components/ImageClassifier.js:68 | with known labels every target is 1 |
| ImageClassifier.WithoutLabel | src/components/ImageClassifier.js:118 | removes exactly the images with that label, keeping the rest |
| ImageClassifier.DeleteKeepsConsistent | src/components/ImageClassifier.js:116-120 | deleting a label with its images keeps every image's label among the labels |
| ImageClassifier.CleanSimilarities | src/components/ImageClassifier.js:87-92 | one line per label, in order, with the output at its index or 0 where it is NaN or missing |
| ImageClassifier.SingleOutputScoresFirstLabelOnly | src/components/ImageClassifier.js:87-92 | with one output unit every label after the first shows 0 |
| ImageClassifier.Classifier.constructor | src/components/ImageClassifier.js:6-14 | the initial empty state |
| ImageClassifier.Classifier.SetCurrentLabel | src/components/ImageClassifier.js:131 | sets only currentLabel |
| ImageClassifier.Classifier.LoadCurrentImage | src/components/ImageClassifier.js:23-26 | the loaded image becomes the current image and the prediction is cleared |
| ImageClassifier.Classifier.LoadInputImage | src/components/ImageClassifier.js:23-26 | the loaded image becomes the input image and the prediction is cleared |
| ImageClassifier.Classifier.HandleAddLabel | src/components/ImageClassifier.js:100-106 | a non-blank label is appended, the field cleared and the data marked changed; otherwise nothing changes |
| ImageClassifier.Classifier.HandleAddImage | src/components/ImageClassifier.js:108-114 | with an image and a non-blank label, appends the pair, clears the current image and marks the data changed; otherwise nothing changes |
| ImageClassifier.Classifier.HandleDeleteLabel | src/components/ImageClassifier.js:116-120 | removes the label and its images, in order, and marks the data changed |
| ImageClassifier.Classifier.TrainModel | src/components/ImageClassifier.js:35-81 | refuses without new data or with no image or no label; otherwise fits on the images with 0/1 targets and clears dataChanged |
| ImageClassifier.Classifier.HandlePredict | src/components/ImageClassifier.js:83-96 | with a network and an input image, shows the cleaned per-label list; otherwise nothing changes |
| Kahoot.Advance | src/components/kahoot.js:63-71 | before the last question moves on with a fresh countdown and no selection; at the last question changes nothing |
| Kahoot.Step | src/components/kahoot.js:55-81 | the question stays in range and the score rises by one exactly for a correct answer |
| Kahoot.Play | src/components/kahoot.js:55-81 | over any run of events the question stays in range and never goes back, and the score never falls and rises by at most one per event |
| Kahoot.CorrectAnswers | src/components/kahoot.js:57 | no more correct answers than events |
| Kahoot.ScoreCountsCorrectAnswers | src/components/kahoot.js:55-61 | the score grows by exactly the number of correct answers |
| Kahoot.LastQuestionKeepsScoring | src/components/kahoot.js:68-70 | at the last question, n correct answers stay on it, add n points and leave the option selected |
| Kahoot.AnswerKey | src/components/kahoot.js:41-53 | one event per remaining question, in order, each answering that question's correct option |
| Kahoot.AnswerKeyScoresAll | src/components/kahoot.js:55-71 | from any question, answering every remaining one correctly scores one point per remaining question and ends on the last question |
| Kahoot.Game.constructor | src/components/kahoot.js:35-39 | the initial state: question 0, score 0, ten seconds, no time-out, nothing selected |
| Kahoot.Game.GoToNextQuestion | src/components/kahoot.js:63-71 | the state becomes Advance of the old one |
| Kahoot.Game.HandleAnswer | src/components/kahoot.js:55-61 | the state becomes Step with the answer: one point iff correct, then advance |
| Kahoot.Game.HandleRetry | src/components/kahoot.js:73-76 | clears the time-out and resets the countdown, keeping question, score and selection |
| Kahoot.Game.HandleNext | src/components/kahoot.js:78-81 | clears the time-out and then advances as goToNextQuestion |
| Util.TrimStart | src/components/TextClassifier.js:79 | removes exactly the leading whitespace |
| Util.TrimEnd | src/components/TextClassifier.js:79 | removes exactly the trailing whitespace |
| Util.Trim | src/components/TextClassifier.js:79 | the trimmed text is no longer than the input, and when non-empty starts and ends with a non-whitespace character |
| Util.TrimIsInnerSlice | src/components/TextClassifier.js:71 | trim keeps an inner slice between whitespace-only ends |
| Util.TrimEmptyIffAllWhitespace | src/components/TextClassifier.js:79 | `s.trim() === ''` iff every character is whitespace, the guard the handlers use |
| Util.Keep | src/components/TextClassifier.js:98-99 | the filter keeps exactly the elements satisfying the predicate |
| Util.KeepAppend | src/components/TextClassifier.js:98-99 | filtering distributes over concatenation, so relative order is kept |
| Util.KeepAll | src/components/TextClassifier.js:98-99 | a filter that keeps everything changes nothing |
| Util.Without | src/components/TextClassifier.js:98 | the label is gone and every other label's membership is unchanged |
| Util.Zeros | src/components/TextClassifier.js:48 | n zeros |

## Left out

- D3 rendering (`drawClusters`, `drawInertiaGraph`) and JSX are output only. The planar `Clustering.Run` returns what would be drawn.
- CSV upload, `d3.csvParse`, `FileReader` and `parseFloat` are I/O. Points arrive already numeric, restricted to the selected columns.
- `Math.random` is not modelled. The centroid indices (`picks`) and the generated coordinates (`draws`) are parameters, with their ranges as preconditions.
- IEEE-754 doubles are modelled as exact reals:
  - rounding is not modelled;
  - the only NaN modelled is the empty cluster's `0/0`, as `Undefined`;
  - `Math.hypot` is replaced by the squared distance, since the square root preserves order.
- `KMeans.Run`: the inertia descent holds over reals. Floating-point rounding could in principle break it.
- `KMeans.Run`, `Clustering.Run`: `k` is an integer. The input field gives `Number(value)`, which can be fractional: then `initializeCentroids` draws `ceil(k)` seeds while `Array.from({ length: k })` makes `floor(k)` centroids, and a point assigned to the extra seed makes `updateCentroids` throw. That case is not modelled.
- `KMeans.Run`: points and centroids are keyed by the selected columns only. In the code a selected CSV column named `count` shares its key with the member count of `updateCentroids`, and one named `cluster` is overwritten by the assignment's tag. Such column names are not modelled.
- `Clustering.Dist2`: states that the squared distance is zero at the centroid, not that it is zero only there.
- TensorFlow.js (model construction, `fit`, `predict`, tensors, `tfvis`, `fromPixels`) is foreign code:
  - a fitted network is represented by its training set;
  - the text prediction handler returns the input row instead of storing the network's scores;
  - the image prediction handler takes the network's output as a parameter.
- The asynchronous `await model.fit` is not modelled. Each training handler is atomic. Data added while fitting runs would, in the code, have its `dataChanged` flag cleared afterwards.
- The quiz timer (`startTimer`/`setInterval` and its effect) is time-driven. Its closure reads a stale `timeLeft`, so its behaviour depends on React scheduling. Setting `showTimeout` to true therefore happens outside the model.
- The `epochs` state and its input are left out, because they only reach `fit`.
- The `handleImageUpload` file reading is not modelled. Only the effect of the image's `onload` is.
- `TextClassifier.LowerAscii`: `toLowerCase` is modelled on A–Z only. Other letters that JavaScript would lower-case are kept as they are.
- `TextClassifier.Code`: strings are sequences of Unicode scalar values, not UTF-16 code units. A character outside the Basic Multilingual Plane is one token here but two in JavaScript.
- `src/components/math.js` (an equation string for MathQuill), `src/App.js` (wiring) and the GeoGebra component are not part of this model.
