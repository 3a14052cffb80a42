/** The image classifier component (`src/components/ImageClassifier.js`): its
    labels and labelled training images, the 0/1 training targets, the
    per-label result list built from the network's output, and the handlers
    that change the component's state. Images are opaque handles (their pixels
    only ever reach TensorFlow), and the network is represented by the images
    and targets it was last fitted on. */
module ImageClassifier {
  import opened Util

  /** A loaded image, known only by identity. */
  datatype Image = Image(id: nat)

  /** One training example, `{ label, image }`. */
  datatype Sample = Sample(labelName: string, image: Image)

  /** What the network was fitted on: the images, in order, and their targets. */
  datatype TrainingSet = TrainingSet(inputs: seq<Image>, ys: seq<int>)

  /** One entry of the output of `model.predict(img).dataSync()`, read at some
      index: a number, or NaN (which is also what reading past its end yields,
      once `isNaN` has converted the `undefined`). */
  datatype Score = Num(v: real) | NaN

  /** One line of the result list, `{ label, similarity }`. */
  datatype LabelScore = LabelScore(labelName: string, similarity: real)

  datatype TrainOutcome =
    | NothingNew      // the alert: no data was added since the last training
    | NotEnoughData   // the console error: no image or no label
    | Fitted(trainingSet: TrainingSet)

  /* ---------------------------------------------------------------- targets */

  /** `images.map(({ label }) => labels.includes(label) ? 1 : 0)`. */
  function Targets(images: seq<Sample>, labels: seq<string>): (ys: seq<int>)
    ensures |ys| == |images|
    ensures forall i | 0 <= i < |images| :: ys[i] == 0 || ys[i] == 1
    ensures forall i | 0 <= i < |images| :: ys[i] == 1 <==> images[i].labelName in labels
  {
    seq(|images|, i requires 0 <= i < |images| => if images[i].labelName in labels then 1 else 0)
  }

  /** Every image carries one of the labels. */
  predicate Consistent(images: seq<Sample>, labels: seq<string>)
  {
    forall i | 0 <= i < |images| :: images[i].labelName in labels
  }

  /** When every image carries a known label, every target is 1: the binary
      network is only ever shown positive examples. A 0 can only come from an
      image added under a label typed into the label field but never added. */
  lemma ConsistentTargetsAllOne(images: seq<Sample>, labels: seq<string>)
    requires Consistent(images, labels)
    ensures Targets(images, labels) == seq(|images|, _ => 1)
  {
  }

  /** `images.filter(img => img.label !== x)`. */
  function WithoutLabel(images: seq<Sample>, x: string): (r: seq<Sample>)
    ensures forall i | 0 <= i < |r| :: r[i].labelName != x
    ensures forall s | s in r :: s in images
    ensures forall i | 0 <= i < |images| && images[i].labelName != x :: images[i] in r
  {
    Keep(images, (s: Sample) => s.labelName != x)
  }

  /** Deleting a label with its images keeps the images and labels consistent. */
  lemma DeleteKeepsConsistent(images: seq<Sample>, labels: seq<string>, x: string)
    requires Consistent(images, labels)
    ensures Consistent(WithoutLabel(images, x), Without(labels, x))
  {
    var r := WithoutLabel(images, x);
    forall i | 0 <= i < |r|
      ensures r[i].labelName in Without(labels, x)
    {
      assert r[i] in images;
    }
  }

  /* ---------------------------------------------------------------- results */

  /** `similarities` then `cleanSimilarities`: one line per label, in label
      order, carrying the network output at the label's index, or 0 where that
      output is NaN or missing. */
  function CleanSimilarities(labels: seq<string>, output: seq<Score>): (r: seq<LabelScore>)
    ensures |r| == |labels|
    ensures forall i | 0 <= i < |labels| :: r[i].labelName == labels[i]
    ensures forall i | 0 <= i < |labels| ::
              r[i].similarity == (if i < |output| && output[i].Num? then output[i].v else 0.0)
  {
    seq(|labels|, i requires 0 <= i < |labels| =>
      LabelScore(labels[i], if i < |output| && output[i].Num? then output[i].v else 0.0))
  }

  /** The network has a single output unit, so only the first label can get a
      non-zero similarity; every later label reads past the end and shows 0. */
  lemma SingleOutputScoresFirstLabelOnly(labels: seq<string>, output: seq<Score>)
    requires |output| == 1
    ensures forall i | 1 <= i < |labels| :: CleanSimilarities(labels, output)[i].similarity == 0.0
    ensures |labels| > 0 && output[0].Num? ==> CleanSimilarities(labels, output)[0].similarity == output[0].v
  {
  }

  /* ------------------------------------------------------------------ state */

  class Classifier {
    var labels: seq<string>
    var currentLabel: string
    var images: seq<Sample>
    var currentImage: Option<Image>
    /** The network (`model`), as the training set it was fitted on. */
    var model: Option<TrainingSet>
    var inputImage: Option<Image>
    var prediction: Option<seq<LabelScore>>
    var isModelTrained: bool
    var dataChanged: bool

    /** Every label and image label is non-blank, and a network exists exactly
        when one was trained. */
    ghost predicate Valid()
      reads this
    {
      && (forall i | 0 <= i < |labels| :: !AllWhitespace(labels[i]))
      && (forall i | 0 <= i < |images| :: !AllWhitespace(images[i].labelName))
      && (isModelTrained <==> model.Some?)
    }

    constructor ()
      ensures Valid()
      ensures labels == [] && currentLabel == [] && images == [] && currentImage == None
      ensures model == None && inputImage == None && prediction == None
      ensures !isModelTrained && !dataChanged
    {
      labels, currentLabel, images, currentImage := [], [], [], None;
      model, inputImage, prediction := None, None, None;
      isModelTrained, dataChanged := false, false;
    }

    /** The label input and the label selector both write `currentLabel`. */
    method SetCurrentLabel(s: string)
      modifies this
      ensures currentLabel == s
      ensures labels == old(labels) && images == old(images) && currentImage == old(currentImage)
      ensures model == old(model) && inputImage == old(inputImage) && prediction == old(prediction)
      ensures isModelTrained == old(isModelTrained) && dataChanged == old(dataChanged)
    {
      currentLabel := s;
    }

    /** `handleImageUpload(e, setCurrentImage)` once the image has loaded: the
        image becomes the current one and the shown prediction is cleared. */
    method LoadCurrentImage(img: Image)
      modifies this
      ensures currentImage == Some(img) && prediction == None
      ensures labels == old(labels) && currentLabel == old(currentLabel) && images == old(images)
      ensures model == old(model) && inputImage == old(inputImage)
      ensures isModelTrained == old(isModelTrained) && dataChanged == old(dataChanged)
    {
      currentImage := Some(img);
      prediction := None;
    }

    /** `handleImageUpload(e, setInputImage)` once the image has loaded. */
    method LoadInputImage(img: Image)
      modifies this
      ensures inputImage == Some(img) && prediction == None
      ensures labels == old(labels) && currentLabel == old(currentLabel) && images == old(images)
      ensures currentImage == old(currentImage) && model == old(model)
      ensures isModelTrained == old(isModelTrained) && dataChanged == old(dataChanged)
    {
      inputImage := Some(img);
      prediction := None;
    }

    /** `handleAddLabel`: a non-blank label is appended as typed, the input is
        cleared and the data marked changed; a blank one changes nothing. */
    method HandleAddLabel()
      requires Valid()
      modifies this
      ensures Valid()
      ensures !AllWhitespace(old(currentLabel)) ==>
                labels == old(labels) + [old(currentLabel)] && currentLabel == [] && dataChanged
      ensures AllWhitespace(old(currentLabel)) ==>
                labels == old(labels) && currentLabel == old(currentLabel) && dataChanged == old(dataChanged)
      ensures images == old(images) && currentImage == old(currentImage) && model == old(model)
      ensures inputImage == old(inputImage) && prediction == old(prediction)
      ensures isModelTrained == old(isModelTrained)
    {
      if !AllWhitespace(currentLabel) {
        labels := labels + [currentLabel];
        currentLabel := [];
        dataChanged := true;
      }
    }

    /** `handleAddImage`: with an image loaded and a non-blank current label,
        appends the pair, forgets the current image and marks the data changed;
        otherwise nothing changes. */
    method HandleAddImage()
      requires Valid()
      modifies this
      ensures Valid()
      ensures old(currentImage).Some? && !AllWhitespace(old(currentLabel)) ==>
                && images == old(images) + [Sample(old(currentLabel), old(currentImage).value)]
                && currentImage == None && dataChanged
      ensures !(old(currentImage).Some? && !AllWhitespace(old(currentLabel))) ==>
                images == old(images) && currentImage == old(currentImage) && dataChanged == old(dataChanged)
      ensures labels == old(labels) && currentLabel == old(currentLabel) && model == old(model)
      ensures inputImage == old(inputImage) && prediction == old(prediction)
      ensures isModelTrained == old(isModelTrained)
    {
      if currentImage.Some? && !AllWhitespace(currentLabel) {
        images := images + [Sample(currentLabel, currentImage.value)];
        currentImage := None;
        dataChanged := true;
      }
    }

    /** `handleDeleteLabel(x)`: drops every occurrence of `x` from the labels and
        every image carrying it, in order, and marks the data changed. */
    method HandleDeleteLabel(x: string)
      requires Valid()
      modifies this
      ensures Valid()
      ensures labels == Without(old(labels), x) && images == WithoutLabel(old(images), x) && dataChanged
      ensures currentLabel == old(currentLabel) && currentImage == old(currentImage) && model == old(model)
      ensures inputImage == old(inputImage) && prediction == old(prediction)
      ensures isModelTrained == old(isModelTrained)
    {
      ghost var oldLabels, oldImages := labels, images;
      labels := Without(labels, x);
      images := WithoutLabel(images, x);
      dataChanged := true;
      forall i | 0 <= i < |labels|
        ensures !AllWhitespace(labels[i])
      {
        assert labels[i] in labels && labels[i] != x;
        var j :| 0 <= j < |oldLabels| && oldLabels[j] == labels[i];
      }
      forall i | 0 <= i < |images|
        ensures !AllWhitespace(images[i].labelName)
      {
        assert images[i] in images;
        var j :| 0 <= j < |oldImages| && oldImages[j] == images[i];
      }
    }

    /** `trainModel`: refuses when nothing changed since the last training or
        when there is no image or no label; otherwise fits the network on the
        images with their 0/1 targets and clears `dataChanged`. */
    method TrainModel() returns (outcome: TrainOutcome)
      requires Valid()
      modifies this
      ensures Valid()
      ensures !old(dataChanged) ==> outcome == NothingNew
      ensures old(dataChanged) && (old(images) == [] || old(labels) == []) ==> outcome == NotEnoughData
      ensures outcome.Fitted? <==> old(dataChanged) && old(images) != [] && old(labels) != []
      ensures outcome.Fitted? ==>
                && |outcome.trainingSet.inputs| == |images|
                && (forall i | 0 <= i < |images| :: outcome.trainingSet.inputs[i] == images[i].image)
                && outcome.trainingSet.ys == Targets(images, labels)
                && model == Some(outcome.trainingSet) && isModelTrained && !dataChanged
      ensures !outcome.Fitted? ==>
                model == old(model) && isModelTrained == old(isModelTrained) && dataChanged == old(dataChanged)
      ensures labels == old(labels) && images == old(images) && currentLabel == old(currentLabel)
      ensures currentImage == old(currentImage) && inputImage == old(inputImage) && prediction == old(prediction)
    {
      if !dataChanged {
        return NothingNew;
      }
      if |images| == 0 || |labels| == 0 {
        return NotEnoughData;
      }
      var samples := images;
      var inputs := seq(|samples|, i requires 0 <= i < |samples| => samples[i].image);
      var trainingSet := TrainingSet(inputs, Targets(images, labels));
      model := Some(trainingSet);
      isModelTrained := true;
      dataChanged := false;
      return Fitted(trainingSet);
    }

    /** `handlePredict`, given the network's `output` for the input image: with
        a network and an input image, shows one cleaned line per label;
        otherwise nothing changes. */
    method HandlePredict(output: seq<Score>)
      modifies this
      ensures model.Some? && inputImage.Some? ==> prediction == Some(CleanSimilarities(labels, output))
      ensures !(model.Some? && inputImage.Some?) ==> prediction == old(prediction)
      ensures labels == old(labels) && currentLabel == old(currentLabel) && images == old(images)
      ensures currentImage == old(currentImage) && model == old(model) && inputImage == old(inputImage)
      ensures isModelTrained == old(isModelTrained) && dataChanged == old(dataChanged)
    {
      if model.Some? && inputImage.Some? {
        prediction := Some(CleanSimilarities(labels, output));
      }
    }
  }
}
