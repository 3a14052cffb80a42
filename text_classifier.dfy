/** The text classifier component (`src/components/TextClassifier.js`): its
    labels and training texts, the fixed-length character encoding fed to the
    network, and the handlers that change the component's state. The network
    itself (built and fitted by TensorFlow) is represented only by the
    training set it was last fitted on. */
module TextClassifier {
  import opened Util

  /** `maxTextLength`: every row fed to the network has ten tokens. */
  const MaxTextLength: nat := 10
  /** `numWords`: character codes are reduced modulo 256. */
  const NumWords: nat := 256

  /** One training example, `{ label, text }`. */
  datatype Sample = Sample(labelName: string, text: string)

  /** The rows and targets a network was fitted on: `xs` holds one encoded row
      per training text and `ys` the index of its label in `labels`. */
  datatype TrainingSet = TrainingSet(xs: seq<seq<int>>, ys: seq<int>, numClasses: nat)

  /** The result of pressing the training button. */
  datatype TrainOutcome =
    | NothingNew      // the alert: no data was added since the last training
    | NotEnoughData   // the console error: no text or no label
    | Fitted(trainingSet: TrainingSet)

  /* --------------------------------------------------------------- encoding */

  /** `text.substring(0, 10).padEnd(10, ' ')`: the first ten characters of the
      input, followed by as many spaces as needed to reach ten. */
  function StoredText(s: string): (t: string)
    ensures |t| == MaxTextLength
    ensures forall i | 0 <= i < MaxTextLength && i < |s| :: t[i] == s[i]
    ensures forall i | |s| <= i < MaxTextLength :: t[i] == ' '
  {
    if |s| >= MaxTextLength then s[..MaxTextLength]
    else s + seq(MaxTextLength - |s|, _ => ' ')
  }

  /** Storing a stored text again changes nothing. */
  lemma StoredTextIdempotent(s: string)
    ensures StoredText(StoredText(s)) == StoredText(s)
  {
    assert StoredText(s)[..MaxTextLength] == StoredText(s);
  }

  /** `char.charCodeAt(0) % 256`. */
  function Code(c: char): (n: int)
    ensures 0 <= n < NumWords
  {
    (c as int) % NumWords
  }

  /** `s.split('').map(char => char.charCodeAt(0) % 256)`. */
  function Encode(s: string): (codes: seq<int>)
    ensures |codes| == |s|
    ensures forall i | 0 <= i < |s| :: 0 <= codes[i] < NumWords && codes[i] == Code(s[i])
  {
    seq(|s|, i requires 0 <= i < |s| => Code(s[i]))
  }

  /** The training row of a text: its codes followed by
      `Array(10 - codes.length).fill(0)`. A text longer than ten characters
      makes `Array` throw (a negative length), which is None. */
  function TrainingRow(text: string): (r: Option<seq<int>>)
    ensures r.Some? <==> |text| <= MaxTextLength
    ensures r.Some? ==>
              && |r.value| == MaxTextLength
              && r.value[..|text|] == Encode(text)
              && forall i | |text| <= i < MaxTextLength :: r.value[i] == 0
  {
    if |text| > MaxTextLength then None
    else
      var row := Encode(text) + Zeros(MaxTextLength - |text|);
      assert row[..|text|] == Encode(text);
      Some(row)
  }

  /** A stored text is already ten characters long, so its training row is its
      encoding with no zero padding. */
  lemma TrainingRowOfStored(t: string)
    requires |t| == MaxTextLength
    ensures TrainingRow(t) == Some(Encode(t))
  {
    assert TrainingRow(t).value == TrainingRow(t).value[..|t|];
  }

  /** `toLowerCase` on the letters A to Z; every other character is kept. */
  function LowerAscii(c: char): (l: char)
    ensures 'A' <= c <= 'Z' ==> l as int == c as int + 32
    ensures !('A' <= c <= 'Z') ==> l == c
  {
    if 'A' <= c <= 'Z' then (c as int + 32) as char else c
  }

  function Lower(s: string): (l: string)
    ensures |l| == |s| && forall i | 0 <= i < |s| :: l[i] == LowerAscii(s[i])
  {
    seq(|s|, i requires 0 <= i < |s| => LowerAscii(s[i]))
  }

  /** `[...Array(10).fill(0), ...tokens].slice(-10)`: the last ten tokens, or,
      when there are fewer, the tokens after enough zeros to make ten. */
  function PaddedTokens(tokens: seq<int>): (r: seq<int>)
    ensures |r| == MaxTextLength
    ensures |tokens| >= MaxTextLength ==> r == tokens[|tokens| - MaxTextLength..]
    ensures |tokens| < MaxTextLength ==> r == Zeros(MaxTextLength - |tokens|) + tokens
    ensures (forall i | 0 <= i < |tokens| :: 0 <= tokens[i] < NumWords) ==>
              forall i | 0 <= i < MaxTextLength :: 0 <= r[i] < NumWords
  {
    var all := Zeros(MaxTextLength) + tokens;
    var r := all[|all| - MaxTextLength..];
    assert |tokens| < MaxTextLength ==> r == Zeros(MaxTextLength - |tokens|) + tokens;
    r
  }

  /** The padded encoding of an already trimmed and lower-cased input. */
  function PaddedEncoding(s: string): (r: seq<int>)
    ensures |r| == MaxTextLength && forall i | 0 <= i < MaxTextLength :: 0 <= r[i] < NumWords
  {
    PaddedTokens(Encode(s))
  }

  /** The row `handlePredict` feeds to the network for `inputText`. */
  function PredictionRow(inputText: string): (r: seq<int>)
    ensures |r| == MaxTextLength && forall i | 0 <= i < MaxTextLength :: 0 <= r[i] < NumWords
  {
    PaddedEncoding(Lower(Trim(inputText)))
  }

  /* ---------------------------------------------------------------- targets */

  /** `labels.indexOf(x)`: the first position of `x`, or -1. */
  function IndexOf(labels: seq<string>, x: string): (i: int)
    ensures -1 <= i < |labels|
    ensures i == -1 <==> x !in labels
    ensures i >= 0 ==> labels[i] == x && forall j | 0 <= j < i :: labels[j] != x
  {
    if labels == [] then -1
    else if labels[0] == x then 0
    else
      var j := IndexOf(labels[1..], x);
      if j == -1 then -1 else j + 1
  }

  /** The label indices of the training texts (before one-hot encoding). */
  function Targets(texts: seq<Sample>, labels: seq<string>): (ys: seq<int>)
    ensures |ys| == |texts|
    ensures forall i | 0 <= i < |texts| :: ys[i] == IndexOf(labels, texts[i].labelName)
  {
    seq(|texts|, i requires 0 <= i < |texts| => IndexOf(labels, texts[i].labelName))
  }

  /** Every text carries one of the labels. */
  predicate Consistent(texts: seq<Sample>, labels: seq<string>)
  {
    forall i | 0 <= i < |texts| :: texts[i].labelName in labels
  }

  /** When every text carries a known label, every target is a valid class
      index naming that label. */
  lemma TargetsInRange(texts: seq<Sample>, labels: seq<string>)
    requires Consistent(texts, labels)
    ensures forall i | 0 <= i < |texts| ::
              && 0 <= Targets(texts, labels)[i] < |labels|
              && labels[Targets(texts, labels)[i]] == texts[i].labelName
  {
  }

  /** The training set fitted from the stored texts. */
  function TrainingSetOf(texts: seq<Sample>, labels: seq<string>): (ts: TrainingSet)
    requires forall i | 0 <= i < |texts| :: |texts[i].text| == MaxTextLength
    ensures |ts.xs| == |texts| && ts.ys == Targets(texts, labels) && ts.numClasses == |labels|
    ensures forall i | 0 <= i < |texts| ::
              |ts.xs[i]| == MaxTextLength && Some(ts.xs[i]) == TrainingRow(texts[i].text)
  {
    assert forall i | 0 <= i < |texts| :: TrainingRow(texts[i].text) == Some(Encode(texts[i].text)) by {
      forall i | 0 <= i < |texts| {
        TrainingRowOfStored(texts[i].text);
      }
    }
    TrainingSet(seq(|texts|, i requires 0 <= i < |texts| => Encode(texts[i].text)), Targets(texts, labels), |labels|)
  }

  /** `texts.filter(text => text.labelName !== x)`. */
  function WithoutLabel(texts: seq<Sample>, x: string): (r: seq<Sample>)
    ensures forall i | 0 <= i < |r| :: r[i].labelName != x
    ensures forall t | t in r :: t in texts
    ensures forall i | 0 <= i < |texts| && texts[i].labelName != x :: texts[i] in r
  {
    Keep(texts, (t: Sample) => t.labelName != x)
  }

  /** Deleting a label with its texts keeps the texts and labels consistent. */
  lemma DeleteKeepsConsistent(texts: seq<Sample>, labels: seq<string>, x: string)
    requires Consistent(texts, labels)
    ensures Consistent(WithoutLabel(texts, x), Without(labels, x))
  {
    var r := WithoutLabel(texts, x);
    forall i | 0 <= i < |r|
      ensures r[i].labelName in Without(labels, x)
    {
      assert r[i] in texts;
    }
  }

  /** Appending a text keeps the texts consistent with the labels exactly when
      its label is one of them. `handleAddText` takes the label from
      `currentLabel`, which the label input field also writes, so a label typed
      there but never added reaches a text, and its target is -1. */
  lemma AppendConsistent(texts: seq<Sample>, labels: seq<string>, t: Sample)
    requires Consistent(texts, labels)
    ensures Consistent(texts + [t], labels) <==> t.labelName in labels
  {
    if Consistent(texts + [t], labels) {
      assert (texts + [t])[|texts|] == t;
    }
  }

  /* ------------------------------------------------------------------ state */

  /** The component's state. */
  class Classifier {
    var labels: seq<string>
    var currentLabel: string
    var texts: seq<Sample>
    var currentText: string
    var inputText: string
    /** The training set the current network was fitted on (`model`), if any. */
    var model: Option<TrainingSet>
    var isModelTrained: bool
    var dataChanged: bool

    /** Every label and text label is non-blank, every stored text has ten
        characters, and a network exists exactly when one was trained. */
    ghost predicate Valid()
      reads this
    {
      && (forall i | 0 <= i < |labels| :: !AllWhitespace(labels[i]))
      && (forall i | 0 <= i < |texts| :: !AllWhitespace(texts[i].labelName) && |texts[i].text| == MaxTextLength)
      && (isModelTrained <==> model.Some?)
    }

    constructor ()
      ensures Valid()
      ensures labels == [] && currentLabel == [] && texts == [] && currentText == [] && inputText == []
      ensures model == None && !isModelTrained && !dataChanged
    {
      labels, currentLabel, texts, currentText, inputText := [], [], [], [], [];
      model, isModelTrained, dataChanged := None, false, false;
    }

    /** The label input and the label selector both write `currentLabel`. */
    method SetCurrentLabel(s: string)
      modifies this
      ensures currentLabel == s
      ensures labels == old(labels) && texts == old(texts) && currentText == old(currentText)
      ensures inputText == old(inputText) && model == old(model)
      ensures isModelTrained == old(isModelTrained) && dataChanged == old(dataChanged)
    {
      currentLabel := s;
    }

    method SetCurrentText(s: string)
      modifies this
      ensures currentText == s
      ensures labels == old(labels) && texts == old(texts) && currentLabel == old(currentLabel)
      ensures inputText == old(inputText) && model == old(model)
      ensures isModelTrained == old(isModelTrained) && dataChanged == old(dataChanged)
    {
      currentText := s;
    }

    method SetInputText(s: string)
      modifies this
      ensures inputText == s
      ensures labels == old(labels) && texts == old(texts) && currentLabel == old(currentLabel)
      ensures currentText == old(currentText) && model == old(model)
      ensures isModelTrained == old(isModelTrained) && dataChanged == old(dataChanged)
    {
      inputText := s;
    }

    /** `handleAddLabel`: a non-blank label is appended as typed (duplicates
        included), the input is cleared and the data marked changed; a blank
        one changes nothing. */
    method HandleAddLabel()
      requires Valid()
      modifies this
      ensures Valid()
      ensures !AllWhitespace(old(currentLabel)) ==>
                && labels == old(labels) + [old(currentLabel)]
                && currentLabel == [] && dataChanged
      ensures AllWhitespace(old(currentLabel)) ==>
                labels == old(labels) && currentLabel == old(currentLabel) && dataChanged == old(dataChanged)
      ensures texts == old(texts) && currentText == old(currentText) && inputText == old(inputText)
      ensures model == old(model) && isModelTrained == old(isModelTrained)
    {
      if !AllWhitespace(currentLabel) {
        labels := labels + [currentLabel];
        currentLabel := [];
        dataChanged := true;
      }
    }

    /** `handleAddText`: with a non-blank text and a non-blank current label,
        appends the text cut or padded to ten characters under that label,
        clears the text input (the label stays selected) and marks the data
        changed; otherwise nothing changes. */
    method HandleAddText()
      requires Valid()
      modifies this
      ensures Valid()
      ensures !AllWhitespace(old(currentText)) && !AllWhitespace(old(currentLabel)) ==>
                && texts == old(texts) + [Sample(old(currentLabel), StoredText(old(currentText)))]
                && currentText == [] && dataChanged
      ensures !(!AllWhitespace(old(currentText)) && !AllWhitespace(old(currentLabel))) ==>
                texts == old(texts) && currentText == old(currentText) && dataChanged == old(dataChanged)
      ensures labels == old(labels) && currentLabel == old(currentLabel) && inputText == old(inputText)
      ensures model == old(model) && isModelTrained == old(isModelTrained)
    {
      if !AllWhitespace(currentText) && !AllWhitespace(currentLabel) {
        var truncatedText := StoredText(currentText);
        texts := texts + [Sample(currentLabel, truncatedText)];
        currentText := [];
        dataChanged := true;
      }
    }

    /** `handleDeleteLabel(x)`: drops every occurrence of `x` from the labels and
        every text carrying it, in order, and marks the data changed. */
    method HandleDeleteLabel(x: string)
      requires Valid()
      modifies this
      ensures Valid()
      ensures labels == Without(old(labels), x) && texts == WithoutLabel(old(texts), x) && dataChanged
      ensures currentLabel == old(currentLabel) && currentText == old(currentText) && inputText == old(inputText)
      ensures model == old(model) && isModelTrained == old(isModelTrained)
    {
      ghost var oldLabels, oldTexts := labels, texts;
      labels := Without(labels, x);
      texts := WithoutLabel(texts, x);
      dataChanged := true;
      forall i | 0 <= i < |labels|
        ensures !AllWhitespace(labels[i])
      {
        assert labels[i] in labels && labels[i] != x;
        var j :| 0 <= j < |oldLabels| && oldLabels[j] == labels[i];
      }
      forall i | 0 <= i < |texts|
        ensures !AllWhitespace(texts[i].labelName) && |texts[i].text| == MaxTextLength
      {
        assert texts[i] in texts;
        var j :| 0 <= j < |oldTexts| && oldTexts[j] == texts[i];
      }
    }

    /** `trainModel`: refuses when nothing changed since the last training or
        when there is no text or no label; otherwise fits a network on the
        encoded texts and their label indices, and clears `dataChanged`. */
    method TrainModel() returns (outcome: TrainOutcome)
      requires Valid()
      modifies this
      ensures Valid()
      ensures !old(dataChanged) ==> outcome == NothingNew
      ensures old(dataChanged) && (old(texts) == [] || old(labels) == []) ==> outcome == NotEnoughData
      ensures outcome.Fitted? <==> old(dataChanged) && old(texts) != [] && old(labels) != []
      ensures outcome.Fitted? ==>
                && outcome.trainingSet == TrainingSetOf(texts, labels)
                && model == Some(outcome.trainingSet) && isModelTrained && !dataChanged
      ensures !outcome.Fitted? ==>
                model == old(model) && isModelTrained == old(isModelTrained) && dataChanged == old(dataChanged)
      ensures labels == old(labels) && texts == old(texts)
      ensures currentLabel == old(currentLabel) && currentText == old(currentText) && inputText == old(inputText)
    {
      if !dataChanged {
        return NothingNew;
      }
      if |texts| == 0 || |labels| == 0 {
        return NotEnoughData;
      }
      var trainingSet := TrainingSetOf(texts, labels);
      model := Some(trainingSet);
      isModelTrained := true;
      dataChanged := false;
      return Fitted(trainingSet);
    }

    /** `handlePredict`: with a network and a non-blank input, the row fed to
        the network; otherwise nothing happens. */
    method HandlePredict() returns (row: Option<seq<int>>)
      ensures row.Some? <==> model.Some? && Trim(inputText) != []
      ensures row.Some? ==> row.value == PredictionRow(inputText)
    {
      if model.Some? && Trim(inputText) != [] {
        var tokens := Encode(Lower(Trim(inputText)));
        return Some(PaddedTokens(tokens));
      }
      return None;
    }
  }
}
