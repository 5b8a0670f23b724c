/** The two classifiers: the rule table on the latest EAR, and the sequence
    model whose `(1, 24, 2)` input is built from the window. */
module Classifiers {
  import opened FeatureWindow

  /** Cut-off between the drowsy and the alert label (`0.7f`). */
  const DrowsyThreshold: real := 0.7

  /** Status published when the interpreter throws. */
  const TfFailedStatus: string := "Error: TF Prediction Failed"

  /** The rule table of `makeMediaPipePrediction`. */
  function RuleProbability(ear: real): (p: real)
    ensures p == 0.9 || p == 0.7 || p == 0.3 || p == 0.1
    ensures p >= DrowsyThreshold <==> ear < 0.25
  {
    if ear < 0.20 then 0.9
    else if ear < 0.25 then 0.7
    else if ear < 0.30 then 0.3
    else 0.1
  }

  /** The rule label, thresholded inclusively (`>= 0.7f`): drowsy exactly
      when the EAR is below 0.25. */
  function RuleStatus(ear: real): (status: string)
    ensures status == "Drowsy (Rule)" <==> ear < 0.25
    ensures status == "Alert (Rule)" <==> ear >= 0.25
  {
    if RuleProbability(ear) >= DrowsyThreshold then "Drowsy (Rule)" else "Alert (Rule)"
  }

  /** A lower EAR (more closed eyes) never gives a lower drowsiness probability. */
  lemma RuleProbabilityMonotone(a: real, b: real)
    requires a <= b
    ensures RuleProbability(a) >= RuleProbability(b)
  {
  }

  /** The four sample points of the rule table. */
  lemma RuleTableSamples()
    ensures RuleProbability(0.15) == 0.9 && RuleStatus(0.15) == "Drowsy (Rule)"
    ensures RuleProbability(0.22) == 0.7 && RuleStatus(0.22) == "Drowsy (Rule)"
    ensures RuleProbability(0.28) == 0.3 && RuleStatus(0.28) == "Alert (Rule)"
    ensures RuleProbability(0.35) == 0.1 && RuleStatus(0.35) == "Alert (Rule)"
  {
  }

  /** The model label, thresholded strictly (`> 0.7f`). */
  function ModelStatus(p: real): (status: string)
    ensures status == "Drowsy" <==> p > DrowsyThreshold
    ensures status == "Alert" <==> p <= DrowsyThreshold
  {
    if p > DrowsyThreshold then "Drowsy" else "Alert"
  }

  /** The two paths disagree at a probability of exactly 0.7: the rule path,
      which yields 0.7 for every EAR in [0.20, 0.25), calls it drowsy, the
      model path calls it alert. */
  lemma ThresholdAsymmetry(ear: real)
    requires 0.20 <= ear < 0.25
    ensures RuleProbability(ear) == DrowsyThreshold && RuleStatus(ear) == "Drowsy (Rule)"
    ensures ModelStatus(DrowsyThreshold) == "Alert"
  {
  }

  /** One tensor row: the entry when it has two values, zeros otherwise. */
  function InputRow(f: Features): (row: seq<real>)
    ensures |row| == 2
    ensures |f| == 2 ==> row == f
    ensures |f| != 2 ==> row == [0.0, 0.0]
  {
    if |f| == 2 then f else [0.0, 0.0]
  }

  /** The rows of the model input: `MaxSeqLen - |window|` zero rows, then
      the window's entries, oldest first. */
  function PaddedInput(window: seq<Features>): (rows: seq<seq<real>>)
    requires |window| <= MaxSeqLen
    ensures |rows| == MaxSeqLen
    ensures forall r :: 0 <= r < MaxSeqLen ==> |rows[r]| == 2
    ensures forall r :: 0 <= r < MaxSeqLen - |window| ==> rows[r] == [0.0, 0.0]
    ensures forall i :: 0 <= i < |window| ==> rows[MaxSeqLen - |window| + i] == InputRow(window[i])
  {
    seq(MaxSeqLen, r requires 0 <= r < MaxSeqLen => PaddedRow(window, r))
  }

  /** Row `r` of the model input. */
  function PaddedRow(window: seq<Features>, r: nat): (row: seq<real>)
    requires |window| <= MaxSeqLen && r < MaxSeqLen
    ensures |row| == 2
  {
    var pad := MaxSeqLen - |window|;
    if r < pad then [0.0, 0.0] else InputRow(window[r - pad])
  }

  /** A full window of two-value entries is passed to the model as it is:
      no padding row and no zeroed row. */
  lemma FullWindowIsInput(window: seq<Features>)
    requires |window| == MaxSeqLen
    requires forall i :: 0 <= i < |window| ==> |window[i]| == 2
    ensures PaddedInput(window) == window
  {
    var rows := PaddedInput(window);
    forall r | 0 <= r < MaxSeqLen
      ensures rows[r] == window[r]
    {
      assert rows[MaxSeqLen - |window| + r] == InputRow(window[r]);
    }
  }

  /** The batch-0 rows of a `(1, n, 2)` tensor. */
  function Rows(a: array3<real>): (rows: seq<seq<real>>)
    reads a
    requires a.Length0 == 1 && a.Length2 == 2
    ensures |rows| == a.Length1
    ensures forall r :: 0 <= r < a.Length1 ==> rows[r] == [a[0, r, 0], a[0, r, 1]]
  {
    seq(a.Length1, r requires 0 <= r < a.Length1 reads a => [a[0, r, 0], a[0, r, 1]])
  }

  /** Fills the `(1, maxSeqLen, 2)` input array: the padding rows first, then
      each window entry at `paddingNeeded + index`. */
  method BuildInput(window: seq<Features>) returns (input: array3<real>)
    requires |window| <= MaxSeqLen
    ensures fresh(input)
    ensures input.Length0 == 1 && input.Length1 == MaxSeqLen && input.Length2 == 2
    ensures Rows(input) == PaddedInput(window)
  {
    input := new real[1, MaxSeqLen, 2]((_, _, _) => 0.0);
    var paddingNeeded := MaxSeqLen - |window|;
    for i := 0 to paddingNeeded
      invariant forall r, c :: 0 <= r < MaxSeqLen && 0 <= c < 2 ==> input[0, r, c] == 0.0
    {
      input[0, i, 0] := 0.0;
      input[0, i, 1] := 0.0;
    }
    for index := 0 to |window|
      invariant forall r, c :: 0 <= r < MaxSeqLen && 0 <= c < 2 ==>
        input[0, r, c] == if paddingNeeded <= r < paddingNeeded + index
                          then InputRow(window[r - paddingNeeded])[c] else 0.0
    {
      var features := window[index];
      var targetIndex := paddingNeeded + index;
      if |features| == 2 && targetIndex < MaxSeqLen {
        input[0, targetIndex, 0] := features[0];
        input[0, targetIndex, 1] := features[1];
      } else if targetIndex < MaxSeqLen {
        input[0, targetIndex, 0] := 0.0;
        input[0, targetIndex, 1] := 0.0;
      }
    }
    ghost var rows := PaddedInput(window);
    forall r | 0 <= r < MaxSeqLen
      ensures Rows(input)[r] == rows[r]
    {
      if r >= paddingNeeded {
        assert rows[MaxSeqLen - |window| + (r - paddingNeeded)] == InputRow(window[r - paddingNeeded]);
      }
    }
  }
}
