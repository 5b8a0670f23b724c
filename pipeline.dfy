/** One detection cycle as a function of the pipeline's observable state:
    the window and the status record. The view model's methods are proved
    to compute exactly these functions. */
module Pipeline {
  import opened Wrappers
  import opened State
  import opened Geometry
  import opened FeatureWindow
  import opened Classifiers

  /** A decoded camera bitmap, by the dimensions the cycle passes on. */
  datatype Bitmap = Bitmap(width: nat, height: nat)

  /** What `faceLandmarker.detect` gives: it throws, returns null, or
      returns the landmark lists of the faces found (possibly none). */
  datatype Detection = DetectThrew | DetectNull | Detected(faces: seq<seq<Landmark>>)

  /** `interpreter.run` on the input rows: the drowsiness probability, or
      None when it throws. */
  type Inference = seq<seq<real>> -> Option<real>

  datatype Snapshot = Snapshot(window: seq<Features>, state: DrowsinessState)

  /** What every window the pipeline builds satisfies: within capacity, and
      every entry a two-value `[ear, mar]` array. */
  predicate WellFormed(window: seq<Features>) {
    |window| <= MaxSeqLen && forall i :: 0 <= i < |window| ==> |window[i]| == 2
  }

  /** `makeMediaPipePrediction`: status and probability both overwritten. */
  function RuleUpdate(s: DrowsinessState, ear: real): (r: DrowsinessState)
    ensures r.featureCount == s.featureCount
    ensures r.probability == RuleProbability(ear)
    ensures r.status == "Drowsy (Rule)" <==> r.probability >= DrowsyThreshold
    ensures r.status == "Alert (Rule)" <==> r.probability < DrowsyThreshold
  {
    s.(status := RuleStatus(ear), probability := RuleProbability(ear))
  }

  /** `makeTensorFlowPrediction` with an interpreter: on success the
      status and the probability are overwritten; when inference throws only
      the status changes, to the error label. */
  function ModelUpdate(s: DrowsinessState, window: seq<Features>, run: Inference): (r: DrowsinessState)
    requires |window| <= MaxSeqLen
    ensures r.featureCount == s.featureCount
    ensures run(PaddedInput(window)).Some? ==>
      r.status == ModelStatus(run(PaddedInput(window)).value) && r.probability == run(PaddedInput(window)).value
    ensures run(PaddedInput(window)).None? ==>
      r.status == TfFailedStatus && r.probability == s.probability
  {
    match run(PaddedInput(window))
    case Some(p) => s.(status := ModelStatus(p), probability := p)
    case None => s.(status := TfFailedStatus)
  }

  /** The part of `handleFaceLandmarkerResult` after the features are
      computed: push, publish the fill level, classify once the window
      holds `MinSeqLen` entries. */
  function Observe(snap: Snapshot, ear: real, mar: real, hasModel: bool, run: Inference): (r: Snapshot)
    requires |snap.window| <= MaxSeqLen
    ensures |r.window| <= MaxSeqLen
    ensures r.state.featureCount == |r.window|
    ensures |r.window| > 0 && r.window[|r.window| - 1] == [ear, mar]
  {
    PushedIsLast(snap.window, [ear, mar]);
    var window := Pushed(snap.window, [ear, mar]);
    var counted := snap.state.(featureCount := |window|);
    var state :=
      if |window| >= MinSeqLen then
        if hasModel then ModelUpdate(counted, window, run) else RuleUpdate(counted, ear)
      else counted;
    Snapshot(window, state)
  }

  /** `handleFaceLandmarkerResult`: nothing happens without a face;
      otherwise the first face's EAR and MAR are observed. */
  function HandleResult(snap: Snapshot, faces: seq<seq<Landmark>>, width: int, height: int,
                        dist: Distance, hasModel: bool, run: Inference): (r: Snapshot)
    requires |snap.window| <= MaxSeqLen
    ensures |r.window| <= MaxSeqLen
    ensures |faces| == 0 ==> r == snap
    ensures |faces| > 0 ==> r.state.featureCount == |r.window|
    ensures |faces| > 0 ==> (|r.window| > 0 && r.window[|r.window| - 1] ==
      [ComputeEAR(faces[0], width, height, dist), ComputeMAR(faces[0], width, height, dist)])
  {
    if |faces| == 0 then snap
    else
      var landmarks := faces[0];
      Observe(snap, ComputeEAR(landmarks, width, height, dist), ComputeMAR(landmarks, width, height, dist), hasModel, run)
  }

  /** The `try` block of `processImageWithMediaPipe`: a bitmap that fails to
      convert, a missing landmarker, a detector that throws or returns null
      all leave the state as it was. */
  function Analyze(snap: Snapshot, bitmap: Option<Bitmap>, hasLandmarker: bool, detect: Bitmap -> Detection,
                   dist: Distance, hasModel: bool, run: Inference): (r: Snapshot)
    requires |snap.window| <= MaxSeqLen
    ensures |r.window| <= MaxSeqLen
    ensures bitmap.None? || !hasLandmarker ==> r == snap
    ensures r == snap || r.state.featureCount == |r.window|
  {
    match bitmap
    case None => snap
    case Some(b) =>
      if !hasLandmarker then snap
      else
        match detect(b)
        case Detected(faces) => HandleResult(snap, faces, b.width, b.height, dist, hasModel, run)
        case _ => snap
  }

  /** One observed frame: the window holds the newest entries, stays well
      formed, `featureCount` is its size, and a classifier runs exactly when
      the window has reached `MinSeqLen`: the model on the whole window when
      an interpreter is loaded, the rule table on this frame's EAR otherwise. */
  lemma ObserveGating(snap: Snapshot, ear: real, mar: real, hasModel: bool, run: Inference)
    requires WellFormed(snap.window)
    ensures var r := Observe(snap, ear, mar, hasModel, run);
      && r.window == Last(snap.window + [[ear, mar]])
      && WellFormed(r.window)
      && r.state.featureCount == |r.window|
    ensures var r := Observe(snap, ear, mar, hasModel, run);
      |r.window| < MinSeqLen ==>
        r.state.status == snap.state.status && r.state.probability == snap.state.probability
    ensures var r := Observe(snap, ear, mar, hasModel, run);
      |r.window| >= MinSeqLen && !hasModel ==>
        r.state.status == RuleStatus(ear) && r.state.probability == RuleProbability(ear)
    ensures var r := Observe(snap, ear, mar, hasModel, run);
      |r.window| >= MinSeqLen && hasModel && run(r.window).Some? ==>
        r.state.status == ModelStatus(run(r.window).value) && r.state.probability == run(r.window).value
    ensures var r := Observe(snap, ear, mar, hasModel, run);
      |r.window| >= MinSeqLen && hasModel && run(r.window).None? ==>
        r.state.status == TfFailedStatus && r.state.probability == snap.state.probability
  {
    var window := Pushed(snap.window, [ear, mar]);
    PushedIsLast(snap.window, [ear, mar]);
    assert forall i :: 0 <= i < |window| ==> |window[i]| == 2 by {
      forall i | 0 <= i < |window| ensures |window[i]| == 2 {
        var offered := snap.window + [[ear, mar]];
        if |offered| > MaxSeqLen {
          assert window[i] == offered[i + 1];
        } else {
          assert window[i] == offered[i];
        }
      }
    }
    if |window| >= MinSeqLen {
      FullWindowIsInput(window);
    }
  }

  /** A cycle with no face changes nothing: not the window (it is not
      cleared), not `featureCount`, not the status or the probability. */
  lemma NoFaceNoChange(snap: Snapshot, b: Bitmap, hasLandmarker: bool, detect: Bitmap -> Detection,
                       dist: Distance, hasModel: bool, run: Inference)
    requires |snap.window| <= MaxSeqLen
    requires !hasLandmarker || detect(b).DetectThrew? || detect(b).DetectNull? || detect(b) == Detected([])
    ensures Analyze(snap, Some(b), hasLandmarker, detect, dist, hasModel, run) == snap
  {
  }

  /** The published `featureCount` is the window's size before and after
      every cycle, whether or not a face was found. */
  lemma AnalyzeKeepsCount(snap: Snapshot, bitmap: Option<Bitmap>, hasLandmarker: bool, detect: Bitmap -> Detection,
                          dist: Distance, hasModel: bool, run: Inference)
    requires WellFormed(snap.window) && snap.state.featureCount == |snap.window|
    ensures var r := Analyze(snap, bitmap, hasLandmarker, detect, dist, hasModel, run);
      WellFormed(r.window) && r.state.featureCount == |r.window|
  {
    if bitmap.Some? && hasLandmarker && detect(bitmap.value).Detected? && |detect(bitmap.value).faces| > 0 {
      var b := bitmap.value;
      var landmarks := detect(b).faces[0];
      ObserveGating(snap, ComputeEAR(landmarks, b.width, b.height, dist), ComputeMAR(landmarks, b.width, b.height, dist), hasModel, run);
    }
  }

  /** Observing the `(ear, mar)` pairs in order. */
  function ObserveAll(snap: Snapshot, fs: seq<(real, real)>, hasModel: bool, run: Inference): Snapshot
    requires |snap.window| <= MaxSeqLen
    ensures |ObserveAll(snap, fs, hasModel, run).window| <= MaxSeqLen
    decreases |fs|
  {
    if fs == [] then snap
    else
      var before := ObserveAll(snap, fs[..|fs| - 1], hasModel, run);
      var f := fs[|fs| - 1];
      Observe(before, f.0, f.1, hasModel, run)
  }

  /** After any run of frames the window holds the newest `MaxSeqLen`
      `(ear, mar)` pairs of the old window followed by the frames, oldest
      first; from an empty window, the last min(k, 24) of k frames. */
  lemma {:induction false} ObserveAllKeepsNewest(snap: Snapshot, fs: seq<(real, real)>, hasModel: bool, run: Inference)
    requires |snap.window| <= MaxSeqLen
    ensures ObserveAll(snap, fs, hasModel, run).window == Last(snap.window + FeatureRows(fs))
  {
    if fs == [] {
      assert snap.window + FeatureRows(fs) == snap.window;
    } else {
      var init, f := fs[..|fs| - 1], fs[|fs| - 1];
      ObserveAllKeepsNewest(snap, init, hasModel, run);
      var before := ObserveAll(snap, init, hasModel, run);
      PushedIsLast(before.window, [f.0, f.1]);
      LastOfLast(snap.window + FeatureRows(init), [f.0, f.1]);
      assert snap.window + FeatureRows(init) + [[f.0, f.1]] == snap.window + FeatureRows(fs);
    }
  }

  /** The pipeline pushes each frame's `(ear, mar)` pair into the window in
      order, and does nothing else to it. */
  lemma ObserveAllIsPushAll(snap: Snapshot, fs: seq<(real, real)>, hasModel: bool, run: Inference)
    requires |snap.window| <= MaxSeqLen
    ensures ObserveAll(snap, fs, hasModel, run).window == PushAll(snap.window, FeatureRows(fs))
  {
    ObserveAllKeepsNewest(snap, fs, hasModel, run);
    PushAllIsLast(snap.window, FeatureRows(fs));
  }

  /** The window entries for a list of `(ear, mar)` pairs. */
  function FeatureRows(fs: seq<(real, real)>): (rows: seq<Features>)
    ensures |rows| == |fs|
    ensures forall i :: 0 <= i < |fs| ==> rows[i] == [fs[i].0, fs[i].1]
  {
    seq(|fs|, i requires 0 <= i < |fs| => [fs[i].0, fs[i].1])
  }

  /** Below `MinSeqLen`, frames only fill the window: starting empty, it
      holds them all in order, `featureCount` follows, and neither the
      status nor the probability moves. */
  lemma {:induction false} FillingWindow(snap: Snapshot, fs: seq<(real, real)>, hasModel: bool, run: Inference)
    requires snap.window == []
    requires |fs| < MinSeqLen
    ensures var r := ObserveAll(snap, fs, hasModel, run);
      && r.window == FeatureRows(fs)
      && r.state.status == snap.state.status
      && r.state.probability == snap.state.probability
      && (fs != [] ==> r.state.featureCount == |fs|)
  {
    if fs != [] {
      var init := fs[..|fs| - 1];
      FillingWindow(snap, init, hasModel, run);
      assert FeatureRows(init) + [[fs[|fs| - 1].0, fs[|fs| - 1].1]] == FeatureRows(fs);
    }
  }

  /** With no model loaded, 24 frames of EAR 0.18 and MAR 0.4 from the
      initial state end with the rule path's drowsy verdict, probability 0.9. */
  lemma DrowsyAfterFullWindow(run: Inference)
    ensures var r := ObserveAll(Snapshot([], Initial()), seq(24, _ => (0.18, 0.4)), false, run);
      && |r.window| == 24
      && r.state == DrowsinessState(status := "Drowsy (Rule)", probability := 0.9, featureCount := 24)
  {
    var fs := seq(24, _ => (0.18, 0.4));
    var init := fs[..23];
    FillingWindow(Snapshot([], Initial()), init, false, run);
    var before := ObserveAll(Snapshot([], Initial()), init, false, run);
    assert |before.window| == 23;
    PushedIsLast(before.window, [0.18, 0.4]);
  }

  const InitFailedStatus: string := "Error: Initialization Failed - MediaPipe FaceLandmarker initialization failed"
  const ModelLoadedStatus: string := "Ready - Model Loaded"
  const RulesOnlyStatus: string := "Ready - MediaPipe Only (Model Load Failed)"

  /** The status `initializeDetection` leaves: an initialisation failure when
      the landmarker cannot be created (the exception's message is appended);
      otherwise ready, saying whether the model loaded. */
  function InitStatus(landmarkerCreated: bool, modelLoaded: bool): (status: string)
    ensures status == InitFailedStatus <==> !landmarkerCreated
    ensures status == ModelLoadedStatus <==> landmarkerCreated && modelLoaded
    ensures status == RulesOnlyStatus <==> landmarkerCreated && !modelLoaded
  {
    if !landmarkerCreated then InitFailedStatus
    else if modelLoaded then ModelLoadedStatus
    else RulesOnlyStatus
  }
}
