/** The view model: the busy gate around each camera frame, the in-place
    window update and the status writes, as a class whose methods are proved
    to compute the cycle functions of `Pipeline`. */
module ViewModel {
  import opened Wrappers
  import opened State
  import opened Geometry
  import opened FeatureWindow
  import opened Classifiers
  import opened Pipeline

  /** A camera frame handle. */
  class ImageProxy {
    /** The bitmap the frame converts to, or None when conversion throws
        (an unsupported format, a failed decode). */
    const bitmap: Option<Bitmap>
    /** How often `close()` has been called on this handle. */
    var closeCount: nat

    constructor (bitmap: Option<Bitmap>)
      ensures this.bitmap == bitmap && closeCount == 0
    {
      this.bitmap := bitmap;
      closeCount := 0;
    }

    method Close()
      modifies this`closeCount
      ensures closeCount == old(closeCount) + 1
    {
      closeCount := closeCount + 1;
    }
  }

  class DrowsinessViewModel {
    /** `_drowsinessState.value` */
    var state: DrowsinessState
    /** `_isProcessing.value` */
    var isProcessing: bool
    /** `featureSequence`, oldest entry first */
    var featureSequence: seq<Features>
    /** `tfliteInterpreter != null` */
    var hasInterpreter: bool
    /** `faceLandmarker != null` */
    var hasLandmarker: bool
    var frameCount: int

    ghost predicate Valid()
      reads this
    {
      WellFormed(featureSequence) && state.featureCount == |featureSequence|
    }

    function Current(): Snapshot
      reads this
    {
      Snapshot(featureSequence, state)
    }

    constructor ()
      ensures Valid()
      ensures state == Initial() && featureSequence == [] && !isProcessing
      ensures !hasInterpreter && !hasLandmarker && frameCount == 0
    {
      state := Initial();
      isProcessing := false;
      featureSequence := [];
      hasInterpreter := false;
      hasLandmarker := false;
      frameCount := 0;
    }

    /** `initializeDetection`, given whether the landmarker could be created
        and whether the model file loaded. Only the status changes in the
        record; the interpreter is tried only after the landmarker exists. */
    method InitializeDetection(landmarkerCreated: bool, modelLoaded: bool)
      requires Valid()
      modifies this`state, this`hasLandmarker, this`hasInterpreter
      ensures Valid()
      ensures state == old(state).(status := InitStatus(landmarkerCreated, modelLoaded))
      ensures hasLandmarker == (old(hasLandmarker) || landmarkerCreated)
      ensures hasInterpreter == (old(hasInterpreter) || (landmarkerCreated && modelLoaded))
    {
      state := state.(status := "Initializing...");
      if !landmarkerCreated {
        state := state.(status := InitFailedStatus);
        return;
      }
      hasLandmarker := true;
      if modelLoaded {
        hasInterpreter := true;
        state := state.(status := ModelLoadedStatus);
      } else {
        state := state.(status := RulesOnlyStatus);
      }
    }

    /** `processImageWithMediaPipe`. A frame that arrives while a cycle is
        running is closed and dropped, and the running cycle keeps the busy
        flag. Otherwise the frame is analysed, the flag is cleared and the
        frame closed, whatever the analysis ran into. Either way the frame is
        closed exactly once. */
    method ProcessImageWithMediaPipe(frame: ImageProxy, detect: Bitmap -> Detection, dist: Distance, run: Inference)
      requires Valid()
      modifies this, frame
      ensures Valid()
      ensures frameCount == old(frameCount) + 1
      ensures frame.closeCount == old(frame.closeCount) + 1
      ensures hasInterpreter == old(hasInterpreter) && hasLandmarker == old(hasLandmarker)
      ensures old(isProcessing) ==> isProcessing && Current() == old(Current())
      ensures !old(isProcessing) ==> !isProcessing
      ensures !old(isProcessing) ==>
        Current() == Analyze(old(Current()), frame.bitmap, hasLandmarker, detect, dist, hasInterpreter, run)
    {
      var admitted := AdmitFrame(frame);
      if admitted {
        FinishFrame(frame, detect, dist, run);
      }
    }

    /** The check-then-set at the start of `processImageWithMediaPipe`:
        count the frame, drop and close it when busy, otherwise take the
        flag. The check and the set are taken here as one step. */
    method AdmitFrame(frame: ImageProxy) returns (admitted: bool)
      modifies this`frameCount, this`isProcessing, frame
      ensures frameCount == old(frameCount) + 1
      ensures admitted == !old(isProcessing)
      ensures isProcessing
      ensures frame.closeCount == if admitted then old(frame.closeCount) else old(frame.closeCount) + 1
    {
      frameCount := frameCount + 1;
      if isProcessing {
        frame.Close();
        return false;
      }
      isProcessing := true;
      return true;
    }

    /** The `try`/`finally` of `processImageWithMediaPipe` for an admitted
        frame: the failures inside the `try` are outcomes of `Analyze`; the
        `finally` clears the flag and closes the frame. */
    method FinishFrame(frame: ImageProxy, detect: Bitmap -> Detection, dist: Distance, run: Inference)
      requires Valid()
      modifies this`isProcessing, this`featureSequence, this`state, frame
      ensures Valid()
      ensures !isProcessing
      ensures frame.closeCount == old(frame.closeCount) + 1
      ensures Current() == Analyze(old(Current()), frame.bitmap, hasLandmarker, detect, dist, hasInterpreter, run)
    {
      match frame.bitmap {
        case None =>
        case Some(b) =>
          if hasLandmarker {
            match detect(b) {
              case Detected(faces) =>
                HandleFaceLandmarkerResult(faces, b.width, b.height, dist, run);
              case _ =>
            }
          }
      }
      isProcessing := false;
      frame.Close();
    }

    /** `handleFaceLandmarkerResult`: push the first face's features (offer,
        then poll on overflow), publish the fill level and classify once the
        window is full enough. */
    method HandleFaceLandmarkerResult(faces: seq<seq<Landmark>>, width: int, height: int, dist: Distance, run: Inference)
      requires Valid()
      modifies this`featureSequence, this`state
      ensures Valid()
      ensures Current() == HandleResult(old(Current()), faces, width, height, dist, hasInterpreter, run)
    {
      if |faces| == 0 {
        return;
      }
      var landmarks := faces[0];
      var ear := ComputeEAR(landmarks, width, height, dist);
      var mar := ComputeMAR(landmarks, width, height, dist);
      ObserveGating(Current(), ear, mar, hasInterpreter, run);
      featureSequence := featureSequence + [[ear, mar]];
      if |featureSequence| > MaxSeqLen {
        featureSequence := featureSequence[1..];
      }
      state := state.(featureCount := |featureSequence|);
      if |featureSequence| >= MinSeqLen {
        if hasInterpreter {
          MakeTensorFlowPrediction(run);
        } else {
          MakeMediaPipePrediction(ear);
        }
      }
    }

    /** `makeTensorFlowPrediction`: build the padded input, run the model,
        threshold strictly; an inference failure sets only the error status. */
    method MakeTensorFlowPrediction(run: Inference)
      requires |featureSequence| <= MaxSeqLen
      modifies this`state
      ensures state == if hasInterpreter then ModelUpdate(old(state), featureSequence, run) else old(state)
    {
      if !hasInterpreter {
        return;
      }
      var input := BuildInput(featureSequence);
      match run(Rows(input)) {
        case Some(p) =>
          state := state.(status := ModelStatus(p), probability := p);
        case None =>
          state := state.(status := TfFailedStatus);
      }
    }

    /** `makeMediaPipePrediction`: the rule table on the latest EAR. */
    method MakeMediaPipePrediction(ear: real)
      modifies this`state
      ensures state == RuleUpdate(old(state), ear)
    {
      var probability := RuleProbability(ear);
      var status := if probability >= DrowsyThreshold then "Drowsy (Rule)" else "Alert (Rule)";
      state := state.(status := status, probability := probability);
    }
  }

  /** Frame B arrives while frame A's cycle is running: B is closed once and
      changes nothing; when A's cycle ends the state is A's result alone and
      the flag is clear. This is what the busy check guarantees when a cycle
      is one step. A single-thread executor never delivers a frame while the
      flag is set. But its cycles' coroutines, which update the window and
      classify, may still run at the same time as the next frame's, and that
      frame is then processed, not dropped. */
  method OverlappingFrames(vm: DrowsinessViewModel, a: ImageProxy, b: ImageProxy,
                           detect: Bitmap -> Detection, dist: Distance, run: Inference)
    requires vm.Valid() && !vm.isProcessing && a != b
    modifies vm, a, b
    ensures vm.Valid() && !vm.isProcessing
    ensures a.closeCount == old(a.closeCount) + 1 && b.closeCount == old(b.closeCount) + 1
    ensures vm.frameCount == old(vm.frameCount) + 2
    ensures vm.Current() == Analyze(old(vm.Current()), a.bitmap, vm.hasLandmarker, detect, dist, vm.hasInterpreter, run)
  {
    var admittedA := vm.AdmitFrame(a);
    assert admittedA;
    vm.ProcessImageWithMediaPipe(b, detect, dist, run);
    vm.FinishFrame(a, detect, dist, run);
  }
}
