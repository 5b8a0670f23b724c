# Drowsiness pipeline model

A Dafny model of the per-frame drowsiness pipeline of the Android app's
`DrowsinessViewModel`, with its status record `DrowsinessState`. It covers these parts:

- **Geometry**: the eye aspect ratio (EAR) and mouth aspect ratio (MAR) computed from a
  face's landmark list. An out-of-range landmark index gives the `0.0` fallback.
- **Feature window**: a FIFO deque of `[ear, mar]` arrays with capacity 24. Each push
  is an `offer`, then one `poll` if the deque overflows.
- **Two classifiers**:
  - the rule table on the latest EAR, with an inclusive `>= 0.7` threshold and the
    labels `Drowsy (Rule)` / `Alert (Rule)`;
  - the sequence model, which gets a `(1, 24, 2)` input padded at the front with zero
    rows, thresholds strictly at `> 0.7`, and sets an error status when inference fails.
- **One detection cycle**: skip when there is no face; otherwise push, publish
  `featureCount`, and classify once 24 entries are present. The model is used when an
  interpreter is loaded, the rules otherwise.
- **Busy gate**: frames are admitted by check-then-set on `isProcessing`. A frame that
  arrives while busy is dropped. Every frame is closed exactly once, and the flag is
  cleared in the `finally`.
- **Initialisation**: the status outcomes of `initializeDetection`.

Modules, one per component:

- `State`: the `DrowsinessState` record with its defaults. A Kotlin `copy` is a Dafny
  datatype update.
- `Geometry`: landmark index constants, `EyePoints`, `EarForEye`, `ComputeEAR`,
  `ComputeMAR`. The Euclidean distance is abstract: a parameter of type `Distance`,
  which can be any non-negative function of two pixels.
- `FeatureWindow`: capacity constants, the push (`Pushed`), and the lemmas that the
  window holds the newest entries.
- `Classifiers`: the rule table, the model threshold, and the padded model input. The
  input is built in place in an `array3<real>` by the source's two loops (`BuildInput`).
- `Pipeline`: the cycle as a function of the window and the status record
  (`Observe`, `HandleResult`, `Analyze`), and the lemmas about it.
- `ViewModel`: the class `DrowsinessViewModel`, whose fields are the state, the busy
  flag, the window and the loaded handles. Its methods are proved to compute the
  `Pipeline` functions. The class `ImageProxy` counts `close()` calls.

`featureCount` is written only when a face was found. Since the window does not change
otherwise, the published value always equals the window's size; `Valid()` of the view
model states this, and `Pipeline.AnalyzeKeepsCount` proves that every cycle keeps it.

## Model

| member | source | states |
|---|---|---|
| State.Initial | app/src/main/java/com/example/myapplication/drowsiness/DrowsinessState.kt:4-8 | the default record has status "Initializing...", probability 0 and featureCount 0 |
| Geometry.EyePoints | app/src/main/java/com/example/myapplication/drowsiness/DrowsinessViewModel.kt:424-433 | the points exist iff every eye index is below the landmark count; then point k is landmark idx[k] scaled to pixels |
| Geometry.EarForEye | app/src/main/java/com/example/myapplication/drowsiness/DrowsinessViewModel.kt:424-447 | an eye's ratio is non-negative (the epsilon keeps the denominator positive) and is 0.0 when any of its indices is out of range |
| Geometry.ComputeEAR | app/src/main/java/com/example/myapplication/drowsiness/DrowsinessViewModel.kt:449-453 | the EAR, the mean of the two eyes, is non-negative |
| Geometry.ComputeMAR | app/src/main/java/com/example/myapplication/drowsiness/DrowsinessViewModel.kt:456-485 | the MAR is non-negative and is 0.0 when any of 13, 14, 78, 308 is out of range |
| Geometry.InRangeIffLongerThanMax | app/src/main/java/com/example/myapplication/drowsiness/DrowsinessViewModel.kt:462-466 | "no index >= size" holds exactly when the list is longer than the largest index |
| Geometry.LandmarkFallback | app/src/main/java/com/example/myapplication/drowsiness/DrowsinessViewModel.kt:55-65 | the left eye, mouth and right eye need more than 160, 308 and 387 landmarks; with at most 160 the EAR is 0; between 161 and 387 it is half the left eye's ratio; with at most 308 the MAR is 0 |
| FeatureWindow.PushedIsLast | app/src/main/java/com/example/myapplication/drowsiness/DrowsinessViewModel.kt:373-376 | a push into a window within capacity keeps at most 24 entries, puts the new entry last, and leaves the newest 24 of old entries plus the new one |
| FeatureWindow.Pushed | app/src/main/java/com/example/myapplication/drowsiness/DrowsinessViewModel.kt:373-376 | a push ends with the new entry last; below capacity it only appends; a window within capacity stays within it |
| FeatureWindow.PushAllIsLast | app/src/main/java/com/example/myapplication/drowsiness/DrowsinessViewModel.kt:373-376 | any sequence of pushes leaves the newest 24 of all entries seen, oldest first |
| FeatureWindow.PushAllFromEmpty | app/src/main/java/com/example/myapplication/drowsiness/DrowsinessViewModel.kt:68-71 | after k pushes into an empty window it holds exactly the last min(k, 24) entries, in push order |
| Classifiers.RuleProbability | app/src/main/java/com/example/myapplication/drowsiness/DrowsinessViewModel.kt:567-572 | the rule probability is one of 0.9, 0.7, 0.3, 0.1, and is at least 0.7 iff the EAR is below 0.25 |
| Classifiers.RuleStatus | app/src/main/java/com/example/myapplication/drowsiness/DrowsinessViewModel.kt:573-574 | the rule label is "Drowsy (Rule)" iff EAR < 0.25 and "Alert (Rule)" iff EAR >= 0.25 |
| Classifiers.RuleProbabilityMonotone | app/src/main/java/com/example/myapplication/drowsiness/DrowsinessViewModel.kt:567-572 | a lower EAR never yields a lower rule probability |
| Classifiers.RuleTableSamples | app/src/main/java/com/example/myapplication/drowsiness/DrowsinessViewModel.kt:567-574 | EAR 0.15, 0.22, 0.28, 0.35 give 0.9/drowsy, 0.7/drowsy, 0.3/alert, 0.1/alert |
| Classifiers.ModelStatus | app/src/main/java/com/example/myapplication/drowsiness/DrowsinessViewModel.kt:539-541 | the model label is "Drowsy" iff p > 0.7 and "Alert" iff p <= 0.7 |
| Classifiers.ThresholdAsymmetry | app/src/main/java/com/example/myapplication/drowsiness/DrowsinessViewModel.kt:539-541 | at probability exactly 0.7 the rule path says drowsy and the model path says alert |
| Classifiers.InputRow | app/src/main/java/com/example/myapplication/drowsiness/DrowsinessViewModel.kt:514-526 | a tensor row has two values: the entry itself when it has two values, zeros otherwise |
| Classifiers.PaddedRow | app/src/main/java/com/example/myapplication/drowsiness/DrowsinessViewModel.kt:505-526 | every tensor row has exactly two values |
| Classifiers.PaddedInput | app/src/main/java/com/example/myapplication/drowsiness/DrowsinessViewModel.kt:502-527 | the input has 24 rows; rows below 24 - n are (0, 0); row 24 - n + i is the i-th window entry, oldest first |
| Classifiers.FullWindowIsInput | app/src/main/java/com/example/myapplication/drowsiness/DrowsinessViewModel.kt:502-527 | a full window of two-value entries is the model input unchanged |
| Classifiers.Rows | app/src/main/java/com/example/myapplication/drowsiness/DrowsinessViewModel.kt:535 | the rows the interpreter reads are the (ear, mar) pairs of batch 0 of the array |
| Classifiers.BuildInput | app/src/main/java/com/example/myapplication/drowsiness/DrowsinessViewModel.kt:502-527 | the two loops fill a fresh (1, 24, 2) array whose rows are exactly the padded input |
| Pipeline.RuleUpdate | app/src/main/java/com/example/myapplication/drowsiness/DrowsinessViewModel.kt:578-584 | the rule update overwrites the probability with the table value, sets "Drowsy (Rule)" iff it is >= 0.7 and "Alert (Rule)" iff it is below, and keeps featureCount |
| Pipeline.ModelUpdate | app/src/main/java/com/example/myapplication/drowsiness/DrowsinessViewModel.kt:539-560 | on a probability p, the status becomes the strict-threshold label of p and the probability p; when inference throws, only the status changes, to "Error: TF Prediction Failed"; featureCount is kept |
| Pipeline.Observe | app/src/main/java/com/example/myapplication/drowsiness/DrowsinessViewModel.kt:372-398 | one observed frame ends with its (ear, mar) pair last in a window within capacity, and featureCount equal to the window's size |
| Pipeline.HandleResult | app/src/main/java/com/example/myapplication/drowsiness/DrowsinessViewModel.kt:362-411 | with no face the snapshot is unchanged; with one, the first face's EAR and MAR are the newest window entry and featureCount is the window's size |
| Pipeline.Analyze | app/src/main/java/com/example/myapplication/drowsiness/DrowsinessViewModel.kt:235-249 | a failed conversion or a missing landmarker leaves the snapshot unchanged; any other outcome either leaves it unchanged or publishes featureCount as the window's size |
| Pipeline.ObserveGating | app/src/main/java/com/example/myapplication/drowsiness/DrowsinessViewModel.kt:372-398 | after a push the window is the newest 24 entries and stays well formed, featureCount equals its size; below 24 status and probability are untouched; at 24 the rule table on this EAR runs without a model, and with one the model on the whole window sets label and probability or, on failure, only the error status |
| Pipeline.NoFaceNoChange | app/src/main/java/com/example/myapplication/drowsiness/DrowsinessViewModel.kt:404-411 | a cycle with no face, a null or throwing detector, or no landmarker leaves window and status record unchanged |
| Pipeline.AnalyzeKeepsCount | app/src/main/java/com/example/myapplication/drowsiness/DrowsinessViewModel.kt:379-384 | every cycle, with or without a face, keeps the window well formed and featureCount equal to its size |
| Pipeline.ObserveAll | app/src/main/java/com/example/myapplication/drowsiness/DrowsinessViewModel.kt:373-376 | any run of frames keeps the window within capacity |
| Pipeline.ObserveAllIsPushAll | app/src/main/java/com/example/myapplication/drowsiness/DrowsinessViewModel.kt:373-376 | the pipeline's window after any run of frames is the window pushed with those frames' (ear, mar) pairs, so the window lemmas apply to it |
| Pipeline.ObserveAllKeepsNewest | app/src/main/java/com/example/myapplication/drowsiness/DrowsinessViewModel.kt:373-376 | after any run of frames the window is the newest 24 pairs of the old window followed by the frames, oldest first; from empty, the last min(k, 24) of k frames |
| Pipeline.FillingWindow | app/src/main/java/com/example/myapplication/drowsiness/DrowsinessViewModel.kt:379-398 | from an empty window, fewer than 24 frames only fill it, in order; featureCount follows and status and probability stay put |
| Pipeline.DrowsyAfterFullWindow | app/src/main/java/com/example/myapplication/drowsiness/DrowsinessViewModel.kt:386-398 | 24 frames of EAR 0.18 from the initial state, with no model, end at "Drowsy (Rule)", probability 0.9, featureCount 24 |
| Pipeline.InitStatus | app/src/main/java/com/example/myapplication/drowsiness/DrowsinessViewModel.kt:81-108 | initialisation fails iff the landmarker cannot be created; "Ready - Model Loaded" iff it and the model both load; the rules-only status iff only the landmarker loads |
| ViewModel.DrowsinessViewModel.constructor | app/src/main/java/com/example/myapplication/drowsiness/DrowsinessViewModel.kt:40-76 | a new view model has the default record, an empty window, a clear busy flag and no loaded handles |
| ViewModel.DrowsinessViewModel.InitializeDetection | app/src/main/java/com/example/myapplication/drowsiness/DrowsinessViewModel.kt:78-110 | only the status field changes, to the outcome's status; the interpreter is set only when the landmarker was created too |
| ViewModel.DrowsinessViewModel.ProcessImageWithMediaPipe | app/src/main/java/com/example/myapplication/drowsiness/DrowsinessViewModel.kt:223-257 | the frame count rises by one and the frame is closed exactly once; a busy view model keeps its flag and its state; otherwise the flag ends clear and the state is the cycle's result |
| ViewModel.DrowsinessViewModel.AdmitFrame | app/src/main/java/com/example/myapplication/drowsiness/DrowsinessViewModel.kt:224-233 | check-then-set: admitted iff not busy; the flag is set afterwards; a dropped frame is closed |
| ViewModel.ImageProxy.Close | app/src/main/java/com/example/myapplication/drowsiness/DrowsinessViewModel.kt:252-254 | each close call is counted once, so the methods that close a frame state it is closed exactly once |
| ViewModel.DrowsinessViewModel.FinishFrame | app/src/main/java/com/example/myapplication/drowsiness/DrowsinessViewModel.kt:235-256 | whatever the analysis meets, the flag ends clear and the frame is closed once; the state is the cycle's result |
| ViewModel.DrowsinessViewModel.HandleFaceLandmarkerResult | app/src/main/java/com/example/myapplication/drowsiness/DrowsinessViewModel.kt:354-416 | the in-place offer/poll and the status writes compute the cycle function, keep the window well formed and keep featureCount equal to its size |
| ViewModel.DrowsinessViewModel.MakeTensorFlowPrediction | app/src/main/java/com/example/myapplication/drowsiness/DrowsinessViewModel.kt:491-562 | without an interpreter nothing changes; with one the state is the model update on the padded window |
| ViewModel.DrowsinessViewModel.MakeMediaPipePrediction | app/src/main/java/com/example/myapplication/drowsiness/DrowsinessViewModel.kt:564-585 | the state becomes the rule update for this EAR |
| ViewModel.OverlappingFrames | app/src/main/java/com/example/myapplication/drowsiness/DrowsinessViewModel.kt:223-257 | in the model, a frame arriving during another's cycle is closed once and dropped, and afterwards the state reflects only the first frame and the flag is clear; the source never drops a frame, yet its coroutines let consecutive cycles overlap, which the model does not capture |

## Left out

- Camera setup, `ImageAnalysis` binding, YUV/JPEG decoding and the rotation/mirror matrix
  are Android I/O. A frame is modelled by the bitmap its conversion yields, or None when
  conversion throws. The "Error: Camera Setup Failed" status of `setupCamera` is not
  modelled.
- The landmarker and the interpreter are foreign code:
  - `detect` is a parameter function that gives a throw, a null, or the list of faces;
  - `run` is a parameter function from the input rows to a probability, or None when it
    throws;
  - loading them is a pair of booleans given to `InitializeDetection`.
- Floating point:
  - features, thresholds and probabilities are exact reals, so `0.20f` is 0.20 exactly
    and no rounding is modelled;
  - `distance` and its `sqrt` are abstract non-negative functions;
  - the scale-invariance of the ratios is not stated.
- Coroutine dispatch is not modelled. In the source, the coroutine that updates the
  window and classifies is launched at line 360 on the IO thread pool. It may run before,
  during or after the `finally` that clears the busy flag. The busy flag covers only the
  synchronous part of a cycle. So the window updates and inference calls of consecutive
  frames can overlap on the deque and the interpreter, neither of which is thread-safe.
  Status writes are also posted to the main thread. The model runs each cycle as one
  sequential step, so it serialises more than the source does, and interleavings are not
  verified.
- ViewModel.DrowsinessViewModel.AdmitFrame: the source reads `_isProcessing` (line 227)
  and sets it in a separate statement (line 233). That is check-then-set, not an atomic
  test-and-set, and the model takes the two as one step.
  - Every frame arrives on the single-thread `cameraExecutor` (lines 48, 194), and the
    `finally` clears the flag before the next frame is delivered. So the source never
    reaches the drop path.
  - The source's cycles still overlap through their coroutines, and then the second frame
    is processed, not dropped. `ViewModel.OverlappingFrames` shows only what the busy
    check guarantees within the model.
- Logging is left out, and so are the counters `facesDetectedCount` and `predictionCount`,
  which feed only the logs. `frameCount` is kept.
- Teardown in `onCleared`, where executor shutdown and the handles are closed and set to
  null, is resource release with no state the pipeline reads afterwards.
- The Compose screen, the alarm, the background service, the activity and the build file
  are UI and platform glue. `analysisIntervalMs` and `setupBackgroundCamera` are used by
  those files but do not exist in the view model.
- Classifiers.BuildInput: requires the window to be within capacity. The view model's
  invariant guarantees this. On a longer deque the source would write at a negative
  index and land in the error path.
- ViewModel.DrowsinessViewModel.MakeTensorFlowPrediction: requires the window to be
  within capacity, for the same reason.
- The tensor's batch dimension is kept, but only batch 0 is read.
