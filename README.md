# Hand-pose teaching sketches: session logic in Dafny

This project models the two pieces of a creative-coding course repository
that keep state between callbacks, and proves properties of that state.

- **Hand-pose regression** (`Block_II/16_NeuralNetwork_regression_handpose/sketch.js`),
  module `RegressionSketch` in `regression.dfy`. A hand detector reports
  poses; the sketch flattens the landmarks into a feature vector, the
  "Add Data" button hands (features, slider targets plus noise) to a
  regression network, "Train Model", "Load Model" and the training and
  loading callbacks decide when a trained network is available, and
  prediction re-arms itself after every result. The sketch's globals are the
  fields of class `Session`. The network is opaque, so the model keeps only
  what is observable of it: a ghost list of the examples handed to it
  (`examples`), a ghost list of the example stores training runs were started
  on (`trainingRuns`), and the inference request that `Predict` sends, as its
  result.
- **Hand-pose recorder / looper** (`Playground/1_HandposeRecorder/sketch.js`),
  module `RecorderSketch` in `recorder.dfy`. The space key starts and stops
  recordings; each detection while recording appends the first detected hand
  to the active track; every frame shows one pose of every finished track and
  advances that track's playback counter, with wrap-around. The globals are
  the fields of class `Recorder<P>`; poses are the opaque type `P`.
  `Step` is the playback loop inside `draw`; it returns, per finished track,
  the pose drawn (`None` where JavaScript reads `undefined` and draws
  nothing).

`wrappers.dfy` holds the `Option` datatype both modules use.

`RegressionSketch.CaptureScenario` is a client method without a contract of
its own: it exercises the `Session` contracts on one capture (a hand of 21
landmarks, sliders A = 200 and B = 50) and checks that prediction is refused
before training finishes and issued after. `RecorderSketch.Recorder.PlayFrames`
runs `Step` for n consecutive frames, as the drawing loop does once per
frame, so that the cyclic playback lemmas apply to the recorder itself.

JavaScript arrays that the sketches update in place (`optimizedInputData`
and `outputData`, which are cleared and refilled; `recordedPoses` and
`animationCounter`, which are index-assigned, pushed to and incremented)
are `seq` fields that the methods reassign; every method's `modifies`
clause names the individual fields it may change, so everything else is
unchanged by construction. In particular `trainingFinished` is in the frame
of `FinishedTraining` and `CustomModelReady` only, both of which leave it
true, and the constructor starts it false: the flag is monotone.

The feature vector is built from **every** detected hand, pose after pose,
as the loop at line 129 of the regression sketch does, even though the
network is declared with `inputs: 42` (one hand of 21 landmarks) and the
skeleton drawing reads only `poses[0]`. `TwoHandsDoubleDeclaredInputs` shows the
width this gives for two hands.

Coordinates and label values are `real`; the slider reading is an integer
parameter in 0..255 and the `random(0.5)` draw a real parameter in [0, 0.5).

## Model

| member | source | states |
|---|---|---|
| `RegressionSketch.Coords` | Block_II/16_NeuralNetwork_regression_handpose/sketch.js:131-135 | the coordinate list of one hand has two entries per landmark |
| `RegressionSketch.Features` | Block_II/16_NeuralNetwork_regression_handpose/sketch.js:129-136 | the feature vector has length 2 × the total landmark count over all poses |
| `RegressionSketch.CoordsAt` | Block_II/16_NeuralNetwork_regression_handpose/sketch.js:131-135 | entries 2k and 2k+1 are landmark k's x and y |
| `RegressionSketch.FeaturesAt` | Block_II/16_NeuralNetwork_regression_handpose/sketch.js:129-136 | landmark j of pose i is at offset (landmarks of poses before i) + j: pose-then-landmark order, x then y |
| `RegressionSketch.OneHandMatchesDeclaredInputs` | Block_II/16_NeuralNetwork_regression_handpose/sketch.js:19 | one hand of 21 landmarks gives exactly the declared 42 inputs, its x,y pairs in order |
| `RegressionSketch.TwoHandsDoubleDeclaredInputs` | Block_II/16_NeuralNetwork_regression_handpose/sketch.js:129-136 | two hands give 84 entries, the first hand's pairs then the second's |
| `RegressionSketch.NoisyLabel` | Block_II/16_NeuralNetwork_regression_handpose/sketch.js:204-209 | the target vector built for one example has exactly one entry per label; its bounds and decoding are `NoisyLabelBounds` and `NoisyLabelDecodes` |
| `RegressionSketch.NoisyLabelBounds` | Block_II/16_NeuralNetwork_regression_handpose/sketch.js:204-210 | one target per label; each lies in [slider, slider + 0.5) and so in [0, 255.5) (exact reals; in doubles the upper end can be reached) |
| `RegressionSketch.NoisyLabelDecodes` | Block_II/16_NeuralNetwork_regression_handpose/sketch.js:205-208 | rounding each target down gives back the slider readings: the noise never changes the integer part |
| `RegressionSketch.Session.constructor` | Block_II/16_NeuralNetwork_regression_handpose/sketch.js:37-41 | the session starts untrained, with counter 0, no features, no predictions and an empty example store |
| `RegressionSketch.Session.GotResultsModel` | Block_II/16_NeuralNetwork_regression_handpose/sketch.js:121-140 | keeps the result; with at least one pose the feature vector becomes exactly the flattening of every pose, with none it keeps its previous value |
| `RegressionSketch.Session.UpdateDataCounter` | Block_II/16_NeuralNetwork_regression_handpose/sketch.js:275-280 | the counter goes up by exactly one |
| `RegressionSketch.Session.AddData` | Block_II/16_NeuralNetwork_regression_handpose/sketch.js:197-220 | with no features nothing changes; otherwise the target vector is slider + noise per label, exactly that one example is appended to the store and the counter goes up by one |
| `RegressionSketch.Session.TrainModel` | Block_II/16_NeuralNetwork_regression_handpose/sketch.js:223-231 | records one training run on the store as it is at the call; readiness, store and counter are not in its frame |
| `RegressionSketch.Session.FinishedTraining` | Block_II/16_NeuralNetwork_regression_handpose/sketch.js:239-244 | a trained network is available afterwards; only this and `CustomModelReady` may change the flag |
| `RegressionSketch.Session.CustomModelReady` | Block_II/16_NeuralNetwork_regression_handpose/sketch.js:323-328 | a loaded network counts as trained afterwards |
| `RegressionSketch.Session.Predict` | Block_II/16_NeuralNetwork_regression_handpose/sketch.js:247-257 | a request is issued if and only if there is a feature vector and training has finished; it carries the current feature vector; nothing changes |
| `RegressionSketch.Session.GotResults` | Block_II/16_NeuralNetwork_regression_handpose/sketch.js:260-273 | stores the results and re-arms prediction under the same gate whether or not an error was reported |
| `RegressionSketch.Session.CustomDataLoaded` | Block_II/16_NeuralNetwork_regression_handpose/sketch.js:292-306 | the store is the loaded raw data and the counter goes up by exactly its size, on top of the old count |
| `RecorderSketch.Next` | Playground/1_HandposeRecorder/sketch.js:77-78 | an advanced counter is always a valid index into its track or 0 |
| `RecorderSketch.Current` | Playground/1_HandposeRecorder/sketch.js:74-81 | the pose a counter reads is absent (`undefined`, nothing drawn) exactly when the counter is at or past the track's end, and otherwise is the track's pose at that counter |
| `RecorderSketch.Iterate` | Playground/1_HandposeRecorder/sketch.js:77-78 | the counter after k frames is usable for its track whenever it started usable or at least one frame has advanced it |
| `RecorderSketch.Playback` | Playground/1_HandposeRecorder/sketch.js:72-86 | k frames of playback produce one drawn-or-nothing entry per frame |
| `RecorderSketch.PlaybackSplit` | Playground/1_HandposeRecorder/sketch.js:74-78 | n frames show the first k frames, then n − k frames from where the counter got to |
| `RecorderSketch.PlaybackSnoc` | Playground/1_HandposeRecorder/sketch.js:74-78 | one more frame shows the pose at the counter reached so far and advances that counter once more |
| `RecorderSketch.PlaybackSegment` | Playground/1_HandposeRecorder/sketch.js:74-78 | from counter c up to position e the track's poses c..e are shown in order, and the counter ends at e, or at 0 at the track's end |
| `RecorderSketch.PlaybackCycle` | Playground/1_HandposeRecorder/sketch.js:74-83 | len frames from any valid counter show every pose exactly once, in recorded order from that counter, and return the counter to its start |
| `RecorderSketch.PlaybackFromStart` | Playground/1_HandposeRecorder/sketch.js:74-83 | from counter 0 one cycle shows exactly the recorded track |
| `RecorderSketch.EmptyTrackPlayback` | Playground/1_HandposeRecorder/sketch.js:74-81 | an empty finished track draws nothing on any frame and its counter stays 0 |
| `RecorderSketch.Recorder.Valid` | Playground/1_HandposeRecorder/sketch.js:206-219 | the invariant of the globals declared at lines 6-10: one track and one counter per finished recording plus one for the active recording, every counter usable for its track, the active counter at 0; hence every finished track is in range of both arrays, and a counter reads `undefined` exactly when its track is empty |
| `RecorderSketch.Recorder.constructor` | Playground/1_HandposeRecorder/sketch.js:6-10 | no tracks, no counters, counter 0, not recording; the invariant holds |
| `RecorderSketch.Recorder.KeyReleased` | Playground/1_HandposeRecorder/sketch.js:206-219 | space toggles recording; stopping bumps the finished count and keeps tracks; starting appends an empty track at index `recordedPosesCounter` with counter 0; any other key changes nothing; the invariant is kept |
| `RecorderSketch.Recorder.GotResultsModel` | Playground/1_HandposeRecorder/sketch.js:139-147 | while recording and with at least one pose, exactly `poses[0]` is appended to the active track and every other track is unchanged; otherwise no track changes |
| `RecorderSketch.Recorder.Step` | Playground/1_HandposeRecorder/sketch.js:69-86 | only the finished tracks are visited; each shows the pose at its counter and advances it with wrap-around; the active track's counter is untouched; the invariant is kept |
| `RecorderSketch.Recorder.PlayFrames` | Playground/1_HandposeRecorder/sketch.js:69-86 | over n frames every finished track shows exactly `Playback` from its starting counter and its counter ends at `Iterate` of it; the active track's counter is untouched; the invariant is kept |

## Left out

- Drawing and interface code (`draw` apart from the playback loop, `drawKeypoints`, `drawSkeleton`, `drawRecordedKeypoints`, `drawRecordedSkeletons`, `generateGui`, the status text, the counter display in `updateDataCounter`, the slider value display): rendering with nothing to state.
- `whileTraining`, `modelReady`: they only write status text.
- The network library itself (normalization, training, inference, `loadData`, `saveData`, `load`, `save`) and the hand detector: opaque; the model keeps only the examples handed over, the training runs started, the requests sent and the callbacks.
- `loadCustomData`, `saveCustomData`, `loadCustomModel`, `saveCustomModel`: each only calls into the library, and the two load helpers also write status text; the loads' effects appear through the `CustomDataLoaded` and `CustomModelReady` callbacks.
- `RegressionSketch.Session.AddData`: the example stores a copy of the feature and target values; the sketch passes its global arrays, which it later clears in place, so this relies on the library copying them.
- `RegressionSketch.Session.GotResults`: the error is only logged to the console, which is not modelled; the results are a sequence even where the library may pass nothing on error.
- The slider reading and `random(0.5)`: parameters with their ranges (0..255 integers, [0, 0.5) reals).
- Callback timing: every callback is a method that may be called in any order; there is no concurrency.
- Floating point: coordinates and targets are exact reals; in doubles `slider + random(0.5)` can round up to slider + 0.5, which `NoisyLabelBounds` excludes.
- `Block_II/02_handpose/sketch.js` and the two serial sketches under `Block_III/p5js/`: rendering, or thin wrappers over a serial library that is not part of this model.
