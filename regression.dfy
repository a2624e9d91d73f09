/**
 * The hand-pose regression sketch: landmarks of every detected hand are
 * flattened into one feature vector, examples (features with slider-set
 * target values) are handed to a regression network, and once the network
 * is trained or loaded a self-rearming prediction loop runs.
 *
 * The network is opaque; the session records only what is observable of it:
 * the examples handed to it, the example lists it was asked to train on, and
 * the inference requests it is sent.
 */
module RegressionSketch {
  import opened Wrappers

  /** One landmark as the hand detector reports it: `[x, y, z]` in pixels. */
  datatype Keypoint = Keypoint(x: real, y: real, z: real)

  /** One detected hand: its landmarks in the detector's index order. */
  datatype Pose = Pose(landmarks: seq<Keypoint>)

  /** One training example as handed to the network. */
  datatype Example = Example(features: seq<real>, targets: seq<real>)

  /** One entry of a regression result: a label name and its score. */
  datatype Prediction = Prediction(name: string, value: real)

  /** The label names the sketch declares. */
  const DefaultLabels: seq<string> := ["A", "B"]

  /** The input width the network is configured with. */
  const DeclaredInputs: nat := 42

  /** Landmarks the hand detector reports for one hand. */
  const LandmarksPerHand: nat := 21

  /** Range of every label slider. */
  const SliderMin: int := 0
  const SliderMax: int := 255

  /** Upper (exclusive) bound of the noise added to every label value. */
  const NoiseBound: real := 0.5

  // ---------------------------------------------------------------------
  // Landmark extraction
  // ---------------------------------------------------------------------

  /** The x, y pairs of `lms`, in landmark order (z is dropped). */
  function Coords(lms: seq<Keypoint>): (r: seq<real>)
    ensures |r| == 2 * |lms|
    decreases |lms|
  {
    if lms == [] then []
    else Coords(lms[..|lms| - 1]) + [lms[|lms| - 1].x, lms[|lms| - 1].y]
  }

  /** Total number of landmarks over all poses. */
  function LandmarkCount(poses: seq<Pose>): nat
    decreases |poses|
  {
    if poses == [] then 0
    else LandmarkCount(poses[..|poses| - 1]) + |poses[|poses| - 1].landmarks|
  }

  /** The feature vector of a detection: the coordinates of every pose, pose after pose. */
  function Features(poses: seq<Pose>): (r: seq<real>)
    ensures |r| == 2 * LandmarkCount(poses)
    decreases |poses|
  {
    if poses == [] then []
    else Features(poses[..|poses| - 1]) + Coords(poses[|poses| - 1].landmarks)
  }

  /** Extending the landmark prefix by one landmark appends its x and y. */
  lemma {:induction false} CoordsSnoc(lms: seq<Keypoint>, j: nat)
    requires j < |lms|
    ensures Coords(lms[..j + 1]) == Coords(lms[..j]) + [lms[j].x, lms[j].y]
  {
    assert lms[..j + 1][..j] == lms[..j];
  }

  /** Extending the pose prefix by one pose appends that pose's coordinates. */
  lemma {:induction false} FeaturesSnoc(poses: seq<Pose>, i: nat)
    requires i < |poses|
    ensures Features(poses[..i + 1]) == Features(poses[..i]) + Coords(poses[i].landmarks)
  {
    assert poses[..i + 1][..i] == poses[..i];
  }

  /** Entries 2k and 2k+1 of the coordinate list are landmark k's x and y. */
  lemma {:induction false} CoordsAt(lms: seq<Keypoint>, k: nat)
    requires k < |lms|
    ensures 2 * k + 1 < |Coords(lms)|
    ensures Coords(lms)[2 * k] == lms[k].x && Coords(lms)[2 * k + 1] == lms[k].y
    decreases |lms|
  {
    var init := lms[..|lms| - 1];
    if k < |init| {
      CoordsAt(init, k);
      assert init[k] == lms[k];
    }
  }

  /**
   * Pose-then-landmark order: landmark j of pose i sits at position
   * (landmarks of the poses before i) + j of the flattened list, so its
   * x and y are at entries twice that and one more.
   */
  lemma {:induction false} FeaturesAt(poses: seq<Pose>, i: nat, j: nat)
    requires i < |poses| && j < |poses[i].landmarks|
    ensures LandmarkCount(poses[..i]) + j < LandmarkCount(poses)
    ensures Features(poses)[2 * (LandmarkCount(poses[..i]) + j)] == poses[i].landmarks[j].x
    ensures Features(poses)[2 * (LandmarkCount(poses[..i]) + j) + 1] == poses[i].landmarks[j].y
    decreases |poses|
  {
    var init := poses[..|poses| - 1];
    var last := poses[|poses| - 1];
    assert Features(poses) == Features(init) + Coords(last.landmarks);
    if i < |init| {
      assert poses[..i] == init[..i];
      assert init[i] == poses[i];
      FeaturesAt(init, i, j);
    } else {
      assert poses[..i] == init;
      CoordsAt(last.landmarks, j);
    }
  }

  /** A single detected hand with the detector's 21 landmarks fills exactly the declared input width. */
  lemma {:induction false} OneHandMatchesDeclaredInputs(p: Pose)
    requires |p.landmarks| == LandmarksPerHand
    ensures |Features([p])| == DeclaredInputs
    ensures Features([p]) == Coords(p.landmarks)
  {
    assert [p][..0] == [];
  }

  /** Two detected hands give twice the declared input width: the extraction does not stop at the first pose. */
  lemma {:induction false} TwoHandsDoubleDeclaredInputs(p: Pose, q: Pose)
    requires |p.landmarks| == LandmarksPerHand && |q.landmarks| == LandmarksPerHand
    ensures |Features([p, q])| == 2 * DeclaredInputs
    ensures Features([p, q]) == Coords(p.landmarks) + Coords(q.landmarks)
  {
    assert [p, q][..1] == [p];
    assert [p][..0] == [];
  }

  // ---------------------------------------------------------------------
  // Label vector
  // ---------------------------------------------------------------------

  /** Every slider reads an integer in its range. */
  predicate SlidersInRange(sliders: seq<int>)
  {
    forall i :: 0 <= i < |sliders| ==> SliderMin <= sliders[i] <= SliderMax
  }

  /** Every noise draw lies in [0, NoiseBound). */
  predicate NoiseInRange(noise: seq<real>)
  {
    forall i :: 0 <= i < |noise| ==> 0.0 <= noise[i] < NoiseBound
  }

  /** The target vector captured with an example: slider value plus noise, one entry per label. */
  function NoisyLabel(sliders: seq<int>, noise: seq<real>): (r: seq<real>)
    requires |noise| == |sliders|
    ensures |r| == |sliders|
  {
    seq(|sliders|, i requires 0 <= i < |sliders| => sliders[i] as real + noise[i])
  }

  /** The slider positions a target vector was captured from, read back by rounding down. */
  function SliderValues(targets: seq<real>): seq<int>
  {
    seq(|targets|, i requires 0 <= i < |targets| => targets[i].Floor)
  }

  /**
   * Each entry of the target vector lies in [slider, slider + 0.5), hence in
   * [0, 255.5) (exact reals; in doubles the upper end can be reached).
   */
  lemma {:induction false} NoisyLabelBounds(sliders: seq<int>, noise: seq<real>)
    requires |noise| == |sliders| && SlidersInRange(sliders) && NoiseInRange(noise)
    ensures |NoisyLabel(sliders, noise)| == |sliders|
    ensures forall i :: 0 <= i < |sliders| ==>
      sliders[i] as real <= NoisyLabel(sliders, noise)[i] < sliders[i] as real + NoiseBound
    ensures forall i :: 0 <= i < |sliders| ==>
      SliderMin as real <= NoisyLabel(sliders, noise)[i] < SliderMax as real + NoiseBound
  {
  }

  /** The noise never changes the integer part: the slider positions are recoverable from the target vector. */
  lemma {:induction false} NoisyLabelDecodes(sliders: seq<int>, noise: seq<real>)
    requires |noise| == |sliders| && NoiseInRange(noise)
    ensures SliderValues(NoisyLabel(sliders, noise)) == sliders
  {
    var r := SliderValues(NoisyLabel(sliders, noise));
    forall i | 0 <= i < |sliders| ensures r[i] == sliders[i] {
      var v := sliders[i] as real + noise[i];
      assert sliders[i] as real <= v < (sliders[i] + 1) as real;
    }
  }

  // ---------------------------------------------------------------------
  // Session state
  // ---------------------------------------------------------------------

  /** The sketch's global state, with the network's observable effects. */
  class Session {
    /** The declared label names, one output per label. */
    const labels: seq<string>

    /** The latest detection result. */
    var poses: seq<Pose>
    /** The feature vector of the latest detection with at least one pose. */
    var optimizedInputData: seq<real>
    /** The target vector of the last captured example. */
    var outputData: seq<real>
    /** The latest regression result. */
    var predictions: seq<Prediction>
    /** The example counter shown in the interface. */
    var dataCounter: nat
    /** Whether a trained network is available (trained here or loaded). */
    var trainingFinished: bool

    /** The network's example store, in the order the examples reached it. */
    ghost var examples: seq<Example>
    /** For every training run started, the example store it normalized and trained on. */
    ghost var trainingRuns: seq<seq<Example>>

    /**
     * A sanity bound of the counter against the store, which no contract
     * relies on: added examples bump the counter, loaded ones bump it once
     * each, so it never falls behind.
     */
    ghost predicate Valid()
      reads this
    {
      |examples| <= dataCounter
    }

    constructor (labels: seq<string>)
      ensures Valid()
      ensures this.labels == labels
      ensures poses == [] && optimizedInputData == [] && outputData == [] && predictions == []
      ensures dataCounter == 0 && !trainingFinished
      ensures examples == [] && trainingRuns == []
    {
      this.labels := labels;
      poses := [];
      optimizedInputData := [];
      outputData := [];
      predictions := [];
      dataCounter := 0;
      trainingFinished := false;
      examples := [];
      trainingRuns := [];
    }

    /** Detector callback: keep the result; with at least one pose, rebuild the feature vector from every pose. */
    method GotResultsModel(result: seq<Pose>)
      requires Valid()
      modifies this`poses, this`optimizedInputData
      ensures Valid()
      ensures poses == result
      ensures |result| > 0 ==> optimizedInputData == Features(result)
      ensures |result| == 0 ==> optimizedInputData == old(optimizedInputData)
    {
      poses := result;
      if |result| > 0 {
        optimizedInputData := [];
        var i := 0;
        while i < |result|
          modifies this`optimizedInputData
          invariant 0 <= i <= |result|
          invariant optimizedInputData == Features(result[..i])
        {
          var pose := result[i];
          var j := 0;
          while j < |pose.landmarks|
            modifies this`optimizedInputData
            invariant 0 <= j <= |pose.landmarks|
            invariant optimizedInputData == Features(result[..i]) + Coords(pose.landmarks[..j])
          {
            var keypoint := pose.landmarks[j];
            optimizedInputData := optimizedInputData + [keypoint.x];
            optimizedInputData := optimizedInputData + [keypoint.y];
            CoordsSnoc(pose.landmarks, j);
            j := j + 1;
          }
          assert pose.landmarks[..j] == pose.landmarks;
          FeaturesSnoc(result, i);
          i := i + 1;
        }
        assert result[..i] == result;
      }
    }

    /** Bump the example counter by one. */
    method UpdateDataCounter()
      modifies this`dataCounter
      ensures dataCounter == old(dataCounter) + 1
    {
      dataCounter := dataCounter + 1;
    }

    /**
     * "Add Data": with a feature vector present, build the target vector
     * from the sliders and the noise draws, hand one example to the network
     * and bump the counter; with none, do nothing.
     */
    method AddData(sliders: seq<int>, noise: seq<real>)
      requires Valid()
      requires |sliders| == |labels| && |noise| == |labels|
      requires SlidersInRange(sliders) && NoiseInRange(noise)
      modifies this`outputData, this`examples, this`dataCounter
      ensures Valid()
      ensures |optimizedInputData| == 0 ==>
        outputData == old(outputData) && examples == old(examples) && dataCounter == old(dataCounter)
      ensures |optimizedInputData| > 0 ==>
        && outputData == NoisyLabel(sliders, noise)
        && |outputData| == |labels|
        && examples == old(examples) + [Example(optimizedInputData, outputData)]
        && dataCounter == old(dataCounter) + 1
    {
      if |optimizedInputData| > 0 {
        outputData := [];
        var i := 0;
        while i < |labels|
          modifies this`outputData
          invariant 0 <= i <= |labels|
          invariant |outputData| == i
          invariant forall k :: 0 <= k < i ==> outputData[k] == sliders[k] as real + noise[k]
        {
          var value := sliders[i] as real;
          value := value + noise[i];
          outputData := outputData + [value];
          i := i + 1;
        }
        examples := examples + [Example(optimizedInputData, outputData)];
        UpdateDataCounter();
      }
    }

    /** "Train Model": the network normalizes and trains on the store as it is now; readiness is left as it was. */
    method TrainModel()
      requires Valid()
      modifies this`trainingRuns
      ensures Valid()
      ensures trainingRuns == old(trainingRuns) + [examples]
    {
      trainingRuns := trainingRuns + [examples];
    }

    /** Training completion callback: a trained network is now available. */
    method FinishedTraining()
      requires Valid()
      modifies this`trainingFinished
      ensures Valid()
      ensures trainingFinished
    {
      trainingFinished := true;
    }

    /** Model loading callback: a loaded network is already trained. */
    method CustomModelReady()
      requires Valid()
      modifies this`trainingFinished
      ensures Valid()
      ensures trainingFinished
    {
      trainingFinished := true;
    }

    /**
     * "Predict": an inference request with the current feature vector goes
     * out exactly when there is a feature vector and a trained network.
     */
    method Predict() returns (request: Option<seq<real>>)
      ensures request.Some? <==> |optimizedInputData| > 0 && trainingFinished
      ensures request.Some? ==> request.value == optimizedInputData
    {
      request := None;
      if |optimizedInputData| > 0 {
        if trainingFinished {
          request := Some(optimizedInputData);
        }
      }
    }

    /** Inference callback: store the result and re-arm prediction, whether or not an error was reported. */
    method GotResults(err: bool, results: seq<Prediction>) returns (request: Option<seq<real>>)
      requires Valid()
      modifies this`predictions
      ensures Valid()
      ensures predictions == results
      ensures request.Some? <==> |optimizedInputData| > 0 && trainingFinished
      ensures request.Some? ==> request.value == optimizedInputData
    {
      predictions := results;
      request := Predict();
    }

    /**
     * Data loading callback: the network's store is now `raw` (its raw
     * data after loading), and the counter goes up once per loaded example,
     * on top of what it already showed.
     */
    method CustomDataLoaded(raw: seq<Example>)
      requires Valid()
      modifies this`examples, this`dataCounter
      ensures Valid()
      ensures examples == raw
      ensures dataCounter == old(dataCounter) + |raw|
    {
      examples := raw;
      var i := 0;
      while i < |raw|
        modifies this`dataCounter
        invariant 0 <= i <= |raw|
        invariant dataCounter == old(dataCounter) + i
      {
        UpdateDataCounter();
        i := i + 1;
      }
    }
  }

  /**
   * A session as the interface drives it: one hand detected, one example
   * captured with sliders A = 200 and B = 50, prediction refused before
   * training and issued after.
   */
  method CaptureScenario(hand: Pose, noiseA: real, noiseB: real)
    requires |hand.landmarks| == LandmarksPerHand
    requires 0.0 <= noiseA < NoiseBound && 0.0 <= noiseB < NoiseBound
  {
    var s := new Session(DefaultLabels);
    var before := s.Predict();
    assert before == None;
    s.GotResultsModel([hand]);
    OneHandMatchesDeclaredInputs(hand);
    assert |s.optimizedInputData| == DeclaredInputs;
    s.AddData([200, 50], [noiseA, noiseB]);
    assert |s.examples| == 1 && s.dataCounter == 1;
    NoisyLabelBounds([200, 50], [noiseA, noiseB]);
    assert 200.0 <= s.examples[0].targets[0] < 200.5 && 50.0 <= s.examples[0].targets[1] < 50.5;
    s.TrainModel();
    var during := s.Predict();
    assert during == None;
    s.FinishedTraining();
    var after := s.Predict();
    assert after == Some(s.examples[0].features);
  }
}
