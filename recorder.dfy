/**
 * The hand-pose recorder and looper: the space key starts and stops a
 * recording, every detection while recording appends the first detected
 * hand to the active track, and every frame plays one pose of each finished
 * track, looping each track independently.
 *
 * Poses are opaque (type parameter `P`); only their order matters here.
 */
module RecorderSketch {
  import opened Wrappers

  /** Key code of the space bar. */
  const SpaceKey: int := 32

  // ---------------------------------------------------------------------
  // Playback of one track
  // ---------------------------------------------------------------------

  /** A playback counter is usable: an index into its track, or 0 (also for an empty track). */
  predicate CounterOk(c: nat, len: nat)
  {
    c < len || c == 0
  }

  /** One frame's advance of a playback counter: up by one, back to 0 at the track length. */
  function Next(c: nat, len: nat): (r: nat)
    ensures CounterOk(r, len)
  {
    if c + 1 >= len then 0 else c + 1
  }

  /** The pose a counter shows: JavaScript indexing, with `undefined` past the end as None. */
  function Current<P>(track: seq<P>, c: nat): (r: Option<P>)
    ensures r.None? <==> c >= |track|
    ensures r.Some? ==> r.value == track[c]
  {
    if c < |track| then Some(track[c]) else None
  }

  /** The counter after k frames: usable once at least one frame has advanced it, or when it started usable. */
  function Iterate(c: nat, len: nat, k: nat): (r: nat)
    ensures CounterOk(c, len) || k > 0 ==> CounterOk(r, len)
    decreases k
  {
    if k == 0 then c else Iterate(Next(c, len), len, k - 1)
  }

  /** What k frames of playback show from counter c: one entry per frame. */
  function Playback<P>(track: seq<P>, c: nat, k: nat): (r: seq<Option<P>>)
    ensures |r| == k
    decreases k
  {
    if k == 0 then [] else [Current(track, c)] + Playback(track, Next(c, |track|), k - 1)
  }

  /** The poses of s, each present. */
  function Somes<P>(s: seq<P>): (r: seq<Option<P>>)
    ensures |r| == |s|
    decreases |s|
  {
    if s == [] then [] else [Some(s[0])] + Somes(s[1..])
  }

  /** Playing n frames shows the first k of them, then n - k frames from where the counter got to. */
  lemma {:induction false} PlaybackSplit<P>(track: seq<P>, c: nat, k: nat, n: nat)
    requires k <= n
    ensures Playback(track, c, n) == Playback(track, c, k) + Playback(track, Iterate(c, |track|, k), n - k)
    ensures Iterate(c, |track|, n) == Iterate(Iterate(c, |track|, k), |track|, n - k)
    decreases k
  {
    if k > 0 {
      PlaybackSplit(track, Next(c, |track|), k - 1, n - 1);
    }
  }

  /** One more frame appends what the counter reached after k frames shows, and advances it once more. */
  lemma {:induction false} PlaybackSnoc<P>(track: seq<P>, c: nat, k: nat)
    ensures Playback(track, c, k + 1) == Playback(track, c, k) + [Current(track, Iterate(c, |track|, k))]
    ensures Iterate(c, |track|, k + 1) == Next(Iterate(c, |track|, k), |track|)
  {
    PlaybackSplit(track, c, k, k + 1);
    var d := Iterate(c, |track|, k);
    assert Playback(track, d, 1) == [Current(track, d)] + Playback(track, Next(d, |track|), 0);
    assert Iterate(d, |track|, 1) == Iterate(Next(d, |track|), |track|, 0);
  }

  /** From counter c, the frames up to position e show track[c..e] in order; the counter then sits at e, or at 0 at the end. */
  lemma {:induction false} PlaybackSegment<P>(track: seq<P>, c: nat, e: nat)
    requires c <= e <= |track|
    ensures Playback(track, c, e - c) == Somes(track[c..e])
    ensures Iterate(c, |track|, e - c) == (if c < e && e == |track| then 0 else e)
    decreases e - c
  {
    if c < e {
      PlaybackSegment(track, c + 1, e);
      assert track[c..e] == [track[c]] + track[c + 1..e];
      if c + 1 == |track| {
        assert e - c == 1;
      }
    }
  }

  /**
   * Playback is cyclic: |track| frames from any valid counter show every
   * recorded pose once, in recorded order starting at that counter, and
   * bring the counter back to where it started.
   */
  lemma {:induction false} PlaybackCycle<P>(track: seq<P>, c: nat)
    requires c < |track|
    ensures Playback(track, c, |track|) == Somes(track[c..]) + Somes(track[..c])
    ensures Iterate(c, |track|, |track|) == c
  {
    var len := |track|;
    PlaybackSplit(track, c, len - c, len);
    PlaybackSegment(track, c, len);
    PlaybackSegment(track, 0, c);
    assert track[c..len] == track[c..];
    assert track[0..c] == track[..c];
  }

  /** From the start of a finished track, one cycle plays exactly the recording. */
  lemma {:induction false} PlaybackFromStart<P>(track: seq<P>)
    requires |track| > 0
    ensures Playback(track, 0, |track|) == Somes(track)
    ensures Iterate(0, |track|, |track|) == 0
  {
    PlaybackCycle(track, 0);
    assert track[0..] == track;
    assert track[..0] == [];
  }

  /** An empty track shows nothing on any frame and its counter stays 0. */
  lemma {:induction false} EmptyTrackPlayback<P>(track: seq<P>, k: nat)
    requires track == []
    ensures forall i :: 0 <= i < k ==> Playback(track, 0, k)[i] == None
    ensures Iterate(0, 0, k) == 0
    decreases k
  {
    if k > 0 {
      EmptyTrackPlayback(track, k - 1);
    }
  }

  // ---------------------------------------------------------------------
  // Recorder state
  // ---------------------------------------------------------------------

  /** The sketch's global state. */
  class Recorder<P> {
    /** The latest detection result. */
    var poses: seq<P>
    /** One track per recording, in the order they were started. */
    var recordedPoses: seq<seq<P>>
    /** Number of finished recordings; also the index of the active one. */
    var recordedPosesCounter: nat
    /** Whether a recording is active. */
    var recording: bool
    /** One playback counter per track. */
    var animationCounter: seq<nat>

    /**
     * There is a track and a counter per finished recording, plus one for
     * the active recording; every counter is usable for its track; the
     * active track has not started playing. Consequently a track's
     * counter reads `undefined` exactly when the track is empty.
     */
    ghost predicate Valid()
      reads this
      ensures Valid() ==> recordedPosesCounter <= |recordedPoses| == |animationCounter|
      ensures Valid() ==> forall i :: 0 <= i < |recordedPoses| ==>
        (Current(recordedPoses[i], animationCounter[i]).None? <==> recordedPoses[i] == [])
    {
      && |recordedPoses| == |animationCounter| == recordedPosesCounter + (if recording then 1 else 0)
      && (forall i :: 0 <= i < |recordedPoses| ==> CounterOk(animationCounter[i], |recordedPoses[i]|))
      && (recording ==> animationCounter[recordedPosesCounter] == 0)
    }

    constructor ()
      ensures Valid()
      ensures poses == [] && recordedPoses == [] && animationCounter == []
      ensures recordedPosesCounter == 0 && !recording
    {
      poses := [];
      recordedPoses := [];
      recordedPosesCounter := 0;
      recording := false;
      animationCounter := [];
    }

    /**
     * Key release: the space key stops the active recording (which becomes
     * a finished track) or starts a new empty one with its counter at 0;
     * any other key changes nothing.
     */
    method KeyReleased(keyCode: int)
      requires Valid()
      modifies this`recording, this`recordedPosesCounter, this`recordedPoses, this`animationCounter
      ensures Valid()
      ensures keyCode != SpaceKey ==>
        && recording == old(recording) && recordedPosesCounter == old(recordedPosesCounter)
        && recordedPoses == old(recordedPoses) && animationCounter == old(animationCounter)
      ensures keyCode == SpaceKey ==> recording == !old(recording)
      ensures keyCode == SpaceKey && old(recording) ==>
        && recordedPosesCounter == old(recordedPosesCounter) + 1
        && recordedPoses == old(recordedPoses) && animationCounter == old(animationCounter)
      ensures keyCode == SpaceKey && !old(recording) ==>
        && recordedPosesCounter == old(recordedPosesCounter)
        && |old(recordedPoses)| == recordedPosesCounter
        && recordedPoses == old(recordedPoses) + [[]]
        && animationCounter == old(animationCounter) + [0]
    {
      if keyCode == SpaceKey {
        if recording {
          recording := false;
          recordedPosesCounter := recordedPosesCounter + 1;
        } else {
          recording := true;
          // the slot at recordedPosesCounter is one past the end, so the
          // index assignments grow both arrays by one
          assert |recordedPoses| == recordedPosesCounter == |animationCounter|;
          recordedPoses := recordedPoses + [[]];
          animationCounter := animationCounter + [0];
        }
      }
    }

    /** Detector callback: keep the result; while recording, append its first hand to the active track. */
    method GotResultsModel(result: seq<P>)
      requires Valid()
      modifies this`poses, this`recordedPoses
      ensures Valid()
      ensures poses == result
      ensures |recordedPoses| == |old(recordedPoses)|
      ensures |result| > 0 && recording ==>
        recordedPoses == old(recordedPoses)[recordedPosesCounter := old(recordedPoses)[recordedPosesCounter] + [result[0]]]
      ensures |result| == 0 || !recording ==> recordedPoses == old(recordedPoses)
    {
      poses := result;
      if |poses| > 0 {
        if recording {
          recordedPoses := recordedPoses[recordedPosesCounter := recordedPoses[recordedPosesCounter] + [poses[0]]];
        }
      }
    }

    /**
     * One frame of playback: every finished track shows the pose at its
     * counter (nothing for an empty track) and its counter advances; the
     * active track is skipped and its counter kept.
     */
    method Step() returns (frame: seq<Option<P>>)
      requires Valid()
      modifies this`animationCounter
      ensures Valid()
      ensures |frame| == recordedPosesCounter
      ensures |animationCounter| == |old(animationCounter)|
      ensures forall i :: 0 <= i < recordedPosesCounter ==>
        && frame[i] == Current(recordedPoses[i], old(animationCounter)[i])
        && animationCounter[i] == Next(old(animationCounter)[i], |recordedPoses[i]|)
      ensures forall i :: recordedPosesCounter <= i < |animationCounter| ==>
        animationCounter[i] == old(animationCounter)[i]
    {
      var loopLength := |recordedPoses|;
      if recording {
        loopLength := |recordedPoses| - 1;
      }
      frame := [];
      var i := 0;
      while i < loopLength
        modifies this`animationCounter
        invariant 0 <= i <= loopLength == recordedPosesCounter
        invariant |animationCounter| == |old(animationCounter)|
        invariant |frame| == i
        invariant forall k :: 0 <= k < i ==>
          && frame[k] == Current(recordedPoses[k], old(animationCounter)[k])
          && animationCounter[k] == Next(old(animationCounter)[k], |recordedPoses[k]|)
        invariant forall k :: i <= k < |animationCounter| ==> animationCounter[k] == old(animationCounter)[k]
      {
        var currentPose := Current(recordedPoses[i], animationCounter[i]);
        var next := animationCounter[i] + 1;
        if next >= |recordedPoses[i]| {
          next := 0;
        }
        animationCounter := animationCounter[i := next];
        frame := frame + [currentPose];
        i := i + 1;
      }
    }
  
    /**
     * n consecutive frames, as the drawing loop calls `Step` once per frame:
     * finished track i shows `Playback` from its counter and its counter
     * ends at `Iterate` of it, so the cyclic playback lemmas are statements
     * about the recorder.
     */
    method PlayFrames(n: nat) returns (shown: seq<seq<Option<P>>>)
      requires Valid()
      modifies this`animationCounter
      ensures Valid()
      ensures |shown| == recordedPosesCounter
      ensures |animationCounter| == |old(animationCounter)|
      ensures forall i :: 0 <= i < recordedPosesCounter ==>
        && shown[i] == Playback(recordedPoses[i], old(animationCounter)[i], n)
        && animationCounter[i] == Iterate(old(animationCounter)[i], |recordedPoses[i]|, n)
      ensures forall i :: recordedPosesCounter <= i < |animationCounter| ==>
        animationCounter[i] == old(animationCounter)[i]
    {
      var count := recordedPosesCounter;
      shown := seq(count, i => []);
      var k := 0;
      while k < n
        modifies this`animationCounter
        invariant Valid()
        invariant 0 <= k <= n
        invariant |shown| == recordedPosesCounter
        invariant |animationCounter| == |old(animationCounter)|
        invariant forall i :: 0 <= i < recordedPosesCounter ==>
          && shown[i] == Playback(recordedPoses[i], old(animationCounter)[i], k)
          && animationCounter[i] == Iterate(old(animationCounter)[i], |recordedPoses[i]|, k)
        invariant forall i :: recordedPosesCounter <= i < |animationCounter| ==>
          animationCounter[i] == old(animationCounter)[i]
      {
        var frame := Step();
        forall i | 0 <= i < recordedPosesCounter
          ensures Playback(recordedPoses[i], old(animationCounter)[i], k + 1)
            == shown[i] + [frame[i]]
          ensures Iterate(old(animationCounter)[i], |recordedPoses[i]|, k + 1) == animationCounter[i]
        {
          PlaybackSnoc(recordedPoses[i], old(animationCounter)[i], k);
        }
        var before, count := shown, recordedPosesCounter;
        shown := seq(count, i requires 0 <= i < count => before[i] + [frame[i]]);
        k := k + 1;
      }
    }
  }
}
