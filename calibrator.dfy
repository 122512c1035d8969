/**
 * The calibrator: an ordered store of synchronized samples, its projection into
 * the two parallel transform arrays the ViSP solver takes, and the compute gate
 * that refuses to call the solver below `MIN_SAMPLES`.
 *
 * Collaborators are oracles: tf is a `TfListener` (wait and lookup), the clock is
 * the `now` parameter, and the ViSP `compute_effector_camera_quick` service is a
 * `Solver` function from one request to one reply.
 */
module Calibrator {
  import opened Common
  import opened Transforms

  type Frame = string
  /** A tf time stamp; `0` is tf's "latest available". */
  type Time = nat
  /** A wait budget, in seconds. */
  type Duration = nat

  /** Minimum number of samples before the solver is called. */
  const MIN_SAMPLES: nat := 2

  /** Wait budgets: robot chain and tracker chain at start-up, either chain afterwards. */
  const ROBOT_INIT_TIMEOUT: Duration := 10
  const OPTICAL_INIT_TIMEOUT: Duration := 60
  const RECENT_TIMEOUT: Duration := 10

  /** Parameters read once when the calibrator is built. */
  datatype Config = Config(
    eyeOnHand: bool,
    toolFrame: Frame,
    baseLinkFrame: Frame,
    opticalOriginFrame: Frame,
    opticalTargetFrame: Frame)

  /** The parameter defaults, used when a parameter is not set. */
  const DEFAULT_CONFIG := Config(false, "tool0", "base_link", "optical_origin", "optical_target")

  /** One synchronized acquisition: robot base->tool and tracker origin->target. */
  datatype Sample = Sample(robot: TfTuple, optical: TfTuple)

  /**
   * What the calibrator sees of tf. `waitForTransform(target, source, time, timeout)`
   * is false when the wait times out; `lookupTransform(target, source, time)` is
   * `None` when the lookup raises.
   */
  datatype TfListener = TfListener(
    waitForTransform: (Frame, Frame, Time, Duration) -> bool,
    lookupTransform: (Frame, Frame, Time) -> Option<TfTuple>)

  /** The tf exceptions that escape a sampling attempt. */
  datatype TfError =
    | WaitTimedOut(target: Frame, source: Frame, time: Time, timeout: Duration)
    | LookupFailed(target: Frame, source: Frame, time: Time)

  /** Blocks until both chains have some transform: robot within 10 s, tracker within 60 s. */
  function WaitForTfInit(config: Config, tf: TfListener): (r: Outcome<TfError>)
    ensures r.Pass? <==>
      tf.waitForTransform(config.baseLinkFrame, config.toolFrame, 0, ROBOT_INIT_TIMEOUT) &&
      tf.waitForTransform(config.opticalOriginFrame, config.opticalTargetFrame, 0, OPTICAL_INIT_TIMEOUT)
    ensures !tf.waitForTransform(config.baseLinkFrame, config.toolFrame, 0, ROBOT_INIT_TIMEOUT) ==>
      r == Fail(WaitTimedOut(config.baseLinkFrame, config.toolFrame, 0, ROBOT_INIT_TIMEOUT))
    ensures r.Fail? ==> r.error.WaitTimedOut? && r.error.time == 0
  {
    if !tf.waitForTransform(config.baseLinkFrame, config.toolFrame, 0, ROBOT_INIT_TIMEOUT) then
      Fail(WaitTimedOut(config.baseLinkFrame, config.toolFrame, 0, ROBOT_INIT_TIMEOUT))
    else if !tf.waitForTransform(config.opticalOriginFrame, config.opticalTargetFrame, 0, OPTICAL_INIT_TIMEOUT) then
      Fail(WaitTimedOut(config.opticalOriginFrame, config.opticalTargetFrame, 0, OPTICAL_INIT_TIMEOUT))
    else
      Pass
  }

  /**
   * Waits, 10 s per chain, until both chains have a transform at the current time
   * `now`, and returns that time.
   */
  function WaitForTransforms(config: Config, tf: TfListener, now: Time): (r: Result<Time, TfError>)
    ensures r.Ok? <==>
      tf.waitForTransform(config.baseLinkFrame, config.toolFrame, now, RECENT_TIMEOUT) &&
      tf.waitForTransform(config.opticalOriginFrame, config.opticalTargetFrame, now, RECENT_TIMEOUT)
    ensures r.Ok? ==> r.value == now
    ensures r.Err? ==> r.error.WaitTimedOut? && r.error.time == now && r.error.timeout == RECENT_TIMEOUT
  {
    if !tf.waitForTransform(config.baseLinkFrame, config.toolFrame, now, RECENT_TIMEOUT) then
      Err(WaitTimedOut(config.baseLinkFrame, config.toolFrame, now, RECENT_TIMEOUT))
    else if !tf.waitForTransform(config.opticalOriginFrame, config.opticalTargetFrame, now, RECENT_TIMEOUT) then
      Err(WaitTimedOut(config.opticalOriginFrame, config.opticalTargetFrame, now, RECENT_TIMEOUT))
    else
      Ok(now)
  }

  /**
   * Samples both chains at one time: `time` when given, otherwise the time
   * returned by `WaitForTransforms`. Both lookups use that single time.
   */
  function GetTransforms(config: Config, tf: TfListener, now: Time, time: Option<Time>): (r: Result<Sample, TfError>)
    ensures r.Ok? ==>
      var t := if time.Some? then time.value else now;
      tf.lookupTransform(config.baseLinkFrame, config.toolFrame, t) == Some(r.value.robot) &&
      tf.lookupTransform(config.opticalOriginFrame, config.opticalTargetFrame, t) == Some(r.value.optical)
    ensures time.None? && WaitForTransforms(config, tf, now).Err? ==> r == Err(WaitForTransforms(config, tf, now).error)
    ensures (time.Some? || WaitForTransforms(config, tf, now).Ok?) ==>
      var t := if time.Some? then time.value else now;
      (r.Ok? <==>
        tf.lookupTransform(config.baseLinkFrame, config.toolFrame, t).Some? &&
        tf.lookupTransform(config.opticalOriginFrame, config.opticalTargetFrame, t).Some?)
  {
    var sampleTime := if time.Some? then Ok(time.value) else WaitForTransforms(config, tf, now);
    match sampleTime
    case Err(e) => Err(e)
    case Ok(t) => LookupBoth(config, tf, t)
  }

  /** Looks up the robot chain, then the tracker chain, both at time `t`. */
  function LookupBoth(config: Config, tf: TfListener, t: Time): Result<Sample, TfError>
  {
    match tf.lookupTransform(config.baseLinkFrame, config.toolFrame, t)
    case None => Err(LookupFailed(config.baseLinkFrame, config.toolFrame, t))
    case Some(rob) =>
      match tf.lookupTransform(config.opticalOriginFrame, config.opticalTargetFrame, t)
      case None => Err(LookupFailed(config.opticalOriginFrame, config.opticalTargetFrame, t))
      case Some(opt) => Ok(Sample(rob, opt))
  }

  /**
   * Sampling "now" is sampling at the time the wait returned: the implicit time is
   * not a second clock reading but exactly `WaitForTransforms`' result.
   */
  lemma SampleNowIsSampleAtWaitTime(config: Config, tf: TfListener, now: Time)
    ensures GetTransforms(config, tf, now, None) ==
      match WaitForTransforms(config, tf, now)
      case Ok(t) => GetTransforms(config, tf, now, Some(t))
      case Err(e) => Err(e)
  {
  }

  /** `del s[i]`: removes exactly the element at `i`, keeping the others in order. */
  function RemoveAt<T>(s: seq<T>, i: nat): (r: seq<T>)
    requires i < |s|
    ensures |r| == |s| - 1
    ensures forall j :: 0 <= j < i ==> r[j] == s[j]
    ensures forall j :: i <= j < |r| ==> r[j] == s[j + 1]
    ensures multiset(r) + multiset{s[i]} == multiset(s)
  {
    assert s == s[..i] + [s[i]] + s[i + 1..];
    s[..i] + s[i + 1..]
  }

  /**
   * The store projected into (hand-world, camera-marker) arrays, built the way the
   * source's loop builds them: one element appended to each per sample, in order.
   */
  function VispSamples(config: Config, samples: seq<Sample>): (r: (TransformArray, TransformArray))
    ensures r.0.frameId == config.baseLinkFrame && r.1.frameId == config.opticalOriginFrame
    ensures |r.0.transforms| == |samples| && |r.1.transforms| == |samples|
    ensures forall k {:trigger r.0.transforms[k]} :: 0 <= k < |samples| ==>
      r.0.transforms[k] == TupleToMsgTransform(samples[k].robot)
    ensures forall k {:trigger r.1.transforms[k]} :: 0 <= k < |samples| ==>
      r.1.transforms[k] == TupleToMsgTransform(samples[k].optical)
    decreases |samples|
  {
    if samples == [] then
      (TransformArray(config.baseLinkFrame, []), TransformArray(config.opticalOriginFrame, []))
    else
      var (handWorld, cameraMarker) := VispSamples(config, samples[..|samples| - 1]);
      var s := samples[|samples| - 1];
      (handWorld.Append(TupleToMsgTransform(s.robot)), cameraMarker.Append(TupleToMsgTransform(s.optical)))
  }

  /** Reassembles samples from two parallel arrays of equal length. */
  function SamplesOf(handWorld: seq<Transform>, cameraMarker: seq<Transform>): (r: seq<Sample>)
    requires |handWorld| == |cameraMarker|
  {
    seq(|handWorld|, k requires 0 <= k < |handWorld| =>
      Sample(MsgTransformToTuple(handWorld[k]), MsgTransformToTuple(cameraMarker[k])))
  }

  /** The projection is lossless: the two arrays together give back the whole store. */
  lemma ProjectionRecoversSamples(config: Config, samples: seq<Sample>)
    ensures var (handWorld, cameraMarker) := VispSamples(config, samples);
      |handWorld.transforms| == |cameraMarker.transforms| &&
      SamplesOf(handWorld.transforms, cameraMarker.transforms) == samples
  {
  }

  /** Appending a sample appends one transform to each array and keeps the rest. */
  lemma ProjectionOfAppend(config: Config, samples: seq<Sample>, s: Sample)
    ensures VispSamples(config, samples + [s]).0 == VispSamples(config, samples).0.Append(TupleToMsgTransform(s.robot))
    ensures VispSamples(config, samples + [s]).1 == VispSamples(config, samples).1.Append(TupleToMsgTransform(s.optical))
  {
  }

  /** Removing sample `i` removes element `i` of each array and keeps the rest in order. */
  lemma ProjectionOfRemove(config: Config, samples: seq<Sample>, i: nat)
    requires i < |samples|
    ensures VispSamples(config, RemoveAt(samples, i)).0.transforms == RemoveAt(VispSamples(config, samples).0.transforms, i)
    ensures VispSamples(config, RemoveAt(samples, i)).1.transforms == RemoveAt(VispSamples(config, samples).1.transforms, i)
  {
    var rest := RemoveAt(samples, i);
    var after, before := VispSamples(config, rest), VispSamples(config, samples);
    forall k | 0 <= k < |rest|
      ensures after.0.transforms[k] == before.0.transforms[if k < i then k else k + 1]
      ensures after.1.transforms[k] == before.1.transforms[if k < i then k else k + 1]
    {
      assert rest[k] == samples[if k < i then k else k + 1];
    }
    RemoveAtByIndex(after.0.transforms, before.0.transforms, i);
    RemoveAtByIndex(after.1.transforms, before.1.transforms, i);
  }

  /** A sequence that skips exactly position `i` of `s`, index by index, is `RemoveAt(s, i)`. */
  lemma RemoveAtByIndex<T>(r: seq<T>, s: seq<T>, i: nat)
    requires i < |s| && |r| == |s| - 1
    requires forall k :: 0 <= k < |r| ==> r[k] == s[if k < i then k else k + 1]
    ensures r == RemoveAt(s, i)
  {
  }

  /** One call of the ViSP service: `calibrate(camera_marker, hand_world)`, in that order. */
  datatype SolverRequest = SolverRequest(cameraMarker: TransformArray, handWorld: TransformArray)

  /** The service's answer: the effector-camera transform, or a `ServiceException`. */
  datatype SolverReply = EffectorCamera(transform: Transform) | ServiceException(message: string)

  type Solver = SolverRequest -> SolverReply

  /** A computed calibration, labelled with the configured frames. */
  datatype HandeyeCalibration = HandeyeCalibration(
    eyeOnHand: bool,
    baseLinkFrame: Frame,
    toolFrame: Frame,
    opticalOriginFrame: Frame,
    transformation: TfTuple)

  /** How a compute attempt ended. */
  datatype ComputeOutcome =
    | MoreSamplesNeeded(needed: nat)
    | CalibrationFailed(message: string)
    | Calibrated(calibration: HandeyeCalibration)
  {
    /** What the source returns: the calibration, or `None` for both failures. */
    function ReturnValue(): (r: Option<HandeyeCalibration>)
      ensures r.Some? <==> Calibrated?
      ensures r.Some? ==> r.value == calibration
    {
      if Calibrated? then Some(calibration) else None
    }
  }

  /** A compute attempt: its outcome and every request it sent to the solver, in order. */
  datatype ComputeRun = ComputeRun(outcome: ComputeOutcome, solverCalls: seq<SolverRequest>)

  /** The request the store's current contents make: both arrays, camera-marker first. */
  function RequestFor(config: Config, samples: seq<Sample>): SolverRequest
  {
    SolverRequest(VispSamples(config, samples).1, VispSamples(config, samples).0)
  }

  /**
   * Checks the sample count before anything else; below `MIN_SAMPLES` it reports
   * how many more are needed and never calls the solver. Otherwise it calls the
   * solver once with the full projection and labels the reply with the
   * configuration's frames, copying the transform component by component.
   */
  function ComputeCalibration(config: Config, samples: seq<Sample>, solver: Solver): (r: ComputeRun)
    ensures r.solverCalls == [] <==> |samples| < MIN_SAMPLES
    ensures r.outcome.MoreSamplesNeeded? <==> |samples| < MIN_SAMPLES
    ensures r.outcome.MoreSamplesNeeded? ==> r.outcome.needed == MIN_SAMPLES - |samples| > 0
    ensures |r.solverCalls| <= 1
    ensures forall call :: call in r.solverCalls ==>
      |call.cameraMarker.transforms| == |samples| && |call.handWorld.transforms| == |samples| &&
      call.cameraMarker.frameId == config.opticalOriginFrame && call.handWorld.frameId == config.baseLinkFrame &&
      SamplesOf(call.handWorld.transforms, call.cameraMarker.transforms) == samples
    ensures r.outcome.CalibrationFailed? <==> r.solverCalls != [] && solver(r.solverCalls[0]).ServiceException?
    ensures r.outcome.Calibrated? ==>
      r.solverCalls != [] && solver(r.solverCalls[0]).EffectorCamera? &&
      var c, t := r.outcome.calibration, solver(r.solverCalls[0]).transform;
      c.eyeOnHand == config.eyeOnHand && c.baseLinkFrame == config.baseLinkFrame &&
      c.toolFrame == config.toolFrame && c.opticalOriginFrame == config.opticalOriginFrame &&
      c.transformation.0 == (t.translation.x, t.translation.y, t.translation.z) &&
      c.transformation.1 == (t.rotation.x, t.rotation.y, t.rotation.z, t.rotation.w)
  {
    if |samples| < MIN_SAMPLES then
      ComputeRun(MoreSamplesNeeded(MIN_SAMPLES - |samples|), [])
    else
      var (handWorld, cameraMarker) := VispSamples(config, samples);
      if |handWorld.transforms| != |cameraMarker.transforms| then
        // The source raises AssertionError here; the projection never yields unequal lengths.
        assert false; ComputeRun(CalibrationFailed("AssertionError"), [])
      else
        ProjectionRecoversSamples(config, samples);
        var request := SolverRequest(cameraMarker, handWorld);
        match solver(request)
        case ServiceException(message) => ComputeRun(CalibrationFailed(message), [request])
        case EffectorCamera(t) =>
          ComputeRun(Calibrated(HandeyeCalibration(config.eyeOnHand, config.baseLinkFrame, config.toolFrame,
                                                   config.opticalOriginFrame, MsgTransformToTuple(t))), [request])
  }

  /** The calibration's transform, turned back into a message, is exactly the solver's answer. */
  lemma CalibrationKeepsSolverTransform(config: Config, samples: seq<Sample>, solver: Solver)
    requires ComputeCalibration(config, samples, solver).outcome.Calibrated?
    ensures solver(RequestFor(config, samples)).EffectorCamera?
    ensures TupleToMsgTransform(ComputeCalibration(config, samples, solver).outcome.calibration.transformation)
      == solver(RequestFor(config, samples)).transform
  {
  }

  /** Below the threshold the solver is not consulted: any two solvers give the same run. */
  lemma BelowThresholdIgnoresSolver(config: Config, samples: seq<Sample>, solver1: Solver, solver2: Solver)
    requires |samples| < MIN_SAMPLES
    ensures ComputeCalibration(config, samples, solver1) == ComputeCalibration(config, samples, solver2)
  {
  }

  /** At or above the threshold the run depends on the solver only through its reply to the store's request. */
  lemma RunDependsOnlyOnReply(config: Config, samples: seq<Sample>, solver1: Solver, solver2: Solver)
    requires solver1(RequestFor(config, samples)) == solver2(RequestFor(config, samples))
    ensures ComputeCalibration(config, samples, solver1) == ComputeCalibration(config, samples, solver2)
  {
  }

  /** The calibrator object: its configuration and its mutable, ordered sample list. */
  class HandeyeCalibrator {
    const config: Config
    var samples: seq<Sample>

    /** A calibrator with the given parameters and no samples. */
    constructor (config: Config)
      ensures this.config == config && samples == []
    {
      this.config := config;
      samples := [];
    }

    /**
     * Samples both chains at the current time and appends the sample at the end.
     * When waiting or a lookup fails, the error escapes and the list is untouched.
     */
    method TakeSample(tf: TfListener, now: Time) returns (r: Outcome<TfError>)
      modifies this
      ensures match GetTransforms(config, tf, now, None)
        case Ok(s) => r == Pass && samples == old(samples) + [s]
        case Err(e) => r == Fail(e) && samples == old(samples)
    {
      var transforms := GetTransforms(config, tf, now, None);
      match transforms
      case Err(e) =>
        r := Fail(e);
      case Ok(s) =>
        samples := samples + [s];
        r := Pass;
    }

    /** Deletes sample `index` when `0 <= index < |samples|`; any other index is ignored. */
    method RemoveSample(index: int)
      modifies this
      ensures 0 <= index < |old(samples)| ==> samples == RemoveAt(old(samples), index)
      ensures !(0 <= index < |old(samples)|) ==> samples == old(samples)
    {
      if 0 <= index < |samples| {
        samples := samples[..index] + samples[index + 1..];
      }
    }

    /** Builds the (hand-world, camera-marker) arrays by walking the sample list once. */
    method GetVispSamples() returns (handWorld: TransformArray, cameraMarker: TransformArray)
      ensures (handWorld, cameraMarker) == VispSamples(config, samples)
    {
      handWorld := TransformArray(config.baseLinkFrame, []);
      cameraMarker := TransformArray(config.opticalOriginFrame, []);
      for i := 0 to |samples|
        invariant (handWorld, cameraMarker) == VispSamples(config, samples[..i])
      {
        var s := samples[i];
        cameraMarker := cameraMarker.Append(TupleToMsgTransform(s.optical));
        handWorld := handWorld.Append(TupleToMsgTransform(s.robot));
        assert samples[..i + 1][..i] == samples[..i];
      }
      assert samples[..|samples|] == samples;
    }
  }
}
