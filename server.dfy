/**
 * The service front end: one calibrator, one "last calibration" slot, and one
 * handler per service. Every sample handler replies with the whole current
 * projection of the store, never a delta.
 */
module Server {
  import opened Common
  import opened Transforms
  import opened Calibrator

  /** The `SampleList` reply: hand-world samples, then camera-marker samples. */
  datatype SampleList = SampleList(handWorldSamples: TransformArray, cameraMarkerSamples: TransformArray)

  /** The reply that mirrors the calibrator's current store. */
  function SampleListOf(config: Config, samples: seq<Sample>): SampleList
  {
    SampleList(VispSamples(config, samples).0, VispSamples(config, samples).1)
  }

  /** The calibration part of the compute reply. */
  datatype CalibrationMsg = CalibrationMsg(eyeOnHand: bool, transform: TfTuple)

  /** Why a handler failed instead of replying. */
  datatype HandlerError =
    | TransformUnavailable(cause: TfError)
    | NoCalibration  // an attribute was read from an empty (`None`) slot

  /** The persistence calls `save_calibration` makes, in order; their effects are outside this model. */
  datatype PersistenceCall = ToParam(calibration: HandeyeCalibration) | ToFile(calibration: HandeyeCalibration)

  class HandeyeServer {
    const calibrator: HandeyeCalibrator
    var lastCalibration: Option<HandeyeCalibration>

    /** A server over a fresh calibrator with no samples, and no calibration yet. */
    constructor (config: Config)
      ensures fresh(calibrator) && calibrator.config == config && calibrator.samples == []
      ensures lastCalibration == None
    {
      calibrator := new HandeyeCalibrator(config);
      lastCalibration := None;
    }

    /** Replies with the full projection of the store; changes nothing. */
    method GetSampleLists() returns (r: SampleList)
      ensures r == SampleListOf(calibrator.config, calibrator.samples)
      ensures |r.handWorldSamples.transforms| == |r.cameraMarkerSamples.transforms| == |calibrator.samples|
    {
      var handWorld, cameraMarker := calibrator.GetVispSamples();
      r := SampleList(handWorld, cameraMarker);
    }

    /**
     * Takes a sample and replies with the projection after the append. When tf
     * fails, the error escapes and neither the store nor the slot changes.
     */
    method TakeSample(tf: TfListener, now: Time) returns (r: Result<SampleList, TfError>)
      modifies calibrator
      ensures lastCalibration == old(lastCalibration)
      ensures match GetTransforms(calibrator.config, tf, now, None)
        case Ok(s) =>
          calibrator.samples == old(calibrator.samples) + [s] &&
          r == Ok(SampleListOf(calibrator.config, calibrator.samples))
        case Err(e) => calibrator.samples == old(calibrator.samples) && r == Err(e)
      ensures r.Ok? ==>
        |r.value.handWorldSamples.transforms| == |r.value.cameraMarkerSamples.transforms| == |old(calibrator.samples)| + 1
      ensures r.Ok? ==>
        var before := SampleListOf(calibrator.config, old(calibrator.samples));
        r.value.handWorldSamples.transforms[..|old(calibrator.samples)|] == before.handWorldSamples.transforms &&
        r.value.cameraMarkerSamples.transforms[..|old(calibrator.samples)|] == before.cameraMarkerSamples.transforms
    {
      var outcome := calibrator.TakeSample(tf, now);
      if outcome.Fail? {
        return Err(outcome.error);
      }
      ghost var s := GetTransforms(calibrator.config, tf, now, None).value;
      ProjectionOfAppend(calibrator.config, old(calibrator.samples), s);
      var handWorld, cameraMarker := calibrator.GetVispSamples();
      r := Ok(SampleList(handWorld, cameraMarker));
    }

    /**
     * Removes sample `sampleIndex` when it is in range and replies with the
     * projection afterwards; an out-of-range index gives the unchanged lists.
     */
    method RemoveSample(sampleIndex: int) returns (r: SampleList)
      modifies calibrator
      ensures lastCalibration == old(lastCalibration)
      ensures 0 <= sampleIndex < |old(calibrator.samples)| ==>
        calibrator.samples == RemoveAt(old(calibrator.samples), sampleIndex)
      ensures !(0 <= sampleIndex < |old(calibrator.samples)|) ==> calibrator.samples == old(calibrator.samples)
      ensures r == SampleListOf(calibrator.config, calibrator.samples)
      ensures 0 <= sampleIndex < |old(calibrator.samples)| ==>
        var before := SampleListOf(calibrator.config, old(calibrator.samples));
        r.handWorldSamples.transforms == RemoveAt(before.handWorldSamples.transforms, sampleIndex) &&
        r.cameraMarkerSamples.transforms == RemoveAt(before.cameraMarkerSamples.transforms, sampleIndex)
    {
      if 0 <= sampleIndex < |calibrator.samples| {
        ProjectionOfRemove(calibrator.config, calibrator.samples, sampleIndex);
      }
      calibrator.RemoveSample(sampleIndex);
      var handWorld, cameraMarker := calibrator.GetVispSamples();
      r := SampleList(handWorld, cameraMarker);
    }

    /**
     * Overwrites the slot with whatever the calibrator returns, `None` included,
     * then replies from the slot; an empty slot makes the handler fail.
     */
    method ComputeCalibration(solver: Solver) returns (r: Result<CalibrationMsg, HandlerError>)
      modifies this
      ensures lastCalibration ==
        Calibrator.ComputeCalibration(calibrator.config, calibrator.samples, solver).outcome.ReturnValue()
      ensures lastCalibration.None? ==> r == Err(NoCalibration)
      ensures lastCalibration.Some? ==>
        r == Ok(CalibrationMsg(lastCalibration.value.eyeOnHand, lastCalibration.value.transformation))
    {
      var run := Calibrator.ComputeCalibration(calibrator.config, calibrator.samples, solver);
      lastCalibration := run.outcome.ReturnValue();
      match lastCalibration
      case None =>
        r := Err(NoCalibration);
      case Some(c) =>
        r := Ok(CalibrationMsg(c.eyeOnHand, c.transformation));
    }

    /**
     * Stores the last calibration as parameters, then in a file; with an empty
     * slot the handler fails before either call. Changes neither slot nor store.
     */
    method SaveCalibration() returns (r: Result<seq<PersistenceCall>, HandlerError>)
      ensures lastCalibration.None? <==> r == Err(NoCalibration)
      ensures lastCalibration.Some? ==>
        r == Ok([ToParam(lastCalibration.value), ToFile(lastCalibration.value)])
    {
      match lastCalibration
      case None =>
        r := Err(NoCalibration);
      case Some(c) =>
        r := Ok([ToParam(c), ToFile(c)]);
    }
  }

  /**
   * A full session driven through the handlers: two samples, a compute, a save,
   * a removal, and a compute that finds too few samples.
   */
  method CalibrationSession()
  {
    var robot := ((1.0, 0.0, 0.0), (0.0, 0.0, 0.0, 1.0));
    var optical := ((0.0, 2.0, 0.0), (0.0, 0.0, 0.0, 1.0));
    var tf := TfListener(
      (target: Frame, source: Frame, time: Time, timeout: Duration) => true,
      (target: Frame, source: Frame, time: Time) =>
        if target == "base_link" then Some(robot) else Some(optical));
    var answer := Transform(Vector3(0.1, 0.0, 0.2), Quaternion(0.0, 0.0, 0.0, 1.0));
    var solver := (request: SolverRequest) => EffectorCamera(answer);

    var server := new HandeyeServer(DEFAULT_CONFIG);
    var saved := server.SaveCalibration();
    assert saved == Err(NoCalibration);

    var taken := server.TakeSample(tf, 5);
    assert taken.Ok?;
    taken := server.TakeSample(tf, 6);
    assert server.calibrator.samples == [Sample(robot, optical), Sample(robot, optical)];

    var computed := server.ComputeCalibration(solver);
    assert computed == Ok(CalibrationMsg(false, ((0.1, 0.0, 0.2), (0.0, 0.0, 0.0, 1.0))));
    assert server.lastCalibration ==
      Some(HandeyeCalibration(false, "base_link", "tool0", "optical_origin", ((0.1, 0.0, 0.2), (0.0, 0.0, 0.0, 1.0))));

    saved := server.SaveCalibration();
    assert saved.Ok? && |saved.value| == 2;

    var lists := server.RemoveSample(0);
    assert |lists.handWorldSamples.transforms| == 1;

    var run := Calibrator.ComputeCalibration(server.calibrator.config, server.calibrator.samples, solver);
    assert run == ComputeRun(MoreSamplesNeeded(1), []);
    computed := server.ComputeCalibration(solver);
    assert computed == Err(NoCalibration) && server.lastCalibration == None;
  }
}
