# Hand-eye calibration: sample store and compute gate

A Dafny model of the orchestration core of the `handeyecalibration` ROS package:
the `HandeyeCalibrator`, which keeps an ordered list of synchronized
`{robot, optical}` transform samples, projects it into the two parallel
`TransformArray`s the ViSP hand-eye service takes, and refuses to call that
service with fewer than `MIN_SAMPLES` (2) samples; and the `HandeyeServer`,
which owns the calibrator and a single "last calibration" slot and answers
the get/take/remove/compute/save services.

Files:

- `common.dfy` — `Option`, `Result`, `Outcome` for `None` returns and raised exceptions.
- `transforms.dfy` — tf tuples, `geometry_msgs/Transform`, `TransformArray`, and the
  component copy between tuple and message.
- `calibrator.dfy` — configuration, samples, the tf oracle, the pure sampling and
  projection functions, `ComputeCalibration`, and the `HandeyeCalibrator` class.
- `server.dfy` — the `HandeyeServer` class and its handlers, plus a client method
  (`CalibrationSession`) that drives a full take/compute/save/remove/compute session.

Collaborators are parameters. tf is a `TfListener` value holding two functions:
`waitForTransform` (false on timeout) and `lookupTransform` (`None` when the
lookup raises). The clock reading `rospy.Time.now()` is the `now` argument. The
ViSP `compute_effector_camera_quick` service is a `Solver` function from the
request to either the effector-camera transform or a `ServiceException`.
`ComputeCalibration` returns its outcome together with the list of requests it
sent to the solver, so "the solver is not called" and "called once, with
(camera-marker, hand-world) in that order" are statements about that list.

Behaviour of the source that the model keeps:

- `compute_calibration` in the server (handeye_server.py:42) overwrites `last_calibration`
  with the calibrator's return value, `None` after either failure (too few samples, or a
  service exception), and the handler then fails reading `eye_on_hand` from it.
- `remove_sample` with an out-of-range index, negative ones included, does nothing
  (handeye_calibrator.py:148), and the reply is the unchanged lists.
- `save_calibration` (handeye_server.py:49-52) fails with the same attribute error
  (`NoCalibration`) when `last_calibration` is `None`; otherwise it calls `to_param` and
  then `to_file`, and nothing is reported about either call beyond the empty reply.
- `_wait_for_tf_init` (handeye_calibrator.py:94-102) is never called by the source; it is
  modelled as `WaitForTfInit` for completeness, and nothing else in the model uses it.

## Model

| member | source | states |
|---|---|---|
| `Transforms.TupleToMsgTransform` | handeyecalibration/src/handeyecalibration/handeye_calibrator.py:151-161 | the message built from a tf tuple reads back as the same tuple: nothing is lost or reordered |
| `Transforms.MsgTupleRoundTrip` | handeyecalibration/src/handeyecalibration/handeye_calibrator.py:206-209 | copying a message's components into a tuple and back gives the same message |
| `Calibrator.WaitForTfInit` | handeyecalibration/src/handeyecalibration/handeye_calibrator.py:94-102 | succeeds exactly when the robot chain is available within 10 s and the tracker chain within 60 s (time 0); a robot-chain timeout is the error reported first |
| `Calibrator.WaitForTransforms` | handeyecalibration/src/handeyecalibration/handeye_calibrator.py:104-113 | succeeds exactly when both chains reach `now` within 10 s each, and then returns `now`; otherwise a timeout at `now` |
| `Calibrator.GetTransforms` | handeyecalibration/src/handeyecalibration/handeye_calibrator.py:115-128 | a sample's robot and optical transforms are the two lookups at one single time (given, or the wait's time); a wait failure escapes unchanged; success exactly when both lookups succeed |
| `Calibrator.SampleNowIsSampleAtWaitTime` | handeyecalibration/src/handeyecalibration/handeye_calibrator.py:123-128 | sampling with no time is sampling at the time `_wait_for_transforms` returned, or that wait's error |
| `Calibrator.RemoveAt` | handeyecalibration/src/handeyecalibration/handeye_calibrator.py:148-149 | `del s[i]`: length drops by one, elements before `i` stay, later ones shift down by one, and exactly one copy of `s[i]` leaves the multiset |
| `Calibrator.VispSamples` | handeyecalibration/src/handeyecalibration/handeye_calibrator.py:163-182 | two arrays headed `base_link_frame` and `optical_origin_frame`, each as long as the store; element k is sample k's robot (resp. optical) transform |
| `Calibrator.ProjectionRecoversSamples` | handeyecalibration/src/handeyecalibration/handeye_calibrator.py:169-182 | the two arrays together give back the whole store, in order: every reply carries the full state |
| `Calibrator.ProjectionOfAppend` | handeyecalibration/src/handeyecalibration/handeye_calibrator.py:176-180 | appending a sample appends its two transforms at the end of the arrays and leaves the rest unchanged |
| `Calibrator.ProjectionOfRemove` | handeyecalibration/src/handeyecalibration/handeye_calibrator.py:148-149 | removing sample i removes element i of both arrays, the rest keeping their order |
| `Calibrator.ComputeOutcome.ReturnValue` | handeyecalibration/src/handeyecalibration/handeye_calibrator.py:190-220 | the value `compute_calibration` returns: the calibration on success, `None` on both failures |
| `Calibrator.ComputeCalibration` | handeyecalibration/src/handeyecalibration/handeye_calibrator.py:184-220 | below `MIN_SAMPLES` no solver call and `MIN_SAMPLES - len` more needed; otherwise exactly one call whose arrays are the full store in order; a service exception gives a failure; success labels the result with the configured `eye_on_hand` and frames and copies translation and rotation component by component; the unequal-length `AssertionError` branch is proved dead |
| `Calibrator.CalibrationKeepsSolverTransform` | handeyecalibration/src/handeyecalibration/handeye_calibrator.py:205-216 | a computed calibration's transform, turned back into a message, is exactly the solver's answer to the store's request |
| `Calibrator.BelowThresholdIgnoresSolver` | handeyecalibration/src/handeyecalibration/handeye_calibrator.py:190-193 | below the threshold the result does not depend on the solver at all |
| `Calibrator.RunDependsOnlyOnReply` | handeyecalibration/src/handeyecalibration/handeye_calibrator.py:204-205 | the result depends on the solver only through its reply to the one request built from the store |
| `Calibrator.HandeyeCalibrator.constructor` | handeyecalibration/src/handeyecalibration/handeye_calibrator.py:17-79 | the calibrator keeps the given configuration and starts with no samples |
| `Calibrator.HandeyeCalibrator.TakeSample` | handeyecalibration/src/handeyecalibration/handeye_calibrator.py:130-139 | on a successful acquisition exactly that sample is appended at the end; when tf fails the error is returned and the list is unchanged |
| `Calibrator.HandeyeCalibrator.RemoveSample` | handeyecalibration/src/handeyecalibration/handeye_calibrator.py:141-149 | an index with `0 <= index < len` removes exactly that element; any other index, negative ones included, leaves the list unchanged |
| `Calibrator.HandeyeCalibrator.GetVispSamples` | handeyecalibration/src/handeyecalibration/handeye_calibrator.py:163-182 | the loop over the list builds exactly the projection `VispSamples` of the current store, and changes nothing |
| `Server.HandeyeServer.constructor` | handeyecalibration/src/handeyecalibration/handeye_server.py:11-25 | a fresh calibrator with no samples and an empty last-calibration slot |
| `Server.HandeyeServer.GetSampleLists` | handeyecalibration/src/handeyecalibration/handeye_server.py:27-28 | replies with the full projection, both lists as long as the store; changes neither store nor slot |
| `Server.HandeyeServer.TakeSample` | handeyecalibration/src/handeyecalibration/handeye_server.py:30-32 | replies with the projection after the append, one longer than before with the earlier entries unchanged; a tf failure escapes with store and slot unchanged |
| `Server.HandeyeServer.RemoveSample` | handeyecalibration/src/handeyecalibration/handeye_server.py:34-39 | always replies with the projection after the attempt: entry i removed from both lists for a valid index, the unchanged lists otherwise |
| `Server.HandeyeServer.ComputeCalibration` | handeyecalibration/src/handeyecalibration/handeye_server.py:41-47 | the slot is overwritten with the calibrator's return value, `None` included; the reply copies `eye_on_hand` and the transform from the new slot, and the handler fails when it is empty |
| `Server.HandeyeServer.SaveCalibration` | handeyecalibration/src/handeyecalibration/handeye_server.py:49-52 | fails exactly when the slot is empty; otherwise calls `to_param` then `to_file` on the last calibration; changes neither slot nor store |

## Left out

- ROS parameter reads: the configuration is a constructor argument; `DEFAULT_CONFIG` holds the defaults.
- tf's `TransformListener`, `TransformBroadcaster`, `TransformerROS` objects: only the listener's wait and lookup are modelled, as the `TfListener` oracle; the broadcaster and transformer are never used by the modelled code.
- Real timeouts, blocking and the clock: a wait is an oracle answer for a given budget; the current time is the `now` parameter, and `rospy.Time` is a `nat`.
- `rospy.wait_for_service` and the service proxy: the ViSP solver is the `Solver` oracle; its AX=XB numerics are not modelled.
- `HandeyeCalibration` internals and `to_param`/`to_file`: the class is not part of this model. The calibration is a value holding the five constructor arguments, and `transformation` is taken to be the tuple passed in. Saving is the ordered list of the two persistence calls, and their own failures are not modelled.
- Server.HandeyeServer.TakeSample: a tf exception is returned as an error value rather than raised through the service transport.
- Service registration, `*Response` and `SampleList` message wrappers beyond their fields, logging, and the `except IndexError` branch of the remove handler. That branch is dead: the calibrator's bounds check never raises.
- Quaternion normalisation and floating point: components are only copied, so they are `real` and never computed on.
- Concurrent dispatch of service handlers: handlers run one at a time in the model.
