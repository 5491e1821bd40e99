# QR scanner session manager, modelled in Dafny

This project models the scan-session state machine of `QRScannerManager`, the
camera manager of the QRCodeScannerPackage. It covers:

- the arming flag `needCallback`;
- the three overlay handles (preview layer, focus frame, close button);
- whether capture runs;
- what `setUp` attached to the capture session;
- whether a delegate is set;
- the blocks waiting on the main dispatch queue;
- the logs of what the delegate was shown (`showQRCodeResult` and `showError`).

The project has four modules:

- `ScannerTypes`: value types. These are the `ScanningError` enum, detection
  objects, the camera authorisation status, and the outcomes of probing the
  video device. It also holds the two pure decisions of the manager: the
  detection gate's filter (`FirstQRValue`) and the permission switch of
  `requestCameraAccess` (`CameraAccessGranted`).
- `ScannerSpec`: the manager's state as a value (`Scanner`). Each entry point
  and each deferred block is one function from the old state to the new one.
  `Step` and `Run` replay a trace of events.
- `ScannerManager`: the class `QRScannerManager`, with the fields its methods
  update in place. Each state-changing method is proved to take
  `old(Model())` to the state the matching `ScannerSpec` function computes. So every property below holds
  of the object.
- `ScannerProperties`: the properties.

Concurrency is modelled as deferred steps on the single main context:

- `runSession` has a synchronous half (re-arm, attach the overlay) and a
  deferred half (start capture, mount the viewfinder).
- A detection has a synchronous half (filter, dispatch) and a deferred half
  (stop, then deliver if armed).
- A deferred half is a `Block` on the main queue.
- `MainQueueRuns(i)` runs the block at any index `i`. This covers every order
  in which the blocks could run, not only FIFO.
- The exactly-once result runs the queue oldest first (`Drain`). Delivery
  blocks reach the serial main queue in dispatch order (lines 51, 167), so
  who receives the result does not depend on that choice. Start blocks are
  different: the model queues one when `runSession` is called, while the
  source's start reaches the main queue only after a hop through a
  background queue (lines 30-31). A delivery dispatched in between can run
  first, and `LateStartRestartsCapture` states that order.

The model follows the code as written. Several of its behaviours are easy
to misread as something else; each but the permission check is stated by a
lemma:

- With no video device, `setUp` returns silently, reporting nothing and
  attaching nothing (line 44, `SetUpNoDevice`).
- `noCamera` is reported only when building the device input throws (lines
  46-47, 63-65). It goes through the optional delegate, so nothing is shown
  when no delegate is set (`SetUpInputThrows`).
- When the capture session refuses the input or the output, `setUp` skips
  it silently: no error is reported (lines 53-60, `SetUpInputReady`).
- The detection gate rejects a missing string value but not an empty one
  (line 164), so an empty string is delivered (`EmptyPayloadDelivered`).
- `noPermission` is declared (line 185) but never reported
  (`NoPermissionNeverReported`).
- `requestCameraAccess` (lines 72-92) is `fileprivate` and has no call
  site, so the model has no event that calls it; only its status switch is
  modelled (`CameraAccessGranted`).
- A delivery block queued before a `runSession` still runs after it and
  consumes the new arming (`EarlierBlockConsumesNewArming`).
- A start block that runs after a delivery restarts capture with the
  overlay cleared, so no viewfinder is mounted (`LateStartRestartsCapture`).

## Model

| member | source | states |
|---|---|---|
| ScannerTypes.FirstQRValue | QRCodeScannerPackage/Sources/QRCodeScannerPackage/QRScannerManager.swift:162-164 | A batch is accepted exactly when its first object is a machine-readable code of type QR with a string value. The accepted value is that string. |
| ScannerTypes.CameraAccessGranted | QRCodeScannerPackage/Sources/QRCodeScannerPackage/QRScannerManager.swift:72-92 | Access is granted exactly when the status is authorized, or not determined and the user agrees. For any other status the answer is independent of the user. |
| ScannerProperties.RunSessionArms | QRCodeScannerPackage/Sources/QRCodeScannerPackage/QRScannerManager.swift:27-36 | After `runSession` the gate is armed whatever the prior state. One start block is queued behind the existing ones, and nothing is delivered. |
| ScannerProperties.RunSessionKeepsExistingOverlay | QRCodeScannerPackage/Sources/QRCodeScannerPackage/QRScannerManager.swift:94-95 | A `runSession` while a preview layer exists leaves every handle and the running flag unchanged. |
| ScannerProperties.AddLayerHandles | QRCodeScannerPackage/Sources/QRCodeScannerPackage/QRScannerManager.swift:94-116 | `addLayer` changes nothing when a preview layer exists. Otherwise it creates all three handles when the viewfinder image loads, and only the preview layer when it does not; nothing else changes in either case. |
| ScannerProperties.StopSessionClears | QRCodeScannerPackage/Sources/QRCodeScannerPackage/QRScannerManager.swift:38-41 | `stopSession` stops capture, clears every handle and changes nothing else. It is idempotent and a no-op on a stopped, cleared session. `close` has the same effect. |
| ScannerProperties.RejectedBatchIgnored | QRCodeScannerPackage/Sources/QRCodeScannerPackage/QRScannerManager.swift:162-164 | A batch whose first object is missing, not machine-readable, not QR, or without a string changes no state. |
| ScannerProperties.OnlyFirstObjectExamined | QRCodeScannerPackage/Sources/QRCodeScannerPackage/QRScannerManager.swift:162 | Two batches with the same first object have the same effect. |
| ScannerProperties.AcceptedBatchDispatches | QRCodeScannerPackage/Sources/QRCodeScannerPackage/QRScannerManager.swift:162-167 | An accepted batch queues exactly one delivery block, carrying the first object's string, and changes nothing else. |
| ScannerProperties.DeliverStopsAndGates | QRCodeScannerPackage/Sources/QRCodeScannerPackage/QRScannerManager.swift:167-173 | A delivery block always stops the session and clears the handles. It delivers its value exactly when armed with a delegate set, and it leaves the gate disarmed. |
| ScannerProperties.SetUpNoDevice | QRCodeScannerPackage/Sources/QRCodeScannerPackage/QRScannerManager.swift:44 | Without a device `setUp` changes nothing: no error, nothing attached. |
| ScannerProperties.SetUpInputThrows | QRCodeScannerPackage/Sources/QRCodeScannerPackage/QRScannerManager.swift:46-67 | When the device input throws, exactly one `noCamera` is shown if a delegate is set, and nothing is attached. |
| ScannerProperties.SetUpInputReady | QRCodeScannerPackage/Sources/QRCodeScannerPackage/QRScannerManager.swift:46-60 | Otherwise input and output are attached where the session accepts them, no error is shown, and the QR filter is set exactly when the output is added. |
| ScannerProperties.SetUpIsSafe | QRCodeScannerPackage/Sources/QRCodeScannerPackage/QRScannerManager.swift:43-68 | `setUp` leaves the delivered log and the arming flag as they were. Its only possible error is one `noCamera`. It keeps the overlay handles consistent. |
| ScannerProperties.RunSessionIsSafe | QRCodeScannerPackage/Sources/QRCodeScannerPackage/QRScannerManager.swift:27-36 | `runSession` raises the delivery budget by at most one, shows no error and keeps the overlay handles consistent. |
| ScannerProperties.StopSessionIsSafe | QRCodeScannerPackage/Sources/QRCodeScannerPackage/QRScannerManager.swift:38-41 | `stopSession` leaves the delivered log and the arming flag as they were, shows no error and keeps the handles consistent. |
| ScannerProperties.MetadataOutputIsSafe | QRCodeScannerPackage/Sources/QRCodeScannerPackage/QRScannerManager.swift:159-166 | The synchronous half of a detection leaves the delivered log and the arming flag as they were, shows no error and keeps the handles consistent. |
| ScannerProperties.StartCaptureIsSafe | QRCodeScannerPackage/Sources/QRCodeScannerPackage/QRScannerManager.swift:31-34 | The deferred half of `runSession` leaves the delivered log and the arming flag as they were, shows no error and keeps the handles consistent. |
| ScannerProperties.DeliverIsSafe | QRCodeScannerPackage/Sources/QRCodeScannerPackage/QRScannerManager.swift:167-173 | A delivery block only extends the delivered log, and only by consuming the arming. The budget never rises. |
| ScannerProperties.ExecuteIsSafe | QRCodeScannerPackage/Sources/QRCodeScannerPackage/QRScannerManager.swift:30-34 | Running either kind of deferred block keeps the delivered log, budget, error and overlay invariants. |
| ScannerProperties.RunBlockIsSafe | QRCodeScannerPackage/Sources/QRCodeScannerPackage/QRScannerManager.swift:167-173 | Running the block at any queue position keeps the same invariants. |
| ScannerProperties.StepIsSafe | QRCodeScannerPackage/Sources/QRCodeScannerPackage/QRScannerManager.swift:15-175 | Any single event extends the delivered log without rewriting it. Only a `runSession` raises the budget, and by at most one. The only error it can add is one `noCamera`. It keeps the handles consistent. |
| ScannerProperties.NoPermissionNeverReported | QRCodeScannerPackage/Sources/QRCodeScannerPackage/QRScannerManager.swift:183-186 | Over any trace of events, `noPermission` is never shown to the delegate. |
| ScannerProperties.RunKeepsOverlayConsistent | QRCodeScannerPackage/Sources/QRCodeScannerPackage/QRScannerManager.swift:94-116 | Over any trace, the focus frame and the close button exist together and never without a preview layer. |
| ScannerProperties.DeliveriesBoundedByArmings | QRCodeScannerPackage/Sources/QRCodeScannerPackage/QRScannerManager.swift:169-171 | Over any trace, with blocks run in any order, results are only appended. Their number is at most one for the initial arming plus one per `runSession`. |
| ScannerProperties.AtMostOnePerArming | QRCodeScannerPackage/Sources/QRCodeScannerPackage/QRScannerManager.swift:169-171 | Between two `runSession` calls the delegate receives at most one result, and none once the gate is disarmed. |
| ScannerProperties.FirstAccepted | QRCodeScannerPackage/Sources/QRCodeScannerPackage/QRScannerManager.swift:162-164 | The value a scan should report is present exactly when some batch is accepted. It is then the value of an accepted batch with no accepted batch before it. |
| ScannerProperties.DetectAllQueues | QRCodeScannerPackage/Sources/QRCodeScannerPackage/QRScannerManager.swift:159-167 | A series of detections only queues one delivery block per accepted batch, in arrival order, and changes nothing else. |
| ScannerProperties.DrainDeliveries | QRCodeScannerPackage/Sources/QRCodeScannerPackage/QRScannerManager.swift:167-173 | Running queued delivery blocks oldest first delivers only the first value, when armed with a delegate set. It disarms the gate and stops the session. |
| ScannerProperties.DrainStartHead | QRCodeScannerPackage/Sources/QRCodeScannerPackage/QRScannerManager.swift:31-32 | A start block at the head of the main queue only sets capture running before the rest of the queue runs. |
| ScannerProperties.DrainSkipsStarts | QRCodeScannerPackage/Sources/QRCodeScannerPackage/QRScannerManager.swift:30-34 | Any number of start blocks at the head of the main queue only set capture running before the rest runs. |
| ScannerProperties.DrainDetected | QRCodeScannerPackage/Sources/QRCodeScannerPackage/QRScannerManager.swift:159-173 | After detections on a queue of start blocks, an in-order drain equals starting capture and then running the accepted batches' delivery blocks in arrival order. |
| ScannerProperties.ExactlyOnceFirstWins | QRCodeScannerPackage/Sources/QRCodeScannerPackage/QRScannerManager.swift:159-174 | From a main queue holding at most pending start blocks, however many batches arrive, once the queue has run oldest first the delegate has exactly the first accepted string if the gate was armed with a delegate set, and nothing otherwise. After an accepted batch the gate is disarmed and, with the pending start blocks run first, the session is stopped and cleared. When none is accepted only the pending start blocks have run. |
| ScannerProperties.FirstOfTwoWins | QRCodeScannerPackage/Sources/QRCodeScannerPackage/QRScannerManager.swift:167-172 | With QR codes "X" then "Y" queued, only "X" is delivered. |
| ScannerProperties.RearmDeliversAgain | QRCodeScannerPackage/Sources/QRCodeScannerPackage/QRScannerManager.swift:27-28 | After `stopSession` and a new `runSession` the gate is armed whatever it was. With no older delivery block pending, a new code is delivered once the main queue runs oldest first, and the gate ends disarmed. The session ends stopped and cleared when the new start block runs before the delivery. |
| ScannerProperties.EarlierBlockConsumesNewArming | QRCodeScannerPackage/Sources/QRCodeScannerPackage/QRScannerManager.swift:167-171 | A delivery block queued before a `runSession` that runs after it delivers the older value and consumes the new arming. |
| ScannerProperties.EmptyPayloadDelivered | QRCodeScannerPackage/Sources/QRCodeScannerPackage/QRScannerManager.swift:162-164 | A QR code whose string is empty passes the gate and the empty string is delivered to an armed delegate. |
| ScannerProperties.LateStartRestartsCapture | QRCodeScannerPackage/Sources/QRCodeScannerPackage/QRScannerManager.swift:30-33 | When a delivery block runs before the pending start block, the value is delivered and the gate disarmed, and the late start then restarts capture with every overlay handle cleared. |
| ScannerManager.QRScannerManager.constructor | QRCodeScannerPackage/Sources/QRCodeScannerPackage/QRScannerManager.swift:15-25 | A new manager is armed, holds no handle, has nothing attached and no delegate. |
| ScannerManager.QRScannerManager.SetDelegate | QRCodeScannerPackage/Sources/QRCodeScannerPackage/QRScannerManager.swift:23 | Setting or losing the weak delegate changes only its presence. |
| ScannerManager.QRScannerManager.SetUp | QRCodeScannerPackage/Sources/QRCodeScannerPackage/QRScannerManager.swift:43-68 | The object's new state is `setUp`'s effect on the old one. |
| ScannerManager.QRScannerManager.RunSession | QRCodeScannerPackage/Sources/QRCodeScannerPackage/QRScannerManager.swift:27-36 | The new state is the old one re-armed, with the overlay added and a start block queued. |
| ScannerManager.QRScannerManager.StopSession | QRCodeScannerPackage/Sources/QRCodeScannerPackage/QRScannerManager.swift:38-41 | The new state is the old one stopped and cleared. |
| ScannerManager.QRScannerManager.Close | QRCodeScannerPackage/Sources/QRCodeScannerPackage/QRScannerManager.swift:118-120 | `close` has exactly the effect of `stopSession`. |
| ScannerManager.QRScannerManager.AddLayer | QRCodeScannerPackage/Sources/QRCodeScannerPackage/QRScannerManager.swift:94-116 | The new handles are the ones `addLayer` creates, per `ScannerSpec.AddLayer`. |
| ScannerManager.QRScannerManager.AddViewFinder | QRCodeScannerPackage/Sources/QRCodeScannerPackage/QRScannerManager.swift:122-144 | The focus frame is mounted exactly when it exists. The close button is mounted exactly when both it and the focus frame exist, and never without the focus frame. |
| ScannerManager.QRScannerManager.RemoveLayer | QRCodeScannerPackage/Sources/QRCodeScannerPackage/QRScannerManager.swift:146-153 | All three handles are cleared and nothing else changes. |
| ScannerManager.QRScannerManager.MetadataOutput | QRCodeScannerPackage/Sources/QRCodeScannerPackage/QRScannerManager.swift:159-174 | An accepted batch queues its delivery block. Any other batch changes nothing. |
| ScannerManager.QRScannerManager.StartCapture | QRCodeScannerPackage/Sources/QRCodeScannerPackage/QRScannerManager.swift:31-34 | The deferred half of `runSession` sets capture running and changes no handle. It mounts the focus frame exactly when it exists, and the close button exactly when both it and the focus frame exist. |
| ScannerManager.QRScannerManager.Deliver | QRCodeScannerPackage/Sources/QRCodeScannerPackage/QRScannerManager.swift:167-173 | The new state is the old one stopped, cleared and, if armed, disarmed, with the value logged when a delegate is set. |
| ScannerManager.QRScannerManager.RunBlock | QRCodeScannerPackage/Sources/QRCodeScannerPackage/QRScannerManager.swift:30-34 | The block at the given position leaves the queue and its effect is applied. A position past the end changes nothing. |

## Left out

- AVFoundation and UIKit objects (capture session, preview layer, image view, button, layout constraints and their constants 300, 30, 50) are foreign framework calls. They are modelled as presence booleans, a `running` flag and the attached/filter flags.
- Whether the device exists, whether its input builds, whether the session accepts input and output, and whether the viewfinder image loads are platform answers. They are parameters of the operations.
- The vibration on an accepted detection (line 165) and the `print` logging (lines 66, 77-81) are side effects with no state.
- Real concurrency (the background queue, the `@MainActor` task, the `nonisolated` callback) is out. Deferred work is a queue of blocks on the main context that may run in any order.
- Weak-reference lifetime is reduced to "delegate present or not" (`SetDelegate`).
- The `shared` singleton (line 21) is out. The model is one manager object.
- `requestCameraAccess` is modelled only as its status switch (`CameraAccessGranted`). The asynchronous prompt and the completion hop to the main queue are out, and nothing calls it.
- ScannerManager.QRScannerManager.StartCapture: `startRunning` is modelled as setting the running flag, whether or not an input was attached. What the platform does with an unconfigured session is not modelled.
- ScannerManager.QRScannerManager.AddViewFinder: only which views are mounted is modelled, not the view hierarchy they join.
- ScannerProperties.ExactlyOnceFirstWins: the stopped-and-cleared conclusion runs pending start blocks before the detections' delivery blocks. In the source a start block reaches the main queue only after a background hop, and may run after a delivery instead (`LateStartRestartsCapture`). Start blocks leave the delivered log and the arming flag unchanged (`StartCaptureIsSafe`), so the delivered-log conclusion does not depend on where they run.
- ScannerProperties.RearmDeliversAgain: same placement of the new start block ahead of the delivery, for the stopped-and-cleared conclusion.
