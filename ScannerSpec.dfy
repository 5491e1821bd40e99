/** The scan-session state machine of the QR scanner manager, as values.

    A `Scanner` holds the arming flag, whether capture runs, which overlay
    handles are present, what `setUp` attached to the capture session, whether
    a delegate is set, the blocks waiting on the main dispatch queue, and the
    two logs of what the delegate was shown. Every entry point and every
    deferred block is one function from the old state to the new one; `Step`
    and `Run` replay a trace of them. */
module ScannerSpec {
  import opened ScannerTypes

  /** A block dispatched onto the main queue and not yet executed: the deferred
      half of `runSession` (start capture, mount the viewfinder) or the
      deferred half of a detection (stop, then deliver `value` if armed). */
  datatype Block = StartBlock | DeliverBlock(value: string)

  datatype Scanner = Scanner(
    needCallback: bool,        // the arming flag of the detection gate
    running: bool,             // the capture session runs
    hasPreview: bool,          // previewLayer != nil
    hasFocus: bool,            // focusImageView != nil
    hasClose: bool,            // closeButton != nil
    inputAttached: bool,       // a device input was added to the capture session
    outputAttached: bool,      // the metadata output was added to the capture session
    qrOnly: bool,              // the output's symbology filter is set to QR
    delegatePresent: bool,     // the weak delegate reference is not nil
    queue: seq<Block>,         // blocks waiting on the main dispatch queue
    delivered: seq<string>,    // every showQRCodeResult the delegate received
    errors: seq<ScanningError> // every showError the delegate received
  )

  /** A freshly created manager: armed, nothing attached, no delegate. */
  const Initial: Scanner :=
    Scanner(true, false, false, false, false, false, false, false, false, [], [], [])

  /** No overlay handle is held. */
  predicate OverlayCleared(s: Scanner) {
    !s.hasPreview && !s.hasFocus && !s.hasClose
  }

  /** `addLayer`: overlay handles are created only when there is no preview
      layer yet; the focus frame and close button only when the viewfinder
      image can be loaded. */
  function AddLayer(s: Scanner, imageAvailable: bool): Scanner {
    if s.hasPreview then s
    else if imageAvailable then s.(hasPreview := true, hasFocus := true, hasClose := true)
    else s.(hasPreview := true)
  }

  /** `removeLayer`: every overlay handle is detached and released. */
  function RemoveLayer(s: Scanner): Scanner {
    s.(hasPreview := false, hasFocus := false, hasClose := false)
  }

  /** `stopSession` (and `close`, which only calls it). */
  function StopSession(s: Scanner): Scanner {
    RemoveLayer(s.(running := false))
  }

  /** The synchronous half of `runSession`: re-arm, attach the overlay, and
      dispatch the start of capture. */
  function RunSession(s: Scanner, imageAvailable: bool): Scanner {
    var t := AddLayer(s.(needCallback := true), imageAvailable);
    t.(queue := t.queue + [StartBlock])
  }

  /** The deferred half of `runSession`: capture starts. Mounting the
      viewfinder adds subviews and changes no handle. */
  function StartCapture(s: Scanner): Scanner {
    s.(running := true)
  }

  /** The deferred half of a detection: stop the session whatever the flag,
      then, if armed, disarm and show the value to the delegate if there is
      one. */
  function Deliver(s: Scanner, value: string): Scanner {
    var t := StopSession(s);
    if !t.needCallback then t
    else if t.delegatePresent then t.(needCallback := false, delivered := t.delivered + [value])
    else t.(needCallback := false)
  }

  /** The synchronous half of a detection: an accepted batch dispatches one
      delivery block; any other batch is dropped. */
  function MetadataOutput(s: Scanner, objects: seq<MetadataObject>): Scanner {
    var accepted := FirstQRValue(objects);
    if accepted.Some? then s.(queue := s.queue + [DeliverBlock(accepted.value)]) else s
  }

  /** `setUp`: no device returns silently; a device input that cannot be built
      reports `noCamera` (when a delegate is set) and attaches nothing;
      otherwise the input and output are attached where the capture session
      accepts them, and the QR filter is set only with the output. */
  function SetUp(s: Scanner, probe: DeviceProbe, canAddInput: bool, canAddOutput: bool): Scanner {
    match probe
    case NoDevice => s
    case InputThrows =>
      if s.delegatePresent then s.(errors := s.errors + [NoCamera]) else s
    case InputReady =>
      var t := if canAddInput then s.(inputAttached := true) else s;
      if canAddOutput then t.(outputAttached := true, qrOnly := true) else t
  }

  /** The sequence `q` without its element at `i`. */
  function RemoveAt(q: seq<Block>, i: nat): (r: seq<Block>)
    requires i < |q|
    ensures |r| == |q| - 1
  {
    q[..i] + q[i + 1..]
  }

  /** Executes one dispatched block. */
  function Execute(s: Scanner, b: Block): Scanner {
    match b
    case StartBlock => StartCapture(s)
    case DeliverBlock(v) => Deliver(s, v)
  }

  /** The main queue takes the block at `index` off the queue and runs it; an
      index past the end of the queue runs nothing. */
  function RunBlock(s: Scanner, index: nat): Scanner {
    if index < |s.queue| then Execute(s.(queue := RemoveAt(s.queue, index)), s.queue[index])
    else s
  }

  /** Everything that can happen to the manager, on its single main context. */
  datatype Event =
    | SetUpCall(probe: DeviceProbe, canAddInput: bool, canAddOutput: bool)
    | RunSessionCall(imageAvailable: bool)
    | StopSessionCall
    | CloseTap
    | Detection(objects: seq<MetadataObject>)
    | MainQueueRuns(index: nat)
    | DelegateSet(present: bool)

  function Step(s: Scanner, e: Event): Scanner {
    match e
    case SetUpCall(probe, canAddInput, canAddOutput) => SetUp(s, probe, canAddInput, canAddOutput)
    case RunSessionCall(imageAvailable) => RunSession(s, imageAvailable)
    case StopSessionCall => StopSession(s)
    case CloseTap => StopSession(s)
    case Detection(objects) => MetadataOutput(s, objects)
    case MainQueueRuns(index) => RunBlock(s, index)
    case DelegateSet(present) => s.(delegatePresent := present)
  }

  /** The state after the events of `trace`, in order. */
  function Run(s: Scanner, trace: seq<Event>): Scanner
    decreases |trace|
  {
    if trace == [] then s else Run(Step(s, trace[0]), trace[1..])
  }

  /** The number of re-armings in a trace. */
  function Armings(trace: seq<Event>): nat {
    if trace == [] then 0
    else (if trace[0].RunSessionCall? then 1 else 0) + Armings(trace[1..])
  }

  /** Runs every queued block, oldest first. Delivery blocks reach the main
      queue in the order they were dispatched; a start block is queued here
      when `runSession` is called, although the source's start reaches the
      main queue only after a background hop, so a delivery dispatched in
      between can run before it (`RunBlock` at any index covers that order). */
  function Drain(s: Scanner): Scanner
    decreases |s.queue|
  {
    if s.queue == [] then s else Drain(RunBlock(s, 0))
  }

  /** The synchronous halves of a series of detection batches. */
  function DetectAll(s: Scanner, batches: seq<seq<MetadataObject>>): Scanner
    decreases |batches|
  {
    if batches == [] then s else DetectAll(MetadataOutput(s, batches[0]), batches[1..])
  }
}
