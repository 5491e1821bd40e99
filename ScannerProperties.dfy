/** What the scan-session state machine guarantees: the effect of each entry
    point, the detection gate's at-most-once delivery per arming under any
    order of the deferred blocks, exactly-once delivery of the first accepted
    value when the main queue runs in order, the overlay-handle invariant, and
    the error paths of `setUp`. */
module ScannerProperties {
  import opened ScannerTypes
  import opened ScannerSpec

  // ---------------------------------------------------------------------------
  // Entry points, one call at a time

  /** `runSession` arms the gate whatever the prior state, and dispatches the
      start of capture behind whatever is already queued. */
  lemma RunSessionArms(s: Scanner, imageAvailable: bool)
    ensures RunSession(s, imageAvailable).needCallback
    ensures RunSession(s, imageAvailable).queue == s.queue + [StartBlock]
    ensures RunSession(s, imageAvailable).delivered == s.delivered
  {
  }

  /** A second `runSession` while a preview layer exists changes no handle and
      tears nothing down: the existing overlay is kept as it is. */
  lemma RunSessionKeepsExistingOverlay(s: Scanner, imageAvailable: bool)
    requires s.hasPreview
    ensures var r := RunSession(s, imageAvailable);
      r.hasPreview && r.hasFocus == s.hasFocus && r.hasClose == s.hasClose && r.running == s.running
  {
  }

  /** `addLayer` creates handles only when there is no preview layer; without
      the viewfinder image only the preview layer is created. */
  lemma AddLayerHandles(s: Scanner, imageAvailable: bool)
    ensures s.hasPreview ==> AddLayer(s, imageAvailable) == s
    ensures !s.hasPreview && imageAvailable ==>
      AddLayer(s, imageAvailable) == s.(hasPreview := true, hasFocus := true, hasClose := true)
    ensures !s.hasPreview && !imageAvailable ==>
      AddLayer(s, imageAvailable) == s.(hasPreview := true)
  {
  }

  /** `stopSession` (and `close`) stops capture, clears every overlay handle
      and changes nothing else; it is idempotent, and on a session that is
      already stopped it changes nothing. */
  lemma StopSessionClears(s: Scanner)
    ensures var r := StopSession(s);
      !r.running && OverlayCleared(r) &&
      r == s.(running := false, hasPreview := false, hasFocus := false, hasClose := false)
    ensures StopSession(StopSession(s)) == StopSession(s)
    ensures !s.running && OverlayCleared(s) ==> StopSession(s) == s
    ensures Step(s, CloseTap) == Step(s, StopSessionCall)
  {
  }

  /** A batch whose first object is not a QR code with a string is ignored: no
      block is dispatched and no state changes. */
  lemma RejectedBatchIgnored(s: Scanner, objects: seq<MetadataObject>)
    requires |objects| == 0 || !objects[0].Code? || !objects[0].kind.QR? || objects[0].stringValue.None?
    ensures MetadataOutput(s, objects) == s
  {
    assert FirstQRValue(objects).None?;
  }

  /** Objects after the first are never examined. */
  lemma OnlyFirstObjectExamined(s: Scanner, a: seq<MetadataObject>, b: seq<MetadataObject>)
    requires |a| > 0 && |b| > 0 && a[0] == b[0]
    ensures MetadataOutput(s, a) == MetadataOutput(s, b)
  {
    assert FirstQRValue(a) == FirstQRValue(b);
  }

  /** An accepted batch dispatches exactly one delivery block carrying the
      first object's string, and changes nothing else. */
  lemma AcceptedBatchDispatches(s: Scanner, objects: seq<MetadataObject>, v: string)
    requires |objects| > 0 && objects[0] == Code(QR, Some(v))
    ensures MetadataOutput(s, objects) == s.(queue := s.queue + [DeliverBlock(v)])
  {
    assert FirstQRValue(objects) == Some(v);
  }

  /** Every delivery block stops the session and clears every handle, armed or
      not; it shows the value exactly when the gate was armed and a delegate is
      set, and it leaves the gate disarmed. */
  lemma DeliverStopsAndGates(s: Scanner, v: string)
    ensures var r := Deliver(s, v);
      !r.running && OverlayCleared(r) && !r.needCallback &&
      r.delivered == s.delivered + (if s.needCallback && s.delegatePresent then [v] else []) &&
      r.errors == s.errors && r.queue == s.queue
  {
  }

  // ---------------------------------------------------------------------------
  // setUp

  /** Without a device, `setUp` returns with no error and attaches nothing. */
  lemma SetUpNoDevice(s: Scanner, canAddInput: bool, canAddOutput: bool)
    ensures SetUp(s, NoDevice, canAddInput, canAddOutput) == s
  {
  }

  /** When the device input cannot be built, `setUp` attaches nothing and shows
      exactly one `noCamera` to the delegate, if one is set. */
  lemma SetUpInputThrows(s: Scanner, canAddInput: bool, canAddOutput: bool)
    ensures var r := SetUp(s, InputThrows, canAddInput, canAddOutput);
      r.errors == s.errors + (if s.delegatePresent then [NoCamera] else []) &&
      r.inputAttached == s.inputAttached && r.outputAttached == s.outputAttached &&
      r.qrOnly == s.qrOnly
  {
  }

  /** A successful `setUp` attaches the input and the output where the capture
      session accepts them, reports nothing, and sets the QR-only filter
      exactly when the output was added. */
  lemma SetUpInputReady(s: Scanner, canAddInput: bool, canAddOutput: bool)
    ensures var r := SetUp(s, InputReady, canAddInput, canAddOutput);
      r.errors == s.errors &&
      r.inputAttached == (s.inputAttached || canAddInput) &&
      r.outputAttached == (s.outputAttached || canAddOutput) &&
      r.qrOnly == (s.qrOnly || canAddOutput)
  {
  }

  // ---------------------------------------------------------------------------
  // What every step keeps
  //
  // Each lemma below states, for one operation taking `s` to `r`: the
  // delivered log is extended and never rewritten; the budget (deliveries
  // made plus the one an armed gate still allows) rises only on a re-arming,
  // and then by one; the only error ever shown is `noCamera`; and consistent
  // overlay handles stay consistent.

  /** The focus frame and the close button are created and released together,
      and never without a preview layer. */
  predicate OverlayConsistent(s: Scanner) {
    (s.hasFocus <==> s.hasClose) && (s.hasFocus ==> s.hasPreview)
  }

  /** Deliveries already made plus the one the armed gate still allows. */
  function Budget(s: Scanner): nat {
    |s.delivered| + (if s.needCallback then 1 else 0)
  }

  lemma SetUpIsSafe(s: Scanner, probe: DeviceProbe, canAddInput: bool, canAddOutput: bool)
    ensures var r := SetUp(s, probe, canAddInput, canAddOutput);
      r.delivered == s.delivered && r.needCallback == s.needCallback &&
      (r.errors == s.errors || r.errors == s.errors + [NoCamera]) &&
      (OverlayConsistent(s) ==> OverlayConsistent(r))
  {
  }

  lemma RunSessionIsSafe(s: Scanner, imageAvailable: bool)
    ensures var r := RunSession(s, imageAvailable);
      s.delivered <= r.delivered && Budget(r) <= Budget(s) + 1 &&
      r.errors == s.errors &&
      (OverlayConsistent(s) ==> OverlayConsistent(r))
  {
  }

  lemma StopSessionIsSafe(s: Scanner)
    ensures var r := StopSession(s);
      r.delivered == s.delivered && r.needCallback == s.needCallback &&
      r.errors == s.errors &&
      (OverlayConsistent(s) ==> OverlayConsistent(r))
  {
  }

  lemma MetadataOutputIsSafe(s: Scanner, objects: seq<MetadataObject>)
    ensures var r := MetadataOutput(s, objects);
      r.delivered == s.delivered && r.needCallback == s.needCallback &&
      r.errors == s.errors &&
      (OverlayConsistent(s) ==> OverlayConsistent(r))
  {
    var accepted := FirstQRValue(objects);
    if accepted.Some? {
      assert MetadataOutput(s, objects) == s.(queue := s.queue + [DeliverBlock(accepted.value)]);
    } else {
      assert MetadataOutput(s, objects) == s;
    }
  }

  lemma StartCaptureIsSafe(s: Scanner)
    ensures var r := StartCapture(s);
      r.delivered == s.delivered && r.needCallback == s.needCallback &&
      r.errors == s.errors &&
      (OverlayConsistent(s) ==> OverlayConsistent(r))
  {
  }

  /** A delivery block delivers only by disarming the gate. */
  lemma DeliverIsSafe(s: Scanner, v: string)
    ensures var r := Deliver(s, v);
      s.delivered <= r.delivered && Budget(r) <= Budget(s) &&
      r.errors == s.errors &&
      (OverlayConsistent(s) ==> OverlayConsistent(r))
  {
  }

  lemma ExecuteIsSafe(s: Scanner, b: Block)
    ensures var r := Execute(s, b);
      s.delivered <= r.delivered && Budget(r) <= Budget(s) &&
      r.errors == s.errors &&
      (OverlayConsistent(s) ==> OverlayConsistent(r))
  {
    match b
    case StartBlock => StartCaptureIsSafe(s);
    case DeliverBlock(v) => DeliverIsSafe(s, v);
  }

  lemma RunBlockIsSafe(s: Scanner, index: nat)
    ensures var r := RunBlock(s, index);
      s.delivered <= r.delivered && Budget(r) <= Budget(s) &&
      r.errors == s.errors &&
      (OverlayConsistent(s) ==> OverlayConsistent(r))
  {
    if index < |s.queue| {
      ExecuteIsSafe(s.(queue := RemoveAt(s.queue, index)), s.queue[index]);
    }
  }

  lemma StepIsSafe(s: Scanner, e: Event)
    ensures var r := Step(s, e);
      s.delivered <= r.delivered &&
      Budget(r) <= Budget(s) + (if e.RunSessionCall? then 1 else 0) &&
      (r.errors == s.errors || r.errors == s.errors + [NoCamera]) &&
      (OverlayConsistent(s) ==> OverlayConsistent(r))
  {
    match e
    case SetUpCall(probe, canAddInput, canAddOutput) => SetUpIsSafe(s, probe, canAddInput, canAddOutput);
    case RunSessionCall(imageAvailable) => RunSessionIsSafe(s, imageAvailable);
    case StopSessionCall => StopSessionIsSafe(s);
    case CloseTap => StopSessionIsSafe(s);
    case Detection(objects) => MetadataOutputIsSafe(s, objects);
    case MainQueueRuns(index) => RunBlockIsSafe(s, index);
    case DelegateSet(present) =>
  }

  /** `noPermission` is never shown to the delegate, whatever happens. */
  lemma {:induction false} NoPermissionNeverReported(s: Scanner, trace: seq<Event>)
    requires NoPermission !in s.errors
    ensures NoPermission !in Run(s, trace).errors
    decreases |trace|
  {
    if trace != [] {
      StepIsSafe(s, trace[0]);
      NoPermissionNeverReported(Step(s, trace[0]), trace[1..]);
    }
  }

  /** From consistent overlay handles, the handles stay consistent. */
  lemma {:induction false} RunKeepsOverlayConsistent(s: Scanner, trace: seq<Event>)
    requires OverlayConsistent(s)
    ensures OverlayConsistent(Run(s, trace))
    decreases |trace|
  {
    if trace != [] {
      StepIsSafe(s, trace[0]);
      RunKeepsOverlayConsistent(Step(s, trace[0]), trace[1..]);
    }
  }

  // ---------------------------------------------------------------------------
  // At most one delivery per arming, in any order of the deferred blocks

  /** Over any trace, with the deferred blocks run in any order, the delegate
      receives at most one result per arming: one for the arming in force at
      the start (if any) and one per `runSession` in the trace. */
  lemma {:induction false} DeliveriesBoundedByArmings(s: Scanner, trace: seq<Event>)
    ensures s.delivered <= Run(s, trace).delivered
    ensures Budget(Run(s, trace)) <= Budget(s) + Armings(trace)
    decreases |trace|
  {
    if trace != [] {
      StepIsSafe(s, trace[0]);
      DeliveriesBoundedByArmings(Step(s, trace[0]), trace[1..]);
    }
  }

  /** Between two `runSession` calls the delivered log grows by at most one
      entry, and not at all once the gate is disarmed. */
  lemma AtMostOnePerArming(s: Scanner, trace: seq<Event>)
    requires Armings(trace) == 0
    ensures s.delivered <= Run(s, trace).delivered
    ensures |Run(s, trace).delivered| <= |s.delivered| + 1
    ensures !s.needCallback ==> Run(s, trace).delivered == s.delivered
  {
    DeliveriesBoundedByArmings(s, trace);
  }

  // ---------------------------------------------------------------------------
  // Exactly once, first accepted value wins, when the main queue runs in order

  /** The decoded strings of the accepted batches, in arrival order. */
  function AcceptedValues(batches: seq<seq<MetadataObject>>): seq<string>
    decreases |batches|
  {
    if batches == [] then []
    else
      var accepted := FirstQRValue(batches[0]);
      (if accepted.Some? then [accepted.value] else []) + AcceptedValues(batches[1..])
  }

  /** The first accepted batch's string: a reference definition of the value
      the scan should report. */
  function FirstAccepted(batches: seq<seq<MetadataObject>>): (r: Option<string>)
    ensures r.Some? <==> exists k :: 0 <= k < |batches| && FirstQRValue(batches[k]).Some?
    ensures r.Some? ==> exists k :: 0 <= k < |batches| && FirstQRValue(batches[k]) == r &&
                                  forall j :: 0 <= j < k ==> FirstQRValue(batches[j]).None?
    decreases |batches|
  {
    if batches == [] then None
    else if FirstQRValue(batches[0]).Some? then FirstQRValue(batches[0])
    else
      var r := FirstAccepted(batches[1..]);
      assert forall k :: 1 <= k < |batches| ==> batches[k] == batches[1..][k - 1];
      if r.Some? then
        ghost var k :| 0 <= k < |batches[1..]| && FirstQRValue(batches[1..][k]) == r &&
                       forall j :: 0 <= j < k ==> FirstQRValue(batches[1..][j]).None?;
        assert FirstQRValue(batches[k + 1]) == r;
        r
      else r
  }

  lemma {:induction false} AcceptedValuesStartWithFirst(batches: seq<seq<MetadataObject>>)
    ensures AcceptedValues(batches) != [] <==> FirstAccepted(batches).Some?
    ensures AcceptedValues(batches) != [] ==> AcceptedValues(batches)[0] == FirstAccepted(batches).value
    decreases |batches|
  {
    if batches != [] && FirstQRValue(batches[0]).None? {
      AcceptedValuesStartWithFirst(batches[1..]);
    }
  }

  /** Delivery blocks for the given strings, in order. */
  function Deliveries(vs: seq<string>): (q: seq<Block>)
    ensures |q| == |vs|
    decreases |vs|
  {
    if vs == [] then [] else [DeliverBlock(vs[0])] + Deliveries(vs[1..])
  }

  lemma {:induction false} DeliveriesAppend(a: seq<string>, b: seq<string>)
    ensures Deliveries(a + b) == Deliveries(a) + Deliveries(b)
    decreases |a|
  {
    if a != [] {
      assert (a + b)[1..] == a[1..] + b;
      DeliveriesAppend(a[1..], b);
      calc {
        Deliveries(a + b);
        [DeliverBlock(a[0])] + Deliveries(a[1..] + b);
        [DeliverBlock(a[0])] + (Deliveries(a[1..]) + Deliveries(b));
        ([DeliverBlock(a[0])] + Deliveries(a[1..])) + Deliveries(b);
        Deliveries(a) + Deliveries(b);
      }
    } else {
      assert a + b == b;
    }
  }

  /** The synchronous halves of a series of detections only queue one
      delivery block per accepted batch, in arrival order. */
  lemma {:induction false} DetectAllQueues(s: Scanner, batches: seq<seq<MetadataObject>>)
    ensures DetectAll(s, batches).queue == s.queue + Deliveries(AcceptedValues(batches))
    ensures DetectAll(s, batches) == s.(queue := DetectAll(s, batches).queue)
    decreases |batches|
  {
    if batches != [] {
      var accepted := FirstQRValue(batches[0]);
      var head := if accepted.Some? then [accepted.value] else [];
      var t := MetadataOutput(s, batches[0]);
      if accepted.Some? {
        assert t == s.(queue := s.queue + [DeliverBlock(accepted.value)]);
        assert Deliveries(head) == [DeliverBlock(accepted.value)];
      } else {
        assert t == s;
      }
      DetectAllQueues(t, batches[1..]);
      DeliveriesAppend(head, AcceptedValues(batches[1..]));
    }
  }

  /** Running a queue of delivery blocks in order: the first one stops the
      session and is the only one that can deliver; the rest find the gate
      disarmed. */
  lemma {:induction false} DrainDeliveries(s: Scanner, vs: seq<string>)
    requires s.queue == Deliveries(vs)
    ensures var r := Drain(s);
      r.queue == [] && r.errors == s.errors &&
      r.delivered == s.delivered + (if vs != [] && s.needCallback && s.delegatePresent then [vs[0]] else []) &&
      r.needCallback == (s.needCallback && vs == []) &&
      (vs != [] ==> !r.running && OverlayCleared(r)) &&
      (vs == [] ==> r == s)
    decreases |vs|
  {
    if vs != [] {
      var t := Deliver(s.(queue := Deliveries(vs[1..])), vs[0]);
      assert RemoveAt(s.queue, 0) == Deliveries(vs[1..]);
      assert RunBlock(s, 0) == t;
      DeliverStopsAndGates(s.(queue := Deliveries(vs[1..])), vs[0]);
      DrainDeliveries(t, vs[1..]);
    }
  }

  /** A start block at the head of the main queue only starts capture. */
  lemma DrainStartHead(s: Scanner)
    requires s.queue != [] && s.queue[0].StartBlock?
    ensures Drain(s) == Drain(s.(queue := s.queue[1..], running := true))
  {
    assert RemoveAt(s.queue, 0) == s.queue[1..];
  }

  /** The first `k` blocks of the main queue are start blocks: draining runs
      them, which only starts capture, and then drains the rest. */
  lemma {:induction false} DrainSkipsStarts(s: Scanner, k: nat)
    requires 0 < k <= |s.queue|
    requires forall i :: 0 <= i < k ==> s.queue[i].StartBlock?
    ensures Drain(s) == Drain(s.(queue := s.queue[k..], running := true))
    decreases k
  {
    DrainStartHead(s);
    if k > 1 {
      var t := s.(queue := s.queue[1..], running := true);
      assert forall i :: 0 <= i < k - 1 ==> t.queue[i] == s.queue[i + 1];
      DrainSkipsStarts(t, k - 1);
      assert t.queue[k - 1..] == s.queue[k..];
    }
  }

  /** After a series of detections, draining a main queue that held only
      start blocks amounts to starting capture (if any start block was
      pending) and then running the delivery blocks of the accepted batches,
      in order. */
  lemma DrainDetected(s: Scanner, batches: seq<seq<MetadataObject>>)
    requires forall b :: b in s.queue ==> b.StartBlock?
    ensures Drain(DetectAll(s, batches)) ==
      Drain(s.(queue := Deliveries(AcceptedValues(batches)), running := s.running || s.queue != []))
  {
    var d := DetectAll(s, batches);
    var k := |s.queue|;
    DetectAllQueues(s, batches);
    if k > 0 {
      assert forall i :: 0 <= i < k ==> d.queue[i] == s.queue[i] && s.queue[i] in s.queue;
      DrainSkipsStarts(d, k);
      assert d.queue[k..] == Deliveries(AcceptedValues(batches));
    } else {
      assert d.queue == Deliveries(AcceptedValues(batches));
    }
  }

  /** However many batches the decoder emits before the first delivery block
      runs, once the main queue has run in order the delegate has received
      exactly one result if the gate was armed, a delegate is set and some
      batch was accepted, and that result is the first accepted batch's
      string; otherwise it has received nothing. Start blocks still pending
      from earlier `runSession` calls do not change who gets the result.
      After an accepted batch the session is stopped, the overlay cleared and
      the gate disarmed; when no batch is accepted only the pending start
      blocks have run. */
  lemma ExactlyOnceFirstWins(s: Scanner, batches: seq<seq<MetadataObject>>)
    requires forall b :: b in s.queue ==> b.StartBlock?
    ensures var r := Drain(DetectAll(s, batches));
      r.delivered == s.delivered +
        (if s.needCallback && s.delegatePresent && FirstAccepted(batches).Some?
         then [FirstAccepted(batches).value] else []) &&
      r.queue == [] && r.errors == s.errors &&
      (FirstAccepted(batches).Some? ==> !r.running && OverlayCleared(r) && !r.needCallback) &&
      (FirstAccepted(batches).None? ==> r == s.(queue := [], running := s.running || s.queue != []))
  {
    var vs := AcceptedValues(batches);
    DrainDetected(s, batches);
    AcceptedValuesStartWithFirst(batches);
    DrainDeliveries(s.(queue := Deliveries(vs), running := s.running || s.queue != []), vs);
  }

  // ---------------------------------------------------------------------------
  // Scenarios

  /** Two QR codes "X" then "Y" arrive before the first delivery block runs:
      only "X" reaches the delegate. */
  lemma FirstOfTwoWins(s: Scanner)
    requires s.queue == [] && s.needCallback && s.delegatePresent
    ensures var r := Drain(DetectAll(s, [[Code(QR, Some("X"))], [Code(QR, Some("Y"))]]));
      r.delivered == s.delivered + ["X"] && !r.running && OverlayCleared(r)
  {
    var batches := [[Code(QR, Some("X"))], [Code(QR, Some("Y"))]];
    assert FirstQRValue(batches[0]) == Some("X");
    assert FirstAccepted(batches) == Some("X");
    ExactlyOnceFirstWins(s, batches);
  }

  /** After `stopSession` and a fresh `runSession` the gate is armed again,
      whatever it was before, and a new QR code is delivered once the main
      queue has run in order, provided no older delivery block is still
      pending (see `EarlierBlockConsumesNewArming` for when one is). */
  lemma RearmDeliversAgain(s: Scanner, imageAvailable: bool, v: string)
    requires s.delegatePresent
    requires forall b :: b in s.queue ==> b.StartBlock?
    ensures RunSession(StopSession(s), imageAvailable).needCallback
    ensures var r := Drain(MetadataOutput(RunSession(StopSession(s), imageAvailable), [Code(QR, Some(v))]));
      r.delivered == s.delivered + [v] && !r.needCallback && !r.running && OverlayCleared(r)
  {
    var t := RunSession(StopSession(s), imageAvailable);
    var batches := [[Code(QR, Some(v))]];
    assert t.queue == s.queue + [StartBlock];
    assert forall b :: b in t.queue ==> b.StartBlock?;
    assert batches[1..] == [];
    assert DetectAll(t, batches) == MetadataOutput(t, batches[0]);
    assert FirstQRValue(batches[0]) == Some(v);
    assert FirstAccepted(batches) == Some(v);
    ExactlyOnceFirstWins(t, batches);
  }

  /** The gate accepts a QR code whose decoded string is empty: only a
      missing string is rejected, so the empty string is delivered. */
  lemma EmptyPayloadDelivered(s: Scanner)
    requires s.queue == [] && s.needCallback && s.delegatePresent
    ensures Drain(DetectAll(s, [[Code(QR, Some(""))]])).delivered == s.delivered + [""]
  {
    var batches := [[Code(QR, Some(""))]];
    assert FirstQRValue(batches[0]) == Some("");
    assert FirstAccepted(batches) == Some("");
    ExactlyOnceFirstWins(s, batches);
  }

  /** A delivery block dispatched before a re-arming can still run after it:
      the value decoded in the earlier session is then delivered in the new
      one, and consumes its arming. */
  lemma EarlierBlockConsumesNewArming(s: Scanner, v: string)
    requires s.queue == [] && s.delegatePresent
    ensures var t := RunBlock(RunSession(MetadataOutput(s, [Code(QR, Some(v))]), false), 0);
      t.delivered == s.delivered + [v] && !t.needCallback && t.queue == [StartBlock]
  {
    AcceptedBatchDispatches(s, [Code(QR, Some(v))], v);
    var s2 := RunSession(MetadataOutput(s, [Code(QR, Some(v))]), false);
    assert s2.queue == [DeliverBlock(v), StartBlock];
    assert RemoveAt(s2.queue, 0) == [StartBlock];
    DeliverStopsAndGates(s2.(queue := [StartBlock]), v);
  }

  /** The start of capture reaches the main queue only after a hop through a
      background queue, so a delivery block dispatched meanwhile can run
      before it. The delivery then stops the session and clears the overlay,
      and the late start block restarts capture with no focus frame or close
      button to mount. */
  lemma LateStartRestartsCapture(s: Scanner, v: string)
    requires s.queue == [StartBlock] && s.needCallback && s.delegatePresent
    ensures var t := RunBlock(RunBlock(MetadataOutput(s, [Code(QR, Some(v))]), 1), 0);
      t.delivered == s.delivered + [v] && !t.needCallback && t.queue == [] &&
      t.running && OverlayCleared(t)
  {
    AcceptedBatchDispatches(s, [Code(QR, Some(v))], v);
    var d := MetadataOutput(s, [Code(QR, Some(v))]);
    assert d.queue == [StartBlock, DeliverBlock(v)];
    assert RemoveAt(d.queue, 1) == [StartBlock];
    DeliverStopsAndGates(d.(queue := [StartBlock]), v);
    var e := RunBlock(d, 1);
    assert e.queue == [StartBlock];
    assert RemoveAt(e.queue, 0) == [];
  }
}
