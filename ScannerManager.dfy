/** The manager object itself: the flags and handles its methods update in
    place, the main dispatch queue its deferred blocks wait on, and the two
    logs of what its delegate was shown. Every state-changing method is proved
    to take the object from `old(Model())` to the state the matching function
    of `ScannerSpec` computes, so every property proved there about traces of
    those functions holds of the object. */
module ScannerManager {
  import opened ScannerTypes
  import opened ScannerSpec

  class QRScannerManager {
    var needCallback: bool
    var running: bool
    var hasPreview: bool
    var hasFocus: bool
    var hasClose: bool
    var inputAttached: bool
    var outputAttached: bool
    var qrOnly: bool
    var delegatePresent: bool
    var queue: seq<Block>
    ghost var delivered: seq<string>
    ghost var errors: seq<ScanningError>

    /** The object's state as a value of the specification. */
    ghost function Model(): Scanner
      reads this
    {
      Scanner(needCallback, running, hasPreview, hasFocus, hasClose,
              inputAttached, outputAttached, qrOnly, delegatePresent,
              queue, delivered, errors)
    }

    /** A new manager is armed, holds no handle, has nothing attached and
        no delegate. */
    constructor()
      ensures Model() == Initial
    {
      needCallback := true;
      running := false;
      hasPreview := false;
      hasFocus := false;
      hasClose := false;
      inputAttached := false;
      outputAttached := false;
      qrOnly := false;
      delegatePresent := false;
      queue := [];
      delivered := [];
      errors := [];
    }

    /** Assigning the weak `delegate` property (or its referent going away). */
    method SetDelegate(present: bool)
      modifies this
      ensures Model() == old(Model()).(delegatePresent := present)
    {
      delegatePresent := present;
    }

    method SetUp(probe: DeviceProbe, canAddInput: bool, canAddOutput: bool)
      modifies this
      ensures Model() == ScannerSpec.SetUp(old(Model()), probe, canAddInput, canAddOutput)
    {
      if probe.NoDevice? {
        return;
      }
      if probe.InputThrows? {
        if delegatePresent {
          errors := errors + [NoCamera];
        }
        return;
      }
      if canAddInput {
        inputAttached := true;
      }
      if canAddOutput {
        outputAttached := true;
        qrOnly := true;
      }
    }

    method RunSession(imageAvailable: bool)
      modifies this
      ensures Model() == ScannerSpec.RunSession(old(Model()), imageAvailable)
    {
      needCallback := true;
      ghost var armed := Model();
      assert armed == old(Model()).(needCallback := true);
      AddLayer(imageAvailable);
      assert Model() == ScannerSpec.AddLayer(armed, imageAvailable);
      queue := queue + [StartBlock];
    }

    method StopSession()
      modifies this
      ensures Model() == ScannerSpec.StopSession(old(Model()))
    {
      running := false;
      RemoveLayer();
    }

    /** The close button's action. */
    method Close()
      modifies this
      ensures Model() == ScannerSpec.StopSession(old(Model()))
    {
      StopSession();
    }

    method AddLayer(imageAvailable: bool)
      modifies this
      ensures Model() == ScannerSpec.AddLayer(old(Model()), imageAvailable)
    {
      if !hasPreview {
        hasPreview := true;
        if !imageAvailable {
          return;
        }
        hasFocus := true;
        hasClose := true;
      }
    }

    /** Which overlay views the deferred half of `runSession` mounts: the
        focus frame when it exists, and the close button only after the focus
        frame was mounted. */
    method AddViewFinder() returns (mountsFocus: bool, mountsClose: bool)
      ensures mountsFocus <==> hasFocus
      ensures mountsClose <==> hasFocus && hasClose
      ensures mountsClose ==> mountsFocus
    {
      mountsFocus := false;
      mountsClose := false;
      if !hasFocus {
        return;
      }
      mountsFocus := true;
      if !hasClose {
        return;
      }
      mountsClose := true;
    }

    method RemoveLayer()
      modifies this
      ensures Model() == ScannerSpec.RemoveLayer(old(Model()))
    {
      hasPreview := false;
      hasFocus := false;
      hasClose := false;
    }

    /** The detection callback: an accepted batch dispatches one delivery
        block onto the main queue; any other batch is dropped. */
    method MetadataOutput(objects: seq<MetadataObject>)
      modifies this
      ensures Model() == ScannerSpec.MetadataOutput(old(Model()), objects)
    {
      var accepted := FirstQRValue(objects);
      if accepted.None? {
        return;
      }
      queue := queue + [DeliverBlock(accepted.value)];
    }

    /** The deferred half of `runSession`: capture starts and the viewfinder
        is mounted, which adds the focus frame and the close button that
        exist (together, whenever the overlay is consistent) and changes no
        handle. */
    method StartCapture() returns (mountsFocus: bool, mountsClose: bool)
      modifies this
      ensures Model() == ScannerSpec.StartCapture(old(Model()))
      ensures mountsFocus <==> old(hasFocus)
      ensures mountsClose <==> old(hasFocus) && old(hasClose)
    {
      running := true;
      mountsFocus, mountsClose := AddViewFinder();
    }

    /** The deferred half of a detection. */
    method Deliver(value: string)
      modifies this
      ensures Model() == ScannerSpec.Deliver(old(Model()), value)
    {
      StopSession();
      if needCallback {
        needCallback := false;
        if delegatePresent {
          delivered := delivered + [value];
        }
      }
    }

    /** The main queue takes the block at `index` off the queue and runs it. */
    method RunBlock(index: nat)
      modifies this
      ensures Model() == ScannerSpec.RunBlock(old(Model()), index)
    {
      if index >= |queue| {
        return;
      }
      var block := queue[index];
      queue := RemoveAt(queue, index);
      ghost var taken := Model();
      assert taken == old(Model()).(queue := RemoveAt(old(queue), index));
      match block
      case StartBlock =>
        var mountsFocus, mountsClose := StartCapture();
        assert Model() == Execute(taken, block);
      case DeliverBlock(v) =>
        Deliver(v);
        assert Model() == Execute(taken, block);
    }
  }
}
