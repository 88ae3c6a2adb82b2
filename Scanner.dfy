/**
 * The scanner session (`Html5Qrcode`): the flags `_isScanning` and
 * `_shouldScan`, the live stream, the pending sampling timer and the children
 * of the container element, as `start`, the sampling tick, `stop`,
 * `scanFile` and `clear` change them.
 *
 * The browser stays outside: the outcome of the stream request, the outcome
 * of each decode and the loading of an image are parameters.
 */
module Scanner {
  import opened Wrappers
  import opened Geometry
  import opened ScaleFit

  const QR_CANVAS_ID: string := "qr-canvas"
  const VISIBLE_CANVAS_ID: string := "qr-canvas-visible"
  const PARSE_ERROR_PREFIX: string := "QR code parse error, error = "
  const MEDIA_ERROR_PREFIX: string := "Error getting userMedia, error = "

  /** A child of the container element. */
  datatype Child =
    | Video(width: real, height: real)
    | Canvas(id: string, width: real, height: real)
    | Shade(strip: Strip)       // an element of class "qr-shaded-region"
    | Other(tag: string)        // content the page put there itself

  /** A live camera stream with the ids of its video tracks. */
  datatype MediaStream = MediaStream(id: nat, videoTracks: seq<nat>)

  /** How the request for the camera's stream ends. */
  datatype Acquisition = Granted(stream: MediaStream) | Denied(detail: string) | Unsupported

  /** What one call of the external decoder does on the current frame. */
  datatype DecodeOutcome = Decoded(text: string) | DecodeFailed(exception: string)

  /** Which caller callback a sample ends in. */
  datatype ScanEvent = NoCallback | SuccessCallback(text: string) | ErrorCallback(message: string)

  /** How an image file loads. */
  datatype ImageLoad = Loaded(width: nat, height: nat) | LoadFailed

  /** The options of `start`: `fps` and `qrbox`, each possibly absent. */
  datatype Config = Config(fps: Option<real>, qrbox: Option<real>)

  datatype ScanError =
    | CameraIdRequired
    | SuccessCallbackRequired
    | ClearWhileScanning
    | BadQrbox(reason: ConfigError)
    | MediaFailure(message: string)
    | StreamingUnsupported
    | FileRequired
    | FileWhileScanning
    | ImageLoadError
    | ParseError(message: string)
    | NoActiveStream

  /** `start` throws before returning a promise, or the promise rejects, or it resolves after the first sample. */
  datatype StartOutcome = StartThrown(error: ScanError) | StartRejected(error: ScanError) | StartResolved(first: ScanEvent)

  /** The promise of `stop` resolves, rejects, or never settles. */
  datatype StopOutcome = StopResolved | StopRejected(error: ScanError) | StopPending

  /** `scanFile` throws, or its promise resolves with the text or rejects. */
  datatype FileOutcome = FileThrown(error: ScanError) | FileResolved(text: string) | FileRejected(error: ScanError)

  /**
   * The callback a decode ends in, during live scanning: every decode reaches
   * one callback, the success callback exactly when the decoder returns, with
   * its text; an exception reaches the error callback behind a fixed prefix.
   */
  function DecodeEvent(d: DecodeOutcome): (e: ScanEvent)
    ensures e != NoCallback
    ensures e.SuccessCallback? <==> d.Decoded?
    ensures e.SuccessCallback? ==> e.text == d.text
    ensures e.ErrorCallback? ==>
              PARSE_ERROR_PREFIX <= e.message && e.message[|PARSE_ERROR_PREFIX|..] == d.exception
  {
    match d
    case Decoded(text) => SuccessCallback(text)
    case DecodeFailed(e) => ErrorCallback(PARSE_ERROR_PREFIX + e)
  }

  function Shades(strips: seq<Strip>): (cs: seq<Child>)
    ensures |cs| == |strips|
    ensures forall i :: 0 <= i < |strips| ==> cs[i] == Shade(strips[i])
  {
    if strips == [] then [] else [Shade(strips[0])] + Shades(strips[1..])
  }

  /**
   * The children `start` gives the cleared container: the video at viewport
   * size, the decode canvas at region size, then the shading when a `qrbox`
   * is set (none when the region sits at the origin). This is the layout the
   * scanner's invariant keeps while scanning.
   */
  function CameraChildren(v: Size, region: Region, shaded: bool): (cs: seq<Child>)
    ensures CameraLayout(cs, Video(v.width, v.height), Canvas(QR_CANVAS_ID, region.width, region.height))
    ensures |cs| == if shaded && (region.x != 0.0 || region.y != 0.0) then 6 else 2
    ensures forall i :: 2 <= i < |cs| ==> cs[i] == Shade(ShadingStrips(v.height, region)[i - 2])
  {
    [Video(v.width, v.height), Canvas(QR_CANVAS_ID, region.width, region.height)]
    + (if shaded then Shades(ShadingStrips(v.height, region)) else [])
  }

  /** The container holds `video`, then `canvas`, then only shading elements. */
  predicate CameraLayout(children: seq<Child>, video: Child, canvas: Child) {
    && |children| >= 2 && children[0] == video && children[1] == canvas
    && video.Video? && canvas.Canvas?
    && forall i :: 2 <= i < |children| ==> children[i].Shade?
  }

  predicate HasShade(children: seq<Child>) {
    exists i :: 0 <= i < |children| && children[i].Shade?
  }

  /** The index of the first shading element: what `getElementsByClassName(...)[0]` finds. */
  function FirstShade(children: seq<Child>): (i: nat)
    requires HasShade(children)
    ensures i < |children| && children[i].Shade?
    ensures forall j :: 0 <= j < i ==> !children[j].Shade?
  {
    if children[0].Shade? then 0
    else
      assert HasShade(children[1..]) by {
        var k :| 0 <= k < |children| && children[k].Shade?;
        assert children[1..][k - 1].Shade?;
      }
      1 + FirstShade(children[1..])
  }

  /** The children that are not shading elements, in order. */
  function WithoutShades(children: seq<Child>): (rest: seq<Child>)
    ensures forall c :: c in rest ==> !c.Shade?
  {
    if children == [] then []
    else (if children[0].Shade? then [] else [children[0]]) + WithoutShades(children[1..])
  }

  lemma {:induction false} WithoutShadesAppend(a: seq<Child>, b: seq<Child>)
    ensures WithoutShades(a + b) == WithoutShades(a) + WithoutShades(b)
  {
    if a == [] {
      assert a + b == b;
    } else {
      assert (a + b)[1..] == a[1..] + b;
      WithoutShadesAppend(a[1..], b);
    }
  }

  /** Removing one shading element leaves the other children as they were. */
  lemma RemoveShadeKeepsRest(children: seq<Child>, i: nat)
    requires i < |children| && children[i].Shade?
    ensures WithoutShades(children[..i] + children[i + 1..]) == WithoutShades(children)
  {
    assert children == children[..i] + ([children[i]] + children[i + 1..]);
    WithoutShadesAppend(children[..i], [children[i]] + children[i + 1..]);
    WithoutShadesAppend([children[i]], children[i + 1..]);
    WithoutShadesAppend(children[..i], children[i + 1..]);
  }

  /** A sequence without shading elements is its own filter. */
  lemma {:induction false} WithoutShadesIdentity(children: seq<Child>)
    requires !HasShade(children)
    ensures WithoutShades(children) == children
  {
    if children != [] {
      WithoutShadesIdentity(children[1..]);
    }
  }

  /** A sequence of shading elements only filters to nothing. */
  lemma {:induction false} WithoutShadesOfShades(children: seq<Child>)
    requires forall i :: 0 <= i < |children| ==> children[i].Shade?
    ensures WithoutShades(children) == []
  {
    if children != [] {
      WithoutShadesOfShades(children[1..]);
    }
  }

  class Html5Qrcode {
    var isScanning: bool
    var shouldScan: bool
    var localMediaStream: Option<MediaStream>
    /** The delay of the armed sampling timer, if one is armed. */
    var foreverScanTimeout: Option<real>
    /** The children of the container element. */
    var children: seq<Child>
    /** What the sampling closure captured at the last `start`: the region, the rate and the two elements. */
    var qrRegion: Region
    var fps: real
    var videoElement: Child
    var canvasElement: Child
    /** The ids of the video tracks `stop` has stopped, in order. */
    var stoppedTracks: seq<nat>

    /**
     * A stream is held exactly while scanning, and while scanning nothing but
     * `start` has touched the container.
     */
    ghost predicate Valid()
      reads this
    {
      && fps != 0.0
      && (isScanning <==> localMediaStream.Some?)
      && (isScanning ==> CameraLayout(children, videoElement, canvasElement))
    }

    constructor (initialChildren: seq<Child>)
      ensures Valid()
      ensures !isScanning && shouldScan && localMediaStream == None && foreverScanTimeout == None
      ensures children == initialChildren && stoppedTracks == []
    {
      isScanning := false;
      shouldScan := true;
      localMediaStream := None;
      foreverScanTimeout := None;
      children := initialChildren;
      qrRegion := Region(0.0, 0.0, 0.0, 0.0);
      fps := SCAN_DEFAULT_FPS;
      videoElement := Video(0.0, 0.0);
      canvasElement := Canvas(QR_CANVAS_ID, 0.0, 0.0);
      stoppedTracks := [];
    }

    /** `_clearElement` (and `clear`): refuses while scanning, otherwise empties the container. */
    method ClearElement() returns (error: Option<ScanError>)
      requires Valid()
      modifies this`children
      ensures Valid()
      ensures isScanning ==> error == Some(ClearWhileScanning) && children == old(children)
      ensures !isScanning ==> error == None && children == []
    {
      if isScanning {
        return Some(ClearWhileScanning);
      }
      children := [];
      error := None;
    }

    /**
     * One run of `foreverScan`. Once `_shouldScan` is false it returns and
     * arms nothing. Otherwise, when a stream is present, it copies `qrRegion`
     * into the decode canvas and decodes, a failure going to the error
     * callback; in both cases it re-arms the timer for `1000 / fps` ms.
     */
    method Tick(decode: DecodeOutcome) returns (copied: Option<Region>, event: ScanEvent)
      requires fps != 0.0
      modifies this`foreverScanTimeout
      ensures !shouldScan ==> copied == None && event == NoCallback && foreverScanTimeout == old(foreverScanTimeout)
      ensures shouldScan ==> foreverScanTimeout == Some(TimeoutFps(fps))
      ensures shouldScan && localMediaStream.None? ==> copied == None && event == NoCallback
      ensures shouldScan && localMediaStream.Some? ==> copied == Some(qrRegion) && event == DecodeEvent(decode)
    {
      if !shouldScan {
        return None, NoCallback;
      }
      copied, event := None, NoCallback;
      if localMediaStream.Some? {
        copied := Some(qrRegion);
        event := DecodeEvent(decode);
      }
      foreverScanTimeout := Some(TimeoutFps(fps));
    }

    /**
     * `start`: argument checks, `_clearElement`, the `qrbox` check, the
     * elements, then the stream. Only a granted stream sets `_isScanning`,
     * after the first sample.
     */
    method Start(cameraId: string, hasSuccessCallback: bool, config: Config,
                 clientWidth: nat, clientHeight: nat,
                 acquisition: Acquisition, firstDecode: DecodeOutcome)
      returns (outcome: StartOutcome)
      requires Valid()
      modifies this
      ensures Valid()
      ensures stoppedTracks == old(stoppedTracks)
      ensures cameraId == [] ==> outcome == StartThrown(CameraIdRequired) && unchanged(this)
      ensures cameraId != [] && !hasSuccessCallback ==>
                outcome == StartThrown(SuccessCallbackRequired) && unchanged(this)
      ensures cameraId != [] && hasSuccessCallback && old(isScanning) ==>
                outcome == StartThrown(ClearWhileScanning) && unchanged(this)
      ensures var v := ResolveViewport(clientWidth, clientHeight);
              var region := StartRegion(v, config.qrbox);
              cameraId != [] && hasSuccessCallback && !old(isScanning) && region.Err? ==>
                && outcome == StartThrown(BadQrbox(region.error))
                && children == []
                && !isScanning && shouldScan == old(shouldScan) && localMediaStream == old(localMediaStream)
                && foreverScanTimeout == old(foreverScanTimeout)
      ensures var v := ResolveViewport(clientWidth, clientHeight);
              var region := StartRegion(v, config.qrbox);
              cameraId != [] && hasSuccessCallback && !old(isScanning) && region.Ok? ==>
                && children == CameraChildren(v, region.value, config.qrbox.Some?)
                && qrRegion == region.value && fps == EffectiveFps(config.fps)
                && shouldScan
                && match acquisition
                   case Granted(stream) =>
                     && isScanning && localMediaStream == Some(stream)
                     && foreverScanTimeout == Some(TimeoutFps(fps))
                     && outcome == StartResolved(DecodeEvent(firstDecode))
                   case Denied(detail) =>
                     && !isScanning && localMediaStream == None && foreverScanTimeout == old(foreverScanTimeout)
                     && outcome == StartRejected(MediaFailure(MEDIA_ERROR_PREFIX + detail))
                   case Unsupported =>
                     && !isScanning && localMediaStream == None && foreverScanTimeout == old(foreverScanTimeout)
                     && outcome == StartRejected(StreamingUnsupported)
    {
      if cameraId == [] {
        return StartThrown(CameraIdRequired);
      }
      if !hasSuccessCallback {
        return StartThrown(SuccessCallbackRequired);
      }
      var cleared := ClearElement();
      if cleared.Some? {
        return StartThrown(cleared.value);
      }
      var rate := EffectiveFps(config.fps);
      var viewport := ResolveViewport(clientWidth, clientHeight);
      var region := StartRegion(viewport, config.qrbox);
      if region.Err? {
        return StartThrown(BadQrbox(region.error));
      }
      AppendCameraElements(viewport, region.value, config.qrbox.Some?);
      videoElement := Video(viewport.width, viewport.height);
      canvasElement := Canvas(QR_CANVAS_ID, region.value.width, region.value.height);
      qrRegion, fps := region.value, rate;
      shouldScan := true;
      outcome := Acquire(acquisition, firstDecode);
    }

    /**
     * The answer to the stream request of `start`: a granted stream is kept,
     * sampled once and only then marks the scanner as scanning; a denial or a
     * missing API rejects and changes nothing.
     */
    method Acquire(acquisition: Acquisition, firstDecode: DecodeOutcome) returns (outcome: StartOutcome)
      requires fps != 0.0 && shouldScan && !isScanning && localMediaStream == None
      modifies this`localMediaStream, this`isScanning, this`foreverScanTimeout
      ensures match acquisition
              case Granted(stream) =>
                && isScanning && localMediaStream == Some(stream)
                && foreverScanTimeout == Some(TimeoutFps(fps))
                && outcome == StartResolved(DecodeEvent(firstDecode))
              case Denied(detail) =>
                && !isScanning && localMediaStream == None && foreverScanTimeout == old(foreverScanTimeout)
                && outcome == StartRejected(MediaFailure(MEDIA_ERROR_PREFIX + detail))
              case Unsupported =>
                && !isScanning && localMediaStream == None && foreverScanTimeout == old(foreverScanTimeout)
                && outcome == StartRejected(StreamingUnsupported)
    {
      match acquisition {
        case Granted(stream) =>
          localMediaStream := Some(stream);
          var _, event := Tick(firstDecode);
          isScanning := true;
          outcome := StartResolved(event);
        case Denied(detail) =>
          outcome := StartRejected(MediaFailure(MEDIA_ERROR_PREFIX + detail));
        case Unsupported =>
          outcome := StartRejected(StreamingUnsupported);
      }
    }

    /** Append the video element, the decode canvas and, when `shaded`, the shading strips. */
    method AppendCameraElements(viewport: Size, region: Region, shaded: bool)
      modifies this`children
      ensures children == old(children) + CameraChildren(viewport, region, shaded)
    {
      children := children + [Video(viewport.width, viewport.height), Canvas(QR_CANVAS_ID, region.width, region.height)];
      if shaded {
        children := children + Shades(ShadingStrips(viewport.height, region));
      }
    }

    /** `removeQrRegion`: remove the first shading element until none is left. */
    method RemoveQrRegion()
      modifies this`children
      ensures children == WithoutShades(old(children))
    {
      while HasShade(children)
        invariant WithoutShades(children) == WithoutShades(old(children))
        decreases |children|
      {
        var i := FirstShade(children);
        RemoveShadeKeepsRest(children, i);
        children := children[..i] + children[i + 1..];
      }
      WithoutShadesIdentity(children);
    }

    /** `onAllTracksClosed`: drop the stream, remove video, canvas and shading, and clear `_isScanning`. */
    method OnAllTracksClosed()
      requires isScanning && CameraLayout(children, videoElement, canvasElement)
      modifies this`localMediaStream, this`children, this`isScanning
      ensures localMediaStream == None && !isScanning && children == []
    {
      localMediaStream := None;
      children := children[1..];     // removeChild(videoElement), the first child
      children := children[1..];     // removeChild(canvasElement), now the first child
      WithoutShadesOfShades(children);
      RemoveQrRegion();
      isScanning := false;
    }

    /**
     * `stop`: clears `_shouldScan` and the timer first. Without a stream the
     * promise rejects. Otherwise every video track is stopped in order, and
     * the teardown runs once the count of stopped tracks reaches the number
     * of tracks; with no video track it never runs and the promise never
     * settles.
     */
    method Stop() returns (outcome: StopOutcome)
      requires Valid()
      modifies this`shouldScan, this`foreverScanTimeout, this`localMediaStream,
               this`children, this`isScanning, this`stoppedTracks
      ensures Valid()
      ensures !shouldScan && foreverScanTimeout == None
      ensures old(localMediaStream).None? ==>
                && outcome == StopRejected(NoActiveStream)
                && !isScanning && children == old(children) && stoppedTracks == old(stoppedTracks)
      ensures old(localMediaStream).Some? && old(localMediaStream).value.videoTracks == [] ==>
                && outcome == StopPending
                && isScanning && localMediaStream == old(localMediaStream)
                && children == old(children) && stoppedTracks == old(stoppedTracks)
      ensures old(localMediaStream).Some? && old(localMediaStream).value.videoTracks != [] ==>
                && outcome == StopResolved
                && !isScanning && localMediaStream == None && children == []
                && stoppedTracks == old(stoppedTracks) + old(localMediaStream).value.videoTracks
    {
      shouldScan := false;
      foreverScanTimeout := None;
      if localMediaStream.None? {
        return StopRejected(NoActiveStream);
      }
      var tracks := localMediaStream.value.videoTracks;
      var tracksToClose := |tracks|;
      var tracksClosed := 0;
      outcome := StopPending;
      for i := 0 to |tracks|
        invariant tracksClosed == i
        invariant stoppedTracks == old(stoppedTracks) + tracks[..i]
        invariant !shouldScan && foreverScanTimeout == None
        invariant i == 0 || i < tracksToClose ==>
                    && outcome == StopPending && isScanning && localMediaStream == old(localMediaStream)
                    && children == old(children)
        invariant i == tracksToClose && i > 0 ==>
                    outcome == StopResolved && !isScanning && localMediaStream == None && children == []
      {
        stoppedTracks := stoppedTracks + [tracks[i]];
        tracksClosed := tracksClosed + 1;
        if tracksClosed >= tracksToClose {
          OnAllTracksClosed();
          outcome := StopResolved;
        }
      }
      assert tracks[..|tracks|] == tracks;
    }

    /**
     * `scanFile`: refuses a missing file and an ongoing camera scan; then
     * empties the container, places the loaded image by `CanvasDrawConfig`,
     * adds the visible canvas when `showImage` (default true) and the decode
     * canvas, and decodes once.
     */
    method ScanFile(isFile: bool, showImage: Option<bool>, clientWidth: nat, clientHeight: nat,
                    load: ImageLoad, decode: DecodeOutcome)
      returns (outcome: FileOutcome, drawn: Option<Region>)
      requires Valid()
      modifies this`children
      ensures Valid()
      ensures !isFile ==> outcome == FileThrown(FileRequired) && drawn == None && children == old(children)
      ensures isFile && isScanning ==>
                outcome == FileThrown(FileWhileScanning) && drawn == None && children == old(children)
      ensures isFile && !isScanning && load.LoadFailed? ==>
                outcome == FileRejected(ImageLoadError) && drawn == None && children == []
      ensures var v := ResolveViewport(clientWidth, clientHeight);
              isFile && !isScanning && load.Loaded? ==>
                var config := CanvasDrawConfig(v, Size(load.width as real, load.height as real));
                && drawn == Some(config)
                && children == (if showImage != Some(false) then [Canvas(VISIBLE_CANVAS_ID, v.width, v.height)] else [])
                               + [Canvas(QR_CANVAS_ID, config.width, config.height)]
                && outcome == match decode
                              case Decoded(text) => FileResolved(text)
                              case DecodeFailed(e) => FileRejected(ParseError(PARSE_ERROR_PREFIX + e))
    {
      if !isFile {
        return FileThrown(FileRequired), None;
      }
      if isScanning {
        return FileThrown(FileWhileScanning), None;
      }
      var cleared := ClearElement();
      if load.LoadFailed? {
        return FileRejected(ImageLoadError), None;
      }
      var v := ResolveViewport(clientWidth, clientHeight);
      var config := CanvasDrawConfig(v, Size(load.width as real, load.height as real));
      if showImage != Some(false) {
        children := children + [Canvas(VISIBLE_CANVAS_ID, v.width, v.height)];
      }
      children := children + [Canvas(QR_CANVAS_ID, config.width, config.height)];
      drawn := Some(config);
      match decode {
        case Decoded(text) => outcome := FileResolved(text);
        case DecodeFailed(e) => outcome := FileRejected(ParseError(PARSE_ERROR_PREFIX + e));
      }
    }
  }
}
