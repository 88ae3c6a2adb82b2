/**
 * Camera listing (`getCameras`): the devices the platform enumerates are
 * filtered down to video inputs, in their order, each reduced to an id and a
 * label.
 */
module Cameras {
  import opened Wrappers

  /** The device kind of a camera on the `mediaDevices.enumerateDevices` path. */
  const VIDEO_INPUT_KIND: string := "videoinput"
  /** The device kind of a camera on the legacy `MediaStreamTrack.getSources` path. */
  const LEGACY_VIDEO_KIND: string := "video"
  const NO_DEVICE_API_MESSAGE: string := "unable to query supported devices."

  /** A device as the platform reports it (`deviceId` or, on the legacy path, `id`; `labelText` is its `label`). */
  datatype MediaDevice = MediaDevice(kind: string, id: string, labelText: string)

  /** A camera as the scanner reports it. */
  datatype Camera = Camera(id: string, labelText: string)

  /** A failure of a platform call, with the `name` and `message` of the error. */
  datatype PlatformError = PlatformError(name: string, message: string)

  /**
   * What the platform offers for listing devices: the modern API (a camera
   * permission probe, then the enumeration), the legacy callback API, a
   * `MediaStreamTrack` global without `getSources`, or no `MediaStreamTrack`
   * global at all (reading it then throws the given `ReferenceError`).
   */
  datatype DeviceApi =
    | Modern(probe: Result<(), PlatformError>, enumeration: Result<seq<MediaDevice>, PlatformError>)
    | Legacy(sources: seq<MediaDevice>)
    | NoDeviceApi
    | NoTrackGlobal(referenceError: PlatformError)

  /**
   * Why the promise of `getCameras` rejects: with a message string, or with
   * the error object thrown inside its executor.
   */
  datatype Rejection = Message(text: string) | Thrown(error: PlatformError)

  function ToCamera(d: MediaDevice): Camera {
    Camera(d.id, d.labelText)
  }

  /** The cameras among `devices`: those of kind `kind`, in order, as `{id, label}`. */
  function VideoCameras(devices: seq<MediaDevice>, kind: string): (cams: seq<Camera>)
    ensures |cams| <= |devices|
  {
    if devices == [] then []
    else
      var last := devices[|devices| - 1];
      VideoCameras(devices[..|devices| - 1], kind) + (if last.kind == kind then [ToCamera(last)] else [])
  }

  /** Filtering a concatenation filters each part and keeps them in order. */
  lemma {:induction false} VideoCamerasAppend(a: seq<MediaDevice>, b: seq<MediaDevice>, kind: string)
    ensures VideoCameras(a + b, kind) == VideoCameras(a, kind) + VideoCameras(b, kind)
    decreases |b|
  {
    if b == [] {
      assert a + b == a;
    } else {
      var b' := b[..|b| - 1];
      assert (a + b)[..|a + b| - 1] == a + b';
      VideoCamerasAppend(a, b', kind);
    }
  }

  /** A camera is listed exactly when some device of the kind maps to it. */
  lemma {:induction false} VideoCamerasMembership(devices: seq<MediaDevice>, kind: string, c: Camera)
    ensures c in VideoCameras(devices, kind) <==> exists d :: d in devices && d.kind == kind && ToCamera(d) == c
  {
    if devices != [] {
      var init := devices[..|devices| - 1];
      var last := devices[|devices| - 1];
      VideoCamerasMembership(init, kind, c);
      assert devices == init + [last];
      if exists d :: d in devices && d.kind == kind && ToCamera(d) == c {
        var d :| d in devices && d.kind == kind && ToCamera(d) == c;
        if d != last { assert d in init; }
      }
    }
  }

  /** The loop of both enumeration callbacks: push each device of `kind` onto `results`. */
  method CollectCameras(devices: seq<MediaDevice>, kind: string) returns (results: seq<Camera>)
    ensures results == VideoCameras(devices, kind)
  {
    results := [];
    for i := 0 to |devices|
      invariant results == VideoCameras(devices[..i], kind)
    {
      assert devices[..i + 1][..i] == devices[..i];
      if devices[i].kind == kind {
        results := results + [ToCamera(devices[i])];
      }
    }
    assert devices[..|devices|] == devices;
  }

  /**
   * `getCameras`: on the modern path the cameras of kind "videoinput" once
   * the probe and the enumeration succeed, else "name : message" of the
   * first failure; on the legacy path the cameras of kind "video"; without
   * either API a fixed message, unless the `MediaStreamTrack` global is
   * missing, whose `ReferenceError` rejects the promise instead. An empty
   * list is a success.
   */
  method GetCameras(api: DeviceApi) returns (r: Result<seq<Camera>, Rejection>)
    ensures api.Modern? && api.probe.Err? ==>
              r == Err(Message(api.probe.error.name + " : " + api.probe.error.message))
    ensures api.Modern? && api.probe.Ok? && api.enumeration.Err? ==>
              r == Err(Message(api.enumeration.error.name + " : " + api.enumeration.error.message))
    ensures api.Modern? && api.probe.Ok? && api.enumeration.Ok? ==>
              r == Ok(VideoCameras(api.enumeration.value, VIDEO_INPUT_KIND))
    ensures api.Legacy? ==> r == Ok(VideoCameras(api.sources, LEGACY_VIDEO_KIND))
    ensures api.NoDeviceApi? ==> r == Err(Message(NO_DEVICE_API_MESSAGE))
    ensures api.NoTrackGlobal? ==> r == Err(Thrown(api.referenceError))
  {
    match api
    case Modern(probe, enumeration) =>
      if probe.Err? {
        r := Err(Message(probe.error.name + " : " + probe.error.message));
      } else if enumeration.Err? {
        r := Err(Message(enumeration.error.name + " : " + enumeration.error.message));
      } else {
        var cams := CollectCameras(enumeration.value, VIDEO_INPUT_KIND);
        r := Ok(cams);
      }
    case Legacy(sources) =>
      var cams := CollectCameras(sources, LEGACY_VIDEO_KIND);
      r := Ok(cams);
    case NoDeviceApi =>
      r := Err(Message(NO_DEVICE_API_MESSAGE));
    case NoTrackGlobal(referenceError) =>
      r := Err(Thrown(referenceError));
  }
}
