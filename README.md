# html5-qrcode: focus box, scale-to-fit and scanner session in Dafny

This project models the core of `Html5Qrcode`, a browser library that scans QR codes from a camera stream or from an image file. It covers four parts.

- **Focus-box geometry** (`Geometry.dfy`). The viewport is the container's client size, with 300 for a side that reports zero. The optional `qrbox` is checked against the 50-pixel minimum and against both sides. The region `qrRegion` is either the whole viewport or a centred square, in the container's coordinates. The four shading strips (left, right, top, bottom) are derived from the region. The sampling interval is `1000 / fps` ms, and the rate defaults to 2 fps.
- **Scale-to-fit of a static image** (`ScaleFit.dfy`). `computeCanvasDrawConfig` centres an image that fits. An image that does not fit is clamped by width, then by height, and placed again by the same function.
- **Camera listing** (`Cameras.dfy`). `getCameras` keeps only video devices, in their order, each as `{id, label}`. It covers the modern enumeration path and the legacy `getSources` path.
- **Scanner session** (`Scanner.dfy`). The class `Html5Qrcode` has the flags `_isScanning` and `_shouldScan`, the live stream, the armed sampling timer and the children of the container element. `start`, the `foreverScan` tick, `stop` (with its per-track loop and its loop removing shading elements), `scanFile` and `clear` update these fields.

The browser stays outside the model:

- The outcome of the stream request is a parameter of `Start`: granted with a stream, denied with a detail, or no API.
- The outcome of each decode is a parameter of `Tick` and `ScanFile`.
- The loading of an image is a parameter of `ScanFile`.
- The platform's device-listing API is a parameter of `GetCameras`.
- The sampling timer is a field holding the delay of the armed timer. A tick is one call of `Tick`.

The object invariant `Html5Qrcode.Valid()` says three things:

- a stream is held exactly while `_isScanning` is set;
- while scanning, the container holds the video element, then the decode canvas, then nothing but shading elements;
- the sampling rate is never zero.

The constructor and the public methods `Start`, `Stop`, `ClearElement` and `ScanFile` keep it.

Three behaviours of the code a caller may not expect:

- `stop()` on a scanner without a stream has no state check. It first clears `_shouldScan` and the timer. Then it reads the null stream, so its promise rejects. There is no dedicated "invalid state" error.
- `stop()` on a stream with no video track never resolves. The teardown runs only when the count of stopped tracks reaches the track count, so `_isScanning` stays set.
- The code has no separate "starting" or "stopping" state. It has only `_isScanning`, which is set after the stream arrives and the first sample is taken.

## Model

| member | source | states |
|---|---|---|
| Geometry.ResolveViewport | transpiled/html5-qrcode.js:101-103 | both viewport sides are at least 1; a side is the client size when that is nonzero and 300 when it is zero |
| Geometry.ShadedRegionBounds | transpiled/html5-qrcode.js:492-503 | succeeds exactly when `qrbox` is at most the width and at most the height, otherwise the "greater than the element" error; the result is a `qrbox` square whose centre is the viewport's centre, and lies inside the viewport when `qrbox` is non-negative |
| Geometry.StartRegion | transpiled/html5-qrcode.js:100-122 | accepted exactly when there is no `qrbox` or 50 <= `qrbox` <= both sides; below 50 is the minimum-size error even when it also exceeds a side; at least 50 but larger than a side is the size error; no `qrbox` gives the whole viewport at the origin; an accepted region is centred and inside the viewport, and is a `qrbox` square when one is set |
| Geometry.ShadingStrips | transpiled/html5-qrcode.js:506-516 | no strip exactly when the region's `x` and `y` are both zero; otherwise the left, right, top and bottom strips in that order |
| Geometry.ShadedElement | transpiled/html5-qrcode.js:519-555 | each strip carries its own position; the left and right strips are `region.x` wide and as tall as the element; the top and bottom strips are `region.width` wide and `region.y` tall |
| Geometry.StripPlacement | transpiled/html5-qrcode.js:519-555 | placed in the container, the left strip is `{0, 0, region.x, height}`, the right strip is as wide against the far edge, and the top and bottom strips are `region.width` wide and `region.y` tall against the top and bottom edges, starting at `region.x` |
| Geometry.ShadingTilesViewport | transpiled/html5-qrcode.js:497-555 | for every accepted `qrbox`, the region's square and the placed strips cover each container point exactly once and no point outside the container, all in the container's coordinates |
| Geometry.EffectiveFps | transpiled/html5-qrcode.js:97-98 | the rate is never zero; it is the configured `fps` when that is present and nonzero, and 2 otherwise |
| Geometry.TimeoutFps | transpiled/html5-qrcode.js:638-641 | the delay times the rate is 1000 ms, so `fps` samples take one second; the delay is positive for a positive rate |
| Geometry.DefaultSamplingInterval | transpiled/html5-qrcode.js:662 | without a configured rate, samples are 500 ms apart |
| ScaleFit.ClampWidth | transpiled/html5-qrcode.js:332-335 | an image wider than the viewport gets the viewport's width; otherwise it is unchanged; the ratio is kept and neither side grows |
| ScaleFit.ClampHeight | transpiled/html5-qrcode.js:337-340 | an image taller than the viewport gets the viewport's height; otherwise it is unchanged; the ratio is kept and neither side grows |
| ScaleFit.Downsample | transpiled/html5-qrcode.js:328-340 | after one downsampling step an oversized image fits the viewport, keeps its width-to-height ratio, does not grow, and touches the viewport's width or height |
| ScaleFit.CanvasDrawConfig | transpiled/html5-qrcode.js:313-346 | an image that fits is drawn unscaled, offset by half the leftover space on each axis; every result is centred, inside the viewport, in the image's ratio and no larger than the image; an oversized result touches a viewport side; the recursion ends after at most two calls |
| ScaleFit.CanvasDrawConfigIdempotent | transpiled/html5-qrcode.js:313-346 | placing the drawn rectangle's size again in the same viewport returns the same rectangle |
| ScaleFit.CanvasDrawConfigExamples | transpiled/html5-qrcode.js:318-344 | a 100x50 image in 300x300 lands at `{100, 125, 100, 50}`; a 600x300 image lands at `{0, 75, 300, 150}` |
| Cameras.VideoCameras | transpiled/html5-qrcode.js:585-596 | the camera list is never longer than the device list (its content is fixed by the two lemmas below) |
| Cameras.VideoCamerasAppend | transpiled/html5-qrcode.js:587-596 | filtering a concatenation is the concatenation of the filtered parts, so the input order is kept |
| Cameras.VideoCamerasMembership | transpiled/html5-qrcode.js:587-596 | a camera is listed exactly when some device of the requested kind has that id and label |
| Cameras.CollectCameras | transpiled/html5-qrcode.js:585-627 | each of the two push loops (the `enumerateDevices` one and the `getSources` one) returns exactly the filtered list |
| Cameras.GetCameras | transpiled/html5-qrcode.js:573-636 | the modern path lists the "videoinput" devices once the probe and the enumeration succeed, or fails with "name : message" of the first error; the legacy path lists the "video" sources; a `MediaStreamTrack` global without `getSources` fails with "unable to query supported devices."; a missing `MediaStreamTrack` global rejects with the `ReferenceError` its reference throws; an empty list is a success |
| Scanner.DecodeEvent | transpiled/html5-qrcode.js:174-178 | a decode always reaches a callback; the success callback exactly when the decode succeeds, with the decoded text; otherwise the error callback with the parse-error prefix followed by the exception text |
| Scanner.CameraChildren | transpiled/html5-qrcode.js:124-136 | the video element of the viewport's size comes first, then the decode canvas of the region's size, then nothing but shading elements; there are four of them, the strips in order, exactly when shading is enabled and the region is not at the origin |
| Scanner.FirstShade | transpiled/html5-qrcode.js:251-252 | the index of the first shading element in the container: it is a shading element and none comes before it |
| Scanner.Html5Qrcode.constructor | transpiled/html5-qrcode.js:30-44 | a new scanner is not scanning, has `_shouldScan` set, no stream and no timer |
| Scanner.Html5Qrcode.ClearElement | transpiled/html5-qrcode.js:456-464 | refuses while scanning and leaves the container as it was; otherwise empties the container |
| Scanner.Html5Qrcode.Tick | transpiled/html5-qrcode.js:147-181 | with `_shouldScan` clear it copies nothing, calls no callback and arms no timer; otherwise it re-arms the timer for `1000 / fps` ms, and when a stream is present it copies exactly `qrRegion` and routes the decode to the success callback or, prefixed, to the error callback |
| Scanner.Html5Qrcode.Start | transpiled/html5-qrcode.js:79-227 | a missing camera id, a missing success callback and an ongoing scan each throw with nothing changed; a bad `qrbox` throws after the container is emptied, before any element is appended or any stream requested; otherwise the container holds the video, the canvas and the shading, and only a granted stream sets `_isScanning`, after the first sample and with the timer armed; a denied or unsupported request rejects with `_isScanning` still clear |
| Scanner.Html5Qrcode.AppendCameraElements | transpiled/html5-qrcode.js:131-136 | the video element, the decode canvas and, when shading is enabled, the strips are appended after the children already there |
| Scanner.Html5Qrcode.Acquire | transpiled/html5-qrcode.js:186-227 | a granted stream is stored, sampled once with the timer re-armed, and only then sets `_isScanning` and resolves, with no value, after the first sample; the outcome records which callback that sample reached; a denial rejects with the prefixed detail and an absent API with the unsupported message, neither touching the stream, the flag or the timer |
| Scanner.Html5Qrcode.RemoveQrRegion | transpiled/html5-qrcode.js:250-256 | removing the first shading element until none is left leaves exactly the other children, in order |
| Scanner.Html5Qrcode.OnAllTracksClosed | transpiled/html5-qrcode.js:258-268 | drops the stream, empties the container of video, canvas and shading, and clears `_isScanning` |
| Scanner.Html5Qrcode.Stop | transpiled/html5-qrcode.js:236-279 | always clears `_shouldScan` and the timer first; without a stream it rejects; with video tracks it stops each in order, then drops the stream, empties the container, clears `_isScanning` and resolves; with no video track it never settles and `_isScanning` stays set |
| Scanner.Html5Qrcode.ScanFile | transpiled/html5-qrcode.js:298-432 | refuses a missing file and an ongoing camera scan with nothing changed; otherwise empties the container; a failed load rejects; a loaded image is placed by `CanvasDrawConfig` and gets a visible canvas (unless `showImage` is false) and a decode canvas of the placed size; the promise resolves with the decoded text or rejects with the prefixed parse error |

## Left out

- DOM creation and styling are not modelled. This covers `_createCanvasElement`, `_createVideoElement`, CSS strings, the shading colour, element ids such as `qr-shaded-region_1`, `innerHTML`, `append` and `removeChild`. Only the element kinds and their sizes are kept, as a sequence of children.
- The shading positions are an enumeration. Because of that, the `default: throw "Unsupported shadingPosition"` branch of `_createShadedElement` cannot be reached in the model.
- `getUserMedia` (modern and legacy), `enumerateDevices`, `MediaStreamTrack.getSources` and the promise plumbing are not modelled. Their outcomes are parameters.
- Start: calls made while the stream request is still pending are not modelled, because the request and its answer form one step. Such calls are `clear`, `scanFile`, a second `start` or `stop`.
- Stop: `removeChild` on an element that is no longer a child cannot happen in the model, because the model lets no other call touch the container while scanning (see the `ScanFile` line below). A page that edits the container itself is not modelled.
- ScanFile: calls made while the image is loading are not modelled, because the load and its `onload` handler form one step. In the library a `start` issued before `onload` runs lets `onload` later append the visible canvas and the decode canvas to the live container (transpiled/html5-qrcode.js:368 and 397). The teardown of `stop` (transpiled/html5-qrcode.js:261-265) then leaves those two canvases behind, so the container is not empty after such a `stop`, whereas `Stop` here ends with `children == []`.
- The constructor throws when the global `qrcode` decoder is missing (transpiled/html5-qrcode.js:33-35). This check is not modelled, because the decoder is external.
- Tick: each tick reads `config.fps` again through the caller's configuration object (transpiled/html5-qrcode.js:181), so a caller that changes `config.fps` during a scan changes the sampling interval. The model does not capture this aliasing: it freezes the rate in the `fps` field at `start`.
- `qrcode.decode()` is external. Its outcome is a parameter. The global `qrcode.callback` that `start` sets and `stop` clears is not modelled.
- The timing of `setTimeout` and `clearTimeout` is not modelled. The timer is the delay it was armed with, and a tick is one call.
- The pixel contents of `drawImage` are not modelled. The tick returns the rectangle it copies.
- `URL.createObjectURL`, `URL.revokeObjectURL`, `_possiblyCloseLastScanImageFile` and the `_lastScanImageFile` field are not modelled, because they are resource handles of the browser.
- The image-load failure events (`onerror`, `onabort`, `onstalled`, `onsuspend`) are folded into one `LoadFailed` outcome.
- `imageFile instanceof File` is a boolean parameter.
- Lengths and rates are `real`, so IEEE floating-point rounding is not modelled. NaN and non-numeric `fps` or `qrbox` values are not modelled either.
- `start` writes the defaulted `fps` back into the caller's configuration object. This write is not modelled.
- `start` defaults a missing error callback to `console.log`, and `stop` resolves with the value `true`. Neither is modelled.
- `_log` and `VERBOSE` only print diagnostics and are not modelled.
- DecodeEvent: the success and error callbacks are assumed to return normally. In the library the success callback runs inside `qrcode.decode()` through `qrcode.callback` (transpiled/html5-qrcode.js:145 and 175). If it throws, the `catch` at transpiled/html5-qrcode.js:176-177 also calls the error callback with the parse-error prefix, so one decode reaches both callbacks. The model routes each decode to exactly one.
- Tick: an error callback that throws at transpiled/html5-qrcode.js:177 is not modelled. In the library the exception leaves `foreverScan` before the re-arm at transpiled/html5-qrcode.js:181, so sampling stops for good while `_isScanning` stays set. The model always re-arms the timer while `_shouldScan` is set.
- Acquire: a callback that throws on the first sample is not modelled. In the library the exception leaves the `.then` at transpiled/html5-qrcode.js:201-204. `_isScanning = true` is skipped, and the `.catch` at transpiled/html5-qrcode.js:205-206 rejects with the "Error getting userMedia" prefix while `_localMediaStream` still holds the stream (transpiled/html5-qrcode.js:188). The model's granted path always resolves with `_isScanning` set, and `Valid()` (a stream exactly while scanning) would not hold in that library state.
- Start: inherits the assumption of the `Acquire` line: its granted case promises a resolve with `_isScanning` set, which a throwing first-sample callback breaks in the library.
- ShadingTilesViewport: the camera frame's own resolution (`videoWidth` by `videoHeight`) is not modelled, so the model treats frame pixels and container pixels as one coordinate system. `drawImage` reads `qrRegion` in frame pixels (transpiled/html5-qrcode.js:156-172), while the strips are placed in the container's CSS pixels and the video is scaled into the element (transpiled/html5-qrcode.js:124 and 484-485). The decoded area is the unshaded box on screen only when the camera's resolution equals the element's size. For a 640x480 camera in a 300x300 element with `qrbox` 250, the decoder reads frame pixels 25 to 275 on each axis, the upper-left part of the unshaded box.
- The container element is assumed to exist. An `elementId` that names no element makes `_clearElement` dereference null (transpiled/html5-qrcode.js:462-463), so `start` (transpiled/html5-qrcode.js:93) and `clear` throw a `TypeError` and `scanFile` rejects (transpiled/html5-qrcode.js:351). This is not modelled, because the document is outside the model.
- GetCameras: the `ReferenceError` thrown by a missing `MediaStreamTrack` global is a parameter of the `NoTrackGlobal` case, as the name and message of the error object.
