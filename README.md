# FaceExtension bridge, modelled in Dafny

This project models the native half of the App Inventor `FaceExtension`
component, which runs the facemesh landmark detector inside a WebView and
exposes its output to an app. The model has three parts.

- **Request virtualizer** (`virtualizer.dfy`, module `Virtualizer`). This is the WebView
  client's `shouldInterceptRequest`. A request whose URL starts with the model's
  base URL `https://tfhub.dev/mediapipe/tfjs-model/facemesh/1/default/1/` has its
  query cut at the first `?`. It is then served from the bundled asset named by the
  rest of the URL: as `application/json`/`UTF-8` when the cut URL ends in `.json`,
  otherwise as `application/octet-stream`/`binary`. On Lollipop and later the
  response also carries status 200 and `Access-Control-Allow-Origin: *`. Every
  other request, and every model request whose asset cannot be opened, gets the
  default handling.
- **Lifecycle and commands** (`face_extension.dfy`, class `FaceMesh.FaceExtension`).
  The fields are `webviewAttached`, `initialized`, `enabled`, `cameraMode`,
  `backgroundImage` and the landmark map `keyPoints`. The class also keeps two logs
  that the methods append to: `commands`, the scripts evaluated in the WebView
  (`startVideo`, `stopVideo`, `setCameraFacingMode(b)`, `teardown`), and `events`,
  what the component dispatches to the app. The lifecycle methods are `Initialize`,
  `Enabled`, `UseCamera`, `OnPause`, `OnResume`, `OnStop` and `OnDelete`; the
  script callbacks are `Ready`, `ReportImage`, `ReportResult` and `ReportError`.
  `Valid()` is the invariant every method keeps:
  - the camera mode is `Front` or `Back`;
  - the store holds exactly the five landmarks, each `[]` or a triple;
  - no script is ever sent before initialization;
  - a WebView released after receiving scripts was last sent `teardown`.
- **Ingestion** (`landmarks.dfy`, module `Landmarks`). These are pure definitions
  of what `reportResult` and `reportImage` do to the data.
  - `IngestResult` writes forehead, chin, leftCheek, rightCheek and
    leftEyeInnerCorner in that order. The first key that fails to read stops the
    writes, and its message becomes `Error(101, message)`.
  - `StripDataUrl` keeps what follows the first comma of a data URL.

  The lemmas prove which keys hold new values and which keep old ones after a
  partial failure, and that the key set never changes.

`java_strings.dfy` models the Java string operations used (`startsWith`,
`endsWith`, `indexOf`). `scenarios.dfy` replays typical lifecycles against the
class and states the resulting command and event logs.

In this version of the code:
- coordinates are stored as received, with no viewport scaling, and only five
  landmark keys exist;
- `ready()` sends no `startVideo`; when enabled, it only re-applies the camera
  mode, which is sent only once initialized;
- teardown releases the WebView but keeps `initialized`. Setting the WebViewer
  again re-attaches one, so the torn-down state is not terminal;
- an invalid camera mode is reported through the form's `ErrorOccurred` event
  (function `UseCamera`, error number `ERROR_EXTENSION_ERROR`, then the message
  arguments `1`, the log tag and the text), not through the component's `Error` event.

Java exceptions are returned as an `Outcome`:
- `WebViewerNotSet(caller)` is the `IllegalStateException` of `assertWebView`;
- `NullPointer` is the dereference of a missing WebView in `UseCamera`, in
  `ready()` through `UseCamera`, and in the `WebViewer` setter.

The state changes that happen before the exception are kept.

## Model

| member | source | states |
|---|---|---|
| `JavaStrings.IndexOf` | src/com/example/facemesh/FaceExtension.java:112-113 | `indexOf` returns -1 exactly when the character is absent, otherwise a position holding it with none before it |
| `Virtualizer.ModelUrlShape` | src/com/example/facemesh/FaceExtension.java:70-71 | the model base URL contains no `?` and ends in `/` |
| `Virtualizer.CutQuery` | src/com/example/facemesh/FaceExtension.java:112-114 | the cut URL is a prefix of the URL without `?`, and the URL continues after it only with `?` |
| `Virtualizer.CutQueryOf` | src/com/example/facemesh/FaceExtension.java:112-114 | a `?`-free path followed by nothing or a query is cut back to exactly that path |
| `Virtualizer.CutQueryKeepsModelUrl` | src/com/example/facemesh/FaceExtension.java:111-119 | the URL starts with the base URL (`StartsWith`, Java's `startsWith`) iff the cut URL does, so the prefix test can come before the cut and `substring(MODEL_URL.length())` stays in range |
| `Virtualizer.AssetName` | src/com/example/facemesh/FaceExtension.java:118-119 | the asset name has no `?`, base URL + name is a prefix of the URL, and only a query follows it |
| `Virtualizer.ModelResponse` | src/com/example/facemesh/FaceExtension.java:120-134 | content type and charset (`MimeType`, `Encoding`) are `application/json`/`UTF-8` when the path ends in `.json` and `application/octet-stream`/`binary` otherwise; status 200 with `Access-Control-Allow-Origin: *` iff on Lollipop or later; body is the opened stream |
| `Virtualizer.ShouldInterceptRequest` | src/com/example/facemesh/FaceExtension.java:108-141 | URLs not under the base URL pass through; model URLs are served iff their asset opens, with that asset's stream, and carry a status iff on Lollipop or later; a served response is exactly `ModelResponse` of the cut URL, so its content type, charset, status 200 and CORS header follow |
| `Virtualizer.JsonSuffixOfAssetName` | src/com/example/facemesh/FaceExtension.java:121 | base URL + name ends in `.json` (`EndsWith`, Java's `endsWith`) iff the asset name does |
| `Virtualizer.ServedFromAsset` | src/com/example/facemesh/FaceExtension.java:111-140 | a request for base URL + name + optional query is served iff asset `name` opens, with its stream, `application/json`/`UTF-8` when `name` ends in `.json` and `application/octet-stream`/`binary` otherwise, and status 200 with `Access-Control-Allow-Origin: *` exactly on Lollipop or later |
| `Virtualizer.ModelJsonIsJson` | src/com/example/facemesh/FaceExtension.java:111-123 | `model.json?v=2` under the base URL is served as `application/json`, `UTF-8` |
| `Virtualizer.ShardIsBinary` | src/com/example/facemesh/FaceExtension.java:124-127 | `group1-shard1of1.bin` under the base URL is served as `application/octet-stream`, `binary` |
| `Landmarks.InitialStore` | src/com/example/facemesh/FaceExtension.java:91-95 | the constructor's store has exactly the five landmark keys, each mapped to the empty list |
| `Landmarks.WriteLandmarksKeepsKeys` | src/com/example/facemesh/FaceExtension.java:355-373 | `WriteLandmarks`, the five reads and `put`s in order, only overwrites present keys with triples, so the key set and value shapes are preserved |
| `Landmarks.WriteLandmarksSucceedsIff` | src/com/example/facemesh/FaceExtension.java:355-373 | the writes finish without an exception iff every key reads |
| `Landmarks.WriteLandmarksAll` | src/com/example/facemesh/FaceExtension.java:355-373 | when every key reads, each written key holds `AsList` of its point, the `YailList` of `[x, y, z]`, and every other key is unchanged |
| `Landmarks.WriteLandmarksStopsAt` | src/com/example/facemesh/FaceExtension.java:352-382 | when key `j` is the first to fail, its message is reported and the store is exactly the one after the writes before `j` |
| `Landmarks.IngestResult` | src/com/example/facemesh/FaceExtension.java:351-391 | `reportResult` on a frame whose `fields` give, per key, the point or the `JSONException` message of `getJSONObject` and `getDouble`: it keeps the store's five keys and value shapes; it reports no failure exactly when the payload parses and all five landmarks read; an unparseable payload reports its message and changes nothing |
| `Landmarks.IngestResultStoresPoints` | src/com/example/facemesh/FaceExtension.java:354-373 | a frame whose five landmarks read sets every key to its `[x, y, z]`, copied unchanged, and reports no failure |
| `Landmarks.IngestResultPartial` | src/com/example/facemesh/FaceExtension.java:352-389 | when the `j`-th landmark in write order first fails, its message is reported, earlier keys hold their new values and later keys keep their old ones |
| `Landmarks.StripDataUrl` | src/com/example/facemesh/FaceExtension.java:340 | the whole string when there is no comma; otherwise the part after the first comma, with a comma-free part before it |
| `Landmarks.StripDataUrlOf` | src/com/example/facemesh/FaceExtension.java:340 | stripping `header + "," + payload` for a comma-free header gives back `payload` |
| `FaceMesh.FaceExtension.constructor` | src/com/example/facemesh/FaceExtension.java:75-98 | no WebView, not initialized, enabled, front camera, empty background image, five empty landmarks, nothing sent or dispatched |
| `FaceMesh.FaceExtension.WebViewer` | src/com/example/facemesh/FaceExtension.java:170-181 | a given viewer attaches a WebView; with none given and none attached the call ends in a null dereference |
| `FaceMesh.FaceExtension.Initialize` | src/com/example/facemesh/FaceExtension.java:183-187 | sets `initialized` only when a WebView is attached, and otherwise changes nothing |
| `FaceMesh.FaceExtension.Forehead` | src/com/example/facemesh/FaceExtension.java:189-192 | returns the empty list or a triple, through `Landmark`, the stored value of one key |
| `FaceMesh.FaceExtension.Chin` | src/com/example/facemesh/FaceExtension.java:194-197 | returns the empty list or a triple |
| `FaceMesh.FaceExtension.LeftCheek` | src/com/example/facemesh/FaceExtension.java:199-202 | returns the empty list or a triple |
| `FaceMesh.FaceExtension.RightCheek` | src/com/example/facemesh/FaceExtension.java:204-207 | returns the empty list or a triple |
| `FaceMesh.FaceExtension.LeftEyeInnerCorner` | src/com/example/facemesh/FaceExtension.java:209-212 | returns the empty list or a triple |
| `FaceMesh.FaceExtension.Enabled` | src/com/example/facemesh/FaceExtension.java:221-227 | always records the flag; once initialized it sends `startVideo`/`stopVideo`, or without a WebView throws `IllegalStateException` after recording |
| `FaceMesh.FaceExtension.AssertWebView` | src/com/example/facemesh/FaceExtension.java:286-290 | throws exactly when no WebView is attached, naming the caller; `Outcome.Message` formats `ERROR_WEBVIEWER_NOT_SET` with it |
| `FaceMesh.FaceExtension.UseCamera` | src/com/example/facemesh/FaceExtension.java:262-273 | a valid mode (`IsCameraMode`: `Back` or `Front`) is stored and, once initialized, sent as `setCameraFacingMode(mode == "Front")`; an invalid mode changes nothing, sends nothing and dispatches one `ErrorOccurred` |
| `FaceMesh.FaceExtension.OnPause` | src/com/example/facemesh/FaceExtension.java:300-305 | sends `stopVideo` only when initialized with a WebView, and changes no field |
| `FaceMesh.FaceExtension.OnResume` | src/com/example/facemesh/FaceExtension.java:307-312 | sends `startVideo` only when initialized, enabled and with a WebView, and changes no field |
| `FaceMesh.FaceExtension.OnStop` | src/com/example/facemesh/FaceExtension.java:314-320 | when initialized with a WebView, sends `teardown` and releases it; otherwise nothing changes |
| `FaceMesh.FaceExtension.OnDelete` | src/com/example/facemesh/FaceExtension.java:292-298 | the same teardown as `onStop` |
| `FaceMesh.FaceExtension.Ready` | src/com/example/facemesh/FaceExtension.java:322-334 | dispatches `ModelReady` first; when enabled and initialized it re-sends the unchanged camera mode; it never sends `startVideo` |
| `FaceMesh.FaceExtension.ReportImage` | src/com/example/facemesh/FaceExtension.java:336-348 | a null payload does nothing; otherwise the background image becomes the data after the first comma and one `VideoUpdated` is dispatched |
| `FaceMesh.FaceExtension.StoreLandmark` | src/com/example/facemesh/FaceExtension.java:355-357 | one `getJSONObject` and `put`: the key gets its triple, or the store is unchanged and the exception message is returned |
| `FaceMesh.FaceExtension.PutLandmarks` | src/com/example/facemesh/FaceExtension.java:352-373 | the five writes leave the store and failure exactly as `WriteLandmarks` over the write order |
| `FaceMesh.FaceExtension.ReportResult` | src/com/example/facemesh/FaceExtension.java:350-391 | the store becomes the one `IngestResult` gives; exactly one event follows, `FaceUpdated` after all writes or `Error(101, message)` |
| `FaceMesh.FaceExtension.ReportError` | src/com/example/facemesh/FaceExtension.java:393-401 | the script's error is dispatched unchanged as `Error(code, message)` |
| `Scenarios.StartUp` | src/com/example/facemesh/FaceExtension.java:323-334 | `Initialize` without a WebView leaves the component uninitialized; with one, `ready()` gives `ModelReady` and `setCameraFacingMode(true)` only |
| `Scenarios.PauseResume` | src/com/example/facemesh/FaceExtension.java:300-312 | pause then resume sends `stopVideo`, `startVideo` and leaves `enabled` set |
| `Scenarios.ResumeWhileDisabled` | src/com/example/facemesh/FaceExtension.java:307-312 | after `Enabled(false)`, resume sends nothing |
| `Scenarios.TeardownOnce` | src/com/example/facemesh/FaceExtension.java:292-320 | stop, stop, delete, pause and resume send one `teardown` in all; `Enabled` then throws and `UseCamera` dereferences null |
| `Scenarios.InvalidCamera` | src/com/example/facemesh/FaceExtension.java:262-273 | `UseCamera("Sideways")` keeps the previous mode, sends nothing and dispatches one error |

## Left out

- WebView configuration is not modelled: JavaScript settings, the `AppInventorTFJS` interface registration, `requestLayout`, `loadUrl` of `index.html` and hardware acceleration. A WebView is only attached or absent.
- The camera permission flow (`onPermissionRequest`) is not modelled; it is platform UI.
- Opening assets is an oracle returning a stream or nothing. The bytes served are not modelled, and the `IOException` is only "nothing".
- The SDK level is a boolean, "at least Lollipop".
- `runOnUiThread` and `EventDispatcher.dispatchEvent` are modelled as appending to the event log at the call. Thread hand-off is not modelled, and neither is the concurrency of the `ConcurrentHashMap` (a plain map here).
- `org.json` parsing is not modelled. A frame is the parse outcome: a failure message, or for every key a point or the message of the exception reading it, missing keys included. The wording of those messages belongs to the JSON library on the device and is not fixed by the model.
- Coordinates are Java doubles that are only copied, modelled as opaque `real` values. No floating-point behaviour is modelled.
- `FaceMesh.FaceExtension.UseCamera`: a `null` mode is not modelled because the model's strings cannot be null. In Java it falls into the invalid-mode branch.
- The numeric value of `ErrorMessages.ERROR_EXTENSION_ERROR`, passed to the form's `ErrorOccurred`, is not part of this model.
- Logging (`Log.d`, `Log.e`, `printStackTrace`) is not modelled.
- The getters `Enabled()`, `UseCamera()` and `BackgroundImage()` are the fields `enabled`, `cameraMode` and `backgroundImage` of the class.
- `src/com/example/facemesh/assets/app.js` is not part of this model. It is the script side, with camera set-up, drawing and the detector. Its functions appear only as the commands in the log.
