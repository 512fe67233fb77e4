/**
 * The FaceExtension component: the native side of the bridge between an
 * App Inventor app and the facemesh model running in a WebView.
 *
 * The WebView is reduced to whether one is attached. Every script the
 * extension evaluates in it (`startVideo();`, `stopVideo();`,
 * `setCameraFacingMode(b);`, `teardown();`) is appended to `commands`, and
 * every event it dispatches to the app, on the UI thread or directly, to
 * `events`, in the order the calls happen. The Java exceptions the component
 * can raise are returned as an `Outcome`.
 */
module FaceMesh {
  import opened Wrappers
  import opened Landmarks

  const FrontCamera: string := "Front"
  const BackCamera: string := "Back"

  /** The component's log tag, its class's simple name. */
  const LogTag: string := "FaceExtension"

  const InvalidCameraMessage: string := "Invalid camera selection. Must be either 'Front' or 'Back'."

  /** Scripts evaluated in the WebView. */
  datatype Command = StartVideo | StopVideo | SetCameraFacingMode(frontFacing: bool) | Teardown

  /**
   * Events dispatched to the app: the component's own four events, and the
   * form's `ErrorOccurred` raised for an invalid camera mode. Its error number
   * is always `ErrorMessages.ERROR_EXTENSION_ERROR`, which is left out;
   * `extensionCode` is the first message argument that follows it.
   */
  datatype Event =
    | ModelReady
    | Error(code: int, message: string)
    | FaceUpdated
    | VideoUpdated
    | ErrorOccurred(functionName: string, extensionCode: int, tag: string, message: string)

  /**
   * How a call ends: normally, with the `IllegalStateException` of
   * `assertWebView` called from `caller`, or with a `NullPointerException`.
   */
  datatype Outcome = Ok | WebViewerNotSet(caller: string) | NullPointer {
    /** The exception's message. */
    function Message(): string
      requires WebViewerNotSet?
    {
      "You must specify a WebViewer using the WebViewer designer property before you can call " + caller
    }
  }

  predicate IsCameraMode(mode: string) {
    mode == FrontCamera || mode == BackCamera
  }

  class FaceExtension {
    /** Whether a WebView is attached (`webview != null`). */
    var webviewAttached: bool
    var initialized: bool
    var enabled: bool
    var cameraMode: string
    var backgroundImage: string
    var keyPoints: Store
    /** Scripts evaluated in the WebView so far, oldest first. */
    var commands: seq<Command>
    /** Events dispatched to the app so far, oldest first. */
    var events: seq<Event>

    /**
     * The component's invariant: the camera mode is always a valid one, the
     * store holds exactly the five landmarks, no script was ever evaluated
     * before initialization, and a detached WebView that had received scripts
     * was last sent `teardown`.
     */
    ghost predicate Valid()
      reads this
    {
      && IsCameraMode(cameraMode)
      && StoreShape(keyPoints)
      && (commands != [] ==> initialized)
      && (!webviewAttached && commands != [] ==> commands[|commands| - 1] == Teardown)
    }

    constructor ()
      ensures Valid()
      ensures !webviewAttached && !initialized && enabled
      ensures cameraMode == FrontCamera && backgroundImage == ""
      ensures keyPoints == InitialStore()
      ensures commands == [] && events == []
    {
      webviewAttached := false;
      initialized := false;
      enabled := true;
      cameraMode := FrontCamera;
      backgroundImage := "";
      keyPoints := InitialStore();
      commands := [];
      events := [];
    }

    /**
     * The `WebViewer` designer property: attaches the viewer's WebView when
     * one is given; with none given and none attached, the call dereferences null.
     */
    method WebViewer(viewer: bool) returns (outcome: Outcome)
      requires Valid()
      modifies this`webviewAttached
      ensures Valid()
      ensures webviewAttached == (old(webviewAttached) || viewer)
      ensures outcome == if webviewAttached then Ok else NullPointer
    {
      if viewer {
        webviewAttached := true;
      }
      outcome := if webviewAttached then Ok else NullPointer;
    }

    /** Marks the component initialized, but only when a WebView is attached. */
    method Initialize()
      requires Valid()
      modifies this`initialized
      ensures Valid()
      ensures initialized == (old(initialized) || webviewAttached)
    {
      if webviewAttached {
        initialized := true;
      }
    }

    /** The stored value of landmark `key`: its current `[x, y, z]`, or `[]` until a frame writes it. */
    function Landmark(key: string): (r: seq<Coord>)
      requires Valid() && key in LandmarkKeys
      reads this
      ensures r == [] || |r| == 3
    {
      keyPoints[key]
    }

    function Forehead(): (r: seq<Coord>)
      requires Valid()
      reads this
      ensures r == [] || |r| == 3
    {
      Landmark("forehead")
    }

    function Chin(): (r: seq<Coord>)
      requires Valid()
      reads this
      ensures r == [] || |r| == 3
    {
      Landmark("chin")
    }

    function LeftCheek(): (r: seq<Coord>)
      requires Valid()
      reads this
      ensures r == [] || |r| == 3
    {
      Landmark("leftCheek")
    }

    function RightCheek(): (r: seq<Coord>)
      requires Valid()
      reads this
      ensures r == [] || |r| == 3
    {
      Landmark("rightCheek")
    }

    function LeftEyeInnerCorner(): (r: seq<Coord>)
      requires Valid()
      reads this
      ensures r == [] || |r| == 3
    {
      Landmark("leftEyeInnerCorner")
    }

    /**
     * The `Enabled` setter: records the flag and, once initialized, starts or
     * stops the video; initialized without a WebView, it throws after recording.
     */
    method Enabled(b: bool) returns (outcome: Outcome)
      requires Valid()
      modifies this`enabled, this`commands
      ensures Valid()
      ensures enabled == b
      ensures outcome == if initialized && !webviewAttached then WebViewerNotSet("Enabled") else Ok
      ensures commands == old(commands) + if initialized && webviewAttached then [if b then StartVideo else StopVideo] else []
    {
      enabled := b;
      outcome := Ok;
      if initialized {
        outcome := AssertWebView("Enabled");
        if outcome.Ok? {
          commands := commands + [if b then StartVideo else StopVideo];
        }
      }
    }

    /** `assertWebView`: the `IllegalStateException` raised when no WebView is attached. */
    method AssertWebView(caller: string) returns (outcome: Outcome)
      ensures outcome == if webviewAttached then Ok else WebViewerNotSet(caller)
    {
      outcome := if webviewAttached then Ok else WebViewerNotSet(caller);
    }

    /**
     * The `UseCamera` setter: a valid mode is stored and, once initialized,
     * sent to the script (dereferencing the WebView, so a detached one throws);
     * any other mode is reported through `ErrorOccurred` and changes nothing.
     */
    method UseCamera(mode: string) returns (outcome: Outcome)
      requires Valid()
      modifies this`cameraMode, this`commands, this`events
      ensures Valid()
      ensures IsCameraMode(mode) ==>
        && cameraMode == mode
        && events == old(events)
        && commands == old(commands) + (if initialized && webviewAttached then [SetCameraFacingMode(mode == FrontCamera)] else [])
        && outcome == (if initialized && !webviewAttached then NullPointer else Ok)
      ensures !IsCameraMode(mode) ==>
        && cameraMode == old(cameraMode)
        && commands == old(commands)
        && events == old(events) + [ErrorOccurred("UseCamera", 1, LogTag, InvalidCameraMessage)]
        && outcome == Ok
    {
      outcome := Ok;
      if IsCameraMode(mode) {
        cameraMode := mode;
        if initialized {
          if webviewAttached {
            commands := commands + [SetCameraFacingMode(mode == FrontCamera)];
          } else {
            outcome := NullPointer;
          }
        }
      } else {
        events := events + [ErrorOccurred("UseCamera", 1, LogTag, InvalidCameraMessage)];
      }
    }

    /** `onPause`: stops the video of a live, initialized WebView. */
    method OnPause()
      requires Valid()
      modifies this`commands
      ensures Valid()
      ensures commands == old(commands) + if initialized && webviewAttached then [StopVideo] else []
    {
      if initialized && webviewAttached {
        commands := commands + [StopVideo];
      }
    }

    /** `onResume`: restarts the video of a live, initialized and enabled WebView. */
    method OnResume()
      requires Valid()
      modifies this`commands
      ensures Valid()
      ensures commands == old(commands) + if initialized && enabled && webviewAttached then [StartVideo] else []
    {
      if initialized && enabled && webviewAttached {
        commands := commands + [StartVideo];
      }
    }

    /** `onStop`: tears down the script and releases the WebView. */
    method OnStop()
      requires Valid()
      modifies this`commands, this`webviewAttached
      ensures Valid()
      ensures old(initialized && webviewAttached) ==> commands == old(commands) + [Teardown] && !webviewAttached
      ensures !old(initialized && webviewAttached) ==> commands == old(commands) && webviewAttached == old(webviewAttached)
    {
      if initialized && webviewAttached {
        commands := commands + [Teardown];
        webviewAttached := false;
      }
    }

    /** `onDelete`: the same teardown as `onStop`. */
    method OnDelete()
      requires Valid()
      modifies this`commands, this`webviewAttached
      ensures Valid()
      ensures old(initialized && webviewAttached) ==> commands == old(commands) + [Teardown] && !webviewAttached
      ensures !old(initialized && webviewAttached) ==> commands == old(commands) && webviewAttached == old(webviewAttached)
    {
      if initialized && webviewAttached {
        commands := commands + [Teardown];
        webviewAttached := false;
      }
    }

    /**
     * The script's `ready()` callback: `ModelReady` first, then, when enabled,
     * the current camera mode applied again through `UseCamera`.
     */
    method Ready() returns (outcome: Outcome)
      requires Valid()
      modifies this`cameraMode, this`commands, this`events
      ensures Valid()
      ensures cameraMode == old(cameraMode)
      ensures events == old(events) + [ModelReady]
      ensures commands == old(commands) + if enabled && initialized && webviewAttached then [SetCameraFacingMode(cameraMode == FrontCamera)] else []
      ensures outcome == if enabled && initialized && !webviewAttached then NullPointer else Ok
    {
      events := events + [ModelReady];
      outcome := Ok;
      if enabled {
        outcome := UseCamera(cameraMode);
      }
    }

    /** The script's `reportImage(dataUrl)` callback; `None` is a null payload. */
    method ReportImage(dataUrl: Option<string>)
      requires Valid()
      modifies this`backgroundImage, this`events
      ensures Valid()
      ensures dataUrl.None? ==> backgroundImage == old(backgroundImage) && events == old(events)
      ensures dataUrl.Some? ==> backgroundImage == StripDataUrl(dataUrl.value) && events == old(events) + [VideoUpdated]
    {
      if dataUrl.Some? {
        backgroundImage := StripDataUrl(dataUrl.value);
        events := events + [VideoUpdated];
      }
    }

    /**
     * One `getJSONObject` and `put` of `reportResult`: the first of the
     * `pending` writes, leaving the others pending unless it fails.
     */
    method StoreLandmark(fields: Fields, key: string, ghost pending: seq<string>) returns (failure: Option<string>)
      requires pending != [] && pending[0] == key
      modifies this`keyPoints
      ensures fields(key).Found? ==> failure == None && keyPoints == old(keyPoints)[key := AsList(fields(key).point)]
      ensures fields(key).Failed? ==> failure == Some(fields(key).message) && keyPoints == old(keyPoints)
      ensures WriteLandmarks(old(keyPoints), fields, pending)
        == if failure.Some? then Ingest(keyPoints, failure) else WriteLandmarks(keyPoints, fields, pending[1..])
    {
      match fields(key)
      case Found(p) =>
        keyPoints := keyPoints[key := AsList(p)];
        failure := None;
      case Failed(message) =>
        failure := Some(message);
    }

    /**
     * The body of the `try` in `reportResult`: the five landmarks written in
     * order until one fails to read, whose message is returned.
     */
    method PutLandmarks(fields: Fields) returns (failure: Option<string>)
      modifies this`keyPoints
      ensures Ingest(keyPoints, failure) == WriteLandmarks(old(keyPoints), fields, WriteOrder)
    {
      failure := StoreLandmark(fields, "forehead", WriteOrder[0..]);
      if failure.Some? {
        return;
      }
      failure := StoreLandmark(fields, "chin", WriteOrder[1..]);
      if failure.Some? {
        return;
      }
      failure := StoreLandmark(fields, "leftCheek", WriteOrder[2..]);
      if failure.Some? {
        return;
      }
      failure := StoreLandmark(fields, "rightCheek", WriteOrder[3..]);
      if failure.Some? {
        return;
      }
      failure := StoreLandmark(fields, "leftEyeInnerCorner", WriteOrder[4..]);
    }

    /**
     * The script's `reportResult(json)` callback: the five landmarks are
     * written in order; the first `JSONException` stops the writes and is
     * reported as `Error(101, message)`, otherwise `FaceUpdated` follows them.
     */
    method ReportResult(frame: Frame)
      requires Valid()
      modifies this`keyPoints, this`events
      ensures Valid()
      ensures keyPoints == IngestResult(old(keyPoints), frame).store
      ensures events == old(events) + match IngestResult(old(keyPoints), frame).failure
        case None => [FaceUpdated]
        case Some(message) => [Error(ErrorJsonParseFailed, message)]
    {
      assert StoreShape(IngestResult(keyPoints, frame).store);
      match frame
      case Unparseable(message) =>
        events := events + [Error(ErrorJsonParseFailed, message)];
      case Parsed(fields) =>
        var failure := PutLandmarks(fields);
        match failure
        case None =>
          events := events + [FaceUpdated];
        case Some(message) =>
          events := events + [Error(ErrorJsonParseFailed, message)];
    }

    /** The script's `error(code, message)` callback, passed on as the `Error` event. */
    method ReportError(code: int, message: string)
      requires Valid()
      modifies this`events
      ensures Valid()
      ensures events == old(events) + [Error(code, message)]
    {
      events := events + [Error(code, message)];
    }
  }
}
