/**
 * Clients of `FaceExtension` that replay the lifecycle the app and the
 * script go through, and return what the component sent and dispatched.
 */
module Scenarios {
  import opened Wrappers
  import opened FaceMesh

  /**
   * `Initialize` before a WebViewer is set does nothing; once one is, the
   * component initializes, and the script's `ready()` dispatches `ModelReady`
   * and applies the default front camera, without a `startVideo`.
   */
  method StartUp() returns (initializedWithoutView: bool, commands: seq<Command>, events: seq<Event>)
    ensures !initializedWithoutView
    ensures commands == [SetCameraFacingMode(true)]
    ensures events == [ModelReady]
  {
    var extension := new FaceExtension();
    extension.Initialize();
    initializedWithoutView := extension.initialized;
    var attached := extension.WebViewer(true);
    extension.Initialize();
    var ready := extension.Ready();
    commands, events := extension.commands, extension.events;
  }

  /** Pausing stops the video and resuming restarts it; neither touches the enabled flag. */
  method PauseResume() returns (enabled: bool, commands: seq<Command>)
    ensures enabled
    ensures commands == [StopVideo, StartVideo]
  {
    var extension := new FaceExtension();
    var attached := extension.WebViewer(true);
    extension.Initialize();
    extension.OnPause();
    extension.OnResume();
    enabled, commands := extension.enabled, extension.commands;
  }

  /** A disabled component is not restarted on resume. */
  method ResumeWhileDisabled() returns (commands: seq<Command>)
    ensures commands == [StopVideo]
  {
    var extension := new FaceExtension();
    var attached := extension.WebViewer(true);
    extension.Initialize();
    var disabled := extension.Enabled(false);
    extension.OnResume();
    commands := extension.commands;
  }

  /**
   * Stop and delete send one `teardown` between them; afterwards the lifecycle
   * sends nothing, `Enabled` throws and `UseCamera` dereferences the released WebView.
   */
  method TeardownOnce() returns (commands: seq<Command>, enabling: Outcome, switching: Outcome)
    ensures commands == [Teardown]
    ensures enabling == WebViewerNotSet("Enabled")
    ensures switching == NullPointer
  {
    var extension := new FaceExtension();
    var attached := extension.WebViewer(true);
    extension.Initialize();
    extension.OnStop();
    extension.OnStop();
    extension.OnDelete();
    extension.OnPause();
    extension.OnResume();
    enabling := extension.Enabled(true);
    switching := extension.UseCamera(BackCamera);
    commands := extension.commands;
  }

  /** An invalid camera mode keeps the previous mode, sends nothing and reports one error. */
  method InvalidCamera() returns (mode: string, commands: seq<Command>, events: seq<Event>)
    ensures mode == BackCamera
    ensures commands == [SetCameraFacingMode(false)]
    ensures events == [ErrorOccurred("UseCamera", 1, LogTag, InvalidCameraMessage)]
  {
    var extension := new FaceExtension();
    var attached := extension.WebViewer(true);
    extension.Initialize();
    var switched := extension.UseCamera(BackCamera);
    var rejected := extension.UseCamera("Sideways");
    mode, commands, events := extension.cameraMode, extension.commands, extension.events;
  }
}
