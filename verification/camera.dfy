/** The SOS camera (`handleSOS`, `startRecording`, `stopRecording` and the
    buttons of the camera view). Its state is the `cameraVisible` and
    `isRecording` flags, plus the number of recordings the camera has been
    asked for whose result the app is still awaiting. The device's answers
    are inputs: the current camera permission (absent while it is still
    loading), whether the camera view is mounted, and the file a finished
    recording yields. */
module Camera {
  import opened Platform

  /** The camera permission as the device reports it. */
  datatype Permission = Permission(granted: bool)

  datatype Camera = Camera(cameraVisible: bool, isRecording: bool, pending: nat)

  /** The camera when the app has just started. */
  const Hidden: Camera := Camera(false, false, 0)

  /** The SOS button: always shows the camera view; asks for the camera
      permission exactly when it is not known to be granted. */
  function HandleSos(c: Camera, permission: Option<Permission>): (r: Step<Camera>)
    ensures r.state == c.(cameraVisible := true)
    ensures RequestCameraPermission in r.effects <==> (permission.None? || !permission.value.granted)
    ensures forall e :: e in r.effects ==> e == RequestCameraPermission
    ensures |r.effects| <= 1
  {
    if permission.None? || !permission.value.granted then Step(c.(cameraVisible := true), [RequestCameraPermission])
    else Step(c.(cameraVisible := true), [])
  }

  /** `startRecording` up to its await: without a mounted camera view it
      returns at once; otherwise it asks the camera for one recording. */
  function StartRecording(c: Camera, hasCameraView: bool): (r: Step<Camera>)
    ensures r.state.cameraVisible == c.cameraVisible && r.state.isRecording == c.isRecording
    ensures hasCameraView ==> r.state.pending == c.pending + 1 && r.effects == [RecordVideo]
    ensures !hasCameraView ==> r == Step(c, [])
  {
    if !hasCameraView then Step(c, [])
    else Step(c.(pending := c.pending + 1), [RecordVideo])
  }

  /** The "Start Recording" button: raises the recording flag first, then
      starts the recording; without a mounted view the flag stays up with
      nothing being recorded. */
  function PressStartRecording(c: Camera, hasCameraView: bool): (r: Step<Camera>)
    ensures r.state.isRecording && r.state.cameraVisible == c.cameraVisible
    ensures Count(r.effects, IsRecord) == (if hasCameraView then 1 else 0)
    ensures r.state.pending == c.pending + (if hasCameraView then 1 else 0)
    ensures |r.effects| == Count(r.effects, IsRecord)
  {
    var r := StartRecording(c.(isRecording := true), hasCameraView);
    assert hasCameraView ==> r.effects[1..] == [];
    r
  }

  /** The rest of `startRecording`, when an awaited recording yields its
      file: both flags drop and the file goes to the gallery exactly once.
      With no recording awaited there is nothing to resolve. */
  function RecordingDone(c: Camera, uri: string): (r: Step<Camera>)
    ensures c.pending > 0 ==> !r.state.cameraVisible && !r.state.isRecording && r.state.pending + 1 == c.pending
    ensures c.pending > 0 ==> r.effects == [SaveVideo(uri)]
    ensures c.pending == 0 ==> r == Step(c, [])
  {
    if c.pending == 0 then Step(c, [])
    else Step(Camera(false, false, c.pending - 1), [SaveVideo(uri)])
  }

  /** `stopRecording` (the "Stop Recording" button): tells a mounted camera
      to stop and drops the recording flag itself, without waiting for the
      recording to come back. */
  function StopRecording(c: Camera, hasCameraView: bool): (r: Step<Camera>)
    ensures !r.state.isRecording
    ensures r.state.cameraVisible == c.cameraVisible && r.state.pending == c.pending
    ensures StopVideo in r.effects <==> hasCameraView
    ensures Count(r.effects, IsSave) == 0 && Count(r.effects, IsRecord) == 0
    ensures |r.effects| == (if hasCameraView then 1 else 0)
  {
    var calls := if hasCameraView then [StopVideo] else [];
    assert hasCameraView ==> calls[1..] == [];
    Step(c.(isRecording := false), calls)
  }

  /** The "Close Camera" button: hides the view and changes nothing else,
      even while recording. */
  function PressCloseCamera(c: Camera): (r: Step<Camera>)
    ensures !r.state.cameraVisible
    ensures r.state.isRecording == c.isRecording && r.state.pending == c.pending
    ensures r.effects == []
  {
    Step(c.(cameraVisible := false), [])
  }

  /** The buttons the screen offers. */
  datatype Control = SosButton | StartRecordingButton | StopRecordingButton | CloseCameraButton

  function Controls(c: Camera): set<Control>
  {
    if !c.cameraVisible then {SosButton}
    else if c.isRecording then {StopRecordingButton, CloseCameraButton}
    else {StartRecordingButton, CloseCameraButton}
  }

  /** While the view is shown, exactly one of start and stop is offered,
      chosen by the recording flag, and "Close Camera" is offered whether
      or not a recording is running; SOS is offered only with the view
      hidden. */
  lemma ControlsOffered(c: Camera)
    ensures SosButton in Controls(c) <==> !c.cameraVisible
    ensures StartRecordingButton in Controls(c) <==> c.cameraVisible && !c.isRecording
    ensures StopRecordingButton in Controls(c) <==> c.cameraVisible && c.isRecording
    ensures CloseCameraButton in Controls(c) <==> c.cameraVisible
  {
  }

  /** What drives the camera: the buttons and finished recordings. */
  datatype Event =
    | Sos(permission: Option<Permission>)
    | StartPressed(hasCameraView: bool)
    | StopPressed(hasCameraView: bool)
    | ClosePressed
    | Recorded(uri: string)

  function Handle(c: Camera, e: Event): Step<Camera>
  {
    match e
    case Sos(p) => HandleSos(c, p)
    case StartPressed(v) => PressStartRecording(c, v)
    case StopPressed(v) => StopRecording(c, v)
    case ClosePressed => PressCloseCamera(c)
    case Recorded(uri) => RecordingDone(c, uri)
  }

  /** The camera after a series of events, handled one after the other. */
  function Run(c: Camera, events: seq<Event>): Step<Camera>
    decreases |events|
  {
    if |events| == 0 then Step(c, [])
    else
      var first := Handle(c, events[0]);
      var rest := Run(first.state, events[1..]);
      Step(rest.state, first.effects + rest.effects)
  }

  /** One event never hands more recordings to the gallery than it resolves. */
  lemma HandleBalances(c: Camera, e: Event)
    ensures Count(Handle(c, e).effects, IsSave) + Handle(c, e).state.pending
            == Count(Handle(c, e).effects, IsRecord) + c.pending
  {
  }

  /** Every file handed to the gallery comes from a recording the camera was
      asked for, and each recording is handed over at most once: over any
      run, saves plus recordings still awaited equal recordings started plus
      those awaited at the outset. */
  lemma {:induction false} SavesMatchRecordings(c: Camera, events: seq<Event>)
    ensures Count(Run(c, events).effects, IsSave) + Run(c, events).state.pending
            == Count(Run(c, events).effects, IsRecord) + c.pending
    decreases |events|
  {
    if |events| > 0 {
      var first := Handle(c, events[0]);
      var rest := Run(first.state, events[1..]);
      HandleBalances(c, events[0]);
      SavesMatchRecordings(first.state, events[1..]);
      CountAppend(first.effects, rest.effects, IsSave);
      CountAppend(first.effects, rest.effects, IsRecord);
    }
  }

  /** Closing the view while recording leaves the recording flag up with the
      view hidden; reopening it offers "Stop Recording" rather than "Start
      Recording" until the recording comes back. */
  lemma CloseWhileRecordingKeepsFlag()
    ensures var recording := Run(Hidden, [Sos(Some(Permission(true))), StartPressed(true)]).state;
            var closed := PressCloseCamera(recording).state;
            && recording.isRecording && recording.pending == 1
            && !closed.cameraVisible && closed.isRecording
            && Controls(HandleSos(closed, Some(Permission(true))).state) == {StopRecordingButton, CloseCameraButton}
  {
  }
}
