# Safety-alert app: live-location sharing and SOS capture, modelled in Dafny

The app shows the user's position on a map. It can text the live location to a
list of contacts whenever the position changes. An "SOS" button opens a camera
view that records a video and files it in a gallery album named `SOSApp`. This
project models the app's own sequential logic around those features. All
device services are treated as collaborators: their answers are arguments. The
calls the app makes on the position, messaging, notification and camera
services, including the messaging availability query, are recorded as
`Platform.Effect` values. The media-library calls of the gallery save are
recorded as `Gallery.Call` values. `Platform.Effect` also records, as
`SaveVideo`, the hand-off of a finished recording to the app's own gallery
save.

- `Platform`: the device-service calls (`Effect`), `Option`, a state-plus-calls
  `Step`, and counting helpers over call logs.
- `Notices`: the notification texts and the comma join used in the failure notice.
- `LiveLocation`: one location share (`sendLiveLocation`). `Share` is the
  reference definition. `SendLiveLocation` is the send loop as the app runs it,
  proved equal to `Share`.
- `Sharing`: the sharing session (`startSharingLocation`, `stopSharingLocation`,
  the position callback). It is an immutable `Session` with pure transitions and
  a `Run` over button presses and position reports.
- `Camera`: the SOS camera (`handleSOS`, `startRecording`, `stopRecording` and
  the camera-view buttons). It is an immutable `Camera` record with pure
  transitions and a `Run` over events.
- `Gallery`: `saveVideoToGallery` over an abstract media store. The store holds
  assets and a map from album name to that album's assets.

Collaborator answers that are inputs:
- whether messaging is available, and the result string of each send attempt;
- the handle a position subscription returns;
- the camera permission, or none while it is still loading;
- whether the camera view is mounted (the camera ref is set);
- the media-library permission, before and after a request;
- what asset creation returns.

Points where the code's behaviour may be unexpected; the model follows the code in each:
- **Stop keeps the handle.** Stopping the sharing session does not clear the
  stored subscription handle. The session is therefore not "handle present iff
  sharing", only "sharing implies handle present" (`Sharing.Valid`). A stop with
  sharing already off calls `remove()` again on the old handle, if a session
  ever ran.
- **Stop Recording clears the flag.** `stopRecording` clears `isRecording`
  itself. It does not wait for the recording to come back.
- **Close Camera while recording.** "Close Camera" is offered while recording.
  Pressing it hides the view, leaves `isRecording` set and the recording still
  awaited, and a reopened view offers "Stop Recording".
- **Start Recording has no guard.** Pressing "Start Recording" raises
  `isRecording` before `startRecording` checks for a mounted camera. With no
  camera mounted, the flag stays raised and nothing is recorded.
- **Album contents.** The album step adds the new asset to `SOSApp` exactly once
  (one more occurrence in the album's multiset). It does not deduplicate assets
  that were already there.

## Model

| member | source | states |
|---|---|---|
| LiveLocation.Share | App.js:94-119 | SMS unavailable: no message sent, nothing failed, the one notice is "SMS is not available on this device.". Available: one message per recipient, in list order, with the location text; the failed list is exactly the recipients at the failed positions, in list order and each once; the notice is "Live location has been sent!" iff every result is "sent", otherwise "Failed to send location to: " followed by the failed recipients joined with ", " |
| LiveLocation.FailedAreTheUndelivered | App.js:101-105 | every recipient whose result is not "sent" is listed as failed, and every listed recipient had such a result |
| LiveLocation.SendLiveLocation | App.js:98-118 | the sequential send loop (one awaited send per recipient, a failure does not stop the loop, failures pushed as they occur) produces exactly the reference share |
| LiveLocation.FailedIndices | App.js:100-106 | the failed positions are strictly increasing and in range, and a position is among them iff its result is not "sent", so the failures keep the recipients' order |
| LiveLocation.DispatchNotice | App.js:109-115 | the success text is chosen iff no recipient failed; otherwise the text is the failure prefix followed by the joined failures |
| LiveLocation.ExactlyOneNotification | App.js:98-118 | on either path a share first asks whether messaging is available, and emits exactly one notification, after all of its messages, never one per recipient |
| LiveLocation.FailuresListedInOrder | App.js:100-112 | with recipients A, B, C, where B is cancelled and C unknown, the notice reads "Failed to send location to: B, C" |
| Notices.JoinSplit | App.js:111 | splitting the failed list at any inner point splits the joined text at exactly one separator, so the text is the parts in order with one ", " between neighbours |
| Sharing.Start | App.js:121-138 | while sharing: no state change and no call at all. Otherwise: exactly two calls. First one subscription with high accuracy, 10000 ms and 20 m, then one notification, "Live location sharing started."; the returned handle is stored and sharing is on |
| Sharing.Stop | App.js:140-146 | always ends with sharing off and exactly one notification "Live location sharing stopped."; removes the stored subscription once iff a handle is stored, and makes no other call; keeps the handle |
| Sharing.OnPosition | App.js:130-133 | a position report records the position, leaves the sharing flag and handle alone, and makes exactly the calls of one share of that position (the availability query, its messages, then its one notification), with no subscription or removal call |
| Sharing.RunKeepsValid | App.js:121-146 | over any series of presses and reports, sharing implies a stored handle |
| Sharing.StartsWhileSharingDoNothing | App.js:122 | while sharing, any number of start presses leaves the session unchanged and makes no call |
| Sharing.RepeatedStartSubscribesOnce | App.js:121-137 | start pressed repeatedly without a stop: one subscription, the first handle kept, one "started" notification |
| Sharing.OneNotificationPerUpdate | App.js:130-133 | n position reports yield exactly n notifications, make no subscription and no removal call, and leave the sharing flag and handle unchanged |
| Sharing.SecondStopRemovesStaleHandle | App.js:140-146 | after start then stop, a second stop removes the same old subscription again and notifies again |
| Sharing.OfferedButtonToggles | App.js:232-296 | while the map screen is shown, exactly one sharing button is shown, chosen by the sharing flag, and pressing it always flips that flag; while the camera view is shown, no sharing button is offered |
| Camera.HandleSos | App.js:216-224 | SOS always shows the camera view and changes nothing else; it requests the camera permission iff the permission is missing or not granted, and makes no other call |
| Camera.StartRecording | App.js:200-203 | with no mounted camera it returns with nothing changed; otherwise it asks for exactly one recording and leaves both flags alone |
| Camera.PressStartRecording | App.js:236-241 | the start button always raises the recording flag; one recording is requested iff the camera is mounted |
| Camera.RecordingDone | App.js:203-206 | when an awaited recording resolves, the view is hidden, the flag cleared, and its file handed to the gallery exactly once; with nothing awaited, nothing happens |
| Camera.StopRecording | App.js:209-214 | always clears the recording flag; tells the camera to stop iff it is mounted; leaves the view and the awaited recordings alone |
| Camera.PressCloseCamera | App.js:250-255 | "Close Camera" hides the view and changes nothing else, even while recording |
| Camera.ControlsOffered | App.js:232-282 | with the view shown, "Start Recording" is offered iff not recording, "Stop Recording" iff recording, and "Close Camera" always; SOS is offered iff the view is hidden |
| Camera.HandleBalances | App.js:200-214 | for one event, gallery hand-overs plus awaited recordings balance recordings requested plus those awaited before |
| Camera.SavesMatchRecordings | App.js:200-207 | over any run of events, files handed to the gallery plus recordings still awaited equal recordings requested plus those awaited at the start: every save comes from one recording, and no recording is saved twice |
| Camera.CloseWhileRecordingKeepsFlag | App.js:235-255 | SOS, start, then close: the view is hidden with the recording flag still set; reopening offers Stop and Close, not Start |
| Gallery.SaveVideoToGallery | App.js:166-198 | a denied permission leaves the store untouched and reports the denial; the save is reported iff permission ends up granted and an asset is created; a missing or failed asset leaves the store untouched; after a save the asset is in the library, the album names gain exactly `SOSApp`, `SOSApp` holds the asset once more than before, and every other album is unchanged |
| Gallery.SaveCallsFollowFlow | App.js:169-190 | calls run in flow order, each kind at most once, starting with the permission check; permission is requested iff not already granted; asset creation is called iff permission ends up granted, so a denial makes no call past the request; album calls happen only on a successful save |
| Gallery.AlbumBranchesExclusive | App.js:185-190 | the asset is added to an existing `SOSApp` album iff one exists; the album is created with the asset iff none does; that album call is the last call of the flow |
| Gallery.NoAssetNoAlbumCalls | App.js:179-182 | if asset creation yields nothing usable, no album call is made, the store is unchanged, and a failure is reported |
| Gallery.TwoSavesShareOneAlbum | App.js:185-190 | two saves starting from no `SOSApp` album leave one `SOSApp` album holding both assets in save order; the second save adds to it and does not create it |

## Left out

- Rendering, the map, styles and the splash screen (App.js:63-81, App.js:229-352, components/splash.js) are presentation only. The model keeps just which buttons are offered.
- The mount-time location and notification permission requests and the initial position fetch (App.js:37-61): platform set-up. Permissions are inputs.
- The notification handler configuration and the notification title (App.js:15-21, App.js:84-92): a notification is modelled by its body only.
- The text-message body interpolates floating-point coordinates (App.js:96). Latitude and longitude are opaque strings as the runtime renders them.
- The single hard-coded recipient (App.js:95) is generalised to any sequence of recipients.
- Asynchronous interleaving is not modelled; transitions are sequential steps. This covers the window before `isSharing` is set after the awaited subscription, which allows a double start, and overlapping shares from successive position reports. It also covers a share still running after a stop, and what the camera does to a recording when its view unmounts.
- Gallery.SaveVideoToGallery: the report is the first alert the flow attempts, not what reaches the user. `Alert` is not imported (App.js:2). So the denial alert (App.js:173) or the success alert (App.js:192) throws inside the try and control falls into the catch (App.js:194-197). The catch's own alert throws as well and the save's promise rejects, so no report reaches the user. For the same reason the success notification (App.js:193) is never scheduled and is not modelled.
- Gallery.SaveVideoToGallery: failures of the permission, album-lookup and album-update calls themselves are not modelled, only failures of asset creation. All of them would end in the same error report.
- LiveLocation.Share: every messaging call is assumed to answer. `sendLiveLocation` has no error handling (App.js:98-106). If the availability check or a send is rejected, the share ends there with no notification, so one notification per share holds only when every call answers.
- Sharing.Start: the subscription is assumed to succeed. If `watchPositionAsync` is rejected (App.js:124), the start ends with sharing still off, no handle stored and no notification.
- Camera.RecordingDone: a recording is assumed to come back with a file. If `recordAsync` is rejected (App.js:203), both flags stay as they were and nothing is saved. If it comes back without a file, the flags are cleared and reading its `uri` fails (App.js:204-206), so nothing is saved. Camera.SavesMatchRecordings is stated over runs in which every awaited recording resolves with a file.
- Which position reports the service still delivers after `remove()` is up to the service. `Sharing.OnPosition` handles any report it is given.
- The camera permission hook's state is not kept; each SOS press receives the current permission as an input.
- The `errorMsg` and loading screens (App.js:148-162) are presentation only.
