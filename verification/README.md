# Webcam demo: the capture lifecycle of a screen, in Dafny

The demo is a four-screen WinForms application. Each screen derives from
`BaseForm`, which shows a live webcam feed in a picture box. When a screen
loads, it starts the camera. When the user pages forward or back, the camera
is stopped. When the screen closes, the camera is stopped for good. This
project models two parts of `BaseForm`:

- **The capture lifecycle.** This covers the flags `isWebcamStarted` and
  `isDisposing`, the held device `videoSource`, whether the `NewFrame`
  handler is subscribed to a device, the image in the picture box and the
  status label. These are driven by `StartWebcam`, `StopWebcam`,
  `VideoSource_NewFrame`, `ClearPictureBox`, `UpdateStatus`,
  `BaseForm_FormClosing` and `Dispose`.
- **The screen order.** This covers `GetNextFormType`,
  `GetPreviousFormType` and the guard in `NavigateToNextForm`.

The project has four modules:

- `Wrappers` (`wrappers.dfy`): `Option`, which stands for a C# reference that
  may be null.
- `Navigation` (`navigation.dfy`): `FormType` and the two switches, as
  functions with lemmas. A C# enum is an integer with named constants, so
  `FormType` is a newtype of `int` with four named values. This lets the
  switches' default arms be modelled too.
- `WebcamState` (`webcam_state.dfy`): the lifecycle as values. A
  `FormState` records what a screen holds. One function per operation
  (`AfterStartWebcam`, `AfterStopWebcam`, …) gives the state the operation
  leaves. `Inv` is the invariant they all keep. `Run` applies any sequence of
  operations. The lemmas here state what the lifecycle guarantees across
  such sequences.
- `Forms` (`base_form.dfy`): class `BaseForm`, with the source's fields and
  methods written step by step. Each method is proved to leave
  `State()` equal to the matching `WebcamState` function applied to
  `old(State())`. Everything proved about those functions therefore holds
  for the object.

The capture devices themselves (AForge's `VideoCaptureDevice`) are not
modelled. What the form *does* to them is recorded. Each device the form
creates gets a log of the calls made on it: `AttachNewFrame`, `Start`,
`SignalToStop`, `WaitForStop` and `DetachNewFrame`. The held device is an
index into that list of logs. What the devices decide comes in as
parameters:

- the number of devices enumerated (to the constructor, since the source
  enumerates once, in `InitializeVideoDevices`);
- whether `Start` was confirmed within the 5000 ms bound (`StartWebcam`);
- whether the device reported `IsRunning` when it was stopped
  (`StopWebcam`).

A device counts as *active* while the form's handler is subscribed to it and
it has not been told to stop. Frames are abstract tokens. The lock, the tasks
and the UI-thread marshalling are folded into each method being one atomic
step.

Observations the model makes precise:

- `StopWebcam` unsubscribes the handler before it signals the device to
  stop. The failure path of `StartWebcam` (BaseForm.cs:134-140) does not do
  this. It signals stop and drops the device while the handler is still
  subscribed (`FailedStartKeepsHandler`), and nothing in the source ever
  detaches that handler. The model counts such a device as inactive because
  it has been told to stop. That holds only if the device obeys the signal.
  On the late-start path, `Start` may still be running in its task when
  the signal is sent (BaseForm.cs:119-137), and a device that starts after
  that would deliver frames to the dropped handler. What the model does
  prove is the bound on this leak: every device other than the held one
  that still carries the handler has exactly the log subscribe, start, stop
  signal (`LingeringHandlers`, kept by `Run`).
- With no devices, `StartWebcam` returns without writing any status. The
  "no camera" message is written once, by the constructor.
- The screen has no generation counter. A stale frame is refused only by the
  `isDisposing` check in `VideoSource_NewFrame`, and that flag is set only
  when the screen closes. A stop made for navigation relies instead on the
  handler having been unsubscribed.

## Model

| member | source | states |
|---|---|---|
| `Navigation.GetNextFormType` | BaseForm.cs:502-512 | Each named screen steps to the next one, Form4 stays at Form4, and any undeclared enum value goes to MainForm. The result is always a named screen, so `CreateFormInstance` never throws on it. |
| `Navigation.GetPreviousFormType` | BaseForm.cs:519-529 | Each named screen steps to the previous one, MainForm stays at MainForm, and any undeclared value goes to MainForm. The result is always a named screen. |
| `Navigation.NavigatesForwardAlways` | BaseForm.cs:356-363 | The guard in `NavigateToNextForm` holds for every value, including undeclared ones. For a named screen, the next screen is never MainForm. |
| `Navigation.PreviousUndoesNext` | BaseForm.cs:502-529 | Back after next returns to the starting screen, on every screen but Form4. |
| `Navigation.NextUndoesPrevious` | BaseForm.cs:502-529 | Next after back returns to the starting screen, on every screen but MainForm. |
| `Navigation.PressNextSaturates` | BaseForm.cs:502-512 | Pressing next k times moves k screens forward and saturates at Form4. |
| `Navigation.PressBackSaturates` | BaseForm.cs:519-529 | Pressing back k times moves k screens back and saturates at MainForm. |
| `WebcamState.OpenedIsActive` | BaseForm.cs:111-119 | A device that has been subscribed and started is active: its handler is attached and it has not been told to stop. |
| `WebcamState.StopDetachesFirst` | BaseForm.cs:157-184 | For a device not yet told to stop, the calls `StopWebcam` makes remove the handler before any stop signal, whether or not the device is running. Afterwards the handler is gone and the device is inactive. |
| `WebcamState.FailedStartKeepsHandler` | BaseForm.cs:134-140 | A device dropped after a failed or late start was told to stop while its handler was still subscribed, and it keeps that handler. It counts as inactive only because it has been told to stop. |
| `WebcamState.Initial` | BaseForm.cs:76-99 | After construction, nothing is started, no device exists, the picture box is empty, the enumeration result is kept and the invariant holds. The status is "no camera" exactly when zero devices were found, "error" exactly when enumeration failed, and otherwise reports how many cameras were found. |
| `WebcamState.AfterStartWebcam` | BaseForm.cs:101-149 | If the screen is started, is closing or has no device, nothing changes. Otherwise exactly one new device is created and the earlier logs are untouched. On a confirmed start, that device is held and active, the flag is set and the status is "recording". On a failed or late start, nothing is held, the device keeps its handler but counts as inactive, the flag stays clear and the status is "cannot start". The enumeration result, the closing flag and the picture box never change. The invariant is kept. |
| `WebcamState.AfterStopWebcam` | BaseForm.cs:151-205 | The flag is clear, nothing is held and no device is active. The enumeration result and the closing flag are unchanged. Only the held device's log changes: the handler is removed before any stop signal and is not attached afterwards. With no device held, no device is touched. When the screen is not closing, the picture box is emptied (its image disposed of) and the status is "stopped". When it is closing, both are left as they were. |
| `WebcamState.AfterClearPictureBox` | BaseForm.cs:318-348 | When the screen is not closing, the picture box ends empty and the image it held is disposed of. Otherwise nothing changes. The capture session and the status are never touched. Every image ever shown, except the one on screen, stays accounted as disposed of. |
| `WebcamState.AfterNewFrame` | BaseForm.cs:207-255 | When the screen is not closing, the new frame is shown and the image it replaces is disposed of. When it is closing, the frame is dropped and nothing changes. The capture session and the status are never touched. The invariant is kept. |
| `WebcamState.AfterFormClosing` | BaseForm.cs:257-261 | Closing leaves the screen marked as closing, with the invariant kept. |
| `WebcamState.AfterDispose` | BaseForm.cs:263-273 | `Dispose(true)` marks the screen as closing. `Dispose(false)` leaves the flag as it was. The invariant is kept. |
| `WebcamState.Run` | BaseForm.cs:101-273 | Any sequence of operations keeps the invariant: the started flag holds exactly when a device is held, and the held device is the only active one. So at most one device is ever active. Every other device that still carries the handler was dropped by a failed or late start. No device is forgotten, and no device's log is rewritten: logs only grow at their end. |
| `WebcamState.ClosingIsPermanent` | BaseForm.cs:257-273 | Once a screen is closing, no sequence of operations changes anything. `isDisposing` is never cleared, no device is created, and the status and the picture box are never written again. |
| `WebcamState.LatestFrameWins` | BaseForm.cs:224-247 | After a burst of frames on a screen that is not closing, the last frame is shown. The image shown before, and every frame except the last, are disposed of in arrival order. |
| `Forms.BaseForm.constructor` | BaseForm.cs:31-35 | A new screen is in the state `Initial` gives for its enumeration result. |
| `Forms.BaseForm.UpdateStatus` | BaseForm.cs:288-316 | The label is written only while the screen is not closing. |
| `Forms.BaseForm.StartWebcam` | BaseForm.cs:101-149 | The fields end as `AfterStartWebcam` of the fields before, and the invariant is kept. |
| `Forms.BaseForm.StopWebcam` | BaseForm.cs:151-205 | The fields end as `AfterStopWebcam` of the fields before, and the invariant holds afterwards. |
| `Forms.BaseForm.VideoSourceNewFrame` | BaseForm.cs:207-255 | The fields end as `AfterNewFrame` of the fields before. |
| `Forms.BaseForm.ClearPictureBox` | BaseForm.cs:318-348 | The fields end as `AfterClearPictureBox` of the fields before. |
| `Forms.BaseForm.FormClosing` | BaseForm.cs:257-261 | The screen is marked as closing and its webcam is stopped, as `AfterFormClosing` gives. |
| `Forms.BaseForm.Dispose` | BaseForm.cs:263-273 | The fields end as `AfterDispose` of the fields before. |
| `Forms.BaseForm.OnFormLoad` | BaseForm.cs:276-281 | Loading a screen starts its webcam. |
| `Forms.BaseForm.RestartWebcamOnForm` | BaseForm.cs:477-495 | The target screen ends as `AfterStartWebcam` of its state before. Its own closing check adds nothing to the guard `StartWebcam` already has. |
| `Forms.BaseForm.NavigateToNextForm` | BaseForm.cs:356-363 | This screen's webcam is stopped, leaving none of its devices active, before a new screen of the next kind is created and loaded. That screen starts its webcam from a fresh enumeration. |
| `Forms.BaseForm.NavigateToPreviousForm` | BaseForm.cs:369-373 | This screen's webcam is stopped and the screen is closed for good. Then either the open screen of the previous kind gets its webcam restarted (unless it is this screen), or a new one is created and loaded. |
| `Forms.BaseForm.ShowExitConfirmation` | BaseForm.cs:378-391 | On confirmation, the webcam is stopped. Otherwise nothing changes. |

## Left out

- Device enumeration and control (`FilterInfoCollection`, `VideoCaptureDevice.Start`, `SignalToStop`, `WaitForStop`, `IsRunning`): foreign library calls. Their outcomes are parameters, and the calls the form makes are logged.
- WebcamState.Run: "at most one device is active" counts a device told to stop as inactive. It does not promise that such a device delivers no more frames. A late start may signal a device whose `Start` has not returned, and the handler it leaves subscribed is never removed. What `Run` promises instead is that each such device has exactly the log subscribe, start, stop signal.
- The 4000 ms wait in `StopWebcam`: the source ignores its result, so the model has no parameter for it. The device log records the calls issued.
- Concurrency and timing: `lock (webcamLock)`, `Task.Run`, `Task.Wait`, the 500 ms `Task.Delay` in `RestartWebcamOnForm`, and `Invoke`/`BeginInvoke`. Each operation is one atomic step. A frame that `BeginInvoke` queues before a stop and shows after it is therefore not modelled.
- Frames arrive at any time in `Run`, not only from a device with the handler attached. The lemmas therefore cover more arrivals than the source can produce.
- `Bitmap` copying and disposal: a frame is a token, and disposing of an image is recorded by appending it to `released`.
- The `catch` paths of `InitializeVideoDevices` (other than enumeration failure, modelled as the "error" status), `StartWebcam`, `StopWebcam`, `VideoSource_NewFrame`, `UpdateStatus` and `ClearPictureBox`, together with `MessageBox.Show` and the "error while stopping" status. All operations are modelled as total.
- The `pictureBoxCamera == null` and `labelStatus != null` tests: both controls exist from construction on. Disposing the controls in `Dispose` is not modelled.
- The label colours, the initial "ready" text (the constructor always overwrites it) and the layout in `InitializeBaseComponents`.
- `CreateFormInstance`, `FindExistingForm` (`Application.OpenForms`), `Show`, `Hide` and `Application.Exit`: window plumbing. The form `FindExistingForm` returns is a parameter of `NavigateToPreviousForm`. A created screen is a new `BaseForm` of the chosen kind.
- The screens' own files (MainForm.cs, Form2.cs, Form4.cs) only lay out buttons, call the navigation methods with a fixed `FormType` and overwrite the status text after loading. Form3.cs is not part of this model. Program.cs only starts the application.
