/**
 BaseForm, the screen every page of the demo derives from, as an object
 whose methods update its fields step by step. Each method is proved to
 leave the fields as the matching function of WebcamState describes, so
 everything proved there holds of the object.

 The outcomes the capture devices decide are parameters: the number of
 devices enumerated (to the constructor), whether a start is confirmed
 within its 5000 ms bound, and whether a device is running when it is
 stopped. The lock around StartWebcam and StopWebcam, the tasks, the
 timeouts and the marshalling onto the UI thread are folded into each
 method being one atomic step.
 */
module Forms {
  import opened Wrappers
  import opened Navigation
  import opened WebcamState

  class BaseForm {
    /** Which of the four screens this is (the derived form class CreateFormInstance picks). */
    const kind: FormType

    var videoDevices: Option<nat>
    var isWebcamStarted: bool
    var isDisposing: bool
    /** The capture device held, as an index into deviceCalls; None stands for null. */
    var videoSource: Option<nat>
    /** The calls made on each capture device this form created, in creation order. */
    var deviceCalls: seq<seq<DeviceCall>>
    /** pictureBoxCamera.Image; None stands for null. */
    var image: Option<Frame>
    /** The images disposed of, in order. */
    var releasedImages: seq<Frame>
    /** Every image ever put into the picture box, in order. */
    ghost var displayed: seq<Frame>
    /** The text of labelStatus. */
    var status: Status

    ghost function State(): FormState
      reads this
    {
      FormState(videoDevices, isWebcamStarted, isDisposing, videoSource, deviceCalls,
                image, releasedImages, displayed, status)
    }

    ghost predicate Valid()
      reads this
    {
      Inv(State())
    }

    /** BaseForm(): lay out the controls, then enumerate the capture devices
        and report how many were found (or that enumeration failed). */
    constructor (kind: FormType, enumeration: Option<nat>)
      ensures Valid()
      ensures this.kind == kind
      ensures State() == Initial(enumeration)
    {
      this.kind := kind;
      isWebcamStarted, isDisposing := false, false;
      videoSource, deviceCalls := None, [];
      image, releasedImages, displayed := None, [], [];
      videoDevices := enumeration;
      match enumeration {
        case None => status := Error;
        case Some(count) =>
          if count == 0 {
            status := NoCamera;
          } else {
            status := CamerasFound(count);
          }
      }
    }

    /** Records one call on a capture device the form created. A logging
        helper for the methods below, not an operation of the form: on its own
        it does not keep Valid(). */
    method CallDevice(device: nat, call: DeviceCall)
      requires device < |deviceCalls|
      modifies this
      ensures State() == old(State()).(devices := old(deviceCalls)[device := old(deviceCalls)[device] + [call]])
    {
      deviceCalls := deviceCalls[device := deviceCalls[device] + [call]];
    }

    method UpdateStatus(message: Status)
      modifies this
      ensures State() == AfterUpdateStatus(old(State()), message)
    {
      if !isDisposing {
        status := message;
      }
    }

    method StartWebcam(startConfirmed: bool)
      requires Valid()
      modifies this
      ensures Valid()
      ensures State() == AfterStartWebcam(old(State()), startConfirmed)
    {
      if isWebcamStarted || isDisposing || videoDevices.None? || videoDevices.value == 0 {
        return;
      }
      ghost var before := State();
      // A new device on the first enumerated camera, with the frame handler subscribed.
      var device := |deviceCalls|;
      deviceCalls := deviceCalls + [[]];
      videoSource := Some(device);
      CallDevice(device, AttachNewFrame);
      CallDevice(device, Start);
      assert deviceCalls[device] == [] + [AttachNewFrame] + [Start] == Opened;
      assert deviceCalls == before.devices + [Opened];
      if startConfirmed {
        isWebcamStarted := true;
        UpdateStatus(Recording);
      } else {
        // Failed or not confirmed in time: signal stop and drop the device.
        CallDevice(device, SignalToStop);
        assert deviceCalls == before.devices + [Opened + [SignalToStop]];
        videoSource := None;
        UpdateStatus(StartFailed);
      }
      assert State() == AfterStartWebcam(before, startConfirmed);
    }

    method StopWebcam(deviceRunning: bool)
      requires Stoppable(State())
      modifies this
      ensures Valid()
      ensures State() == AfterStopWebcam(old(State()), deviceRunning)
    {
      ghost var before := State();
      if videoSource.Some? {
        var device := videoSource.value;
        // The handler goes first, so that no frame is accepted once stopping begins.
        CallDevice(device, DetachNewFrame);
        if deviceRunning {
          // Whether the stop completes within the 4000 ms bound is not examined.
          CallDevice(device, SignalToStop);
          CallDevice(device, WaitForStop);
          assert deviceCalls[device] == before.devices[device] + [DetachNewFrame] + [SignalToStop] + [WaitForStop];
        }
        assert deviceCalls[device] == before.devices[device] + StopCalls(deviceRunning);
        videoSource := None;
        assert deviceCalls == before.devices[device := before.devices[device] + StopCalls(deviceRunning)];
      }
      isWebcamStarted := false;
      ghost var released := State();
      ClearPictureBox();
      assert State() == AfterClearPictureBox(released);
      if !isDisposing {
        UpdateStatus(Stopped);
      }
      assert State() == AfterStopWebcam(before, deviceRunning);
    }

    /** VideoSource_NewFrame: latest frame wins, unless the form is closing. */
    method VideoSourceNewFrame(frame: Frame)
      requires Valid()
      modifies this
      ensures Valid()
      ensures State() == AfterNewFrame(old(State()), frame)
    {
      if isDisposing {
        return;
      }
      var oldImage := image;
      image := Some(frame);
      displayed := displayed + [frame];
      if oldImage.Some? {
        releasedImages := releasedImages + [oldImage.value];
      }
    }

    method ClearPictureBox()
      modifies this
      ensures State() == AfterClearPictureBox(old(State()))
    {
      if !isDisposing {
        var oldImage := image;
        image := None;
        if oldImage.Some? {
          releasedImages := releasedImages + [oldImage.value];
        }
      }
    }

    method FormClosing(deviceRunning: bool)
      requires Valid()
      modifies this
      ensures Valid() && isDisposing
      ensures State() == AfterFormClosing(old(State()), deviceRunning)
    {
      isDisposing := true;
      StopWebcam(deviceRunning);
    }

    method Dispose(disposing: bool, deviceRunning: bool)
      requires Valid()
      modifies this
      ensures Valid()
      ensures State() == AfterDispose(old(State()), disposing, deviceRunning)
    {
      if disposing {
        isDisposing := true;
        StopWebcam(deviceRunning);
      }
    }

    /** OnFormLoad: a screen starts its webcam as it loads. */
    method OnFormLoad(startConfirmed: bool)
      requires Valid()
      modifies this
      ensures Valid()
      ensures State() == AfterStartWebcam(old(State()), startConfirmed)
    {
      StartWebcam(startConfirmed);
    }

    /** RestartWebcamOnForm, after its delay: start the webcam on `target`
        unless that form is closing. */
    method RestartWebcamOnForm(target: BaseForm, startConfirmed: bool)
      requires target.Valid()
      modifies target
      ensures target.Valid()
      ensures target.State() == AfterStartWebcam(old(target.State()), startConfirmed)
    {
      if !target.isDisposing {
        target.StartWebcam(startConfirmed);
      }
    }

    /** NavigateToNextForm: stop this screen's webcam, then create the next
        screen and show it, which loads it and starts its webcam; this screen
        is hidden. The devices of the new screen are enumerated afresh. */
    method NavigateToNextForm(current: FormType, deviceRunning: bool, targetDevices: Option<nat>, startConfirmed: bool)
      returns (shown: BaseForm?)
      requires Valid()
      modifies this
      ensures Valid()
      ensures State() == AfterStopWebcam(old(State()), deviceRunning)
      ensures forall d :: 0 <= d < |deviceCalls| ==> !Active(deviceCalls[d])
      ensures shown != null && fresh(shown) && shown.Valid()
      ensures shown.kind == GetNextFormType(current)
      ensures shown.State() == AfterStartWebcam(Initial(targetDevices), startConfirmed)
    {
      var next := GetNextFormType(current);
      NavigatesForwardAlways(current);
      shown := null;
      if NavigatesForward(current) {
        StopWebcam(deviceRunning);
        shown := new BaseForm(next, targetDevices);
        shown.OnFormLoad(startConfirmed);
      }
    }

    /** NavigateToPreviousForm: stop this screen's webcam; if a screen of the
        previous kind is still open (`existing`, what FindExistingForm found),
        show it again, close this screen, and restart that screen's webcam once
        its delay has passed; otherwise create the previous screen afresh, show
        it (which starts its webcam) and close this one. */
    method NavigateToPreviousForm(current: FormType, deviceRunning: bool, existing: BaseForm?,
                                  targetDevices: Option<nat>, startConfirmed: bool)
      returns (shown: BaseForm)
      requires Valid()
      requires existing != null ==> existing.Valid() && existing.kind == GetPreviousFormType(current)
      modifies this, existing
      ensures Valid() && isDisposing
      ensures State() == AfterFormClosing(AfterStopWebcam(old(State()), deviceRunning), false)
      ensures shown.Valid() && shown.kind == GetPreviousFormType(current)
      ensures existing != null ==> shown == existing
      ensures existing != null && existing != this ==>
        existing.State() == AfterStartWebcam(old(existing.State()), startConfirmed)
      ensures existing == null ==>
        fresh(shown) && shown.State() == AfterStartWebcam(Initial(targetDevices), startConfirmed)
    {
      var previous := GetPreviousFormType(current);
      StopWebcam(deviceRunning);
      if existing != null {
        shown := existing;
        // Closing raises FormClosing; the delayed restart runs after it.
        FormClosing(false);
        RestartWebcamOnForm(existing, startConfirmed);
      } else {
        shown := new BaseForm(previous, targetDevices);
        shown.OnFormLoad(startConfirmed);
        FormClosing(false);
      }
    }

    /** ShowExitConfirmation: when the user confirms, stop the webcam before
        the application exits. */
    method ShowExitConfirmation(confirmed: bool, deviceRunning: bool)
      requires Valid()
      modifies this
      ensures Valid()
      ensures State() == if confirmed then AfterStopWebcam(old(State()), deviceRunning) else old(State())
    {
      if confirmed {
        StopWebcam(deviceRunning);
      }
    }
  }
}
