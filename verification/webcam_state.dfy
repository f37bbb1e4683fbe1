/**
 The webcam capture lifecycle of one screen (BaseForm), as values: what the
 screen holds, and what each of its operations turns that into. The class
 Forms.BaseForm runs the same operations on fields and is proved to agree
 with the functions here; the lemmas here say what the lifecycle guarantees.

 The capture devices are outside the model. What the form does to them is
 recorded: every device the form creates gets a log of the calls the form
 made on it (subscribing its frame handler, starting, signalling stop,
 waiting for the stop, unsubscribing). What the devices do in return (how
 many are enumerated, whether a start is confirmed within its 5000 ms bound,
 whether a device is running when it is stopped) comes in as parameters.
 */
module WebcamState {
  import opened Wrappers

  /** A call the form makes on a capture device. */
  datatype DeviceCall =
    | AttachNewFrame   // videoSource.NewFrame += VideoSource_NewFrame
    | Start            // videoSource.Start(), run on a task
    | SignalToStop     // videoSource.SignalToStop()
    | WaitForStop      // videoSource.WaitForStop(), run on a task
    | DetachNewFrame   // videoSource.NewFrame -= VideoSource_NewFrame

  /** A captured frame, as a token: the bitmap the frame handler copies out of it. */
  datatype Frame = Frame(id: nat)

  /** The message on the status label (its colour is left out). */
  datatype Status =
    | NoCamera                // no device was enumerated
    | CamerasFound(count: nat)
    | Error                   // enumerating the devices failed
    | Recording
    | StartFailed
    | Stopped

  /** Whether the form's frame handler is subscribed to a device that received
      `calls`, read off the last subscribe or unsubscribe. This agrees with C#
      event semantics (which count subscriptions) only because the form never
      subscribes twice to one device: every log it produces holds at most one
      AttachNewFrame, at its start. */
  function HandlerAttached(calls: seq<DeviceCall>): bool
  {
    if calls == [] then false
    else if calls[|calls| - 1] == AttachNewFrame then true
    else if calls[|calls| - 1] == DetachNewFrame then false
    else HandlerAttached(calls[..|calls| - 1])
  }

  /** A device is active while it may still hand frames to the form: the
      handler is subscribed and the device has not been told to stop. */
  predicate Active(calls: seq<DeviceCall>)
  {
    HandlerAttached(calls) && SignalToStop !in calls
  }

  /** Every stop signal reached the device only after the handler was unsubscribed. */
  predicate DetachedBeforeStopSignal(calls: seq<DeviceCall>)
  {
    forall i :: 0 <= i < |calls| && calls[i] == SignalToStop ==> !HandlerAttached(calls[..i])
  }

  /** The calls made on a device while the form holds it as a started webcam. */
  const Opened: seq<DeviceCall> := [AttachNewFrame, Start]

  /** The calls StopWebcam makes on the device it releases; a device that is not
      running only loses the handler. */
  function StopCalls(deviceRunning: bool): seq<DeviceCall>
  {
    [DetachNewFrame] + if deviceRunning then [SignalToStop, WaitForStop] else []
  }

  function ImageSeq(image: Option<Frame>): seq<Frame>
  {
    if image.Some? then [image.value] else []
  }

  /** What one screen holds of the capture lifecycle. */
  datatype FormState = FormState(
    videoDevices: Option<nat>,         // number of devices enumerated; None when enumeration failed
    isWebcamStarted: bool,
    isDisposing: bool,
    videoSource: Option<nat>,          // the device held, as an index into devices
    devices: seq<seq<DeviceCall>>,     // calls made on each device created, in creation order
    image: Option<Frame>,              // the image shown by the picture box
    released: seq<Frame>,              // images disposed of, in order
    displayed: seq<Frame>,             // images ever put into the picture box, in order
    status: Status)

  /** The started flag and the held device agree, the held device has been
      subscribed and started, and no other device is active. */
  predicate SessionHeld(s: FormState)
  {
    && (s.isWebcamStarted <==> s.videoSource.Some?)
    && (s.videoSource.Some? ==> s.videoSource.value < |s.devices| && s.devices[s.videoSource.value] == Opened)
    && (forall d :: 0 <= d < |s.devices| && Active(s.devices[d]) ==> s.videoSource == Some(d))
  }

  /** Every image ever shown, except the one on screen, has been disposed of,
      in the order it was shown. */
  predicate ImagesAccounted(s: FormState)
  {
    s.displayed == s.released + ImageSeq(s.image)
  }

  /** The only devices besides the held one that still carry the frame handler
      are those a failed or late start dropped: subscribed, started, told to
      stop, and never unsubscribed. */
  predicate LingeringHandlers(s: FormState)
  {
    forall d :: 0 <= d < |s.devices| && HandlerAttached(s.devices[d]) && s.videoSource != Some(d) ==>
      s.devices[d] == Opened + [SignalToStop]
  }

  /** What StopWebcam needs: all of the invariant but the tie between closing
      and the started flag, which FormClosing breaks for the moment between
      setting isDisposing and stopping the webcam. */
  predicate Stoppable(s: FormState)
  {
    SessionHeld(s) && LingeringHandlers(s) && ImagesAccounted(s)
  }

  /** The invariant every operation keeps. */
  predicate Inv(s: FormState)
  {
    Stoppable(s) && (s.isDisposing ==> !s.isWebcamStarted)
  }

  /** Nothing of the capture session or the status label differs between s and r. */
  predicate SessionUnchanged(s: FormState, r: FormState)
  {
    && r.videoDevices == s.videoDevices
    && r.isWebcamStarted == s.isWebcamStarted
    && r.isDisposing == s.isDisposing
    && r.videoSource == s.videoSource
    && r.devices == s.devices
    && r.status == s.status
  }

  /** Nothing of the picture box differs between s and r. */
  predicate PictureUnchanged(s: FormState, r: FormState)
  {
    r.image == s.image && r.released == s.released && r.displayed == s.displayed
  }

  /** Every device log of s is still there in r, possibly with more calls after it. */
  predicate LogsExtended(s: FormState, r: FormState)
  {
    && |s.devices| <= |r.devices|
    && forall d :: 0 <= d < |s.devices| ==> s.devices[d] <= r.devices[d]
  }

  lemma OpenedIsActive()
    ensures HandlerAttached(Opened) && Active(Opened)
  {
  }

  /** A device that has not been told to stop, once released by StopWebcam, has
      had its handler removed before any stop signal, and keeps no handler. */
  lemma StopDetachesFirst(calls: seq<DeviceCall>, deviceRunning: bool)
    requires SignalToStop !in calls
    ensures DetachedBeforeStopSignal(calls + StopCalls(deviceRunning))
    ensures !HandlerAttached(calls + StopCalls(deviceRunning))
    ensures !Active(calls + StopCalls(deviceRunning))
  {
    var all := calls + StopCalls(deviceRunning);
    var detached := calls + [DetachNewFrame];
    assert all[..|detached|] == detached;
    assert detached[..|calls|] == calls;
    assert !HandlerAttached(detached);
    if deviceRunning {
      assert all == detached + [SignalToStop] + [WaitForStop];
      assert all[..|all| - 1] == detached + [SignalToStop];
      assert (detached + [SignalToStop])[..|detached|] == detached;
    }
    forall i | 0 <= i < |all| && all[i] == SignalToStop
      ensures !HandlerAttached(all[..i])
    {
      assert i == |detached|;
    }
  }

  /** The device a failed start leaves behind has been told to stop while the
      frame handler was still subscribed, and it keeps that handler. */
  lemma FailedStartKeepsHandler()
    ensures HandlerAttached(Opened + [SignalToStop])
    ensures !DetachedBeforeStopSignal(Opened + [SignalToStop])
    ensures !Active(Opened + [SignalToStop])
  {
  }

  /** The state the constructor leaves: enumeration done, nothing started. */
  function Initial(videoDevices: Option<nat>): (s: FormState)
    ensures Inv(s) && !s.isWebcamStarted && !s.isDisposing && s.devices == []
    ensures s.videoDevices == videoDevices
    ensures s.image == None && s.released == [] && s.displayed == []
    ensures s.status == NoCamera <==> videoDevices == Some(0)
    ensures s.status == Error <==> videoDevices.None?
    ensures videoDevices.Some? && videoDevices.value > 0 ==> s.status == CamerasFound(videoDevices.value)
  {
    var status := match videoDevices
      case None => Error
      case Some(n) => if n == 0 then NoCamera else CamerasFound(n);
    FormState(videoDevices, false, false, None, [], None, [], [], status)
  }

  /** UpdateStatus: the label is written only while the form is not closing. */
  function AfterUpdateStatus(s: FormState, message: Status): FormState
  {
    if s.isDisposing then s else s.(status := message)
  }

  /** The guard under which StartWebcam returns at once. */
  predicate StartIsNoOp(s: FormState)
  {
    s.isWebcamStarted || s.isDisposing || s.videoDevices.None? || s.videoDevices.value == 0
  }

  /** StartWebcam: create a device on the first enumerated camera, subscribe the
      frame handler and start it; keep it when the start is confirmed within
      the bound, otherwise signal it to stop and let it go. */
  function AfterStartWebcam(s: FormState, startConfirmed: bool): (r: FormState)
    requires Inv(s)
    ensures Inv(r)
    ensures StartIsNoOp(s) ==> r == s
    ensures !StartIsNoOp(s) ==> |r.devices| == |s.devices| + 1 && r.devices[..|s.devices|] == s.devices
    ensures !StartIsNoOp(s) && startConfirmed ==>
      && r.isWebcamStarted && r.videoSource == Some(|s.devices|)
      && Active(r.devices[|s.devices|]) && r.status == Recording
    ensures !StartIsNoOp(s) && !startConfirmed ==>
      && !r.isWebcamStarted && r.videoSource == None
      && !Active(r.devices[|s.devices|]) && HandlerAttached(r.devices[|s.devices|])
      && r.status == StartFailed
    ensures r.videoDevices == s.videoDevices && r.isDisposing == s.isDisposing
    ensures PictureUnchanged(s, r)
  {
    if StartIsNoOp(s) then s
    else
      var device := |s.devices|;
      OpenedIsActive();
      FailedStartKeepsHandler();
      if startConfirmed then
        AfterUpdateStatus(s.(isWebcamStarted := true, videoSource := Some(device), devices := s.devices + [Opened]), Recording)
      else
        AfterUpdateStatus(s.(devices := s.devices + [Opened + [SignalToStop]]), StartFailed)
  }

  /** ClearPictureBox: unless the form is closing, empty the picture box and
      dispose of the image it held. */
  function AfterClearPictureBox(s: FormState): (r: FormState)
    ensures ImagesAccounted(s) ==> ImagesAccounted(r)
    ensures SessionUnchanged(s, r)
    ensures !s.isDisposing ==> r.image == None && r.released == s.released + ImageSeq(s.image)
    ensures s.isDisposing ==> r == s
  {
    if s.isDisposing then s else s.(image := None, released := s.released + ImageSeq(s.image))
  }

  /** StopWebcam: release the held device, unsubscribing the handler before
      any stop signal, whatever the device does within the bound; then clear
      the picture box and report "stopped", both skipped while closing. */
  function AfterStopWebcam(s: FormState, deviceRunning: bool): (r: FormState)
    requires Stoppable(s)
    ensures Inv(r)
    ensures !r.isWebcamStarted && r.videoSource == None
    ensures r.videoDevices == s.videoDevices && r.isDisposing == s.isDisposing
    ensures forall d :: 0 <= d < |r.devices| ==> !Active(r.devices[d])
    ensures |r.devices| == |s.devices|
    ensures s.videoSource.None? ==> r.devices == s.devices
    ensures s.videoSource.Some? ==>
      var d := s.videoSource.value;
      && r.devices == s.devices[d := s.devices[d] + StopCalls(deviceRunning)]
      && DetachedBeforeStopSignal(r.devices[d]) && !HandlerAttached(r.devices[d])
    ensures !s.isDisposing ==> r.status == Stopped && r.image == None && r.released == s.released + ImageSeq(s.image)
    ensures s.isDisposing ==> r.status == s.status && PictureUnchanged(s, r)
  {
    var released :=
      if s.videoSource.Some? then
        var d := s.videoSource.value;
        OpenedIsActive();
        StopDetachesFirst(s.devices[d], deviceRunning);
        s.(devices := s.devices[d := s.devices[d] + StopCalls(deviceRunning)], videoSource := None)
      else s;
    var cleared := AfterClearPictureBox(released.(isWebcamStarted := false));
    if !cleared.isDisposing then AfterUpdateStatus(cleared, Stopped) else cleared
  }

  /** VideoSource_NewFrame: unless the form is closing, the new frame replaces
      the image shown, and the image it replaces is disposed of. */
  function AfterNewFrame(s: FormState, frame: Frame): (r: FormState)
    ensures Inv(s) ==> Inv(r)
    ensures SessionUnchanged(s, r)
    ensures !s.isDisposing ==> r.image == Some(frame) && r.released == s.released + ImageSeq(s.image)
    ensures s.isDisposing ==> r == s
  {
    if s.isDisposing then s
    else s.(image := Some(frame), released := s.released + ImageSeq(s.image), displayed := s.displayed + [frame])
  }

  /** BaseForm_FormClosing: mark the form as closing for good, then stop the webcam. */
  function AfterFormClosing(s: FormState, deviceRunning: bool): (r: FormState)
    requires Inv(s)
    ensures Inv(r) && r.isDisposing
  {
    AfterStopWebcam(s.(isDisposing := true), deviceRunning)
  }

  /** Dispose(disposing): the same as closing when called with disposing set. */
  function AfterDispose(s: FormState, disposing: bool, deviceRunning: bool): (r: FormState)
    requires Inv(s)
    ensures Inv(r) && r.isDisposing == (s.isDisposing || disposing)
  {
    if disposing then AfterFormClosing(s, deviceRunning) else s
  }

  /** The operations that drive one screen's lifecycle, with the outcomes
      the devices decide. */
  datatype Operation =
    | StartWebcam(startConfirmed: bool)
    | StopWebcam(deviceRunning: bool)
    | NewFrame(frame: Frame)
    | ClearPictureBox
    | FormClosing(deviceRunning: bool)
    | Dispose(disposing: bool, deviceRunning: bool)

  function Step(s: FormState, op: Operation): (r: FormState)
    requires Inv(s)
    ensures Inv(r) && LogsExtended(s, r)
  {
    match op
    case StartWebcam(startConfirmed) => AfterStartWebcam(s, startConfirmed)
    case StopWebcam(deviceRunning) => AfterStopWebcam(s, deviceRunning)
    case NewFrame(frame) => AfterNewFrame(s, frame)
    case ClearPictureBox => AfterClearPictureBox(s)
    case FormClosing(deviceRunning) => AfterFormClosing(s, deviceRunning)
    case Dispose(disposing, deviceRunning) => AfterDispose(s, disposing, deviceRunning)
  }

  /** Any sequence of operations keeps the invariant: at most one device is
      active, it is the one held, and it is held exactly while started; any
      other device still carrying the handler was dropped by a failed start.
      No device log is ever rewritten, only extended. */
  function Run(s: FormState, ops: seq<Operation>): (r: FormState)
    requires Inv(s)
    ensures Inv(r)
    ensures forall d, e :: 0 <= d < |r.devices| && 0 <= e < |r.devices| && Active(r.devices[d]) && Active(r.devices[e]) ==> d == e
    ensures forall d :: 0 <= d < |r.devices| && HandlerAttached(r.devices[d]) && r.videoSource != Some(d) ==>
      r.devices[d] == Opened + [SignalToStop]
    ensures LogsExtended(s, r)
    decreases |ops|
  {
    if ops == [] then s else Run(Step(s, ops[0]), ops[1..])
  }

  /** Once a form is closing, no operation changes anything: no device is
      created again, the status and the picture box stay as they are. */
  lemma {:induction false} ClosingIsPermanent(s: FormState, ops: seq<Operation>)
    requires Inv(s) && s.isDisposing
    ensures Run(s, ops) == s
    decreases |ops|
  {
    if ops != [] {
      assert Step(s, ops[0]) == s;
      ClosingIsPermanent(s, ops[1..]);
    }
  }

  /** Frames arriving one after the other, as operations. */
  function FramesArrive(frames: seq<Frame>): (ops: seq<Operation>)
    ensures |ops| == |frames|
  {
    if frames == [] then [] else [NewFrame(frames[0])] + FramesArrive(frames[1..])
  }

  /** The first of a burst of frames is handled on its own, then the rest. */
  lemma RunFirstFrame(s: FormState, frames: seq<Frame>)
    requires Inv(s) && frames != []
    ensures Run(s, FramesArrive(frames)) == Run(AfterNewFrame(s, frames[0]), FramesArrive(frames[1..]))
  {
  }

  /** Latest frame wins: after a burst of frames the picture box shows the last
      one, and the image shown before and every frame but the last have been
      disposed of, in arrival order. */
  lemma {:induction false} LatestFrameWins(s: FormState, frames: seq<Frame>)
    requires Inv(s) && !s.isDisposing && frames != []
    ensures Run(s, FramesArrive(frames)).image == Some(frames[|frames| - 1])
    ensures Run(s, FramesArrive(frames)).released == s.released + ImageSeq(s.image) + frames[..|frames| - 1]
    decreases |frames|
  {
    var next := AfterNewFrame(s, frames[0]);
    RunFirstFrame(s, frames);
    if |frames| == 1 {
      assert FramesArrive(frames[1..]) == [];
    } else {
      LatestFrameWins(next, frames[1..]);
      assert frames[1..][..|frames| - 2] == frames[1..|frames| - 1];
      assert frames[..|frames| - 1] == [frames[0]] + frames[1..|frames| - 1];
    }
  }
}
