/** The `qhyccd` session object: one camera opened through the driver, the
    attributes the wrapper keeps about it, and every method of the class.
    An attribute the Python object may or may not have (`hasattr`) is an
    `Option` field, `None` while absent; lists are values, so the copies the
    wrapper makes with `.copy()` are implicit.  The session keeps its own
    view of `check_status`, `Checked`, because it records a raised status
    as `StatusError(s)` whatever exception it becomes; `CheckedIsCheckStatus`
    ties that view to `Errors.CheckStatus`. */
module Camera {
  import opened Types
  import opened Errors
  import opened Controls
  import opened Versions
  import opened Settings
  import opened Native

  /** Reading `self._cam_handle` while it is absent. */
  const NO_HANDLE := AttributeError("_cam_handle")

  /** Reading `self._ncam` while it is absent. */
  const NO_COUNT := AttributeError("_ncam")

  /** `check_status(status)`: the status itself at or below `ERROR_MIN`,
      and otherwise the exception it raises, named by the status. */
  function Checked(status: uint32): (r: Result<uint32>)
    ensures r.Success? <==> status <= ERROR_MIN
    ensures r.Success? ==> r.value == status
    ensures r.Failure? ==> r.error == StatusError(status)
  {
    if status <= ERROR_MIN then Success(status) else Failure(StatusError(status))
  }

  /** `check_status(status)` in a method that only needs it to pass. */
  function StatusOutcome(status: uint32): (o: Outcome)
    ensures o.Pass? <==> status <= ERROR_MIN
    ensures o.Fail? ==> o.error == StatusError(status)
  {
    if status <= ERROR_MIN then Pass else Fail(StatusError(status))
  }

  /** `Checked` raises exactly when `check_status` does, and the status an
      error names determines the exception `CheckStatus` raises for it: the
      `RuntimeError` on the status's row, or the `KeyError` of an unlisted
      status. */
  lemma CheckedIsCheckStatus(status: uint32)
    ensures Checked(status).Success? <==> CheckStatus(status).Success?
    ensures Checked(status).Success? ==> Checked(status) == CheckStatus(status)
    ensures Checked(status).Failure? ==>
              CheckStatus(status).error == if status in ERROR_DESC_DICT then RuntimeError(ERROR_DESC_DICT[status])
                                           else UnknownStatus(status)
    ensures StatusOutcome(status) == OutcomeOf(Checked(status))
  {
    CheckStatusRaises(status);
  }

  /** `check_status` applied to the status of a driver reply; a handle or a
      parameter value is returned unchecked. */
  function ReplyOutcome(reply: Reply): (o: Outcome)
    ensures reply.Status? ==> o == StatusOutcome(reply.status)
    ensures reply.Address? || reply.Value? ==> o == Pass
    ensures o.Fail? ==> o.error.StatusError?
  {
    match reply
    case Status(s) => StatusOutcome(s)
    case Ident(s, _) => StatusOutcome(s)
    case ChipInfo(s, _, _, _, _) => StatusOutcome(s)
    case Sdk(s, _) => StatusOutcome(s)
    case Firmware(s, _, _) => StatusOutcome(s)
    case Address(_) => Pass
    case Value(_) => Pass
  }

  /** A result seen only as passed or raised. */
  function OutcomeOf<T>(r: Result<T>): (o: Outcome)
    ensures o.Pass? <==> r.Success?
    ensures r.Failure? ==> o == Fail(r.error)
  {
    if r.Success? then Pass else Fail(r.error)
  }

  /** Every attribute of a session object, `None` where `hasattr` is false;
      `regionSet` is `hasattr(self, '_region_set')`. */
  datatype State = State(
    ncam: Option<uint32>,
    camNo: Option<nat>,
    camId: Option<string>,
    camIdStr: Option<string>,
    camHandle: Option<nat>,
    usbTraffic: Option<int>,
    gain: Option<int>,
    offset: Option<int>,
    exptime: Option<int>,
    bitDepth: Option<nat>,
    streamMode: Option<string>,
    regionStart: Option<Pair>,
    regionSize: Option<Pair>,
    regionSet: bool,
    image: Option<array2<nat>>,
    binSize: Option<Pair>,
    chipSize: Option<(real, real)>,
    imageSize: Option<Pair>,
    pixelSize: Option<(real, real)>,
    bpp: Option<uint32>,
    sdkVersion: Option<SdkVersion>,
    firmwareVersion: Option<FirmwareVersion>)

  /** The attributes of an object `__init__` has not touched yet. */
  const BLANK := State(None, None, None, None, None, None, None, None, None, None, None,
                       None, None, false, None, None, None, None, None, None, None, None)

  /** `before` once `query_chip_info` has stored what the driver wrote. */
  function WithChipInfo(before: State, reply: Reply): (after: State)
    requires reply.ChipInfo?
    ensures after.imageSize == Some(reply.imageSize)
  {
    before.(chipSize := Some(reply.chipSize), imageSize := Some(reply.imageSize),
            pixelSize := Some(reply.pixelSize), bpp := Some(reply.bpp))
  }

  /** The calls `set_region` makes with handle `h` once the size is
      known: the cancel when a region was set before, then the resolution. */
  function RegionPlan(h: nat, start: Pair, size: Pair, cancel: bool): (plan: seq<Call>)
    ensures |plan| == if cancel then 2 else 1
    ensures plan[|plan| - 1] == SetQHYCCDResolution(h, start.x, start.y, size.x, size.y)
    ensures cancel ==> plan[0] == CancelQHYCCDExposingAndReadout(h)
  {
    if cancel then [CancelQHYCCDExposingAndReadout(h), SetQHYCCDResolution(h, start.x, start.y, size.x, size.y)]
    else [SetQHYCCDResolution(h, start.x, start.y, size.x, size.y)]
  }

  /** The calls `__del__` makes after the cancel: the close when the camera
      is open, then the release. */
  function ClosePlan(handle: Option<nat>): (plan: seq<Call>)
    ensures |plan| == if handle.Some? then 2 else 1
    ensures plan[|plan| - 1] == ReleaseQHYCCDResource
  {
    if handle.Some? then [CloseQHYCCD(handle.value), ReleaseQHYCCDResource] else [ReleaseQHYCCDResource]
  }

  /** The calls `__del__` makes: the cancel when a region was set, the close
      when the camera is open, and the release, in that order. */
  function TeardownPlan(regionSet: bool, handle: Option<nat>): (plan: seq<Call>)
    requires regionSet ==> handle.Some?
    ensures |plan| == 1 + (if handle.Some? then 1 else 0) + (if regionSet then 1 else 0)
    ensures plan[|plan| - 1] == ReleaseQHYCCDResource
    ensures regionSet ==> plan[0] == CancelQHYCCDExposingAndReadout(handle.value)
    ensures handle.Some? ==> plan[if regionSet then 1 else 0] == CloseQHYCCD(handle.value)
  {
    if regionSet then [CancelQHYCCDExposingAndReadout(handle.value)] + ClosePlan(handle) else ClosePlan(handle)
  }

  /** The driver log grew from `calls0`/`replies0` to `calls`/`replies` by
      a non-empty prefix of `plan`: each call but the last passed
      `check_status`, the outcome is the last call's, and it is a pass only
      when the whole plan was made. */
  ghost predicate RanPrefix(calls0: seq<Call>, replies0: seq<Reply>, calls: seq<Call>, replies: seq<Reply>,
                            plan: seq<Call>, outcome: Outcome)
  {
    && |calls0| == |replies0|
    && |calls| == |replies|
    && |calls0| < |calls|
    && calls[..|calls0|] == calls0
    && replies[..|replies0|] == replies0
    && calls[|calls0|..] <= plan
    && (forall k :: |calls0| <= k < |calls| - 1 ==> ReplyOutcome(replies[k]).Pass?)
    && outcome == ReplyOutcome(replies[|calls| - 1])
    && (outcome.Pass? ==> calls[|calls0|..] == plan)
  }

  /** The last call of a plan decides its outcome. */
  lemma RanPrefixLast(calls0: seq<Call>, replies0: seq<Reply>, call: Call, reply: Reply)
    requires |calls0| == |replies0|
    ensures RanPrefix(calls0, replies0, calls0 + [call], replies0 + [reply], [call], ReplyOutcome(reply))
  {
    assert (calls0 + [call])[|calls0|..] == [call];
  }

  /** A call that fails ends the plan there. */
  lemma RanPrefixStop(calls0: seq<Call>, replies0: seq<Reply>, call: Call, reply: Reply, rest: seq<Call>)
    requires |calls0| == |replies0|
    requires ReplyOutcome(reply).Fail?
    ensures RanPrefix(calls0, replies0, calls0 + [call], replies0 + [reply], [call] + rest, ReplyOutcome(reply))
  {
    assert (calls0 + [call])[|calls0|..] == [call];
  }

  /** A call that passes is followed by the rest of the plan. */
  lemma RanPrefixStep(calls0: seq<Call>, replies0: seq<Reply>, call: Call, reply: Reply,
                      calls: seq<Call>, replies: seq<Reply>, rest: seq<Call>, outcome: Outcome)
    requires |calls0| == |replies0|
    requires ReplyOutcome(reply).Pass?
    requires RanPrefix(calls0 + [call], replies0 + [reply], calls, replies, rest, outcome)
    ensures RanPrefix(calls0, replies0, calls, replies, [call] + rest, outcome)
  {
    var n := |calls0|;
    assert calls[..n] == (calls0 + [call])[..n] == calls0;
    assert replies[..n] == (replies0 + [reply])[..n] == replies0;
    assert calls[n..] == [call] + calls[n + 1..] by {
      assert calls[n] == (calls0 + [call])[n] == call;
    }
    forall k | n <= k < |calls| - 1
      ensures ReplyOutcome(replies[k]).Pass?
    {
      if k == n {
        assert replies[n] == (replies0 + [reply])[n] == reply;
      }
    }
  }

  /** `seq2` continues `seq1`, which continues `seq0`: what was added to
      `seq0` splits into what `seq1` added and what `seq2` added. */
  lemma Continued<T>(seq0: seq<T>, seq1: seq<T>, seq2: seq<T>)
    requires |seq0| <= |seq1| <= |seq2| && seq1[..|seq0|] == seq0 && seq2[..|seq1|] == seq1
    ensures seq2[..|seq0|] == seq0
    ensures seq2[|seq0|..][..|seq1| - |seq0|] == seq1[|seq0|..]
    ensures seq2[|seq0|..][|seq1| - |seq0|..] == seq2[|seq1|..]
  {
    assert seq2[..|seq0|] == seq2[..|seq1|][..|seq0|];
  }

  // ------------------------------------------------- what __init__ calls

  /** The calls `__init__` makes up to the camera scan: the log level, the
      SDK version (printed), the resource, the scan. */
  const SCAN_PLAN := [SetQHYCCDLogLevel(0), GetQHYCCDSDKVersion, InitQHYCCDResource, ScanQHYCCD]

  /** The calls `__init__` makes once cameras were found: the identifier of
      camera `index`, the open with that identifier `id`, and the firmware
      version (printed) with the handle `h` that open returned. */
  function OpenPlan(index: nat, id: string, h: nat): (plan: seq<Call>)
    ensures |plan| == 3 && plan[0] == GetQHYCCDId(index)
  {
    [GetQHYCCDId(index), OpenQHYCCD(id), GetQHYCCDFWVersion(h)]
  }

  /** The calls `__init__` makes to put the open camera `h` in
      single-frame mode: the capability, the stream mode 'single', and the
      camera initialisation. */
  function SingleFramePlan(h: nat): (plan: seq<Call>)
    ensures |plan| == 3 && plan[0] == IsQHYCCDControlAvailable(h, 57)
  {
    [IsQHYCCDControlAvailable(h, 57), SetQHYCCDStreamMode(h, QHYCCD_STREAM_SINGLE), InitQHYCCD(h)]
  }

  /** The calls `__init__` makes to describe the sensor for printing: the
      colour capability and the chip information. */
  function DescribePlan(h: nat): (plan: seq<Call>)
    ensures |plan| == 2
    ensures plan[0] == IsQHYCCDControlAvailable(h, 20) && plan[1] == GetQHYCCDChipInfo(h)
  {
    [IsQHYCCDControlAvailable(h, 20), GetQHYCCDChipInfo(h)]
  }

  /** The region size `set_region` uses: `size`, or the maximum image size
      when `size` is empty. */
  function UsedSize(size: Pair, imageSize: Pair): (used: Pair)
    ensures size.x * size.y != 0 ==> used == size
    ensures size.x * size.y == 0 ==> used == imageSize
  {
    if size.x * size.y != 0 then size else imageSize
  }

  /** The log starts with the scan, every checked status up to it passed,
      and the scan answered a count (its status) that passes too. */
  ghost predicate Scanned(calls: seq<Call>, replies: seq<Reply>)
  {
    && 4 <= |calls| && 4 <= |replies| && calls[..4] == SCAN_PLAN
    && replies[1].Sdk? && replies[1].status <= ERROR_MIN
    && ReplyOutcome(replies[2]).Pass?
    && replies[3].Status? && replies[3].status <= ERROR_MIN
  }

  /** The scan passed and counted no camera: `__init__` raises NO_DEVICE. */
  ghost predicate FoundNone(calls: seq<Call>, replies: seq<Reply>)
  {
    Scanned(calls, replies) && replies[3].status == 0
  }

  /** The scan passed and counted cameras, but none with number `index`:
      `__init__` raises NO_MATCH. */
  ghost predicate FoundTooFew(index: nat, calls: seq<Call>, replies: seq<Reply>)
  {
    Scanned(calls, replies) && 0 < replies[3].status <= index
  }

  /** The log is exactly a successful `OpenPlan(index, ..)`: the identifier
      was read, the handle is not null and the firmware version was read. */
  ghost predicate OpenedLog(index: nat, calls: seq<Call>, replies: seq<Reply>)
  {
    && |calls| == 3 && |replies| == 3
    && replies[0].Ident? && replies[0].status <= ERROR_MIN
    && replies[1].Address? && replies[1].address != 0
    && replies[2].Firmware? && replies[2].status <= ERROR_MIN
    && calls == OpenPlan(index, replies[0].id, replies[1].address)
  }

  /** The log is exactly a successful connection to camera `camNo`: some
      camera was found, `camNo` is below the count, and the camera was
      opened. */
  ghost predicate ConnectedLog(camNo: nat, calls: seq<Call>, replies: seq<Reply>)
  {
    && |calls| == 7 && |replies| == 7
    && Scanned(calls, replies)
    && 0 < replies[3].status && camNo < replies[3].status
    && OpenedLog(camNo, calls[4..], replies[4..])
  }

  /** Once the connection of the first seven calls passed, the eighth call
      asks for single-frame mode; a camera without it ends `__init__` there
      with UNSUPPORTED as `outcome`. */
  ghost predicate SingleFrameChecked(camNo: nat, calls: seq<Call>, replies: seq<Reply>, outcome: Outcome)
  {
    7 <= |calls| && 7 <= |replies| && ConnectedLog(camNo, calls[..7], replies[..7]) ==>
      && 8 <= |calls| && 8 <= |replies|
      && calls[7] == IsQHYCCDControlAvailable(replies[5].address, 57)
      && (replies[7].Status? && replies[7] != Status(0) ==> outcome == Fail(KeyError(UNSUPPORTED)) && |calls| == 8)
  }

  /** The attributes after a successful connection whose answers were
      `replies`. */
  ghost function ConnectedState(camNo: nat, replies: seq<Reply>): State
    requires |replies| >= 7 && replies[1].Sdk? && replies[3].Status? && replies[4].Ident?
    requires replies[5].Address? && replies[6].Firmware?
  {
    BLANK.(sdkVersion := Some(replies[1].version), ncam := Some(replies[3].status), camNo := Some(camNo),
           camId := Some(replies[4].id), camIdStr := Some(replies[4].id), camHandle := Some(replies[5].address),
           firmwareVersion := Some(DecodeFirmware(replies[6].fwv0, replies[6].fwv1)))
  }

  /** The log is exactly a successful `SingleFramePlan(h)`: the camera
      offers single-frame mode and both checked statuses passed. */
  ghost predicate SingleFrameLog(h: nat, calls: seq<Call>, replies: seq<Reply>)
  {
    && |calls| == 3 && |replies| == 3 && calls == SingleFramePlan(h)
    && replies[0] == Status(0)
    && ReplyOutcome(replies[1]).Pass?
    && ReplyOutcome(replies[2]).Pass?
  }

  /** The log is exactly a successful `DescribePlan(h)`: the colour
      capability was answered and the chip information read. */
  ghost predicate DescribedLog(h: nat, calls: seq<Call>, replies: seq<Reply>)
  {
    && |calls| == 2 && |replies| == 2 && calls == DescribePlan(h)
    && replies[0].Status?
    && replies[1].ChipInfo? && replies[1].status <= ERROR_MIN
  }

  /** The log is exactly single-frame mode set up, then the sensor
      described. */
  ghost predicate ModeLog(h: nat, calls: seq<Call>, replies: seq<Reply>)
  {
    && |calls| == 5 && |replies| == 5
    && SingleFrameLog(h, calls[..3], replies[..3])
    && DescribedLog(h, calls[3..], replies[3..])
  }

  /** The log is exactly a successful control setter of `__init__`:
      control `code` is offered, and setting it to `value` passed. */
  ghost predicate ControlLog(h: nat, code: nat, value: int, calls: seq<Call>, replies: seq<Reply>)
  {
    && |calls| == 2 && |replies| == 2
    && calls == [IsQHYCCDControlAvailable(h, code), SetQHYCCDParam(h, code, value)]
    && replies[0] == Status(0) && ReplyOutcome(replies[1]).Pass?
  }

  /** The log is exactly two successful control setters of `__init__`. */
  ghost predicate ControlPairLog(h: nat, code1: nat, value1: int, code2: nat, value2: int,
                                 calls: seq<Call>, replies: seq<Reply>)
  {
    && |calls| == 4 && |replies| == 4
    && ControlLog(h, code1, value1, calls[..2], replies[..2])
    && ControlLog(h, code2, value2, calls[2..], replies[2..])
  }

  /** The log is exactly the four control setters of `__init__`, all
      successful: USB traffic, gain, offset, and the exposure time `us` in
      microseconds. */
  ghost predicate ParameterLog(h: nat, traffic: int, gainValue: int, offsetValue: int, us: int,
                               calls: seq<Call>, replies: seq<Reply>)
  {
    && |calls| == 8 && |replies| == 8
    && ControlPairLog(h, 12, traffic, 6, gainValue, calls[..4], replies[..4])
    && ControlPairLog(h, 7, offsetValue, 8, us, calls[4..], replies[4..])
  }

  /** The log is exactly the binning and bit-depth setters of `__init__`,
      both successful. */
  ghost predicate BinDepthLog(h: nat, bin: Pair, depth: nat, calls: seq<Call>, replies: seq<Reply>)
  {
    && |calls| == 2 && |replies| == 2
    && calls == [SetQHYCCDBinMode(h, bin.x, bin.y), SetQHYCCDBitsMode(h, depth)]
    && ReplyOutcome(replies[0]).Pass? && ReplyOutcome(replies[1]).Pass?
  }

  /** The log is exactly the region, binning and bit-depth setters of
      `__init__`, all successful, where no region was set before (so no
      cancel) and the region size used is `used`. */
  ghost predicate GeometryLog(h: nat, start: Pair, used: Pair, bin: Pair, depth: nat,
                              calls: seq<Call>, replies: seq<Reply>)
  {
    && |calls| == 3 && |replies| == 3
    && calls[0] == SetQHYCCDResolution(h, start.x, start.y, used.x, used.y) && ReplyOutcome(replies[0]).Pass?
    && BinDepthLog(h, bin, depth, calls[1..], replies[1..])
  }

  /** The log is exactly the settings of `__init__`, all successful: the
      four controls and the geometry. */
  ghost predicate SettingsLog(h: nat, traffic: int, gainValue: int, offsetValue: int, us: int,
                              start: Pair, used: Pair, bin: Pair, depth: nat, calls: seq<Call>, replies: seq<Reply>)
  {
    && |calls| == 11 && |replies| == 11
    && ParameterLog(h, traffic, gainValue, offsetValue, us, calls[..8], replies[..8])
    && GeometryLog(h, start, used, bin, depth, calls[8..], replies[8..])
  }

  /** The log is exactly a successful configuration of the open camera
      `h`: the mode, then the settings, where an empty `size` stands for
      the maximum image size the chip information gave. */
  ghost predicate ConfiguredLog(h: nat, traffic: int, gainValue: int, offsetValue: int, us: int,
                                start: Pair, size: Pair, bin: Pair, depth: nat, calls: seq<Call>, replies: seq<Reply>)
  {
    && |calls| == 16 && |replies| == 16
    && ModeLog(h, calls[..5], replies[..5])
    && replies[4].ChipInfo?
    && SettingsLog(h, traffic, gainValue, offsetValue, us, start, UsedSize(size, replies[4].imageSize), bin, depth,
                   calls[5..], replies[5..])
  }

  /** The log is exactly a successful `__init__`: the connection, then the
      configuration of the camera it opened. */
  ghost predicate InitLog(camNo: nat, traffic: int, gainValue: int, offsetValue: int, us: int,
                          start: Pair, size: Pair, bin: Pair, depth: nat, calls: seq<Call>, replies: seq<Reply>)
  {
    && |calls| == 23 && |replies| == 23
    && ConnectedLog(camNo, calls[..7], replies[..7])
    && ConfiguredLog(replies[5].address, traffic, gainValue, offsetValue, us, start, size, bin, depth,
                     calls[7..], replies[7..])
  }

  /** A log that starts with a successful connection to camera `camNo`
      was scanned with a count above `camNo`, so it raised neither
      NO_DEVICE nor NO_MATCH. */
  lemma ConnectedPrefix(camNo: nat, calls: seq<Call>, replies: seq<Reply>)
    requires 7 <= |calls| && 7 <= |replies| && ConnectedLog(camNo, calls[..7], replies[..7])
    ensures Scanned(calls, replies) && camNo < replies[3].status
    ensures replies[1] == replies[..7][1] && replies[4] == replies[..7][4]
    ensures replies[5] == replies[..7][5] && replies[6] == replies[..7][6]
  {
    assert calls[..4] == calls[..7][..4];
  }

  /** After a successful connection, the log is a successful `__init__`
      exactly when the rest of it is a successful configuration of the
      camera that was opened. */
  lemma InitLogAfterConnect(camNo: nat, traffic: int, gainValue: int, offsetValue: int, us: int,
                            start: Pair, size: Pair, bin: Pair, depth: nat, calls: seq<Call>, replies: seq<Reply>)
    requires 7 <= |calls| && |calls| == |replies| && ConnectedLog(camNo, calls[..7], replies[..7])
    ensures replies[5].Address?
    ensures InitLog(camNo, traffic, gainValue, offsetValue, us, start, size, bin, depth, calls, replies) <==>
              ConfiguredLog(replies[5].address, traffic, gainValue, offsetValue, us, start, size, bin, depth,
                            calls[7..], replies[7..])
  {
    ConnectedPrefix(camNo, calls, replies);
  }

  /** The attributes after a successful `__init__` whose answers were
      `replies`, with `image` the buffer `set_region` allocated. */
  ghost function InitState(camNo: nat, traffic: int, gainValue: int, offsetValue: int, us: int,
                           start: Pair, size: Pair, bin: Pair, depth: nat, replies: seq<Reply>,
                           image: Option<array2<nat>>): State
    requires |replies| >= 12 && replies[1].Sdk? && replies[3].Status? && replies[4].Ident?
    requires replies[5].Address? && replies[6].Firmware? && replies[11].ChipInfo?
  {
    WithChipInfo(ConnectedState(camNo, replies), replies[11]).(
      streamMode := Some("single"), usbTraffic := Some(traffic), gain := Some(gainValue),
      offset := Some(offsetValue), exptime := Some(us), regionStart := Some(start),
      regionSize := Some(UsedSize(size, replies[11].imageSize)), regionSet := true, image := image,
      binSize := Some(bin), bitDepth := Some(depth))
  }

  class Qhyccd {
    /** The driver library the session talks to. */
    const lib: Driver

    var ncam: Option<uint32>
    var camNo: Option<nat>
    var camId: Option<string>
    var camIdStr: Option<string>
    var camHandle: Option<nat>
    var usbTraffic: Option<int>
    var gain: Option<int>
    var offset: Option<int>
    /** The exposure time, in whole microseconds. */
    var exptime: Option<int>
    var bitDepth: Option<nat>
    var streamMode: Option<string>
    var regionStart: Option<Pair>
    var regionSize: Option<Pair>
    var regionSet: bool
    /** `self.image`: rows by columns, filled by the driver. */
    var image: Option<array2<nat>>
    var binSize: Option<Pair>
    var chipSize: Option<(real, real)>
    var imageSize: Option<Pair>
    var pixelSize: Option<(real, real)>
    var bpp: Option<uint32>
    var sdkVersion: Option<SdkVersion>
    var firmwareVersion: Option<FirmwareVersion>

    /** All attributes at once. */
    ghost function Snapshot(): State
      reads this
    {
      State(ncam, camNo, camId, camIdStr, camHandle, usbTraffic, gain, offset, exptime,
            bitDepth, streamMode, regionStart, regionSize, regionSet, image, binSize,
            chipSize, imageSize, pixelSize, bpp, sdkVersion, firmwareVersion)
    }

    /** What every method keeps: the driver log is whole, a region size
        comes with a region start, and an image buffer exists exactly when a
        region has been set, with one row per line of that region and one
        column per pixel of a line. */
    ghost predicate Valid()
      reads this, lib
    {
      && lib.Valid()
      && (regionSize.Some? ==> regionStart.Some?)
      && (regionSet <==> image.Some?)
      && (image.Some? ==> regionSize.Some? && image.value.Length0 == regionSize.value.y
                                           && image.value.Length1 == regionSize.value.x)
    }

    /** The calls made since the driver log was `calls0` (answers
        `replies0`) are exactly `made`. */
    ghost predicate Made(calls0: seq<Call>, replies0: seq<Reply>, made: seq<Call>)
      reads lib
    {
      lib.calls == calls0 + made && |lib.replies| == |replies0| + |made| && lib.replies[..|replies0|] == replies0
    }

    /** The answer to the `k`-th call made since the log had answers
        `replies0`. */
    ghost function Answer(replies0: seq<Reply>, k: nat): Reply
      reads lib
      requires |replies0| + k < |lib.replies|
    {
      lib.replies[|replies0| + k]
    }

    /** The log continues the log `calls0` with answers `replies0`. */
    ghost predicate Extended(calls0: seq<Call>, replies0: seq<Reply>)
      reads lib
    {
      && |calls0| == |replies0| && |calls0| <= |lib.calls| && |lib.calls| == |lib.replies|
      && lib.calls[..|calls0|] == calls0 && lib.replies[..|replies0|] == replies0
    }

    /** The calls made since the log was `calls0`. */
    ghost function CallsSince(calls0: seq<Call>): seq<Call>
      reads lib
      requires |calls0| <= |lib.calls|
    {
      lib.calls[|calls0|..]
    }

    /** The answers given since the log had answers `replies0`. */
    ghost function RepliesSince(replies0: seq<Reply>): seq<Reply>
      reads lib
      requires |replies0| <= |lib.replies|
    {
      lib.replies[|replies0|..]
    }

    /** `set_control(name, value)` after `has_control(name)`, as the four
        control setters do it: with no handle the first read of it raises;
        a control the camera lacks raises UNSUPPORTED with no set call;
        otherwise the value is set and its status checked. */
    ghost predicate ControlSet(code: nat, value: int, calls0: seq<Call>, replies0: seq<Reply>, handle: Option<nat>, outcome: Outcome)
      reads lib
    {
      match handle
      case None => outcome == Fail(NO_HANDLE) && Made(calls0, replies0, [])
      case Some(h) =>
        && |replies0| < |lib.replies|
        && lib.replies[|replies0|].Status?
        && if lib.replies[|replies0|].status != 0 then
             outcome == Fail(KeyError(UNSUPPORTED)) && Made(calls0, replies0, [IsQHYCCDControlAvailable(h, code)])
           else
             && Made(calls0, replies0, [IsQHYCCDControlAvailable(h, code), SetQHYCCDParam(h, code, value)])
             && outcome == ReplyOutcome(lib.replies[|replies0| + 1])
    }

    /** A control getter with the cached value `cached`: a cached value is
        returned with no call; otherwise the control is looked for, raises
        UNSUPPORTED if absent, and is queried once if present. */
    ghost predicate ControlGet(code: nat, calls0: seq<Call>, replies0: seq<Reply>, handle: Option<nat>, cached: Option<int>, r: Result<int>)
      reads lib
    {
      if cached.Some? then r == Success(cached.value) && Made(calls0, replies0, [])
      else match handle
        case None => r == Failure(NO_HANDLE) && Made(calls0, replies0, [])
        case Some(h) =>
          && |replies0| < |lib.replies|
          && lib.replies[|replies0|].Status?
          && if lib.replies[|replies0|].status != 0 then
               r == Failure(KeyError(UNSUPPORTED)) && Made(calls0, replies0, [IsQHYCCDControlAvailable(h, code)])
             else
               && Made(calls0, replies0, [IsQHYCCDControlAvailable(h, code), GetQHYCCDParam(h, code)])
               && lib.replies[|replies0| + 1].Value?
               && r == Success(lib.replies[|replies0| + 1].value)
    }

    /** `query_chip_info` from the attributes `before` to `after`. */
    ghost predicate ChipInfoQueried(calls0: seq<Call>, replies0: seq<Reply>, before: State, after: State, outcome: Outcome)
      reads lib
    {
      match before.camHandle
      case None => outcome == Fail(NO_HANDLE) && Made(calls0, replies0, []) && after == before
      case Some(h) =>
        && Made(calls0, replies0, [GetQHYCCDChipInfo(h)])
        && lib.replies[|replies0|].ChipInfo?
        && outcome == ReplyOutcome(lib.replies[|replies0|])
        && after == if outcome.Pass? then WithChipInfo(before, lib.replies[|replies0|]) else before
    }

    /** `query_sdk_version` from the attributes `before` to `after`. */
    ghost predicate SdkQueried(calls0: seq<Call>, replies0: seq<Reply>, before: State, after: State, outcome: Outcome)
      reads lib
    {
      && Made(calls0, replies0, [GetQHYCCDSDKVersion])
      && lib.replies[|replies0|].Sdk?
      && outcome == ReplyOutcome(lib.replies[|replies0|])
      && after == if outcome.Pass? then before.(sdkVersion := Some(lib.replies[|replies0|].version)) else before
    }

    /** `query_firmware_version` from the attributes `before` to `after`. */
    ghost predicate FirmwareQueried(calls0: seq<Call>, replies0: seq<Reply>, before: State, after: State, outcome: Outcome)
      reads lib
    {
      match before.camHandle
      case None => outcome == Fail(NO_HANDLE) && Made(calls0, replies0, []) && after == before
      case Some(h) =>
        && Made(calls0, replies0, [GetQHYCCDFWVersion(h)])
        && lib.replies[|replies0|].Firmware?
        && outcome == ReplyOutcome(lib.replies[|replies0|])
        && after == if outcome.Pass? then
                      before.(firmwareVersion := Some(DecodeFirmware(lib.replies[|replies0|].fwv0, lib.replies[|replies0|].fwv1)))
                    else before
    }

    /** A new object, before `__init__` has run. */
    constructor(lib: Driver)
      requires lib.Valid()
      ensures Valid()
      ensures this.lib == lib && Snapshot() == BLANK
    {
      this.lib := lib;
      ncam, camNo, camId, camIdStr, camHandle := None, None, None, None, None;
      usbTraffic, gain, offset, exptime := None, None, None, None;
      bitDepth, streamMode := None, None;
      regionStart, regionSize, regionSet, image, binSize := None, None, false, None, None;
      chipSize, imageSize, pixelSize, bpp := None, None, None, None;
      sdkVersion, firmwareVersion := None, None;
    }

    // ------------------------------------------------------------ resource

    /** `init_resource`. */
    method InitResource() returns (outcome: Outcome)
      requires Valid()
      modifies lib
      ensures Valid()
      ensures Made(old(lib.calls), old(lib.replies), [InitQHYCCDResource])
      ensures outcome == ReplyOutcome(Answer(old(lib.replies), 0))
    {
      var status := lib.InitQHYCCDResource();
      outcome := StatusOutcome(status);
    }

    /** `release_resource`. */
    method ReleaseResource() returns (outcome: Outcome)
      requires Valid()
      modifies lib
      ensures Valid()
      ensures Made(old(lib.calls), old(lib.replies), [ReleaseQHYCCDResource])
      ensures outcome == ReplyOutcome(Answer(old(lib.replies), 0))
    {
      var status := lib.ReleaseQHYCCDResource();
      outcome := StatusOutcome(status);
    }

    // -------------------------------------------------------------- camera

    /** `scan_cameras`: the number of cameras, kept in `_ncam` once
        `check_status` passes it. */
    method ScanCameras() returns (r: Result<uint32>)
      requires Valid()
      modifies this, lib
      ensures Valid()
      ensures Made(old(lib.calls), old(lib.replies), [ScanQHYCCD]) && Answer(old(lib.replies), 0).Status?
      ensures r == Checked(Answer(old(lib.replies), 0).status)
      ensures Snapshot() == if r.Success? then old(Snapshot()).(ncam := Some(r.value)) else old(Snapshot())
    {
      var status := lib.ScanQHYCCD();
      r := Checked(status);
      if r.Success? {
        ncam := Some(r.value);
      }
    }

    /** `set_camera(cam_no)`: raises NO_MATCH with no driver call when the
        index is not below the camera count; otherwise keeps the index and
        the identifier buffer, and the identifier string once the status
        passes. */
    method SetCamera(index: nat) returns (outcome: Outcome)
      requires Valid()
      modifies this, lib
      ensures Valid()
      ensures old(ncam).None? ==> outcome == Fail(NO_COUNT) && Made(old(lib.calls), old(lib.replies), []) && Snapshot() == old(Snapshot())
      ensures old(ncam).Some? && index >= old(ncam).value ==>
                && outcome == Fail(RuntimeError(NO_MATCH))
                && Made(old(lib.calls), old(lib.replies), [])
                && Snapshot() == old(Snapshot())
      ensures old(ncam).Some? && index < old(ncam).value ==>
                && Made(old(lib.calls), old(lib.replies), [GetQHYCCDId(index)])
                && Answer(old(lib.replies), 0).Ident?
                && outcome == ReplyOutcome(Answer(old(lib.replies), 0))
                && Snapshot() == old(Snapshot()).(camNo := Some(index), camId := Some(Answer(old(lib.replies), 0).id),
                                                  camIdStr := if outcome.Pass? then Some(Answer(old(lib.replies), 0).id) else old(camIdStr))
    {
      if ncam.None? {
        return Fail(NO_COUNT);
      }
      if index >= ncam.value {
        return Fail(RuntimeError(NO_MATCH));
      }
      camNo := Some(index);
      var status, id := lib.GetQHYCCDId(index);
      camId := Some(id);
      outcome := StatusOutcome(status);
      if outcome.Pass? {
        camIdStr := Some(id);
      }
    }

    /** `get_camera_name`: raises when no identifier was read. */
    method GetCameraName() returns (r: Result<string>)
      ensures r == if camIdStr.Some? then Success(camIdStr.value) else Failure(RuntimeError(GENERIC_ERROR))
    {
      if camIdStr.None? {
        return Failure(RuntimeError(GENERIC_ERROR));
      }
      return Success(camIdStr.value);
    }

    /** `open_camera`: raises with no driver call when no identifier buffer
        exists; otherwise keeps the handle the driver returns, even a null
        one, and raises OPENCAM for a null handle. */
    method OpenCamera() returns (outcome: Outcome)
      requires Valid()
      modifies this, lib
      ensures Valid()
      ensures old(camId).None? ==>
                outcome == Fail(RuntimeError(GENERIC_ERROR)) && Made(old(lib.calls), old(lib.replies), []) && Snapshot() == old(Snapshot())
      ensures old(camId).Some? ==>
                && Made(old(lib.calls), old(lib.replies), [OpenQHYCCD(old(camId).value)])
                && Answer(old(lib.replies), 0).Address?
                && Snapshot() == old(Snapshot()).(camHandle := Some(Answer(old(lib.replies), 0).address))
                && outcome == if Answer(old(lib.replies), 0).address == 0 then Fail(RuntimeError(OPENCAM_FAILED)) else Pass
    {
      if camId.None? {
        return Fail(RuntimeError(GENERIC_ERROR));
      }
      var handle := lib.OpenQHYCCD(camId.value);
      camHandle := Some(handle);
      if handle == 0 {
        return Fail(RuntimeError(OPENCAM_FAILED));
      }
      return Pass;
    }

    /** `close_camera`: closes and forgets the handle if there is one, and
        does nothing otherwise; a failed close keeps the handle. */
    method CloseCamera() returns (outcome: Outcome)
      requires Valid()
      modifies this, lib
      ensures Valid()
      ensures old(camHandle).None? ==> outcome == Pass && Made(old(lib.calls), old(lib.replies), []) && Snapshot() == old(Snapshot())
      ensures old(camHandle).Some? ==>
                && Made(old(lib.calls), old(lib.replies), [CloseQHYCCD(old(camHandle).value)])
                && outcome == ReplyOutcome(Answer(old(lib.replies), 0))
                && Snapshot() == if outcome.Pass? then old(Snapshot()).(camHandle := None) else old(Snapshot())
    {
      if camHandle.Some? {
        var status := lib.CloseQHYCCD(camHandle.value);
        outcome := StatusOutcome(status);
        if outcome.Fail? {
          return;
        }
        camHandle := None;
      }
      return Pass;
    }

    /** `init_camera`: raises with no driver call when the camera is not
        open. */
    method InitCamera() returns (outcome: Outcome)
      requires Valid()
      modifies lib
      ensures Valid()
      ensures camHandle.None? ==> outcome == Fail(RuntimeError(GENERIC_ERROR)) && Made(old(lib.calls), old(lib.replies), [])
      ensures camHandle.Some? ==>
                && Made(old(lib.calls), old(lib.replies), [InitQHYCCD(camHandle.value)])
                && outcome == ReplyOutcome(Answer(old(lib.replies), 0))
    {
      if camHandle.None? {
        return Fail(RuntimeError(GENERIC_ERROR));
      }
      var status := lib.InitQHYCCD(camHandle.value);
      outcome := StatusOutcome(status);
    }

    // --------------------------------------------------------- acquisition

    /** `get_image`: raises with no driver call unless the camera is open
        and a region (with its image buffer) has been set; otherwise starts
        an exposure and transfers the frame into the buffer, stopping at the
        first failed status.  No attribute changes. */
    method GetImage() returns (outcome: Outcome)
      requires Valid()
      modifies lib, if image.Some? then {image.value} else {}
      ensures Valid()
      ensures old(camHandle).None? || old(image).None? ==>
                outcome == Fail(RuntimeError(GENERIC_ERROR)) && Made(old(lib.calls), old(lib.replies), [])
      ensures old(camHandle).Some? && old(image).Some? ==>
                RanPrefix(old(lib.calls), old(lib.replies), lib.calls, lib.replies,
                          [ExpQHYCCDSingleFrame(old(camHandle).value), GetQHYCCDSingleFrame(old(camHandle).value)], outcome)
    {
      if camHandle.None? || image.None? {
        return Fail(RuntimeError(GENERIC_ERROR));
      }
      var h := camHandle.value;
      ghost var calls0, replies0 := lib.calls, lib.replies;
      var status := lib.ExpQHYCCDSingleFrame(h);
      outcome := StatusOutcome(status);
      if outcome.Fail? {
        RanPrefixStop(calls0, replies0, ExpQHYCCDSingleFrame(h), Status(status), [GetQHYCCDSingleFrame(h)]);
        return;
      }
      ghost var calls1, replies1 := lib.calls, lib.replies;
      var frameStatus := lib.GetQHYCCDSingleFrame(h, image.value);
      outcome := StatusOutcome(frameStatus);
      RanPrefixLast(calls1, replies1, GetQHYCCDSingleFrame(h), Status(frameStatus));
      RanPrefixStep(calls0, replies0, ExpQHYCCDSingleFrame(h), Status(status), lib.calls, lib.replies,
                    [GetQHYCCDSingleFrame(h)], outcome);
    }

    // -------------------------------------------------- control parameters

    /** `has_control(control)`: whether the driver answers success for the
        control's code; the handle is read before the name is looked up. */
    method HasControl(control: string) returns (r: Result<bool>)
      requires Valid()
      modifies lib
      ensures Valid()
      ensures camHandle.None? ==> r == Failure(NO_HANDLE) && Made(old(lib.calls), old(lib.replies), [])
      ensures camHandle.Some? && ControlCode(control).Failure? ==>
                r == Failure(UnknownName(control)) && Made(old(lib.calls), old(lib.replies), [])
      ensures camHandle.Some? && ControlCode(control).Success? ==>
                && Made(old(lib.calls), old(lib.replies), [IsQHYCCDControlAvailable(camHandle.value, ControlCode(control).value)])
                && Answer(old(lib.replies), 0).Status?
                && r == Success(Answer(old(lib.replies), 0).status == 0)
    {
      if camHandle.None? {
        return Failure(NO_HANDLE);
      }
      var code := ControlCode(control);
      if code.Failure? {
        return Failure(code.error);
      }
      var status := lib.IsQHYCCDControlAvailable(camHandle.value, code.value);
      return Success(status == 0);
    }

    /** `set_control(control, value)`. */
    method SetControl(control: string, value: int) returns (outcome: Outcome)
      requires Valid()
      modifies lib
      ensures Valid()
      ensures camHandle.None? ==> outcome == Fail(NO_HANDLE) && Made(old(lib.calls), old(lib.replies), [])
      ensures camHandle.Some? && ControlCode(control).Failure? ==>
                outcome == Fail(UnknownName(control)) && Made(old(lib.calls), old(lib.replies), [])
      ensures camHandle.Some? && ControlCode(control).Success? ==>
                && Made(old(lib.calls), old(lib.replies), [SetQHYCCDParam(camHandle.value, ControlCode(control).value, value)])
                && outcome == ReplyOutcome(Answer(old(lib.replies), 0))
    {
      if camHandle.None? {
        return Fail(NO_HANDLE);
      }
      var code := ControlCode(control);
      if code.Failure? {
        return Fail(code.error);
      }
      var status := lib.SetQHYCCDParam(camHandle.value, code.value, value);
      outcome := StatusOutcome(status);
    }

    /** `query_control(control)`: the value as the driver reports it, with
        no status to check. */
    method QueryControl(control: string) returns (r: Result<int>)
      requires Valid()
      modifies lib
      ensures Valid()
      ensures camHandle.None? ==> r == Failure(NO_HANDLE) && Made(old(lib.calls), old(lib.replies), [])
      ensures camHandle.Some? && ControlCode(control).Failure? ==>
                r == Failure(UnknownName(control)) && Made(old(lib.calls), old(lib.replies), [])
      ensures camHandle.Some? && ControlCode(control).Success? ==>
                && Made(old(lib.calls), old(lib.replies), [GetQHYCCDParam(camHandle.value, ControlCode(control).value)])
                && Answer(old(lib.replies), 0).Value?
                && r == Success(Answer(old(lib.replies), 0).value)
    {
      if camHandle.None? {
        return Failure(NO_HANDLE);
      }
      var code := ControlCode(control);
      if code.Failure? {
        return Failure(code.error);
      }
      var value := lib.GetQHYCCDParam(camHandle.value, code.value);
      return Success(value);
    }

    /** `has_control` for a control the wrapper names itself. */
    method HasKnownControl(control: string, code: nat) returns (r: Result<bool>)
      requires Valid()
      requires ControlCode(control) == Success(code)
      modifies lib
      ensures Valid()
      ensures camHandle.None? ==> r == Failure(NO_HANDLE) && Made(old(lib.calls), old(lib.replies), [])
      ensures camHandle.Some? ==>
                && Made(old(lib.calls), old(lib.replies), [IsQHYCCDControlAvailable(camHandle.value, code)])
                && Answer(old(lib.replies), 0).Status?
                && r == Success(Answer(old(lib.replies), 0).status == 0)
    {
      r := HasControl(control);
    }

    /** `has_control('CAM_SINGLEFRAMEMODE')`. */
    method HasSingleFrameMode() returns (r: Result<bool>)
      requires Valid()
      modifies lib
      ensures Valid()
      ensures camHandle.None? ==> r == Failure(NO_HANDLE) && Made(old(lib.calls), old(lib.replies), [])
      ensures camHandle.Some? ==>
                && Made(old(lib.calls), old(lib.replies), [IsQHYCCDControlAvailable(camHandle.value, 57)])
                && Answer(old(lib.replies), 0).Status?
                && r == Success(Answer(old(lib.replies), 0).status == 0)
    {
      CapabilityCodes();
      r := HasKnownControl("CAM_SINGLEFRAMEMODE", 57);
    }

    /** `has_control('CAM_COLOR')`. */
    method HasColorSensor() returns (r: Result<bool>)
      requires Valid()
      modifies lib
      ensures Valid()
      ensures camHandle.None? ==> r == Failure(NO_HANDLE) && Made(old(lib.calls), old(lib.replies), [])
      ensures camHandle.Some? ==>
                && Made(old(lib.calls), old(lib.replies), [IsQHYCCDControlAvailable(camHandle.value, 20)])
                && Answer(old(lib.replies), 0).Status?
                && r == Success(Answer(old(lib.replies), 0).status == 0)
    {
      CapabilityCodes();
      r := HasKnownControl("CAM_COLOR", 20);
    }

    /** `has_control` then `set_control` for a control the wrapper names
        itself, raising UNSUPPORTED when the camera lacks it. */
    method SetKnownControl(control: string, code: nat, value: int) returns (outcome: Outcome)
      requires Valid()
      requires ControlCode(control) == Success(code)
      modifies lib
      ensures Valid()
      ensures ControlSet(code, value, old(lib.calls), old(lib.replies), camHandle, outcome)
    {
      var has := HasControl(control);
      if has.Failure? {
        return Fail(has.error);
      }
      if !has.value {
        return Fail(KeyError(UNSUPPORTED));
      }
      outcome := SetControl(control, value);
    }

    /** `has_control` then `query_control` for a control the wrapper names
        itself, raising UNSUPPORTED when the camera lacks it. */
    method QueryKnownControl(control: string, code: nat) returns (r: Result<int>)
      requires Valid()
      requires ControlCode(control) == Success(code)
      modifies lib
      ensures Valid()
      ensures ControlGet(code, old(lib.calls), old(lib.replies), camHandle, None, r)
    {
      var has := HasControl(control);
      if has.Failure? {
        return Failure(has.error);
      }
      if !has.value {
        return Failure(KeyError(UNSUPPORTED));
      }
      r := QueryControl(control);
    }

    // ---------------------------------------------------- cached parameters

    /** `set_usbtraffic`: sets `CONTROL_USBTRAFFIC` and caches the value. */
    method SetUsbTraffic(value: int) returns (outcome: Outcome)
      requires Valid()
      modifies this, lib
      ensures Valid()
      ensures ControlSet(12, value, old(lib.calls), old(lib.replies), old(camHandle), outcome)
      ensures Snapshot() == if outcome.Pass? then old(Snapshot()).(usbTraffic := Some(value)) else old(Snapshot())
    {
      ExposureAndTrafficCodes();
      outcome := SetKnownControl("CONTROL_USBTRAFFIC", 12, value);
      if outcome.Pass? {
        usbTraffic := Some(value);
      }
    }

    /** `get_usbtraffic`: the cached value, or `CONTROL_USBTRAFFIC` queried
        once and cached. */
    method GetUsbTraffic() returns (r: Result<int>)
      requires Valid()
      modifies this, lib
      ensures Valid()
      ensures ControlGet(12, old(lib.calls), old(lib.replies), old(camHandle), old(usbTraffic), r)
      ensures Snapshot() == if r.Success? then old(Snapshot()).(usbTraffic := Some(r.value)) else old(Snapshot())
    {
      if usbTraffic.Some? {
        return Success(usbTraffic.value);
      }
      ExposureAndTrafficCodes();
      r := QueryKnownControl("CONTROL_USBTRAFFIC", 12);
      if r.Success? {
        usbTraffic := Some(r.value);
      }
    }

    /** `set_gain`: sets `CONTROL_GAIN` and caches the value. */
    method SetGain(value: int) returns (outcome: Outcome)
      requires Valid()
      modifies this, lib
      ensures Valid()
      ensures ControlSet(6, value, old(lib.calls), old(lib.replies), old(camHandle), outcome)
      ensures Snapshot() == if outcome.Pass? then old(Snapshot()).(gain := Some(value)) else old(Snapshot())
    {
      GainAndOffsetCodes();
      outcome := SetKnownControl("CONTROL_GAIN", 6, value);
      if outcome.Pass? {
        gain := Some(value);
      }
    }

    /** `get_gain`: the cached value, or `CONTROL_GAIN` queried once and
        cached. */
    method GetGain() returns (r: Result<int>)
      requires Valid()
      modifies this, lib
      ensures Valid()
      ensures ControlGet(6, old(lib.calls), old(lib.replies), old(camHandle), old(gain), r)
      ensures Snapshot() == if r.Success? then old(Snapshot()).(gain := Some(r.value)) else old(Snapshot())
    {
      if gain.Some? {
        return Success(gain.value);
      }
      GainAndOffsetCodes();
      r := QueryKnownControl("CONTROL_GAIN", 6);
      if r.Success? {
        gain := Some(r.value);
      }
    }

    /** `set_offset`: sets `CONTROL_OFFSET` and caches the value. */
    method SetOffset(value: int) returns (outcome: Outcome)
      requires Valid()
      modifies this, lib
      ensures Valid()
      ensures ControlSet(7, value, old(lib.calls), old(lib.replies), old(camHandle), outcome)
      ensures Snapshot() == if outcome.Pass? then old(Snapshot()).(offset := Some(value)) else old(Snapshot())
    {
      GainAndOffsetCodes();
      outcome := SetKnownControl("CONTROL_OFFSET", 7, value);
      if outcome.Pass? {
        offset := Some(value);
      }
    }

    /** `get_offset`: the cached value, or `CONTROL_OFFSET` queried once and
        cached. */
    method GetOffset() returns (r: Result<int>)
      requires Valid()
      modifies this, lib
      ensures Valid()
      ensures ControlGet(7, old(lib.calls), old(lib.replies), old(camHandle), old(offset), r)
      ensures Snapshot() == if r.Success? then old(Snapshot()).(offset := Some(r.value)) else old(Snapshot())
    {
      if offset.Some? {
        return Success(offset.value);
      }
      GainAndOffsetCodes();
      r := QueryKnownControl("CONTROL_OFFSET", 7);
      if r.Success? {
        offset := Some(r.value);
      }
    }

    /** `set_exptime(seconds)`: sends `CONTROL_EXPOSURE` the truncated
        number of microseconds and caches exactly that number. */
    method SetExptime(seconds: real) returns (outcome: Outcome)
      requires Valid()
      modifies this, lib
      ensures Valid()
      ensures ControlSet(8, Microseconds(seconds), old(lib.calls), old(lib.replies), old(camHandle), outcome)
      ensures Snapshot() == if outcome.Pass? then old(Snapshot()).(exptime := Some(Microseconds(seconds))) else old(Snapshot())
    {
      ExposureAndTrafficCodes();
      var us := Microseconds(seconds);
      outcome := SetKnownControl("CONTROL_EXPOSURE", 8, us);
      if outcome.Pass? {
        exptime := Some(us);
      }
    }

    /** `get_exptime`: the cached number of microseconds, or
        `CONTROL_EXPOSURE` queried once and cached. */
    method GetExptime() returns (r: Result<int>)
      requires Valid()
      modifies this, lib
      ensures Valid()
      ensures ControlGet(8, old(lib.calls), old(lib.replies), old(camHandle), old(exptime), r)
      ensures Snapshot() == if r.Success? then old(Snapshot()).(exptime := Some(r.value)) else old(Snapshot())
    {
      if exptime.Some? {
        return Success(exptime.value);
      }
      ExposureAndTrafficCodes();
      r := QueryKnownControl("CONTROL_EXPOSURE", 8);
      if r.Success? {
        exptime := Some(r.value);
      }
    }

    // ------------------------------------------------ bit depth and stream

    /** `set_bitdepth`: sends the depth and keeps it once the status passes. */
    method SetBitDepth(depth: nat) returns (outcome: Outcome)
      requires Valid()
      modifies this, lib
      ensures Valid()
      ensures old(camHandle).None? ==> outcome == Fail(NO_HANDLE) && Made(old(lib.calls), old(lib.replies), []) && Snapshot() == old(Snapshot())
      ensures old(camHandle).Some? ==>
                && Made(old(lib.calls), old(lib.replies), [SetQHYCCDBitsMode(old(camHandle).value, depth)])
                && outcome == ReplyOutcome(Answer(old(lib.replies), 0))
                && Snapshot() == if outcome.Pass? then old(Snapshot()).(bitDepth := Some(depth)) else old(Snapshot())
    {
      if camHandle.None? {
        return Fail(NO_HANDLE);
      }
      var status := lib.SetQHYCCDBitsMode(camHandle.value, depth);
      outcome := StatusOutcome(status);
      if outcome.Pass? {
        bitDepth := Some(depth);
      }
    }

    /** `get_bitdepth`: raises when the depth was never set. */
    method GetBitDepth() returns (r: Result<nat>)
      ensures r == if bitDepth.Some? then Success(bitDepth.value) else Failure(RuntimeError(GENERIC_ERROR))
    {
      if bitDepth.None? {
        return Failure(RuntimeError(GENERIC_ERROR));
      }
      return Success(bitDepth.value);
    }

    /** `set_stream_mode(mode)`: a name other than 'single' or 'live'
        raises before any driver call; otherwise its code is sent and the
        name kept once the status passes. */
    method SetStreamMode(mode: string) returns (outcome: Outcome)
      requires Valid()
      modifies this, lib
      ensures Valid()
      ensures StreamModeCode(mode).None? ==>
                outcome == Fail(KeyError(UNSUPPORTED)) && Made(old(lib.calls), old(lib.replies), []) && Snapshot() == old(Snapshot())
      ensures StreamModeCode(mode).Some? && old(camHandle).None? ==>
                outcome == Fail(NO_HANDLE) && Made(old(lib.calls), old(lib.replies), []) && Snapshot() == old(Snapshot())
      ensures StreamModeCode(mode).Some? && old(camHandle).Some? ==>
                && Made(old(lib.calls), old(lib.replies), [SetQHYCCDStreamMode(old(camHandle).value, StreamModeCode(mode).value)])
                && outcome == ReplyOutcome(Answer(old(lib.replies), 0))
                && Snapshot() == if outcome.Pass? then old(Snapshot()).(streamMode := Some(mode)) else old(Snapshot())
    {
      var code := StreamModeCode(mode);
      if code.None? {
        return Fail(KeyError(UNSUPPORTED));
      }
      if camHandle.None? {
        return Fail(NO_HANDLE);
      }
      var status := lib.SetQHYCCDStreamMode(camHandle.value, code.value);
      outcome := StatusOutcome(status);
      if outcome.Pass? {
        streamMode := Some(mode);
      }
    }

    /** `get_stream_mode`: raises when the mode was never set. */
    method GetStreamMode() returns (r: Result<string>)
      ensures r == if streamMode.Some? then Success(streamMode.value) else Failure(RuntimeError(GENERIC_ERROR))
    {
      if streamMode.None? {
        return Failure(RuntimeError(GENERIC_ERROR));
      }
      return Success(streamMode.value);
    }

    // ---------------------------------------------------------- chip info

    /** `query_chip_info`: stores chip size, maximum image size, pixel size
        and bit depth once the status passes. */
    method QueryChipInfo() returns (outcome: Outcome)
      requires Valid()
      modifies this, lib
      ensures Valid()
      ensures ChipInfoQueried(old(lib.calls), old(lib.replies), old(Snapshot()), Snapshot(), outcome)
    {
      if camHandle.None? {
        return Fail(NO_HANDLE);
      }
      var status, chip, size, pixel, depth := lib.GetQHYCCDChipInfo(camHandle.value);
      outcome := StatusOutcome(status);
      if outcome.Pass? {
        StoreChipInfo(ChipInfo(status, chip, size, pixel, depth));
      }
    }

    /** The attributes `query_chip_info` sets from a passing answer. */
    method StoreChipInfo(reply: Reply)
      requires Valid() && reply.ChipInfo?
      modifies this
      ensures Valid() && unchanged(lib)
      ensures Snapshot() == WithChipInfo(old(Snapshot()), reply)
    {
      ghost var before := Snapshot();
      chipSize, imageSize, pixelSize, bpp := Some(reply.chipSize), Some(reply.imageSize), Some(reply.pixelSize), Some(reply.bpp);
      assert Snapshot() == before.(chipSize := chipSize, imageSize := imageSize, pixelSize := pixelSize, bpp := bpp);
    }

    /** `get_chip_size`: the stored chip size, queried first if absent. */
    method GetChipSize() returns (r: Result<(real, real)>)
      requires Valid()
      modifies this, lib
      ensures Valid()
      ensures old(chipSize).Some? ==>
                r == Success(old(chipSize).value) && Made(old(lib.calls), old(lib.replies), []) && Snapshot() == old(Snapshot())
      ensures old(chipSize).None? ==> ChipInfoQueried(old(lib.calls), old(lib.replies), old(Snapshot()), Snapshot(), OutcomeOf(r))
      ensures r.Success? ==> chipSize == Some(r.value)
    {
      if chipSize.None? {
        var outcome := QueryChipInfo();
        if outcome.Fail? {
          return Failure(outcome.error);
        }
      }
      return Success(chipSize.value);
    }

    /** `get_image_size`: the stored maximum image size, queried first if
        absent. */
    method GetImageSize() returns (r: Result<Pair>)
      requires Valid()
      modifies this, lib
      ensures Valid()
      ensures old(imageSize).Some? ==>
                r == Success(old(imageSize).value) && Made(old(lib.calls), old(lib.replies), []) && Snapshot() == old(Snapshot())
      ensures old(imageSize).None? ==> ChipInfoQueried(old(lib.calls), old(lib.replies), old(Snapshot()), Snapshot(), OutcomeOf(r))
      ensures r.Success? ==> imageSize == Some(r.value)
    {
      if imageSize.None? {
        var outcome := QueryChipInfo();
        if outcome.Fail? {
          return Failure(outcome.error);
        }
      }
      return Success(imageSize.value);
    }

    /** `get_pixel_size`: the stored pixel size, queried first if absent. */
    method GetPixelSize() returns (r: Result<(real, real)>)
      requires Valid()
      modifies this, lib
      ensures Valid()
      ensures old(pixelSize).Some? ==>
                r == Success(old(pixelSize).value) && Made(old(lib.calls), old(lib.replies), []) && Snapshot() == old(Snapshot())
      ensures old(pixelSize).None? ==> ChipInfoQueried(old(lib.calls), old(lib.replies), old(Snapshot()), Snapshot(), OutcomeOf(r))
      ensures r.Success? ==> pixelSize == Some(r.value)
    {
      if pixelSize.None? {
        var outcome := QueryChipInfo();
        if outcome.Fail? {
          return Failure(outcome.error);
        }
      }
      return Success(pixelSize.value);
    }

    // ------------------------------------------------------------ geometry

    /** The part of `set_region` after the size is known: a region set
        before is cancelled first; once the resolution is accepted, start
        and size are kept and the image buffer is a fresh zero array of
        `size.y` rows and `size.x` columns.  A failure leaves every
        attribute as it was. */
    method ApplyRegion(start: Pair, size: Pair) returns (outcome: Outcome)
      requires Valid()
      modifies this, lib
      ensures Valid()
      ensures old(camHandle).None? ==> outcome == Fail(NO_HANDLE) && Made(old(lib.calls), old(lib.replies), [])
      ensures old(camHandle).Some? ==>
                RanPrefix(old(lib.calls), old(lib.replies), lib.calls, lib.replies,
                          RegionPlan(old(camHandle).value, start, size, old(regionSet)), outcome)
      ensures Snapshot() == if outcome.Pass? then old(Snapshot()).(regionStart := Some(start), regionSize := Some(size),
                                                                    regionSet := true, image := image)
                            else old(Snapshot())
      ensures outcome.Pass? ==> image.Some? && fresh(image.value)
                                && forall i, j :: 0 <= i < image.value.Length0 && 0 <= j < image.value.Length1 ==> image.value[i, j] == 0
    {
      if camHandle.None? {
        return Fail(NO_HANDLE);
      }
      var h := camHandle.value;
      ghost var calls0, replies0 := lib.calls, lib.replies;
      ghost var cancelReply := Status(0);
      if regionSet {
        var status := lib.CancelQHYCCDExposingAndReadout(h);
        cancelReply := Status(status);
        outcome := StatusOutcome(status);
        if outcome.Fail? {
          RanPrefixStop(calls0, replies0, CancelQHYCCDExposingAndReadout(h), cancelReply,
                        [SetQHYCCDResolution(h, start.x, start.y, size.x, size.y)]);
          return;
        }
      }
      ghost var calls1, replies1 := lib.calls, lib.replies;
      var status := lib.SetQHYCCDResolution(h, start.x, start.y, size.x, size.y);
      outcome := StatusOutcome(status);
      RanPrefixLast(calls1, replies1, SetQHYCCDResolution(h, start.x, start.y, size.x, size.y), Status(status));
      if old(regionSet) {
        RanPrefixStep(calls0, replies0, CancelQHYCCDExposingAndReadout(h), cancelReply, lib.calls, lib.replies,
                      [SetQHYCCDResolution(h, start.x, start.y, size.x, size.y)], outcome);
      }
      if outcome.Fail? {
        return;
      }
      StoreRegion(start, size);
    }

    /** Keeps an accepted region and gives it a fresh zero image buffer. */
    method StoreRegion(start: Pair, size: Pair)
      requires Valid()
      modifies this
      ensures Valid()
      ensures Snapshot() == old(Snapshot()).(regionStart := Some(start), regionSize := Some(size), regionSet := true, image := image)
      ensures image.Some? && fresh(image.value)
      ensures forall i, j :: 0 <= i < image.value.Length0 && 0 <= j < image.value.Length1 ==> image.value[i, j] == 0
    {
      ghost var before := Snapshot();
      var buffer := new nat[size.y, size.x]((_, _) => 0);
      regionStart, regionSize, regionSet, image := Some(start), Some(size), true, Some(buffer);
      assert Snapshot() == before.(regionStart := regionStart, regionSize := regionSize, regionSet := true, image := image);
    }

    /** `set_region(start, size)`: an empty size (`size.x * size.y == 0`)
        means the maximum image size, queried first when it is not stored;
        then the region is applied as `ApplyRegion` says.  With no handle it
        raises before any driver call. */
    method SetRegion(start: Pair, size: Pair) returns (outcome: Outcome)
      requires Valid()
      modifies this, lib
      ensures Valid()
      ensures old(camHandle).None? ==>
                outcome == Fail(NO_HANDLE) && Made(old(lib.calls), old(lib.replies), []) && Snapshot() == old(Snapshot())
      ensures old(camHandle).Some? && (size.x * size.y != 0 || old(imageSize).Some?) ==>
                var used := if size.x * size.y != 0 then size else old(imageSize).value;
                && RanPrefix(old(lib.calls), old(lib.replies), lib.calls, lib.replies,
                             RegionPlan(old(camHandle).value, start, used, old(regionSet)), outcome)
                && Snapshot() == if outcome.Pass? then old(Snapshot()).(regionStart := Some(start), regionSize := Some(used),
                                                                         regionSet := true, image := image)
                                 else old(Snapshot())
      ensures old(camHandle).Some? && size.x * size.y == 0 && old(imageSize).None? ==>
                && |old(lib.replies)| < |lib.replies|
                && Answer(old(lib.replies), 0).ChipInfo?
                && var chip := WithChipInfo(old(Snapshot()), Answer(old(lib.replies), 0));
                   var used := Answer(old(lib.replies), 0).imageSize;
                   && RanPrefix(old(lib.calls), old(lib.replies), lib.calls, lib.replies,
                                [GetQHYCCDChipInfo(old(camHandle).value)] + RegionPlan(old(camHandle).value, start, used, old(regionSet)),
                                outcome)
                   && Snapshot() == if outcome.Pass? then chip.(regionStart := Some(start), regionSize := Some(used),
                                                                regionSet := true, image := image)
                                    else if ReplyOutcome(Answer(old(lib.replies), 0)).Pass? then chip
                                    else old(Snapshot())
      ensures outcome.Pass? ==> image.Some? && fresh(image.value)
                                && forall i, j :: 0 <= i < image.value.Length0 && 0 <= j < image.value.Length1 ==> image.value[i, j] == 0
    {
      var used := size;
      ghost var calls0, replies0 := lib.calls, lib.replies;
      if size.x * size.y == 0 {
        var queried := GetImageSize();
        if queried.Failure? {
          if old(camHandle).Some? {
            RanPrefixStop(calls0, replies0, GetQHYCCDChipInfo(old(camHandle).value), Answer(replies0, 0),
                          RegionPlan(old(camHandle).value, start, Answer(replies0, 0).imageSize, old(regionSet)));
          }
          return Fail(queried.error);
        }
        used := queried.value;
      }
      ghost var calls1, replies1 := lib.calls, lib.replies;
      outcome := ApplyRegion(start, used);
      if size.x * size.y == 0 && old(imageSize).None? && old(camHandle).Some? {
        RanPrefixStep(calls0, replies0, GetQHYCCDChipInfo(old(camHandle).value), Answer(replies0, 0), lib.calls, lib.replies,
                      RegionPlan(old(camHandle).value, start, used, old(regionSet)), outcome);
      }
    }

    /** `get_region`: the stored start and size; with no size stored, the
        start becomes [0, 0] and the size the maximum image size.  The start
        is stored before the size is asked for, so a failed chip-info query
        leaves it set. */
    method GetRegion() returns (r: Result<(Pair, Pair)>)
      requires Valid()
      modifies this, lib
      ensures Valid()
      ensures old(regionSize).Some? ==>
                && r == Success((old(regionStart).value, old(regionSize).value))
                && Made(old(lib.calls), old(lib.replies), []) && Snapshot() == old(Snapshot())
      ensures old(regionSize).None? && old(imageSize).Some? ==>
                && r == Success((Pair(0, 0), old(imageSize).value))
                && Made(old(lib.calls), old(lib.replies), [])
                && Snapshot() == old(Snapshot()).(regionStart := Some(Pair(0, 0)), regionSize := old(imageSize))
      ensures old(regionSize).None? && old(imageSize).None? ==>
                && ChipInfoQueried(old(lib.calls), old(lib.replies), old(Snapshot()),
                                   Snapshot().(regionStart := old(regionStart), regionSize := None), OutcomeOf(r))
                && regionStart == Some(Pair(0, 0))
                && (r.Success? ==> regionSize == imageSize && r == Success((Pair(0, 0), imageSize.value)))
                && (r.Failure? ==> regionSize.None?)
    {
      if regionSize.None? {
        regionStart := Some(Pair(0, 0));
        var queried := GetImageSize();
        if queried.Failure? {
          return Failure(queried.error);
        }
        regionSize := Some(queried.value);
      }
      return Success((regionStart.value, regionSize.value));
    }

    /** `set_binsize`: sends the binning and keeps it once the status
        passes. */
    method SetBinSize(bin: Pair) returns (outcome: Outcome)
      requires Valid()
      modifies this, lib
      ensures Valid()
      ensures old(camHandle).None? ==> outcome == Fail(NO_HANDLE) && Made(old(lib.calls), old(lib.replies), []) && Snapshot() == old(Snapshot())
      ensures old(camHandle).Some? ==>
                && Made(old(lib.calls), old(lib.replies), [SetQHYCCDBinMode(old(camHandle).value, bin.x, bin.y)])
                && outcome == ReplyOutcome(Answer(old(lib.replies), 0))
                && Snapshot() == if outcome.Pass? then old(Snapshot()).(binSize := Some(bin)) else old(Snapshot())
    {
      if camHandle.None? {
        return Fail(NO_HANDLE);
      }
      var status := lib.SetQHYCCDBinMode(camHandle.value, bin.x, bin.y);
      outcome := StatusOutcome(status);
      if outcome.Pass? {
        binSize := Some(bin);
      }
    }

    /** `get_binsize`: the stored binning, [1, 1] (and stored) when none
        was set; never a driver call. */
    method GetBinSize() returns (bin: Pair)
      modifies this
      ensures bin == if old(binSize).Some? then old(binSize).value else Pair(1, 1)
      ensures Snapshot() == old(Snapshot()).(binSize := Some(bin))
    {
      if binSize.None? {
        binSize := Some(Pair(1, 1));
      }
      return binSize.value;
    }

    // --------------------------------------------------------- temperature

    /** `get_temperature`: `CONTROL_CURTEMP`, queried each time. */
    method GetTemperature() returns (r: Result<int>)
      requires Valid()
      modifies lib
      ensures Valid()
      ensures ControlGet(14, old(lib.calls), old(lib.replies), camHandle, None, r)
    {
      TemperatureCodes();
      r := QueryKnownControl("CONTROL_CURTEMP", 14);
    }

    /** `get_target_temperature`: `CONTROL_COOLER`, queried each time. */
    method GetTargetTemperature() returns (r: Result<int>)
      requires Valid()
      modifies lib
      ensures Valid()
      ensures ControlGet(18, old(lib.calls), old(lib.replies), camHandle, None, r)
    {
      TemperatureCodes();
      r := QueryKnownControl("CONTROL_COOLER", 18);
    }

    /** `set_target_temperature`: sets `CONTROL_COOLER`; nothing is cached. */
    method SetTargetTemperature(temp: int) returns (outcome: Outcome)
      requires Valid()
      modifies lib
      ensures Valid()
      ensures ControlSet(18, temp, old(lib.calls), old(lib.replies), camHandle, outcome)
    {
      TemperatureCodes();
      outcome := SetKnownControl("CONTROL_COOLER", 18, temp);
    }

    // ------------------------------------------------------------ versions

    /** `query_sdk_version`. */
    method QuerySdkVersion() returns (outcome: Outcome)
      requires Valid()
      modifies this, lib
      ensures Valid()
      ensures SdkQueried(old(lib.calls), old(lib.replies), old(Snapshot()), Snapshot(), outcome)
    {
      var status, version := lib.GetQHYCCDSDKVersion();
      outcome := StatusOutcome(status);
      if outcome.Pass? {
        sdkVersion := Some(version);
      }
    }

    /** `get_sdk_version`: the stored version, queried first if absent. */
    method GetSdkVersion() returns (r: Result<SdkVersion>)
      requires Valid()
      modifies this, lib
      ensures Valid()
      ensures old(sdkVersion).Some? ==>
                r == Success(old(sdkVersion).value) && Made(old(lib.calls), old(lib.replies), []) && Snapshot() == old(Snapshot())
      ensures old(sdkVersion).None? ==> SdkQueried(old(lib.calls), old(lib.replies), old(Snapshot()), Snapshot(), OutcomeOf(r))
      ensures r.Success? ==> sdkVersion == Some(r.value)
    {
      if sdkVersion.None? {
        var outcome := QuerySdkVersion();
        if outcome.Fail? {
          return Failure(outcome.error);
        }
      }
      return Success(sdkVersion.value);
    }

    /** `query_firmware_version`: decodes the first two bytes the camera
        writes. */
    method QueryFirmwareVersion() returns (outcome: Outcome)
      requires Valid()
      modifies this, lib
      ensures Valid()
      ensures FirmwareQueried(old(lib.calls), old(lib.replies), old(Snapshot()), Snapshot(), outcome)
    {
      if camHandle.None? {
        return Fail(NO_HANDLE);
      }
      var status, fwv0, fwv1 := lib.GetQHYCCDFWVersion(camHandle.value);
      outcome := StatusOutcome(status);
      if outcome.Pass? {
        firmwareVersion := Some(DecodeFirmware(fwv0, fwv1));
      }
    }

    /** `get_firmware_version`: the stored version, queried first if
        absent. */
    method GetFirmwareVersion() returns (r: Result<FirmwareVersion>)
      requires Valid()
      modifies this, lib
      ensures Valid()
      ensures old(firmwareVersion).Some? ==>
                r == Success(old(firmwareVersion).value) && Made(old(lib.calls), old(lib.replies), []) && Snapshot() == old(Snapshot())
      ensures old(firmwareVersion).None? ==> FirmwareQueried(old(lib.calls), old(lib.replies), old(Snapshot()), Snapshot(), OutcomeOf(r))
      ensures r.Success? ==> firmwareVersion == Some(r.value)
    {
      if firmwareVersion.None? {
        var outcome := QueryFirmwareVersion();
        if outcome.Fail? {
          return Failure(outcome.error);
        }
      }
      return Success(firmwareVersion.value);
    }

    // ------------------------------------------------------------ __init__

    /** The start of `__init__`: the log level (its status unchecked), the
        SDK version, the resource and the scan; a count of zero raises
        NO_DEVICE. */
    method FindCameras() returns (outcome: Outcome)
      requires Valid() && Snapshot() == BLANK
      modifies this, lib
      ensures Valid() && Extended(old(lib.calls), old(lib.replies)) && |CallsSince(old(lib.calls))| <= 4
      ensures outcome.Pass? <==>
                Scanned(CallsSince(old(lib.calls)), RepliesSince(old(lib.replies))) && RepliesSince(old(lib.replies))[3].status != 0
      ensures outcome == Fail(RuntimeError(NO_DEVICE)) <==> FoundNone(CallsSince(old(lib.calls)), RepliesSince(old(lib.replies)))
      ensures outcome.Pass? || outcome == Fail(RuntimeError(NO_DEVICE)) ==>
                Snapshot() == BLANK.(sdkVersion := Some(RepliesSince(old(lib.replies))[1].version),
                                     ncam := Some(RepliesSince(old(lib.replies))[3].status))
      ensures outcome.Fail? ==> outcome.error.StatusError? || outcome.error == RuntimeError(NO_DEVICE)
      ensures !regionSet && camHandle.None?
    {
      ghost var calls0, replies0 := lib.calls, lib.replies;
      var level := lib.SetQHYCCDLogLevel(0);
      assert lib.replies == replies0 + [Status(level)];
      var sdk := GetSdkVersion();
      ghost var sdkReply := Answer(replies0, 1);
      assert lib.replies == replies0 + [Status(level), sdkReply];
      if sdk.Failure? {
        return Fail(sdk.error);
      }
      outcome := InitResource();
      ghost var initReply := Answer(replies0, 2);
      assert lib.replies == replies0 + [Status(level), sdkReply, initReply];
      if outcome.Fail? {
        return;
      }
      var count := ScanCameras();
      ghost var scanReply := Answer(replies0, 3);
      assert CallsSince(calls0) == SCAN_PLAN;
      assert lib.replies == replies0 + [Status(level), sdkReply, initReply, scanReply];
      if count.Failure? {
        return Fail(count.error);
      }
      outcome := if count.value == 0 then Fail(RuntimeError(NO_DEVICE)) else Pass;
    }

    /** The part of `__init__` that opens camera `index` once cameras were
        counted: an index at or past the count raises NO_MATCH before any
        call; otherwise the identifier is read and printed, the camera
        opened and the firmware version read. */
    method OpenChosen(index: nat) returns (outcome: Outcome)
      requires Valid() && ncam.Some? && camId.None? && camIdStr.None? && camHandle.None? && firmwareVersion.None?
      modifies this, lib
      ensures Valid() && Extended(old(lib.calls), old(lib.replies)) && |CallsSince(old(lib.calls))| <= 3
      ensures outcome.Pass? <==> OpenedLog(index, CallsSince(old(lib.calls)), RepliesSince(old(lib.replies)))
      ensures outcome.Pass? ==>
                var replies := RepliesSince(old(lib.replies));
                Snapshot() == old(Snapshot()).(camNo := Some(index), camId := Some(replies[0].id), camIdStr := Some(replies[0].id),
                                               camHandle := Some(replies[1].address),
                                               firmwareVersion := Some(DecodeFirmware(replies[2].fwv0, replies[2].fwv1)))
      ensures outcome == Fail(RuntimeError(NO_MATCH)) <==> index >= old(ncam).value
      ensures outcome == Fail(RuntimeError(NO_MATCH)) ==> CallsSince(old(lib.calls)) == []
      ensures outcome.Fail? ==>
                outcome.error.StatusError? || outcome.error in {RuntimeError(NO_MATCH), RuntimeError(OPENCAM_FAILED)}
      ensures regionSet == old(regionSet)
    {
      ghost var replies0 := lib.replies;
      outcome := SetCamera(index);
      if outcome.Fail? {
        return;
      }
      var _ := GetCameraName();
      outcome := OpenCamera();
      if outcome.Fail? {
        return;
      }
      ghost var replies1 := lib.replies;
      var firmware := GetFirmwareVersion();
      Continued(replies0, replies1, lib.replies);
      outcome := OutcomeOf(firmware);
    }

    /** The part of `__init__` that puts the open camera in single-frame
        mode: a camera without it raises UNSUPPORTED; otherwise the stream
        mode becomes 'single' (and is printed) and the camera is
        initialised. */
    method SelectSingleFrame() returns (outcome: Outcome)
      requires Valid() && camHandle.Some? && camIdStr.Some?
      modifies this, lib
      ensures Valid() && Extended(old(lib.calls), old(lib.replies))
      ensures 1 <= |CallsSince(old(lib.calls))| <= 3
      ensures CallsSince(old(lib.calls))[0] == IsQHYCCDControlAvailable(old(camHandle).value, 57)
      ensures RepliesSince(old(lib.replies))[0].Status? && RepliesSince(old(lib.replies))[0] != Status(0) ==>
                outcome == Fail(KeyError(UNSUPPORTED)) && |CallsSince(old(lib.calls))| == 1
      ensures outcome.Pass? <==> SingleFrameLog(old(camHandle).value, CallsSince(old(lib.calls)), RepliesSince(old(lib.replies)))
      ensures outcome.Pass? ==> Snapshot() == old(Snapshot()).(streamMode := Some("single"))
      ensures outcome.Fail? ==> outcome.error.StatusError? || outcome.error == KeyError(UNSUPPORTED)
      ensures regionSet == old(regionSet) && camHandle == old(camHandle)
    {
      ghost var calls0, replies0 := lib.calls, lib.replies;
      var single := HasSingleFrameMode();
      ghost var singleReply := Answer(replies0, 0);
      assert CallsSince(calls0) == [IsQHYCCDControlAvailable(camHandle.value, 57)];
      assert RepliesSince(replies0) == [singleReply];
      if !single.value {
        return Fail(KeyError(UNSUPPORTED));
      }
      outcome := SetStreamMode("single");
      ghost var modeReply := Answer(replies0, 1);
      assert CallsSince(calls0) == SingleFramePlan(camHandle.value)[..2];
      assert RepliesSince(replies0) == [singleReply, modeReply];
      if outcome.Fail? {
        return;
      }
      var _ := GetStreamMode();
      outcome := InitCamera();
      ghost var initReply := Answer(replies0, 2);
      assert RepliesSince(replies0) == [singleReply, modeReply, initReply];
      assert CallsSince(calls0) == SingleFramePlan(old(camHandle).value);
      var _ := GetCameraName();
    }

    /** The part of `__init__` that describes the sensor for printing: the
        colour capability, and the chip information, queried once and then
        read from the attributes. */
    method DescribeChip() returns (outcome: Outcome)
      requires Valid() && camHandle.Some? && imageSize.None?
      modifies this, lib
      ensures Valid() && Extended(old(lib.calls), old(lib.replies)) && |CallsSince(old(lib.calls))| <= 2
      ensures outcome.Pass? <==> DescribedLog(old(camHandle).value, CallsSince(old(lib.calls)), RepliesSince(old(lib.replies)))
      ensures outcome.Pass? ==> Snapshot() == WithChipInfo(old(Snapshot()), RepliesSince(old(lib.replies))[1])
      ensures outcome.Fail? ==> outcome.error.StatusError?
      ensures regionSet == old(regionSet) && camHandle == old(camHandle)
    {
      ghost var calls0, replies0 := lib.calls, lib.replies;
      var color := HasColorSensor();
      ghost var colorReply := Answer(replies0, 0);
      var size := GetImageSize();
      ghost var chipReply := Answer(replies0, 1);
      assert RepliesSince(replies0) == [colorReply, chipReply];
      assert CallsSince(calls0) == DescribePlan(old(camHandle).value);
      if size.Failure? {
        return Fail(size.error);
      }
      ghost var calls2, replies2 := lib.calls, lib.replies;
      var _ := GetImageSize();
      var _ := GetChipSize();
      var _ := GetPixelSize();
      assert lib.calls == calls2 && lib.replies == replies2 by {
        assert lib.replies == lib.replies[..|replies2|];
      }
      return Pass;
    }

    /** The part of `__init__` that prepares the open camera: single-frame
        mode, then the sensor described. */
    method ConfigureMode() returns (outcome: Outcome)
      requires Valid() && camHandle.Some? && camIdStr.Some? && imageSize.None?
      modifies this, lib
      ensures Valid() && Extended(old(lib.calls), old(lib.replies))
      ensures 1 <= |CallsSince(old(lib.calls))| <= 5
      ensures CallsSince(old(lib.calls))[0] == IsQHYCCDControlAvailable(old(camHandle).value, 57)
      ensures RepliesSince(old(lib.replies))[0].Status? && RepliesSince(old(lib.replies))[0] != Status(0) ==>
                outcome == Fail(KeyError(UNSUPPORTED)) && |CallsSince(old(lib.calls))| == 1
      ensures outcome.Pass? <==> ModeLog(old(camHandle).value, CallsSince(old(lib.calls)), RepliesSince(old(lib.replies)))
      ensures outcome.Pass? ==>
                Snapshot() == WithChipInfo(old(Snapshot()).(streamMode := Some("single")), RepliesSince(old(lib.replies))[4])
      ensures outcome.Fail? ==> outcome.error.StatusError? || outcome.error == KeyError(UNSUPPORTED)
      ensures regionSet == old(regionSet) && camHandle == old(camHandle)
    {
      ghost var calls0, replies0 := lib.calls, lib.replies;
      outcome := SelectSingleFrame();
      if outcome.Fail? {
        return;
      }
      ghost var calls1, replies1 := lib.calls, lib.replies;
      outcome := DescribeChip();
      Continued(calls0, calls1, lib.calls);
      Continued(replies0, replies1, lib.replies);
    }

    /** `set_usbtraffic` in `__init__`, then the value printed from the cache. */
    method ApplyUsbTraffic(traffic: int) returns (outcome: Outcome)
      requires Valid() && camHandle.Some?
      modifies this, lib
      ensures Valid() && Extended(old(lib.calls), old(lib.replies)) && |CallsSince(old(lib.calls))| <= 2
      ensures outcome.Pass? <==> ControlLog(old(camHandle).value, 12, traffic, CallsSince(old(lib.calls)), RepliesSince(old(lib.replies)))
      ensures outcome.Pass? ==> Snapshot() == old(Snapshot()).(usbTraffic := Some(traffic))
      ensures outcome.Fail? ==> outcome.error.StatusError? || outcome.error == KeyError(UNSUPPORTED)
      ensures regionSet == old(regionSet) && camHandle == old(camHandle)
    {
      ghost var calls0, replies0 := lib.calls, lib.replies;
      outcome := SetUsbTraffic(traffic);
      if outcome.Fail? {
        return;
      }
      ghost var replies1 := lib.replies;
      var _ := GetUsbTraffic();
      assert lib.replies == replies1 by {
        assert lib.replies == lib.replies[..|replies1|];
      }
      assert CallsSince(calls0) == [IsQHYCCDControlAvailable(camHandle.value, 12), SetQHYCCDParam(camHandle.value, 12, traffic)];
      assert RepliesSince(replies0) == [Answer(replies0, 0), Answer(replies0, 1)];
    }

    /** `set_gain` in `__init__`, then the value printed from the cache. */
    method ApplyGain(gainValue: int) returns (outcome: Outcome)
      requires Valid() && camHandle.Some?
      modifies this, lib
      ensures Valid() && Extended(old(lib.calls), old(lib.replies)) && |CallsSince(old(lib.calls))| <= 2
      ensures outcome.Pass? <==> ControlLog(old(camHandle).value, 6, gainValue, CallsSince(old(lib.calls)), RepliesSince(old(lib.replies)))
      ensures outcome.Pass? ==> Snapshot() == old(Snapshot()).(gain := Some(gainValue))
      ensures outcome.Fail? ==> outcome.error.StatusError? || outcome.error == KeyError(UNSUPPORTED)
      ensures regionSet == old(regionSet) && camHandle == old(camHandle)
    {
      ghost var calls0, replies0 := lib.calls, lib.replies;
      outcome := SetGain(gainValue);
      if outcome.Fail? {
        return;
      }
      ghost var replies1 := lib.replies;
      var _ := GetGain();
      assert lib.replies == replies1 by {
        assert lib.replies == lib.replies[..|replies1|];
      }
      assert CallsSince(calls0) == [IsQHYCCDControlAvailable(camHandle.value, 6), SetQHYCCDParam(camHandle.value, 6, gainValue)];
      assert RepliesSince(replies0) == [Answer(replies0, 0), Answer(replies0, 1)];
    }

    /** `set_offset` in `__init__`, then the value printed from the cache. */
    method ApplyOffset(offsetValue: int) returns (outcome: Outcome)
      requires Valid() && camHandle.Some?
      modifies this, lib
      ensures Valid() && Extended(old(lib.calls), old(lib.replies)) && |CallsSince(old(lib.calls))| <= 2
      ensures outcome.Pass? <==> ControlLog(old(camHandle).value, 7, offsetValue, CallsSince(old(lib.calls)), RepliesSince(old(lib.replies)))
      ensures outcome.Pass? ==> Snapshot() == old(Snapshot()).(offset := Some(offsetValue))
      ensures outcome.Fail? ==> outcome.error.StatusError? || outcome.error == KeyError(UNSUPPORTED)
      ensures regionSet == old(regionSet) && camHandle == old(camHandle)
    {
      ghost var calls0, replies0 := lib.calls, lib.replies;
      outcome := SetOffset(offsetValue);
      if outcome.Fail? {
        return;
      }
      ghost var replies1 := lib.replies;
      var _ := GetOffset();
      assert lib.replies == replies1 by {
        assert lib.replies == lib.replies[..|replies1|];
      }
      assert CallsSince(calls0) == [IsQHYCCDControlAvailable(camHandle.value, 7), SetQHYCCDParam(camHandle.value, 7, offsetValue)];
      assert RepliesSince(replies0) == [Answer(replies0, 0), Answer(replies0, 1)];
    }

    /** `set_exptime` in `__init__`, then the value printed from the cache; the
        exposure time goes in whole microseconds. */
    method ApplyExptime(seconds: real) returns (outcome: Outcome)
      requires Valid() && camHandle.Some?
      modifies this, lib
      ensures Valid() && Extended(old(lib.calls), old(lib.replies)) && |CallsSince(old(lib.calls))| <= 2
      ensures outcome.Pass? <==> ControlLog(old(camHandle).value, 8, Microseconds(seconds), CallsSince(old(lib.calls)), RepliesSince(old(lib.replies)))
      ensures outcome.Pass? ==> Snapshot() == old(Snapshot()).(exptime := Some(Microseconds(seconds)))
      ensures outcome.Fail? ==> outcome.error.StatusError? || outcome.error == KeyError(UNSUPPORTED)
      ensures regionSet == old(regionSet) && camHandle == old(camHandle)
    {
      ghost var calls0, replies0 := lib.calls, lib.replies;
      outcome := SetExptime(seconds);
      if outcome.Fail? {
        return;
      }
      ghost var replies1 := lib.replies;
      var _ := GetExptime();
      assert lib.replies == replies1 by {
        assert lib.replies == lib.replies[..|replies1|];
      }
      assert CallsSince(calls0) == [IsQHYCCDControlAvailable(camHandle.value, 8), SetQHYCCDParam(camHandle.value, 8, Microseconds(seconds))];
      assert RepliesSince(replies0) == [Answer(replies0, 0), Answer(replies0, 1)];
    }

    /** The USB traffic and gain settings of `__init__`. */
    method ApplyTrafficAndGain(traffic: int, gainValue: int) returns (outcome: Outcome)
      requires Valid() && camHandle.Some?
      modifies this, lib
      ensures Valid() && Extended(old(lib.calls), old(lib.replies)) && |CallsSince(old(lib.calls))| <= 4
      ensures outcome.Pass? <==>
                ControlPairLog(old(camHandle).value, 12, traffic, 6, gainValue, CallsSince(old(lib.calls)), RepliesSince(old(lib.replies)))
      ensures outcome.Pass? ==> Snapshot() == old(Snapshot()).(usbTraffic := Some(traffic), gain := Some(gainValue))
      ensures outcome.Fail? ==> outcome.error.StatusError? || outcome.error == KeyError(UNSUPPORTED)
      ensures regionSet == old(regionSet) && camHandle == old(camHandle)
    {
      ghost var calls0, replies0 := lib.calls, lib.replies;
      outcome := ApplyUsbTraffic(traffic);
      if outcome.Fail? {
        return;
      }
      ghost var calls1, replies1 := lib.calls, lib.replies;
      outcome := ApplyGain(gainValue);
      Continued(calls0, calls1, lib.calls);
      Continued(replies0, replies1, lib.replies);
    }

    /** The offset and exposure-time settings of `__init__`. */
    method ApplyOffsetAndExposure(offsetValue: int, seconds: real) returns (outcome: Outcome)
      requires Valid() && camHandle.Some?
      modifies this, lib
      ensures Valid() && Extended(old(lib.calls), old(lib.replies)) && |CallsSince(old(lib.calls))| <= 4
      ensures outcome.Pass? <==>
                ControlPairLog(old(camHandle).value, 7, offsetValue, 8, Microseconds(seconds), CallsSince(old(lib.calls)), RepliesSince(old(lib.replies)))
      ensures outcome.Pass? ==> Snapshot() == old(Snapshot()).(offset := Some(offsetValue), exptime := Some(Microseconds(seconds)))
      ensures outcome.Fail? ==> outcome.error.StatusError? || outcome.error == KeyError(UNSUPPORTED)
      ensures regionSet == old(regionSet) && camHandle == old(camHandle)
    {
      ghost var calls0, replies0 := lib.calls, lib.replies;
      outcome := ApplyOffset(offsetValue);
      if outcome.Fail? {
        return;
      }
      ghost var calls1, replies1 := lib.calls, lib.replies;
      outcome := ApplyExptime(seconds);
      Continued(calls0, calls1, lib.calls);
      Continued(replies0, replies1, lib.replies);
    }

    /** The four control settings of `__init__`. */
    method ApplyParameters(traffic: int, gainValue: int, offsetValue: int, seconds: real) returns (outcome: Outcome)
      requires Valid() && camHandle.Some?
      modifies this, lib
      ensures Valid() && Extended(old(lib.calls), old(lib.replies)) && |CallsSince(old(lib.calls))| <= 8
      ensures outcome.Pass? <==>
                ParameterLog(old(camHandle).value, traffic, gainValue, offsetValue, Microseconds(seconds),
                             CallsSince(old(lib.calls)), RepliesSince(old(lib.replies)))
      ensures outcome.Pass? ==>
                Snapshot() == old(Snapshot()).(usbTraffic := Some(traffic), gain := Some(gainValue),
                                               offset := Some(offsetValue), exptime := Some(Microseconds(seconds)))
      ensures outcome.Fail? ==> outcome.error.StatusError? || outcome.error == KeyError(UNSUPPORTED)
      ensures regionSet == old(regionSet) && camHandle == old(camHandle)
    {
      ghost var calls0, replies0 := lib.calls, lib.replies;
      outcome := ApplyTrafficAndGain(traffic, gainValue);
      if outcome.Fail? {
        return;
      }
      ghost var calls1, replies1 := lib.calls, lib.replies;
      outcome := ApplyOffsetAndExposure(offsetValue, seconds);
      Continued(calls0, calls1, lib.calls);
      Continued(replies0, replies1, lib.replies);
    }

    /** The binning and bit-depth settings of `__init__`: each set, then
        printed from the attributes. */
    method ApplyBinAndDepth(bin: Pair, depth: nat) returns (outcome: Outcome)
      requires Valid() && camHandle.Some?
      modifies this, lib
      ensures Valid() && Extended(old(lib.calls), old(lib.replies)) && |CallsSince(old(lib.calls))| <= 2
      ensures outcome.Pass? <==> BinDepthLog(old(camHandle).value, bin, depth, CallsSince(old(lib.calls)), RepliesSince(old(lib.replies)))
      ensures outcome.Pass? ==> Snapshot() == old(Snapshot()).(binSize := Some(bin), bitDepth := Some(depth))
      ensures outcome.Fail? ==> outcome.error.StatusError?
      ensures camHandle == old(camHandle) && regionSet == old(regionSet) && image == old(image)
    {
      ghost var calls0, replies0 := lib.calls, lib.replies;
      outcome := SetBinSize(bin);
      if outcome.Fail? {
        return;
      }
      var _ := GetBinSize();
      outcome := SetBitDepth(depth);
      assert CallsSince(calls0) == [SetQHYCCDBinMode(camHandle.value, bin.x, bin.y), SetQHYCCDBitsMode(camHandle.value, depth)];
      assert RepliesSince(replies0) == [Answer(replies0, 0), Answer(replies0, 1)];
      if outcome.Pass? {
        var _ := GetBitDepth();
      }
    }

    /** The region, binning and bit-depth settings of `__init__`, where no
        region was set before: each set, then printed from the attributes. */
    method ApplyGeometry(start: Pair, size: Pair, bin: Pair, depth: nat) returns (outcome: Outcome)
      requires Valid() && camHandle.Some? && imageSize.Some? && !regionSet
      modifies this, lib
      ensures Valid() && Extended(old(lib.calls), old(lib.replies)) && |CallsSince(old(lib.calls))| <= 3
      ensures outcome.Pass? <==>
                GeometryLog(old(camHandle).value, start, UsedSize(size, old(imageSize).value), bin, depth,
                            CallsSince(old(lib.calls)), RepliesSince(old(lib.replies)))
      ensures outcome.Pass? ==>
                Snapshot() == old(Snapshot()).(regionStart := Some(start), regionSize := Some(UsedSize(size, old(imageSize).value)),
                                               regionSet := true, image := image, binSize := Some(bin), bitDepth := Some(depth))
      ensures outcome.Pass? ==> image.Some? && fresh(image.value)
                                && forall i, j :: 0 <= i < image.value.Length0 && 0 <= j < image.value.Length1 ==> image.value[i, j] == 0
      ensures outcome.Fail? ==> outcome.error.StatusError?
      ensures camHandle == old(camHandle)
    {
      ghost var calls0, replies0 := lib.calls, lib.replies;
      outcome := SetRegion(start, size);
      if outcome.Fail? {
        return;
      }
      ghost var replies1 := lib.replies;
      var _ := GetRegion();
      assert lib.replies == replies1 by {
        assert lib.replies == lib.replies[..|replies1|];
      }
      ghost var calls2 := lib.calls;
      outcome := ApplyBinAndDepth(bin, depth);
      Continued(calls0, calls2, lib.calls);
      Continued(replies0, replies1, lib.replies);
    }

    /** The part of `__init__` that reaches an open camera: the cameras
        found, then camera `index` opened. */
    method Connect(index: nat) returns (outcome: Outcome)
      requires Valid() && Snapshot() == BLANK
      modifies this, lib
      ensures Valid() && Extended(old(lib.calls), old(lib.replies)) && |CallsSince(old(lib.calls))| <= 7
      ensures outcome.Pass? <==> ConnectedLog(index, CallsSince(old(lib.calls)), RepliesSince(old(lib.replies)))
      ensures outcome.Pass? ==> Snapshot() == ConnectedState(index, RepliesSince(old(lib.replies)))
      ensures outcome == Fail(RuntimeError(NO_DEVICE)) <==> FoundNone(CallsSince(old(lib.calls)), RepliesSince(old(lib.replies)))
      ensures outcome == Fail(RuntimeError(NO_DEVICE)) ==>
                Snapshot() == BLANK.(sdkVersion := Some(RepliesSince(old(lib.replies))[1].version), ncam := Some(0))
      ensures outcome == Fail(RuntimeError(NO_MATCH)) <==> FoundTooFew(index, CallsSince(old(lib.calls)), RepliesSince(old(lib.replies)))
      ensures outcome == Fail(RuntimeError(NO_DEVICE)) ==> |CallsSince(old(lib.calls))| == 4
      ensures outcome == Fail(RuntimeError(NO_MATCH)) ==> |CallsSince(old(lib.calls))| == 4
      ensures outcome.Fail? ==>
                outcome.error.StatusError? || outcome.error in {RuntimeError(NO_DEVICE), RuntimeError(NO_MATCH), RuntimeError(OPENCAM_FAILED)}
      ensures !regionSet
    {
      ghost var calls0, replies0 := lib.calls, lib.replies;
      outcome := FindCameras();
      if outcome.Fail? {
        return;
      }
      ghost var calls1, replies1 := lib.calls, lib.replies;
      outcome := OpenChosen(index);
      Continued(calls0, calls1, lib.calls);
      Continued(replies0, replies1, lib.replies);
    }

    /** The settings of `__init__`: the four controls, then the geometry. */
    method ApplySettings(traffic: int, gainValue: int, offsetValue: int, seconds: real,
                         start: Pair, size: Pair, bin: Pair, depth: nat) returns (outcome: Outcome)
      requires Valid() && camHandle.Some? && imageSize.Some? && !regionSet
      modifies this, lib
      ensures Valid() && Extended(old(lib.calls), old(lib.replies)) && |CallsSince(old(lib.calls))| <= 11
      ensures outcome.Pass? <==>
                SettingsLog(old(camHandle).value, traffic, gainValue, offsetValue, Microseconds(seconds),
                            start, UsedSize(size, old(imageSize).value), bin, depth,
                            CallsSince(old(lib.calls)), RepliesSince(old(lib.replies)))
      ensures outcome.Pass? ==>
                Snapshot() == old(Snapshot()).(
                  usbTraffic := Some(traffic), gain := Some(gainValue), offset := Some(offsetValue),
                  exptime := Some(Microseconds(seconds)), regionStart := Some(start),
                  regionSize := Some(UsedSize(size, old(imageSize).value)), regionSet := true, image := image,
                  binSize := Some(bin), bitDepth := Some(depth))
      ensures outcome.Pass? ==> image.Some? && fresh(image.value)
                                && forall i, j :: 0 <= i < image.value.Length0 && 0 <= j < image.value.Length1 ==> image.value[i, j] == 0
      ensures outcome.Fail? ==> outcome.error.StatusError? || outcome.error == KeyError(UNSUPPORTED)
      ensures camHandle == old(camHandle)
    {
      ghost var calls0, replies0 := lib.calls, lib.replies;
      outcome := ApplyParameters(traffic, gainValue, offsetValue, seconds);
      if outcome.Fail? {
        return;
      }
      ghost var calls1, replies1 := lib.calls, lib.replies;
      outcome := ApplyGeometry(start, size, bin, depth);
      Continued(calls0, calls1, lib.calls);
      Continued(replies0, replies1, lib.replies);
    }

    /** The part of `__init__` after the connection: the mode, then the
        settings. */
    method Configure(traffic: int, gainValue: int, offsetValue: int, seconds: real,
                     start: Pair, size: Pair, bin: Pair, depth: nat) returns (outcome: Outcome)
      requires Valid() && camHandle.Some? && camIdStr.Some? && imageSize.None? && !regionSet
      modifies this, lib
      ensures Valid() && Extended(old(lib.calls), old(lib.replies))
      ensures 1 <= |CallsSince(old(lib.calls))| <= 16
      ensures CallsSince(old(lib.calls))[0] == IsQHYCCDControlAvailable(old(camHandle).value, 57)
      ensures RepliesSince(old(lib.replies))[0].Status? && RepliesSince(old(lib.replies))[0] != Status(0) ==>
                outcome == Fail(KeyError(UNSUPPORTED)) && |CallsSince(old(lib.calls))| == 1
      ensures outcome.Pass? <==>
                ConfiguredLog(old(camHandle).value, traffic, gainValue, offsetValue, Microseconds(seconds), start, size, bin, depth,
                              CallsSince(old(lib.calls)), RepliesSince(old(lib.replies)))
      ensures outcome.Pass? ==>
                var chip := RepliesSince(old(lib.replies))[4];
                Snapshot() == WithChipInfo(old(Snapshot()), chip).(
                  streamMode := Some("single"), usbTraffic := Some(traffic), gain := Some(gainValue),
                  offset := Some(offsetValue), exptime := Some(Microseconds(seconds)), regionStart := Some(start),
                  regionSize := Some(UsedSize(size, chip.imageSize)), regionSet := true, image := image,
                  binSize := Some(bin), bitDepth := Some(depth))
      ensures outcome.Pass? ==> image.Some? && fresh(image.value)
                                && forall i, j :: 0 <= i < image.value.Length0 && 0 <= j < image.value.Length1 ==> image.value[i, j] == 0
      ensures outcome.Fail? ==> outcome.error.StatusError? || outcome.error == KeyError(UNSUPPORTED)
      ensures camHandle == old(camHandle)
    {
      ghost var calls0, replies0 := lib.calls, lib.replies;
      outcome := ConfigureMode();
      if outcome.Fail? {
        return;
      }
      ghost var calls1, replies1 := lib.calls, lib.replies;
      outcome := ApplySettings(traffic, gainValue, offsetValue, seconds, start, size, bin, depth);
      Continued(calls0, calls1, lib.calls);
      Continued(replies0, replies1, lib.replies);
    }

    /** `__init__(cam_no, usbtraffic, gain, offset, exptime, region_start,
        region_size, bin_size, bit_depth)` on a new object: the connection,
        then the configuration.  No camera found raises NO_DEVICE, an index
        at or past the count raises NO_MATCH, a camera without single-frame
        mode raises UNSUPPORTED right after its capability is asked, and
        any other failure is a status `check_status` rejected or a null
        handle.  On success every attribute is known from the driver's
        answers. */
    method Init(camNo: nat, traffic: int, gainValue: int, offsetValue: int, seconds: real,
                start: Pair, size: Pair, bin: Pair, depth: nat) returns (outcome: Outcome)
      requires Valid() && Snapshot() == BLANK
      modifies this, lib
      ensures Valid() && Extended(old(lib.calls), old(lib.replies))
      ensures outcome == Fail(RuntimeError(NO_DEVICE)) <==>
                Scanned(CallsSince(old(lib.calls)), RepliesSince(old(lib.replies))) && RepliesSince(old(lib.replies))[3].status == 0
      ensures outcome == Fail(RuntimeError(NO_DEVICE)) ==>
                Snapshot() == BLANK.(sdkVersion := Some(RepliesSince(old(lib.replies))[1].version), ncam := Some(0))
      ensures outcome == Fail(RuntimeError(NO_MATCH)) <==> FoundTooFew(camNo, CallsSince(old(lib.calls)), RepliesSince(old(lib.replies)))
      ensures outcome == Fail(RuntimeError(NO_DEVICE)) ==> |CallsSince(old(lib.calls))| == 4
      ensures outcome == Fail(RuntimeError(NO_MATCH)) ==> |CallsSince(old(lib.calls))| == 4
      ensures SingleFrameChecked(camNo, CallsSince(old(lib.calls)), RepliesSince(old(lib.replies)), outcome)
      ensures outcome.Pass? <==>
                InitLog(camNo, traffic, gainValue, offsetValue, Microseconds(seconds), start, size, bin, depth,
                        CallsSince(old(lib.calls)), RepliesSince(old(lib.replies)))
      ensures outcome.Pass? ==>
                Snapshot() == InitState(camNo, traffic, gainValue, offsetValue, Microseconds(seconds), start, size, bin, depth,
                                        RepliesSince(old(lib.replies)), image)
      ensures outcome.Pass? ==> image.Some? && fresh(image.value)
                                && forall i, j :: 0 <= i < image.value.Length0 && 0 <= j < image.value.Length1 ==> image.value[i, j] == 0
      ensures outcome.Fail? ==>
                || outcome.error.StatusError?
                || outcome.error in {RuntimeError(NO_DEVICE), RuntimeError(NO_MATCH), RuntimeError(OPENCAM_FAILED), KeyError(UNSUPPORTED)}
      ensures regionSet ==> camHandle.Some?
    {
      ghost var calls0, replies0 := lib.calls, lib.replies;
      outcome := Connect(camNo);
      if outcome.Fail? {
        return;
      }
      ghost var calls1, replies1 := lib.calls, lib.replies;
      outcome := Configure(traffic, gainValue, offsetValue, seconds, start, size, bin, depth);
      Continued(calls0, calls1, lib.calls);
      Continued(replies0, replies1, lib.replies);
      ConnectedPrefix(camNo, CallsSince(calls0), RepliesSince(replies0));
      InitLogAfterConnect(camNo, traffic, gainValue, offsetValue, Microseconds(seconds), start, size, bin, depth,
                          CallsSince(calls0), RepliesSince(replies0));
    }

    // ----------------------------------------------------------- sequences

    /** `close_camera` twice: once the first close passed, the second makes
        no driver call and passes too. */
    method CloseTwice() returns (first: Outcome, second: Outcome)
      requires Valid()
      modifies this, lib
      ensures Valid()
      ensures first.Pass? ==> second == Pass && camHandle.None?
      ensures first.Pass? ==>
                lib.calls == old(lib.calls) + if old(camHandle).Some? then [CloseQHYCCD(old(camHandle).value)] else []
    {
      first := CloseCamera();
      second := CloseCamera();
    }

    /** `set_gain` then `get_gain`: after a set that passed, the getter
        answers the value just set from the cache, with no driver call of
        its own. */
    method SetThenGetGain(value: int) returns (outcome: Outcome, r: Result<int>)
      requires Valid()
      modifies this, lib
      ensures Valid()
      ensures outcome.Pass? ==>
                && old(camHandle).Some?
                && r == Success(value)
                && lib.calls == old(lib.calls) + [IsQHYCCDControlAvailable(old(camHandle).value, 6),
                                                  SetQHYCCDParam(old(camHandle).value, 6, value)]
    {
      outcome := SetGain(value);
      r := GetGain();
    }

    // ------------------------------------------------------------ teardown

    /** The end of `__del__`: `close_camera`, then `release_resource`
        unless the close failed. */
    method CloseAndRelease() returns (outcome: Outcome)
      requires Valid()
      modifies this, lib
      ensures Valid()
      ensures RanPrefix(old(lib.calls), old(lib.replies), lib.calls, lib.replies, ClosePlan(old(camHandle)), outcome)
      ensures Snapshot() == old(Snapshot()).(camHandle := camHandle)
      ensures camHandle.None? || camHandle == old(camHandle)
      ensures outcome.Pass? ==> camHandle.None?
      ensures old(camHandle).Some? ==> (camHandle.None? <==> ReplyOutcome(Answer(old(lib.replies), 0)).Pass?)
    {
      ghost var handle := camHandle;
      ghost var calls1, replies1 := lib.calls, lib.replies;
      outcome := CloseCamera();
      if outcome.Fail? {
        RanPrefixStop(calls1, replies1, CloseQHYCCD(handle.value), Answer(replies1, 0), [ReleaseQHYCCDResource]);
        return;
      }
      ghost var calls2, replies2 := lib.calls, lib.replies;
      outcome := ReleaseResource();
      RanPrefixLast(calls2, replies2, ReleaseQHYCCDResource, Answer(replies2, 0));
      if handle.Some? {
        RanPrefixStep(calls1, replies1, CloseQHYCCD(handle.value), Answer(replies1, 0), lib.calls, lib.replies,
                      [ReleaseQHYCCDResource], outcome);
      }
    }

    /** `__del__`: cancels when a region was set, closes the camera, then
        releases the driver resource; the first failure ends it, so the
        later steps are not attempted.  With a region set but the camera
        already closed, reading the handle raises before any call. */
    method Finalize() returns (outcome: Outcome)
      requires Valid()
      modifies this, lib
      ensures Valid()
      ensures old(regionSet) && old(camHandle).None? ==>
                outcome == Fail(NO_HANDLE) && Made(old(lib.calls), old(lib.replies), []) && Snapshot() == old(Snapshot())
      ensures !(old(regionSet) && old(camHandle).None?) ==>
                RanPrefix(old(lib.calls), old(lib.replies), lib.calls, lib.replies, TeardownPlan(old(regionSet), old(camHandle)), outcome)
      ensures Snapshot() == old(Snapshot()).(camHandle := camHandle)
      ensures camHandle.None? || camHandle == old(camHandle)
      ensures outcome.Pass? ==> camHandle.None?
      ensures old(camHandle).Some? && !old(regionSet) ==>
                (camHandle.None? <==> ReplyOutcome(Answer(old(lib.replies), 0)).Pass?)
      ensures old(camHandle).Some? && old(regionSet) ==>
                (camHandle.None? <==> ReplyOutcome(Answer(old(lib.replies), 0)).Pass?
                                      && ReplyOutcome(Answer(old(lib.replies), 1)).Pass?)
    {
      ghost var calls0, replies0 := lib.calls, lib.replies;
      if regionSet {
        if camHandle.None? {
          return Fail(NO_HANDLE);
        }
        var h := camHandle.value;
        var status := lib.CancelQHYCCDExposingAndReadout(h);
        outcome := StatusOutcome(status);
        if outcome.Fail? {
          RanPrefixStop(calls0, replies0, CancelQHYCCDExposingAndReadout(h), Status(status), ClosePlan(camHandle));
          return;
        }
        outcome := CloseAndRelease();
        RanPrefixStep(calls0, replies0, CancelQHYCCDExposingAndReadout(h), Status(status), lib.calls, lib.replies,
                      ClosePlan(old(camHandle)), outcome);
      } else {
        outcome := CloseAndRelease();
      }
    }
  }
}
