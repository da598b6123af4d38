/** The closed-source QHYCCD driver (`lib` of the cffi module), seen from the
    wrapper: every entry point the wrapper calls, with its arguments and
    whatever the driver answers.  Nothing is known about the answers, so each
    entry point picks an arbitrary one; the ghost `calls` and `replies`
    record the conversation, in order, for the wrapper's contracts to talk
    about. */
module Native {
  import opened Types
  import opened Versions

  /** One call into the driver, with the arguments the wrapper passes.  A
      handle is the address `OpenQHYCCD` returned; parameter values are the
      whole numbers the wrapper passes as doubles. */
  datatype Call =
    | SetQHYCCDLogLevel(level: nat)
    | InitQHYCCDResource
    | ReleaseQHYCCDResource
    | ScanQHYCCD
    | GetQHYCCDId(index: nat)
    | OpenQHYCCD(id: string)
    | CloseQHYCCD(handle: nat)
    | InitQHYCCD(handle: nat)
    | ExpQHYCCDSingleFrame(handle: nat)
    | GetQHYCCDSingleFrame(handle: nat)
    | IsQHYCCDControlAvailable(handle: nat, code: nat)
    | SetQHYCCDParam(handle: nat, code: nat, value: int)
    | GetQHYCCDParam(handle: nat, code: nat)
    | SetQHYCCDBitsMode(handle: nat, bits: nat)
    | SetQHYCCDStreamMode(handle: nat, mode: nat)
    | CancelQHYCCDExposingAndReadout(handle: nat)
    | SetQHYCCDResolution(handle: nat, x: nat, y: nat, sizeX: nat, sizeY: nat)
    | SetQHYCCDBinMode(handle: nat, binX: nat, binY: nat)
    | GetQHYCCDChipInfo(handle: nat)
    | GetQHYCCDSDKVersion
    | GetQHYCCDFWVersion(handle: nat)

  /** What one call answered: its status and what it wrote into the
      buffers the wrapper handed it. */
  datatype Reply =
    | Status(status: uint32)
    | Ident(status: uint32, id: string)
    | Address(address: nat)
    | Value(value: int)
    | ChipInfo(status: uint32, chipSize: (real, real), imageSize: Pair, pixelSize: (real, real), bpp: uint32)
    | Sdk(status: uint32, version: SdkVersion)
    | Firmware(status: uint32, fwv0: byte, fwv1: byte)

  /** The driver library, shared by every session. */
  class Driver {
    ghost var calls: seq<Call>
    ghost var replies: seq<Reply>

    /** Every call recorded has its reply. */
    ghost predicate Valid()
      reads this
    {
      |calls| == |replies|
    }

    constructor()
      ensures Valid() && calls == [] && replies == []
    {
      calls := [];
      replies := [];
    }

    method SetQHYCCDLogLevel(level: nat) returns (status: uint32)
      modifies this
      ensures calls == old(calls) + [Call.SetQHYCCDLogLevel(level)] && replies == old(replies) + [Status(status)]
    {
      status := *;
      calls := calls + [Call.SetQHYCCDLogLevel(level)];
      replies := replies + [Status(status)];
    }

    method InitQHYCCDResource() returns (status: uint32)
      modifies this
      ensures calls == old(calls) + [Call.InitQHYCCDResource] && replies == old(replies) + [Status(status)]
    {
      status := *;
      calls := calls + [Call.InitQHYCCDResource];
      replies := replies + [Status(status)];
    }

    method ReleaseQHYCCDResource() returns (status: uint32)
      modifies this
      ensures calls == old(calls) + [Call.ReleaseQHYCCDResource] && replies == old(replies) + [Status(status)]
    {
      status := *;
      calls := calls + [Call.ReleaseQHYCCDResource];
      replies := replies + [Status(status)];
    }

    /** Returns the number of cameras found, or an error status. */
    method ScanQHYCCD() returns (status: uint32)
      modifies this
      ensures calls == old(calls) + [Call.ScanQHYCCD] && replies == old(replies) + [Status(status)]
    {
      status := *;
      calls := calls + [Call.ScanQHYCCD];
      replies := replies + [Status(status)];
    }

    /** Writes the identifier of camera `index` into the wrapper's buffer. */
    method GetQHYCCDId(index: nat) returns (status: uint32, id: string)
      modifies this
      ensures calls == old(calls) + [Call.GetQHYCCDId(index)] && replies == old(replies) + [Ident(status, id)]
    {
      status, id := *, *;
      calls := calls + [Call.GetQHYCCDId(index)];
      replies := replies + [Ident(status, id)];
    }

    /** Returns the handle of the camera, 0 (a null pointer) on failure. */
    method OpenQHYCCD(id: string) returns (handle: nat)
      modifies this
      ensures calls == old(calls) + [Call.OpenQHYCCD(id)] && replies == old(replies) + [Address(handle)]
    {
      handle := *;
      calls := calls + [Call.OpenQHYCCD(id)];
      replies := replies + [Address(handle)];
    }

    method CloseQHYCCD(handle: nat) returns (status: uint32)
      modifies this
      ensures calls == old(calls) + [Call.CloseQHYCCD(handle)] && replies == old(replies) + [Status(status)]
    {
      status := *;
      calls := calls + [Call.CloseQHYCCD(handle)];
      replies := replies + [Status(status)];
    }

    method InitQHYCCD(handle: nat) returns (status: uint32)
      modifies this
      ensures calls == old(calls) + [Call.InitQHYCCD(handle)] && replies == old(replies) + [Status(status)]
    {
      status := *;
      calls := calls + [Call.InitQHYCCD(handle)];
      replies := replies + [Status(status)];
    }

    method ExpQHYCCDSingleFrame(handle: nat) returns (status: uint32)
      modifies this
      ensures calls == old(calls) + [Call.ExpQHYCCDSingleFrame(handle)] && replies == old(replies) + [Status(status)]
    {
      status := *;
      calls := calls + [Call.ExpQHYCCDSingleFrame(handle)];
      replies := replies + [Status(status)];
    }

    /** Transfers a frame into `image`, whose pixels it may overwrite. */
    method GetQHYCCDSingleFrame(handle: nat, image: array2<nat>) returns (status: uint32)
      modifies this, image
      ensures calls == old(calls) + [Call.GetQHYCCDSingleFrame(handle)] && replies == old(replies) + [Status(status)]
    {
      status := *;
      calls := calls + [Call.GetQHYCCDSingleFrame(handle)];
      replies := replies + [Status(status)];
    }

    /** Returns 0 (`QHYCCD_SUCCESS`) when the camera has the control. */
    method IsQHYCCDControlAvailable(handle: nat, code: nat) returns (status: uint32)
      modifies this
      ensures calls == old(calls) + [Call.IsQHYCCDControlAvailable(handle, code)] && replies == old(replies) + [Status(status)]
    {
      status := *;
      calls := calls + [Call.IsQHYCCDControlAvailable(handle, code)];
      replies := replies + [Status(status)];
    }

    method SetQHYCCDParam(handle: nat, code: nat, value: int) returns (status: uint32)
      modifies this
      ensures calls == old(calls) + [Call.SetQHYCCDParam(handle, code, value)] && replies == old(replies) + [Status(status)]
    {
      status := *;
      calls := calls + [Call.SetQHYCCDParam(handle, code, value)];
      replies := replies + [Status(status)];
    }

    /** Returns the value of the control; there is no status. */
    method GetQHYCCDParam(handle: nat, code: nat) returns (value: int)
      modifies this
      ensures calls == old(calls) + [Call.GetQHYCCDParam(handle, code)] && replies == old(replies) + [Value(value)]
    {
      value := *;
      calls := calls + [Call.GetQHYCCDParam(handle, code)];
      replies := replies + [Value(value)];
    }

    method SetQHYCCDBitsMode(handle: nat, bits: nat) returns (status: uint32)
      modifies this
      ensures calls == old(calls) + [Call.SetQHYCCDBitsMode(handle, bits)] && replies == old(replies) + [Status(status)]
    {
      status := *;
      calls := calls + [Call.SetQHYCCDBitsMode(handle, bits)];
      replies := replies + [Status(status)];
    }

    method SetQHYCCDStreamMode(handle: nat, mode: nat) returns (status: uint32)
      modifies this
      ensures calls == old(calls) + [Call.SetQHYCCDStreamMode(handle, mode)] && replies == old(replies) + [Status(status)]
    {
      status := *;
      calls := calls + [Call.SetQHYCCDStreamMode(handle, mode)];
      replies := replies + [Status(status)];
    }

    method CancelQHYCCDExposingAndReadout(handle: nat) returns (status: uint32)
      modifies this
      ensures calls == old(calls) + [Call.CancelQHYCCDExposingAndReadout(handle)] && replies == old(replies) + [Status(status)]
    {
      status := *;
      calls := calls + [Call.CancelQHYCCDExposingAndReadout(handle)];
      replies := replies + [Status(status)];
    }

    method SetQHYCCDResolution(handle: nat, x: nat, y: nat, sizeX: nat, sizeY: nat) returns (status: uint32)
      modifies this
      ensures calls == old(calls) + [Call.SetQHYCCDResolution(handle, x, y, sizeX, sizeY)] && replies == old(replies) + [Status(status)]
    {
      status := *;
      calls := calls + [Call.SetQHYCCDResolution(handle, x, y, sizeX, sizeY)];
      replies := replies + [Status(status)];
    }

    method SetQHYCCDBinMode(handle: nat, binX: nat, binY: nat) returns (status: uint32)
      modifies this
      ensures calls == old(calls) + [Call.SetQHYCCDBinMode(handle, binX, binY)] && replies == old(replies) + [Status(status)]
    {
      status := *;
      calls := calls + [Call.SetQHYCCDBinMode(handle, binX, binY)];
      replies := replies + [Status(status)];
    }

    /** Writes the chip size (mm), the maximum image size (pixels), the
        pixel size (um) and the bit depth into the wrapper's buffers. */
    method GetQHYCCDChipInfo(handle: nat) returns (status: uint32, chipSize: (real, real), imageSize: Pair, pixelSize: (real, real), bpp: uint32)
      modifies this
      ensures calls == old(calls) + [Call.GetQHYCCDChipInfo(handle)]
      ensures replies == old(replies) + [ChipInfo(status, chipSize, imageSize, pixelSize, bpp)]
    {
      status, chipSize, imageSize, pixelSize, bpp := *, *, *, *, *;
      calls := calls + [Call.GetQHYCCDChipInfo(handle)];
      replies := replies + [ChipInfo(status, chipSize, imageSize, pixelSize, bpp)];
    }

    /** Writes year, month, day and sub-day of the driver build. */
    method GetQHYCCDSDKVersion() returns (status: uint32, version: SdkVersion)
      modifies this
      ensures calls == old(calls) + [Call.GetQHYCCDSDKVersion] && replies == old(replies) + [Sdk(status, version)]
    {
      status, version := *, *;
      calls := calls + [Call.GetQHYCCDSDKVersion];
      replies := replies + [Sdk(status, version)];
    }

    /** Writes the firmware version into a 32-byte buffer, of which the
        wrapper reads the first two bytes. */
    method GetQHYCCDFWVersion(handle: nat) returns (status: uint32, fwv0: byte, fwv1: byte)
      modifies this
      ensures calls == old(calls) + [Call.GetQHYCCDFWVersion(handle)] && replies == old(replies) + [Firmware(status, fwv0, fwv1)]
    {
      status, fwv0, fwv1 := *, *, *;
      calls := calls + [Call.GetQHYCCDFWVersion(handle)];
      replies := replies + [Firmware(status, fwv0, fwv1)];
    }
  }
}
