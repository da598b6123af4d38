# qhpyccd session model

A Dafny model of `qhpyccd`, the Python wrapper around the QHYCCD camera
driver. Everything the wrapper decides on its own is modelled:

- the two constant tables (66 control parameters and 26 driver status codes);
- the dictionaries built from those tables;
- `check_status` and `error`;
- the decoding of the firmware-version bytes;
- the `qhyccd` session object, from `__init__` to `__del__`.

The closed-source driver (`lib.*`) is an oracle. `Native.Driver` keeps two
ghost logs:

- `calls`: every driver call, with its arguments;
- `replies`: every answer (a status, a handle, a value, or a status with the
  buffers the driver filled).

Each driver method appends one entry to each log and returns an unconstrained
answer. The contracts of the session object are therefore statements about
which driver calls are made, and in which order, for every possible answer.
They also state what the object's attributes become.

Modules:

- `Types`: `uint32`, `byte`, `Option` for attributes that `hasattr` may not
  find, `Pair` for two-element integer lists, and the exceptions that leave
  the wrapper.
- `Dicts`: Python's `dict(pairs)`, where the last occurrence of a key wins.
- `Controls`: `CONTROL_CODES` and its two dictionaries.
- `Errors`: `ERROR_CODES`, `ERROR_MIN`, the two dictionaries, `check_status`
  (`CheckStatus`) and `error` (`Error`).
- `Versions`: the SDK version and the firmware-version decoding.
- `Settings`: stream-mode names to codes, and seconds to whole microseconds.
- `Native`: the driver oracle.
- `Camera`: the class `Qhyccd`.
  - Its attributes are `Option` fields, and `self.image` is an `array2<nat>`.
  - `Snapshot()` collects all the attributes into the value `State`.
  - `Valid()` is the invariant every method keeps: a region size comes with
    a region start, and the image buffer exists exactly when a region was
    set, with one row per line and one column per pixel of the region.

The session object records an exception raised by `check_status` as
`StatusError(status)`. `CheckedIsCheckStatus` states which Python
exception that is:

- a `RuntimeError` with the description on the status's row;
- for an unlisted status, the `KeyError` of the failed dictionary lookup.

`__init__` is `Camera.Qhyccd.Init`, run on an object just built by the
constructor. It is proved phase by phase:

1. `FindCameras`
2. `OpenChosen`, which together with `FindCameras` forms `Connect`
3. `SelectSingleFrame`
4. `DescribeChip`, which together with `SelectSingleFrame` forms `ConfigureMode`
5. `ApplyParameters`
6. `ApplyGeometry`, which together with `ApplyParameters` forms `ApplySettings`

`ConfigureMode` and `ApplySettings` make up `Configure`.

Each phase promises that it passes exactly when the driver log it added
matches a ghost predicate (`Scanned`, `OpenedLog`, `ConnectedLog`,
`SingleFrameLog`, …, `InitLog`). It also states the attributes it leaves
behind. A successful `__init__` makes exactly the 23 driver calls listed in
`InitLog`, in this order:

1. the log level;
2. the SDK version;
3. the resource;
4. the scan;
5. the camera identifier;
6. the open;
7. the firmware version;
8. the single-frame capability;
9. the stream mode;
10. the camera initialisation;
11. the colour capability;
12. the chip information;
13. USB traffic (capability and set);
14. gain (capability and set);
15. offset (capability and set);
16. exposure (capability and set);
17. the resolution;
18. the binning;
19. the bit depth.

The getters that `__init__` prints between these steps make no driver call,
because each reads a value cached by the step before it. `Init` promises
this too, because the log has no other entries.

`__del__` is `Finalize`:

- it runs the cancel (only when a region was set), then the close, then the
  release;
- the first failed status stops it;
- when a region was set but `close_camera` has already removed
  `_cam_handle`, reading the handle raises `AttributeError` before any
  driver call.

## Model

| member | source | states |
|---|---|---|
| Dicts.FirstTwo | qhpyccd/__init__.py:78 | the list of (name, code) pairs has one pair per row, built from that row |
| Dicts.LastTwo | qhpyccd/__init__.py:79 | the list of (code, description) pairs has one pair per row, built from that row |
| Dicts.ToDict | qhpyccd/__init__.py:78-79 | `dict(pairs)` has exactly the listed keys; a key not repeated later maps to its own pair's value |
| Dicts.ToDictOfDistinct | qhpyccd/__init__.py:111-112 | with no repeated key, every pair is in the dictionary |
| Dicts.Lookup | qhpyccd/__init__.py:135 | a dictionary lookup found by searching from the end only succeeds for a listed key |
| Dicts.LookupIsDict | qhpyccd/__init__.py:135 | the search and `dict(pairs)` agree on every key, including the missing ones |
| Controls.ControlCodesAreRowNumbers | qhpyccd/__init__.py:9-76 | the table has 66 rows and row i has code i |
| Controls.ControlEntriesDistinct | qhpyccd/__init__.py:9-76 | no name and no code occurs twice |
| Controls.ControlCodeDictTotal | qhpyccd/__init__.py:78 | `CONTROL_CODE_DICT` is defined exactly on the listed names and maps the name on row i to i |
| Controls.ControlDescDictTotal | qhpyccd/__init__.py:79 | `CONTROL_DESC_DICT` is defined exactly on 0..65 and gives each code its row's description |
| Controls.ControlCode | qhpyccd/__init__.py:360 | `CONTROL_CODE_DICT[control]` for an unlisted name raises the lookup's KeyError |
| Controls.ControlCodeListed | qhpyccd/__init__.py:360 | a name has a code exactly when the table lists it, and the code is its row number |
| Controls.ControlCodeOfRow | qhpyccd/__init__.py:9-78 | every row's name looks up to that row's number |
| Controls.GainAndOffsetCodes | qhpyccd/__init__.py:16-17 | CONTROL_GAIN is 6 and CONTROL_OFFSET is 7 |
| Controls.ExposureAndTrafficCodes | qhpyccd/__init__.py:18-22 | CONTROL_EXPOSURE is 8 and CONTROL_USBTRAFFIC is 12 |
| Controls.TemperatureCodes | qhpyccd/__init__.py:24-28 | CONTROL_CURTEMP is 14 and CONTROL_COOLER is 18 |
| Controls.CapabilityCodes | qhpyccd/__init__.py:30-67 | CAM_COLOR is 20 and CAM_SINGLEFRAMEMODE is 57 |
| Errors.ErrorCodesLayout | qhpyccd/__init__.py:81-108 | 26 rows: success is 0, and the error codes count down by one from 0xFFFFFFFF to 0xFFFFFFE7 |
| Errors.ErrorEntriesDistinct | qhpyccd/__init__.py:81-108 | no status name and no status code occurs twice |
| Errors.ErrorCodesAboveMin | qhpyccd/__init__.py:81-110 | success is at or below `ERROR_MIN` and every other listed code is above it |
| Errors.ErrorCodeDictTotal | qhpyccd/__init__.py:111 | `ERROR_CODE_DICT` is defined exactly on the listed names and maps each to its row's code |
| Errors.ErrorDescDictTotal | qhpyccd/__init__.py:112 | `ERROR_DESC_DICT` is defined exactly on the listed codes and maps each to its row's description |
| Errors.ListedCodes | qhpyccd/__init__.py:81-108 | the listed codes are exactly 0 and 0xFFFFFFE7..0xFFFFFFFF |
| Errors.CheckStatus | qhpyccd/__init__.py:118-137 | passes a status back unchanged exactly when it is at or below `ERROR_MIN`, and raises otherwise |
| Errors.CheckStatusRaises | qhpyccd/__init__.py:134-135 | a listed error raises RuntimeError with its row's description; a status above `ERROR_MIN` and below 0xFFFFFFE7 raises the lookup's KeyError |
| Errors.Error | qhpyccd/__init__.py:139-152 | `error(name)` succeeds exactly for a listed name, gives that row's description, and otherwise raises KeyError |
| Errors.RaisedMessages | qhpyccd/__init__.py:139-152 | the five messages the session object raises are the descriptions of QHYCCD_ERROR, NO_DEVICE, UNSUPPORTED, NO_MATCH and ERROR_OPENCAM |
| Versions.DecodeFirmware | qhpyccd/__init__.py:1006-1011 | the year is in 10..25, the month below 16, the day is byte 1, and byte 0 is 16 * (year mod 16) + month |
| Versions.NibbleValues | qhpyccd/__init__.py:1006-1009 | `>> 4` is division by 16 and `& ~0xf0` is the remainder mod 16 |
| Versions.DecodeFirmwareInjective | qhpyccd/__init__.py:1006-1011 | two byte pairs with the same version are the same bytes |
| Versions.FirmwareNibbles | qhpyccd/__init__.py:1006-1009 | the year is the high nibble, plus 0x10 when it is below 10; the month is the low nibble |
| Versions.FirmwareYearShifted | qhpyccd/__init__.py:1006-1011 | bytes 0x09, 0x1C decode to year 16, month 9, day 28 |
| Versions.FirmwareYearUnshifted | qhpyccd/__init__.py:1006-1011 | bytes 0xB3, 0x05 decode to year 11, month 3, day 5 |
| Settings.StreamModeCode | qhpyccd/__init__.py:642-647 | a code exists exactly for 'single' and 'live', and it is below 2 |
| Settings.StreamModeName | qhpyccd/__init__.py:115-116 | a name exists exactly for codes 0 and 1 |
| Settings.StreamModeRoundTrip | qhpyccd/__init__.py:115-116 | name to code to name, and code to name to code, give back what they started from |
| Settings.Microseconds | qhpyccd/__init__.py:560 | `int(exptime * 1.0e6)` truncates toward zero: within one microsecond of the seconds asked for, on the same side of 0 |
| Settings.Seconds | qhpyccd/__init__.py:581 | a microsecond count times 1.0e-6 is that count in seconds |
| Settings.MicrosecondsOfSeconds | qhpyccd/__init__.py:560-581 | with exact reals, a microsecond count turned into seconds and truncated back is unchanged; the source's doubles do not keep this (see Left out) |
| Settings.MicrosecondsTruncate | qhpyccd/__init__.py:560-565 | the cached time is at most one microsecond short of the time asked for, never beyond it |
| Settings.MicrosecondsMonotonic | qhpyccd/__init__.py:560 | a longer exposure never maps to fewer microseconds |
| Settings.MicrosecondsExamples | qhpyccd/__init__.py:163 | the default 0.1 s is 100000 us, and both signs truncate rather than round |
| Camera.Checked | qhpyccd/__init__.py:118-137 | passes exactly at or below `ERROR_MIN`, returns the status itself, and otherwise records the failing status |
| Camera.StatusOutcome | qhpyccd/__init__.py:134-137 | passes exactly at or below `ERROR_MIN` |
| Camera.CheckedIsCheckStatus | qhpyccd/__init__.py:118-137 | `Checked` raises exactly when `CheckStatus` does, agrees with it on a pass, and its `StatusError(s)` is the row's RuntimeError or the KeyError of an unlisted status |
| Camera.ReplyOutcome | qhpyccd/__init__.py:134-137 | a driver answer's status is checked; a handle or a parameter value always passes |
| Camera.OutcomeOf | qhpyccd/__init__.py:118-137 | a result passes exactly when it succeeds and otherwise keeps its exception |
| Camera.WithChipInfo | qhpyccd/__init__.py:804-807 | after the chip information is stored, the maximum image size is the driver's |
| Camera.RegionPlan | qhpyccd/__init__.py:696-701 | the cancel comes first when a region was set, and the resolution is always last |
| Camera.ClosePlan | qhpyccd/__init__.py:1031-1032 | the close comes first only when the camera is open, and the release is last |
| Camera.TeardownPlan | qhpyccd/__init__.py:1028-1032 | `__del__` makes the cancel (first, when a region was set), the close (next, when open) and the release (last) |
| Camera.RanPrefixLast | qhpyccd/__init__.py:134-137 | a single checked call decides the outcome |
| Camera.RanPrefixStop | qhpyccd/__init__.py:134-135 | a checked call that raises ends the sequence there |
| Camera.RanPrefixStep | qhpyccd/__init__.py:134-137 | a passing call followed by a run of the rest is a run of the whole sequence |
| Camera.Continued | qhpyccd/__init__.py:169-206 | the driver log of two consecutive steps is the first step's log followed by the second's |
| Camera.OpenPlan | qhpyccd/__init__.py:174-177 | the first call after the scan reads camera `cam_no`'s identifier |
| Camera.SingleFramePlan | qhpyccd/__init__.py:178-184 | the first call after the firmware version asks for CAM_SINGLEFRAMEMODE |
| Camera.DescribePlan | qhpyccd/__init__.py:186-189 | two calls: the colour capability, then the chip information |
| Camera.UsedSize | qhpyccd/__init__.py:693-694 | an empty size (x*y == 0) is replaced by the maximum image size, and any other size is kept |
| Camera.ConnectedPrefix | qhpyccd/__init__.py:169-177 | a log that starts with a successful connection shows a scan count above `cam_no` |
| Camera.InitLogAfterConnect | qhpyccd/__init__.py:169-206 | after a successful connection, `__init__` succeeds exactly when the rest of the log is a successful configuration of the camera that was opened |
| Camera.Qhyccd.constructor | qhpyccd/__init__.py:154-157 | a new object has none of the attributes |
| Camera.Qhyccd.InitResource | qhpyccd/__init__.py:208-215 | one call; the outcome is its status checked |
| Camera.Qhyccd.ReleaseResource | qhpyccd/__init__.py:217-224 | one call; the outcome is its status checked |
| Camera.Qhyccd.ScanCameras | qhpyccd/__init__.py:228-240 | one call; the count is stored only when its status passes |
| Camera.Qhyccd.SetCamera | qhpyccd/__init__.py:242-254 | index not below `_ncam`: NO_MATCH and no call; otherwise one identifier call, with the identifier string stored only when its status passes |
| Camera.Qhyccd.GetCameraName | qhpyccd/__init__.py:256-271 | the identifier string, or RuntimeError('Error') when none was read |
| Camera.Qhyccd.OpenCamera | qhpyccd/__init__.py:273-286 | no identifier buffer: raises with no call; otherwise the handle is kept even when null, and a null handle raises OPENCAM |
| Camera.Qhyccd.CloseCamera | qhpyccd/__init__.py:288-297 | no handle: passes with no call; otherwise one close, and the handle is removed only when the close passes |
| Camera.Qhyccd.InitCamera | qhpyccd/__init__.py:299-310 | not open: raises with no call; otherwise one checked call |
| Camera.Qhyccd.GetImage | qhpyccd/__init__.py:313-339 | no handle or no image buffer: raises with no call; otherwise exposure then transfer, stopping at the first failed status |
| Camera.Qhyccd.HasControl | qhpyccd/__init__.py:344-362 | handle read first, then the name looked up; true exactly when the driver answers 0 |
| Camera.Qhyccd.SetControl | qhpyccd/__init__.py:364-379 | one set call with the control's code; the outcome is its status checked |
| Camera.Qhyccd.QueryControl | qhpyccd/__init__.py:381-398 | one get call with the control's code; its value is returned unchecked |
| Camera.Qhyccd.HasKnownControl | qhpyccd/__init__.py:344-362 | `has_control` for a listed name makes one call and answers whether the status is 0 |
| Camera.Qhyccd.HasSingleFrameMode | qhpyccd/__init__.py:178 | asks for code 57 |
| Camera.Qhyccd.HasColorSensor | qhpyccd/__init__.py:186 | asks for code 20 |
| Camera.Qhyccd.SetKnownControl | qhpyccd/__init__.py:418-422 | control absent: UNSUPPORTED after the capability call and no set call; otherwise the set call decides |
| Camera.Qhyccd.QueryKnownControl | qhpyccd/__init__.py:926-929 | control absent: UNSUPPORTED and no query; otherwise exactly one query |
| Camera.Qhyccd.SetUsbTraffic | qhpyccd/__init__.py:402-426 | as `SetKnownControl` for code 12; the value is cached only when the set passes |
| Camera.Qhyccd.GetUsbTraffic | qhpyccd/__init__.py:428-445 | a cached value is returned with no call; otherwise at most one query, and its value is cached |
| Camera.Qhyccd.SetGain | qhpyccd/__init__.py:449-473 | as `SetKnownControl` for code 6; the value is cached only when the set passes |
| Camera.Qhyccd.GetGain | qhpyccd/__init__.py:475-492 | a cached value is returned with no call; otherwise at most one query, and its value is cached |
| Camera.Qhyccd.SetOffset | qhpyccd/__init__.py:496-520 | as `SetKnownControl` for code 7; the value is cached only when the set passes |
| Camera.Qhyccd.GetOffset | qhpyccd/__init__.py:522-539 | a cached value is returned with no call; otherwise at most one query, and its value is cached |
| Camera.Qhyccd.SetExptime | qhpyccd/__init__.py:543-567 | sends code 8 the truncated microseconds and caches exactly that count when the set passes |
| Camera.Qhyccd.GetExptime | qhpyccd/__init__.py:569-586 | a cached count is returned with no call; otherwise at most one query, and its value is cached |
| Camera.Qhyccd.SetBitDepth | qhpyccd/__init__.py:590-610 | one checked call; the depth is kept only when it passes |
| Camera.Qhyccd.GetBitDepth | qhpyccd/__init__.py:612-626 | the depth, or RuntimeError('Error') when never set |
| Camera.Qhyccd.SetStreamMode | qhpyccd/__init__.py:630-651 | a name other than 'single'/'live' raises UNSUPPORTED with no call; otherwise its code is sent and the name kept when the call passes |
| Camera.Qhyccd.GetStreamMode | qhpyccd/__init__.py:653-669 | the mode, or RuntimeError('Error') when never set |
| Camera.Qhyccd.QueryChipInfo | qhpyccd/__init__.py:776-808 | one chip-info call; the four attributes are stored only when its status passes |
| Camera.Qhyccd.StoreChipInfo | qhpyccd/__init__.py:804-807 | chip size, maximum image size, pixel size and bpp are the driver's, and nothing else changes |
| Camera.Qhyccd.GetChipSize | qhpyccd/__init__.py:810-822 | a stored value is returned with no call; otherwise `query_chip_info` runs once |
| Camera.Qhyccd.GetImageSize | qhpyccd/__init__.py:824-836 | a stored value is returned with no call; otherwise `query_chip_info` runs once |
| Camera.Qhyccd.GetPixelSize | qhpyccd/__init__.py:838-850 | a stored value is returned with no call; otherwise `query_chip_info` runs once |
| Camera.Qhyccd.ApplyRegion | qhpyccd/__init__.py:696-707 | cancel (only when a region was set), then the resolution; on a pass the start, size and flag are stored with a fresh zero buffer of size.y rows by size.x columns; on a failure nothing changes |
| Camera.Qhyccd.StoreRegion | qhpyccd/__init__.py:703-707 | the region attributes and a fresh all-zero buffer of the region's shape |
| Camera.Qhyccd.SetRegion | qhpyccd/__init__.py:673-709 | an empty size becomes the stored or queried maximum image size, then as `ApplyRegion`; no handle raises with no call |
| Camera.Qhyccd.GetRegion | qhpyccd/__init__.py:711-736 | stored start and size with no call; with no size, the start [0,0] is stored before the maximum image size is asked for, and it stays stored when that query fails |
| Camera.Qhyccd.SetBinSize | qhpyccd/__init__.py:738-759 | one checked call; the binning is kept only when it passes |
| Camera.Qhyccd.GetBinSize | qhpyccd/__init__.py:761-774 | the stored binning, or [1,1], which is then stored; never a call |
| Camera.Qhyccd.GetTemperature | qhpyccd/__init__.py:915-929 | as `QueryKnownControl` for code 14, every time |
| Camera.Qhyccd.GetTargetTemperature | qhpyccd/__init__.py:931-943 | as `QueryKnownControl` for code 18, every time |
| Camera.Qhyccd.SetTargetTemperature | qhpyccd/__init__.py:946-958 | as `SetKnownControl` for code 18; nothing cached |
| Camera.Qhyccd.QuerySdkVersion | qhpyccd/__init__.py:962-976 | one call; the version is stored only when its status passes |
| Camera.Qhyccd.GetSdkVersion | qhpyccd/__init__.py:978-990 | a stored version is returned with no call; otherwise one query |
| Camera.Qhyccd.QueryFirmwareVersion | qhpyccd/__init__.py:992-1012 | one call; the decoded version is stored only when its status passes |
| Camera.Qhyccd.GetFirmwareVersion | qhpyccd/__init__.py:1014-1026 | a stored version is returned with no call; otherwise one query |
| Camera.Qhyccd.FindCameras | qhpyccd/__init__.py:169-173 | passes exactly when the four-call scan sequence passed with a count above 0; NO_DEVICE exactly when the count is 0; both store the SDK version and the count |
| Camera.Qhyccd.OpenChosen | qhpyccd/__init__.py:174-177 | NO_MATCH exactly when `cam_no` is not below the count, with no call; passes exactly when identifier, open (non-null handle) and firmware version all passed |
| Camera.Qhyccd.Connect | qhpyccd/__init__.py:169-177 | passes exactly on `ConnectedLog`, with `ConnectedState` as the attributes; NO_DEVICE and NO_MATCH exactly when the scan says so, each after the 4 scan calls |
| Camera.Qhyccd.SelectSingleFrame | qhpyccd/__init__.py:178-184 | the first call asks for single-frame mode, and a non-zero answer raises UNSUPPORTED at once; passes exactly on `SingleFrameLog`, leaving the mode 'single' |
| Camera.Qhyccd.DescribeChip | qhpyccd/__init__.py:186-189 | passes exactly on `DescribedLog`, storing the chip information |
| Camera.Qhyccd.ConfigureMode | qhpyccd/__init__.py:178-189 | passes exactly on `ModeLog` |
| Camera.Qhyccd.ApplyUsbTraffic | qhpyccd/__init__.py:190-191 | passes exactly on `ControlLog` for code 12, then caches the value |
| Camera.Qhyccd.ApplyGain | qhpyccd/__init__.py:192-193 | passes exactly on `ControlLog` for code 6, then caches the value |
| Camera.Qhyccd.ApplyOffset | qhpyccd/__init__.py:194-195 | passes exactly on `ControlLog` for code 7, then caches the value |
| Camera.Qhyccd.ApplyExptime | qhpyccd/__init__.py:196-197 | passes exactly on `ControlLog` for code 8 with the truncated microseconds, then caches them |
| Camera.Qhyccd.ApplyTrafficAndGain | qhpyccd/__init__.py:190-193 | passes exactly on `ControlPairLog` for codes 12 and 6 |
| Camera.Qhyccd.ApplyOffsetAndExposure | qhpyccd/__init__.py:194-197 | passes exactly on `ControlPairLog` for codes 7 and 8 |
| Camera.Qhyccd.ApplyParameters | qhpyccd/__init__.py:190-197 | passes exactly on `ParameterLog` |
| Camera.Qhyccd.ApplyBinAndDepth | qhpyccd/__init__.py:203-206 | passes exactly on `BinDepthLog`, keeping binning and depth |
| Camera.Qhyccd.ApplyGeometry | qhpyccd/__init__.py:198-206 | passes exactly on `GeometryLog` with the size from `UsedSize`, leaving a zero buffer of that shape |
| Camera.Qhyccd.ApplySettings | qhpyccd/__init__.py:190-206 | passes exactly on `SettingsLog` |
| Camera.Qhyccd.Configure | qhpyccd/__init__.py:178-206 | passes exactly on `ConfiguredLog`, with every setting stored; fails only with a status error or UNSUPPORTED |
| Camera.Qhyccd.Init | qhpyccd/__init__.py:158-206 | NO_DEVICE iff the scan counted 0 and NO_MATCH iff 0 < count <= `cam_no`, each after 4 calls; UNSUPPORTED as the 8th call when single-frame mode is missing; passes iff the 23-call `InitLog` holds, leaving `InitState`; no other exception |
| Camera.Qhyccd.CloseAndRelease | qhpyccd/__init__.py:1031-1032 | the close (when open) then the release, stopping at the first failure; the handle is removed exactly when the close passed |
| Camera.Qhyccd.Finalize | qhpyccd/__init__.py:1028-1032 | cancel (when a region was set), close, release, stopping at the first failure; with a region set and the handle gone, AttributeError before any call; the handle is removed exactly when the cancel (if made) and the close passed |
| Camera.Qhyccd.CloseTwice | qhpyccd/__init__.py:288-297 | after a close that passed, a second close passes with no driver call |
| Camera.Qhyccd.SetThenGetGain | qhpyccd/__init__.py:449-492 | after a set that passed, the get answers the value set without a query |

## Left out

- The native driver: every `lib.*` function is an oracle that logs its call and returns any answer. The sensor, USB transfer and exposure timing are not modelled.
- Camera.Qhyccd.GetImage: the attribute `self.imageData`, which `get_image` sets between the exposure and the frame call, is not modelled. It is a byte pointer into the memory of `self.image`, the frame call writes through it into that buffer, and no other method reads it.
- Pixel values: `GetQHYCCDSingleFrame` may change the image buffer arbitrarily, and only the buffer's shape and its zero initialisation are modelled. The numpy dtype (`uint16`) is not.
- Floating point:
  - chip and pixel sizes are kept as exact `real` pairs;
  - `float(value)` in `set_control` and `query_control` is not modelled, so control values are integers;
  - the `int(...)` the getters apply to a queried value is the identity on them.
- Camera.Qhyccd.SetExptime: caches the exposure as whole microseconds rather than the float `int(exptime*1e6)*1e-6` seconds the source stores. `Settings.Seconds` gives the seconds value.
- Settings.MicrosecondsOfSeconds: proves the round trip with exact reals, which the source's float round trip does not have. For example, 100000 microseconds read back as 0.09999999999999999 s are set again as 99999.
- Settings.Microseconds: truncates the exact product. The double rounding of `exptime*1.0e6` is not modelled, so for 0.000249 s the source sends 248 microseconds where the model sends 249.
- Camera.Qhyccd.GetExptime: returns the microsecond count rather than seconds, for the same reason.
- The default arguments of `__init__` (`cam_no=0`, `usbtraffic=0`, `gain=100`, `offset=100`, `exptime=0.1`, `region_start=[0,0]`, `region_size=[0,0]`, `bin_size=[1,1]`, `bit_depth=16`) and `set_stream_mode`'s `mode='single'`: Dafny has no default arguments, so `Init` and `SetStreamMode` take every value explicitly.
- Camera.Qhyccd.SetTargetTemperature: does not model the `wait` parameter, which the source accepts and never reads.
- Printing: every `print` is left out, and so are the string formats of the versions.
  - The SDK version is kept as its four numbers and the firmware version as (year, month, day), not as the `20yy…` strings.
  - The getters `__init__` calls only for printing are modelled by the absence of driver calls they would make.
- The 32-byte identifier buffer and its C-string decoding: the identifier is a string, and the buffer and its decoded text are the same value.
- cffi argument conversion: no overflow of a C integer argument is modelled.
- `get_overscan_area`, `query_overscan_area`, `get_effective_area` and `query_effective_area` are not part of this model. The first calls a misspelt method, and the last reuses the overscan driver call, so neither has behaviour worth stating.
- Python ignores and only reports an exception raised in `__del__`. `Finalize` returns the exception, and what the interpreter does with it is outside the model.
- `Init` runs on a freshly built object, since `__init__` is only ever run that way.
- The teardown of an object whose `__init__` raised part-way is the same `Finalize`, run on the attributes that `Init` left. It is not stated as a separate member.
- Camera.Qhyccd.Init: a failure between the phases is described by its kind of exception and by `Extended`, not by the exact call at which it stopped. Only NO_DEVICE and NO_MATCH (both after the four scan calls) and the single-frame UNSUPPORTED (after the eighth call) are pinned to a call.
