/** The control-parameter table of the wrapper: 66 rows of (name, code,
    description) and the two dictionaries built from it, name to code and
    code to description. */
module Controls {
  import opened Types
  import opened Dicts

  /** `CONTROL_CODES`, row by row as the wrapper lists it.  The literal is
      written in three parts so that the verifier keeps the contents of each
      part. */
  const CONTROL_CODES: seq<(string, nat, string)> := CONTROL_ROWS_0 + CONTROL_ROWS_1 + CONTROL_ROWS_2

  const CONTROL_ROWS_0: seq<(string, nat, string)> := [
    ("CONTROL_BRIGHTNESS", 0, "Image brightness"),
    ("CONTROL_CONTRAST", 1, "Image contrast"),
    ("CONTROL_WBR", 2, "Red of white balance"),
    ("CONTROL_WBB", 3, "Blue of white balance"),
    ("CONTROL_WBG", 4, "Green of white balance"),
    ("CONTROL_GAMMA", 5, "Screen gamma"),
    ("CONTROL_GAIN", 6, "Detector gain"),
    ("CONTROL_OFFSET", 7, "Detector offset"),
    ("CONTROL_EXPOSURE", 8, "Exposure time (us)"),
    ("CONTROL_SPEED", 9, "Transfer speed"),
    ("CONTROL_TRANSFERBIT", 10, "Image bit depth"),
    ("CONTROL_CHANNELS", 11, "Number of image channels"),
    ("CONTROL_USBTRAFFIC", 12, "USB traffic parameter"),
    ("CONTROL_ROWNOISERE", 13, "Row noise reduction"),
    ("CONTROL_CURTEMP", 14, "Current detector temprature"),
    ("CONTROL_CURPWM", 15, "Current cooling power"),
    ("CONTROL_MANULPWM", 16, "Cooling power adjustment"),
    ("CONTROL_CFWPORT", 17, "Color filter wheel port"),
    ("CONTROL_COOLER", 18, "Cooler"),
    ("CONTROL_ST4PORT", 19, "ST4 port"),
    ("CAM_COLOR", 20, "Color feature"),
    ("CAM_BIN1X1MODE", 21, "1x1 binning mode")
  ]

  const CONTROL_ROWS_1: seq<(string, nat, string)> := [
    ("CAM_BIN2X2MODE", 22, "2x2 binning mode"),
    ("CAM_BIN3X3MODE", 23, "3x3 binning mode"),
    ("CAM_BIN4X4MODE", 24, "4x4 binning mode"),
    ("CAM_MECHANICALSHUTTER", 25, "Mechanical shutter"),
    ("CAM_TRIGER_INTERFACE", 26, "Trigger interface"),
    ("CAM_TECOVERPROTECT_INTERFACE", 27, "TEC overprotection"),
    ("CAM_SINGNALCLAMP_INTERFACE", 28, "Signal clamp"),
    ("CAM_FINETONE_INTERFACE", 29, "Fine tone"),
    ("CAM_SHUTTERMOTORHEATING_INTERFACE", 30, "Shutter motor heating"),
    ("CAM_CALIBRATEFPN_INTERFACE", 31, "Calibrated frame"),
    ("CAM_CHIPTEMPERATURESENSOR_INTERFACE", 32, "Chip temperature sensor"),
    ("CAM_USBREADOUTSLOWEST_INTERFACE", 33, "USB readout slowest"),
    ("CAM_8BITS", 34, "8-bit depth"),
    ("CAM_16BITS", 35, "16-bit depth"),
    ("CAM_GPS", 36, "GPS"),
    ("CAM_IGNOREOVERSCAN_INTERFACE", 37, "Ignore overscan area"),
    ("QHYCCD_3A_AUTOBALANCE", 38, "Auto white balance"),
    ("QHYCCD_3A_AUTOEXPOSURE", 39, "Auto exposure time"),
    ("QHYCCD_3A_AUTOFOCUS", 40, "Autofocus"),
    ("CONTROL_AMPV", 41, "Detector ampv"),
    ("CONTROL_VCAM", 42, "Virtual Camera switch"),
    ("CAM_VIEW_MODE", 43, "View mode")
  ]

  const CONTROL_ROWS_2: seq<(string, nat, string)> := [
    ("CONTROL_CFWSLOTSNUM", 44, "CFW slots number"),
    ("IS_EXPOSING_DONE", 45, "Exposure complete flag"),
    ("ScreenStretchB", 46, "Screen stretch B"),
    ("ScreenStretchW", 47, "Screen stretch W"),
    ("CONTROL_DDR", 48, "DDR"),
    ("CAM_LIGHT_PERFORMANCE_MODE", 49, "Light performance mode"),
    ("CAM_QHY5II_GUIDE_MODE", 50, "QHY5II guide mode"),
    ("DDR_BUFFER_CAPACITY", 51, "DDR buffer capacity"),
    ("DDR_BUFFER_READ_THRESHOLD", 52, "DDR read threshold"),
    ("DefaultGain", 53, "Default detector gain"),
    ("DefaultOffset", 54, "Default detector offset"),
    ("OutputDataActualBits", 55, "Actual number of bits in output data"),
    ("OutputDataAlignment", 56, "Output data alignment"),
    ("CAM_SINGLEFRAMEMODE", 57, "Single frame mode"),
    ("CAM_LIVEVIDEOMODE", 58, "Live video mode"),
    ("CAM_IS_COLOR", 59, "Color mode"),
    ("hasHardwareFrameCounter", 60, "Hardware frame counter"),
    ("CONTROL_MAX_ID_Error", 61, "Max Error ID"),
    ("CAM_HUMIDITY", 62, "Humidity sensor"),
    ("CAM_PRESSURE", 63, "Pressure sensor"),
    ("CONTROL_VACUUM_PUMP", 64, "Vacuum pump"),
    ("CONTROL_SensorChamberCycle_PUMP", 65, "Chamber Cycle pump sensor")
  ]

  /** `CONTROL_CODE_DICT = dict([(code[0], code[1]) for code in CONTROL_CODES])`. */
  const CONTROL_CODE_DICT: map<string, nat> := ToDict(FirstTwo(CONTROL_CODES))

  /** `CONTROL_DESC_DICT = dict([(code[1], code[2]) for code in CONTROL_CODES])`. */
  const CONTROL_DESC_DICT: map<nat, string> := ToDict(LastTwo(CONTROL_CODES))

  /** Row `i` of the table has code `i`. */
  lemma ControlCodesAreRowNumbers()
    ensures |CONTROL_CODES| == 66
    ensures forall i :: 0 <= i < |CONTROL_CODES| ==> CONTROL_CODES[i].1 == i
  {
    assert forall k :: 0 <= k < 22 ==> CONTROL_ROWS_0[k].1 == k;
    assert forall k :: 0 <= k < 22 ==> CONTROL_ROWS_1[k].1 == 22 + k;
    assert forall k :: 0 <= k < 22 ==> CONTROL_ROWS_2[k].1 == 44 + k;
  }

  /** No two rows of `rows` carry the same name. */
  ghost predicate NamesDistinct(rows: seq<(string, nat, string)>)
  {
    forall i, j :: 0 <= i < j < |rows| ==> rows[i].0 != rows[j].0
  }

  // The names are distinct within each part and between parts.
  lemma Part0NamesDistinct() ensures forall i, j :: 0 <= i < j < |CONTROL_ROWS_0| ==> CONTROL_ROWS_0[i].0 != CONTROL_ROWS_0[j].0 {}
  lemma Part1NamesDistinct() ensures forall i, j :: 0 <= i < j < |CONTROL_ROWS_1| ==> CONTROL_ROWS_1[i].0 != CONTROL_ROWS_1[j].0 {}
  lemma Part2NamesDistinct() ensures forall i, j :: 0 <= i < j < |CONTROL_ROWS_2| ==> CONTROL_ROWS_2[i].0 != CONTROL_ROWS_2[j].0 {}
  lemma Parts01NamesDisjoint() ensures forall i, j :: 0 <= i < |CONTROL_ROWS_0| && 0 <= j < |CONTROL_ROWS_1| ==> CONTROL_ROWS_0[i].0 != CONTROL_ROWS_1[j].0 {}
  lemma Parts02NamesDisjoint() ensures forall i, j :: 0 <= i < |CONTROL_ROWS_0| && 0 <= j < |CONTROL_ROWS_2| ==> CONTROL_ROWS_0[i].0 != CONTROL_ROWS_2[j].0 {}
  lemma Parts12NamesDisjoint() ensures forall i, j :: 0 <= i < |CONTROL_ROWS_1| && 0 <= j < |CONTROL_ROWS_2| ==> CONTROL_ROWS_1[i].0 != CONTROL_ROWS_2[j].0 {}

  /** No name and no code occurs twice in the table. */
  lemma ControlEntriesDistinct()
    ensures NamesDistinct(CONTROL_CODES)
    ensures forall i, j :: 0 <= i < j < |CONTROL_CODES| ==> CONTROL_CODES[i].1 != CONTROL_CODES[j].1
  {
    ControlCodesAreRowNumbers();
    Part0NamesDistinct();
    Part1NamesDistinct();
    Part2NamesDistinct();
    Parts01NamesDisjoint();
    Parts02NamesDisjoint();
    Parts12NamesDisjoint();
    forall i, j | 0 <= i < j < |CONTROL_CODES|
      ensures CONTROL_CODES[i].0 != CONTROL_CODES[j].0
    {
      if j < 22 {
        assert CONTROL_CODES[i] == CONTROL_ROWS_0[i] && CONTROL_CODES[j] == CONTROL_ROWS_0[j];
      } else if j < 44 {
        if i < 22 {
          assert CONTROL_CODES[i] == CONTROL_ROWS_0[i] && CONTROL_CODES[j] == CONTROL_ROWS_1[j - 22];
        } else {
          assert CONTROL_CODES[i] == CONTROL_ROWS_1[i - 22] && CONTROL_CODES[j] == CONTROL_ROWS_1[j - 22];
        }
      } else {
        if i < 22 {
          assert CONTROL_CODES[i] == CONTROL_ROWS_0[i] && CONTROL_CODES[j] == CONTROL_ROWS_2[j - 44];
        } else if i < 44 {
          assert CONTROL_CODES[i] == CONTROL_ROWS_1[i - 22] && CONTROL_CODES[j] == CONTROL_ROWS_2[j - 44];
        } else {
          assert CONTROL_CODES[i] == CONTROL_ROWS_2[i - 44] && CONTROL_CODES[j] == CONTROL_ROWS_2[j - 44];
        }
      }
    }
  }

  /** `CONTROL_CODE_DICT` is defined exactly on the listed names, and the
      name on row `i` maps to `i`. */
  lemma ControlCodeDictTotal()
    ensures forall name :: name in CONTROL_CODE_DICT <==> exists i :: 0 <= i < |CONTROL_CODES| && CONTROL_CODES[i].0 == name
    ensures forall i :: 0 <= i < |CONTROL_CODES| ==> CONTROL_CODE_DICT[CONTROL_CODES[i].0] == i
  {
    var pairs := FirstTwo(CONTROL_CODES);
    ControlCodesAreRowNumbers();
    ControlEntriesDistinct();
    assert DistinctKeys(pairs);
    forall i | 0 <= i < |CONTROL_CODES| ensures CONTROL_CODES[i].0 in CONTROL_CODE_DICT && CONTROL_CODE_DICT[CONTROL_CODES[i].0] == i {
      ToDictOfDistinct(pairs, i);
    }
  }

  /** `CONTROL_DESC_DICT` is defined exactly on the codes 0..65 and gives
      the description on the row of that code. */
  lemma ControlDescDictTotal()
    ensures forall code: int :: code in CONTROL_DESC_DICT <==> 0 <= code < 66
    ensures forall code :: 0 <= code < 66 ==> CONTROL_DESC_DICT[code] == CONTROL_CODES[code].2
  {
    var pairs := LastTwo(CONTROL_CODES);
    ControlCodesAreRowNumbers();
    ControlEntriesDistinct();
    assert DistinctKeys(pairs);
    forall code | 0 <= code < 66 ensures code in CONTROL_DESC_DICT && CONTROL_DESC_DICT[code] == CONTROL_CODES[code].2 {
      ToDictOfDistinct(pairs, code);
    }
    forall code | code in CONTROL_DESC_DICT ensures code < 66 {
      assert code in KeysOf(pairs);
      var i :| 0 <= i < |pairs| && pairs[i].0 == code;
    }
  }

  /** `CONTROL_CODE_DICT[control]`: the code of a listed name, and the
      `KeyError` of the lookup for any other name. */
  function ControlCode(control: string): (r: Result<nat>)
    ensures r.Failure? ==> r.error == UnknownName(control)
  {
    match Lookup(FirstTwo(CONTROL_CODES), control)
    case Some(code) => Success(code)
    case None => Failure(UnknownName(control))
  }

  /** A name has a code exactly when the table lists it, and the code is its
      row number. */
  lemma ControlCodeListed(control: string)
    ensures ControlCode(control) == if control in CONTROL_CODE_DICT then Success(CONTROL_CODE_DICT[control])
                                    else Failure(UnknownName(control))
    ensures ControlCode(control).Success? <==> exists i :: 0 <= i < |CONTROL_CODES| && CONTROL_CODES[i].0 == control
    ensures forall i :: 0 <= i < |CONTROL_CODES| && CONTROL_CODES[i].0 == control ==> ControlCode(control) == Success(i)
  {
    LookupIsDict(FirstTwo(CONTROL_CODES), control);
    ControlCodeDictTotal();
  }

  /** Every row's name has that row's number as its code. */
  lemma ControlCodeOfRow(i: nat)
    requires i < |CONTROL_CODES|
    ensures ControlCode(CONTROL_CODES[i].0) == Success(i)
  {
    ControlCodeListed(CONTROL_CODES[i].0);
  }

  /** The codes of the gain and offset controls. */
  lemma GainAndOffsetCodes()
    ensures ControlCode("CONTROL_GAIN") == Success(6)
    ensures ControlCode("CONTROL_OFFSET") == Success(7)
  {
    ControlCodeOfRow(6);
    assert CONTROL_CODES[6].0 == "CONTROL_GAIN";
    ControlCodeOfRow(7);
    assert CONTROL_CODES[7].0 == "CONTROL_OFFSET";
  }

  /** The codes of the exposure-time and USB-traffic controls. */
  lemma ExposureAndTrafficCodes()
    ensures ControlCode("CONTROL_EXPOSURE") == Success(8)
    ensures ControlCode("CONTROL_USBTRAFFIC") == Success(12)
  {
    ControlCodeOfRow(8);
    assert CONTROL_CODES[8].0 == "CONTROL_EXPOSURE";
    ControlCodeOfRow(12);
    assert CONTROL_CODES[12].0 == "CONTROL_USBTRAFFIC";
  }

  /** The codes of the sensor-temperature and cooler-target controls. */
  lemma TemperatureCodes()
    ensures ControlCode("CONTROL_CURTEMP") == Success(14)
    ensures ControlCode("CONTROL_COOLER") == Success(18)
  {
    ControlCodeOfRow(14);
    assert CONTROL_CODES[14].0 == "CONTROL_CURTEMP";
    ControlCodeOfRow(18);
    assert CONTROL_CODES[18].0 == "CONTROL_COOLER";
  }

  /** The codes of the colour and single-frame capabilities `__init__` looks for. */
  lemma CapabilityCodes()
    ensures ControlCode("CAM_COLOR") == Success(20)
    ensures ControlCode("CAM_SINGLEFRAMEMODE") == Success(57)
  {
    ControlCodeOfRow(20);
    assert CONTROL_CODES[20].0 == "CAM_COLOR";
    ControlCodeOfRow(57);
    assert CONTROL_CODES[57].0 == "CAM_SINGLEFRAMEMODE";
  }
}
