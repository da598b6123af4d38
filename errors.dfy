/** The status table of the wrapper: 26 rows of (name, status code,
    description), the two dictionaries built from it, the threshold above
    which a status is an error, and the two functions that read them,
    `check_status` and `error`. */
module Errors {
  import opened Types
  import opened Dicts

  /** `ERROR_CODES`, row by row as the wrapper lists it, in two parts so that
      the verifier keeps the contents of each part. */
  const ERROR_CODES: seq<(string, uint32, string)> := ERROR_ROWS_0 + ERROR_ROWS_1

  const ERROR_ROWS_0: seq<(string, uint32, string)> := [
    ("QHYCCD_SUCCESS", 0x00000000, "Camera works well"),
    ("QHYCCD_ERROR", 0xFFFFFFFF, "Error"),
    ("QHYCCD_ERROR_NO_DEVICE", 0xFFFFFFFE, "No camera connected"),
    ("QHYCCD_ERROR_UNSUPPORTED", 0xFFFFFFFD, "Unsupported function"),
    ("QHYCCD_ERROR_SETPARAMS", 0xFFFFFFFC, "Invalid parameter (set)"),
    ("QHYCCD_ERROR_GETPARAMS", 0xFFFFFFFB, "Invalid parameter (get)"),
    ("QHYCCD_ERROR_EXPOSING", 0xFFFFFFFA, "Exposure ongoing"),
    ("QHYCCD_ERROR_EXPFAILED", 0xFFFFFFF9, "Exposure failed"),
    ("QHYCCD_ERROR_GETTINGDATA", 0xFFFFFFF8, "Another instance is transferring data"),
    ("QHYCCD_ERROR_GETTINGFAILED", 0xFFFFFFF7, "Data transfer failure"),
    ("QHYCCD_ERROR_INITCAMERA", 0xFFFFFFF6, "Camera initialization failure"),
    ("QHYCCD_ERROR_RELEASERESOURCE", 0xFFFFFFF5, "Resource release failure"),
    ("QHYCCD_ERROR_INITRESOURCE", 0xFFFFFFF4, "Resource initialization failure")
  ]

  const ERROR_ROWS_1: seq<(string, uint32, string)> := [
    ("QHYCCD_ERROR_NO_MATCH", 0xFFFFFFF3, "No camera matched"),
    ("QHYCCD_ERROR_ERROR_OPENCAM", 0xFFFFFFF2, "Camera opening failure"),
    ("QHYCCD_ERROR_INITCLASS", 0xFFFFFFF1, "Cam class initialization failure"),
    ("QHYCCD_ERROR_SETRESOLUTION", 0xFFFFFFF0, "Invalid resolution"),
    ("QHYCCD_ERROR_USBTRAFFIC", 0xFFFFFFEF, "Invalid USB traffic setting"),
    ("QHYCCD_ERROR_USBSPEED", 0xFFFFFFEE, "Invalid USB speed setting"),
    ("QHYCCD_ERROR_SETEXPOSE", 0xFFFFFFED, "Invalid exposure time"),
    ("QHYCCD_ERROR_SETGAIN", 0xFFFFFFEC, "Invalid detector gain"),
    ("QHYCCD_ERROR_SETRED", 0xFFFFFFEB, "Invalid red color balance"),
    ("QHYCCD_ERROR_SETBLUE", 0xFFFFFFEA, "Invalid blue color balance"),
    ("QHYCCD_ERROR_EVTCMOS", 0xFFFFFFE9, "CMOS EVT failure"),
    ("QHYCCD_ERROR_EVTUSB", 0xFFFFFFE8, "USB EVT failure"),
    ("QHYCCD_ERROR_UNKNOWN", 0xFFFFFFE7, "Unknown")
  ]

  /** `ERROR_MIN`: a status above it is an error. */
  const ERROR_MIN: uint32 := 0xFFFF0000

  /** `ERROR_CODE_DICT = dict([(code[0], code[1]) for code in ERROR_CODES])`. */
  const ERROR_CODE_DICT: map<string, uint32> := ToDict(FirstTwo(ERROR_CODES))

  /** `ERROR_DESC_DICT = dict([(code[1], code[2]) for code in ERROR_CODES])`. */
  const ERROR_DESC_DICT: map<uint32, string> := ToDict(LastTwo(ERROR_CODES))

  /** The first row is success with code 0; row `i` after it has code
      `0xFFFFFFFF - (i - 1)`, so the error codes count down from
      `0xFFFFFFFF` to `0xFFFFFFE7`. */
  lemma ErrorCodesLayout()
    ensures |ERROR_CODES| == 26
    ensures ERROR_CODES[0].1 == 0
    ensures forall i :: 1 <= i < |ERROR_CODES| ==> ERROR_CODES[i].1 == 0x1_0000_0000 - i
  {
    assert forall k :: 1 <= k < 13 ==> ERROR_ROWS_0[k].1 == 0x1_0000_0000 - k;
    assert forall k :: 0 <= k < 13 ==> ERROR_ROWS_1[k].1 == 0x1_0000_0000 - 13 - k;
  }

  // The names are distinct within each part and between the parts.
  lemma Part0NamesDistinct() ensures forall i, j :: 0 <= i < j < |ERROR_ROWS_0| ==> ERROR_ROWS_0[i].0 != ERROR_ROWS_0[j].0 {}
  lemma Part1NamesDistinct() ensures forall i, j :: 0 <= i < j < |ERROR_ROWS_1| ==> ERROR_ROWS_1[i].0 != ERROR_ROWS_1[j].0 {}
  lemma Parts01NamesDisjoint() ensures forall i, j :: 0 <= i < |ERROR_ROWS_0| && 0 <= j < |ERROR_ROWS_1| ==> ERROR_ROWS_0[i].0 != ERROR_ROWS_1[j].0 {}

  /** No name and no code occurs twice in the table. */
  lemma ErrorEntriesDistinct()
    ensures forall i, j :: 0 <= i < j < |ERROR_CODES| ==> ERROR_CODES[i].0 != ERROR_CODES[j].0
    ensures forall i, j :: 0 <= i < j < |ERROR_CODES| ==> ERROR_CODES[i].1 != ERROR_CODES[j].1
  {
    ErrorCodesLayout();
    Part0NamesDistinct();
    Part1NamesDistinct();
    Parts01NamesDisjoint();
    forall i, j | 0 <= i < j < |ERROR_CODES|
      ensures ERROR_CODES[i].0 != ERROR_CODES[j].0
    {
      if j < 13 {
        assert ERROR_CODES[i] == ERROR_ROWS_0[i] && ERROR_CODES[j] == ERROR_ROWS_0[j];
      } else if i < 13 {
        assert ERROR_CODES[i] == ERROR_ROWS_0[i] && ERROR_CODES[j] == ERROR_ROWS_1[j - 13];
      } else {
        assert ERROR_CODES[i] == ERROR_ROWS_1[i - 13] && ERROR_CODES[j] == ERROR_ROWS_1[j - 13];
      }
    }
  }

  /** Success is at or below `ERROR_MIN` and every other listed code is
      above it, so `check_status` raises for exactly the error rows. */
  lemma ErrorCodesAboveMin()
    ensures ERROR_CODES[0].0 == "QHYCCD_SUCCESS" && ERROR_CODES[0].1 <= ERROR_MIN
    ensures forall i :: 1 <= i < |ERROR_CODES| ==> ERROR_CODES[i].1 > ERROR_MIN
  {
    ErrorCodesLayout();
  }

  /** `ERROR_CODE_DICT` is defined exactly on the listed names and maps each
      to the code on its row. */
  lemma ErrorCodeDictTotal()
    ensures forall name :: name in ERROR_CODE_DICT <==> exists i :: 0 <= i < |ERROR_CODES| && ERROR_CODES[i].0 == name
    ensures forall i :: 0 <= i < |ERROR_CODES| ==> ERROR_CODE_DICT[ERROR_CODES[i].0] == ERROR_CODES[i].1
  {
    var pairs := FirstTwo(ERROR_CODES);
    ErrorEntriesDistinct();
    assert DistinctKeys(pairs);
    forall i | 0 <= i < |ERROR_CODES| ensures ERROR_CODES[i].0 in ERROR_CODE_DICT && ERROR_CODE_DICT[ERROR_CODES[i].0] == ERROR_CODES[i].1 {
      ToDictOfDistinct(pairs, i);
    }
  }

  /** `ERROR_DESC_DICT` is defined exactly on the listed codes and maps each
      to the description on its row. */
  lemma ErrorDescDictTotal()
    ensures forall code :: code in ERROR_DESC_DICT <==> exists i :: 0 <= i < |ERROR_CODES| && ERROR_CODES[i].1 == code
    ensures forall i :: 0 <= i < |ERROR_CODES| ==> ERROR_DESC_DICT[ERROR_CODES[i].1] == ERROR_CODES[i].2
  {
    var pairs := LastTwo(ERROR_CODES);
    ErrorEntriesDistinct();
    assert DistinctKeys(pairs);
    forall i | 0 <= i < |ERROR_CODES| ensures ERROR_CODES[i].1 in ERROR_DESC_DICT && ERROR_DESC_DICT[ERROR_CODES[i].1] == ERROR_CODES[i].2 {
      ToDictOfDistinct(pairs, i);
    }
  }

  /** The listed codes are 0 and the 25 codes from `0xFFFFFFE7` to
      `0xFFFFFFFF`. */
  lemma ListedCodes(code: uint32)
    ensures (exists i :: 0 <= i < |ERROR_CODES| && ERROR_CODES[i].1 == code) <==> code == 0 || 0xFFFFFFE7 <= code
  {
    ErrorCodesLayout();
    if code != 0 && 0xFFFFFFE7 <= code {
      assert ERROR_CODES[0x1_0000_0000 - code].1 == code;
    }
  }

  /** `check_status(status_code)`: a status at or below `ERROR_MIN` is passed
      through; above it the status is looked up in `ERROR_DESC_DICT`, and
      raises `RuntimeError` with the description found or, when there is
      none, the `KeyError` of the failed lookup. */
  function CheckStatus(status: uint32): (r: Result<uint32>)
    ensures r.Success? <==> status <= ERROR_MIN
    ensures r.Success? ==> r.value == status
  {
    if status > ERROR_MIN then
      match Lookup(LastTwo(ERROR_CODES), status)
      case Some(description) => Failure(RuntimeError(description))
      case None => Failure(UnknownStatus(status))
    else Success(status)
  }

  /** The exception `check_status` raises: a listed error status raises
      `RuntimeError` with the description on its row, and a status between
      `ERROR_MIN` and the lowest listed code is unknown. */
  lemma CheckStatusRaises(status: uint32)
    ensures status > ERROR_MIN ==>
              CheckStatus(status) == if status in ERROR_DESC_DICT then Failure(RuntimeError(ERROR_DESC_DICT[status]))
                                     else Failure(UnknownStatus(status))
    ensures forall i :: 1 <= i < |ERROR_CODES| && ERROR_CODES[i].1 == status ==>
              CheckStatus(status) == Failure(RuntimeError(ERROR_CODES[i].2))
    ensures ERROR_MIN < status < 0xFFFFFFE7 ==> CheckStatus(status) == Failure(UnknownStatus(status))
  {
    LookupIsDict(LastTwo(ERROR_CODES), status);
    ErrorCodesAboveMin();
    ErrorDescDictTotal();
    ListedCodes(status);
  }

  /** `error(status_string)`: the description of the named status, and
      `KeyError` for a name the table does not list. */
  function Error(name: string): (r: Result<string>)
    ensures r.Success? <==> exists i :: 0 <= i < |ERROR_CODES| && ERROR_CODES[i].0 == name
    ensures forall i :: 0 <= i < |ERROR_CODES| && ERROR_CODES[i].0 == name ==> r == Success(ERROR_CODES[i].2)
    ensures r.Failure? ==> r.error == UnknownName(name)
  {
    ErrorCodeDictTotal();
    ErrorDescDictTotal();
    if name in ERROR_CODE_DICT then Success(ERROR_DESC_DICT[ERROR_CODE_DICT[name]])
    else Failure(UnknownName(name))
  }

  // The descriptions the session object raises, by the status name it
  // passes to `error`.
  const GENERIC_ERROR := "Error"
  const NO_DEVICE := "No camera connected"
  const UNSUPPORTED := "Unsupported function"
  const NO_MATCH := "No camera matched"
  const OPENCAM_FAILED := "Camera opening failure"

  /** The messages above are what `error` returns for the status names the
      session object raises with. */
  lemma RaisedMessages()
    ensures Error("QHYCCD_ERROR") == Success(GENERIC_ERROR)
    ensures Error("QHYCCD_ERROR_NO_DEVICE") == Success(NO_DEVICE)
    ensures Error("QHYCCD_ERROR_UNSUPPORTED") == Success(UNSUPPORTED)
    ensures Error("QHYCCD_ERROR_NO_MATCH") == Success(NO_MATCH)
    ensures Error("QHYCCD_ERROR_ERROR_OPENCAM") == Success(OPENCAM_FAILED)
  {
    assert ERROR_CODES[1].0 == "QHYCCD_ERROR";
    assert ERROR_CODES[2].0 == "QHYCCD_ERROR_NO_DEVICE";
    assert ERROR_CODES[3].0 == "QHYCCD_ERROR_UNSUPPORTED";
    assert ERROR_CODES[13].0 == "QHYCCD_ERROR_NO_MATCH";
    assert ERROR_CODES[14].0 == "QHYCCD_ERROR_ERROR_OPENCAM";
  }
}
