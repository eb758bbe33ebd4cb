/**
 * The vendor SDK's integer constants. Their values live in the closed SDK, so the
 * model fixes none of them: every member that needs one takes a `Codes` record and
 * holds for all values allowed by `WellFormed`.
 */
module Vendor {

  datatype Codes = Codes(
    // firmware comparison outcomes (CommonsConstants.CVF_*, DLSJposConst.DLS_CFV_*)
    cvfFirmwareOlder: int,
    cvfFirmwareNewer: int,
    cvfFirmwareSame: int,
    cvfFirmwareUnknown: int,
    cfvInvalidVid: int,
    cfvInvalidPid: int,
    // status-update codes (CommonsConstants.SUE_*, PS_UNKNOWN)
    suePowerOnline: int,
    suePowerOff: int,
    suePowerOffOffline: int,
    suePowerOffline: int,
    psUnknown: int,
    sueUfProgress: int,
    sueUfComplete: int,
    // weight units (ScaleConstants.SCAL_WU_*)
    wuGram: int,
    wuKilogram: int,
    wuOunce: int,
    wuPound: int)
  {
    /**
     * What the Java compiler forces: the labels of one `switch` are pairwise
     * distinct. The firmware switch also has the label -1; the status-update
     * codes are tested by an if-chain and need no such constraint.
     */
    predicate WellFormed() {
      && DistinctFirmwareLabels()
      && wuGram != wuKilogram && wuGram != wuOunce && wuGram != wuPound
      && wuKilogram != wuOunce && wuKilogram != wuPound
      && wuOunce != wuPound
    }

    predicate DistinctFirmwareLabels() {
      && -1 != cvfFirmwareOlder && -1 != cvfFirmwareNewer && -1 != cvfFirmwareSame
      && -1 != cvfFirmwareUnknown && -1 != cfvInvalidVid && -1 != cfvInvalidPid
      && cvfFirmwareOlder != cvfFirmwareNewer && cvfFirmwareOlder != cvfFirmwareSame
      && cvfFirmwareOlder != cvfFirmwareUnknown && cvfFirmwareOlder != cfvInvalidVid
      && cvfFirmwareOlder != cfvInvalidPid
      && cvfFirmwareNewer != cvfFirmwareSame && cvfFirmwareNewer != cvfFirmwareUnknown
      && cvfFirmwareNewer != cfvInvalidVid && cvfFirmwareNewer != cfvInvalidPid
      && cvfFirmwareSame != cvfFirmwareUnknown && cvfFirmwareSame != cfvInvalidVid
      && cvfFirmwareSame != cfvInvalidPid
      && cvfFirmwareUnknown != cfvInvalidVid && cvfFirmwareUnknown != cfvInvalidPid
      && cfvInvalidVid != cfvInvalidPid
    }
  }

  /** The constants of the vendor SDK, which satisfy `WellFormed` by construction. */
  type SdkCodes = c: Codes | c.WellFormed()
    witness Codes(0, 1, 2, 3, 4, 5, 0, 0, 0, 0, 0, 0, 0, 0, 1, 2, 3)
}
