/**
 * MainActivity: the tables that derive control enablement from the session status,
 * the interpretation of firmware comparison results and status-update codes, and
 * the name of the exported statistics file.
 */
module Activity {
  import opened Wrappers
  import opened Text
  import opened Vendor
  import opened ViewModel

  /** Which controls are enabled, and whether the async switch is checked. */
  datatype Panel = Panel(
    open: bool, close: bool, claim: bool, release: bool, enable: bool, disable: bool,
    nameSpinner: bool, openFirmware: bool, saveStatistics: bool, upgrade: bool,
    readWeight: bool, asyncSwitch: bool, asyncChecked: bool)

  /** The buttons wired to the six lifecycle operations. */
  datatype Control = OpenButton | CloseButton | ClaimButton | ReleaseButton | EnableButton | DisableButton

  /** The view-model operation each button's click listener calls. */
  function Wired(c: Control): Lifecycle {
    match c
    case OpenButton => Lifecycle.Open
    case CloseButton => Lifecycle.Close
    case ClaimButton => Lifecycle.Claim
    case ReleaseButton => Lifecycle.Release
    case EnableButton => Lifecycle.Enable
    case DisableButton => Lifecycle.Disable
  }

  function IsOn(p: Panel, c: Control): bool {
    match c
    case OpenButton => p.open
    case CloseButton => p.close
    case ClaimButton => p.claim
    case ReleaseButton => p.release
    case EnableButton => p.enable
    case DisableButton => p.disable
  }

  /** Position of a status on the chain CLOSED - OPENED - CLAIMED - ENABLED. */
  function Rank(s: Status): nat
    requires s != Error
  {
    match s
    case Closed => 0
    case Opened => 1
    case Claimed => 2
    case Enabled => 3
  }

  /** `handleButtonsOnStatusChange`. */
  function ButtonsOnStatusChange(p: Panel, status: Status, isScale: bool): (q: Panel)
    ensures status == Error ==> q == p
    ensures status != Error ==>
      && (q.open <==> status == Closed) && (q.nameSpinner <==> status == Closed)
      && (q.close <==> status == Opened) && (q.claim <==> status == Opened)
      && (q.release <==> status == Claimed) && (q.enable <==> status == Claimed)
      && (q.disable <==> status == Enabled) && (q.openFirmware <==> status == Enabled)
      && (q.saveStatistics <==> status == Enabled)
      && (q.readWeight <==> isScale && status == Enabled) && (q.asyncSwitch <==> isScale && status == Enabled)
      && q.asyncChecked == (isScale && status == Enabled && p.asyncChecked)
    ensures q.upgrade == p.upgrade
  {
    if status == Error then p
    else
      var scaleEnabled := isScale && status == Enabled;
      p.(open := status == Closed, close := status == Opened, claim := status == Opened,
         release := status == Claimed, enable := status == Claimed, disable := status == Enabled,
         nameSpinner := status == Closed, openFirmware := status == Enabled,
         saveStatistics := status == Enabled, readWeight := scaleEnabled, asyncSwitch := scaleEnabled,
         asyncChecked := if scaleEnabled then p.asyncChecked else false)
  }

  /**
   * The lifecycle discipline the panel imposes: outside ERROR, exactly the controls
   * whose operation starts from the current status are enabled, and each of them
   * leads, on success, to a neighbouring status on the chain.
   */
  lemma EnabledControlsStepToNeighbour(p: Panel, status: Status, isScale: bool, c: Control)
    requires status != Error
    ensures IsOn(ButtonsOnStatusChange(p, status, isScale), c) ==>
      Rank(OnSuccess(Wired(c))) == Rank(status) + 1 || Rank(OnSuccess(Wired(c))) == Rank(status) - 1
    ensures IsOn(ButtonsOnStatusChange(p, status, isScale), c) <==>
      match c
      case OpenButton => status == Closed
      case CloseButton | ClaimButton => status == Opened
      case ReleaseButton | EnableButton => status == Claimed
      case DisableButton => status == Enabled
  {
  }

  /** At every status outside ERROR at least one lifecycle control is enabled. */
  lemma NeverStuck(p: Panel, status: Status, isScale: bool)
    requires status != Error
    ensures exists c :: IsOn(ButtonsOnStatusChange(p, status, isScale), c)
  {
    var q := ButtonsOnStatusChange(p, status, isScale);
    match status
    case Closed => assert IsOn(q, OpenButton);
    case Opened => assert IsOn(q, ClaimButton);
    case Claimed => assert IsOn(q, EnableButton);
    case Enabled => assert IsOn(q, DisableButton);
  }

  /** `disableAll`: every control bound to an operation, except read-weight and async, is disabled. */
  function AllDisabled(p: Panel): (q: Panel)
    ensures forall c :: !IsOn(q, c)
    ensures !q.nameSpinner && !q.openFirmware && !q.upgrade && !q.saveStatistics
    ensures q.readWeight == p.readWeight && q.asyncSwitch == p.asyncSwitch && q.asyncChecked == p.asyncChecked
  {
    p.(open := false, close := false, claim := false, release := false, enable := false,
       disable := false, nameSpinner := false, openFirmware := false, upgrade := false,
       saveStatistics := false)
  }

  // ----- firmware comparison -----

  const NA := "N/A"

  /** The texts `handleFirmwareComparisonResult` shows and whether it enables the upgrade button. */
  datatype ComparisonView = ComparisonView(comparison: string, deviceVersion: string, fileVersion: string, upgrade: bool)

  /**
   * The switch of `handleFirmwareComparisonResult` over result[0]; no two of the
   * codes coincide, so at most one case applies. `deviceShown`
   * and `fileShown` are the version texts currently on screen.
   */
  function ComparisonOutcome(c: Codes, result: seq<int>, errorMessage: string, deviceShown: string, fileShown: string)
    : (v: ComparisonView)
    requires c.WellFormed() && |result| == 5
    ensures v.upgrade <==> result[0] in {c.cvfFirmwareOlder, c.cvfFirmwareNewer, c.cvfFirmwareSame}
    ensures v.upgrade ==> v.fileVersion == IntToString(result[3]) && v.deviceVersion == IntToString(result[4])
    ensures result[0] == c.cvfFirmwareOlder ==> v.comparison == "The installed version is newer."
    ensures result[0] == c.cvfFirmwareNewer ==> v.comparison == "The installed version is older."
    ensures result[0] == c.cvfFirmwareSame ==> v.comparison == "The installed version is the same."
    ensures result[0] == -1 ==>
      v.comparison == errorMessage && v.fileVersion == NA && v.deviceVersion == deviceShown
    ensures result[0] == c.cvfFirmwareUnknown ==>
      v.comparison == "Can not get the device firmware." && v.fileVersion == NA && v.deviceVersion == NA
    ensures result[0] == c.cfvInvalidVid ==>
      v.comparison == "Invalid vendor " + IntToString(result[2]) + "." && v.fileVersion == NA && v.deviceVersion == deviceShown
    ensures result[0] == c.cfvInvalidPid ==>
      v.comparison == "Invalid product " + IntToString(result[2]) + "." && v.fileVersion == NA && v.deviceVersion == deviceShown
    ensures result[0] !in {-1, c.cvfFirmwareOlder, c.cvfFirmwareNewer, c.cvfFirmwareSame,
                           c.cvfFirmwareUnknown, c.cfvInvalidVid, c.cfvInvalidPid} ==>
      v == ComparisonView(NA, deviceShown, fileShown, false)
  {
    var code := result[0];
    var versions := ComparisonView("", IntToString(result[4]), IntToString(result[3]), true);
    if code == -1 then ComparisonView(errorMessage, deviceShown, NA, false)
    else if code == c.cvfFirmwareOlder then versions.(comparison := "The installed version is newer.")
    else if code == c.cvfFirmwareNewer then versions.(comparison := "The installed version is older.")
    else if code == c.cvfFirmwareSame then versions.(comparison := "The installed version is the same.")
    else if code == c.cvfFirmwareUnknown then ComparisonView("Can not get the device firmware.", NA, NA, false)
    else if code == c.cfvInvalidVid then ComparisonView("Invalid vendor " + IntToString(result[2]) + ".", deviceShown, NA, false)
    else if code == c.cfvInvalidPid then ComparisonView("Invalid product " + IntToString(result[2]) + ".", deviceShown, NA, false)
    else ComparisonView(NA, deviceShown, fileShown, false)
  }

  /** The switch itself, reassigning its four locals case by case. */
  method FirmwareComparison(c: Codes, result: seq<int>, errorMessage: string, deviceShown: string, fileShown: string)
    returns (v: ComparisonView)
    requires c.WellFormed() && |result| == 5
    ensures v == ComparisonOutcome(c, result, errorMessage, deviceShown, fileShown)
  {
    var comparisonStatus := NA;
    var deviceVersion := deviceShown;
    var fileVersion := fileShown;
    var enableUpgradeButton := false;
    var code := result[0];
    if code == -1 {
      comparisonStatus := errorMessage;
      fileVersion := NA;
    } else if code == c.cvfFirmwareOlder {
      comparisonStatus := "The installed version is newer.";
      fileVersion := IntToString(result[3]);
      deviceVersion := IntToString(result[4]);
      enableUpgradeButton := true;
    } else if code == c.cvfFirmwareNewer {
      comparisonStatus := "The installed version is older.";
      fileVersion := IntToString(result[3]);
      deviceVersion := IntToString(result[4]);
      enableUpgradeButton := true;
    } else if code == c.cvfFirmwareSame {
      comparisonStatus := "The installed version is the same.";
      fileVersion := IntToString(result[3]);
      deviceVersion := IntToString(result[4]);
      enableUpgradeButton := true;
    } else if code == c.cvfFirmwareUnknown {
      comparisonStatus := "Can not get the device firmware.";
      fileVersion := NA;
      deviceVersion := NA;
    } else if code == c.cfvInvalidVid {
      comparisonStatus := "Invalid vendor " + IntToString(result[2]) + ".";
      fileVersion := NA;
    } else if code == c.cfvInvalidPid {
      comparisonStatus := "Invalid product " + IntToString(result[2]) + ".";
      fileVersion := NA;
    }
    v := ComparisonView(comparisonStatus, deviceVersion, fileVersion, enableUpgradeButton);
  }

  /** No comparison outcome both enables the upgrade and blanks a version. */
  lemma UpgradeShowsBothVersions(c: Codes, result: seq<int>, errorMessage: string, deviceShown: string, fileShown: string)
    requires c.WellFormed() && |result| == 5
    ensures var v := ComparisonOutcome(c, result, errorMessage, deviceShown, fileShown);
      v.upgrade ==> v.fileVersion != NA && v.deviceVersion != NA && ParseInt(v.fileVersion) == result[3]
  {
    var v := ComparisonOutcome(c, result, errorMessage, deviceShown, fileShown);
    if v.upgrade {
      IntRoundTrip(result[3]);
      IntRoundTrip(result[4]);
      assert !IsDigit('N');
      assert IsDecimal(v.fileVersion) && IsDecimal(v.deviceVersion);
    }
  }

  // ----- status-update codes -----

  /** How `handleConnectionStatusChange` reads a status-update code. */
  datatype Connection =
    | ShowOnline
    | ShowOffline
      /** inside the firmware-update range; `progress` is None at SUE_UF_COMPLETE */
    | Upgrade(starting: bool, progress: Option<int>)
    | Ignored

  function OfflineCodes(c: Codes): set<int> {
    {c.suePowerOff, c.suePowerOffOffline, c.suePowerOffline, c.psUnknown}
  }

  /** The if-chain of `handleConnectionStatusChange`: the first test that matches wins. */
  function ClassifyConnection(c: Codes, status: int): (v: Connection)
    ensures v.ShowOnline? <==> status == c.suePowerOnline
    ensures v.ShowOffline? <==> status != c.suePowerOnline && status in OfflineCodes(c)
    ensures v.Upgrade? <==>
      status != c.suePowerOnline && status !in OfflineCodes(c) && c.sueUfProgress <= status <= c.sueUfComplete
    ensures v.Upgrade? ==> (v.starting <==> status == c.sueUfProgress) && (v.progress.None? <==> status == c.sueUfComplete)
    ensures v.Upgrade? && v.progress.Some? ==>
      v.progress.value == status - c.sueUfProgress && 0 <= v.progress.value < c.sueUfComplete - c.sueUfProgress
  {
    if status == c.suePowerOnline then ShowOnline
    else if status in OfflineCodes(c) then ShowOffline
    else if c.sueUfProgress <= status <= c.sueUfComplete then
      Upgrade(status == c.sueUfProgress, if status < c.sueUfComplete then Some(status - c.sueUfProgress) else None)
    else Ignored
  }

  /** `updatePercentage`: the progress followed by a percent sign. */
  function PercentText(percentage: int): (t: string)
    ensures |t| > 1 && t[|t| - 1] == '%'
    ensures IsDecimal(t[..|t| - 1]) && ParseInt(t[..|t| - 1]) == percentage
  {
    IntRoundTrip(percentage);
    var t := IntToString(percentage) + "%";
    assert t[..|t| - 1] == IntToString(percentage);
    t
  }

  // ----- statistics export -----

  /** The document `createFile` asks the user to create. */
  datatype DocumentRequest = DocumentRequest(mimeType: string, title: string)

  function Extension(format: StatisticsFormat): string {
    if format == Xml then "xml" else "txt"
  }

  /** `createFile`: the type and suggested title of the statistics file. */
  function CreateFile(logicalName: string, format: StatisticsFormat): (r: DocumentRequest)
    ensures r.mimeType == "text/" + Extension(format)
    ensures r.title == logicalName + "_stats." + Extension(format)
  {
    var ext := Extension(format);
    DocumentRequest("text/" + ext, logicalName + "_stats." + ext)
  }

  /** The suggested title names the device and reveals the chosen format. */
  lemma CreateFileTitle(logicalName: string, f: StatisticsFormat, g: StatisticsFormat)
    ensures StartsWith(CreateFile(logicalName, f).title, logicalName)
    ensures CreateFile(logicalName, f).title == CreateFile(logicalName, g).title ==> f == g
    ensures CreateFile(logicalName, f).mimeType == CreateFile(logicalName, g).mimeType ==> f == g
  {
    var t := CreateFile(logicalName, f).title;
    assert t[..|logicalName|] == logicalName;
    if f != g {
      var u := CreateFile(logicalName, g).title;
      assert t[|t| - 3] != u[|u| - 3];
      var m, n := CreateFile(logicalName, f).mimeType, CreateFile(logicalName, g).mimeType;
      assert m[5] == Extension(f)[0] && n[5] == Extension(g)[0];
    }
  }

  const DefaultLogicalName := "DL-Gryphon-GD4500-USB-OEM"

  /** The profile selected before the user picks one names a scanner. */
  lemma DefaultNameIsScanner()
    ensures KindOf(DefaultLogicalName) == Scanner
  {
    assert "Scale"[3] == 'l' && 'l' !in DefaultLogicalName;
    MissingCharNotContained(DefaultLogicalName, "Scale", 3);
  }

  // ----- the activity -----

  datatype Presence = PresenceOnline | PresenceOffline

  datatype ResultLabel = UpgradingLabel | ComparisonLabel

  /** The firmware part of the screen. */
  datatype FirmwareLabels = FirmwareLabels(
    resultLabel: ResultLabel, comparison: string, currentVersion: string, fileVersion: string, progress: int)

  /** What `resetUpdateData` leaves on screen (the `na` string resource is "N/A"). */
  const ResetLabels := FirmwareLabels(ComparisonLabel, NA, NA, NA, 0)

  class MainActivity {
    const vm: ExampleViewModel
    var logicalName: string
    var panel: Panel
    var labels: FirmwareLabels
    var presence: Option<Presence>

    /** `layout` and `shown` are the initial widget states from the layout resource. */
    constructor (vm: ExampleViewModel, layout: Panel, shown: FirmwareLabels)
      ensures this.vm == vm && logicalName == DefaultLogicalName
      ensures panel == layout && labels == shown && presence.None?
    {
      this.vm := vm;
      logicalName := DefaultLogicalName;
      panel := layout;
      labels := shown;
      presence := None;
    }

    /** The status observer's part that sets control enablement. */
    method OnStatusChanged(status: Status)
      modifies this`panel
      ensures panel == ButtonsOnStatusChange(old(panel), status, vm.IsDeviceAScale())
    {
      panel := ButtonsOnStatusChange(panel, status, vm.IsDeviceAScale());
    }

    /** The logical-name spinner's listener. */
    method OnLogicalNameSelected(name: string)
      modifies this`logicalName
      ensures logicalName == name
    {
      logicalName := name;
    }

    /** The statistics spinner's listener: positions 0 and 1 select a format, any other keeps it. */
    method OnStatisticsFormatSelected(position: int)
      modifies vm`statisticsFormat
      ensures position == 0 ==> vm.statisticsFormat == Xml
      ensures position == 1 ==> vm.statisticsFormat == Avalanche
      ensures position != 0 && position != 1 ==> vm.statisticsFormat == old(vm.statisticsFormat)
    {
      if position == 0 {
        vm.SetStatisticsFormat(Xml);
      } else if position == 1 {
        vm.SetStatisticsFormat(Avalanche);
      }
    }

    /** `handleFirmwareComparisonResult` applied to the screen. */
    method HandleFirmwareComparisonResult(result: seq<int>)
      requires vm.Valid() && |result| == 5
      modifies this`labels, this`panel
      ensures var v := ComparisonOutcome(vm.codes, result, vm.errorMessage, old(labels).currentVersion, old(labels).fileVersion);
        && labels == old(labels).(comparison := v.comparison, currentVersion := v.deviceVersion, fileVersion := v.fileVersion)
        && panel == old(panel).(upgrade := v.upgrade)
    {
      var v := FirmwareComparison(vm.codes, result, vm.errorMessage, labels.currentVersion, labels.fileVersion);
      labels := labels.(comparison := v.comparison, currentVersion := v.deviceVersion, fileVersion := v.fileVersion);
      panel := panel.(upgrade := v.upgrade);
    }

    method DisableAll()
      modifies this`panel
      ensures panel == AllDisabled(old(panel))
    {
      panel := AllDisabled(panel);
    }

    /** `resetUpdateData`: clear the firmware texts and re-derive enablement from the current status. */
    method ResetUpdateData()
      requires vm.Valid()
      modifies this`labels, this`panel
      ensures labels == ResetLabels
      ensures panel == ButtonsOnStatusChange(old(panel), vm.CurrentStatus(), vm.IsDeviceAScale())
    {
      labels := labels.(currentVersion := NA, comparison := NA, resultLabel := ComparisonLabel, fileVersion := NA, progress := 0);
      OnStatusChanged(vm.CurrentStatus());
    }

    method HandleConnectionStatusChange(status: int)
      requires vm.Valid()
      modifies this`labels, this`panel, this`presence
      ensures ClassifyConnection(vm.codes, status) == ShowOnline ==>
        presence == Some(PresenceOnline) && panel == old(panel) && labels == old(labels)
      ensures ClassifyConnection(vm.codes, status) == ShowOffline ==>
        presence == Some(PresenceOffline) && panel == old(panel) && labels == old(labels)
      ensures ClassifyConnection(vm.codes, status) == Ignored ==>
        presence == old(presence) && panel == old(panel) && labels == old(labels)
      ensures ClassifyConnection(vm.codes, status).Upgrade? ==>
        var v := ClassifyConnection(vm.codes, status);
        var blanked := if v.starting then AllDisabled(old(panel)) else old(panel);
        && presence == old(presence)
        && (v.progress.Some? ==>
              && panel == blanked
              && labels == old(labels).(resultLabel := if v.starting then UpgradingLabel else old(labels).resultLabel,
                                        progress := v.progress.value, comparison := PercentText(v.progress.value)))
        && (v.progress.None? ==>
              && panel == ButtonsOnStatusChange(blanked, vm.CurrentStatus(), vm.IsDeviceAScale())
              && labels == ResetLabels)
    {
      var c := vm.codes;
      if status == c.suePowerOnline {
        presence := Some(PresenceOnline);
      } else if status == c.suePowerOff || status == c.suePowerOffOffline || status == c.suePowerOffline || status == c.psUnknown {
        presence := Some(PresenceOffline);
      } else if status >= c.sueUfProgress && status <= c.sueUfComplete {
        if status == c.sueUfProgress {
          DisableAll();
          labels := labels.(resultLabel := UpgradingLabel);
        }
        if status < c.sueUfComplete {
          labels := labels.(progress := status - c.sueUfProgress, comparison := PercentText(status - c.sueUfProgress));
        } else {
          ResetUpdateData();
        }
      }
    }
  }

  /**
   * A status-update event at SUE_UF_PROGRESS reaches the activity twice: its code calls
   * `disableAll`, and the ENABLED the view-model posts for the same event re-derives the
   * panel. Once that ENABLED is observed, disable, open-firmware and save-statistics are
   * enabled again while upgrade stays off.
   */
  lemma UpgradeStartThenEnabled(c: Codes, p: Panel, isScale: bool)
    requires c.sueUfProgress < c.sueUfComplete
    requires c.sueUfProgress != c.suePowerOnline && c.sueUfProgress !in OfflineCodes(c)
    ensures ClassifyConnection(c, c.sueUfProgress) == Upgrade(true, Some(0))
    ensures var q := ButtonsOnStatusChange(AllDisabled(p), Enabled, isScale);
      && q.disable && q.openFirmware && q.saveStatistics && !q.upgrade
      && !q.open && !q.close && !q.claim && !q.release && !q.enable
  {
  }
}
