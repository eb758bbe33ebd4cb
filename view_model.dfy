/**
 * The device session controller (ExampleViewModel). Each operation is one atomic
 * step; `postValue` is last-write-wins. The vendor SDK is an oracle: every
 * operation issues a fixed sequence of SDK calls, and the `fault` argument says
 * which of them, if any, throws an APosException and with what message.
 */
module ViewModel {
  import opened Wrappers
  import opened Text
  import opened Vendor

  datatype Status = Closed | Opened | Claimed | Enabled | Error

  datatype StatisticsFormat = Xml | Avalanche

  /** Replaces the `instanceof Scale` / `instanceof Scanner` tests. */
  datatype DeviceKind = Scale | Scanner

  datatype EventType = Data | StatusUpdate

  /** The events the SDK delivers to `onEvent`; `status` is the event's `getStatus()`. */
  datatype Event = DataEvent(status: int) | StatusUpdateEvent(status: int) | ErrorEvent | OtherEvent

  /** The calls the view-model makes on its device handle, with their arguments. */
  datatype SdkCall =
    | Open(logicalName: string)
    | Claim
    | Release
    | Close
    | AddEventListener(eventType: EventType)
    | RemoveEventListener(eventType: EventType)
    | GetPowerState
    | SetAutoDisable(autoDisable: bool)
    | SetDataEventEnabled(dataEventEnabled: bool)
    | SetPowerNotifyEnabled
    | SetDeviceEnabled(deviceEnabled: bool)
    | GetScanDataLabel
    | GetScanDataType
    | GetAsyncMode
    | SetAsyncMode(asyncMode: bool)
    | ReadWeight(timeout: int)
    | GetWeightUnit
    | RetrieveStatistics
    | CompareFirmwareVersion(path: Option<string>)
    | UpdateFirmware(firmwarePath: Option<string>)

  /** The SDK call at position `at` of the operation (counting from 0) throws with `message`. */
  datatype Fault = Fault(at: nat, message: string)

  /** Unchecked exceptions that escape an operation instead of being caught. */
  datatype Unchecked = NullPointer | UnsupportedOperation(message: string)

  /** The six lifecycle operations bound to the activity's buttons. */
  datatype Lifecycle = Open | Claim | Enable | Disable | Release | Close

  /** The status each lifecycle operation posts when none of its SDK calls fails. */
  function OnSuccess(op: Lifecycle): Status {
    match op
    case Open => Opened
    case Claim => Claimed
    case Enable => Enabled
    case Disable => Claimed
    case Release => Opened
    case Close => Closed
  }

  /** One of the first `n` SDK calls of the operation throws. */
  predicate Throws(fault: Option<Fault>, n: nat) {
    fault.Some? && fault.value.at < n
  }

  predicate FailsAt(fault: Option<Fault>, k: nat) {
    fault.Some? && fault.value.at == k
  }

  /** The calls of `calls` that return normally: those before the one that throws. */
  function Completed(calls: seq<SdkCall>, fault: Option<Fault>): (done: seq<SdkCall>)
    ensures Throws(fault, |calls|) ==> |done| == fault.value.at && done == calls[..|done|]
    ensures !Throws(fault, |calls|) ==> done == calls
  {
    if Throws(fault, |calls|) then calls[..fault.value.at] else calls
  }

  /** `logicalName.contains("Scale") && !logicalName.contains("Scanner")` selects a scale. */
  function KindOf(logicalName: string): (k: DeviceKind)
    ensures k == Scale <==>
      (exists i :: OccursAt(logicalName, "Scale", i)) && forall j :: !OccursAt(logicalName, "Scanner", j)
  {
    ContainsIff(logicalName, "Scale");
    ContainsIff(logicalName, "Scanner");
    if Contains(logicalName, "Scale") && !Contains(logicalName, "Scanner") then Scale else Scanner
  }

  /** `formatWeight`: the device reports thousandths of a unit. */
  function FormatWeight(raw: int): (w: real)
    ensures w * 1000.0 == raw as real
    ensures (w == 0.0) == (raw == 0) && (w < 0.0) == (raw < 0)
  {
    raw as real / 1000.0
  }

  /** The switch of `getWeightUnit`: the four unit codes have names, every other code gives "". */
  function UnitName(c: Codes, unit: int): (name: string)
    requires c.WellFormed()
    ensures name == "" <==> unit !in {c.wuGram, c.wuKilogram, c.wuOunce, c.wuPound}
    ensures unit == c.wuGram ==> name == "grams"
    ensures unit == c.wuKilogram ==> name == "kilograms"
    ensures unit == c.wuOunce ==> name == "ounces"
    ensures unit == c.wuPound ==> name == "pounds"
  {
    if unit == c.wuGram then "grams"
    else if unit == c.wuKilogram then "kilograms"
    else if unit == c.wuOunce then "ounces"
    else if unit == c.wuPound then "pounds"
    else ""
  }

  /** The SDK calls of `enable`, in program order. */
  function EnableCalls(kind: DeviceKind): seq<SdkCall> {
    if kind == Scanner then
      [AddEventListener(Data), AddEventListener(StatusUpdate), GetPowerState,
       SetAutoDisable(false), SetDataEventEnabled(true), SetPowerNotifyEnabled, SetDeviceEnabled(true)]
    else
      [AddEventListener(Data), AddEventListener(StatusUpdate),
       SetAutoDisable(false), SetDataEventEnabled(true), SetPowerNotifyEnabled, SetDeviceEnabled(true)]
  }

  /** How many of the calls of `enable` come before ENABLED is posted. */
  function EnabledPostedAfter(kind: DeviceKind): nat {
    if kind == Scanner then 4 else 3
  }

  /** The SDK calls of `disable`: a scale keeps its event listeners. */
  function DisableCalls(kind: DeviceKind): seq<SdkCall> {
    if kind == Scanner then
      [SetDataEventEnabled(false), SetAutoDisable(true), RemoveEventListener(Data),
       SetDeviceEnabled(false), RemoveEventListener(StatusUpdate)]
    else
      [SetAutoDisable(true), SetDeviceEnabled(false)]
  }

  /** The SDK calls of `readWeight` on a scale, given what `getAsyncMode` answers. */
  function ReadWeightCalls(asyncMode: bool): seq<SdkCall> {
    [GetAsyncMode] + (if asyncMode then [SetDataEventEnabled(true)] else []) + [SdkCall.ReadWeight(1000)]
  }

  /** The SDK calls of `onEvent` for a data event on a scanner. */
  const ScanDataCalls: seq<SdkCall> := [GetScanDataLabel, GetScanDataType, SetDataEventEnabled(true)]

  const ScalesOnly := "Only Scales have this functionality."
  const ScalesOnlyUnit := "Only scales supports this function"

  /** Example: "Scale-Y" mentions "Scale" but not "Scanner", so it selects the scale handle. */
  lemma ScaleNameIsScale()
    ensures KindOf("Scale-Y") == Scale
  {
    assert OccursAt("Scale-Y", "Scale", 0);
    assert "Scanner"[3] == 'n' && 'n' !in "Scale-Y";
    MissingCharNotContained("Scale-Y", "Scanner", 3);
  }

  /** Example: "Scanner-X" does not mention "Scale", so it selects the scanner handle. */
  lemma ScannerNameIsScanner()
    ensures KindOf("Scanner-X") == Scanner
  {
    assert "Scale"[3] == 'l' && 'l' !in "Scanner-X";
    MissingCharNotContained("Scanner-X", "Scale", 3);
  }

  /** Example: a name mentioning both selects the scanner handle. */
  lemma BothNamesIsScanner()
    ensures KindOf("DL-Magellan-Scale-Scanner") == Scanner
  {
    var m := "DL-Magellan-Scale-Scanner";
    assert m[18..][..7] == "Scanner";
    assert OccursAt(m, "Scanner", 18);
  }

  class ExampleViewModel {
    const codes: SdkCodes
    /** `_logicalName`, recorded by `open` */
    var logicalName: Option<string>
    /** `_device`: which handle, if any, `open` has created */
    var device: Option<DeviceKind>
    /** every SDK call on the device handle that returned normally, oldest first */
    var sdkLog: seq<SdkCall>
    /** every value posted to `_status`, oldest first; the status is the last one */
    var posts: seq<Status>
    var errorMessage: string
    var statisticsFormat: StatisticsFormat
    var filePath: Option<string>
    // the last value posted to each of the other observable cells; None before the first
    var connectionStatus: Option<int>
    var barcodeContent: Option<string>
    var barcodeSymbology: Option<string>
    var statistics: Option<string>
    var firmwareInfo: Option<seq<int>>
    var weight: Option<real>

    predicate Valid()
      reads this
    {
      |posts| > 0
    }

    /** `getStatus().getValue()`: the last status posted. */
    function CurrentStatus(): Status
      reads this
      requires Valid()
    {
      posts[|posts| - 1]
    }

    /** `isDeviceAScale`: there is a device and it is a scale. */
    function IsDeviceAScale(): (r: bool)
      reads this
      ensures r ==> device.Some? && device.value == Scale
      ensures !r ==> device.None? || device.value.Scanner?
    {
      device == Some(Scale)
    }

    /** A fresh view-model after `getStatus()` has created `_status` and posted CLOSED. */
    constructor (codes: SdkCodes)
      ensures Valid() && this.codes == codes
      ensures posts == [Closed] && CurrentStatus() == Closed
      ensures statisticsFormat == Xml && errorMessage == ""
      ensures logicalName.None? && device.None? && sdkLog == [] && filePath.None?
      ensures connectionStatus.None? && barcodeContent.None? && barcodeSymbology.None?
      ensures statistics.None? && firmwareInfo.None? && weight.None?
    {
      this.codes := codes;
      logicalName, device, sdkLog := None, None, [];
      posts := [Closed];
      errorMessage := "";
      statisticsFormat := Xml;
      filePath := None;
      connectionStatus, barcodeContent, barcodeSymbology := None, None, None;
      statistics, firmwareInfo, weight := None, None, None;
    }

    /** Issue SDK call number `k` of the current operation. */
    method Call(c: SdkCall, fault: Option<Fault>, k: nat) returns (ok: bool)
      modifies this`sdkLog
      ensures ok == !FailsAt(fault, k)
      ensures sdkLog == if ok then old(sdkLog) + [c] else old(sdkLog)
    {
      ok := !FailsAt(fault, k);
      if ok {
        sdkLog := sdkLog + [c];
      }
    }

    /** The `catch (APosException e)` block shared by most operations. */
    method Catch(message: string)
      requires Valid()
      modifies this`errorMessage, this`posts
      ensures Valid()
      ensures errorMessage == message && posts == old(posts) + [Error]
    {
      errorMessage := message;
      posts := posts + [Error];
    }

    /**
     * Call number `k` of an operation whose calls are `calls`, the earlier ones having
     * returned normally after the log read `base`, with the shared catch block on failure.
     */
    method Step(c: SdkCall, fault: Option<Fault>, k: nat, ghost calls: seq<SdkCall>, ghost base: seq<SdkCall>)
      returns (ok: bool)
      requires Valid() && k < |calls| && calls[k] == c
      requires sdkLog == base + calls[..k] && !Throws(fault, k)
      modifies this`sdkLog, this`errorMessage, this`posts
      ensures Valid()
      ensures ok ==>
        && sdkLog == base + calls[..k + 1] && !Throws(fault, k + 1)
        && posts == old(posts) && errorMessage == old(errorMessage)
      ensures !ok ==>
        && sdkLog == base + Completed(calls, fault) && Throws(fault, k + 1)
        && posts == old(posts) + [Error] && errorMessage == fault.value.message
    {
      ok := Call(c, fault, k);
      if !ok {
        Catch(fault.value.message);
      } else {
        assert calls[..k + 1] == calls[..k] + [c];
      }
    }

    /** The body of a lifecycle operation that makes a single SDK call. */
    method SingleCall(c: SdkCall, op: Lifecycle, fault: Option<Fault>)
      requires Valid()
      modifies this`sdkLog, this`errorMessage, this`posts
      ensures Valid()
      ensures sdkLog == old(sdkLog) + Completed([c], fault)
      ensures posts == old(posts) + [if Throws(fault, 1) then Error else OnSuccess(op)]
      ensures errorMessage == if Throws(fault, 1) then fault.value.message else old(errorMessage)
    {
      var ok := Call(c, fault, 0);
      if ok {
        posts := posts + [OnSuccess(op)];
      } else {
        Catch(fault.value.message);
      }
    }

    method Open(name: string, fault: Option<Fault>)
      requires Valid()
      modifies this`logicalName, this`device, this`sdkLog, this`errorMessage, this`posts
      ensures Valid()
      ensures logicalName == Some(name) && device == Some(KindOf(name))
      ensures sdkLog == old(sdkLog) + Completed([SdkCall.Open(name)], fault)
      ensures posts == old(posts) + [if Throws(fault, 1) then Error else OnSuccess(Lifecycle.Open)]
      ensures errorMessage == if Throws(fault, 1) then fault.value.message else old(errorMessage)
    {
      logicalName := Some(name);
      device := Some(KindOf(name));
      SingleCall(SdkCall.Open(name), Lifecycle.Open, fault);
    }

    /**
     * `answer` is how the SDK completes the claim request: None for `onSuccess`,
     * Some(d) for `onFailure(d)`. It is not consulted when the call itself throws.
     */
    method Claim(fault: Option<Fault>, answer: Option<string>) returns (thrown: Option<Unchecked>)
      requires Valid()
      modifies this`sdkLog, this`errorMessage, this`posts
      ensures Valid()
      ensures device.None? ==>
        && thrown == Some(NullPointer) && sdkLog == old(sdkLog)
        && errorMessage == old(errorMessage) && posts == old(posts)
      ensures device.Some? ==> thrown.None? && sdkLog == old(sdkLog) + Completed([SdkCall.Claim], fault)
      ensures device.Some? && Throws(fault, 1) ==>
        posts == old(posts) + [Error] && errorMessage == fault.value.message
      ensures device.Some? && !Throws(fault, 1) && answer.None? ==>
        posts == old(posts) + [OnSuccess(Lifecycle.Claim)] && errorMessage == "N/A"
      ensures device.Some? && !Throws(fault, 1) && answer.Some? ==>
        posts == old(posts) + [Error] && errorMessage == answer.value
    {
      if device.None? {
        return Some(NullPointer);
      }
      thrown := None;
      var ok := Call(SdkCall.Claim, fault, 0);
      if !ok {
        Catch(fault.value.message);
      } else if answer.None? {
        errorMessage := "N/A";
        posts := posts + [OnSuccess(Lifecycle.Claim)];
      } else {
        errorMessage := answer.value;
        posts := posts + [Error];
      }
    }

    /** A failure after ENABLED has been posted leaves ERROR as the last post. */
    method Enable(fault: Option<Fault>, powerState: int) returns (thrown: Option<Unchecked>)
      requires Valid()
      modifies this`sdkLog, this`errorMessage, this`posts, this`connectionStatus
      ensures Valid()
      ensures device.None? ==>
        && thrown == Some(NullPointer) && sdkLog == old(sdkLog)
        && errorMessage == old(errorMessage) && posts == old(posts)
        && connectionStatus == old(connectionStatus)
      ensures device.Some? ==>
        && thrown.None?
        && sdkLog == old(sdkLog) + Completed(EnableCalls(device.value), fault)
      ensures device.Some? && !Throws(fault, |EnableCalls(device.value)|) ==>
        && posts == old(posts) + [OnSuccess(Lifecycle.Enable)]
        && errorMessage == old(errorMessage)
      ensures device.Some? && Throws(fault, EnabledPostedAfter(device.value)) ==>
        && posts == old(posts) + [Error]
        && errorMessage == fault.value.message
      ensures device.Some? && !Throws(fault, EnabledPostedAfter(device.value)) && Throws(fault, |EnableCalls(device.value)|) ==>
        && posts == old(posts) + [Enabled, Error]
        && errorMessage == fault.value.message
      ensures device.Some? ==>
        connectionStatus == if device.value == Scanner && !Throws(fault, 3) then Some(powerState) else old(connectionStatus)
    {
      if device.None? {
        return Some(NullPointer);
      }
      thrown := None;
      var kind := device.value;
      ghost var calls, base := EnableCalls(kind), sdkLog;
      var ok := EnableListeners(kind, fault, powerState, calls, base);
      if !ok { return; }
      posts := posts + [Enabled];
      EnableEvents(fault, EnabledPostedAfter(kind), calls, base);
    }

    /** The calls of `enable` made before ENABLED is posted: listeners, the power state, auto-disable. */
    method EnableListeners(kind: DeviceKind, fault: Option<Fault>, powerState: int, ghost calls: seq<SdkCall>, ghost base: seq<SdkCall>)
      returns (ok: bool)
      requires Valid() && calls == EnableCalls(kind) && sdkLog == base
      modifies this`sdkLog, this`errorMessage, this`posts, this`connectionStatus
      ensures Valid()
      ensures ok <==> !Throws(fault, EnabledPostedAfter(kind))
      ensures ok ==>
        && sdkLog == base + calls[..EnabledPostedAfter(kind)]
        && posts == old(posts) && errorMessage == old(errorMessage)
      ensures !ok ==>
        && sdkLog == base + Completed(calls, fault)
        && posts == old(posts) + [Error] && errorMessage == fault.value.message
      ensures connectionStatus == if kind == Scanner && !Throws(fault, 3) then Some(powerState) else old(connectionStatus)
    {
      ok := Step(AddEventListener(Data), fault, 0, calls, base);
      if !ok { return; }
      ok := Step(AddEventListener(StatusUpdate), fault, 1, calls, base);
      if !ok { return; }
      var k := 2;
      if kind == Scanner {
        ok := Step(GetPowerState, fault, 2, calls, base);
        if !ok { return; }
        connectionStatus := Some(powerState);
        k := 3;
      }
      ok := Step(SetAutoDisable(false), fault, k, calls, base);
    }

    /** The last three calls of `enable`, made after ENABLED has been posted. */
    method EnableEvents(fault: Option<Fault>, k: nat, ghost calls: seq<SdkCall>, ghost base: seq<SdkCall>)
      requires Valid() && |calls| == k + 3
      requires calls[k..] == [SetDataEventEnabled(true), SetPowerNotifyEnabled, SetDeviceEnabled(true)]
      requires sdkLog == base + calls[..k] && !Throws(fault, k)
      modifies this`sdkLog, this`errorMessage, this`posts
      ensures Valid()
      ensures sdkLog == base + Completed(calls, fault)
      ensures posts == old(posts) + (if Throws(fault, k + 3) then [Error] else [])
      ensures errorMessage == if Throws(fault, k + 3) then fault.value.message else old(errorMessage)
    {
      assert calls[k] == SetDataEventEnabled(true) && calls[k + 1] == SetPowerNotifyEnabled;
      assert calls[k + 2] == SetDeviceEnabled(true);
      var ok := Step(SetDataEventEnabled(true), fault, k, calls, base);
      if !ok { return; }
      ok := Step(SetPowerNotifyEnabled, fault, k + 1, calls, base);
      if !ok { return; }
      ok := Step(SetDeviceEnabled(true), fault, k + 2, calls, base);
      if !ok { return; }
      assert calls[..k + 3] == calls;
    }

    method Disable(fault: Option<Fault>) returns (thrown: Option<Unchecked>)
      requires Valid()
      modifies this`sdkLog, this`errorMessage, this`posts
      ensures Valid()
      ensures device.None? ==>
        && thrown == Some(NullPointer) && sdkLog == old(sdkLog)
        && errorMessage == old(errorMessage) && posts == old(posts)
      ensures device.Some? ==>
        && thrown.None?
        && sdkLog == old(sdkLog) + Completed(DisableCalls(device.value), fault)
        && posts == old(posts) + [if Throws(fault, |DisableCalls(device.value)|) then Error else OnSuccess(Lifecycle.Disable)]
        && errorMessage == if Throws(fault, |DisableCalls(device.value)|) then fault.value.message else old(errorMessage)
    {
      if device.None? {
        return Some(NullPointer);
      }
      thrown := None;
      var ok := DisableDevice(device.value, fault);
      if ok {
        posts := posts + [OnSuccess(Lifecycle.Disable)];
      }
    }

    /** The SDK calls of `disable` for the given handle, with the shared catch block. */
    method DisableDevice(kind: DeviceKind, fault: Option<Fault>) returns (ok: bool)
      requires Valid()
      modifies this`sdkLog, this`errorMessage, this`posts
      ensures Valid()
      ensures ok <==> !Throws(fault, |DisableCalls(kind)|)
      ensures sdkLog == old(sdkLog) + Completed(DisableCalls(kind), fault)
      ensures posts == old(posts) + (if ok then [] else [Error])
      ensures errorMessage == if ok then old(errorMessage) else fault.value.message
    {
      ghost var calls, base := DisableCalls(kind), sdkLog;
      if kind == Scanner {
        ok := Step(SetDataEventEnabled(false), fault, 0, calls, base);
        if !ok { return; }
        ok := Step(SetAutoDisable(true), fault, 1, calls, base);
        if !ok { return; }
        ok := Step(RemoveEventListener(Data), fault, 2, calls, base);
        if !ok { return; }
        ok := Step(SetDeviceEnabled(false), fault, 3, calls, base);
        if !ok { return; }
        ok := Step(RemoveEventListener(StatusUpdate), fault, 4, calls, base);
      } else {
        ok := Step(SetAutoDisable(true), fault, 0, calls, base);
        if !ok { return; }
        ok := Step(SetDeviceEnabled(false), fault, 1, calls, base);
      }
      assert calls[..|calls|] == calls;
    }

    method Release(fault: Option<Fault>) returns (thrown: Option<Unchecked>)
      requires Valid()
      modifies this`sdkLog, this`errorMessage, this`posts
      ensures Valid()
      ensures device.None? ==>
        && thrown == Some(NullPointer) && sdkLog == old(sdkLog)
        && errorMessage == old(errorMessage) && posts == old(posts)
      ensures device.Some? ==>
        && thrown.None?
        && sdkLog == old(sdkLog) + Completed([SdkCall.Release], fault)
        && posts == old(posts) + [if Throws(fault, 1) then Error else OnSuccess(Lifecycle.Release)]
        && errorMessage == if Throws(fault, 1) then fault.value.message else old(errorMessage)
    {
      if device.None? {
        return Some(NullPointer);
      }
      thrown := None;
      SingleCall(SdkCall.Release, Lifecycle.Release, fault);
    }

    method Close(fault: Option<Fault>) returns (thrown: Option<Unchecked>)
      requires Valid()
      modifies this`sdkLog, this`errorMessage, this`posts
      ensures Valid()
      ensures device.None? ==>
        && thrown == Some(NullPointer) && sdkLog == old(sdkLog)
        && errorMessage == old(errorMessage) && posts == old(posts)
      ensures device.Some? ==>
        && thrown.None?
        && sdkLog == old(sdkLog) + Completed([SdkCall.Close], fault)
        && posts == old(posts) + [if Throws(fault, 1) then Error else OnSuccess(Lifecycle.Close)]
        && errorMessage == if Throws(fault, 1) then fault.value.message else old(errorMessage)
    {
      if device.None? {
        return Some(NullPointer);
      }
      thrown := None;
      SingleCall(SdkCall.Close, Lifecycle.Close, fault);
    }

    /**
     * `onEvent`. For a data event on a scanner, `scanLabel` is the UTF-8 decoding of
     * `getScanDataLabel()` and `symbology` what `getScanDataType()` returns.
     */
    method OnEvent(event: Event, fault: Option<Fault>, scanLabel: string, symbology: int)
      requires Valid()
      modifies this`sdkLog, this`errorMessage, this`posts, this`barcodeContent,
        this`barcodeSymbology, this`weight, this`connectionStatus
      ensures Valid()
      ensures event.DataEvent? && device == Some(Scanner) ==>
        && sdkLog == old(sdkLog) + Completed(ScanDataCalls, fault)
        && barcodeContent == (if Throws(fault, 1) then old(barcodeContent) else Some(scanLabel))
        && barcodeSymbology == (if Throws(fault, 2) then old(barcodeSymbology) else Some(IntToString(symbology)))
        && weight == old(weight) && connectionStatus == old(connectionStatus)
        && posts == old(posts) + [if Throws(fault, 3) then Error else Enabled]
        && errorMessage == (if Throws(fault, 3) then fault.value.message else old(errorMessage))
      ensures !(event.DataEvent? && device == Some(Scanner)) ==>
        && sdkLog == old(sdkLog) && errorMessage == old(errorMessage)
        && barcodeContent == old(barcodeContent) && barcodeSymbology == old(barcodeSymbology)
        && weight == (if event.DataEvent? then Some(FormatWeight(event.status)) else old(weight))
        && connectionStatus == (if event.StatusUpdateEvent? then Some(event.status) else old(connectionStatus))
        && posts == old(posts) + (if event.ErrorEvent? then [] else [Enabled])
    {
      if event.DataEvent? {
        if device == Some(Scanner) {
          var ok := Call(GetScanDataLabel, fault, 0);
          if !ok { Catch(fault.value.message); return; }
          barcodeContent := Some(scanLabel);
          ok := Call(GetScanDataType, fault, 1);
          if !ok { Catch(fault.value.message); return; }
          barcodeSymbology := Some(IntToString(symbology));
          ok := Call(SetDataEventEnabled(true), fault, 2);
          if !ok { Catch(fault.value.message); return; }
          assert sdkLog == old(sdkLog) + ScanDataCalls;
        } else {
          weight := Some(FormatWeight(event.status));
        }
      }
      if event.StatusUpdateEvent? {
        connectionStatus := Some(event.status);
      }
      if !event.ErrorEvent? {
        posts := posts + [Enabled];
      }
    }

    /** `stats` is what the SDK writes into the two slots: the XML text and the Avalanche text. */
    method RetrieveStatistics(fault: Option<Fault>, stats: (string, string)) returns (thrown: Option<Unchecked>)
      requires Valid()
      modifies this`sdkLog, this`errorMessage, this`posts, this`statistics
      ensures Valid()
      ensures device.None? ==>
        && thrown == Some(NullPointer) && sdkLog == old(sdkLog)
        && errorMessage == old(errorMessage) && posts == old(posts) && statistics == old(statistics)
      ensures device.Some? ==> thrown.None? && sdkLog == old(sdkLog) + Completed([SdkCall.RetrieveStatistics], fault)
      ensures device.Some? && !Throws(fault, 1) ==>
        statistics == Some(if statisticsFormat == Xml then stats.0 else stats.1)
        && posts == old(posts) && errorMessage == old(errorMessage)
      ensures device.Some? && Throws(fault, 1) ==>
        statistics == old(statistics) && posts == old(posts) + [Error] && errorMessage == fault.value.message
    {
      if device.None? {
        return Some(NullPointer);
      }
      thrown := None;
      var slots := new string[2];
      slots[0] := "";
      var ok := Call(SdkCall.RetrieveStatistics, fault, 0);
      if !ok { Catch(fault.value.message); return; }
      // the SDK fills both slots it is given
      slots[0], slots[1] := stats.0, stats.1;
      if statisticsFormat == Xml {
        statistics := Some(slots[0]);
      } else {
        statistics := Some(slots[1]);
      }
    }

    /**
     * `readWeight`, a no-op unless the device is a scale. `asyncMode` is what
     * `getAsyncMode()` answers and `raw` the value the SDK writes into result[0].
     */
    method ReadWeight(fault: Option<Fault>, asyncMode: bool, raw: int)
      requires Valid()
      modifies this`sdkLog, this`errorMessage, this`posts, this`weight
      ensures Valid()
      ensures !IsDeviceAScale() ==>
        && sdkLog == old(sdkLog) && errorMessage == old(errorMessage)
        && posts == old(posts) && weight == old(weight)
      ensures IsDeviceAScale() ==> sdkLog == old(sdkLog) + Completed(ReadWeightCalls(asyncMode), fault)
      ensures IsDeviceAScale() && !Throws(fault, |ReadWeightCalls(asyncMode)|) ==>
        weight == Some(FormatWeight(raw)) && posts == old(posts) + [Enabled] && errorMessage == old(errorMessage)
      ensures IsDeviceAScale() && Throws(fault, |ReadWeightCalls(asyncMode)|) ==>
        weight == old(weight) && posts == old(posts) + [Error] && errorMessage == fault.value.message
    {
      if device == Some(Scale) {
        ghost var calls := ReadWeightCalls(asyncMode);
        var ok := Call(GetAsyncMode, fault, 0);
        if !ok { Catch(fault.value.message); return; }
        var k := 1;
        if asyncMode {
          ok := Call(SetDataEventEnabled(true), fault, 1);
          if !ok { Catch(fault.value.message); return; }
          k := 2;
        }
        assert sdkLog == old(sdkLog) + calls[..k];
        ok := Call(SdkCall.ReadWeight(1000), fault, k);
        if !ok { Catch(fault.value.message); return; }
        assert sdkLog == old(sdkLog) + calls;
        weight := Some(FormatWeight(raw));
        posts := posts + [Enabled];
      }
    }

    method SetScaleAsync(asyncMode: bool, fault: Option<Fault>) returns (thrown: Option<Unchecked>)
      requires Valid()
      modifies this`sdkLog, this`errorMessage, this`posts
      ensures Valid()
      ensures !IsDeviceAScale() ==>
        && thrown == Some(UnsupportedOperation(ScalesOnly))
        && sdkLog == old(sdkLog) && errorMessage == old(errorMessage) && posts == old(posts)
      ensures IsDeviceAScale() ==>
        && thrown.None?
        && sdkLog == old(sdkLog) + Completed([SetAsyncMode(asyncMode)], fault)
        && posts == old(posts) + (if Throws(fault, 1) then [Error] else [])
        && errorMessage == if Throws(fault, 1) then fault.value.message else old(errorMessage)
    {
      if device == Some(Scale) {
        thrown := None;
        var ok := Call(SetAsyncMode(asyncMode), fault, 0);
        if !ok { Catch(fault.value.message); }
      } else {
        thrown := Some(UnsupportedOperation(ScalesOnly));
      }
    }

    /** `unit` is what the SDK's `getWeightUnit()` returns. */
    method GetWeightUnit(fault: Option<Fault>, unit: int) returns (r: Result<string, Unchecked>)
      requires Valid()
      modifies this`sdkLog, this`errorMessage, this`posts
      ensures Valid()
      ensures !IsDeviceAScale() ==>
        && r == Err(UnsupportedOperation(ScalesOnlyUnit))
        && sdkLog == old(sdkLog) && errorMessage == old(errorMessage) && posts == old(posts)
      ensures IsDeviceAScale() ==> sdkLog == old(sdkLog) + Completed([SdkCall.GetWeightUnit], fault)
      ensures IsDeviceAScale() && !Throws(fault, 1) ==>
        && r == Ok(UnitName(codes, unit))
        && errorMessage == old(errorMessage) && posts == old(posts)
      ensures IsDeviceAScale() && Throws(fault, 1) ==>
        && r == Err(UnsupportedOperation(ScalesOnlyUnit))
        && errorMessage == fault.value.message && posts == old(posts) + [Error]
    {
      if device == Some(Scale) {
        var ok := Call(SdkCall.GetWeightUnit, fault, 0);
        if ok {
          return Ok(UnitName(codes, unit));
        }
        Catch(fault.value.message);
      }
      r := Err(UnsupportedOperation(ScalesOnlyUnit));
    }

    /**
     * `compareFirmware`. `written` is the content of the five-slot result array
     * once the SDK's `compareFirmwareVersion` has returned or thrown.
     */
    method CompareFirmware(path: Option<string>, fault: Option<Fault>, written: seq<int>) returns (thrown: Option<Unchecked>)
      requires Valid() && |written| == 5
      modifies this`sdkLog, this`errorMessage, this`firmwareInfo, this`filePath
      ensures Valid()
      ensures device.None? ==>
        && thrown == Some(NullPointer) && sdkLog == old(sdkLog)
        && errorMessage == old(errorMessage) && firmwareInfo == old(firmwareInfo) && filePath == old(filePath)
      ensures device.Some? ==>
        && thrown.None?
        && sdkLog == old(sdkLog) + Completed([CompareFirmwareVersion(path)], fault)
      ensures device.Some? && !Throws(fault, 1) ==>
        firmwareInfo == Some(written) && filePath == path && errorMessage == old(errorMessage)
      ensures device.Some? && Throws(fault, 1) ==>
        firmwareInfo == Some(written[0 := -1]) && filePath == old(filePath) && errorMessage == fault.value.message
    {
      var result := new int[5];
      if device.None? {
        return Some(NullPointer);
      }
      thrown := None;
      // the SDK fills the array it is given
      forall i | 0 <= i < 5 {
        result[i] := written[i];
      }
      assert result[..] == written;
      var ok := Call(CompareFirmwareVersion(path), fault, 0);
      if ok {
        firmwareInfo := Some(result[..]);
        filePath := path;
      } else {
        errorMessage := fault.value.message;
        result[0] := -1;
        assert result[..] == written[0 := -1];
        firmwareInfo := Some(result[..]);
      }
    }

    /** `updateFirmware`: a failure records the message but posts no status. */
    method UpdateFirmware(fault: Option<Fault>) returns (thrown: Option<Unchecked>)
      requires Valid()
      modifies this`sdkLog, this`errorMessage
      ensures Valid()
      ensures device.None? ==> thrown == Some(NullPointer) && sdkLog == old(sdkLog) && errorMessage == old(errorMessage)
      ensures device.Some? ==>
        && thrown.None?
        && sdkLog == old(sdkLog) + Completed([SdkCall.UpdateFirmware(filePath)], fault)
        && errorMessage == if Throws(fault, 1) then fault.value.message else old(errorMessage)
    {
      if device.None? {
        return Some(NullPointer);
      }
      thrown := None;
      var ok := Call(SdkCall.UpdateFirmware(filePath), fault, 0);
      if !ok {
        errorMessage := fault.value.message;
      }
    }

    method SetStatisticsFormat(format: StatisticsFormat)
      modifies this`statisticsFormat
      ensures statisticsFormat == format
    {
      statisticsFormat := format;
    }
  }
}
