/** Whole sessions driven through the view-model, as the activity's buttons would drive them. */
module Scenarios {
  import opened Wrappers
  import opened Vendor
  import opened Text
  import opened ViewModel

  /**
   * Open, claim, enable, disable, release and close with no SDK failure: the status
   * walks up the lifecycle chain and back down to CLOSED, and the SDK sees exactly
   * the calls of each operation in order.
   */
  method FaultFreeSession(codes: Codes, name: string, powerState: int)
    returns (posted: seq<Status>, log: seq<SdkCall>, failure: Option<Unchecked>)
    requires codes.WellFormed()
    ensures posted == [Closed, Opened, Claimed, Enabled, Claimed, Opened, Closed]
    ensures log == [SdkCall.Open(name), SdkCall.Claim] + EnableCalls(KindOf(name))
                   + DisableCalls(KindOf(name)) + [SdkCall.Release, SdkCall.Close]
    ensures failure.None?
  {
    var vm := new ExampleViewModel(codes);
    var up := Ascend(vm, name, powerState);
    var down := Descend(vm);
    failure := if up.Some? then up else down;
    posted, log := vm.posts, vm.sdkLog;
  }

  /** Open, claim and enable a fresh view-model without failures. */
  method Ascend(vm: ExampleViewModel, name: string, powerState: int) returns (failure: Option<Unchecked>)
    requires vm.Valid() && vm.posts == [Closed] && vm.sdkLog == []
    modifies vm
    ensures vm.Valid() && vm.device == Some(KindOf(name))
    ensures vm.posts == [Closed, Opened, Claimed, Enabled]
    ensures vm.sdkLog == [SdkCall.Open(name), SdkCall.Claim] + EnableCalls(KindOf(name))
    ensures failure.None?
  {
    vm.Open(name, None);
    assert vm.posts == [Closed, Opened] && vm.sdkLog == [SdkCall.Open(name)];
    var t1 := vm.Claim(None, None);
    assert vm.posts == [Closed, Opened, Claimed] && vm.sdkLog == [SdkCall.Open(name), SdkCall.Claim];
    failure := vm.Enable(None, powerState);
    failure := if t1.Some? then t1 else failure;
  }

  /** Disable, release and close an enabled view-model without failures. */
  method Descend(vm: ExampleViewModel) returns (failure: Option<Unchecked>)
    requires vm.Valid() && vm.device.Some?
    modifies vm
    ensures vm.device == old(vm.device) && failure.None?
    ensures vm.posts == old(vm.posts) + [Claimed, Opened, Closed]
    ensures vm.sdkLog == old(vm.sdkLog) + DisableCalls(vm.device.value) + [SdkCall.Release, SdkCall.Close]
  {
    var t1 := vm.Disable(None);
    ghost var log1 := vm.sdkLog;
    var t2 := vm.Release(None);
    var t3 := vm.Close(None);
    assert vm.sdkLog == log1 + [SdkCall.Release, SdkCall.Close];
    failure := if t1.Some? then t1 else if t2.Some? then t2 else t3;
  }

  /** Every lifecycle operation before `open` dereferences the null device and changes nothing. */
  method BeforeOpen(codes: Codes, fault: Option<Fault>, answer: Option<string>, powerState: int)
    returns (thrown: seq<Option<Unchecked>>, status: Status, log: seq<SdkCall>)
    requires codes.WellFormed()
    ensures thrown == [Some(NullPointer), Some(NullPointer), Some(NullPointer), Some(NullPointer), Some(NullPointer)]
    ensures status == Closed && log == []
  {
    var vm := new ExampleViewModel(codes);
    var t1 := vm.Claim(fault, answer);
    var t2 := vm.Enable(fault, powerState);
    var t3 := vm.Disable(fault);
    var t4 := vm.Release(fault);
    var t5 := vm.Close(fault);
    thrown := [t1, t2, t3, t4, t5];
    status, log := vm.CurrentStatus(), vm.sdkLog;
  }

  /** A failing `open` posts ERROR and shows the exception's message. */
  method FailedOpen(codes: Codes, name: string, message: string)
    returns (posted: seq<Status>, shown: string, log: seq<SdkCall>)
    requires codes.WellFormed()
    ensures posted == [Closed, Error] && shown == message && log == []
  {
    var vm := new ExampleViewModel(codes);
    vm.Open(name, Some(Fault(0, message)));
    posted, shown, log := vm.posts, vm.errorMessage, vm.sdkLog;
  }

  /**
   * After `open`, whether or not the SDK's `open` throws, `isDeviceAScale` answers the
   * name test: the name mentions "Scale" and does not mention "Scanner".
   */
  method OpenSelectsHandle(codes: Codes, name: string, fault: Option<Fault>) returns (isScale: bool)
    requires codes.WellFormed()
    ensures isScale <==> (exists i :: OccursAt(name, "Scale", i)) && forall j :: !OccursAt(name, "Scanner", j)
  {
    var vm := new ExampleViewModel(codes);
    vm.Open(name, fault);
    isScale := vm.IsDeviceAScale();
  }

  /** A scanner delivering label "012345" with symbology 6 shows both and stays ENABLED. */
  method ScanBarcode(codes: Codes, powerState: int)
    returns (content: Option<string>, symbology: Option<string>, status: Status)
    requires codes.WellFormed()
    ensures content == Some("012345") && symbology == Some("6") && status == Enabled
  {
    ScannerNameIsScanner();
    var vm := new ExampleViewModel(codes);
    vm.Open("Scanner-X", None);
    var t1 := vm.Claim(None, None);
    var t2 := vm.Enable(None, powerState);
    vm.OnEvent(DataEvent(0), None, "012345", 6);
    content, symbology, status := vm.barcodeContent, vm.barcodeSymbology, vm.CurrentStatus();
  }

  /** A scale reporting 1500 in thousandths shows 1.5, and a weight unit is available. */
  method WeighOnScale(codes: Codes, asyncMode: bool, unit: int)
    returns (weight: Option<real>, unitName: Result<string, Unchecked>, status: Status)
    requires codes.WellFormed()
    ensures weight == Some(1.5) && status == Enabled
    ensures unitName.Ok? && (unitName.value == "" <==> unit !in {codes.wuGram, codes.wuKilogram, codes.wuOunce, codes.wuPound})
  {
    ScaleNameIsScale();
    var vm := new ExampleViewModel(codes);
    vm.Open("Scale-Y", None);
    var t1 := vm.Claim(None, None);
    var t2 := vm.Enable(None, 0);
    vm.ReadWeight(None, asyncMode, 1500);
    unitName := vm.GetWeightUnit(None, unit);
    weight, status := vm.weight, vm.CurrentStatus();
  }

  /** Async mode and weight units are refused on a scanner. */
  method ScaleOnlyOnScanner(codes: Codes, fault: Option<Fault>, unit: int)
    returns (async: Option<Unchecked>, unitName: Result<string, Unchecked>, log: seq<SdkCall>)
    requires codes.WellFormed()
    ensures async == Some(UnsupportedOperation(ScalesOnly))
    ensures unitName == Err(UnsupportedOperation(ScalesOnlyUnit))
    ensures log == [SdkCall.Open("Scanner-X")]
  {
    ScannerNameIsScanner();
    var vm := new ExampleViewModel(codes);
    vm.Open("Scanner-X", None);
    async := vm.SetScaleAsync(true, fault);
    unitName := vm.GetWeightUnit(fault, unit);
    log := vm.sdkLog;
  }

  /**
   * ERROR is not terminal: the view-model does not consult the status, so a claim the
   * device refuses can be retried, and the retry claims the device.
   */
  method RetryAfterRefusedClaim(codes: Codes, name: string, reason: string)
    returns (posted: seq<Status>, shown: string)
    requires codes.WellFormed()
    ensures posted == [Closed, Opened, Error, Claimed] && shown == "N/A"
  {
    var vm := new ExampleViewModel(codes);
    vm.Open(name, None);
    var t1 := vm.Claim(None, Some(reason));
    assert vm.posts == [Closed, Opened, Error];
    var t2 := vm.Claim(None, None);
    posted, shown := vm.posts, vm.errorMessage;
  }
}
