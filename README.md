# androidPOS sample app — a Dafny model

The sample application drives a point-of-sale peripheral (a barcode scanner or an
electronic scale) through the vendor's device SDK. Three parts of it are modelled:

- `ExampleViewModel`, the view-model. It owns the single device handle and runs the
  lifecycle CLOSED → OPENED → CLAIMED → ENABLED (with ERROR on any failure). It
  forwards device events to observable cells and wraps the scale-only, statistics and
  firmware operations.
- `MainActivity`, the screen. It derives which controls are enabled from the
  status, and interprets firmware comparison results and status-update codes. It also
  names the exported statistics file.
- `UriHelper.getPath`, which turns a picked document into a file-system path.

## Modules

| file | module | contents |
|---|---|---|
| `wrappers.dfy` | `Wrappers` | `Option`, `Result` |
| `vendor.dfy` | `Vendor` | the SDK's integer constants (`Codes`), the distinctness Java's `switch` demands, `SdkCodes` |
| `text.dfy` | `Text` | the Java string operations the code uses: `indexOf`/`contains`, `startsWith`, `replaceFirst`, `"" + int` with its parser |
| `view_model.dfy` | `ViewModel` | the status enum, the SDK call vocabulary, the class `ExampleViewModel` |
| `main_activity.dfy` | `Activity` | the enablement panel, the comparison switch, the status-code classifier, `createFile`, the class `MainActivity` |
| `uri_helper.dfy` | `UriHelper` | `getPath` |
| `scenarios.dfy` | `Scenarios` | whole sessions driven through the view-model |

### How the SDK is modelled

The SDK is an oracle. Each operation issues a fixed, known sequence of SDK calls (`SdkCall`).
The parameter `fault: Option<Fault>` says which call, if any, throws an `APosException`
(`Fault(at, message)` means call number `at` throws with `message`). The view-model's
`sdkLog` records every call that returned normally. `Completed(calls, fault)` is the
prefix of `calls` before the throwing one. Values the SDK hands back are parameters of
the operation:

- the power state;
- the claim answer (`None` for `onSuccess`, `Some(d)` for `onFailure(d)`);
- the scan label and symbology;
- the `getAsyncMode` answer (`asyncMode`), the raw weight and the weight unit;
- the two statistics slots;
- the five firmware-result slots.

A call on the null `_device` throws a `NullPointerException`, which nothing catches.
The model returns it as `Some(NullPointer)` and changes no state.
`UnsupportedOperationException` becomes `UnsupportedOperation(message)`.

`posts` is the history of values posted to `_status`, so the current status is its
last entry. The other `MutableLiveData` cells are fields holding the last value
posted, or `None` before the first post.

The vendor constants (`CVF_*`, `DLS_CFV_*`, `SUE_*`, `PS_UNKNOWN`, `SCAL_WU_*`) are not
fixed. Every statement holds for all values satisfying `Codes.WellFormed`: the labels of
each `switch` are pairwise distinct, and the firmware switch also has the label -1.

## Model

| member | source | states |
|---|---|---|
| Text.IndexOf | app/src/main/java/com/datalogic/apossampleapp/ExampleViewModel.java:89 | a result is a position where the pattern occurs with no earlier occurrence; `None` means it occurs nowhere |
| Text.ContainsIff | app/src/main/java/com/datalogic/apossampleapp/ExampleViewModel.java:89 | `contains` holds exactly when the pattern occurs at some position |
| Text.MissingCharNotContained | app/src/main/java/com/datalogic/apossampleapp/ExampleViewModel.java:89 | a string lacking one of the pattern's characters does not contain the pattern |
| Text.ReplaceFirst | app/src/main/java/com/datalogic/apossampleapp/helpers/UriHelper.java:43 | without an occurrence the string is unchanged; otherwise the first occurrence, and nothing else, is replaced |
| Text.StripPrefix | app/src/main/java/com/datalogic/apossampleapp/helpers/UriHelper.java:57 | a leading occurrence of the prefix is removed, and prefix plus result gives back the string; any other string is unchanged |
| Text.ReplaceFirstOfPrefix | app/src/main/java/com/datalogic/apossampleapp/helpers/UriHelper.java:42-43 | on a string that starts with the pattern, `replaceFirst` replaces exactly that leading occurrence; with an empty replacement it equals stripping a `^`-anchored prefix |
| Text.NatToString | app/src/main/java/com/datalogic/apossampleapp/ExampleViewModel.java:65 | the numeral is non-empty, all digits, and starts with 0 only for zero |
| Text.NatRoundTrip | app/src/main/java/com/datalogic/apossampleapp/ExampleViewModel.java:65 | reading a natural number's numeral back gives the number |
| Text.IntToString | app/src/main/java/com/datalogic/apossampleapp/ExampleViewModel.java:65 | the rendering is non-empty and starts with a minus sign exactly for negative numbers |
| Text.IntRoundTrip | app/src/main/java/com/datalogic/apossampleapp/MainActivity.java:259-260 | `"" + n` is a well-formed decimal and reading it back gives `n`, negative numbers included |
| Text.IntToStringInjective | app/src/main/java/com/datalogic/apossampleapp/MainActivity.java:281-285 | distinct numbers are shown as distinct strings, so a vendor or product code is identifiable from its message |
| ViewModel.FormatWeight | app/src/main/java/com/datalogic/apossampleapp/ExampleViewModel.java:163-165 | the weight times 1000 is the raw value; it has the raw value's sign and is zero exactly for zero |
| ViewModel.UnitName | app/src/main/java/com/datalogic/apossampleapp/ExampleViewModel.java:184-199 | gram, kilogram, ounce and pound give "grams", "kilograms", "ounces" and "pounds"; the result is "" exactly for every other code |
| ViewModel.KindOf | app/src/main/java/com/datalogic/apossampleapp/ExampleViewModel.java:89-92 | the scale handle is chosen exactly when "Scale" occurs somewhere in the name and "Scanner" occurs nowhere |
| ViewModel.ScaleNameIsScale | app/src/main/java/com/datalogic/apossampleapp/ExampleViewModel.java:89-90 | example: the name "Scale-Y" selects the scale handle |
| ViewModel.ScannerNameIsScanner | app/src/main/java/com/datalogic/apossampleapp/ExampleViewModel.java:91-92 | example: the name "Scanner-X" selects the scanner handle |
| ViewModel.BothNamesIsScanner | app/src/main/java/com/datalogic/apossampleapp/ExampleViewModel.java:89-92 | example: the name "DL-Magellan-Scale-Scanner", which contains both, selects the scanner handle |
| ViewModel.ExampleViewModel.constructor | app/src/main/java/com/datalogic/apossampleapp/ExampleViewModel.java:340-345 | the first status is CLOSED, the format XML, the error message empty; no device, no log, every other cell unset |
| ViewModel.ExampleViewModel.IsDeviceAScale | app/src/main/java/com/datalogic/apossampleapp/ExampleViewModel.java:394-396 | true only for a scale handle; false when there is no handle or it is a scanner |
| ViewModel.ExampleViewModel.Open | app/src/main/java/com/datalogic/apossampleapp/ExampleViewModel.java:85-101 | records the name; the handle kind follows the name test even when `open` throws; posts OPENED, or ERROR with the message |
| ViewModel.ExampleViewModel.Claim | app/src/main/java/com/datalogic/apossampleapp/ExampleViewModel.java:103-126 | success posts CLAIMED and sets the message to "N/A"; a refusal posts ERROR with its description; a throw posts ERROR with the exception's message; a null device changes nothing |
| ViewModel.ExampleViewModel.Enable | app/src/main/java/com/datalogic/apossampleapp/ExampleViewModel.java:237-259 | the SDK sees the kind's call sequence up to the failure; ENABLED is posted after auto-disable, so a later failure leaves ENABLED then ERROR; the scanner publishes its power state once it is read |
| ViewModel.ExampleViewModel.EnableListeners | app/src/main/java/com/datalogic/apossampleapp/ExampleViewModel.java:240-248 | the calls before ENABLED is posted succeed exactly when none of them throws; a failure posts ERROR |
| ViewModel.ExampleViewModel.EnableEvents | app/src/main/java/com/datalogic/apossampleapp/ExampleViewModel.java:250-256 | the three calls after ENABLED; a throw among them posts ERROR with its message |
| ViewModel.ExampleViewModel.Disable | app/src/main/java/com/datalogic/apossampleapp/ExampleViewModel.java:261-281 | the kind's call sequence (a scale keeps its listeners), then CLAIMED; a failure posts ERROR; a null device changes nothing |
| ViewModel.ExampleViewModel.DisableDevice | app/src/main/java/com/datalogic/apossampleapp/ExampleViewModel.java:264-273 | succeeds exactly when none of the kind's calls throws; the log holds the calls that returned |
| ViewModel.ExampleViewModel.Release | app/src/main/java/com/datalogic/apossampleapp/ExampleViewModel.java:283-294 | posts OPENED, or ERROR with the message; a null device changes nothing |
| ViewModel.ExampleViewModel.Close | app/src/main/java/com/datalogic/apossampleapp/ExampleViewModel.java:296-307 | posts CLOSED, or ERROR with the message; a null device changes nothing |
| ViewModel.ExampleViewModel.OnEvent | app/src/main/java/com/datalogic/apossampleapp/ExampleViewModel.java:59-82 | a scanner data event publishes the label and the symbology in decimal, then re-arms; any other device's data event publishes the weight; a status update republishes its code; every non-error event posts ENABLED; a throw posts ERROR and stops |
| ViewModel.ExampleViewModel.RetrieveStatistics | app/src/main/java/com/datalogic/apossampleapp/ExampleViewModel.java:128-144 | publishes slot 0 for XML and slot 1 otherwise, without posting a status; a failure posts ERROR and publishes nothing |
| ViewModel.ExampleViewModel.ReadWeight | app/src/main/java/com/datalogic/apossampleapp/ExampleViewModel.java:146-161 | a no-op unless the device is a scale; re-arms data events only in async mode; publishes raw/1000 and posts ENABLED; a failure posts ERROR |
| ViewModel.ExampleViewModel.SetScaleAsync | app/src/main/java/com/datalogic/apossampleapp/ExampleViewModel.java:167-178 | on a scale sets async mode and posts ERROR only on failure; otherwise throws "Only Scales have this functionality." and changes nothing |
| ViewModel.ExampleViewModel.GetWeightUnit | app/src/main/java/com/datalogic/apossampleapp/ExampleViewModel.java:180-207 | on a scale returns the unit's name; after an SDK failure posts ERROR and still throws; on any other device throws "Only scales supports this function" |
| ViewModel.ExampleViewModel.CompareFirmware | app/src/main/java/com/datalogic/apossampleapp/ExampleViewModel.java:209-224 | success publishes the five slots unchanged and stores the path, which may be null when `getPath` returned null; failure publishes them with slot 0 set to -1, records the message, and posts no status |
| ViewModel.ExampleViewModel.UpdateFirmware | app/src/main/java/com/datalogic/apossampleapp/ExampleViewModel.java:226-235 | calls the SDK with the stored path; a failure records the message and posts no status |
| ViewModel.ExampleViewModel.SetStatisticsFormat | app/src/main/java/com/datalogic/apossampleapp/ExampleViewModel.java:390-392 | the format becomes the given one |
| Activity.ButtonsOnStatusChange | app/src/main/java/com/datalogic/apossampleapp/MainActivity.java:228-245 | ERROR changes nothing; otherwise each control is enabled exactly in its status, read-weight and async exactly for an enabled scale, and the switch is unchecked unless so; upgrade untouched |
| Activity.EnabledControlsStepToNeighbour | app/src/main/java/com/datalogic/apossampleapp/MainActivity.java:65-70 | outside ERROR a lifecycle button is enabled exactly in the status its operation starts from, and its success status is a neighbour on the chain |
| Activity.NeverStuck | app/src/main/java/com/datalogic/apossampleapp/MainActivity.java:232-237 | outside ERROR some lifecycle button is always enabled |
| Activity.AllDisabled | app/src/main/java/com/datalogic/apossampleapp/MainActivity.java:198-209 | every lifecycle button, the spinner, open-firmware, upgrade and save-statistics are off; read-weight and async are untouched |
| Activity.ComparisonOutcome | app/src/main/java/com/datalogic/apossampleapp/MainActivity.java:247-287 | upgrade is enabled exactly for OLDER, NEWER and SAME, which alone take both versions from slots 3 and 4; the text of each code; other codes show "N/A" and keep the versions |
| Activity.FirmwareComparison | app/src/main/java/com/datalogic/apossampleapp/MainActivity.java:248-287 | the switch over result[0] computes that outcome |
| Activity.UpgradeShowsBothVersions | app/src/main/java/com/datalogic/apossampleapp/MainActivity.java:257-274 | when upgrade is enabled neither version reads "N/A" and the file version reads back as slot 3 |
| Activity.ClassifyConnection | app/src/main/java/com/datalogic/apossampleapp/MainActivity.java:181-195 | first match of online, the offline set, then the update range; inside it, progress is code − SUE_UF_PROGRESS and lies below COMPLETE − PROGRESS, and COMPLETE gives a reset |
| Activity.PercentText | app/src/main/java/com/datalogic/apossampleapp/MainActivity.java:215-217 | the text ends in "%" and what precedes it is a decimal that reads back as the percentage |
| Activity.CreateFile | app/src/main/java/com/datalogic/apossampleapp/MainActivity.java:164-172 | the type is "text/" + ext and the title name + "_stats." + ext, ext being "xml" for XML and "txt" otherwise |
| Activity.CreateFileTitle | app/src/main/java/com/datalogic/apossampleapp/MainActivity.java:167-169 | the title starts with the logical name; both title and type determine the format |
| Activity.DefaultNameIsScanner | app/src/main/java/com/datalogic/apossampleapp/MainActivity.java:34 | the preselected logical name opens a scanner |
| Activity.UpgradeStartThenEnabled | app/src/main/java/com/datalogic/apossampleapp/MainActivity.java:185-192 | SUE_UF_PROGRESS starts an update at progress 0; the ENABLED the same status-update event posts then re-enables disable, open-firmware and save-statistics, while upgrade stays off |
| Activity.MainActivity.constructor | app/src/main/java/com/datalogic/apossampleapp/MainActivity.java:34 | the logical name starts as "DL-Gryphon-GD4500-USB-OEM" |
| Activity.MainActivity.OnStatusChanged | app/src/main/java/com/datalogic/apossampleapp/MainActivity.java:98-99 | every posted status re-derives the panel |
| Activity.MainActivity.OnLogicalNameSelected | app/src/main/java/com/datalogic/apossampleapp/MainActivity.java:55-57 | the selected name replaces the logical name |
| Activity.MainActivity.OnStatisticsFormatSelected | app/src/main/java/com/datalogic/apossampleapp/MainActivity.java:82-87 | position 0 selects XML, 1 AVALANCHE, any other leaves the format |
| Activity.MainActivity.HandleFirmwareComparisonResult | app/src/main/java/com/datalogic/apossampleapp/MainActivity.java:247-292 | the comparison text, both versions and the upgrade button are those of the outcome; nothing else changes |
| Activity.MainActivity.DisableAll | app/src/main/java/com/datalogic/apossampleapp/MainActivity.java:198-209 | the panel becomes its all-disabled form |
| Activity.MainActivity.ResetUpdateData | app/src/main/java/com/datalogic/apossampleapp/MainActivity.java:219-226 | texts back to "N/A", label back to the comparison caption, progress 0, then enablement from the current status |
| Activity.MainActivity.HandleConnectionStatusChange | app/src/main/java/com/datalogic/apossampleapp/MainActivity.java:180-196 | online and offline codes set only the presence icon; update codes: the handler itself disables every lifecycle button at the start, and shows the percentage, or reset at completion; other codes change nothing |
| UriHelper.WithAppendedId | app/src/main/java/com/datalogic/apossampleapp/helpers/UriHelper.java:51 | the URI is the prefix, a slash, then a decimal that reads back as the id |
| UriHelper.GetPath | app/src/main/java/com/datalogic/apossampleapp/helpers/UriHelper.java:23-82 | a display name always wins on M and later; a "raw:" id loses its prefix on both branches; a numeric id asks only public_downloads; a non-numeric id gives the stripped URI path on M, "ND" below; an empty id gives "ND" on M, and below M whenever `Long.valueOf("")` fails, as it always does; the data column may answer null |
| Scenarios.FaultFreeSession | app/src/main/java/com/datalogic/apossampleapp/ExampleViewModel.java:85-307 | without failures the six lifecycle operations post OPENED, CLAIMED, ENABLED, CLAIMED, OPENED, CLOSED and the SDK sees exactly their calls |
| Scenarios.BeforeOpen | app/src/main/java/com/datalogic/apossampleapp/ExampleViewModel.java:237-307 | in the model, before `open` each later lifecycle operation hits the null device and changes nothing; running all five in a row is possible only in the model, as the first uncaught exception would end the app |
| Scenarios.FailedOpen | app/src/main/java/com/datalogic/apossampleapp/ExampleViewModel.java:95-98 | a failing open posts ERROR and the message is shown |
| Scenarios.OpenSelectsHandle | app/src/main/java/com/datalogic/apossampleapp/ExampleViewModel.java:85-92 | after `open`, whether or not the SDK call throws, `isDeviceAScale` holds exactly when "Scale" occurs in the name and "Scanner" does not |
| Scenarios.ScanBarcode | app/src/main/java/com/datalogic/apossampleapp/ExampleViewModel.java:62-66 | label "012345" with symbology 6 on a scanner shows "012345" and "6" and stays ENABLED |
| Scenarios.WeighOnScale | app/src/main/java/com/datalogic/apossampleapp/ExampleViewModel.java:146-165 | a raw reading of 1500 shows 1.5 and a unit name is returned |
| Scenarios.ScaleOnlyOnScanner | app/src/main/java/com/datalogic/apossampleapp/ExampleViewModel.java:167-207 | async mode and the weight unit are refused on a scanner without an SDK call |
| Scenarios.RetryAfterRefusedClaim | app/src/main/java/com/datalogic/apossampleapp/ExampleViewModel.java:103-126 | after a refused claim (ERROR) a second claim succeeds: the view-model never consults the status |

## Left out

- Threads: every `new Thread(...)` body is one atomic step, and races between tasks, or between a task and the event thread, are not modelled.
- Uncaught exceptions: a `NullPointerException` (or any exception other than `APosException`) thrown inside a `new Thread` body ends the app's process on Android. The model reports it per operation as `Some(NullPointer)` and keeps going; process termination is not modelled.
- ViewModel.ExampleViewModel.Claim: the claim's `RequestListener` is taken to be called exactly once. A claim whose listener is never called, which would post nothing and keep the message, is not modelled.
- `LiveData`: `postValue` is a last-write assignment (an append, for `_status`). Coalescing of posts before an observer runs and observer timing are not modelled.
- `_online` and `_isUpgradable` are only ever created with `false` and never written after that; they are not modelled.
- The view-model does not check the status before any operation and the model adds no such guard. In the code ERROR is not terminal: the buttons stay as they were and any operation can still run (`Scenarios.RetryAfterRefusedClaim`). The model follows the code.
- `getProductName` and `getAdditionalData` are SDK getters shown only as text. The status observer's texts built from them and the status name text are not modelled.
- The weight observer's text (the weight, a space, then `getWeightUnit()`) is not modelled. The unit itself is (`GetWeightUnit`).
- `onActivityResult`: the statistics stream copy is file I/O and is not modelled. The PICK_FILE branch only passes `getPath`'s result to `compareFirmware`, and both are modelled on their own.
- `pickFile` and the intent machinery: the intent that `createFile` starts is modelled only as its type and title.
- `getProfiles`, `cleanDatabase`, `onDestroy` and the storage permission: configuration-helper and platform I/O, not modelled.
- `compareFirmware` tests `_firmwareInfo != null` before publishing on success. The model assumes the firmware cell exists, as the activity creates it at start-up.
- ViewModel.ScaleNameIsScale: states the rule for one example name only; the rule for every name is the contract of `ViewModel.KindOf`.
- ViewModel.ScannerNameIsScanner: states the rule for one example name only; the rule for every name is the contract of `ViewModel.KindOf`.
- ViewModel.BothNamesIsScanner: states the rule for one example name only; the rule for every name is the contract of `ViewModel.KindOf`.
- ViewModel.FormatWeight: the exact real raw/1000, not the rounded double of the source.
- ViewModel.ExampleViewModel.OnEvent: the label is taken already decoded; the UTF-8 decoding of the label bytes is not modelled.
- ViewModel.ExampleViewModel.RetrieveStatistics: a slot the SDK leaves null is not modelled; both slots are strings.
- Activity.PercentText: `MessageFormat` grouping separators, which would appear only for values of 1000 or more, are not modelled.
- Activity.MainActivity.HandleConnectionStatusChange: the progress bar and texts are plain values (widget rendering is left out).
- Activity.MainActivity.OnStatusChanged: the async switch's change listener is not modelled. When `setChecked(false)` unchecks a checked switch, Java then calls `setScaleAsync(false)`, an SDK call that can post ERROR; the model only records the unchecked state.
- `R.string.na` is taken to be "N/A", and `R.string.comparison` is the `ComparisonLabel` caption.
- Java `int` is 32 bits wide. The model's integers are unbounded, and no operation of the core does arithmetic where the difference shows, apart from `code − SUE_UF_PROGRESS` on vendor constants.
- UriHelper.GetPath: content-resolver queries, `Environment`, `DocumentsContract.getDocumentId` and `Long.valueOf` are oracle parameters. A cursor row with a null display name (Java would build ".../Download/null") and exceptions out of `getDocumentId` are not modelled.
