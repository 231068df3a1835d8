# Dart VM embedder start-up, modelled in Dafny

This project models the decision and state logic in
`sky/engine/core/script/dart_init.cc`, the file of the Sky/Flutter engine that
starts the embedded Dart VM and answers the VM's callbacks. The VM, the file
system, the dynamic loader and the host settings appear only as inputs. The
model covers these parts:

- **VM flags** (`VmFlags.dfy`, `FlagSplitting.dfy`). `InitDartVM` builds the flag vector it passes to
  `Dart_SetVMFlags`, in this order:
  - `--ignore-unrecognized-flags`;
  - the profiling, mirrors and background-compilation tables;
  - the precompilation table in precompiled mode;
  - the checked-mode table when `ShouldEnableCheckedMode` says so;
  - the start-paused and startup-tracing tables when their settings are on;
  - the words of the `dart-flags` switch.

  The vector is a growable array (`FlagVector`). The switch value is split the
  way `std::istream_iterator<std::string>` splits it: on C-locale whitespace.
  Both are specified by pure functions (`VmFlags`, `Tokens`), and the lemmas
  about those functions state the ordering and presence properties.
- **Snapshot symbol resolution.**
  - On Android (`SymbolAssets.dfy`), a four-row table `g_symbol_assets` has one
    mapping slot per row. The slot is written in place after the asset file is
    sized, opened and `mmap`ped. File-system answers are an input, and each
    lookup returns the file-system calls it made.
  - On iOS (`DynamicSymbols.dfy`), `dlopen`/`dlsym` are tried on `app.dylib`
    first and on the default namespace second.
  - In both variants, `IsRunningPrecompiledCode` holds exactly when the
    instructions symbol resolves to a non-null address.
- **Isolate creation** (`Isolates.dfy`).
  - `IsolateCreateCallback` sends the reserved service-isolate name to
    `ServiceIsolateCreateCallback`.
  - Other isolates load the `snapshot_blob.bin` asset of the bundle that their
    `file://` URI names. Precompiled isolates load no snapshot.
  - Creating the service isolate sets the one-shot flag
    `g_service_isolate_initialized`. From then on both hook setters are fatal.
  - `productMode` stands for `FLUTTER_PRODUCT_MODE` being defined, the test
    line 172 makes with `#ifdef` when it picks the product stub of
    `ServiceIsolateCreateCallback`. Lines 57 and 292 test the macro's value
    with `#if`, and line 583 its definition with `#ifndef`; the model assumes
    the macro is either undefined or defined as non-zero, the only builds in
    which those tests agree.
  - VM answers are inputs (`VmResponses`). What a creation does is recorded as
    a sequence of `Event`s. A failing `FTL_CHECK`/`CHECK` is the result
    `Fatal`.
- **Diagnostics** (`Diagnostics.dfy`):
  - the stdout/stderr capture switches driven by the service stream
    listen/cancel callbacks;
  - the embedder tracing-callback slot and the timeline start/stop
    notifications.
- **File-modified check** (`FileModified.dfy`). `DartFileModifiedCallback`
  strips the `file:` prefix and stats the file. It splits `since_ms` with C++
  truncating division and compares the file's time strictly with it. The whole
  seconds pass through `time_t`, whose width (32 bits on the 32-bit Android
  and iOS targets, 64 bits elsewhere) is a parameter. Times are microseconds
  since the Unix epoch.

`Common.dfy` holds the shared vocabulary:

- `Option` stands for a nullable pointer, and an `Address` is never zero, so a zero `dlsym` or `mmap` result is `None`;
- `Result` carries the abort of a failed check;
- `SkySettings` holds the host settings;
- there are constants for the four snapshot symbol names.

The service isolate's name, `"vm-service"`, is the value of
`DART_VM_SERVICE_ISOLATE_NAME`, which comes from the VM's API header; that
header is not part of this model.

The source calls `IsRunningPrecompiledCode()` several times, and each call
looks up the instructions symbol again. The flag and isolate models take one
`precompiled` answer instead. That answer stays the same once a lookup has
succeeded, because later lookups return the cached address
(`SymbolAssets.LookupIsIdempotent`). A failed lookup is not cached
(`SymbolAssets.FailureIsRetried`), so a later call can answer differently;
"## Left out" lists what that leaves unmodelled. The build without dynamic
resolution, where the answer is always false, is the case
`precompiled == false`.

## Model

| member | source | states |
|---|---|---|
| FlagSplitting.Word | sky/engine/core/script/dart_init.cc:570-576 | one extraction reads a maximal run of non-whitespace: a prefix of the input with no whitespace, followed by whitespace or the end, and non-empty when the input starts with a non-space |
| FlagSplitting.TokensAreFlags | sky/engine/core/script/dart_init.cc:566-577 | every word read from the `dart-flags` value is non-empty and contains no whitespace |
| FlagSplitting.TokensKeepEveryCharacter | sky/engine/core/script/dart_init.cc:566-577 | the words, concatenated, are exactly the switch value with its whitespace removed: no character is lost, reordered or invented |
| FlagSplitting.TokensOfJoin | sky/engine/core/script/dart_init.cc:566-577 | splitting inverts joining with spaces: whitespace-free flags come back one for one and in order |
| FlagSplitting.SplitFlags | sky/engine/core/script/dart_init.cc:566-577 | the reading loop yields exactly `Tokens` of the value (the words the lemmas above characterise), each a valid flag |
| VmFlags.ShouldEnableCheckedMode | sky/engine/core/script/dart_init.cc:511-523 | checked mode is on iff the VM is not precompiled and the build is strict or the setting asks for it |
| VmFlags.FixedArgsLead | sky/engine/core/script/dart_init.cc:547-552 | the vector opens with `--ignore-unrecognized-flags`, then the profiling, mirrors and background-compilation flags, and this prefix is the same for every mode, setting and user flag |
| VmFlags.FixedArgsExclude | sky/engine/core/script/dart_init.cc:84-124 | none of the fixed tables contains the precompilation, checked-mode, start-paused or tracing flags |
| VmFlags.PrecompilationFlagIff | sky/engine/core/script/dart_init.cc:554-555 | `--precompilation` is among the default flags iff the VM runs precompiled code |
| VmFlags.CheckedModeFlagsIff | sky/engine/core/script/dart_init.cc:557-558 | each of the four checked-mode flags is present iff not precompiled and (strict build or checked-mode setting); a precompiled VM never has them |
| VmFlags.SettingsFlagsIff | sky/engine/core/script/dart_init.cc:560-564 | the start-paused flag and both tracing flags are present iff their settings are on |
| VmFlags.CheckedModeFlagsOrder | sky/engine/core/script/dart_init.cc:557-564 | when checked mode is on, each of its four flags comes before the start-paused flag and before both tracing flags |
| VmFlags.StartPausedBeforeTracing | sky/engine/core/script/dart_init.cc:560-564 | with both settings on, the start-paused flag comes before both tracing flags, in every mode |
| VmFlags.UserFlagsLast | sky/engine/core/script/dart_init.cc:566-580 | the user's flags form the tail of the vector, in their original order, after all default flags |
| VmFlags.FlagVector.constructor | sky/engine/core/script/dart_init.cc:541 | a new vector is empty |
| VmFlags.FlagVector.ExpandCapacity | sky/engine/core/script/dart_init.cc:541 | growing the buffer keeps the contents and gives room for the requested number of flags |
| VmFlags.FlagVector.Append | sky/engine/core/script/dart_init.cc:547 | appending adds the flag at the end and keeps everything before it |
| VmFlags.FlagVector.AppendAll | sky/engine/core/script/dart_init.cc:549-552 | appending a table adds its flags at the end in table order |
| VmFlags.FlagVector.AppendIf | sky/engine/core/script/dart_init.cc:554-564 | a conditional append adds the table exactly when its condition holds |
| VmFlags.AppendFixedArgs | sky/engine/core/script/dart_init.cc:547-552 | the unconditional appends add exactly the fixed tables, in order |
| VmFlags.AppendModeArgs | sky/engine/core/script/dart_init.cc:554-564 | the conditional appends add exactly the mode- and settings-dependent tables, in order |
| VmFlags.AppendDefaultArgs | sky/engine/core/script/dart_init.cc:541-564 | all appends before the user flags add exactly the default flags |
| VmFlags.ComposeVmFlags | sky/engine/core/script/dart_init.cc:541-581 | the vector handed to the VM is `VmFlags` (`DefaultArgs`, then the user's words), the function the presence and order lemmas above are about, and starts with `--ignore-unrecognized-flags` |
| DynamicSymbols.LookupSymbolInLibrary | sky/engine/core/script/dart_init.cc:344-357 | a library lookup yields an address iff the name is non-null and `dlopen` and `dlsym` both succeed with that address |
| DynamicSymbols.DartSymbolLookup | sky/engine/core/script/dart_init.cc:359-377 | a null name gives null; a symbol exported by the application library wins; any answer comes from the application library or the default namespace |
| DynamicSymbols.LookupFollowsSearchOrder | sky/engine/core/script/dart_init.cc:365-376 | the lookup equals a first-found search over the list [application library, default namespace] |
| DynamicSymbols.FallbackToDefaultNamespace | sky/engine/core/script/dart_init.cc:371-376 | without an application-library symbol, the answer is the default namespace's |
| DynamicSymbols.IsRunningPrecompiledCode | sky/engine/core/script/dart_init.cc:442-453 | precompiled iff the instructions symbol resolves to an address in one of the two libraries |
| SymbolAssets.MatchInStaticTable | sky/engine/core/script/dart_init.cc:389-401 | a name matches a row iff it is one of the four snapshot symbols |
| SymbolAssets.UnknownSymbolHasNoEffect | sky/engine/core/script/dart_init.cc:399-433 | a name outside the table returns null, changes no row and makes no file-system call |
| SymbolAssets.CachedMappingNeedsNoIo | sky/engine/core/script/dart_init.cc:403-405 | a row that holds a mapping returns it, with no change and no file-system call, whatever the files and the snapshot path |
| SymbolAssets.FirstMatchIsUnique | sky/engine/core/script/dart_init.cc:389-394 | the symbol names are distinct, so each row is the match for its own name |
| SymbolAssets.OnlyMatchedRowChanges | sky/engine/core/script/dart_init.cc:399-431 | a lookup keeps the table's layout, changes only the matched row's slot and never overwrites a stored mapping |
| SymbolAssets.SuccessIsCached | sky/engine/core/script/dart_init.cc:425-430 | an address returned by a lookup is stored in the row of that name |
| SymbolAssets.FailureIsRetried | sky/engine/core/script/dart_init.cc:413-426 | a lookup that yields null leaves the table unchanged, so the next lookup goes back to the file system |
| SymbolAssets.LookupIsIdempotent | sky/engine/core/script/dart_init.cc:403-430 | after a successful lookup, the same lookup returns the same address with no file access, whatever the file system then holds |
| SymbolAssets.ExecuteOnlyForInstructions | sky/engine/core/script/dart_init.cc:421-425 | every `mmap` asks for read access, and for execute access exactly when the symbol is `kInstructionsSnapshot` |
| SymbolAssets.MissingSnapshotPathIsFatal | sky/engine/core/script/dart_init.cc:407-408 | a lookup that needs a file while the AOT snapshot path is empty aborts before any file access |
| SymbolAssets.SymbolAssetTable.constructor | sky/engine/core/script/dart_init.cc:389-394 | the table starts with the four rows, none of them mapped |
| SymbolAssets.SymbolAssetTable.Lookup | sky/engine/core/script/dart_init.cc:398-434 | the in-place scan-and-map returns, stores and calls exactly what `LookupStep` (first match, then `MapAsset` for an unmapped row) gives on the old rows, and keeps the table's layout |
| SymbolAssets.SymbolAssetTable.IsRunningPrecompiledCode | sky/engine/core/script/dart_init.cc:450-453 | precompiled iff the instructions lookup returns non-null; the table and calls are that lookup's |
| FileModified.FindFrom | sky/engine/core/script/dart_init.cc:146 | the search for `file:` returns the first index at or after the start where it occurs, and none when it occurs nowhere |
| FileModified.ReplaceFirstOfPrefix | sky/engine/core/script/dart_init.cc:146 | removing the first `file:` from a URL that starts with it leaves the rest of the URL |
| FileModified.SplitMilliseconds | sky/engine/core/script/dart_init.cc:153-155 | seconds*1000 + milliseconds == since_ms, with \|milliseconds\| < 1000 and the milliseconds taking the sign of since_ms (truncating division) |
| FileModified.TruncationIsNotEuclidean | sky/engine/core/script/dart_init.cc:153-155 | for every negative since_ms that is not a whole number of seconds, the split is (since_ms div 1000 + 1, since_ms mod 1000 - 1000) in Euclidean terms: truncation differs from Euclidean division there |
| FileModified.SinceTime | sky/engine/core/script/dart_init.cc:156-157 | the `int64_t` seconds are narrowed to `time_t` (32 or 64 bits, `ToTimeT` wraps) before `FromTimeT`; when they fit, the rebuilt instant is exactly since_ms milliseconds, whatever its sign, and with a 64-bit `time_t` they always fit |
| FileModified.DartFileModified | sky/engine/core/script/dart_init.cc:140-159 | a non-`file:` URL or an unstat-able file counts as modified; otherwise modified iff its time is strictly after the instant `SinceTime` rebuilds from since_ms |
| FileModified.UnchangedExactlyUpToSince | sky/engine/core/script/dart_init.cc:153-158 | when since_ms's whole seconds fit in `time_t`, a file whose time is at or before since_ms is reported unchanged, and one even a microsecond later is reported changed |
| FileModified.SinceTimeWrapsAfter2038 | sky/engine/core/script/dart_init.cc:154-157 | with a 32-bit `time_t`, a since_ms between 2^31 and 2^32 seconds after the epoch is rebuilt 2^32 seconds too early, before 1970 |
| FileModified.EverythingModifiedAfter2038 | sky/engine/core/script/dart_init.cc:154-158 | with a 32-bit `time_t` and such a since_ms, every file changed at or after the epoch is reported modified |
| Diagnostics.StdioCapture.constructor | sky/engine/core/script/dart_init.cc:301-302 | capture of both streams starts off; the switches themselves belong to the VM's I/O library (`dart::bin`), which is not part of this model, so their initial state is an assumption |
| Diagnostics.StdioCapture.ServiceStreamListen | sky/engine/core/script/dart_init.cc:304-313 | "Stdout"/"Stderr" turn on only their own capture and are accepted; any other id is refused and changes nothing |
| Diagnostics.StdioCapture.ServiceStreamCancel | sky/engine/core/script/dart_init.cc:315-321 | a known id turns off only its own capture; any other id changes nothing |
| Diagnostics.TracingBridge.constructor | sky/engine/core/script/dart_init.cc:471-472 | the tracing slot starts empty |
| Diagnostics.TracingBridge.SetEmbedderTracingCallbacks | sky/engine/core/script/dart_init.cc:479-482 | the slot holds exactly the pair last set, replacing any earlier one |
| Diagnostics.TracingBridge.EmbedderTimelineStartRecording | sky/engine/core/script/dart_init.cc:484-490 | the start callback of the pair is invoked iff a pair is set; otherwise nothing is invoked |
| Diagnostics.TracingBridge.EmbedderTimelineStopRecording | sky/engine/core/script/dart_init.cc:492-498 | the stop callback of the pair is invoked iff a pair is set; otherwise nothing is invoked |
| Isolates.IsServiceIsolateURL | sky/engine/core/script/dart_init.cc:167-170 | a URL is the service isolate's iff it is non-null and equals the reserved name |
| Isolates.ServiceNameTakesServicePath | sky/engine/core/script/dart_init.cc:234-236 | the reserved name always takes the service path, whatever the asset bundles, and loads no snapshot |
| Isolates.OtherUrisKeepServiceState | sky/engine/core/script/dart_init.cc:238-289 | creating any other isolate leaves the service flag and both hooks unchanged |
| Isolates.NonFileUriIsFatal | sky/engine/core/script/dart_init.cc:239-241 | outside precompiled mode, a URI without `file://` aborts before the VM is asked for anything |
| Isolates.BundlePathIsUriWithoutScheme | sky/engine/core/script/dart_init.cc:242-245 | the bundle path is the URI minus `file://`; the snapshot is that bundle's `snapshot_blob.bin`, and a missing asset aborts |
| Isolates.SnapshotLoadedIffNonEmpty | sky/engine/core/script/dart_init.cc:238-280 | a snapshot is loaded iff the extracted buffer is non-empty, and never in precompiled mode |
| Isolates.InitializedOnlyBySuccessfulServiceCreation | sky/engine/core/script/dart_init.cc:181-221 | the flag becomes true only through a successful service creation in a non-product build, stays true once set, and no creation changes the hooks |
| Isolates.HooksFrozenAfterServiceIsolate | sky/engine/core/script/dart_init.cc:500-509 | after the service isolate exists both hook setters abort; before it they store the hook |
| Isolates.ServiceCreationOrder | sky/engine/core/script/dart_init.cc:199-219 | on success: create from "main", start the observatory on 127.0.0.1 with the origin check on iff enabled, service hook, flag set, then extension hook, each hook told the mode |
| Isolates.ServiceIsolateGlobals.constructor | sky/engine/core/script/dart_init.cc:130-133 | the flag starts false and both hooks null |
| Isolates.ServiceIsolateGlobals.SetServiceIsolateHookCallback | sky/engine/core/script/dart_init.cc:500-503 | in place: the new globals are what `SetServiceIsolateHook` gives on the old ones: the hook is stored unless the service isolate exists, in which case it aborts and changes nothing |
| Isolates.ServiceIsolateGlobals.SetExtensionHookCallback | sky/engine/core/script/dart_init.cc:505-509 | likewise, by `SetExtensionHook`, for the native service-protocol extension hook |
| Isolates.ServiceIsolateGlobals.ServiceIsolateCreateCallback | sky/engine/core/script/dart_init.cc:174-221 | in place: returns, leaves and emits exactly what `ServiceIsolateCreate` gives on the old globals (null and no effect in a product build) |
| Isolates.ServiceIsolateGlobals.IsolateCreateCallback | sky/engine/core/script/dart_init.cc:225-289 | in place: returns, leaves and emits exactly what `IsolateCreate` gives on the old globals: `ServiceIsolateCreate` for the reserved name, otherwise `ChildIsolateCreate` with the snapshot `ChildSnapshot` picks |

## Left out

- Calls into the Dart VM are outcomes in `VmResponses` or events in `Event`, not executions: `Dart_CreateIsolate`, `Dart_IsServiceIsolate`, `Dart_SetLibraryTagHandler`, `Dart_LoadScriptFromSnapshot` and `Dart_IsolateMakeRunnable`. Their code is not part of this model. Timeline events and API scopes are left out.
- `ComposeVmFlags` stops at the vector handed to `Dart_SetVMFlags`. The VM refusing that vector would abort the process, and that outcome is not modelled.
- Real I/O (`open`, `mmap`, `close`, `GetFileSize`, `GetFileInfo`, `dlopen`, `dlsym`, `ZipAssetBundle`) is a map-based oracle passed to each call. Its errors are the absence of an entry.
- `DartServiceIsolate::Startup` and the observatory transport are network plumbing. Only whether they boot, and the address, port, mode and origin-check arguments they receive, are modelled.
- JNI, the `DartIO`/`DartUI`/`DartMojoInternal` bindings, `DartRuntimeHooks`, class providers, `FlutterDartState::CreateForChildIsolate` (the child's state derived from its parent's, lines 248-250) and `DidCreateSecondaryIsolate` wrap code that is not part of this model.
- Concurrent isolate creation and the thread safety of the shared symbol table are left out. Callers are sequential.
- `TRACE_EVENT0` and logging have no observable effect here.
- `InitDartVM`'s other start-up steps are left out, because each hands values to the VM or to `base` code outside this model. They are: setting the system temp directory when `temp_directory_path` is non-empty (line 533; `SkySettings.tempDirectoryPath` is carried but unused); the debugger; the callback registrations; `Dart_Initialize` and its error check; and the start-timestamp event, sent only when `engine_main_enter_ts` is non-zero (line 626).
- Snapshot-buffer lookups are left out of the isolate and start-up models. `Dart_CreateIsolate` (lines 186 and 254) is given `DART_SYMBOL(kDartIsolateSnapshotBuffer)`. `Dart_Initialize` (lines 606-608) is given the VM-isolate, instructions and data snapshot symbols. On Android each is a table lookup (`SymbolAssets.SymbolAssetTable.Lookup`) that may map a file or abort. The isolate models do not make these lookups, and the `CreateIsolate` event carries no snapshot buffer.
- `GetVMServiceAssetsArchiveCallback`, `IsolateShutdownCallback` and `ThreadExitCallback` only forward to code outside this model.
- `SymbolAssets.AppendPath`: `base::FilePath::Append` is modelled only as joining with a single `/`; further path normalisation is in `base`, which is not part of this model.
- `VmFlags.FlagVector.ExpandCapacity`: the growth policy of `WTF::Vector` (length + length/4 + 1, at least what is asked) is an assumption, since `WTF` is not part of this model; only the preserved contents matter to the properties.
- SinceTime: does not model `base::Time::FromTimeT` returning the null time for 0 seconds (when |since_ms| < 1000, or when a 32-bit `time_t` wraps to 0) or the maximum time for the largest `time_t`, or int64 overflow of a microsecond count; all three live in `base`, which is not part of this model. The narrowing to `time_t` is modelled.
- DartFileModified: for the same reasons compares with since_ms's instant where the source compares with the null or maximum time: a pre-1970 file with |since_ms| < 1000 is reported unchanged here and modified by the source. A `time_t` wrap is modelled and changes the answer as in the source (`EverythingModifiedAfter2038`).
- UnchangedExactlyUpToSince: the exact boundary is promised only when the seconds fit in `time_t`; even then it fails in the source for |since_ms| < 1000 or the largest `time_t`, where `FromTimeT` returns the null or maximum time, which this model does not represent.
- ComposeVmFlags: takes one `precompiled` answer, but `InitDartVM` looks up the instructions symbol twice, at line 554 and inside `ShouldEnableCheckedMode` at line 512. On Android the first lookup can fail and the second succeed. The vector then has no `--precompilation` and no checked-mode flags, even when the build or the setting asks for checked mode; the start-paused, tracing and user flags still follow as usual. No value of `precompiled` produces that vector. The first lookup aborts when the AOT snapshot path is empty (line 408), which a boolean cannot express; if it returns, the second cannot abort.
- The isolate models take `IsRunningPrecompiledCode()` as one input per creation, though the source may look it up several times (lines 204, 210, 218 and 239). On Android a lookup that fails and then succeeds within one creation changes the answer between calls, and a lookup can abort; neither case is modelled.
