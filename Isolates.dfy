/** Isolate creation (sky/engine/core/script/dart_init.cc): the VM's
    `IsolateCreateCallback` routes the reserved service-isolate name to
    `ServiceIsolateCreateCallback` and creates every other isolate from the
    snapshot in the script's asset bundle (or from precompiled code). The
    service path flips the one-shot `g_service_isolate_initialized` flag that
    closes the hook-registration API. Calls into the VM are modelled by their
    outcomes (`VmResponses`) and by the events they leave (`Event`). */
module Isolates {
  import opened Common

  /** `DART_VM_SERVICE_ISOLATE_NAME`. */
  const ServiceIsolateName := "vm-service"
  const FileUriPrefix := "file://"
  const SnapshotAssetKey := "snapshot_blob.bin"
  const ObservatoryIp := "127.0.0.1"

  /** A non-null hook function pointer, identified by its address; a null
      hook is `None`. */
  type HookId = h: nat | h > 0 witness 1

  /** A non-null `Dart_Isolate`; a null isolate is `None`. */
  type IsolateHandle = i: nat | i > 0 witness 1

  /** What the VM, the library-tag registration, the service transport and
      the snapshot loader answer during one creation. */
  datatype VmResponses = VmResponses(
    isolate: Option<IsolateHandle>,
    isServiceIsolate: bool,
    libraryTagHandlerSet: bool,
    observatoryBoots: bool,
    snapshotLoads: bool,
    madeRunnable: bool)

  /** The asset bundles by path: for each, its assets by key. */
  datatype AssetBundles = AssetBundles(contents: map<string, map<string, seq<Byte>>>)

  /** What a creation does that the host or the VM can observe, in order. */
  datatype Event =
    | CreateIsolate(scriptUri: Option<string>, entryPoint: string)
    | StartObservatory(ip: string, port: int, precompiled: bool, disableWebsocketOriginCheck: bool)
    | ServiceIsolateHookCalled(hook: HookId, precompiled: bool)
    | ServiceIsolateInitialized
    | ExtensionHookCalled(hook: HookId, precompiled: bool)
    | LoadScriptFromSnapshot(snapshot: seq<Byte>)
    | MakeRunnable

  /** `g_service_isolate_initialized`, `g_service_isolate_hook` and
      `g_register_native_service_protocol_extensions_hook`. */
  datatype ServiceState = ServiceState(initialized: bool, serviceIsolateHook: Option<HookId>, extensionHook: Option<HookId>)

  const InitialServiceState := ServiceState(false, None, None)

  /** What one creation returns (`Ok(None)` is a null isolate), the globals it
      leaves, and its events. */
  datatype CreateEffect = CreateEffect(result: Result<Option<IsolateHandle>>, state: ServiceState, events: seq<Event>)

  /** `IsServiceIsolateURL`: a non-null URL equal to the reserved name. */
  function IsServiceIsolateURL(urlName: Option<string>): (r: bool)
    ensures r <==> urlName == Some(ServiceIsolateName)
  {
    urlName.Some? && urlName.value == ServiceIsolateName
  }

  /** `SetServiceIsolateHook`: a check failure once the service isolate exists. */
  function SetServiceIsolateHook(s: ServiceState, hook: Option<HookId>): Result<ServiceState>
  {
    if s.initialized then Fatal("hook set after the service isolate was initialized")
    else Ok(s.(serviceIsolateHook := hook))
  }

  /** `SetRegisterNativeServiceProtocolExtensionHook`: likewise. */
  function SetExtensionHook(s: ServiceState, hook: Option<HookId>): Result<ServiceState>
  {
    if s.initialized then Fatal("hook set after the service isolate was initialized")
    else Ok(s.(extensionHook := hook))
  }

  /** The call of an optional hook with the execution mode, if the hook is set. */
  function HookCall(hook: Option<HookId>, precompiled: bool, service: bool): seq<Event>
  {
    if hook.None? then []
    else if service then [ServiceIsolateHookCalled(hook.value, precompiled)]
    else [ExtensionHookCalled(hook.value, precompiled)]
  }

  /** `ServiceIsolateCreateCallback`. In a product build it returns null and
      does nothing. Otherwise the isolate is created from entry point "main";
      a null isolate, an isolate the VM does not call the service isolate, a
      failed tag-handler registration or (when the observatory is enabled) a
      transport that does not boot on the loopback address is fatal. Then the
      service hook runs, the initialized flag is set, and only after that the
      extension hook runs; both hooks are told the execution mode. */
  function ServiceIsolateCreate(s: ServiceState, scriptUri: Option<string>, productMode: bool, precompiled: bool,
                                settings: SkySettings, vm: VmResponses): CreateEffect
  {
    if productMode then CreateEffect(Ok(None), s, [])
    else
      var created := [CreateIsolate(scriptUri, "main")];
      if vm.isolate.None? then CreateEffect(Fatal("service isolate not created"), s, created)
      else if !vm.isServiceIsolate then CreateEffect(Fatal("not the service isolate"), s, created)
      else if !vm.libraryTagHandlerSet then CreateEffect(Fatal("library tag handler not set"), s, created)
      else
        var booted := created
          + (if settings.enableObservatory
             then [StartObservatory(ObservatoryIp, settings.observatoryPort, precompiled, false)] else []);
        if settings.enableObservatory && !vm.observatoryBoots then
          CreateEffect(Fatal("service isolate did not boot"), s, booted)
        else
          CreateEffect(Ok(vm.isolate), s.(initialized := true), booted + ServiceHooks(s, precompiled))
  }

  /** The tail of a successful service creation: the service hook, the flag
      being set, then the extension hook. */
  function ServiceHooks(s: ServiceState, precompiled: bool): seq<Event>
  {
    HookCall(s.serviceIsolateHook, precompiled, true) + [ServiceIsolateInitialized]
    + HookCall(s.extensionHook, precompiled, false)
  }

  /** The snapshot a non-service isolate loads: none when precompiled;
      otherwise the URI must be a `file://` URI, the rest of it is the path of
      an asset bundle, and that bundle must hold the snapshot asset. */
  function ChildSnapshot(scriptUri: Option<string>, precompiled: bool, bundles: AssetBundles): Result<seq<Byte>>
  {
    if precompiled then Ok([])
    else if scriptUri.None? || !StartsWith(scriptUri.value, FileUriPrefix) then
      Fatal("script URI is not a file:// URI")
    else
      var bundlePath := scriptUri.value[|FileUriPrefix|..];
      if bundlePath in bundles.contents && SnapshotAssetKey in bundles.contents[bundlePath] then
        Ok(bundles.contents[bundlePath][SnapshotAssetKey])
      else Fatal("snapshot asset missing")
  }

  /** The non-service part of `IsolateCreateCallback`: create the isolate,
      register the tag handler, load the snapshot only when it is non-empty,
      and make the isolate runnable; each refusal is fatal. */
  function ChildIsolateCreate(s: ServiceState, scriptUri: Option<string>, entryPoint: string, precompiled: bool,
                              bundles: AssetBundles, vm: VmResponses): CreateEffect
  {
    match ChildSnapshot(scriptUri, precompiled, bundles)
    case Fatal(reason) => CreateEffect(Fatal(reason), s, [])
    case Ok(snapshot) =>
      var created := [CreateIsolate(scriptUri, entryPoint)];
      if vm.isolate.None? then CreateEffect(Fatal("isolate not created"), s, created)
      else if !vm.libraryTagHandlerSet then CreateEffect(Fatal("library tag handler not set"), s, created)
      else
        var loaded := created + (if |snapshot| > 0 then [LoadScriptFromSnapshot(snapshot)] else []);
        if |snapshot| > 0 && !vm.snapshotLoads then CreateEffect(Fatal("snapshot did not load"), s, loaded)
        else if !vm.madeRunnable then CreateEffect(Fatal("isolate not runnable"), s, loaded + [MakeRunnable])
        else CreateEffect(Ok(vm.isolate), s, loaded + [MakeRunnable])
  }

  /** `IsolateCreateCallback`. */
  function IsolateCreate(s: ServiceState, scriptUri: Option<string>, entryPoint: string, productMode: bool,
                         precompiled: bool, settings: SkySettings, bundles: AssetBundles, vm: VmResponses): CreateEffect
  {
    if IsServiceIsolateURL(scriptUri) then ServiceIsolateCreate(s, scriptUri, productMode, precompiled, settings, vm)
    else ChildIsolateCreate(s, scriptUri, entryPoint, precompiled, bundles, vm)
  }

  /** The reserved name always takes the service path: the result is the
      service creation's, the asset bundles play no part, and no snapshot is
      ever loaded. */
  lemma ServiceNameTakesServicePath(s: ServiceState, entryPoint: string, productMode: bool, precompiled: bool,
                                    settings: SkySettings, bundles: AssetBundles, bundles': AssetBundles, vm: VmResponses)
    ensures var e := IsolateCreate(s, Some(ServiceIsolateName), entryPoint, productMode, precompiled, settings, bundles, vm);
      e == ServiceIsolateCreate(s, Some(ServiceIsolateName), productMode, precompiled, settings, vm)
      && e == IsolateCreate(s, Some(ServiceIsolateName), entryPoint, productMode, precompiled, settings, bundles', vm)
      && forall k :: 0 <= k < |e.events| ==> !e.events[k].LoadScriptFromSnapshot?
  {
  }

  /** Any other URI never touches the service globals. */
  lemma OtherUrisKeepServiceState(s: ServiceState, scriptUri: Option<string>, entryPoint: string, productMode: bool,
                                  precompiled: bool, settings: SkySettings, bundles: AssetBundles, vm: VmResponses)
    requires !IsServiceIsolateURL(scriptUri)
    ensures IsolateCreate(s, scriptUri, entryPoint, productMode, precompiled, settings, bundles, vm).state == s
  {
  }

  /** Outside precompiled mode, a URI without the `file://` scheme is fatal
      before the VM is asked for anything. */
  lemma NonFileUriIsFatal(s: ServiceState, scriptUri: Option<string>, entryPoint: string, productMode: bool,
                          settings: SkySettings, bundles: AssetBundles, vm: VmResponses)
    requires !IsServiceIsolateURL(scriptUri)
    requires scriptUri.None? || !StartsWith(scriptUri.value, FileUriPrefix)
    ensures var e := IsolateCreate(s, scriptUri, entryPoint, productMode, false, settings, bundles, vm);
      e.result.Fatal? && e.events == []
  {
  }

  /** The bundle path is the URI with `file://` removed: for the URI built
      from a path, the snapshot is that bundle's snapshot asset, and a missing
      asset is fatal. */
  lemma BundlePathIsUriWithoutScheme(path: string, bundles: AssetBundles)
    ensures ChildSnapshot(Some(FileUriPrefix + path), false, bundles)
      == if path in bundles.contents && SnapshotAssetKey in bundles.contents[path]
         then Ok(bundles.contents[path][SnapshotAssetKey])
         else Fatal("snapshot asset missing")
  {
    var uri := FileUriPrefix + path;
    assert uri[..|FileUriPrefix|] == FileUriPrefix;
    assert uri[|FileUriPrefix|..] == path;
  }

  /** A snapshot is loaded exactly when the extracted buffer is non-empty
      (once the isolate exists), and never in precompiled mode. */
  lemma SnapshotLoadedIffNonEmpty(s: ServiceState, scriptUri: Option<string>, entryPoint: string, precompiled: bool,
                                  bundles: AssetBundles, vm: VmResponses)
    requires ChildSnapshot(scriptUri, precompiled, bundles).Ok?
    requires vm.isolate.Some? && vm.libraryTagHandlerSet
    ensures var snapshot := ChildSnapshot(scriptUri, precompiled, bundles).value;
      var e := ChildIsolateCreate(s, scriptUri, entryPoint, precompiled, bundles, vm);
      (LoadScriptFromSnapshot(snapshot) in e.events <==> |snapshot| > 0)
      && (precompiled ==> forall k :: 0 <= k < |e.events| ==> !e.events[k].LoadScriptFromSnapshot?)
  {
    var snapshot := ChildSnapshot(scriptUri, precompiled, bundles).value;
    var e := ChildIsolateCreate(s, scriptUri, entryPoint, precompiled, bundles, vm);
    if |snapshot| > 0 {
      assert e.events[1] == LoadScriptFromSnapshot(snapshot);
    }
  }

  /** The initialized flag is set by a successful service creation in a
      non-product build and by nothing else, the hooks are never changed by a
      creation, and once set the flag stays set. */
  lemma InitializedOnlyBySuccessfulServiceCreation(s: ServiceState, scriptUri: Option<string>, entryPoint: string,
                                                   productMode: bool, precompiled: bool, settings: SkySettings,
                                                   bundles: AssetBundles, vm: VmResponses)
    ensures var e := IsolateCreate(s, scriptUri, entryPoint, productMode, precompiled, settings, bundles, vm);
      e.state.initialized
        == (s.initialized || (IsServiceIsolateURL(scriptUri) && !productMode && e.result.Ok?))
      && e.state.serviceIsolateHook == s.serviceIsolateHook
      && e.state.extensionHook == s.extensionHook
  {
  }

  /** After a successful service creation both hook setters are fatal and
      change nothing; before it they simply store the hook. */
  lemma HooksFrozenAfterServiceIsolate(s: ServiceState, scriptUri: Option<string>, precompiled: bool,
                                       settings: SkySettings, vm: VmResponses, hook: Option<HookId>)
    requires ServiceIsolateCreate(s, scriptUri, false, precompiled, settings, vm).result.Ok?
    ensures var s' := ServiceIsolateCreate(s, scriptUri, false, precompiled, settings, vm).state;
      SetServiceIsolateHook(s', hook).Fatal? && SetExtensionHook(s', hook).Fatal?
    ensures !s.initialized ==>
      SetServiceIsolateHook(s, hook) == Ok(s.(serviceIsolateHook := hook))
      && SetExtensionHook(s, hook) == Ok(s.(extensionHook := hook))
  {
  }

  /** On success the service hook (if any) runs before the flag is set and the
      extension hook (if any) after it, each exactly once and told the mode;
      the observatory is started on the loopback address, with the websocket
      origin check on, exactly when it is enabled. */
  lemma ServiceCreationOrder(s: ServiceState, scriptUri: Option<string>, precompiled: bool,
                             settings: SkySettings, vm: VmResponses)
    requires ServiceIsolateCreate(s, scriptUri, false, precompiled, settings, vm).result.Ok?
    ensures var ev := ServiceIsolateCreate(s, scriptUri, false, precompiled, settings, vm).events;
      var n := if settings.enableObservatory then 2 else 1;
      var h := if s.serviceIsolateHook.Some? then 1 else 0;
      ev[0] == CreateIsolate(scriptUri, "main")
      && (settings.enableObservatory ==>
            ev[1] == StartObservatory(ObservatoryIp, settings.observatoryPort, precompiled, false))
      && (s.serviceIsolateHook.Some? ==>
            ev[n] == ServiceIsolateHookCalled(s.serviceIsolateHook.value, precompiled))
      && ev[n + h] == ServiceIsolateInitialized
      && (s.extensionHook.Some? ==>
            |ev| == n + h + 2 && ev[n + h + 1] == ExtensionHookCalled(s.extensionHook.value, precompiled))
      && (s.extensionHook.None? ==> |ev| == n + h + 1)
  {
  }

  /** The globals of the service-isolate bootstrap, written in place. */
  class ServiceIsolateGlobals {
    var initialized: bool
    var serviceIsolateHook: Option<HookId>
    var extensionHook: Option<HookId>

    function State(): ServiceState
      reads this
    {
      ServiceState(initialized, serviceIsolateHook, extensionHook)
    }

    constructor ()
      ensures State() == InitialServiceState
    {
      initialized := false;
      serviceIsolateHook := None;
      extensionHook := None;
    }

    /** `SetServiceIsolateHook`. */
    method SetServiceIsolateHookCallback(hook: Option<HookId>) returns (r: Result<()>)
      modifies this
      ensures var step := SetServiceIsolateHook(old(State()), hook);
        (r.Ok? <==> step.Ok?) && State() == (if step.Ok? then step.value else old(State()))
    {
      if initialized {
        return Fatal("hook set after the service isolate was initialized");
      }
      serviceIsolateHook := hook;
      r := Ok(());
    }

    /** `SetRegisterNativeServiceProtocolExtensionHook`. */
    method SetExtensionHookCallback(hook: Option<HookId>) returns (r: Result<()>)
      modifies this
      ensures var step := SetExtensionHook(old(State()), hook);
        (r.Ok? <==> step.Ok?) && State() == (if step.Ok? then step.value else old(State()))
    {
      if initialized {
        return Fatal("hook set after the service isolate was initialized");
      }
      extensionHook := hook;
      r := Ok(());
    }

    /** `ServiceIsolateCreateCallback`. */
    method ServiceIsolateCreateCallback(scriptUri: Option<string>, productMode: bool, precompiled: bool,
                                        settings: SkySettings, vm: VmResponses)
      returns (r: Result<Option<IsolateHandle>>, events: seq<Event>)
      modifies this
      ensures CreateEffect(r, State(), events)
        == ServiceIsolateCreate(old(State()), scriptUri, productMode, precompiled, settings, vm)
    {
      if productMode {
        return Ok(None), [];
      }
      events := [CreateIsolate(scriptUri, "main")];
      if vm.isolate.None? {
        return Fatal("service isolate not created"), events;
      }
      if !vm.isServiceIsolate {
        return Fatal("not the service isolate"), events;
      }
      if !vm.libraryTagHandlerSet {
        return Fatal("library tag handler not set"), events;
      }
      if settings.enableObservatory {
        events := events + [StartObservatory(ObservatoryIp, settings.observatoryPort, precompiled, false)];
        if !vm.observatoryBoots {
          return Fatal("service isolate did not boot"), events;
        }
      }
      ghost var s := State();
      var hooks: seq<Event> := [];
      if serviceIsolateHook.Some? {
        hooks := [ServiceIsolateHookCalled(serviceIsolateHook.value, precompiled)];
      }
      initialized := true;
      hooks := hooks + [ServiceIsolateInitialized];
      if extensionHook.Some? {
        hooks := hooks + [ExtensionHookCalled(extensionHook.value, precompiled)];
      }
      assert hooks == ServiceHooks(s, precompiled);
      events := events + hooks;
      r := Ok(vm.isolate);
    }

    /** `IsolateCreateCallback`. */
    method IsolateCreateCallback(scriptUri: Option<string>, entryPoint: string, productMode: bool, precompiled: bool,
                                 settings: SkySettings, bundles: AssetBundles, vm: VmResponses)
      returns (r: Result<Option<IsolateHandle>>, events: seq<Event>)
      modifies this
      ensures CreateEffect(r, State(), events)
        == IsolateCreate(old(State()), scriptUri, entryPoint, productMode, precompiled, settings, bundles, vm)
    {
      if IsServiceIsolateURL(scriptUri) {
        r, events := ServiceIsolateCreateCallback(scriptUri, productMode, precompiled, settings, vm);
        return;
      }
      var snapshot: seq<Byte> := [];
      if !precompiled {
        if scriptUri.None? || !StartsWith(scriptUri.value, FileUriPrefix) {
          return Fatal("script URI is not a file:// URI"), [];
        }
        var bundlePath := scriptUri.value[|FileUriPrefix|..];
        if bundlePath !in bundles.contents || SnapshotAssetKey !in bundles.contents[bundlePath] {
          return Fatal("snapshot asset missing"), [];
        }
        snapshot := bundles.contents[bundlePath][SnapshotAssetKey];
      }
      events := [CreateIsolate(scriptUri, entryPoint)];
      if vm.isolate.None? {
        return Fatal("isolate not created"), events;
      }
      if !vm.libraryTagHandlerSet {
        return Fatal("library tag handler not set"), events;
      }
      if |snapshot| > 0 {
        events := events + [LoadScriptFromSnapshot(snapshot)];
        if !vm.snapshotLoads {
          return Fatal("snapshot did not load"), events;
        }
      }
      events := events + [MakeRunnable];
      if !vm.madeRunnable {
        return Fatal("isolate not runnable"), events;
      }
      r := Ok(vm.isolate);
    }
  }
}
