/** Symbol resolution through the dynamic loader, the iOS variant of
    `_DartSymbolLookup` (sky/engine/core/script/dart_init.cc): the
    application library is searched first, the default namespace second. */
module DynamicSymbols {
  import opened Common

  /** The library `dlopen` is asked for: a path, or `nullptr` (`None`) for the
      default namespace of the process. */
  type Library = Option<string>

  const ApplicationLibrary: Library := Some("app.dylib")
  const DefaultNamespace: Library := None

  /** What the dynamic loader would answer: the libraries `dlopen` loads
      without error and, for each, the symbols `dlsym` finds without error.
      A found symbol may still have a null value. */
  datatype DynamicLoader = DynamicLoader(libraries: map<Library, map<string, Option<Address>>>)

  /** The symbol `dlsym` yields for `name` in `library` without setting an error. */
  predicate Exports(loader: DynamicLoader, library: Library, name: string, a: Address)
  {
    library in loader.libraries && name in loader.libraries[library]
    && loader.libraries[library][name] == Some(a)
  }

  /** `DartLookupSymbolInLibrary`: null for a null name; null when `dlopen` or
      `dlsym` report an error; otherwise whatever `dlsym` returned. */
  function LookupSymbolInLibrary(symbolName: Option<string>, library: Library, loader: DynamicLoader): (r: Option<Address>)
    ensures forall a: Address :: r == Some(a) <==> symbolName.Some? && Exports(loader, library, symbolName.value, a)
  {
    if symbolName.None? then None
    else if library !in loader.libraries then None
    else if symbolName.value !in loader.libraries[library] then None
    else loader.libraries[library][symbolName.value]
  }

  /** `_DartSymbolLookup` on iOS: a non-null answer from the application
      library wins; otherwise the default namespace decides; a null name, or a
      symbol neither provides, gives null. */
  function DartSymbolLookup(symbolName: Option<string>, loader: DynamicLoader): (r: Option<Address>)
    ensures symbolName.None? ==> r.None?
    ensures symbolName.Some? ==>
      forall a: Address :: Exports(loader, ApplicationLibrary, symbolName.value, a) ==> r == Some(a)
    ensures r.Some? ==>
      (symbolName.Some? &&
       (Exports(loader, ApplicationLibrary, symbolName.value, r.value)
        || Exports(loader, DefaultNamespace, symbolName.value, r.value)))
  {
    if symbolName.None? then None
    else
      var symbol := LookupSymbolInLibrary(symbolName, ApplicationLibrary, loader);
      if symbol.Some? then symbol
      else LookupSymbolInLibrary(symbolName, DefaultNamespace, loader)
  }

  /** Reference definition: the first library of `order` that yields a
      non-null symbol decides. */
  function FirstResolved(name: string, order: seq<Library>, loader: DynamicLoader): Option<Address>
  {
    if order == [] then None
    else
      var symbol := LookupSymbolInLibrary(Some(name), order[0], loader);
      if symbol.Some? then symbol else FirstResolved(name, order[1..], loader)
  }

  /** The lookup is a search of the application library, then the default
      namespace, in that order. */
  lemma LookupFollowsSearchOrder(name: string, loader: DynamicLoader)
    ensures DartSymbolLookup(Some(name), loader)
      == FirstResolved(name, [ApplicationLibrary, DefaultNamespace], loader)
  {
    var order := [ApplicationLibrary, DefaultNamespace];
    assert order[1..] == [DefaultNamespace];
    assert order[1..][1..] == [];
    assert FirstResolved(name, order[1..], loader)
      == LookupSymbolInLibrary(Some(name), DefaultNamespace, loader);
  }

  /** When the application library does not provide a non-null symbol, the
      lookup answers exactly as the default namespace does. */
  lemma FallbackToDefaultNamespace(name: string, loader: DynamicLoader)
    requires forall a :: !Exports(loader, ApplicationLibrary, name, a)
    ensures DartSymbolLookup(Some(name), loader) == LookupSymbolInLibrary(Some(name), DefaultNamespace, loader)
  {
  }

  /** `IsRunningPrecompiledCode` with dynamic resolution: precompiled exactly
      when the instructions symbol resolves to a non-null address. */
  function IsRunningPrecompiledCode(loader: DynamicLoader): (r: bool)
    ensures r <==> exists a: Address ::
      (Exports(loader, ApplicationLibrary, InstructionsSnapshotName, a)
       || Exports(loader, DefaultNamespace, InstructionsSnapshotName, a))
  {
    var symbol := DartSymbolLookup(Some(InstructionsSnapshotName), loader);
    assert symbol.Some? ==>
      (Exports(loader, ApplicationLibrary, InstructionsSnapshotName, symbol.value)
       || Exports(loader, DefaultNamespace, InstructionsSnapshotName, symbol.value));
    symbol.Some?
  }
}
